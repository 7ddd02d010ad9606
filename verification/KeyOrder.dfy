// Strict total orders and what `orderBy` with `take` returns under one: the ascending listing of
// a set of keys, or of its first few.
module KeyOrder {

  ghost predicate StrictTotal<K(!new)>(less: (K, K) -> bool) {
    && (forall a, b :: less(a, b) || less(b, a) || a == b)
    && (forall a :: !less(a, a))
    && (forall a, b, c :: less(a, b) && less(b, c) ==> less(a, c))
  }

  ghost predicate Ascending<K>(keys: seq<K>, less: (K, K) -> bool) {
    forall i, j | 0 <= i < j < |keys| :: less(keys[i], keys[j])
  }

  /** `keys` is all of `among`, in order. */
  ghost predicate Lists<K(!new)>(keys: seq<K>, among: set<K>, less: (K, K) -> bool) {
    Ascending(keys, less) && forall k :: k in keys <==> k in among
  }

  /** `keys` is the first `count` of `among`, or all of it when there are fewer, in order. */
  ghost predicate ListsFirst<K(!new)>(keys: seq<K>, among: set<K>, less: (K, K) -> bool, count: nat) {
    && Ascending(keys, less)
    && |keys| <= count
    && (forall k | k in keys :: k in among)
    && (forall k | k in among && k !in keys :: |keys| == count && forall first | first in keys :: less(first, k))
  }

  lemma ListsEmpty<K(!new)>(a: seq<K>, among: set<K>, less: (K, K) -> bool)
    requires Lists(a, among, less)
    ensures a == [] <==> among == {}
  {
    if a != [] {
      assert a[0] in among;
    }
  }

  lemma {:induction false} ListsUnique<K(!new)>(a: seq<K>, b: seq<K>, among: set<K>, less: (K, K) -> bool)
    requires StrictTotal(less) && Lists(a, among, less) && Lists(b, among, less)
    ensures a == b
  {
    ListsEmpty(a, among, less);
    ListsEmpty(b, among, less);
    if a != [] {
      assert a[0] in b && b[0] in a;
      assert a[0] == b[0];
      ListsTail(a, among, less);
      ListsTail(b, among, less);
      ListsUnique(a[1..], b[1..], among - {a[0]}, less);
    }
  }

  lemma ListsTail<K(!new)>(a: seq<K>, among: set<K>, less: (K, K) -> bool)
    requires StrictTotal(less) && Lists(a, among, less) && a != []
    ensures Lists(a[1..], among - {a[0]}, less)
  {
    forall k | k in among - {a[0]} ensures k in a[1..] {
      assert k in a;
      var i :| 0 <= i < |a| && a[i] == k;
      assert a[1..][i - 1] == k;
    }
  }

  ghost predicate IsLeast<K(!new)>(least: K, among: set<K>, less: (K, K) -> bool) {
    least in among && forall k | k in among && k != least :: less(least, k)
  }

  method Least<K(!new, ==)>(among: set<K>, less: (K, K) -> bool) returns (least: K)
    requires StrictTotal(less) && among != {}
    ensures IsLeast(least, among, less)
  {
    least :| least in among;
    var left := among - {least};
    while left != {}
      invariant left <= among && IsLeast(least, among - left, less)
      decreases left
    {
      var k :| k in left;
      ghost var before := least;
      if less(k, least) {
        least := k;
      }
      assert k == before || least == k || less(before, k);
      forall other | other in among - (left - {k}) && other != least ensures less(least, other) {
        assert other == k || other == before || less(before, other);
      }
      left := left - {k};
    }
  }

  /** `orderBy` the key, `take` the first `count`. */
  method TakeFirst<K(!new, ==)>(among: set<K>, less: (K, K) -> bool, count: nat) returns (keys: seq<K>)
    requires StrictTotal(less)
    ensures ListsFirst(keys, among, less, count)
  {
    keys := [];
    var left := among;
    while left != {} && |keys| < count
      invariant |keys| <= count && Ascending(keys, less)
      invariant forall k :: k in among <==> k in keys || k in left
      invariant forall k, first | k in left && first in keys :: less(first, k)
      decreases left
    {
      var least := Least(left, less);
      keys := keys + [least];
      left := left - {least};
    }
  }

  /** The first `n` of the first `m` are the first `n`. */
  lemma ListsFirstPrefix<K(!new)>(keys: seq<K>, among: set<K>, less: (K, K) -> bool, m: nat, n: nat)
    requires ListsFirst(keys, among, less, m) && n <= |keys|
    ensures ListsFirst(keys[..n], among, less, n)
  {
    forall k, first | k in among && k !in keys[..n] && first in keys[..n] ensures less(first, k) {
      if k in keys {
        var i :| 0 <= i < |keys| && keys[i] == k;
        var j :| 0 <= j < |keys[..n]| && keys[..n][j] == first;
        assert keys[j] == first;
        assert forall l | 0 <= l < n :: keys[..n][l] == keys[l];
        assert i >= n;
      } else {
        assert first in keys;
      }
    }
  }

  function Beyond<K(==)>(among: set<K>, less: (K, K) -> bool, last: K): set<K> {
    set k | k in among && less(last, k)
  }

  /** Listing on from the last key of a first listing continues it. */
  lemma ListsFirstJoin<K(!new)>(head: seq<K>, tail: seq<K>, among: set<K>, less: (K, K) -> bool, m: nat, n: nat)
    requires StrictTotal(less) && head != [] && |head| == m && ListsFirst(head, among, less, m)
    requires ListsFirst(tail, Beyond(among, less, head[m - 1]), less, n)
    ensures ListsFirst(head + tail, among, less, m + n)
  {
    var whole := head + tail;
    forall i, j | 0 <= i < j < |whole| ensures less(whole[i], whole[j]) {
      if i < m <= j {
        assert tail[j - m] in tail;
        assert less(head[m - 1], whole[j]);
      }
    }
    forall k | k in among && k !in whole
      ensures |whole| == m + n && forall first | first in whole :: less(first, k)
    {
      assert k !in head && k !in tail;
      assert head[m - 1] in head;
      assert less(head[m - 1], k);
    }
  }
}
