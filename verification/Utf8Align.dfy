// Byte windows on UTF-8 text that do not split a character
// (packages/core/src/agent-runtime/coding-tool-utf8.ts).
module Utf8Align {
  import opened Prelude
  import opened UriComponent

  function Encoded(text: string): seq<Byte> {
    if text == [] then [] else Utf8(text[0]) + Encoded(text[1..])
  }

  /** A byte inside a sequence: the two high bits are 10. */
  predicate IsContinuation(b: Byte) {
    0x80 <= b < 0xC0
  }

  /** Length of the sequence a byte leads; 0 when it leads none. */
  function SequenceLength(lead: Byte): nat {
    if lead < 0x80 then 1
    else if 0xC0 <= lead < 0xE0 then 2
    else if 0xE0 <= lead < 0xF0 then 3
    else if 0xF0 <= lead < 0xF8 then 4
    else 0
  }

  function Clamp(start: nat, limit: nat, length: nat): (safe: nat)
    ensures start <= length ==> start <= safe <= length
  {
    var cut := if start + limit < length then start + limit else length;
    if start < cut then cut else start
  }

  /** Look for the byte that leads the sequence before the cut, from the `back`-th byte before it on. */
  function EndFrom(data: seq<Byte>, start: nat, safe: nat, back: nat): (end: nat)
    requires start <= safe <= |data| && back >= 1
    ensures start <= end <= |data| && end <= safe + 3 && safe <= end + 3
    decreases 5 - back
  {
    if back > 4 || safe < start + back then safe
    else if IsContinuation(data[safe - back]) then EndFrom(data, start, safe, back + 1)
    else
      var length := SequenceLength(data[safe - back]);
      if length == 0 || back >= length then safe
      else if safe - back + length <= |data| then safe - back + length
      else safe - back
  }

  function AlignedEnd(data: seq<Byte>, start: nat, limit: nat): (end: nat)
    requires start <= |data|
    ensures start <= end <= |data| && end <= start + limit + 3
  {
    EndFrom(data, start, Clamp(start, limit, |data|), 1)
  }

  method Utf8AlignedEnd(data: seq<Byte>, start: nat, limit: nat) returns (end: nat)
    requires start <= |data|
    ensures end == AlignedEnd(data, start, limit)
  {
    var safe := Clamp(start, limit, |data|);
    var back := 1;
    while back <= 4 && safe >= start + back
      invariant 1 <= back <= 5
      invariant AlignedEnd(data, start, limit) == EndFrom(data, start, safe, back)
      decreases 5 - back
    {
      var byte := data[safe - back];
      if !IsContinuation(byte) {
        var length := SequenceLength(byte);
        if length == 0 || back >= length {
          return safe;
        }
        var sequenceEnd := safe - back + length;
        return if sequenceEnd <= |data| then sequenceEnd else safe - back;
      }
      back := back + 1;
    }
    end := safe;
  }

  function StartFrom(data: seq<Byte>, safe: nat, end: nat): (start: nat)
    requires safe <= end <= |data|
    ensures safe <= start <= end
    ensures start < end ==> !IsContinuation(data[start])
    ensures forall i | safe <= i < start :: IsContinuation(data[i])
    decreases end - safe
  {
    if safe < end && IsContinuation(data[safe]) then StartFrom(data, safe + 1, end) else safe
  }

  method Utf8AlignedStart(data: seq<Byte>, start: nat, end: nat) returns (aligned: nat)
    requires end <= |data|
    ensures aligned == StartFrom(data, if start < end then start else end, end)
  {
    aligned := if start < end then start else end;
    while aligned < end && IsContinuation(data[aligned])
      invariant aligned <= end
      invariant StartFrom(data, if start < end then start else end, end) == StartFrom(data, aligned, end)
    {
      aligned := aligned + 1;
    }
  }

  // ---- no character is split ----------------------------------------------------------------------

  /** The first `p` bytes are whole characters of the text, and so are the rest. */
  ghost predicate Boundary(text: string, p: nat) {
    exists k :: 0 <= k <= |text| && p == |Encoded(text[..k])|
  }

  lemma {:induction false} EncodedAdd(a: string, b: string)
    ensures Encoded(a + b) == Encoded(a) + Encoded(b)
  {
    if a == [] {
      assert a + b == b;
    } else {
      EncodedAdd(a[1..], b);
      assert (a + b)[1..] == a[1..] + b;
      Associates(Utf8(a[0]), Encoded(a[1..]), Encoded(b));
    }
  }

  /** One character: a byte that says how many follow, and the ones that do. */
  predicate Character(bytes: seq<Byte>) {
    && 1 <= |bytes| <= 4
    && !IsContinuation(bytes[0]) && SequenceLength(bytes[0]) == |bytes|
    && forall i | 0 < i < |bytes| :: IsContinuation(bytes[i])
  }

  lemma EncodedOne(c: char) returns (bytes: seq<Byte>)
    ensures Encoded([c]) == bytes && Character(bytes)
  {
    bytes := Utf8(c);
    assert Encoded([c]) == Utf8(c) + [];
  }

  lemma EncodedNext(text: string, k: nat) returns (bytes: seq<Byte>)
    requires k < |text|
    ensures Character(bytes) && Encoded(text[..k + 1]) == Encoded(text[..k]) + bytes
    ensures Encoded(text) == Encoded(text[..k]) + bytes + Encoded(text[k + 1..])
  {
    assert text[..k + 1] == text[..k] + [text[k]];
    assert text == text[..k + 1] + text[k + 1..];
    bytes := EncodedOne(text[k]);
    EncodedAdd(text[..k], [text[k]]);
    EncodedAdd(text[..k + 1], text[k + 1..]);
  }

  /** Which character a byte belongs to. */
  lemma {:induction false} Owner(text: string, p: nat) returns (k: nat)
    requires p < |Encoded(text)|
    ensures k < |text| && |Encoded(text[..k])| <= p < |Encoded(text[..k + 1])|
    decreases |text|
  {
    var init := text[..|text| - 1];
    if p < |Encoded(init)| {
      k := Owner(init, p);
      assert init[..k] == text[..k] && init[..k + 1] == text[..k + 1];
    } else {
      k := |text| - 1;
      assert text[..k + 1] == text;
    }
  }

  lemma Middle(before: seq<Byte>, own: seq<Byte>, behind: seq<Byte>)
    ensures |before| + |own| <= |before + own + behind|
    ensures (before + own + behind)[|before|..|before| + |own|] == own
  {
  }

  /** The character a byte belongs to, with its boundaries and its bytes. */
  lemma CharacterAt(text: string, p: nat) returns (start: nat, bytes: seq<Byte>)
    requires p < |Encoded(text)|
    ensures Character(bytes) && start <= p < start + |bytes| <= |Encoded(text)|
    ensures Encoded(text)[start..start + |bytes|] == bytes
    ensures Boundary(text, start) && Boundary(text, start + |bytes|)
  {
    var k := Owner(text, p);
    bytes := EncodedNext(text, k);
    start := |Encoded(text[..k])|;
    Middle(Encoded(text[..k]), bytes, Encoded(text[k + 1..]));
  }

  /** Going back over continuation bytes. */
  lemma {:induction false} EndSkips(data: seq<Byte>, safe: nat, back: nat, lead: nat)
    requires safe <= |data| && 1 <= back <= lead <= 4 && lead <= safe
    requires forall p | safe - lead < p <= safe - back :: IsContinuation(data[p])
    ensures EndFrom(data, 0, safe, back) == EndFrom(data, 0, safe, lead)
    decreases lead - back
  {
    if back < lead {
      EndSkips(data, safe, back + 1, lead);
    }
  }

  /** The last character that begins before a cut, by its boundaries, and its bytes. */
  lemma LastBefore(text: string, data: seq<Byte>, safe: nat) returns (lead: nat, length: nat)
    requires data <= Encoded(text) && 0 < safe <= |data|
    ensures lead < safe <= lead + length <= |Encoded(text)| && 1 <= length <= 4
    ensures Boundary(text, lead) && Boundary(text, lead + length)
    ensures !IsContinuation(data[lead]) && SequenceLength(data[lead]) == length
    ensures forall p | lead < p < lead + length && p < |data| :: IsContinuation(data[p])
  {
    var bytes: seq<Byte>;
    lead, bytes := CharacterAt(text, safe - 1);
    length := |bytes|;
    CharacterIn(Encoded(text), data, lead, bytes);
  }

  lemma CharacterIn(whole: seq<Byte>, data: seq<Byte>, lead: nat, bytes: seq<Byte>)
    requires data <= whole && lead < |data| && lead + |bytes| <= |whole|
    requires Character(bytes) && whole[lead..lead + |bytes|] == bytes
    ensures !IsContinuation(data[lead]) && SequenceLength(data[lead]) == |bytes|
    ensures forall p | lead < p < lead + |bytes| && p < |data| :: IsContinuation(data[p])
  {
    forall p | lead <= p < lead + |bytes| && p < |data| ensures data[p] == bytes[p - lead] {
      assert whole[lead..lead + |bytes|][p - lead] == whole[p];
    }
  }

  /** Any cut of any prefix of a UTF-8 text is moved onto a boundary between characters. */
  lemma {:induction false} EndIsBoundary(text: string, data: seq<Byte>, limit: nat)
    requires data <= Encoded(text)
    ensures Boundary(text, AlignedEnd(data, 0, limit))
  {
    var safe := Clamp(0, limit, |data|);
    if safe == 0 {
      assert text[..0] == [] && 0 == |Encoded(text[..0])|;
    } else {
      var lead, length := LastBefore(text, data, safe);
      EndSkips(data, safe, 1, safe - lead);
      EndAtLead(data, safe, safe - lead, length);
    }
  }

  /** Where the cut ends up once its sequence is found. */
  lemma EndAtLead(data: seq<Byte>, safe: nat, back: nat, length: nat)
    requires 1 <= back <= length <= 4 && back <= safe <= |data|
    requires !IsContinuation(data[safe - back]) && SequenceLength(data[safe - back]) == length
    ensures EndFrom(data, 0, safe, back) == if safe - back + length <= |data| then safe - back + length else safe - back
  {
  }

  /** A byte that is not inside a sequence begins a character. */
  lemma LeadIsBoundary(text: string, p: nat)
    requires p < |Encoded(text)| && !IsContinuation(Encoded(text)[p])
    ensures Boundary(text, p)
  {
    var start, bytes := CharacterAt(text, p);
    CharacterIn(Encoded(text), Encoded(text), start, bytes);
  }

  lemma WholeIsBoundary(text: string)
    ensures Boundary(text, |Encoded(text)|)
  {
    assert text[..|text|] == text;
  }

  /** Where a tail of a prefix of a UTF-8 text begins, unless nothing is left of it. */
  lemma StartIsBoundary(text: string, data: seq<Byte>, from: nat)
    requires data <= Encoded(text) && from <= |data|
    ensures var start := StartFrom(data, from, |data|);
            start < |data| || data == Encoded(text) ==> Boundary(text, start)
  {
    var start := StartFrom(data, from, |data|);
    if start < |data| {
      assert data[start] == Encoded(text)[start];
      LeadIsBoundary(text, start);
    } else {
      WholeIsBoundary(text);
    }
  }

  lemma BoundaryBegins(text: string, p: nat)
    requires Boundary(text, p) && p < |Encoded(text)|
    ensures !IsContinuation(Encoded(text)[p])
  {
    var k :| 0 <= k <= |text| && p == |Encoded(text[..k])|;
    assert text[..|text|] == text;
    var bytes := EncodedNext(text, k);
    assert Encoded(text)[p] == bytes[0];
  }

  /** In a prefix of a UTF-8 text the backward alignment of a cut goes to the end of the character the
      cut falls into, like the forward one, or, when the prefix ends inside it, in front of it. */
  lemma {:induction false} EndIsStart(text: string, data: seq<Byte>, cut: nat)
    requires data <= Encoded(text) && cut <= |data|
    ensures var end := AlignedEnd(data, 0, cut);
            end == StartFrom(data, cut, |data|) || (end < cut && data != Encoded(text))
  {
    if cut == 0 {
      NothingBefore(text, data);
    } else {
      var lead, length := LastBefore(text, data, cut);
      EndSkips(data, cut, 1, cut - lead);
      EndAtLead(data, cut, cut - lead, length);
      if lead + length <= |data| {
        StartAtEnd(text, data, cut, lead, length);
      }
    }
  }

  lemma NothingBefore(text: string, data: seq<Byte>)
    requires data <= Encoded(text)
    ensures AlignedEnd(data, 0, 0) == 0 == StartFrom(data, 0, |data|)
  {
    if data != [] {
      assert text[..0] == [] && 0 == |Encoded(text[..0])|;
      BoundaryBegins(text, 0);
    }
  }

  /** Forward from inside a character, over the bytes that are left of it. */
  lemma StartAtEnd(text: string, data: seq<Byte>, cut: nat, lead: nat, length: nat)
    requires data <= Encoded(text) && lead < cut <= lead + length <= |data| && Boundary(text, lead + length)
    requires forall p | lead < p < lead + length && p < |data| :: IsContinuation(data[p])
    ensures StartFrom(data, cut, |data|) == lead + length
  {
    if lead + length < |data| {
      BoundaryBegins(text, lead + length);
    }
  }

  lemma StartsAscend(data: seq<Byte>, early: nat, late: nat)
    requires early <= late <= |data|
    ensures StartFrom(data, early, |data|) <= StartFrom(data, late, |data|)
  {
  }
}
