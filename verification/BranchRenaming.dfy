// What one branch does to identities, as a value: every identity kind has a minting
// function, and only collected identities may be referenced (branch-identities.ts).
module BranchRenaming {
  import opened Prelude

  datatype Kind =
    | RunKind | MessageKind | CallKind | ApprovalKind | OperationKind | SpillKind
    | EventKind | OwnerKind | KeyKind | ScheduleKind | ChildKind

  datatype Reason =
    | ForeignReference(kind: Kind)
    | ForeignConversation
    | OpaquePayload
    | OpaqueProviderPart
    | MalformedToolPayload
    | UnsupportedVersion
    | UnreadPayload
    | InconsistentDigest
    | MissingMessage

  type Identity = (Kind, string)

  /** What the record schemas ask of an identity; a minted one is a digest. */
  type RecordId = s: string | s != "" witness "0"

  type Mint = (Kind, string) -> RecordId

  datatype Renaming = Renaming(conversation: RecordId, mint: Mint, defined: set<Identity>) {

    /** `BranchIdentities.reference`: only a collected identity resolves. */
    function Reference(kind: Kind, source: string): Result<string, Reason> {
      if (kind, source) in defined then Success(mint(kind, source)) else Failure(ForeignReference(kind))
    }

    function ReferenceIfAny(kind: Kind, source: Option<string>): Result<Option<string>, Reason> {
      match source
      case None => Success(None)
      case Some(id) => var target :- Reference(kind, id); Success(Some(target))
    }

    function References(kind: Kind, sources: seq<string>): Result<seq<string>, Reason> {
      Traverse((source: string) => Reference(kind, source), sources)
    }

    /** `BranchIdentities.define` while rewriting: the target depends on kind and source alone. */
    function Define(kind: Kind, source: string): string {
      mint(kind, source)
    }

    function DefineIfAny(kind: Kind, source: Option<string>): Option<string> {
      if source.Some? then Some(Define(kind, source.value)) else None
    }

    function Image(identity: Identity): Identity {
      (identity.0, mint(identity.0, identity.1))
    }

    function Images(identities: set<Identity>): set<Identity> {
      set identity | identity in identities :: Image(identity)
    }

    lemma ImagesOfOne(identity: Identity)
      ensures Images({identity}) == {Image(identity)}
    {
    }

    lemma ImagesUnion(a: set<Identity>, b: set<Identity>)
      ensures Images(a + b) == Images(a) + Images(b)
    {
    }
  }

  /** The minting takes none of these for a target. */
  ghost predicate MintsAnew(ids: Renaming, identities: set<Identity>) {
    forall identity | identity in identities :: ids.Image(identity) !in identities
  }

  function ComposeMint(outer: Mint, inner: Mint): Mint {
    (kind: Kind, source: string) => outer(kind, inner(kind, source))
  }

  /** First `inner`, then `outer`: an identity resolves when it resolves in both. */
  ghost function Compose(outer: Renaming, inner: Renaming): Renaming {
    Renaming(
      outer.conversation,
      ComposeMint(outer.mint, inner.mint),
      set identity | identity in inner.defined && inner.Image(identity) in outer.defined :: identity)
  }

  /** The same renaming, with more identities collected. */
  ghost predicate Extends(more: Renaming, ids: Renaming) {
    more.conversation == ids.conversation && more.mint == ids.mint && ids.defined <= more.defined
  }

  function Ids(kind: Kind, sources: seq<string>): set<Identity> {
    set source | source in sources :: (kind, source)
  }

  function IdIfAny(kind: Kind, source: Option<string>): set<Identity> {
    if source.Some? then {(kind, source.value)} else {}
  }

  lemma ReferencesCompose(outer: Renaming, inner: Renaming, kind: Kind, sources: seq<string>)
    ensures inner.References(kind, sources).Success? ==>
              Agree(outer.References(kind, inner.References(kind, sources).value),
                    Compose(outer, inner).References(kind, sources))
    ensures Compose(outer, inner).References(kind, sources).Success? ==> inner.References(kind, sources).Success?
  {
    var middle := inner.References(kind, sources);
    var whole := Compose(outer, inner).References(kind, sources);
    if middle.Success? {
      var last := outer.References(kind, middle.value);
      assert forall i :: 0 <= i < |sources| ==>
        (Compose(outer, inner).Reference(kind, sources[i]).Success? <==> outer.Reference(kind, middle.value[i]).Success?);
      assert last.Success? == whole.Success?;
      if last.Success? {
        assert last.value == whole.value;
      }
    }
  }

  lemma ReferenceIfAnyCompose(outer: Renaming, inner: Renaming, kind: Kind, id: Option<string>)
    requires inner.ReferenceIfAny(kind, id).Success?
    ensures Agree(outer.ReferenceIfAny(kind, inner.ReferenceIfAny(kind, id).value),
                  Compose(outer, inner).ReferenceIfAny(kind, id))
  {
  }

  lemma ReferencesResolve(ids: Renaming, kind: Kind, sources: seq<string>)
    ensures ids.References(kind, sources).Success? <==> Ids(kind, sources) <= ids.defined
    ensures ids.References(kind, sources).Success? ==>
              Ids(kind, ids.References(kind, sources).value) == ids.Images(Ids(kind, sources))
  {
    var result := ids.References(kind, sources);
    forall i | 0 <= i < |sources| ensures (kind, sources[i]) in Ids(kind, sources) {
      assert sources[i] in sources;
    }
    if result.Success? {
      assert forall i :: 0 <= i < |sources| ==> result.value[i] == ids.mint(kind, sources[i]);
      forall id | id in ids.Images(Ids(kind, sources)) ensures id in Ids(kind, result.value) {
        var source :| source in sources && id == ids.Image((kind, source));
        var i :| 0 <= i < |sources| && sources[i] == source;
        assert result.value[i] in result.value;
      }
      forall id | id in Ids(kind, result.value) ensures id in ids.Images(Ids(kind, sources)) {
        var i :| 0 <= i < |result.value| && id == (kind, result.value[i]);
        assert id == ids.Image((kind, sources[i]));
      }
    }
  }

  // ---- lists of values that mention identities --------------------------------------

  ghost function AllIds<T(!new)>(idsOf: T -> set<Identity>, xs: seq<T>): set<Identity> {
    set x, id | x in xs && id in idsOf(x) :: id
  }

  lemma AllIdsSplit<T(!new)>(idsOf: T -> set<Identity>, xs: seq<T>)
    requires xs != []
    ensures AllIds(idsOf, xs) == idsOf(xs[0]) + AllIds(idsOf, xs[1..])
  {
    assert forall x :: x in xs <==> x == xs[0] || x in xs[1..];
  }

  /** What holds of rewriting one element holds of rewriting the list. */
  lemma {:induction false} TraverseResolves<T(!new)>(
    ids: Renaming, rewrite: T -> Result<T, Reason>, idsOf: T -> set<Identity>,
    before: T -> bool, after: T -> bool, xs: seq<T>)
    requires forall x | x in xs ::
               && (rewrite(x).Success? <==> before(x) && idsOf(x) <= ids.defined)
               && (rewrite(x).Success? ==>
                     after(rewrite(x).value) && idsOf(rewrite(x).value) == ids.Images(idsOf(x)))
    ensures Traverse(rewrite, xs).Success? <==>
              (forall x | x in xs :: before(x)) && AllIds(idsOf, xs) <= ids.defined
    ensures Traverse(rewrite, xs).Success? ==>
              (forall y | y in Traverse(rewrite, xs).value :: after(y))
              && AllIds(idsOf, Traverse(rewrite, xs).value) == ids.Images(AllIds(idsOf, xs))
  {
    if xs != [] {
      var rest := xs[1..];
      TraverseResolves(ids, rewrite, idsOf, before, after, rest);
      AllIdsSplit(idsOf, xs);
      assert forall x :: x in xs <==> x == xs[0] || x in rest;
      if Traverse(rewrite, xs).Success? {
        var ys := Traverse(rewrite, xs).value;
        assert ys[0] == rewrite(xs[0]).value && ys[1..] == Traverse(rewrite, rest).value;
        AllIdsSplit(idsOf, ys);
        assert forall y :: y in ys <==> y == ys[0] || y in ys[1..];
      }
    }
  }

  lemma TraverseCompose<T(!new)>(
    first: T -> Result<T, Reason>, second: T -> Result<T, Reason>, whole: T -> Result<T, Reason>, xs: seq<T>)
    requires Traverse(first, xs).Success?
    requires forall x | x in xs :: first(x).Success? ==> Agree(second(first(x).value), whole(x))
    ensures Agree(Traverse(second, Traverse(first, xs).value), Traverse(whole, xs))
  {
    var middle := Traverse(first, xs).value;
    forall i | 0 <= i < |xs| ensures Agree(second(middle[i]), whole(xs[i])) {
      assert xs[i] in xs;
    }
    var last, once := Traverse(second, middle), Traverse(whole, xs);
    if last.Success? && once.Success? {
      assert last.value == once.value;
    }
  }

  lemma AllIdsImages<T(!new)>(ids: Renaming, idsOf: T -> set<Identity>, xs: seq<T>, ys: seq<T>)
    requires |xs| == |ys| && forall i | 0 <= i < |xs| :: idsOf(ys[i]) == ids.Images(idsOf(xs[i]))
    ensures AllIds(idsOf, ys) == ids.Images(AllIds(idsOf, xs))
  {
    forall id | id in AllIds(idsOf, ys) ensures id in ids.Images(AllIds(idsOf, xs)) {
      var i :| 0 <= i < |ys| && id in idsOf(ys[i]);
      var origin :| origin in idsOf(xs[i]) && id == ids.Image(origin);
      assert xs[i] in xs && origin in AllIds(idsOf, xs);
    }
    forall id | id in ids.Images(AllIds(idsOf, xs)) ensures id in AllIds(idsOf, ys) {
      var origin :| origin in AllIds(idsOf, xs) && id == ids.Image(origin);
      var i :| 0 <= i < |xs| && origin in idsOf(xs[i]);
      assert id in idsOf(ys[i]) && ys[i] in ys;
    }
  }

  /** The images of the parts are the parts of the image (used for what a branch collects). */
  lemma TraverseImages<T(!new)>(
    ids: Renaming, rewrite: T -> Result<T, Reason>, idsOf: T -> set<Identity>, xs: seq<T>)
    requires Traverse(rewrite, xs).Success?
    requires forall x | x in xs :: rewrite(x).Success? ==> idsOf(rewrite(x).value) == ids.Images(idsOf(x))
    ensures AllIds(idsOf, Traverse(rewrite, xs).value) == ids.Images(AllIds(idsOf, xs))
  {
    var ys := Traverse(rewrite, xs).value;
    assert forall i | 0 <= i < |xs| :: xs[i] in xs;
    AllIdsImages(ids, idsOf, xs, ys);
  }
}
