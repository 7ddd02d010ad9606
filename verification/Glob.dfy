// The workspace glob compiler (packages/core/src/agent-runtime/coding-tool-listing.ts): `**`, `*`
// and `?` become pattern pieces, everything else its escaped self.
module Glob {
  import opened Prelude
  import opened GlobPattern

  // ---- what a glob means -----------------------------------------------------------------------

  predicate StartsWith(glob: Text, prefix: Text) {
    |glob| >= |prefix| && glob[..|prefix|] == prefix
  }

  function FirstSlash(path: Text): (i: nat)
    ensures i <= |path|
    ensures i < |path| ==> path[i] == SLASH
    ensures forall j | 0 <= j < i :: path[j] != SLASH
  {
    if path == [] || path[0] == SLASH then 0 else 1 + FirstSlash(path[1..])
  }

  /** The path begins with a whole, non-empty segment and its slash. */
  predicate HasSegment(path: Text) {
    0 < FirstSlash(path) < |path|
  }

  /** `**` then `/` takes any number of whole segments, `**` any characters but line terminators,
      `*` and `?` characters but `/`, and every other character itself. */
  predicate GlobMatches(glob: Text, path: Text)
    decreases |glob| + |path|
  {
    if glob == [] then path == []
    else if StartsWith(glob, [STAR, STAR, SLASH]) then
      GlobMatches(glob[3..], path) || (HasSegment(path) && GlobMatches(glob, path[FirstSlash(path) + 1..]))
    else if StartsWith(glob, [STAR, STAR]) then
      GlobMatches(glob[2..], path) || (path != [] && !IsLineTerminator(path[0]) && GlobMatches(glob, path[1..]))
    else if glob[0] == STAR then
      GlobMatches(glob[1..], path) || (path != [] && path[0] != SLASH && GlobMatches(glob, path[1..]))
    else if glob[0] == QUESTION then
      path != [] && path[0] != SLASH && GlobMatches(glob[1..], path[1..])
    else
      path != [] && path[0] == glob[0] && GlobMatches(glob[1..], path[1..])
  }

  // ---- what the compiler writes ------------------------------------------------------------------

  /** How many characters of the glob the next piece stands for. */
  function Width(glob: Text): (width: nat)
    requires glob != []
    ensures 0 < width <= |glob|
  {
    if StartsWith(glob, [STAR, STAR, SLASH]) then 3 else if StartsWith(glob, [STAR, STAR]) then 2 else 1
  }

  // (?:[^/]+/)*
  const SEGMENTS: Text := [OPEN_PAREN, QUESTION, COLON] + NAME_CHARACTER + [PLUS, SLASH, CLOSE_PAREN, STAR]
  // .*
  const ANYTHING: Text := [DOT, STAR]
  // [^/]*
  const NAME_PART: Text := NAME_CHARACTER + [STAR]
  // [^/]
  const NAME_CHARACTER: Text := [OPEN_BRACKET, CARET, SLASH, CLOSE_BRACKET]

  /** Replacing each syntax character by its escape. */
  function Escaped(u: Unit): Text {
    if IsSyntaxCharacter(u) then [BACKSLASH, u] else [u]
  }

  function Piece(glob: Text): Text
    requires glob != []
  {
    if StartsWith(glob, [STAR, STAR, SLASH]) then SEGMENTS
    else if StartsWith(glob, [STAR, STAR]) then ANYTHING
    else if glob[0] == STAR then NAME_PART
    else if glob[0] == QUESTION then NAME_CHARACTER
    else Escaped(glob[0])
  }

  function Pieces(glob: Text): Text {
    if glob == [] then [] else Piece(glob) + Pieces(glob[Width(glob)..])
  }

  function Compiled(glob: Text): Text {
    [CARET] + Pieces(glob) + [DOLLAR]
  }

  /** What the compiler looks at says which piece comes next. */
  lemma LookAhead(glob: Text, index: nat)
    requires index < |glob|
    ensures StartsWith(glob[index..], [STAR, STAR]) <==>
              index + 1 < |glob| && glob[index] == STAR && glob[index + 1] == STAR
    ensures StartsWith(glob[index..], [STAR, STAR, SLASH]) <==>
              index + 2 < |glob| && glob[index] == STAR && glob[index + 1] == STAR && glob[index + 2] == SLASH
  {
    var left := glob[index..];
    assert |left| >= 2 ==> left[..2] == [glob[index], glob[index + 1]];
    assert |left| >= 3 ==> left[..3] == [glob[index], glob[index + 1], glob[index + 2]];
  }

  /** Whether two stars, or two stars and a slash, come next. */
  predicate TwoStarsAt(glob: Text, index: nat) {
    index + 1 < |glob| && glob[index] == STAR && glob[index + 1] == STAR
  }

  predicate StarsSlashAt(glob: Text, index: nat) {
    TwoStarsAt(glob, index) && index + 2 < |glob| && glob[index + 2] == SLASH
  }

  lemma NextPiece(glob: Text, index: nat, source: Text, whole: Text)
    requires index < |glob| && whole == source + Pieces(glob[index..])
    ensures var left := glob[index..]; whole == source + Piece(left) + Pieces(glob[index + Width(left)..])
  {
    var left := glob[index..];
    var later := glob[index + Width(left)..];
    assert left[Width(left)..] == later;
    var piece, pieces := Piece(left), Pieces(later);
    assert Pieces(left) == piece + pieces;
    Associates(source, piece, pieces);
  }

  /** What is to be written next, case by case. */
  lemma Emitted(glob: Text, index: nat, source: Text, whole: Text)
    requires index < |glob| && whole == source + Pieces(glob[index..])
    ensures StarsSlashAt(glob, index) ==> whole == source + SEGMENTS + Pieces(glob[index + 3..])
    ensures TwoStarsAt(glob, index) && !StarsSlashAt(glob, index) ==> whole == source + ANYTHING + Pieces(glob[index + 2..])
    ensures glob[index] == STAR && !TwoStarsAt(glob, index) ==> whole == source + NAME_PART + Pieces(glob[index + 1..])
    ensures glob[index] == QUESTION ==> whole == source + NAME_CHARACTER + Pieces(glob[index + 1..])
    ensures glob[index] != STAR && glob[index] != QUESTION ==>
              whole == source + Escaped(glob[index]) + Pieces(glob[index + 1..])
  {
    LookAhead(glob, index);
    NextPiece(glob, index, source, whole);
  }

  method CompileWorkspaceGlob(glob: Text) returns (source: Text)
    ensures source == Compiled(glob)
  {
    source := [];
    var index := 0;
    while index < |glob|
      invariant 0 <= index <= |glob|
      invariant Pieces(glob) == source + Pieces(glob[index..])
    {
      Emitted(glob, index, source, Pieces(glob));
      var character := glob[index];
      if character == STAR {
        if index + 1 < |glob| && glob[index + 1] == STAR {
          if index + 2 < |glob| && glob[index + 2] == SLASH {
            source := source + SEGMENTS;
            index := index + 3;
            continue;
          }
          source := source + ANYTHING;
          index := index + 2;
          continue;
        }
        source := source + NAME_PART;
        index := index + 1;
        continue;
      }
      if character == QUESTION {
        source := source + NAME_CHARACTER;
        index := index + 1;
        continue;
      }
      source := source + Escaped(character);
      index := index + 1;
    }
    source := [CARET] + source + [DOLLAR];
  }

  // ---- the pieces parse back ----------------------------------------------------------------------

  const NOT_SLASH: Term := NoneOf([SLASH])
  const SEGMENT: Term := Group([Plus(NOT_SLASH), Literal(SLASH)])

  /** The term that the next piece parses to. */
  function TermOf(glob: Text): Term
    requires glob != []
  {
    if StartsWith(glob, [STAR, STAR, SLASH]) then Star(SEGMENT)
    else if StartsWith(glob, [STAR, STAR]) then Star(Dot)
    else if glob[0] == STAR then Star(NOT_SLASH)
    else if glob[0] == QUESTION then NOT_SLASH
    else Literal(glob[0])
  }

  function TermsOf(glob: Text): seq<Term> {
    if glob == [] then [] else [TermOf(glob)] + TermsOf(glob[Width(glob)..])
  }

  /** Nothing the compiler writes can be read as a quantifier of the piece before it. */
  predicate NoQuantifier(text: Text) {
    text != [] && text[0] != STAR && text[0] != PLUS && text[0] != QUESTION && text[0] != OPEN_BRACE
  }

  lemma ClassParses(rest: Text)
    ensures ParseAtom([OPEN_BRACKET, CARET, SLASH, CLOSE_BRACKET] + rest) == Parsed(NOT_SLASH, rest)
  {
    var text := [OPEN_BRACKET, CARET, SLASH, CLOSE_BRACKET] + rest;
    var inside, end := text[2..], [CLOSE_BRACKET] + rest;
    assert inside == [SLASH] + end && inside[1..] == end && end[1..] == rest;
    assert ParseClass(end) == Parsed(NoneOf([]), rest);
    assert [SLASH] + [] == [SLASH];
    assert ParseClass(inside) == Parsed(NOT_SLASH, rest);
  }

  lemma NamePartParses(rest: Text)
    requires NoQuantifier(rest)
    ensures ParseTerm(NAME_PART + rest) == Parsed(Star(NOT_SLASH), rest)
    ensures ParseTerm(NAME_CHARACTER + rest) == Parsed(NOT_SLASH, rest)
  {
    ClassParses([STAR] + rest);
    assert NAME_PART + rest == NAME_CHARACTER + ([STAR] + rest);
    assert ([STAR] + rest)[1..] == rest;
    ClassParses(rest);
  }

  lemma AnythingParses(rest: Text)
    requires NoQuantifier(rest)
    ensures ParseTerm(ANYTHING + rest) == Parsed(Star(Dot), rest)
  {
    var text := ANYTHING + rest;
    assert text[1..] == [STAR] + rest && ([STAR] + rest)[1..] == rest;
  }

  lemma EscapedParses(u: Unit, rest: Text)
    requires NoQuantifier(rest)
    ensures ParseTerm(Escaped(u) + rest) == Parsed(Literal(u), rest)
  {
    var text := Escaped(u) + rest;
    if IsSyntaxCharacter(u) {
      assert text[0] == BACKSLASH && text[1] == u && text[2..] == rest;
    } else {
      assert text[0] == u && text[1..] == rest;
    }
  }

  /** The inside of the group, up to its closing parenthesis. */
  lemma SegmentParses(close: Text)
    requires Begins(close, CLOSE_PAREN)
    ensures ParseTerms([OPEN_BRACKET, CARET, SLASH, CLOSE_BRACKET] + ([PLUS, SLASH] + close))
         == Parsed([Plus(NOT_SLASH), Literal(SLASH)], close)
  {
    var slash, plus := [SLASH] + close, [PLUS, SLASH] + close;
    var text := [OPEN_BRACKET, CARET, SLASH, CLOSE_BRACKET] + plus;
    assert slash[1..] == close && plus[1..] == slash;
    ClassParses(plus);
    assert ParseTerm(text) == Parsed(Plus(NOT_SLASH), slash);
    assert ParseTerm(slash) == Parsed(Literal(SLASH), close);
    assert ParseTerms(close) == Parsed([], close);
    assert ParseTerms(slash) == Parsed([Literal(SLASH)] + [], close);
    assert [Literal(SLASH)] + [] == [Literal(SLASH)];
    assert [Plus(NOT_SLASH)] + [Literal(SLASH)] == [Plus(NOT_SLASH), Literal(SLASH)];
  }

  lemma SegmentsParse(rest: Text)
    requires NoQuantifier(rest)
    ensures ParseTerm(SEGMENTS + rest) == Parsed(Star(SEGMENT), rest)
  {
    var text, close := SEGMENTS + rest, [CLOSE_PAREN, STAR] + rest;
    assert text[0] == OPEN_PAREN && text[1..][0] == QUESTION && text[2..][0] == COLON;
    assert text[3..] == [OPEN_BRACKET, CARET, SLASH, CLOSE_BRACKET] + ([PLUS, SLASH] + close);
    SegmentParses(close);
    assert close[1..] == [STAR] + rest && ([STAR] + rest)[1..] == rest;
    assert ParseGroup(text[3..]) == Parsed(SEGMENT, close[1..]);
    assert ParseAtom(text) == Parsed(SEGMENT, close[1..]);
  }

  lemma PieceParses(glob: Text, rest: Text)
    requires glob != [] && NoQuantifier(rest)
    ensures ParseTerm(Piece(glob) + rest) == Parsed(TermOf(glob), rest)
  {
    SegmentsParse(rest);
    AnythingParses(rest);
    NamePartParses(rest);
    EscapedParses(glob[0], rest);
  }

  lemma PieceIsNoQuantifier(glob: Text)
    requires glob != []
    ensures NoQuantifier(Piece(glob)) && Piece(glob)[0] != CLOSE_PAREN && Piece(glob)[0] != DOLLAR
  {
  }

  /** What is written for a glob reads back as the terms of its pieces, whatever characters it has. */
  lemma {:induction false} PiecesParse(glob: Text)
    ensures NoQuantifier(Pieces(glob) + [DOLLAR])
    ensures ParseTerms(Pieces(glob) + [DOLLAR]) == Parsed(TermsOf(glob), [DOLLAR])
  {
    if glob != [] {
      var later := glob[Width(glob)..];
      PiecesParse(later);
      PieceIsNoQuantifier(glob);
      PieceParses(glob, Pieces(later) + [DOLLAR]);
      Associates(Piece(glob), Pieces(later), [DOLLAR]);
    }
  }

  lemma CompiledParses(glob: Text)
    ensures ParsePattern(Compiled(glob)) == Parsed(TermsOf(glob), [])
  {
    PiecesParse(glob);
    assert Compiled(glob)[1..] == Pieces(glob) + [DOLLAR];
  }

  // ---- and mean the same ---------------------------------------------------------------------------

  /** A text matches `[^/]+/` as a group exactly when it is one whole segment and its slash. */
  lemma SegmentMatches(text: Text)
    ensures Matches(SEGMENT, text) <==> HasSegment(text) && FirstSlash(text) == |text| - 1
  {
    if Matches(SEGMENT, text) {
      MatchedIsSegment(text);
    }
    if HasSegment(text) && FirstSlash(text) == |text| - 1 {
      SegmentIsMatched(text);
    }
  }

  lemma MatchedIsSegment(text: Text)
    requires Matches(SEGMENT, text)
    ensures HasSegment(text) && FirstSlash(text) == |text| - 1
  {
    var terms := [Plus(NOT_SLASH), Literal(SLASH)];
    assert terms[0] == Plus(NOT_SLASH) && terms[1..] == [Literal(SLASH)];
    assert MatchesAll(terms, text);
    var k :| 0 <= k <= |text| && Matches(terms[0], text[..k]) && MatchesAll(terms[1..], text[k..]);
    SlashMatches(text[k..]);
    assert k == |text| - 1 && text[k..][0] == text[k];
    PlusOfName(text[..k]);
    assert forall j | 0 <= j < k :: text[..k][j] == text[j];
  }

  lemma SegmentIsMatched(text: Text)
    requires HasSegment(text) && FirstSlash(text) == |text| - 1
    ensures Matches(SEGMENT, text)
  {
    var terms := [Plus(NOT_SLASH), Literal(SLASH)];
    var k := |text| - 1;
    assert terms[0] == Plus(NOT_SLASH) && terms[1..] == [Literal(SLASH)];
    assert text[k..] == [SLASH];
    SlashMatches(text[k..]);
    PlusOfName(text[..k]);
    assert Matches(terms[0], text[..k]) && MatchesAll(terms[1..], text[k..]);
    assert MatchesAll(terms, text);
  }

  lemma SlashMatches(text: Text)
    ensures MatchesAll([Literal(SLASH)], text) <==> text == [SLASH]
  {
    OneUnitFirst(Literal(SLASH), [], text);
    assert [Literal(SLASH)] + [] == [Literal(SLASH)];
  }

  lemma PlusOfName(name: Text)
    ensures Matches(Plus(NOT_SLASH), name) <==> name != [] && SLASH !in name
  {
    if Matches(Plus(NOT_SLASH), name) {
      var k :| 0 <= k <= |name| && Matches(NOT_SLASH, name[..k]) && Repeats(NOT_SLASH, name[k..]);
      assert name[..k][0] == name[0];
      RepeatsOfName(name[k..]);
      assert name == [name[0]] + name[1..];
    } else if name != [] && SLASH !in name {
      RepeatsOfName(name[1..]);
      assert Matches(NOT_SLASH, name[..1]);
    }
  }

  lemma {:induction false} RepeatsOfName(name: Text)
    ensures Repeats(NOT_SLASH, name) <==> SLASH !in name
  {
    if name != [] {
      RepeatsOfName(name[1..]);
      assert name == [name[0]] + name[1..];
      if Repeats(NOT_SLASH, name) {
        var k :| 0 < k <= |name| && Matches(NOT_SLASH, name[..k]) && Repeats(NOT_SLASH, name[k..]);
        assert |name[..k]| == k == 1;
        assert name[..k][0] == name[0];
      }
      assert Matches(NOT_SLASH, name[..1]) <==> name[0] != SLASH;
    }
  }

  /** Repeated segments: none, or the path's first whole segment and then repeated segments. */
  lemma StarOfSegments(terms: seq<Term>, path: Text)
    ensures MatchesAll([Star(SEGMENT)] + terms, path) <==>
              || MatchesAll(terms, path)
              || (HasSegment(path) && MatchesAll([Star(SEGMENT)] + terms, path[FirstSlash(path) + 1..]))
  {
    StarUnfolds(SEGMENT, terms, path);
    var i := FirstSlash(path);
    forall k | 0 < k <= |path|
      ensures Matches(SEGMENT, path[..k]) <==> HasSegment(path) && k == i + 1
    {
      var head := path[..k];
      SegmentMatches(head);
      var j := FirstSlash(head);
      if j < |head| {
        assert head[j] == path[j];
        assert forall l | 0 <= l < j :: path[l] == head[l];
        assert j == i;
      } else {
        assert forall l | 0 <= l < k :: path[l] == head[l];
      }
      if HasSegment(path) && k == i + 1 {
        assert head[i] == SLASH;
      }
    }
  }

  lemma {:induction false} TermsMean(glob: Text, path: Text)
    ensures MatchesAll(TermsOf(glob), path) <==> GlobMatches(glob, path)
    decreases |glob| + |path|
  {
    if glob != [] {
      var later := glob[Width(glob)..];
      var terms := TermsOf(later);
      if StartsWith(glob, [STAR, STAR, SLASH]) {
        TermsMean(later, path);
        StarOfSegments(terms, path);
        if HasSegment(path) { TermsMean(glob, path[FirstSlash(path) + 1..]); }
      } else if StartsWith(glob, [STAR, STAR]) || glob[0] == STAR {
        TermsMean(later, path);
        StarOfUnits(if StartsWith(glob, [STAR, STAR]) then Dot else NOT_SLASH, terms, path);
        if path != [] { TermsMean(glob, path[1..]); }
      } else {
        OneUnitFirst(TermOf(glob), terms, path);
        if path != [] { TermsMean(later, path[1..]); }
      }
    }
  }

  /** The emitted regular expression accepts exactly the paths the glob describes. */
  lemma CompilationKeepsMeaning(glob: Text, path: Text)
    ensures Tests(Compiled(glob), path) <==> GlobMatches(glob, path)
  {
    CompiledParses(glob);
    TermsMean(glob, path);
  }

  // ---- consequences -----------------------------------------------------------------------------

  /** A glob without wildcards matches itself alone, regular-expression punctuation included. */
  lemma {:induction false} LiteralGlobs(glob: Text, path: Text)
    requires STAR !in glob && QUESTION !in glob
    ensures GlobMatches(glob, path) <==> path == glob
  {
    if glob != [] {
      assert glob[0] in glob;
      if path != [] {
        LiteralGlobs(glob[1..], path[1..]);
        assert glob == [glob[0]] + glob[1..] && path == [path[0]] + path[1..];
      }
    }
  }

  function Slashes(text: Text): nat {
    if text == [] then 0 else (if text[0] == SLASH then 1 else 0) + Slashes(text[1..])
  }

  predicate NoDoubleStar(glob: Text) {
    glob == [] || (!StartsWith(glob, [STAR, STAR]) && NoDoubleStar(glob[1..]))
  }

  /** Without `**` a path has exactly the slashes that the glob writes. */
  lemma {:induction false} SlashesAgree(glob: Text, path: Text)
    requires NoDoubleStar(glob) && GlobMatches(glob, path)
    ensures Slashes(glob) == Slashes(path)
    decreases |glob| + |path|
  {
    if glob != [] {
      assert !StartsWith(glob, [STAR, STAR, SLASH]) by {
        assert |glob| >= 3 ==> glob[..3][..2] == glob[..2];
      }
      if glob[0] == STAR && !GlobMatches(glob[1..], path) {
        SlashesAgree(glob, path[1..]);
      } else if glob[0] == STAR {
        SlashesAgree(glob[1..], path);
      } else {
        SlashesAgree(glob[1..], path[1..]);
      }
    }
  }

  /** A glob that does not end in `*` is read the same whatever is written behind it. */
  lemma {:induction false} TermsConcatenate(glob: Text, more: Text)
    requires glob == [] || glob[|glob| - 1] != STAR
    ensures TermsOf(glob + more) == TermsOf(glob) + TermsOf(more)
  {
    if glob == [] {
      assert glob + more == more;
    } else {
      var later := glob[Width(glob)..];
      SameTerm(glob, more);
      TermsConcatenate(later, more);
      FirstTerm(glob);
      Associates([TermOf(glob)], TermsOf(later), TermsOf(more));
    }
  }

  lemma {:induction false} FirstTerm(glob: Text)
    requires glob != []
    ensures TermsOf(glob) == [TermOf(glob)] + TermsOf(glob[Width(glob)..])
  {
  }

  lemma {:induction false} SameTerm(glob: Text, more: Text)
    requires glob != [] && glob[|glob| - 1] != STAR
    ensures TermsOf(glob + more) == [TermOf(glob)] + TermsOf(glob[Width(glob)..] + more)
  {
    var all := glob + more;
    assert all[0..] == all && glob[0..] == glob;
    LookAhead(all, 0);
    LookAhead(glob, 0);
    assert all[Width(glob)..] == glob[Width(glob)..] + more;
    FirstTerm(all);
  }

  /** Such a glob and what is written behind it match the parts of a path cut somewhere. */
  lemma GlobsConcatenate(glob: Text, more: Text, path: Text)
    requires glob == [] || glob[|glob| - 1] != STAR
    ensures GlobMatches(glob + more, path) <==>
              exists k :: 0 <= k <= |path| && GlobMatches(glob, path[..k]) && GlobMatches(more, path[k..])
  {
    TermsMean(glob + more, path);
    TermsConcatenate(glob, more);
    TermsJoin(TermsOf(glob), TermsOf(more), path);
    forall k | 0 <= k <= |path|
      ensures MatchesAll(TermsOf(glob), path[..k]) <==> GlobMatches(glob, path[..k])
      ensures MatchesAll(TermsOf(more), path[k..]) <==> GlobMatches(more, path[k..])
    {
      TermsMean(glob, path[..k]);
      TermsMean(more, path[k..]);
    }
  }

  lemma {:induction false} StarsAlone(path: Text)
    ensures GlobMatches([STAR, STAR], path) <==> forall u | u in path :: !IsLineTerminator(u)
  {
    var glob: Text := [STAR, STAR];
    assert glob[..2] == [STAR, STAR] && glob[2..] == [];
    if path != [] {
      StarsAlone(path[1..]);
      assert path == [path[0]] + path[1..];
    }
  }

  /** A star takes any name or part of one, also an empty one. */
  lemma {:induction false} StarAlone(path: Text)
    ensures GlobMatches([STAR], path) <==> SLASH !in path
  {
    var glob: Text := [STAR];
    assert glob[1..] == [];
    if path != [] {
      StarAlone(path[1..]);
      assert path == [path[0]] + path[1..];
    }
  }

  /** A question mark takes one character of a name. */
  lemma QuestionAlone(path: Text)
    ensures GlobMatches([QUESTION], path) <==> |path| == 1 && path[0] != SLASH
  {
    var glob: Text := [QUESTION];
    assert glob[1..] == [];
  }

  /** Whole directories: no slash comes first or behind another one, and none is missing at the end. */
  predicate Directories(path: Text) {
    path != [] ==>
      && path[0] != SLASH && path[|path| - 1] == SLASH
      && forall i | 0 < i < |path| :: path[i] == SLASH ==> path[i - 1] != SLASH
  }

  /** Two stars and a slash take any number of whole directories. */
  lemma {:induction false} StarsSlashAlone(path: Text)
    ensures GlobMatches([STAR, STAR, SLASH], path) <==> Directories(path)
    decreases |path|
  {
    var glob: Text := [STAR, STAR, SLASH];
    assert glob[..3] == glob && glob[3..] == [];
    if HasSegment(path) {
      var i := FirstSlash(path);
      StarsSlashAlone(path[i + 1..]);
      DirectoriesOn(path, i);
    }
  }

  lemma DirectoriesOn(path: Text, i: nat)
    requires HasSegment(path) && i == FirstSlash(path)
    ensures Directories(path) <==> Directories(path[i + 1..])
  {
    var rest := path[i + 1..];
    assert forall j | 0 <= j < |rest| :: rest[j] == path[i + 1 + j];
    if Directories(rest) && rest != [] {
      forall j | 0 < j < |path| && path[j] == SLASH ensures path[j - 1] != SLASH {
        if j > i + 1 {
          assert rest[j - i - 1] == SLASH;
        }
      }
    }
    if Directories(path) && rest != [] {
      forall j | 0 < j < |rest| && rest[j] == SLASH ensures rest[j - 1] != SLASH {
        assert path[i + 1 + j] == SLASH;
      }
      assert path[i + 1] != SLASH;
    }
  }

  /** A trailing `**` stands for everything behind what the glob before it matches, but only where
      that is free of line terminators. */
  lemma TrailingStars(glob: Text, path: Text)
    requires glob == [] || glob[|glob| - 1] != STAR
    ensures GlobMatches(glob + [STAR, STAR], path) <==>
              exists k :: 0 <= k <= |path| && GlobMatches(glob, path[..k])
                          && forall u | u in path[k..] :: !IsLineTerminator(u)
  {
    GlobsConcatenate(glob, [STAR, STAR], path);
    forall k | 0 <= k <= |path|
      ensures GlobMatches([STAR, STAR], path[k..]) <==> forall u | u in path[k..] :: !IsLineTerminator(u)
    {
      StarsAlone(path[k..]);
    }
  }
}
