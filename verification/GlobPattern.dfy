// Regular expressions as `new RegExp(source)` reads them: the part of the pattern grammar of
// section 22.2 of ECMA-262 that a workspace glob is compiled to, and what such a pattern matches.
module GlobPattern {

  /** A UTF-16 code unit: without the `u` flag these are the characters of a pattern. */
  type Unit = u: int | 0 <= u < 0x1_0000 witness 0

  type Text = seq<Unit>

  predicate IsLineTerminator(u: Unit) {
    u == 0x0A || u == 0x0D || u == 0x2028 || u == 0x2029
  }

  const SLASH: Unit := '/' as int
  const STAR: Unit := '*' as int
  const QUESTION: Unit := '?' as int
  const PLUS: Unit := '+' as int
  const DOT: Unit := '.' as int
  const BACKSLASH: Unit := '\\' as int
  const CARET: Unit := '^' as int
  const DOLLAR: Unit := '$' as int
  const OPEN_BRACKET: Unit := '[' as int
  const CLOSE_BRACKET: Unit := ']' as int
  const OPEN_PAREN: Unit := '(' as int
  const CLOSE_PAREN: Unit := ')' as int
  const OPEN_BRACE: Unit := '{' as int
  const CLOSE_BRACE: Unit := '}' as int
  const BAR: Unit := '|' as int
  const COLON: Unit := ':' as int
  const HYPHEN: Unit := '-' as int

  predicate IsSyntaxCharacter(u: Unit) {
    || u == CARET || u == DOLLAR || u == BACKSLASH || u == DOT || u == STAR || u == PLUS || u == QUESTION
    || u == OPEN_PAREN || u == CLOSE_PAREN || u == OPEN_BRACKET || u == CLOSE_BRACKET
    || u == OPEN_BRACE || u == CLOSE_BRACE || u == BAR
  }

  datatype Term =
    | Literal(u: Unit)
    | Dot
    | NoneOf(units: seq<Unit>)
    | Group(terms: seq<Term>)
    | Star(term: Term)
    | Plus(term: Term)

  // ---- reading a pattern ---------------------------------------------------------------------

  datatype Parsed<T> = Parsed(value: T, rest: Text) | NotRead

  predicate Begins(text: Text, u: Unit) {
    text != [] && text[0] == u
  }

  /** A disjunction of one alternative, up to `)`, `$` or the end of the pattern. */
  function ParseTerms(text: Text): (parsed: Parsed<seq<Term>>)
    ensures parsed.Parsed? ==> |parsed.rest| <= |text|
    decreases |text|, 2
  {
    if text == [] || text[0] == CLOSE_PAREN || text[0] == DOLLAR then Parsed([], text)
    else match ParseTerm(text)
      case NotRead => NotRead
      case Parsed(term, rest) =>
        match ParseTerms(rest)
        case NotRead => NotRead
        case Parsed(terms, end) => Parsed([term] + terms, end)
  }

  /** An atom and its quantifier; lazy and counted quantifiers are not read. */
  function ParseTerm(text: Text): (parsed: Parsed<Term>)
    ensures parsed.Parsed? ==> |parsed.rest| < |text|
    decreases |text|, 1
  {
    match ParseAtom(text)
    case NotRead => NotRead
    case Parsed(atom, rest) =>
      if Begins(rest, QUESTION) || Begins(rest, OPEN_BRACE) then NotRead
      else if Begins(rest, STAR) || Begins(rest, PLUS) then
        if Begins(rest[1..], QUESTION) then NotRead
        else Parsed(if rest[0] == STAR then Star(atom) else Plus(atom), rest[1..])
      else Parsed(atom, rest)
  }

  /** A character, an escaped syntax character, `.`, a negated class or a group without capture. */
  function ParseAtom(text: Text): (parsed: Parsed<Term>)
    ensures parsed.Parsed? ==> |parsed.rest| < |text|
    decreases |text|, 0
  {
    if text == [] then NotRead
    else if text[0] == DOT then Parsed(Dot, text[1..])
    else if text[0] == BACKSLASH then
      if |text| >= 2 && IsSyntaxCharacter(text[1]) then Parsed(Literal(text[1]), text[2..]) else NotRead
    else if text[0] == OPEN_BRACKET then
      if Begins(text[1..], CARET) then ParseClass(text[2..]) else NotRead
    else if text[0] == OPEN_PAREN then
      if Begins(text[1..], QUESTION) && Begins(text[2..], COLON) then ParseGroup(text[3..]) else NotRead
    else if IsSyntaxCharacter(text[0]) then NotRead
    else Parsed(Literal(text[0]), text[1..])
  }

  /** The rest of a negated class of single characters. */
  function ParseClass(text: Text): (parsed: Parsed<Term>)
    ensures parsed.Parsed? ==> parsed.value.NoneOf? && |parsed.rest| < |text|
    decreases |text|, 0
  {
    if text == [] || text[0] == BACKSLASH || text[0] == HYPHEN then NotRead
    else if text[0] == CLOSE_BRACKET then Parsed(NoneOf([]), text[1..])
    else match ParseClass(text[1..])
      case NotRead => NotRead
      case Parsed(term, rest) => Parsed(NoneOf([text[0]] + term.units), rest)
  }

  function ParseGroup(text: Text): (parsed: Parsed<Term>)
    ensures parsed.Parsed? ==> |parsed.rest| < |text|
    decreases |text|, 3
  {
    match ParseTerms(text)
    case NotRead => NotRead
    case Parsed(terms, rest) => if Begins(rest, CLOSE_PAREN) then Parsed(Group(terms), rest[1..]) else NotRead
  }

  /** `^` … `$`: the pattern is anchored at both ends. */
  function ParsePattern(source: Text): Parsed<seq<Term>> {
    if !Begins(source, CARET) then NotRead
    else match ParseTerms(source[1..])
      case NotRead => NotRead
      case Parsed(terms, rest) => if rest == [DOLLAR] then Parsed(terms, []) else NotRead
  }

  // ---- what a pattern matches ----------------------------------------------------------------

  ghost predicate Matches(term: Term, text: Text)
    decreases term, |text|, 0
  {
    match term
    case Literal(u) => text == [u]
    case Dot => |text| == 1 && !IsLineTerminator(text[0])
    case NoneOf(units) => |text| == 1 && text[0] !in units
    case Group(terms) => MatchesAll(terms, text)
    case Star(repeated) => Repeats(repeated, text)
    case Plus(repeated) =>
      exists k | 0 <= k <= |text| :: Matches(repeated, text[..k]) && Repeats(repeated, text[k..])
  }

  /** Any number of pieces, each matching; iterations that match nothing add nothing. */
  ghost predicate Repeats(term: Term, text: Text)
    decreases term, |text|, 1
  {
    text == [] || exists k | 0 < k <= |text| :: Matches(term, text[..k]) && Repeats(term, text[k..])
  }

  ghost predicate MatchesAll(terms: seq<Term>, text: Text)
    decreases terms, |text|, 0
  {
    if terms == [] then text == []
    else exists k | 0 <= k <= |text| :: Matches(terms[0], text[..k]) && MatchesAll(terms[1..], text[k..])
  }

  /** `RegExp.test` of an anchored pattern: the whole text matches. */
  ghost predicate Tests(source: Text, path: Text) {
    ParsePattern(source).Parsed? && MatchesAll(ParsePattern(source).value, path)
  }

  /** A repetition goes on by one more piece, or gives way to what follows it. */
  lemma StarUnfolds(term: Term, terms: seq<Term>, text: Text)
    ensures MatchesAll([Star(term)] + terms, text) <==>
              || MatchesAll(terms, text)
              || exists k | 0 < k <= |text| :: Matches(term, text[..k]) && MatchesAll([Star(term)] + terms, text[k..])
  {
    var all := [Star(term)] + terms;
    assert all[0] == Star(term) && all[1..] == terms;
    assert text[0..] == text && text[..0] == [];
    if MatchesAll(all, text) {
      var k :| 0 <= k <= |text| && Matches(Star(term), text[..k]) && MatchesAll(terms, text[k..]);
      if k > 0 {
        StarSplits(term, terms, text, k);
      }
    } else {
      assert Matches(Star(term), text[..0]);
      forall k | 0 < k <= |text| && Matches(term, text[..k]) ensures !MatchesAll(all, text[k..]) {
        if MatchesAll(all, text[k..]) {
          StarJoins(term, terms, text, k);
        }
      }
    }
  }

  lemma StarSplits(term: Term, terms: seq<Term>, text: Text, k: nat)
    requires 0 < k <= |text| && Matches(Star(term), text[..k]) && MatchesAll(terms, text[k..])
    ensures exists j | 0 < j <= |text| :: Matches(term, text[..j]) && MatchesAll([Star(term)] + terms, text[j..])
  {
    assert Repeats(term, text[..k]);
    var j :| 0 < j <= k && Matches(term, text[..k][..j]) && Repeats(term, text[..k][j..]);
    var all, rest := [Star(term)] + terms, text[j..];
    assert all[0] == Star(term) && all[1..] == terms;
    assert text[..k][..j] == text[..j];
    assert text[..k][j..] == text[j..k] == rest[..k - j];
    assert rest[k - j..] == text[k..];
    assert Matches(Star(term), rest[..k - j]) && MatchesAll(terms, rest[k - j..]);
    assert MatchesAll(all, rest);
  }

  lemma StarJoins(term: Term, terms: seq<Term>, text: Text, k: nat)
    requires 0 < k <= |text| && Matches(term, text[..k]) && MatchesAll([Star(term)] + terms, text[k..])
    ensures MatchesAll([Star(term)] + terms, text)
  {
    var all, rest := [Star(term)] + terms, text[k..];
    assert all[0] == Star(term) && all[1..] == terms;
    var j :| 0 <= j <= |rest| && Matches(Star(term), rest[..j]) && MatchesAll(terms, rest[j..]);
    var whole := text[..k + j];
    assert whole[..k] == text[..k] && whole[k..] == rest[..j] && text[k + j..] == rest[j..];
    assert Repeats(term, whole[k..]);
    assert Matches(term, whole[..k]);
    assert Repeats(term, whole);
    assert Matches(Star(term), whole);
  }

  /** A term that takes exactly one character when `takes` says so. */
  lemma OneUnitFirst(term: Term, terms: seq<Term>, text: Text)
    requires term.Literal? || term.Dot? || term.NoneOf?
    ensures MatchesAll([term] + terms, text) <==>
              text != [] && Matches(term, text[..1]) && MatchesAll(terms, text[1..])
  {
    var all := [term] + terms;
    assert all[0] == term && all[1..] == terms;
    if MatchesAll(all, text) {
      var k :| 0 <= k <= |text| && Matches(term, text[..k]) && MatchesAll(terms, text[k..]);
      assert k == 1;
    }
  }

  /** A repetition of one-character terms takes one character at a time. */
  lemma StarOfUnits(term: Term, terms: seq<Term>, text: Text)
    requires term.Dot? || term.NoneOf?
    ensures MatchesAll([Star(term)] + terms, text) <==>
              || MatchesAll(terms, text)
              || (text != [] && Matches(term, text[..1]) && MatchesAll([Star(term)] + terms, text[1..]))
  {
    StarUnfolds(term, terms, text);
    forall k | 0 < k <= |text| && Matches(term, text[..k]) ensures k == 1 {
      assert |text[..k]| == k;
    }
  }

  /** Terms in a row match a text exactly when it can be cut between them. */
  lemma TermsJoin(a: seq<Term>, b: seq<Term>, text: Text)
    ensures MatchesAll(a + b, text) <==>
              exists k | 0 <= k <= |text| :: MatchesAll(a, text[..k]) && MatchesAll(b, text[k..])
    decreases |a|
  {
    if a == [] {
      assert a + b == b && text[..0] == [] && text[0..] == text;
    } else {
      if MatchesAll(a + b, text) {
        JoinIsCut(a, b, text);
      }
      if k :| 0 <= k <= |text| && MatchesAll(a, text[..k]) && MatchesAll(b, text[k..]) {
        CutIsJoin(a, b, text, k);
      }
    }
  }

  lemma {:induction false} FirstCut(terms: seq<Term>, text: Text) returns (i: nat)
    requires terms != [] && MatchesAll(terms, text)
    ensures i <= |text| && Matches(terms[0], text[..i]) && MatchesAll(terms[1..], text[i..])
  {
    i :| 0 <= i <= |text| && Matches(terms[0], text[..i]) && MatchesAll(terms[1..], text[i..]);
  }

  lemma {:induction false} CutFirst(terms: seq<Term>, more: seq<Term>, text: Text, i: nat)
    requires terms != [] && i <= |text| && Matches(terms[0], text[..i]) && MatchesAll(terms[1..] + more, text[i..])
    ensures MatchesAll(terms + more, text)
  {
    assert (terms + more)[0] == terms[0] && (terms + more)[1..] == terms[1..] + more;
  }

  lemma {:induction false} JoinIsCut(a: seq<Term>, b: seq<Term>, text: Text)
    requires a != [] && MatchesAll(a + b, text)
    ensures exists k | 0 <= k <= |text| :: MatchesAll(a, text[..k]) && MatchesAll(b, text[k..])
    decreases |a|, 0
  {
    assert (a + b)[0] == a[0] && (a + b)[1..] == a[1..] + b;
    var i := FirstCut(a + b, text);
    TermsJoin(a[1..], b, text[i..]);
    var j :| 0 <= j <= |text[i..]| && MatchesAll(a[1..], text[i..][..j]) && MatchesAll(b, text[i..][j..]);
    var head := text[..i + j];
    assert head[..i] == text[..i] && head[i..] == text[i..][..j] && text[i + j..] == text[i..][j..];
    CutFirst(a, [], head, i) by { assert a[1..] + [] == a[1..]; }
    assert a + [] == a;
  }

  lemma {:induction false} CutIsJoin(a: seq<Term>, b: seq<Term>, text: Text, k: nat)
    requires a != [] && k <= |text| && MatchesAll(a, text[..k]) && MatchesAll(b, text[k..])
    ensures MatchesAll(a + b, text)
    decreases |a|, 0
  {
    var i := FirstCut(a, text[..k]);
    var rest := text[i..];
    assert text[..k][..i] == text[..i] && text[..k][i..] == rest[..k - i] && rest[k - i..] == text[k..];
    TermsJoin(a[1..], b, rest);
    CutFirst(a, b, text, i);
  }
}
