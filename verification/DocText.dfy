// Text as the document generator (scripts/gen-llms.ts) measures and cuts it: UTF-8 sizes, lines,
// trimming, and the non-whitespace characters that no cut may lose.
module DocText {
  import opened Prelude

  /** Length of the UTF-8 encoding of one character (section 3 of RFC 3629). */
  function CharBytes(c: char): nat {
    if c < '\U{80}' then 1 else if c < '\U{800}' then 2 else if c < '\U{10000}' then 3 else 4
  }

  function Bytes(text: string): nat {
    if text == [] then 0 else CharBytes(text[0]) + Bytes(text[1..])
  }

  lemma {:induction false} BytesAdd(a: string, b: string)
    ensures Bytes(a + b) == Bytes(a) + Bytes(b)
  {
    if a == [] {
      assert a + b == b;
    } else {
      BytesAdd(a[1..], b);
      assert (a + b)[1..] == a[1..] + b;
    }
  }

  /** White space and line terminators of ECMA-262: what `trim` removes and `\s` matches. */
  predicate IsSpace(c: char) {
    || '\U{9}' <= c <= '\U{D}'
    || c == ' '
    || c == '\U{A0}'
    || c == '\U{1680}'
    || '\U{2000}' <= c <= '\U{200A}'
    || c == '\U{2028}'
    || c == '\U{2029}'
    || c == '\U{202F}'
    || c == '\U{205F}'
    || c == '\U{3000}'
    || c == '\U{FEFF}'
  }

  function NonSpace(text: string): (rest: string)
    ensures |rest| <= |text|
  {
    if text == [] then [] else (if IsSpace(text[0]) then [] else [text[0]]) + NonSpace(text[1..])
  }

  lemma {:induction false} NonSpaceAdd(a: string, b: string)
    ensures NonSpace(a + b) == NonSpace(a) + NonSpace(b)
  {
    if a == [] {
      assert a + b == b;
    } else {
      NonSpaceAdd(a[1..], b);
      assert (a + b)[1..] == a[1..] + b;
      Associates(if IsSpace(a[0]) then [] else [a[0]], NonSpace(a[1..]), NonSpace(b));
    }
  }

  /** The non-whitespace characters of several texts, in order. */
  function NonSpaceAll(texts: seq<string>): string {
    if texts == [] then [] else NonSpace(texts[0]) + NonSpaceAll(texts[1..])
  }

  lemma {:induction false} NonSpaceAllAdd(a: seq<string>, b: seq<string>)
    ensures NonSpaceAll(a + b) == NonSpaceAll(a) + NonSpaceAll(b)
  {
    if a == [] {
      assert a + b == b;
    } else {
      NonSpaceAllAdd(a[1..], b);
      assert (a + b)[1..] == a[1..] + b;
      Associates(NonSpace(a[0]), NonSpaceAll(a[1..]), NonSpaceAll(b));
    }
  }

  lemma {:induction false} NonSpaceIn(texts: seq<string>, i: nat)
    requires i < |texts|
    ensures |NonSpace(texts[i])| <= |NonSpaceAll(texts)|
    ensures (exists j :: 0 <= j < |texts| && j != i && NonSpace(texts[j]) != []) ==>
              |NonSpace(texts[i])| < |NonSpaceAll(texts)|
  {
    if i > 0 {
      NonSpaceIn(texts[1..], i - 1);
      if j :| 0 <= j < |texts| && j != i && NonSpace(texts[j]) != [] {
        if j > 0 {
          assert texts[1..][j - 1] == texts[j];
        }
      }
    } else if j :| 0 < j < |texts| && NonSpace(texts[j]) != [] {
      NonSpaceIn(texts[1..], j - 1);
    }
  }

  // ---- trimming --------------------------------------------------------------------------------

  function TrimStart(text: string): string {
    if text != [] && IsSpace(text[0]) then TrimStart(text[1..]) else text
  }

  function TrimEnd(text: string): string {
    if text != [] && IsSpace(text[|text| - 1]) then TrimEnd(text[..|text| - 1]) else text
  }

  function Trim(text: string): string {
    TrimEnd(TrimStart(text))
  }

  lemma {:induction false} TrimEndKeeps(text: string)
    ensures NonSpace(TrimEnd(text)) == NonSpace(text)
  {
    if text != [] && IsSpace(text[|text| - 1]) {
      var head, last := text[..|text| - 1], [text[|text| - 1]];
      TrimEndKeeps(head);
      NonSpaceAdd(head, last);
      assert head + last == text;
      assert NonSpace(last) == [];
    }
  }

  lemma {:induction false} TrimStartKeeps(text: string)
    ensures NonSpace(TrimStart(text)) == NonSpace(text)
    ensures TrimStart(text) != [] ==> NonSpace(text) != []
  {
    if text != [] && IsSpace(text[0]) {
      TrimStartKeeps(text[1..]);
    }
  }

  /** Trimming loses white space only, and leaves nothing only when there was nothing else. */
  lemma TrimKeeps(text: string)
    ensures NonSpace(Trim(text)) == NonSpace(text)
    ensures Trim(text) == [] <==> NonSpace(text) == []
  {
    TrimStartKeeps(text);
    TrimEndKeeps(TrimStart(text));
    assert TrimStart(text) == [] ==> Trim(text) == [];
    assert Trim(text) == [] ==> NonSpace(Trim(text)) == [];
  }

  // ---- lines -----------------------------------------------------------------------------------

  function Lines(text: string): (lines: seq<string>)
    ensures lines != []
  {
    if text == [] then [[]]
    else
      var rest := Lines(text[1..]);
      if text[0] == '\n' then [[]] + rest else [[text[0]] + rest[0]] + rest[1..]
  }

  function Join(texts: seq<string>, joiner: string): string {
    if texts == [] then []
    else if |texts| == 1 then texts[0]
    else texts[0] + joiner + Join(texts[1..], joiner)
  }

  lemma {:induction false} LinesKeep(text: string)
    ensures NonSpaceAll(Lines(text)) == NonSpace(text)
  {
    if text != [] {
      LinesKeep(text[1..]);
      var rest := Lines(text[1..]);
      if text[0] != '\n' {
        NonSpaceAdd([text[0]], rest[0]);
        assert ([[text[0]] + rest[0]] + rest[1..])[1..] == rest[1..];
      } else {
        assert ([[]] + rest)[1..] == rest;
      }
    }
  }

  lemma {:induction false} JoinKeeps(texts: seq<string>, joiner: string)
    requires NonSpace(joiner) == []
    ensures NonSpace(Join(texts, joiner)) == NonSpaceAll(texts)
  {
    if |texts| == 1 {
      assert texts[1..] == [];
    } else if texts != [] {
      var rest := Join(texts[1..], joiner);
      JoinKeeps(texts[1..], joiner);
      NonSpaceAdd(texts[0] + joiner, rest);
      NonSpaceAdd(texts[0], joiner);
    }
  }

  lemma {:induction false} JoinAppends(texts: seq<string>, joiner: string, text: string)
    requires texts != []
    ensures Join(texts + [text], joiner) == Join(texts, joiner) + joiner + text
  {
    var longer := texts + [text];
    if |texts| == 1 {
      assert longer[1..] == [text];
    } else {
      JoinAppends(texts[1..], joiner, text);
      assert longer[1..] == texts[1..] + [text];
      var a, b := texts[0] + joiner, Join(texts[1..], joiner);
      assert a + (b + joiner + text) == a + b + joiner + text;
    }
  }

  /** Every line is at most `max` bytes. */
  ghost predicate LinesFit(text: string, max: int) {
    AllFit(Lines(text), max)
  }

  ghost predicate AllFit(texts: seq<string>, max: int) {
    forall i | 0 <= i < |texts| :: Bytes(texts[i]) <= max
  }

  lemma FirstDropped(text: string, max: int)
    requires text != [] && LinesFit(text, max)
    ensures LinesFit(text[1..], max)
  {
    var lines, rest := Lines(text), Lines(text[1..]);
    forall i | 0 <= i < |rest| ensures Bytes(rest[i]) <= max {
      if text[0] == '\n' {
        assert lines[i + 1] == rest[i];
      } else if i > 0 {
        assert lines[i] == rest[i];
      } else {
        assert lines[0][1..] == rest[0];
      }
    }
  }

  /** The lines of a text with one more character at its end. */
  function Extended(lines: seq<string>, c: char): seq<string>
    requires lines != []
  {
    if c == '\n' then lines + [[]] else lines[|lines| - 1 := lines[|lines| - 1] + [c]]
  }

  /** And with one more at its start. */
  function Prefixed(c: char, lines: seq<string>): seq<string>
    requires lines != []
  {
    if c == '\n' then [[]] + lines else [[c] + lines[0]] + lines[1..]
  }

  lemma EndsCommute(first: char, lines: seq<string>, c: char)
    requires lines != []
    ensures Extended(lines, c) != [] && Prefixed(first, lines) != []
    ensures Extended(Prefixed(first, lines), c) == Prefixed(first, Extended(lines, c))
  {
    if |lines| == 1 && first != '\n' && c != '\n' {
      Associates([first], lines[0], [c]);
    }
  }

  lemma {:induction false} LinesAppend(text: string, c: char)
    ensures Lines(text + [c]) == Extended(Lines(text), c)
  {
    var longer := text + [c];
    if text == [] {
      assert longer == [c] && longer[1..] == [];
      assert [c] + [] == [c];
    } else {
      LinesAppend(text[1..], c);
      assert longer[1..] == text[1..] + [c] && longer[0] == text[0];
      EndsCommute(text[0], Lines(text[1..]), c);
    }
  }

  lemma LastDropped(text: string, max: int)
    requires text != [] && LinesFit(text, max)
    ensures LinesFit(text[..|text| - 1], max)
  {
    var head, c := text[..|text| - 1], text[|text| - 1];
    assert head + [c] == text;
    LinesAppend(head, c);
    var lines, all := Lines(head), Lines(text);
    forall i | 0 <= i < |lines| ensures Bytes(lines[i]) <= max {
      if c == '\n' || i < |lines| - 1 {
        assert all[i] == lines[i];
      } else {
        assert all[i] == lines[i] + [c];
        BytesAdd(lines[i], [c]);
      }
    }
  }

  lemma {:induction false} TrimStartFits(text: string, max: int)
    requires LinesFit(text, max)
    ensures LinesFit(TrimStart(text), max)
  {
    if text != [] && IsSpace(text[0]) {
      FirstDropped(text, max);
      TrimStartFits(text[1..], max);
    }
  }

  lemma {:induction false} TrimEndFits(text: string, max: int)
    requires LinesFit(text, max)
    ensures LinesFit(TrimEnd(text), max)
  {
    if text != [] && IsSpace(text[|text| - 1]) {
      LastDropped(text, max);
      TrimEndFits(text[..|text| - 1], max);
    }
  }

  ghost predicate NoBreaks(lines: seq<string>) {
    forall i | 0 <= i < |lines| :: '\n' !in lines[i]
  }

  lemma {:induction false} LinesHaveNoBreaks(text: string)
    ensures NoBreaks(Lines(text))
  {
    if text != [] {
      LinesHaveNoBreaks(text[1..]);
    }
  }

  lemma {:induction false} LinesOfLine(line: string, text: string)
    requires '\n' !in line
    ensures Lines(line + ['\n'] + text) == [line] + Lines(text)
    ensures Lines(line) == [line]
  {
    var all := line + ['\n'] + text;
    if line == [] {
      assert all[1..] == text;
    } else {
      assert line == [line[0]] + line[1..];
      LinesOfLine(line[1..], text);
      assert all[1..] == line[1..] + ['\n'] + text;
    }
  }

  /** Joining lines by a line break and taking them apart again gives the lines. */
  lemma {:induction false} LinesOfJoin(lines: seq<string>)
    requires NoBreaks(lines) && lines != []
    ensures Lines(Join(lines, "\n")) == lines
  {
    if |lines| == 1 {
      LinesOfLine(lines[0], []);
    } else {
      LinesOfJoin(lines[1..]);
      var rest := Join(lines[1..], "\n");
      LinesOfLine(lines[0], rest);
      assert Join(lines, "\n") == lines[0] + ['\n'] + rest;
    }
  }
}
