// Splitting a markdown document into pieces that fit (scripts/gen-llms.ts): at headings, then at
// paragraphs, then at lines, never inside a code fence if it can be helped.
module DocSplitter {
  import opened Prelude
  import opened DocText

  /** A line that opens or closes a code fence. */
  predicate IsFence(line: string) {
    var text := TrimStart(line);
    |text| >= 3 && (text[..3] == "```" || text[..3] == "~~~")
  }

  predicate IsHeading(line: string, level: nat) {
    |line| > level && line[level] == ' ' && forall i | 0 <= i < level :: line[i] == '#'
  }

  /** Whether a fence is open behind these lines. */
  predicate Fenced(lines: seq<string>) {
    lines != [] && (Fenced(lines[..|lines| - 1]) != IsFence(lines[|lines| - 1]))
  }

  function AddToLast(groups: seq<seq<string>>, line: string): (added: seq<seq<string>>)
    requires groups != []
    ensures |added| == |groups|
  {
    groups[|groups| - 1 := groups[|groups| - 1] + [line]]
  }

  /** Lines grouped so that each heading of the level outside a fence begins a group. */
  function SectionGroups(lines: seq<string>, level: nat): (groups: seq<seq<string>>)
    ensures groups != []
  {
    if lines == [] then [[]] else
      var line := lines[|lines| - 1];
      var groups := SectionGroups(lines[..|lines| - 1], level);
      AddToLast(if !Fenced(lines) && IsHeading(line, level) then groups + [[]] else groups, line)
  }

  /** Lines grouped so that each blank line outside a fence ends a group and is dropped. */
  function ParagraphGroups(lines: seq<string>): (groups: seq<seq<string>>)
    ensures groups != []
  {
    if lines == [] then [[]] else
      var line := lines[|lines| - 1];
      var groups := ParagraphGroups(lines[..|lines| - 1]);
      if !Fenced(lines) && Trim(line) == [] then groups + [[]] else AddToLast(groups, line)
  }

  function TrimmedTexts(groups: seq<seq<string>>): seq<string> {
    if groups == [] then [] else
      var text := Trim(Join(groups[0], "\n"));
      (if text == [] then [] else [text]) + TrimmedTexts(groups[1..])
  }

  function NonBlankTexts(groups: seq<seq<string>>): seq<string> {
    if groups == [] then [] else
      var text := Join(groups[0], "\n");
      (if Trim(text) == [] then [] else [text]) + NonBlankTexts(groups[1..])
  }

  function Sections(markdown: string, level: nat): seq<string> {
    TrimmedTexts(SectionGroups(Lines(markdown), level))
  }

  function Paragraphs(markdown: string): seq<string> {
    NonBlankTexts(ParagraphGroups(Lines(markdown)))
  }

  method SectionsAt(markdown: string, level: nat) returns (sections: seq<string>)
    ensures sections == Sections(markdown, level)
  {
    var lines := Lines(markdown);
    var groups: seq<seq<string>> := [[]];
    var fenced := false;
    for i := 0 to |lines|
      invariant groups == SectionGroups(lines[..i], level) && fenced == Fenced(lines[..i])
    {
      assert lines[..i + 1][..i] == lines[..i];
      if IsFence(lines[i]) {
        fenced := !fenced;
      }
      if !fenced && IsHeading(lines[i], level) {
        groups := groups + [[]];
      }
      groups := AddToLast(groups, lines[i]);
    }
    assert lines[..|lines|] == lines;
    sections := TrimmedTexts(groups);
  }

  method ParagraphsOf(markdown: string) returns (paragraphs: seq<string>)
    ensures paragraphs == Paragraphs(markdown)
  {
    var lines := Lines(markdown);
    var groups: seq<seq<string>> := [[]];
    var fenced := false;
    for i := 0 to |lines|
      invariant groups == ParagraphGroups(lines[..i]) && fenced == Fenced(lines[..i])
    {
      assert lines[..i + 1][..i] == lines[..i];
      if IsFence(lines[i]) {
        fenced := !fenced;
      }
      if !fenced && Trim(lines[i]) == [] {
        groups := groups + [[]];
      } else {
        groups := AddToLast(groups, lines[i]);
      }
    }
    assert lines[..|lines|] == lines;
    paragraphs := NonBlankTexts(groups);
  }

  // ---- grouping loses no text and makes no line longer --------------------------------------------

  function GroupsNonSpace(groups: seq<seq<string>>): string {
    if groups == [] then [] else NonSpaceAll(groups[0]) + GroupsNonSpace(groups[1..])
  }

  lemma {:induction false} GroupsNonSpaceAppend(groups: seq<seq<string>>, group: seq<string>)
    ensures GroupsNonSpace(groups + [group]) == GroupsNonSpace(groups) + NonSpaceAll(group)
  {
    var all := groups + [group];
    if groups == [] {
      assert all[1..] == [];
    } else {
      GroupsNonSpaceAppend(groups[1..], group);
      assert all[1..] == groups[1..] + [group];
      Associates(NonSpaceAll(groups[0]), GroupsNonSpace(groups[1..]), NonSpaceAll(group));
    }
  }

  lemma AddToLastKeeps(groups: seq<seq<string>>, line: string)
    requires groups != []
    ensures GroupsNonSpace(AddToLast(groups, line)) == GroupsNonSpace(groups) + NonSpace(line)
  {
    var init, last := groups[..|groups| - 1], groups[|groups| - 1];
    assert groups == init + [last] && AddToLast(groups, line) == init + [last + [line]];
    GroupsNonSpaceAppend(init, last);
    GroupsNonSpaceAppend(init, last + [line]);
    NonSpaceAllAdd(last, [line]);
    assert NonSpaceAll([line]) == NonSpace(line);
    Associates(GroupsNonSpace(init), NonSpaceAll(last), NonSpace(line));
  }

  lemma NonSpaceAllLast(lines: seq<string>)
    requires lines != []
    ensures NonSpaceAll(lines) == NonSpaceAll(lines[..|lines| - 1]) + NonSpace(lines[|lines| - 1])
  {
    var line := lines[|lines| - 1];
    assert lines == lines[..|lines| - 1] + [line];
    NonSpaceAllAdd(lines[..|lines| - 1], [line]);
    assert NonSpaceAll([line]) == NonSpace(line);
  }

  lemma {:induction false} SectionGroupsKeep(lines: seq<string>, level: nat)
    ensures GroupsNonSpace(SectionGroups(lines, level)) == NonSpaceAll(lines)
  {
    if lines != [] {
      var line, groups := lines[|lines| - 1], SectionGroups(lines[..|lines| - 1], level);
      SectionGroupsKeep(lines[..|lines| - 1], level);
      NonSpaceAllLast(lines);
      GroupsNonSpaceAppend(groups, []);
      AddToLastKeeps(groups, line);
      AddToLastKeeps(groups + [[]], line);
    }
  }

  lemma {:induction false} ParagraphGroupsKeep(lines: seq<string>)
    ensures GroupsNonSpace(ParagraphGroups(lines)) == NonSpaceAll(lines)
  {
    if lines != [] {
      var line, groups := lines[|lines| - 1], ParagraphGroups(lines[..|lines| - 1]);
      ParagraphGroupsKeep(lines[..|lines| - 1]);
      NonSpaceAllLast(lines);
      GroupsNonSpaceAppend(groups, []);
      AddToLastKeeps(groups, line);
      TrimKeeps(line);
    }
  }

  /** What a list of texts keeps of the groups it was made from. */
  ghost predicate Represents(texts: seq<string>, groups: seq<seq<string>>) {
    && NonSpaceAll(texts) == GroupsNonSpace(groups)
    && forall i | 0 <= i < |texts| :: NonSpace(texts[i]) != []
  }

  lemma RepresentsNext(texts: seq<string>, group: seq<string>, text: string, rest: seq<string>, groups: seq<seq<string>>)
    requires Represents(rest, groups) && NonSpace(text) == NonSpaceAll(group)
    requires texts == (if NonSpace(text) == [] then [] else [text]) + rest
    ensures Represents(texts, [group] + groups)
  {
    assert ([group] + groups)[1..] == groups;
    if NonSpace(text) == [] {
      assert texts == rest;
    } else {
      assert texts[1..] == rest;
    }
  }

  lemma {:induction false} TrimmedRepresent(groups: seq<seq<string>>)
    ensures Represents(TrimmedTexts(groups), groups)
  {
    if groups != [] {
      TrimmedRepresent(groups[1..]);
      JoinKeeps(groups[0], "\n");
      TrimKeeps(Join(groups[0], "\n"));
      RepresentsNext(TrimmedTexts(groups), groups[0], Trim(Join(groups[0], "\n")), TrimmedTexts(groups[1..]), groups[1..]);
      assert [groups[0]] + groups[1..] == groups;
    }
  }

  lemma {:induction false} NonBlankRepresent(groups: seq<seq<string>>)
    ensures Represents(NonBlankTexts(groups), groups)
  {
    if groups != [] {
      NonBlankRepresent(groups[1..]);
      JoinKeeps(groups[0], "\n");
      TrimKeeps(Join(groups[0], "\n"));
      RepresentsNext(NonBlankTexts(groups), groups[0], Join(groups[0], "\n"), NonBlankTexts(groups[1..]), groups[1..]);
      assert [groups[0]] + groups[1..] == groups;
    }
  }

  ghost predicate GroupsFit(groups: seq<seq<string>>, max: int) {
    forall i | 0 <= i < |groups| :: NoBreaks(groups[i]) && AllFit(groups[i], max)
  }

  lemma {:induction false} GroupingFits(lines: seq<string>, level: nat, max: int)
    requires NoBreaks(lines) && AllFit(lines, max)
    ensures GroupsFit(SectionGroups(lines, level), max) && GroupsFit(ParagraphGroups(lines), max)
  {
    if lines != [] {
      GroupingFits(lines[..|lines| - 1], level, max);
    }
  }

  ghost predicate AllLinesFit(texts: seq<string>, max: int) {
    forall i | 0 <= i < |texts| :: LinesFit(texts[i], max)
  }

  lemma {:induction false} TextsFit(groups: seq<seq<string>>, max: int)
    requires GroupsFit(groups, max)
    ensures AllLinesFit(TrimmedTexts(groups), max) && AllLinesFit(NonBlankTexts(groups), max)
  {
    if groups != [] {
      var text := Join(groups[0], "\n");
      TextsFit(groups[1..], max);
      if groups[0] != [] {
        LinesOfJoin(groups[0]);
        TrimStartFits(text, max);
        TrimEndFits(TrimStart(text), max);
      }
    }
  }

  /** Pieces of a text: all of its characters but white space, none of them blank, no longer line. */
  ghost predicate Divides(pieces: seq<string>, text: string) {
    && NonSpaceAll(pieces) == NonSpace(text)
    && (forall i | 0 <= i < |pieces| :: NonSpace(pieces[i]) != [])
    && forall max | LinesFit(text, max) :: AllLinesFit(pieces, max)
  }

  lemma SectionsDivide(text: string, level: nat)
    ensures Divides(Sections(text, level), text)
  {
    var groups := SectionGroups(Lines(text), level);
    TrimmedRepresent(groups);
    SectionGroupsKeep(Lines(text), level);
    LinesKeep(text);
    LinesHaveNoBreaks(text);
    forall max | LinesFit(text, max) ensures AllLinesFit(Sections(text, level), max) {
      GroupingFits(Lines(text), level, max);
      TextsFit(groups, max);
    }
  }

  lemma ParagraphsDivide(text: string)
    ensures Divides(Paragraphs(text), text)
  {
    var groups := ParagraphGroups(Lines(text));
    NonBlankRepresent(groups);
    ParagraphGroupsKeep(Lines(text));
    LinesKeep(text);
    LinesHaveNoBreaks(text);
    forall max | LinesFit(text, max) ensures AllLinesFit(Paragraphs(text), max) {
      GroupingFits(Lines(text), 0, max);
      TextsFit(groups, max);
    }
  }

  /** Each of several pieces has less text than the whole: splitting comes to an end. */
  lemma PiecesAreSmaller(pieces: seq<string>, text: string)
    requires Divides(pieces, text) && |pieces| > 1
    ensures forall i | 0 <= i < |pieces| :: |NonSpace(pieces[i])| < |NonSpace(text)|
  {
    forall i | 0 <= i < |pieces| ensures |NonSpace(pieces[i])| < |NonSpace(text)| {
      var other := if i == 0 then 1 else 0;
      assert NonSpace(pieces[other]) != [];
      NonSpaceIn(pieces, i);
    }
  }

  // ---- packing -----------------------------------------------------------------------------------

  datatype Packing = Packing(out: seq<string>, current: string) {
    function Finished(): seq<string> {
      if current == [] then out else out + [current]
    }
  }

  /** Take one more piece: behind the current one if both fit together, else on its own. */
  function Pack(packing: Packing, piece: string, max: int, joiner: string): Packing {
    var next := if packing.current == [] then piece else packing.current + joiner + piece;
    if Bytes(next) <= max then packing.(current := next) else Packing(packing.Finished(), piece)
  }

  function PackAll(pieces: seq<string>, max: int, joiner: string): Packing {
    if pieces == [] then Packing([], [])
    else Pack(PackAll(pieces[..|pieces| - 1], max, joiner), pieces[|pieces| - 1], max, joiner)
  }

  function Packed(pieces: seq<string>, max: int, joiner: string): seq<string> {
    PackAll(pieces, max, joiner).Finished()
  }

  method PackPieces(pieces: seq<string>, max: int, joiner: string) returns (out: seq<string>)
    ensures out == Packed(pieces, max, joiner)
  {
    out := [];
    var current := [];
    for i := 0 to |pieces|
      invariant Packing(out, current) == PackAll(pieces[..i], max, joiner)
    {
      assert pieces[..i + 1][..i] == pieces[..i];
      var next := if current == [] then pieces[i] else current + joiner + pieces[i];
      if Bytes(next) <= max {
        current := next;
      } else {
        if current != [] {
          out := out + [current];
        }
        current := pieces[i];
      }
    }
    assert pieces[..|pieces|] == pieces;
    if current != [] {
      out := out + [current];
    }
  }

  /** Pieces that fit are packed into pieces that fit. */
  lemma {:induction false} PackedFits(pieces: seq<string>, max: int, joiner: string)
    requires AllFit(pieces, max)
    ensures AllFit(PackAll(pieces, max, joiner).Finished(), max)
  {
    if pieces != [] {
      PackedFits(pieces[..|pieces| - 1], max, joiner);
    }
  }

  /** Packing loses nothing but the white space between pieces. */
  lemma {:induction false} PackedKeeps(pieces: seq<string>, max: int, joiner: string)
    requires NonSpace(joiner) == []
    ensures NonSpaceAll(PackAll(pieces, max, joiner).Finished()) == NonSpaceAll(pieces)
  {
    if pieces != [] {
      var before, piece := PackAll(pieces[..|pieces| - 1], max, joiner), pieces[|pieces| - 1];
      PackedKeeps(pieces[..|pieces| - 1], max, joiner);
      NonSpaceAllLast(pieces);
      PackKeeps(before, piece, max, joiner);
    }
  }

  lemma PackKeeps(packing: Packing, piece: string, max: int, joiner: string)
    requires NonSpace(joiner) == []
    ensures NonSpaceAll(Pack(packing, piece, max, joiner).Finished())
         == NonSpaceAll(packing.Finished()) + NonSpace(piece)
  {
    var packed := Pack(packing, piece, max, joiner);
    FinishedKeeps(packing);
    FinishedKeeps(packed);
    if packed.out == packing.out && packing.current != [] {
      var kept := NonSpaceAll(packing.out);
      JoinedKeeps(packing.current, joiner, piece);
      if packed.current == packing.current + joiner + piece {
        Associates(kept, NonSpace(packing.current), NonSpace(piece));
      }
    }
  }

  lemma JoinedKeeps(a: string, joiner: string, b: string)
    requires NonSpace(joiner) == []
    ensures NonSpace(a + joiner + b) == NonSpace(a) + NonSpace(b)
  {
    NonSpaceAdd(a + joiner, b);
    NonSpaceAdd(a, joiner);
  }

  lemma FinishedKeeps(packing: Packing)
    ensures NonSpaceAll(packing.Finished()) == NonSpaceAll(packing.out) + NonSpace(packing.current)
  {
    NonSpaceAllAdd(packing.out, [packing.current]);
    assert NonSpaceAll([packing.current]) == NonSpace(packing.current);
  }

  ghost predicate Tight(pieces: seq<string>, max: int, joiner: string) {
    forall i | 0 <= i < |pieces| - 1 :: Bytes(pieces[i]) + Bytes(joiner) + Bytes(pieces[i + 1]) > max
  }

  ghost predicate TightPacking(packing: Packing, max: int, joiner: string) {
    && Tight(packing.out, max, joiner)
    && (packing.out != [] ==>
          Bytes(packing.out[|packing.out| - 1]) + Bytes(joiner) + Bytes(packing.current) > max)
  }

  lemma PackIsTight(packing: Packing, piece: string, max: int, joiner: string)
    requires TightPacking(packing, max, joiner)
    ensures TightPacking(Pack(packing, piece, max, joiner), max, joiner)
  {
    BytesAdd(packing.current + joiner, piece);
    BytesAdd(packing.current, joiner);
  }

  /** No two neighbours among the packed pieces would have fitted together. */
  lemma PackedIsTight(pieces: seq<string>, max: int, joiner: string)
    ensures Tight(Packed(pieces, max, joiner), max, joiner)
  {
    PackAllIsTight(pieces, max, joiner);
  }

  lemma {:induction false} PackAllIsTight(pieces: seq<string>, max: int, joiner: string)
    ensures TightPacking(PackAll(pieces, max, joiner), max, joiner)
  {
    if pieces != [] {
      PackAllIsTight(pieces[..|pieces| - 1], max, joiner);
      PackIsTight(PackAll(pieces[..|pieces| - 1], max, joiner), pieces[|pieces| - 1], max, joiner);
    }
  }

  lemma PackParagraphsKeeps(pieces: seq<string>, max: int)
    requires AllFit(pieces, max)
    ensures AllFit(Packed(pieces, max, "\n\n"), max)
    ensures NonSpaceAll(Packed(pieces, max, "\n\n")) == NonSpaceAll(pieces)
  {
    PackedFits(pieces, max, "\n\n");
    PackedKeeps(pieces, max, "\n\n");
  }

  // ---- splitting -----------------------------------------------------------------------------------

  datatype SplitError = LineTooLong(max: int)

  /** The sections at the first level of headings, from 2 to 4, that there are several of. */
  function HeadingSplit(text: string): seq<string> {
    if |Sections(text, 2)| > 1 then Sections(text, 2)
    else if |Sections(text, 3)| > 1 then Sections(text, 3)
    else Sections(text, 4)
  }

  lemma HeadingSplitDivides(text: string)
    ensures Divides(HeadingSplit(text), text)
  {
    SectionsDivide(text, 2);
    SectionsDivide(text, 3);
    SectionsDivide(text, 4);
  }

  predicate SomeTooLong(lines: seq<string>, max: int) {
    exists i | 0 <= i < |lines| :: Bytes(lines[i]) > max
  }

  /** The last resort: lines, unless one of them is too long. */
  function PackLines(text: string, max: int): (pieces: Result<seq<string>, SplitError>)
    ensures pieces.Success? ==> AllFit(pieces.value, max) && NonSpaceAll(pieces.value) == NonSpace(text)
    ensures LinesFit(text, max) <==> pieces.Success?
  {
    var lines := Lines(text);
    if SomeTooLong(lines, max) then Failure(LineTooLong(max))
    else
      LinesKeep(text);
      PackedFits(lines, max, "\n");
      PackedKeeps(lines, max, "\n");
      Success(Packed(lines, max, "\n"))
  }

  /** `splitToFit`: without an error every piece fits and no character but white space is lost;
      with lines that fit there is no error. */
  function SplitToFit(text: string, max: int): (pieces: Result<seq<string>, SplitError>)
    ensures pieces.Success? ==> AllFit(pieces.value, max) && NonSpaceAll(pieces.value) == NonSpace(text)
    ensures LinesFit(text, max) ==> pieces.Success?
    decreases |NonSpace(text)|, 1, 0
  {
    HeadingSplitDivides(text);
    ParagraphsDivide(text);
    if Bytes(text) <= max then
      assert NonSpaceAll([text]) == NonSpace(text);
      Success([text])
    else if |HeadingSplit(text)| > 1 then
      PiecesAreSmaller(HeadingSplit(text), text);
      SplitEach(HeadingSplit(text), max, |NonSpace(text)|)
    else if |Paragraphs(text)| > 1 then
      PiecesAreSmaller(Paragraphs(text), text);
      var pieces :- SplitEach(Paragraphs(text), max, |NonSpace(text)|);
      PackParagraphsKeeps(pieces, max);
      Success(Packed(pieces, max, "\n\n"))
    else PackLines(text, max)
  }

  /** The pieces of each text in turn; the first error is the result. */
  function SplitEach(texts: seq<string>, max: int, ghost bound: nat): (pieces: Result<seq<string>, SplitError>)
    requires forall i | 0 <= i < |texts| :: |NonSpace(texts[i])| < bound
    ensures pieces.Success? ==> AllFit(pieces.value, max) && NonSpaceAll(pieces.value) == NonSpaceAll(texts)
    ensures AllLinesFit(texts, max) ==> pieces.Success?
    decreases bound, 0, |texts|
  {
    if texts == [] then Success([]) else
      var first :- SplitToFit(texts[0], max);
      var rest :- SplitEach(texts[1..], max, bound);
      NonSpaceAllAdd(first, rest);
      Success(first + rest)
  }
}
