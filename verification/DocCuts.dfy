// Which lines of a document it is cut at, and what the pieces are made of (scripts/gen-llms.ts).
module DocCuts {
  import opened Prelude
  import opened DocText
  import opened DocSplitter
  import opened DocSlices

  // ---- fences and headings ------------------------------------------------------------------------

  ghost predicate FenceLine(line: string) {
    exists k: nat :: FenceMark(line, k)
  }

  predicate FenceMark(line: string, k: nat) {
    k + 3 <= |line| && Blank(line[..k]) && (line[k..k + 3] == "```" || line[k..k + 3] == "~~~")
  }

  lemma FencesAreMarked(line: string)
    ensures IsFence(line) <==> FenceLine(line)
  {
    var i := TrimStartSlices(line);
    if IsFence(line) {
      assert line[i..][..3] == line[i..i + 3];
      assert FenceMark(line, i);
    }
    if k: nat :| FenceMark(line, k) {
      assert !IsSpace(line[k..k + 3][0]);
      assert line[k] == line[k..k + 3][0];
      assert forall j | 0 <= j < i :: line[..i][j] == line[j];
      assert forall j | 0 <= j < k :: line[..k][j] == line[j];
      assert line[i..][..3] == line[i..i + 3];
    }
  }

  function Hashes(level: nat): (hashes: string)
    ensures |hashes| == level && forall i | 0 <= i < level :: hashes[i] == '#'
  {
    seq(level, _ => '#')
  }

  lemma HeadingsBegin(line: string, level: nat)
    ensures IsHeading(line, level) <==> Hashes(level) + " " <= line
  {
    var start := Hashes(level) + " ";
    if IsHeading(line, level) {
      assert forall i | 0 <= i < |start| :: start[i] == line[i];
    }
    if start <= line {
      assert forall i | 0 <= i < |start| :: start[i] == line[i];
    }
  }

  function FenceCount(lines: seq<string>): nat {
    if lines == [] then 0
    else FenceCount(lines[..|lines| - 1]) + if IsFence(lines[|lines| - 1]) then 1 else 0
  }

  lemma {:induction false} FencedIsOdd(lines: seq<string>)
    ensures Fenced(lines) <==> FenceCount(lines) % 2 == 1
  {
    if lines != [] {
      FencedIsOdd(lines[..|lines| - 1]);
    }
  }

  /** An odd number of fence lines up to here, this one included. */
  predicate InFence(lines: seq<string>, i: nat)
    requires i < |lines|
  {
    FenceCount(lines[..i + 1]) % 2 == 1
  }

  predicate HeadingAt(lines: seq<string>, level: nat, i: nat)
    requires i < |lines|
  {
    !InFence(lines, i) && IsHeading(lines[i], level)
  }

  predicate BlankAt(lines: seq<string>, i: nat)
    requires i < |lines|
  {
    !InFence(lines, i) && Blank(lines[i])
  }

  // ---- where groups begin --------------------------------------------------------------------------

  /** The line a group begins at, when `gap` lines are dropped between two groups. */
  function Start(groups: seq<seq<string>>, gap: nat, g: nat): nat
    requires g < |groups|
  {
    if g == 0 then 0 else Start(groups, gap, g - 1) + |groups[g - 1]| + gap
  }

  /** The groups hold the lines one behind the other. */
  ghost predicate Placed(groups: seq<seq<string>>, gap: nat, lines: seq<string>) {
    && groups != []
    && Start(groups, gap, |groups| - 1) + |groups[|groups| - 1]| == |lines|
    && (forall g, k | 0 <= g < |groups| && 0 <= k < |groups[g]| :: LineAt(groups, gap, lines, g, k))
  }

  predicate LineAt(groups: seq<seq<string>>, gap: nat, lines: seq<string>, g: nat, k: nat)
    requires g < |groups| && k < |groups[g]|
  {
    Start(groups, gap, g) + k < |lines| && groups[g][k] == lines[Start(groups, gap, g) + k]
  }

  lemma {:induction false} StartsStay(groups: seq<seq<string>>, longer: seq<seq<string>>, gap: nat, g: nat)
    requires g < |groups| <= |longer| && groups[..g] == longer[..g]
    ensures Start(longer, gap, g) == Start(groups, gap, g)
  {
    if g > 0 {
      assert groups[..g - 1] == groups[..g][..g - 1] == longer[..g][..g - 1] == longer[..g - 1];
      assert groups[g - 1] == groups[..g][g - 1] == longer[..g][g - 1] == longer[g - 1];
      StartsStay(groups, longer, gap, g - 1);
    }
  }

  lemma StartsGrow(groups: seq<seq<string>>, line: string, gap: nat, g: nat)
    requires g < |groups|
    ensures Start(AddToLast(groups, line), gap, g) == Start(groups, gap, g)
  {
    StartsStay(groups, AddToLast(groups, line), gap, g);
  }

  lemma StartsTurn(groups: seq<seq<string>>, gap: nat, g: nat)
    requires g < |groups|
    ensures Start(groups + [[]], gap, g) == Start(groups, gap, g)
    ensures Start(groups + [[]], gap, |groups|) == Start(groups, gap, |groups| - 1) + |groups[|groups| - 1]| + gap
  {
    StartsStay(groups, groups + [[]], gap, g);
    StartsStay(groups, groups + [[]], gap, |groups| - 1);
  }

  /** Sections: a group begins at each heading of the level outside a fence, and at no other line. */
  ghost predicate CutAtHeadings(groups: seq<seq<string>>, lines: seq<string>, level: nat) {
    && Placed(groups, 0, lines)
    && (forall g | 0 < g < |groups| :: groups[g] != [])
    && (forall g, k | 0 <= g < |groups| && 0 <= k < |groups[g]| && LineAt(groups, 0, lines, g, k) ::
          HeadingAt(lines, level, Start(groups, 0, g) + k) <==> g > 0 && k == 0)
  }

  /** Paragraphs: the lines between two groups are the blank ones outside a fence. */
  ghost predicate CutAtBlanks(groups: seq<seq<string>>, lines: seq<string>) {
    && Placed(groups, 1, lines)
    && (forall g, k | 0 <= g < |groups| && 0 <= k < |groups[g]| && LineAt(groups, 1, lines, g, k) ::
          !BlankAt(lines, Start(groups, 1, g) + k))
    && (forall g | 0 <= g < |groups| - 1 :: DroppedBehind(groups, lines, g))
  }

  predicate DroppedBehind(groups: seq<seq<string>>, lines: seq<string>, g: nat)
    requires g < |groups|
  {
    var i := Start(groups, 1, g) + |groups[g]|;
    i < |lines| && BlankAt(lines, i)
  }

  lemma SameCuts(init: seq<string>, lines: seq<string>, i: nat)
    requires i < |init| && init <= lines
    ensures InFence(lines, i) == InFence(init, i) && lines[i] == init[i]
  {
    assert lines[..i + 1] == init[..i + 1];
  }

  lemma {:induction false} SectionsAreCut(lines: seq<string>, level: nat)
    ensures CutAtHeadings(SectionGroups(lines, level), lines, level)
  {
    if lines != [] {
      var init, line := lines[..|lines| - 1], lines[|lines| - 1];
      SectionsAreCut(init, level);
      FencedIsOdd(lines);
      assert lines[..|lines|] == lines;
      assert !Fenced(lines) && IsHeading(line, level) <==> HeadingAt(lines, level, |lines| - 1);
      if HeadingAt(lines, level, |lines| - 1) {
        SectionBegins(SectionGroups(init, level), init, lines, level);
      } else {
        SectionGrows(SectionGroups(init, level), init, lines, level);
      }
    }
  }

  /** The lines that were placed stay where they are. */
  lemma PlacesStay(groups: seq<seq<string>>, gap: nat, init: seq<string>, after: seq<seq<string>>, lines: seq<string>,
                   g: nat, k: nat)
    requires Placed(groups, gap, init) && init <= lines && g < |groups| <= |after| && k < |groups[g]|
    requires groups[..g] == after[..g] && groups[g] <= after[g]
    ensures LineAt(groups, gap, init, g, k) && LineAt(after, gap, lines, g, k)
    ensures Start(after, gap, g) == Start(groups, gap, g)
    ensures InFence(lines, Start(after, gap, g) + k) == InFence(init, Start(groups, gap, g) + k)
  {
    StartsStay(groups, after, gap, g);
    assert LineAt(groups, gap, init, g, k);
    SameCuts(init, lines, Start(groups, gap, g) + k);
  }

  /** A line more in the last group. */
  lemma PlacedGrows(groups: seq<seq<string>>, gap: nat, init: seq<string>, lines: seq<string>)
    requires lines != [] && init == lines[..|lines| - 1] && Placed(groups, gap, init)
    ensures Placed(AddToLast(groups, lines[|lines| - 1]), gap, lines)
  {
    var after, last := AddToLast(groups, lines[|lines| - 1]), |groups| - 1;
    StartsGrow(groups, lines[|lines| - 1], gap, last);
    forall g, k | 0 <= g < |after| && 0 <= k < |after[g]| ensures LineAt(after, gap, lines, g, k) {
      if g < last || k < |groups[last]| {
        PlacesStay(groups, gap, init, after, lines, g, k);
      }
    }
  }

  lemma SameHeading(init: seq<string>, lines: seq<string>, level: nat, i: nat)
    requires i < |init| && init <= lines
    ensures HeadingAt(lines, level, i) == HeadingAt(init, level, i)
  {
    SameCuts(init, lines, i);
  }

  /** This line is where it should be: a heading first in its group, and any other line behind it. */
  predicate HeadsGroup(after: seq<seq<string>>, lines: seq<string>, level: nat, g: nat, k: nat)
    requires g < |after| && k < |after[g]|
  {
    LineAt(after, 0, lines, g, k) && (HeadingAt(lines, level, Start(after, 0, g) + k) <==> g > 0 && k == 0)
  }

  lemma HeadStays(groups: seq<seq<string>>, init: seq<string>, after: seq<seq<string>>, lines: seq<string>, level: nat,
                  g: nat, k: nat)
    requires CutAtHeadings(groups, init, level) && init <= lines && g < |groups| <= |after| && k < |groups[g]|
    requires groups[..g] == after[..g] && groups[g] <= after[g]
    ensures HeadsGroup(after, lines, level, g, k)
  {
    PlacesStay(groups, 0, init, after, lines, g, k);
    var i := Start(groups, 0, g) + k;
    SameHeading(init, lines, level, i);
    assert HeadingAt(init, level, i) <==> g > 0 && k == 0;
  }

  lemma SectionGrows(groups: seq<seq<string>>, init: seq<string>, lines: seq<string>, level: nat)
    requires lines != [] && init == lines[..|lines| - 1] && CutAtHeadings(groups, init, level)
    requires !HeadingAt(lines, level, |lines| - 1)
    ensures CutAtHeadings(AddToLast(groups, lines[|lines| - 1]), lines, level)
  {
    var after, last := AddToLast(groups, lines[|lines| - 1]), |groups| - 1;
    PlacedGrows(groups, 0, init, lines);
    StartsGrow(groups, lines[|lines| - 1], 0, last);
    assert Start(after, 0, last) + |groups[last]| == |lines| - 1;
    forall g, k | 0 <= g < |after| && 0 <= k < |after[g]| && LineAt(after, 0, lines, g, k)
      ensures HeadingAt(lines, level, Start(after, 0, g) + k) <==> g > 0 && k == 0
    {
      if g < last || k < |groups[last]| {
        HeadStays(groups, init, after, lines, level, g, k);
      }
    }
  }

  /** A line in a group of its own. */
  lemma SectionBegins(groups: seq<seq<string>>, init: seq<string>, lines: seq<string>, level: nat)
    requires lines != [] && init == lines[..|lines| - 1] && CutAtHeadings(groups, init, level)
    requires HeadingAt(lines, level, |lines| - 1)
    ensures CutAtHeadings(AddToLast(groups + [[]], lines[|lines| - 1]), lines, level)
  {
    var line := lines[|lines| - 1];
    var after := AddToLast(groups + [[]], line);
    StartsTurn(groups, 0, 0);
    StartsGrow(groups + [[]], line, 0, |groups|);
    forall g, k | 0 <= g < |after| && 0 <= k < |after[g]|
      ensures LineAt(after, 0, lines, g, k)
      ensures HeadingAt(lines, level, Start(after, 0, g) + k) <==> g > 0 && k == 0
    {
      if g < |groups| {
        HeadStays(groups, init, after, lines, level, g, k);
      }
    }
  }

  // ---- paragraphs ----------------------------------------------------------------------------------

  lemma {:induction false} ParagraphsAreCut(lines: seq<string>)
    ensures CutAtBlanks(ParagraphGroups(lines), lines)
  {
    if lines != [] {
      var init, line := lines[..|lines| - 1], lines[|lines| - 1];
      ParagraphsAreCut(init);
      FencedIsOdd(lines);
      TrimKeeps(line);
      BlankHasNothing(line);
      assert lines[..|lines|] == lines;
      if BlankAt(lines, |lines| - 1) {
        ParagraphEnds(ParagraphGroups(init), init, lines);
      } else {
        ParagraphGrows(ParagraphGroups(init), init, lines);
      }
    }
  }

  lemma DroppedStay(groups: seq<seq<string>>, init: seq<string>, after: seq<seq<string>>, lines: seq<string>, g: nat)
    requires g < |groups| <= |after| && DroppedBehind(groups, init, g) && init <= lines
    requires groups[..g] == after[..g] && groups[g] == after[g]
    ensures DroppedBehind(after, lines, g)
  {
    StartsStay(groups, after, 1, g);
    SameCuts(init, lines, Start(groups, 1, g) + |groups[g]|);
  }

  lemma ParagraphGrows(groups: seq<seq<string>>, init: seq<string>, lines: seq<string>)
    requires lines != [] && init == lines[..|lines| - 1] && CutAtBlanks(groups, init)
    requires !BlankAt(lines, |lines| - 1)
    ensures CutAtBlanks(AddToLast(groups, lines[|lines| - 1]), lines)
  {
    var after, last := AddToLast(groups, lines[|lines| - 1]), |groups| - 1;
    PlacedGrows(groups, 1, init, lines);
    StartsGrow(groups, lines[|lines| - 1], 1, last);
    forall g, k | 0 <= g < |after| && 0 <= k < |after[g]| && LineAt(after, 1, lines, g, k)
      ensures !BlankAt(lines, Start(after, 1, g) + k)
    {
      if g < last || k < |groups[last]| {
        PlacesStay(groups, 1, init, after, lines, g, k);
      }
    }
    forall g | 0 <= g < last ensures DroppedBehind(after, lines, g) {
      assert DroppedBehind(groups, init, g);
      DroppedStay(groups, init, after, lines, g);
    }
  }

  /** A blank line outside a fence ends a group and is in none. */
  lemma ParagraphEnds(groups: seq<seq<string>>, init: seq<string>, lines: seq<string>)
    requires lines != [] && init == lines[..|lines| - 1] && CutAtBlanks(groups, init)
    requires BlankAt(lines, |lines| - 1)
    ensures CutAtBlanks(groups + [[]], lines)
  {
    var after, last := groups + [[]], |groups| - 1;
    StartsTurn(groups, 1, last);
    forall g, k | 0 <= g < |after| && 0 <= k < |after[g]|
      ensures LineAt(after, 1, lines, g, k) && !BlankAt(lines, Start(after, 1, g) + k)
    {
      PlacesStay(groups, 1, init, after, lines, g, k);
    }
    forall g | 0 <= g < |groups| ensures DroppedBehind(after, lines, g) {
      if g < last {
        assert DroppedBehind(groups, init, g);
        DroppedStay(groups, init, after, lines, g);
      }
    }
  }

  // ---- the coarsest level ---------------------------------------------------------------------------

  /** Headings split a text at the lowest level, of those from 2 to 4, that there are several sections of, and
      not at all when there is none. */
  lemma LowestLevelSplits(text: string)
    ensures |Sections(text, 2)| > 1 ==> HeadingSplit(text) == Sections(text, 2)
    ensures |Sections(text, 2)| <= 1 && |Sections(text, 3)| > 1 ==> HeadingSplit(text) == Sections(text, 3)
    ensures |Sections(text, 2)| <= 1 && |Sections(text, 3)| <= 1 && |Sections(text, 4)| > 1 ==>
              HeadingSplit(text) == Sections(text, 4)
    ensures |Sections(text, 2)| <= 1 && |Sections(text, 3)| <= 1 && |Sections(text, 4)| <= 1 ==> |HeadingSplit(text)| <= 1
  {
  }
}
