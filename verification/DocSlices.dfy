// Where a document is cut (scripts/gen-llms.ts): what is split off are stretches of the text itself, in
// order, with white space between them at most.
module DocSlices {
  import opened Prelude
  import opened DocText
  import opened DocSplitter

  predicate Blank(text: string) {
    forall i | 0 <= i < |text| :: IsSpace(text[i])
  }

  /** These stand in the text one behind the other, and there is white space at most before, between and
      behind them. */
  ghost predicate Sliced(slices: seq<string>, text: string) {
    if slices == [] then Blank(text)
    else exists i: nat :: SliceAt(slices[0], text, i) && Sliced(slices[1..], text[i + |slices[0]|..])
  }

  predicate SliceAt(slice: string, text: string, i: nat) {
    i + |slice| <= |text| && Blank(text[..i]) && text[i..i + |slice|] == slice
  }

  lemma BlankJoined(a: string, b: string)
    requires Blank(a) && Blank(b)
    ensures Blank(a + b)
  {
  }

  lemma SlicedFirst(slice: string, rest: seq<string>, gap: string, text: string)
    requires Blank(gap) && Sliced(rest, text)
    ensures Sliced([slice] + rest, gap + slice + text)
  {
    var whole, all := [slice] + rest, gap + slice + text;
    assert whole[1..] == rest && all[|gap| + |slice|..] == text && all[..|gap|] == gap;
    assert SliceAt(whole[0], all, |gap|);
  }

  /** Where the first slice stands, and what is left behind it. */
  lemma SlicedSplit(slices: seq<string>, text: string) returns (gap: string, rest: string)
    requires slices != [] && Sliced(slices, text)
    ensures text == gap + slices[0] + rest && Blank(gap) && Sliced(slices[1..], rest)
    ensures [slices[0]] + slices[1..] == slices
  {
    var i: nat :| SliceAt(slices[0], text, i) && Sliced(slices[1..], text[i + |slices[0]|..]);
    gap, rest := text[..i], text[i + |slices[0]|..];
  }

  lemma {:induction false} SlicedThenBlank(slices: seq<string>, text: string, behind: string)
    requires Sliced(slices, text) && Blank(behind)
    ensures Sliced(slices, text + behind)
  {
    if slices != [] {
      var gap, rest := SlicedSplit(slices, text);
      SlicedThenBlank(slices[1..], rest, behind);
      SlicedFirst(slices[0], slices[1..], gap, rest + behind);
      Associates(gap + slices[0], rest, behind);
    }
  }

  lemma BlankThenSliced(before: string, slices: seq<string>, text: string)
    requires Blank(before) && Sliced(slices, text)
    ensures Sliced(slices, before + text)
  {
    if slices == [] {
      BlankJoined(before, text);
    } else {
      var gap, rest := SlicedSplit(slices, text);
      BlankJoined(before, gap);
      SlicedFirst(slices[0], slices[1..], before + gap, rest);
      Associates(before, gap, slices[0]);
      Associates(before, gap + slices[0], rest);
    }
  }

  lemma SlicedPads(slices: seq<string>, before: string, text: string, behind: string)
    requires Blank(before) && Sliced(slices, text) && Blank(behind)
    ensures Sliced(slices, before + text + behind)
  {
    BlankThenSliced(before, slices, text);
    SlicedThenBlank(slices, before + text, behind);
  }

  lemma {:induction false} SlicedJoined(a: seq<string>, x: string, b: seq<string>, y: string)
    requires Sliced(a, x) && Sliced(b, y)
    ensures Sliced(a + b, x + y)
  {
    if a == [] {
      BlankThenSliced(x, b, y);
      assert a + b == b;
    } else {
      var gap, rest := SlicedSplit(a, x);
      SlicedJoined(a[1..], rest, b, y);
      SlicedFirst(a[0], a[1..] + b, gap, rest + y);
      Associates([a[0]], a[1..], b);
      Associates(gap + a[0], rest, y);
    }
  }

  lemma SlicedWhole(text: string)
    ensures Sliced([text], text)
  {
    assert Sliced([], []);
    SlicedFirst(text, [], [], []);
    assert [text] + [] == [text] && [] + text + [] == text;
  }

  function Flatten<T>(lists: seq<seq<T>>): seq<T> {
    if lists == [] then [] else lists[0] + Flatten(lists[1..])
  }

  /** Slices of slices are slices. */
  lemma {:induction false} SlicedAgain(slices: seq<string>, text: string, pieces: seq<seq<string>>)
    requires Sliced(slices, text) && |pieces| == |slices|
    requires forall i | 0 <= i < |slices| :: Sliced(pieces[i], slices[i])
    ensures Sliced(Flatten(pieces), text)
  {
    if slices != [] {
      var gap, rest := SlicedSplit(slices, text);
      SlicedAgain(slices[1..], rest, pieces[1..]);
      SlicedJoined(pieces[0], slices[0], Flatten(pieces[1..]), rest);
      BlankThenSliced(gap, Flatten(pieces), slices[0] + rest);
      Associates(gap, slices[0], rest);
    }
  }

  lemma {:induction false} BlankHasNothing(text: string)
    ensures Blank(text) <==> NonSpace(text) == []
  {
    if text != [] {
      BlankHasNothing(text[1..]);
      if NonSpace(text) == [] {
        assert forall i | 0 < i < |text| :: text[i] == text[1..][i - 1];
      }
    }
  }

  // ---- trimming and lines -----------------------------------------------------------------------

  lemma {:induction false} TrimStartSlices(text: string) returns (i: nat)
    ensures i <= |text| && Blank(text[..i]) && TrimStart(text) == text[i..] && (i < |text| ==> !IsSpace(text[i]))
  {
    if text != [] && IsSpace(text[0]) {
      i := TrimStartSlices(text[1..]);
      assert text[..i + 1] == [text[0]] + text[1..][..i] && text[i + 1..] == text[1..][i..];
      i := i + 1;
    } else {
      i := 0;
    }
  }

  lemma {:induction false} TrimEndSlices(text: string) returns (j: nat)
    ensures j <= |text| && Blank(text[j..]) && TrimEnd(text) == text[..j] && (j > 0 ==> !IsSpace(text[j - 1]))
  {
    if text != [] && IsSpace(text[|text| - 1]) {
      var init := text[..|text| - 1];
      j := TrimEndSlices(init);
      assert text[j..] == init[j..] + [text[|text| - 1]] && text[..j] == init[..j];
    } else {
      j := |text|;
    }
  }

  lemma TrimParts(text: string) returns (before: string, behind: string)
    ensures Blank(before) && Blank(behind) && text == before + Trim(text) + behind
    ensures Trim(text) != [] ==> !IsSpace(Trim(text)[0]) && !IsSpace(Trim(text)[|Trim(text)| - 1])
  {
    var i := TrimStartSlices(text);
    var started := text[i..];
    var j := TrimEndSlices(started);
    before, behind := text[..i], started[j..];
    assert Trim(text) == started[..j];
    assert j > 0 ==> started[0] == text[i];
  }

  /** Trimming takes the white space off both ends and nothing else. */
  lemma TrimSlices(text: string)
    ensures if Trim(text) == [] then Blank(text)
            else Sliced([Trim(text)], text) && !IsSpace(Trim(text)[0]) && !IsSpace(Trim(text)[|Trim(text)| - 1])
  {
    var before, behind := TrimParts(text);
    if Trim(text) == [] {
      BlankJoined(before, behind);
      assert before + [] + behind == before + behind;
    } else {
      SlicedWhole(Trim(text));
      SlicedPads([Trim(text)], before, Trim(text), behind);
    }
  }

  /** Taking a text apart into lines and joining them again gives the text. */
  lemma {:induction false} JoinOfLines(text: string)
    ensures Join(Lines(text), "\n") == text
  {
    if text != [] {
      var rest, lines := Lines(text[1..]), Lines(text);
      JoinOfLines(text[1..]);
      if text[0] == '\n' {
        assert lines[1..] == rest;
      } else {
        assert lines[1..] == rest[1..];
        if |rest| > 1 {
          assert [text[0]] + rest[0] + "\n" + Join(rest[1..], "\n") == [text[0]] + (rest[0] + "\n" + Join(rest[1..], "\n"));
        }
      }
    }
  }

  // ---- sections and paragraphs --------------------------------------------------------------------

  /** The text is what its finished groups are slices of, and the last group behind it. */
  ghost predicate Grouped(groups: seq<seq<string>>, text: string)
    requires groups != []
  {
    var done, last := groups[..|groups| - 1], groups[|groups| - 1];
    exists before :: Sliced(NonBlankTexts(done), before) && text == before + Join(last, "\n")
  }

  lemma GroupedAs(groups: seq<seq<string>>, before: string, text: string)
    requires groups != [] && Sliced(NonBlankTexts(groups[..|groups| - 1]), before)
    requires text == before + Join(groups[|groups| - 1], "\n")
    ensures Grouped(groups, text)
  {
  }

  lemma {:induction false} NonBlankAppend(groups: seq<seq<string>>, group: seq<string>)
    ensures NonBlankTexts(groups + [group])
         == NonBlankTexts(groups) + if Trim(Join(group, "\n")) == [] then [] else [Join(group, "\n")]
  {
    var all := groups + [group];
    if groups == [] {
      assert all[1..] == [];
    } else {
      NonBlankAppend(groups[1..], group);
      assert all[1..] == groups[1..] + [group];
    }
  }

  /** With its last group finished, the whole text is sliced. */
  lemma GroupedIsSliced(groups: seq<seq<string>>, text: string)
    requires groups != [] && Grouped(groups, text)
    ensures Sliced(NonBlankTexts(groups), text)
  {
    var done, last := groups[..|groups| - 1], Join(groups[|groups| - 1], "\n");
    var before :| Sliced(NonBlankTexts(done), before) && text == before + last;
    NonBlankAppend(done, groups[|groups| - 1]);
    assert done + [groups[|groups| - 1]] == groups;
    TrimSlices(last);
    if Trim(last) == [] {
      SlicedThenBlank(NonBlankTexts(done), before, last);
      assert NonBlankTexts(done) + [] == NonBlankTexts(done);
    } else {
      SlicedWhole(last);
      SlicedJoined(NonBlankTexts(done), before, [last], last);
    }
  }

  /** What stands between a text so far and its next line. */
  function Break(lines: seq<string>): string {
    if lines == [] then "" else "\n"
  }

  lemma {:induction false} JoinNext(lines: seq<string>, line: string)
    ensures Join(lines + [line], "\n") == Join(lines, "\n") + Break(lines) + line
  {
    if lines == [] {
      assert [] + [line] == [line];
    } else {
      JoinAppends(lines, "\n", line);
    }
  }

  lemma GroupedTurns(groups: seq<seq<string>>, text: string, gap: string)
    requires groups != [] && Grouped(groups, text) && Blank(gap)
    ensures Grouped(groups + [[]], text + gap)
  {
    GroupedIsSliced(groups, text);
    SlicedThenBlank(NonBlankTexts(groups), text, gap);
    var all := groups + [[]];
    assert all[..|all| - 1] == groups && text + gap + [] == text + gap;
    GroupedAs(all, text + gap, text + gap);
  }

  lemma GroupedSplit(groups: seq<seq<string>>, text: string) returns (before: string)
    requires groups != [] && Grouped(groups, text)
    ensures Sliced(NonBlankTexts(groups[..|groups| - 1]), before)
    ensures text == before + Join(groups[|groups| - 1], "\n")
  {
    before :| Sliced(NonBlankTexts(groups[..|groups| - 1]), before) && text == before + Join(groups[|groups| - 1], "\n");
  }

  /** A line goes to the last group, after what stands between it and the lines before. */
  lemma GroupedGrows(groups: seq<seq<string>>, lines: seq<string>, text: string, line: string)
    requires groups != [] && Grouped(groups, text) && (groups[|groups| - 1] != [] ==> lines != [])
    ensures Grouped(AddToLast(groups, line), text + Break(lines) + line)
  {
    var done, last, added := groups[..|groups| - 1], groups[|groups| - 1], AddToLast(groups, line);
    var before := GroupedSplit(groups, text);
    assert added[..|added| - 1] == done && added[|added| - 1] == last + [line];
    JoinNext(last, line);
    if last == [] {
      SlicedThenBlank(NonBlankTexts(done), before, Break(lines));
      assert Join(last, "\n") + Break(last) + line == line && text == before;
      GroupedAs(added, before + Break(lines), text + Break(lines) + line);
    } else {
      Associates(Join(last, "\n"), "\n", line);
      Associates(before, Join(last, "\n"), "\n" + line);
      Associates(text, "\n", line);
      GroupedAs(added, before, text + Break(lines) + line);
    }
  }

  /** A line goes to a new group. */
  lemma GroupedBegins(groups: seq<seq<string>>, lines: seq<string>, text: string, line: string)
    requires groups != [] && Grouped(groups, text)
    ensures Grouped(AddToLast(groups + [[]], line), text + Break(lines) + line)
  {
    GroupedTurns(groups, text, Break(lines));
    GroupedGrows(groups + [[]], [], text + Break(lines), line);
    assert text + Break(lines) + Break([]) + line == text + Break(lines) + line;
  }

  lemma {:induction false} SectionsGrouped(lines: seq<string>, level: nat)
    ensures Grouped(SectionGroups(lines, level), Join(lines, "\n"))
    ensures lines == [] ==> SectionGroups(lines, level) == [[]]
  {
    if lines == [] {
      NothingGrouped();
    } else {
      var init, line := lines[..|lines| - 1], lines[|lines| - 1];
      SectionsGrouped(init, level);
      JoinNext(init, line);
      assert init + [line] == lines;
      if !Fenced(lines) && IsHeading(line, level) {
        GroupedBegins(SectionGroups(init, level), init, Join(init, "\n"), line);
      } else {
        GroupedGrows(SectionGroups(init, level), init, Join(init, "\n"), line);
      }
    }
  }

  lemma NothingGrouped()
    ensures Grouped([[]], Join([], "\n"))
  {
    var groups: seq<seq<string>> := [[]];
    assert groups[..0] == [] && NonBlankTexts([]) == [] && Sliced([], []);
    GroupedAs(groups, [], []);
  }

  /** A blank line ends a group. */
  lemma GroupedEnds(groups: seq<seq<string>>, lines: seq<string>, text: string, line: string)
    requires groups != [] && Grouped(groups, text) && Trim(line) == []
    ensures Grouped(groups + [[]], text + Break(lines) + line)
  {
    TrimSlices(line);
    BlankJoined(Break(lines), line);
    GroupedTurns(groups, text, Break(lines) + line);
    Associates(text, Break(lines), line);
  }

  lemma {:induction false} ParagraphsGrouped(lines: seq<string>)
    ensures Grouped(ParagraphGroups(lines), Join(lines, "\n"))
    ensures lines == [] ==> ParagraphGroups(lines) == [[]]
  {
    if lines == [] {
      NothingGrouped();
    } else {
      var init, line := lines[..|lines| - 1], lines[|lines| - 1];
      ParagraphsGrouped(init);
      JoinNext(init, line);
      assert init + [line] == lines;
      if !Fenced(lines) && Trim(line) == [] {
        GroupedEnds(ParagraphGroups(init), init, Join(init, "\n"), line);
      } else {
        GroupedGrows(ParagraphGroups(init), init, Join(init, "\n"), line);
      }
    }
  }

  /** Paragraphs are stretches of the text, in order, with white space between them. */
  lemma ParagraphsAreSlices(text: string)
    ensures Sliced(Paragraphs(text), text)
  {
    ParagraphsGrouped(Lines(text));
    JoinOfLines(text);
    GroupedIsSliced(ParagraphGroups(Lines(text)), text);
  }

  function TrimmedEach(texts: seq<string>): seq<string> {
    if texts == [] then [] else [Trim(texts[0])] + TrimmedEach(texts[1..])
  }

  lemma {:induction false} TrimmedOfNonBlank(groups: seq<seq<string>>)
    ensures TrimmedTexts(groups) == TrimmedEach(NonBlankTexts(groups))
    ensures forall text | text in NonBlankTexts(groups) :: Trim(text) != []
  {
    if groups != [] {
      var first, rest := Join(groups[0], "\n"), NonBlankTexts(groups[1..]);
      TrimmedOfNonBlank(groups[1..]);
      if Trim(first) == [] {
        assert [] + rest == rest && [] + TrimmedTexts(groups[1..]) == TrimmedTexts(groups[1..]);
      } else {
        assert ([first] + rest)[1..] == rest;
      }
    }
  }

  lemma {:induction false} TrimmedAreSlices(slices: seq<string>, text: string)
    requires Sliced(slices, text) && forall slice | slice in slices :: Trim(slice) != []
    ensures Sliced(TrimmedEach(slices), text)
  {
    if slices != [] {
      var gap, rest := SlicedSplit(slices, text);
      TrimmedAreSlices(slices[1..], rest);
      TrimSlices(slices[0]);
      BlankThenSliced(gap, [Trim(slices[0])], slices[0]);
      SlicedJoined([Trim(slices[0])], gap + slices[0], TrimmedEach(slices[1..]), rest);
    }
  }

  /** And so are sections. */
  lemma SectionsAreSlices(text: string, level: nat)
    ensures Sliced(Sections(text, level), text)
  {
    SectionsGrouped(Lines(text), level);
    JoinOfLines(text);
    GroupedIsSliced(SectionGroups(Lines(text), level), text);
    TrimmedOfNonBlank(SectionGroups(Lines(text), level));
    TrimmedAreSlices(NonBlankTexts(SectionGroups(Lines(text), level)), text);
  }
}
