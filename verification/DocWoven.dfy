// What the pieces of a document are made of (scripts/gen-llms.ts): stretches of the text in order, put
// together by blank lines.
module DocWoven {
  import opened Prelude
  import opened DocText
  import opened DocSplitter
  import opened DocSlices

  /** Each piece is some stretches, joined; all of them are slices of the text. */
  ghost predicate WovenAs(pieces: seq<string>, stretches: seq<seq<string>>, text: string) {
    Joined(pieces, stretches) && Sliced(Flatten(stretches), text)
  }

  ghost predicate Joined(pieces: seq<string>, stretches: seq<seq<string>>) {
    && |pieces| == |stretches|
    && forall i | 0 <= i < |pieces| :: stretches[i] != [] && pieces[i] == Join(stretches[i], "\n\n")
  }

  ghost predicate Woven(pieces: seq<string>, text: string) {
    exists stretches :: WovenAs(pieces, stretches, text)
  }

  lemma {:induction false} FlattenJoined<T>(a: seq<seq<T>>, b: seq<seq<T>>)
    ensures Flatten(a + b) == Flatten(a) + Flatten(b)
  {
    if a == [] {
      assert a + b == b;
    } else {
      FlattenJoined(a[1..], b);
      assert (a + b)[1..] == a[1..] + b;
      Associates(a[0], Flatten(a[1..]), Flatten(b));
    }
  }

  lemma FlattenOne<T>(a: seq<T>)
    ensures Flatten([a]) == a
  {
    assert [a][1..] == [];
  }

  lemma JoinedBoth(a: seq<string>, s: seq<seq<string>>, b: seq<string>, t: seq<seq<string>>)
    requires Joined(a, s) && Joined(b, t)
    ensures Joined(a + b, s + t)
  {
  }

  lemma WovenJoined(a: seq<string>, x: string, b: seq<string>, y: string)
    requires Woven(a, x) && Woven(b, y)
    ensures Woven(a + b, x + y)
  {
    var s :| WovenAs(a, s, x);
    var t :| WovenAs(b, t, y);
    FlattenJoined(s, t);
    SlicedJoined(Flatten(s), x, Flatten(t), y);
    JoinedBoth(a, s, b, t);
    assert WovenAs(a + b, s + t, x + y);
  }

  lemma BlankThenWoven(gap: string, pieces: seq<string>, text: string)
    requires Blank(gap) && Woven(pieces, text)
    ensures Woven(pieces, gap + text)
  {
    var s :| WovenAs(pieces, s, text);
    BlankThenSliced(gap, Flatten(s), text);
    assert WovenAs(pieces, s, gap + text);
  }

  /** Slices are woven of themselves. */
  lemma {:induction false} SlicedIsWoven(pieces: seq<string>, text: string)
    requires Sliced(pieces, text)
    ensures Woven(pieces, text)
  {
    if pieces == [] {
      assert WovenAs([], [], text);
    } else {
      var gap, rest := SlicedSplit(pieces, text);
      SlicedIsWoven(pieces[1..], rest);
      WholeIsWoven(pieces[0]);
      WovenJoined([pieces[0]], pieces[0], pieces[1..], rest);
      BlankThenWoven(gap, pieces, pieces[0] + rest);
      Associates(gap, pieces[0], rest);
    }
  }

  lemma WholeIsWoven(text: string)
    ensures Woven([text], text)
  {
    SlicedWhole(text);
    FlattenOne([text]);
    assert WovenAs([text], [[text]], text);
  }

  // ---- packing ------------------------------------------------------------------------------------

  lemma {:induction false} JoinBoth(a: seq<string>, b: seq<string>, joiner: string)
    requires a != [] && b != []
    ensures Join(a + b, joiner) == Join(a, joiner) + joiner + Join(b, joiner)
  {
    if |a| == 1 {
      assert (a + b)[1..] == b;
    } else {
      JoinBoth(a[1..], b, joiner);
      assert (a + b)[1..] == a[1..] + b;
      Associates(a[0] + joiner, Join(a[1..], joiner) + joiner, Join(b, joiner));
      Associates(a[0] + joiner, Join(a[1..], joiner), joiner);
      Associates(a[0] + joiner + Join(a[1..], joiner), joiner, Join(b, joiner));
    }
  }

  /** What a packing holds of these stretches. */
  ghost predicate Holds(packing: Packing, bundles: seq<seq<string>>, last: seq<string>) {
    && Joined(packing.out, bundles)
    && (packing.current == [] <==> last == [])
    && (last != [] ==> packing.current == Join(last, "\n\n"))
  }

  lemma HoldsMore(packing: Packing, bundles: seq<seq<string>>, last: seq<string>, piece: string,
                  stretch: seq<string>, max: int)
      returns (bundles': seq<seq<string>>, last': seq<string>)
    requires Holds(packing, bundles, last) && stretch != [] && piece != [] && piece == Join(stretch, "\n\n")
    ensures Holds(Pack(packing, piece, max, "\n\n"), bundles', last')
    ensures Flatten(bundles') + last' == Flatten(bundles) + last + stretch
  {
    if last == [] {
      bundles', last' := bundles, stretch;
      assert Flatten(bundles) + [] == Flatten(bundles);
    } else if Bytes(packing.current + "\n\n" + piece) <= max {
      bundles', last' := bundles, last + stretch;
      JoinBoth(last, stretch, "\n\n");
      Associates(Flatten(bundles), last, stretch);
    } else {
      bundles', last' := bundles + [last], stretch;
      FlattenJoined(bundles, [last]);
      FlattenOne(last);
    }
  }

  lemma {:induction false} PackAllHolds(pieces: seq<string>, stretches: seq<seq<string>>, max: int)
      returns (bundles: seq<seq<string>>, last: seq<string>)
    requires Joined(pieces, stretches) && forall piece | piece in pieces :: piece != []
    ensures Holds(PackAll(pieces, max, "\n\n"), bundles, last)
    ensures Flatten(bundles) + last == Flatten(stretches)
  {
    if pieces == [] {
      bundles, last := [], [];
    } else {
      var init, rest := pieces[..|pieces| - 1], stretches[..|pieces| - 1];
      var piece, stretch := pieces[|pieces| - 1], stretches[|pieces| - 1];
      assert forall early | early in init :: early in pieces;
      assert piece in pieces;
      bundles, last := PackAllHolds(init, rest, max);
      bundles, last := HoldsMore(PackAll(init, max, "\n\n"), bundles, last, piece, stretch, max);
      assert stretches == rest + [stretch];
      FlattenJoined(rest, [stretch]);
      FlattenOne(stretch);
    }
  }

  /** Packing joins neighbours by blank lines and drops nothing. */
  lemma PackedIsWoven(pieces: seq<string>, text: string, max: int)
    requires Woven(pieces, text) && forall piece | piece in pieces :: piece != []
    ensures Woven(Packed(pieces, max, "\n\n"), text)
  {
    var stretches :| WovenAs(pieces, stretches, text);
    var bundles, last := PackAllHolds(pieces, stretches, max);
    var packing := PackAll(pieces, max, "\n\n");
    if packing.current == [] {
      assert Flatten(bundles) + [] == Flatten(bundles);
      assert WovenAs(packing.Finished(), bundles, text);
    } else {
      FlattenJoined(bundles, [last]);
      FlattenOne(last);
      assert WovenAs(packing.Finished(), bundles + [last], text);
    }
  }

  // ---- lines ----------------------------------------------------------------------------------------

  /** The finished pieces are slices of the lines so far, and the current one stands behind them. */
  ghost predicate LinesHeld(packing: Packing, text: string) {
    exists before :: Sliced(packing.out, before) && text == before + packing.current
  }

  lemma LinesHeldAs(packing: Packing, before: string, text: string)
    requires Sliced(packing.out, before) && text == before + packing.current
    ensures LinesHeld(packing, text)
  {
  }

  lemma LinesHeldMore(packing: Packing, lines: seq<string>, text: string, line: string, max: int)
    requires LinesHeld(packing, text) && (packing.current != [] ==> lines != [])
    ensures LinesHeld(Pack(packing, line, max, "\n"), text + Break(lines) + line)
  {
    var before :| Sliced(packing.out, before) && text == before + packing.current;
    var packed := Pack(packing, line, max, "\n");
    if packing.current == [] {
      assert before + [] == before;
      SlicedThenBlank(packing.out, before, Break(lines));
      LinesHeldAs(packed, text + Break(lines), text + Break(lines) + line);
    } else if packed.out == packing.out {
      Associates(before, packing.current, "\n");
      Associates(before, packing.current + "\n", line);
      LinesHeldAs(packed, before, text + Break(lines) + line);
    } else {
      SlicedWhole(packing.current);
      SlicedJoined(packing.out, before, [packing.current], packing.current);
      SlicedThenBlank(packed.out, text, "\n");
      LinesHeldAs(packed, text + "\n", text + Break(lines) + line);
    }
  }

  lemma NothingHeld(max: int)
    ensures LinesHeld(PackAll([], max, "\n"), Join([], "\n"))
  {
    assert Sliced([], []);
    LinesHeldAs(Packing([], []), [], []);
  }

  lemma {:induction false} PackAllLinesHeld(lines: seq<string>, max: int)
    ensures LinesHeld(PackAll(lines, max, "\n"), Join(lines, "\n"))
  {
    if lines == [] {
      NothingHeld(max);
    } else {
      var init, line := lines[..|lines| - 1], lines[|lines| - 1];
      var before := PackAll(init, max, "\n");
      PackAllLinesHeld(init, max);
      assert before.current != [] ==> init != [];
      LinesHeldMore(before, init, Join(init, "\n"), line, max);
      assert Join(lines, "\n") == Join(init, "\n") + Break(init) + line by {
        JoinNext(init, line);
        assert init + [line] == lines;
      }
    }
  }

  /** Lines are packed into stretches of the text. */
  lemma LinesAreSlices(text: string, max: int)
    ensures Sliced(Packed(Lines(text), max, "\n"), text)
  {
    PackAllLinesHeld(Lines(text), max);
    JoinOfLines(text);
    HeldIsSliced(PackAll(Lines(text), max, "\n"), text);
  }

  lemma HeldIsSliced(packing: Packing, text: string)
    requires LinesHeld(packing, text)
    ensures Sliced(packing.Finished(), text)
  {
    var before :| Sliced(packing.out, before) && text == before + packing.current;
    if packing.current == [] {
      assert before + [] == before;
    } else {
      SlicedWhole(packing.current);
      SlicedJoined(packing.out, before, [packing.current], packing.current);
    }
  }

  lemma {:induction false} PackedNotEmpty(pieces: seq<string>, max: int, joiner: string)
    ensures forall piece | piece in PackAll(pieces, max, joiner).out :: piece != []
    ensures forall piece | piece in Packed(pieces, max, joiner) :: piece != []
  {
    if pieces != [] {
      PackedNotEmpty(pieces[..|pieces| - 1], max, joiner);
    }
  }

  // ---- splitting --------------------------------------------------------------------------------------

  ghost predicate NoneEmpty(pieces: seq<string>) {
    forall piece | piece in pieces :: piece != []
  }

  lemma HeadingSplitIsSliced(text: string)
    ensures Sliced(HeadingSplit(text), text)
  {
    SectionsAreSlices(text, 2);
    SectionsAreSlices(text, 3);
    SectionsAreSlices(text, 4);
  }

  lemma DividedNotEmpty(pieces: seq<string>, text: string)
    requires Divides(pieces, text)
    ensures NoneEmpty(pieces)
  {
    forall piece | piece in pieces ensures piece != [] {
      var i :| 0 <= i < |pieces| && pieces[i] == piece;
      assert NonSpace(pieces[i]) != [];
    }
  }

  /** The pieces a text is split into are made of stretches of it, in order: but for white space nothing is
      added, dropped, repeated or exchanged, and inside a stretch not even white space. */
  lemma {:induction false} SplitIsWoven(text: string, max: int)
    requires SplitToFit(text, max).Success?
    ensures Woven(SplitToFit(text, max).value, text)
    ensures text != [] ==> NoneEmpty(SplitToFit(text, max).value)
    decreases |NonSpace(text)|, 1, 0
  {
    HeadingSplitDivides(text);
    ParagraphsDivide(text);
    if Bytes(text) <= max {
      WholeIsWoven(text);
    } else if |HeadingSplit(text)| > 1 {
      PiecesAreSmaller(HeadingSplit(text), text);
      DividedNotEmpty(HeadingSplit(text), text);
      HeadingSplitIsSliced(text);
      EachIsWoven(HeadingSplit(text), text, max, |NonSpace(text)|);
    } else if |Paragraphs(text)| > 1 {
      PiecesAreSmaller(Paragraphs(text), text);
      DividedNotEmpty(Paragraphs(text), text);
      ParagraphsAreSlices(text);
      EachIsWoven(Paragraphs(text), text, max, |NonSpace(text)|);
      PackedIsWoven(SplitEach(Paragraphs(text), max, |NonSpace(text)|).value, text, max);
      PackedNotEmpty(SplitEach(Paragraphs(text), max, |NonSpace(text)|).value, max, "\n\n");
    } else {
      LinesAreSlices(text, max);
      SlicedIsWoven(Packed(Lines(text), max, "\n"), text);
      PackedNotEmpty(Lines(text), max, "\n");
    }
  }

  lemma WovenBehind(gap: string, a: seq<string>, x: string, b: seq<string>, y: string)
    requires Blank(gap) && Woven(a, x) && Woven(b, y)
    ensures Woven(a + b, gap + x + y)
    ensures NoneEmpty(a) && NoneEmpty(b) ==> NoneEmpty(a + b)
  {
    WovenJoined(a, x, b, y);
    BlankThenWoven(gap, a + b, x + y);
    Associates(gap, x, y);
  }

  lemma EachInParts(texts: seq<string>, max: int, bound: nat)
    requires forall i | 0 <= i < |texts| :: |NonSpace(texts[i])| < bound
    requires texts != [] && SplitEach(texts, max, bound).Success?
    ensures SplitToFit(texts[0], max).Success? && SplitEach(texts[1..], max, bound).Success?
    ensures SplitEach(texts, max, bound).value == SplitToFit(texts[0], max).value + SplitEach(texts[1..], max, bound).value
  {
  }

  lemma RestOfTexts(texts: seq<string>, bound: nat)
    requires texts != [] && NoneEmpty(texts) && forall i | 0 <= i < |texts| :: |NonSpace(texts[i])| < bound
    ensures texts[0] != [] && |NonSpace(texts[0])| < bound && NoneEmpty(texts[1..])
    ensures forall i | 0 <= i < |texts[1..]| :: |NonSpace(texts[1..][i])| < bound
  {
    assert texts[0] in texts && forall piece | piece in texts[1..] :: piece in texts;
    assert forall i | 0 <= i < |texts[1..]| :: texts[1..][i] == texts[i + 1];
  }

  lemma {:induction false} EachIsWoven(texts: seq<string>, whole: string, max: int, bound: nat)
    requires forall i | 0 <= i < |texts| :: |NonSpace(texts[i])| < bound
    requires Sliced(texts, whole) && NoneEmpty(texts) && SplitEach(texts, max, bound).Success?
    ensures Woven(SplitEach(texts, max, bound).value, whole) && NoneEmpty(SplitEach(texts, max, bound).value)
    decreases bound, 0, |texts|
  {
    if texts == [] {
      SlicedIsWoven([], whole);
    } else {
      RestOfTexts(texts, bound);
      EachInParts(texts, max, bound);
      var gap, rest := SlicedSplit(texts, whole);
      SplitIsWoven(texts[0], max);
      EachIsWoven(texts[1..], rest, max, bound);
      WovenBehind(gap, SplitToFit(texts[0], max).value, texts[0], SplitEach(texts[1..], max, bound).value, rest);
    }
  }

  // ---- at the coarsest boundary -------------------------------------------------------------------------

  /** These are what splitting each text gives. */
  ghost predicate EachSplit(texts: seq<string>, max: int, parts: seq<seq<string>>) {
    |parts| == |texts| && forall i | 0 <= i < |texts| :: SplitToFit(texts[i], max) == Success(parts[i])
  }

  lemma EachSplitNext(texts: seq<string>, max: int, first: seq<string>, rest: seq<seq<string>>)
    requires texts != [] && SplitToFit(texts[0], max) == Success(first) && EachSplit(texts[1..], max, rest)
    ensures EachSplit(texts, max, [first] + rest)
    ensures Flatten([first] + rest) == first + Flatten(rest)
  {
    var parts := [first] + rest;
    assert parts[1..] == rest;
    forall i | 0 <= i < |texts| ensures SplitToFit(texts[i], max) == Success(parts[i]) {
      if i > 0 {
        assert texts[i] == texts[1..][i - 1] && parts[i] == rest[i - 1];
      }
    }
  }

  lemma TextsBehind(texts: seq<string>, bound: nat)
    requires texts != [] && forall i | 0 <= i < |texts| :: |NonSpace(texts[i])| < bound
    ensures forall i | 0 <= i < |texts[1..]| :: |NonSpace(texts[1..][i])| < bound
  {
    assert forall i | 0 <= i < |texts[1..]| :: texts[1..][i] == texts[i + 1];
  }

  lemma {:induction false} EachInTurn(texts: seq<string>, max: int, bound: nat) returns (parts: seq<seq<string>>)
    requires forall i | 0 <= i < |texts| :: |NonSpace(texts[i])| < bound
    requires SplitEach(texts, max, bound).Success?
    ensures EachSplit(texts, max, parts) && SplitEach(texts, max, bound).value == Flatten(parts)
  {
    if texts == [] {
      parts := [];
    } else {
      EachInParts(texts, max, bound);
      TextsBehind(texts, bound);
      var first := SplitToFit(texts[0], max).value;
      var rest := EachInTurn(texts[1..], max, bound);
      EachSplitNext(texts, max, first, rest);
      parts := [first] + rest;
    }
  }

  /** A text that fits is not cut. One that does not is cut at the headings of the lowest level there are
      several sections of, and no piece holds text of two sections. */
  lemma SectionsComeFirst(text: string, max: int)
    requires SplitToFit(text, max).Success?
    ensures Bytes(text) <= max ==> SplitToFit(text, max).value == [text]
    ensures Bytes(text) > max && |HeadingSplit(text)| > 1 ==>
              exists parts :: EachSplit(HeadingSplit(text), max, parts) && SplitToFit(text, max).value == Flatten(parts)
  {
    if Bytes(text) > max && |HeadingSplit(text)| > 1 {
      HeadingSplitDivides(text);
      PiecesAreSmaller(HeadingSplit(text), text);
      var parts := EachInTurn(HeadingSplit(text), max, |NonSpace(text)|);
    }
  }

  /** Where headings do not help it is cut at paragraphs, and only where these do not help either at lines;
      then neighbours are put together again that fit together. */
  lemma ParagraphsComeNext(text: string, max: int)
    requires SplitToFit(text, max).Success? && Bytes(text) > max && |HeadingSplit(text)| <= 1
    ensures if |Paragraphs(text)| > 1 then
              exists parts :: EachSplit(Paragraphs(text), max, parts)
                              && SplitToFit(text, max).value == Packed(Flatten(parts), max, "\n\n")
            else SplitToFit(text, max).value == Packed(Lines(text), max, "\n")
  {
    if |Paragraphs(text)| > 1 {
      ParagraphsDivide(text);
      PiecesAreSmaller(Paragraphs(text), text);
      var parts := EachInTurn(Paragraphs(text), max, |NonSpace(text)|);
    }
  }
}
