// Packing labelled units of documentation into bodies of bounded size (scripts/gen-llms.ts), with
// a banner above the text of each source and again above what continues it in a later body.
module SlicePacker {
  import opened Prelude
  import opened DocText
  import opened DocSplitter

  datatype Unit = Unit(source: string, text: string)

  datatype Part = Part(body: string, sources: seq<string>)

  function Rule(): (rule: string)
    ensures |rule| == 78
  {
    seq(78, _ => '=')
  }

  function BannerTop(source: string): string {
    Rule() + "\n# " + source
  }

  function Mark(continued: bool): string {
    if continued then "  (continued)" else ""
  }

  function Banner(source: string, continued: bool): string {
    BannerTop(source) + Mark(continued) + ("\n" + Rule())
  }

  /** A banner tells its source, and of a source whether it continues. */
  lemma BannerTells(a: string, b: string, continued: bool)
    ensures Banner(a, continued) == Banner(b, continued) ==> a == b
    ensures Banner(a, true) != Banner(a, false)
  {
    var head := |Rule()| + 3;
    assert |Banner(a, true)| > |Banner(a, false)|;
    assert Banner(a, continued)[head..head + |a|] == a;
    if Banner(a, continued) == Banner(b, continued) {
      assert |a| == |b|;
      assert Banner(b, continued)[head..head + |b|] == b;
    }
  }

  /** The room a source leaves for text in a body: a banner and two blank lines are set aside. */
  function Room(source: string, budget: int): int {
    budget - Bytes(Banner(source, true)) - 4
  }

  function PiecesOf(source: string, texts: seq<string>): (pieces: seq<Unit>)
    ensures |pieces| == |texts|
    ensures forall i | 0 <= i < |texts| :: pieces[i] == Unit(source, texts[i])
  {
    seq(|texts|, i requires 0 <= i < |texts| => Unit(source, texts[i]))
  }

  /** Every unit split to the room its source leaves, in order. */
  function SplitUnits(units: seq<Unit>, budget: int): (pieces: Result<seq<Unit>, SplitError>)
    ensures pieces.Success? ==> forall i | 0 <= i < |pieces.value| ::
              Bytes(pieces.value[i].text) <= Room(pieces.value[i].source, budget)
  {
    if units == [] then Success([]) else
      var unit := units[0];
      var texts :- SplitToFit(unit.text, Room(unit.source, budget));
      var rest :- SplitUnits(units[1..], budget);
      Success(PiecesOf(unit.source, texts) + rest)
  }

  /** The texts of one source, in order. */
  function TextsOf(units: seq<Unit>, source: string): seq<string> {
    if units == [] then []
    else (if units[0].source == source then [units[0].text] else []) + TextsOf(units[1..], source)
  }

  lemma {:induction false} TextsOfAdd(a: seq<Unit>, b: seq<Unit>, source: string)
    ensures TextsOf(a + b, source) == TextsOf(a, source) + TextsOf(b, source)
  {
    if a == [] {
      assert a + b == b;
    } else {
      TextsOfAdd(a[1..], b, source);
      assert (a + b)[1..] == a[1..] + b;
      Associates(if a[0].source == source then [a[0].text] else [], TextsOf(a[1..], source), TextsOf(b, source));
    }
  }

  lemma {:induction false} TextsOfPieces(source: string, texts: seq<string>, other: string)
    ensures TextsOf(PiecesOf(source, texts), other) == if source == other then texts else []
  {
    if texts != [] {
      TextsOfPieces(source, texts[1..], other);
      assert PiecesOf(source, texts)[1..] == PiecesOf(source, texts[1..]);
      assert texts == [texts[0]] + texts[1..];
    }
  }

  /** Source by source the pieces keep the text of the units, but for white space. */
  lemma {:induction false} PiecesKeepSources(units: seq<Unit>, budget: int, source: string)
    requires SplitUnits(units, budget).Success?
    ensures NonSpaceAll(TextsOf(SplitUnits(units, budget).value, source)) == NonSpaceAll(TextsOf(units, source))
  {
    if units != [] {
      var unit := units[0];
      var texts := SplitToFit(unit.text, Room(unit.source, budget)).value;
      var rest := SplitUnits(units[1..], budget).value;
      PiecesKeepSources(units[1..], budget, source);
      TextsOfAdd(PiecesOf(unit.source, texts), rest, source);
      TextsOfPieces(unit.source, texts, source);
      NonSpaceAllAdd(if unit.source == source then texts else [], TextsOf(rest, source));
      NonSpaceAllAdd(if unit.source == source then [unit.text] else [], TextsOf(units[1..], source));
      assert NonSpaceAll([unit.text]) == NonSpace(unit.text);
    }
  }

  // ---- what a body is made of ------------------------------------------------------------------

  /** The texts of one source under one banner. */
  datatype Block = Block(source: string, continued: bool, texts: seq<string>)

  function RenderBlock(block: Block): string {
    Banner(block.source, block.continued) + "\n\n" + Join(block.texts, "\n\n")
  }

  function Render(blocks: seq<Block>): string {
    if blocks == [] then []
    else if |blocks| == 1 then RenderBlock(blocks[0])
    else Render(blocks[..|blocks| - 1]) + "\n\n" + RenderBlock(blocks[|blocks| - 1])
  }

  function Sources(blocks: seq<Block>): (sources: seq<string>)
    ensures |sources| == |blocks|
    ensures forall i | 0 <= i < |blocks| :: sources[i] == blocks[i].source
  {
    seq(|blocks|, i requires 0 <= i < |blocks| => blocks[i].source)
  }

  function PiecesIn(blocks: seq<Block>): seq<Unit> {
    if blocks == [] then []
    else PiecesIn(blocks[..|blocks| - 1]) + PiecesOf(blocks[|blocks| - 1].source, blocks[|blocks| - 1].texts)
  }

  function Flat(bodies: seq<seq<Block>>): seq<Block> {
    if bodies == [] then [] else Flat(bodies[..|bodies| - 1]) + bodies[|bodies| - 1]
  }

  /** A banner says "continued" exactly when its source has been shown before. */
  ghost predicate BannersTrue(blocks: seq<Block>) {
    forall i | 0 <= i < |blocks| ::
      blocks[i].continued <==> exists j :: 0 <= j < i && blocks[j].source == blocks[i].source
  }

  /** No banner is empty, and none repeats the one right above it. */
  ghost predicate BannersNeeded(blocks: seq<Block>) {
    && (forall i | 0 <= i < |blocks| :: blocks[i].texts != [])
    && (forall i | 0 < i < |blocks| :: blocks[i - 1].source != blocks[i].source)
  }

  /** The parts are these bodies, each in its bound, with its sources listed. */
  ghost predicate Shows(parts: seq<Part>, bodies: seq<seq<Block>>, budget: int) {
    && |parts| == |bodies|
    && forall i | 0 <= i < |parts| ::
         && bodies[i] != []
         && BannersNeeded(bodies[i])
         && parts[i] == Part(Render(bodies[i]), Sources(bodies[i]))
         && Bytes(parts[i].body) <= budget
  }

  /** A part opens with the banner of its first source. */
  lemma {:induction false} OpensWithBanner(blocks: seq<Block>)
    requires blocks != []
    ensures Banner(blocks[0].source, blocks[0].continued) <= Render(blocks)
  {
    if |blocks| > 1 {
      OpensWithBanner(blocks[..|blocks| - 1]);
    }
  }

  // ---- one more piece -------------------------------------------------------------------------------

  function AddText(blocks: seq<Block>, text: string): seq<Block>
    requires blocks != []
  {
    var last := blocks[|blocks| - 1];
    blocks[..|blocks| - 1] + [Block(last.source, last.continued, last.texts + [text])]
  }

  lemma BlockGrows(block: Block, text: string)
    requires block.texts != []
    ensures RenderBlock(Block(block.source, block.continued, block.texts + [text])) == RenderBlock(block) + "\n\n" + text
  {
    JoinAppends(block.texts, "\n\n", text);
    var head, joined, tail := Banner(block.source, block.continued) + "\n\n", Join(block.texts, "\n\n"), "\n\n" + text;
    assert joined + "\n\n" + text == joined + tail;
    Associates(head, joined, tail);
    assert head + joined + "\n\n" + text == head + joined + tail;
  }

  lemma {:induction false} RenderNext(blocks: seq<Block>, block: Block)
    ensures Render(blocks + [block])
         == if blocks == [] then RenderBlock(block) else Render(blocks) + "\n\n" + RenderBlock(block)
  {
    assert (blocks + [block])[..|blocks|] == blocks;
  }

  lemma {:induction false} AddTextRenders(blocks: seq<Block>, text: string)
    requires blocks != [] && blocks[|blocks| - 1].texts != []
    ensures Render(AddText(blocks, text)) == Render(blocks) + "\n\n" + text
    ensures Sources(AddText(blocks, text)) == Sources(blocks)
  {
    var init, last := blocks[..|blocks| - 1], blocks[|blocks| - 1];
    assert blocks == init + [last];
    RenderNext(init, last);
    RenderNext(init, Block(last.source, last.continued, last.texts + [text]));
    BlockGrows(last, text);
    if init != [] {
      GrowsBehind(Render(init) + "\n\n", RenderBlock(last), text);
    }
  }

  lemma GrowsBehind(head: string, block: string, text: string)
    ensures head + (block + "\n\n" + text) == head + block + "\n\n" + text
  {
    Associates(block, "\n\n", text);
    Associates(head, block, "\n\n" + text);
    Associates(head + block, "\n\n", text);
  }

  lemma {:induction false} AddTextPieces(blocks: seq<Block>, text: string)
    requires blocks != []
    ensures PiecesIn(AddText(blocks, text)) == PiecesIn(blocks) + [Unit(blocks[|blocks| - 1].source, text)]
  {
    var last, added := blocks[|blocks| - 1], AddText(blocks, text);
    assert added[..|added| - 1] == blocks[..|blocks| - 1] && added[|added| - 1].texts == last.texts + [text];
    assert PiecesOf(last.source, last.texts + [text]) == PiecesOf(last.source, last.texts) + [Unit(last.source, text)];
  }

  lemma AddBlockRenders(blocks: seq<Block>, source: string, continued: bool, text: string)
    ensures var chunk := Banner(source, continued) + "\n\n" + text;
            var added := blocks + [Block(source, continued, [text])];
            && Render(added) == (if blocks == [] then chunk else Render(blocks) + "\n\n" + chunk)
            && Sources(added) == Sources(blocks) + [source]
  {
    var block := Block(source, continued, [text]);
    var added := blocks + [block];
    assert added[..|added| - 1] == blocks;
    assert RenderBlock(block) == Banner(source, continued) + "\n\n" + text;
  }

  lemma AddBlockPieces(blocks: seq<Block>, piece: Unit, continued: bool)
    ensures PiecesIn(blocks + [Block(piece.source, continued, [piece.text])]) == PiecesIn(blocks) + [piece]
  {
    var added := blocks + [Block(piece.source, continued, [piece.text])];
    assert added[..|added| - 1] == blocks;
    assert PiecesOf(piece.source, [piece.text]) == [piece];
  }

  lemma BytesOfThree(a: string, b: string, c: string)
    ensures Bytes(a + b + c) == Bytes(a) + Bytes(b) + Bytes(c)
  {
    BytesAdd(a + b, c);
    BytesAdd(a, b);
  }

  lemma BannerSize(source: string, continued: bool)
    ensures Bytes(Banner(source, continued)) <= Bytes(Banner(source, true))
  {
    BytesOfThree(BannerTop(source), Mark(continued), "\n" + Rule());
    BytesOfThree(BannerTop(source), Mark(true), "\n" + Rule());
    assert Bytes("") == 0;
  }

  lemma LineBreakBytes()
    ensures Bytes("\n\n") == 2
  {
    assert "\n\n"[1..] == "\n";
  }

  /** A piece and the banner it may need take no more than the budget. */
  lemma ChunkFits(source: string, continued: bool, text: string, budget: int)
    requires Bytes(text) <= Room(source, budget)
    ensures Bytes(Banner(source, continued) + "\n\n" + text) <= budget
  {
    BannerSize(source, continued);
    LineBreakBytes();
    BytesOfThree(Banner(source, continued), "\n\n", text);
  }

  /** A unit is cut exactly when a banner above it, with a blank line on either side, leaves it no room. */
  lemma UnitStaysWhole(source: string, text: string, budget: int)
    ensures Bytes("\n\n" + Banner(source, true) + "\n\n" + text) <= budget <==>
              SplitUnits([Unit(source, text)], budget) == Success([Unit(source, text)])
  {
    var units, room := [Unit(source, text)], Room(source, budget);
    assert SplitUnits(units[1..], budget) == Success([]);
    LineBreakBytes();
    BytesAdd("\n\n", Banner(source, true));
    BytesOfThree("\n\n" + Banner(source, true), "\n\n", text);
    if Bytes(text) <= room {
      assert SplitToFit(text, room) == Success([text]);
      assert PiecesOf(source, [text]) + [] == units;
    }
  }

  lemma FlatAppend(bodies: seq<seq<Block>>, body: seq<Block>)
    ensures Flat(bodies + [body]) == Flat(bodies) + body
  {
    assert (bodies + [body])[..|bodies|] == bodies;
  }

  ghost predicate Seen(blocks: seq<Block>, source: string) {
    exists j :: 0 <= j < |blocks| && blocks[j].source == source
  }

  lemma BannerStaysTrue(blocks: seq<Block>, source: string, continued: bool, text: string)
    requires BannersTrue(blocks) && (continued <==> Seen(blocks, source))
    ensures BannersTrue(blocks + [Block(source, continued, [text])])
  {
    var all := blocks + [Block(source, continued, [text])];
    forall i | 0 <= i < |all|
      ensures all[i].continued <==> exists j :: 0 <= j < i && all[j].source == all[i].source
    {
      if i < |blocks| {
        if j :| 0 <= j < i && all[j].source == all[i].source {
          assert blocks[j].source == blocks[i].source;
        }
        if j :| 0 <= j < i && blocks[j].source == blocks[i].source {
          assert all[j].source == all[i].source;
        }
      } else if j :| 0 <= j < i && blocks[j].source == source {
        assert all[j].source == all[i].source;
      }
    }
  }

  /** What the loop has made of the first pieces: finished bodies and the one being filled. */
  ghost predicate Packs(bodies: seq<seq<Block>>, current: seq<Block>, pieces: seq<Unit>) {
    var all := Flat(bodies) + current;
    BannersTrue(all) && BannersNeeded(current) && PiecesIn(all) == pieces
  }

  lemma AddTextToLast(before: seq<Block>, current: seq<Block>, text: string)
    requires current != []
    ensures AddText(before + current, text) == before + AddText(current, text)
    ensures |AddText(current, text)| == |current|
    ensures forall i | 0 <= i < |current| - 1 :: AddText(current, text)[i] == current[i]
  {
    var all := before + current;
    assert all[..|all| - 1] == before + current[..|current| - 1];
  }

  /** Blocks that differ in their texts alone. */
  ghost predicate SameBanners(a: seq<Block>, b: seq<Block>) {
    |a| == |b| && forall i | 0 <= i < |a| :: a[i].source == b[i].source && a[i].continued == b[i].continued
  }

  lemma SameBannersTrue(a: seq<Block>, b: seq<Block>)
    requires BannersTrue(a) && SameBanners(a, b)
    ensures BannersTrue(b)
    ensures forall source :: Seen(b, source) <==> Seen(a, source)
  {
    SameSourcesSeen(a, b);
    forall i | 0 <= i < |b|
      ensures b[i].continued <==> exists j :: 0 <= j < i && b[j].source == b[i].source
    {
      SameSourcesSeen(a[..i], b[..i]);
      BannerOf(a, i);
      BannerOf(b, i);
    }
  }

  lemma PacksText(bodies: seq<seq<Block>>, current: seq<Block>, pieces: seq<Unit>, text: string)
    requires Packs(bodies, current, pieces) && current != []
    ensures Packs(bodies, AddText(current, text), pieces + [Unit(current[|current| - 1].source, text)])
    ensures forall source ::
              Seen(Flat(bodies) + AddText(current, text), source) <==> Seen(Flat(bodies) + current, source)
  {
    var all := Flat(bodies) + current;
    AddTextToLast(Flat(bodies), current, text);
    AddTextPieces(all, text);
    SameBannersTrue(all, AddText(all, text));
  }

  /** A banner's claim, in terms of what comes before it. */
  lemma BannerOf(blocks: seq<Block>, i: nat)
    requires i < |blocks|
    ensures Seen(blocks[..i], blocks[i].source) <==> exists j :: 0 <= j < i && blocks[j].source == blocks[i].source
  {
    if j :| 0 <= j < i && blocks[j].source == blocks[i].source {
      assert blocks[..i][j].source == blocks[i].source;
    }
  }

  lemma SameSourcesSeen(a: seq<Block>, b: seq<Block>)
    requires |a| == |b| && forall i | 0 <= i < |a| :: a[i].source == b[i].source
    ensures forall source :: Seen(a, source) <==> Seen(b, source)
  {
    forall source ensures Seen(a, source) <==> Seen(b, source) {
      if j :| 0 <= j < |a| && a[j].source == source {
        assert b[j].source == source;
      }
      if j :| 0 <= j < |b| && b[j].source == source {
        assert a[j].source == source;
      }
    }
  }

  lemma SeenNext(blocks: seq<Block>, block: Block)
    ensures forall source :: Seen(blocks + [block], source) <==> Seen(blocks, source) || source == block.source
  {
    var all := blocks + [block];
    forall source ensures Seen(all, source) <==> Seen(blocks, source) || source == block.source {
      if j :| 0 <= j < |blocks| && blocks[j].source == source {
        assert all[j].source == source;
      }
      assert all[|blocks|].source == block.source;
    }
  }

  lemma PacksBlock(bodies: seq<seq<Block>>, current: seq<Block>, pieces: seq<Unit>, piece: Unit, continued: bool)
    requires Packs(bodies, current, pieces) && (continued <==> Seen(Flat(bodies) + current, piece.source))
    requires current != [] ==> current[|current| - 1].source != piece.source
    ensures var block := Block(piece.source, continued, [piece.text]);
            && Packs(bodies, current + [block], pieces + [piece])
            && (forall source :: Seen(Flat(bodies) + (current + [block]), source) <==>
                  Seen(Flat(bodies) + current, source) || source == piece.source)
  {
    var block := Block(piece.source, continued, [piece.text]);
    var all := Flat(bodies) + current;
    var added := current + [block];
    assert Flat(bodies) + added == all + [block];
    AddBlockPieces(all, piece, continued);
    BannerStaysTrue(all, piece.source, continued, piece.text);
    SeenNext(all, block);
    NeededNext(current, block);
  }

  lemma NeededNext(current: seq<Block>, block: Block)
    requires BannersNeeded(current) && block.texts != []
    requires current != [] ==> current[|current| - 1].source != block.source
    ensures BannersNeeded(current + [block])
  {
  }

  /** Finishing a body changes nothing of what it shows. */
  lemma PacksTurn(bodies: seq<seq<Block>>, current: seq<Block>, pieces: seq<Unit>)
    requires Packs(bodies, current, pieces)
    ensures Packs(bodies + [current], [], pieces)
    ensures Flat(bodies + [current]) + [] == Flat(bodies) + current
  {
    FlatAppend(bodies, current);
    assert Flat(bodies + [current]) + [] == Flat(bodies) + current;
  }

  // ---- packUnits ------------------------------------------------------------------------------------

  /** The first piece of the next body would not have fitted into this one, with the banner it would have
      needed there. */
  ghost predicate TurnNeeded(body: seq<Block>, next: seq<Block>, budget: int) {
    body != [] && next != [] && next[0].texts != [] ==>
      var text := next[0].texts[0];
      var chunk := if body[|body| - 1].source == next[0].source then text
                   else Banner(next[0].source, next[0].continued) + "\n\n" + text;
      Bytes(Render(body) + "\n\n" + chunk) > budget
  }

  ghost predicate TurnsNeeded(bodies: seq<seq<Block>>, budget: int) {
    forall i | 0 <= i < |bodies| - 1 :: TurnNeeded(bodies[i], bodies[i + 1], budget)
  }

  /** Bodies that show the pieces in order, each piece under a banner of its own source that says
      truly whether it continues, none over the budget, and none begun without need. */
  ghost predicate Presents(parts: seq<Part>, bodies: seq<seq<Block>>, pieces: seq<Unit>, budget: int) {
    Shows(parts, bodies, budget) && BannersTrue(Flat(bodies)) && PiecesIn(Flat(bodies)) == pieces
    && TurnsNeeded(bodies, budget)
  }

  /** The variables of the packing loop. */
  datatype Filling = Filling(done: seq<Part>, body: string, sources: seq<string>, seen: set<string>)

  predicate SameSource(sources: seq<string>, source: string) {
    sources != [] && sources[|sources| - 1] == source
  }

  /** One more piece: behind the body while it fits, under a banner unless its source is the last. */
  function Fill(f: Filling, piece: Unit, budget: int): Filling {
    var banner := Banner(piece.source, piece.source in f.seen) + "\n\n";
    var same := SameSource(f.sources, piece.source);
    var chunk := if same then piece.text else banner + piece.text;
    var next := if f.body == [] then chunk else f.body + "\n\n" + chunk;
    var seen := f.seen + {piece.source};
    if Bytes(next) <= budget || f.body == [] then
      Filling(f.done, next, if same then f.sources else f.sources + [piece.source], seen)
    else
      Filling(f.done + [Part(f.body, f.sources)], banner + piece.text, [piece.source], seen)
  }

  /** These blocks are what the variables of the loop show of the pieces so far. */
  ghost predicate Filled(f: Filling, bodies: seq<seq<Block>>, current: seq<Block>, pieces: seq<Unit>, budget: int) {
    && Shows(f.done, bodies, budget)
    && Packs(bodies, current, pieces)
    && f.body == Render(current) && f.sources == Sources(current)
    && (current == [] <==> f.body == [])
    && (Bytes(f.body) <= budget || current == [])
    && (forall source :: source in f.seen <==> Seen(Flat(bodies) + current, source))
  }

  lemma FilledText(f: Filling, bodies: seq<seq<Block>>, current: seq<Block>, pieces: seq<Unit>,
      budget: int, piece: Unit)
    requires Filled(f, bodies, current, pieces, budget)
    requires current != [] && current[|current| - 1].source == piece.source
    requires Bytes(f.body + "\n\n" + piece.text) <= budget
    ensures Filled(Filling(f.done, f.body + "\n\n" + piece.text, f.sources, f.seen + {piece.source}), bodies,
                   AddText(current, piece.text), pieces + [piece], budget)
  {
    var all := Flat(bodies) + current;
    AddTextRenders(current, piece.text);
    PacksText(bodies, current, pieces, piece.text);
    assert all[|all| - 1].source == piece.source;
    assert piece == Unit(piece.source, piece.text);
  }

  lemma FilledBlock(f: Filling, bodies: seq<seq<Block>>, current: seq<Block>, pieces: seq<Unit>,
      budget: int, piece: Unit)
    requires Filled(f, bodies, current, pieces, budget)
    requires current != [] ==> current[|current| - 1].source != piece.source
    ensures var continued := piece.source in f.seen;
            var chunk := Banner(piece.source, continued) + "\n\n" + piece.text;
            var next := if f.body == [] then chunk else f.body + "\n\n" + chunk;
            Bytes(next) <= budget ==>
              Filled(Filling(f.done, next, f.sources + [piece.source], f.seen + {piece.source}), bodies,
                     current + [Block(piece.source, continued, [piece.text])], pieces + [piece], budget)
  {
    AddBlockRenders(current, piece.source, piece.source in f.seen, piece.text);
    PacksBlock(bodies, current, pieces, piece, piece.source in f.seen);
  }

  lemma ShowsNext(done: seq<Part>, bodies: seq<seq<Block>>, current: seq<Block>, budget: int)
    requires Shows(done, bodies, budget)
    requires current != [] && BannersNeeded(current) && Bytes(Render(current)) <= budget
    ensures Shows(done + [Part(Render(current), Sources(current))], bodies + [current], budget)
  {
  }

  /** The body is finished, and the next one begins empty. */
  lemma FilledTurn(f: Filling, bodies: seq<seq<Block>>, current: seq<Block>, pieces: seq<Unit>, budget: int)
    requires Filled(f, bodies, current, pieces, budget) && current != []
    ensures Filled(Filling(f.done + [Part(f.body, f.sources)], [], [], f.seen), bodies + [current], [], pieces, budget)
  {
    ShowsNext(f.done, bodies, current, budget);
    PacksTurn(bodies, current, pieces);
    assert Sources([]) == [];
  }

  /** What begins like a body needed to be begun where that did. */
  lemma TurnsGrow(bodies: seq<seq<Block>>, current: seq<Block>, longer: seq<Block>, budget: int)
    requires TurnsNeeded(bodies + [current], budget) && current != [] && longer != []
    requires current[0].texts != [] && longer[0].texts != [] && longer[0].texts[0] == current[0].texts[0]
    requires longer[0].source == current[0].source && longer[0].continued == current[0].continued
    ensures TurnsNeeded(bodies + [longer], budget)
  {
    var before, after := bodies + [current], bodies + [longer];
    forall i | 0 <= i < |after| - 1 ensures TurnNeeded(after[i], after[i + 1], budget) {
      assert TurnNeeded(before[i], before[i + 1], budget);
    }
  }

  lemma TurnsNext(bodies: seq<seq<Block>>, current: seq<Block>, next: seq<Block>, budget: int)
    requires TurnsNeeded(bodies + [current], budget) && TurnNeeded(current, next, budget)
    ensures TurnsNeeded(bodies + [current] + [next], budget)
  {
    var before, after := bodies + [current], bodies + [current] + [next];
    forall i | 0 <= i < |after| - 1 ensures TurnNeeded(after[i], after[i + 1], budget) {
      if i < |bodies| {
        assert TurnNeeded(before[i], before[i + 1], budget);
      }
    }
  }

  /** A body is left for the next one only when the piece did not fit. */
  lemma FillTurns(f: Filling, bodies: seq<seq<Block>>, current: seq<Block>, budget: int, piece: Unit)
    requires f.body == Render(current) && f.sources == Sources(current) && current != []
    requires Fill(f, piece, budget).done != f.done
    ensures TurnNeeded(current, [Block(piece.source, piece.source in f.seen, [piece.text])], budget)
  {
    assert SameSource(f.sources, piece.source) <==> current[|current| - 1].source == piece.source;
    Associates(f.body, "\n\n", Banner(piece.source, piece.source in f.seen) + "\n\n" + piece.text);
  }

  /** The piece begins a new body. */
  lemma FillBegins(f: Filling, bodies: seq<seq<Block>>, current: seq<Block>, pieces: seq<Unit>, budget: int, piece: Unit)
    requires Filled(f, bodies, current, pieces, budget) && Bytes(piece.text) <= Room(piece.source, budget)
    requires TurnsNeeded(bodies + [current], budget) && Fill(f, piece, budget).done != f.done
    ensures var next := [Block(piece.source, piece.source in f.seen, [piece.text])];
            && Filled(Fill(f, piece, budget), bodies + [current], next, pieces + [piece], budget)
            && TurnsNeeded(bodies + [current] + [next], budget)
  {
    var continued := piece.source in f.seen;
    var next := [Block(piece.source, continued, [piece.text])];
    ChunkFits(piece.source, continued, piece.text, budget);
    FillTurns(f, bodies, current, budget, piece);
    TurnsNext(bodies, current, next, budget);
    var turned := Filling(f.done + [Part(f.body, f.sources)], [], [], f.seen);
    FilledTurn(f, bodies, current, pieces, budget);
    FilledBlock(turned, bodies + [current], [], pieces, budget, piece);
    assert [] + next == next && [] + [piece.source] == [piece.source];
  }

  /** It goes behind the last text of its source. */
  lemma FillAdds(f: Filling, bodies: seq<seq<Block>>, current: seq<Block>, pieces: seq<Unit>, budget: int, piece: Unit)
    requires Filled(f, bodies, current, pieces, budget) && TurnsNeeded(bodies + [current], budget)
    requires Fill(f, piece, budget).done == f.done && SameSource(f.sources, piece.source)
    ensures current != [] && AddText(current, piece.text) != []
    ensures Filled(Fill(f, piece, budget), bodies, AddText(current, piece.text), pieces + [piece], budget)
    ensures TurnsNeeded(bodies + [AddText(current, piece.text)], budget)
  {
    FilledText(f, bodies, current, pieces, budget, piece);
    TurnsGrow(bodies, current, AddText(current, piece.text), budget);
  }

  /** It goes into the body under a banner of its own. */
  lemma FillOpens(f: Filling, bodies: seq<seq<Block>>, current: seq<Block>, pieces: seq<Unit>, budget: int, piece: Unit)
    requires Filled(f, bodies, current, pieces, budget) && Bytes(piece.text) <= Room(piece.source, budget)
    requires (current == [] ==> bodies == []) && TurnsNeeded(bodies + [current], budget)
    requires Fill(f, piece, budget).done == f.done && !SameSource(f.sources, piece.source)
    ensures var longer := current + [Block(piece.source, piece.source in f.seen, [piece.text])];
            && Filled(Fill(f, piece, budget), bodies, longer, pieces + [piece], budget)
            && TurnsNeeded(bodies + [longer], budget)
  {
    ChunkFits(piece.source, piece.source in f.seen, piece.text, budget);
    FilledBlock(f, bodies, current, pieces, budget, piece);
    if current != [] {
      TurnsGrow(bodies, current, current + [Block(piece.source, piece.source in f.seen, [piece.text])], budget);
    }
  }

  lemma FillKeeps(f: Filling, bodies: seq<seq<Block>>, current: seq<Block>, pieces: seq<Unit>,
      budget: int, piece: Unit, more: seq<Unit>) returns (f': Filling, bodies': seq<seq<Block>>, current': seq<Block>)
    requires Filled(f, bodies, current, pieces, budget) && Bytes(piece.text) <= Room(piece.source, budget)
    requires (current == [] ==> bodies == []) && TurnsNeeded(bodies + [current], budget)
    requires more == pieces + [piece]
    ensures f' == Fill(f, piece, budget) && Filled(f', bodies', current', more, budget)
    ensures current' != [] && TurnsNeeded(bodies' + [current'], budget)
  {
    f' := Fill(f, piece, budget);
    var block := Block(piece.source, piece.source in f.seen, [piece.text]);
    if f'.done != f.done {
      FillBegins(f, bodies, current, pieces, budget, piece);
      bodies', current' := bodies + [current], [block];
    } else if SameSource(f.sources, piece.source) {
      FillAdds(f, bodies, current, pieces, budget, piece);
      bodies', current' := bodies, AddText(current, piece.text);
    } else {
      FillOpens(f, bodies, current, pieces, budget, piece);
      bodies', current' := bodies, current + [block];
    }
  }

  function FillAll(pieces: seq<Unit>, budget: int): Filling {
    if pieces == [] then Filling([], [], [], {})
    else Fill(FillAll(pieces[..|pieces| - 1], budget), pieces[|pieces| - 1], budget)
  }

  ghost predicate AllFitRoom(pieces: seq<Unit>, budget: int) {
    forall i | 0 <= i < |pieces| :: Bytes(pieces[i].text) <= Room(pieces[i].source, budget)
  }

  /** Whatever pieces are filled in, there are blocks that say what the bodies show. */
  lemma {:induction false} FillAllKeeps(pieces: seq<Unit>, budget: int)
    returns (f: Filling, bodies: seq<seq<Block>>, current: seq<Block>)
    requires AllFitRoom(pieces, budget)
    ensures f == FillAll(pieces, budget) && Filled(f, bodies, current, pieces, budget)
    ensures (current == [] ==> bodies == []) && TurnsNeeded(bodies + [current], budget)
  {
    if pieces == [] {
      f, bodies, current := Filling([], [], [], {}), [], [];
      NothingFilled(budget);
    } else {
      var init, last := pieces[..|pieces| - 1], pieces[|pieces| - 1];
      assert pieces == init + [last];
      var f0, bodies0, current0 := FillAllKeeps(init, budget);
      f, bodies, current := FillKeeps(f0, bodies0, current0, init, budget, last, pieces);
    }
  }

  lemma NothingFilled(budget: int)
    ensures Filled(Filling([], [], [], {}), [], [], [], budget)
  {
    assert Flat([]) + [] == [];
  }

  method FillBodies(pieces: seq<Unit>, budget: int) returns (filling: Filling)
    ensures filling == FillAll(pieces, budget)
  {
    var done: seq<Part> := [];
    var body: string := [];
    var sources: seq<string> := [];
    var seen: set<string> := {};
    for i := 0 to |pieces|
      invariant Filling(done, body, sources, seen) == FillAll(pieces[..i], budget)
    {
      assert pieces[..i + 1][..i] == pieces[..i];
      var piece := pieces[i];
      var banner := Banner(piece.source, piece.source in seen) + "\n\n";
      var same := SameSource(sources, piece.source);
      var chunk := if same then piece.text else banner + piece.text;
      var next := if body == [] then chunk else body + "\n\n" + chunk;
      if Bytes(next) <= budget || body == [] {
        body := next;
        if !same {
          sources := sources + [piece.source];
        }
      } else {
        done := done + [Part(body, sources)];
        body := banner + piece.text;
        sources := [piece.source];
      }
      seen := seen + {piece.source};
    }
    assert pieces[..|pieces|] == pieces;
    filling := Filling(done, body, sources, seen);
  }

  method PackUnits(units: seq<Unit>, budget: int) returns (parts: Result<seq<Part>, SplitError>)
    ensures parts.Success? <==> SplitUnits(units, budget).Success?
    ensures parts.Success? ==> exists bodies :: Presents(parts.value, bodies, SplitUnits(units, budget).value, budget)
  {
    var split := SplitUnits(units, budget);
    if split.Failure? {
      return Failure(split.reason);
    }
    var pieces := split.value;
    var filling := FillBodies(pieces, budget);
    ghost var filled, bodies, current := FillAllKeeps(pieces, budget);
    Finished(filling, bodies, current, pieces, budget);
    parts := Success(if filling.body == [] then filling.done else filling.done + [Part(filling.body, filling.sources)]);
  }

  /** So do the bodies: what they show of a source is the text of its units, but for white space. */
  lemma BodiesKeepSources(parts: seq<Part>, bodies: seq<seq<Block>>, units: seq<Unit>, budget: int,
                                             source: string)
    requires SplitUnits(units, budget).Success?
    requires Presents(parts, bodies, SplitUnits(units, budget).value, budget)
    ensures NonSpaceAll(TextsOf(PiecesIn(Flat(bodies)), source)) == NonSpaceAll(TextsOf(units, source))
  {
    PiecesKeepSources(units, budget, source);
  }

  lemma Finished(f: Filling, bodies: seq<seq<Block>>, current: seq<Block>, pieces: seq<Unit>, budget: int)
    requires Filled(f, bodies, current, pieces, budget)
    requires (current == [] ==> bodies == []) && TurnsNeeded(bodies + [current], budget)
    ensures var parts := if f.body == [] then f.done else f.done + [Part(f.body, f.sources)];
            exists all :: Presents(parts, all, pieces, budget)
  {
    if f.body == [] {
      assert Flat(bodies) + [] == Flat(bodies);
      assert Presents(f.done, bodies, pieces, budget);
    } else {
      FilledTurn(f, bodies, current, pieces, budget);
      var all := bodies + [current];
      assert Flat(all) + [] == Flat(all);
      assert Presents(f.done + [Part(f.body, f.sources)], all, pieces, budget);
    }
  }
}
