/** What becomes of well-nested Anthropic streams: which items are closed, which
    text survives, and how the terminal event compares with the batch conversion. */
module AnthropicEventLaws {
  import opened Common
  import opened ChatChunks
  import opened AnthropicEvents

  // ----- Streams of whole blocks -----

  /** A content block and the pieces its deltas carry. Of other blocks the converter
      looks at the pieces of JSON only, which server tools send. */
  datatype Block =
    | ThinkingBlock(pieces: seq<string>)
    | TextBlock(pieces: seq<string>)
    | ToolBlock(id: string, name: string, pieces: seq<string>)
    | OtherBlock(pieces: seq<string>)

  function OpeningOf(b: Block): Opening {
    match b
    case ThinkingBlock(_) => ThinkingOpens
    case TextBlock(_) => TextOpens
    case ToolBlock(id, name, _) => ToolOpens(id, name)
    case OtherBlock(_) => OtherOpens
  }

  function PieceOf(b: Block, text: string): Piece {
    match b
    case ThinkingBlock(_) => ThinkingPiece(text)
    case TextBlock(_) => TextPiece(text)
    case _ => JsonPiece(text)
  }

  function Deltas(b: Block, pieces: seq<string>): seq<AnthropicEvent> {
    if pieces == [] then [] else Deltas(b, Init(pieces)) + [BlockDelta(Some(PieceOf(b, Last(pieces))))]
  }

  /** A block that has started and got its deltas. */
  function Begun(b: Block): seq<AnthropicEvent> {
    [BlockStart(Some(OpeningOf(b)))] + Deltas(b, b.pieces)
  }

  function BlockEvents(b: Block): seq<AnthropicEvent> {
    Begun(b) + [BlockStop]
  }

  function BlocksEvents(bs: seq<Block>): seq<AnthropicEvent> {
    if bs == [] then [] else BlocksEvents(Init(bs)) + BlockEvents(Last(bs))
  }

  // ----- Events that say nothing -----

  /** Pings, signatures of thinking and other deltas the converter skips. */
  predicate Quiet(e: AnthropicEvent) {
    match e
    case OtherEvent => true
    case BlockStart(b) => b.None?
    case BlockDelta(d) => d.None? || d.value.OtherPiece?
    case _ => false
  }

  /** A stream without them. */
  function Telling(es: seq<AnthropicEvent>): seq<AnthropicEvent> {
    if es == [] then [] else Telling(Init(es)) + (if Quiet(Last(es)) then [] else [Last(es)])
  }

  /** Wherever they stand, they change nothing. */
  lemma {:induction false} QuietErased(v: View, es: seq<AnthropicEvent>)
    ensures Run(v, es) == Run(v, Telling(es))
  {
    if es != [] {
      hide OnStop, OnOpening, OnMessage, OnUsage, Ended, WithPiece;
      QuietErased(v, Init(es));
      if Quiet(Last(es)) {
        QuietStep(Run(v, Init(es)), Last(es));
        assert Telling(Init(es)) + [] == Telling(Init(es));
      } else {
        InitOfSnoc(Telling(Init(es)), Last(es));
      }
    }
  }

  lemma QuietStep(v: View, e: AnthropicEvent)
    requires Quiet(e)
    ensures Step(v, e) == v
  {
  }

  // ----- What they come to -----

  /** A tool call; `held` is JSON that was collected before it opened. */
  function CallBody(b: Block, held: string): Body
    requires b.ToolBlock?
  {
    var args := held + Concat(b.pieces);
    CallOut(b.id, b.name, if args == "" then "{}" else args)
  }

  /** The texts of the message that is open: those of the text blocks since the last
      thinking or tool block, and an empty one for every other block in between. */
  function OpenTexts(bs: seq<Block>): seq<string> {
    if bs == [] then []
    else
      var texts := OpenTexts(Init(bs));
      match Last(bs)
      case TextBlock(ps) => texts + [Concat(ps)]
      case OtherBlock(_) => if texts == [] then [] else texts + [""]
      case _ => []
  }

  /** The JSON of other blocks since the last thinking or tool block. */
  function HeldJson(bs: seq<Block>): string {
    if bs == [] then ""
    else match Last(bs)
      case TextBlock(_) => HeldJson(Init(bs))
      case OtherBlock(ps) => HeldJson(Init(bs)) + Concat(ps)
      case _ => ""
  }

  /** What the arguments of a tool call after these blocks start with: closing an open
      message forgets the JSON held, but without one nothing does. */
  function Spill(texts: seq<string>, held: string): string {
    if texts == [] then held else ""
  }

  function Message(texts: seq<string>): seq<Body> {
    if texts == [] then [] else [MessageOut(texts)]
  }

  /** The items closed so far: a run of texts becomes one message when a tool call
      follows, and nothing when thinking follows. */
  function ClosedBodies(bs: seq<Block>): seq<Body> {
    if bs == [] then []
    else
      var before := Init(bs);
      match Last(bs)
      case TextBlock(_) => ClosedBodies(before)
      case ThinkingBlock(ps) => ClosedBodies(before) + [ReasoningOut(Concat(ps))]
      case ToolBlock(_, _, _) =>
        ClosedBodies(before) + Message(OpenTexts(before)) + [CallBody(Last(bs), Spill(OpenTexts(before), HeldJson(before)))]
      case OtherBlock(_) => ClosedBodies(before)
  }

  function AllBodies(bs: seq<Block>): seq<Body> {
    ClosedBodies(bs) + Message(OpenTexts(bs))
  }

  function Bodies(outputs: seq<Output>): seq<Body> {
    seq(|outputs|, i requires 0 <= i < |outputs| => outputs[i].body)
  }

  function Items(outputs: seq<Output>): seq<Option<nat>> {
    seq(|outputs|, i requires 0 <= i < |outputs| => outputs[i].item)
  }

  /** How often thinking starts while a message is open. */
  function Lapses(bs: seq<Block>): nat {
    if bs == [] then 0
    else Lapses(Init(bs)) + (if Last(bs).ThinkingBlock? && OpenTexts(Init(bs)) != [] then 1 else 0)
  }

  lemma {:induction false} RunAppend(v: View, a: seq<AnthropicEvent>, b: seq<AnthropicEvent>)
    ensures Run(v, a + b) == Run(Run(v, a), b)
  {
    hide Step;
    if b == [] {
      assert a + b == a;
    } else {
      assert Init(a + b) == a + Init(b);
      RunAppend(v, a, Init(b));
    }
  }

  lemma RunOne(v: View, e: AnthropicEvent)
    ensures Run(v, [e]) == Step(v, e)
  {
    InitOfSnoc<AnthropicEvent>([], e);
    assert [] + [e] == [e];
  }

  /** The open item after so many pieces. */
  function Collected(c: Current, b: Block, pieces: seq<string>): Current {
    WithPiece(c, PieceOf(b, Concat(pieces)))
  }

  lemma {:induction false} DeltasRun(v: View, b: Block, pieces: seq<string>)
    ensures Run(v, Deltas(b, pieces)) == v.(now := Collected(v.now, b, pieces))
  {
    if pieces == [] {
      assert v.now.text + "" == v.now.text && v.now.summary + "" == v.now.summary && v.now.args + "" == v.now.args;
    } else {
      DeltasRun(v, b, Init(pieces));
      InitOfSnoc(Deltas(b, Init(pieces)), BlockDelta(Some(PieceOf(b, Last(pieces)))));
      var c, t, p := v.now, Concat(Init(pieces)), Last(pieces);
      assert c.text + t + p == c.text + (t + p) && c.summary + t + p == c.summary + (t + p) && c.args + t + p == c.args + (t + p);
    }
  }

  lemma BegunRun(v: View, b: Block)
    ensures var o := OnOpening(v, OpeningOf(b)); Run(v, Begun(b)) == o.(now := Collected(o.now, b, b.pieces))
  {
    var e := BlockStart(Some(OpeningOf(b)));
    RunAppend(v, [e], Deltas(b, b.pieces));
    RunOne(v, e);
    DeltasRun(Step(v, e), b, b.pieces);
  }

  lemma BlockRun(v: View, b: Block)
    ensures var o := OnOpening(v, OpeningOf(b));
            Run(v, BlockEvents(b)) == OnStop(o.(now := Collected(o.now, b, b.pieces)))
  {
    hide OnOpening, OnStop, Collected, Begun;
    BegunRun(v, b);
    RunAppend(v, Begun(b), [BlockStop]);
    RunOne(Run(v, Begun(b)), BlockStop);
  }

  /** Between blocks nothing is open but a message with the last texts; JSON of other
      blocks may be held. */
  predicate Between(v: View, texts: seq<string>, held: string) {
    if texts == [] then v.now == NOTHING.(args := held)
    else v.now.item.Some? && v.now == Current(MessageItem, v.now.item, "", "", "", texts, held, "")
  }

  /** Items added but not closed: the open message and those left behind. */
  predicate Accounted(v: View, texts: seq<string>, lapses: nat) {
    && |v.added| == |v.outputs| + (if texts == [] then 0 else 1) + lapses
    && (lapses == 0 ==> v.added == Items(v.outputs) + (if texts == [] then [] else [v.now.item]))
  }

  lemma ThinkingRun(v: View, b: Block, texts: seq<string>, held: string, lapses: nat)
    requires b.ThinkingBlock? && Between(v, texts, held) && Accounted(v, texts, lapses)
    ensures var w := Run(v, BlockEvents(b));
            && Between(w, [], "") && Bodies(w.outputs) == Bodies(v.outputs) + [ReasoningOut(Concat(b.pieces))]
            && Accounted(w, [], lapses + (if texts == [] then 0 else 1))
            && w.header == v.header && w.final == v.final
  {
    BlockRun(v, b);
    assert "" + Concat(b.pieces) == Concat(b.pieces);
    hide Run, Concat;
    var w := Run(v, BlockEvents(b));
    assert w.outputs == v.outputs + [Output(Some(v.minted), ReasoningOut(Concat(b.pieces)))];
    assert Items(w.outputs) == Items(v.outputs) + [Some(v.minted)];
  }

  lemma TextRun(v: View, b: Block, texts: seq<string>, held: string, lapses: nat)
    requires b.TextBlock? && Between(v, texts, held) && Accounted(v, texts, lapses)
    ensures var w := Run(v, BlockEvents(b));
            && Between(w, texts + [Concat(b.pieces)], held) && w.outputs == v.outputs
            && Accounted(w, texts + [Concat(b.pieces)], lapses)
            && w.header == v.header && w.final == v.final
  {
    BlockRun(v, b);
    assert "" + Concat(b.pieces) == Concat(b.pieces);
    hide Run, Concat;
    assert [] + [Concat(b.pieces)] == [Concat(b.pieces)];
  }

  /** The end of a block the converter does not know ends a part of an open message. */
  lemma OtherRun(v: View, b: Block, texts: seq<string>, held: string, lapses: nat)
    requires b.OtherBlock? && Between(v, texts, held) && Accounted(v, texts, lapses)
    ensures var w, after := Run(v, BlockEvents(b)), if texts == [] then [] else texts + [""];
            && Between(w, after, held + Concat(b.pieces)) && w.outputs == v.outputs && Accounted(w, after, lapses)
            && w.header == v.header && w.final == v.final
  {
    BlockRun(v, b);
    hide Run, Concat;
  }

  lemma ClosedRun(v: View, texts: seq<string>, held: string, lapses: nat)
    requires Between(v, texts, held) && Accounted(v, texts, lapses)
    ensures var w := Closed(v);
            && Between(w, [], Spill(texts, held)) && Bodies(w.outputs) == Bodies(v.outputs) + Message(texts)
            && Accounted(w, [], lapses)
            && w.header == v.header && w.final == v.final && w.minted == v.minted
  {
    if texts != [] {
      assert Closed(v).outputs == v.outputs + [Output(v.now.item, MessageOut(texts))];
      assert Items(Closed(v).outputs) == Items(v.outputs) + [v.now.item];
    } else {
      assert Bodies(v.outputs) + [] == Bodies(v.outputs);
    }
  }

  /** A tool block on a converter that has nothing open. */
  lemma ToolCloses(c: View, b: Block, held: string)
    requires b.ToolBlock? && c.now == NOTHING.(args := held)
    ensures var o := Opened(c, CallItem);
            var s := o.(now := Collected(o.now.(callId := b.id, name := b.name), b, b.pieces));
            OnStop(s) == c.(outputs := c.outputs + [Output(Some(c.minted), CallBody(b, held))], minted := c.minted + 1,
                            added := c.added + [Some(c.minted)], now := NOTHING)
  {
  }

  lemma ToolRun(v: View, b: Block, texts: seq<string>, held: string, lapses: nat)
    requires b.ToolBlock? && Between(v, texts, held) && Accounted(v, texts, lapses)
    ensures var w := Run(v, BlockEvents(b));
            && Between(w, [], "")
            && Bodies(w.outputs) == Bodies(v.outputs) + Message(texts) + [CallBody(b, Spill(texts, held))]
            && Accounted(w, [], lapses)
            && w.header == v.header && w.final == v.final
  {
    hide Run, Concat, Message, Closed, OnStop, Collected, CallBody, Spill;
    ClosedRun(v, texts, held, lapses);
    BlockRun(v, b);
    var c, spill := Closed(v), Spill(texts, held);
    ToolCloses(c, b, spill);
    var w := Run(v, BlockEvents(b));
    assert w.outputs == c.outputs + [Output(Some(c.minted), CallBody(b, spill))];
    assert Items(w.outputs) == Items(c.outputs) + [Some(c.minted)];
  }

  function TextsAfter(texts: seq<string>, b: Block): seq<string> {
    match b
    case TextBlock(ps) => texts + [Concat(ps)]
    case OtherBlock(_) => if texts == [] then [] else texts + [""]
    case _ => []
  }

  function HeldAfter(held: string, b: Block): string {
    match b
    case TextBlock(_) => held
    case OtherBlock(ps) => held + Concat(ps)
    case _ => ""
  }

  function LapsesAfter(texts: seq<string>, lapses: nat, b: Block): nat {
    lapses + (if b.ThinkingBlock? && texts != [] then 1 else 0)
  }

  /** The items one more block closes. */
  function ClosedBy(texts: seq<string>, held: string, b: Block): seq<Body> {
    match b
    case ThinkingBlock(ps) => [ReasoningOut(Concat(ps))]
    case ToolBlock(_, _, _) => Message(texts) + [CallBody(b, Spill(texts, held))]
    case _ => []
  }

  /** One whole block. */
  lemma OneBlockRun(v: View, b: Block, texts: seq<string>, held: string, lapses: nat)
    requires Between(v, texts, held) && Accounted(v, texts, lapses)
    ensures var w := Run(v, BlockEvents(b));
            && Between(w, TextsAfter(texts, b), HeldAfter(held, b))
            && Bodies(w.outputs) == Bodies(v.outputs) + ClosedBy(texts, held, b)
            && Accounted(w, TextsAfter(texts, b), LapsesAfter(texts, lapses, b))
            && w.header == v.header && w.final == v.final
  {
    hide Run, Between, Accounted, BlockEvents, Concat, CallBody, Message, Spill;
    match b
    case ThinkingBlock(_) => ThinkingRun(v, b, texts, held, lapses);
    case TextBlock(_) => TextRun(v, b, texts, held, lapses);
    case ToolBlock(_, _, _) => ToolRun(v, b, texts, held, lapses);
    case OtherBlock(_) => OtherRun(v, b, texts, held, lapses);
  }

  /** After whole blocks: what is closed, what is open, and what was left behind. */
  lemma {:induction false} BlocksRun(v: View, bs: seq<Block>)
    requires v.now == NOTHING && v.outputs == [] && v.added == []
    ensures var w := Run(v, BlocksEvents(bs));
            && Between(w, OpenTexts(bs), HeldJson(bs)) && Bodies(w.outputs) == ClosedBodies(bs)
            && Accounted(w, OpenTexts(bs), Lapses(bs))
            && w.header == v.header && w.final == v.final
  {
    if bs == [] {
      NothingOpen(v);
      assert Bodies(v.outputs) == [];
    } else {
      BlocksSnoc(bs);
      hide Between, Accounted, BlockEvents, Run, OpenTexts, HeldJson, Lapses, ClosedBodies, TextsAfter, HeldAfter,
        LapsesAfter, ClosedBy;
      var before := Init(bs);
      BlocksRun(v, before);
      RunAppend(v, BlocksEvents(before), BlockEvents(Last(bs)));
      OneBlockRun(Run(v, BlocksEvents(before)), Last(bs), OpenTexts(before), HeldJson(before), Lapses(before));
    }
  }

  lemma BlocksSnoc(bs: seq<Block>)
    requires bs != []
    ensures var before, b := Init(bs), Last(bs);
            && OpenTexts(bs) == TextsAfter(OpenTexts(before), b)
            && HeldJson(bs) == HeldAfter(HeldJson(before), b)
            && Lapses(bs) == LapsesAfter(OpenTexts(before), Lapses(before), b)
            && ClosedBodies(bs) == ClosedBodies(before) + ClosedBy(OpenTexts(before), HeldJson(before), b)
  {
    hide Concat, Message, CallBody;
  }

  lemma NothingOpen(v: View)
    requires v.now == NOTHING && v.outputs == [] && v.added == []
    ensures Between(v, [], "") && Accounted(v, [], 0)
  {
    assert Items(v.outputs) == [];
  }

  // ----- Whole streams -----

  type Start = (string, string, Tokens)

  function StreamEvents(m: Start, bs: seq<Block>, usage: Option<Tokens>, stop: string): seq<AnthropicEvent> {
    [MessageStart(Some(m))] + BlocksEvents(bs) + [MessageDelta(usage, stop)] + [MessageStop]
  }

  /** The events of a whole message, and in between any that say nothing. */
  predicate Streams(es: seq<AnthropicEvent>, m: Start, bs: seq<Block>, usage: Option<Tokens>, stop: string) {
    Telling(es) == StreamEvents(m, bs, usage, stop)
  }

  function HeaderOf(m: Start, usage: Option<Tokens>, stop: string): Header {
    OnUsage(OnMessage(INITIAL.header, Some(m)), usage, stop)
  }

  /** From the last block to the end. */
  lemma EndRun(w: View, texts: seq<string>, held: string, lapses: nat, usage: Option<Tokens>, stop: string)
    requires Between(w, texts, held) && Accounted(w, texts, lapses) && w.final.None?
    ensures var u := Step(Step(w, MessageDelta(usage, stop)), MessageStop);
            && Bodies(u.outputs) == Bodies(w.outputs) + Message(texts) && Accounted(u, [], lapses)
            && u.final == Some(FinalOf(OnUsage(w.header, usage, stop), u.outputs))
  {
    hide FinalOf, OnUsage, Bodies, Message, Spill;
    var d := Step(w, MessageDelta(usage, stop));
    SameItemsAccounted(w, d, texts, held, lapses);
    ClosedRun(d, texts, held, lapses);
    SameItemsAccounted(Closed(d), Step(d, MessageStop), [], Spill(texts, held), lapses);
  }

  lemma StreamSteps(m: Start, bs: seq<Block>, usage: Option<Tokens>, stop: string)
    ensures Run(INITIAL, StreamEvents(m, bs, usage, stop))
            == Step(Step(Run(Step(INITIAL, MessageStart(Some(m))), BlocksEvents(bs)), MessageDelta(usage, stop)), MessageStop)
  {
    hide Step, BlocksEvents;
    var start, delta := MessageStart(Some(m)), MessageDelta(usage, stop);
    RunOne(INITIAL, start);
    RunAppend(INITIAL, [start], BlocksEvents(bs));
    RunAppend(INITIAL, [start] + BlocksEvents(bs), [delta]);
    RunOne(Run(INITIAL, [start] + BlocksEvents(bs)), delta);
    RunAppend(INITIAL, [start] + BlocksEvents(bs) + [delta], [MessageStop]);
    RunOne(Run(INITIAL, [start] + BlocksEvents(bs) + [delta]), MessageStop);
  }

  lemma StreamRun(m: Start, bs: seq<Block>, usage: Option<Tokens>, stop: string)
    ensures var w := Run(INITIAL, StreamEvents(m, bs, usage, stop));
            && Bodies(w.outputs) == AllBodies(bs) && Accounted(w, [], Lapses(bs))
            && w.final == Some(FinalOf(HeaderOf(m, usage, stop), w.outputs))
  {
    var v := Step(INITIAL, MessageStart(Some(m)));
    StreamSteps(m, bs, usage, stop);
    hide Accounted, BlocksEvents, OpenTexts, HeldJson, ClosedBodies, Lapses, FinalOf, OnMessage, OnUsage, Bodies, Message, Between, Run;
    BlocksRun(v, bs);
    EndRun(Run(v, BlocksEvents(bs)), OpenTexts(bs), HeldJson(bs), Lapses(bs), usage, stop);
  }

  lemma SameItemsAccounted(v: View, w: View, texts: seq<string>, held: string, lapses: nat)
    requires Between(v, texts, held) && Accounted(v, texts, lapses) && w.now == v.now && w.outputs == v.outputs && w.added == v.added
    ensures Between(w, texts, held) && Accounted(w, texts, lapses)
  {
  }

  /** Every item that was added is closed, once and in order, exactly when thinking
      never starts while a message is open. */
  lemma EveryItemClosed(es: seq<AnthropicEvent>, m: Start, bs: seq<Block>, usage: Option<Tokens>, stop: string)
    requires Streams(es, m, bs, usage, stop)
    ensures var w := Run(INITIAL, es);
            w.added == Items(w.outputs) <==> Lapses(bs) == 0
  {
    hide Run, StreamEvents, Telling;
    QuietErased(INITIAL, es);
    StreamRun(m, bs, usage, stop);
  }

  /** A text block, and up to the j-th nothing but text and other blocks. */
  predicate TextUpTo(bs: seq<Block>, i: nat, j: nat)
    requires i < j <= |bs|
  {
    bs[i].TextBlock? && forall k | i < k < j :: bs[k].TextBlock? || bs[k].OtherBlock?
  }

  /** The j-th block comes after a text block, with nothing but text and other blocks
      in between. */
  predicate AfterText(bs: seq<Block>, j: nat)
    requires j <= |bs|
  {
    exists i | 0 <= i < j :: TextUpTo(bs, i, j)
  }

  lemma AfterTextSnoc(bs: seq<Block>)
    requires bs != []
    ensures AfterText(bs, |bs|) <==> Last(bs).TextBlock? || (Last(bs).OtherBlock? && AfterText(bs, |bs| - 1))
  {
    var n := |bs| - 1;
    assert TextUpTo(bs, n, n + 1) <==> bs[n].TextBlock?;
    forall i | 0 <= i < n
      ensures TextUpTo(bs, i, n + 1) <==> TextUpTo(bs, i, n) && (bs[n].TextBlock? || bs[n].OtherBlock?)
    {
    }
    if AfterText(bs, n + 1) {
      var i :| 0 <= i < n + 1 && TextUpTo(bs, i, n + 1);
      assert i == n || TextUpTo(bs, i, n);
    }
    if bs[n].OtherBlock? && AfterText(bs, n) {
      var i :| 0 <= i < n && TextUpTo(bs, i, n);
      assert TextUpTo(bs, i, n + 1);
    }
  }

  lemma {:induction false} OpenAfterText(bs: seq<Block>)
    ensures OpenTexts(bs) != [] <==> AfterText(bs, |bs|)
  {
    if bs != [] {
      hide AfterText, Concat;
      OpenAfterText(Init(bs));
      AfterTextSnoc(bs);
      SamePrefix(bs, |bs| - 1);
    }
  }

  lemma SamePrefix(bs: seq<Block>, j: nat)
    requires bs != [] && j < |bs|
    ensures AfterText(Init(bs), j) <==> AfterText(bs, j)
  {
    assert forall k | 0 <= k < j :: Init(bs)[k] == bs[k];
    forall i | 0 <= i < j ensures TextUpTo(Init(bs), i, j) <==> TextUpTo(bs, i, j) {
    }
  }

  /** What the condition means, block by block. */
  lemma {:induction false} LapsesAre(bs: seq<Block>)
    ensures Lapses(bs) == 0 <==> forall j | 0 <= j < |bs| && bs[j].ThinkingBlock? :: !AfterText(bs, j)
  {
    if bs != [] {
      hide AfterText;
      LapsesAre(Init(bs));
      OpenAfterText(Init(bs));
      forall j | 0 <= j < |bs| ensures AfterText(bs, j) <==> AfterText(Init(bs), j) {
        SamePrefix(bs, j);
      }
    }
  }

  // ----- Against the batch conversion -----

  /** A block of a non-streaming response, as its deltas add up. */
  datatype Content =
    | ThinkingContent(text: string)
    | TextContent(text: string)
    | ToolContent(id: string, name: string, input: string)
    | OtherContent

  function ContentOf(b: Block): Content {
    match b
    case ThinkingBlock(ps) => ThinkingContent(Concat(ps))
    case TextBlock(ps) => TextContent(Concat(ps))
    case ToolBlock(id, name, ps) => ToolContent(id, name, Concat(ps))
    case OtherBlock(_) => OtherContent
  }

  function ContentsOf(bs: seq<Block>): seq<Content> {
    if bs == [] then [] else ContentsOf(Init(bs)) + [ContentOf(Last(bs))]
  }

  function BatchItems(cs: seq<Content>): seq<Body> {
    if cs == [] then []
    else
      BatchItems(Init(cs)) +
      (match Last(cs)
       case ThinkingContent(t) => if t != "" then [ReasoningOut(t)] else []
       case ToolContent(id, name, input) => [CallOut(id, name, if input == "" then "{}" else input)]
       case _ => [])
  }

  function BatchTexts(cs: seq<Content>): seq<string> {
    if cs == [] then []
    else BatchTexts(Init(cs)) + (if Last(cs).TextContent? && Last(cs).text != "" then [Last(cs).text] else [])
  }

  /** AnthropicToResponsesResponse: reasoning and calls first, one message last. */
  function BatchBodies(cs: seq<Content>): seq<Body> {
    var outputs := BatchItems(cs) + Message(BatchTexts(cs));
    if outputs == [] then [MessageOut([""])] else outputs
  }

  // What a reader of the output takes from it

  function Summaries(bs: seq<Body>): seq<string> {
    if bs == [] then []
    else Summaries(Init(bs)) + (if Last(bs).ReasoningOut? && Last(bs).summary != "" then [Last(bs).summary] else [])
  }

  function Calls(bs: seq<Body>): seq<Body> {
    if bs == [] then [] else Calls(Init(bs)) + (if Last(bs).CallOut? then [Last(bs)] else [])
  }

  function Words(bs: seq<Body>): string {
    if bs == [] then "" else Words(Init(bs)) + (if Last(bs).MessageOut? then Concat(Last(bs).parts) else "")
  }

  /** All text that was streamed. */
  function AllText(bs: seq<Block>): string {
    if bs == [] then "" else AllText(Init(bs)) + (if Last(bs).TextBlock? then Concat(Last(bs).pieces) else "")
  }

  /** The text of messages that were open when thinking started. */
  function LostText(bs: seq<Block>): string {
    if bs == [] then ""
    else LostText(Init(bs)) + (if Last(bs).ThinkingBlock? then Concat(OpenTexts(Init(bs))) else "")
  }

  lemma {:induction false} ReadAppend(a: seq<Body>, b: seq<Body>)
    ensures Summaries(a + b) == Summaries(a) + Summaries(b)
    ensures Calls(a + b) == Calls(a) + Calls(b)
    ensures Words(a + b) == Words(a) + Words(b)
  {
    assert Summaries([]) == [] && Calls([]) == [] && Words([]) == "";
    hide Summaries, Calls, Words, Concat;
    if b == [] {
      assert a + b == a;
    } else {
      var before, x := Init(b), Last(b);
      ReadAppend(a, before);
      assert a + b == (a + before) + [x] && b == before + [x];
      ReadSnoc(a + before, x);
      ReadSnoc(before, x);
      Associates(Summaries(a), Summaries(before), if x.ReasoningOut? && x.summary != "" then [x.summary] else []);
      Associates(Calls(a), Calls(before), if x.CallOut? then [x] else []);
      Associates(Words(a), Words(before), if x.MessageOut? then Concat(x.parts) else "");
    }
  }

  lemma ReadSnoc(a: seq<Body>, b: Body)
    ensures Summaries(a + [b]) == Summaries(a) + (if b.ReasoningOut? && b.summary != "" then [b.summary] else [])
    ensures Calls(a + [b]) == Calls(a) + (if b.CallOut? then [b] else [])
    ensures Words(a + [b]) == Words(a) + (if b.MessageOut? then Concat(b.parts) else "")
  {
    InitOfSnoc(a, b);
  }

  lemma ReadOne(b: Body)
    ensures Summaries([b]) == if b.ReasoningOut? && b.summary != "" then [b.summary] else []
    ensures Calls([b]) == if b.CallOut? then [b] else []
    ensures Words([b]) == if b.MessageOut? then Concat(b.parts) else ""
  {
    assert Init([b]) == [] && Last([b]) == b;
    assert Summaries([]) == [] && Calls([]) == [] && Words([]) == "";
  }

  lemma ReadMessage(texts: seq<string>)
    ensures Summaries(Message(texts)) == [] && Calls(Message(texts)) == [] && Words(Message(texts)) == Concat(texts)
  {
    if texts != [] {
      ReadOne(MessageOut(texts));
    }
  }

  function BatchOne(b: Block): seq<Body> {
    match b
    case ThinkingBlock(ps) => if Concat(ps) != "" then [ReasoningOut(Concat(ps))] else []
    case ToolBlock(_, _, _) => [CallBody(b, "")]
    case _ => []
  }

  lemma BatchSnoc(bs: seq<Block>)
    requires bs != []
    ensures BatchItems(ContentsOf(bs)) == BatchItems(ContentsOf(Init(bs))) + BatchOne(Last(bs))
  {
    hide Concat;
    InitOfSnoc(ContentsOf(Init(bs)), ContentOf(Last(bs)));
    assert "" + Concat(Last(bs).pieces) == Concat(Last(bs).pieces);
  }

  lemma ReadCall(closed: seq<Body>, texts: seq<string>, call: Body)
    requires call.CallOut?
    ensures Summaries(closed + Message(texts) + [call]) == Summaries(closed) + Summaries([call])
    ensures Calls(closed + Message(texts) + [call]) == Calls(closed) + Calls([call])
    ensures Words([call]) == ""
  {
    hide Summaries, Calls, Words, Concat, Message;
    ReadMessage(texts);
    ReadAppend(closed, Message(texts));
    ReadSnoc(closed + Message(texts), call);
    ReadOne(call);
  }

  lemma ReadThinking(closed: seq<Body>, text: string)
    ensures var one := if text != "" then [ReasoningOut(text)] else [];
            Summaries(closed + [ReasoningOut(text)]) == Summaries(closed) + Summaries(one) &&
            Calls(closed + [ReasoningOut(text)]) == Calls(closed) && Calls(one) == [] && Words(one) == ""
  {
    assert Summaries([]) == [] && Calls([]) == [] && Words([]) == "";
    hide Summaries, Calls, Words, Concat;
    ReadSnoc(closed, ReasoningOut(text));
    ReadOne(ReasoningOut(text));
  }

  /** JSON held before a tool call changes its arguments. */
  predicate Spoils(held: string, own: string) {
    held != "" && !(own == "" && held == "{}")
  }

  /** No tool call starts with JSON of the other blocks before it. */
  predicate Unspoiled(bs: seq<Block>) {
    bs == [] ||
    (Unspoiled(Init(bs)) &&
     (Last(bs).ToolBlock? ==> !Spoils(Spill(OpenTexts(Init(bs)), HeldJson(Init(bs))), Concat(Last(bs).pieces))))
  }

  lemma CallSpoiled(b: Block, held: string)
    requires b.ToolBlock?
    ensures CallBody(b, held) == CallBody(b, "") <==> !Spoils(held, Concat(b.pieces))
  {
    var own := Concat(b.pieces);
    hide Concat;
    assert "" + own == own && held + "" == held && |held + own| == |held| + |own|;
  }

  function CallsOf(b: Block, held: string): seq<Body> {
    if b.ToolBlock? then [CallBody(b, held)] else []
  }

  /** What one more block adds to the closed items, as a reader sees it. */
  lemma ClosedSnoc(bs: seq<Block>)
    requires bs != []
    ensures var before, b := Init(bs), Last(bs);
            && Summaries(ClosedBodies(bs)) == Summaries(ClosedBodies(before)) + Summaries(BatchOne(b))
            && Calls(ClosedBodies(bs)) == Calls(ClosedBodies(before)) + CallsOf(b, Spill(OpenTexts(before), HeldJson(before)))
            && Calls(BatchOne(b)) == CallsOf(b, "") && Words(BatchOne(b)) == ""
  {
    var before, b := Init(bs), Last(bs);
    var closed := ClosedBodies(before);
    NothingToRead();
    hide Summaries, Calls, Words, Concat, Message, CallBody, OpenTexts, HeldJson, Spill;
    match b
    case TextBlock(_) => assert ClosedBodies(bs) == closed && BatchOne(b) == [];
    case OtherBlock(_) => assert ClosedBodies(bs) == closed && BatchOne(b) == [];
    case ThinkingBlock(ps) =>
      assert ClosedBodies(bs) == closed + [ReasoningOut(Concat(ps))];
      hide ClosedBodies;
      ReadThinking(closed, Concat(ps));
    case ToolBlock(_, _, _) =>
      var call := CallBody(b, Spill(OpenTexts(before), HeldJson(before)));
      assert ClosedBodies(bs) == closed + Message(OpenTexts(before)) + [call] && BatchOne(b) == [CallBody(b, "")];
      hide ClosedBodies, BatchOne;
      CallIsCallOf(b);
      ReadCall(closed, OpenTexts(before), call);
      ReadOne(call);
      ReadOne(CallBody(b, ""));
  }

  lemma NothingToRead()
    ensures Summaries([]) == [] && Calls([]) == [] && Words([]) == ""
  {
  }

  lemma CallsStep(x: seq<Body>, y: seq<Body>, b: Block, held: string)
    requires |x| == |y|
    ensures var xs, ys := x + CallsOf(b, held), y + CallsOf(b, "");
            |xs| == |ys| && (xs == ys <==> x == y && (b.ToolBlock? ==> !Spoils(held, Concat(b.pieces))))
  {
    hide CallBody, Spoils;
    if b.ToolBlock? {
      CallSpoiled(b, held);
      InitOfSnoc(x, CallBody(b, held));
      InitOfSnoc(y, CallBody(b, ""));
    } else {
      assert x + [] == x && y + [] == y;
    }
  }

  lemma {:induction false} ItemsAgree(bs: seq<Block>)
    ensures Summaries(ClosedBodies(bs)) == Summaries(BatchItems(ContentsOf(bs)))
    ensures |Calls(ClosedBodies(bs))| == |Calls(BatchItems(ContentsOf(bs)))|
    ensures Calls(ClosedBodies(bs)) == Calls(BatchItems(ContentsOf(bs))) <==> Unspoiled(bs)
    ensures Words(BatchItems(ContentsOf(bs))) == ""
  {
    if bs != [] {
      var before, b := Init(bs), Last(bs);
      assert Unspoiled(bs) <==>
             Unspoiled(before) && (b.ToolBlock? ==> !Spoils(Spill(OpenTexts(before), HeldJson(before)), Concat(b.pieces)));
      hide Summaries, Calls, Words, ClosedBodies, BatchItems, ContentsOf, BatchOne, Unspoiled, Spoils, Spill, OpenTexts, HeldJson,
        CallBody, Concat, CallsOf;
      ItemsAgree(before);
      BatchSnoc(bs);
      ClosedSnoc(bs);
      ReadAppend(BatchItems(ContentsOf(before)), BatchOne(b));
      CallsStep(Calls(ClosedBodies(before)), Calls(BatchItems(ContentsOf(before))), b,
                Spill(OpenTexts(before), HeldJson(before)));
    }
  }

  lemma ConcatSnoc(a: seq<string>, t: string)
    ensures Concat(a + [t]) == Concat(a) + t
  {
    InitOfSnoc(a, t);
    assert (a + [t])[..|a + [t]| - 1] == a;
  }

  lemma {:induction false} BatchWords(bs: seq<Block>)
    ensures Concat(BatchTexts(ContentsOf(bs))) == AllText(bs)
  {
    if bs != [] {
      var before, b := Init(bs), Last(bs);
      BatchWords(before);
      InitOfSnoc(ContentsOf(before), ContentOf(b));
      var texts := BatchTexts(ContentsOf(before));
      assert texts + [] == texts;
      if b.TextBlock? {
        ConcatSnoc(texts, Concat(b.pieces));
      }
    }
  }

  /** The text of the closed messages, and of the one that is open. */
  lemma {:induction false} ClosedWords(bs: seq<Block>)
    requires bs != []
    ensures var before := Init(bs);
            Words(ClosedBodies(bs))
            == Words(ClosedBodies(before)) + (if Last(bs).ToolBlock? then Concat(OpenTexts(before)) else "")
    ensures Concat(OpenTexts(bs))
            == match Last(bs)
               case TextBlock(ps) => Concat(OpenTexts(Init(bs))) + Concat(ps)
               case OtherBlock(_) => Concat(OpenTexts(Init(bs)))
               case _ => ""
  {
    var before, b := Init(bs), Last(bs);
    var closed := ClosedBodies(before);
    assert Concat([]) == "";
    CallIsCallOf(b);
    hide Summaries, Calls, Words, Concat, CallBody, Message, Spill;
    match b
    case TextBlock(ps) => ConcatSnoc(OpenTexts(before), Concat(ps));
    case OtherBlock(_) =>
      ConcatSnoc(OpenTexts(before), "");
      assert Concat(OpenTexts(before)) + "" == Concat(OpenTexts(before));
    case ThinkingBlock(ps) => ReadSnoc(closed, ReasoningOut(Concat(ps)));
    case ToolBlock(_, _, _) =>
      ReadMessage(OpenTexts(before));
      ReadAppend(closed, Message(OpenTexts(before)));
      ReadSnoc(closed + Message(OpenTexts(before)), CallBody(b, Spill(OpenTexts(before), HeldJson(before))));
  }

  lemma CallIsCallOf(b: Block)
    ensures b.ToolBlock? ==> forall held :: CallBody(b, held).CallOut?
  {
  }

  /** What the stream shows of the text, and what it lost. */
  lemma {:induction false} StreamWords(bs: seq<Block>)
    ensures var shown := Words(ClosedBodies(bs)) + Concat(OpenTexts(bs));
            && |shown| + |LostText(bs)| == |AllText(bs)|
            && (LostText(bs) == "" ==> shown == AllText(bs))
  {
    if bs == [] {
      assert Concat([]) == "";
    } else {
      hide Words, Concat, ClosedBodies, OpenTexts;
      StreamWords(Init(bs));
      ClosedWords(bs);
      if Last(bs).TextBlock? {
        Associates(Words(ClosedBodies(Init(bs))), Concat(OpenTexts(Init(bs))), Concat(Last(bs).pieces));
      }
    }
  }

  /** The terminal event against the batch conversion of the same blocks: reasoning
      agrees in order; the calls agree, in order, exactly when none starts with JSON of
      other blocks; the text agrees exactly when none was lost. */
  lemma StreamAgainstBatch(bs: seq<Block>)
    ensures var stream, batch := AllBodies(bs), BatchBodies(ContentsOf(bs));
            && Summaries(stream) == Summaries(batch) && |Calls(stream)| == |Calls(batch)|
            && (Calls(stream) == Calls(batch) <==> Unspoiled(bs))
            && Words(batch) == AllText(bs)
            && (Words(stream) == Words(batch) <==> LostText(bs) == "")
  {
    hide Summaries, Calls, Words, Concat, OpenTexts, ClosedBodies, ContentsOf, LostText, AllText, BatchBodies, Message, Unspoiled;
    ItemsAgree(bs);
    StreamWords(bs);
    ReadMessage(OpenTexts(bs));
    ReadAppend(ClosedBodies(bs), Message(OpenTexts(bs)));
    ReadBatch(bs);
  }

  lemma ReadBatch(bs: seq<Block>)
    ensures var cs := ContentsOf(bs);
            && Summaries(BatchBodies(cs)) == Summaries(BatchItems(cs)) && Calls(BatchBodies(cs)) == Calls(BatchItems(cs))
            && Words(BatchBodies(cs)) == AllText(bs)
  {
    var cs := ContentsOf(bs);
    ReadOne(MessageOut([""]));
    assert Concat([""]) == "" by { ConcatSnoc([], ""); assert [] + [""] == [""]; assert Concat([]) == ""; }
    assert Words([]) == "" && Summaries([]) == [] && Calls([]) == [];
    hide Summaries, Calls, Words, Concat, BatchItems, BatchTexts, AllText, ContentsOf, Message;
    ItemsAgree(bs);
    BatchWords(bs);
    ReadMessage(BatchTexts(cs));
    ReadAppend(BatchItems(cs), Message(BatchTexts(cs)));
  }

  // ----- The whole response -----

  /** A non-streaming response. */
  datatype AnthropicResponse = AnthropicResponse(
    id: string, model: string, contents: seq<Content>, stop: string, usage: Tokens)

  /** Items as the batch conversion lists them, but for the ids it draws. */
  function Unnumbered(bodies: seq<Body>): seq<Output> {
    seq(|bodies|, i requires 0 <= i < |bodies| => Output(None, bodies[i]))
  }

  /** What the batch conversion gives; `drawn` is the id it draws when there is none. */
  function BatchResponse(drawn: string, r: AnthropicResponse): Response {
    var input := r.usage.input + r.usage.cacheRead + r.usage.cacheCreation;
    Response(if r.id == "" then drawn else r.id, r.model, if r.stop == "max_tokens" then "incomplete" else "completed",
             if r.stop == "max_tokens" then "max_output_tokens" else "", Unnumbered(BatchBodies(r.contents)),
             Usage(input, r.usage.output, input + r.usage.output, r.usage.cacheCreation,
                   if r.usage.cacheRead > 0 then Some(r.usage.cacheRead) else None))
  }

  /** The loop over the content blocks. */
  method CollectItems(cs: seq<Content>) returns (outputs: seq<Body>, parts: seq<string>)
    ensures outputs == BatchItems(cs) && parts == BatchTexts(cs)
  {
    outputs, parts := [], [];
    for i := 0 to |cs|
      invariant outputs == BatchItems(cs[..i]) && parts == BatchTexts(cs[..i])
    {
      assert Init(cs[..i + 1]) == cs[..i] && Last(cs[..i + 1]) == cs[i];
      match cs[i]
      case ThinkingContent(text) =>
        if text != "" {
          outputs := outputs + [ReasoningOut(text)];
        }
      case TextContent(text) =>
        if text != "" {
          parts := parts + [text];
        }
      case ToolContent(id, name, input) =>
        var args := "{}";
        if |input| > 0 {
          args := input;
        }
        outputs := outputs + [CallOut(id, name, args)];
      case OtherContent =>
    }
    assert cs[..|cs|] == cs;
  }

  method BatchUsage(t: Tokens) returns (usage: Usage)
    ensures var total := t.input + t.cacheRead + t.cacheCreation;
            usage == Usage(total, t.output, total + t.output, t.cacheCreation,
                           if t.cacheRead > 0 then Some(t.cacheRead) else None)
  {
    var total := t.input + t.cacheRead + t.cacheCreation;
    usage := Usage(total, t.output, total + t.output, t.cacheCreation, None);
    if t.cacheRead > 0 {
      usage := usage.(cached := Some(t.cacheRead));
    }
  }

  /** AnthropicToResponsesResponse */
  method ConvertResponse(drawn: string, r: AnthropicResponse) returns (out: Response)
    ensures out == BatchResponse(drawn, r)
  {
    hide BatchItems, BatchTexts;
    var id := r.id;
    if id == "" {
      id := drawn;
    }
    var outputs, parts := CollectItems(r.contents);
    if |parts| > 0 {
      outputs := outputs + [MessageOut(parts)];
    }
    if |outputs| == 0 {
      outputs := [MessageOut([""])];
    }
    assert BatchItems(r.contents) + [] == BatchItems(r.contents);
    assert outputs == BatchBodies(r.contents);
    var status, incomplete := "completed", "";
    if r.stop == "max_tokens" {
      status, incomplete := "incomplete", "max_output_tokens";
    }
    var usage := BatchUsage(r.usage);
    out := Response(id, r.model, status, incomplete, Unnumbered(outputs), usage);
  }

  /** A count that came twice: the later one stands if it is positive. */
  function Later(first: int, second: int): int {
    if second > 0 then second else if first > 0 then first else 0
  }

  /** The token counts a stream delivers: the output count comes with message_delta
      only, the others with message_start or message_delta. */
  function CountsOf(start: Tokens, delta: Option<Tokens>): Tokens {
    match delta
    case None => Tokens(Later(0, start.input), 0, Later(0, start.cacheRead), Later(0, start.cacheCreation))
    case Some(d) =>
      Tokens(Later(start.input, d.input), d.output, Later(start.cacheRead, d.cacheRead),
             Later(start.cacheCreation, d.cacheCreation))
  }

  /** The response counts what the stream counts. (A negative cache count would be
      added in, but not shown.) */
  predicate SameCounts(response: Tokens, stream: Tokens) {
    response == stream ||
    (response.cacheRead < 0 && stream.cacheRead == 0 && response.input + response.cacheRead == stream.input &&
     response.output == stream.output && response.cacheCreation == stream.cacheCreation)
  }

  lemma UsagesAgree(response: Tokens, start: Tokens, delta: Option<Tokens>)
    ensures UsageOf(response) == UsageOf(CountsOf(start, delta)) <==> SameCounts(response, CountsOf(start, delta))
  {
  }

  lemma HeaderCounts(m: Start, usage: Option<Tokens>, stop: string)
    ensures var h := HeaderOf(m, usage, stop);
            h == Header(m.0, m.1, CountsOf(m.2, usage), stop, true)
  {
  }

  /** The terminal event of a stream against the batch conversion of the response
      `r` with the same id, model and content: reasoning agrees in order, the calls
      exactly when none starts with JSON of other blocks, the text exactly when none
      was lost, the id exactly when there is one, the status exactly when both or
      neither were cut short, and the usage exactly when the response counts what the
      stream counts. */
  lemma TerminalEvent(es: seq<AnthropicEvent>, m: Start, bs: seq<Block>, usage: Option<Tokens>, stop: string,
                      drawn: string, r: AnthropicResponse)
    requires Streams(es, m, bs, usage, stop)
    requires r.id == m.0 && r.model == m.1 && r.contents == ContentsOf(bs) && drawn != ""
    ensures var final := Run(INITIAL, es).final;
            final.Some? &&
            var f, b := final.value, BatchResponse(drawn, r);
            && Summaries(Bodies(f.output)) == Summaries(Bodies(b.output))
            && (Calls(Bodies(f.output)) == Calls(Bodies(b.output)) <==> Unspoiled(bs))
            && Words(Bodies(b.output)) == AllText(bs)
            && (Words(Bodies(f.output)) == Words(Bodies(b.output)) <==> LostText(bs) == "")
            && f.model == b.model == m.1 && f.id == m.0
            && (f.id == b.id <==> m.0 != "")
            && (f.status == "incomplete" <==> stop == "max_tokens") && (f.status != "incomplete" ==> f.status == "completed")
            && (f.status == b.status && f.incomplete == b.incomplete <==> (stop == "max_tokens" <==> r.stop == "max_tokens"))
            && (f.usage == b.usage <==> SameCounts(r.usage, CountsOf(m.2, usage)))
  {
    hide Run, StreamEvents, Telling, AllBodies, BatchBodies, HeaderOf, CountsOf, SameCounts, Unspoiled;
    QuietErased(INITIAL, es);
    StreamRun(m, bs, usage, stop);
    StreamAgainstBatch(bs);
    HeaderCounts(m, usage, stop);
    UsagesAgree(r.usage, m.2, usage);
    assert Bodies(Unnumbered(BatchBodies(r.contents))) == BatchBodies(r.contents);
    assert "incomplete"[0] == 'i' && "completed"[0] == 'c';
  }

  /** Text, then thinking: the text is streamed but missing from the terminal event,
      and its item is never done. */
  lemma TextBeforeThinking(m: Start, text: string, thought: string)
    requires text != ""
    ensures var bs := [TextBlock([text])] + [ThinkingBlock([thought])];
            var w := Run(INITIAL, StreamEvents(m, bs, None, "end_turn"));
            AllText(bs) == text && Words(Bodies(w.outputs)) == "" && |w.added| == 2 && |w.outputs| == 1
  {
    var t, h := TextBlock([text]), ThinkingBlock([thought]);
    var bs := [t] + [h];
    OnePiece(text);
    OnePiece(thought);
    TextThenThinking(t, h);
    hide Concat, Run, StreamEvents, AllText, Words;
    ReadOne(ReasoningOut(thought));
    StreamRun(m, bs, None, "end_turn");
    assert Bodies(Run(INITIAL, StreamEvents(m, bs, None, "end_turn")).outputs) == [ReasoningOut(thought)];
  }

  lemma OnePiece(text: string)
    ensures Concat([text]) == text
  {
    ConcatSnoc([], text);
    assert Concat([]) == "" && [] + [text] == [text] && "" + text == text;
  }

  lemma TextThenThinking(t: Block, h: Block)
    requires t.TextBlock? && h.ThinkingBlock?
    ensures var bs := [t] + [h];
            Lapses(bs) == 1 && AllBodies(bs) == [ReasoningOut(Concat(h.pieces))] && AllText(bs) == Concat(t.pieces)
  {
    hide Concat;
    InitOfSnoc([t], h);
    assert Init([t]) == [] && Last([t]) == t;
    assert OpenTexts([]) == [] && ClosedBodies([]) == [] && Lapses([]) == 0 && AllText([]) == "";
    assert OpenTexts([t]) == [Concat(t.pieces)] && ClosedBodies([t]) == [] && Lapses([t]) == 0;
    assert "" + Concat(t.pieces) + "" == Concat(t.pieces);
  }

  /** A server tool with input, then a call of the client's own tool: the call's
      arguments start with the other tool's input. */
  lemma ServerToolSpills(m: Start, input: string, id: string, name: string, args: string)
    requires input != "" && args != ""
    ensures var bs := [OtherBlock([input])] + [ToolBlock(id, name, [args])];
            && AllBodies(bs) == [CallOut(id, name, input + args)] && BatchBodies(ContentsOf(bs)) == [CallOut(id, name, args)]
            && Bodies(Run(INITIAL, StreamEvents(m, bs, None, "tool_use")).outputs) == AllBodies(bs)
  {
    var o, c := OtherBlock([input]), ToolBlock(id, name, [args]);
    var bs := [o] + [c];
    StreamRun(m, bs, None, "tool_use");
    OnePiece(input);
    OnePiece(args);
    hide Concat, Run, StreamEvents;
    InitOfSnoc([o], c);
    assert Init([o]) == [] && Last([o]) == o;
    assert "" + input == input;
    assert OpenTexts([]) == [] && HeldJson([]) == "" && ClosedBodies([]) == [] && ContentsOf([]) == [];
    assert OpenTexts([o]) == [] && HeldJson([o]) == input && ClosedBodies([o]) == [];
    SpilledContents(o, c);
  }

  lemma SpilledContents(o: Block, c: Block)
    requires o.OtherBlock? && c.ToolBlock? && Concat(c.pieces) != ""
    ensures BatchBodies(ContentsOf([o] + [c])) == [CallOut(c.id, c.name, Concat(c.pieces))]
  {
    InitOfSnoc([o], c);
    assert Init([o]) == [] && Last([o]) == o;
    assert "" + Concat(c.pieces) == Concat(c.pieces);
    assert BatchItems(ContentsOf([])) == [] && BatchTexts(ContentsOf([])) == [];
    hide Concat, BatchItems, BatchTexts, ContentsOf;
    BatchSnoc([o]);
    BatchSnoc([o] + [c]);
    TextsSnoc([o]);
    TextsSnoc([o] + [c]);
  }

  lemma TextsSnoc(bs: seq<Block>)
    requires bs != [] && !Last(bs).TextBlock?
    ensures BatchTexts(ContentsOf(bs)) == BatchTexts(ContentsOf(Init(bs)))
  {
    hide Concat;
    InitOfSnoc(ContentsOf(Init(bs)), ContentOf(Last(bs)));
    assert BatchTexts(ContentsOf(Init(bs))) + [] == BatchTexts(ContentsOf(Init(bs)));
  }

  // ----- Streams that break off -----

  function CutEvents(m: Start, bs: seq<Block>, b: Block): seq<AnthropicEvent> {
    [MessageStart(Some(m))] + BlocksEvents(bs) + Begun(b)
  }

  /** A stream that breaks off in the block `b`. */
  predicate BreaksOff(es: seq<AnthropicEvent>, m: Start, bs: seq<Block>, b: Block) {
    Telling(es) == CutEvents(m, bs, b)
  }

  /** When the upstream breaks off inside a block: partial thinking and partial
      arguments are kept, the text of a partial text block is not. */
  lemma BrokenOff(es: seq<AnthropicEvent>, m: Start, bs: seq<Block>, b: Block)
    requires BreaksOff(es, m, bs, b)
    ensures var w := Finished(Run(INITIAL, es));
            w.final.Some? && w.final.value.output == w.outputs &&
            Bodies(w.outputs)
            == match b
               case TextBlock(_) => ClosedBodies(bs) + [MessageOut(OpenTexts(bs))]
               case ThinkingBlock(ps) => ClosedBodies(bs) + [ReasoningOut(Concat(ps))]
               case ToolBlock(_, _, _) =>
                 ClosedBodies(bs) + Message(OpenTexts(bs)) + [CallBody(b, Spill(OpenTexts(bs), HeldJson(bs)))]
               case OtherBlock(_) => AllBodies(bs)
  {
    var start := MessageStart(Some(m));
    var v := Step(INITIAL, start);
    hide Concat, BlocksEvents, Begun, OpenTexts, HeldJson, ClosedBodies, OnMessage, Telling, Spill, CallBody, Lapses, Accounted,
      Between, Message, Bodies;
    QuietErased(INITIAL, es);
    RunOne(INITIAL, start);
    RunAppend(INITIAL, [start], BlocksEvents(bs));
    RunAppend(INITIAL, [start] + BlocksEvents(bs), Begun(b));
    BlocksRun(v, bs);
    var w := Run(v, BlocksEvents(bs));
    BegunRun(w, b);
    CutBlock(w, b, OpenTexts(bs), HeldJson(bs), Lapses(bs));
    assert v.header.created by { CreatedBy(INITIAL.header, Some(m)); }
  }

  lemma BodiesSnoc(outputs: seq<Output>, o: Output)
    ensures Bodies(outputs + [o]) == Bodies(outputs) + [o.body]
  {
  }

  lemma CutBlock(v: View, b: Block, texts: seq<string>, held: string, lapses: nat)
    requires Between(v, texts, held) && Accounted(v, texts, lapses)
    ensures var o := OnOpening(v, OpeningOf(b));
            var c := Closed(o.(now := Collected(o.now, b, b.pieces)));
            c.header == v.header && c.final == v.final &&
            Bodies(c.outputs)
            == match b
               case TextBlock(_) => Bodies(v.outputs) + [MessageOut(texts)]
               case ThinkingBlock(ps) => Bodies(v.outputs) + [ReasoningOut(Concat(ps))]
               case ToolBlock(_, _, _) => Bodies(v.outputs) + Message(texts) + [CallBody(b, Spill(texts, held))]
               case OtherBlock(_) => Bodies(v.outputs) + Message(texts)
  {
    assert "" + Concat(b.pieces) == Concat(b.pieces);
    hide Concat, Bodies, Accounted;
    var o := OnOpening(v, OpeningOf(b));
    var c := Closed(o.(now := Collected(o.now, b, b.pieces)));
    match b
    case TextBlock(_) => BodiesSnoc(v.outputs, Output(o.now.item, MessageOut(texts)));
    case ThinkingBlock(ps) => BodiesSnoc(v.outputs, Output(Some(v.minted), ReasoningOut(Concat(ps))));
    case ToolBlock(_, _, _) =>
      ClosedRun(v, texts, held, lapses);
      BodiesSnoc(Closed(v).outputs, Output(Some(v.minted), CallBody(b, Spill(texts, held))));
    case OtherBlock(_) =>
      if texts != [] {
        BodiesSnoc(v.outputs, Output(v.now.item, MessageOut(texts)));
      } else {
        assert Bodies(v.outputs) + [] == Bodies(v.outputs);
      }
  }

  /** So the text in the terminal event is that of the blocks before. */
  lemma CutTextIsLost(es: seq<AnthropicEvent>, m: Start, bs: seq<Block>, b: Block)
    requires BreaksOff(es, m, bs, b) && b.TextBlock?
    ensures Words(Bodies(Finished(Run(INITIAL, es)).outputs)) == Words(AllBodies(bs))
  {
    hide Run, Finished, CutEvents, Telling, Concat, Words, Bodies, OpenTexts, ClosedBodies;
    BrokenOff(es, m, bs, b);
    ReadMessage(OpenTexts(bs));
    ReadAppend(ClosedBodies(bs), Message(OpenTexts(bs)));
    ReadSnoc(ClosedBodies(bs), MessageOut(OpenTexts(bs)));
  }
}
