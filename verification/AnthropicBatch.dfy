/** The non-streaming conversion of a Chat Completions response, and when the
    stream of the same message assembles to the same blocks. */
module AnthropicBatch {
  import opened Common
  import opened ChatChunks
  import opened AnthropicProtocol
  import opened AnthropicAssembly
  import opened AnthropicStreamLaws
  import opened AnthropicToolOrder

  function ToolCallBlock(t: ToolCall): Block {
    ToolUseBlock(FromResponsesCallId(Given(t.id)), t.name, if IsBlank(t.arguments) then "{}" else t.arguments)
  }

  /** chatMessageToAnthropicBlocks, before sanitizeAnthropicToolUseInput. */
  function MessageBlocks(m: ChatMessage): seq<Block> {
    var text := if m.text == "" && !IsBlank(m.reasoning) && m.toolCalls == [] then m.reasoning else m.text;
    (if m.reasoning != "" then [ThinkingBlock(m.reasoning)] else [])
    + (if text != "" || m.toolCalls == [] then [TextBlock(text)] else [])
    + seq(|m.toolCalls|, i requires 0 <= i < |m.toolCalls| => ToolCallBlock(m.toolCalls[i]))
  }

  /** chatFinishReasonToAnthropicStopReason with containsAnthropicToolUseBlock */
  function BatchStopReason(finish: string, blocks: seq<Block>): string {
    if finish == "length" then "max_tokens"
    else if finish == "tool_calls" then "tool_use"
    else if exists i | 0 <= i < |blocks| :: blocks[i].ToolUseBlock? then "tool_use"
    else "end_turn"
  }

  // ----- Chunk boundaries do not matter -----

  /** Two assemblies that differ only in what chunk headers carry. */
  ghost predicate SameWork(a: Assembly, b: Assembly) {
    a.client.blocks == b.client.blocks && a.client.open == b.client.open && a.slots == b.slots && a.minted == b.minted
  }

  lemma SameWorkClosed(a: Assembly, b: Assembly)
    requires SameWork(a, b)
    ensures Closed(a.client).blocks == Closed(b.client).blocks && Closed(a.client).open == Closed(b.client).open
  {
  }

  lemma SameWorkStreamed(a: Assembly, b: Assembly, kind: DeltaKind, empty: Block, text: string)
    requires SameWork(a, b)
    ensures SameWork(a.(client := Streamed(a.client, kind, empty, text)), b.(client := Streamed(b.client, kind, empty, text)))
  {
    SameWorkClosed(a, b);
  }

  lemma SameWorkPlaced(a: Assembly, b: Assembly, k: int, id: CallId, name: string, args: string)
    requires SameWork(a, b)
    ensures SameWork(Place(a, k, id, name, args), Place(b, k, id, name, args))
  {
    SameWorkClosed(a, b);
  }

  lemma SameWorkAnnounced(a: Assembly, b: Assembly, k: int, id: string, name: string)
    requires SameWork(a, b)
    ensures SameWork(Announce(a, k, id, name), Announce(b, k, id, name))
  {
    hide Place, Closed;
    SameWorkClosed(a, b);
    if k !in a.slots {
      var callId := if id == "" then Minted(a.minted) else Given(id);
      var n := if id == "" then a.minted + 1 else a.minted;
      SameWorkPlaced(a.(minted := n), b.(minted := n), k, callId, name, "");
    } else if a.slots[k].Waiting? && name != "" {
      SameWorkPlaced(a, b, k, if id != "" then Given(id) else a.slots[k].id, name, a.slots[k].args);
    }
  }

  lemma SameWorkTool(a: Assembly, b: Assembly, k: int, id: string, name: string, args: string)
    requires SameWork(a, b)
    ensures SameWork(OnTool(a, k, id, name, args), OnTool(b, k, id, name, args))
  {
    hide Announce, Closed;
    SameWorkClosed(a, b);
    SameWorkAnnounced(a.(client := ClosedIf(a.client, ThinkingDelta)), b.(client := ClosedIf(b.client, ThinkingDelta)), k, id, name);
  }

  /** A fragment works alike on both; a chunk header or finish reason on neither. */
  lemma SameWorkInput(v: View, w: View, i: Input)
    requires SameWork(v.it, w.it) && !i.End?
    ensures if i.Head? || i.Finish? then SameWork(OnInput(v, i).it, w.it) else SameWork(OnInput(v, i).it, OnInput(w, i).it)
  {
    hide Streamed, OnTool;
    match i
    case Reasoning(t) => SameWorkStreamed(v.it, w.it, ThinkingDelta, ThinkingBlock(""), t);
    case Text(t) => SameWorkStreamed(v.it, w.it, TextDelta, TextBlock(""), t);
    case Tool(k, id, name, args) => SameWorkTool(v.it, w.it, k, id, name, args);
    case Head(_, _, _) =>
    case Finish(_) =>
  }

  /** Where chunks begin, and when the finish reason comes, changes no block. */
  lemma {:induction false} ChunkingIrrelevant(v: View, ins: seq<Input>)
    requires End !in ins
    ensures SameWork(Run(v, ins).it, Run(v, Fragments(ins)).it)
  {
    if ins != [] {
      hide SameWork, OnInput;
      var before, i := Init(ins), Last(ins);
      assert before + [i] == ins;
      ChunkingIrrelevant(v, before);
      SameWorkInput(Run(v, before), Run(v, Fragments(before)), i);
      if i.Head? || i.Finish? {
        assert Fragments(ins) == Fragments(before);
      } else {
        RunSnoc(v, Fragments(before), i);
      }
    } else {
      SameWorkSelf(v.it);
    }
  }

  lemma SameWorkSelf(a: Assembly)
    ensures SameWork(a, a)
  {
  }

  // ----- Which blocks the inputs open -----

  function KindOf(b: Block): DeltaKind {
    match b
    case ThinkingBlock(_) => ThinkingDelta
    case TextBlock(_) => TextDelta
    case ToolUseBlock(_, _, _) => InputJsonDelta
  }

  predicate Names(before: seq<Input>, i: Input) {
    i.Tool? && i.name != "" && FirstNameOf(before, i.index) == ""
  }

  /** The kind of the block that is open after these inputs. */
  function OpenAfter(ins: seq<Input>): Option<DeltaKind> {
    if ins == [] then None
    else
      var before, i := Init(ins), Last(ins);
      var open := OpenAfter(before);
      match i
      case Reasoning(t) => if t == "" then open else Some(ThinkingDelta)
      case Text(t) => if t == "" then open else Some(TextDelta)
      case Tool(k, _, _, _) =>
        if Names(before, i) then Some(InputJsonDelta)
        else if k !in SeenOf(before) || open == Some(ThinkingDelta) then None
        else open
      case _ => open
  }

  /** The block an input opens, if any. */
  function Opens(before: seq<Input>, i: Input): seq<DeltaKind> {
    match i
    case Reasoning(t) => if t == "" || OpenAfter(before) == Some(ThinkingDelta) then [] else [ThinkingDelta]
    case Text(t) => if t == "" || OpenAfter(before) == Some(TextDelta) then [] else [TextDelta]
    case Tool(_, _, _, _) => if Names(before, i) then [InputJsonDelta] else []
    case _ => []
  }

  /** The kinds of the blocks these inputs open, in order. */
  function KindsOf(ins: seq<Input>): seq<DeltaKind> {
    if ins == [] then [] else KindsOf(Init(ins)) + Opens(Init(ins), Last(ins))
  }

  predicate Follows(a: DeltaKind, b: DeltaKind) {
    match a
    case ThinkingDelta => !b.ThinkingDelta?
    case _ => b.InputJsonDelta?
  }

  /** At most one thinking block, then at most one text block, then tools. */
  predicate Orderly(kinds: seq<DeltaKind>) {
    forall i, j | 0 <= i < j < |kinds| :: Follows(kinds[i], kinds[j])
  }

  function Kinds(bs: seq<Block>): seq<DeltaKind> {
    seq(|bs|, i requires 0 <= i < |bs| => KindOf(bs[i]))
  }

  /** Text and thinking blocks are never empty. */
  predicate Solid(bs: seq<Block>) {
    forall i | 0 <= i < |bs| && !bs[i].ToolUseBlock? :: bs[i].body != ""
  }

  function OpenKind(c: Client): Option<DeltaKind> {
    if c.open && c.blocks != [] then Some(KindOf(Last(c.blocks))) else None
  }

  ghost predicate Shaped(c: Client, kinds: seq<DeltaKind>, open: Option<DeltaKind>) {
    Kinds(c.blocks) == kinds && Solid(c.blocks) && OpenKind(c) == open && (c.open ==> c.blocks != [])
  }

  lemma ClosedShaped(c: Client, kinds: seq<DeltaKind>, open: Option<DeltaKind>)
    requires Shaped(c, kinds, open)
    ensures Shaped(Closed(c), kinds, None)
    ensures Shaped(ClosedIf(c, ThinkingDelta), kinds, if open == Some(ThinkingDelta) then None else open)
  {
  }

  lemma StreamedShaped(c: Client, kinds: seq<DeltaKind>, open: Option<DeltaKind>, kind: DeltaKind, empty: Block, text: string)
    requires Shaped(c, kinds, open) && KindOf(empty) == kind && !kind.InputJsonDelta? && text != ""
    ensures Shaped(Streamed(c, kind, empty, text), kinds + (if open == Some(kind) then [] else [kind]), Some(kind))
  {
    ClosedShaped(c, kinds, open);
    hide Closed;
    var d := Streamed(c, kind, empty, text);
    assert OpenIs(c, kind) <==> open == Some(kind);
    if open == Some(kind) {
      assert d.blocks == c.blocks[|c.blocks| - 1 := Extend(Last(c.blocks), text)];
      assert Kinds(d.blocks) == kinds == kinds + [];
    } else {
      assert d.blocks == Closed(c).blocks + [Extend(empty, text)];
      assert Kinds(d.blocks) == kinds + [kind];
    }
  }

  lemma PlacedShaped(a: Assembly, kinds: seq<DeltaKind>, open: Option<DeltaKind>, k: int, id: CallId, name: string, args: string)
    requires Shaped(a.client, kinds, open)
    ensures Shaped(Place(a, k, id, name, args).client, kinds + [InputJsonDelta], Some(InputJsonDelta))
  {
    ClosedShaped(a.client, kinds, open);
    hide Closed;
  }

  lemma FedShaped(a: Assembly, kinds: seq<DeltaKind>, open: Option<DeltaKind>, k: int, args: string)
    requires Shaped(a.client, kinds, open) && PlacedWell(a, k)
    ensures Shaped(Feed(a, k, args).client, kinds, open)
  {
  }

  lemma AnnouncedShaped(a: Assembly, ins: seq<Input>, i: Input, open: Option<DeltaKind>)
    requires i.Tool? && Shaped(a.client, KindsOf(ins), open) && a.slots.Keys == SeenOf(ins)
    requires forall k | k in a.slots :: a.slots[k].Waiting? <==> FirstNameOf(ins, k) == ""
    requires forall k | k !in a.slots :: FirstNameOf(ins, k) == ""
    ensures Shaped(Announce(a, i.index, i.id, i.name).client, KindsOf(ins) + Opens(ins, i),
                   if Names(ins, i) then Some(InputJsonDelta) else if i.index !in SeenOf(ins) then None else open)
  {
    hide Shaped, Closed, Place, FirstNameOf, SeenOf, KindsOf;
    var k := i.index;
    assert KindsOf(ins) + [] == KindsOf(ins);
    ClosedShaped(a.client, KindsOf(ins), open);
    if k !in a.slots {
      var callId := if i.id == "" then Minted(a.minted) else Given(i.id);
      var b := a.(minted := if i.id == "" then a.minted + 1 else a.minted);
      PlacedShaped(b, KindsOf(ins), open, k, callId, i.name, "");
    } else if a.slots[k].Waiting? && i.name != "" {
      PlacedShaped(a, KindsOf(ins), open, k, if i.id != "" then Given(i.id) else a.slots[k].id, i.name, a.slots[k].args);
    }
  }

  lemma ToolShaped(v: View, ins: seq<Input>, i: Input)
    requires i.Tool? && InStep(v, ins) && Shaped(v.it.client, KindsOf(ins), OpenAfter(ins)) && CanFeed(v.it, i)
    ensures Shaped(OnInput(v, i).it.client, KindsOf(ins + [i]), OpenAfter(ins + [i]))
  {
    InitOfSnoc(ins, i);
    WaitingUnnamed(v.it, ins);
    AgreedKeys(v.it, ins, OwnerOf(ins), PaddedOf(ins));
    hide Shaped, Closed, Announce, Feed, FirstNameOf, SeenOf, Agrees, OwnerOf, PaddedOf, LateOf, Sound;
    var a := v.it.(client := ClosedIf(v.it.client, ThinkingDelta));
    ClosedShaped(v.it.client, KindsOf(ins), OpenAfter(ins));
    var open := if OpenAfter(ins) == Some(ThinkingDelta) then None else OpenAfter(ins);
    AnnouncedShaped(a, ins, i, open);
    FedShaped(Announce(a, i.index, i.id, i.name), KindsOf(ins + [i]), OpenAfter(ins + [i]), i.index, i.arguments);
  }

  lemma AgreedKeys(a: Assembly, ins: seq<Input>, owner: Option<int>, padded: set<int>)
    requires Agrees(a, ins, owner, padded)
    ensures a.slots.Keys == SeenOf(ins)
  {
  }

  lemma OtherShaped(v: View, ins: seq<Input>, i: Input)
    requires !i.Tool? && !i.End? && Shaped(v.it.client, KindsOf(ins), OpenAfter(ins))
    ensures Shaped(OnInput(v, i).it.client, KindsOf(ins + [i]), OpenAfter(ins + [i]))
  {
    InitOfSnoc(ins, i);
    assert KindsOf(ins) + [] == KindsOf(ins);
    hide Streamed, KindsOf;
    match i
    case Reasoning(t) =>
      if t != "" {
        StreamedShaped(v.it.client, KindsOf(ins), OpenAfter(ins), ThinkingDelta, ThinkingBlock(""), t);
      }
    case Text(t) =>
      if t != "" {
        StreamedShaped(v.it.client, KindsOf(ins), OpenAfter(ins), TextDelta, TextBlock(""), t);
      }
    case Head(_, _, _) =>
    case Finish(_) =>
  }

  /** The blocks held at any time are of the kinds the inputs opened. */
  lemma {:induction false} RunShaped(v: View, ins: seq<Input>)
    requires v == InitialView(v.responseId, v.model) && End !in ins
    ensures Shaped(Run(v, ins).it.client, KindsOf(ins), OpenAfter(ins))
  {
    if ins != [] {
      var before, i := Init(ins), Last(ins);
      assert before + [i] == ins;
      hide Shaped, OnInput, InStep, KindsOf, OpenAfter;
      RunShaped(v, before);
      if i.Tool? {
        RunInStep(v, before);
        RunCanFeed(v, before, i);
        ToolShaped(Run(v, before), before, i);
      } else {
        OtherShaped(Run(v, before), before, i);
      }
    }
  }

  // ----- The blocks at the end -----

  /** Some blocks, and then only tools. */
  ghost predicate Extends(kinds: seq<DeltaKind>, more: seq<DeltaKind>) {
    |kinds| <= |more| && more[..|kinds|] == kinds && forall i | |kinds| <= i < |more| :: more[i].InputJsonDelta?
  }

  lemma ExtendsOrderly(kinds: seq<DeltaKind>, more: seq<DeltaKind>)
    requires Extends(kinds, more)
    ensures Orderly(more) <==> Orderly(kinds)
  {
    forall i | 0 <= i < |kinds| ensures more[i] == kinds[i] {
      assert more[..|kinds|][i] == more[i];
    }
  }

  lemma {:induction false} PlaceAllShaped(a: Assembly, ks: seq<int>, kinds: seq<DeltaKind>)
    requires a.client.open ==> a.client.blocks != []
    requires Solid(a.client.blocks) && Extends(kinds, Kinds(a.client.blocks))
    ensures var c := PlaceAll(a, ks).client;
            (c.open ==> c.blocks != []) && Solid(c.blocks) && Extends(kinds, Kinds(c.blocks))
  {
    if ks != [] {
      hide Place;
      PlaceAllShaped(a, Init(ks), kinds);
      var b, k := PlaceAll(a, Init(ks)), Last(ks);
      if k in b.slots && b.slots[k].Waiting? {
        PlacedShaped(b, Kinds(b.client.blocks), OpenKind(b.client), k, b.slots[k].id, "", b.slots[k].args);
      }
    }
  }

  lemma EndShaped(v: View, ins: seq<Input>)
    requires v == InitialView(v.responseId, v.model) && End !in ins
    ensures var bs := Run(v, ins + [End]).it.client.blocks;
            Solid(bs) && (Orderly(Kinds(bs)) <==> Orderly(KindsOf(ins)))
  {
    hide Run, KindsOf, PlaceAll, Closed, Sorted;
    RunSnoc(v, ins, End);
    RunOpen(v, ins);
    RunShaped(v, ins);
    var w := Run(v, ins);
    var a := w.it.(client := Started(w.it.client, w.responseId, w.model));
    var ks := Sorted(WaitingKeys(a));
    PlaceAllShaped(a, ks, KindsOf(ins));
    var c := PlaceAll(a, ks).client;
    ClosedShaped(c, Kinds(c.blocks), OpenKind(c));
    ExtendsOrderly(KindsOf(ins), Kinds(c.blocks));
  }

  function Optional(b: Block): seq<Block> {
    if b.body == "" then [] else [b]
  }

  /** One thinking block, one text block, then tools. */
  function Laid(reasoning: string, text: string, tools: seq<Block>): seq<Block> {
    Optional(ThinkingBlock(reasoning)) + Optional(TextBlock(text)) + tools
  }

  predicate OnlyTools(bs: seq<Block>) {
    forall i | 0 <= i < |bs| :: bs[i].ToolUseBlock?
  }

  lemma LaidOrderly(reasoning: string, text: string, tools: seq<Block>)
    requires OnlyTools(tools)
    ensures Orderly(Kinds(Laid(reasoning, text, tools)))
  {
  }

  lemma {:induction false} NothingSpoken(bs: seq<Block>, kind: DeltaKind)
    requires forall i | 0 <= i < |bs| :: KindOf(bs[i]) != kind
    ensures BodiesOf(bs, kind) == ""
  {
    if bs != [] {
      NothingSpoken(Init(bs), kind);
    }
  }

  lemma {:induction false} NoTools(bs: seq<Block>)
    requires forall i | 0 <= i < |bs| :: !bs[i].ToolUseBlock?
    ensures ToolBlocks(bs) == []
  {
    if bs != [] {
      NoTools(Init(bs));
    }
  }

  lemma OrderlyInit(bs: seq<Block>)
    requires Solid(bs) && Orderly(Kinds(bs)) && bs != []
    ensures Solid(Init(bs)) && Orderly(Kinds(Init(bs)))
    ensures forall i | 0 <= i < |Init(bs)| :: Follows(KindOf(Init(bs)[i]), KindOf(Last(bs)))
    ensures !Last(bs).ToolUseBlock? ==> Last(bs).body != ""
  {
    assert forall i | 0 <= i < |bs| - 1 :: Kinds(bs)[i] == Kinds(Init(bs))[i];
    forall i | 0 <= i < |Init(bs)| ensures Follows(KindOf(Init(bs)[i]), KindOf(Last(bs))) {
      assert Follows(Kinds(bs)[i], Kinds(bs)[|bs| - 1]);
    }
  }

  /** Orderly blocks are laid out like that. */
  lemma {:induction false} OrderlyLaid(bs: seq<Block>)
    requires Solid(bs) && Orderly(Kinds(bs))
    ensures bs == Laid(BodiesOf(bs, ThinkingDelta), BodiesOf(bs, TextDelta), ToolBlocks(bs))
  {
    if bs != [] {
      var before, b := Init(bs), Last(bs);
      OrderlyInit(bs);
      OrderlyLaid(before);
      assert bs == before + [b];
      SpokenLast(bs);
      var r, t := BodiesOf(before, ThinkingDelta), BodiesOf(before, TextDelta);
      hide Orderly, Solid, BodiesOf, ToolBlocks;
      match b
      case ToolUseBlock(_, _, _) =>
        Associates(Optional(ThinkingBlock(r)) + Optional(TextBlock(t)), ToolBlocks(before), [b]);
      case TextBlock(_) =>
        NothingSpoken(before, TextDelta);
        NoTools(before);
        assert "" + b.body == b.body;
      case ThinkingBlock(_) =>
        NothingSpoken(before, ThinkingDelta);
        NothingSpoken(before, TextDelta);
        NoTools(before);
        assert "" + b.body == b.body;
    }
  }

  /** What the last block adds. */
  lemma SpokenLast(bs: seq<Block>)
    requires bs != []
    ensures forall kind ::
              BodiesOf(bs, kind)
              == if KindOf(Last(bs)) == kind then BodiesOf(Init(bs), kind) + Last(bs).body else BodiesOf(Init(bs), kind)
    ensures ToolBlocks(bs) == if Last(bs).ToolUseBlock? then ToolBlocks(Init(bs)) + [Last(bs)] else ToolBlocks(Init(bs))
  {
    assert forall kind :: BodiesOf(Init(bs), kind) + "" == BodiesOf(Init(bs), kind);
  }

  lemma ToolsOnly(ins: seq<Input>, ks: seq<int>)
    ensures OnlyTools(BlocksFor(ins, ks))
  {
  }

  /** The reasoning in one thinking block, the text in one text block, the tools in
      their order: that is what a client ends up with exactly when the inputs open
      their blocks in an orderly way. */
  lemma StreamAssembles(v: View, ins: seq<Input>)
    requires v == InitialView(v.responseId, v.model) && End !in ins
    ensures Run(v, ins + [End]).it.client.blocks == Laid(ReasoningOf(ins), TextOf(ins), BlocksFor(ins, BlockOrder(ins)))
            <==> Orderly(KindsOf(ins))
  {
    hide Run, KindsOf, Orderly, Kinds, Solid, BlocksFor, BlockOrder, Laid, BodiesOf, SeenOf, OnlyTools;
    EndShaped(v, ins);
    NoTextLost(v, ins + [End]);
    EndSilent(ins);
    EveryToolDelivered(v, ins);
    var bs := Run(v, ins + [End]).it.client.blocks;
    ToolsOnly(ins, BlockOrder(ins));
    LaidOrderly(ReasoningOf(ins), TextOf(ins), BlocksFor(ins, BlockOrder(ins)));
    if Orderly(KindsOf(ins)) {
      OrderlyLaid(bs);
    }
  }

  lemma EndSilent(ins: seq<Input>)
    ensures ReasoningOf(ins + [End]) == ReasoningOf(ins) && TextOf(ins + [End]) == TextOf(ins)
  {
    InitOfSnoc(ins, End);
  }

  // ----- Streaming refines batch -----

  /** The k-th tool is shown as the non-streaming conversion shows the j-th call: it
      kept the id that came last, the first name is the last one, and the arguments
      agree, an empty or blank text being shown as "{}". */
  predicate ShowsAs(ins: seq<Input>, k: int, j: int) {
    && FromResponsesCallId(KeptIdOf(ins, k)) == FromResponsesCallId(Given(LastIdOf(ins, j)))
    && FirstNameOf(ins, k) == LastNameOf(ins, j)
    && AssembledArgs(ins, k) == if IsBlank(ArgsOf(ins, j)) then "{}" else ArgsOf(ins, j)
  }

  /** The tools in the order of their blocks are the calls in the order of their
      indices. */
  predicate CallsMatch(ins: seq<Input>) {
    var order, ks := BlockOrder(ins), Sorted(SeenOf(ins));
    forall i | 0 <= i < |order| && i < |ks| :: ShowsAs(ins, order[i], ks[i])
  }

  function BatchTools(calls: seq<ToolCall>): seq<Block> {
    seq(|calls|, i requires 0 <= i < |calls| => ToolCallBlock(calls[i]))
  }

  lemma {:induction false} SameLength(order: seq<int>, s: set<int>)
    requires NoRepeat(order) && forall k :: k in order <==> k in s
    ensures |order| == |s|
  {
    if order == [] {
      assert forall k :: k !in s;
      assert s == {};
    } else {
      var before, k := Init(order), Last(order);
      assert order == before + [k];
      assert k in order;
      forall j ensures j in before <==> j in s - {k} {
        if j in before {
          var i :| 0 <= i < |before| && before[i] == j;
          assert order[i] == j && order[|order| - 1] == k;
        }
      }
      SameLength(before, s - {k});
    }
  }

  lemma ToolListsAgree(ins: seq<Input>)
    requires |BlockOrder(ins)| == |Sorted(SeenOf(ins))|
    ensures BlocksFor(ins, BlockOrder(ins)) == BatchTools(MessageFor(ins).toolCalls) <==> CallsMatch(ins)
  {
    hide BlockOrder, Sorted, SeenOf, KeptIdOf, FirstNameOf, LastNameOf, LastIdOf, ArgsOf, AssembledArgs;
    var order, ks := BlockOrder(ins), Sorted(SeenOf(ins));
    var a, b := BlocksFor(ins, order), BatchTools(MessageFor(ins).toolCalls);
    forall i | 0 <= i < |ks| ensures a[i] == b[i] <==> ShowsAs(ins, order[i], ks[i]) {
    }
    if a == b {
      forall i | 0 <= i < |ks| ensures ShowsAs(ins, order[i], ks[i]) {
        assert a[i] == b[i];
      }
    }
  }

  lemma BatchLaid(m: ChatMessage)
    ensures m.text != "" || m.toolCalls != [] ==> MessageBlocks(m) == Laid(m.reasoning, m.text, BatchTools(m.toolCalls))
    ensures m.text == "" && m.toolCalls == [] ==> MessageBlocks(m) != [] && Last(MessageBlocks(m)).TextBlock?
  {
    assert BatchTools(m.toolCalls) == seq(|m.toolCalls|, i requires 0 <= i < |m.toolCalls| => ToolCallBlock(m.toolCalls[i]));
  }

  lemma BatchOnlyTools(calls: seq<ToolCall>)
    ensures OnlyTools(BatchTools(calls))
  {
  }

  lemma NoCalls(ins: seq<Input>)
    ensures MessageFor(ins).toolCalls == [] <==> SeenOf(ins) == {}
    ensures |MessageFor(ins).toolCalls| == |Sorted(SeenOf(ins))| == |SeenOf(ins)|
  {
    hide SeenOf;
  }

  /** Streaming refines batch: for every run, however the message was cut and its
      fragments interleaved, the assembled blocks are those of the non-streaming
      conversion of the message the fragments add up to, exactly when the blocks are
      opened in order, there is something besides reasoning, and the calls match. */
  lemma StreamRefinesBatch(v: View, ins: seq<Input>)
    requires v == InitialView(v.responseId, v.model) && End !in ins
    ensures Run(v, ins + [End]).it.client.blocks == MessageBlocks(MessageFor(ins))
            <==> Orderly(KindsOf(ins)) && (TextOf(ins) != "" || SeenOf(ins) != {}) && CallsMatch(ins)
  {
    var bs, m := Run(v, ins + [End]).it.client.blocks, MessageFor(ins);
    hide Run, KindsOf, Orderly, Kinds, Solid, BlocksFor, BlockOrder, BodiesOf, SeenOf, OnlyTools, MessageFor, MessageBlocks,
      CallsMatch, BatchTools, Sorted, Laid;
    StreamAssembles(v, ins);
    EveryToolDelivered(v, ins);
    SameLength(BlockOrder(ins), SeenOf(ins));
    NoCalls(ins);
    ToolListsAgree(ins);
    BatchLaid(m);
    SpokenOf(ins);
    BatchOnlyTools(m.toolCalls);
    if m.text != "" || m.toolCalls != [] {
      LaidApart(m.reasoning, m.text, BlocksFor(ins, BlockOrder(ins)), BatchTools(m.toolCalls));
      if bs == MessageBlocks(m) {
        LaidOrderly(m.reasoning, m.text, BatchTools(m.toolCalls));
        EndShaped(v, ins);
      }
    } else if bs == MessageBlocks(m) {
      NoTextBlock(v, ins);
    }
  }

  lemma SpokenOf(ins: seq<Input>)
    ensures MessageFor(ins).reasoning == ReasoningOf(ins) && MessageFor(ins).text == TextOf(ins)
  {
  }

  lemma LaidApart(reasoning: string, text: string, a: seq<Block>, b: seq<Block>)
    ensures Laid(reasoning, text, a) == Laid(reasoning, text, b) <==> a == b
  {
    TailsAgree(Optional(ThinkingBlock(reasoning)) + Optional(TextBlock(text)), a, b);
  }

  /** Without text the last block is no text block. */
  lemma NoTextBlock(v: View, ins: seq<Input>)
    requires v == InitialView(v.responseId, v.model) && End !in ins && TextOf(ins) == ""
    ensures var bs := Run(v, ins + [End]).it.client.blocks; bs != [] ==> !Last(bs).TextBlock?
  {
    hide Run, KindsOf;
    EndShaped(v, ins);
    NoTextLost(v, ins + [End]);
    EndSilent(ins);
  }

  // ----- Reasoning, then text, then whole calls -----

  /** The input does not fall back behind what came before: no reasoning after text or
      calls, no text after calls, no fragment for an earlier call. */
  predicate ComesInTurn(before: seq<Input>, i: Input) {
    match i
    case Reasoning(t) => t == "" || (TextOf(before) == "" && SeenOf(before) == {})
    case Text(t) => t == "" || SeenOf(before) == {}
    case Tool(k, _, _, _) => forall j | j in SeenOf(before) :: j <= k
    case _ => true
  }

  /** Reasoning, then text, then whole calls one after another. A call's id and name
      may come with any of its deltas, or not at all. */
  predicate InTurn(ins: seq<Input>) {
    ins == [] || (InTurn(Init(ins)) && ComesInTurn(Init(ins), Last(ins)))
  }

  function Spoken(ins: seq<Input>): seq<DeltaKind> {
    (if ReasoningOf(ins) != "" then [ThinkingDelta] else []) + (if TextOf(ins) != "" then [TextDelta] else [])
  }

  lemma SpokenSnoc(ins: seq<Input>)
    requires ins != []
    ensures var before, i := Init(ins), Last(ins);
            && ReasoningOf(ins) == ReasoningOf(before) + (if i.Reasoning? then i.text else "")
            && TextOf(ins) == TextOf(before) + (if i.Text? then i.text else "")
            && SeenOf(ins) == SeenOf(before) + (if i.Tool? then {i.index} else {})
            && KindsOf(ins) == KindsOf(before) + Opens(before, i)
            && (i.Reasoning? ==> OpenAfter(ins) == if i.text == "" then OpenAfter(before) else Some(ThinkingDelta))
            && (i.Text? ==> OpenAfter(ins) == if i.text == "" then OpenAfter(before) else Some(TextDelta))
            && (!i.Reasoning? && !i.Text? && !i.Tool? ==> OpenAfter(ins) == OpenAfter(before))
  {
  }

  /** While there are no calls, only what was spoken is open or closed. */
  predicate Speaking(ins: seq<Input>) {
    KindsOf(ins) == Spoken(ins) && OpenAfter(ins) == if Spoken(ins) == [] then None else Some(Last(Spoken(ins)))
  }

  lemma WordSpoken(ins: seq<Input>)
    requires ins != [] && Speaking(Init(ins)) && (Last(ins).Reasoning? || Last(ins).Text?)
    requires Last(ins).Reasoning? && Last(ins).text != "" ==> TextOf(Init(ins)) == ""
    ensures Speaking(ins)
  {
    SpokenSnoc(ins);
    hide KindsOf, OpenAfter, SeenOf, ReasoningOf, TextOf;
  }

  lemma OtherSpoken(ins: seq<Input>)
    requires ins != [] && Extends(Spoken(Init(ins)), KindsOf(Init(ins)))
    requires (Last(ins).Reasoning? || Last(ins).Text?) ==> Last(ins).text == ""
    ensures Extends(Spoken(ins), KindsOf(ins))
    ensures !Last(ins).Tool? && Speaking(Init(ins)) ==> Speaking(ins)
  {
    SpokenSnoc(ins);
    hide KindsOf, OpenAfter, SeenOf, ReasoningOf, TextOf, Extends;
    ExtendsMore(Spoken(Init(ins)), KindsOf(Init(ins)), Opens(Init(ins), Last(ins)));
    assert KindsOf(Init(ins)) + [] == KindsOf(Init(ins));
  }

  lemma {:induction false} SpokenInTurn(ins: seq<Input>)
    requires InTurn(ins)
    ensures Extends(Spoken(ins), KindsOf(ins))
    ensures SeenOf(ins) == {} ==> Speaking(ins)
  {
    if ins != [] {
      var before, i := Init(ins), Last(ins);
      SpokenInTurn(before);
      SpokenSnoc(ins);
      assert ComesInTurn(before, i);
      hide InTurn, KindsOf, OpenAfter, SeenOf, ReasoningOf, TextOf, Extends, Speaking, Spoken, Opens;
      if (i.Reasoning? || i.Text?) && i.text != "" {
        WordSpoken(ins);
        SpeakingExtends(ins);
      } else {
        OtherSpoken(ins);
        assert i.Tool? ==> i.index in SeenOf(ins);
      }
    }
  }

  lemma SpeakingExtends(ins: seq<Input>)
    requires Speaking(ins)
    ensures Extends(Spoken(ins), KindsOf(ins))
  {
    hide KindsOf, OpenAfter, Spoken;
    assert KindsOf(ins)[..|KindsOf(ins)|] == KindsOf(ins);
  }

  lemma ExtendsMore(kinds: seq<DeltaKind>, more: seq<DeltaKind>, tail: seq<DeltaKind>)
    requires kinds == more || Extends(kinds, more)
    requires forall i | 0 <= i < |tail| :: tail[i].InputJsonDelta?
    ensures Extends(kinds, more + tail)
  {
    assert (more + tail)[..|kinds|] == more[..|kinds|];
  }

  lemma {:induction false} OwnerNamed(ins: seq<Input>)
    ensures OwnerOf(ins).Some? ==> OwnerOf(ins).value in SeenOf(ins) && FirstNameOf(ins, OwnerOf(ins).value) != ""
  {
    if ins != [] {
      OwnerNamed(Init(ins));
    }
  }

  /** A later call came. */
  ghost predicate Passed(ins: seq<Input>, k: int) {
    exists j :: j in SeenOf(ins) && k < j
  }

  lemma PassedStays(ins: seq<Input>, k: int)
    requires ins != [] && Passed(Init(ins), k) && ComesInTurn(Init(ins), Last(ins))
    ensures Passed(ins, k) && ArgsOf(ins, k) == ArgsOf(Init(ins), k)
  {
    var j :| j in SeenOf(Init(ins)) && k < j;
    assert j in SeenOf(ins);
  }

  /** A block that ended without arguments gets none afterwards. */
  lemma {:induction false} PaddedPassed(ins: seq<Input>, k: int)
    requires InTurn(ins) && k in PaddedOf(ins)
    ensures ArgsOf(ins, k) == "" && Passed(ins, k)
  {
    var before, i := Init(ins), Last(ins);
    if k in PaddedOf(before) {
      PaddedPassed(before, k);
      PassedStays(ins, k);
    } else {
      OwnerNamed(before);
      assert i.Tool? && k < i.index && i.index in SeenOf(ins);
    }
  }

  lemma {:induction false} NamedAre(ins: seq<Input>, k: int)
    ensures k in NamedOrder(ins) <==> FirstNameOf(ins, k) != ""
    ensures FirstNameOf(ins, k) != "" ==> k in SeenOf(ins)
  {
    if ins != [] {
      NamedAre(Init(ins), k);
    }
  }

  lemma {:induction false} NamedOrderAscends(ins: seq<Input>)
    requires InTurn(ins)
    ensures Ascending(NamedOrder(ins))
  {
    if ins != [] {
      var before, i := Init(ins), Last(ins);
      NamedOrderAscends(before);
      assert ComesInTurn(before, i);
      hide InTurn, FirstNameOf, SeenOf;
      var order := NamedOrder(before);
      forall n | 0 <= n < |order| && Names(before, i) ensures order[n] < i.index {
        assert order[n] in order;
        NamedAre(before, order[n]);
      }
    }
  }

  lemma NamesInTurn(ins: seq<Input>)
    requires InTurn(ins)
    ensures Ascending(NamedOrder(ins))
    ensures forall k :: k in NamedOrder(ins) <==> k in SeenOf(ins) && FirstNameOf(ins, k) != ""
  {
    hide InTurn, FirstNameOf, SeenOf, NamedOrder;
    NamedOrderAscends(ins);
    forall k ensures k in NamedOrder(ins) <==> k in SeenOf(ins) && FirstNameOf(ins, k) != "" {
      NamedAre(ins, k);
    }
  }

  /** No call whose name never came is numbered before one that has a name. */
  predicate NamesFirst(ins: seq<Input>) {
    forall j, k | j in SeenOf(ins) && k in SeenOf(ins) && FirstNameOf(ins, j) == "" && FirstNameOf(ins, k) != "" :: k < j
  }

  lemma OrderInTurn(ins: seq<Input>)
    requires InTurn(ins) && NamesFirst(ins)
    ensures BlockOrder(ins) == Sorted(SeenOf(ins))
  {
    NamesInTurn(ins);
    hide SeenOf, FirstNameOf, NamedOrder, InTurn;
    var a, b := NamedOrder(ins), Sorted(UnnamedOf(ins));
    forall m, n | 0 <= m < |a| && 0 <= n < |b| ensures a[m] < b[n] {
      assert a[m] in a && b[n] in b;
    }
    AscendingUnique(BlockOrder(ins), Sorted(SeenOf(ins)));
  }

  lemma {:induction false} NamedAtAll(ins: seq<Input>, k: int)
    ensures LastNameOf(ins, k) == "" <==> FirstNameOf(ins, k) == ""
  {
    if ins != [] {
      NamedAtAll(Init(ins), k);
    }
  }

  /** When the calls match, those without a name come last. */
  lemma MatchedNamesFirst(ins: seq<Input>)
    requires InTurn(ins) && CallsMatch(ins) && |BlockOrder(ins)| == |Sorted(SeenOf(ins))|
    ensures NamesFirst(ins)
  {
    hide SeenOf, FirstNameOf, NamedOrder, LastNameOf, LastIdOf, KeptIdOf, ArgsOf, AssembledArgs, InTurn, ShowsAs;
    var order, ks, n := BlockOrder(ins), Sorted(SeenOf(ins)), |NamedOrder(ins)|;
    NamesInTurn(ins);
    forall i | 0 <= i < |ks| ensures FirstNameOf(ins, ks[i]) != "" <==> i < n {
      assert ShowsAs(ins, order[i], ks[i]);
      SameName(ins, order[i], ks[i]);
      NamedAtAll(ins, ks[i]);
      if i < n {
        assert order[i] == NamedOrder(ins)[i] && order[i] in NamedOrder(ins);
      } else {
        assert order[i] == Sorted(UnnamedOf(ins))[i - n] && order[i] in Sorted(UnnamedOf(ins));
      }
    }
    forall j, k | j in SeenOf(ins) && k in SeenOf(ins) && FirstNameOf(ins, j) == "" && FirstNameOf(ins, k) != "" ensures k < j {
      assert j in ks && k in ks;
      var x :| 0 <= x < |ks| && ks[x] == j;
      var y :| 0 <= y < |ks| && ks[y] == k;
    }
  }

  lemma SameName(ins: seq<Input>, k: int, j: int)
    requires ShowsAs(ins, k, j)
    ensures FirstNameOf(ins, k) == LastNameOf(ins, j)
  {
  }

  /** The call is announced under the id and the name that came last, and its
      arguments are not just white space. */
  predicate FaithfulCall(ins: seq<Input>, k: int) {
    && FromResponsesCallId(KeptIdOf(ins, k)) == FromResponsesCallId(Given(LastIdOf(ins, k)))
    && FirstNameOf(ins, k) == LastNameOf(ins, k)
    && (ArgsOf(ins, k) == "" || !IsBlank(ArgsOf(ins, k)))
  }

  lemma ShownInTurn(ins: seq<Input>, k: int)
    requires InTurn(ins)
    ensures ShowsAs(ins, k, k) <==> FaithfulCall(ins, k)
  {
    if k in PaddedOf(ins) {
      PaddedPassed(ins, k);
    }
    var args := ArgsOf(ins, k);
    hide KeptIdOf, LastIdOf, FirstNameOf, LastNameOf, ArgsOf, PaddedOf, InTurn;
    assert "" + args == args;
    if args != "" && IsBlank(args) {
      assert IsSpace(args[0]) && !IsSpace("{}"[0]);
    }
  }

  lemma MatchInTurn(ins: seq<Input>)
    requires InTurn(ins) && |BlockOrder(ins)| == |Sorted(SeenOf(ins))|
    ensures CallsMatch(ins) <==> NamesFirst(ins) && forall k | k in SeenOf(ins) :: FaithfulCall(ins, k)
  {
    hide SeenOf, FirstNameOf, NamedOrder, InTurn, ShowsAs, FaithfulCall, NamesFirst, BlockOrder;
    var order, ks := BlockOrder(ins), Sorted(SeenOf(ins));
    if CallsMatch(ins) {
      MatchedNamesFirst(ins);
    }
    if NamesFirst(ins) {
      OrderInTurn(ins);
      forall k ensures ShowsAs(ins, k, k) <==> FaithfulCall(ins, k) {
        ShownInTurn(ins, k);
      }
      if CallsMatch(ins) {
        forall k | k in SeenOf(ins) ensures FaithfulCall(ins, k) {
          assert k in ks;
          var i :| 0 <= i < |ks| && ks[i] == k;
          assert ShowsAs(ins, order[i], ks[i]);
        }
      } else {
        var i :| 0 <= i < |order| && i < |ks| && !ShowsAs(ins, order[i], ks[i]);
        assert ks[i] in ks;
      }
    }
  }

  /** For reasoning, then text, then whole calls one after another, whatever the chunk
      boundaries and wherever a call's id and name come: the blocks are those of the
      non-streaming conversion exactly when there is text or a call, calls that never
      get a name come last, and each call is faithful. */
  lemma InTurnRefinesBatch(v: View, ins: seq<Input>)
    requires v == InitialView(v.responseId, v.model) && End !in ins && InTurn(ins)
    ensures Run(v, ins + [End]).it.client.blocks == MessageBlocks(MessageFor(ins))
            <==> (TextOf(ins) != "" || SeenOf(ins) != {}) && NamesFirst(ins) &&
                 forall k | k in SeenOf(ins) :: FaithfulCall(ins, k)
  {
    hide Run, KindsOf, BlockOrder, SeenOf, MessageFor, MessageBlocks, CallsMatch, Sorted, InTurn, FaithfulCall, NamesFirst,
      ToolBlocks, BlocksFor;
    StreamRefinesBatch(v, ins);
    EveryToolDelivered(v, ins);
    SameLength(BlockOrder(ins), SeenOf(ins));
    NoCalls(ins);
    MatchInTurn(ins);
    SpokenInTurn(ins);
    ExtendsOrderly(Spoken(ins), KindsOf(ins));
  }

  lemma LastTells(ins: seq<Input>, k: int, id: string, name: string, args: string)
    ensures var more := ins + [Tool(k, id, name, args)];
            && LastIdOf(more, k) == (if id != "" then id else LastIdOf(ins, k))
            && LastNameOf(more, k) == (if name != "" then name else LastNameOf(ins, k))
            && ArgsOf(more, k) == ArgsOf(ins, k) + args
            && SeenOf(more) == SeenOf(ins) + {k}
            && (InTurn(more) <==> InTurn(ins) && forall j | j in SeenOf(ins) :: j <= k)
  {
    InitOfSnoc(ins, Tool(k, id, name, args));
  }

  lemma DroppedId(id: string, name: string, args: string)
    ensures var ins := [Tool(0, "", "", "")] + [Tool(0, id, "", "")] + [Tool(0, "", name, args)];
            SeenOf(ins) == {0} && KeptIdOf(ins, 0) == Minted(0) && CallFor(ins, 0) == ToolCall(id, name, args) && InTurn(ins)
  {
    var x, y, z := Tool(0, "", "", ""), Tool(0, id, "", ""), Tool(0, "", name, args);
    var a := [x];
    var b := a + [y];
    assert SeenOf([]) == {} && MintedIn([]) == 0 && InTurn([]) && [] + [x] == a;
    assert LastIdOf([], 0) == LastNameOf([], 0) == ArgsOf([], 0) == FirstNameOf([], 0) == "";
    hide KeptIdOf, LastIdOf, LastNameOf, FirstNameOf, ArgsOf, InTurn, SeenOf, MintedIn, NamedOrder;
    ToolTells([], x);
    ToolTells(a, y);
    ToolTells(b, z);
    LastTells([], 0, "", "", "");
    LastTells(a, 0, id, "", "");
    LastTells(b, 0, "", name, args);
  }

  /** The id of a call comes after its first delta and before its name: the call goes
      out under an id that was drawn instead. */
  lemma LateIdIsLost(v: View, id: string, name: string, args: string)
    requires v == InitialView(v.responseId, v.model)
    ensures var ins := [Tool(0, "", "", "")] + [Tool(0, id, "", "")] + [Tool(0, "", name, args)];
            && InTurn(ins) && MessageFor(ins).toolCalls == [ToolCall(id, name, args)]
            && Run(v, ins + [End]).it.client.blocks != MessageBlocks(MessageFor(ins))
  {
    var ins := [Tool(0, "", "", "")] + [Tool(0, id, "", "")] + [Tool(0, "", name, args)];
    hide KeptIdOf, LastIdOf, LastNameOf, FirstNameOf, ArgsOf, InTurn, SeenOf, Run, MessageBlocks;
    DroppedId(id, name, args);
    OneSorted(ins);
    InTurnRefinesBatch(v, ins);
    assert !FaithfulCall(ins, 0);
  }

  lemma OneSorted(ins: seq<Input>)
    requires SeenOf(ins) == {0}
    ensures Sorted(SeenOf(ins)) == [0]
  {
    var s := Sorted(SeenOf(ins));
    assert |s| == 1 && s[0] in s;
  }

  // ----- Stop reason and usage -----

  /** The last usage a chunk carried. */
  function UsageOf(ins: seq<Input>): Usage {
    if ins == [] then NO_USAGE
    else if Last(ins).Head? && Last(ins).usage.Some? then AnthropicUsageOf(Last(ins).usage.value)
    else UsageOf(Init(ins))
  }

  lemma {:induction false} RunUsage(v: View, ins: seq<Input>)
    requires v == InitialView(v.responseId, v.model)
    ensures Run(v, ins).usage == UsageOf(ins)
  {
    if ins != [] {
      RunUsage(v, Init(ins));
    }
  }

  /** Stop reason and usage are those of the non-streaming conversion, for every run. */
  lemma EndingRefinesBatch(v: View, ins: seq<Input>)
    requires v == InitialView(v.responseId, v.model) && End !in ins
    ensures Run(v, ins + [End]).it.client.ending
            == Some((BatchStopReason(FinishOf(ins), MessageBlocks(MessageFor(ins))), UsageOf(ins)))
    ensures Run(v, ins + [End]).it.client.ending.value.0
            == if FinishOf(ins) == "length" then "max_tokens"
               else if FinishOf(ins) == "tool_calls" || SeenOf(ins) != {} then "tool_use" else "end_turn"
  {
    var w, m := Run(v, ins), MessageFor(ins);
    hide Run, PlaceAll, Sorted, OnInput, Closed, SeenOf, MessageFor, InStep;
    RunSnoc(v, ins, End);
    RunOpen(v, ins);
    RunUsage(v, ins);
    RunInStep(v, ins);
    AgreedKeysOf(w, ins);
    EndingOf(w);
    NoCalls(ins);
    if m.toolCalls != [] {
      var n := |MessageBlocks(m)| - |m.toolCalls|;
      assert MessageBlocks(m)[n].ToolUseBlock?;
    }
  }

  lemma AgreedKeysOf(v: View, ins: seq<Input>)
    requires InStep(v, ins)
    ensures v.it.slots.Keys == SeenOf(ins)
  {
  }

  lemma EndingOf(v: View)
    requires !v.it.client.stopped
    ensures OnInput(v, End).it.client.ending == Some((StopReason(v.finish, v.it.slots.Keys != {}), v.usage))
  {
  }

  // ----- message_start -----

  lemma {:induction false} RunHeaders(v: View, ins: seq<Input>)
    requires v == InitialView(v.responseId, v.model) && End !in ins
    ensures Run(v, ins).responseId == ResponseIdIn(ins, v.responseId) && Run(v, ins).model == ModelIn(ins, v.model)
  {
    if ins != [] {
      hide Streamed, OnTool;
      assert Init(ins) + [Last(ins)] == ins;
      RunHeaders(v, Init(ins));
    }
  }

  lemma InputMessage(v: View, i: Input)
    requires !i.End?
    ensures OnInput(v, i).it.client.message
            == if i.Head? && v.it.client.message.None? then Some((OnInput(v, i).responseId, OnInput(v, i).model))
               else v.it.client.message
  {
    hide Streamed, OnTool;
    match i
    case Tool(_, _, _, _) => OnToolKeeps(v.it, i);
    case Reasoning(t) => StreamedKeeps(v.it.client, ThinkingDelta, ThinkingBlock(""), t);
    case Text(t) => StreamedKeeps(v.it.client, TextDelta, TextBlock(""), t);
    case _ =>
  }

  lemma {:induction false} RunMessage(v: View, ins: seq<Input>)
    requires v == InitialView(v.responseId, v.model) && End !in ins
    ensures Run(v, ins).it.client.message
            == if HasHead(ins) then Some((ResponseIdIn(UpToHead(ins), v.responseId), ModelIn(UpToHead(ins), v.model))) else None
  {
    if ins != [] {
      hide OnInput, ResponseIdIn, ModelIn;
      assert Init(ins) + [Last(ins)] == ins;
      RunMessage(v, Init(ins));
      RunHeaders(v, ins);
      NoHeadYet(Init(ins));
      InputMessage(Run(v, Init(ins)), Last(ins));
    }
  }

  /** message_start carries the id and model known once the first chunk header was
      read, or at the end. */
  lemma MessageAtEnd(v: View, ins: seq<Input>)
    requires v == InitialView(v.responseId, v.model) && End !in ins
    ensures Run(v, ins + [End]).it.client.message
            == Some((ResponseIdIn(UpToHead(ins), v.responseId), ModelIn(UpToHead(ins), v.model)))
  {
    hide Run, PlaceAll, Sorted, Closed, ResponseIdIn, ModelIn;
    RunSnoc(v, ins, End);
    RunOpen(v, ins);
    RunMessage(v, ins);
    RunHeaders(v, ins);
    NoHeadYet(ins);
    EndMessage(Run(v, ins));
  }

  lemma EndMessage(v: View)
    requires !v.it.client.stopped
    ensures OnInput(v, End).it.client.message
            == if v.it.client.message.None? then Some((v.responseId, v.model)) else v.it.client.message
  {
    hide PlaceAll, Sorted;
    var a := v.it.(client := Started(v.it.client, v.responseId, v.model));
    PlaceAllKeeps(a, Sorted(WaitingKeys(a)));
  }
}
