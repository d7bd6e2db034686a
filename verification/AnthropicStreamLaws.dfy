/** What holds of every run of the Chat Completions to Anthropic stream: nothing
    delivered is lost, no tool is lost or doubled, and exactly when the assembled
    tool arguments and the strict reading of the protocol come out right. */
module AnthropicStreamLaws {
  import opened Common
  import opened ChatChunks
  import opened AnthropicProtocol
  import opened AnthropicAssembly

  // ----- Said about the inputs alone -----

  /** The tool whose block is open after these inputs. */
  function OwnerOf(ins: seq<Input>): Option<int> {
    if ins == [] then None
    else
      var before := Init(ins);
      match Last(ins)
      case Reasoning(t) => if t == "" then OwnerOf(before) else None
      case Text(t) => if t == "" then OwnerOf(before) else None
      case Tool(k, _, name, _) =>
        if name != "" && FirstNameOf(before, k) == "" then Some(k)
        else if k !in SeenOf(before) then None
        else OwnerOf(before)
      case _ => OwnerOf(before)
  }

  /** The tools whose block ended before their first argument fragment came. */
  function PaddedOf(ins: seq<Input>): set<int> {
    if ins == [] then {}
    else
      var before := Init(ins);
      var t := OwnerOf(before);
      PaddedOf(before)
      + (if t.Some? && OwnerOf(ins) != t && ArgsOf(before, t.value) == "" then {t.value} else {})
  }

  /** Some fragment came for a tool whose block was no longer open. */
  predicate LateOf(ins: seq<Input>) {
    ins != [] &&
    (LateOf(Init(ins)) ||
     (Last(ins).Tool? && Last(ins).arguments != "" &&
      FirstNameOf(ins, Last(ins).index) != "" && OwnerOf(ins) != Some(Last(ins).index)))
  }

  function PadOf(ins: seq<Input>, k: int): string {
    if k in PaddedOf(ins) then "{}" else ""
  }

  // ----- Reasoning and text -----

  /** The bodies of the blocks of one kind, one after the other. */
  function BodiesOf(bs: seq<Block>, kind: DeltaKind): string {
    if bs == [] then "" else BodiesOf(Init(bs), kind) + (if Accepts(Last(bs), kind) then Last(bs).body else "")
  }

  lemma {:induction false} BodiesAppended(bs: seq<Block>, at: nat, text: string, kind: DeltaKind)
    requires at < |bs| && (Accepts(bs[at], kind) ==> at == |bs| - 1)
    ensures BodiesOf(bs[at := Extend(bs[at], text)], kind)
            == BodiesOf(bs, kind) + (if Accepts(bs[at], kind) then text else "")
  {
    var cs := bs[at := Extend(bs[at], text)];
    if at == |bs| - 1 {
      assert Init(cs) == Init(bs);
    } else {
      assert Init(cs) == Init(bs)[at := Extend(bs[at], text)];
      BodiesAppended(Init(bs), at, text, kind);
    }
  }

  lemma BodiesOpened(bs: seq<Block>, b: Block, kind: DeltaKind)
    requires b.body == ""
    ensures BodiesOf(bs + [b], kind) == BodiesOf(bs, kind)
  {
    InitOfSnoc(bs, b);
  }

  /** Neither closing nor a tool touches what text and thinking blocks hold. */
  lemma ClosedBodies(c: Client, kind: DeltaKind)
    requires !kind.InputJsonDelta?
    ensures BodiesOf(Closed(c).blocks, kind) == BodiesOf(c.blocks, kind)
  {
    if OpenIs(c, InputJsonDelta) && Last(c.blocks).body == "" {
      BodiesAppended(c.blocks, |c.blocks| - 1, "{}", kind);
    }
  }

  lemma StreamedBodies(c: Client, kind: DeltaKind, empty: Block, text: string, seen: DeltaKind)
    requires !seen.InputJsonDelta? && Accepts(empty, kind) && empty.body == ""
    ensures BodiesOf(Streamed(c, kind, empty, text).blocks, seen)
            == BodiesOf(c.blocks, seen) + (if seen == kind then text else "")
  {
    var e := Ensured(c, kind, empty);
    if !OpenIs(c, kind) {
      ClosedBodies(c, seen);
      BodiesOpened(Closed(c).blocks, empty, seen);
    }
    BodiesAppended(e.blocks, |e.blocks| - 1, text, seen);
  }

  lemma PlacedBodies(a: Assembly, k: int, id: CallId, name: string, args: string, seen: DeltaKind)
    requires !seen.InputJsonDelta?
    ensures BodiesOf(Place(a, k, id, name, args).client.blocks, seen) == BodiesOf(a.client.blocks, seen)
  {
    var b := ToolUseBlock(FromResponsesCallId(id), name, "");
    var o := Opened(Closed(a.client), b);
    ClosedBodies(a.client, seen);
    BodiesOpened(Closed(a.client).blocks, b, seen);
    if args != "" {
      BodiesAppended(o.blocks, |o.blocks| - 1, args, seen);
    }
  }

  lemma {:induction false} PlaceAllBodies(a: Assembly, ks: seq<int>, seen: DeltaKind)
    requires !seen.InputJsonDelta?
    ensures BodiesOf(PlaceAll(a, ks).client.blocks, seen) == BodiesOf(a.client.blocks, seen)
  {
    if ks != [] {
      PlaceAllBodies(a, Init(ks), seen);
      var b := PlaceAll(a, Init(ks));
      var k := Last(ks);
      if k in b.slots && b.slots[k].Waiting? {
        PlacedBodies(b, k, b.slots[k].id, "", b.slots[k].args, seen);
      }
    }
  }

  lemma AnnouncedBodies(a: Assembly, k: int, id: string, name: string, seen: DeltaKind)
    requires !seen.InputJsonDelta?
    ensures BodiesOf(Announce(a, k, id, name).client.blocks, seen) == BodiesOf(a.client.blocks, seen)
  {
    hide Place, BodiesOf, Closed;
    if k !in a.slots {
      var callId := if id == "" then Minted(a.minted) else Given(id);
      var b := a.(minted := if id == "" then a.minted + 1 else a.minted);
      PlacedBodies(b, k, callId, name, "", seen);
      ClosedBodies(b.client, seen);
    } else if a.slots[k].Waiting? && name != "" {
      PlacedBodies(a, k, if id != "" then Given(id) else a.slots[k].id, name, a.slots[k].args, seen);
    }
  }

  lemma ToolBodies(a: Assembly, i: Input, seen: DeltaKind)
    requires i.Tool? && !seen.InputJsonDelta? && CanFeed(a, i)
    ensures BodiesOf(OnTool(a, i.index, i.id, i.name, i.arguments).client.blocks, seen) == BodiesOf(a.client.blocks, seen)
  {
    hide Announce, BodiesOf, Closed;
    var b := a.(client := ClosedIf(a.client, ThinkingDelta));
    ClosedBodies(a.client, seen);
    AnnouncedBodies(b, i.index, i.id, i.name, seen);
    var e := Announce(b, i.index, i.id, i.name);
    if i.arguments != "" && e.slots[i.index].Placed? {
      BodiesAppended(e.client.blocks, e.slots[i.index].at, i.arguments, seen);
    }
  }

  /** The thinking blocks together hold exactly the reasoning that was delivered,
      and the text blocks exactly the text, however it was cut and interleaved. */
  lemma {:induction false} NoTextLost(v: View, ins: seq<Input>)
    requires v == InitialView(v.responseId, v.model)
    ensures BodiesOf(Run(v, ins).it.client.blocks, ThinkingDelta) == ReasoningOf(ins)
    ensures BodiesOf(Run(v, ins).it.client.blocks, TextDelta) == TextOf(ins)
  {
    if ins != [] {
      NoTextLost(v, Init(ins));
      InputBodies(v, Init(ins), Last(ins), ThinkingDelta);
      InputBodies(v, Init(ins), Last(ins), TextDelta);
    }
  }

  lemma InputBodies(v: View, ins: seq<Input>, i: Input, seen: DeltaKind)
    requires v == InitialView(v.responseId, v.model) && !seen.InputJsonDelta?
    ensures BodiesOf(OnInput(Run(v, ins), i).it.client.blocks, seen)
            == BodiesOf(Run(v, ins).it.client.blocks, seen)
               + (if i.Reasoning? && seen == ThinkingDelta then i.text
                  else if i.Text? && seen == TextDelta then i.text else "")
  {
    hide Run;
    var w := Run(v, ins);
    match i
    case Reasoning(t) =>
      StreamedBodies(w.it.client, ThinkingDelta, ThinkingBlock(""), t, seen);
    case Text(t) =>
      StreamedBodies(w.it.client, TextDelta, TextBlock(""), t, seen);
    case Tool(_, _, _, _) =>
      RunCanFeed(v, ins, i);
      ToolBodies(w.it, i, seen);
    case Head(_, _, _) =>
    case Finish(_) =>
    case End =>
      if !w.it.client.stopped {
        var a := w.it.(client := Started(w.it.client, w.responseId, w.model));
        PlaceAllBodies(a, Sorted(WaitingKeys(a)), seen);
        ClosedBodies(PlaceAll(a, Sorted(WaitingKeys(a))).client, seen);
      }
  }

  // ----- Tools -----

  /** What the block of a tool, or its place in the queue, has to say about it. */
  ghost predicate SlotTells(a: Assembly, k: int, name: string, args: string, padded: bool)
    requires k in a.slots
  {
    match a.slots[k]
    case Waiting(_, held) => name == "" && held == args && !padded
    case Placed(at) =>
      && name != "" && at < |a.client.blocks| && a.client.blocks[at].ToolUseBlock?
      && a.client.blocks[at].name == name
      && a.client.blocks[at].body == (if padded then "{}" else "") + args
  }

  ghost predicate OwnerTells(a: Assembly, owner: Option<int>) {
    match owner
    case Some(t) =>
      a.client.open && a.client.blocks != [] && t in a.slots && a.slots[t] == Placed(|a.client.blocks| - 1)
    case None => !OpenIs(a.client, InputJsonDelta)
  }

  /** The assembly agrees with the inputs on every tool. */
  ghost predicate Agrees(a: Assembly, ins: seq<Input>, owner: Option<int>, padded: set<int>) {
    && Sound(a)
    && a.slots.Keys == SeenOf(ins)
    && padded <= SeenOf(ins)
    && (forall k | k in a.slots :: SlotTells(a, k, FirstNameOf(ins, k), ArgsOf(ins, k), k in padded))
    && OwnerTells(a, owner)
    && (owner.Some? ==> owner.value !in padded)
  }

  function PadFor(ins: seq<Input>, owner: Option<int>): set<int> {
    if owner.Some? && ArgsOf(ins, owner.value) == "" then {owner.value} else {}
  }

  lemma ClosedAgrees(a: Assembly, ins: seq<Input>, owner: Option<int>, padded: set<int>)
    requires Agrees(a, ins, owner, padded)
    ensures Agrees(a.(client := Closed(a.client)), ins, None, padded + PadFor(ins, owner))
    ensures Closed(a.client).onTime == a.client.onTime
  {
    hide ArgsOf, FirstNameOf, SeenOf;
    var b := a.(client := Closed(a.client));
    SameBlocksSound(a, Closed(a.client));
    if owner.Some? {
      assert SlotTells(a, owner.value, FirstNameOf(ins, owner.value), ArgsOf(ins, owner.value), false);
    }
    forall k | k in b.slots
      ensures SlotTells(b, k, FirstNameOf(ins, k), ArgsOf(ins, k), k in padded + PadFor(ins, owner))
    {
      assert SlotTells(a, k, FirstNameOf(ins, k), ArgsOf(ins, k), k in padded);
    }
  }

  /** Blocks of no tool may grow or be added: tools keep theirs. */
  lemma ToolsUntouched(a: Assembly, c: Client, ins: seq<Input>, padded: set<int>)
    requires Agrees(a, ins, None, padded) && !OpenIs(c, InputJsonDelta) && (c.open ==> c.blocks != [])
    requires |a.client.blocks| <= |c.blocks|
    requires forall i | 0 <= i < |a.client.blocks| ::
               if a.client.blocks[i].ToolUseBlock? then c.blocks[i] == a.client.blocks[i] else !c.blocks[i].ToolUseBlock?
    requires forall i | |a.client.blocks| <= i < |c.blocks| :: !c.blocks[i].ToolUseBlock?
    ensures Agrees(a.(client := c), ins, None, padded)
  {
    hide ArgsOf, FirstNameOf, SeenOf;
    var b := a.(client := c);
    SameBlocksSound(a, c);
    forall k | k in b.slots ensures SlotTells(b, k, FirstNameOf(ins, k), ArgsOf(ins, k), k in padded) {
      assert SlotTells(a, k, FirstNameOf(ins, k), ArgsOf(ins, k), k in padded);
    }
  }

  /** Text or thinking ends the turn of any tool. */
  lemma StreamedBlocks(c: Client, kind: DeltaKind, empty: Block, text: string)
    requires Accepts(empty, kind) && !kind.InputJsonDelta? && (c.open ==> c.blocks != [])
    ensures var d := Streamed(c, kind, empty, text);
            var base := (if OpenIs(c, kind) then c else Closed(c)).blocks;
            && d.onTime == c.onTime && !OpenIs(d, InputJsonDelta) && (d.open ==> d.blocks != [])
            && |base| <= |d.blocks|
            && (forall i | 0 <= i < |base| ::
                  if base[i].ToolUseBlock? then d.blocks[i] == base[i] else !d.blocks[i].ToolUseBlock?)
            && (forall i | |base| <= i < |d.blocks| :: !d.blocks[i].ToolUseBlock?)
  {
  }

  lemma StreamedAgrees(a: Assembly, ins: seq<Input>, owner: Option<int>, padded: set<int>,
                       kind: DeltaKind, empty: Block, text: string)
    requires Agrees(a, ins, owner, padded) && Accepts(empty, kind) && !kind.InputJsonDelta?
    ensures Agrees(a.(client := Streamed(a.client, kind, empty, text)), ins, None, padded + PadFor(ins, owner))
    ensures Streamed(a.client, kind, empty, text).onTime == a.client.onTime
  {
    assert OpenIs(a.client, kind) ==> owner.None?;
    assert a.client.open ==> a.client.blocks != [];
    ClosedAgrees(a, ins, owner, padded);
    StreamedBlocks(a.client, kind, empty, text);
    hide Agrees, Closed, Streamed, OpenIs, Accepts;
    var now := padded + PadFor(ins, owner);
    var d := Streamed(a.client, kind, empty, text);
    if OpenIs(a.client, kind) {
      assert now == padded;
      ToolsUntouched(a, d, ins, now);
    } else {
      var c := a.(client := Closed(a.client));
      ToolsUntouched(c, d, ins, now);
      assert c.(client := d) == a.(client := d);
    }
  }

  /** The inputs `more` say the same as `ins` about every tool but k. */
  ghost predicate SameButFor(ins: seq<Input>, more: seq<Input>, k: int) {
    forall j | j != k :: FirstNameOf(more, j) == FirstNameOf(ins, j) && ArgsOf(more, j) == ArgsOf(ins, j)
  }

  /** A closed assembly opens the block of a tool that was new or waiting. */
  lemma PlacedAgrees(a: Assembly, ins: seq<Input>, padded: set<int>, more: seq<Input>,
                     k: int, id: CallId, name: string)
    requires Agrees(a, ins, None, padded) && !a.client.open
    requires k in a.slots ==> a.slots[k].Waiting?
    requires name != "" && FirstNameOf(more, k) == name && ArgsOf(more, k) == ArgsOf(ins, k)
    requires SameButFor(ins, more, k) && SeenOf(more) == SeenOf(ins) + {k} && k !in padded
    requires k !in a.slots ==> ArgsOf(ins, k) == ""
    ensures Agrees(Place(a, k, id, name, ArgsOf(ins, k)), more, Some(k), padded)
    ensures Place(a, k, id, name, ArgsOf(ins, k)).client.onTime == a.client.onTime
  {
    var b := Place(a, k, id, name, ArgsOf(ins, k));
    PlaceSound(a, k, id, name, ArgsOf(ins, k));
    forall j | j in b.slots ensures SlotTells(b, j, FirstNameOf(more, j), ArgsOf(more, j), j in padded) {
      if j != k {
        assert SlotTells(a, j, FirstNameOf(ins, j), ArgsOf(ins, j), j in padded);
      }
    }
  }

  /** A closed assembly learns of a tool without a name. */
  lemma AwaitedAgrees(a: Assembly, ins: seq<Input>, padded: set<int>, more: seq<Input>, k: int, id: CallId)
    requires Agrees(a, ins, None, padded) && !a.client.open && k !in a.slots
    requires FirstNameOf(more, k) == "" && ArgsOf(more, k) == "" && SameButFor(ins, more, k)
    requires SeenOf(more) == SeenOf(ins) + {k} && k !in padded
    ensures Agrees(a.(slots := a.slots[k := Waiting(id, "")]), more, None, padded)
  {
    var b := a.(slots := a.slots[k := Waiting(id, "")]);
    WaitSound(a, k, id);
    assert Closed(a.client) == a.client;
    forall j | j in b.slots ensures SlotTells(b, j, FirstNameOf(more, j), ArgsOf(more, j), j in padded) {
      if j != k {
        assert SlotTells(a, j, FirstNameOf(ins, j), ArgsOf(ins, j), j in padded);
      }
    }
  }

  lemma {:induction false} UnseenSaysNothing(ins: seq<Input>, k: int)
    requires k !in SeenOf(ins)
    ensures ArgsOf(ins, k) == "" && FirstNameOf(ins, k) == ""
  {
    if ins != [] {
      UnseenSaysNothing(Init(ins), k);
    }
  }

  /** One more tool input says nothing new about the other tools. */
  lemma ToolSaysOf(ins: seq<Input>, k: int, id: string, name: string, args: string)
    ensures var more := ins + [Tool(k, id, name, args)];
            Init(more) == ins && Last(more) == Tool(k, id, name, args) &&
            SameButFor(ins, more, k) && SeenOf(more) == SeenOf(ins) + {k} &&
            ArgsOf(more, k) == ArgsOf(ins, k) + args &&
            FirstNameOf(more, k) == (if FirstNameOf(ins, k) == "" then name else FirstNameOf(ins, k))
  {
    InitOfSnoc(ins, Tool(k, id, name, args));
  }

  lemma PlaceAfterClosing(a: Assembly, k: int, id: CallId, name: string, args: string)
    ensures Place(a, k, id, name, args) == Place(a.(client := Closed(a.client)), k, id, name, args)
    ensures !Closed(a.client).open
  {
  }

  lemma MintingAgrees(a: Assembly, n: nat, ins: seq<Input>, owner: Option<int>, padded: set<int>)
    requires Agrees(a, ins, owner, padded)
    ensures Agrees(a.(minted := n), ins, owner, padded)
  {
    forall k | k in a.slots ensures SlotTells(a.(minted := n), k, FirstNameOf(ins, k), ArgsOf(ins, k), k in padded) {
      assert SlotTells(a, k, FirstNameOf(ins, k), ArgsOf(ins, k), k in padded);
    }
  }

  lemma IntroducedAgrees(a: Assembly, ins: seq<Input>, k: int, id: string, name: string)
    requires Agrees(a, ins, OwnerOf(ins), PaddedOf(ins)) && k !in a.slots
    ensures var more := ins + [Tool(k, id, name, "")];
            Agrees(Introduce(a, k, id, name), more, OwnerOf(more), PaddedOf(more)) &&
            Introduce(a, k, id, name).client.onTime == a.client.onTime
  {
    hide Sound, Closed;
    var more := ins + [Tool(k, id, name, "")];
    ToolSaysOf(ins, k, id, name, "");
    UnseenSaysNothing(ins, k);
    var n := if id == "" then a.minted + 1 else a.minted;
    var callId := if id == "" then Minted(a.minted) else Given(id);
    var b := a.(minted := n);
    MintingAgrees(a, n, ins, OwnerOf(ins), PaddedOf(ins));
    ClosedAgrees(b, ins, OwnerOf(ins), PaddedOf(ins));
    var c := b.(client := Closed(b.client));
    var padded := PaddedOf(ins) + PadFor(ins, OwnerOf(ins));
    assert OwnerOf(ins) != Some(k);
    PlaceAfterClosing(b, k, callId, name, "");
    assert PaddedOf(more) == padded;
    if name != "" {
      PlacedAgrees(c, ins, padded, more, k, callId, name);
    } else {
      AwaitedAgrees(c, ins, padded, more, k, callId);
    }
  }

  lemma AnnouncedAgrees(a: Assembly, ins: seq<Input>, k: int, id: string, name: string)
    requires Agrees(a, ins, OwnerOf(ins), PaddedOf(ins))
    ensures var more := ins + [Tool(k, id, name, "")];
            Agrees(Announce(a, k, id, name), more, OwnerOf(more), PaddedOf(more)) &&
            Announce(a, k, id, name).client.onTime == a.client.onTime
  {
    hide Sound, Closed;
    var more := ins + [Tool(k, id, name, "")];
    ToolSaysOf(ins, k, id, name, "");
    if k !in a.slots {
      IntroducedAgrees(a, ins, k, id, name);
    } else if a.slots[k].Waiting? && name != "" {
      assert SlotTells(a, k, FirstNameOf(ins, k), ArgsOf(ins, k), k in PaddedOf(ins));
      var callId := if id != "" then Given(id) else a.slots[k].id;
      ClosedAgrees(a, ins, OwnerOf(ins), PaddedOf(ins));
      var padded := PaddedOf(ins) + PadFor(ins, OwnerOf(ins));
      assert OwnerOf(ins) != Some(k);
      assert PaddedOf(more) == padded;
      PlaceAfterClosing(a, k, callId, name, a.slots[k].args);
      PlacedAgrees(a.(client := Closed(a.client)), ins, padded, more, k, callId, name);
    } else {
      assert SlotTells(a, k, FirstNameOf(ins, k), ArgsOf(ins, k), k in PaddedOf(ins));
      assert OwnerOf(more) == OwnerOf(ins) && PaddedOf(more) == PaddedOf(ins);
      forall j | j in a.slots ensures SlotTells(a, j, FirstNameOf(more, j), ArgsOf(more, j), j in PaddedOf(more)) {
        assert SlotTells(a, j, FirstNameOf(ins, j), ArgsOf(ins, j), j in PaddedOf(ins));
      }
    }
  }

  lemma FeedHere(a: Assembly, k: int, args: string, name: string, held: string, padded: bool)
    requires k in a.slots && SlotTells(a, k, name, held, padded)
    ensures var b := Feed(a, k, args); k in b.slots && SlotTells(b, k, name, held + args, padded)
  {
    assert held + "" == held;
  }

  lemma FeedOwner(a: Assembly, k: int, args: string, owner: Option<int>)
    requires Sound(a) && OwnerTells(a, owner)
    ensures OwnerTells(Feed(a, k, args), owner) && Feed(a, k, args).slots.Keys == a.slots.Keys
  {
  }

  lemma FeedAgreesWith(a: Assembly, bare: seq<Input>, more: seq<Input>, owner: Option<int>, padded: set<int>,
                       k: int, args: string)
    requires Agrees(a, bare, owner, padded) && k in a.slots && SameButFor(bare, more, k)
    requires FirstNameOf(more, k) == FirstNameOf(bare, k) && ArgsOf(more, k) == ArgsOf(bare, k) + args
    requires SeenOf(more) == SeenOf(bare)
    ensures Agrees(Feed(a, k, args), more, owner, padded)
  {
    hide ArgsOf, FirstNameOf, SeenOf, Sound, SlotTells, OwnerTells, Feed;
    var b := Feed(a, k, args);
    FeedSound(a, k, args);
    FeedOwner(a, k, args, owner);
    FeedHere(a, k, args, FirstNameOf(bare, k), ArgsOf(bare, k), k in padded);
    forall j | j in b.slots ensures SlotTells(b, j, FirstNameOf(more, j), ArgsOf(more, j), j in padded) {
      if j != k {
        FeedThere(a, k, args, j, FirstNameOf(bare, j), ArgsOf(bare, j), j in padded);
      }
    }
  }

  lemma FeedThere(a: Assembly, k: int, args: string, j: int, name: string, held: string, padded: bool)
    requires Sound(a) && k in a.slots && j in a.slots && j != k && SlotTells(a, j, name, held, padded)
    ensures var b := Feed(a, k, args); j in b.slots && SlotTells(b, j, name, held, padded)
  {
    FeedElsewhere(a, k, args, j);
  }

  lemma FeedElsewhere(a: Assembly, k: int, args: string, j: int)
    requires Sound(a) && k in a.slots && j in a.slots && j != k
    ensures var b := Feed(a, k, args);
            b.slots.Keys == a.slots.Keys && b.slots[j] == a.slots[j] &&
            (a.slots[j].Placed? ==> |b.client.blocks| == |a.client.blocks| &&
                                    b.client.blocks[a.slots[j].at] == a.client.blocks[a.slots[j].at])
  {
  }

  /** Arguments have no say in which block is open or padded. */
  lemma ArgumentsIdle(ins: seq<Input>, k: int, id: string, name: string, args: string)
    ensures var bare := ins + [Tool(k, id, name, "")];
            var more := ins + [Tool(k, id, name, args)];
            && OwnerOf(more) == OwnerOf(bare) && PaddedOf(more) == PaddedOf(bare)
            && SeenOf(more) == SeenOf(bare) && SameButFor(bare, more, k)
            && FirstNameOf(more, k) == FirstNameOf(bare, k) && ArgsOf(more, k) == ArgsOf(bare, k) + args
            && LateOf(more) == (LateOf(ins) || (args != "" && FirstNameOf(bare, k) != "" && OwnerOf(bare) != Some(k)))
  {
    var bare := ins + [Tool(k, id, name, "")];
    var more := ins + [Tool(k, id, name, args)];
    ToolSaysOf(ins, k, id, name, "");
    ToolSaysOf(ins, k, id, name, args);
    assert ArgsOf(ins, k) + "" == ArgsOf(ins, k);
    hide FirstNameOf, SeenOf, ArgsOf;
    assert OwnerOf(more) == OwnerOf(bare);
  }

  /** The fragment itself: it streams, or waits, and is late exactly when the
      tool has a block that is not the open one. */
  lemma FedAgrees(a: Assembly, ins: seq<Input>, k: int, id: string, name: string, args: string)
    requires var bare := ins + [Tool(k, id, name, "")];
             Agrees(a, bare, OwnerOf(bare), PaddedOf(bare)) && a.client.onTime == !LateOf(ins)
    ensures var more := ins + [Tool(k, id, name, args)];
            Agrees(Feed(a, k, args), more, OwnerOf(more), PaddedOf(more)) &&
            Feed(a, k, args).client.onTime == !LateOf(more)
  {
    hide Sound, SlotTells, Feed, SameButFor, FirstNameOf, ArgsOf, OwnerOf, PaddedOf, LateOf;
    var bare := ins + [Tool(k, id, name, "")];
    ToolSaysOf(ins, k, id, name, "");
    ArgumentsIdle(ins, k, id, name, args);
    FeedAgreesWith(a, bare, ins + [Tool(k, id, name, args)], OwnerOf(bare), PaddedOf(bare), k, args);
    FeedOnTime(a, k, FirstNameOf(bare, k), ArgsOf(bare, k), k in PaddedOf(bare), OwnerOf(bare), args);
  }

  lemma FeedOnTime(a: Assembly, k: int, name: string, held: string, padded: bool, owner: Option<int>, args: string)
    requires Sound(a) && k in a.slots && SlotTells(a, k, name, held, padded) && OwnerTells(a, owner)
    ensures Feed(a, k, args).client.onTime == (a.client.onTime && !(args != "" && name != "" && owner != Some(k)))
  {
  }

  /** Inputs that are no tool calls say nothing about tools. */
  lemma OtherSays(a: Assembly, ins: seq<Input>, i: Input, owner: Option<int>, padded: set<int>)
    requires Agrees(a, ins, owner, padded) && !i.Tool?
    ensures Agrees(a, ins + [i], owner, padded)
  {
    var more := ins + [i];
    InitOfSnoc(ins, i);
    forall k | k in a.slots ensures SlotTells(a, k, FirstNameOf(more, k), ArgsOf(more, k), k in padded) {
      assert SlotTells(a, k, FirstNameOf(ins, k), ArgsOf(ins, k), k in padded);
    }
  }

  lemma StartedAgrees(a: Assembly, ins: seq<Input>, owner: Option<int>, padded: set<int>, id: string, model: string)
    requires Agrees(a, ins, owner, padded)
    ensures Agrees(a.(client := Started(a.client, id, model)), ins, owner, padded)
    ensures Started(a.client, id, model).onTime == a.client.onTime
  {
    var b := a.(client := Started(a.client, id, model));
    SameBlocksSound(a, b.client);
    forall k | k in a.slots ensures SlotTells(b, k, FirstNameOf(ins, k), ArgsOf(ins, k), k in padded) {
      assert SlotTells(a, k, FirstNameOf(ins, k), ArgsOf(ins, k), k in padded);
    }
  }

  /** Agreement, and no event out of time unless the inputs were. */
  ghost predicate InStep(v: View, ins: seq<Input>) {
    Agrees(v.it, ins, OwnerOf(ins), PaddedOf(ins)) && v.it.client.onTime == !LateOf(ins)
  }

  lemma StreamedInStep(v: View, ins: seq<Input>, i: Input, kind: DeltaKind, empty: Block)
    requires InStep(v, ins)
    requires (i.Reasoning? && kind == ThinkingDelta && empty == ThinkingBlock("")) ||
             (i.Text? && kind == TextDelta && empty == TextBlock(""))
    ensures InStep(OnInput(v, i), ins + [i])
  {
    hide Sound, Streamed;
    InitOfSnoc(ins, i);
    if i.text != "" {
      StreamedAgrees(v.it, ins, OwnerOf(ins), PaddedOf(ins), kind, empty, i.text);
      assert PaddedOf(ins + [i]) == PaddedOf(ins) + PadFor(ins, OwnerOf(ins));
      OtherSays(OnInput(v, i).it, ins, i, None, PaddedOf(ins) + PadFor(ins, OwnerOf(ins)));
    } else {
      OtherSays(v.it, ins, i, OwnerOf(ins), PaddedOf(ins));
      assert PaddedOf(ins + [i]) == PaddedOf(ins);
    }
  }

  lemma ToolInStep(v: View, ins: seq<Input>, i: Input)
    requires InStep(v, ins) && i.Tool?
    ensures InStep(OnInput(v, i), ins + [i])
  {
    hide Sound, Announce, Feed, Closed;
    InitOfSnoc(ins, i);
    var a := v.it.(client := ClosedIf(v.it.client, ThinkingDelta));
    ClosedAgrees(v.it, ins, OwnerOf(ins), PaddedOf(ins));
    if OpenIs(v.it.client, ThinkingDelta) {
      assert OwnerOf(ins).None? && PadFor(ins, OwnerOf(ins)) == {};
      assert PaddedOf(ins) + {} == PaddedOf(ins);
    } else {
      assert a == v.it;
    }
    AnnouncedAgrees(a, ins, i.index, i.id, i.name);
    FedAgrees(Announce(a, i.index, i.id, i.name), ins, i.index, i.id, i.name, i.arguments);
  }

  lemma {:induction false} RunInStep(v: View, ins: seq<Input>)
    requires v == InitialView(v.responseId, v.model) && End !in ins
    ensures InStep(Run(v, ins), ins)
  {
    if ins != [] {
      var before := Init(ins);
      var i := Last(ins);
      RunInStep(v, before);
      var w := Run(v, before);
      assert before + [i] == ins;
      match i
      case Reasoning(_) => StreamedInStep(w, before, i, ThinkingDelta, ThinkingBlock(""));
      case Text(_) => StreamedInStep(w, before, i, TextDelta, TextBlock(""));
      case Tool(_, _, _, _) => ToolInStep(w, before, i);
      case Finish(_) =>
        OtherSays(w.it, before, i, OwnerOf(before), PaddedOf(before));
        assert PaddedOf(ins) == PaddedOf(before);
      case Head(id, model, usage) =>
        OtherSays(w.it, before, i, OwnerOf(before), PaddedOf(before));
        assert PaddedOf(ins) == PaddedOf(before);
        var h := HeadRead(w, id, model, usage);
        StartedAgrees(w.it, ins, OwnerOf(ins), PaddedOf(ins), h.responseId, h.model);
      case End =>
        assert false;
    }
  }

  /** A named tool without arguments still owns the open block, or was padded. */
  lemma {:induction false} EmptyToolOwns(ins: seq<Input>, k: int)
    requires FirstNameOf(ins, k) != "" && ArgsOf(ins, k) == "" && k !in PaddedOf(ins)
    ensures OwnerOf(ins) == Some(k)
  {
    if FirstNameOf(Init(ins), k) != "" {
      EmptyToolOwns(Init(ins), k);
    }
  }

  // ----- The end of the stream -----

  /** The arguments a client assembles for a tool by the end of the stream. */
  function AssembledArgs(ins: seq<Input>, k: int): string {
    if ArgsOf(ins, k) == "" then "{}" else PadOf(ins, k) + ArgsOf(ins, k)
  }

  /** While the nameless tools are placed: a slot still waits, or its block is
      complete but for the "{}" of an open one. */
  ghost predicate SlotEnds(a: Assembly, ins: seq<Input>, k: int)
    requires k in a.slots
  {
    match a.slots[k]
    case Waiting(_, held) => FirstNameOf(ins, k) == "" && held == ArgsOf(ins, k) && k !in PaddedOf(ins)
    case Placed(at) =>
      && at < |a.client.blocks| && a.client.blocks[at].ToolUseBlock?
      && a.client.blocks[at].name == FirstNameOf(ins, k)
      && (if a.client.blocks[at].body == "" then a.client.open && at == |a.client.blocks| - 1 && ArgsOf(ins, k) == ""
          else a.client.blocks[at].body == AssembledArgs(ins, k))
  }

  lemma AgreementEnds(a: Assembly, ins: seq<Input>)
    requires Agrees(a, ins, OwnerOf(ins), PaddedOf(ins))
    ensures forall k | k in a.slots :: SlotEnds(a, ins, k)
  {
    forall k | k in a.slots ensures SlotEnds(a, ins, k) {
      assert SlotTells(a, k, FirstNameOf(ins, k), ArgsOf(ins, k), k in PaddedOf(ins));
      if a.slots[k].Placed? && ArgsOf(ins, k) == "" && k !in PaddedOf(ins) {
        EmptyToolOwns(ins, k);
      }
    }
  }

  lemma PlaceElsewhere(a: Assembly, k: int, id: CallId, name: string, args: string, at: nat)
    requires at < |a.client.blocks|
    ensures var b := Place(a, k, id, name, args).client;
            at < |b.blocks| - 1 &&
            b.blocks[at] == if a.client.open && at == |a.client.blocks| - 1 && a.client.blocks[at].ToolUseBlock? &&
                               a.client.blocks[at].body == ""
                            then Extend(a.client.blocks[at], "{}") else a.client.blocks[at]
  {
  }

  lemma PlaceHere(a: Assembly, k: int, id: CallId, name: string, args: string)
    ensures var b := Place(a, k, id, name, args);
            && b.slots == a.slots[k := Placed(|a.client.blocks|)] && b.client.open
            && |b.client.blocks| == |a.client.blocks| + 1
            && b.client.blocks[|a.client.blocks|] == ToolUseBlock(FromResponsesCallId(id), name, args)
            && b.client.onTime == a.client.onTime
  {
  }

  lemma PlacingEnds(a: Assembly, ins: seq<Input>, k: int)
    requires Sound(a) && (forall j | j in a.slots :: SlotEnds(a, ins, j)) && k in a.slots && a.slots[k].Waiting?
    ensures var b := Place(a, k, a.slots[k].id, "", a.slots[k].args);
            (forall j | j in b.slots :: SlotEnds(b, ins, j)) && b.client.onTime == a.client.onTime
  {
    hide Place, Sound;
    var b := Place(a, k, a.slots[k].id, "", a.slots[k].args);
    PlaceHere(a, k, a.slots[k].id, "", a.slots[k].args);
    assert SlotEnds(a, ins, k);
    forall j | j in b.slots ensures SlotEnds(b, ins, j) {
      assert SlotEnds(a, ins, j);
      if j != k && a.slots[j].Placed? {
        PlaceElsewhere(a, k, a.slots[k].id, "", a.slots[k].args, a.slots[j].at);
      }
    }
  }

  lemma {:induction false} PlaceAllEnds(a: Assembly, ins: seq<Input>, ks: seq<int>)
    requires Sound(a) && forall k | k in a.slots :: SlotEnds(a, ins, k)
    ensures var b := PlaceAll(a, ks);
            && (forall k | k in b.slots :: SlotEnds(b, ins, k))
            && b.slots.Keys == a.slots.Keys && b.client.onTime == a.client.onTime
            && (forall k | k in b.slots && b.slots[k].Waiting? :: a.slots[k].Waiting? && k !in ks)
  {
    if ks != [] {
      PlaceAllEnds(a, ins, Init(ks));
      PlaceAllSound(a, Init(ks));
      var b := PlaceAll(a, Init(ks));
      var k := Last(ks);
      assert ks == Init(ks) + [k];
      if k in b.slots && b.slots[k].Waiting? {
        PlacingEnds(b, ins, k);
      }
    }
  }

  /** The tool has exactly one block, named after the first name that came, that
      assembles to `args`; no other block is a tool's but those of tools seen. */
  ghost predicate Delivered(a: Assembly, k: int, name: string, args: string) {
    && k in a.slots && a.slots[k].Placed? && a.slots[k].at < |a.client.blocks|
    && var b := a.client.blocks[a.slots[k].at];
       b.ToolUseBlock? && b.name == name && b.body == args
  }

  lemma ClosingDelivers(a: Assembly, ins: seq<Input>)
    requires Sound(a) && (forall k | k in a.slots :: SlotEnds(a, ins, k) && a.slots[k].Placed?)
    ensures var b := a.(client := Closed(a.client));
            Sound(b) && (forall k | k in b.slots :: Delivered(b, k, FirstNameOf(ins, k), AssembledArgs(ins, k)))
    ensures Closed(a.client).onTime == a.client.onTime
  {
    hide ArgsOf, FirstNameOf, PaddedOf;
    var b := a.(client := Closed(a.client));
    SameBlocksSound(a, Closed(a.client));
    forall k | k in b.slots ensures Delivered(b, k, FirstNameOf(ins, k), AssembledArgs(ins, k)) {
      assert SlotEnds(a, ins, k);
    }
  }

  lemma EndingDelivers(a: Assembly, ins: seq<Input>)
    requires Agrees(a, ins, OwnerOf(ins), PaddedOf(ins))
    ensures var b := PlaceAll(a, Sorted(WaitingKeys(a)));
            var c := b.(client := Closed(b.client));
            Sound(c) && c.slots.Keys == SeenOf(ins) && c.client.onTime == a.client.onTime &&
            (forall k | k in c.slots :: Delivered(c, k, FirstNameOf(ins, k), AssembledArgs(ins, k)))
  {
    hide Closed, Place, ArgsOf, FirstNameOf, SeenOf, PaddedOf, OwnerOf, PlaceAll;
    AgreementEnds(a, ins);
    var ks := Sorted(WaitingKeys(a));
    PlaceAllEnds(a, ins, ks);
    PlaceAllSound(a, ks);
    var b := PlaceAll(a, ks);
    forall k | k in b.slots ensures b.slots[k].Placed? {
      if b.slots[k].Waiting? {
        assert false;
      }
    }
    ClosingDelivers(b, ins);
  }

  lemma EndedDelivers(a: Assembly, ins: seq<Input>, reason: string, usage: Usage)
    requires Sound(a) && forall k | k in a.slots :: Delivered(a, k, FirstNameOf(ins, k), AssembledArgs(ins, k))
    ensures var b := a.(client := Ended(a.client, reason, usage));
            Sound(b) && forall k | k in b.slots :: Delivered(b, k, FirstNameOf(ins, k), AssembledArgs(ins, k))
  {
    var b := a.(client := Ended(a.client, reason, usage));
    SameBlocksSound(a, b.client);
    forall k | k in b.slots ensures Delivered(b, k, FirstNameOf(ins, k), AssembledArgs(ins, k)) {
      assert Delivered(a, k, FirstNameOf(ins, k), AssembledArgs(ins, k));
    }
  }

  /** When the stream ends, the tools seen and the tool_use blocks correspond one to
      one, and every block carries the tool's name and its arguments. The JSON
      fragments were all on time exactly when the inputs delivered none late. */
  lemma EndedInStep(v: View, ins: seq<Input>)
    requires v == InitialView(v.responseId, v.model) && End !in ins
    ensures var a := Run(v, ins + [End]).it;
            && a.slots.Keys == SeenOf(ins) && Sound(a)
            && (forall k | k in a.slots :: Delivered(a, k, FirstNameOf(ins, k), AssembledArgs(ins, k)))
            && a.client.onTime == !LateOf(ins)
  {
    hide Sound, Closed, Place, ArgsOf, FirstNameOf, SeenOf, PaddedOf, OwnerOf, PlaceAll, Sorted, Started;
    RunSnoc(v, ins, End);
    RunInStep(v, ins);
    RunOpen(v, ins);
    var w := Run(v, ins);
    var a := w.it.(client := Started(w.it.client, w.responseId, w.model));
    StartedAgrees(w.it, ins, OwnerOf(ins), PaddedOf(ins), w.responseId, w.model);
    EndingDelivers(a, ins);
    var b := PlaceAll(a, Sorted(WaitingKeys(a)));
    EndedDelivers(b.(client := Closed(b.client)), ins, StopReason(w.finish, w.it.slots.Keys != {}), w.usage);
  }

  /** Before its end the stream has not ended, and nothing came out of turn. */
  lemma {:induction false} RunOpen(v: View, ins: seq<Input>)
    requires v == InitialView(v.responseId, v.model) && End !in ins
    ensures var c := Run(v, ins).it.client;
            c.ending.None? && !c.stopped && !c.trailing
    ensures Run(v, ins).finish == FinishOf(ins)
  {
    if ins != [] {
      var i := Last(ins);
      assert Init(ins) + [i] == ins;
      RunOpen(v, Init(ins));
      RunQuiet(Run(v, Init(ins)), i);
    }
  }

  lemma RunQuiet(v: View, i: Input)
    requires var c := v.it.client; c.ending.None? && !c.stopped && !c.trailing
    requires !i.End?
    ensures var c := OnInput(v, i).it.client; c.ending.None? && !c.stopped && !c.trailing
  {
    match i
    case Tool(k, id, name, args) =>
      var a := v.it.(client := ClosedIf(v.it.client, ThinkingDelta));
      AnnounceQuiet(a, k, id, name);
    case _ =>
  }

  lemma AnnounceQuiet(a: Assembly, k: int, id: string, name: string)
    requires a.client.ending.None? && !a.client.stopped && !a.client.trailing
    ensures var c := Announce(a, k, id, name).client; c.ending.None? && !c.stopped && !c.trailing
  {
  }

  // ----- What a reader of the stream may rely on -----

  /** The arguments assembled for a tool are the fragments delivered for it, or
      "{}" when there were none, exactly unless its block had ended with "{}"
      before the first fragment came. */
  lemma ArgumentsConserved(v: View, ins: seq<Input>, k: int)
    requires v == InitialView(v.responseId, v.model) && End !in ins && k in SeenOf(ins)
    ensures var a := Run(v, ins + [End]).it;
            && Delivered(a, k, FirstNameOf(ins, k), AssembledArgs(ins, k))
            && (a.client.blocks[a.slots[k].at].body == (if ArgsOf(ins, k) == "" then "{}" else ArgsOf(ins, k))
                <==> !(k in PaddedOf(ins) && ArgsOf(ins, k) != ""))
  {
    hide Run, Sound, ArgsOf, FirstNameOf, SeenOf, PaddedOf;
    EndedInStep(v, ins);
    var a := Run(v, ins + [End]).it;
    assert Delivered(a, k, FirstNameOf(ins, k), AssembledArgs(ins, k));
    if k in PaddedOf(ins) && ArgsOf(ins, k) != "" {
      assert |AssembledArgs(ins, k)| == |ArgsOf(ins, k)| + 2;
    } else if ArgsOf(ins, k) != "" {
      assert "" + ArgsOf(ins, k) == ArgsOf(ins, k);
    }
  }

  /** Two calls whose fragments interleave: the first comes out damaged. */
  lemma InterleavingPads(id: string, name: string, args: string)
    requires name != "" && args != ""
    ensures var ins := [Tool(0, id, name, ""), Tool(1, id, name, args), Tool(0, "", "", args)];
            0 in PaddedOf(ins) && LateOf(ins) && AssembledArgs(ins, 0) == "{}" + args
  {
    var a := [Tool(0, id, name, "")];
    var b := a + [Tool(1, id, name, args)];
    var c := b + [Tool(0, "", "", args)];
    ToolSaysOf([], 0, id, name, "");
    ToolSaysOf(a, 1, id, name, args);
    ToolSaysOf(b, 0, "", "", args);
    assert [] + [Tool(0, id, name, "")] == a;
    assert OwnerOf(a) == Some(0) && OwnerOf(b) == Some(1);
    assert ArgsOf(a, 0) == "" && ArgsOf(c, 0) == args;
    assert 0 in PaddedOf(b);
    assert c == [Tool(0, id, name, ""), Tool(1, id, name, args), Tool(0, "", "", args)];
  }

  /** Every run of chunks that is then finished is well bracketed, and its last
      two events are message_delta and message_stop. */
  lemma FinishedRunBracketed(v: View, ins: seq<Input>, log: seq<Event>)
    requires v == InitialView(v.responseId, v.model) && End !in ins
    requires Replay(log) == Some(Run(v, ins + [End]).it.client)
    ensures var n := |log|;
            var blocks := Run(v, ins + [End]).it.client.blocks;
            && n >= 3 && log[0].MessageStart? && log[n - 2].MessageDelta? && log[n - 1].MessageStop?
            && (forall i | 0 < i < n - 2 :: IsBlockEvent(log[i]))
            && UpTo(Starts(log), |blocks|) && UpTo(Stops(log), |blocks|)
  {
    hide Run, OnInput, Replay, Starts, Stops;
    RunSnoc(v, ins, End);
    RunOpen(v, ins);
    EndedClient(Run(v, ins));
    AcceptedLogShape(log);
    AcceptedBlocksNest(log);
  }

  lemma EndedClient(v: View)
    requires var c := v.it.client; c.ending.None? && !c.stopped && !c.trailing
    ensures var c := OnInput(v, End).it.client;
            c.stopped && c.ending.Some? && !c.trailing && !c.open && c.message.Some?
  {
    hide PlaceAll, Sorted;
    var a := v.it.(client := Started(v.it.client, v.responseId, v.model));
    PlaceAllQuiet(a, Sorted(WaitingKeys(a)));
    PlaceAllKeeps(a, Sorted(WaitingKeys(a)));
  }

  lemma {:induction false} PlaceAllQuiet(a: Assembly, ks: seq<int>)
    requires a.client.ending.None? && !a.client.trailing
    ensures !PlaceAll(a, ks).client.trailing && PlaceAll(a, ks).client.ending.None?
  {
    if ks != [] {
      PlaceAllQuiet(a, Init(ks));
    }
  }
}
