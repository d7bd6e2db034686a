/** The tool_use blocks of the Chat Completions to Anthropic stream: which id each
    carries, and in which order they stand. */
module AnthropicToolOrder {
  import opened Common
  import opened ChatChunks
  import opened AnthropicProtocol
  import opened AnthropicAssembly
  import opened AnthropicStreamLaws

  // ----- Said about the inputs alone -----

  /** How many tools were first heard of without an id. */
  function MintedIn(ins: seq<Input>): nat {
    if ins == [] then 0
    else
      var i := Last(ins);
      MintedIn(Init(ins)) + (if i.Tool? && i.index !in SeenOf(Init(ins)) && i.id == "" then 1 else 0)
  }

  /** The id a tool is announced under: the first delta's, or one that is drawn when
      it has none, unless the delta that brings the name brings another. */
  function KeptIdOf(ins: seq<Input>, k: int): CallId {
    if ins == [] then Minted(0)
    else
      var before, i := Init(ins), Last(ins);
      if !i.Tool? || i.index != k then KeptIdOf(before, k)
      else if k !in SeenOf(before) then if i.id == "" then Minted(MintedIn(before)) else Given(i.id)
      else if FirstNameOf(before, k) == "" && i.name != "" && i.id != "" then Given(i.id)
      else KeptIdOf(before, k)
  }

  /** The tools in the order in which their names came. */
  function NamedOrder(ins: seq<Input>): seq<int> {
    if ins == [] then []
    else
      var before, i := Init(ins), Last(ins);
      NamedOrder(before) + (if i.Tool? && i.name != "" && FirstNameOf(before, i.index) == "" then [i.index] else [])
  }

  function UnnamedOf(ins: seq<Input>): set<int> {
    set k | k in SeenOf(ins) && FirstNameOf(ins, k) == ""
  }

  /** The order of the tool_use blocks: as the names came, then those whose name
      never came, lowest index first. */
  function BlockOrder(ins: seq<Input>): seq<int> {
    NamedOrder(ins) + Sorted(UnnamedOf(ins))
  }

  /** The block of a tool once the stream has ended. */
  function BlockFor(ins: seq<Input>, k: int): Block {
    ToolUseBlock(FromResponsesCallId(KeptIdOf(ins, k)), FirstNameOf(ins, k), AssembledArgs(ins, k))
  }

  function BlocksFor(ins: seq<Input>, ks: seq<int>): seq<Block> {
    seq(|ks|, i requires 0 <= i < |ks| => BlockFor(ins, ks[i]))
  }

  // ----- Ids and order in every state -----

  function At(slots: map<int, Slot>, k: int): nat {
    if k in slots && slots[k].Placed? then slots[k].at else 0
  }

  ghost predicate IdTells(a: Assembly, k: int, id: CallId)
    requires k in a.slots
  {
    match a.slots[k]
    case Waiting(held, _) => held == id
    case Placed(at) => at < |a.client.blocks| && a.client.blocks[at].ToolUseBlock? &&
                       a.client.blocks[at].id == FromResponsesCallId(id)
  }

  /** The placed tools are those of `order`, and their blocks stand in that order. */
  ghost predicate Ranked(slots: map<int, Slot>, order: seq<int>) {
    && (forall k :: k in order <==> k in slots && slots[k].Placed?)
    && (forall i, j | 0 <= i < j < |order| :: At(slots, order[i]) < At(slots, order[j]))
  }

  ghost predicate Ordered(a: Assembly, ins: seq<Input>, order: seq<int>) {
    && a.slots.Keys == SeenOf(ins) && Ranked(a.slots, order)
    && (forall k | k in a.slots :: IdTells(a, k, KeptIdOf(ins, k)))
  }

  /** The client's tool blocks keep their places and ids. */
  ghost predicate KeepsTools(c: Client, d: Client) {
    |c.blocks| <= |d.blocks| &&
    forall i | 0 <= i < |c.blocks| && c.blocks[i].ToolUseBlock? :: d.blocks[i].ToolUseBlock? && d.blocks[i].id == c.blocks[i].id
  }

  lemma KeptOrdered(a: Assembly, c: Client, ins: seq<Input>, order: seq<int>)
    requires Ordered(a, ins, order) && KeepsTools(a.client, c)
    ensures Ordered(a.(client := c), ins, order)
  {
    hide KeptIdOf, SeenOf, Ranked;
    forall k | k in a.slots ensures IdTells(a.(client := c), k, KeptIdOf(ins, k)) {
      assert IdTells(a, k, KeptIdOf(ins, k));
    }
  }

  lemma ClosedKeepsTools(c: Client, kind: DeltaKind)
    ensures KeepsTools(c, Closed(c)) && KeepsTools(c, ClosedIf(c, kind))
  {
  }

  lemma StreamedKeepsTools(c: Client, kind: DeltaKind, empty: Block, text: string)
    ensures KeepsTools(c, Streamed(c, kind, empty, text))
  {
    ClosedKeepsTools(c, kind);
    hide Closed;
    var o := Ensured(c, kind, empty);
    assert KeepsTools(c, o);
  }

  /** The inputs say the same about the ids of all tools but k. */
  ghost predicate SameIds(ins: seq<Input>, more: seq<Input>, k: int) {
    forall j | j != k :: KeptIdOf(more, j) == KeptIdOf(ins, j)
  }

  lemma PlacedOrdered(a: Assembly, ins: seq<Input>, order: seq<int>, more: seq<Input>,
                      k: int, id: CallId, name: string, args: string)
    requires Sound(a) && Ordered(a, ins, order) && (k in a.slots ==> a.slots[k].Waiting?)
    requires SameIds(ins, more, k) && KeptIdOf(more, k) == id && SeenOf(more) == SeenOf(ins) + {k}
    ensures Ordered(Place(a, k, id, name, args), more, order + [k])
  {
    hide KeptIdOf, SeenOf;
    var b := Place(a, k, id, name, args);
    var longer := order + [k];
    PlaceHere(a, k, id, name, args);
    forall j | j in b.slots ensures IdTells(b, j, KeptIdOf(more, j)) {
      if j != k {
        assert IdTells(a, j, KeptIdOf(ins, j));
        if a.slots[j].Placed? {
          PlaceElsewhere(a, k, id, name, args, a.slots[j].at);
        }
      }
    }
    hide Sound, Place, IdTells;
    PlacedRanked(a, order, k);
  }

  lemma PlacedRanked(a: Assembly, order: seq<int>, k: int)
    requires Sound(a) && Ranked(a.slots, order) && (k in a.slots ==> a.slots[k].Waiting?)
    ensures Ranked(a.slots[k := Placed(|a.client.blocks|)], order + [k])
  {
    var slots, longer := a.slots[k := Placed(|a.client.blocks|)], order + [k];
    forall j ensures j in longer <==> j in slots && slots[j].Placed? {
      assert j in longer <==> j in order || j == k;
    }
    forall i, j | 0 <= i < j < |longer| ensures At(slots, longer[i]) < At(slots, longer[j]) {
      assert longer[i] == order[i] && order[i] in order;
      if j < |order| {
        assert order[j] in order;
      }
    }
  }

  // ----- One input -----

  lemma ToolTells(ins: seq<Input>, i: Input)
    requires i.Tool?
    ensures var more := ins + [i];
            && SameIds(ins, more, i.index) && SeenOf(more) == SeenOf(ins) + {i.index}
            && MintedIn(more) == MintedIn(ins) + (if i.index !in SeenOf(ins) && i.id == "" then 1 else 0)
            && NamedOrder(more)
               == NamedOrder(ins) + (if i.name != "" && FirstNameOf(ins, i.index) == "" then [i.index] else [])
            && KeptIdOf(more, i.index)
               == if i.index !in SeenOf(ins) then if i.id == "" then Minted(MintedIn(ins)) else Given(i.id)
                  else if FirstNameOf(ins, i.index) == "" && i.name != "" && i.id != "" then Given(i.id)
                  else KeptIdOf(ins, i.index)
  {
    InitOfSnoc(ins, i);
  }

  lemma NewWaits(a: Assembly, ins: seq<Input>, order: seq<int>, more: seq<Input>, k: int, id: CallId, args: string)
    requires Ordered(a, ins, order) && (k in a.slots ==> a.slots[k].Waiting?)
    requires SameIds(ins, more, k) && KeptIdOf(more, k) == id && SeenOf(more) == SeenOf(ins) + {k}
    ensures Ordered(a.(slots := a.slots[k := Waiting(id, args)]), more, order)
  {
    hide KeptIdOf, SeenOf;
    var b := a.(slots := a.slots[k := Waiting(id, args)]);
    forall j | j in b.slots ensures IdTells(b, j, KeptIdOf(more, j)) {
      if j != k {
        assert IdTells(a, j, KeptIdOf(ins, j));
      }
    }
    assert forall j | j in order :: At(b.slots, j) == At(a.slots, j);
    assert forall j | 0 <= j < |order| :: order[j] in order;
  }

  /** The announcement of a tool, before its fragment is looked at. */
  lemma AnnouncedOrdered(a: Assembly, ins: seq<Input>, i: Input)
    requires Sound(a) && Ordered(a, ins, NamedOrder(ins)) && a.minted == MintedIn(ins) && i.Tool?
    requires forall k | k in a.slots :: a.slots[k].Waiting? <==> FirstNameOf(ins, k) == ""
    requires i.index !in a.slots ==> FirstNameOf(ins, i.index) == ""
    ensures var b, more := Announce(a, i.index, i.id, i.name), ins + [i];
            Ordered(b, more, NamedOrder(more)) && b.minted == MintedIn(more) && i.index in b.slots
  {
    hide KeptIdOf, SeenOf, MintedIn, NamedOrder, FirstNameOf, Place, Sound, Ordered, Closed;
    var more, k := ins + [i], i.index;
    ToolTells(ins, i);
    assert NamedOrder(ins) + [] == NamedOrder(ins);
    OrderedSeen(a, ins, NamedOrder(ins));
    if k !in a.slots {
      var callId := if i.id == "" then Minted(a.minted) else Given(i.id);
      var b := a.(minted := if i.id == "" then a.minted + 1 else a.minted);
      MintedOrdered(a, b.minted, ins, NamedOrder(ins));
      MintedSound(a, b.minted);
      if i.name != "" {
        PlacedOrdered(b, ins, NamedOrder(ins), more, k, callId, i.name, "");
        PlaceMinted(b, k, callId, i.name, "");
      } else {
        ClosedKeepsTools(b.client, TextDelta);
        KeptOrdered(b, Closed(b.client), ins, NamedOrder(ins));
        NewWaits(b.(client := Closed(b.client)), ins, NamedOrder(ins), more, k, callId, "");
      }
    } else if a.slots[k].Waiting? && i.name != "" {
      WaitingId(a, ins, NamedOrder(ins), k);
      var callId := if i.id != "" then Given(i.id) else a.slots[k].id;
      PlacedOrdered(a, ins, NamedOrder(ins), more, k, callId, i.name, a.slots[k].args);
      PlaceMinted(a, k, callId, i.name, a.slots[k].args);
    } else {
      StillOrdered(a, ins, more, k, NamedOrder(ins));
    }
  }

  lemma OrderedSeen(a: Assembly, ins: seq<Input>, order: seq<int>)
    requires Ordered(a, ins, order)
    ensures a.slots.Keys == SeenOf(ins)
  {
  }

  lemma WaitingId(a: Assembly, ins: seq<Input>, order: seq<int>, k: int)
    requires Ordered(a, ins, order) && k in a.slots && a.slots[k].Waiting?
    ensures a.slots[k].id == KeptIdOf(ins, k)
  {
    hide KeptIdOf, SeenOf;
    assert IdTells(a, k, KeptIdOf(ins, k));
  }

  lemma MintedOrdered(a: Assembly, n: nat, ins: seq<Input>, order: seq<int>)
    requires Ordered(a, ins, order)
    ensures Ordered(a.(minted := n), ins, order)
  {
    hide KeptIdOf, SeenOf, Ranked;
    forall k | k in a.slots ensures IdTells(a.(minted := n), k, KeptIdOf(ins, k)) {
      assert IdTells(a, k, KeptIdOf(ins, k));
    }
  }

  lemma MintedSound(a: Assembly, n: nat)
    requires Sound(a)
    ensures Sound(a.(minted := n))
  {
  }

  lemma PlaceMinted(a: Assembly, k: int, id: CallId, name: string, args: string)
    ensures Place(a, k, id, name, args).minted == a.minted && k in Place(a, k, id, name, args).slots
  {
  }

  lemma StillOrdered(a: Assembly, ins: seq<Input>, more: seq<Input>, k: int, order: seq<int>)
    requires Ordered(a, ins, order) && k in a.slots && SameIds(ins, more, k) && KeptIdOf(more, k) == KeptIdOf(ins, k)
    requires SeenOf(more) == SeenOf(ins) + {k}
    ensures Ordered(a, more, order)
  {
    hide KeptIdOf, SeenOf, Ranked;
    forall j | j in a.slots ensures IdTells(a, j, KeptIdOf(more, j)) {
      assert IdTells(a, j, KeptIdOf(ins, j));
    }
  }

  lemma FedOrdered(a: Assembly, ins: seq<Input>, order: seq<int>, k: int, args: string)
    requires Ordered(a, ins, order) && k in a.slots
    ensures Ordered(Feed(a, k, args), ins, order) && Feed(a, k, args).minted == a.minted
  {
    hide KeptIdOf, SeenOf, Ordered;
    if args != "" {
      match a.slots[k]
      case Waiting(id, held) =>
        WaitingId(a, ins, order, k);
        OrderedSeen(a, ins, order);
        NewWaits(a, ins, order, ins, k, id, held + args);
      case Placed(at) =>
        if at < |a.client.blocks| {
          KeptOrdered(a, Appended(a.client, at, args), ins, order);
        }
    }
  }

  lemma OtherTells(ins: seq<Input>, i: Input)
    requires !i.Tool?
    ensures var more := ins + [i];
            SeenOf(more) == SeenOf(ins) && MintedIn(more) == MintedIn(ins) && NamedOrder(more) == NamedOrder(ins) &&
            forall k :: KeptIdOf(more, k) == KeptIdOf(ins, k)
  {
    InitOfSnoc(ins, i);
  }

  lemma OtherOrdered(a: Assembly, ins: seq<Input>, i: Input)
    requires Ordered(a, ins, NamedOrder(ins)) && !i.Tool?
    ensures Ordered(a, ins + [i], NamedOrder(ins + [i])) && MintedIn(ins + [i]) == MintedIn(ins)
  {
    OtherTells(ins, i);
    hide KeptIdOf, SeenOf, NamedOrder, Ranked, MintedIn;
    forall k | k in a.slots ensures IdTells(a, k, KeptIdOf(ins + [i], k)) {
      assert IdTells(a, k, KeptIdOf(ins, k));
    }
  }

  /** Who waits is who has no name. */
  lemma WaitingUnnamed(a: Assembly, ins: seq<Input>)
    requires Agrees(a, ins, OwnerOf(ins), PaddedOf(ins))
    ensures forall k | k in a.slots :: a.slots[k].Waiting? <==> FirstNameOf(ins, k) == ""
    ensures forall k | k !in a.slots :: FirstNameOf(ins, k) == ""
    ensures Sound(a) && WaitingKeys(a) == UnnamedOf(ins)
  {
    hide Sound, OwnerOf, PaddedOf, FirstNameOf, ArgsOf, SeenOf;
    forall k | k in a.slots ensures a.slots[k].Waiting? <==> FirstNameOf(ins, k) == "" {
      assert SlotTells(a, k, FirstNameOf(ins, k), ArgsOf(ins, k), k in PaddedOf(ins));
    }
    forall k | k !in a.slots ensures FirstNameOf(ins, k) == "" {
      UnseenSaysNothing(ins, k);
    }
  }

  ghost predicate InOrder(v: View, ins: seq<Input>) {
    Ordered(v.it, ins, NamedOrder(ins)) && v.it.minted == MintedIn(ins)
  }

  lemma ToolInOrder(v: View, ins: seq<Input>, i: Input)
    requires InStep(v, ins) && InOrder(v, ins) && i.Tool?
    ensures InOrder(OnInput(v, i), ins + [i])
  {
    hide Sound, Announce, Feed, Closed, Ordered, KeptIdOf, SeenOf, NamedOrder, MintedIn, FirstNameOf, Agrees, OwnerOf, PaddedOf;
    var a := v.it.(client := ClosedIf(v.it.client, ThinkingDelta));
    WaitingUnnamed(v.it, ins);
    ClosedKeepsTools(v.it.client, ThinkingDelta);
    KeptOrdered(v.it, a.client, ins, NamedOrder(ins));
    SameBlocksSound(v.it, a.client) by {
      ClosedTypes(v.it.client);
      SoundOpen(v.it);
      ClosedShut(v.it.client);
    }
    AnnouncedOrdered(a, ins, i);
    FedOrdered(Announce(a, i.index, i.id, i.name), ins + [i], NamedOrder(ins + [i]), i.index, i.arguments);
  }

  lemma SoundOpen(a: Assembly)
    requires Sound(a)
    ensures a.client.open ==> a.client.blocks != []
  {
  }

  lemma ClosedShut(c: Client)
    ensures !Closed(c).open
  {
  }

  /** Text, thinking and chunk headers leave tools where they are. */
  lemma OtherInOrder(v: View, ins: seq<Input>, i: Input)
    requires InOrder(v, ins) && !i.Tool? && !i.End?
    ensures InOrder(OnInput(v, i), ins + [i])
  {
    hide Ordered, KeptIdOf, SeenOf, NamedOrder, MintedIn, Streamed;
    var c := OnInput(v, i).it.client;
    assert KeepsTools(v.it.client, c) by {
      if i.Reasoning? {
        StreamedKeepsTools(v.it.client, ThinkingDelta, ThinkingBlock(""), i.text);
      } else if i.Text? {
        StreamedKeepsTools(v.it.client, TextDelta, TextBlock(""), i.text);
      }
    }
    OtherTells(ins, i);
    KeptOrdered(v.it, c, ins, NamedOrder(ins));
    assert OnInput(v, i).it == v.it.(client := c);
    OtherOrdered(OnInput(v, i).it, ins, i);
  }

  lemma NothingInOrder(v: View)
    requires v == InitialView(v.responseId, v.model)
    ensures InOrder(v, [])
  {
  }

  lemma {:induction false} RunInOrder(v: View, ins: seq<Input>)
    requires v == InitialView(v.responseId, v.model) && End !in ins
    ensures InOrder(Run(v, ins), ins)
  {
    if ins == [] {
      NothingInOrder(v);
    } else {
      hide InOrder, InStep, OnInput;
      var before, i := Init(ins), Last(ins);
      RunInOrder(v, before);
      RunInStep(v, before);
      assert before + [i] == ins;
      if i.Tool? {
        ToolInOrder(Run(v, before), before, i);
      } else {
        OtherInOrder(Run(v, before), before, i);
      }
    }
  }

  // ----- The end of the stream -----

  predicate NoRepeat(ks: seq<int>) {
    forall i, j | 0 <= i < j < |ks| :: ks[i] != ks[j]
  }

  lemma {:induction false} PlaceAllOrdered(a: Assembly, ins: seq<Input>, order: seq<int>, ks: seq<int>)
    requires Sound(a) && Ordered(a, ins, order) && NoRepeat(ks)
    requires forall k | k in ks :: k in a.slots && a.slots[k].Waiting?
    ensures Ordered(PlaceAll(a, ks), ins, order + ks) && Sound(PlaceAll(a, ks))
  {
    if ks == [] {
      assert order + ks == order;
    } else {
      var before, k := Init(ks), Last(ks);
      assert ks == before + [k];
      assert forall j | j in before :: j in ks;
      hide Sound, KeptIdOf, SeenOf, Place;
      PlaceAllOrdered(a, ins, order, before);
      var b := PlaceAll(a, before);
      assert k in ks && k !in order && k !in before;
      assert k in b.slots && b.slots[k].Waiting?;
      WaitingId(b, ins, order + before, k);
      OrderedSeen(b, ins, order + before);
      hide Ordered;
      assert SameIds(ins, ins, k) && SeenOf(ins) == SeenOf(ins) + {k};
      PlacedOrdered(b, ins, order + before, ins, k, b.slots[k].id, "", b.slots[k].args);
      PlaceSound(b, k, b.slots[k].id, "", b.slots[k].args);
      Associates(order, before, [k]);
    }
  }

  lemma EndOrdered(v: View, ins: seq<Input>)
    requires InStep(v, ins) && InOrder(v, ins) && !v.it.client.stopped
    ensures Ordered(OnInput(v, End).it, ins, BlockOrder(ins))
  {
    hide Sound, Agrees, Ordered, KeptIdOf, SeenOf, NamedOrder, MintedIn, FirstNameOf, OwnerOf, PaddedOf, PlaceAll, Closed;
    WaitingUnnamed(v.it, ins);
    var a := v.it.(client := Started(v.it.client, v.responseId, v.model));
    KeptOrdered(v.it, a.client, ins, NamedOrder(ins));
    StartedSound(v.it, a.client);
    assert WaitingKeys(a) == WaitingKeys(v.it);
    var ks := Sorted(WaitingKeys(a));
    PlaceAllOrdered(a, ins, NamedOrder(ins), ks);
    var b := PlaceAll(a, ks);
    ClosedKeepsTools(b.client, TextDelta);
    KeptOrdered(b, Closed(b.client), ins, BlockOrder(ins));
    KeptOrdered(b.(client := Closed(b.client)), OnInput(v, End).it.client, ins, BlockOrder(ins));
  }

  lemma StartedSound(a: Assembly, c: Client)
    requires Sound(a) && c.blocks == a.client.blocks && c.open == a.client.open
    ensures Sound(a.(client := c))
  {
    SameBlocksSound(a, c);
  }

  /** The tool_use blocks among these. */
  function ToolBlocks(bs: seq<Block>): seq<Block> {
    if bs == [] then [] else ToolBlocks(Init(bs)) + (if Last(bs).ToolUseBlock? then [Last(bs)] else [])
  }

  function Picked(bs: seq<Block>, ps: seq<nat>): seq<Block>
    requires forall i | 0 <= i < |ps| :: ps[i] < |bs|
  {
    seq(|ps|, i requires 0 <= i < |ps| => bs[ps[i]])
  }

  lemma {:induction false} ToolBlocksAt(bs: seq<Block>, ps: seq<nat>)
    requires forall i, j | 0 <= i < j < |ps| :: ps[i] < ps[j]
    requires forall i | 0 <= i < |ps| :: ps[i] < |bs| && bs[ps[i]].ToolUseBlock?
    requires forall p: nat | p < |bs| && bs[p].ToolUseBlock? :: p in ps
    ensures ToolBlocks(bs) == Picked(bs, ps)
  {
    if bs != [] {
      var n := |bs| - 1;
      if bs[n].ToolUseBlock? {
        assert n in ps;
        assert Last(ps) == n;
        assert forall p: nat | p in ps && p != n :: p in Init(ps);
        ToolBlocksAt(Init(bs), Init(ps));
        assert Picked(bs, ps) == Picked(Init(bs), Init(ps)) + [bs[n]];
      } else {
        forall i | 0 <= i < |ps| ensures ps[i] < n {
          assert ps[i] != n;
        }
        ToolBlocksAt(Init(bs), ps);
        assert Picked(bs, ps) == Picked(Init(bs), ps);
      }
    }
  }

  /** The block a placed tool owns, told in full. */
  lemma BlockTold(a: Assembly, ins: seq<Input>, order: seq<int>, k: int)
    requires Ordered(a, ins, order) && k in a.slots
    requires Delivered(a, k, FirstNameOf(ins, k), AssembledArgs(ins, k))
    ensures At(a.slots, k) < |a.client.blocks| && a.client.blocks[At(a.slots, k)] == BlockFor(ins, k)
  {
    hide KeptIdOf, SeenOf, FirstNameOf, AssembledArgs;
    assert IdTells(a, k, KeptIdOf(ins, k));
  }

  lemma OwnersCover(a: Assembly, ins: seq<Input>, order: seq<int>, p: nat)
    requires Sound(a) && Ordered(a, ins, order) && p < |a.client.blocks| && a.client.blocks[p].ToolUseBlock?
    ensures exists i :: 0 <= i < |order| && At(a.slots, order[i]) == p
  {
    hide KeptIdOf, SeenOf;
    assert Owned(a.slots, p);
    var k :| k in a.slots && a.slots[k] == Placed(p);
    assert k in order;
    var i :| 0 <= i < |order| && order[i] == k;
    assert At(a.slots, order[i]) == p;
  }

  lemma OrderIsSeen(a: Assembly, ins: seq<Input>, order: seq<int>)
    requires Ordered(a, ins, order) && forall k | k in a.slots :: a.slots[k].Placed?
    ensures NoRepeat(order) && forall k :: k in order <==> k in SeenOf(ins)
  {
    hide KeptIdOf, SeenOf;
  }

  lemma ToolBlocksTold(a: Assembly, ins: seq<Input>, order: seq<int>)
    requires Sound(a) && Ordered(a, ins, order)
    requires forall k | k in a.slots :: Delivered(a, k, FirstNameOf(ins, k), AssembledArgs(ins, k))
    ensures ToolBlocks(a.client.blocks) == BlocksFor(ins, order)
  {
    hide KeptIdOf, SeenOf, FirstNameOf, AssembledArgs, Sound;
    var bs := a.client.blocks;
    var ps: seq<nat> := seq(|order|, i requires 0 <= i < |order| => At(a.slots, order[i]));
    forall i | 0 <= i < |order| ensures ps[i] < |bs| && bs[ps[i]] == BlockFor(ins, order[i]) {
      assert order[i] in order;
      BlockTold(a, ins, order, order[i]);
    }
    forall p: nat | p < |bs| && bs[p].ToolUseBlock? ensures p in ps {
      OwnersCover(a, ins, order, p);
      var i :| 0 <= i < |order| && At(a.slots, order[i]) == p;
      assert ps[i] == p;
    }
    ToolBlocksAt(bs, ps);
  }

  /** No tool is lost or doubled: when the stream has ended its tool_use blocks are,
      in order, one for every tool seen, first those whose names came, as they came,
      then the others, each with the tool's id, name and arguments. Nothing waits any
      more, and the fragments were all on time exactly when the inputs delivered none
      late. */
  lemma EveryToolDelivered(v: View, ins: seq<Input>)
    requires v == InitialView(v.responseId, v.model) && End !in ins
    ensures var a, order := Run(v, ins + [End]).it, BlockOrder(ins);
            && NoRepeat(order) && (forall k :: k in order <==> k in SeenOf(ins))
            && ToolBlocks(a.client.blocks) == BlocksFor(ins, order)
            && WaitingKeys(a) == {} && a.slots.Keys == SeenOf(ins)
            && a.client.onTime == !LateOf(ins)
  {
    hide Run, Sound, Ordered, KeptIdOf, SeenOf, FirstNameOf, AssembledArgs, NamedOrder, InStep, InOrder, OnInput, ToolBlocks;
    RunSnoc(v, ins, End);
    RunOpen(v, ins);
    RunInStep(v, ins);
    RunInOrder(v, ins);
    EndOrdered(Run(v, ins), ins);
    EndedInStep(v, ins);
    var a := Run(v, ins + [End]).it;
    forall k | k in a.slots ensures a.slots[k].Placed? {
      assert Delivered(a, k, FirstNameOf(ins, k), AssembledArgs(ins, k));
    }
    OrderIsSeen(a, ins, BlockOrder(ins));
    ToolBlocksTold(a, ins, BlockOrder(ins));
  }

  // ----- Under which id a tool goes out -----

  /** An id that was drawn is drawn for one tool only. */
  lemma {:induction false} DrawnOnce(ins: seq<Input>, j: int, k: int)
    requires j in SeenOf(ins) && k in SeenOf(ins) && KeptIdOf(ins, j).Minted?
    ensures KeptIdOf(ins, j).n < MintedIn(ins)
    ensures j != k ==> KeptIdOf(ins, j) != KeptIdOf(ins, k)
  {
    var before, i := Init(ins), Last(ins);
    if j in SeenOf(before) && KeptIdOf(before, j).Minted? {
      DrawnOnce(before, j, j);
    }
    if k in SeenOf(before) && KeptIdOf(before, k).Minted? {
      DrawnOnce(before, k, k);
    }
    if j in SeenOf(before) && k in SeenOf(before) && KeptIdOf(before, j).Minted? {
      DrawnOnce(before, j, k);
    }
  }

  /** The id a tool keeps is one that came for it, or one that was drawn. */
  predicate CameFor(ins: seq<Input>, k: int, id: string) {
    exists i | 0 <= i < |ins| :: ins[i].Tool? && ins[i].index == k && ins[i].id == id
  }

  lemma {:induction false} KeptCame(ins: seq<Input>, k: int)
    requires k in SeenOf(ins) && KeptIdOf(ins, k).Given?
    ensures KeptIdOf(ins, k).id != "" && CameFor(ins, k, KeptIdOf(ins, k).id)
  {
    var before, i := Init(ins), Last(ins);
    if i.Tool? && i.index == k && KeptIdOf(ins, k) == Given(i.id) && i.id != "" {
      assert ins[|ins| - 1] == i;
    } else {
      KeptCame(before, k);
      var n :| 0 <= n < |before| && before[n].Tool? && before[n].index == k && before[n].id == KeptIdOf(before, k).id;
      assert ins[n] == before[n];
    }
  }

  /** Every tool goes out under exactly the id it kept, unless that has the legacy
      prefix; and tools that kept different such ids go out under different ids. */
  lemma IdsDelivered(v: View, ins: seq<Input>, i: nat, j: nat)
    requires v == InitialView(v.responseId, v.model) && End !in ins && i < |BlockOrder(ins)| && j < |BlockOrder(ins)|
    ensures var tools := ToolBlocks(Run(v, ins + [End]).it.client.blocks);
            var kept, other := KeptIdOf(ins, BlockOrder(ins)[i]), KeptIdOf(ins, BlockOrder(ins)[j]);
            && |tools| == |BlockOrder(ins)| && tools[i].ToolUseBlock? && tools[j].ToolUseBlock?
            && (!Legacy(kept) ==> tools[i].id == kept)
            && (Legacy(kept) ==> tools[i].id.Given? && "fc_" + tools[i].id.id == kept.id)
            && (kept.Given? ==> kept.id != "" && CameFor(ins, BlockOrder(ins)[i], kept.id))
            && (!Legacy(kept) && !Legacy(other) && kept != other ==> tools[i].id != tools[j].id)
            && (kept.Minted? && i != j ==> kept != other)
  {
    hide Run, KeptIdOf, SeenOf, BlockOrder, ToolBlocks, MintedIn, FirstNameOf, AssembledArgs, CameFor;
    var order := BlockOrder(ins);
    EveryToolDelivered(v, ins);
    assert order[i] in order && order[j] in order;
    var kept := KeptIdOf(ins, order[i]);
    CallIdKept(kept);
    CallIdKept(KeptIdOf(ins, order[j]));
    if kept.Given? {
      KeptCame(ins, order[i]);
    } else {
      DrawnOnce(ins, order[i], order[j]);
    }
  }
}
