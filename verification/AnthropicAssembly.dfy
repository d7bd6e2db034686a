/** What an Anthropic client holds after a run of Chat Completions inputs
    (chatcompletions_anthropic_bridge.go), without saying which events got it
    there. The converter class is proved against this; the stream properties are
    proved about it. */
module AnthropicAssembly {
  import opened Common
  import opened ChatChunks
  import opened AnthropicProtocol

  /** A tool index the upstream has used: its block is still waiting for a name,
      or it was placed as the block with this number. */
  datatype Slot = Waiting(id: CallId, args: string) | Placed(at: nat)

  /** The client, the tools, and how many call ids were drawn. */
  datatype Assembly = Assembly(client: Client, slots: map<int, Slot>, minted: nat)

  datatype View = View(
    it: Assembly,
    responseId: string,
    model: string,
    finish: string,
    usage: Usage)

  const NO_USAGE := Usage(0, 0, 0, 0)

  function InitialView(responseId: string, model: string): View {
    View(Assembly(FRESH_CLIENT, map[], 0), responseId, model, "", NO_USAGE)
  }

  /** chatUsageToAnthropicUsage */
  function AnthropicUsageOf(u: ChatUsage): Usage {
    var cached := if u.details.Some? then u.details.value.cached else 0;
    var creation :=
      if u.details.None? then 0
      else if u.details.value.write > 0 then u.details.value.write
      else u.details.value.creation;
    var input := u.prompt - cached - creation;
    Usage(if input < 0 then 0 else input, u.completion, cached, creation)
  }

  /** ccFinishReasonToAnthropicStopReason */
  function StopReason(finish: string, hasTool: bool): string {
    if finish == "length" then "max_tokens"
    else if finish == "tool_calls" || hasTool then "tool_use"
    else "end_turn"
  }

  predicate OpenIs(c: Client, kind: DeltaKind) {
    c.open && c.blocks != [] && Accepts(c.blocks[|c.blocks| - 1], kind)
  }

  /** The open block ends. A tool that got no arguments gets "{}". */
  function Closed(c: Client): Client {
    if !c.open then c
    else if OpenIs(c, InputJsonDelta) && c.blocks[|c.blocks| - 1].body == ""
    then Appended(c, |c.blocks| - 1, "{}").(open := false)
    else Touch(c).(open := false)
  }

  function ClosedIf(c: Client, kind: DeltaKind): Client {
    if OpenIs(c, kind) then Closed(c) else c
  }

  /** A block of this kind is open, a new one if need be. */
  function Ensured(c: Client, kind: DeltaKind, empty: Block): Client {
    if OpenIs(c, kind) then c else Opened(Closed(c), empty)
  }

  /** Text for the open block of this kind. */
  function Streamed(c: Client, kind: DeltaKind, empty: Block, text: string): Client {
    var o := Ensured(c, kind, empty);
    Appended(o, |o.blocks| - 1, text)
  }

  /** A tool block is announced; arguments that waited for the name follow. */
  function WithTool(c: Client, id: CallId, name: string, args: string): Client {
    var o := Opened(Closed(c), ToolUseBlock(FromResponsesCallId(id), name, ""));
    if args == "" then o else Appended(o, |o.blocks| - 1, args)
  }

  function Place(a: Assembly, k: int, id: CallId, name: string, args: string): Assembly {
    a.(client := WithTool(a.client, id, name, args), slots := a.slots[k := Placed(|a.client.blocks|)])
  }

  /** A tool index never seen before. */
  function Introduce(a: Assembly, k: int, id: string, name: string): Assembly {
    var callId := if id == "" then Minted(a.minted) else Given(id);
    var b := a.(minted := if id == "" then a.minted + 1 else a.minted);
    if name != "" then Place(b, k, callId, name, "")
    else b.(client := Closed(b.client), slots := b.slots[k := Waiting(callId, "")])
  }

  /** The tool is known and, once its name is there, placed. */
  function Announce(a: Assembly, k: int, id: string, name: string): Assembly {
    if k !in a.slots then Introduce(a, k, id, name)
    else if a.slots[k].Waiting? && name != "" then
      Place(a, k, if id != "" then Given(id) else a.slots[k].id, name, a.slots[k].args)
    else a
  }

  function Feed(a: Assembly, k: int, args: string): Assembly {
    if args == "" || k !in a.slots then a
    else match a.slots[k]
      case Waiting(id, held) => a.(slots := a.slots[k := Waiting(id, held + args)])
      case Placed(at) => if at < |a.client.blocks| then a.(client := Appended(a.client, at, args)) else a
  }

  function OnTool(a: Assembly, k: int, id: string, name: string, args: string): Assembly {
    Feed(Announce(a.(client := ClosedIf(a.client, ThinkingDelta)), k, id, name), k, args)
  }

  function WaitingKeys(a: Assembly): set<int> {
    set k | k in a.slots && a.slots[k].Waiting?
  }

  /** The tools whose name never came are placed without one, lowest index first. */
  function PlaceAll(a: Assembly, ks: seq<int>): Assembly {
    if ks == [] then a
    else
      var b := PlaceAll(a, Init(ks));
      var k := Last(ks);
      if k in b.slots && b.slots[k].Waiting? then Place(b, k, b.slots[k].id, "", b.slots[k].args) else b
  }

  function Started(c: Client, responseId: string, model: string): Client {
    if c.message.Some? then c else Touch(c).(message := Some((responseId, model)))
  }

  function Ended(c: Client, reason: string, usage: Usage): Client {
    Touch(c).(ending := Some((reason, usage)), stopped := true)
  }

  function HeadRead(v: View, id: string, model: string, usage: Option<ChatUsage>): View {
    v.(responseId := if id != "" then id else v.responseId,
       model := if v.model == "" then model else v.model,
       usage := if usage.Some? then AnthropicUsageOf(usage.value) else v.usage)
  }

  function OnHead(v: View, id: string, model: string, usage: Option<ChatUsage>): View {
    var w := HeadRead(v, id, model, usage);
    w.(it := w.it.(client := Started(w.it.client, w.responseId, w.model)))
  }

  function OnEnd(v: View): View {
    if v.it.client.stopped then v
    else
      var a := v.it.(client := Started(v.it.client, v.responseId, v.model));
      var b := PlaceAll(a, Sorted(WaitingKeys(a)));
      var reason := StopReason(v.finish, v.it.slots.Keys != {});
      v.(it := b.(client := Ended(Closed(b.client), reason, v.usage)))
  }

  function OnInput(v: View, i: Input): View {
    match i
    case Head(id, model, usage) => OnHead(v, id, model, usage)
    case Reasoning(t) =>
      if t == "" then v
      else v.(it := v.it.(client := Streamed(v.it.client, ThinkingDelta, ThinkingBlock(""), t)))
    case Text(t) =>
      if t == "" then v
      else v.(it := v.it.(client := Streamed(v.it.client, TextDelta, TextBlock(""), t)))
    case Tool(k, id, name, args) => v.(it := OnTool(v.it, k, id, name, args))
    case Finish(reason) => if reason == "" then v else v.(finish := reason)
    case End => OnEnd(v)
  }

  function Run(v: View, ins: seq<Input>): View {
    if ins == [] then v else OnInput(Run(v, Init(ins)), Last(ins))
  }

  // ----- Tools and their blocks -----

  /** Every placed tool owns a tool_use block, no two own the same one, and every
      tool_use block has an owner. */
  ghost predicate Sound(a: Assembly) {
    && (a.client.open ==> a.client.blocks != [])
    && (forall k | k in a.slots && a.slots[k].Placed? ::
          a.slots[k].at < |a.client.blocks| && a.client.blocks[a.slots[k].at].ToolUseBlock?)
    && (forall j, k | j in a.slots && k in a.slots && a.slots[j].Placed? && a.slots[j] == a.slots[k] :: j == k)
    && (forall i | 0 <= i < |a.client.blocks| && a.client.blocks[i].ToolUseBlock? :: Owned(a.slots, i))
  }

  ghost predicate Owned(slots: map<int, Slot>, i: nat) {
    exists k :: k in slots && slots[k] == Placed(i)
  }

  lemma PlaceSound(a: Assembly, k: int, id: CallId, name: string, args: string)
    requires Sound(a) && (k in a.slots ==> a.slots[k].Waiting?)
    ensures Sound(Place(a, k, id, name, args))
  {
    var b := Place(a, k, id, name, args);
    forall i | 0 <= i < |b.client.blocks| && b.client.blocks[i].ToolUseBlock? ensures Owned(b.slots, i) {
      if i < |a.client.blocks| {
        assert Owned(a.slots, i);
        var j :| j in a.slots && a.slots[j] == Placed(i);
        assert b.slots[j] == Placed(i);
      } else {
        assert b.slots[k] == Placed(i);
      }
    }
  }

  lemma AnnounceSound(a: Assembly, k: int, id: string, name: string)
    requires Sound(a)
    ensures Sound(Announce(a, k, id, name)) && k in Announce(a, k, id, name).slots
  {
    var callId := if id == "" then Minted(a.minted) else Given(id);
    var b := a.(minted := if id == "" then a.minted + 1 else a.minted);
    if k !in a.slots {
      if name != "" {
        PlaceSound(b, k, callId, name, "");
      } else {
        WaitSound(b, k, callId);
      }
    } else if a.slots[k].Waiting? && name != "" {
      PlaceSound(a, k, if id != "" then Given(id) else a.slots[k].id, name, a.slots[k].args);
    }
  }

  lemma WaitSound(a: Assembly, k: int, id: CallId)
    requires Sound(a) && k !in a.slots
    ensures Sound(a.(client := Closed(a.client), slots := a.slots[k := Waiting(id, "")]))
  {
    var b := a.(client := Closed(a.client), slots := a.slots[k := Waiting(id, "")]);
    forall i | 0 <= i < |b.client.blocks| && b.client.blocks[i].ToolUseBlock? ensures Owned(b.slots, i) {
      assert Owned(a.slots, i);
      var j :| j in a.slots && a.slots[j] == Placed(i);
      assert b.slots[j] == Placed(i);
    }
  }

  lemma SameBlocksSound(a: Assembly, c: Client)
    requires Sound(a) && (c.open ==> c.blocks != [])
    requires |a.client.blocks| <= |c.blocks|
    requires forall i | 0 <= i < |a.client.blocks| :: c.blocks[i].ToolUseBlock? == a.client.blocks[i].ToolUseBlock?
    requires forall i | |a.client.blocks| <= i < |c.blocks| :: !c.blocks[i].ToolUseBlock?
    ensures Sound(a.(client := c))
  {
    forall i | 0 <= i < |c.blocks| && c.blocks[i].ToolUseBlock? ensures Owned(a.slots, i) {
      assert a.client.blocks[i].ToolUseBlock?;
    }
  }

  lemma EnsuredTypes(c: Client, kind: DeltaKind, empty: Block)
    requires !empty.ToolUseBlock? && Accepts(empty, kind)
    ensures var e := Ensured(c, kind, empty);
            e.open && OpenIs(e, kind) && |c.blocks| <= |e.blocks| &&
            (forall i | 0 <= i < |c.blocks| :: e.blocks[i].ToolUseBlock? == c.blocks[i].ToolUseBlock?) &&
            (forall i | |c.blocks| <= i < |e.blocks| :: !e.blocks[i].ToolUseBlock?)
  {
    ClosedTypes(c);
    hide Closed;
  }

  lemma ClosedTypes(c: Client)
    ensures |Closed(c).blocks| == |c.blocks|
    ensures forall i | 0 <= i < |c.blocks| :: Closed(c).blocks[i].ToolUseBlock? == c.blocks[i].ToolUseBlock?
  {
  }

  lemma StreamedSound(a: Assembly, kind: DeltaKind, empty: Block, text: string)
    requires Sound(a) && !empty.ToolUseBlock? && Accepts(empty, kind)
    ensures Sound(a.(client := Streamed(a.client, kind, empty, text)))
  {
    hide Sound, Ensured;
    var e := Ensured(a.client, kind, empty);
    EnsuredTypes(a.client, kind, empty);
    SameBlocksSound(a, e);
    SameBlocksSound(a.(client := e), Appended(e, |e.blocks| - 1, text));
  }

  lemma FeedSound(a: Assembly, k: int, args: string)
    requires Sound(a)
    ensures Sound(Feed(a, k, args))
  {
    if args != "" && k in a.slots {
      match a.slots[k]
      case Placed(at) =>
        SameBlocksSound(a, Appended(a.client, at, args));
      case Waiting(id, held) =>
        var b := Feed(a, k, args);
        forall i | 0 <= i < |b.client.blocks| && b.client.blocks[i].ToolUseBlock? ensures Owned(b.slots, i) {
          assert Owned(a.slots, i);
          var j :| j in a.slots && a.slots[j] == Placed(i);
          assert b.slots[j] == Placed(i);
        }
    }
  }

  lemma OnToolSound(a: Assembly, k: int, id: string, name: string, args: string)
    requires Sound(a)
    ensures Sound(a.(client := ClosedIf(a.client, ThinkingDelta))) && Sound(OnTool(a, k, id, name, args))
  {
    SameBlocksSound(a, ClosedIf(a.client, ThinkingDelta));
    var b := a.(client := ClosedIf(a.client, ThinkingDelta));
    AnnounceSound(b, k, id, name);
    FeedSound(Announce(b, k, id, name), k, args);
  }

  lemma RunSnoc(v: View, ins: seq<Input>, i: Input)
    ensures Run(v, ins + [i]) == OnInput(Run(v, ins), i)
  {
    InitOfSnoc(ins, i);
  }

  lemma PlaceAllSound(a: Assembly, ks: seq<int>)
    requires Sound(a)
    ensures Sound(PlaceAll(a, ks))
  {
    if ks != [] {
      PlaceAllSound(a, Init(ks));
      var b := PlaceAll(a, Init(ks));
      var k := Last(ks);
      if k in b.slots && b.slots[k].Waiting? {
        PlaceSound(b, k, b.slots[k].id, "", b.slots[k].args);
      }
    }
  }

  lemma InputSound(v: View, i: Input)
    requires Sound(v.it)
    ensures Sound(OnInput(v, i).it)
  {
    hide Streamed, OnTool, PlaceAll, Sorted;
    match i
    case Head(_, _, _) =>
      SameBlocksSound(v.it, OnInput(v, i).it.client);
    case Reasoning(t) =>
      StreamedSound(v.it, ThinkingDelta, ThinkingBlock(""), t);
    case Text(t) =>
      StreamedSound(v.it, TextDelta, TextBlock(""), t);
    case Tool(k, id, name, args) =>
      OnToolSound(v.it, k, id, name, args);
    case Finish(_) =>
    case End =>
      if !v.it.client.stopped {
        var a := v.it.(client := Started(v.it.client, v.responseId, v.model));
        SameBlocksSound(v.it, a.client);
        var b := PlaceAll(a, Sorted(WaitingKeys(a)));
        PlaceAllSound(a, Sorted(WaitingKeys(a)));
        SameBlocksSound(b, OnInput(v, i).it.client);
      }
  }

  lemma {:induction false} RunSound(v: View, ins: seq<Input>)
    requires Sound(v.it)
    ensures Sound(Run(v, ins).it)
  {
    if ins != [] {
      RunSound(v, Init(ins));
      InputSound(Run(v, Init(ins)), Last(ins));
    }
  }

  predicate PlacedWell(a: Assembly, k: int) {
    k in a.slots &&
    (a.slots[k].Placed? ==> a.slots[k].at < |a.client.blocks| && a.client.blocks[a.slots[k].at].ToolUseBlock?)
  }

  /** The next tool input finds its block, if it has one. */
  predicate CanFeed(a: Assembly, i: Input) {
    i.Tool? ==> PlacedWell(Announce(a.(client := ClosedIf(a.client, ThinkingDelta)), i.index, i.id, i.name), i.index)
  }

  lemma RunCanFeed(v: View, ins: seq<Input>, i: Input)
    requires v == InitialView(v.responseId, v.model)
    ensures CanFeed(Run(v, ins).it, i)
  {
    RunSound(v, ins);
    if i.Tool? {
      var a := Run(v, ins).it;
      OnToolSound(a, i.index, i.id, i.name, "");
      AnnounceSound(a.(client := ClosedIf(a.client, ThinkingDelta)), i.index, i.id, i.name);
    }
  }

  // ----- What no fragment changes -----

  predicate SameEnds(c: Client, d: Client) {
    d.message == c.message && d.stopped == c.stopped && d.ending == c.ending
  }

  lemma PlaceKeeps(a: Assembly, k: int, id: CallId, name: string, args: string)
    ensures SameEnds(a.client, Place(a, k, id, name, args).client)
  {
  }

  lemma AnnounceKeeps(a: Assembly, k: int, id: string, name: string)
    ensures SameEnds(a.client, Announce(a, k, id, name).client)
  {
  }

  lemma OnToolKeeps(a: Assembly, i: Input)
    requires i.Tool?
    ensures SameEnds(a.client, OnTool(a, i.index, i.id, i.name, i.arguments).client)
  {
    var b := a.(client := ClosedIf(a.client, ThinkingDelta));
    AnnounceKeeps(b, i.index, i.id, i.name);
    var d := Announce(b, i.index, i.id, i.name);
    assert SameEnds(d.client, Feed(d, i.index, i.arguments).client);
  }

  lemma StreamedKeeps(c: Client, kind: DeltaKind, empty: Block, text: string)
    ensures SameEnds(c, Streamed(c, kind, empty, text))
  {
    var e := Ensured(c, kind, empty);
    assert SameEnds(c, e);
  }

  lemma {:induction false} PlaceAllKeeps(a: Assembly, ks: seq<int>)
    ensures var b := PlaceAll(a, ks);
            SameEnds(a.client, b.client) && b.slots.Keys == a.slots.Keys && b.minted == a.minted
  {
    if ks != [] {
      PlaceAllKeeps(a, Init(ks));
      var b := PlaceAll(a, Init(ks));
      var k := Last(ks);
      if k in b.slots && b.slots[k].Waiting? {
        PlaceKeeps(b, k, b.slots[k].id, "", b.slots[k].args);
      }
    }
  }

  lemma {:induction false} RunEnding(v: View, ins: seq<Input>)
    requires v == InitialView(v.responseId, v.model)
    ensures var c := Run(v, ins).it.client; c.stopped == c.ending.Some?
  {
    if ins != [] {
      RunEnding(v, Init(ins));
      var w := Run(v, Init(ins));
      match Last(ins)
      case Tool(_, _, _, _) => OnToolKeeps(w.it, Last(ins));
      case Reasoning(t) => StreamedKeeps(w.it.client, ThinkingDelta, ThinkingBlock(""), t);
      case Text(t) => StreamedKeeps(w.it.client, TextDelta, TextBlock(""), t);
      case _ =>
    }
  }
}
