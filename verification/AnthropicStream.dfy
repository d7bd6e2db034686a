/** The stateful converter from Chat Completions chunks to Anthropic events
    (chatcompletions_anthropic_bridge.go). */
module AnthropicStream {
  import opened Common
  import opened ChatChunks
  import opened AnthropicProtocol
  import opened AnthropicAssembly

  datatype BlockType = NoBlock | InText | InThinking | InToolUse

  function TypeOf(b: Block): BlockType {
    match b
    case ThinkingBlock(_) => InThinking
    case TextBlock(_) => InText
    case ToolUseBlock(_, _, _) => InToolUse
  }

  function EmptyBlock(kind: DeltaKind): Block {
    match kind
    case ThinkingDelta => ThinkingBlock("")
    case TextDelta => TextBlock("")
    case InputJsonDelta => ToolUseBlock(Given(""), "", "")
  }

  /** The block fields, and what they are for a given client. */
  datatype Standing = Standing(index: int, open: bool, current: BlockType, hadDelta: bool)

  function StandingOf(c: Client): Standing {
    if !c.open then Standing(|c.blocks|, false, NoBlock, false)
    else if c.blocks == [] then Standing(-1, true, NoBlock, false)
    else
      var b := c.blocks[|c.blocks| - 1];
      Standing(|c.blocks| - 1, true, TypeOf(b), b.ToolUseBlock? && b.body != "")
  }

  /** The four tool maps, and what they are for given slots. */
  datatype ToolMaps = ToolMaps(
    blockIndex: map<int, nat>, announced: map<int, bool>, pendingId: map<int, CallId>, pendingArgs: map<int, string>)

  function MapsOf(slots: map<int, Slot>): ToolMaps {
    ToolMaps(
      map k | k in slots && slots[k].Placed? :: slots[k].at,
      map k | k in slots :: slots[k].Placed?,
      map k | k in slots && slots[k].Waiting? :: slots[k].id,
      map k | k in slots && slots[k].Waiting? && slots[k].args != "" :: slots[k].args)
  }

  lemma ClosingEvents(c: Client, index: nat, current: BlockType, hadDelta: bool)
    requires StandingOf(c) == Standing(index, true, current, hadDelta)
    ensures if current.InToolUse? && !hadDelta then
              var d := Accept(c, BlockDelta(index, InputJsonDelta, "{}"));
              d.Some? && Accept(d.value, BlockStop(index)) == Some(Closed(c))
            else Accept(c, BlockStop(index)) == Some(Closed(c))
    ensures StandingOf(Closed(c)) == Standing(index + 1, false, NoBlock, false)
  {
  }

  /** A block starts, and its first fragment follows. */
  lemma OpeningEvents(c: Client, b: Block, kind: DeltaKind, text: string)
    requires c.message.Some? && !c.open && b.body == "" && Accepts(b, kind) && text != ""
    ensures var n := |c.blocks|;
            var o := Opened(c, b);
            Accept(c, BlockStart(n, b)) == Some(o) &&
            StandingOf(o) == Standing(n, true, TypeOf(b), false) &&
            Accept(o, BlockDelta(n, kind, text)) == Some(Appended(o, n, text)) &&
            StandingOf(Appended(o, n, text)) == Standing(n, true, TypeOf(b), b.ToolUseBlock?)
  {
  }

  lemma ContinuingEvent(c: Client, index: nat, current: BlockType, hadDelta: bool, kind: DeltaKind, text: string)
    requires StandingOf(c) == Standing(index, true, current, hadDelta) && text != "" && OpenIs(c, kind)
    ensures Accept(c, BlockDelta(index, kind, text)) == Some(Appended(c, index, text))
    ensures StandingOf(Appended(c, index, text)) == Standing(index, true, current, kind.InputJsonDelta?)
  {
  }

  lemma PlacingLink(slots: map<int, Slot>, k: int, at: nat)
    ensures var m := MapsOf(slots);
            MapsOf(slots[k := Placed(at)])
            == ToolMaps(m.blockIndex[k := at], m.announced[k := true], m.pendingId - {k}, m.pendingArgs - {k})
  {
  }

  lemma WaitingLink(slots: map<int, Slot>, k: int, id: CallId, args: string)
    requires k in slots ==> slots[k].Waiting?
    ensures var m := MapsOf(slots);
            MapsOf(slots[k := Waiting(id, args)])
            == ToolMaps(m.blockIndex, m.announced[k := false], m.pendingId[k := id],
                        if args == "" then m.pendingArgs - {k} else m.pendingArgs[k := args])
  {
  }

  lemma LookupLink(slots: map<int, Slot>, k: int)
    ensures var m := MapsOf(slots);
            && (k in m.announced <==> k in slots)
            && (k in slots ==> m.announced[k] == slots[k].Placed?)
            && (k in slots && slots[k].Placed? ==> k in m.blockIndex && m.blockIndex[k] == slots[k].at)
            && (k in slots && slots[k].Waiting? ==>
                  k in m.pendingId && m.pendingId[k] == slots[k].id &&
                  slots[k].args == (if k in m.pendingArgs then m.pendingArgs[k] else ""))
            && (!(k in slots && slots[k].Waiting?) ==> k !in m.pendingId && k !in m.pendingArgs)
  {
  }

  lemma ClosingTwice(c: Client, text: string)
    ensures Closed(Closed(c)) == Closed(c)
    ensures var d := ClosedIf(c, ThinkingDelta); d.message == c.message && d.stopped == c.stopped
    ensures Streamed(ClosedIf(c, ThinkingDelta), TextDelta, TextBlock(""), text) == Streamed(c, TextDelta, TextBlock(""), text)
  {
  }

  lemma EndingEvents(c: Client, reason: string, usage: Usage)
    requires c.message.Some? && !c.open && c.ending.None? && !c.stopped
    ensures Accept(c, MessageDelta(reason, usage)).Some?
    ensures Accept(Accept(c, MessageDelta(reason, usage)).value, MessageStop) == Some(Ended(c, reason, usage))
    ensures StandingOf(Ended(c, reason, usage)) == StandingOf(c)
  {
  }

  lemma WaitingLookup(a: Assembly)
    ensures MapsOf(a.slots).pendingId.Keys == WaitingKeys(a)
  {
  }

  lemma FeedingEvent(c: Client, at: nat, text: string, index: nat, open: bool, current: BlockType, hadDelta: bool)
    requires StandingOf(c) == Standing(index, open, current, hadDelta)
    requires at < |c.blocks| && c.blocks[at].ToolUseBlock? && text != ""
    ensures Accept(c, BlockDelta(at, InputJsonDelta, text)) == Some(Appended(c, at, text))
    ensures StandingOf(Appended(c, at, text)) == Standing(index, open, current, hadDelta || (open && at == index))
  {
  }

  /** The fields are those of ChatCompletionsToAnthropicStreamState; `received`,
      `log`, `client` and `slots` record the run for the proof. */
  class StreamState {
    var messageStartSent: bool
    var messageStopSent: bool
    var contentBlockIndex: nat
    var contentBlockOpen: bool
    var currentBlockType: BlockType
    var currentToolHadDelta: bool
    var hasToolCall: bool
    var toolBlockIndex: map<int, nat>
    var toolAnnounced: map<int, bool>
    var pendingToolCallID: map<int, CallId>
    var pendingToolArgs: map<int, string>
    var finishReason: string
    var usage: Usage
    var responseID: string
    var model: string
    var minted: nat

    ghost const origin: View  // what the constructor started from
    ghost var received: seq<Input>
    ghost var log: seq<Event>
    ghost var client: Client
    ghost var slots: map<int, Slot>

    /** A client that replays every event emitted so far accepts all of them and
        is now `client`; the block fields say where it stands. */
    ghost predicate BlockLinked()
      reads `log, `client, `contentBlockIndex, `contentBlockOpen, `currentBlockType, `currentToolHadDelta
    {
      && Replay(log) == Some(client)
      && StandingOf(client) == Standing(contentBlockIndex, contentBlockOpen, currentBlockType, currentToolHadDelta)
    }

    /** The tool maps say which tools wait for a name and where the others are. */
    ghost predicate ToolLinked()
      reads `slots, `toolBlockIndex, `toolAnnounced, `pendingToolCallID, `pendingToolArgs
    {
      MapsOf(slots) == ToolMaps(toolBlockIndex, toolAnnounced, pendingToolCallID, pendingToolArgs)
    }

    ghost function It(): Assembly
      reads `client, `slots, `minted
    {
      Assembly(client, slots, minted)
    }

    ghost function AsView(): View
      reads this
    {
      View(It(), responseID, model, finishReason, usage)
    }

    ghost predicate FlagsLinked()
      reads this
    {
      && messageStartSent == client.message.Some?
      && messageStopSent == client.stopped
      && hasToolCall == (slots.Keys != {})
    }

    /** The client holds what the inputs so far call for. */
    ghost predicate OnRecord()
      reads this
    {
      AsView() == Run(origin, received) && origin == InitialView(origin.responseId, origin.model)
    }

    ghost predicate Valid()
      reads this
    {
      BlockLinked() && ToolLinked() && FlagsLinked() && OnRecord()
    }

    /** NewChatCompletionsToAnthropicStreamState */
    constructor (responseId: string, modelName: string)
      ensures Valid() && received == [] && log == [] && origin == InitialView(responseId, modelName)
    {
      messageStartSent, messageStopSent := false, false;
      contentBlockIndex, contentBlockOpen, currentBlockType := 0, false, NoBlock;
      currentToolHadDelta, hasToolCall := false, false;
      toolBlockIndex, toolAnnounced := map[], map[];
      pendingToolCallID, pendingToolArgs := map[], map[];
      finishReason, usage, responseID, model, minted := "", NO_USAGE, responseId, modelName, 0;
      origin := InitialView(responseId, modelName);
      received, log := [], [];
      client, slots := FRESH_CLIENT, map[];
    }

    /** One event leaves the converter: the client must accept it. */
    ghost method Note(e: Event)
      requires Replay(log) == Some(client) && Accept(client, e).Some?
      modifies `log, `client
      ensures log == old(log) + [e]
      ensures Some(client) == Accept(old(client), e)
      ensures Replay(log) == Some(client)
    {
      assert (log + [e])[..|log|] == log;
      client := Accept(client, e).value;
      log := log + [e];
    }

    /** closeCCAnthropicBlock */
    method CloseBlock() returns (events: seq<Event>)
      requires BlockLinked()
      modifies `contentBlockIndex, `contentBlockOpen, `currentBlockType, `currentToolHadDelta, `log, `client
      ensures BlockLinked() && !contentBlockOpen && !client.open
      ensures client == Closed(old(client)) && SameEnds(old(client), client)
      ensures log == old(log) + events
    {
      events := [];
      if !contentBlockOpen {
        return;
      }
      var idx := contentBlockIndex;
      ClosingEvents(client, idx, currentBlockType, currentToolHadDelta);
      if currentBlockType.InToolUse? && !currentToolHadDelta {
        events := events + [BlockDelta(idx, InputJsonDelta, "{}")];
        Note(BlockDelta(idx, InputJsonDelta, "{}"));
      }
      contentBlockOpen := false;
      contentBlockIndex := contentBlockIndex + 1;
      currentBlockType := NoBlock;
      currentToolHadDelta := false;
      events := events + [BlockStop(idx)];
      Note(BlockStop(idx));
    }

    /** closeCCAnthropicBlockIfOpen(state, "thinking") */
    method CloseThinkingIfOpen() returns (events: seq<Event>)
      requires BlockLinked()
      modifies `contentBlockIndex, `contentBlockOpen, `currentBlockType, `currentToolHadDelta, `log, `client
      ensures BlockLinked()
      ensures client == ClosedIf(old(client), ThinkingDelta)
      ensures log == old(log) + events
    {
      if !contentBlockOpen || !currentBlockType.InThinking? {
        return [];
      }
      events := CloseBlock();
    }

    /** ensureCCAnthropicMessageStart */
    method EnsureMessageStart() returns (events: seq<Event>)
      requires BlockLinked() && messageStartSent == client.message.Some?
      modifies `messageStartSent, `log, `client
      ensures BlockLinked() && messageStartSent && client.message.Some?
      ensures client.stopped == old(client).stopped && client.ending == old(client).ending
      ensures client == Started(old(client), responseID, model)
      ensures log == old(log) + events
    {
      if messageStartSent {
        return [];
      }
      messageStartSent := true;
      events := [MessageStart(responseID, model)];
      Note(MessageStart(responseID, model));
    }

    /** ensureCCAnthropicThinkingBlock and ensureCCAnthropicTextBlock */
    method EnsureBlock(kind: DeltaKind, current: BlockType) returns (events: seq<Event>)
      requires BlockLinked() && client.message.Some?
      requires (kind == ThinkingDelta && current == InThinking) || (kind == TextDelta && current == InText)
      modifies `contentBlockIndex, `contentBlockOpen, `currentBlockType, `currentToolHadDelta, `log, `client
      ensures BlockLinked() && contentBlockOpen && currentBlockType == current
      ensures client == Ensured(old(client), kind, EmptyBlock(kind))
      ensures log == old(log) + events
    {
      if contentBlockOpen && currentBlockType == current {
        return [];
      }
      events := CloseBlock();
      var idx := contentBlockIndex;
      OpeningEvents(client, EmptyBlock(kind), kind, "x");
      contentBlockOpen := true;
      currentBlockType := current;
      events := events + [BlockStart(idx, EmptyBlock(kind))];
      Note(BlockStart(idx, EmptyBlock(kind)));
    }

    /** ccAnthropicDelta for text and thinking */
    method Delta(kind: DeltaKind, text: string) returns (events: seq<Event>)
      requires BlockLinked() && text != "" && OpenIs(client, kind) && !kind.InputJsonDelta?
      modifies `log, `client
      ensures BlockLinked()
      ensures client == Appended(old(client), |old(client).blocks| - 1, text)
      ensures log == old(log) + events
    {
      if !contentBlockOpen {
        return [];
      }
      var idx := contentBlockIndex;
      ContinuingEvent(client, idx, currentBlockType, currentToolHadDelta, kind, text);
      events := [BlockDelta(idx, kind, text)];
      Note(BlockDelta(idx, kind, text));
    }

    /** The events of announceCCAnthropicToolBlock. */
    method StartToolBlock(callID: CallId, name: string, pending: string) returns (events: seq<Event>)
      requires BlockLinked() && client.message.Some? && !contentBlockOpen
      modifies `contentBlockOpen, `currentBlockType, `currentToolHadDelta, `log, `client
      ensures BlockLinked()
      ensures client == WithTool(old(client), callID, name, pending)
      ensures log == old(log) + events
    {
      var blockIdx := contentBlockIndex;
      var head := ToolUseBlock(FromResponsesCallId(callID), name, "");
      OpeningEvents(client, head, InputJsonDelta, if pending == "" then "x" else pending);
      currentToolHadDelta := false;
      contentBlockOpen := true;
      currentBlockType := InToolUse;
      events := [BlockStart(blockIdx, head)];
      Note(BlockStart(blockIdx, head));
      if pending != "" {
        currentToolHadDelta := true;
        events := events + [BlockDelta(blockIdx, InputJsonDelta, pending)];
        Note(BlockDelta(blockIdx, InputJsonDelta, pending));
      }
    }

    /** announceCCAnthropicToolBlock, called with no block open. */
    method AnnounceToolBlock(idx: int, callID: CallId, name: string) returns (events: seq<Event>)
      requires BlockLinked() && client.message.Some? && !contentBlockOpen
      requires ToolLinked() && (idx in slots ==> slots[idx].Waiting?)
      modifies `contentBlockOpen, `currentBlockType, `currentToolHadDelta, `log, `client,
               `slots, `toolBlockIndex, `toolAnnounced, `pendingToolCallID, `pendingToolArgs
      ensures BlockLinked() && ToolLinked()
      ensures client == WithTool(old(client), callID, name, if idx in old(slots) then old(slots)[idx].args else "")
      ensures slots == old(slots)[idx := Placed(|old(client).blocks|)]
      ensures log == old(log) + events
    {
      hide Replay, MapsOf, WithTool;
      var blockIdx := contentBlockIndex;
      var pending := if idx in pendingToolArgs then pendingToolArgs[idx] else "";
      LookupLink(slots, idx);
      PlacingLink(slots, idx, blockIdx);
      events := StartToolBlock(callID, name, pending);
      toolBlockIndex := toolBlockIndex[idx := blockIdx];
      toolAnnounced := toolAnnounced[idx := true];
      pendingToolCallID := pendingToolCallID - {idx};
      pendingToolArgs := pendingToolArgs - {idx};
      slots := slots[idx := Placed(blockIdx)];
    }

    /** closeCCAnthropicBlock, then announceCCAnthropicToolBlock. */
    method OpenToolBlock(idx: int, callID: CallId, name: string) returns (events: seq<Event>)
      requires BlockLinked() && client.message.Some? && ToolLinked() && (idx in slots ==> slots[idx].Waiting?)
      modifies `contentBlockIndex, `contentBlockOpen, `currentBlockType, `currentToolHadDelta, `log, `client,
               `slots, `toolBlockIndex, `toolAnnounced, `pendingToolCallID, `pendingToolArgs
      ensures BlockLinked() && ToolLinked()
      ensures It() == Place(old(It()), idx, callID, name, if idx in old(slots) then old(slots)[idx].args else "")
      ensures log == old(log) + events
    {
      hide Replay, StandingOf, MapsOf;
      events := CloseBlock();
      var more := AnnounceToolBlock(idx, callID, name);
      events := events + more;
    }

    /** A tool whose name is still missing. */
    method AwaitName(idx: int, callID: CallId)
      requires ToolLinked() && idx !in slots
      modifies `slots, `toolAnnounced, `pendingToolCallID
      ensures ToolLinked() && slots == old(slots)[idx := Waiting(callID, "")]
    {
      LookupLink(slots, idx);
      WaitingLink(slots, idx, callID, "");
      toolAnnounced := toolAnnounced[idx := false];
      pendingToolCallID := pendingToolCallID[idx := callID];
      slots := slots[idx := Waiting(callID, "")];
    }

    /** handleCCAnthropicToolCall for an index not seen before. */
    method NewToolCall(idx: int, id: string, name: string) returns (events: seq<Event>)
      requires BlockLinked() && client.message.Some? && ToolLinked() && idx !in slots
      modifies `contentBlockIndex, `contentBlockOpen, `currentBlockType, `currentToolHadDelta, `log, `client,
               `slots, `toolBlockIndex, `toolAnnounced, `pendingToolCallID, `pendingToolArgs, `hasToolCall, `minted
      ensures BlockLinked() && ToolLinked() && hasToolCall
      ensures It() == Introduce(old(It()), idx, id, name)
      ensures log == old(log) + events
    {
      hide Replay, StandingOf, MapsOf, Closed, WithTool;
      hasToolCall := true;
      var callID := if id == "" then Minted(minted) else Given(id);
      minted := if id == "" then minted + 1 else minted;
      if name != "" {
        events := OpenToolBlock(idx, callID, name);
      } else {
        events := CloseBlock();
        AwaitName(idx, callID);
      }
    }

    /** handleCCAnthropicToolCall, first half: the tool becomes known and, once
        its name is there, gets its block. */
    method AnnounceToolCall(idx: int, id: string, name: string) returns (events: seq<Event>)
      requires BlockLinked() && client.message.Some? && ToolLinked() && hasToolCall == (slots.Keys != {})
      modifies `contentBlockIndex, `contentBlockOpen, `currentBlockType, `currentToolHadDelta, `log, `client,
               `slots, `toolBlockIndex, `toolAnnounced, `pendingToolCallID, `pendingToolArgs, `hasToolCall, `minted
      ensures BlockLinked() && ToolLinked() && hasToolCall && idx in slots
      ensures It() == Announce(old(It()), idx, id, name)
      ensures log == old(log) + events
    {
      events := [];
      LookupLink(slots, idx);
      if idx !in toolAnnounced {
        events := NewToolCall(idx, id, name);
      } else if !toolAnnounced[idx] && name != "" {
        var callID := if id != "" then Given(id) else pendingToolCallID[idx];
        events := OpenToolBlock(idx, callID, name);
      }
    }

    /** handleCCAnthropicToolCall, second half: an argument fragment streams to
        the tool's block, or waits with it for the name. */
    method FeedToolCall(idx: int, args: string) returns (events: seq<Event>)
      requires BlockLinked() && ToolLinked() && PlacedWell(It(), idx)
      modifies `currentToolHadDelta, `log, `client, `slots, `pendingToolArgs
      ensures BlockLinked() && ToolLinked() && slots.Keys == old(slots.Keys)
      ensures It() == Feed(old(It()), idx, args)
      ensures log == old(log) + events
    {
      hide Replay, StandingOf, MapsOf, Accept;
      events := [];
      if args == "" {
        return;
      }
      LookupLink(slots, idx);
      if toolAnnounced[idx] {
        var blockIdx := toolBlockIndex[idx];
        FeedingEvent(client, blockIdx, args, contentBlockIndex, contentBlockOpen, currentBlockType, currentToolHadDelta);
        if contentBlockOpen && blockIdx == contentBlockIndex {
          currentToolHadDelta := true;
        }
        events := [BlockDelta(blockIdx, InputJsonDelta, args)];
        Note(BlockDelta(blockIdx, InputJsonDelta, args));
      } else {
        WaitingLink(slots, idx, slots[idx].id, slots[idx].args + args);
        var held := if idx in pendingToolArgs then pendingToolArgs[idx] else "";
        pendingToolArgs := pendingToolArgs[idx := held + args];
        slots := slots[idx := Waiting(slots[idx].id, held + args)];
      }
    }

    /** handleCCAnthropicToolCall */
    method HandleToolCall(call: ToolCallDelta) returns (events: seq<Event>)
      requires PlacedWell(Announce(It(), ToolInput(call).index, call.id, call.name), ToolInput(call).index)
      requires BlockLinked() && client.message.Some? && ToolLinked() && hasToolCall == (slots.Keys != {})
      modifies `contentBlockIndex, `contentBlockOpen, `currentBlockType, `currentToolHadDelta, `log, `client,
               `slots, `toolBlockIndex, `toolAnnounced, `pendingToolCallID, `pendingToolArgs, `hasToolCall, `minted
      ensures BlockLinked() && ToolLinked() && hasToolCall == (slots.Keys != {})
      ensures It() == Feed(Announce(old(It()), ToolInput(call).index, call.id, call.name),
                               ToolInput(call).index, call.arguments)
      ensures log == old(log) + events
    {
      var idx := if call.index.Some? then call.index.value else 0;
      events := AnnounceToolCall(idx, call.id, call.name);
      var more := FeedToolCall(idx, call.arguments);
      events := events + more;
    }

    /** A block of this kind, then the text that asked for it. */
    method StreamText(kind: DeltaKind, current: BlockType, text: string) returns (events: seq<Event>)
      requires BlockLinked() && client.message.Some? && text != ""
      requires (kind == ThinkingDelta && current == InThinking) || (kind == TextDelta && current == InText)
      modifies `contentBlockIndex, `contentBlockOpen, `currentBlockType, `currentToolHadDelta, `log, `client
      ensures BlockLinked()
      ensures client == Streamed(old(client), kind, EmptyBlock(kind), text)
      ensures client.message == old(client).message && client.stopped == old(client).stopped
      ensures log == old(log) + events
    {
      events := EnsureBlock(kind, current);
      var more := Delta(kind, text);
      events := events + more;
    }

    /** The reasoning part of a choice. */
    method OnReasoning(text: string) returns (events: seq<Event>)
      requires BlockLinked() && client.message.Some? && text != ""
      modifies `contentBlockIndex, `contentBlockOpen, `currentBlockType, `currentToolHadDelta, `log, `client
      ensures BlockLinked()
      ensures client == Streamed(old(client), ThinkingDelta, ThinkingBlock(""), text)
      ensures client.message == old(client).message && client.stopped == old(client).stopped
      ensures log == old(log) + events
    {
      events := StreamText(ThinkingDelta, InThinking, text);
    }

    /** The text part of a choice. */
    method OnText(text: string) returns (events: seq<Event>)
      requires BlockLinked() && client.message.Some? && text != ""
      modifies `contentBlockIndex, `contentBlockOpen, `currentBlockType, `currentToolHadDelta, `log, `client
      ensures BlockLinked()
      ensures client == Streamed(old(client), TextDelta, TextBlock(""), text)
      ensures client.message == old(client).message && client.stopped == old(client).stopped
      ensures log == old(log) + events
    {
      ClosingTwice(client, text);
      events := CloseThinkingIfOpen();
      var more := StreamText(TextDelta, InText, text);
      events := events + more;
    }

    /** One tool call of a choice. */
    method OnToolCall(call: ToolCallDelta) returns (events: seq<Event>)
      requires BlockLinked() && client.message.Some? && ToolLinked() && hasToolCall == (slots.Keys != {})
      requires CanFeed(It(), ToolInput(call))
      modifies `contentBlockIndex, `contentBlockOpen, `currentBlockType, `currentToolHadDelta, `log, `client,
               `slots, `toolBlockIndex, `toolAnnounced, `pendingToolCallID, `pendingToolArgs, `hasToolCall, `minted
      ensures BlockLinked() && ToolLinked() && hasToolCall == (slots.Keys != {})
      ensures It() == OnTool(old(It()), ToolInput(call).index, call.id, call.name, call.arguments)
      ensures log == old(log) + events
    {
      hide Replay, StandingOf, MapsOf, Announce, Feed, PlacedWell, ClosedIf;
      ClosingTwice(client, "x");
      events := CloseThinkingIfOpen();
      var more := HandleToolCall(call);
      events := events + more;
    }

    /** The input goes on record; the fields already reflect it. */
    ghost method Record(i: Input, before: View)
      requires before == Run(origin, received) && AsView() == OnInput(before, i)
      requires origin == InitialView(origin.responseId, origin.model)
      modifies `received
      ensures received == old(received) + [i] && OnRecord()
    {
      RunSnoc(origin, received, i);
      received := received + [i];
    }

    method TakeReasoning(text: string) returns (events: seq<Event>)
      requires Valid() && client.message.Some? && text != ""
      modifies `contentBlockIndex, `contentBlockOpen, `currentBlockType, `currentToolHadDelta, `log, `client, `received
      ensures Valid() && client.message.Some?
      ensures received == old(received) + [Reasoning(text)] && log == old(log) + events
    {
      hide Replay, Run, StandingOf, MapsOf;
      ghost var v := AsView();
      events := OnReasoning(text);
      Record(Reasoning(text), v);
    }

    method TakeText(text: string) returns (events: seq<Event>)
      requires Valid() && client.message.Some? && text != ""
      modifies `contentBlockIndex, `contentBlockOpen, `currentBlockType, `currentToolHadDelta, `log, `client, `received
      ensures Valid() && client.message.Some?
      ensures received == old(received) + [Text(text)] && log == old(log) + events
    {
      hide Replay, Run, StandingOf, MapsOf;
      ghost var v := AsView();
      events := OnText(text);
      Record(Text(text), v);
    }

    method TakeToolCall(call: ToolCallDelta) returns (events: seq<Event>)
      requires Valid() && client.message.Some?
      modifies `contentBlockIndex, `contentBlockOpen, `currentBlockType, `currentToolHadDelta, `log, `client, `received,
               `slots, `toolBlockIndex, `toolAnnounced, `pendingToolCallID, `pendingToolArgs, `hasToolCall, `minted
      ensures Valid() && client.message.Some?
      ensures received == old(received) + [ToolInput(call)] && log == old(log) + events
    {
      hide Replay, Run, StandingOf, MapsOf, CanFeed, OnTool;
      ghost var v := AsView();
      RunCanFeed(origin, received, ToolInput(call));
      OnToolKeeps(It(), ToolInput(call));
      events := OnToolCall(call);
      Record(ToolInput(call), v);
    }

    method TakeFinish(reason: string)
      requires Valid() && client.message.Some? && reason != ""
      modifies `finishReason, `received
      ensures Valid() && client.message.Some?
      ensures received == old(received) + [Finish(reason)]
    {
      ghost var v := AsView();
      finishReason := reason;
      Record(Finish(reason), v);
    }

    method TakeToolCalls(calls: seq<ToolCallDelta>) returns (events: seq<Event>)
      requires Valid() && client.message.Some?
      modifies `contentBlockIndex, `contentBlockOpen, `currentBlockType, `currentToolHadDelta, `log, `client, `received,
               `slots, `toolBlockIndex, `toolAnnounced, `pendingToolCallID, `pendingToolArgs, `hasToolCall, `minted
      ensures Valid() && client.message.Some?
      ensures received == old(received) + ToolInputs(calls) && log == old(log) + events
    {
      hide Valid;
      events := [];
      for n := 0 to |calls|
        invariant Valid() && client.message.Some?
        invariant received == old(received) + ToolInputs(calls[..n]) && log == old(log) + events
      {
        assert calls[..n + 1][..n] == calls[..n];
        var more := TakeToolCall(calls[n]);
        events := events + more;
      }
      assert calls[..|calls|] == calls;
    }

    /** One choice of a chunk. */
    method TakeChoice(choice: Choice) returns (events: seq<Event>)
      requires Valid() && client.message.Some?
      modifies this
      ensures Valid() && client.message.Some?
      ensures received == old(received) + ChoiceInputs(choice) && log == old(log) + events
    {
      hide Valid;
      events := [];
      if Present(choice.reasoning) != "" {
        events := TakeReasoning(choice.reasoning.value);
      }
      assert received == old(received) + ReasoningInputs(choice);
      if Present(choice.content) != "" {
        var more := TakeText(choice.content.value);
        events := events + more;
      }
      assert received == old(received) + (ReasoningInputs(choice) + TextInputs(choice));
      var more := TakeToolCalls(choice.toolCalls);
      events := events + more;
      assert received == old(received) + (ReasoningInputs(choice) + TextInputs(choice) + ToolInputs(choice.toolCalls));
      if Present(choice.finish) != "" {
        TakeFinish(choice.finish.value);
      }
      assert received == old(received)
        + (ReasoningInputs(choice) + TextInputs(choice) + ToolInputs(choice.toolCalls) + FinishInputs(choice));
    }

    /** The ids and usage of a chunk. */
    method ReadHeader(chunk: Chunk)
      modifies `responseID, `model, `usage
      ensures AsView() == HeadRead(old(AsView()), chunk.id, chunk.model, chunk.usage)
    {
      if chunk.id != "" {
        responseID := chunk.id;
      }
      if model == "" && chunk.model != "" {
        model := chunk.model;
      }
      if chunk.usage.Some? {
        usage := AnthropicUsageOf(chunk.usage.value);
      }
    }

    /** The header of a chunk: ids, usage, and message_start for the first one. */
    method TakeHead(chunk: Chunk) returns (events: seq<Event>)
      requires Valid()
      modifies `responseID, `model, `usage, `messageStartSent, `log, `client, `received
      ensures Valid() && client.message.Some?
      ensures received == old(received) + [Head(chunk.id, chunk.model, chunk.usage)]
      ensures log == old(log) + events
    {
      hide Replay, Run, StandingOf, MapsOf, HeadRead;
      ghost var v := AsView();
      ReadHeader(chunk);
      events := EnsureMessageStart();
      Record(Head(chunk.id, chunk.model, chunk.usage), v);
    }

    method TakeChoices(choices: seq<Choice>) returns (events: seq<Event>)
      requires Valid() && client.message.Some?
      modifies this
      ensures Valid() && client.message.Some?
      ensures received == old(received) + ChoicesInputs(choices) && log == old(log) + events
    {
      hide Valid, Run, Replay, ChoiceInputs;
      events := [];
      for n := 0 to |choices|
        invariant Valid() && client.message.Some?
        invariant received == old(received) + ChoicesInputs(choices[..n]) && log == old(log) + events
      {
        assert choices[..n + 1][..n] == choices[..n];
        var more := TakeChoice(choices[n]);
        events := events + more;
      }
      assert choices[..|choices|] == choices;
    }

    /** ChatCompletionsChunkToAnthropicEvents */
    method Chunk(chunk: Chunk) returns (events: seq<Event>)
      requires Valid()
      modifies this
      ensures Valid()
      ensures received == old(received) + ChunkInputs(chunk) && log == old(log) + events
    {
      hide Valid, Run, Replay, ChoicesInputs;
      events := TakeHead(chunk);
      var more := TakeChoices(chunk.choices);
      events := events + more;
    }

    /** The tools whose name never came, announced in index order. */
    method AnnounceNameless(idxs: seq<int>) returns (events: seq<Event>)
      requires BlockLinked() && client.message.Some? && ToolLinked()
      modifies `contentBlockIndex, `contentBlockOpen, `currentBlockType, `currentToolHadDelta, `log, `client,
               `slots, `toolBlockIndex, `toolAnnounced, `pendingToolCallID, `pendingToolArgs
      ensures BlockLinked() && ToolLinked()
      ensures It() == PlaceAll(old(It()), idxs) && client.message.Some?
      ensures log == old(log) + events
    {
      hide Replay, StandingOf, MapsOf, Place;
      events := [];
      for n := 0 to |idxs|
        invariant BlockLinked() && ToolLinked() && client.message.Some?
        invariant It() == PlaceAll(old(It()), idxs[..n]) && log == old(log) + events
      {
        assert idxs[..n + 1][..n] == idxs[..n];
        var idx := idxs[n];
        LookupLink(slots, idx);
        if idx in pendingToolCallID {
          PlaceKeeps(It(), idx, slots[idx].id, "", slots[idx].args);
          var callID := pendingToolCallID[idx];
          var more := OpenToolBlock(idx, callID, "");
          events := events + more;
        }
      }
      assert idxs[..|idxs|] == idxs;
    }

    /** FinalizeChatCompletionsAnthropicStream up to the last block stop. */
    method FinishBlocks() returns (events: seq<Event>)
      requires BlockLinked() && ToolLinked() && FlagsLinked()
      modifies `messageStartSent, `contentBlockIndex, `contentBlockOpen, `currentBlockType, `currentToolHadDelta,
               `log, `client, `slots, `toolBlockIndex, `toolAnnounced, `pendingToolCallID, `pendingToolArgs
      ensures BlockLinked() && ToolLinked() && !client.open && messageStartSent && client.message.Some?
      ensures var a := old(It()).(client := Started(old(client), responseID, model));
              var b := PlaceAll(a, Sorted(WaitingKeys(a)));
              It() == b.(client := Closed(b.client))
      ensures client.ending == old(client).ending && client.stopped == old(client).stopped
      ensures slots.Keys == old(slots).Keys && minted == old(minted)
      ensures log == old(log) + events
    {
      hide Replay, StandingOf, MapsOf, PlaceAll, Started, Closed, WaitingKeys, Sorted;
      events := EnsureMessageStart();
      PlaceAllKeeps(It(), Sorted(WaitingKeys(It())));
      WaitingLookup(It());
      var idxs := Sorted(pendingToolCallID.Keys);
      var more := AnnounceNameless(idxs);
      events := events + more;
      more := CloseBlock();
      events := events + more;
    }

    /** message_delta and message_stop */
    method EndMessage() returns (events: seq<Event>)
      requires BlockLinked() && client.message.Some? && !client.open && client.ending.None? && !client.stopped
      modifies `messageStopSent, `log, `client
      ensures BlockLinked() && messageStopSent && client.message.Some? && client.stopped
      ensures client == Ended(old(client), StopReason(finishReason, hasToolCall), usage)
      ensures log == old(log) + events
    {
      var stopReason := StopReason(finishReason, hasToolCall);
      EndingEvents(client, stopReason, usage);
      events := [MessageDelta(stopReason, usage), MessageStop];
      Note(MessageDelta(stopReason, usage));
      Note(MessageStop);
      messageStopSent := true;
    }

    /** FinalizeChatCompletionsAnthropicStream */
    method Finalize() returns (events: seq<Event>)
      requires Valid()
      modifies this
      ensures Valid() && messageStopSent
      ensures received == old(received) + [End] && log == old(log) + events
      ensures old(messageStopSent) ==> events == []
    {
      hide Replay, Run, StandingOf, MapsOf, PlaceAll, Started, Closed, WaitingKeys, Sorted, Ended;
      ghost var v := AsView();
      events := [];
      if !messageStopSent {
        RunEnding(origin, received);
        events := FinishBlocks();
        var more := EndMessage();
        events := events + more;
      }
      Record(End, v);
    }
  }
}
