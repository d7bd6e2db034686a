/** The stateful converter from Chat Completions chunks to Responses events
    (chatcompletions_responses_bridge.go). */
module ResponsesStream {
  import opened Common
  import opened ChatChunks
  import opened ResponsesProtocol
  import opened ResponsesAssembly
  import opened ResponsesFit

  /** A stored ChatToolCall. */
  datatype Stored = Stored(id: CallId, name: string, arguments: string)

  /** The seven tool maps, and what they are for given calls. */
  datatype ToolMaps = ToolMaps(
    toolCalls: map<int, Stored>,
    itemIds: map<int, nat>,
    outputIndex: map<int, nat>,
    announced: map<int, bool>,
    isCustom: map<int, bool>,
    isToolSearch: map<int, bool>,
    namespaced: map<int, (string, string)>)

  function StoredOf(calls: map<int, Call>): map<int, Stored> {
    map k | k in calls :: Stored(calls[k].id, calls[k].name, calls[k].args)
  }

  function ItemIdsOf(calls: map<int, Call>): map<int, nat> {
    map k | k in calls :: calls[k].item
  }

  function OutputIndexOf(calls: map<int, Call>): map<int, nat> {
    map k | k in calls :: calls[k].out
  }

  function KindsOf(calls: map<int, Call>): map<int, Kind> {
    map k | k in calls && calls[k].kind.Some? :: calls[k].kind.value
  }

  function AnnouncedOf(kinds: map<int, Kind>): map<int, bool> {
    map k | k in kinds :: true
  }

  function IsCustomOf(kinds: map<int, Kind>): map<int, bool> {
    map k | k in kinds :: kinds[k].CustomCall?
  }

  function IsToolSearchOf(kinds: map<int, Kind>): map<int, bool> {
    map k | k in kinds :: kinds[k].SearchCall?
  }

  function NamespacedOf(kinds: map<int, Kind>): map<int, (string, string)> {
    map k | k in kinds && kinds[k].NamespacedCall? :: (kinds[k].namespace, kinds[k].name)
  }

  function MapsOf(calls: map<int, Call>): ToolMaps {
    var kinds := KindsOf(calls);
    ToolMaps(StoredOf(calls), ItemIdsOf(calls), OutputIndexOf(calls),
             AnnouncedOf(kinds), IsCustomOf(kinds), IsToolSearchOf(kinds), NamespacedOf(kinds))
  }

  lemma LookupLink(calls: map<int, Call>, k: int)
    ensures var m := MapsOf(calls);
            && (k in m.toolCalls <==> k in calls)
            && (k in calls ==> k in m.itemIds && k in m.outputIndex &&
                               m.toolCalls[k] == Stored(calls[k].id, calls[k].name, calls[k].args) &&
                               m.itemIds[k] == calls[k].item && m.outputIndex[k] == calls[k].out)
            && (k in calls && calls[k].kind.Some? ==>
                  var kind := calls[k].kind.value;
                  k in m.announced && m.announced[k] && k in m.isCustom && k in m.isToolSearch &&
                  m.isCustom[k] == kind.CustomCall? && m.isToolSearch[k] == kind.SearchCall? &&
                  (k in m.namespaced <==> kind.NamespacedCall?) &&
                  (kind.NamespacedCall? ==> m.namespaced[k] == (kind.namespace, kind.name)))
            && (k in calls && calls[k].kind.None? ==>
                  k !in m.announced && k !in m.isCustom && k !in m.isToolSearch && k !in m.namespaced)
  {
    assert k in KindsOf(calls) <==> k in calls && calls[k].kind.Some?;
  }

  lemma SizeLink(calls: map<int, Call>)
    ensures |MapsOf(calls).toolCalls| == |calls|
  {
    assert MapsOf(calls).toolCalls.Keys == calls.Keys;
  }

  lemma StoringLink(calls: map<int, Call>, k: int, c: Call)
    requires c.kind == (if k in calls then calls[k].kind else None)
    ensures var m := MapsOf(calls);
            MapsOf(calls[k := c])
            == m.(toolCalls := m.toolCalls[k := Stored(c.id, c.name, c.args)],
                  itemIds := m.itemIds[k := c.item], outputIndex := m.outputIndex[k := c.out])
  {
    hide AnnouncedOf, IsCustomOf, IsToolSearchOf, NamespacedOf;
    var t := calls[k := c];
    assert KindsOf(t) == KindsOf(calls);
    assert StoredOf(t) == StoredOf(calls)[k := Stored(c.id, c.name, c.args)];
    assert ItemIdsOf(t) == ItemIdsOf(calls)[k := c.item];
    assert OutputIndexOf(t) == OutputIndexOf(calls)[k := c.out];
  }

  lemma RestoringLink(calls: map<int, Call>, k: int, c: Call)
    requires k in calls && c.kind == calls[k].kind && c.item == calls[k].item && c.out == calls[k].out
    ensures var m := MapsOf(calls);
            MapsOf(calls[k := c]) == m.(toolCalls := m.toolCalls[k := Stored(c.id, c.name, c.args)])
  {
    hide MapsOf;
    StoringLink(calls, k, c);
    LookupLink(calls, k);
    var m := MapsOf(calls);
    assert m.itemIds[k := c.item] == m.itemIds;
    assert m.outputIndex[k := c.out] == m.outputIndex;
  }

  lemma AnnouncingLink(calls: map<int, Call>, k: int, kind: Kind)
    requires k in calls && calls[k].kind.None?
    ensures var m := MapsOf(calls);
            MapsOf(calls[k := calls[k].(kind := Some(kind))])
            == m.(announced := m.announced[k := true], isCustom := m.isCustom[k := kind.CustomCall?],
                  isToolSearch := m.isToolSearch[k := kind.SearchCall?],
                  namespaced := if kind.NamespacedCall? then m.namespaced[k := (kind.namespace, kind.name)] else m.namespaced)
  {
    var t := calls[k := calls[k].(kind := Some(kind))];
    assert KindsOf(t) == KindsOf(calls)[k := kind];
    assert k !in KindsOf(calls);
    AddedKind(KindsOf(calls), k, kind);
    assert StoredOf(t) == StoredOf(calls);
    assert ItemIdsOf(t) == ItemIdsOf(calls);
    assert OutputIndexOf(t) == OutputIndexOf(calls);
  }

  lemma AddedKind(kinds: map<int, Kind>, k: int, kind: Kind)
    requires k !in kinds
    ensures AnnouncedOf(kinds[k := kind]) == AnnouncedOf(kinds)[k := true]
    ensures IsCustomOf(kinds[k := kind]) == IsCustomOf(kinds)[k := kind.CustomCall?]
    ensures IsToolSearchOf(kinds[k := kind]) == IsToolSearchOf(kinds)[k := kind.SearchCall?]
    ensures NamespacedOf(kinds[k := kind])
            == if kind.NamespacedCall? then NamespacedOf(kinds)[k := (kind.namespace, kind.name)] else NamespacedOf(kinds)
  {
  }

  // ----- Chains of events the client accepts -----

  lemma OpeningLane(c: Client, out: nat, item: nat, header: Content)
    requires c.created.Some? && out !in c.items && IsEmpty(header) && Filling(header).PartOpen?
    ensures var d := WithItem(c, out, Item(item, header, "", [], Fresh));
            Apply(c, ItemAdded(out, item, header)) == Some(d) &&
            Apply(d, PartAdded(out, item)) == Some(Staged(d, out, PartOpen)) &&
            Staged(d, out, PartOpen).created == c.created && Staged(d, out, PartOpen).completed == c.completed
  {
  }

  lemma ClosingLane(c: Client, out: nat, item: nat, content: Content, text: string)
    requires Knows(c, out, item) && c.items[out].stage.PartOpen? && c.items[out].text == text
    requires SameKind(content, c.items[out].header) && Complete(c.items[out].header).PartClosed? && Repeats(content, text)
    ensures var d := Staged(c, out, Sealed);
            var e := Staged(d, out, PartClosed);
            var f := Staged(e, out, Done(content));
            Apply(c, TextDone(out, item, text)) == Some(d) && Apply(d, PartDone(out, item, text)) == Some(e) &&
            Apply(e, ItemDone(out, item, content)) == Some(f) && f.created == c.created && f.completed == c.completed
  {
  }

  function LaneOf(open: bool, done: bool, out: nat, item: nat): Lane {
    if open then OpenAt(out, item) else if done then ClosedAt(out, item) else Unopened
  }

  /** The fields are those of ChatCompletionsToResponsesStreamState; `received`,
      `log`, `client` and `calls` record the run for the proof. */
  class StreamState {
    const cfg: Config
    var responseID: string
    var model: string
    var sequenceNumber: nat
    var createdSent: bool
    var completedSent: bool
    var nextOutputIndex: nat
    var reasoningItemID: nat
    var reasoningIndex: nat
    var reasoningOpen: bool
    var reasoningDone: bool
    var messageItemID: Option<nat>
    var messageIndex: nat
    var textPartOpen: bool
    var text: string
    var reasoning: string
    var toolCalls: map<int, Stored>
    var toolItemIDs: map<int, nat>
    var toolOutputIndex: map<int, nat>
    var toolAnnounced: map<int, bool>
    var toolIsCustom: map<int, bool>
    var toolIsToolSearch: map<int, bool>
    var toolNamespace: map<int, (string, string)>
    var finishReason: string
    var usage: Option<ResponsesUsage>
    var minted: nat

    ghost const origin: View
    ghost var received: seq<Input>
    ghost var log: seq<Event>
    ghost var client: Client
    ghost var calls: map<int, Call>

    ghost function MessageLane(): Option<(nat, nat)>
      reads `messageItemID, `messageIndex
    {
      if messageItemID.None? then None else Some((messageIndex, messageItemID.value))
    }

    ghost function It(): Desk
      reads `client, `reasoningOpen, `reasoningDone, `reasoningIndex, `reasoningItemID, `messageItemID, `messageIndex,
            `calls, `nextOutputIndex, `minted, `reasoning, `text
    {
      Desk(client, LaneOf(reasoningOpen, reasoningDone, reasoningIndex, reasoningItemID), MessageLane(),
           calls, nextOutputIndex, minted, reasoning, text)
    }

    ghost function AsView(): View
      reads this
    {
      View(It(), responseID, model, finishReason, usage)
    }

    /** A client that replays every event so far accepts all of them. */
    ghost predicate Emitted()
      reads `log, `client, `sequenceNumber
    {
      Replay(log) == Some(client) && client.count == sequenceNumber
    }

    ghost predicate ToolLinked()
      reads `calls, `toolCalls, `toolItemIDs, `toolOutputIndex, `toolAnnounced, `toolIsCustom, `toolIsToolSearch,
            `toolNamespace
    {
      MapsOf(calls) == ToolMaps(toolCalls, toolItemIDs, toolOutputIndex, toolAnnounced, toolIsCustom, toolIsToolSearch,
                                toolNamespace)
    }

    ghost predicate FlagsLinked()
      reads `createdSent, `completedSent, `client, `textPartOpen, `messageItemID, `reasoningOpen, `reasoningDone
    {
      && createdSent == client.created.Some?
      && completedSent == client.completed.Some?
      && textPartOpen == messageItemID.Some?
      && !(reasoningOpen && reasoningDone)
    }

    /** The client holds what the inputs so far call for. */
    ghost predicate OnRecord()
      reads this
    {
      AsView() == Run(origin, cfg, received) && origin == InitialView(origin.responseId, origin.model)
    }

    ghost predicate Valid()
      reads this
    {
      Emitted() && ToolLinked() && FlagsLinked() && OnRecord()
    }

    /** NewChatCompletionsToResponsesStreamState */
    constructor (cfg: Config, responseId: string, modelName: string)
      ensures Valid() && received == [] && log == []
      ensures this.cfg == cfg && origin == InitialView(responseId, modelName)
    {
      this.cfg := cfg;
      responseID, model, sequenceNumber, createdSent, completedSent := responseId, modelName, 0, false, false;
      nextOutputIndex, reasoningItemID, reasoningIndex, reasoningOpen, reasoningDone := 0, 0, 0, false, false;
      messageItemID, messageIndex, textPartOpen, text, reasoning := None, 0, false, "", "";
      toolCalls, toolItemIDs, toolOutputIndex, toolAnnounced := map[], map[], map[], map[];
      toolIsCustom, toolIsToolSearch, toolNamespace := map[], map[], map[];
      finishReason, usage, minted := "", None, 0;
      origin := InitialView(responseId, modelName);
      received, log, client, calls := [], [], FRESH_CLIENT, map[];
    }

    /** chatToResponsesEvent: one numbered event, which the client must accept. */
    method Emit(body: Body) returns (e: Event)
      requires Emitted() && Apply(client, body).Some?
      modifies `sequenceNumber, `log, `client
      ensures Emitted() && e == Event(old(sequenceNumber), body)
      ensures log == old(log) + [e] && Some(client) == Apply(old(client), body)
    {
      hide Apply, Replay, Accept;
      e := Event(sequenceNumber, body);
      CountsUp(client, body);
      ReplayOneMore(log, e);
      sequenceNumber := sequenceNumber + 1;
      client := Apply(client, body).value;
      log := log + [e];
    }

    /** allocOutputIndex */
    method AllocOutputIndex() returns (idx: nat)
      modifies `nextOutputIndex
      ensures idx == old(nextOutputIndex) && nextOutputIndex == idx + 1
    {
      idx := nextOutputIndex;
      nextOutputIndex := nextOutputIndex + 1;
    }

    /** generateItemID */
    method GenerateItemID() returns (id: nat)
      modifies `minted
      ensures id == old(minted) && minted == id + 1
    {
      id := minted;
      minted := minted + 1;
    }

    /** ensureChatToResponsesCreated */
    method EnsureCreated() returns (events: seq<Event>)
      requires Emitted() && FlagsLinked()
      modifies `createdSent, `sequenceNumber, `log, `client
      ensures Emitted() && FlagsLinked() && client.created.Some? && client.completed == old(client).completed
      ensures client == Begun(old(client), responseID, model)
      ensures log == old(log) + events
    {
      if createdSent {
        return [];
      }
      createdSent := true;
      var e := Emit(Created(responseID, model));
      events := [e];
    }

    /** The two events that open a reasoning or message item. */
    method OpenLane(out: nat, item: nat, header: Content) returns (events: seq<Event>)
      requires Emitted() && client.created.Some? && out !in client.items && IsEmpty(header) && Filling(header).PartOpen?
      modifies `sequenceNumber, `log, `client
      ensures Emitted() && client.created == old(client).created && client.completed == old(client).completed
      ensures client == Staged(WithItem(old(client), out, Item(item, header, "", [], Fresh)), out, PartOpen)
      ensures log == old(log) + events
    {
      hide Apply, Replay;
      OpeningLane(client, out, item, header);
      var e := Emit(ItemAdded(out, item, header));
      var f := Emit(PartAdded(out, item));
      events := [e, f];
    }

    /** The three events that close a reasoning or message item. */
    method FinishLane(out: nat, item: nat, content: Content, text: string) returns (events: seq<Event>)
      requires Emitted() && Knows(client, out, item) && client.items[out].stage.PartOpen? && client.items[out].text == text
      requires SameKind(content, client.items[out].header) && Complete(client.items[out].header).PartClosed?
      requires Repeats(content, text)
      modifies `sequenceNumber, `log, `client
      ensures Emitted() && client.created == old(client).created && client.completed == old(client).completed
      ensures client == Staged(Staged(Staged(old(client), out, Sealed), out, PartClosed), out, Done(content))
      ensures log == old(log) + events
    {
      hide Apply, Replay;
      ClosingLane(client, out, item, content, text);
      var e := Emit(TextDone(out, item, text));
      var f := Emit(PartDone(out, item, text));
      var g := Emit(ItemDone(out, item, content));
      events := [e, f, g];
    }

    /** ensureChatReasoningItem */
    method EnsureReasoningItem() returns (events: seq<Event>)
      requires Emitted() && client.created.Some? && nextOutputIndex !in client.items && !(reasoningOpen && reasoningDone)
      modifies `reasoningOpen, `reasoningItemID, `reasoningIndex, `nextOutputIndex, `minted, `sequenceNumber, `log, `client
      ensures Emitted() && client.created == old(client).created && client.completed == old(client).completed
      ensures It() == OpenedReasoning(old(It())) && !(reasoningOpen && reasoningDone)
      ensures log == old(log) + events
    {
      hide Apply, Replay, Staged, WithItem;
      if reasoningOpen || reasoningDone {
        return [];
      }
      reasoningOpen := true;
      reasoningItemID := GenerateItemID();
      reasoningIndex := AllocOutputIndex();
      events := OpenLane(reasoningIndex, reasoningItemID, ReasoningItem(""));
    }

    /** closeChatReasoningItem */
    method CloseReasoningItem() returns (events: seq<Event>)
      requires Emitted() && client.created.Some? && LanesFit(It()) && FlagsLinked()
      modifies `reasoningOpen, `reasoningDone, `sequenceNumber, `log, `client
      ensures Emitted() && client.created == old(client).created && client.completed == old(client).completed
      ensures It() == ClosedReasoning(old(It())) && FlagsLinked()
      ensures log == old(log) + events
    {
      hide Apply, Replay, Staged;
      if !reasoningOpen {
        return [];
      }
      reasoningOpen := false;
      reasoningDone := true;
      events := FinishLane(reasoningIndex, reasoningItemID, ReasoningItem(reasoning), reasoning);
    }

    /** ensureChatToResponsesMessageItem */
    method EnsureMessageItem() returns (events: seq<Event>)
      requires Emitted() && client.created.Some? && nextOutputIndex !in client.items
      modifies `messageItemID, `messageIndex, `nextOutputIndex, `minted, `sequenceNumber, `log, `client
      ensures Emitted() && client.created == old(client).created && client.completed == old(client).completed
      ensures if old(messageItemID).Some? then
                messageItemID == old(messageItemID) && messageIndex == old(messageIndex) && client == old(client) &&
                nextOutputIndex == old(nextOutputIndex) && minted == old(minted)
              else
                messageItemID == Some(old(minted)) && messageIndex == old(nextOutputIndex) &&
                nextOutputIndex == messageIndex + 1 && minted == old(minted) + 1 &&
                client == WithItem(old(client), messageIndex, Item(old(minted), MessageItem(""), "", [], Fresh))
      ensures log == old(log) + events
    {
      hide Replay;
      if messageItemID.Some? {
        return [];
      }
      var id := GenerateItemID();
      messageItemID := Some(id);
      messageIndex := AllocOutputIndex();
      var e := Emit(ItemAdded(messageIndex, id, MessageItem("")));
      events := [e];
    }

    /** ensureChatToResponsesTextPart */
    method EnsureTextPart() returns (events: seq<Event>)
      requires Emitted() && messageItemID.Some?
      requires !textPartOpen ==> Knows(client, messageIndex, messageItemID.value) &&
                                 client.items[messageIndex].header.MessageItem? && client.items[messageIndex].stage.Fresh?
      modifies `textPartOpen, `sequenceNumber, `log, `client
      ensures Emitted() && client.created == old(client).created && client.completed == old(client).completed
      ensures textPartOpen
      ensures client == if old(textPartOpen) then old(client) else Staged(old(client), messageIndex, PartOpen)
      ensures log == old(log) + events
    {
      hide Replay;
      if textPartOpen {
        return [];
      }
      textPartOpen := true;
      var e := Emit(PartAdded(messageIndex, messageItemID.value));
      events := [e];
    }

    /** The message item and its text part are there. */
    method EnsureMessage() returns (events: seq<Event>)
      requires Emitted() && client.created.Some? && nextOutputIndex !in client.items
      requires textPartOpen == messageItemID.Some?
      modifies `messageItemID, `messageIndex, `textPartOpen, `nextOutputIndex, `minted, `sequenceNumber, `log, `client
      ensures Emitted() && client.created == old(client).created && client.completed == old(client).completed
      ensures It() == OpenedMessage(old(It())) && textPartOpen && messageItemID.Some?
      ensures log == old(log) + events
    {
      hide Emitted, Staged;
      events := EnsureMessageItem();
      var more := EnsureTextPart();
      events := events + more;
    }

    /** A delta for an item that takes it. */
    method Tell(out: nat, item: nat, kind: DeltaKind, piece: string, route: Option<(CallId, string)>)
      returns (e: Event)
      requires Emitted() && Knows(client, out, item) && Takes(client.items[out].header, kind) && piece != ""
      requires kind.ArgumentsDelta? <==> route.Some?
      requires client.items[out].stage == Filling(client.items[out].header) || client.items[out].stage.Done?
      modifies `sequenceNumber, `log, `client
      ensures Emitted() && client.created == old(client).created && client.completed == old(client).completed
      ensures client == Told(old(client), out, piece, route)
      ensures log == old(log) + [e]
    {
      e := Emit(Delta(out, item, kind, piece, route));
    }

    /** The reasoning part of a choice. */
    method OnReasoningPart(piece: string) returns (events: seq<Event>)
      requires Emitted() && client.created.Some? && FlagsLinked() && piece != ""
      requires LanesFit(It()) && nextOutputIndex !in client.items && LanesFit(OpenedReasoning(It()))
      modifies `reasoningOpen, `reasoningItemID, `reasoningIndex, `nextOutputIndex, `minted, `reasoning,
               `sequenceNumber, `log, `client
      ensures Emitted() && client.created == old(client).created && client.completed == old(client).completed
      ensures It() == OnReasoning(old(It()), piece) && FlagsLinked()
      ensures log == old(log) + events
    {
      hide Apply, Replay, Staged, WithItem, Told;
      events := EnsureReasoningItem();
      reasoning := reasoning + piece;
      var e := Tell(reasoningIndex, reasoningItemID, SummaryDelta, piece, None);
      events := events + [e];
    }

    /** The message item, if need be, and a text delta for it. */
    method Write(piece: string) returns (events: seq<Event>)
      requires Emitted() && client.created.Some? && textPartOpen == messageItemID.Some? && piece != ""
      requires nextOutputIndex !in client.items && LanesFit(OpenedMessage(It()))
      modifies `messageItemID, `messageIndex, `textPartOpen, `nextOutputIndex, `minted, `text,
               `sequenceNumber, `log, `client
      ensures Emitted() && client.created == old(client).created && client.completed == old(client).completed
      ensures It() == Written(old(It()), piece) && textPartOpen == messageItemID.Some?
      ensures log == old(log) + events
    {
      hide Apply, Replay, Staged, WithItem, Told;
      events := EnsureMessage();
      text := text + piece;
      var e := Tell(messageIndex, messageItemID.value, TextDelta, piece, None);
      events := events + [e];
    }

    /** A call id if the upstream sent none, an item id and an output index. */
    method NewCallIds(id: string) returns (callID: CallId, item: nat, out: nat)
      modifies `minted, `nextOutputIndex
      ensures callID == (if id == "" then Minted(old(minted)) else Given(id))
      ensures item == (if id == "" then old(minted) + 1 else old(minted)) && minted == item + 1
      ensures out == old(nextOutputIndex) && nextOutputIndex == out + 1
    {
      callID := Given(id);
      if id == "" {
        var n := GenerateItemID();
        callID := Minted(n);
      }
      item := GenerateItemID();
      out := AllocOutputIndex();
    }

    /** A tool index not seen before gets its ids and output index. */
    method StoreNewCall(idx: int, id: string, name: string)
      requires ToolLinked() && idx !in calls
      modifies `nextOutputIndex, `minted, `toolCalls, `toolItemIDs, `toolOutputIndex, `calls
      ensures ToolLinked() && It() == Registered(old(It()), idx, id, name)
    {
      hide MapsOf;
      var callID, item, out := NewCallIds(id);
      RegisterCall(idx, out, item, callID, name);
    }

    method RegisterCall(idx: int, out: nat, item: nat, callID: CallId, name: string)
      requires ToolLinked() && idx !in calls
      modifies `toolCalls, `toolItemIDs, `toolOutputIndex, `calls
      ensures ToolLinked() && calls == old(calls)[idx := Call(out, item, callID, name, "", None)]
    {
      hide MapsOf;
      StoringLink(calls, idx, Call(out, item, callID, name, "", None));
      toolCalls := toolCalls[idx := Stored(callID, name, "")];
      toolItemIDs := toolItemIDs[idx := item];
      toolOutputIndex := toolOutputIndex[idx := out];
      calls := calls[idx := Call(out, item, callID, name, "", None)];
    }

    /** A known tool index delivers its id or name. */
    method UpdateCall(idx: int, id: string, name: string)
      requires ToolLinked() && idx in calls
      modifies `toolCalls, `calls
      ensures ToolLinked() && It() == Noted(old(It()), idx, id, name)
    {
      hide MapsOf;
      LookupLink(calls, idx);
      var stored := toolCalls[idx];
      if id != "" {
        stored := stored.(id := Given(id));
      }
      if name != "" {
        stored := stored.(name := name);
      }
      RestoringLink(calls, idx, calls[idx].(id := stored.id, name := stored.name));
      toolCalls := toolCalls[idx := stored];
      calls := calls[idx := calls[idx].(id := stored.id, name := stored.name)];
    }

    /** The type of a call is on record. */
    method RecordKind(idx: int, kind: Kind)
      requires ToolLinked() && idx in calls && calls[idx].kind.None?
      modifies `toolAnnounced, `toolIsCustom, `toolIsToolSearch, `toolNamespace, `calls
      ensures ToolLinked() && calls == old(calls)[idx := old(calls)[idx].(kind := Some(kind))]
    {
      hide MapsOf;
      AnnouncingLink(calls, idx, kind);
      toolAnnounced := toolAnnounced[idx := true];
      toolIsCustom := toolIsCustom[idx := kind.CustomCall?];
      toolIsToolSearch := toolIsToolSearch[idx := kind.SearchCall?];
      if kind.NamespacedCall? {
        toolNamespace := toolNamespace[idx := (kind.namespace, kind.name)];
      }
      calls := calls[idx := calls[idx].(kind := Some(kind))];
    }

    /** The type a name decides, with the item that announces it. */
    method Classify(c: Call) returns (kind: Kind, header: Content)
      ensures kind == KindOf(cfg, c.name) && header == HeaderOf(c, kind)
    {
      var isCustom := c.name in cfg.custom;
      var isToolSearch := !isCustom && cfg.search && c.name == TOOL_SEARCH;
      header, kind := FunctionItem(c.id, c.name, "", ""), PlainCall;
      if isCustom {
        header, kind := CustomItem(c.id, c.name, ""), CustomCall;
      } else if isToolSearch {
        header, kind := SearchItem(c.id, ""), SearchCall;
      } else if c.name in cfg.namespaces {
        var ns := cfg.namespaces[c.name];
        header, kind := FunctionItem(c.id, ns.1, ns.0, ""), NamespacedCall(ns.0, ns.1);
      }
    }

    /** output_item.added for a tool, and the arguments that had to wait for it. */
    method EmitAnnouncement(c: Call, kind: Kind, header: Content) returns (events: seq<Event>)
      requires Emitted() && client.created.Some? && c.out !in client.items
      requires header == HeaderOf(c, kind)
      modifies `sequenceNumber, `log, `client
      ensures Emitted() && client.created == old(client).created && client.completed == old(client).completed
      ensures client == AnnouncedTo(old(client), c, kind)
      ensures log == old(log) + events
    {
      var e := Emit(ItemAdded(c.out, c.item, header));
      events := [e];
      if Ordinary(kind) && c.args != "" {
        var f := Tell(c.out, c.item, ArgumentsDelta, c.args, RouteOf(c));
        events := events + [f];
      }
    }

    /** The announcing half of announceChatToolItem. */
    method AnnounceNow(idx: int) returns (events: seq<Event>)
      requires Emitted() && client.created.Some? && ToolLinked()
      requires idx in calls && calls[idx].kind.None? && calls[idx].out !in client.items
      modifies `toolAnnounced, `toolIsCustom, `toolIsToolSearch, `toolNamespace, `calls, `sequenceNumber, `log, `client
      ensures Emitted() && client.created == old(client).created && client.completed == old(client).completed
      ensures ToolLinked()
      ensures var c := old(calls)[idx];
              var kind := KindOf(cfg, c.name);
              client == AnnouncedTo(old(client), c, kind) && calls == old(calls)[idx := c.(kind := Some(kind))]
      ensures log == old(log) + events
    {
      hide Replay, MapsOf, KindOf, HeaderOf, AnnouncedTo, Apply;
      LookupLink(calls, idx);
      var stored := toolCalls[idx];
      var call := Call(toolOutputIndex[idx], toolItemIDs[idx], stored.id, stored.name, stored.arguments, None);
      var kind, header := Classify(call);
      events := EmitAnnouncement(call, kind, header);
      RecordKind(idx, kind);
    }

    /** announceChatToolItem */
    method AnnounceToolItem(idx: int, force: bool) returns (events: seq<Event>)
      requires Emitted() && client.created.Some? && ToolLinked() && CallFits(It(), idx)
      modifies `toolAnnounced, `toolIsCustom, `toolIsToolSearch, `toolNamespace, `calls, `sequenceNumber, `log, `client
      ensures Emitted() && client.created == old(client).created && client.completed == old(client).completed
      ensures ToolLinked() && It() == Announced(old(It()), cfg, idx, force)
      ensures log == old(log) + events
    {
      hide Replay, MapsOf, KindOf, AnnouncedTo, Declares;
      LookupLink(calls, idx);
      if idx in toolAnnounced || (!force && toolCalls[idx].name == "" && Declares(cfg)) {
        return [];
      }
      events := AnnounceNow(idx);
    }

    method StoreArguments(idx: int, args: string)
      requires ToolLinked() && idx in calls
      modifies `toolCalls, `calls
      ensures ToolLinked() && calls == old(calls)[idx := old(calls)[idx].(args := old(calls)[idx].args + args)]
    {
      hide MapsOf;
      LookupLink(calls, idx);
      var stored := toolCalls[idx];
      RestoringLink(calls, idx, calls[idx].(args := stored.arguments + args));
      toolCalls := toolCalls[idx := stored.(arguments := stored.arguments + args)];
      calls := calls[idx := calls[idx].(args := stored.arguments + args)];
    }

    /** A fragment streams if its call is an ordinary one that was announced. */
    method StreamFragment(idx: int, args: string) returns (events: seq<Event>)
      requires Emitted() && client.created.Some? && ToolLinked() && idx in calls && args != ""
      requires var c := calls[idx];
               Streams(c) ==> Knows(client, c.out, c.item) && client.items[c.out].header.FunctionItem? &&
                              (client.items[c.out].stage.Fresh? || client.items[c.out].stage.Done?)
      modifies `sequenceNumber, `log, `client
      ensures Emitted() && client.created == old(client).created && client.completed == old(client).completed
      ensures var c := calls[idx];
              client == if Streams(c) then Told(old(client), c.out, args, RouteOf(c)) else old(client)
      ensures log == old(log) + events
    {
      hide Replay, MapsOf, Told, Apply;
      events := [];
      LookupLink(calls, idx);
      if idx in toolAnnounced && !toolIsCustom[idx] && !toolIsToolSearch[idx] {
        var stored := toolCalls[idx];
        var e := Tell(toolOutputIndex[idx], toolItemIDs[idx], ArgumentsDelta, args, Some((stored.id, stored.name)));
        events := [e];
      }
    }

    /** An argument fragment: kept, and streamed if its call is ready for it. */
    method FeedToolCall(idx: int, args: string) returns (events: seq<Event>)
      requires Emitted() && client.created.Some? && ToolLinked() && CallFits(It(), idx)
      modifies `toolCalls, `calls, `sequenceNumber, `log, `client
      ensures Emitted() && client.created == old(client).created && client.completed == old(client).completed
      ensures ToolLinked() && It() == Fed(old(It()), idx, args)
      ensures log == old(log) + events
    {
      hide Replay, MapsOf, Told, Apply;
      events := [];
      if args != "" {
        StoreArguments(idx, args);
        events := StreamFragment(idx, args);
      }
    }

    /** A tool delta makes its call known, or adds to what is known. */
    method NoteCall(idx: int, id: string, name: string) returns (events: seq<Event>)
      requires Emitted() && client.created.Some? && FlagsLinked() && ToolLinked() && LanesFit(It())
      modifies `reasoningOpen, `reasoningDone, `nextOutputIndex, `minted, `toolCalls, `toolItemIDs, `toolOutputIndex,
               `calls, `sequenceNumber, `log, `client
      ensures Emitted() && client.created == old(client).created && client.completed == old(client).completed
      ensures ToolLinked() && FlagsLinked()
      ensures It() == Noted(old(It()), idx, id, name)
      ensures log == old(log) + events
    {
      hide Emitted, MapsOf, ClosedReasoning, Registered, LanesFit, LaneOf;
      LookupLink(calls, idx);
      events := [];
      KeepsCalls(It());
      if idx !in toolCalls {
        events := CloseReasoningItem();
        StoreNewCall(idx, id, name);
      } else {
        UpdateCall(idx, id, name);
      }
    }

    /** One tool call of a choice. */
    method OnToolCall(call: ToolCallDelta) returns (events: seq<Event>)
      requires Emitted() && client.created.Some? && FlagsLinked() && ToolLinked() && Fits(It())
      modifies `reasoningOpen, `reasoningDone, `nextOutputIndex, `minted, `toolCalls, `toolItemIDs, `toolOutputIndex,
               `toolAnnounced, `toolIsCustom, `toolIsToolSearch, `toolNamespace, `calls, `sequenceNumber, `log, `client
      ensures Emitted() && client.created == old(client).created && client.completed == old(client).completed
      ensures ToolLinked() && FlagsLinked()
      ensures It() == OnTool(old(It()), cfg, ToolInput(call).index, call.id, call.name, call.arguments)
      ensures log == old(log) + events
    {
      hide Emitted, ToolLinked, Fits, Noted, Announced, Fed, LanesFit, CallFits, LaneOf;
      var idx := if call.index.Some? then call.index.value else 0;
      StagesFit(It(), cfg, idx, call.id, call.name);
      events := NoteCall(idx, call.id, call.name);
      var more := AnnounceToolItem(idx, false);
      events := events + more;
      assert FlagsLinked();
      more := FeedToolCall(idx, call.arguments);
      events := events + more;
    }

    /** synthesizeChatReasoningFallbackMessage */
    method SynthesizeFallback() returns (events: seq<Event>)
      requires Emitted() && client.created.Some? && textPartOpen == messageItemID.Some? && ToolLinked()
      requires nextOutputIndex !in client.items && LanesFit(OpenedMessage(It()))
      modifies `messageItemID, `messageIndex, `textPartOpen, `nextOutputIndex, `minted, `text,
               `sequenceNumber, `log, `client
      ensures Emitted() && client.created == old(client).created && client.completed == old(client).completed
      ensures It() == FallenBack(old(It())) && textPartOpen == messageItemID.Some?
      ensures log == old(log) + events
    {
      hide Replay, Apply, Written, LanesFit, MapsOf;
      SizeLink(calls);
      if messageItemID.Some? || |text| > 0 || |reasoning| == 0 || |toolCalls| > 0 {
        return [];
      }
      if IsBlank(reasoning) {
        return [];
      }
      events := Write(reasoning);
    }

    /** The message part of FinalizeChatCompletionsResponsesStream. */
    method CloseMessage() returns (events: seq<Event>)
      requires Emitted() && client.created.Some? && textPartOpen == messageItemID.Some? && LanesFit(It())
      requires messageItemID.Some? ==> messageIndex in client.items && client.items[messageIndex].stage.PartOpen?
      modifies `sequenceNumber, `log, `client
      ensures Emitted() && client.created == old(client).created && client.completed == old(client).completed
      ensures It() == ClosedMessage(old(It()))
      ensures log == old(log) + events
    {
      hide Replay, Apply, Staged;
      events := [];
      if messageItemID.Some? {
        events := FinishLane(messageIndex, messageItemID.value, MessageItem(text), text);
      }
    }

    /** The closing events of an announced call, by its type. */
    method FinishCall(idx: int) returns (events: seq<Event>)
      requires Emitted() && client.created.Some? && ToolLinked() && idx in calls && calls[idx].kind.Some?
      requires CallFits(It(), idx) && client.items[calls[idx].out].stage.Fresh?
      modifies `sequenceNumber, `log, `client
      ensures Emitted() && client.created == old(client).created && client.completed == old(client).completed
      ensures client == FinishedCall(old(client), cfg, calls[idx])
      ensures log == old(log) + events
    {
      hide Replay, MapsOf;
      LookupLink(calls, idx);
      var call := toolCalls[idx];
      var outputIndex, itemID := toolOutputIndex[idx], toolItemIDs[idx];
      var arguments := if IsBlank(call.arguments) then "{}" else call.arguments;
      if toolIsCustom[idx] {
        events := FinishCustom(outputIndex, itemID, call.id, call.name, cfg.inputOf(arguments));
      } else if toolIsToolSearch[idx] {
        var e := Emit(ItemDone(outputIndex, itemID, SearchItem(call.id, arguments)));
        events := [e];
      } else {
        var name, namespace := call.name, "";
        if idx in toolNamespace {
          namespace, name := toolNamespace[idx].0, toolNamespace[idx].1;
        }
        events := FinishFunction(outputIndex, itemID, call.id, name, namespace, arguments);
      }
    }

    method FinishCustom(out: nat, item: nat, callID: CallId, name: string, input: string) returns (events: seq<Event>)
      requires Emitted() && Knows(client, out, item) && client.items[out].header.CustomItem?
      requires client.items[out].stage.Fresh? && client.items[out].text == ""
      modifies `sequenceNumber, `log, `client
      ensures Emitted() && client.created == old(client).created && client.completed == old(client).completed
      ensures var c := if input != "" then Told(old(client), out, input, None) else old(client);
              client == Staged(Sealing(c, out, Some((callID, name))), out, Done(CustomItem(callID, name, input)))
      ensures log == old(log) + events
    {
      hide Replay;
      events := [];
      if input != "" {
        var e := Tell(out, item, InputDelta, input, None);
        events := [e];
      }
      assert client.items[out].text == input;
      var f := Emit(InputDone(out, item, input, Some((callID, name))));
      var g := Emit(ItemDone(out, item, CustomItem(callID, name, input)));
      events := events + [f, g];
    }

    method FinishFunction(out: nat, item: nat, callID: CallId, name: string, namespace: string, arguments: string)
      returns (events: seq<Event>)
      requires Emitted() && Knows(client, out, item) && client.items[out].header.FunctionItem?
      requires client.items[out].stage.Fresh? && arguments == ArgumentsOrEmpty(client.items[out].text)
      modifies `sequenceNumber, `log, `client
      ensures Emitted() && client.created == old(client).created && client.completed == old(client).completed
      ensures client == Staged(Sealing(old(client), out, Some((callID, name))), out,
                               Done(FunctionItem(callID, name, namespace, arguments)))
      ensures log == old(log) + events
    {
      hide Replay;
      var e := Emit(ArgumentsDone(out, item, arguments, Some((callID, name))));
      var f := Emit(ItemDone(out, item, FunctionItem(callID, name, namespace, arguments)));
      events := [e, f];
    }

    /** One round of closeChatToolItems. */
    method CloseToolItem(idx: int) returns (events: seq<Event>)
      requires Emitted() && client.created.Some? && ToolLinked() && Fits(It())
      requires CallOpen(It(), idx)
      modifies `toolAnnounced, `toolIsCustom, `toolIsToolSearch, `toolNamespace, `calls, `sequenceNumber, `log, `client
      ensures Emitted() && client.created == old(client).created && client.completed == old(client).completed
      ensures ToolLinked() && It() == ClosedCall(old(It()), cfg, idx)
      ensures log == old(log) + events
    {
      hide Replay, MapsOf, Fits, Announced, FinishedCall, Apply, CallFits;
      LookupLink(calls, idx);
      events := [];
      if idx !in toolCalls {
        return;
      }
      ForcedFits(It(), cfg, idx);
      events := AnnounceToolItem(idx, true);
      var more := FinishCall(idx);
      events := events + more;
    }

    /** closeChatToolItems walks the indices 0 .. len - 1. */
    method CloseToolItems() returns (events: seq<Event>)
      requires Emitted() && client.created.Some? && ToolLinked() && Fits(It()) && AllOpen(It())
      modifies `toolAnnounced, `toolIsCustom, `toolIsToolSearch, `toolNamespace, `calls, `sequenceNumber, `log, `client
      ensures Emitted() && client.created == old(client).created && client.completed == old(client).completed
      ensures ToolLinked() && It() == ClosedCalls(old(It()), cfg, |old(calls)|)
      ensures log == old(log) + events
    {
      hide Replay, MapsOf, Fits, ClosedCall, AllOpen, CallOpen;
      events := [];
      ghost var d := It();
      SizeLink(calls);
      var n := |toolCalls|;
      assert n == |calls|;
      hide Emitted, ToolLinked;
      for i := 0 to n
        invariant Emitted() && client.created == old(client).created && client.completed == old(client).completed
        invariant ToolLinked() && It() == ClosedCalls(d, cfg, i)
        invariant log == old(log) + events
      {
        ClosedCallsFit(d, cfg, i);
        ClosedCallsOpen(d, cfg, i, i);
        var more := CloseToolItem(i);
        events := events + more;
      }
    }

    /** chatOutput */
    method ChatOutput() returns (outputs: seq<Content>)
      requires ToolLinked()
      ensures outputs == Output(It(), cfg)
    {
      hide MapsOf;
      outputs := [];
      if |reasoning| > 0 {
        outputs := outputs + [ReasoningItem(reasoning)];
      }
      SizeLink(calls);
      if messageItemID.Some? || |toolCalls| == 0 {
        outputs := outputs + [MessageItem(text)];
      }
      ghost var base := outputs;
      for i := 0 to |toolCalls|
        invariant outputs == base + CallOutputs(It(), cfg, i)
      {
        LookupLink(calls, i);
        if i in toolCalls {
          var item := CallOutput(i);
          outputs := outputs + [item];
        }
      }
    }

    /** The item of one call. */
    method CallOutput(i: int) returns (item: Content)
      requires ToolLinked() && i in calls
      ensures var c := calls[i];
              item == ContentOf(cfg, c, if c.kind.Some? then c.kind.value else PlainCall, ArgumentsOrEmpty(c.args))
    {
      hide MapsOf;
      LookupLink(calls, i);
      var call := toolCalls[i];
      var arguments := if IsBlank(call.arguments) then "{}" else call.arguments;
      if i in toolIsCustom && toolIsCustom[i] {
        return CustomItem(call.id, call.name, cfg.inputOf(arguments));
      }
      if i in toolIsToolSearch && toolIsToolSearch[i] {
        return SearchItem(call.id, arguments);
      }
      var name, namespace := call.name, "";
      if i in toolNamespace {
        namespace, name := toolNamespace[i].0, toolNamespace[i].1;
      }
      item := FunctionItem(call.id, name, namespace, arguments);
    }

    /** The reasoning and message items are closed. */
    method CloseLanes() returns (events: seq<Event>)
      requires Emitted() && client.created.Some? && FlagsLinked() && ToolLinked()
      requires LanesReady(It())
      modifies `reasoningOpen, `reasoningDone, `messageItemID, `messageIndex, `textPartOpen, `nextOutputIndex, `minted,
               `text, `sequenceNumber, `log, `client
      ensures Emitted() && client.created == old(client).created && client.completed == old(client).completed
      ensures ToolLinked() && It() == ClosedMessage(FallenBack(ClosedReasoning(old(It()))))
      ensures textPartOpen == messageItemID.Some? && !(reasoningOpen && reasoningDone)
      ensures log == old(log) + events
    {
      hide Emitted, ToolLinked, LanesFit, ClosedReasoning, FallenBack, ClosedMessage, OpenedMessage, LaneOf;
      events := CloseReasoningItem();
      var more := SynthesizeFallback();
      events := events + more;
      more := CloseMessage();
      events := events + more;
    }

    /** FinalizeChatCompletionsResponsesStream up to the terminal event. */
    method WrapUp() returns (events: seq<Event>)
      requires Emitted() && client.created.Some? && FlagsLinked() && ToolLinked() && Fits(It()) && Unfinished(It())
      modifies `reasoningOpen, `reasoningDone, `messageItemID, `messageIndex, `textPartOpen, `nextOutputIndex, `minted,
               `text, `toolAnnounced, `toolIsCustom, `toolIsToolSearch, `toolNamespace, `calls,
               `sequenceNumber, `log, `client
      ensures Emitted() && client.created == old(client).created && client.completed == old(client).completed
      ensures ToolLinked() && It() == Wrapped(old(It()), cfg) && FlagsLinked()
      ensures log == old(log) + events
    {
      hide Emitted, ToolLinked, Fits, Unfinished, AllOpen, LanesReady, ClosedReasoning, FallenBack, ClosedMessage, ClosedCalls;
      WrappingFits(It());
      events := CloseLanes();
      var more := CloseToolItems();
      events := events + more;
    }

    /** response.completed */
    method EmitCompleted() returns (events: seq<Event>)
      requires Emitted() && client.created.Some? && !completedSent && ToolLinked() && FlagsLinked()
      modifies `completedSent, `sequenceNumber, `log, `client
      ensures Emitted() && completedSent && FlagsLinked()
      ensures It() == EndedAs(old(It()), FinalResponse(responseID, model, finishReason, usage, Output(old(It()), cfg)))
      ensures log == old(log) + events
    {
      hide Replay, MapsOf;
      var status, details := "completed", "";
      if finishReason == "length" {
        status, details := "incomplete", "max_output_tokens";
      }
      completedSent := true;
      var outputs := ChatOutput();
      var e := Emit(Completed(Response(responseID, model, status, details, outputs, usage)));
      events := [e];
    }

    /** The events of FinalizeChatCompletionsResponsesStream. */
    method FinishStream() returns (events: seq<Event>)
      requires Emitted() && FlagsLinked() && ToolLinked() && !completedSent
      requires var d := It().(client := Begun(client, responseID, model)); Fits(d) && Unfinished(d)
      modifies `createdSent, `completedSent, `reasoningOpen, `reasoningDone, `messageItemID, `messageIndex, `textPartOpen,
               `nextOutputIndex, `minted, `text, `toolAnnounced, `toolIsCustom, `toolIsToolSearch, `toolNamespace, `calls,
               `sequenceNumber, `log, `client
      ensures Emitted() && FlagsLinked() && ToolLinked() && completedSent
      ensures var d := Wrapped(old(It()).(client := Begun(old(client), responseID, model)), cfg);
              It() == EndedAs(d, FinalResponse(responseID, model, finishReason, usage, Output(d, cfg)))
      ensures log == old(log) + events
    {
      hide Emitted, FlagsLinked, ToolLinked, Fits, Unfinished, Wrapped, FinalResponse, LaneOf, Output, EndedAs;
      events := EnsureCreated();
      var more := WrapUp();
      events := events + more;
      more := EmitCompleted();
      events := events + more;
    }

    /** FinalizeChatCompletionsResponsesStream */
    method Finalize() returns (events: seq<Event>)
      requires Valid()
      modifies this
      ensures Valid() && completedSent
      ensures received == old(received) + [End] && log == old(log) + events
      ensures old(completedSent) ==> events == []
    {
      hide Emitted, ToolLinked, Fits, Unfinished, Run, Wrapped, FinalResponse, LaneOf, Output, Begun, EndedAs;
      ghost var v := AsView();
      events := [];
      if !completedSent {
        EndingFits(v, cfg, origin, received);
        events := FinishStream();
      }
      Record(End, v);
    }

    /** The input goes on record; the fields already reflect it. */
    ghost method Record(i: Input, before: View)
      requires before == Run(origin, cfg, received) && AsView() == OnInput(before, cfg, i)
      requires origin == InitialView(origin.responseId, origin.model)
      modifies `received
      ensures received == old(received) + [i] && OnRecord()
    {
      RunSnoc(origin, cfg, received, i);
      received := received + [i];
    }

    method TakeReasoning(piece: string) returns (events: seq<Event>)
      requires Valid() && client.created.Some? && piece != ""
      modifies `reasoningOpen, `reasoningItemID, `reasoningIndex, `nextOutputIndex, `minted, `reasoning,
               `sequenceNumber, `log, `client, `received
      ensures Valid() && client.created.Some?
      ensures received == old(received) + [Reasoning(piece)] && log == old(log) + events
    {
      hide Replay, ToolLinked, FlagsLinked, Emitted, Run, Fits, LanesFit, OnReasoning, OpenedReasoning, LaneOf;
      ghost var v := AsView();
      RunFits(origin, cfg, received);
      OpenedReasoningFits(It());
      FitsAt(It(), 0);
      FitsAt(OpenedReasoning(It()), 0);
      events := OnReasoningPart(piece);
      Record(Reasoning(piece), v);
    }

    /** The text part of a choice. */
    method OnTextPart(piece: string) returns (events: seq<Event>)
      requires Emitted() && client.created.Some? && FlagsLinked() && piece != "" && LanesFit(It())
      requires var e := ClosedReasoning(It()); e.nextOut !in e.client.items && LanesFit(OpenedMessage(e))
      modifies `reasoningOpen, `reasoningDone, `messageItemID, `messageIndex, `textPartOpen, `nextOutputIndex, `minted,
               `text, `sequenceNumber, `log, `client
      ensures Emitted() && client.created == old(client).created && client.completed == old(client).completed
      ensures It() == OnText(old(It()), piece) && FlagsLinked()
      ensures log == old(log) + events
    {
      hide Replay, LanesFit, ClosedReasoning, OpenedMessage, Written;
      events := CloseReasoningItem();
      var more := Write(piece);
      events := events + more;
    }

    method TakeText(piece: string) returns (events: seq<Event>)
      requires Valid() && client.created.Some? && piece != ""
      modifies `reasoningOpen, `reasoningDone, `messageItemID, `messageIndex, `textPartOpen, `nextOutputIndex, `minted,
               `text, `sequenceNumber, `log, `client, `received
      ensures Valid() && client.created.Some?
      ensures received == old(received) + [Text(piece)] && log == old(log) + events
    {
      hide Replay, ToolLinked, FlagsLinked, Emitted, Run, Fits, LanesFit, OnText, ClosedReasoning, OpenedMessage, LaneOf;
      ghost var v := AsView();
      RunFits(origin, cfg, received);
      TextFits(It());
      events := OnTextPart(piece);
      Record(Text(piece), v);
    }

    method TakeToolCall(call: ToolCallDelta) returns (events: seq<Event>)
      requires Valid() && client.created.Some?
      modifies `reasoningOpen, `reasoningDone, `nextOutputIndex, `minted, `toolCalls, `toolItemIDs, `toolOutputIndex,
               `toolAnnounced, `toolIsCustom, `toolIsToolSearch, `toolNamespace, `calls, `sequenceNumber, `log, `client,
               `received
      ensures Valid() && client.created.Some?
      ensures received == old(received) + [ToolInput(call)] && log == old(log) + events
    {
      hide Replay, ToolLinked, FlagsLinked, Emitted, Run, Fits, OnTool, LaneOf;
      ghost var v := AsView();
      RunFits(origin, cfg, received);
      events := OnToolCall(call);
      Record(ToolInput(call), v);
    }

    method TakeFinish(reason: string)
      requires Valid() && client.created.Some? && reason != ""
      modifies `finishReason, `received
      ensures Valid() && client.created.Some?
      ensures received == old(received) + [Finish(reason)]
    {
      hide Replay, MapsOf, Run;
      ghost var v := AsView();
      finishReason := reason;
      Record(Finish(reason), v);
    }

    method TakeToolCalls(toolCallDeltas: seq<ToolCallDelta>) returns (events: seq<Event>)
      requires Valid() && client.created.Some?
      modifies `reasoningOpen, `reasoningDone, `nextOutputIndex, `minted, `toolCalls, `toolItemIDs, `toolOutputIndex,
               `toolAnnounced, `toolIsCustom, `toolIsToolSearch, `toolNamespace, `calls, `sequenceNumber, `log, `client,
               `received
      ensures Valid() && client.created.Some?
      ensures received == old(received) + ToolInputs(toolCallDeltas) && log == old(log) + events
    {
      hide Valid;
      events := [];
      for n := 0 to |toolCallDeltas|
        invariant Valid() && client.created.Some?
        invariant received == old(received) + ToolInputs(toolCallDeltas[..n]) && log == old(log) + events
      {
        assert toolCallDeltas[..n + 1][..n] == toolCallDeltas[..n];
        var more := TakeToolCall(toolCallDeltas[n]);
        events := events + more;
      }
      assert toolCallDeltas[..|toolCallDeltas|] == toolCallDeltas;
    }

    /** One choice of a chunk. */
    method TakeChoice(choice: Choice) returns (events: seq<Event>)
      requires Valid() && client.created.Some?
      modifies this
      ensures Valid() && client.created.Some?
      ensures received == old(received) + ChoiceInputs(choice) && log == old(log) + events
    {
      hide Valid, Run, Replay;
      events := [];
      if Present(choice.reasoning) != "" {
        events := TakeReasoning(choice.reasoning.value);
      }
      assert received == old(received) + ReasoningInputs(choice);
      if Present(choice.content) != "" {
        var more := TakeText(choice.content.value);
        events := events + more;
      }
      assert received == old(received) + (ReasoningInputs(choice) + TextInputs(choice));
      var more := TakeToolCalls(choice.toolCalls);
      events := events + more;
      assert received == old(received) + (ReasoningInputs(choice) + TextInputs(choice) + ToolInputs(choice.toolCalls));
      if Present(choice.finish) != "" {
        TakeFinish(choice.finish.value);
      }
      assert received == old(received)
        + (ReasoningInputs(choice) + TextInputs(choice) + ToolInputs(choice.toolCalls) + FinishInputs(choice));
    }

    method TakeChoices(choices: seq<Choice>) returns (events: seq<Event>)
      requires Valid() && client.created.Some?
      modifies this
      ensures Valid() && client.created.Some?
      ensures received == old(received) + ChoicesInputs(choices) && log == old(log) + events
    {
      hide Valid, Run, Replay, ChoiceInputs;
      events := [];
      for n := 0 to |choices|
        invariant Valid() && client.created.Some?
        invariant received == old(received) + ChoicesInputs(choices[..n]) && log == old(log) + events
      {
        assert choices[..n + 1][..n] == choices[..n];
        var more := TakeChoice(choices[n]);
        events := events + more;
      }
      assert choices[..|choices|] == choices;
    }

    /** The ids and usage of a chunk. */
    method ReadHeader(chunk: Chunk)
      modifies `responseID, `model, `usage
      ensures AsView() == HeadRead(old(AsView()), chunk.id, chunk.model, chunk.usage)
    {
      if chunk.id != "" {
        responseID := chunk.id;
      }
      if model == "" && chunk.model != "" {
        model := chunk.model;
      }
      if chunk.usage.Some? {
        usage := Some(ResponsesUsageOf(chunk.usage.value));
      }
    }

    /** The header of a chunk, and response.created for the first one. */
    method TakeHead(chunk: Chunk) returns (events: seq<Event>)
      requires Valid()
      modifies `responseID, `model, `usage, `createdSent, `sequenceNumber, `log, `client, `received
      ensures Valid() && client.created.Some?
      ensures received == old(received) + [Head(chunk.id, chunk.model, chunk.usage)]
      ensures log == old(log) + events
    {
      hide Emitted, FlagsLinked, Run, ToolLinked, HeadRead, Begun, LaneOf;
      ghost var v := AsView();
      ReadHeader(chunk);
      events := EnsureCreated();
      Record(Head(chunk.id, chunk.model, chunk.usage), v);
    }

    /** ChatCompletionsChunkToResponsesEvents */
    method Chunk(chunk: Chunk) returns (events: seq<Event>)
      requires Valid()
      modifies this
      ensures Valid()
      ensures received == old(received) + ChunkInputs(chunk) && log == old(log) + events
    {
      hide Valid, Run, Replay, ChoicesInputs;
      events := TakeHead(chunk);
      var more := TakeChoices(chunk.choices);
      events := events + more;
    }
  }

  lemma ReplayOneMore(log: seq<Event>, e: Event)
    requires Replay(log).Some? && e.seqNo == Replay(log).value.count
    ensures Replay(log + [e]) == Apply(Replay(log).value, e.body)
  {
    hide Apply;
    assert (log + [e])[..|log + [e]| - 1] == log;
  }

  lemma CountsUp(c: Client, b: Body)
    requires Apply(c, b).Some?
    ensures Apply(c, b).value.count == c.count + 1
  {
  }

  lemma StagesFit(d: Desk, cfg: Config, k: int, id: string, name: string)
    requires Fits(d)
    ensures LanesFit(d) && CallFits(Noted(d, k, id, name), k) && CallFits(Announced(Noted(d, k, id, name), cfg, k, false), k)
  {
    hide Fits, Noted, Announced, LanesFit, CallFits;
    FitsAt(d, k);
    NotedFits(d, k, id, name);
    FitsAt(Noted(d, k, id, name), k);
    AnnouncedFits(Noted(d, k, id, name), cfg, k, false);
    FitsAt(Announced(Noted(d, k, id, name), cfg, k, false), k);
  }

  lemma KeepsCalls(d: Desk)
    ensures ClosedReasoning(d).calls == d.calls
  {
  }

  lemma EndingFits(v: View, cfg: Config, origin: View, ins: seq<Input>)
    requires origin == InitialView(origin.responseId, origin.model)
    requires v == Run(origin, cfg, ins) && v.it.client.completed.None?
    ensures var d := v.it.(client := Begun(v.it.client, v.responseId, v.model)); Fits(d) && Unfinished(d)
  {
    RunCompletes(origin, cfg, ins);
    RunFits(origin, cfg, ins);
    RunUnfinished(origin, cfg, ins);
    SameItemsFit(v.it, Begun(v.it.client, v.responseId, v.model));
    SameItemsUnfinished(v.it, Begun(v.it.client, v.responseId, v.model));
  }
}
