/** An Anthropic stream as Responses events (anthropic_to_responses_response.go). */
module AnthropicEvents {
  import opened Common
  import opened ChatChunks

  // ----- What comes in -----

  datatype Tokens = Tokens(input: int, output: int, cacheRead: int, cacheCreation: int)

  datatype Opening = ThinkingOpens | TextOpens | ToolOpens(id: string, name: string) | OtherOpens

  datatype Piece = TextPiece(text: string) | ThinkingPiece(text: string) | JsonPiece(text: string) | OtherPiece

  datatype AnthropicEvent =
    | MessageStart(message: Option<(string, string, Tokens)>)
    | BlockStart(block: Option<Opening>)
    | BlockDelta(delta: Option<Piece>)
    | BlockStop
    | MessageDelta(usage: Option<Tokens>, stopReason: string)
    | MessageStop
    | OtherEvent

  // ----- What goes out -----

  datatype Body =
    | MessageOut(parts: seq<string>)
    | CallOut(callId: string, name: string, arguments: string)
    | ReasoningOut(summary: string)

  datatype Output = Output(item: Option<nat>, body: Body)

  /** Usage with the cached tokens added back. */
  datatype Usage = Usage(input: int, output: int, total: int, cacheCreation: int, cached: Option<int>)

  datatype Response = Response(id: string, model: string, status: string, incomplete: string, output: seq<Output>, usage: Usage)

  datatype ItemType = NoItem | MessageItem | CallItem | ReasoningItem

  datatype Says =
    | Created(id: string, model: string)
    | Added(header: Body)
    | PartAdded
    | TextDelta(text: string)
    | SummaryDelta(text: string)
    | ArgumentsDelta(text: string, callId: string, name: string)
    | SummaryDone
    | ArgumentsDone(callId: string, name: string)
    | TextDone(text: string)
    | PartDone(text: string)
    | Done(body: Body)
    | Terminal(response: Response)

  /** An event with its number, and the output index and item id it carries. */
  datatype Event = Event(seqNo: nat, index: nat, item: Option<nat>, says: Says)

  /** The items that were done, in order. */
  function Dones(log: seq<Event>): seq<Output> {
    if log == [] then []
    else Dones(Init(log)) + (if Last(log).says.Done? then [Output(Last(log).item, Last(log).says.body)] else [])
  }

  /** The items that were added, in order. */
  function AddedItems(log: seq<Event>): seq<Option<nat>> {
    if log == [] then []
    else AddedItems(Init(log)) + (if Last(log).says.Added? then [Last(log).item] else [])
  }

  function Terminals(log: seq<Event>): seq<Response> {
    if log == [] then []
    else Terminals(Init(log)) + (if Last(log).says.Terminal? then [Last(log).says.response] else [])
  }

  predicate CarriesIndex(s: Says) {
    !s.Created? && !s.Terminal?
  }

  /** One event after the log: numbered on; about the item that comes after those
      done so far; the terminal one lists exactly the items done. */
  predicate Follows(log: seq<Event>, e: Event) {
    && e.seqNo == |log|
    && (CarriesIndex(e.says) ==> e.index == |Dones(log)|)
    && (e.says.Terminal? ==> e.says.response.output == Dones(log))
  }

  predicate Consistent(log: seq<Event>) {
    log == [] || (Consistent(Init(log)) && Follows(Init(log), Last(log)))
  }

  /** Every event of a consistent log follows what came before it. */
  lemma {:induction false} ConsistentAt(log: seq<Event>, i: nat)
    requires Consistent(log) && i < |log|
    ensures Follows(log[..i], log[i])
  {
    if i == |log| - 1 {
      assert log[..i] == Init(log);
    } else {
      ConsistentAt(Init(log), i);
      assert Init(log)[..i] == log[..i];
    }
  }

  /** The i-th item that is done has output index i. */
  lemma {:induction false} DonesNumbered(log: seq<Event>, i: nat)
    requires Consistent(log) && i < |log| && log[i].says.Done?
    ensures log[i].index == |Dones(log[..i])| && log[i].index < |Dones(log)|
    ensures Dones(log)[log[i].index] == Output(log[i].item, log[i].says.body)
  {
    ConsistentAt(log, i);
    if i == |log| - 1 {
      assert log[..i] == Init(log);
    } else {
      DonesNumbered(Init(log), i);
      assert Init(log)[..i] == log[..i];
    }
  }

  lemma LogGrows(log: seq<Event>, e: Event)
    requires Consistent(log) && Follows(log, e)
    ensures Consistent(log + [e])
    ensures Dones(log + [e]) == Dones(log) + (if e.says.Done? then [Output(e.item, e.says.body)] else [])
    ensures AddedItems(log + [e]) == AddedItems(log) + (if e.says.Added? then [e.item] else [])
    ensures Terminals(log + [e]) == Terminals(log) + (if e.says.Terminal? then [e.says.response] else [])
  {
    InitOfSnoc(log, e);
  }

  // ----- One event at a time -----

  /** The open item and what it collected so far. */
  datatype Current = Current(
    kind: ItemType, item: Option<nat>, callId: string, name: string,
    text: string, content: seq<string>, args: string, summary: string)

  /** What the terminal event reports besides the items. */
  datatype Header = Header(responseId: string, model: string, tokens: Tokens, stopReason: string, created: bool)

  datatype View = View(
    now: Current, outputs: seq<Output>, added: seq<Option<nat>>, minted: nat, header: Header, final: Option<Response>)

  const NOTHING := Current(NoItem, None, "", "", "", [], "", "")
  const INITIAL := View(NOTHING, [], [], 0, Header("", "", Tokens(0, 0, 0, 0), "", false), None)

  // ----- What a client reads from the events -----

  /** A strict client of the outgoing protocol keeps the same record of the open item,
      from the events alone. It refuses a delta without text or for another item, and
      a done event that does not repeat what the deltas said. */
  function Accept(c: Current, e: Event): Option<Current> {
    match e.says
    case Created(_, _) => if e.item.None? then Some(c) else None
    case Added(header) =>
      if e.item.None? then None
      else
        (match header
         case ReasoningOut(summary) => if summary == "" then Some(c.(kind := ReasoningItem, item := e.item)) else None
         case MessageOut(parts) => if parts == [] then Some(c.(kind := MessageItem, item := e.item)) else None
         case CallOut(id, name, args) =>
           if args == "" && c.kind.NoItem? then Some(c.(kind := CallItem, item := e.item, callId := id, name := name)) else None)
    case PartAdded => if c.kind.MessageItem? && e.item == c.item then Some(c.(text := "")) else None
    case TextDelta(text) => if text != "" && e.item == c.item then Some(c.(text := c.text + text)) else None
    case SummaryDelta(text) => if text != "" && e.item == c.item then Some(c.(summary := c.summary + text)) else None
    case ArgumentsDelta(text, callId, name) =>
      if text != "" && e.item == c.item && callId == c.callId && name == c.name then Some(c.(args := c.args + text)) else None
    case SummaryDone => if c.kind.ReasoningItem? && e.item == c.item then Some(c) else None
    case ArgumentsDone(callId, name) =>
      if c.kind.CallItem? && e.item == c.item && callId == c.callId && name == c.name then Some(c) else None
    case TextDone(text) =>
      if c.kind.MessageItem? && e.item == c.item && text == c.text then Some(c.(content := c.content + [text], text := "")) else None
    case PartDone(text) =>
      if c.kind.MessageItem? && e.item == c.item && c.content != [] && text == Last(c.content) then Some(c) else None
    case Done(body) =>
      if e.item == c.item &&
         (match body
          case MessageOut(parts) => c.kind.MessageItem? && parts == c.content
          case ReasoningOut(summary) => c.kind.ReasoningItem? && summary == c.summary
          case CallOut(id, name, args) =>
            c.kind.CallItem? && id == c.callId && name == c.name && (if c.args == "" then args == "{}" else args == c.args))
      then Some(NOTHING) else None
    case Terminal(_) => if e.item.None? && c.kind.NoItem? then Some(c) else None
  }

  function Replay(log: seq<Event>): Option<Current> {
    if log == [] then Some(NOTHING)
    else
      var c := Replay(Init(log));
      if c.None? then None else Accept(c.value, Last(log))
  }

  /** What a stream tells, in order: its response, the thinking blocks, text parts and
      calls that open, and every piece of them. */
  datatype Saying = Begins(id: string, model: string) | Thought | Part | CallMade(id: string, name: string) | Heard(piece: Piece)

  function SaidBy(says: Says): seq<Saying> {
    match says
    case Created(id, model) => [Begins(id, model)]
    case Added(header) =>
      (match header
       case ReasoningOut(_) => [Thought]
       case MessageOut(_) => []
       case CallOut(id, name, _) => [CallMade(id, name)])
    case PartAdded => [Part]
    case TextDelta(text) => [Heard(TextPiece(text))]
    case SummaryDelta(text) => [Heard(ThinkingPiece(text))]
    case ArgumentsDelta(text, _, _) => [Heard(JsonPiece(text))]
    case _ => []
  }

  /** What the events of the log tell. */
  function Said(log: seq<Event>): seq<Saying> {
    if log == [] then [] else Said(Init(log)) + SaidBy(Last(log).says)
  }

  predicate Greeted(es: seq<AnthropicEvent>) {
    es != [] && (Greeted(Init(es)) || Last(es).MessageStart?)
  }

  function MeantBy(before: seq<AnthropicEvent>, e: AnthropicEvent): seq<Saying> {
    match e
    case MessageStart(m) =>
      if Greeted(before) then [] else if m.None? then [Begins("", "")] else [Begins(m.value.0, m.value.1)]
    case BlockStart(b) =>
      if b.None? then []
      else
        (match b.value
         case ThinkingOpens => [Thought]
         case TextOpens => [Part]
         case ToolOpens(id, name) => [CallMade(id, name)]
         case OtherOpens => [])
    case BlockDelta(d) => if d.None? || d.value.OtherPiece? || d.value.text == "" then [] else [Heard(d.value)]
    case _ => []
  }

  /** What the events that come in tell. */
  function Meant(es: seq<AnthropicEvent>): seq<Saying> {
    if es == [] then [] else Meant(Init(es)) + MeantBy(Init(es), Last(es))
  }

  lemma ReadGrows(log: seq<Event>, c: Current, e: Event)
    requires Replay(log) == Some(c)
    ensures Replay(log + [e]) == Accept(c, e) && Said(log + [e]) == Said(log) + SaidBy(e.says)
  {
    InitOfSnoc(log, e);
  }

  lemma MeantGrows(es: seq<AnthropicEvent>, e: AnthropicEvent)
    ensures Meant(es + [e]) == Meant(es) + MeantBy(es, e) && (Greeted(es + [e]) <==> Greeted(es) || e.MessageStart?)
  {
    InitOfSnoc(es, e);
  }

  lemma MeantAnywhere(es: seq<AnthropicEvent>, e: AnthropicEvent)
    ensures MeantBy(es, e) == if e.MessageStart? && Greeted(es) then [] else MeantBy([], e)
  {
  }

  // ----- The open item, and what ends it -----

  function BodyOf(c: Current): Body {
    match c.kind
    case MessageItem => MessageOut(c.content)
    case CallItem => CallOut(c.callId, c.name, if c.args == "" then "{}" else c.args)
    case _ => ReasoningOut(c.summary)
  }

  /** closeCurrentResponsesItem */
  function Closed(v: View): View {
    if v.now.kind.NoItem? then v else v.(outputs := v.outputs + [Output(v.now.item, BodyOf(v.now))], now := NOTHING)
  }

  /** A new item takes the place of whatever was open. */
  function Opened(v: View, kind: ItemType): View {
    v.(now := v.now.(kind := kind, item := Some(v.minted)), minted := v.minted + 1, added := v.added + [Some(v.minted)])
  }

  function OnOpening(v: View, o: Opening): View {
    match o
    case ThinkingOpens => Opened(v, ReasoningItem)
    case TextOpens =>
      var w := if v.now.kind.MessageItem? then v else Opened(v, MessageItem);
      w.(now := w.now.(text := ""))
    case ToolOpens(id, name) =>
      var w := Opened(Closed(v), CallItem);
      w.(now := w.now.(callId := id, name := name))
    case OtherOpens => v
  }

  function WithPiece(c: Current, p: Piece): Current {
    match p
    case TextPiece(t) => c.(text := c.text + t)
    case ThinkingPiece(t) => c.(summary := c.summary + t)
    case JsonPiece(t) => c.(args := c.args + t)
    case OtherPiece => c
  }

  function OnStop(v: View): View {
    match v.now.kind
    case NoItem => v
    case MessageItem => v.(now := v.now.(content := v.now.content + [v.now.text], text := ""))
    case _ => Closed(v)
  }

  function OrElse(n: int, otherwise: int): int {
    if n > 0 then n else otherwise
  }

  function UsageOf(t: Tokens): Usage {
    var total := t.input + t.cacheRead + t.cacheCreation;
    Usage(total, t.output, total + t.output, t.cacheCreation, if t.cacheRead > 0 then Some(t.cacheRead) else None)
  }

  /** anthropicResponsesStreamTerminalState and makeResponsesCompletedEvent */
  function FinalOf(h: Header, outputs: seq<Output>): Response {
    Response(h.responseId, h.model, if h.stopReason == "max_tokens" then "incomplete" else "completed",
             if h.stopReason == "max_tokens" then "max_output_tokens" else "", outputs, UsageOf(h.tokens))
  }

  function Ended(v: View): View {
    var c := Closed(v);
    c.(final := Some(FinalOf(c.header, c.outputs)))
  }

  function OnMessage(h: Header, m: Option<(string, string, Tokens)>): Header {
    if m.None? then h.(created := true)
    else
      var (id, name, u) := m.value;
      Header(id, if h.model == "" then name else h.model,
             Tokens(OrElse(u.input, h.tokens.input), h.tokens.output,
                    OrElse(u.cacheRead, h.tokens.cacheRead), OrElse(u.cacheCreation, h.tokens.cacheCreation)),
             h.stopReason, true)
  }

  function OnUsage(h: Header, usage: Option<Tokens>, stop: string): Header {
    var tokens := if usage.None? then h.tokens
                  else Tokens(OrElse(usage.value.input, h.tokens.input), usage.value.output,
                              OrElse(usage.value.cacheRead, h.tokens.cacheRead),
                              OrElse(usage.value.cacheCreation, h.tokens.cacheCreation));
    h.(tokens := tokens, stopReason := if stop != "" then stop else h.stopReason)
  }

  function Step(v: View, e: AnthropicEvent): View {
    match e
    case MessageStart(m) => v.(header := OnMessage(v.header, m))
    case BlockStart(b) => if b.Some? then OnOpening(v, b.value) else v
    case BlockDelta(d) => if d.Some? then v.(now := WithPiece(v.now, d.value)) else v
    case BlockStop => OnStop(v)
    case MessageDelta(usage, stop) => v.(header := OnUsage(v.header, usage, stop))
    case MessageStop => if v.final.Some? then v else Ended(v)
    case OtherEvent => v
  }

  function Run(v: View, es: seq<AnthropicEvent>): View {
    if es == [] then v else Step(Run(v, Init(es)), Last(es))
  }

  /** FinalizeAnthropicResponsesStream */
  function Finished(v: View): View {
    if !v.header.created || v.final.Some? then v else Ended(v)
  }

  class StreamState {
    var responseID: string
    var model: string
    var sequenceNumber: nat
    var createdSent: bool
    var completedSent: bool
    var outputIndex: nat
    var currentItemID: Option<nat>
    var currentItemType: ItemType
    var contentIndex: nat
    var textAccum: string
    var currentCallID: string
    var currentName: string
    var currentContent: seq<string>
    var currentArgs: string
    var currentSummary: string
    var outputs: seq<Output>
    var inputTokens: int
    var outputTokens: int
    var cacheReadInputTokens: int
    var cacheCreationInputTokens: int
    var stopReason: string
    var minted: nat
    ghost var received: seq<AnthropicEvent>
    ghost var log: seq<Event>
    ghost var client: Current  // the open item as a client that read the log has it

    /** The response the terminal event carried, if it was sent. */
    ghost function Final(): Option<Response>
      reads `log
    {
      if Terminals(log) == [] then None else Some(Last(Terminals(log)))
    }

    ghost function Now(): Current
      reads `currentItemType, `currentItemID, `currentCallID, `currentName, `textAccum, `currentContent, `currentArgs,
        `currentSummary
    {
      Current(currentItemType, currentItemID, currentCallID, currentName, textAccum, currentContent, currentArgs, currentSummary)
    }

    ghost function Head(): Header
      reads `responseID, `model, `inputTokens, `outputTokens, `cacheReadInputTokens, `cacheCreationInputTokens, `stopReason,
        `createdSent
    {
      Header(responseID, model, Tokens(inputTokens, outputTokens, cacheReadInputTokens, cacheCreationInputTokens),
             stopReason, createdSent)
    }

    ghost function AsView(): View
      reads this
    {
      View(Now(), outputs, AddedItems(log), minted, Head(), Final())
    }

    ghost predicate Logged()
      reads `log, `client, `sequenceNumber, `outputs, `outputIndex, `contentIndex
    {
      && Consistent(log) && sequenceNumber == |log| && Dones(log) == outputs && outputIndex == |outputs| && contentIndex == 0
      && Replay(log) == Some(client)
    }

    /** The events told what the events received told. */
    ghost predicate OnRecord()
      reads `log, `received, `createdSent, `responseID, `model
    {
      && Said(log) == Meant(received) && (createdSent <==> Greeted(received))
      && (!createdSent ==> responseID == "" && model == "")
    }

    /** The log is consistent, and a strict client that read it knows the open item as
        it is; all done items and no other are in `outputs`; the terminal event is sent
        at most once. */
    ghost predicate Valid()
      reads this
    {
      Logged() && client == Now() && |Terminals(log)| == (if completedSent then 1 else 0)
    }

    /** NewAnthropicEventToResponsesState */
    constructor ()
      ensures Valid() && OnRecord() && received == [] && log == [] && AsView() == INITIAL
    {
      responseID, model, sequenceNumber, createdSent, completedSent := "", "", 0, false, false;
      outputIndex, currentItemID, currentItemType, contentIndex := 0, None, NoItem, 0;
      textAccum, currentCallID, currentName, currentContent, currentArgs, currentSummary := "", "", "", [], "", "";
      outputs, inputTokens, outputTokens, cacheReadInputTokens, cacheCreationInputTokens := [], 0, 0, 0, 0;
      stopReason, minted, received, log, client := "", 0, [], [], NOTHING;
    }

    /** An event leaves the converter: the client must accept it. */
    ghost method Note(e: Event)
      requires Consistent(log) && Follows(log, e) && Replay(log) == Some(client) && Accept(client, e).Some?
      modifies `log, `client
      ensures Consistent(log) && Replay(log) == Some(client) && Some(client) == Accept(old(client), e)
      ensures log == old(log) + [e] && Said(log) == Said(old(log)) + SaidBy(e.says)
      ensures Dones(log) == Dones(old(log)) + (if e.says.Done? then [Output(e.item, e.says.body)] else [])
      ensures AddedItems(log) == AddedItems(old(log)) + (if e.says.Added? then [e.item] else [])
      ensures Terminals(log) == Terminals(old(log)) + (if e.says.Terminal? then [e.says.response] else [])
    {
      hide Accept, Replay, Consistent, Dones, AddedItems, Terminals, Said, Follows;
      LogGrows(log, e);
      ReadGrows(log, client, e);
      client := Accept(client, e).value;
      log := log + [e];
    }

    /** makeResponsesEvent, for everything that neither adds nor ends. */
    method Tell(item: Option<nat>, says: Says) returns (e: Event)
      requires Logged() && !says.Done? && !says.Added? && !says.Terminal?
      requires Accept(client, Event(sequenceNumber, outputIndex, item, says)).Some?
      modifies `sequenceNumber, `log, `client
      ensures Logged() && log == old(log) + [e]
      ensures Some(client) == Accept(old(client), Event(old(sequenceNumber), outputIndex, item, says))
      ensures AddedItems(log) == AddedItems(old(log)) && Terminals(log) == Terminals(old(log))
      ensures Said(log) == Said(old(log)) + SaidBy(says)
    {
      hide Consistent, Dones, AddedItems, Terminals, Accept, Replay, Said, SaidBy;
      e := Event(sequenceNumber, outputIndex, item, says);
      sequenceNumber := sequenceNumber + 1;
      Note(e);
    }

    method TellAdded(header: Body) returns (e: Event)
      requires Logged() && Accept(client, Event(sequenceNumber, outputIndex, currentItemID, Added(header))).Some?
      modifies `sequenceNumber, `log, `client
      ensures Logged() && log == old(log) + [e]
      ensures Some(client) == Accept(old(client), Event(old(sequenceNumber), outputIndex, currentItemID, Added(header)))
      ensures AddedItems(log) == AddedItems(old(log)) + [currentItemID] && Terminals(log) == Terminals(old(log))
      ensures Said(log) == Said(old(log)) + SaidBy(Added(header))
    {
      hide Consistent, Dones, AddedItems, Terminals, Accept, Replay, Said, SaidBy;
      e := Event(sequenceNumber, outputIndex, currentItemID, Added(header));
      sequenceNumber := sequenceNumber + 1;
      Note(e);
    }

    /** generateItemID */
    method GenerateItemID() returns (id: nat)
      modifies `minted
      ensures id == old(minted) && minted == id + 1
    {
      id := minted;
      minted := minted + 1;
    }

    /** The part of closeCurrentResponsesItem that forgets the item. */
    method Reset()
      modifies `currentItemType, `currentItemID, `currentCallID, `currentName, `currentContent, `currentArgs, `currentSummary,
        `textAccum, `contentIndex
      ensures Now() == NOTHING && contentIndex == 0
    {
      currentItemType, currentItemID, currentCallID, currentName := NoItem, None, "", "";
      currentContent, currentArgs, currentSummary, textAccum := [], "", "", "";
      contentIndex := 0;
    }

    method CurrentBody() returns (body: Body)
      ensures body == BodyOf(Now())
    {
      match currentItemType
      case MessageItem => body := MessageOut(currentContent);
      case CallItem => body := CallOut(currentCallID, currentName, if currentArgs == "" then "{}" else currentArgs);
      case _ => body := ReasoningOut(currentSummary);
    }

    /** Sends the done event of the open item and forgets the item. */
    method FinishItem() returns (e: Event)
      requires Logged() && client == Now() && currentItemType != NoItem
      modifies `currentItemType, `currentItemID, `currentCallID, `currentName, `currentContent, `currentArgs, `currentSummary,
        `textAccum, `outputs, `outputIndex, `contentIndex, `sequenceNumber, `log, `client
      ensures Logged() && client == Now() == NOTHING && log == old(log) + [e]
      ensures outputs == old(outputs) + [Output(old(Now()).item, BodyOf(old(Now())))]
      ensures AddedItems(log) == AddedItems(old(log)) && Terminals(log) == Terminals(old(log)) && Said(log) == Said(old(log))
    {
      hide Consistent, Dones, AddedItems, Terminals, Replay, Said;
      var body := CurrentBody();
      var item := Output(currentItemID, body);
      e := Event(sequenceNumber, outputIndex, currentItemID, Done(body));
      assert Accept(client, e) == Some(NOTHING);
      hide BodyOf, Accept;
      Note(e);
      outputs := outputs + [item];
      Reset();
      outputIndex := outputIndex + 1;
      sequenceNumber := sequenceNumber + 1;
    }

    /** closeCurrentResponsesItem */
    method CloseCurrent() returns (events: seq<Event>)
      requires Valid()
      modifies `currentItemType, `currentItemID, `currentCallID, `currentName, `currentContent, `currentArgs, `currentSummary,
        `textAccum, `outputs, `outputIndex, `contentIndex, `sequenceNumber, `log, `client
      ensures Valid() && AsView() == Closed(old(AsView()))
      ensures log == old(log) + events && Terminals(log) == Terminals(old(log)) && Said(log) == Said(old(log))
    {
      hide Logged, Consistent, Dones, AddedItems, Terminals, BodyOf, Head, Said;
      events := [];
      ghost var v := AsView();
      assert v.now == Now() && Now().kind == currentItemType;
      hide Now;
      if currentItemType != NoItem {
        var e := FinishItem();
        events := [e];
      }
    }

    /** The part of anthToResHandleMessageStart that reads the message. */
    method ReadMessage(message: Option<(string, string, Tokens)>)
      modifies `responseID, `model, `inputTokens, `cacheReadInputTokens, `cacheCreationInputTokens
      ensures Head() == OnMessage(old(Head()), message).(created := createdSent)
    {
      if message.Some? {
        var (id, name, usage) := message.value;
        responseID := id;
        if model == "" {
          model := name;
        }
        if usage.input > 0 {
          inputTokens := usage.input;
        }
        if usage.cacheRead > 0 {
          cacheReadInputTokens := usage.cacheRead;
        }
        if usage.cacheCreation > 0 {
          cacheCreationInputTokens := usage.cacheCreation;
        }
      }
    }

    /** anthToResHandleMessageStart */
    method HandleMessageStart(message: Option<(string, string, Tokens)>) returns (events: seq<Event>)
      requires Valid() && (!createdSent ==> responseID == "" && model == "")
      modifies `responseID, `model, `inputTokens, `cacheReadInputTokens, `cacheCreationInputTokens, `createdSent,
        `sequenceNumber, `log, `client
      ensures Valid() && AsView() == Step(old(AsView()), MessageStart(message))
      ensures log == old(log) + events && createdSent
      ensures Said(log) == Said(old(log)) + (if old(createdSent) then []
                                             else if message.None? then [Begins("", "")]
                                             else [Begins(message.value.0, message.value.1)])
    {
      hide Consistent, Dones, AddedItems, Terminals, Now, OnMessage, Replay, Said;
      if !createdSent {
        GreetingTells(Head(), message);
      }
      ReadMessage(message);
      CreatedBy(old(Head()), message);
      events := [];
      if createdSent {
        return;
      }
      createdSent := true;
      var e := Tell(None, Created(responseID, model));
      events := [e];
    }

    method StartItem(kind: ItemType)
      modifies `minted, `currentItemID, `currentItemType
      ensures Now() == old(Now()).(kind := kind, item := Some(old(minted))) && minted == old(minted) + 1
    {
      var id := GenerateItemID();
      currentItemID, currentItemType := Some(id), kind;
    }

    /** Draws an item id and announces the item. */
    method OpenItem(kind: ItemType, header: Body) returns (events: seq<Event>)
      requires Valid()
      requires (kind == ReasoningItem && header == ReasoningOut("")) || (kind == MessageItem && header == MessageOut([]))
      modifies `minted, `currentItemID, `currentItemType, `sequenceNumber, `log, `client
      ensures Valid() && AsView() == Opened(old(AsView()), kind) && log == old(log) + events
      ensures Said(log) == Said(old(log)) + SaidBy(Added(header))
    {
      hide Consistent, Dones, AddedItems, Terminals, Head, Replay, Said, SaidBy;
      StartItem(kind);
      assert currentItemID == Now().item;
      var e := TellAdded(header);
      events := [e];
    }

    method OpenText() returns (events: seq<Event>)
      requires Valid()
      modifies `minted, `currentItemID, `currentItemType, `textAccum, `sequenceNumber, `log, `client
      ensures Valid() && AsView() == OnOpening(old(AsView()), TextOpens) && log == old(log) + events
      ensures Said(log) == Said(old(log)) + [Part]
    {
      hide Consistent, Dones, AddedItems, Terminals, Head, Replay, Said;
      events := [];
      if currentItemType != MessageItem {
        events := OpenItem(MessageItem, MessageOut([]));
      }
      var p := Tell(currentItemID, PartAdded);
      events := events + [p];
      textAccum := "";
    }

    method StartCall(id: string, name: string)
      modifies `minted, `currentItemID, `currentItemType, `currentCallID, `currentName
      ensures Now() == old(Now()).(kind := CallItem, item := Some(old(minted)), callId := id, name := name)
      ensures minted == old(minted) + 1 && currentItemID == Some(old(minted))
    {
      StartItem(CallItem);
      currentCallID, currentName := id, name;
    }

    /** The item of a call, once nothing else is open. */
    method OpenCall(id: string, name: string) returns (events: seq<Event>)
      requires Valid() && currentItemType == NoItem
      modifies `minted, `currentItemID, `currentItemType, `currentCallID, `currentName, `sequenceNumber, `log, `client
      ensures Valid() && log == old(log) + events
      ensures var w := Opened(old(AsView()), CallItem); AsView() == w.(now := w.now.(callId := id, name := name))
      ensures Said(log) == Said(old(log)) + [CallMade(id, name)]
    {
      hide Consistent, Dones, AddedItems, Terminals, Head, Replay, Said;
      CallOpens(client, sequenceNumber, outputIndex, minted, id, name);
      hide Accept;
      StartCall(id, name);
      hide Now;
      var e := TellAdded(CallOut(id, name, ""));
      events := [e];
    }

    method OpenTool(id: string, name: string) returns (events: seq<Event>)
      requires Valid()
      modifies `currentItemType, `currentItemID, `currentCallID, `currentName, `currentContent, `currentArgs, `currentSummary,
        `textAccum, `outputs, `outputIndex, `contentIndex, `sequenceNumber, `log, `client, `minted
      ensures Valid() && AsView() == OnOpening(old(AsView()), ToolOpens(id, name)) && log == old(log) + events
      ensures Said(log) == Said(old(log)) + [CallMade(id, name)]
    {
      hide Consistent, Dones, AddedItems, Terminals, Head, Logged, Said, BodyOf;
      var closing := CloseCurrent();
      var opening := OpenCall(id, name);
      events := closing + opening;
    }

    /** anthToResHandleContentBlockStart */
    method HandleBlockStart(block: Option<Opening>) returns (events: seq<Event>)
      requires Valid()
      modifies `currentItemType, `currentItemID, `currentCallID, `currentName, `currentContent, `currentArgs, `currentSummary,
        `textAccum, `outputs, `outputIndex, `contentIndex, `sequenceNumber, `log, `client, `minted
      ensures Valid() && AsView() == Step(old(AsView()), BlockStart(block))
      ensures log == old(log) + events
      ensures Said(log) == Said(old(log)) + MeantBy([], BlockStart(block))
    {
      hide Closed, Consistent, Dones, AddedItems, Terminals, Head, Now, Logged, Final, Said;
      events := [];
      if block.Some? {
        match block.value
        case ThinkingOpens => events := OpenItem(ReasoningItem, ReasoningOut(""));
        case TextOpens => events := OpenText();
        case ToolOpens(id, name) => events := OpenTool(id, name);
        case OtherOpens =>
      }
    }

    method Accumulate(p: Piece)
      modifies `textAccum, `currentSummary, `currentArgs
      ensures Now() == WithPiece(old(Now()), p)
    {
      match p
      case TextPiece(text) => textAccum := textAccum + text;
      case ThinkingPiece(text) => currentSummary := currentSummary + text;
      case JsonPiece(text) => currentArgs := currentArgs + text;
      case OtherPiece =>
    }

    /** anthToResHandleContentBlockDelta; an empty piece says nothing. */
    method HandleBlockDelta(delta: Option<Piece>) returns (events: seq<Event>)
      requires Valid()
      modifies `textAccum, `currentSummary, `currentArgs, `sequenceNumber, `log, `client
      ensures Valid() && AsView() == Step(old(AsView()), BlockDelta(delta))
      ensures log == old(log) + events
      ensures Said(log) == Said(old(log)) + MeantBy([], BlockDelta(delta))
    {
      hide Consistent, Dones, AddedItems, Terminals, Head, Replay, Said;
      events := [];
      if delta.None? || delta.value.OtherPiece? {
        return;
      }
      NothingAdded(Now(), delta.value);
      if delta.value.text == "" {
        return;
      }
      var says := match delta.value
        case TextPiece(text) => TextDelta(text)
        case ThinkingPiece(text) => SummaryDelta(text)
        case JsonPiece(text) => ArgumentsDelta(text, currentCallID, currentName)
        case OtherPiece => SummaryDelta("");
      var e := Tell(currentItemID, says);
      Accumulate(delta.value);
      events := [e];
    }

    method FinishPart() returns (text: string)
      requires currentItemType == MessageItem
      modifies `textAccum, `currentContent
      ensures text == old(Now()).text && Now() == old(Now()).(content := old(Now()).content + [text], text := "")
    {
      text := textAccum;
      textAccum := "";
      currentContent := currentContent + [text];
    }

    /** The end of a text block. */
    method StopText() returns (events: seq<Event>)
      requires Valid() && currentItemType == MessageItem
      modifies `currentContent, `textAccum, `sequenceNumber, `log, `client
      ensures Valid() && AsView() == OnStop(old(AsView())) && log == old(log) + events && Said(log) == Said(old(log))
    {
      hide Consistent, Dones, AddedItems, Terminals, Head, Replay, Said;
      var text := FinishPart();
      var d := Tell(currentItemID, TextDone(text));
      var p := Tell(currentItemID, PartDone(text));
      events := [d, p];
    }

    /** The end of a thinking or tool block. */
    method StopItem(says: Says) returns (events: seq<Event>)
      requires Valid()
      requires (currentItemType == ReasoningItem && says == SummaryDone) ||
               (currentItemType == CallItem && says == ArgumentsDone(currentCallID, currentName))
      modifies `currentItemType, `currentItemID, `currentCallID, `currentName, `currentContent, `currentArgs, `currentSummary,
        `textAccum, `outputs, `outputIndex, `contentIndex, `sequenceNumber, `log, `client
      ensures Valid() && AsView() == Closed(old(AsView())) && log == old(log) + events && Said(log) == Said(old(log))
    {
      hide Consistent, Dones, AddedItems, Terminals, Head, Replay, Said, BodyOf;
      var d := Tell(currentItemID, says);
      events := CloseCurrent();
      events := [d] + events;
    }

    /** anthToResHandleContentBlockStop */
    method HandleBlockStop() returns (events: seq<Event>)
      requires Valid()
      modifies `currentItemType, `currentItemID, `currentCallID, `currentName, `currentContent, `currentArgs, `currentSummary,
        `textAccum, `outputs, `outputIndex, `contentIndex, `sequenceNumber, `log, `client
      ensures Valid() && AsView() == Step(old(AsView()), BlockStop)
      ensures log == old(log) + events && Said(log) == Said(old(log))
    {
      hide Closed, Consistent, Dones, AddedItems, Terminals, Head, Logged, Said;
      events := [];
      assert Now().kind == currentItemType;
      hide Now;
      match currentItemType
      case ReasoningItem => events := StopItem(SummaryDone);
      case CallItem => events := StopItem(ArgumentsDone(currentCallID, currentName));
      case MessageItem => events := StopText();
      case NoItem =>
    }

    method ReadUsage(usage: Option<Tokens>, stop: string)
      modifies `inputTokens, `outputTokens, `cacheReadInputTokens, `cacheCreationInputTokens, `stopReason
      ensures Head() == OnUsage(old(Head()), usage, stop)
    {
      if usage.Some? {
        outputTokens := usage.value.output;
        if usage.value.input > 0 {
          inputTokens := usage.value.input;
        }
        if usage.value.cacheRead > 0 {
          cacheReadInputTokens := usage.value.cacheRead;
        }
        if usage.value.cacheCreation > 0 {
          cacheCreationInputTokens := usage.value.cacheCreation;
        }
      }
      if stop != "" {
        stopReason := stop;
      }
    }

    /** anthToResHandleMessageDelta */
    method HandleMessageDelta(usage: Option<Tokens>, stop: string)
      requires Valid()
      modifies `inputTokens, `outputTokens, `cacheReadInputTokens, `cacheCreationInputTokens, `stopReason
      ensures Valid() && AsView() == Step(old(AsView()), MessageDelta(usage, stop)) && log == old(log)
    {
      hide Consistent, Dones, AddedItems, Terminals, Now, Final, Logged, Head, OnUsage;
      ReadUsage(usage, stop);
    }

    /** makeResponsesCompletedEvent, up to sending it. */
    method FinalResponse() returns (response: Response)
      ensures response == FinalOf(Head(), outputs) && response.output == outputs
    {
      var totalInput := inputTokens + cacheReadInputTokens + cacheCreationInputTokens;
      var usage := Usage(totalInput, outputTokens, totalInput + outputTokens, cacheCreationInputTokens,
                         if cacheReadInputTokens > 0 then Some(cacheReadInputTokens) else None);
      var incomplete := stopReason == "max_tokens";
      response := Response(responseID, model, if incomplete then "incomplete" else "completed",
                           if incomplete then "max_output_tokens" else "", outputs, usage);
    }

    /** Closes what is open and sends the terminal event. */
    method End() returns (events: seq<Event>)
      requires Valid() && !completedSent
      modifies `currentItemType, `currentItemID, `currentCallID, `currentName, `currentContent, `currentArgs, `currentSummary,
        `textAccum, `outputs, `outputIndex, `contentIndex, `sequenceNumber, `log, `client, `completedSent
      ensures Valid() && completedSent && AsView() == Ended(old(AsView()))
      ensures log == old(log) + events && Said(log) == Said(old(log))
    {
      hide Closed, Consistent, Dones, AddedItems, Terminals, Head, FinalOf, Replay, Said, BodyOf;
      ghost var v := AsView();
      events := CloseCurrent();
      ClosedOpensNothing(v);
      assert client.kind.NoItem?;
      hide Now;
      var response := FinalResponse();
      var e := Event(sequenceNumber, 0, None, Terminal(response));
      Note(e);
      sequenceNumber := sequenceNumber + 1;
      completedSent := true;
      events := events + [e];
      assert Terminals(log) == [response];
    }

    /** One event, by its type. */
    method Handle(e: AnthropicEvent) returns (events: seq<Event>)
      requires Valid() && (!createdSent ==> responseID == "" && model == "")
      modifies `currentItemType, `currentItemID, `currentCallID, `currentName, `currentContent, `currentArgs, `currentSummary,
        `textAccum, `outputs, `outputIndex, `contentIndex, `sequenceNumber, `log, `client, `minted, `completedSent,
        `responseID, `model, `inputTokens, `outputTokens, `cacheReadInputTokens, `cacheCreationInputTokens, `createdSent,
        `stopReason
      ensures Valid() && AsView() == Step(old(AsView()), e) && log == old(log) + events
      ensures Said(log) == Said(old(log)) + (if e.MessageStart? && old(createdSent) then [] else MeantBy([], e))
      ensures createdSent == (old(createdSent) || e.MessageStart?)
      ensures !e.MessageStart? ==> responseID == old(responseID) && model == old(model)
    {
      hide Consistent, Dones, AddedItems, Ended, OnOpening, WithPiece, OnStop, OnMessage, OnUsage, Now, Head, Logged, Said;
      events := [];
      match e
      case MessageStart(m) => events := HandleMessageStart(m);
      case BlockStart(b) => events := HandleBlockStart(b);
      case BlockDelta(d) => events := HandleBlockDelta(d);
      case BlockStop => events := HandleBlockStop();
      case MessageDelta(usage, stop) => HandleMessageDelta(usage, stop);
      case MessageStop =>
        if !completedSent {
          events := End();
        }
      case OtherEvent =>
    }

    /** AnthropicEventToResponsesEvents */
    method Convert(e: AnthropicEvent) returns (events: seq<Event>)
      requires Valid() && OnRecord()
      modifies this
      ensures Valid() && AsView() == Step(old(AsView()), e)
      ensures OnRecord() && received == old(received) + [e]
      ensures log == old(log) + events
    {
      hide Logged, Said, Meant, MeantBy, Greeted, Step, Now, Head, Final;
      MeantGrows(received, e);
      MeantAnywhere(received, e);
      events := Handle(e);
      received := received + [e];
    }

    /** FinalizeAnthropicResponsesStream */
    method Finalize() returns (events: seq<Event>)
      requires Valid() && OnRecord()
      modifies `currentItemType, `currentItemID, `currentCallID, `currentName, `currentContent, `currentArgs, `currentSummary,
        `textAccum, `outputs, `outputIndex, `contentIndex, `sequenceNumber, `log, `client, `completedSent
      ensures Valid() && OnRecord() && AsView() == Finished(old(AsView()))
      ensures log == old(log) + events
    {
      hide Consistent, Dones, AddedItems, Ended, Now, Said, Meant, Logged;
      events := [];
      if !createdSent || completedSent {
        return;
      }
      events := End();
    }
  }

  lemma CallOpens(c: Current, seqNo: nat, index: nat, item: nat, id: string, name: string)
    requires c.kind.NoItem?
    ensures var e := Event(seqNo, index, Some(item), Added(CallOut(id, name, "")));
            Accept(c, e) == Some(c.(kind := CallItem, item := Some(item), callId := id, name := name))
  {
  }

  lemma ClosedOpensNothing(v: View)
    ensures Closed(v).now.kind.NoItem?
  {
  }

  lemma GreetingTells(h: Header, m: Option<(string, string, Tokens)>)
    requires h.model == "" && (m.None? ==> h.responseId == "")
    ensures var g := OnMessage(h, m);
            g.responseId == (if m.Some? then m.value.0 else "") && g.model == if m.Some? then m.value.1 else ""
  {
  }

  lemma CreatedBy(h: Header, m: Option<(string, string, Tokens)>)
    ensures OnMessage(h, m).created
  {
  }

  lemma NothingAdded(c: Current, p: Piece)
    requires !p.OtherPiece?
    ensures p.text == "" ==> WithPiece(c, p) == c
  {
    assert c.text + "" == c.text && c.summary + "" == c.summary && c.args + "" == c.args;
  }
}
