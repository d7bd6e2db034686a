/** Building Chat Completions messages from the input items of a Responses request
    (buildChatMessagesFromItems). */
module ResponsesInput {
  import opened Common
  import opened ChatChunks
  import opened ChatMessages
  import N = Normalize
  import M = ToolOutputMedia
  import T = NamespaceTools

  /** The parts of a message item: text under any of its type names, an image with
      its address, or a type the bridge skips. */
  datatype ItemPart = TextOf(text: string) | ImageOf(url: string) | OtherPart(text: string)

  datatype ItemContent =
    | FallbackText(text: string)      // no content; the item's own text stands in
    | StringContent(text: string)
    | PartsContent(parts: seq<ItemPart>)
    | SinglePart(part: ItemPart)

  datatype Item =
    | MessageItem(role: string, content: ItemContent)
    | ReasoningItem(text: string)
    | FunctionCall(callId: string, namespace: string, name: string, arguments: string)
    | SearchCall(callId: string, arguments: string)
    | CustomCall(callId: string, name: string, input: string)
    | CallOutput(callId: string, output: Option<M.Json>, raw: string)
    | TextItem(text: string)          // input_text, text, or a bare string
    | ImageItem(url: string)
    | UnknownItem                     // a type without Chat equivalent
    | MalformedItem

  /** What lies outside the bridge: JSON text, the hash behind flat names, and the
      wrapping of a custom tool's input. */
  datatype Wire = Wire(
    decode: string -> Option<M.Json>,
    encode: M.Json -> string,
    hash: string -> T.Digest,
    wrapInput: string -> string)

  function Lower(c: char): char {
    if 'A' <= c <= 'Z' then c + 32 as char else c
  }

  function LowerAll(s: string): string {
    seq(|s|, i requires 0 <= i < |s| => Lower(s[i]))
  }

  /** chatCompletionsBridgeRole */
  function BridgeRole(role: string): string {
    if IsBlank(role) then USER else if LowerAll(Trimmed(role)) == "developer" then SYSTEM else role
  }

  lemma RoleBridges(role: string, lower: string)
    requires role != "" && !IsSpace(role[0]) && !IsSpace(Last(role)) && LowerAll(role) == lower
    ensures BridgeRole(role) == if lower == "developer" then SYSTEM else role
  {
  }

  lemma RolesBridge()
    ensures BridgeRole(USER) == USER && BridgeRole(ASSISTANT) == ASSISTANT && BridgeRole("developer") == SYSTEM
  {
    hide BridgeRole;
    assert LowerAll(ASSISTANT)[0] == 'a' && LowerAll(USER)[0] == 'u';
    assert LowerAll("developer") == "developer";
    RoleBridges(USER, LowerAll(USER));
    RoleBridges(ASSISTANT, LowerAll(ASSISTANT));
    RoleBridges("developer", "developer");
  }

  function PartTexts(ps: seq<ItemPart>): seq<string> {
    if ps == [] then []
    else PartTexts(Init(ps)) + (if Last(ps).TextOf? && Last(ps).text != "" then [Last(ps).text] else [])
  }

  function ChatParts(ps: seq<ItemPart>): seq<Part> {
    if ps == [] then []
    else
      ChatParts(Init(ps)) +
      (match Last(ps)
       case TextOf(text) => if text == "" then [] else [TextPart(text)]
       case ImageOf(url) => if url == "" then [] else [ImagePart(url)]
       case OtherPart(_) => [])
  }

  predicate HasImage(ps: seq<Part>) {
    exists i | 0 <= i < |ps| :: ps[i].ImagePart?
  }

  /** responsesContentPartsToChatContent: text only, or not from the user, is folded
      into one string. */
  function PartsToChat(ps: seq<ItemPart>, role: string): Content {
    if HasImage(ChatParts(ps)) && role == USER then Parts(ChatParts(ps)) else Str(Join(PartTexts(ps), "\n\n"))
  }

  /** responsesContentToChatContent */
  function ContentToChat(c: ItemContent, role: string): Content {
    match c
    case FallbackText(text) => Str(text)
    case StringContent(text) => Str(text)
    case PartsContent(ps) => PartsToChat(ps, role)
    case SinglePart(p) => if p.ImageOf? then Parts([ImagePart(p.url)]) else Str(p.text)
  }

  /** The builder's variables: messages so far, reasoning that waits for its
      message, and media by call id. */
  datatype Built = Built(messages: seq<Message>, pending: string, media: N.Media)

  /** appendAssistantToolCall */
  function WithCall(ms: seq<Message>, call: ToolCall, pending: string): seq<Message> {
    if ms != [] && Last(ms).role == ASSISTANT then
      var m := Last(ms);
      Init(ms) + [m.(calls := m.calls + [call], reasoning := if m.reasoning == "" then pending else m.reasoning)]
    else ms + [Message(ASSISTANT, Absent, pending, [call], "")]
  }

  function NonBlank(arguments: string): string {
    if IsBlank(arguments) then "{}" else arguments
  }

  /** The tool call a *_call item stands for. */
  function CallOf(w: Wire, i: Item): Option<ToolCall> {
    match i
    case FunctionCall(id, ns, name, arguments) =>
      Some(ToolCall(id, if ns != "" then T.FlatName(w.hash, ns, name) else name, NonBlank(arguments)))
    case SearchCall(id, arguments) =>
      Some(ToolCall(id, "tool_search", if arguments == "" || arguments == "null" then "{}" else arguments))
    case CustomCall(id, name, input) => Some(ToolCall(id, name, w.wrapInput(input)))
    case _ => None
  }

  function ImageParts(urls: seq<string>): seq<Part> {
    seq(|urls|, i requires 0 <= i < |urls| => ImagePart(urls[i]))
  }

  /** The text of a tool output that is kept as it is: a string, or the JSON text it
      came as. */
  function OutputText(output: Option<M.Json>, raw: string): string {
    match output
    case None => ""
    case Some(v) => if v.Str? then v.s else raw
  }

  function AfterOutput(w: Wire, b: Built, callId: string, output: Option<M.Json>, raw: string): Built {
    var found := M.Extracted(w.decode, w.encode, output);
    var text := if found.Some? then found.value.0 else OutputText(output, raw);
    var media := b.media - {callId};
    Built(b.messages + [Message(TOOL, Str(text), "", [], callId)], "",
          if found.Some? && callId != "" then media[callId := ImageParts(found.value.1)] else media)
  }

  function AfterItem(w: Wire, b: Built, i: Item): Built {
    match i
    case ReasoningItem(text) => if text != "" then b.(pending := text) else b
    case FunctionCall(_, _, _, _) => Built(WithCall(b.messages, CallOf(w, i).value, b.pending), "", b.media)
    case SearchCall(_, _) => Built(WithCall(b.messages, CallOf(w, i).value, b.pending), "", b.media)
    case CustomCall(_, _, _) => Built(WithCall(b.messages, CallOf(w, i).value, b.pending), "", b.media)
    case CallOutput(callId, output, raw) => AfterOutput(w, b, callId, output, raw)
    case TextItem(text) => Built(b.messages + [Plain(USER, text)], "", b.media)
    case ImageItem(url) => Built(b.messages + [Message(USER, Parts([ImagePart(url)]), "", [], "")], "", b.media)
    case MessageItem(role, content) =>
      var r := BridgeRole(role);
      Built(b.messages + [Message(r, ContentToChat(content, r), "", [], "")],
            if r == ASSISTANT then b.pending else "", b.media)
    case UnknownItem => b.(pending := "")
    case MalformedItem => b
  }

  function AfterItems(w: Wire, b: Built, items: seq<Item>): Built {
    if items == [] then b else AfterItem(w, AfterItems(w, b, Init(items)), Last(items))
  }

  function Started(start: seq<Message>): Built {
    Built(start, "", map[])
  }

  /** buildChatMessagesFromItems */
  method BuildMessages(w: Wire, start: seq<Message>, items: seq<Item>) returns (r: Result<Built>)
    ensures r.Err? <==> MalformedItem in items
    ensures r.Ok? ==> r.value.messages == AfterItems(w, Started(start), items).messages
    ensures r.Ok? ==> r.value.media == AfterItems(w, Started(start), items).media
  {
    var messages, pending := start, "";
    var media: N.Media := map[];
    for n := 0 to |items|
      invariant MalformedItem !in items[..n]
      invariant Built(messages, pending, media) == AfterItems(w, Started(start), items[..n])
    {
      var item := items[n];
      assert Init(items[..n + 1]) == items[..n] && Last(items[..n + 1]) == item;
      assert items[..n + 1] == items[..n] + [item];
      match item
      case MalformedItem =>
        return Err;
      case ReasoningItem(text) =>
        if text != "" {
          pending := text;
        }
      case FunctionCall(_, _, _, _) =>
        messages := WithCall(messages, CallOf(w, item).value, pending);
        pending := "";
      case SearchCall(_, _) =>
        messages := WithCall(messages, CallOf(w, item).value, pending);
        pending := "";
      case CustomCall(_, _, _) =>
        messages := WithCall(messages, CallOf(w, item).value, pending);
        pending := "";
      case CallOutput(callId, output, raw) =>
        media := media - {callId};
        var found := M.Extracted(w.decode, w.encode, output);
        var text := OutputText(output, raw);
        if found.Some? {
          text := found.value.0;
          if callId != "" {
            media := media[callId := ImageParts(found.value.1)];
          }
        }
        messages := messages + [Message(TOOL, Str(text), "", [], callId)];
        pending := "";
      case TextItem(text) =>
        messages := messages + [Plain(USER, text)];
        pending := "";
      case ImageItem(url) =>
        messages := messages + [Message(USER, Parts([ImagePart(url)]), "", [], "")];
        pending := "";
      case UnknownItem =>
        pending := "";
      case MessageItem(rawRole, content) =>
        var role := BridgeRole(rawRole);
        messages := messages + [Message(role, ContentToChat(content, role), "", [], "")];
        if role != ASSISTANT {
          pending := "";
        }
    }
    assert items[..|items|] == items;
    r := Ok(Built(messages, pending, media));
  }

  lemma {:induction false} AfterAppend(w: Wire, b: Built, x: seq<Item>, y: seq<Item>)
    ensures AfterItems(w, b, x + y) == AfterItems(w, AfterItems(w, b, x), y)
  {
    hide AfterItem;
    if y == [] {
      assert x + y == x;
    } else {
      assert Init(x + y) == x + Init(y);
      AfterAppend(w, b, x, Init(y));
    }
  }

  // ----- What the builder keeps -----

  function CallsOf(w: Wire, items: seq<Item>): seq<ToolCall> {
    if items == [] then []
    else CallsOf(w, Init(items)) + (if CallOf(w, Last(items)).Some? then [CallOf(w, Last(items)).value] else [])
  }

  lemma WithCallAdds(ms: seq<Message>, call: ToolCall, pending: string)
    ensures N.CallsIn(WithCall(ms, call, pending)) == N.CallsIn(ms) + [call]
  {
    if ms != [] && Last(ms).role == ASSISTANT {
      var m := Last(ms);
      InitOfSnoc(Init(ms), m.(calls := m.calls + [call], reasoning := if m.reasoning == "" then pending else m.reasoning));
    } else {
      InitOfSnoc(ms, Message(ASSISTANT, Absent, pending, [call], ""));
    }
  }

  lemma MessageAdds(ms: seq<Message>, m: Message)
    requires m.calls == []
    ensures N.CallsIn(ms + [m]) == N.CallsIn(ms)
  {
    InitOfSnoc(ms, m);
  }

  lemma ItemAdds(w: Wire, b: Built, i: Item)
    ensures N.CallsIn(AfterItem(w, b, i).messages)
            == N.CallsIn(b.messages) + (if CallOf(w, i).Some? then [CallOf(w, i).value] else [])
  {
    hide M.Extracted, BridgeRole, ContentToChat, N.CallsIn, WithCall;
    var ms := AfterItem(w, b, i).messages;
    if CallOf(w, i).Some? {
      WithCallAdds(b.messages, CallOf(w, i).value, b.pending);
    } else if ms != b.messages {
      MessageAdds(b.messages, Last(ms));
      assert ms == b.messages + [Last(ms)];
    }
  }

  /** Every tool call of the history is on an assistant message, once and in order. */
  lemma {:induction false} CallsBuilt(w: Wire, b: Built, items: seq<Item>)
    ensures N.CallsIn(AfterItems(w, b, items).messages) == N.CallsIn(b.messages) + CallsOf(w, items)
  {
    if items != [] {
      hide AfterItem, CallOf, N.CallsIn;
      CallsBuilt(w, b, Init(items));
      ItemAdds(w, AfterItems(w, b, Init(items)), Last(items));
    }
  }

  /** Of the calls of a history, exactly those with an id and an output reach the
      upstream, in order. */
  lemma AnsweredCallsSent(w: Wire, b: Built, items: seq<Item>)
    requires N.CallsIn(b.messages) == []
    ensures var built := AfterItems(w, b, items);
            N.CallsIn(N.Normalized(built.messages, built.media)) == N.Answered(built.messages, CallsOf(w, items))
  {
    hide AfterItems;
    CallsBuilt(w, b, items);
    assert [] + CallsOf(w, items) == CallsOf(w, items);
    N.NormalizedKeeps(AfterItems(w, b, items).messages, AfterItems(w, b, items).media);
  }

  /** Reasoning is passed back on the message of the call it led to. */
  lemma ReasoningReachesItsCall(w: Wire, b: Built, items: seq<Item>, text: string, call: Item)
    requires text != "" && CallOf(w, call).Some?
    ensures var before := AfterItems(w, b, items).messages;
            var ms := AfterItems(w, b, items + [ReasoningItem(text)] + [call]).messages;
            ms != [] && Last(ms).role == ASSISTANT && CallOf(w, call).value in Last(ms).calls &&
            Last(ms).reasoning
            == if before != [] && Last(before).role == ASSISTANT && Last(before).reasoning != "" then Last(before).reasoning
               else text
  {
    InitOfSnoc(items, ReasoningItem(text));
    InitOfSnoc(items + [ReasoningItem(text)], call);
    hide M.Extracted, ContentToChat, BridgeRole;
    assert AfterItems(w, b, items + [ReasoningItem(text)]).pending == text;
  }

  /** An assistant text in between does not lose it. */
  lemma ReasoningOutlivesText(w: Wire, b: Built, items: seq<Item>, text: string, said: ItemContent, call: Item)
    requires text != "" && CallOf(w, call).Some?
    ensures var ms := AfterItems(w, b, items + [ReasoningItem(text)] + [MessageItem(ASSISTANT, said)] + [call]).messages;
            ms != [] && Last(ms).role == ASSISTANT && Last(ms).reasoning == text && Last(ms).calls == [CallOf(w, call).value] &&
            Last(ms).content == ContentToChat(said, ASSISTANT)
  {
    var a := items + [ReasoningItem(text)];
    RolesBridge();
    InitOfSnoc(items, ReasoningItem(text));
    InitOfSnoc(a, MessageItem(ASSISTANT, said));
    InitOfSnoc(a + [MessageItem(ASSISTANT, said)], call);
    hide M.Extracted, ContentToChat, BridgeRole;
    assert AfterItems(w, b, a).pending == text;
    var d := AfterItems(w, b, a + [MessageItem(ASSISTANT, said)]);
    assert d.pending == text && Last(d.messages) == Message(ASSISTANT, ContentToChat(said, ASSISTANT), "", [], "");
    assert [] + [CallOf(w, call).value] == [CallOf(w, call).value];
  }

  /** What ends the span of a reasoning: everything but an assistant message. */
  predicate EndsThinking(i: Item) {
    i.TextItem? || i.ImageItem? || i.CallOutput? || i.UnknownItem? || (i.MessageItem? && BridgeRole(i.role) != ASSISTANT)
  }

  /** After that a call no longer gets the reasoning. */
  lemma ReasoningEnds(w: Wire, b: Built, items: seq<Item>, text: string, between: Item, call: Item)
    requires CallOf(w, call).Some? && EndsThinking(between)
    ensures var before := AfterItems(w, b, items).messages;
            var ms := AfterItems(w, b, items + [ReasoningItem(text)] + [between] + [call]).messages;
            ms != [] && Last(ms).role == ASSISTANT &&
            Last(ms).reasoning
            == if between.UnknownItem? && before != [] && Last(before).role == ASSISTANT then Last(before).reasoning else ""
  {
    var a := items + [ReasoningItem(text)];
    InitOfSnoc(items, ReasoningItem(text));
    InitOfSnoc(a, between);
    InitOfSnoc(a + [between], call);
    assert USER[0] != ASSISTANT[0] && TOOL[0] != ASSISTANT[0];
    hide M.Extracted, ContentToChat, BridgeRole, OutputText;
    var c := AfterItems(w, b, a);
    assert c.messages == AfterItems(w, b, items).messages;
    var d := AfterItems(w, b, a + [between]);
    assert d.pending == "" && (between.UnknownItem? ==> d.messages == c.messages);
    assert !between.UnknownItem? ==> d.messages != [] && Last(d.messages).role != ASSISTANT;
  }
}
