/** Anthropic Messages requests on their way to a Chat Completions upstream:
    directly, and through a Responses request. */
module RequestTranslation {
  import opened Common
  import opened ChatChunks
  import opened ChatMessages
  import opened ResponsesInput
  import N = Normalize
  import M = ToolOutputMedia
  import T = NamespaceTools

  // ----- Anthropic messages -----

  /** A JSON value as its text, which is never blank. */
  type JsonText = s: string | !IsBlank(s) witness (assert !IsSpace("0"[0]); "0")

  datatype ResultBody = NoBody | StringBody(s: string) | BlocksBody(blocks: seq<Block>) | MalformedBody

  datatype Block =
    | TextBlock(text: string)
    | ImageBlock(mediaType: string, data: string)
    | ToolUse(id: string, name: string, input: Option<JsonText>)
    | ToolResult(id: string, body: ResultBody)
    | Thinking(signature: string)
    | OtherBlock

  datatype TurnContent = StringTurn(text: string) | BlocksTurn(blocks: seq<Block>) | MalformedTurn

  datatype Turn = Turn(role: string, content: TurnContent)

  datatype SystemPrompt = NoSystem | StringSystem(text: string) | BlocksSystem(blocks: seq<Block>) | MalformedSystem

  const EMPTY_RESULT := "(empty)"
  const PARAGRAPH := "\n\n"
  const BILLING := "x-anthropic-billing-header: "

  /** anthropicImageToDataURI */
  function DataUri(b: Block): string
    requires b.ImageBlock?
  {
    if b.data == "" then ""
    else "data:" + (if b.mediaType == "" then "image/png" else b.mediaType) + ";base64," + b.data
  }

  function BlockTexts(bs: seq<Block>): seq<string> {
    if bs == [] then []
    else BlockTexts(Init(bs)) + (if Last(bs).TextBlock? && Last(bs).text != "" then [Last(bs).text] else [])
  }

  /** extractAnthropicTextFromBlocks */
  function JoinedText(bs: seq<Block>): string {
    Join(BlockTexts(bs), PARAGRAPH)
  }

  function ImageUris(bs: seq<Block>): seq<string> {
    if bs == [] then []
    else ImageUris(Init(bs)) + (if Last(bs).ImageBlock? && DataUri(Last(bs)) != "" then [DataUri(Last(bs))] else [])
  }

  /** convertToolResultOutput: the text, and the images that travel apart from it. */
  function ResultText(b: ResultBody): (t: string)
    ensures t != ""
  {
    match b
    case StringBody(s) => if s == "" then EMPTY_RESULT else s
    case BlocksBody(blocks) => if JoinedText(blocks) == "" then EMPTY_RESULT else JoinedText(blocks)
    case _ => EMPTY_RESULT
  }

  function ResultImages(b: ResultBody): seq<string> {
    if b.BlocksBody? then ImageUris(b.blocks) else []
  }

  function AllResultImages(bs: seq<Block>): seq<string> {
    if bs == [] then []
    else AllResultImages(Init(bs)) + (if Last(bs).ToolResult? then ResultImages(Last(bs).body) else [])
  }

  function ArgumentsOf(b: Block): (r: string)
    requires b.ToolUse?
    ensures !IsBlank(r)
  {
    if b.input.Some? then b.input.value else assert !IsSpace("{}"[0]); "{}"
  }

  /** parseAnthropicSystemContentParts */
  function SystemTexts(s: SystemPrompt): seq<string> {
    match s
    case StringSystem(text) => if text == "" || BILLING <= text then [] else [text]
    case BlocksSystem(bs) => KeptTexts(bs)
    case _ => []
  }

  function KeptTexts(bs: seq<Block>): seq<string> {
    if bs == [] then []
    else
      KeptTexts(Init(bs)) +
      (if Last(bs).TextBlock? && Last(bs).text != "" && !(BILLING <= Last(bs).text) then [Last(bs).text] else [])
  }

  // ----- The direct translation -----

  function ToolReplies(bs: seq<Block>): seq<Message> {
    if bs == [] then []
    else
      ToolReplies(Init(bs)) +
      (if Last(bs).ToolResult? then [Message(TOOL, Str(ResultText(Last(bs).body)), "", [], Last(bs).id)] else [])
  }

  function OwnParts(bs: seq<Block>): seq<Part> {
    if bs == [] then []
    else
      OwnParts(Init(bs)) +
      (match Last(bs)
       case TextBlock(text) => if text != "" then [TextPart(text)] else []
       case ImageBlock(_, _) => if DataUri(Last(bs)) != "" then [ImagePart(DataUri(Last(bs)))] else []
       case _ => [])
  }

  function UserMessage(bs: seq<Block>): seq<Message> {
    var parts := OwnParts(bs) + ImageParts(AllResultImages(bs));
    if HasImage(parts) then [Message(USER, Parts(parts), "", [], "")]
    else if BlockTexts(bs) != [] then [Plain(USER, JoinedText(bs))]
    else []
  }

  function ToolUses(bs: seq<Block>): seq<ToolCall> {
    if bs == [] then []
    else
      ToolUses(Init(bs)) +
      (if Last(bs).ToolUse? then [ToolCall(Last(bs).id, Last(bs).name, ArgumentsOf(Last(bs)))] else [])
  }

  function AssistantMessage(bs: seq<Block>): Message {
    Message(ASSISTANT, if JoinedText(bs) == "" then Absent else Str(JoinedText(bs)), "", ToolUses(bs), "")
  }

  /** anthropicMsgToChatMessages */
  function TurnMessages(t: Turn): seq<Message> {
    match t.content
    case StringTurn(s) => [Plain(if t.role == ASSISTANT then ASSISTANT else USER, s)]
    case BlocksTurn(bs) => if t.role == ASSISTANT then [AssistantMessage(bs)] else ToolReplies(bs) + UserMessage(bs)
    case MalformedTurn => []
  }

  function TurnsMessages(ts: seq<Turn>): seq<Message> {
    if ts == [] then [] else TurnsMessages(Init(ts)) + TurnMessages(Last(ts))
  }

  function SystemMessages(s: SystemPrompt): seq<Message> {
    var text := Join(SystemTexts(s), PARAGRAPH);
    if text != "" then [Plain(SYSTEM, text)] else []
  }

  predicate Malformed(s: SystemPrompt, ts: seq<Turn>) {
    s.MalformedSystem? || exists i | 0 <= i < |ts| :: ts[i].content.MalformedTurn?
  }

  /** anthropicToChatMessages */
  method DirectMessages(s: SystemPrompt, ts: seq<Turn>) returns (r: Result<seq<Message>>)
    ensures r == if Malformed(s, ts) then Err else Ok(N.Normalized(SystemMessages(s) + TurnsMessages(ts), map[]))
  {
    hide SystemMessages, TurnMessages, N.Normalized;
    if s.MalformedSystem? {
      return Err;
    }
    var messages := SystemMessages(s);
    for i := 0 to |ts|
      invariant forall j | 0 <= j < i :: !ts[j].content.MalformedTurn?
      invariant messages == SystemMessages(s) + TurnsMessages(ts[..i])
    {
      assert Init(ts[..i + 1]) == ts[..i] && Last(ts[..i + 1]) == ts[i];
      if ts[i].content.MalformedTurn? {
        return Err;
      }
      messages := messages + TurnMessages(ts[i]);
    }
    assert ts[..|ts|] == ts;
    var out := N.NormalizeMessages(messages, map[]);
    r := Ok(out);
  }

  // ----- The translation through a Responses request -----

  function OutputItems(bs: seq<Block>): seq<Item> {
    if bs == [] then []
    else
      OutputItems(Init(bs)) +
      (if Last(bs).ToolResult? then [CallOutput(Last(bs).id, Some(M.Str(ResultText(Last(bs).body))), "")] else [])
  }

  function OwnItemParts(bs: seq<Block>): seq<ItemPart> {
    if bs == [] then []
    else
      OwnItemParts(Init(bs)) +
      (match Last(bs)
       case TextBlock(text) => if text != "" then [TextOf(text)] else []
       case ImageBlock(_, _) => if DataUri(Last(bs)) != "" then [ImageOf(DataUri(Last(bs)))] else []
       case _ => [])
  }

  function ImageItemParts(urls: seq<string>): seq<ItemPart> {
    seq(|urls|, i requires 0 <= i < |urls| => ImageOf(urls[i]))
  }

  function UserItems(bs: seq<Block>): seq<Item> {
    var parts := OwnItemParts(bs) + ImageItemParts(AllResultImages(bs));
    OutputItems(bs) + (if parts != [] then [MessageItem(USER, PartsContent(parts))] else [])
  }

  /** Signed thinking is replayed as encrypted reasoning, which has no text. */
  function ReasoningItems(bs: seq<Block>): seq<Item> {
    if bs == [] then []
    else
      ReasoningItems(Init(bs)) +
      (if Last(bs).Thinking? && !IsBlank(Last(bs).signature) && !("gAAAA" <= Trimmed(Last(bs).signature))
       then [ReasoningItem("")] else [])
  }

  function CallItems(bs: seq<Block>): seq<Item> {
    if bs == [] then []
    else
      CallItems(Init(bs)) +
      (if Last(bs).ToolUse? then [FunctionCall(Last(bs).id, "", Last(bs).name, ArgumentsOf(Last(bs)))] else [])
  }

  function AssistantItems(bs: seq<Block>): seq<Item> {
    ReasoningItems(bs)
    + (if JoinedText(bs) != "" then [MessageItem(ASSISTANT, PartsContent([TextOf(JoinedText(bs))]))] else [])
    + CallItems(bs)
  }

  /** anthropicMsgToResponsesItems */
  function TurnItems(t: Turn): seq<Item> {
    match t.content
    case StringTurn(s) => [MessageItem(if t.role == ASSISTANT then ASSISTANT else USER, PartsContent([TextOf(s)]))]
    case BlocksTurn(bs) => if t.role == ASSISTANT then AssistantItems(bs) else UserItems(bs)
    case MalformedTurn => []
  }

  function TurnsItems(ts: seq<Turn>): seq<Item> {
    if ts == [] then [] else TurnsItems(Init(ts)) + TurnItems(Last(ts))
  }

  function TextParts(texts: seq<string>): seq<ItemPart> {
    seq(|texts|, i requires 0 <= i < |texts| => TextOf(texts[i]))
  }

  function SystemItems(s: SystemPrompt): seq<Item> {
    if SystemTexts(s) == [] then [] else [MessageItem("developer", PartsContent(TextParts(SystemTexts(s))))]
  }

  function InputItems(s: SystemPrompt, ts: seq<Turn>): seq<Item> {
    SystemItems(s) + TurnsItems(ts)
  }

  /** convertAnthropicToResponsesInput */
  method ConvertInput(s: SystemPrompt, ts: seq<Turn>) returns (r: Result<seq<Item>>)
    ensures r == if Malformed(s, ts) then Err else Ok(InputItems(s, ts))
  {
    hide SystemItems, TurnItems;
    if s.MalformedSystem? {
      return Err;
    }
    var out := SystemItems(s);
    for i := 0 to |ts|
      invariant forall j | 0 <= j < i :: !ts[j].content.MalformedTurn?
      invariant out == SystemItems(s) + TurnsItems(ts[..i])
    {
      assert Init(ts[..i + 1]) == ts[..i] && Last(ts[..i + 1]) == ts[i];
      if ts[i].content.MalformedTurn? {
        return Err;
      }
      out := out + TurnItems(ts[i]);
    }
    assert ts[..|ts|] == ts;
    r := Ok(out);
  }

  lemma {:induction false} CallItemsWellFormed(bs: seq<Block>)
    ensures MalformedItem !in CallItems(bs) && MalformedItem !in ReasoningItems(bs) && MalformedItem !in OutputItems(bs)
  {
    if bs != [] {
      CallItemsWellFormed(Init(bs));
    }
  }

  lemma {:induction false} ItemsWellFormed(ts: seq<Turn>)
    ensures MalformedItem !in TurnsItems(ts)
  {
    if ts != [] {
      ItemsWellFormed(Init(ts));
      if Last(ts).content.BlocksTurn? {
        CallItemsWellFormed(Last(ts).content.blocks);
      }
    }
  }

  /** AnthropicToResponses followed by responsesInputToChatMessages. */
  method ComposedMessages(w: Wire, s: SystemPrompt, ts: seq<Turn>) returns (r: Result<seq<Message>>)
    ensures r == if Malformed(s, ts) then Err
                 else var b := AfterItems(w, Started([]), InputItems(s, ts)); Ok(N.Normalized(b.messages, b.media))
  {
    var items := ConvertInput(s, ts);
    if items.Err? {
      return Err;
    }
    ItemsWellFormed(ts);
    var built := BuildMessages(w, [], items.value);
    var out := N.NormalizeMessages(built.value.messages, built.value.media);
    r := Ok(out);
  }

  // ----- Where the two agree -----

  predicate EndsWithAssistant(ms: seq<Message>) {
    ms != [] && Last(ms).role == ASSISTANT
  }

  /** Whether the last message that the turns so far give is the assistant's. */
  predicate AssistantSpokeLast(ts: seq<Turn>) {
    ts != [] &&
    match Last(ts).content
    case StringTurn(_) => Last(ts).role == ASSISTANT
    case BlocksTurn(bs) =>
      if Last(ts).role == ASSISTANT then JoinedText(bs) != "" || ToolUses(bs) != [] || AssistantSpokeLast(Init(ts))
      else ToolReplies(bs) + UserMessage(bs) == [] && AssistantSpokeLast(Init(ts))
    case MalformedTurn => AssistantSpokeLast(Init(ts))
  }

  /** A turn that gives the direct translation one message more: an assistant turn
      without text that makes no call, or whose calls directly follow another
      assistant message. */
  predicate Irregular(before: seq<Turn>, t: Turn) {
    t.role == ASSISTANT && t.content.BlocksTurn? && JoinedText(t.content.blocks) == "" &&
    (ToolUses(t.content.blocks) == [] || AssistantSpokeLast(before))
  }

  function IrregularCount(ts: seq<Turn>): nat {
    if ts == [] then 0 else IrregularCount(Init(ts)) + (if Irregular(Init(ts), Last(ts)) then 1 else 0)
  }

  /** The text that is sent for a tool output. */
  function Sent(w: Wire, text: string): string {
    var found := M.Extracted(w.decode, w.encode, Some(M.Str(text)));
    if found.Some? then found.value.0 else text
  }

  /** A message of the direct translation as the composed one sends it. */
  function AsSent(w: Wire, m: Message): Message {
    if m.role == TOOL && m.content.Str? then m.(content := Str(Sent(w, m.content.text))) else m
  }

  function AllSent(w: Wire, ms: seq<Message>): (r: seq<Message>)
    ensures |r| == |ms| && forall i | 0 <= i < |ms| :: r[i] == AsSent(w, ms[i])
  {
    seq(|ms|, i requires 0 <= i < |ms| => AsSent(w, ms[i]))
  }

  lemma AllSentAppend(w: Wire, a: seq<Message>, b: seq<Message>)
    ensures AllSent(w, a + b) == AllSent(w, a) + AllSent(w, b)
  {
  }

  // Parts

  function OneChatPart(p: ItemPart): seq<Part> {
    match p
    case TextOf(text) => if text == "" then [] else [TextPart(text)]
    case ImageOf(url) => if url == "" then [] else [ImagePart(url)]
    case OtherPart(_) => []
  }

  function OneText(p: ItemPart): seq<string> {
    if p.TextOf? && p.text != "" then [p.text] else []
  }

  lemma PartsSnoc(a: seq<ItemPart>, p: ItemPart)
    ensures ChatParts(a + [p]) == ChatParts(a) + OneChatPart(p) && PartTexts(a + [p]) == PartTexts(a) + OneText(p)
  {
    InitOfSnoc(a, p);
  }

  /** What one block adds to the parts. */
  lemma OwnPartsSnoc(bs: seq<Block>)
    requires bs != []
    ensures var before, b := Init(bs), Last(bs);
            if b.TextBlock? && b.text != "" then
              OwnItemParts(bs) == OwnItemParts(before) + [TextOf(b.text)] && OwnParts(bs) == OwnParts(before) + [TextPart(b.text)] &&
              BlockTexts(bs) == BlockTexts(before) + [b.text]
            else if b.ImageBlock? && DataUri(b) != "" then
              OwnItemParts(bs) == OwnItemParts(before) + [ImageOf(DataUri(b))] &&
              OwnParts(bs) == OwnParts(before) + [ImagePart(DataUri(b))] && BlockTexts(bs) == BlockTexts(before)
            else
              OwnItemParts(bs) == OwnItemParts(before) && OwnParts(bs) == OwnParts(before) && BlockTexts(bs) == BlockTexts(before)
  {
    hide DataUri;
  }

  lemma {:induction false} OwnPartsAgree(bs: seq<Block>)
    ensures ChatParts(OwnItemParts(bs)) == OwnParts(bs) && PartTexts(OwnItemParts(bs)) == BlockTexts(bs)
  {
    if bs != [] {
      OwnPartsSnoc(bs);
      hide ChatParts, PartTexts, DataUri, OwnItemParts, OwnParts, BlockTexts;
      OwnPartsAgree(Init(bs));
      var before, b := OwnItemParts(Init(bs)), Last(bs);
      if b.TextBlock? {
        PartsSnoc(before, TextOf(b.text));
      } else if b.ImageBlock? {
        PartsSnoc(before, ImageOf(DataUri(b)));
      }
    }
  }

  lemma {:induction false} ChatPartsAppend(a: seq<ItemPart>, b: seq<ItemPart>)
    ensures ChatParts(a + b) == ChatParts(a) + ChatParts(b) && PartTexts(a + b) == PartTexts(a) + PartTexts(b)
  {
    assert ChatParts([]) == [] && PartTexts([]) == [];
    hide ChatParts, PartTexts, OneChatPart, OneText;
    if b == [] {
      assert a + b == a;
    } else {
      var before, p := Init(b), Last(b);
      ChatPartsAppend(a, before);
      assert b == before + [p] && a + b == (a + before) + [p];
      PartsSnoc(a + before, p);
      PartsSnoc(before, p);
      Associates(ChatParts(a), ChatParts(before), OneChatPart(p));
      Associates(PartTexts(a), PartTexts(before), OneText(p));
    }
  }

  predicate NoneEmpty(ss: seq<string>) {
    forall i | 0 <= i < |ss| :: ss[i] != ""
  }

  lemma {:induction false} ImagesAgree(urls: seq<string>)
    requires NoneEmpty(urls)
    ensures ChatParts(ImageItemParts(urls)) == ImageParts(urls) && PartTexts(ImageItemParts(urls)) == []
  {
    if urls != [] {
      ImagesAgree(Init(urls));
      var before := ImageItemParts(Init(urls));
      assert ImageItemParts(urls) == before + [ImageOf(Last(urls))];
      PartsSnoc(before, ImageOf(Last(urls)));
      assert ImageParts(urls) == ImageParts(Init(urls)) + [ImagePart(Last(urls))];
    }
  }

  lemma {:induction false} ImagesNotEmpty(bs: seq<Block>)
    ensures NoneEmpty(ImageUris(bs)) && NoneEmpty(AllResultImages(bs))
    decreases bs
  {
    if bs != [] {
      ImagesNotEmpty(Init(bs));
      if Last(bs).ToolResult? && Last(bs).body.BlocksBody? {
        ImagesNotEmpty(Last(bs).body.blocks);
      }
    }
  }

  lemma {:induction false} TextPartsAgree(texts: seq<string>)
    requires NoneEmpty(texts)
    ensures PartTexts(TextParts(texts)) == texts && !HasImage(ChatParts(TextParts(texts)))
  {
    if texts != [] {
      TextPartsAgree(Init(texts));
      var before := TextParts(Init(texts));
      assert TextParts(texts) == before + [TextOf(Last(texts))];
      PartsSnoc(before, TextOf(Last(texts)));
    }
  }

  lemma {:induction false} TextsAreParts(bs: seq<Block>)
    ensures BlockTexts(bs) != [] ==> OwnItemParts(bs) != []
    ensures OwnItemParts(bs) != [] ==> BlockTexts(bs) != [] || HasImage(OwnParts(bs))
    ensures HasImage(OwnParts(bs)) ==> OwnItemParts(bs) != []
  {
    if bs != [] {
      TextsAreParts(Init(bs));
      var before := OwnParts(Init(bs));
      if HasImage(before) {
        var i :| 0 <= i < |before| && before[i].ImagePart?;
        assert OwnParts(bs)[i] == before[i];
      }
      if Last(bs).ImageBlock? && DataUri(Last(bs)) != "" {
        assert OwnParts(bs)[|before|].ImagePart?;
      }
    }
  }

  lemma ImagesHave(own: seq<Part>, urls: seq<string>)
    ensures HasImage(own + ImageParts(urls)) <==> HasImage(own) || urls != []
  {
    var chat := own + ImageParts(urls);
    if urls != [] {
      assert chat[|own|].ImagePart?;
    } else {
      assert chat == own;
    }
  }

  /** The user message is the same either way. */
  lemma UserMessagesAgree(bs: seq<Block>)
    ensures var parts := OwnItemParts(bs) + ImageItemParts(AllResultImages(bs));
            UserMessage(bs)
            == if parts == [] then [] else [Message(USER, ContentToChat(PartsContent(parts), USER), "", [], "")]
  {
    var urls := AllResultImages(bs);
    var parts := OwnItemParts(bs) + ImageItemParts(urls);
    OwnPartsAgree(bs);
    ImagesNotEmpty(bs);
    ImagesAgree(urls);
    ChatPartsAppend(OwnItemParts(bs), ImageItemParts(urls));
    TextsAreParts(bs);
    ImagesHave(OwnParts(bs), urls);
    assert BlockTexts(bs) + [] == BlockTexts(bs);
    hide HasImage, ChatParts, PartTexts, BlockTexts, OwnParts, OwnItemParts, AllResultImages, Join;
    assert parts == [] <==> OwnItemParts(bs) == [] && urls == [];
  }

  // Turns

  /** No tool result of these blocks holds an image in its text. */
  predicate MediaFree(w: Wire, bs: seq<Block>) {
    bs == [] ||
    (MediaFree(w, Init(bs)) &&
     (Last(bs).ToolResult? ==> M.Extracted(w.decode, w.encode, Some(M.Str(ResultText(Last(bs).body)))).None?))
  }

  lemma ItemsSnoc(w: Wire, b: Built, items: seq<Item>, i: Item)
    ensures AfterItems(w, b, items + [i]) == AfterItem(w, AfterItems(w, b, items), i)
  {
    InitOfSnoc(items, i);
  }

  lemma OutputBuilt(w: Wire, b: Built, id: string, text: string)
    ensures var a := AfterItem(w, b, CallOutput(id, Some(M.Str(text)), ""));
            && a.messages == b.messages + [AsSent(w, Message(TOOL, Str(text), "", [], id))] && a.pending == ""
            && (b.media == map[] && M.Extracted(w.decode, w.encode, Some(M.Str(text))).None? ==> a.media == map[])
  {
    hide M.Extracted;
  }

  lemma {:induction false} OutputsBuilt(w: Wire, b: Built, bs: seq<Block>)
    requires b.pending == ""
    ensures var a := AfterItems(w, b, OutputItems(bs));
            && a.messages == b.messages + AllSent(w, ToolReplies(bs)) && a.pending == ""
            && (b.media == map[] && MediaFree(w, bs) ==> a.media == map[])
  {
    hide AfterItem, M.Extracted, AsSent;
    if bs == [] {
      assert AllSent(w, []) == [];
    } else {
      OutputsBuilt(w, b, Init(bs));
      if Last(bs).ToolResult? {
        var text := ResultText(Last(bs).body);
        ItemsSnoc(w, b, OutputItems(Init(bs)), CallOutput(Last(bs).id, Some(M.Str(text)), ""));
        OutputBuilt(w, AfterItems(w, b, OutputItems(Init(bs))), Last(bs).id, text);
        var m := Message(TOOL, Str(text), "", [], Last(bs).id);
        AllSentAppend(w, ToolReplies(Init(bs)), [m]);
        assert AllSent(w, [m]) == [AsSent(w, m)];
      } else {
        assert OutputItems(Init(bs)) + [] == OutputItems(Init(bs));
        assert ToolReplies(Init(bs)) + [] == ToolReplies(Init(bs));
      }
    }
  }

  lemma MessageBuilt(w: Wire, b: Built, role: string, parts: seq<ItemPart>)
    requires b.pending == "" && role in {USER, ASSISTANT}
    ensures AfterItem(w, b, MessageItem(role, PartsContent(parts)))
            == Built(b.messages + [Message(role, ContentToChat(PartsContent(parts), role), "", [], "")], "", b.media)
  {
    hide ContentToChat, BridgeRole;
    RolesBridge();
  }

  lemma UserBuilt(w: Wire, b: Built, bs: seq<Block>)
    requires b.pending == ""
    ensures var a := AfterItems(w, b, UserItems(bs));
            && a.messages == b.messages + AllSent(w, ToolReplies(bs) + UserMessage(bs)) && a.pending == ""
            && (b.media == map[] && MediaFree(w, bs) ==> a.media == map[])
  {
    hide AfterItem, ContentToChat, AllResultImages, OwnItemParts, ImageItemParts, UserMessage, ToolReplies, OutputItems, MediaFree;
    var parts := OwnItemParts(bs) + ImageItemParts(AllResultImages(bs));
    OutputsBuilt(w, b, bs);
    UserMessagesAgree(bs);
    AllSentAppend(w, ToolReplies(bs), UserMessage(bs));
    if parts != [] {
      var i := MessageItem(USER, PartsContent(parts));
      ItemsSnoc(w, b, OutputItems(bs), i);
      MessageBuilt(w, AfterItems(w, b, OutputItems(bs)), USER, parts);
      assert UserItems(bs) == OutputItems(bs) + [i];
      assert AllSent(w, UserMessage(bs)) == UserMessage(bs);
    } else {
      assert UserItems(bs) == OutputItems(bs);
      assert AllSent(w, []) == [];
    }
  }

  /** Calls gather on the assistant message at the end. */
  function WithCalls(ms: seq<Message>, calls: seq<ToolCall>): seq<Message> {
    if calls == [] then ms
    else if EndsWithAssistant(ms) then Init(ms) + [Last(ms).(calls := Last(ms).calls + calls)]
    else ms + [Message(ASSISTANT, Absent, "", calls, "")]
  }

  lemma WithCallsSnoc(ms: seq<Message>, calls: seq<ToolCall>, call: ToolCall)
    ensures WithCall(WithCalls(ms, calls), call, "") == WithCalls(ms, calls + [call])
  {
    if calls == [] {
      assert [] + [call] == [call];
    } else if EndsWithAssistant(ms) {
      InitOfSnoc(Init(ms), Last(ms).(calls := Last(ms).calls + calls));
      assert (Last(ms).calls + calls) + [call] == Last(ms).calls + (calls + [call]);
    } else {
      InitOfSnoc(ms, Message(ASSISTANT, Absent, "", calls, ""));
    }
  }

  lemma {:induction false} CallsBuiltOn(w: Wire, b: Built, bs: seq<Block>)
    requires b.pending == ""
    ensures AfterItems(w, b, CallItems(bs)) == Built(WithCalls(b.messages, ToolUses(bs)), "", b.media)
  {
    hide WithCall, WithCalls, M.Extracted, IsBlank;
    if bs == [] {
      assert WithCalls(b.messages, []) == b.messages by { NoCallsAdded(b.messages); }
    } else {
      CallsBuiltOn(w, b, Init(bs));
      if Last(bs).ToolUse? {
        var i := FunctionCall(Last(bs).id, "", Last(bs).name, ArgumentsOf(Last(bs)));
        ItemsSnoc(w, b, CallItems(Init(bs)), i);
        WithCallsSnoc(b.messages, ToolUses(Init(bs)), CallOf(w, i).value);
      } else {
        assert CallItems(Init(bs)) + [] == CallItems(Init(bs));
        assert ToolUses(Init(bs)) + [] == ToolUses(Init(bs));
      }
    }
  }

  lemma NoCallsAdded(ms: seq<Message>)
    ensures WithCalls(ms, []) == ms
  {
  }

  lemma {:induction false} ReasoningIgnored(w: Wire, b: Built, bs: seq<Block>)
    ensures AfterItems(w, b, ReasoningItems(bs)) == b
  {
    hide Trimmed, IsBlank;
    if bs != [] {
      ReasoningIgnored(w, b, Init(bs));
      ItemsSnoc(w, b, ReasoningItems(Init(bs)), ReasoningItem(""));
      assert ReasoningItems(Init(bs)) + [] == ReasoningItems(Init(bs));
    }
  }

  lemma TextContent(text: string)
    ensures ContentToChat(PartsContent([TextOf(text)]), USER) == Str(text)
    ensures ContentToChat(PartsContent([TextOf(text)]), ASSISTANT) == Str(text)
  {
    PartsSnoc([], TextOf(text));
    assert [] + [TextOf(text)] == [TextOf(text)];
    assert ChatParts([]) == [] && PartTexts([]) == [];
    assert !HasImage(ChatParts([TextOf(text)]));
    assert Join(PartTexts([TextOf(text)]), PARAGRAPH) == text;
  }

  lemma AssistantBuilt(w: Wire, b: Built, bs: seq<Block>)
    requires b.pending == ""
    ensures AfterItems(w, b, AssistantItems(bs))
            == Built(if JoinedText(bs) != "" then b.messages + [AssistantMessage(bs)]
                     else WithCalls(b.messages, ToolUses(bs)), "", b.media)
  {
    hide AfterItem, AfterItems, ContentToChat, ReasoningItems, CallItems, ToolUses, WithCalls, JoinedText;
    var text := JoinedText(bs);
    ReasoningIgnored(w, b, bs);
    if text == "" {
      assert AssistantItems(bs) == ReasoningItems(bs) + CallItems(bs);
      AfterAppend(w, b, ReasoningItems(bs), CallItems(bs));
      CallsBuiltOn(w, b, bs);
    } else {
      var i := MessageItem(ASSISTANT, PartsContent([TextOf(text)]));
      AfterAppend(w, b, ReasoningItems(bs) + [i], CallItems(bs));
      ItemsSnoc(w, b, ReasoningItems(bs), i);
      MessageBuilt(w, b, ASSISTANT, [TextOf(text)]);
      TextContent(text);
      var c := AfterItem(w, b, i);
      CallsBuiltOn(w, c, bs);
      OntoLast(b.messages, Message(ASSISTANT, Str(text), "", [], ""), ToolUses(bs));
    }
  }

  lemma OntoLast(ms: seq<Message>, m: Message, calls: seq<ToolCall>)
    requires m.role == ASSISTANT && m.calls == []
    ensures WithCalls(ms + [m], calls) == ms + [m.(calls := calls)]
  {
    InitOfSnoc(ms, m);
    assert [] + calls == calls;
    assert m.(calls := m.calls) == m;
  }

  // Whole histories

  predicate AllMediaFree(w: Wire, ts: seq<Turn>) {
    ts == [] ||
    (AllMediaFree(w, Init(ts)) && (Last(ts).content.BlocksTurn? && Last(ts).role != ASSISTANT ==> MediaFree(w, Last(ts).content.blocks)))
  }

  /** One turn: the composed list grows by what the direct one grows by, except
      after an irregular turn, which adds nothing or joins the last message. */
  lemma TurnBuilt(w: Wire, b: Built, t: Turn, before: seq<Turn>)
    requires b.pending == "" && !t.content.MalformedTurn?
    requires EndsWithAssistant(b.messages) == AssistantSpokeLast(before)
    ensures var a := AfterItems(w, b, TurnItems(t));
            && a.pending == ""
            && |a.messages| == |b.messages| + |TurnMessages(t)| - (if Irregular(before, t) then 1 else 0)
            && (!Irregular(before, t) ==> a.messages == b.messages + AllSent(w, TurnMessages(t)))
            && EndsWithAssistant(a.messages) == AssistantSpokeLast(before + [t])
            && (b.media == map[] && AllMediaFree(w, [t]) ==> a.media == map[])
  {
    InitOfSnoc(before, t);
    match t.content
    case StringTurn(s) => StringTurnBuilt(w, b, t, s);
    case BlocksTurn(bs) =>
      if t.role == ASSISTANT {
        AssistantTurnBuilt(w, b, bs);
      } else {
        UserTurnBuilt(w, b, bs);
        MediaFreeTurn(w, t, bs);
      }
  }

  lemma MediaFreeTurn(w: Wire, t: Turn, bs: seq<Block>)
    requires t.content == BlocksTurn(bs) && t.role != ASSISTANT
    ensures AllMediaFree(w, [t]) <==> MediaFree(w, bs)
  {
    assert Init([t]) == [] && Last([t]) == t;
  }

  lemma StringTurnBuilt(w: Wire, b: Built, t: Turn, s: string)
    requires b.pending == "" && t.content == StringTurn(s)
    ensures var a := AfterItems(w, b, TurnItems(t));
            a == Built(b.messages + AllSent(w, TurnMessages(t)), "", b.media) &&
            EndsWithAssistant(a.messages) == (t.role == ASSISTANT)
  {
    hide AfterItem, ContentToChat;
    var role := if t.role == ASSISTANT then ASSISTANT else USER;
    var i := MessageItem(role, PartsContent([TextOf(s)]));
    assert TurnItems(t) == [] + [i];
    ItemsSnoc(w, b, [], i);
    MessageBuilt(w, b, role, [TextOf(s)]);
    TextContent(s);
    assert AllSent(w, TurnMessages(t)) == TurnMessages(t);
    InitOfSnoc(b.messages, Plain(role, s));
  }

  lemma AssistantTurnBuilt(w: Wire, b: Built, bs: seq<Block>)
    requires b.pending == ""
    ensures var a := AfterItems(w, b, AssistantItems(bs));
            var irregular := JoinedText(bs) == "" && (ToolUses(bs) == [] || EndsWithAssistant(b.messages));
            && a.pending == "" && a.media == b.media
            && |a.messages| == |b.messages| + 1 - (if irregular then 1 else 0)
            && (!irregular ==> a.messages == b.messages + AllSent(w, [AssistantMessage(bs)]))
            && EndsWithAssistant(a.messages) == (JoinedText(bs) != "" || ToolUses(bs) != [] || EndsWithAssistant(b.messages))
  {
    hide AfterItems, AssistantItems, JoinedText, ToolUses;
    AssistantBuilt(w, b, bs);
    var m := AssistantMessage(bs);
    assert AllSent(w, [m]) == [m];
    InitOfSnoc(b.messages, m);
    if EndsWithAssistant(b.messages) {
      InitOfSnoc(Init(b.messages), Last(b.messages).(calls := Last(b.messages).calls + ToolUses(bs)));
    }
  }

  lemma NoReplyIsAssistant(w: Wire, bs: seq<Block>)
    ensures !EndsWithAssistant(AllSent(w, ToolReplies(bs) + UserMessage(bs)))
  {
    hide AsSent, Sent;
    var ms := ToolReplies(bs) + UserMessage(bs);
    if ms != [] {
      RepliesAreTools(bs);
      var m := Last(ms);
      assert m.role == TOOL || m.role == USER;
      SameRole(w, m);
    }
  }

  lemma {:induction false} RepliesAreTools(bs: seq<Block>)
    ensures forall i | 0 <= i < |ToolReplies(bs)| :: ToolReplies(bs)[i].role == TOOL
  {
    if bs != [] {
      RepliesAreTools(Init(bs));
    }
  }

  lemma SameRole(w: Wire, m: Message)
    ensures AsSent(w, m).role == m.role
  {
  }

  lemma UserTurnBuilt(w: Wire, b: Built, bs: seq<Block>)
    requires b.pending == ""
    ensures var a := AfterItems(w, b, UserItems(bs));
            var ms := ToolReplies(bs) + UserMessage(bs);
            && a.pending == "" && a.messages == b.messages + AllSent(w, ms)
            && EndsWithAssistant(a.messages) == (ms == [] && EndsWithAssistant(b.messages))
            && (b.media == map[] && MediaFree(w, bs) ==> a.media == map[])
  {
    hide AfterItems, UserItems, ToolReplies, UserMessage, MediaFree, AllSent;
    UserBuilt(w, b, bs);
    NoReplyIsAssistant(w, bs);
    var sent := AllSent(w, ToolReplies(bs) + UserMessage(bs));
    if sent != [] {
      assert Last(b.messages + sent) == Last(sent);
    } else {
      assert b.messages + sent == b.messages;
    }
  }

  /** What both give for the system prompt. */
  lemma SystemBuilt(w: Wire, s: SystemPrompt)
    ensures AfterItems(w, Started([]), SystemItems(s)) == Started(SystemMessages(s))
    ensures !EndsWithAssistant(SystemMessages(s)) && AllSent(w, SystemMessages(s)) == SystemMessages(s)
  {
    var texts := SystemTexts(s);
    KeptNotEmpty(s);
    TextPartsAgree(texts);
    hide AfterItem, SystemTexts;
    if texts != [] {
      JoinNotEmpty(texts);
      var i := MessageItem("developer", PartsContent(TextParts(texts)));
      assert SystemItems(s) == [] + [i];
      ItemsSnoc(w, Started([]), [], i);
      DeveloperBuilt(w, texts);
    }
  }

  lemma DeveloperBuilt(w: Wire, texts: seq<string>)
    requires PartTexts(TextParts(texts)) == texts
    ensures AfterItem(w, Started([]), MessageItem("developer", PartsContent(TextParts(texts))))
            == Started([Plain(SYSTEM, Join(texts, PARAGRAPH))])
  {
    hide BridgeRole, TextParts, Join, ChatParts;
    RolesBridge();
    assert [] + [Plain(SYSTEM, Join(texts, PARAGRAPH))] == [Plain(SYSTEM, Join(texts, PARAGRAPH))];
  }

  lemma JoinNotEmpty(texts: seq<string>)
    requires texts != [] && NoneEmpty(texts)
    ensures Join(texts, PARAGRAPH) != ""
  {
  }

  lemma KeptNotEmpty(s: SystemPrompt)
    ensures NoneEmpty(SystemTexts(s))
  {
    if s.BlocksSystem? {
      KeptTextsNotEmpty(s.blocks);
    }
  }

  lemma {:induction false} KeptTextsNotEmpty(bs: seq<Block>)
    ensures NoneEmpty(KeptTexts(bs))
  {
    if bs != [] {
      KeptTextsNotEmpty(Init(bs));
    }
  }

  function Composed(w: Wire, s: SystemPrompt, ts: seq<Turn>): Built {
    AfterItems(w, Started([]), InputItems(s, ts))
  }

  function Direct(s: SystemPrompt, ts: seq<Turn>): seq<Message> {
    SystemMessages(s) + TurnsMessages(ts)
  }

  lemma ComposedSnoc(w: Wire, s: SystemPrompt, before: seq<Turn>, t: Turn)
    ensures Composed(w, s, before + [t]) == AfterItems(w, Composed(w, s, before), TurnItems(t))
  {
    hide AfterItems, SystemItems, TurnItems;
    InitOfSnoc(before, t);
    assert InputItems(s, before + [t]) == InputItems(s, before) + TurnItems(t);
    AfterAppend(w, Started([]), InputItems(s, before), TurnItems(t));
  }

  lemma DirectSnoc(w: Wire, s: SystemPrompt, before: seq<Turn>, t: Turn)
    ensures Direct(s, before + [t]) == Direct(s, before) + TurnMessages(t)
    ensures AllSent(w, Direct(s, before + [t])) == AllSent(w, Direct(s, before)) + AllSent(w, TurnMessages(t))
  {
    hide SystemMessages, TurnMessages;
    InitOfSnoc(before, t);
    Associates(SystemMessages(s), TurnsMessages(before), TurnMessages(t));
    AllSentAppend(w, Direct(s, before), TurnMessages(t));
  }

  /** The whole history: the composed list is shorter by the irregular turns, and
      without them it is the direct list with tool outputs as they are sent. */
  lemma {:induction false} TurnsBuilt(w: Wire, s: SystemPrompt, ts: seq<Turn>)
    requires !Malformed(s, ts)
    ensures var b := Composed(w, s, ts);
            && b.pending == ""
            && |b.messages| + IrregularCount(ts) == |Direct(s, ts)|
            && (IrregularCount(ts) == 0 ==> b.messages == AllSent(w, Direct(s, ts)))
            && EndsWithAssistant(b.messages) == AssistantSpokeLast(ts)
            && (AllMediaFree(w, ts) ==> b.media == map[])
  {
    if ts == [] {
      hide AfterItems, SystemItems, SystemMessages;
      assert InputItems(s, ts) == SystemItems(s);
      assert Direct(s, ts) == SystemMessages(s);
      SystemBuilt(w, s);
    } else {
      var before, t := Init(ts), Last(ts);
      assert !Malformed(s, before) && !t.content.MalformedTurn?;
      assert before + [t] == ts;
      if AllMediaFree(w, ts) {
        OneMediaFree(w, ts);
      }
      assert AllMediaFree(w, ts) ==> AllMediaFree(w, before);
      assert IrregularCount(ts) == IrregularCount(before) + (if Irregular(before, t) then 1 else 0);
      hide Composed, Direct, AfterItems, TurnItems, TurnMessages, AssistantSpokeLast, Irregular, IrregularCount, AllMediaFree,
        AllSent, Malformed, EndsWithAssistant;
      TurnsBuilt(w, s, before);
      ComposedSnoc(w, s, before, t);
      DirectSnoc(w, s, before, t);
      TurnBuilt(w, Composed(w, s, before), t, before);
    }
  }

  lemma OneMediaFree(w: Wire, ts: seq<Turn>)
    requires ts != [] && AllMediaFree(w, ts)
    ensures AllMediaFree(w, [Last(ts)])
  {
    assert Init([Last(ts)]) == [] && Last([Last(ts)]) == Last(ts);
  }

  /** Sending an output changes its text exactly when it holds an image. */
  lemma SentUnchanged(w: Wire, text: string)
    requires M.Codec(w.decode, w.encode)
    ensures Sent(w, text) == text <==> M.Extracted(w.decode, w.encode, Some(M.Str(text))).None?
  {
    if M.IsDataUrl(text) {
      assert M.MARKER[0] == '[' && M.DATA_PREFIX[0] == 'd';
      M.NoPrefix(M.DATA_PREFIX, M.MARKER);
    } else if w.decode(text).Some? {
      var tree := w.decode(text).value;
      M.UntouchedWithoutMedia(tree);
      assert M.Readable(w.decode, tree);
    }
  }

  lemma AllSentSplit(w: Wire, a: seq<Message>, b: seq<Message>)
    ensures AllSent(w, a + b) == a + b <==> AllSent(w, a) == a && AllSent(w, b) == b
  {
    AllSentAppend(w, a, b);
    if AllSent(w, a + b) == a + b {
      assert AllSent(w, a) == (AllSent(w, a) + AllSent(w, b))[..|a|] == (a + b)[..|a|] == a;
      assert AllSent(w, b) == (AllSent(w, a) + AllSent(w, b))[|a|..] == (a + b)[|a|..] == b;
    }
  }

  lemma {:induction false} RepliesSent(w: Wire, bs: seq<Block>)
    requires M.Codec(w.decode, w.encode)
    ensures AllSent(w, ToolReplies(bs)) == ToolReplies(bs) <==> MediaFree(w, bs)
  {
    hide M.Codec, M.Extracted, Sent;
    if bs != [] {
      RepliesSent(w, Init(bs));
      if Last(bs).ToolResult? {
        var text := ResultText(Last(bs).body);
        var m := Message(TOOL, Str(text), "", [], Last(bs).id);
        AllSentSplit(w, ToolReplies(Init(bs)), [m]);
        SentUnchanged(w, text);
        assert AllSent(w, [m]) == [m] <==> AsSent(w, m) == m by {
          assert AllSent(w, [m])[0] == AsSent(w, m);
        }
      } else {
        assert ToolReplies(Init(bs)) + [] == ToolReplies(Init(bs));
      }
    }
  }

  lemma TurnSent(w: Wire, t: Turn)
    requires M.Codec(w.decode, w.encode)
    ensures AllSent(w, TurnMessages(t)) == TurnMessages(t)
            <==> (t.content.BlocksTurn? && t.role != ASSISTANT ==> MediaFree(w, t.content.blocks))
  {
    hide M.Codec, UserMessage, ToolReplies, MediaFree, Sent, ToolUses, JoinedText;
    if t.content.BlocksTurn? && t.role != ASSISTANT {
      var bs := t.content.blocks;
      RepliesSent(w, bs);
      AllSentSplit(w, ToolReplies(bs), UserMessage(bs));
      UserNotTool(bs);
    }
  }

  lemma UserNotTool(bs: seq<Block>)
    ensures forall w :: AllSent(w, UserMessage(bs)) == UserMessage(bs)
  {
    hide HasImage, OwnParts, JoinedText;
  }

  lemma {:induction false} TurnsSent(w: Wire, ts: seq<Turn>)
    requires M.Codec(w.decode, w.encode)
    ensures AllSent(w, TurnsMessages(ts)) == TurnsMessages(ts) <==> AllMediaFree(w, ts)
  {
    hide M.Codec, TurnMessages, AllSent, MediaFree;
    if ts != [] {
      TurnsSent(w, Init(ts));
      AllSentSplit(w, TurnsMessages(Init(ts)), TurnMessages(Last(ts)));
      TurnSent(w, Last(ts));
    } else {
      assert AllSent(w, []) == [];
    }
  }

  lemma {:induction false} NoneIrregular(ts: seq<Turn>)
    ensures IrregularCount(ts) == 0 <==> forall i | 0 <= i < |ts| :: !Irregular(ts[..i], ts[i])
  {
    hide Irregular;
    if ts != [] {
      NoneIrregular(Init(ts));
      var n := |ts| - 1;
      assert ts[..n] == Init(ts) && ts[n] == Last(ts);
      forall i | 0 <= i < n ensures Init(ts)[..i] == ts[..i] && Init(ts)[i] == ts[i] {
      }
    }
  }

  /** No turn is irregular: a caller can check this on the request alone. */
  predicate Regular(ts: seq<Turn>) {
    forall i | 0 <= i < |ts| :: !Irregular(ts[..i], ts[i])
  }

  /** The two translations build the same messages exactly when every assistant turn
      has text or a call, no calls without text directly follow another assistant
      message, and no tool output holds an image. */
  lemma BuiltListsAgree(w: Wire, s: SystemPrompt, ts: seq<Turn>)
    requires M.Codec(w.decode, w.encode) && !Malformed(s, ts)
    ensures Composed(w, s, ts).messages == Direct(s, ts) <==> Regular(ts) && AllMediaFree(w, ts)
  {
    hide Composed, M.Codec, SystemMessages, AllSent, AllMediaFree, IrregularCount, Malformed;
    TurnsBuilt(w, s, ts);
    NoneIrregular(ts);
    TurnsSent(w, ts);
    AllSentSplit(w, SystemMessages(s), TurnsMessages(ts));
    SystemBuilt(w, s);
  }

  /** What is sent: both translations give the same messages, error for error, when
      the history is regular and its tool outputs hold no images. */
  lemma MessagesAgree(w: Wire, s: SystemPrompt, ts: seq<Turn>)
    requires M.Codec(w.decode, w.encode) && !Malformed(s, ts) && Regular(ts) && AllMediaFree(w, ts)
    ensures N.Normalized(Composed(w, s, ts).messages, Composed(w, s, ts).media) == N.Normalized(Direct(s, ts), map[])
  {
    hide Composed, Direct, M.Codec, AllMediaFree, IrregularCount, Malformed, Regular, N.Normalized;
    BuiltListsAgree(w, s, ts);
    TurnsBuilt(w, s, ts);
  }
}
