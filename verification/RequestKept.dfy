/** What an Anthropic request says, read block by block, and that both ways to a Chat
    Completions upstream carry it: who speaks, texts, images, tool results and calls. */
module RequestKept {
  import opened Common
  import opened ChatChunks
  import opened ChatMessages
  import opened ResponsesInput
  import opened ResponsesHistory
  import opened RequestTranslation
  import opened RequestEquality
  import N = Normalize
  import M = ToolOutputMedia

  // ----- Read off the blocks -----

  function Texts(bs: seq<Block>): seq<string> {
    if bs == [] then []
    else Texts(Init(bs)) + (if Last(bs).TextBlock? && Last(bs).text != "" then [Last(bs).text] else [])
  }

  /** The address of an image block with data, as a data URI. */
  function Address(mediaType: string, data: string): seq<string> {
    if data == "" then []
    else ["data:" + (if mediaType == "" then "image/png" else mediaType) + ";base64," + data]
  }

  function Images(bs: seq<Block>): seq<string> {
    if bs == [] then []
    else Images(Init(bs)) + (if Last(bs).ImageBlock? then Address(Last(bs).mediaType, Last(bs).data) else [])
  }

  function ImagesInResults(bs: seq<Block>): seq<string> {
    if bs == [] then []
    else
      ImagesInResults(Init(bs))
      + (if Last(bs).ToolResult? && Last(bs).body.BlocksBody? then Images(Last(bs).body.blocks) else [])
  }

  /** A tool result is never empty. */
  function ResultSaid(b: ResultBody): string {
    var said := match b
      case StringBody(s) => s
      case BlocksBody(blocks) => Join(Texts(blocks), "\n\n")
      case _ => "";
    if said == "" then "(empty)" else said
  }

  function ResultLines(bs: seq<Block>): seq<Line> {
    if bs == [] then []
    else
      ResultLines(Init(bs)) + (if Last(bs).ToolResult? then [Line("tool", Last(bs).id, ResultSaid(Last(bs).body), [])] else [])
  }

  function CallsMade(bs: seq<Block>): seq<ToolCall> {
    if bs == [] then []
    else
      CallsMade(Init(bs))
      + (if Last(bs).ToolUse? then
           [ToolCall(Last(bs).id, Last(bs).name, if Last(bs).input.Some? then Last(bs).input.value else "{}")]
         else [])
  }

  /** Tool results first, then one message with all text and images of the user and
      the images of the results. */
  function UserLines(bs: seq<Block>): seq<Line> {
    var images := Images(bs) + ImagesInResults(bs);
    ResultLines(bs)
    + (if Texts(bs) == [] && images == [] then [] else [Line("user", "", Join(Texts(bs), "\n\n"), images)])
  }

  function TurnLines(t: Turn): seq<Line> {
    match t.content
    case StringTurn(s) => [Line(if t.role == "assistant" then "assistant" else "user", "", s, [])]
    case BlocksTurn(bs) =>
      if t.role != "assistant" then UserLines(bs)
      else if Join(Texts(bs), "\n\n") == "" then []
      else [Line("assistant", "", Join(Texts(bs), "\n\n"), [])]
    case MalformedTurn => []
  }

  function TurnsLines(ts: seq<Turn>): seq<Line> {
    if ts == [] then [] else TurnsLines(Init(ts)) + TurnLines(Last(ts))
  }

  function TurnsCalls(ts: seq<Turn>): seq<ToolCall> {
    if ts == [] then []
    else
      TurnsCalls(Init(ts))
      + (if Last(ts).role == "assistant" && Last(ts).content.BlocksTurn? then CallsMade(Last(ts).content.blocks) else [])
  }

  /** The system prompt without the billing header. */
  function Prompts(s: SystemPrompt): seq<string> {
    match s
    case StringSystem(text) => if text == "" || "x-anthropic-billing-header: " <= text then [] else [text]
    case BlocksSystem(bs) => PromptsIn(bs)
    case _ => []
  }

  function PromptsIn(bs: seq<Block>): seq<string> {
    if bs == [] then []
    else
      PromptsIn(Init(bs))
      + (if Last(bs).TextBlock? && Last(bs).text != "" && !("x-anthropic-billing-header: " <= Last(bs).text)
         then [Last(bs).text] else [])
  }

  function SystemLines(s: SystemPrompt): seq<Line> {
    if Join(Prompts(s), "\n\n") == "" then [] else [Line("system", "", Join(Prompts(s), "\n\n"), [])]
  }

  // ----- The blocks as the translations read them -----

  lemma {:induction false} BlocksRead(bs: seq<Block>)
    ensures BlockTexts(bs) == Texts(bs) && ImageUris(bs) == Images(bs) && ToolUses(bs) == CallsMade(bs)
    ensures N.UrlsOf(OwnParts(bs)) == Images(bs) && TextsOf(OwnParts(bs)) == Texts(bs)
  {
    if bs != [] {
      BlocksRead(Init(bs));
      var b := Last(bs);
      assert OwnParts(Init(bs)) + [] == OwnParts(Init(bs));
      hide N.UrlsOf, TextsOf;
      match b
      case TextBlock(text) => UrlsSnoc(OwnParts(Init(bs)), TextPart(text));
      case ImageBlock(mediaType, data) => UrlsSnoc(OwnParts(Init(bs)), ImagePart(DataUri(b)));
      case _ =>
    } else {
      assert N.UrlsOf([]) == [] && TextsOf([]) == [];
    }
  }

  lemma ResultRead(b: ResultBody)
    ensures ResultText(b) == ResultSaid(b) && ResultImages(b) == if b.BlocksBody? then Images(b.blocks) else []
  {
    if b.BlocksBody? {
      BlocksRead(b.blocks);
    }
  }

  lemma {:induction false} ResultsRead(bs: seq<Block>)
    ensures AllResultImages(bs) == ImagesInResults(bs) && LinesIn(ToolReplies(bs)) == ResultLines(bs)
    ensures N.CallsIn(ToolReplies(bs)) == []
  {
    if bs != [] {
      ResultsRead(Init(bs));
      if Last(bs).ToolResult? {
        hide ResultText, ResultSaid, ResultImages;
        ResultRead(Last(bs).body);
        var m := Message(TOOL, Str(ResultText(Last(bs).body)), "", [], Last(bs).id);
        LinesSnoc(ToolReplies(Init(bs)), m);
        MessageAdds(ToolReplies(Init(bs)), m);
      } else {
        assert ToolReplies(Init(bs)) + [] == ToolReplies(Init(bs));
      }
    }
  }

  lemma {:induction false} PromptsRead(bs: seq<Block>)
    ensures KeptTexts(bs) == PromptsIn(bs)
  {
    if bs != [] {
      PromptsRead(Init(bs));
    }
  }

  lemma OneLine(m: Message)
    requires !m.content.Absent?
    ensures LinesIn([m]) == [Line(m.role, m.callId, ContentText(m.content), N.ImagesOf(m.content))]
    ensures N.CallsIn([m]) == if m.role == TOOL then [] else m.calls
  {
    N.SingleOthers(m);
    LinesSnoc([], m);
    assert [] + [m] == [m] && LinesIn([]) == [];
  }

  lemma {:induction false} LinesAppend(a: seq<Message>, b: seq<Message>)
    ensures LinesIn(a + b) == LinesIn(a) + LinesIn(b)
  {
    if b == [] {
      assert a + b == a && LinesIn(b) == [];
    } else {
      hide LinesIn, ContentText, N.ImagesOf;
      var m := Last(b);
      assert b == Init(b) + [m] && a + b == a + Init(b) + [m];
      LinesAppend(a, Init(b));
      LinesSnoc(a + Init(b), m);
      LinesSnoc(Init(b), m);
    }
  }

  lemma {:induction false} ImagesJoin(own: seq<Part>, urls: seq<string>)
    ensures N.UrlsOf(own + ImageParts(urls)) == N.UrlsOf(own) + urls && TextsOf(own + ImageParts(urls)) == TextsOf(own)
  {
    hide N.UrlsOf, TextsOf;
    if urls == [] {
      assert own + ImageParts(urls) == own && N.UrlsOf(own) + urls == N.UrlsOf(own);
    } else {
      var more, p := own + ImageParts(Init(urls)), ImagePart(Last(urls));
      ImagesJoin(own, Init(urls));
      assert own + ImageParts(urls) == more + [p];
      UrlsSnoc(more, p);
    }
  }

  lemma {:induction false} ImagesFound(ps: seq<Part>)
    ensures HasImage(ps) <==> N.UrlsOf(ps) != []
  {
    if ps != [] {
      ImagesFound(Init(ps));
      assert ps == Init(ps) + [Last(ps)];
      UrlsSnoc(Init(ps), Last(ps));
    }
  }

  lemma UserRead(bs: seq<Block>)
    ensures LinesIn(ToolReplies(bs) + UserMessage(bs)) == UserLines(bs)
    ensures N.CallsIn(ToolReplies(bs) + UserMessage(bs)) == []
  {
    BlocksRead(bs);
    ResultsRead(bs);
    var own, urls := OwnParts(bs), AllResultImages(bs);
    ImagesJoin(own, urls);
    ImagesFound(own + ImageParts(urls));
    LinesAppend(ToolReplies(bs), UserMessage(bs));
    N.OthersAppend(ToolReplies(bs), UserMessage(bs));
    assert LinesIn([]) == [] && N.CallsIn([]) == [];
    assert USER[0] != TOOL[0];
    var m := if HasImage(own + ImageParts(urls)) then Message(USER, Parts(own + ImageParts(urls)), "", [], "")
             else Plain(USER, JoinedText(bs));
    OneLine(m);
    hide N.UrlsOf, TextsOf, HasImage, OwnParts, AllResultImages, BlockTexts, Images, Texts, Join, LinesIn, N.CallsIn;
    assert Images(bs) + ImagesInResults(bs) == N.UrlsOf(own) + urls;
  }

  lemma AssistantRead(bs: seq<Block>)
    ensures LinesIn([AssistantMessage(bs)])
            == if Join(Texts(bs), "\n\n") == "" then [] else [Line("assistant", "", Join(Texts(bs), "\n\n"), [])]
    ensures N.CallsIn([AssistantMessage(bs)]) == CallsMade(bs)
  {
    BlocksRead(bs);
    var m := AssistantMessage(bs);
    N.SingleOthers(m);
    LinesSnoc([], m);
    assert [] + [m] == [m] && LinesIn([]) == [];
    assert ASSISTANT[0] != TOOL[0];
  }

  lemma TurnRead(t: Turn)
    ensures LinesIn(TurnMessages(t)) == TurnLines(t)
    ensures N.CallsIn(TurnMessages(t))
            == if t.role == "assistant" && t.content.BlocksTurn? then CallsMade(t.content.blocks) else []
  {
    hide AssistantMessage, ToolReplies, UserMessage, UserLines, CallsMade, Texts, Join, LinesIn, N.CallsIn;
    assert LinesIn([]) == [] && N.CallsIn([]) == [] by { NothingRead(); }
    match t.content
    case StringTurn(s) => OneLine(Plain(if t.role == ASSISTANT then ASSISTANT else USER, s));
    case BlocksTurn(bs) =>
      AssistantRead(bs);
      UserRead(bs);
    case MalformedTurn =>
  }

  lemma NothingRead()
    ensures LinesIn([]) == [] && N.CallsIn([]) == []
  {
  }

  lemma {:induction false} TurnsRead(ts: seq<Turn>)
    ensures LinesIn(TurnsMessages(ts)) == TurnsLines(ts) && N.CallsIn(TurnsMessages(ts)) == TurnsCalls(ts)
  {
    if ts == [] {
      NothingRead();
    } else {
      hide TurnMessages, TurnLines, LinesIn, N.CallsIn, CallsMade;
      TurnsRead(Init(ts));
      TurnRead(Last(ts));
      LinesAppend(TurnsMessages(Init(ts)), TurnMessages(Last(ts)));
      N.OthersAppend(TurnsMessages(Init(ts)), TurnMessages(Last(ts)));
    }
  }

  lemma SystemRead(s: SystemPrompt)
    ensures LinesIn(SystemMessages(s)) == SystemLines(s) && N.CallsIn(SystemMessages(s)) == []
  {
    NothingRead();
    if s.BlocksSystem? {
      PromptsRead(s.blocks);
    }
    assert SYSTEM[0] != TOOL[0];
    OneLine(Plain(SYSTEM, Join(SystemTexts(s), PARAGRAPH)));
    hide LinesIn, N.CallsIn, Join;
  }

  /** The direct translation says what the request says, line by line: the system
      prompt, the texts of both sides, the tool results and the images, and it makes
      the calls the assistant made, with their inputs. */
  lemma DirectSays(s: SystemPrompt, ts: seq<Turn>)
    ensures LinesIn(Direct(s, ts)) == SystemLines(s) + TurnsLines(ts)
    ensures N.CallsIn(Direct(s, ts)) == TurnsCalls(ts)
  {
    hide SystemMessages, SystemLines, LinesIn, N.CallsIn;
    SystemRead(s);
    TurnsRead(ts);
    LinesAppend(SystemMessages(s), TurnsMessages(ts));
    N.OthersAppend(SystemMessages(s), TurnsMessages(ts));
  }

  // ----- The same by way of a Responses request -----

  /** A line as it is sent: images in the text of a tool result are taken out. */
  function SentLine(w: Wire, l: Line): Line {
    if l.role == "tool" then l.(text := AnswerText(w, Some(M.Str(l.text)), "")) else l
  }

  function SentLines(w: Wire, ls: seq<Line>): seq<Line> {
    if ls == [] then [] else SentLines(w, Init(ls)) + [SentLine(w, Last(ls))]
  }

  lemma {:induction false} SentAppend(w: Wire, a: seq<Line>, b: seq<Line>)
    ensures SentLines(w, a + b) == SentLines(w, a) + SentLines(w, b)
  {
    hide SentLine;
    if b == [] {
      assert a + b == a;
    } else {
      assert Init(a + b) == a + Init(b) && Last(a + b) == Last(b);
      SentAppend(w, a, Init(b));
      Associates(SentLines(w, a), SentLines(w, Init(b)), [SentLine(w, Last(b))]);
    }
  }

  lemma OneSent(w: Wire, l: Line)
    ensures SentLines(w, [l]) == [SentLine(w, l)] && SentLines(w, []) == []
  {
    hide SentLine;
    assert Init([l]) == [] && Last([l]) == l && SentLines(w, []) == [];
  }

  lemma {:induction false} ItemsAppend(w: Wire, a: seq<Item>, b: seq<Item>)
    ensures LinesOf(w, a + b) == LinesOf(w, a) + LinesOf(w, b) && CallsOf(w, a + b) == CallsOf(w, a) + CallsOf(w, b)
  {
    hide LineOf, CallOf;
    if b == [] {
      assert a + b == a && LinesOf(w, b) == [] && CallsOf(w, b) == [];
    } else {
      var i := Last(b);
      var own := if CallOf(w, i).Some? then [CallOf(w, i).value] else [];
      assert Init(a + b) == a + Init(b) && Last(a + b) == i;
      ItemsAppend(w, a, Init(b));
      Associates(LinesOf(w, a), LinesOf(w, Init(b)), LineOf(w, i));
      Associates(CallsOf(w, a), CallsOf(w, Init(b)), own);
    }
  }

  lemma OneItem(w: Wire, i: Item)
    ensures LinesOf(w, [i]) == LineOf(w, i) && LinesOf(w, []) == [] && CallsOf(w, []) == []
    ensures CallsOf(w, [i]) == if CallOf(w, i).Some? then [CallOf(w, i).value] else []
  {
    hide LineOf, CallOf;
    assert Init([i]) == [] && Last([i]) == i && LinesOf(w, []) == [] && CallsOf(w, []) == [];
  }

  lemma {:induction false} OutputsSay(w: Wire, bs: seq<Block>)
    ensures LinesOf(w, OutputItems(bs)) == SentLines(w, ResultLines(bs)) && CallsOf(w, OutputItems(bs)) == []
  {
    if bs != [] {
      OutputsSay(w, Init(bs));
      if Last(bs).ToolResult? {
        hide ResultText, ResultSaid, AnswerText, LineOf, CallOf;
        ResultRead(Last(bs).body);
        var i := CallOutput(Last(bs).id, Some(M.Str(ResultText(Last(bs).body))), "");
        var l := Line("tool", Last(bs).id, ResultSaid(Last(bs).body), []);
        assert LineOf(w, i) == [SentLine(w, l)] by { OutputSays(w, Last(bs).id, ResultSaid(Last(bs).body)); }
        ItemsAppend(w, OutputItems(Init(bs)), [i]);
        OneItem(w, i);
        assert CallOf(w, i).None? by { CallTells(w, i); }
        SentAppend(w, ResultLines(Init(bs)), [l]);
        OneSent(w, l);
      } else {
        assert OutputItems(Init(bs)) + [] == OutputItems(Init(bs)) && ResultLines(Init(bs)) + [] == ResultLines(Init(bs));
      }
    }
  }

  lemma OutputSays(w: Wire, id: string, text: string)
    ensures LineOf(w, CallOutput(id, Some(M.Str(text)), "")) == [SentLine(w, Line("tool", id, text, []))]
  {
  }

  lemma CallItemSays(w: Wire, b: Block)
    requires b.ToolUse?
    ensures var i := FunctionCall(b.id, "", b.name, ArgumentsOf(b));
            LineOf(w, i) == [] &&
            CallOf(w, i) == Some(ToolCall(b.id, b.name, if b.input.Some? then b.input.value else "{}"))
  {
  }

  lemma {:induction false} CallsSay(w: Wire, bs: seq<Block>)
    ensures LinesOf(w, CallItems(bs)) == [] && CallsOf(w, CallItems(bs)) == CallsMade(bs)
  {
    if bs != [] {
      CallsSay(w, Init(bs));
      var b := Last(bs);
      if b.ToolUse? {
        hide LineOf, CallOf, ArgumentsOf, LinesOf, CallsOf;
        var i := FunctionCall(b.id, "", b.name, ArgumentsOf(b));
        CallItemSays(w, b);
        OneItem(w, i);
        ItemsAppend(w, CallItems(Init(bs)), [i]);
      } else {
        assert CallItems(Init(bs)) + [] == CallItems(Init(bs)) && CallsMade(Init(bs)) + [] == CallsMade(Init(bs));
      }
    }
  }

  lemma {:induction false} ReasoningSays(w: Wire, bs: seq<Block>)
    ensures LinesOf(w, ReasoningItems(bs)) == [] && CallsOf(w, ReasoningItems(bs)) == []
  {
    if bs != [] {
      ReasoningSays(w, Init(bs));
      var i := ReasoningItem("");
      assert LineOf(w, i) == [] && CallOf(w, i).None?;
      hide LineOf, CallOf, LinesOf, CallsOf, Trimmed;
      OneItem(w, i);
      ItemsAppend(w, ReasoningItems(Init(bs)), [i]);
      assert ReasoningItems(Init(bs)) + [] == ReasoningItems(Init(bs));
    }
  }

  lemma ItemPartsSnoc(ps: seq<ItemPart>, p: ItemPart)
    ensures ImageUrls(ps + [p]) == ImageUrls(ps) + (if p.ImageOf? && p.url != "" then [p.url] else [])
    ensures PartTexts(ps + [p]) == PartTexts(ps) + (if p.TextOf? && p.text != "" then [p.text] else [])
  {
    InitOfSnoc(ps, p);
  }

  lemma {:induction false} ImageItemsTell(own: seq<ItemPart>, urls: seq<string>)
    requires NoneEmpty(urls)
    ensures ImageUrls(own + ImageItemParts(urls)) == ImageUrls(own) + urls
    ensures PartTexts(own + ImageItemParts(urls)) == PartTexts(own)
  {
    hide ImageUrls, PartTexts;
    if urls == [] {
      assert own + ImageItemParts(urls) == own && ImageUrls(own) + urls == ImageUrls(own);
    } else {
      var more, p := own + ImageItemParts(Init(urls)), ImageOf(Last(urls));
      ImageItemsTell(own, Init(urls));
      assert own + ImageItemParts(urls) == more + [p];
      ItemPartsSnoc(more, p);
    }
  }

  lemma {:induction false} OwnItemsTell(bs: seq<Block>)
    ensures ImageUrls(OwnItemParts(bs)) == Images(bs) && PartTexts(OwnItemParts(bs)) == Texts(bs)
    ensures OwnItemParts(bs) == [] <==> Images(bs) == [] && Texts(bs) == []
  {
    if bs == [] {
      assert ImageUrls([]) == [] && PartTexts([]) == [];
    } else {
      hide ImageUrls, PartTexts;
      OwnItemsTell(Init(bs));
      var before, b := OwnItemParts(Init(bs)), Last(bs);
      assert before + [] == before;
      match b
      case TextBlock(text) => ItemPartsSnoc(before, TextOf(text));
      case ImageBlock(_, _) => ItemPartsSnoc(before, ImageOf(DataUri(b)));
      case _ =>
    }
  }

  lemma UserSays(w: Wire, bs: seq<Block>)
    ensures LinesOf(w, UserItems(bs)) == SentLines(w, UserLines(bs)) && CallsOf(w, UserItems(bs)) == []
  {
    var own, urls := OwnItemParts(bs), AllResultImages(bs);
    var parts := own + ImageItemParts(urls);
    OwnItemsTell(bs);
    ResultsRead(bs);
    ImagesNotEmpty(bs);
    ImageItemsTell(own, urls);
    OutputsSay(w, bs);
    var i := MessageItem(USER, PartsContent(parts));
    var l := Line("user", "", Join(Texts(bs), "\n\n"), Images(bs) + ImagesInResults(bs));
    assert LineOf(w, i) == [l] by { UserIsUser(); }
    OneItem(w, i);
    OneSent(w, l);
    assert USER[0] != TOOL[0];
    assert SentLine(w, l) == l;
    hide LineOf, CallOf, LinesOf, CallsOf, ImageUrls, PartTexts, OwnItemParts, AllResultImages, Images, Texts, Join, SentLine,
         ResultLines, OutputItems;
    ItemsAppend(w, OutputItems(bs), if parts != [] then [i] else []);
    SentAppend(w, ResultLines(bs), if parts != [] then [l] else []);
    assert CallOf(w, i).None? by { CallTells(w, i); }
    assert parts == [] <==> own == [] && urls == [];
  }

  lemma UserIsUser()
    ensures Speaker("user") == "user" && Speaker("assistant") == "assistant" && Speaker("developer") == "system"
  {
    RolesBridge();
  }

  lemma AssistantSays(w: Wire, bs: seq<Block>)
    ensures LinesOf(w, AssistantItems(bs))
            == SentLines(w, if Join(Texts(bs), "\n\n") == "" then [] else [Line("assistant", "", Join(Texts(bs), "\n\n"), [])])
    ensures CallsOf(w, AssistantItems(bs)) == CallsMade(bs)
  {
    BlocksRead(bs);
    CallsSay(w, bs);
    ReasoningSays(w, bs);
    var text := Join(Texts(bs), "\n\n");
    var i := MessageItem(ASSISTANT, PartsContent([TextOf(text)]));
    var l := Line("assistant", "", text, []);
    StringSays(w, ASSISTANT, text);
    assert ASSISTANT[0] != TOOL[0];
    assert SentLine(w, l) == l;
    OneItem(w, i);
    OneSent(w, l);
    assert CallOf(w, i).None? by { CallTells(w, i); }
    hide LineOf, CallOf, LinesOf, CallsOf, Texts, Join, SentLine, SentLines, CallItems, ReasoningItems, CallsMade, BlockTexts;
    var middle := if text != "" then [i] else [];
    ItemsAppend(w, ReasoningItems(bs), middle);
    ItemsAppend(w, ReasoningItems(bs) + middle, CallItems(bs));
  }

  lemma OneText(text: string)
    ensures PartTexts([TextOf(text)]) == (if text == "" then [] else [text]) && ImageUrls([TextOf(text)]) == []
  {
    assert [] + [TextOf(text)] == [TextOf(text)];
    ItemPartsSnoc([], TextOf(text));
    assert PartTexts([]) == [] && ImageUrls([]) == [];
  }

  lemma StringSays(w: Wire, role: string, text: string)
    requires role in {USER, ASSISTANT}
    ensures LineOf(w, MessageItem(role, PartsContent([TextOf(text)]))) == [Line(role, "", text, [])]
  {
    UserIsUser();
    OneText(text);
    hide Speaker, PartTexts, ImageUrls;
  }

  lemma TurnSays(w: Wire, t: Turn)
    ensures LinesOf(w, TurnItems(t)) == SentLines(w, TurnLines(t))
    ensures CallsOf(w, TurnItems(t)) == if t.role == "assistant" && t.content.BlocksTurn? then CallsMade(t.content.blocks) else []
  {
    hide AssistantItems, UserItems, UserLines, CallsMade, Texts, Join, LinesOf, CallsOf, LineOf, CallOf, SentLines;
    assert LinesOf(w, []) == [] && CallsOf(w, []) == [] && SentLines(w, []) == [] by {
      OneItem(w, UnknownItem);
      OneSent(w, Line("", "", "", []));
    }
    match t.content
    case StringTurn(s) =>
      var role := if t.role == ASSISTANT then ASSISTANT else USER;
      assert ASSISTANT[0] != TOOL[0] && USER[0] != TOOL[0];
      var i := MessageItem(role, PartsContent([TextOf(s)]));
      StringSays(w, role, s);
      OneItem(w, i);
      OneSent(w, Line(role, "", s, []));
      assert CallOf(w, i).None? by { CallTells(w, i); }
    case BlocksTurn(bs) =>
      AssistantSays(w, bs);
      UserSays(w, bs);
    case MalformedTurn =>
  }

  lemma {:induction false} TurnsSay(w: Wire, ts: seq<Turn>)
    ensures LinesOf(w, TurnsItems(ts)) == SentLines(w, TurnsLines(ts)) && CallsOf(w, TurnsItems(ts)) == TurnsCalls(ts)
  {
    if ts == [] {
      OneItem(w, UnknownItem);
    } else {
      hide TurnItems, TurnLines, LinesOf, CallsOf, CallsMade, SentLines;
      TurnsSay(w, Init(ts));
      TurnSays(w, Last(ts));
      ItemsAppend(w, TurnsItems(Init(ts)), TurnItems(Last(ts)));
      SentAppend(w, TurnsLines(Init(ts)), TurnLines(Last(ts)));
    }
  }

  lemma SystemSays(w: Wire, s: SystemPrompt)
    ensures LinesOf(w, SystemItems(s)) == SystemLines(s) && CallsOf(w, SystemItems(s)) == []
  {
    if s.BlocksSystem? {
      PromptsRead(s.blocks);
    }
    KeptNotEmpty(s);
    OneItem(w, UnknownItem);
    var texts := SystemTexts(s);
    if texts != [] {
      TextPartsAgree(texts);
      JoinNotEmpty(texts);
      var i := MessageItem("developer", PartsContent(TextParts(texts)));
      OneItem(w, i);
      assert LineOf(w, i) == [Line("system", "", Join(texts, "\n\n"), [])] by { UserIsUser(); NotTheUser(); }
    }
  }

  lemma NotTheUser()
    ensures "system" != "user"
  {
    assert "system"[0] != "user"[0];
  }

  /** The way through a Responses request says the same, line by line and call by call,
      except that the images in the text of a tool result travel apart. */
  lemma ComposedSays(w: Wire, s: SystemPrompt, ts: seq<Turn>)
    ensures LinesOf(w, InputItems(s, ts)) == SystemLines(s) + SentLines(w, TurnsLines(ts))
    ensures CallsOf(w, InputItems(s, ts)) == TurnsCalls(ts)
    ensures LinesIn(Composed(w, s, ts).messages) == SystemLines(s) + SentLines(w, TurnsLines(ts))
    ensures N.CallsIn(Composed(w, s, ts).messages) == TurnsCalls(ts)
  {
    hide LinesOf, CallsOf, SystemItems, SystemLines, TurnsItems, SentLines, LinesIn, N.CallsIn;
    SystemSays(w, s);
    TurnsSay(w, ts);
    ItemsAppend(w, SystemItems(s), TurnsItems(ts));
    HistorySaid(w, Started([]), InputItems(s, ts));
    CallsBuilt(w, Started([]), InputItems(s, ts));
    NothingRead();
  }
}
