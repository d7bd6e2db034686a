/** What the history of a Responses request says, and what of it the upstream is
    told: texts, images and calls, read off the messages that are sent. */
module ResponsesHistory {
  import opened Common
  import opened ChatChunks
  import opened ChatMessages
  import opened ResponsesInput
  import N = Normalize
  import M = ToolOutputMedia
  import T = NamespaceTools
  import A = ResponsesAssembly
  import P = ResponsesProtocol
  import B = ResponsesBatch

  // ----- Messages line by line -----

  /** A message without its calls: who says it, which call it answers, its text and
      its images. */
  datatype Line = Line(role: string, callId: string, text: string, images: seq<string>)

  function LinesIn(ms: seq<Message>): seq<Line> {
    if ms == [] then []
    else
      var m := Last(ms);
      LinesIn(Init(ms))
      + (if m.content.Absent? then [] else [Line(m.role, m.callId, ContentText(m.content), N.ImagesOf(m.content))])
  }

  function Speaker(role: string): string {
    if IsBlank(role) then "user" else if LowerAll(Trimmed(role)) == "developer" then "system" else role
  }

  function ImageUrls(ps: seq<ItemPart>): seq<string> {
    if ps == [] then []
    else ImageUrls(Init(ps)) + (if Last(ps).ImageOf? && Last(ps).url != "" then [Last(ps).url] else [])
  }

  function TextSaid(c: ItemContent): string {
    match c
    case FallbackText(text) => text
    case StringContent(text) => text
    case PartsContent(ps) => Join(PartTexts(ps), "\n\n")
    case SinglePart(part) => if part.ImageOf? then "" else part.text
  }

  /** Of the images in an array of parts only those of the user are shown. */
  function ImagesShown(c: ItemContent, role: string): seq<string> {
    match c
    case PartsContent(ps) => if role == "user" then ImageUrls(ps) else []
    case SinglePart(part) => if part.ImageOf? then [part.url] else []
    case _ => []
  }

  /** The tree an output is searched in for images. */
  function TreeOf(w: Wire, v: M.Json): Option<M.Json> {
    if v.Str? then w.decode(v.s) else Some(v)
  }

  /** The images taken out of an output. */
  function ImagesTaken(w: Wire, output: Option<M.Json>): seq<string> {
    if output.None? then []
    else if output.value.Str? && M.IsDataUrl(output.value.s) then [output.value.s]
    else if TreeOf(w, output.value).Some? then M.MediaOf(TreeOf(w, output.value).value)
    else []
  }

  /** The text that answers a call. */
  function AnswerText(w: Wire, output: Option<M.Json>, raw: string): string {
    if output.None? then ""
    else if output.value.Str? && M.IsDataUrl(output.value.s) then "[" + "Tool output media moved to the following user message]"
    else if ImagesTaken(w, output) != [] then w.encode(M.Replaced(TreeOf(w, output.value).value))
    else if output.value.Str? then output.value.s
    else raw
  }

  /** What an item of the history says. */
  function LineOf(w: Wire, i: Item): seq<Line> {
    match i
    case TextItem(text) => [Line("user", "", text, [])]
    case ImageItem(url) => [Line("user", "", "", [url])]
    case MessageItem(role, content) =>
      [Line(Speaker(role), "", TextSaid(content), ImagesShown(content, Speaker(role)))]
    case CallOutput(callId, output, raw) => [Line("tool", callId, AnswerText(w, output, raw), [])]
    case _ => []
  }

  function LinesOf(w: Wire, items: seq<Item>): seq<Line> {
    if items == [] then [] else LinesOf(w, Init(items)) + LineOf(w, Last(items))
  }

  lemma OutputTells(w: Wire, output: Option<M.Json>, raw: string)
    ensures var found := M.Extracted(w.decode, w.encode, output);
            && (found.Some? <==> ImagesTaken(w, output) != [])
            && (found.Some? ==> found.value.1 == ImagesTaken(w, output))
            && (if found.Some? then found.value.0 else OutputText(output, raw)) == AnswerText(w, output, raw)
  {
    hide M.IsDataUrl, M.MediaOf, M.Replaced;
  }

  function OnePart(p: ItemPart): seq<Part> {
    match p
    case TextOf(text) => if text == "" then [] else [TextPart(text)]
    case ImageOf(url) => if url == "" then [] else [ImagePart(url)]
    case OtherPart(_) => []
  }

  lemma OnePartTells(before: seq<Part>, p: ItemPart)
    ensures N.UrlsOf(before + OnePart(p)) == N.UrlsOf(before) + (if p.ImageOf? && p.url != "" then [p.url] else [])
    ensures TextsOf(before + OnePart(p)) == TextsOf(before) + (if p.TextOf? && p.text != "" then [p.text] else [])
    ensures HasImage(before + OnePart(p)) <==> HasImage(before) || (p.ImageOf? && p.url != "")
  {
    hide N.UrlsOf, TextsOf, HasImage;
    match p
    case TextOf(text) =>
      assert text == "" ==> before + [] == before;
      UrlsSnoc(before, TextPart(text));
    case ImageOf(url) =>
      assert url == "" ==> before + [] == before;
      UrlsSnoc(before, ImagePart(url));
    case OtherPart(_) =>
      assert before + [] == before;
  }

  lemma UrlsSnoc(ps: seq<Part>, p: Part)
    ensures N.UrlsOf(ps + [p]) == N.UrlsOf(ps) + (if p.ImagePart? then [p.url] else [])
    ensures TextsOf(ps + [p]) == TextsOf(ps) + (if p.TextPart? && p.text != "" then [p.text] else [])
    ensures HasImage(ps + [p]) <==> HasImage(ps) || p.ImagePart?
  {
    InitOfSnoc(ps, p);
    var more := ps + [p];
    assert more[|ps|] == p && forall i | 0 <= i < |ps| :: more[i] == ps[i];
  }

  lemma ChatPartsSnoc(ps: seq<ItemPart>)
    ensures ps != [] ==> ChatParts(ps) == ChatParts(Init(ps)) + OnePart(Last(ps))
    ensures ps == [] ==> ChatParts(ps) == []
  {
  }

  lemma {:induction false} PartsTell(ps: seq<ItemPart>)
    ensures N.UrlsOf(ChatParts(ps)) == ImageUrls(ps) && TextsOf(ChatParts(ps)) == PartTexts(ps)
    ensures HasImage(ChatParts(ps)) <==> ImageUrls(ps) != []
  {
    ChatPartsSnoc(ps);
    hide ChatParts;
    if ps != [] {
      PartsTell(Init(ps));
      OnePartTells(ChatParts(Init(ps)), Last(ps));
      hide OnePart, N.UrlsOf, TextsOf, HasImage;
    }
  }

  /** Texts and images of an array keep their places among each other. */
  lemma {:induction false} PartsInOrder(a: seq<ItemPart>, b: seq<ItemPart>, p: ItemPart)
    ensures ChatParts(a + b) == ChatParts(a) + ChatParts(b)
    ensures ChatParts([p]) == match p
                              case TextOf(text) => if text == "" then [] else [TextPart(text)]
                              case ImageOf(url) => if url == "" then [] else [ImagePart(url)]
                              case OtherPart(_) => []
  {
    ChatPartsSnoc([p]);
    ChatPartsSnoc([]);
    ChatPartsSnoc(b);
    ChatPartsSnoc(a + b);
    hide ChatParts;
    assert Init([p]) == [] && Last([p]) == p;
    if b == [] {
      assert a + b == a;
    } else {
      assert Init(a + b) == a + Init(b) && Last(a + b) == Last(b);
      PartsInOrder(a, Init(b), p);
      Associates(ChatParts(a), ChatParts(Init(b)), OnePart(Last(b)));
    }
  }

  lemma OneUrl(url: string)
    ensures N.UrlsOf([ImagePart(url)]) == [url] && TextsOf([ImagePart(url)]) == []
  {
    assert Init([ImagePart(url)]) == [] && N.UrlsOf([]) == [] && TextsOf([]) == [];
  }

  lemma ContentTells(c: ItemContent, role: string)
    ensures var chat := ContentToChat(c, role);
            !chat.Absent? && ContentText(chat) == TextSaid(c) && N.ImagesOf(chat) == ImagesShown(c, role)
  {
    match c
    case PartsContent(ps) =>
      hide ChatParts, PartTexts, ImageUrls, Join, N.UrlsOf, TextsOf;
      PartsTell(ps);
    case SinglePart(part) =>
      if part.ImageOf? {
        OneUrl(part.url);
      }
    case _ =>
  }

  lemma LinesSnoc(ms: seq<Message>, m: Message)
    ensures LinesIn(ms + [m])
            == LinesIn(ms)
               + if m.content.Absent? then [] else [Line(m.role, m.callId, ContentText(m.content), N.ImagesOf(m.content))]
  {
    InitOfSnoc(ms, m);
  }

  lemma CallAddsNoLine(ms: seq<Message>, call: ToolCall, pending: string)
    ensures LinesIn(WithCall(ms, call, pending)) == LinesIn(ms)
  {
    hide ContentText, N.ImagesOf;
    if ms != [] && Last(ms).role == ASSISTANT {
      var m := Last(ms);
      assert ms == Init(ms) + [m];
      LinesSnoc(Init(ms), m);
      LinesSnoc(Init(ms), m.(calls := m.calls + [call], reasoning := if m.reasoning == "" then pending else m.reasoning));
    } else {
      LinesSnoc(ms, Message(ASSISTANT, Absent, pending, [call], ""));
    }
  }

  lemma OneImageTells(url: string)
    ensures ContentText(Parts([ImagePart(url)])) == "" && N.ImagesOf(Parts([ImagePart(url)])) == [url]
  {
    OneUrl(url);
  }

  lemma ItemSays(w: Wire, b: Built, i: Item)
    ensures LinesIn(AfterItem(w, b, i).messages) == LinesIn(b.messages) + LineOf(w, i)
  {
    hide M.Extracted, M.MediaOf, M.IsDataUrl, M.Replaced, ContentToChat, LinesIn, WithCall, TextSaid, ImagesShown, AnswerText,
         IsBlank, Trimmed, LowerAll, Join;
    match i
    case FunctionCall(_, _, _, _) => CallAddsNoLine(b.messages, CallOf(w, i).value, b.pending);
    case SearchCall(_, _) => CallAddsNoLine(b.messages, CallOf(w, i).value, b.pending);
    case CustomCall(_, _, _) => CallAddsNoLine(b.messages, CallOf(w, i).value, b.pending);
    case CallOutput(callId, output, raw) =>
      OutputTells(w, output, raw);
      LinesSnoc(b.messages, Last(AfterItem(w, b, i).messages));
    case MessageItem(role, content) =>
      ContentTells(content, BridgeRole(role));
      LinesSnoc(b.messages, Last(AfterItem(w, b, i).messages));
    case TextItem(text) => LinesSnoc(b.messages, Plain(USER, text));
    case ImageItem(url) =>
      OneImageTells(url);
      LinesSnoc(b.messages, Message(USER, Parts([ImagePart(url)]), "", [], ""));
    case _ =>
  }

  /** Everything said in the history is said to the upstream, once and in order, by
      the same speaker, with the same text and images. */
  lemma {:induction false} HistorySaid(w: Wire, b: Built, items: seq<Item>)
    ensures LinesIn(AfterItems(w, b, items).messages) == LinesIn(b.messages) + LinesOf(w, items)
  {
    if items != [] {
      hide AfterItem, LineOf, LinesIn;
      HistorySaid(w, b, Init(items));
      ItemSays(w, AfterItems(w, b, Init(items)), Last(items));
      Associates(LinesIn(b.messages), LinesOf(w, Init(items)), LineOf(w, Last(items)));
    }
  }

  // ----- Calls -----

  /** A call of the history reaches the upstream under its own id, name and
      arguments; a namespaced one under the flat name of its tool. */
  lemma CallTells(w: Wire, i: Item)
    ensures i.FunctionCall? ==>
              CallOf(w, i) == Some(ToolCall(i.callId, CallOf(w, i).value.name, if IsBlank(i.arguments) then "{}" else i.arguments))
              && (i.namespace == "" ==> CallOf(w, i).value.name == i.name)
              && (i.namespace != "" && T.ByteLen(i.namespace + "__" + i.name) <= 64 ==>
                    CallOf(w, i).value.name == i.namespace + "__" + i.name)
    ensures i.SearchCall? ==>
              CallOf(w, i) == Some(ToolCall(i.callId, "tool_search",
                                            if i.arguments == "" || i.arguments == "null" then "{}" else i.arguments))
    ensures i.CustomCall? ==> CallOf(w, i) == Some(ToolCall(i.callId, i.name, w.wrapInput(i.input)))
    ensures !i.FunctionCall? && !i.SearchCall? && !i.CustomCall? ==> CallOf(w, i).None?
  {
    hide T.ByteLen;
  }

  /** The item of a call of a response, sent back in the history. */
  function SentBack(c: P.Content): Item {
    match c
    case FunctionItem(id, name, namespace, arguments) => FunctionCall(if id.Given? then id.id else "", namespace, name, arguments)
    case CustomItem(id, name, input) => CustomCall(if id.Given? then id.id else "", name, input)
    case SearchItem(id, arguments) => SearchCall(if id.Given? then id.id else "", arguments)
    case ReasoningItem(summary) => ReasoningItem(summary)
    case MessageItem(text) => MessageItem(ASSISTANT, StringContent(text))
  }

  lemma {:induction false} ConvertedNames(hash: string -> T.Digest, ds: seq<T.Declaration>, n: string)
    ensures T.CountNamed(T.Converted(hash, ds), n) > 0
            <==> T.Names(ds, n) || (T.Search in ds && n == "tool_search") ||
                 exists d :: d in ds && d.Child? && T.FlatOf(hash, d) == n
  {
    hide T.FlatOf, T.Names, T.HasChild;
    if ds == [] {
      assert !T.Names(ds, n) by { T.NothingNamed(); }
    } else {
      var before, d := Init(ds), Last(ds);
      assert ds == before + [d];
      ConvertedNames(hash, before, n);
      T.CountSnoc(T.Converted(hash, before), T.ConvertedOne(hash, before, d), n);
      T.NamesAppend(before, [d], n);
      NamesOne(d, n);
      if d.Child? {
        ChildNamed(hash, before, d);
      }
    }
  }

  lemma NamesOne(d: T.Declaration, n: string)
    ensures T.Names([d], n) <==> d.TopLevel? && d.tool.name == n
  {
    if d.TopLevel? && d.tool.name == n {
      assert [d][0] == d;
    }
  }

  /** A child either stands for a tool of its own or was converted before. */
  lemma ChildNamed(hash: string -> T.Digest, before: seq<T.Declaration>, d: T.Declaration)
    requires d.Child?
    ensures if T.HasChild(before, d.namespace, d.tool.name) then
              T.ConvertedOne(hash, before, d) == [] && exists e :: e in before && e.Child? && T.FlatOf(hash, e) == T.FlatOf(hash, d)
            else |T.ConvertedOne(hash, before, d)| == 1 && T.ConvertedOne(hash, before, d)[0].name == T.FlatOf(hash, d)
  {
    hide T.FlatName;
    if T.HasChild(before, d.namespace, d.tool.name) {
      var i :| 0 <= i < |before| && before[i].Child? && before[i].namespace == d.namespace && before[i].tool.name == d.tool.name;
      assert before[i] in before && T.FlatOf(hash, before[i]) == T.FlatOf(hash, d);
    }
  }

  lemma {:induction false} ChildNamesOf(namespace: string, ts: seq<T.Tool>, d: T.Declaration)
    requires d in T.ChildDeclarations(namespace, ts)
    ensures d.Child? && d.namespace == namespace && d.tool.name != ""
  {
    if d in T.ChildDeclarations(namespace, Init(ts)) {
      ChildNamesOf(namespace, Init(ts), d);
    }
  }

  /** Namespaced tools have a namespace and a name. */
  lemma {:induction false} ChildrenNamed(ts: seq<T.Tool>, d: T.Declaration)
    requires d in T.Declarations(ts) && d.Child?
    ensures d.namespace != "" && d.tool.name != ""
  {
    if d in T.Declarations(Init(ts)) {
      ChildrenNamed(Init(ts), d);
    } else {
      var t := Last(ts);
      assert d in T.DeclarationsOf(t);
      if t.kind == T.NAMESPACE && t.name != "" {
        ChildNamesOf(t.name, T.ChildrenOf(t), d);
      }
    }
  }

  /** The round trip of a call: the upstream calls a tool it was given, the client gets
      the restored item and sends it back with the next request, and the upstream
      finds the very same call in its history. */
  lemma CallComesBack(cfg: A.Config, w: Wire, tools: seq<T.Tool>, call: ToolCall)
    requires T.Unambiguous(w.hash, T.Declarations(tools)) && T.Describes(cfg, w.hash, T.Declarations(tools))
    requires T.CountNamed(T.Converted(w.hash, T.Declarations(tools)), call.name) > 0
    ensures var ds := T.Declarations(tools);
            var back := CallOf(w, SentBack(B.BatchItem(cfg, call)));
            var whole := if IsBlank(call.arguments) then "{}" else call.arguments;
            && back.Some? && back.value.id == call.id && back.value.name == call.name
            && (if call.name != "" && T.NamesCustom(ds, call.name) then back.value.arguments == w.wrapInput(cfg.inputOf(whole))
                else if T.Search in ds && call.name == "tool_search" then
                  back.value.arguments == if whole == "null" then "{}" else whole
                else back.value.arguments == whole)
  {
    hide T.ByteLen, T.FlatName, T.Names, T.NamesCustom, T.Converted, T.CountNamed, T.Declarations;
    var ds := T.Declarations(tools);
    ConvertedNames(w.hash, ds, call.name);
    assert !IsBlank("{}");
    if d :| d in ds && d.Child? && T.FlatOf(w.hash, d) == call.name {
      ChildrenNamed(tools, d);
      ChildComesBack(cfg, w, ds, call, d);
    } else {
      T.RestoreKeys(w.hash, ds, call.name);
      T.TopLevelComesBack(cfg, w.hash, ds, call.name);
      if T.NamesCustom(ds, call.name) {
        T.CustomIsNamed(ds, call.name);
      }
    }
  }

  lemma ChildComesBack(cfg: A.Config, w: Wire, ds: seq<T.Declaration>, call: ToolCall, d: T.Declaration)
    requires T.Unambiguous(w.hash, ds) && T.Describes(cfg, w.hash, ds) && d in ds && d.Child? && T.FlatOf(w.hash, d) == call.name
    requires d.namespace != ""
    ensures !T.NamesCustom(ds, call.name) && call.name != "tool_search"
    ensures CallOf(w, SentBack(B.BatchItem(cfg, call)))
            == Some(ToolCall(call.id, call.name, if IsBlank(call.arguments) then "{}" else call.arguments))
  {
    hide T.ByteLen, T.FlatName, T.Names, T.NamesCustom;
    T.NamespacedComesBack(cfg, w.hash, ds, d);
    if T.NamesCustom(ds, call.name) {
      T.CustomIsNamed(ds, call.name);
    }
  }

  // ----- Images of tool outputs -----

  /** The last output of the history for a call id. */
  function LastOutput(items: seq<Item>, id: string): (r: Option<Item>)
    ensures r.Some? ==> r.value.CallOutput? && r.value.callId == id
  {
    if items == [] then None
    else if Last(items).CallOutput? && Last(items).callId == id then Some(Last(items))
    else LastOutput(Init(items), id)
  }

  /** The images in the last output of a call. */
  function ImagesOfCall(w: Wire, items: seq<Item>, id: string): seq<string> {
    var o := LastOutput(items, id);
    if id == "" || o.None? then [] else ImagesTaken(w, o.value.output)
  }

  function UrlsAt(media: N.Media, id: string): seq<string> {
    if id in media then N.UrlsOf(media[id]) else []
  }

  lemma {:induction false} ImagePartsUrls(urls: seq<string>)
    ensures N.UrlsOf(ImageParts(urls)) == urls
  {
    if urls != [] {
      ImagePartsUrls(Init(urls));
      assert ImageParts(urls) == ImageParts(Init(urls)) + [ImagePart(Last(urls))];
      InitOfSnoc(ImageParts(Init(urls)), ImagePart(Last(urls)));
    }
  }

  /** What the builder remembers for a call id are the images of its last output. */
  lemma {:induction false} MediaRemembered(w: Wire, b: Built, items: seq<Item>, id: string)
    requires b.media == map[]
    ensures var media := AfterItems(w, b, items).media;
            (id in media <==> ImagesOfCall(w, items, id) != []) && UrlsAt(media, id) == ImagesOfCall(w, items, id)
  {
    if items != [] {
      hide AfterItem, ImagesTaken, N.UrlsOf;
      MediaRemembered(w, b, Init(items), id);
      MediaStep(w, AfterItems(w, b, Init(items)), Last(items), id);
    }
  }

  lemma MediaStep(w: Wire, b: Built, i: Item, id: string)
    requires id == "" ==> id !in b.media
    ensures var media := AfterItem(w, b, i).media;
            if id != "" && i.CallOutput? && i.callId == id then
              (id in media <==> ImagesTaken(w, i.output) != []) && UrlsAt(media, id) == ImagesTaken(w, i.output)
            else (id in media <==> id in b.media) && UrlsAt(media, id) == UrlsAt(b.media, id)
  {
    hide M.Extracted, ImagesTaken, BridgeRole, ContentToChat, WithCall, N.UrlsOf, AnswerText, OutputText;
    if i.CallOutput? {
      OutputTells(w, i.output, i.raw);
      var found := M.Extracted(w.decode, w.encode, i.output);
      if found.Some? {
        ImagePartsUrls(found.value.1);
      }
    }
  }

  /** A history that starts without replies gets its replies from the outputs, each
      with the text that answers the call. */
  lemma {:induction false} RepliesBuilt(w: Wire, b: Built, items: seq<Item>, id: string)
    requires id != "" && forall m | m in b.messages :: !IsReply(m)
    ensures var r, o := N.LastReply(AfterItems(w, b, items).messages, id), LastOutput(items, id);
            && (r.Some? <==> o.Some?)
            && (r.Some? ==> r.value == Message(TOOL, Str(AnswerText(w, o.value.output, o.value.raw)), "", [], id))
  {
    if items == [] {
      NoReplies(b.messages, id);
    } else {
      hide AfterItem;
      RepliesBuilt(w, b, Init(items), id);
      ReplyStep(w, AfterItems(w, b, Init(items)), Last(items), id);
    }
  }

  lemma NoReplies(ms: seq<Message>, id: string)
    requires id != "" && forall m | m in ms :: !IsReply(m)
    ensures N.LastReply(ms, id).None?
  {
  }

  lemma ReplySnoc(ms: seq<Message>, m: Message, id: string)
    ensures N.LastReply(ms + [m], id) == if m.role == TOOL && m.callId == id then Some(m) else N.LastReply(ms, id)
  {
    InitOfSnoc(ms, m);
  }

  lemma ReplyStep(w: Wire, b: Built, i: Item, id: string)
    requires id != ""
    ensures N.LastReply(AfterItem(w, b, i).messages, id)
            == if i.CallOutput? && i.callId == id then
                 Some(Message(TOOL, Str(AnswerText(w, i.output, i.raw)), "", [], id))
               else N.LastReply(b.messages, id)
  {
    hide M.Extracted, AnswerText, BridgeRole, ContentToChat, N.LastReply;
    var ms := b.messages;
    match i
    case CallOutput(_, output, raw) =>
      OutputTells(w, output, raw);
      ReplySnoc(ms, Last(AfterItem(w, b, i).messages), id);
    case FunctionCall(_, _, _, _) => CallNoReply(ms, CallOf(w, i).value, b.pending, id);
    case SearchCall(_, _) => CallNoReply(ms, CallOf(w, i).value, b.pending, id);
    case CustomCall(_, _, _) => CallNoReply(ms, CallOf(w, i).value, b.pending, id);
    case MessageItem(_, _) => ReplySnoc(ms, Last(AfterItem(w, b, i).messages), id);
    case TextItem(_) => ReplySnoc(ms, Last(AfterItem(w, b, i).messages), id);
    case ImageItem(_) => ReplySnoc(ms, Last(AfterItem(w, b, i).messages), id);
    case _ =>
  }

  lemma CallNoReply(ms: seq<Message>, call: ToolCall, pending: string, id: string)
    ensures N.LastReply(WithCall(ms, call, pending), id) == N.LastReply(ms, id)
  {
    assert ASSISTANT[0] != TOOL[0];
    if ms != [] && Last(ms).role == ASSISTANT {
      var m := Last(ms);
      assert ms == Init(ms) + [m];
      ReplySnoc(Init(ms), m, id);
      ReplySnoc(Init(ms), m.(calls := m.calls + [call], reasoning := if m.reasoning == "" then pending else m.reasoning), id);
    } else {
      ReplySnoc(ms, Message(ASSISTANT, Absent, pending, [call], ""), id);
    }
  }

  /** The calls that have an id and an output. */
  function AnsweredCalls(items: seq<Item>, ts: seq<ToolCall>): seq<ToolCall> {
    if ts == [] then []
    else
      AnsweredCalls(items, Init(ts)) + (if Last(ts).id != "" && LastOutput(items, Last(ts).id).Some? then [Last(ts)] else [])
  }

  function ImagesOfCalls(w: Wire, items: seq<Item>, ts: seq<ToolCall>): seq<string> {
    if ts == [] then [] else ImagesOfCalls(w, items, Init(ts)) + ImagesOfCall(w, items, Last(ts).id)
  }

  lemma {:induction false} AnsweredAre(w: Wire, b: Built, items: seq<Item>, ts: seq<ToolCall>)
    requires forall m | m in b.messages :: !IsReply(m)
    ensures N.Answered(AfterItems(w, b, items).messages, ts) == AnsweredCalls(items, ts)
  {
    if ts != [] {
      hide AfterItems, LastOutput, N.LastReply;
      AnsweredAre(w, b, items, Init(ts));
      if Last(ts).id != "" {
        RepliesBuilt(w, b, items, Last(ts).id);
      }
    }
  }

  lemma {:induction false} MediaImagesAre(w: Wire, b: Built, items: seq<Item>, ts: seq<ToolCall>)
    requires b.media == map[]
    ensures N.MediaImages(AfterItems(w, b, items).media, ts) == ImagesOfCalls(w, items, ts)
  {
    if ts != [] {
      hide AfterItems, ImagesOfCall;
      MediaImagesAre(w, b, items, Init(ts));
      MediaRemembered(w, b, items, Last(ts).id);
    }
  }

  /** The images of messages that only made calls nobody answered. */
  function DanglingImages(all: seq<Message>, ms: seq<Message>): seq<string> {
    if ms == [] then []
    else DanglingImages(all, Init(ms)) + (if N.Dangling(all, Last(ms)) then N.ImagesOf(Last(ms).content) else [])
  }

  ghost predicate PlainReplies(ms: seq<Message>) {
    forall m | m in ms && m.role == TOOL && m.callId != "" :: N.ImagesOf(m.content) == []
  }

  lemma {:induction false} NoReplyImages(all: seq<Message>, ts: seq<ToolCall>)
    requires PlainReplies(all) && N.EachAnswered(all, ts)
    ensures N.ReplyImages(all, ts) == []
  {
    if ts != [] {
      hide N.ImagesOf;
      NoReplyImages(all, Init(ts));
      assert N.IsAnswered(all, ts[|ts| - 1]);
    }
  }

  lemma OneAccounted(all: seq<Message>, m: Message, media: N.Media)
    requires PlainReplies(all) && m in all
    ensures multiset(N.ImagesFor(all, m, media)) + multiset(if N.Dangling(all, m) then N.ImagesOf(m.content) else [])
            == multiset(N.ImagesOf(m.content))
               + multiset(N.MediaImages(media, N.Answered(all, if m.role == TOOL then [] else m.calls)))
  {
    hide N.ImagesOf, N.LastReply, N.IsAnswered, N.MediaImages;
    var calls := if m.role == TOOL then [] else m.calls;
    assert N.Answered(all, []) == [];
    assert N.MediaImages(media, []) == [] by { NoMediaImages(media); }
    N.AnsweredNone(all, calls);
    NoReplyImages(all, N.Answered(all, calls));
    hide N.Answered, N.ReplyImages;
  }

  lemma NoMediaImages(media: N.Media)
    ensures N.MediaImages(media, []) == []
  {
  }

  lemma {:induction false} MediaImagesAppend(media: N.Media, a: seq<ToolCall>, b: seq<ToolCall>)
    ensures N.MediaImages(media, a + b) == N.MediaImages(media, a) + N.MediaImages(media, b)
  {
    if b == [] {
      assert a + b == a;
    } else {
      assert Init(a + b) == a + Init(b);
      MediaImagesAppend(media, a, Init(b));
    }
  }

  lemma {:induction false} Accounted(all: seq<Message>, ms: seq<Message>, media: N.Media)
    requires PlainReplies(all) && forall m | m in ms :: m in all
    ensures multiset(N.ImagesForAll(all, ms, media)) + multiset(DanglingImages(all, ms))
            == multiset(N.ImagesIn(ms)) + multiset(N.MediaImages(media, N.Answered(all, N.CallsIn(ms))))
  {
    if ms == [] {
      assert N.Answered(all, []) == [] && N.MediaImages(media, []) == [];
    } else {
      var before, m := Init(ms), Last(ms);
      assert ms == before + [m];
      var calls := if m.role == TOOL then [] else m.calls;
      hide N.ImagesForAll, N.ImagesFor, N.ImagesOf, N.ImagesIn, N.MediaImages, N.Answered, N.Dangling, N.CallsIn, DanglingImages,
           PlainReplies;
      Accounted(all, before, media);
      OneAccounted(all, m, media);
      AccountSnoc(all, before, m, media);
      SumsAgree(
        N.ImagesForAll(all, before, media), N.ImagesFor(all, m, media),
        DanglingImages(all, before), if N.Dangling(all, m) then N.ImagesOf(m.content) else [],
        N.ImagesIn(before), N.ImagesOf(m.content),
        N.MediaImages(media, N.Answered(all, N.CallsIn(before))), N.MediaImages(media, N.Answered(all, calls)));
    }
  }

  lemma SumsAgree<X>(a: seq<X>, a1: seq<X>, b: seq<X>, b1: seq<X>, c: seq<X>, c1: seq<X>, d: seq<X>, d1: seq<X>)
    requires multiset(a) + multiset(b) == multiset(c) + multiset(d)
    requires multiset(a1) + multiset(b1) == multiset(c1) + multiset(d1)
    ensures multiset(a + a1) + multiset(b + b1) == multiset(c + c1) + multiset(d + d1)
  {
    assert multiset(a + a1) + multiset(b + b1) == (multiset(a) + multiset(b)) + (multiset(a1) + multiset(b1));
  }

  lemma AccountSnoc(all: seq<Message>, before: seq<Message>, m: Message, media: N.Media)
    ensures var ms, calls := before + [m], if m.role == TOOL then [] else m.calls;
            && N.ImagesForAll(all, ms, media) == N.ImagesForAll(all, before, media) + N.ImagesFor(all, m, media)
            && DanglingImages(all, ms)
               == DanglingImages(all, before) + (if N.Dangling(all, m) then N.ImagesOf(m.content) else [])
            && N.ImagesIn(ms) == N.ImagesIn(before) + N.ImagesOf(m.content)
            && N.MediaImages(media, N.Answered(all, N.CallsIn(ms)))
               == N.MediaImages(media, N.Answered(all, N.CallsIn(before))) + N.MediaImages(media, N.Answered(all, calls))
  {
    InitOfSnoc(before, m);
    hide N.ImagesFor, N.ImagesOf, N.MediaImages, N.Answered, N.Dangling;
    var calls := if m.role == TOOL then [] else m.calls;
    N.AnsweredAppend(all, N.CallsIn(before), calls);
    MediaImagesAppend(media, N.Answered(all, N.CallsIn(before)), N.Answered(all, calls));
  }

  /** All images of these lines. */
  function ImagesSaid(ls: seq<Line>): seq<string> {
    if ls == [] then [] else ImagesSaid(Init(ls)) + Last(ls).images
  }

  lemma ImagesSaidSnoc(ls: seq<Line>, l: Line)
    ensures ImagesSaid(ls + [l]) == ImagesSaid(ls) + l.images
  {
    InitOfSnoc(ls, l);
  }

  lemma {:induction false} ImagesSaidAppend(a: seq<Line>, b: seq<Line>)
    ensures ImagesSaid(a + b) == ImagesSaid(a) + ImagesSaid(b)
  {
    if b == [] {
      assert a + b == a && ImagesSaid(b) == [];
    } else {
      hide ImagesSaid;
      assert a + b == a + Init(b) + [Last(b)] && b == Init(b) + [Last(b)];
      ImagesSaidAppend(a, Init(b));
      ImagesSaidSnoc(a + Init(b), Last(b));
      ImagesSaidSnoc(Init(b), Last(b));
      Associates(ImagesSaid(a), ImagesSaid(Init(b)), Last(b).images);
    }
  }

  lemma {:induction false} ImagesOnLines(ms: seq<Message>)
    ensures ImagesSaid(LinesIn(ms)) == N.ImagesIn(ms)
  {
    if ms != [] {
      var m := Last(ms);
      ImagesOnLines(Init(ms));
      if m.content.Absent? {
        assert LinesIn(ms) == LinesIn(Init(ms));
      } else {
        var line := Line(m.role, m.callId, ContentText(m.content), N.ImagesOf(m.content));
        InitOfSnoc(LinesIn(Init(ms)), line);
      }
    }
  }

  lemma {:induction false} RepliesPlain(w: Wire, b: Built, items: seq<Item>)
    requires forall m | m in b.messages :: !IsReply(m)
    ensures PlainReplies(AfterItems(w, b, items).messages)
  {
    if items != [] {
      hide AfterItem, N.ImagesOf;
      RepliesPlain(w, b, Init(items));
      PlainStep(w, AfterItems(w, b, Init(items)), Last(items));
    }
  }

  lemma PlainStep(w: Wire, b: Built, i: Item)
    requires PlainReplies(b.messages)
    ensures PlainReplies(AfterItem(w, b, i).messages)
  {
    hide M.Extracted, BridgeRole, ContentToChat;
    assert ASSISTANT[0] != TOOL[0];
    var ms, more := b.messages, AfterItem(w, b, i).messages;
    forall m | m in more && m.role == TOOL && m.callId != "" ensures N.ImagesOf(m.content) == [] {
      if m !in ms {
        assert i.CallOutput?;
      }
    }
  }

  /** No image is lost or doubled: what reaches the upstream are the images said in the
      history and, for every call that has an output, those of its last output; only
      a message that made nothing but unanswered calls takes its own with it. */
  lemma ImagesConserved(w: Wire, start: seq<Message>, items: seq<Item>)
    requires forall m | m in start :: !IsReply(m)
    requires N.CallsIn(start) == [] && N.ImagesIn(start) == []
    ensures var built := AfterItems(w, Started(start), items);
            multiset(N.ImagesIn(N.Normalized(built.messages, built.media)))
            + multiset(DanglingImages(built.messages, built.messages))
            == multiset(ImagesSaid(LinesOf(w, items)))
               + multiset(ImagesOfCalls(w, items, AnsweredCalls(items, CallsOf(w, items))))
  {
    var b := Started(start);
    var built := AfterItems(w, b, items);
    hide AfterItems, LinesIn, LinesOf, CallsOf, N.ImagesIn, N.Normalized, DanglingImages, N.CallsIn, N.Answered, ImagesSaid,
         PlainReplies;
    RepliesPlain(w, b, items);
    N.NormalizedImages(built.messages, built.media);
    Accounted(built.messages, built.messages, built.media);
    CallsBuilt(w, b, items);
    assert [] + CallsOf(w, items) == CallsOf(w, items);
    AnsweredAre(w, b, items, CallsOf(w, items));
    MediaImagesAre(w, b, items, AnsweredCalls(items, CallsOf(w, items)));
    HistorySaid(w, b, items);
    ImagesOnLines(start);
    ImagesOnLines(built.messages);
    ImagesSaidAppend(LinesIn(start), LinesOf(w, items));
    assert [] + ImagesSaid(LinesOf(w, items)) == ImagesSaid(LinesOf(w, items));
  }
}
