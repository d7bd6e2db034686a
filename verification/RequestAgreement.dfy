/** The rest of an Anthropic request on its two ways to Chat Completions: tools,
    tool choice and sampling settings, and when the whole requests are equal. */
module RequestAgreement {
  import opened Common
  import opened ChatChunks
  import opened ChatMessages
  import opened ResponsesInput
  import opened RequestConditions
  import opened RequestEquality
  import opened RequestTranslation
  import N = Normalize
  import M = ToolOutputMedia
  import T = NamespaceTools

  datatype AnthropicTool = AnthropicTool(kind: string, name: string, description: string, schema: string)

  const WEB_SEARCH := "web_search"

  // ----- Tools -----

  /** anthropicToolsToChatTools; `normalize` is normalizeToolParameters. */
  function DirectTools(normalize: string -> string, ts: seq<AnthropicTool>): seq<T.ChatTool> {
    if ts == [] then []
    else
      DirectTools(normalize, Init(ts)) +
      (if WEB_SEARCH <= Last(ts).kind then []
       else [T.ChatTool(Last(ts).name, Last(ts).description, normalize(Last(ts).schema), Some(false))])
  }

  /** convertAnthropicToolsToResponses */
  function ResponsesTools(normalize: string -> string, ts: seq<AnthropicTool>): seq<T.Tool> {
    if ts == [] then []
    else
      ResponsesTools(normalize, Init(ts)) +
      [if WEB_SEARCH <= Last(ts).kind then T.Tool(WEB_SEARCH, "", "", "", None, [], [])
       else T.Tool(T.FUNCTION, Last(ts).name, Last(ts).description, normalize(Last(ts).schema), Some(false), [], [])]
  }

  /** anthropicToolsToChatTools */
  method ToChatTools(normalize: string -> string, ts: seq<AnthropicTool>) returns (out: seq<T.ChatTool>)
    ensures out == DirectTools(normalize, ts)
  {
    out := [];
    for i := 0 to |ts|
      invariant out == DirectTools(normalize, ts[..i])
    {
      assert Init(ts[..i + 1]) == ts[..i] && Last(ts[..i + 1]) == ts[i];
      if WEB_SEARCH <= ts[i].kind {
        continue;
      }
      out := out + [T.ChatTool(ts[i].name, ts[i].description, normalize(ts[i].schema), Some(false))];
    }
    assert ts[..|ts|] == ts;
  }

  /** convertAnthropicToolsToResponses */
  method ToResponsesTools(normalize: string -> string, ts: seq<AnthropicTool>) returns (out: seq<T.Tool>)
    ensures out == ResponsesTools(normalize, ts)
  {
    out := [];
    for i := 0 to |ts|
      invariant out == ResponsesTools(normalize, ts[..i])
    {
      assert Init(ts[..i + 1]) == ts[..i] && Last(ts[..i + 1]) == ts[i];
      if WEB_SEARCH <= ts[i].kind {
        out := out + [T.Tool(WEB_SEARCH, "", "", "", None, [], [])];
        continue;
      }
      out := out + [T.Tool(T.FUNCTION, ts[i].name, ts[i].description, normalize(ts[i].schema), Some(false), [], [])];
    }
    assert ts[..|ts|] == ts;
  }

  /** Both lists are made tool by tool, in order: a server tool is left out of the one
      and named in the other, and any other is a function with a name, a description,
      normalised parameters and no strictness. */
  lemma {:induction false} ToolByTool(normalize: string -> string, a: seq<AnthropicTool>, b: seq<AnthropicTool>, t: AnthropicTool)
    ensures DirectTools(normalize, a + b) == DirectTools(normalize, a) + DirectTools(normalize, b)
    ensures ResponsesTools(normalize, a + b) == ResponsesTools(normalize, a) + ResponsesTools(normalize, b)
    ensures DirectTools(normalize, [t])
            == if "web_search" <= t.kind then [] else [T.ChatTool(t.name, t.description, normalize(t.schema), Some(false))]
    ensures ResponsesTools(normalize, [t])
            == if "web_search" <= t.kind then [T.Tool("web_search", "", "", "", None, [], [])]
               else [T.Tool("function", t.name, t.description, normalize(t.schema), Some(false), [], [])]
  {
    assert Init([t]) == [] && Last([t]) == t && DirectTools(normalize, []) == [] && ResponsesTools(normalize, []) == [];
    if b == [] {
      assert a + b == a;
    } else {
      assert Init(a + b) == a + Init(b) && Last(a + b) == Last(b);
      ToolByTool(normalize, a, Init(b), t);
    }
  }

  predicate OnlyFunctions(ds: seq<T.Declaration>) {
    forall i | 0 <= i < |ds| :: ds[i].TopLevel?
  }

  lemma OnlyFunctionsFine(hash: string -> T.Digest, ds: seq<T.Declaration>)
    requires OnlyFunctions(ds)
    ensures T.Unambiguous(hash, ds)
  {
    hide T.FlatOf, T.Names;
    assert forall d | d in ds :: d.TopLevel?;
  }

  /** No server tool survives, and the others are declared alike. */
  lemma {:induction false} ToolsAgree(hash: string -> T.Digest, normalize: string -> string, ts: seq<AnthropicTool>)
    ensures var ds := T.Declarations(ResponsesTools(normalize, ts));
            OnlyFunctions(ds) && T.Unambiguous(hash, ds) && T.Converted(hash, ds) == DirectTools(normalize, ts)
  {
    if ts == [] {
      OnlyFunctionsFine(hash, []);
      assert T.Declarations([]) == [];
    } else {
      ToolsAgree(hash, normalize, Init(ts));
      var before := ResponsesTools(normalize, Init(ts));
      var tool := Last(ResponsesTools(normalize, ts));
      InitOfSnoc(before, tool);
      var ds := T.Declarations(before);
      if WEB_SEARCH <= Last(ts).kind {
        ServerToolDropped(tool);
        assert ds + [] == ds;
        assert DirectTools(normalize, Init(ts)) + [] == DirectTools(normalize, Init(ts));
      } else {
        T.ConvertedSnoc(hash, ds, T.TopLevel(T.AsChatTool(tool), false));
      }
      OnlyFunctionsFine(hash, T.Declarations(ResponsesTools(normalize, ts)));
    }
  }

  lemma ServerToolDropped(t: T.Tool)
    requires t.kind == WEB_SEARCH
    ensures T.DeclarationsOf(t) == []
  {
    assert WEB_SEARCH[0] == 'w' && T.FUNCTION[0] == 'f' && T.CUSTOM[0] == 'c' && T.NAMESPACE[0] == 'n';
    assert "tool_search"[0] == 't';
  }

  // ----- Tool choice -----

  /** A tool_choice as sent: its type, its name, and the name under "function". */
  datatype RawChoice = RawChoice(kind: string, name: string, nested: string) | MalformedChoice

  datatype ResponsesChoice = NothingChosen | StringChoice(mode: string) | ObjectChoice(choice: RawChoice)

  datatype ChatChoice = NoChoice | Mode(mode: string) | Named(name: string) | Forwarded(choice: RawChoice)

  predicate Declared(tools: seq<T.ChatTool>, name: string) {
    exists i | 0 <= i < |tools| :: tools[i].name == name
  }

  function ModeOf(kind: string): Option<string> {
    if kind == "auto" then Some("auto")
    else if kind == "any" then Some("required")
    else if kind == "none" then Some("none")
    else None
  }

  /** convertAnthropicToolChoiceToChat, and when it is called. */
  function DirectChoice(choice: Option<RawChoice>, tools: seq<T.ChatTool>): Result<ChatChoice> {
    if tools == [] || choice.None? then Ok(NoChoice)
    else if choice.value.MalformedChoice? then Err
    else
      var c := choice.value;
      if ModeOf(c.kind).Some? then Ok(Mode(ModeOf(c.kind).value))
      else if c.kind == "tool" && c.name != "" && Declared(tools, c.name) then Ok(Named(c.name))
      else Ok(NoChoice)
  }

  /** convertAnthropicToolChoiceToResponses */
  function ChoiceToResponses(choice: Option<RawChoice>): Result<ResponsesChoice> {
    if choice.None? then Ok(NothingChosen)
    else if choice.value.MalformedChoice? then Err
    else
      var c := choice.value;
      if ModeOf(c.kind).Some? then Ok(StringChoice(ModeOf(c.kind).value))
      else if c.kind == "tool" then Ok(ObjectChoice(RawChoice(T.FUNCTION, c.name, "")))
      else Ok(ObjectChoice(c))
  }

  /** The tool a Responses choice points at: none when the type is unknown. */
  function ChosenName(c: RawChoice): Option<string>
    requires c.RawChoice?
  {
    if c.kind == "tool_search" then Some("tool_search")
    else if c.kind == T.FUNCTION || c.kind == T.CUSTOM then Some(if c.name != "" then c.name else c.nested)
    else None
  }

  /** responsesToolChoiceToChatToolChoice, and when it is called. */
  function ChoiceToChat(choice: ResponsesChoice, tools: seq<T.ChatTool>): ChatChoice {
    if tools == [] || choice.NothingChosen? then NoChoice
    else if choice.StringChoice? then Mode(choice.mode)
    else if choice.choice.MalformedChoice? then NoChoice
    else match ChosenName(choice.choice)
      case None => NoChoice
      case Some(name) =>
        if name == "" then Forwarded(choice.choice) else if Declared(tools, name) then Named(name) else NoChoice
  }

  function ComposedChoice(choice: Option<RawChoice>, tools: seq<T.ChatTool>): Result<ChatChoice> {
    match ChoiceToResponses(choice)
    case Err => Err
    case Ok(c) => Ok(ChoiceToChat(c, tools))
  }

  /** A choice both translations understand alike: a named tool has a name; types
      that only the Responses API knows do not hit a declared tool; and a malformed
      choice does not hide behind an empty tool list. */
  predicate SharedChoice(choice: Option<RawChoice>, tools: seq<T.ChatTool>) {
    choice.None? ||
    match choice.value
    case MalformedChoice => tools != []
    case RawChoice(kind, name, nested) =>
      tools == [] || ModeOf(kind).Some? ||
      (if kind == "tool" then name != ""
       else match ChosenName(choice.value)
         case None => true
         case Some(n) => n != "" && !Declared(tools, n))
  }

  lemma ChoicesAgree(choice: Option<RawChoice>, tools: seq<T.ChatTool>)
    ensures DirectChoice(choice, tools) == ComposedChoice(choice, tools) <==> SharedChoice(choice, tools)
  {
    assert T.FUNCTION[0] == 'f' && T.CUSTOM[0] == 'c' && "tool_search" != "tool" && T.FUNCTION != "tool_search";
    assert "tool"[0] == 't' && ModeOf("tool").None?;
    assert "auto"[0] == 'a' && "any"[0] == 'a' && "none"[0] == 'n';
  }

  /** What a choice comes to with some tools: the modes under their new names, a tool
      that was declared by its name, and nothing for one that was not. */
  lemma ChoiceMeans(c: RawChoice, tools: seq<T.ChatTool>)
    requires c.RawChoice? && tools != []
    ensures var out := DirectChoice(Some(c), tools);
            && (c.kind == "auto" ==> out == Ok(Mode("auto"))) && (c.kind == "any" ==> out == Ok(Mode("required")))
            && (c.kind == "none" ==> out == Ok(Mode("none")))
            && (c.kind == "tool" && c.name != "" ==>
                  out == Ok(if exists t :: t in tools && t.name == c.name then Named(c.name) else NoChoice))
            && (c.kind !in {"auto", "any", "none", "tool"} ==> out == Ok(NoChoice))
    ensures var out := ComposedChoice(Some(c), tools);
            && (c.kind == "auto" ==> out == Ok(Mode("auto"))) && (c.kind == "any" ==> out == Ok(Mode("required")))
            && (c.kind == "none" ==> out == Ok(Mode("none")))
            && (c.kind == "tool" && c.name != "" ==>
                  out == Ok(if exists t :: t in tools && t.name == c.name then Named(c.name) else NoChoice))
  {
    assert "tool"[0] == 't' && "auto"[0] == 'a' && "any"[1] == 'n' && "none"[0] == 'n' && "auto"[1] == 'u';
    assert T.FUNCTION[0] == 'f' && T.CUSTOM[0] == 'c' && T.FUNCTION != "tool_search";
    assert Declared(tools, c.name) <==> exists t :: t in tools && t.name == c.name;
  }

  // ----- Whole requests -----

  datatype AnthropicRequest = AnthropicRequest(
    model: string, stream: bool, maxTokens: int, temperature: Option<real>, topP: Option<real>,
    system: SystemPrompt, turns: seq<Turn>, tools: seq<AnthropicTool>, choice: Option<RawChoice>, effort: Option<string>)

  datatype ResponsesRequest = ResponsesRequest(
    model: string, stream: bool, maxOutput: Option<int>, temperature: Option<real>, topP: Option<real>,
    input: seq<Item>, tools: seq<T.Tool>, choice: ResponsesChoice, effort: string, parallel: bool)

  datatype ChatRequest = ChatRequest(
    model: string, stream: bool, maxTokens: Option<int>, temperature: Option<real>, topP: Option<real>,
    messages: seq<Message>, tools: seq<T.ChatTool>, choice: ChatChoice, effort: string, parallel: bool)

  const MIN_OUTPUT := 128

  predicate IsReasoningModel(model: string) {
    "gpt-5" <= model
  }

  function Clamped(maxTokens: int): Option<int> {
    if maxTokens <= 0 then None else Some(if maxTokens < MIN_OUTPUT then MIN_OUTPUT else maxTokens)
  }

  /** mapAnthropicEffortToResponses with its default. */
  function EffortOf(effort: Option<string>): string {
    var e := if effort.Some? && effort.value != "" then effort.value else "medium";
    if e == "max" then "xhigh" else e
  }

  /** The settings as they are sent: at least 128 tokens if any limit, no sampling
      settings for a model that reasons, "medium" effort unless another is named. */
  predicate Carries(
    r: AnthropicRequest, model: string, stream: bool, limit: Option<int>, temperature: Option<real>, topP: Option<real>,
    effort: string, parallel: bool)
  {
    && model == r.model && stream == r.stream && parallel
    && (r.maxTokens <= 0 ==> limit.None?)
    && (r.maxTokens > 0 ==> limit.Some? && limit.value >= 128 && limit.value >= r.maxTokens && limit.value in {128, r.maxTokens})
    && (if "gpt-5" <= r.model then temperature.None? && topP.None? else temperature == r.temperature && topP == r.topP)
    && (r.effort in {None, Some("")} ==> effort == "medium")
    && (r.effort == Some("max") ==> effort == "xhigh")
    && (r.effort.Some? && r.effort.value !in {"", "max"} ==> effort == r.effort.value)
  }

  /** AnthropicToChatCompletionsRequest */
  method DirectRequest(normalize: string -> string, r: AnthropicRequest) returns (out: Result<ChatRequest>)
    ensures out == DirectOf(normalize, r)
    ensures out.Ok? ==> Carries(r, out.value.model, out.value.stream, out.value.maxTokens, out.value.temperature, out.value.topP,
                                out.value.effort, out.value.parallel)
  {
    var messages := DirectMessages(r.system, r.turns);
    if messages.Err? {
      return Err;
    }
    var temperature: Option<real>, topP: Option<real> := None, None;
    if !IsReasoningModel(r.model) {
      temperature, topP := r.temperature, r.topP;
    }
    var tools := ToChatTools(normalize, r.tools);
    var choice := DirectChoice(r.choice, tools);
    if choice.Err? {
      return Err;
    }
    out := Ok(ChatRequest(r.model, r.stream, Clamped(r.maxTokens), temperature, topP,
                          messages.value, tools, choice.value, EffortOf(r.effort), true));
  }

  function DirectOf(normalize: string -> string, r: AnthropicRequest): Result<ChatRequest> {
    var tools := DirectTools(normalize, r.tools);
    var choice := DirectChoice(r.choice, tools);
    if Malformed(r.system, r.turns) || choice.Err? then Err
    else
      var keep := !IsReasoningModel(r.model);
      Ok(ChatRequest(r.model, r.stream, Clamped(r.maxTokens),
                     if keep then r.temperature else None, if keep then r.topP else None,
                     N.Normalized(Direct(r.system, r.turns), map[]), tools, choice.value, EffortOf(r.effort), true))
  }

  /** AnthropicToResponses */
  method ToResponses(normalize: string -> string, r: AnthropicRequest) returns (out: Result<ResponsesRequest>)
    ensures out.Err? <==> Malformed(r.system, r.turns) || ChoiceToResponses(r.choice).Err?
    ensures out.Ok? ==> out.value == ResponsesOf(normalize, r)
    ensures out.Ok? ==> Carries(r, out.value.model, out.value.stream, out.value.maxOutput, out.value.temperature, out.value.topP,
                                out.value.effort, out.value.parallel)
  {
    var input := ConvertInput(r.system, r.turns);
    if input.Err? {
      return Err;
    }
    var temperature: Option<real>, topP: Option<real> := None, None;
    if !IsReasoningModel(r.model) {
      temperature, topP := r.temperature, r.topP;
    }
    var tools := ToResponsesTools(normalize, r.tools);
    var choice := ChoiceToResponses(r.choice);
    if choice.Err? {
      return Err;
    }
    out := Ok(ResponsesRequest(r.model, r.stream, Clamped(r.maxTokens), temperature, topP, input.value, tools,
                               choice.value, EffortOf(r.effort), true));
  }

  function ResponsesOf(normalize: string -> string, r: AnthropicRequest): ResponsesRequest {
    var keep := !IsReasoningModel(r.model);
    ResponsesRequest(r.model, r.stream, Clamped(r.maxTokens),
                     if keep then r.temperature else None, if keep then r.topP else None,
                     InputItems(r.system, r.turns), ResponsesTools(normalize, r.tools),
                     if ChoiceToResponses(r.choice).Ok? then ChoiceToResponses(r.choice).value else NothingChosen,
                     EffortOf(r.effort), true)
  }

  /** ResponsesToChatCompletionsRequest */
  method ToChat(w: Wire, r: ResponsesRequest) returns (out: Result<ChatRequest>)
    ensures out == ChatOf(w, r)
  {
    hide T.Unambiguous, T.Converted, T.Declarations;
    var built := BuildMessages(w, [], r.input);
    if built.Err? {
      return Err;
    }
    var messages := N.NormalizeMessages(built.value.messages, built.value.media);
    var tools := T.ToChatTools(w.hash, r.tools);
    if tools.Err? {
      return Err;
    }
    var choice := ChoiceToChat(r.choice, tools.value);
    out := Ok(ChatRequest(r.model, r.stream, r.maxOutput, r.temperature, r.topP, messages, tools.value, choice, r.effort, r.parallel));
  }

  ghost function ChatOf(w: Wire, r: ResponsesRequest): Result<ChatRequest> {
    var b := AfterItems(w, Started([]), r.input);
    var ds := T.Declarations(r.tools);
    if MalformedItem in r.input || !T.Unambiguous(w.hash, ds) then Err
    else
      Ok(ChatRequest(r.model, r.stream, r.maxOutput, r.temperature, r.topP, N.Normalized(b.messages, b.media),
                     T.Converted(w.hash, ds), ChoiceToChat(r.choice, T.Converted(w.hash, ds)), r.effort, r.parallel))
  }

  ghost function ComposedOf(w: Wire, normalize: string -> string, r: AnthropicRequest): Result<ChatRequest> {
    if Malformed(r.system, r.turns) || ChoiceToResponses(r.choice).Err? then Err else ChatOf(w, ResponsesOf(normalize, r))
  }

  lemma InputWellFormed(s: SystemPrompt, ts: seq<Turn>)
    ensures MalformedItem !in InputItems(s, ts)
  {
    ItemsWellFormed(ts);
  }

  /** Both fail on a choice that does not parse, unless there are no tools. */
  predicate ChoiceFails(choice: Option<RawChoice>, tools: seq<T.ChatTool>) {
    choice.Some? && choice.value.MalformedChoice? && tools != []
  }

  /** The direct translation equals the composed one, result or error, exactly when
      both fail alike, or they send the same messages and understand the tool choice
      alike: no turn is surplus, no tool result that is sent holds an image. All of it
      can be read off the request. */
  lemma RequestsAgree(w: Wire, normalize: string -> string, r: AnthropicRequest)
    requires M.Codec(w.decode, w.encode)
    ensures var tools := DirectTools(normalize, r.tools);
            DirectOf(normalize, r) == ComposedOf(w, normalize, r)
            <==> Malformed(r.system, r.turns) || ChoiceFails(r.choice, tools) ||
                 (NoSurplus(r.turns) && ImageFree(w, r.turns) && SharedChoice(r.choice, tools))
  {
    hide M.Codec, ImageFree, NoSurplus, Malformed, T.Unambiguous, T.Declarations, T.Converted, N.Normalized, Direct,
      ChoiceToChat, DirectTools, InputItems, AfterItems;
    var tools := DirectTools(normalize, r.tools);
    FailsAlike(r.choice, tools);
    ChoicesAgree(r.choice, tools);
    if !Malformed(r.system, r.turns) {
      ToolsAgree(w.hash, normalize, r.tools);
      InputWellFormed(r.system, r.turns);
      MessagesAgreeExactly(w, r.system, r.turns);
      assert Composed(w, r.system, r.turns) == AfterItems(w, Started([]), InputItems(r.system, r.turns));
      hide DirectChoice, ChoiceToResponses, SharedChoice, ChoiceFails;
    }
  }

  lemma FailsAlike(choice: Option<RawChoice>, tools: seq<T.ChatTool>)
    ensures DirectChoice(choice, tools).Err? && ChoiceToResponses(choice).Err? <==> ChoiceFails(choice, tools)
    ensures ChoiceFails(choice, tools) ==> SharedChoice(choice, tools)
    ensures ChoiceToResponses(choice).Ok? ==> DirectChoice(choice, tools).Ok?
  {
  }

  // ----- Where they differ -----

  lemma NoSystemSaysNothing()
    ensures SystemMessages(NoSystem) == [] && SystemItems(NoSystem) == []
    ensures TurnsMessages([]) == [] && TurnsItems([]) == []
  {
  }

  const SILENT := Turn(ASSISTANT, BlocksTurn([]))
  const EMPTY := Message(ASSISTANT, Absent, "", [], "")

  lemma SilentTurn(w: Wire)
    ensures Direct(NoSystem, [SILENT]) == [EMPTY] && Composed(w, NoSystem, [SILENT]) == Started([])
  {
    assert BlockTexts([]) == [] && ToolUses([]) == [] && ReasoningItems([]) == [] && CallItems([]) == [];
    assert TurnMessages(SILENT) == [EMPTY] && TurnItems(SILENT) == [];
    NothingDirect();
    NothingComposed(w);
    assert AfterItems(w, Started([]), []) == Started([]);
    hide Direct, Composed, TurnMessages, TurnItems, AfterItems;
    DirectSnoc(w, NoSystem, [], SILENT);
    ComposedSnoc(w, NoSystem, [], SILENT);
    assert [] + [SILENT] == [SILENT] && [] + [EMPTY] == [EMPTY];
  }

  /** An assistant turn without text or calls is sent by the direct translation and
      dropped by the other. */
  lemma EmptyTurnDiffers(w: Wire)
    ensures N.Normalized(Direct(NoSystem, [SILENT]), map[]) == [EMPTY]
    ensures N.Normalized(Composed(w, NoSystem, [SILENT]).messages, map[]) == []
  {
    hide Direct, Composed;
    SilentTurn(w);
    N.SingleRebuilt([EMPTY], EMPTY, map[]);
  }

  const SAYS := Turn(ASSISTANT, StringTurn("hi"))
  const CALLS := Turn(ASSISTANT, BlocksTurn([ToolUse("t", "f", None)]))
  const ANSWERS := Turn(USER, BlocksTurn([ToolResult("t", StringBody("ok"))]))
  const CALL := ToolCall("t", "f", "{}")
  const REPLY := Message(TOOL, Str("ok"), "", [], "t")
  const SPLIT := [Plain(ASSISTANT, "hi"), Message(ASSISTANT, Absent, "", [CALL], ""), REPLY]
  const JOINED := [Message(ASSISTANT, Str("hi"), "", [CALL], ""), REPLY]

  lemma SingleBlock(b: Block)
    ensures Init([b]) == [] && Last([b]) == b
  {
  }

  lemma CallsF()
    ensures TurnMessages(CALLS) == [Message(ASSISTANT, Absent, "", [CALL], "")]
  {
    var call := CALLS.content.blocks[0];
    SingleBlock(call);
    assert ToolUses([]) == [] && BlockTexts([]) == [];
    assert BlockTexts([call]) == [] && ToolUses([call]) == [CALL];
  }

  lemma DirectSplit(w: Wire)
    ensures Direct(NoSystem, [SAYS] + [CALLS] + [ANSWERS]) == SPLIT
  {
    NothingDirect();
    hide Direct, TurnMessages, AllSent;
    DirectSnoc(w, NoSystem, [], SAYS);
    DirectSnoc(w, NoSystem, [SAYS], CALLS);
    DirectSnoc(w, NoSystem, [SAYS] + [CALLS], ANSWERS);
    SaysHi();
    CallsF();
    AnswersOk();
    assert [] + [SAYS] == [SAYS];
  }

  lemma NothingDirect()
    ensures Direct(NoSystem, []) == []
  {
    NoSystemSaysNothing();
  }

  lemma SaysHi()
    ensures TurnMessages(SAYS) == [Plain(ASSISTANT, "hi")]
  {
  }

  lemma AnswerBlocks()
    ensures ToolReplies(ANSWERS.content.blocks) == [REPLY] && UserMessage(ANSWERS.content.blocks) == []
  {
    var result := ANSWERS.content.blocks[0];
    SingleBlock(result);
    assert ToolReplies([]) == [] && OwnParts([]) == [] && AllResultImages([]) == [] && BlockTexts([]) == [];
    assert ToolReplies([result]) == [REPLY];
    assert OwnParts([result]) == [] && AllResultImages([result]) == [] && BlockTexts([result]) == [];
    assert OwnParts([result]) + ImageParts([]) == [];
    assert !HasImage([]);
  }

  lemma AnswersOk()
    ensures TurnMessages(ANSWERS) == [REPLY]
  {
    AnswerBlocks();
    hide ToolReplies, UserMessage;
    assert USER[0] != ASSISTANT[0];
    assert [REPLY] + [] == [REPLY];
  }

  lemma ComposedSplit(w: Wire)
    requires w.decode("ok").None?
    ensures Composed(w, NoSystem, [SAYS] + [CALLS] + [ANSWERS]).messages == JOINED
  {
    var none, one, two := [], [SAYS], [SAYS] + [CALLS];
    hide AfterItems, TurnItems, AllSent, ToolReplies, UserMessage;
    assert none + [SAYS] == one;
    ComposedSnoc(w, NoSystem, none, SAYS);
    ComposedSnoc(w, NoSystem, one, CALLS);
    ComposedSnoc(w, NoSystem, two, ANSWERS);
    NothingComposed(w);
    HiComposed(w);
    CallJoins(w, Composed(w, NoSystem, one));
    OkComposed(w, Composed(w, NoSystem, two));
  }

  lemma NothingComposed(w: Wire)
    ensures Composed(w, NoSystem, []) == Started([])
  {
    assert InputItems(NoSystem, []) == [];
  }

  lemma HiComposed(w: Wire)
    ensures AfterItems(w, Started([]), TurnItems(SAYS)) == Started([Plain(ASSISTANT, "hi")])
  {
    hide AfterItems;
    StringTurnBuilt(w, Started([]), SAYS, "hi");
    assert AllSent(w, TurnMessages(SAYS)) == [Plain(ASSISTANT, "hi")];
    assert [] + [Plain(ASSISTANT, "hi")] == [Plain(ASSISTANT, "hi")];
  }

  lemma CallJoins(w: Wire, b: Built)
    requires b == Started([Plain(ASSISTANT, "hi")])
    ensures AfterItems(w, b, TurnItems(CALLS)) == Started([JOINED[0]])
  {
    var call := CALLS.content.blocks[0];
    SingleBlock(call);
    assert BlockTexts([]) == [] && ToolUses([]) == [];
    assert JoinedText([call]) == "" && ToolUses([call]) == [CALL];
    hide AfterItems, AssistantItems, JoinedText, ToolUses;
    AssistantBuilt(w, b, [call]);
    InitOfSnoc<Message>([], Plain(ASSISTANT, "hi"));
    assert [] + [Plain(ASSISTANT, "hi")] == [Plain(ASSISTANT, "hi")];
    assert [] + [CALL] == [CALL];
    assert WithCalls(b.messages, [CALL]) == [JOINED[0]];
  }

  lemma OkComposed(w: Wire, b: Built)
    requires w.decode("ok").None? && b == Started([JOINED[0]])
    ensures AfterItems(w, b, TurnItems(ANSWERS)).messages == JOINED
  {
    var result := ANSWERS.content.blocks[0];
    AnswerBlocks();
    assert "ok"[0] == 'o' && M.DATA_PREFIX[0] == 'd';
    M.NoPrefix(M.DATA_PREFIX, "ok");
    assert AsSent(w, REPLY) == REPLY;
    hide AfterItems, UserItems, ToolReplies, UserMessage, AsSent;
    assert USER[0] != ASSISTANT[0];
    UserBuilt(w, b, [result]);
    assert [REPLY] + [] == [REPLY];
    assert AllSent(w, [REPLY]) == [REPLY];
  }

  lemma SplitPaired()
    ensures N.Paired(SPLIT) && N.Latest(SPLIT, SPLIT) && N.Paired(JOINED) && N.Latest(JOINED, JOINED)
  {
    assert SPLIT[1..] == [SPLIT[1], REPLY] && SPLIT[1..][1..] == [REPLY] && SPLIT[1..][2..] == [];
    assert JOINED[1..] == [REPLY] && JOINED[2..] == [];
    assert N.Paired([]);
    assert N.AnsweredAtOnce([CALL], [REPLY]);
    assert N.Paired(SPLIT[1..]);
    assert Last(SPLIT) == REPLY && Last(JOINED) == REPLY;
    assert N.LastReply(SPLIT, "t") == Some(REPLY) && N.LastReply(JOINED, "t") == Some(REPLY);
  }

  /** Calls without text right after an assistant text stay a message of their own
      in the direct translation and join that text in the other. */
  lemma SplitTurnDiffers(w: Wire)
    requires w.decode("ok").None?
    ensures var ts := [SAYS] + [CALLS] + [ANSWERS];
            N.Normalized(Direct(NoSystem, ts), map[]) == SPLIT && N.Normalized(Composed(w, NoSystem, ts).messages, map[]) == JOINED
  {
    hide N.Paired, N.Latest, N.Normalized, Direct, Composed;
    DirectSplit(w);
    ComposedSplit(w);
    SplitPaired();
    N.FixedWhenPaired(SPLIT);
    N.FixedWhenPaired(JOINED);
  }
}
