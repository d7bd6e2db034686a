/** What a Responses client holds after a run of Chat Completions inputs
    (chatcompletions_responses_bridge.go), without saying which events got it
    there. */
module ResponsesAssembly {
  import opened Common
  import opened ChatChunks
  import opened ResponsesProtocol

  /** What the request declared (CustomToolNames, HasToolSearchTool,
      NamespaceToolNames), and extractCustomToolCallInput. */
  datatype Config = Config(
    custom: set<string>,
    search: bool,
    namespaces: map<string, (string, string)>,
    inputOf: string -> string)

  /** How a tool call is delivered, decided by its name when it is announced. */
  datatype Kind = CustomCall | SearchCall | NamespacedCall(namespace: string, name: string) | PlainCall

  const TOOL_SEARCH := "tool_search"

  function KindOf(cfg: Config, name: string): Kind {
    if name in cfg.custom then CustomCall
    else if cfg.search && name == TOOL_SEARCH then SearchCall
    else if name in cfg.namespaces then NamespacedCall(cfg.namespaces[name].0, cfg.namespaces[name].1)
    else PlainCall
  }

  /** Whether the name may decide the type at all. */
  predicate Declares(cfg: Config) {
    cfg.custom != {} || cfg.search || cfg.namespaces != map[]
  }

  predicate Ordinary(k: Kind) {
    k.NamespacedCall? || k.PlainCall?
  }

  /** A tool call of the upstream: its output index and item id, and its kind once
      it is announced. */
  datatype Call = Call(out: nat, item: nat, id: CallId, name: string, args: string, kind: Option<Kind>)

  datatype Lane = Unopened | OpenAt(out: nat, item: nat) | ClosedAt(out: nat, item: nat)

  datatype Desk = Desk(
    client: Client,
    reasoning: Lane,
    message: Option<(nat, nat)>,
    calls: map<int, Call>,
    nextOut: nat,
    minted: nat,
    reasoningText: string,
    text: string)

  datatype View = View(
    it: Desk, responseId: string, model: string, finish: string, usage: Option<ResponsesUsage>)

  const EMPTY_DESK := Desk(FRESH_CLIENT, Unopened, None, map[], 0, 0, "", "")

  function InitialView(responseId: string, model: string): View {
    View(EMPTY_DESK, responseId, model, "", None)
  }

  /** ChatUsageToResponsesUsage */
  function ResponsesUsageOf(u: ChatUsage): ResponsesUsage {
    var total := if u.total == 0 then u.prompt + u.completion else u.total;
    if u.details.Some? && (u.details.value.cached > 0 || u.details.value.creation > 0 || u.details.value.write > 0) then
      var creation := if u.details.value.write > 0 then u.details.value.write else u.details.value.creation;
      ResponsesUsage(u.prompt, u.completion, total, creation, Some(u.details.value))
    else ResponsesUsage(u.prompt, u.completion, total, 0, None)
  }

  function RouteOf(c: Call): Option<(CallId, string)> {
    Some((c.id, c.name))
  }

  /** The item of a call, with the arguments as they stand. */
  function ContentOf(cfg: Config, c: Call, kind: Kind, args: string): Content {
    match kind
    case CustomCall => CustomItem(c.id, c.name, cfg.inputOf(args))
    case SearchCall => SearchItem(c.id, args)
    case NamespacedCall(ns, name) => FunctionItem(c.id, name, ns, args)
    case PlainCall => FunctionItem(c.id, c.name, "", args)
  }

  function HeaderOf(c: Call, kind: Kind): Content {
    match kind
    case CustomCall => CustomItem(c.id, c.name, "")
    case SearchCall => SearchItem(c.id, "")
    case NamespacedCall(ns, name) => FunctionItem(c.id, name, ns, "")
    case PlainCall => FunctionItem(c.id, c.name, "", "")
  }

  // ----- Reasoning and message -----

  function OpenedReasoning(d: Desk): Desk {
    if !d.reasoning.Unopened? then d
    else
      var c := WithItem(d.client, d.nextOut, Item(d.minted, ReasoningItem(""), "", [], Fresh));
      d.(client := Staged(c, d.nextOut, PartOpen), reasoning := OpenAt(d.nextOut, d.minted),
         nextOut := d.nextOut + 1, minted := d.minted + 1)
  }

  function ClosedReasoning(d: Desk): Desk {
    match d.reasoning
    case OpenAt(out, item) =>
      var c := Staged(Staged(d.client, out, Sealed), out, PartClosed);
      d.(client := Staged(c, out, Done(ReasoningItem(d.reasoningText))), reasoning := ClosedAt(out, item))
    case _ => d
  }

  function OpenedMessage(d: Desk): Desk {
    if d.message.Some? then d
    else
      var c := WithItem(d.client, d.nextOut, Item(d.minted, MessageItem(""), "", [], Fresh));
      d.(client := Staged(c, d.nextOut, PartOpen), message := Some((d.nextOut, d.minted)),
         nextOut := d.nextOut + 1, minted := d.minted + 1)
  }

  function OnReasoning(d: Desk, t: string): Desk {
    var e := OpenedReasoning(d);
    if e.reasoning.Unopened? then e
    else e.(client := Told(e.client, e.reasoning.out, t, None), reasoningText := e.reasoningText + t)
  }

  function Written(d: Desk, t: string): Desk {
    var e := OpenedMessage(d);
    e.(client := Told(e.client, e.message.value.0, t, None), text := e.text + t)
  }

  function OnText(d: Desk, t: string): Desk {
    Written(ClosedReasoning(d), t)
  }

  // ----- Tool calls -----

  /** A new call gets its ids and output index; it is not announced yet. */
  function Registered(d: Desk, k: int, id: string, name: string): Desk {
    var callId := if id == "" then Minted(d.minted) else Given(id);
    var item := if id == "" then d.minted + 1 else d.minted;
    d.(calls := d.calls[k := Call(d.nextOut, item, callId, name, "", None)], nextOut := d.nextOut + 1, minted := item + 1)
  }

  /** A tool index is first seen, or delivers its id or name. */
  function Noted(d: Desk, k: int, id: string, name: string): Desk {
    if k in d.calls then
      var c := d.calls[k];
      d.(calls := d.calls[k := c.(id := if id != "" then Given(id) else c.id,
                                  name := if name != "" then name else c.name)])
    else Registered(ClosedReasoning(d), k, id, name)
  }

  /** The item of a call is added; arguments of an ordinary call that came before
      it follow. */
  function AnnouncedTo(c: Client, call: Call, kind: Kind): Client {
    var e := WithItem(c, call.out, Item(call.item, HeaderOf(call, kind), "", [], Fresh));
    if Ordinary(kind) && call.args != "" then Told(e, call.out, call.args, RouteOf(call)) else e
  }

  /** announceChatToolItem */
  function Announced(d: Desk, cfg: Config, k: int, force: bool): Desk {
    if k !in d.calls || d.calls[k].kind.Some? || (!force && d.calls[k].name == "" && Declares(cfg)) then d
    else
      var call := d.calls[k];
      var kind := KindOf(cfg, call.name);
      d.(client := AnnouncedTo(d.client, call, kind),
         calls := d.calls[k := call.(kind := Some(kind))])
  }

  predicate Streams(c: Call) {
    c.kind.Some? && Ordinary(c.kind.value)
  }

  function Fed(d: Desk, k: int, args: string): Desk {
    if args == "" || k !in d.calls then d
    else
      var c := d.calls[k].(args := d.calls[k].args + args);
      d.(calls := d.calls[k := c],
         client := if Streams(c) then Told(d.client, c.out, args, RouteOf(c)) else d.client)
  }

  function OnTool(d: Desk, cfg: Config, k: int, id: string, name: string, args: string): Desk {
    Fed(Announced(Noted(d, k, id, name), cfg, k, false), k, args)
  }

  // ----- The end -----

  /** synthesizeChatReasoningFallbackMessage */
  function FallenBack(d: Desk): Desk {
    if d.message.Some? || d.text != "" || d.calls != map[] || IsBlank(d.reasoningText) then d
    else Written(d, d.reasoningText)
  }

  function ClosedMessage(d: Desk): Desk {
    match d.message
    case Some((out, item)) =>
      var c := Staged(Staged(d.client, out, Sealed), out, PartClosed);
      d.(client := Staged(c, out, Done(MessageItem(d.text))))
    case None => d
  }

  /** The closing of an announced call. */
  function FinishedCall(c: Client, cfg: Config, call: Call): Client {
    var kind := if call.kind.Some? then call.kind.value else PlainCall;
    var args := ArgumentsOrEmpty(call.args);
    var sealed := match kind
      case CustomCall =>
        var input := cfg.inputOf(args);
        Sealing(if input != "" then Told(c, call.out, input, None) else c, call.out, RouteOf(call))
      case SearchCall => c
      case NamespacedCall(_, name) => Sealing(c, call.out, Some((call.id, name)))
      case PlainCall => Sealing(c, call.out, RouteOf(call));
    Staged(sealed, call.out, Done(ContentOf(cfg, call, kind, args)))
  }

  /** One round of closeChatToolItems. */
  function ClosedCall(d: Desk, cfg: Config, k: int): Desk {
    if k !in d.calls then d
    else
      var e := Announced(d, cfg, k, true);
      e.(client := FinishedCall(e.client, cfg, e.calls[k]))
  }

  function ClosedCalls(d: Desk, cfg: Config, n: nat): Desk {
    if n == 0 then d else ClosedCall(ClosedCalls(d, cfg, n - 1), cfg, n - 1)
  }

  /** The tool items of chatOutput: calls 0 .. n - 1. */
  function CallOutputs(d: Desk, cfg: Config, n: nat): seq<Content> {
    if n == 0 then []
    else
      CallOutputs(d, cfg, n - 1) +
      (if n - 1 in d.calls then
         var call := d.calls[n - 1];
         [ContentOf(cfg, call, if call.kind.Some? then call.kind.value else PlainCall, ArgumentsOrEmpty(call.args))]
       else [])
  }

  /** chatOutput, without the freshly drawn item ids. */
  function Output(d: Desk, cfg: Config): seq<Content> {
    (if d.reasoningText != "" then [ReasoningItem(d.reasoningText)] else [])
    + (if d.message.Some? || d.calls == map[] then [MessageItem(d.text)] else [])
    + CallOutputs(d, cfg, |d.calls|)
  }

  function Begun(c: Client, responseId: string, model: string): Client {
    if c.created.Some? then c else Tick(c).(created := Some((responseId, model)))
  }

  function HeadRead(v: View, id: string, model: string, usage: Option<ChatUsage>): View {
    v.(responseId := if id != "" then id else v.responseId,
       model := if v.model == "" then model else v.model,
       usage := if usage.Some? then Some(ResponsesUsageOf(usage.value)) else v.usage)
  }

  function OnHead(v: View, id: string, model: string, usage: Option<ChatUsage>): View {
    var w := HeadRead(v, id, model, usage);
    w.(it := w.it.(client := Begun(w.it.client, w.responseId, w.model)))
  }

  /** All items closed: reasoning, message (synthesized if need be), tools. */
  function Wrapped(d: Desk, cfg: Config): Desk {
    var e := ClosedMessage(FallenBack(ClosedReasoning(d)));
    ClosedCalls(e, cfg, |e.calls|)
  }

  function FinalResponse(
    id: string, model: string, finish: string, usage: Option<ResponsesUsage>, output: seq<Content>): Response
  {
    Response(id, model,
             if finish == "length" then "incomplete" else "completed",
             if finish == "length" then "max_output_tokens" else "",
             output, usage)
  }

  function EndedAs(d: Desk, response: Response): Desk {
    d.(client := Tick(d.client).(completed := Some(response)))
  }

  function OnEnd(v: View, cfg: Config): View {
    if v.it.client.completed.Some? then v
    else
      var d := Wrapped(v.it.(client := Begun(v.it.client, v.responseId, v.model)), cfg);
      v.(it := EndedAs(d, FinalResponse(v.responseId, v.model, v.finish, v.usage, Output(d, cfg))))
  }

  function OnInput(v: View, cfg: Config, i: Input): View {
    match i
    case Head(id, model, usage) => OnHead(v, id, model, usage)
    case Reasoning(t) => if t == "" then v else v.(it := OnReasoning(v.it, t))
    case Text(t) => if t == "" then v else v.(it := OnText(v.it, t))
    case Tool(k, id, name, args) => v.(it := OnTool(v.it, cfg, k, id, name, args))
    case Finish(reason) => if reason == "" then v else v.(finish := reason)
    case End => OnEnd(v, cfg)
  }

  function Run(v: View, cfg: Config, ins: seq<Input>): View {
    if ins == [] then v else OnInput(Run(v, cfg, Init(ins)), cfg, Last(ins))
  }

  lemma RunSnoc(v: View, cfg: Config, ins: seq<Input>, i: Input)
    ensures Run(v, cfg, ins + [i]) == OnInput(Run(v, cfg, ins), cfg, i)
  {
    InitOfSnoc(ins, i);
  }
}
