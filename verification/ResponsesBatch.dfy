/** The non-streaming conversion of a Chat Completions response to the Responses
    API, and when the terminal event of the stream repeats it. */
module ResponsesBatch {
  import opened Common
  import opened ChatChunks
  import opened ResponsesProtocol
  import opened ResponsesAssembly
  import opened ResponsesFit
  import opened ResponsesLaws
  import opened ResponsesEnding

  function BatchItem(cfg: Config, t: ToolCall): Content {
    var args := if IsBlank(t.arguments) then "{}" else t.arguments;
    if t.name in cfg.custom then CustomItem(Given(t.id), t.name, cfg.inputOf(args))
    else if cfg.search && t.name == TOOL_SEARCH then SearchItem(Given(t.id), args)
    else if t.name in cfg.namespaces then
      FunctionItem(Given(t.id), cfg.namespaces[t.name].1, cfg.namespaces[t.name].0, args)
    else FunctionItem(Given(t.id), t.name, "", args)
  }

  /** chatMessageToResponsesOutput, without the freshly drawn item ids. */
  function MessageOutput(cfg: Config, m: ChatMessage): seq<Content> {
    var text := if m.text == "" && !IsBlank(m.reasoning) && m.toolCalls == [] then m.reasoning else m.text;
    (if m.reasoning != "" then [ReasoningItem(m.reasoning)] else [])
    + (if text != "" || m.toolCalls == [] then [MessageItem(text)] else [])
    + seq(|m.toolCalls|, i requires 0 <= i < |m.toolCalls| => BatchItem(cfg, m.toolCalls[i]))
  }

  /** ChatCompletionsResponseToResponses on a response with one choice. */
  function BatchResponse(
    cfg: Config, id: string, model: string, finish: string, usage: Option<ChatUsage>, m: ChatMessage): Response
  {
    Response(id, model,
             if finish == "length" then "incomplete" else "completed",
             if finish == "length" then "max_output_tokens" else "",
             MessageOutput(cfg, m),
             if usage.Some? then Some(ResponsesUsageOf(usage.value)) else None)
  }

  // ----- The stream and its message -----

  function ChatUsageIn(ins: seq<Input>): Option<ChatUsage> {
    if ins == [] then None
    else if Last(ins).Head? && Last(ins).usage.Some? then Last(ins).usage
    else ChatUsageIn(Init(ins))
  }

  lemma {:induction false} RunHeaders(v: View, cfg: Config, ins: seq<Input>)
    requires v == InitialView(v.responseId, v.model) && End !in ins
    ensures var w := Run(v, cfg, ins);
            && w.responseId == ResponseIdIn(ins, v.responseId)
            && w.model == ModelIn(ins, v.model)
            && w.usage == (if ChatUsageIn(ins).Some? then Some(ResponsesUsageOf(ChatUsageIn(ins).value)) else None)
  {
    hide OnReasoning, OnText, OnTool, Begun, ResponsesUsageOf;
    if ins != [] {
      assert Init(ins) + [Last(ins)] == ins;
      RunHeaders(v, cfg, Init(ins));
    }
  }

  /** What response.created says: the id and model known once the first chunk
      header was read, or at the end. */
  lemma {:induction false} RunCreated(v: View, cfg: Config, ins: seq<Input>)
    requires v == InitialView(v.responseId, v.model) && End !in ins
    ensures Run(v, cfg, ins).it.client.created
            == if HasHead(ins) then Some((ResponseIdIn(UpToHead(ins), v.responseId), ModelIn(UpToHead(ins), v.model))) else None
  {
    hide OnReasoning, Written, ClosedReasoning, OnTool;
    if ins != [] {
      assert Init(ins) + [Last(ins)] == ins;
      RunCreated(v, cfg, Init(ins));
      RunHeaders(v, cfg, ins);
      var d := Run(v, cfg, Init(ins)).it;
      match Last(ins)
      case Head(_, _, _) =>
      case Reasoning(t) => ReasoningKeeps(d, t);
      case Text(t) =>
        ClosedReasoningKeeps(d);
        WrittenKeeps(ClosedReasoning(d), t);
      case Tool(k, id, name, args) => ToolKeeps(d, cfg, k, id, name, args);
      case Finish(_) =>
      case End => assert false;
    }
  }

  lemma CreatedAtEnd(v: View, cfg: Config, ins: seq<Input>)
    requires v == InitialView(v.responseId, v.model) && End !in ins
    ensures Run(v, cfg, ins + [End]).it.client.created
            == Some((ResponseIdIn(UpToHead(ins), v.responseId), ModelIn(UpToHead(ins), v.model)))
  {
    hide Fits, Unfinished, Owned, Run, Wrapped, Output, ResponseIdIn, ModelIn;
    EndDesk(v, cfg, ins);
    RunCreated(v, cfg, ins);
    RunHeaders(v, cfg, ins);
    NoHeadYet(ins);
    var w := Run(v, cfg, ins);
    WrappedKeeps(w.it.(client := Begun(w.it.client, w.responseId, w.model)), cfg);
  }

  // ----- The two lists of calls -----

  /** How a call of the given kind is shown: under which namespace and name. */
  function Shown(kind: Kind, name: string): (string, string) {
    match kind
    case NamespacedCall(ns, child) => (ns, child)
    case _ => ("", name)
  }

  predicate SameShape(a: Kind, b: Kind, name: string) {
    (a.CustomCall? <==> b.CustomCall?) && (a.SearchCall? <==> b.SearchCall?) &&
    (Ordinary(a) ==> Shown(a, name) == Shown(b, name))
  }

  /** A call the stream shows as the batch conversion does: some delta carried its
      id, and its first name, which decided how it was announced, restores to the
      same tool as its last name. */
  predicate FaithfulCall(cfg: Config, ins: seq<Input>, k: int) {
    LastIdOf(ins, k) != "" &&
    SameShape(KindOf(cfg, FirstNameOf(ins, k)), KindOf(cfg, LastNameOf(ins, k)), LastNameOf(ins, k))
  }

  ghost predicate Faithful(cfg: Config, ins: seq<Input>) {
    Contiguous(SeenOf(ins)) && forall k | k in SeenOf(ins) :: FaithfulCall(cfg, ins, k)
  }

  lemma ItemsAgree(cfg: Config, c: Call, kind: Kind, id: string)
    requires IdTells(c.id, id)
    ensures ContentOf(cfg, c, kind, ArgumentsOrEmpty(c.args)) == BatchItem(cfg, ToolCall(id, c.name, c.args))
            <==> id != "" && SameShape(kind, KindOf(cfg, c.name), c.name)
  {
  }

  function ItemFor(d: Desk, cfg: Config, k: int): Content
    requires k in d.calls
  {
    FinalContent(cfg, d.calls[k])
  }

  /** Walking 0 .. n - 1 lists every call, each at its own place, unless some
      number has no call: then the list comes out shorter. */
  lemma {:induction false} CallOutputsList(d: Desk, cfg: Config, n: nat)
    requires forall k | k in d.calls && 0 <= k < n :: d.calls[k].kind.Some?
    ensures |CallOutputs(d, cfg, n)| <= n
    ensures (forall k | 0 <= k < n :: k in d.calls) ==>
              |CallOutputs(d, cfg, n)| == n &&
              forall k | 0 <= k < n :: CallOutputs(d, cfg, n)[k] == ItemFor(d, cfg, k)
    ensures (exists k | 0 <= k < n :: k !in d.calls) ==> |CallOutputs(d, cfg, n)| < n
  {
    hide ContentOf;
    if n > 0 {
      CallOutputsList(d, cfg, n - 1);
    }
  }

  ghost predicate CallsEnded(d: Desk, cfg: Config, ins: seq<Input>) {
    d.calls.Keys == SeenOf(ins) && forall k | k in d.calls && 0 <= k < |d.calls| :: CallEnded(cfg, d.calls[k], ins, k)
  }

  lemma ListsAgreeInPlace(d: Desk, cfg: Config, ins: seq<Input>)
    requires CallsEnded(d, cfg, ins) && SeenOf(ins) == Below(|d.calls|)
    ensures CallOutputs(d, cfg, |d.calls|) == BatchItems(cfg, CallsFor(ins, Sorted(SeenOf(ins)))) <==>
            forall k | k in SeenOf(ins) :: FaithfulCall(cfg, ins, k)
  {
    var n := |d.calls|;
    var ks := Sorted(SeenOf(ins));
    hide Sorted, SeenOf, Below, FinalContent, BatchItem, FaithfulCall, CallEnded, CallOutputs, CallFor;
    SortedUpTo(ks, n);
    EndedAnnounced(d, cfg, ins);
    CallOutputsList(d, cfg, n);
    var outs, batch := CallOutputs(d, cfg, n), BatchItems(cfg, CallsFor(ins, ks));
    forall k | 0 <= k < n ensures outs[k] == batch[k] <==> FaithfulCall(cfg, ins, k) {
      EndedAgrees(cfg, d.calls[k], ins, k);
      assert batch[k] == BatchItem(cfg, CallFor(ins, k));
    }
    if outs == batch {
      forall k | k in SeenOf(ins) ensures FaithfulCall(cfg, ins, k) {
        assert outs[k] == batch[k];
      }
    }
  }

  lemma ListsAgree(d: Desk, cfg: Config, ins: seq<Input>)
    requires CallsEnded(d, cfg, ins)
    ensures CallOutputs(d, cfg, |d.calls|) == BatchItems(cfg, CallsFor(ins, Sorted(SeenOf(ins)))) <==> Faithful(cfg, ins)
  {
    var s := SeenOf(ins);
    hide Sorted, SeenOf, Below, FaithfulCall, CallEnded, CallOutputs;
    assert |d.calls| == |s|;
    if forall k | 0 <= k < |s| :: k in s {
      NothingElse(s);
      ListsAgreeInPlace(d, cfg, ins);
    } else {
      EndedAnnounced(d, cfg, ins);
      CallOutputsList(d, cfg, |s|);
    }
  }

  predicate CallEnded(cfg: Config, c: Call, ins: seq<Input>, k: int) {
    && c.args == ArgsOf(ins, k)
    && c.name == LastNameOf(ins, k)
    && IdTells(c.id, LastIdOf(ins, k))
    && c.kind == Some(KindOf(cfg, FirstNameOf(ins, k)))
  }

  function BatchItems(cfg: Config, ts: seq<ToolCall>): seq<Content> {
    seq(|ts|, i requires 0 <= i < |ts| => BatchItem(cfg, ts[i]))
  }

  lemma EndedAnnounced(d: Desk, cfg: Config, ins: seq<Input>)
    requires CallsEnded(d, cfg, ins)
    ensures forall k | k in d.calls && 0 <= k < |d.calls| :: d.calls[k].kind.Some?
  {
  }

  lemma EndedAgrees(cfg: Config, c: Call, ins: seq<Input>, k: int)
    requires CallEnded(cfg, c, ins, k)
    ensures FinalContent(cfg, c) == BatchItem(cfg, CallFor(ins, k)) <==> FaithfulCall(cfg, ins, k)
  {
    ItemsAgree(cfg, c, c.kind.value, LastIdOf(ins, k));
  }

  /** The calls as they stand after the loop that closes them. */
  lemma CallsEndedAtEnd(v: View, cfg: Config, ins: seq<Input>)
    requires v == InitialView(v.responseId, v.model) && End !in ins
    ensures CallsEnded(Run(v, cfg, ins + [End]).it, cfg, ins)
  {
    var w := Run(v, cfg, ins);
    var d := w.it.(client := Begun(w.it.client, w.responseId, w.model));
    var g := Cleared(d);
    var n := |g.calls|;
    SeenInRun(v, cfg, ins);
    assert n == |g.calls.Keys|;
    hide Fits, Unfinished, Owned, Run, ClosedReasoning, FallenBack, ClosedMessage, ClosedCalls, Output;
    EndDesk(v, cfg, ins);
    ClearedLanes(d);
    ClosedCallsKeep(g, cfg, n);
    var e := ClosedCalls(g, cfg, n);
    assert Run(v, cfg, ins + [End]).it.calls == e.calls;
    forall k | k in e.calls && 0 <= k < n ensures CallEnded(cfg, e.calls[k], ins, k) {
      ClosedCallsAt(g, cfg, n, k);
      KindAtEnd(v, cfg, ins, k);
      assert g.calls[k] == EndCall(v, cfg, ins, k);
    }
  }

  lemma {:induction false} CallOutputsOf(d: Desk, e: Desk, cfg: Config, n: nat)
    requires e.calls == d.calls
    ensures CallOutputs(e, cfg, n) == CallOutputs(d, cfg, n)
  {
    if n > 0 {
      CallOutputsOf(d, e, cfg, n - 1);
    }
  }

  /** What comes before the calls: reasoning, and a message unless there are only
      calls; reasoning stands in for missing text. */
  function BaseOutput(reasoning: string, text: string, anyCalls: bool): seq<Content> {
    var shown := if text == "" && !IsBlank(reasoning) && !anyCalls then reasoning else text;
    (if reasoning != "" then [ReasoningItem(reasoning)] else [])
    + (if shown != "" || !anyCalls then [MessageItem(shown)] else [])
  }

  lemma OutputAtEnd(v: View, cfg: Config, ins: seq<Input>)
    requires v == InitialView(v.responseId, v.model) && End !in ins
    ensures var d := Run(v, cfg, ins + [End]).it;
            d.client.completed.Some? &&
            d.client.completed.value.output
            == BaseOutput(ReasoningOf(ins), TextOf(ins), SeenOf(ins) != {}) + CallOutputs(d, cfg, |d.calls|)
  {
    var w := Run(v, cfg, ins);
    var d := w.it.(client := Begun(w.it.client, w.responseId, w.model));
    var g := Cleared(d);
    var e := ClosedCalls(g, cfg, |g.calls|);
    var f := Run(v, cfg, ins + [End]).it;
    RunTells(v, cfg, ins);
    hide Fits, Unfinished, Owned, Run, ClosedReasoning, FallenBack, ClosedMessage, ClosedCalls, CallOutputs;
    EndDesk(v, cfg, ins);
    ClearedLanes(d);
    ClosedCallsSame(g, cfg, |g.calls|);
    ClosedCallsKeep(g, cfg, |g.calls|);
    assert w.it.calls == map[] <==> SeenOf(ins) == {};
    assert e.calls == map[] <==> SeenOf(ins) == {};
    CallOutputsOf(e, f, cfg, |e.calls|);
    assert f.client.completed.value.output == Output(e, cfg);
  }

  lemma MessageOutputOf(cfg: Config, m: ChatMessage)
    ensures MessageOutput(cfg, m) == BaseOutput(m.reasoning, m.text, m.toolCalls != []) + BatchItems(cfg, m.toolCalls)
  {
    hide BatchItem;
    assert BatchItems(cfg, m.toolCalls)
      == seq(|m.toolCalls|, i requires 0 <= i < |m.toolCalls| => BatchItem(cfg, m.toolCalls[i]));
  }

  lemma NoCalls(ins: seq<Input>)
    ensures MessageFor(ins).toolCalls == [] <==> SeenOf(ins) == {}
  {
    hide SeenOf;
  }

  lemma OutputsAgree(v: View, cfg: Config, ins: seq<Input>)
    requires v == InitialView(v.responseId, v.model) && End !in ins
    ensures var r := Run(v, cfg, ins + [End]).it.client.completed;
            r.Some? && (r.value.output == MessageOutput(cfg, MessageFor(ins)) <==> Faithful(cfg, ins))
  {
    var d := Run(v, cfg, ins + [End]).it;
    var m := MessageFor(ins);
    hide Run, BaseOutput, BatchItems, MessageOutput, Faithful, CallOutputs, SeenOf, Sorted, CallsFor;
    OutputAtEnd(v, cfg, ins);
    CallsEndedAtEnd(v, cfg, ins);
    ListsAgree(d, cfg, ins);
    NoCalls(ins);
    MessageOutputOf(cfg, m);
    TailsAgree(BaseOutput(m.reasoning, m.text, m.toolCalls != []), CallOutputs(d, cfg, |d.calls|), BatchItems(cfg, m.toolCalls));
  }

  /** Streaming refines batch: however the message was cut into chunks and its
      fragments interleaved, the terminal event is the non-streaming conversion of
      the message they add up to, exactly when the calls are numbered without gaps,
      each came with an id, and each name restores to the same tool throughout. */
  lemma StreamRefinesBatch(v: View, cfg: Config, ins: seq<Input>)
    requires v == InitialView(v.responseId, v.model) && End !in ins
    ensures Run(v, cfg, ins + [End]).it.client.completed
            == Some(BatchResponse(cfg, ResponseIdIn(ins, v.responseId), ModelIn(ins, v.model), FinishOf(ins),
                                  ChatUsageIn(ins), MessageFor(ins)))
            <==> Faithful(cfg, ins)
  {
    hide Run, MessageOutput, Faithful, MessageFor, ResponsesUsageOf;
    RunHeaders(v, cfg, ins);
    HeadersAtEnd(v, cfg, ins);
    OutputsAgree(v, cfg, ins);
  }

  lemma HeadersAtEnd(v: View, cfg: Config, ins: seq<Input>)
    requires v == InitialView(v.responseId, v.model) && End !in ins
    ensures var w := Run(v, cfg, ins);
            var r := Run(v, cfg, ins + [End]).it.client.completed;
            r.Some? && r == Some(FinalResponse(w.responseId, w.model, FinishOf(ins), w.usage, r.value.output))
  {
    hide Fits, Unfinished, Owned, Run, Wrapped, Output;
    EndDesk(v, cfg, ins);
    RunTells(v, cfg, ins);
  }

  /** An upstream that starts counting its calls at 1: the item of the call is
      never done, and the terminal event does not list it. */
  lemma CountingFromOne(v: View, cfg: Config, id: string, name: string, args: string)
    requires v == InitialView(v.responseId, v.model) && name != ""
    ensures var c := Run(v, cfg, [Tool(1, id, name, args)] + [End]).it.client;
            !AllDone(c) && c.completed.Some? && c.completed.value.output == []
  {
    var i := Tool(1, id, name, args);
    var ins := [i];
    assert ins == [] + [i];
    InitOfSnoc<Input>([], i);
    assert ReasoningOf([]) == "" && TextOf([]) == "" && "" + "" == "";
    assert ReasoningOf(ins) == ReasoningOf([]) + "" && TextOf(ins) == TextOf([]) + "";
    assert FirstNameOf([], 1) == "" && SeenOf([]) == {};
    assert SeenOf(ins) == {1} && FirstNameOf(ins, 1) == name && ReasoningOf(ins) == "" && TextOf(ins) == "";
    assert KindTold(cfg, FirstNameOf(ins, 1)).Some?;
    hide Run, KindTold, CallOutputs;
    EveryItemDone(v, cfg, ins);
    OutputAtEnd(v, cfg, ins);
    CallsEndedAtEnd(v, cfg, ins);
    var d := Run(v, cfg, ins + [End]).it;
    assert |d.calls| == |d.calls.Keys| == 1 && 0 !in d.calls;
    CallOutputsList(d, cfg, 1);
  }
}
