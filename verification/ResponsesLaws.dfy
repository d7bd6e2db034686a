/** What holds of every run of the Chat Completions to Responses stream: arguments
    stream exactly as they arrive, every item is closed when the upstream numbers
    its calls without gaps, and the terminal event repeats the batch conversion. */
module ResponsesLaws {
  import opened Common
  import opened ChatChunks
  import opened ResponsesProtocol
  import opened ResponsesAssembly
  import opened ResponsesFit

  // ----- The calls on record are those delivered -----

  /** The id a call ends up with: the last one delivered, or a drawn one. */
  predicate IdTells(id: CallId, last: string) {
    if last != "" then id == Given(last) else id.Minted?
  }

  /** The type of a call, decided by the first name that came. */
  function KindTold(cfg: Config, first: string): Option<Kind> {
    if first == "" && Declares(cfg) then None else Some(KindOf(cfg, first))
  }

  predicate CallTells(cfg: Config, c: Call, ins: seq<Input>, k: int) {
    && c.args == ArgsOf(ins, k)
    && c.name == LastNameOf(ins, k)
    && IdTells(c.id, LastIdOf(ins, k))
    && c.kind == KindTold(cfg, FirstNameOf(ins, k))
  }

  ghost predicate CallsTell(d: Desk, cfg: Config, ins: seq<Input>) {
    d.calls.Keys == SeenOf(ins) && forall k | k in d.calls :: CallTells(cfg, d.calls[k], ins, k)
  }

  predicate TextTells(d: Desk, ins: seq<Input>) {
    d.reasoningText == ReasoningOf(ins) && d.text == TextOf(ins) && (d.message.Some? <==> TextOf(ins) != "")
  }

  lemma PlainWhenUndeclared(cfg: Config, name: string)
    requires !Declares(cfg)
    ensures KindOf(cfg, name) == PlainCall
  {
  }

  lemma {:induction false} UnseenSaysNothing(ins: seq<Input>, k: int)
    requires k !in SeenOf(ins)
    ensures ArgsOf(ins, k) == "" && FirstNameOf(ins, k) == "" && LastNameOf(ins, k) == "" && LastIdOf(ins, k) == ""
  {
    if ins != [] {
      UnseenSaysNothing(Init(ins), k);
    }
  }

  lemma {:induction false} NamedAtAll(ins: seq<Input>, k: int)
    ensures FirstNameOf(ins, k) == "" <==> LastNameOf(ins, k) == ""
  {
    if ins != [] {
      NamedAtAll(Init(ins), k);
    }
  }

  lemma OtherInputTells(d: Desk, cfg: Config, ins: seq<Input>, i: Input)
    requires CallsTell(d, cfg, ins) && !i.Tool?
    ensures CallsTell(d, cfg, ins + [i])
  {
    InitOfSnoc(ins, i);
    forall k | k in d.calls ensures CallTells(cfg, d.calls[k], ins + [i], k) {
      assert CallTells(cfg, d.calls[k], ins, k);
    }
  }

  /** What one tool input does to the record of its own call. */
  function OwnCall(cfg: Config, c: Call, id: string, name: string, args: string): Call {
    var n := c.(id := if id != "" then Given(id) else c.id, name := if name != "" then name else c.name);
    var a := if n.kind.None? && (n.name != "" || !Declares(cfg)) then n.(kind := Some(KindOf(cfg, n.name))) else n;
    a.(args := a.args + args)
  }

  lemma ToolCalls(d: Desk, cfg: Config, k: int, id: string, name: string, args: string)
    ensures var e := OnTool(d, cfg, k, id, name, args);
            && e.calls.Keys == d.calls.Keys + {k}
            && (forall j | j in d.calls && j != k :: e.calls[j] == d.calls[j])
            && (if k in d.calls then e.calls[k] == OwnCall(cfg, d.calls[k], id, name, args)
                else exists out, item, callId ::
                  e.calls[k] == OwnCall(cfg, Call(out, item, Minted(callId), "", "", None), id, name, args))
            && e.reasoningText == d.reasoningText && e.text == d.text && e.message == d.message
  {
    var n := Noted(d, k, id, name);
    var a := Announced(n, cfg, k, false);
    assert a.calls[k].args + "" == a.calls[k].args;
    if k !in d.calls {
      var c := n.calls[k];
      var base := Call(c.out, c.item, Minted(ClosedReasoning(d).minted), "", "", None);
      assert OnTool(d, cfg, k, id, name, args).calls[k] == OwnCall(cfg, base, id, name, args);
    }
  }

  lemma OwnCallTells(cfg: Config, c: Call, ins: seq<Input>, k: int, id: string, name: string, args: string)
    requires if k in SeenOf(ins) then CallTells(cfg, c, ins, k)
             else c.args == "" && c.name == "" && c.id.Minted? && c.kind.None?
    ensures CallTells(cfg, OwnCall(cfg, c, id, name, args), ins + [Tool(k, id, name, args)], k)
  {
    InitOfSnoc(ins, Tool(k, id, name, args));
    if k !in SeenOf(ins) {
      UnseenSaysNothing(ins, k);
      assert "" + args == args;
    }
    NamedAtAll(ins, k);
    if !Declares(cfg) {
      PlainWhenUndeclared(cfg, FirstNameOf(ins, k));
      PlainWhenUndeclared(cfg, name);
      PlainWhenUndeclared(cfg, c.name);
    }
  }

  lemma ToolInputTells(d: Desk, cfg: Config, ins: seq<Input>, i: Input)
    requires CallsTell(d, cfg, ins) && i.Tool?
    ensures CallsTell(OnTool(d, cfg, i.index, i.id, i.name, i.arguments), cfg, ins + [i])
  {
    hide OnTool, OwnCall;
    InitOfSnoc(ins, i);
    ToolCalls(d, cfg, i.index, i.id, i.name, i.arguments);
    var e := OnTool(d, cfg, i.index, i.id, i.name, i.arguments);
    forall j | j in e.calls ensures CallTells(cfg, e.calls[j], ins + [i], j) {
      if j != i.index {
        assert CallTells(cfg, d.calls[j], ins, j);
      } else if j in d.calls {
        assert CallTells(cfg, d.calls[j], ins, j);
        OwnCallTells(cfg, d.calls[j], ins, j, i.id, i.name, i.arguments);
      } else {
        var out, item, n :|
          e.calls[j] == OwnCall(cfg, Call(out, item, Minted(n), "", "", None), i.id, i.name, i.arguments);
        OwnCallTells(cfg, Call(out, item, Minted(n), "", "", None), ins, j, i.id, i.name, i.arguments);
      }
    }
  }

  lemma TextRunTells(d: Desk, cfg: Config, i: Input)
    requires d.reasoning.Unopened? ==> d.reasoningText == ""
    ensures i.Reasoning? && i.text != "" ==>
              var e := OnReasoning(d, i.text);
              e.reasoningText == d.reasoningText + i.text && e.text == d.text && e.message == d.message && e.calls == d.calls
    ensures i.Text? && i.text != "" ==>
              var e := OnText(d, i.text);
              e.reasoningText == d.reasoningText && e.text == d.text + i.text && e.message.Some? && e.calls == d.calls
    ensures i.Tool? ==>
              var e := OnTool(d, cfg, i.index, i.id, i.name, i.arguments);
              e.reasoningText == d.reasoningText && e.text == d.text && e.message == d.message
  {
    if i.Tool? {
      ToolCalls(d, cfg, i.index, i.id, i.name, i.arguments);
    }
  }

  /** At every point before the end the record is exactly what was delivered. */
  lemma {:induction false} RunTells(v: View, cfg: Config, ins: seq<Input>)
    requires v == InitialView(v.responseId, v.model) && End !in ins
    ensures CallsTell(Run(v, cfg, ins).it, cfg, ins) && TextTells(Run(v, cfg, ins).it, ins)
    ensures Run(v, cfg, ins).finish == FinishOf(ins)
  {
    hide OnReasoning, OnText, OnTool, Fits, CallsTell;
    if ins == [] {
      EmptyTells(cfg);
    } else {
      var before, i := Init(ins), Last(ins);
      assert before + [i] == ins;
      RunTells(v, cfg, before);
      RunFits(v, cfg, before);
      var d := Run(v, cfg, before).it;
      FitsAt(d, 0);
      TextRunTells(d, cfg, i);
      match i
      case Tool(_, _, _, _) => ToolInputTells(d, cfg, before, i);
      case End => assert false;
      case _ =>
        OtherInputTells(d, cfg, before, i);
        SameCallsTell(d, Run(v, cfg, ins).it, cfg, ins);
    }
  }

  lemma EmptyTells(cfg: Config)
    ensures CallsTell(EMPTY_DESK, cfg, [])
  {
  }

  lemma SameCallsTell(d: Desk, e: Desk, cfg: Config, ins: seq<Input>)
    requires CallsTell(d, cfg, ins) && e.calls == d.calls
    ensures CallsTell(e, cfg, ins)
  {
  }

  /** At every point before the end: a call that is not announced has no item; an
      announced one has the item of its type, and its argument deltas add up to
      exactly the fragments that came if it is an ordinary function call, and to
      nothing if it is a custom or tool_search call. */
  lemma ArgumentsStreamAsTheyCome(v: View, cfg: Config, ins: seq<Input>, k: int)
    requires v == InitialView(v.responseId, v.model) && End !in ins && k in SeenOf(ins)
    ensures var d := Run(v, cfg, ins).it;
            var told := KindTold(cfg, FirstNameOf(ins, k));
            && k in d.calls
            && (told.None? ==> d.calls[k].out !in d.client.items)
            && (told.Some? ==>
                  Has(d.client, d.calls[k].out, d.calls[k].item) &&
                  HeaderFits(d.client.items[d.calls[k].out].header, told.value) &&
                  d.client.items[d.calls[k].out].text == if Ordinary(told.value) then ArgsOf(ins, k) else "")
  {
    hide Run;
    RunTells(v, cfg, ins);
    RunFits(v, cfg, ins);
    RunUnfinished(v, cfg, ins);
    var d := Run(v, cfg, ins).it;
    assert CallTells(cfg, d.calls[k], ins, k);
    assert CallFits(d, k) && CallOpen(d, k);
  }

  // ----- Reasoning that comes too late -----

  datatype Phase = Before | During | After

  /** The reasoning item is opened by the first reasoning and closed by the next
      text or new tool call. */
  function PhaseOf(ins: seq<Input>): Phase {
    if ins == [] then Before
    else
      var p := PhaseOf(Init(ins));
      match Last(ins)
      case Reasoning(t) => if t != "" && p.Before? then During else p
      case Text(t) => if t != "" && p.During? then After else p
      case Tool(k, _, _, _) => if k !in SeenOf(Init(ins)) && p.During? then After else p
      case _ => p
  }

  predicate LateReasoningOf(ins: seq<Input>) {
    ins != [] &&
    (LateReasoningOf(Init(ins)) || (Last(ins).Reasoning? && Last(ins).text != "" && PhaseOf(Init(ins)).After?))
  }

  predicate PhaseTells(d: Desk, ins: seq<Input>) {
    && d.reasoning.Unopened? == PhaseOf(ins).Before?
    && d.reasoning.OpenAt? == PhaseOf(ins).During?
    && d.client.tidy == !LateReasoningOf(ins)
  }

  lemma ReasoningPhase(d: Desk, ins: seq<Input>, t: string)
    requires Fits(d) && PhaseTells(d, ins) && t != ""
    ensures PhaseTells(OnReasoning(d, t), ins + [Reasoning(t)])
  {
    InitOfSnoc(ins, Reasoning(t));
    OpenedReasoningFits(d);
  }

  lemma TextPhase(d: Desk, ins: seq<Input>, t: string)
    requires Fits(d) && Unfinished(d) && PhaseTells(d, ins) && t != ""
    ensures PhaseTells(OnText(d, t), ins + [Text(t)])
  {
    InitOfSnoc(ins, Text(t));
    ClosedReasoningFits(d);
    ClosedReasoningUnfinished(d);
    var e := ClosedReasoning(d);
    OpenedMessageFits(e);
    OpenedUnfinished(e);
  }

  lemma NotedPhase(d: Desk, cfg: Config, ins: seq<Input>, i: Input)
    requires Fits(d) && PhaseTells(d, ins) && i.Tool? && d.calls.Keys == SeenOf(ins)
    ensures PhaseTells(Noted(d, i.index, i.id, i.name), ins + [i])
  {
    InitOfSnoc(ins, i);
    ClosedReasoningFits(d);
  }

  /** An open call is announced and fed without touching a finished item. */
  lemma AnnouncedTidy(d: Desk, cfg: Config, k: int, args: string)
    requires k in d.calls && CallFits(d, k) && CallOpen(d, k)
    ensures var a := Announced(d, cfg, k, false);
            a.client.tidy == d.client.tidy && a.reasoning == d.reasoning &&
            Fed(a, k, args).client.tidy == d.client.tidy && Fed(a, k, args).reasoning == d.reasoning
  {
  }

  lemma ToolPhase(d: Desk, cfg: Config, ins: seq<Input>, i: Input)
    requires Fits(d) && Unfinished(d) && PhaseTells(d, ins) && i.Tool? && d.calls.Keys == SeenOf(ins)
    ensures PhaseTells(OnTool(d, cfg, i.index, i.id, i.name, i.arguments), ins + [i])
  {
    var n := Noted(d, i.index, i.id, i.name);
    NotedFits(d, i.index, i.id, i.name);
    NotedUnfinished(d, i.index, i.id, i.name);
    assert CallFits(n, i.index) && CallOpen(n, i.index);
    hide Fits, Unfinished, Noted, Announced, Fed, CallFits, CallOpen;
    NotedPhase(d, cfg, ins, i);
    AnnouncedTidy(n, cfg, i.index, i.arguments);
  }

  /** Every delta meets an item that is not done yet, exactly unless reasoning
      resumes after the reasoning item was closed. */
  lemma {:induction false} TidyUnlessLateReasoning(v: View, cfg: Config, ins: seq<Input>)
    requires v == InitialView(v.responseId, v.model) && End !in ins
    ensures PhaseTells(Run(v, cfg, ins).it, ins)
  {
    hide OnReasoning, OnText, OnTool, Fits, CallsTell, Unfinished;
    if ins != [] {
      var before, i := Init(ins), Last(ins);
      assert before + [i] == ins;
      TidyUnlessLateReasoning(v, cfg, before);
      RunFits(v, cfg, before);
      RunUnfinished(v, cfg, before);
      var d := Run(v, cfg, before).it;
      match i
      case Reasoning(t) => if t != "" { ReasoningPhase(d, before, t); }
      case Text(t) => if t != "" { TextPhase(d, before, t); }
      case Tool(_, _, _, _) =>
        SeenInRun(v, cfg, before);
        ToolPhase(d, cfg, before, i);
      case End => assert false;
      case _ =>
    }
  }

  lemma SeenInRun(v: View, cfg: Config, ins: seq<Input>)
    requires v == InitialView(v.responseId, v.model) && End !in ins
    ensures Run(v, cfg, ins).it.calls.Keys == SeenOf(ins)
  {
    RunTells(v, cfg, ins);
  }

  /** Reasoning that resumes after text reaches an item that is done already. */
  lemma ReasoningAfterText(v: View, cfg: Config)
    requires v == InitialView(v.responseId, v.model)
    ensures !Run(v, cfg, [Reasoning("a"), Text("b"), Reasoning("c")]).it.client.tidy
  {
    var one := [Reasoning("a")];
    var two := one + [Text("b")];
    var ins := two + [Reasoning("c")];
    InitOfSnoc<Input>([], Reasoning("a"));
    InitOfSnoc(one, Text("b"));
    InitOfSnoc(two, Reasoning("c"));
    assert [Reasoning("a"), Text("b"), Reasoning("c")] == ins;
    assert one == [] + [Reasoning("a")];
    assert PhaseOf(one).During? && PhaseOf(two).After?;
    TidyUnlessLateReasoning(v, cfg, ins);
  }
}
