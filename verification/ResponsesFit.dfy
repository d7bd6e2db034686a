/** The state of the Responses converter fits its client: every output item is
    known under its index and id and in the stage the converter takes it to be. */
module ResponsesFit {
  import opened Common
  import opened ChatChunks
  import opened ResponsesProtocol
  import opened ResponsesAssembly

  predicate Has(c: Client, out: nat, item: nat) {
    out in c.items && c.items[out].id == item
  }

  /** The reasoning and message items. */
  ghost predicate LanesFit(d: Desk) {
    && (match d.reasoning
        case Unopened => d.reasoningText == ""
        case OpenAt(out, item) =>
          out < d.nextOut && Has(d.client, out, item) && d.client.items[out].header == ReasoningItem("") &&
          d.client.items[out].stage.PartOpen? && d.client.items[out].text == d.reasoningText
        case ClosedAt(out, item) =>
          out < d.nextOut && Has(d.client, out, item) && d.client.items[out].header == ReasoningItem("") &&
          d.client.items[out].stage.Done?)
    && (match d.message
        case None => d.text == ""
        case Some((out, item)) =>
          out < d.nextOut && Has(d.client, out, item) && d.client.items[out].header == MessageItem("") &&
          (d.client.items[out].stage.PartOpen? || d.client.items[out].stage.Done?) && d.client.items[out].text == d.text)
  }

  predicate HeaderFits(header: Content, kind: Kind) {
    match kind
    case CustomCall => header.CustomItem?
    case SearchCall => header.SearchItem?
    case NamespacedCall(_, _) => header.FunctionItem?
    case PlainCall => header.FunctionItem?
  }

  /** A call and its item: none before it is announced, then one that has
      received all arguments of an ordinary call and none of the others. */
  predicate CallFits(d: Desk, k: int) {
    k in d.calls &&
    var c := d.calls[k];
    && c.out < d.nextOut
    && (c.kind.None? ==> c.out !in d.client.items)
    && (c.kind.Some? ==>
          Has(d.client, c.out, c.item) && HeaderFits(d.client.items[c.out].header, c.kind.value) &&
          (d.client.items[c.out].stage.Fresh? || d.client.items[c.out].stage.Done?) &&
          (d.client.items[c.out].stage.Fresh? || Ordinary(c.kind.value) ==>
             d.client.items[c.out].text == if Streams(c) then c.args else ""))
  }

  predicate InLane(d: Desk, out: nat) {
    (!d.reasoning.Unopened? && d.reasoning.out == out) || (d.message.Some? && d.message.value.0 == out)
  }

  /** No two items share an output index. */
  ghost predicate Apart(d: Desk) {
    && (forall i | i in d.client.items :: i < d.nextOut)
    && (forall k | k in d.calls :: !InLane(d, d.calls[k].out))
    && (forall j, k | j in d.calls && k in d.calls && j != k :: d.calls[j].out != d.calls[k].out)
    && (d.message.Some? && !d.reasoning.Unopened? ==> d.message.value.0 != d.reasoning.out)
  }

  ghost predicate Fits(d: Desk) {
    LanesFit(d) && Apart(d) && forall k | k in d.calls :: CallFits(d, k)
  }

  /** The two clients agree on every item but the one at index i. */
  ghost predicate SameBut(c: Client, e: Client, i: nat) {
    forall x | x != i :: (x in c.items <==> x in e.items) && (x in c.items ==> c.items[x] == e.items[x])
  }

  lemma CallKept(d: Desk, e: Desk, i: nat, j: int)
    requires CallFits(d, j) && j in e.calls && e.calls[j] == d.calls[j] && e.nextOut >= d.nextOut
    requires SameBut(d.client, e.client, i) && d.calls[j].out != i
    ensures CallFits(e, j)
  {
  }

  lemma CallsKept(d: Desk, e: Desk, i: nat)
    requires Fits(d) && e.calls == d.calls && e.nextOut >= d.nextOut && SameBut(d.client, e.client, i)
    requires forall k | k in d.calls :: d.calls[k].out != i
    ensures forall k | k in e.calls :: CallFits(e, k)
  {
    forall k | k in e.calls ensures CallFits(e, k) {
      CallKept(d, e, i, k);
    }
  }

  lemma OpenedReasoningFits(d: Desk)
    requires Fits(d)
    ensures Fits(OpenedReasoning(d)) && !OpenedReasoning(d).reasoning.Unopened?
  {
    if d.reasoning.Unopened? {
      CallsKept(d, OpenedReasoning(d), d.nextOut);
    }
  }

  lemma ClosedReasoningFits(d: Desk)
    requires Fits(d)
    ensures Fits(ClosedReasoning(d)) && !ClosedReasoning(d).reasoning.OpenAt?
  {
    if d.reasoning.OpenAt? {
      CallsKept(d, ClosedReasoning(d), d.reasoning.out);
    }
  }

  lemma OpenedMessageFits(d: Desk)
    requires Fits(d)
    ensures Fits(OpenedMessage(d))
  {
    if d.message.None? {
      CallsKept(d, OpenedMessage(d), d.nextOut);
    }
  }

  lemma OnReasoningFits(d: Desk, t: string)
    requires Fits(d)
    ensures Fits(OnReasoning(d, t))
  {
    OpenedReasoningFits(d);
    var e := OpenedReasoning(d);
    CallsKept(e, OnReasoning(d, t), e.reasoning.out);
  }

  lemma WrittenFits(d: Desk, t: string)
    requires Fits(d)
    ensures Fits(Written(d, t))
  {
    OpenedMessageFits(d);
    var e := OpenedMessage(d);
    CallsKept(e, Written(d, t), e.message.value.0);
  }

  lemma NotedFits(d: Desk, k: int, id: string, name: string)
    requires Fits(d)
    ensures Fits(Noted(d, k, id, name)) && k in Noted(d, k, id, name).calls
  {
    var e := Noted(d, k, id, name);
    if k in d.calls {
      forall j | j in e.calls ensures CallFits(e, j) {
        assert CallFits(d, j);
      }
    } else {
      ClosedReasoningFits(d);
      var c := ClosedReasoning(d);
      forall j | j in e.calls ensures CallFits(e, j) {
        if j != k {
          assert CallFits(c, j);
        }
      }
    }
  }

  /** A change to the item and record of one call leaves the rest fitting. */
  lemma OneCallFits(d: Desk, e: Desk, k: int)
    requires Fits(d) && k in d.calls && SameBut(d.client, e.client, d.calls[k].out)
    requires e.calls.Keys == d.calls.Keys && forall j | j in d.calls && j != k :: e.calls[j] == d.calls[j]
    requires e.calls[k].out == d.calls[k].out && CallFits(e, k)
    requires e.reasoning == d.reasoning && e.message == d.message && e.nextOut == d.nextOut
    requires e.reasoningText == d.reasoningText && e.text == d.text
    ensures Fits(e)
  {
    forall j | j in e.calls ensures CallFits(e, j) {
      if j != k {
        CallKept(d, e, d.calls[k].out, j);
      }
    }
  }

  lemma AnnouncedFits(d: Desk, cfg: Config, k: int, force: bool)
    requires Fits(d)
    ensures Fits(Announced(d, cfg, k, force))
    ensures k in d.calls ==> k in Announced(d, cfg, k, force).calls
  {
    var e := Announced(d, cfg, k, force);
    if k in d.calls && e != d {
      assert CallFits(d, k);
      assert "" + d.calls[k].args == d.calls[k].args;
      OneCallFits(d, e, k);
    }
  }

  lemma FedFits(d: Desk, k: int, args: string)
    requires Fits(d)
    ensures Fits(Fed(d, k, args))
  {
    if args != "" && k in d.calls {
      assert CallFits(d, k);
      OneCallFits(d, Fed(d, k, args), k);
    }
  }

  lemma OnToolFits(d: Desk, cfg: Config, k: int, id: string, name: string, args: string)
    requires Fits(d)
    ensures Fits(OnTool(d, cfg, k, id, name, args))
  {
    hide Fits, Noted, Announced, Fed;
    NotedFits(d, k, id, name);
    var e := Noted(d, k, id, name);
    AnnouncedFits(e, cfg, k, false);
    FedFits(Announced(e, cfg, k, false), k, args);
  }

  lemma FallenBackFits(d: Desk)
    requires Fits(d)
    ensures Fits(FallenBack(d))
  {
    WrittenFits(d, d.reasoningText);
  }

  lemma ClosedMessageFits(d: Desk)
    requires Fits(d)
    ensures Fits(ClosedMessage(d))
  {
    if d.message.Some? {
      CallsKept(d, ClosedMessage(d), d.message.value.0);
    }
  }

  lemma ClosedCallFits(d: Desk, cfg: Config, k: int)
    requires Fits(d)
    ensures Fits(ClosedCall(d, cfg, k))
    ensures k in d.calls ==>
              var e := ClosedCall(d, cfg, k);
              k in e.calls && e.calls[k].kind.Some? && e.calls[k].out in e.client.items &&
              e.client.items[e.calls[k].out].stage.Done?
  {
    if k in d.calls {
      AnnouncedFits(d, cfg, k, true);
      var e := Announced(d, cfg, k, true);
      assert CallFits(e, k);
      OneCallFits(e, ClosedCall(d, cfg, k), k);
    }
  }

  lemma {:induction false} ClosedCallsFit(d: Desk, cfg: Config, n: nat)
    requires Fits(d)
    ensures Fits(ClosedCalls(d, cfg, n))
  {
    hide Fits, ClosedCall;
    if n > 0 {
      ClosedCallsFit(d, cfg, n - 1);
      ClosedCallFits(ClosedCalls(d, cfg, n - 1), cfg, n - 1);
    }
  }

  lemma WrappedFits(d: Desk, cfg: Config)
    requires Fits(d)
    ensures Fits(ClosedReasoning(d)) && Fits(FallenBack(ClosedReasoning(d)))
    ensures Fits(ClosedMessage(FallenBack(ClosedReasoning(d)))) && Fits(Wrapped(d, cfg))
  {
    hide Fits;
    ClosedReasoningFits(d);
    FallenBackFits(ClosedReasoning(d));
    ClosedMessageFits(FallenBack(ClosedReasoning(d)));
    var e := ClosedMessage(FallenBack(ClosedReasoning(d)));
    ClosedCallsFit(e, cfg, |e.calls|);
  }

  lemma SameItemsFit(d: Desk, c: Client)
    requires Fits(d) && c.items == d.client.items
    ensures Fits(d.(client := c))
  {
    CallsKept(d, d.(client := c), d.nextOut);
  }

  lemma InputFits(v: View, cfg: Config, i: Input)
    requires Fits(v.it)
    ensures Fits(OnInput(v, cfg, i).it)
  {
    hide Fits, OnReasoning, OnText, OnTool, Wrapped, Output;
    match i
    case Head(_, _, _) => SameItemsFit(v.it, OnInput(v, cfg, i).it.client);
    case Reasoning(t) => OnReasoningFits(v.it, t);
    case Text(t) => OnTextFits(v.it, t);
    case Tool(k, id, name, args) => OnToolFits(v.it, cfg, k, id, name, args);
    case Finish(_) =>
    case End =>
      if v.it.client.completed.None? {
        var c := Begun(v.it.client, v.responseId, v.model);
        SameItemsFit(v.it, c);
        WrappedFits(v.it.(client := c), cfg);
        SameItemsFit(Wrapped(v.it.(client := c), cfg), OnInput(v, cfg, i).it.client);
      }
  }

  lemma OnTextFits(d: Desk, t: string)
    requires Fits(d)
    ensures Fits(OnText(d, t))
  {
    ClosedReasoningFits(d);
    WrittenFits(ClosedReasoning(d), t);
  }

  lemma {:induction false} RunFits(v: View, cfg: Config, ins: seq<Input>)
    requires v == InitialView(v.responseId, v.model)
    ensures Fits(Run(v, cfg, ins).it)
  {
    if ins == [] {
      assert Fits(EMPTY_DESK);
    } else {
      RunFits(v, cfg, Init(ins));
      InputFits(Run(v, cfg, Init(ins)), cfg, Last(ins));
    }
  }

  /** What one step of the converter needs to know of a fitting desk. */
  lemma FitsAt(d: Desk, k: int)
    requires Fits(d)
    ensures LanesFit(d) && d.nextOut !in d.client.items
    ensures k in d.calls ==> CallFits(d, k)
  {
  }

  /** The item of a call is not done. */
  predicate CallOpen(d: Desk, k: int) {
    k in d.calls && d.calls[k].out in d.client.items ==> d.client.items[d.calls[k].out].stage.Fresh?
  }

  ghost predicate AllOpen(d: Desk) {
    forall k | k in d.calls :: CallOpen(d, k)
  }

  lemma ForcedFits(d: Desk, cfg: Config, k: int)
    requires Fits(d) && k in d.calls && CallOpen(d, k)
    ensures var e := Announced(d, cfg, k, true);
            CallFits(d, k) && k in e.calls && CallFits(e, k) && e.calls[k].kind.Some? &&
            e.calls[k].out in e.client.items && e.client.items[e.calls[k].out].stage.Fresh?
  {
    AnnouncedFits(d, cfg, k, true);
    FitsAt(d, k);
    FitsAt(Announced(d, cfg, k, true), k);
  }

  /** Closing one call leaves the items of the others alone. */
  lemma ClosedCallOthers(d: Desk, cfg: Config, k: int, j: int)
    requires Fits(d) && j != k
    ensures var e := ClosedCall(d, cfg, k);
            e.calls.Keys == d.calls.Keys && (j in d.calls ==> e.calls[j] == d.calls[j]) &&
            (j in d.calls ==> (d.calls[j].out in e.client.items <==> d.calls[j].out in d.client.items)) &&
            (j in d.calls && d.calls[j].out in d.client.items ==>
               e.client.items[d.calls[j].out] == d.client.items[d.calls[j].out])
  {
    if k in d.calls {
      AnnouncedFits(d, cfg, k, true);
      FitsAt(d, k);
      if j in d.calls {
        assert d.calls[j].out != d.calls[k].out;
        hide Fits;
        var e := Announced(d, cfg, k, true);
        AnnouncedOthers(d, cfg, k, d.calls[j].out);
        FinishedOthers(e.client, cfg, e.calls[k], d.calls[j].out);
      }
    }
  }

  lemma AnnouncedOthers(d: Desk, cfg: Config, k: int, i: nat)
    requires k in d.calls && d.calls[k].out != i
    ensures var e := Announced(d, cfg, k, true);
            && (i in e.client.items <==> i in d.client.items)
            && (i in d.client.items ==> e.client.items[i] == d.client.items[i])
            && e.calls.Keys == d.calls.Keys && (forall j | j in d.calls && j != k :: e.calls[j] == d.calls[j])
            && e.calls[k].out == d.calls[k].out
  {
  }

  lemma FinishedOthers(c: Client, cfg: Config, call: Call, i: nat)
    requires i != call.out
    ensures var e := FinishedCall(c, cfg, call);
            (i in e.items <==> i in c.items) && (i in c.items ==> e.items[i] == c.items[i])
  {
  }

  /** Calls not reached yet are still open. */
  lemma {:induction false} ClosedCallsOpen(d: Desk, cfg: Config, n: nat, j: int)
    requires Fits(d) && AllOpen(d) && (j < 0 || n <= j)
    ensures CallOpen(ClosedCalls(d, cfg, n), j) && ClosedCalls(d, cfg, n).calls.Keys == d.calls.Keys
  {
    hide Fits, ClosedCall;
    if n > 0 {
      ClosedCallsOpen(d, cfg, n - 1, j);
      ClosedCallsFit(d, cfg, n - 1);
      ClosedCallOthers(ClosedCalls(d, cfg, n - 1), cfg, n - 1, j);
    }
  }

  /** Nothing but the reasoning item is done before the end. */
  ghost predicate Unfinished(d: Desk) {
    AllOpen(d) && (d.message.Some? && d.message.value.0 in d.client.items ==>
                     d.client.items[d.message.value.0].stage.PartOpen?)
  }

  lemma ClosedReasoningUnfinished(d: Desk)
    requires Fits(d) && Unfinished(d)
    ensures Unfinished(ClosedReasoning(d))
  {
    var e := ClosedReasoning(d);
    forall k | k in e.calls ensures CallOpen(e, k) {
      assert CallOpen(d, k) && CallFits(d, k);
    }
  }

  lemma OpenedUnfinished(d: Desk)
    requires Fits(d) && Unfinished(d)
    ensures Unfinished(OpenedReasoning(d)) && Unfinished(OpenedMessage(d))
  {
    forall k | k in d.calls ensures CallOpen(OpenedReasoning(d), k) && CallOpen(OpenedMessage(d), k) {
      assert CallOpen(d, k) && CallFits(d, k);
    }
  }

  lemma ToldUnfinished(d: Desk, e: Desk, out: nat, t: string, route: Option<(CallId, string)>)
    requires Unfinished(d) && e.client == Told(d.client, out, t, route) && e.message == d.message
    requires e.calls.Keys == d.calls.Keys && forall k | k in d.calls :: e.calls[k].out == d.calls[k].out
    ensures Unfinished(e)
  {
    forall k | k in e.calls ensures CallOpen(e, k) {
      assert CallOpen(d, k);
    }
  }

  lemma WrittenUnfinished(d: Desk, t: string)
    requires Fits(d) && Unfinished(d)
    ensures Unfinished(Written(d, t))
  {
    hide Fits, Unfinished;
    OpenedUnfinished(d);
    var e := OpenedMessage(d);
    ToldUnfinished(e, Written(d, t), e.message.value.0, t, None);
  }

  lemma ReasoningUnfinished(d: Desk, t: string)
    requires Fits(d) && Unfinished(d)
    ensures Unfinished(OnReasoning(d, t))
  {
    hide Fits, Unfinished;
    OpenedUnfinished(d);
    var e := OpenedReasoning(d);
    if !e.reasoning.Unopened? {
      ToldUnfinished(e, OnReasoning(d, t), e.reasoning.out, t, None);
    }
  }

  lemma NotedUnfinished(d: Desk, k: int, id: string, name: string)
    requires Fits(d) && Unfinished(d)
    ensures Unfinished(Noted(d, k, id, name))
  {
    var e := Noted(d, k, id, name);
    ClosedReasoningFits(d);
    ClosedReasoningUnfinished(d);
    var c := ClosedReasoning(d);
    forall j | j in e.calls ensures CallOpen(e, j) {
      if j in d.calls {
        assert CallOpen(d, j) && CallOpen(c, j);
      } else {
        assert c.nextOut !in c.client.items;
      }
    }
  }

  lemma AnnouncedUnfinished(d: Desk, cfg: Config, k: int, force: bool)
    requires Fits(d) && Unfinished(d)
    ensures Unfinished(Announced(d, cfg, k, force))
  {
    var e := Announced(d, cfg, k, force);
    if e != d {
      assert CallFits(d, k);
      forall j | j in e.calls ensures CallOpen(e, j) {
        assert CallOpen(d, j);
      }
    }
  }

  lemma FedUnfinished(d: Desk, k: int, args: string)
    requires Unfinished(d)
    ensures Unfinished(Fed(d, k, args))
  {
    var e := Fed(d, k, args);
    if e.client != d.client {
      ToldUnfinished(d, e, d.calls[k].out, args, RouteOf(e.calls[k]));
    } else {
      forall j | j in e.calls ensures CallOpen(e, j) {
        assert CallOpen(d, j);
      }
    }
  }

  lemma ToolUnfinished(d: Desk, cfg: Config, k: int, id: string, name: string, args: string)
    requires Fits(d) && Unfinished(d)
    ensures Unfinished(OnTool(d, cfg, k, id, name, args))
  {
    hide Fits, Unfinished, Noted, Announced, Fed;
    NotedUnfinished(d, k, id, name);
    NotedFits(d, k, id, name);
    AnnouncedUnfinished(Noted(d, k, id, name), cfg, k, false);
    FedUnfinished(Announced(Noted(d, k, id, name), cfg, k, false), k, args);
  }

  lemma SameItemsUnfinished(d: Desk, c: Client)
    requires Unfinished(d) && c.items == d.client.items
    ensures Unfinished(d.(client := c))
  {
    forall k | k in d.calls ensures CallOpen(d.(client := c), k) {
      assert CallOpen(d, k);
    }
  }

  lemma {:induction false} RunUnfinished(v: View, cfg: Config, ins: seq<Input>)
    requires v == InitialView(v.responseId, v.model) && End !in ins
    ensures Unfinished(Run(v, cfg, ins).it)
  {
    hide Fits, OnReasoning, Written, ClosedReasoning, OnTool;
    if ins != [] {
      assert Init(ins) + [Last(ins)] == ins;
      RunUnfinished(v, cfg, Init(ins));
      RunFits(v, cfg, Init(ins));
      var d := Run(v, cfg, Init(ins)).it;
      hide Unfinished;
      match Last(ins)
      case Head(_, _, _) => SameItemsUnfinished(d, Run(v, cfg, ins).it.client);
      case Reasoning(t) => ReasoningUnfinished(d, t);
      case Text(t) =>
        ClosedReasoningUnfinished(d);
        ClosedReasoningFits(d);
        WrittenUnfinished(ClosedReasoning(d), t);
      case Tool(k, id, name, args) => ToolUnfinished(d, cfg, k, id, name, args);
      case Finish(_) =>
      case End => assert false;
    }
  }

  // ----- What no fragment changes -----

  predicate SameEnds(c: Client, d: Client) {
    d.created == c.created && d.completed == c.completed && (d.trailing ==> c.trailing || c.completed.Some?)
  }

  lemma WrittenKeeps(d: Desk, t: string)
    ensures SameEnds(d.client, Written(d, t).client)
  {
    var e := OpenedMessage(d);
    assert SameEnds(d.client, e.client);
  }

  lemma ClosedReasoningKeeps(d: Desk)
    ensures SameEnds(d.client, ClosedReasoning(d).client) && ClosedReasoning(d).calls == d.calls
  {
  }

  lemma ReasoningKeeps(d: Desk, t: string)
    ensures SameEnds(d.client, OnReasoning(d, t).client)
  {
    var e := OpenedReasoning(d);
    assert SameEnds(d.client, e.client);
  }

  lemma AnnouncedKeeps(d: Desk, cfg: Config, k: int, force: bool)
    ensures SameEnds(d.client, Announced(d, cfg, k, force).client)
  {
  }

  lemma ToolKeeps(d: Desk, cfg: Config, k: int, id: string, name: string, args: string)
    ensures SameEnds(d.client, OnTool(d, cfg, k, id, name, args).client)
  {
    hide Announced, ClosedReasoning;
    ClosedReasoningKeeps(d);
    var e := Noted(d, k, id, name);
    assert SameEnds(d.client, e.client);
    AnnouncedKeeps(e, cfg, k, false);
  }

  lemma FinishedKeeps(c: Client, cfg: Config, call: Call)
    ensures SameEnds(c, FinishedCall(c, cfg, call))
  {
  }

  lemma {:induction false} ClosedCallsKeep(d: Desk, cfg: Config, n: nat)
    ensures SameEnds(d.client, ClosedCalls(d, cfg, n).client)
    ensures ClosedCalls(d, cfg, n).calls.Keys == d.calls.Keys
  {
    hide Announced, FinishedCall;
    if n > 0 {
      ClosedCallsKeep(d, cfg, n - 1);
      var e := ClosedCalls(d, cfg, n - 1);
      AnnouncedKeeps(e, cfg, n - 1, true);
      AnnouncedCalls(e, cfg, n - 1);
      var a := Announced(e, cfg, n - 1, true);
      if n - 1 in e.calls {
        FinishedKeeps(a.client, cfg, a.calls[n - 1]);
      }
    }
  }

  lemma AnnouncedCalls(d: Desk, cfg: Config, k: int)
    ensures Announced(d, cfg, k, true).calls.Keys == d.calls.Keys
  {
  }

  lemma WrappedKeeps(d: Desk, cfg: Config)
    ensures SameEnds(d.client, Wrapped(d, cfg).client)
  {
    hide ClosedReasoning, Written, ClosedCalls;
    ClosedReasoningKeeps(d);
    var e := ClosedReasoning(d);
    WrittenKeeps(e, e.reasoningText);
    var f := FallenBack(e);
    assert SameEnds(f.client, ClosedMessage(f).client);
    ClosedCallsKeep(ClosedMessage(f), cfg, |ClosedMessage(f).calls|);
  }

  /** The terminal event comes with the end of the stream, and until then
      nothing trails. */
  lemma {:induction false} RunCompletes(v: View, cfg: Config, ins: seq<Input>)
    requires v == InitialView(v.responseId, v.model)
    ensures var c := Run(v, cfg, ins).it.client;
            (c.completed.Some? <==> End in ins) && (End !in ins ==> !c.trailing)
  {
    hide OnReasoning, Written, ClosedReasoning, OnTool, Wrapped, Output;
    if ins != [] {
      assert Init(ins) + [Last(ins)] == ins;
      RunCompletes(v, cfg, Init(ins));
      var w := Run(v, cfg, Init(ins));
      var d := w.it;
      match Last(ins)
      case Head(_, _, _) =>
      case Reasoning(t) => ReasoningKeeps(d, t);
      case Text(t) =>
        ClosedReasoningKeeps(d);
        WrittenKeeps(ClosedReasoning(d), t);
      case Tool(k, id, name, args) => ToolKeeps(d, cfg, k, id, name, args);
      case Finish(_) =>
      case End =>
    }
  }

  /** What closing the reasoning and message items needs to know, step by step. */
  ghost predicate LanesReady(d: Desk) {
    var e := ClosedReasoning(d);
    var f := FallenBack(e);
    && LanesFit(d) && e.nextOut !in e.client.items && LanesFit(OpenedMessage(e)) && LanesFit(f)
    && (f.message.Some? ==> f.message.value.0 in f.client.items && f.client.items[f.message.value.0].stage.PartOpen?)
  }

  lemma WrappingFits(d: Desk)
    requires Fits(d) && Unfinished(d)
    ensures LanesReady(d)
    ensures var g := ClosedMessage(FallenBack(ClosedReasoning(d))); Fits(g) && AllOpen(g)
  {
    hide Fits, ClosedReasoning, FallenBack, ClosedMessage, OpenedMessage, Unfinished;
    var e := ClosedReasoning(d);
    var f := FallenBack(e);
    TextFits(d);
    ClosedReasoningFits(d);
    ClosedReasoningUnfinished(d);
    FallenBackFits(e);
    FallenBackUnfinished(e);
    FitsAt(f, 0);
    ClosedMessageFits(f);
    if f.message.Some? {
      MessageOpen(f);
    }
    ClosedMessageOpen(f);
  }

  lemma TextFits(d: Desk)
    requires Fits(d)
    ensures var e := ClosedReasoning(d);
            LanesFit(d) && e.nextOut !in e.client.items && LanesFit(OpenedMessage(e))
  {
    hide Fits, ClosedReasoning, OpenedMessage;
    var e := ClosedReasoning(d);
    FitsAt(d, 0);
    ClosedReasoningFits(d);
    FitsAt(e, 0);
    OpenedMessageFits(e);
    FitsAt(OpenedMessage(e), 0);
  }

  lemma FallenBackUnfinished(d: Desk)
    requires Fits(d) && Unfinished(d)
    ensures Unfinished(FallenBack(d))
  {
    hide Fits, Unfinished, Written;
    WrittenUnfinished(d, d.reasoningText);
  }

  lemma MessageOpen(d: Desk)
    requires Fits(d) && Unfinished(d) && d.message.Some?
    ensures d.message.value.0 in d.client.items && d.client.items[d.message.value.0].stage.PartOpen?
  {
  }

  lemma ClosedMessageOpen(d: Desk)
    requires Fits(d) && Unfinished(d)
    ensures AllOpen(ClosedMessage(d))
  {
    forall k | k in d.calls ensures CallOpen(ClosedMessage(d), k) {
      assert CallOpen(d, k) && CallFits(d, k);
    }
  }
}
