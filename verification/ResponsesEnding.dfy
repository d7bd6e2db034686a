/** What the end of a Chat Completions to Responses stream leaves behind: which
    items are done, and the shape of the whole event log. */
module ResponsesEnding {
  import opened Common
  import opened ChatChunks
  import opened ResponsesProtocol
  import opened ResponsesAssembly
  import opened ResponsesFit
  import opened ResponsesLaws

  // ----- Every item belongs to something -----

  predicate Owner(d: Desk, i: nat, k: int) {
    k in d.calls && d.calls[k].out == i && d.calls[k].kind.Some?
  }

  ghost predicate OwnedAt(d: Desk, i: nat) {
    InLane(d, i) || exists k :: Owner(d, i, k)
  }

  /** Every item the client knows is the reasoning item, the message, or the item
      of an announced call. */
  ghost predicate Owned(d: Desk) {
    forall i | i in d.client.items :: OwnedAt(d, i)
  }

  lemma OwnedKept(d: Desk, e: Desk, x: nat)
    requires Owned(d) && e.client.items.Keys <= d.client.items.Keys + {x}
    requires forall i: nat | InLane(d, i) :: InLane(e, i)
    requires forall k | k in d.calls ::
               k in e.calls && e.calls[k].out == d.calls[k].out && (d.calls[k].kind.Some? ==> e.calls[k].kind.Some?)
    requires x in e.client.items && x !in d.client.items ==> OwnedAt(e, x)
    ensures Owned(e)
  {
    forall i | i in e.client.items ensures OwnedAt(e, i) {
      if i in d.client.items {
        assert OwnedAt(d, i);
        if !InLane(d, i) {
          var k :| Owner(d, i, k);
          assert Owner(e, i, k);
        }
      }
    }
  }

  lemma ClosedOwned(d: Desk)
    requires LanesFit(d) && Owned(d)
    ensures Owned(ClosedReasoning(d)) && Owned(ClosedMessage(d))
  {
    hide Owned, OwnedAt;
    OwnedKept(d, ClosedReasoning(d), 0);
    OwnedKept(d, ClosedMessage(d), 0);
  }

  lemma ReasoningOwned(d: Desk, t: string)
    requires LanesFit(d) && Owned(d)
    ensures Owned(OnReasoning(d, t))
  {
    var e := OnReasoning(d, t);
    assert InLane(e, d.nextOut) || !d.reasoning.Unopened?;
    assert d.reasoning.Unopened? ==> OwnedAt(e, d.nextOut);
    hide Owned, OwnedAt;
    OwnedKept(d, e, d.nextOut);
  }

  lemma WrittenOwned(d: Desk, t: string)
    requires LanesFit(d) && Owned(d)
    ensures Owned(Written(d, t))
  {
    var e := Written(d, t);
    assert d.message.None? ==> InLane(e, d.nextOut);
    assert d.message.None? ==> OwnedAt(e, d.nextOut);
    hide Owned, OwnedAt;
    OwnedKept(d, e, d.nextOut);
  }

  lemma NotedOwned(d: Desk, k: int, id: string, name: string)
    requires LanesFit(d) && Owned(d)
    ensures Owned(Noted(d, k, id, name))
  {
    hide Owned, OwnedAt;
    ClosedOwned(d);
    if k in d.calls {
      OwnedKept(d, Noted(d, k, id, name), 0);
    } else {
      OwnedKept(ClosedReasoning(d), Noted(d, k, id, name), 0);
    }
  }

  lemma AnnouncedOwned(d: Desk, cfg: Config, k: int, force: bool)
    requires Owned(d)
    ensures Owned(Announced(d, cfg, k, force))
  {
    var e := Announced(d, cfg, k, force);
    if e != d {
      assert Owner(e, d.calls[k].out, k);
      assert OwnedAt(e, d.calls[k].out);
      hide Owned, OwnedAt;
      OwnedKept(d, e, d.calls[k].out);
    }
  }

  lemma FedOwned(d: Desk, k: int, args: string)
    requires Owned(d)
    ensures Owned(Fed(d, k, args))
  {
    hide Owned, OwnedAt;
    OwnedKept(d, Fed(d, k, args), 0);
  }

  lemma OnToolOwned(d: Desk, cfg: Config, k: int, id: string, name: string, args: string)
    requires LanesFit(d) && Owned(d)
    ensures Owned(OnTool(d, cfg, k, id, name, args))
  {
    hide Owned, LanesFit, Noted, Announced, Fed;
    NotedOwned(d, k, id, name);
    var e := Noted(d, k, id, name);
    AnnouncedOwned(e, cfg, k, false);
    FedOwned(Announced(e, cfg, k, false), k, args);
  }

  lemma SameItemsOwned(d: Desk, c: Client)
    requires Owned(d) && c.items == d.client.items
    ensures Owned(d.(client := c))
  {
    hide Owned, OwnedAt;
    OwnedKept(d, d.(client := c), 0);
  }

  lemma OnTextOwned(d: Desk, t: string)
    requires Fits(d) && Owned(d)
    ensures Owned(OnText(d, t))
  {
    hide Owned, ClosedReasoning, Written, Fits, LanesFit;
    FitsAt(d, 0);
    ClosedOwned(d);
    ClosedReasoningFits(d);
    FitsAt(ClosedReasoning(d), 0);
    WrittenOwned(ClosedReasoning(d), t);
  }

  lemma {:induction false} RunOwned(v: View, cfg: Config, ins: seq<Input>)
    requires v == InitialView(v.responseId, v.model) && End !in ins
    ensures Owned(Run(v, cfg, ins).it)
  {
    if ins != [] {
      hide Fits, LanesFit, Owned, OnReasoning, OnText, OnTool;
      assert Init(ins) + [Last(ins)] == ins;
      RunOwned(v, cfg, Init(ins));
      RunFits(v, cfg, Init(ins));
      var d := Run(v, cfg, Init(ins)).it;
      FitsAt(d, 0);
      match Last(ins)
      case Head(_, _, _) => SameItemsOwned(d, Run(v, cfg, ins).it.client);
      case Reasoning(t) => ReasoningOwned(d, t);
      case Text(t) => OnTextOwned(d, t);
      case Tool(k, id, name, args) => OnToolOwned(d, cfg, k, id, name, args);
      case Finish(_) =>
      case End => assert false;
    }
  }

  // ----- Closing the calls -----

  function ForcedKind(cfg: Config, c: Call): Kind {
    if c.kind.Some? then c.kind.value else KindOf(cfg, c.name)
  }

  /** The item a call ends up as. */
  function FinalContent(cfg: Config, c: Call): Content {
    ContentOf(cfg, c, ForcedKind(cfg, c), ArgumentsOrEmpty(c.args))
  }

  predicate ClosedAs(d: Desk, cfg: Config, e: Desk, k: int) {
    k in d.calls && k in e.calls &&
    e.calls[k] == d.calls[k].(kind := Some(ForcedKind(cfg, d.calls[k]))) &&
    Has(e.client, d.calls[k].out, d.calls[k].item) &&
    e.client.items[d.calls[k].out].stage == Done(FinalContent(cfg, d.calls[k]))
  }

  predicate LeftAs(d: Desk, e: Desk, k: int) {
    k in d.calls && k in e.calls && e.calls[k] == d.calls[k] && SameItem(d.client, e.client, d.calls[k].out)
  }

  predicate SameItem(c: Client, e: Client, i: nat) {
    (i in e.items <==> i in c.items) && (i in c.items ==> e.items[i] == c.items[i])
  }

  lemma ClosedCallAs(d: Desk, cfg: Config, k: int)
    requires Fits(d) && k in d.calls
    ensures ClosedAs(d, cfg, ClosedCall(d, cfg, k), k)
  {
    AnnouncedFits(d, cfg, k, true);
    var e := Announced(d, cfg, k, true);
    assert CallFits(d, k) && CallFits(e, k);
  }

  lemma ClosedCallLeaves(d: Desk, cfg: Config, k: int, i: nat)
    requires k in d.calls && d.calls[k].out != i
    ensures SameItem(d.client, ClosedCall(d, cfg, k).client, i)
  {
    var e := Announced(d, cfg, k, true);
    AnnouncedOthers(d, cfg, k, i);
    FinishedOthers(e.client, cfg, e.calls[k], i);
  }

  /** The loop over 0, 1, 2, ... closes exactly the calls numbered below its bound. */
  lemma {:induction false} ClosedCallsAt(d: Desk, cfg: Config, n: nat, j: int)
    requires Fits(d) && j in d.calls
    ensures if 0 <= j < n then ClosedAs(d, cfg, ClosedCalls(d, cfg, n), j) else LeftAs(d, ClosedCalls(d, cfg, n), j)
  {
    hide Fits, ClosedCall, FinalContent, ForcedKind;
    if n > 0 {
      var e := ClosedCalls(d, cfg, n - 1);
      ClosedCallsFit(d, cfg, n - 1);
      ClosedCallsAt(d, cfg, n - 1, j);
      if j == n - 1 {
        ClosedCallAs(e, cfg, j);
      } else {
        ClosedCallOthers(e, cfg, n - 1, j);
      }
    }
  }

  /** It touches neither the reasoning item nor the message. */
  lemma {:induction false} ClosedCallsLanes(d: Desk, cfg: Config, n: nat, i: nat)
    requires Fits(d) && InLane(d, i)
    ensures SameItem(d.client, ClosedCalls(d, cfg, n).client, i)
  {
    hide Fits, FinishedCall, ClosedCall;
    if n > 0 {
      var e := ClosedCalls(d, cfg, n - 1);
      ClosedCallsFit(d, cfg, n - 1);
      ClosedCallsLanes(d, cfg, n - 1, i);
      ClosedCallsSame(d, cfg, n - 1);
      ClosedCallSame(e, cfg, n - 1);
      if n - 1 in e.calls {
        LaneApart(e, n - 1, i);
        ClosedCallLeaves(e, cfg, n - 1, i);
      }
    }
  }

  lemma {:induction false} ClosedCallsSame(d: Desk, cfg: Config, n: nat)
    ensures var e := ClosedCalls(d, cfg, n);
            e.reasoning == d.reasoning && e.message == d.message && e.reasoningText == d.reasoningText && e.text == d.text
  {
    hide ClosedCall;
    if n > 0 {
      ClosedCallsSame(d, cfg, n - 1);
      ClosedCallSame(ClosedCalls(d, cfg, n - 1), cfg, n - 1);
    }
  }

  lemma LaneApart(d: Desk, k: int, i: nat)
    requires Fits(d) && k in d.calls && InLane(d, i)
    ensures d.calls[k].out != i
  {
  }

  lemma ClosedCallSame(d: Desk, cfg: Config, k: int)
    ensures var e := ClosedCall(d, cfg, k);
            e.reasoning == d.reasoning && e.message == d.message && e.reasoningText == d.reasoningText && e.text == d.text &&
            (k !in d.calls ==> e == d)
  {
  }

  lemma {:induction false} ClosedCallsOwned(d: Desk, cfg: Config, n: nat)
    requires Owned(d)
    ensures Owned(ClosedCalls(d, cfg, n))
  {
    hide Owned, Announced, FinishedCall;
    if n > 0 {
      var e := ClosedCalls(d, cfg, n - 1);
      ClosedCallsOwned(d, cfg, n - 1);
      AnnouncedOwned(e, cfg, n - 1, true);
      var a := Announced(e, cfg, n - 1, true);
      if n - 1 in e.calls {
        AnnouncedCalls(e, cfg, n - 1);
        FinishedKeys(a, cfg, n - 1);
      }
    }
  }

  lemma FinishedKeys(d: Desk, cfg: Config, k: int)
    requires Owned(d) && k in d.calls
    ensures Owned(d.(client := FinishedCall(d.client, cfg, d.calls[k])))
  {
    var e := d.(client := FinishedCall(d.client, cfg, d.calls[k]));
    assert e.client.items.Keys <= d.client.items.Keys;
    hide Owned, OwnedAt, FinishedCall;
    OwnedKept(d, e, 0);
  }

  // ----- The whole ending -----

  /** The desk once reasoning and message are closed, before the calls are. */
  function Cleared(d: Desk): Desk {
    ClosedMessage(FallenBack(ClosedReasoning(d)))
  }

  ghost predicate LanesDone(d: Desk) {
    forall i | InLane(d, i) :: i in d.client.items && d.client.items[i].stage.Done?
  }

  lemma ClearedLanes(d: Desk)
    requires Fits(d) && Unfinished(d) && Owned(d)
    ensures var g := Cleared(d);
            Fits(g) && AllOpen(g) && Owned(g) && LanesDone(g) && g.calls == d.calls && g.reasoningText == d.reasoningText
    ensures Cleared(d).text == if d.message.None? && d.text == "" && d.calls == map[] && !IsBlank(d.reasoningText)
                               then d.reasoningText else d.text
    ensures Cleared(d).message.Some? <==> d.message.Some? || (d.text == "" && d.calls == map[] && !IsBlank(d.reasoningText))
  {
    hide Fits, LanesFit, Unfinished, Owned;
    WrappingFits(d);
    var e := ClosedReasoning(d);
    FitsAt(d, 0);
    ClosedOwned(d);
    ClosedReasoningFits(d);
    FallenBackFits(e);
    FitsAt(e, 0);
    WrittenOwned(e, e.reasoningText);
    FitsAt(FallenBack(e), 0);
    ClosedOwned(FallenBack(e));
    FitsAt(Cleared(d), 0);
    ClearedTexts(d);
    ClearedDone(d);
  }

  lemma ClearedTexts(d: Desk)
    ensures var g := Cleared(d); g.calls == d.calls && g.reasoningText == d.reasoningText
    ensures Cleared(d).text == if d.message.None? && d.text == "" && d.calls == map[] && !IsBlank(d.reasoningText)
                               then d.reasoningText else d.text
    ensures Cleared(d).message.Some? <==> d.message.Some? || (d.text == "" && d.calls == map[] && !IsBlank(d.reasoningText))
  {
    assert "" + d.reasoningText == d.reasoningText;
  }

  lemma ClearedDone(d: Desk)
    requires LanesFit(Cleared(d)) && LanesFit(FallenBack(ClosedReasoning(d)))
    ensures LanesDone(Cleared(d))
  {
    hide Written;
    var f := FallenBack(ClosedReasoning(d));
    assert !ClosedReasoning(d).reasoning.OpenAt?;
    WrittenKeepsReasoning(ClosedReasoning(d), d.reasoningText);
  }

  lemma WrittenKeepsReasoning(d: Desk, t: string)
    ensures Written(d, t).reasoning == d.reasoning
  {
  }

  lemma EndDesk(v: View, cfg: Config, ins: seq<Input>)
    requires v == InitialView(v.responseId, v.model) && End !in ins
    ensures var w := Run(v, cfg, ins);
            var d := w.it.(client := Begun(w.it.client, w.responseId, w.model));
            var e := Wrapped(d, cfg);
            && Fits(d) && Unfinished(d) && Owned(d) && d.calls == w.it.calls
            && Run(v, cfg, ins + [End]).it
               == EndedAs(e, FinalResponse(w.responseId, w.model, w.finish, w.usage, Output(e, cfg)))
  {
    hide Fits, Unfinished, Owned, Wrapped, Output;
    RunSnoc(v, cfg, ins, End);
    RunCompletes(v, cfg, ins);
    RunFits(v, cfg, ins);
    RunUnfinished(v, cfg, ins);
    RunOwned(v, cfg, ins);
    var w := Run(v, cfg, ins);
    var c := Begun(w.it.client, w.responseId, w.model);
    SameItemsFit(w.it, c);
    SameItemsUnfinished(w.it, c);
    SameItemsOwned(w.it, c);
  }

  /** The call of index k as it stands when the stream ends. */
  function EndCall(v: View, cfg: Config, ins: seq<Input>, k: int): (c: Call)
    requires v == InitialView(v.responseId, v.model) && End !in ins && k in SeenOf(ins)
    ensures c.args == ArgsOf(ins, k) && c.name == LastNameOf(ins, k) && IdTells(c.id, LastIdOf(ins, k))
    ensures c.kind == KindTold(cfg, FirstNameOf(ins, k))
  {
    RunTells(v, cfg, ins);
    assert CallTells(cfg, Run(v, cfg, ins).it.calls[k], ins, k);
    Run(v, cfg, ins).it.calls[k]
  }

  lemma KindAtEnd(v: View, cfg: Config, ins: seq<Input>, k: int)
    requires v == InitialView(v.responseId, v.model) && End !in ins && k in SeenOf(ins)
    ensures ForcedKind(cfg, EndCall(v, cfg, ins, k)) == KindOf(cfg, FirstNameOf(ins, k))
  {
    NamedAtAll(ins, k);
  }

  /** After the end: a call numbered below the count of calls has an item that is
      done with all its arguments; any other call has an item only if it was
      announced before, and that item is never done. */
  lemma CallsAtEnd(v: View, cfg: Config, ins: seq<Input>, k: int)
    requires v == InitialView(v.responseId, v.model) && End !in ins && k in SeenOf(ins)
    ensures var c := EndCall(v, cfg, ins, k);
            var items := Run(v, cfg, ins + [End]).it.client.items;
            if 0 <= k < |SeenOf(ins)| then
              c.out in items && items[c.out].id == c.item &&
              items[c.out].stage
              == Done(ContentOf(cfg, c, KindOf(cfg, FirstNameOf(ins, k)), ArgumentsOrEmpty(ArgsOf(ins, k))))
            else
              (c.out in items <==> KindTold(cfg, FirstNameOf(ins, k)).Some?) && (c.out in items ==> items[c.out].stage.Fresh?)
  {
    var w := Run(v, cfg, ins);
    var d := w.it.(client := Begun(w.it.client, w.responseId, w.model));
    var g := Cleared(d);
    SeenInRun(v, cfg, ins);
    assert |g.calls| == |g.calls.Keys|;
    hide Fits, Unfinished, Owned, Run, ClosedReasoning, FallenBack, ClosedMessage, ClosedCalls, Output;
    EndDesk(v, cfg, ins);
    ClearedLanes(d);
    ClosedCallsAt(g, cfg, |g.calls|, k);
    KindAtEnd(v, cfg, ins, k);
    FitsAt(g, k);
    assert CallOpen(g, k);
  }

  ghost predicate AllDone(c: Client) {
    forall i | i in c.items :: c.items[i].stage.Done?
  }

  lemma DoneInReach(g: Desk, cfg: Config, n: nat, i: nat)
    requires Fits(g) && Owned(g) && LanesDone(g)
    requires forall k | k in g.calls && g.calls[k].kind.Some? :: 0 <= k < n
    requires i in ClosedCalls(g, cfg, n).client.items
    ensures ClosedCalls(g, cfg, n).client.items[i].stage.Done?
  {
    hide Fits, Owned, ClosedCalls, FinalContent;
    var e := ClosedCalls(g, cfg, n);
    ClosedCallsOwned(g, cfg, n);
    assert OwnedAt(e, i) by { OwnedHere(e, i); }
    ClosedCallsSame(g, cfg, n);
    if InLane(e, i) {
      ClosedCallsLanes(g, cfg, n, i);
    } else {
      var k :| Owner(e, i, k);
      ClosedCallsKeep(g, cfg, n);
      ClosedCallsAt(g, cfg, n, k);
    }
  }

  lemma OwnedHere(d: Desk, i: nat)
    requires Owned(d) && i in d.client.items
    ensures OwnedAt(d, i)
  {
  }

  lemma OpenOutOfReach(g: Desk, cfg: Config, n: nat, k: int)
    requires Fits(g) && AllOpen(g) && k in g.calls && g.calls[k].kind.Some? && !(0 <= k < n)
    ensures !AllDone(ClosedCalls(g, cfg, n).client)
  {
    FitsAt(g, k);
    assert CallOpen(g, k);
    hide Fits, ClosedCalls;
    ClosedCallsAt(g, cfg, n, k);
    var e := ClosedCalls(g, cfg, n);
    assert g.calls[k].out in e.client.items && e.client.items[g.calls[k].out].stage.Fresh?;
  }

  /** Every call that could be announced is numbered below the count of calls. */
  ghost predicate InReach(cfg: Config, ins: seq<Input>) {
    forall k | k in SeenOf(ins) && KindTold(cfg, FirstNameOf(ins, k)).Some? :: 0 <= k < |SeenOf(ins)|
  }

  /** The upstream numbers its calls 0, 1, 2, ... without gaps. */
  ghost predicate Contiguous(s: set<int>) {
    forall k :: k in s <==> 0 <= k < |s|
  }

  /** After the end of the stream every item that was added is done, exactly when
      the calls that could be announced are in reach; numbering the calls without
      gaps is enough. */
  lemma EveryItemDone(v: View, cfg: Config, ins: seq<Input>)
    requires v == InitialView(v.responseId, v.model) && End !in ins
    ensures AllDone(Run(v, cfg, ins + [End]).it.client) <==> InReach(cfg, ins)
    ensures Contiguous(SeenOf(ins)) ==> InReach(cfg, ins)
  {
    var w := Run(v, cfg, ins);
    var d := w.it.(client := Begun(w.it.client, w.responseId, w.model));
    var g := Cleared(d);
    var n := |g.calls|;
    SeenInRun(v, cfg, ins);
    assert n == |g.calls.Keys|;
    hide Fits, Unfinished, Owned, AllOpen, LanesDone, Run, ClosedReasoning, FallenBack, ClosedMessage, ClosedCalls, Output;
    EndDesk(v, cfg, ins);
    ClearedLanes(d);
    assert Run(v, cfg, ins + [End]).it.client.items == ClosedCalls(g, cfg, n).client.items;
    forall k | k in g.calls ensures g.calls[k].kind == KindTold(cfg, FirstNameOf(ins, k)) {
      assert g.calls[k] == EndCall(v, cfg, ins, k);
    }
    if InReach(cfg, ins) {
      forall i | i in ClosedCalls(g, cfg, n).client.items
        ensures ClosedCalls(g, cfg, n).client.items[i].stage.Done?
      {
        DoneInReach(g, cfg, n, i);
      }
    } else {
      var k :| k in SeenOf(ins) && KindTold(cfg, FirstNameOf(ins, k)).Some? && !(0 <= k < |SeenOf(ins)|);
      OpenOutOfReach(g, cfg, n, k);
    }
  }

  /** The lifecycle of a whole stream, told by its event log alone: numbers are
      0, 1, 2, ...; response.created comes first and once, response.completed last
      and once; and every item added is done exactly once, later and under the same
      item id and type, when the upstream numbers its calls without gaps. */
  lemma WholeStream(log: seq<Event>, v: View, cfg: Config, ins: seq<Input>, index: nat)
    requires v == InitialView(v.responseId, v.model) && End !in ins
    requires Replay(log) == Some(Run(v, cfg, ins + [End]).it.client)
    ensures forall i | 0 <= i < |log| :: log[i].seqNo == i
    ensures forall i | 0 <= i < |log| :: log[i].body.Created? <==> i == 0
    ensures forall i | 0 <= i < |log| :: log[i].body.Completed? <==> i == |log| - 1
    ensures CountDones(log, index) <= CountAdds(log, index) <= 1
    ensures InReach(cfg, ins) ==> CountDones(log, index) == CountAdds(log, index)
    ensures AddedFirst(log, index)
    ensures forall i, j | 0 <= i < |log| && 0 <= j < |log| && Adds(log[i], index) && Finishes(log[j], index) ::
              log[i].body.item == log[j].body.item && SameKind(log[j].body.content, log[i].body.content)
  {
    hide Run, Replay, Wrapped, Output, CountAdds, CountDones, AddedFirst, Fits, Unfinished, Owned, InReach, SameKind;
    AcceptedLogNumbered(log);
    AcceptedItemsPair(log, index);
    EveryItemDone(v, cfg, ins);
    RunCompletes(v, cfg, ins + [End]);
    EndNotTrailing(v, cfg, ins);
  }

  lemma EndNotTrailing(v: View, cfg: Config, ins: seq<Input>)
    requires v == InitialView(v.responseId, v.model) && End !in ins
    ensures !Run(v, cfg, ins + [End]).it.client.trailing
  {
    hide Run, Wrapped, Output, Fits, Unfinished, Owned;
    EndDesk(v, cfg, ins);
    RunCompletes(v, cfg, ins);
    var w := Run(v, cfg, ins);
    WrappedKeeps(w.it.(client := Begun(w.it.client, w.responseId, w.model)), cfg);
  }
}
