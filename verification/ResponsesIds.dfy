/** The ids the Responses converter draws: no two output items share one, and no two
    calls share a drawn call id. */
module ResponsesIds {
  import opened Common
  import opened ChatChunks
  import opened ResponsesProtocol
  import opened ResponsesAssembly
  import opened ResponsesFit

  ghost predicate ItemsApart(d: Desk) {
    && (forall i | i in d.client.items :: d.client.items[i].id < d.minted)
    && (forall i, j | i in d.client.items && j in d.client.items && i != j :: d.client.items[i].id != d.client.items[j].id)
  }

  /** A call's item id is taken by no item but its own. */
  ghost predicate CallApart(d: Desk, k: int)
    requires k in d.calls
  {
    && d.calls[k].item < d.minted
    && (d.calls[k].id.Minted? ==> d.calls[k].id.n < d.minted)
    && (forall i | i in d.client.items && d.client.items[i].id == d.calls[k].item :: i == d.calls[k].out)
  }

  predicate Differ(a: Call, b: Call) {
    a.item != b.item && (a.id.Minted? && b.id.Minted? ==> a.id != b.id)
  }

  ghost predicate IdsApart(d: Desk) {
    && ItemsApart(d)
    && (forall k | k in d.calls :: CallApart(d, k))
    && (forall j, k | j in d.calls && k in d.calls && j != k :: Differ(d.calls[j], d.calls[k]))
  }

  /** The same items under the same ids. */
  ghost predicate SameIds(c: Client, e: Client) {
    forall i :: (i in c.items <==> i in e.items) && (i in c.items ==> c.items[i].id == e.items[i].id)
  }

  lemma SameApart(d: Desk, e: Desk)
    requires IdsApart(d) && SameIds(d.client, e.client) && e.minted >= d.minted && e.calls == d.calls
    ensures IdsApart(e)
  {
    forall k | k in e.calls ensures CallApart(e, k) {
      assert CallApart(d, k);
    }
  }

  /** A new item under an id just drawn. */
  lemma DrawnApart(d: Desk, e: Desk, out: nat)
    requires IdsApart(d) && out !in d.client.items && e.calls == d.calls && e.minted == d.minted + 1
    requires forall i | i != out :: (i in d.client.items <==> i in e.client.items) &&
                                    (i in d.client.items ==> e.client.items[i].id == d.client.items[i].id)
    requires out in e.client.items && e.client.items[out].id == d.minted
    ensures IdsApart(e)
  {
    forall k | k in e.calls ensures CallApart(e, k) {
      assert CallApart(d, k);
    }
  }

  lemma ReasoningApart(d: Desk, t: string)
    requires Fits(d) && IdsApart(d)
    ensures IdsApart(OnReasoning(d, t)) && IdsApart(ClosedReasoning(d))
  {
    FitsAt(d, 0);
    hide Fits, IdsApart, LanesFit;
    var e := OpenedReasoning(d);
    if d.reasoning.Unopened? {
      DrawnApart(d, e, d.nextOut);
    }
    SameApart(e, OnReasoning(d, t));
    SameApart(d, ClosedReasoning(d));
  }

  lemma WrittenApart(d: Desk, t: string)
    requires Fits(d) && IdsApart(d)
    ensures IdsApart(Written(d, t)) && IdsApart(ClosedMessage(d))
  {
    FitsAt(d, 0);
    hide Fits, IdsApart, LanesFit;
    var e := OpenedMessage(d);
    if d.message.None? {
      DrawnApart(d, e, d.nextOut);
    }
    SameApart(e, Written(d, t));
    SameApart(d, ClosedMessage(d));
  }

  lemma RenamedApart(d: Desk, k: int, id: string, name: string)
    requires IdsApart(d) && k in d.calls
    ensures IdsApart(Noted(d, k, id, name))
  {
    var n := Noted(d, k, id, name);
    forall j | j in n.calls ensures CallApart(n, j) {
      assert CallApart(d, j);
    }
    forall i, j | i in n.calls && j in n.calls && i != j ensures Differ(n.calls[i], n.calls[j]) {
      assert Differ(d.calls[i], d.calls[j]);
    }
  }

  lemma RegisteredApart(d: Desk, k: int, id: string, name: string)
    requires IdsApart(d) && k !in d.calls && d.nextOut !in d.client.items
    ensures IdsApart(Registered(d, k, id, name))
  {
    var n := Registered(d, k, id, name);
    assert ItemsApart(n);
    forall j | j in n.calls ensures CallApart(n, j) {
      if j != k {
        assert CallApart(d, j);
      }
    }
    forall i, j | i in n.calls && j in n.calls && i != j ensures Differ(n.calls[i], n.calls[j]) {
      if i != k {
        assert CallApart(d, i);
      }
      if j != k {
        assert CallApart(d, j);
      }
      assert i != k && j != k ==> Differ(d.calls[i], d.calls[j]);
    }
  }

  lemma NotedApart(d: Desk, k: int, id: string, name: string)
    requires Fits(d) && IdsApart(d)
    ensures IdsApart(Noted(d, k, id, name))
  {
    hide Fits, IdsApart, Registered, ClosedReasoning;
    ReasoningApart(d, "");
    ClosedReasoningFits(d);
    FitsAt(ClosedReasoning(d), 0);
    ClosedReasoningKeeps(d);
    if k in d.calls {
      RenamedApart(d, k, id, name);
    } else {
      RegisteredApart(ClosedReasoning(d), k, id, name);
    }
  }

  lemma AnnouncedApart(d: Desk, cfg: Config, k: int, force: bool)
    requires Fits(d) && IdsApart(d)
    ensures IdsApart(Announced(d, cfg, k, force))
  {
    var e := Announced(d, cfg, k, force);
    if e != d {
      assert CallFits(d, k) && CallApart(d, k);
      forall j | j in e.calls ensures CallApart(e, j) {
        assert CallApart(d, j);
      }
    }
  }

  lemma FedApart(d: Desk, k: int, args: string)
    requires IdsApart(d)
    ensures IdsApart(Fed(d, k, args))
  {
    var e := Fed(d, k, args);
    assert SameIds(d.client, e.client);
    forall j | j in e.calls ensures CallApart(e, j) {
      assert CallApart(d, j);
    }
  }

  lemma ToolApart(d: Desk, cfg: Config, k: int, id: string, name: string, args: string)
    requires Fits(d) && IdsApart(d)
    ensures IdsApart(OnTool(d, cfg, k, id, name, args))
  {
    hide Fits, IdsApart, Noted, Announced, Fed;
    NotedApart(d, k, id, name);
    NotedFits(d, k, id, name);
    AnnouncedApart(Noted(d, k, id, name), cfg, k, false);
    FedApart(Announced(Noted(d, k, id, name), cfg, k, false), k, args);
  }

  lemma FinishedSame(c: Client, cfg: Config, call: Call)
    ensures SameIds(c, FinishedCall(c, cfg, call))
  {
  }

  lemma {:induction false} ClosedCallsApart(d: Desk, cfg: Config, n: nat)
    requires Fits(d) && IdsApart(d)
    ensures IdsApart(ClosedCalls(d, cfg, n))
  {
    hide Fits, IdsApart, Announced, FinishedCall;
    if n > 0 {
      var e := ClosedCalls(d, cfg, n - 1);
      ClosedCallsApart(d, cfg, n - 1);
      ClosedCallsFit(d, cfg, n - 1);
      AnnouncedApart(e, cfg, n - 1, true);
      var a := Announced(e, cfg, n - 1, true);
      if n - 1 in e.calls {
        AnnouncedCalls(e, cfg, n - 1);
        FinishedSame(a.client, cfg, a.calls[n - 1]);
        SameApart(a, ClosedCall(e, cfg, n - 1));
      }
    }
  }

  lemma WrappedApart(d: Desk, cfg: Config)
    requires Fits(d) && IdsApart(d)
    ensures IdsApart(Wrapped(d, cfg))
  {
    hide Fits, IdsApart, ClosedReasoning, ClosedMessage, ClosedCalls, Written;
    ReasoningApart(d, "");
    WrappedFits(d, cfg);
    var e := ClosedReasoning(d);
    WrittenApart(e, e.reasoningText);
    var f := FallenBack(e);
    WrittenApart(f, "");
    ClosedCallsApart(ClosedMessage(f), cfg, |ClosedMessage(f).calls|);
  }

  lemma InputApart(v: View, cfg: Config, i: Input)
    requires Fits(v.it) && IdsApart(v.it)
    ensures IdsApart(OnInput(v, cfg, i).it)
  {
    hide Fits, IdsApart, OnReasoning, Written, ClosedReasoning, OnTool, Wrapped, Output;
    match i
    case Head(_, _, _) => SameApart(v.it, OnInput(v, cfg, i).it);
    case Reasoning(t) => ReasoningApart(v.it, t);
    case Text(t) =>
      ReasoningApart(v.it, "");
      ClosedReasoningFits(v.it);
      WrittenApart(ClosedReasoning(v.it), t);
    case Tool(k, id, name, args) => ToolApart(v.it, cfg, k, id, name, args);
    case Finish(_) =>
    case End =>
      if v.it.client.completed.None? {
        var d := v.it.(client := Begun(v.it.client, v.responseId, v.model));
        SameApart(v.it, d);
        SameItemsFit(v.it, d.client);
        WrappedApart(d, cfg);
        SameApart(Wrapped(d, cfg), OnInput(v, cfg, i).it);
      }
  }

  /** In every reachable state no two items share an id, no call has the item id of
      another, and no two calls a drawn call id. */
  lemma {:induction false} RunIdsApart(v: View, cfg: Config, ins: seq<Input>)
    requires v == InitialView(v.responseId, v.model)
    ensures IdsApart(Run(v, cfg, ins).it)
  {
    if ins == [] {
      assert IdsApart(EMPTY_DESK);
    } else {
      hide Fits, IdsApart, OnInput;
      RunIdsApart(v, cfg, Init(ins));
      RunFits(v, cfg, Init(ins));
      InputApart(Run(v, cfg, Init(ins)), cfg, Last(ins));
    }
  }

  /** Read off any log the client accepts: items added at different indices have
      different ids. */
  lemma ItemsAddedApart(log: seq<Event>, v: View, cfg: Config, ins: seq<Input>, i: nat, j: nat)
    requires v == InitialView(v.responseId, v.model) && Replay(log) == Some(Run(v, cfg, ins).it.client)
    requires i < |log| && j < |log| && log[i].body.ItemAdded? && log[j].body.ItemAdded? && i != j
    ensures log[i].body.index != log[j].body.index && log[i].body.item != log[j].body.item
  {
    hide Run, Replay, Accept;
    RunIdsApart(v, cfg, ins);
    AcceptedItemsRemembered(log, log[i].body.index, i);
    AcceptedItemsRemembered(log, log[j].body.index, j);
    AddedOnce(log, i, j);
  }

  lemma {:induction false} AddedOnce(log: seq<Event>, i: nat, j: nat)
    requires Replay(log).Some? && i < |log| && j < |log| && i != j && log[i].body.ItemAdded? && log[j].body.ItemAdded?
    ensures log[i].body.index != log[j].body.index
  {
    var before := log[..|log| - 1];
    var last := log[|log| - 1];
    if i < |before| && j < |before| {
      AddedOnce(before, i, j);
    } else {
      var first := if i < j then i else j;
      AcceptedItemsRemembered(before, log[first].body.index, first);
      assert before[first] == log[first];
      ItemStep(Replay(before).value, last, last.body.index);
    }
  }
}
