/** What a client of the Responses stream is told about each tool call: under which
    call id, name and namespace its item is added and done, and which id and name
    every argument event carries. All of it is said by fields of the events. */
module ResponsesCalls {
  import opened Common
  import opened ChatChunks
  import opened ResponsesProtocol
  import opened ResponsesAssembly
  import opened ResponsesFit
  import opened ResponsesLaws
  import opened ResponsesEnding

  // ----- Said about the inputs -----

  /** A call is announced once it is named, or at once when no name could matter. */
  predicate Announceable(cfg: Config, ins: seq<Input>, k: int) {
    k in SeenOf(ins) && (FirstNameOf(ins, k) != "" || !Declares(cfg))
  }

  /** The inputs up to the one that announced the call; all of them if none did. */
  function Opening(cfg: Config, ins: seq<Input>, k: int): seq<Input> {
    if ins == [] || !Announceable(cfg, Init(ins), k) then ins else Opening(cfg, Init(ins), k)
  }

  /** Whether arguments of a call announced under this name are streamed. */
  predicate Streamable(cfg: Config, name: string) {
    name !in cfg.custom && !(cfg.search && name == "tool_search")
  }

  /** The id and name that argument events carry, one for each fragment, those that
      came before the announcement together as one. */
  function RoutesTold(cfg: Config, ins: seq<Input>, k: int): seq<(string, string)> {
    if ins == [] || !Announceable(cfg, ins, k) then []
    else
      var now := (LastIdOf(ins, k), LastNameOf(ins, k));
      (if Announceable(cfg, Init(ins), k) then RoutesTold(cfg, Init(ins), k)
       else if ArgsOf(Init(ins), k) != "" then [now] else [])
      + (if Last(ins).Tool? && Last(ins).index == k && Last(ins).arguments != "" then [now] else [])
  }

  // ----- Said about the item -----

  /** The item that announces a call: its type by the name, the id known, and the
      name as it is, or the namespace and name the request declared for it. */
  predicate Introduces(cfg: Config, header: Content, id: string, name: string) {
    if name in cfg.custom then
      header.CustomItem? && IdTells(header.callId, id) && header.name == name && header.input == ""
    else if cfg.search && name == "tool_search" then
      header.SearchItem? && IdTells(header.callId, id) && header.arguments == ""
    else if name in cfg.namespaces then
      header.FunctionItem? && IdTells(header.callId, id) && header.namespace == cfg.namespaces[name].0 &&
      header.name == cfg.namespaces[name].1 && header.arguments == ""
    else
      header.FunctionItem? && IdTells(header.callId, id) && header.namespace == "" && header.name == name &&
      header.arguments == ""
  }

  /** The finished item of a call announced as `first`, whose last name is `last`. */
  predicate Completes(cfg: Config, content: Content, id: string, first: string, last: string, args: string) {
    var whole := if IsBlank(args) then "{}" else args;
    if first in cfg.custom then
      content.CustomItem? && IdTells(content.callId, id) && content.name == last && content.input == cfg.inputOf(whole)
    else if cfg.search && first == "tool_search" then
      content.SearchItem? && IdTells(content.callId, id) && content.arguments == whole
    else if first in cfg.namespaces then
      content.FunctionItem? && IdTells(content.callId, id) && content.namespace == cfg.namespaces[first].0 &&
      content.name == cfg.namespaces[first].1 && content.arguments == whole
    else
      content.FunctionItem? && IdTells(content.callId, id) && content.namespace == "" && content.name == last &&
      content.arguments == whole
  }

  predicate Calls(c: Content) {
    c.FunctionItem? || c.CustomItem? || c.SearchItem?
  }

  /** The call id, name and namespace of an item, without its arguments. */
  predicate SameCall(a: Content, b: Content)
    requires Calls(a) && Calls(b)
  {
    a.callId == b.callId && (a.SearchItem? <==> b.SearchItem?) && (a.FunctionItem? <==> b.FunctionItem?) &&
    (!a.SearchItem? && !b.SearchItem? ==> a.name == b.name) &&
    (a.FunctionItem? && b.FunctionItem? ==> a.namespace == b.namespace)
  }

  predicate RoutesAre(routes: seq<(CallId, string)>, told: seq<(string, string)>) {
    |routes| == |told| && forall i | 0 <= i < |told| :: IdTells(routes[i].0, told[i].0) && routes[i].1 == told[i].1
  }

  lemma RoutesGrow(a: seq<(CallId, string)>, told: seq<(string, string)>, r: (CallId, string), t: (string, string))
    requires RoutesAre(a, told) && IdTells(r.0, t.0) && r.1 == t.1
    ensures RoutesAre(a + [r], told + [t])
  {
  }

  /** An announced call and its item. */
  predicate ItemTells(cfg: Config, c: Call, item: Item, ins: seq<Input>, k: int) {
    var at := Opening(cfg, ins, k);
    && Introduces(cfg, item.header, LastIdOf(at, k), LastNameOf(at, k))
    && (LastIdOf(at, k) == LastIdOf(ins, k) ==> item.header.callId == c.id)
    && RoutesAre(item.routes, if Streamable(cfg, LastNameOf(at, k)) then RoutesTold(cfg, ins, k) else [])
  }

  predicate CallIntroduced(d: Desk, cfg: Config, ins: seq<Input>, k: int) {
    k in d.calls && d.calls[k].kind.Some? ==>
      d.calls[k].out in d.client.items && ItemTells(cfg, d.calls[k], d.client.items[d.calls[k].out], ins, k)
  }

  ghost predicate AllIntroduced(d: Desk, cfg: Config, ins: seq<Input>) {
    forall k | k in d.calls :: CallIntroduced(d, cfg, ins, k)
  }

  // ----- Inputs that are not about the call -----

  lemma OthersSayNothing(cfg: Config, ins: seq<Input>, i: Input, k: int)
    requires !i.Tool? || i.index != k
    ensures var es := ins + [i];
            && LastIdOf(es, k) == LastIdOf(ins, k) && LastNameOf(es, k) == LastNameOf(ins, k)
            && FirstNameOf(es, k) == FirstNameOf(ins, k) && ArgsOf(es, k) == ArgsOf(ins, k)
            && (k in SeenOf(es) <==> k in SeenOf(ins))
            && (Announceable(cfg, ins, k) ==>
                  Opening(cfg, es, k) == Opening(cfg, ins, k) && RoutesTold(cfg, es, k) == RoutesTold(cfg, ins, k))
  {
    InitOfSnoc(ins, i);
    assert ArgsOf(ins, k) + "" == ArgsOf(ins, k);
    assert RoutesTold(cfg, ins, k) + [] == RoutesTold(cfg, ins, k);
  }

  lemma AnnouncedIsAnnounceable(cfg: Config, c: Call, ins: seq<Input>, k: int)
    requires CallTells(cfg, c, ins, k) && k in SeenOf(ins)
    ensures c.kind.Some? <==> Announceable(cfg, ins, k)
  {
  }

  /** An input about something else leaves what is told about a call. */
  lemma OtherIntroduced(d: Desk, e: Desk, cfg: Config, ins: seq<Input>, i: Input, k: int)
    requires k in d.calls && k in e.calls && e.calls[k] == d.calls[k] && CallIntroduced(d, cfg, ins, k)
    requires SameItem(d.client, e.client, d.calls[k].out) && (!i.Tool? || i.index != k)
    requires CallTells(cfg, d.calls[k], ins, k) && k in SeenOf(ins)
    ensures CallIntroduced(e, cfg, ins + [i], k)
  {
    hide Introduces, RoutesAre, Streamable, RoutesTold, Opening, LastIdOf, LastNameOf, CallTells;
    AnnouncedIsAnnounceable(cfg, d.calls[k], ins, k);
    OthersSayNothing(cfg, ins, i, k);
  }

  lemma TextLeavesCalls(d: Desk, i: Input, k: int)
    requires Fits(d) && k in d.calls
    ensures i.Reasoning? ==> var e := OnReasoning(d, i.text); e.calls == d.calls && SameItem(d.client, e.client, d.calls[k].out)
    ensures i.Text? ==> var e := OnText(d, i.text); e.calls == d.calls && SameItem(d.client, e.client, d.calls[k].out)
  {
    assert CallFits(d, k) && !InLane(d, d.calls[k].out);
  }

  lemma ToolLeavesOthers(d: Desk, cfg: Config, i: Input, j: int)
    requires Fits(d) && i.Tool? && j in d.calls && j != i.index
    ensures SameItem(d.client, OnTool(d, cfg, i.index, i.id, i.name, i.arguments).client, d.calls[j].out)
  {
    var n := Noted(d, i.index, i.id, i.name);
    NotedLeavesOthers(d, i.index, i.id, i.name, j);
    hide Fits, Noted;
    var a := Announced(n, cfg, i.index, false);
    assert SameItem(n.client, a.client, d.calls[j].out) && a.calls[i.index].out == n.calls[i.index].out;
    hide Announced;
    assert SameItem(a.client, Fed(a, i.index, i.arguments).client, d.calls[j].out);
  }

  lemma NotedLeavesOthers(d: Desk, k: int, id: string, name: string, j: int)
    requires Fits(d) && j in d.calls && j != k
    ensures var n := Noted(d, k, id, name);
            k in n.calls && SameItem(d.client, n.client, d.calls[j].out) && n.calls[k].out != d.calls[j].out
  {
    assert CallFits(d, j) && !InLane(d, d.calls[j].out);
  }

  // ----- The input about the call itself -----

  /** A call as it is right before its own input is announced and fed. */
  predicate NotedTells(cfg: Config, c: Call, ins: seq<Input>, i: Input)
    requires i.Tool?
  {
    && c.args == ArgsOf(ins, i.index) && c.name == LastNameOf(ins + [i], i.index)
    && IdTells(c.id, LastIdOf(ins + [i], i.index))
    && (c.kind.Some? <==> Announceable(cfg, ins, i.index))
  }

  lemma OwnNoted(d: Desk, cfg: Config, ins: seq<Input>, i: Input)
    requires Fits(d) && i.Tool? && d.calls.Keys == SeenOf(ins)
    requires i.index in d.calls ==> CallTells(cfg, d.calls[i.index], ins, i.index)
    ensures var n := Noted(d, i.index, i.id, i.name);
            && i.index in n.calls && NotedTells(cfg, n.calls[i.index], ins, i)
            && (i.index in d.calls ==> n.client == d.client && n.calls[i.index].out == d.calls[i.index].out &&
                                       n.calls[i.index].kind == d.calls[i.index].kind)
            && (i.index !in d.calls ==> n.calls[i.index].kind.None?)
  {
    LastTells(ins, i);
    FitsAt(d, 0);
    hide Fits, LanesFit, LastIdOf, LastNameOf, FirstNameOf, ArgsOf, SeenOf, ClosedReasoning;
    ClosedReasoningKeeps(d);
    if i.index !in d.calls {
      UnseenSaysNothing(ins, i.index);
    } else {
      AnnouncedIsAnnounceable(cfg, d.calls[i.index], ins, i.index);
    }
  }

  lemma LastTells(ins: seq<Input>, i: Input)
    requires i.Tool?
    ensures LastNameOf(ins + [i], i.index) == if i.name != "" then i.name else LastNameOf(ins, i.index)
    ensures LastIdOf(ins + [i], i.index) == if i.id != "" then i.id else LastIdOf(ins, i.index)
  {
    InitOfSnoc(ins, i);
  }

  lemma FreshRoutes(cfg: Config, ins: seq<Input>, i: Input)
    requires i.Tool?
    ensures var es := ins + [i];
            var now := (LastIdOf(es, i.index), LastNameOf(es, i.index));
            && (Announceable(cfg, ins, i.index) ==>
                  Announceable(cfg, es, i.index) && Opening(cfg, es, i.index) == Opening(cfg, ins, i.index) &&
                  RoutesTold(cfg, es, i.index)
                  == if i.arguments != "" then RoutesTold(cfg, ins, i.index) + [now] else RoutesTold(cfg, ins, i.index))
            && (!Announceable(cfg, ins, i.index) ==> Opening(cfg, es, i.index) == es)
            && (!Announceable(cfg, ins, i.index) && Announceable(cfg, es, i.index) ==>
                  RoutesTold(cfg, es, i.index)
                  == (if ArgsOf(ins, i.index) != "" then [now] else []) + (if i.arguments != "" then [now] else []))
            && (Announceable(cfg, es, i.index) <==>
                  Announceable(cfg, ins, i.index) || LastNameOf(es, i.index) != "" || !Declares(cfg))
  {
    InitOfSnoc(ins, i);
    NamedAtAll(ins + [i], i.index);
    assert RoutesTold(cfg, ins, i.index) + [] == RoutesTold(cfg, ins, i.index);
  }

  lemma StreamsByName(cfg: Config, name: string)
    ensures Ordinary(KindOf(cfg, name)) <==> Streamable(cfg, name)
  {
  }

  /** The item added for a call says what is known of it. */
  lemma HeaderIntroduces(cfg: Config, c: Call, id: string)
    requires IdTells(c.id, id)
    ensures Introduces(cfg, HeaderOf(c, KindOf(cfg, c.name)), id, c.name)
    ensures HeaderOf(c, KindOf(cfg, c.name)).callId == c.id
  {
  }

  /** A call that is announced already is fed one more fragment. */
  lemma FedTells(n: Desk, cfg: Config, ins: seq<Input>, i: Input, was: CallId)
    requires i.Tool? && i.index in n.calls && NotedTells(cfg, n.calls[i.index], ins, i)
    requires n.calls[i.index].kind.Some? && n.calls[i.index].out in n.client.items
    requires ItemTells(cfg, n.calls[i.index].(id := was), n.client.items[n.calls[i.index].out], ins, i.index)
    requires n.calls[i.index].id == if i.id != "" then Given(i.id) else was
    requires IdTells(was, LastIdOf(ins, i.index))
    requires Ordinary(n.calls[i.index].kind.value) <==> Streamable(cfg, LastNameOf(Opening(cfg, ins, i.index), i.index))
    ensures CallIntroduced(Fed(n, i.index, i.arguments), cfg, ins + [i], i.index)
  {
    var k := i.index;
    var item := n.client.items[n.calls[k].out];
    var es := ins + [i];
    var at := Opening(cfg, ins, k);
    FreshRoutes(cfg, ins, i);
    assert LastIdOf(es, k) == if i.id != "" then i.id else LastIdOf(ins, k) by { InitOfSnoc(ins, i); }
    IntroducedId(cfg, item.header, LastIdOf(at, k), LastNameOf(at, k));
    var e := Fed(n, k, i.arguments);
    hide Introduces, RoutesAre, Streamable, RoutesTold, Opening, LastIdOf, LastNameOf, Announceable;
    var r := (n.calls[k].id, n.calls[k].name);
    if i.arguments != "" && Streams(n.calls[k]) {
      RoutesGrow(item.routes, RoutesTold(cfg, ins, k), r, (LastIdOf(es, k), LastNameOf(es, k)));
      assert e.client.items[e.calls[k].out].routes == item.routes + [r];
    }
  }

  lemma IntroducedId(cfg: Config, header: Content, id: string, name: string)
    requires Introduces(cfg, header, id, name)
    ensures Calls(header) && IdTells(header.callId, id)
  {
  }

  /** A call that this input announces. */
  lemma AnnouncedTells(n: Desk, cfg: Config, ins: seq<Input>, i: Input)
    requires i.Tool? && i.index in n.calls && NotedTells(cfg, n.calls[i.index], ins, i)
    requires n.calls[i.index].kind.None? && (i.name == "" ==> FirstNameOf(ins, i.index) == FirstNameOf(ins + [i], i.index))
    requires i.index in SeenOf(ins + [i])
    ensures CallIntroduced(Fed(Announced(n, cfg, i.index, false), i.index, i.arguments), cfg, ins + [i], i.index)
  {
    var k := i.index;
    var es := ins + [i];
    var c := n.calls[k];
    FreshRoutes(cfg, ins, i);
    hide LastIdOf, LastNameOf, FirstNameOf, ArgsOf, SeenOf, Opening, RoutesTold, Introduces, Streamable, KindOf, HeaderOf;
    if c.name != "" || !Declares(cfg) {
      var kind := KindOf(cfg, c.name);
      HeaderIntroduces(cfg, c, LastIdOf(es, k));
      StreamsByName(cfg, c.name);
      var now := (LastIdOf(es, k), LastNameOf(es, k));
      var r := (c.id, c.name);
      var first := if Ordinary(kind) && c.args != "" then [r] else [];
      var a := Announced(n, cfg, k, false);
      var item := a.client.items[c.out];
      assert item.header == HeaderOf(c, kind) && item.routes == first && a.calls[k] == c.(kind := Some(kind));
      var e := Fed(a, k, i.arguments);
      assert e.client.items[c.out].header == item.header && e.calls[k].id == c.id && e.calls[k].kind == Some(kind);
      assert e.client.items[c.out].routes == if Ordinary(kind) && i.arguments != "" then first + [r] else first;
      hide Introduces, Streamable, RoutesTold, Opening, LastIdOf, LastNameOf, Announceable, KindOf, HeaderOf, Announced, Fed;
      assert RoutesAre(first, if Ordinary(kind) && c.args != "" then [now] else []);
    }
  }

  lemma OwnIntroduced(d: Desk, cfg: Config, ins: seq<Input>, i: Input)
    requires Fits(d) && i.Tool? && d.calls.Keys == SeenOf(ins)
    requires i.index in d.calls ==> CallTells(cfg, d.calls[i.index], ins, i.index) && CallIntroduced(d, cfg, ins, i.index)
    ensures CallIntroduced(OnTool(d, cfg, i.index, i.id, i.name, i.arguments), cfg, ins + [i], i.index)
  {
    var k := i.index;
    var n := Noted(d, k, i.id, i.name);
    OwnNoted(d, cfg, ins, i);
    if n.calls[k].kind.Some? {
      OpeningKind(cfg, d.calls[k], ins, k);
      assert n.calls[k].(id := d.calls[k].id).id == d.calls[k].id;
      assert Announced(n, cfg, k, false) == n;
      hide Fits, NotedTells, Fed, Noted, Announced, Opening, Streamable, Introduces, RoutesAre, RoutesTold, LastIdOf, LastNameOf;
      assert n.calls[k].id == if i.id != "" then Given(i.id) else d.calls[k].id by { NotedId(d, k, i.id, i.name); }
      FedTells(n, cfg, ins, i, d.calls[k].id);
    } else {
      InitOfSnoc(ins, i);
      hide Fits, NotedTells, Fed, Noted, Announced, CallIntroduced;
      AnnouncedTells(n, cfg, ins, i);
    }
  }

  lemma NotedId(d: Desk, k: int, id: string, name: string)
    requires k in d.calls
    ensures k in Noted(d, k, id, name).calls
    ensures Noted(d, k, id, name).calls[k].id == if id != "" then Given(id) else d.calls[k].id
  {
  }

  /** The name at the announcement is the first one, unless no name could matter. */
  lemma {:induction false} OpeningName(cfg: Config, ins: seq<Input>, k: int)
    ensures Declares(cfg) ==> LastNameOf(Opening(cfg, ins, k), k) == FirstNameOf(ins, k)
  {
    if ins != [] {
      NamedAtAll(Init(ins), k);
      if Announceable(cfg, Init(ins), k) {
        OpeningName(cfg, Init(ins), k);
      } else if k !in SeenOf(Init(ins)) {
        UnseenSaysNothing(Init(ins), k);
      }
    }
  }

  lemma OpeningKind(cfg: Config, c: Call, ins: seq<Input>, k: int)
    requires CallTells(cfg, c, ins, k) && c.kind.Some?
    ensures Ordinary(c.kind.value) <==> Streamable(cfg, LastNameOf(Opening(cfg, ins, k), k))
    ensures KindOf(cfg, LastNameOf(Opening(cfg, ins, k), k)) == c.kind.value
  {
    OpeningName(cfg, ins, k);
    StreamsByName(cfg, LastNameOf(Opening(cfg, ins, k), k));
    if !Declares(cfg) {
      PlainWhenUndeclared(cfg, FirstNameOf(ins, k));
      PlainWhenUndeclared(cfg, LastNameOf(Opening(cfg, ins, k), k));
    }
  }

  /** At every point before the end, every announced call has been introduced under
      the id then known and the name it restores to, and every argument event so far
      carried the id and name known when it was sent. */
  lemma {:induction false} RunIntroduces(v: View, cfg: Config, ins: seq<Input>)
    requires v == InitialView(v.responseId, v.model) && End !in ins
    ensures AllIntroduced(Run(v, cfg, ins).it, cfg, ins)
  {
    hide OnReasoning, OnText, OnTool, Fits, CallsTell, CallIntroduced;
    if ins != [] {
      var before, i := Init(ins), Last(ins);
      assert before + [i] == ins;
      RunIntroduces(v, cfg, before);
      RunTells(v, cfg, before);
      RunFits(v, cfg, before);
      var d, e := Run(v, cfg, before).it, Run(v, cfg, ins).it;
      SeenInRun(v, cfg, before);
      InputIntroduces(Run(v, cfg, before), cfg, before, i);
    }
  }

  lemma InputIntroduces(v: View, cfg: Config, ins: seq<Input>, i: Input)
    requires Fits(v.it) && CallsTell(v.it, cfg, ins) && AllIntroduced(v.it, cfg, ins) && !i.End?
    ensures AllIntroduced(OnInput(v, cfg, i).it, cfg, ins + [i])
  {
    hide OnReasoning, OnText, OnTool, Fits, CallIntroduced, CallTells, Begun;
    var d, e := v.it, OnInput(v, cfg, i).it;
    if i.Tool? {
      ToolCalls(d, cfg, i.index, i.id, i.name, i.arguments);
    }
    forall k | k in e.calls ensures CallIntroduced(e, cfg, ins + [i], k) {
      if i.Tool? && i.index == k {
        OwnIntroduced(d, cfg, ins, i);
      } else {
        OtherInputSame(v, cfg, i, k);
        OtherIntroduced(d, e, cfg, ins, i, k);
      }
    }
  }

  lemma OtherInputSame(v: View, cfg: Config, i: Input, k: int)
    requires Fits(v.it) && !i.End? && (!i.Tool? || i.index != k) && k in OnInput(v, cfg, i).it.calls
    ensures var d, e := v.it, OnInput(v, cfg, i).it;
            k in d.calls && e.calls[k] == d.calls[k] && SameItem(d.client, e.client, d.calls[k].out)
  {
    hide OnReasoning, OnText, OnTool, Fits;
    match i
    case Tool(_, _, _, _) =>
      ToolCalls(v.it, cfg, i.index, i.id, i.name, i.arguments);
      ToolLeavesOthers(v.it, cfg, i, k);
    case Reasoning(t) =>
      if t != "" { TextRunCalls(v.it, i); TextLeavesCalls(v.it, i, k); }
    case Text(t) =>
      if t != "" { TextRunCalls(v.it, i); TextLeavesCalls(v.it, i, k); }
    case _ =>
  }

  lemma TextRunCalls(d: Desk, i: Input)
    ensures i.Reasoning? ==> OnReasoning(d, i.text).calls == d.calls
    ensures i.Text? ==> OnText(d, i.text).calls == d.calls
  {
  }

  // ----- The end -----

  /** The routes of a whole stream: those of the fragments, what waited for an
      announcement that only the end forced, and the one of the closing event. */
  function RoutesAtEnd(cfg: Config, ins: seq<Input>, k: int): seq<(string, string)> {
    var name := LastNameOf(Opening(cfg, ins, k), k);
    var now := (LastIdOf(ins, k), LastNameOf(ins, k));
    if cfg.search && name !in cfg.custom && name == "tool_search" then []
    else if name in cfg.custom then [now]
    else
      RoutesTold(cfg, ins, k)
      + (if !Announceable(cfg, ins, k) && ArgsOf(ins, k) != "" then [now] else [])
      + [if name in cfg.namespaces then (LastIdOf(ins, k), cfg.namespaces[name].1) else now]
  }

  /** The item of a call once the stream has ended. */
  predicate EndTells(cfg: Config, c: Call, item: Item, ins: seq<Input>, k: int) {
    var at := Opening(cfg, ins, k);
    && Introduces(cfg, item.header, LastIdOf(at, k), LastNameOf(at, k))
    && (LastIdOf(at, k) == LastIdOf(ins, k) ==> item.header.callId == c.id)
    && item.stage.Done?
    && Completes(cfg, item.stage.content, LastIdOf(ins, k), LastNameOf(at, k), LastNameOf(ins, k), ArgsOf(ins, k))
    && item.stage.content.callId == c.id
    && RoutesAre(item.routes, RoutesAtEnd(cfg, ins, k))
  }

  lemma ContentCompletes(cfg: Config, c: Call, id: string, first: string)
    requires IdTells(c.id, id)
    ensures var content := ContentOf(cfg, c, KindOf(cfg, first), ArgumentsOrEmpty(c.args));
            Completes(cfg, content, id, first, c.name, c.args) && content.callId == c.id
  {
  }

  /** Closing a call that was announced. */
  lemma FinishedTells(d: Desk, cfg: Config, ins: seq<Input>, k: int, item: Item)
    requires k in d.calls && CallTells(cfg, d.calls[k].(kind := KindTold(cfg, FirstNameOf(ins, k))), ins, k)
    requires d.calls[k].kind == Some(KindOf(cfg, LastNameOf(Opening(cfg, ins, k), k)))
    requires d.calls[k].out in d.client.items && item == d.client.items[d.calls[k].out]
    requires var at := Opening(cfg, ins, k);
             Introduces(cfg, item.header, LastIdOf(at, k), LastNameOf(at, k)) &&
             (LastIdOf(at, k) == LastIdOf(ins, k) ==> item.header.callId == d.calls[k].id)
    requires RoutesAre(item.routes,
                       if Streamable(cfg, LastNameOf(Opening(cfg, ins, k), k)) then
                         RoutesTold(cfg, ins, k)
                         + (if !Announceable(cfg, ins, k) && ArgsOf(ins, k) != "" then [(LastIdOf(ins, k), LastNameOf(ins, k))]
                            else [])
                       else [])
    ensures var e := FinishedCall(d.client, cfg, d.calls[k]);
            d.calls[k].out in e.items && EndTells(cfg, d.calls[k], e.items[d.calls[k].out], ins, k)
  {
    var c := d.calls[k];
    var first := LastNameOf(Opening(cfg, ins, k), k);
    var e := FinishedCall(d.client, cfg, c).items[c.out];
    ContentCompletes(cfg, c, LastIdOf(ins, k), first);
    FinishedItem(d.client, cfg, c);
    StreamsByName(cfg, first);
    hide Introduces, Completes, RoutesTold, Opening, LastIdOf, LastNameOf, ArgsOf, Announceable, ContentOf, FinishedCall, IdTells,
         RoutesAre;
    match c.kind.value
    case SearchCall =>
    case CustomCall =>
      RoutesGrow(item.routes, [], (c.id, c.name), (LastIdOf(ins, k), LastNameOf(ins, k)));
    case NamespacedCall(_, name) =>
      RoutesGrow(item.routes,
                 RoutesTold(cfg, ins, k)
                 + (if !Announceable(cfg, ins, k) && ArgsOf(ins, k) != "" then [(LastIdOf(ins, k), LastNameOf(ins, k))] else []),
                 (c.id, name), (LastIdOf(ins, k), cfg.namespaces[first].1));
    case PlainCall =>
      RoutesGrow(item.routes,
                 RoutesTold(cfg, ins, k)
                 + (if !Announceable(cfg, ins, k) && ArgsOf(ins, k) != "" then [(LastIdOf(ins, k), LastNameOf(ins, k))] else []),
                 (c.id, c.name), (LastIdOf(ins, k), LastNameOf(ins, k)));
  }

  lemma FinishedItem(c: Client, cfg: Config, call: Call)
    requires call.kind.Some? && call.out in c.items
    ensures var item := c.items[call.out];
            var e := FinishedCall(c, cfg, call);
            call.out in e.items &&
            var after := e.items[call.out];
            && after.header == item.header
            && after.stage == Done(ContentOf(cfg, call, call.kind.value, ArgumentsOrEmpty(call.args)))
            && after.routes == match call.kind.value
                               case SearchCall => item.routes
                               case NamespacedCall(_, name) => item.routes + [(call.id, name)]
                               case _ => item.routes + [(call.id, call.name)]
  {
    hide ContentOf;
  }

  /** One round of the closing loop. */
  lemma ClosedTells(d: Desk, cfg: Config, ins: seq<Input>, k: int)
    requires Fits(d) && k in d.calls && k in SeenOf(ins) && CallTells(cfg, d.calls[k], ins, k)
    requires CallIntroduced(d, cfg, ins, k)
    ensures var e := ClosedCall(d, cfg, k);
            k in e.calls && e.calls[k].out in e.client.items &&
            EndTells(cfg, e.calls[k], e.client.items[e.calls[k].out], ins, k)
  {
    var c := d.calls[k];
    var a := Announced(d, cfg, k, true);
    var at := Opening(cfg, ins, k);
    AnnouncedIsAnnounceable(cfg, c, ins, k);
    var now := (LastIdOf(ins, k), LastNameOf(ins, k));
    if c.kind.Some? {
      OpeningKind(cfg, c, ins, k);
      assert a == d;
      assert RoutesTold(cfg, ins, k) + [] == RoutesTold(cfg, ins, k);
      hide Fits, Introduces, Completes, RoutesTold, Opening, Announced, FinishedCall, RoutesAre, Streamable;
      FinishedTells(d, cfg, ins, k, d.client.items[c.out]);
    } else {
      NeverOpened(cfg, ins, k);
      HeaderIntroduces(cfg, c, LastIdOf(ins, k));
      StreamsByName(cfg, c.name);
      var kind := KindOf(cfg, c.name);
      var item := a.client.items[c.out];
      assert item.header == HeaderOf(c, kind) && a.calls[k] == c.(kind := Some(kind));
      assert item.routes == if Ordinary(kind) && c.args != "" then [(c.id, c.name)] else [];
      hide Fits, Introduces, Completes, Announced, FinishedCall, Streamable, KindOf, HeaderOf;
      assert RoutesTold(cfg, ins, k) == [] && [] + [now] == [now];
      FinishedTells(a, cfg, ins, k, item);
    }
  }

  lemma NeverOpened(cfg: Config, ins: seq<Input>, k: int)
    requires !Announceable(cfg, ins, k) && k in SeenOf(ins)
    ensures Opening(cfg, ins, k) == ins
  {
  }

  /** The loop over 0, 1, 2, ... */
  lemma {:induction false} ClosedCallsTell(d: Desk, cfg: Config, ins: seq<Input>, n: nat, k: int)
    requires Fits(d) && 0 <= k < n && k in d.calls && k in SeenOf(ins)
    requires CallTells(cfg, d.calls[k], ins, k) && CallIntroduced(d, cfg, ins, k)
    ensures var e := ClosedCalls(d, cfg, n);
            k in e.calls && e.calls[k].out in e.client.items && e.calls[k].out == d.calls[k].out &&
            EndTells(cfg, e.calls[k], e.client.items[e.calls[k].out], ins, k)
  {
    hide Fits, ClosedCall, EndTells, CallTells, FinalContent, ForcedKind, ItemTells;
    var b := ClosedCalls(d, cfg, n - 1);
    ClosedCallsFit(d, cfg, n - 1);
    ClosedCallsAt(d, cfg, n - 1, k);
    if k == n - 1 {
      ClosedTells(b, cfg, ins, k);
      ClosedCallAs(b, cfg, k);
    } else {
      ClosedCallsTell(d, cfg, ins, n - 1, k);
      ClosedCallOthers(b, cfg, n - 1, k);
    }
  }

  lemma ClearedLeavesCalls(d: Desk, k: int)
    requires Fits(d) && k in d.calls
    ensures SameItem(d.client, Cleared(d).client, d.calls[k].out) && Cleared(d).calls == d.calls
  {
    var e := ClosedReasoning(d);
    ClosedReasoningFits(d);
    assert CallFits(d, k) && !InLane(d, d.calls[k].out);
    assert e.calls == d.calls && SameItem(d.client, e.client, d.calls[k].out);
    FallenBackFits(e);
    FallenLeavesCalls(e, k);
    var f := FallenBack(e);
    ClosedMessageLeavesCalls(f, k);
  }

  lemma FallenLeavesCalls(d: Desk, k: int)
    requires Fits(d) && k in d.calls
    ensures FallenBack(d) == d
  {
  }

  lemma ClosedMessageLeavesCalls(d: Desk, k: int)
    requires Fits(d) && k in d.calls
    ensures ClosedMessage(d).calls == d.calls && SameItem(d.client, ClosedMessage(d).client, d.calls[k].out)
  {
    assert !InLane(d, d.calls[k].out);
  }

  /** After the end every call numbered below the count of calls was introduced and
      is completed under the ids and names delivered. */
  lemma EndIntroduces(v: View, cfg: Config, ins: seq<Input>, k: int)
    requires v == InitialView(v.responseId, v.model) && End !in ins && k in SeenOf(ins) && 0 <= k < |SeenOf(ins)|
    ensures var d := Run(v, cfg, ins + [End]).it;
            k in d.calls && d.calls[k].out in d.client.items &&
            EndTells(cfg, d.calls[k], d.client.items[d.calls[k].out], ins, k)
  {
    var w := Run(v, cfg, ins);
    var d := w.it.(client := Begun(w.it.client, w.responseId, w.model));
    var g := Cleared(d);
    RunTells(v, cfg, ins);
    RunIntroduces(v, cfg, ins);
    assert |g.calls| == |g.calls.Keys|;
    hide Fits, Unfinished, Owned, Run, ClosedReasoning, FallenBack, ClosedMessage, ClosedCalls, Output, EndTells, CallTells,
         ItemTells;
    EndDesk(v, cfg, ins);
    ClearedLanes(d);
    ClearedLeavesCalls(d, k);
    assert CallTells(cfg, g.calls[k], ins, k) && CallIntroduced(w.it, cfg, ins, k);
    assert CallIntroduced(g, cfg, ins, k);
    ClosedCallsTell(g, cfg, ins, |g.calls|, k);
  }

  // ----- Read off the log -----

  /** The routes an event sends for the item of this index. */
  function RouteSent(e: Event, index: nat): seq<(CallId, string)> {
    match e.body
    case Delta(i, _, _, _, route) => if i == index && route.Some? then [route.value] else []
    case ArgumentsDone(i, _, _, route) => if i == index && route.Some? then [route.value] else []
    case InputDone(i, _, _, route) => if i == index && route.Some? then [route.value] else []
    case _ => []
  }

  function RoutesIn(log: seq<Event>, index: nat): seq<(CallId, string)> {
    if log == [] then [] else RoutesIn(Init(log), index) + RouteSent(Last(log), index)
  }

  /** The text the deltas of an item add up to. */
  function TextIn(log: seq<Event>, index: nat): string {
    if log == [] then ""
    else
      TextIn(Init(log), index)
      + (if Last(log).body.Delta? && Last(log).body.index == index then Last(log).body.text else "")
  }

  lemma ReadStep(c: Client, e: Event, index: nat)
    requires Accept(c, e).Some?
    ensures var d := Accept(c, e).value;
            && (index in c.items ==> index in d.items)
            && (index in d.items ==>
                  d.items[index].routes == (if index in c.items then c.items[index].routes else []) + RouteSent(e, index) &&
                  d.items[index].text == (if index in c.items then c.items[index].text else "") +
                                         (if e.body.Delta? && e.body.index == index then e.body.text else ""))
            && (index !in d.items ==> RouteSent(e, index) == [] && !(e.body.Delta? && e.body.index == index))
  {
  }

  /** What a client holds of an item is what the log says of it. */
  lemma {:induction false} ReadOffLog(log: seq<Event>, index: nat)
    requires Replay(log).Some?
    ensures var items := Replay(log).value.items;
            if index in items then items[index].routes == RoutesIn(log, index) && items[index].text == TextIn(log, index)
            else RoutesIn(log, index) == [] && TextIn(log, index) == ""
  {
    hide Accept, RouteSent;
    if log != [] {
      ReadOffLog(Init(log), index);
      ReadStep(Replay(Init(log)).value, Last(log), index);
    }
  }

  // ----- Calls that keep their id and name -----

  /** Every delta of a call carries this id and name or none, and the first both. */
  predicate Steady(ins: seq<Input>, k: int, id: string, name: string) {
    ins != [] &&
    (if Last(ins).Tool? && Last(ins).index == k then
       if k in SeenOf(Init(ins)) then
         Steady(Init(ins), k, id, name) && Last(ins).id in ["", id] && Last(ins).name in ["", name]
       else Last(ins).id == id && Last(ins).name == name
     else Steady(Init(ins), k, id, name))
  }

  lemma {:induction false} SteadyTells(cfg: Config, ins: seq<Input>, k: int, id: string, name: string)
    requires Steady(ins, k, id, name) && id != "" && name != ""
    ensures k in SeenOf(ins) && Announceable(cfg, ins, k)
    ensures LastIdOf(ins, k) == id && LastNameOf(ins, k) == name && FirstNameOf(ins, k) == name
    ensures LastIdOf(Opening(cfg, ins, k), k) == id && LastNameOf(Opening(cfg, ins, k), k) == name
    ensures forall i | 0 <= i < |RoutesTold(cfg, ins, k)| :: RoutesTold(cfg, ins, k)[i] == (id, name)
  {
    if Steady(Init(ins), k, id, name) {
      SteadyTells(cfg, Init(ins), k, id, name);
    } else {
      UnseenSaysNothing(Init(ins), k);
    }
  }

  /** The call goes under the same namespace and name from its announcement on. */
  predicate KeepsName(cfg: Config, ins: seq<Input>, k: int) {
    var first := LastNameOf(Opening(cfg, ins, k), k);
    LastNameOf(ins, k) == first || (first !in cfg.custom && ((cfg.search && first == "tool_search") || first in cfg.namespaces))
  }

  /** The item is added and done as the same call, exactly when no delta after the
      announcement brought another id or a name that shows. */
  lemma AddedAsDone(cfg: Config, c: Call, item: Item, ins: seq<Input>, k: int)
    requires EndTells(cfg, c, item, ins, k)
    ensures Calls(item.header) && Calls(item.stage.content)
    ensures SameCall(item.header, item.stage.content)
            <==> LastIdOf(Opening(cfg, ins, k), k) == LastIdOf(ins, k) && KeepsName(cfg, ins, k)
  {
    hide Opening, LastIdOf, LastNameOf, RoutesAre, RoutesAtEnd;
  }
}
