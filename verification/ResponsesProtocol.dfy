/** The Responses streaming protocol as a strict client sees it: numbered events,
    output items that are added, filled and done, and one terminal event. */
module ResponsesProtocol {
  import opened Common
  import opened ChatChunks

  /** An output item without its item id and status. */
  datatype Content =
    | ReasoningItem(summary: string)
    | MessageItem(text: string)
    | FunctionItem(callId: CallId, name: string, namespace: string, arguments: string)
    | CustomItem(callId: CallId, name: string, input: string)
    | SearchItem(callId: CallId, arguments: string)

  datatype ResponsesUsage = ResponsesUsage(
    input: int, output: int, total: int, cacheCreationInput: int, details: Option<TokenDetails>)

  datatype Response = Response(
    id: string, model: string, status: string, incomplete: string, output: seq<Content>, usage: Option<ResponsesUsage>)

  datatype DeltaKind = SummaryDelta | TextDelta | ArgumentsDelta | InputDelta

  /** What an event says; `route` is the call id and name that argument events carry. */
  datatype Body =
    | Created(id: string, model: string)
    | ItemAdded(index: nat, item: nat, content: Content)
    | PartAdded(index: nat, item: nat)
    | Delta(index: nat, item: nat, kind: DeltaKind, text: string, route: Option<(CallId, string)>)
    | TextDone(index: nat, item: nat, text: string)
    | PartDone(index: nat, item: nat, text: string)
    | ArgumentsDone(index: nat, item: nat, arguments: string, route: Option<(CallId, string)>)
    | InputDone(index: nat, item: nat, input: string, route: Option<(CallId, string)>)
    | ItemDone(index: nat, item: nat, content: Content)
    | Completed(response: Response)

  datatype Event = Event(seqNo: nat, body: Body)

  datatype Stage = Fresh | PartOpen | Sealed | PartClosed | Done(content: Content)

  /** An item as the client knows it: what it was added as, the deltas it got so
      far, and the routes its argument events carried, in order. */
  datatype Item = Item(id: nat, header: Content, text: string, routes: seq<(CallId, string)>, stage: Stage)

  /** `tidy` is cleared by a delta for an item that was done already; `trailing`
      is set by any event after the terminal one. */
  datatype Client = Client(
    created: Option<(string, string)>,
    items: map<nat, Item>,
    completed: Option<Response>,
    count: nat,
    tidy: bool,
    trailing: bool)

  const FRESH_CLIENT := Client(None, map[], None, 0, true, false)

  function ArgumentsOrEmpty(s: string): string {
    if IsBlank(s) then "{}" else s
  }

  predicate SameKind(a: Content, b: Content) {
    match a
    case ReasoningItem(_) => b.ReasoningItem?
    case MessageItem(_) => b.MessageItem?
    case FunctionItem(_, _, _, _) => b.FunctionItem?
    case CustomItem(_, _, _) => b.CustomItem?
    case SearchItem(_, _) => b.SearchItem?
  }

  predicate Takes(header: Content, kind: DeltaKind) {
    match kind
    case SummaryDelta => header.ReasoningItem?
    case TextDelta => header.MessageItem?
    case ArgumentsDelta => header.FunctionItem?
    case InputDelta => header.CustomItem?
  }

  /** The stage in which an item takes deltas. */
  function Filling(header: Content): Stage {
    if header.ReasoningItem? || header.MessageItem? then PartOpen else Fresh
  }

  /** The stage from which an item may be done. */
  function Complete(header: Content): Stage {
    match header
    case ReasoningItem(_) => PartClosed
    case MessageItem(_) => PartClosed
    case FunctionItem(_, _, _, _) => Sealed
    case CustomItem(_, _, _) => Sealed
    case SearchItem(_, _) => Fresh
  }

  /** A finished item repeats exactly what its deltas said. */
  predicate Repeats(content: Content, text: string) {
    match content
    case ReasoningItem(summary) => summary == text
    case MessageItem(t) => t == text
    case FunctionItem(_, _, _, arguments) => arguments == ArgumentsOrEmpty(text)
    case CustomItem(_, _, input) => input == text
    case SearchItem(_, _) => true
  }

  /** An item is added without any of its text. */
  predicate IsEmpty(content: Content) {
    match content
    case ReasoningItem(summary) => summary == ""
    case MessageItem(t) => t == ""
    case FunctionItem(_, _, _, arguments) => arguments == ""
    case CustomItem(_, _, input) => input == ""
    case SearchItem(_, arguments) => arguments == ""
  }

  function Tick(c: Client): Client {
    c.(count := c.count + 1, trailing := c.trailing || c.completed.Some?)
  }

  function WithItem(c: Client, index: nat, item: Item): Client {
    Tick(c).(items := c.items[index := item])
  }

  function Staged(c: Client, index: nat, stage: Stage): Client {
    if index in c.items then WithItem(c, index, c.items[index].(stage := stage)) else c
  }

  function Routed(item: Item, route: Option<(CallId, string)>): Item {
    if route.Some? then item.(routes := item.routes + [route.value]) else item
  }

  function Told(c: Client, index: nat, text: string, route: Option<(CallId, string)>): Client {
    if index in c.items then
      WithItem(c, index, Routed(c.items[index], route).(text := c.items[index].text + text))
        .(tidy := c.tidy && !c.items[index].stage.Done?)
    else c
  }

  function Sealing(c: Client, index: nat, route: Option<(CallId, string)>): Client {
    if index in c.items then WithItem(c, index, Routed(c.items[index], route).(stage := Sealed)) else c
  }

  predicate Knows(c: Client, index: nat, item: nat) {
    c.created.Some? && index in c.items && c.items[index].id == item
  }

  function Apply(c: Client, b: Body): Option<Client> {
    match b
    case Created(id, model) =>
      if c.created.None? then Some(Tick(c).(created := Some((id, model)))) else None
    case ItemAdded(i, item, content) =>
      if c.created.Some? && i !in c.items && IsEmpty(content)
      then Some(WithItem(c, i, Item(item, content, "", [], Fresh))) else None
    case PartAdded(i, item) =>
      if Knows(c, i, item) && c.items[i].stage.Fresh? && Filling(c.items[i].header).PartOpen?
      then Some(Staged(c, i, PartOpen)) else None
    case Delta(i, item, kind, text, route) =>
      if Knows(c, i, item) && Takes(c.items[i].header, kind) && text != "" && (kind.ArgumentsDelta? <==> route.Some?) &&
         (c.items[i].stage == Filling(c.items[i].header) || c.items[i].stage.Done?)
      then Some(Told(c, i, text, route)) else None
    case TextDone(i, item, text) =>
      if Knows(c, i, item) && c.items[i].stage.PartOpen? && text == c.items[i].text
      then Some(Staged(c, i, Sealed)) else None
    case PartDone(i, item, text) =>
      if Knows(c, i, item) && Filling(c.items[i].header).PartOpen? && c.items[i].stage.Sealed? && text == c.items[i].text
      then Some(Staged(c, i, PartClosed)) else None
    case ArgumentsDone(i, item, arguments, route) =>
      if Knows(c, i, item) && c.items[i].header.FunctionItem? && c.items[i].stage.Fresh? && route.Some? &&
         arguments == ArgumentsOrEmpty(c.items[i].text)
      then Some(Sealing(c, i, route)) else None
    case InputDone(i, item, input, route) =>
      if Knows(c, i, item) && c.items[i].header.CustomItem? && c.items[i].stage.Fresh? && route.Some? &&
         input == c.items[i].text
      then Some(Sealing(c, i, route)) else None
    case ItemDone(i, item, content) =>
      if Knows(c, i, item) && SameKind(content, c.items[i].header) && c.items[i].stage == Complete(c.items[i].header) &&
         Repeats(content, c.items[i].text)
      then Some(Staged(c, i, Done(content))) else None
    case Completed(response) =>
      if c.created.Some? && c.completed.None? then Some(Tick(c).(completed := Some(response))) else None
  }

  function Accept(c: Client, e: Event): Option<Client> {
    if e.seqNo == c.count then Apply(c, e.body) else None
  }

  function Replay(log: seq<Event>): Option<Client> {
    if log == [] then Some(FRESH_CLIENT)
    else
      var c := Replay(log[..|log| - 1]);
      if c.None? then None else Accept(c.value, log[|log| - 1])
  }

  // ----- What an accepted log looks like, without the client -----

  lemma NumberStep(c: Client, e: Event)
    requires Accept(c, e).Some?
    ensures var d := Accept(c, e).value;
            && e.seqNo == c.count && d.count == c.count + 1
            && (e.body.Created? <==> c.created.None?) && d.created.Some?
            && (e.body.Completed? ==> c.completed.None? && d.completed.Some?)
            && (!e.body.Completed? ==> d.completed == c.completed)
            && d.trailing == (c.trailing || c.completed.Some?)
  {
  }

  /** Events are numbered 0, 1, 2, ...; response.created is the first and only
      one; when nothing follows the terminal event it is the last and only one. */
  lemma {:induction false} AcceptedLogNumbered(log: seq<Event>)
    requires Replay(log).Some?
    ensures var c := Replay(log).value;
            && c.count == |log|
            && (forall i | 0 <= i < |log| :: log[i].seqNo == i)
            && (c.created.Some? <==> log != [])
            && (forall i | 0 <= i < |log| :: log[i].body.Created? <==> i == 0)
            && (c.completed.None? ==> forall i | 0 <= i < |log| :: !log[i].body.Completed?)
            && (c.completed.Some? && !c.trailing ==>
                  log != [] && forall i | 0 <= i < |log| :: log[i].body.Completed? <==> i == |log| - 1)
            && (c.trailing ==> c.completed.Some?)
  {
    hide Accept;
    if log != [] {
      AcceptedLogNumbered(log[..|log| - 1]);
      NumberStep(Replay(log[..|log| - 1]).value, log[|log| - 1]);
    }
  }

  predicate Adds(e: Event, index: nat) {
    e.body.ItemAdded? && e.body.index == index
  }

  predicate Finishes(e: Event, index: nat) {
    e.body.ItemDone? && e.body.index == index
  }

  function CountAdds(log: seq<Event>, index: nat): nat {
    if log == [] then 0 else CountAdds(log[..|log| - 1], index) + (if Adds(log[|log| - 1], index) then 1 else 0)
  }

  function CountDones(log: seq<Event>, index: nat): nat {
    if log == [] then 0 else CountDones(log[..|log| - 1], index) + (if Finishes(log[|log| - 1], index) then 1 else 0)
  }

  lemma ItemStep(c: Client, e: Event, index: nat)
    requires Accept(c, e).Some?
    ensures var d := Accept(c, e).value;
            && (index in d.items <==> index in c.items || Adds(e, index))
            && (Adds(e, index) ==> index !in c.items && d.items[index].id == e.body.item &&
                                   d.items[index].header == e.body.content && d.items[index].stage == Fresh)
            && (index in c.items ==> d.items[index].id == c.items[index].id && d.items[index].header == c.items[index].header)
            && (index in c.items && c.items[index].stage.Done? ==>
                  !Finishes(e, index) && d.items[index].stage == c.items[index].stage)
            && (index in c.items && !c.items[index].stage.Done? ==>
                  (d.items[index].stage.Done? <==> Finishes(e, index)))
            && (Finishes(e, index) ==>
                  index in c.items && e.body.item == c.items[index].id && SameKind(e.body.content, c.items[index].header) &&
                  d.items[index].stage == Done(e.body.content))
  {
  }

  lemma {:induction false} AcceptedItemsCount(log: seq<Event>, index: nat)
    requires Replay(log).Some?
    ensures var c := Replay(log).value;
            && CountAdds(log, index) == (if index in c.items then 1 else 0)
            && CountDones(log, index) == (if index in c.items && c.items[index].stage.Done? then 1 else 0)
  {
    if log != [] {
      hide Accept, Adds, Finishes;
      AcceptedItemsCount(log[..|log| - 1], index);
      ItemStep(Replay(log[..|log| - 1]).value, log[|log| - 1], index);
    }
  }

  /** What the client remembers of the event that added or finished an item. */
  predicate Remembers(c: Client, e: Event, index: nat) {
    && (Adds(e, index) ==>
          index in c.items && e.body.item == c.items[index].id && e.body.content == c.items[index].header)
    && (Finishes(e, index) ==>
          index in c.items && e.body.item == c.items[index].id && c.items[index].stage == Done(e.body.content) &&
          SameKind(e.body.content, c.items[index].header))
  }

  lemma {:induction false} AcceptedItemsRemembered(log: seq<Event>, index: nat, i: nat)
    requires Replay(log).Some? && i < |log|
    ensures Remembers(Replay(log).value, log[i], index)
  {
    var before := log[..|log| - 1];
    ItemStep(Replay(before).value, log[|log| - 1], index);
    hide Accept, SameKind;
    if i < |log| - 1 {
      AcceptedItemsRemembered(before, index, i);
      assert before[i] == log[i];
    }
  }

  /** An item is finished after it was added. */
  lemma {:induction false} AcceptedItemsOrdered(log: seq<Event>, index: nat, i: nat, j: nat)
    requires Replay(log).Some? && i < |log| && j < |log| && Adds(log[i], index) && Finishes(log[j], index)
    ensures i < j
  {
    var before := log[..|log| - 1];
    ItemStep(Replay(before).value, log[|log| - 1], index);
    hide Accept, SameKind;
    if i < |before| && j < |before| {
      AcceptedItemsOrdered(before, index, i, j);
    } else if j < |before| {
      AcceptedItemsRemembered(before, index, j);
    }
  }

  /** Every add of an item comes before it is finished. */
  predicate AddedFirst(log: seq<Event>, index: nat) {
    forall i, j | 0 <= i < |log| && 0 <= j < |log| && Adds(log[i], index) && Finishes(log[j], index) :: i < j
  }

  /** An item is added at most once and done at most once, and only after it was
      added, under the same item id and with the same type. */
  lemma AcceptedItemsPair(log: seq<Event>, index: nat)
    requires Replay(log).Some?
    ensures var c := Replay(log).value;
            && CountAdds(log, index) == (if index in c.items then 1 else 0)
            && CountDones(log, index) == (if index in c.items && c.items[index].stage.Done? then 1 else 0)
            && AddedFirst(log, index)
            && forall i | 0 <= i < |log| :: Remembers(c, log[i], index)
  {
    hide Replay, Remembers, Adds, Finishes;
    AcceptedItemsCount(log, index);
    forall i | 0 <= i < |log| ensures Remembers(Replay(log).value, log[i], index) {
      AcceptedItemsRemembered(log, index, i);
    }
    forall i, j | 0 <= i < |log| && 0 <= j < |log| && Adds(log[i], index) && Finishes(log[j], index) ensures i < j {
      AcceptedItemsOrdered(log, index, i, j);
    }
  }

  /** The client has the id and model that response.created carried, and the response
      that the terminal event carried. */
  lemma {:induction false} EndsTold(log: seq<Event>, i: nat)
    requires Replay(log).Some? && i < |log|
    ensures log[0].body.Created? && Replay(log).value.created == Some((log[0].body.id, log[0].body.model))
    ensures log[i].body.Completed? ==> Replay(log).value.completed == Some(log[i].body.response)
  {
    var before := log[..|log| - 1];
    if before != [] {
      EndsTold(before, if i < |before| then i else 0);
    } else {
      assert log[..0] == [];
    }
  }
}
