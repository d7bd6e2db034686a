/** The Anthropic streaming protocol as a client of the gateway sees it: the
    events, and the client that assembles content blocks from them. The client
    refuses an event that breaks the bracketing rules. */
module AnthropicProtocol {
  import opened Common
  import opened ChatChunks

  /** fromResponsesCallID: drops a legacy "fc_" prefix. Minted ids start with
      "item_" and are never changed. */
  function FromResponsesCallId(c: CallId): CallId {
    match c
    case Minted(_) => c
    case Given(id) =>
      if "fc_" <= id && ("toolu_" <= id[3..] || "call_" <= id[3..]) then Given(id[3..]) else c
  }

  /** An id with the prefix that earlier versions put before Anthropic and OpenAI
      call ids. */
  predicate Legacy(c: CallId) {
    c.Given? && ("fc_toolu_" <= c.id || "fc_call_" <= c.id)
  }

  /** Ids come through as they are; one with the legacy prefix loses exactly "fc_". */
  lemma CallIdKept(c: CallId)
    ensures !Legacy(c) ==> FromResponsesCallId(c) == c
    ensures Legacy(c) ==> exists rest: string ::
                            c.id == "fc_" + rest && ("toolu_" <= rest || "call_" <= rest) && FromResponsesCallId(c) == Given(rest)
  {
    if c.Given? && "fc_" <= c.id {
      assert c.id == "fc_" + c.id[3..];
      assert "fc_toolu_" == "fc_" + "toolu_" && "fc_call_" == "fc_" + "call_";
      assert ("fc_" + "toolu_")[3..] == "toolu_" && ("fc_" + "call_")[3..] == "call_";
      assert "toolu_" <= c.id[3..] ==> "fc_" + "toolu_" <= c.id;
      assert "call_" <= c.id[3..] ==> "fc_" + "call_" <= c.id;
    }
  }

  datatype Usage = Usage(input: int, output: int, cacheRead: int, cacheCreation: int)

  /** A content block. In a start event the body is empty; a tool's body is the
      JSON text its input_json_delta events add up to. */
  datatype Block =
    | ThinkingBlock(body: string)
    | TextBlock(body: string)
    | ToolUseBlock(id: CallId, name: string, body: string)

  datatype DeltaKind = ThinkingDelta | TextDelta | InputJsonDelta

  datatype Event =
    | MessageStart(id: string, model: string)
    | BlockStart(index: nat, block: Block)
    | BlockDelta(index: nat, kind: DeltaKind, text: string)
    | BlockStop(index: nat)
    | MessageDelta(stopReason: string, usage: Usage)
    | MessageStop

  /** Client state. `open` says whether the last block is still open, `onTime`
      whether every JSON fragment so far met its block while it was open, and
      `trailing` whether anything but message_stop followed message_delta. */
  datatype Client = Client(
    message: Option<(string, string)>,
    blocks: seq<Block>,
    open: bool,
    ending: Option<(string, Usage)>,
    stopped: bool,
    onTime: bool,
    trailing: bool)

  const FRESH_CLIENT := Client(None, [], false, None, false, true, false)

  predicate Accepts(b: Block, kind: DeltaKind) {
    match kind
    case ThinkingDelta => b.ThinkingBlock?
    case TextDelta => b.TextBlock?
    case InputJsonDelta => b.ToolUseBlock?
  }

  function Extend(b: Block, text: string): Block {
    b.(body := b.body + text)
  }

  function Touch(c: Client): Client {
    c.(trailing := c.trailing || c.ending.Some?)
  }

  function Opened(c: Client, b: Block): Client {
    Touch(c).(blocks := c.blocks + [b], open := true)
  }

  function Appended(c: Client, at: nat, text: string): Client
    requires at < |c.blocks|
  {
    Touch(c).(blocks := c.blocks[at := Extend(c.blocks[at], text)],
              onTime := c.onTime && c.open && at == |c.blocks| - 1)
  }

  /** One event. Blocks are numbered 0, 1, 2, ..., at most one is open, text and
      thinking go to the open block of that type only. A JSON fragment may come
      for any tool_use block that was started; a late one clears `onTime`. */
  function Accept(c: Client, e: Event): Option<Client> {
    match e
    case MessageStart(id, model) =>
      if c.message.None? then Some(Touch(c).(message := Some((id, model)))) else None
    case BlockStart(i, b) =>
      if c.message.Some? && !c.open && i == |c.blocks| && b.body == "" then Some(Opened(c, b)) else None
    case BlockDelta(i, kind, text) =>
      if i < |c.blocks| && Accepts(c.blocks[i], kind) && text != "" &&
         (kind.InputJsonDelta? || (c.open && i == |c.blocks| - 1))
      then Some(Appended(c, i, text)) else None
    case BlockStop(i) =>
      if c.open && i == |c.blocks| - 1 then Some(Touch(c).(open := false)) else None
    case MessageDelta(reason, usage) =>
      if c.message.Some? && !c.open && c.ending.None?
      then Some(Touch(c).(ending := Some((reason, usage)))) else None
    case MessageStop =>
      if c.ending.Some? && !c.open && !c.stopped then Some(c.(stopped := true)) else None
  }

  function Replay(log: seq<Event>): Option<Client> {
    if log == [] then Some(FRESH_CLIENT)
    else
      var c := Replay(log[..|log| - 1]);
      if c.None? then None else Accept(c.value, log[|log| - 1])
  }

  // ----- What an accepted log looks like, without the client -----

  /** The indices of the block starts, in order. */
  function Starts(log: seq<Event>): seq<nat> {
    if log == [] then []
    else Starts(log[..|log| - 1]) + (if log[|log| - 1].BlockStart? then [log[|log| - 1].index] else [])
  }

  /** The indices of the block stops, in order. */
  function Stops(log: seq<Event>): seq<nat> {
    if log == [] then []
    else Stops(log[..|log| - 1]) + (if log[|log| - 1].BlockStop? then [log[|log| - 1].index] else [])
  }

  predicate UpTo(s: seq<nat>, n: nat) {
    |s| == n && forall i | 0 <= i < n :: s[i] == i
  }

  lemma NestStep(c: Client, e: Event)
    requires Accept(c, e).Some? && (c.open ==> c.blocks != [])
    ensures var d := Accept(c, e).value;
            && (d.open ==> d.blocks != [])
            && |d.blocks| == |c.blocks| + (if e.BlockStart? then 1 else 0)
            && (e.BlockStart? ==> e.index == |c.blocks| && !c.open && d.open)
            && (e.BlockStop? ==> e.index == |c.blocks| - 1 && c.open && !d.open)
            && (!e.BlockStart? && !e.BlockStop? ==> d.open == c.open)
  {
  }

  /** Starts are 0, 1, 2, ...; stops are the same numbers in the same order and
      never more than one behind. */
  lemma {:induction false} AcceptedBlocksNest(log: seq<Event>)
    requires Replay(log).Some?
    ensures var c := Replay(log).value;
            (c.open ==> c.blocks != []) &&
            UpTo(Starts(log), |c.blocks|) &&
            UpTo(Stops(log), |c.blocks| - (if c.open then 1 else 0))
  {
    hide Accept;
    if log != [] {
      AcceptedBlocksNest(log[..|log| - 1]);
      NestStep(Replay(log[..|log| - 1]).value, log[|log| - 1]);
    }
  }

  predicate IsBlockEvent(e: Event) {
    e.BlockStart? || e.BlockDelta? || e.BlockStop?
  }

  /** The shape of an accepted log: message_start first, then block events, then
      at most one message_delta and one message_stop at the very end. */
  lemma {:induction false} AcceptedLogShape(log: seq<Event>)
    requires Replay(log).Some?
    ensures var c := Replay(log).value;
            var n := |log|;
            (c.message.None? <==> n == 0) && (c.ending.Some? ==> n > 0) &&
            (c.stopped ==> c.ending.Some?) &&
            (n > 0 ==> log[0].MessageStart?) &&
            (!c.trailing ==>
               var tail := (if c.ending.Some? then 1 else 0) + (if c.stopped then 1 else 0);
               tail < n + 1 && (c.ending.Some? ==> tail + 1 <= n && log[n - tail].MessageDelta?) &&
               (c.stopped ==> log[n - 1].MessageStop?) &&
               (forall i | 0 < i < n - tail :: IsBlockEvent(log[i])))
  {
    if log != [] {
      AcceptedLogShape(log[..|log| - 1]);
    }
  }

  /** The client has the id and model that message_start carried. */
  lemma {:induction false} MessageTold(log: seq<Event>)
    requires Replay(log).Some? && log != []
    ensures log[0].MessageStart? && Replay(log).value.message == Some((log[0].id, log[0].model))
  {
    if |log| > 1 {
      MessageTold(log[..|log| - 1]);
    } else {
      assert log[..0] == [];
    }
  }
}
