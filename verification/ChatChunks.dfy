/** Chat Completions stream chunks (types.go) and the flat list of inputs a chunk
    delivers to a stream converter. */
module ChatChunks {
  import opened Common

  /** A tool call id: sent by the upstream, or drawn by generateItemID. */
  datatype CallId = Given(id: string) | Minted(n: nat)

  datatype TokenDetails = TokenDetails(cached: int, creation: int, write: int)

  datatype ChatUsage = ChatUsage(prompt: int, completion: int, total: int, details: Option<TokenDetails>)

  datatype ToolCallDelta = ToolCallDelta(index: Option<int>, id: string, name: string, arguments: string)

  datatype Choice = Choice(
    reasoning: Option<string>,
    content: Option<string>,
    toolCalls: seq<ToolCallDelta>,
    finish: Option<string>)

  datatype Chunk = Chunk(id: string, model: string, usage: Option<ChatUsage>, choices: seq<Choice>)

  datatype ToolCall = ToolCall(id: string, name: string, arguments: string)

  /** The assistant message of a non-streaming response; `text` is what
      chatMessageContentText reads from its content. */
  datatype ChatMessage = ChatMessage(reasoning: string, text: string, toolCalls: seq<ToolCall>)

  /** One thing a converter is told: the header of a chunk, one non-empty
      fragment of its choices, or the end of the stream. */
  datatype Input =
    | Head(id: string, model: string, usage: Option<ChatUsage>)
    | Reasoning(text: string)
    | Text(text: string)
    | Tool(index: int, id: string, name: string, arguments: string)
    | Finish(reason: string)
    | End

  function Present(s: Option<string>): string {
    if s.Some? then s.value else ""
  }

  function ToolInput(t: ToolCallDelta): Input {
    Tool(if t.index.Some? then t.index.value else 0, t.id, t.name, t.arguments)
  }

  function ToolInputs(ts: seq<ToolCallDelta>): seq<Input> {
    if ts == [] then [] else ToolInputs(ts[..|ts| - 1]) + [ToolInput(ts[|ts| - 1])]
  }

  function ReasoningInputs(c: Choice): seq<Input> {
    if Present(c.reasoning) != "" then [Reasoning(c.reasoning.value)] else []
  }

  function TextInputs(c: Choice): seq<Input> {
    if Present(c.content) != "" then [Text(c.content.value)] else []
  }

  function FinishInputs(c: Choice): seq<Input> {
    if Present(c.finish) != "" then [Finish(c.finish.value)] else []
  }

  function ChoiceInputs(c: Choice): seq<Input> {
    ReasoningInputs(c) + TextInputs(c) + ToolInputs(c.toolCalls) + FinishInputs(c)
  }

  function ChoicesInputs(cs: seq<Choice>): seq<Input> {
    if cs == [] then [] else ChoicesInputs(cs[..|cs| - 1]) + ChoiceInputs(cs[|cs| - 1])
  }

  function ChunkInputs(c: Chunk): seq<Input> {
    [Head(c.id, c.model, c.usage)] + ChoicesInputs(c.choices)
  }

  // ----- What was delivered, said about the inputs alone -----

  function ReasoningOf(ins: seq<Input>): string {
    if ins == [] then ""
    else ReasoningOf(Init(ins)) + (if Last(ins).Reasoning? then Last(ins).text else "")
  }

  function TextOf(ins: seq<Input>): string {
    if ins == [] then ""
    else TextOf(Init(ins)) + (if Last(ins).Text? then Last(ins).text else "")
  }

  /** The concatenation of all argument fragments delivered for one tool index. */
  function ArgsOf(ins: seq<Input>, k: int): string {
    if ins == [] then ""
    else ArgsOf(Init(ins), k) + (if Last(ins).Tool? && Last(ins).index == k then Last(ins).arguments else "")
  }

  /** The tool indices that occurred. */
  function SeenOf(ins: seq<Input>): set<int> {
    if ins == [] then {}
    else SeenOf(Init(ins)) + (if Last(ins).Tool? then {Last(ins).index} else {})
  }

  /** The first non-empty name delivered for one tool index. */
  function FirstNameOf(ins: seq<Input>, k: int): string {
    if ins == [] then ""
    else
      var n := FirstNameOf(Init(ins), k);
      if n == "" && Last(ins).Tool? && Last(ins).index == k then Last(ins).name else n
  }

  /** The last non-empty name delivered for one tool index. */
  function LastNameOf(ins: seq<Input>, k: int): string {
    if ins == [] then ""
    else if Last(ins).Tool? && Last(ins).index == k && Last(ins).name != "" then Last(ins).name
    else LastNameOf(Init(ins), k)
  }

  /** The last non-empty id delivered for one tool index. */
  function LastIdOf(ins: seq<Input>, k: int): string {
    if ins == [] then ""
    else if Last(ins).Tool? && Last(ins).index == k && Last(ins).id != "" then Last(ins).id
    else LastIdOf(Init(ins), k)
  }

  function FinishOf(ins: seq<Input>): string {
    if ins == [] then ""
    else if Last(ins).Finish? && Last(ins).reason != "" then Last(ins).reason
    else FinishOf(Init(ins))
  }

  /** The id a response ends up with: the last one a chunk carried. */
  function ResponseIdIn(ins: seq<Input>, initial: string): string {
    if ins == [] then initial
    else if Last(ins).Head? && Last(ins).id != "" then Last(ins).id
    else ResponseIdIn(Init(ins), initial)
  }

  /** The model asked for, or the first one a chunk carried. */
  function ModelIn(ins: seq<Input>, initial: string): string {
    if ins == [] then initial
    else
      var m := ModelIn(Init(ins), initial);
      if Last(ins).Head? && m == "" then Last(ins).model else m
  }

  predicate HasHead(ins: seq<Input>) {
    ins != [] && (Last(ins).Head? || HasHead(Init(ins)))
  }

  /** The inputs up to the first chunk header; all of them if none came. */
  function UpToHead(ins: seq<Input>): seq<Input> {
    if ins != [] && HasHead(Init(ins)) then UpToHead(Init(ins)) else ins
  }

  lemma NoHeadYet(ins: seq<Input>)
    ensures !HasHead(ins) ==> UpToHead(ins) == ins
  {
  }

  /** The fragments of a run, with chunk headers and the finish reason taken
      out: what is left does not show where chunks began. */
  function Fragments(ins: seq<Input>): seq<Input> {
    if ins == [] then []
    else Fragments(Init(ins)) + (if Last(ins).Head? || Last(ins).Finish? then [] else [Last(ins)])
  }

  // ----- The message a stream adds up to -----

  function CallFor(ins: seq<Input>, k: int): ToolCall {
    ToolCall(LastIdOf(ins, k), LastNameOf(ins, k), ArgsOf(ins, k))
  }

  function CallsFor(ins: seq<Input>, ks: seq<int>): seq<ToolCall> {
    seq(|ks|, i requires 0 <= i < |ks| => CallFor(ins, ks[i]))
  }

  /** All reasoning, all text, and the calls in the order of their indices. */
  function MessageFor(ins: seq<Input>): ChatMessage {
    ChatMessage(ReasoningOf(ins), TextOf(ins), CallsFor(ins, Sorted(SeenOf(ins))))
  }

  // ----- What a chunk delivers -----

  function ReasoningInChoices(cs: seq<Choice>): string {
    if cs == [] then ""
    else ReasoningInChoices(Init(cs)) + (if Last(cs).reasoning.Some? then Last(cs).reasoning.value else "")
  }

  function TextInChoices(cs: seq<Choice>): string {
    if cs == [] then "" else TextInChoices(Init(cs)) + (if Last(cs).content.Some? then Last(cs).content.value else "")
  }

  /** The argument fragments for tool k; a call without an index counts as tool 0. */
  function ArgsInCalls(ts: seq<ToolCallDelta>, k: int): string {
    if ts == [] then ""
    else
      ArgsInCalls(Init(ts), k)
      + (if Last(ts).index == Some(k) || (Last(ts).index.None? && k == 0) then Last(ts).arguments else "")
  }

  function ArgsInChoices(cs: seq<Choice>, k: int): string {
    if cs == [] then "" else ArgsInChoices(Init(cs), k) + ArgsInCalls(Last(cs).toolCalls, k)
  }

  lemma {:induction false} ReasoningAppend(a: seq<Input>, b: seq<Input>)
    ensures ReasoningOf(a + b) == ReasoningOf(a) + ReasoningOf(b)
  {
    if b == [] {
      assert a + b == a;
    } else {
      assert Init(a + b) == a + Init(b) && Last(a + b) == Last(b);
      ReasoningAppend(a, Init(b));
      Associates(ReasoningOf(a), ReasoningOf(Init(b)), if Last(b).Reasoning? then Last(b).text else "");
    }
  }

  lemma {:induction false} TextAppend(a: seq<Input>, b: seq<Input>)
    ensures TextOf(a + b) == TextOf(a) + TextOf(b)
  {
    if b == [] {
      assert a + b == a;
    } else {
      assert Init(a + b) == a + Init(b) && Last(a + b) == Last(b);
      TextAppend(a, Init(b));
      Associates(TextOf(a), TextOf(Init(b)), if Last(b).Text? then Last(b).text else "");
    }
  }

  lemma {:induction false} ArgsAppend(a: seq<Input>, b: seq<Input>, k: int)
    ensures ArgsOf(a + b, k) == ArgsOf(a, k) + ArgsOf(b, k)
  {
    if b == [] {
      assert a + b == a;
    } else {
      assert Init(a + b) == a + Init(b) && Last(a + b) == Last(b);
      ArgsAppend(a, Init(b), k);
      Associates(ArgsOf(a, k), ArgsOf(Init(b), k),
                 if Last(b).Tool? && Last(b).index == k then Last(b).arguments else "");
    }
  }

  lemma DeliveredAppend(a: seq<Input>, b: seq<Input>, k: int)
    ensures ReasoningOf(a + b) == ReasoningOf(a) + ReasoningOf(b) && TextOf(a + b) == TextOf(a) + TextOf(b)
    ensures ArgsOf(a + b, k) == ArgsOf(a, k) + ArgsOf(b, k)
  {
    hide ReasoningOf, TextOf, ArgsOf;
    ReasoningAppend(a, b);
    TextAppend(a, b);
    ArgsAppend(a, b, k);
  }

  lemma NothingDelivered(k: int)
    ensures ReasoningOf([]) == "" && TextOf([]) == "" && ArgsOf([], k) == ""
  {
  }

  lemma OneDelivered(i: Input, k: int)
    ensures ReasoningOf([i]) == (if i.Reasoning? then i.text else "") && TextOf([i]) == (if i.Text? then i.text else "")
    ensures ArgsOf([i], k) == if i.Tool? && i.index == k then i.arguments else ""
  {
    InitOfSnoc([], i);
    assert [] + [i] == [i];
    NothingDelivered(k);
  }

  lemma {:induction false} ToolInputsTell(ts: seq<ToolCallDelta>, k: int)
    ensures |ToolInputs(ts)| == |ts|
    ensures forall i | 0 <= i < |ts| ::
              ToolInputs(ts)[i]
              == Tool(if ts[i].index.Some? then ts[i].index.value else 0, ts[i].id, ts[i].name, ts[i].arguments)
    ensures ReasoningOf(ToolInputs(ts)) == "" && TextOf(ToolInputs(ts)) == "" && ArgsOf(ToolInputs(ts), k) == ArgsInCalls(ts, k)
  {
    if ts != [] {
      ToolInputsTell(Init(ts), k);
      InitOfSnoc(ToolInputs(Init(ts)), ToolInput(Last(ts)));
    }
  }

  /** Reasoning before text, text before calls, calls before the finish reason. */
  function Rank(i: Input): nat {
    match i
    case Head(_, _, _) => 0
    case Reasoning(_) => 1
    case Text(_) => 2
    case Tool(_, _, _, _) => 3
    case Finish(_) => 4
    case End => 5
  }

  lemma RanksAppend(a: seq<Input>, b: seq<Input>, n: nat)
    requires forall i, j | 0 <= i < j < |a| :: Rank(a[i]) <= Rank(a[j])
    requires forall i, j | 0 <= i < j < |b| :: Rank(b[i]) <= Rank(b[j])
    requires (forall i | 0 <= i < |a| :: Rank(a[i]) <= n) && forall i | 0 <= i < |b| :: n <= Rank(b[i])
    ensures forall i, j | 0 <= i < j < |a + b| :: Rank((a + b)[i]) <= Rank((a + b)[j])
  {
  }

  lemma PartsTell(c: Choice, k: int)
    ensures var a, b, e := ReasoningInputs(c), TextInputs(c), FinishInputs(c);
            && ReasoningOf(a) == (if c.reasoning.Some? then c.reasoning.value else "") && TextOf(a) == "" && ArgsOf(a, k) == ""
            && ReasoningOf(b) == "" && TextOf(b) == (if c.content.Some? then c.content.value else "") && ArgsOf(b, k) == ""
            && ReasoningOf(e) == "" && TextOf(e) == "" && ArgsOf(e, k) == ""
  {
    NothingDelivered(k);
    OneDelivered(Reasoning(Present(c.reasoning)), k);
    OneDelivered(Text(Present(c.content)), k);
    OneDelivered(Finish(Present(c.finish)), k);
    hide ReasoningOf, TextOf, ArgsOf;
  }

  lemma ChoiceTells(c: Choice, k: int)
    ensures var ins := ChoiceInputs(c);
            && ReasoningOf(ins) == (if c.reasoning.Some? then c.reasoning.value else "")
            && TextOf(ins) == (if c.content.Some? then c.content.value else "")
            && ArgsOf(ins, k) == ArgsInCalls(c.toolCalls, k)
  {
    var a, b, d, e := ReasoningInputs(c), TextInputs(c), ToolInputs(c.toolCalls), FinishInputs(c);
    ToolInputsTell(c.toolCalls, k);
    PartsTell(c, k);
    hide ReasoningOf, TextOf, ArgsOf, ToolInputs, ArgsInCalls, ReasoningInputs, TextInputs, FinishInputs;
    DeliveredAppend(a, b, k);
    DeliveredAppend(a + b, d, k);
    DeliveredAppend(a + b + d, e, k);
  }

  /** The parts of a choice come in a fixed order, and its finish reason, if there is
      one, is among them. */
  lemma ChoiceInOrder(c: Choice)
    ensures var ins := ChoiceInputs(c);
            && (forall i, j | 0 <= i < j < |ins| :: Rank(ins[i]) <= Rank(ins[j]))
            && (forall i | 0 <= i < |ins| :: 1 <= Rank(ins[i]) <= 4 && (ins[i].Finish? ==> c.finish == Some(ins[i].reason)))
            && (c.finish.Some? && c.finish.value != "" ==> ins != [] && Last(ins) == Finish(c.finish.value))
  {
    var a, b, d, e := ReasoningInputs(c), TextInputs(c), ToolInputs(c.toolCalls), FinishInputs(c);
    ToolInputsTell(c.toolCalls, 0);
    hide ToolInputs, ArgsInCalls, ReasoningOf, TextOf, ArgsOf;
    RanksAppend(a, b, 2);
    assert forall i | 0 <= i < |d| :: d[i].Tool?;
    RanksAppend(a + b, d, 3);
    RanksAppend(a + b + d, e, 4);
  }

  /** What a chunk delivers are its header and, choice by choice, the fragments of its
      fields in a fixed order, none left out. */
  lemma {:induction false} ChoicesTell(cs: seq<Choice>, k: int)
    ensures ReasoningOf(ChoicesInputs(cs)) == ReasoningInChoices(cs) && TextOf(ChoicesInputs(cs)) == TextInChoices(cs)
    ensures ArgsOf(ChoicesInputs(cs), k) == ArgsInChoices(cs, k)
  {
    if cs != [] {
      ChoicesTell(Init(cs), k);
      ChoiceTells(Last(cs), k);
      hide ChoiceInputs, ReasoningOf, TextOf, ArgsOf, ArgsInCalls, Rank;
      DeliveredAppend(ChoicesInputs(Init(cs)), ChoiceInputs(Last(cs)), k);
    }
  }

  lemma ChunkTells(c: Chunk, k: int)
    ensures var ins := ChunkInputs(c);
            && ins[0] == Head(c.id, c.model, c.usage) && ins[1..] == ChoicesInputs(c.choices)
            && ReasoningOf(ins) == ReasoningInChoices(c.choices) && TextOf(ins) == TextInChoices(c.choices)
            && ArgsOf(ins, k) == ArgsInChoices(c.choices, k)
  {
    var head := Head(c.id, c.model, c.usage);
    ChoicesTell(c.choices, k);
    OneDelivered(head, k);
    hide ReasoningOf, TextOf, ArgsOf, ChoicesInputs, ReasoningInChoices, TextInChoices, ArgsInChoices;
    DeliveredAppend([head], ChoicesInputs(c.choices), k);
  }
}
