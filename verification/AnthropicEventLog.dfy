/** What a reader of the outgoing events alone can tell (the converter from Anthropic
    to Responses events): every piece that came in went out, and each event that
    finishes something repeats what was sent before. */
module AnthropicEventLog {
  import opened Common
  import opened AnthropicEvents

  // ----- Pieces -----

  function PieceIn(says: Says): seq<Piece> {
    match says
    case TextDelta(text) => [TextPiece(text)]
    case SummaryDelta(text) => [ThinkingPiece(text)]
    case ArgumentsDelta(text, _, _) => [JsonPiece(text)]
    case _ => []
  }

  function CallIn(says: Says): seq<(string, string)> {
    if says.Added? && says.header.CallOut? then [(says.header.callId, says.header.name)] else []
  }

  /** The pieces of text, thinking and JSON that the deltas carry, in order. */
  function PiecesSent(log: seq<Event>): seq<Piece> {
    if log == [] then [] else PiecesSent(Init(log)) + PieceIn(Last(log).says)
  }

  /** The pieces that came in and are not empty, in order. */
  function PiecesReceived(es: seq<AnthropicEvent>): seq<Piece> {
    if es == [] then [] else PiecesReceived(Init(es)) + PieceOf(Last(es))
  }

  /** The calls that are announced, by id and name. */
  function CallsSent(log: seq<Event>): seq<(string, string)> {
    if log == [] then [] else CallsSent(Init(log)) + CallIn(Last(log).says)
  }

  function CallsReceived(es: seq<AnthropicEvent>): seq<(string, string)> {
    if es == [] then [] else CallsReceived(Init(es)) + CallOf(Last(es))
  }

  function PiecesIn(ss: seq<Saying>): seq<Piece> {
    if ss == [] then [] else PiecesIn(Init(ss)) + (if Last(ss).Heard? then [Last(ss).piece] else [])
  }

  function CallsIn(ss: seq<Saying>): seq<(string, string)> {
    if ss == [] then [] else CallsIn(Init(ss)) + (if Last(ss).CallMade? then [(Last(ss).id, Last(ss).name)] else [])
  }

  lemma SayingSnoc(ss: seq<Saying>, more: seq<Saying>)
    requires |more| <= 1
    ensures PiecesIn(ss + more) == PiecesIn(ss) + (if more != [] && more[0].Heard? then [more[0].piece] else [])
    ensures CallsIn(ss + more) == CallsIn(ss) + (if more != [] && more[0].CallMade? then [(more[0].id, more[0].name)] else [])
  {
    if more == [] {
      assert ss + more == ss && PiecesIn(ss) + [] == PiecesIn(ss) && CallsIn(ss) + [] == CallsIn(ss);
    } else {
      assert more == [more[0]];
      InitOfSnoc(ss, more[0]);
    }
  }

  lemma OneSaid(says: Says)
    ensures var m := SaidBy(says);
            && |m| <= 1
            && PieceIn(says) == (if m != [] && m[0].Heard? then [m[0].piece] else [])
            && CallIn(says) == (if m != [] && m[0].CallMade? then [(m[0].id, m[0].name)] else [])
  {
  }

  lemma {:induction false} SaidTells(log: seq<Event>)
    ensures PiecesIn(Said(log)) == PiecesSent(log) && CallsIn(Said(log)) == CallsSent(log)
  {
    if log != [] {
      SaidTells(Init(log));
      hide PiecesIn, CallsIn, SaidBy, PieceIn, CallIn;
      OneSaid(Last(log).says);
      SayingSnoc(Said(Init(log)), SaidBy(Last(log).says));
    }
  }

  function PieceOf(e: AnthropicEvent): seq<Piece> {
    if e.BlockDelta? && e.delta.Some? && !e.delta.value.OtherPiece? && e.delta.value.text != "" then [e.delta.value] else []
  }

  function CallOf(e: AnthropicEvent): seq<(string, string)> {
    if e.BlockStart? && e.block.Some? && e.block.value.ToolOpens? then [(e.block.value.id, e.block.value.name)] else []
  }

  lemma OneMeant(before: seq<AnthropicEvent>, e: AnthropicEvent)
    ensures var m := MeantBy(before, e);
            && |m| <= 1
            && PieceOf(e) == (if m != [] && m[0].Heard? then [m[0].piece] else [])
            && CallOf(e) == (if m != [] && m[0].CallMade? then [(m[0].id, m[0].name)] else [])
  {
    hide Greeted;
  }

  lemma {:induction false} MeantTells(es: seq<AnthropicEvent>)
    ensures PiecesIn(Meant(es)) == PiecesReceived(es) && CallsIn(Meant(es)) == CallsReceived(es)
  {
    if es != [] {
      MeantTells(Init(es));
      hide PiecesIn, CallsIn, MeantBy, PieceOf, CallOf;
      OneMeant(Init(es), Last(es));
      SayingSnoc(Meant(Init(es)), MeantBy(Init(es), Last(es)));
    }
  }

  /** The deltas that went out are the pieces that came in, one by one and in order,
      without the empty ones; and the calls announced are those that were opened. */
  lemma PiecesPassedOn(s: StreamState)
    requires s.OnRecord()
    ensures PiecesSent(s.log) == PiecesReceived(s.received) && CallsSent(s.log) == CallsReceived(s.received)
  {
    hide Said, Meant, Greeted;
    SaidTells(s.log);
    MeantTells(s.received);
  }

  // ----- What finishing events repeat -----

  /** The text of the deltas since the part was added. */
  function TextSince(log: seq<Event>): string {
    if log == [] then ""
    else
      match Last(log).says
      case TextDelta(text) => TextSince(Init(log)) + text
      case PartAdded => ""
      case TextDone(_) => ""
      case Done(_) => ""
      case _ => TextSince(Init(log))
  }

  /** The thinking and the arguments of the deltas since the last item was done. */
  function SummarySince(log: seq<Event>): string {
    if log == [] || Last(log).says.Done? then ""
    else SummarySince(Init(log)) + (if Last(log).says.SummaryDelta? then Last(log).says.text else "")
  }

  function ArgumentsSince(log: seq<Event>): string {
    if log == [] || Last(log).says.Done? then ""
    else ArgumentsSince(Init(log)) + (if Last(log).says.ArgumentsDelta? then Last(log).says.text else "")
  }

  /** The parts that ended since the last item was done. */
  function PartsSince(log: seq<Event>): seq<string> {
    if log == [] || Last(log).says.Done? then []
    else PartsSince(Init(log)) + (if Last(log).says.TextDone? then [Last(log).says.text] else [])
  }

  /** The item that was added last and is not done: its id and what it was added as. */
  function OpenItem(log: seq<Event>): Option<(Option<nat>, Body)> {
    if log == [] || Last(log).says.Done? then None
    else if Last(log).says.Added? then Some((Last(log).item, Last(log).says.header))
    else OpenItem(Init(log))
  }

  ghost predicate Knows(c: Current, log: seq<Event>) {
    && c.text == TextSince(log) && c.summary == SummarySince(log) && c.args == ArgumentsSince(log) && c.content == PartsSince(log)
    && (match c.kind
        case NoItem => OpenItem(log).None?
        case MessageItem => OpenItem(log) == Some((c.item, MessageOut([])))
        case CallItem => OpenItem(log) == Some((c.item, CallOut(c.callId, c.name, "")))
        case ReasoningItem => OpenItem(log) == Some((c.item, ReasoningOut(""))))
  }

  lemma KnowsStep(c: Current, log: seq<Event>, e: Event)
    requires Knows(c, log) && Accept(c, e).Some?
    ensures Knows(Accept(c, e).value, log + [e])
  {
    InitOfSnoc(log, e);
    assert c.summary + "" == c.summary && c.args + "" == c.args && c.content + [] == c.content;
    match e.says
    case Added(header) =>
      match header {
        case MessageOut(_) =>
        case CallOut(_, _, _) =>
        case ReasoningOut(_) =>
      }
    case Done(body) =>
      match body {
        case MessageOut(_) =>
        case CallOut(_, _, _) =>
        case ReasoningOut(_) =>
      }
    case _ =>
  }

  lemma {:induction false} ClientKnows(log: seq<Event>)
    requires Replay(log).Some?
    ensures Knows(Replay(log).value, log)
  {
    if log != [] {
      ClientKnows(Init(log));
      hide Knows, Accept;
      assert Init(log) + [Last(log)] == log;
      KnowsStep(Replay(Init(log)).value, Init(log), Last(log));
    } else {
      assert Knows(NOTHING, []);
    }
  }

  lemma {:induction false} AcceptedAt(log: seq<Event>, i: nat)
    requires Replay(log).Some? && i < |log|
    ensures Replay(log[..i]).Some? && Accept(Replay(log[..i]).value, log[i]).Some?
  {
    hide Accept;
    if i == |log| - 1 {
      assert log[..i] == Init(log);
    } else {
      AcceptedAt(Init(log), i);
      assert Init(log)[..i] == log[..i];
    }
  }

  /** What is said to be finished was sent: a text is the text of its deltas; an item
      is done under the id, type, call id and name it was added with last, with the
      parts, thinking or arguments sent since. */
  lemma FinishedAsSent(log: seq<Event>, i: nat)
    requires Replay(log).Some? && i < |log|
    ensures var before, e := log[..i], log[i];
            && (e.says.TextDone? ==> e.says.text == TextSince(before))
            && (e.says.PartDone? ==> PartsSince(before) != [] && e.says.text == Last(PartsSince(before)))
            && (e.says.Done? ==>
                  OpenItem(before).Some? && e.item == OpenItem(before).value.0 &&
                  match e.says.body
                  case MessageOut(parts) => OpenItem(before).value.1 == MessageOut([]) && parts == PartsSince(before)
                  case ReasoningOut(summary) => OpenItem(before).value.1 == ReasoningOut("") && summary == SummarySince(before)
                  case CallOut(id, name, args) =>
                    OpenItem(before).value.1 == CallOut(id, name, "") &&
                    args == if ArgumentsSince(before) == "" then "{}" else ArgumentsSince(before))
            && (e.says.ArgumentsDelta? ==>
                  OpenItem(before).Some? && OpenItem(before).value.1.CallOut? ==>
                    e.item == OpenItem(before).value.0 && e.says.callId == OpenItem(before).value.1.callId &&
                    e.says.name == OpenItem(before).value.1.name)
            && (e.says.Terminal? ==> OpenItem(before).None?)
  {
    AcceptedAt(log, i);
    ClientKnows(log[..i]);
    hide Replay, TextSince, SummarySince, ArgumentsSince, PartsSince, OpenItem;
  }

  // ----- Item ids -----

  lemma StepDraws(v: View, e: AnthropicEvent)
    requires |v.added| == v.minted && forall i | 0 <= i < |v.added| :: v.added[i] == Some(i)
    ensures var w := Step(v, e); |w.added| == w.minted && forall i | 0 <= i < |w.added| :: w.added[i] == Some(i)
  {
    hide BodyOf, FinalOf, OnMessage, OnUsage;
  }

  /** Every item that is added has an id of its own. */
  lemma {:induction false} IdsDrawnOnce(es: seq<AnthropicEvent>)
    ensures var v := Run(INITIAL, es);
            |v.added| == v.minted && forall i | 0 <= i < |v.added| :: v.added[i] == Some(i)
  {
    hide Step;
    if es != [] {
      IdsDrawnOnce(Init(es));
      StepDraws(Run(INITIAL, Init(es)), Last(es));
    }
  }
}
