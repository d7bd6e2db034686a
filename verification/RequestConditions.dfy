/** When the direct and the composed translation of an Anthropic history send the
    same messages, said of the turns of the history alone. */
module RequestConditions {
  import opened Common
  import opened ChatChunks
  import opened ChatMessages
  import opened ResponsesInput
  import opened RequestEquality
  import opened RequestTranslation
  import N = Normalize
  import M = ToolOutputMedia

  // ----- What the turns hold -----

  /** A tool result: the call it answers, and what it says. */
  datatype Reply = Reply(id: string, body: ResultBody)

  function RepliesIn(bs: seq<Block>): seq<Reply> {
    if bs == [] then []
    else RepliesIn(Init(bs)) + (if Last(bs).ToolResult? then [Reply(Last(bs).id, Last(bs).body)] else [])
  }

  /** The tool results of a history, in order. */
  function RepliesOf(ts: seq<Turn>): seq<Reply> {
    if ts == [] then []
    else
      RepliesOf(Init(ts)) +
      (if Last(ts).content.BlocksTurn? && Last(ts).role != ASSISTANT then RepliesIn(Last(ts).content.blocks) else [])
  }

  /** The tool calls of a history, in order. */
  function UsesOf(ts: seq<Turn>): seq<ToolCall> {
    if ts == [] then []
    else
      UsesOf(Init(ts)) +
      (if Last(ts).content.BlocksTurn? && Last(ts).role == ASSISTANT then ToolUses(Last(ts).content.blocks) else [])
  }

  predicate HoldsImage(w: Wire, r: Reply) {
    M.Extracted(w.decode, w.encode, Some(M.Str(ResultText(r.body)))).Some?
  }

  predicate Uses(ts: seq<Turn>, id: string) {
    exists i | 0 <= i < |UsesOf(ts)| :: UsesOf(ts)[i].id == id
  }

  /** The i-th result is the last one for its call. */
  predicate IsLatest(rs: seq<Reply>, i: nat)
    requires i < |rs|
  {
    forall j | i < j < |rs| :: rs[j].id != rs[i].id
  }

  /** No result that is sent holds an image: none without a call id, and none that is
      the last for a call of the history. */
  predicate ImageFree(w: Wire, ts: seq<Turn>) {
    var rs := RepliesOf(ts);
    forall i | 0 <= i < |rs| && (rs[i].id == "" || (IsLatest(rs, i) && Uses(ts, rs[i].id))) :: !HoldsImage(w, rs[i])
  }

  /** The call ids a history has results for. */
  function AnsweredIds(ts: seq<Turn>): set<string> {
    set i | 0 <= i < |RepliesOf(ts)| && RepliesOf(ts)[i].id != "" :: RepliesOf(ts)[i].id
  }

  predicate SomeAnswered(ids: set<string>, calls: seq<ToolCall>) {
    exists i | 0 <= i < |calls| :: calls[i].id in ids
  }

  /** The text of the assistant message that calls would join after these turns. */
  function SpokenText(ts: seq<Turn>): string {
    if ts == [] then ""
    else match Last(ts).content
      case StringTurn(text) => text
      case BlocksTurn(bs) =>
        if Last(ts).role != ASSISTANT then SpokenText(Init(ts))
        else if JoinedText(bs) != "" then JoinedText(bs)
        else if AssistantSpokeLast(Init(ts)) then SpokenText(Init(ts))
        else ""
      case MalformedTurn => SpokenText(Init(ts))
  }

  /** The calls it makes already. */
  function SpokenCalls(ts: seq<Turn>): seq<ToolCall> {
    if ts == [] then []
    else match Last(ts).content
      case StringTurn(_) => []
      case BlocksTurn(bs) =>
        if Last(ts).role != ASSISTANT then SpokenCalls(Init(ts))
        else if JoinedText(bs) == "" && AssistantSpokeLast(Init(ts)) then SpokenCalls(Init(ts)) + ToolUses(bs)
        else ToolUses(bs)
      case MalformedTurn => SpokenCalls(Init(ts))
  }

  /** A turn for which the direct translation sends a message more: an assistant turn
      without text that makes no call; whose calls, some answered, join an assistant
      message that is sent anyway; or whose calls, none answered, join a blank one and
      take it along. */
  predicate Surplus(ids: set<string>, before: seq<Turn>, t: Turn) {
    t.content.BlocksTurn? && t.role == ASSISTANT && JoinedText(t.content.blocks) == "" &&
    var calls := ToolUses(t.content.blocks);
    (calls == [] ||
     (AssistantSpokeLast(before) &&
      if SomeAnswered(ids, calls)
      then SpokenText(before) != "" || SpokenCalls(before) == [] || SomeAnswered(ids, SpokenCalls(before))
      else SpokenText(before) == "" && SpokenCalls(before) == []))
  }

  predicate NoSurplus(ts: seq<Turn>) {
    forall i | 0 <= i < |ts| :: !Surplus(AnsweredIds(ts), ts[..i], ts[i])
  }

  // ----- The direct list -----

  function AsMessage(r: Reply): Message {
    Message(TOOL, Str(ResultText(r.body)), "", [], r.id)
  }

  function AsMessages(rs: seq<Reply>): seq<Message> {
    seq(|rs|, i requires 0 <= i < |rs| => AsMessage(rs[i]))
  }

  lemma {:induction false} RepliesSaid(bs: seq<Block>)
    ensures ToolReplies(bs) == AsMessages(RepliesIn(bs))
  {
    if bs != [] {
      RepliesSaid(Init(bs));
    }
  }

  lemma AsMessagesAppend(a: seq<Reply>, b: seq<Reply>)
    ensures AsMessages(a + b) == AsMessages(a) + AsMessages(b)
  {
  }

  lemma DirectStep(s: SystemPrompt, ts: seq<Turn>)
    requires ts != []
    ensures Direct(s, ts) == Direct(s, Init(ts)) + TurnMessages(Last(ts))
  {
    hide SystemMessages, TurnMessages;
    Associates(SystemMessages(s), TurnsMessages(Init(ts)), TurnMessages(Last(ts)));
  }

  /** The direct list holds the results of the history and its calls. */
  lemma {:induction false} DirectHolds(s: SystemPrompt, ts: seq<Turn>)
    ensures ToolsOf(Direct(s, ts)) == AsMessages(RepliesOf(ts)) && N.CallsIn(Direct(s, ts)) == UsesOf(ts)
  {
    if ts == [] {
      assert Direct(s, ts) == SystemMessages(s);
      SystemHolds(s);
    } else {
      var before, t := Init(ts), Last(ts);
      var own := if t.content.BlocksTurn? && t.role != ASSISTANT then RepliesIn(t.content.blocks) else [];
      assert RepliesOf(ts) == RepliesOf(before) + own;
      hide Direct, TurnMessages, ToolUses, ToolsOf, N.CallsIn, SystemMessages, AsMessages, RepliesOf;
      DirectStep(s, ts);
      DirectHolds(s, before);
      TurnHolds(t);
      ToolsAppend(Direct(s, before), TurnMessages(t));
      N.OthersAppend(Direct(s, before), TurnMessages(t));
      AsMessagesAppend(RepliesOf(before), own);
      assert AsMessages([]) == [] by { NoMessages(); }
    }
  }

  lemma NoMessages()
    ensures AsMessages([]) == []
  {
  }

  lemma SystemHolds(s: SystemPrompt)
    ensures ToolsOf(SystemMessages(s)) == [] && N.CallsIn(SystemMessages(s)) == []
  {
    hide Join, SystemTexts;
    assert SYSTEM[0] != TOOL[0];
    var ms := SystemMessages(s);
    if ms != [] {
      OneTool(ms[0]);
      N.SingleOthers(ms[0]);
    } else {
      assert ToolsOf([]) == [] && N.CallsIn([]) == [];
    }
  }

  lemma TurnHolds(t: Turn)
    ensures var blocks := t.content.BlocksTurn?;
            && ToolsOf(TurnMessages(t))
               == (if blocks && t.role != ASSISTANT then AsMessages(RepliesIn(t.content.blocks)) else [])
            && N.CallsIn(TurnMessages(t)) == if blocks && t.role == ASSISTANT then ToolUses(t.content.blocks) else []
  {
    assert ASSISTANT[0] != TOOL[0] && USER[0] != TOOL[0];
    assert ToolsOf([]) == [] && N.CallsIn([]) == [];
    hide ToolsOf, N.CallsIn, ToolReplies, UserMessage, JoinedText, ToolUses;
    match t.content
    case StringTurn(text) =>
      var m := Plain(if t.role == ASSISTANT then ASSISTANT else USER, text);
      OneTool(m);
      N.SingleOthers(m);
    case BlocksTurn(bs) =>
      if t.role == ASSISTANT {
        OneTool(AssistantMessage(bs));
        N.SingleOthers(AssistantMessage(bs));
      } else {
        UserHolds(bs);
      }
    case MalformedTurn =>
  }

  lemma UserHolds(bs: seq<Block>)
    ensures ToolsOf(ToolReplies(bs) + UserMessage(bs)) == AsMessages(RepliesIn(bs))
    ensures N.CallsIn(ToolReplies(bs) + UserMessage(bs)) == []
  {
    RepliesSaid(bs);
    UserIsNoTool(bs);
    ToolsAppend(ToolReplies(bs), UserMessage(bs));
    N.OthersAppend(ToolReplies(bs), UserMessage(bs));
    OnlyToolMessages(AsMessages(RepliesIn(bs)));
    NoUserCalls(bs);
  }

  lemma {:induction false} OnlyToolMessages(ms: seq<Message>)
    requires forall i | 0 <= i < |ms| :: ms[i].role == TOOL
    ensures ToolsOf(ms) == ms && N.CallsIn(ms) == []
  {
    if ms != [] {
      var before := Init(ms);
      assert ms == before + [Last(ms)] && forall i | 0 <= i < |before| :: before[i] == ms[i];
      OnlyToolMessages(before);
      assert N.CallsIn(before) + [] == N.CallsIn(before);
    }
  }

  lemma NoUserCalls(bs: seq<Block>)
    ensures N.CallsIn(UserMessage(bs)) == []
  {
    assert N.CallsIn([]) == [];
    hide N.CallsIn, OwnParts, JoinedText, HasImage;
    if UserMessage(bs) != [] {
      N.SingleOthers(UserMessage(bs)[0]);
      assert UserMessage(bs) == [UserMessage(bs)[0]];
    }
  }

  // ----- Replies -----

  lemma {:induction false} LatestReply(rs: seq<Reply>, i: nat)
    requires i < |rs| && IsLatest(rs, i)
    ensures N.LastReply(AsMessages(rs), rs[i].id) == Some(AsMessage(rs[i]))
  {
    var ms := AsMessages(rs);
    assert Init(ms) == AsMessages(Init(rs)) && Last(ms) == AsMessage(Last(rs));
    if i < |rs| - 1 {
      assert rs[|rs| - 1].id != rs[i].id;
      forall j | i < j < |rs| - 1 ensures Init(rs)[j].id != rs[i].id {
        assert rs[j].id != rs[i].id;
      }
      LatestReply(Init(rs), i);
    }
  }

  lemma {:induction false} ReplyFrom(rs: seq<Reply>, id: string) returns (i: nat)
    requires N.LastReply(AsMessages(rs), id).Some?
    ensures i < |rs| && rs[i].id == id && IsLatest(rs, i)
  {
    var ms := AsMessages(rs);
    if rs == [] {
      assert false;
    } else {
      assert Init(ms) == AsMessages(Init(rs)) && Last(ms) == AsMessage(Last(rs));
      if Last(rs).id == id {
        i := |rs| - 1;
      } else {
        i := ReplyFrom(Init(rs), id);
        forall j | i < j < |rs| ensures rs[j].id != rs[i].id {
          if j < |rs| - 1 {
            assert Init(rs)[j].id != Init(rs)[i].id;
          }
        }
      }
    }
  }

  /** A reply is found for an id exactly when the history has a result for it. */
  lemma RepliedIds(s: SystemPrompt, ts: seq<Turn>, id: string)
    requires id != ""
    ensures N.LastReply(Direct(s, ts), id).Some? <==> id in AnsweredIds(ts)
  {
    hide Direct, RepliesOf, ToolsOf;
    var rs := RepliesOf(ts);
    DirectHolds(s, ts);
    LastReplyOfTools(Direct(s, ts), id);
    if N.LastReply(Direct(s, ts), id).Some? {
      var i := ReplyFrom(rs, id);
      assert rs[i].id in AnsweredIds(ts);
    }
    forall i | 0 <= i < |rs| && rs[i].id == id ensures N.LastReply(AsMessages(rs), id).Some? {
      assert AsMessages(rs)[i] in AsMessages(rs);
    }
  }

  lemma AnsweredAre(s: SystemPrompt, ts: seq<Turn>, calls: seq<ToolCall>)
    ensures N.Answered(Direct(s, ts), calls) != [] <==> SomeAnswered(AnsweredIds(ts), calls)
  {
    hide Direct, RepliesOf, N.LastReply, N.Answered;
    N.AnsweredNone(Direct(s, ts), calls);
    forall i | 0 <= i < |calls| ensures N.IsAnswered(Direct(s, ts), calls[i]) <==> calls[i].id in AnsweredIds(ts) {
      if calls[i].id != "" {
        RepliedIds(s, ts, calls[i].id);
      }
    }
  }

  // ----- Turns that send a message more -----

  /** The assistant message at the end of the list, if there is one, says and calls
      what the turns say. */
  ghost predicate EndTells(ms: seq<Message>, ts: seq<Turn>) {
    && EndsWithAssistant(ms) == AssistantSpokeLast(ts)
    && (EndsWithAssistant(ms) ==> Last(ms).calls == SpokenCalls(ts) && ContentText(Last(ms).content) == SpokenText(ts))
  }

  lemma TurnEnd(ms: seq<Message>, ts: seq<Turn>)
    requires ts != [] && EndTells(ms, Init(ts))
    ensures EndTells(MergedTurn(ms, Last(ts)), ts)
  {
    hide ToolUses, JoinedText, ToolReplies, UserMessage;
    assert ASSISTANT[0] != USER[0];
    var t := Last(ts);
    match t.content
    case StringTurn(text) => InitOfSnoc(ms, Plain(if t.role == ASSISTANT then ASSISTANT else USER, text));
    case MalformedTurn => assert ms + [] == ms;
    case BlocksTurn(bs) =>
      if t.role != ASSISTANT {
        UserEnd(ms, bs);
      } else if JoinedText(bs) != "" {
        InitOfSnoc(ms, AssistantMessage(bs));
      } else {
        JoinedEnd(ms, ToolUses(bs));
        hide WithCalls;
      }
  }

  /** The assistant message at the end of the merged list. */
  lemma {:induction false} MergedEnd(s: SystemPrompt, ts: seq<Turn>)
    ensures EndTells(Merged(s, ts), ts)
  {
    if ts == [] {
      hide Join, SystemTexts;
      assert ASSISTANT[0] != SYSTEM[0];
    } else {
      hide Merged, MergedTurn, EndTells;
      MergedEnd(s, Init(ts));
      MergedSnoc(s, ts);
      TurnEnd(Merged(s, Init(ts)), ts);
    }
  }

  lemma MergedSnoc(s: SystemPrompt, ts: seq<Turn>)
    requires ts != []
    ensures Merged(s, ts) == MergedTurn(Merged(s, Init(ts)), Last(ts))
  {
  }

  lemma UserEnd(ms: seq<Message>, bs: seq<Block>)
    ensures var more := ToolReplies(bs) + UserMessage(bs);
            && EndsWithAssistant(ms + more) == (more == [] && EndsWithAssistant(ms))
            && (more == [] ==> ms + more == ms)
  {
    hide ToolReplies, UserMessage;
    NoAssistantLast(bs);
    var more := ToolReplies(bs) + UserMessage(bs);
    if more != [] {
      assert Last(ms + more) == Last(more);
    }
  }

  lemma JoinedEnd(ms: seq<Message>, calls: seq<ToolCall>)
    ensures var after := WithCalls(ms, calls);
            && EndsWithAssistant(after) == (calls != [] || EndsWithAssistant(ms))
            && (EndsWithAssistant(after) ==>
                  Last(after).calls == (if EndsWithAssistant(ms) then Last(ms).calls else []) + calls &&
                  ContentText(Last(after).content) == if EndsWithAssistant(ms) then ContentText(Last(ms).content) else "")
  {
    if calls != [] {
      if EndsWithAssistant(ms) {
        InitOfSnoc(Init(ms), Last(ms).(calls := Last(ms).calls + calls));
      } else {
        InitOfSnoc(ms, Lone(calls));
        assert [] + calls == calls;
      }
    } else if EndsWithAssistant(ms) {
      assert Last(ms).calls + [] == Last(ms).calls;
    }
  }

  lemma ShownWhen(all: seq<Message>, m: Message)
    requires m.role == ASSISTANT
    ensures Shown(all, m) <==> m.calls == [] || N.Answered(all, m.calls) != [] || ContentText(m.content) != ""
  {
    assert ASSISTANT[0] != TOOL[0];
    if Calling(m) {
      CallingRebuilt(all, m);
    }
  }

  lemma ExtraIsSurplus(s: SystemPrompt, all: seq<Turn>, before: seq<Turn>, t: Turn)
    ensures Extra(Direct(s, all), Merged(s, before), t) <==> Surplus(AnsweredIds(all), before, t)
  {
    hide Direct, Merged, AnsweredIds, JoinedText, ToolUses, AssistantSpokeLast, SpokenText, SpokenCalls, N.Answered, SomeAnswered, Shown;
    MergedEnd(s, before);
    if t.content.BlocksTurn? {
      AnsweredAre(s, all, ToolUses(t.content.blocks));
      AnsweredAre(s, all, SpokenCalls(before));
      if EndsWithAssistant(Merged(s, before)) {
        ShownWhen(Direct(s, all), Last(Merged(s, before)));
      }
    }
  }

  lemma {:induction false} NoExcess(s: SystemPrompt, all: seq<Turn>, ts: seq<Turn>)
    ensures Excess(Direct(s, all), s, ts) == 0 <==> forall i | 0 <= i < |ts| :: !Surplus(AnsweredIds(all), ts[..i], ts[i])
  {
    hide Extra, Surplus, Direct, Merged, AnsweredIds;
    if ts != [] {
      NoExcess(s, all, Init(ts));
      var n := |ts| - 1;
      assert ts[..n] == Init(ts) && ts[n] == Last(ts);
      ExtraIsSurplus(s, all, Init(ts), Last(ts));
      forall i | 0 <= i < n ensures Init(ts)[..i] == ts[..i] && Init(ts)[i] == ts[i] {
      }
    }
  }

  // ----- Images that are sent -----

  /** A tool message of the history that is sent: it answers no call in particular, or
      is the reply to a call of `ms`. */
  ghost predicate Survives(all: seq<Message>, ms: seq<Message>, m: Message) {
    (m in ms && m.role == TOOL && m.callId == "") || RepliesCall(all, N.CallsIn(ms), m)
  }

  ghost predicate RepliesCall(all: seq<Message>, calls: seq<ToolCall>, m: Message) {
    exists i | 0 <= i < |calls| :: calls[i].id != "" && N.LastReply(all, calls[i].id) == Some(m)
  }

  lemma {:induction false} AnsweredHave(all: seq<Message>, calls: seq<ToolCall>, m: Message)
    ensures RepliesCall(all, calls, m) <==> m in N.RepliesTo(all, N.Answered(all, calls))
  {
    hide N.LastReply;
    if calls != [] {
      var before, t := Init(calls), Last(calls);
      AnsweredHave(all, before, m);
      assert calls == before + [t];
      RepliesCallSnoc(all, before, t, m);
      hide RepliesCall;
      var kept := N.Answered(all, before);
      if N.IsAnswered(all, t) {
        InitOfSnoc(kept, t);
        assert N.Answered(all, calls) == kept + [t];
        assert N.RepliesTo(all, kept + [t]) == N.RepliesTo(all, kept) + [N.LastReply(all, t.id).value];
      } else {
        assert N.Answered(all, calls) == kept + [] == kept;
      }
    }
  }

  lemma RepliesCallSnoc(all: seq<Message>, before: seq<ToolCall>, t: ToolCall, m: Message)
    ensures RepliesCall(all, before + [t], m)
            <==> RepliesCall(all, before, m) || (t.id != "" && N.LastReply(all, t.id) == Some(m))
  {
    hide N.LastReply;
    var calls := before + [t];
    assert calls[|before|] == t;
    if RepliesCall(all, before, m) {
      var i :| 0 <= i < |before| && before[i].id != "" && N.LastReply(all, before[i].id) == Some(m);
      assert calls[i] == before[i];
    }
  }

  /** The tool messages that one message leaves. */
  lemma RebuiltHas(all: seq<Message>, x: Message, m: Message)
    requires m.role == TOOL
    ensures m in N.Rebuilt(all, x, map[]) <==> (m == x && m.callId == "") || (x.role != TOOL && RepliesCall(all, x.calls, m))
  {
    AnsweredHave(all, x.calls, m);
    N.NoMedia(N.Answered(all, x.calls));
    assert N.RepliesTo(all, []) == [];
    assert x.calls == [] ==> N.Answered(all, x.calls) == [];
    hide N.Answered, N.RepliesTo, RepliesCall, N.LastReply;
  }

  lemma RepliesCallAppend(all: seq<Message>, a: seq<ToolCall>, b: seq<ToolCall>, m: Message)
    ensures RepliesCall(all, a + b, m) <==> RepliesCall(all, a, m) || RepliesCall(all, b, m)
  {
    hide N.LastReply;
    var c := a + b;
    forall i | 0 <= i < |a| ensures c[i] == a[i] {
    }
    forall i | 0 <= i < |b| ensures c[|a| + i] == b[i] {
    }
  }

  lemma SurvivesSnoc(all: seq<Message>, before: seq<Message>, x: Message, m: Message)
    requires m.role == TOOL
    ensures Survives(all, before + [x], m)
            <==> Survives(all, before, m) || (m == x && m.callId == "") || (x.role != TOOL && RepliesCall(all, x.calls, m))
  {
    hide RepliesCall;
    InitOfSnoc(before, x);
    RepliesCallAppend(all, N.CallsIn(before), if x.role == TOOL then [] else x.calls, m);
    NoneReplied(all, m);
  }

  lemma {:induction false} SentHas(all: seq<Message>, ms: seq<Message>, m: Message)
    requires m.role == TOOL
    ensures m in N.RebuiltAll(all, ms, map[]) <==> Survives(all, ms, m)
  {
    NoneReplied(all, m);
    if ms == [] {
      assert N.CallsIn([]) == [];
    } else {
      var before, x := Init(ms), Last(ms);
      assert ms == before + [x];
      assert N.RebuiltAll(all, ms, map[]) == N.RebuiltAll(all, before, map[]) + N.Rebuilt(all, x, map[]);
      hide N.Rebuilt, N.RebuiltAll, RepliesCall, Survives;
      SentHas(all, before, m);
      RebuiltHas(all, x, m);
      SurvivesSnoc(all, before, x, m);
    }
  }

  lemma NoneReplied(all: seq<Message>, m: Message)
    ensures !RepliesCall(all, [], m)
  {
  }

  /** A result that is sent, and the message it is sent as. */
  predicate IsSent(ts: seq<Turn>, i: nat)
    requires i < |RepliesOf(ts)|
  {
    RepliesOf(ts)[i].id == "" || (IsLatest(RepliesOf(ts), i) && Uses(ts, RepliesOf(ts)[i].id))
  }

  lemma {:induction false} ToolsAre(ms: seq<Message>, m: Message)
    ensures m in ToolsOf(ms) <==> m in ms && m.role == TOOL
  {
    if ms != [] {
      ToolsAre(Init(ms), m);
      assert ms == Init(ms) + [Last(ms)];
    }
  }

  lemma SentResult(s: SystemPrompt, ts: seq<Turn>, i: nat)
    requires i < |RepliesOf(ts)| && IsSent(ts, i)
    ensures AsMessage(RepliesOf(ts)[i]) in DirectSent(s, ts)
  {
    var all, rs := Direct(s, ts), RepliesOf(ts);
    var m := AsMessage(rs[i]);
    hide Direct, RepliesOf, UsesOf, N.LastReply, ToolsOf, N.CallsIn, N.RebuiltAll;
    DirectHolds(s, ts);
    SentHas(all, all, m);
    if rs[i].id == "" {
      assert AsMessages(rs)[i] == m;
      ToolsAre(all, m);
    } else {
      LatestReply(rs, i);
      LastReplyOfTools(all, rs[i].id);
      var j :| 0 <= j < |UsesOf(ts)| && UsesOf(ts)[j].id == rs[i].id;
      assert RepliesCall(all, N.CallsIn(all), m);
    }
  }

  lemma ResultSent(s: SystemPrompt, ts: seq<Turn>, m: Message) returns (i: nat)
    requires m in DirectSent(s, ts) && m.role == TOOL
    ensures i < |RepliesOf(ts)| && IsSent(ts, i) && m == AsMessage(RepliesOf(ts)[i])
  {
    var all, rs := Direct(s, ts), RepliesOf(ts);
    hide Direct, RepliesOf, UsesOf, N.LastReply, ToolsOf, N.CallsIn, N.RebuiltAll;
    DirectHolds(s, ts);
    SentHas(all, all, m);
    if m in all && m.callId == "" {
      ToolsAre(all, m);
      i :| 0 <= i < |rs| && AsMessages(rs)[i] == m;
    } else {
      assert RepliesCall(all, UsesOf(ts), m);
      var j :| 0 <= j < |UsesOf(ts)| && UsesOf(ts)[j].id != "" && N.LastReply(all, UsesOf(ts)[j].id) == Some(m);
      var id := UsesOf(ts)[j].id;
      LastReplyOfTools(all, id);
      i := ReplyFrom(rs, id);
      LatestReply(rs, i);
    }
  }

  /** No tool message that is sent holds an image exactly when no result of the turns
      does that is sent. */
  lemma ImagesAre(w: Wire, s: SystemPrompt, ts: seq<Turn>)
    ensures ToolsMediaFree(w, DirectSent(s, ts)) <==> ImageFree(w, ts)
  {
    hide DirectSent, RepliesOf, M.Extracted, UsesOf;
    var sent, rs := DirectSent(s, ts), RepliesOf(ts);
    if ToolsMediaFree(w, sent) {
      forall i | 0 <= i < |rs| && IsSent(ts, i) ensures !HoldsImage(w, rs[i]) {
        SentResult(s, ts, i);
        var n :| 0 <= n < |sent| && sent[n] == AsMessage(rs[i]);
        assert !HasMedia(w, sent[n]);
      }
    }
    if ImageFree(w, ts) {
      forall n | 0 <= n < |sent| && sent[n].role == TOOL ensures !HasMedia(w, sent[n]) {
        assert sent[n] in sent;
        var i := ResultSent(s, ts, sent[n]);
        assert !HoldsImage(w, rs[i]);
      }
    }
  }

  /** Both translations send the same messages exactly when no turn of the history is
      surplus and no tool result that is sent holds an image. */
  lemma MessagesAgreeExactly(w: Wire, s: SystemPrompt, ts: seq<Turn>)
    requires M.Codec(w.decode, w.encode) && !Malformed(s, ts)
    ensures ComposedSent(w, s, ts) == DirectSent(s, ts) <==> NoSurplus(ts) && ImageFree(w, ts)
  {
    hide M.Codec, Direct, Malformed, ToolsMediaFree, Excess, ComposedSent, DirectSent, Surplus, AnsweredIds, ImageFree;
    SentAlike(w, s, ts);
    NoExcess(s, ts, ts);
    ImagesAre(w, s, ts);
  }
}
