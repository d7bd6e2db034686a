/** When the direct and the composed translation of an Anthropic history send the
    same messages, exactly. */
module RequestEquality {
  import opened Common
  import opened ChatChunks
  import opened ChatMessages
  import opened ResponsesInput
  import opened RequestTranslation
  import N = Normalize
  import M = ToolOutputMedia

  // ----- The composed list, before outputs are searched for images -----

  /** The messages after one more turn: calls without text join the assistant
      message at the end, and a turn without either adds nothing. */
  function MergedTurn(ms: seq<Message>, t: Turn): seq<Message> {
    if t.content.BlocksTurn? && t.role == ASSISTANT && JoinedText(t.content.blocks) == "" then
      WithCalls(ms, ToolUses(t.content.blocks))
    else ms + TurnMessages(t)
  }

  function Merged(s: SystemPrompt, ts: seq<Turn>): seq<Message> {
    if ts == [] then SystemMessages(s) else MergedTurn(Merged(s, Init(ts)), Last(ts))
  }

  lemma AllSentWithCalls(w: Wire, ms: seq<Message>, calls: seq<ToolCall>)
    ensures AllSent(w, WithCalls(ms, calls)) == WithCalls(AllSent(w, ms), calls)
  {
    hide Sent;
    assert ASSISTANT[0] != TOOL[0];
    if calls != [] && ms != [] {
      assert Last(AllSent(w, ms)) == AsSent(w, Last(ms));
      assert Init(AllSent(w, ms)) == AllSent(w, Init(ms));
    }
  }

  lemma NotSentTwice(w: Wire, m: Message)
    requires m.role != TOOL
    ensures AsSent(w, m) == m && AllSent(w, [m]) == [m]
  {
  }

  lemma MergedTurnBuilt(w: Wire, b: Built, ms: seq<Message>, t: Turn)
    requires b.pending == "" && b.messages == AllSent(w, ms) && !t.content.MalformedTurn?
    ensures var a := AfterItems(w, b, TurnItems(t)); a.pending == "" && a.messages == AllSent(w, MergedTurn(ms, t))
  {
    match t.content
    case StringTurn(text) =>
      StringTurnBuilt(w, b, t, text);
      AllSentAppend(w, ms, TurnMessages(t));
    case BlocksTurn(bs) =>
      if t.role == ASSISTANT {
        AssistantBuilt(w, b, bs);
        assert ASSISTANT[0] != TOOL[0];
        NotSentTwice(w, AssistantMessage(bs));
        AllSentAppend(w, ms, [AssistantMessage(bs)]);
        AllSentWithCalls(w, ms, ToolUses(bs));
      } else {
        UserBuilt(w, b, bs);
        AllSentAppend(w, ms, ToolReplies(bs) + UserMessage(bs));
      }
  }

  /** The composed list is the merged one with tool outputs as they are sent. */
  lemma {:induction false} MergedBuilt(w: Wire, s: SystemPrompt, ts: seq<Turn>)
    requires !Malformed(s, ts)
    ensures Composed(w, s, ts).pending == "" && Composed(w, s, ts).messages == AllSent(w, Merged(s, ts))
  {
    if ts == [] {
      assert InputItems(s, ts) == SystemItems(s);
      hide AfterItems, SystemItems, SystemMessages;
      SystemBuilt(w, s);
    } else {
      var before, t := Init(ts), Last(ts);
      assert !Malformed(s, before) && !t.content.MalformedTurn?;
      assert before + [t] == ts;
      hide Composed, AfterItems, AllSent, MergedTurn, TurnItems, Malformed;
      MergedBuilt(w, s, before);
      ComposedSnoc(w, s, before, t);
      MergedTurnBuilt(w, Composed(w, s, before), Merged(s, before), t);
    }
  }

  // ----- Tool messages -----

  function ToolsOf(ms: seq<Message>): seq<Message> {
    if ms == [] then [] else ToolsOf(Init(ms)) + (if Last(ms).role == TOOL then [Last(ms)] else [])
  }

  lemma {:induction false} ToolsAppend(a: seq<Message>, b: seq<Message>)
    ensures ToolsOf(a + b) == ToolsOf(a) + ToolsOf(b)
  {
    if b == [] {
      assert a + b == a;
    } else {
      assert Init(a + b) == a + Init(b);
      ToolsAppend(a, Init(b));
    }
  }

  lemma OneTool(m: Message)
    ensures ToolsOf([m]) == if m.role == TOOL then [m] else []
  {
    assert Init([m]) == [] && Last([m]) == m;
    assert ToolsOf([]) == [];
  }

  lemma {:induction false} LastReplyOfTools(ms: seq<Message>, id: string)
    ensures N.LastReply(ms, id) == N.LastReply(ToolsOf(ms), id)
  {
    if ms != [] {
      LastReplyOfTools(Init(ms), id);
      if Last(ms).role == TOOL {
        InitOfSnoc(ToolsOf(Init(ms)), Last(ms));
      } else {
        assert ToolsOf(Init(ms)) + [] == ToolsOf(Init(ms));
      }
    }
  }

  lemma {:induction false} LastReplySent(w: Wire, ms: seq<Message>, id: string)
    ensures var r := N.LastReply(ms, id);
            N.LastReply(AllSent(w, ms), id) == if r.Some? then Some(AsSent(w, r.value)) else None
  {
    hide Sent;
    if ms != [] {
      LastReplySent(w, Init(ms), id);
      assert Init(AllSent(w, ms)) == AllSent(w, Init(ms));
      assert Last(AllSent(w, ms)) == AsSent(w, Last(ms));
    }
  }

  lemma WithCallsTools(ms: seq<Message>, calls: seq<ToolCall>)
    ensures ToolsOf(WithCalls(ms, calls)) == ToolsOf(ms)
  {
    assert ASSISTANT[0] != TOOL[0];
    if calls != [] {
      if EndsWithAssistant(ms) {
        InitOfSnoc(Init(ms), Last(ms).(calls := Last(ms).calls + calls));
      } else {
        InitOfSnoc(ms, Message(ASSISTANT, Absent, "", calls, ""));
      }
    }
  }

  /** Both lists hold the same tool messages, in order. */
  lemma {:induction false} SameTools(s: SystemPrompt, ts: seq<Turn>)
    ensures ToolsOf(Merged(s, ts)) == ToolsOf(Direct(s, ts))
  {
    if ts == [] {
      assert Direct(s, ts) == SystemMessages(s);
    } else {
      var before, t := Init(ts), Last(ts);
      assert before + [t] == ts;
      assert Direct(s, ts) == Direct(s, before) + TurnMessages(t);
      hide Direct, TurnMessages, WithCalls, JoinedText, ToolUses;
      SameTools(s, before);
      ToolsAppend(Direct(s, before), TurnMessages(t));
      ToolsAppend(Merged(s, before), TurnMessages(t));
      if t.content.BlocksTurn? && t.role == ASSISTANT && JoinedText(t.content.blocks) == "" {
        WithCallsTools(Merged(s, before), ToolUses(t.content.blocks));
        AssistantIsNoTool(t);
      }
    }
  }

  lemma AssistantIsNoTool(t: Turn)
    requires t.content.BlocksTurn? && t.role == ASSISTANT
    ensures ToolsOf(TurnMessages(t)) == []
  {
    assert ASSISTANT[0] != TOOL[0];
    OneTool(AssistantMessage(t.content.blocks));
  }

  ghost predicate SameReplies(a: seq<Message>, b: seq<Message>) {
    forall id :: N.LastReply(a, id) == N.LastReply(b, id)
  }

  lemma MergedReplies(s: SystemPrompt, ts: seq<Turn>)
    ensures SameReplies(Merged(s, ts), Direct(s, ts))
  {
    hide Merged, Direct;
    SameTools(s, ts);
    forall id ensures N.LastReply(Merged(s, ts), id) == N.LastReply(Direct(s, ts), id) {
      LastReplyOfTools(Merged(s, ts), id);
      LastReplyOfTools(Direct(s, ts), id);
    }
  }

  // ----- Rebuilding, under another history with the same replies -----

  lemma {:induction false} AnsweredAlike(a: seq<Message>, b: seq<Message>, ts: seq<ToolCall>)
    requires forall id :: N.LastReply(a, id).Some? <==> N.LastReply(b, id).Some?
    ensures N.Answered(a, ts) == N.Answered(b, ts)
  {
    hide N.LastReply;
    if ts != [] {
      AnsweredAlike(a, b, Init(ts));
    }
  }

  lemma RepliesAlike(a: seq<Message>, b: seq<Message>, ts: seq<ToolCall>)
    requires SameReplies(a, b) && N.EachAnswered(a, ts) && N.EachAnswered(b, ts)
    ensures N.RepliesTo(a, ts) == N.RepliesTo(b, ts)
  {
    hide N.LastReply, N.RepliesTo, N.EachAnswered;
    var x, y := N.RepliesTo(a, ts), N.RepliesTo(b, ts);
    forall i | 0 <= i < |ts| ensures x[i] == y[i] {
      assert Some(x[i]) == N.LastReply(a, ts[i].id);
    }
  }

  lemma RebuiltAlike(a: seq<Message>, b: seq<Message>, m: Message, media: N.Media)
    requires SameReplies(a, b)
    ensures N.Rebuilt(a, m, media) == N.Rebuilt(b, m, media)
  {
    hide N.LastReply, N.Answered, N.RepliesTo, N.MediaMessage, N.EachAnswered;
    AnsweredAlike(a, b, m.calls);
    RepliesAlike(a, b, N.Answered(a, m.calls));
  }

  lemma {:induction false} RebuiltAllAlike(a: seq<Message>, b: seq<Message>, ms: seq<Message>, media: N.Media)
    requires SameReplies(a, b)
    ensures N.RebuiltAll(a, ms, media) == N.RebuiltAll(b, ms, media)
  {
    hide N.Rebuilt, SameReplies;
    if ms != [] {
      RebuiltAllAlike(a, b, Init(ms), media);
      RebuiltAlike(a, b, Last(ms), media);
    }
  }

  // ----- Outputs as they are sent -----

  lemma RepliesSentAlike(w: Wire, all: seq<Message>, ts: seq<ToolCall>)
    requires N.EachAnswered(all, ts) && N.EachAnswered(AllSent(w, all), ts)
    ensures N.RepliesTo(AllSent(w, all), ts) == AllSent(w, N.RepliesTo(all, ts))
  {
    hide N.LastReply, N.RepliesTo, N.EachAnswered, AllSent, AsSent;
    var x, y := N.RepliesTo(all, ts), N.RepliesTo(AllSent(w, all), ts);
    forall i | 0 <= i < |ts| ensures y[i] == AsSent(w, x[i]) {
      LastReplySent(w, all, ts[i].id);
      assert Some(x[i]) == N.LastReply(all, ts[i].id);
    }
  }

  lemma RebuiltSent(w: Wire, all: seq<Message>, m: Message)
    ensures N.Rebuilt(AllSent(w, all), AsSent(w, m), map[]) == AllSent(w, N.Rebuilt(all, m, map[]))
  {
    forall id ensures N.LastReply(AllSent(w, all), id).Some? <==> N.LastReply(all, id).Some? {
      LastReplySent(w, all, id);
    }
    var kept := N.Answered(all, m.calls);
    AnsweredAlike(all, AllSent(w, all), m.calls);
    hide N.LastReply, N.Answered, N.RepliesTo, N.EachAnswered, Sent, AllSent, N.MediaParts;
    AllSentOne(w, m);
    AllSentOne(w, m.(calls := []));
    AllSentOne(w, m.(calls := kept));
    AllSentNone(w);
    if Calling(m) && kept != [] {
      N.NoMedia(kept);
      RepliesSentAlike(w, all, kept);
      AllSentAppend(w, [m.(calls := kept)], N.RepliesTo(all, kept));
      assert N.Rebuilt(all, m, map[]) == [m.(calls := kept)] + N.RepliesTo(all, kept);
    }
  }

  lemma AllSentOne(w: Wire, m: Message)
    ensures AllSent(w, [m]) == [AsSent(w, m)]
  {
  }

  lemma AllSentNone(w: Wire)
    ensures AllSent(w, []) == []
  {
  }

  lemma {:induction false} RebuiltAllSent(w: Wire, all: seq<Message>, ms: seq<Message>)
    ensures N.RebuiltAll(AllSent(w, all), AllSent(w, ms), map[]) == AllSent(w, N.RebuiltAll(all, ms, map[]))
  {
    if ms == [] {
      AllSentNone(w);
    } else {
      assert Init(AllSent(w, ms)) == AllSent(w, Init(ms)) && Last(AllSent(w, ms)) == AsSent(w, Last(ms));
      hide N.Rebuilt, AllSent, AsSent;
      RebuiltAllSent(w, all, Init(ms));
      RebuiltSent(w, all, Last(ms));
      AllSentAppend(w, N.RebuiltAll(all, Init(ms), map[]), N.Rebuilt(all, Last(ms), map[]));
    }
  }

  // ----- Media -----

  /** What the media map holds was found in the last output of its call. */
  ghost predicate MediaFits(w: Wire, media: N.Media, ms: seq<Message>) {
    forall id | id in media :: MediaAt(w, ms, id)
  }

  predicate MediaAt(w: Wire, ms: seq<Message>, id: string) {
    var r := N.LastReply(ms, id);
    r.Some? && HasMedia(w, r.value)
  }

  predicate HasMedia(w: Wire, m: Message) {
    m.content.Str? && M.Extracted(w.decode, w.encode, Some(M.Str(m.content.text))).Some?
  }

  lemma OutputMedia(w: Wire, b: Built, ms: seq<Message>, id: string, text: string)
    requires MediaFits(w, b.media, ms)
    ensures MediaFits(w, AfterItem(w, b, CallOutput(id, Some(M.Str(text)), "")).media,
                      ms + [Message(TOOL, Str(text), "", [], id)])
  {
    hide M.Extracted;
    var m := Message(TOOL, Str(text), "", [], id);
    InitOfSnoc(ms, m);
    var after := AfterItem(w, b, CallOutput(id, Some(M.Str(text)), "")).media;
    forall k | k in after ensures MediaAt(w, ms + [m], k) {
      if k != id {
        assert MediaAt(w, ms, k);
      }
    }
  }

  lemma OtherMedia(w: Wire, media: N.Media, ms: seq<Message>, more: seq<Message>)
    requires MediaFits(w, media, ms) && ToolsOf(more) == []
    ensures MediaFits(w, media, ms + more)
  {
    hide HasMedia, N.LastReply, ToolsOf;
    ToolsAppend(ms, more);
    assert ToolsOf(ms) + [] == ToolsOf(ms);
    forall id | id in media ensures MediaAt(w, ms + more, id) {
      LastReplyOfTools(ms, id);
      LastReplyOfTools(ms + more, id);
      assert MediaAt(w, ms, id);
    }
  }

  lemma {:induction false} OutputsMedia(w: Wire, b: Built, ms: seq<Message>, bs: seq<Block>)
    requires MediaFits(w, b.media, ms)
    ensures MediaFits(w, AfterItems(w, b, OutputItems(bs)).media, ms + ToolReplies(bs))
  {
    hide MediaFits, AfterItem, M.Extracted;
    if bs == [] {
      assert ms + [] == ms;
    } else {
      OutputsMedia(w, b, ms, Init(bs));
      if Last(bs).ToolResult? {
        var text := ResultText(Last(bs).body);
        ItemsSnoc(w, b, OutputItems(Init(bs)), CallOutput(Last(bs).id, Some(M.Str(text)), ""));
        OutputMedia(w, AfterItems(w, b, OutputItems(Init(bs))), ms + ToolReplies(Init(bs)), Last(bs).id, text);
        Associates(ms, ToolReplies(Init(bs)), [Message(TOOL, Str(text), "", [], Last(bs).id)]);
      } else {
        assert OutputItems(Init(bs)) + [] == OutputItems(Init(bs));
        assert ToolReplies(Init(bs)) + [] == ToolReplies(Init(bs));
      }
    }
  }

  lemma UserIsNoTool(bs: seq<Block>)
    ensures ToolsOf(UserMessage(bs)) == []
  {
    hide OwnParts, JoinedText, HasImage;
    assert USER[0] != TOOL[0];
    if UserMessage(bs) != [] {
      OneTool(UserMessage(bs)[0]);
      assert UserMessage(bs) == [UserMessage(bs)[0]];
    }
  }

  lemma UserMedia(w: Wire, b: Built, ms: seq<Message>, bs: seq<Block>)
    requires b.pending == "" && MediaFits(w, b.media, ms)
    ensures MediaFits(w, AfterItems(w, b, UserItems(bs)).media, ms + (ToolReplies(bs) + UserMessage(bs)))
  {
    hide AfterItem, MediaFits, ContentToChat, AllResultImages, OwnItemParts, ImageItemParts, UserMessage, ToolReplies, OutputItems;
    var parts := OwnItemParts(bs) + ImageItemParts(AllResultImages(bs));
    OutputsBuilt(w, b, bs);
    OutputsMedia(w, b, ms, bs);
    UserIsNoTool(bs);
    OtherMedia(w, AfterItems(w, b, OutputItems(bs)).media, ms + ToolReplies(bs), UserMessage(bs));
    Associates(ms, ToolReplies(bs), UserMessage(bs));
    if parts != [] {
      var i := MessageItem(USER, PartsContent(parts));
      ItemsSnoc(w, b, OutputItems(bs), i);
      MessageBuilt(w, AfterItems(w, b, OutputItems(bs)), USER, parts);
      assert UserItems(bs) == OutputItems(bs) + [i];
    } else {
      assert UserItems(bs) == OutputItems(bs);
    }
  }

  lemma MergedTurnMedia(w: Wire, b: Built, ms: seq<Message>, t: Turn)
    requires b.pending == "" && b.messages == AllSent(w, ms) && !t.content.MalformedTurn? && MediaFits(w, b.media, ms)
    ensures MediaFits(w, AfterItems(w, b, TurnItems(t)).media, MergedTurn(ms, t))
  {
    hide MediaFits;
    match t.content
    case StringTurn(text) =>
      StringTurnBuilt(w, b, t, text);
      assert ASSISTANT[0] != TOOL[0] && USER[0] != TOOL[0];
      OneTool(Plain(if t.role == ASSISTANT then ASSISTANT else USER, text));
      OtherMedia(w, b.media, ms, TurnMessages(t));
    case BlocksTurn(bs) =>
      if t.role == ASSISTANT {
        AssistantBuilt(w, b, bs);
        AssistantIsNoTool(t);
        OtherMedia(w, b.media, ms, [AssistantMessage(bs)]);
        CallsMedia(w, b.media, ms, ToolUses(bs));
      } else {
        UserMedia(w, b, ms, bs);
      }
  }

  lemma CallsMedia(w: Wire, media: N.Media, ms: seq<Message>, calls: seq<ToolCall>)
    requires MediaFits(w, media, ms)
    ensures MediaFits(w, media, WithCalls(ms, calls))
  {
    hide HasMedia, WithCalls, N.LastReply, ToolsOf;
    WithCallsTools(ms, calls);
    forall id | id in media ensures MediaAt(w, WithCalls(ms, calls), id) {
      LastReplyOfTools(ms, id);
      LastReplyOfTools(WithCalls(ms, calls), id);
      assert MediaAt(w, ms, id);
    }
  }

  lemma {:induction false} MergedMedia(w: Wire, s: SystemPrompt, ts: seq<Turn>)
    requires !Malformed(s, ts)
    ensures MediaFits(w, Composed(w, s, ts).media, Merged(s, ts))
  {
    if ts == [] {
      assert InputItems(s, ts) == SystemItems(s);
      hide AfterItems, SystemItems, SystemMessages;
      SystemBuilt(w, s);
    } else {
      var before, t := Init(ts), Last(ts);
      assert !Malformed(s, before) && !t.content.MalformedTurn?;
      assert before + [t] == ts;
      hide Composed, AfterItems, AllSent, MergedTurn, TurnItems, Malformed, MediaFits;
      MergedMedia(w, s, before);
      MergedBuilt(w, s, before);
      ComposedSnoc(w, s, before, t);
      MergedTurnMedia(w, Composed(w, s, before), Merged(s, before), t);
    }
  }

  /** Media nobody asks for is not sent. */
  ghost predicate Unused(media: N.Media, ms: seq<Message>) {
    forall i | 0 <= i < |ms| && IsReply(ms[i]) :: ms[i].callId !in media
  }

  lemma {:induction false} NoneFor(media: N.Media, ts: seq<ToolCall>)
    requires forall i | 0 <= i < |ts| :: ts[i].id !in media
    ensures N.MediaParts(media, ts) == []
  {
    if ts != [] {
      NoneFor(media, Init(ts));
    }
  }

  lemma RebuiltUnused(all: seq<Message>, m: Message, media: N.Media)
    requires Unused(media, N.Rebuilt(all, m, map[]))
    ensures N.Rebuilt(all, m, media) == N.Rebuilt(all, m, map[])
  {
    var kept := N.Answered(all, m.calls);
    if Calling(m) && kept != [] {
      hide N.LastReply, N.Answered, N.RepliesTo, N.MediaParts;
      N.NoMedia(kept);
      N.RepliesAnswer(all, kept);
      var r := N.Rebuilt(all, m, map[]);
      assert r == [m.(calls := kept)] + N.RepliesTo(all, kept);
      forall i | 0 <= i < |kept| ensures kept[i].id !in media {
        assert r[1 + i] == N.RepliesTo(all, kept)[i];
        assert IsReply(r[1 + i]) && r[1 + i].callId == kept[i].id;
      }
      NoneFor(media, kept);
    }
  }

  lemma UnusedParts(media: N.Media, a: seq<Message>, b: seq<Message>)
    requires Unused(media, a + b)
    ensures Unused(media, a) && Unused(media, b)
  {
    forall i | 0 <= i < |a| && IsReply(a[i]) ensures a[i].callId !in media {
      assert a[i] == (a + b)[i];
    }
    forall i | 0 <= i < |b| && IsReply(b[i]) ensures b[i].callId !in media {
      assert b[i] == (a + b)[|a| + i];
    }
  }

  lemma {:induction false} MediaUnused(all: seq<Message>, ms: seq<Message>, media: N.Media)
    requires Unused(media, N.RebuiltAll(all, ms, map[]))
    ensures N.RebuiltAll(all, ms, media) == N.RebuiltAll(all, ms, map[])
  {
    if ms != [] {
      hide N.Rebuilt, Unused;
      UnusedParts(media, N.RebuiltAll(all, Init(ms), map[]), N.Rebuilt(all, Last(ms), map[]));
      MediaUnused(all, Init(ms), media);
      RebuiltUnused(all, Last(ms), media);
    }
  }

  /** Media messages are the user's: the tool messages are the same without them. */
  lemma RebuiltTools(all: seq<Message>, m: Message, media: N.Media)
    ensures ToolsOf(N.Rebuilt(all, m, media)) == ToolsOf(N.Rebuilt(all, m, map[]))
  {
    var kept := N.Answered(all, m.calls);
    hide N.LastReply, N.Answered, N.RepliesTo, N.MediaParts, ToolsOf;
    if Calling(m) && kept != [] {
      N.NoMedia(kept);
      MediaIsNoTool(media, kept);
      var r := [m.(calls := kept)] + N.RepliesTo(all, kept);
      ToolsAppend(r, N.MediaMessage(media, kept));
      assert N.Rebuilt(all, m, map[]) == r;
    }
  }

  lemma MediaIsNoTool(media: N.Media, ts: seq<ToolCall>)
    ensures ToolsOf(N.MediaMessage(media, ts)) == []
  {
    hide N.MediaParts;
    assert USER[0] != TOOL[0];
    if N.MediaMessage(media, ts) != [] {
      OneTool(N.MediaMessage(media, ts)[0]);
    }
  }

  lemma {:induction false} RebuiltAllTools(all: seq<Message>, ms: seq<Message>, media: N.Media)
    ensures ToolsOf(N.RebuiltAll(all, ms, media)) == ToolsOf(N.RebuiltAll(all, ms, map[]))
  {
    if ms != [] {
      hide N.Rebuilt, ToolsOf;
      RebuiltAllTools(all, Init(ms), media);
      RebuiltTools(all, Last(ms), media);
      ToolsAppend(N.RebuiltAll(all, Init(ms), media), N.Rebuilt(all, Last(ms), media));
      ToolsAppend(N.RebuiltAll(all, Init(ms), map[]), N.Rebuilt(all, Last(ms), map[]));
    }
  }

  lemma {:induction false} ToolsSent(w: Wire, ms: seq<Message>)
    ensures ToolsOf(AllSent(w, ms)) == AllSent(w, ToolsOf(ms))
  {
    if ms == [] {
      AllSentNone(w);
    } else {
      assert Init(AllSent(w, ms)) == AllSent(w, Init(ms)) && Last(AllSent(w, ms)) == AsSent(w, Last(ms));
      SameRole(w, Last(ms));
      hide AllSent, AsSent;
      ToolsSent(w, Init(ms));
      AllSentOne(w, Last(ms));
      AllSentAppend(w, ToolsOf(Init(ms)), [Last(ms)]);
      assert ToolsOf(Init(ms)) + [] == ToolsOf(Init(ms));
    }
  }

  // ----- Counting messages -----

  function Rebuild(all: seq<Message>, ms: seq<Message>): seq<Message> {
    N.RebuiltAll(all, ms, map[])
  }

  /** Whether anything is sent for a message. */
  predicate Shown(all: seq<Message>, m: Message) {
    N.Rebuilt(all, m, map[]) != []
  }

  /** A turn for which the direct translation sends one message more than the
      composed one, given the messages the composed one would join it to: a silent
      assistant turn; answered calls that join a message which is sent anyway; or
      unanswered calls that join a blank message and take it along. */
  predicate Extra(all: seq<Message>, ms: seq<Message>, t: Turn) {
    t.content.BlocksTurn? && t.role == ASSISTANT && JoinedText(t.content.blocks) == "" &&
    var calls := ToolUses(t.content.blocks);
    (calls == [] ||
     (EndsWithAssistant(ms) &&
      (if N.Answered(all, calls) != [] then Shown(all, Last(ms))
       else Last(ms).calls == [] && ContentText(Last(ms).content) == "")))
  }

  function Excess(all: seq<Message>, s: SystemPrompt, ts: seq<Turn>): nat {
    if ts == [] then 0
    else Excess(all, s, Init(ts)) + (if Extra(all, Merged(s, Init(ts)), Last(ts)) then 1 else 0)
  }

  lemma RebuildSnoc(all: seq<Message>, ms: seq<Message>, m: Message)
    ensures Rebuild(all, ms + [m]) == Rebuild(all, ms) + N.Rebuilt(all, m, map[])
  {
    hide N.Rebuilt;
    InitOfSnoc(ms, m);
  }

  lemma {:induction false} RepliesAppend(all: seq<Message>, a: seq<ToolCall>, b: seq<ToolCall>)
    requires N.EachAnswered(all, a) && N.EachAnswered(all, b) && N.EachAnswered(all, a + b)
    ensures N.RepliesTo(all, a + b) == N.RepliesTo(all, a) + N.RepliesTo(all, b)
  {
    hide N.LastReply, N.EachAnswered;
    var x, y, z := N.RepliesTo(all, a), N.RepliesTo(all, b), N.RepliesTo(all, a + b);
    forall i | 0 <= i < |a + b| ensures z[i] == (x + y)[i] {
      assert Some(z[i]) == N.LastReply(all, (a + b)[i].id);
      if i < |a| {
        assert Some(x[i]) == N.LastReply(all, a[i].id);
      } else {
        assert Some(y[i - |a|]) == N.LastReply(all, b[i - |a|].id);
      }
    }
  }

  /** What is sent for a message with tool calls. */
  lemma CallingRebuilt(all: seq<Message>, m: Message)
    requires Calling(m)
    ensures var kept := N.Answered(all, m.calls);
            N.Rebuilt(all, m, map[])
            == if kept != [] then [m.(calls := kept)] + N.RepliesTo(all, kept)
               else if ContentText(m.content) == "" then [] else [m.(calls := [])]
  {
    hide N.LastReply, N.Answered, N.RepliesTo, N.MediaParts;
    N.NoMedia(N.Answered(all, m.calls));
    if N.Answered(all, m.calls) != [] {
      assert N.RepliesTo(all, N.Answered(all, m.calls)) + [] == N.RepliesTo(all, N.Answered(all, m.calls));
    }
  }

  /** Calls on a message of their own. */
  lemma LoneCalls(all: seq<Message>, calls: seq<ToolCall>)
    requires calls != []
    ensures var m := Message(ASSISTANT, Absent, "", calls, "");
            var kept := N.Answered(all, calls);
            Calling(m) && N.Rebuilt(all, m, map[]) == if kept != [] then [m.(calls := kept)] + N.RepliesTo(all, kept) else []
  {
    assert ASSISTANT[0] != TOOL[0];
    CallingRebuilt(all, Message(ASSISTANT, Absent, "", calls, ""));
  }

  /** A message that nothing is sent for has only calls, and none was answered. */
  lemma HiddenMessage(all: seq<Message>, m: Message)
    requires m.role == ASSISTANT && !Shown(all, m)
    ensures Calling(m) && N.Answered(all, m.calls) == [] && ContentText(m.content) == ""
  {
    assert ASSISTANT[0] != TOOL[0];
    if Calling(m) {
      CallingRebuilt(all, m);
    }
  }

  function Lone(calls: seq<ToolCall>): Message {
    Message(ASSISTANT, Absent, "", calls, "")
  }

  function Joined(m: Message, calls: seq<ToolCall>): Message {
    m.(calls := m.calls + calls)
  }

  /** What is sent for a message and calls that join it. */
  lemma JoinedRebuilt(all: seq<Message>, m: Message, calls: seq<ToolCall>)
    requires m.role == ASSISTANT && calls != []
    ensures var a, b := N.Answered(all, m.calls), N.Answered(all, calls);
            N.Rebuilt(all, Joined(m, calls), map[])
            == if a + b != [] then [m.(calls := a + b)] + (N.RepliesTo(all, a) + N.RepliesTo(all, b))
               else if ContentText(m.content) == "" then [] else [m.(calls := [])]
  {
    assert ASSISTANT[0] != TOOL[0];
    hide N.LastReply, N.Answered, N.RepliesTo, N.Rebuilt;
    N.AnsweredAppend(all, m.calls, calls);
    CallingRebuilt(all, Joined(m, calls));
    RepliesAppend(all, N.Answered(all, m.calls), N.Answered(all, calls));
  }

  lemma UnansweredJoin(all: seq<Message>, m: Message, calls: seq<ToolCall>)
    requires m.role == ASSISTANT && calls != [] && N.Answered(all, calls) == []
    ensures var one := N.Rebuilt(all, Joined(m, calls), map[]);
            var two := N.Rebuilt(all, m, map[]) + N.Rebuilt(all, Lone(calls), map[]);
            if m.calls == [] && ContentText(m.content) == "" then |two| == |one| + 1 else two == one
  {
    assert ASSISTANT[0] != TOOL[0];
    JoinedRebuilt(all, m, calls);
    LoneCalls(all, calls);
    var a := N.Answered(all, m.calls);
    assert m.calls == [] ==> a == [] && N.Rebuilt(all, m, map[]) == [m];
    if m.calls != [] {
      CallingRebuilt(all, m);
    }
    assert N.RepliesTo(all, []) == [];
    hide N.LastReply, N.Answered, N.RepliesTo, N.Rebuilt;
    assert a + [] == a && N.RepliesTo(all, a) + [] == N.RepliesTo(all, a);
    assert N.Rebuilt(all, m, map[]) + [] == N.Rebuilt(all, m, map[]);
  }

  /** What is sent for an assistant message, one way or another. */
  lemma ShownAs(all: seq<Message>, m: Message)
    requires m.role == ASSISTANT
    ensures var a := N.Answered(all, m.calls);
            Shown(all, m) ==>
              if a == [] then |N.Rebuilt(all, m, map[])| == 1
              else N.Rebuilt(all, m, map[]) == [m.(calls := a)] + N.RepliesTo(all, a)
  {
    assert ASSISTANT[0] != TOOL[0];
    if m.calls != [] {
      CallingRebuilt(all, m);
    } else {
      assert N.Rebuilt(all, m, map[]) == [m];
    }
  }

  lemma AnsweredJoin(all: seq<Message>, m: Message, calls: seq<ToolCall>)
    requires m.role == ASSISTANT && N.Answered(all, calls) != []
    ensures var one := N.Rebuilt(all, Joined(m, calls), map[]);
            var two := N.Rebuilt(all, m, map[]) + N.Rebuilt(all, Lone(calls), map[]);
            if Shown(all, m) then |two| == |one| + 1
            else |two| == |one| && (m == Lone(m.calls) ==> two == one)
  {
    var a, b := N.Answered(all, m.calls), N.Answered(all, calls);
    JoinedRebuilt(all, m, calls);
    LoneCalls(all, calls);
    ShownAs(all, m);
    assert N.RepliesTo(all, []) == [];
    if !Shown(all, m) {
      HiddenMessage(all, m);
      hide N.LastReply, N.Answered, N.RepliesTo;
      assert N.Rebuilt(all, m, map[]) == [];
      hide N.Rebuilt;
      assert [] + b == b && [] + N.RepliesTo(all, b) == N.RepliesTo(all, b);
    } else {
      hide N.LastReply, N.Answered, N.RepliesTo, N.Rebuilt, Shown;
    }
  }

  // ----- The two lists of messages sent, up to images -----

  /** The two lists after some turns: their lengths differ by the extra messages,
      and without any they are equal; the assistant message that calls may join is
      then sent, or is one that only makes calls. */
  ghost predicate InStep(all: seq<Message>, direct: seq<Message>, merged: seq<Message>, excess: nat) {
    && |Rebuild(all, direct)| == |Rebuild(all, merged)| + excess
    && (excess == 0 ==> Rebuild(all, direct) == Rebuild(all, merged))
    && (excess == 0 && EndsWithAssistant(merged) ==> Shown(all, Last(merged)) || Last(merged) == Lone(Last(merged).calls))
    && ToolsOf(Rebuild(all, direct)) == ToolsOf(Rebuild(all, merged))
  }

  lemma RebuildAppend(all: seq<Message>, a: seq<Message>, b: seq<Message>)
    ensures Rebuild(all, a + b) == Rebuild(all, a) + Rebuild(all, b)
  {
    N.RebuiltAppend(all, a, b, map[]);
  }

  /** A turn that both append alike. */
  lemma SameTurn(all: seq<Message>, direct: seq<Message>, merged: seq<Message>, excess: nat, more: seq<Message>)
    requires InStep(all, direct, merged, excess)
    requires EndsWithAssistant(more) ==> Shown(all, Last(more)) || Last(more) == Lone(Last(more).calls)
    ensures InStep(all, direct + more, merged + more, excess)
  {
    hide Rebuild, Shown, ToolsOf;
    RebuildAppend(all, direct, more);
    RebuildAppend(all, merged, more);
    ToolsAppend(Rebuild(all, direct), Rebuild(all, more));
    ToolsAppend(Rebuild(all, merged), Rebuild(all, more));
    if more == [] {
      assert merged + more == merged;
    } else {
      assert Last(merged + more) == Last(more);
    }
  }

  lemma EmptyRebuilt(all: seq<Message>)
    ensures N.Rebuilt(all, Lone([]), map[]) == [Lone([])] && ToolsOf([Lone([])]) == []
  {
    assert ASSISTANT[0] != TOOL[0];
    OneTool(Lone([]));
  }

  /** A silent turn is sent by the direct translation alone. */
  lemma SilentStep(all: seq<Message>, direct: seq<Message>, merged: seq<Message>, excess: nat)
    requires InStep(all, direct, merged, excess)
    ensures InStep(all, direct + [Lone([])], merged, excess + 1)
  {
    hide Rebuild, Shown, ToolsOf;
    RebuildSnoc(all, direct, Lone([]));
    EmptyRebuilt(all);
    ToolsAppend(Rebuild(all, direct), [Lone([])]);
    assert ToolsOf(Rebuild(all, direct)) + [] == ToolsOf(Rebuild(all, direct));
  }

  lemma RepliesAreTools(all: seq<Message>, ts: seq<ToolCall>)
    requires N.EachAnswered(all, ts)
    ensures ToolsOf(N.RepliesTo(all, ts)) == N.RepliesTo(all, ts)
  {
    N.RepliesAnswer(all, ts);
    AllTools(N.RepliesTo(all, ts));
  }

  lemma {:induction false} AllTools(ms: seq<Message>)
    requires forall m | m in ms :: IsReply(m)
    ensures ToolsOf(ms) == ms
  {
    if ms != [] {
      assert Last(ms) in ms;
      assert forall m | m in Init(ms) :: m in ms;
      AllTools(Init(ms));
    }
  }

  lemma CallingTools(all: seq<Message>, m: Message, kept: seq<ToolCall>)
    requires m.role == ASSISTANT && N.EachAnswered(all, kept)
    ensures ToolsOf([m] + N.RepliesTo(all, kept)) == N.RepliesTo(all, kept)
  {
    assert ASSISTANT[0] != TOOL[0];
    OneTool(m);
    ToolsAppend([m], N.RepliesTo(all, kept));
    RepliesAreTools(all, kept);
  }

  /** The replies sent for an assistant message. */
  lemma ShownTools(all: seq<Message>, m: Message)
    requires m.role == ASSISTANT
    ensures ToolsOf(N.Rebuilt(all, m, map[])) == N.RepliesTo(all, N.Answered(all, m.calls))
  {
    assert ASSISTANT[0] != TOOL[0];
    var kept := N.Answered(all, m.calls);
    assert N.RepliesTo(all, []) == [] && ToolsOf([]) == [] && N.Answered(all, []) == [];
    OneTool(m);
    OneTool(m.(calls := []));
    CallingTools(all, m.(calls := kept), kept);
    if m.calls != [] {
      CallingRebuilt(all, m);
    }
  }

  lemma JoinTools(all: seq<Message>, m: Message, calls: seq<ToolCall>)
    requires m.role == ASSISTANT
    ensures ToolsOf(N.Rebuilt(all, Joined(m, calls), map[]))
            == ToolsOf(N.Rebuilt(all, m, map[]) + N.Rebuilt(all, Lone(calls), map[]))
  {
    hide N.Rebuilt, N.LastReply, N.Answered, N.RepliesTo, ToolsOf;
    ShownTools(all, m);
    ShownTools(all, Lone(calls));
    ShownTools(all, Joined(m, calls));
    N.AnsweredAppend(all, m.calls, calls);
    RepliesAppend(all, N.Answered(all, m.calls), N.Answered(all, calls));
    ToolsAppend(N.Rebuilt(all, m, map[]), N.Rebuilt(all, Lone(calls), map[]));
  }

  /** Whether joining calls to a message loses a message. */
  predicate Absorbs(all: seq<Message>, m: Message, calls: seq<ToolCall>) {
    if N.Answered(all, calls) != [] then Shown(all, m) else m.calls == [] && ContentText(m.content) == ""
  }

  lemma JoinCounts(all: seq<Message>, m: Message, calls: seq<ToolCall>)
    requires m.role == ASSISTANT && calls != []
    ensures var one := N.Rebuilt(all, Joined(m, calls), map[]);
            var two := N.Rebuilt(all, m, map[]) + N.Rebuilt(all, Lone(calls), map[]);
            && |two| == |one| + (if Absorbs(all, m, calls) then 1 else 0)
            && (!Absorbs(all, m, calls) && (Shown(all, m) || m == Lone(m.calls)) ==>
                  two == one && (Shown(all, Joined(m, calls)) || Joined(m, calls) == Lone(m.calls + calls)))
  {
    if N.Answered(all, calls) != [] {
      AnsweredJoin(all, m, calls);
      JoinedRebuilt(all, m, calls);
    } else {
      UnansweredJoin(all, m, calls);
    }
  }

  lemma JoinToolsStep(all: seq<Message>, direct: seq<Message>, before: seq<Message>, m: Message, calls: seq<ToolCall>)
    requires m.role == ASSISTANT && ToolsOf(Rebuild(all, direct)) == ToolsOf(Rebuild(all, before + [m]))
    ensures ToolsOf(Rebuild(all, direct + [Lone(calls)])) == ToolsOf(Rebuild(all, before + [Joined(m, calls)]))
  {
    hide Rebuild, ToolsOf, N.Rebuilt;
    var x, y, z := N.Rebuilt(all, m, map[]), N.Rebuilt(all, Lone(calls), map[]), Rebuild(all, before);
    RebuildSnoc(all, direct, Lone(calls));
    RebuildSnoc(all, before, m);
    RebuildSnoc(all, before, Joined(m, calls));
    Associates(z, x, y);
    JoinTools(all, m, calls);
    ToolsAppend(Rebuild(all, direct), y);
    ToolsAppend(z + x, y);
    ToolsAppend(z, x + y);
    ToolsAppend(z, N.Rebuilt(all, Joined(m, calls), map[]));
  }

  lemma JoinSums<X>(rd: seq<X>, z: seq<X>, x: seq<X>, y: seq<X>, one: seq<X>, excess: nat, absorbs: bool, shown: bool)
    requires |rd| == |z + x| + excess && (excess == 0 ==> rd == z + x && shown)
    requires |x + y| == |one| + (if absorbs then 1 else 0) && (!absorbs && shown ==> x + y == one)
    ensures |rd + y| == |z + one| + excess + (if absorbs then 1 else 0)
    ensures excess == 0 && !absorbs ==> rd + y == z + one
  {
    Associates(z, x, y);
  }

  lemma JoinStep(all: seq<Message>, direct: seq<Message>, merged: seq<Message>, excess: nat, calls: seq<ToolCall>)
    requires InStep(all, direct, merged, excess) && EndsWithAssistant(merged) && calls != []
    ensures InStep(all, direct + [Lone(calls)], WithCalls(merged, calls),
                   excess + (if Absorbs(all, Last(merged), calls) then 1 else 0))
  {
    var m, before := Last(merged), Init(merged);
    hide Rebuild, Shown, ToolsOf, Absorbs, N.Rebuilt;
    assert merged == before + [m];
    assert WithCalls(merged, calls) == before + [Joined(m, calls)];
    InitOfSnoc(before, Joined(m, calls));
    RebuildSnoc(all, direct, Lone(calls));
    RebuildSnoc(all, before, m);
    RebuildSnoc(all, before, Joined(m, calls));
    JoinCounts(all, m, calls);
    JoinSums(Rebuild(all, direct), Rebuild(all, before), N.Rebuilt(all, m, map[]), N.Rebuilt(all, Lone(calls), map[]),
             N.Rebuilt(all, Joined(m, calls), map[]), excess, Absorbs(all, m, calls),
             Shown(all, m) || m == Lone(m.calls));
    JoinToolsStep(all, direct, before, m, calls);
  }

  lemma TextShown(all: seq<Message>, m: Message)
    requires m.role == ASSISTANT && (m.calls == [] || ContentText(m.content) != "")
    ensures Shown(all, m)
  {
    assert ASSISTANT[0] != TOOL[0];
    if Calling(m) {
      CallingRebuilt(all, m);
    }
  }

  lemma TurnInStep(all: seq<Message>, direct: seq<Message>, merged: seq<Message>, excess: nat, t: Turn)
    requires InStep(all, direct, merged, excess)
    ensures InStep(all, direct + TurnMessages(t), MergedTurn(merged, t), excess + (if Extra(all, merged, t) then 1 else 0))
  {
    hide InStep, Shown, ToolUses, JoinedText, N.Answered, ToolReplies, UserMessage;
    match t.content
    case MalformedTurn => SameTurn(all, direct, merged, excess, []);
    case StringTurn(text) =>
      TextShownTurn(all, t);
      SameTurn(all, direct, merged, excess, TurnMessages(t));
    case BlocksTurn(bs) =>
      if t.role != ASSISTANT {
        NoAssistantLast(bs);
        SameTurn(all, direct, merged, excess, TurnMessages(t));
      } else if JoinedText(bs) != "" {
        assert TurnMessages(t) == [AssistantMessage(bs)];
        TextShown(all, AssistantMessage(bs));
        SameTurn(all, direct, merged, excess, TurnMessages(t));
      } else if ToolUses(bs) == [] {
        assert TurnMessages(t) == [Lone([])];
        SilentStep(all, direct, merged, excess);
      } else if EndsWithAssistant(merged) {
        JoinStep(all, direct, merged, excess, ToolUses(bs));
      } else {
        assert TurnMessages(t) == [Lone(ToolUses(bs))];
        SameTurn(all, direct, merged, excess, TurnMessages(t));
      }
  }

  lemma TextShownTurn(all: seq<Message>, t: Turn)
    requires t.content.StringTurn?
    ensures EndsWithAssistant(TurnMessages(t)) ==> Shown(all, Last(TurnMessages(t)))
  {
    assert USER[0] != ASSISTANT[0];
    if t.role == ASSISTANT {
      TextShown(all, Plain(ASSISTANT, t.content.text));
    }
  }

  lemma NoAssistantLast(bs: seq<Block>)
    ensures !EndsWithAssistant(ToolReplies(bs) + UserMessage(bs))
  {
    hide OwnParts, JoinedText, HasImage, ToolReplies;
    assert USER[0] != ASSISTANT[0] && TOOL[0] != ASSISTANT[0];
    RequestTranslation.RepliesAreTools(bs);
    var ms := ToolReplies(bs) + UserMessage(bs);
    if ms != [] {
      assert Last(ms).role == TOOL || Last(ms).role == USER;
    }
  }

  lemma StartInStep(all: seq<Message>, s: SystemPrompt)
    ensures InStep(all, SystemMessages(s), SystemMessages(s), 0)
  {
    hide Rebuild, ToolsOf, Join, SystemTexts;
    assert SYSTEM[0] != ASSISTANT[0];
  }

  lemma {:induction false} RunInStep(all: seq<Message>, s: SystemPrompt, ts: seq<Turn>)
    ensures InStep(all, Direct(s, ts), Merged(s, ts), Excess(all, s, ts))
  {
    hide InStep, Extra, MergedTurn, TurnMessages, SystemMessages;
    if ts == [] {
      assert Direct(s, ts) == SystemMessages(s);
      StartInStep(all, s);
    } else {
      var before, t := Init(ts), Last(ts);
      assert Direct(s, ts) == Direct(s, before) + TurnMessages(t);
      hide Direct;
      RunInStep(all, s, before);
      TurnInStep(all, Direct(s, before), Merged(s, before), Excess(all, s, before), t);
    }
  }

  // ----- What is sent in the end -----

  /** No tool message of the list holds an image in its text. */
  predicate ToolsMediaFree(w: Wire, ms: seq<Message>) {
    forall i | 0 <= i < |ms| && ms[i].role == TOOL :: !HasMedia(w, ms[i])
  }

  lemma {:induction false} ToolsUnchanged(w: Wire, ms: seq<Message>)
    requires M.Codec(w.decode, w.encode)
    ensures AllSent(w, ms) == ms <==> ToolsMediaFree(w, ms)
    ensures AllSent(w, ToolsOf(ms)) == ToolsOf(ms) <==> ToolsMediaFree(w, ms)
  {
    hide M.Codec, M.Extracted;
    if ms == [] {
      AllSentNone(w);
    } else {
      var before, m := Init(ms), Last(ms);
      ToolsUnchanged(w, before);
      OneUnchanged(w, m);
      assert ms == before + [m];
      AllSentOne(w, m);
      AllSentSplit(w, before, [m]);
      AllSentSplit(w, ToolsOf(before), [m]);
      FreeSnoc(w, before, m);
      assert ToolsOf(before) + [] == ToolsOf(before);
    }
  }

  lemma OneUnchanged(w: Wire, m: Message)
    requires M.Codec(w.decode, w.encode)
    ensures AsSent(w, m) == m <==> !(m.role == TOOL && HasMedia(w, m))
    ensures [AsSent(w, m)] == [m] <==> AsSent(w, m) == m
  {
    if m.content.Str? {
      SentUnchanged(w, m.content.text);
    }
    assert [AsSent(w, m)][0] == AsSent(w, m) && [m][0] == m;
  }

  lemma FreeSnoc(w: Wire, before: seq<Message>, m: Message)
    ensures ToolsMediaFree(w, before + [m]) <==> ToolsMediaFree(w, before) && !(m.role == TOOL && HasMedia(w, m))
  {
    hide HasMedia;
    var ms := before + [m];
    assert ms[|before|] == m;
    forall i | 0 <= i < |before| ensures ms[i] == before[i] {
    }
  }

  /** The messages sent by each translation. */
  function DirectSent(s: SystemPrompt, ts: seq<Turn>): seq<Message> {
    N.Normalized(Direct(s, ts), map[])
  }

  function ComposedSent(w: Wire, s: SystemPrompt, ts: seq<Turn>): seq<Message> {
    N.Normalized(Composed(w, s, ts).messages, Composed(w, s, ts).media)
  }

  /** What the composed translation would send if outputs were left alone. */
  function PlainSent(s: SystemPrompt, ts: seq<Turn>): seq<Message> {
    Rebuild(Direct(s, ts), Merged(s, ts))
  }

  lemma PlainIsNormalized(s: SystemPrompt, ts: seq<Turn>)
    ensures PlainSent(s, ts) == N.Normalized(Merged(s, ts), map[])
  {
    hide Direct, Merged, N.RebuiltAll, SameReplies;
    MergedReplies(s, ts);
    RebuiltAllAlike(Merged(s, ts), Direct(s, ts), Merged(s, ts), map[]);
  }

  lemma PlainAsSent(w: Wire, s: SystemPrompt, ts: seq<Turn>)
    requires !Malformed(s, ts)
    ensures var c := Composed(w, s, ts).messages;
            N.RebuiltAll(c, c, map[]) == AllSent(w, PlainSent(s, ts))
  {
    hide Composed, Merged, N.RebuiltAll, PlainSent, AllSent, Malformed;
    MergedBuilt(w, s, ts);
    PlainIsNormalized(s, ts);
    RebuiltAllSent(w, Merged(s, ts), Merged(s, ts));
  }

  /** The tool messages sent are the direct ones, as they are sent. */
  lemma SentTools(w: Wire, s: SystemPrompt, ts: seq<Turn>)
    requires !Malformed(s, ts)
    ensures ToolsOf(ComposedSent(w, s, ts)) == AllSent(w, ToolsOf(DirectSent(s, ts)))
    ensures ToolsOf(PlainSent(s, ts)) == ToolsOf(DirectSent(s, ts))
  {
    var c := Composed(w, s, ts);
    hide Composed, Direct, Merged, N.RebuiltAll, AllSent, ToolsOf, Malformed, Excess;
    PlainAsSent(w, s, ts);
    RebuiltAllTools(c.messages, c.messages, c.media);
    ToolsSent(w, PlainSent(s, ts));
    RunInStep(Direct(s, ts), s, ts);
  }

  lemma MediaFitsAt(w: Wire, media: N.Media, ms: seq<Message>, id: string)
    requires MediaFits(w, media, ms)
    ensures id in media ==> MediaAt(w, ms, id)
  {
  }

  lemma MediaNotAsked(w: Wire, s: SystemPrompt, ts: seq<Turn>)
    requires !Malformed(s, ts) && ToolsMediaFree(w, PlainSent(s, ts))
    ensures Unused(Composed(w, s, ts).media, PlainSent(s, ts))
  {
    var media, sent := Composed(w, s, ts).media, PlainSent(s, ts);
    hide Composed, Direct, Merged, N.RebuiltAll, N.LastReply, HasMedia, Malformed, PlainSent, N.Paired;
    MergedMedia(w, s, ts);
    PlainIsNormalized(s, ts);
    N.NormalizedPaired(Merged(s, ts), map[]);
    forall i | 0 <= i < |sent| && IsReply(sent[i]) ensures sent[i].callId !in media {
      assert sent[i] in sent;
      assert N.LastReply(Merged(s, ts), sent[i].callId) == Some(sent[i]);
      MediaFitsAt(w, media, Merged(s, ts), sent[i].callId);
    }
  }

  /** When no tool message holds an image, searching for images changes nothing. */
  lemma NoImagesNoChange(w: Wire, s: SystemPrompt, ts: seq<Turn>)
    requires M.Codec(w.decode, w.encode) && !Malformed(s, ts) && ToolsMediaFree(w, DirectSent(s, ts))
    ensures ComposedSent(w, s, ts) == PlainSent(s, ts)
  {
    var c := Composed(w, s, ts);
    hide M.Codec, Composed, Direct, Merged, N.RebuiltAll, N.LastReply, Malformed, PlainSent, DirectSent, ToolsMediaFree,
      ToolsOf, AllSent, Unused;
    SentTools(w, s, ts);
    ToolsUnchanged(w, DirectSent(s, ts));
    ToolsUnchanged(w, PlainSent(s, ts));
    PlainAsSent(w, s, ts);
    MediaNotAsked(w, s, ts);
    MediaUnused(c.messages, c.messages, c.media);
  }

  /** Both translations send the same messages exactly when there is no turn for which
      the direct one sends one more, and no tool message it sends holds an image. */
  lemma SentAlike(w: Wire, s: SystemPrompt, ts: seq<Turn>)
    requires M.Codec(w.decode, w.encode) && !Malformed(s, ts)
    ensures ComposedSent(w, s, ts) == DirectSent(s, ts)
            <==> Excess(Direct(s, ts), s, ts) == 0 && ToolsMediaFree(w, DirectSent(s, ts))
  {
    hide M.Codec, Composed, Direct, Merged, Malformed, ToolsMediaFree, ToolsOf, AllSent, Excess, ComposedSent;
    SentTools(w, s, ts);
    ToolsUnchanged(w, DirectSent(s, ts));
    RunInStep(Direct(s, ts), s, ts);
    if ToolsMediaFree(w, DirectSent(s, ts)) {
      NoImagesNoChange(w, s, ts);
    }
  }
}
