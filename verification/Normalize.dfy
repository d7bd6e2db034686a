/** normalizeChatMessagesWithToolOutputMedia: every message that makes tool calls
    is to be followed at once by one tool reply per call, in call order. */
module Normalize {
  import opened Common
  import opened ChatChunks
  import opened ChatMessages

  type Media = map<string, seq<Part>>

  /** The reply a call id gets: the last one in the history. */
  function LastReply(ms: seq<Message>, id: string): (r: Option<Message>)
    ensures r.Some? ==> r.value in ms && r.value.role == TOOL && r.value.callId == id
    ensures r.None? && id != "" ==> forall m | m in ms :: !(m.role == TOOL && m.callId == id)
  {
    if ms == [] then None
    else if Last(ms).role == TOOL && Last(ms).callId == id then Some(Last(ms))
    else LastReply(Init(ms), id)
  }

  predicate IsAnswered(all: seq<Message>, t: ToolCall) {
    t.id != "" && LastReply(all, t.id).Some?
  }

  predicate EachAnswered(all: seq<Message>, ts: seq<ToolCall>) {
    forall i | 0 <= i < |ts| :: IsAnswered(all, ts[i])
  }

  /** The calls that have an id and a reply. */
  function Answered(all: seq<Message>, ts: seq<ToolCall>): (r: seq<ToolCall>)
    ensures EachAnswered(all, r)
  {
    if ts == [] then []
    else Answered(all, Init(ts)) + (if IsAnswered(all, Last(ts)) then [Last(ts)] else [])
  }

  function RepliesTo(all: seq<Message>, ts: seq<ToolCall>): (r: seq<Message>)
    requires EachAnswered(all, ts)
    ensures |r| == |ts|
    ensures forall i | 0 <= i < |ts| :: LastReply(all, ts[i].id) == Some(r[i])
  {
    if ts == [] then []
    else RepliesTo(all, Init(ts)) + [LastReply(all, Last(ts).id).value]
  }

  const ATTRIBUTION := ("[Tool output media for call ", "]")

  function MediaFor(media: Media, id: string): seq<Part> {
    if id in media && media[id] != [] then [TextPart(ATTRIBUTION.0 + id + ATTRIBUTION.1)] + media[id] else []
  }

  /** The media taken out of the outputs of these calls, each under its call id. */
  function MediaParts(media: Media, ts: seq<ToolCall>): seq<Part> {
    if ts == [] then [] else MediaParts(media, Init(ts)) + MediaFor(media, Last(ts).id)
  }

  function MediaMessage(media: Media, ts: seq<ToolCall>): seq<Message> {
    if MediaParts(media, ts) == [] then [] else [Message(USER, Parts(MediaParts(media, ts)), "", [], "")]
  }

  /** What takes the place of one message of the history `all`. */
  function Rebuilt(all: seq<Message>, m: Message, media: Media): seq<Message> {
    if m.role == TOOL then if m.callId == "" then [m] else []
    else if m.calls == [] then [m]
    else
      var kept := Answered(all, m.calls);
      if kept == [] then if ContentText(m.content) == "" then [] else [m.(calls := [])]
      else [m.(calls := kept)] + RepliesTo(all, kept) + MediaMessage(media, kept)
  }

  function RebuiltAll(all: seq<Message>, ms: seq<Message>, media: Media): seq<Message> {
    if ms == [] then [] else RebuiltAll(all, Init(ms), media) + Rebuilt(all, Last(ms), media)
  }

  function Normalized(ms: seq<Message>, media: Media): seq<Message> {
    RebuiltAll(ms, ms, media)
  }

  // ----- The loops -----

  ghost predicate Indexes(replies: map<string, Message>, ms: seq<Message>) {
    && (forall id: string :: id in replies <==> id != "" && LastReply(ms, id).Some?)
    && (forall id | id in replies :: LastReply(ms, id) == Some(replies[id]))
  }

  method IndexReplies(ms: seq<Message>) returns (replies: map<string, Message>)
    ensures Indexes(replies, ms)
  {
    replies := map[];
    for i := 0 to |ms|
      invariant Indexes(replies, ms[..i])
    {
      var m := ms[i];
      assert Init(ms[..i + 1]) == ms[..i] && Last(ms[..i + 1]) == m;
      if m.role == TOOL && m.callId != "" {
        replies := replies[m.callId := m];
      }
    }
    assert ms[..|ms|] == ms;
  }

  method KeepAnswered(ghost all: seq<Message>, replies: map<string, Message>, ts: seq<ToolCall>)
    returns (kept: seq<ToolCall>)
    requires Indexes(replies, all)
    ensures kept == Answered(all, ts)
  {
    kept := [];
    for i := 0 to |ts|
      invariant kept == Answered(all, ts[..i])
    {
      var t := ts[i];
      assert Init(ts[..i + 1]) == ts[..i] && Last(ts[..i + 1]) == t;
      if t.id != "" && t.id in replies {
        kept := kept + [t];
      }
    }
    assert ts[..|ts|] == ts;
  }

  method CollectMedia(media: Media, ts: seq<ToolCall>) returns (parts: seq<Part>)
    ensures parts == MediaParts(media, ts)
  {
    parts := [];
    for i := 0 to |ts|
      invariant parts == MediaParts(media, ts[..i])
    {
      var id := ts[i].id;
      assert Init(ts[..i + 1]) == ts[..i] && Last(ts[..i + 1]) == ts[i];
      if id in media && media[id] != [] {
        parts := parts + [TextPart(ATTRIBUTION.0 + id + ATTRIBUTION.1)];
        parts := parts + media[id];
      }
    }
    assert ts[..|ts|] == ts;
  }

  method AppendReplies(ghost all: seq<Message>, replies: map<string, Message>, ts: seq<ToolCall>, out: seq<Message>)
    returns (longer: seq<Message>)
    requires Indexes(replies, all) && EachAnswered(all, ts)
    ensures longer == out + RepliesTo(all, ts)
  {
    longer := out;
    for i := 0 to |ts|
      invariant longer == out + RepliesTo(all, ts[..i])
    {
      assert Init(ts[..i + 1]) == ts[..i] && Last(ts[..i + 1]) == ts[i];
      longer := longer + [replies[ts[i].id]];
    }
    assert ts[..|ts|] == ts;
  }

  /** One message that makes calls: its answered calls, their replies, the media. */
  method AppendCalling(ghost all: seq<Message>, replies: map<string, Message>, m: Message, media: Media, out: seq<Message>)
    returns (longer: seq<Message>)
    requires Indexes(replies, all) && Calling(m)
    ensures longer == out + Rebuilt(all, m, media)
  {
    hide Indexes, Answered, RepliesTo, MediaParts, LastReply, IsAnswered;
    longer := out;
    var kept := KeepAnswered(all, replies, m.calls);
    if |kept| == 0 {
      if ContentText(m.content) != "" {
        longer := longer + [m.(calls := [])];
      }
    } else {
      longer := longer + [m.(calls := kept)];
      longer := AppendReplies(all, replies, kept, longer);
      var parts := CollectMedia(media, kept);
      if |parts| > 0 {
        longer := longer + [Message(USER, Parts(parts), "", [], "")];
      }
    }
  }

  /** normalizeChatMessagesWithToolOutputMedia */
  method NormalizeMessages(ms: seq<Message>, media: Media) returns (out: seq<Message>)
    ensures out == Normalized(ms, media)
  {
    hide Indexes, Answered, RepliesTo, MediaMessage;
    var replies := IndexReplies(ms);
    out := [];
    for i := 0 to |ms|
      invariant out == RebuiltAll(ms, ms[..i], media)
    {
      var m := ms[i];
      assert Init(ms[..i + 1]) == ms[..i] && Last(ms[..i + 1]) == m;
      if m.role == TOOL {
        if m.callId == "" {
          out := out + [m];
        }
      } else if |m.calls| > 0 {
        out := AppendCalling(ms, replies, m, media, out);
      } else {
        out := out + [m];
      }
    }
    assert ms[..|ms|] == ms;
  }

  // ----- The rule -----

  /** The replies to `calls` stand at the head of `ms`, in call order. */
  predicate AnsweredAtOnce(calls: seq<ToolCall>, ms: seq<Message>) {
    |calls| <= |ms| &&
    forall i | 0 <= i < |calls| :: calls[i].id != "" && ms[i].role == TOOL && ms[i].callId == calls[i].id
  }

  /** Every message with tool calls is followed at once by one reply per call, in
      call order, and there are no other replies. */
  predicate Paired(ms: seq<Message>) {
    if ms == [] then true
    else if IsReply(ms[0]) then false
    else if Calling(ms[0]) then
      AnsweredAtOnce(ms[0].calls, ms[1..]) && Paired(ms[1 + |ms[0].calls|..])
    else Paired(ms[1..])
  }

  /** Each reply is the last reply in `all` to its call. */
  predicate Latest(all: seq<Message>, ms: seq<Message>) {
    forall m | m in ms && IsReply(m) :: LastReply(all, m.callId) == Some(m)
  }

  lemma {:induction false} PairedAppend(a: seq<Message>, b: seq<Message>)
    requires Paired(a) && Paired(b)
    ensures Paired(a + b)
  {
    if a == [] {
      assert a + b == b;
    } else {
      var n := if Calling(a[0]) then 1 + |a[0].calls| else 1;
      PairedAppend(a[n..], b);
      assert (a + b)[n..] == a[n..] + b;
      assert (a + b)[1..] == a[1..] + b;
    }
  }

  lemma BlockPaired(m: Message, replies: seq<Message>, tail: seq<Message>)
    requires Calling(m) && |replies| == |m.calls| && AnsweredAtOnce(m.calls, replies) && Paired(tail)
    ensures Paired([m] + replies + tail)
  {
    var r := [m] + replies + tail;
    assert r[1..] == replies + tail;
    assert r[1 + |m.calls|..] == tail;
  }

  lemma MediaMessagePaired(media: Media, ts: seq<ToolCall>)
    ensures Paired(MediaMessage(media, ts)) && forall m | m in MediaMessage(media, ts) :: !IsReply(m)
  {
    hide MediaParts;
  }

  lemma RepliesAnswer(all: seq<Message>, ts: seq<ToolCall>)
    requires EachAnswered(all, ts)
    ensures AnsweredAtOnce(ts, RepliesTo(all, ts))
    ensures forall m | m in RepliesTo(all, ts) :: IsReply(m) && LastReply(all, m.callId) == Some(m)
  {
    hide LastReply;
    var replies := RepliesTo(all, ts);
    forall i | 0 <= i < |ts|
      ensures ts[i].id != "" && IsReply(replies[i]) && replies[i].callId == ts[i].id &&
              LastReply(all, replies[i].callId) == Some(replies[i])
    {
      assert IsAnswered(all, ts[i]);
    }
  }

  lemma RebuiltPaired(all: seq<Message>, m: Message, media: Media)
    ensures Paired(Rebuilt(all, m, media)) && Latest(all, Rebuilt(all, m, media))
  {
    hide Answered, RepliesTo, MediaMessage, LastReply, IsAnswered, AnsweredAtOnce;
    var kept := Answered(all, m.calls);
    if Calling(m) && kept != [] {
      hide Paired;
      RepliesAnswer(all, kept);
      MediaMessagePaired(media, kept);
      BlockPaired(m.(calls := kept), RepliesTo(all, kept), MediaMessage(media, kept));
    }
  }

  lemma {:induction false} RebuiltAllPaired(all: seq<Message>, ms: seq<Message>, media: Media)
    ensures Paired(RebuiltAll(all, ms, media)) && Latest(all, RebuiltAll(all, ms, media))
  {
    hide Rebuilt, Paired;
    if ms == [] {
      assert Paired([]) by { EmptyPaired(); }
    } else {
      RebuiltAllPaired(all, Init(ms), media);
      RebuiltPaired(all, Last(ms), media);
      PairedAppend(RebuiltAll(all, Init(ms), media), Rebuilt(all, Last(ms), media));
    }
  }

  lemma EmptyPaired()
    ensures Paired([])
  {
  }

  /** After normalisation every message that makes tool calls is followed at once
      by exactly one reply per call, in call order, each the latest reply the
      history has for it; no other reply is left. */
  lemma NormalizedPaired(ms: seq<Message>, media: Media)
    ensures Paired(Normalized(ms, media)) && Latest(ms, Normalized(ms, media))
  {
    RebuiltAllPaired(ms, ms, media);
  }

  // ----- Normalising again -----

  lemma AnsweredLast(all: seq<Message>, ts: seq<ToolCall>)
    requires ts != [] && EachAnswered(all, ts)
    ensures EachAnswered(all, Init(ts)) && Answered(all, ts) == Answered(all, Init(ts)) + [Last(ts)]
  {
    hide LastReply, IsAnswered;
    assert IsAnswered(all, ts[|ts| - 1]);
  }

  lemma {:induction false} AllAnswered(all: seq<Message>, ts: seq<ToolCall>)
    requires EachAnswered(all, ts)
    ensures Answered(all, ts) == ts
  {
    if ts == [] {
      assert Answered(all, []) == [];
    } else {
      hide Answered, EachAnswered;
      AnsweredLast(all, ts);
      AllAnswered(all, Init(ts));
    }
  }

  lemma {:induction false} RebuiltAppend(all: seq<Message>, a: seq<Message>, b: seq<Message>, media: Media)
    ensures RebuiltAll(all, a + b, media) == RebuiltAll(all, a, media) + RebuiltAll(all, b, media)
  {
    hide Rebuilt;
    if b == [] {
      assert a + b == a;
    } else {
      assert Init(a + b) == a + Init(b);
      RebuiltAppend(all, a, Init(b), media);
    }
  }

  lemma {:induction false} RepliesVanish(all: seq<Message>, ms: seq<Message>, media: Media)
    requires forall m | m in ms :: IsReply(m)
    ensures RebuiltAll(all, ms, media) == []
  {
    if ms != [] {
      RepliesVanish(all, Init(ms), media);
      assert Last(ms) in ms;
    }
  }

  lemma NoMedia(ts: seq<ToolCall>)
    ensures MediaParts(map[], ts) == []
  {
  }

  lemma AnsweredBy(all: seq<Message>, calls: seq<ToolCall>, replies: seq<Message>)
    requires |replies| == |calls| && AnsweredAtOnce(calls, replies) && Latest(all, replies)
    ensures EachAnswered(all, calls)
    ensures RepliesTo(all, calls) == replies
    ensures forall m | m in replies :: IsReply(m)
  {
    hide LastReply, RepliesTo;
    forall i | 0 <= i < |calls|
      ensures IsReply(replies[i]) && LastReply(all, calls[i].id) == Some(replies[i]) && IsAnswered(all, calls[i])
    {
      assert replies[i] in replies;
    }
  }

  /** A call together with its replies is rebuilt as it was. */
  lemma CallRebuilt(all: seq<Message>, m: Message, replies: seq<Message>)
    requires Calling(m) && |replies| == |m.calls| && AnsweredAtOnce(m.calls, replies) && Latest(all, replies)
    ensures RebuiltAll(all, [m] + replies, map[]) == [m] + replies
  {
    AnsweredBy(all, m.calls, replies);
    hide AnsweredAtOnce, Latest, Answered, RepliesTo, LastReply, IsAnswered, RebuiltAll;
    AllAnswered(all, m.calls);
    NoMedia(m.calls);
    RebuiltAppend(all, [m], replies, map[]);
    RepliesVanish(all, replies, map[]);
    SingleRebuilt(all, m, map[]);
    assert m.(calls := m.calls) == m;
  }

  lemma SingleRebuilt(all: seq<Message>, m: Message, media: Media)
    ensures RebuiltAll(all, [m], media) == Rebuilt(all, m, media)
  {
    assert Init([m]) == [] && Last([m]) == m;
    assert RebuiltAll(all, [], media) == [];
  }

  lemma LatestParts(all: seq<Message>, ms: seq<Message>, n: nat)
    requires Latest(all, ms) && 0 < n <= |ms|
    ensures Latest(all, ms[n..]) && Latest(all, ms[1..n])
  {
    hide LastReply;
  }

  /** The first message of an ordered history, with its replies if it calls. */
  lemma FirstBlock(all: seq<Message>, ms: seq<Message>)
    requires ms != [] && Paired(ms) && Latest(all, ms)
    ensures var n := if Calling(ms[0]) then 1 + |ms[0].calls| else 1;
            n <= |ms| && Paired(ms[n..]) && Latest(all, ms[n..]) && RebuiltAll(all, ms[..n], map[]) == ms[..n]
  {
    var n := if Calling(ms[0]) then 1 + |ms[0].calls| else 1;
    assert Calling(ms[0]) ==> AnsweredAtOnce(ms[0].calls, ms[1..n]);
    assert !IsReply(ms[0]);
    assert Paired(ms[n..]);
    hide Paired, RebuiltAll, LastReply;
    LatestParts(all, ms, n);
    hide Latest;
    if Calling(ms[0]) {
      assert ms[..n] == [ms[0]] + ms[1..n];
      CallRebuilt(all, ms[0], ms[1..n]);
    } else {
      assert ms[..n] == [ms[0]];
      SingleRebuilt(all, ms[0], map[]);
    }
  }

  lemma {:induction false} PairedRebuilt(all: seq<Message>, ms: seq<Message>)
    requires Paired(ms) && Latest(all, ms)
    ensures RebuiltAll(all, ms, map[]) == ms
  {
    if ms != [] {
      hide Paired, Latest, Rebuilt;
      FirstBlock(all, ms);
      var n := if Calling(ms[0]) then 1 + |ms[0].calls| else 1;
      var a, b := ms[..n], ms[n..];
      assert ms == a + b;
      hide RebuiltAll;
      PairedRebuilt(all, b);
      RebuiltAppend(all, a, b, map[]);
    }
  }

  /** Normalisation leaves a history alone exactly when it is in order already. */
  lemma FixedWhenPaired(ms: seq<Message>)
    ensures Normalized(ms, map[]) == ms <==> Paired(ms) && Latest(ms, ms)
  {
    NormalizedPaired(ms, map[]);
    if Paired(ms) && Latest(ms, ms) {
      PairedRebuilt(ms, ms);
    }
  }

  /** Normalising again changes nothing. */
  lemma NormalizedTwice(ms: seq<Message>, media: Media)
    ensures Normalized(Normalized(ms, media), map[]) == Normalized(ms, media)
  {
    var out := Normalized(ms, media);
    hide Normalized, Paired;
    NormalizedPaired(ms, media);
    forall m | m in out && IsReply(m) ensures LastReply(out, m.callId) == Some(m) {
      var r := LastReply(out, m.callId);
      assert r.Some?;
      assert IsReply(r.value) && r.value in out;
    }
    FixedWhenPaired(out);
  }

  // ----- What is kept -----

  /** Everything that is no reply, with the calls taken off. */
  function Others(ms: seq<Message>): seq<Message> {
    if ms == [] then []
    else Others(Init(ms)) + (if IsReply(Last(ms)) then [] else [Bare(Last(ms))])
  }

  function Bare(m: Message): Message {
    if m.role == TOOL then m else m.(calls := [])
  }

  /** A message that only made calls nobody answered. */
  predicate Dangling(all: seq<Message>, m: Message) {
    Calling(m) && ContentText(m.content) == "" && forall i | 0 <= i < |m.calls| :: !IsAnswered(all, m.calls[i])
  }

  function CallsIn(ms: seq<Message>): seq<ToolCall> {
    if ms == [] then [] else CallsIn(Init(ms)) + (if Last(ms).role == TOOL then [] else Last(ms).calls)
  }

  lemma OthersSnoc(ms: seq<Message>, m: Message)
    ensures Others(ms + [m]) == Others(ms) + (if IsReply(m) then [] else [Bare(m)])
    ensures CallsIn(ms + [m]) == CallsIn(ms) + (if m.role == TOOL then [] else m.calls)
  {
    InitOfSnoc(ms, m);
  }

  lemma {:induction false} OthersAppend(a: seq<Message>, b: seq<Message>)
    ensures Others(a + b) == Others(a) + Others(b) && CallsIn(a + b) == CallsIn(a) + CallsIn(b)
  {
    assert Others([]) == [] && CallsIn([]) == [];
    hide Others, CallsIn, IsReply;
    if b == [] {
      assert a + b == a;
    } else {
      var before, m := Init(b), Last(b);
      OthersAppend(a, before);
      assert b == before + [m] && a + b == (a + before) + [m];
      OthersSnoc(before, m);
      OthersSnoc(a + before, m);
      Associates(Others(a), Others(before), if IsReply(m) then [] else [Bare(m)]);
      Associates(CallsIn(a), CallsIn(before), if m.role == TOOL then [] else m.calls);
    }
  }

  lemma {:induction false} RepliesAreNoOthers(ms: seq<Message>)
    requires forall m | m in ms :: IsReply(m)
    ensures Others(ms) == [] && CallsIn(ms) == []
  {
    if ms != [] {
      RepliesAreNoOthers(Init(ms));
      assert Last(ms) in ms;
    }
  }

  lemma {:induction false} AnsweredNone(all: seq<Message>, ts: seq<ToolCall>)
    ensures Answered(all, ts) == [] <==> forall i | 0 <= i < |ts| :: !IsAnswered(all, ts[i])
  {
    if ts != [] {
      AnsweredNone(all, Init(ts));
      assert ts == Init(ts) + [Last(ts)];
    }
  }

  lemma SingleOthers(m: Message)
    ensures Others([m]) == (if IsReply(m) then [] else [Bare(m)])
    ensures CallsIn([m]) == if m.role == TOOL then [] else m.calls
  {
    assert Init([m]) == [] && Last([m]) == m;
    assert Others([]) == [] && CallsIn([]) == [];
  }

  lemma BlockOthers(m: Message, replies: seq<Message>)
    requires m.role != TOOL && forall x | x in replies :: IsReply(x)
    ensures Others([m] + replies) == [m.(calls := [])] && CallsIn([m] + replies) == m.calls
  {
    SingleOthers(m);
    RepliesAreNoOthers(replies);
    OthersAppend([m], replies);
  }

  lemma DanglingWhenNone(all: seq<Message>, m: Message)
    ensures Dangling(all, m) <==> Calling(m) && Answered(all, m.calls) == [] && ContentText(m.content) == ""
  {
    AnsweredNone(all, m.calls);
  }

  /** What one message leaves besides replies: itself without its calls, unless it
      only made calls nobody answered, and the media of the calls it keeps. */
  function Left(all: seq<Message>, m: Message, media: Media): seq<Message> {
    if Dangling(all, m) || IsReply(m) then []
    else [Bare(m)] + (if Calling(m) then MediaMessage(media, Answered(all, m.calls)) else [])
  }

  function LeftOf(all: seq<Message>, ms: seq<Message>, media: Media): seq<Message> {
    if ms == [] then [] else LeftOf(all, Init(ms), media) + Left(all, Last(ms), media)
  }

  lemma MediaMessageKept(media: Media, ts: seq<ToolCall>)
    ensures Others(MediaMessage(media, ts)) == MediaMessage(media, ts) && CallsIn(MediaMessage(media, ts)) == []
    ensures ts == [] ==> MediaMessage(media, ts) == []
  {
    NothingInNothing();
    assert MediaParts(media, []) == [];
    hide MediaParts, Others, CallsIn;
    assert USER[0] != TOOL[0];
    SingleOthers(Message(USER, Parts(MediaParts(media, ts)), "", [], ""));
  }

  lemma AnsweredKeeps(all: seq<Message>, m: Message, media: Media)
    requires Calling(m) && Answered(all, m.calls) != []
    ensures var r := Rebuilt(all, m, media);
            Others(r) == [Bare(m)] + MediaMessage(media, Answered(all, m.calls)) && CallsIn(r) == Answered(all, m.calls)
  {
    hide Answered, LastReply, IsAnswered, RepliesTo, MediaMessage, Others, CallsIn;
    var kept := Answered(all, m.calls);
    RepliesAnswer(all, kept);
    BlockOthers(m.(calls := kept), RepliesTo(all, kept));
    MediaMessageKept(media, kept);
    OthersAppend([m.(calls := kept)] + RepliesTo(all, kept), MediaMessage(media, kept));
  }

  lemma RebuiltKeeps(all: seq<Message>, m: Message, media: Media)
    ensures Others(Rebuilt(all, m, media)) == Left(all, m, media)
    ensures CallsIn(Rebuilt(all, m, media)) == if m.role == TOOL then [] else Answered(all, m.calls)
  {
    assert Answered(all, []) == [];
    hide Dangling, Answered, LastReply, Others, CallsIn, RepliesTo, MediaMessage;
    DanglingWhenNone(all, m);
    NothingInNothing();
    MediaMessageKept(media, []);
    if Calling(m) && Answered(all, m.calls) != [] {
      AnsweredKeeps(all, m, media);
    } else {
      SingleOthers(m);
      SingleOthers(m.(calls := []));
    }
  }

  lemma NothingInNothing()
    ensures Others([]) == [] && CallsIn([]) == []
  {
  }

  lemma {:induction false} AnsweredAppend(all: seq<Message>, a: seq<ToolCall>, b: seq<ToolCall>)
    ensures Answered(all, a + b) == Answered(all, a) + Answered(all, b)
  {
    if b == [] {
      assert a + b == a;
    } else {
      assert Init(a + b) == a + Init(b);
      AnsweredAppend(all, a, Init(b));
    }
  }

  lemma {:induction false} RebuiltAllKeeps(all: seq<Message>, ms: seq<Message>, media: Media)
    ensures Others(RebuiltAll(all, ms, media)) == LeftOf(all, ms, media)
    ensures CallsIn(RebuiltAll(all, ms, media)) == Answered(all, CallsIn(ms))
  {
    hide Rebuilt, Left, IsAnswered;
    if ms != [] {
      var before, m := Init(ms), Last(ms);
      RebuiltAllKeeps(all, before, media);
      RebuiltKeeps(all, m, media);
      OthersAppend(RebuiltAll(all, before, media), Rebuilt(all, m, media));
      AnsweredAppend(all, CallsIn(before), if m.role == TOOL then [] else m.calls);
    }
  }

  /** Nothing else is touched: messages that are no replies keep their content and
      order, except those that only made calls nobody answered; the media taken out
      of outputs follow as a message of the user, right after the message whose
      calls they answer and its replies; and of the calls exactly the answered ones
      are left, in order. */
  lemma NormalizedKeeps(ms: seq<Message>, media: Media)
    ensures Others(Normalized(ms, media)) == LeftOf(ms, ms, media)
    ensures CallsIn(Normalized(ms, media)) == Answered(ms, CallsIn(ms))
  {
    RebuiltAllKeeps(ms, ms, media);
  }

  // ----- Images, as a reader of the messages finds them -----

  function UrlsOf(ps: seq<Part>): seq<string> {
    if ps == [] then [] else UrlsOf(Init(ps)) + (if Last(ps).ImagePart? then [Last(ps).url] else [])
  }

  function ImagesOf(c: Content): seq<string> {
    if c.Parts? then UrlsOf(c.parts) else []
  }

  function ImagesIn(ms: seq<Message>): seq<string> {
    if ms == [] then [] else ImagesIn(Init(ms)) + ImagesOf(Last(ms).content)
  }

  /** The images that were taken out of the outputs of these calls. */
  function MediaImages(media: Media, ts: seq<ToolCall>): seq<string> {
    if ts == [] then []
    else MediaImages(media, Init(ts)) + (if Last(ts).id in media then UrlsOf(media[Last(ts).id]) else [])
  }

  function ReplyImages(all: seq<Message>, ts: seq<ToolCall>): seq<string>
    requires EachAnswered(all, ts)
  {
    if ts == [] then []
    else
      assert IsAnswered(all, Last(ts));
      ReplyImages(all, Init(ts)) + ImagesOf(LastReply(all, Last(ts).id).value.content)
  }

  /** The images a message of the history accounts for: its own, those of the replies
      to its answered calls, and those taken out of their outputs. */
  function ImagesFor(all: seq<Message>, m: Message, media: Media): seq<string> {
    if IsReply(m) || Dangling(all, m) then []
    else
      var kept := if Calling(m) then Answered(all, m.calls) else [];
      ImagesOf(m.content) + ReplyImages(all, kept) + MediaImages(media, kept)
  }

  function ImagesForAll(all: seq<Message>, ms: seq<Message>, media: Media): seq<string> {
    if ms == [] then [] else ImagesForAll(all, Init(ms), media) + ImagesFor(all, Last(ms), media)
  }

  lemma {:induction false} UrlsAppend(a: seq<Part>, b: seq<Part>)
    ensures UrlsOf(a + b) == UrlsOf(a) + UrlsOf(b)
  {
    if b == [] {
      assert a + b == a;
    } else {
      assert Init(a + b) == a + Init(b);
      UrlsAppend(a, Init(b));
    }
  }

  lemma {:induction false} ImagesAppend(a: seq<Message>, b: seq<Message>)
    ensures ImagesIn(a + b) == ImagesIn(a) + ImagesIn(b)
  {
    hide ImagesOf;
    if b == [] {
      assert a + b == a;
    } else {
      assert Init(a + b) == a + Init(b);
      ImagesAppend(a, Init(b));
    }
  }

  lemma SingleImages(m: Message)
    ensures ImagesIn([m]) == ImagesOf(m.content)
  {
    assert Init([m]) == [] && ImagesIn([]) == [];
  }

  /** The media of one call go under a text that names it. */
  lemma MediaForTells(media: Media, id: string)
    ensures var ps := MediaFor(media, id);
            if id in media && media[id] != [] then
              ps == [TextPart("[Tool output media for call " + id + "]")] + media[id] && UrlsOf(ps) == UrlsOf(media[id])
            else ps == [] && (id in media ==> UrlsOf(media[id]) == [])
  {
    if id in media && media[id] != [] {
      var heading := TextPart("[Tool output media for call " + id + "]");
      assert MediaFor(media, id) == [heading] + media[id];
      assert Init([heading]) == [] && UrlsOf([]) == [];
      UrlsAppend([heading], media[id]);
    }
  }

  lemma {:induction false} MediaPartsImages(media: Media, ts: seq<ToolCall>)
    ensures UrlsOf(MediaParts(media, ts)) == MediaImages(media, ts)
    ensures ImagesIn(MediaMessage(media, ts)) == MediaImages(media, ts)
  {
    if ts != [] {
      hide MediaFor;
      MediaPartsImages(media, Init(ts));
      MediaForTells(media, Last(ts).id);
      UrlsAppend(MediaParts(media, Init(ts)), MediaFor(media, Last(ts).id));
    }
    SingleImages(Message(USER, Parts(MediaParts(media, ts)), "", [], ""));
  }

  lemma {:induction false} RepliesImages(all: seq<Message>, ts: seq<ToolCall>)
    requires EachAnswered(all, ts)
    ensures ImagesIn(RepliesTo(all, ts)) == ReplyImages(all, ts)
  {
    if ts != [] {
      hide LastReply;
      RepliesImages(all, Init(ts));
      assert IsAnswered(all, ts[|ts| - 1]);
      InitOfSnoc(RepliesTo(all, Init(ts)), LastReply(all, Last(ts).id).value);
    }
  }

  lemma RebuiltImages(all: seq<Message>, m: Message, media: Media)
    ensures ImagesIn(Rebuilt(all, m, media)) == ImagesFor(all, m, media)
  {
    assert Answered(all, []) == [] && MediaImages(media, []) == [] && ReplyImages(all, []) == [];
    hide Dangling, Answered, LastReply, RepliesTo, MediaMessage, ReplyImages, MediaImages, ImagesOf;
    DanglingWhenNone(all, m);
    assert ImagesIn([]) == [];
    SingleImages(m);
    SingleImages(m.(calls := []));
    var kept := Answered(all, m.calls);
    if Calling(m) && kept != [] {
      SingleImages(m.(calls := kept));
      RepliesImages(all, kept);
      MediaPartsImages(media, kept);
      ImagesAppend([m.(calls := kept)], RepliesTo(all, kept));
      ImagesAppend([m.(calls := kept)] + RepliesTo(all, kept), MediaMessage(media, kept));
    }
  }

  lemma {:induction false} RebuiltAllImages(all: seq<Message>, ms: seq<Message>, media: Media)
    ensures ImagesIn(RebuiltAll(all, ms, media)) == ImagesForAll(all, ms, media)
  {
    if ms != [] {
      hide Rebuilt, ImagesFor;
      RebuiltAllImages(all, Init(ms), media);
      RebuiltImages(all, Last(ms), media);
      ImagesAppend(RebuiltAll(all, Init(ms), media), Rebuilt(all, Last(ms), media));
    }
  }

  /** Images are conserved: what goes out holds, in order, the images of every message
      that is kept, of the replies to its answered calls, and of the media taken out
      of the outputs of those calls, each once for each call. */
  lemma NormalizedImages(ms: seq<Message>, media: Media)
    ensures ImagesIn(Normalized(ms, media)) == ImagesForAll(ms, ms, media)
  {
    RebuiltAllImages(ms, ms, media);
  }

  predicate StandsAt(all: seq<Part>, i: nat, ps: seq<Part>) {
    i + |ps| <= |all| && all[i..i + |ps|] == ps
  }

  /** These parts stand somewhere in a message of the user. */
  ghost predicate Carries(m: Message, ps: seq<Part>) {
    m.role == "user" && m.content.Parts? && exists i: nat :: StandsAt(m.content.parts, i, ps)
  }

  lemma {:induction false} MediaPartsCarry(media: Media, ts: seq<ToolCall>, t: ToolCall)
    requires t in ts
    ensures exists i: nat :: StandsAt(MediaParts(media, ts), i, MediaFor(media, t.id))
  {
    hide MediaFor;
    var ps, before := MediaFor(media, t.id), MediaParts(media, Init(ts));
    assert MediaParts(media, ts) == before + MediaFor(media, Last(ts).id);
    if Last(ts) == t {
      assert StandsAt(before + ps, |before|, ps);
    } else {
      MediaPartsCarry(media, Init(ts), t);
      var i: nat :| StandsAt(before, i, ps);
      assert StandsAt(before + MediaFor(media, Last(ts).id), i, ps);
    }
  }

  lemma {:induction false} RebuiltIn(all: seq<Message>, ms: seq<Message>, media: Media, m: Message, x: Message)
    requires m in ms && x in Rebuilt(all, m, media)
    ensures x in RebuiltAll(all, ms, media)
  {
    hide Rebuilt;
    if Last(ms) != m {
      RebuiltIn(all, Init(ms), media, m, x);
    }
  }

  lemma {:induction false} AnsweredIn(all: seq<Message>, ts: seq<ToolCall>, t: ToolCall)
    requires t in ts && IsAnswered(all, t)
    ensures t in Answered(all, ts)
  {
    hide IsAnswered;
    if Last(ts) != t {
      AnsweredIn(all, Init(ts), t);
    }
  }

  /** The media of an answered call go out in a message of the user, all together and
      right behind a text that names the call. */
  lemma MediaUnderItsCall(ms: seq<Message>, media: Media, m: Message, t: ToolCall)
    requires m in ms && m.role != TOOL && t in m.calls && IsAnswered(ms, t) && t.id in media && media[t.id] != []
    ensures exists u | u in Normalized(ms, media) ::
              Carries(u, [TextPart("[Tool output media for call " + t.id + "]")] + media[t.id])
  {
    hide IsAnswered, LastReply, MediaFor, MediaParts, Carries, Normalized, Answered, Rebuilt, UrlsOf;
    var kept := Answered(ms, m.calls);
    AnsweredIn(ms, m.calls, t);
    MediaForTells(media, t.id);
    MediaPartsCarry(media, kept, t);
    var i: nat :| StandsAt(MediaParts(media, kept), i, MediaFor(media, t.id));
    assert MediaParts(media, kept) != [];
    var u := Message(USER, Parts(MediaParts(media, kept)), "", [], "");
    assert u in Rebuilt(ms, m, media) by { MediaMessageStands(ms, m, media); }
    assert u in Normalized(ms, media) by { InNormalized(ms, media, m, u); }
    CarriesParts(u, i, MediaFor(media, t.id));
  }

  lemma MediaMessageStands(all: seq<Message>, m: Message, media: Media)
    requires Calling(m) && Answered(all, m.calls) != [] && MediaParts(media, Answered(all, m.calls)) != []
    ensures Message(USER, Parts(MediaParts(media, Answered(all, m.calls))), "", [], "") in Rebuilt(all, m, media)
  {
    hide Answered, RepliesTo, MediaParts;
  }

  lemma InNormalized(ms: seq<Message>, media: Media, m: Message, x: Message)
    requires m in ms && x in Rebuilt(ms, m, media)
    ensures x in Normalized(ms, media)
  {
    hide Rebuilt;
    RebuiltIn(ms, ms, media, m, x);
  }

  lemma CarriesParts(m: Message, i: nat, ps: seq<Part>)
    requires m.role == USER && m.content.Parts? && StandsAt(m.content.parts, i, ps)
    ensures Carries(m, ps)
  {
  }
}
