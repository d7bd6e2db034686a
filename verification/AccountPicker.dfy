/** The account picker of the gateway (engine/gateway/picker.go). Each method that
    holds the lock throughout is one atomic step; PickWithSession takes the lock
    three times and is three steps. */
module AccountPicker {
  import opened Common

  const MAX_CONCURRENCY := 2
  const RATE_LIMIT_COOLDOWN := 30 * 60
  const NETWORK_COOLDOWN := 5 * 60
  const STICKY_TTL := 30 * 60
  const ALL_ACCOUNTS := "__all__"

  /** An account as stored; times are seconds. */
  datatype Account = Account(
    id: string, group: string, token: string, banned: bool, rateLimited: Option<int>, unschedulable: Option<int>,
    remaining: Option<int>)

  datatype Bind = Bind(account: string, at: int)

  /** The picker's maps. An id that is not in `running` counts 0. */
  datatype State = State(
    running: map<string, int>, cooldown: map<string, int>, forbidden: set<string>, roundRobin: nat,
    sticky: map<string, Bind>, stickyN: nat)

  const FRESH := State(map[], map[], {}, 0, map[], 0)

  function Load(s: State, id: string): int {
    if id in s.running then s.running[id] else 0
  }

  predicate Later(until: Option<int>, now: int) {
    until.Some? && now < until.value
  }

  /** accountHealthy */
  predicate Healthy(s: State, a: Account, now: int) {
    && !IsBlank(a.token) && !a.banned && !Later(a.rateLimited, now) && !Later(a.unschedulable, now)
    && !(a.remaining.Some? && a.remaining.value <= 0)
    && a.id !in s.forbidden && !(a.id in s.cooldown && now < s.cooldown[a.id])
    && Load(s, a.id) < MAX_CONCURRENCY
  }

  predicate Eligible(s: State, a: Account, group: string, now: int) {
    (group == ALL_ACCOUNTS || a.group == group) && Healthy(s, a, now)
  }

  function Candidates(s: State, list: seq<Account>, group: string, now: int): (r: seq<Account>)
    ensures forall a :: a in r <==> a in list && Eligible(s, a, group, now)
  {
    if list == [] then []
    else
      assert list == Init(list) + [Last(list)];
      Candidates(s, Init(list), group, now) + (if Eligible(s, Last(list), group, now) then [Last(list)] else [])
  }

  /** The i-th candidate in rotation order. */
  function Turn(cs: seq<Account>, start: nat, i: nat): Account
    requires cs != []
  {
    cs[(start + i) % |cs|]
  }

  /** A candidate with minimal load, and the first such in rotation order. */
  predicate FairChoice(s: State, cs: seq<Account>, start: nat, a: Account) {
    cs != [] &&
    exists i: nat | i < |cs| ::
      Turn(cs, start, i) == a &&
      (forall j: nat | j < |cs| :: Load(s, a.id) <= Load(s, Turn(cs, start, j).id)) &&
      (forall j: nat | j < i :: Load(s, a.id) < Load(s, Turn(cs, start, j).id))
  }

  // ----- Steps -----

  function Taken(s: State, id: string): State {
    s.(running := s.running[id := Load(s, id) + 1])
  }

  /** Pick: nobody is eligible and nothing changes, or a fair choice is taken. */
  predicate PickStep(s: State, list: seq<Account>, group: string, now: int, picked: Option<Account>, t: State) {
    var cs := Candidates(s, list, group, now);
    match picked
    case None => cs == [] && t == s
    case Some(a) =>
      FairChoice(s, cs, s.roundRobin, a) && t == Taken(s, a.id).(roundRobin := s.roundRobin + 1)
  }

  /** What a pick without a bound account comes to: nobody, when there is no list or
      no candidate in it, or the fair choice. */
  predicate PickChoice(s: State, list: Option<seq<Account>>, group: string, now: int, picked: Option<Account>) {
    match picked
    case None => list.None? || Candidates(s, list.value, group, now) == []
    case Some(a) => list.Some? && FairChoice(s, Candidates(s, list.value, group, now), s.roundRobin, a)
  }

  /** The session is bound to an account that is in the list and healthy. */
  predicate BoundIn(s: State, session: string, list: Option<seq<Account>>, now: int) {
    && !IsBlank(session) && session in s.sticky && list.Some?
    && exists a | a in list.value :: a.id == s.sticky[session].account && Healthy(s, a, now)
  }

  function Expired(s: State, now: int): State {
    s.(sticky := map k | k in s.sticky && now - s.sticky[k].at <= STICKY_TTL :: s.sticky[k])
  }

  function Unbound(s: State, session: string): State {
    s.(sticky := s.sticky - {session})
  }

  function Counted(s: State, now: int): State {
    var c := s.(stickyN := s.stickyN + 1);
    if c.stickyN % 50 == 0 then Expired(c, now) else c
  }

  function Bound(s: State, session: string, id: string, now: int): State {
    s.(sticky := s.sticky[session := Bind(id, now)])
  }

  /** The first locked part of PickWithSession: the bound account is taken if it is
      in the list and healthy, in whatever group; otherwise the binding is dropped. */
  predicate SessionStep(s: State, session: string, list: seq<Account>, now: int, picked: Option<Account>, t: State) {
    match picked
    case Some(a) =>
      session in s.sticky && a in list && a.id == s.sticky[session].account && Healthy(s, a, now) &&
      t == Bound(Taken(s, a.id), session, a.id, now)
    case None =>
      (session in s.sticky ==> forall a | a in list && a.id == s.sticky[session].account :: !Healthy(s, a, now)) &&
      t == Counted(Unbound(s, session), now)
  }

  function Released(s: State, id: string): State {
    if Load(s, id) > 0 then s.(running := s.running[id := Load(s, id) - 1]) else s
  }

  /** What RecordFailure makes of a status code and message. */
  datatype Verdict = Forbidden | RateLimited | Network | Harmless

  function Failed(s: State, id: string, v: Verdict, now: int): State {
    match v
    case Forbidden => s.(forbidden := s.forbidden + {id}, cooldown := s.cooldown - {id})
    case RateLimited => s.(cooldown := s.cooldown[id := now + RATE_LIMIT_COOLDOWN])
    case Network => s.(cooldown := s.cooldown[id := now + NETWORK_COOLDOWN])
    case Harmless => s
  }

  predicate Contains(s: string, part: string) {
    exists i | 0 <= i <= |s| :: part <= s[i..]
  }

  lemma ContainsTells(s: string, part: string)
    ensures Contains(s, part) <==> exists a: string, b: string :: s == a + (part + b)
  {
    if Contains(s, part) {
      var i :| 0 <= i <= |s| && part <= s[i..];
      var a, b := s[..i], s[i..][|part|..];
      assert s[i..] == part + b;
      assert s == a + (part + b);
    }
    if a: string, b: string :| s == a + (part + b) {
      assert s[|a|..] == part + b;
    }
  }

  function VerdictOf(status: int, message: string, lower: string -> string): Verdict {
    if status == 403 || Contains(lower(message), "forbidden") then Forbidden
    else if status == 429 || Contains(lower(message), "rate limit") then RateLimited
    else if message != "" then Network
    else Harmless
  }

  predicate Bounded(s: State) {
    forall id | id in s.running :: 0 <= s.running[id] <= MAX_CONCURRENCY
  }

  class Picker {
    var running: map<string, int>
    var cooldown: map<string, int>
    var forbidden: set<string>
    var roundRobin: nat
    var sticky: map<string, Bind>
    var stickyN: nat

    ghost function Now(): State
      reads this
    {
      State(running, cooldown, forbidden, roundRobin, sticky, stickyN)
    }

    constructor ()
      ensures Now() == FRESH
    {
      running, cooldown, forbidden, roundRobin, sticky, stickyN := map[], map[], {}, 0, map[], 0;
    }

    method RunningOf(id: string) returns (n: int)
      ensures n == Load(Now(), id)
    {
      n := if id in running then running[id] else 0;
    }

    /** accountHealthy: a token, no ban, no limit that still runs, some quota, neither
        forbidden nor cooling down, and fewer than two requests in progress. */
    method AccountHealthy(a: Account, now: int) returns (ok: bool)
      ensures ok == Healthy(Now(), a, now)
      ensures ok <==> !IsBlank(a.token) && !a.banned
                      && (a.rateLimited.Some? ==> a.rateLimited.value <= now)
                      && (a.unschedulable.Some? ==> a.unschedulable.value <= now)
                      && (a.remaining.Some? ==> a.remaining.value > 0)
                      && a.id !in forbidden && (a.id in cooldown ==> cooldown[a.id] <= now)
                      && (a.id in running ==> running[a.id] < 2)
    {
      if IsBlank(a.token) || a.banned || Later(a.rateLimited, now) || Later(a.unschedulable, now) {
        return false;
      }
      if a.remaining.Some? && a.remaining.value <= 0 {
        return false;
      }
      if a.id in forbidden {
        return false;
      }
      if a.id in cooldown && now < cooldown[a.id] {
        return false;
      }
      var n := RunningOf(a.id);
      ok := n < MAX_CONCURRENCY;
    }

    /** The loop that collects the candidates. */
    method Collect(list: seq<Account>, group: string, now: int) returns (candidates: seq<Account>)
      ensures candidates == Candidates(Now(), list, group, now)
    {
      hide Healthy;
      candidates := [];
      var all := group == ALL_ACCOUNTS;
      for i := 0 to |list|
        invariant candidates == Candidates(Now(), list[..i], group, now)
      {
        var a := list[i];
        assert Init(list[..i + 1]) == list[..i] && Last(list[..i + 1]) == a;
        if !all && a.group != group {
          continue;
        }
        var ok := AccountHealthy(a, now);
        if !ok {
          continue;
        }
        candidates := candidates + [a];
      }
      assert list[..|list|] == list;
    }

    /** The loop that looks for the least loaded candidate. */
    method LeastLoaded(candidates: seq<Account>, start: nat) returns (best: Account)
      requires candidates != [] && start < |candidates|
      ensures FairChoice(Now(), candidates, start, best)
    {
      best := candidates[start];
      var bestLoad := RunningOf(best.id);
      ghost var at := 0;
      assert Turn(candidates, start, 0) == best;
      var i := 1;
      while i < |candidates|
        invariant 1 <= i <= |candidates| && at < i
        invariant best == Turn(candidates, start, at) && bestLoad == Load(Now(), best.id)
        invariant forall j: nat | j < i :: bestLoad <= Load(Now(), Turn(candidates, start, j).id)
        invariant forall j: nat | j < at :: bestLoad < Load(Now(), Turn(candidates, start, j).id)
      {
        var idx := (start + i) % |candidates|;
        assert Turn(candidates, start, i) == candidates[idx];
        var load := RunningOf(candidates[idx].id);
        if load < bestLoad {
          best := candidates[idx];
          bestLoad := load;
          at := i;
        }
        i := i + 1;
      }
    }

    /** Pick, from the list on. */
    method Pick(list: seq<Account>, group: string, now: int) returns (picked: Option<Account>)
      modifies `running, `roundRobin
      ensures PickStep(old(Now()), list, group, now, picked, Now())
    {
      hide Candidates, FairChoice;
      var candidates := Collect(list, group, now);
      if |candidates| == 0 {
        return None;
      }
      var start := roundRobin % |candidates|;
      var best := LeastLoaded(candidates, start);
      SameRotation(Now(), candidates, roundRobin, best);
      roundRobin := roundRobin + 1;
      var n := RunningOf(best.id);
      running := running[best.id := n + 1];
      picked := Some(best);
    }

    /** The first locked part of PickWithSession. */
    method PickBound(session: string, list: seq<Account>, now: int) returns (picked: Option<Account>)
      modifies `running, `sticky, `stickyN
      ensures SessionStep(old(Now()), session, list, now, picked, Now())
      ensures picked.Some? ==> sticky == old(sticky)[session := Bind(picked.value.id, now)] && stickyN == old(stickyN)
      ensures picked.None? ==> running == old(running) && stickyN == old(stickyN) + 1
      ensures picked.None? ==>
                forall k :: (k in sticky) == (k in old(sticky) && k != session &&
                                              (stickyN % 50 == 0 ==> now - old(sticky)[k].at <= 1800))
      ensures picked.None? ==> forall k | k in sticky :: sticky[k] == old(sticky)[k]
    {
      hide Healthy;
      if session in sticky {
        var b := sticky[session];
        for i := 0 to |list|
          invariant Now() == old(Now())
          invariant forall k | 0 <= k < i && list[k].id == b.account :: !Healthy(Now(), list[k], now)
        {
          if list[i].id == b.account {
            var ok := AccountHealthy(list[i], now);
            if ok {
              var n := RunningOf(list[i].id);
              running := running[list[i].id := n + 1];
              sticky := sticky[session := b.(at := now)];
              return Some(list[i]);
            }
          }
        }
        sticky := sticky - {session};
      }
      assert sticky == old(sticky) - {session};
      stickyN := stickyN + 1;
      if stickyN % 50 == 0 {
        sticky := map k | k in sticky && now - sticky[k].at <= STICKY_TTL :: sticky[k];
      }
      picked := None;
    }

    /** The last locked part of PickWithSession. */
    method BindSession(session: string, id: string, now: int)
      modifies `sticky
      ensures Now() == Bound(old(Now()), session, id, now)
      ensures sticky == old(sticky)[session := Bind(id, now)]
    {
      sticky := sticky[session := Bind(id, now)];
    }

    method Release(id: string)
      modifies `running
      ensures Now() == Released(old(Now()), id)
      ensures running == if id in old(running) && old(running)[id] > 0 then old(running)[id := old(running)[id] - 1]
                         else old(running)
    {
      var n := RunningOf(id);
      if n > 0 {
        running := running[id := n - 1];
      }
    }

    /** RecordFailure, without storing the account's new state. */
    method RecordFailure(id: string, status: int, message: string, lower: string -> string, now: int)
      modifies `forbidden, `cooldown
      ensures Now() == Failed(old(Now()), id, VerdictOf(status, message, lower), now)
      ensures var denied := status == 403 || Contains(lower(message), "forbidden");
              var limited := status == 429 || Contains(lower(message), "rate limit");
              && forbidden == (if denied then old(forbidden) + {id} else old(forbidden))
              && cooldown == (if denied then old(cooldown) - {id}
                              else if limited then old(cooldown)[id := now + 1800]
                              else if message != "" then old(cooldown)[id := now + 300]
                              else old(cooldown))
    {
      if status == 403 || Contains(lower(message), "forbidden") {
        forbidden := forbidden + {id};
        cooldown := cooldown - {id};
      } else if status == 429 || Contains(lower(message), "rate limit") {
        cooldown := cooldown[id := now + RATE_LIMIT_COOLDOWN];
      } else if message != "" {
        cooldown := cooldown[id := now + NETWORK_COOLDOWN];
      }
    }

    /** PickWithSession with nobody in between. `lists` and `times` are what the two
        reads of the account list and the three of the clock give; a list that
        cannot be read is None. With a session, an error is reported only when the
        first list cannot be read: when nobody can be picked the result is an empty
        entry without an error. */
    method PickWithSession(
      session: string, group: string, lists: (Option<seq<Account>>, Option<seq<Account>>), times: (int, int, int))
      returns (picked: Option<Account>, error: bool)
      modifies `running, `roundRobin, `sticky, `stickyN
      ensures error <==> if IsBlank(session) then picked.None? else session in old(sticky) && lists.0.None?
      ensures error ==> picked.None?
      ensures picked.Some? && !IsBlank(session) ==> session in sticky && sticky[session].account == picked.value.id
      ensures picked.Some? ==> picked.value.id !in forbidden
      ensures if BoundIn(old(Now()), session, lists.0, times.0)
              then picked.Some? && picked.value in lists.0.value && picked.value.id == old(sticky)[session].account &&
                   Healthy(old(Now()), picked.value, times.0)
              else PickChoice(old(Now()), if error && !IsBlank(session) then None else lists.1, group, times.1, picked)
      ensures picked.Some? && !BoundIn(old(Now()), session, lists.0, times.0) ==>
                lists.1.Some? && picked.value in lists.1.value && Eligible(old(Now()), picked.value, group, times.1)
      ensures Bounded(old(Now())) ==> Bounded(Now())
    {
      hide Candidates, FairChoice, Healthy, Bounded, Expired;
      picked, error := None, false;
      if IsBlank(session) {
        if lists.1.None? {
          return None, true;
        }
        ghost var s := Now();
        picked := Pick(lists.1.value, group, times.1);
        PickKeeps(s, lists.1.value, group, times.1, picked, Now());
        return picked, picked.None?;
      }
      if session in sticky && lists.0.None? {
        return None, true;
      }
      ghost var s := Now();
      var first := if lists.0.Some? then lists.0.value else [];
      picked := PickBound(session, first, times.0);
      SessionKeeps(s, session, first, times.0, picked, Now());
      if picked.Some? {
        return;
      }
      if lists.1.Some? {
        ghost var t := Now();
        BindingsIgnored(s, t, lists.1.value, group, times.1);
        picked := Pick(lists.1.value, group, times.1);
        PickKeeps(t, lists.1.value, group, times.1, picked, Now());
        if picked.Some? {
          ghost var u := Now();
          BindSession(session, picked.value.id, times.2);
          SameRunning(u, Now());
        }
      }
    }
  }

  lemma SameRotation(s: State, cs: seq<Account>, start: nat, a: Account)
    requires cs != [] && FairChoice(s, cs, start % |cs|, a)
    ensures FairChoice(s, cs, start, a)
  {
    forall i: nat ensures Turn(cs, start % |cs|, i) == Turn(cs, start, i) {
      SameTurn(start, i, |cs|);
    }
    var i: nat :| i < |cs| && Turn(cs, start % |cs|, i) == a &&
                  (forall j: nat | j < |cs| :: Load(s, a.id) <= Load(s, Turn(cs, start % |cs|, j).id)) &&
                  (forall j: nat | j < i :: Load(s, a.id) < Load(s, Turn(cs, start % |cs|, j).id));
    assert Turn(cs, start, i) == a;
  }

  lemma ModUnique(x: int, q: int, r: int, n: int)
    requires n > 0 && x == q * n + r && 0 <= r < n
    ensures x % n == r
  {
    var d := x / n - q;
    assert d * n == r - x % n;
    Multiple(d, n);
  }

  lemma Multiple(d: int, n: int)
    requires n > 0
    ensures d > 0 ==> d * n >= n
    ensures d < 0 ==> d * n <= -n
  {
  }

  lemma SameTurn(start: nat, i: nat, n: nat)
    requires n > 0
    ensures (start % n + i) % n == (start + i) % n
  {
    var q, m := start / n, start % n + i;
    assert start + i == (q + m / n) * n + m % n;
    ModUnique(start + i, q + m / n, m % n, n);
  }

  /** Candidates and choice do not look at the bindings. */
  lemma {:induction false} BindingsIgnored(s: State, t: State, list: seq<Account>, group: string, now: int)
    requires t.(sticky := s.sticky, stickyN := s.stickyN) == s
    ensures Candidates(t, list, group, now) == Candidates(s, list, group, now)
    ensures forall cs, start, a :: FairChoice(t, cs, start, a) <==> FairChoice(s, cs, start, a)
  {
    assert forall id :: Load(t, id) == Load(s, id);
    if list != [] {
      BindingsIgnored(s, t, Init(list), group, now);
    }
  }

  lemma SameRunning(s: State, t: State)
    requires t.running == s.running
    ensures Bounded(s) <==> Bounded(t)
  {
  }

  // ----- What every step keeps -----

  ghost predicate SameBut(s: State, t: State, id: string, n: int) {
    Load(t, id) == n && (forall k | k != id :: Load(t, k) == Load(s, k))
  }

  lemma TakenKeeps(s: State, id: string)
    requires Load(s, id) < MAX_CONCURRENCY
    ensures Bounded(s) ==> Bounded(Taken(s, id))
    ensures SameBut(s, Taken(s, id), id, Load(s, id) + 1)
  {
  }

  lemma FairIsCandidate(s: State, cs: seq<Account>, start: nat, a: Account)
    requires FairChoice(s, cs, start, a)
    ensures a in cs
  {
  }

  /** A plain pick takes an eligible account of the group and keeps the bounds. */
  lemma PickKeeps(s: State, list: seq<Account>, group: string, now: int, picked: Option<Account>, t: State)
    requires PickStep(s, list, group, now, picked, t)
    ensures Bounded(s) ==> Bounded(t)
    ensures t.forbidden == s.forbidden && t.sticky == s.sticky
    ensures picked.Some? ==>
              picked.value in list && Eligible(s, picked.value, group, now) && picked.value.id !in s.forbidden &&
              SameBut(s, t, picked.value.id, Load(s, picked.value.id) + 1)
    ensures picked.None? ==> t == s && forall a | a in list :: !Eligible(s, a, group, now)
  {
    var cs := Candidates(s, list, group, now);
    if picked.Some? {
      FairIsCandidate(s, cs, s.roundRobin, picked.value);
      TakenKeeps(s, picked.value.id);
      hide Candidates, FairChoice;
      SameRunning(Taken(s, picked.value.id), t);
    }
  }

  lemma ExpiredKeeps(s: State, now: int)
    ensures Expired(s, now).(sticky := s.sticky) == s
  {
  }

  /** A pick through a binding takes the bound account while it is healthy. */
  lemma SessionKeeps(s: State, session: string, list: seq<Account>, now: int, picked: Option<Account>, t: State)
    requires SessionStep(s, session, list, now, picked, t)
    ensures Bounded(s) ==> Bounded(t)
    ensures t.forbidden == s.forbidden
    ensures picked.Some? ==>
              picked.value in list && Healthy(s, picked.value, now) && picked.value.id !in s.forbidden &&
              session in t.sticky && t.sticky[session].account == picked.value.id &&
              SameBut(s, t, picked.value.id, Load(s, picked.value.id) + 1)
    ensures picked.None? ==> t.(sticky := s.sticky, stickyN := s.stickyN) == s && session !in t.sticky
  {
    hide Expired;
    if picked.Some? {
      TakenKeeps(s, picked.value.id);
    } else {
      ExpiredKeeps(Unbound(s, session).(stickyN := s.stickyN + 1), now);
      ExpiredShrinks(Unbound(s, session).(stickyN := s.stickyN + 1), now);
    }
  }

  lemma ExpiredShrinks(s: State, now: int)
    ensures Expired(s, now).sticky.Keys <= s.sticky.Keys
  {
  }

  // ----- Whole runs, steps interleaved in any way -----

  datatype Op =
    | PickOp(list: seq<Account>, group: string, now: int, picked: Option<Account>)
    | SessionOp(session: string, list: seq<Account>, now: int, picked: Option<Account>)
    | BindOp(session: string, id: string, now: int)
    | ReleaseOp(id: string)
    | FailOp(id: string, verdict: Verdict, now: int)

  predicate Next(s: State, op: Op, t: State) {
    match op
    case PickOp(list, group, now, picked) => PickStep(s, list, group, now, picked, t)
    case SessionOp(session, list, now, picked) => SessionStep(s, session, list, now, picked, t)
    case BindOp(session, id, now) => t == Bound(s, session, id, now)
    case ReleaseOp(id) => t == Released(s, id)
    case FailOp(id, verdict, now) => t == Failed(s, id, verdict, now)
  }

  /** The account a step hands out. */
  function PickedBy(op: Op): Option<string> {
    match op
    case PickOp(_, _, _, picked) => if picked.Some? then Some(picked.value.id) else None
    case SessionOp(_, _, _, picked) => if picked.Some? then Some(picked.value.id) else None
    case _ => None
  }

  ghost predicate IsRun(states: seq<State>, ops: seq<Op>) {
    |states| == |ops| + 1 && states[0] == FRESH && forall i | 0 <= i < |ops| :: Next(states[i], ops[i], states[i + 1])
  }

  lemma NextKeeps(s: State, op: Op, t: State)
    requires Next(s, op, t)
    ensures Bounded(s) ==> Bounded(t)
    ensures s.forbidden <= t.forbidden
    ensures PickedBy(op).Some? ==> PickedBy(op).value !in s.forbidden
    ensures op.FailOp? && op.verdict.Forbidden? ==> op.id in t.forbidden
  {
    hide Candidates, FairChoice, Expired, Healthy;
    match op
    case PickOp(list, group, now, picked) => PickKeeps(s, list, group, now, picked, t);
    case SessionOp(session, list, now, picked) => SessionKeeps(s, session, list, now, picked, t);
    case _ =>
  }

  /** In every reachable state each account serves between 0 and MAX_CONCURRENCY
      requests. */
  lemma {:induction false} AlwaysBounded(states: seq<State>, ops: seq<Op>, i: nat)
    requires IsRun(states, ops) && i < |states|
    ensures Bounded(states[i])
  {
    hide Next;
    if i > 0 {
      AlwaysBounded(states, ops, i - 1);
      NextKeeps(states[i - 1], ops[i - 1], states[i]);
    }
  }

  lemma {:induction false} ForbiddenStays(states: seq<State>, ops: seq<Op>, i: nat, j: nat)
    requires IsRun(states, ops) && i <= j < |states|
    ensures states[i].forbidden <= states[j].forbidden
  {
    hide Next;
    if i < j {
      ForbiddenStays(states, ops, i, j - 1);
      NextKeeps(states[j - 1], ops[j - 1], states[j]);
    }
  }

  /** An account marked forbidden is never handed out afterwards, by any step. */
  lemma ForbiddenNeverPicked(states: seq<State>, ops: seq<Op>, i: nat, j: nat)
    requires IsRun(states, ops) && i < j < |ops| && ops[i].FailOp? && ops[i].verdict.Forbidden?
    ensures PickedBy(ops[j]) != Some(ops[i].id)
  {
    hide Next;
    NextKeeps(states[i], ops[i], states[i + 1]);
    ForbiddenStays(states, ops, i + 1, j);
    NextKeeps(states[j], ops[j], states[j + 1]);
  }

  // ----- Cooling down -----

  /** The failure of this account, and for how long it cools down. */
  predicate CoolsDown(op: Op, id: string) {
    op.FailOp? && op.id == id && !op.verdict.Harmless?
  }

  function PickedAt(op: Op): int {
    match op
    case PickOp(_, _, now, _) => now
    case SessionOp(_, _, now, _) => now
    case _ => 0
  }

  lemma NextCooldown(s: State, op: Op, t: State, id: string)
    requires Next(s, op, t)
    ensures !CoolsDown(op, id) ==>
              (id in t.cooldown <==> id in s.cooldown) && (id in s.cooldown ==> t.cooldown[id] == s.cooldown[id])
    ensures PickedBy(op) == Some(id) && id in s.cooldown ==> PickedAt(op) >= s.cooldown[id]
    ensures CoolsDown(op, id) && op.verdict.RateLimited? ==> id in t.cooldown && t.cooldown[id] == op.now + 1800
    ensures CoolsDown(op, id) && op.verdict.Network? ==> id in t.cooldown && t.cooldown[id] == op.now + 300
  {
    hide Candidates, FairChoice, Expired;
    match op
    case PickOp(list, group, now, picked) => PickKeeps(s, list, group, now, picked, t);
    case SessionOp(session, list, now, picked) => SessionKeeps(s, session, list, now, picked, t);
    case _ =>
  }

  lemma {:induction false} CooldownStays(states: seq<State>, ops: seq<Op>, i: nat, j: nat, id: string)
    requires IsRun(states, ops) && i <= j < |states|
    requires forall k | i <= k < j :: !CoolsDown(ops[k], id)
    ensures (id in states[j].cooldown <==> id in states[i].cooldown) &&
            (id in states[i].cooldown ==> states[j].cooldown[id] == states[i].cooldown[id])
  {
    hide Next, CoolsDown;
    if i < j {
      CooldownStays(states, ops, i, j - 1, id);
      NextCooldown(states[j - 1], ops[j - 1], states[j], id);
    }
  }

  /** After a failure an account is not handed out before its time is up, half an hour
      after a rate limit and five minutes after another error, by any step, unless a
      later failure of the same account sets another time. */
  lemma CooldownRespected(states: seq<State>, ops: seq<Op>, i: nat, j: nat, id: string)
    requires IsRun(states, ops) && i < j < |ops| && CoolsDown(ops[i], id) && PickedBy(ops[j]) == Some(id)
    requires forall k | i < k < j :: !CoolsDown(ops[k], id)
    ensures !ops[i].verdict.Forbidden?
    ensures PickedAt(ops[j]) >= ops[i].now + (if ops[i].verdict.RateLimited? then 30 * 60 else 5 * 60)
  {
    hide Next;
    if ops[i].verdict.Forbidden? {
      ForbiddenNeverPicked(states, ops, i, j);
    }
    NextCooldown(states[i], ops[i], states[i + 1], id);
    CooldownStays(states, ops, i + 1, j, id);
    NextCooldown(states[j], ops[j], states[j + 1], id);
  }

  function Picks(ops: seq<Op>, id: string): nat {
    if ops == [] then 0 else Picks(Init(ops), id) + (if PickedBy(Last(ops)) == Some(id) then 1 else 0)
  }

  function Releases(ops: seq<Op>, id: string): nat {
    if ops == [] then 0 else Releases(Init(ops), id) + (if Last(ops) == ReleaseOp(id) then 1 else 0)
  }

  lemma NextLoad(s: State, op: Op, t: State, id: string)
    requires Next(s, op, t)
    ensures Load(t, id)
            == Load(s, id) + (if PickedBy(op) == Some(id) then 1 else 0)
               - (if op == ReleaseOp(id) && Load(s, id) > 0 then 1 else 0)
  {
    hide Candidates, FairChoice, Expired, Healthy;
    match op
    case PickOp(list, group, now, picked) => PickKeeps(s, list, group, now, picked, t);
    case SessionOp(session, list, now, picked) => SessionKeeps(s, session, list, now, picked, t);
    case _ =>
  }

  /** Conservation: an account's count is its picks less its releases, as long as
      nobody releases more than was picked. */
  lemma {:induction false} LoadIsOutstanding(states: seq<State>, ops: seq<Op>, id: string, n: nat)
    requires IsRun(states, ops) && n <= |ops|
    requires forall i | 0 <= i <= n :: Releases(ops[..i], id) <= Picks(ops[..i], id)
    ensures Load(states[n], id) == Picks(ops[..n], id) - Releases(ops[..n], id)
  {
    hide Next;
    if n > 0 {
      LoadIsOutstanding(states, ops, id, n - 1);
      assert Init(ops[..n]) == ops[..n - 1] && Last(ops[..n]) == ops[n - 1];
      NextLoad(states[n - 1], ops[n - 1], states[n], id);
    }
  }

  /** A binding outlives a change of group: after a session's first pick its account is
      handed out again although the next request names another group. */
  lemma SessionIgnoresGroup(a: Account, session: string, now: int) returns (states: seq<State>, ops: seq<Op>)
    requires Healthy(FRESH, a, now)
    ensures IsRun(states, ops) && |ops| == 3
    ensures ops[0] == PickOp([a], a.group, now, Some(a)) && ops[1] == BindOp(session, a.id, now)
    ensures ops[2] == SessionOp(session, [a], now, Some(a))
    ensures forall group | group != ALL_ACCOUNTS && group != a.group :: !Eligible(states[2], a, group, now)
  {
    var taken := Taken(FRESH, a.id).(roundRobin := 1);
    var bound := Bound(taken, session, a.id, now);
    var again := Bound(Taken(bound, a.id), session, a.id, now);
    OnlyCandidate(a, now);
    states, ops := [FRESH, taken, bound, again],
      [PickOp([a], a.group, now, Some(a)), BindOp(session, a.id, now), SessionOp(session, [a], now, Some(a))];
    assert Next(states[0], ops[0], states[1]) && Next(states[1], ops[1], states[2]) && Next(states[2], ops[2], states[3]);
  }

  lemma OnlyCandidate(a: Account, now: int)
    requires Healthy(FRESH, a, now)
    ensures Candidates(FRESH, [a], a.group, now) == [a] && FairChoice(FRESH, [a], 0, a)
  {
    assert Init([a]) == [] && Last([a]) == a;
    assert Candidates(FRESH, [], a.group, now) == [];
    assert Turn([a], 0, 0) == a;
  }
}
