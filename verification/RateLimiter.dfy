/** The sliding-window rate limiter over one sorted set per virtual key, and its rollback of rejected calls. */
module RateLimiter {
  /** `RATE_LIMIT_REQUESTS`, `RATE_LIMIT_WINDOW_SECONDS` and `RATE_LIMIT_FAIL_OPEN`. */
  datatype Settings = Settings(limit: nat, window: real, failOpen: bool)

  datatype Status = Status(allowed: bool, limit: nat, remaining: nat, window: real)

  /** A sorted set with its expiry; members are fresh random names, numbered here. */
  datatype SortedSet = SortedSet(scores: map<nat, real>, expires: real)

  const EMPTY := SortedSet(map[], 0.0)

  /** What the server still has of a set at time `at`. */
  function Present(s: SortedSet, at: real): map<nat, real> {
    if at < s.expires then s.scores else map[]
  }

  /** `ZREMRANGEBYSCORE key 0 until`. */
  function Pruned(scores: map<nat, real>, until: real): map<nat, real> {
    map m | m in scores && !(0.0 <= scores[m] <= until) :: scores[m]
  }

  /** The pipeline, executed by the server at time `at` for a call that read `clock` on its own clock. */
  function Pipeline(s: SortedSet, window: real, member: nat, clock: real, at: real): SortedSet {
    SortedSet(Pruned(Present(s, at), clock - window)[member := clock], at + window)
  }

  /**
   Afterwards the set holds the new call at its clock, and of what had not expired all but the scores from 0 to
   one window before that clock, unchanged; it expires one window later.
   */
  lemma PipelineSays(s: SortedSet, window: real, member: nat, clock: real, at: real, m: nat)
    ensures var after := Pipeline(s, window, member, clock, at);
      after.expires == at + window && member in after.scores && after.scores[member] == clock
      && (m != member ==>
            (m in after.scores <==>
               m in s.scores && at < s.expires && (s.scores[m] < 0.0 || clock - window < s.scores[m]))
            && (m in after.scores ==> after.scores[m] == s.scores[m]))
  {
  }

  function Verdict(settings: Settings, count: nat): Status {
    var allowed := count <= settings.limit;
    Status(allowed, settings.limit, if allowed then settings.limit - count else 0, settings.window)
  }

  /** With `count` calls in the window, this one included: what is left of the limit, or a rejection. */
  predicate Answers(settings: Settings, status: Status, count: nat) {
    && (status.allowed <==> count <= settings.limit)
    && (status.allowed ==> status.remaining + count == settings.limit)
    && (!status.allowed ==> status.remaining == 0)
    && status.limit == settings.limit && status.window == settings.window
  }

  /** Without an answer of Redis: open or closed as configured, with the full limit or nothing left. */
  predicate GivesUp(settings: Settings, status: Status) {
    && (status.allowed <==> settings.failOpen)
    && (settings.failOpen ==> status.remaining == settings.limit)
    && (!settings.failOpen ==> status.remaining == 0)
    && status.limit == settings.limit && status.window == settings.window
  }

  lemma OneAnswer(settings: Settings, status: Status, count: nat)
    ensures Answers(settings, status, count) <==> status == Verdict(settings, count)
  {
  }

  class Limiter {
    const settings: Settings
    var sets: map<int, SortedSet>

    constructor (settings: Settings)
      ensures this.settings == settings && sets == map[]
    {
      this.settings := settings;
      sets := map[];
    }

    function SetOf(keyId: int): SortedSet
      reads this
    {
      if keyId in sets then sets[keyId] else EMPTY
    }

    /**
     One check: `clock` is read by the caller, the pipeline runs on the server at time `at`. Redis may fail
     before or after it runs the pipeline, and the rollback of a rejected call may fail too.
     */
    method CheckRateLimitStatus(keyId: int, member: nat, clock: real, at: real,
                                served: bool, answered: bool, rolledBack: bool) returns (status: Status)
      modifies this
      ensures var after := Pipeline(old(SetOf(keyId)), settings.window, member, clock, at);
        sets == if !served then old(sets)
                else old(sets)[keyId :=
                  if answered && !status.allowed && rolledBack
                  then after.(scores := after.scores - {member}) else after]
      ensures var count := |Pipeline(old(SetOf(keyId)), settings.window, member, clock, at).scores|;
        if served && answered then Answers(settings, status, count) else GivesUp(settings, status)
    {
      if served {
        var s := SetOf(keyId);
        var scores := Present(s, at);
        scores := Pruned(scores, clock - settings.window);
        scores := scores[member := clock];
        sets := sets[keyId := SortedSet(scores, at + settings.window)];
      }
      if !served || !answered {
        var remaining := if settings.failOpen then settings.limit else 0;
        return Status(settings.failOpen, settings.limit, remaining, settings.window);
      }
      var count := |sets[keyId].scores|;
      var allowed := count <= settings.limit;
      if !allowed && rolledBack {
        sets := sets[keyId := sets[keyId].(scores := sets[keyId].scores - {member})];
      }
      var remaining := if allowed then (if settings.limit >= count then settings.limit - count else 0) else 0;
      status := Status(allowed, settings.limit, remaining, settings.window);
    }
  }

  // ---------- Any interleaving of the calls of one key ----------

  /** A call whose pipeline the server has executed; its position in the history names its member. */
  datatype Call = Call(clock: real, at: real, accepted: bool)

  datatype State = State(set_: SortedSet, now: real, history: seq<Call>)

  const START := State(EMPTY, 0.0, [])

  /**
   `Execute` is one pipeline; when `answered` is false the caller never learns the count and the call is
   not accepted. `Rollback` removes the member of a call that was not accepted, at any later time or never.
   */
  datatype Event = Execute(clock: real, at: real, answered: bool) | Rollback(call: nat)

  predicate Enabled(settings: Settings, lag: real, s: State, e: Event) {
    match e
    case Execute(clock, at, _) => s.now <= at && clock <= at <= clock + lag
    case Rollback(call) => call < |s.history| && !s.history[call].accepted
  }

  function Apply(settings: Settings, s: State, e: Event): State {
    match e
    case Execute(clock, at, answered) =>
      var after := Pipeline(s.set_, settings.window, |s.history|, clock, at);
      State(after, at, s.history + [Call(clock, at, answered && Verdict(settings, |after.scores|).allowed)])
    case Rollback(call) => s.(set_ := s.set_.(scores := s.set_.scores - {call}))
  }

  predicate Legal(settings: Settings, lag: real, events: seq<Event>) {
    events == [] ||
    (Legal(settings, lag, events[..|events| - 1])
     && Enabled(settings, lag, Reach(settings, events[..|events| - 1]), events[|events| - 1]))
  }

  function Reach(settings: Settings, events: seq<Event>): State {
    if events == [] then START
    else Apply(settings, Reach(settings, events[..|events| - 1]), events[|events| - 1])
  }

  /** An accepted call is dated by the clock it read, or by the time its pipeline ran. */
  datatype Dating = ByClock | ByExecution

  function Date(c: Call, dating: Dating): real {
    match dating case ByClock => c.clock case ByExecution => c.at
  }

  /** The accepted calls dated in the half-open interval of the given length. */
  function AcceptedIn(history: seq<Call>, dating: Dating, from: real, length: real): set<nat> {
    set i: nat | 0 <= i < |history| && history[i].accepted && from <= Date(history[i], dating) < from + length
  }

  /** An accepted call is still in the set unless a later pipeline pruned it or the set expired in between. */
  ghost predicate Kept(settings: Settings, s: State, i: nat)
    requires i < |s.history|
  {
    var c := s.history[i];
    (i in s.set_.scores && s.set_.scores[i] == c.clock && c.at + settings.window <= s.set_.expires)
    || c.clock + settings.window <= s.now
    || c.at + settings.window <= s.now
  }

  ghost predicate Inv(settings: Settings, lag: real, s: State) {
    && (forall i :: 0 <= i < |s.history| ==>
          s.history[i].at <= s.now && s.history[i].clock <= s.history[i].at <= s.history[i].clock + lag)
    && (forall m :: m in s.set_.scores ==> m < |s.history|)
    && (forall i: nat :: i < |s.history| && s.history[i].accepted ==> Kept(settings, s, i))
  }

  lemma StepKeepsInv(settings: Settings, lag: real, s: State, e: Event)
    requires settings.window > 0.0
    requires Inv(settings, lag, s) && Enabled(settings, lag, s, e)
    ensures Inv(settings, lag, Apply(settings, s, e))
  {
    var s' := Apply(settings, s, e);
    forall i: nat | i < |s'.history| && s'.history[i].accepted ensures Kept(settings, s', i) {
      if i < |s.history| {
        assert Kept(settings, s, i);
      }
    }
  }

  lemma {:induction false} ReachableInv(settings: Settings, lag: real, events: seq<Event>)
    requires settings.window > 0.0 && Legal(settings, lag, events)
    ensures Inv(settings, lag, Reach(settings, events))
  {
    if events != [] {
      ReachableInv(settings, lag, events[..|events| - 1]);
      StepKeepsInv(settings, lag, Reach(settings, events[..|events| - 1]), events[|events| - 1]);
    }
  }

  /** Every accepted call of an interval that the newest accepted call belongs to is in the set it was counted in. */
  lemma WindowIsCounted(settings: Settings, lag: real, s: State, e: Event, dating: Dating, from: real, length: real)
    requires settings.window > 0.0 && length <= settings.window - lag
    requires Inv(settings, lag, s) && Enabled(settings, lag, s, e) && e.Execute?
    requires var s' := Apply(settings, s, e); |s.history| in AcceptedIn(s'.history, dating, from, length)
    ensures AcceptedIn(Apply(settings, s, e).history, dating, from, length) <= Apply(settings, s, e).set_.scores.Keys
  {
    var s' := Apply(settings, s, e);
    StepKeepsInv(settings, lag, s, e);
    forall i | i in AcceptedIn(s'.history, dating, from, length) ensures i in s'.set_.scores {
      assert Kept(settings, s', i);
    }
  }

  lemma SubsetIsSmaller(a: set<nat>, b: set<nat>)
    requires a <= b
    ensures |a| <= |b|
  {
    assert b == a + (b - a);
  }

  /**
   Main result: with pipelines that run at most `lag` after their clock read, no interval of length at most
   window minus lag holds more than `limit` accepted calls, whatever the order of the pipelines, whichever
   rollbacks are late or lost, and however often the set expires.
   */
  lemma {:induction false} WindowNeverOverfull(settings: Settings, lag: real, events: seq<Event>,
                                               dating: Dating, from: real, length: real)
    requires settings.window > 0.0 && length <= settings.window - lag
    requires Legal(settings, lag, events)
    ensures |AcceptedIn(Reach(settings, events).history, dating, from, length)| <= settings.limit
  {
    if events != [] {
      var before, e := events[..|events| - 1], events[|events| - 1];
      WindowNeverOverfull(settings, lag, before, dating, from, length);
      ReachableInv(settings, lag, before);
      var s, s' := Reach(settings, before), Reach(settings, events);
      var all := AcceptedIn(s'.history, dating, from, length);
      if e.Execute? && |s.history| in all {
        WindowIsCounted(settings, lag, s, e, dating, from, length);
        SubsetIsSmaller(all, s'.set_.scores.Keys);
      } else {
        assert all == AcceptedIn(s.history, dating, from, length);
      }
    }
  }

  lemma Extend(settings: Settings, lag: real, events: seq<Event>, e: Event)
    requires Legal(settings, lag, events) && Enabled(settings, lag, Reach(settings, events), e)
    ensures Legal(settings, lag, events + [e])
    ensures Reach(settings, events + [e]) == Apply(settings, Reach(settings, events), e)
  {
    var more := events + [e];
    assert more[..|more| - 1] == events;
  }

  // ---------- Nobody is rejected without need ----------

  /**
   The calls that hold a slot against one that reads `clock`: they read a clock inside its window and were not
   rolled back. Pruning starts at score 0, so a clock from before the epoch would never leave the set.
   */
  function SlotsHeld(events: seq<Event>, history: seq<Call>, from: real): set<nat> {
    set i: nat | 0 <= i < |history| && Rollback(i) !in events && (from < history[i].clock || history[i].clock < 0.0)
  }

  /** What is in the set is dated by its clock and has not been rolled back. */
  ghost predicate MembersAreCalls(events: seq<Event>, s: State) {
    forall m :: m in s.set_.scores ==>
      m < |s.history| && s.set_.scores[m] == s.history[m].clock && Rollback(m) !in events
  }

  /** Only calls already in the history are rolled back. */
  ghost predicate RollbacksPast(events: seq<Event>, s: State) {
    forall m: nat :: Rollback(m) in events ==> m < |s.history|
  }

  lemma {:induction false} ReachableMembers(settings: Settings, lag: real, events: seq<Event>)
    requires Legal(settings, lag, events)
    ensures MembersAreCalls(events, Reach(settings, events)) && RollbacksPast(events, Reach(settings, events))
  {
    if events != [] {
      var before, e := events[..|events| - 1], events[|events| - 1];
      ReachableMembers(settings, lag, before);
      assert events == before + [e];
      MembersStay(settings, lag, before, Reach(settings, before), e);
    }
  }

  lemma MembersStay(settings: Settings, lag: real, before: seq<Event>, s: State, e: Event)
    requires MembersAreCalls(before, s) && RollbacksPast(before, s) && Enabled(settings, lag, s, e)
    ensures MembersAreCalls(before + [e], Apply(settings, s, e)) && RollbacksPast(before + [e], Apply(settings, s, e))
  {
  }

  lemma RejectionHasCause(settings: Settings, events: seq<Event>, s: State, clock: real, at: real)
    requires MembersAreCalls(events, s)
    requires |Pipeline(s.set_, settings.window, |s.history|, clock, at).scores| > settings.limit
    ensures |SlotsHeld(events, s.history, clock - settings.window)| >= settings.limit
  {
    var held := Pruned(Present(s.set_, at), clock - settings.window);
    assert |s.history| !in held;
    assert |held[|s.history| := clock]| == |held| + 1 && |held| == |held.Keys|;
    SubsetIsSmaller(held.Keys, SlotsHeld(events, s.history, clock - settings.window));
  }

  /**
   Main result: in any run an answered call is rejected only if as many earlier calls as the limit hold a slot
   of its window: each was accepted, or went unanswered, or was rejected and is not rolled back yet.
   */
  lemma {:induction false} RejectedOnlyWhenFull(settings: Settings, lag: real, events: seq<Event>,
                                                clock: real, at: real)
    requires Legal(settings, lag, events) && Enabled(settings, lag, Reach(settings, events), Execute(clock, at, true))
    requires var s := Apply(settings, Reach(settings, events), Execute(clock, at, true));
      !s.history[|s.history| - 1].accepted
    ensures |SlotsHeld(events, Reach(settings, events).history, clock - settings.window)| >= settings.limit
  {
    ReachableMembers(settings, lag, events);
    RejectionHasCause(settings, events, Reach(settings, events), clock, at);
  }

  /** One answered call, for which pruning leaves `kept` in the set. */
  lemma CallLeaves(settings: Settings, s: State, clock: real, kept: map<nat, real>)
    requires Pruned(Present(s.set_, clock), clock - settings.window) == kept && |s.history| !in kept
    ensures Apply(settings, s, Execute(clock, clock, true))
         == State(SortedSet(kept[|s.history| := clock], clock + settings.window), clock,
              s.history + [Call(clock, clock, |kept| + 1 <= settings.limit)])
  {
    assert |kept[|s.history| := clock]| == |kept| + 1;
  }

  lemma PruneForInstance(w: real)
    requires w > 1.0
    ensures var empty: map<nat, real> := map[];
      Pruned(Present(EMPTY, 0.0), 0.0 - w) == empty
      && Pruned(Present(SortedSet(empty[0 := 0.0], 0.0 + w), 1.0), 1.0 - w) == empty[0 := 0.0]
      && Pruned(Present(SortedSet(empty[0 := 0.0][1 := 1.0], 1.0 + w), w), w - w) == empty[1 := 1.0]
  {
  }

  /** Three calls at 0, 1 and w with a limit of one: only the first is accepted, and it has left the window by w. */
  lemma ThreeCalls(settings: Settings, s1: State, s2: State, s3: State)
    requires settings.window > 1.0 && settings.limit == 1
    requires s1 == Apply(settings, START, Execute(0.0, 0.0, true))
    requires s2 == Apply(settings, s1, Execute(1.0, 1.0, true))
    requires s3 == Apply(settings, s2, Execute(settings.window, settings.window, true))
    ensures s1.now == 0.0 && s2.now == 1.0
    ensures s3.history
         == [Call(0.0, 0.0, true), Call(1.0, 1.0, false), Call(settings.window, settings.window, false)]
  {
    var empty: map<nat, real> := map[];
    PruneForInstance(settings.window);
    CallLeaves(settings, START, 0.0, empty);
    CallLeaves(settings, s1, 1.0, empty[0 := 0.0]);
    CallLeaves(settings, s2, settings.window, empty[1 := 1.0]);
  }

  lemma ThreeEvents(settings: Settings, a: Event, b: Event, c: Event)
    requires Enabled(settings, 0.0, START, a) && Enabled(settings, 0.0, Apply(settings, START, a), b)
    requires Enabled(settings, 0.0, Apply(settings, Apply(settings, START, a), b), c)
    ensures Legal(settings, 0.0, [a, b, c])
    ensures Reach(settings, [a, b, c]) == Apply(settings, Apply(settings, Apply(settings, START, a), b), c)
  {
    Extend(settings, 0.0, [], a);
    assert [] + [a] == [a];
    Extend(settings, 0.0, [a], b);
    assert [a] + [b] == [a, b];
    Extend(settings, 0.0, [a, b], c);
    assert [a, b] + [c] == [a, b, c];
  }

  /**
   The slot of a rejected call that is not rolled back yet is real: with a limit of one, a call is rejected
   although no accepted call is in its window, because of a rejected one that is.
   */
  lemma RejectedCallHoldsSlot(settings: Settings) returns (events: seq<Event>)
    requires settings.window > 1.0 && settings.limit == 1
    ensures Legal(settings, 0.0, events)
    ensures var history := Reach(settings, events).history;
      |history| == 3 && !history[2].accepted
      && forall i :: 0 <= i < 3 && history[i].accepted ==> history[i].clock <= history[2].clock - settings.window
  {
    var w := settings.window;
    var a, b, c := Execute(0.0, 0.0, true), Execute(1.0, 1.0, true), Execute(w, w, true);
    var s1 := Apply(settings, START, a);
    var s2 := Apply(settings, s1, b);
    ThreeCalls(settings, s1, s2, Apply(settings, s2, c));
    ThreeEvents(settings, a, b, c);
    events := [a, b, c];
  }

  // ---------- The bound is exact ----------

  /** `n` calls that read clock 0 and are executed at time `at`. */
  function Burst(n: nat, at: real): seq<Event> {
    if n == 0 then [] else Burst(n - 1, at) + [Execute(0.0, at, true)]
  }

  function FirstMembers(n: nat): map<nat, real> {
    if n == 0 then map[] else FirstMembers(n - 1)[n - 1 := 0.0]
  }

  lemma {:induction false} FirstMembersAre(n: nat)
    ensures |FirstMembers(n)| == n
    ensures forall m: nat :: m in FirstMembers(n) <==> m < n
    ensures forall m :: m in FirstMembers(n) ==> FirstMembers(n)[m] == 0.0
  {
    if n > 0 {
      FirstMembersAre(n - 1);
    }
  }

  function LateCalls(n: nat, at: real): (calls: seq<Call>)
    ensures |calls| == n && forall i :: 0 <= i < n ==> calls[i] == Call(0.0, at, true)
  {
    if n == 0 then [] else LateCalls(n - 1, at) + [Call(0.0, at, true)]
  }

  /** The state after the burst: every call accepted, every member present with score 0. */
  ghost predicate FullBurst(settings: Settings, at: real, n: nat, s: State) {
    && s.set_.scores == FirstMembers(n)
    && s.history == LateCalls(n, at)
    && if n == 0 then s == START else s.set_.expires == at + settings.window && s.now == at
  }

  lemma BurstPipeline(settings: Settings, at: real, n: nat, s: SortedSet)
    requires settings.window > 0.0 && 0.0 <= at && s.scores == FirstMembers(n)
    requires if n == 0 then s == EMPTY else s.expires == at + settings.window
    ensures Pipeline(s, settings.window, n, 0.0, at).scores == FirstMembers(n + 1)
  {
    FirstMembersAre(n);
    assert Pruned(Present(s, at), 0.0 - settings.window) == FirstMembers(n);
  }

  lemma BurstStep(settings: Settings, lag: real, at: real, n: nat, s: State)
    requires settings.window > 0.0 && 0.0 <= at <= lag && n < settings.limit && FullBurst(settings, at, n, s)
    ensures var e := Execute(0.0, at, true);
      Enabled(settings, lag, s, e) && FullBurst(settings, at, n + 1, Apply(settings, s, e))
  {
    BurstPipeline(settings, at, n, s.set_);
    FirstMembersAre(n + 1);
  }

  lemma {:induction false} BurstGrows(settings: Settings, lag: real, at: real, n: nat, events: seq<Event>)
    requires settings.window > 0.0 && 0.0 <= at <= lag && n < settings.limit
    requires Legal(settings, lag, events) && FullBurst(settings, at, n, Reach(settings, events))
    ensures var more := events + [Execute(0.0, at, true)];
      Legal(settings, lag, more) && FullBurst(settings, at, n + 1, Reach(settings, more))
  {
    BurstStep(settings, lag, at, n, Reach(settings, events));
    Extend(settings, lag, events, Execute(0.0, at, true));
  }

  lemma {:induction false} BurstIsAccepted(settings: Settings, lag: real, at: real, n: nat)
    requires settings.window > 0.0 && 0.0 <= at <= lag && n <= settings.limit
    ensures Legal(settings, lag, Burst(n, at))
    ensures FullBurst(settings, at, n, Reach(settings, Burst(n, at)))
  {
    if n > 0 {
      BurstIsAccepted(settings, lag, at, n - 1);
      BurstGrows(settings, lag, at, n - 1, Burst(n - 1, at));
    }
  }

  /** When the burst was executed; then the clock that the call after it reads, and its execution. */
  function BurstTime(dating: Dating, lag: real): real {
    match dating case ByClock => 0.0 case ByExecution => lag
  }

  function LateClock(dating: Dating, window: real, lag: real): real {
    match dating case ByClock => NotBelowZero(window - lag) case ByExecution => window
  }

  function LateTime(dating: Dating, window: real, lag: real): real {
    match dating case ByClock => window case ByExecution => if lag < window then window else lag
  }

  function NotBelowZero(t: real): real {
    if t < 0.0 then 0.0 else t
  }

  /**
   After the burst one more call, for which the burst is gone: by execution, it reads a clock one window later
   and prunes a burst that was executed late; by the clock, it was read early, and the burst's set has just
   expired.
   */
  lemma LateCallIsAccepted(settings: Settings, lag: real, s: State, dating: Dating)
    requires settings.window > 0.0 && settings.limit >= 1 && 0.0 <= lag
    requires FullBurst(settings, BurstTime(dating, lag), settings.limit, s)
    ensures var clock, at := LateClock(dating, settings.window, lag), LateTime(dating, settings.window, lag);
      var late := Execute(clock, at, true);
      Enabled(settings, lag, s, late) && Apply(settings, s, late).history == s.history + [Call(clock, at, true)]
  {
    FirstMembersAre(settings.limit);
    var clock, at := LateClock(dating, settings.window, lag), LateTime(dating, settings.window, lag);
    assert Pruned(Present(s.set_, at), clock - settings.window) == map[];
    var after := Pipeline(s.set_, settings.window, |s.history|, clock, at);
    assert after.scores == map[|s.history| := clock];
  }

  lemma LateBurstOverfills(settings: Settings, lag: real, dating: Dating, length: real) returns (events: seq<Event>)
    requires settings.window > 0.0 && settings.limit >= 1 && 0.0 <= lag
    requires length > NotBelowZero(settings.window - lag)
    ensures Legal(settings, lag, events)
    ensures |AcceptedIn(Reach(settings, events).history, dating, BurstTime(dating, lag), length)| > settings.limit
  {
    var n := settings.limit;
    var burst := Burst(n, BurstTime(dating, lag));
    var late := Execute(LateClock(dating, settings.window, lag), LateTime(dating, settings.window, lag), true);
    BurstIsAccepted(settings, lag, BurstTime(dating, lag), n);
    LateCallIsAccepted(settings, lag, Reach(settings, burst), dating);
    Extend(settings, lag, burst, late);
    events := burst + [late];
    FirstMembersAre(n + 1);
    var all := AcceptedIn(Reach(settings, events).history, dating, BurstTime(dating, lag), length);
    assert all == FirstMembers(n + 1).Keys;
  }

  lemma {:induction false} NothingAcceptedAtZero(settings: Settings, events: seq<Event>, i: nat)
    requires settings.limit == 0 && i < |Reach(settings, events).history|
    ensures !Reach(settings, events).history[i].accepted
  {
    if events != [] {
      var s := Reach(settings, events[..|events| - 1]);
      if i < |s.history| {
        NothingAcceptedAtZero(settings, events[..|events| - 1], i);
      }
    }
  }

  lemma {:induction false} SafeLength(settings: Settings, lag: real, events: seq<Event>,
                                      dating: Dating, from: real, length: real)
    requires settings.window > 0.0 && Legal(settings, lag, events)
    requires settings.limit == 0 || length <= NotBelowZero(settings.window - lag)
    ensures |AcceptedIn(Reach(settings, events).history, dating, from, length)| <= settings.limit
  {
    var history := Reach(settings, events).history;
    if settings.limit == 0 {
      forall i: nat | i < |history| ensures !history[i].accepted {
        NothingAcceptedAtZero(settings, events, i);
      }
      assert AcceptedIn(history, dating, from, length) == {};
    } else if length <= 0.0 {
      assert AcceptedIn(history, dating, from, length) == {};
    } else {
      WindowNeverOverfull(settings, lag, events, dating, from, length);
    }
  }

  /**
   Main result: whichever way calls are dated, an interval length is safe in every run exactly when it leaves
   room for the lag, or nothing is ever accepted. With any delay between the clock read and the pipeline, a
   full window is not safe.
   */
  lemma SafeLengthsExactly(settings: Settings, lag: real, dating: Dating, length: real)
    requires settings.window > 0.0 && 0.0 <= lag
    ensures (forall events, from :: Legal(settings, lag, events) ==>
               |AcceptedIn(Reach(settings, events).history, dating, from, length)| <= settings.limit)
       <==> settings.limit == 0 || length <= NotBelowZero(settings.window - lag)
  {
    if settings.limit == 0 || length <= NotBelowZero(settings.window - lag) {
      forall events, from | Legal(settings, lag, events)
        ensures |AcceptedIn(Reach(settings, events).history, dating, from, length)| <= settings.limit
      {
        SafeLength(settings, lag, events, dating, from, length);
      }
    } else {
      var events := LateBurstOverfills(settings, lag, dating, length);
    }
  }

  // ---------- One caller after the other, with a clock that does not go back ----------

  /** What a call at time `t` sees of a plain log of all accepted times that is never cleaned up. */
  function Recent(log: seq<real>, until: real): nat {
    if log == [] then 0
    else Recent(log[..|log| - 1], until) + if log[|log| - 1] > until then 1 else 0
  }

  function NaiveStatus(settings: Settings, log: seq<real>, t: real): Status {
    Verdict(settings, Recent(log, t - settings.window) + 1)
  }

  /** The log after the calls at the given times. */
  function NaiveLog(settings: Settings, clocks: seq<real>): seq<real> {
    if clocks == [] then []
    else
      var log, t := NaiveLog(settings, clocks[..|clocks| - 1]), clocks[|clocks| - 1];
      if NaiveStatus(settings, log, t).allowed then log + [t] else log
  }

  function NaiveStatuses(settings: Settings, clocks: seq<real>): seq<Status> {
    if clocks == [] then []
    else
      var before, t := clocks[..|clocks| - 1], clocks[|clocks| - 1];
      NaiveStatuses(settings, before) + [NaiveStatus(settings, NaiveLog(settings, before), t)]
  }

  ghost predicate Rising(clocks: seq<real>) {
    (forall i :: 0 <= i < |clocks| ==> clocks[i] >= 0.0)
    && forall i, j :: 0 <= i < j < |clocks| ==> clocks[i] <= clocks[j]
  }

  function LiveMap(log: seq<real>, until: real): map<nat, real> {
    map i: nat | 0 <= i < |log| && log[i] > until :: log[i]
  }

  /** The plain log counts the times after `until`, each as often as it occurs. */
  lemma {:induction false} RecentAdds(log: seq<real>, t: real, until: real)
    ensures Recent(log + [t], until) == Recent(log, until) + (if t > until then 1 else 0)
    ensures Recent([], until) == 0
  {
    assert (log + [t])[..|log|] == log;
  }

  /** A time is logged exactly if its call is allowed. */
  lemma {:induction false} NaiveLogAdds(settings: Settings, clocks: seq<real>, t: real)
    ensures var log := NaiveLog(settings, clocks);
      NaiveLog(settings, clocks + [t]) ==
      if Recent(log, t - settings.window) + 1 <= settings.limit then log + [t] else log
  {
    assert (clocks + [t])[..|clocks|] == clocks;
  }

  lemma {:induction false} LiveMapSize(log: seq<real>, until: real)
    ensures |LiveMap(log, until)| == Recent(log, until)
  {
    if log != [] {
      var n := |log| - 1;
      LiveMapSize(log[..n], until);
      if log[n] > until {
        assert LiveMap(log, until) == LiveMap(log[..n], until)[n := log[n]];
      } else {
        assert LiveMap(log, until) == LiveMap(log[..n], until);
      }
    }
  }

  /** The sorted set holds the accepted times of the last window, and expires one window after the last call. */
  ghost predicate Mirrors(settings: Settings, s: SortedSet, log: seq<real>, last: real) {
    && s.scores == LiveMap(log, last - settings.window)
    && s.expires == last + settings.window
    && forall i :: 0 <= i < |log| ==> 0.0 <= log[i] <= last
  }

  /** Key expiry is invisible: what it drops, the next prune would drop as well. */
  lemma ExpiryIsInvisible(settings: Settings, s: SortedSet, log: seq<real>, last: real, t: real)
    requires settings.window > 0.0 && Mirrors(settings, s, log, last) && last <= t
    ensures Pruned(Present(s, t), t - settings.window) == Pruned(s.scores, t - settings.window)
    ensures Pruned(s.scores, t - settings.window) == LiveMap(log, t - settings.window)
  {
  }

  lemma {:induction false} NaiveLogPast(settings: Settings, clocks: seq<real>, i: nat)
    requires Rising(clocks) && i < |NaiveLog(settings, clocks)|
    ensures clocks != [] && 0.0 <= NaiveLog(settings, clocks)[i] <= clocks[|clocks| - 1]
  {
    var n := |clocks| - 1;
    var log := NaiveLog(settings, clocks[..n]);
    if i < |log| {
      NaiveLogPast(settings, clocks[..n], i);
    }
  }

  lemma AppendToLive(log: seq<real>, t: real, until: real)
    requires until < t
    ensures LiveMap(log, until)[|log| := t] == LiveMap(log + [t], until)
    ensures LiveMap(log, until)[|log| := t] - {|log|} == LiveMap(log, until)
  {
  }

  lemma {:induction false} AppendedSize(log: seq<real>, t: real, until: real)
    ensures |LiveMap(log, until)[|log| := t]| == Recent(log, until) + 1
  {
    LiveMapSize(log, until);
  }

  /** One sequential check keeps the mirror and gives the status that the plain log gives. */
  lemma CheckMirrors(settings: Settings, s: SortedSet, log: seq<real>, last: real, t: real)
    requires settings.window > 0.0 && Mirrors(settings, s, log, last) && 0.0 <= t && last <= t
    ensures var after := Pipeline(s, settings.window, |log|, t, t);
      var status := Verdict(settings, |after.scores|);
      status == NaiveStatus(settings, log, t)
      && if status.allowed then Mirrors(settings, after, log + [t], t)
         else Mirrors(settings, after.(scores := after.scores - {|log|}), log, t)
  {
    PipelineKeepsLive(settings, s, log, last, t);
    LiveCheck(settings, Pipeline(s, settings.window, |log|, t, t), log, t);
  }

  /** The same, of the set as the pipeline leaves it. */
  lemma LiveCheck(settings: Settings, after: SortedSet, log: seq<real>, t: real)
    requires settings.window > 0.0 && 0.0 <= t && forall i :: 0 <= i < |log| ==> 0.0 <= log[i] <= t
    requires after == SortedSet(LiveMap(log, t - settings.window)[|log| := t], t + settings.window)
    ensures var status := Verdict(settings, |after.scores|);
      status == NaiveStatus(settings, log, t)
      && if status.allowed then Mirrors(settings, after, log + [t], t)
         else Mirrors(settings, after.(scores := after.scores - {|log|}), log, t)
  {
    AppendedSize(log, t, t - settings.window);
    AcceptedMirrors(settings, after, log, t);
    RejectedMirrors(settings, after, log, t);
  }

  lemma AcceptedMirrors(settings: Settings, after: SortedSet, log: seq<real>, t: real)
    requires settings.window > 0.0 && 0.0 <= t && forall i :: 0 <= i < |log| ==> 0.0 <= log[i] <= t
    requires after == SortedSet(LiveMap(log, t - settings.window)[|log| := t], t + settings.window)
    ensures Mirrors(settings, after, log + [t], t)
  {
    AppendToLive(log, t, t - settings.window);
  }

  lemma RejectedMirrors(settings: Settings, after: SortedSet, log: seq<real>, t: real)
    requires settings.window > 0.0 && 0.0 <= t && forall i :: 0 <= i < |log| ==> 0.0 <= log[i] <= t
    requires after == SortedSet(LiveMap(log, t - settings.window)[|log| := t], t + settings.window)
    ensures Mirrors(settings, after.(scores := after.scores - {|log|}), log, t)
  {
    AppendToLive(log, t, t - settings.window);
  }

  lemma PipelineKeepsLive(settings: Settings, s: SortedSet, log: seq<real>, last: real, t: real)
    requires settings.window > 0.0 && Mirrors(settings, s, log, last) && last <= t
    ensures Pipeline(s, settings.window, |log|, t, t)
         == SortedSet(LiveMap(log, t - settings.window)[|log| := t], t + settings.window)
  {
    ExpiryIsInvisible(settings, s, log, last, t);
  }

  lemma FirstCheckMirrors(settings: Settings, t: real)
    requires settings.window > 0.0 && 0.0 <= t
    ensures var after := Pipeline(EMPTY, settings.window, 0, t, t);
      var status := Verdict(settings, |after.scores|);
      status == NaiveStatus(settings, [], t)
      && if status.allowed then Mirrors(settings, after, [t], t)
         else Mirrors(settings, after.(scores := after.scores - {0}), [], t)
  {
    var start := SortedSet(map[], t + settings.window);
    assert LiveMap([], t - settings.window) == map[];
    CheckMirrors(settings, start, [], t, t);
    assert Pruned(map[], t - settings.window) == map[];
    assert Pipeline(EMPTY, settings.window, 0, t, t) == Pipeline(start, settings.window, 0, t, t);
    assert [] + [t] == [t];
  }

  /** The i-th answer depends on the calls before it only. */
  lemma {:induction false} NaiveStatusAt(settings: Settings, clocks: seq<real>, i: nat)
    requires i < |clocks|
    ensures |NaiveStatuses(settings, clocks)| == |clocks|
    ensures NaiveStatuses(settings, clocks)[i] == NaiveStatus(settings, NaiveLog(settings, clocks[..i]), clocks[i])
  {
    var n := |clocks| - 1;
    NaiveStatusesLength(settings, clocks[..n]);
    if i < n {
      NaiveStatusAt(settings, clocks[..n], i);
      assert clocks[..n][..i] == clocks[..i];
    }
  }

  lemma {:induction false} NaiveStatusesLength(settings: Settings, clocks: seq<real>)
    ensures |NaiveStatuses(settings, clocks)| == |clocks|
  {
    if clocks != [] {
      NaiveStatusesLength(settings, clocks[..|clocks| - 1]);
    }
  }

  /** What the plain log answers: whether the call fits, and how much then remains of the limit. */
  lemma NaiveAnswers(settings: Settings, clocks: seq<real>, i: nat)
    requires i < |clocks|
    ensures |NaiveStatuses(settings, clocks)| == |clocks|
    ensures Answers(settings, NaiveStatuses(settings, clocks)[i],
      Recent(NaiveLog(settings, clocks[..i]), clocks[i] - settings.window) + 1)
  {
    NaiveStatusAt(settings, clocks, i);
  }

  /** Each call is answered for the accepted calls of its window, with what they leave of the limit. */
  ghost predicate AnswersLog(settings: Settings, clocks: seq<real>, statuses: seq<Status>) {
    |statuses| == |clocks| && forall i :: 0 <= i < |clocks| ==>
      Answers(settings, statuses[i], Recent(NaiveLog(settings, clocks[..i]), clocks[i] - settings.window) + 1)
  }

  lemma AllNaiveAnswers(settings: Settings, clocks: seq<real>)
    ensures AnswersLog(settings, clocks, NaiveStatuses(settings, clocks))
  {
    NaiveStatusesLength(settings, clocks);
    forall i | 0 <= i < |clocks|
      ensures Answers(settings, NaiveStatuses(settings, clocks)[i],
        Recent(NaiveLog(settings, clocks[..i]), clocks[i] - settings.window) + 1)
    {
      NaiveAnswers(settings, clocks, i);
    }
  }

  /** The set after the calls at the given times, in turn. */
  ghost predicate FollowsLog(settings: Settings, s: SortedSet, clocks: seq<real>) {
    if clocks == [] then s == EMPTY
    else Mirrors(settings, s, NaiveLog(settings, clocks), clocks[|clocks| - 1])
  }

  /** One more call: it is answered as by the plain log, and the set still follows. */
  lemma OneMoreFollows(settings: Settings, s: SortedSet, clocks: seq<real>, t: real)
    requires settings.window > 0.0 && Rising(clocks + [t]) && FollowsLog(settings, s, clocks)
    ensures var log := NaiveLog(settings, clocks);
      var after := Pipeline(s, settings.window, |log|, t, t);
      var status := Verdict(settings, |after.scores|);
      status == NaiveStatus(settings, log, t)
      && NaiveLog(settings, clocks + [t]) == (if status.allowed then log + [t] else log)
      && NaiveStatuses(settings, clocks + [t]) == NaiveStatuses(settings, clocks) + [status]
      && FollowsLog(settings, if status.allowed then after else after.(scores := after.scores - {|log|}), clocks + [t])
  {
    var more := clocks + [t];
    assert more[..|more| - 1] == clocks && more[|more| - 1] == t;
    if clocks == [] {
      assert more[0] == t;
      FirstCheckMirrors(settings, t);
    } else {
      assert more[|clocks| - 1] == clocks[|clocks| - 1] && more[|clocks|] == t && more[0] == clocks[0];
      CheckMirrors(settings, s, NaiveLog(settings, clocks), clocks[|clocks| - 1], t);
    }
  }

  method CheckOnce(limiter: Limiter, keyId: int, ghost clocks: seq<real>, accepted: nat, t: real)
    returns (status: Status)
    requires limiter.settings.window > 0.0 && Rising(clocks + [t])
    requires accepted == |NaiveLog(limiter.settings, clocks)|
    requires FollowsLog(limiter.settings, limiter.SetOf(keyId), clocks)
    modifies limiter
    ensures NaiveStatuses(limiter.settings, clocks + [t]) == NaiveStatuses(limiter.settings, clocks) + [status]
    ensures |NaiveLog(limiter.settings, clocks + [t])| == accepted + if status.allowed then 1 else 0
    ensures FollowsLog(limiter.settings, limiter.SetOf(keyId), clocks + [t])
    ensures forall k :: k != keyId ==> limiter.SetOf(k) == old(limiter.SetOf(k))
  {
    ghost var before := limiter.SetOf(keyId);
    OneMoreFollows(limiter.settings, before, clocks, t);
    status := limiter.CheckRateLimitStatus(keyId, accepted, t, t, true, true, true);
    OneAnswer(limiter.settings, status, |Pipeline(before, limiter.settings.window, accepted, t, t).scores|);
  }

  /**
   Main result: checks made one after the other, each rollback succeeding, are answered as the plain log
   would answer them, `remaining` included.
   */
  method CheckInTurn(limiter: Limiter, keyId: int, clocks: seq<real>) returns (statuses: seq<Status>)
    requires limiter.settings.window > 0.0 && Rising(clocks) && keyId !in limiter.sets
    modifies limiter
    ensures statuses == NaiveStatuses(limiter.settings, clocks)
    ensures AnswersLog(limiter.settings, clocks, statuses)
    ensures forall k :: k != keyId ==> limiter.SetOf(k) == old(limiter.SetOf(k))
  {
    var settings := limiter.settings;
    statuses := [];
    var accepted := 0;
    for i := 0 to |clocks|
      invariant statuses == NaiveStatuses(settings, clocks[..i])
      invariant accepted == |NaiveLog(settings, clocks[..i])|
      invariant FollowsLog(settings, limiter.SetOf(keyId), clocks[..i])
      invariant forall k :: k != keyId ==> limiter.SetOf(k) == old(limiter.SetOf(k))
    {
      assert clocks[..i + 1] == clocks[..i] + [clocks[i]];
      var status := CheckOnce(limiter, keyId, clocks[..i], accepted, clocks[i]);
      statuses := statuses + [status];
      if status.allowed {
        accepted := accepted + 1;
      }
    }
    assert clocks[..|clocks|] == clocks;
    AllNaiveAnswers(settings, clocks);
  }

  /** The statuses of the accepted calls. */
  function Allowed(statuses: seq<Status>): seq<Status> {
    if statuses == [] then []
    else
      Allowed(statuses[..|statuses| - 1])
      + if statuses[|statuses| - 1].allowed then [statuses[|statuses| - 1]] else []
  }

  /** Rejected calls use no quota: leaving them out changes neither the log nor any accepted call's status. */
  lemma {:induction false} RejectedCallsUseNothing(settings: Settings, clocks: seq<real>)
    ensures var log := NaiveLog(settings, clocks);
      NaiveLog(settings, log) == log && NaiveStatuses(settings, log) == Allowed(NaiveStatuses(settings, clocks))
  {
    if clocks != [] {
      var before, t := clocks[..|clocks| - 1], clocks[|clocks| - 1];
      RejectedCallsUseNothing(settings, before);
      var log := NaiveLog(settings, before);
      var statuses := NaiveStatuses(settings, clocks);
      assert statuses[..|statuses| - 1] == NaiveStatuses(settings, before);
      assert (log + [t])[..|log|] == log;
      if !NaiveStatus(settings, log, t).allowed {
        assert NaiveLog(settings, clocks) == log;
        assert Allowed(NaiveStatuses(settings, before)) + [] == Allowed(NaiveStatuses(settings, before));
      }
    }
  }
}
