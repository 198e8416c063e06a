/** Every request ends: a measure falls with each task step, and some step is always open. */
module Progress {
  import opened Fallback
  import opened SingleFlight
  import opened Coalescing

  /** An upper bound on the polls that still fit before the deadline. */
  function Rounds(span: real): nat {
    if span < 0.0 then 0 else (span * 20.0).Floor + 1
  }

  /** How many steps a task can still take. */
  function Rank(k: Task): nat
    requires TimesOk(k) && TaskOk(k)
  {
    var lead := 4 + |k.providers|;
    match k.pc
    case Returned(_, _) => 0
    case Following(_) => 1
    case Stored(_, _) => 1
    case Storing(_, _) => 2
    case Released(_) => 3
    case Releasing(_) => 4
    case Calling(_, failures, _) => lead - |failures|
    case Sleeping(deadline, wake) => lead + 3 * Rounds(deadline - wake) + 1
    case PollReplied(deadline, checkedAt, _) => lead + 3 * Rounds(deadline - checkedAt) - 1
    case Polling(deadline, checkedAt) => lead + 3 * Rounds(deadline - checkedAt)
    case LockReplied(_, _) => lead + 124
    case Locking => lead + 125
    case Discarded => lead + 126
    case Discarding => lead + 127
    case CacheReplied(_) => lead + 128
    case CacheRead => lead + 129
  }

  /** A poll is only made before its deadline. */
  ghost predicate TimesOk(k: Task) {
    match k.pc
    case Polling(deadline, checkedAt) => checkedAt < deadline
    case PollReplied(deadline, checkedAt, _) => checkedAt < deadline
    case _ => true
  }

  /** The checks of the past lie in the past. */
  ghost predicate PastOk(now: real, k: Task) {
    match k.pc
    case Polling(_, checkedAt) => checkedAt <= now
    case PollReplied(_, checkedAt, _) => checkedAt <= now
    case _ => true
  }

  ghost predicate Ready(w: World) {
    Inv(w) && forall t :: 0 <= t < |w.tasks| ==> TimesOk(w.tasks[t]) && PastOk(w.now, w.tasks[t])
  }

  lemma RoundsShrink(deadline: real, from: real, to: real)
    requires from < deadline && from + LOCK_POLL_INTERVAL_SECONDS <= to
    ensures Rounds(deadline - to) < Rounds(deadline - from)
  {
    var a, b := (deadline - from) * 20.0, (deadline - to) * 20.0;
    assert b <= a - 1.0;
  }

  lemma RoundsMonotone(deadline: real, from: real, to: real)
    requires from <= to
    ensures Rounds(deadline - to) <= Rounds(deadline - from)
  {
  }

  lemma FullWait(now: real)
    ensures Rounds(now + WAIT_TIMEOUT_SECONDS - now) == 41
  {
  }

  lemma RedisRank(w: World, t: nat, served: bool, answered: bool)
    requires t < |w.tasks| && TaskOk(w.tasks[t]) && TimesOk(w.tasks[t]) && WaitsOnRedis(w.tasks[t].pc)
    requires PastOk(w.now, w.tasks[t])
    ensures var k := RedisStep(w, t, served, answered).tasks[t];
      TimesOk(k) && PastOk(w.now, k) && TaskOk(k) && Rank(k) < Rank(w.tasks[t])
  {
    RedisMove(w, t, served, answered);
  }

  lemma {:induction false} AnswerRank(w: World, t: nat, attempt: Attempt)
    requires InChain(w, t) && TaskOk(w.tasks[t])
    ensures var k := AnswerStep(w, t, attempt).tasks[t];
      TimesOk(k) && PastOk(w.now, k) && TaskOk(k) && Rank(k) < Rank(w.tasks[t])
  {
    AnswerMove(w, t, attempt);
  }

  lemma PollRank(w: World, t: nat)
    requires Runnable(w, t) && TaskOk(w.tasks[t]) && TimesOk(w.tasks[t]) && PastOk(w.now, w.tasks[t])
    requires w.tasks[t].pc.PollReplied?
    ensures var k := ResumeStep(w, t).tasks[t];
      TimesOk(k) && PastOk(w.now, k) && TaskOk(k) && Rank(k) < Rank(w.tasks[t])
  {
    ResumeMove(w, t);
    var deadline, checkedAt := w.tasks[t].pc.deadline, w.tasks[t].pc.checkedAt;
    RoundsShrink(deadline, checkedAt, w.now + LOCK_POLL_INTERVAL_SECONDS);
  }

  lemma SleepRank(w: World, t: nat)
    requires Runnable(w, t) && TaskOk(w.tasks[t]) && w.tasks[t].pc.Sleeping?
    ensures var k := ResumeStep(w, t).tasks[t];
      TimesOk(k) && PastOk(w.now, k) && TaskOk(k) && Rank(k) < Rank(w.tasks[t])
  {
    ResumeMove(w, t);
    RoundsMonotone(w.tasks[t].pc.deadline, w.tasks[t].pc.wake, w.now);
  }

  lemma LockRank(w: World, t: nat)
    requires Runnable(w, t) && TaskOk(w.tasks[t]) && w.tasks[t].pc.LockReplied?
    ensures var k := ResumeStep(w, t).tasks[t];
      TimesOk(k) && PastOk(w.now, k) && TaskOk(k) && Rank(k) < Rank(w.tasks[t])
  {
    ResumeMove(w, t);
    FullWait(w.now);
  }

  /** Outside the wait for another replica, where a resumed task can go from where it is. */
  lemma {:induction false} OtherRank(w: World, t: nat)
    requires Runnable(w, t) && TaskOk(w.tasks[t])
    requires var pc := w.tasks[t].pc; !pc.LockReplied? && !pc.PollReplied? && !pc.Sleeping?
    ensures var k := ResumeStep(w, t).tasks[t];
      TimesOk(k) && PastOk(w.now, k) && TaskOk(k) && Rank(k) < Rank(w.tasks[t])
  {
    ResumeMove(w, t);
    var k := ResumeStep(w, t).tasks[t];
    match w.tasks[t].pc
    case CacheReplied(_) => assert k.pc.Returned? || k.pc.Discarding? || k.pc.Following? || k.pc.Locking?;
    case Discarded => assert k.pc.Returned? || k.pc.Following? || k.pc.Locking?;
    case Following(_) => assert k.pc.Returned?;
    case Released(_) => assert k.pc.Returned? || k.pc.Storing?;
    case Stored(_, _) => assert k.pc.Returned?;
  }

  lemma {:induction false} ResumeRank(w: World, t: nat)
    requires Runnable(w, t) && TaskOk(w.tasks[t]) && TimesOk(w.tasks[t]) && PastOk(w.now, w.tasks[t])
    ensures var k := ResumeStep(w, t).tasks[t];
      TimesOk(k) && PastOk(w.now, k) && TaskOk(k) && Rank(k) < Rank(w.tasks[t])
  {
    match w.tasks[t].pc
    case LockReplied(_, _) => LockRank(w, t);
    case PollReplied(_, _, _) => PollRank(w, t);
    case Sleeping(_, _) => SleepRank(w, t);
    case _ => OtherRank(w, t);
  }

  lemma {:induction false} StepLowersRank(w: World, e: Event)
    requires Ready(w) && Enabled(w, e) && Mover(e).Some?
    ensures var t := Mover(e).value; var w' := Apply(w, e);
      t < |w.tasks| == |w'.tasks|
      && TimesOk(w'.tasks[t]) && PastOk(w.now, w'.tasks[t]) && TaskOk(w'.tasks[t])
      && Rank(w'.tasks[t]) < Rank(w.tasks[t])
  {
    StepMovesOneTask(w, e);
    assert TaskOk(w.tasks[Mover(e).value]);
    match e
    case Redis(t, served, answered) => RedisRank(w, t, served, answered);
    case Resume(t) => ResumeRank(w, t);
    case Answer(t, attempt) => AnswerRank(w, t, attempt);
    case _ =>
  }

  lemma {:induction false} StepKeepsReady(w: World, e: Event)
    requires Ready(w) && Enabled(w, e)
    ensures Ready(Apply(w, e))
  {
    StepKeepsInv(w, e);
    if Mover(e).Some? {
      StepMovesOneTask(w, e);
      StepLowersRank(w, e);
    }
  }

  lemma {:induction false} ReachableReady(events: seq<Event>)
    requires Legal(events)
    ensures Ready(Reach(events))
  {
    if events != [] {
      ReachableReady(events[..|events| - 1]);
      StepKeepsReady(Reach(events[..|events| - 1]), events[|events| - 1]);
    }
  }

  // ---------- The measure of a whole state ----------

  function Measure(tasks: seq<Task>): nat
    requires forall t :: 0 <= t < |tasks| ==> TimesOk(tasks[t]) && TaskOk(tasks[t])
  {
    if tasks == [] then 0 else Measure(tasks[..|tasks| - 1]) + Rank(tasks[|tasks| - 1])
  }

  lemma {:induction false} MeasureUpdate(tasks: seq<Task>, t: nat, k: Task)
    requires forall u :: 0 <= u < |tasks| ==> TimesOk(tasks[u]) && TaskOk(tasks[u])
    requires t < |tasks| && TimesOk(k) && TaskOk(k)
    ensures Measure(tasks[t := k]) + Rank(tasks[t]) == Measure(tasks) + Rank(k)
  {
    var n := |tasks| - 1;
    if t == n {
      assert tasks[t := k][..n] == tasks[..n];
    } else {
      assert tasks[t := k][..n] == tasks[..n][t := k];
      MeasureUpdate(tasks[..n], t, k);
    }
  }

  ghost function Remaining(w: World): nat
    requires Ready(w)
  {
    assert forall t :: 0 <= t < |w.tasks| ==> TaskOk(w.tasks[t]);
    Measure(w.tasks)
  }

  lemma StepLowersMeasure(w: World, e: Event)
    requires Ready(w) && Enabled(w, e) && !e.Arrive?
    ensures Ready(Apply(w, e))
    ensures if Mover(e).Some? then Remaining(Apply(w, e)) < Remaining(w) else Remaining(Apply(w, e)) == Remaining(w)
  {
    StepKeepsReady(w, e);
    assert forall t :: 0 <= t < |w.tasks| ==> TaskOk(w.tasks[t]);
    if Mover(e).Some? {
      var t := Mover(e).value;
      StepMovesOneTask(w, e);
      StepLowersRank(w, e);
      assert Apply(w, e).tasks == w.tasks[t := Apply(w, e).tasks[t]];
      MeasureUpdate(w.tasks, t, Apply(w, e).tasks[t]);
    }
  }

  // ---------- Main results ----------

  function TaskSteps(events: seq<Event>): nat {
    if events == [] then 0
    else TaskSteps(events[..|events| - 1]) + if Mover(events[|events| - 1]).Some? then 1 else 0
  }

  predicate NoArrivals(events: seq<Event>) {
    forall e :: e in events ==> !e.Arrive?
  }

  /** From any reachable state, a run without new arrivals takes no more task steps than the state's measure. */
  lemma {:induction false} RunsAreBounded(events: seq<Event>, more: seq<Event>)
    requires Legal(events) && Legal(events + more) && NoArrivals(more)
    ensures Ready(Reach(events)) && Ready(Reach(events + more))
    ensures TaskSteps(more) + Remaining(Reach(events + more)) <= Remaining(Reach(events))
    decreases |more|
  {
    ReachableReady(events);
    ReachableReady(events + more);
    if more == [] {
      assert events + more == events;
    } else {
      var less, e := more[..|more| - 1], more[|more| - 1];
      DropLast(events, more);
      RunsAreBounded(events, less);
      StepLowersMeasure(Reach(events + less), e);
    }
  }

  lemma DropLast(events: seq<Event>, more: seq<Event>)
    requires more != []
    ensures (events + more)[..|events + more| - 1] == events + more[..|more| - 1]
    ensures (events + more)[|events + more| - 1] == more[|more| - 1]
  {
  }

  /** While a request is unanswered, some task can step, at once or after the time a sleeper still has to wait. */
  lemma SomeStepIsOpen(w: World) returns (delay: real, e: Event)
    requires Ready(w) && !SingleFlight.Finished(w)
    ensures delay >= 0.0 && Mover(e).Some? && Enabled(Apply(w, Tick(delay)), e)
  {
    var t: nat :| t < |w.tasks| && !w.tasks[t].pc.Returned?;
    assert TaskOk(w.tasks[t]);
    delay := 0.0;
    if w.tasks[t].pc.Following? && !Runnable(w, t) {
      t := w.tasks[t].pc.owner;
      assert TaskOk(w.tasks[t]);
    } else if w.tasks[t].pc.Sleeping? && w.now < w.tasks[t].pc.wake {
      delay := w.tasks[t].pc.wake - w.now;
    }
    e := if WaitsOnRedis(w.tasks[t].pc) then Redis(t, true, true)
         else if w.tasks[t].pc.Calling? then Answer(t, Crashed)
         else Resume(t);
  }

  lemma {:induction false} Advance(events: seq<Event>) returns (longer: seq<Event>)
    requires Legal(events) && !SingleFlight.Finished(Reach(events))
    ensures |longer| == 2 && NoArrivals(longer) && Legal(events + longer)
    ensures Ready(Reach(events)) && Ready(Reach(events + longer))
    ensures Remaining(Reach(events + longer)) < Remaining(Reach(events))
  {
    ReachableReady(events);
    var w := Reach(events);
    var delay, e := SomeStepIsOpen(w);
    var first := Step(events, Tick(delay));
    var second := Step(first, e);
    longer := [Tick(delay)] + [e];
    Regroup(events, [Tick(delay)], [e]);
  }

  /** One more event: a task's step lowers the measure, the passing of time leaves it. */
  lemma Step(events: seq<Event>, e: Event) returns (longer: seq<Event>)
    requires Legal(events) && Enabled(Reach(events), e) && !e.Arrive?
    ensures longer == events + [e] && Legal(longer) && Reach(longer) == Apply(Reach(events), e)
    ensures Ready(Reach(events)) && Ready(Reach(longer))
    ensures if Mover(e).Some? then Remaining(Reach(longer)) < Remaining(Reach(events))
            else Remaining(Reach(longer)) == Remaining(Reach(events))
  {
    ReachableReady(events);
    StepLowersMeasure(Reach(events), e);
    longer := events + [e];
    assert longer[..|longer| - 1] == events;
  }

  lemma Regroup(a: seq<Event>, b: seq<Event>, c: seq<Event>)
    ensures a + (b + c) == a + b + c
    ensures NoArrivals(b) && NoArrivals(c) ==> NoArrivals(b + c)
  {
  }

  lemma {:induction false} EveryRequestCanEnd(events: seq<Event>, bound: nat) returns (more: seq<Event>)
    requires Legal(events) && Ready(Reach(events)) && Remaining(Reach(events)) <= bound
    ensures NoArrivals(more) && Legal(events + more) && SingleFlight.Finished(Reach(events + more))
    decreases bound
  {
    if SingleFlight.Finished(Reach(events)) {
      more := [];
      assert events + more == events;
    } else {
      var longer := Advance(events);
      var rest := EveryRequestCanEnd(events + longer, bound - 1);
      more := longer + rest;
      Regroup(events, longer, rest);
    }
  }

  // ---------- Fair runs that go on for ever ----------

  function Prefix(run: nat -> Event, n: nat): seq<Event> {
    if n == 0 then [] else Prefix(run, n - 1) + [run(n - 1)]
  }

  ghost predicate LegalRun(run: nat -> Event) {
    forall n: nat :: Legal(Prefix(run, n))
  }

  /** From `start` on no request arrives, and while one is unanswered some task takes a step sooner or later. */
  ghost predicate Fair(run: nat -> Event, start: nat)
    requires LegalRun(run)
  {
    && (forall n: nat :: start <= n ==> !run(n).Arrive?)
    && (forall n: nat :: start <= n && !SingleFlight.Finished(Reach(Prefix(run, n))) ==> StepsLater(run, n))
  }

  ghost predicate StepsLater(run: nat -> Event, n: nat) {
    exists m :: n <= m && Mover(run(m)).Some?
  }

  /** What is left to do after `n` events; any run that is not legal has nothing to say here. */
  ghost function Left(run: nat -> Event, n: nat): nat {
    if Legal(Prefix(run, n)) && Ready(Reach(Prefix(run, n))) then Remaining(Reach(Prefix(run, n))) else 0
  }

  lemma {:induction false} LeftFalls(run: nat -> Event, n: nat)
    requires Legal(Prefix(run, n)) && Legal(Prefix(run, n + 1)) && !run(n).Arrive?
    ensures if Mover(run(n)).Some? then Left(run, n + 1) < Left(run, n) else Left(run, n + 1) == Left(run, n)
  {
    var before, more := Prefix(run, n), Prefix(run, n + 1);
    assert more[..|more| - 1] == before && more[|more| - 1] == run(n);
    ReachableReady(before);
    StepLowersMeasure(Reach(before), run(n));
  }

  /** A count that never rises and falls at every move has fallen by the end of a stretch that ends in a move. */
  ghost predicate FallsWith(left: nat -> nat, moves: nat -> bool, start: nat) {
    forall n: nat :: start <= n ==> if moves(n) then left(n + 1) < left(n) else left(n + 1) == left(n)
  }

  lemma {:induction false} StretchFalls(left: nat -> nat, moves: nat -> bool, start: nat, n: nat, m: nat)
    requires FallsWith(left, moves, start) && start <= n <= m && moves(m)
    ensures left(m + 1) < left(n)
    decreases m - n
  {
    if n < m {
      StretchFalls(left, moves, start, n + 1, m);
    }
  }

  /** If such a count moves again and again until it is done, it is done at some time. */
  lemma {:induction false} DescentEnds(left: nat -> nat, moves: nat -> bool, done: nat -> bool, start: nat, n: nat)
    returns (end: nat)
    requires FallsWith(left, moves, start) && start <= n
    requires forall i: nat :: start <= i && !done(i) ==> exists m: nat :: i <= m && moves(m)
    ensures n <= end && done(end)
    decreases left(n)
  {
    if done(n) {
      end := n;
    } else {
      var m: nat :| n <= m && moves(m);
      StretchFalls(left, moves, start, n, m);
      end := DescentEnds(left, moves, done, start, m + 1);
    }
  }

  /** Main result: every fair run answers all its requests, however Redis, the providers and the clocks behave. */
  lemma {:induction false} FairRunsFinish(run: nat -> Event, start: nat) returns (end: nat)
    requires LegalRun(run) && Fair(run, start)
    ensures start <= end && SingleFlight.Finished(Reach(Prefix(run, end)))
  {
    var left := (n: nat) => Left(run, n);
    var moves := (n: nat) => Mover(run(n)).Some?;
    var done := (n: nat) => Legal(Prefix(run, n)) && SingleFlight.Finished(Reach(Prefix(run, n)));
    forall n: nat | start <= n ensures if moves(n) then left(n + 1) < left(n) else left(n + 1) == left(n) {
      assert Legal(Prefix(run, n)) && Legal(Prefix(run, n + 1));
      LeftFalls(run, n);
    }
    forall n: nat | start <= n && !done(n) ensures exists m: nat :: n <= m && moves(m) {
      assert StepsLater(run, n);
      var m :| n <= m && Mover(run(m)).Some?;
      assert moves(m);
    }
    end := DescentEnds(left, moves, done, start, start);
  }

  /** So every reachable state has a continuation, with no new arrival, that answers all its requests. */
  lemma {:induction false} EveryRequestEnds(events: seq<Event>) returns (more: seq<Event>)
    requires Legal(events)
    ensures NoArrivals(more) && Legal(events + more) && SingleFlight.Finished(Reach(events + more))
  {
    ReachableReady(events);
    more := EveryRequestCanEnd(events, Remaining(Reach(events)));
  }
}
