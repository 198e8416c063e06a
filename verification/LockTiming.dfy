/** The Redis lock: if replies and provider calls keep their deadlines, lock holders never call a provider together. */
module LockTiming {
  import opened Wrappers
  import opened Api
  import opened Fallback
  import opened SingleFlight

  /**
   The timing assumptions, as they bear on one state: the reply that grants a lock is on its way for
   less than the grace, and the provider attempt under a lock has not outlasted its timeout.
   */
  ghost predicate Timely(w: World) {
    forall t :: 0 <= t < |w.tasks| ==> TimelyTask(w.now, w.tasks[t])
  }

  ghost predicate TimelyTask(now: real, k: Task) {
    && (forall p :: p in k.providers ==> p.timeout >= 0.0)
    && match k.pc
       case LockReplied(held, executedAt) => held ==> now < executedAt + LOCK_TTL_GRACE_SECONDS
       case Calling(held, failures, since) =>
         held && |failures| < |k.providers| ==> now <= since + k.providers[|failures|].timeout
       case _ => true
  }

  /** Every state on the way is timely. */
  ghost predicate TimelyRun(events: seq<Event>)
    requires Legal(events)
    decreases |events|
  {
    Timely(Reach(events)) && (events == [] || TimelyRun(events[..|events| - 1]))
  }

  /** The lock of a task that was granted it is the task's own and outlasts the rest of its chain. */
  ghost predicate LockCovers(w: World, t: nat)
    requires t < |w.tasks|
  {
    var k := w.tasks[t];
    match k.pc
    case LockReplied(held, executedAt) =>
      held ==> k.key in w.locks && w.locks[k.key].token == t
               && w.locks[k.key].expires >= executedAt + Timeouts(k.providers) + LOCK_TTL_GRACE_SECONDS
    case Calling(held, failures, since) =>
      held && |failures| < |k.providers| ==>
        k.key in w.locks && w.locks[k.key].token == t
        && w.locks[k.key].expires > since + Timeouts(k.providers[|failures|..])
    case _ => true
  }

  ghost predicate LocksCover(w: World) {
    forall t :: 0 <= t < |w.tasks| ==> LockCovers(w, t)
  }

  predicate HoldsLock(k: Task) {
    (k.pc.LockReplied? && k.pc.held) || (k.pc.Calling? && k.pc.held && |k.pc.failures| < |k.providers|)
  }

  /** The time to live is the least whole number of seconds that covers the chain and the grace. */
  lemma {:induction false} TtlCoversChain(providers: seq<Provider>)
    ensures LockTtl(providers) == LockTtl(providers).Floor as real
    ensures Timeouts(providers) + LOCK_TTL_GRACE_SECONDS <= LockTtl(providers)
    ensures LockTtl(providers) - 1.0 < Timeouts(providers) + LOCK_TTL_GRACE_SECONDS
  {
    CeilIsLeast(Timeouts(providers) + LOCK_TTL_GRACE_SECONDS);
  }

  lemma CeilIsLeast(t: real)
    ensures CeilSeconds(t) == CeilSeconds(t).Floor as real
    ensures t <= CeilSeconds(t) && CeilSeconds(t) - 1.0 < t
  {
    var whole := t.Floor as real;
    assert whole.Floor as real == whole && (whole + 1.0).Floor == t.Floor + 1;
  }

  /** For instance, providers with timeouts of 30 and 12.5 seconds are covered by a lock of 48 seconds. */
  lemma {:induction false} TtlForInstance(p: Provider, q: Provider)
    requires p.timeout == 30.0 && q.timeout == 12.5
    ensures LockTtl([p, q]) == 48.0
  {
    assert [p, q][1..] == [q] && [q][1..] == [];
    assert Timeouts([q]) == 12.5 && Timeouts([p, q]) == 42.5;
    assert (47.5).Floor == 47;
  }

  /** In a timely state a granted lock has not expired. */
  lemma GrantedLockIsAlive(w: World, t: nat)
    requires t < |w.tasks| && TimelyTask(w.now, w.tasks[t]) && LockCovers(w, t) && HoldsLock(w.tasks[t])
    ensures Locked(w, w.tasks[t].key) && w.locks[w.tasks[t].key].token == t
  {
    var k := w.tasks[t];
    TimeoutsNotNegative(k.providers);
    if k.pc.Calling? {
      var rest := k.providers[|k.pc.failures|..];
      TimeoutsNotNegative(rest[1..]);
      assert rest[0] == k.providers[|k.pc.failures|];
    }
  }

  /** No task's Redis command touches a live lock with another token: neither taking it nor releasing its own. */
  lemma OthersSpareLock(w: World, u: nat, served: bool, answered: bool, key: CacheKey)
    requires u < |w.tasks| && WaitsOnRedis(w.tasks[u].pc)
    requires Locked(w, key) && w.locks[key].token != u
    ensures var w' := RedisStep(w, u, served, answered);
      key in w'.locks && w'.locks[key] == w.locks[key]
  {
  }

  lemma {:induction false} OthersKeepCover(w: World, e: Event, t: nat)
    requires Enabled(w, e) && t < |w.tasks| && LockCovers(w, t) && TimelyTask(w.now, w.tasks[t])
    requires Mover(e) != Some(t)
    ensures t < |Apply(w, e).tasks| && LockCovers(Apply(w, e), t)
  {
    var w' := Apply(w, e);
    if Mover(e).Some? {
      StepMovesOneTask(w, e);
      match e {
        case Redis(u, served, answered) =>
          if HoldsLock(w.tasks[t]) {
            GrantedLockIsAlive(w, t);
            OthersSpareLock(w, u, served, answered, w.tasks[t].key);
          }
        case Resume(u) => ResumeKeepsLocks(w, u);
        case Answer(u, attempt) =>
        case _ =>
      }
    }
  }

  lemma ResumeKeepsLocks(w: World, t: nat)
    requires Runnable(w, t)
    ensures ResumeStep(w, t).locks == w.locks
  {
  }

  lemma RedisCovers(w: World, t: nat, served: bool, answered: bool)
    requires t < |w.tasks| && WaitsOnRedis(w.tasks[t].pc)
    ensures var w' := RedisStep(w, t, served, answered);
      |w'.tasks| == |w.tasks| && LockCovers(w', t)
  {
    RedisMovesOne(w, t, served, answered);
    TtlCoversChain(w.tasks[t].providers);
  }

  /** Only a granted lock leads to a chain that counts as held. */
  lemma ResumeToCalling(w: World, t: nat)
    requires Runnable(w, t) && !w.tasks[t].pc.Calling?
    ensures |ResumeStep(w, t).tasks| == |w.tasks|
    ensures !ResumeStep(w, t).tasks[t].pc.LockReplied?
    ensures ResumeStep(w, t).tasks[t].pc.Calling? ==>
      ResumeStep(w, t).tasks[t].pc == Calling(w.tasks[t].pc.LockReplied?, [], w.now)
      && (w.tasks[t].pc.LockReplied? ==> w.tasks[t].pc.held)
  {
    match w.tasks[t].pc
    case CacheReplied(_) =>
    case Following(_) =>
    case LockReplied(_, _) =>
    case PollReplied(_, _, _) =>
    case Released(_) =>
    case _ =>
  }

  lemma ResumeCovers(w: World, t: nat)
    requires Runnable(w, t) && LockCovers(w, t) && TimelyTask(w.now, w.tasks[t])
    ensures |ResumeStep(w, t).tasks| == |w.tasks| && LockCovers(ResumeStep(w, t), t)
  {
    ResumeMovesOne(w, t);
    ResumeKeepsLocks(w, t);
    ResumeToCalling(w, t);
    assert w.tasks[t].providers[0..] == w.tasks[t].providers;
  }

  lemma AnswerCovers(w: World, t: nat, attempt: Attempt)
    requires InChain(w, t) && LockCovers(w, t) && TimelyTask(w.now, w.tasks[t])
    ensures |AnswerStep(w, t, attempt).tasks| == |w.tasks| && LockCovers(AnswerStep(w, t, attempt), t)
  {
    AnswerMovesOne(w, t, attempt);
    var k := w.tasks[t];
    var i := |k.pc.failures|;
    assert k.providers[i..][0] == k.providers[i] && k.providers[i..][1..] == k.providers[i + 1..];
    AnswerStaysOrLeaves(w, t, attempt);
  }

  /** A provider error moves the chain on by one provider, with the clock restarted; anything else ends it. */
  lemma AnswerStaysOrLeaves(w: World, t: nat, attempt: Attempt)
    requires InChain(w, t)
    ensures var w' := AnswerStep(w, t, attempt);
      |w'.tasks| == |w.tasks| && w'.locks == w.locks && !w'.tasks[t].pc.LockReplied?
      && (w'.tasks[t].pc.Calling? ==>
            attempt.Failed?
            && w'.tasks[t].pc == Calling(w.tasks[t].pc.held, w.tasks[t].pc.failures + [attempt.error], w.now))
  {
  }

  lemma StepKeepsCover(w: World, e: Event)
    requires LocksCover(w) && Timely(w) && Enabled(w, e)
    ensures LocksCover(Apply(w, e))
  {
    var w' := Apply(w, e);
    forall t | 0 <= t < |w'.tasks| ensures LockCovers(w', t) {
      if t < |w.tasks| {
        assert LockCovers(w, t) && TimelyTask(w.now, w.tasks[t]);
        if Mover(e) == Some(t) {
          match e {
            case Redis(_, served, answered) => RedisCovers(w, t, served, answered);
            case Resume(_) => ResumeCovers(w, t);
            case Answer(_, attempt) => AnswerCovers(w, t, attempt);
            case _ =>
          }
        } else {
          OthersKeepCover(w, e, t);
        }
      } else if Mover(e).Some? {
        StepMovesOneTask(w, e);
      }
    }
  }

  lemma {:induction false} TimelyRunCovers(events: seq<Event>)
    requires Legal(events) && TimelyRun(events)
    ensures LocksCover(Reach(events))
  {
    if events != [] {
      TimelyRunCovers(events[..|events| - 1]);
      StepKeepsCover(Reach(events[..|events| - 1]), events[|events| - 1]);
    }
  }

  // ---------- Giving the lock up ----------

  /** In the run, the server executed the release that task `t` sent. */
  predicate ReleaseServed(events: seq<Event>, t: nat)
    requires Legal(events)
    decreases |events|
  {
    events != [] &&
    var before, e := events[..|events| - 1], events[|events| - 1];
    (e.Redis? && e.task == t && e.served && Reach(before).tasks[t].pc.Releasing?) || ReleaseServed(before, t)
  }

  /** Past its release, the task has no live lock. */
  ghost predicate LockGivenUp(w: World, t: nat) {
    && t < |w.tasks|
    && (var pc := w.tasks[t].pc; pc.Released? || pc.Storing? || pc.Stored? || pc.Returned?)
    && !(Locked(w, w.tasks[t].key) && w.locks[w.tasks[t].key].token == t)
  }

  lemma ResumeStaysPast(w: World, t: nat)
    requires Runnable(w, t) && (w.tasks[t].pc.Released? || w.tasks[t].pc.Stored?)
    ensures var w' := ResumeStep(w, t); w'.tasks[t].pc.Storing? || w'.tasks[t].pc.Returned?
  {
  }

  lemma StepKeepsLockGivenUp(w: World, e: Event, t: nat)
    requires Enabled(w, e) && LockGivenUp(w, t)
    ensures LockGivenUp(Apply(w, e), t)
  {
    if Mover(e).Some? {
      StepMovesOneTask(w, e);
      assert Apply(w, e).tasks[t].Where() == w.tasks[t].Where();
      match e
      case Redis(u, served, answered) =>
      case Resume(u) =>
        ResumeKeepsLocks(w, u);
        if u == t { ResumeStaysPast(w, t); }
      case Answer(u, attempt) => AnswerStaysOrLeaves(w, u, attempt);
    }
  }

  // ---------- Main results ----------

  /** Once the server has executed a task's release, the task never again has a live lock in Redis. */
  lemma {:induction false} ReleasedLockStaysGone(events: seq<Event>, t: nat)
    requires Legal(events) && ReleaseServed(events, t)
    ensures LockGivenUp(Reach(events), t)
  {
    var before, e := events[..|events| - 1], events[|events| - 1];
    if ReleaseServed(before, t) {
      ReleasedLockStaysGone(before, t);
      StepKeepsLockGivenUp(Reach(before), e, t);
    }
  }

  /** Throughout its chain, however many providers fail on the way, the holder's lock in Redis is its own and alive. */
  lemma {:induction false} LockOutlastsChain(events: seq<Event>, t: nat)
    requires Legal(events) && TimelyRun(events) && t < |Reach(events).tasks| && HoldsLock(Reach(events).tasks[t])
    ensures Locked(Reach(events), Reach(events).tasks[t].key)
    ensures Reach(events).locks[Reach(events).tasks[t].key].token == t
  {
    TimelyRunCovers(events);
    GrantedLockIsAlive(Reach(events), t);
  }

  /** Two lock holders for one key, on whatever replicas, are never in the provider chain at the same time. */
  lemma {:induction false} LockHoldersExclude(events: seq<Event>, t: nat, u: nat)
    requires Legal(events) && TimelyRun(events) && t < |Reach(events).tasks| && u < |Reach(events).tasks|
    requires HoldsLock(Reach(events).tasks[t]) && HoldsLock(Reach(events).tasks[u])
    requires Reach(events).tasks[t].key == Reach(events).tasks[u].key
    ensures t == u
  {
    LockOutlastsChain(events, t);
    LockOutlastsChain(events, u);
  }
}
