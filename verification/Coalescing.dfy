/** What every reachable state of the single-flight machine keeps about futures and the in-flight table. */
module Coalescing {
  import opened Api
  import opened Fallback
  import opened SingleFlight

  /** The future of a task follows from where the task is. */
  ghost predicate TaskOk(k: Task) {
    match k.pc
    case Calling(_, failures, _) => k.future == Pending && |failures| < |k.providers|
    case Releasing(result) => k.future == if result.Served? then Pending else Rejected(result.failure)
    case Released(result) => k.future == if result.Served? then Pending else Rejected(result.failure)
    case Storing(_, response) => k.future == Resolved(response)
    case Stored(_, response) => k.future == Resolved(response)
    case Returned(outcome, via) =>
      (match via
       case ByLeading(_) => outcome.Success? && k.future == Resolved(outcome.response)
       case ByFailing => outcome.Failure? && (k.future == NoFuture || k.future == Rejected(outcome.failure))
       case _ => outcome.Success? && k.future == NoFuture)
    case Locking => k.future == NoFuture && k.providers != []
    case LockReplied(_, _) => k.future == NoFuture && k.providers != []
    case Polling(_, _) => k.future == NoFuture && k.providers != []
    case PollReplied(_, _, _) => k.future == NoFuture && k.providers != []
    case Sleeping(_, _) => k.future == NoFuture && k.providers != []
    case _ => k.future == NoFuture
  }

  ghost predicate TasksOk(w: World) {
    forall t :: 0 <= t < |w.tasks| ==> TaskOk(w.tasks[t])
  }

  /** An entry of the table belongs to a task of that very slot that is in its provider chain. */
  ghost predicate InflightOk(w: World) {
    forall s :: s in w.inflight ==>
      w.inflight[s] < |w.tasks| && w.tasks[w.inflight[s]].pc.Calling? && w.tasks[w.inflight[s]].Where() == s
  }

  ghost predicate FollowersOk(w: World) {
    forall t :: 0 <= t < |w.tasks| && w.tasks[t].pc.Following? ==>
      var owner := w.tasks[t].pc.owner;
      owner < |w.tasks| && w.tasks[owner].Where() == w.tasks[t].Where() && w.tasks[owner].future != NoFuture
  }

  ghost predicate Inv(w: World) {
    TasksOk(w) && InflightOk(w) && FollowersOk(w)
  }

  /** How a step of task `t` may change the in-flight table: keep entries, drop its own, or add its own. */
  ghost predicate TableMoves(w: World, w': World, t: nat)
    requires t < |w.tasks| == |w'.tasks|
  {
    && (forall s :: s in w'.inflight ==>
          (s in w.inflight && w'.inflight[s] == w.inflight[s])
          || (s == w'.tasks[t].Where() && w'.inflight[s] == t && w'.tasks[t].pc.Calling?))
    && (w.tasks[t].pc.Calling? && !w'.tasks[t].pc.Calling? ==>
          w.tasks[t].Where() in w'.inflight ==> w'.inflight[w.tasks[t].Where()] != t)
  }

  /** A follower joins the task that its replica's table names, or stays with the one it has. */
  ghost predicate JoinsTable(w: World, w': World, t: nat)
    requires t < |w.tasks| == |w'.tasks|
  {
    w'.tasks[t].pc.Following? ==>
      w.tasks[t].Where() in w.inflight && w'.tasks[t].pc.owner == w.inflight[w.tasks[t].Where()]
  }

  ghost predicate GoodMove(w: World, w': World, t: nat) {
    && OnlyMoves(w, w', t)
    && TaskOk(w'.tasks[t])
    && (w.tasks[t].future != NoFuture ==> w'.tasks[t].future != NoFuture)
    && TableMoves(w, w', t)
    && JoinsTable(w, w', t)
  }

  lemma MoveKeepsInv(w: World, w': World, t: nat)
    requires Inv(w) && GoodMove(w, w', t)
    ensures Inv(w')
  {
    assert TaskOk(w.tasks[t]);
    forall s | s in w'.inflight
      ensures w'.inflight[s] < |w'.tasks| && w'.tasks[w'.inflight[s]].pc.Calling?
           && w'.tasks[w'.inflight[s]].Where() == s
    {
    }
    forall u | 0 <= u < |w'.tasks| && w'.tasks[u].pc.Following?
      ensures var owner := w'.tasks[u].pc.owner;
        owner < |w'.tasks| && w'.tasks[owner].Where() == w'.tasks[u].Where() && w'.tasks[owner].future != NoFuture
    {
      if u == t {
        assert TaskOk(w.tasks[w'.tasks[t].pc.owner]);
      }
    }
  }

  /** A step that changes no table and no future, and ends outside the provider chain. */
  lemma MovedIsGood(w: World, w0: World, t: nat, pc: Pc)
    requires t < |w.tasks| && w0.tasks == w.tasks && w0.inflight == w.inflight
    requires w0.now == w.now && w0.streams == w.streams
    requires !w.tasks[t].pc.Calling? && TaskOk(w.tasks[t].(pc := pc))
    requires pc.Following? ==> w.tasks[t].Where() in w.inflight && pc.owner == w.inflight[w.tasks[t].Where()]
    ensures GoodMove(w, Moved(w0, t, pc), t)
  {
  }

  lemma RedisMove(w: World, t: nat, served: bool, answered: bool)
    requires t < |w.tasks| && TaskOk(w.tasks[t]) && WaitsOnRedis(w.tasks[t].pc)
    ensures GoodMove(w, RedisStep(w, t, served, answered), t)
  {
    RedisMovesOne(w, t, served, answered);
  }

  lemma AfterMissMove(w: World, t: nat)
    requires t < |w.tasks| && !w.tasks[t].pc.Calling? && w.tasks[t].future == NoFuture
    ensures GoodMove(w, AfterMiss(w, t), t)
  {
  }

  lemma CacheAnswerMove(w: World, t: nat, response: Response, via: Via)
    requires t < |w.tasks| && !w.tasks[t].pc.Calling? && w.tasks[t].future == NoFuture
    requires via == ByHit || via == ByFollowing || via == ByWaiting
    ensures GoodMove(w, AnswerFromCache(w, t, response, via), t)
  {
    var record := BuildUsageRecord(w.tasks[t].key.keyId, FromCache, FREE, response.model, response.usage);
    MovedIsGood(w, Recorded(w, t, record), t, Returned(Success(response), via));
  }

  lemma LeadMove(w: World, t: nat, held: bool)
    requires t < |w.tasks| && w.tasks[t].providers != []
    requires !w.tasks[t].pc.Calling? && w.tasks[t].future == NoFuture
    ensures GoodMove(w, Lead(w, t, held), t)
  {
  }

  lemma AfterReleaseMove(w: World, t: nat, result: ChainResult)
    requires t < |w.tasks| && w.tasks[t].pc == Released(result) && TaskOk(w.tasks[t])
    ensures GoodMove(w, AfterRelease(w, t, result), t)
  {
  }

  lemma FinishChainMove(w: World, t: nat, held: bool, result: ChainResult)
    requires t < |w.tasks| && w.tasks[t].future == Pending
    ensures GoodMove(w, FinishChain(w, t, held, result), t)
  {
  }

  lemma {:induction false} ResumeMove(w: World, t: nat)
    requires Runnable(w, t) && TaskOk(w.tasks[t])
    ensures GoodMove(w, ResumeStep(w, t), t)
  {
    match w.tasks[t].pc
    case CacheReplied(reply) =>
      match reply {
       case Found(response) => CacheAnswerMove(w, t, response, ByHit);
       case Unreadable => MovedIsGood(w, w, t, Discarding);
       case _ => AfterMissMove(w, t); }
    case Discarded => AfterMissMove(w, t);
    case Following(owner) =>
      match w.tasks[owner].future {
       case Resolved(response) => CacheAnswerMove(w, t, response, ByFollowing);
       case Rejected(failure) => MovedIsGood(w, w, t, Returned(Failure(failure), ByFailing)); }
    case LockReplied(held, _) =>
      if held { LeadMove(w, t, true); }
      else { MovedIsGood(w, w, t, Polling(w.now + WAIT_TIMEOUT_SECONDS, w.now)); }
    case PollReplied(deadline, _, reply) =>
      match reply {
       case Found(response) => CacheAnswerMove(w, t, response, ByWaiting);
       case Missing => MovedIsGood(w, w, t, Sleeping(deadline, w.now + LOCK_POLL_INTERVAL_SECONDS));
       case _ => LeadMove(w, t, false); }
    case Sleeping(deadline, _) =>
      if w.now < deadline { MovedIsGood(w, w, t, Polling(deadline, w.now)); } else { LeadMove(w, t, false); }
    case Released(result) => AfterReleaseMove(w, t, result);
    case Stored(provider, response) =>
      var record := BuildUsageRecord(w.tasks[t].key.keyId, FromProvider(provider.name),
        provider.PricingFor(w.tasks[t].key.request.model), response.model, response.usage);
      MovedIsGood(w, Recorded(w, t, record), t, Returned(Success(response), ByLeading(provider)));
  }

  lemma {:induction false} AnswerMove(w: World, t: nat, attempt: Attempt)
    requires InChain(w, t) && TaskOk(w.tasks[t])
    ensures GoodMove(w, AnswerStep(w, t, attempt), t)
  {
    var task := w.tasks[t];
    match Next(task.providers, task.pc.failures, attempt)
    case Trying(failures) =>
    case Finished(result) => FinishChainMove(w, t, task.pc.held, result);
  }

  lemma {:induction false} StepKeepsInv(w: World, e: Event)
    requires Inv(w) && Enabled(w, e)
    ensures Inv(Apply(w, e))
  {
    match e
    case Redis(t, served, answered) =>
      RedisMove(w, t, served, answered);
      MoveKeepsInv(w, RedisStep(w, t, served, answered), t);
    case Resume(t) =>
      ResumeMove(w, t);
      MoveKeepsInv(w, ResumeStep(w, t), t);
    case Answer(t, attempt) =>
      AnswerMove(w, t, attempt);
      MoveKeepsInv(w, AnswerStep(w, t, attempt), t);
    case _ =>
  }

  lemma {:induction false} ReachableInv(events: seq<Event>)
    requires Legal(events)
    ensures Inv(Reach(events))
  {
    if events != [] {
      ReachableInv(events[..|events| - 1]);
      StepKeepsInv(Reach(events[..|events| - 1]), events[|events| - 1]);
    }
  }

  // ---------- Main results ----------

  /** Every entry of an in-flight table is a pending future whose owner, on that replica, is in its provider call. */
  lemma {:induction false} InflightEntryIsLive(events: seq<Event>, slot: Slot)
    requires Legal(events) && slot in Reach(events).inflight
    ensures var w := Reach(events); var owner := w.inflight[slot];
      owner < |w.tasks| && w.tasks[owner].Where() == slot
      && w.tasks[owner].pc.Calling? && w.tasks[owner].future == Pending
  {
    ReachableInv(events);
  }

  /** Nobody waits in vain: a follower's future is settled, or its owner is still calling or releasing the lock. */
  lemma {:induction false} NoLostWaiter(events: seq<Event>, t: nat)
    requires Legal(events) && t < |Reach(events).tasks| && Reach(events).tasks[t].pc.Following?
    ensures var w := Reach(events); var owner := w.tasks[t].pc.owner;
      owner < |w.tasks| && w.tasks[owner].Where() == w.tasks[t].Where()
      && var o := w.tasks[owner];
         o.future.Resolved? || o.future.Rejected? || o.pc.Calling?
         || (o.pc.Releasing? && o.pc.result.Served?) || (o.pc.Released? && o.pc.result.Served?)
  {
    ReachableInv(events);
    var w := Reach(events);
    assert TaskOk(w.tasks[w.tasks[t].pc.owner]);
  }

  /** Once all requests are answered no replica holds an entry, whoever overwrote whose. */
  lemma TableEmptyWhenFinished(events: seq<Event>)
    requires Legal(events) && SingleFlight.Finished(Reach(events))
    ensures Reach(events).inflight == map[]
  {
    ReachableInv(events);
    var w := Reach(events);
    forall s ensures s !in w.inflight {
      if s in w.inflight {
        assert false;
      }
    }
  }

  /**
   The order in which a leader settles: with a response in hand it drops its entry, then gives up the lock,
   and only then resolves its future; a failure rejects the future before the lock is given up.
   */
  lemma {:induction false} SettlementOrder(events: seq<Event>, t: nat)
    requires Legal(events) && t < |Reach(events).tasks|
    ensures var w := Reach(events); var k := w.tasks[t];
      (k.pc.Releasing? || k.pc.Released? || k.pc.Storing? || k.pc.Stored? ==>
         k.Where() in w.inflight ==> w.inflight[k.Where()] != t)
      && (k.pc.Releasing? ==> k.future == if k.pc.result.Served? then Pending else Rejected(k.pc.result.failure))
      && (k.pc.Released? ==> k.future == if k.pc.result.Served? then Pending else Rejected(k.pc.result.failure))
      && (k.pc.Storing? || k.pc.Stored? ==> k.future == Resolved(k.pc.response))
  {
    ReachableInv(events);
    assert TaskOk(Reach(events).tasks[t]);
  }

  ghost predicate Settles(before: Future, after: Future) {
    after == before
    || (before.NoFuture? && after.Pending?)
    || (before.Pending? && (after.Resolved? || after.Rejected?))
  }

  lemma MoverSettles(w: World, e: Event)
    requires Inv(w) && Enabled(w, e) && Mover(e).Some?
    ensures var t := Mover(e).value;
      t < |w.tasks| == |Apply(w, e).tasks| && Settles(w.tasks[t].future, Apply(w, e).tasks[t].future)
  {
    var t := Mover(e).value;
    StepMovesOneTask(w, e);
    assert TaskOk(w.tasks[t]);
  }

  /** A future is created pending and settled once; a settled future is never written again. */
  lemma {:induction false} FutureSettledOnce(events: seq<Event>, e: Event, t: nat)
    requires Legal(events) && Enabled(Reach(events), e) && t < |Reach(events).tasks|
    ensures t < |Apply(Reach(events), e).tasks|
    ensures Settles(Reach(events).tasks[t].future, Apply(Reach(events), e).tasks[t].future)
  {
    ReachableInv(events);
    var w := Reach(events);
    if Mover(e).Some? {
      StepMovesOneTask(w, e);
      MoverSettles(w, e);
    }
  }
}
