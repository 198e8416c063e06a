/**
 What a request experiences, read off the shared state: what a cache read finds, whether a lock is granted, when
 a task joins the call in flight and what it gets from it, what a leader leaves behind.
 */
module Handling {
  import opened Wrappers
  import opened Api
  import opened Fallback
  import opened SingleFlight
  import opened Coalescing

  /** The state with task `t` at `pc` and everything else as it is. */
  function At(w: World, t: nat, pc: Pc): World
    requires t < |w.tasks|
  {
    w.(tasks := w.tasks[t := w.tasks[t].(pc := pc)])
  }

  // ---------- Reading the cache ----------

  /** A reply tells what is there: the live entry's response, a live entry without one, or no live entry. */
  ghost predicate Tells(w: World, key: CacheKey, reply: Reply) {
    && (forall response :: reply == Found(response) <==>
          key in w.cache && w.now < w.cache[key].expires && w.cache[key].value == Some(response))
    && (reply == Unreadable <==> key in w.cache && w.now < w.cache[key].expires && w.cache[key].value == None)
    && (reply == Missing <==> key !in w.cache || w.cache[key].expires <= w.now)
  }

  /** A read changes nothing else; without an answer of the server it gives an error. */
  lemma ReadTells(w: World, t: nat, served: bool, answered: bool)
    requires Enabled(w, Redis(t, served, answered)) && w.tasks[t].pc.CacheRead?
    ensures var w' := Apply(w, Redis(t, served, answered));
      t < |w'.tasks| && w'.tasks[t].pc.CacheReplied? && w' == At(w, t, w'.tasks[t].pc)
      && if served && answered then Tells(w, w.tasks[t].key, w'.tasks[t].pc.reply)
         else w'.tasks[t].pc.reply == Errored
  {
  }

  lemma PollTells(w: World, t: nat, served: bool, answered: bool)
    requires Enabled(w, Redis(t, served, answered)) && w.tasks[t].pc.Polling?
    ensures var w' := Apply(w, Redis(t, served, answered)); var pc := w.tasks[t].pc;
      t < |w'.tasks| && w'.tasks[t].pc.PollReplied? && w' == At(w, t, w'.tasks[t].pc)
      && w'.tasks[t].pc.deadline == pc.deadline && w'.tasks[t].pc.checkedAt == pc.checkedAt
      && if served && answered then Tells(w, w.tasks[t].key, w'.tasks[t].pc.reply)
         else w'.tasks[t].pc.reply == Errored
  {
  }

  lemma StreamReadTells(w: World, s: nat, served: bool, answered: bool)
    requires Enabled(w, Stream(s, Command(served, answered))) && w.streams[s].pc.StreamRead?
    ensures var w' := Apply(w, Stream(s, Command(served, answered)));
      w' == w.(streams := w'.streams) && OnlyStreams(w, w', s) && w'.streams[s].pc.StreamReplied?
      && if served && answered then Tells(w, w.streams[s].key, w'.streams[s].pc.reply)
         else w'.streams[s].pc.reply == Errored
  {
  }

  /** An unreadable entry, and no other, is gone after a discard that the server executed. */
  lemma DiscardRemoves(w: World, t: nat, served: bool, answered: bool)
    requires Enabled(w, Redis(t, served, answered)) && w.tasks[t].pc.Discarding?
    ensures Apply(w, Redis(t, served, answered))
         == At(w.(cache := if served then w.cache - {w.tasks[t].key} else w.cache), t, Discarded)
  {
  }

  /** A response that a task finds, first thing or while it waits, is what it returns at once. */
  lemma FoundIsReturned(w: World, t: nat, response: Response)
    requires t < |w.tasks|
    requires w.tasks[t].pc == CacheReplied(Found(response))
          || (w.tasks[t].pc.PollReplied? && w.tasks[t].pc.reply == Found(response))
    ensures Enabled(w, Resume(t))
    ensures var w' := Apply(w, Resume(t));
      w'.tasks[t].pc.Returned? && w'.tasks[t].pc.outcome == Success(response)
      && w'.cache == w.cache && w'.locks == w.locks && w'.inflight == w.inflight
  {
  }

  /** Main result: a live readable entry answers the request that reads it. */
  lemma LiveEntryAnswers(w: World, t: nat, response: Response)
    requires t < |w.tasks| && w.tasks[t].pc.CacheRead? && w.tasks[t].key in w.cache
    requires var entry := w.cache[w.tasks[t].key]; entry.value == Some(response) && w.now < entry.expires
    ensures Enabled(w, Redis(t, true, true)) && Enabled(Apply(w, Redis(t, true, true)), Resume(t))
    ensures var w' := Apply(Apply(w, Redis(t, true, true)), Resume(t));
      w'.tasks[t].pc.Returned? && w'.tasks[t].pc.outcome == Success(response)
  {
    ReadTells(w, t, true, true);
    FoundIsReturned(Apply(w, Redis(t, true, true)), t, response);
  }

  lemma StreamLiveEntryAnswers(w: World, s: nat, response: Response)
    requires s < |w.streams| && w.streams[s].pc.StreamRead? && w.streams[s].key in w.cache
    requires var entry := w.cache[w.streams[s].key]; entry.value == Some(response) && w.now < entry.expires
    ensures Enabled(w, Stream(s, Command(true, true)))
    ensures Enabled(Apply(w, Stream(s, Command(true, true))), Stream(s, Proceed))
    ensures var w' := Apply(Apply(w, Stream(s, Command(true, true))), Stream(s, Proceed));
      w'.streams[s].pc == StreamOver(Replayed(response))
  {
    StreamReadTells(w, s, true, true);
  }

  // ---------- After a miss ----------

  /** The task has read the cache and has no response from it. */
  predicate Missed(pc: Pc) {
    pc == CacheReplied(Missing) || pc == CacheReplied(Errored) || pc == Discarded
  }

  lemma UnreadableIsDiscarded(w: World, t: nat)
    requires t < |w.tasks| && w.tasks[t].pc == CacheReplied(Unreadable)
    ensures Enabled(w, Resume(t)) && Apply(w, Resume(t)) == At(w, t, Discarding)
  {
  }

  /** A task that missed joins the call in flight on its replica, if there is one. */
  lemma MissJoins(w: World, t: nat)
    requires t < |w.tasks| && Missed(w.tasks[t].pc) && Slot(w.tasks[t].replica, w.tasks[t].key) in w.inflight
    ensures Enabled(w, Resume(t))
    ensures Apply(w, Resume(t)) == At(w, t, Following(w.inflight[Slot(w.tasks[t].replica, w.tasks[t].key)]))
  {
  }

  /** Otherwise it tries for the lock, unless no provider serves the model. */
  lemma MissGoesOn(w: World, t: nat)
    requires t < |w.tasks| && Missed(w.tasks[t].pc) && Slot(w.tasks[t].replica, w.tasks[t].key) !in w.inflight
    ensures Enabled(w, Resume(t))
    ensures Apply(w, Resume(t)) ==
      At(w, t, if w.tasks[t].providers != [] then Locking else Returned(Failure(NoProvider([], None)), ByFailing))
  {
  }

  /**
   Main result: an entry that has been spoiled is found unreadable by the next request, which removes it and
   goes on like any other miss.
   */
  lemma SpoiledEntryIsAMiss(w: World, t: nat, expires: real)
    requires t < |w.tasks| && w.tasks[t].pc.CacheRead? && w.now < expires
    ensures var key := w.tasks[t].key;
      Enabled(w, Corrupt(key, expires))
      && var spoiled := Apply(w, Corrupt(key, expires));
      Enabled(spoiled, Redis(t, true, true))
      && var read := Apply(spoiled, Redis(t, true, true));
      Enabled(read, Resume(t))
      && var found := Apply(read, Resume(t));
      Enabled(found, Redis(t, true, true))
      && var discarded := Apply(found, Redis(t, true, true));
      key !in discarded.cache && discarded == At(w.(cache := w.cache - {key}), t, Discarded)
      && Missed(discarded.tasks[t].pc)
  {
    var key := w.tasks[t].key;
    var spoiled := Apply(w, Corrupt(key, expires));
    ReadTells(spoiled, t, true, true);
    var read := Apply(spoiled, Redis(t, true, true));
    UnreadableIsDiscarded(read, t);
    var found := Apply(read, Resume(t));
    DiscardRemoves(found, t, true, true);
    assert spoiled.cache - {key} == w.cache - {key};
    assert Apply(found, Redis(t, true, true)).tasks == At(w, t, Discarded).tasks;
  }

  // ---------- Joined ----------

  /** The outcome is the one that the owner's future was settled with. */
  predicate SharesOutcome(outcome: Outcome, future: Future) {
    match future
    case Resolved(response) => outcome == Success(response)
    case Rejected(failure) => outcome == Failure(failure)
    case _ => false
  }

  /** The task still follows the owner, or has returned what the owner's future holds. */
  ghost predicate Joined(w: World, t: nat, owner: nat) {
    && t < |w.tasks| && owner < |w.tasks|
    && (w.tasks[t].pc == Following(owner)
        || (w.tasks[t].pc.Returned? && SharesOutcome(w.tasks[t].pc.outcome, w.tasks[owner].future)))
  }

  /** A follower that goes on returns what the future holds, and does nothing but record it. */
  lemma FollowerReturns(w: World, t: nat)
    requires t < |w.tasks| && w.tasks[t].pc.Following? && Enabled(w, Resume(t))
    ensures var owner, w' := w.tasks[t].pc.owner, Apply(w, Resume(t));
      owner < |w.tasks| && t < |w'.tasks|
      && w'.tasks[t].pc.Returned? && SharesOutcome(w'.tasks[t].pc.outcome, w.tasks[owner].future)
      && w'.cache == w.cache && w'.locks == w.locks && w'.inflight == w.inflight
  {
  }

  /** It can go on as soon as the future is settled. */
  lemma SettledWakes(w: World, t: nat)
    requires t < |w.tasks| && w.tasks[t].pc.Following? && w.tasks[t].pc.owner < |w.tasks|
    requires w.tasks[w.tasks[t].pc.owner].future.Resolved? || w.tasks[w.tasks[t].pc.owner].future.Rejected?
    ensures Enabled(w, Resume(t))
  {
  }

  lemma StepKeepsJoined(w: World, e: Event, t: nat, owner: nat)
    requires Inv(w) && Enabled(w, e) && Joined(w, t, owner)
    ensures Joined(Apply(w, e), t, owner)
  {
    assert TaskOk(w.tasks[t]) && TaskOk(w.tasks[owner]);
    if Mover(e).Some? {
      StepMovesOneTask(w, e);
      MoverSettles(w, e);
      if Mover(e).value == t {
        assert e == Resume(t);
        FollowerReturns(w, t);
        assert w.tasks[owner].future != NoFuture;
      }
    }
  }

  /** Main result: a request that finds a call in flight on its replica joins it. */
  lemma {:induction false} MissJoinsTheCall(events: seq<Event>, t: nat)
    requires Legal(events) && t < |Reach(events).tasks| && Missed(Reach(events).tasks[t].pc)
    requires Slot(Reach(events).tasks[t].replica, Reach(events).tasks[t].key) in Reach(events).inflight
    ensures Legal(events + [Resume(t)])
    ensures var w := Reach(events); var owner := w.inflight[Slot(w.tasks[t].replica, w.tasks[t].key)];
      var w' := Reach(events + [Resume(t)]);
      w' == At(w, t, Following(owner)) && owner < |w.tasks| && w.tasks[owner].pc.Calling?
      && w.tasks[owner].key == w.tasks[t].key && w.tasks[owner].replica == w.tasks[t].replica
  {
    MissJoins(Reach(events), t);
    Extend(events, Resume(t));
    ReachableInv(events);
  }

  /**
   Main result: from then on, in every continuation, it follows that call until it returns what the call's
   future was settled with; it never calls a provider.
   */
  lemma {:induction false} JoinedStays(events: seq<Event>, more: seq<Event>, t: nat)
    requires Legal(events) && Legal(events + more)
    requires t < |Reach(events).tasks| && Reach(events).tasks[t].pc.Following?
    ensures Joined(Reach(events + more), t, Reach(events).tasks[t].pc.owner)
    ensures !Reach(events + more).tasks[t].pc.Calling?
    decreases |more|
  {
    var owner := Reach(events).tasks[t].pc.owner;
    if more == [] {
      ReachableInv(events);
      assert events + more == events;
    } else {
      var less, e := more[..|more| - 1], more[|more| - 1];
      assert (events + more)[..|events + more| - 1] == events + less;
      assert (events + more)[|events + more| - 1] == e;
      JoinedStays(events, less, t);
      ReachableInv(events + less);
      StepKeepsJoined(Reach(events + less), e, t, owner);
    }
  }

  // ---------- The lock ----------

  /**
   The lock is granted exactly if there is none or it has expired, and the reply arrives; then Redis holds it
   under the task's own token until its time to live has passed. A live lock is left alone.
   */
  lemma LockIsGranted(w: World, t: nat, served: bool, answered: bool)
    requires Enabled(w, Redis(t, served, answered)) && w.tasks[t].pc.Locking?
    ensures var w', key := Apply(w, Redis(t, served, answered)), w.tasks[t].key;
      var taken := served && (key !in w.locks || w.locks[key].expires <= w.now);
      w' == At(w.(locks := if taken then w.locks[key := Lock(t, w.now + LockTtl(w.tasks[t].providers))] else w.locks),
               t, LockReplied(taken && answered, w.now))
  {
  }

  /** The release deletes the task's own live lock, and nothing else. */
  lemma LockIsReleased(w: World, t: nat, served: bool, answered: bool)
    requires Enabled(w, Redis(t, served, answered)) && w.tasks[t].pc.Releasing?
    ensures var w', key := Apply(w, Redis(t, served, answered)), w.tasks[t].key;
      var own := served && key in w.locks && w.now < w.locks[key].expires && w.locks[key].token == t;
      w' == At(w.(locks := if own then w.locks - {key} else w.locks), t, Released(w.tasks[t].pc.result))
  {
  }

  /** A refused task waits for the result of whoever holds the lock, two seconds at most. */
  lemma RefusedWaits(w: World, t: nat)
    requires t < |w.tasks| && w.tasks[t].pc.LockReplied? && !w.tasks[t].pc.held
    ensures Enabled(w, Resume(t)) && Apply(w, Resume(t)) == At(w, t, Polling(w.now + 2.0, w.now))
  {
  }

  /** It polls again a twentieth of a second after a poll that found nothing, as long as there is time. */
  lemma WaiterPollsOn(w: World, t: nat)
    requires t < |w.tasks|
    ensures w.tasks[t].pc.PollReplied? && w.tasks[t].pc.reply == Missing ==>
      Enabled(w, Resume(t)) && Apply(w, Resume(t)) == At(w, t, Sleeping(w.tasks[t].pc.deadline, w.now + 0.05))
    ensures w.tasks[t].pc.Sleeping? && w.tasks[t].pc.wake <= w.now < w.tasks[t].pc.deadline ==>
      Enabled(w, Resume(t)) && Apply(w, Resume(t)) == At(w, t, Polling(w.tasks[t].pc.deadline, w.now))
  {
  }

  // ---------- Leading ----------

  /** A leader registers a pending future in its replica's table and starts with the first provider. */
  lemma LeaderRegisters(w: World, t: nat)
    requires t < |w.tasks|
    requires (w.tasks[t].pc.LockReplied? && w.tasks[t].pc.held)
          || (w.tasks[t].pc.PollReplied? && (w.tasks[t].pc.reply == Errored || w.tasks[t].pc.reply == Unreadable))
          || (w.tasks[t].pc.Sleeping? && w.tasks[t].pc.wake <= w.now && w.tasks[t].pc.deadline <= w.now)
    ensures Enabled(w, Resume(t))
    ensures var k := w.tasks[t];
      Apply(w, Resume(t)) == w.(
        tasks := w.tasks[t := k.(pc := Calling(k.pc.LockReplied?, [], w.now), future := Pending)],
        inflight := w.inflight[Slot(k.replica, k.key) := t])
  {
  }

  /** The table without the task's own entry, if it has one. */
  function Deregistered(w: World, t: nat): map<Slot, nat>
    requires t < |w.tasks|
  {
    var slot := Slot(w.tasks[t].replica, w.tasks[t].key);
    if slot in w.inflight && w.inflight[slot] == t then w.inflight - {slot} else w.inflight
  }

  /** A provider error sends the chain on to the next provider, if there is one. */
  lemma ErrorTriesNext(w: World, t: nat, error: ErrorKind)
    requires Enabled(w, Answer(t, Failed(error))) && |w.tasks[t].pc.failures| + 1 < |w.tasks[t].providers|
    ensures var pc := w.tasks[t].pc;
      Apply(w, Answer(t, Failed(error))) == At(w, t, Calling(pc.held, pc.failures + [error], w.now))
  {
  }

  /** What the last answer of a chain makes of it. */
  ghost predicate EndsIn(k: Task, attempt: Attempt, result: ChainResult)
    requires k.pc.Calling? && |k.pc.failures| < |k.providers|
  {
    match attempt
    case Answered(response) => result == Served(k.providers[|k.pc.failures|], response)
    case Crashed => result == Raised(Unexpected)
    case Failed(error) =>
      |k.pc.failures| + 1 == |k.providers|
      && exists names :: result == Raised(NoProvider(names, Some(error))) && |names| == |k.providers|
           && forall i :: 0 <= i < |names| ==> names[i] == k.providers[i].name
  }

  /**
   The end of a chain: the task's own entry leaves the table; a failure rejects the future. With the lock, the
   release comes next; without, a response resolves the future and goes to the cache, a failure is returned.
   */
  lemma ChainEnds(w: World, t: nat, attempt: Attempt, result: ChainResult)
    requires Enabled(w, Answer(t, attempt)) && EndsIn(w.tasks[t], attempt, result)
    ensures var k, w' := w.tasks[t], Apply(w, Answer(t, attempt));
      w' == w.(tasks := w'.tasks, inflight := Deregistered(w, t)) && t < |w'.tasks|
      && w'.tasks == w.tasks[t := w'.tasks[t]]
      && (k.pc.held ==> w'.tasks[t].pc == Releasing(result))
      && (!k.pc.held && result.Served? ==>
            w'.tasks[t] == k.(pc := Storing(result.provider, result.response), future := Resolved(result.response)))
      && (!k.pc.held && result.Raised? ==> w'.tasks[t].pc == Returned(Failure(result.failure), ByFailing))
      && (result.Raised? ==> w'.tasks[t].future == Rejected(result.failure))
      && (k.pc.held && result.Served? ==> w'.tasks[t].future == k.future)
  {
    if attempt.Failed? {
      var names :| result == Raised(NoProvider(names, Some(attempt.error))) && |names| == |w.tasks[t].providers|
        && forall i :: 0 <= i < |names| ==> names[i] == w.tasks[t].providers[i].name;
      assert names == Names(w.tasks[t].providers);
    }
  }

  /** After the release, a response resolves the future and goes to the cache, a failure is returned. */
  lemma ReleasedSettles(w: World, t: nat)
    requires t < |w.tasks| && w.tasks[t].pc.Released?
    ensures Enabled(w, Resume(t))
    ensures var k, result := w.tasks[t], w.tasks[t].pc.result;
      match result
      case Served(provider, response) =>
        Apply(w, Resume(t)) ==
        w.(tasks := w.tasks[t := k.(pc := Storing(provider, response), future := Resolved(response))])
      case Raised(failure) => Apply(w, Resume(t)) == At(w, t, Returned(Failure(failure), ByFailing))
  {
  }

  /** A store that the server executes puts the response into the cache for its time to live. */
  lemma StoreIsKept(w: World, t: nat, served: bool, answered: bool)
    requires Enabled(w, Redis(t, served, answered)) && w.tasks[t].pc.Storing?
    ensures var k := w.tasks[t];
      Apply(w, Redis(t, served, answered)) ==
      At(w.(cache := if served then w.cache[k.key := Entry(Some(k.pc.response), w.now + k.cacheTtl)] else w.cache),
         t, Stored(k.pc.provider, k.pc.response))
  {
  }

  lemma StoredIsReturned(w: World, t: nat)
    requires t < |w.tasks| && w.tasks[t].pc.Stored?
    ensures Enabled(w, Resume(t))
    ensures var pc, w' := w.tasks[t].pc, Apply(w, Resume(t));
      w'.tasks[t].pc == Returned(Success(pc.response), ByLeading(pc.provider))
      && w'.cache == w.cache && w'.locks == w.locks && w'.inflight == w.inflight
  {
  }

  /**
   Main result: what one leader has stored answers, within its time to live, the next request for the same key
   on any replica, as long as nothing happens to the cache in between.
   */
  lemma StoredAnswersTheNext(w: World, leader: nat, elapsed: real, replica: nat, config: Config)
    requires leader < |w.tasks| && w.tasks[leader].pc.Storing? && !w.tasks[leader].key.request.stream
    requires 0.0 <= elapsed < w.tasks[leader].cacheTtl
    ensures var t, k := |w.tasks|, w.tasks[leader];
      Enabled(w, Redis(leader, true, true))
      && var stored := Apply(w, Redis(leader, true, true));
      Enabled(stored, Tick(elapsed))
      && var later := Apply(stored, Tick(elapsed));
      Enabled(later, Arrive(replica, k.key, config))
      && var arrived := Apply(later, Arrive(replica, k.key, config));
      Enabled(arrived, Redis(t, true, true))
      && var read := Apply(arrived, Redis(t, true, true));
      Enabled(read, Resume(t)) && Apply(read, Resume(t)).tasks[t].pc.Returned?
      && Apply(read, Resume(t)).tasks[t].pc.outcome == Success(k.pc.response)
  {
    var t, k := |w.tasks|, w.tasks[leader];
    StoreIsKept(w, leader, true, true);
    var later := Apply(Apply(w, Redis(leader, true, true)), Tick(elapsed));
    var arrived := Apply(later, Arrive(replica, k.key, config));
    ArrivalReads(later, replica, k.key, config);
    LiveEntryAnswers(arrived, t, k.pc.response);
  }

  /** A request starts with a cache read, under the providers that routing selects on its replica. */
  lemma ArrivalReads(w: World, replica: nat, key: CacheKey, config: Config)
    requires !key.request.stream
    ensures Enabled(w, Arrive(replica, key, config))
    ensures var w', t := Apply(w, Arrive(replica, key, config)), |w.tasks|;
      |w'.tasks| == t + 1 && w' == w.(tasks := w.tasks + [w'.tasks[t]])
      && var k := w'.tasks[t];
         k.replica == replica && k.key == key && k.cacheTtl == config.cacheTtl && k.pc == CacheRead
         && k.future == NoFuture && k.providers == Routing.SelectProviders(config.registry, key.request.model)
  {
  }

  // ---------- Streaming requests ----------

  lemma StreamArrivalReads(w: World, key: CacheKey, config: Config)
    requires key.request.stream
    ensures Enabled(w, StreamArrive(key, config))
    ensures var w', s := Apply(w, StreamArrive(key, config)), |w.streams|;
      |w'.streams| == s + 1 && w' == w.(streams := w.streams + [w'.streams[s]])
      && var k := w'.streams[s];
         k.key == key && k.cacheTtl == config.cacheTtl && k.pc == StreamRead
         && k.providers == Routing.SelectProviders(config.registry, key.request.model)
  {
  }

  /** A discard removes the entry, a store puts the response that the lines rebuild; the stream is over then. */
  lemma StreamCommandsAct(w: World, s: nat, served: bool, answered: bool)
    requires Enabled(w, Stream(s, Command(served, answered))) && !w.streams[s].pc.StreamRead?
    ensures var k, w' := w.streams[s], Apply(w, Stream(s, Command(served, answered)));
      w' == w.(streams := w'.streams, cache := w'.cache) && OnlyStreams(w, w', s)
      && match k.pc
         case StreamDiscarding =>
           w'.streams[s].pc == StreamDiscarded && w'.cache == if served then w.cache - {k.key} else w.cache
         case StreamStoring(provider, lines, created) =>
           w'.streams[s].pc == StreamOver(Whole(provider, lines, created))
           && (!served ==> w'.cache == w.cache)
           && (served ==>
                 k.key in w'.cache && w'.cache == w.cache[k.key := w'.cache[k.key]]
                 && w'.cache[k.key].expires == w.now + k.cacheTtl && w'.cache[k.key].value.Some?
                 && Carries(w'.cache[k.key].value.value, lines, created))
         case _ => false
  {
    match w.streams[s].pc
    case StreamStoring(provider, lines, created) =>
      Streaming.GatheredFields(lines);
      Streaming.GatheredCounts(lines);
      Streaming.ResponseCarries(Streaming.Gather(Streaming.NOTHING, lines), created);
    case _ =>
  }

  /** The response is the one that the lines tell. */
  ghost predicate Carries(r: Response, lines: seq<Streaming.Line>, created: int) {
    && r.created == created && r.model == Streaming.LastText(lines, Streaming.MODEL)
    && |r.choices| == 1 && r.choices[0].content == Streaming.AllContent(lines)
    && r.choices[0].finishReason == Streaming.LastFinish(lines)
    && r.usage.promptTokens == Streaming.LastUsable(lines, Streaming.PROMPT)
    && r.usage.completionTokens == Streaming.LastUsable(lines, Streaming.COMPLETION)
    && r.usage.totalTokens == Streaming.LastUsable(lines, Streaming.TOTAL)
    && var id := Streaming.LastText(lines, Streaming.ID); r.id == if id == "" then "chatcmpl-cached" else id
  }

  /** A streaming miss asks the first provider, if there is one, whoever else is asking for the same. */
  lemma StreamMissStarts(w: World, s: nat)
    requires s < |w.streams|
    requires w.streams[s].pc == StreamReplied(Missing) || w.streams[s].pc == StreamReplied(Errored)
          || w.streams[s].pc == StreamDiscarded
    ensures Enabled(w, Stream(s, Proceed))
    ensures Apply(w, Stream(s, Proceed)) == w.(streams := w.streams[s := w.streams[s].(
      pc := if w.streams[s].providers == [] then StreamOver(NotStarted([], None)) else Relaying(0, None, []))])
  {
  }

  lemma StreamUnreadableIsDiscarded(w: World, s: nat)
    requires s < |w.streams| && w.streams[s].pc == StreamReplied(Unreadable)
    ensures Enabled(w, Stream(s, Proceed))
    ensures Apply(w, Stream(s, Proceed)) == w.(streams := w.streams[s := w.streams[s].(pc := StreamDiscarding)])
  {
  }
}
