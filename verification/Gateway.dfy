/**
 The gateway's code in its own shape: the shared Redis, the in-flight tables, the tasks and the streaming
 requests as fields that each stretch between two awaits updates in place. A deployment remembers the
 events it has been through and is at all times in the state that they lead to, so what is proved of all
 runs holds of its fields.
 */
module Gateway {
  import opened Wrappers
  import opened Api
  import opened Fallback
  import opened Routing
  import opened SingleFlight
  import opened Coalescing
  import opened Provenance
  import opened Accounting
  import opened LockTiming

  class Deployment {
    var now: real
    var cache: map<CacheKey, Entry>
    var locks: map<CacheKey, Lock>
    var inflight: map<Slot, nat>
    var tasks: seq<Task>
    var streams: seq<StreamTask>
    var log: seq<Emitted>
    ghost var run: seq<Event>

    ghost function View(): World
      reads this
    {
      World(now, cache, locks, inflight, tasks, streams, log)
    }

    ghost predicate Valid()
      reads this
    {
      Legal(run) && View() == Reach(run)
    }

    constructor ()
      ensures Valid() && run == []
    {
      now, cache, locks, inflight, tasks, streams, log, run := 0.0, map[], map[], map[], [], [], [], [];
    }

    /** The fields have just been through `e`. */
    ghost method Note(e: Event)
      requires Legal(run) && Enabled(Reach(run), e) && View() == Apply(Reach(run), e)
      modifies `run
      ensures Valid() && run == old(run) + [e]
    {
      Extend(run, e);
      run := run + [e];
    }

    method Goto(t: nat, pc: Pc)
      requires t < |tasks|
      modifies `tasks
      ensures View() == Moved(old(View()), t, pc)
    {
      tasks := tasks[t := tasks[t].(pc := pc)];
    }

    method StreamGoto(s: nat, pc: StreamPc)
      requires s < |streams|
      modifies `streams
      ensures View() == StreamMoved(old(View()), s, pc)
    {
      streams := streams[s := streams[s].(pc := pc)];
    }

    // ---------- The outside world ----------

    method Wait(elapsed: real)
      requires Valid() && elapsed >= 0.0
      modifies this
      ensures Valid() && run == old(run) + [Tick(elapsed)]
    {
      now := now + elapsed;
      Note(Tick(elapsed));
    }

    /** An entry becomes unreadable: truncated, or written under another schema. */
    method Spoil(key: CacheKey, expires: real)
      requires Valid()
      modifies this
      ensures Valid() && run == old(run) + [Corrupt(key, expires)]
    {
      cache := cache[key := Entry(None, expires)];
      Note(Corrupt(key, expires));
    }

    /** A request reaches a replica and starts with a cache read. */
    method Accept(replica: nat, key: CacheKey, config: Config) returns (t: nat)
      requires Valid() && !key.request.stream
      modifies this
      ensures Valid() && run == old(run) + [Arrive(replica, key, config)] && t == old(|tasks|) < |tasks|
    {
      t := |tasks|;
      var providers := SelectProviders(config.registry, key.request.model);
      tasks := tasks + [Task(replica, key, providers, config.cacheTtl, CacheRead, NoFuture)];
      Note(Arrive(replica, key, config));
    }

    method AcceptStream(key: CacheKey, config: Config) returns (s: nat)
      requires Valid() && key.request.stream
      modifies this
      ensures Valid() && run == old(run) + [StreamArrive(key, config)] && s == old(|streams|) < |streams|
    {
      s := |streams|;
      var providers := SelectProviders(config.registry, key.request.model);
      streams := streams + [StreamTask(key, providers, config.cacheTtl, StreamRead)];
      Note(StreamArrive(key, config));
    }

    // ---------- The server's side of cache.py ----------

    method Get(key: CacheKey, served: bool, answered: bool) returns (reply: Reply)
      ensures reply == if served && answered then Lookup(View(), key) else Errored
    {
      if !served || !answered {
        return Errored;
      }
      reply := Missing;
      if key in cache && now < cache[key].expires {
        var value := cache[key].value;
        reply := if value.Some? then Found(value.value) else Unreadable;
      }
    }

    method ServeGet(t: nat, served: bool, answered: bool)
      requires Valid() && t < |tasks| && (tasks[t].pc.CacheRead? || tasks[t].pc.Polling?)
      modifies this
      ensures Valid() && run == old(run) + [Redis(t, served, answered)]
    {
      var reply := Get(tasks[t].key, served, answered);
      match tasks[t].pc {
        case CacheRead => Goto(t, CacheReplied(reply));
        case Polling(deadline, checkedAt) => Goto(t, PollReplied(deadline, checkedAt, reply));
      }
      Note(Redis(t, served, answered));
    }

    method ServeDiscard(t: nat, served: bool, answered: bool)
      requires Valid() && t < |tasks| && tasks[t].pc.Discarding?
      modifies this
      ensures Valid() && run == old(run) + [Redis(t, served, answered)]
    {
      if served {
        cache := cache - {tasks[t].key};
      }
      Goto(t, Discarded);
      Note(Redis(t, served, answered));
    }

    /** `SET <key> <token> NX EX <ttl>`. */
    method SetIfAbsent(key: CacheKey, token: nat, ttl: real) returns (ok: bool)
      modifies `locks
      ensures ok == !Locked(old(View()), key)
      ensures locks == if ok then old(locks)[key := Lock(token, now + ttl)] else old(locks)
    {
      ok := !(key in locks && now < locks[key].expires);
      if ok {
        locks := locks[key := Lock(token, now + ttl)];
      }
    }

    method LockOrNot(t: nat, served: bool, answered: bool)
      requires t < |tasks| && tasks[t].pc.Locking?
      modifies `locks, `tasks
      ensures View() == RedisStep(old(View()), t, served, answered)
    {
      LockingStep(View(), t, served, answered);
      var ok := false;
      if served {
        ok := SetIfAbsent(tasks[t].key, t, LockTtl(tasks[t].providers));
      }
      Goto(t, LockReplied(ok && answered, now));
    }

    method AcquireLock(t: nat, served: bool, answered: bool)
      requires Valid() && t < |tasks| && tasks[t].pc.Locking?
      modifies this
      ensures Valid() && run == old(run) + [Redis(t, served, answered)]
    {
      LockOrNot(t, served, answered);
      Note(Redis(t, served, answered));
    }

    /** The script that deletes the lock only if it still holds the caller's token. */
    method ReleaseLock(t: nat, served: bool, answered: bool)
      requires Valid() && t < |tasks| && tasks[t].pc.Releasing?
      modifies this
      ensures Valid() && run == old(run) + [Redis(t, served, answered)]
    {
      var key := tasks[t].key;
      if served && key in locks && now < locks[key].expires && locks[key].token == t {
        locks := locks - {key};
      }
      Goto(t, Released(tasks[t].pc.result));
      Note(Redis(t, served, answered));
    }

    method ServeSet(t: nat, served: bool, answered: bool)
      requires Valid() && t < |tasks| && tasks[t].pc.Storing?
      modifies this
      ensures Valid() && run == old(run) + [Redis(t, served, answered)]
    {
      var response := tasks[t].pc.response;
      if served {
        cache := cache[tasks[t].key := Entry(Some(response), now + tasks[t].cacheTtl)];
      }
      Goto(t, Stored(tasks[t].pc.provider, response));
      Note(Redis(t, served, answered));
    }

    /** The commands of a streaming request: read, discard, store. */
    method ServeStream(s: nat, served: bool, answered: bool)
      requires Valid() && StreamEnabled(View(), s, Command(served, answered))
      modifies this
      ensures Valid() && run == old(run) + [Stream(s, Command(served, answered))]
    {
      var key := streams[s].key;
      match streams[s].pc {
        case StreamRead =>
          var reply := Get(key, served, answered);
          StreamGoto(s, StreamReplied(reply));
        case StreamDiscarding =>
          if served {
            cache := cache - {key};
          }
          StreamGoto(s, StreamDiscarded);
        case StreamStoring(provider, lines, created) =>
          if served {
            var response := Streaming.ToResponse(Streaming.Gather(Streaming.NOTHING, lines), created);
            cache := cache[key := Entry(Some(response), now + streams[s].cacheTtl)];
          }
          StreamGoto(s, StreamOver(Whole(provider, lines, created)));
      }
      Note(Stream(s, Command(served, answered)));
    }

    // ---------- handle_chat_completion, from await to await ----------

    method RecordCacheStyleUsage(t: nat, response: Response, via: Via)
      requires t < |tasks|
      modifies `log, `tasks
      ensures View() == AnswerFromCache(old(View()), t, response, via)
    {
      var record := BuildUsageRecord(tasks[t].key.keyId, FromCache, FREE, response.model, response.usage);
      log := log + [Emitted(ByTask(t), record)];
      Goto(t, Returned(Success(response), via));
    }

    method Miss(t: nat)
      requires t < |tasks|
      modifies `tasks
      ensures View() == AfterMiss(old(View()), t)
    {
      var slot := tasks[t].Where();
      if slot in inflight {
        Goto(t, Following(inflight[slot]));
      } else if tasks[t].providers == [] {
        Goto(t, Returned(Failure(NoProvider([], None)), ByFailing));
      } else {
        Goto(t, Locking);
      }
    }

    method ResumeAfterGet(t: nat)
      requires Valid() && t < |tasks| && (tasks[t].pc.CacheReplied? || tasks[t].pc.Discarded?)
      modifies this
      ensures Valid() && run == old(run) + [Resume(t)]
    {
      var pc := tasks[t].pc;
      if pc.CacheReplied? && pc.reply.Found? {
        RecordCacheStyleUsage(t, pc.reply.response, ByHit);
      } else if pc.CacheReplied? && pc.reply.Unreadable? {
        Goto(t, Discarding);
      } else {
        Miss(t);
      }
      Note(Resume(t));
    }

    method ResumeFollower(t: nat)
      requires Valid() && Runnable(View(), t) && tasks[t].pc.Following?
      modifies this
      ensures Valid() && run == old(run) + [Resume(t)]
    {
      match tasks[tasks[t].pc.owner].future {
        case Resolved(response) => RecordCacheStyleUsage(t, response, ByFollowing);
        case Rejected(failure) => Goto(t, Returned(Failure(failure), ByFailing));
      }
      Note(Resume(t));
    }

    method ResumeAfterLock(t: nat)
      requires Valid() && t < |tasks| && tasks[t].pc.LockReplied?
      modifies this
      ensures Valid() && run == old(run) + [Resume(t)]
    {
      if tasks[t].pc.held {
        RegisterFuture(t, true);
      } else {
        Goto(t, Polling(now + WAIT_TIMEOUT_SECONDS, now));
      }
      Note(Resume(t));
    }

    method ResumeWaiter(t: nat)
      requires Valid() && Runnable(View(), t) && (tasks[t].pc.PollReplied? || tasks[t].pc.Sleeping?)
      modifies this
      ensures Valid() && run == old(run) + [Resume(t)]
    {
      match tasks[t].pc {
        case PollReplied(_, _, Found(response)) => RecordCacheStyleUsage(t, response, ByWaiting);
        case PollReplied(deadline, _, Missing) => Goto(t, Sleeping(deadline, now + LOCK_POLL_INTERVAL_SECONDS));
        case PollReplied(_, _, _) => RegisterFuture(t, false);
        case Sleeping(deadline, _) =>
          if now < deadline {
            Goto(t, Polling(deadline, now));
          } else {
            RegisterFuture(t, false);
          }
      }
      Note(Resume(t));
    }

    method RegisterFuture(t: nat, held: bool)
      requires t < |tasks|
      modifies `tasks, `inflight
      ensures View() == Lead(old(View()), t, held)
    {
      tasks := tasks[t := tasks[t].(pc := Calling(held, [], now), future := Pending)];
      inflight := inflight[tasks[t].Where() := t];
    }

    /** The provider in turn has answered: the `except` and `finally` clauses, in their order. */
    method OnAnswer(t: nat, attempt: Attempt)
      requires Valid() && InChain(View(), t)
      modifies this
      ensures Valid() && run == old(run) + [Answer(t, attempt)]
    {
      CleanUp(t, attempt);
      Note(Answer(t, attempt));
    }

    method CleanUp(t: nat, attempt: Attempt)
      requires InChain(View(), t)
      modifies `tasks, `inflight
      ensures View() == AnswerStep(old(View()), t, attempt)
    {
      var slot, held := tasks[t].Where(), tasks[t].pc.held;
      match Next(tasks[t].providers, tasks[t].pc.failures, attempt) {
        case Trying(failures) => Goto(t, Calling(held, failures, now));
        case Finished(result) =>
          if result.Raised? {
            tasks := tasks[t := tasks[t].(future := Rejected(result.failure))];
          }
          if slot in inflight && inflight[slot] == t {
            inflight := inflight - {slot};
          }
          if held {
            Goto(t, Releasing(result));
          } else {
            Settle(t, result);
          }
      }
    }

    method Settle(t: nat, result: ChainResult)
      requires t < |tasks|
      modifies `tasks
      ensures View() == AfterRelease(old(View()), t, result)
    {
      match result {
        case Served(provider, response) =>
          tasks := tasks[t := tasks[t].(future := Resolved(response))];
          tasks := tasks[t := tasks[t].(pc := Storing(provider, response))];
        case Raised(failure) => Goto(t, Returned(Failure(failure), ByFailing));
      }
    }

    method ResumeAfterRelease(t: nat)
      requires Valid() && t < |tasks| && tasks[t].pc.Released?
      modifies this
      ensures Valid() && run == old(run) + [Resume(t)]
    {
      Settle(t, tasks[t].pc.result);
      Note(Resume(t));
    }

    method ResumeAfterSet(t: nat)
      requires Valid() && t < |tasks| && tasks[t].pc.Stored?
      modifies this
      ensures Valid() && run == old(run) + [Resume(t)]
    {
      var key, provider, response := tasks[t].key, tasks[t].pc.provider, tasks[t].pc.response;
      var pricing := provider.PricingFor(key.request.model);
      var record := BuildUsageRecord(key.keyId, FromProvider(provider.name), pricing, response.model, response.usage);
      log := log + [Emitted(ByTask(t), record)];
      Goto(t, Returned(Success(response), ByLeading(provider)));
      Note(Resume(t));
    }

    // ---------- _stream_response, from await to await ----------

    method ResumeStream(s: nat)
      requires Valid() && StreamEnabled(View(), s, Proceed)
      modifies this
      ensures Valid() && run == old(run) + [Stream(s, Proceed)]
    {
      var k := streams[s];
      if k.pc.StreamReplied? && k.pc.reply.Found? {
        var response := k.pc.reply.response;
        var record := BuildUsageRecord(k.key.keyId, FromCache, FREE, response.model, response.usage);
        log := log + [Emitted(ByStream(s), record)];
        StreamGoto(s, StreamOver(Replayed(response)));
      } else if k.pc.StreamReplied? && k.pc.reply.Unreadable? {
        StreamGoto(s, StreamDiscarding);
      } else if k.providers == [] {
        StreamGoto(s, StreamOver(NotStarted([], None)));
      } else {
        StreamGoto(s, Relaying(0, None, []));
      }
      Note(Stream(s, Proceed));
    }

    method RelayLine(s: nat, line: Streaming.Line)
      requires Valid() && StreamOpen(View(), s)
      modifies this
      ensures Valid() && run == old(run) + [Stream(s, Line(line))]
    {
      var pc := streams[s].pc;
      StreamGoto(s, Relaying(pc.index, pc.lastError, pc.lines + [line]));
      Note(Stream(s, Line(line)));
    }

    /** The provider's stream is over: on to the next one if it gave nothing, else record and go on to store. */
    method OnStreamEnd(s: nat, ending: Ending, created: int)
      requires Valid() && StreamOpen(View(), s)
      modifies this
      ensures Valid() && run == old(run) + [Stream(s, End(ending, created))]
    {
      var k := streams[s];
      var provider, lines := k.providers[k.pc.index], k.pc.lines;
      if lines == [] && ending != Aborted {
        var lastError := if ending.Broken? then Some(ending.error) else k.pc.lastError;
        if k.pc.index + 1 < |k.providers| {
          StreamGoto(s, Relaying(k.pc.index + 1, lastError, []));
        } else {
          StreamGoto(s, StreamOver(NotStarted(Names(k.providers), lastError)));
        }
      } else {
        match ending {
          case Aborted => StreamGoto(s, StreamOver(StreamCrashed));
          case Broken(error) => StreamGoto(s, StreamOver(Cut(provider, lines, error)));
          case Completed =>
            var model := k.key.request.model;
            var record := BuildUsageRecord(k.key.keyId, FromProvider(provider.name), provider.PricingFor(model), model,
              Streaming.CaptureAll(lines));
            log := log + [Emitted(ByStream(s), record)];
            if Streaming.Gather(Streaming.NOTHING, lines).sawAnyChunk {
              StreamGoto(s, StreamStoring(provider, lines, created));
            } else {
              StreamGoto(s, StreamOver(Whole(provider, lines, created)));
            }
        }
      }
      Note(Stream(s, End(ending, created)));
    }

    // ---------- Any run ----------

    method ServeTask(t: nat, served: bool, answered: bool)
      requires Valid() && Enabled(View(), Redis(t, served, answered))
      modifies this
      ensures Valid() && run == old(run) + [Redis(t, served, answered)]
    {
      match tasks[t].pc {
        case CacheRead => ServeGet(t, served, answered);
        case Polling(_, _) => ServeGet(t, served, answered);
        case Discarding => ServeDiscard(t, served, answered);
        case Locking => AcquireLock(t, served, answered);
        case Releasing(_) => ReleaseLock(t, served, answered);
        case Storing(_, _) => ServeSet(t, served, answered);
      }
    }

    method ResumeTask(t: nat)
      requires Valid() && Runnable(View(), t)
      modifies this
      ensures Valid() && run == old(run) + [Resume(t)]
    {
      match tasks[t].pc {
        case CacheReplied(_) => ResumeAfterGet(t);
        case Discarded => ResumeAfterGet(t);
        case Following(_) => ResumeFollower(t);
        case LockReplied(_, _) => ResumeAfterLock(t);
        case PollReplied(_, _, _) => ResumeWaiter(t);
        case Sleeping(_, _) => ResumeWaiter(t);
        case Released(_) => ResumeAfterRelease(t);
        case Stored(_, _) => ResumeAfterSet(t);
      }
    }

    method Step(e: Event)
      requires Valid() && Enabled(View(), e)
      modifies this
      ensures Valid() && run == old(run) + [e]
    {
      match e {
        case Arrive(replica, key, config) => var _ := Accept(replica, key, config);
        case Tick(elapsed) => Wait(elapsed);
        case Redis(t, served, answered) => ServeTask(t, served, answered);
        case Resume(t) => ResumeTask(t);
        case Answer(t, attempt) => OnAnswer(t, attempt);
        case StreamArrive(key, config) => var _ := AcceptStream(key, config);
        case Stream(s, Command(served, answered)) => ServeStream(s, served, answered);
        case Stream(s, Proceed) => ResumeStream(s);
        case Stream(s, Line(line)) => RelayLine(s, line);
        case Stream(s, End(ending, created)) => OnStreamEnd(s, ending, created);
        case Corrupt(key, expires) => Spoil(key, expires);
      }
    }

    /** The methods carry out every legal run, and end in the state that the machine assigns to it. */
    method Execute(events: seq<Event>)
      requires Valid() && Legal(run + events)
      modifies this
      ensures Valid() && run == old(run) + events && View() == Reach(old(run) + events)
    {
      ghost var all := run + events;
      for i := 0 to |events|
        invariant Valid() && run == old(run) + events[..i]
      {
        assert run == all[..|run|] && all[|run|] == events[i];
        LegalPrefix(all, |run|);
        Step(events[i]);
        assert old(run) + events[..i] + [events[i]] == old(run) + events[..i + 1];
      }
      assert events[..|events|] == events;
    }

    // ---------- What holds of the fields at all times ----------

    /** Whatever a request has returned, a provider gave for a request with the same key. */
    lemma ReturnedWasProduced()
      requires Valid()
      ensures forall t :: 0 <= t < |tasks| && tasks[t].pc.Returned? && tasks[t].pc.outcome.Success? ==>
        AnsweredFor(run, View(), tasks[t].key, tasks[t].pc.outcome.response)
    {
      forall t | 0 <= t < |tasks| && tasks[t].pc.Returned? && tasks[t].pc.outcome.Success?
        ensures AnsweredFor(run, View(), tasks[t].key, tasks[t].pc.outcome.response)
      {
        ReturnedResponseWasProduced(run, t);
      }
    }

    /** Whatever is replayed was rebuilt from a completed stream with the same key. */
    lemma ReplayedWasStreamed()
      requires Valid()
      ensures forall s :: 0 <= s < |streams| && streams[s].pc.StreamOver? && streams[s].pc.result.Replayed? ==>
        StreamedFor(run, View(), streams[s].key, streams[s].pc.result.response)
    {
      forall s | 0 <= s < |streams| && streams[s].pc.StreamOver? && streams[s].pc.result.Replayed?
        ensures StreamedFor(run, View(), streams[s].key, streams[s].pc.result.response)
      {
        ReplayWasStreamed(run, s);
      }
    }

    /** The in-flight table names callers only; a follower's owner has a future; settled futures follow the outcome. */
    lemma FuturesAreInOrder()
      requires Valid()
      ensures Inv(View())
      ensures (forall t :: 0 <= t < |tasks| ==> tasks[t].pc.Returned?) ==> inflight == map[]
    {
      ReachableInv(run);
      if forall t :: 0 <= t < |tasks| ==> tasks[t].pc.Returned? {
        TableEmptyWhenFinished(run);
      }
    }

    /** One right record for each answered request; at the end the recorded cost is what the providers' calls cost. */
    lemma BooksAreRight()
      requires Valid()
      ensures LogMatches(View()) && AllRecorded(View())
      ensures |log| == Count(tasks, AnsweredOk) + Count(streams, StreamAnswered)
      ensures (forall t :: 0 <= t < |tasks| ==> tasks[t].pc.Returned?) ==>
        FromProviders(log) == ServedCalls(run) && TotalCost(log) == Spent(run)
    {
      OneRecordPerAnswer(run);
      if forall t :: 0 <= t < |tasks| ==> tasks[t].pc.Returned? {
        BooksBalance(run);
      }
    }

    /** Of two tasks for one key, at most one holds the lock while it calls. */
    lemma HoldersExclude(t: nat, u: nat)
      requires Valid() && TimelyRun(run) && t < |tasks| && u < |tasks| && tasks[t].key == tasks[u].key
      requires HoldsLock(tasks[t]) && HoldsLock(tasks[u])
      ensures t == u
    {
      LockHoldersExclude(run, t, u);
    }
  }

  // ---------- wait_for_result ----------

  /** What the n-th poll finds and how long the read takes. */
  datatype Read = Read(reply: Reply, latency: real)

  /** The time of the first n polls: the reads, and the pause after each one that found nothing. */
  function PollTime(poll: nat -> Read, n: nat): real {
    if n == 0 then 0.0
    else
      PollTime(poll, n - 1) + poll(n - 1).latency
      + if poll(n - 1).reply == Missing then LOCK_POLL_INTERVAL_SECONDS else 0.0
  }

  /**
   Polls until a read finds something or the deadline has passed. `longest` bounds the latency of a read.
   The wait ends within the timeout, one read and one poll interval, and gives up early only on an error
   or an unreadable entry.
   */
  method WaitForResult(poll: nat -> Read, start: real, timeout: real, ghost longest: real)
    returns (result: Option<Response>, polls: nat, end: real)
    requires timeout >= 0.0
    requires forall n: nat :: 0.0 <= poll(n).latency <= longest
    ensures start <= end <= start + timeout + longest + LOCK_POLL_INTERVAL_SECONDS
    ensures end == start + PollTime(poll, polls)
    ensures forall n: nat :: n < polls ==> PollTime(poll, n) < timeout
    ensures forall n: nat :: n + 1 < polls ==> poll(n).reply == Missing
    ensures result.Some? <==> polls > 0 && poll(polls - 1).reply.Found?
    ensures result.Some? ==> result.value == poll(polls - 1).reply.response
    ensures polls == 0 || poll(polls - 1).reply == Missing ==> end >= start + timeout
  {
    var deadline := start + timeout;
    var clock := start;
    polls := 0;
    assert 0.0 <= poll(0).latency <= longest;
    while clock < deadline
      invariant start <= clock
      invariant clock <= deadline + longest + LOCK_POLL_INTERVAL_SECONDS
      invariant clock == start + PollTime(poll, polls)
      invariant forall n: nat :: n < polls ==> PollTime(poll, n) < timeout
      invariant forall n: nat :: n < polls ==> poll(n).reply == Missing
      decreases if clock < deadline then ((deadline - clock) * 20.0).Floor + 1 else 0
    {
      ghost var before := clock;
      var read := poll(polls);
      clock := clock + read.latency;
      polls := polls + 1;
      match read.reply {
        case Errored => return None, polls, clock;
        case Found(response) => return Some(response), polls, clock;
        case Unreadable => return None, polls, clock;
        case Missing => clock := clock + LOCK_POLL_INTERVAL_SECONDS;
      }
      assert (deadline - clock) * 20.0 <= (deadline - before) * 20.0 - 1.0;
    }
    return None, polls, clock;
  }
}
