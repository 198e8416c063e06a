/** Where responses come from: none is returned, cached, shared or replayed that no provider produced for its key. */
module Provenance {
  import opened Wrappers
  import opened Api
  import opened Fallback
  import opened SingleFlight
  import opened Coalescing

  /** The response that a task's own provider chain ended with. */
  function ChainResponse(pc: Pc): Option<Response> {
    match pc
    case Releasing(Served(_, response)) => Some(response)
    case Released(Served(_, response)) => Some(response)
    case Storing(_, response) => Some(response)
    case Stored(_, response) => Some(response)
    case Returned(Success(response), ByLeading(_)) => Some(response)
    case _ => None
  }

  /** The response that complete lines are cached as; lines without a single chunk are not cached. */
  function RebuiltFrom(lines: seq<Streaming.Line>, created: int): Option<Response> {
    var g := Streaming.Gather(Streaming.NOTHING, lines);
    if g.sawAnyChunk then Some(Streaming.ToResponse(g, created)) else None
  }

  /** The response that a streaming request's completed stream was rebuilt into. */
  function Rebuilt(pc: StreamPc): Option<Response> {
    match pc
    case StreamStoring(_, lines, created) => RebuiltFrom(lines, created)
    case StreamOver(Whole(_, lines, created)) => RebuiltFrom(lines, created)
    case _ => None
  }

  ghost predicate Led(w: World, key: CacheKey, response: Response) {
    exists t :: 0 <= t < |w.tasks| && w.tasks[t].key == key && ChainResponse(w.tasks[t].pc) == Some(response)
  }

  ghost predicate Rebuilds(w: World, key: CacheKey, response: Response) {
    exists s :: 0 <= s < |w.streams| && w.streams[s].key == key && Rebuilt(w.streams[s].pc) == Some(response)
  }

  /** Some chain for `key` ended with `response`; for a streaming key, a completed stream was rebuilt into it. */
  ghost predicate Made(w: World, key: CacheKey, response: Response) {
    if key.request.stream then Rebuilds(w, key, response) else Led(w, key, response)
  }

  ghost predicate TaskSourced(w: World, k: Task) {
    !k.key.request.stream &&
    match k.pc
    case CacheReplied(Found(response)) => Made(w, k.key, response)
    case PollReplied(_, _, Found(response)) => Made(w, k.key, response)
    case Returned(Success(response), _) => Made(w, k.key, response)
    case _ => true
  }

  ghost predicate StreamSourced(w: World, k: StreamTask) {
    k.key.request.stream &&
    match k.pc
    case StreamReplied(Found(response)) => Made(w, k.key, response)
    case StreamOver(Replayed(response)) => Made(w, k.key, response)
    case StreamStoring(_, lines, created) => RebuiltFrom(lines, created).Some?
    case _ => true
  }

  ghost predicate CacheSourced(w: World) {
    forall key :: key in w.cache && w.cache[key].value.Some? ==> Made(w, key, w.cache[key].value.value)
  }

  ghost predicate Sourced(w: World) {
    && CacheSourced(w)
    && (forall t :: 0 <= t < |w.tasks| ==> TaskSourced(w, w.tasks[t]))
    && (forall s :: 0 <= s < |w.streams| ==> StreamSourced(w, w.streams[s]))
  }

  /** A task's chain result, once there, stays; it appears only when a provider answers. */
  lemma {:induction false} ChainResponseAppears(w: World, e: Event)
    requires Enabled(w, e) && Mover(e).Some?
    ensures var t := Mover(e).value; var w' := Apply(w, e);
      t < |w.tasks| == |w'.tasks|
      && (ChainResponse(w.tasks[t].pc).Some? ==> ChainResponse(w'.tasks[t].pc) == ChainResponse(w.tasks[t].pc))
      && (ChainResponse(w.tasks[t].pc).None? && ChainResponse(w'.tasks[t].pc).Some? ==>
            e == Answer(t, Answered(ChainResponse(w'.tasks[t].pc).value)))
  {
    match e
    case Redis(t, served, answered) => RedisChainResponse(w, t, served, answered);
    case Resume(t) => ResumeChainResponse(w, t);
    case Answer(t, attempt) =>
    case _ =>
  }

  lemma RedisChainResponse(w: World, t: nat, served: bool, answered: bool)
    requires t < |w.tasks| && WaitsOnRedis(w.tasks[t].pc)
    ensures |RedisStep(w, t, served, answered).tasks| == |w.tasks|
    ensures ChainResponse(RedisStep(w, t, served, answered).tasks[t].pc) == ChainResponse(w.tasks[t].pc)
  {
  }

  lemma {:induction false} ResumeChainResponse(w: World, t: nat)
    requires Runnable(w, t)
    ensures |ResumeStep(w, t).tasks| == |w.tasks|
    ensures ChainResponse(ResumeStep(w, t).tasks[t].pc) == ChainResponse(w.tasks[t].pc)
  {
    match w.tasks[t].pc
    case Following(owner) =>
    case Released(result) => AfterReleaseChainResponse(w, t, result);
    case Stored(provider, response) =>
    case _ => EarlyChainResponse(w, t);
  }

  lemma AfterReleaseChainResponse(w: World, t: nat, result: ChainResult)
    requires t < |w.tasks| && w.tasks[t].pc == Released(result)
    ensures |AfterRelease(w, t, result).tasks| == |w.tasks|
    ensures ChainResponse(AfterRelease(w, t, result).tasks[t].pc) == ChainResponse(w.tasks[t].pc)
  {
  }

  lemma EarlyChainResponse(w: World, t: nat)
    requires Runnable(w, t)
    requires !w.tasks[t].pc.Released? && !w.tasks[t].pc.Stored? && !w.tasks[t].pc.Following?
    ensures |ResumeStep(w, t).tasks| == |w.tasks|
    ensures ChainResponse(ResumeStep(w, t).tasks[t].pc) == ChainResponse(w.tasks[t].pc) == None
  {
    match w.tasks[t].pc
    case CacheReplied(_) =>
    case LockReplied(_, _) =>
    case PollReplied(_, _, _) =>
    case Sleeping(_, _) =>
    case _ =>
  }

  /** What was made stays made. */
  lemma MadeStays(w: World, e: Event, key: CacheKey, response: Response)
    requires Enabled(w, e) && Made(w, key, response)
    ensures Made(Apply(w, e), key, response)
  {
    if key.request.stream {
      var s :| 0 <= s < |w.streams| && w.streams[s].key == key && Rebuilt(w.streams[s].pc) == Some(response);
      RebuiltStays(w, e, s);
    } else {
      var t :| 0 <= t < |w.tasks| && w.tasks[t].key == key && ChainResponse(w.tasks[t].pc) == Some(response);
      ChainResponseStays(w, e, t);
    }
  }

  lemma {:induction false} ChainResponseStays(w: World, e: Event, t: nat)
    requires Enabled(w, e) && t < |w.tasks| && ChainResponse(w.tasks[t].pc).Some?
    ensures var w' := Apply(w, e);
      t < |w'.tasks| && w'.tasks[t].key == w.tasks[t].key
      && ChainResponse(w'.tasks[t].pc) == ChainResponse(w.tasks[t].pc)
  {
    if Mover(e).Some? {
      StepMovesOneTask(w, e);
      ChainResponseAppears(w, e);
      assert Apply(w, e).tasks[t].Where() == w.tasks[t].Where();
    }
  }

  /** A stream is rebuilt when it ends complete, at no other step, and stays so. */
  lemma {:induction false} RebuiltAppears(w: World, s: nat, action: StreamAction)
    requires StreamEnabled(w, s, action)
    ensures var before, after := w.streams[s].pc, StreamStep(w, s, action).streams[s].pc;
      (Rebuilt(before).Some? ==> Rebuilt(after) == Rebuilt(before))
      && (Rebuilt(before).None? && Rebuilt(after).Some? ==>
            before.Relaying? && action.End? && action.ending == Completed
            && Rebuilt(after) == RebuiltFrom(before.lines, action.created))
  {
  }

  lemma {:induction false} RebuiltStays(w: World, e: Event, s: nat)
    requires Enabled(w, e) && s < |w.streams| && Rebuilt(w.streams[s].pc).Some?
    ensures var w' := Apply(w, e);
      s < |w'.streams| && w'.streams[s].key == w.streams[s].key
      && Rebuilt(w'.streams[s].pc) == Rebuilt(w.streams[s].pc)
  {
    if Mover(e).Some? {
      StepMovesOneTask(w, e);
    } else if e.Stream? {
      StreamStepMovesOne(w, e.stream, e.action);
      RebuiltAppears(w, e.stream, e.action);
    }
  }

  lemma TaskSourcedStays(w: World, e: Event, k: Task)
    requires Enabled(w, e) && TaskSourced(w, k)
    ensures TaskSourced(Apply(w, e), k)
  {
    match k.pc
    case CacheReplied(Found(response)) => MadeStays(w, e, k.key, response);
    case PollReplied(_, _, Found(response)) => MadeStays(w, e, k.key, response);
    case Returned(Success(response), _) => MadeStays(w, e, k.key, response);
    case _ =>
  }

  lemma StreamSourcedStays(w: World, e: Event, k: StreamTask)
    requires Enabled(w, e) && StreamSourced(w, k)
    ensures StreamSourced(Apply(w, e), k)
  {
    match k.pc
    case StreamReplied(Found(response)) => MadeStays(w, e, k.key, response);
    case StreamOver(Replayed(response)) => MadeStays(w, e, k.key, response);
    case _ =>
  }

  /** What a task may do to the cache: nothing, drop its entry, or store its own chain's response. */
  lemma CacheChanges(w: World, e: Event, key: CacheKey)
    requires Enabled(w, e) && Mover(e).Some?
    requires key in Apply(w, e).cache && (key !in w.cache || w.cache[key] != Apply(w, e).cache[key])
    ensures var t := Mover(e).value;
      t < |w.tasks| && key == w.tasks[t].key
      && Apply(w, e).cache[key].value.Some?
      && ChainResponse(w.tasks[t].pc) == Some(Apply(w, e).cache[key].value.value)
  {
    match e
    case Redis(t, served, answered) =>
    case Resume(t) => ResumeCache(w, t);
    case Answer(t, attempt) => AnswerCache(w, t, attempt);
    case _ =>
  }

  lemma ResumeCache(w: World, t: nat)
    requires Runnable(w, t)
    ensures ResumeStep(w, t).cache == w.cache
  {
  }

  lemma AnswerCache(w: World, t: nat, attempt: Attempt)
    requires InChain(w, t)
    ensures AnswerStep(w, t, attempt).cache == w.cache
  {
  }

  /** What a streaming request may do to it: nothing, drop its entry, or store its own stream's response. */
  lemma StreamCacheChanges(w: World, s: nat, action: StreamAction, key: CacheKey)
    requires StreamEnabled(w, s, action)
    requires var w' := StreamStep(w, s, action);
      key in w'.cache && (key !in w.cache || w.cache[key] != w'.cache[key])
    ensures var entry := StreamStep(w, s, action).cache[key];
      key == w.streams[s].key && entry.value.Some? && w.streams[s].pc.StreamStoring?
      && (Rebuilt(w.streams[s].pc).Some? ==> Rebuilt(w.streams[s].pc) == entry.value)
  {
  }

  lemma CacheStaysSourced(w: World, e: Event)
    requires Sourced(w) && Enabled(w, e)
    ensures CacheSourced(Apply(w, e))
  {
    var w' := Apply(w, e);
    forall key | key in w'.cache && w'.cache[key].value.Some?
      ensures Made(w', key, w'.cache[key].value.value)
    {
      var response := w'.cache[key].value.value;
      if !(key in w.cache && w.cache[key] == w'.cache[key]) {
        if Mover(e).Some? {
          CacheChanges(w, e, key);
          assert TaskSourced(w, w.tasks[Mover(e).value]);
        } else if e.Stream? {
          assert StreamSourced(w, w.streams[e.stream]);
          StreamCacheChanges(w, e.stream, e.action, key);
        }
      }
      MadeStays(w, e, key, response);
    }
  }

  /** A resolved future holds the response of its owner's chain. */
  lemma ResolvedFutureIsMade(w: World, t: nat)
    requires Inv(w) && t < |w.tasks| && w.tasks[t].future.Resolved? && !w.tasks[t].key.request.stream
    ensures ChainResponse(w.tasks[t].pc) == Some(w.tasks[t].future.response)
    ensures Made(w, w.tasks[t].key, w.tasks[t].future.response)
  {
    assert TaskOk(w.tasks[t]);
  }

  /** The response a task returns is the one that it read, that it waited for, or that its chain ended with. */
  lemma ReturnedFrom(w: World, t: nat)
    requires Runnable(w, t) && ResumeStep(w, t).tasks[t].pc.Returned?
    requires ResumeStep(w, t).tasks[t].pc.outcome.Success?
    ensures var response := ResumeStep(w, t).tasks[t].pc.outcome.response;
      match w.tasks[t].pc
      case CacheReplied(reply) => reply == Found(response)
      case PollReplied(_, _, reply) => reply == Found(response)
      case Following(owner) => owner < |w.tasks| && w.tasks[owner].future == Resolved(response)
      case pc => ChainResponse(pc) == Some(response)
  {
  }

  lemma ResumeReadsNothing(w: World, t: nat)
    requires Runnable(w, t)
    ensures !ResumeStep(w, t).tasks[t].pc.CacheReplied? && !ResumeStep(w, t).tasks[t].pc.PollReplied?
  {
    match w.tasks[t].pc
    case CacheReplied(_) =>
    case LockReplied(_, _) =>
    case PollReplied(_, _, _) =>
    case _ =>
  }

  lemma {:induction false} ResumeKeepsTaskSourced(w: World, t: nat)
    requires Inv(w) && Sourced(w) && Runnable(w, t)
    ensures TaskSourced(w, ResumeStep(w, t).tasks[t])
  {
    var k := ResumeStep(w, t).tasks[t];
    ResumeMovesOne(w, t);
    ResumeReadsNothing(w, t);
    assert TaskSourced(w, w.tasks[t]);
    if k.pc.Returned? && k.pc.outcome.Success? {
      ReturnedFrom(w, t);
      if w.tasks[t].pc.Following? {
        assert TaskSourced(w, w.tasks[w.tasks[t].pc.owner]);
        ResolvedFutureIsMade(w, w.tasks[t].pc.owner);
      }
    }
  }

  lemma RedisKeepsTaskSourced(w: World, t: nat, served: bool, answered: bool)
    requires Sourced(w) && t < |w.tasks| && WaitsOnRedis(w.tasks[t].pc)
    ensures TaskSourced(w, RedisStep(w, t, served, answered).tasks[t])
  {
    RedisMovesOne(w, t, served, answered);
    assert TaskSourced(w, w.tasks[t]);
  }

  lemma AnswerKeepsTaskSourced(w: World, t: nat, attempt: Attempt)
    requires InChain(w, t) && TaskSourced(w, w.tasks[t])
    ensures TaskSourced(w, AnswerStep(w, t, attempt).tasks[t])
  {
    AnswerMovesOne(w, t, attempt);
    assert AnswerStep(w, t, attempt).tasks[t].Where() == w.tasks[t].Where();
  }

  lemma StreamKeepsSourced(w: World, s: nat, action: StreamAction)
    requires CacheSourced(w) && StreamEnabled(w, s, action) && StreamSourced(w, w.streams[s])
    ensures StreamSourced(w, StreamStep(w, s, action).streams[s])
  {
  }

  lemma StepKeepsTasksSourced(w: World, e: Event, t: nat)
    requires Inv(w) && Sourced(w) && Enabled(w, e) && t < |Apply(w, e).tasks|
    ensures TaskSourced(Apply(w, e), Apply(w, e).tasks[t])
  {
    var w' := Apply(w, e);
    if Mover(e).Some? {
      StepMovesOneTask(w, e);
      assert TaskSourced(w, w.tasks[t]);
      if Mover(e).value == t {
        match e {
          case Redis(_, served, answered) => RedisKeepsTaskSourced(w, t, served, answered);
          case Resume(_) => ResumeKeepsTaskSourced(w, t);
          case Answer(_, attempt) => AnswerKeepsTaskSourced(w, t, attempt);
          case _ =>
        }
      }
      TaskSourcedStays(w, e, w'.tasks[t]);
    } else if t < |w.tasks| {
      assert TaskSourced(w, w.tasks[t]);
      TaskSourcedStays(w, e, w.tasks[t]);
    }
  }

  lemma StepKeepsStreamsSourced(w: World, e: Event, s: nat)
    requires Sourced(w) && Enabled(w, e) && s < |Apply(w, e).streams|
    ensures StreamSourced(Apply(w, e), Apply(w, e).streams[s])
  {
    var w' := Apply(w, e);
    if Mover(e).Some? {
      StepMovesOneTask(w, e);
    }
    if s < |w.streams| {
      assert StreamSourced(w, w.streams[s]);
      if e.Stream? {
        StreamStepMovesOne(w, e.stream, e.action);
        if e.stream == s {
          StreamKeepsSourced(w, s, e.action);
        }
      }
      StreamSourcedStays(w, e, w'.streams[s]);
    }
  }

  lemma StepKeepsSourced(w: World, e: Event)
    requires Inv(w) && Sourced(w) && Enabled(w, e)
    ensures Sourced(Apply(w, e))
  {
    var w' := Apply(w, e);
    CacheStaysSourced(w, e);
    forall t | 0 <= t < |w'.tasks| ensures TaskSourced(w', w'.tasks[t]) {
      StepKeepsTasksSourced(w, e, t);
    }
    forall s | 0 <= s < |w'.streams| ensures StreamSourced(w', w'.streams[s]) {
      StepKeepsStreamsSourced(w, e, s);
    }
  }

  lemma {:induction false} ReachableSourced(events: seq<Event>)
    requires Legal(events)
    ensures Inv(Reach(events)) && Sourced(Reach(events))
  {
    ReachableInv(events);
    if events != [] {
      ReachableSourced(events[..|events| - 1]);
      StepKeepsSourced(Reach(events[..|events| - 1]), events[|events| - 1]);
    }
  }

  // ---------- Back to the events of the run ----------

  /** In the run, a provider answered a task with this key with `response`. */
  ghost predicate AnsweredFor(events: seq<Event>, w: World, key: CacheKey, response: Response) {
    exists i :: 0 <= i < |events| && AnswerGave(events[i], w, key, response)
  }

  ghost predicate AnswerGave(e: Event, w: World, key: CacheKey, response: Response) {
    match e
    case Answer(t, attempt) => t < |w.tasks| && w.tasks[t].key == key && attempt == Answered(response)
    case _ => false
  }

  /** The lines that have arrived for a streaming request since its last provider began. */
  function Delivered(events: seq<Event>, s: nat): seq<Streaming.Line> {
    if events == [] then []
    else
      var before := Delivered(events[..|events| - 1], s);
      match events[|events| - 1]
      case Stream(u, Line(line)) => if u == s then before + [line] else before
      case Stream(u, End(_, _)) => if u == s then [] else before
      case _ => before
  }

  /** In the run, a stream for this key completed, and the lines that had arrived for it rebuild `response`. */
  ghost predicate StreamedFor(events: seq<Event>, w: World, key: CacheKey, response: Response) {
    exists i :: 0 <= i < |events| && StreamGave(events, i, w, key, response)
  }

  ghost predicate StreamGave(events: seq<Event>, i: nat, w: World, key: CacheKey, response: Response)
    requires i < |events|
  {
    match events[i]
    case Stream(s, End(Completed, created)) =>
      s < |w.streams| && w.streams[s].key == key
      && RebuiltFrom(Delivered(events[..i], s), created) == Some(response)
    case _ => false
  }

  lemma {:induction false} NewChainResponse(w: World, e: Event, t: nat)
    requires Enabled(w, e) && t < |Apply(w, e).tasks| && ChainResponse(Apply(w, e).tasks[t].pc).Some?
    ensures e == Answer(t, Answered(ChainResponse(Apply(w, e).tasks[t].pc).value))
         || (t < |w.tasks| && w.tasks[t].key == Apply(w, e).tasks[t].key
             && ChainResponse(w.tasks[t].pc) == ChainResponse(Apply(w, e).tasks[t].pc))
  {
    if Mover(e).Some? {
      StepMovesOneTask(w, e);
      ChainResponseAppears(w, e);
      assert Apply(w, e).tasks[t].Where() == w.tasks[t].Where();
    }
  }

  lemma KeysStay(w: World, e: Event)
    requires Enabled(w, e)
    ensures |w.tasks| <= |Apply(w, e).tasks| && |w.streams| <= |Apply(w, e).streams|
    ensures forall t :: 0 <= t < |w.tasks| ==> Apply(w, e).tasks[t].key == w.tasks[t].key
    ensures forall s :: 0 <= s < |w.streams| ==> Apply(w, e).streams[s].key == w.streams[s].key
  {
    if Mover(e).Some? {
      StepMovesOneTask(w, e);
      assert Apply(w, e).tasks[Mover(e).value].Where() == w.tasks[Mover(e).value].Where();
    } else if e.Stream? {
      StreamStepMovesOne(w, e.stream, e.action);
    }
  }

  lemma {:induction false} ChainResponseWasAnswered(events: seq<Event>, t: nat)
    requires Legal(events) && t < |Reach(events).tasks| && ChainResponse(Reach(events).tasks[t].pc).Some?
    ensures var k := Reach(events).tasks[t];
      AnsweredFor(events, Reach(events), k.key, ChainResponse(k.pc).value)
  {
    if events != [] {
      var before, e := events[..|events| - 1], events[|events| - 1];
      var w, w' := Reach(before), Reach(events);
      var key, response := w'.tasks[t].key, ChainResponse(w'.tasks[t].pc).value;
      NewChainResponse(w, e, t);
      if e == Answer(t, Answered(response)) {
        assert AnswerGave(events[|events| - 1], w', key, response);
      } else {
        ChainResponseWasAnswered(before, t);
        KeysStay(w, e);
        var i :| 0 <= i < |before| && AnswerGave(before[i], w, key, response);
        assert AnswerGave(events[i], w', key, response);
      }
    }
  }

  /** What a relaying request has gathered is what has arrived for it; for any other nothing is pending. */
  lemma {:induction false} RelayedIsDelivered(events: seq<Event>, s: nat)
    requires Legal(events)
    ensures var w := Reach(events);
      Delivered(events, s) == if s < |w.streams| && w.streams[s].pc.Relaying? then w.streams[s].pc.lines else []
  {
    if events != [] {
      var before, e := events[..|events| - 1], events[|events| - 1];
      RelayedIsDelivered(before, s);
      if Mover(e).Some? {
        StepMovesOneTask(Reach(before), e);
      } else if e.Stream? {
        StreamStepMovesOne(Reach(before), e.stream, e.action);
        if e.stream == s { RelayStep(Reach(before), s, e.action); }
      }
    }
  }

  lemma {:induction false} RelayStep(w: World, s: nat, action: StreamAction)
    requires StreamEnabled(w, s, action)
    ensures var before, after := w.streams[s].pc, StreamStep(w, s, action).streams[s].pc;
      (action.Line? ==> before.Relaying? && after.Relaying? && after.lines == before.lines + [action.line])
      && (!action.Line? && after.Relaying? ==> after.lines == [])
      && (before.Relaying? ==> action.Line? || action.End?)
  {
  }

  lemma {:induction false} RebuiltWasStreamed(events: seq<Event>, s: nat)
    requires Legal(events) && s < |Reach(events).streams| && Rebuilt(Reach(events).streams[s].pc).Some?
    ensures var k := Reach(events).streams[s];
      StreamedFor(events, Reach(events), k.key, Rebuilt(k.pc).value)
  {
    if events != [] {
      var before, e := events[..|events| - 1], events[|events| - 1];
      var w, w' := Reach(before), Reach(events);
      var key, response := w'.streams[s].key, Rebuilt(w'.streams[s].pc).value;
      NewRebuilt(w, e, s);
      if s < |w.streams| && Rebuilt(w.streams[s].pc) == Some(response) {
        RebuiltWasStreamed(before, s);
        KeysStay(w, e);
        var i :| 0 <= i < |before| && StreamGave(before, i, w, key, response);
        assert events[..i] == before[..i];
        assert StreamGave(events, i, w', key, response);
      } else {
        RelayedIsDelivered(before, s);
        assert StreamGave(events, |events| - 1, w', key, response);
      }
    }
  }

  lemma {:induction false} NewRebuilt(w: World, e: Event, s: nat)
    requires Enabled(w, e) && s < |Apply(w, e).streams| && Rebuilt(Apply(w, e).streams[s].pc).Some?
    ensures s < |w.streams| && Apply(w, e).streams[s].key == w.streams[s].key
    ensures Rebuilt(w.streams[s].pc) == Rebuilt(Apply(w, e).streams[s].pc)
         || (w.streams[s].pc.Relaying? && e.Stream? && e.stream == s && e.action.End? && e.action.ending == Completed
             && Rebuilt(Apply(w, e).streams[s].pc) == RebuiltFrom(w.streams[s].pc.lines, e.action.created))
  {
    if Mover(e).Some? {
      StepMovesOneTask(w, e);
    } else if e.Stream? {
      StreamStepMovesOne(w, e.stream, e.action);
      RebuiltAppears(w, e.stream, e.action);
    }
  }

  lemma {:induction false} MadeWasProduced(events: seq<Event>, key: CacheKey, response: Response)
    requires Legal(events) && Made(Reach(events), key, response)
    ensures if key.request.stream then StreamedFor(events, Reach(events), key, response)
            else AnsweredFor(events, Reach(events), key, response)
  {
    var w := Reach(events);
    if key.request.stream {
      var s :| 0 <= s < |w.streams| && w.streams[s].key == key && Rebuilt(w.streams[s].pc) == Some(response);
      RebuiltWasStreamed(events, s);
    } else {
      var t :| 0 <= t < |w.tasks| && w.tasks[t].key == key && ChainResponse(w.tasks[t].pc) == Some(response);
      ChainResponseWasAnswered(events, t);
    }
  }

  // ---------- Main results ----------

  /** A response that a request returns was given in this run by a provider that a task with the very same key asked. */
  lemma {:induction false} ReturnedResponseWasProduced(events: seq<Event>, t: nat)
    requires Legal(events) && t < |Reach(events).tasks|
    requires Reach(events).tasks[t].pc.Returned? && Reach(events).tasks[t].pc.outcome.Success?
    ensures AnsweredFor(events, Reach(events), Reach(events).tasks[t].key, Reach(events).tasks[t].pc.outcome.response)
  {
    ReachableSourced(events);
    var w := Reach(events);
    assert TaskSourced(w, w.tasks[t]);
    MadeWasProduced(events, w.tasks[t].key, w.tasks[t].pc.outcome.response);
  }

  /**
   So was every readable cache entry, however many unreadable ones appeared and were dropped; under a
   streaming key, it was rebuilt from the lines of a stream with that key which arrived and completed.
   */
  lemma {:induction false} CachedResponseWasProduced(events: seq<Event>, key: CacheKey)
    requires Legal(events) && key in Reach(events).cache && Reach(events).cache[key].value.Some?
    ensures var response := Reach(events).cache[key].value.value;
      if key.request.stream then StreamedFor(events, Reach(events), key, response)
      else AnsweredFor(events, Reach(events), key, response)
  {
    ReachableSourced(events);
    MadeWasProduced(events, key, Reach(events).cache[key].value.value);
  }

  /** So was every response that a future hands to its followers. */
  lemma {:induction false} SharedResponseWasProduced(events: seq<Event>, t: nat)
    requires Legal(events) && t < |Reach(events).tasks| && Reach(events).tasks[t].future.Resolved?
    ensures AnsweredFor(events, Reach(events), Reach(events).tasks[t].key, Reach(events).tasks[t].future.response)
  {
    ReachableSourced(events);
    assert TaskSourced(Reach(events), Reach(events).tasks[t]);
    ResolvedFutureIsMade(Reach(events), t);
    ChainResponseWasAnswered(events, t);
  }

  /**
   What a streaming cache hit replays was rebuilt from a completed stream of this run with the same key, and
   a client that gathers the replayed lines has that stream's response again.
   */
  lemma {:induction false} ReplayWasStreamed(events: seq<Event>, s: nat)
    requires Legal(events) && s < |Reach(events).streams|
    requires Reach(events).streams[s].pc.StreamOver? && Reach(events).streams[s].pc.result.Replayed?
    ensures var k := Reach(events).streams[s]; var response := k.pc.result.response;
      StreamedFor(events, Reach(events), k.key, response) && response.choices != []
      && Streaming.ToResponse(Streaming.Gather(Streaming.NOTHING, Streaming.SynthesizeCachedStream(response)),
           response.created) == response
  {
    ReachableSourced(events);
    var w := Reach(events);
    var key, response := w.streams[s].key, w.streams[s].pc.result.response;
    assert StreamSourced(w, w.streams[s]);
    MadeWasProduced(events, key, response);
    var i :| 0 <= i < |events| && StreamGave(events, i, w, key, response);
    var action := events[i].action;
    Streaming.GatheredReplays(Delivered(events[..i], events[i].stream), action.created, action.created);
  }
}
