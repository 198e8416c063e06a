/**
 The coalescing of identical requests, as a machine whose steps are the stretches of code between
 two `await`s. Any number of tasks on any number of replicas share one Redis; every replica has its
 own table of in-flight futures. A Redis command is two steps: the server executes it, and later the
 task resumes with the reply, or with an error whether or not the server executed the command.
 Streaming requests run beside the tasks: they share the cache with them and are not coalesced.
 */
module SingleFlight {
  import opened Wrappers
  import opened Api
  import opened Fallback
  import opened Routing
  import Streaming

  const LOCK_TTL_GRACE_SECONDS := 5.0
  const LOCK_POLL_INTERVAL_SECONDS := 0.05
  const WAIT_TIMEOUT_SECONDS := 2.0

  // ---------- State ----------

  datatype Request = Request(model: string, body: string, stream: bool)

  /** Stands for the hash of the request body and the virtual key, which is taken to be injective. */
  datatype CacheKey = CacheKey(request: Request, keyId: int)

  /** A cache entry; `None` is a payload that does not parse. */
  datatype Entry = Entry(value: Option<Response>, expires: real)

  /** A lock in Redis; the token is drawn fresh by each task, so the task's number stands for it. */
  datatype Lock = Lock(token: nat, expires: real)

  /** One position of one replica's in-flight table. */
  datatype Slot = Slot(replica: nat, key: CacheKey)

  datatype Future = NoFuture | Pending | Resolved(response: Response) | Rejected(failure: Failure)

  /** What a read of the cache gives the task: an error, no entry, an unreadable entry, or a response. */
  datatype Reply = Errored | Missing | Unreadable | Found(response: Response)

  datatype Outcome = Success(response: Response) | Failure(failure: Failure)

  /** How a finished task came by its outcome. */
  datatype Via = ByHit | ByFollowing | ByWaiting | ByLeading(provider: Provider) | ByFailing

  datatype Pc =
    | CacheRead
    | CacheReplied(reply: Reply)
    | Discarding
    | Discarded
    | Following(owner: nat)
    | Locking
    | LockReplied(held: bool, executedAt: real)
    | Polling(deadline: real, checkedAt: real)
    | PollReplied(deadline: real, checkedAt: real, reply: Reply)
    | Sleeping(deadline: real, wake: real)
    | Calling(held: bool, failures: seq<ErrorKind>, since: real)
    | Releasing(result: ChainResult)
    | Released(result: ChainResult)
    | Storing(provider: Provider, response: Response)
    | Stored(provider: Provider, response: Response)
    | Returned(outcome: Outcome, via: Via)

  /** What a replica is configured with: its providers, and how long the cache keeps a response. */
  datatype Config = Config(registry: seq<Provider>, cacheTtl: real)

  /**
   `providers` is what routing selects for the request from the replica's registry.
   `future` is the future this task put into the in-flight table, once it became a leader.
   */
  datatype Task = Task(
    replica: nat,
    key: CacheKey,
    providers: seq<Provider>,
    cacheTtl: real,
    pc: Pc,
    future: Future)
  {
    function Where(): Slot {
      Slot(replica, key)
    }
  }

  /** How a streaming request ended. */
  datatype StreamResult =
    | Replayed(response: Response)
    | Whole(provider: Provider, lines: seq<Streaming.Line>, created: int)
    | Cut(provider: Provider, lines: seq<Streaming.Line>, error: ErrorKind)
    | NotStarted(attempted: seq<string>, lastError: Option<ErrorKind>)
    | StreamCrashed

  datatype StreamPc =
    | StreamRead
    | StreamReplied(reply: Reply)
    | StreamDiscarding
    | StreamDiscarded
    | Relaying(index: nat, lastError: Option<ErrorKind>, lines: seq<Streaming.Line>)
    | StreamStoring(provider: Provider, lines: seq<Streaming.Line>, created: int)
    | StreamOver(result: StreamResult)

  /** A streaming request; while it relays, `lines` is what the provider at `index` has given so far. */
  datatype StreamTask = StreamTask(key: CacheKey, providers: seq<Provider>, cacheTtl: real, pc: StreamPc)

  datatype Author = ByTask(task: nat) | ByStream(stream: nat)

  datatype Emitted = Emitted(author: Author, record: UsageRecord)

  datatype World = World(
    now: real,
    cache: map<CacheKey, Entry>,
    locks: map<CacheKey, Lock>,
    inflight: map<Slot, nat>,
    tasks: seq<Task>,
    streams: seq<StreamTask>,
    log: seq<Emitted>)

  const START := World(0.0, map[], map[], map[], [], [], [])

  datatype Event =
    | Arrive(replica: nat, key: CacheKey, config: Config)
    | Tick(elapsed: real)
    | Redis(task: nat, served: bool, answered: bool)
    | Resume(task: nat)
    | Answer(task: nat, attempt: Attempt)
    | StreamArrive(key: CacheKey, config: Config)
    | Stream(stream: nat, action: StreamAction)
    | Corrupt(key: CacheKey, expires: real)

  /** The server executes its command, it resumes with the reply, a line arrives, or the provider's stream ends. */
  datatype StreamAction =
    | Command(served: bool, answered: bool)
    | Proceed
    | Line(line: Streaming.Line)
    | End(ending: Ending, created: int)

  // ---------- Redis ----------

  function CeilSeconds(t: real): real {
    var whole := t.Floor as real;
    if whole == t then t else whole + 1.0
  }

  function LockTtl(providers: seq<Provider>): real {
    CeilSeconds(Timeouts(providers) + LOCK_TTL_GRACE_SECONDS)
  }

  function Lookup(w: World, key: CacheKey): Reply {
    if key in w.cache && w.now < w.cache[key].expires then
      match w.cache[key].value
      case Some(response) => Found(response)
      case None => Unreadable
    else Missing
  }

  predicate Locked(w: World, key: CacheKey) {
    key in w.locks && w.now < w.locks[key].expires
  }

  function Moved(w: World, t: nat, pc: Pc): (w': World)
    requires t < |w.tasks|
    ensures |w'.tasks| == |w.tasks|
  {
    w.(tasks := w.tasks[t := w.tasks[t].(pc := pc)])
  }

  predicate WaitsOnRedis(pc: Pc) {
    pc.CacheRead? || pc.Discarding? || pc.Locking? || pc.Polling? || pc.Releasing? || pc.Storing?
  }

  /** The server executes the command the task sent, if `served`; the task hears back, if `answered`. */
  function RedisStep(w: World, t: nat, served: bool, answered: bool): (w': World)
    requires t < |w.tasks| && WaitsOnRedis(w.tasks[t].pc)
    ensures |w'.tasks| == |w.tasks|
  {
    var task := w.tasks[t];
    var key := task.key;
    var reply := if served && answered then Lookup(w, key) else Errored;
    match task.pc
    case CacheRead => Moved(w, t, CacheReplied(reply))
    case Polling(deadline, checkedAt) => Moved(w, t, PollReplied(deadline, checkedAt, reply))
    case Discarding =>
      Moved(if served then w.(cache := w.cache - {key}) else w, t, Discarded)
    case Locking =>
      var acquired := served && !Locked(w, key);
      var locked := if acquired then w.(locks := w.locks[key := Lock(t, w.now + LockTtl(task.providers))]) else w;
      Moved(locked, t, LockReplied(acquired && answered, w.now))
    case Releasing(result) =>
      var own := served && Locked(w, key) && w.locks[key].token == t;
      Moved(if own then w.(locks := w.locks - {key}) else w, t, Released(result))
    case Storing(provider, response) =>
      var entry := Entry(Some(response), w.now + task.cacheTtl);
      Moved(if served then w.(cache := w.cache[key := entry]) else w, t, Stored(provider, response))
  }

  lemma LockingStep(w: World, t: nat, served: bool, answered: bool)
    requires t < |w.tasks| && w.tasks[t].pc.Locking?
    ensures var key, lock := w.tasks[t].key, Lock(t, w.now + LockTtl(w.tasks[t].providers));
      RedisStep(w, t, served, answered) ==
      if served && !Locked(w, key) then Moved(w.(locks := w.locks[key := lock]), t, LockReplied(answered, w.now))
      else Moved(w, t, LockReplied(false, w.now))
  {
  }

  // ---------- The code between two awaits ----------

  function Recorded(w: World, t: nat, record: UsageRecord): World {
    w.(log := w.log + [Emitted(ByTask(t), record)])
  }

  /** A response that cost nothing: a hit, a follower, or a waiter. */
  function AnswerFromCache(w: World, t: nat, response: Response, via: Via): (w': World)
    requires t < |w.tasks|
    ensures |w'.tasks| == |w.tasks|
  {
    var record := BuildUsageRecord(w.tasks[t].key.keyId, FromCache, FREE, response.model, response.usage);
    Moved(Recorded(w, t, record), t, Returned(Success(response), via))
  }

  /** A miss: join the call in flight on this replica, or try for the lock. */
  function AfterMiss(w: World, t: nat): (w': World)
    requires t < |w.tasks|
    ensures |w'.tasks| == |w.tasks|
  {
    var task := w.tasks[t];
    if task.Where() in w.inflight then Moved(w, t, Following(w.inflight[task.Where()]))
    else if task.providers == [] then Moved(w, t, Returned(Failure(NoProvider([], None)), ByFailing))
    else Moved(w, t, Locking)
  }

  /** Registers the future, over whatever entry is there, and starts the provider chain. */
  function Lead(w: World, t: nat, held: bool): (w': World)
    requires t < |w.tasks|
    ensures |w'.tasks| == |w.tasks|
  {
    var task := w.tasks[t].(pc := Calling(held, [], w.now), future := Pending);
    w.(tasks := w.tasks[t := task], inflight := w.inflight[task.Where() := t])
  }

  /** After the lock is gone: only now does a successful leader resolve its future. */
  function AfterRelease(w: World, t: nat, result: ChainResult): (w': World)
    requires t < |w.tasks|
    ensures |w'.tasks| == |w.tasks|
  {
    match result
    case Served(provider, response) =>
      var task := w.tasks[t].(pc := Storing(provider, response), future := Resolved(response));
      w.(tasks := w.tasks[t := task])
    case Raised(failure) => Moved(w, t, Returned(Failure(failure), ByFailing))
  }

  /** The end of the chain: a failure rejects the future at once, and the entry goes if it is still ours. */
  function FinishChain(w: World, t: nat, held: bool, result: ChainResult): (w': World)
    requires t < |w.tasks|
    ensures |w'.tasks| == |w.tasks|
  {
    var task := w.tasks[t];
    var future := if result.Raised? then Rejected(result.failure) else task.future;
    var own := task.Where() in w.inflight && w.inflight[task.Where()] == t;
    var settled := w.(
      tasks := w.tasks[t := task.(future := future)],
      inflight := if own then w.inflight - {task.Where()} else w.inflight);
    if held then Moved(settled, t, Releasing(result)) else AfterRelease(settled, t, result)
  }

  predicate Runnable(w: World, t: nat) {
    t < |w.tasks| &&
    match w.tasks[t].pc
    case CacheReplied(_) | Discarded | LockReplied(_, _) | PollReplied(_, _, _) | Released(_) | Stored(_, _) => true
    case Following(owner) => owner < |w.tasks| && (w.tasks[owner].future.Resolved? || w.tasks[owner].future.Rejected?)
    case Sleeping(_, wake) => wake <= w.now
    case _ => false
  }

  function ResumeStep(w: World, t: nat): (w': World)
    requires Runnable(w, t)
    ensures |w'.tasks| == |w.tasks|
  {
    var task := w.tasks[t];
    match task.pc
    case CacheReplied(reply) =>
      (match reply
       case Found(response) => AnswerFromCache(w, t, response, ByHit)
       case Unreadable => Moved(w, t, Discarding)
       case _ => AfterMiss(w, t))
    case Discarded => AfterMiss(w, t)
    case Following(owner) =>
      (match w.tasks[owner].future
       case Resolved(response) => AnswerFromCache(w, t, response, ByFollowing)
       case Rejected(failure) => Moved(w, t, Returned(Failure(failure), ByFailing)))
    case LockReplied(held, _) =>
      if held then Lead(w, t, true) else Moved(w, t, Polling(w.now + WAIT_TIMEOUT_SECONDS, w.now))
    case PollReplied(deadline, _, reply) =>
      (match reply
       case Found(response) => AnswerFromCache(w, t, response, ByWaiting)
       case Missing => Moved(w, t, Sleeping(deadline, w.now + LOCK_POLL_INTERVAL_SECONDS))
       case _ => Lead(w, t, false))
    case Sleeping(deadline, _) =>
      if w.now < deadline then Moved(w, t, Polling(deadline, w.now)) else Lead(w, t, false)
    case Released(result) => AfterRelease(w, t, result)
    case Stored(provider, response) =>
      var pricing := provider.PricingFor(task.key.request.model);
      var record := BuildUsageRecord(
        task.key.keyId, FromProvider(provider.name), pricing, response.model, response.usage);
      Moved(Recorded(w, t, record), t, Returned(Success(response), ByLeading(provider)))
  }

  predicate InChain(w: World, t: nat) {
    t < |w.tasks| && w.tasks[t].pc.Calling? && |w.tasks[t].pc.failures| < |w.tasks[t].providers|
  }

  function AnswerStep(w: World, t: nat, attempt: Attempt): (w': World)
    requires InChain(w, t)
    ensures |w'.tasks| == |w.tasks|
  {
    var task := w.tasks[t];
    match Next(task.providers, task.pc.failures, attempt)
    case Trying(failures) => Moved(w, t, Calling(task.pc.held, failures, w.now))
    case Finished(result) => FinishChain(w, t, task.pc.held, result)
  }

  // ---------- Streaming requests ----------

  function StreamMoved(w: World, s: nat, pc: StreamPc): World
    requires s < |w.streams|
  {
    w.(streams := w.streams[s := w.streams[s].(pc := pc)])
  }

  function StreamRecorded(w: World, s: nat, record: UsageRecord): World {
    w.(log := w.log + [Emitted(ByStream(s), record)])
  }

  /** After a miss: the first provider is asked, whoever else is asking for the same. */
  function StartStream(w: World, s: nat): World
    requires s < |w.streams|
  {
    StreamMoved(w, s, if w.streams[s].providers == [] then StreamOver(NotStarted([], None)) else Relaying(0, None, []))
  }

  function StreamCommand(w: World, s: nat, served: bool, answered: bool): World
    requires s < |w.streams|
    requires w.streams[s].pc.StreamRead? || w.streams[s].pc.StreamDiscarding? || w.streams[s].pc.StreamStoring?
  {
    var key := w.streams[s].key;
    match w.streams[s].pc
    case StreamRead => StreamMoved(w, s, StreamReplied(if served && answered then Lookup(w, key) else Errored))
    case StreamDiscarding => StreamMoved(if served then w.(cache := w.cache - {key}) else w, s, StreamDiscarded)
    case StreamStoring(provider, lines, created) =>
      var response := Streaming.ToResponse(Streaming.Gather(Streaming.NOTHING, lines), created);
      var entry := Entry(Some(response), w.now + w.streams[s].cacheTtl);
      StreamMoved(if served then w.(cache := w.cache[key := entry]) else w, s,
        StreamOver(Whole(provider, lines, created)))
  }

  function StreamProceed(w: World, s: nat): World
    requires s < |w.streams| && (w.streams[s].pc.StreamReplied? || w.streams[s].pc.StreamDiscarded?)
  {
    match w.streams[s].pc
    case StreamReplied(Found(response)) =>
      var record := BuildUsageRecord(w.streams[s].key.keyId, FromCache, FREE, response.model, response.usage);
      StreamMoved(StreamRecorded(w, s, record), s, StreamOver(Replayed(response)))
    case StreamReplied(Unreadable) => StreamMoved(w, s, StreamDiscarding)
    case _ => StartStream(w, s)
  }

  predicate StreamOpen(w: World, s: nat) {
    s < |w.streams| && w.streams[s].pc.Relaying? && w.streams[s].pc.index < |w.streams[s].providers|
  }

  /** The current provider's stream has ended: try the next one, or settle the request. */
  function EndStream(w: World, s: nat, ending: Ending, created: int): World
    requires StreamOpen(w, s)
  {
    var k := w.streams[s];
    var provider, lines := k.providers[k.pc.index], k.pc.lines;
    match NextSource(k.providers, k.pc.index, k.pc.lastError, lines, ending)
    case Seeking(error) => StreamMoved(w, s, Relaying(k.pc.index + 1, error, []))
    case Over(NobodyStarted(attempted, error)) => StreamMoved(w, s, StreamOver(NotStarted(attempted, error)))
    case Over(Ended(Aborted)) => StreamMoved(w, s, StreamOver(StreamCrashed))
    case Over(Ended(Broken(error))) => StreamMoved(w, s, StreamOver(Cut(provider, lines, error)))
    case Over(Ended(Completed)) =>
      var model := k.key.request.model;
      var record := BuildUsageRecord(k.key.keyId, FromProvider(provider.name), provider.PricingFor(model), model,
        Streaming.CaptureAll(lines));
      StreamMoved(StreamRecorded(w, s, record), s,
        if Streaming.Gather(Streaming.NOTHING, lines).sawAnyChunk then StreamStoring(provider, lines, created)
        else StreamOver(Whole(provider, lines, created)))
  }

  predicate StreamEnabled(w: World, s: nat, action: StreamAction) {
    s < |w.streams| &&
    var pc := w.streams[s].pc;
    match action
    case Command(_, _) => pc.StreamRead? || pc.StreamDiscarding? || pc.StreamStoring?
    case Proceed => pc.StreamReplied? || pc.StreamDiscarded?
    case Line(_) => StreamOpen(w, s)
    case End(_, _) => StreamOpen(w, s)
  }

  /** A streaming request touches no lock, no in-flight table and no other request. */
  function StreamStep(w: World, s: nat, action: StreamAction): (w': World)
    requires StreamEnabled(w, s, action)
    ensures w'.tasks == w.tasks && w'.locks == w.locks && w'.inflight == w.inflight && w'.now == w.now
    ensures |w'.streams| == |w.streams|
  {
    match action
    case Command(served, answered) => StreamCommand(w, s, served, answered)
    case Proceed => StreamProceed(w, s)
    case Line(line) =>
      var pc := w.streams[s].pc;
      StreamMoved(w, s, Relaying(pc.index, pc.lastError, pc.lines + [line]))
    case End(ending, created) => EndStream(w, s, ending, created)
  }

  // ---------- Events ----------

  /** The route hands a request to the one path or the other by its `stream` flag. */
  predicate Enabled(w: World, e: Event) {
    match e
    case Arrive(_, key, _) => !key.request.stream
    case Tick(elapsed) => elapsed >= 0.0
    case Redis(t, _, _) => t < |w.tasks| && WaitsOnRedis(w.tasks[t].pc)
    case Resume(t) => Runnable(w, t)
    case Answer(t, _) => InChain(w, t)
    case StreamArrive(key, _) => key.request.stream
    case Stream(s, action) => StreamEnabled(w, s, action)
    case Corrupt(_, _) => true
  }

  function Apply(w: World, e: Event): World
    requires Enabled(w, e)
  {
    match e
    case Arrive(replica, key, config) =>
      var providers := SelectProviders(config.registry, key.request.model);
      w.(tasks := w.tasks + [Task(replica, key, providers, config.cacheTtl, CacheRead, NoFuture)])
    case Tick(elapsed) => w.(now := w.now + elapsed)
    case Redis(t, served, answered) => RedisStep(w, t, served, answered)
    case Resume(t) => ResumeStep(w, t)
    case Answer(t, attempt) => AnswerStep(w, t, attempt)
    case StreamArrive(key, config) =>
      var providers := SelectProviders(config.registry, key.request.model);
      w.(streams := w.streams + [StreamTask(key, providers, config.cacheTtl, StreamRead)])
    case Stream(s, action) => StreamStep(w, s, action)
    case Corrupt(key, expires) => w.(cache := w.cache[key := Entry(None, expires)])
  }

  // ---------- Runs ----------

  predicate Legal(events: seq<Event>)
    decreases |events|, 0
  {
    events == [] ||
    (Legal(events[..|events| - 1]) && Enabled(Reach(events[..|events| - 1]), events[|events| - 1]))
  }

  /** The state that a sequence of events leads to from the empty start. */
  function Reach(events: seq<Event>): World
    requires Legal(events)
    decreases |events|, 1
  {
    if events == [] then START
    else Apply(Reach(events[..|events| - 1]), events[|events| - 1])
  }

  predicate Finished(w: World) {
    forall t :: 0 <= t < |w.tasks| ==> w.tasks[t].pc.Returned?
  }

  lemma Extend(events: seq<Event>, e: Event)
    requires Legal(events) && Enabled(Reach(events), e)
    ensures Legal(events + [e]) && Reach(events + [e]) == Apply(Reach(events), e)
  {
    var more := events + [e];
    assert more[..|more| - 1] == events;
  }

  lemma {:induction false} LegalPrefix(events: seq<Event>, n: nat)
    requires Legal(events) && n <= |events|
    ensures Legal(events[..n])
    ensures n < |events| ==> Enabled(Reach(events[..n]), events[n])
  {
    if n < |events| {
      var before := events[..|events| - 1];
      if n == |before| {
        assert events[..n] == before;
      } else {
        LegalPrefix(before, n);
        assert before[..n] == events[..n];
      }
    } else {
      assert events[..n] == events;
    }
  }

  /** The task that an event moves, if it is a task's own step. */
  function Mover(e: Event): Option<nat> {
    match e
    case Redis(t, _, _) => Some(t)
    case Resume(t) => Some(t)
    case Answer(t, _) => Some(t)
    case _ => None
  }

  /** `w'` differs from `w` in its tasks only at `t`, whose identity it keeps. */
  ghost predicate OnlyMoves(w: World, w': World, t: nat) {
    && t < |w.tasks| == |w'.tasks|
    && w'.tasks[t].Where() == w.tasks[t].Where()
    && w'.tasks[t].providers == w.tasks[t].providers && w'.tasks[t].cacheTtl == w.tasks[t].cacheTtl
    && w'.now == w.now && w'.streams == w.streams
    && forall u :: 0 <= u < |w.tasks| && u != t ==> w'.tasks[u] == w.tasks[u]
  }

  lemma RedisMovesOne(w: World, t: nat, served: bool, answered: bool)
    requires t < |w.tasks| && WaitsOnRedis(w.tasks[t].pc)
    ensures OnlyMoves(w, RedisStep(w, t, served, answered), t)
  {
  }

  lemma ResumeMovesOne(w: World, t: nat)
    requires Runnable(w, t)
    ensures OnlyMoves(w, ResumeStep(w, t), t)
  {
    match w.tasks[t].pc
    case CacheReplied(reply) => { match reply { case Found(_) => case _ => } }
    case Discarded =>
    case Following(owner) =>
    case LockReplied(held, _) =>
    case PollReplied(_, _, reply) => { match reply { case Found(_) => case Missing => case _ => } }
    case Sleeping(deadline, _) =>
    case Released(result) =>
    case Stored(provider, response) =>
  }

  lemma AnswerMovesOne(w: World, t: nat, attempt: Attempt)
    requires InChain(w, t)
    ensures OnlyMoves(w, AnswerStep(w, t, attempt), t)
  {
  }

  /** A task's own step leaves every other task as it was. */
  lemma {:induction false} StepMovesOneTask(w: World, e: Event)
    requires Enabled(w, e) && Mover(e).Some?
    ensures OnlyMoves(w, Apply(w, e), Mover(e).value)
  {
    match e
    case Redis(t, served, answered) => RedisMovesOne(w, t, served, answered);
    case Resume(t) => ResumeMovesOne(w, t);
    case Answer(t, attempt) => AnswerMovesOne(w, t, attempt);
    case _ =>
  }

  /** Of all requests only the streaming request `s` has moved on, and neither lock nor table has changed. */
  ghost predicate OnlyStreams(w: World, w': World, s: nat) {
    && w'.tasks == w.tasks && w'.locks == w.locks && w'.inflight == w.inflight && w'.now == w.now
    && s < |w.streams| == |w'.streams|
    && w'.streams[s].key == w.streams[s].key
    && w'.streams[s].providers == w.streams[s].providers && w'.streams[s].cacheTtl == w.streams[s].cacheTtl
    && (forall u :: 0 <= u < |w.streams| && u != s ==> w'.streams[u] == w.streams[u])
  }

  lemma {:induction false} StreamStepMovesOne(w: World, s: nat, action: StreamAction)
    requires StreamEnabled(w, s, action)
    ensures OnlyStreams(w, StreamStep(w, s, action), s)
  {
  }
}
