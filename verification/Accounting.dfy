/** Usage records of all requests: one per answered request, and money only for what providers gave. */
module Accounting {
  import opened Wrappers
  import opened Api
  import opened Fallback
  import opened SingleFlight

  // ---------- Sums ----------

  function Count<T>(requests: seq<T>, p: T -> bool): nat {
    if requests == [] then 0
    else Count(requests[..|requests| - 1], p) + if p(requests[|requests| - 1]) then 1 else 0
  }

  function Sum<T>(requests: seq<T>, f: T -> real): real {
    if requests == [] then 0.0
    else Sum(requests[..|requests| - 1], f) + f(requests[|requests| - 1])
  }

  lemma {:induction false} CountUpdate<T>(requests: seq<T>, p: T -> bool, i: nat, k: T)
    requires i < |requests|
    ensures Count(requests[i := k], p) + (if p(requests[i]) then 1 else 0)
         == Count(requests, p) + (if p(k) then 1 else 0)
  {
    var n := |requests| - 1;
    if i == n {
      assert requests[i := k][..n] == requests[..n];
    } else {
      assert requests[i := k][..n] == requests[..n][i := k];
      CountUpdate(requests[..n], p, i, k);
    }
  }

  lemma {:induction false} SumUpdate<T>(requests: seq<T>, f: T -> real, i: nat, k: T)
    requires i < |requests|
    ensures Sum(requests[i := k], f) + f(requests[i]) == Sum(requests, f) + f(k)
  {
    var n := |requests| - 1;
    if i == n {
      assert requests[i := k][..n] == requests[..n];
    } else {
      assert requests[i := k][..n] == requests[..n][i := k];
      SumUpdate(requests[..n], f, i, k);
    }
  }

  lemma Appended<T>(requests: seq<T>, p: T -> bool, f: T -> real, k: T)
    ensures Count(requests + [k], p) == Count(requests, p) + if p(k) then 1 else 0
    ensures Sum(requests + [k], f) == Sum(requests, f) + f(k)
  {
    assert (requests + [k])[..|requests|] == requests;
  }

  lemma {:induction false} SumsAgree<T>(requests: seq<T>, p: T -> bool, q: T -> bool, f: T -> real, g: T -> real)
    requires forall k :: k in requests ==> p(k) == q(k) && f(k) == g(k)
    ensures Count(requests, p) == Count(requests, q) && Sum(requests, f) == Sum(requests, g)
  {
    if requests != [] {
      SumsAgree(requests[..|requests| - 1], p, q, f, g);
    }
  }

  function TotalCost(log: seq<Emitted>): real {
    if log == [] then 0.0
    else TotalCost(log[..|log| - 1]) + log[|log| - 1].record.estimatedCost
  }

  function FromProviders(log: seq<Emitted>): nat {
    if log == [] then 0
    else FromProviders(log[..|log| - 1]) + if log[|log| - 1].record.origin.FromProvider? then 1 else 0
  }

  // ---------- Tasks ----------

  predicate AnsweredOk(k: Task) {
    k.pc.Returned? && k.pc.outcome.Success?
  }

  predicate LedToAnswer(k: Task) {
    AnsweredOk(k) && k.pc.via.ByLeading?
  }

  /** The record owed to a task that has answered its request. */
  function RecordOf(k: Task): UsageRecord
    requires AnsweredOk(k)
  {
    var response := k.pc.outcome.response;
    match k.pc.via
    case ByLeading(provider) =>
      BuildUsageRecord(k.key.keyId, FromProvider(provider.name), provider.PricingFor(k.key.request.model),
        response.model, response.usage)
    case _ => BuildUsageRecord(k.key.keyId, FromCache, FREE, response.model, response.usage)
  }

  function RecordedCost(k: Task): real {
    if AnsweredOk(k) then RecordOf(k).estimatedCost else 0.0
  }

  /** The provider and the response that a task's chain ended with. */
  function ChainEnd(pc: Pc): Option<(Provider, Response)> {
    match pc
    case Releasing(Served(provider, response)) => Some((provider, response))
    case Released(Served(provider, response)) => Some((provider, response))
    case Storing(provider, response) => Some((provider, response))
    case Stored(provider, response) => Some((provider, response))
    case Returned(Success(response), ByLeading(provider)) => Some((provider, response))
    case _ => None
  }

  predicate ChainServed(k: Task) {
    ChainEnd(k.pc).Some?
  }

  /** The requested model, not the one the provider echoes, sets the price. */
  function Price(k: Task, provider: Provider, response: Response): real {
    Cost(provider.PricingFor(k.key.request.model), response.usage)
  }

  function ChainCost(k: Task): real {
    match ChainEnd(k.pc)
    case Some((provider, response)) => Price(k, provider, response)
    case None => 0.0
  }

  // ---------- Streaming requests ----------

  /** Completed by its provider, or replayed from the cache. */
  predicate StreamAnswered(k: StreamTask) {
    StreamLed(k) || (k.pc.StreamOver? && k.pc.result.Replayed?)
  }

  predicate StreamLed(k: StreamTask) {
    k.pc.StreamStoring? || (k.pc.StreamOver? && k.pc.result.Whole?)
  }

  /** The provider whose stream completed, and its lines. */
  function ServedBy(k: StreamTask): (Provider, seq<Streaming.Line>)
    requires StreamLed(k)
  {
    match k.pc
    case StreamStoring(provider, lines, _) => (provider, lines)
    case StreamOver(Whole(provider, lines, _)) => (provider, lines)
  }

  function StreamRecordOf(k: StreamTask): UsageRecord
    requires StreamAnswered(k)
  {
    if StreamLed(k) then
      var (provider, lines) := ServedBy(k);
      BuildUsageRecord(k.key.keyId, FromProvider(provider.name), provider.PricingFor(k.key.request.model),
        k.key.request.model, Streaming.CaptureAll(lines))
    else
      var response := k.pc.result.response;
      BuildUsageRecord(k.key.keyId, FromCache, FREE, response.model, response.usage)
  }

  function StreamRecordedCost(k: StreamTask): real {
    if StreamAnswered(k) then StreamRecordOf(k).estimatedCost else 0.0
  }

  /** The price of a completed stream, for the usage that its lines carried. */
  function StreamPrice(k: StreamTask, provider: Provider, lines: seq<Streaming.Line>): real {
    Cost(provider.PricingFor(k.key.request.model), Streaming.CaptureAll(lines))
  }

  function StreamCost(k: StreamTask): real {
    if StreamLed(k) then StreamPrice(k, ServedBy(k).0, ServedBy(k).1) else 0.0
  }

  // ---------- The log ----------

  /** The record is what its author, having answered its request, owes. */
  ghost predicate Owed(w: World, entry: Emitted) {
    match entry.author
    case ByTask(t) => t < |w.tasks| && AnsweredOk(w.tasks[t]) && entry.record == RecordOf(w.tasks[t])
    case ByStream(s) => s < |w.streams| && StreamAnswered(w.streams[s]) && entry.record == StreamRecordOf(w.streams[s])
  }

  /** Each record belongs to an answered request of its own and says what that request owes. */
  ghost predicate LogMatches(w: World) {
    && (forall i :: 0 <= i < |w.log| ==> Owed(w, w.log[i]))
    && (forall i, j :: 0 <= i < j < |w.log| ==> w.log[i].author != w.log[j].author)
  }

  ghost predicate Books(w: World) {
    && LogMatches(w)
    && |w.log| == Count(w.tasks, AnsweredOk) + Count(w.streams, StreamAnswered)
    && FromProviders(w.log) == Count(w.tasks, LedToAnswer) + Count(w.streams, StreamLed)
    && TotalCost(w.log) == Sum(w.tasks, RecordedCost) + Sum(w.streams, StreamRecordedCost)
  }

  lemma LogAppended(log: seq<Emitted>, entry: Emitted)
    ensures FromProviders(log + [entry]) == FromProviders(log) + if entry.record.origin.FromProvider? then 1 else 0
    ensures TotalCost(log + [entry]) == TotalCost(log) + entry.record.estimatedCost
  {
    assert (log + [entry])[..|log|] == log;
  }

  /** Either a step answers its request and emits its record, or it does neither. */
  ghost predicate EmitsOnAnswer(w: World, w': World, t: nat)
    requires t < |w.tasks| == |w'.tasks|
  {
    if !AnsweredOk(w.tasks[t]) && AnsweredOk(w'.tasks[t])
    then w'.log == w.log + [Emitted(ByTask(t), RecordOf(w'.tasks[t]))]
    else w'.log == w.log && (AnsweredOk(w.tasks[t]) <==> AnsweredOk(w'.tasks[t])) && !AnsweredOk(w.tasks[t])
  }

  /** A streaming request may take one more step, the store, after its record is out. */
  ghost predicate StreamEmitsOnAnswer(w: World, w': World, s: nat)
    requires s < |w.streams| == |w'.streams|
  {
    if !StreamAnswered(w.streams[s]) && StreamAnswered(w'.streams[s])
    then w'.log == w.log + [Emitted(ByStream(s), StreamRecordOf(w'.streams[s]))]
    else w'.log == w.log && (StreamAnswered(w.streams[s]) <==> StreamAnswered(w'.streams[s]))
         && (StreamLed(w.streams[s]) <==> StreamLed(w'.streams[s]))
         && (StreamAnswered(w.streams[s]) ==> StreamRecordOf(w'.streams[s]) == StreamRecordOf(w.streams[s]))
  }

  lemma {:induction false} ResumeEmits(w: World, t: nat)
    requires Runnable(w, t)
    ensures |ResumeStep(w, t).tasks| == |w.tasks| && EmitsOnAnswer(w, ResumeStep(w, t), t)
  {
    match w.tasks[t].pc
    case Released(result) =>
    case Stored(provider, response) =>
    case Following(owner) =>
    case CacheReplied(reply) =>
    case PollReplied(_, _, reply) =>
    case _ =>
  }

  lemma {:induction false} StepEmits(w: World, e: Event)
    requires Enabled(w, e) && Mover(e).Some?
    ensures var t := Mover(e).value;
      t < |w.tasks| == |Apply(w, e).tasks| && EmitsOnAnswer(w, Apply(w, e), t)
  {
    match e
    case Redis(t, served, answered) =>
    case Resume(t) => ResumeEmits(w, t);
    case Answer(t, attempt) =>
    case _ =>
  }

  lemma MoveKeepsLog(w: World, w': World, t: nat)
    requires LogMatches(w) && OnlyMoves(w, w', t) && EmitsOnAnswer(w, w', t)
    ensures LogMatches(w')
  {
    forall i | 0 <= i < |w.log| ensures Owed(w', w.log[i]) && w.log[i].author != ByTask(t) {
      assert Owed(w, w.log[i]);
    }
  }

  lemma MoveKeepsBooks(w: World, w': World, t: nat)
    requires Books(w) && OnlyMoves(w, w', t) && EmitsOnAnswer(w, w', t)
    ensures Books(w')
  {
    MoveKeepsLog(w, w', t);
    assert w'.tasks == w.tasks[t := w'.tasks[t]];
    CountUpdate(w.tasks, AnsweredOk, t, w'.tasks[t]);
    CountUpdate(w.tasks, LedToAnswer, t, w'.tasks[t]);
    SumUpdate(w.tasks, RecordedCost, t, w'.tasks[t]);
    if AnsweredOk(w'.tasks[t]) {
      LogAppended(w.log, Emitted(ByTask(t), RecordOf(w'.tasks[t])));
    }
  }

  lemma StreamStepEmits(w: World, s: nat, action: StreamAction)
    requires StreamEnabled(w, s, action)
    ensures StreamEmitsOnAnswer(w, StreamStep(w, s, action), s)
  {
    match action
    case Command(_, _) =>
    case Proceed =>
    case Line(_) =>
    case End(ending, created) => StreamEndEmits(w, s, ending, created);
  }

  lemma StreamEndEmits(w: World, s: nat, ending: Ending, created: int)
    requires StreamOpen(w, s)
    ensures StreamEmitsOnAnswer(w, EndStream(w, s, ending, created), s)
  {
  }

  lemma StreamKeepsLog(w: World, w': World, s: nat)
    requires LogMatches(w) && OnlyStreams(w, w', s) && StreamEmitsOnAnswer(w, w', s)
    ensures LogMatches(w')
  {
    forall i | 0 <= i < |w.log| ensures Owed(w', w.log[i]) {
      assert Owed(w, w.log[i]);
    }
    if !StreamAnswered(w.streams[s]) {
      forall i | 0 <= i < |w.log| ensures w.log[i].author != ByStream(s) {
        assert Owed(w, w.log[i]);
      }
    }
  }

  lemma StreamKeepsBooks(w: World, w': World, s: nat)
    requires Books(w) && OnlyStreams(w, w', s) && StreamEmitsOnAnswer(w, w', s)
    ensures Books(w')
  {
    StreamKeepsLog(w, w', s);
    assert w'.streams == w.streams[s := w'.streams[s]];
    CountUpdate(w.streams, StreamAnswered, s, w'.streams[s]);
    CountUpdate(w.streams, StreamLed, s, w'.streams[s]);
    SumUpdate(w.streams, StreamRecordedCost, s, w'.streams[s]);
    if !StreamAnswered(w.streams[s]) && StreamAnswered(w'.streams[s]) {
      LogAppended(w.log, Emitted(ByStream(s), StreamRecordOf(w'.streams[s])));
    }
  }

  lemma ArrivalKeepsBooks(w: World, e: Event)
    requires Books(w) && Enabled(w, e) && (e.Arrive? || e.StreamArrive?)
    ensures Books(Apply(w, e))
  {
    var w' := Apply(w, e);
    forall i | 0 <= i < |w.log| ensures Owed(w', w.log[i]) {
      assert Owed(w, w.log[i]);
    }
    if e.Arrive? {
      Appended(w.tasks, AnsweredOk, RecordedCost, w'.tasks[|w.tasks|]);
      Appended(w.tasks, LedToAnswer, RecordedCost, w'.tasks[|w.tasks|]);
    } else {
      Appended(w.streams, StreamAnswered, StreamRecordedCost, w'.streams[|w.streams|]);
      Appended(w.streams, StreamLed, StreamRecordedCost, w'.streams[|w.streams|]);
    }
  }

  lemma StepKeepsBooks(w: World, e: Event)
    requires Books(w) && Enabled(w, e)
    ensures Books(Apply(w, e))
  {
    if Mover(e).Some? {
      StepMovesOneTask(w, e);
      StepEmits(w, e);
      MoveKeepsBooks(w, Apply(w, e), Mover(e).value);
    } else if e.Stream? {
      StreamStepMovesOne(w, e.stream, e.action);
      StreamStepEmits(w, e.stream, e.action);
      StreamKeepsBooks(w, Apply(w, e), e.stream);
    } else if e.Arrive? || e.StreamArrive? {
      ArrivalKeepsBooks(w, e);
    } else {
      assert forall i :: 0 <= i < |w.log| ==> Owed(w, w.log[i]);
    }
  }

  lemma {:induction false} ReachableBooks(events: seq<Event>)
    requires Legal(events)
    ensures Books(Reach(events))
  {
    if events != [] {
      ReachableBooks(events[..|events| - 1]);
      StepKeepsBooks(Reach(events[..|events| - 1]), events[|events| - 1]);
    }
  }

  /** Every answered request has its record. */
  ghost predicate AllRecorded(w: World) {
    && (forall t :: 0 <= t < |w.tasks| && AnsweredOk(w.tasks[t]) ==> HasRecord(w.log, ByTask(t)))
    && (forall s :: 0 <= s < |w.streams| && StreamAnswered(w.streams[s]) ==> HasRecord(w.log, ByStream(s)))
  }

  ghost predicate HasRecord(log: seq<Emitted>, author: Author) {
    exists i :: 0 <= i < |log| && log[i].author == author
  }

  /** A longer log keeps its records; the entry that it grows by is there. */
  lemma RecordsStay(log: seq<Emitted>, entry: Emitted)
    ensures forall author :: HasRecord(log, author) ==> HasRecord(log + [entry], author)
    ensures HasRecord(log + [entry], entry.author)
  {
    assert (log + [entry])[|log|] == entry;
    forall author | HasRecord(log, author) ensures HasRecord(log + [entry], author) {
      var i :| 0 <= i < |log| && log[i].author == author;
      assert (log + [entry])[i] == log[i];
    }
  }

  lemma MoveKeepsAllRecorded(w: World, w': World, t: nat)
    requires AllRecorded(w) && OnlyMoves(w, w', t) && EmitsOnAnswer(w, w', t)
    ensures AllRecorded(w')
  {
    if AnsweredOk(w'.tasks[t]) {
      RecordsStay(w.log, Emitted(ByTask(t), RecordOf(w'.tasks[t])));
    }
  }

  lemma StreamKeepsAllRecorded(w: World, w': World, s: nat)
    requires AllRecorded(w) && OnlyStreams(w, w', s) && StreamEmitsOnAnswer(w, w', s)
    ensures AllRecorded(w')
  {
    if !StreamAnswered(w.streams[s]) && StreamAnswered(w'.streams[s]) {
      RecordsStay(w.log, Emitted(ByStream(s), StreamRecordOf(w'.streams[s])));
    }
  }

  lemma {:induction false} ReachableAllRecorded(events: seq<Event>)
    requires Legal(events)
    ensures AllRecorded(Reach(events))
  {
    if events != [] {
      var before, e := events[..|events| - 1], events[|events| - 1];
      ReachableAllRecorded(before);
      var w := Reach(before);
      if Mover(e).Some? {
        StepMovesOneTask(w, e);
        StepEmits(w, e);
        MoveKeepsAllRecorded(w, Apply(w, e), Mover(e).value);
      } else if e.Stream? {
        StreamStepMovesOne(w, e.stream, e.action);
        StreamStepEmits(w, e.stream, e.action);
        StreamKeepsAllRecorded(w, Apply(w, e), e.stream);
      }
    }
  }

  // ---------- The events of the run ----------

  predicate ProviderAnswered(e: Event) {
    e.Answer? && e.attempt.Answered?
  }

  /** A provider's stream ends complete, after at least one line. */
  predicate StreamCompleted(w: World, e: Event) {
    e.Stream? && StreamOpen(w, e.stream) && e.action.End? && e.action.ending == Completed
    && w.streams[e.stream].pc.lines != []
  }

  /** How many provider calls of the run ended with a response, or with a complete stream. */
  function ServedCalls(events: seq<Event>): nat
    requires Legal(events)
  {
    if events == [] then 0
    else
      var before, e := events[..|events| - 1], events[|events| - 1];
      ServedCalls(before) + if ProviderAnswered(e) || StreamCompleted(Reach(before), e) then 1 else 0
  }

  /** What a provider's answer or complete stream costs: at the price it has for the requested model. */
  function CallPrice(w: World, e: Event): real
    requires Enabled(w, e)
  {
    if ProviderAnswered(e) then
      var k := w.tasks[e.task];
      Price(k, k.providers[|k.pc.failures|], e.attempt.response)
    else if StreamCompleted(w, e) then
      var k := w.streams[e.stream];
      StreamPrice(k, k.providers[k.pc.index], k.pc.lines)
    else 0.0
  }

  function Spent(events: seq<Event>): real
    requires Legal(events)
  {
    if events == [] then 0.0
    else Spent(events[..|events| - 1]) + CallPrice(Reach(events[..|events| - 1]), events[|events| - 1])
  }

  /** A chain ends in a response exactly when its current provider gives one. */
  ghost predicate ServesOnAnswer(w: World, w': World, e: Event, t: nat)
    requires t < |w.tasks| == |w'.tasks|
  {
    if ProviderAnswered(e)
    then e.task == t && InChain(w, t) && ChainEnd(w.tasks[t].pc) == None
         && ChainEnd(w'.tasks[t].pc) == Some((w.tasks[t].providers[|w.tasks[t].pc.failures|], e.attempt.response))
    else ChainEnd(w'.tasks[t].pc) == ChainEnd(w.tasks[t].pc)
  }

  lemma ResumeKeepsChainEnd(w: World, t: nat)
    requires Runnable(w, t)
    ensures |ResumeStep(w, t).tasks| == |w.tasks|
    ensures ChainEnd(ResumeStep(w, t).tasks[t].pc) == ChainEnd(w.tasks[t].pc)
  {
    match w.tasks[t].pc
    case Released(result) =>
    case Stored(provider, response) =>
    case Following(owner) =>
    case CacheReplied(reply) =>
    case PollReplied(_, _, reply) =>
    case _ =>
  }

  lemma RedisKeepsChainEnd(w: World, t: nat, served: bool, answered: bool)
    requires t < |w.tasks| && WaitsOnRedis(w.tasks[t].pc)
    ensures ChainEnd(RedisStep(w, t, served, answered).tasks[t].pc) == ChainEnd(w.tasks[t].pc)
  {
  }

  lemma AnswerChainEnd(w: World, t: nat, attempt: Attempt)
    requires InChain(w, t)
    ensures ChainEnd(w.tasks[t].pc) == None
    ensures ChainEnd(AnswerStep(w, t, attempt).tasks[t].pc)
         == if attempt.Answered? then Some((w.tasks[t].providers[|w.tasks[t].pc.failures|], attempt.response)) else None
  {
  }

  lemma StepServes(w: World, e: Event)
    requires Enabled(w, e) && Mover(e).Some?
    ensures var t := Mover(e).value;
      t < |w.tasks| == |Apply(w, e).tasks| && ServesOnAnswer(w, Apply(w, e), e, t)
  {
    match e
    case Redis(t, served, answered) => RedisKeepsChainEnd(w, t, served, answered);
    case Resume(t) => ResumeKeepsChainEnd(w, t);
    case Answer(t, attempt) => AnswerChainEnd(w, t, attempt);
    case _ =>
  }

  /** A streaming request has been served exactly when its current provider's stream ends complete. */
  lemma StreamStepServes(w: World, s: nat, action: StreamAction)
    requires StreamEnabled(w, s, action)
    ensures var k, k' := w.streams[s], StreamStep(w, s, action).streams[s];
      if StreamCompleted(w, Stream(s, action))
      then !StreamLed(k) && StreamLed(k') && ServedBy(k') == (k.providers[k.pc.index], k.pc.lines)
      else (StreamLed(k) <==> StreamLed(k')) && (StreamLed(k) ==> ServedBy(k') == ServedBy(k))
  {
  }

  ghost predicate ServedMatch(w: World, calls: nat, spent: real) {
    Count(w.tasks, ChainServed) + Count(w.streams, StreamLed) == calls
    && Sum(w.tasks, ChainCost) + Sum(w.streams, StreamCost) == spent
  }

  lemma TaskStepMatches(w: World, e: Event, calls: nat, spent: real)
    requires Enabled(w, e) && Mover(e).Some? && ServedMatch(w, calls, spent)
    ensures ServedMatch(Apply(w, e), calls + (if ProviderAnswered(e) then 1 else 0), spent + CallPrice(w, e))
  {
    var t, w' := Mover(e).value, Apply(w, e);
    StepMovesOneTask(w, e);
    StepServes(w, e);
    assert w'.tasks == w.tasks[t := w'.tasks[t]] && w'.tasks[t].Where() == w.tasks[t].Where();
    CountUpdate(w.tasks, ChainServed, t, w'.tasks[t]);
    SumUpdate(w.tasks, ChainCost, t, w'.tasks[t]);
  }

  lemma StreamStepMatches(w: World, e: Event, calls: nat, spent: real)
    requires Enabled(w, e) && e.Stream? && ServedMatch(w, calls, spent)
    ensures ServedMatch(Apply(w, e), calls + (if StreamCompleted(w, e) then 1 else 0), spent + CallPrice(w, e))
  {
    var s, w' := e.stream, Apply(w, e);
    StreamStepMovesOne(w, s, e.action);
    StreamStepServes(w, s, e.action);
    assert w'.streams == w.streams[s := w'.streams[s]];
    CountUpdate(w.streams, StreamLed, s, w'.streams[s]);
    SumUpdate(w.streams, StreamCost, s, w'.streams[s]);
  }

  /** Chains and streams that a provider served are as many, and cost as much, as the provider calls that served. */
  lemma {:induction false} ServedAreTheCalls(events: seq<Event>)
    requires Legal(events)
    ensures ServedMatch(Reach(events), ServedCalls(events), Spent(events))
  {
    if events != [] {
      var before, e := events[..|events| - 1], events[|events| - 1];
      ServedAreTheCalls(before);
      var w, w' := Reach(before), Reach(events);
      if Mover(e).Some? {
        TaskStepMatches(w, e, ServedCalls(before), Spent(before));
      } else if e.Stream? {
        StreamStepMatches(w, e, ServedCalls(before), Spent(before));
      } else if e.Arrive? {
        Appended(w.tasks, ChainServed, ChainCost, w'.tasks[|w.tasks|]);
      } else if e.StreamArrive? {
        Appended(w.streams, StreamLed, StreamCost, w'.streams[|w.streams|]);
      }
    }
  }

  // ---------- Main results ----------

  /**
   In every reachable state: one record, its own and the right one, for each answered request, streaming or
   not; none for others.
   */
  lemma {:induction false} OneRecordPerAnswer(events: seq<Event>)
    requires Legal(events)
    ensures LogMatches(Reach(events))
    ensures |Reach(events).log| == Count(Reach(events).tasks, AnsweredOk) + Count(Reach(events).streams, StreamAnswered)
    ensures AllRecorded(Reach(events))
  {
    ReachableBooks(events);
    ReachableAllRecorded(events);
  }

  /** What the record of an answered task says, field by field. */
  ghost predicate RecordsTask(record: UsageRecord, k: Task) {
    && AnsweredOk(k)
    && var response := k.pc.outcome.response;
    && record.keyId == k.key.keyId && record.model == response.model
    && record.inputTokens == response.usage.promptTokens && record.outputTokens == response.usage.completionTokens
    && match k.pc.via
       case ByLeading(provider) =>
         record.origin == FromProvider(provider.name)
         && ChargesFor(record, provider, k.key.request.model, response.usage)
       case _ => record.origin == FromCache && record.estimatedCost == 0.0
  }

  /** The record costs what the provider has configured for the requested model, or nothing. */
  ghost predicate ChargesFor(record: UsageRecord, provider: Provider, model: string, usage: Usage) {
    && (model in provider.modelPricing ==>
          record.estimatedCost ==
          provider.modelPricing[model].inputCost * usage.promptTokens as real / 1000000.0
          + provider.modelPricing[model].outputCost * usage.completionTokens as real / 1000000.0)
    && (model !in provider.modelPricing ==> record.estimatedCost == 0.0)
  }

  /** What the record of an answered streaming request says; a served stream is counted by its lines. */
  ghost predicate RecordsStreamTask(record: UsageRecord, k: StreamTask) {
    && record.keyId == k.key.keyId
    && match k.pc
       case StreamStoring(provider, lines, _) =>
         Streaming.RecordsStream(record, k.key.keyId, k.key.request.model, provider, lines)
       case StreamOver(Whole(provider, lines, _)) =>
         Streaming.RecordsStream(record, k.key.keyId, k.key.request.model, provider, lines)
       case StreamOver(Replayed(response)) =>
         record.origin == FromCache && record.model == response.model && record.estimatedCost == 0.0
         && record.inputTokens == response.usage.promptTokens && record.outputTokens == response.usage.completionTokens
       case _ => false
  }

  lemma OwedByTask(k: Task)
    requires AnsweredOk(k)
    ensures RecordsTask(RecordOf(k), k)
  {
    var response := k.pc.outcome.response;
    match k.pc.via
    case ByLeading(provider) => ConfiguredPriceIsUsed(provider, k.key.request.model, response.usage);
    case _ => FreeCostsNothing(response.usage);
  }

  lemma OwedByStream(k: StreamTask)
    requires StreamAnswered(k)
    ensures RecordsStreamTask(StreamRecordOf(k), k)
  {
    if StreamLed(k) {
      var (provider, lines) := ServedBy(k);
      Streaming.UsageFoldsAgree(lines);
      Streaming.GatheredCounts(lines);
      ConfiguredPriceIsUsed(provider, k.key.request.model, Streaming.CaptureAll(lines));
    } else {
      FreeCostsNothing(k.pc.result.response.usage);
    }
  }

  /** Main result: in every reachable state, what each record in the log says of the request it belongs to. */
  lemma {:induction false} RecordsSay(events: seq<Event>, i: nat)
    requires Legal(events) && i < |Reach(events).log|
    ensures var w := Reach(events); var entry := w.log[i];
      match entry.author
      case ByTask(t) => t < |w.tasks| && RecordsTask(entry.record, w.tasks[t])
      case ByStream(s) => s < |w.streams| && RecordsStreamTask(entry.record, w.streams[s])
  {
    ReachableBooks(events);
    var w := Reach(events);
    assert Owed(w, w.log[i]);
    match w.log[i].author
    case ByTask(t) => OwedByTask(w.tasks[t]);
    case ByStream(s) => OwedByStream(w.streams[s]);
  }

  /** Hits, followers, waiters and replays are recorded and add nothing. */
  lemma {:induction false} SharedAnswersAreFree(events: seq<Event>, i: nat)
    requires Legal(events) && i < |Reach(events).log|
    requires Reach(events).log[i].record.origin == FromCache
    ensures Reach(events).log[i].record.estimatedCost == 0.0
  {
    ReachableBooks(events);
    var w := Reach(events);
    assert Owed(w, w.log[i]);
    match w.log[i].author
    case ByTask(t) => FreeCostsNothing(w.tasks[t].pc.outcome.response.usage);
    case ByStream(s) => FreeCostsNothing(w.streams[s].pc.result.response.usage);
  }

  /** A finished task is recorded with exactly what its own chain cost, which is nothing if it led none. */
  lemma RecordedIsChainCost(k: Task)
    requires k.pc.Returned?
    ensures LedToAnswer(k) == ChainServed(k) && RecordedCost(k) == ChainCost(k)
  {
    if AnsweredOk(k) {
      FreeCostsNothing(k.pc.outcome.response.usage);
    }
  }

  /** So is a streaming request, from the moment its stream is complete. */
  lemma RecordedIsStreamCost(k: StreamTask)
    ensures StreamRecordedCost(k) == StreamCost(k)
  {
    if StreamAnswered(k) && !StreamLed(k) {
      FreeCostsNothing(k.pc.result.response.usage);
    }
  }

  /**
   Conservation: once all coalesced requests are answered, the records attributed to providers are as many
   as the provider calls that gave a response or a complete stream, and the recorded cost is exactly what
   those calls cost.
   */
  lemma {:induction false} BooksBalance(events: seq<Event>)
    requires Legal(events) && SingleFlight.Finished(Reach(events))
    ensures FromProviders(Reach(events).log) == ServedCalls(events)
    ensures TotalCost(Reach(events).log) == Spent(events)
  {
    ReachableBooks(events);
    ServedAreTheCalls(events);
    var w := Reach(events);
    forall k | k in w.tasks ensures LedToAnswer(k) == ChainServed(k) && RecordedCost(k) == ChainCost(k) {
      RecordedIsChainCost(k);
    }
    SumsAgree(w.tasks, LedToAnswer, ChainServed, RecordedCost, ChainCost);
    forall k | k in w.streams ensures StreamRecordedCost(k) == StreamCost(k) {
      RecordedIsStreamCost(k);
    }
    SumsAgree(w.streams, StreamLed, StreamLed, StreamRecordedCost, StreamCost);
  }
}
