/** How old a response can be that is read from the cache: never older than the cache's time to live. */
module Freshness {
  import opened Wrappers
  import opened Api
  import opened SingleFlight
  import Provenance

  /** The event, happening in `w`, puts `response` into the cache under `key`. */
  predicate Stores(w: World, e: Event, key: CacheKey, response: Response) {
    match e
    case Redis(t, served, _) =>
      served && t < |w.tasks| && w.tasks[t].key == key && w.tasks[t].pc.Storing? && w.tasks[t].pc.response == response
    case Stream(s, Command(served, _)) =>
      served && s < |w.streams| && w.streams[s].key == key && w.streams[s].pc.StreamStoring?
      && Streaming.ToResponse(Streaming.Gather(Streaming.NOTHING, w.streams[s].pc.lines), w.streams[s].pc.created)
         == response
    case _ => false
  }

  /** The time to live that the storing request's replica is configured with. */
  function Ttl(w: World, e: Event): real {
    match e
    case Redis(t, _, _) => if t < |w.tasks| then w.tasks[t].cacheTtl else 0.0
    case Stream(s, _) => if s < |w.streams| then w.streams[s].cacheTtl else 0.0
    case _ => 0.0
  }

  /** Some event of the run stored this very response under this key, less than its time to live before `now`. */
  predicate StoredRecently(events: seq<Event>, key: CacheKey, response: Response, now: real)
    requires Legal(events)
    decreases |events|
  {
    events != [] &&
    var before, e := events[..|events| - 1], events[|events| - 1];
    (Stores(Reach(before), e, key, response) && now < Reach(before).now + Ttl(Reach(before), e))
    || StoredRecently(before, key, response, now)
  }

  ghost predicate SameOrStored(w: World, e: Event, key: CacheKey)
    requires Enabled(w, e)
  {
    var w' := Apply(w, e);
    key in w'.cache && w'.cache[key].value.Some? ==>
      (key in w.cache && w.cache[key] == w'.cache[key])
      || (Stores(w, e, key, w'.cache[key].value.value) && w'.cache[key].expires == w.now + Ttl(w, e))
  }

  /** A readable entry stays as it is, or is stored by the event with the full time to live. */
  lemma EntryStaysOrIsStored(w: World, e: Event, key: CacheKey)
    requires Enabled(w, e)
    ensures SameOrStored(w, e, key)
  {
    match e
    case Redis(t, served, answered) =>
    case Resume(t) => Provenance.ResumeCache(w, t);
    case Answer(t, attempt) => Provenance.AnswerCache(w, t, attempt);
    case _ =>
  }

  lemma {:induction false} EntryIsDated(events: seq<Event>, key: CacheKey, now: real)
    requires Legal(events) && key in Reach(events).cache && Reach(events).cache[key].value.Some?
    requires now < Reach(events).cache[key].expires
    ensures StoredRecently(events, key, Reach(events).cache[key].value.value, now)
  {
    if events != [] {
      var before, e := events[..|events| - 1], events[|events| - 1];
      EntryStaysOrIsStored(Reach(before), e, key);
      if key in Reach(before).cache && Reach(before).cache[key] == Reach(events).cache[key] {
        EntryIsDated(before, key, now);
      }
    }
  }

  lemma FoundIsLive(w: World, t: nat, served: bool, answered: bool, response: Response)
    requires Enabled(w, Redis(t, served, answered))
    requires var pc := RedisStep(w, t, served, answered).tasks[t].pc;
      (pc.CacheReplied? || pc.PollReplied?) && pc.reply == Found(response)
    ensures var key := w.tasks[t].key;
      key in w.cache && w.cache[key].value == Some(response) && w.now < w.cache[key].expires
  {
  }

  /** What a task finds in the cache was stored under its key less than the time to live before the read. */
  lemma {:induction false} FoundIsFresh(events: seq<Event>, t: nat, served: bool, answered: bool, response: Response)
    requires Legal(events) && Enabled(Reach(events), Redis(t, served, answered))
    requires var pc := RedisStep(Reach(events), t, served, answered).tasks[t].pc;
      (pc.CacheReplied? || pc.PollReplied?) && pc.reply == Found(response)
    ensures StoredRecently(events, Reach(events).tasks[t].key, response, Reach(events).now)
  {
    FoundIsLive(Reach(events), t, served, answered, response);
    EntryIsDated(events, Reach(events).tasks[t].key, Reach(events).now);
  }

  /** So was what a streaming request finds and replays. */
  lemma {:induction false} ReplayIsFresh(events: seq<Event>, s: nat, served: bool, answered: bool, response: Response)
    requires Legal(events) && Enabled(Reach(events), Stream(s, Command(served, answered)))
    requires StreamCommand(Reach(events), s, served, answered).streams[s].pc == StreamReplied(Found(response))
    ensures StoredRecently(events, Reach(events).streams[s].key, response, Reach(events).now)
  {
    EntryIsDated(events, Reach(events).streams[s].key, Reach(events).now);
  }
}
