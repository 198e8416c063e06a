/**
 When coalescing really makes one caller. The gateway's documentation says that of concurrent
 identical misses only the first calls the provider, and that across replicas a lock makes a single
 replica the caller. The code does not ensure it: a task looks at the in-flight table before it tries
 for the lock, and does not look again when it registers its own future; and a task that did not get
 the lock calls anyway after a bounded wait. On one replica there is a single caller at all times
 exactly when no registration finds an entry in its place, and in the whole deployment exactly when
 none finds an entry of its key on any replica. With timely replies and provider calls, one of the two
 whose paths cross then lacks the lock.
 */
module SingleCaller {
  import opened Wrappers
  import opened Api
  import opened Fallback
  import opened SingleFlight
  import opened Coalescing
  import opened LockTiming

  /** At most one task per replica and key is in its provider chain. */
  ghost predicate OneCaller(w: World) {
    forall t, u | 0 <= t < |w.tasks| && 0 <= u < |w.tasks| && w.tasks[t].pc.Calling? && w.tasks[u].pc.Calling? ::
      w.tasks[t].Where() == w.tasks[u].Where() ==> t == u
  }

  ghost predicate AlwaysOneCaller(events: seq<Event>)
    requires Legal(events)
    decreases |events|
  {
    OneCaller(Reach(events)) && (events == [] || AlwaysOneCaller(events[..|events| - 1]))
  }

  /** Without the lock a task is about to lead: its last poll failed, or it has waited until its deadline. */
  predicate GivesUpWaiting(now: real, pc: Pc) {
    match pc
    case PollReplied(_, _, reply) => reply == Errored || reply == Unreadable
    case Sleeping(deadline, _) => deadline <= now
    case _ => false
  }

  /** The guard of the branch that registers a future: the lock was granted, or the wait is given up. */
  predicate Leads(w: World, t: nat) {
    Runnable(w, t) && ((w.tasks[t].pc.LockReplied? && w.tasks[t].pc.held) || GivesUpWaiting(w.now, w.tasks[t].pc))
  }

  /** Exactly the tasks that meet the guard start to call, with the lock if it was granted. */
  lemma LeadersCall(w: World, t: nat)
    requires Runnable(w, t)
    ensures var pc := ResumeStep(w, t).tasks[t].pc;
      (pc.Calling? <==> Leads(w, t)) && (pc.Calling? ==> pc.held == w.tasks[t].pc.LockReplied?)
  {
    match w.tasks[t].pc
    case CacheReplied(_) =>
    case Following(_) =>
    case LockReplied(_, _) =>
    case PollReplied(_, _, _) =>
    case Sleeping(_, _) =>
    case Released(_) =>
    case _ =>
  }

  /** The event makes a task a leader although its place in the table is taken. */
  predicate Overwrites(w: World, e: Event) {
    e.Resume? && Leads(w, e.task) && w.tasks[e.task].Where() in w.inflight
  }

  predicate NeverOverwrites(events: seq<Event>)
    requires Legal(events)
    decreases |events|
  {
    events == [] ||
    (NeverOverwrites(events[..|events| - 1]) && !Overwrites(Reach(events[..|events| - 1]), events[|events| - 1]))
  }

  /** Every caller is the one that the table names. */
  ghost predicate TableExact(w: World) {
    forall t :: 0 <= t < |w.tasks| && w.tasks[t].pc.Calling? ==>
      w.tasks[t].Where() in w.inflight && w.inflight[w.tasks[t].Where()] == t
  }

  /** A step of `t` changes the table only in t's place, and only by entering or leaving the chain. */
  lemma TableFollowsChain(w: World, e: Event)
    requires Enabled(w, e) && Mover(e).Some?
    ensures var t := Mover(e).value; var w' := Apply(w, e);
      t < |w.tasks| == |w'.tasks|
      && (w'.tasks[t].pc.Calling? && !w.tasks[t].pc.Calling? ==>
            e == Resume(t) && w'.inflight == w.inflight[w.tasks[t].Where() := t])
      && (w'.tasks[t].pc.Calling? && w.tasks[t].pc.Calling? ==> w'.inflight == w.inflight)
      && (!w'.tasks[t].pc.Calling? ==>
            forall s :: s in w.inflight && (s != w.tasks[t].Where() || w.inflight[s] != t) ==>
              s in w'.inflight && w'.inflight[s] == w.inflight[s])
  {
    match e
    case Redis(t, served, answered) =>
    case Resume(t) => ResumeTable(w, t);
    case Answer(t, attempt) => AnswerTable(w, t, attempt);
    case _ =>
  }

  lemma ResumeTable(w: World, t: nat)
    requires Runnable(w, t)
    ensures var w' := ResumeStep(w, t);
      |w'.tasks| == |w.tasks|
      && w'.inflight == if w'.tasks[t].pc.Calling? then w.inflight[w.tasks[t].Where() := t] else w.inflight
  {
    match w.tasks[t].pc
    case CacheReplied(_) =>
    case Following(_) =>
    case LockReplied(_, _) =>
    case PollReplied(_, _, _) =>
    case Sleeping(_, _) =>
    case Released(_) =>
    case _ =>
  }

  lemma AnswerTable(w: World, t: nat, attempt: Attempt)
    requires InChain(w, t)
    ensures var w' := AnswerStep(w, t, attempt);
      |w'.tasks| == |w.tasks|
      && (w'.tasks[t].pc.Calling? ==> w'.inflight == w.inflight)
      && forall s :: s in w.inflight && (s != w.tasks[t].Where() || w.inflight[s] != t) ==>
           s in w'.inflight && w'.inflight[s] == w.inflight[s]
  {
  }

  lemma {:induction false} StepKeepsTableExact(w: World, e: Event)
    requires Inv(w) && TableExact(w) && Enabled(w, e) && !Overwrites(w, e)
    ensures TableExact(Apply(w, e))
  {
    var w' := Apply(w, e);
    if Mover(e).Some? {
      var t := Mover(e).value;
      StepMovesOneTask(w, e);
      TableFollowsChain(w, e);
      if e.Resume? { LeadersCall(w, t); }
      forall u | 0 <= u < |w'.tasks| && w'.tasks[u].pc.Calling?
        ensures w'.tasks[u].Where() in w'.inflight && w'.inflight[w'.tasks[u].Where()] == u
      {
        if u != t {
          assert w'.tasks[u] == w.tasks[u];
        }
      }
    }
  }

  lemma {:induction false} WithoutOverwriteTableExact(events: seq<Event>)
    requires Legal(events) && NeverOverwrites(events)
    ensures TableExact(Reach(events)) && AlwaysOneCaller(events)
  {
    if events != [] {
      var before := events[..|events| - 1];
      WithoutOverwriteTableExact(before);
      ReachableInv(before);
      StepKeepsTableExact(Reach(before), events[|events| - 1]);
    }
  }

  lemma OverwriteMakesTwoCallers(w: World, e: Event)
    requires Inv(w) && Enabled(w, e) && Overwrites(w, e)
    ensures !OneCaller(Apply(w, e))
  {
    var t := e.task;
    var w' := Apply(w, e);
    StepMovesOneTask(w, e);
    LeadersCall(w, t);
    var owner := w.inflight[w.tasks[t].Where()];
    assert w.tasks[owner].pc.Calling? && w.tasks[owner].Where() == w.tasks[t].Where();
    assert owner != t;
    assert w'.tasks[owner].pc.Calling? && w'.tasks[owner].Where() == w'.tasks[t].Where();
  }

  /** Main result: one caller per replica and key throughout the run, exactly when no leader overwrites an entry. */
  lemma {:induction false} OneCallerIffNoOverwrite(events: seq<Event>)
    requires Legal(events)
    ensures AlwaysOneCaller(events) <==> NeverOverwrites(events)
  {
    if events != [] {
      var before, e := events[..|events| - 1], events[|events| - 1];
      OneCallerIffNoOverwrite(before);
      if NeverOverwrites(events) {
        WithoutOverwriteTableExact(events);
      } else if NeverOverwrites(before) {
        ReachableInv(before);
        OverwriteMakesTwoCallers(Reach(before), e);
      }
    }
  }

  // ---------- Across replicas ----------

  /** At most one task per key is in its provider chain, on all replicas together. */
  ghost predicate OneCallerPerKey(w: World) {
    forall t, u | 0 <= t < |w.tasks| && 0 <= u < |w.tasks| && w.tasks[t].pc.Calling? && w.tasks[u].pc.Calling? ::
      w.tasks[t].key == w.tasks[u].key ==> t == u
  }

  ghost predicate AlwaysOneCallerPerKey(events: seq<Event>)
    requires Legal(events)
    decreases |events|
  {
    OneCallerPerKey(Reach(events)) && (events == [] || AlwaysOneCallerPerKey(events[..|events| - 1]))
  }

  /** The event makes a task a leader although some replica's table has an entry for its key. */
  predicate FindsKey(w: World, e: Event) {
    e.Resume? && Leads(w, e.task) && exists slot :: slot in w.inflight && slot.key == w.tasks[e.task].key
  }

  predicate NeverFinds(events: seq<Event>)
    requires Legal(events)
    decreases |events|
  {
    events == [] ||
    (NeverFinds(events[..|events| - 1]) && !FindsKey(Reach(events[..|events| - 1]), events[|events| - 1]))
  }

  lemma OverwritingFinds(w: World, e: Event)
    ensures Overwrites(w, e) ==> FindsKey(w, e)
  {
    if Overwrites(w, e) {
      assert w.tasks[e.task].Where().key == w.tasks[e.task].key;
    }
  }

  lemma {:induction false} FindingNothingOverwritesNothing(events: seq<Event>)
    requires Legal(events) && NeverFinds(events)
    ensures NeverOverwrites(events)
  {
    if events != [] {
      var before, e := events[..|events| - 1], events[|events| - 1];
      FindingNothingOverwritesNothing(before);
      OverwritingFinds(Reach(before), e);
    }
  }

  /** A task's step into the chain is a resumption that meets the guard; any other step leaves who calls alone. */
  lemma NewCaller(w: World, e: Event, t: nat)
    requires Enabled(w, e) && t < |Apply(w, e).tasks| && Apply(w, e).tasks[t].pc.Calling?
    ensures t < |w.tasks| && Apply(w, e).tasks[t].key == w.tasks[t].key
    ensures (e == Resume(t) && Leads(w, t)) || w.tasks[t].pc.Calling?
  {
    if Mover(e).Some? {
      StepMovesOneTask(w, e);
      assert Apply(w, e).tasks[Mover(e).value].Where() == w.tasks[Mover(e).value].Where();
      match e
      case Redis(_, _, _) =>
      case Resume(u) => LeadersCall(w, u);
      case Answer(u, attempt) => AnswerStaysOrLeaves(w, u, attempt);
    }
  }

  /** Every caller is in its replica's table, so whoever joins a caller finds that entry. */
  lemma SecondCallerFinds(w: World, e: Event, t: nat, u: nat)
    requires TableExact(w) && OneCallerPerKey(w) && Enabled(w, e) && t != u
    requires t < |Apply(w, e).tasks| && u < |Apply(w, e).tasks|
    requires Apply(w, e).tasks[t].pc.Calling? && Apply(w, e).tasks[u].pc.Calling?
    requires Apply(w, e).tasks[t].key == Apply(w, e).tasks[u].key
    ensures FindsKey(w, e)
  {
    NewCaller(w, e, t);
    NewCaller(w, e, u);
    var joined := if e == Resume(t) then u else t;
    assert w.tasks[joined].pc.Calling?;
    assert w.tasks[joined].Where() in w.inflight && w.tasks[joined].Where().key == w.tasks[e.task].key;
  }

  /** The owner of the entry that a leader finds is calling, so from then on there are two. */
  lemma FinderMakesTwoCallers(w: World, e: Event)
    requires Inv(w) && Enabled(w, e) && FindsKey(w, e)
    ensures !OneCallerPerKey(Apply(w, e))
  {
    var t, w' := e.task, Apply(w, e);
    StepMovesOneTask(w, e);
    LeadersCall(w, t);
    var slot :| slot in w.inflight && slot.key == w.tasks[t].key;
    var owner := w.inflight[slot];
    assert w.tasks[owner].pc.Calling? && w.tasks[owner].Where() == slot;
    assert w'.tasks[t].Where() == w.tasks[t].Where();
    assert owner != t && w'.tasks[owner] == w.tasks[owner];
  }

  lemma {:induction false} FindingNothingIsAlone(events: seq<Event>)
    requires Legal(events) && NeverFinds(events)
    ensures AlwaysOneCallerPerKey(events)
  {
    if events != [] {
      var before, e := events[..|events| - 1], events[|events| - 1];
      FindingNothingIsAlone(before);
      FindingNothingOverwritesNothing(before);
      WithoutOverwriteTableExact(before);
      var w, w' := Reach(before), Reach(events);
      forall t: nat, u: nat | t < |w'.tasks| && u < |w'.tasks| && w'.tasks[t].pc.Calling? && w'.tasks[u].pc.Calling?
        && w'.tasks[t].key == w'.tasks[u].key ensures t == u
      {
        if t != u { SecondCallerFinds(w, e, t, u); }
      }
    }
  }

  /**
   Main result: one task at a time calls for a key in the whole deployment, throughout the run, exactly when
   no leader finds an entry of its key in the table of any replica.
   */
  lemma {:induction false} OneCallerPerKeyIff(events: seq<Event>)
    requires Legal(events)
    ensures AlwaysOneCallerPerKey(events) <==> NeverFinds(events)
  {
    if events != [] {
      var before, e := events[..|events| - 1], events[|events| - 1];
      OneCallerPerKeyIff(before);
      if NeverFinds(events) {
        FindingNothingIsAlone(events);
      } else if NeverFinds(before) {
        ReachableInv(before);
        FinderMakesTwoCallers(Reach(before), e);
      }
    }
  }

  // ---------- What the lock adds ----------

  /** In a timely run, a leader that finds an entry of its key lacks the lock, or the entry's owner does. */
  lemma {:induction false} FinderOrOwnerHasNoLock(events: seq<Event>, t: nat, slot: Slot)
    requires Legal(events) && TimelyRun(events) && Leads(Reach(events), t)
    requires slot in Reach(events).inflight && slot.key == Reach(events).tasks[t].key
    ensures var w := Reach(events); var owner := w.inflight[slot];
      owner < |w.tasks| && w.tasks[owner].pc.Calling?
      && (GivesUpWaiting(w.now, w.tasks[t].pc) || !w.tasks[owner].pc.held)
  {
    ReachableInv(events);
    var w := Reach(events);
    var owner := w.inflight[slot];
    assert TaskOk(w.tasks[owner]);
    if w.tasks[t].pc.LockReplied? && w.tasks[owner].pc.held {
      LockHoldersExclude(events, t, owner);
    }
  }

  /** In the run, task `t` learned at time `time` that its lock was not granted. */
  predicate RefusedAt(events: seq<Event>, t: nat, time: real)
    requires Legal(events)
    decreases |events|
  {
    events != [] &&
    var before, e := events[..|events| - 1], events[|events| - 1];
    (e == Resume(t) && Reach(before).tasks[t].pc.LockReplied? && !Reach(before).tasks[t].pc.held
     && time == Reach(before).now)
    || RefusedAt(before, t, time)
  }

  function Deadline(pc: Pc): Option<real> {
    match pc
    case Polling(deadline, _) => Some(deadline)
    case PollReplied(deadline, _, _) => Some(deadline)
    case Sleeping(deadline, _) => Some(deadline)
    case _ => None
  }

  /** A step keeps a deadline, or sets it when the refusal of the lock arrives. */
  lemma DeadlineStays(w: World, e: Event, t: nat)
    requires Enabled(w, e) && t < |Apply(w, e).tasks| && Deadline(Apply(w, e).tasks[t].pc).Some?
    ensures t < |w.tasks|
    ensures Deadline(Apply(w, e).tasks[t].pc) == Deadline(w.tasks[t].pc)
         || (e == Resume(t) && w.tasks[t].pc.LockReplied? && !w.tasks[t].pc.held
             && Deadline(Apply(w, e).tasks[t].pc) == Some(w.now + WAIT_TIMEOUT_SECONDS))
  {
    if Mover(e).Some? {
      StepMovesOneTask(w, e);
      match e
      case Redis(_, _, _) =>
      case Resume(u) => ResumeDeadline(w, u);
      case Answer(u, attempt) => AnswerDeadline(w, u, attempt);
    }
  }

  lemma ResumeDeadline(w: World, t: nat)
    requires Runnable(w, t)
    ensures var before, after := w.tasks[t].pc, ResumeStep(w, t).tasks[t].pc;
      after.Polling? || after.Sleeping? ==>
        Deadline(after) == Deadline(before)
        || (before.LockReplied? && !before.held && Deadline(after) == Some(w.now + WAIT_TIMEOUT_SECONDS))
    ensures !ResumeStep(w, t).tasks[t].pc.PollReplied?
  {
    match w.tasks[t].pc
    case CacheReplied(_) =>
    case Following(_) =>
    case LockReplied(_, _) =>
    case PollReplied(_, _, _) =>
    case Sleeping(_, _) =>
    case Released(_) =>
    case _ =>
  }

  lemma AnswerDeadline(w: World, t: nat, attempt: Attempt)
    requires InChain(w, t)
    ensures Deadline(AnswerStep(w, t, attempt).tasks[t].pc) == None
  {
  }

  lemma {:induction false} DeadlineIsFromRefusal(events: seq<Event>, t: nat)
    requires Legal(events) && t < |Reach(events).tasks| && Deadline(Reach(events).tasks[t].pc).Some?
    ensures RefusedAt(events, t, Deadline(Reach(events).tasks[t].pc).value - WAIT_TIMEOUT_SECONDS)
  {
    if events != [] {
      var before, e := events[..|events| - 1], events[|events| - 1];
      DeadlineStays(Reach(before), e, t);
      if Deadline(Reach(before).tasks[t].pc) == Deadline(Reach(events).tasks[t].pc) {
        DeadlineIsFromRefusal(before, t);
      }
    }
  }

  /** A task leads without the lock only after a refusal: on a failed poll, or two seconds later at the earliest. */
  lemma {:induction false} UnlockedLeaderWaited(events: seq<Event>, t: nat)
    requires Legal(events) && Leads(Reach(events), t) && !Reach(events).tasks[t].pc.LockReplied?
    ensures var w := Reach(events); var pc := w.tasks[t].pc;
      Deadline(pc).Some? && RefusedAt(events, t, Deadline(pc).value - WAIT_TIMEOUT_SECONDS)
      && ((pc.PollReplied? && (pc.reply == Errored || pc.reply == Unreadable))
          || Deadline(pc).value <= w.now)
  {
    DeadlineIsFromRefusal(events, t);
  }

  predicate LeadsUnlocked(w: World, e: Event) {
    e.Resume? && Leads(w, e.task) && !w.tasks[e.task].pc.LockReplied?
  }

  predicate NeverLeadsUnlocked(events: seq<Event>)
    requires Legal(events)
    decreases |events|
  {
    events == [] ||
    (NeverLeadsUnlocked(events[..|events| - 1])
     && !LeadsUnlocked(Reach(events[..|events| - 1]), events[|events| - 1]))
  }

  ghost predicate CallersHold(w: World) {
    forall t :: 0 <= t < |w.tasks| && w.tasks[t].pc.Calling? ==> w.tasks[t].pc.held
  }

  lemma StepKeepsCallersHold(w: World, e: Event)
    requires Enabled(w, e) && CallersHold(w) && !LeadsUnlocked(w, e)
    ensures CallersHold(Apply(w, e))
  {
    if Mover(e).Some? {
      StepMovesOneTask(w, e);
      match e
      case Redis(t, served, answered) =>
      case Resume(t) => LeadersCall(w, t);
      case Answer(t, attempt) => AnswerStaysOrLeaves(w, t, attempt);
    }
  }

  lemma {:induction false} WithoutUnlockedLeadersHold(events: seq<Event>)
    requires Legal(events) && NeverLeadsUnlocked(events)
    ensures CallersHold(Reach(events))
  {
    if events != [] {
      WithoutUnlockedLeadersHold(events[..|events| - 1]);
      StepKeepsCallersHold(Reach(events[..|events| - 1]), events[|events| - 1]);
    }
  }

  /** Two callers of one key, on whatever replicas, do not both hold the lock in a timely run. */
  lemma {:induction false} SecondCallerHasNoLock(events: seq<Event>, t: nat, u: nat)
    requires Legal(events) && TimelyRun(events) && t < |Reach(events).tasks| && u < |Reach(events).tasks|
    requires Reach(events).tasks[t].pc.Calling? && Reach(events).tasks[u].pc.Calling?
    requires Reach(events).tasks[t].key == Reach(events).tasks[u].key && t != u
    ensures !Reach(events).tasks[t].pc.held || !Reach(events).tasks[u].pc.held
  {
    ReachableInv(events);
    var w := Reach(events);
    assert TaskOk(w.tasks[t]) && TaskOk(w.tasks[u]);
    if w.tasks[t].pc.held && w.tasks[u].pc.held {
      LockHoldersExclude(events, t, u);
    }
  }

  /** So in a timely run in which nobody leads without the lock, no leader finds an entry of its key anywhere. */
  lemma {:induction false} LockedLeadersFindNothing(events: seq<Event>)
    requires Legal(events) && TimelyRun(events) && NeverLeadsUnlocked(events)
    ensures NeverFinds(events) && AlwaysOneCallerPerKey(events)
  {
    if events != [] {
      var before, e := events[..|events| - 1], events[|events| - 1];
      LockedLeadersFindNothing(before);
      WithoutUnlockedLeadersHold(before);
      var w := Reach(before);
      if FindsKey(w, e) {
        var slot :| slot in w.inflight && slot.key == w.tasks[e.task].key;
        FinderOrOwnerHasNoLock(before, e.task, slot);
        assert false;
      }
    }
    OneCallerPerKeyIff(events);
  }

  // ---------- The overlap in one instance ----------

  const OPENAI := Provider("openai", ["m"], 0, 30.0, map[])
  const HI := CacheKey(Request("m", "hi", false), 1)
  const CONFIG := Config([OPENAI], 300.0)

  function Hello(replica: nat, pc: Pc): Task {
    Task(replica, HI, [OPENAI], 300.0, pc, NoFuture)
  }

  /** Its lock attempt and its wait have both ended in a Redis error: the task is about to lead. */
  function AboutToLead(replica: nat): Task {
    Hello(replica, PollReplied(2.0, 0.0, Errored))
  }

  lemma RoutedToOpenAi()
    ensures Routing.SelectProviders([OPENAI], "m") == [OPENAI]
  {
    assert "m" in OPENAI.supportedModels;
    assert [OPENAI][1..] == [];
    assert Routing.Capable([OPENAI], "m") == [OPENAI];
    assert Routing.ByPriority([OPENAI]) == [OPENAI];
  }

  /** While Redis is down, a request walks from its arrival to its lock attempt. */
  lemma WalkToLock(events: seq<Event>, replica: nat) returns (more: seq<Event>)
    requires Legal(events) && Reach(events).inflight == map[]
    ensures Legal(more)
    ensures Reach(more) == Reach(events).(tasks := Reach(events).tasks + [Hello(replica, Locking)])
  {
    var t := |Reach(events).tasks|;
    var rest := Reach(events).tasks;
    RoutedToOpenAi();
    Extend(events, Arrive(replica, HI, CONFIG));
    more := events + [Arrive(replica, HI, CONFIG)];
    assert Reach(more).tasks == rest + [Hello(replica, CacheRead)];
    Extend(more, Redis(t, false, false));
    more := more + [Redis(t, false, false)];
    assert Reach(more).tasks == rest + [Hello(replica, CacheReplied(Errored))];
    Extend(more, Resume(t));
    more := more + [Resume(t)];
    assert Reach(more).tasks == rest + [Hello(replica, Locking)];
  }

  /** From there to the brink of leading. */
  lemma WalkToLead(events: seq<Event>, rest: seq<Task>, replica: nat) returns (more: seq<Event>)
    requires Legal(events) && Reach(events).tasks == rest + [Hello(replica, Locking)] && Reach(events).now == 0.0
    ensures Legal(more)
    ensures Reach(more) == Reach(events).(tasks := rest + [AboutToLead(replica)])
  {
    var t := |rest|;
    Extend(events, Redis(t, false, false));
    more := events + [Redis(t, false, false)];
    assert Reach(more).tasks == rest + [Hello(replica, LockReplied(false, 0.0))];
    Extend(more, Resume(t));
    more := more + [Resume(t)];
    assert Reach(more).tasks == rest + [Hello(replica, Polling(2.0, 0.0))];
    Extend(more, Redis(t, false, false));
    more := more + [Redis(t, false, false)];
    assert Reach(more).tasks == rest + [AboutToLead(replica)];
  }

  /** Two identical requests in their provider chain at the same time, on one replica or on two. */
  lemma TwoCallersHappen(replica: nat, other: nat) returns (events: seq<Event>)
    ensures Legal(events)
    ensures var w := Reach(events);
      |w.tasks| == 2 && w.tasks[0].pc.Calling? && w.tasks[1].pc.Calling?
      && w.tasks[0].key == w.tasks[1].key && w.tasks[0].replica == replica && w.tasks[1].replica == other
    ensures replica == other ==> !OneCaller(Reach(events))
  {
    events := WalkToLock([], replica);
    events := WalkToLead(events, [], replica);
    events := WalkToLock(events, other);
    events := WalkToLead(events, [AboutToLead(replica)], other);
    assert Reach(events).tasks == [AboutToLead(replica), AboutToLead(other)];
    Extend(events, Resume(0));
    events := events + [Resume(0)];
    Extend(events, Resume(1));
    events := events + [Resume(1)];
  }
}
