/** Every event keeps the queues and the counters in order; hence so does every run. */
module CoordinatorSafety {
  import opened Wrappers
  import opened CoordinatorSpec
  import opened CoordinatorQueues
  import opened CoordinatorCounts

  ghost predicate Good(s: State) {
    QueuesOk(s) && Counted(s) && SetupsOk(s)
  }

  predicate SetupsOk(s: State) {
    && (forall id | id in s.setups :: id < s.nextId)
    && (s.root.Unset? ==> s.setups == map[])
    && (s.closed ==> s.pending == [])
  }

  lemma NewId(s: State)
    requires QueuesOk(s)
    ensures s.nextId !in s.jobs
  {
    forall id | id in s.jobs ensures id < s.nextId {
      assert JobPlaced(s.root, s.nextId, QueueOf(s, s.jobs[id].source), id, s.jobs[id]);
    }
  }

  // ---- scheduling ----------------------------------------------------------------------------

  lemma ScheduleGood(s: State, source: Source, work: Work, initial: bool)
    requires QueuesOk(s) && Counted(s) && (s.closed || !s.root.Unset?)
    ensures var t := Schedule(s, source, work, initial); QueuesOk(t) && Counted(t) && Scheduled(s, t) && t.parked == s.parked
  {
    hide QueuesOk, Counted, Schedule;
    NewId(s);
    ScheduleKeeps(s, source, work, initial);
    ScheduleCounts(s, source, work, initial);
  }

  lemma ScheduledFacts(s: State)
    ensures Scheduled(s, s)
  {
  }

  lemma ScheduledKeepsRoot(s: State, t: State)
    requires Scheduled(s, t)
    ensures t.root == s.root && t.closed == s.closed && t.sources == s.sources && t.lookupQueue == s.lookupQueue
  {
  }

  lemma ScheduledTrans(s: State, t: State, u: State)
    requires Scheduled(s, t) && Scheduled(t, u)
    ensures Scheduled(s, u)
  {
  }

  lemma {:induction false} ScheduleAllGood(s: State, sources: seq<Source>, op: Op)
    requires QueuesOk(s) && Counted(s) && (s.closed || !s.root.Unset?)
    ensures var t := ScheduleAll(s, sources, op); QueuesOk(t) && Counted(t) && Scheduled(s, t) && t.parked == s.parked
    decreases |sources|
  {
    hide QueuesOk, Counted, Schedule, Scheduled;
    ScheduledFacts(s);
    if sources != [] {
      var work := if op.refresh then Refreshing else Ranging;
      ScheduleGood(s, sources[0], work, op.initial);
      var t := if op.source == Every || op.source == sources[0] then Schedule(s, sources[0], work, op.initial) else s;
      ScheduledKeepsRoot(s, t);
      ScheduleAllGood(t, sources[1..], op);
      ScheduledTrans(s, t, ScheduleAll(t, sources[1..], op));
    }
  }

  lemma {:induction false} ScheduleOpsGood(s: State, ops: seq<Op>)
    requires QueuesOk(s) && Counted(s) && (s.closed || !s.root.Unset?)
    ensures var t := ScheduleOps(s, ops); QueuesOk(t) && Counted(t) && Scheduled(s, t) && t.parked == s.parked
    decreases |ops|
  {
    hide QueuesOk, Counted, ScheduleAll, Scheduled;
    ScheduledFacts(s);
    if ops != [] {
      var t := ScheduleAll(s, s.sources, ops[0]);
      ScheduleAllGood(s, s.sources, ops[0]);
      ScheduledKeepsRoot(s, t);
      ScheduleOpsGood(t, ops[1..]);
      ScheduledTrans(s, t, ScheduleOps(t, ops[1..]));
    }
  }

  lemma CountsOnly(s: State, t: State)
    requires Counted(s) && t.jobs == s.jobs && t.setups == s.setups && t.lookupQueue == s.lookupQueue
    requires t.slots == s.slots && t.active == s.active && t.initialActive == s.initialActive
    ensures Counted(t)
  {
  }

  lemma ScheduleFallbackGood(s: State, source: Source)
    requires QueuesOk(s) && Counted(s)
    ensures var t := ScheduleFallback(s, source); QueuesOk(t) && Counted(t) && Scheduled(s, t)
    ensures s.lookupQueue == [] ==> ScheduleFallback(s, source).parked == s.parked
  {
    hide Counted, Queues, Schedule;
    if !s.closed && !s.root.Unset? && s.lookupQueue != [] {
      CountsOnly(s, s.(parked := s.parked + {source}));
    } else if !s.closed && !s.root.Unset? && s.installed != [] {
      ScheduleGood(s, source, Fallback, false);
    }
  }

  lemma {:induction false} ScheduleFallbacksGood(s: State, sources: seq<Source>)
    requires QueuesOk(s) && Counted(s)
    ensures var t := ScheduleFallbacks(s, sources); QueuesOk(t) && Counted(t) && Scheduled(s, t)
    ensures s.lookupQueue == [] ==> ScheduleFallbacks(s, sources).parked == s.parked
    decreases |sources|
  {
    hide QueuesOk, Counted, ScheduleFallback, Scheduled;
    ScheduledFacts(s);
    if sources != [] {
      var t := ScheduleFallback(s, sources[0]);
      ScheduleFallbackGood(s, sources[0]);
      ScheduledKeepsRoot(s, t);
      ScheduleFallbacksGood(t, sources[1..]);
      ScheduledTrans(s, t, ScheduleFallbacks(t, sources[1..]));
    }
  }

  // ---- source jobs ---------------------------------------------------------------------------

  lemma KnownJob(s: State, id: Id)
    requires QueuesOk(s) && id in s.jobs
    ensures var j := s.jobs[id]; var q := QueueOf(s, j.source);
      && q != [] && JobOk(j) && (j.reserved ==> q[..1] == [id])
      && (!s.root.Live? ==> j.cancelled) && (s.root.Live? && j.cancelled ==> j.begun || j.terminal)
  {
    assert JobPlaced(s.root, s.nextId, QueueOf(s, s.jobs[id].source), id, s.jobs[id]);
  }

  /** A job that moves on, or finishes where it stands. */
  lemma MoveGood(s: State, t: State, id: Id, j: Job)
    requires QueuesOk(s) && Counted(s) && id in s.jobs && t == s.(jobs := s.jobs[id := j], slots := t.slots)
    requires j.source == s.jobs[id].source && j.work == s.jobs[id].work && j.ticket == s.jobs[id].ticket
    requires (Waiting(j) ==> Waiting(s.jobs[id])) && (Overtaken(j) ==> Overtaken(s.jobs[id]))
    requires JobOk(j) && (j.reserved ==> QueueOf(s, j.source)[..1] == [id])
    requires (!s.root.Live? ==> j.cancelled) && (s.root.Live? && j.cancelled ==> j.begun || j.terminal)
    requires t.slots == s.slots + One(HoldsSlot(j)) - One(HoldsSlot(s.jobs[id])) && t.slots <= SLOTS
    ensures QueuesOk(t) && Counted(t)
  {
    hide Counted, Queues;
    SetJobOk(s.root, s.nextId, s.queues, s.jobs, id, j);
    MoveCounts(s, t, id, j);
  }

  lemma WakeGood(s: State, id: Id)
    requires QueuesOk(s) && Counted(s) && Enabled(s, Wake(id))
    ensures QueuesOk(Fire(s, Wake(id))) && Counted(Fire(s, Wake(id)))
  {
    hide Counted, Queues;
    KnownJob(s, id);
    SlotsBound(s);
    var t := Fire(s, Wake(id));
    MoveGood(s, t, id, t.jobs[id]);
  }

  lemma AcquireGood(s: State, id: Id)
    requires QueuesOk(s) && Counted(s) && Enabled(s, Acquire(id))
    ensures QueuesOk(Fire(s, Acquire(id))) && Counted(Fire(s, Acquire(id)))
  {
    hide Counted, Queues;
    KnownJob(s, id);
    var t := Fire(s, Acquire(id));
    MoveGood(s, t, id, t.jobs[id]);
  }

  lemma LeaveGood(s: State, e: Event)
    requires QueuesOk(s) && Counted(s) && Enabled(s, e) && (e.GiveUp? || e.Discard?)
    ensures QueuesOk(Fire(s, e)) && Counted(Fire(s, e))
  {
    hide Counted, Queues;
    KnownJob(s, e.id);
    SlotsBound(s);
    var t := Fire(s, e);
    MoveGood(s, t, e.id, t.jobs[e.id]);
  }

  lemma ReleaseGood(s: State, id: Id)
    requires QueuesOk(s) && Counted(s) && Enabled(s, Release(id))
    ensures QueuesOk(Fire(s, Release(id))) && Counted(Fire(s, Release(id)))
  {
    hide Counted, Queues;
    KnownJob(s, id);
    SlotsBound(s);
    var t := Fire(s, Release(id));
    MoveGood(s, t, id, t.jobs[id]);
  }

  lemma SlotsInUse(s: State, id: Id)
    requires Counted(s) && id in s.jobs && HoldsSlot(s.jobs[id])
    ensures s.slots > 0
  {
    assert id in Holders(s.jobs);
  }

  lemma UnreserveGood(s: State, id: Id)
    requires QueuesOk(s) && Counted(s) && id in s.jobs && s.jobs[id].place.Slotted?
    requires s.jobs[id].work.Fallback? && !s.jobs[id].cancelled
    ensures QueuesOk(Unreserve(s, id)) && Counted(Unreserve(s, id))
  {
    hide Counted, Queues;
    KnownJob(s, id);
    SlotsBound(s);
    var j := s.jobs[id].(reserved := false, place := Handing);
    UnreserveOk(s.root, s.nextId, s.queues, s.jobs, id, j);
    MoveCounts(s, Unreserve(s, id), id, j);
  }

  /** A job that gives up, ends or begins with its slot in hand. */
  lemma PlaceGood(s: State, id: Id, j: Job)
    requires QueuesOk(s) && Counted(s) && id in s.jobs && s.jobs[id].place.Slotted? && HoldsSlot(j) && JobOk(j)
    requires j.source == s.jobs[id].source && j.work == s.jobs[id].work && j.ticket == s.jobs[id].ticket
    requires j.reserved && j.cancelled == s.jobs[id].cancelled
    ensures QueuesOk(SetJob(s, id, j)) && Counted(SetJob(s, id, j))
  {
    hide Counted, Queues;
    KnownJob(s, id);
    SlotsBound(s);
    MoveGood(s, SetJob(s, id, j), id, j);
  }

  lemma ProceedGood(s: State, id: Id)
    requires QueuesOk(s) && Counted(s) && Enabled(s, Proceed(id))
    ensures QueuesOk(Begin(s, id)) && Counted(Begin(s, id))
  {
    hide Counted, QueuesOk, Unreserve, SetJob;
    KnownJob(s, id);
    var j := s.jobs[id];
    if j.cancelled {
      PlaceGood(s, id, j.(place := Dropping));
    } else if j.work.Fallback? && s.lookupQueue != [] {
      UnreserveGood(s, id);
    } else if j.work.Fallback? && s.installed == [] {
      PlaceGood(s, id, j.(terminal := true, place := Dropping));
    } else {
      PlaceGood(s, id, j.(begun := true, place := Running, snapshot := if j.work.Fallback? then s.installed else []));
    }
  }

  lemma SlotsBound(s: State)
    requires Counted(s)
    ensures s.slots <= SLOTS
  {
  }

  lemma TicketGood(s: State, id: Id)
    requires QueuesOk(s) && Counted(s) && id in s.jobs && s.jobs[id].begun
    ensures QueuesOk(CompleteJobTicket(s, id)) && Counted(CompleteJobTicket(s, id))
  {
    hide Counted, Queues;
    TicketOk(s.root, s.nextId, s.queues, s.jobs, id, Some(false));
    TicketCounts(s, id);
  }

  lemma YieldGood(s: State, id: Id)
    requires QueuesOk(s) && Counted(s) && id in s.jobs && s.jobs[id].place.Running?
    ensures var t := SetJob(s, id, s.jobs[id].(cancelled := true, yielded := true)); QueuesOk(t) && Counted(t)
  {
    hide Counted, Queues;
    KnownJob(s, id);
    SlotsBound(s);
    var j := s.jobs[id].(cancelled := true, yielded := true);
    MoveGood(s, SetJob(s, id, j), id, j);
  }

  lemma BatchGood(s: State, id: Id)
    requires QueuesOk(s) && Counted(s) && Enabled(s, Batch(id))
    ensures QueuesOk(Checkpoint(s, id)) && Counted(Checkpoint(s, id))
  {
    hide Counted, QueuesOk, CompleteJobTicket, SetJob, RefreshBehind;
    KnownJob(s, id);
    YieldGood(s, id);
    TicketGood(s, id);
  }

  lemma JoinSpares(s: State, id: Id, other: Id)
    requires id in s.jobs && other in s.jobs && other != id
    ensures id in OpenTicket(s, other).jobs && OpenTicket(s, other).jobs[id] == s.jobs[id]
  {
  }

  lemma AdmitSpares(s: State, source: Source, work: Work, initial: bool, at: nat, id: Id)
    requires id in s.jobs && s.nextId !in s.jobs && at <= |QueueOf(s, source)|
    ensures id in Admit(s, source, work, initial, at).jobs && Admit(s, source, work, initial, at).jobs[id] == s.jobs[id]
  {
  }

  /** Scheduling leaves a running job as it is. */
  lemma ScheduleSpares(s: State, source: Source, work: Work, initial: bool, id: Id)
    requires id in s.jobs && s.jobs[id].begun && s.nextId !in s.jobs
    ensures id in Schedule(s, source, work, initial).jobs && Schedule(s, source, work, initial).jobs[id] == s.jobs[id]
  {
    hide Admit, OpenTicket;
    var q := QueueOf(s, source);
    var n := JoinFrom(s.jobs, q, 0, work);
    if n < |q| {
      JoinSpares(s, id, q[n]);
    } else {
      AdmitSpares(s, source, work, initial, if work.Refreshing? then PlaceFrom(s.jobs, q, 0) else |q|, id);
    }
  }

  lemma AskGood(s: State, source: Source)
    requires QueuesOk(s) && Counted(s)
    ensures QueuesOk(AskFallback(s, source)) && Counted(AskFallback(s, source)) && Scheduled(Remember(s, source), AskFallback(s, source))
    ensures s.lookupQueue == [] ==> AskFallback(s, source).parked == s.parked
  {
    hide Queues, Counted, ScheduleFallback, Scheduled;
    CountsOnly(s, Remember(s, source));
    ScheduleFallbackGood(Remember(s, source), source);
  }

  lemma AskSpares(s: State, source: Source, id: Id)
    requires QueuesOk(s) && id in s.jobs && s.jobs[id].begun
    ensures id in AskFallback(s, source).jobs && AskFallback(s, source).jobs[id] == s.jobs[id]
  {
    hide Queues, Schedule;
    NewId(s);
    ScheduleSpares(Remember(s, source), source, Fallback, false, id);
  }

  lemma FinishGood(s: State, id: Id, outcome: Outcome)
    requires QueuesOk(s) && Counted(s) && Enabled(s, Finish(id, outcome))
    ensures QueuesOk(EndRun(s, id, outcome)) && Counted(EndRun(s, id, outcome))
  {
    hide Counted, QueuesOk, AskFallback, ToEnding;
    KnownJob(s, id);
    AskGood(s, s.jobs[id].source);
    AskSpares(s, s.jobs[id].source, id);
    EndsGood(if AsksForFallback(s.jobs[id], outcome) then AskFallback(s, s.jobs[id].source) else s, id);
  }

  lemma EndsGood(s: State, id: Id)
    requires QueuesOk(s) && Counted(s) && id in s.jobs && s.jobs[id].place.Running?
    ensures QueuesOk(ToEnding(s, id)) && Counted(ToEnding(s, id))
  {
    hide Counted, Queues;
    KnownJob(s, id);
    SlotsBound(s);
    MoveGood(s, SetJob(s, id, s.jobs[id].(place := Ending)), id, s.jobs[id].(place := Ending));
  }

  lemma RemoveFields(s: State, id: Id)
    requires id in s.jobs
    ensures var t := RemoveJob(s, id); var source := s.jobs[id].source;
      && t.queues == PutLine(s.queues, source, Without(QueueOf(s, source), id)) && t.jobs == s.jobs - {id}
      && t.root == s.root && t.nextId == s.nextId && t.closed == s.closed
  {
    hide PutLine, Without, Line;
  }

  lemma TicketFields(s: State, id: Id)
    requires id in s.jobs
    ensures var t := CompleteJobTicket(s, id);
      && t.queues == s.queues && id in t.jobs && t.jobs - {id} == s.jobs - {id} && t.jobs[id].source == s.jobs[id].source
      && t.root == s.root && t.nextId == s.nextId && t.closed == s.closed
  {
    if s.jobs[id].ticket == Some(true) {
      assert CloseJobTicket(s, id).jobs - {id} == s.jobs - {id};
    }
  }

  lemma DepartQueues(s: State, id: Id)
    requires id in s.jobs
    ensures var t := Depart(s, id); var source := s.jobs[id].source;
      && t.queues == PutLine(s.queues, source, Without(QueueOf(s, source), id)) && t.jobs == s.jobs - {id}
      && t.root == s.root && t.nextId == s.nextId && t.closed == s.closed
  {
    hide PutLine, Without, Line, RemoveJob, CompleteJobTicket;
    TicketFields(s, id);
    RemoveFields(CompleteJobTicket(s, id), id);
  }

  lemma DoneGood(s: State, id: Id)
    requires QueuesOk(s) && Counted(s) && Enabled(s, Done(id))
    ensures QueuesOk(Depart(s, id)) && Counted(Depart(s, id))
  {
    hide Counted, Queues, Depart;
    DepartCounts(s, id);
    DepartQueues(s, id);
    DepartOk(s.root, s.nextId, s.queues, s.jobs, id);
  }

  // ---- requests, setups, lookups, shutdown ----------------------------------------------------

  /** The queues see nothing of the other fields. */
  lemma QueuesOnly(s: State, t: State)
    requires QueuesOk(s) && t.queues == s.queues && t.jobs == s.jobs && t.root == s.root && s.nextId <= t.nextId
    requires t.closed ==> s.closed || !s.root.Live?
    ensures QueuesOk(t)
  {
    forall id | id in t.jobs ensures JobPlaced(t.root, t.nextId, QueueOf(t, t.jobs[id].source), id, t.jobs[id]) {
      assert JobPlaced(s.root, s.nextId, QueueOf(s, s.jobs[id].source), id, s.jobs[id]);
    }
  }

  lemma StartGood(s: State, initial: bool)
    requires Good(s) && !s.closed && !s.root.Unset?
    ensures Good(StartSetup(s, initial))
  {
    hide Queues, Counted;
    QueuesOnly(s, StartSetup(s, initial));
    StartCounts(s, initial);
  }

  lemma IncludeGood(s: State)
    requires Good(s)
    ensures Good(IncludeSetup(s))
  {
    hide Queues, Counted;
    QueuesOnly(s, IncludeSetup(s));
    IncludeCounts(s);
  }

  lemma PendingGood(s: State, pending: seq<Op>)
    requires Good(s) && !s.closed
    ensures Good(s.(pending := pending))
  {
    hide Queues, Counted;
    QueuesOnly(s, s.(pending := pending));
    CountsOnly(s, s.(pending := pending));
  }

  lemma ScheduledSetups(s: State, t: State)
    requires SetupsOk(s) && Scheduled(s, t)
    ensures SetupsOk(t)
  {
  }

  lemma RequestGood(s: State, op: Op, includes: bool)
    requires Good(s)
    ensures Good(Request(s, op, includes))
  {
    hide QueuesOk, Counted, SetupsOk, StartSetup, IncludeSetup, ScheduleAll, QueuePending, AwaitingSources, Scheduled;
    if s.closed || s.root.Unset? {
    } else if AwaitingSources(s) {
      var t := s.(pending := QueuePending(s.pending, op));
      PendingGood(s, t.pending);
      StartGood(t, op.initial);
      IncludeGood(t);
    } else {
      ScheduleAllGood(s, s.sources, op);
      ScheduledSetups(s, ScheduleAll(s, s.sources, op));
    }
  }

  lemma EndedQueues(root: Root, nextId: Id, queues: map<Source, seq<Id>>, jobs: map<Id, Job>)
    requires Queues(root, nextId, queues, jobs)
    ensures Queues(Ended(root), nextId, queues, EndedJobs(root, jobs))
    ensures EndedJobs(root, jobs).Keys == jobs.Keys
    ensures forall id | id in jobs :: EndedJobs(root, jobs)[id].place == jobs[id].place && EndedJobs(root, jobs)[id].ticket == jobs[id].ticket
  {
    hide Queues;
    if root.Live? {
      CancelAllOk(nextId, queues, jobs);
    } else if root.Dead? {
      CancelAgain(nextId, queues, jobs);
    }
  }

  lemma CloseDownGood(s: State)
    requires Good(s) && !s.closed
    ensures Good(CloseDown(s))
  {
    hide Queues, Counted, EndedJobs;
    EndedQueues(s.root, s.nextId, s.queues, s.jobs);
    CancelCounts(s, CloseDown(s));
  }

  lemma StopGood(s: State)
    requires Good(s) && !s.closed
    ensures Good(Shutdown(s))
  {
    hide Good, CloseDown;
    CloseDownGood(s);
    LookupGood(CloseDown(s), Shutdown(s));
  }

  lemma CancelAgain(nextId: Id, queues: map<Source, seq<Id>>, jobs: map<Id, Job>)
    requires Queues(Dead, nextId, queues, jobs)
    ensures Cancelled(jobs) == jobs
  {
    forall id | id in jobs ensures jobs[id].cancelled {
      assert JobPlaced(Dead, nextId, Line(queues, jobs[id].source), id, jobs[id]);
    }
  }

  lemma CancelCounts(s: State, t: State)
    requires Counted(s) && t.setups == s.setups && t.lookupQueue == s.lookupQueue && t.slots == s.slots
    requires t.active == s.active && t.initialActive == s.initialActive
    requires t.jobs.Keys == s.jobs.Keys
    requires forall id | id in s.jobs :: t.jobs[id].place == s.jobs[id].place && t.jobs[id].ticket == s.jobs[id].ticket
    ensures Counted(t)
  {
    hide Holders, OpenJobs, OpenSetups;
    CountCancelled(s.jobs, t.jobs);
  }

  lemma RootGood(s: State, e: Event)
    requires Good(s) && Enabled(s, e) && (e.OpenRoot? || e.CancelRoot?)
    ensures Good(Fire(s, e))
  {
    hide Counted;
    var t := Fire(s, e);
    if e.OpenRoot? {
      forall source ensures LineOk(t.jobs, QueueOf(t, source), source, t.root.Live?) {
        assert LineOk(s.jobs, QueueOf(s, source), source, false);
        assert forall i | 0 <= i < |QueueOf(s, source)| :: QueueOf(s, source)[i] in s.jobs;
      }
    } else {
      CancelAllOk(s.nextId, s.queues, s.jobs);
    }
    CancelCounts(s, t);
  }

  lemma LookupGood(s: State, t: State)
    requires Good(s) && t == s.(lookups := t.lookups, installed := t.installed, installedValid := t.installedValid)
    ensures Good(t)
  {
    hide Queues, Counted;
    QueuesOnly(s, t);
    CountsOnly(s, t);
  }

  lemma EnqueueGood(s: State, reusable: bool)
    requires Good(s)
    ensures Good(EnqueueLookup(s, reusable))
  {
    hide Queues, Counted;
    QueuesOnly(s, EnqueueLookup(s, reusable));
    EnqueueCounts(s, reusable);
  }

  lemma PopLookupGood(s: State, t: State)
    requires Good(s) && s.lookupQueue != []
    requires t == s.(lookups := t.lookups, lookupQueue := s.lookupQueue[1..], installedChanged := t.installedChanged,
                     parked := t.parked, active := s.active - 1)
    ensures Good(t)
  {
    hide Queues, Counted;
    QueuesOnly(s, t);
    ShorterCounts(s, t);
  }

  lemma FallbacksGood(s: State, sources: seq<Source>)
    requires Good(s)
    ensures Good(ScheduleFallbacks(s, sources))
  {
    hide QueuesOk, Counted, SetupsOk, ScheduleFallbacks, Scheduled;
    ScheduleFallbacksGood(s, sources);
    ScheduledSetups(s, ScheduleFallbacks(s, sources));
  }

  /** What a finishing lookup leaves alone. */
  predicate Popped(s: State, t: State) {
    && t.jobs == s.jobs && t.nextId == s.nextId && t.setups == s.setups && t.pending == s.pending
    && t.root == s.root && t.closed == s.closed && t.installed == s.installed
    && s.lookups.Keys <= t.lookups.Keys && s.lookupQueue != [] && t.lookupQueue == s.lookupQueue[1..]
  }

  lemma PopKeeps(s: State, id: Id)
    requires Good(s) && LookupAt(s, id) && s.lookups[id].stage.Settled?
    ensures var t := PopLookup(s, id); Good(t) && Popped(s, t) && t.parked == s.parked
    ensures var u := LetGo(PopLookup(s, id)); Good(u) && Popped(s, u)
  {
    hide Good;
    PopLookupGood(s, PopLookup(s, id));
    PopLookupGood(s, LetGo(PopLookup(s, id)));
  }

  lemma FinishLookupGood(s: State, id: Id, order: seq<Source>)
    requires Good(s) && Enabled(s, LookupFinish(id, order))
    ensures Good(Fire(s, LookupFinish(id, order)))
  {
    hide Good, PopLookup, LetGo, ScheduleFallbacks;
    PopKeeps(s, id);
    FallbacksGood(LetGo(PopLookup(s, id)), order);
  }

  lemma ShorterCounts(s: State, t: State)
    requires Counted(s) && s.lookupQueue != [] && t.lookupQueue == s.lookupQueue[1..] && t.active == s.active - 1
    requires t.jobs == s.jobs && t.setups == s.setups && t.slots == s.slots && t.initialActive == s.initialActive
    ensures Counted(t)
  {
  }

  lemma SetSetupGood(s: State, id: Id, u: Setup)
    requires Good(s) && id in s.setups && u.ticket == s.setups[id].ticket
    ensures Good(SetSetup(s, id, u))
  {
    hide Queues, Counted;
    QueuesOnly(s, SetSetup(s, id, u));
    SetupCounts(s, SetSetup(s, id, u), id, u);
  }

  lemma StartedGood(s: State, started: bool)
    requires Good(s)
    ensures Good(s.(started := started))
  {
    hide Queues, Counted;
    QueuesOnly(s, s.(started := started));
    CountsOnly(s, s.(started := started));
  }

  lemma StartLookupGood(s: State)
    requires Good(s)
    ensures Good(StartLookup(s)) && StartLookup(s).setups == s.setups
  {
    hide Good;
    EnqueueGood(s, true);
  }

  lemma SourcesGood(s: State, sources: seq<Source>)
    requires Good(s)
    ensures Good(s.(sources := sources, sourcesReady := true, pending := []))
  {
    hide Queues, Counted;
    QueuesOnly(s, s.(sources := sources, sourcesReady := true, pending := []));
    CountsOnly(s, s.(sources := sources, sourcesReady := true, pending := []));
  }

  lemma KnownRoot(s: State, id: Id)
    requires SetupsOk(s) && id in s.setups
    ensures !s.root.Unset?
  {
  }

  lemma SetupLoadedGood(s: State, id: Id, sources: seq<Source>)
    requires Good(s) && Enabled(s, SetupLoaded(id, sources))
    ensures Good(Fire(s, SetupLoaded(id, sources)))
  {
    hide QueuesOk, Counted, SetupsOk, ScheduleAll, ScheduleOps, Scheduled;
    var u := s.setups[id];
    var v := u.(stage := Joining(u.stage.joined, u.stage.reused));
    KnownRoot(s, id);
    if s.closed {
      SetSetupGood(s, id, v);
    } else {
      var t := s.(sources := sources, sourcesReady := true, pending := []);
      SourcesGood(s, sources);
      var a := ScheduleAll(t, sources, Op(Every, true, u.ticket.Some?));
      ScheduleAllGood(t, sources, Op(Every, true, u.ticket.Some?));
      ScheduledKeepsRoot(t, a);
      var b := ScheduleOps(a, s.pending);
      ScheduleOpsGood(a, s.pending);
      ScheduledTrans(t, a, b);
      ScheduledSetups(t, b);
      ScheduledKeepsSetups(t, b);
      SetSetupGood(b, id, v.(scheduled := true));
    }
  }

  lemma ScheduledKeepsSetups(s: State, t: State)
    requires Scheduled(s, t)
    ensures t.setups == s.setups
  {
  }

  lemma CloseTicketGood(s: State, id: Id)
    requires Good(s) && id in s.setups
    ensures var t := CloseSetupTicket(s, id); QueuesOk(t) && SetupsOk(t) && t.setups.Keys == s.setups.Keys
  {
    hide Queues, Counted;
    QueuesOnly(s, CloseSetupTicket(s, id));
  }

  lemma SetupTicketGood(s: State, id: Id)
    requires Good(s) && id in s.setups
    ensures Good(CompleteSetupTicket(s, id)) && CompleteSetupTicket(s, id).setups.Keys == s.setups.Keys
  {
    hide QueuesOk, Counted, SetupsOk, CloseSetupTicket;
    CloseTicketGood(s, id);
    SetupTicketCounts(s, id);
  }

  lemma SetupDoneGood(s: State, id: Id)
    requires Good(s) && id in s.setups
    ensures Good(LeaveSetup(s, id))
  {
    hide QueuesOk, Counted, SetupsOk, CompleteSetupTicket;
    SetupTicketGood(s, id);
    var t := CompleteSetupTicket(s, id);
    SetupTicketClosed(s, id);
    QueuesOnly(t, RemoveSetup(t, id));
    RemoveSetupCounts(t, id);
    SetupsFewer(t, RemoveSetup(t, id));
  }

  lemma SetupTicketClosed(s: State, id: Id)
    requires id in s.setups
    ensures id in CompleteSetupTicket(s, id).setups && !Open(CompleteSetupTicket(s, id).setups[id].ticket)
  {
  }

  lemma SetupsFewer(s: State, t: State)
    requires SetupsOk(s) && t.setups.Keys <= s.setups.Keys && s.nextId <= t.nextId && t.root == s.root
    requires t.closed == s.closed && t.pending == s.pending
    ensures SetupsOk(t)
  {
    assert s.root.Unset? ==> t.setups.Keys == {};
  }

  // ---- all events ----------------------------------------------------------------------------

  lemma JobEventGood(s: State, e: Event)
    requires QueuesOk(s) && Counted(s) && Enabled(s, e)
    requires e.Wake? || e.Acquire? || e.GiveUp? || e.Proceed? || e.Release? || e.Batch? || e.Finish? || e.Discard? || e.Done?
    ensures QueuesOk(Fire(s, e)) && Counted(Fire(s, e))
  {
    hide QueuesOk, Counted, Begin, Checkpoint, EndRun, Depart;
    match e
    case Wake(id) => WakeGood(s, id);
    case Acquire(id) => AcquireGood(s, id);
    case GiveUp(_) => LeaveGood(s, e);
    case Discard(_) => LeaveGood(s, e);
    case Release(id) => ReleaseGood(s, id);
    case Proceed(id) => ProceedGood(s, id);
    case Batch(id) => BatchGood(s, id);
    case Finish(id, outcome) => FinishGood(s, id, outcome);
    case Done(id) => DoneGood(s, id);
  }
}
