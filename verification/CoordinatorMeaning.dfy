/** What each critical section of the coordinator does, said of queues, tickets and flags, and not of the functions that do it. */
module CoordinatorMeaning {
  import opened Wrappers
  import opened CoordinatorSpec
  import opened CoordinatorQueues
  import opened CoordinatorCounts
  import opened CoordinatorSafety
  import opened CoordinatorLookups
  import opened CoordinatorRuns
  import opened CoordinatorTheorems
  import opened CoordinatorDemand

  /** The jobs of a source, first come first. */
  function LineOf(s: State, source: Source): seq<Id> {
    if source in s.queues then s.queues[source] else []
  }

  /** Not begun, not given up. */
  predicate Pending(s: State, id: Id) {
    id in s.jobs && !s.jobs[id].begun && !s.jobs[id].terminal && !s.jobs[id].cancelled
  }

  /** Work of this kind is queued for the source and will still begin; if it is waited for, a ticket is open. */
  ghost predicate Expects(s: State, source: Source, work: Work, waited: bool) {
    exists id :: id in LineOf(s, source) && Pending(s, id) && s.jobs[id].work == work && (waited ==> s.jobs[id].ticket == Some(true))
  }

  lemma ServesMeans(s: State, source: Source, work: Work, waited: bool)
    ensures Serves(s, source, work, waited) <==> Expects(s, source, work, waited)
  {
    if Serves(s, source, work, waited) {
      var id :| id in QueueOf(s, source) && ServesAt(s.jobs, id, work, waited);
      assert id in LineOf(s, source) && Pending(s, id);
    }
    if Expects(s, source, work, waited) {
      var id :| id in LineOf(s, source) && Pending(s, id) && s.jobs[id].work == work && (waited ==> s.jobs[id].ticket == Some(true));
      assert id in QueueOf(s, source) && ServesAt(s.jobs, id, work, waited);
    }
  }

  /** Requests are accepted, and the sources they name are known. */
  predicate Open(s: State) {
    s.root.Live? && !s.closed
  }

  predicate Known(s: State) {
    s.sourcesReady && (s.setup.Some? && s.setup.value in s.setups ==> s.setups[s.setup.value].scheduled)
  }

  // ---- requests ------------------------------------------------------------------------------------

  lemma RequestServes(s: State, op: Op, includes: bool, source: Source)
    requires Reached(s) && Open(s) && Known(s) && source in s.sources && (op.source == Every || op.source == source)
    ensures Expects(Request(s, op, includes), source, if op.refresh then Refreshing else Ranging, op.initial)
  {
    hide Reached, QueuesOk, Counted, SetupsOk, LookupsOk, JoinsKnown, ScheduleAll, Serves, Expects;
    ReachedInvariant(s);
    ScheduleAllServes(s, s.sources, op, source);
    ServesMeans(ScheduleAll(s, s.sources, op), source, WorkOf(op), op.initial);
  }

  /** With the sources known, a refresh queues one for each source, and `WaitInitial` waits for it if it is to. */
  lemma RefreshServes(s: State, initial: bool, source: Source)
    requires Reached(s) && Open(s) && Known(s) && source in s.sources
    ensures Expects(Fire(s, Refresh(initial)), source, Refreshing, initial)
  {
    hide Request, Expects, Known;
    RequestServes(s, Op(Every, true, initial), initial, source);
  }

  /** A retry queues one for the source it names, or for all if it names none. */
  lemma RetryServes(s: State, name: Source, source: Source)
    requires Reached(s) && Open(s) && Known(s) && source in s.sources && (name == Every || name == source)
    ensures Expects(Fire(s, Retry(name)), source, Refreshing, true)
  {
    hide Request, Expects, Known;
    RequestServes(s, Op(name, true, true), true, source);
  }

  /** A request for a range queues one for each source. */
  lemma RangeServes(s: State, source: Source)
    requires Reached(s) && Open(s) && Known(s) && source in s.sources
    ensures Expects(Fire(s, EnsureRange), source, Ranging, true)
  {
    hide Request, Expects, Known;
    RequestServes(s, Op(Every, false, true), true, source);
  }

  /** What was pending is pending, or part of something that is: a refresh of at least its sources, waited for if it was. */
  ghost predicate Remembers(pending: seq<Op>, op: Op) {
    if op.refresh
    then exists p :: p in pending && p.refresh && (p.source == Every || p.source == op.source) && (op.initial ==> p.initial)
    else op in pending
  }

  /** A request made before the sources are known is remembered with all the others, and opens the ticket that `WaitInitial`
      waits for; a refresh starts the discovery if nothing has. */
  ghost predicate Kept(s: State, t: State, op: Op) {
    && Remembers(t.pending, op) && (forall p | p in s.pending :: Remembers(t.pending, p))
    && t.jobs == s.jobs && t.queues == s.queues
    && (!s.started && op.refresh ==>
          && t.started && t.setup == Some(s.nextId) && s.nextId in t.setups
          && t.setups[s.nextId] == Setup(if op.initial then Some(true) else None, false, Caching)
          && t.active == s.active + 1 && t.initialActive == s.initialActive + if op.initial then 1 else 0)
    && ((s.started || !op.refresh) && op.initial && s.setup.Some? && s.setup.value in s.setups ==>
          && t.setup == s.setup && s.setup.value in t.setups && t.setups[s.setup.value].ticket.Some?
          && (s.setups[s.setup.value].ticket.None? ==> t.setups[s.setup.value].ticket == Some(true) && t.initialActive == s.initialActive + 1))
  }

  lemma QueueRemembers(pending: seq<Op>, op: Op)
    ensures Remembers(QueuePending(pending, op), op)
    ensures forall p | p in pending :: Remembers(QueuePending(pending, op), p)
  {
    hide QueuePending;
    forall p | p == op || p in pending ensures Remembers(QueuePending(pending, op), p) {
      if p.refresh {
        assert p in pending ==> Covers(p, p);
        QueuePendingCovers(pending, op, p);
        var x :| x in QueuePending(pending, op) && Covers(x, p);
      } else {
        RangeStays(pending, op, p);
      }
    }
  }

  lemma RangeStays(pending: seq<Op>, op: Op, p: Op)
    requires !p.refresh && (p == op || p in pending)
    ensures p in QueuePending(pending, op)
  {
    if op.refresh {
      var n := MatchFrom(pending, op, 0);
      var i :| 0 <= i < |pending| && pending[i] == p;
      if n < |pending| {
        assert QueuePending(pending, op)[i] == p;
      } else {
        KeepExact(pending, op);
      }
    }
  }

  lemma RequestKept(s: State, op: Op, includes: bool)
    requires Open(s) && !Known(s) && (op.initial ==> includes)
    ensures Kept(s, Request(s, op, includes), op)
  {
    hide QueuePending, Remembers, StartSetup, IncludeSetup;
    QueueRemembers(s.pending, op);
    var t := s.(pending := QueuePending(s.pending, op));
    StartSetupMeans(t, op.initial);
    IncludeSetupMeans(t);
  }

  lemma StartSetupMeans(s: State, initial: bool)
    ensures var t := StartSetup(s, initial);
      && t.pending == s.pending && t.jobs == s.jobs && t.queues == s.queues
      && t.started && t.setup == Some(s.nextId) && s.nextId in t.setups
      && t.setups[s.nextId] == Setup(if initial then Some(true) else None, false, Caching)
      && t.active == s.active + 1 && t.initialActive == s.initialActive + if initial then 1 else 0
  {
  }

  lemma IncludeSetupMeans(s: State)
    ensures var t := IncludeSetup(s);
      && t.pending == s.pending && t.jobs == s.jobs && t.queues == s.queues && t.setup == s.setup
      && (s.setup.Some? && s.setup.value in s.setups ==>
            && s.setup.value in t.setups && t.setups[s.setup.value].ticket.Some?
            && (s.setups[s.setup.value].ticket.None? ==> t.setups[s.setup.value].ticket == Some(true) && t.initialActive == s.initialActive + 1))
  {
  }

  lemma RefreshKept(s: State, initial: bool)
    requires Open(s) && !Known(s)
    ensures Kept(s, Fire(s, Refresh(initial)), Op(Every, true, initial))
  {
    hide Request, Kept, Known;
    RequestKept(s, Op(Every, true, initial), initial);
  }

  lemma RetryKept(s: State, name: Source)
    requires Open(s) && !Known(s)
    ensures Kept(s, Fire(s, Retry(name)), Op(name, true, true))
  {
    hide Request, Kept, Known;
    RequestKept(s, Op(name, true, true), true);
  }

  lemma RangeKept(s: State)
    requires Open(s) && !Known(s)
    ensures Kept(s, Fire(s, EnsureRange), Op(Every, false, true))
  {
    hide Request, Kept, Known;
    RequestKept(s, Op(Every, false, true), true);
  }

  // ---- discovery -------------------------------------------------------------------------------------

  /** When discovery succeeds, each source it found is refreshed, and does what was asked of it before. */
  lemma DiscoveryServes(s: State, id: Id, found: seq<Source>, source: Source)
    requires Reached(s) && Open(s) && Enabled(s, SetupLoaded(id, found)) && source in found
    ensures id in s.setups
    ensures var t := Fire(s, SetupLoaded(id, found));
      && Expects(t, source, Refreshing, s.setups[id].ticket.Some?)
      && (forall op | op in s.pending && (op.source == Every || op.source == source) ::
            Expects(t, source, if op.refresh then Refreshing else Ranging, op.initial))
  {
    hide Reached, Expects, Fire, Enabled, Loaded, Invariant;
    ReachedInvariant(s);
    var t := Fire(s, SetupLoaded(id, found));
    LoadedFires(s, id, found);
    DiscoveryRefreshes(s, id, found, source);
    forall op | op in s.pending && (op.source == Every || op.source == source)
      ensures Expects(t, source, if op.refresh then Refreshing else Ranging, op.initial)
    {
      LoadingServesPending(s, id, found, op, source);
      ServesMeans(t, source, WorkOf(op), op.initial);
    }
  }

  lemma DiscoveryRefreshes(s: State, id: Id, found: seq<Source>, source: Source)
    requires Invariant(s) && Open(s) && id in s.setups && s.setups[id].stage.Loading? && source in found
    ensures Expects(Loaded(s, id, found), source, Refreshing, s.setups[id].ticket.Some?)
  {
    hide Invariant, CatchUp, Serves, Expects, SetSetup;
    var u := s.setups[id];
    var v := u.(stage := Joining(u.stage.joined, u.stage.reused), scheduled := true);
    var t := CatchUp(s, found, u.ticket.Some?);
    CatchUpRefreshes(s, found, u.ticket.Some?, source);
    SetupKeepsServing(t, id, v, source, Refreshing, u.ticket.Some?);
    ServesMeans(SetSetup(t, id, v), source, Refreshing, u.ticket.Some?);
  }

  lemma CatchUpRefreshes(s: State, found: seq<Source>, initial: bool, source: Source)
    requires Invariant(s) && Open(s) && source in found
    ensures Serves(CatchUp(s, found, initial), source, Refreshing, initial)
  {
    hide QueuesOk, Counted, SetupsOk, LookupsOk, JoinsKnown, ScheduleAll, ScheduleOps, Scheduled, Serves;
    var t, every := Publish(s, found), Op(Every, true, initial);
    SourcesGood(s, found);
    ScheduleAllGood(t, found, every);
    ScheduleAllServes(t, found, every, source);
    var a := ScheduleAll(t, found, every);
    ScheduledReady(t, a);
    ScheduleOpsKeeps(a, s.pending, source, Refreshing, initial);
  }

  /** When discovery fails it may be started again, unless the coordinator is closing; nothing else changes but its stage. */
  lemma DiscoveryFails(s: State, id: Id)
    requires Enabled(s, SetupFailed(id))
    ensures var t := Fire(s, SetupFailed(id));
      && (!s.closed ==> !t.started) && t.jobs == s.jobs && t.pending == s.pending && t.setups.Keys == s.setups.Keys
      && t.setups[id].ticket == s.setups[id].ticket && t.setups[id].stage.Joining?
  {
  }

  // ---- one job -----------------------------------------------------------------------------------------

  lemma SetJobExact(s: State, id: Id, j: Job)
    ensures var t := SetJob(s, id, j);
      t.jobs == s.jobs[id := j] && t.queues == s.queues && t.active == s.active && t.initialActive == s.initialActive
  {
  }

  lemma WakeFires(s: State, id: Id)
    requires id in s.jobs
    ensures Enabled(s, Wake(id)) <==> s.jobs[id].place.Queued? && (s.jobs[id].cancelled || MayReserve(s, id))
    ensures Enabled(s, Wake(id)) ==>
      var j := s.jobs[id]; Fire(s, Wake(id)) == SetJob(s, id, if j.cancelled then j.(place := Leaving) else j.(reserved := true, place := Awaiting))
  {
    hide SetJob, MayReserve;
  }

  lemma AcquireFires(s: State, id: Id)
    requires id in s.jobs
    ensures Enabled(s, Acquire(id)) <==> s.jobs[id].place.Awaiting? && s.slots < SLOTS
    ensures Enabled(s, Acquire(id)) ==> Fire(s, Acquire(id)) == SetJob(s, id, s.jobs[id].(place := Slotted)).(slots := s.slots + 1)
  {
    hide SetJob;
  }

  lemma ProceedFires(s: State, id: Id)
    requires Enabled(s, Proceed(id))
    ensures id in s.jobs && s.jobs[id].place.Slotted? && Fire(s, Proceed(id)) == Begin(s, id)
  {
    hide Begin;
  }

  lemma BatchFires(s: State, id: Id)
    requires Enabled(s, Batch(id))
    ensures id in s.jobs && Fire(s, Batch(id)) == Checkpoint(s, id)
  {
    hide Checkpoint;
  }

  lemma LoadedFires(s: State, id: Id, found: seq<Source>)
    requires Enabled(s, SetupLoaded(id, found))
    ensures id in s.setups && s.setups[id].stage.Loading? && Fire(s, SetupLoaded(id, found)) == Loaded(s, id, found)
  {
    hide Loaded;
  }

  /** A queued job goes on when it is cancelled, when the coordinator closes, or when it is the first of its source and, if it
      is a fallback, no lookup is queued. A cancelled one leaves; another takes the source and waits for a slot. */
  lemma WakeMeans(s: State, id: Id)
    requires id in s.jobs && s.jobs[id].place.Queued?
    ensures Enabled(s, Wake(id)) <==>
      || s.jobs[id].cancelled || s.closed
      || (LineOf(s, s.jobs[id].source) != [] && LineOf(s, s.jobs[id].source)[0] == id && (s.jobs[id].work.Fallback? ==> s.lookupQueue == []))
    ensures Enabled(s, Wake(id)) ==>
      var t := Fire(s, Wake(id));
      id in t.jobs && if s.jobs[id].cancelled then t.jobs[id].place.Leaving? else t.jobs[id].reserved && t.jobs[id].place.Awaiting?
  {
    hide Fire, Enabled, SetJob;
    WakeFires(s, id);
    var j := s.jobs[id];
    SetJobExact(s, id, if j.cancelled then j.(place := Leaving) else j.(reserved := true, place := Awaiting));
  }

  predicate HoldsSlot(j: Job) {
    match j.place
    case Slotted => true
    case Handing => true
    case Dropping => true
    case Running => true
    case Ending => true
    case _ => false
  }

  /** The jobs that hold a slot. */
  function Holding(jobs: map<Id, Job>): set<Id> {
    set id | id in jobs && HoldsSlot(jobs[id])
  }

  /** A job that waits for a slot gets one exactly when fewer than two are held. */
  lemma AcquireMeans(s: State, id: Id)
    requires Reached(s) && id in s.jobs && s.jobs[id].place.Awaiting?
    ensures Enabled(s, Acquire(id)) <==> |Holding(s.jobs)| < 2
    ensures Enabled(s, Acquire(id)) ==> Holding(Fire(s, Acquire(id)).jobs) == Holding(s.jobs) + {id}
  {
    hide Fire, Enabled, Reached, SetJob, Holding, Counted;
    SlotsHeld(s);
    AcquireFires(s, id);
    var j := s.jobs[id].(place := Slotted);
    SetJobExact(s, id, j);
    HoldingSet(s.jobs, id, j);
  }

  lemma SlotsHeld(s: State)
    requires Reached(s)
    ensures s.slots == |Holding(s.jobs)|
  {
    hide Reached;
    ReachedCounts(s);
    assert Holding(s.jobs) == Holders(s.jobs);
  }

  lemma HoldingSet(jobs: map<Id, Job>, id: Id, j: Job)
    requires HoldsSlot(j)
    ensures Holding(jobs[id := j]) == Holding(jobs) + {id}
  {
  }

  /** With a slot a job begins exactly when it is not cancelled and, if it is a fallback, no lookup is queued and something is
      installed; a fallback begins with what is installed. Otherwise it gives the slot back, and only a fallback that finds a
      lookup queued stays in the queue. */
  lemma ProceedMeans(s: State, id: Id)
    requires Reached(s) && Enabled(s, Proceed(id))
    ensures var j := s.jobs[id]; var t := Fire(s, Proceed(id));
      && id in t.jobs
      && (t.jobs[id].begun <==> !j.cancelled && (j.work.Fallback? ==> s.lookupQueue == [] && s.installed != []))
      && (t.jobs[id].begun ==> t.jobs[id].place.Running? && t.jobs[id].snapshot == if j.work.Fallback? then s.installed else [])
      && (t.jobs[id].place.Handing? <==> !j.cancelled && j.work.Fallback? && s.lookupQueue != [])
      && (t.jobs[id].place.Handing? ==> !t.jobs[id].reserved)
      && (!t.jobs[id].begun && !t.jobs[id].place.Handing? ==> t.jobs[id].place.Dropping? && (j.cancelled || t.jobs[id].terminal))
  {
    hide Fire, Enabled, Reached, Begin;
    ProceedFires(s, id);
    SlottedNotBegun(s, id);
    BeginMeans(s, id);
  }

  /** What becomes of the job. */
  lemma BeginJob(s: State, id: Id)
    requires id in s.jobs
    ensures id in Begin(s, id).jobs
    ensures var j := s.jobs[id];
      Begin(s, id).jobs[id] ==
      if j.cancelled then j.(place := Dropping)
      else if j.work.Fallback? && s.lookupQueue != [] then j.(reserved := false, place := Handing)
      else if j.work.Fallback? && s.installed == [] then j.(terminal := true, place := Dropping)
      else j.(begun := true, place := Running, snapshot := if j.work.Fallback? then s.installed else [])
  {
    hide SetJob, Unreserve;
    var j := s.jobs[id];
    SetJobExact(s, id, j.(place := Dropping));
    SetJobExact(s, id, j.(terminal := true, place := Dropping));
    SetJobExact(s, id, j.(begun := true, place := Running, snapshot := if j.work.Fallback? then s.installed else []));
    UnreserveJob(s, id);
  }

  lemma UnreserveJob(s: State, id: Id)
    requires id in s.jobs
    ensures Unreserve(s, id).jobs == s.jobs[id := s.jobs[id].(reserved := false, place := Handing)]
  {
    hide Rotate, PutLine, QueueOf;
  }

  lemma BeginMeans(s: State, id: Id)
    requires id in s.jobs && s.jobs[id].place.Slotted? && !s.jobs[id].begun
    ensures var j := s.jobs[id]; var t := Begin(s, id);
      && id in t.jobs
      && (t.jobs[id].begun <==> !j.cancelled && (j.work.Fallback? ==> s.lookupQueue == [] && s.installed != []))
      && (t.jobs[id].begun ==> t.jobs[id].place.Running? && t.jobs[id].snapshot == if j.work.Fallback? then s.installed else [])
      && (t.jobs[id].place.Handing? <==> !j.cancelled && j.work.Fallback? && s.lookupQueue != [])
      && (t.jobs[id].place.Handing? ==> !t.jobs[id].reserved)
      && (!t.jobs[id].begun && !t.jobs[id].place.Handing? ==> t.jobs[id].place.Dropping? && (j.cancelled || t.jobs[id].terminal))
  {
    hide Begin;
    BeginJob(s, id);
  }

  lemma SlottedNotBegun(s: State, id: Id)
    requires Reached(s) && id in s.jobs && s.jobs[id].place.Slotted?
    ensures !s.jobs[id].begun
  {
    hide Reached, Counted, SetupsOk, LookupsOk, JoinsKnown;
    ReachedInvariant(s);
    KnownJob(s, id);
  }

  /** A refresh of the job's source, other than the job, has yet to begin. */
  ghost predicate Behind(s: State, id: Id)
    requires id in s.jobs
  {
    exists other :: other in LineOf(s, s.jobs[id].source) && other != id && other in s.jobs && s.jobs[other].work.Refreshing? && !s.jobs[other].begun
  }

  lemma BehindMeans(s: State, id: Id)
    requires id in s.jobs
    ensures RefreshBehind(s.jobs, QueueOf(s, s.jobs[id].source), id) <==> Behind(s, id)
  {
    if Behind(s, id) {
      var other :| other in LineOf(s, s.jobs[id].source) && other != id && other in s.jobs && s.jobs[other].work.Refreshing? && !s.jobs[other].begun;
      assert RefreshAt(s.jobs, other);
    }
  }

  lemma CheckpointMeans(s: State, id: Id)
    requires id in s.jobs
    ensures var j := s.jobs[id];
      var t := Checkpoint(s, id);
      var gives := j.work.Fallback? && !j.cancelled && Behind(s, id);
      var completes := !j.work.Fallback? && j.ticket == Some(true);
      && t.jobs == (if gives then s.jobs[id := j.(cancelled := true, yielded := true)]
                    else if completes then s.jobs[id := j.(ticket := Some(false))] else s.jobs)
      && t.queues == s.queues && t.active == s.active && t.initialActive == s.initialActive - if completes then 1 else 0
  {
    hide Behind, RefreshBehind, QueueOf, SetJob, CloseJobTicket;
    BehindMeans(s, id);
    SetJobExact(s, id, s.jobs[id].(cancelled := true, yielded := true));
    ClosedExact(s, id);
  }

  lemma ClosedExact(s: State, id: Id)
    requires id in s.jobs
    ensures var t := CloseJobTicket(s, id);
      && t.jobs == s.jobs[id := s.jobs[id].(ticket := Some(false))]
      && t.queues == s.queues && t.active == s.active && t.initialActive == s.initialActive - 1
  {
  }

  /** After a batch a fallback is cancelled, as yielded, exactly if it was not cancelled and a refresh of its source has yet to
      begin; any other job's ticket is complete. Nothing else changes. */
  lemma BatchMeans(s: State, id: Id)
    requires Enabled(s, Batch(id))
    ensures id in s.jobs
    ensures var j := s.jobs[id];
      var t := Fire(s, Batch(id));
      var gives := j.work.Fallback? && !j.cancelled && Behind(s, id);
      var completes := !j.work.Fallback? && j.ticket == Some(true);
      && t.jobs == (if gives then s.jobs[id := j.(cancelled := true, yielded := true)]
                    else if completes then s.jobs[id := j.(ticket := Some(false))] else s.jobs)
      && t.queues == s.queues && t.active == s.active && t.initialActive == s.initialActive - if completes then 1 else 0
  {
    hide Fire, Enabled, Behind, Checkpoint;
    BatchFires(s, id);
    CheckpointMeans(s, id);
  }

  /** A recent scan that has committed owes a fallback, and so does a fallback that has yielded. */
  predicate Owes(j: Job, outcome: Outcome) {
    (outcome.Committed? && !j.work.Fallback?) || (outcome.Abandoned? && j.cancelled && j.yielded)
  }

  /** A run that owes a fallback has it parked while lookups are queued, and else queued if anything is installed. Any other
      run leaves nothing behind. */
  lemma FinishMeans(s: State, id: Id, outcome: Outcome)
    requires Reached(s) && Open(s) && Enabled(s, Finish(id, outcome))
    ensures id in s.jobs
    ensures var source := s.jobs[id].source;
      var t := Fire(s, Finish(id, outcome));
      if Owes(s.jobs[id], outcome) then
        && source in t.fallbackSources
        && (s.lookupQueue != [] ==> source in t.parked && SameButEnding(s, t, id))
        && (s.lookupQueue == [] && s.installed != [] ==> Expects(t, source, Fallback, false))
        && (s.lookupQueue == [] && s.installed == [] ==> SameButEnding(s, t, id))
      else t.parked == s.parked && t.fallbackSources == s.fallbackSources && SameButEnding(s, t, id)
  {
    hide Reached, QueuesOk, Counted, Expects, AskFallback, ToEnding, Fire;
    FinishFires(s, id, outcome);
    OwesMeans(s.jobs[id], outcome);
    hide Enabled, AsksForFallback;
    var source := s.jobs[id].source;
    ReachedQueues(s);
    EndMeans(s, id);
    if Owes(s.jobs[id], outcome) {
      AskedMeans(s, source, id);
      var a := AskFallback(s, source);
      if s.lookupQueue == [] && s.installed != [] {
        AskedServes(s, id);
      }
      EndMeans(a, id);
    }
  }

  lemma OwesMeans(j: Job, outcome: Outcome)
    ensures AsksForFallback(j, outcome) <==> Owes(j, outcome)
  {
  }

  /** Nobody's place has changed but that of the job that ends. */
  predicate SameButEnding(s: State, t: State, id: Id) {
    id in s.jobs && t.queues == s.queues && t.jobs == s.jobs[id := s.jobs[id].(place := Ending)]
  }

  lemma EndMeans(s: State, id: Id)
    requires id in s.jobs
    ensures var t := ToEnding(s, id); SameButEnding(s, t, id) && t.parked == s.parked && t.fallbackSources == s.fallbackSources
  {
  }

  lemma FinishFires(s: State, id: Id, outcome: Outcome)
    requires Enabled(s, Finish(id, outcome))
    ensures id in s.jobs && s.jobs[id].place.Running? && Fire(s, Finish(id, outcome)) == EndRun(s, id, outcome)
  {
    hide EndRun;
  }

  lemma AskedServes(s: State, id: Id)
    requires QueuesOk(s) && Open(s) && id in s.jobs && s.jobs[id].place.Running? && s.lookupQueue == [] && s.installed != []
    ensures id in AskFallback(s, s.jobs[id].source).jobs
    ensures var source := s.jobs[id].source; Expects(ToEnding(AskFallback(s, source), id), source, Fallback, false)
  {
    hide QueuesOk, Serves, Expects, ScheduleFallback, ToEnding, Remember;
    var source := s.jobs[id].source;
    KnownJob(s, id);
    RememberReady(s, source);
    AskSpares(s, source, id);
    FallbackServes(Remember(s, source), source);
    EndingKeepsServing(AskFallback(s, source), id, source, Fallback, false);
    ServesMeans(ToEnding(AskFallback(s, source), id), source, Fallback, false);
  }

  lemma FallbackServes(s: State, source: Source)
    requires QueuesOk(s) && Ready(s) && s.lookupQueue == [] && s.installed != []
    ensures Serves(ScheduleFallback(s, source), source, Fallback, false)
  {
    hide QueuesOk, Schedule, Serves;
    ScheduleServes(s, source, Fallback, false);
  }

  lemma AskedMeans(s: State, source: Source, id: Id)
    requires Open(s)
    ensures var t := AskFallback(s, source);
      && source in t.fallbackSources
      && (s.lookupQueue != [] ==> source in t.parked)
      && (s.lookupQueue != [] || s.installed == [] ==> t.queues == s.queues && t.jobs == s.jobs)
  {
    hide Schedule;
    ScheduledRemembers(s.(fallbackSources := s.fallbackSources + {source}), source);
  }

  lemma ScheduledRemembers(s: State, source: Source)
    ensures Schedule(s, source, Fallback, false).fallbackSources == s.fallbackSources
  {
  }

  /** A job that is done leaves its line as it stands without it, gives up its ticket if that was open, and is counted no more. */
  lemma DoneMeans(s: State, id: Id)
    requires Reached(s) && Enabled(s, Done(id))
    ensures id in s.jobs
    ensures var source := s.jobs[id].source;
      var q := LineOf(s, source);
      var t := Fire(s, Done(id));
      && (exists k :: 0 <= k < |q| && q[k] == id && LineOf(t, source) == q[..k] + q[k + 1..])
      && (forall other | other != source :: LineOf(t, other) == LineOf(s, other))
      && t.jobs.Keys == s.jobs.Keys - {id} && (forall other | other in t.jobs :: t.jobs[other] == s.jobs[other])
      && t.active == s.active - 1 && t.initialActive == s.initialActive - if s.jobs[id].ticket == Some(true) then 1 else 0
  {
    hide Reached, Fire, Invariant, Depart;
    DoneFires(s, id);
    hide Enabled;
    ReachedInvariant(s);
    InLine(s, id);
    var q := QueueOf(s, s.jobs[id].source);
    var k := WithoutAt(q, id);
    DepartMeans(s, id);
    assert q == LineOf(s, s.jobs[id].source);
  }

  lemma DoneFires(s: State, id: Id)
    requires Enabled(s, Done(id))
    ensures id in s.jobs && Fire(s, Done(id)) == Depart(s, id)
  {
    hide Depart;
  }

  lemma InLine(s: State, id: Id)
    requires Invariant(s) && id in s.jobs
    ensures var q := QueueOf(s, s.jobs[id].source); id in q && forall i, j :: 0 <= i < j < |q| ==> q[i] != q[j]
  {
    hide Counted, SetupsOk, LookupsOk, JoinsKnown;
    KnownJob(s, id);
  }

  lemma DepartMeans(s: State, id: Id)
    requires id in s.jobs
    ensures var source := s.jobs[id].source;
      var t := Depart(s, id);
      && LineOf(t, source) == Without(QueueOf(s, source), id)
      && (forall other | other != source :: LineOf(t, other) == LineOf(s, other))
      && t.jobs.Keys == s.jobs.Keys - {id} && (forall other | other in t.jobs :: t.jobs[other] == s.jobs[other])
      && t.active == s.active - 1 && t.initialActive == s.initialActive - if s.jobs[id].ticket == Some(true) then 1 else 0
  {
    hide CloseJobTicket, Without;
    ClosedExact(s, id);
  }

  /** If the lookup that startup shared has failed, startup looks for itself, unless the coordinator is closing; else it is over. */
  lemma JoinedMeans(s: State, id: Id)
    requires Enabled(s, SetupJoined(id))
    ensures id in s.setups
    ensures var stage := s.setups[id].stage;
      var t := Fire(s, SetupJoined(id));
      && (stage.Joining? && stage.joined.Some? ==> stage.joined.value in s.lookups && s.lookups[stage.joined.value].stage.Closed?)
      && id in t.setups
      && if stage.Joining? && stage.joined.Some? && stage.reused && !s.lookups[stage.joined.value].stage.ok && Open(s) && s.hasInstalled
         then t.setups[id].stage.Rejoining? && t.setups[id].stage.retry in t.lookupQueue
         else t.setups[id].stage.Finishing? && t.lookupQueue == s.lookupQueue
  {
    hide Fire, StartLookup, Shared;
    JoinedFires(s, id);
    hide Enabled;
    var u := s.setups[id];
    if u.stage.Joining? && u.stage.joined.Some? && u.stage.reused && !s.lookups[u.stage.joined.value].stage.ok && Open(s) && s.hasInstalled {
      StartLookupLast(s);
    }
  }

  lemma JoinedFires(s: State, id: Id)
    requires Enabled(s, SetupJoined(id))
    ensures id in s.setups && (s.setups[id].stage.Joining? || s.setups[id].stage.Rejoining?)
    ensures var u := s.setups[id];
      && (u.stage.Joining? && u.stage.joined.Some? ==> u.stage.joined.value in s.lookups && s.lookups[u.stage.joined.value].stage.Closed?)
      && (if u.stage.Joining? && u.stage.joined.Some? && u.stage.reused && !s.lookups[u.stage.joined.value].stage.ok &&
             s.root.Live? && !s.closed && s.hasInstalled
          then Joined(s).Some? && Fire(s, SetupJoined(id)) == SetSetup(StartLookup(s), id, u.(stage := Rejoining(Joined(s).value)))
          else Fire(s, SetupJoined(id)) == SetSetup(s, id, u.(stage := Finishing)))
  {
    hide StartLookup, SetSetup, Shared;
  }

  lemma StartLookupLast(s: State)
    requires s.hasInstalled
    ensures Joined(s).Some? && Joined(s).value in StartLookup(s).lookupQueue
  {
  }

  // ---- scheduling ----------------------------------------------------------------------------------------

  /** Work that a new request of its kind joins: requests for a range are never merged. */
  ghost predicate Joinable(s: State, source: Source, work: Work) {
    !work.Ranging? && exists id :: id in LineOf(s, source) && Pending(s, id) && s.jobs[id].work == work
  }

  /** A fallback that has not taken the source; a refresh goes before it. */
  predicate Passable(s: State, id: Id) {
    id in s.jobs && s.jobs[id].work.Fallback? && !s.jobs[id].reserved
  }

  lemma JoinMeans(s: State, source: Source, work: Work)
    ensures var q := QueueOf(s, source); JoinFrom(s.jobs, q, 0, work) < |q| <==> Joinable(s, source, work)
  {
    var q := QueueOf(s, source);
    var n := JoinFrom(s.jobs, q, 0, work);
    assert forall k | 0 <= k < |q| :: JoinsAt(s.jobs, q[k], work) <==> Pending(s, q[k]) && s.jobs[q[k]].work == work && !work.Ranging?;
    if n < |q| {
      assert q[n] in LineOf(s, source) && Pending(s, q[n]);
    }
  }

  /** Scheduling joins work that waits, or queues one new job: a refresh before the first fallback that it may pass, anything
      else at the end. All other jobs keep their order. */
  lemma ScheduleMeans(s: State, source: Source, work: Work, initial: bool)
    requires Open(s)
    ensures var t := Schedule(s, source, work, initial);
      if Joinable(s, source, work) then t.queues == s.queues && t.jobs.Keys == s.jobs.Keys && t.active == s.active else
      exists at :: 0 <= at <= |LineOf(s, source)| && Placed(s, t, source, work, initial, at)
  {
    hide JoinFrom, Insert, Placed, OpenTicket;
    JoinMeans(s, source, work);
    var q := QueueOf(s, source);
    if Joinable(s, source, work) {
      OpenKeys(s, q[JoinFrom(s.jobs, q, 0, work)]);
    } else {
      var at := if work.Refreshing? then PlaceFrom(s.jobs, q, 0) else |q|;
      AdmitPlaces(s, source, work, initial, at);
      assert Schedule(s, source, work, initial) == Admit(s, source, work, initial, at);
    }
  }

  ghost predicate Placed(s: State, t: State, source: Source, work: Work, initial: bool, at: nat)
    requires at <= |LineOf(s, source)|
  {
    var q := LineOf(s, source);
    && LineOf(t, source) == q[..at] + [s.nextId] + q[at..]
    && (forall other | other != source :: LineOf(t, other) == LineOf(s, other))
    && t.jobs == s.jobs[s.nextId := Job(source, work, if initial then Some(true) else None, false, false, false, false, false, Queued, [])]
    && t.active == s.active + 1 && t.initialActive == s.initialActive + (if initial then 1 else 0)
    && (at < |q| ==> work.Refreshing? && Passable(s, q[at]))
    && (work.Refreshing? ==> forall i | 0 <= i < at :: !Passable(s, q[i]))
  }

  lemma OpenKeys(s: State, id: Id)
    requires id in s.jobs
    ensures var t := OpenTicket(s, id); t.queues == s.queues && t.jobs.Keys == s.jobs.Keys && t.active == s.active
  {
  }

  lemma AdmitPlaces(s: State, source: Source, work: Work, initial: bool, at: nat)
    requires Open(s) && at == if work.Refreshing? then PlaceFrom(s.jobs, QueueOf(s, source), 0) else |QueueOf(s, source)|
    ensures Placed(s, Admit(s, source, work, initial, at), source, work, initial, at)
  {
    var q := QueueOf(s, source);
    assert forall i | 0 <= i < |q| :: OvertakenAt(s.jobs, q[i]) <==> Passable(s, q[i]);
  }

  // ---- lookups of what is installed ------------------------------------------------------------------------

  /** A refresh of the installed packages is a new lookup behind all others; until it is done nobody has a snapshot. */
  lemma RefreshInstalledMeans(s: State)
    requires Enabled(s, RefreshInstalled)
    ensures var t := Fire(s, RefreshInstalled);
      && t.lookupQueue == s.lookupQueue + [s.nextId] && s.nextId in t.lookups && !t.installedValid && t.installed == s.installed
      && t.lookups[s.nextId].stage.Idle? && !t.lookups[s.nextId].reusable && (t.lookups[s.nextId].cancelled <==> s.root.Dead?)
      && t.lookups[s.nextId].previous == (if s.lookupQueue == [] then None else Some(s.lookupQueue[|s.lookupQueue| - 1]))
  {
  }

  /** Startup shares the last lookup if it may be shared and was not cancelled, and else queues its own. */
  lemma StartupLookupMeans(s: State, id: Id)
    requires Enabled(s, SetupCached(id)) && !s.closed && s.hasInstalled
    ensures var t := Fire(s, SetupCached(id));
      var last := if s.lookupQueue == [] then None else Some(s.lookupQueue[|s.lookupQueue| - 1]);
      var shares := last.Some? && last.value in s.lookups && s.lookups[last.value].reusable && !s.lookups[last.value].cancelled;
      && id in t.setups
      && t.setups[id].stage == Loading(if shares then last else Some(s.nextId), shares)
      && t.lookupQueue == (if shares then s.lookupQueue else s.lookupQueue + [s.nextId])
      && (!shares ==> s.nextId in t.lookups && t.lookups[s.nextId].stage.Idle? && t.lookups[s.nextId].reusable)
  {
  }

  /** What a lookup stores is what is installed from then on. */
  lemma StoreMeans(s: State, id: Id, packages: seq<Package>)
    requires Enabled(s, LookupStore(id, packages))
    ensures var t := Fire(s, LookupStore(id, packages)); t.installed == packages && t.lookupQueue == s.lookupQueue && t.jobs == s.jobs
  {
  }

  /** Once a lookup settles there is a snapshot exactly if it has stored one and no other lookup is queued. */
  lemma SettleMeans(s: State, id: Id)
    requires Reached(s) && Enabled(s, LookupSettle(id))
    ensures id in s.lookups
    ensures var t := Fire(s, LookupSettle(id));
      && (t.installedValid <==> s.lookupQueue == [id] && s.lookups[id].stage.Stored?)
      && id in t.lookups && t.lookups[id].stage == Settled(s.lookups[id].stage.Stored?)
      && t.installed == s.installed && t.lookupQueue == s.lookupQueue
  {
    hide Reached, Good, Lookups, JoinsKnown;
    ReachedInvariant(s);
    Head(s, id);
    if |s.lookupQueue| > 1 {
      LongNotValid(s);
    }
  }

  lemma {:induction false} FallbacksSpare(s: State, order: seq<Source>, source: Source)
    requires source !in order
    ensures LineOf(ScheduleFallbacks(s, order), source) == LineOf(s, source)
    decreases |order|
  {
    hide Schedule;
    if order != [] {
      ScheduleSpare(s, order[0], source);
      FallbacksSpare(ScheduleFallback(s, order[0]), order[1..], source);
    }
  }

  lemma ScheduleSpare(s: State, source: Source, other: Source)
    requires other != source
    ensures LineOf(Schedule(s, source, Fallback, false), other) == LineOf(s, other)
  {
  }

  /** When a lookup finishes and others are queued, the sources that wait stay parked. When the last one finishes, those parked,
      and if any lookup since the last time has succeeded all that ever asked, get a fallback if anything is installed; no other
      source is touched. */
  lemma LookupFinishMeans(s: State, id: Id, order: seq<Source>, source: Source)
    requires Reached(s) && Open(s) && Enabled(s, LookupFinish(id, order))
    ensures id in s.lookups && s.lookups[id].stage.Settled?
    ensures var t := Fire(s, LookupFinish(id, order));
      var changed := s.installedChanged || s.lookups[id].stage.ok;
      var owed := source in s.parked || (changed && source in s.fallbackSources);
      && |s.lookupQueue| > 0 && t.installed == s.installed
      && (|s.lookupQueue| > 1 ==> t.parked == s.parked && t.queues == s.queues && t.installedChanged == changed)
      && (|s.lookupQueue| == 1 && owed && s.installed != [] ==> Expects(t, source, Fallback, false))
      && (|s.lookupQueue| == 1 && !owed ==> LineOf(t, source) == LineOf(s, source))
  {
    hide Reached, Fire, Enabled, Good, LookupsOk, JoinsKnown, ScheduleFallbacks, Serves, Expects, PopLookup, LetGo, Invariant, IsPermutation, FinishLookup;
    ReachedInvariant(s);
    FinishLookupFires(s, id, order);
    FinishHead(s, id);
    var t := Fire(s, LookupFinish(id, order));
    if |s.lookupQueue| > 1 {
      LongerMeans(s, id, order);
    } else {
      LastMeans(s, id, order, source);
      if source in s.parked || ((s.installedChanged || s.lookups[id].stage.ok) && source in s.fallbackSources) {
        LastLookupReleases(s, id, order, source);
        ServesMeans(t, source, Fallback, false);
      } else {
        FallbacksSpare(LetGo(PopLookup(s, id)), order, source);
      }
    }
  }

  lemma FinishLookupFires(s: State, id: Id, order: seq<Source>)
    requires Enabled(s, LookupFinish(id, order))
    ensures LookupAt(s, id) && s.lookups[id].stage.Settled?
    ensures IsPermutation(order, Released(s.(installedChanged := s.installedChanged || s.lookups[id].stage.ok)))
    ensures Fire(s, LookupFinish(id, order)) == FinishLookup(s, id, order)
  {
    hide FinishLookup, IsPermutation, Released;
  }

  lemma FinishHead(s: State, id: Id)
    requires Invariant(s) && LookupAt(s, id) && s.lookups[id].stage.Settled?
    ensures s.lookupQueue != [] && s.lookupQueue[0] == id
  {
    var i :| 0 <= i < |s.lookupQueue| && s.lookupQueue[i] == id;
    assert Stands(s.lookups, s.lookupQueue, i);
  }

  lemma LongerMeans(s: State, id: Id, order: seq<Source>)
    requires LookupAt(s, id) && s.lookups[id].stage.Settled? && |s.lookupQueue| > 1
    ensures var t := FinishLookup(s, id, order);
      t.parked == s.parked && t.queues == s.queues && t.installedChanged == (s.installedChanged || s.lookups[id].stage.ok) && t.installed == s.installed
  {
    hide ScheduleFallbacks;
  }

  lemma LastMeans(s: State, id: Id, order: seq<Source>, source: Source)
    requires Invariant(s) && LookupAt(s, id) && s.lookups[id].stage.Settled? && |s.lookupQueue| == 1
    requires IsPermutation(order, Released(s.(installedChanged := s.installedChanged || s.lookups[id].stage.ok)))
    ensures FinishLookup(s, id, order) == ScheduleFallbacks(LetGo(PopLookup(s, id)), order)
    ensures LineOf(LetGo(PopLookup(s, id)), source) == LineOf(s, source)
    ensures FinishLookup(s, id, order).installed == s.installed
    ensures source in order <==> source in s.parked || ((s.installedChanged || s.lookups[id].stage.ok) && source in s.fallbackSources)
  {
    hide ScheduleFallbacks, Good, LookupsOk, JoinsKnown;
    PopKeeps(s, id);
    ReleasedInstalled(LetGo(PopLookup(s, id)), order);
  }

  lemma {:induction false} ReleasedInstalled(s: State, order: seq<Source>)
    ensures ScheduleFallbacks(s, order).installed == s.installed
    decreases |order|
  {
    hide Schedule;
    if order != [] {
      ScheduleInstalled(s, order[0]);
      ReleasedInstalled(ScheduleFallback(s, order[0]), order[1..]);
    }
  }

  lemma ScheduleInstalled(s: State, source: Source)
    ensures Schedule(s, source, Fallback, false).installed == s.installed
  {
  }

  // ---- closing ---------------------------------------------------------------------------------------------

  /** Stopping closes the coordinator for good, drops what is pending, and cancels every job and every queued lookup. */
  lemma StopMeans(s: State)
    requires Reached(s) && Enabled(s, Stop)
    ensures var t := Fire(s, Stop);
      && t.closed && t.pending == [] && !t.root.Live? && t.queues == s.queues && t.lookupQueue == s.lookupQueue
      && t.jobs.Keys == s.jobs.Keys && (forall id | id in t.jobs :: t.jobs[id] == s.jobs[id].(cancelled := true))
      && (forall id | id in s.lookupQueue && id in t.lookups :: t.lookups[id].cancelled)
  {
    hide Reached, Invariant;
    ReachedInvariant(s);
    NoJobsUnset(s);
    hide CancelAllLookups, CloseDown;
    ClosedDown(s);
    LookupsCancelled(CloseDown(s));
  }

  lemma ClosedDown(s: State)
    requires s.root.Unset? ==> s.jobs == map[]
    ensures var t := CloseDown(s);
      && t.closed && t.pending == [] && !t.root.Live? && t.queues == s.queues && t.lookupQueue == s.lookupQueue
      && t.jobs.Keys == s.jobs.Keys && forall id | id in t.jobs :: t.jobs[id] == s.jobs[id].(cancelled := true)
  {
  }

  lemma LookupsCancelled(s: State)
    ensures var t := CancelAllLookups(s);
      && t == s.(lookups := t.lookups) && t.lookups.Keys == s.lookups.Keys
      && forall id | id in t.lookups && id in s.lookupQueue :: t.lookups[id].cancelled
  {
  }

  lemma NoJobsUnset(s: State)
    requires Invariant(s)
    ensures s.root.Unset? ==> s.jobs == map[]
  {
    hide Counted, SetupsOk, LookupsOk, JoinsKnown;
  }

  /** Once closed, or before it is opened, the coordinator takes no requests. */
  lemma RequestsRefused(s: State, e: Event)
    requires (s.closed || s.root.Unset?) && (e.Refresh? || e.Retry? || e.EnsureRange?)
    ensures Enabled(s, e) && Fire(s, e) == s
  {
  }
}
