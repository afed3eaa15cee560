/** Tickets count down once: a ticket opens, completes, and stays complete for as long as its job is there. */
module CoordinatorTickets {
  import opened Wrappers
  import opened CoordinatorSpec
  import opened CoordinatorQueues
  import opened CoordinatorCounts
  import opened CoordinatorSafety
  import opened CoordinatorLookups
  import opened CoordinatorRuns
  import opened CoordinatorTheorems
  import opened CoordinatorDemand

  predicate TicketStep(a: Option<bool>, b: Option<bool>) {
    b == a || (a.None? && b == Some(true)) || (a == Some(true) && b == Some(false))
  }

  /** Jobs move on in place; the ones that are new have new ids. */
  ghost predicate TicketsStep(nextId: Id, jobs: map<Id, Job>, jobs': map<Id, Job>) {
    && (forall id | id in jobs && id in jobs' :: TicketStep(jobs[id].ticket, jobs'[id].ticket))
    && (forall id | id in jobs' && id !in jobs :: id >= nextId)
  }

  /** What scheduling does to the jobs already there: it may open a ticket, and nothing else. */
  ghost predicate Opens(s: State, t: State) {
    && s.nextId <= t.nextId
    && (forall id | id in s.jobs :: id in t.jobs &&
          (t.jobs[id] == s.jobs[id] || (s.jobs[id].ticket.None? && t.jobs[id] == s.jobs[id].(ticket := Some(true)))))
    && (forall id | id in t.jobs && id !in s.jobs :: id >= s.nextId)
  }

  lemma OpensTrans(s: State, t: State, u: State)
    requires Opens(s, t) && Opens(t, u)
    ensures Opens(s, u)
  {
    forall id | id in s.jobs
      ensures id in u.jobs && (u.jobs[id] == s.jobs[id] || (s.jobs[id].ticket.None? && u.jobs[id] == s.jobs[id].(ticket := Some(true))))
    {
      assert id in t.jobs;
    }
  }

  lemma OpensSteps(s: State, t: State)
    requires Opens(s, t)
    ensures TicketsStep(s.nextId, s.jobs, t.jobs)
  {
  }

  lemma AdmitOpens(s: State, source: Source, work: Work, initial: bool, at: nat)
    requires s.nextId !in s.jobs && at <= |QueueOf(s, source)|
    ensures Opens(s, Admit(s, source, work, initial, at))
  {
  }

  lemma TicketOpens(s: State, id: Id)
    requires id in s.jobs && s.jobs[id].ticket.None?
    ensures Opens(s, OpenTicket(s, id))
  {
  }

  lemma OpensSelf(s: State, t: State)
    requires t.jobs == s.jobs && s.nextId <= t.nextId
    ensures Opens(s, t)
  {
  }

  lemma ScheduleOpens(s: State, source: Source, work: Work, initial: bool)
    requires QueuesOk(s)
    ensures Opens(s, Schedule(s, source, work, initial))
  {
    hide QueuesOk, Opens, Admit, OpenTicket;
    NewId(s);
    OpensSelf(s, s);
    var q := QueueOf(s, source);
    var n := JoinFrom(s.jobs, q, 0, work);
    if n == |q| {
      AdmitOpens(s, source, work, initial, if work.Refreshing? then PlaceFrom(s.jobs, q, 0) else |q|);
    } else if s.jobs[q[n]].ticket.None? {
      TicketOpens(s, q[n]);
    }
  }

  lemma {:induction false} ScheduleAllOpens(s: State, sources: seq<Source>, op: Op)
    requires QueuesOk(s) && Counted(s) && (s.closed || !s.root.Unset?)
    ensures Opens(s, ScheduleAll(s, sources, op))
    decreases |sources|
  {
    hide QueuesOk, Counted, Schedule, Scheduled, Opens;
    OpensSelf(s, s);
    if sources != [] {
      var work := if op.refresh then Refreshing else Ranging;
      ScheduledFacts(s);
      ScheduleGood(s, sources[0], work, op.initial);
      ScheduleOpens(s, sources[0], work, op.initial);
      var t := if op.source == Every || op.source == sources[0] then Schedule(s, sources[0], work, op.initial) else s;
      ScheduledKeepsRoot(s, t);
      ScheduleAllOpens(t, sources[1..], op);
      OpensTrans(s, t, ScheduleAll(t, sources[1..], op));
    }
  }

  lemma {:induction false} ScheduleOpsOpens(s: State, ops: seq<Op>)
    requires QueuesOk(s) && Counted(s) && (s.closed || !s.root.Unset?)
    ensures Opens(s, ScheduleOps(s, ops))
    decreases |ops|
  {
    hide QueuesOk, Counted, ScheduleAll, Scheduled, Opens;
    OpensSelf(s, s);
    if ops != [] {
      var t := ScheduleAll(s, s.sources, ops[0]);
      ScheduleAllGood(s, s.sources, ops[0]);
      ScheduledKeepsRoot(s, t);
      ScheduleAllOpens(s, s.sources, ops[0]);
      ScheduleOpsOpens(t, ops[1..]);
      OpensTrans(s, t, ScheduleOps(t, ops[1..]));
    }
  }

  lemma FallbackOpens(s: State, source: Source)
    requires QueuesOk(s)
    ensures Opens(s, ScheduleFallback(s, source))
  {
    hide QueuesOk, Schedule, Opens;
    OpensSelf(s, s);
    OpensSelf(s, s.(parked := s.parked + {source}));
    ScheduleOpens(s, source, Fallback, false);
  }

  lemma {:induction false} FallbacksOpen(s: State, order: seq<Source>)
    requires QueuesOk(s) && Counted(s)
    ensures Opens(s, ScheduleFallbacks(s, order))
    decreases |order|
  {
    hide QueuesOk, Counted, ScheduleFallback, Scheduled, Opens;
    OpensSelf(s, s);
    if order != [] {
      var t := ScheduleFallback(s, order[0]);
      ScheduleFallbackGood(s, order[0]);
      FallbackOpens(s, order[0]);
      FallbacksOpen(t, order[1..]);
      OpensTrans(s, t, ScheduleFallbacks(t, order[1..]));
    }
  }

  // ---- events ------------------------------------------------------------------------------------

  lemma RequestTickets(s: State, op: Op, includes: bool)
    requires Good(s)
    ensures Opens(s, Request(s, op, includes))
  {
    hide QueuesOk, Counted, SetupsOk, ScheduleAll, QueuePending, AwaitingSources, Opens, OpenSetupTicket;
    OpensSelf(s, s);
    if s.closed || s.root.Unset? {
    } else if AwaitingSources(s) {
      AwaitingTickets(s, op, includes);
      OpensSelf(s, Request(s, op, includes));
    } else {
      ScheduleAllOpens(s, s.sources, op);
    }
  }

  lemma IncludeTickets(s: State)
    ensures IncludeSetup(s).jobs == s.jobs && IncludeSetup(s).nextId == s.nextId
  {
    hide OpenSetupTicket;
    if IncludeSetup(s) != s {
      OpenSetupFields(s, s.setup.value);
    }
  }

  lemma OpenSetupFields(s: State, id: Id)
    requires id in s.setups
    ensures OpenSetupTicket(s, id).jobs == s.jobs && OpenSetupTicket(s, id).nextId == s.nextId
  {
  }

  lemma AwaitingTickets(s: State, op: Op, includes: bool)
    requires !s.closed && !s.root.Unset? && AwaitingSources(s)
    ensures Request(s, op, includes).jobs == s.jobs && Request(s, op, includes).nextId >= s.nextId
  {
    hide QueuePending, AwaitingSources, IncludeSetup;
    IncludeTickets(s.(pending := QueuePending(s.pending, op)));
  }

  lemma LoadedTickets(s: State, id: Id, sources: seq<Source>)
    requires Invariant(s) && Enabled(s, SetupLoaded(id, sources))
    ensures TicketsStep(s.nextId, s.jobs, Fire(s, SetupLoaded(id, sources)).jobs)
  {
    hide QueuesOk, Counted, LookupsOk, JoinsKnown, ScheduleAll, ScheduleOps, Scheduled, Opens, TicketsStep;
    OpensSelf(s, s);
    OpensSteps(s, s);
    if !s.closed {
      KnownRoot(s, id);
      var t := s.(sources := sources, sourcesReady := true, pending := []);
      var op := Op(Every, true, s.setups[id].ticket.Some?);
      SourcesGood(s, sources);
      ScheduleAllGood(t, sources, op);
      var a := ScheduleAll(t, sources, op);
      ScheduledKeepsRoot(t, a);
      ScheduleAllOpens(t, sources, op);
      ScheduleOpsOpens(a, s.pending);
      OpensSelf(s, t);
      OpensTrans(s, t, a);
      OpensTrans(s, a, ScheduleOps(a, s.pending));
      OpensSteps(s, ScheduleOps(a, s.pending));
    }
  }

  lemma FinishLookupTickets(s: State, id: Id, order: seq<Source>)
    requires Good(s) && Enabled(s, LookupFinish(id, order))
    ensures TicketsStep(s.nextId, s.jobs, Fire(s, LookupFinish(id, order)).jobs)
  {
    hide Good, ScheduleFallbacks, PopLookup, LetGo, Opens, TicketsStep;
    OpensSelf(s, s);
    OpensSteps(s, s);
    PopKeeps(s, id);
    ReleaseTickets(s, LetGo(PopLookup(s, id)), order);
  }

  lemma ReleaseTickets(s: State, u: State, order: seq<Source>)
    requires Good(u) && u.jobs == s.jobs && u.nextId == s.nextId
    ensures TicketsStep(s.nextId, s.jobs, ScheduleFallbacks(u, order).jobs)
  {
    hide QueuesOk, Counted, SetupsOk, ScheduleFallbacks, Opens, TicketsStep;
    FallbacksOpen(u, order);
    OpensSelf(s, u);
    OpensTrans(s, u, ScheduleFallbacks(u, order));
    OpensSteps(s, ScheduleFallbacks(u, order));
  }

  lemma SetTicket(s: State, id: Id, j: Job)
    requires id in s.jobs && TicketStep(s.jobs[id].ticket, j.ticket)
    ensures TicketsStep(s.nextId, s.jobs, SetJob(s, id, j).jobs)
  {
  }

  lemma EndTickets(s: State, id: Id, outcome: Outcome)
    requires QueuesOk(s) && id in s.jobs
    ensures TicketsStep(s.nextId, s.jobs, EndRun(s, id, outcome).jobs)
  {
    hide QueuesOk, ScheduleFallback, Opens;
    RememberKeeps(s, s.jobs[id].source);
    FallbackOpens(Remember(s, s.jobs[id].source), s.jobs[id].source);
    OpensSelf(s, s);
    EndingTickets(s, s, id);
    EndingTickets(s, AskFallback(s, s.jobs[id].source), id);
  }

  lemma RememberKeeps(s: State, source: Source)
    requires QueuesOk(s)
    ensures QueuesOk(Remember(s, source)) && forall t :: Opens(Remember(s, source), t) <==> Opens(s, t)
  {
    hide Queues;
  }

  lemma EndingTickets(s: State, t: State, id: Id)
    requires Opens(s, t)
    ensures TicketsStep(s.nextId, s.jobs, ToEnding(t, id).jobs)
  {
  }

  lemma CheckpointTickets(s: State, id: Id)
    requires id in s.jobs
    ensures TicketsStep(s.nextId, s.jobs, Checkpoint(s, id).jobs)
  {
    hide RefreshBehind, SetJob;
    OpensSelf(s, s);
    OpensSteps(s, s);
    SetTicket(s, id, s.jobs[id].(cancelled := true, yielded := true));
    CloseTickets(s, id);
  }

  lemma CloseTickets(s: State, id: Id)
    requires id in s.jobs
    ensures CompleteJobTicket(s, id).jobs == s.jobs ||
            (s.jobs[id].ticket == Some(true) && CompleteJobTicket(s, id).jobs == s.jobs[id := s.jobs[id].(ticket := Some(false))])
  {
  }

  lemma BeginTickets(s: State, id: Id)
    requires id in s.jobs
    ensures TicketsStep(s.nextId, s.jobs, Begin(s, id).jobs)
  {
    hide SetJob, Unreserve, TicketsStep;
    var j := s.jobs[id];
    if j.cancelled {
      SetTicket(s, id, j.(place := Dropping));
    } else if j.work.Fallback? && s.lookupQueue != [] {
      UnreserveTickets(s, id);
    } else if j.work.Fallback? && s.installed == [] {
      SetTicket(s, id, j.(terminal := true, place := Dropping));
    } else {
      SetTicket(s, id, j.(begun := true, place := Running, snapshot := if j.work.Fallback? then s.installed else []));
    }
  }

  lemma UnreserveTickets(s: State, id: Id)
    requires id in s.jobs
    ensures TicketsStep(s.nextId, s.jobs, Unreserve(s, id).jobs)
  {
    hide Rotate;
  }

  lemma JobTickets(s: State, e: Event)
    requires QueuesOk(s) && Enabled(s, e) && JobEvent(e)
    ensures TicketsStep(s.nextId, s.jobs, Fire(s, e).jobs)
  {
    hide QueuesOk, SetJob, EndRun, Depart, Begin, Checkpoint, TicketsStep;
    var id, j := e.id, s.jobs[e.id];
    match e
    case Wake(_) => SetTicket(s, id, if j.cancelled then j.(place := Leaving) else j.(reserved := true, place := Awaiting));
    case Acquire(_) => SetTicket(s, id, j.(place := Slotted));
    case GiveUp(_) => SetTicket(s, id, j.(place := Leaving));
    case Proceed(_) => BeginTickets(s, id);
    case Release(_) => SetTicket(s, id, j.(place := if j.place.Handing? then Queued else Leaving));
    case Batch(_) => CheckpointTickets(s, id);
    case Finish(_, outcome) => EndTickets(s, id, outcome);
    case Discard(_) => SetTicket(s, id, j.(cancelled := true, place := Gone));
    case Done(_) => DoneTickets(s, id);
  }

  lemma DoneTickets(s: State, id: Id)
    requires id in s.jobs
    ensures TicketsStep(s.nextId, s.jobs, Depart(s, id).jobs)
  {
    hide Depart;
    DepartQueues(s, id);
  }

  lemma CancelledTickets(s: State, t: State)
    requires t.jobs == s.jobs || t.jobs == Cancelled(s.jobs)
    ensures TicketsStep(s.nextId, s.jobs, t.jobs)
  {
  }

  lemma PlainJobs(s: State, e: Event)
    requires Enabled(s, e)
    requires e.OpenRoot? || e.Start? || e.RefreshInstalled? || e.CancelLookup? || e.LookupStart? || e.LookupStore? || e.LookupSettle?
    ensures Fire(s, e).jobs == s.jobs
  {
  }

  lemma StartLookupJobs(s: State)
    ensures StartLookup(s).jobs == s.jobs
  {
    hide Shared;
  }

  lemma LeaveSetupJobs(s: State, id: Id)
    requires id in s.setups
    ensures LeaveSetup(s, id).jobs == s.jobs
  {
    hide CloseSetupTicket;
    CloseSetupJobs(s, id);
  }

  lemma CloseSetupJobs(s: State, id: Id)
    requires id in s.setups
    ensures CloseSetupTicket(s, id).jobs == s.jobs
  {
  }

  lemma SetSetupJobs(s: State, id: Id, u: Setup)
    ensures SetSetup(s, id, u).jobs == s.jobs
  {
  }

  lemma SetupJobs(s: State, e: Event)
    requires Enabled(s, e) && (e.SetupCached? || e.SetupFailed? || e.SetupJoined? || e.SetupDone?)
    ensures Fire(s, e).jobs == s.jobs
  {
    hide StartLookup, Joined, Shared, SetSetup, LeaveSetup;
    StartLookupJobs(s);
    match e
    case SetupDone(id) => LeaveSetupJobs(s, id);
    case SetupFailed(id) =>
      SetSetupJobs(s.(started := s.closed && s.started), id, s.setups[id].(stage := Joining(s.setups[id].stage.joined, s.setups[id].stage.reused)));
    case SetupCached(id) =>
      SetSetupJobs(s, id, s.setups[id].(stage := Finishing));
      SetSetupJobs(StartLookup(s), id, s.setups[id].(stage := Loading(Joined(s), Shared(s))));
    case SetupJoined(id) =>
      SetSetupJobs(s, id, s.setups[id].(stage := Finishing));
      if s.hasInstalled {
        JoinedSome(s);
        SetSetupJobs(StartLookup(s), id, s.setups[id].(stage := Rejoining(Joined(s).value)));
      }
  }

  lemma EndTicketsAll(s: State, e: Event)
    requires Enabled(s, e) && (e.Stop? || e.CancelRoot?)
    ensures TicketsStep(s.nextId, s.jobs, Fire(s, e).jobs)
  {
    hide TicketsStep, Cancelled;
    CancelledTickets(s, Fire(s, e));
  }

  lemma RequestSteps(s: State, e: Event)
    requires Good(s) && Enabled(s, e) && (e.Refresh? || e.Retry? || e.EnsureRange?)
    ensures TicketsStep(s.nextId, s.jobs, Fire(s, e).jobs)
  {
    hide Good, TicketsStep, Opens, Request;
    var op := match e case Refresh(initial) => Op(Every, true, initial) case Retry(source) => Op(source, true, true) case _ => Op(Every, false, true);
    var includes := match e case Refresh(initial) => initial case _ => true;
    RequestTickets(s, op, includes);
    OpensSteps(s, Request(s, op, includes));
  }

  lemma FireTickets(s: State, e: Event)
    requires Invariant(s) && Enabled(s, e)
    ensures TicketsStep(s.nextId, s.jobs, Fire(s, e).jobs)
  {
    hide QueuesOk, Counted, SetupsOk, LookupsOk, JoinsKnown, Fire, Enabled, TicketsStep, Opens;
    OpensSelf(s, s);
    OpensSteps(s, s);
    if JobEvent(e) {
      JobTickets(s, e);
    } else if e.Refresh? || e.Retry? || e.EnsureRange? {
      RequestSteps(s, e);
    } else if e.Stop? || e.CancelRoot? {
      EndTicketsAll(s, e);
    } else if e.SetupLoaded? {
      LoadedTickets(s, e.id, e.sources);
    } else if e.LookupFinish? {
      FinishLookupTickets(s, e.id, e.order);
    } else if e.SetupCached? || e.SetupFailed? || e.SetupJoined? || e.SetupDone? {
      SetupJobs(s, e);
    } else {
      PlainJobs(s, e);
    }
  }

  /** A job's ticket goes from open to complete at most once. */
  lemma TicketCompletesOnce(s: State, e: Event, id: Id)
    requires Reached(s) && Enabled(s, e) && id in s.jobs && id in Fire(s, e).jobs
    ensures TicketStep(s.jobs[id].ticket, Fire(s, e).jobs[id].ticket)
  {
    hide Reached, Invariant, Fire, Enabled;
    ReachedInvariant(s);
    FireTickets(s, e);
  }

  // ---- tickets of setups -------------------------------------------------------------------------

  predicate SetupTicketsStep(setups: map<Id, Setup>, setups': map<Id, Setup>) {
    forall id | id in setups && id in setups' :: TicketStep(setups[id].ticket, setups'[id].ticket)
  }

  lemma RequestSetups(s: State, op: Op, includes: bool)
    requires Good(s)
    ensures SetupTicketsStep(s.setups, Request(s, op, includes).setups)
  {
    hide QueuesOk, Counted, ScheduleAll, QueuePending, AwaitingSources, Scheduled;
    if !s.closed && !s.root.Unset? && !AwaitingSources(s) {
      ScheduleAllGood(s, s.sources, op);
      ScheduledKeepsSetups(s, ScheduleAll(s, s.sources, op));
    }
  }

  lemma LoadedSetups(s: State, id: Id, sources: seq<Source>)
    requires Good(s) && Enabled(s, SetupLoaded(id, sources))
    ensures SetupTicketsStep(s.setups, Fire(s, SetupLoaded(id, sources)).setups)
  {
    hide QueuesOk, Counted, ScheduleAll, ScheduleOps, Scheduled;
    if !s.closed {
      KnownRoot(s, id);
      var t := s.(sources := sources, sourcesReady := true, pending := []);
      var op := Op(Every, true, s.setups[id].ticket.Some?);
      SourcesGood(s, sources);
      ScheduleAllGood(t, sources, op);
      var a := ScheduleAll(t, sources, op);
      ScheduledKeepsRoot(t, a);
      ScheduledKeepsSetups(t, a);
      ScheduleOpsGood(a, s.pending);
      ScheduledKeepsSetups(a, ScheduleOps(a, s.pending));
    }
  }

  lemma OwnSetups(s: State, e: Event)
    requires Enabled(s, e) && (e.SetupCached? || e.SetupFailed? || e.SetupJoined? || e.SetupDone?)
    ensures SetupTicketsStep(s.setups, Fire(s, e).setups)
  {
    hide StartLookup, Joined, Shared, SetSetup, LeaveSetup, SetupTicketsStep;
    StartLookupSetups(s);
    match e
    case SetupDone(id) => LeaveSetups(s, id);
    case SetupFailed(id) =>
      SetTickets(s, s.(started := s.closed && s.started), id, s.setups[id].(stage := Joining(s.setups[id].stage.joined, s.setups[id].stage.reused)));
    case SetupCached(id) =>
      SetTickets(s, s, id, s.setups[id].(stage := Finishing));
      SetTickets(s, StartLookup(s), id, s.setups[id].(stage := Loading(Joined(s), Shared(s))));
    case SetupJoined(id) =>
      SetTickets(s, s, id, s.setups[id].(stage := Finishing));
      if s.hasInstalled {
        JoinedSome(s);
        SetTickets(s, StartLookup(s), id, s.setups[id].(stage := Rejoining(Joined(s).value)));
      }
  }

  lemma SetTickets(s: State, t: State, id: Id, u: Setup)
    requires id in s.setups && t.setups == s.setups && u.ticket == s.setups[id].ticket
    ensures SetupTicketsStep(s.setups, SetSetup(t, id, u).setups)
  {
  }

  lemma LeaveSetups(s: State, id: Id)
    requires id in s.setups
    ensures SetupTicketsStep(s.setups, LeaveSetup(s, id).setups)
  {
  }

  lemma StartLookupSetups(s: State)
    ensures StartLookup(s).setups == s.setups
  {
  }

  lemma PlainSetups(s: State, e: Event)
    requires Enabled(s, e)
    requires e.OpenRoot? || e.CancelRoot? || e.RefreshInstalled? || e.CancelLookup? || e.LookupStart? || e.LookupStore? || e.LookupSettle?
    ensures Fire(s, e).setups == s.setups
  {
  }

  lemma StopSetups(s: State)
    requires Enabled(s, Stop)
    ensures Fire(s, Stop).setups == s.setups
  {
  }

  lemma StartSetups(s: State, initial: bool)
    requires SetupsOk(s)
    ensures SetupTicketsStep(s.setups, StartSetup(s, initial).setups)
  {
  }

  lemma FireSetupTickets(s: State, e: Event)
    requires Invariant(s) && Enabled(s, e)
    ensures SetupTicketsStep(s.setups, Fire(s, e).setups)
  {
    hide QueuesOk, Counted, SetupsOk, LookupsOk, JoinsKnown, Request, Loaded, StartLookup, FinishLookup, Shutdown, StartSetup, EnqueueLookup, LeaveSetup;
    if JobEvent(e) {
      hide Fire, Enabled, JobEvent;
      JobLookups(s, e);
    } else {
      match e
      case Refresh(initial) => RequestSetups(s, Op(Every, true, initial), initial);
      case Retry(source) => RequestSetups(s, Op(source, true, true), true);
      case EnsureRange => RequestSetups(s, Op(Every, false, true), true);
      case Start(initial) => StartSetups(s, initial);
      case SetupLoaded(id, sources) => LoadedSetups(s, id, sources);
      case LookupFinish(id, order) => FinishLookupSetups(s, id, order);
      case SetupCached(_) => OwnSetups(s, e);
      case SetupFailed(_) => OwnSetups(s, e);
      case SetupJoined(_) => OwnSetups(s, e);
      case SetupDone(_) => OwnSetups(s, e);
      case Stop => StopSetups(s);
      case _ => PlainSetups(s, e);
    }
  }

  /** So does a setup's. */
  lemma SetupTicketCompletesOnce(s: State, e: Event, id: Id)
    requires Reached(s) && Enabled(s, e) && id in s.setups && id in Fire(s, e).setups
    ensures TicketStep(s.setups[id].ticket, Fire(s, e).setups[id].ticket)
  {
    hide Reached, Invariant, Fire, Enabled;
    ReachedInvariant(s);
    FireSetupTickets(s, e);
  }

  lemma Balance(a: set<Id>, b: set<Id>)
    ensures |b| == |a| + |b - a| - |a - b|
  {
    assert a == (a - b) + a * b && b == (b - a) + a * b;
  }

  /** In every step `initialActive` rises by one for each ticket that opens, and falls by one for each that completes,
      be it in place or as its job or setup leaves. */
  lemma TicketsCounted(s: State, e: Event)
    requires Reached(s) && Enabled(s, e)
    ensures var t := Fire(s, e);
      t.initialActive == s.initialActive + |OpenJobs(t.jobs) - OpenJobs(s.jobs)| - |OpenJobs(s.jobs) - OpenJobs(t.jobs)|
                                         + |OpenSetups(t.setups) - OpenSetups(s.setups)| - |OpenSetups(s.setups) - OpenSetups(t.setups)|
  {
    hide Fire, Enabled, Reached, OpenJobs, OpenSetups;
    ReachedStep(s, e);
    ReachedCounts(s);
    ReachedCounts(Fire(s, e));
    Balance(OpenJobs(s.jobs), OpenJobs(Fire(s, e).jobs));
    Balance(OpenSetups(s.setups), OpenSetups(Fire(s, e).setups));
  }
}
