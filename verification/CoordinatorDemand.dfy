/** Nothing that was asked for is lost: not among the requests kept until the sources are known, not when they are
    scheduled, and not when a fallback yields. */
module CoordinatorDemand {
  import opened Wrappers
  import opened CoordinatorSpec
  import opened CoordinatorQueues
  import opened CoordinatorCounts
  import opened CoordinatorSafety
  import opened CoordinatorLookups
  import opened CoordinatorRuns
  import opened CoordinatorTheorems

  // ---- requests before the sources are known -----------------------------------------------------

  ghost predicate Covered(pending: seq<Op>, op: Op) {
    exists p | p in pending :: Covers(p, op)
  }

  /** Requests for a range, which are never merged. */
  function Ranges(ops: seq<Op>): seq<Op> {
    if ops == [] then [] else
    var n := |ops| - 1;
    Ranges(ops[..n]) + if ops[n].refresh then [] else [ops[n]]
  }

  /** At most one refresh for each source name. */
  predicate OneEach(pending: seq<Op>) {
    forall i, j | 0 <= i < j < |pending| :: pending[i].refresh && pending[j].refresh ==> pending[i].source != pending[j].source
  }

  lemma AppendRanges(ops: seq<Op>, op: Op)
    ensures Ranges(ops + [op]) == Ranges(ops) + if op.refresh then [] else [op]
  {
    assert (ops + [op])[..|ops|] == ops;
  }

  lemma {:induction false} KeepExact(pending: seq<Op>, op: Op)
    ensures forall p :: p in Keep(pending, op) <==> p in pending && Survives(p, op)
    ensures Ranges(Keep(pending, op)) == Ranges(pending)
  {
    if pending != [] {
      var n := |pending| - 1;
      KeepExact(pending[..n], op);
      assert pending == pending[..n] + [pending[n]];
      var k := Keep(pending[..n], op);
      AppendRanges(k, pending[n]);
      assert k + [] == k && Ranges(k) + [] == Ranges(k);
    }
  }

  lemma {:induction false} KeepOneEach(pending: seq<Op>, op: Op)
    requires OneEach(pending)
    ensures OneEach(Keep(pending, op))
  {
    if pending != [] {
      var n := |pending| - 1;
      KeepOneEach(pending[..n], op);
      KeepExact(pending[..n], op);
      var k := Keep(pending[..n], op);
      forall i | 0 <= i < |k| && k[i].refresh && pending[n].refresh ensures k[i].source != pending[n].source {
        assert k[i] in pending[..n];
        var x :| 0 <= x < n && pending[x] == k[i];
      }
    }
  }

  lemma {:induction false} SetRanges(pending: seq<Op>, n: nat, p: Op)
    requires n < |pending| && pending[n].refresh && p.refresh
    ensures Ranges(pending[n := p]) == Ranges(pending)
  {
    var m := |pending| - 1;
    if n < m {
      SetRanges(pending[..m], n, p);
      assert pending[n := p][..m] == pending[..m][n := p];
    } else {
      assert pending[n := p][..m] == pending[..m];
    }
  }

  lemma AppendOneEach(k: seq<Op>, op: Op)
    requires OneEach(k) && op.refresh && forall p | p in k :: p.refresh ==> p.source != op.source
    ensures OneEach(k + [op])
  {
  }

  lemma NoMatch(pending: seq<Op>, op: Op)
    requires MatchFrom(pending, op, 0) == |pending|
    ensures forall p | p in pending :: p.refresh ==> p.source != op.source
  {
    forall p | p in pending && p.refresh ensures p.source != op.source {
      var x :| 0 <= x < |pending| && pending[x] == p;
      assert MatchOp(pending[x], op).Pass?;
    }
  }

  lemma MergeOneEach(pending: seq<Op>, n: nat, initial: bool)
    requires OneEach(pending) && n < |pending|
    ensures OneEach(pending[n := pending[n].(initial := initial)])
  {
  }

  /** `queuePendingLocked` keeps range requests as they came, and one refresh for each name. */
  lemma QueuePendingShape(pending: seq<Op>, op: Op)
    requires OneEach(pending)
    ensures OneEach(QueuePending(pending, op))
    ensures Ranges(QueuePending(pending, op)) == Ranges(pending) + if op.refresh then [] else [op]
  {
    hide OneEach, Ranges;
    AppendRanges(pending, op);
    if op.refresh {
      var n := MatchFrom(pending, op, 0);
      if n < |pending| {
        var initial := pending[n].initial || op.initial;
        SetRanges(pending, n, pending[n].(initial := initial));
        MergeOneEach(pending, n, initial);
      } else {
        NoMatch(pending, op);
        KeepExact(pending, op);
        KeepOneEach(pending, op);
        AppendRanges(Keep(pending, op), op);
        AppendOneEach(if op.source == Every then Keep(pending, op) else pending, op);
      }
    } else {
      AppendRangeOneEach(pending, op);
    }
  }

  lemma AppendRangeOneEach(k: seq<Op>, op: Op)
    requires OneEach(k) && !op.refresh
    ensures OneEach(k + [op])
  {
  }

  lemma CoversTrans(p: Op, q: Op, r: Op)
    requires Covers(p, q) && Covers(q, r)
    ensures Covers(p, r)
  {
  }

  /** The new refresh is covered, and what was covered stays covered. */
  lemma QueuePendingCovers(pending: seq<Op>, op: Op, earlier: Op)
    requires earlier == op || Covered(pending, earlier)
    requires earlier.refresh
    ensures Covered(QueuePending(pending, op), earlier)
  {
    var t := QueuePending(pending, op);
    if op.refresh {
      var n := MatchFrom(pending, op, 0);
      if n < |pending| {
        assert t[n] in t && Covers(t[n], op) && Covers(t[n], pending[n]);
        if earlier != op {
          var p :| p in pending && Covers(p, earlier);
          var x :| 0 <= x < |pending| && pending[x] == p;
          assert t[x] in t && Covers(t[x], p);
          CoversTrans(t[x], p, earlier);
        }
      } else {
        assert t[|t| - 1] == op && op in t && Covers(op, op);
        if earlier != op {
          var p :| p in pending && Covers(p, earlier);
          KeepExact(pending, op);
          if p in t {
          } else {
            assert !Survives(p, op) && Covers(op, p);
            CoversTrans(op, p, earlier);
          }
        }
      }
    } else {
      var p :| p in pending && Covers(p, earlier);
      assert p in t;
    }
  }

  /** All requests since the last time pending ones were scheduled or dropped, folded as the coordinator folds them. */
  function Coalesce(asked: seq<Op>): seq<Op> {
    if asked == [] then [] else QueuePending(Coalesce(asked[..|asked| - 1]), asked[|asked| - 1])
  }

  lemma NothingAsked()
    ensures OneEach([]) && Ranges([]) == [] && Coalesce([]) == []
  {
  }

  /** However many requests come, each refresh is covered by a pending one at least as broad and at least as
      initial, each name has one pending refresh, and every range request is there in order. */
  lemma {:induction false} CoalesceLosesNothing(asked: seq<Op>)
    ensures OneEach(Coalesce(asked)) && Ranges(Coalesce(asked)) == Ranges(asked)
    ensures forall op | op in asked && op.refresh :: Covered(Coalesce(asked), op)
  {
    hide QueuePending, Covered, OneEach;
    if asked == [] {
      NothingAsked();
    } else {
      var n := |asked| - 1;
      CoalesceLosesNothing(asked[..n]);
      QueuePendingShape(Coalesce(asked[..n]), asked[n]);
      forall op | op in asked && op.refresh ensures Covered(Coalesce(asked), op) {
        assert asked == asked[..n] + [asked[n]];
        QueuePendingCovers(Coalesce(asked[..n]), asked[n], op);
      }
    }
  }

  /** The request an event makes, if it has to wait for the sources. */
  function Waits(s: State, e: Event): Option<Op> {
    if s.closed || s.root.Unset? || !AwaitingSources(s) then None else
    match e
    case Refresh(initial) => Some(Op(Every, true, initial))
    case Retry(source) => Some(Op(source, true, true))
    case EnsureRange => Some(Op(Every, false, true))
    case _ => None
  }

  function AskedStep(s: State, asked: seq<Op>, e: Event): seq<Op> {
    if !Enabled(s, e) then asked
    else if e.Stop? || (e.SetupLoaded? && !s.closed) then []
    else match Waits(s, e) { case Some(op) => asked + [op] case None => asked }
  }

  /** The requests of a run that are still waiting for the sources. */
  function Asked(s: State, asked: seq<Op>, events: seq<Event>): seq<Op>
    decreases |events|
  {
    if events == [] then asked else Asked(Step(s, events[0]), AskedStep(s, asked, events[0]), events[1..])
  }

  lemma CoalesceSnoc(asked: seq<Op>, op: Op)
    ensures Coalesce(asked + [op]) == QueuePending(Coalesce(asked), op)
  {
    assert (asked + [op])[..|asked|] == asked;
  }

  lemma RequestPending(s: State, op: Op, includes: bool)
    requires Invariant(s)
    ensures Request(s, op, includes).pending ==
            if !s.closed && !s.root.Unset? && AwaitingSources(s) then QueuePending(s.pending, op) else s.pending
  {
    hide QueuesOk, Counted, SetupsOk, LookupsOk, JoinsKnown, ScheduleAll, QueuePending, AwaitingSources, Scheduled;
    if !s.closed && !s.root.Unset? && !AwaitingSources(s) {
      ScheduleAllGood(s, s.sources, op);
      ScheduledLookups(s, ScheduleAll(s, s.sources, op));
    }
  }

  lemma FinishLookupPending(s: State, id: Id, order: seq<Source>)
    requires Invariant(s) && Enabled(s, LookupFinish(id, order))
    ensures Fire(s, LookupFinish(id, order)).pending == s.pending
  {
    hide Good, LookupsOk, JoinsKnown, ScheduleFallbacks, PopLookup, LetGo;
    PopKeeps(s, id);
    if PopLookup(s, id).lookupQueue == [] {
      ReleasePending(LetGo(PopLookup(s, id)), order);
    }
  }

  lemma ReleasePending(s: State, order: seq<Source>)
    requires Good(s) && s.lookupQueue == []
    ensures ScheduleFallbacks(s, order).pending == s.pending
  {
    hide QueuesOk, Counted, SetupsOk, ScheduleFallbacks, Scheduled;
    ScheduleFallbacksGood(s, order);
    ScheduledLookups(s, ScheduleFallbacks(s, order));
  }

  lemma StartLookupPending(s: State)
    ensures StartLookup(s).pending == s.pending && StartLookup(s).parked == s.parked
  {
    hide Shared;
  }

  lemma LoadedPending(s: State, id: Id, sources: seq<Source>)
    requires Invariant(s) && Enabled(s, SetupLoaded(id, sources))
    ensures Fire(s, SetupLoaded(id, sources)).pending == []
  {
    hide QueuesOk, Counted, LookupsOk, JoinsKnown, ScheduleAll, ScheduleOps, Scheduled;
    if !s.closed {
      KnownRoot(s, id);
      var t := s.(sources := sources, sourcesReady := true, pending := []);
      var op := Op(Every, true, s.setups[id].ticket.Some?);
      SourcesGood(s, sources);
      ScheduleAllGood(t, sources, op);
      ScheduledKeepsRoot(t, ScheduleAll(t, sources, op));
      ScheduledLookups(t, ScheduleAll(t, sources, op));
      ScheduleOpsGood(ScheduleAll(t, sources, op), s.pending);
      ScheduledLookups(ScheduleAll(t, sources, op), ScheduleOps(ScheduleAll(t, sources, op), s.pending));
    }
  }

  lemma SetSetupPending(s: State, id: Id, u: Setup)
    ensures SetSetup(s, id, u).pending == s.pending && SetSetup(s, id, u).parked == s.parked
  {
  }

  lemma SetupPending(s: State, e: Event)
    requires Enabled(s, e) && (e.SetupCached? || e.SetupFailed? || e.SetupJoined? || e.SetupDone?)
    ensures Fire(s, e).pending == s.pending && Fire(s, e).parked == s.parked
  {
    hide StartLookup, Joined, Shared, SetSetup, LeaveSetup;
    StartLookupPending(s);
    match e
    case SetupDone(id) => LeaveSetupPending(s, id);
    case SetupFailed(id) =>
      SetSetupPending(s.(started := s.closed && s.started), id, s.setups[id].(stage := Joining(s.setups[id].stage.joined, s.setups[id].stage.reused)));
    case SetupCached(id) =>
      SetSetupPending(s, id, s.setups[id].(stage := Finishing));
      SetSetupPending(StartLookup(s), id, s.setups[id].(stage := Loading(Joined(s), Shared(s))));
    case SetupJoined(id) =>
      SetSetupPending(s, id, s.setups[id].(stage := Finishing));
      if s.hasInstalled {
        JoinedSome(s);
        SetSetupPending(StartLookup(s), id, s.setups[id].(stage := Rejoining(Joined(s).value)));
      }
  }

  lemma JoinedSome(s: State)
    requires s.hasInstalled
    ensures Joined(s).Some?
  {
  }

  lemma LeaveSetupPending(s: State, id: Id)
    requires id in s.setups
    ensures LeaveSetup(s, id).pending == s.pending && LeaveSetup(s, id).parked == s.parked
  {
    hide CloseSetupTicket;
    CloseSetupPending(s, id);
  }

  lemma CloseSetupPending(s: State, id: Id)
    requires id in s.setups
    ensures CloseSetupTicket(s, id).pending == s.pending && CloseSetupTicket(s, id).parked == s.parked
  {
  }

  lemma PlainPending(s: State, e: Event)
    requires Enabled(s, e)
    requires e.OpenRoot? || e.CancelRoot? || e.Start? || e.RefreshInstalled? || e.CancelLookup? || e.LookupStart? || e.LookupStore? || e.LookupSettle?
    ensures Fire(s, e).pending == s.pending && Fire(s, e).parked == s.parked
  {
    hide Cancelled;
  }

  lemma StopPending(s: State)
    ensures Shutdown(s).pending == []
  {
    hide EndedJobs;
  }

  /** Pending operations change only as requests are folded in, or all at once. */
  lemma FirePending(s: State, e: Event, asked: seq<Op>)
    requires Invariant(s) && s.pending == Coalesce(asked) && Enabled(s, e)
    ensures Fire(s, e).pending == Coalesce(AskedStep(s, asked, e))
  {
    hide Invariant, QueuePending, Coalesce, AwaitingSources, Request, Shutdown;
    assert Coalesce([]) == [] by {
      CoalesceEmpty();
    }
    match e
    case Refresh(initial) =>
      RequestPending(s, Op(Every, true, initial), initial);
      CoalesceSnoc(asked, Op(Every, true, initial));
    case Retry(source) =>
      RequestPending(s, Op(source, true, true), true);
      CoalesceSnoc(asked, Op(source, true, true));
    case EnsureRange =>
      RequestPending(s, Op(Every, false, true), true);
      CoalesceSnoc(asked, Op(Every, false, true));
    case Stop => StopPending(s);
    case SetupLoaded(id, sources) =>
      LoadedPending(s, id, sources);
    case LookupFinish(id, order) => FinishLookupPending(s, id, order);
    case _ => OtherPending(s, e);
  }

  lemma CoalesceEmpty()
    ensures Coalesce([]) == []
  {
  }

  /** Nothing pending is touched, and nothing leaves the parked set. */
  lemma OtherPending(s: State, e: Event)
    requires Invariant(s) && Enabled(s, e)
    requires !e.Refresh? && !e.Retry? && !e.EnsureRange? && !e.Stop? && !e.SetupLoaded? && !e.LookupFinish?
    ensures Fire(s, e).pending == s.pending && s.parked <= Fire(s, e).parked
  {
    hide QueuesOk, Counted, SetupsOk, LookupsOk, JoinsKnown, Fire, Enabled, SameLookups;
    if JobEvent(e) {
      JobLookups(s, e);
      SameParked(s, Fire(s, e));
    } else if e.SetupCached? || e.SetupFailed? || e.SetupJoined? || e.SetupDone? {
      SetupPending(s, e);
    } else {
      PlainPending(s, e);
    }
  }

  lemma {:induction false} PendingFollows(s: State, asked: seq<Op>, events: seq<Event>)
    requires Invariant(s) && s.pending == Coalesce(asked)
    ensures Run(s, events).pending == Coalesce(Asked(s, asked, events))
    decreases |events|
  {
    hide Invariant, Fire, Enabled, Coalesce, AskedStep;
    if events != [] {
      if Enabled(s, events[0]) {
        FireInvariant(s, events[0]);
        FirePending(s, events[0], asked);
      } else {
        NotAsked(s, asked, events[0]);
      }
      PendingFollows(Step(s, events[0]), AskedStep(s, asked, events[0]), events[1..]);
    }
  }

  lemma NotAsked(s: State, asked: seq<Op>, e: Event)
    requires !Enabled(s, e)
    ensures AskedStep(s, asked, e) == asked
  {
  }

  /** In every run, each refresh that is still waiting for the sources is covered by a pending operation at least as
      broad and at least as initial; the pending operations hold one refresh for each name and every range request. */
  lemma WaitingRequestsAreCovered(sources: seq<Source>, discovers: bool, hasInstalled: bool, events: seq<Event>, op: Op)
    requires op in Asked(Initial(sources, discovers, hasInstalled), [], events)
    ensures var pending := Run(Initial(sources, discovers, hasInstalled), events).pending;
      && (op.refresh ==> Covered(pending, op))
      && (!op.refresh ==> op in pending)
      && OneEach(pending)
  {
    hide Run, Asked, Initial, Invariant, OneEach, Coalesce, Covered;
    var asked := Asked(Initial(sources, discovers, hasInstalled), [], events);
    InitialInvariant(sources, discovers, hasInstalled);
    InitialPending(sources, discovers, hasInstalled);
    PendingFollows(Initial(sources, discovers, hasInstalled), [], events);
    CoalesceLosesNothing(asked);
    if !op.refresh {
      InRanges(asked, op);
      InRanges(Coalesce(asked), op);
    }
  }

  lemma InitialPending(sources: seq<Source>, discovers: bool, hasInstalled: bool)
    ensures Initial(sources, discovers, hasInstalled).pending == Coalesce([])
  {
  }

  lemma {:induction false} InRanges(ops: seq<Op>, op: Op)
    requires !op.refresh
    ensures op in Ranges(ops) <==> op in ops
  {
    if ops != [] {
      var n := |ops| - 1;
      InRanges(ops[..n], op);
      assert ops == ops[..n] + [ops[n]];
    }
  }

  // ---- what scheduling achieves ------------------------------------------------------------------

  predicate ServesAt(jobs: map<Id, Job>, id: Id, work: Work, initial: bool) {
    id in jobs && Waiting(jobs[id]) && jobs[id].work == work && (initial ==> jobs[id].ticket == Some(true))
  }

  /** A job of this kind waits in the source's queue, with an open ticket if someone waits for it. */
  ghost predicate Serves(s: State, source: Source, work: Work, initial: bool) {
    exists id | id in QueueOf(s, source) :: ServesAt(s.jobs, id, work, initial)
  }

  predicate Ready(s: State) {
    s.root.Live? && !s.closed
  }

  lemma AdmitServes(s: State, source: Source, work: Work, initial: bool, at: nat)
    requires Ready(s) && at <= |QueueOf(s, source)|
    ensures Serves(Admit(s, source, work, initial, at), source, work, initial)
  {
    InsertAt(QueueOf(s, source), at, s.nextId);
    assert ServesAt(Admit(s, source, work, initial, at).jobs, s.nextId, work, initial);
  }

  lemma TicketStates(ticket: Option<bool>)
    ensures ticket == None || ticket == Some(true) || ticket == Some(false)
  {
    if ticket.Some? && !ticket.value {
    }
  }

  lemma JoinServes(s: State, source: Source, work: Work, initial: bool)
    requires Ready(s) && QueuesOk(s) && JoinFrom(s.jobs, QueueOf(s, source), 0, work) < |QueueOf(s, source)|
    ensures Serves(Schedule(s, source, work, initial), source, work, initial)
  {
    hide Queues;
    var q := QueueOf(s, source);
    var id := q[JoinFrom(s.jobs, q, 0, work)];
    assert JoinsAt(s.jobs, id, work);
    KnownJob(s, id);
    TicketStates(s.jobs[id].ticket);
    assert id in q && ServesAt(Schedule(s, source, work, initial).jobs, id, work, initial);
  }

  lemma ScheduleServes(s: State, source: Source, work: Work, initial: bool)
    requires Ready(s) && QueuesOk(s)
    ensures Serves(Schedule(s, source, work, initial), source, work, initial)
  {
    hide QueuesOk, Serves;
    var q := QueueOf(s, source);
    if JoinFrom(s.jobs, q, 0, work) < |q| {
      JoinServes(s, source, work, initial);
    } else {
      AdmitServes(s, source, work, initial, if work.Refreshing? then PlaceFrom(s.jobs, q, 0) else |q|);
    }
  }

  lemma AdmitKeepsServing(s: State, source: Source, work: Work, initial: bool, at: nat, other: Source, kind: Work, waited: bool)
    requires s.nextId !in s.jobs && at <= |QueueOf(s, source)| && Serves(s, other, kind, waited)
    ensures Serves(Admit(s, source, work, initial, at), other, kind, waited)
  {
    var id :| id in QueueOf(s, other) && ServesAt(s.jobs, id, kind, waited);
    InsertAt(QueueOf(s, source), at, s.nextId);
    assert id in QueueOf(Admit(s, source, work, initial, at), other);
    assert ServesAt(Admit(s, source, work, initial, at).jobs, id, kind, waited);
  }

  lemma TicketKeepsServing(s: State, id: Id, other: Source, kind: Work, waited: bool)
    requires id in s.jobs && Serves(s, other, kind, waited)
    ensures Serves(OpenTicket(s, id), other, kind, waited)
  {
    var x :| x in QueueOf(s, other) && ServesAt(s.jobs, x, kind, waited);
    assert x in QueueOf(OpenTicket(s, id), other) && ServesAt(OpenTicket(s, id).jobs, x, kind, waited);
  }

  /** Scheduling one thing disturbs nothing already waiting. */
  lemma ScheduleKeepsServing(s: State, source: Source, work: Work, initial: bool, other: Source, kind: Work, waited: bool)
    requires QueuesOk(s) && Serves(s, other, kind, waited)
    ensures Serves(Schedule(s, source, work, initial), other, kind, waited)
  {
    hide QueuesOk, Serves;
    NewId(s);
    var q := QueueOf(s, source);
    var n := JoinFrom(s.jobs, q, 0, work);
    if n < |q| {
      TicketKeepsServing(s, q[n], other, kind, waited);
    } else {
      AdmitKeepsServing(s, source, work, initial, if work.Refreshing? then PlaceFrom(s.jobs, q, 0) else |q|, other, kind, waited);
    }
  }

  predicate Matches(op: Op, source: Source) {
    op.source == Every || op.source == source
  }

  function WorkOf(op: Op): Work {
    if op.refresh then Refreshing else Ranging
  }

  lemma ScheduledReady(s: State, t: State)
    requires Ready(s) && Scheduled(s, t)
    ensures Ready(t) && t.sources == s.sources && t.pending == s.pending
  {
  }

  lemma {:induction false} ScheduleAllKeeps(s: State, sources: seq<Source>, op: Op, other: Source, kind: Work, waited: bool)
    requires Ready(s) && QueuesOk(s) && Counted(s) && Serves(s, other, kind, waited)
    ensures Serves(ScheduleAll(s, sources, op), other, kind, waited)
    decreases |sources|
  {
    hide QueuesOk, Counted, Schedule, Scheduled, Serves;
    if sources != [] {
      if Matches(op, sources[0]) {
        ScheduleGood(s, sources[0], WorkOf(op), op.initial);
        ScheduledReady(s, Schedule(s, sources[0], WorkOf(op), op.initial));
        ScheduleKeepsServing(s, sources[0], WorkOf(op), op.initial, other, kind, waited);
        ScheduleAllKeeps(Schedule(s, sources[0], WorkOf(op), op.initial), sources[1..], op, other, kind, waited);
      } else {
        ScheduleAllKeeps(s, sources[1..], op, other, kind, waited);
      }
    }
  }

  lemma {:induction false} ScheduleAllServes(s: State, sources: seq<Source>, op: Op, source: Source)
    requires Ready(s) && QueuesOk(s) && Counted(s) && source in sources && Matches(op, source)
    ensures Serves(ScheduleAll(s, sources, op), source, WorkOf(op), op.initial)
    decreases |sources|
  {
    hide QueuesOk, Counted, Schedule, Scheduled, Serves;
    var t := if Matches(op, sources[0]) then Schedule(s, sources[0], WorkOf(op), op.initial) else s;
    ScheduledFacts(s);
    ScheduleGood(s, sources[0], WorkOf(op), op.initial);
    ScheduledReady(s, t);
    if source == sources[0] {
      ScheduleServes(s, source, WorkOf(op), op.initial);
      ScheduleAllKeeps(t, sources[1..], op, source, WorkOf(op), op.initial);
    } else {
      ScheduleAllServes(t, sources[1..], op, source);
    }
  }

  lemma {:induction false} ScheduleOpsKeeps(s: State, ops: seq<Op>, other: Source, kind: Work, waited: bool)
    requires Ready(s) && QueuesOk(s) && Counted(s) && Serves(s, other, kind, waited)
    ensures Serves(ScheduleOps(s, ops), other, kind, waited)
    decreases |ops|
  {
    hide QueuesOk, Counted, ScheduleAll, Scheduled, Serves;
    if ops != [] {
      ScheduleAllGood(s, s.sources, ops[0]);
      ScheduledReady(s, ScheduleAll(s, s.sources, ops[0]));
      ScheduleAllKeeps(s, s.sources, ops[0], other, kind, waited);
      ScheduleOpsKeeps(ScheduleAll(s, s.sources, ops[0]), ops[1..], other, kind, waited);
    }
  }

  lemma {:induction false} ScheduleOpsServes(s: State, ops: seq<Op>, op: Op, source: Source)
    requires Ready(s) && QueuesOk(s) && Counted(s) && op in ops && source in s.sources && Matches(op, source)
    ensures Serves(ScheduleOps(s, ops), source, WorkOf(op), op.initial)
    decreases |ops|
  {
    hide QueuesOk, Counted, ScheduleAll, Scheduled, Serves;
    var t := ScheduleAll(s, s.sources, ops[0]);
    ScheduleAllGood(s, s.sources, ops[0]);
    ScheduledReady(s, t);
    if op == ops[0] {
      ScheduleAllServes(s, s.sources, op, source);
      ScheduleOpsKeeps(t, ops[1..], source, WorkOf(op), op.initial);
    } else {
      ScheduleOpsServes(t, ops[1..], op, source);
    }
  }

  lemma WeakerServes(s: State, source: Source, work: Work, initial: bool, waited: bool)
    requires Serves(s, source, work, initial) && (waited ==> initial)
    ensures Serves(s, source, work, waited)
  {
    var id :| id in QueueOf(s, source) && ServesAt(s.jobs, id, work, initial);
    assert ServesAt(s.jobs, id, work, waited);
  }

  lemma SetupKeepsServing(s: State, id: Id, u: Setup, source: Source, work: Work, initial: bool)
    requires Serves(s, source, work, initial)
    ensures Serves(SetSetup(s, id, u), source, work, initial)
  {
    var x :| x in QueueOf(s, source) && ServesAt(s.jobs, x, work, initial);
    assert x in QueueOf(SetSetup(s, id, u), source) && ServesAt(SetSetup(s, id, u).jobs, x, work, initial);
  }

  /** When discovery succeeds, every pending operation is scheduled for every source it names. */
  lemma LoadingServesPending(s: State, id: Id, sources: seq<Source>, op: Op, source: Source)
    requires Invariant(s) && Ready(s) && Enabled(s, SetupLoaded(id, sources))
    requires op in s.pending && source in sources && Matches(op, source)
    ensures Serves(Fire(s, SetupLoaded(id, sources)), source, WorkOf(op), op.initial)
  {
    hide QueuesOk, Counted, SetupsOk, LookupsOk, JoinsKnown, ScheduleAll, ScheduleOps, Scheduled, Serves;
    var u := s.setups[id];
    var t := s.(sources := sources, sourcesReady := true, pending := []);
    SourcesGood(s, sources);
    var every := Op(Every, true, u.ticket.Some?);
    ScheduleAllGood(t, sources, every);
    var a := ScheduleAll(t, sources, every);
    ScheduledReady(t, a);
    ScheduleOpsServes(a, s.pending, op, source);
    SetupKeepsServing(ScheduleOps(a, s.pending), id, u.(stage := Joining(u.stage.joined, u.stage.reused), scheduled := true),
                      source, WorkOf(op), op.initial);
  }

  lemma LoadingServesCovered(s: State, id: Id, sources: seq<Source>, op: Op, source: Source)
    requires Invariant(s) && Ready(s) && Enabled(s, SetupLoaded(id, sources))
    requires op.refresh && Covered(s.pending, op) && source in sources && Matches(op, source)
    ensures Serves(Fire(s, SetupLoaded(id, sources)), source, Refreshing, op.initial)
  {
    hide Invariant, Fire, Enabled, Serves;
    var p :| p in s.pending && Covers(p, op);
    LoadingServesPending(s, id, sources, p, source);
    WeakerServes(Fire(s, SetupLoaded(id, sources)), source, Refreshing, p.initial, op.initial);
  }

  /** No request is lost: whatever was asked before the sources were known is waiting in the queue of every source it
      names as soon as they are, with a ticket if `WaitInitial` was to wait for it. */
  lemma EveryRequestIsServed(sources: seq<Source>, discovers: bool, hasInstalled: bool, events: seq<Event>, op: Op,
                             id: Id, found: seq<Source>, source: Source)
    requires op in Asked(Initial(sources, discovers, hasInstalled), [], events)
    requires var s := Run(Initial(sources, discovers, hasInstalled), events); Ready(s) && Enabled(s, SetupLoaded(id, found))
    requires source in found && Matches(op, source)
    ensures var s := Run(Initial(sources, discovers, hasInstalled), events);
      Serves(Fire(s, SetupLoaded(id, found)), source, WorkOf(op), op.initial)
  {
    hide Run, Asked, Initial, Invariant, OneEach, Covered, Serves, Fire, Enabled;
    var s := Run(Initial(sources, discovers, hasInstalled), events);
    InitialInvariant(sources, discovers, hasInstalled);
    RunInvariant(Initial(sources, discovers, hasInstalled), events);
    WaitingRequestsAreCovered(sources, discovers, hasInstalled, events, op);
    if op.refresh {
      LoadingServesCovered(s, id, found, op, source);
    } else {
      LoadingServesPending(s, id, found, op, source);
    }
  }

  // ---- fallbacks ---------------------------------------------------------------------------------

  /** A fallback for the source is waiting, or parked behind the lookups that are queued. */
  ghost predicate FallbackOwed(s: State, source: Source) {
    (source in s.parked && s.lookupQueue != []) || Serves(s, source, Fallback, false)
  }

  lemma FallbackAnswered(s: State, source: Source)
    requires QueuesOk(s) && Ready(s)
    ensures var t := ScheduleFallback(s, source);
      s.lookupQueue != [] || s.installed != [] ==> FallbackOwed(t, source)
  {
    hide QueuesOk, Schedule, Serves;
    ScheduleServes(s, source, Fallback, false);
  }

  lemma EndingKeepsServing(s: State, id: Id, source: Source, work: Work, initial: bool)
    requires Serves(s, source, work, initial) && id in s.jobs && s.jobs[id].begun
    ensures Serves(ToEnding(s, id), source, work, initial)
  {
    var x :| x in QueueOf(s, source) && ServesAt(s.jobs, x, work, initial);
    assert x in QueueOf(ToEnding(s, id), source) && ServesAt(ToEnding(s, id).jobs, x, work, initial);
  }

  lemma RememberReady(s: State, source: Source)
    requires QueuesOk(s) && Ready(s)
    ensures var t := Remember(s, source); QueuesOk(t) && Ready(t) && t.lookupQueue == s.lookupQueue && t.installed == s.installed
  {
    hide Queues;
  }

  lemma EndingParked(s: State, id: Id)
    ensures ToEnding(s, id).parked == s.parked && ToEnding(s, id).lookupQueue == s.lookupQueue
  {
  }

  /** A fallback that yields, and a recent scan that commits, leaves a fallback behind it: waiting, or parked until
      the installed lookups are done; unless nothing is installed or the coordinator is closing. */
  lemma EndingOwesFallback(s: State, id: Id, outcome: Outcome)
    requires Reached(s) && Ready(s) && Enabled(s, Finish(id, outcome)) && AsksForFallback(s.jobs[id], outcome)
    requires s.lookupQueue != [] || s.installed != []
    ensures FallbackOwed(Fire(s, Finish(id, outcome)), s.jobs[id].source)
  {
    hide Reached, QueuesOk, SetupsOk, ScheduleFallback, Remember, ToEnding, Serves;
    ReachedQueues(s);
    var source := s.jobs[id].source;
    KnownJob(s, id);
    RememberReady(s, source);
    FallbackAnswered(Remember(s, source), source);
    AskSpares(s, source, id);
    var t := AskFallback(s, source);
    EndingParked(t, id);
    if Serves(t, source, Fallback, false) {
      EndingKeepsServing(t, id, source, Fallback, false);
    }
  }

  lemma {:induction false} FallbacksKeepServing(s: State, order: seq<Source>, source: Source)
    requires QueuesOk(s) && Counted(s) && Ready(s) && s.lookupQueue == [] && Serves(s, source, Fallback, false)
    ensures Serves(ScheduleFallbacks(s, order), source, Fallback, false)
    decreases |order|
  {
    hide QueuesOk, Counted, Serves, Schedule, Scheduled;
    if order != [] {
      ScheduleFallbackGood(s, order[0]);
      ScheduledReady(s, ScheduleFallback(s, order[0]));
      ScheduledLookups(s, ScheduleFallback(s, order[0]));
      if s.installed != [] {
        ScheduleKeepsServing(s, order[0], Fallback, false, source, Fallback, false);
      }
      FallbacksKeepServing(ScheduleFallback(s, order[0]), order[1..], source);
    }
  }

  lemma {:induction false} FallbacksServe(s: State, order: seq<Source>, source: Source)
    requires QueuesOk(s) && Counted(s) && Ready(s) && s.lookupQueue == [] && s.installed != [] && source in order
    ensures Serves(ScheduleFallbacks(s, order), source, Fallback, false)
    decreases |order|
  {
    hide QueuesOk, Counted, Serves, Schedule, Scheduled;
    ScheduleFallbackGood(s, order[0]);
    ScheduledReady(s, ScheduleFallback(s, order[0]));
    ScheduledLookups(s, ScheduleFallback(s, order[0]));
    if source == order[0] {
      ScheduleServes(s, source, Fallback, false);
      FallbacksKeepServing(ScheduleFallback(s, order[0]), order[1..], source);
    } else {
      FallbacksServe(ScheduleFallback(s, order[0]), order[1..], source);
    }
  }

  lemma ReleaseServes(s: State, order: seq<Source>, source: Source)
    requires Good(s) && Ready(s) && s.lookupQueue == [] && source in order
    ensures var t := ScheduleFallbacks(s, order); t.lookupQueue == [] && t.installed == s.installed
    ensures s.installed != [] ==> Serves(ScheduleFallbacks(s, order), source, Fallback, false)
  {
    hide QueuesOk, Counted, SetupsOk, ScheduleFallbacks, Scheduled, Serves;
    ScheduleFallbacksGood(s, order);
    ScheduledLookups(s, ScheduleFallbacks(s, order));
    if s.installed != [] {
      FallbacksServe(s, order, source);
    }
  }

  /** When the last queued lookup finishes, every parked source, and every source that ever had a fallback if the
      installed packages have changed, gets its fallback, unless nothing is installed. */
  lemma LastLookupReleases(s: State, id: Id, order: seq<Source>, source: Source)
    requires Invariant(s) && Ready(s) && Enabled(s, LookupFinish(id, order)) && |s.lookupQueue| == 1
    requires source in s.parked || ((s.installedChanged || s.lookups[id].stage.ok) && source in s.fallbackSources)
    ensures var t := Fire(s, LookupFinish(id, order));
      t.lookupQueue == [] && t.installed == s.installed && (s.installed != [] ==> Serves(t, source, Fallback, false))
  {
    hide Good, LookupsOk, JoinsKnown, ScheduleFallbacks, Serves, PopLookup, LetGo;
    PopKeeps(s, id);
    ReleaseServes(LetGo(PopLookup(s, id)), order, source);
  }

  lemma LongerQueueKeeps(s: State, id: Id, order: seq<Source>)
    requires Invariant(s) && Enabled(s, LookupFinish(id, order)) && |s.lookupQueue| > 1
    ensures var t := Fire(s, LookupFinish(id, order)); t.parked == s.parked && t.lookupQueue != []
  {
    hide Good, LookupsOk, JoinsKnown, ScheduleFallbacks, PopLookup, LetGo;
    PopKeeps(s, id);
  }

  /** Only a finishing lookup takes anything out of the parked set. */
  lemma OthersKeepParked(s: State, e: Event)
    requires Invariant(s) && Enabled(s, e) && !e.LookupFinish?
    ensures s.parked <= Fire(s, e).parked
  {
    hide Invariant, Fire, Enabled, SameLookups;
    match e
    case Stop => StopKeepsParked(s);
    case SetupLoaded(id, sources) => LoadedParked(s, id, sources);
    case Refresh(_) => RequestParked(s, e);
    case Retry(_) => RequestParked(s, e);
    case EnsureRange => RequestParked(s, e);
    case _ => OtherPending(s, e);
  }

  lemma SameParked(s: State, t: State)
    requires SameLookups(s, t)
    ensures s.parked <= t.parked
  {
  }

  lemma RequestParked(s: State, e: Event)
    requires Invariant(s) && Enabled(s, e) && (e.Refresh? || e.Retry? || e.EnsureRange?)
    ensures s.parked <= Fire(s, e).parked
  {
    hide Good, LookupsOk, JoinsKnown, SameLookups, Request;
    var op := match e case Refresh(initial) => Op(Every, true, initial) case Retry(source) => Op(source, true, true) case _ => Op(Every, false, true);
    var includes := match e case Refresh(initial) => initial case _ => true;
    RequestLookups(s, op, includes);
    SameParked(s, Request(s, op, includes));
  }

  lemma StopKeepsParked(s: State)
    requires Enabled(s, Stop)
    ensures Fire(s, Stop).parked == s.parked
  {
    hide EndedJobs;
  }

  lemma LoadedParked(s: State, id: Id, sources: seq<Source>)
    requires Invariant(s) && Enabled(s, SetupLoaded(id, sources))
    ensures s.parked <= Fire(s, SetupLoaded(id, sources)).parked
  {
    hide QueuesOk, Counted, LookupsOk, JoinsKnown, ScheduleAll, ScheduleOps, Scheduled;
    if !s.closed {
      KnownRoot(s, id);
      var t := s.(sources := sources, sourcesReady := true, pending := []);
      var op := Op(Every, true, s.setups[id].ticket.Some?);
      SourcesGood(s, sources);
      ScheduleAllGood(t, sources, op);
      ScheduledKeepsRoot(t, ScheduleAll(t, sources, op));
      ScheduledLookups(t, ScheduleAll(t, sources, op));
      ScheduleOpsGood(ScheduleAll(t, sources, op), s.pending);
      ScheduledLookups(ScheduleAll(t, sources, op), ScheduleOps(ScheduleAll(t, sources, op), s.pending));
    }
  }

  /** A parked source is owed its fallback through every event, until the lookups are done; then it has one, unless
      nothing is installed or the coordinator is closing. */
  lemma ParkedStaysOwed(s: State, e: Event, source: Source)
    requires Reached(s) && Enabled(s, e) && source in s.parked && Ready(Fire(s, e))
    ensures var t := Fire(s, e); FallbackOwed(t, source) || (t.lookupQueue == [] && t.installed == [])
  {
    hide Reached, Invariant, Fire, Serves;
    ReachedInvariant(s);
    var t := Fire(s, e);
    FireInvariant(s, e);
    if e.LookupFinish? {
      StaysReady(s, e);
      ParkedQueue(s, source);
      if |s.lookupQueue| == 1 {
        LastLookupReleases(s, e.id, e.order, source);
      } else {
        LongerQueueKeeps(s, e.id, e.order);
      }
    } else {
      OthersKeepParked(s, e);
      ParkedQueue(t, source);
    }
  }

  lemma ParkedQueue(s: State, source: Source)
    requires Invariant(s) && source in s.parked
    ensures s.lookupQueue != []
  {
    hide Good, JoinsKnown, Lookups;
  }

  lemma StaysReady(s: State, e: Event)
    requires Invariant(s) && Enabled(s, e) && e.LookupFinish? && Ready(Fire(s, e))
    ensures Ready(s)
  {
    hide Good, LookupsOk, JoinsKnown, ScheduleFallbacks, PopLookup, LetGo;
    PopKeeps(s, e.id);
    if PopLookup(s, e.id).lookupQueue == [] {
      ReleaseRoot(LetGo(PopLookup(s, e.id)), e.order);
    }
  }

  lemma ReleaseRoot(s: State, order: seq<Source>)
    requires Good(s)
    ensures Ready(ScheduleFallbacks(s, order)) == Ready(s)
  {
    hide QueuesOk, Counted, SetupsOk, ScheduleFallbacks, Scheduled;
    ScheduleFallbacksGood(s, order);
    ScheduledKeepsRoot(s, ScheduleFallbacks(s, order));
  }
}
