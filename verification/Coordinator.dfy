/** The coordinator itself. Each method is one critical section of the program, or a part of one, run under the lock, and
    does to the fields exactly what the state machine says. Whole critical sections take one state that a run can reach
    to another, so what is proved of reached states is true of the object. */
module Coordinators {
  import opened Wrappers
  import opened CoordinatorSpec
  import L = CoordinatorLookups
  import P = CoordinatorProgress
  import M = CoordinatorMeaning
  import T = CoordinatorTheorems

  class Coordinator {
    var root: Root
    var closed: bool
    var started: bool
    var sourcesReady: bool
    const hasInstalled: bool
    var nextId: Id
    var sources: seq<Source>
    var setup: Option<Id>
    var setups: map<Id, Setup>
    var pending: seq<Op>
    var queues: map<Source, seq<Id>>
    var jobs: map<Id, Job>
    var slots: nat
    var lookupQueue: seq<Id>
    var lookups: map<Id, Lookup>
    ghost var admitted: seq<Id>
    var installed: seq<Package>
    var installedValid: bool
    var installedChanged: bool
    var fallbackSources: set<Source>
    var parked: set<Source>
    var active: int
    var initialActive: int

    ghost function Abs(): State
      reads this
    {
      State(root, closed, started, sourcesReady, hasInstalled, nextId, sources, setup, setups, pending, queues, jobs, slots,
            lookupQueue, lookups, admitted, installed, installedValid, installedChanged, fallbackSources, parked, active, initialActive)
    }

    /** Some run of the state machine leads here. */
    ghost predicate Valid()
      reads this
    {
      T.Reached(Abs())
    }

    /** `New`. */
    constructor (sources: seq<Source>, discovers: bool, hasInstalled: bool)
      ensures Valid() && Abs() == Initial(sources, discovers, hasInstalled)
    {
      root, closed, started, sourcesReady, this.hasInstalled := Unset, false, false, !discovers, hasInstalled;
      nextId, this.sources, setup, setups, pending, queues, jobs, slots := 0, sources, None, map[], [], map[], map[], 0;
      lookupQueue, lookups, admitted, installed, installedValid, installedChanged := [], map[], [], [], false, false;
      fallbackSources, parked, active, initialActive := {}, {}, 0, 0;
      new;
      T.ReachedInitial(sources, discovers, hasInstalled);
    }

    // ---- scheduling ----------------------------------------------------------------------------

    method OpenJobTicket(id: Id)
      requires id in jobs
      modifies this`jobs, this`initialActive
      ensures Abs() == OpenTicket(old(Abs()), id)
    {
      initialActive := initialActive + 1;
      jobs := jobs[id := jobs[id].(ticket := Some(true))];
    }

    method PushJob(source: Source, work: Work, initial: bool, position: nat)
      requires position <= |Line(queues, source)|
      modifies this`jobs, this`queues, this`nextId, this`active, this`initialActive
      ensures var t := Admit(old(Abs()), source, work, initial, position);
        && jobs == t.jobs && queues == t.queues && nextId == t.nextId && active == t.active && initialActive == t.initialActive
    {
      var q := Line(queues, source);
      jobs := jobs[nextId := Job(source, work, if initial then Some(true) else None, !root.Live?, false, false, false, false, Queued, [])];
      queues := queues[source := q[..position] + [nextId] + q[position..]];
      nextId := nextId + 1;
      active := active + 1;
      if initial {
        initialActive := initialActive + 1;
      }
    }

    method AdmitJob(source: Source, work: Work, initial: bool, position: nat)
      requires position <= |Line(queues, source)|
      modifies this`jobs, this`queues, this`nextId, this`active, this`initialActive
      ensures Abs() == Admit(old(Abs()), source, work, initial, position)
    {
      hide Line, Insert, NewJob, Tickets;
      PushJob(source, work, initial, position);
    }

    /** `scheduleLocked`: join a waiting job of the same kind, or queue a new one; a refresh goes before the first
        fallback that has not reserved the source. */
    method ScheduleLocked(source: Source, work: Work, initial: bool)
      modifies this`jobs, this`queues, this`nextId, this`active, this`initialActive
      ensures Abs() == Schedule(old(Abs()), source, work, initial)
    {
      if closed {
        return;
      }
      var q := Line(queues, source);
      var n := 0;
      while n < |q| && !JoinsAt(jobs, q[n], work)
        invariant n <= |q| && JoinFrom(jobs, q, 0, work) == JoinFrom(jobs, q, n, work)
      {
        n := n + 1;
      }
      if n < |q| {
        if initial && jobs[q[n]].ticket.None? {
          OpenJobTicket(q[n]);
        }
        return;
      }
      var position := |q|;
      if work.Refreshing? {
        position := 0;
        while position < |q| && !OvertakenAt(jobs, q[position])
          invariant position <= |q| && PlaceFrom(jobs, q, 0) == PlaceFrom(jobs, q, position)
        {
          position := position + 1;
        }
      }
      AdmitJob(source, work, initial, position);
    }

    /** `scheduleOperationLocked`. */
    method ScheduleOperationLocked(op: Op)
      modifies this`jobs, this`queues, this`nextId, this`active, this`initialActive
      ensures Abs() == ScheduleAll(old(Abs()), old(sources), op)
    {
      hide Schedule;
      var i := 0;
      assert sources[0..] == sources;
      while i < |sources|
        invariant i <= |sources| && ScheduleAll(Abs(), sources[i..], op) == ScheduleAll(old(Abs()), old(sources), op)
      {
        assert sources[i..][1..] == sources[i + 1..];
        if op.source == Every || sources[i] == op.source {
          ScheduleLocked(sources[i], if op.refresh then Refreshing else Ranging, op.initial);
        }
        i := i + 1;
      }
    }

    /** `scheduleHistoricalFallbackLocked`. */
    method ScheduleHistoricalFallbackLocked(source: Source)
      modifies this`jobs, this`queues, this`nextId, this`active, this`initialActive, this`parked
      ensures Abs() == ScheduleFallback(old(Abs()), source)
    {
      hide Schedule;
      if closed || root.Unset? {
        return;
      }
      if lookupQueue != [] {
        parked := parked + {source};
        return;
      }
      if installed != [] {
        ScheduleLocked(source, Fallback, false);
      }
    }

    /** `scheduleHistoricalFallback`. */
    method ScheduleHistoricalFallback(source: Source)
      modifies this`jobs, this`queues, this`nextId, this`active, this`initialActive, this`parked, this`fallbackSources
      ensures Abs() == AskFallback(old(Abs()), source)
    {
      hide ScheduleFallback;
      fallbackSources := fallbackSources + {source};
      ScheduleHistoricalFallbackLocked(source);
    }

    // ---- requests ------------------------------------------------------------------------------

    /** `queuePendingLocked`: merge into a pending refresh, rely on a broader one, or append, dropping what the new one
        covers. */
    method QueuePendingLocked(op: Op)
      modifies this`pending
      ensures pending == QueuePending(old(pending), op)
    {
      if op.refresh {
        var i := 0;
        while i < |pending|
          invariant i <= |pending| && pending == old(pending) && MatchFrom(pending, op, 0) == MatchFrom(pending, op, i)
        {
          var p := pending[i];
          if p.refresh {
            if p.source == op.source {
              pending := pending[i := p.(initial := p.initial || op.initial)];
              return;
            }
            if p.source == Every && (!op.initial || p.initial) {
              return;
            }
          }
          i := i + 1;
        }
        if op.source == Every {
          var kept := [];
          var k := 0;
          while k < |pending|
            invariant k <= |pending| && pending == old(pending) && kept == Keep(pending[..k], op)
          {
            assert pending[..k + 1][..k] == pending[..k];
            if !pending[k].refresh || (!op.initial && pending[k].initial) {
              kept := kept + [pending[k]];
            }
            k := k + 1;
          }
          assert pending[..|pending|] == pending;
          pending := kept;
        }
      }
      pending := pending + [op];
    }

    /** `includeSetupInInitialLocked`. */
    method IncludeSetupInInitialLocked()
      modifies this`setups, this`initialActive
      ensures Abs() == IncludeSetup(old(Abs()))
    {
      if setup.Some? && setup.value in setups && setups[setup.value].ticket.None? {
        initialActive := initialActive + 1;
        setups := setups[setup.value := setups[setup.value].(ticket := Some(true))];
      }
    }

    method PushSetup(initial: bool)
      modifies this`started, this`nextId, this`setup, this`setups, this`active, this`initialActive
      ensures var t := StartSetup(old(Abs()), initial);
        && started == t.started && nextId == t.nextId && setup == t.setup && setups == t.setups && active == t.active
        && initialActive == t.initialActive
    {
      started := true;
      active := active + 1;
      var ticket := None;
      if initial {
        initialActive := initialActive + 1;
        ticket := Some(true);
      }
      setups := setups[nextId := Setup(ticket, false, Caching)];
      setup := Some(nextId);
      nextId := nextId + 1;
    }

    /** `startLocked`. */
    method StartLocked(initial: bool)
      modifies this`started, this`nextId, this`setup, this`setups, this`active, this`initialActive
      ensures Abs() == StartSetup(old(Abs()), initial)
    {
      hide Tickets;
      PushSetup(initial);
    }

    /** `Start`, once the root context is open. */
    method Start(initial: bool)
      requires Valid()
      modifies this
      ensures Valid()
      ensures Abs() == if Enabled(old(Abs()), CoordinatorSpec.Start(initial)) then Fire(old(Abs()), CoordinatorSpec.Start(initial)) else old(Abs())
    {
      hide StartSetup, T.Reached;
      if closed || root.Unset? || started {
        return;
      }
      StartLocked(initial);
      T.ReachedStep(old(Abs()), CoordinatorSpec.Start(initial));
    }

    method RefreshLocked(initial: bool)
      modifies this
      ensures Abs() == Request(old(Abs()), Op(Every, true, initial), initial)
    {
      hide StartSetup, IncludeSetup, ScheduleAll, QueuePending;
      if closed || root.Unset? {
        return;
      }
      var op := Op(Every, true, initial);
      if !sourcesReady || (setup.Some? && setup.value in setups && !setups[setup.value].scheduled) {
        QueuePendingLocked(op);
        if !started {
          StartLocked(initial);
        } else if initial {
          IncludeSetupInInitialLocked();
        }
        return;
      }
      ScheduleOperationLocked(op);
    }

    /** `refresh`: one refresh of every source. */
    method Refresh(initial: bool)
      requires Valid()
      modifies this
      ensures Valid()
      ensures Abs() == Request(old(Abs()), Op(Every, true, initial), initial)
      ensures M.Open(old(Abs())) && M.Known(old(Abs())) ==>
                forall source | source in old(sources) :: M.Expects(Abs(), source, Refreshing, initial)
      ensures M.Open(old(Abs())) && !M.Known(old(Abs())) ==> M.Kept(old(Abs()), Abs(), Op(Every, true, initial))
    {
      hide Request, T.Reached, M.Expects, M.Open, M.Known, M.Kept;
      RefreshLocked(initial);
      T.ReachedStep(old(Abs()), CoordinatorSpec.Refresh(initial));
      if M.Open(old(Abs())) {
        if M.Known(old(Abs())) {
          forall source | source in old(sources) ensures M.Expects(Abs(), source, Refreshing, initial) {
            M.RefreshServes(old(Abs()), initial, source);
          }
        } else {
          M.RefreshKept(old(Abs()), initial);
        }
      }
    }

    method RetryLocked(name: Source)
      modifies this
      ensures Abs() == Request(old(Abs()), Op(name, true, true), true)
    {
      hide StartSetup, IncludeSetup, ScheduleAll, QueuePending;
      if closed || root.Unset? {
        return;
      }
      var op := Op(name, true, true);
      if !sourcesReady || (setup.Some? && setup.value in setups && !setups[setup.value].scheduled) {
        QueuePendingLocked(op);
        if !started {
          StartLocked(true);
        } else {
          IncludeSetupInInitialLocked();
        }
        return;
      }
      ScheduleOperationLocked(op);
    }

    /** `Retry`: one refresh of one source. */
    method Retry(name: Source)
      requires Valid()
      modifies this
      ensures Valid()
      ensures Abs() == Request(old(Abs()), Op(name, true, true), true)
      ensures M.Open(old(Abs())) && M.Known(old(Abs())) ==>
                forall source | source in old(sources) && (name == Every || name == source) :: M.Expects(Abs(), source, Refreshing, true)
      ensures M.Open(old(Abs())) && !M.Known(old(Abs())) ==> M.Kept(old(Abs()), Abs(), Op(name, true, true))
    {
      hide Request, T.Reached, M.Expects, M.Open, M.Known, M.Kept;
      RetryLocked(name);
      T.ReachedStep(old(Abs()), CoordinatorSpec.Retry(name));
      if M.Open(old(Abs())) {
        if M.Known(old(Abs())) {
          forall source | source in old(sources) && (name == Every || name == source) ensures M.Expects(Abs(), source, Refreshing, true) {
            M.RetryServes(old(Abs()), name, source);
          }
        } else {
          M.RetryKept(old(Abs()), name);
        }
      }
    }

    method EnsureRangeLocked()
      modifies this
      ensures Abs() == Request(old(Abs()), Op(Every, false, true), true)
    {
      hide StartSetup, IncludeSetup, ScheduleAll;
      if closed || root.Unset? {
        return;
      }
      var op := Op(Every, false, true);
      if !sourcesReady || (setup.Some? && setup.value in setups && !setups[setup.value].scheduled) {
        pending := pending + [op];
        IncludeSetupInInitialLocked();
        return;
      }
      ScheduleOperationLocked(op);
    }

    /** `EnsureRange`: index a range of every source without a refresh. */
    method EnsureRange()
      requires Valid()
      modifies this
      ensures Valid()
      ensures Abs() == Request(old(Abs()), Op(Every, false, true), true)
      ensures M.Open(old(Abs())) && M.Known(old(Abs())) ==>
                forall source | source in old(sources) :: M.Expects(Abs(), source, Ranging, true)
      ensures M.Open(old(Abs())) && !M.Known(old(Abs())) ==> M.Kept(old(Abs()), Abs(), Op(Every, false, true))
    {
      hide Request, T.Reached, M.Expects, M.Open, M.Known, M.Kept;
      EnsureRangeLocked();
      T.ReachedStep(old(Abs()), CoordinatorSpec.EnsureRange);
      if M.Open(old(Abs())) {
        if M.Known(old(Abs())) {
          forall source | source in old(sources) ensures M.Expects(Abs(), source, Ranging, true) {
            M.RangeServes(old(Abs()), source);
          }
        } else {
          M.RangeKept(old(Abs()));
        }
      }
    }

    // ---- installed packages --------------------------------------------------------------------

    method PushLookup(reusable: bool)
      modifies this`nextId, this`lookups, this`lookupQueue, this`admitted, this`installedValid, this`active
      ensures var t := EnqueueLookup(old(Abs()), reusable);
        && nextId == t.nextId && lookups == t.lookups && lookupQueue == t.lookupQueue && admitted == t.admitted
        && installedValid == t.installedValid && active == t.active
    {
      var previous := None;
      if lookupQueue != [] {
        previous := Some(lookupQueue[|lookupQueue| - 1]);
      }
      lookups := lookups[nextId := Lookup(previous, Idle, root.Dead?, reusable, [])];
      lookupQueue := lookupQueue + [nextId];
      admitted := admitted + [nextId];
      installedValid := false;
      active := active + 1;
      nextId := nextId + 1;
    }

    /** `enqueueInstalledLocked`. */
    method EnqueueInstalledLocked(reusable: bool) returns (id: Id)
      modifies this`nextId, this`lookups, this`lookupQueue, this`admitted, this`installedValid, this`active
      ensures Abs() == EnqueueLookup(old(Abs()), reusable) && id == old(nextId)
    {
      id := nextId;
      PushLookup(reusable);
    }

    /** `startInstalledLocked`: share the last lookup if startup owns it and it may still succeed. */
    method StartInstalledLocked() returns (id: Option<Id>, reused: bool)
      modifies this`nextId, this`lookups, this`lookupQueue, this`admitted, this`installedValid, this`active
      ensures Abs() == StartLookup(old(Abs())) && id == Joined(old(Abs())) && reused == (hasInstalled && Shared(old(Abs())))
    {
      hide EnqueueLookup;
      if !hasInstalled {
        return None, false;
      }
      if lookupQueue != [] {
        var last := lookupQueue[|lookupQueue| - 1];
        if last in lookups && lookups[last].reusable && !lookups[last].cancelled {
          return Some(last), true;
        }
      }
      var added := EnqueueInstalledLocked(true);
      return Some(added), false;
    }

    /** `InstalledSnapshot`. */
    method InstalledSnapshot() returns (snapshot: Option<seq<Package>>)
      ensures snapshot.Some? <==> !closed && installedValid
      ensures snapshot.Some? ==> snapshot.value == installed
    {
      if closed || !installedValid {
        return None;
      }
      return Some(installed);
    }

    method StoreVerdict(id: Id)
      requires Enabled(Abs(), LookupSettle(id))
      modifies this`lookups, this`installedValid
      ensures var t := Fire(old(Abs()), LookupSettle(id)); lookups == t.lookups && installedValid == t.installedValid
    {
      var ok := lookups[id].stage.Stored?;
      lookups := lookups[id := lookups[id].(stage := Settled(ok), reusable := lookups[id].reusable && ok)];
      if |lookupQueue| == 1 {
        installedValid := ok;
      }
    }

    /** The first critical section of `runInstalled` after the lookup. */
    method SettleInstalled(id: Id)
      requires Valid() && Enabled(Abs(), LookupSettle(id))
      modifies this`lookups, this`installedValid
      ensures Valid() && Abs() == Fire(old(Abs()), LookupSettle(id))
    {
      hide T.Reached, Fire, Enabled;
      StoreVerdict(id);
      SettleFields(old(Abs()), id);
      T.ReachedStep(old(Abs()), LookupSettle(id));
    }

    method PopInstalled(id: Id)
      requires id in lookups && lookups[id].stage.Settled? && lookupQueue != []
      modifies this`lookups, this`lookupQueue, this`installedChanged, this`active
      ensures var t := PopLookup(old(Abs()), id);
        && lookups == t.lookups && lookupQueue == t.lookupQueue && installedChanged == t.installedChanged && active == t.active
      ensures lookupQueue == old(lookupQueue)[1..]
    {
      var ok := lookups[id].stage.ok;
      lookups := lookups[id := lookups[id].(stage := Closed(ok), cancelled := true)];
      if ok {
        installedChanged := true;
      }
      lookupQueue := lookupQueue[1..];
      active := active - 1;
    }

    method LetWaitingGo()
      modifies this`installedChanged, this`parked
      ensures Abs() == LetGo(old(Abs()))
    {
      installedChanged := false;
      parked := {};
    }

    /** Hand the waiting sources back to the scheduler, in no particular order. */
    method ReleaseWaiting(all: set<Source>) returns (order: seq<Source>)
      modifies this`jobs, this`queues, this`nextId, this`active, this`initialActive, this`parked
      ensures IsPermutation(order, all) && Abs() == ScheduleFallbacks(old(Abs()), order)
    {
      hide ScheduleFallback, ScheduleFallbacks, IsPermutation;
      order := [];
      NothingYet(old(Abs()));
      var waiting := all;
      assert all - waiting == {};
      while waiting != {}
        invariant waiting <= all && IsPermutation(order, all - waiting) && Abs() == ScheduleFallbacks(old(Abs()), order)
      {
        var source :| source in waiting;
        ScheduleHistoricalFallbackLocked(source);
        FallbacksSnoc(old(Abs()), order, source);
        PermutationSnoc(order, all - waiting, source);
        assert all - (waiting - {source}) == (all - waiting) + {source};
        waiting := waiting - {source};
        order := order + [source];
      }
      assert all - waiting == all;
    }

    method RemoveFinished(id: Id) returns (order: seq<Source>)
      requires id in lookups && lookups[id].stage.Settled? && lookupQueue != []
      modifies this
      ensures lookupQueue == old(lookupQueue)[1..]
      ensures lookupQueue == [] ==> IsPermutation(order, Released(PopLookup(old(Abs()), id)))
      ensures Abs() == FinishLookup(old(Abs()), id, order)
    {
      hide ScheduleFallbacks, PopLookup, LetGo, IsPermutation;
      order := [];
      PopInstalled(id);
      PopFields(old(Abs()), id);
      if lookupQueue == [] {
        var waiting := parked + if installedChanged then fallbackSources else {};
        LetWaitingGo();
        order := ReleaseWaiting(waiting);
      }
    }

    /** The last critical section of `runInstalled`: the queue loses its head whoever finishes, and the last lookup
        lets go of the sources that were waiting. */
    method FinishInstalled(id: Id) returns (order: seq<Source>)
      requires Valid() && LookupAt(Abs(), id) && lookups[id].stage.Settled?
      modifies this
      ensures Valid() && id == old(lookupQueue)[0] && lookupQueue == old(lookupQueue)[1..]
      ensures lookupQueue == [] ==> IsPermutation(order, Released(PopLookup(old(Abs()), id)))
      ensures Abs() == FinishLookup(old(Abs()), id, order)
    {
      hide T.Reached, ScheduleFallbacks, IsPermutation, Fire, Enabled;
      T.ReachedLookups(Abs());
      L.Head(Abs(), id);
      order := RemoveFinished(id);
      ghost var released := Released(PopLookup(old(Abs()), id));
      ghost var any := P.Listed(released);
      if lookupQueue == [] {
        any := order;
      }
      FinishFires(old(Abs()), id, any);
      T.ReachedStep(old(Abs()), LookupFinish(id, any));
    }

    // ---- discovery -----------------------------------------------------------------------------

    method PublishSources(found: seq<Source>) returns (waiting: seq<Op>)
      modifies this`sources, this`sourcesReady, this`pending
      ensures Abs() == Publish(old(Abs()), found) && waiting == old(pending)
    {
      sources := found;
      sourcesReady := true;
      waiting := pending;
      pending := [];
    }

    method CatchUpWith(found: seq<Source>, initial: bool)
      modifies this`sources, this`sourcesReady, this`pending, this`jobs, this`queues, this`nextId, this`active, this`initialActive
      ensures Abs() == CatchUp(old(Abs()), found, initial) && setups == old(setups)
    {
      hide ScheduleAll, ScheduleOps;
      var waiting := PublishSources(found);
      RefreshEach(initial);
      RunPending(waiting);
    }

    /** What discovery does under the lock when it succeeds: a refresh of every source, then the pending operations. */
    method LoadSources(id: Id, found: seq<Source>)
      requires Valid() && Enabled(Abs(), SetupLoaded(id, found))
      modifies this
      ensures Valid()
      ensures Abs() == Fire(old(Abs()), SetupLoaded(id, found))
    {
      hide CatchUp, SetSetup, T.Reached;
      T.ReachedStep(Abs(), SetupLoaded(id, found));
      var u := setups[id];
      var v := u.(stage := Joining(u.stage.joined, u.stage.reused));
      if closed {
        PutSetup(id, v);
        return;
      }
      CatchUpWith(found, u.ticket.Some?);
      PutSetup(id, v.(scheduled := true));
    }

    method PutSetup(id: Id, u: Setup)
      modifies this`setups
      ensures Abs() == SetSetup(old(Abs()), id, u)
    {
      setups := setups[id := u];
    }

    method RefreshEach(initial: bool)
      modifies this`jobs, this`queues, this`nextId, this`active, this`initialActive
      ensures Abs() == ScheduleAll(old(Abs()), old(sources), Op(Every, true, initial))
    {
      hide Schedule;
      var i := 0;
      assert sources[0..] == sources;
      while i < |sources|
        invariant i <= |sources|
        invariant ScheduleAll(Abs(), sources[i..], Op(Every, true, initial)) == ScheduleAll(old(Abs()), old(sources), Op(Every, true, initial))
      {
        assert sources[i..][1..] == sources[i + 1..];
        ScheduleLocked(sources[i], Refreshing, initial);
        i := i + 1;
      }
    }

    method RunPending(waiting: seq<Op>)
      modifies this`jobs, this`queues, this`nextId, this`active, this`initialActive
      ensures Abs() == ScheduleOps(old(Abs()), waiting)
    {
      hide ScheduleAll;
      var i := 0;
      assert waiting[0..] == waiting;
      while i < |waiting|
        invariant i <= |waiting| && ScheduleOps(Abs(), waiting[i..]) == ScheduleOps(old(Abs()), waiting)
      {
        assert waiting[i..][1..] == waiting[i + 1..];
        ScheduleOperationLocked(waiting[i]);
        i := i + 1;
      }
    }

    // ---- source jobs ---------------------------------------------------------------------------

    /** The wait of `work`: a job goes on when it is cancelled, or when it is at the head of its source's queue and, if
        it is a fallback, no lookup is queued. */
    method Awake(id: Id) returns (awake: bool)
      requires Valid() && id in jobs && jobs[id].place.Queued?
      modifies this`jobs
      ensures Valid()
      ensures awake <==> Enabled(old(Abs()), Wake(id))
      ensures jobs == if awake then Fire(old(Abs()), Wake(id)).jobs else old(jobs)
    {
      hide T.Reached;
      var j := jobs[id];
      var q := Line(queues, j.source);
      if !closed && !j.cancelled && (q == [] || q[0] != id || (j.work.Fallback? && lookupQueue != [])) {
        return false;
      }
      T.ReachedStep(Abs(), Wake(id));
      if j.cancelled {
        jobs := jobs[id := j.(place := Leaving)];
      } else {
        jobs := jobs[id := j.(reserved := true, place := Awaiting)];
      }
      return true;
    }

    /** The step back of `work`: the first refresh behind the head goes to the front. */
    method StepBack(id: Id)
      requires id in jobs
      modifies this`jobs, this`queues
      ensures var t := Unreserve(old(Abs()), id); jobs == t.jobs && queues == t.queues
    {
      var j := jobs[id];
      jobs := jobs[id := j.(reserved := false, place := Handing)];
      var q := Line(queues, j.source);
      var i := 1;
      while i < |q|
        invariant q != [] ==> 1 <= i <= |q| && RefreshFrom(old(jobs), q, 1) == RefreshFrom(old(jobs), q, i)
        invariant q == Line(queues, j.source) && queues == old(queues)
        invariant jobs == old(jobs)[id := j.(reserved := false, place := Handing)]
      {
        if RefreshAt(jobs, q[i]) {
          q := [q[i]] + q[..i] + q[i + 1..];
          break;
        }
        i := i + 1;
      }
      queues := PutLine(queues, j.source, q);
    }

    method GoOn(id: Id)
      requires Enabled(Abs(), CoordinatorSpec.Proceed(id))
      modifies this`jobs, this`queues
      ensures var t := Begin(old(Abs()), id); jobs == t.jobs && queues == t.queues
    {
      hide Rotate, PutLine;
      var j := jobs[id];
      if j.cancelled {
        jobs := jobs[id := j.(place := Dropping)];
        return;
      }
      if j.work.Fallback? && lookupQueue != [] {
        StepBack(id);
        return;
      }
      var snapshot := [];
      if j.work.Fallback? {
        if installed == [] {
          jobs := jobs[id := j.(terminal := true, place := Dropping)];
          return;
        }
        snapshot := installed;
      }
      jobs := jobs[id := j.(begun := true, place := Running, snapshot := snapshot)];
    }

    /** `work` with a slot in hand. */
    method Proceed(id: Id)
      requires Valid() && Enabled(Abs(), CoordinatorSpec.Proceed(id))
      modifies this`jobs, this`queues
      ensures Valid() && Abs() == Begin(old(Abs()), id)
    {
      hide T.Reached, Begin, Unreserve;
      GoOn(id);
      BeginFields(old(Abs()), id);
      T.ReachedStep(old(Abs()), CoordinatorSpec.Proceed(id));
    }

    /** `completeLocked` for a job's ticket. */
    method CompleteTicket(id: Id)
      requires id in jobs
      modifies this`jobs, this`initialActive
      ensures Abs() == CompleteJobTicket(old(Abs()), id)
    {
      if jobs[id].ticket == Some(true) {
        jobs := jobs[id := jobs[id].(ticket := Some(false))];
        initialActive := initialActive - 1;
      }
    }

    method YieldToRefresh(id: Id)
      requires id in jobs && jobs[id].work.Fallback?
      modifies this`jobs
      ensures Abs() == Checkpoint(old(Abs()), id)
    {
      var j := jobs[id];
      var q := Line(queues, j.source);
      var i := 0;
      while i < |q|
        invariant i <= |q| && jobs == old(jobs)
        invariant forall k | 0 <= k < i :: !(q[k] != id && RefreshAt(jobs, q[k]) && !jobs[q[k]].begun)
      {
        if q[i] != id && RefreshAt(jobs, q[i]) && !jobs[q[i]].begun {
          assert RefreshBehind(jobs, q, id);
          if !j.cancelled {
            jobs := jobs[id := j.(cancelled := true, yielded := true)];
          }
          return;
        }
        i := i + 1;
      }
      assert !RefreshBehind(jobs, q, id);
    }

    /** `yieldFallbackAtCheckpoint`. */
    method YieldFallbackAtCheckpoint(id: Id)
      requires Valid() && id in jobs && jobs[id].work.Fallback? && jobs[id].place.Running?
      modifies this`jobs
      ensures Valid() && Abs() == Checkpoint(old(Abs()), id)
    {
      hide T.Reached, Checkpoint, Fire, Enabled;
      BatchFires(Abs(), id);
      YieldToRefresh(id);
      T.ReachedStep(old(Abs()), Batch(id));
    }

    method CompleteAndTakeOut(id: Id)
      requires id in jobs
      modifies this
      ensures Abs() == Depart(old(Abs()), id)
    {
      hide RemoveJob, CompleteJobTicket, CloseJobTicket;
      TicketKeepsJob(Abs(), id);
      CompleteTicket(id);
      TakeOut(id);
    }

    /** `doneSourceJob`, after the job's context is cancelled. */
    method DoneSourceJob(id: Id)
      requires Valid() && id in jobs && jobs[id].place.Gone?
      modifies this
      ensures Valid() && Abs() == Depart(old(Abs()), id)
    {
      hide T.Reached, Depart, Fire, Enabled;
      DoneFires(Abs(), id);
      CompleteAndTakeOut(id);
      T.ReachedStep(old(Abs()), Done(id));
    }

    method TakeOut(id: Id)
      requires id in jobs
      modifies this`jobs, this`queues, this`active
      ensures Abs() == RemoveJob(old(Abs()), id)
    {
      var source := jobs[id].source;
      var q := Line(queues, source);
      var i := 0;
      while i < |q| && q[i] != id
        invariant i <= |q| && id !in q[..i]
      {
        i := i + 1;
      }
      WithoutFrom(q, id, i);
      if i < |q| {
        q := q[..i] + q[i + 1..];
      }
      if q == [] {
        queues := queues - {source};
      } else {
        queues := queues[source := q];
      }
      jobs := jobs - {id};
      active := active - 1;
    }

    // ---- shutdown ------------------------------------------------------------------------------

    method RefuseWork()
      modifies this`closed, this`pending, this`root, this`jobs
      ensures var t := CloseDown(old(Abs())); closed == t.closed && pending == t.pending && root == t.root && jobs == t.jobs
    {
      hide Cancelled;
      closed := true;
      pending := [];
      if !root.Unset? {
        root := Dead;
        jobs := Cancelled(jobs);
      }
    }

    method CloseUp()
      modifies this`closed, this`pending, this`root, this`jobs
      ensures Abs() == CloseDown(old(Abs()))
    {
      hide EndedJobs, Ended;
      RefuseWork();
    }

    method CancelLookups()
      modifies this`lookups
      ensures lookups == CancelAllLookups(old(Abs())).lookups
    {
      var i := 0;
      while i < |lookupQueue|
        invariant i <= |lookupQueue|
        invariant lookups == map id | id in old(lookups) :: old(lookups)[id].(cancelled := old(lookups)[id].cancelled || id in lookupQueue[..i])
      {
        var id := lookupQueue[i];
        if id in lookups {
          lookups := lookups[id := lookups[id].(cancelled := true)];
        }
        assert lookupQueue[..i + 1] == lookupQueue[..i] + [id];
        i := i + 1;
      }
      assert lookupQueue[..i] == lookupQueue;
    }

    method ShutDown()
      modifies this
      ensures Abs() == Shutdown(old(Abs()))
    {
      hide CloseDown;
      CloseUp();
      ghost var s := Abs();
      CancelLookups();
      hide CancelAllLookups;
      CancelledLookups(s);
    }

    /** `Stop`: refuse new work and cancel what there is. */
    method Stop()
      requires Valid()
      modifies this
      ensures Valid()
      ensures Abs() == if old(closed) then old(Abs()) else Shutdown(old(Abs()))
    {
      hide T.Reached, Shutdown, Fire, Enabled;
      if !closed {
        StopFires(Abs());
        ShutDown();
        T.ReachedStep(old(Abs()), CoordinatorSpec.Stop);
      }
    }
  }

  lemma CancelledLookups(s: State)
    ensures CancelAllLookups(s) == s.(lookups := CancelAllLookups(s).lookups)
  {
  }

  lemma TicketKeepsJob(s: State, id: Id)
    requires id in s.jobs
    ensures id in CompleteJobTicket(s, id).jobs
  {
  }

  lemma {:induction false} WithoutFrom(q: seq<Id>, id: Id, i: nat)
    requires i <= |q| && id !in q[..i] && (i < |q| ==> q[i] == id)
    ensures Without(q, id) == if i < |q| then q[..i] + q[i + 1..] else q
  {
    if q != [] && i > 0 {
      assert q[1..][..i - 1] == q[..i][1..] && q[0] == q[..i][0];
      WithoutFrom(q[1..], id, i - 1);
      if i < |q| {
        assert [q[0]] + (q[1..][..i - 1] + q[1..][i..]) == q[..i] + q[i + 1..];
      } else {
        assert [q[0]] + q[1..] == q;
      }
    }
  }

  lemma PopFields(s: State, id: Id)
    requires id in s.lookups && s.lookups[id].stage.Settled? && s.lookupQueue != []
    ensures var t := PopLookup(s, id);
      t == s.(lookups := t.lookups, lookupQueue := t.lookupQueue, installedChanged := t.installedChanged, active := t.active)
  {
  }

  lemma DoneFires(s: State, id: Id)
    requires id in s.jobs && s.jobs[id].place.Gone?
    ensures Enabled(s, Done(id)) && Fire(s, Done(id)) == Depart(s, id)
  {
    hide Depart;
  }

  lemma BatchFires(s: State, id: Id)
    requires id in s.jobs && s.jobs[id].place.Running?
    ensures Enabled(s, Batch(id)) && Fire(s, Batch(id)) == Checkpoint(s, id)
  {
    hide Checkpoint;
  }

  lemma StopFires(s: State)
    requires !s.closed
    ensures Enabled(s, Stop) && Fire(s, Stop) == Shutdown(s)
  {
    hide Shutdown;
  }

  lemma FinishFires(s: State, id: Id, order: seq<Source>)
    requires LookupAt(s, id) && s.lookups[id].stage.Settled? && IsPermutation(order, Released(PopLookup(s, id)))
    ensures Enabled(s, LookupFinish(id, order)) && Fire(s, LookupFinish(id, order)) == FinishLookup(s, id, order)
  {
    hide FinishLookup, IsPermutation;
  }

  lemma SettleFields(s: State, id: Id)
    requires Enabled(s, LookupSettle(id))
    ensures var t := Fire(s, LookupSettle(id)); t == s.(lookups := t.lookups, installedValid := t.installedValid)
  {
  }

  lemma BeginFields(s: State, id: Id)
    requires id in s.jobs
    ensures OnlyQueues(s, Begin(s, id))
  {
    hide SetJob, Unreserve, OnlyQueues;
    var j := s.jobs[id];
    UnreserveFields(s, id);
    SetJobFields(s, id, j.(place := Dropping));
    SetJobFields(s, id, j.(terminal := true, place := Dropping));
    SetJobFields(s, id, j.(begun := true, place := Running, snapshot := if j.work.Fallback? then s.installed else []));
  }

  predicate OnlyQueues(s: State, t: State) {
    t == s.(jobs := t.jobs, queues := t.queues)
  }

  lemma SetJobFields(s: State, id: Id, j: Job)
    ensures OnlyQueues(s, SetJob(s, id, j))
  {
  }

  lemma UnreserveFields(s: State, id: Id)
    requires id in s.jobs
    ensures OnlyQueues(s, Unreserve(s, id))
  {
    hide Rotate, PutLine;
  }

  lemma NothingYet(s: State)
    ensures IsPermutation([], {}) && ScheduleFallbacks(s, []) == s
  {
  }

  lemma PermutationSnoc(order: seq<Source>, of: set<Source>, source: Source)
    requires IsPermutation(order, of) && source !in of
    ensures IsPermutation(order + [source], of + {source})
  {
  }

  lemma {:induction false} FallbacksSnoc(s: State, order: seq<Source>, source: Source)
    ensures ScheduleFallbacks(s, order + [source]) == ScheduleFallback(ScheduleFallbacks(s, order), source)
    decreases |order|
  {
    hide ScheduleFallback;
    if order == [] {
      assert order + [source] == [source];
    } else {
      assert (order + [source])[1..] == order[1..] + [source];
      FallbacksSnoc(ScheduleFallback(s, order[0]), order[1..], source);
    }
  }
}
