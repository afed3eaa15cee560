/** The coordinator never wedges, and drains once it is stopped. */
module CoordinatorProgress {
  import opened Wrappers
  import opened CoordinatorSpec
  import opened CoordinatorQueues
  import opened CoordinatorCounts
  import opened CoordinatorSafety
  import opened CoordinatorLookups
  import opened CoordinatorRuns
  import opened CoordinatorTheorems

  /** Steps the goroutines take by themselves. */
  predicate Internal(e: Event) {
    e.LookupStart? || e.LookupStore? || e.LookupSettle? || e.LookupFinish? || e.SetupCached? || e.SetupFailed? || e.SetupLoaded?
    || e.SetupJoined? || e.SetupDone? || (JobEvent(e) && !e.Batch?)
  }

  ghost predicate Moves(s: State) {
    exists e: Event :: Internal(e) && Enabled(s, e)
  }

  lemma {:induction false} Listed(of: set<Source>) returns (order: seq<Source>)
    ensures IsPermutation(order, of)
  {
    if of == {} {
      order := [];
    } else {
      var x :| x in of;
      var rest := Listed(of - {x});
      order := rest + [x];
      assert forall i | 0 <= i < |rest| :: order[i] == rest[i] && rest[i] in rest;
    }
  }

  lemma LookupMoves(s: State)
    requires LookupsOk(s) && s.lookupQueue != []
    ensures Moves(s)
  {
    var id := s.lookupQueue[0];
    assert Stands(s.lookups, s.lookupQueue, 0);
    match s.lookups[id].stage
    case Idle => assert Enabled(s, LookupStart(id));
    case Active => assert Enabled(s, LookupSettle(id));
    case Stored(_) => assert Enabled(s, LookupSettle(id));
    case Settled(ok) =>
      var order := Listed(Released(s.(installedChanged := s.installedChanged || ok)));
      assert Enabled(s, LookupFinish(id, order));
  }

  lemma NoLookupLeft(s: State, id: Id)
    requires LookupsOk(s) && s.lookupQueue == [] && id in s.lookups
    ensures Finished(s, id)
  {
  }

  lemma SetupMoves(s: State, id: Id)
    requires LookupsOk(s) && JoinsKnown(s.setups, s.lookups) && s.lookupQueue == [] && id in s.setups
    ensures Moves(s)
  {
    hide LookupsOk;
    if Target(s.setups[id].stage).Some? {
      NoLookupLeft(s, Target(s.setups[id].stage).value);
    }
    match s.setups[id].stage
    case Caching => assert Enabled(s, SetupCached(id));
    case Loading(_, _) => assert Enabled(s, SetupFailed(id));
    case Joining(_, _) => assert Enabled(s, SetupJoined(id));
    case Rejoining(_) => assert Enabled(s, SetupJoined(id));
    case Finishing => assert Enabled(s, SetupDone(id));
  }

  lemma HolderMoves(s: State, id: Id)
    requires id in s.jobs && HoldsSlot(s.jobs[id]) && s.slots > 0
    ensures Moves(s)
  {
    if s.jobs[id].place.Slotted? {
      assert Enabled(s, Proceed(id));
    } else if s.jobs[id].place.Running? {
      assert Enabled(s, Finish(id, Failed));
    } else {
      assert Enabled(s, Release(id));
    }
  }

  lemma SlotTaken(s: State) returns (id: Id)
    requires Counted(s) && s.slots > 0
    ensures id in s.jobs && HoldsSlot(s.jobs[id])
  {
    assert Holders(s.jobs) != {};
    id :| id in Holders(s.jobs);
  }

  lemma HeadOf(s: State, id: Id) returns (head: Id)
    requires QueuesOk(s) && id in s.jobs
    ensures head in s.jobs && QueueOf(s, s.jobs[head].source) != [] && QueueOf(s, s.jobs[head].source)[0] == head
  {
    var q := QueueOf(s, s.jobs[id].source);
    assert JobPlaced(s.root, s.nextId, q, id, s.jobs[id]) && LineOk(s.jobs, q, s.jobs[id].source, s.root.Live?);
    head := q[0];
  }

  lemma JobMoves(s: State, id: Id)
    requires QueuesOk(s) && Counted(s) && s.lookupQueue == [] && id in s.jobs
    ensures Moves(s)
  {
    hide QueuesOk, Counted;
    var head := HeadOf(s, id);
    if HoldsSlot(s.jobs[head]) {
      SlotsInUse(s, head);
      HolderMoves(s, head);
    } else {
      match s.jobs[head].place
      case Queued => assert Enabled(s, Wake(head));
      case Leaving => assert Enabled(s, Discard(head));
      case Gone => assert Enabled(s, Done(head));
      case Awaiting =>
        if s.slots < SLOTS {
          assert Enabled(s, Acquire(head));
        } else {
          var holder := SlotTaken(s);
          HolderMoves(s, holder);
        }
    }
  }

  /** While there is work that `Wait` waits for, some goroutine can take a step: the coordinator never deadlocks,
      whatever was requested, cancelled or stopped before. */
  lemma NeverStuck(s: State)
    requires Reached(s) && s.active > 0
    ensures Moves(s)
  {
    hide Reached, QueuesOk, Counted, SetupsOk, LookupsOk, JoinsKnown, Moves;
    ReachedInvariant(s);
    WaitReturnsWhenDone(s);
    if s.lookupQueue != [] {
      LookupMoves(s);
    } else if s.setups != map[] {
      var id :| id in s.setups;
      SetupMoves(s, id);
    } else {
      var id :| id in s.jobs;
      JobMoves(s, id);
    }
  }

  // ---- draining ----------------------------------------------------------------------------------

  /** The most steps a cancelled job can still take. */
  function JobWeight(j: Job): nat {
    match j.place
    case Gone => 1
    case Leaving => 2
    case Queued => 3
    case Dropping => 3
    case Ending => 3
    case Handing => 4
    case Running => 4
    case Slotted => 4
    case Awaiting => 5
  }

  function LookupWeight(l: Lookup): nat {
    match l.stage
    case Idle => 4
    case Active => 3
    case Stored(_) => 2
    case Settled(_) => 1
    case Closed(_) => 0
  }

  function SetupWeight(u: Setup): nat {
    match u.stage
    case Finishing => 1
    case Joining(_, _) => 2
    case Rejoining(_) => 2
    case _ => 3
  }

  function Weigh<T>(m: map<Id, T>, weight: T -> nat, n: nat): nat {
    if n == 0 then 0 else Weigh(m, weight, n - 1) + if n - 1 in m then weight(m[n - 1]) else 0
  }

  lemma {:induction false} WeighSet<T>(m: map<Id, T>, weight: T -> nat, n: nat, id: Id, x: T)
    requires id < n && id in m
    ensures Weigh(m[id := x], weight, n) + weight(m[id]) == Weigh(m, weight, n) + weight(x)
  {
    if id < n - 1 {
      WeighSet(m, weight, n - 1, id, x);
    } else {
      WeighSame(m, m[id := x], weight, n - 1);
    }
  }

  lemma {:induction false} WeighRemove<T>(m: map<Id, T>, weight: T -> nat, n: nat, id: Id)
    requires id < n && id in m
    ensures Weigh(m - {id}, weight, n) + weight(m[id]) == Weigh(m, weight, n)
  {
    if id < n - 1 {
      WeighRemove(m, weight, n - 1, id);
    } else {
      WeighSame(m, m - {id}, weight, n - 1);
    }
  }

  lemma {:induction false} WeighSame<T>(m: map<Id, T>, t: map<Id, T>, weight: T -> nat, n: nat)
    requires forall k: Id | k < n :: (k in m <==> k in t) && (k in m ==> weight(m[k]) == weight(t[k]))
    ensures Weigh(m, weight, n) == Weigh(t, weight, n)
  {
    if n > 0 {
      WeighSame(m, t, weight, n - 1);
    }
  }

  /** An upper bound on the steps left once the coordinator is closed. */
  function Weight(s: State): nat {
    Weigh(s.jobs, JobWeight, s.nextId) + Weigh(s.lookups, LookupWeight, s.nextId) + Weigh(s.setups, SetupWeight, s.nextId)
  }

  lemma OneLess<T>(m: map<Id, T>, t: map<Id, T>, weight: T -> nat, n: nat, id: Id)
    requires id < n && id in m
    requires t == m - {id} || (id in t && t == m[id := t[id]] && weight(t[id]) < weight(m[id]))
    requires weight(m[id]) > 0
    ensures Weigh(t, weight, n) < Weigh(m, weight, n)
  {
    if t == m - {id} {
      WeighRemove(m, weight, n, id);
    } else {
      WeighSet(m, weight, n, id, t[id]);
    }
  }

  lemma Cancels(s: State, id: Id)
    requires Good(s) && s.closed && id in s.jobs
    ensures s.jobs[id].cancelled && id < s.nextId && JobOk(s.jobs[id])
  {
    assert JobPlaced(s.root, s.nextId, QueueOf(s, s.jobs[id].source), id, s.jobs[id]);
  }

  ghost predicate Less<T>(m: map<Id, T>, t: map<Id, T>, weight: T -> nat, id: Id) {
    id in m && weight(m[id]) > 0 && (t == m - {id} || (id in t && t == m[id := t[id]] && weight(t[id]) < weight(m[id])))
  }

  /** A step of a closed coordinator takes weight off one job, one lookup or one setup, and adds nothing. */
  ghost predicate Drains(s: State, t: State, id: Id) {
    && t.closed && t.nextId == s.nextId && id < s.nextId
    && ((Less(s.jobs, t.jobs, JobWeight, id) && t.lookups == s.lookups && t.setups == s.setups)
        || (Less(s.lookups, t.lookups, LookupWeight, id) && t.jobs == s.jobs && t.setups == s.setups)
        || (Less(s.setups, t.setups, SetupWeight, id) && t.jobs == s.jobs && t.lookups == s.lookups))
  }

  lemma DrainingWeighsLess(s: State, t: State, id: Id)
    requires Drains(s, t, id)
    ensures Weight(t) < Weight(s)
  {
    if Less(s.jobs, t.jobs, JobWeight, id) {
      OneLess(s.jobs, t.jobs, JobWeight, s.nextId, id);
    }
    if Less(s.lookups, t.lookups, LookupWeight, id) {
      OneLess(s.lookups, t.lookups, LookupWeight, s.nextId, id);
    }
    if Less(s.setups, t.setups, SetupWeight, id) {
      OneLess(s.setups, t.setups, SetupWeight, s.nextId, id);
    }
  }

  lemma SetJobDrains(s: State, t: State, id: Id, j: Job)
    requires s.closed && id in s.jobs && id < s.nextId && JobWeight(j) < JobWeight(s.jobs[id])
    requires t == SetJob(s, id, j).(slots := t.slots)
    ensures Drains(s, t, id)
  {
  }

  lemma EndDrains(s: State, id: Id, outcome: Outcome)
    requires s.closed && id in s.jobs && id < s.nextId && s.jobs[id].place.Running?
    ensures Drains(s, EndRun(s, id, outcome), id)
  {
    hide Weigh;
    var t := if AsksForFallback(s.jobs[id], outcome) then AskFallback(s, s.jobs[id].source) else s;
    assert t.jobs == s.jobs && t.lookups == s.lookups && t.setups == s.setups && t.nextId == s.nextId && t.closed;
    EndingFields(t, id);
  }

  lemma EndingFields(s: State, id: Id)
    requires id in s.jobs
    ensures var t := ToEnding(s, id);
      && t.jobs == s.jobs[id := s.jobs[id].(place := Ending)] && t.lookups == s.lookups && t.setups == s.setups
      && t.nextId == s.nextId && t.closed == s.closed
  {
  }

  lemma DoneDrains(s: State, id: Id)
    requires s.closed && id in s.jobs && id < s.nextId
    ensures Drains(s, Depart(s, id), id)
  {
    hide Weigh, RemoveJob, CloseJobTicket;
    DepartFields(s, id);
  }

  lemma DepartFields(s: State, id: Id)
    requires id in s.jobs
    ensures var t := Depart(s, id);
      t.jobs == s.jobs - {id} && t.lookups == s.lookups && t.setups == s.setups && t.nextId == s.nextId && t.closed == s.closed
  {
    hide RemoveJob, CompleteJobTicket, SameLookups, SameFrame;
    DepartQueues(s, id);
    DepartLookups(s, id);
    assert SameLookups(s, Depart(s, id)) && SameFrame(s, Depart(s, id));
    FrameFields(s, Depart(s, id));
  }

  lemma FrameFields(s: State, t: State)
    requires SameLookups(s, t) && SameFrame(s, t)
    ensures t.lookups == s.lookups && t.setups == s.setups
  {
  }

  lemma SlotDrains(s: State, e: Event)
    requires Good(s) && s.closed && Enabled(s, e) && (e.Acquire? || e.Release?)
    ensures Drains(s, Fire(s, e), e.id)
  {
    hide Good, SetJob, Drains;
    Cancels(s, e.id);
    var j := s.jobs[e.id];
    SetJobDrains(s, Fire(s, e), e.id, j.(place := if e.Acquire? then Slotted else if j.place.Handing? then Queued else Leaving));
  }

  lemma MoveDrains(s: State, e: Event)
    requires Good(s) && s.closed && Enabled(s, e) && (e.Wake? || e.GiveUp? || e.Discard?)
    ensures Drains(s, Fire(s, e), e.id)
  {
    hide Good, SetJob, Drains;
    Cancels(s, e.id);
    var j := s.jobs[e.id];
    SetJobDrains(s, Fire(s, e), e.id, if e.Discard? then j.(cancelled := true, place := Gone) else j.(place := Leaving));
  }

  lemma ProceedDrains(s: State, id: Id)
    requires Good(s) && s.closed && Enabled(s, Proceed(id))
    ensures Drains(s, Fire(s, Proceed(id)), id)
  {
    hide Good, SetJob, Drains, Unreserve;
    Cancels(s, id);
    SetJobDrains(s, Fire(s, Proceed(id)), id, s.jobs[id].(place := Dropping));
  }

  lemma JobDrains(s: State, e: Event)
    requires Good(s) && s.closed && Enabled(s, e) && JobEvent(e) && !e.Batch?
    ensures Drains(s, Fire(s, e), e.id)
  {
    hide Good, Drains, EndRun, Depart, Begin;
    Cancels(s, e.id);
    if e.Proceed? {
      ProceedDrains(s, e.id);
    } else if e.Finish? {
      EndDrains(s, e.id, e.outcome);
    } else if e.Done? {
      DoneDrains(s, e.id);
    } else if e.Acquire? || e.Release? {
      SlotDrains(s, e);
    } else {
      MoveDrains(s, e);
    }
  }

  lemma {:induction false} ClosedSchedulesNothing(s: State, order: seq<Source>)
    requires s.closed
    ensures ScheduleFallbacks(s, order) == s
    decreases |order|
  {
    if order != [] {
      ClosedSchedulesNothing(s, order[1..]);
    }
  }

  lemma LookupDrains(s: State, e: Event)
    requires LookupsOk(s) && s.closed && Enabled(s, e) && (e.LookupStart? || e.LookupStore? || e.LookupSettle?)
    ensures Drains(s, Fire(s, e), e.id)
  {
    hide LookupsOk;
    KnownLookup(s, e.id);
  }

  lemma FinishDrains(s: State, id: Id, order: seq<Source>)
    requires LookupsOk(s) && s.closed && Enabled(s, LookupFinish(id, order))
    ensures Drains(s, Fire(s, LookupFinish(id, order)), id)
  {
    hide ScheduleFallbacks, Lookups;
    Head(s, id);
    KnownLookup(s, id);
    var ok := s.lookups[id].stage.ok;
    var t := s.(lookups := s.lookups[id := s.lookups[id].(stage := Closed(ok), cancelled := true)],
                lookupQueue := s.lookupQueue[1..], installedChanged := s.installedChanged || ok, active := s.active - 1);
    ClosedSchedulesNothing(t.(installedChanged := false, parked := {}), order);
  }

  lemma KnownLookup(s: State, id: Id)
    requires LookupsOk(s) && id in s.lookups
    ensures id < s.nextId
  {
    assert id in s.admitted;
  }

  lemma SetSetupDrains(s: State, t: State, id: Id, u: Setup)
    requires s.closed && id in s.setups && id < s.nextId && SetupWeight(u) < SetupWeight(s.setups[id])
    requires t == SetSetup(s, id, u).(started := t.started)
    ensures Drains(s, t, id)
  {
  }

  lemma KnownSetup(s: State, id: Id)
    requires Good(s) && id in s.setups
    ensures id < s.nextId
  {
    hide QueuesOk, Counted;
  }

  lemma SetupDrains(s: State, e: Event)
    requires Good(s) && s.closed && Enabled(s, e)
    requires e.SetupCached? || e.SetupFailed? || e.SetupLoaded? || e.SetupJoined?
    ensures Drains(s, Fire(s, e), e.id)
  {
    hide Good, StartLookup, Joined, Shared, CatchUp, Drains, SetSetup;
    KnownSetup(s, e.id);
    var id, u, t := e.id, s.setups[e.id], Fire(s, e);
    match e
    case SetupCached(_) => SetSetupDrains(s, t, id, u.(stage := Finishing));
    case SetupFailed(_) => FailedDrains(s, id);
    case SetupLoaded(_, _) => SetSetupDrains(s, t, id, u.(stage := Joining(u.stage.joined, u.stage.reused)));
    case SetupJoined(_) => SetSetupDrains(s, t, id, u.(stage := Finishing));
  }

  lemma FailedDrains(s: State, id: Id)
    requires s.closed && Enabled(s, SetupFailed(id)) && id < s.nextId
    ensures Drains(s, Fire(s, SetupFailed(id)), id)
  {
    var u := s.setups[id];
    SetSetupDrains(s, Fire(s, SetupFailed(id)), id, u.(stage := Joining(u.stage.joined, u.stage.reused)));
  }

  lemma CloseTicketFields(s: State, id: Id)
    requires id in s.setups
    ensures var t := CloseSetupTicket(s, id);
      && id in t.setups && t.setups - {id} == s.setups - {id} && t.jobs == s.jobs && t.lookups == s.lookups
      && t.nextId == s.nextId && t.closed == s.closed
  {
  }

  lemma RemoveSetupFields(s: State, id: Id)
    requires id in s.setups
    ensures var t := RemoveSetup(s, id);
      && t.setups == s.setups - {id} && t.jobs == s.jobs && t.lookups == s.lookups
      && t.nextId == s.nextId && t.closed == s.closed
  {
  }

  lemma LeaveDrains(s: State, id: Id)
    requires Good(s) && s.closed && Enabled(s, SetupDone(id))
    ensures Drains(s, Fire(s, SetupDone(id)), id)
  {
    hide QueuesOk, Counted, CloseSetupTicket, RemoveSetup;
    CloseTicketFields(s, id);
    RemoveSetupFields(CompleteSetupTicket(s, id), id);
  }

  lemma InvariantParts(s: State)
    requires Invariant(s)
    ensures Good(s) && LookupsOk(s)
  {
  }

  lemma StepDrains(s: State, e: Event)
    requires Good(s) && LookupsOk(s) && s.closed && Internal(e) && Enabled(s, e)
    ensures Drains(s, Fire(s, e), e.id)
  {
    hide Good, LookupsOk, Fire, Enabled, Drains;
    if e.LookupFinish? {
      FinishDrains(s, e.id, e.order);
    } else if e.SetupDone? {
      LeaveDrains(s, e.id);
    } else if JobEvent(e) {
      JobDrains(s, e);
    } else if e.LookupStart? || e.LookupStore? || e.LookupSettle? {
      LookupDrains(s, e);
    } else {
      SetupDrains(s, e);
    }
  }

  /** Once closed, every step the goroutines can take brings the end nearer: with `NeverStuck`, `Close` returns as
      soon as the calls it waits for return. */
  lemma ClosedStepsDrain(s: State, e: Event)
    requires Reached(s) && s.closed && Internal(e) && Enabled(s, e)
    ensures Fire(s, e).closed && Weight(Fire(s, e)) < Weight(s)
  {
    hide Reached, Invariant, Fire, Enabled, Weight;
    ReachedInvariant(s);
    InvariantParts(s);
    StepDrains(s, e);
    DrainingWeighsLess(s, Fire(s, e), e.id);
  }

  /** A closed coordinator's batches are all that a job inside `run` can do besides ending: they put nothing off. */
  lemma BatchesDelayNothing(s: State, id: Id)
    requires Reached(s) && s.closed && Enabled(s, Batch(id))
    ensures Fire(s, Batch(id)).closed && Weight(Fire(s, Batch(id))) == Weight(s)
  {
    hide Reached, Checkpoint, JobWeight;
    BatchInPlace(s, id);
    var t := Checkpoint(s, id);
    forall k: Id | k in s.jobs ensures k in t.jobs && JobWeight(t.jobs[k]) == JobWeight(s.jobs[k]) {
      SameWeight(s.jobs[k], t.jobs[k]);
    }
    WeighSame(s.jobs, t.jobs, JobWeight, s.nextId);
  }

  lemma SameWeight(a: Job, b: Job)
    requires a.place == b.place
    ensures JobWeight(a) == JobWeight(b)
  {
  }

  /** Every job is where it was, and nothing else is touched. */
  predicate InPlace(s: State, t: State) {
    && t.jobs.Keys == s.jobs.Keys && (forall k | k in s.jobs :: t.jobs[k].place == s.jobs[k].place)
    && t.lookups == s.lookups && t.setups == s.setups && t.nextId == s.nextId && t.closed == s.closed
  }

  lemma BatchInPlace(s: State, id: Id)
    requires id in s.jobs
    ensures InPlace(s, Checkpoint(s, id))
  {
    hide RefreshBehind, SetJob, CloseJobTicket, InPlace;
    SelfInPlace(s);
    SetInPlace(s, id, s.jobs[id].(cancelled := true, yielded := true));
    CloseInPlace(s, id);
  }

  lemma SelfInPlace(s: State)
    ensures InPlace(s, s)
  {
  }

  lemma SetInPlace(s: State, id: Id, j: Job)
    requires id in s.jobs && j.place == s.jobs[id].place
    ensures InPlace(s, SetJob(s, id, j))
  {
  }

  lemma CloseInPlace(s: State, id: Id)
    requires id in s.jobs
    ensures InPlace(s, CloseJobTicket(s, id))
  {
  }
}
