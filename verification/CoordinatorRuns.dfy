/** Runs of the coordinator, and the invariants every run keeps. */
module CoordinatorRuns {
  import opened Wrappers
  import opened CoordinatorSpec
  import opened CoordinatorQueues
  import opened CoordinatorCounts
  import opened CoordinatorSafety
  import opened CoordinatorLookups

  function Target(stage: SetupStage): Option<Id> {
    match stage
    case Loading(joined, _) => joined
    case Joining(joined, _) => joined
    case Rejoining(retry) => Some(retry)
    case _ => None
  }

  /** A setup waits only for lookups that were admitted. */
  predicate JoinsKnown(setups: map<Id, Setup>, lookups: map<Id, Lookup>) {
    forall id | id in setups :: Target(setups[id].stage).Some? ==> Target(setups[id].stage).value in lookups
  }

  ghost predicate Invariant(s: State) {
    Good(s) && LookupsOk(s) && JoinsKnown(s.setups, s.lookups)
  }

  // ---- lookups over all events -----------------------------------------------------------------

  /** Events that leave the lookups alone. */
  predicate SameLookups(s: State, t: State) {
    && s.nextId <= t.nextId && t.lookupQueue == s.lookupQueue && t.lookups == s.lookups && t.admitted == s.admitted
    && t.installed == s.installed && t.installedValid == s.installedValid
    && s.parked <= t.parked && (t.parked == s.parked || s.lookupQueue != [])
  }

  predicate SameFrame(s: State, t: State) {
    t.root == s.root && t.closed == s.closed && t.pending == s.pending && t.setups == s.setups
  }

  lemma LookupsOnly(s: State, t: State)
    requires LookupsOk(s) && SameLookups(s, t)
    ensures LookupsOk(t)
  {
    hide InOrder, HeadReady, Held;
  }

  lemma ScheduledLookups(s: State, t: State)
    requires Scheduled(s, t) && (t.parked == s.parked || s.lookupQueue != [])
    ensures SameLookups(s, t) && SameFrame(s, t)
  {
  }

  lemma SameTrans(s: State, t: State, u: State)
    requires SameLookups(s, t) && SameLookups(t, u)
    ensures SameLookups(s, u)
  {
  }

  lemma RequestLookups(s: State, op: Op, includes: bool)
    requires Good(s)
    ensures SameLookups(s, Request(s, op, includes))
  {
    hide QueuesOk, Counted, SetupsOk, ScheduleAll, QueuePending, AwaitingSources, Scheduled;
    if s.closed || s.root.Unset? || AwaitingSources(s) {
    } else {
      ScheduleAllGood(s, s.sources, op);
      ScheduledLookups(s, ScheduleAll(s, s.sources, op));
    }
  }

  lemma SetJobLookups(s: State, id: Id, j: Job)
    ensures SameLookups(s, SetJob(s, id, j)) && SameFrame(s, SetJob(s, id, j))
  {
  }

  lemma AskLookups(s: State, source: Source)
    requires QueuesOk(s) && Counted(s)
    ensures SameLookups(s, AskFallback(s, source)) && SameFrame(s, AskFallback(s, source))
  {
    hide QueuesOk, Counted, ScheduleFallback, Scheduled;
    AskGood(s, source);
    ScheduledLookups(Remember(s, source), AskFallback(s, source));
  }

  lemma FinishLookups(s: State, id: Id, outcome: Outcome)
    requires QueuesOk(s) && Counted(s) && id in s.jobs
    ensures SameLookups(s, EndRun(s, id, outcome)) && SameFrame(s, EndRun(s, id, outcome))
  {
    hide QueuesOk, Counted, AskFallback, SetJob;
    AskLookups(s, s.jobs[id].source);
    var t := if AsksForFallback(s.jobs[id], outcome) then AskFallback(s, s.jobs[id].source) else s;
    if id in t.jobs {
      SetJobLookups(t, id, t.jobs[id].(place := Ending));
    }
  }

  lemma SlotLookups(s: State, id: Id, j: Job, slots: nat)
    ensures SameLookups(s, SetJob(s, id, j).(slots := slots)) && SameFrame(s, SetJob(s, id, j).(slots := slots))
  {
  }

  lemma UnreserveLookups(s: State, id: Id)
    requires id in s.jobs
    ensures SameLookups(s, Unreserve(s, id)) && SameFrame(s, Unreserve(s, id))
  {
    hide Rotate;
  }

  lemma BeginLookups(s: State, id: Id)
    requires id in s.jobs
    ensures SameLookups(s, Begin(s, id)) && SameFrame(s, Begin(s, id))
  {
    hide SetJob, Unreserve, SameLookups, SameFrame;
    var j := s.jobs[id];
    if j.cancelled {
      SetJobLookups(s, id, j.(place := Dropping));
    } else if j.work.Fallback? && s.lookupQueue != [] {
      UnreserveLookups(s, id);
    } else if j.work.Fallback? && s.installed == [] {
      SetJobLookups(s, id, j.(terminal := true, place := Dropping));
    } else {
      SetJobLookups(s, id, j.(begun := true, place := Running, snapshot := if j.work.Fallback? then s.installed else []));
    }
  }

  lemma TicketLookups(s: State, id: Id)
    requires id in s.jobs
    ensures SameLookups(s, CloseJobTicket(s, id)) && SameFrame(s, CloseJobTicket(s, id))
  {
  }

  lemma SameSelf(s: State)
    ensures SameLookups(s, s) && SameFrame(s, s)
  {
  }

  lemma CheckpointLookups(s: State, id: Id)
    requires id in s.jobs
    ensures SameLookups(s, Checkpoint(s, id)) && SameFrame(s, Checkpoint(s, id))
  {
    hide RefreshBehind, SetJob, CloseJobTicket, SameLookups, SameFrame;
    TicketLookups(s, id);
    SameSelf(s);
    SetJobLookups(s, id, s.jobs[id].(cancelled := true, yielded := true));
  }

  lemma RemoveLookups(s: State, id: Id)
    requires id in s.jobs
    ensures SameLookups(s, RemoveJob(s, id)) && SameFrame(s, RemoveJob(s, id))
  {
    hide Without;
  }

  lemma DepartLookups(s: State, id: Id)
    requires id in s.jobs
    ensures SameLookups(s, Depart(s, id)) && SameFrame(s, Depart(s, id))
  {
    hide RemoveJob, CloseJobTicket;
    SameSelf(s);
    TicketLookups(s, id);
    TicketKeepsJob(s, id);
    RemoveLookups(CompleteJobTicket(s, id), id);
  }

  lemma TicketKeepsJob(s: State, id: Id)
    requires id in s.jobs
    ensures id in CompleteJobTicket(s, id).jobs
  {
  }

  predicate JobEvent(e: Event) {
    e.Wake? || e.Acquire? || e.GiveUp? || e.Proceed? || e.Release? || e.Batch? || e.Finish? || e.Discard? || e.Done?
  }

  lemma JobLookups(s: State, e: Event)
    requires QueuesOk(s) && Counted(s) && Enabled(s, e) && JobEvent(e)
    ensures SameLookups(s, Fire(s, e)) && SameFrame(s, Fire(s, e))
  {
    hide QueuesOk, Counted, EndRun, Begin, Checkpoint, Depart, SameLookups, SameFrame, SetJob;
    match e
    case Proceed(id) => BeginLookups(s, id);
    case Batch(id) => CheckpointLookups(s, id);
    case Finish(id, outcome) => FinishLookups(s, id, outcome);
    case Done(id) => DepartLookups(s, id);
    case Acquire(id) => SlotLookups(s, id, s.jobs[id].(place := Slotted), s.slots + 1);
    case Release(id) => SlotLookups(s, id, s.jobs[id].(place := if s.jobs[id].place.Handing? then Queued else Leaving), s.slots - 1);
    case Wake(id) => SetJobLookups(s, id, if s.jobs[id].cancelled then s.jobs[id].(place := Leaving) else s.jobs[id].(reserved := true, place := Awaiting));
    case GiveUp(id) => SetJobLookups(s, id, s.jobs[id].(place := Leaving));
    case Discard(id) => SetJobLookups(s, id, s.jobs[id].(cancelled := true, place := Gone));
  }

  lemma EnqueueLookups(s: State, reusable: bool)
    requires LookupsOk(s)
    ensures LookupsOk(EnqueueLookup(s, reusable))
  {
    hide Lookups;
    var previous := if s.lookupQueue == [] then None else Some(s.lookupQueue[|s.lookupQueue| - 1]);
    EnqueueOk(s.nextId, s.lookupQueue, s.lookups, s.admitted, s.installed, s.installedValid,
              Lookup(previous, Idle, s.root.Dead?, reusable, []));
  }

  lemma StartLookupLookups(s: State)
    requires LookupsOk(s)
    ensures LookupsOk(StartLookup(s))
    ensures s.hasInstalled ==> Joined(s).Some? && Joined(s).value in StartLookup(s).lookups
    ensures forall id | id in s.lookups :: id in StartLookup(s).lookups
  {
    hide LookupsOk;
    EnqueueLookups(s, true);
  }

  lemma MarkLookups(s: State, t: State)
    requires LookupsOk(s) && t.lookups.Keys == s.lookups.Keys
    requires forall id | id in s.lookups :: t.lookups[id] == s.lookups[id].(cancelled := t.lookups[id].cancelled)
    requires SameLookups(s.(lookups := t.lookups), t)
    ensures LookupsOk(t)
  {
    hide Lookups;
    MarkOk(s.nextId, s.lookupQueue, s.lookups, s.admitted, s.installed, s.installedValid, t.lookups);
    LookupsOnly(s.(lookups := t.lookups), t);
  }

  /** What a stored head found is what is installed. */
  lemma StoredHeld(s: State, id: Id)
    requires LookupsOk(s) && s.lookupQueue != [] && s.lookupQueue[0] == id && id in s.lookups && Succeeded(s.lookups[id])
    ensures s.installed == s.lookups[id].packages
  {
    hide HeadReady, Latest, Distinct;
    var q, admitted := s.lookupQueue, s.admitted;
    HeadIndex(q, admitted);
    var k := |admitted| - |q|;
    forall i | k < i < |admitted| ensures !Succeeded(s.lookups[admitted[i]]) {
      assert Stands(s.lookups, q, i - k);
    }
    LatestHead(s.lookups, admitted, k);
  }

  /** An idle or active head beside an available snapshot would contradict that snapshot. */
  lemma NotYetValid(s: State, id: Id)
    requires LookupsOk(s) && s.lookupQueue != [] && s.lookupQueue[0] == id && id in s.lookups && !Succeeded(s.lookups[id])
    ensures !s.installedValid
  {
    HeadIndex(s.lookupQueue, s.admitted);
    assert Stands(s.lookups, s.lookupQueue, 0);
  }

  lemma SetStage(s: State, id: Id, l: Lookup, installed: seq<Package>, valid: bool)
    requires LookupsOk(s) && s.lookupQueue != [] && s.lookupQueue[0] == id && id in s.lookups
    requires !l.stage.Closed? && l.previous == s.lookups[id].previous
    requires if Succeeded(l) then installed == l.packages else installed == s.installed && !Succeeded(s.lookups[id])
    requires valid <==> |s.lookupQueue| == 1 && Landed(l)
    ensures LookupsOk(s.(lookups := s.lookups[id := l], installed := installed, installedValid := valid))
  {
    hide Lookups, Succeeded, Landed;
    HeadStepOk(s.nextId, s.lookupQueue, s.lookups, s.admitted, s.installed, s.installedValid, l, installed, valid);
  }

  lemma LookupStartOk(s: State, id: Id)
    requires LookupsOk(s) && Enabled(s, LookupStart(id))
    ensures LookupsOk(Fire(s, LookupStart(id)))
  {
    hide Lookups;
    HeadIdle(s, id);
    NotYetValid(s, id);
    SetStage(s, id, s.lookups[id].(stage := Active), s.installed, false);
  }

  lemma LookupStoreOk(s: State, id: Id, packages: seq<Package>)
    requires LookupsOk(s) && Enabled(s, LookupStore(id, packages))
    ensures LookupsOk(Fire(s, LookupStore(id, packages)))
  {
    hide Lookups;
    Head(s, id);
    NotYetValid(s, id);
    SetStage(s, id, s.lookups[id].(stage := Stored(packages), packages := packages), packages, false);
  }

  lemma LookupSettleOk(s: State, id: Id)
    requires LookupsOk(s) && Enabled(s, LookupSettle(id))
    ensures LookupsOk(Fire(s, LookupSettle(id)))
  {
    hide Lookups;
    Head(s, id);
    var l := s.lookups[id];
    var m := l.(stage := Settled(l.stage.Stored?), reusable := l.reusable && l.stage.Stored?);
    if l.stage.Stored? {
      StoredHeld(s, id);
      if |s.lookupQueue| != 1 {
        LongNotValid(s);
      }
      SetStage(s, id, m, s.installed, |s.lookupQueue| == 1);
    } else {
      NotYetValid(s, id);
      SetStage(s, id, m, s.installed, false);
    }
  }

  lemma LongNotValid(s: State)
    requires LookupsOk(s) && |s.lookupQueue| > 1
    ensures !s.installedValid
  {
  }

  lemma PopLookups(s: State, id: Id)
    requires LookupsOk(s) && s.lookupQueue != [] && s.lookupQueue[0] == id && id in s.lookups && s.lookups[id].stage.Settled?
    ensures var t := PopLookup(s, id); t.lookupQueue != [] ==> LookupsOk(t)
    ensures LookupsOk(LetGo(PopLookup(s, id)))
  {
    hide Lookups;
    var l := s.lookups[id].(stage := Closed(s.lookups[id].stage.ok), cancelled := true);
    PopOk(s.nextId, s.lookupQueue, s.lookups, s.admitted, s.installed, s.installedValid, l);
  }

  lemma FinishLookupLookups(s: State, id: Id, order: seq<Source>)
    requires Good(s) && LookupsOk(s) && Enabled(s, LookupFinish(id, order))
    ensures LookupsOk(Fire(s, LookupFinish(id, order)))
  {
    hide LookupsOk, ScheduleFallbacks, Good, PopLookup, LetGo;
    Head(s, id);
    PopLookups(s, id);
    PopKeeps(s, id);
    if PopLookup(s, id).lookupQueue == [] {
      ReleaseLookups(LetGo(PopLookup(s, id)), order);
    }
  }

  lemma ReleaseLookups(s: State, order: seq<Source>)
    requires Good(s) && LookupsOk(s) && s.lookupQueue == []
    ensures LookupsOk(ScheduleFallbacks(s, order))
  {
    hide LookupsOk, QueuesOk, Counted, ScheduleFallbacks, Scheduled;
    ScheduleFallbacksGood(s, order);
    ScheduledLookups(s, ScheduleFallbacks(s, order));
    LookupsOnly(s, ScheduleFallbacks(s, order));
  }

  // ---- every event -----------------------------------------------------------------------------

  lemma JoinsGrow(s: State, t: State)
    requires JoinsKnown(s.setups, s.lookups) && s.lookups.Keys <= t.lookups.Keys
    requires t.setups == s.setups
    ensures JoinsKnown(t.setups, t.lookups)
  {
    assert forall id | id in s.lookups :: id in t.lookups;
  }

  lemma JoinsSet(s: State, id: Id, u: Setup)
    requires JoinsKnown(s.setups, s.lookups) && (Target(u.stage).Some? ==> Target(u.stage).value in s.lookups)
    ensures JoinsKnown(s.setups[id := u], s.lookups)
  {
  }

  lemma SetSetupLookups(s: State, id: Id, u: Setup)
    ensures SameLookups(s, SetSetup(s, id, u))
  {
  }

  lemma SetSetupInvariant(s: State, id: Id, u: Setup)
    requires Invariant(s) && id in s.setups && u.ticket == s.setups[id].ticket
    requires Target(u.stage).Some? ==> Target(u.stage).value in s.lookups
    ensures Invariant(SetSetup(s, id, u))
  {
    hide Good, LookupsOk, JoinsKnown;
    SetSetupGood(s, id, u);
    SetSetupLookups(s, id, u);
    LookupsOnly(s, SetSetup(s, id, u));
    JoinsSet(s, id, u);
  }

  lemma StartLookupInvariant(s: State)
    requires Invariant(s)
    ensures var t := StartLookup(s); Invariant(t) && t.setups == s.setups
    ensures Joined(s).Some? ==> Joined(s).value in StartLookup(s).lookups
    ensures s.hasInstalled ==> Joined(s).Some?
  {
    hide Good, LookupsOk, JoinsKnown, EnqueueLookup;
    StartLookupGood(s);
    StartLookupLookups(s);
    assert s.lookups.Keys <= StartLookup(s).lookups.Keys;
    JoinsGrow(s, StartLookup(s));
  }

  lemma CachedInvariant(s: State, id: Id)
    requires Invariant(s) && Enabled(s, SetupCached(id))
    ensures Invariant(Fire(s, SetupCached(id)))
  {
    hide Invariant, StartLookup, Joined, Shared;
    StartLookupInvariant(s);
    if s.closed {
      SetSetupInvariant(s, id, s.setups[id].(stage := Finishing));
    } else {
      SetSetupInvariant(StartLookup(s), id, s.setups[id].(stage := Loading(Joined(s), Shared(s))));
    }
  }

  lemma StartedInvariant(s: State, started: bool)
    requires Invariant(s)
    ensures Invariant(s.(started := started))
  {
    hide Good, LookupsOk;
    StartedGood(s, started);
    LookupsOnly(s, s.(started := started));
  }

  lemma TargetKnown(s: State, id: Id)
    requires Invariant(s) && id in s.setups && Target(s.setups[id].stage).Some?
    ensures Target(s.setups[id].stage).value in s.lookups
  {
  }

  lemma FailedInvariant(s: State, id: Id)
    requires Invariant(s) && Enabled(s, SetupFailed(id))
    ensures Invariant(Fire(s, SetupFailed(id)))
  {
    hide Invariant;
    var u := s.setups[id];
    StartedInvariant(s, s.closed && s.started);
    if Target(u.stage).Some? {
      TargetKnown(s, id);
    }
    SetSetupInvariant(s.(started := s.closed && s.started), id, u.(stage := Joining(u.stage.joined, u.stage.reused)));
  }

  lemma JoinedInvariant(s: State, id: Id)
    requires Invariant(s) && Enabled(s, SetupJoined(id))
    ensures Invariant(Fire(s, SetupJoined(id)))
  {
    hide Invariant, StartLookup, Joined;
    var u := s.setups[id];
    StartLookupInvariant(s);
    SetSetupInvariant(s, id, u.(stage := Finishing));
    if s.hasInstalled {
      SetSetupInvariant(StartLookup(s), id, u.(stage := Rejoining(Joined(s).value)));
    }
  }

  lemma LoadedInvariant(s: State, id: Id, sources: seq<Source>)
    requires Invariant(s) && Enabled(s, SetupLoaded(id, sources))
    ensures Invariant(Fire(s, SetupLoaded(id, sources)))
  {
    hide QueuesOk, Counted, SetupsOk, LookupsOk, JoinsKnown, ScheduleAll, ScheduleOps, Scheduled;
    var u := s.setups[id];
    var v := u.(stage := Joining(u.stage.joined, u.stage.reused));
    if Target(u.stage).Some? {
      TargetKnown(s, id);
    }
    SetupLoadedGood(s, id, sources);
    if s.closed {
      SetSetupInvariant(s, id, v);
    } else {
      KnownRoot(s, id);
      var t := s.(sources := sources, sourcesReady := true, pending := []);
      SourcesGood(s, sources);
      LookupsOnly(s, t);
      var a := ScheduleAll(t, sources, Op(Every, true, u.ticket.Some?));
      ScheduleAllGood(t, sources, Op(Every, true, u.ticket.Some?));
      ScheduledKeepsRoot(t, a);
      ScheduledLookups(t, a);
      LookupsOnly(t, a);
      var b := ScheduleOps(a, s.pending);
      ScheduleOpsGood(a, s.pending);
      ScheduledTrans(t, a, b);
      ScheduledSetups(t, b);
      ScheduledLookups(a, b);
      LookupsOnly(a, b);
      JoinsGrow(s, b);
      SetSetupInvariant(b, id, v.(scheduled := true));
    }
  }

  lemma JoinsTicket(setups: map<Id, Setup>, setups': map<Id, Setup>, lookups: map<Id, Lookup>)
    requires JoinsKnown(setups, lookups)
    requires forall id | id in setups' :: Target(setups'[id].stage).Some? ==> id in setups && setups'[id].stage == setups[id].stage
    ensures JoinsKnown(setups', lookups)
  {
  }

  lemma SetupTicketLookups(s: State, id: Id)
    requires id in s.setups
    ensures SameLookups(s, CloseSetupTicket(s, id)) && id in CloseSetupTicket(s, id).setups
    ensures JoinsKnown(s.setups, s.lookups) ==> JoinsKnown(CloseSetupTicket(s, id).setups, CloseSetupTicket(s, id).lookups)
  {
    if JoinsKnown(s.setups, s.lookups) {
      JoinsTicket(s.setups, CloseSetupTicket(s, id).setups, s.lookups);
    }
  }

  lemma RemoveSetupLookups(s: State, id: Id)
    requires id in s.setups
    ensures SameLookups(s, RemoveSetup(s, id))
    ensures JoinsKnown(s.setups, s.lookups) ==> JoinsKnown(RemoveSetup(s, id).setups, RemoveSetup(s, id).lookups)
  {
    if JoinsKnown(s.setups, s.lookups) {
      JoinsTicket(s.setups, RemoveSetup(s, id).setups, s.lookups);
    }
  }

  lemma LeaveSetupLookups(s: State, id: Id)
    requires id in s.setups && JoinsKnown(s.setups, s.lookups)
    ensures SameLookups(s, LeaveSetup(s, id)) && JoinsKnown(LeaveSetup(s, id).setups, LeaveSetup(s, id).lookups)
  {
    hide JoinsKnown, SameLookups, RemoveSetup, CloseSetupTicket;
    SetupTicketLookups(s, id);
    RemoveSetupLookups(CompleteSetupTicket(s, id), id);
    SameSelf(s);
    SameTrans(s, CompleteSetupTicket(s, id), LeaveSetup(s, id));
  }

  lemma SetupDoneInvariant(s: State, id: Id)
    requires Invariant(s) && Enabled(s, SetupDone(id))
    ensures Invariant(Fire(s, SetupDone(id)))
  {
    hide Good, LookupsOk, JoinsKnown, SameLookups, LeaveSetup;
    SetupDoneGood(s, id);
    LeaveSetupLookups(s, id);
    LookupsOnly(s, LeaveSetup(s, id));
  }

  lemma StartSetupJoins(s: State, initial: bool)
    requires JoinsKnown(s.setups, s.lookups)
    ensures JoinsKnown(StartSetup(s, initial).setups, StartSetup(s, initial).lookups)
  {
    JoinsTicket(s.setups, StartSetup(s, initial).setups, s.lookups);
  }

  lemma IncludeJoins(s: State)
    requires JoinsKnown(s.setups, s.lookups)
    ensures JoinsKnown(IncludeSetup(s).setups, IncludeSetup(s).lookups)
  {
    hide OpenSetupTicket;
    if IncludeSetup(s) != s {
      OpenSetupJoins(s, s.setup.value);
    }
  }

  lemma OpenSetupJoins(s: State, id: Id)
    requires JoinsKnown(s.setups, s.lookups) && id in s.setups
    ensures JoinsKnown(OpenSetupTicket(s, id).setups, OpenSetupTicket(s, id).lookups)
  {
    JoinsTicket(s.setups, OpenSetupTicket(s, id).setups, s.lookups);
  }

  lemma PendingJoins(s: State, pending: seq<Op>)
    requires JoinsKnown(s.setups, s.lookups)
    ensures var t := s.(pending := pending); JoinsKnown(t.setups, t.lookups)
  {
  }

  lemma RequestJoins(s: State, op: Op, includes: bool)
    requires Good(s) && JoinsKnown(s.setups, s.lookups)
    ensures JoinsKnown(Request(s, op, includes).setups, Request(s, op, includes).lookups)
  {
    hide QueuesOk, Counted, SetupsOk, JoinsKnown, StartSetup, IncludeSetup, ScheduleAll, QueuePending, AwaitingSources, Scheduled;
    if s.closed || s.root.Unset? {
    } else if AwaitingSources(s) {
      var t := s.(pending := QueuePending(s.pending, op));
      PendingJoins(s, t.pending);
      StartSetupJoins(t, op.initial);
      IncludeJoins(t);
    } else {
      var t := ScheduleAll(s, s.sources, op);
      ScheduleAllGood(s, s.sources, op);
      ScheduledLookups(s, t);
      JoinsGrow(s, t);
    }
  }

  lemma RequestInvariant(s: State, op: Op, includes: bool)
    requires Invariant(s)
    ensures Invariant(Request(s, op, includes))
  {
    hide Good, LookupsOk, JoinsKnown, SameLookups, Request;
    RequestGood(s, op, includes);
    RequestLookups(s, op, includes);
    LookupsOnly(s, Request(s, op, includes));
    RequestJoins(s, op, includes);
  }

  lemma StartInvariant(s: State, initial: bool)
    requires Invariant(s) && !s.closed && !s.root.Unset?
    ensures Invariant(StartSetup(s, initial))
  {
    hide Good, LookupsOk, JoinsKnown;
    StartGood(s, initial);
    LookupsOnly(s, StartSetup(s, initial));
    StartSetupJoins(s, initial);
  }

  lemma EnqueueInvariant(s: State, reusable: bool)
    requires Invariant(s)
    ensures Invariant(EnqueueLookup(s, reusable))
  {
    hide Good, LookupsOk, JoinsKnown;
    EnqueueGood(s, reusable);
    EnqueueLookups(s, reusable);
    JoinsGrow(s, EnqueueLookup(s, reusable));
  }

  lemma RootInvariant(s: State, e: Event)
    requires Invariant(s) && Enabled(s, e) && (e.OpenRoot? || e.CancelRoot?)
    ensures Invariant(Fire(s, e))
  {
    hide Good, LookupsOk, Cancelled;
    RootGood(s, e);
    LookupsOnly(s, Fire(s, e));
  }

  lemma CloseDownLookups(s: State)
    ensures SameLookups(s, CloseDown(s)) && CloseDown(s).setups == s.setups
  {
    hide EndedJobs;
  }

  lemma CancelLookupsMarks(s: State)
    requires LookupsOk(s)
    ensures LookupsOk(CancelAllLookups(s)) && CancelAllLookups(s).lookups.Keys == s.lookups.Keys && CancelAllLookups(s).setups == s.setups
  {
    hide LookupsOk;
    MarkLookups(s, CancelAllLookups(s));
  }

  lemma StopInvariant(s: State)
    requires Invariant(s) && !s.closed
    ensures Invariant(Shutdown(s))
  {
    hide Good, LookupsOk, CloseDown, JoinsKnown, SameLookups, CancelAllLookups;
    StopGood(s);
    CloseDownLookups(s);
    LookupsOnly(s, CloseDown(s));
    CancelLookupsMarks(CloseDown(s));
    CloseDownKeys(s);
    JoinsGrow(s, Shutdown(s));
  }

  lemma CloseDownKeys(s: State)
    ensures CloseDown(s).lookups == s.lookups
  {
    hide EndedJobs;
  }

  lemma StageInvariant(s: State, e: Event)
    requires Invariant(s) && Enabled(s, e) && (e.CancelLookup? || e.LookupStart? || e.LookupStore? || e.LookupSettle?)
    ensures Invariant(Fire(s, e))
  {
    hide Good, LookupsOk, JoinsKnown;
    match e
    case CancelLookup(id) =>
      MarkLookups(s, Fire(s, e));
      LookupGood(s, Fire(s, e));
      JoinsGrow(s, Fire(s, e));
    case LookupStart(id) =>
      LookupStartOk(s, id);
      LookupGood(s, Fire(s, e));
      JoinsGrow(s, Fire(s, e));
    case LookupStore(id, packages) =>
      LookupStoreOk(s, id, packages);
      LookupGood(s, Fire(s, e));
      JoinsGrow(s, Fire(s, e));
    case LookupSettle(id) =>
      LookupSettleOk(s, id);
      LookupGood(s, Fire(s, e));
      JoinsGrow(s, Fire(s, e));
  }

  lemma FinishLookupInvariant(s: State, id: Id, order: seq<Source>)
    requires Invariant(s) && Enabled(s, LookupFinish(id, order))
    ensures Invariant(Fire(s, LookupFinish(id, order)))
  {
    hide Good, LookupsOk, JoinsKnown, FinishLookup;
    Head(s, id);
    FinishLookupGood(s, id, order);
    FinishLookupLookups(s, id, order);
    FinishLookupSetups(s, id, order);
    JoinsGrow(s, FinishLookup(s, id, order));
  }

  lemma FinishLookupSetups(s: State, id: Id, order: seq<Source>)
    requires Good(s) && Enabled(s, LookupFinish(id, order))
    ensures var t := Fire(s, LookupFinish(id, order)); t.setups == s.setups && s.lookups.Keys <= t.lookups.Keys
  {
    hide Good, ScheduleFallbacks, PopLookup, LetGo;
    PopKeeps(s, id);
    if PopLookup(s, id).lookupQueue == [] {
      ReleaseSetups(LetGo(PopLookup(s, id)), order);
    }
  }

  lemma ReleaseSetups(s: State, order: seq<Source>)
    requires Good(s) && s.lookupQueue == []
    ensures var t := ScheduleFallbacks(s, order); t.setups == s.setups && t.lookups == s.lookups
  {
    hide QueuesOk, Counted, SetupsOk, ScheduleFallbacks, Scheduled;
    ScheduleFallbacksGood(s, order);
    ScheduledLookups(s, ScheduleFallbacks(s, order));
  }

  lemma JobInvariant(s: State, e: Event)
    requires Invariant(s) && Enabled(s, e) && JobEvent(e)
    ensures Invariant(Fire(s, e))
  {
    hide QueuesOk, Counted, SetupsOk, LookupsOk, JoinsKnown, SameLookups, SameFrame, Fire, Enabled;
    var t := Fire(s, e);
    JobEventGood(s, e);
    JobLookups(s, e);
    LookupsOnly(s, t);
    FrameSetups(s, t);
    JoinsSame(s, t);
  }

  lemma FrameSetups(s: State, t: State)
    requires SetupsOk(s) && SameFrame(s, t) && SameLookups(s, t)
    ensures SetupsOk(t)
  {
  }

  lemma JoinsSame(s: State, t: State)
    requires JoinsKnown(s.setups, s.lookups) && SameLookups(s, t) && SameFrame(s, t)
    ensures JoinsKnown(t.setups, t.lookups)
  {
  }
}
