/** What holds in every state a run of the coordinator can reach. */
module CoordinatorTheorems {
  import opened Wrappers
  import opened CoordinatorSpec
  import opened CoordinatorQueues
  import opened CoordinatorCounts
  import opened CoordinatorSafety
  import opened CoordinatorLookups
  import opened CoordinatorRuns

  function Step(s: State, e: Event): State {
    if Enabled(s, e) then Fire(s, e) else s
  }

  /** Any interleaving of the coordinator's goroutines and its callers. */
  function Run(s: State, events: seq<Event>): State
    decreases |events|
  {
    if events == [] then s else Run(Step(s, events[0]), events[1..])
  }

  ghost predicate Reached(s: State) {
    exists sources: seq<Source>, discovers: bool, hasInstalled: bool, events: seq<Event> ::
      s == Run(Initial(sources, discovers, hasInstalled), events)
  }

  lemma {:induction false} RunSnoc(s: State, events: seq<Event>, e: Event)
    ensures Run(s, events + [e]) == Step(Run(s, events), e)
    decreases |events|
  {
    if events == [] {
      assert events + [e] == [e] && [e][1..] == [];
      assert Run(Step(s, e), []) == Step(s, e);
    } else {
      assert (events + [e])[1..] == events[1..] + [e];
      RunSnoc(Step(s, events[0]), events[1..], e);
    }
  }

  /** One more event of a run. */
  lemma ReachedStep(s: State, e: Event)
    requires Reached(s) && Enabled(s, e)
    ensures Reached(Fire(s, e))
  {
    hide Run, Fire, Enabled, Initial;
    var sources: seq<Source>, discovers: bool, hasInstalled: bool, events: seq<Event> :|
      s == Run(Initial(sources, discovers, hasInstalled), events);
    RunSnoc(Initial(sources, discovers, hasInstalled), events, e);
    assert Fire(s, e) == Run(Initial(sources, discovers, hasInstalled), events + [e]);
  }

  lemma ReachedInitial(sources: seq<Source>, discovers: bool, hasInstalled: bool)
    ensures Reached(Initial(sources, discovers, hasInstalled))
  {
    assert Run(Initial(sources, discovers, hasInstalled), []) == Initial(sources, discovers, hasInstalled);
  }

  lemma FireInvariant(s: State, e: Event)
    requires Invariant(s) && Enabled(s, e)
    ensures Invariant(Fire(s, e))
  {
    hide Invariant, Request, StartSetup, EnqueueLookup, FinishLookup, LeaveSetup, Shutdown;
    match e
    case OpenRoot(_) => RootInvariant(s, e);
    case CancelRoot => RootInvariant(s, e);
    case Stop => StopInvariant(s);
    case Start(initial) => StartInvariant(s, initial);
    case Refresh(initial) => RequestInvariant(s, Op(Every, true, initial), initial);
    case Retry(source) => RequestInvariant(s, Op(source, true, true), true);
    case EnsureRange => RequestInvariant(s, Op(Every, false, true), true);
    case RefreshInstalled => EnqueueInvariant(s, false);
    case CancelLookup(_) => StageInvariant(s, e);
    case LookupStart(_) => StageInvariant(s, e);
    case LookupStore(_, _) => StageInvariant(s, e);
    case LookupSettle(_) => StageInvariant(s, e);
    case LookupFinish(id, order) =>
      FinishLookupInvariant(s, id, order);
    case SetupCached(id) => CachedInvariant(s, id);
    case SetupFailed(id) => FailedInvariant(s, id);
    case SetupLoaded(id, sources) => LoadedInvariant(s, id, sources);
    case SetupJoined(id) => JoinedInvariant(s, id);
    case SetupDone(id) => SetupDoneInvariant(s, id);
    case _ => JobInvariant(s, e);
  }

  lemma InitialInvariant(sources: seq<Source>, discovers: bool, hasInstalled: bool)
    ensures Invariant(Initial(sources, discovers, hasInstalled))
  {
    var s := Initial(sources, discovers, hasInstalled);
    assert Holders(s.jobs) == {} && OpenJobs(s.jobs) == {} && OpenSetups(s.setups) == {};
  }

  lemma {:induction false} RunInvariant(s: State, events: seq<Event>)
    requires Invariant(s)
    ensures Invariant(Run(s, events))
    decreases |events|
  {
    hide Invariant, Fire, Enabled;
    if events != [] {
      if Enabled(s, events[0]) {
        FireInvariant(s, events[0]);
      }
      RunInvariant(Step(s, events[0]), events[1..]);
    }
  }

  lemma ReachedInvariant(s: State)
    requires Reached(s)
    ensures Invariant(s)
  {
    hide Invariant, Run, Initial;
    var sources: seq<Source>, discovers: bool, hasInstalled: bool, events: seq<Event> :|
      s == Run(Initial(sources, discovers, hasInstalled), events);
    InitialInvariant(sources, discovers, hasInstalled);
    RunInvariant(Initial(sources, discovers, hasInstalled), events);
  }

  lemma ReachedCounts(s: State)
    requires Reached(s)
    ensures Counted(s)
  {
    hide Reached, QueuesOk, Counted, SetupsOk, LookupsOk, JoinsKnown;
    ReachedInvariant(s);
  }

  lemma ReachedLookups(s: State)
    requires Reached(s)
    ensures LookupsOk(s)
  {
    hide Reached, Good, LookupsOk, JoinsKnown;
    ReachedInvariant(s);
  }

  lemma ReachedQueues(s: State)
    requires Reached(s)
    ensures QueuesOk(s) && SetupsOk(s)
  {
    hide Reached, QueuesOk, Counted, SetupsOk, LookupsOk, JoinsKnown;
    ReachedInvariant(s);
  }

  // ---- exclusion and priority --------------------------------------------------------------------

  /** A job that reserved its source, and so any job that began, is alone in that and first in its queue. */
  lemma OneReservedPerSource(s: State, a: Id, b: Id)
    requires Reached(s) && a in s.jobs && b in s.jobs && s.jobs[a].source == s.jobs[b].source
    requires (s.jobs[a].reserved || s.jobs[a].begun) && (s.jobs[b].reserved || s.jobs[b].begun)
    ensures a == b && QueueOf(s, s.jobs[a].source) != [] && QueueOf(s, s.jobs[a].source)[0] == a
  {
    hide Run, Initial;
    ReachedInvariant(s);
    KnownJob(s, a);
    KnownJob(s, b);
    var q := QueueOf(s, s.jobs[a].source);
    assert q[..1][0] == q[0];
  }

  function InRun(jobs: map<Id, Job>): set<Id> {
    set id | id in jobs && jobs[id].place.Running?
  }

  /** At most two jobs are inside `run`. */
  lemma AtMostTwoRun(s: State)
    requires Reached(s)
    ensures |InRun(s.jobs)| <= SLOTS
  {
    hide Reached, Counted, Holders;
    ReachedCounts(s);
    CountedSlots(s);
    FewerThan(InRun(s.jobs), Holders(s.jobs));
  }

  lemma CountedSlots(s: State)
    requires Counted(s)
    ensures |Holders(s.jobs)| <= SLOTS
    ensures InRun(s.jobs) <= Holders(s.jobs)
  {
  }

  lemma {:induction false} FewerThan<T>(a: set<T>, b: set<T>)
    requires a <= b
    ensures |a| <= |b|
  {
    if a != {} {
      var x :| x in a;
      FewerThan(a - {x}, b - {x});
    }
  }

  /** While the root context lives no refresh stands behind a fallback that has not reserved the source. */
  lemma NoRefreshBehindFallback(s: State, source: Source, i: nat, j: nat)
    requires Reached(s) && s.root.Live? && i < j < |QueueOf(s, source)|
    requires QueueOf(s, source)[i] in s.jobs && QueueOf(s, source)[j] in s.jobs
    requires s.jobs[QueueOf(s, source)[j]].work.Refreshing?
    ensures s.jobs[QueueOf(s, source)[i]].work.Fallback? ==> s.jobs[QueueOf(s, source)[i]].reserved
  {
    hide Run, Initial;
    ReachedInvariant(s);
    hide Counted, LookupsOk, SetupsOk, JoinsKnown, JobPlaced;
    assert LineOk(s.jobs, QueueOf(s, source), source, true);
    assert OvertakenAt(s.jobs, QueueOf(s, source)[i]) ==> !RefreshAt(s.jobs, QueueOf(s, source)[j]);
  }

  /** Each source has at most one waiting refresh and one waiting fallback. */
  lemma OneWaitingOfEach(s: State, a: Id, b: Id)
    requires Reached(s) && a in s.jobs && b in s.jobs && s.jobs[a].source == s.jobs[b].source
    requires Waiting(s.jobs[a]) && Waiting(s.jobs[b]) && s.jobs[a].work == s.jobs[b].work && !s.jobs[a].work.Ranging?
    ensures a == b
  {
    hide Run, Initial;
    ReachedInvariant(s);
    hide Counted, LookupsOk, SetupsOk, JoinsKnown;
    var q := QueueOf(s, s.jobs[a].source);
    assert LineOk(s.jobs, q, s.jobs[a].source, s.root.Live?);
    assert JobPlaced(s.root, s.nextId, q, a, s.jobs[a]) && JobPlaced(s.root, s.nextId, q, b, s.jobs[b]);
    assert Clash(s.jobs[a], s.jobs[b]);
  }

  // ---- accounting -------------------------------------------------------------------------------

  /** What `Wait` and `WaitInitial` wait for is exactly the work there is. */
  lemma CountersExact(s: State)
    requires Reached(s)
    ensures s.active == |s.jobs| + |s.lookupQueue| + |s.setups|
    ensures s.initialActive == |set id | id in s.jobs && s.jobs[id].ticket == Some(true)|
                               + |set id | id in s.setups && s.setups[id].ticket == Some(true)|
  {
    hide Reached;
    ReachedCounts(s);
    assert OpenJobs(s.jobs) == set id | id in s.jobs && s.jobs[id].ticket == Some(true);
    assert OpenSetups(s.setups) == set id | id in s.setups && s.setups[id].ticket == Some(true);
  }

  lemma WaitReturnsWhenDone(s: State)
    requires Reached(s)
    ensures s.active >= 0 && s.initialActive >= 0
    ensures s.active == 0 <==> s.jobs == map[] && s.lookupQueue == [] && s.setups == map[]
    ensures s.initialActive == 0 <==> (forall id | id in s.jobs :: s.jobs[id].ticket != Some(true))
                                      && (forall id | id in s.setups :: s.setups[id].ticket != Some(true))
  {
    hide Reached;
    ReachedCounts(s);
    assert |OpenJobs(s.jobs)| == 0 <==> OpenJobs(s.jobs) == {};
    assert |OpenSetups(s.setups)| == 0 <==> OpenSetups(s.setups) == {};
    assert forall id | id in s.jobs :: s.jobs[id].ticket == Some(true) <==> id in OpenJobs(s.jobs);
    assert forall id | id in s.setups :: s.setups[id].ticket == Some(true) <==> id in OpenSetups(s.setups);
  }

  // ---- installed lookups ------------------------------------------------------------------------

  /** The lookup that finishes is the head of the queue, which is what `runInstalled` removes unseen. */
  lemma FinishingLookupIsHead(s: State, id: Id, order: seq<Source>)
    requires Reached(s) && Enabled(s, LookupFinish(id, order))
    ensures s.lookupQueue != [] && s.lookupQueue[0] == id
  {
    hide Reached, Good, Lookups, JoinsKnown, IsPermutation, Released;
    ReachedInvariant(s);
    Head(s, id);
  }

  /** The finished lookups are all that were admitted but those in the queue. */
  lemma FinishedSplit(s: State, i: nat)
    requires LookupsOk(s) && i < |s.admitted|
    ensures |s.lookupQueue| <= |s.admitted| && (Finished(s, s.admitted[i]) <==> i < |s.admitted| - |s.lookupQueue|)
  {
    var q := s.lookupQueue;
    var k := |s.admitted| - |q|;
    assert forall y | 0 <= y < |q| :: q[y] == s.admitted[k + y];
    if i >= k {
      assert Stands(s.lookups, q, i - k);
    } else {
      assert s.admitted[i] in s.lookups && s.admitted[i] !in q;
    }
  }

  /** Lookups finish in the order in which they were admitted. */
  lemma LookupsFinishInOrder(s: State, i: nat, j: nat)
    requires Reached(s) && i < j < |s.admitted| && Finished(s, s.admitted[j])
    ensures Finished(s, s.admitted[i])
  {
    hide Reached, LookupsOk, Finished;
    ReachedLookups(s);
    FinishedSplit(s, i);
    FinishedSplit(s, j);
  }

  /** `InstalledSnapshot`, when it has one, returns what the most recently admitted lookup found. */
  lemma SnapshotIsLatestLookup(s: State)
    requires Reached(s)
    ensures s.admitted != [] ==> s.admitted[|s.admitted| - 1] in s.lookups
    ensures s.installedValid <==> s.admitted != [] && Landed(s.lookups[s.admitted[|s.admitted| - 1]])
    ensures s.installedValid ==> s.installed == s.lookups[s.admitted[|s.admitted| - 1]].packages
  {
    hide Run, Initial;
    ReachedInvariant(s);
    hide Good;
  }

  lemma BegunFallback(s: State, id: Id)
    requires id in s.jobs && !s.jobs[id].begun && s.jobs[id].work.Fallback? && id in Begin(s, id).jobs && Begin(s, id).jobs[id].begun
    ensures s.lookupQueue == [] && Begin(s, id).jobs[id].snapshot == s.installed && s.installed != []
  {
    hide SetJob, Unreserve;
    var j := s.jobs[id];
    SetJobAt(s, id, j.(place := Dropping));
    SetJobAt(s, id, j.(terminal := true, place := Dropping));
    SetJobAt(s, id, j.(begun := true, place := Running, snapshot := s.installed));
    UnreserveAt(s, id);
  }

  lemma SetJobAt(s: State, id: Id, j: Job)
    ensures id in SetJob(s, id, j).jobs && SetJob(s, id, j).jobs[id] == j
  {
  }

  lemma UnreserveAt(s: State, id: Id)
    requires id in s.jobs
    ensures id in Unreserve(s, id).jobs && Unreserve(s, id).jobs[id] == s.jobs[id].(reserved := false, place := Handing)
  {
  }

  /** A fallback begins only when every lookup admitted so far has finished, and gets the packages of the last
      that succeeded. */
  lemma FallbackBeginsSettled(s: State, id: Id)
    requires Reached(s) && Enabled(s, Proceed(id)) && s.jobs[id].work.Fallback?
    requires id in Begin(s, id).jobs && Begin(s, id).jobs[id].begun
    ensures s.lookupQueue == [] && (forall x | x in s.admitted :: Finished(s, x))
    ensures Begin(s, id).jobs[id].snapshot == Latest(s.lookups, s.admitted) != []
  {
    hide Reached, QueuesOk, SetupsOk, Begin, Finished, LookupsOk;
    ReachedQueues(s);
    ReachedLookups(s);
    KnownJob(s, id);
    BegunFallback(s, id);
    InstalledIsLatest(s);
    forall x | x in s.admitted ensures Finished(s, x) {
      var i :| 0 <= i < |s.admitted| && s.admitted[i] == x;
      FinishedSplit(s, i);
    }
  }

  lemma InstalledIsLatest(s: State)
    requires LookupsOk(s)
    ensures s.installed == Latest(s.lookups, s.admitted)
  {
  }
}
