/** Every waiter the download queue accepts is answered exactly once, in every run. */
module DownloadTheorems {
  import opened Wrappers
  import opened DownloadSpec

  predicate Distinct(q: seq<Waiter>) {
    forall i, j | 0 <= i < j < |q| :: q[i] != q[j]
  }

  /** The key table: each entry is a job with waiters under its own key, and each job with waiters is an entry. */
  predicate KeysOk(keys: map<Key, Id>, jobs: map<Id, Job>) {
    && (forall k | k in keys :: keys[k] in jobs && jobs[keys[k]].key == k && jobs[keys[k]].waiters != [])
    && (forall id | id in jobs && jobs[id].waiters != [] :: jobs[id].key in keys && keys[jobs[id].key] == id)
    && (forall id | id in jobs && !jobs[id].active :: jobs[id].waiters != [])
  }

  /** A waiter is attached to its home job exactly while it has no result. */
  predicate WaitersOk(jobs: map<Id, Job>, results: map<Waiter, seq<Result>>, home: map<Waiter, Id>) {
    && home.Keys == results.Keys
    && (forall id, w | id in jobs && w in jobs[id].waiters :: w in results && results[w] == [] && home[w] == id)
    && (forall id | id in jobs :: Distinct(jobs[id].waiters))
    && (forall w | w in results :: |results[w]| <= 1 && (results[w] == [] ==> home[w] in jobs && w in jobs[home[w]].waiters))
  }

  predicate Bounded(s: State) {
    && s.capacity > 0 && |Pending(s.jobs)| <= s.capacity && (s.closed ==> Pending(s.jobs) == {})
    && (forall id | id in s.jobs :: id <= s.next)
  }

  predicate Linked(s: State) {
    KeysOk(s.keys, s.jobs) && WaitersOk(s.jobs, s.results, s.home)
  }

  predicate Sound(s: State) {
    Linked(s) && Bounded(s)
  }

  predicate Holds(workers: map<Worker, Option<Id>>, k: Worker, id: Id) {
    k in workers && workers[k] == Some(id)
  }

  /** The active jobs are those the workers hold, one each. */
  ghost predicate Manned(jobs: map<Id, Job>, workers: map<Worker, Option<Id>>) {
    && (forall k, id | Holds(workers, k, id) :: id in jobs && jobs[id].active)
    && (forall k, l, id | Holds(workers, k, id) && Holds(workers, l, id) :: k == l)
    && (forall id | id in jobs && jobs[id].active :: exists k :: Holds(workers, k, id))
  }

  ghost predicate Staffed(s: State) {
    Manned(s.jobs, s.workers) && (s.returned ==> s.closed && s.workers == map[])
  }

  // ---- waiters -------------------------------------------------------------------------------

  lemma {:induction false} SendAllExact(results: map<Waiter, seq<Result>>, waiters: seq<Waiter>, r: Result)
    requires forall w | w in waiters :: w in results
    ensures var t := SendAll(results, waiters, r);
      && t.Keys == results.Keys
      && forall w | w in results :: t[w] == if w in waiters && results[w] == [] then [r] else results[w]
    decreases |waiters|
  {
    if waiters != [] {
      SendAllExact(Send(results, waiters[0], r), waiters[1..], r);
      assert waiters == [waiters[0]] + waiters[1..];
    }
  }

  lemma DistinctRest(waiters: seq<Waiter>)
    requires Distinct(waiters) && waiters != []
    ensures Distinct(waiters[1..]) && waiters[0] !in waiters[1..]
  {
    assert forall i | 0 <= i < |waiters[1..]| :: waiters[1..][i] == waiters[i + 1];
  }

  lemma DistinctCons(w: Waiter, q: seq<Waiter>)
    requires Distinct(q) && w !in q
    ensures Distinct([w] + q)
  {
  }

  lemma {:induction false} WithoutExact(waiters: seq<Waiter>, w: Waiter)
    requires Distinct(waiters)
    ensures Distinct(Without(waiters, w)) && forall x :: x in Without(waiters, w) <==> x in waiters && x != w
  {
    if waiters != [] {
      assert waiters == [waiters[0]] + waiters[1..];
      DistinctRest(waiters);
      WithoutExact(waiters[1..], w);
      if waiters[0] != w {
        DistinctCons(waiters[0], Without(waiters[1..], w));
      }
    }
  }

  lemma AttachWaiters(jobs: map<Id, Job>, results: map<Waiter, seq<Result>>, home: map<Waiter, Id>, id: Id, j: Job, w: Waiter)
    requires WaitersOk(jobs, results, home) && w !in results
    requires j.waiters == (if id in jobs then jobs[id].waiters else []) + [w]
    ensures WaitersOk(jobs[id := j], results[w := []], home[w := id])
  {
    var before := if id in jobs then jobs[id].waiters else [];
    assert forall x :: x in j.waiters <==> x in before || x == w;
    assert w !in before;
  }

  lemma DropWaiters(jobs: map<Id, Job>, results: map<Waiter, seq<Result>>, home: map<Waiter, Id>, id: Id, r: Result)
    requires WaitersOk(jobs, results, home) && id in jobs
    ensures WaitersOk(jobs - {id}, SendAll(results, jobs[id].waiters, r), home)
  {
    SendAllExact(results, jobs[id].waiters, r);
  }

  lemma LeaveWaiters(jobs: map<Id, Job>, results: map<Waiter, seq<Result>>, home: map<Waiter, Id>, id: Id, w: Waiter, j: Job)
    requires WaitersOk(jobs, results, home) && id in jobs && w in home && home[w] == id && results[w] == []
    requires j == jobs[id].(waiters := Without(jobs[id].waiters, w))
    ensures WaitersOk(jobs[id := j], Send(results, w, Cancelled), home)
    ensures j.waiters == [] ==> WaitersOk(jobs - {id}, Send(results, w, Cancelled), home)
  {
    WithoutExact(jobs[id].waiters, w);
    if j.waiters == [] {
      forall x | x in jobs[id].waiters ensures x == w {
        assert x !in j.waiters;
      }
    }
  }

  // ---- how many are pending --------------------------------------------------------------------

  lemma PendingAdd(jobs: map<Id, Job>, id: Id, j: Job)
    ensures Pending(jobs[id := j]) == if j.active then Pending(jobs) - {id} else Pending(jobs) + {id}
    ensures |Pending(jobs[id := j])| <= |Pending(jobs)| + 1
    ensures j.active || id in Pending(jobs) ==> |Pending(jobs[id := j])| <= |Pending(jobs)|
  {
    var t := Pending(jobs[id := j]);
    assert t == if j.active then Pending(jobs) - {id} else Pending(jobs) + {id};
  }

  lemma PendingDrop(jobs: map<Id, Job>, id: Id)
    ensures Pending(jobs - {id}) == Pending(jobs) - {id}
    ensures |Pending(jobs - {id})| == |Pending(jobs)| - if id in Pending(jobs) then 1 else 0
  {
  }

  // ---- events ----------------------------------------------------------------------------------

  lemma AttachSound(s: State, id: Id, priority: int, w: Waiter)
    requires Sound(s) && id in s.jobs && s.jobs[id].waiters != [] && w !in s.results
    ensures Sound(Attach(s, id, priority, w))
  {
    var t := Attach(s, id, priority, w);
    AttachWaiters(s.jobs, s.results, s.home, id, t.jobs[id], w);
    PendingAdd(s.jobs, id, t.jobs[id]);
  }

  lemma AddSound(s: State, key: Key, priority: int, w: Waiter)
    requires Sound(s) && !s.closed && key !in s.keys && w !in s.results && !IsFull(s)
    ensures Sound(Add(s, key, priority, w))
  {
    var j := Job(key, priority, [w], false);
    hide WaitersOk, KeysOk, Pending;
    assert s.next + 1 !in s.jobs;
    AttachWaiters(s.jobs, s.results, s.home, s.next + 1, j, w);
    PendingAdd(s.jobs, s.next + 1, j);
    AddKeys(s.keys, s.jobs, s.next + 1, j);
  }

  lemma AddKeys(keys: map<Key, Id>, jobs: map<Id, Job>, id: Id, j: Job)
    requires KeysOk(keys, jobs) && id !in jobs && j.key !in keys && j.waiters != []
    ensures KeysOk(keys[j.key := id], jobs[id := j])
  {
  }

  lemma DropLinked(s: State, id: Id, r: Result)
    requires Linked(s) && id in Pending(s.jobs)
    ensures Linked(Drop(s, id, r))
  {
    DropWaiters(s.jobs, s.results, s.home, id, r);
    hide WaitersOk;
  }

  lemma DropSound(s: State, id: Id, r: Result)
    requires Sound(s) && id in Pending(s.jobs)
    ensures Sound(Drop(s, id, r)) && Pending(Drop(s, id, r).jobs) == Pending(s.jobs) - {id} && !IsFull(Drop(s, id, r))
    ensures Drop(s, id, r).results.Keys == s.results.Keys && Drop(s, id, r).keys.Keys <= s.keys.Keys
  {
    DropWaiters(s.jobs, s.results, s.home, id, r);
    SendAllExact(s.results, s.jobs[id].waiters, r);
    PendingDrop(s.jobs, id);
  }

  lemma EnqueueSound(s: State, key: Key, priority: int, w: Waiter, victim: Id)
    requires Sound(s) && Enabled(s, Enqueue(key, priority, w, victim))
    ensures Sound(Enqueued(s, key, priority, w, victim))
  {
    hide WaitersOk;
    if s.closed {
    } else if key in s.keys && s.keys[key] in s.jobs {
      AttachSound(s, s.keys[key], priority, w);
    } else if !IsFull(s) {
      AddSound(s, key, priority, w);
    } else if Displaces(s, priority, victim) {
      assert Pending(s.jobs) != {};
      DropSound(s, victim, Displaced);
      AddSound(Drop(s, victim, Displaced), key, priority, w);
    }
  }

  lemma LeaveKeys(keys: map<Key, Id>, jobs: map<Id, Job>, id: Id, j: Job)
    requires KeysOk(keys, jobs) && id in jobs && j.key == jobs[id].key && j.active == jobs[id].active
    ensures j.waiters != [] && jobs[id].waiters != [] ==> KeysOk(keys, jobs[id := j])
    ensures j.waiters == [] && j.active && jobs[id].waiters != [] ==> KeysOk(keys - {j.key}, jobs[id := j])
    ensures jobs[id].waiters != [] ==> KeysOk(keys - {j.key}, jobs - {id})
    ensures j.waiters == [] && j.active && (j.key in keys ==> keys[j.key] != id) ==> KeysOk(keys, jobs[id := j])
  {
  }

  lemma CancelBounded(s: State, id: Id, w: Waiter)
    requires Bounded(s)
    ensures Bounded(Cancels(s, id, w))
  {
    if w in s.results && s.results[w] == [] && id in s.jobs {
      PendingAdd(s.jobs, id, s.jobs[id].(waiters := Without(s.jobs[id].waiters, w)));
      PendingDrop(s.jobs, id);
    }
  }

  lemma CancelSound(s: State, id: Id, w: Waiter)
    requires Sound(s) && Enabled(s, Cancel(id, w))
    ensures Sound(Cancels(s, id, w))
  {
    CancelBounded(s, id, w);
    if w in s.results && s.results[w] == [] && id in s.jobs {
      assert w in s.jobs[id].waiters;
      var j := s.jobs[id].(waiters := Without(s.jobs[id].waiters, w));
      LeaveWaiters(s.jobs, s.results, s.home, id, w, j);
      LeaveKeys(s.keys, s.jobs, id, j);
      hide WaitersOk, Bounded, Without, Send;
    }
  }

  /** A job that starts, or is raised, keeps its waiters. */
  lemma MoveWaiters(jobs: map<Id, Job>, results: map<Waiter, seq<Result>>, home: map<Waiter, Id>, id: Id, j: Job)
    requires WaitersOk(jobs, results, home) && id in jobs && j.waiters == jobs[id].waiters
    ensures WaitersOk(jobs[id := j], results, home)
  {
  }

  lemma FirstKnown(jobs: map<Id, Job>, id: Id)
    requires IsFirst(jobs, id)
    ensures id in jobs && !jobs[id].active
  {
  }

  lemma TakeSound(s: State, k: Worker, id: Id)
    requires Sound(s) && Enabled(s, Take(k, id))
    ensures Sound(Fire(s, Take(k, id)))
  {
    hide WaitersOk, KeysOk, IsFirst;
    FirstKnown(s.jobs, id);
    var j := s.jobs[id].(active := true);
    MoveWaiters(s.jobs, s.results, s.home, id, j);
    MoveKeys(s.keys, s.jobs, id, j);
    PendingAdd(s.jobs, id, j);
  }

  lemma MoveKeys(keys: map<Key, Id>, jobs: map<Id, Job>, id: Id, j: Job)
    requires KeysOk(keys, jobs) && id in jobs && j == jobs[id].(active := true)
    ensures KeysOk(keys, jobs[id := j])
  {
  }

  lemma FinishSound(s: State, id: Id, r: Result)
    requires Sound(s) && id in s.jobs
    ensures Sound(Finished(s, id, r))
  {
    DropWaiters(s.jobs, s.results, s.home, id, r);
    PendingDrop(s.jobs, id);
  }

  lemma {:induction false} DropAllSound(s: State, order: seq<Id>)
    requires Sound(s) && InOrder(s.jobs, order)
    ensures Sound(DropAll(s, order)) && Pending(DropAll(s, order).jobs) == {} && DropAll(s, order).closed == s.closed
    decreases |order|
  {
    hide Sound;
    if order != [] {
      DropSound(s, order[0], Shut);
      DropAllSound(Drop(s, order[0], Shut), order[1..]);
    }
  }

  lemma {:induction false} ShutMarks(s: State, order: seq<Id>)
    ensures DropAll(s.(closed := true), order) == DropAll(s, order).(closed := true)
    decreases |order|
  {
    if order != [] {
      ShutMarks(if order[0] in s.jobs then Drop(s, order[0], Shut) else s, order[1..]);
    }
  }

  lemma CloseSound(s: State, order: seq<Id>)
    requires Sound(s) && Enabled(s, Close(order))
    ensures Sound(Fire(s, Close(order))) && Pending(Fire(s, Close(order)).jobs) == {}
  {
    hide WaitersOk, KeysOk;
    ShutMarks(s, order);
    DropAllSound(s, order);
  }

  lemma FireSound(s: State, e: Event)
    requires Sound(s) && Enabled(s, e)
    ensures Sound(Fire(s, e))
  {
    hide Sound;
    match e
    case Enqueue(key, priority, w, victim) => EnqueueSound(s, key, priority, w, victim);
    case Cancel(id, w) => CancelSound(s, id, w);
    case Take(k, id) => TakeSound(s, k, id);
    case Finish(k, r) =>
      FinishSound(s, s.workers[k].value, r);
      WorkersApart(Finished(s, s.workers[k].value, r), s.workers[k := None], s.returned);
    case Exit(k) => WorkersApart(s, s.workers - {k}, s.returned);
    case Close(order) => CloseSound(s, order);
    case CloseReturns => WorkersApart(s, s.workers, true);
    case CloseAgain =>
  }

  /** Neither the jobs nor the waiters see which worker does what. */
  lemma WorkersApart(s: State, workers: map<Worker, Option<Id>>, returned: bool)
    requires Sound(s)
    ensures Sound(s.(workers := workers, returned := returned))
  {
    hide KeysOk, WaitersOk;
  }

  // ---- workers ---------------------------------------------------------------------------------

  /** What happens to pending jobs, and to the waiters of any job, is no matter of the workers. */
  lemma SameActive(s: State, t: State)
    requires Staffed(s) && t.workers == s.workers && t.returned == s.returned && (s.closed ==> t.closed)
    requires forall id | id in s.jobs && s.jobs[id].active :: id in t.jobs && t.jobs[id].active
    requires forall id | id in t.jobs && t.jobs[id].active :: id in s.jobs && s.jobs[id].active
    ensures Staffed(t)
  {
  }

  lemma TakeStaffed(s: State, k: Worker, id: Id)
    requires Staffed(s) && Enabled(s, Take(k, id))
    ensures Staffed(Fire(s, Take(k, id)))
  {
    hide IsFirst;
    FirstKnown(s.jobs, id);
    var t := Start(s, k, id);
    forall other | other in t.jobs && t.jobs[other].active ensures exists l :: Holds(t.workers, l, other) {
      if other == id {
        assert Holds(t.workers, k, id);
      } else {
        var l :| Holds(s.workers, l, other);
        assert Holds(t.workers, l, other);
      }
    }
    forall l, other | Holds(t.workers, l, other) ensures (l == k && other == id) || Holds(s.workers, l, other) {
    }
  }

  lemma FinishStaffed(s: State, k: Worker, r: Result)
    requires Staffed(s) && Enabled(s, Finish(k, r))
    ensures Staffed(Fire(s, Finish(k, r)))
  {
    var id := s.workers[k].value;
    var t := Fire(s, Finish(k, r));
    assert Holds(s.workers, k, id);
    forall l, other | Holds(t.workers, l, other) ensures other in t.jobs && t.jobs[other].active && Holds(s.workers, l, other) {
      assert l != k && Holds(s.workers, l, other);
    }
    forall other | other in t.jobs && t.jobs[other].active ensures exists l :: Holds(t.workers, l, other) {
      var l :| Holds(s.workers, l, other);
      assert Holds(t.workers, l, other);
    }
  }

  lemma ExitStaffed(s: State, k: Worker)
    requires Staffed(s) && Enabled(s, Exit(k))
    ensures Staffed(Fire(s, Exit(k)))
  {
    var t := Fire(s, Exit(k));
    forall l, other ensures Holds(t.workers, l, other) <==> Holds(s.workers, l, other) {
    }
  }

  lemma EnqueueActive(s: State, key: Key, priority: int, w: Waiter, victim: Id)
    requires Sound(s) && Staffed(s) && Enabled(s, Enqueue(key, priority, w, victim))
    ensures Staffed(Enqueued(s, key, priority, w, victim))
  {
    hide WaitersOk, Manned;
    assert s.next + 1 !in s.jobs;
    if !s.closed && key !in s.keys && IsFull(s) {
      assert victim in Pending(s.jobs);
    }
    SameActive(s, Enqueued(s, key, priority, w, victim));
  }

  lemma {:induction false} DropAllActive(s: State, order: seq<Id>)
    requires InOrder(s.jobs, order)
    ensures var t := DropAll(s, order);
      && t.workers == s.workers && t.returned == s.returned && t.closed == s.closed
      && (forall id | id in s.jobs && s.jobs[id].active :: id in t.jobs && t.jobs[id].active)
      && (forall id | id in t.jobs && t.jobs[id].active :: id in s.jobs && s.jobs[id].active)
    decreases |order|
  {
    hide IsFirst;
    if order != [] {
      FirstKnown(s.jobs, order[0]);
      DropAllActive(Drop(s, order[0], Shut), order[1..]);
    }
  }

  /** Only workers take, finish and exit. */
  lemma WorkersStay(s: State, e: Event)
    requires Enabled(s, e) && !e.Take? && !e.Finish? && !e.Exit?
    ensures Fire(s, e).workers == s.workers
  {
    hide InOrder, IsLast;
    if e.Close? {
      DropAllWorkers(s.(closed := true), e.order);
    }
  }

  lemma {:induction false} DropAllWorkers(s: State, order: seq<Id>)
    ensures DropAll(s, order).workers == s.workers && DropAll(s, order).closed == s.closed && DropAll(s, order).returned == s.returned
    decreases |order|
  {
    if order != [] {
      DropAllWorkers(if order[0] in s.jobs then Drop(s, order[0], Shut) else s, order[1..]);
    }
  }

  lemma ClosedStays(s: State, e: Event)
    requires s.closed && Enabled(s, e)
    ensures Fire(s, e).closed && !e.Take?
  {
  }

  lemma FireStaffed(s: State, e: Event)
    requires Sound(s) && Staffed(s) && Enabled(s, e)
    ensures Staffed(Fire(s, e))
  {
    hide Sound, Manned;
    match e
    case Enqueue(key, priority, w, victim) => EnqueueActive(s, key, priority, w, victim);
    case Cancel(id, w) => SameActive(s, Cancels(s, id, w));
    case Take(k, id) => TakeStaffed(s, k, id);
    case Finish(k, r) => FinishStaffed(s, k, r);
    case Exit(k) => ExitStaffed(s, k);
    case Close(order) =>
      DropAllActive(s.(closed := true), order);
      SameActive(s, Fire(s, e));
    case CloseReturns =>
    case CloseAgain =>
  }

  // ---- runs ------------------------------------------------------------------------------------

  ghost predicate Reached(s: State) {
    exists capacity: nat, crew: nat, events: seq<Event> :: capacity > 0 && crew > 0 && s == Run(Initial(capacity, crew), events)
  }

  lemma {:induction false} RunSound(s: State, events: seq<Event>)
    requires Sound(s) && Staffed(s)
    ensures Sound(Run(s, events)) && Staffed(Run(s, events))
    decreases |events|
  {
    hide Sound, Staffed, Fire, Enabled;
    if events != [] {
      if Enabled(s, events[0]) {
        FireSound(s, events[0]);
        FireStaffed(s, events[0]);
      }
      RunSound(Step(s, events[0]), events[1..]);
    }
  }

  lemma ReachedSound(s: State)
    requires Reached(s)
    ensures Sound(s) && Staffed(s)
  {
    hide Sound, Staffed, Run;
    var capacity: nat, crew: nat, events: seq<Event> :| capacity > 0 && crew > 0 && s == Run(Initial(capacity, crew), events);
    InitialSound(capacity, crew);
    RunSound(Initial(capacity, crew), events);
  }

  lemma InitialSound(capacity: nat, crew: nat)
    requires capacity > 0
    ensures Sound(Initial(capacity, crew)) && Staffed(Initial(capacity, crew))
  {
    forall k, id ensures !Holds(Crew(crew), k, id) {
    }
  }

  // ---- exactly once ------------------------------------------------------------------------------

  predicate Attached(s: State, w: Waiter, id: Id) {
    id in s.jobs && w in s.jobs[id].waiters
  }

  /** Every accepted waiter has been sent exactly one result, or is attached to exactly one job, pending or active, which
      is the entry for its key; never both. */
  lemma AnsweredOrAttached(s: State, w: Waiter)
    requires Reached(s) && w in s.results
    ensures |s.results[w]| == 1 <==> !(exists id :: Attached(s, w, id))
    ensures |s.results[w]| <= 1
    ensures forall a, b :: Attached(s, w, a) && Attached(s, w, b) ==> a == b
    ensures forall id :: Attached(s, w, id) ==> s.jobs[id].key in s.keys && s.keys[s.jobs[id].key] == id
  {
    hide Reached, Bounded;
    ReachedSound(s);
    if s.results[w] == [] {
      assert Attached(s, w, s.home[w]);
    }
  }

  /** A result, once sent, is never replaced, and no waiter is forgotten. */
  lemma ResultStands(s: State, e: Event, w: Waiter)
    requires Reached(s) && Enabled(s, e) && w in s.results
    ensures w in Fire(s, e).results && (s.results[w] != [] ==> Fire(s, e).results[w] == s.results[w])
  {
    hide Reached, Sound;
    ReachedSound(s);
    match e
    case Enqueue(key, priority, v, victim) => EnqueueStands(s, key, priority, v, victim, w);
    case Cancel(id, v) =>
    case Take(k, id) =>
    case Finish(k, r) => SendAllStands(s.results, s.jobs[s.workers[k].value].waiters, r, w);
    case Exit(k) =>
    case CloseReturns =>
    case CloseAgain =>
    case Close(order) =>
      ShutMarks(s, order);
      DropAllStands(s, order, w);
  }

  lemma {:induction false} SendAllStands(results: map<Waiter, seq<Result>>, waiters: seq<Waiter>, r: Result, w: Waiter)
    requires w in results
    ensures var t := SendAll(results, waiters, r); w in t && (results[w] != [] ==> t[w] == results[w])
    decreases |waiters|
  {
    if waiters != [] {
      SendAllStands(Send(results, waiters[0], r), waiters[1..], r, w);
    }
  }

  lemma EnqueueStands(s: State, key: Key, priority: int, v: Waiter, victim: Id, w: Waiter)
    requires Enabled(s, Enqueue(key, priority, v, victim)) && w in s.results
    ensures var t := Enqueued(s, key, priority, v, victim); w in t.results && (s.results[w] != [] ==> t.results[w] == s.results[w])
  {
    if victim in s.jobs {
      SendAllStands(s.results, s.jobs[victim].waiters, Displaced, w);
    }
  }

  lemma {:induction false} DropAllStands(s: State, order: seq<Id>, w: Waiter)
    requires w in s.results
    ensures var t := DropAll(s, order); w in t.results && (s.results[w] != [] ==> t.results[w] == s.results[w])
    decreases |order|
  {
    if order != [] {
      var t := if order[0] in s.jobs then Drop(s, order[0], Shut) else s;
      if order[0] in s.jobs {
        SendAllStands(s.results, s.jobs[order[0]].waiters, Shut, w);
      }
      DropAllStands(t, order[1..], w);
    }
  }

  /** All waiters attached when a fetch ends get that fetch's result, and nobody else is sent anything. */
  lemma SharedResult(s: State, k: Worker, r: Result, w: Waiter)
    requires Reached(s) && Enabled(s, Finish(k, r)) && w in s.results
    ensures var t := Fire(s, Finish(k, r));
      w in t.results && t.results[w] == if w in s.jobs[s.workers[k].value].waiters then [r] else s.results[w]
  {
    hide Reached, Staffed;
    ReachedSound(s);
    SendAllExact(s.results, s.jobs[s.workers[k].value].waiters, r);
  }

  // ---- closing -----------------------------------------------------------------------------------

  predicate AllAnswered(s: State) {
    forall w | w in s.results :: |s.results[w]| == 1
  }

  /** Once the queue is closed nobody is waiting but for jobs still being fetched. */
  lemma ClosedMeansAnswered(s: State)
    requires Reached(s) && s.closed
    ensures AllAnswered(s) <==> (forall id | id in s.jobs && s.jobs[id].active :: s.jobs[id].waiters == [])
  {
    hide Reached, Staffed;
    ReachedSound(s);
    forall id | id in s.jobs ensures s.jobs[id].active {
      assert id !in Pending(s.jobs);
    }
    forall w | w in s.results && s.results[w] == [] ensures s.jobs[s.home[w]].waiters != [] {
    }
    forall id | id in s.jobs && s.jobs[id].waiters != [] ensures s.results[s.jobs[id].waiters[0]] == [] {
    }
  }

  /** When the first `Close` returns every waiter ever accepted has been sent exactly one result, and no job is left. */
  lemma CloseReturnsAnswered(s: State)
    requires Reached(s) && (Enabled(s, CloseReturns) || s.returned)
    ensures AllAnswered(s) && s.jobs == map[]
  {
    hide Reached, Linked;
    ReachedSound(s);
    forall k, id ensures !Holds(s.workers, k, id) {
    }
    assert forall id | id in s.jobs :: id in Pending(s.jobs);
    ClosedMeansAnswered(s);
  }

  /** A later `Close` returns at once, and leaves somebody waiting exactly when a worker still fetches for a waiter. */
  lemma CloseAgainLeaves(s: State)
    requires Reached(s) && Enabled(s, CloseAgain)
    ensures !AllAnswered(s) <==> exists k :: Fetching(s, k) && s.jobs[s.workers[k].value].waiters != []
  {
    hide Reached, Linked, Bounded;
    ReachedSound(s);
    ClosedMeansAnswered(s);
    forall id | id in s.jobs && s.jobs[id].active && s.jobs[id].waiters != []
      ensures exists k :: Fetching(s, k) && s.jobs[s.workers[k].value].waiters != []
    {
      var k :| Holds(s.workers, k, id);
      assert Fetching(s, k);
    }
  }

  /** Until it returns, the first `Close` waits only for fetches: some worker can finish or exit, or nobody is left. */
  lemma ClosingGoesOn(s: State, r: Result)
    requires Reached(s) && s.closed && !s.returned
    ensures Enabled(s, CloseReturns) || exists k :: Enabled(s, Exit(k)) || Enabled(s, Finish(k, r))
  {
    hide Reached, Sound;
    ReachedSound(s);
    if s.workers != map[] {
      var k :| k in s.workers;
      if s.workers[k].Some? {
        assert Holds(s.workers, k, s.workers[k].value);
        assert Enabled(s, Finish(k, r));
      } else {
        assert Enabled(s, Exit(k));
      }
    }
  }

  /** Workers that are left, and jobs they hold. */
  function Toil(s: State): nat {
    |s.workers| + |Busy(s.workers)|
  }

  /** In a closed queue every fetch that ends and every worker that exits brings the return of `Close` nearer, and
      nothing puts it off. */
  lemma ClosingDrains(s: State, e: Event)
    requires Reached(s) && s.closed && Enabled(s, e)
    ensures Fire(s, e).closed && Toil(Fire(s, e)) <= Toil(s)
    ensures e.Finish? || e.Exit? ==> Toil(Fire(s, e)) < Toil(s)
  {
    hide Reached, Sound, Staffed, InOrder, IsLast, Enqueued, Cancels, DropAll;
    ClosedStays(s, e);
    if e.Finish? {
      BusyLess(s.workers, e.k);
    } else if e.Exit? {
      GoneLess(s.workers, e.k);
    } else {
      WorkersStay(s, e);
    }
  }

  function Busy(workers: map<Worker, Option<Id>>): set<Worker> {
    set k | k in workers && workers[k].Some?
  }

  lemma BusyLess(workers: map<Worker, Option<Id>>, k: Worker)
    requires k in Busy(workers)
    ensures |workers[k := None]| == |workers| && |Busy(workers[k := None])| < |Busy(workers)|
  {
    assert Busy(workers[k := None]) == Busy(workers) - {k};
    assert workers[k := None].Keys == workers.Keys && |workers.Keys| == |workers| && |workers[k := None].Keys| == |workers[k := None]|;
  }

  lemma GoneLess(workers: map<Worker, Option<Id>>, k: Worker)
    requires k in workers && workers[k].None?
    ensures |workers - {k}| < |workers| && Busy(workers - {k}) == Busy(workers)
  {
    assert (workers - {k}).Keys == workers.Keys - {k} && |workers.Keys| == |workers| && |(workers - {k}).Keys| == |workers - {k}|;
  }

  /** `Close` answers everyone attached to a pending job, once. */
  lemma CloseAnswersPending(s: State, order: seq<Id>, w: Waiter)
    requires Reached(s) && Enabled(s, Close(order)) && w in s.results && s.results[w] == []
    requires w in s.home && s.home[w] in Pending(s.jobs)
    ensures var t := Fire(s, Close(order)); w in t.results && |t.results[w]| == 1
  {
    hide Reached, Sound, InOrder;
    ReachedSound(s);
    var t := Fire(s, Close(order));
    CloseSound(s, order);
    ShutMarks(s, order);
    DropAllShrinks(s, order);
    CloseKeepsHome(s, order, w);
    Unanswered(t, w);
  }

  lemma Unanswered(s: State, w: Waiter)
    requires Sound(s) && w in s.results
    ensures |s.results[w]| <= 1 && (s.results[w] == [] ==> s.home[w] in s.jobs)
    ensures s.results[w] == [] && s.home[w] in s.jobs && !s.jobs[s.home[w]].active ==> s.home[w] in Pending(s.jobs)
  {
  }

  lemma {:induction false} DropAllShrinks(s: State, order: seq<Id>)
    ensures var t := DropAll(s, order); t.home == s.home && forall id | id in t.jobs :: id in s.jobs && t.jobs[id] == s.jobs[id]
    decreases |order|
  {
    if order != [] {
      DropAllShrinks(if order[0] in s.jobs then Drop(s, order[0], Shut) else s, order[1..]);
    }
  }

  lemma CloseKeepsHome(s: State, order: seq<Id>, w: Waiter)
    requires Enabled(s, Close(order)) && w in s.results
    ensures w in Fire(s, Close(order)).results
  {
    ShutMarks(s, order);
    DropAllStands(s, order, w);
  }

  const EARLY := [Enqueue("a", 0, 0, 0), Take(0, 1), Close([])]

  lemma OneWaiting()
    ensures Step(Initial(1, 1), EARLY[0]) == Add(Initial(1, 1), "a", 0, 0)
    ensures Enabled(Step(Initial(1, 1), EARLY[0]), EARLY[1])
  {
    assert Pending(Initial(1, 1).jobs) == {};
    assert Pending(Add(Initial(1, 1), "a", 0, 0).jobs) == {1};
  }

  lemma OneFetching()
    ensures var s := Start(Add(Initial(1, 1), "a", 0, 0), 0, 1); Enabled(s, EARLY[2]) && Fire(s, EARLY[2]) == s.(closed := true)
  {
    var s := Start(Add(Initial(1, 1), "a", 0, 0), 0, 1);
    assert Pending(s.jobs) == {};
    assert DropAll(s.(closed := true), []) == s.(closed := true);
  }

  lemma RunsThree(s: State, a: Event, b: Event, c: Event)
    ensures Run(s, [a, b, c]) == Step(Step(Step(s, a), b), c)
  {
    assert [a, b, c][1..] == [b, c] && [b, c][1..] == [c] && [c][1..] == [];
    assert Run(s, [a, b, c]) == Run(Step(s, a), [b, c]);
    assert Run(Step(s, a), [b, c]) == Run(Step(Step(s, a), b), [c]);
    assert Run(Step(Step(s, a), b), [c]) == Run(Step(Step(Step(s, a), b), c), []);
  }

  /** A second `Close` while a fetch goes on: it returns although the fetch's waiter has no result. */
  lemma SecondCloseReturnsEarly()
    ensures var s := Run(Initial(1, 1), EARLY);
      Reached(s) && Enabled(s, CloseAgain) && !Enabled(s, CloseReturns) && 0 in s.results && s.results[0] == []
  {
    OneWaiting();
    OneFetching();
    RunsThree(Initial(1, 1), EARLY[0], EARLY[1], EARLY[2]);
    hide Run;
    assert Run(Initial(1, 1), EARLY) == Start(Add(Initial(1, 1), "a", 0, 0), 0, 1).(closed := true);
  }

  // ---- order -------------------------------------------------------------------------------------

  /** Some pending job is before all others. */
  lemma {:induction false} FirstOf(jobs: map<Id, Job>, ids: set<Id>) returns (first: Id)
    requires ids != {} && forall id | id in ids :: id in jobs
    ensures first in ids && forall other | other in ids && other != first :: Before(jobs[first], first, jobs[other], other)
  {
    var x :| x in ids;
    var rest := ids - {x};
    if rest == {} {
      first := x;
      assert ids == {x};
    } else {
      var y := FirstOf(jobs, rest);
      first := if Before(jobs[x], x, jobs[y], y) then x else y;
    }
  }

  /** Some pending job is behind all others. */
  lemma {:induction false} LastOf(jobs: map<Id, Job>, ids: set<Id>) returns (last: Id)
    requires ids != {} && forall id | id in ids :: id in jobs
    ensures last in ids && forall other | other in ids && other != last :: Before(jobs[other], other, jobs[last], last)
  {
    var x :| x in ids;
    var rest := ids - {x};
    if rest == {} {
      last := x;
      assert ids == {x};
    } else {
      var y := LastOf(jobs, rest);
      last := if Before(jobs[x], x, jobs[y], y) then y else x;
    }
  }

  /** Which job is taken next, and which would be displaced, is determined. */
  lemma OrderIsTotal(jobs: map<Id, Job>, a: Id, b: Id)
    ensures IsFirst(jobs, a) && IsFirst(jobs, b) ==> a == b
    ensures IsLast(jobs, a) && IsLast(jobs, b) ==> a == b
  {
  }

  /** An open queue with pending work lets any idle worker take a job, and any request with a new waiter is answered. */
  lemma NeverBlocked(s: State, k: Worker, key: Key, priority: int, w: Waiter)
    requires Reached(s)
    ensures !s.closed && Idle(s, k) && Pending(s.jobs) != {} ==> exists id :: Enabled(s, Take(k, id))
    ensures w !in s.results ==> exists victim :: Enabled(s, Enqueue(key, priority, w, victim))
  {
    hide Reached;
    if Pending(s.jobs) != {} {
      var first := FirstOf(s.jobs, Pending(s.jobs));
      assert s.closed || !Idle(s, k) || Enabled(s, Take(k, first));
      var last := LastOf(s.jobs, Pending(s.jobs));
      assert w in s.results || Enabled(s, Enqueue(key, priority, w, last));
    } else {
      assert w in s.results || Enabled(s, Enqueue(key, priority, w, 0));
    }
  }

  /** A request displaces nothing unless the queue is full of other keys; then at most the newest among the jobs of
      lowest priority, and only for a strictly higher one. Its waiters are told, and no other job changes but the one
      that is joined. */
  lemma DisplacesNewestOfLowest(s: State, key: Key, priority: int, w: Waiter, victim: Id, id: Id)
    requires Reached(s) && Enabled(s, Enqueue(key, priority, w, victim)) && id in s.jobs
    ensures var t := Fire(s, Enqueue(key, priority, w, victim));
      && (id in t.jobs ==> t.jobs[id] == s.jobs[id] || (key in s.keys && s.keys[key] == id && t.jobs[id].waiters == s.jobs[id].waiters + [w]))
      && (id !in t.jobs ==>
            && |Pending(s.jobs)| == s.capacity && key !in s.keys && !s.jobs[id].active && s.jobs[id].priority < priority
            && (forall other | other in Pending(s.jobs) :: s.jobs[other].priority > s.jobs[id].priority
                                                         || (s.jobs[other].priority == s.jobs[id].priority && other <= id))
            && (forall v | v in s.jobs[id].waiters :: v in t.results && t.results[v] == [Displaced])
            && w in t.results && t.results[w] == [])
  {
    hide Reached, Sound, Fire, Enabled;
    ReachedSound(s);
    if id in Fire(s, Enqueue(key, priority, w, victim)).jobs {
      StaysOrJoined(s, key, priority, w, victim, id);
    } else {
      GoneIsVictim(s, key, priority, w, victim, id);
      SendAllExact(s.results, s.jobs[id].waiters, Displaced);
    }
  }

  lemma StaysOrJoined(s: State, key: Key, priority: int, w: Waiter, victim: Id, id: Id)
    requires Sound(s) && Enabled(s, Enqueue(key, priority, w, victim)) && id in s.jobs
    ensures var t := Fire(s, Enqueue(key, priority, w, victim));
      id in t.jobs ==> t.jobs[id] == s.jobs[id] || (key in s.keys && s.keys[key] == id && t.jobs[id].waiters == s.jobs[id].waiters + [w])
  {
    assert s.next + 1 !in s.jobs;
  }

  lemma GoneIsVictim(s: State, key: Key, priority: int, w: Waiter, victim: Id, id: Id)
    requires Sound(s) && Enabled(s, Enqueue(key, priority, w, victim)) && id in s.jobs
    requires id !in Fire(s, Enqueue(key, priority, w, victim)).jobs
    ensures id == victim && key !in s.keys && |Pending(s.jobs)| == s.capacity && s.jobs[id].priority < priority && IsLast(s.jobs, id)
    ensures w !in s.results && Distinct(s.jobs[id].waiters) && forall v | v in s.jobs[id].waiters :: v in s.results && s.results[v] == []
    ensures Fire(s, Enqueue(key, priority, w, victim)).results == SendAll(s.results, s.jobs[id].waiters, Displaced)[w := []]
  {
    hide SendAll;
  }
}
