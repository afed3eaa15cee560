/** The download queue itself: jobs on a heap, a table of keys, and channels that are each sent one result. Each method
    is one critical section, and takes the state machine through the event it stands for. */
module DownloadQueue {
  import D = DownloadSpec
  import T = DownloadTheorems
  import M = DownloadMeaning
  import opened Wrappers
  import opened DownloadHeap

  function View(j: Job): D.Job
    reads j`priority, j`waiters, j`active
  {
    D.Job(j.key, j.priority, j.waiters, j.active)
  }

  /** The machine's jobs are the live job objects. */
  ghost predicate Tied(jobs: map<D.Id, D.Job>, live: map<D.Id, Job>)
    reads (set id | id in live :: live[id])
  {
    jobs.Keys == live.Keys && forall id | id in live :: live[id].sequence == id && jobs[id] == View(live[id])
  }

  /** The heap holds the live jobs that nobody is fetching. */
  ghost predicate Heaped(items: seq<Job>, live: map<D.Id, Job>)
    reads items`active, (set id | id in live :: live[id])`active
  {
    && (forall j | j in items :: j.sequence in live && live[j.sequence] == j && !j.active)
    && (forall id | id in live && !live[id].active :: live[id] in items)
  }

  ghost predicate Keyed(keys: map<D.Key, D.Id>, table: map<D.Key, Job>, live: map<D.Id, Job>) {
    table.Keys == keys.Keys && forall k | k in table :: keys[k] in live && live[keys[k]] == table[k]
  }

  lemma KeyedAdd(keys: map<D.Key, D.Id>, table: map<D.Key, Job>, live: map<D.Id, Job>, key: D.Key, id: D.Id, j: Job)
    requires Keyed(keys, table, live) && id !in live
    ensures Keyed(keys[key := id], table[key := j], live[id := j])
  {
  }

  lemma KeyedDrop(keys: map<D.Key, D.Id>, table: map<D.Key, Job>, live: map<D.Id, Job>, key: D.Key, id: D.Id)
    requires Keyed(keys, table, live) && forall k | k in keys && k != key :: keys[k] != id
    ensures Keyed(keys - {key}, table - {key}, live - {id}) && Keyed(keys - {key}, table - {key}, live)
  {
  }

  /** `Less` is the order of the machine. */
  lemma LessIsBefore(a: Job, b: Job)
    ensures a.sequence != b.sequence ==> (Less(a, b) <==> D.Before(View(a), a.sequence, View(b), b.sequence))
    ensures a.sequence != b.sequence ==> (Less(b, a) <==> !Less(a, b))
  {
  }

  function Ids(items: seq<Job>): set<D.Id> {
    set j | j in items :: j.sequence
  }

  lemma {:induction false} DistinctCount(items: seq<Job>)
    requires forall i, j | 0 <= i < j < |items| :: items[i].sequence != items[j].sequence
    ensures |Ids(items)| == |items|
  {
    if items != [] {
      var n := |items| - 1;
      DistinctCount(items[..n]);
      assert forall j | j in items :: j in items[..n] || j == items[n];
      assert Ids(items) == Ids(items[..n]) + {items[n].sequence};
      assert items[n].sequence !in Ids(items[..n]);
    }
  }

  /** The heap is as long as the machine has pending jobs. */
  lemma PendingCount(h: Heap, jobs: map<D.Id, D.Job>, live: map<D.Id, Job>)
    requires h.Valid() && Tied(jobs, live) && Heaped(h.items, live)
    ensures D.Pending(jobs) == Ids(h.items) && |D.Pending(jobs)| == |h.items|
  {
    var items := h.items;
    forall i, j | 0 <= i < j < |items| ensures items[i].sequence != items[j].sequence {
      assert items[i] in items && items[j] in items;
    }
    DistinctCount(items);
    forall id | id in D.Pending(jobs) ensures id in Ids(items) {
      assert live[id] in items;
    }
  }

  /** The top of the heap is the job the machine takes next. */
  lemma TopIsNext(h: Heap, jobs: map<D.Id, D.Job>, live: map<D.Id, Job>)
    requires h.Valid() && IsHeap(h.items, |h.items|) && h.items != [] && Tied(jobs, live) && Heaped(h.items, live)
    ensures D.IsFirst(jobs, h.items[0].sequence)
  {
    var items := h.items;
    PendingCount(h, jobs, live);
    var first := items[0];
    assert first in items;
    forall other | other in D.Pending(jobs) && other != first.sequence
      ensures D.Before(jobs[first.sequence], first.sequence, jobs[other], other) {
      var i :| 0 <= i < |items| && items[i].sequence == other;
      assert items[i] in items;
      TopIsFirst(items, |items|, i);
      LessIsBefore(items[i], first);
    }
  }

  /** The heap without a job that is being fetched, or is no longer live. */
  lemma HeapedWithout(before: seq<Job>, items: seq<Job>, live: map<D.Id, Job>, j: Job)
    requires SameItems(items + [j], before) && j !in items
    requires forall x | x in before && x != j :: x.sequence in live && live[x.sequence] == x && !x.active
    requires forall id | id in live && live[id] != j && !live[id].active :: live[id] in before
    requires j.sequence in live && live[j.sequence] == j ==> j.active
    requires forall id | id in live :: live[id].sequence == id
    ensures Heaped(items, live)
  {
    forall x | x in items ensures x in before && x != j {
      assert x in items + [j];
    }
    forall id | id in live && !live[id].active ensures live[id] in items {
      assert live[id] in items + [j];
    }
  }

  lemma HeapedSame(before: seq<Job>, items: seq<Job>, live: map<D.Id, Job>)
    requires SameItems(items, before)
    requires forall x | x in before :: x.sequence in live && live[x.sequence] == x && !x.active
    requires forall id | id in live && !live[id].active :: live[id] in before
    ensures Heaped(items, live)
  {
  }

  lemma HeapedWith(before: seq<Job>, items: seq<Job>, live: map<D.Id, Job>, j: Job)
    requires SameItems(items, before + [j]) && j.sequence in live && live[j.sequence] == j && !j.active
    requires forall x | x in before :: x.sequence in live && live[x.sequence] == x && !x.active
    requires forall id | id in live && live[id] != j && !live[id].active :: live[id] in before
    ensures Heaped(items, live)
  {
    forall x | x in items ensures x in before || x == j {
      assert x in before + [j];
    }
    forall x | x in before || x == j ensures x in items {
      assert x in before + [j];
    }
  }

  lemma {:induction false} RunSnoc(s: D.State, events: seq<D.Event>, e: D.Event)
    ensures D.Run(s, events + [e]) == D.Step(D.Run(s, events), e)
    decreases |events|
  {
    if events == [] {
      assert events + [e] == [e];
      assert D.Run(D.Step(s, e), []) == D.Step(s, e);
    } else {
      assert (events + [e])[1..] == events[1..] + [e];
      RunSnoc(D.Step(s, events[0]), events[1..], e);
    }
  }

  lemma Advances(model: D.State, capacity: nat, crew: nat, log: seq<D.Event>, e: D.Event)
    requires model == D.Run(D.Initial(capacity, crew), log) && T.Sound(model) && T.Staffed(model) && D.Enabled(model, e)
    ensures D.Fire(model, e) == D.Run(D.Initial(capacity, crew), log + [e])
    ensures T.Sound(D.Fire(model, e)) && T.Staffed(D.Fire(model, e))
  {
    hide D.Run, D.Fire, D.Enabled, T.Sound, T.Staffed;
    RunSnoc(D.Initial(capacity, crew), log, e);
    T.FireSound(model, e);
    T.FireStaffed(model, e);
  }

  lemma AddFields(s: D.State, key: D.Key, priority: int, w: D.Waiter)
    ensures var t := D.Add(s, key, priority, w);
      && t.next == s.next + 1 && t.jobs == s.jobs[s.next + 1 := D.Job(key, priority, [w], false)] && t.keys == s.keys[key := s.next + 1]
      && t.results == s.results[w := []] && t.closed == s.closed && t.capacity == s.capacity
  {
  }

  lemma AttachFields(s: D.State, id: D.Id, priority: int, w: D.Waiter)
    requires id in s.jobs
    ensures var t := D.Attach(s, id, priority, w);
      t.next == s.next && t.keys == s.keys && t.results == s.results[w := []] && t.closed == s.closed && t.capacity == s.capacity
  {
  }

  /** The machine's jobs after somebody has joined, one step at a time. */
  lemma AttachJobs(s: D.State, id: D.Id, priority: int, w: D.Waiter)
    requires id in s.jobs
    ensures var machine := s.jobs[id := s.jobs[id].(waiters := s.jobs[id].waiters + [w])];
      D.Attach(s, id, priority, w).jobs ==
        if !s.jobs[id].active && priority > s.jobs[id].priority then machine[id := machine[id].(priority := priority)] else machine
  {
  }

  /** What a cancelled waiter leaves, field by field. */
  lemma CancelFields(s: D.State, id: D.Id, w: D.Waiter)
    requires w in s.results && (s.results[w] == [] ==> id in s.jobs)
    ensures var t := D.Cancels(s, id, w);
      && t.closed == s.closed && t.capacity == s.capacity && t.next == s.next
      && (s.results[w] != [] ==> t == s)
      && (s.results[w] == [] ==>
            var j := s.jobs[id].(waiters := D.Without(s.jobs[id].waiters, w));
            && t.results == D.Send(s.results, w, D.Cancelled)
            && (j.waiters != [] ==> t.jobs == s.jobs[id := j] && t.keys == s.keys)
            && (j.waiters == [] ==>
                  && t.jobs == (if j.active then s.jobs[id := j] else s.jobs - {id})
                  && t.keys == if j.key in s.keys && s.keys[j.key] == id then s.keys - {j.key} else s.keys))
  {
  }

  lemma TakeFields(model: D.State, k: D.Worker, id: D.Id)
    requires !model.closed && D.Idle(model, k) && D.IsFirst(model.jobs, id)
    ensures D.Enabled(model, D.Take(k, id)) && |D.Fire(model, D.Take(k, id)).workers| == |model.workers|
    ensures D.Fire(model, D.Take(k, id)) ==
              model.(jobs := model.jobs[id := model.jobs[id].(active := true)], workers := model.workers[k := Some(id)])
  {
    SameSize(model.workers, k, Some(id));
  }

  lemma SameSize(workers: map<D.Worker, Option<D.Id>>, k: D.Worker, v: Option<D.Id>)
    requires k in workers
    ensures |workers[k := v]| == |workers|
  {
    assert workers[k := v].Keys == workers.Keys && |workers.Keys| == |workers| && |workers[k := v].Keys| == |workers[k := v]|;
  }

  /** A worker that exits is one less. */
  lemma OneGone(model: D.State, k: D.Worker)
    requires model.closed && D.Idle(model, k)
    ensures D.Enabled(model, D.Exit(k)) && |model.workers| == |D.Fire(model, D.Exit(k)).workers| + 1
    ensures D.Fire(model, D.Exit(k)) == model.(workers := model.workers - {k})
  {
    assert (model.workers - {k}).Keys == model.workers.Keys - {k} && |model.workers.Keys| == |model.workers|;
    assert |(model.workers - {k}).Keys| == |model.workers - {k}|;
  }

  lemma FinishFields(model: D.State, k: D.Worker, id: D.Id, r: D.Result)
    requires D.Fetching(model, k) && model.workers[k] == Some(id)
    ensures D.Enabled(model, D.Finish(k, r)) && |D.Fire(model, D.Finish(k, r)).workers| == |model.workers|
    ensures D.Fire(model, D.Finish(k, r)) == D.Finished(model, id, r).(workers := model.workers[k := None])
  {
    SameSize(model.workers, k, None);
  }

  lemma NobodyLeft(workers: map<D.Worker, Option<D.Id>>)
    requires |workers| == 0
    ensures workers == map[]
  {
    assert |workers.Keys| == 0;
  }

  class Queue {
    var closed: bool
    const capacity: nat
    /** How many workers the program started, and how many it still waits for. */
    const crew: nat
    var running: nat
    var next: D.Id
    const pending: Heap
    var jobs: map<D.Key, Job>
    var results: map<D.Waiter, seq<D.Result>>
    ghost var live: map<D.Id, Job>
    ghost var model: D.State
    ghost var log: seq<D.Event>

    /** The heap, the live jobs and the machine's jobs agree. */
    ghost predicate Agrees(machine: map<D.Id, D.Job>)
      reads this`live, pending, pending.Repr
    {
      && pending.Valid() && IsHeap(pending.items, |pending.items|) && (forall id | id in live :: live[id] in pending.Repr)
      && Tied(machine, live) && Heaped(pending.items, live)
    }

    /** The fields hold the machine's state. */
    ghost predicate Matches(s: D.State)
      reads this`closed, this`next, this`jobs, this`results, this`live, pending, pending.Repr
    {
      && Agrees(s.jobs) && Keyed(s.keys, jobs, live)
      && s.closed == closed && s.capacity == capacity && s.next == next && s.results == results
    }

    ghost predicate Valid()
      reads this, pending, pending.Repr
    {
      && Matches(model) && T.Sound(model) && T.Staffed(model) && capacity > 0 && crew > 0
      && model == D.Run(D.Initial(capacity, crew), log) && running == |model.workers|
    }

    /** `NewQueue`. */
    constructor (limit: int, workers: int)
      ensures Valid() && log == [] && capacity == if limit <= 0 then 128 else limit
      ensures crew == if workers <= 0 then 4 else workers
      ensures fresh(pending) && fresh(pending.Repr)
    {
      closed, next, jobs, results := false, 0, map[], map[];
      capacity := if limit <= 0 then 128 else limit;
      crew := if workers <= 0 then 4 else workers;
      running := if workers <= 0 then 4 else workers;
      pending := new Heap();
      live, log := map[], [];
      model := D.Initial(if limit <= 0 then 128 else limit, if workers <= 0 then 4 else workers);
      new;
      T.InitialSound(capacity, crew);
    }

    method StartFirst() returns (j: Job)
      requires Agrees(model.jobs) && pending.items != []
      modifies pending, pending.Repr
      ensures j == old(pending.items)[0] && pending.Repr == old(pending.Repr) && j.sequence in model.jobs
      ensures Agrees(model.jobs[j.sequence := model.jobs[j.sequence].(active := true)])
    {
      hide IsHeap, SameItems;
      ghost var before := pending.items;
      j := pending.Pop();
      assert j in before;
      j.active := true;
      HeapedWithout(before, pending.items, live, j);
    }

    lemma NextOnHeap()
      requires Agrees(model.jobs) && pending.items != []
      ensures D.IsFirst(model.jobs, pending.items[0].sequence)
    {
      TopIsNext(pending, model.jobs, live);
    }

    /** What an idle worker does under the lock to take a job: the first on the heap. */
    method Take(ghost k: D.Worker) returns (j: Job)
      requires Valid() && !closed && pending.items != [] && D.Idle(model, k)
      modifies this, pending, pending.Repr
      ensures Valid() && D.Enabled(old(model), D.Take(k, j.sequence)) && model == D.Fire(old(model), D.Take(k, j.sequence))
      ensures log == old(log) + [D.Take(k, j.sequence)] && pending.Repr == old(pending.Repr)
      ensures j == old(pending.items)[0]
    {
      hide T.Sound, T.Staffed, D.Run, D.Initial, D.Fire, D.Enabled, Agrees;
      NextOnHeap();
      ghost var e := D.Take(k, pending.items[0].sequence);
      TakeFields(model, k, e.id);
      j := StartFirst();
      Record(e);
    }

    // ---- channels ------------------------------------------------------------------------------

    /** `finishWaiterLocked`. */
    method FinishWaiterLocked(w: D.Waiter, r: D.Result)
      requires w in results
      modifies this`results
      ensures results == D.Send(old(results), w, r)
    {
      if results[w] != [] {
        return;
      }
      results := results[w := [r]];
    }

    method FinishWaiters(waiters: seq<D.Waiter>, r: D.Result)
      requires forall w | w in waiters :: w in results
      modifies this`results
      ensures results == D.SendAll(old(results), waiters, r)
    {
      var i := 0;
      assert waiters[0..] == waiters;
      while i < |waiters|
        invariant i <= |waiters| && results.Keys == old(results).Keys
        invariant D.SendAll(results, waiters[i..], r) == D.SendAll(old(results), waiters, r)
      {
        assert waiters[i..][1..] == waiters[i + 1..];
        FinishWaiterLocked(waiters[i], r);
        i := i + 1;
      }
    }

    // ---- jobs ----------------------------------------------------------------------------------

    method AddWaiter(j: Job, w: D.Waiter, ghost machine: map<D.Id, D.Job>)
      requires Agrees(machine) && j.sequence in live && live[j.sequence] == j
      modifies j`waiters
      ensures Agrees(machine[j.sequence := machine[j.sequence].(waiters := machine[j.sequence].waiters + [w])])
    {
      hide IsHeap;
      j.waiters := j.waiters + [w];
    }

    method Raise(j: Job, priority: int, ghost machine: map<D.Id, D.Job>)
      requires Agrees(machine) && j.sequence in live && live[j.sequence] == j && !j.active && priority > j.priority
      modifies pending, pending.Repr
      ensures pending.Repr == old(pending.Repr)
      ensures Agrees(machine[j.sequence := machine[j.sequence].(priority := priority)])
    {
      hide IsHeap, SameItems;
      ghost var before := pending.items;
      assert j in before;
      RaiseAndFix(j, priority);
      HeapedSame(before, pending.items, live);
    }

    /** Join a waiting or active job; a pending one may move up. */
    method Join(j: Job, priority: int, w: D.Waiter)
      requires Agrees(model.jobs) && j.sequence in live && live[j.sequence] == j
      modifies pending, pending.Repr
      ensures pending.Repr == old(pending.Repr)
      ensures Agrees(D.Attach(old(model), j.sequence, priority, w).jobs)
    {
      hide D.Attach;
      AttachJobs(model, j.sequence, priority, w);
      KnownView(model.jobs, j);
      AddWaiter(j, w, model.jobs);
      ghost var machine := model.jobs[j.sequence := model.jobs[j.sequence].(waiters := model.jobs[j.sequence].waiters + [w])];
      KnownView(machine, j);
      hide Agrees;
      if !j.active && priority > j.priority {
        Raise(j, priority, machine);
      }
    }

    lemma KnownView(machine: map<D.Id, D.Job>, j: Job)
      requires Agrees(machine) && j.sequence in live && live[j.sequence] == j
      ensures j.sequence in machine && machine[j.sequence] == View(j) && j in pending.Repr
      ensures !j.active ==> 0 <= j.index < |pending.items| && pending.items[j.index] == j
    {
    }

    method RaiseAndFix(j: Job, priority: int)
      requires pending.Valid() && IsHeap(pending.items, |pending.items|) && priority > j.priority && j in pending.items
      modifies pending, pending.Repr
      ensures pending.Valid() && IsHeap(pending.items, |pending.items|) && SameItems(pending.items, old(pending.items))
      ensures pending.Repr == old(pending.Repr) && j.priority == priority
      ensures forall x | x in pending.Repr :: x.waiters == old(x.waiters) && x.active == old(x.active) && (x != j ==> x.priority == old(x.priority))
    {
      ghost var a, i, n := pending.items, j.index, |pending.items|;
      HeapBridges(a, i, n);
      j.priority := priority;
      forall k | 0 < k < n && Parent(k) != i && k != i ensures Sunk(a, k) {
        assert old(Sunk(a, k)) && a[k] != j && a[Parent(k)] != j;
      }
      assert Bridged(a, i, n) by {
        assert forall c | 0 < c < n && Parent(c) == i :: a[c] != j;
        assert i > 0 ==> a[Parent(i)] != j;
      }
      pending.Fix(j.index);
    }

    method AddJob(key: D.Key, id: D.Id, priority: int, w: D.Waiter, ghost machine: map<D.Id, D.Job>) returns (j: Job)
      requires Agrees(machine) && id !in live
      modifies this`live, pending, pending.Repr
      ensures fresh(j) && j.sequence == id && live == old(live)[id := j] && pending.Repr == old(pending.Repr) + {j}
      ensures Agrees(machine[id := D.Job(key, priority, [w], false)])
    {
      hide IsHeap, SameItems;
      ghost var before := pending.items;
      j := new Job(key, id, priority, w);
      pending.Push(j);
      live := live[id := j];
      HeapedWith(before, pending.items, live, j);
    }

    /** Take the job at `i` off the heap. */
    method RemoveAt(i: nat, ghost machine: map<D.Id, D.Job>) returns (j: Job)
      requires Agrees(machine) && i < |pending.items|
      modifies this`live, pending`items, pending.Repr`index
      ensures j == old(pending.items)[i] && j.sequence in old(live) && old(live)[j.sequence] == j
      ensures live == old(live) - {j.sequence} && Agrees(machine - {j.sequence})
    {
      hide IsHeap, SameItems;
      ghost var before := pending.items;
      assert before[i] in before;
      j := pending.Remove(i);
      live := live - {j.sequence};
      HeapedWithout(before, pending.items, live, j);
    }

    method PopFirst(ghost machine: map<D.Id, D.Job>) returns (j: Job)
      requires Agrees(machine) && pending.items != []
      modifies this`live, pending`items, pending.Repr`index
      ensures j == old(pending.items)[0] && j.sequence in old(live) && old(live)[j.sequence] == j
      ensures live == old(live) - {j.sequence} && Agrees(machine - {j.sequence})
    {
      hide IsHeap, SameItems;
      ghost var before := pending.items;
      assert before[0] in before;
      j := pending.Pop();
      live := live - {j.sequence};
      HeapedWithout(before, pending.items, live, j);
    }

    /** The newest of the jobs of lowest priority. */
    method FindWorst() returns (worst: nat)
      requires Agrees(model.jobs) && pending.items != []
      ensures worst < |pending.items| && D.IsLast(model.jobs, pending.items[worst].sequence)
    {
      worst := 0;
      var i := 1;
      while i < |pending.items|
        invariant worst < i <= |pending.items|
        invariant forall k | 0 <= k < i && k != worst :: Less(pending.items[k], pending.items[worst])
      {
        var item, low := pending.items[i], pending.items[worst];
        Apart(i, worst);
        if item.priority < low.priority || (item.priority == low.priority && item.sequence > low.sequence) {
          worst := i;
        }
        i := i + 1;
      }
      BottomIsLast(worst);
    }

    lemma Apart(i: nat, j: nat)
      requires Agrees(model.jobs) && i < |pending.items| && j < |pending.items| && i != j
      ensures pending.items[i].sequence != pending.items[j].sequence
    {
      assert pending.items[i] in pending.items && pending.items[j] in pending.items;
    }

    lemma BottomIsLast(worst: nat)
      requires Agrees(model.jobs) && worst < |pending.items|
      requires forall k | 0 <= k < |pending.items| && k != worst :: Less(pending.items[k], pending.items[worst])
      ensures D.IsLast(model.jobs, pending.items[worst].sequence)
    {
      hide IsHeap;
      PendingCount(pending, model.jobs, live);
      var items := pending.items;
      var last := items[worst];
      assert last in items;
      forall other | other in D.Pending(model.jobs) && other != last.sequence
        ensures D.Before(model.jobs[other], other, model.jobs[last.sequence], last.sequence)
      {
        var k :| 0 <= k < |items| && items[k].sequence == other;
        assert items[k] in items;
        LessIsBefore(items[k], last);
      }
    }

    // ---- requests ------------------------------------------------------------------------------

    lemma Tabled(s: D.State, key: D.Key)
      requires Matches(s) && key in jobs
      ensures key in s.keys && s.keys[key] in s.jobs && s.keys[key] in live && live[s.keys[key]] == jobs[key]
      ensures jobs[key].sequence == s.keys[key] && Agrees(s.jobs) && Keyed(s.keys, jobs, live)
      ensures s.closed == closed && s.capacity == capacity && s.next == next && s.results == results
    {
      hide IsHeap;
    }

    method JoinJob(key: D.Key, priority: int, w: D.Waiter, ghost s: D.State)
      requires Matches(s) && key in jobs && model == s
      modifies this`results, pending, pending.Repr
      ensures pending.Repr == old(pending.Repr)
      ensures key in s.keys && s.keys[key] in s.jobs && Matches(D.Attach(s, s.keys[key], priority, w))
    {
      hide Agrees, Keyed, Matches, D.Attach;
      Tabled(s, key);
      AttachFields(s, s.keys[key], priority, w);
      var existing := jobs[key];
      Join(existing, priority, w);
      results := results[w := []];
      Assemble(D.Attach(s, s.keys[key], priority, w));
    }

    method AddTabled(key: D.Key, id: D.Id, priority: int, w: D.Waiter, ghost s: D.State)
      requires Agrees(s.jobs) && Keyed(s.keys, jobs, live) && id !in live
      modifies this`jobs, this`live, pending, pending.Repr
      ensures fresh(pending.Repr - old(pending.Repr))
      ensures Agrees(s.jobs[id := D.Job(key, priority, [w], false)]) && Keyed(s.keys[key := id], jobs, live)
    {
      hide Agrees, Keyed;
      ghost var before := live;
      var item := AddJob(key, id, priority, w, s.jobs);
      KeyedAdd(s.keys, jobs, before, key, id, item);
      jobs := jobs[key := item];
    }

    method AddNew(key: D.Key, priority: int, w: D.Waiter, ghost s: D.State)
      requires Matches(s) && T.Sound(s)
      modifies this`next, this`results, this`jobs, this`live, pending, pending.Repr
      ensures fresh(pending.Repr - old(pending.Repr))
      ensures Matches(D.Add(s, key, priority, w))
    {
      hide Agrees, T.Sound, Keyed, Matches, D.Add;
      NextIsNew(s);
      AddFields(s, key, priority, w);
      next := next + 1;
      AddTabled(key, next, priority, w, s);
      results := results[w := []];
      Assemble(D.Add(s, key, priority, w));
    }

    lemma Assemble(s: D.State)
      requires Agrees(s.jobs) && Keyed(s.keys, jobs, live) && s.closed == closed && s.capacity == capacity && s.next == next
      requires s.results == results
      ensures Matches(s)
    {
    }

    lemma NextIsNew(s: D.State)
      requires Matches(s) && T.Sound(s)
      ensures next + 1 !in live && Agrees(s.jobs) && Keyed(s.keys, jobs, live) && s.closed == closed && s.capacity == capacity
      ensures s.next == next && s.results == results
    {
      hide IsHeap, T.WaitersOk;
    }

    /** Take a pending job's key out of the table and answer its waiters. */
    method Answer(item: Job, r: D.Result, ghost s: D.State)
      requires Agrees(s.jobs - {item.sequence}) && item.sequence in s.jobs && Keyed(s.keys - {item.key}, jobs - {item.key}, live)
      requires item.key == s.jobs[item.sequence].key && item.waiters == s.jobs[item.sequence].waiters
      requires forall w | w in item.waiters :: w in results
      requires s.closed == closed && s.capacity == capacity && s.next == next && s.results == results
      modifies this`results, this`jobs
      ensures Matches(D.Drop(s, item.sequence, r))
    {
      hide Agrees, Keyed, Matches, D.SendAll;
      jobs := jobs - {item.key};
      FinishWaiters(item.waiters, r);
      Assemble(D.Drop(s, item.sequence, r));
    }

    lemma Untabled(s: D.State, i: nat)
      requires Matches(s) && T.Linked(s) && i < |pending.items|
      ensures var j := pending.items[i];
        && j.sequence in s.jobs && Agrees(s.jobs) && Keyed(s.keys - {j.key}, jobs - {j.key}, live - {j.sequence})
        && j.key == s.jobs[j.sequence].key && j.waiters == s.jobs[j.sequence].waiters && (forall w | w in j.waiters :: w in results)
      ensures s.closed == closed && s.capacity == capacity && s.next == next && s.results == results
    {
      ItemKnown(s, i);
      hide Agrees, T.Linked, Keyed;
      KeyedDrop(s.keys, jobs, live, pending.items[i].key, pending.items[i].sequence);
    }

    /** Take the job at `i` out and answer its waiters. */
    method DropPending(i: nat, r: D.Result, ghost s: D.State)
      requires Matches(s) && T.Linked(s) && i < |pending.items|
      modifies this`results, this`jobs, this`live, pending`items, pending.Repr`index
      ensures old(pending.items)[i].sequence in s.jobs && Matches(D.Drop(s, old(pending.items)[i].sequence, r))
    {
      hide Agrees, T.Linked, Keyed, Matches;
      Untabled(s, i);
      var item := RemoveAt(i, s.jobs);
      Answer(item, r, s);
    }

    /** The same for the first job, which `Close` pops. */
    method DropFirst(r: D.Result, ghost s: D.State)
      requires Matches(s) && T.Linked(s) && pending.items != []
      modifies this`results, this`jobs, this`live, pending`items, pending.Repr`index
      ensures old(pending.items)[0].sequence in s.jobs && Matches(D.Drop(s, old(pending.items)[0].sequence, r))
    {
      hide Agrees, T.Linked, Keyed, Matches;
      Untabled(s, 0);
      var item := PopFirst(s.jobs);
      Answer(item, r, s);
    }

    lemma ItemKnown(s: D.State, i: nat)
      requires Matches(s) && T.Linked(s) && i < |pending.items|
      ensures var j := pending.items[i]; j.sequence in s.jobs && s.jobs[j.sequence] == View(j) && !j.active
      ensures var j := pending.items[i]; j.key in s.keys && s.keys[j.key] == j.sequence
                                         && forall k | k in s.keys && k != j.key :: s.keys[k] != j.sequence
      ensures forall w | w in pending.items[i].waiters :: w in results
    {
      hide IsHeap;
      assert pending.items[i] in pending.items;
    }

    /** The step just done to the fields is this event. */
    ghost method Record(e: D.Event)
      requires capacity > 0 && crew > 0 && T.Sound(model) && T.Staffed(model) && model == D.Run(D.Initial(capacity, crew), log)
      requires D.Enabled(model, e) && Matches(D.Fire(model, e)) && running == |D.Fire(model, e).workers|
      modifies this`model, this`log
      ensures Valid() && model == D.Fire(old(model), e) && log == old(log) + [e]
    {
      hide Matches, D.Fire, D.Enabled, T.Sound, T.Staffed, D.Run;
      Advances(model, capacity, crew, log, e);
      model, log := D.Fire(model, e), log + [e];
    }

    /** The same for a step that is not a worker's. */
    ghost method RecordStep(e: D.Event)
      requires capacity > 0 && crew > 0 && T.Sound(model) && T.Staffed(model) && model == D.Run(D.Initial(capacity, crew), log)
      requires D.Enabled(model, e) && Matches(D.Fire(model, e)) && running == |model.workers|
      requires !e.Take? && !e.Finish? && !e.Exit?
      modifies this`model, this`log
      ensures Valid() && model == D.Fire(old(model), e) && log == old(log) + [e]
    {
      hide Matches, D.Fire, D.Enabled, T.Sound, T.Staffed, D.Run;
      T.WorkersStay(model, e);
      Record(e);
    }

    lemma Faces()
      requires Matches(model) && T.Sound(model)
      ensures model.closed == closed && model.capacity == capacity && model.next == next && model.results == results
      ensures Agrees(model.jobs) && Keyed(model.keys, jobs, live)
      ensures jobs.Keys == model.keys.Keys && (forall k | k in model.keys :: model.keys[k] in model.jobs)
      ensures D.IsFull(model) <==> |pending.items| >= capacity
      ensures D.Pending(model.jobs) != {} <==> pending.items != []
    {
      hide IsHeap, T.WaitersOk;
      PendingCount(pending, model.jobs, live);
    }

    lemma Worst(i: nat, victim: D.Id)
      requires Matches(model) && T.Sound(model) && i < |pending.items| && victim == pending.items[i].sequence
      ensures victim in model.jobs && model.jobs[victim].priority == pending.items[i].priority
    {
      hide T.Linked;
      ItemKnown(model, i);
    }

    method Admit(key: D.Key, priority: int, w: D.Waiter, over: bool) returns (reply: Reply, ghost victim: D.Id)
      requires Valid() && w !in results
      modifies this, pending, pending.Repr
      ensures Valid() && fresh(pending.Repr - old(pending.Repr))
      ensures over ==> reply == AlreadyOver && model == old(model) && log == old(log)
      ensures !over ==> && D.Enabled(old(model), D.Enqueue(key, priority, w, victim))
                        && model == D.Fire(old(model), D.Enqueue(key, priority, w, victim))
                        && log == old(log) + [D.Enqueue(key, priority, w, victim)]
                        && reply == Replied(D.Answered(old(model), key, priority, victim))
    {
      hide Matches, Agrees, T.Linked, T.Bounded, T.Staffed, D.Run, D.Initial, D.Add, D.Attach, D.Drop, D.IsFull;
      victim := 0;
      if over {
        return AlreadyOver, victim;
      }
      Faces();
      if closed {
        RecordStep(D.Enqueue(key, priority, w, victim));
        return Replied(D.Refused), victim;
      }
      if key in jobs {
        JoinJob(key, priority, w, model);
        RecordStep(D.Enqueue(key, priority, w, victim));
        return Replied(D.Accepted), victim;
      }
      ghost var s := model;
      if |pending.items| >= capacity {
        var worst := FindWorst();
        victim := pending.items[worst].sequence;
        Worst(worst, victim);
        if priority <= pending.items[worst].priority {
          RecordStep(D.Enqueue(key, priority, w, victim));
          return Replied(D.Full), victim;
        }
        T.DropSound(model, victim, D.Displaced);
        DropPending(worst, D.Displaced, model);
        s := D.Drop(model, victim, D.Displaced);
      }
      AddNew(key, priority, w, s);
      RecordStep(D.Enqueue(key, priority, w, victim));
      return Replied(D.Accepted), victim;
    }

    /** Some run of the machine leads here. */
    lemma OnARun()
      requires Valid()
      ensures T.Reached(model)
    {
    }

    /** The table's entry for a key shows what the machine knows of its job. */
    lemma Shown(key: D.Key)
      requires Matches(model) && key in model.keys
      ensures key in jobs && model.keys[key] in model.jobs && model.jobs[model.keys[key]] == View(jobs[key])
      ensures model.results == results && model.closed == closed
    {
      hide IsHeap;
    }

    /** `Enqueue`, with a request whose own context may already be over. Whoever is accepted waits for the job of the key. */
    method Enqueue(key: D.Key, priority: int, w: D.Waiter, over: bool) returns (reply: Reply, ghost victim: D.Id)
      requires Valid() && w !in results
      modifies this, pending, pending.Repr
      ensures Valid() && fresh(pending.Repr - old(pending.Repr))
      ensures over ==> reply == AlreadyOver && model == old(model) && log == old(log)
      ensures !over ==> && D.Enabled(old(model), D.Enqueue(key, priority, w, victim))
                        && model == D.Fire(old(model), D.Enqueue(key, priority, w, victim))
                        && log == old(log) + [D.Enqueue(key, priority, w, victim)]
      ensures reply == Replied(D.Refused) <==> !over && old(closed)
      ensures reply == Replied(D.Full) <==> !over && !old(closed) && M.NoRoom(old(model), key, priority)
      ensures reply == Replied(D.Accepted) <==> w in results
      ensures w in results ==> results[w] == [] && key in jobs && jobs[key].key == key && w in jobs[key].waiters
      ensures w in results && !jobs[key].active ==> jobs[key].priority >= priority
    {
      hide Matches, T.Sound, T.Staffed, D.Fire, D.Enabled, D.Answered, T.Reached, M.NoRoom;
      OnARun();
      Faces();
      reply, victim := Admit(key, priority, w, over);
      Faces();
      if !over {
        M.EnqueueMeans(old(model), key, priority, w, victim);
        if w in results {
          Shown(key);
        }
      }
    }

    // ---- cancellation and completion -----------------------------------------------------------

    /** Take a waiter off its job's list. */
    method Detach(item: Job, w: D.Waiter, ghost machine: map<D.Id, D.Job>)
      requires Agrees(machine) && item.sequence in live && live[item.sequence] == item
      modifies item`waiters
      ensures Agrees(machine[item.sequence := machine[item.sequence].(waiters := D.Without(machine[item.sequence].waiters, w))])
    {
      hide IsHeap;
      var q := item.waiters;
      var i := 0;
      while i < |q| && q[i] != w
        invariant i <= |q| && w !in q[..i]
      {
        i := i + 1;
      }
      WithoutFrom(q, w, i);
      if i < |q| {
        item.waiters := q[..i] + q[i + 1..];
      }
    }

    lemma Own(item: Job, w: D.Waiter)
      requires Matches(model) && T.Linked(model) && w in model.home && model.home[w] == item.sequence
      requires item.sequence in live ==> live[item.sequence] == item
      ensures w in results && model.results == results && Agrees(model.jobs) && Keyed(model.keys, jobs, live)
      ensures model.closed == closed && model.capacity == capacity && model.next == next
      ensures item.sequence in live ==> item in pending.Repr
      ensures results[w] == [] ==> item.sequence in live && item.sequence in model.jobs && model.jobs[item.sequence] == View(item)
      ensures item.sequence in live ==> (item.key in jobs && jobs[item.key] == item <==> item.key in model.keys && model.keys[item.key] == item.sequence)
      ensures item.sequence in live && item.key in model.keys && model.keys[item.key] == item.sequence ==>
        Keyed(model.keys - {item.key}, jobs - {item.key}, live) && Keyed(model.keys - {item.key}, jobs - {item.key}, live - {item.sequence})
      ensures item.sequence in live && !item.active && results[w] == [] ==> item.key in jobs && jobs[item.key] == item
    {
      hide IsHeap;
      if item.sequence in live && item.key in model.keys && model.keys[item.key] == item.sequence {
        KeyedDrop(model.keys, jobs, live, item.key, item.sequence);
      }
    }

    /** Take an unanswered waiter off its job, and the job away if that was the last. */
    method Leave(item: Job, w: D.Waiter)
      requires Matches(model) && T.Linked(model) && w in model.home && model.home[w] == item.sequence
      requires item.sequence in live ==> live[item.sequence] == item
      requires w in results && results[w] == []
      modifies this`jobs, this`results, this`live, pending, pending.Repr
      ensures pending.Repr == old(pending.Repr) && Matches(D.Cancels(model, item.sequence, w))
    {
      hide Matches, Agrees, Keyed, T.Linked, D.Without, D.Cancels, D.Send;
      Own(item, w);
      CancelFields(model, item.sequence, w);
      ghost var s := model;
      ghost var machine := s.jobs[item.sequence := s.jobs[item.sequence].(waiters := D.Without(s.jobs[item.sequence].waiters, w))];
      Detach(item, w, s.jobs);
      KnownView(machine, item);
      FinishWaiterLocked(w, D.Cancelled);
      if item.waiters != [] {
        Assemble(D.Cancels(s, item.sequence, w));
        return;
      }
      if !item.active && item.index >= 0 {
        var removed := RemoveAt(item.index, machine);
        assert machine - {item.sequence} == s.jobs - {item.sequence};
      }
      if item.key in jobs && jobs[item.key] == item {
        jobs := jobs - {item.key};
      }
      Assemble(D.Cancels(s, item.sequence, w));
    }

    method CancelWaiter(item: Job, w: D.Waiter)
      requires Valid() && w in model.home && model.home[w] == item.sequence
      requires item.sequence in live ==> live[item.sequence] == item
      modifies this, pending, pending.Repr
      ensures Valid() && D.Enabled(old(model), D.Cancel(item.sequence, w))
      ensures model == D.Fire(old(model), D.Cancel(item.sequence, w)) && log == old(log) + [D.Cancel(item.sequence, w)]
      ensures pending.Repr == old(pending.Repr)
    {
      hide Matches, Agrees, Keyed, T.Linked, T.Bounded, T.Staffed, D.Run, D.Initial, D.Cancels;
      Own(item, w);
      if results[w] == [] {
        Leave(item, w);
      } else {
        CancelFields(model, item.sequence, w);
      }
      RecordStep(D.Cancel(item.sequence, w));
    }

    ghost method Forget(item: Job, machine: map<D.Id, D.Job>)
      requires Agrees(machine) && item.sequence in live && live[item.sequence] == item && item.active
      modifies this`live
      ensures Agrees(machine - {item.sequence}) && live == old(live) - {item.sequence}
    {
      hide IsHeap;
      live := live - {item.sequence};
    }

    lemma OwnKey(item: Job)
      requires Matches(model) && T.Linked(model) && item.sequence in live && live[item.sequence] == item
      ensures model.results == results && Agrees(model.jobs) && item.sequence in model.jobs && model.jobs[item.sequence] == View(item)
      ensures model.closed == closed && model.capacity == capacity && model.next == next
      ensures item.key in jobs && jobs[item.key] == item <==> item.key in model.keys && model.keys[item.key] == item.sequence
      ensures if item.key in model.keys && model.keys[item.key] == item.sequence
              then Keyed(model.keys - {item.key}, jobs - {item.key}, live - {item.sequence})
              else Keyed(model.keys, jobs, live - {item.sequence})
      ensures forall w | w in item.waiters :: w in results
    {
      hide IsHeap;
      if item.key in model.keys && model.keys[item.key] == item.sequence {
        KeyedDrop(model.keys, jobs, live, item.key, item.sequence);
      }
    }

    /** What a worker does under the lock when its fetch ends. */
    method Finish(ghost k: D.Worker, item: Job, r: D.Result)
      requires Valid() && item.sequence in live && live[item.sequence] == item && item.active
      requires D.Fetching(model, k) && model.workers[k] == Some(item.sequence)
      modifies this
      ensures Valid() && D.Enabled(old(model), D.Finish(k, r)) && model == D.Fire(old(model), D.Finish(k, r))
      ensures log == old(log) + [D.Finish(k, r)]
      ensures forall w | w in item.waiters && w in old(results) && old(results)[w] == [] :: w in results && results[w] == [r]
    {
      hide Matches, Agrees, Keyed, T.Linked, T.Bounded, T.Staffed, D.Run, D.Initial, D.SendAll, D.Fire, D.Enabled;
      OwnKey(item);
      ghost var s := model;
      FinishFields(s, k, item.sequence, r);
      T.SendAllExact(results, item.waiters, r);
      if item.key in jobs && jobs[item.key] == item {
        jobs := jobs - {item.key};
      }
      FinishWaiters(item.waiters, r);
      Forget(item, s.jobs);
      Assemble(D.Finished(s, item.sequence, r).(workers := s.workers[k := None]));
      Record(D.Finish(k, r));
    }

    /** A worker that finds the queue closed exits. */
    method Exit(ghost k: D.Worker)
      requires Valid() && closed && D.Idle(model, k)
      modifies this
      ensures Valid() && running == old(running) - 1 && D.Enabled(old(model), D.Exit(k)) && model == D.Fire(old(model), D.Exit(k))
      ensures log == old(log) + [D.Exit(k)]
    {
      hide Agrees, Keyed, T.Linked, T.Bounded, T.Staffed, D.Run, D.Initial, D.Fire, D.Enabled;
      OneGone(model, k);
      running := running - 1;
      Record(D.Exit(k));
    }

    // ---- closing -------------------------------------------------------------------------------

    /** What `Close` does under the lock: the first time every pending job is answered, best first; later, nothing. */
    method Close() returns (ghost order: seq<D.Id>)
      requires Valid()
      modifies this, pending, pending.Repr
      ensures Valid() && closed && pending.Repr == old(pending.Repr)
      ensures old(closed) ==> D.Enabled(old(model), D.CloseAgain) && model == D.Fire(old(model), D.CloseAgain)
                              && log == old(log) + [D.CloseAgain]
      ensures !old(closed) ==> && D.Enabled(old(model), D.Close(order)) && model == D.Fire(old(model), D.Close(order))
                               && log == old(log) + [D.Close(order)] && pending.items == []
    {
      hide Matches, Agrees, T.KeysOk, T.WaitersOk, T.Bounded, T.Staffed, D.Run, D.Initial, D.DropAll, D.Drop, D.IsFirst, D.InOrder;
      order := [];
      Faces();
      if closed {
        RecordStep(D.CloseAgain);
        return;
      }
      ghost var start := model.(closed := true);
      closed := true;
      Shutting(start);
      ghost var s := start;
      while pending.items != []
        invariant Matches(s) && T.Linked(s) && closed && pending.Repr == old(pending.Repr) && model == old(model) && log == old(log)
        invariant running == old(running)
        invariant s == D.DropAll(start, order) && PopsTo(start.jobs, order, s.jobs)
        decreases |D.Pending(s.jobs)|
      {
        NextToDrop(s);
        ghost var id := pending.items[0].sequence;
        DropSnoc(start, order, id);
        PopsSnoc(start.jobs, order, s.jobs, id);
        T.DropLinked(s, id, D.Shut);
        DropShrinks(s, id);
        DropFirst(D.Shut, s);
        s, order := D.Drop(s, id, D.Shut), order + [id];
      }
      NothingPending(s);
      PopsAll(start.jobs, order, s.jobs);
      RecordStep(D.Close(order));
    }

    /** The end of the first `Close`: with no worker left it returns, and everybody has been answered. */
    method AwaitWorkers()
      requires Valid() && closed && running == 0 && !model.returned
      modifies this
      ensures Valid() && D.Enabled(old(model), D.CloseReturns) && model == D.Fire(old(model), D.CloseReturns)
      ensures log == old(log) + [D.CloseReturns] && results == old(results)
      ensures forall w | w in results :: |results[w]| == 1
    {
      hide Agrees, Keyed, T.Linked, T.Bounded, T.Staffed, D.Run, D.Initial;
      NobodyLeft(model.workers);
      assert T.Reached(model);
      T.CloseReturnsAnswered(model);
      RecordStep(D.CloseReturns);
    }

    lemma Shutting(start: D.State)
      requires model.closed == false && start == model.(closed := true) && closed && T.Linked(model)
      requires Agrees(model.jobs) && Keyed(model.keys, jobs, live) && model.capacity == capacity && model.next == next && model.results == results
      ensures Matches(start) && T.Linked(start) && start == D.DropAll(start, []) && PopsTo(start.jobs, [], start.jobs)
    {
      hide Agrees, Keyed, T.KeysOk, T.WaitersOk;
    }

    lemma NextToDrop(s: D.State)
      requires Matches(s) && pending.items != []
      ensures D.IsFirst(s.jobs, pending.items[0].sequence) && pending.items[0].sequence in D.Pending(s.jobs)
    {
      TopIsNext(pending, s.jobs, live);
    }

    lemma NothingPending(s: D.State)
      requires Matches(s) && pending.items == []
      ensures D.Pending(s.jobs) == {}
    {
      hide IsHeap;
      PendingCount(pending, s.jobs, live);
    }
  }

  lemma DropShrinks(s: D.State, id: D.Id)
    requires id in D.Pending(s.jobs)
    ensures D.Drop(s, id, D.Shut).jobs == s.jobs - {id} && |D.Pending(s.jobs - {id})| < |D.Pending(s.jobs)|
  {
    T.PendingDrop(s.jobs, id);
  }

  /** `order` takes the first pending job each time, and leaves `rest`. */
  predicate PopsTo(jobs: map<D.Id, D.Job>, order: seq<D.Id>, rest: map<D.Id, D.Job>)
    decreases |order|
  {
    if order == [] then rest == jobs else D.IsFirst(jobs, order[0]) && PopsTo(jobs - {order[0]}, order[1..], rest)
  }

  lemma {:induction false} PopsSnoc(jobs: map<D.Id, D.Job>, order: seq<D.Id>, rest: map<D.Id, D.Job>, id: D.Id)
    requires PopsTo(jobs, order, rest) && D.IsFirst(rest, id)
    ensures PopsTo(jobs, order + [id], rest - {id})
    decreases |order|
  {
    hide D.IsFirst;
    if order == [] {
      assert order + [id] == [id];
    } else {
      assert (order + [id])[1..] == order[1..] + [id];
      PopsSnoc(jobs - {order[0]}, order[1..], rest, id);
    }
  }

  lemma {:induction false} PopsAll(jobs: map<D.Id, D.Job>, order: seq<D.Id>, rest: map<D.Id, D.Job>)
    requires PopsTo(jobs, order, rest) && D.Pending(rest) == {}
    ensures D.InOrder(jobs, order)
    decreases |order|
  {
    hide D.IsFirst;
    if order != [] {
      PopsAll(jobs - {order[0]}, order[1..], rest);
    }
  }

  lemma {:induction false} DropSnoc(s: D.State, order: seq<D.Id>, id: D.Id)
    requires id in D.DropAll(s, order).jobs
    ensures D.DropAll(s, order + [id]) == D.Drop(D.DropAll(s, order), id, D.Shut)
    decreases |order|
  {
    hide D.Drop;
    if order == [] {
      assert order + [id] == [id];
      assert D.DropAll(D.Drop(s, id, D.Shut), []) == D.Drop(s, id, D.Shut);
    } else {
      assert (order + [id])[1..] == order[1..] + [id];
      DropSnoc(if order[0] in s.jobs then D.Drop(s, order[0], D.Shut) else s, order[1..], id);
    }
  }

  lemma {:induction false} WithoutFrom(q: seq<D.Waiter>, w: D.Waiter, i: nat)
    requires i <= |q| && w !in q[..i] && (i < |q| ==> q[i] == w)
    ensures D.Without(q, w) == if i < |q| then q[..i] + q[i + 1..] else q
  {
    if q != [] && i > 0 {
      assert q[1..][..i - 1] == q[..i][1..];
      assert q[0] == q[..i][0];
      WithoutFrom(q[1..], w, i - 1);
      assert q == [q[0]] + q[1..];
    }
  }

  datatype Reply = AlreadyOver | Replied(answer: D.Answer)
}
