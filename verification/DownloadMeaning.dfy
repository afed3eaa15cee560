/** What each critical section of the download queue does, said without the functions that compute it. */
module DownloadMeaning {
  import opened Wrappers
  import opened DownloadSpec
  import opened DownloadTheorems

  /** The waiter has no result yet and waits for the job of its key, which will not be taken later than it asked. */
  predicate Waits(t: State, key: Key, priority: int, w: Waiter) {
    && w in t.results && t.results[w] == []
    && key in t.keys && t.keys[key] in t.jobs && t.jobs[t.keys[key]].key == key && w in t.jobs[t.keys[key]].waiters
    && (!t.jobs[t.keys[key]].active ==> t.jobs[t.keys[key]].priority >= priority)
  }

  /** No pending job could make room for the request. */
  predicate NoRoom(s: State, key: Key, priority: int) {
    key !in s.keys && |Pending(s.jobs)| == s.capacity && forall id | id in Pending(s.jobs) :: priority <= s.jobs[id].priority
  }

  /** A request is refused exactly when the queue is closed, turned away exactly when a full queue holds nothing of lower
      priority, and otherwise accepted; then, and only then, its waiter waits. */
  lemma EnqueueMeans(s: State, key: Key, priority: int, w: Waiter, victim: Id)
    requires Reached(s) && Enabled(s, Enqueue(key, priority, w, victim))
    ensures var t, answer := Fire(s, Enqueue(key, priority, w, victim)), Answered(s, key, priority, victim);
      && (answer == Refused <==> s.closed)
      && (answer == Full <==> !s.closed && NoRoom(s, key, priority))
      && (answer == Accepted <==> w in t.results)
      && (answer == Accepted ==> Waits(t, key, priority, w))
      && (answer != Accepted ==> t == s)
  {
    hide Reached, Staffed;
    ReachedSound(s);
    hide WaitersOk;
    if Answered(s, key, priority, victim) == Accepted {
      AcceptedWaits(s, key, priority, w, victim);
    }
    if !s.closed && key !in s.keys && IsFull(s) {
      assert victim in Pending(s.jobs);
    }
    assert w !in s.results;
  }

  lemma AcceptedWaits(s: State, key: Key, priority: int, w: Waiter, victim: Id)
    requires Sound(s) && Enabled(s, Enqueue(key, priority, w, victim)) && Answered(s, key, priority, victim) == Accepted
    ensures Waits(Fire(s, Enqueue(key, priority, w, victim)), key, priority, w)
  {
    hide WaitersOk, IsLast, Pending;
    if key in s.keys {
      assert s.keys[key] in s.jobs;
    }
  }

  /** Whoever asks for a key that is there joins its job behind those who wait already, and may move it up, never down. */
  lemma JoinMeans(s: State, key: Key, priority: int, w: Waiter, victim: Id)
    requires Reached(s) && Enabled(s, Enqueue(key, priority, w, victim)) && !s.closed && key in s.keys
    ensures key in s.keys && s.keys[key] in s.jobs
    ensures var t, id := Fire(s, Enqueue(key, priority, w, victim)), s.keys[key];
      && t.keys == s.keys && id in t.jobs && t.jobs - {id} == s.jobs - {id} && t.results == s.results[w := []]
      && t.jobs[id].waiters == s.jobs[id].waiters + [w] && t.jobs[id].active == s.jobs[id].active
      && t.jobs[id].priority == if s.jobs[id].active || priority <= s.jobs[id].priority then s.jobs[id].priority else priority
  {
    hide Reached, Staffed, WaitersOk, IsLast, Pending;
    ReachedSound(s);
  }

  /** A new key gets a job of its own, younger than all others, with the one waiter. */
  lemma NewJobMeans(s: State, key: Key, priority: int, w: Waiter, victim: Id)
    requires Reached(s) && Enabled(s, Enqueue(key, priority, w, victim)) && !s.closed && key !in s.keys && !NoRoom(s, key, priority)
    ensures var t := Fire(s, Enqueue(key, priority, w, victim));
      && key in t.keys && t.keys[key] in t.jobs && t.jobs[t.keys[key]] == Job(key, priority, [w], false)
      && (forall id | id in s.jobs :: id < t.keys[key])
      && (forall id | id in t.jobs && id != t.keys[key] :: id in s.jobs && t.jobs[id] == s.jobs[id])
      && (forall id | id in s.jobs && id !in t.jobs :: id == victim)
      && (|Pending(s.jobs)| < s.capacity ==> forall id | id in s.jobs :: id in t.jobs)
      && (forall v | v in s.results :: v in t.results &&
            t.results[v] == if victim !in t.jobs && victim in s.jobs && v in s.jobs[victim].waiters then [Displaced] else s.results[v])
  {
    hide Reached, Staffed;
    ReachedSound(s);
    if IsFull(s) {
      assert victim in Pending(s.jobs);
      SendAllExact(s.results, s.jobs[victim].waiters, Displaced);
    }
  }

  /** Who is cancelled before having a result gets that, and nobody else is sent anything. A job loses the waiter; without
      any left, a pending one goes away, and an active one goes on without its key, which the next request takes anew. */
  lemma CancelMeans(s: State, id: Id, w: Waiter)
    requires Reached(s) && Enabled(s, Cancel(id, w)) && w in s.results && s.results[w] == []
    ensures id in s.jobs
    ensures var t := Fire(s, Cancel(id, w));
      && t.results == s.results[w := [Cancelled]] && t.closed == s.closed && t.jobs - {id} == s.jobs - {id}
      && (id in t.jobs <==> s.jobs[id].active || exists v :: v in s.jobs[id].waiters && v != w)
      && (id in t.jobs ==>
            && t.jobs[id].key == s.jobs[id].key && t.jobs[id].active == s.jobs[id].active && t.jobs[id].priority == s.jobs[id].priority
            && forall v :: v in t.jobs[id].waiters <==> v in s.jobs[id].waiters && v != w)
      && (s.jobs[id].key in t.keys <==> exists v :: v in s.jobs[id].waiters && v != w)
      && (forall k | k != s.jobs[id].key :: (k in t.keys <==> k in s.keys) && (k in s.keys ==> t.keys[k] == s.keys[k]))
  {
    hide Reached, Staffed, Bounded, Sound, WaitersOk, KeysOk, Without, Send;
    ReachedSound(s);
    OwnJob(s, w);
    LeftBehind(s.jobs[id].waiters, w);
  }

  lemma OwnJob(s: State, w: Waiter)
    requires Sound(s) && w in s.results && s.results[w] == []
    ensures w in s.home && s.home[w] in s.jobs && w in s.jobs[s.home[w]].waiters && Distinct(s.jobs[s.home[w]].waiters)
    ensures var j := s.jobs[s.home[w]]; j.key in s.keys && s.keys[j.key] == s.home[w] && Send(s.results, w, Cancelled) == s.results[w := [Cancelled]]
  {
  }

  lemma LeftBehind(waiters: seq<Waiter>, w: Waiter)
    requires Distinct(waiters)
    ensures forall v :: v in Without(waiters, w) <==> v in waiters && v != w
    ensures Without(waiters, w) != [] <==> exists v :: v in waiters && v != w
  {
    WithoutExact(waiters, w);
    var left := Without(waiters, w);
    if left != [] {
      assert left[0] in left;
    }
  }

  /** Who is cancelled too late keeps the result, and nothing happens. */
  lemma CancelTooLate(s: State, id: Id, w: Waiter)
    requires Reached(s) && Enabled(s, Cancel(id, w)) && w in s.results && s.results[w] != []
    ensures Fire(s, Cancel(id, w)) == s
  {
  }

  /** An idle worker takes the oldest of the jobs of highest priority, and changes nothing but that it is being fetched. */
  lemma TakeMeans(s: State, k: Worker, id: Id)
    requires Reached(s) && Enabled(s, Take(k, id))
    ensures id in s.jobs && !s.jobs[id].active
    ensures forall other | other in s.jobs && !s.jobs[other].active && other != id ::
      s.jobs[other].priority < s.jobs[id].priority || (s.jobs[other].priority == s.jobs[id].priority && id < other)
    ensures Fire(s, Take(k, id)) == s.(jobs := s.jobs[id := s.jobs[id].(active := true)], workers := s.workers[k := Some(id)])
  {
    forall other | other in s.jobs && !s.jobs[other].active ensures other in Pending(s.jobs) {
    }
  }

  /** A job whose fetch ends is gone, and its key is free unless another job has taken it over. */
  lemma FinishMeans(s: State, k: Worker, r: Result)
    requires Reached(s) && Enabled(s, Finish(k, r))
    ensures var t, id := Fire(s, Finish(k, r)), s.workers[k].value;
      && t.jobs == s.jobs - {id} && t.workers == s.workers[k := None] && t.closed == s.closed
      && (forall key :: key in t.keys <==> key in s.keys && s.keys[key] != id)
      && (forall key | key in t.keys :: t.keys[key] == s.keys[key])
  {
    hide Reached, Staffed, WaitersOk;
    ReachedSound(s);
  }

  /** Everyone who waited for a pending job has been told that the queue is shut; the fetches and their waiters are left
      alone. */
  ghost predicate ShutDown(s: State, t: State) {
    && t.results.Keys == s.results.Keys && s.home.Keys == s.results.Keys
    && (forall id :: id in t.jobs <==> id in s.jobs && s.jobs[id].active) && (forall id | id in t.jobs :: t.jobs[id] == s.jobs[id])
    && (forall w | w in s.results :: t.results[w] ==
          if s.results[w] == [] && s.home[w] in s.jobs && !s.jobs[s.home[w]].active then [Shut] else s.results[w])
  }

  lemma CloseMeans(s: State, order: seq<Id>)
    requires Reached(s) && Enabled(s, Close(order))
    ensures ShutDown(s, Fire(s, Close(order))) && Fire(s, Close(order)).closed
  {
    hide Reached, Staffed, Sound, InOrder;
    ReachedSound(s);
    ShutMarks(s, order);
    DropAllExact(s, order);
  }

  lemma {:induction false} DropAllExact(s: State, order: seq<Id>)
    requires Sound(s) && InOrder(s.jobs, order)
    ensures ShutDown(s, DropAll(s, order))
    decreases |order|
  {
    hide Sound, ShutDown, Drop;
    if order == [] {
      NothingToShut(s);
    } else {
      FirstKnown(s.jobs, order[0]);
      DropSound(s, order[0], Shut);
      assert Drop(s, order[0], Shut).jobs == s.jobs - {order[0]} by {
        DropsJob(s, order[0]);
      }
      DropAllExact(Drop(s, order[0], Shut), order[1..]);
      DropOne(s, order[0], DropAll(Drop(s, order[0], Shut), order[1..]));
    }
  }

  lemma DropsJob(s: State, id: Id)
    requires id in s.jobs
    ensures Drop(s, id, Shut).jobs == s.jobs - {id}
  {
  }

  lemma NothingToShut(s: State)
    requires Sound(s) && Pending(s.jobs) == {}
    ensures ShutDown(s, s)
  {
    assert forall id | id in s.jobs :: s.jobs[id].active || id in Pending(s.jobs);
  }

  lemma DropOne(s: State, id: Id, t: State)
    requires Sound(s) && id in Pending(s.jobs) && ShutDown(Drop(s, id, Shut), t)
    ensures ShutDown(s, t)
  {
    hide KeysOk, Bounded;
    SendAllExact(s.results, s.jobs[id].waiters, Shut);
  }
}
