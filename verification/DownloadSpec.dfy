/** The download queue as a state machine: each event is one critical section of the program. */
module DownloadSpec {
  import opened Wrappers

  type Key = string
  type Id = nat
  type Waiter = nat
  type Worker = nat

  datatype Result = Fetched(value: int) | FetchFailed | Cancelled | Displaced | Shut

  datatype Job = Job(key: Key, priority: int, waiters: seq<Waiter>, active: bool)

  /** `jobs` holds pending and active jobs by sequence number; `results` holds what each accepted waiter's channel was
      sent; `home` remembers the job each waiter was attached to. `workers` holds the workers that have not exited, with
      the job each is fetching; `returned` says that the call that closed the queue has returned. */
  datatype State = State(closed: bool, capacity: nat, next: Id, keys: map<Key, Id>, jobs: map<Id, Job>,
                         results: map<Waiter, seq<Result>>, home: map<Waiter, Id>,
                         workers: map<Worker, Option<Id>>, returned: bool)

  /** Workers that have nothing to do yet. */
  function Crew(size: nat): (workers: map<Worker, Option<Id>>)
    ensures |workers| == size && forall k: Worker :: k in workers <==> k < size
    ensures forall k | k in workers :: workers[k] == None
  {
    if size == 0 then map[] else Crew(size - 1)[size - 1 := None]
  }

  function Initial(capacity: nat, crew: nat): State {
    State(false, capacity, 0, map[], map[], map[], map[], Crew(crew), false)
  }

  function Pending(jobs: map<Id, Job>): set<Id> {
    set id | id in jobs && !jobs[id].active
  }

  /** The order in which workers take jobs. */
  predicate Before(a: Job, i: Id, b: Job, j: Id) {
    a.priority > b.priority || (a.priority == b.priority && i < j)
  }

  predicate IsFirst(jobs: map<Id, Job>, id: Id) {
    id in Pending(jobs) && forall other | other in Pending(jobs) && other != id :: Before(jobs[id], id, jobs[other], other)
  }

  predicate IsLast(jobs: map<Id, Job>, id: Id) {
    id in Pending(jobs) && forall other | other in Pending(jobs) && other != id :: Before(jobs[other], other, jobs[id], id)
  }

  /** `finishWaiterLocked`: a waiter is sent one result. */
  function Send(results: map<Waiter, seq<Result>>, w: Waiter, r: Result): map<Waiter, seq<Result>> {
    if w in results && results[w] == [] then results[w := [r]] else results
  }

  function SendAll(results: map<Waiter, seq<Result>>, waiters: seq<Waiter>, r: Result): map<Waiter, seq<Result>>
    decreases |waiters|
  {
    if waiters == [] then results else SendAll(Send(results, waiters[0], r), waiters[1..], r)
  }

  function Without(waiters: seq<Waiter>, w: Waiter): seq<Waiter> {
    if waiters == [] then [] else if waiters[0] == w then waiters[1..] else [waiters[0]] + Without(waiters[1..], w)
  }

  /** `Close` is the critical section of the first call, and `CloseReturns` its return once all workers have exited; a
      later call returns at once. */
  datatype Event =
    | Enqueue(key: Key, priority: int, w: Waiter, victim: Id)
    | Cancel(id: Id, w: Waiter)
    | Take(k: Worker, id: Id)
    | Finish(k: Worker, result: Result)
    | Exit(k: Worker)
    | Close(order: seq<Id>)
    | CloseReturns
    | CloseAgain

  datatype Answer = Accepted | Refused | Full

  function Attach(s: State, id: Id, priority: int, w: Waiter): State
    requires id in s.jobs
  {
    var j := s.jobs[id];
    var raised := if !j.active && priority > j.priority then priority else j.priority;
    s.(jobs := s.jobs[id := j.(waiters := j.waiters + [w], priority := raised)], results := s.results[w := []], home := s.home[w := id])
  }

  /** Take a pending job out and answer its waiters. */
  function Drop(s: State, id: Id, r: Result): State
    requires id in s.jobs
  {
    s.(jobs := s.jobs - {id}, keys := s.keys - {s.jobs[id].key}, results := SendAll(s.results, s.jobs[id].waiters, r))
  }

  function Add(s: State, key: Key, priority: int, w: Waiter): State {
    var id := s.next + 1;
    s.(next := id, jobs := s.jobs[id := Job(key, priority, [w], false)], keys := s.keys[key := id],
       results := s.results[w := []], home := s.home[w := id])
  }

  predicate IsFull(s: State) {
    |Pending(s.jobs)| >= s.capacity
  }

  /** Whether a full queue takes the request by displacing `victim`. */
  predicate Displaces(s: State, priority: int, victim: Id) {
    victim in s.jobs && priority > s.jobs[victim].priority
  }

  function Answered(s: State, key: Key, priority: int, victim: Id): Answer {
    if s.closed then Refused
    else if key in s.keys || !IsFull(s) || Displaces(s, priority, victim) then Accepted
    else Full
  }

  function Enqueued(s: State, key: Key, priority: int, w: Waiter, victim: Id): State {
    if s.closed then s
    else if key in s.keys && s.keys[key] in s.jobs then Attach(s, s.keys[key], priority, w)
    else if !IsFull(s) then Add(s, key, priority, w)
    else if Displaces(s, priority, victim) then Add(Drop(s, victim, Displaced), key, priority, w)
    else s
  }

  /** `cancelWaiter`: the last waiter takes a pending job with it, and an active job's claim to its key. */
  function Cancels(s: State, id: Id, w: Waiter): State {
    if w !in s.results || s.results[w] != [] || id !in s.jobs then s else
    var j := s.jobs[id].(waiters := Without(s.jobs[id].waiters, w));
    var t := s.(results := Send(s.results, w, Cancelled));
    if j.waiters != [] then t.(jobs := s.jobs[id := j])
    else t.(jobs := if j.active then s.jobs[id := j] else s.jobs - {id},
            keys := if j.key in s.keys && s.keys[j.key] == id then s.keys - {j.key} else s.keys)
  }

  function Finished(s: State, id: Id, r: Result): State
    requires id in s.jobs
  {
    var j := s.jobs[id];
    s.(jobs := s.jobs - {id}, results := SendAll(s.results, j.waiters, r),
       keys := if j.key in s.keys && s.keys[j.key] == id then s.keys - {j.key} else s.keys)
  }

  /** The jobs that `Close` pops, best first. */
  function DropAll(s: State, order: seq<Id>): State
    decreases |order|
  {
    if order == [] then s else DropAll(if order[0] in s.jobs then Drop(s, order[0], Shut) else s, order[1..])
  }

  predicate InOrder(jobs: map<Id, Job>, order: seq<Id>)
    decreases |order|
  {
    if order == [] then Pending(jobs) == {} else IsFirst(jobs, order[0]) && InOrder(jobs - {order[0]}, order[1..])
  }

  predicate Idle(s: State, k: Worker) {
    k in s.workers && s.workers[k].None?
  }

  predicate Fetching(s: State, k: Worker) {
    k in s.workers && s.workers[k].Some? && s.workers[k].value in s.jobs && s.jobs[s.workers[k].value].active
  }

  function Start(s: State, k: Worker, id: Id): State
    requires id in s.jobs
  {
    s.(jobs := s.jobs[id := s.jobs[id].(active := true)], workers := s.workers[k := Some(id)])
  }

  predicate Enabled(s: State, e: Event) {
    match e
    case Enqueue(key, _, w, victim) =>
      w !in s.results && (!s.closed && key !in s.keys && IsFull(s) && Pending(s.jobs) != {} ==> IsLast(s.jobs, victim))
    case Cancel(id, w) => w in s.home && s.home[w] == id
    case Take(k, id) => !s.closed && Idle(s, k) && IsFirst(s.jobs, id)
    case Finish(k, _) => Fetching(s, k)
    case Exit(k) => s.closed && Idle(s, k)
    case Close(order) => !s.closed && InOrder(s.jobs, order)
    case CloseReturns => s.closed && !s.returned && s.workers == map[]
    case CloseAgain => s.closed
  }

  function Fire(s: State, e: Event): State
    requires Enabled(s, e)
  {
    match e
    case Enqueue(key, priority, w, victim) => Enqueued(s, key, priority, w, victim)
    case Cancel(id, w) => Cancels(s, id, w)
    case Take(k, id) => Start(s, k, id)
    case Finish(k, r) => Finished(s, s.workers[k].value, r).(workers := s.workers[k := None])
    case Exit(k) => s.(workers := s.workers - {k})
    case Close(order) => DropAll(s.(closed := true), order)
    case CloseReturns => s.(returned := true)
    case CloseAgain => s
  }

  function Step(s: State, e: Event): State {
    if Enabled(s, e) then Fire(s, e) else s
  }

  function Run(s: State, events: seq<Event>): State
    decreases |events|
  {
    if events == [] then s else Run(Step(s, events[0]), events[1..])
  }
}
