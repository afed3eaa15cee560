/** The sync coordinator as a state machine. Each event is one critical section, one wait that ends, or one
    outside call that returns; any interleaving of its goroutines is a sequence of events. */
module CoordinatorSpec {
  import opened Wrappers

  /** `Every` is the empty source name, which a request uses to mean all sources. */
  datatype Source = Every | Named(name: string)
  type Package = string
  type Id = nat

  datatype Root = Unset | Live | Dead

  /** Where a source job's goroutine is. `Handing` gives its slot back and returns to the queue, `Dropping` gives
      it back and leaves, `Ending` has run, `Leaving` returns, and `Gone` has cancelled its own context. */
  datatype Place = Queued | Awaiting | Slotted | Handing | Dropping | Running | Ending | Leaving | Gone

  datatype Work = Refreshing | Ranging | Fallback

  /** `ticket` is absent, open (`Some(true)`) or complete. `yielded` is the cause of cancellation. */
  datatype Job = Job(source: Source, work: Work, ticket: Option<bool>, cancelled: bool, yielded: bool,
                     reserved: bool, begun: bool, terminal: bool, place: Place, snapshot: seq<Package>)

  datatype Stage = Idle | Active | Stored(packages: seq<Package>) | Settled(ok: bool) | Closed(ok: bool)
  datatype Lookup = Lookup(previous: Option<Id>, stage: Stage, cancelled: bool, reusable: bool, packages: seq<Package>)

  datatype SetupStage = Caching | Loading(joined: Option<Id>, reused: bool) | Joining(joined: Option<Id>, reused: bool)
    | Rejoining(retry: Id) | Finishing
  datatype Setup = Setup(ticket: Option<bool>, scheduled: bool, stage: SetupStage)

  /** A request kept until the sources are known; an empty source means all of them. */
  datatype Op = Op(source: Source, refresh: bool, initial: bool)

  /** `admitted` remembers every installed lookup in order of admission; the program keeps no such list. */
  datatype State = State(
    root: Root, closed: bool, started: bool, sourcesReady: bool, hasInstalled: bool, nextId: Id,
    sources: seq<Source>, setup: Option<Id>, setups: map<Id, Setup>, pending: seq<Op>,
    queues: map<Source, seq<Id>>, jobs: map<Id, Job>, slots: nat,
    lookupQueue: seq<Id>, lookups: map<Id, Lookup>, admitted: seq<Id>, installed: seq<Package>, installedValid: bool, installedChanged: bool,
    fallbackSources: set<Source>, parked: set<Source>, active: int, initialActive: int)

  const SLOTS: nat := 2

  function Initial(sources: seq<Source>, discovers: bool, hasInstalled: bool): State {
    State(Unset, false, false, !discovers, hasInstalled, 0, sources, None, map[], [], map[], map[], 0,
          [], map[], [], [], false, false, {}, {}, 0, 0)
  }

  // ---- queues -------------------------------------------------------------------------------

  function Line(queues: map<Source, seq<Id>>, source: Source): seq<Id> {
    if source in queues then queues[source] else []
  }

  function PutLine(queues: map<Source, seq<Id>>, source: Source, q: seq<Id>): map<Source, seq<Id>> {
    if q == [] then queues - {source} else queues[source := q]
  }

  function QueueOf(s: State, source: Source): seq<Id> {
    Line(s.queues, source)
  }

  /** A job that a new request may join. */
  predicate Waiting(j: Job) {
    !j.begun && !j.terminal && !j.cancelled
  }

  predicate Joins(j: Job, work: Work) {
    Waiting(j) && j.work == work && (work.Refreshing? || work.Fallback?)
  }

  predicate JoinsAt(jobs: map<Id, Job>, id: Id, work: Work) {
    id in jobs && Joins(jobs[id], work)
  }

  function JoinFrom(jobs: map<Id, Job>, q: seq<Id>, i: nat, work: Work): (n: nat)
    requires i <= |q|
    ensures i <= n <= |q| && (n < |q| ==> JoinsAt(jobs, q[n], work))
    ensures forall k :: i <= k < n ==> !JoinsAt(jobs, q[k], work)
    decreases |q| - i
  {
    if i == |q| || JoinsAt(jobs, q[i], work) then i else JoinFrom(jobs, q, i + 1, work)
  }

  predicate Overtaken(j: Job) {
    j.work.Fallback? && !j.reserved
  }

  predicate OvertakenAt(jobs: map<Id, Job>, id: Id) {
    id in jobs && Overtaken(jobs[id])
  }

  /** Where a refresh goes: before the first fallback that has not reserved the source. */
  function PlaceFrom(jobs: map<Id, Job>, q: seq<Id>, i: nat): (n: nat)
    requires i <= |q|
    ensures i <= n <= |q| && (n < |q| ==> OvertakenAt(jobs, q[n]))
    ensures forall k :: i <= k < n ==> !OvertakenAt(jobs, q[k])
    decreases |q| - i
  {
    if i == |q| || OvertakenAt(jobs, q[i]) then i else PlaceFrom(jobs, q, i + 1)
  }

  predicate RefreshAt(jobs: map<Id, Job>, id: Id) {
    id in jobs && jobs[id].work.Refreshing?
  }

  function NewJob(root: Root, source: Source, work: Work, initial: bool): Job {
    Job(source, work, if initial then Some(true) else None, !root.Live?, false, false, false, false, Queued, [])
  }

  function OpenTicket(s: State, id: Id): State
    requires id in s.jobs
  {
    s.(jobs := s.jobs[id := s.jobs[id].(ticket := Some(true))], initialActive := s.initialActive + 1)
  }

  function Insert(q: seq<Id>, at: nat, id: Id): seq<Id>
    requires at <= |q|
  {
    q[..at] + [id] + q[at..]
  }

  /** The tickets a piece of work opens. */
  function Tickets(initial: bool): int {
    if initial then 1 else 0
  }

  function Admit(s: State, source: Source, work: Work, initial: bool, at: nat): State
    requires at <= |QueueOf(s, source)|
  {
    var q := QueueOf(s, source);
    s.(nextId := s.nextId + 1,
       jobs := s.jobs[s.nextId := NewJob(s.root, source, work, initial)],
       queues := s.queues[source := Insert(q, at, s.nextId)],
       active := s.active + 1,
       initialActive := s.initialActive + Tickets(initial))
  }

  /** `scheduleLocked`. */
  function Schedule(s: State, source: Source, work: Work, initial: bool): State
  {
    if s.closed then s else
    var q := QueueOf(s, source);
    var n := JoinFrom(s.jobs, q, 0, work);
    if n < |q| then
      if initial && s.jobs[q[n]].ticket.None? then OpenTicket(s, q[n]) else s
    else Admit(s, source, work, initial, if work.Refreshing? then PlaceFrom(s.jobs, q, 0) else |q|)
  }

  function ScheduleAll(s: State, sources: seq<Source>, op: Op): State
    decreases |sources|
  {
    if sources == [] then s else
    var t := if op.source == Every || op.source == sources[0]
             then Schedule(s, sources[0], if op.refresh then Refreshing else Ranging, op.initial) else s;
    ScheduleAll(t, sources[1..], op)
  }

  function ScheduleOps(s: State, ops: seq<Op>): State
    decreases |ops|
  {
    if ops == [] then s else ScheduleOps(ScheduleAll(s, s.sources, ops[0]), ops[1..])
  }

  /** `scheduleHistoricalFallbackLocked`: park behind installed lookups, else schedule if anything is installed. */
  function ScheduleFallback(s: State, source: Source): State
  {
    if s.closed || s.root.Unset? then s
    else if s.lookupQueue != [] then s.(parked := s.parked + {source})
    else if s.installed != [] then Schedule(s, source, Fallback, false)
    else s
  }

  function ScheduleFallbacks(s: State, sources: seq<Source>): State
    decreases |sources|
  {
    if sources == [] then s else ScheduleFallbacks(ScheduleFallback(s, sources[0]), sources[1..])
  }

  // ---- requests before the sources are known -------------------------------------------------

  /** The pending request does at least what the other asks, and is waited for at least as long. */
  predicate Covers(p: Op, q: Op) {
    p.refresh && q.refresh && (p.source == Every || p.source == q.source) && (q.initial ==> p.initial)
  }

  /** What the search through the pending operations does at each of them. */
  datatype Match = Pass | Merge | Enough

  function MatchOp(p: Op, op: Op): Match {
    if !p.refresh then Pass
    else if p.source == op.source then Merge
    else if p.source == Every && (!op.initial || p.initial) then Enough
    else Pass
  }

  function MatchFrom(pending: seq<Op>, op: Op, i: nat): (n: nat)
    requires i <= |pending|
    ensures i <= n <= |pending| && (n < |pending| ==> !MatchOp(pending[n], op).Pass?)
    ensures forall k :: i <= k < n ==> MatchOp(pending[k], op).Pass?
    decreases |pending| - i
  {
    if i == |pending| || !MatchOp(pending[i], op).Pass? then i else MatchFrom(pending, op, i + 1)
  }

  predicate Survives(p: Op, op: Op) {
    !p.refresh || (!op.initial && p.initial)
  }

  function Keep(pending: seq<Op>, op: Op): seq<Op> {
    if pending == [] then [] else
    var n := |pending| - 1;
    Keep(pending[..n], op) + if Survives(pending[n], op) then [pending[n]] else []
  }

  /** `queuePendingLocked`. */
  function QueuePending(pending: seq<Op>, op: Op): seq<Op> {
    if !op.refresh then pending + [op] else
    var n := MatchFrom(pending, op, 0);
    if n < |pending| then
      if MatchOp(pending[n], op).Merge? then pending[n := pending[n].(initial := pending[n].initial || op.initial)] else pending
    else (if op.source == Every then Keep(pending, op) else pending) + [op]
  }

  // ---- lookups of installed packages --------------------------------------------------------

  function EnqueueLookup(s: State, reusable: bool): State {
    var previous := if s.lookupQueue == [] then None else Some(s.lookupQueue[|s.lookupQueue| - 1]);
    s.(nextId := s.nextId + 1,
       lookups := s.lookups[s.nextId := Lookup(previous, Idle, s.root.Dead?, reusable, [])],
       lookupQueue := s.lookupQueue + [s.nextId], admitted := s.admitted + [s.nextId],
       installedValid := false,
       active := s.active + 1)
  }

  predicate Shared(s: State) {
    s.lookupQueue != [] &&
    var last := s.lookupQueue[|s.lookupQueue| - 1];
    last in s.lookups && s.lookups[last].reusable && !s.lookups[last].cancelled
  }

  /** `startInstalledLocked`. */
  function StartLookup(s: State): State {
    if !s.hasInstalled || Shared(s) then s else EnqueueLookup(s, true)
  }

  function Joined(s: State): Option<Id> {
    if !s.hasInstalled then None
    else if Shared(s) then Some(s.lookupQueue[|s.lookupQueue| - 1])
    else Some(s.nextId)
  }

  predicate Finished(s: State, id: Id) {
    id in s.lookups && s.lookups[id].stage.Closed?
  }

  // ---- cancellation --------------------------------------------------------------------------

  function Cancelled(jobs: map<Id, Job>): map<Id, Job> {
    map id | id in jobs :: jobs[id].(cancelled := true)
  }

  function CancelAllLookups(s: State): State {
    s.(lookups := map id | id in s.lookups :: s.lookups[id].(cancelled := s.lookups[id].cancelled || id in s.lookupQueue))
  }

  // ---- tickets -------------------------------------------------------------------------------

  function CloseJobTicket(s: State, id: Id): State
    requires id in s.jobs
  {
    s.(jobs := s.jobs[id := s.jobs[id].(ticket := Some(false))], initialActive := s.initialActive - 1)
  }

  /** `completeLocked`: a ticket is counted down once. */
  function CompleteJobTicket(s: State, id: Id): State
    requires id in s.jobs
  {
    if s.jobs[id].ticket == Some(true) then CloseJobTicket(s, id) else s
  }

  function CloseSetupTicket(s: State, id: Id): State
    requires id in s.setups
  {
    s.(setups := s.setups[id := s.setups[id].(ticket := Some(false))], initialActive := s.initialActive - 1)
  }

  function CompleteSetupTicket(s: State, id: Id): State
    requires id in s.setups
  {
    if s.setups[id].ticket == Some(true) then CloseSetupTicket(s, id) else s
  }

  predicate AwaitingSources(s: State) {
    !s.sourcesReady || (s.setup.Some? && s.setup.value in s.setups && !s.setups[s.setup.value].scheduled)
  }

  function OpenSetupTicket(s: State, id: Id): State
    requires id in s.setups
  {
    s.(setups := s.setups[id := s.setups[id].(ticket := Some(true))], initialActive := s.initialActive + 1)
  }

  /** `includeSetupInInitialLocked`. */
  function IncludeSetup(s: State): State {
    if s.setup.Some? && s.setup.value in s.setups && s.setups[s.setup.value].ticket.None?
    then OpenSetupTicket(s, s.setup.value) else s
  }

  /** `startLocked`. */
  function StartSetup(s: State, initial: bool): State {
    s.(started := true, nextId := s.nextId + 1, setup := Some(s.nextId),
       setups := s.setups[s.nextId := Setup(if initial then Some(true) else None, false, Caching)],
       active := s.active + 1, initialActive := s.initialActive + Tickets(initial))
  }

  // ---- one source job ------------------------------------------------------------------------

  function SetJob(s: State, id: Id, j: Job): State {
    s.(jobs := s.jobs[id := j])
  }

  predicate MayReserve(s: State, id: Id)
    requires id in s.jobs
  {
    var j := s.jobs[id];
    var q := QueueOf(s, j.source);
    s.closed || (q != [] && q[0] == id && !(j.work.Fallback? && s.lookupQueue != []))
  }

  /** Move the first refresh behind the head to the front. */
  function RefreshFrom(jobs: map<Id, Job>, q: seq<Id>, i: nat): (n: nat)
    requires i <= |q|
    ensures i <= n <= |q| && (n < |q| ==> RefreshAt(jobs, q[n]))
    ensures forall k :: i <= k < n ==> !RefreshAt(jobs, q[k])
    decreases |q| - i
  {
    if i == |q| || RefreshAt(jobs, q[i]) then i else RefreshFrom(jobs, q, i + 1)
  }

  function Rotate(jobs: map<Id, Job>, q: seq<Id>): seq<Id> {
    if q == [] then q else
    var n := RefreshFrom(jobs, q, 1);
    if n == |q| then q else [q[n]] + q[..n] + q[n + 1..]
  }

  function Unreserve(s: State, id: Id): State
    requires id in s.jobs
  {
    var j := s.jobs[id];
    s.(jobs := s.jobs[id := j.(reserved := false, place := Handing)],
       queues := PutLine(s.queues, j.source, Rotate(s.jobs, QueueOf(s, j.source))))
  }

  /** With a slot in hand: give up, step back behind a lookup, end for want of packages, or begin. */
  function Begin(s: State, id: Id): State
    requires id in s.jobs
  {
    var j := s.jobs[id];
    if j.cancelled then SetJob(s, id, j.(place := Dropping))
    else if j.work.Fallback? && s.lookupQueue != [] then Unreserve(s, id)
    else if j.work.Fallback? && s.installed == [] then SetJob(s, id, j.(terminal := true, place := Dropping))
    else SetJob(s, id, j.(begun := true, place := Running, snapshot := if j.work.Fallback? then s.installed else []))
  }

  predicate RefreshBehind(jobs: map<Id, Job>, q: seq<Id>, id: Id) {
    exists other | other in q :: other != id && RefreshAt(jobs, other) && !jobs[other].begun
  }

  /** A durable batch: a fallback yields to a waiting refresh, other work completes its ticket. */
  function Checkpoint(s: State, id: Id): State
    requires id in s.jobs
  {
    var j := s.jobs[id];
    if j.work.Fallback?
    then if RefreshBehind(s.jobs, QueueOf(s, j.source), id) && !j.cancelled
         then SetJob(s, id, j.(cancelled := true, yielded := true)) else s
    else CompleteJobTicket(s, id)
  }

  datatype Outcome = Committed | Abandoned | Failed

  /** A committed recent scan asks for a fallback, a yielded fallback asks to come back. */
  predicate AsksForFallback(j: Job, outcome: Outcome) {
    match outcome
    case Committed => !j.work.Fallback?
    case Abandoned => j.cancelled && j.yielded
    case Failed => false
  }

  function Remember(s: State, source: Source): State {
    s.(fallbackSources := s.fallbackSources + {source})
  }

  function ToEnding(s: State, id: Id): State {
    if id in s.jobs then SetJob(s, id, s.jobs[id].(place := Ending)) else s
  }

  /** `scheduleHistoricalFallback`. */
  function AskFallback(s: State, source: Source): State {
    ScheduleFallback(Remember(s, source), source)
  }

  /** The end of `run`. */
  function EndRun(s: State, id: Id, outcome: Outcome): State
    requires id in s.jobs
  {
    ToEnding(if AsksForFallback(s.jobs[id], outcome) then AskFallback(s, s.jobs[id].source) else s, id)
  }

  function Without(q: seq<Id>, id: Id): seq<Id> {
    if q == [] then [] else if q[0] == id then q[1..] else [q[0]] + Without(q[1..], id)
  }

  function RemoveJob(s: State, id: Id): State
    requires id in s.jobs
  {
    var source := s.jobs[id].source;
    s.(queues := PutLine(s.queues, source, Without(QueueOf(s, source), id)), jobs := s.jobs - {id}, active := s.active - 1)
  }

  /** `doneSourceJob`. */
  function Depart(s: State, id: Id): State
    requires id in s.jobs
  {
    RemoveJob(CompleteJobTicket(s, id), id)
  }

  // ---- events --------------------------------------------------------------------------------

  datatype Event =
    | OpenRoot(live: bool) | CancelRoot | Stop
    | Start(initial: bool) | Refresh(initial: bool) | Retry(source: Source) | EnsureRange
    | RefreshInstalled | CancelLookup(id: Id)
    | LookupStart(id: Id) | LookupStore(id: Id, packages: seq<Package>) | LookupSettle(id: Id)
    | LookupFinish(id: Id, order: seq<Source>)
    | SetupCached(id: Id) | SetupFailed(id: Id) | SetupLoaded(id: Id, sources: seq<Source>) | SetupJoined(id: Id) | SetupDone(id: Id)
    | Wake(id: Id) | Acquire(id: Id) | GiveUp(id: Id) | Proceed(id: Id) | Release(id: Id)
    | Batch(id: Id) | Finish(id: Id, outcome: Outcome) | Discard(id: Id) | Done(id: Id)

  /** A refresh or retry: kept until the sources are known, else scheduled. */
  function Request(s: State, op: Op, includes: bool): State
  {
    if s.closed || s.root.Unset? then s
    else if AwaitingSources(s) then
      var t := s.(pending := QueuePending(s.pending, op));
      if op.refresh && !s.started then StartSetup(t, op.initial)
      else if includes then IncludeSetup(t) else t
    else ScheduleAll(s, s.sources, op)
  }

  predicate IsPermutation(order: seq<Source>, of: set<Source>) {
    (forall x | x in order :: x in of) && (forall x | x in of :: x in order) && forall i, j :: 0 <= i < j < |order| ==> order[i] != order[j]
  }

  function Released(s: State): set<Source> {
    s.parked + if s.installedChanged then s.fallbackSources else {}
  }

  function PopLookup(s: State, id: Id): State
    requires id in s.lookups && s.lookups[id].stage.Settled? && s.lookupQueue != []
  {
    var ok := s.lookups[id].stage.ok;
    s.(lookups := s.lookups[id := s.lookups[id].(stage := Closed(ok), cancelled := true)],
       lookupQueue := s.lookupQueue[1..],
       installedChanged := s.installedChanged || ok,
       active := s.active - 1)
  }

  function LetGo(s: State): State {
    s.(installedChanged := false, parked := {})
  }

  function FinishLookup(s: State, id: Id, order: seq<Source>): State
    requires id in s.lookups && s.lookups[id].stage.Settled? && s.lookupQueue != []
  {
    var t := PopLookup(s, id);
    if t.lookupQueue != [] then t else ScheduleFallbacks(LetGo(t), order)
  }

  predicate LookupAt(s: State, id: Id) {
    id in s.lookups && id in s.lookupQueue
  }

  predicate Enabled(s: State, e: Event) {
    match e
    case OpenRoot(_) => s.root.Unset? && !s.closed
    case CancelRoot => s.root.Live?
    case Stop => !s.closed
    case Start(_) => !s.closed && !s.root.Unset? && !s.started
    case Refresh(_) => true
    case Retry(_) => true
    case EnsureRange => true
    case RefreshInstalled => !s.closed && s.hasInstalled
    case CancelLookup(id) => LookupAt(s, id)
    case LookupStart(id) => LookupAt(s, id) && s.lookups[id].stage.Idle? &&
                            (s.lookups[id].previous.Some? ==> Finished(s, s.lookups[id].previous.value))
    case LookupStore(id, _) => LookupAt(s, id) && s.lookups[id].stage.Active?
    case LookupSettle(id) => LookupAt(s, id) && (s.lookups[id].stage.Active? || s.lookups[id].stage.Stored?)
    case LookupFinish(id, order) =>
      && LookupAt(s, id) && s.lookups[id].stage.Settled?
      && IsPermutation(order, Released(s.(installedChanged := s.installedChanged || s.lookups[id].stage.ok)))
    case SetupCached(id) => id in s.setups && s.setups[id].stage.Caching?
    case SetupFailed(id) => id in s.setups && s.setups[id].stage.Loading?
    case SetupLoaded(id, _) => id in s.setups && s.setups[id].stage.Loading?
    case SetupJoined(id) => id in s.setups && match s.setups[id].stage {
      case Joining(joined, _) => joined.None? || Finished(s, joined.value)
      case Rejoining(retry) => Finished(s, retry)
      case _ => false
    }
    case SetupDone(id) => id in s.setups && s.setups[id].stage.Finishing?
    case Wake(id) => id in s.jobs && s.jobs[id].place.Queued? && (s.jobs[id].cancelled || MayReserve(s, id))
    case Acquire(id) => id in s.jobs && s.jobs[id].place.Awaiting? && s.slots < SLOTS
    case GiveUp(id) => id in s.jobs && s.jobs[id].place.Awaiting? && s.jobs[id].cancelled
    case Proceed(id) => id in s.jobs && s.jobs[id].place.Slotted?
    case Release(id) => id in s.jobs && s.slots > 0 &&
                        (s.jobs[id].place.Handing? || s.jobs[id].place.Dropping? || s.jobs[id].place.Ending?)
    case Batch(id) => id in s.jobs && s.jobs[id].place.Running?
    case Finish(id, _) => id in s.jobs && s.jobs[id].place.Running?
    case Discard(id) => id in s.jobs && s.jobs[id].place.Leaving?
    case Done(id) => id in s.jobs && s.jobs[id].place.Gone?
  }

  function Ended(root: Root): Root {
    if root.Unset? then Unset else Dead
  }

  function EndedJobs(root: Root, jobs: map<Id, Job>): map<Id, Job> {
    if root.Unset? then jobs else Cancelled(jobs)
  }

  function CloseDown(s: State): State {
    s.(closed := true, pending := [], root := Ended(s.root), jobs := EndedJobs(s.root, s.jobs))
  }

  /** `Stop`. */
  function Shutdown(s: State): State {
    CancelAllLookups(CloseDown(s))
  }

  function RemoveSetup(s: State, id: Id): State {
    s.(setups := s.setups - {id}, setup := if s.setup == Some(id) then None else s.setup, active := s.active - 1)
  }

  /** `doneSetup`. */
  function LeaveSetup(s: State, id: Id): State
    requires id in s.setups
  {
    RemoveSetup(CompleteSetupTicket(s, id), id)
  }

  function SetSetup(s: State, id: Id, u: Setup): State {
    s.(setups := s.setups[id := u])
  }

  function Publish(s: State, sources: seq<Source>): State {
    s.(sources := sources, sourcesReady := true, pending := [])
  }

  /** Discovery succeeds: a refresh of every source, then the pending operations. */
  function CatchUp(s: State, sources: seq<Source>, initial: bool): State {
    ScheduleOps(ScheduleAll(Publish(s, sources), sources, Op(Every, true, initial)), s.pending)
  }

  function Loaded(s: State, id: Id, sources: seq<Source>): State
    requires id in s.setups && s.setups[id].stage.Loading?
  {
    var u := s.setups[id];
    var v := u.(stage := Joining(u.stage.joined, u.stage.reused));
    if s.closed then SetSetup(s, id, v) else SetSetup(CatchUp(s, sources, u.ticket.Some?), id, v.(scheduled := true))
  }

  function Fire(s: State, e: Event): State
    requires Enabled(s, e)
  {
    match e
    case OpenRoot(live) =>
      s.(root := if live then Live else Dead)
    case CancelRoot => s.(root := Dead, jobs := Cancelled(s.jobs))
    case Stop => Shutdown(s)
    case Start(initial) => StartSetup(s, initial)
    case Refresh(initial) => Request(s, Op(Every, true, initial), initial)
    case Retry(source) => Request(s, Op(source, true, true), true)
    case EnsureRange => Request(s, Op(Every, false, true), true)
    case RefreshInstalled => EnqueueLookup(s, false)
    case CancelLookup(id) => s.(lookups := s.lookups[id := s.lookups[id].(cancelled := true)])
    case LookupStart(id) => s.(lookups := s.lookups[id := s.lookups[id].(stage := Active)])
    case LookupStore(id, packages) =>
      s.(lookups := s.lookups[id := s.lookups[id].(stage := Stored(packages), packages := packages)], installed := packages)
    case LookupSettle(id) =>
      var l := s.lookups[id];
      var ok := l.stage.Stored?;
      s.(lookups := s.lookups[id := l.(stage := Settled(ok), reusable := l.reusable && ok)],
         installedValid := if |s.lookupQueue| == 1 then ok else s.installedValid)
    case LookupFinish(id, order) => FinishLookup(s, id, order)
    case SetupCached(id) =>
      if s.closed then SetSetup(s, id, s.setups[id].(stage := Finishing))
      else SetSetup(StartLookup(s), id, s.setups[id].(stage := Loading(Joined(s), Shared(s))))
    case SetupFailed(id) =>
      var u := s.setups[id];
      SetSetup(s.(started := s.closed && s.started), id, u.(stage := Joining(u.stage.joined, u.stage.reused)))
    case SetupLoaded(id, sources) => Loaded(s, id, sources)
    case SetupJoined(id) =>
      var u := s.setups[id];
      if u.stage.Joining? && u.stage.joined.Some? && u.stage.reused && !s.lookups[u.stage.joined.value].stage.ok &&
         s.root.Live? && !s.closed && s.hasInstalled
      then SetSetup(StartLookup(s), id, u.(stage := Rejoining(Joined(s).value)))
      else SetSetup(s, id, u.(stage := Finishing))
    case SetupDone(id) => LeaveSetup(s, id)
    case Wake(id) =>
      var j := s.jobs[id];
      SetJob(s, id, if j.cancelled then j.(place := Leaving) else j.(reserved := true, place := Awaiting))
    case Acquire(id) => SetJob(s, id, s.jobs[id].(place := Slotted)).(slots := s.slots + 1)
    case GiveUp(id) => SetJob(s, id, s.jobs[id].(place := Leaving))
    case Proceed(id) => Begin(s, id)
    case Release(id) =>
      SetJob(s, id, s.jobs[id].(place := if s.jobs[id].place.Handing? then Queued else Leaving)).(slots := s.slots - 1)
    case Batch(id) => Checkpoint(s, id)
    case Finish(id, outcome) => EndRun(s, id, outcome)
    case Discard(id) => SetJob(s, id, s.jobs[id].(cancelled := true, place := Gone))
    case Done(id) => Depart(s, id)
  }
}
