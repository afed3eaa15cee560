/** Counters: slots in use, work behind `Wait`, and tickets behind `WaitInitial`. */
module CoordinatorCounts {
  import opened Wrappers
  import opened CoordinatorSpec

  predicate HoldsSlot(j: Job) {
    j.place.Slotted? || j.place.Handing? || j.place.Dropping? || j.place.Running? || j.place.Ending?
  }

  predicate Open(ticket: Option<bool>) {
    ticket == Some(true)
  }

  function Holders(jobs: map<Id, Job>): set<Id> {
    set id | id in jobs && HoldsSlot(jobs[id])
  }

  function OpenJobs(jobs: map<Id, Job>): set<Id> {
    set id | id in jobs && Open(jobs[id].ticket)
  }

  function OpenSetups(setups: map<Id, Setup>): set<Id> {
    set id | id in setups && Open(setups[id].ticket)
  }

  function One(b: bool): int {
    if b then 1 else 0
  }

  /** Every slot in use is held by one job, every unit of `active` is one job, lookup or setup, and
      every unit of `initialActive` one open ticket. */
  predicate Counted(s: State) {
    && s.slots == |Holders(s.jobs)| && s.slots <= SLOTS
    && s.active == |s.jobs| + |s.lookupQueue| + |s.setups|
    && s.initialActive == |OpenJobs(s.jobs)| + |OpenSetups(s.setups)|
  }

  lemma Split(s: set<Id>, id: Id)
    ensures |s| == |s - {id}| + One(id in s)
  {
  }

  /** Two sets that agree off `id`. */
  lemma Differ(s: set<Id>, t: set<Id>, id: Id)
    requires s - {id} == t - {id}
    ensures |t| == |s| + One(id in t) - One(id in s)
  {
    Split(s, id);
    Split(t, id);
  }

  lemma CountSet(jobs: map<Id, Job>, id: Id, j: Job)
    ensures |jobs[id := j]| == |jobs| + One(id !in jobs)
    ensures |Holders(jobs[id := j])| == |Holders(jobs)| + One(HoldsSlot(j)) - One(id in jobs && HoldsSlot(jobs[id]))
    ensures |OpenJobs(jobs[id := j])| == |OpenJobs(jobs)| + One(Open(j.ticket)) - One(id in jobs && Open(jobs[id].ticket))
  {
    Differ(jobs.Keys, jobs[id := j].Keys, id);
    Differ(Holders(jobs), Holders(jobs[id := j]), id);
    Differ(OpenJobs(jobs), OpenJobs(jobs[id := j]), id);
  }

  lemma CountRemove(jobs: map<Id, Job>, id: Id)
    requires id in jobs
    ensures |jobs - {id}| == |jobs| - 1
    ensures |Holders(jobs - {id})| == |Holders(jobs)| - One(HoldsSlot(jobs[id]))
    ensures |OpenJobs(jobs - {id})| == |OpenJobs(jobs)| - One(Open(jobs[id].ticket))
  {
    var rest := jobs - {id};
    assert rest.Keys == jobs.Keys - {id};
    assert Holders(rest) == Holders(jobs) - {id} && OpenJobs(rest) == OpenJobs(jobs) - {id};
    Split(Holders(jobs), id);
    Split(OpenJobs(jobs), id);
  }

  lemma CountSetup(setups: map<Id, Setup>, id: Id, u: Setup)
    ensures |setups[id := u]| == |setups| + One(id !in setups)
    ensures |OpenSetups(setups[id := u])| == |OpenSetups(setups)| + One(Open(u.ticket)) - One(id in setups && Open(setups[id].ticket))
  {
    Differ(setups.Keys, setups[id := u].Keys, id);
    Differ(OpenSetups(setups), OpenSetups(setups[id := u]), id);
  }

  lemma CountSetupRemove(setups: map<Id, Setup>, id: Id)
    requires id in setups
    ensures |setups - {id}| == |setups| - 1
    ensures |OpenSetups(setups - {id})| == |OpenSetups(setups)| - One(Open(setups[id].ticket))
  {
    Differ(setups.Keys, (setups - {id}).Keys, id);
    Differ(OpenSetups(setups), OpenSetups(setups - {id}), id);
  }

  lemma CountCancelled(jobs: map<Id, Job>, t: map<Id, Job>)
    requires t.Keys == jobs.Keys && forall id | id in jobs :: t[id].place == jobs[id].place && t[id].ticket == jobs[id].ticket
    ensures |t| == |jobs| && Holders(t) == Holders(jobs) && OpenJobs(t) == OpenJobs(jobs)
  {
    assert |t| == |t.Keys| && |jobs| == |jobs.Keys|;
  }

  // ---- scheduling ----------------------------------------------------------------------------

  lemma AdmitCounts(s: State, source: Source, work: Work, initial: bool, at: nat)
    requires Counted(s) && s.nextId !in s.jobs && at <= |QueueOf(s, source)|
    ensures Counted(Admit(s, source, work, initial, at))
  {
    hide Holders, OpenJobs, OpenSetups;
    CountSet(s.jobs, s.nextId, NewJob(s.root, source, work, initial));
  }

  lemma OpenTicketCounts(s: State, id: Id)
    requires Counted(s) && id in s.jobs && s.jobs[id].ticket.None?
    ensures Counted(OpenTicket(s, id))
  {
    hide Holders, OpenJobs, OpenSetups;
    CountSet(s.jobs, id, s.jobs[id].(ticket := Some(true)));
  }

  lemma ScheduleCounts(s: State, source: Source, work: Work, initial: bool)
    requires Counted(s) && s.nextId !in s.jobs
    ensures Counted(Schedule(s, source, work, initial))
  {
    hide Counted;
    var q := QueueOf(s, source);
    var n := JoinFrom(s.jobs, q, 0, work);
    if n == |q| {
      AdmitCounts(s, source, work, initial, if work.Refreshing? then PlaceFrom(s.jobs, q, 0) else |q|);
    } else if s.jobs[q[n]].ticket.None? {
      OpenTicketCounts(s, q[n]);
    }
  }

  // ---- events --------------------------------------------------------------------------------

  lemma TicketCounts(s: State, id: Id)
    requires Counted(s) && id in s.jobs
    ensures Counted(CompleteJobTicket(s, id))
  {
    hide Holders, OpenJobs, OpenSetups;
    CountSet(s.jobs, id, s.jobs[id].(ticket := Some(false)));
  }

  /** A job moves without changing its ticket, taking or giving back a slot as its place says. */
  lemma MoveCounts(s: State, t: State, id: Id, j: Job)
    requires Counted(s) && id in s.jobs && j.ticket == s.jobs[id].ticket
    requires t.jobs == s.jobs[id := j] && t.lookupQueue == s.lookupQueue && t.setups == s.setups
    requires t.active == s.active && t.initialActive == s.initialActive
    requires t.slots == s.slots + One(HoldsSlot(j)) - One(HoldsSlot(s.jobs[id])) && t.slots <= SLOTS
    ensures Counted(t)
  {
    hide Holders, OpenJobs, OpenSetups;
    CountSet(s.jobs, id, j);
  }

  lemma DepartCounts(s: State, id: Id)
    requires Counted(s) && id in s.jobs && !HoldsSlot(s.jobs[id])
    ensures Counted(Depart(s, id))
  {
    hide Holders, OpenJobs, OpenSetups;
    var done := s.jobs[id].(ticket := Some(false));
    CountSet(s.jobs, id, done);
    CountRemove(s.jobs[id := done], id);
    CountRemove(s.jobs, id);
  }

  lemma SetupCounts(s: State, t: State, id: Id, u: Setup)
    requires Counted(s) && id in s.setups && u.ticket == s.setups[id].ticket
    requires t.setups == s.setups[id := u] && t.jobs == s.jobs && t.slots == s.slots
    requires t.lookupQueue == s.lookupQueue && t.active == s.active && t.initialActive == s.initialActive
    ensures Counted(t)
  {
    hide Holders, OpenJobs, OpenSetups;
    CountSetup(s.setups, id, u);
  }

  lemma EnqueueCounts(s: State, reusable: bool)
    requires Counted(s)
    ensures Counted(EnqueueLookup(s, reusable))
  {
    hide Holders, OpenJobs, OpenSetups;
  }

  lemma SetupTicketCounts(s: State, id: Id)
    requires Counted(s) && id in s.setups
    ensures Counted(CompleteSetupTicket(s, id))
  {
    hide Holders, OpenJobs, OpenSetups;
    CountSetup(s.setups, id, s.setups[id].(ticket := Some(false)));
  }

  lemma RemoveSetupCounts(s: State, id: Id)
    requires Counted(s) && id in s.setups && !Open(s.setups[id].ticket)
    ensures Counted(RemoveSetup(s, id))
  {
    hide Holders, OpenJobs, OpenSetups;
    CountSetupRemove(s.setups, id);
  }

  lemma StartCounts(s: State, initial: bool)
    requires Counted(s) && s.nextId !in s.setups
    ensures Counted(StartSetup(s, initial))
  {
    hide Holders, OpenJobs, OpenSetups;
    CountSetup(s.setups, s.nextId, Setup(if initial then Some(true) else None, false, Caching));
  }

  lemma IncludeCounts(s: State)
    requires Counted(s)
    ensures Counted(IncludeSetup(s))
  {
    hide Holders, OpenJobs, OpenSetups;
    if s.setup.Some? && s.setup.value in s.setups {
      CountSetup(s.setups, s.setup.value, s.setups[s.setup.value].(ticket := Some(true)));
    }
  }
}
