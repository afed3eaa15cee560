/** Source queues: a reserved job is at the head, refreshes are not stuck behind idle fallbacks, and
    requests coalesce. */
module CoordinatorQueues {
  import opened Wrappers
  import opened CoordinatorSpec

  /** The flags a job can have at each place. */
  predicate JobOk(j: Job) {
    && (j.begun ==> j.reserved) && (j.terminal ==> j.work.Fallback? && !j.begun)
    && (j.yielded ==> j.begun && j.cancelled) && (j.ticket == Some(false) ==> j.begun)
    && match j.place
       case Queued => !j.reserved && !j.terminal
       case Awaiting => j.reserved && !j.begun && !j.terminal
       case Slotted => j.reserved && !j.begun && !j.terminal
       case Handing => !j.reserved && !j.terminal
       case Dropping => !j.begun && (j.cancelled || j.terminal)
       case Running => j.begun
       case Ending => j.begun
       case Leaving => j.cancelled || j.terminal || j.begun
       case Gone => j.cancelled
  }

  predicate Clash(a: Job, b: Job) {
    Waiting(a) && Waiting(b) && a.work == b.work && !a.work.Ranging?
  }

  predicate Own(jobs: map<Id, Job>, q: seq<Id>, source: Source) {
    (forall id | id in q :: id in jobs && jobs[id].source == source) && Distinct(q)
  }

  predicate Distinct(q: seq<Id>) {
    forall i, j | 0 <= i < j < |q| :: q[i] != q[j]
  }

  predicate HeadOnly(jobs: map<Id, Job>, q: seq<Id>) {
    forall i | 0 < i < |q| :: q[i] in jobs ==> !jobs[q[i]].reserved
  }

  predicate Prioritised(jobs: map<Id, Job>, q: seq<Id>) {
    forall i, j | 0 <= i < j < |q| :: OvertakenAt(jobs, q[i]) ==> !RefreshAt(jobs, q[j])
  }

  predicate Coalesced(jobs: map<Id, Job>, q: seq<Id>) {
    forall a, b | a in q && b in q && a != b && a in jobs && b in jobs :: !Clash(jobs[a], jobs[b])
  }

  /** One source's queue: its own distinct jobs; none but the head reserved; while the root context lives no
      refresh behind an unreserved fallback; no two requests that should have coalesced. */
  predicate LineOk(jobs: map<Id, Job>, q: seq<Id>, source: Source, live: bool) {
    Own(jobs, q, source) && HeadOnly(jobs, q) && (live ==> Prioritised(jobs, q)) && Coalesced(jobs, q)
  }

  lemma StillCoalesced(jobs: map<Id, Job>, q: seq<Id>, jobs': map<Id, Job>, p: seq<Id>)
    requires Coalesced(jobs, q)
    requires forall x | x in p :: x in q && x in jobs && x in jobs' && jobs'[x].work == jobs[x].work &&
                                  (Waiting(jobs'[x]) ==> Waiting(jobs[x]))
    ensures Coalesced(jobs', p)
  {
    forall a, b | a in p && b in p && a != b && a in jobs' && b in jobs' ensures !Clash(jobs'[a], jobs'[b]) {
      assert !Clash(jobs[a], jobs[b]);
    }
  }

  /** Order is kept, and nobody has become a refresh or an idle fallback. */
  lemma StillPrioritised(jobs: map<Id, Job>, q: seq<Id>, jobs': map<Id, Job>, p: seq<Id>, k: nat)
    requires Prioritised(jobs, q) && k < |q| && p == q[..k] + q[k + 1..]
    requires forall x | x in p :: x in jobs && x in jobs' && jobs'[x] == jobs[x]
    ensures Prioritised(jobs', p)
  {
    assert forall i | 0 <= i < |p| :: p[i] == if i < k then q[i] else q[i + 1];
    forall i, j | 0 <= i < j < |p| && OvertakenAt(jobs', p[i]) ensures !RefreshAt(jobs', p[j]) {
      assert p[i] in p && p[j] in p;
      assert OvertakenAt(jobs, q[if i < k then i else i + 1]);
      assert !RefreshAt(jobs, q[if j < k then j else j + 1]);
    }
  }

  predicate JobPlaced(root: Root, nextId: Id, q: seq<Id>, id: Id, j: Job) {
    && id in q && id < nextId && JobOk(j)
    && (j.reserved ==> q[0] == id)
    && (!root.Live? ==> j.cancelled)
    && (root.Live? && j.cancelled ==> j.begun || j.terminal)
  }

  /** The queues and jobs of all sources. */
  ghost predicate Queues(root: Root, nextId: Id, queues: map<Source, seq<Id>>, jobs: map<Id, Job>) {
    && (forall source :: LineOk(jobs, Line(queues, source), source, root.Live?))
    && (forall source :: source in queues ==> queues[source] != [])
    && (forall id :: id in jobs ==> JobPlaced(root, nextId, Line(queues, jobs[id].source), id, jobs[id]))
    && (root.Unset? ==> jobs == map[])
  }

  ghost predicate QueuesOk(s: State) {
    Queues(s.root, s.nextId, s.queues, s.jobs) && (s.closed ==> !s.root.Live?)
  }

  // ---- updating one job ----------------------------------------------------------------------

  lemma LineSet(jobs: map<Id, Job>, q: seq<Id>, source: Source, live: bool, id: Id, j: Job)
    requires LineOk(jobs, q, source, live) && id in jobs && j.source == jobs[id].source && j.work == jobs[id].work
    requires (Waiting(j) ==> Waiting(jobs[id])) && (Overtaken(j) ==> Overtaken(jobs[id]))
    requires j.reserved && j.source == source ==> q != [] && q[0] == id
    ensures LineOk(jobs[id := j], q, source, live)
  {
    forall i | 0 < i < |q| ensures !jobs[id := j][q[i]].reserved {
      assert q[0] != q[i];
    }
    forall a, b | a in q && b in q && a != b ensures !Clash(jobs[id := j][a], jobs[id := j][b]) {
      assert !Clash(jobs[a], jobs[b]) && !Clash(jobs[b], jobs[a]);
    }
  }

  /** Updating a job that does not step back behind others. */
  lemma SetJobOk(root: Root, nextId: Id, queues: map<Source, seq<Id>>, jobs: map<Id, Job>, id: Id, j: Job)
    requires Queues(root, nextId, queues, jobs) && id in jobs && j.source == jobs[id].source && j.work == jobs[id].work
    requires (Waiting(j) ==> Waiting(jobs[id])) && (Overtaken(j) ==> Overtaken(jobs[id]))
    requires JobOk(j) && (j.reserved ==> Line(queues, j.source)[..1] == [id])
    requires (!root.Live? ==> j.cancelled) && (root.Live? && j.cancelled ==> j.begun || j.terminal)
    ensures Queues(root, nextId, queues, jobs[id := j])
  {
    hide JobOk, Waiting, Overtaken, LineOk;
    assert JobPlaced(root, nextId, Line(queues, j.source), id, jobs[id]);
    if j.reserved {
      assert Line(queues, j.source)[0] == Line(queues, j.source)[..1][0];
    }
    forall source ensures LineOk(jobs[id := j], Line(queues, source), source, root.Live?) {
      LineSet(jobs, Line(queues, source), source, root.Live?, id, j);
    }
  }

  lemma ReservedPrefix(root: Root, nextId: Id, queues: map<Source, seq<Id>>, jobs: map<Id, Job>, id: Id)
    requires Queues(root, nextId, queues, jobs) && id in jobs && jobs[id].reserved
    ensures Line(queues, jobs[id].source)[..1] == [id]
  {
    assert JobPlaced(root, nextId, Line(queues, jobs[id].source), id, jobs[id]);
  }

  // ---- scheduling ----------------------------------------------------------------------------

  lemma InsertAt(q: seq<Id>, at: nat, id: Id)
    requires at <= |q|
    ensures var p := Insert(q, at, id);
      |p| == |q| + 1 && forall i | 0 <= i < |p| :: p[i] == if i < at then q[i] else if i == at then id else q[i - 1]
    ensures forall x :: x in Insert(q, at, id) <==> x == id || x in q
  {
    var p := Insert(q, at, id);
    forall x | x in q ensures x in p {
      var i :| 0 <= i < |q| && q[i] == x;
      assert p[if i < at then i else i + 1] == x;
    }
    assert p[at] == id;
  }

  lemma InsertOwn(jobs: map<Id, Job>, q: seq<Id>, source: Source, at: nat, id: Id, j: Job)
    requires Own(jobs, q, source) && at <= |q| && id !in jobs && j.source == source
    ensures Own(jobs[id := j], Insert(q, at, id), source)
  {
    InsertAt(q, at, id);
  }

  lemma InsertHeadOnly(jobs: map<Id, Job>, q: seq<Id>, at: nat, id: Id, j: Job)
    requires HeadOnly(jobs, q) && at <= |q| && id !in jobs && !j.reserved
    requires at == 0 && q != [] && q[0] in jobs ==> !jobs[q[0]].reserved
    ensures HeadOnly(jobs[id := j], Insert(q, at, id))
  {
    InsertAt(q, at, id);
  }

  lemma InsertPrioritised(jobs: map<Id, Job>, q: seq<Id>, at: nat, id: Id, j: Job)
    requires Prioritised(jobs, q) && at <= |q| && id !in q
    requires j.work.Refreshing? ==> forall i | 0 <= i < at :: !OvertakenAt(jobs, q[i])
    requires !j.work.Refreshing? ==> at == |q|
    ensures Prioritised(jobs[id := j], Insert(q, at, id))
  {
    InsertAt(q, at, id);
    var jobs', p := jobs[id := j], Insert(q, at, id);
    forall i, k | 0 <= i < k < |p| && OvertakenAt(jobs', p[i]) ensures !RefreshAt(jobs', p[k]) {
      if k == at {
        assert p[i] == q[i];
      } else if i != at {
        assert OvertakenAt(jobs, p[i]);
      }
    }
  }

  lemma InsertCoalesced(jobs: map<Id, Job>, q: seq<Id>, at: nat, id: Id, j: Job)
    requires Coalesced(jobs, q) && at <= |q| && id !in q
    requires forall i | 0 <= i < |q| :: q[i] in jobs ==> !Clash(j, jobs[q[i]])
    ensures Coalesced(jobs[id := j], Insert(q, at, id))
  {
    InsertAt(q, at, id);
  }

  lemma LineAdmit(jobs: map<Id, Job>, q: seq<Id>, source: Source, live: bool, id: Id, j: Job)
    requires LineOk(jobs, q, source, live) && id !in jobs && j.source == source && !j.reserved
    requires JoinFrom(jobs, q, 0, j.work) == |q|
    ensures var at := if j.work.Refreshing? then PlaceFrom(jobs, q, 0) else |q|;
      LineOk(jobs[id := j], Insert(q, at, id), source, live)
  {
    var at := if j.work.Refreshing? then PlaceFrom(jobs, q, 0) else |q|;
    InsertOwn(jobs, q, source, at, id, j);
    assert at == 0 && q != [] ==> OvertakenAt(jobs, q[0]);
    InsertHeadOnly(jobs, q, at, id, j);
    if live {
      InsertPrioritised(jobs, q, at, id, j);
    }
    forall i | 0 <= i < |q| ensures !Clash(j, jobs[q[i]]) {
      assert !JoinsAt(jobs, q[i], j.work);
    }
    InsertCoalesced(jobs, q, at, id, j);
  }

  lemma LineElsewhere(jobs: map<Id, Job>, q: seq<Id>, source: Source, live: bool, id: Id, j: Job)
    requires LineOk(jobs, q, source, live) && id !in jobs
    ensures LineOk(jobs[id := j], q, source, live)
  {
    assert forall i | 0 <= i < |q| :: q[i] != id;
  }

  lemma AdmitLine(root: Root, nextId: Id, queues: map<Source, seq<Id>>, jobs: map<Id, Job>, j: Job, at: nat, source: Source)
    requires Queues(root, nextId, queues, jobs) && !j.reserved
    requires var q := Line(queues, j.source);
      JoinFrom(jobs, q, 0, j.work) == |q| && at == if j.work.Refreshing? then PlaceFrom(jobs, q, 0) else |q|
    ensures LineOk(jobs[nextId := j], Line(queues[j.source := Insert(Line(queues, j.source), at, nextId)], source), source, root.Live?)
  {
    assert nextId !in jobs;
    assert LineOk(jobs, Line(queues, source), source, root.Live?);
    if source == j.source {
      LineAdmit(jobs, Line(queues, source), source, root.Live?, nextId, j);
    } else {
      LineElsewhere(jobs, Line(queues, source), source, root.Live?, nextId, j);
    }
  }

  lemma AdmitPlaced(root: Root, nextId: Id, queues: map<Source, seq<Id>>, jobs: map<Id, Job>, j: Job, at: nat, id: Id)
    requires Queues(root, nextId, queues, jobs) && id in jobs && at <= |Line(queues, j.source)|
    requires at == 0 && Line(queues, j.source) != [] ==> OvertakenAt(jobs, Line(queues, j.source)[0])
    ensures var queues' := queues[j.source := Insert(Line(queues, j.source), at, nextId)];
      JobPlaced(root, nextId + 1, Line(queues', jobs[id].source), id, jobs[id])
  {
    assert JobPlaced(root, nextId, Line(queues, jobs[id].source), id, jobs[id]);
    InsertAt(Line(queues, j.source), at, nextId);
  }

  lemma NewPlaced(root: Root, nextId: Id, q: seq<Id>, j: Job, at: nat)
    requires !root.Unset? && JobOk(j) && !j.reserved && !j.terminal && !j.begun && j.cancelled == !root.Live? && at <= |q|
    ensures JobPlaced(root, nextId + 1, Insert(q, at, nextId), nextId, j)
  {
    InsertAt(q, at, nextId);
  }

  lemma AdmitOk(root: Root, nextId: Id, queues: map<Source, seq<Id>>, jobs: map<Id, Job>, j: Job, at: nat)
    requires Queues(root, nextId, queues, jobs) && !root.Unset? && JobOk(j) && !j.reserved && !j.terminal && !j.begun
    requires j.cancelled == !root.Live?
    requires var q := Line(queues, j.source);
      JoinFrom(jobs, q, 0, j.work) == |q| && at == if j.work.Refreshing? then PlaceFrom(jobs, q, 0) else |q|
    ensures Queues(root, nextId + 1, queues[j.source := Insert(Line(queues, j.source), at, nextId)], jobs[nextId := j])
  {
    hide JobOk, JobPlaced, LineOk;
    var q := Line(queues, j.source);
    var queues' := queues[j.source := Insert(q, at, nextId)];
    var jobs' := jobs[nextId := j];
    forall source ensures LineOk(jobs', Line(queues', source), source, root.Live?) {
      AdmitLine(root, nextId, queues, jobs, j, at, source);
    }
    NewPlaced(root, nextId, q, j, at);
    assert at == 0 && q != [] ==> OvertakenAt(jobs, q[0]);
    forall id | id in jobs' ensures JobPlaced(root, nextId + 1, Line(queues', jobs'[id].source), id, jobs'[id])
    {
      if id != nextId {
        AdmitPlaced(root, nextId, queues, jobs, j, at, id);
      }
    }
  }

  /** What scheduling may touch. */
  predicate Scheduled(s: State, t: State) {
    s.nextId <= t.nextId && s.parked <= t.parked &&
    t == s.(nextId := t.nextId, jobs := t.jobs, queues := t.queues, active := t.active, initialActive := t.initialActive,
            parked := t.parked)
  }

  lemma TicketOk(root: Root, nextId: Id, queues: map<Source, seq<Id>>, jobs: map<Id, Job>, id: Id, ticket: Option<bool>)
    requires Queues(root, nextId, queues, jobs) && id in jobs && (ticket == Some(false) ==> jobs[id].begun)
    ensures Queues(root, nextId, queues, jobs[id := jobs[id].(ticket := ticket)])
  {
    assert JobPlaced(root, nextId, Line(queues, jobs[id].source), id, jobs[id]);
    if jobs[id].reserved {
      ReservedPrefix(root, nextId, queues, jobs, id);
    }
    SetJobOk(root, nextId, queues, jobs, id, jobs[id].(ticket := ticket));
  }

  lemma AdmitKeeps(s: State, source: Source, work: Work, initial: bool, at: nat)
    requires QueuesOk(s) && !s.root.Unset? && JoinFrom(s.jobs, QueueOf(s, source), 0, work) == |QueueOf(s, source)|
    requires at == if work.Refreshing? then PlaceFrom(s.jobs, QueueOf(s, source), 0) else |QueueOf(s, source)|
    ensures QueuesOk(Admit(s, source, work, initial, at)) && Scheduled(s, Admit(s, source, work, initial, at))
  {
    hide LineOk, JobPlaced;
    AdmitOk(s.root, s.nextId, s.queues, s.jobs, NewJob(s.root, source, work, initial), at);
  }

  lemma OpenTicketKeeps(s: State, id: Id)
    requires QueuesOk(s) && id in s.jobs
    ensures QueuesOk(OpenTicket(s, id)) && Scheduled(s, OpenTicket(s, id))
  {
    TicketOk(s.root, s.nextId, s.queues, s.jobs, id, Some(true));
  }

  lemma ScheduleAdmits(s: State, source: Source, work: Work, initial: bool)
    requires QueuesOk(s) && !s.root.Unset? && !s.closed
    requires JoinFrom(s.jobs, QueueOf(s, source), 0, work) == |QueueOf(s, source)|
    ensures QueuesOk(Schedule(s, source, work, initial)) && Scheduled(s, Schedule(s, source, work, initial))
    ensures Schedule(s, source, work, initial).parked == s.parked
  {
    hide Queues, LineOk, JobPlaced;
    var q := QueueOf(s, source);
    AdmitKeeps(s, source, work, initial, if work.Refreshing? then PlaceFrom(s.jobs, q, 0) else |q|);
  }

  lemma ScheduleKeeps(s: State, source: Source, work: Work, initial: bool)
    requires QueuesOk(s) && (s.closed || !s.root.Unset?)
    ensures QueuesOk(Schedule(s, source, work, initial)) && Scheduled(s, Schedule(s, source, work, initial))
    ensures Schedule(s, source, work, initial).parked == s.parked
  {
    hide Queues, LineOk, JobPlaced;
    var q := QueueOf(s, source);
    var n := JoinFrom(s.jobs, q, 0, work);
    if s.closed {
    } else if n == |q| {
      ScheduleAdmits(s, source, work, initial);
    } else {
      OpenTicketKeeps(s, q[n]);
    }
  }

  // ---- stepping back behind a refresh --------------------------------------------------------

  lemma RotateAt(jobs: map<Id, Job>, q: seq<Id>)
    requires q != []
    ensures var n := RefreshFrom(jobs, q, 1); var p := Rotate(jobs, q);
      && |p| == |q|
      && (n < |q| ==> forall i | 0 <= i < |p| :: p[i] == if i == 0 then q[n] else if i <= n then q[i - 1] else q[i])
      && (forall x :: x in p <==> x in q)
  {
    var n, p := RefreshFrom(jobs, q, 1), Rotate(jobs, q);
    if n < |q| {
      forall x | x in q ensures x in p {
        var i :| 0 <= i < |q| && q[i] == x;
        assert p[if i == n then 0 else if i < n then i + 1 else i] == x;
      }
    }
  }

  /** Behind the head there is at most one refresh while the root context lives. */
  lemma OneRefresh(nextId: Id, queues: map<Source, seq<Id>>, jobs: map<Id, Job>, source: Source, a: Id, b: Id)
    requires Queues(Live, nextId, queues, jobs)
    requires var q := Line(queues, source); a in q && b in q && RefreshAt(jobs, a) && RefreshAt(jobs, b)
    requires !jobs[a].reserved && !jobs[b].reserved
    ensures a == b
  {
    var q := Line(queues, source);
    assert LineOk(jobs, q, source, true);
    assert JobPlaced(Live, nextId, Line(queues, jobs[a].source), a, jobs[a]);
    assert JobPlaced(Live, nextId, Line(queues, jobs[b].source), b, jobs[b]);
    assert Clash(jobs[a], jobs[b]);
  }

  lemma DistinctRotated(q: seq<Id>, n: nat)
    requires Distinct(q) && n < |q|
    ensures Distinct([q[n]] + q[..n] + q[n + 1..])
  {
    var p := [q[n]] + q[..n] + q[n + 1..];
    assert forall i | 0 <= i < |p| :: p[i] == if i == 0 then q[n] else if i <= n then q[i - 1] else q[i];
  }

  lemma OwnLine(root: Root, nextId: Id, queues: map<Source, seq<Id>>, jobs: map<Id, Job>, id: Id)
    requires Queues(root, nextId, queues, jobs) && id in jobs
    ensures var q := Line(queues, jobs[id].source); q != [] && Distinct(q) && (jobs[id].reserved ==> q[0] == id)
  {
    assert JobPlaced(root, nextId, Line(queues, jobs[id].source), id, jobs[id]);
    assert LineOk(jobs, Line(queues, jobs[id].source), jobs[id].source, root.Live?);
  }

  /** Nothing behind the new head is a refresh. */
  lemma RotatedPriority(nextId: Id, queues: map<Source, seq<Id>>, jobs: map<Id, Job>, id: Id, i: nat)
    requires Queues(Live, nextId, queues, jobs) && id in jobs && jobs[id].work.Fallback? && jobs[id].reserved
    requires 0 < i < |Rotate(jobs, Line(queues, jobs[id].source))|
    ensures !RefreshAt(jobs, Rotate(jobs, Line(queues, jobs[id].source))[i])
  {
    hide Queues, LineOk, JobPlaced;
    var q := Line(queues, jobs[id].source);
    OwnLine(Live, nextId, queues, jobs, id);
    var n := RefreshFrom(jobs, q, 1);
    if n < |q| {
      assert Rotate(jobs, q) == [q[n]] + q[..n] + q[n + 1..];
      DistinctRotated(q, n);
      RefreshBehindHead(nextId, queues, jobs, id, q[n], Rotate(jobs, q)[i]);
    }
  }

  lemma RefreshBehindHead(nextId: Id, queues: map<Source, seq<Id>>, jobs: map<Id, Job>, id: Id, refresh: Id, other: Id)
    requires Queues(Live, nextId, queues, jobs) && id in jobs && jobs[id].work.Fallback? && jobs[id].reserved
    requires var q := Line(queues, jobs[id].source); other in q && refresh in q && RefreshAt(jobs, refresh) && other != refresh
    ensures !RefreshAt(jobs, other)
  {
    var source := jobs[id].source;
    assert JobPlaced(Live, nextId, Line(queues, source), id, jobs[id]) && LineOk(jobs, Line(queues, source), source, true);
    if RefreshAt(jobs, other) {
      OneRefresh(nextId, queues, jobs, source, other, refresh);
    }
  }

  lemma RotatedOwn(jobs: map<Id, Job>, q: seq<Id>, source: Source, id: Id, j: Job)
    requires Own(jobs, q, source) && HeadOnly(jobs, q) && q != [] && q[0] == id && j.source == source && !j.reserved
    ensures Own(jobs[id := j], Rotate(jobs, q), source) && HeadOnly(jobs[id := j], Rotate(jobs, q))
  {
    RotateAt(jobs, q);
    var n, p := RefreshFrom(jobs, q, 1), Rotate(jobs, q);
    forall x | x in p && x != id ensures x in q && !jobs[x].reserved {
      var i :| 0 <= i < |q| && q[i] == x;
    }
    if n < |q| {
      DistinctRotated(q, n);
    }
  }

  lemma RotatedLine(root: Root, nextId: Id, queues: map<Source, seq<Id>>, jobs: map<Id, Job>, id: Id, j: Job)
    requires Queues(root, nextId, queues, jobs) && id in jobs && jobs[id].work.Fallback? && jobs[id].reserved
    requires j == jobs[id].(reserved := false, place := Handing)
    ensures Line(queues, j.source) != [] && Rotate(jobs, Line(queues, j.source)) != []
    ensures LineOk(jobs[id := j], Rotate(jobs, Line(queues, j.source)), j.source, root.Live?)
  {
    hide JobOk;
    var q := Line(queues, j.source);
    assert JobPlaced(root, nextId, q, id, jobs[id]) && LineOk(jobs, q, j.source, root.Live?);
    RotateAt(jobs, q);
    var p := Rotate(jobs, q);
    RotatedOwn(jobs, q, j.source, id, j);
    StillCoalesced(jobs, q, jobs[id := j], p);
    if root.Live? {
      forall i | 0 < i < |p| ensures !RefreshAt(jobs[id := j], p[i]) {
        RotatedPriority(nextId, queues, jobs, id, i);
      }
    }
  }

  lemma UnreserveLines(root: Root, nextId: Id, queues: map<Source, seq<Id>>, jobs: map<Id, Job>, id: Id, j: Job, source: Source)
    requires Queues(root, nextId, queues, jobs) && id in jobs && jobs[id].work.Fallback? && jobs[id].reserved
    requires j == jobs[id].(reserved := false, place := Handing)
    ensures LineOk(jobs[id := j], Line(PutLine(queues, j.source, Rotate(jobs, Line(queues, j.source))), source), source, root.Live?)
  {
    if source == j.source {
      RotatedLine(root, nextId, queues, jobs, id, j);
    } else {
      assert LineOk(jobs, Line(queues, source), source, root.Live?);
      LineOther(jobs, Line(queues, source), source, root.Live?, id, j);
    }
  }

  lemma UnreservePlaced(root: Root, nextId: Id, queues: map<Source, seq<Id>>, jobs: map<Id, Job>, id: Id, j: Job, other: Id)
    requires Queues(root, nextId, queues, jobs) && id in jobs && jobs[id].reserved && other in jobs && other != id
    requires j.source == jobs[id].source
    ensures JobPlaced(root, nextId, Line(PutLine(queues, j.source, Rotate(jobs, Line(queues, j.source))), jobs[other].source), other, jobs[other])
  {
    var q := Line(queues, j.source);
    assert JobPlaced(root, nextId, q, id, jobs[id]);
    assert JobPlaced(root, nextId, Line(queues, jobs[other].source), other, jobs[other]);
    RotateAt(jobs, q);
  }

  lemma UnreserveOk(root: Root, nextId: Id, queues: map<Source, seq<Id>>, jobs: map<Id, Job>, id: Id, j: Job)
    requires Queues(root, nextId, queues, jobs) && id in jobs && jobs[id].work.Fallback? && jobs[id].reserved
    requires !jobs[id].begun && !jobs[id].terminal && !jobs[id].cancelled
    requires j == jobs[id].(reserved := false, place := Handing)
    ensures Queues(root, nextId, PutLine(queues, j.source, Rotate(jobs, Line(queues, j.source))), jobs[id := j])
  {
    var q := Line(queues, j.source);
    var queues' := PutLine(queues, j.source, Rotate(jobs, q));
    var jobs' := jobs[id := j];
    forall source ensures LineOk(jobs', Line(queues', source), source, root.Live?) {
      UnreserveLines(root, nextId, queues, jobs, id, j, source);
    }
    forall other | other in jobs' ensures JobPlaced(root, nextId, Line(queues', jobs'[other].source), other, jobs'[other])
    {
      if other != id {
        UnreservePlaced(root, nextId, queues, jobs, id, j, other);
      } else {
        assert JobPlaced(root, nextId, q, id, jobs[id]);
        RotateAt(jobs, q);
      }
    }
  }

  lemma LineOther(jobs: map<Id, Job>, q: seq<Id>, source: Source, live: bool, id: Id, j: Job)
    requires LineOk(jobs, q, source, live) && id in jobs && jobs[id].source != source
    ensures LineOk(jobs[id := j], q, source, live)
    ensures LineOk(jobs - {id}, q, source, live)
  {
    assert forall i | 0 <= i < |q| :: q[i] != id;
  }

  // ---- leaving -------------------------------------------------------------------------------

  lemma {:induction false} WithoutAt(q: seq<Id>, id: Id) returns (k: nat)
    requires id in q && forall i, j :: 0 <= i < j < |q| ==> q[i] != q[j]
    ensures k < |q| && q[k] == id && Without(q, id) == q[..k] + q[k + 1..]
    ensures forall x :: x in Without(q, id) <==> x in q && x != id
  {
    if q[0] == id {
      k := 0;
      assert q == [q[0]] + q[1..];
      forall x | x in q[1..] ensures x != id {
        var i :| 0 <= i < |q[1..]| && q[1..][i] == x;
        assert q[0] != q[i + 1];
      }
    } else {
      k := WithoutAt(q[1..], id);
      k := k + 1;
      assert q == [q[0]] + q[1..];
      assert Without(q, id) == [q[0]] + Without(q[1..], id);
      assert Without(q, id) == q[..k] + q[k + 1..];
    }
  }

  lemma LineWithout(jobs: map<Id, Job>, q: seq<Id>, source: Source, live: bool, id: Id)
    requires LineOk(jobs, q, source, live) && id in q
    ensures LineOk(jobs - {id}, Without(q, id), source, live)
    ensures Without(q, id) != [] && q[0] != id ==> Without(q, id)[0] == q[0]
    ensures forall x :: x in Without(q, id) <==> x in q && x != id
  {
    var k := WithoutAt(q, id);
    var p := Without(q, id);
    StillCoalesced(jobs, q, jobs - {id}, p);
    if live {
      StillPrioritised(jobs, q, jobs - {id}, p, k);
    }
    OwnWithout(jobs, q, source, id, k);
  }

  lemma OwnWithout(jobs: map<Id, Job>, q: seq<Id>, source: Source, id: Id, k: nat)
    requires Own(jobs, q, source) && HeadOnly(jobs, q) && k < |q| && q[k] == id
    ensures Own(jobs - {id}, q[..k] + q[k + 1..], source) && HeadOnly(jobs - {id}, q[..k] + q[k + 1..])
  {
    var p := q[..k] + q[k + 1..];
    assert forall i | 0 <= i < |p| :: p[i] == if i < k then q[i] else q[i + 1];
    forall x | x in p ensures x in q && x != id {
      var i :| 0 <= i < |p| && p[i] == x;
    }
  }

  lemma DepartOk(root: Root, nextId: Id, queues: map<Source, seq<Id>>, jobs: map<Id, Job>, id: Id)
    requires Queues(root, nextId, queues, jobs) && id in jobs
    ensures var source := jobs[id].source;
      Queues(root, nextId, PutLine(queues, source, Without(Line(queues, source), id)), jobs - {id})
  {
    hide JobOk, HeadOnly, Prioritised, Coalesced, Own;
    var source := jobs[id].source;
    var q := Line(queues, source);
    var p := Without(q, id);
    var queues' := PutLine(queues, source, p);
    assert JobPlaced(root, nextId, q, id, jobs[id]) && LineOk(jobs, q, source, root.Live?);
    LineWithout(jobs, q, source, root.Live?, id);
    assert Line(queues', source) == p;
    forall other ensures LineOk(jobs - {id}, Line(queues', other), other, root.Live?) {
      if other != source {
        assert Line(queues', other) == Line(queues, other);
        LineOther(jobs, Line(queues, other), other, root.Live?, id, jobs[id]);
      }
    }
    forall other | other in jobs - {id} ensures JobPlaced(root, nextId, Line(queues', jobs[other].source), other, jobs[other]) {
      assert JobPlaced(root, nextId, Line(queues, jobs[other].source), other, jobs[other]);
      if jobs[other].source != source {
        assert Line(queues', jobs[other].source) == Line(queues, jobs[other].source);
      } else {
        assert other in p;
      }
    }
  }

  // ---- cancelling ----------------------------------------------------------------------------

  lemma CancelAllOk(nextId: Id, queues: map<Source, seq<Id>>, jobs: map<Id, Job>)
    requires Queues(Live, nextId, queues, jobs)
    ensures Queues(Dead, nextId, queues, Cancelled(jobs))
  {
    var jobs' := Cancelled(jobs);
    forall source ensures LineOk(jobs', Line(queues, source), source, false) {
      assert LineOk(jobs, Line(queues, source), source, true);
    }
    forall id | id in jobs' ensures JobPlaced(Dead, nextId, Line(queues, jobs'[id].source), id, jobs'[id]) {
      assert JobPlaced(Live, nextId, Line(queues, jobs[id].source), id, jobs[id]);
    }
  }
}
