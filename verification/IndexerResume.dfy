/** Interrupted and resumed equals done in one go. */
module IndexerResume {
  import opened Wrappers
  import opened CommitGraph
  import opened HistoryTables
  import opened IndexerSpec
  import opened IndexerWalk
  import opened IndexerCursor
  import opened IndexerScan
  import opened IndexerCall
  import opened IndexerTheorems

  function Chain(c: Commit): set<Commit> {
    {c} + if c.Child? then Chain(c.parent) else {}
  }

  lemma {:induction false} ChainExact(c: Commit)
    ensures forall a :: a in Chain(c) <==> Anc(a, c)
  {
    if c.Child? {
      ChainExact(c.parent);
    }
  }

  predicate Planned(p: Plan, head: Commit, c: Commit) {
    (p.first.Some? && Lists(head, p.first.value.range, c)) || (p.backward.Some? && Lists(head, p.backward.value.range, c))
  }

  function Targets(p: Plan, head: Commit): set<Commit> {
    set c | c in Chain(head) && Planned(p, head, c)
  }

  lemma TargetsExact(p: Plan, head: Commit, c: Commit)
    ensures c in Targets(p, head) <==> Planned(p, head, c)
  {
    ChainExact(head);
    if p.first.Some? && Lists(head, p.first.value.range, c) {
      ReachAnc(head, c, p.first.value.range.since);
    }
    if p.backward.Some? && Lists(head, p.backward.value.range, c) {
      ReachAnc(head, c, p.backward.value.range.since);
    }
  }

  function Filled(s: Tables, targets: set<Commit>): Tables {
    s.(events := s.events + (set c, k | c in targets && k in Keys(c) :: EventId(c, k)),
       diagnostics := s.diagnostics + (set c, d | c in targets && d in Notes(c) :: d))
  }

  function Strays(s: Tables, p: Plan, head: Commit): set<Commit> {
    set row | row in s.rows && row.key in PrimaryKeys(p) && !Planned(p, head, row.commit) :: row.commit
  }

  /** What a call without a fallback is for: every planned commit stored, every stray checkpoint reconciled. */
  function Outcome(s: Tables, head: Commit, req: Request): Tables
    requires Rebasable(s.state, head)
  {
    var p := PlanFor(s.state, head, req);
    Finalize(Filled(s, Targets(p, head)), Finish(head, p.since, p.remove + Strays(s, p, head), {}, PrimaryKeys(p)))
  }

  /** What a cut-off call has added: some of its plan, under its own keys. */
  ghost predicate Towards(s: Tables, t: Tables, p: Plan, head: Commit) {
    && t.state == s.state && t.coverage == s.coverage
    && s.events <= t.events && s.diagnostics <= t.diagnostics && s.rows <= t.rows
    && (forall row :: row in t.rows ==> row in s.rows || (row.key in PrimaryKeys(p) && Planned(p, head, row.commit)))
    && (forall e :: e in t.events ==> e in s.events || (Planned(p, head, e.commit) && e.key in Keys(e.commit)))
    && (forall d :: d in t.diagnostics ==> d in s.diagnostics || (Planned(p, head, d.commit) && d in Notes(d.commit)))
    && (forall k :: k !in PrimaryKeys(p) ==> (k in t.cursors <==> k in s.cursors) && (k in s.cursors ==> t.cursors[k] == s.cursors[k]))
  }

  lemma TowardsStep(s: Tables, t: Tables, u: Tables, p: Plan, head: Commit, scan: Scan)
    requires Towards(s, t, p, head) && Step(t, u, scan.key, head, scan.range)
    requires p.first == Some(scan) || p.backward == Some(scan)
    ensures Towards(s, u, p, head)
  {
  }

  lemma ScanTowards(s: Tables, m: Memory, head: Commit, p: Plan, keys: set<ScanKey>, scan: Scan)
    requires Primary(s, m, head, keys) && scan.key !in keys && !scan.key.Fallback?
    requires forall c :: c in m.seen ==> Excused(m.store, scan.key, scan.cutoff, c)
    requires p.first == Some(scan) || p.backward == Some(scan)
    requires Towards(s, m.store, p, head) && forall c :: c in m.encountered ==> Planned(p, head, c)
    ensures var n := ScanRange(m, scan, head);
      Towards(s, n.store, p, head) && (forall c :: c in n.encountered ==> Planned(p, head, c))
  {
    PrimaryReady(s, m, head, keys, scan);
    ScanRangeOk(m, scan, head);
    TowardsStep(s, m.store, ScanRange(m, scan, head).store, p, head, scan);
  }

  lemma PrimaryTowards(s: Tables, head: Commit, req: Request, fault: Fault)
    requires Sound(s) && Mono(head) && Rebasable(s.state, head)
    ensures var m := AfterPrimary(s, head, req, fault); var p := PlanFor(s.state, head, req);
      Towards(s, m.store, p, head) && (forall c :: c in m.encountered ==> Planned(p, head, c))
  {
    var p := PlanFor(s.state, head, req);
    var m0 := Start(s, req, fault);
    var m1 := ScanIf(m0, p.first, head);
    StartPrimary(s, head, req, fault);
    if p.first.Some? {
      ScanTowards(s, m0, head, p, {}, p.first.value);
    }
    if s.state.Some? {
      ForwardAchieved(s, head, req, fault);
      if m1.alive && p.backward.Some? {
        ScanTowards(s, m1, head, p, KeyOf(p.first), p.backward.value);
      }
    }
  }

  lemma PlannedBounds(s: Tables, head: Commit, req: Request, c: Commit)
    requires Rebasable(s.state, head) && Planned(PlanFor(s.state, head, req), head, c)
    ensures var p := PlanFor(s.state, head, req);
      Anc(c, head) && (p.since <= c.time || (s.state.Some? && !Anc(c, s.state.value.head)))
  {
    var p := PlanFor(s.state, head, req);
    if p.first.Some? && Lists(head, p.first.value.range, c) {
      ReachAnc(head, c, p.first.value.range.since);
      if s.state.Some? {
        MergeBaseLowest(s.state.value.head, head);
      }
    } else {
      ReachAnc(head, c, p.backward.value.range.since);
    }
  }

  /** Cutting a call off does not change what the same call will lead to. */
  lemma TowardsSameOutcome(s: Tables, t: Tables, head: Commit, req: Request)
    requires Rebasable(s.state, head) && Towards(s, t, PlanFor(s.state, head, req), head)
    ensures Outcome(t, head, req) == Outcome(s, head, req)
  {
    var p := PlanFor(s.state, head, req);
    var ts := Targets(p, head);
    forall c ensures c in ts <==> Planned(p, head, c) {
      TargetsExact(p, head, c);
    }
    assert Strays(t, p, head) == Strays(s, p, head);
    FilledEqual(s, t, p, head);
    FinalizeEqual(Filled(s, ts), Filled(t, ts), Finish(head, p.since, p.remove + Strays(s, p, head), {}, PrimaryKeys(p)));
  }

  lemma FilledEqual(s: Tables, t: Tables, p: Plan, head: Commit)
    requires Towards(s, t, p, head)
    ensures var ts := Targets(p, head);
      Filled(t, ts).events == Filled(s, ts).events && Filled(t, ts).diagnostics == Filled(s, ts).diagnostics
  {
    var ts := Targets(p, head);
    forall e | e in t.events && e !in s.events ensures e in Filled(s, ts).events {
      TargetsExact(p, head, e.commit);
      assert e == EventId(e.commit, e.key);
    }
    forall d | d in t.diagnostics && d !in s.diagnostics ensures d in Filled(s, ts).diagnostics {
      TargetsExact(p, head, d.commit);
    }
  }

  /** Finalizing forgets the progress of the scans it completes. */
  lemma FinalizeEqual(s: Tables, t: Tables, f: Finish)
    requires s.state == t.state && s.coverage == t.coverage && s.events == t.events && s.diagnostics == t.diagnostics
    requires forall row: Row :: row.key !in f.completed ==> (row in s.rows <==> row in t.rows)
    requires forall k :: k !in f.completed ==> (k in t.cursors <==> k in s.cursors) && (k in s.cursors ==> t.cursors[k] == s.cursors[k])
    ensures Finalize(s, f) == Finalize(t, f)
  {
    var a, b := Finalize(s, f), Finalize(t, f);
    forall k | k !in f.completed ensures
      (k in (set row | row in s.rows && row.commit in f.remove :: row.key)) <==>
      (k in (set row | row in t.rows && row.commit in f.remove :: row.key))
    {
    }
    assert a.rows == b.rows;
    assert a.cursors.Keys == b.cursors.Keys;
    assert a.cursors == b.cursors;
  }

  lemma CompletedIsOutcome(s: Tables, m: Memory, head: Commit, req: Request)
    requires Rebasable(s.state, head) && Achieved(s, m, head, PlanFor(s.state, head, req))
    requires Towards(s, m.store, PlanFor(s.state, head, req), head)
    requires forall c :: c in m.encountered ==> Planned(PlanFor(s.state, head, req), head, c)
    ensures Finalize(m.store, LastFinish(m, PlanFor(s.state, head, req), head, false)) == Outcome(s, head, req)
  {
    var p := PlanFor(s.state, head, req);
    var ts := Targets(p, head);
    forall c ensures c in ts <==> Planned(p, head, c) {
      TargetsExact(p, head, c);
    }
    forall c | Planned(p, head, c) ensures Held(m.store, c) && (c in m.loaded ==> c in m.encountered) {
      PlannedBounds(s, head, req, c);
    }
    LoadedStrays(s, m, head, p);
    assert PrimaryKeys(p) + {} == PrimaryKeys(p);
    FilledEqual(s, m.store, p, head);
    forall c, k | c in ts && k in Keys(c) ensures EventId(c, k) in m.store.events {
      assert Held(m.store, c);
    }
    assert Filled(m.store, ts).events == m.store.events;
    assert Filled(m.store, ts).diagnostics == m.store.diagnostics;
    FinalizeEqual(m.store, Filled(s, ts), LastFinish(m, p, head, false));
  }

  lemma LoadedStrays(s: Tables, m: Memory, head: Commit, p: Plan)
    requires forall c :: c in m.loaded <==> exists k :: k in PrimaryKeys(p) && Row(k, c) in s.rows
    requires forall c :: c in m.encountered ==> Planned(p, head, c)
    requires forall c :: Planned(p, head, c) && c in m.loaded ==> c in m.encountered
    ensures m.loaded - m.encountered == Strays(s, p, head)
  {
    forall c | c in m.loaded - m.encountered ensures c in Strays(s, p, head) {
      var k :| k in PrimaryKeys(p) && Row(k, c) in s.rows;
      assert Row(k, c).commit == c;
    }
    forall c | c in Strays(s, p, head) ensures c in m.loaded - m.encountered {
      var row :| row in s.rows && row.key in PrimaryKeys(p) && !Planned(p, head, row.commit) && row.commit == c;
      assert row == Row(row.key, c);
    }
  }

  /** Once the outcome is recorded there is nothing left to do. */
  lemma OutcomeStable(s: Tables, head: Commit, req: Request)
    requires Rebasable(s.state, head)
    ensures var t := Outcome(s, head, req); Rebasable(t.state, head) && Outcome(t, head, req) == t
  {
    var t := Outcome(s, head, req);
    assert MergeBase(head, head) == Some(head);
    var p := PlanFor(t.state, head, req);
    assert p.first.None? && p.backward.None? && PrimaryKeys(p) == {};
    assert Targets(p, head) == {} && Strays(t, p, head) == {};
    assert Filled(t, {}) == t;
    assert p.remove + {} == {};
  }

  lemma WithoutFallback(s: Tables, run: Run)
    requires Rebasable(s.state, run.head) && run.req.wanted == {}
    ensures Index(s, run.head, run.req, run.fault) ==
              Close(AfterPrimary(s, run.head, run.req, run.fault), PlanFor(s.state, run.head, run.req), run.head, false)
  {
    assert Start(s, run.req, run.fault).missing == {};
  }

  lemma ClosingKeepsOutcome(s: Tables, m: Memory, head: Commit, req: Request)
    requires Rebasable(s.state, head) && Towards(s, m.store, PlanFor(s.state, head, req), head)
    requires m.alive ==> Achieved(s, m, head, PlanFor(s.state, head, req))
    requires forall c :: c in m.encountered ==> Planned(PlanFor(s.state, head, req), head, c)
    ensures var n := Close(m, PlanFor(s.state, head, req), head, false);
      && Rebasable(n.store.state, head) && Outcome(n.store, head, req) == Outcome(s, head, req)
      && (n.alive ==> n.store == Outcome(s, head, req))
  {
    TowardsSameOutcome(s, m.store, head, req);
    if m.alive {
      CompletedIsOutcome(s, m, head, req);
      OutcomeStable(s, head, req);
    }
  }

  /** Whatever becomes of a call, its outcome stays what it was; a completed call has reached it. */
  lemma CallKeepsOutcome(s: Tables, run: Run)
    requires Sound(s) && Mono(run.head) && run.req.wanted == {} && Rebasable(s.state, run.head)
    ensures var t := After(s, run);
      && Rebasable(t.state, run.head) && Outcome(t, run.head, run.req) == Outcome(s, run.head, run.req)
      && (Completes(s, run) ==> t == Outcome(s, run.head, run.req))
  {
    PrimaryTowards(s, run.head, run.req, run.fault);
    PrimaryAchieved(s, run.head, run.req, run.fault);
    ClosingKeepsOutcome(s, AfterPrimary(s, run.head, run.req, run.fault), run.head, run.req);
    WithoutFallback(s, run);
  }

  function Runs(head: Commit, req: Request, faults: seq<Fault>): seq<Run> {
    seq(|faults|, i requires 0 <= i < |faults| => Run(head, req, faults[i]))
  }

  lemma {:induction false} RunsKeepOutcome(s: Tables, head: Commit, req: Request, faults: seq<Fault>)
    requires Sound(s) && Mono(head) && req.wanted == {} && Rebasable(s.state, head)
    ensures var t := AfterAll(s, Runs(head, req, faults));
      Sound(t) && Rebasable(t.state, head) && Outcome(t, head, req) == Outcome(s, head, req)
  {
    if faults != [] {
      var n := |faults| - 1;
      RunsKeepOutcome(s, head, req, faults[..n]);
      assert Runs(head, req, faults)[..n] == Runs(head, req, faults[..n]);
      var t := AfterAll(s, Runs(head, req, faults[..n]));
      CallKeepsOutcome(t, Run(head, req, faults[n]));
      IndexKeepsSound(t, Run(head, req, faults[n]));
    }
  }

  /** With head and request fixed and no installed packages, any number of calls cut off anywhere, followed by
      a completed one, leaves exactly the tables that one uninterrupted call would have left. */
  lemma ResumeEqualsOneShot(s: Tables, head: Commit, req: Request, faults: seq<Fault>, last: Fault, once: Fault)
    requires Sound(s) && Mono(head) && req.wanted == {}
    requires Completes(s, Run(head, req, once))
    requires Completes(AfterAll(s, Runs(head, req, faults)), Run(head, req, last))
    ensures After(AfterAll(s, Runs(head, req, faults)), Run(head, req, last)) == After(s, Run(head, req, once))
  {
    RunsKeepOutcome(s, head, req, faults);
    CallKeepsOutcome(s, Run(head, req, once));
    CallKeepsOutcome(AfterAll(s, Runs(head, req, faults)), Run(head, req, last));
  }
}
