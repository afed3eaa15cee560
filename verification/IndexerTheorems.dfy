/** The guarantees of the indexer, over single calls and over every run of calls. */
module IndexerTheorems {
  import opened Wrappers
  import opened CommitGraph
  import opened HistoryTables
  import opened IndexerSpec
  import opened IndexerWalk
  import opened IndexerCursor
  import opened IndexerScan
  import opened IndexerCall

  lemma RemovedAreGone(s: Tables, head: Commit, req: Request, c: Commit)
    requires Rebasable(s.state, head)
    ensures c in PlanFor(s.state, head, req).remove <==>
              s.state.Some? && Anc(c, s.state.value.head) && !Anc(c, head)
  {
    if s.state.Some? {
      var prior := s.state.value.head;
      MergeBaseLowest(prior, head);
      var base := MergeBase(prior, head).value;
      CommitsAboveExact(prior, base);
      if Anc(c, base) {
        AncTrans(c, base, head);
      }
    }
  }

  /** The memory a fallback starts from, or the end of a call without one. */
  ghost predicate Settling(s: Tables, m: Memory, head: Commit, p: Plan, keys: set<ScanKey>) {
    && m.alive && m.processed == [] && BufferOk(m) && NoneMissing(m.store, m.missing) && Sound(m.store)
    && (s.state.Some? ==> m.store.state.Some?)
    && (forall c :: Anc(c, head) && p.since <= c.time ==> Held(m.store, c))
    && (m.store.state.Some? ==> forall c :: Anc(c, head) && !Anc(c, m.store.state.value.head) ==> Held(m.store, c))
    && (forall c :: c in m.encountered ==> Anc(c, head))
    && (forall c :: c in m.loaded && Anc(c, head) && (m.store.state.Some? || p.since <= c.time) ==> c in m.encountered)
    && (forall e :: e in m.store.events ==> e in s.events || Anc(e.commit, head))
    && (forall e :: e in s.events && e.commit !in p.remove ==> e in m.store.events)
    && (forall row :: row in m.store.rows && row.key !in keys ==> row in s.rows)
    && (forall row :: row in s.rows && row.key !in keys && row.commit !in p.remove ==> row in m.store.rows)
    && (forall c :: c in m.loaded ==> exists k :: k in keys && Row(k, c) in s.rows)
    && (forall c, k :: k in keys && Row(k, c) in s.rows ==> c in m.loaded || c in p.remove)
  }

  /** What the scans of this call have seen by the time its fallback starts. */
  ghost predicate SeenSettled(m: Memory, head: Commit, p: Plan) {
    && (forall c :: c in m.seen ==> Held(m.store, c))
    && (m.store.state.None? ==> forall c :: c in m.seen ==> p.since <= c.time)
  }

  lemma PublishSettles(s: Tables, m: Memory, head: Commit, req: Request)
    requires Rebasable(s.state, head) && Achieved(s, m, head, PlanFor(s.state, head, req))
    ensures var p := PlanFor(s.state, head, req); var n := Publish(m, p, head);
      Sound(n.store) && (n.alive ==> Settling(s, n, head, p, PrimaryKeys(p)) && SeenSettled(n, head, p))
  {
    var p := PlanFor(s.state, head, req);
    var f := Finish(head, p.since, p.remove, {}, PrimaryKeys(p));
    var n := Publish(m, p, head);
    forall c ensures c in p.remove ==> !Anc(c, head) {
      RemovedAreGone(s, head, req, c);
    }
    if PrimaryKeys(p) != {} && m.loaded <= m.encountered {
      FinalizeSound(m.store, f);
      if n.alive {
        forall c | Held(m.store, c) && Anc(c, head) ensures Held(n.store, c) {
          HeldStays(m.store, f, c);
        }
      }
    }
  }

  lemma AchievedSettles(s: Tables, m: Memory, head: Commit, req: Request)
    requires Rebasable(s.state, head) && Achieved(s, m, head, PlanFor(s.state, head, req))
    ensures var p := PlanFor(s.state, head, req); Settling(s, m, head, p, PrimaryKeys(p))
  {
  }

  lemma FallbackReady(s: Tables, m: Memory, head: Commit, p: Plan, keys: set<ScanKey>)
    requires Settling(s, m, head, p, keys) && SeenSettled(m, head, p)
    requires p.fallback.cutoff == p.since && p.fallback.key.Fallback?
    ensures Ready(m, p.fallback)
  {
    forall c | c in m.seen ensures Keys(c) !! m.missing {
      HeldQuiet(m.store, m.missing, c);
    }
  }

  /** After a complete fallback, whatever a commit of the chain yields is either not missing or
      hidden behind one of the fallback's own checkpoints. */
  ghost predicate Searched(s: Tables, m: Memory, head: Commit, key: ScanKey) {
    forall c :: Anc(c, head) && Row(key, c) !in s.rows ==> Keys(c) !! m.missing
  }

  lemma FallbackSearches(s: Tables, m: Memory, n: Memory, head: Commit, p: Plan, keys: set<ScanKey>)
    requires Settling(s, m, head, p, keys) && p.fallback.key !in keys && n.alive
    requires p.fallback.cutoff == p.since && p.fallback.key.Fallback? && p.fallback.range == Range(None, 0, 0)
    requires ScanOk(m, n, p.fallback, head)
    ensures Searched(s, n, head, p.fallback.key)
  {
    var ck := RowsOf(m.store, p.fallback.key);
    forall c | Anc(c, head) && Row(p.fallback.key, c) !in s.rows ensures Keys(c) !! n.missing {
      RowsOfExact(m.store, p.fallback.key, c);
      ReachZero(head, c);
      assert Lists(head, p.fallback.range, c);
      assert Dealt(n, p.fallback, ck, c);
      if c !in n.seen {
        assert Held(n.store, c) by {
          if p.since <= c.time || (m.store.state.Some? && !Anc(c, m.store.state.value.head)) {
            HeldGrows(m.store, n.store, c);
          }
        }
        HeldQuiet(n.store, n.missing, c);
      }
    }
  }

  lemma FallbackMeets(m: Memory, n: Memory, head: Commit, p: Plan, c: Commit)
    requires p.fallback.range == Range(None, 0, 0) && ScanOk(m, n, p.fallback, head) && n.alive
    requires c in RowsOf(m.store, p.fallback.key) && Anc(c, head)
    ensures c in n.encountered
  {
    ReachZero(head, c);
    assert Lists(head, p.fallback.range, c);
  }

  lemma FallbackSettles(s: Tables, m: Memory, n: Memory, head: Commit, p: Plan, keys: set<ScanKey>)
    requires Settling(s, m, head, p, keys) && p.fallback.key !in keys
    requires p.fallback.cutoff == p.since && p.fallback.key.Fallback? && p.fallback.range == Range(None, 0, 0)
    requires forall c :: c in p.remove ==> !Anc(c, head)
    requires ScanOk(m, n, p.fallback, head) && n.loaded == m.loaded + RowsOf(m.store, p.fallback.key)
    ensures Sound(n.store)
    ensures n.alive ==> Settling(s, n, head, p, keys + {p.fallback.key})
  {
    var scan := p.fallback;
    SoundGrows(m.store, n.store, scan, head);
    forall c ensures c in RowsOf(m.store, scan.key) <==> Row(scan.key, c) in m.store.rows {
      RowsOfExact(m.store, scan.key, c);
    }
    forall c | Lists(head, scan.range, c) ensures Anc(c, head) {
      ReachAnc(head, c, 0);
    }
    if n.alive {
      forall c | c in RowsOf(m.store, scan.key) && Anc(c, head) ensures c in n.encountered {
        FallbackMeets(m, n, head, p, c);
      }
      forall c | Held(m.store, c) ensures Held(n.store, c) {
        HeldGrows(m.store, n.store, c);
      }
    }
  }

  lemma SkippedSettles(s: Tables, m: Memory, head: Commit, p: Plan, keys: set<ScanKey>)
    requires Settling(s, m, head, p, keys) && SkipsRange(m, p.fallback) && p.fallback.key !in keys
    ensures Settling(s, m, head, p, keys + {p.fallback.key}) && Searched(s, m, head, p.fallback.key)
  {
    forall c ensures Row(p.fallback.key, c) !in m.store.rows {
      RowsOfExact(m.store, p.fallback.key, c);
    }
  }

  predicate FallsBack(s: Tables, req: Request, fault: Fault) {
    Start(s, req, fault).missing != {}
  }

  function CallKeys(s: Tables, head: Commit, req: Request, fault: Fault): set<ScanKey>
    requires Rebasable(s.state, head)
  {
    var p := PlanFor(s.state, head, req);
    PrimaryKeys(p) + if FallsBack(s, req, fault) then {p.fallback.key} else {}
  }

  lemma FallbackEnds(s: Tables, m: Memory, head: Commit, p: Plan, keys: set<ScanKey>)
    requires Settling(s, m, head, p, keys) && SeenSettled(m, head, p) && p.fallback.key !in keys
    requires p.fallback.cutoff == p.since && p.fallback.key.Fallback? && p.fallback.range == Range(None, 0, 0)
    requires forall c :: c in p.remove ==> !Anc(c, head)
    ensures var n := ScanIf(m, Some(p.fallback), head);
      && Sound(n.store)
      && (n.alive ==> Settling(s, n, head, p, keys + {p.fallback.key}) && Searched(s, n, head, p.fallback.key))
  {
    FallbackReady(s, m, head, p, keys);
    ScanRangeOk(m, p.fallback, head);
    var n := ScanRange(m, p.fallback, head);
    if SkipsRange(m, p.fallback) {
      SkippedSettles(s, m, head, p, keys);
    } else {
      FallbackSettles(s, m, n, head, p, keys);
      if n.alive {
        FallbackSearches(s, m, n, head, p, keys);
      }
    }
  }

  /** Up to its last transaction a call keeps the tables sound, and if it gets there it has settled everything. */
  lemma BeforeCloseSettles(s: Tables, head: Commit, req: Request, fault: Fault)
    requires Sound(s) && Mono(head) && Rebasable(s.state, head)
    ensures var m := BeforeClose(s, head, req, fault); var p := PlanFor(s.state, head, req);
      && Sound(m.store)
      && (m.alive ==> Settling(s, m, head, p, CallKeys(s, head, req, fault)))
      && (m.alive && FallsBack(s, req, fault) ==> Searched(s, m, head, p.fallback.key))
  {
    var p := PlanFor(s.state, head, req);
    var m1 := AfterPrimary(s, head, req, fault);
    PrimaryAchieved(s, head, req, fault);
    if m1.alive {
      if FallsBack(s, req, fault) {
        PublishSettles(s, m1, head, req);
        forall c ensures c in p.remove ==> !Anc(c, head) {
          RemovedAreGone(s, head, req, c);
        }
        var m2 := Publish(m1, p, head);
        if m2.alive {
          FallbackEnds(s, m2, head, p, PrimaryKeys(p));
        }
      } else {
        AchievedSettles(s, m1, head, req);
        assert PrimaryKeys(p) + {} == PrimaryKeys(p);
      }
    }
  }

  function LastFinish(m: Memory, p: Plan, head: Commit, fallback: bool): Finish {
    Finish(head, p.since, p.remove + (m.loaded - m.encountered), if fallback then m.missing else {},
           PrimaryKeys(p) + if fallback then {p.fallback.key} else {})
  }

  lemma LastFinishOk(s: Tables, m: Memory, head: Commit, req: Request, fallback: bool, keys: set<ScanKey>)
    requires Rebasable(s.state, head) && Settling(s, m, head, PlanFor(s.state, head, req), keys)
    ensures FinishOk(m.store, LastFinish(m, PlanFor(s.state, head, req), head, fallback))
  {
    forall c ensures c in PlanFor(s.state, head, req).remove ==> !Anc(c, head) {
      RemovedAreGone(s, head, req, c);
    }
  }

  // ---- the theorems ------------------------------------------------------------------------

  /** Wherever a call is cut off, the tables it leaves are sound. */
  lemma IndexKeepsSound(s: Tables, run: Run)
    requires Sound(s) && Mono(run.head)
    ensures Sound(After(s, run))
  {
    if Rebasable(s.state, run.head) {
      var p := PlanFor(s.state, run.head, run.req);
      var fallback := FallsBack(s, run.req, run.fault);
      BeforeCloseSettles(s, run.head, run.req, run.fault);
      var m := BeforeClose(s, run.head, run.req, run.fault);
      if m.alive {
        LastFinishOk(s, m, run.head, run.req, fallback, CallKeys(s, run.head, run.req, run.fault));
        FinalizeSound(m.store, LastFinish(m, p, run.head, fallback));
      }
    }
  }

  lemma {:induction false} SoundAfter(s: Tables, runs: seq<Run>)
    requires Sound(s) && forall run :: run in runs ==> Mono(run.head)
    ensures Sound(AfterAll(s, runs))
  {
    if runs != [] {
      var last := runs[|runs| - 1];
      assert last in runs;
      SoundAfter(s, runs[..|runs| - 1]);
      IndexKeepsSound(AfterAll(s, runs[..|runs| - 1]), last);
    }
  }

  lemma ReachableSound(runs: seq<Run>)
    requires forall run :: run in runs ==> Mono(run.head)
    ensures Sound(AfterAll(EMPTY, runs))
  {
    SoundAfter(EMPTY, runs);
  }

  /** However HEAD moved and however many calls were cut off: every commit of the recorded head that is
      no older than the recorded bound has its updates and diagnostics stored. */
  lemma StateNeverOverclaims(runs: seq<Run>, c: Commit)
    requires forall run :: run in runs ==> Mono(run.head)
    ensures var s := AfterAll(EMPTY, runs);
      s.state.Some? && Anc(c, s.state.value.head) && s.state.value.since <= c.time ==>
        (forall k :: k in Keys(c) ==> EventId(c, k) in s.events) && Notes(c) <= s.diagnostics
  {
    ReachableSound(runs);
  }

  /** Cursors of the initial and forward scans are exact certificates in every reachable store. */
  lemma CursorCertificate(runs: seq<Run>, key: ScanKey, c: Commit)
    requires forall run :: run in runs ==> Mono(run.head)
    requires key.Initial? || key.Forward?
    ensures var s := AfterAll(EMPTY, runs);
      key in s.cursors ==>
        var cur := s.cursors[key];
        cur.frontier.Some? && (Row(key, c) in s.rows <==> Lists(cur.head, RangeOf(cur), c) && Anc(cur.frontier.value, c))
  {
    ReachableSound(runs);
    assert Certified(AfterAll(EMPTY, runs), key);
  }

  /** A backward cursor may owe its gaps to the forward range of the same call. Its rows lie between head
      and frontier, and every listed commit there without a row is stored, or is not below the recorded head. */
  lemma BackwardCursorCertificate(runs: seq<Run>, key: ScanKey, c: Commit)
    requires forall run :: run in runs ==> Mono(run.head)
    requires key.Backward?
    ensures var s := AfterAll(EMPTY, runs);
      key in s.cursors ==>
        var cur := s.cursors[key];
        && cur.frontier.Some?
        && (Row(key, c) in s.rows ==> Lists(cur.head, RangeOf(cur), c) && Anc(cur.frontier.value, c))
        && (Lists(cur.head, RangeOf(cur), c) && Anc(cur.frontier.value, c) && Row(key, c) !in s.rows ==>
              s.state.Some? && (Held(s, c) || !Anc(c, s.state.value.head)))
  {
    ReachableSound(runs);
    assert Certified(AfterAll(EMPTY, runs), key);
  }

  /** Every stored event belongs to the head. */
  predicate Reconciled(s: Tables, head: Commit) {
    forall e | e in s.events :: Anc(e.commit, head)
  }

  /** The call can account for every stored event: its commit is on the new head or on the recorded one,
      or one of this call's own scan keys has a progress row for it. */
  predicate Traceable(s: Tables, head: Commit, keys: set<ScanKey>) {
    forall e | e in s.events ::
      || Anc(e.commit, head)
      || (s.state.Some? && Anc(e.commit, s.state.value.head))
      || (exists row | row in s.rows :: row.commit == e.commit && row.key in keys)
  }

  lemma TraceableReconciles(s: Tables, m: Memory, head: Commit, req: Request, fallback: bool, keys: set<ScanKey>)
    requires Rebasable(s.state, head) && Settling(s, m, head, PlanFor(s.state, head, req), keys)
    ensures Reconciled(Finalize(m.store, LastFinish(m, PlanFor(s.state, head, req), head, fallback)), head) <==>
              Traceable(s, head, keys)
  {
    var p := PlanFor(s.state, head, req);
    var f := LastFinish(m, p, head, fallback);
    var t := Finalize(m.store, f);
    forall c ensures c in p.remove <==> s.state.Some? && Anc(c, s.state.value.head) && !Anc(c, head) {
      RemovedAreGone(s, head, req, c);
    }
    forall c ensures (exists row | row in s.rows :: row.commit == c && row.key in keys) ==> c in m.loaded || c in p.remove {
      forall row | row in s.rows && row.commit == c && row.key in keys ensures c in m.loaded || c in p.remove {
        assert row == Row(row.key, c);
      }
    }
    forall c | c in m.loaded ensures exists row | row in s.rows :: row.commit == c && row.key in keys {
      var k :| k in keys && Row(k, c) in s.rows;
      assert Row(k, c).commit == c && Row(k, c).key == k;
    }
    forall e | e in s.events && !Anc(e.commit, head) ensures e !in t.events <==> e.commit in p.remove || e.commit in m.loaded {
    }
  }

  /** A completed call leaves only events of its head exactly when it could trace the others. */
  lemma CompletedReconciles(s: Tables, run: Run)
    requires Sound(s) && Mono(run.head) && Completes(s, run)
    ensures Reconciled(After(s, run), run.head) <==> Traceable(s, run.head, CallKeys(s, run.head, run.req, run.fault))
  {
    BeforeCloseSettles(s, run.head, run.req, run.fault);
    TraceableReconciles(s, BeforeClose(s, run.head, run.req, run.fault), run.head, run.req,
                        FallsBack(s, run.req, run.fault), CallKeys(s, run.head, run.req, run.fault));
  }

  lemma SearchedIsSound(s: Tables, m: Memory, head: Commit, key: ScanKey, k: Key)
    requires Searched(s, m, head, key) && k in m.missing
    ensures (forall c :: Anc(c, head) ==> k !in Keys(c)) <==>
            (forall c :: Anc(c, head) && Row(key, c) in s.rows ==> k !in Keys(c))
  {
  }

  lemma CoverageSteps(s: Tables, head: Commit, req: Request, fault: Fault)
    requires Sound(s) && Mono(head) && Rebasable(s.state, head)
    ensures var t := BeforeClose(s, head, req, fault).store;
      && t.coverage <= s.coverage && (PlanFor(s.state, head, req).remove == {} ==> t.coverage == s.coverage)
      && (t.state.None? ==> s.state.None?)
  {
    hide Sound, Settling, Achieved, SeenSettled, ScanRange, Ready;
    var p := PlanFor(s.state, head, req);
    var m1 := AfterPrimary(s, head, req, fault);
    PrimaryAchieved(s, head, req, fault);
    if FallsBack(s, req, fault) && m1.alive {
      PublishSettles(s, m1, head, req);
      var m2 := Publish(m1, p, head);
      if m2.alive {
        FallbackReady(s, m2, head, p, PrimaryKeys(p));
        FallbackCovers(m2, p, head);
      }
    }
  }

  /** A scan records no coverage. */
  lemma FallbackCovers(m: Memory, p: Plan, head: Commit)
    requires Ready(m, p.fallback)
    ensures var t := ScanRange(m, p.fallback, head).store; t.coverage == m.store.coverage && t.state == m.store.state
  {
    ScanRangeOk(m, p.fallback, head);
  }

  /** Coverage a completed call adds is right exactly when no checkpoint of an interrupted fallback hides the key:
      commits with such a checkpoint are not searched again. */
  lemma ExhaustedIsSound(s: Tables, run: Run, k: Key)
    requires Sound(s) && Mono(run.head) && Completes(s, run)
    requires k in After(s, run).coverage && k !in s.coverage
    ensures (forall c :: Anc(c, run.head) ==> k !in Keys(c)) <==>
            (forall c :: Anc(c, run.head) && Row(Fallback(run.req.installed), c) in s.rows ==> k !in Keys(c))
  {
    BeforeCloseSettles(s, run.head, run.req, run.fault);
    CoverageSteps(s, run.head, run.req, run.fault);
    SearchedIsSound(s, BeforeClose(s, run.head, run.req, run.fault), run.head, Fallback(run.req.installed), k);
  }
}
