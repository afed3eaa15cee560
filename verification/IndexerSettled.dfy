/** What a call settles, said of the heads, the request and the tables before it, and of nothing the call computes. */
module IndexerSettled {
  import opened Wrappers
  import opened CommitGraph
  import opened HistoryTables
  import opened IndexerSpec
  import opened IndexerWalk
  import opened IndexerCursor
  import opened IndexerScan
  import opened IndexerCall
  import opened IndexerTheorems
  import opened IndexerCoverage

  /** Nothing stored for the key, and no search that came to nothing. */
  predicate Unknown(s: Tables, k: Key) {
    (forall e | e in s.events :: e.key != k) && k !in s.coverage
  }

  /** The scans a call makes: a first one, or one above the recorded head and one below its bound; and one through all of
      history if something wanted is unknown. */
  function OwnKeys(s: Tables, run: Run): set<ScanKey> {
    (match s.state
     case None => {Initial}
     case Some(prior) =>
       (if run.head != prior.head then {Forward(prior.head)} else {}) +
       (if 0 < run.req.since < prior.since then {Backward(run.req.since, prior.since)} else {})) +
    (if exists k :: k in run.req.wanted && Unknown(s, k) then {Fallback(run.req.installed)} else {})
  }

  /** HEAD has lost the commit, and the call can tell: it was on the recorded head, or one of the call's scans has a row
      for it. A first call also forgets the rows of an earlier, longer one. */
  ghost predicate Removable(s: Tables, run: Run, c: Commit) {
    || (s.state.Some? && Anc(c, s.state.value.head) && !Anc(c, run.head))
    || (exists row :: row in s.rows && row.commit == c && row.key in OwnKeys(s, run) &&
          (!Anc(c, run.head) || (s.state.None? && c.time < run.req.since)))
  }

  lemma MissingMeans(s: Tables, run: Run)
    ensures forall k :: k in Missing(s, run) <==> k in run.req.wanted && Unknown(s, k)
  {
  }

  lemma OwnKeysExact(s: Tables, run: Run)
    requires Rebasable(s.state, run.head)
    ensures OwnKeys(s, run) == CallKeys(s, run.head, run.req, run.fault)
  {
    MissingMeans(s, run);
    assert Missing(s, run) != {} ==> exists k :: k in Missing(s, run);
  }

  // ---- what is lost and what is new ------------------------------------------------------------

  /** Nothing is lost but what belongs to `remove`, and nothing is new but what a commit of the head yields. */
  ghost predicate Between(s: Tables, t: Tables, head: Commit, remove: set<Commit>) {
    && (forall e :: e in s.events ==> e in t.events || e.commit in remove)
    && (forall d :: d in s.diagnostics ==> d in t.diagnostics || d.commit in remove)
    && (forall e :: e in t.events ==> e in s.events || (Anc(e.commit, head) && e.key in Keys(e.commit)))
    && (forall d :: d in t.diagnostics ==> d in s.diagnostics || (Anc(d.commit, head) && d in Notes(d.commit)))
  }

  lemma FinalizeBetween(s: Tables, t: Tables, f: Finish, remove: set<Commit>)
    requires Between(s, t, f.head, remove) && remove <= f.remove
    ensures Between(s, Finalize(t, f), f.head, f.remove)
  {
  }

  lemma FallbackBetween(s: Tables, m: Memory, head: Commit, p: Plan)
    requires Between(s, m.store, head, p.remove)
    requires m.alive ==> Ready(m, p.fallback)
    ensures Between(s, ScanIf(m, Some(p.fallback), head).store, head, p.remove)
  {
    if m.alive {
      ScanRangeOk(m, p.fallback, head);
      forall c | Lists(head, p.fallback.range, c) ensures Anc(c, head) {
        ReachAnc(head, c, p.fallback.range.since);
      }
    }
  }

  lemma BeforeCloseBetween(s: Tables, head: Commit, req: Request, fault: Fault)
    requires Sound(s) && Mono(head) && Rebasable(s.state, head)
    ensures Between(s, BeforeClose(s, head, req, fault).store, head, PlanFor(s.state, head, req).remove)
  {
    hide Ready, Settling, Sound, Achieved;
    var p := PlanFor(s.state, head, req);
    var m1 := AfterPrimary(s, head, req, fault);
    PrimaryAchieved(s, head, req, fault);
    assert Between(s, m1.store, head, {});
    if FallsBack(s, req, fault) {
      var m2 := Publish(m1, p, head);
      FinalizeBetween(s, m1.store, Finish(head, p.since, p.remove, {}, PrimaryKeys(p)), {});
      if m2.alive {
        PublishSettles(s, m1, head, req);
        FallbackReady(s, m2, head, p, PrimaryKeys(p));
      }
      FallbackBetween(s, m2, head, p);
    }
  }

  /** What the last transaction removes can be traced. */
  lemma RemoveTraced(s: Tables, m: Memory, run: Run, c: Commit)
    requires Rebasable(s.state, run.head)
    requires var p := PlanFor(s.state, run.head, run.req);
      Settling(s, m, run.head, p, CallKeys(s, run.head, run.req, run.fault)) && c in p.remove + (m.loaded - m.encountered)
    ensures Removable(s, run, c)
  {
    RemovedAreGone(s, run.head, run.req, c);
    OwnKeysExact(s, run);
    if c in m.loaded && c !in m.encountered {
      var k :| k in OwnKeys(s, run) && Row(k, c) in s.rows;
      assert Row(k, c).commit == c && Row(k, c).key == k;
      assert Anc(c, run.head) ==> s.state.None? && c.time < run.req.since;
    }
  }

  /** A call that has been somewhere before removes all it can trace. */
  lemma TracedRemove(s: Tables, m: Memory, run: Run, c: Commit)
    requires Rebasable(s.state, run.head) && s.state.Some?
    requires var p := PlanFor(s.state, run.head, run.req); Settling(s, m, run.head, p, CallKeys(s, run.head, run.req, run.fault))
    requires Removable(s, run, c)
    ensures c in PlanFor(s.state, run.head, run.req).remove + (m.loaded - m.encountered)
  {
    RemovedAreGone(s, run.head, run.req, c);
    OwnKeysExact(s, run);
    if !(Anc(c, s.state.value.head) && !Anc(c, run.head)) {
      var row :| row in s.rows && row.commit == c && row.key in OwnKeys(s, run) && !Anc(c, run.head);
      assert Row(row.key, c) in s.rows;
    }
  }

  /** Wherever a call is cut off, what it loses was HEAD's no longer and traceable, and what it adds is yielded by a commit
      of HEAD. */
  lemma CallTurnover(s: Tables, run: Run)
    requires Sound(s) && Mono(run.head)
    ensures var t := After(s, run);
      && (forall e :: e in s.events ==> e in t.events || Removable(s, run, e.commit))
      && (forall d :: d in s.diagnostics ==> d in t.diagnostics || Removable(s, run, d.commit))
      && (forall e :: e in t.events ==> e in s.events || (Anc(e.commit, run.head) && e.key in Keys(e.commit)))
      && (forall d :: d in t.diagnostics ==> d in s.diagnostics || (Anc(d.commit, run.head) && d in Notes(d.commit)))
  {
    hide Settling, Sound, BeforeClose, Removable, OwnKeys;
    if Rebasable(s.state, run.head) {
      var p := PlanFor(s.state, run.head, run.req);
      var m := BeforeClose(s, run.head, run.req, run.fault);
      BeforeCloseSettles(s, run.head, run.req, run.fault);
      BeforeCloseBetween(s, run.head, run.req, run.fault);
      forall c | c in p.remove ensures Removable(s, run, c) {
        GoneRemovable(s, run, c);
      }
      if m.alive {
        var f := LastFinish(m, p, run.head, FallsBack(s, run.req, run.fault));
        FinalizeBetween(s, m.store, f, p.remove);
        forall c | c in f.remove ensures Removable(s, run, c) {
          RemoveTraced(s, m, run, c);
        }
      }
    }
  }

  lemma GoneRemovable(s: Tables, run: Run, c: Commit)
    requires Rebasable(s.state, run.head) && c in PlanFor(s.state, run.head, run.req).remove
    ensures Removable(s, run, c)
  {
    RemovedAreGone(s, run.head, run.req, c);
  }

  /** Wherever a call is cut off, what HEAD still has stays. */
  lemma HeadEventsStay(s: Tables, run: Run, e: EventId)
    requires Sound(s) && Mono(run.head) && e in s.events
    requires Anc(e.commit, run.head) && (s.state.Some? || run.req.since <= e.commit.time)
    ensures e in After(s, run).events
  {
    CallTurnover(s, run);
  }

  /** A completed call after another loses exactly what it can trace. */
  lemma CompletedLoses(s: Tables, run: Run, e: EventId)
    requires Sound(s) && Mono(run.head) && Completes(s, run) && s.state.Some? && e in s.events
    ensures e in After(s, run).events <==> !Removable(s, run, e.commit)
  {
    hide Settling, Sound, BeforeClose, Removable, OwnKeys;
    CallTurnover(s, run);
    if Removable(s, run, e.commit) {
      BeforeCloseSettles(s, run.head, run.req, run.fault);
      TracedRemove(s, BeforeClose(s, run.head, run.req, run.fault), run, e.commit);
    }
  }

  /** With the events go the diagnostics, and the rows of all other scans. */
  lemma CompletedForgets(s: Tables, run: Run)
    requires Sound(s) && Mono(run.head) && Completes(s, run) && s.state.Some?
    ensures forall d | d in s.diagnostics :: d in After(s, run).diagnostics <==> !Removable(s, run, d.commit)
    ensures forall row | row in s.rows && row.key !in OwnKeys(s, run) :: row in After(s, run).rows <==> !Removable(s, run, row.commit)
  {
    hide Sound, BeforeClose, Removable, OwnKeys;
    CallTurnover(s, run);
    BeforeCloseSettles(s, run.head, run.req, run.fault);
    OwnKeysExact(s, run);
    var m := BeforeClose(s, run.head, run.req, run.fault);
    forall c ensures Removable(s, run, c) <==> c in PlanFor(s.state, run.head, run.req).remove + (m.loaded - m.encountered) {
      if Removable(s, run, c) {
        TracedRemove(s, m, run, c);
      } else if c in PlanFor(s.state, run.head, run.req).remove + (m.loaded - m.encountered) {
        RemoveTraced(s, m, run, c);
      }
    }
  }

  /** In every reachable store, every event and every diagnostic is one that its commit yields. */
  lemma {:induction false} OnlyYielded(runs: seq<Run>)
    requires forall run :: run in runs ==> Mono(run.head)
    ensures var s := AfterAll(EMPTY, runs);
      (forall e | e in s.events :: e.key in Keys(e.commit)) && (forall d | d in s.diagnostics :: d in Notes(d.commit))
  {
    if runs != [] {
      var last := runs[|runs| - 1];
      assert last in runs;
      OnlyYielded(runs[..|runs| - 1]);
      ReachableSound(runs[..|runs| - 1]);
      CallTurnover(AfterAll(EMPTY, runs[..|runs| - 1]), last);
    }
  }

  // ---- what a completed call has done ------------------------------------------------------------

  /** The head is recorded, with the earlier of the two bounds; 0 stands for none, and a call that asks for none keeps the
      recorded one. None of the call's own scans has a row or a cursor left. */
  lemma CompletedRecords(s: Tables, run: Run)
    requires Completes(s, run)
    ensures var t := After(s, run);
      && t.state.Some? && t.state.value.head == run.head
      && (s.state.None? ==> t.state.value.since == run.req.since)
      && (s.state.Some? && run.req.since == 0 ==> t.state.value.since == s.state.value.since)
      && (s.state.Some? && run.req.since > 0 ==>
            t.state.value.since == if 0 < s.state.value.since < run.req.since then s.state.value.since else run.req.since)
      && (forall row | row in t.rows :: row.key !in OwnKeys(s, run))
      && (forall key | key in OwnKeys(s, run) :: key !in t.cursors)
  {
    OwnKeysExact(s, run);
  }

  /** Whatever the tables held of HEAD's commits after the primary ranges, they still hold. */
  lemma HeldThrough(s: Tables, run: Run, c: Commit)
    requires Sound(s) && Mono(run.head) && Completes(s, run) && Anc(c, run.head)
    requires s.state.Some? || run.req.since <= c.time
    requires Held(AfterPrimary(s, run.head, run.req, run.fault).store, c)
    ensures Held(After(s, run), c)
  {
    hide Ready, Sound, Settling, Achieved, ScanRange;
    var p := PlanFor(s.state, run.head, run.req);
    var m1 := AfterPrimary(s, run.head, run.req, run.fault);
    PrimaryAchieved(s, run.head, run.req, run.fault);
    RemovedAreGone(s, run.head, run.req, c);
    BeforeCloseSettles(s, run.head, run.req, run.fault);
    var m := BeforeClose(s, run.head, run.req, run.fault);
    assert Held(m.store, c) by {
      if FallsBack(s, run.req, run.fault) {
        var m2 := Publish(m1, p, run.head);
        PublishSettles(s, m1, run.head, run.req);
        HeldStays(m1.store, Finish(run.head, p.since, p.remove, {}, PrimaryKeys(p)), c);
        FallbackReady(s, m2, run.head, p, PrimaryKeys(p));
        ScanRangeOk(m2, p.fallback, run.head);
        HeldGrows(m2.store, m.store, c);
      }
    }
    var f := LastFinish(m, p, run.head, FallsBack(s, run.req, run.fault));
    if c in f.remove {
      RemoveTraced(s, m, run, c);
    }
    HeldStays(m.store, f, c);
  }

  /** A completed call has stored everything of HEAD's commits that are new enough for the request, that the recorded head
      did not have, or that the recorded range claimed. */
  lemma CompletedStores(s: Tables, run: Run, c: Commit)
    requires Sound(s) && Mono(run.head) && Completes(s, run) && Anc(c, run.head)
    requires || (s.state.None? && run.req.since <= c.time)
             || (s.state.Some? && run.req.since > 0 && run.req.since <= c.time)
             || (s.state.Some? && !Anc(c, s.state.value.head))
             || (s.state.Some? && s.state.value.since <= c.time)
    ensures var t := After(s, run); (forall k | k in Keys(c) :: EventId(c, k) in t.events) && Notes(c) <= t.diagnostics
  {
    PrimaryAchieved(s, run.head, run.req, run.fault);
    var m1 := AfterPrimary(s, run.head, run.req, run.fault);
    assert m1.alive;
    if s.state.Some? && Anc(c, s.state.value.head) && s.state.value.since <= c.time {
      HeldGrows(s, m1.store, c);
    }
    HeldThrough(s, run, c);
  }

  // ---- wanted keys ---------------------------------------------------------------------------------

  /** The last transaction, for a key that was unknown. */
  lemma UnknownAtClose(s: Tables, run: Run, k: Key)
    requires Sound(s) && Mono(run.head) && Completes(s, run) && k in run.req.wanted && Unknown(s, k)
    ensures var m := BeforeClose(s, run.head, run.req, run.fault); var t := After(s, run);
      && (k in m.missing <==> !HasEvent(m.store, k)) && (HasEvent(m.store, k) <==> HasEvent(t, k))
      && (k in t.coverage <==> k in m.missing)
  {
    hide Sound, BeforeClose;
    MissingMeans(s, run);
    var fallback, before := Fallback(run.req.installed), RowsOf(s, Fallback(run.req.installed));
    forall row | row in s.rows && row.key == fallback ensures row.commit in before {
      RowsOfExact(s, fallback, row.commit);
      assert Row(fallback, row.commit) == row;
    }
    ToldBeforeClose(s, run.head, run.req, run.fault, fallback, k, before);
    BeforeCloseSettles(s, run.head, run.req, run.fault);
    CoverageSteps(s, run.head, run.req, run.fault);
    var m := BeforeClose(s, run.head, run.req, run.fault);
    var f := LastFinish(m, PlanFor(s.state, run.head, run.req), run.head, true);
    forall c | c in f.remove ensures c !in m.encountered {
      RemovedAreGone(s, run.head, run.req, c);
    }
    ToldFinalize(m, f, fallback, k, before);
  }

  /** An unknown key that is wanted has afterwards an event or is recorded as searched for in vain, not both. It has an event
      if a commit of HEAD that no earlier search has checkpointed yields it; only if one yields it; and so, with no earlier
      search, exactly if one does. */
  lemma UnknownIsSearched(s: Tables, run: Run, k: Key)
    requires Sound(s) && Mono(run.head) && Completes(s, run) && k in run.req.wanted && Unknown(s, k)
    ensures var t := After(s, run);
      && (k in t.coverage <==> forall e | e in t.events :: e.key != k)
      && (forall c | Anc(c, run.head) && k in Keys(c) && Row(Fallback(run.req.installed), c) !in s.rows :: HasEvent(t, k))
      && (HasEvent(t, k) ==> exists c :: Anc(c, run.head) && k in Keys(c))
  {
    UnknownAtClose(s, run, k);
    MissingMeans(s, run);
    BeforeCloseSettles(s, run.head, run.req, run.fault);
    if HasEvent(After(s, run), k) {
      CallTurnover(s, run);
      var e :| e in After(s, run).events && e.key == k;
      assert Anc(e.commit, run.head) && k in Keys(e.commit);
    }
  }

  /** What is recorded as searched for in vain before the call stays so exactly if the call removes nothing. */
  lemma CoverageStays(s: Tables, run: Run, k: Key)
    requires Sound(s) && Mono(run.head) && Completes(s, run) && s.state.Some? && k in s.coverage
    ensures k in After(s, run).coverage <==> !exists c :: Removable(s, run, c)
  {
    hide Sound, Settling, BeforeClose, Removable, OwnKeys;
    var p := PlanFor(s.state, run.head, run.req);
    var m := BeforeClose(s, run.head, run.req, run.fault);
    BeforeCloseSettles(s, run.head, run.req, run.fault);
    CoverageSteps(s, run.head, run.req, run.fault);
    CallMissing(s, run);
    var f := LastFinish(m, p, run.head, FallsBack(s, run.req, run.fault));
    if c :| Removable(s, run, c) {
      TracedRemove(s, m, run, c);
      assert c in f.remove;
    } else if c :| c in f.remove {
      RemoveTraced(s, m, run, c);
    }
    assert k !in Missing(s, run);
  }

  /** A completed call adds to the coverage only what was wanted and unknown. */
  lemma CoverageIsWanted(s: Tables, run: Run, k: Key)
    requires Sound(s) && Mono(run.head) && Completes(s, run) && k in After(s, run).coverage && k !in s.coverage
    ensures k in run.req.wanted && Unknown(s, k)
  {
    CoverageWasMissing(s, run, k);
    MissingMeans(s, run);
  }

  /** Every wanted key is settled: it has an event, or is recorded as searched for in vain, or the call removed its last
      event, or removed commits and with them what was recorded. */
  lemma WantedIsSettled(s: Tables, run: Run, k: Key)
    requires Sound(s) && Mono(run.head) && Completes(s, run) && k in run.req.wanted
    requires s.coverage == {} || s.state.Some?
    ensures var t := After(s, run);
      || HasEvent(t, k) || k in t.coverage
      || (HasEvent(s, k) && forall e | e in s.events && e.key == k :: Removable(s, run, e.commit))
      || (k in s.coverage && exists c :: Removable(s, run, c))
  {
    if Unknown(s, k) {
      UnknownIsSearched(s, run, k);
    } else if k in s.coverage {
      CoverageStays(s, run, k);
    } else {
      CallTurnover(s, run);
    }
  }

  lemma CoverageNeedsStateStep(s: Tables, run: Run)
    requires Sound(s) && Mono(run.head) && (s.coverage == {} || s.state.Some?)
    ensures var t := After(s, run); t.coverage == {} || t.state.Some?
  {
    hide Sound, BeforeClose;
    if Rebasable(s.state, run.head) {
      CoverageSteps(s, run.head, run.req, run.fault);
    }
  }

  /** Before anything is recorded no search has been. */
  lemma {:induction false} CoverageNeedsState(runs: seq<Run>)
    requires forall run :: run in runs ==> Mono(run.head)
    ensures var s := AfterAll(EMPTY, runs); s.coverage == {} || s.state.Some?
  {
    hide Sound, After;
    if runs != [] {
      var last, rest := runs[|runs| - 1], runs[..|runs| - 1];
      assert last in runs;
      CoverageNeedsState(rest);
      ReachableSound(rest);
      CoverageNeedsStateStep(AfterAll(EMPTY, rest), last);
    }
  }
}
