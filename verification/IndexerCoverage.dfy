/** Keys recorded as exhausted: sound as long as the search for them was never widened half way. */
module IndexerCoverage {
  import opened Wrappers
  import opened CommitGraph
  import opened HistoryTables
  import opened IndexerSpec
  import opened IndexerWalk
  import opened IndexerCall
  import opened IndexerTheorems

  /** No checkpoint of this scan, but those of `before`, keeps the key from being found. */
  predicate Unhidden(t: Tables, fallback: ScanKey, k: Key, before: set<Commit>) {
    HasEvent(t, k) || forall row | row in t.rows && row.key == fallback :: k !in Keys(row.commit) || row.commit in before
  }

  /** Stored and pending checkpoints hide nothing new; a key that is no longer missing has been found, by this call and in
      a commit that yields it. */
  ghost predicate Told(m: Memory, key: ScanKey, fallback: ScanKey, k: Key, before: set<Commit>) {
    var v := Virtual(m, key);
    && BufferOk(m) && Unhidden(m.store, fallback, k, before) && Unhidden(v, fallback, k, before)
    && (k in m.missing || HasEvent(v, k))
    && (m.alive ==> forall e | e in v.events && e.key == k :: e.commit in m.encountered && k in Keys(e.commit))
  }

  // ---- one scan ----------------------------------------------------------------------------

  lemma ToldRecording(t: Tables, key: ScanKey, missing: set<Key>, cursor: Option<Cursor>, c: Commit, fallback: ScanKey, k: Key, before: set<Commit>)
    requires Unhidden(t, fallback, k, before) && (k in missing || HasEvent(t, k))
    ensures var u := Recording(t, key, missing, cursor, c);
      Unhidden(u, fallback, k, before) && (k in missing - Keys(c) || HasEvent(u, k))
  {
    var u := Recording(t, key, missing, cursor, c);
    if HasEvent(t, k) {
      var e :| e in t.events && e.key == k;
      assert e in u.events;
    } else if k in Keys(c) {
      assert EventId(c, k) in u.events;
    }
  }

  lemma ToldProcess(m: Memory, scan: Scan, checkpoint: set<Commit>, c: Commit, fallback: ScanKey, k: Key, before: set<Commit>)
    requires m.alive && Told(m, scan.key, fallback, k, before)
    ensures var n := Process(m, scan, checkpoint, c); Told(n, scan.key, fallback, k, before)
  {
    ProcessCases(m, scan, checkpoint, c);
    var n := Process(m, scan, checkpoint, c);
    if !Passed(m, n, scan, checkpoint, c) {
      ToldRecording(Virtual(m, scan.key), scan.key, m.missing, m.cursor, c, fallback, k, before);
    }
  }

  lemma {:induction false} ToldWalk(m: Memory, scan: Scan, checkpoint: set<Commit>, at: Commit, r: Range, fallback: ScanKey, k: Key, before: set<Commit>)
    requires Told(m, scan.key, fallback, k, before)
    ensures var n := Walk(m, scan, checkpoint, at, r); Told(n, scan.key, fallback, k, before)
    decreases at
  {
    if m.alive && !Below(at, r.floor) && r.since <= at.time {
      var next := if Within(r, at) then Process(m, scan, checkpoint, at) else m;
      if Within(r, at) {
        ToldProcess(m, scan, checkpoint, at, fallback, k, before);
      }
      if at.Child? {
        ToldWalk(next, scan, checkpoint, at.parent, r, fallback, k, before);
      }
    }
  }

  /** Told, with nothing pending unless the call is over. */
  ghost predicate ToldIdle(m: Memory, key: ScanKey, fallback: ScanKey, k: Key, before: set<Commit>) {
    Told(m, key, fallback, k, before) && (m.alive ==> m.processed == [])
  }

  lemma ToldWalked(m: Memory, scan: Scan, checkpoint: set<Commit>, tip: Commit, r: Range, fallback: ScanKey, k: Key, before: set<Commit>)
    requires ToldIdle(m, scan.key, fallback, k, before)
    ensures var n := FlushIfAlive(WalkAll(m, scan, checkpoint, tip, r), scan.key);
      ToldIdle(n, scan.key, fallback, k, before)
  {
    var b := m.(last := None);
    ToldWalk(b, scan, checkpoint, tip, r, fallback, k, before);
    var w := Walk(b, scan, checkpoint, tip, r);
    if w.alive {
      FlushKeepsVirtual(w, scan.key);
    } else {
      ReapplyChangesNothing(w.store, PendingBatch(w, scan.key));
    }
  }

  lemma ToldRestart(m: Memory, scan: Scan, checkpoint: set<Commit>, head: Commit, fallback: ScanKey, k: Key, before: set<Commit>)
    requires m.alive && ToldIdle(m, scan.key, fallback, k, before)
    ensures var n := Restart(m, scan, checkpoint, head); ToldIdle(n, scan.key, fallback, k, before)
  {
    var unset := Cursor(head, None, scan.range.floor, scan.range.since, scan.range.until, scan.cutoff);
    ToldWalked(m.(cursor := if checkpoint == {} then Some(unset) else None), scan, checkpoint, head, scan.range, fallback, k, before);
  }

  lemma ToldResume(m: Memory, scan: Scan, checkpoint: set<Commit>, cur: Cursor, fallback: ScanKey, k: Key, before: set<Commit>)
    requires m.alive && cur.frontier.Some? && ToldIdle(m, scan.key, fallback, k, before)
    ensures var n := Resume(m, scan, checkpoint, cur); ToldIdle(n, scan.key, fallback, k, before)
  {
    var b := m.(encountered := m.encountered + checkpoint, seen := m.seen + checkpoint, cursor := Some(cur));
    if cur.frontier.value.Child? {
      ToldWalked(b, scan, checkpoint, cur.frontier.value.parent, scan.range, fallback, k, before);
    }
  }

  /** Moving a cursor touches neither events nor progress. */
  lemma ToldCursor(m: Memory, key: ScanKey, after: Tables, fallback: ScanKey, k: Key, before: set<Commit>)
    requires m.alive && ToldIdle(m, key, fallback, k, before) && after == m.store.(cursors := after.cursors)
    ensures var n := Write(m, after); ToldIdle(n, key, fallback, k, before)
  {
    assert HasEvent(after, k) <==> HasEvent(m.store, k);
  }

  lemma ToldExtend(m: Memory, scan: Scan, checkpoint: set<Commit>, cur: Cursor, head: Commit, fallback: ScanKey, k: Key, before: set<Commit>)
    requires m.alive && cur.frontier.Some? && ToldIdle(m, scan.key, fallback, k, before)
    ensures var n := Extend(m, scan, checkpoint, cur, head); ToldIdle(n, scan.key, fallback, k, before)
  {
    ToldWalked(m, scan, checkpoint, head, scan.range.(floor := Some(cur.head)), fallback, k, before);
    var p := Prefix(m, scan, checkpoint, cur, head);
    if p.alive {
      if !ReachedOldHead(p, scan, cur) {
        ToldRestart(p, scan, checkpoint, head, fallback, k, before);
      } else {
        var moved := cur.(head := head);
        var saved := ApplyBatch(p.store, SaveCursor(scan.key, moved));
        assert saved == p.store.(cursors := saved.cursors);
        ToldCursor(p, scan.key, saved, fallback, k, before);
        var w := Write(p, saved);
        if w.alive {
          ToldResume(w, scan, checkpoint, moved, fallback, k, before);
        }
      }
    }
  }

  lemma ToldScan(m: Memory, scan: Scan, head: Commit, fallback: ScanKey, k: Key, before: set<Commit>)
    requires m.alive && ToldIdle(m, scan.key, fallback, k, before)
    ensures var n := ScanRange(m, scan, head); ToldIdle(n, scan.key, fallback, k, before)
  {
    var checkpoint := RowsOf(m.store, scan.key);
    var l := Loaded(m, scan.key);
    assert ToldIdle(l, scan.key, fallback, k, before);
    if l.fuel == 0 || (scan.key.Fallback? && m.missing == {} && checkpoint == {}) { return; }
    if scan.key !in l.store.cursors {
      ToldRestart(l, scan, checkpoint, head, fallback, k, before);
      return;
    }
    var cur, usable := l.store.cursors[scan.key], UsableCursor(l.store, scan, head);
    if usable && cur.head == head {
      ToldResume(l, scan, checkpoint, cur, fallback, k, before);
      return;
    }
    var cleared := ApplyBatch(l.store, ClearCursor(scan.key));
    assert cleared == l.store.(cursors := cleared.cursors);
    ToldCursor(l, scan.key, cleared, fallback, k, before);
    var b := Write(l, cleared);
    if b.alive {
      if usable {
        ToldExtend(b, scan, checkpoint, cur, head, fallback, k, before);
      } else {
        ToldRestart(b, scan, checkpoint, head, fallback, k, before);
      }
    }
  }

  /** With nothing pending it does not matter which scan comes next. */
  lemma ToldNext(m: Memory, key: ScanKey, next: ScanKey, fallback: ScanKey, k: Key, before: set<Commit>)
    requires ToldIdle(m, key, fallback, k, before) && m.alive
    ensures ToldIdle(m, next, fallback, k, before)
  {
  }

  // ---- the missing set ---------------------------------------------------------------------

  lemma {:induction false} WalkMissing(m: Memory, scan: Scan, checkpoint: set<Commit>, at: Commit, r: Range)
    ensures Walk(m, scan, checkpoint, at, r).missing <= m.missing
    decreases at
  {
    if m.alive && !Below(at, r.floor) && r.since <= at.time {
      ParseExact(at, |at.changes|, scan.key.Fallback?, m.missing);
      var next := if Within(r, at) then Process(m, scan, checkpoint, at) else m;
      assert next.missing <= m.missing;
      if at.Child? {
        WalkMissing(next, scan, checkpoint, at.parent, r);
      }
    }
  }

  lemma WalkedMissing(m: Memory, scan: Scan, checkpoint: set<Commit>, tip: Commit, r: Range)
    ensures FlushIfAlive(WalkAll(m, scan, checkpoint, tip, r), scan.key).missing <= m.missing
  {
    WalkMissing(m.(last := None), scan, checkpoint, tip, r);
  }

  lemma RestartMissing(m: Memory, scan: Scan, checkpoint: set<Commit>, head: Commit)
    ensures Restart(m, scan, checkpoint, head).missing <= m.missing
  {
    var unset := Cursor(head, None, scan.range.floor, scan.range.since, scan.range.until, scan.cutoff);
    WalkedMissing(m.(cursor := if checkpoint == {} then Some(unset) else None), scan, checkpoint, head, scan.range);
  }

  lemma ResumeMissing(m: Memory, scan: Scan, checkpoint: set<Commit>, cur: Cursor)
    requires cur.frontier.Some?
    ensures Resume(m, scan, checkpoint, cur).missing <= m.missing
  {
    var b := m.(encountered := m.encountered + checkpoint, seen := m.seen + checkpoint, cursor := Some(cur));
    if cur.frontier.value.Child? {
      WalkedMissing(b, scan, checkpoint, cur.frontier.value.parent, scan.range);
    }
  }

  /** A scan finds keys; it never looks for more. */
  lemma ScanMissing(m: Memory, scan: Scan, head: Commit)
    ensures ScanRange(m, scan, head).missing <= m.missing
  {
    var checkpoint := RowsOf(m.store, scan.key);
    var l := Loaded(m, scan.key);
    var b := Write(l, ApplyBatch(l.store, ClearCursor(scan.key)));
    RestartMissing(l, scan, checkpoint, head);
    RestartMissing(b, scan, checkpoint, head);
    if UsableCursor(l.store, scan, head) {
      var cur := l.store.cursors[scan.key];
      var p := Prefix(b, scan, checkpoint, cur, head);
      ResumeMissing(l, scan, checkpoint, cur);
      WalkedMissing(b, scan, checkpoint, head, scan.range.(floor := Some(cur.head)));
      RestartMissing(p, scan, checkpoint, head);
      ResumeMissing(Write(p, ApplyBatch(p.store, SaveCursor(scan.key, cur.(head := head)))), scan, checkpoint, cur.(head := head));
    }
  }

  // ---- one call ----------------------------------------------------------------------------

  /** The tables, and the memory while the call lives. */
  ghost predicate ToldSoFar(m: Memory, fallback: ScanKey, k: Key, before: set<Commit>) {
    Unhidden(m.store, fallback, k, before) && (m.alive ==> ToldIdle(m, fallback, fallback, k, before))
  }

  lemma ToldScanIf(m: Memory, scan: Option<Scan>, head: Commit, fallback: ScanKey, k: Key, before: set<Commit>)
    requires ToldSoFar(m, fallback, k, before)
    ensures var n := ScanIf(m, scan, head); ToldSoFar(n, fallback, k, before)
  {
    if m.alive && scan.Some? {
      ToldNext(m, fallback, scan.value.key, fallback, k, before);
      ToldScan(m, scan.value, head, fallback, k, before);
      var n := ScanRange(m, scan.value, head);
      if n.alive {
        ToldNext(n, scan.value.key, fallback, fallback, k, before);
      }
    }
  }

  /** Finalizing removes nothing that this call has found. */
  lemma ToldFinalize(m: Memory, f: Finish, fallback: ScanKey, k: Key, before: set<Commit>)
    requires m.alive && ToldIdle(m, fallback, fallback, k, before) && f.remove !! m.encountered
    ensures var n := Write(m, Finalize(m.store, f)); ToldSoFar(n, fallback, k, before)
  {
    var t := Finalize(m.store, f);
    forall e | e in m.store.events && e.key == k ensures e in t.events {
      assert e.commit in m.encountered;
    }
    assert forall row | row in t.rows :: row in m.store.rows;
    assert HasEvent(t, k) <==> HasEvent(m.store, k);
  }

  lemma ToldStart(s: Tables, req: Request, fault: Fault, fallback: ScanKey, k: Key, before: set<Commit>)
    requires k in Start(s, req, fault).missing && Unhidden(s, fallback, k, before)
    ensures ToldSoFar(Start(s, req, fault), fallback, k, before)
  {
  }

  lemma ToldBeforeClose(s: Tables, head: Commit, req: Request, fault: Fault, fallback: ScanKey, k: Key, before: set<Commit>)
    requires Sound(s) && Mono(head) && Rebasable(s.state, head)
    requires k in Start(s, req, fault).missing && Unhidden(s, fallback, k, before)
    ensures ToldSoFar(BeforeClose(s, head, req, fault), fallback, k, before)
  {
    var p := PlanFor(s.state, head, req);
    ToldStart(s, req, fault, fallback, k, before);
    ToldScanIf(Start(s, req, fault), p.first, head, fallback, k, before);
    ToldScanIf(ScanIf(Start(s, req, fault), p.first, head), p.backward, head, fallback, k, before);
    var m := AfterPrimary(s, head, req, fault);
    PrimaryAchieved(s, head, req, fault);
    if m.alive {
      forall c | c in p.remove ensures c !in m.encountered {
        RemovedAreGone(s, head, req, c);
      }
      ToldFinalize(m, Finish(head, p.since, p.remove, {}, PrimaryKeys(p)), fallback, k, before);
    }
    ToldScanIf(Publish(m, p, head), Some(p.fallback), head, fallback, k, before);
  }

  /** A call in which the key is missing hides it behind no new checkpoint, wherever it is cut off. */
  lemma CallKeepsUnhidden(s: Tables, run: Run, fallback: ScanKey, k: Key, before: set<Commit>)
    requires Sound(s) && Mono(run.head)
    requires k in Start(s, run.req, run.fault).missing && Unhidden(s, fallback, k, before)
    ensures Unhidden(After(s, run), fallback, k, before)
  {
    if Rebasable(s.state, run.head) {
      var p := PlanFor(s.state, run.head, run.req);
      ToldBeforeClose(s, run.head, run.req, run.fault, fallback, k, before);
      BeforeCloseSettles(s, run.head, run.req, run.fault);
      var m := BeforeClose(s, run.head, run.req, run.fault);
      if m.alive {
        var f := LastFinish(m, p, run.head, true);
        forall c | c in f.remove ensures c !in m.encountered {
          RemovedAreGone(s, run.head, run.req, c);
        }
        ToldFinalize(m, f, fallback, k, before);
      }
    }
  }

  // ---- whole searches ----------------------------------------------------------------------

  /** The keys a call still looks for. */
  function Missing(s: Tables, run: Run): set<Key> {
    Start(s, run.req, run.fault).missing
  }

  /** From each call to the next, the missing set only shrinks. */
  predicate Shrinks(s: Tables, runs: seq<Run>)
    decreases |runs|
  {
    |runs| > 1 ==> Missing(After(s, runs[0]), runs[1]) <= Missing(s, runs[0]) && Shrinks(After(s, runs[0]), runs[1..])
  }

  lemma {:induction false} AfterFirst(s: Tables, runs: seq<Run>)
    requires runs != []
    ensures AfterAll(s, runs) == AfterAll(After(s, runs[0]), runs[1..])
    decreases |runs|
  {
    var n := |runs| - 1;
    if n == 0 {
      assert runs[..0] == [] && runs[1..] == [];
      assert AfterAll(s, runs[..0]) == s;
    } else {
      AfterFirst(s, runs[..n]);
      assert runs[..n][1..] == runs[1..][..n - 1] && runs[1..][n - 1] == runs[n];
    }
  }

  lemma {:induction false} SearchKeepsUnhidden(s: Tables, runs: seq<Run>, last: Run, fallback: ScanKey, k: Key)
    requires Sound(s) && (forall run | run in runs :: Mono(run.head))
    requires Shrinks(s, runs + [last]) && k in Missing(AfterAll(s, runs), last) && Unhidden(s, fallback, k, {})
    ensures Sound(AfterAll(s, runs)) && Unhidden(AfterAll(s, runs), fallback, k, {})
    ensures k in Missing(s, (runs + [last])[0])
    decreases |runs|
  {
    if runs == [] {
      assert AfterAll(s, runs) == s;
    } else {
      var first, rest := runs[0], runs[1..];
      AfterFirst(s, runs);
      assert (runs + [last])[1..] == rest + [last];
      assert first in runs;
      IndexKeepsSound(s, first);
      assert k in Missing(s, first) ==> Unhidden(After(s, first), fallback, k, {}) by {
        if k in Missing(s, first) {
          CallKeepsUnhidden(s, first, fallback, k, {});
        }
      }
      MissingThroughout(After(s, first), rest, last, k);
      SearchKeepsUnhidden(After(s, first), rest, last, fallback, k);
    }
  }

  lemma {:induction false} MissingThroughout(s: Tables, runs: seq<Run>, last: Run, k: Key)
    requires Shrinks(s, runs + [last]) && k in Missing(AfterAll(s, runs), last)
    ensures k in Missing(s, (runs + [last])[0])
    decreases |runs|
  {
    if runs == [] {
      assert AfterAll(s, runs) == s;
    } else {
      AfterFirst(s, runs);
      assert (runs + [last])[1..] == runs[1..] + [last];
      MissingThroughout(After(s, runs[0]), runs[1..], last, k);
    }
  }

  /** A call never comes to miss what it did not miss from the start. */
  lemma CallMissing(s: Tables, run: Run)
    requires Rebasable(s.state, run.head)
    ensures BeforeClose(s, run.head, run.req, run.fault).missing <= Missing(s, run)
  {
    var p := PlanFor(s.state, run.head, run.req);
    var m := Start(s, run.req, run.fault);
    var m1 := ScanIf(m, p.first, run.head);
    if p.first.Some? {
      ScanMissing(m, p.first.value, run.head);
    }
    if p.backward.Some? {
      ScanMissing(m1, p.backward.value, run.head);
    }
    ScanMissing(Publish(ScanIf(m1, p.backward, run.head), p, run.head), p.fallback, run.head);
  }

  /** What a completed call adds to the coverage was missing when it began. */
  lemma CoverageWasMissing(s: Tables, run: Run, k: Key)
    requires Sound(s) && Mono(run.head) && Completes(s, run) && k in After(s, run).coverage && k !in s.coverage
    ensures k in Missing(s, run)
  {
    CoverageSteps(s, run.head, run.req, run.fault);
    CallMissing(s, run);
  }

  /** A search that starts without checkpoints and is cut off and taken up again any number of times, the missing
      set only shrinking from call to call, records a key as exhausted only if no commit of the head yields it. */
  lemma ShrinkingSearchIsSound(s: Tables, runs: seq<Run>, last: Run, k: Key)
    requires Sound(s) && Mono(last.head) && (forall run | run in runs :: Mono(run.head))
    requires forall row | row in s.rows :: row.key != Fallback(last.req.installed)
    requires Shrinks(s, runs + [last])
    requires var t := AfterAll(s, runs); Completes(t, last) && k in After(t, last).coverage && k !in t.coverage
    ensures forall c :: Anc(c, last.head) ==> k !in Keys(c)
  {
    var fallback := Fallback(last.req.installed);
    var t := AfterAll(s, runs);
    SoundAfter(s, runs);
    CoverageWasMissing(t, last, k);
    SearchKeepsUnhidden(s, runs, last, fallback, k);
    forall c | Row(fallback, c) in t.rows ensures k !in Keys(c) {
      assert Row(fallback, c).commit == c;
    }
    ExhaustedIsSound(t, last, k);
  }
}
