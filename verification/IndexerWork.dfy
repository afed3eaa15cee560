/** How much one call does: what it costs, what it never does twice, and what it has recorded when it is cut off late. */
module IndexerWork {
  import opened Wrappers
  import opened CommitGraph
  import opened HistoryTables
  import opened IndexerSpec
  import opened IndexerWalk
  import opened IndexerCursor
  import opened IndexerScan
  import opened IndexerCall
  import opened IndexerTheorems
  import opened IndexerSettled

  // ---- which changes count -----------------------------------------------------------------------

  /** The change touches a Ruby file, and is not the addition of nothing. */
  predicate Defines(ch: Change) {
    (Ruby(ch.path) || Ruby(ch.oldPath)) && !(ch.status == "A" && ch.path == "")
  }

  lemma {:induction false} KeysUpToMean(c: Commit, n: nat)
    requires n <= |c.changes|
    ensures forall k :: k in KeysUpTo(c, n) <==> exists i :: 0 <= i < n && Defines(c.changes[i]) && c.changes[i].update == Some(k)
    ensures forall d :: d in NotesUpTo(c, n) <==>
              d.commit == c && exists i :: 0 <= i < n && Defines(c.changes[i]) && c.changes[i].path == d.path && d.message in c.changes[i].notes
  {
    if n > 0 {
      KeysUpToMean(c, n - 1);
    }
  }

  /** A commit yields the updates and the diagnostics of its changes to definitions, and no others. */
  lemma YieldMeans(c: Commit)
    ensures forall k :: k in Keys(c) <==> exists ch :: ch in c.changes && Defines(ch) && ch.update == Some(k)
    ensures forall d :: d in Notes(c) <==>
              d.commit == c && exists ch :: ch in c.changes && Defines(ch) && ch.path == d.path && d.message in ch.notes
  {
    KeysUpToMean(c, |c.changes|);
  }

  // ---- batches -----------------------------------------------------------------------------------

  lemma ProcessBatches(m: Memory, scan: Scan, checkpoint: set<Commit>, c: Commit)
    requires |m.processed| < m.limit
    ensures var n := Process(m, scan, checkpoint, c);
      && (n.alive ==> |n.processed| < n.limit)
      && ((n.log == m.log && n.limit == m.limit) || (n.limit == 10 && |n.log| == |m.log| + 1 && n.log[..|m.log|] == m.log && |n.log[|m.log|]| == m.limit))
  {
  }

  /** Every batch that a walk writes before its end is as large as the limit says, and after the first the limit is ten. */
  lemma {:induction false} WalkBatches(m: Memory, scan: Scan, checkpoint: set<Commit>, at: Commit, r: Range)
    requires |m.processed| < m.limit
    ensures var n := Walk(m, scan, checkpoint, at, r);
      && m.log <= n.log && (n.alive ==> |n.processed| < n.limit)
      && n.limit == (if |n.log| == |m.log| then m.limit else 10)
      && (forall i | |m.log| <= i < |n.log| :: |n.log[i]| == if i == |m.log| then m.limit else 10)
    decreases at
  {
    hide Process;
    if m.alive && !Below(at, r.floor) && r.since <= at.time {
      var next := if Within(r, at) then Process(m, scan, checkpoint, at) else m;
      ProcessBatches(m, scan, checkpoint, at);
      if at.Child? && next.alive {
        WalkBatches(next, scan, checkpoint, at.parent, r);
      }
    }
  }

  /** The first batch of a call is one commit, so that its first events show early; no later one is larger than ten. */
  predicate Sized(m: Memory) {
    && m.limit == (if m.log == [] then 1 else 10)
    && (forall i | 0 <= i < |m.log| :: 1 <= |m.log[i]| <= if i == 0 then 1 else 10)
    && (m.alive ==> |m.processed| < m.limit)
  }

  /** Sized, with nothing pending unless the call is over. */
  predicate Rested(m: Memory) {
    Sized(m) && (m.alive ==> m.processed == [])
  }

  lemma WalkedSized(m: Memory, scan: Scan, checkpoint: set<Commit>, tip: Commit, r: Range)
    requires Rested(m) && m.alive
    ensures Rested(FlushIfAlive(WalkAll(m, scan, checkpoint, tip, r), scan.key))
  {
    WalkBatches(m.(last := None), scan, checkpoint, tip, r);
    var w := Walk(m.(last := None), scan, checkpoint, tip, r);
    assert Sized(w) by {
      forall i | 0 <= i < |w.log| ensures 1 <= |w.log[i]| <= if i == 0 then 1 else 10 {
        assert i < |m.log| ==> w.log[i] == m.log[i];
      }
    }
  }

  lemma RestartSized(m: Memory, scan: Scan, checkpoint: set<Commit>, head: Commit)
    requires Rested(m) && m.alive
    ensures Rested(Restart(m, scan, checkpoint, head))
  {
    var unset := Cursor(head, None, scan.range.floor, scan.range.since, scan.range.until, scan.cutoff);
    WalkedSized(m.(cursor := if checkpoint == {} then Some(unset) else None), scan, checkpoint, head, scan.range);
  }

  lemma ResumeSized(m: Memory, scan: Scan, checkpoint: set<Commit>, cur: Cursor)
    requires Rested(m) && m.alive && cur.frontier.Some?
    ensures Rested(Resume(m, scan, checkpoint, cur))
  {
    var b := m.(encountered := m.encountered + checkpoint, seen := m.seen + checkpoint, cursor := Some(cur));
    if cur.frontier.value.Child? {
      WalkedSized(b, scan, checkpoint, cur.frontier.value.parent, scan.range);
    }
  }

  lemma ExtendSized(m: Memory, scan: Scan, checkpoint: set<Commit>, cur: Cursor, head: Commit)
    requires Rested(m) && m.alive && cur.frontier.Some?
    ensures Rested(Extend(m, scan, checkpoint, cur, head))
  {
    hide Restart, Resume;
    WalkedSized(m, scan, checkpoint, head, scan.range.(floor := Some(cur.head)));
    var p := Prefix(m, scan, checkpoint, cur, head);
    if p.alive {
      RestartSized(p, scan, checkpoint, head);
      var w := Write(p, ApplyBatch(p.store, SaveCursor(scan.key, cur.(head := head))));
      if w.alive {
        ResumeSized(w, scan, checkpoint, cur.(head := head));
      }
    }
  }

  lemma ScanSized(m: Memory, scan: Option<Scan>, head: Commit)
    requires Rested(m)
    ensures Rested(ScanIf(m, scan, head))
  {
    hide Restart, Resume, Extend;
    if m.alive && scan.Some? {
      var checkpoint := RowsOf(m.store, scan.value.key);
      var l := Loaded(m, scan.value.key);
      RestartSized(l, scan.value, checkpoint, head);
      if scan.value.key in l.store.cursors {
        var b := Write(l, ApplyBatch(l.store, ClearCursor(scan.value.key)));
        if b.alive {
          RestartSized(b, scan.value, checkpoint, head);
        }
        if UsableCursor(l.store, scan.value, head) {
          ResumeSized(l, scan.value, checkpoint, l.store.cursors[scan.value.key]);
          if b.alive {
            ExtendSized(b, scan.value, checkpoint, l.store.cursors[scan.value.key], head);
          }
        }
      }
    }
  }

  lemma CallBatches(s: Tables, run: Run)
    requires Rebasable(s.state, run.head)
    ensures var log := Index(s, run.head, run.req, run.fault).log;
      forall i | 0 <= i < |log| :: 1 <= |log[i]| <= if i == 0 then 1 else 10
  {
    hide ScanIf;
    var p, m := PlanFor(s.state, run.head, run.req), Start(s, run.req, run.fault);
    var m1 := ScanIf(m, p.first, run.head);
    ScanSized(m, p.first, run.head);
    ScanSized(m1, p.backward, run.head);
    ScanSized(Publish(ScanIf(m1, p.backward, run.head), p, run.head), Some(p.fallback), run.head);
  }

  // ---- no commit twice ---------------------------------------------------------------------------

  function Flat(log: seq<seq<Commit>>): seq<Commit> {
    if log == [] then [] else Flat(log[..|log| - 1]) + log[|log| - 1]
  }

  /** The commits whose definitions this call has read, in order. */
  function Read(m: Memory): seq<Commit> {
    Flat(m.log) + m.processed
  }

  /** None was read twice; those read since `m` were neither seen before nor in the checkpoint. */
  ghost predicate Afresh(m: Memory, n: Memory, checkpoint: set<Commit>) {
    && Read(m) <= Read(n) && m.seen <= n.seen
    && (forall i | |Read(m)| <= i < |Read(n)| :: Read(n)[i] !in m.seen && Read(n)[i] !in checkpoint && Read(n)[i] in n.seen)
    && (forall i, j | |Read(m)| <= i < j < |Read(n)| :: Read(n)[i] != Read(n)[j])
  }

  lemma AfreshTrans(m: Memory, n: Memory, o: Memory, checkpoint: set<Commit>)
    requires Afresh(m, n, checkpoint) && Afresh(n, o, checkpoint)
    ensures Afresh(m, o, checkpoint)
  {
    forall i | |Read(m)| <= i < |Read(o)|
      ensures Read(o)[i] !in m.seen && Read(o)[i] !in checkpoint && Read(o)[i] in o.seen
      ensures forall j | i < j < |Read(o)| :: Read(o)[i] != Read(o)[j]
    {
      assert i < |Read(n)| ==> Read(o)[i] == Read(n)[i];
      forall j | i < j < |Read(o)| ensures Read(o)[i] != Read(o)[j] {
        assert j < |Read(n)| ==> Read(o)[j] == Read(n)[j];
      }
    }
  }

  lemma FlushReads(m: Memory, key: ScanKey)
    ensures Read(Flush(m, key)) == Read(m)
  {
    assert (m.log + [m.processed])[..|m.log|] == m.log;
  }

  lemma ProcessAfresh(m: Memory, scan: Scan, checkpoint: set<Commit>, c: Commit)
    ensures Afresh(m, Process(m, scan, checkpoint, c), checkpoint)
  {
    var s := m.(last := Some(c), encountered := m.encountered + {c}, seen := m.seen + {c});
    if m.alive && m.fuel > 0 && ReadsUpTo(c, |c.changes|) <= s.fuel {
      var r := Recorded(s, scan, c);
      assert Read(r) == Read(m) + [c];
      FlushReads(r, scan.key);
    }
  }

  lemma {:induction false} WalkAfresh(m: Memory, scan: Scan, checkpoint: set<Commit>, at: Commit, r: Range)
    ensures Afresh(m, Walk(m, scan, checkpoint, at, r), checkpoint)
    decreases at
  {
    hide Afresh, Read, Process;
    AfreshRefl(m, checkpoint);
    if m.alive && !Below(at, r.floor) && r.since <= at.time {
      var next := if Within(r, at) then Process(m, scan, checkpoint, at) else m;
      ProcessAfresh(m, scan, checkpoint, at);
      if at.Child? {
        WalkAfresh(next, scan, checkpoint, at.parent, r);
        AfreshTrans(m, next, Walk(next, scan, checkpoint, at.parent, r), checkpoint);
      }
    }
  }

  lemma AfreshRefl(m: Memory, checkpoint: set<Commit>)
    ensures Afresh(m, m, checkpoint)
  {
  }

  /** Only what was read and seen matters. */
  lemma AfreshSame(m: Memory, n: Memory, a: Memory, b: Memory, checkpoint: set<Commit>)
    requires Afresh(a, b, checkpoint) && Read(a) == Read(m) && Read(b) == Read(n) && m.seen <= a.seen && b.seen == n.seen
    ensures Afresh(m, n, checkpoint)
  {
  }

  lemma WalkedAfresh(m: Memory, scan: Scan, checkpoint: set<Commit>, tip: Commit, r: Range)
    ensures Afresh(m, FlushIfAlive(WalkAll(m, scan, checkpoint, tip, r), scan.key), checkpoint)
  {
    hide Afresh;
    var b := m.(last := None);
    var w := Walk(b, scan, checkpoint, tip, r);
    WalkAfresh(b, scan, checkpoint, tip, r);
    FlushReads(w, scan.key);
    AfreshSame(m, FlushIfAlive(WalkAll(m, scan, checkpoint, tip, r), scan.key), b, w, checkpoint);
  }

  lemma RestartAfresh(m: Memory, scan: Scan, checkpoint: set<Commit>, head: Commit)
    ensures Afresh(m, Restart(m, scan, checkpoint, head), checkpoint)
  {
    hide Afresh;
    var unset := Cursor(head, None, scan.range.floor, scan.range.since, scan.range.until, scan.cutoff);
    var b := m.(cursor := if checkpoint == {} then Some(unset) else None);
    WalkedAfresh(b, scan, checkpoint, head, scan.range);
    AfreshSame(m, Restart(m, scan, checkpoint, head), b, Restart(m, scan, checkpoint, head), checkpoint);
  }

  lemma ResumeAfresh(m: Memory, scan: Scan, checkpoint: set<Commit>, cur: Cursor)
    requires cur.frontier.Some? && m.processed == []
    ensures Afresh(m, Resume(m, scan, checkpoint, cur), checkpoint)
  {
    hide Afresh;
    var b := m.(encountered := m.encountered + checkpoint, seen := m.seen + checkpoint, cursor := Some(cur));
    AfreshRefl(b, checkpoint);
    if cur.frontier.value.Child? {
      WalkedAfresh(b, scan, checkpoint, cur.frontier.value.parent, scan.range);
    }
    AfreshSame(m, Resume(m, scan, checkpoint, cur), b, Resume(m, scan, checkpoint, cur), checkpoint);
  }

  lemma ExtendAfresh(m: Memory, scan: Scan, checkpoint: set<Commit>, cur: Cursor, head: Commit)
    requires cur.frontier.Some? && m.processed == []
    ensures Afresh(m, Extend(m, scan, checkpoint, cur, head), checkpoint)
  {
    hide Afresh, WalkAll, Restart, Resume;
    var p := Prefix(m, scan, checkpoint, cur, head);
    var n := Extend(m, scan, checkpoint, cur, head);
    WalkedAfresh(m, scan, checkpoint, head, scan.range.(floor := Some(cur.head)));
    if p.alive {
      if !ReachedOldHead(p, scan, cur) {
        RestartAfresh(p, scan, checkpoint, head);
        AfreshTrans(m, p, n, checkpoint);
      } else {
        var w := Write(p, ApplyBatch(p.store, SaveCursor(scan.key, cur.(head := head))));
        AfreshSame(m, w, m, p, checkpoint);
        if w.alive {
          ResumeAfresh(w, scan, checkpoint, cur.(head := head));
          AfreshTrans(m, w, n, checkpoint);
        }
      }
    }
  }

  /** A scan never reads again what it has a row for. */
  lemma ScanAfresh(m: Memory, scan: Scan, head: Commit)
    requires m.processed == []
    ensures Afresh(m, ScanRange(m, scan, head), RowsOf(m.store, scan.key))
  {
    hide Afresh, Restart, Resume, Extend;
    var checkpoint := RowsOf(m.store, scan.key);
    var l, n := Loaded(m, scan.key), ScanRange(m, scan, head);
    AfreshRefl(m, checkpoint);
    if l.fuel == 0 || (scan.key.Fallback? && m.missing == {} && checkpoint == {}) {
      AfreshSame(m, n, m, m, checkpoint);
      return;
    }
    RestartAfresh(l, scan, checkpoint, head);
    if scan.key in l.store.cursors {
      var cur, usable := l.store.cursors[scan.key], UsableCursor(l.store, scan, head);
      var b := Write(l, ApplyBatch(l.store, ClearCursor(scan.key)));
      RestartAfresh(b, scan, checkpoint, head);
      AfreshSame(m, b, m, m, checkpoint);
      if usable {
        ResumeAfresh(l, scan, checkpoint, cur);
        ExtendAfresh(b, scan, checkpoint, cur, head);
      }
      if usable && cur.head == head {
        AfreshSame(m, n, l, n, checkpoint);
      } else if b.alive {
        AfreshSame(m, n, b, n, checkpoint);
      }
    } else {
      AfreshSame(m, n, l, n, checkpoint);
    }
  }

  lemma CallReadsOnce(s: Tables, run: Run)
    requires Rebasable(s.state, run.head)
    ensures var read := Read(Index(s, run.head, run.req, run.fault)); forall i, j | 0 <= i < j < |read| :: read[i] != read[j]
  {
    hide ScanIf, Afresh, Read;
    var p, m := PlanFor(s.state, run.head, run.req), Start(s, run.req, run.fault);
    var m1 := ScanIf(m, p.first, run.head);
    var m2 := ScanIf(m1, p.backward, run.head);
    var m3 := Publish(m2, p, run.head);
    var m4 := ScanIf(m3, Some(p.fallback), run.head);
    ScanSized(m, p.first, run.head);
    ScanIfAfresh(m, p.first, run.head);
    ScanSized(m1, p.backward, run.head);
    ScanIfAfresh(m1, p.backward, run.head);
    AfreshTrans(m, m1, m2, {});
    ScanIfAfresh(m3, Some(p.fallback), run.head);
    AfreshSame(m2, m4, m3, m4, {}) by {
      ReadSame(m2, m3);
    }
    AfreshTrans(m, m2, m4, {});
    ReadSame(BeforeClose(s, run.head, run.req, run.fault), Index(s, run.head, run.req, run.fault));
    FromNothing(m, BeforeClose(s, run.head, run.req, run.fault));
  }

  lemma ReadSame(m: Memory, n: Memory)
    requires n.log == m.log && n.processed == m.processed
    ensures Read(n) == Read(m)
  {
  }

  lemma FromNothing(m: Memory, n: Memory)
    requires m.log == [] && m.processed == [] && Afresh(m, n, {})
    ensures forall i, j | 0 <= i < j < |Read(n)| :: Read(n)[i] != Read(n)[j]
  {
  }

  lemma ScanIfAfresh(m: Memory, scan: Option<Scan>, head: Commit)
    requires Rested(m)
    ensures Afresh(m, ScanIf(m, scan, head), {})
  {
    hide Afresh;
    AfreshRefl(m, {});
    if m.alive && scan.Some? {
      ScanAfresh(m, scan.value, head);
      Afresher(m, ScanRange(m, scan.value, head), RowsOf(m.store, scan.value.key));
    }
  }

  lemma Afresher(m: Memory, n: Memory, checkpoint: set<Commit>)
    requires Afresh(m, n, checkpoint)
    ensures Afresh(m, n, {})
  {
  }

  // ---- what a call costs ---------------------------------------------------------------------------

  /** Reading every definition from here down, and a write for each commit. */
  function WalkCost(at: Commit): nat {
    ReadsUpTo(at, |at.changes|) + 1 + if at.Child? then WalkCost(at.parent) else 0
  }

  /** Clearing a cursor, walking what is new, saving the cursor, and walking the rest or everything. */
  function ScanCost(head: Commit): nat {
    2 * WalkCost(head) + 4
  }

  /** The call has at least this much left. */
  predicate Lives(m: Memory, left: nat) {
    m.alive && m.fuel >= left
  }

  lemma {:induction false} WalkCostDown(c: Commit, head: Commit)
    requires Anc(c, head)
    ensures WalkCost(c) <= WalkCost(head)
  {
    if c != head {
      WalkCostDown(c, head.parent);
    }
  }

  lemma {:induction false} WalkLives(m: Memory, scan: Scan, checkpoint: set<Commit>, at: Commit, r: Range, left: nat)
    requires Lives(m, WalkCost(at) + left)
    ensures Lives(Walk(m, scan, checkpoint, at, r), left)
    decreases at
  {
    if !Below(at, r.floor) && r.since <= at.time {
      var next := if Within(r, at) then Process(m, scan, checkpoint, at) else m;
      assert Lives(next, left + if at.Child? then WalkCost(at.parent) else 0);
      if at.Child? {
        WalkLives(next, scan, checkpoint, at.parent, r, left);
      }
    }
  }

  lemma WalkedLives(m: Memory, scan: Scan, checkpoint: set<Commit>, tip: Commit, r: Range, left: nat)
    requires Lives(m, WalkCost(tip) + 1 + left)
    ensures Lives(FlushIfAlive(WalkAll(m, scan, checkpoint, tip, r), scan.key), left)
  {
    WalkLives(m.(last := None), scan, checkpoint, tip, r, left + 1);
  }

  lemma RestartLives(m: Memory, scan: Scan, checkpoint: set<Commit>, head: Commit, left: nat)
    requires Lives(m, WalkCost(head) + 1 + left)
    ensures Lives(Restart(m, scan, checkpoint, head), left)
  {
    var unset := Cursor(head, None, scan.range.floor, scan.range.since, scan.range.until, scan.cutoff);
    WalkedLives(m.(cursor := if checkpoint == {} then Some(unset) else None), scan, checkpoint, head, scan.range, left);
  }

  lemma ResumeLives(m: Memory, scan: Scan, checkpoint: set<Commit>, cur: Cursor, head: Commit, left: nat)
    requires cur.frontier.Some? && Anc(cur.frontier.value, head) && Lives(m, WalkCost(head) + 1 + left)
    ensures Lives(Resume(m, scan, checkpoint, cur), left)
  {
    var b := m.(encountered := m.encountered + checkpoint, seen := m.seen + checkpoint, cursor := Some(cur));
    WalkCostDown(cur.frontier.value, head);
    if cur.frontier.value.Child? {
      WalkedLives(b, scan, checkpoint, cur.frontier.value.parent, scan.range, left);
    }
  }

  lemma ExtendLives(m: Memory, scan: Scan, checkpoint: set<Commit>, cur: Cursor, head: Commit, left: nat)
    requires cur.frontier.Some? && Anc(cur.frontier.value, head) && Lives(m, ScanCost(head) - 1 + left)
    ensures Lives(Extend(m, scan, checkpoint, cur, head), left)
  {
    hide WalkAll, Restart, Resume;
    WalkedLives(m, scan, checkpoint, head, scan.range.(floor := Some(cur.head)), WalkCost(head) + 2 + left);
    var p := Prefix(m, scan, checkpoint, cur, head);
    RestartLives(p, scan, checkpoint, head, left);
    ResumeLives(Write(p, ApplyBatch(p.store, SaveCursor(scan.key, cur.(head := head)))), scan, checkpoint, cur.(head := head), head, left);
  }

  lemma FrontierOnHead(t: Tables, scan: Scan, head: Commit)
    requires Certified(t, scan.key) && UsableCursor(t, scan, head)
    ensures Anc(t.cursors[scan.key].frontier.value, head)
  {
    var cur := t.cursors[scan.key];
    ReachAnc(cur.head, cur.frontier.value, cur.since);
    AncTrans(cur.frontier.value, cur.head, head);
  }

  lemma ScanLives(m: Memory, scan: Option<Scan>, head: Commit, left: nat)
    requires scan.Some? ==> Certified(m.store, scan.value.key)
    requires Lives(m, ScanCost(head) + left)
    ensures Lives(ScanIf(m, scan, head), left)
  {
    hide Restart, Resume, Extend, Certified;
    if scan.Some? {
      var scan, checkpoint := scan.value, RowsOf(m.store, scan.value.key);
      var l := Loaded(m, scan.key);
      RestartLives(l, scan, checkpoint, head, left);
      if scan.key in l.store.cursors {
        var cur, b := l.store.cursors[scan.key], Write(l, ApplyBatch(l.store, ClearCursor(scan.key)));
        RestartLives(b, scan, checkpoint, head, left);
        if UsableCursor(l.store, scan, head) {
          FrontierOnHead(l.store, scan, head);
          ResumeLives(l, scan, checkpoint, cur, head, left);
          ExtendLives(b, scan, checkpoint, cur, head, left);
        }
      }
    }
  }

  lemma PrimaryLives(s: Tables, run: Run, left: nat)
    requires Sound(s) && Rebasable(s.state, run.head) && run.fault.fuel >= 2 * ScanCost(run.head) + left
    ensures Lives(AfterPrimary(s, run.head, run.req, run.fault), left)
  {
    hide ScanIf, Primary, Frame;
    var p, m := PlanFor(s.state, run.head, run.req), Start(s, run.req, run.fault);
    var m1 := ScanIf(m, p.first, run.head);
    ScanLives(m, p.first, run.head, ScanCost(run.head) + left);
    if s.state.Some? {
      ForwardAchieved(s, run.head, run.req, run.fault);
    }
    ScanLives(m1, p.backward, run.head, left);
  }

  /** A call that can afford so many reads and writes completes. */
  lemma EnoughCompletes(s: Tables, run: Run)
    requires Sound(s) && Mono(run.head) && Rebasable(s.state, run.head)
    requires run.fault.fuel >= 3 * ScanCost(run.head) + 2
    ensures Completes(s, run)
  {
    hide ScanIf, Achieved, Settling, SeenSettled;
    var p := PlanFor(s.state, run.head, run.req);
    var m2 := AfterPrimary(s, run.head, run.req, run.fault);
    PrimaryLives(s, run, ScanCost(run.head) + 2);
    PrimaryAchieved(s, run.head, run.req, run.fault);
    PublishSettles(s, m2, run.head, run.req);
    ScanLives(Publish(m2, p, run.head), Some(p.fallback), run.head, 1);
  }

  /** A call that can afford the recent ranges and one write has them recorded, even if it is cut off in its search through all
      of history: if it had a recent range to scan, and every row its scans had left is of a commit that they meet again. */
  lemma RecentIsRecorded(s: Tables, run: Run)
    requires Sound(s) && Mono(run.head) && Rebasable(s.state, run.head)
    requires run.fault.fuel >= 2 * ScanCost(run.head) + 1
    requires s.state.Some? ==> run.head != s.state.value.head || 0 < run.req.since < s.state.value.since
    requires forall row | row in s.rows && row.key in OwnKeys(s, run) && !row.key.Fallback? ::
               Anc(row.commit, run.head) && (s.state.None? ==> run.req.since <= row.commit.time)
    ensures var t := After(s, run);
      t.state == Some(HistoryState(run.head, EffectiveSince(s.state, run.req.since))) &&
      forall c | Anc(c, run.head) && t.state.value.since <= c.time :: Held(t, c)
  {
    hide ScanIf, Settling, SeenSettled, Sound;
    var p := PlanFor(s.state, run.head, run.req);
    var m2 := AfterPrimary(s, run.head, run.req, run.fault);
    PrimaryLives(s, run, 1);
    PrimaryAchieved(s, run.head, run.req, run.fault);
    IndexKeepsSound(s, run);
    AllMet(s, m2, run);
    if FallsBack(s, run.req, run.fault) {
      var m3 := Publish(m2, p, run.head);
      assert m3.store.state == Some(HistoryState(run.head, p.since));
      PublishSettles(s, m2, run.head, run.req);
      FallbackReady(s, m3, run.head, p, PrimaryKeys(p));
      KeepsState(m3, p, run.head);
    }
    assert After(s, run).state == Some(HistoryState(run.head, p.since));
    StateHolds(After(s, run));
  }

  lemma StateHolds(t: Tables)
    requires Sound(t) && t.state.Some?
    ensures forall c | Anc(c, t.state.value.head) && t.state.value.since <= c.time :: Held(t, c)
  {
  }

  lemma KeepsState(m: Memory, p: Plan, head: Commit)
    requires m.alive && Ready(m, p.fallback)
    ensures ScanIf(m, Some(p.fallback), head).store.state == m.store.state
  {
    FallbackCovers(m, p, head);
  }

  lemma AllMet(s: Tables, m: Memory, run: Run)
    requires Rebasable(s.state, run.head) && Achieved(s, m, run.head, PlanFor(s.state, run.head, run.req))
    requires forall row | row in s.rows && row.key in OwnKeys(s, run) && !row.key.Fallback? ::
               Anc(row.commit, run.head) && (s.state.None? ==> run.req.since <= row.commit.time)
    ensures m.loaded <= m.encountered
  {
    var p := PlanFor(s.state, run.head, run.req);
    forall c | c in m.loaded ensures c in m.encountered {
      var k :| k in PrimaryKeys(p) && Row(k, c) in s.rows;
      assert Row(k, c).key in OwnKeys(s, run) && Row(k, c).commit == c;
    }
  }
}
