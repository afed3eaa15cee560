/** One range from beginning to end: restarting, resuming below a cursor, and extending a cursor
    to a head that has advanced, each possibly cut off on the way. */
module IndexerScan {
  import opened Wrappers
  import opened CommitGraph
  import opened HistoryTables
  import opened IndexerSpec
  import opened IndexerWalk
  import opened IndexerCursor

  /** The memory between two walks. */
  ghost predicate Idle(m: Memory, scan: Scan, checkpoint: set<Commit>) {
    m.alive && m.processed == [] && BufferOk(m) && NoneMissing(m.store, m.missing) && Quiet(m, scan, checkpoint)
  }

  ghost predicate Leg(m: Memory, n: Memory, scan: Scan, checkpoint: set<Commit>, tip: Commit, r: Range) {
    && n.loaded == m.loaded && n.fault == m.fault && n.missing <= m.missing
    && Step(m.store, n.store, scan.key, tip, r) && Certified(n.store, scan.key)
    && (forall c :: c in n.encountered ==> c in m.encountered || Lists(tip, r, c))
    && (n.last.Some? ==> Lists(tip, r, n.last.value))
    && (n.alive ==>
        && Idle(n, scan, checkpoint) && m.encountered <= n.encountered && m.seen <= n.seen
        && (forall c :: c in n.seen ==> c in m.seen || c in checkpoint || Row(scan.key, c) in n.store.rows)
        && (forall c :: c in n.seen ==> c in m.seen || Lists(tip, r, c)))
  }

  ghost predicate Covered(n: Memory, scan: Scan, x: Commit) {
    x in n.encountered && (x in n.seen || TooRecent(scan, x))
  }

  /** A walk, its late flush and the flush at its end. */
  function Walked(m: Memory, scan: Scan, checkpoint: set<Commit>, tip: Commit, r: Range): Memory {
    FlushIfAlive(WalkAll(m, scan, checkpoint, tip, r), scan.key)
  }

  lemma WalkedLeg(m: Memory, scan: Scan, checkpoint: set<Commit>, tip: Commit, r: Range)
    requires Idle(m, scan, checkpoint) && Base(m, scan, checkpoint) && Following(m, scan, tip)
    requires m.cursor.Some? ==> r == scan.range
    ensures var n := Walked(m, scan, checkpoint, tip, r);
      && Leg(m, n, scan, checkpoint, tip, r)
      && (n.alive ==> forall x :: Lists(tip, r, x) ==> Covered(n, scan, x))
      && (m.cursor.None? ==> scan.key !in n.store.cursors)
  {
    var b := m.(last := None);
    assert Virtual(b, scan.key) == b.store;
    WalkKeeps(b, b, scan, checkpoint, tip, tip, r);
    WalkFollows(b, b, scan, checkpoint, tip, tip, r);
    if m.cursor.None? {
      WalkWritesNoCursor(b, scan, checkpoint, tip, r);
    }
    var w := Walk(b, scan, checkpoint, tip, r);
    var n := Walked(m, scan, checkpoint, tip, r);
    if w.alive {
      FlushKeepsVirtual(w, scan.key);
    }
  }

  /** Under a certificate whose frontier is `f`, what lies below `f` is listed from the head as well. */
  lemma ListsBelowFrontier(head: Commit, f: Commit, r: Range, x: Commit)
    requires f.Child? && Lists(head, r, f) && Lists(f.parent, r, x)
    ensures Lists(head, r, x)
  {
    ReachAnc(head, f, r.since);
    ReachAnc(f.parent, x, r.since);
    ReachSplit(head, f, x, r.since);
  }

  lemma ResumeTracks(t: Tables, cur: Cursor, scan: Scan)
    requires Certifies(t, scan.key, cur) && Matches(cur, scan) && cur.frontier.value.Child?
    requires scan.key in t.cursors && t.cursors[scan.key] == cur
    ensures Tracks(t, cur, scan, cur.frontier.value.parent)
    ensures forall x :: Lists(cur.frontier.value.parent, scan.range, x) ==> Lists(cur.head, scan.range, x)
  {
    var f := cur.frontier.value;
    assert RangeOf(cur) == scan.range && Lists(cur.head, scan.range, f);
    ReachAnc(cur.head, f, scan.range.since);
    AncTrans(f.parent, f, cur.head);
    forall c | Row(scan.key, c) in t.rows ensures !Anc(c, f.parent) {
      if Anc(c, f.parent) {
        AncTrans(f, c, f.parent);
        NotBelowParent(f);
      }
    }
    forall c | Lists(cur.head, scan.range, c) && !Anc(c, f.parent)
      ensures Row(scan.key, c) in t.rows || Excused(t, scan.key, scan.cutoff, c)
    {
      ReachAnc(cur.head, c, scan.range.since);
      AboveParent(f, c, cur.head);
    }
    forall x | Lists(f.parent, scan.range, x) ensures Lists(cur.head, scan.range, x) {
      ListsBelowFrontier(cur.head, f, scan.range, x);
    }
  }

  /** How a completed scan deals with a listed commit: it meets it (as it does every checkpoint), or
      the commit is excused. */
  ghost predicate Dealt(n: Memory, scan: Scan, checkpoint: set<Commit>, x: Commit) {
    Covered(n, scan, x) || (x !in checkpoint && Excused(n.store, scan.key, scan.cutoff, x))
  }

  lemma ResumeLeg(m: Memory, scan: Scan, checkpoint: set<Commit>, cur: Cursor)
    requires Idle(m, scan, checkpoint) && Certifies(m.store, scan.key, cur) && Matches(cur, scan)
    requires scan.key in m.store.cursors && m.store.cursors[scan.key] == cur
    requires forall c :: c in checkpoint ==> Row(scan.key, c) in m.store.rows
    requires forall c :: c in m.seen ==> Row(scan.key, c) in m.store.rows || Excused(m.store, scan.key, scan.cutoff, c)
    requires forall x :: x in checkpoint && !scan.key.Fallback? ==> Keys(x) !! m.missing
    requires forall c :: Row(scan.key, c) in m.store.rows ==> c in checkpoint || Covered(m, scan, c)
    ensures var n := Resume(m, scan, checkpoint, cur);
      Leg(m.(last := None), n.(last := None), scan, checkpoint, cur.head, scan.range) &&
      (n.alive ==> forall x :: Lists(cur.head, scan.range, x) ==> Dealt(n, scan, checkpoint, x))
  {
    var b := m.(encountered := m.encountered + checkpoint, seen := m.seen + checkpoint, cursor := Some(cur));
    var f := cur.frontier.value;
    var n := Resume(m, scan, checkpoint, cur);
    assert RangeOf(cur) == scan.range && Lists(cur.head, scan.range, f);
    if f.Child? {
      ResumeTracks(m.store, cur, scan);
      assert Virtual(b, scan.key) == b.store;
      WalkedLeg(b, scan, checkpoint, f.parent, scan.range);
      assert Leg(b, n, scan, checkpoint, f.parent, scan.range);
    } else {
      assert n == b;
    }
    if n.alive {
      forall x | Lists(cur.head, scan.range, x) ensures Dealt(n, scan, checkpoint, x) {
        ReachAnc(cur.head, x, scan.range.since);
        ReachAnc(cur.head, f, scan.range.since);
        AncLinear(x, f, cur.head);
        if Anc(f, x) {
          if Row(scan.key, x) !in m.store.rows {
            ExcusedGrows(m.store, n.store, scan.key, scan.cutoff, x);
          }
        } else {
          ReachSplit(cur.head, f, x, scan.range.since);
          assert Lists(f.parent, scan.range, x);
        }
      }
    }
  }

  lemma RestartLeg(m: Memory, scan: Scan, checkpoint: set<Commit>, head: Commit)
    requires Idle(m, scan, checkpoint) && scan.key !in m.store.cursors
    requires forall c :: c in checkpoint ==> Row(scan.key, c) in m.store.rows
    requires checkpoint == {} ==> forall c :: c in m.seen ==> Excused(m.store, scan.key, scan.cutoff, c)
    requires checkpoint == {} ==> forall c :: Row(scan.key, c) !in m.store.rows
    requires forall x :: x in checkpoint && !scan.key.Fallback? ==> Keys(x) !! m.missing
    ensures var n := Restart(m, scan, checkpoint, head);
      Leg(m, n, scan, checkpoint, head, scan.range) && (n.alive ==> forall x :: Lists(head, scan.range, x) ==> Covered(n, scan, x))
  {
    var unset := Cursor(head, None, scan.range.floor, scan.range.since, scan.range.until, scan.cutoff);
    var b := m.(cursor := if checkpoint == {} then Some(unset) else None);
    assert Virtual(b, scan.key) == b.store;
    if checkpoint == {} {
      forall c | Lists(head, scan.range, c) ensures Anc(c, head) {
        ReachAnc(head, c, scan.range.since);
      }
      assert Tracks(b.store, unset, scan, head);
    }
    WalkedLeg(b, scan, checkpoint, head, scan.range);
  }

  /** Commits above the old head that a range lists are above its floor too. */
  lemma PrefixLists(t: Tables, key: ScanKey, cur: Cursor, scan: Scan, head: Commit, x: Commit)
    requires Certifies(t, key, cur) && Matches(cur, scan) && Anc(cur.head, head)
    requires Lists(head, scan.range.(floor := Some(cur.head)), x)
    ensures Lists(head, scan.range, x) && Anc(cur.head, x) && Anc(cur.frontier.value, x)
  {
    var f := cur.frontier.value;
    assert Lists(cur.head, RangeOf(cur), f);
    ReachAnc(cur.head, f, cur.since);
    ReachAnc(head, x, scan.range.since);
    AncLinear(x, cur.head, head);
    AncTrans(f, cur.head, x);
    if Below(x, scan.range.floor) {
      AncTrans(f, x, scan.range.floor.value);
    }
  }

  /** Once the prefix has reached the old head, the extended cursor certifies the whole stretch. */
  lemma ExtendedCertifies(s: Tables, t: Tables, scan: Scan, cur: Cursor, head: Commit)
    requires Certifies(s, scan.key, cur) && Matches(cur, scan) && Anc(cur.head, head) && Reach(head, cur.head, cur.since)
    requires s.rows <= t.rows && s.state == t.state && s.events <= t.events && s.diagnostics <= t.diagnostics
    requires forall c :: Row(scan.key, c) in t.rows ==>
               Row(scan.key, c) in s.rows || Lists(head, scan.range.(floor := Some(cur.head)), c)
    requires forall c :: Lists(head, scan.range.(floor := Some(cur.head)), c) ==>
               Row(scan.key, c) in t.rows || Excused(t, scan.key, scan.cutoff, c)
    ensures Certifies(t, scan.key, cur.(head := head))
  {
    var f := cur.frontier.value;
    var moved := cur.(head := head);
    assert RangeOf(moved) == scan.range == RangeOf(cur);
    forall c | Row(scan.key, c) in t.rows ensures Lists(head, scan.range, c) && Anc(f, c) {
      if Row(scan.key, c) in s.rows {
        ReachAnc(cur.head, c, cur.since);
        ReachSplit(head, cur.head, c, cur.since);
      } else {
        PrefixLists(s, scan.key, cur, scan, head, c);
      }
    }
    forall c | Lists(head, scan.range, c) && Anc(f, c)
      ensures Row(scan.key, c) in t.rows || Excused(t, scan.key, scan.cutoff, c)
    {
      if Anc(c, cur.head) {
        ReachSplit(head, cur.head, c, cur.since);
        if Row(scan.key, c) !in s.rows {
          ExcusedGrows(s, t, scan.key, scan.cutoff, c);
        }
      } else {
        assert Lists(head, scan.range.(floor := Some(cur.head)), c);
      }
    }
  }

  lemma ReachedIsReach(p: Memory, t: Tables, scan: Scan, cur: Cursor, head: Commit)
    requires ReachedOldHead(p, scan, cur) && Certifies(t, scan.key, cur) && Matches(cur, scan) && Anc(cur.head, head)
    requires p.last.Some? ==> Lists(head, scan.range.(floor := Some(cur.head)), p.last.value)
    ensures Reach(head, cur.head, cur.since)
  {
    if scan.range.since == 0 {
      ReachZero(head, cur.head);
    } else {
      var c := p.last.value;
      assert Lists(cur.head, RangeOf(cur), cur.frontier.value);
      ReachAnc(head, c, scan.range.since);
      assert Anc(cur.head, c);
      ReachSplit(head, c, cur.head, cur.since);
    }
  }

  /** What a scan leaves, completed or not. */
  ghost predicate ScanOk(m: Memory, n: Memory, scan: Scan, head: Commit) {
    && Leg(m.(last := None, loaded := n.loaded), n.(last := None), scan, RowsOf(m.store, scan.key), head, scan.range)
    && (n.alive ==> forall x :: Lists(head, scan.range, x) ==> Dealt(n, scan, RowsOf(m.store, scan.key), x))
  }

  /** What a scan may assume: the tables and what the earlier ranges of this call have seen. */
  ghost predicate Ready(m: Memory, scan: Scan) {
    && Idle(m, scan, {}) && Certified(m.store, scan.key)
    && (forall c :: c in m.seen ==> Excused(m.store, scan.key, scan.cutoff, c))
    && (!scan.key.Fallback? ==> forall c :: Row(scan.key, c) in m.store.rows ==> Held(m.store, c))
  }

  lemma StepTrans(s: Tables, t: Tables, u: Tables, key: ScanKey, tip: Commit, r: Range)
    requires Step(s, t, key, tip, r) && Step(t, u, key, tip, r)
    ensures Step(s, u, key, tip, r)
  {
  }

  lemma PrefixLeg(m: Memory, scan: Scan, checkpoint: set<Commit>, s: Tables, cur: Cursor, head: Commit)
    requires Idle(m, scan, checkpoint) && scan.key !in m.store.cursors && m.cursor.None?
    requires Certifies(s, scan.key, cur) && Matches(cur, scan) && Anc(cur.head, head)
    requires forall c :: c in checkpoint ==> Row(scan.key, c) in m.store.rows
    requires forall x :: x in checkpoint && !scan.key.Fallback? ==> Keys(x) !! m.missing
    ensures var p := Prefix(m, scan, checkpoint, cur, head); var pr := scan.range.(floor := Some(cur.head));
      && Leg(m.(last := None), p.(last := None), scan, checkpoint, head, scan.range)
      && Leg(m, p, scan, checkpoint, head, pr)
      && (p.alive ==> forall x :: Lists(head, pr, x) ==> Covered(p, scan, x))
      && scan.key !in p.store.cursors
  {
    var pr := scan.range.(floor := Some(cur.head));
    var p := Prefix(m, scan, checkpoint, cur, head);
    assert Virtual(m, scan.key) == m.store;
    WalkedLeg(m, scan, checkpoint, head, pr);
    assert p == Walked(m, scan, checkpoint, head, pr);
    forall x | Lists(head, pr, x) ensures Lists(head, scan.range, x) {
      PrefixLists(s, scan.key, cur, scan, head, x);
    }
  }

  lemma ExtendLeg(m: Memory, scan: Scan, checkpoint: set<Commit>, s: Tables, cur: Cursor, head: Commit)
    requires Idle(m, scan, checkpoint) && scan.key !in m.store.cursors && m.cursor.None?
    requires Certifies(s, scan.key, cur) && Matches(cur, scan) && Anc(cur.head, head)
    requires m.store == s.(cursors := m.store.cursors)
    requires forall c :: c in checkpoint <==> Row(scan.key, c) in s.rows
    requires forall c :: c in m.seen ==> Excused(m.store, scan.key, scan.cutoff, c)
    requires forall x :: x in checkpoint && !scan.key.Fallback? ==> Keys(x) !! m.missing
    ensures var n := Extend(m, scan, checkpoint, cur, head);
      Leg(m.(last := None), n.(last := None), scan, checkpoint, head, scan.range) &&
      (n.alive ==> forall x :: Lists(head, scan.range, x) ==> Dealt(n, scan, checkpoint, x))
  {
    var p := Prefix(m, scan, checkpoint, cur, head);
    PrefixLeg(m, scan, checkpoint, s, cur, head);
    if p.alive {
      if ReachedOldHead(p, scan, cur) {
        ExtendReached(m, p, scan, checkpoint, s, cur, head);
        ExtendResumes(m, p, scan, checkpoint, s, cur, head);
      } else {
        assert cur.frontier.value in checkpoint;
        RestartLeg(p, scan, checkpoint, head);
        LegTrans(m, p, Restart(p, scan, checkpoint, head), scan, checkpoint, head, scan.range);
      }
    }
  }

  lemma LegTrans(m: Memory, p: Memory, n: Memory, scan: Scan, checkpoint: set<Commit>, tip: Commit, r: Range)
    requires p.alive && Leg(m.(last := None), p.(last := None), scan, checkpoint, tip, r)
    requires Leg(p.(last := None), n.(last := None), scan, checkpoint, tip, r) || Leg(p, n, scan, checkpoint, tip, r)
    ensures Leg(m.(last := None), n.(last := None), scan, checkpoint, tip, r)
  {
    StepTrans(m.store, p.store, n.store, scan.key, tip, r);
  }

  lemma ExtendReached(m: Memory, p: Memory, scan: Scan, checkpoint: set<Commit>, s: Tables, cur: Cursor, head: Commit)
    requires Certifies(s, scan.key, cur) && Matches(cur, scan) && Anc(cur.head, head) && p.alive
    requires m.store == s.(cursors := m.store.cursors)
    requires forall c :: c in checkpoint <==> Row(scan.key, c) in s.rows
    requires forall c :: c in m.seen ==> Excused(m.store, scan.key, scan.cutoff, c)
    requires Leg(m, p, scan, checkpoint, head, scan.range.(floor := Some(cur.head)))
    requires forall x :: Lists(head, scan.range.(floor := Some(cur.head)), x) ==> Covered(p, scan, x)
    requires ReachedOldHead(p, scan, cur)
    ensures Certifies(p.store, scan.key, cur.(head := head))
    ensures forall c :: Row(scan.key, c) in p.store.rows ==> c in checkpoint || Covered(p, scan, c)
  {
    var pr := scan.range.(floor := Some(cur.head));
    ReachedIsReach(p, s, scan, cur, head);
    forall c | Lists(head, pr, c) ensures Row(scan.key, c) in p.store.rows || Excused(p.store, scan.key, scan.cutoff, c) {
      assert Covered(p, scan, c);
      if c in p.seen && c in m.seen {
        ExcusedGrows(m.store, p.store, scan.key, scan.cutoff, c);
      }
    }
    ExtendedCertifies(s, p.store, scan, cur, head);
  }

  lemma ExtendResumes(m: Memory, p: Memory, scan: Scan, checkpoint: set<Commit>, s: Tables, cur: Cursor, head: Commit)
    requires cur.frontier.Some? && Matches(cur, scan) && Certifies(p.store, scan.key, cur.(head := head))
    requires Leg(m.(last := None), p.(last := None), scan, checkpoint, head, scan.range) && p.alive
    requires scan.key !in p.store.cursors
    requires forall c :: c in checkpoint <==> Row(scan.key, c) in m.store.rows
    requires forall c :: c in m.seen ==> Excused(m.store, scan.key, scan.cutoff, c)
    requires forall x :: x in checkpoint && !scan.key.Fallback? ==> Keys(x) !! m.missing
    requires forall c :: Row(scan.key, c) in p.store.rows ==> c in checkpoint || Covered(p, scan, c)
    ensures var moved := cur.(head := head);
      var w := Write(p, ApplyBatch(p.store, SaveCursor(scan.key, moved)));
      var n := if w.alive then Resume(w, scan, checkpoint, moved) else w;
      && Leg(m.(last := None), n.(last := None), scan, checkpoint, head, scan.range)
      && (n.alive ==> forall x :: Lists(head, scan.range, x) ==> Dealt(n, scan, checkpoint, x))
  {
    var moved := cur.(head := head);
    var saved := ApplyBatch(p.store, SaveCursor(scan.key, moved));
    assert saved == p.store.(cursors := p.store.cursors[scan.key := moved]);
    assert Certifies(saved, scan.key, moved);
    var w := Write(p, saved);
    StepTrans(m.store, p.store, saved, scan.key, head, scan.range);
    if w.alive {
      forall c | c in w.seen ensures Row(scan.key, c) in w.store.rows || Excused(w.store, scan.key, scan.cutoff, c) {
        if c in m.seen {
          ExcusedGrows(m.store, w.store, scan.key, scan.cutoff, c);
        }
      }
      ResumeLeg(w, scan, checkpoint, moved);
      StepTrans(m.store, saved, Resume(w, scan, checkpoint, moved).store, scan.key, head, scan.range);
    }
  }

  predicate SkipsRange(m: Memory, scan: Scan) {
    scan.key.Fallback? && m.missing == {} && RowsOf(m.store, scan.key) == {}
  }

  lemma ScanRangeOk(m: Memory, scan: Scan, head: Commit)
    requires Ready(m, scan)
    ensures var n := ScanRange(m, scan, head);
      && n.loaded == m.loaded + RowsOf(m.store, scan.key)
      && (if SkipsRange(m, scan) then n == m else ScanOk(m, n, scan, head))
  {
    var checkpoint := RowsOf(m.store, scan.key);
    forall c ensures c in checkpoint <==> Row(scan.key, c) in m.store.rows {
      RowsOfExact(m.store, scan.key, c);
    }
    if SkipsRange(m, scan) { return; }
    var l := Loaded(m, scan.key);
    if l.fuel == 0 { return; }
    var usable := UsableCursor(l.store, scan, head);
    var stale := scan.key in l.store.cursors && (!usable || l.store.cursors[scan.key].head != head);
    if stale {
      ClearThenScan(m, l, scan, checkpoint, head, usable);
    } else if usable {
      ResumeLeg(l, scan, checkpoint, l.store.cursors[scan.key]);
    } else {
      RestartLeg(l, scan, checkpoint, head);
    }
  }

  lemma ClearThenScan(m: Memory, l: Memory, scan: Scan, checkpoint: set<Commit>, head: Commit, usable: bool)
    requires Ready(m, scan) && l == Loaded(m, scan.key)
    requires forall c :: c in checkpoint <==> Row(scan.key, c) in m.store.rows
    requires usable == UsableCursor(l.store, scan, head)
    requires scan.key in l.store.cursors && (!usable || l.store.cursors[scan.key].head != head)
    ensures var b := Write(l, ApplyBatch(l.store, ClearCursor(scan.key)));
      var n := if !b.alive then b else if usable then Extend(b, scan, checkpoint, l.store.cursors[scan.key], head)
               else Restart(b, scan, checkpoint, head);
      && n.loaded == l.loaded
      && Leg(m.(last := None, loaded := n.loaded), n.(last := None), scan, checkpoint, head, scan.range)
      && (n.alive ==> forall x :: Lists(head, scan.range, x) ==> Dealt(n, scan, checkpoint, x))
  {
    var cleared := ApplyBatch(l.store, ClearCursor(scan.key));
    assert cleared == l.store.(cursors := l.store.cursors - {scan.key});
    var b := Write(l, cleared);
    if b.alive {
      var base := m.(loaded := l.loaded);
      assert Leg(base.(last := None), b.(last := None), scan, checkpoint, head, scan.range);
      if usable {
        ExtendLeg(b, scan, checkpoint, l.store, l.store.cursors[scan.key], head);
        LegTrans(base, b, Extend(b, scan, checkpoint, l.store.cursors[scan.key], head), scan, checkpoint, head, scan.range);
      } else {
        RestartLeg(b, scan, checkpoint, head);
        LegTrans(base, b, Restart(b, scan, checkpoint, head), scan, checkpoint, head, scan.range);
      }
    }
  }
}
