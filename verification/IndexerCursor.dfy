/** Cursors certify what has been scanned. */
module IndexerCursor {
  import opened Wrappers
  import opened CommitGraph
  import opened HistoryTables
  import opened IndexerSpec
  import opened IndexerWalk

  function RangeOf(cur: Cursor): Range {
    Range(cur.floor, cur.since, cur.until)
  }

  /** Why a cursor may pass over a commit without a progress row of its own. Nothing excuses the
      initial and forward scans. The other scans may rely on ranges scanned before them, and what they
      rely on is stored already or is above the published head, where a forward scan will meet it. */
  predicate Excused(t: Tables, key: ScanKey, cutoff: nat, c: Commit) {
    match key
    case Initial => false
    case Forward(_) => false
    case Backward(_, _) => Settled(t, c)
    case Fallback(_) => cutoff <= c.time || Settled(t, c)
  }

  predicate Settled(t: Tables, c: Commit) {
    t.state.Some? && (Held(t, c) || !Anc(c, t.state.value.head))
  }

  /** The scan's progress rows are exactly the listed commits from the cursor's head down to its frontier. */
  ghost predicate Certifies(t: Tables, key: ScanKey, cur: Cursor) {
    cur.frontier.Some? &&
    var f := cur.frontier.value;
    && Row(key, f) in t.rows
    && (forall c :: Row(key, c) in t.rows ==> Lists(cur.head, RangeOf(cur), c) && Anc(f, c))
    && (forall c :: Lists(cur.head, RangeOf(cur), c) && Anc(f, c) ==> Row(key, c) in t.rows || Excused(t, key, cur.cutoff, c))
  }

  ghost predicate Certified(t: Tables, key: ScanKey) {
    key in t.cursors ==> Certifies(t, key, t.cursors[key])
  }

  lemma ExcusedGrows(s: Tables, t: Tables, key: ScanKey, cutoff: nat, c: Commit)
    requires s.state == t.state && s.events <= t.events && s.diagnostics <= t.diagnostics && Excused(s, key, cutoff, c)
    ensures Excused(t, key, cutoff, c)
  {
  }

  /** A scan leaves the certificates of all other scans intact. */
  lemma OthersCertified(s: Tables, t: Tables, key: ScanKey, other: ScanKey)
    requires Grows(s, t, key) && other != key && Certified(s, other)
    ensures Certified(t, other)
  {
    if other in t.cursors {
      var cur := t.cursors[other];
      assert cur == s.cursors[other];
      forall c | Row(other, c) in t.rows ensures Row(other, c) in s.rows {
        assert Row(other, c).key != key;
      }
      forall c | Lists(cur.head, RangeOf(cur), c) && Anc(cur.frontier.value, c)
        ensures Row(other, c) in t.rows || Excused(t, other, cur.cutoff, c)
      {
        if Row(other, c) !in s.rows {
          ExcusedGrows(s, t, other, cur.cutoff, c);
        }
      }
    }
  }

  /** While a walk with a cursor is at `at`, everything listed above `at` is accounted for. */
  ghost predicate Tracks(t: Tables, cur: Cursor, scan: Scan, at: Commit) {
    && Matches(cur, scan) && Anc(at, cur.head)
    && (forall c :: Row(scan.key, c) in t.rows ==> Lists(cur.head, scan.range, c) && !Anc(c, at))
    && (forall c :: Lists(cur.head, scan.range, c) && !Anc(c, at) ==>
          Row(scan.key, c) in t.rows || Excused(t, scan.key, scan.cutoff, c))
    && (match cur.frontier
        case None => scan.key !in t.cursors && forall c :: Row(scan.key, c) !in t.rows
        case Some(f) => scan.key in t.cursors && t.cursors[scan.key] == cur && Row(scan.key, f) in t.rows &&
                        forall c :: Row(scan.key, c) in t.rows ==> Anc(f, c))
  }

  lemma TracksCertify(t: Tables, cur: Cursor, scan: Scan, at: Commit)
    requires Tracks(t, cur, scan, at)
    ensures Certified(t, scan.key)
  {
    if scan.key in t.cursors {
      var f := cur.frontier.value;
      assert RangeOf(cur) == scan.range;
      forall c | Lists(cur.head, scan.range, c) && Anc(f, c)
        ensures Row(scan.key, c) in t.rows || Excused(t, scan.key, scan.cutoff, c)
      {
        if Anc(c, at) {
          AncTrans(f, c, at);
        }
      }
    }
  }

  /** Visiting `at` accounts for it: a new row moves the frontier down to it, or an excuse is at hand. */
  lemma TrackVisit(t: Tables, u: Tables, cur: Cursor, next: Cursor, scan: Scan, at: Commit, missing: set<Key>)
    requires at.Child? && Tracks(t, cur, scan, at)
    requires Lists(cur.head, scan.range, at) ==>
               (next == cur && u == t && Excused(t, scan.key, scan.cutoff, at)) ||
               (u == Recording(t, scan.key, missing, Some(cur), at) && next == cur.(frontier := Some(at)))
    requires !Lists(cur.head, scan.range, at) ==> next == cur && u == t
    ensures Tracks(u, next, scan, at.parent)
  {
    NotBelowParent(at);
    AncTrans(at.parent, at, cur.head);
    forall c | Row(scan.key, c) in u.rows
      ensures Lists(cur.head, scan.range, c) && !Anc(c, at.parent)
      ensures next.frontier == Some(at) ==> Anc(at, c)
    {
      if c != at {
        assert Row(scan.key, c) in t.rows;
        ReachAnc(cur.head, c, scan.range.since);
        AncLinear(at, c, cur.head);
      }
    }
    forall c | Lists(cur.head, scan.range, c) && !Anc(c, at.parent)
      ensures Row(scan.key, c) in u.rows || Excused(u, scan.key, scan.cutoff, c)
    {
      if c != at && Row(scan.key, c) !in t.rows {
        ExcusedGrows(t, u, scan.key, scan.cutoff, c);
      }
    }
  }

  /** The tables themselves and the tables after the pending flush are both certified. */
  ghost predicate Safe(m: Memory, key: ScanKey) {
    Certified(m.store, key) && Certified(Virtual(m, key), key)
  }

  ghost predicate Following(m: Memory, scan: Scan, at: Commit) {
    Certified(m.store, scan.key) &&
    match m.cursor
    case None => scan.key !in m.store.cursors && scan.key !in Virtual(m, scan.key).cursors
    case Some(cur) => Tracks(Virtual(m, scan.key), cur, scan, at) && forall x :: Lists(at, scan.range, x) ==> Lists(cur.head, scan.range, x)
  }

  /** What earlier ranges have seen is excused, and the checkpoint is this scan's progress. */
  ghost predicate Base(m0: Memory, scan: Scan, checkpoint: set<Commit>) {
    && (forall c :: c in checkpoint ==> Row(scan.key, c) in m0.store.rows)
    && (m0.cursor.Some? ==> forall c :: c in m0.seen ==> Row(scan.key, c) in m0.store.rows || Excused(m0.store, scan.key, scan.cutoff, c))
    && (forall x :: x in checkpoint && !scan.key.Fallback? ==> Keys(x) !! m0.missing)
  }

  lemma FollowVisit(m0: Memory, m: Memory, scan: Scan, checkpoint: set<Commit>, at: Commit, tip: Commit, r: Range)
    requires m.alive && WalkOk(m0, m, scan, checkpoint, tip, r) && Base(m0, scan, checkpoint) && Following(m, scan, at)
    requires Lists(at, r, at) && (m.cursor.Some? ==> r == scan.range && m0.cursor.Some?)
    ensures var n := Process(m, scan, checkpoint, at);
      Safe(n, scan.key) && (n.alive && at.Child? ==> Following(n, scan, at.parent))
  {
    ProcessCases(m, scan, checkpoint, at);
    var n := Process(m, scan, checkpoint, at);
    var v, w := Virtual(m, scan.key), Virtual(n, scan.key);
    if m.cursor.Some? {
      var cur := m.cursor.value;
      TracksCertify(v, cur, scan, at);
      if Passed(m, n, scan, checkpoint, at) {
        if n.alive {
          assert Excused(v, scan.key, scan.cutoff, at) by {
            if at in m.seen && !(at in checkpoint) && Row(scan.key, at) !in v.rows {
              ExcusedGrows(m0.store, v, scan.key, scan.cutoff, at);
            }
          }
          if at.Child? {
            TrackVisit(v, w, cur, cur, scan, at, m.missing);
          }
        }
      } else {
        var next := cur.(frontier := Some(at));
        RecordingCertified(v, cur, scan, at, m.missing);
        if at.Child? {
          TrackVisit(v, w, cur, next, scan, at, m.missing);
        }
      }
      if n.alive && at.Child? {
        forall x | Lists(at.parent, scan.range, x) ensures Lists(cur.head, scan.range, x) {
          assert Lists(at, scan.range, x);
        }
      }
    }
  }

  lemma RecordingCertified(t: Tables, cur: Cursor, scan: Scan, at: Commit, missing: set<Key>)
    requires Tracks(t, cur, scan, at) && Lists(cur.head, scan.range, at)
    ensures Certified(Recording(t, scan.key, missing, Some(cur), at), scan.key)
  {
    var u, next := Recording(t, scan.key, missing, Some(cur), at), cur.(frontier := Some(at));
    assert u.cursors[scan.key] == next && RangeOf(next) == scan.range;
    forall c | Row(scan.key, c) in u.rows ensures Lists(cur.head, scan.range, c) && Anc(at, c) {
      if c != at {
        assert Row(scan.key, c) in t.rows;
        ReachAnc(cur.head, c, scan.range.since);
        AncLinear(at, c, cur.head);
      }
    }
    forall c | Lists(cur.head, scan.range, c) && Anc(at, c)
      ensures Row(scan.key, c) in u.rows || Excused(u, scan.key, scan.cutoff, c)
    {
      if c != at {
        if Anc(c, at) {
          AncAntisym(c, at);
        }
        if Row(scan.key, c) !in t.rows {
          ExcusedGrows(t, u, scan.key, scan.cutoff, c);
        }
      }
    }
  }

  lemma {:induction false} WalkFollows(m0: Memory, m: Memory, scan: Scan, checkpoint: set<Commit>, at: Commit, tip: Commit, r: Range)
    requires WalkOk(m0, m, scan, checkpoint, tip, r) && Base(m0, scan, checkpoint)
    requires forall x :: Lists(at, r, x) ==> Lists(tip, r, x)
    requires m.cursor.Some? ==> r == scan.range
    requires Safe(m, scan.key) && (m.alive ==> Following(m, scan, at)) && (m.cursor.Some? <==> m0.cursor.Some?)
    ensures Safe(Walk(m, scan, checkpoint, at, r), scan.key)
    decreases at
  {
    if m.alive && !Below(at, r.floor) && r.since <= at.time {
      var next := if Within(r, at) then Process(m, scan, checkpoint, at) else m;
      if Within(r, at) {
        assert Lists(at, r, at);
        ProcessKeeps(m0, m, scan, checkpoint, at, tip, r);
        FollowVisit(m0, m, scan, checkpoint, at, tip, r);
        ProcessCases(m, scan, checkpoint, at);
      } else if at.Child? && m.cursor.Some? {
        TrackVisit(Virtual(m, scan.key), Virtual(m, scan.key), m.cursor.value, m.cursor.value, scan, at, {});
        forall x | Lists(at.parent, r, x) ensures Lists(m.cursor.value.head, r, x) {
          assert Lists(at, r, x);
        }
      }
      if at.Child? {
        forall x | Lists(at.parent, r, x) ensures Lists(tip, r, x) {
          assert Lists(at, r, x);
        }
        WalkFollows(m0, next, scan, checkpoint, at.parent, tip, r);
      }
    }
  }

  /** Without a cursor in memory none is ever written. */
  lemma {:induction false} WalkWritesNoCursor(m: Memory, scan: Scan, checkpoint: set<Commit>, at: Commit, r: Range)
    requires BufferOk(m) && m.cursor.None? && scan.key !in m.store.cursors
    ensures var n := Walk(m, scan, checkpoint, at, r);
      scan.key !in n.store.cursors && scan.key !in Virtual(n, scan.key).cursors
    decreases at
  {
    if m.alive && !Below(at, r.floor) && r.since <= at.time {
      if Within(r, at) {
        ProcessCases(m, scan, checkpoint, at);
      }
      if at.Child? {
        WalkWritesNoCursor(if Within(r, at) then Process(m, scan, checkpoint, at) else m, scan, checkpoint, at.parent, r);
      }
    }
  }
}
