/** What a walk over part of a chain leaves behind, whether or not it is cut off. The central notion is
    `Virtual`: the tables as they would be if the pending batch were flushed now. Batching never shows in it. */
module IndexerWalk {
  import opened Wrappers
  import opened CommitGraph
  import opened HistoryTables
  import opened IndexerSpec

  // ---- parsing -----------------------------------------------------------------------------

  lemma {:induction false} NoteRowsExact(c: Commit, path: string, notes: seq<string>)
    ensures forall d :: d in NoteRows(c, path, notes) <==> d.commit == c && d.path == path && d.message in notes
  {
    if notes != [] {
      NoteRowsExact(c, path, notes[..|notes| - 1]);
      assert notes == notes[..|notes| - 1] + [notes[|notes| - 1]];
    }
  }

  /** A primary scan takes every update of a commit, a fallback exactly the ones still missing,
      and either way nothing the commit yields is missing afterwards. */
  lemma {:induction false} ParseExact(c: Commit, n: nat, fallback: bool, missing: set<Key>)
    requires n <= |c.changes|
    ensures var p := ParseUpTo(c, n, fallback, missing);
      && (forall e :: e in p.events <==> e.commit == c && e.key in KeysUpTo(c, n) && (fallback ==> e.key in missing))
      && (forall d :: d in p.diagnostics <==> d in NotesUpTo(c, n))
      && p.missing == missing - KeysUpTo(c, n)
  {
    if n > 0 {
      ParseExact(c, n - 1, fallback, missing);
      var ch := c.changes[n - 1];
      NoteRowsExact(c, ch.path, ch.notes);
      if Relevant(ch) {
        forall d | d in NoteRows(c, ch.path, ch.notes) ensures d in NotesUpTo(c, n) {
          assert d == Diagnostic(c, ch.path, d.message);
        }
      }
    }
  }

  lemma {:induction false} NotesOwn(c: Commit, n: nat)
    requires n <= |c.changes|
    ensures forall d :: d in NotesUpTo(c, n) ==> d.commit == c
  {
    if n > 0 {
      NotesOwn(c, n - 1);
    }
  }

  // ---- the tables a flush would leave -------------------------------------------------------

  function Virtual(m: Memory, key: ScanKey): Tables {
    if m.processed == [] then m.store else ApplyBatch(m.store, PendingBatch(m, key))
  }

  predicate BufferOk(m: Memory) {
    m.processed == [] ==> m.events == [] && m.diagnostics == []
  }

  /** The tables after one more commit: its updates, diagnostics, progress row and the moved frontier. */
  function Recording(t: Tables, key: ScanKey, missing: set<Key>, cursor: Option<Cursor>, c: Commit): Tables {
    t.(events := t.events + (set k | k in Keys(c) && (key.Fallback? ==> k in missing) :: EventId(c, k)),
       diagnostics := t.diagnostics + Notes(c),
       rows := t.rows + {Row(key, c)},
       cursors := if cursor.Some? then t.cursors[key := cursor.value.(frontier := Some(c))] else t.cursors)
  }

  lemma FlushKeepsVirtual(m: Memory, key: ScanKey)
    requires BufferOk(m)
    ensures var f := Flush(m, key);
      && BufferOk(f) && Virtual(f, key) == Virtual(m, key)
      && (f.store == m.store || f.store == Virtual(m, key))
      && (f.alive && m.alive ==> f.processed == [])
      && f == m.(store := f.store, fuel := f.fuel, alive := f.alive, events := f.events, diagnostics := f.diagnostics,
                 processed := f.processed, limit := f.limit, log := f.log)
  {
    ReapplyChangesNothing(m.store, PendingBatch(m, key));
  }

  lemma RecordedVirtual(m: Memory, scan: Scan, c: Commit)
    requires BufferOk(m) && ReadsUpTo(c, |c.changes|) <= m.fuel
    ensures var r := Recorded(m, scan, c);
      && BufferOk(r) && Virtual(r, scan.key) == Recording(Virtual(m, scan.key), scan.key, m.missing, m.cursor, c)
      && r.missing == m.missing - Keys(c)
  {
    ParseExact(c, |c.changes|, scan.key.Fallback?, m.missing);
    var r := Recorded(m, scan, c);
    var p := ParseUpTo(c, |c.changes|, scan.key.Fallback?, m.missing);
    var v, w := Virtual(m, scan.key), Virtual(r, scan.key);
    var t := Recording(v, scan.key, m.missing, m.cursor, c);
    assert w.events == t.events by {
      forall e ensures e in w.events <==> e in t.events {
        assert e in r.events <==> e in m.events || e in p.events;
        if e in p.events { assert e == EventId(c, e.key); }
      }
    }
    assert w.diagnostics == t.diagnostics by {
      forall d ensures d in w.diagnostics <==> d in t.diagnostics {
        assert d in r.diagnostics <==> d in m.diagnostics || d in p.diagnostics;
      }
    }
    assert w.rows == t.rows by {
      forall row ensures row in w.rows <==> row in t.rows {
        if row in w.rows && row !in m.store.rows {
          assert row.commit in m.processed || row.commit == c;
        }
        if row.key == scan.key && row.commit in m.processed {
          assert row == Row(scan.key, row.commit) && row.commit in r.processed;
        }
        assert c in r.processed;
      }
    }
  }

  /** Which of its four ways a visit to `c` took. */
  predicate Skips(m: Memory, scan: Scan, checkpoint: set<Commit>, c: Commit) {
    c in m.seen || c in checkpoint || (scan.key.Fallback? && scan.cutoff != 0 && scan.cutoff <= c.time)
  }

  /** The commit is passed over, or the call is cut off before its definitions are read. */
  predicate Passed(m: Memory, n: Memory, scan: Scan, checkpoint: set<Commit>, c: Commit) {
    Virtual(n, scan.key) == Virtual(m, scan.key) && n.missing == m.missing && n.cursor == m.cursor && n.store == m.store &&
    (n.alive ==> Skips(m, scan, checkpoint, c) && m.seen <= n.seen <= m.seen + (if c in checkpoint then {c} else {}) &&
                 (c in checkpoint ==> c in n.seen))
  }

  predicate Took(m: Memory, n: Memory, scan: Scan, checkpoint: set<Commit>, c: Commit) {
    !Skips(m, scan, checkpoint, c) &&
    Virtual(n, scan.key) == Recording(Virtual(m, scan.key), scan.key, m.missing, m.cursor, c) &&
    n.missing == m.missing - Keys(c) && n.seen == m.seen + {c} &&
    n.cursor == if m.cursor.Some? then Some(m.cursor.value.(frontier := Some(c))) else None
  }

  lemma ProcessCases(m: Memory, scan: Scan, checkpoint: set<Commit>, c: Commit)
    requires m.alive && BufferOk(m)
    ensures var n := Process(m, scan, checkpoint, c);
      && BufferOk(n) && n.loaded == m.loaded && n.fault == m.fault
      && (n.store == m.store || n.store == Virtual(n, scan.key))
      && (n.encountered == m.encountered || n.encountered == m.encountered + {c})
      && (n.alive ==> n.encountered == m.encountered + {c} && n.last == Some(c))
      && (n.last == m.last || n.last == Some(c))
      && (Passed(m, n, scan, checkpoint, c) || Took(m, n, scan, checkpoint, c))
  {
    if m.fuel > 0 && !Skips(m, scan, checkpoint, c) && ReadsUpTo(c, |c.changes|) <= m.fuel {
      var s := m.(last := Some(c), encountered := m.encountered + {c}, seen := m.seen + {c});
      assert Virtual(s, scan.key) == Virtual(m, scan.key);
      RecordedVirtual(s, scan, c);
      var r := Recorded(s, scan, c);
      FlushKeepsVirtual(r, scan.key);
      assert Took(m, r, scan, checkpoint, c);
      assert Took(m, Process(m, scan, checkpoint, c), scan, checkpoint, c);
    } else {
      assert Passed(m, Process(m, scan, checkpoint, c), scan, checkpoint, c);
    }
  }

  // ---- a walk ------------------------------------------------------------------------------

  /** Everything the commit yields is in the tables. */
  predicate Held(t: Tables, c: Commit) {
    (forall k :: k in Keys(c) ==> EventId(c, k) in t.events) && Notes(c) <= t.diagnostics
  }

  /** A scan only adds, and touches no other scan's progress. */
  ghost predicate Grows(s: Tables, t: Tables, key: ScanKey) {
    && t.state == s.state && t.coverage == s.coverage
    && s.events <= t.events && s.diagnostics <= t.diagnostics && s.rows <= t.rows
    && (forall row :: row in t.rows && row.key != key ==> row in s.rows)
    && (forall k :: k != key ==> (k in t.cursors <==> k in s.cursors) && (k in s.cursors ==> t.cursors[k] == s.cursors[k]))
  }

  /** Whatever is new comes from a listed commit that yields it. */
  ghost predicate FilledFrom(s: Tables, t: Tables, tip: Commit, r: Range) {
    && (forall row :: row in t.rows ==> row in s.rows || Lists(tip, r, row.commit))
    && (forall e :: e in t.events ==> e in s.events || (Lists(tip, r, e.commit) && e.key in Keys(e.commit)))
    && (forall d :: d in t.diagnostics ==> d in s.diagnostics || (Lists(tip, r, d.commit) && d in Notes(d.commit)))
  }

  /** A new progress row of a primary scan certifies that its commit is stored. */
  ghost predicate NewRowsHeld(s: Tables, t: Tables, key: ScanKey) {
    !key.Fallback? ==> forall c :: Row(key, c) in t.rows && Row(key, c) !in s.rows ==> Held(t, c)
  }

  ghost predicate Step(s: Tables, t: Tables, key: ScanKey, tip: Commit, r: Range) {
    Grows(s, t, key) && FilledFrom(s, t, tip, r) && NewRowsHeld(s, t, key)
  }

  predicate NoneMissing(t: Tables, missing: set<Key>) {
    forall e | e in t.events :: e.key !in missing
  }

  /** Nothing a seen commit yields is missing, except what a fallback checkpoint hides. */
  predicate Quiet(m: Memory, scan: Scan, checkpoint: set<Commit>) {
    forall c | c in m.seen :: Keys(c) !! m.missing || (scan.key.Fallback? && c in checkpoint)
  }

  predicate TooRecent(scan: Scan, c: Commit) {
    scan.key.Fallback? && scan.cutoff != 0 && scan.cutoff <= c.time
  }

  /** What holds throughout a walk over `tip`'s range that started in `m0` with an empty buffer. */
  ghost predicate WalkOk(m0: Memory, m: Memory, scan: Scan, checkpoint: set<Commit>, tip: Commit, r: Range) {
    && BufferOk(m) && m.loaded == m0.loaded && m.fault == m0.fault && m.missing <= m0.missing
    && Step(m0.store, m.store, scan.key, tip, r)
    && Step(m0.store, Virtual(m, scan.key), scan.key, tip, r)
    && NoneMissing(Virtual(m, scan.key), m.missing) && m.store.events <= Virtual(m, scan.key).events
    && (forall c :: c in m.encountered ==> c in m0.encountered || Lists(tip, r, c))
    && (m.last.Some? ==> Lists(tip, r, m.last.value))
    && (m.alive ==>
        && m0.encountered <= m.encountered && m0.seen <= m.seen
        && (forall c :: c in m.seen ==> c in m0.seen || c in checkpoint || Row(scan.key, c) in Virtual(m, scan.key).rows)
        && (forall c :: c in m.seen ==> c in m0.seen || Lists(tip, r, c))
        && Quiet(m, scan, checkpoint))
  }

  lemma RecordingStep(s: Tables, t: Tables, scan: Scan, missing: set<Key>, cursor: Option<Cursor>, c: Commit, tip: Commit, r: Range)
    requires Step(s, t, scan.key, tip, r) && Lists(tip, r, c) && NoneMissing(t, missing)
    ensures Step(s, Recording(t, scan.key, missing, cursor, c), scan.key, tip, r)
    ensures NoneMissing(Recording(t, scan.key, missing, cursor, c), missing - Keys(c))
  {
    NotesOwn(c, |c.changes|);
    var u := Recording(t, scan.key, missing, cursor, c);
    forall x | !scan.key.Fallback? && Row(scan.key, x) in u.rows && Row(scan.key, x) !in s.rows ensures Held(u, x) {
      assert x == c || Held(t, x);
    }
  }

  lemma ProcessKeeps(m0: Memory, m: Memory, scan: Scan, checkpoint: set<Commit>, c: Commit, tip: Commit, r: Range)
    requires m.alive && WalkOk(m0, m, scan, checkpoint, tip, r) && Lists(tip, r, c)
    requires forall x :: x in checkpoint && !scan.key.Fallback? ==> Keys(x) !! m.missing
    ensures var n := Process(m, scan, checkpoint, c);
      && WalkOk(m0, n, scan, checkpoint, tip, r)
      && (n.alive ==> m.encountered <= n.encountered && m.seen <= n.seen && c in n.encountered && (c in n.seen || TooRecent(scan, c)))
  {
    ProcessCases(m, scan, checkpoint, c);
    var n := Process(m, scan, checkpoint, c);
    if !Passed(m, n, scan, checkpoint, c) {
      RecordingStep(m0.store, Virtual(m, scan.key), scan, m.missing, m.cursor, c, tip, r);
    }
  }

  /** The walk adds only listed commits, and unless it is cut off it leaves none of them out. */
  lemma {:induction false} WalkKeeps(m0: Memory, m: Memory, scan: Scan, checkpoint: set<Commit>, at: Commit, tip: Commit, r: Range)
    requires WalkOk(m0, m, scan, checkpoint, tip, r)
    requires forall x :: Lists(at, r, x) ==> Lists(tip, r, x)
    requires forall x :: x in checkpoint && !scan.key.Fallback? ==> Keys(x) !! m0.missing
    ensures var n := Walk(m, scan, checkpoint, at, r);
      && WalkOk(m0, n, scan, checkpoint, tip, r)
      && (n.alive ==> m.alive && m.encountered <= n.encountered && m.seen <= n.seen)
      && (n.alive ==> forall x :: Lists(at, r, x) ==> x in n.encountered && (x in n.seen || TooRecent(scan, x)))
    decreases at
  {
    if m.alive && !Below(at, r.floor) && r.since <= at.time {
      var next := if Within(r, at) then Process(m, scan, checkpoint, at) else m;
      if Within(r, at) {
        assert Lists(at, r, at);
        ProcessKeeps(m0, m, scan, checkpoint, at, tip, r);
      }
      if at.Child? {
        forall x | Lists(at.parent, r, x) ensures Lists(tip, r, x) {
          assert Lists(at, r, x);
        }
        WalkKeeps(m0, next, scan, checkpoint, at.parent, tip, r);
      }
      var n := Walk(m, scan, checkpoint, at, r);
      if n.alive {
        forall x | Lists(at, r, x) ensures x in n.encountered && (x in n.seen || TooRecent(scan, x)) {
          if x != at {
            BelowDown(x, at.parent, at, r);
          }
        }
      }
    } else if m.alive {
      forall x | Lists(at, r, x) ensures false {
        ReachAnc(at, x, r.since);
        if Below(at, r.floor) {
          AncTrans(x, at, r.floor.value);
        }
      }
    }
  }

  lemma BelowDown(x: Commit, parent: Commit, at: Commit, r: Range)
    requires at.Child? && at.parent == parent && x != at && Lists(at, r, x)
    ensures Lists(parent, r, x)
  {
  }
}
