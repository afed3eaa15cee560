/** Which commits the cursor of a backward scan vouches for: those of its stretch that were below the recorded head
    when the cursor came to cover them. The others had just been seen by the forward scan of the same call. */
module IndexerBackward {
  import opened Wrappers
  import opened CommitGraph
  import opened HistoryTables
  import opened IndexerSpec
  import opened IndexerWalk
  import opened IndexerCursor
  import opened IndexerScan
  import opened IndexerCall
  import opened IndexerTheorems

  /** The listed commits from the cursor's head down to its frontier. */
  ghost predicate Stretch(t: Tables, key: ScanKey, c: Commit) {
    key in t.cursors &&
    var cur := t.cursors[key];
    cur.frontier.Some? && Lists(cur.head, RangeOf(cur), c) && Anc(cur.frontier.value, c)
  }

  /** What had a row keeps it, and what is new has one exactly below the recorded head. */
  ghost predicate Kept(s: Tables, key: ScanKey, prior: Commit, c: Commit) {
    if Stretch(s, key, c) then Row(key, c) in s.rows else Anc(c, prior)
  }

  /** From `s` to `t` the scan has given rows to exactly those commits of its stretch. */
  ghost predicate Exact(s: Tables, t: Tables, key: ScanKey, prior: Commit) {
    key in t.cursors ==>
      && t.cursors[key].frontier.Some?
      && forall c :: Row(key, c) in t.rows <==> Stretch(t, key, c) && Kept(s, key, prior, c)
  }

  /** The cursor is that of before, or of this call's head. */
  predicate Headed(s: Tables, t: Tables, key: ScanKey, head: Commit) {
    key in t.cursors ==> t.cursors[key].head == head || (key in s.cursors && t.cursors[key] == s.cursors[key])
  }

  ghost predicate Vouched(s: Tables, t: Tables, key: ScanKey, prior: Commit, head: Commit) {
    Exact(s, t, key, prior) && Headed(s, t, key, head)
  }

  /** The commits of the chain seen so far are those above the recorded head. */
  ghost predicate Sighted(m: Memory, head: Commit, prior: Commit) {
    forall c | Anc(c, head) :: c in m.seen <==> !Anc(c, prior)
  }

  // ---- a walk with a cursor ----------------------------------------------------------------

  /** While the walk is about to visit `at`: rows, cursor, and what is ahead. */
  ghost predicate Down(s: Tables, m: Memory, scan: Scan, checkpoint: set<Commit>, prior: Commit, head: Commit, at: Option<Commit>) {
    var v, key := Virtual(m, scan.key), scan.key;
    && BufferOk(m) && m.cursor.Some? && Matches(m.cursor.value, scan) && m.cursor.value.head == head && key.Backward?
    && (at.Some? ==> Anc(at.value, head))
    && (forall c :: Row(key, c) in v.rows <==> Lists(head, scan.range, c) && !Below(c, at) && Kept(s, key, prior, c))
    && (match m.cursor.value.frontier
        case None => key !in v.cursors
        case Some(f) => key in v.cursors && v.cursors[key] == m.cursor.value && Row(key, f) in v.rows &&
                        forall c :: Row(key, c) in v.rows ==> Anc(f, c))
    && (forall c | Below(c, at) :: c !in checkpoint && !Stretch(s, key, c) && (c in m.seen <==> !Anc(c, prior)))
  }

  lemma DownVouches(s: Tables, m: Memory, scan: Scan, checkpoint: set<Commit>, prior: Commit, head: Commit, at: Option<Commit>)
    requires Down(s, m, scan, checkpoint, prior, head, at)
    ensures Vouched(s, Virtual(m, scan.key), scan.key, prior, head)
  {
    var v, key := Virtual(m, scan.key), scan.key;
    if key in v.cursors {
      var cur := v.cursors[key];
      assert RangeOf(cur) == scan.range;
      forall c | Stretch(v, key, c) && Kept(s, key, prior, c) ensures Row(key, c) in v.rows {
        if Below(c, at) {
          AncTrans(cur.frontier.value, c, at.value);
        }
      }
    }
  }

  function Next(at: Commit): Option<Commit> {
    if at.Child? then Some(at.parent) else None
  }

  lemma BelowNext(at: Commit, head: Commit, c: Commit)
    requires Anc(at, head) && Anc(c, head)
    ensures Below(c, Next(at)) <==> Anc(c, at) && c != at
    ensures at.Child? ==> Anc(at.parent, head)
  {
    if at.Child? {
      AncTrans(at.parent, at, head);
      NotBelowParent(at);
    }
  }

  /** Visiting `at`: a commit above the recorded head has been seen and is passed over, any other gets its row. */
  lemma DownVisit(s: Tables, m: Memory, scan: Scan, checkpoint: set<Commit>, prior: Commit, head: Commit, at: Commit)
    requires m.alive && Down(s, m, scan, checkpoint, prior, head, Some(at)) && Lists(head, scan.range, at)
    ensures var n := Process(m, scan, checkpoint, at);
      && BufferOk(n) && (n.store == m.store || n.store == Virtual(n, scan.key))
      && Vouched(s, Virtual(n, scan.key), scan.key, prior, head)
      && (n.alive ==> Down(s, n, scan, checkpoint, prior, head, Next(at)))
  {
    ProcessCases(m, scan, checkpoint, at);
    var n := Process(m, scan, checkpoint, at);
    DownVouches(s, m, scan, checkpoint, prior, head, Some(at));
    if Passed(m, n, scan, checkpoint, at) {
      if n.alive {
        DownPass(s, m, n, scan, checkpoint, prior, head, at);
      }
    } else {
      DownTake(s, m, n, scan, checkpoint, prior, head, at);
      DownVouches(s, n, scan, checkpoint, prior, head, Next(at));
    }
  }

  lemma DownPass(s: Tables, m: Memory, n: Memory, scan: Scan, checkpoint: set<Commit>, prior: Commit, head: Commit, at: Commit)
    requires Down(s, m, scan, checkpoint, prior, head, Some(at)) && BufferOk(n)
    requires Lists(head, scan.range, at) ==> !Anc(at, prior)
    requires Virtual(n, scan.key).rows == Virtual(m, scan.key).rows && Virtual(n, scan.key).cursors == Virtual(m, scan.key).cursors
    requires n.cursor == m.cursor && m.seen <= n.seen <= m.seen + {at}
    ensures Down(s, n, scan, checkpoint, prior, head, Next(at))
  {
    var v, key := Virtual(n, scan.key), scan.key;
    forall c ensures Row(key, c) in v.rows <==> Lists(head, scan.range, c) && !Below(c, Next(at)) && Kept(s, key, prior, c) {
      if Lists(head, scan.range, c) {
        ReachAnc(head, c, scan.range.since);
        BelowNext(at, head, c);
      }
    }
    forall c | Below(c, Next(at))
      ensures c !in checkpoint && !Stretch(s, key, c) && (c in n.seen <==> !Anc(c, prior))
    {
      AncTrans(c, at.parent, at);
      AncTrans(c, at, head);
      BelowNext(at, head, c);
    }
    BelowNext(at, head, at);
  }

  lemma DownTake(s: Tables, m: Memory, n: Memory, scan: Scan, checkpoint: set<Commit>, prior: Commit, head: Commit, at: Commit)
    requires Down(s, m, scan, checkpoint, prior, head, Some(at)) && Lists(head, scan.range, at) && BufferOk(n)
    requires Took(m, n, scan, checkpoint, at)
    ensures Down(s, n, scan, checkpoint, prior, head, Next(at))
  {
    var u, v, key := Virtual(m, scan.key), Virtual(n, scan.key), scan.key;
    forall c ensures Row(key, c) in v.rows <==> Lists(head, scan.range, c) && !Below(c, Next(at)) && Kept(s, key, prior, c) {
      assert Row(key, c) in v.rows <==> c == at || Row(key, c) in u.rows;
      if Lists(head, scan.range, c) {
        ReachAnc(head, c, scan.range.since);
        BelowNext(at, head, c);
      }
    }
    forall c | Row(key, c) in v.rows ensures Anc(at, c) {
      ReachAnc(head, c, scan.range.since);
      AncLinear(at, c, head);
      BelowNext(at, head, c);
    }
    forall c | Below(c, Next(at))
      ensures c !in checkpoint && !Stretch(s, key, c) && (c in n.seen <==> !Anc(c, prior))
    {
      AncTrans(c, at.parent, at);
      AncTrans(c, at, head);
      BelowNext(at, head, c);
    }
    BelowNext(at, head, at);
  }

  lemma {:induction false} DownWalk(s: Tables, m: Memory, scan: Scan, checkpoint: set<Commit>, prior: Commit, head: Commit, at: Commit)
    requires m.alive ==> Down(s, m, scan, checkpoint, prior, head, Some(at))
    requires BufferOk(m) && Vouched(s, m.store, scan.key, prior, head) && Vouched(s, Virtual(m, scan.key), scan.key, prior, head)
    requires forall x :: Lists(at, scan.range, x) ==> Lists(head, scan.range, x)
    ensures var n := Walk(m, scan, checkpoint, at, scan.range);
      BufferOk(n) && Vouched(s, n.store, scan.key, prior, head) && Vouched(s, Virtual(n, scan.key), scan.key, prior, head)
    decreases at
  {
    if m.alive && !Below(at, scan.range.floor) && scan.range.since <= at.time {
      var next := if Within(scan.range, at) then Process(m, scan, checkpoint, at) else m;
      if Within(scan.range, at) {
        assert Lists(at, scan.range, at);
        DownVisit(s, m, scan, checkpoint, prior, head, at);
      } else {
        DownPass(s, m, m, scan, checkpoint, prior, head, at);
      }
      if at.Child? {
        forall x | Lists(at.parent, scan.range, x) ensures Lists(head, scan.range, x) {
          assert Lists(at, scan.range, x);
        }
        DownWalk(s, next, scan, checkpoint, prior, head, at.parent);
      }
    }
  }

  lemma DownWalked(s: Tables, m: Memory, scan: Scan, checkpoint: set<Commit>, prior: Commit, head: Commit, at: Commit)
    requires m.alive && m.processed == [] && Down(s, m, scan, checkpoint, prior, head, Some(at))
    requires forall x :: Lists(at, scan.range, x) ==> Lists(head, scan.range, x)
    ensures Vouched(s, FlushIfAlive(WalkAll(m, scan, checkpoint, at, scan.range), scan.key).store, scan.key, prior, head)
  {
    var b := m.(last := None);
    assert Virtual(b, scan.key) == Virtual(m, scan.key) == m.store;
    assert Down(s, b, scan, checkpoint, prior, head, Some(at));
    DownVouches(s, b, scan, checkpoint, prior, head, Some(at));
    DownWalk(s, b, scan, checkpoint, prior, head, at);
    var w := Walk(b, scan, checkpoint, at, scan.range);
    if w.alive {
      FlushKeepsVirtual(w, scan.key);
    }
  }

  // ---- one range ---------------------------------------------------------------------------

  lemma RestartVouches(m: Memory, scan: Scan, head: Commit, prior: Commit)
    requires m.alive && m.processed == [] && BufferOk(m) && scan.key.Backward? && Sighted(m, head, prior)
    requires scan.key !in m.store.cursors && forall c :: Row(scan.key, c) !in m.store.rows
    ensures Vouched(m.store, Restart(m, scan, {}, head).store, scan.key, prior, head)
  {
    var unset := Cursor(head, None, scan.range.floor, scan.range.since, scan.range.until, scan.cutoff);
    var b := m.(cursor := Some(unset));
    forall c | Lists(head, scan.range, c) ensures Below(c, Some(head)) {
      ReachAnc(head, c, scan.range.since);
    }
    assert Virtual(b, scan.key) == m.store;
    assert Down(m.store, b, scan, {}, prior, head, Some(head));
    DownWalked(m.store, b, scan, {}, prior, head, head);
  }

  /** With checkpoints but no cursor, none is written. */
  lemma NoCursorVouches(s: Tables, m: Memory, scan: Scan, checkpoint: set<Commit>, tip: Commit, r: Range, prior: Commit, head: Commit)
    requires BufferOk(m) && m.cursor.None? && scan.key !in m.store.cursors
    ensures scan.key !in FlushIfAlive(WalkAll(m, scan, checkpoint, tip, r), scan.key).store.cursors
    ensures Vouched(s, FlushIfAlive(WalkAll(m, scan, checkpoint, tip, r), scan.key).store, scan.key, prior, head)
  {
    var b := m.(last := None);
    WalkWritesNoCursor(b, scan, checkpoint, tip, r);
    var w := Walk(b, scan, checkpoint, tip, r);
  }

  /** Below a frontier whose stretch is vouched for, the walk can go on. */
  lemma ResumeVouches(s: Tables, m: Memory, scan: Scan, checkpoint: set<Commit>, cur: Cursor, prior: Commit)
    requires m.alive && m.processed == [] && BufferOk(m) && scan.key.Backward? && Matches(cur, scan) && cur.frontier.Some?
    requires scan.key in m.store.cursors && m.store.cursors[scan.key] == cur && Vouched(s, m.store, scan.key, prior, cur.head)
    requires Row(scan.key, cur.frontier.value) in m.store.rows
    requires forall c | c in checkpoint || Stretch(s, scan.key, c) :: Anc(cur.frontier.value, c)
    requires forall c | Anc(c, cur.frontier.value) && c != cur.frontier.value :: c in m.seen <==> !Anc(c, prior)
    ensures Vouched(s, Resume(m, scan, checkpoint, cur).store, scan.key, prior, cur.head)
  {
    var b := m.(encountered := m.encountered + checkpoint, seen := m.seen + checkpoint, cursor := Some(cur));
    var f, key := cur.frontier.value, scan.key;
    assert Stretch(m.store, key, f) && RangeOf(cur) == scan.range;
    ReachAnc(cur.head, f, scan.range.since);
    if f.Child? {
      AncTrans(f.parent, f, cur.head);
      NotBelowParent(f);
      assert Virtual(b, key) == m.store;
      forall c ensures Row(key, c) in m.store.rows <==>
                       Lists(cur.head, scan.range, c) && !Below(c, Some(f.parent)) && Kept(s, key, prior, c)
      {
        if Lists(cur.head, scan.range, c) {
          ReachAnc(cur.head, c, scan.range.since);
          AboveParent(f, c, cur.head);
          if Anc(f, c) && Anc(c, f.parent) {
            AncTrans(f, c, f.parent);
          }
        }
      }
      forall c | Below(c, Some(f.parent))
        ensures c !in checkpoint && !Stretch(s, key, c) && (c in b.seen <==> !Anc(c, prior))
      {
        AncTrans(c, f.parent, f);
        if Anc(f, c) {
          AncTrans(f, c, f.parent);
        }
      }
      assert Down(s, b, scan, checkpoint, prior, cur.head, Some(f.parent));
      forall x | Lists(f.parent, scan.range, x) ensures Lists(cur.head, scan.range, x) {
        ListsBelowFrontier(cur.head, f, scan.range, x);
      }
      DownWalked(s, b, scan, checkpoint, prior, cur.head, f.parent);
    } else {
      assert FlushIfAlive(b, key) == b;
    }
  }

  // ---- a prefix ----------------------------------------------------------------------------

  /** A walk without a cursor gives rows to exactly the listed commits below the recorded head. */
  lemma {:induction false} PrefixWalk(m: Memory, scan: Scan, checkpoint: set<Commit>, at: Commit, r: Range, prior: Commit)
    requires BufferOk(m) && scan.key.Backward?
    requires forall c | Lists(at, r, c) :: c !in checkpoint && (c in m.seen <==> !Anc(c, prior))
    ensures var n := Walk(m, scan, checkpoint, at, r);
      && BufferOk(n)
      && (n.alive ==>
            && (forall c :: Row(scan.key, c) in Virtual(n, scan.key).rows <==>
                              Row(scan.key, c) in Virtual(m, scan.key).rows || (Lists(at, r, c) && Anc(c, prior)))
            && (forall c :: c in n.seen ==> c in m.seen || Lists(at, r, c)) && m.seen <= n.seen)
    decreases at
  {
    if m.alive && !Below(at, r.floor) && r.since <= at.time {
      var next := if Within(r, at) then Process(m, scan, checkpoint, at) else m;
      if Within(r, at) {
        assert Lists(at, r, at);
        PrefixVisit(m, scan, checkpoint, at, prior);
      }
      if at.Child? {
        NotBelowParent(at);
        forall c | Lists(at.parent, r, c) ensures Lists(at, r, c) && c != at {
          ReachAnc(at.parent, c, r.since);
        }
        if next.alive {
          PrefixWalk(next, scan, checkpoint, at.parent, r, prior);
        } else {
          DeadWalk(next, scan, checkpoint, at.parent, r);
        }
        forall c | Lists(at, r, c) && c != at ensures Lists(at.parent, r, c) {
          BelowDown(c, at.parent, at, r);
        }
      }
    } else if m.alive {
      forall c | Lists(at, r, c) ensures Below(at, r.floor) && r.since <= at.time && Below(c, r.floor) {
        ReachAnc(at, c, r.since);
        if Below(at, r.floor) {
          AncTrans(c, at, r.floor.value);
        }
      }
    }
  }

  lemma DeadWalk(m: Memory, scan: Scan, checkpoint: set<Commit>, at: Commit, r: Range)
    requires !m.alive
    ensures Walk(m, scan, checkpoint, at, r) == m
  {
  }

  lemma PrefixVisit(m: Memory, scan: Scan, checkpoint: set<Commit>, at: Commit, prior: Commit)
    requires m.alive && BufferOk(m) && scan.key.Backward? && at !in checkpoint && (at in m.seen <==> !Anc(at, prior))
    ensures var n := Process(m, scan, checkpoint, at);
      && BufferOk(n)
      && (n.alive ==>
            && (forall c :: Row(scan.key, c) in Virtual(n, scan.key).rows <==>
                              Row(scan.key, c) in Virtual(m, scan.key).rows || (c == at && Anc(at, prior)))
            && m.seen <= n.seen <= m.seen + {at})
  {
    ProcessCases(m, scan, checkpoint, at);
  }

  /** The cursor moved to the new head vouches for the old stretch and the prefix together. */
  lemma MovedVouches(s: Tables, p: Tables, t: Tables, scan: Scan, cur: Cursor, head: Commit, prior: Commit)
    requires scan.key.Backward? && scan.range.floor.None? && Matches(cur, scan) && Anc(cur.head, head) && Reach(head, cur.head, cur.since)
    requires scan.key in s.cursors && s.cursors[scan.key] == cur && Certifies(s, scan.key, cur)
    requires forall c :: Row(scan.key, c) in p.rows <==>
               Row(scan.key, c) in s.rows || (Lists(head, scan.range.(floor := Some(cur.head)), c) && Anc(c, prior))
    requires t.rows == p.rows && scan.key in t.cursors && t.cursors[scan.key] == cur.(head := head)
    ensures Vouched(s, t, scan.key, prior, head)
  {
    var key, f, pr := scan.key, cur.frontier.value, scan.range.(floor := Some(cur.head));
    assert RangeOf(cur) == scan.range == RangeOf(cur.(head := head));
    forall c ensures Row(key, c) in t.rows <==> Stretch(t, key, c) && Kept(s, key, prior, c) {
      if Anc(c, cur.head) {
        ReachSplit(head, cur.head, c, cur.since);
        assert !Lists(head, pr, c);
        assert Stretch(t, key, c) <==> Stretch(s, key, c);
      } else {
        if Stretch(s, key, c) {
          ReachAnc(cur.head, c, cur.since);
        }
        if Lists(head, pr, c) {
          PrefixLists(s, key, cur, scan, head, c);
        }
        assert Stretch(t, key, c) <==> Lists(head, pr, c);
      }
    }
  }

  lemma ExtendVouches(s: Tables, m: Memory, scan: Scan, checkpoint: set<Commit>, cur: Cursor, head: Commit, prior: Commit)
    requires m.alive && m.processed == [] && BufferOk(m) && m.cursor.None? && scan.key.Backward? && scan.range.floor.None?
    requires scan.key !in m.store.cursors && m.store == s.(cursors := m.store.cursors)
    requires scan.key in s.cursors && s.cursors[scan.key] == cur && Certifies(s, scan.key, cur) && Matches(cur, scan)
    requires Anc(cur.head, head) && Sighted(m, head, prior)
    requires forall c :: c in checkpoint <==> Row(scan.key, c) in s.rows
    requires checkpoint != {}
    ensures Vouched(s, Extend(m, scan, checkpoint, cur, head).store, scan.key, prior, head)
  {
    var pr := scan.range.(floor := Some(cur.head));
    var p := Prefix(m, scan, checkpoint, cur, head);
    NoCursorVouches(s, m, scan, checkpoint, head, pr, prior, head);
    hide Vouched, Sighted, Certifies, Reach, Lists, Anc;
    if !p.alive { return; }
    PrefixRows(s, m, scan, checkpoint, cur, head, prior);
    if !ReachedOldHead(p, scan, cur) {
      NoCursorVouches(s, p.(cursor := None), scan, checkpoint, head, scan.range, prior, head);
      return;
    }
    PrefixLast(m, scan, checkpoint, cur, head);
    ReachedIsReach(p, s, scan, cur, head);
    MoveOn(s, m, p, scan, checkpoint, cur, head, prior);
  }

  /** The moved cursor is saved, and the scan goes on below its frontier. */
  lemma MoveOn(s: Tables, m: Memory, p: Memory, scan: Scan, checkpoint: set<Commit>, cur: Cursor, head: Commit, prior: Commit)
    requires p.alive && scan.key.Backward? && scan.range.floor.None? && Sighted(m, head, prior) && Prefixed(s, m, p, scan, cur, head, prior)
    requires scan.key !in p.store.cursors
    requires scan.key in s.cursors && s.cursors[scan.key] == cur && Certifies(s, scan.key, cur) && Matches(cur, scan)
    requires Anc(cur.head, head) && Reach(head, cur.head, cur.since)
    requires forall c :: c in checkpoint <==> Row(scan.key, c) in s.rows
    ensures var w := Write(p, ApplyBatch(p.store, SaveCursor(scan.key, cur.(head := head))));
      && Vouched(s, w.store, scan.key, prior, head)
      && (w.alive ==> Vouched(s, Resume(w, scan, checkpoint, cur.(head := head)).store, scan.key, prior, head))
  {
    hide Sighted, Reach, Lists, Anc;
    var moved := cur.(head := head);
    var saved := ApplyBatch(p.store, SaveCursor(scan.key, moved));
    assert saved == p.store.(cursors := p.store.cursors[scan.key := moved]);
    MovedVouches(s, p.store, saved, scan, cur, head, prior);
    hide Vouched;
    BelowPrefix(s, p, scan, checkpoint, cur, head, prior);
    var w := Write(p, saved);
    NothingYet(s, p.store, scan.key, prior, head);
    if w.alive {
      ResumeVouches(s, w, scan, checkpoint, moved, prior);
    }
  }

  lemma NothingYet(s: Tables, t: Tables, key: ScanKey, prior: Commit, head: Commit)
    requires key !in t.cursors
    ensures Vouched(s, t, key, prior, head)
  {
  }

  /** What the prefix leaves. */
  ghost predicate Prefixed(s: Tables, m: Memory, p: Memory, scan: Scan, cur: Cursor, head: Commit, prior: Commit) {
    var pr := scan.range.(floor := Some(cur.head));
    && BufferOk(p) && p.processed == []
    && (forall c :: Row(scan.key, c) in p.store.rows <==> Row(scan.key, c) in s.rows || (Lists(head, pr, c) && Anc(c, prior)))
    && (forall c :: c in p.seen ==> c in m.seen || Lists(head, pr, c)) && m.seen <= p.seen
  }

  lemma PrefixRows(s: Tables, m: Memory, scan: Scan, checkpoint: set<Commit>, cur: Cursor, head: Commit, prior: Commit)
    requires m.alive && m.processed == [] && BufferOk(m) && scan.key.Backward? && m.store.rows == s.rows
    requires Certifies(s, scan.key, cur) && Sighted(m, head, prior)
    requires forall c :: c in checkpoint <==> Row(scan.key, c) in s.rows
    requires Prefix(m, scan, checkpoint, cur, head).alive
    ensures Prefixed(s, m, Prefix(m, scan, checkpoint, cur, head), scan, cur, head, prior)
  {
    var pr := scan.range.(floor := Some(cur.head));
    var b := m.(last := None);
    forall c | Lists(head, pr, c) ensures c !in checkpoint && (c in b.seen <==> !Anc(c, prior)) {
      ReachAnc(head, c, pr.since);
      if c in checkpoint {
        ReachAnc(cur.head, c, cur.since);
      }
    }
    PrefixWalk(b, scan, checkpoint, head, pr, prior);
    var w := Walk(b, scan, checkpoint, head, pr);
    if w.alive {
      FlushKeepsVirtual(w, scan.key);
    }
  }

  /** The last commit of the prefix, if any, is one it lists. */
  lemma PrefixLast(m: Memory, scan: Scan, checkpoint: set<Commit>, cur: Cursor, head: Commit)
    requires BufferOk(m)
    ensures var p := Prefix(m, scan, checkpoint, cur, head);
      p.last.Some? ==> Lists(head, scan.range.(floor := Some(cur.head)), p.last.value)
  {
    WalkLast(m.(last := None), scan, checkpoint, head, head, scan.range.(floor := Some(cur.head)));
  }

  lemma {:induction false} WalkLast(m: Memory, scan: Scan, checkpoint: set<Commit>, at: Commit, tip: Commit, r: Range)
    requires BufferOk(m) && (m.last.Some? ==> Lists(tip, r, m.last.value)) && forall x :: Lists(at, r, x) ==> Lists(tip, r, x)
    ensures var n := Walk(m, scan, checkpoint, at, r); n.last.Some? ==> Lists(tip, r, n.last.value)
    decreases at
  {
    if m.alive && !Below(at, r.floor) && r.since <= at.time {
      var next := if Within(r, at) then Process(m, scan, checkpoint, at) else m;
      if Within(r, at) {
        assert Lists(at, r, at);
        ProcessCases(m, scan, checkpoint, at);
      }
      if at.Child? {
        forall x | Lists(at.parent, r, x) ensures Lists(tip, r, x) {
          assert Lists(at, r, x);
        }
        WalkLast(next, scan, checkpoint, at.parent, tip, r);
      }
    }
  }

  /** What lies below the frontier has nothing to do with the prefix. */
  lemma BelowPrefix(s: Tables, p: Memory, scan: Scan, checkpoint: set<Commit>, cur: Cursor, head: Commit, prior: Commit)
    requires exists m: Memory :: Sighted(m, head, prior) && Prefixed(s, m, p, scan, cur, head, prior)
    requires Certifies(s, scan.key, cur) && Anc(cur.head, head) && scan.key in s.cursors && s.cursors[scan.key] == cur
    requires forall c :: c in checkpoint <==> Row(scan.key, c) in s.rows
    ensures forall c | c in checkpoint || Stretch(s, scan.key, c) :: Anc(cur.frontier.value, c)
    ensures forall c | Anc(c, cur.frontier.value) && c != cur.frontier.value :: c in p.seen <==> !Anc(c, prior)
  {
    var m: Memory :| Sighted(m, head, prior) && Prefixed(s, m, p, scan, cur, head, prior);
    var f := cur.frontier.value;
    assert Lists(cur.head, RangeOf(cur), f);
    ReachAnc(cur.head, f, cur.since);
    forall c | Anc(c, f) && c != f ensures c in p.seen <==> !Anc(c, prior) {
      AncTrans(c, f, cur.head);
      AncTrans(c, cur.head, head);
    }
  }

  // ---- a scan ------------------------------------------------------------------------------

  /** A backward scan, cut off anywhere, leaves a cursor that vouches for exactly those commits, or none. */
  lemma ScanVouches(m: Memory, scan: Scan, head: Commit, prior: Commit)
    requires m.alive && m.processed == [] && BufferOk(m) && scan.key.Backward? && scan.range.floor.None?
    requires Certified(m.store, scan.key) && Sighted(m, head, prior)
    ensures Vouched(m.store, ScanRange(m, scan, head).store, scan.key, prior, head)
  {
    var checkpoint, l, key := RowsOf(m.store, scan.key), Loaded(m, scan.key), scan.key;
    forall c ensures c in checkpoint <==> Row(key, c) in m.store.rows {
      RowsOfExact(m.store, key, c);
    }
    Unchanged(m.store, key, prior, head);
    if l.fuel == 0 { return; }
    if key !in l.store.cursors {
      if checkpoint == {} {
        RestartVouches(l, scan, head, prior);
      } else {
        NoCursorVouches(m.store, l.(cursor := None), scan, checkpoint, head, scan.range, prior, head);
      }
      return;
    }
    var cur, usable := l.store.cursors[key], UsableCursor(l.store, scan, head);
    if usable && cur.head == head {
      var f := cur.frontier.value;
      ReachAnc(cur.head, f, cur.since);
      forall c | Anc(c, f) && c != f ensures c in l.seen <==> !Anc(c, prior) {
        AncTrans(c, f, head);
      }
      ResumeVouches(m.store, l, scan, checkpoint, cur, prior);
      return;
    }
    var cleared := ApplyBatch(l.store, ClearCursor(key));
    assert cleared == l.store.(cursors := l.store.cursors - {key});
    var b := Write(l, cleared);
    if b.alive {
      assert cur.frontier.value in checkpoint;
      if usable {
        ExtendVouches(m.store, b, scan, checkpoint, cur, head, prior);
      } else {
        NoCursorVouches(m.store, b.(cursor := None), scan, checkpoint, head, scan.range, prior, head);
      }
    }
  }

  /** Where nothing has happened the cursor vouches for what it vouched for. */
  lemma Unchanged(s: Tables, key: ScanKey, prior: Commit, head: Commit)
    requires Certified(s, key)
    ensures Vouched(s, s, key, prior, head)
  {
  }

  // ---- one call ----------------------------------------------------------------------------

  /** The rows and the cursor of a scan. */
  ghost predicate Same(s: Tables, t: Tables, key: ScanKey) {
    && (forall c :: Row(key, c) in t.rows <==> Row(key, c) in s.rows)
    && (key in t.cursors <==> key in s.cursors) && (key in s.cursors ==> t.cursors[key] == s.cursors[key])
  }

  lemma SameVouches(s: Tables, t: Tables, u: Tables, key: ScanKey, prior: Commit, head: Commit)
    requires Vouched(s, t, key, prior, head) && (key in u.cursors ==> Same(t, u, key))
    ensures Vouched(s, u, key, prior, head)
  {
    if key in u.cursors {
      assert forall c :: Stretch(u, key, c) <==> Stretch(t, key, c);
    }
  }

  lemma FromSame(s: Tables, t: Tables, u: Tables, key: ScanKey, prior: Commit, head: Commit)
    requires Vouched(t, u, key, prior, head) && Same(s, t, key)
    ensures Vouched(s, u, key, prior, head)
  {
    assert forall c :: Stretch(t, key, c) <==> Stretch(s, key, c);
    assert forall c :: Kept(t, key, prior, c) <==> Kept(s, key, prior, c);
  }

  /** A cursor that survives reconciliation has kept all its rows. */
  lemma FinalizeSame(s: Tables, f: Finish, key: ScanKey)
    requires key in Finalize(s, f).cursors
    ensures Same(s, Finalize(s, f), key)
  {
    var t := Finalize(s, f);
    forall c ensures Row(key, c) in t.rows <==> Row(key, c) in s.rows {
      if Row(key, c) in s.rows && c in f.remove {
        assert Row(key, c).key in set row | row in s.rows && row.commit in f.remove :: row.key;
      }
    }
  }

  /** After a complete forward range, or with HEAD where it was recorded, the call has seen what is above the recorded head. */
  lemma ForwardSights(s: Tables, head: Commit, req: Request, fault: Fault)
    requires Sound(s) && s.state.Some? && Rebasable(s.state, head)
    ensures var p := PlanFor(s.state, head, req); var m := ScanIf(Start(s, req, fault), p.first, head);
      m.alive ==> Sighted(m, head, s.state.value.head)
  {
    var p := PlanFor(s.state, head, req);
    var prior, m0 := s.state.value.head, Start(s, req, fault);
    var m := ScanIf(m0, p.first, head);
    StartPrimary(s, head, req, fault);
    if m.alive && p.first.Some? {
      var scan := p.first.value;
      PrimaryReady(s, m0, head, {}, scan);
      ScanRangeOk(m0, scan, head);
      MergeBaseLowest(prior, head);
      forall c | Anc(c, head) ensures c in m.seen <==> !Anc(c, prior) {
        ReachZero(head, c);
        if Anc(c, scan.range.floor.value) {
          AncTrans(c, scan.range.floor.value, prior);
        }
        assert Lists(head, scan.range, c) <==> !Anc(c, prior);
        if Lists(head, scan.range, c) {
          assert Dealt(m, scan, RowsOf(s, scan.key), c);
        }
        assert c in m.seen ==> c in m0.seen || Lists(head, scan.range, c);
      }
    }
  }

  lemma FrameSame(s: Tables, t: Tables, head: Commit, keys: set<ScanKey>, key: ScanKey)
    requires Frame(s, t, head, keys) && key !in keys
    ensures Same(s, t, key)
  {
  }

  lemma PrimaryVouches(s: Tables, head: Commit, req: Request, fault: Fault, key: ScanKey)
    requires Sound(s) && s.state.Some? && Rebasable(s.state, head) && key.Backward?
    ensures Vouched(s, AfterPrimary(s, head, req, fault).store, key, s.state.value.head, head)
  {
    var p, prior := PlanFor(s.state, head, req), s.state.value.head;
    var m := ScanIf(Start(s, req, fault), p.first, head);
    ForwardAchieved(s, head, req, fault);
    FrameSame(s, m.store, head, KeyOf(p.first), key);
    assert Certified(s, key);
    Unchanged(s, key, prior, head);
    SameVouches(s, s, m.store, key, prior, head);
    if m.alive && p.backward.Some? {
      if p.backward.value.key == key {
        ForwardSights(s, head, req, fault);
        assert Certified(m.store, key);
        ScanVouches(m, p.backward.value, head, prior);
        FromSame(s, m.store, ScanRange(m, p.backward.value, head).store, key, prior, head);
      } else {
        PrimaryScan(s, m, head, KeyOf(p.first), p.backward.value);
        var n := ScanRange(m, p.backward.value, head);
        FrameSame(s, n.store, head, KeyOf(p.first) + {p.backward.value.key}, key);
        SameVouches(s, s, n.store, key, prior, head);
      }
    }
  }

  lemma FinalizeVouches(s: Tables, t: Tables, f: Finish, key: ScanKey, prior: Commit, head: Commit)
    requires Vouched(s, t, key, prior, head)
    ensures Vouched(s, Finalize(t, f), key, prior, head)
  {
    if key in Finalize(t, f).cursors {
      FinalizeSame(t, f, key);
    }
    SameVouches(s, t, Finalize(t, f), key, prior, head);
  }

  /** A fallback leaves the rows and cursors of other scans alone. */
  lemma FallbackVouches(s: Tables, m: Memory, head: Commit, req: Request, key: ScanKey, prior: Commit)
    requires Rebasable(s.state, head) && key.Backward? && Vouched(s, m.store, key, prior, head)
    requires var p := PlanFor(s.state, head, req);
      m.alive ==> Settling(s, m, head, p, PrimaryKeys(p)) && SeenSettled(m, head, p)
    ensures Vouched(s, ScanIf(m, Some(PlanFor(s.state, head, req).fallback), head).store, key, prior, head)
  {
    var p := PlanFor(s.state, head, req);
    if m.alive {
      FallbackReady(s, m, head, p, PrimaryKeys(p));
      ScanRangeOk(m, p.fallback, head);
      var n := ScanRange(m, p.fallback, head);
      assert Same(m.store, n.store, key);
      SameVouches(s, m.store, n.store, key, prior, head);
    }
  }

  /** One call, cut off anywhere: the backward cursor it leaves has rows for exactly the commits of its stretch that had
      one before, or are new to the stretch and below the head recorded when the call began. */
  lemma CallVouches(s: Tables, run: Run, key: ScanKey)
    requires Sound(s) && Mono(run.head) && s.state.Some? && key.Backward?
    ensures Vouched(s, After(s, run), key, s.state.value.head, run.head)
  {
    hide Vouched, Sound, Settling, Achieved;
    var prior, head := s.state.value.head, run.head;
    if !Rebasable(s.state, head) {
      SoundCertified(s, key);
      Unchanged(s, key, prior, head);
      return;
    }
    var p := PlanFor(s.state, head, run.req);
    var m1 := AfterPrimary(s, head, run.req, run.fault);
    PrimaryVouches(s, head, run.req, run.fault, key);
    if !m1.alive { return; }
    PrimaryAchieved(s, head, run.req, run.fault);
    FinalizeVouches(s, m1.store, Finish(head, p.since, p.remove, {}, PrimaryKeys(p)), key, prior, head);
    var m2 := if FallsBack(s, run.req, run.fault) then Publish(m1, p, head) else m1;
    var m3 := BeforeClose(s, head, run.req, run.fault);
    if FallsBack(s, run.req, run.fault) {
      PublishSettles(s, m1, head, run.req);
      FallbackVouches(s, m2, head, run.req, key, prior);
    }
    if m3.alive {
      FinalizeVouches(s, m3.store, LastFinish(m3, p, head, FallsBack(s, run.req, run.fault)), key, prior, head);
    }
  }

  lemma SoundCertified(s: Tables, key: ScanKey)
    requires Sound(s)
    ensures Certified(s, key)
  {
  }

  // ---- exactness ---------------------------------------------------------------------------

  /** Every commit of the cursor's stretch has a row, and no other has. */
  ghost predicate AllRows(t: Tables, key: ScanKey) {
    forall c :: Row(key, c) in t.rows <==> Stretch(t, key, c)
  }

  /** A backward scan that starts without rows leaves an exact cursor if and only if it lists no commit above the recorded
      head on the way to its frontier; always, when HEAD is where it was recorded. */
  lemma FreshBackwardCursor(s: Tables, run: Run, key: ScanKey)
    requires Sound(s) && Mono(run.head) && s.state.Some? && key.Backward? && (forall c :: Row(key, c) !in s.rows)
    requires key in After(s, run).cursors
    ensures var t := After(s, run);
      && t.cursors[key].head == run.head
      && (AllRows(t, key) <==> !exists c :: Stretch(t, key, c) && Anc(c, run.head) && !Anc(c, s.state.value.head))
      && (run.head == s.state.value.head ==> AllRows(t, key))
  {
    hide Sound;
    var t := After(s, run);
    CallVouches(s, run, key);
    SoundCertified(s, key);
    assert key !in s.cursors;
    forall c ensures Row(key, c) in t.rows <==> Stretch(t, key, c) && Anc(c, s.state.value.head) {
    }
    forall c | Stretch(t, key, c) ensures Anc(c, run.head) {
      ReachAnc(run.head, c, t.cursors[key].since);
    }
  }

  /** The head that was recorded when the call began in which the cursor came to cover the commit. */
  ghost function CoveredUnder(runs: seq<Run>, key: ScanKey, c: Commit): Option<Commit>
    decreases |runs|
  {
    if runs == [] || !Stretch(AfterAll(EMPTY, runs), key, c) then None else
    var earlier := runs[..|runs| - 1];
    var s := AfterAll(EMPTY, earlier);
    if Stretch(s, key, c) then CoveredUnder(earlier, key, c)
    else if s.state.Some? then Some(s.state.value.head) else None
  }

  /** Over every run: a backward cursor has rows for exactly the commits of its stretch that were below the recorded
      head when it came to cover them. */
  lemma {:induction false} BackwardRows(runs: seq<Run>, key: ScanKey, c: Commit)
    requires (forall run :: run in runs ==> Mono(run.head)) && key.Backward? && key in AfterAll(EMPTY, runs).cursors
    ensures var s := AfterAll(EMPTY, runs);
      && (Stretch(s, key, c) ==> CoveredUnder(runs, key, c).Some?)
      && (Row(key, c) in s.rows <==> Stretch(s, key, c) && Anc(c, CoveredUnder(runs, key, c).value))
    decreases |runs|
  {
    if runs != [] {
      var earlier, last := runs[..|runs| - 1], runs[|runs| - 1];
      var s, t := AfterAll(EMPTY, earlier), AfterAll(EMPTY, runs);
      assert last in runs;
      ReachableSound(earlier);
      if s.state.None? {
        NoBackwardYet(s, last, key);
        assert false;
      } else {
        CallVouches(s, last, key);
        hide Sound, After;
        if Stretch(s, key, c) {
          BackwardRows(earlier, key, c);
        }
      }
    }
  }

  /** Without a recorded head there is no backward scan. */
  lemma NoBackwardYet(s: Tables, run: Run, key: ScanKey)
    requires Sound(s) && Mono(run.head) && s.state.None? && key.Backward?
    ensures key !in After(s, run).cursors
  {
    IndexKeepsSound(s, run);
    var t := After(s, run);
    if key in t.cursors {
      assert Certified(t, key);
      NoBackwardRows(s, run, key, t.cursors[key].frontier.value);
    }
  }

  lemma NoBackwardRows(s: Tables, run: Run, key: ScanKey, c: Commit)
    requires Sound(s) && Mono(run.head) && s.state.None? && key.Backward?
    ensures Row(key, c) !in After(s, run).rows
  {
    hide Sound, Settling, Achieved, SeenSettled, ScanRange;
    var p := PlanFor(s.state, run.head, run.req);
    var m1 := AfterPrimary(s, run.head, run.req, run.fault);
    PrimaryAchieved(s, run.head, run.req, run.fault);
    NoneToBegin(s, key, c);
    assert Row(key, c) !in m1.store.rows;
    if m1.alive && FallsBack(s, run.req, run.fault) {
      PublishSettles(s, m1, run.head, run.req);
      var m2 := Publish(m1, p, run.head);
      assert Row(key, c) !in m2.store.rows;
      if m2.alive {
        FallbackReady(s, m2, run.head, p, PrimaryKeys(p));
        FallbackAddsNone(m2, p, run.head, key, c);
      }
    }
  }

  lemma NoneToBegin(s: Tables, key: ScanKey, c: Commit)
    requires Sound(s) && s.state.None? && key.Backward?
    ensures Row(key, c) !in s.rows
  {
  }

  lemma FallbackAddsNone(m: Memory, p: Plan, head: Commit, key: ScanKey, c: Commit)
    requires Ready(m, p.fallback) && p.fallback.key != key && Row(key, c) !in m.store.rows
    ensures Row(key, c) !in ScanRange(m, p.fallback, head).store.rows
  {
    ScanRangeOk(m, p.fallback, head);
  }

  /** Over every run: a backward cursor is exact if and only if every commit of its stretch was below the recorded head
      when the cursor came to cover it. */
  lemma BackwardCursorExact(runs: seq<Run>, key: ScanKey)
    requires (forall run :: run in runs ==> Mono(run.head)) && key.Backward? && key in AfterAll(EMPTY, runs).cursors
    ensures var s := AfterAll(EMPTY, runs);
      AllRows(s, key) <==>
        forall c | Stretch(s, key, c) :: CoveredUnder(runs, key, c).Some? && Anc(c, CoveredUnder(runs, key, c).value)
  {
    hide AfterAll, Stretch;
    forall c ensures var s := AfterAll(EMPTY, runs);
      && (Stretch(s, key, c) ==> CoveredUnder(runs, key, c).Some?)
      && (Row(key, c) in s.rows <==> Stretch(s, key, c) && Anc(c, CoveredUnder(runs, key, c).value))
    {
      BackwardRows(runs, key, c);
    }
  }
}
