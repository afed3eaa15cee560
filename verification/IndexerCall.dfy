/** One call of `Index`: what the tables satisfy wherever it is cut off, and what it has done
    when it completes. Commit times are assumed never to increase towards the root. */
module IndexerCall {
  import opened Wrappers
  import opened CommitGraph
  import opened HistoryTables
  import opened IndexerSpec
  import opened IndexerWalk
  import opened IndexerCursor
  import opened IndexerScan

  /** A primary scan's progress row certifies that its commit is stored. */
  ghost predicate PrimaryHeld(s: Tables) {
    forall k: ScanKey, c :: Row(k, c) in s.rows && !k.Fallback? ==> Held(s, c)
  }

  /** Where the rows of a forward or backward scan can lie. */
  predicate Placed(row: Row) {
    match row.key
    case Initial => true
    case Forward(from) => !Anc(row.commit, from)
    case Backward(since, until) => since <= row.commit.time <= until && until != 0
    case Fallback(_) => true
  }

  /** The recorded range never claims more than is stored. */
  ghost predicate NoOverclaim(s: Tables) {
    s.state.Some? ==> forall c :: Anc(c, s.state.value.head) && s.state.value.since <= c.time ==> Held(s, c)
  }

  ghost predicate Sound(s: Tables) {
    && PrimaryHeld(s)
    && (forall k :: Certified(s, k))
    && (forall row :: row in s.rows ==> Placed(row))
    && (s.state.None? ==> forall row :: row in s.rows ==> row.key.Initial? || row.key.Fallback?)
    && NoOverclaim(s)
  }

  // ---- scans keep soundness -----------------------------------------------------------------

  predicate Fits(scan: Scan, state: Option<HistoryState>, head: Commit) {
    match scan.key
    case Initial => scan.range.floor.None?
    case Forward(from) => state.Some? && from == state.value.head && MergeBase(from, head).Some? &&
                         scan.range.floor == MergeBase(from, head)
    case Backward(since, until) => state.Some? && scan.range == Range(None, since, until) && until != 0
    case Fallback(_) => scan.range == Range(None, 0, 0)
  }

  lemma NewRowPlaced(scan: Scan, state: Option<HistoryState>, head: Commit, c: Commit)
    requires Fits(scan, state, head) && Lists(head, scan.range, c)
    ensures Placed(Row(scan.key, c))
  {
    ReachAnc(head, c, scan.range.since);
    if scan.key.Forward? {
      MergeBaseLowest(scan.key.from, head);
    }
  }

  lemma HeldGrows(s: Tables, t: Tables, c: Commit)
    requires Held(s, c) && s.events <= t.events && s.diagnostics <= t.diagnostics
    ensures Held(t, c)
  {
  }

  lemma PrimaryHeldGrows(s: Tables, t: Tables, key: ScanKey, tip: Commit, r: Range)
    requires PrimaryHeld(s) && Step(s, t, key, tip, r)
    ensures PrimaryHeld(t)
  {
    forall k: ScanKey, c | Row(k, c) in t.rows && !k.Fallback? ensures Held(t, c) {
      if Row(k, c) in s.rows {
        HeldGrows(s, t, c);
      } else {
        assert Row(k, c).key == key;
      }
    }
  }

  lemma SoundGrows(s: Tables, t: Tables, scan: Scan, head: Commit)
    requires Sound(s) && Fits(scan, s.state, head)
    requires Step(s, t, scan.key, head, scan.range) && Certified(t, scan.key)
    ensures Sound(t)
  {
    PrimaryHeldGrows(s, t, scan.key, head, scan.range);
    forall k ensures Certified(t, k) {
      if k != scan.key {
        OthersCertified(s, t, scan.key, k);
      }
    }
    forall row | row in t.rows ensures Placed(row) {
      if row !in s.rows {
        NewRowPlaced(scan, s.state, head, row.commit);
        assert row == Row(scan.key, row.commit);
      }
    }
    if t.state.Some? {
      forall c | Anc(c, t.state.value.head) && t.state.value.since <= c.time ensures Held(t, c) {
        HeldGrows(s, t, c);
      }
    }
  }

  // ---- finalizing keeps soundness -----------------------------------------------------------

  /** When finalizing is right: nothing a claim covers is removed, and all of it is stored. */
  ghost predicate FinishOk(s: Tables, f: Finish) {
    && (forall c :: c in f.remove && Anc(c, f.head) ==> s.state.None? && c.time < f.since)
    && (forall c :: Anc(c, f.head) && f.since <= c.time ==> Held(s, c))
    && (s.state.Some? ==> forall c :: Anc(c, f.head) && !Anc(c, s.state.value.head) ==> Held(s, c))
  }

  lemma HeldStays(s: Tables, f: Finish, c: Commit)
    requires Held(s, c) && c !in f.remove
    ensures Held(Finalize(s, f), c)
  {
    NotesOwn(c, |c.changes|);
  }

  lemma FinalizeCertified(s: Tables, f: Finish, k: ScanKey)
    requires FinishOk(s, f) && Certified(s, k)
    ensures Certified(Finalize(s, f), k)
  {
    var t := Finalize(s, f);
    if k in t.cursors {
      var cur := t.cursors[k];
      forall c ensures Row(k, c) in t.rows <==> Row(k, c) in s.rows {
        if Row(k, c) in s.rows && c in f.remove {
          assert Row(k, c).key in set row | row in s.rows && row.commit in f.remove :: row.key;
        }
      }
      forall c | Lists(cur.head, RangeOf(cur), c) && Anc(cur.frontier.value, c)
        ensures Row(k, c) in t.rows || Excused(t, k, cur.cutoff, c)
      {
        if Row(k, c) !in s.rows && Settled(s, c) && Anc(c, f.head) {
          HeldStays(s, f, c);
        }
      }
    }
  }

  lemma FinalizeSound(s: Tables, f: Finish)
    requires Sound(s) && FinishOk(s, f)
    ensures Sound(Finalize(s, f))
  {
    var t := Finalize(s, f);
    forall k: ScanKey, c | Row(k, c) in t.rows && !k.Fallback? ensures Held(t, c) {
      HeldStays(s, f, c);
    }
    forall k ensures Certified(t, k) {
      FinalizeCertified(s, f, k);
    }
    forall c | Anc(c, f.head) && f.since <= c.time ensures Held(t, c) {
      HeldStays(s, f, c);
    }
  }

  // ---- the primary ranges -------------------------------------------------------------------

  /** The memory after some primary ranges, all of them complete. `keys` are theirs. */
  ghost predicate Primary(s: Tables, m: Memory, head: Commit, keys: set<ScanKey>) {
    && m.alive && m.processed == [] && BufferOk(m) && NoneMissing(m.store, m.missing) && Sound(m.store)
    && Frame(s, m.store, head, keys)
    && (forall c :: c in m.seen ==> Held(m.store, c) && Anc(c, head))
    && (forall c :: c in m.encountered ==> Anc(c, head))
    && (forall c :: c in m.loaded <==> exists k :: k in keys && Row(k, c) in s.rows)
  }

  /** What scans at `head` under `keys` may have changed. */
  ghost predicate Frame(s: Tables, t: Tables, head: Commit, keys: set<ScanKey>) {
    && t.state == s.state && t.coverage == s.coverage
    && s.events <= t.events && s.diagnostics <= t.diagnostics && s.rows <= t.rows
    && (forall row :: row in t.rows ==> row in s.rows || (row.key in keys && Anc(row.commit, head)))
    && (forall e :: e in t.events ==> e in s.events || (Anc(e.commit, head) && e.key in Keys(e.commit)))
    && (forall d :: d in t.diagnostics ==> d in s.diagnostics || (Anc(d.commit, head) && d in Notes(d.commit)))
    && (forall k :: k !in keys ==> (k in t.cursors <==> k in s.cursors) && (k in s.cursors ==> t.cursors[k] == s.cursors[k]))
  }

  lemma FrameStep(s: Tables, t: Tables, u: Tables, scan: Scan, head: Commit, keys: set<ScanKey>)
    requires Frame(s, t, head, keys) && Step(t, u, scan.key, head, scan.range)
    ensures Frame(s, u, head, keys + {scan.key})
  {
    forall c | Lists(head, scan.range, c) ensures Anc(c, head) {
      ReachAnc(head, c, scan.range.since);
    }
  }

  lemma PrimaryReady(s: Tables, m: Memory, head: Commit, keys: set<ScanKey>, scan: Scan)
    requires Primary(s, m, head, keys)
    requires forall c :: c in m.seen ==> Excused(m.store, scan.key, scan.cutoff, c)
    ensures Ready(m, scan)
  {
    forall c | c in m.seen ensures Keys(c) !! m.missing {
      HeldQuiet(m.store, m.missing, c);
    }
  }

  lemma HeldQuiet(t: Tables, missing: set<Key>, c: Commit)
    requires Held(t, c) && NoneMissing(t, missing)
    ensures Keys(c) !! missing
  {
    forall k | k in Keys(c) ensures k !in missing {
      assert EventId(c, k) in t.events;
    }
  }

  /** One primary range, complete: every commit it lists is stored, and it has met all its checkpoints. */
  ghost predicate Scanned(s: Tables, m: Memory, n: Memory, head: Commit, keys: set<ScanKey>, scan: Scan) {
    && Primary(s, n, head, keys + {scan.key}) && m.encountered <= n.encountered
    && m.store.events <= n.store.events && m.store.diagnostics <= n.store.diagnostics
    && (forall x :: Lists(head, scan.range, x) ==> Held(n.store, x) || Excused(n.store, scan.key, scan.cutoff, x))
    && (forall x :: Lists(head, scan.range, x) && Row(scan.key, x) in s.rows ==> x in n.encountered)
    && (forall x :: x in n.seen ==> x in m.seen || Lists(head, scan.range, x))
  }

  lemma PrimaryScan(s: Tables, m: Memory, head: Commit, keys: set<ScanKey>, scan: Scan)
    requires Primary(s, m, head, keys) && scan.key !in keys && !scan.key.Fallback?
    requires Fits(scan, s.state, head)
    requires forall c :: c in m.seen ==> Excused(m.store, scan.key, scan.cutoff, c)
    ensures var n := ScanRange(m, scan, head);
      && Sound(n.store) && Frame(s, n.store, head, keys + {scan.key}) && n.missing <= m.missing
      && (n.alive ==> Scanned(s, m, n, head, keys, scan))
  {
    PrimaryReady(s, m, head, keys, scan);
    ScanRangeOk(m, scan, head);
    var n := ScanRange(m, scan, head);
    SoundGrows(m.store, n.store, scan, head);
    FrameStep(s, m.store, n.store, scan, head, keys);
    forall c ensures c in RowsOf(m.store, scan.key) <==> Row(scan.key, c) in s.rows {
      RowsOfExact(m.store, scan.key, c);
    }
    forall c | Lists(head, scan.range, c) ensures Anc(c, head) {
      ReachAnc(head, c, scan.range.since);
    }
    if n.alive {
      forall c | c in n.seen ensures Held(n.store, c) {
        if c in m.seen {
          HeldGrows(m.store, n.store, c);
        } else {
          assert Row(scan.key, c) in n.store.rows;
        }
      }
    }
  }

  /** What the primary ranges of a call have achieved when none was cut off. */
  ghost predicate Achieved(s: Tables, m: Memory, head: Commit, p: Plan) {
    && Primary(s, m, head, PrimaryKeys(p))
    && (forall c :: Anc(c, head) && p.since <= c.time ==> Held(m.store, c))
    && (s.state.Some? ==> forall c :: Anc(c, head) && !Anc(c, s.state.value.head) ==> Held(m.store, c))
    && (forall c :: c in m.loaded && Anc(c, head) && (s.state.Some? || p.since <= c.time) ==> c in m.encountered)
    && (s.state.None? ==> forall c :: c in m.seen ==> p.since <= c.time)
  }

  lemma StartPrimary(s: Tables, head: Commit, req: Request, fault: Fault)
    requires Sound(s)
    ensures Primary(s, Start(s, req, fault), head, {})
  {
    var m := Start(s, req, fault);
    forall e | e in m.store.events ensures e.key !in m.missing {
      assert HasEvent(s, e.key);
    }
  }

  lemma InitialAchieved(s: Tables, head: Commit, req: Request, fault: Fault)
    requires Sound(s) && Mono(head) && s.state.None?
    ensures var m := AfterPrimary(s, head, req, fault); var p := PlanFor(s.state, head, req);
      Sound(m.store) && Frame(s, m.store, head, PrimaryKeys(p)) && (m.alive ==> Achieved(s, m, head, p))
  {
    var p := PlanFor(s.state, head, req);
    var m0 := Start(s, req, fault);
    StartPrimary(s, head, req, fault);
    PrimaryScan(s, m0, head, {}, p.first.value);
    assert PrimaryKeys(p) == {} + {p.first.value.key};
    forall c | Anc(c, head) ensures p.since <= c.time <==> Lists(head, p.first.value.range, c) {
      MonoReach(head, c, p.since);
    }
    forall c | Lists(head, p.first.value.range, c) ensures p.since <= c.time {
      ReachAnc(head, c, p.since);
    }
  }

  /** After the forward range, if HEAD moved. */
  ghost predicate CaughtUp(s: Tables, m: Memory, head: Commit, keys: set<ScanKey>)
    requires s.state.Some?
  {
    && Primary(s, m, head, keys)
    && (forall c :: Anc(c, head) && !Anc(c, s.state.value.head) ==> Held(m.store, c))
    && (forall c :: c in m.loaded && Anc(c, head) ==> c in m.encountered)
  }

  lemma ForwardAchieved(s: Tables, head: Commit, req: Request, fault: Fault)
    requires Sound(s) && s.state.Some? && Rebasable(s.state, head)
    ensures var p := PlanFor(s.state, head, req); var m := ScanIf(Start(s, req, fault), p.first, head);
      Sound(m.store) && Frame(s, m.store, head, KeyOf(p.first)) && (m.alive ==> CaughtUp(s, m, head, KeyOf(p.first)))
  {
    var p := PlanFor(s.state, head, req);
    var prior := s.state.value.head;
    StartPrimary(s, head, req, fault);
    if p.first.Some? {
      var scan := p.first.value;
      PrimaryScan(s, Start(s, req, fault), head, {}, scan);
      MergeBaseLowest(prior, head);
      forall c | Anc(c, head) && !Anc(c, prior) ensures Lists(head, scan.range, c) {
        ReachZero(head, c);
        if Anc(c, scan.range.floor.value) {
          AncTrans(c, scan.range.floor.value, prior);
        }
      }
      assert {} + {scan.key} == KeyOf(p.first);
    }
  }

  /** The backward range joins on to the range claimed before. */
  lemma BackwardAchieved(s: Tables, m1: Memory, m: Memory, head: Commit, req: Request)
    requires Sound(s) && Mono(head) && s.state.Some? && Rebasable(s.state, head)
    requires var p := PlanFor(s.state, head, req);
      p.backward.Some? && CaughtUp(s, m1, head, KeyOf(p.first)) && Scanned(s, m1, m, head, KeyOf(p.first), p.backward.value)
    ensures Achieved(s, m, head, PlanFor(s.state, head, req))
  {
    var p := PlanFor(s.state, head, req);
    var prior := s.state.value;
    var scan := p.backward.value;
    assert PrimaryKeys(p) == KeyOf(p.first) + {scan.key};
    forall c | Anc(c, head) ensures req.since <= c.time <= prior.since ==> Lists(head, scan.range, c) {
      MonoReach(head, c, req.since);
    }
    forall c | Anc(c, head) && !Anc(c, prior.head) ensures Held(m.store, c) {
      HeldGrows(m1.store, m.store, c);
    }
    forall c | Anc(c, head) && p.since <= c.time ensures Held(m.store, c) {
      if Anc(c, prior.head) && prior.since <= c.time {
        HeldGrows(s, m.store, c);
      }
    }
    forall c | c in m.loaded && Anc(c, head) ensures c in m.encountered {
      var k :| k in KeyOf(p.first) + {scan.key} && Row(k, c) in s.rows;
      if k == scan.key {
        assert Placed(Row(scan.key, c));
      } else {
        assert c in m1.loaded;
      }
    }
  }

  lemma NoBackwardAchieved(s: Tables, m: Memory, head: Commit, req: Request)
    requires Sound(s) && s.state.Some? && Rebasable(s.state, head)
    requires var p := PlanFor(s.state, head, req); p.backward.None? && CaughtUp(s, m, head, KeyOf(p.first))
    ensures Achieved(s, m, head, PlanFor(s.state, head, req))
  {
    var p := PlanFor(s.state, head, req);
    assert PrimaryKeys(p) == KeyOf(p.first);
    forall c | Anc(c, head) && p.since <= c.time ensures Held(m.store, c) {
      if Anc(c, s.state.value.head) {
        HeldGrows(s, m.store, c);
      }
    }
  }

  lemma FrameWiden(s: Tables, t: Tables, head: Commit, keys: set<ScanKey>, more: set<ScanKey>)
    requires Frame(s, t, head, keys) && keys <= more
    ensures Frame(s, t, head, more)
  {
  }

  lemma ReturningAchieved(s: Tables, head: Commit, req: Request, fault: Fault)
    requires Sound(s) && Mono(head) && s.state.Some? && Rebasable(s.state, head)
    ensures var m := AfterPrimary(s, head, req, fault); var p := PlanFor(s.state, head, req);
      Sound(m.store) && Frame(s, m.store, head, PrimaryKeys(p)) && (m.alive ==> Achieved(s, m, head, p))
  {
    var p := PlanFor(s.state, head, req);
    var m1 := ScanIf(Start(s, req, fault), p.first, head);
    ForwardAchieved(s, head, req, fault);
    FrameWiden(s, m1.store, head, KeyOf(p.first), PrimaryKeys(p));
    if m1.alive && p.backward.Some? {
      PrimaryScan(s, m1, head, KeyOf(p.first), p.backward.value);
      assert PrimaryKeys(p) == KeyOf(p.first) + {p.backward.value.key};
      var m := AfterPrimary(s, head, req, fault);
      if m.alive {
        BackwardAchieved(s, m1, m, head, req);
      }
    } else if m1.alive {
      NoBackwardAchieved(s, m1, head, req);
    }
  }

  lemma PrimaryAchieved(s: Tables, head: Commit, req: Request, fault: Fault)
    requires Sound(s) && Mono(head) && Rebasable(s.state, head)
    ensures var m := AfterPrimary(s, head, req, fault); var p := PlanFor(s.state, head, req);
      Sound(m.store) && Frame(s, m.store, head, PrimaryKeys(p)) && (m.alive ==> Achieved(s, m, head, p))
  {
    if s.state.None? {
      InitialAchieved(s, head, req, fault);
    } else {
      ReturningAchieved(s, head, req, fault);
    }
  }
}
