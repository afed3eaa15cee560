/** Concrete runs in which the indexer falls short of what one might expect of it. */
module IndexerExamples {
  import opened Wrappers
  import opened CommitGraph
  import opened HistoryTables
  import opened IndexerSpec
  import opened IndexerCursor
  import opened IndexerTheorems

  const PLENTY := Fault(100, false, false)
  const ALL := Request(0, multiset{}, {})

  const WGET := Key("wget", Version)
  const ADDED := Change("A", "", "wget.rb", Some(WGET), [])
  const BASE := Root(10, [], 0)
  const TOP := Child(BASE, 20, [ADDED], 0)

  lemma AddedReads()
    ensures Reads(ADDED) == 1 && Relevant(ADDED)
    ensures Keys(TOP) == {WGET} && ReadsUpTo(TOP, 1) == 1
    ensures KeysUpTo(TOP, 1) == {WGET}
  {
    assert ADDED.path[4..] == ".rb";
    assert KeysUpTo(TOP, 0) == {};
    assert TOP.changes[0] == ADDED;
    assert ReadsUpTo(TOP, 0) == 0;
  }

  /** Index a root without changes, completely. */
  lemma IndexBase()
    ensures After(EMPTY, Run(BASE, ALL, PLENTY)) == Tables({}, {}, {}, map[], {}, Some(HistoryState(BASE, 0)))
  {
    var p := PlanFor(None, BASE, ALL);
    var scan := Scan(Initial, Range(None, 0, 0), 0);
    var m := Start(EMPTY, ALL, PLENTY);
    assert m.missing == {};
    var unset := Cursor(BASE, None, None, 0, 0, 0);
    var b := m.(cursor := Some(unset));
    assert RowsOf(EMPTY, Initial) == {};
    assert Loaded(m, Initial) == m;
    var r := Recorded(b.(last := Some(BASE), encountered := {BASE}, seen := {BASE}), scan, BASE);
    assert ReadsUpTo(BASE, 0) == 0;
    assert Process(b, scan, {}, BASE) == Flush(r, Initial);
    var w := Walk(b, scan, {}, BASE, scan.range);
    assert w == Flush(r, Initial);
    var n := ScanRange(m, scan, BASE);
    assert n == w;
    assert AfterPrimary(EMPTY, BASE, ALL, PLENTY) == n;
    assert BeforeClose(EMPTY, BASE, ALL, PLENTY) == n;
    assert n.store.rows == {Row(Initial, BASE)};
    assert n.loaded - n.encountered == {};
    var f := Finish(BASE, 0, {}, {}, {Initial});
    assert PrimaryKeys(p) + {} == {Initial};
    assert Finalize(n.store, f) == Tables({}, {}, {}, map[], {}, Some(HistoryState(BASE, 0)));
  }

  const AT_BASE := Tables({}, {}, {}, map[], {}, Some(HistoryState(BASE, 0)))
  const TOP_SCAN := Scan(Forward(BASE), Range(Some(BASE), 0, 0), 0)
  const TOP_CURSOR := Cursor(TOP, Some(TOP), Some(BASE), 0, 0, 0)
  const TOP_STORED := Tables({EventId(TOP, WGET)}, {}, {Row(Forward(BASE), TOP)}, map[Forward(BASE) := TOP_CURSOR], {},
                             Some(HistoryState(BASE, 0)))

  lemma PlanForTop()
    ensures Rebasable(AT_BASE.state, TOP)
    ensures var p := PlanFor(AT_BASE.state, TOP, ALL); p.first == Some(TOP_SCAN) && p.backward.None?
    ensures !Anc(TOP, BASE) && Anc(BASE, TOP)
  {
    assert Anc(BASE, TOP) && MergeBase(BASE, TOP) == Some(BASE);
  }

  lemma ProcessTop(b: Memory)
    requires b.alive && b.fuel == 2 && b.seen == {} && b.processed == [] && b.events == [] && b.diagnostics == []
    requires b.store == AT_BASE && b.cursor == Some(TOP_CURSOR.(frontier := None)) && b.limit == 1
    ensures var f := Process(b, TOP_SCAN, {}, TOP);
      f.alive && f.fuel == 0 && f.store == TOP_STORED && f.processed == []
  {
    AddedReads();
    var v := b.(last := Some(TOP), encountered := b.encountered + {TOP}, seen := {TOP});
    assert ParseUpTo(TOP, 0, false, b.missing) == Parsed([], [], b.missing);
    assert NoteRows(TOP, "wget.rb", []) == [];
    assert ParseUpTo(TOP, 1, false, b.missing).events == [EventId(TOP, WGET)];
    assert ParseUpTo(TOP, 1, false, b.missing).diagnostics == [];
    var r := Recorded(v, TOP_SCAN, TOP);
    assert r.events == [EventId(TOP, WGET)] && r.processed == [TOP] && r.diagnostics == [] && r.fuel == 1;
    var t := ApplyBatch(AT_BASE, PendingBatch(r, Forward(BASE)));
    assert t.events == {EventId(TOP, WGET)} && t.rows == {Row(Forward(BASE), TOP)} && t.diagnostics == {};
    assert t == TOP_STORED;
  }

  /** HEAD advances, and the call is cut off after its first batch. */
  lemma CutAfterFirstBatch()
    ensures After(AT_BASE, Run(TOP, ALL, Fault(2, false, false))) == TOP_STORED
  {
    var fault := Fault(2, false, false);
    var m := Start(AT_BASE, ALL, fault);
    assert m.missing == {};
    PlanForTop();
    assert RowsOf(AT_BASE, Forward(BASE)) == {} && Loaded(m, Forward(BASE)) == m;
    var b := m.(cursor := Some(TOP_CURSOR.(frontier := None)));
    ProcessTop(b);
    var f := Process(b, TOP_SCAN, {}, TOP);
    assert Walk(f, TOP_SCAN, {}, BASE, TOP_SCAN.range) == f;
    assert Walk(b, TOP_SCAN, {}, TOP, TOP_SCAN.range) == f;
    assert ScanRange(m, TOP_SCAN, TOP) == f;
    assert BeforeClose(AT_BASE, TOP, ALL, fault) == f;
  }

  lemma NothingToDo(s: Tables)
    requires s.state == Some(HistoryState(BASE, 0))
    ensures After(s, Run(BASE, ALL, PLENTY)) == s && Completes(s, Run(BASE, ALL, PLENTY))
  {
    var m := Start(s, ALL, PLENTY);
    assert m.missing == {};
    assert MergeBase(BASE, BASE) == Some(BASE);
    var p := PlanFor(s.state, BASE, ALL);
    assert p.first.None? && p.backward.None? && p.remove == {} && PrimaryKeys(p) == {};
    assert BeforeClose(s, BASE, ALL, PLENTY) == m;
    assert Finalize(s, Finish(BASE, 0, {}, {}, {})) == s;
  }

  /** HEAD advances, a forward scan of it is cut off, HEAD moves back: the next call completes, has no range to
      scan, loads no checkpoint, and leaves the events of the abandoned commit behind. */
  lemma AbandonedForwardScanIsNotReconciled()
    ensures var runs := [Run(BASE, ALL, PLENTY), Run(TOP, ALL, Fault(2, false, false))];
      var s := AfterAll(EMPTY, runs); var last := Run(BASE, ALL, PLENTY);
      && (forall run :: run in runs ==> Mono(run.head))
      && Completes(s, last) && !Reconciled(After(s, last), BASE)
  {
    IndexBase();
    CutAfterFirstBatch();
    NothingToDo(TOP_STORED);
    var first, second := Run(BASE, ALL, PLENTY), Run(TOP, ALL, Fault(2, false, false));
    assert [first, second][..1] == [first] && [first][..0] == [];
    assert AfterAll(EMPTY, []) == EMPTY;
    assert AfterAll(EMPTY, [first]) == AT_BASE;
    assert EventId(TOP, WGET) in TOP_STORED.events && !Anc(TOP, BASE);
  }

  // ---- a backward cursor with a gap ---------------------------------------------------------

  const OLD := Root(16, [], 0)
  const MAIN := Child(OLD, 100, [], 0)
  const SIDE := Child(OLD, 20, [], 0)
  const SINCE_50 := Request(50, multiset{}, {})
  const SINCE_15 := Request(15, multiset{}, {})
  const AT_MAIN := Tables({}, {}, {}, map[], {}, Some(HistoryState(MAIN, 50)))
  const FORWARD_SIDE := Scan(Forward(MAIN), Range(Some(OLD), 0, 0), 0)
  const BACK_SIDE := Scan(Backward(15, 50), Range(None, 15, 50), 0)
  const FORWARD_CURSOR := Cursor(SIDE, Some(SIDE), Some(OLD), 0, 0, 0)
  const BACK_CURSOR := Cursor(SIDE, Some(OLD), None, 15, 50, 0)
  const SIDE_FORWARD := AT_MAIN.(rows := {Row(Forward(MAIN), SIDE)}, cursors := map[Forward(MAIN) := FORWARD_CURSOR])
  const SIDE_BACKWARD := SIDE_FORWARD.(rows := {Row(Forward(MAIN), SIDE), Row(Backward(15, 50), OLD)},
                                       cursors := map[Forward(MAIN) := FORWARD_CURSOR, Backward(15, 50) := BACK_CURSOR])

  lemma IndexMain()
    ensures After(EMPTY, Run(MAIN, SINCE_50, PLENTY)) == AT_MAIN
  {
    var p := PlanFor(None, MAIN, SINCE_50);
    var scan := Scan(Initial, Range(None, 50, 0), 0);
    var m := Start(EMPTY, SINCE_50, PLENTY);
    assert m.missing == {};
    assert RowsOf(EMPTY, Initial) == {} && Loaded(m, Initial) == m;
    var b := m.(cursor := Some(Cursor(MAIN, None, None, 50, 0, 0)));
    assert ReadsUpTo(MAIN, 0) == 0;
    var r := Recorded(b.(last := Some(MAIN), encountered := {MAIN}, seen := {MAIN}), scan, MAIN);
    var f := Flush(r, Initial);
    assert Process(b, scan, {}, MAIN) == f;
    assert Walk(f, scan, {}, OLD, scan.range) == f;
    assert Walk(b, scan, {}, MAIN, scan.range) == f;
    assert ScanRange(m, scan, MAIN) == f;
    assert BeforeClose(EMPTY, MAIN, SINCE_50, PLENTY) == f;
    assert f.store.rows == {Row(Initial, MAIN)} && f.loaded - f.encountered == {};
    assert PrimaryKeys(p) + {} == {Initial};
    assert Finalize(f.store, Finish(MAIN, 50, {}, {}, {Initial})) == AT_MAIN;
  }

  lemma ForwardOverSide(m: Memory)
    requires m == Start(AT_MAIN, SINCE_15, Fault(2, false, false))
    ensures var f := ScanRange(m, FORWARD_SIDE, SIDE);
      f.alive && f.fuel == 1 && f.fault == m.fault && f.store == SIDE_FORWARD && f.seen == {SIDE} && f.processed == [] &&
      f.events == [] && f.diagnostics == [] && f.limit == 10 && f.missing == {}
  {
    assert m.missing == {};
    assert RowsOf(AT_MAIN, Forward(MAIN)) == {} && Loaded(m, Forward(MAIN)) == m;
    var b := m.(cursor := Some(FORWARD_CURSOR.(frontier := None)));
    assert ReadsUpTo(SIDE, 0) == 0;
    var r := Recorded(b.(last := Some(SIDE), encountered := {SIDE}, seen := {SIDE}), FORWARD_SIDE, SIDE);
    var f := Flush(r, Forward(MAIN));
    assert f.store.rows == {Row(Forward(MAIN), SIDE)};
    assert f.store == SIDE_FORWARD;
    assert Process(b, FORWARD_SIDE, {}, SIDE) == f;
    assert Walk(f, FORWARD_SIDE, {}, OLD, FORWARD_SIDE.range) == f;
    assert !Anc(SIDE, OLD);
    assert Walk(b, FORWARD_SIDE, {}, SIDE, FORWARD_SIDE.range) == f;
    assert ScanRange(m, FORWARD_SIDE, SIDE) == f;
  }

  lemma BackwardOverSide(m: Memory)
    requires m.alive && m.fuel == 1 && m.store == SIDE_FORWARD && m.seen == {SIDE} && m.processed == []
    requires m.events == [] && m.diagnostics == [] && m.limit == 10 && m.missing == {}
    ensures var f := ScanRange(m, BACK_SIDE, SIDE); f.alive && f.fuel == 0 && f.fault == m.fault && f.store == SIDE_BACKWARD
  {
    assert RowsOf(m.store, Backward(15, 50)) == {};
    var l := Loaded(m, Backward(15, 50));
    var b := l.(cursor := Some(BACK_CURSOR.(frontier := None)), last := None);
    var v := b.(last := Some(SIDE), encountered := b.encountered + {SIDE});
    assert Process(b, BACK_SIDE, {}, SIDE) == v;
    assert ReadsUpTo(OLD, 0) == 0;
    var r := Recorded(v.(last := Some(OLD), encountered := v.encountered + {OLD}, seen := {SIDE, OLD}), BACK_SIDE, OLD);
    assert Process(v, BACK_SIDE, {}, OLD) == r;
    assert Walk(v, BACK_SIDE, {}, OLD, BACK_SIDE.range) == r;
    assert Walk(b, BACK_SIDE, {}, SIDE, BACK_SIDE.range) == r;
    var f := Flush(r, Backward(15, 50));
    assert f.store.rows == SIDE_BACKWARD.rows && f.store.cursors == SIDE_BACKWARD.cursors;
    assert ScanRange(m, BACK_SIDE, SIDE) == f;
  }

  lemma IndexSideCut()
    ensures After(AT_MAIN, Run(SIDE, SINCE_15, Fault(2, false, false))) == SIDE_BACKWARD
  {
    var fault := Fault(2, false, false);
    var m := Start(AT_MAIN, SINCE_15, fault);
    PlanForSide();
    ForwardOverSide(m);
    var f := ScanRange(m, FORWARD_SIDE, SIDE);
    BackwardOverSide(f);
    assert AfterPrimary(AT_MAIN, SIDE, SINCE_15, fault) == ScanRange(f, BACK_SIDE, SIDE);
    CutAtClose(AT_MAIN, SIDE, SINCE_15, fault);
  }

  lemma PlanForSide()
    ensures Rebasable(AT_MAIN.state, SIDE)
    ensures var p := PlanFor(AT_MAIN.state, SIDE, SINCE_15); p.first == Some(FORWARD_SIDE) && p.backward == Some(BACK_SIDE)
  {
    assert !Anc(MAIN, SIDE) && Anc(OLD, SIDE) && MergeBase(MAIN, SIDE) == Some(OLD);
  }

  /** A call without a fallback that runs out of fuel before its last transaction leaves what its ranges wrote. */
  lemma CutAtClose(s: Tables, head: Commit, req: Request, fault: Fault)
    requires Rebasable(s.state, head) && req.wanted == {} && !fault.applied
    requires var m := AfterPrimary(s, head, req, fault); m.alive && m.fuel == 0 && m.fault == fault
    ensures After(s, Run(head, req, fault)) == AfterPrimary(s, head, req, fault).store
  {
    assert Start(s, req, fault).missing == {};
  }

  /** HEAD is rewritten to a branch that leaves below the backward window's upper end: the forward scan takes a
      commit of the window first, and the backward cursor passes over it without a row. */
  lemma BackwardCursorHasGap()
    ensures var runs := [Run(MAIN, SINCE_50, PLENTY), Run(SIDE, SINCE_15, Fault(2, false, false))];
      var s := AfterAll(EMPTY, runs);
      && (forall run :: run in runs ==> Mono(run.head))
      && Backward(15, 50) in s.cursors && s.cursors[Backward(15, 50)] == BACK_CURSOR
      && Lists(SIDE, RangeOf(BACK_CURSOR), SIDE) && Anc(OLD, SIDE) && Row(Backward(15, 50), SIDE) !in s.rows
  {
    IndexMain();
    IndexSideCut();
    var first, second := Run(MAIN, SINCE_50, PLENTY), Run(SIDE, SINCE_15, Fault(2, false, false));
    assert [first, second][..1] == [first] && [first][..0] == [];
    assert AfterAll(EMPTY, []) == EMPTY && AfterAll(EMPTY, [first]) == AT_MAIN;
    assert AfterAll(EMPTY, [first, second]) == SIDE_BACKWARD;
  }

  // ---- a key declared exhausted although a commit yields it ----------------------------------

  const FIRST := Root(1, [ADDED], 0)
  const SECOND := Child(FIRST, 2, [ADDED], 0)
  const REWRITTEN := Child(FIRST, 3, [], 0)
  const ASK := Request(10, multiset{"wget"}, {WGET})
  const SEARCH := Scan(Fallback(multiset{"wget"}), Range(None, 0, 0), 10)
  /** A fallback at SECOND was cut off after both commits; HEAD was then rewritten and SECOND removed. */
  const HIDDEN := Tables({}, {}, {Row(SEARCH.key, FIRST)}, map[], {}, Some(HistoryState(REWRITTEN, 10)))

  lemma FirstYields()
    ensures Keys(FIRST) == {WGET}
  {
    AddedReads();
    assert KeysUpTo(FIRST, 0) == {} && FIRST.changes[0] == ADDED;
    assert KeysUpTo(FIRST, 1) == {WGET};
  }

  const FOUND := Tables({EventId(SECOND, WGET)}, {}, {Row(SEARCH.key, SECOND)},
                        map[SEARCH.key := Cursor(SECOND, Some(SECOND), None, 0, 0, 10)], {}, Some(HistoryState(SECOND, 10)))
  const SEARCHED := FOUND.(rows := {Row(SEARCH.key, SECOND), Row(SEARCH.key, FIRST)},
                           cursors := map[SEARCH.key := Cursor(SECOND, Some(FIRST), None, 0, 0, 10)])

  lemma SecondYields()
    ensures Keys(SECOND) == {WGET} && ReadsUpTo(SECOND, 1) == 1 && ReadsUpTo(FIRST, 1) == 1
    ensures ParseUpTo(SECOND, 1, true, {WGET}) == Parsed([EventId(SECOND, WGET)], [], {})
    ensures ParseUpTo(FIRST, 1, true, {}) == Parsed([], [], {})
  {
    AddedReads();
    assert KeysUpTo(SECOND, 0) == {} && SECOND.changes[0] == ADDED && FIRST.changes[0] == ADDED;
    assert KeysUpTo(SECOND, 1) == {WGET};
    assert ReadsUpTo(SECOND, 0) == 0 == ReadsUpTo(FIRST, 0);
    assert ParseUpTo(SECOND, 0, true, {WGET}) == Parsed([], [], {WGET});
    assert ParseUpTo(FIRST, 0, true, {}) == Parsed([], [], {});
    assert NoteRows(SECOND, "wget.rb", []) == [] == NoteRows(FIRST, "wget.rb", []);
  }

  lemma PublishSecond()
    ensures var f := Fault(5, false, false);
      var m := Publish(AfterPrimary(EMPTY, SECOND, ASK, f), PlanFor(None, SECOND, ASK), SECOND);
      && m.alive && m.fuel == 4 && m.missing == {WGET} && m.seen == {} && m.processed == [] && m.limit == 1
      && m.events == [] && m.diagnostics == [] && m.fault == f
      && m.store == Tables({}, {}, {}, map[], {}, Some(HistoryState(SECOND, 10)))
      && Start(EMPTY, ASK, f).missing == {WGET}
  {
    var f := Fault(5, false, false);
    var m := Start(EMPTY, ASK, f);
    assert m.missing == {WGET};
    var scan := Scan(Initial, Range(None, 10, 0), 0);
    assert RowsOf(EMPTY, Initial) == {} && Loaded(m, Initial) == m;
    var b := m.(cursor := Some(Cursor(SECOND, None, None, 10, 0, 0)));
    assert Walk(b, scan, {}, SECOND, scan.range) == b;
    assert AfterPrimary(EMPTY, SECOND, ASK, f) == b;
    assert Finalize(EMPTY, Finish(SECOND, 10, {}, {}, {Initial})) == Tables({}, {}, {}, map[], {}, Some(HistoryState(SECOND, 10)));
  }

  lemma TakeSecond(b: Memory)
    requires b.alive && b.fuel == 4 && b.missing == {WGET} && b.seen == {} && b.processed == [] && b.limit == 1
    requires b.events == [] && b.diagnostics == [] && b.store == Tables({}, {}, {}, map[], {}, Some(HistoryState(SECOND, 10)))
    requires b.cursor == Some(Cursor(SECOND, None, None, 0, 0, 10))
    ensures var f := Process(b, SEARCH, {}, SECOND);
      && f.alive && f.fuel == 2 && f.store == FOUND && f.missing == {} && f.seen == {SECOND} && f.processed == []
      && f.events == [] && f.diagnostics == [] && f.limit == 10 && f.fault == b.fault
      && f.cursor == Some(Cursor(SECOND, Some(SECOND), None, 0, 0, 10))
  {
    SecondYields();
    var r := Recorded(b.(last := Some(SECOND), encountered := b.encountered + {SECOND}, seen := {SECOND}), SEARCH, SECOND);
    var f := Flush(r, SEARCH.key);
    assert f.store.events == FOUND.events && f.store.rows == FOUND.rows && f.store.cursors == FOUND.cursors;
    assert f.store == FOUND && f.fuel == 2 && f.missing == {};
  }

  lemma PassFirst(f: Memory)
    requires f.alive && f.fuel == 2 && f.store == FOUND && f.missing == {} && f.seen == {SECOND} && f.processed == []
    requires f.events == [] && f.diagnostics == [] && f.limit == 10
    requires f.cursor == Some(Cursor(SECOND, Some(SECOND), None, 0, 0, 10))
    ensures var n := Flush(Process(f, SEARCH, {}, FIRST), SEARCH.key);
      && Process(f, SEARCH, {}, FIRST).alive
      && n.alive && n.fuel == 0 && n.store == SEARCHED && n.fault == f.fault
  {
    SecondYields();
    var q := Recorded(f.(last := Some(FIRST), encountered := f.encountered + {FIRST}, seen := {SECOND, FIRST}), SEARCH, FIRST);
    assert q.processed == [FIRST] && q.events == [] && q.diagnostics == [] && q.fuel == 1;
    assert Process(f, SEARCH, {}, FIRST) == q;
    var n := Flush(q, SEARCH.key);
    assert n.store.rows == SEARCHED.rows && n.store.cursors == SEARCHED.cursors;
  }

  lemma SearchSecond(m: Memory)
    requires m.alive && m.fuel == 4 && m.missing == {WGET} && m.seen == {} && m.processed == [] && m.limit == 1
    requires m.events == [] && m.diagnostics == [] && m.store == Tables({}, {}, {}, map[], {}, Some(HistoryState(SECOND, 10)))
    ensures var n := ScanRange(m, SEARCH, SECOND); n.alive && n.fuel == 0 && n.store == SEARCHED && n.fault == m.fault
  {
    assert RowsOf(m.store, SEARCH.key) == {};
    var b := Loaded(m, SEARCH.key).(cursor := Some(Cursor(SECOND, None, None, 0, 0, 10)), last := None);
    TakeSecond(b);
    var f := Process(b, SEARCH, {}, SECOND);
    PassFirst(f);
    var q := Process(f, SEARCH, {}, FIRST);
    assert Walk(f, SEARCH, {}, FIRST, SEARCH.range) == q;
    assert Walk(b, SEARCH, {}, SECOND, SEARCH.range) == q;
    assert ScanRange(m, SEARCH, SECOND) == Flush(q, SEARCH.key);
  }

  /** The fallback at SECOND finds the key there, passes FIRST without it, and is cut off before it closes. */
  lemma SearchCut()
    ensures After(EMPTY, Run(SECOND, ASK, Fault(5, false, false))) == SEARCHED
  {
    var fault := Fault(5, false, false);
    PublishSecond();
    var m := Publish(AfterPrimary(EMPTY, SECOND, ASK, fault), PlanFor(None, SECOND, ASK), SECOND);
    SearchSecond(m);
    assert PlanFor(None, SECOND, ASK).fallback == SEARCH;
    assert BeforeClose(EMPTY, SECOND, ASK, fault) == ScanRange(m, SEARCH, SECOND);
  }

  lemma ForwardToRewritten(m: Memory)
    requires m == Start(SEARCHED, ASK, PLENTY) && m.missing == {}
    ensures var f := ScanRange(m, Scan(Forward(SECOND), Range(Some(FIRST), 0, 0), 0), REWRITTEN);
      && f.alive && f.fuel > 0 && f.loaded == {} && f.missing == {}
      && f.store == SEARCHED.(rows := SEARCHED.rows + {Row(Forward(SECOND), REWRITTEN)}, cursors := f.store.cursors)
      && f.store.cursors - {Forward(SECOND)} == SEARCHED.cursors
  {
    var scan := Scan(Forward(SECOND), Range(Some(FIRST), 0, 0), 0);
    assert RowsOf(SEARCHED, scan.key) == {} && Loaded(m, scan.key) == m;
    var b := m.(cursor := Some(Cursor(REWRITTEN, None, Some(FIRST), 0, 0, 0)));
    assert ReadsUpTo(REWRITTEN, 0) == 0;
    var r := Recorded(b.(last := Some(REWRITTEN), encountered := {REWRITTEN}, seen := {REWRITTEN}), scan, REWRITTEN);
    var f := Flush(r, scan.key);
    assert Process(b, scan, {}, REWRITTEN) == f;
    assert Walk(f, scan, {}, FIRST, scan.range) == f;
    assert !Anc(REWRITTEN, FIRST);
    assert Walk(b, scan, {}, REWRITTEN, scan.range) == f;
    assert ScanRange(m, scan, REWRITTEN) == f;
    assert f.store.rows == SEARCHED.rows + {Row(Forward(SECOND), REWRITTEN)};
    assert f.store.cursors - {Forward(SECOND)} == SEARCHED.cursors;
  }

  lemma PlanForRewritten()
    ensures Rebasable(SEARCHED.state, REWRITTEN)
    ensures var p := PlanFor(SEARCHED.state, REWRITTEN, ASK);
      && p.first == Some(Scan(Forward(SECOND), Range(Some(FIRST), 0, 0), 0)) && p.backward.None?
      && p.remove == {SECOND} && p.since == 10 && PrimaryKeys(p) == {Forward(SECOND)}
  {
    assert !Anc(SECOND, FIRST) && !Anc(SECOND, REWRITTEN) && Anc(FIRST, REWRITTEN);
    assert MergeBase(FIRST, REWRITTEN) == Some(FIRST);
    assert MergeBase(SECOND, REWRITTEN) == Some(FIRST);
    assert CommitsAbove(FIRST, FIRST) == {};
    assert CommitsAbove(SECOND, FIRST) == {SECOND};
  }

  lemma FinalizeRewritten(t: Tables)
    requires t == SEARCHED.(rows := SEARCHED.rows + {Row(Forward(SECOND), REWRITTEN)}, cursors := t.cursors)
    requires t.cursors - {Forward(SECOND)} == SEARCHED.cursors
    ensures Finalize(t, Finish(REWRITTEN, 10, {SECOND}, {}, {Forward(SECOND)})) == HIDDEN
  {
    var u := Finalize(t, Finish(REWRITTEN, 10, {SECOND}, {}, {Forward(SECOND)}));
    assert u.rows == HIDDEN.rows;
    assert SEARCH.key in (set row | row in t.rows && row.commit in {SECOND} :: row.key) by {
      assert Row(SEARCH.key, SECOND) in t.rows;
    }
    forall k | k in t.cursors && k != Forward(SECOND) ensures k == SEARCH.key {
      assert k in t.cursors - {Forward(SECOND)};
    }
    assert u.cursors == map[];
  }

  /** HEAD is rewritten; the event is still there, so the next call does not fall back, and removes it. */
  lemma RewriteRemovesEvent()
    ensures After(SEARCHED, Run(REWRITTEN, ASK, PLENTY)) == HIDDEN
  {
    var m := Start(SEARCHED, ASK, PLENTY);
    assert HasEvent(SEARCHED, WGET) by {
      assert EventId(SECOND, WGET) in SEARCHED.events;
    }
    assert m.missing == {};
    PlanForRewritten();
    ForwardToRewritten(m);
    var p := PlanFor(SEARCHED.state, REWRITTEN, ASK);
    var f := ScanRange(m, p.first.value, REWRITTEN);
    assert BeforeClose(SEARCHED, REWRITTEN, ASK, PLENTY) == f;
    assert p.remove + (f.loaded - f.encountered) == {SECOND} && PrimaryKeys(p) + {} == {Forward(SECOND)};
    FinalizeRewritten(f.store);
  }

  lemma SearchOverHidden(m: Memory)
    requires m == Start(HIDDEN, ASK, PLENTY)
    ensures var f := ScanRange(m, SEARCH, REWRITTEN); f.alive && f.missing == {WGET} && f.fuel > 0
  {
    assert m.missing == {WGET};
    RowsOfExact(HIDDEN, SEARCH.key, FIRST);
    assert RowsOf(HIDDEN, SEARCH.key) == {FIRST};
    var b := Loaded(m, SEARCH.key);
    assert ReadsUpTo(REWRITTEN, 0) == 0;
    var r := Recorded(b.(last := Some(REWRITTEN), encountered := {REWRITTEN}, seen := {REWRITTEN}), SEARCH, REWRITTEN);
    assert r.missing == {WGET};
    var f := Flush(r, SEARCH.key);
    assert Process(b, SEARCH, {FIRST}, REWRITTEN) == f;
    var v := f.(last := Some(FIRST), encountered := f.encountered + {FIRST}, seen := f.seen + {FIRST});
    assert Process(f, SEARCH, {FIRST}, FIRST) == v;
    assert Walk(f, SEARCH, {FIRST}, FIRST, SEARCH.range) == v;
    assert Walk(b, SEARCH, {FIRST}, REWRITTEN, SEARCH.range) == v;
    assert ScanRange(m, SEARCH, REWRITTEN) == v;
  }

  /** The fallback skips its old checkpoint, finds nothing, and records the key as exhausted. */
  lemma CheckpointHidesKey()
    ensures var runs := [Run(SECOND, ASK, Fault(5, false, false)), Run(REWRITTEN, ASK, PLENTY)];
      var s := AfterAll(EMPTY, runs); var last := Run(REWRITTEN, ASK, PLENTY);
      && (forall run :: run in runs ==> Mono(run.head))
      && Completes(s, last) && WGET !in s.coverage && WGET in After(s, last).coverage
      && Anc(FIRST, REWRITTEN) && WGET in Keys(FIRST)
  {
    SearchCut();
    RewriteRemovesEvent();
    FirstYields();
    var first, second := Run(SECOND, ASK, Fault(5, false, false)), Run(REWRITTEN, ASK, PLENTY);
    assert [first, second][..1] == [first] && [first][..0] == [];
    assert AfterAll(EMPTY, []) == EMPTY && AfterAll(EMPTY, [first]) == SEARCHED;
    assert AfterAll(EMPTY, [first, second]) == HIDDEN;
    LastSearch();
  }

  lemma LastSearch()
    ensures var run := Run(REWRITTEN, ASK, PLENTY); Completes(HIDDEN, run) && WGET in After(HIDDEN, run).coverage
  {
    var m := Start(HIDDEN, ASK, PLENTY);
    assert m.missing == {WGET};
    assert MergeBase(REWRITTEN, REWRITTEN) == Some(REWRITTEN);
    var p := PlanFor(HIDDEN.state, REWRITTEN, ASK);
    assert p.first.None? && p.backward.None? && PrimaryKeys(p) == {} && p.fallback == SEARCH;
    SearchOverHidden(m);
    assert BeforeClose(HIDDEN, REWRITTEN, ASK, PLENTY) == ScanRange(m, SEARCH, REWRITTEN);
  }
}
