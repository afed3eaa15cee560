/** What one `Index` call does to the tables and to its own working memory, as a function of the
    head it finds, its request, and the point at which it is cut off. */
module IndexerSpec {
  import opened Wrappers
  import opened CommitGraph
  import opened HistoryTables

  const INITIAL_BATCH: nat := 1
  const FULL_BATCH: nat := 10

  /** When a call is cut off: after `fuel` blob reads and table writes. `applied` says whether the
      write that was cut off took effect all the same, `late` whether the flush that a cancelled
      walk still attempts did. */
  datatype Fault = Fault(fuel: nat, applied: bool, late: bool)

  /** `wanted` are the keys of installed packages that a fallback may look for. */
  datatype Request = Request(since: nat, installed: multiset<Package>, wanted: set<Key>)

  /** One range to scan; `cutoff` is the start of recent history that a fallback leaves out. */
  datatype Scan = Scan(key: ScanKey, range: Range, cutoff: nat)

  datatype Memory = Memory(
    store: Tables,
    seen: set<Commit>, encountered: set<Commit>, loaded: set<Commit>, missing: set<Key>,
    events: seq<EventId>, diagnostics: seq<Diagnostic>, processed: seq<Commit>, limit: nat,
    cursor: Option<Cursor>, last: Option<Commit>,
    fuel: nat, alive: bool, fault: Fault, log: seq<seq<Commit>>)

  // ---- parsing one commit ------------------------------------------------------------------

  predicate Ruby(path: string) {
    |path| >= 3 && path[|path| - 3..] == ".rb"
  }

  /** The definition paths before and after a change; two empty ones mean it is not a definition. */
  function DefinitionPaths(ch: Change): (string, string) {
    if !Ruby(ch.path) && !Ruby(ch.oldPath) then ("", "") else
    (if ch.status == "A" then "" else if ch.oldPath != "" then ch.oldPath else ch.path,
     if ch.status == "D" then "" else ch.path)
  }

  predicate Relevant(ch: Change) {
    DefinitionPaths(ch) != ("", "")
  }

  function Reads(ch: Change): nat {
    (if DefinitionPaths(ch).0 != "" then 1 else 0) + (if DefinitionPaths(ch).1 != "" then 1 else 0)
  }

  function ReadsUpTo(c: Commit, n: nat): nat
    requires n <= |c.changes|
  {
    if n == 0 then 0 else ReadsUpTo(c, n - 1) + Reads(c.changes[n - 1])
  }

  function KeysUpTo(c: Commit, n: nat): set<Key>
    requires n <= |c.changes|
  {
    if n == 0 then {} else
    var ch := c.changes[n - 1];
    KeysUpTo(c, n - 1) + if Relevant(ch) && ch.update.Some? then {ch.update.value} else {}
  }

  function NotesUpTo(c: Commit, n: nat): set<Diagnostic>
    requires n <= |c.changes|
  {
    if n == 0 then {} else
    var ch := c.changes[n - 1];
    NotesUpTo(c, n - 1) + if Relevant(ch) then (set note | note in ch.notes :: Diagnostic(c, ch.path, note)) else {}
  }

  /** The updates and the diagnostics a commit's definitions yield. */
  function Keys(c: Commit): set<Key> { KeysUpTo(c, |c.changes|) }
  function Notes(c: Commit): set<Diagnostic> { NotesUpTo(c, |c.changes|) }

  datatype Parsed = Parsed(events: seq<EventId>, diagnostics: seq<Diagnostic>, missing: set<Key>)

  function NoteRows(c: Commit, path: string, notes: seq<string>): seq<Diagnostic> {
    if notes == [] then [] else NoteRows(c, path, notes[..|notes| - 1]) + [Diagnostic(c, path, notes[|notes| - 1])]
  }

  function ParseUpTo(c: Commit, n: nat, fallback: bool, missing: set<Key>): Parsed
    requires n <= |c.changes|
  {
    if n == 0 then Parsed([], [], missing) else
    var before := ParseUpTo(c, n - 1, fallback, missing);
    var ch := c.changes[n - 1];
    if !Relevant(ch) then before else
    var noted := before.(diagnostics := before.diagnostics + NoteRows(c, ch.path, ch.notes));
    if ch.update.None? || (fallback && ch.update.value !in before.missing) then noted else
    noted.(events := noted.events + [EventId(c, ch.update.value)], missing := noted.missing - {ch.update.value})
  }

  // ---- writing -----------------------------------------------------------------------------

  function PendingBatch(m: Memory, key: ScanKey): Batch {
    Batch(key, m.events, m.diagnostics, m.processed, false, m.cursor)
  }

  /** One transaction. With no fuel left the caller sees an error; the write may still have happened. */
  function Write(m: Memory, after: Tables): Memory {
    if m.fuel == 0
    then m.(alive := false, store := if m.fault.applied then after else m.store)
    else m.(store := after, fuel := m.fuel - 1)
  }

  function Flush(m: Memory, key: ScanKey): Memory {
    if m.processed == [] then m else
    var w := Write(m, ApplyBatch(m.store, PendingBatch(m, key)));
    if !w.alive then w else
    w.(events := [], diagnostics := [], processed := [], limit := FULL_BATCH, log := m.log + [m.processed])
  }

  // ---- walking -----------------------------------------------------------------------------

  function Recorded(m: Memory, scan: Scan, c: Commit): Memory
    requires ReadsUpTo(c, |c.changes|) <= m.fuel
  {
    var p := ParseUpTo(c, |c.changes|, scan.key.Fallback?, m.missing);
    m.(events := m.events + p.events, diagnostics := m.diagnostics + p.diagnostics, missing := p.missing,
       processed := m.processed + [c],
       cursor := if m.cursor.Some? then Some(m.cursor.value.(frontier := Some(c))) else None,
       fuel := m.fuel - ReadsUpTo(c, |c.changes|))
  }

  function Process(m: Memory, scan: Scan, checkpoint: set<Commit>, c: Commit): Memory {
    if !m.alive then m
    else if m.fuel == 0 then m.(alive := false)
    else
      var v := m.(last := Some(c), encountered := m.encountered + {c});
      if c in m.seen then v
      else if c in checkpoint then v.(seen := v.seen + {c})
      else if scan.key.Fallback? && scan.cutoff != 0 && scan.cutoff <= c.time then v
      else
        var s := v.(seen := v.seen + {c});
        if s.fuel < ReadsUpTo(c, |c.changes|) then s.(alive := false, fuel := 0)
        else
          var r := Recorded(s, scan, c);
          if |r.processed| == r.limit then Flush(r, scan.key) else r
  }

  /** Walk the chain from `tip` as far as the range goes. */
  function Walk(m: Memory, scan: Scan, checkpoint: set<Commit>, tip: Commit, r: Range): Memory
    decreases tip
  {
    if !m.alive || Below(tip, r.floor) || tip.time < r.since then m else
    var next := if Within(r, tip) then Process(m, scan, checkpoint, tip) else m;
    if tip.Child? then Walk(next, scan, checkpoint, tip.parent, r) else next
  }

  /** After a cancelled walk the complete commits are still flushed, under a fresh deadline. */
  function AfterWalk(m: Memory, key: ScanKey): Memory {
    if m.alive || m.processed == [] || !m.fault.late then m
    else m.(store := ApplyBatch(m.store, PendingBatch(m, key)))
  }

  function WalkAll(m: Memory, scan: Scan, checkpoint: set<Commit>, tip: Commit, r: Range): Memory {
    AfterWalk(Walk(m.(last := None), scan, checkpoint, tip, r), scan.key)
  }

  // ---- one range ---------------------------------------------------------------------------

  predicate Matches(cur: Cursor, scan: Scan) {
    cur.floor == scan.range.floor && cur.since == scan.range.since && cur.until == scan.range.until &&
    cur.cutoff == scan.cutoff
  }

  predicate UsableCursor(s: Tables, scan: Scan, head: Commit) {
    scan.key in s.cursors &&
    var cur := s.cursors[scan.key];
    cur.frontier.Some? && Row(scan.key, cur.frontier.value) in s.rows && Matches(cur, scan) && Anc(cur.head, head)
  }

  function FlushIfAlive(m: Memory, key: ScanKey): Memory {
    if m.alive then Flush(m, key) else m
  }

  /** Walk everything the range lists, without a usable cursor. */
  function Restart(m: Memory, scan: Scan, checkpoint: set<Commit>, head: Commit): Memory {
    var unset := Cursor(head, None, scan.range.floor, scan.range.since, scan.range.until, scan.cutoff);
    var b := m.(cursor := if checkpoint == {} then Some(unset) else None);
    FlushIfAlive(WalkAll(b, scan, checkpoint, head, scan.range), scan.key)
  }

  /** Walk only what lies below the cursor's frontier. */
  function Resume(m: Memory, scan: Scan, checkpoint: set<Commit>, cur: Cursor): Memory
    requires cur.frontier.Some?
  {
    var b := m.(encountered := m.encountered + checkpoint, seen := m.seen + checkpoint, cursor := Some(cur));
    var frontier := cur.frontier.value;
    var w := if frontier.Child? then WalkAll(b, scan, checkpoint, frontier.parent, scan.range) else b;
    FlushIfAlive(w, scan.key)
  }

  function ClearCursor(key: ScanKey): Batch { Batch(key, [], [], [], true, None) }
  function SaveCursor(key: ScanKey, cur: Cursor): Batch { Batch(key, [], [], [], false, Some(cur)) }

  /** Walk the commits that appeared above the cursor's head; its frontier stays invalid meanwhile. */
  function Prefix(m: Memory, scan: Scan, checkpoint: set<Commit>, cur: Cursor, head: Commit): Memory {
    FlushIfAlive(WalkAll(m, scan, checkpoint, head, scan.range.(floor := Some(cur.head))), scan.key)
  }

  predicate ReachedOldHead(m: Memory, scan: Scan, cur: Cursor) {
    scan.range.since == 0 || (m.last.Some? && m.last.value.Child? && m.last.value.parent == cur.head)
  }

  function Extend(m: Memory, scan: Scan, checkpoint: set<Commit>, cur: Cursor, head: Commit): Memory
    requires cur.frontier.Some?
  {
    var p := Prefix(m, scan, checkpoint, cur, head);
    if !p.alive then p
    else if !ReachedOldHead(p, scan, cur) then Restart(p, scan, checkpoint, head)
    else
      var moved := cur.(head := head);
      var w := Write(p, ApplyBatch(p.store, SaveCursor(scan.key, moved)));
      if !w.alive then w else Resume(w, scan, checkpoint, moved)
  }

  function Loaded(m: Memory, key: ScanKey): Memory {
    m.(loaded := m.loaded + RowsOf(m.store, key), cursor := None)
  }

  /** Resume below a usable cursor, extend it if HEAD advanced, or clear it and start over. */
  function FromCursor(m: Memory, scan: Scan, checkpoint: set<Commit>, head: Commit): Memory {
    if scan.key !in m.store.cursors then Restart(m, scan, checkpoint, head) else
    var cur := m.store.cursors[scan.key];
    var usable := UsableCursor(m.store, scan, head);
    if usable && cur.head == head then Resume(m, scan, checkpoint, cur) else
    var cleared := Write(m, ApplyBatch(m.store, ClearCursor(scan.key)));
    if !cleared.alive then cleared
    else if usable then Extend(cleared, scan, checkpoint, cur, head)
    else Restart(cleared, scan, checkpoint, head)
  }

  function ScanRange(m: Memory, scan: Scan, head: Commit): Memory {
    var checkpoint := RowsOf(m.store, scan.key);
    if scan.key.Fallback? && m.missing == {} && checkpoint == {} then m else
    var l := Loaded(m, scan.key);
    if l.fuel == 0 then l.(alive := false) else FromCursor(l, scan, checkpoint, head)
  }

  // ---- one call ----------------------------------------------------------------------------

  function EffectiveSince(state: Option<HistoryState>, since: nat): nat {
    if state.Some? && (since == 0 || (state.value.since != 0 && state.value.since < since))
    then state.value.since else since
  }

  predicate HasEvent(s: Tables, key: Key) {
    exists e | e in s.events :: e.key == key
  }

  /** The ranges a call scans: the first and backward ones, then a fallback when keys are missing. */
  datatype Plan = Plan(first: Option<Scan>, backward: Option<Scan>, fallback: Scan, remove: set<Commit>, since: nat)

  predicate Rebasable(state: Option<HistoryState>, head: Commit) {
    state.Some? ==> MergeBase(state.value.head, head).Some?
  }

  function PlanFor(state: Option<HistoryState>, head: Commit, req: Request): Plan
    requires Rebasable(state, head)
  {
    var since := EffectiveSince(state, req.since);
    var fallback := Scan(Fallback(req.installed), Range(None, 0, 0), since);
    match state
    case None => Plan(Some(Scan(Initial, Range(None, since, 0), 0)), None, fallback, {}, since)
    case Some(prior) =>
      var base := MergeBase(prior.head, head).value;
      var moved := prior.head != head;
      Plan(if moved then Some(Scan(Forward(prior.head), Range(Some(base), 0, 0), 0)) else None,
           if req.since != 0 && req.since < prior.since
           then Some(Scan(Backward(req.since, prior.since), Range(None, req.since, prior.since), 0)) else None,
           fallback,
           if moved then CommitsAbove(prior.head, base) else {},
           since)
  }

  function Start(s: Tables, req: Request, fault: Fault): Memory {
    Memory(s, {}, {}, {}, (set k | k in req.wanted && !HasEvent(s, k) && k !in s.coverage),
           [], [], [], INITIAL_BATCH, None, None, fault.fuel, true, fault, [])
  }

  function ScanIf(m: Memory, scan: Option<Scan>, head: Commit): Memory {
    if !m.alive || scan.None? then m else ScanRange(m, scan.value, head)
  }

  function KeyOf(scan: Option<Scan>): set<ScanKey> {
    if scan.Some? then {scan.value.key} else {}
  }

  function PrimaryKeys(p: Plan): set<ScanKey> { KeyOf(p.first) + KeyOf(p.backward) }

  function AfterPrimary(s: Tables, head: Commit, req: Request, fault: Fault): Memory
    requires Rebasable(s.state, head)
  {
    var p := PlanFor(s.state, head, req);
    ScanIf(ScanIf(Start(s, req, fault), p.first, head), p.backward, head)
  }

  /** Publish the recent ranges before a fallback, unless checkpoints still need reconciling. */
  function Publish(m: Memory, p: Plan, head: Commit): Memory {
    if !m.alive || PrimaryKeys(p) == {} || !(m.loaded <= m.encountered) then m
    else Write(m, Finalize(m.store, Finish(head, p.since, p.remove, {}, PrimaryKeys(p))))
  }

  function Close(m: Memory, p: Plan, head: Commit, fallback: bool): Memory {
    if !m.alive then m else
    var keys := PrimaryKeys(p) + if fallback then {p.fallback.key} else {};
    Write(m, Finalize(m.store, Finish(head, p.since, p.remove + (m.loaded - m.encountered),
                                      if fallback then m.missing else {}, keys)))
  }

  function BeforeClose(s: Tables, head: Commit, req: Request, fault: Fault): Memory
    requires Rebasable(s.state, head)
  {
    var p := PlanFor(s.state, head, req);
    var m := AfterPrimary(s, head, req, fault);
    if Start(s, req, fault).missing == {} then m else ScanIf(Publish(m, p, head), Some(p.fallback), head)
  }

  function Index(s: Tables, head: Commit, req: Request, fault: Fault): Memory
    requires Rebasable(s.state, head)
  {
    Close(BeforeClose(s, head, req, fault), PlanFor(s.state, head, req), head, Start(s, req, fault).missing != {})
  }

  /** A whole call: unrelated histories have no merge base, and the call fails before writing. */
  datatype Run = Run(head: Commit, req: Request, fault: Fault)

  predicate Completes(s: Tables, run: Run) {
    Rebasable(s.state, run.head) && Index(s, run.head, run.req, run.fault).alive
  }

  function After(s: Tables, run: Run): Tables {
    if Rebasable(s.state, run.head) then Index(s, run.head, run.req, run.fault).store else s
  }

  function AfterAll(s: Tables, runs: seq<Run>): Tables {
    if runs == [] then s else After(AfterAll(s, runs[..|runs| - 1]), runs[|runs| - 1])
  }
}
