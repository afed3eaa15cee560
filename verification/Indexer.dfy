/** The indexing call itself, with the working memory its closures share, proved to compute `IndexerSpec`. */
module Indexer {
  import opened Wrappers
  import opened CommitGraph
  import opened HistoryTables
  import opened HistoryStore
  import opened IndexerSpec
  import opened IndexerCall
  import opened IndexerSettled

  /** A walk that may already have passed the root. */
  function WalkOn(m: Memory, scan: Scan, checkpoint: set<Commit>, at: Option<Commit>, r: Range): Memory {
    if at.None? then m else Walk(m, scan, checkpoint, at.value, r)
  }

  /** Processing queued commits one after the other. */
  function Drain(m: Memory, scan: Scan, checkpoint: set<Commit>, pending: seq<Commit>): Memory
    decreases |pending|
  {
    if pending == [] then m else Drain(Process(m, scan, checkpoint, pending[0]), scan, checkpoint, pending[1..])
  }

  lemma {:induction false} DrainSnoc(m: Memory, scan: Scan, checkpoint: set<Commit>, pending: seq<Commit>, c: Commit)
    ensures Drain(m, scan, checkpoint, pending + [c]) == Process(Drain(m, scan, checkpoint, pending), scan, checkpoint, c)
    decreases |pending|
  {
    if pending == [] {
      assert [c][1..] == [];
      assert Drain(Process(m, scan, checkpoint, c), scan, checkpoint, []) == Process(m, scan, checkpoint, c);
      assert pending + [c] == [c];
    } else {
      assert (pending + [c])[1..] == pending[1..] + [c];
      DrainSnoc(Process(m, scan, checkpoint, pending[0]), scan, checkpoint, pending[1..], c);
    }
  }

  lemma {:induction false} DrainDead(m: Memory, scan: Scan, checkpoint: set<Commit>, pending: seq<Commit>)
    requires !m.alive
    ensures Drain(m, scan, checkpoint, pending) == m
  {
    if pending != [] {
      DrainDead(m, scan, checkpoint, pending[1..]);
    }
  }

  lemma {:induction false} ReadsRise(c: Commit, i: nat, n: nat)
    requires i <= n <= |c.changes|
    ensures ReadsUpTo(c, i) <= ReadsUpTo(c, n)
  {
    if i < n {
      ReadsRise(c, i, n - 1);
    }
  }

  class Call {
    const store: Store
    const fault: Fault
    /** Whether the repository is an owned mirror, and whether its blobs can be fetched ahead. */
    const owned: bool
    const hydrates: bool

    var seen: set<Commit>
    var encountered: set<Commit>
    var loaded: set<Commit>
    var missing: set<Key>
    var events: seq<EventId>
    var diagnostics: seq<Diagnostic>
    var processed: seq<Commit>
    var batchCommits: nat
    var batchLimit: nat
    var scanCursor: Option<Cursor>
    var lastWalkCommit: Option<Commit>
    var fuel: nat
    var alive: bool
    var prefetcher: Option<bool>
    ghost var log: seq<seq<Commit>>

    ghost predicate Valid()
      reads this
    {
      batchCommits == |processed|
    }

    ghost function View(): Memory
      reads this, store
    {
      Memory(store.Contents(), seen, encountered, loaded, missing, events, diagnostics, processed, batchLimit,
             scanCursor, lastWalkCommit, fuel, alive, fault, log)
    }

    constructor (store: Store, req: Request, fault: Fault, owned: bool, hydrates: bool)
      ensures Valid() && this.store == store && this.fault == fault
      ensures View() == Start(store.Contents(), req, fault)
      ensures forall k :: k in missing <==> k in req.wanted && k !in store.coverage && forall e | e in store.events :: e.key != k
    {
      this.store, this.fault, this.owned, this.hydrates := store, fault, owned, hydrates;
      seen, encountered, loaded := {}, {}, {};
      events, diagnostics, processed, batchCommits, batchLimit := [], [], [], 0, INITIAL_BATCH;
      scanCursor, lastWalkCommit, prefetcher, fuel, alive, log := None, None, None, fault.fuel, true, [];
      missing := {};
      new;
      var left := req.wanted;
      while left != {}
        invariant left <= req.wanted && Valid()
        invariant View() == Start(store.Contents(), req, fault).(missing := missing)
        invariant missing == set k | k in req.wanted - left && !HasEvent(store.Contents(), k) && k !in store.coverage
        decreases left
      {
        var k :| k in left;
        if !(exists e | e in store.events :: e.key == k) && k !in store.coverage {
          missing := missing + {k};
        }
        left := left - {k};
      }
    }

    method ApplyBatchOnce(b: Batch)
      requires Valid()
      modifies this, store
      ensures Valid() && View() == Write(old(View()), ApplyBatch(old(store.Contents()), b))
      ensures prefetcher == old(prefetcher)
    {
      if fuel == 0 {
        alive := false;
        if fault.applied {
          store.ApplyHistoryBatch(b);
        }
      } else {
        store.ApplyHistoryBatch(b);
        fuel := fuel - 1;
      }
    }

    method FinalizeOnce(f: Finish)
      requires Valid()
      modifies this, store
      ensures Valid() && View() == Write(old(View()), Finalize(old(store.Contents()), f))
      ensures prefetcher == old(prefetcher)
    {
      if fuel == 0 {
        alive := false;
        if fault.applied {
          store.FinalizeHistory(f);
        }
      } else {
        store.FinalizeHistory(f);
        fuel := fuel - 1;
      }
    }

    method ResetBatch()
      modifies this
      ensures Valid() && prefetcher == old(prefetcher) && alive == old(alive)
      ensures View() == old(View()).(events := [], diagnostics := [], processed := [], limit := FULL_BATCH,
                                     log := old(log) + [old(processed)])
    {
      log := log + [processed];
      events, diagnostics, processed := [], [], [];
      batchCommits, batchLimit := 0, FULL_BATCH;
    }

    method FlushBatch(key: ScanKey)
      requires Valid()
      modifies this, store
      ensures Valid() && View() == Flush(old(View()), key)
      ensures prefetcher == old(prefetcher)
    {
      if batchCommits > 0 {
        ApplyBatchOnce(Batch(key, events, diagnostics, processed, false, scanCursor));
        assert View() == Write(old(View()), ApplyBatch(old(View()).store, PendingBatch(old(View()), key)));
        if alive {
          ResetBatch();
        }
      }
    }

    method ProcessCommit(scan: Scan, checkpoint: set<Commit>, c: Commit)
      requires Valid() && alive
      modifies this, store
      ensures Valid() && View() == Process(old(View()), scan, checkpoint, c)
      ensures prefetcher == old(prefetcher)
    {
      if fuel == 0 {
        alive := false;
        return;
      }
      lastWalkCommit := Some(c);
      encountered := encountered + {c};
      if c in seen {
        return;
      }
      if c in checkpoint {
        seen := seen + {c};
        return;
      }
      if scan.key.Fallback? && scan.cutoff != 0 && scan.cutoff <= c.time {
        return;
      }
      seen := seen + {c};
      TakeCommit(scan, c);
    }

    method TakeCommit(scan: Scan, c: Commit)
      requires Valid() && alive
      modifies this, store
      ensures Valid() && prefetcher == old(prefetcher)
      ensures View() == if old(fuel) < ReadsUpTo(c, |c.changes|) then old(View()).(alive := false, fuel := 0) else
                        var r := Recorded(old(View()), scan, c);
                        if |r.processed| == r.limit then Flush(r, scan.key) else r
    {
      var complete := ReadDefinitions(scan.key.Fallback?, c);
      if complete {
        processed := processed + [c];
        batchCommits := batchCommits + 1;
        if scanCursor.Some? {
          scanCursor := Some(scanCursor.value.(frontier := Some(c)));
        }
        assert View() == Recorded(old(View()), scan, c);
        if batchCommits == batchLimit {
          FlushBatch(scan.key);
        }
      }
    }

    /** Parse one commit. If a read fails, what this commit added to the batch and took from the missing
        keys is put back. */
    method ReadDefinitions(fallback: bool, c: Commit) returns (complete: bool)
      requires alive
      modifies this`events, this`diagnostics, this`missing, this`fuel, this`alive
      ensures complete <==> ReadsUpTo(c, |c.changes|) <= old(fuel)
      ensures alive == complete
      ensures complete ==> var p := ParseUpTo(c, |c.changes|, fallback, old(missing));
        events == old(events) + p.events && diagnostics == old(diagnostics) + p.diagnostics &&
        missing == p.missing && fuel == old(fuel) - ReadsUpTo(c, |c.changes|)
      ensures !complete ==> events == old(events) && diagnostics == old(diagnostics) && missing == old(missing) && fuel == 0
    {
      hide ParseUpTo, NoteRows, ReadsUpTo, Relevant, DefinitionPaths, Reads;
      var eventStart, diagnosticStart := |events|, |diagnostics|;
      var foundMissing: set<Key> := {};
      var i := 0;
      complete := true;
      ParseNone(c, fallback, missing);
      ReadsNone(c);
      while i < |c.changes| && complete
        invariant i <= |c.changes|
        invariant foundMissing <= old(missing) && missing == old(missing) - foundMissing
        invariant ReadsUpTo(c, i) <= old(fuel) && fuel == old(fuel) - ReadsUpTo(c, i)
        invariant alive
        invariant var p := ParseUpTo(c, i, fallback, old(missing));
          events == old(events) + p.events && diagnostics == old(diagnostics) + p.diagnostics && missing == p.missing
        invariant !complete ==> fuel < ReadsUpTo(c, |c.changes|) - ReadsUpTo(c, i)
        decreases |c.changes| - i, complete
      {
        ReadsRise(c, i + 1, |c.changes|);
        ReadsNext(c, i);
        var ch := c.changes[i];
        var (beforePath, afterPath) := DefinitionPaths(ch);
        var cost := (if beforePath != "" then 1 else 0) + (if afterPath != "" then 1 else 0);
        if fuel < cost {
          complete := false;
        } else {
          ParseNext(c, i, fallback, old(missing));
          if beforePath != "" || afterPath != "" {
            fuel := fuel - cost;
            var found := ReadChange(fallback, c, ch);
            foundMissing := foundMissing + found;
          }
          i := i + 1;
        }
      }
      if !complete {
        events, diagnostics := events[..eventStart], diagnostics[..diagnosticStart];
        missing := missing + foundMissing;
        alive, fuel := false, 0;
      }
    }

    lemma ReadsNone(c: Commit)
      ensures ReadsUpTo(c, 0) == 0
    {
    }

    /** What one more change costs. */
    lemma ReadsNext(c: Commit, i: nat)
      requires i < |c.changes|
      ensures var paths := DefinitionPaths(c.changes[i]);
        && ReadsUpTo(c, i + 1) == ReadsUpTo(c, i) + (if paths.0 != "" then 1 else 0) + (if paths.1 != "" then 1 else 0)
        && (Relevant(c.changes[i]) <==> paths.0 != "" || paths.1 != "")
    {
    }

    lemma ParseNone(c: Commit, fallback: bool, missing: set<Key>)
      ensures ParseUpTo(c, 0, fallback, missing) == Parsed([], [], missing)
    {
    }

    /** What one more change adds. */
    lemma ParseNext(c: Commit, i: nat, fallback: bool, missing: set<Key>)
      requires i < |c.changes|
      ensures var p, q, ch := ParseUpTo(c, i, fallback, missing), ParseUpTo(c, i + 1, fallback, missing), c.changes[i];
        if !Relevant(ch) then q == p
        else && q.diagnostics == p.diagnostics + NoteRows(c, ch.path, ch.notes)
             && (if ch.update.None? || (fallback && ch.update.value !in p.missing) then q.events == p.events && q.missing == p.missing
                 else q.events == p.events + [EventId(c, ch.update.value)] && q.missing == p.missing - {ch.update.value})
    {
    }

    /** Parse the definitions on both sides of one change. */
    method ReadChange(fallback: bool, c: Commit, ch: Change) returns (found: set<Key>)
      modifies this`events, this`diagnostics, this`missing
      ensures diagnostics == old(diagnostics) + NoteRows(c, ch.path, ch.notes)
      ensures if ch.update.None? || (fallback && ch.update.value !in old(missing))
              then events == old(events) && missing == old(missing) && found == {}
              else events == old(events) + [EventId(c, ch.update.value)] && missing == old(missing) - {ch.update.value}
                   && found == old(missing) * {ch.update.value}
    {
      found := {};
      AddNotes(c, ch);
      if ch.update.Some? && (fallback ==> ch.update.value in missing) {
        events := events + [EventId(c, ch.update.value)];
        if ch.update.value in missing {
          found := {ch.update.value};
          missing := missing - {ch.update.value};
        }
      }
    }

    method AddNotes(c: Commit, ch: Change)
      modifies this`diagnostics
      ensures diagnostics == old(diagnostics) + NoteRows(c, ch.path, ch.notes)
    {
      for i := 0 to |ch.notes|
        invariant diagnostics == old(diagnostics) + NoteRows(c, ch.path, ch.notes[..i])
      {
        assert ch.notes[..i + 1][..i] == ch.notes[..i];
        diagnostics := diagnostics + [Diagnostic(c, ch.path, ch.notes[i])];
      }
      assert ch.notes[..|ch.notes|] == ch.notes;
    }

    /** Fetch ahead what the queued commits need, then process them in order. A failed fetch ends the call
        exactly where a failed read of the first queued commit would. */
    method Consume(scan: Scan, checkpoint: set<Commit>, pending: seq<Commit>)
      requires Valid() && alive
      modifies this, store
      ensures Valid() && View() == Drain(old(View()), scan, checkpoint, pending)
    {
      if pending == [] {
        return;
      }
      if prefetcher != Some(false) {
        var needed := false;
        for i := 0 to |pending|
        {
          var c := pending[i];
          if !(c in seen || c in checkpoint || (scan.key.Fallback? && scan.cutoff != 0 && scan.cutoff <= c.time)) {
            for j := 0 to |c.changes|
            {
              var (beforePath, afterPath) := DefinitionPaths(c.changes[j]);
              needed := needed || beforePath != "" || afterPath != "";
            }
          }
        }
        if needed {
          if fuel == 0 {
            alive := false;
            DrainDead(View(), scan, checkpoint, pending[1..]);
            return;
          }
          if prefetcher.None? {
            prefetcher := Some(hydrates);
          }
        }
      }
      var i := 0;
      while i < |pending| && alive
        invariant i <= |pending| && Valid()
        invariant Drain(View(), scan, checkpoint, pending[i..]) == Drain(old(View()), scan, checkpoint, pending)
      {
        ProcessCommit(scan, checkpoint, pending[i]);
        assert pending[i..][0] == pending[i] && pending[i..][1..] == pending[i + 1..];
        i := i + 1;
      }
      if !alive {
        DrainDead(View(), scan, checkpoint, pending[i..]);
      }
    }

    /** The commit walk, with or without lookahead: the same commits in the same order and the same batches. */
    method WalkCommits(scan: Scan, checkpoint: set<Commit>, tip: Commit, r: Range)
      requires Valid() && alive
      modifies this, store
      ensures Valid() && View() == WalkAll(old(View()), scan, checkpoint, tip, r)
    {
      lastWalkCommit := None;
      ghost var start := View();
      var pending: seq<Commit> := [];
      var at := Some(tip);
      while alive && at.Some? && !Below(at.value, r.floor) && r.since <= at.value.time
        invariant Valid()
        invariant pending != [] ==> alive && owned && prefetcher != Some(false)
        invariant WalkOn(Drain(View(), scan, checkpoint, pending), scan, checkpoint, at, r) == Walk(start, scan, checkpoint, tip, r)
        decreases at.Some?, if at.Some? then Depth(at.value) else 0
      {
        var c := at.value;
        ghost var drained := Drain(View(), scan, checkpoint, pending);
        ghost var queue := pending;
        if Within(r, c) {
          DrainSnoc(View(), scan, checkpoint, pending, c);
          if !owned || prefetcher == Some(false) {
            ProcessCommit(scan, checkpoint, c);
          } else {
            pending := pending + [c];
            if |pending| >= batchLimit - batchCommits {
              Consume(scan, checkpoint, pending);
              pending := [];
            }
          }
        }
        assert Drain(View(), scan, checkpoint, pending) ==
               if Within(r, c) then Process(drained, scan, checkpoint, c) else drained;
        DrainedStops(drained, scan, checkpoint, c, r);
        at := if c.Child? then Some(c.parent) else None;
      }
      if alive {
        WalkEnds(Drain(View(), scan, checkpoint, pending), scan, checkpoint, at, r);
        Consume(scan, checkpoint, pending);
      }
      if !alive && batchCommits > 0 && fault.late {
        store.ApplyHistoryBatch(Batch(scan.key, events, diagnostics, processed, false, scanCursor));
      }
    }

    static lemma DrainedStops(m: Memory, scan: Scan, checkpoint: set<Commit>, c: Commit, r: Range)
      requires !Below(c, r.floor) && r.since <= c.time
      ensures Walk(m, scan, checkpoint, c, r) ==
                WalkOn(if Within(r, c) then Process(m, scan, checkpoint, c) else m, scan, checkpoint,
                       if c.Child? then Some(c.parent) else None, r)
    {
      if !m.alive && c.Child? {
        assert Walk(m, scan, checkpoint, c.parent, r) == m;
      }
    }

    static lemma WalkEnds(m: Memory, scan: Scan, checkpoint: set<Commit>, at: Option<Commit>, r: Range)
      requires at.None? || Below(at.value, r.floor) || at.value.time < r.since || !m.alive
      ensures WalkOn(m, scan, checkpoint, at, r) == m
    {
    }

    method WalkAndFlush(scan: Scan, checkpoint: set<Commit>, tip: Commit, r: Range)
      requires Valid() && alive
      modifies this, store
      ensures Valid() && View() == FlushIfAlive(WalkAll(old(View()), scan, checkpoint, tip, r), scan.key)
    {
      WalkCommits(scan, checkpoint, tip, r);
      if alive {
        FlushBatch(scan.key);
      }
    }

    method RestartScan(scan: Scan, checkpoint: set<Commit>, head: Commit)
      requires Valid() && alive
      modifies this, store
      ensures Valid() && View() == Restart(old(View()), scan, checkpoint, head)
    {
      scanCursor := None;
      if checkpoint == {} {
        scanCursor := Some(Cursor(head, None, scan.range.floor, scan.range.since, scan.range.until, scan.cutoff));
      }
      WalkAndFlush(scan, checkpoint, head, scan.range);
    }

    method ResumeScan(scan: Scan, checkpoint: set<Commit>, cur: Cursor)
      requires Valid() && alive && cur.frontier.Some?
      modifies this, store
      ensures Valid() && View() == Resume(old(View()), scan, checkpoint, cur)
    {
      encountered := encountered + checkpoint;
      seen := seen + checkpoint;
      scanCursor := Some(cur);
      var frontier := cur.frontier.value;
      if frontier.Child? {
        WalkAndFlush(scan, checkpoint, frontier.parent, scan.range);
      } else {
        FlushBatch(scan.key);
      }
    }

    method ExtendScan(scan: Scan, checkpoint: set<Commit>, cur: Cursor, head: Commit)
      requires Valid() && alive && cur.frontier.Some?
      modifies this, store
      ensures Valid() && View() == Extend(old(View()), scan, checkpoint, cur, head)
    {
      WalkAndFlush(scan, checkpoint, head, scan.range.(floor := Some(cur.head)));
      if !alive {
        return;
      }
      var reachedOldHead := scan.range.since == 0;
      if lastWalkCommit.Some? && lastWalkCommit.value.Child? {
        reachedOldHead := reachedOldHead || lastWalkCommit.value.parent == cur.head;
      }
      if !reachedOldHead {
        RestartScan(scan, checkpoint, head);
        return;
      }
      var moved := cur.(head := head);
      ApplyBatchOnce(SaveCursor(scan.key, moved));
      if alive {
        ResumeScan(scan, checkpoint, moved);
      }
    }

    method ScanOneRange(scan: Scan, head: Commit)
      requires Valid() && alive
      modifies this, store
      ensures Valid() && View() == ScanRange(old(View()), scan, head)
    {
      var checkpoint := store.HistoryScanProgress(scan.key);
      if scan.key.Fallback? && missing == {} && checkpoint == {} {
        return;
      }
      loaded := loaded + checkpoint;
      scanCursor := None;
      assert View() == Loaded(old(View()), scan.key);
      if fuel == 0 {
        alive := false;
      } else {
        ScanFromCursor(scan, checkpoint, head);
      }
    }

    method ScanFromCursor(scan: Scan, checkpoint: set<Commit>, head: Commit)
      requires Valid() && alive
      modifies this, store
      ensures Valid() && View() == FromCursor(old(View()), scan, checkpoint, head)
    {
      var validCursor := false;
      if scan.key in store.cursors {
        var saved := store.cursors[scan.key];
        validCursor := saved.frontier.Some? && Row(scan.key, saved.frontier.value) in store.rows &&
          saved.floor == scan.range.floor && saved.since == scan.range.since &&
          saved.until == scan.range.until && saved.cutoff == scan.cutoff && Anc(saved.head, head);
        if validCursor && saved.head == head {
          ResumeScan(scan, checkpoint, saved);
          return;
        }
        ApplyBatchOnce(ClearCursor(scan.key));
        if !alive {
          return;
        }
        if validCursor {
          ExtendScan(scan, checkpoint, saved, head);
          return;
        }
      }
      RestartScan(scan, checkpoint, head);
    }

    method ScanPrimary(p: Plan, head: Commit)
      requires Valid() && alive
      modifies this, store
      ensures Valid() && View() == ScanIf(ScanIf(old(View()), p.first, head), p.backward, head)
    {
      if p.first.Some? {
        ScanOneRange(p.first.value, head);
      }
      if alive && p.backward.Some? {
        ScanOneRange(p.backward.value, head);
      }
    }

    method PublishAndFallBack(p: Plan, head: Commit)
      requires Valid() && alive
      modifies this, store
      ensures Valid() && View() == ScanIf(Publish(old(View()), p, head), Some(p.fallback), head)
    {
      var completed := PrimaryKeys(p);
      if completed != {} && loaded <= encountered {
        FinalizeOnce(Finish(head, p.since, p.remove, {}, completed));
      }
      assert View() == Publish(old(View()), p, head);
      if alive {
        ScanOneRange(p.fallback, head);
      }
    }

    method Run(head: Commit, req: Request)
      requires Valid() && Rebasable(store.state, head)
      requires View() == Start(store.Contents(), req, fault)
      modifies this, store
      ensures Valid() && View() == Index(old(store.Contents()), head, req, fault)
    {
      var p := PlanFor(store.state, head, req);
      var fallback := missing != {};
      ScanPrimary(p, head);
      assert View() == AfterPrimary(old(store.Contents()), head, req, fault);
      if alive && fallback {
        PublishAndFallBack(p, head);
      }
      assert View() == BeforeClose(old(store.Contents()), head, req, fault);
      if alive {
        FinalizeOnce(Finish(head, p.since, p.remove + (loaded - encountered), if fallback then missing else {},
                            PrimaryKeys(p) + if fallback then {p.fallback.key} else {}));
      }
    }
  }

  /** One call on a store. Without a merge base the call fails and writes nothing. */
  method IndexHistory(store: Store, run: Run, owned: bool, hydrates: bool) returns (ok: bool)
    modifies store
    ensures store.Contents() == After(old(store.Contents()), run)
    ensures ok <==> Completes(old(store.Contents()), run)
    ensures ok ==> store.state.Some? && store.state.value.head == run.head
    ensures ok && Sound(old(store.Contents())) && Mono(run.head) ==>
              forall k | k in run.req.wanted && Unknown(old(store.Contents()), k) ::
                k in store.coverage <==> forall e | e in store.events :: e.key != k
  {
    ghost var before := store.Contents();
    if Sound(before) && Mono(run.head) && Completes(before, run) {
      forall k | k in run.req.wanted && Unknown(before, k) ensures k in After(before, run).coverage <==> forall e | e in After(before, run).events :: e.key != k {
        UnknownIsSearched(before, run, k);
      }
    }
    if store.state.Some? && MergeBase(store.state.value.head, run.head).None? {
      return false;
    }
    var call := new Call(store, run.req, run.fault, owned, hydrates);
    call.Run(run.head, run.req);
    ok := call.alive;
  }
}
