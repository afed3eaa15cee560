/** The store as the indexer uses it: one object whose tables each transaction updates in place. */
module HistoryStore {
  import opened Wrappers
  import opened CommitGraph
  import opened HistoryTables

  class Store {
    var events: set<EventId>
    var diagnostics: set<Diagnostic>
    var rows: set<Row>
    var cursors: map<ScanKey, Cursor>
    var coverage: set<Key>
    var state: Option<HistoryState>

    function Contents(): Tables
      reads this
    {
      Tables(events, diagnostics, rows, cursors, coverage, state)
    }

    constructor ()
      ensures Contents() == EMPTY
    {
      events, diagnostics, rows, cursors, coverage, state := {}, {}, {}, map[], {}, None;
    }

    /** Inserts ignore conflicts, row by row; the cursor is cleared before it is replaced. */
    method ApplyHistoryBatch(b: Batch)
      modifies this
      ensures Contents() == ApplyBatch(old(Contents()), b)
    {
      ghost var s := Contents();
      for i := 0 to |b.events|
        invariant Contents() == s.(events := s.events + set e | e in b.events[..i])
      {
        assert b.events[..i + 1] == b.events[..i] + [b.events[i]];
        events := events + {b.events[i]};
      }
      assert b.events[..|b.events|] == b.events;
      ghost var t := Contents();
      for i := 0 to |b.diagnostics|
        invariant Contents() == t.(diagnostics := t.diagnostics + set d | d in b.diagnostics[..i])
      {
        assert b.diagnostics[..i + 1] == b.diagnostics[..i] + [b.diagnostics[i]];
        diagnostics := diagnostics + {b.diagnostics[i]};
      }
      assert b.diagnostics[..|b.diagnostics|] == b.diagnostics;
      ghost var u := Contents();
      for i := 0 to |b.processed|
        invariant Contents() == u.(rows := u.rows + set c | c in b.processed[..i] :: Row(b.key, c))
      {
        ProcessedSoFar(b, i);
        rows := rows + {Row(b.key, b.processed[i])};
      }
      assert b.processed[..|b.processed|] == b.processed;
      if b.clear {
        cursors := cursors - {b.key};
      }
      if b.cursor.Some? {
        cursors := cursors[b.key := b.cursor.value];
      }
    }

    static lemma ProcessedSoFar(b: Batch, i: nat)
      requires i < |b.processed|
      ensures (set c | c in b.processed[..i + 1] :: Row(b.key, c)) ==
              (set c | c in b.processed[..i] :: Row(b.key, c)) + {Row(b.key, b.processed[i])}
    {
      assert b.processed[..i + 1] == b.processed[..i] + [b.processed[i]];
      assert b.processed[i] in b.processed[..i + 1];
      forall c | c in b.processed[..i] ensures c in b.processed[..i + 1] {}
    }

    method FinalizeHistory(f: Finish)
      modifies this
      ensures Contents() == Finalize(old(Contents()), f)
    {
      if f.remove != {} {
        events := set e | e in events && e.commit !in f.remove;
        diagnostics := set d | d in diagnostics && d.commit !in f.remove;
        var touched := set row | row in rows && row.commit in f.remove :: row.key;
        cursors := cursors - touched;
        rows := set row | row in rows && row.commit !in f.remove;
        coverage := {};
      }
      coverage := coverage + f.exhausted;
      state := Some(HistoryState(f.head, f.since));
      if f.completed != {} {
        rows := set row | row in rows && row.key !in f.completed;
        cursors := cursors - f.completed;
      }
    }

    method HistoryScanProgress(key: ScanKey) returns (commits: set<Commit>)
      ensures commits == RowsOf(Contents(), key)
    {
      commits := set row | row in rows && row.key == key :: row.commit;
    }
  }
}
