/** The history tables of one repository and the two transactions that write them.
    Every transaction is atomic; each is a function from tables to tables. */
module HistoryTables {
  import opened Wrappers
  import opened CommitGraph

  /** The identity a scan's progress is filed under. The program hashes these parts. */
  datatype ScanKey =
    | Initial
    | Forward(from: Commit)
    | Backward(since: nat, until: nat)
    | Fallback(installed: multiset<Package>)

  datatype EventId = EventId(commit: Commit, key: Key)
  datatype Diagnostic = Diagnostic(commit: Commit, path: string, message: string)
  datatype Row = Row(key: ScanKey, commit: Commit)
  datatype Cursor = Cursor(head: Commit, frontier: Option<Commit>, floor: Option<Commit>,
                           since: nat, until: nat, cutoff: nat)
  datatype HistoryState = HistoryState(head: Commit, since: nat)

  datatype Tables = Tables(events: set<EventId>, diagnostics: set<Diagnostic>, rows: set<Row>,
                           cursors: map<ScanKey, Cursor>, coverage: set<Key>, state: Option<HistoryState>)

  const EMPTY := Tables({}, {}, {}, map[], {}, None)

  datatype Batch = Batch(key: ScanKey, events: seq<EventId>, diagnostics: seq<Diagnostic>, processed: seq<Commit>,
                         clear: bool, cursor: Option<Cursor>)

  datatype Finish = Finish(head: Commit, since: nat, remove: set<Commit>, exhausted: set<Key>, completed: set<ScanKey>)

  function RowsOf(s: Tables, key: ScanKey): set<Commit> {
    set row | row in s.rows && row.key == key :: row.commit
  }

  /** `ApplyHistoryBatch`: every insert ignores conflicts, the cursor is replaced. */
  function ApplyBatch(s: Tables, b: Batch): Tables {
    var kept := if b.clear then s.cursors - {b.key} else s.cursors;
    s.(events := s.events + (set e | e in b.events),
       diagnostics := s.diagnostics + (set d | d in b.diagnostics),
       rows := s.rows + (set c | c in b.processed :: Row(b.key, c)),
       cursors := if b.cursor.Some? then kept[b.key := b.cursor.value] else kept)
  }

  /** The reconciliation half of `FinalizeHistory`: forget every trace of the removed commits. */
  function RemoveCommits(s: Tables, remove: set<Commit>): Tables {
    if remove == {} then s else
    var touched := set row | row in s.rows && row.commit in remove :: row.key;
    Tables((set e | e in s.events && e.commit !in remove),
           (set d | d in s.diagnostics && d.commit !in remove),
           (set row | row in s.rows && row.commit !in remove),
           s.cursors - touched,
           {},
           s.state)
  }

  /** `FinalizeHistory`: reconcile, record coverage and the indexed range, close the finished scans. */
  function Finalize(s: Tables, f: Finish): Tables {
    var r := RemoveCommits(s, f.remove);
    r.(coverage := r.coverage + f.exhausted,
       state := Some(HistoryState(f.head, f.since)),
       rows := (set row | row in r.rows && row.key !in f.completed),
       cursors := r.cursors - f.completed)
  }

  lemma RowsOfExact(s: Tables, key: ScanKey, c: Commit)
    ensures c in RowsOf(s, key) <==> Row(key, c) in s.rows
  {
    if Row(key, c) in s.rows {
      assert Row(key, c).commit in RowsOf(s, key);
    }
  }

  /** A batch whose commit was not observed may be written again. */
  lemma ReapplyChangesNothing(s: Tables, b: Batch)
    ensures ApplyBatch(ApplyBatch(s, b), b) == ApplyBatch(s, b)
  {
  }
}
