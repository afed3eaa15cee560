/** The parser of a whole buffer, and its agreement with the stream parser. */
module LogBatch {
  import opened Streams
  import opened LogParser

  /** `bytes.Split` at NUL. */
  function Split(data: string): (parts: seq<string>)
    ensures parts != []
    decreases |data|
  {
    var n := Find(data, NUL);
    if n == |data| then [data] else [data[..n]] + Split(data[n + 1..])
  }

  datatype Changes = Broken | Changes(changes: seq<Change>, rest: seq<string>)

  function WithChange(change: Change, c: Changes): Changes {
    match c
    case Broken => Broken
    case Changes(changes, rest) => Changes([change] + changes, rest)
  }

  /** The inner loop: changes up to the next object identity. */
  function BatchChanges(parts: seq<string>): Changes
    decreases |parts|
  {
    if parts == [] then Changes([], []) else
    if parts[0] == "" then BatchChanges(parts[1..]) else
    var status := TrimNewline(parts[0]);
    if IsObjectId(status) then Changes([], parts)
    else if status == "" || |parts| < 2 then Broken
    else if TwoPaths(status) then
      if |parts| < 3 then Broken else WithChange(Change(status[..1], parts[1], parts[2]), BatchChanges(parts[3..]))
    else WithChange(Change(status[..1], "", parts[1]), BatchChanges(parts[2..]))
  }

  lemma {:induction false} BatchShrinks(parts: seq<string>)
    ensures BatchChanges(parts).Changes? ==> |BatchChanges(parts).rest| <= |parts|
    decreases |parts|
  {
    if parts != [] {
      if parts[0] == "" {
        BatchShrinks(parts[1..]);
      } else {
        var status := TrimNewline(parts[0]);
        if !IsObjectId(status) && status != "" && |parts| >= 2 {
          if TwoPaths(status) {
            if |parts| >= 3 {
              BatchShrinks(parts[3..]);
            }
          } else {
            BatchShrinks(parts[2..]);
          }
        }
      }
    }
  }

  function BatchParse(parts: seq<string>, valid: string -> bool): Parsed
    decreases |parts|
  {
    if parts == [] then Parsed([], true) else
    if parts[0] == "" then BatchParse(parts[1..], valid) else
    var hash := TrimNewline(parts[0]);
    if !IsObjectId(hash) || |parts| < 3 || !valid(parts[1]) then Parsed([], false) else
    BatchShrinks(parts[3..]);
    match BatchChanges(parts[3..])
    case Broken => Parsed([], false)
    case Changes(changes, rest) =>
      var p := BatchParse(rest, valid);
      if p.ok then Prepend([Commit(hash, parts[1], parts[2], changes)], p) else Parsed([], false)
  }

  // ---- round trip --------------------------------------------------------------------------------

  lemma {:induction false} SplitEmit(fields: seq<string>)
    requires forall f | f in fields :: Clean(f)
    ensures Split(Emit(fields)) == fields + [""]
  {
    if fields != [] {
      assert fields[0] in fields;
      var data := Emit(fields);
      assert data == fields[0] + ([NUL] + Emit(fields[1..]));
      FindUnique(data, NUL, |fields[0]|);
      assert data[..|fields[0]|] == fields[0] && data[|fields[0]| + 1..] == Emit(fields[1..]);
      SplitEmit(fields[1..]);
      assert forall f | f in fields[1..] :: f in fields;
      assert fields + [""] == [fields[0]] + (fields[1..] + [""]);
    }
  }

  lemma {:induction false} BatchSkips(n: nat, more: seq<string>, valid: string -> bool)
    ensures BatchChanges(Empties(n) + more) == BatchChanges(more)
    ensures BatchParse(Empties(n) + more, valid) == BatchParse(more, valid)
  {
    if n == 0 {
      assert Empties(n) + more == more;
    } else {
      BatchSkips(n - 1, more, valid);
      assert (Empties(n) + more)[1..] == Empties(n - 1) + more;
    }
  }

  lemma BatchChange(c: Change, p: Padding, more: seq<string>, valid: string -> bool)
    requires GoodChange(c)
    ensures BatchChanges(ChangeFields(c, p) + more) == WithChange(c.(status := c.status[..1]), BatchChanges(more))
  {
    LeadTrims(p, c.status);
    var parts := ChangeFields(c, p) + more;
    assert parts == Bare(c, p) + (Empties(p.empties) + more);
    assert parts[|Bare(c, p)|..] == Empties(p.empties) + more;
    BatchSkips(p.empties, more, valid);
  }

  lemma {:induction false} BatchReadsChanges(changes: seq<Change>, p: seq<Padding>, more: seq<string>, end: seq<string>, valid: string -> bool)
    requires |p| == |changes| && (forall i | 0 <= i < |changes| :: GoodChange(changes[i])) && BatchChanges(more) == Changes([], end)
    ensures BatchChanges(ChangesFields(changes, p) + more) == Changes(CutChanges(changes), end)
    decreases |changes|
  {
    if changes == [] {
      assert ChangesFields(changes, p) + more == more;
    } else {
      var rest := ChangesFields(changes[1..], p[1..]) + more;
      assert ChangesFields(changes, p) + more == ChangeFields(changes[0], p[0]) + rest;
      BatchChange(changes[0], p[0], rest, valid);
      BatchReadsChanges(changes[1..], p[1..], more, end, valid);
    }
  }

  /** The final empty part, or the next record. */
  lemma StartsRecord(commits: seq<Commit>, layouts: seq<Layout>, valid: string -> bool)
    requires Fits(commits, layouts) && forall i | 0 <= i < |commits| :: GoodCommit(commits[i], valid)
    ensures var more := LogFields(commits, layouts) + [""];
      if commits == [] then BatchChanges(more) == Changes([], []) else BatchChanges(more) == Changes([], more)
  {
    if commits == [] {
      assert LogFields(commits, layouts) + [""] == [""] && [""][1..] == [];
    } else {
      LeadTrims(layouts[0].header, commits[0].hash);
    }
  }

  lemma BatchReadsCommit(c: Commit, l: Layout, more: seq<string>, end: seq<string>, valid: string -> bool)
    requires |l.changes| == |c.changes| && GoodCommit(c, valid) && BatchChanges(more) == Changes([], end)
    ensures var p := BatchParse(end, valid);
      BatchParse(CommitFields(c, l) + more, valid) == if p.ok then Prepend([CutCommit(c)], p) else Parsed([], false)
  {
    LeadTrims(l.header, c.hash);
    var parts := CommitFields(c, l) + more;
    var body := ChangesFields(c.changes, l.changes) + more;
    assert parts == [Lead(l.header, c.hash), c.time, c.subject] + (Empties(l.header.empties) + body);
    assert parts[3..] == Empties(l.header.empties) + body;
    BatchSkips(l.header.empties, body, valid);
    BatchReadsChanges(c.changes, l.changes, more, end, valid);
  }

  lemma {:induction false} BatchReads(commits: seq<Commit>, layouts: seq<Layout>, valid: string -> bool)
    requires Fits(commits, layouts) && forall i | 0 <= i < |commits| :: GoodCommit(commits[i], valid)
    ensures BatchParse(LogFields(commits, layouts) + [""], valid) == Parsed(Cut(commits), true)
  {
    if commits == [] {
      assert LogFields(commits, layouts) + [""] == [""] && [""][1..] == [];
    } else {
      var more := LogFields(commits[1..], layouts[1..]) + [""];
      assert LogFields(commits, layouts) + [""] == CommitFields(commits[0], layouts[0]) + more;
      StartsRecord(commits[1..], layouts[1..], valid);
      BatchReads(commits[1..], layouts[1..], valid);
      BatchReadsCommit(commits[0], layouts[0], more, if commits[1..] == [] then [] else more, valid);
    }
  }

  /** The batch parser gives back whatever was printed, empty subjects included. */
  lemma BatchRoundTrip(commits: seq<Commit>, layouts: seq<Layout>, valid: string -> bool)
    requires Fits(commits, layouts) && forall i | 0 <= i < |commits| :: GoodCommit(commits[i], valid)
    ensures BatchParse(Split(Emit(LogFields(commits, layouts))), valid) == Parsed(Cut(commits), true)
  {
    FieldsClean(commits, layouts, valid);
    SplitEmit(LogFields(commits, layouts));
    BatchReads(commits, layouts, valid);
  }

  /** The two parsers agree on printed text exactly when every subject can be told. */
  lemma ParsersAgree(commits: seq<Commit>, layouts: seq<Layout>, valid: string -> bool)
    requires Fits(commits, layouts) && forall i | 0 <= i < |commits| :: GoodCommit(commits[i], valid)
    ensures var data := Emit(LogFields(commits, layouts));
      ParseTokens(Tokens(data), Open(data), valid) == BatchParse(Split(data), valid) <==> TellsSubjects(commits)
  {
    LogRoundTrip(commits, layouts, valid);
    BatchRoundTrip(commits, layouts, valid);
  }

  // ---- the parsers as they run -------------------------------------------------------------------

  /** The inner loop of `parseCommits`. */
  method ScanChanges(parts: seq<string>, start: nat) returns (changes: seq<Change>, i: nat, ok: bool)
    requires start <= |parts|
    ensures start <= i <= |parts|
    ensures BatchChanges(parts[start..]) == if ok then Changes(changes, parts[i..]) else Broken
  {
    changes, i, ok := [], start, true;
    while i < |parts|
      invariant start <= i <= |parts| && ok
      invariant BatchChanges(parts[start..]) == After(changes, BatchChanges(parts[i..]))
    {
      if parts[i] == "" {
        assert parts[i..][1..] == parts[i + 1..];
        i := i + 1;
        continue;
      }
      var status := TrimNewline(parts[i]);
      if IsObjectId(status) {
        break;
      }
      if status == "" || i + 1 == |parts| {
        return changes, i, false;
      }
      ghost var rest := parts[i..];
      if TwoPaths(status) {
        if i + 2 >= |parts| {
          return changes, i, false;
        }
        var change := Change(status[..1], parts[i + 1], parts[i + 2]);
        assert rest[3..] == parts[i + 3..];
        AfterSnoc(changes, change, BatchChanges(parts[i + 3..]));
        changes, i := changes + [change], i + 3;
      } else {
        var change := Change(status[..1], "", parts[i + 1]);
        assert rest[2..] == parts[i + 2..];
        AfterSnoc(changes, change, BatchChanges(parts[i + 2..]));
        changes, i := changes + [change], i + 2;
      }
    }
    if i == |parts| {
      assert parts[i..] == [];
    }
    assert changes + [] == changes;
  }

  function After(changes: seq<Change>, c: Changes): Changes {
    match c
    case Broken => Broken
    case Changes(more, rest) => Changes(changes + more, rest)
  }

  lemma AfterSnoc(changes: seq<Change>, change: Change, c: Changes)
    ensures After(changes, WithChange(change, c)) == After(changes + [change], c)
  {
    if c.Changes? {
      assert changes + ([change] + c.changes) == changes + [change] + c.changes;
    }
  }

  /** `parseCommits`. */
  method ParseCommits(data: string, valid: string -> bool) returns (commits: seq<Commit>, ok: bool)
    ensures BatchParse(Split(data), valid) == Parsed(if ok then commits else [], ok)
  {
    var parts := Split(data);
    commits := [];
    var i := 0;
    assert parts[0..] == parts;
    FailureYieldsNothing(parts, valid);
    assert [] + BatchParse(parts, valid).commits == BatchParse(parts, valid).commits;
    while i < |parts|
      invariant i <= |parts|
      invariant BatchParse(parts, valid) == Onto(commits, BatchParse(parts[i..], valid))
    {
      ghost var rest := parts[i..];
      if parts[i] == "" {
        assert rest[1..] == parts[i + 1..];
        i := i + 1;
        continue;
      }
      var hash := TrimNewline(parts[i]);
      if !IsObjectId(hash) || i + 2 >= |parts| {
        return [], false;
      }
      if !valid(parts[i + 1]) {
        return [], false;
      }
      assert rest[3..] == parts[i + 3..];
      var changes, next, read := ScanChanges(parts, i + 3);
      if !read {
        return [], false;
      }
      var commit := Commit(hash, parts[i + 1], parts[i + 2], changes);
      OntoSnoc(commits, commit, BatchParse(parts[next..], valid));
      commits, i := commits + [commit], next;
    }
    assert parts[i..] == [];
    return commits, true;
  }

  lemma {:induction false} FailureYieldsNothing(parts: seq<string>, valid: string -> bool)
    ensures !BatchParse(parts, valid).ok ==> BatchParse(parts, valid).commits == []
    decreases |parts|
  {
    if parts != [] && parts[0] == "" {
      FailureYieldsNothing(parts[1..], valid);
    }
  }

  function Onto(commits: seq<Commit>, p: Parsed): Parsed {
    if p.ok then Prepend(commits, p) else Parsed([], false)
  }

  lemma OntoSnoc(commits: seq<Commit>, c: Commit, p: Parsed)
    ensures Onto(commits, Onto([c], p)) == Onto(commits + [c], p)
  {
    assert commits + ([c] + p.commits) == commits + [c] + p.commits;
  }
}
