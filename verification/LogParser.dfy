/** Git's log with NUL separators: how it is printed, how a stream of it is parsed, and how a whole buffer is. */
module LogParser {
  import opened Streams

  datatype Change = Change(status: string, oldPath: string, path: string)
  datatype Commit = Commit(hash: string, time: string, subject: string, changes: seq<Change>)

  /** What was yielded, and whether parsing then failed. */
  datatype Parsed = Parsed(commits: seq<Commit>, ok: bool)

  predicate IsHex(c: char) {
    '0' <= c <= '9' || 'a' <= c <= 'f'
  }

  /** `isObjectID`. */
  predicate IsObjectId(value: string) {
    (|value| == 40 || |value| == 64) && forall i | 0 <= i < |value| :: IsHex(value[i])
  }

  /** `strings.TrimPrefix(token, "\n")`. */
  function TrimNewline(token: string): string {
    if token != "" && token[0] == '\n' then token[1..] else token
  }

  predicate TwoPaths(status: string) {
    status != "" && (status[0] == 'R' || status[0] == 'C')
  }

  // ---- the stream parser, on tokens --------------------------------------------------------------

  /** The non-empty runs between NULs. */
  function Tokens(data: string): seq<string>
    decreases |data|
  {
    if data == "" then [] else
    var n := Find(data, NUL);
    if n == |data| then [data]
    else if n == 0 then Tokens(data[1..])
    else [data[..n]] + Tokens(data[n + 1..])
  }

  /** Whether the last token runs into the end of the stream. */
  predicate Open(data: string) {
    data != "" && data[|data| - 1] != NUL
  }

  datatype Header = NoHeader | Header(commit: Commit, rest: seq<string>)

  /** `readHeader`: the time must be followed by more; the subject may be cut off. */
  function ReadHeader(hash: string, tokens: seq<string>, open: bool, valid: string -> bool): Header {
    if tokens == [] || (|tokens| == 1 && open) || !valid(tokens[0]) then NoHeader
    else if |tokens| == 1 then Header(Commit(hash, tokens[0], "", []), [])
    else Header(Commit(hash, tokens[0], tokens[1], []), tokens[2..])
  }

  function Prepend(commits: seq<Commit>, p: Parsed): Parsed {
    Parsed(commits + p.commits, p.ok)
  }

  function ParseTokens(tokens: seq<string>, open: bool, valid: string -> bool): Parsed {
    if tokens == [] then Parsed([], true) else
    var hash := TrimNewline(tokens[0]);
    if !IsObjectId(hash) then Parsed([], false) else
    match ReadHeader(hash, tokens[1..], open, valid)
    case NoHeader => Parsed([], false)
    case Header(commit, rest) => ParseBody(commit, rest, open, valid)
  }

  function AddChange(c: Commit, change: Change): Commit {
    c.(changes := c.changes + [change])
  }

  /** The loop: a commit in hand, and the tokens left. */
  function ParseBody(commit: Commit, tokens: seq<string>, open: bool, valid: string -> bool): Parsed
    decreases |tokens|
  {
    if tokens == [] then Parsed([commit], true) else
    var token := TrimNewline(tokens[0]);
    if IsObjectId(token) then
      match ReadHeader(token, tokens[1..], open, valid) {
        case NoHeader => Parsed([commit], false)
        case Header(next, rest) => Prepend([commit], ParseBody(next, rest, open, valid))
      }
    else if token == "" || |tokens| < 2 then Parsed([], false)
    else if TwoPaths(token) then
      if |tokens| < 3 then Parsed([], false)
      else ParseBody(AddChange(commit, Change(token[..1], tokens[1], tokens[2])), tokens[3..], open, valid)
    else ParseBody(AddChange(commit, Change(token[..1], "", tokens[1])), tokens[2..], open, valid)
  }

  // ---- printing ----------------------------------------------------------------------------------

  /** What Git may put around a record: a newline before its first field, and empty fields after it. */
  datatype Padding = Padding(newline: bool, empties: nat)

  function Lead(p: Padding, text: string): string {
    if p.newline then "\n" + text else text
  }

  function Empties(n: nat): seq<string> {
    if n == 0 then [] else [""] + Empties(n - 1)
  }

  /** The full record that Git prints for a change; the parser keeps one letter of the status. */
  function ChangeFields(c: Change, p: Padding): seq<string> {
    (if TwoPaths(c.status) then [Lead(p, c.status), c.oldPath, c.path] else [Lead(p, c.status), c.path]) + Empties(p.empties)
  }

  function ChangesFields(changes: seq<Change>, p: seq<Padding>): seq<string>
    requires |p| == |changes|
  {
    if changes == [] then [] else ChangeFields(changes[0], p[0]) + ChangesFields(changes[1..], p[1..])
  }

  datatype Layout = Layout(header: Padding, changes: seq<Padding>)

  predicate Fits(commits: seq<Commit>, layouts: seq<Layout>) {
    |layouts| == |commits| && forall i | 0 <= i < |commits| :: |layouts[i].changes| == |commits[i].changes|
  }

  function CommitFields(c: Commit, l: Layout): seq<string>
    requires |l.changes| == |c.changes|
  {
    [Lead(l.header, c.hash), c.time, c.subject] + Empties(l.header.empties) + ChangesFields(c.changes, l.changes)
  }

  function LogFields(commits: seq<Commit>, layouts: seq<Layout>): seq<string>
    requires Fits(commits, layouts)
  {
    if commits == [] then [] else CommitFields(commits[0], layouts[0]) + LogFields(commits[1..], layouts[1..])
  }

  /** Every field is followed by a NUL. */
  function Emit(fields: seq<string>): string {
    if fields == [] then "" else fields[0] + [NUL] + Emit(fields[1..])
  }

  predicate Clean(text: string) {
    forall i | 0 <= i < |text| :: text[i] != NUL
  }

  predicate GoodChange(c: Change) {
    && c.status != "" && c.status[0] != '\n' && !IsObjectId(c.status) && Clean(c.status)
    && c.path != "" && Clean(c.path)
    && (if TwoPaths(c.status) then c.oldPath != "" && Clean(c.oldPath) else c.oldPath == "")
  }

  /** What Git prints: fields without NUL, and none empty but perhaps the subject. */
  predicate GoodCommit(c: Commit, valid: string -> bool) {
    && IsObjectId(c.hash) && c.time != "" && Clean(c.time) && valid(c.time) && Clean(c.subject)
    && forall i | 0 <= i < |c.changes| :: GoodChange(c.changes[i])
  }

  function CutChanges(changes: seq<Change>): seq<Change> {
    if changes == [] then [] else [changes[0].(status := changes[0].status[..if changes[0].status == "" then 0 else 1])] + CutChanges(changes[1..])
  }

  /** The statuses cut to one letter. */
  function Cut(commits: seq<Commit>): seq<Commit> {
    if commits == [] then [] else [commits[0].(changes := CutChanges(commits[0].changes))] + Cut(commits[1..])
  }

  function NonEmpty(fields: seq<string>): seq<string> {
    if fields == [] then [] else (if fields[0] == "" then [] else [fields[0]]) + NonEmpty(fields[1..])
  }

  // ---- tokens of printed text --------------------------------------------------------------------

  lemma {:induction false} TokensOfEmit(fields: seq<string>)
    requires forall f | f in fields :: Clean(f)
    ensures Tokens(Emit(fields)) == NonEmpty(fields) && !Open(Emit(fields))
  {
    if fields != [] {
      assert fields[0] in fields;
      var data := Emit(fields);
      assert data == fields[0] + ([NUL] + Emit(fields[1..]));
      FindUnique(data, NUL, |fields[0]|);
      assert data[..|fields[0]|] == fields[0] && data[|fields[0]| + 1..] == Emit(fields[1..]);
      TokensOfEmit(fields[1..]);
      assert forall f | f in fields[1..] :: f in fields;
    }
  }

  lemma {:induction false} NonEmptyConcat(a: seq<string>, b: seq<string>)
    ensures NonEmpty(a + b) == NonEmpty(a) + NonEmpty(b)
  {
    if a == [] {
      assert a + b == b;
    } else {
      assert (a + b)[1..] == a[1..] + b;
      NonEmptyConcat(a[1..], b);
    }
  }

  lemma {:induction false} NonEmptyEmpties(n: nat)
    ensures NonEmpty(Empties(n)) == [] && forall f | f in Empties(n) :: f == ""
  {
    if n > 0 {
      NonEmptyEmpties(n - 1);
    }
  }

  // ---- parsing what was printed ------------------------------------------------------------------

  lemma LeadTrims(p: Padding, text: string)
    requires text != "" && text[0] != '\n'
    ensures TrimNewline(Lead(p, text)) == text && Lead(p, text) != ""
  {
  }

  lemma NonEmptyCons(x: string, rest: seq<string>)
    ensures NonEmpty([x] + rest) == (if x == "" then [] else [x]) + NonEmpty(rest)
  {
    assert ([x] + rest)[1..] == rest;
  }

  function Bare(c: Change, p: Padding): seq<string> {
    if TwoPaths(c.status) then [Lead(p, c.status), c.oldPath, c.path] else [Lead(p, c.status), c.path]
  }

  lemma ChangeTokens(c: Change, p: Padding)
    requires GoodChange(c)
    ensures NonEmpty(ChangeFields(c, p)) == Bare(c, p)
  {
    hide NonEmpty;
    LeadTrims(p, c.status);
    NonEmptyEmpties(p.empties);
    NonEmptyConcat(Bare(c, p), Empties(p.empties));
    NonEmptyNone();
    NonEmptyCons(c.path, []);
    if TwoPaths(c.status) {
      NonEmptyCons(c.oldPath, [c.path]);
      NonEmptyCons(Lead(p, c.status), [c.oldPath, c.path]);
      assert Bare(c, p) == [Lead(p, c.status)] + [c.oldPath, c.path] && [c.oldPath, c.path] == [c.oldPath] + [c.path];
    } else {
      NonEmptyCons(Lead(p, c.status), [c.path]);
      assert Bare(c, p) == [Lead(p, c.status)] + [c.path];
    }
    assert [c.path] == [c.path] + [];
  }

  lemma NonEmptyNone()
    ensures NonEmpty([]) == []
  {
  }

  /** One printed change is one change in the commit in hand. */
  lemma ParseChange(commit: Commit, c: Change, p: Padding, more: seq<string>, valid: string -> bool)
    requires GoodChange(c)
    ensures ParseBody(commit, NonEmpty(ChangeFields(c, p)) + more, false, valid)
            == ParseBody(AddChange(commit, c.(status := c.status[..1])), more, false, valid)
  {
    ChangeTokens(c, p);
    LeadTrims(p, c.status);
    var tokens := NonEmpty(ChangeFields(c, p)) + more;
    assert tokens[if TwoPaths(c.status) then 3 else 2..] == more;
  }

  lemma CutCons(commit: Commit, changes: seq<Change>)
    requires changes != [] && changes[0].status != ""
    ensures AddChange(commit, changes[0].(status := changes[0].status[..1])).(changes := AddChange(commit, changes[0].(status := changes[0].status[..1])).changes + CutChanges(changes[1..]))
            == commit.(changes := commit.changes + CutChanges(changes))
  {
    assert commit.changes + CutChanges(changes) == (commit.changes + [changes[0].(status := changes[0].status[..1])]) + CutChanges(changes[1..]);
  }

  lemma {:induction false} ParseChanges(commit: Commit, changes: seq<Change>, p: seq<Padding>, more: seq<string>, valid: string -> bool)
    requires |p| == |changes| && forall i | 0 <= i < |changes| :: GoodChange(changes[i])
    ensures ParseBody(commit, NonEmpty(ChangesFields(changes, p)) + more, false, valid)
            == ParseBody(commit.(changes := commit.changes + CutChanges(changes)), more, false, valid)
    decreases |changes|
  {
    if changes == [] {
      assert NonEmpty(ChangesFields(changes, p)) + more == more;
      assert commit.changes + CutChanges(changes) == commit.changes;
    } else {
      hide ParseBody, ChangeFields, NonEmpty;
      var cut := changes[0].(status := changes[0].status[..1]);
      var rest := NonEmpty(ChangesFields(changes[1..], p[1..])) + more;
      NonEmptyConcat(ChangeFields(changes[0], p[0]), ChangesFields(changes[1..], p[1..]));
      assert NonEmpty(ChangesFields(changes, p)) + more == NonEmpty(ChangeFields(changes[0], p[0])) + rest;
      assert GoodChange(changes[0]);
      ParseChange(commit, changes[0], p[0], rest, valid);
      ParseChanges(AddChange(commit, cut), changes[1..], p[1..], more, valid);
      CutCons(commit, changes);
    }
  }

  /** A subject the stream parser can tell from padding: not empty, unless nothing at all follows. */
  predicate TellsSubject(c: Commit, more: seq<Commit>) {
    c.subject != "" || (c.changes == [] && more == [])
  }

  predicate TellsSubjects(commits: seq<Commit>) {
    forall i | 0 <= i < |commits| :: TellsSubject(commits[i], commits[i + 1..])
  }

  lemma HeaderTokens(c: Commit, l: Layout, more: seq<string>)
    requires |l.changes| == |c.changes| && IsObjectId(c.hash) && c.time != ""
    ensures NonEmpty(CommitFields(c, l)) + more
            == [Lead(l.header, c.hash), c.time] + (if c.subject == "" then [] else [c.subject]) + (NonEmpty(ChangesFields(c.changes, l.changes)) + more)
  {
    hide NonEmpty;
    var head := [Lead(l.header, c.hash), c.time, c.subject];
    NonEmptyConcat(head + Empties(l.header.empties), ChangesFields(c.changes, l.changes));
    NonEmptyConcat(head, Empties(l.header.empties));
    NonEmptyEmpties(l.header.empties);
    NonEmptyNone();
    NonEmptyCons(c.subject, []);
    NonEmptyCons(c.time, [c.subject]);
    NonEmptyCons(Lead(l.header, c.hash), [c.time, c.subject]);
    assert head == [Lead(l.header, c.hash)] + [c.time, c.subject] && [c.time, c.subject] == [c.time] + [c.subject];
    assert [c.subject] + [] == [c.subject];
    LeadTrims(l.header, c.hash);
  }

  lemma {:induction false} SomeToken(commits: seq<Commit>, layouts: seq<Layout>, valid: string -> bool)
    requires Fits(commits, layouts) && commits != [] && GoodCommit(commits[0], valid)
    ensures NonEmpty(LogFields(commits, layouts)) != []
  {
    NonEmptyConcat(CommitFields(commits[0], layouts[0]), LogFields(commits[1..], layouts[1..]));
    HeaderTokens(commits[0], layouts[0], []);
  }

  /** Whatever the parser goes on to yield first is the commit it has in hand. */
  lemma {:induction false} FirstYielded(commit: Commit, tokens: seq<string>, open: bool, valid: string -> bool)
    ensures var p := ParseBody(commit, tokens, open, valid); p.commits != [] ==> p.commits[0].subject == commit.subject
    decreases |tokens|
  {
    if tokens != [] {
      var token := TrimNewline(tokens[0]);
      if !IsObjectId(token) && token != "" && |tokens| >= 2 {
        if TwoPaths(token) {
          if |tokens| >= 3 {
            FirstYielded(AddChange(commit, Change(token[..1], tokens[1], tokens[2])), tokens[3..], open, valid);
          }
        } else {
          FirstYielded(AddChange(commit, Change(token[..1], "", tokens[1])), tokens[2..], open, valid);
        }
      }
    }
  }

  function CutCommit(c: Commit): Commit {
    c.(changes := CutChanges(c.changes))
  }

  /** The tokens of a commit whose subject can be told are read as that commit. */
  lemma ReadsCommit(c: Commit, l: Layout, more: seq<string>, valid: string -> bool)
    requires |l.changes| == |c.changes| && GoodCommit(c, valid) && (c.subject != "" || (c.changes == [] && more == []))
    ensures var tokens := NonEmpty(CommitFields(c, l)) + more;
      && tokens != [] && TrimNewline(tokens[0]) == c.hash
      && ReadHeader(c.hash, tokens[1..], false, valid).Header?
      && ParseBody(ReadHeader(c.hash, tokens[1..], false, valid).commit, ReadHeader(c.hash, tokens[1..], false, valid).rest, false, valid)
         == ParseBody(CutCommit(c), more, false, valid)
  {
    HeaderTokens(c, l, more);
    LeadTrims(l.header, c.hash);
    var tokens := NonEmpty(CommitFields(c, l)) + more;
    var body := NonEmpty(ChangesFields(c.changes, l.changes)) + more;
    if c.subject != "" {
      assert tokens[1..] == [c.time, c.subject] + body;
      assert tokens[1..][2..] == body;
      ParseChanges(Commit(c.hash, c.time, c.subject, []), c.changes, l.changes, more, valid);
      assert [] + CutChanges(c.changes) == CutChanges(c.changes);
    } else {
      assert body == [] && tokens[1..] == [c.time];
    }
  }

  lemma ChangesNotEmpty(changes: seq<Change>, p: seq<Padding>)
    requires |p| == |changes| && changes != [] && GoodChange(changes[0])
    ensures NonEmpty(ChangesFields(changes, p)) != []
  {
    ChangeTokens(changes[0], p[0]);
    NonEmptyConcat(ChangeFields(changes[0], p[0]), ChangesFields(changes[1..], p[1..]));
  }

  /** A commit whose empty subject is followed by anything is read with what follows as its subject. */
  lemma MisreadsCommit(c: Commit, l: Layout, more: seq<string>, valid: string -> bool)
    requires |l.changes| == |c.changes| && GoodCommit(c, valid) && c.subject == "" && (c.changes != [] || more != [])
    requires forall t | t in more :: t != ""
    ensures var tokens := NonEmpty(CommitFields(c, l)) + more;
      && tokens != [] && TrimNewline(tokens[0]) == c.hash
      && ReadHeader(c.hash, tokens[1..], false, valid).Header?
      && ReadHeader(c.hash, tokens[1..], false, valid).commit.subject != ""
  {
    HeaderTokens(c, l, more);
    LeadTrims(l.header, c.hash);
    var changes := NonEmpty(ChangesFields(c.changes, l.changes));
    if c.changes != [] {
      ChangesNotEmpty(c.changes, l.changes);
    }
    NeverEmpty(ChangesFields(c.changes, l.changes));
    hide NonEmpty, CommitFields, ChangesFields, GoodChange;
    var body := changes + more;
    assert body != [] && body[0] in body;
    assert (NonEmpty(CommitFields(c, l)) + more)[1..] == [c.time] + body;
  }

  lemma {:induction false} NeverEmpty(fields: seq<string>)
    ensures forall t | t in NonEmpty(fields) :: t != ""
  {
    if fields != [] {
      NeverEmpty(fields[1..]);
    }
  }

  lemma TellsRest(commits: seq<Commit>)
    requires commits != []
    ensures TellsSubjects(commits) <==> TellsSubject(commits[0], commits[1..]) && TellsSubjects(commits[1..])
  {
    forall i | 0 <= i < |commits[1..]| ensures commits[1..][i + 1..] == commits[1 + i + 1..] && commits[1..][i] == commits[1 + i] {
    }
    if TellsSubject(commits[0], commits[1..]) && TellsSubjects(commits[1..]) {
      forall i | 0 <= i < |commits| ensures TellsSubject(commits[i], commits[i + 1..]) {
        if i > 0 {
          assert TellsSubject(commits[1..][i - 1], commits[1..][i..]);
        }
      }
    }
    if TellsSubjects(commits) {
      forall i | 0 <= i < |commits[1..]| ensures TellsSubject(commits[1..][i], commits[1..][i + 1..]) {
        assert TellsSubject(commits[1 + i], commits[1 + i + 1..]);
      }
    }
  }

  /** The next header is read, rightly or wrongly. */
  lemma Advances(commit: Commit, tokens: seq<string>, hash: string, valid: string -> bool)
    requires tokens != [] && TrimNewline(tokens[0]) == hash && IsObjectId(hash) && ReadHeader(hash, tokens[1..], false, valid).Header?
    ensures var h := ReadHeader(hash, tokens[1..], false, valid);
      ParseBody(commit, tokens, false, valid) == Prepend([commit], ParseBody(h.commit, h.rest, false, valid))
  {
  }

  lemma PrependsSame(a: Commit, b: Commit, p: Parsed, commits: seq<Commit>)
    ensures Prepend([a], Prepend([b], p)) == Prepend([a], Parsed([b] + commits, true)) <==> p == Parsed(commits, true)
    ensures Prepend([b], p) == Prepend([b], Parsed(commits, true)) <==> p == Parsed(commits, true)
  {
    if [b] + p.commits == [b] + commits {
      assert ([b] + p.commits)[1..] == p.commits && ([b] + commits)[1..] == commits;
    }
    if [a] + ([b] + p.commits) == [a] + ([b] + commits) {
      assert ([a] + ([b] + p.commits))[2..] == p.commits && ([a] + ([b] + commits))[2..] == commits;
    }
  }

  /** Reading goes on rightly exactly when every subject that follows can be told. */
  lemma {:induction false} ParsesRest(commit: Commit, commits: seq<Commit>, layouts: seq<Layout>, valid: string -> bool)
    requires Fits(commits, layouts) && forall i | 0 <= i < |commits| :: GoodCommit(commits[i], valid)
    ensures ParseBody(commit, NonEmpty(LogFields(commits, layouts)), false, valid) == Prepend([commit], Parsed(Cut(commits), true))
            <==> TellsSubjects(commits)
    decreases |commits|
  {
    if commits == [] {
      assert [commit] + Cut(commits) == [commit];
    } else {
      var c, l := commits[0], layouts[0];
      var more := NonEmpty(LogFields(commits[1..], layouts[1..]));
      var tokens := NonEmpty(CommitFields(c, l)) + more;
      NonEmptyConcat(CommitFields(c, l), LogFields(commits[1..], layouts[1..]));
      TellsRest(commits);
      if commits[1..] != [] {
        SomeToken(commits[1..], layouts[1..], valid);
      }
      hide ParseBody, ReadHeader, CommitFields, LogFields, GoodCommit;
      assert GoodCommit(c, valid);
      if TellsSubject(c, commits[1..]) {
        ReadsCommit(c, l, more, valid);
        HashIsId(c, valid);
        Advances(commit, tokens, c.hash, valid);
        ParsesRest(CutCommit(c), commits[1..], layouts[1..], valid);
        var q := ParseBody(CutCommit(c), more, false, valid);
        SameAfter(commit, c, commits[1..], q);
      } else {
        NeverEmpty(LogFields(commits[1..], layouts[1..]));
        MisreadsCommit(c, l, more, valid);
        HashIsId(c, valid);
        Advances(commit, tokens, c.hash, valid);
        var h := ReadHeader(c.hash, tokens[1..], false, valid);
        FirstYielded(h.commit, h.rest, false, valid);
        DiffersAfter(commit, c, commits[1..], ParseBody(h.commit, h.rest, false, valid));
      }
    }
  }

  lemma HashIsId(c: Commit, valid: string -> bool)
    requires GoodCommit(c, valid)
    ensures IsObjectId(c.hash)
  {
  }

  lemma SameAfter(commit: Commit, c: Commit, rest: seq<Commit>, q: Parsed)
    ensures Prepend([commit], q) == Prepend([commit], Parsed(Cut([c] + rest), true)) <==> q == Prepend([CutCommit(c)], Parsed(Cut(rest), true))
  {
    assert ([c] + rest)[1..] == rest;
    assert Cut([c] + rest) == [CutCommit(c)] + Cut(rest);
    PrependsSame(commit, commit, q, [CutCommit(c)] + Cut(rest));
  }

  lemma DiffersAfter(commit: Commit, c: Commit, rest: seq<Commit>, q: Parsed)
    requires q.commits != [] ==> q.commits[0].subject != c.subject
    ensures Prepend([commit], q) != Prepend([commit], Parsed(Cut([c] + rest), true))
  {
    PrependsSame(commit, commit, q, Cut([c] + rest));
    assert Cut([c] + rest)[0].subject == c.subject;
  }

  /** The first header is read as any other. */
  lemma TopIsBody(commit: Commit, tokens: seq<string>, valid: string -> bool)
    requires tokens != [] && IsObjectId(TrimNewline(tokens[0]))
    ensures ParseBody(commit, tokens, false, valid) == Prepend([commit], ParseTokens(tokens, false, valid))
  {
  }

  lemma {:induction false} EmptiesClean(n: nat)
    ensures forall f | f in Empties(n) :: Clean(f)
  {
    if n > 0 {
      EmptiesClean(n - 1);
    }
  }

  lemma {:induction false} ChangesClean(changes: seq<Change>, p: seq<Padding>)
    requires |p| == |changes| && forall i | 0 <= i < |changes| :: GoodChange(changes[i])
    ensures forall f | f in ChangesFields(changes, p) :: Clean(f)
  {
    if changes != [] {
      ChangesClean(changes[1..], p[1..]);
      EmptiesClean(p[0].empties);
      assert forall f | f in ChangeFields(changes[0], p[0]) :: Clean(f);
    }
  }

  lemma CommitClean(c: Commit, l: Layout, valid: string -> bool)
    requires |l.changes| == |c.changes| && GoodCommit(c, valid)
    ensures forall f | f in CommitFields(c, l) :: Clean(f)
  {
    EmptiesClean(l.header.empties);
    ChangesClean(c.changes, l.changes);
    assert Clean(Lead(l.header, c.hash)) && Clean(c.time) && Clean(c.subject);
  }

  lemma {:induction false} FieldsClean(commits: seq<Commit>, layouts: seq<Layout>, valid: string -> bool)
    requires Fits(commits, layouts) && forall i | 0 <= i < |commits| :: GoodCommit(commits[i], valid)
    ensures forall f | f in LogFields(commits, layouts) :: Clean(f)
  {
    if commits != [] {
      FieldsClean(commits[1..], layouts[1..], valid);
      CommitClean(commits[0], layouts[0], valid);
    }
  }

  lemma FirstIsHash(commits: seq<Commit>, layouts: seq<Layout>, valid: string -> bool)
    requires Fits(commits, layouts) && commits != [] && GoodCommit(commits[0], valid)
    ensures var tokens := NonEmpty(LogFields(commits, layouts)); tokens != [] && IsObjectId(TrimNewline(tokens[0]))
  {
    NonEmptyConcat(CommitFields(commits[0], layouts[0]), LogFields(commits[1..], layouts[1..]));
    HeaderTokens(commits[0], layouts[0], NonEmpty(LogFields(commits[1..], layouts[1..])));
    LeadTrims(layouts[0].header, commits[0].hash);
  }

  /** Printing and then parsing gives the commits back, with statuses cut to one letter, exactly when every subject can
      be told: none is empty but perhaps the last of all, before no change. Paths and subjects that look like object
      identities do no harm, nor does padding. */
  lemma LogRoundTrip(commits: seq<Commit>, layouts: seq<Layout>, valid: string -> bool)
    requires Fits(commits, layouts) && forall i | 0 <= i < |commits| :: GoodCommit(commits[i], valid)
    ensures var data := Emit(LogFields(commits, layouts));
      ParseTokens(Tokens(data), Open(data), valid) == Parsed(Cut(commits), true) <==> TellsSubjects(commits)
  {
    FieldsClean(commits, layouts, valid);
    TokensOfEmit(LogFields(commits, layouts));
    if commits != [] {
      var tokens := NonEmpty(LogFields(commits, layouts));
      hide ParseBody, ParseTokens;
      FirstIsHash(commits, layouts, valid);
      TopIsBody(commits[0], tokens, valid);
      ParsesRest(commits[0], commits, layouts, valid);
      PrependsOne(commits[0], ParseTokens(tokens, false, valid), Parsed(Cut(commits), true));
    }
  }

  lemma PrependsOne(a: Commit, p: Parsed, q: Parsed)
    ensures Prepend([a], p) == Prepend([a], q) <==> p == q
  {
    if [a] + p.commits == [a] + q.commits {
      assert ([a] + p.commits)[1..] == p.commits && ([a] + q.commits)[1..] == q.commits;
    }
  }
}
