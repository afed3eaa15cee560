/** Which streams the log parsers accept, and what they make of them. */
module LogGrammar {
  import opened LogParser
  import opened LogBatch

  // ---- the grammar, read off the result ----------------------------------------------------------

  /** A status, of which one letter is kept, and one path or two. */
  predicate SpellsChange(tokens: seq<string>, c: Change) {
    tokens != [] &&
    var status := TrimNewline(tokens[0]);
    && status != "" && !IsObjectId(status) && c.status == [status[0]]
    && if c.status == "R" || c.status == "C" then |tokens| == 3 && c.oldPath == tokens[1] && c.path == tokens[2]
       else |tokens| == 2 && c.oldPath == "" && c.path == tokens[1]
  }

  function Width(c: Change): nat {
    if c.status == "R" || c.status == "C" then 3 else 2
  }

  predicate SpellsChanges(tokens: seq<string>, changes: seq<Change>)
    decreases |changes|
  {
    if changes == [] then tokens == [] else
    var n := Width(changes[0]);
    |tokens| >= n && SpellsChange(tokens[..n], changes[0]) && SpellsChanges(tokens[n..], changes[1..])
  }

  /** An object identity, a valid time, a subject, and the changes. The subject may be missing where the stream ends. */
  predicate SpellsCommit(tokens: seq<string>, c: Commit, valid: string -> bool, last: bool) {
    && |tokens| >= 2 && TrimNewline(tokens[0]) == c.hash && IsObjectId(c.hash) && tokens[1] == c.time && valid(c.time)
    && if |tokens| == 2 then last && c.subject == "" && c.changes == []
       else tokens[2] == c.subject && SpellsChanges(tokens[3..], c.changes)
  }

  /** The tokens are those of the commits, one after the other. */
  ghost predicate SpellsLog(tokens: seq<string>, commits: seq<Commit>, valid: string -> bool, open: bool)
    decreases |commits|
  {
    if commits == [] then tokens == [] else
    exists n :: 0 < n <= |tokens| && SpellsCommit(tokens[..n], commits[0], valid, n == |tokens| && !open)
                && SpellsLog(tokens[n..], commits[1..], valid, open)
  }

  // ---- accepted is spelled -----------------------------------------------------------------------

  lemma OneChange(tokens: seq<string>, c: Change)
    requires SpellsChange(tokens, c)
    ensures SpellsChanges(tokens, [c])
  {
    assert tokens[..|tokens|] == tokens && tokens[|tokens|..] == [] && [c][1..] == [];
  }

  lemma NoChanges(tokens: seq<string>)
    ensures SpellsChanges(tokens, []) <==> tokens == []
  {
  }

  lemma Slices<T>(a: seq<T>, b: seq<T>, n: nat)
    requires n <= |a|
    ensures (a + b)[..n] == a[..n] && (a + b)[n..] == a[n..] + b
  {
  }

  lemma FoldChanges(tokens: seq<string>, changes: seq<Change>, n: nat)
    requires changes != [] && n == Width(changes[0]) && |tokens| >= n
    requires SpellsChange(tokens[..n], changes[0]) && SpellsChanges(tokens[n..], changes[1..])
    ensures SpellsChanges(tokens, changes)
  {
  }

  lemma UnfoldChanges(tokens: seq<string>, changes: seq<Change>) returns (n: nat)
    requires changes != [] && SpellsChanges(tokens, changes)
    ensures n == Width(changes[0]) && 0 < n <= |tokens|
    ensures SpellsChange(tokens[..n], changes[0]) && SpellsChanges(tokens[n..], changes[1..])
  {
    n := Width(changes[0]);
  }

  lemma {:induction false} ChangesSnoc(tokens: seq<string>, changes: seq<Change>, more: seq<string>, c: Change)
    requires SpellsChanges(tokens, changes) && SpellsChange(more, c)
    ensures SpellsChanges(tokens + more, changes + [c])
    decreases |changes|
  {
    hide SpellsChange, SpellsChanges, Width;
    if changes == [] {
      NoChanges(tokens);
      assert tokens + more == more && changes + [c] == [c];
      OneChange(more, c);
    } else {
      var n := UnfoldChanges(tokens, changes);
      ChangesSnoc(tokens[n..], changes[1..], more, c);
      Slices(tokens, more, n);
      Slices(changes, [c], 1);
      FoldChanges(tokens + more, changes + [c], n);
    }
  }

  lemma TakesChange(taken: seq<string>, commit: Commit, valid: string -> bool, more: seq<string>, change: Change)
    requires |taken| > 2 && SpellsCommit(taken, commit, valid, false) && SpellsChange(more, change)
    ensures SpellsCommit(taken + more, AddChange(commit, change), valid, false)
  {
    ChangesSnoc(taken[3..], commit.changes, more, change);
    assert (taken + more)[3..] == taken[3..] + more;
  }

  lemma OneCommit(taken: seq<string>, c: Commit, rest: seq<string>, commits: seq<Commit>, valid: string -> bool, open: bool)
    requires taken != [] && SpellsCommit(taken, c, valid, rest == [] && !open) && SpellsLog(rest, commits, valid, open)
    ensures SpellsLog(taken + rest, [c] + commits, valid, open)
  {
    var n := |taken|;
    assert (taken + rest)[..n] == taken && (taken + rest)[n..] == rest && ([c] + commits)[1..] == commits;
  }

  lemma Stronger(taken: seq<string>, c: Commit, valid: string -> bool, last: bool)
    requires SpellsCommit(taken, c, valid, false)
    ensures SpellsCommit(taken, c, valid, last)
  {
  }

  /** What a header takes. */
  lemma HeaderSpells(hash: string, tokens: seq<string>, open: bool, valid: string -> bool)
    requires tokens != [] && hash == TrimNewline(tokens[0]) && IsObjectId(hash) && ReadHeader(hash, tokens[1..], open, valid).Header?
    ensures var h := ReadHeader(hash, tokens[1..], open, valid);
      if |tokens| == 2 then !open && h.rest == [] && SpellsCommit(tokens, h.commit, valid, true)
      else |tokens| > 2 && h.rest == tokens[3..] && SpellsCommit(tokens[..3], h.commit, valid, false)
  {
  }

  /** The change that comes next, if no header does. */
  function NextChange(tokens: seq<string>): (c: Change)
    requires |tokens| >= 2 && TrimNewline(tokens[0]) != "" && (TwoPaths(TrimNewline(tokens[0])) ==> |tokens| >= 3)
    ensures Width(c) <= |tokens| && (!IsObjectId(TrimNewline(tokens[0])) ==> SpellsChange(tokens[..Width(c)], c))
  {
    var token := TrimNewline(tokens[0]);
    if TwoPaths(token) then Change(token[..1], tokens[1], tokens[2]) else Change(token[..1], "", tokens[1])
  }

  lemma NextStep(commit: Commit, tokens: seq<string>, open: bool, valid: string -> bool)
    requires tokens != [] && !IsObjectId(TrimNewline(tokens[0])) && ParseBody(commit, tokens, open, valid).ok
    ensures |tokens| >= 2 && TrimNewline(tokens[0]) != "" && (TwoPaths(TrimNewline(tokens[0])) ==> |tokens| >= 3)
    ensures var c := NextChange(tokens);
      ParseBody(commit, tokens, open, valid) == ParseBody(AddChange(commit, c), tokens[Width(c)..], open, valid)
  {
  }

  lemma NextCommit(commit: Commit, tokens: seq<string>, open: bool, valid: string -> bool)
    requires tokens != [] && IsObjectId(TrimNewline(tokens[0])) && ParseBody(commit, tokens, open, valid).ok
    ensures var h := ReadHeader(TrimNewline(tokens[0]), tokens[1..], open, valid);
      && h.Header? && |h.rest| < |tokens| && ParseBody(h.commit, h.rest, open, valid).ok
      && ParseBody(commit, tokens, open, valid).commits == [commit] + ParseBody(h.commit, h.rest, open, valid).commits
  {
  }

  /** A stream that ends after a header's time. */
  lemma HeaderOnly(tokens: seq<string>, c: Commit, open: bool, valid: string -> bool)
    requires !open && SpellsCommit(tokens, c, valid, true)
    ensures SpellsLog(tokens, ParseBody(c, [], open, valid).commits, valid, open)
  {
    assert SpellsLog([], [], valid, open);
    OneCommit(tokens, c, [], [], valid, open);
    assert tokens + [] == tokens && [c] + [] == [c];
  }

  /** If the rest is accepted, it and what was taken are spelled by the result. */
  lemma {:induction false} BodySpells(taken: seq<string>, commit: Commit, tokens: seq<string>, open: bool, valid: string -> bool)
    requires |taken| > 2 && SpellsCommit(taken, commit, valid, false) && ParseBody(commit, tokens, open, valid).ok
    ensures SpellsLog(taken + tokens, ParseBody(commit, tokens, open, valid).commits, valid, open)
    decreases |tokens|
  {
    hide SpellsCommit, SpellsLog, SpellsChange, ReadHeader, IsObjectId, TrimNewline, TwoPaths;
    if tokens == [] {
      EndSpells(taken, commit, open, valid);
    } else if IsObjectId(TrimNewline(tokens[0])) {
      NextCommit(commit, tokens, open, valid);
      var hash := TrimNewline(tokens[0]);
      HeaderSpells(hash, tokens, open, valid);
      var h := ReadHeader(hash, tokens[1..], open, valid);
      if |tokens| == 2 {
        HeaderOnly(tokens, h.commit, open, valid);
      } else {
        BodySpells(tokens[..3], h.commit, h.rest, open, valid);
        assert tokens[..3] + tokens[3..] == tokens;
      }
      Stronger(taken, commit, valid, false);
      OneCommit(taken, commit, tokens, ParseBody(h.commit, h.rest, open, valid).commits, valid, open);
    } else {
      NextStep(commit, tokens, open, valid);
      var change := NextChange(tokens);
      var n := Width(change);
      TakesChange(taken, commit, valid, tokens[..n], change);
      BodySpells(taken + tokens[..n], AddChange(commit, change), tokens[n..], open, valid);
      assert (taken + tokens[..n]) + tokens[n..] == taken + tokens;
    }
  }

  lemma EndSpells(taken: seq<string>, commit: Commit, open: bool, valid: string -> bool)
    requires taken != [] && SpellsCommit(taken, commit, valid, false)
    ensures SpellsLog(taken + [], ParseBody(commit, [], open, valid).commits, valid, open)
  {
    Stronger(taken, commit, valid, !open);
    assert SpellsLog([], [], valid, open);
    OneCommit(taken, commit, [], [], valid, open);
    assert [commit] + [] == [commit];
  }

  lemma AcceptedHeader(tokens: seq<string>, open: bool, valid: string -> bool)
    requires tokens != [] && ParseTokens(tokens, open, valid).ok
    ensures var hash := TrimNewline(tokens[0]);
      IsObjectId(hash) && ReadHeader(hash, tokens[1..], open, valid).Header?
  {
  }

  lemma AcceptedIsSpelled(tokens: seq<string>, open: bool, valid: string -> bool)
    requires ParseTokens(tokens, open, valid).ok
    ensures SpellsLog(tokens, ParseTokens(tokens, open, valid).commits, valid, open)
  {
    hide SpellsCommit, ReadHeader, IsObjectId, TrimNewline;
    if tokens != [] {
      hide SpellsLog, ParseBody;
      var hash := TrimNewline(tokens[0]);
      AcceptedHeader(tokens, open, valid);
      TopHeader(tokens, hash, open, valid);
      HeaderSpells(hash, tokens, open, valid);
      hide ParseTokens;
      var h := ReadHeader(hash, tokens[1..], open, valid);
      if |tokens| == 2 {
        HeaderOnly(tokens, h.commit, open, valid);
      } else {
        BodySpells(tokens[..3], h.commit, h.rest, open, valid);
        assert tokens[..3] + tokens[3..] == tokens;
      }
    }
  }

  // ---- spelled is accepted -----------------------------------------------------------------------

  lemma OneParses(commit: Commit, tokens: seq<string>, c: Change, open: bool, valid: string -> bool)
    requires Width(c) <= |tokens| && SpellsChange(tokens[..Width(c)], c)
    ensures ParseBody(commit, tokens, open, valid) == ParseBody(AddChange(commit, c), tokens[Width(c)..], open, valid)
  {
    assert TrimNewline(tokens[0])[..1] == c.status;
  }

  lemma {:induction false} ChangesParse(commit: Commit, tokens: seq<string>, changes: seq<Change>, more: seq<string>, open: bool, valid: string -> bool)
    requires SpellsChanges(tokens, changes)
    ensures ParseBody(commit, tokens + more, open, valid) == ParseBody(commit.(changes := commit.changes + changes), more, open, valid)
    decreases |changes|
  {
    hide ParseBody, SpellsChange, SpellsChanges, Width;
    if changes == [] {
      NoChanges(tokens);
      assert tokens + more == more && commit.changes + changes == commit.changes;
    } else {
      var n := UnfoldChanges(tokens, changes);
      Slices(tokens, more, n);
      OneParses(commit, tokens + more, changes[0], open, valid);
      ChangesParse(AddChange(commit, changes[0]), tokens[n..], changes[1..], more, open, valid);
      assert (commit.changes + [changes[0]]) + changes[1..] == commit.changes + changes;
    }
  }

  lemma CommitParses(taken: seq<string>, c: Commit, rest: seq<string>, open: bool, valid: string -> bool)
    requires SpellsCommit(taken, c, valid, rest == [] && !open) && taken != []
    ensures var tokens := taken + rest;
      && tokens != [] && TrimNewline(tokens[0]) == c.hash && IsObjectId(c.hash)
      && ReadHeader(c.hash, tokens[1..], open, valid).Header?
      && var h := ReadHeader(c.hash, tokens[1..], open, valid);
         ParseBody(h.commit, h.rest, open, valid) == ParseBody(c, rest, open, valid)
  {
    var tokens := taken + rest;
    if |taken| == 2 {
      assert tokens == taken;
    } else {
      assert tokens[1..][2..] == taken[3..] + rest;
      ChangesParse(Commit(c.hash, c.time, c.subject, []), taken[3..], c.changes, rest, open, valid);
      assert [] + c.changes == c.changes;
    }
  }

  lemma NextHeader(commit: Commit, tokens: seq<string>, hash: string, open: bool, valid: string -> bool)
    requires tokens != [] && TrimNewline(tokens[0]) == hash && IsObjectId(hash) && ReadHeader(hash, tokens[1..], open, valid).Header?
    ensures var h := ReadHeader(hash, tokens[1..], open, valid);
      ParseBody(commit, tokens, open, valid) == Prepend([commit], ParseBody(h.commit, h.rest, open, valid))
  {
  }

  lemma TopHeader(tokens: seq<string>, hash: string, open: bool, valid: string -> bool)
    requires tokens != [] && TrimNewline(tokens[0]) == hash && IsObjectId(hash) && ReadHeader(hash, tokens[1..], open, valid).Header?
    ensures var h := ReadHeader(hash, tokens[1..], open, valid);
      ParseTokens(tokens, open, valid) == ParseBody(h.commit, h.rest, open, valid)
  {
  }

  lemma {:induction false} SpelledParses(commit: Commit, tokens: seq<string>, commits: seq<Commit>, open: bool, valid: string -> bool)
    requires SpellsLog(tokens, commits, valid, open)
    ensures ParseBody(commit, tokens, open, valid) == Prepend([commit], Parsed(commits, true))
    decreases |commits|
  {
    hide SpellsCommit, ReadHeader, IsObjectId, TrimNewline;
    if commits == [] {
      assert [commit] + [] == [commit];
    } else {
      hide ParseBody;
      var n :| 0 < n <= |tokens| && SpellsCommit(tokens[..n], commits[0], valid, n == |tokens| && !open)
               && SpellsLog(tokens[n..], commits[1..], valid, open);
      assert tokens[..n] + tokens[n..] == tokens;
      CommitParses(tokens[..n], commits[0], tokens[n..], open, valid);
      NextHeader(commit, tokens, commits[0].hash, open, valid);
      SpelledParses(commits[0], tokens[n..], commits[1..], open, valid);
      assert [commits[0]] + commits[1..] == commits;
    }
  }

  lemma SpelledIsAccepted(tokens: seq<string>, commits: seq<Commit>, open: bool, valid: string -> bool)
    requires SpellsLog(tokens, commits, valid, open)
    ensures ParseTokens(tokens, open, valid) == Parsed(commits, true)
  {
    hide SpellsCommit, ReadHeader, IsObjectId, TrimNewline, ParseBody;
    if commits != [] {
      hide ParseTokens;
      var n :| 0 < n <= |tokens| && SpellsCommit(tokens[..n], commits[0], valid, n == |tokens| && !open)
               && SpellsLog(tokens[n..], commits[1..], valid, open);
      hide SpellsLog;
      assert tokens[..n] + tokens[n..] == tokens;
      CommitParses(tokens[..n], commits[0], tokens[n..], open, valid);
      TopHeader(tokens, commits[0].hash, open, valid);
      SpelledParses(commits[0], tokens[n..], commits[1..], open, valid);
      assert [commits[0]] + commits[1..] == commits;
    }
  }

  /** The stream parser accepts a stream with these commits exactly if its tokens are theirs. */
  lemma StreamAccepts(tokens: seq<string>, commits: seq<Commit>, open: bool, valid: string -> bool)
    ensures ParseTokens(tokens, open, valid) == Parsed(commits, true) <==> SpellsLog(tokens, commits, valid, open)
  {
    hide ParseTokens, SpellsLog;
    if ParseTokens(tokens, open, valid).ok {
      AcceptedIsSpelled(tokens, open, valid);
    }
    if SpellsLog(tokens, commits, valid, open) {
      SpelledIsAccepted(tokens, commits, open, valid);
    }
  }

  // ---- a malformed stream ------------------------------------------------------------------------

  lemma FailingStep(commit: Commit, tokens: seq<string>, open: bool, valid: string -> bool)
    requires tokens != [] && !IsObjectId(TrimNewline(tokens[0])) && !ParseBody(commit, tokens, open, valid).ok
    ensures ParseBody(commit, tokens, open, valid).commits == [] ||
      (|tokens| >= 2 && TrimNewline(tokens[0]) != "" && (TwoPaths(TrimNewline(tokens[0])) ==> |tokens| >= 3)
       && ParseBody(commit, tokens, open, valid) == ParseBody(AddChange(commit, NextChange(tokens)), tokens[Width(NextChange(tokens))..], open, valid))
  {
  }

  lemma FailingHeader(commit: Commit, tokens: seq<string>, open: bool, valid: string -> bool)
    requires tokens != [] && IsObjectId(TrimNewline(tokens[0])) && !ParseBody(commit, tokens, open, valid).ok
    ensures var h := ReadHeader(TrimNewline(tokens[0]), tokens[1..], open, valid);
      if h.NoHeader? then ParseBody(commit, tokens, open, valid).commits == [commit]
      else && |tokens| > 2 && h.rest == tokens[3..] && SpellsCommit(tokens[..3], h.commit, valid, false)
           && !ParseBody(h.commit, h.rest, open, valid).ok
           && ParseBody(commit, tokens, open, valid).commits == [commit] + ParseBody(h.commit, h.rest, open, valid).commits
  {
    var h := ReadHeader(TrimNewline(tokens[0]), tokens[1..], open, valid);
    if h.Header? {
      HeaderSpells(TrimNewline(tokens[0]), tokens, open, valid);
    }
  }

  lemma CommitFirst(taken: seq<string>, c: Commit, valid: string -> bool, rest: seq<string>)
    requires SpellsCommit(taken, c, valid, false)
    ensures taken != [] && (taken + rest)[0] == taken[0] && IsObjectId(TrimNewline(taken[0])) && SpellsLog([], [], valid, true)
  {
  }

  lemma {:induction false} BodyFails(taken: seq<string>, commit: Commit, tokens: seq<string>, open: bool, valid: string -> bool) returns (n: nat)
    requires |taken| > 2 && SpellsCommit(taken, commit, valid, false) && !ParseBody(commit, tokens, open, valid).ok
    ensures var all := taken + tokens;
      n < |all| && SpellsLog(all[..n], ParseBody(commit, tokens, open, valid).commits, valid, true) && IsObjectId(TrimNewline(all[n]))
    decreases |tokens|
  {
    hide SpellsCommit, SpellsLog, SpellsChange, ReadHeader, IsObjectId, TrimNewline, TwoPaths;
    var all, commits := taken + tokens, ParseBody(commit, tokens, open, valid).commits;
    CommitFirst(taken, commit, valid, tokens);
    if IsObjectId(TrimNewline(tokens[0])) {
      FailingHeader(commit, tokens, open, valid);
      var h := ReadHeader(TrimNewline(tokens[0]), tokens[1..], open, valid);
      var m: nat := 0;
      if h.Header? {
        m := BodyFails(tokens[..3], h.commit, h.rest, open, valid);
        assert tokens[..3] + tokens[3..] == tokens;
      } else {
        assert tokens[..0] == [];
      }
      n := |taken| + m;
      assert all[n] == tokens[m] && all[..n] == taken + tokens[..m];
      Stronger(taken, commit, valid, false);
      OneCommit(taken, commit, tokens[..m], commits[1..], valid, true);
      assert [commit] + commits[1..] == commits;
    } else {
      FailingStep(commit, tokens, open, valid);
      if commits == [] {
        n := 0;
        assert all[..0] == [];
      } else {
        var change := NextChange(tokens);
        var w := Width(change);
        TakesChange(taken, commit, valid, tokens[..w], change);
        n := BodyFails(taken + tokens[..w], AddChange(commit, change), tokens[w..], open, valid);
        assert (taken + tokens[..w]) + tokens[w..] == all;
      }
    }
  }

  /** What a malformed stream yields is spelled by the tokens before one of its headers, or before its first token: a commit is
      yielded once the next header, or the end, shows that it is whole. */
  lemma MalformedYields(tokens: seq<string>, open: bool, valid: string -> bool) returns (n: nat)
    requires !ParseTokens(tokens, open, valid).ok
    ensures n < |tokens| && SpellsLog(tokens[..n], ParseTokens(tokens, open, valid).commits, valid, true)
    ensures n > 0 ==> IsObjectId(TrimNewline(tokens[n]))
  {
    var hash := TrimNewline(tokens[0]);
    n := 0;
    assert tokens[..0] == [];
    assert SpellsLog([], [], valid, true);
    if IsObjectId(hash) && ReadHeader(hash, tokens[1..], open, valid).Header? {
      HeaderSpells(hash, tokens, open, valid);
      TopHeader(tokens, hash, open, valid);
      if |tokens| > 2 {
        n := BodyFails(tokens[..3], ReadHeader(hash, tokens[1..], open, valid).commit, tokens[3..], open, valid);
        assert tokens[..3] + tokens[3..] == tokens;
      }
    }
  }

  // ---- what is yielded ---------------------------------------------------------------------------

  predicate Sane(c: Change) {
    |c.status| == 1 && (c.status != "R" && c.status != "C" ==> c.oldPath == "")
  }

  /** An object identity, a valid time, and one-letter statuses with two paths only where a file was renamed or copied. */
  predicate Sound(c: Commit, valid: string -> bool) {
    IsObjectId(c.hash) && valid(c.time) && forall i | 0 <= i < |c.changes| :: Sane(c.changes[i])
  }

  lemma {:induction false} BodySound(commit: Commit, tokens: seq<string>, open: bool, valid: string -> bool)
    requires Sound(commit, valid)
    ensures forall c | c in ParseBody(commit, tokens, open, valid).commits :: Sound(c, valid)
    decreases |tokens|
  {
    if tokens != [] {
      var token := TrimNewline(tokens[0]);
      if IsObjectId(token) {
        var h := ReadHeader(token, tokens[1..], open, valid);
        if h.Header? {
          BodySound(h.commit, h.rest, open, valid);
        }
      } else if token != "" && |tokens| >= 2 {
        if !TwoPaths(token) {
          BodySound(AddChange(commit, Change(token[..1], "", tokens[1])), tokens[2..], open, valid);
        } else if |tokens| >= 3 {
          BodySound(AddChange(commit, Change(token[..1], tokens[1], tokens[2])), tokens[3..], open, valid);
        }
      }
    }
  }

  /** Whatever the stream holds, only sound commits are yielded, even if it then turns out to be malformed. */
  lemma StreamYieldsSound(tokens: seq<string>, open: bool, valid: string -> bool)
    ensures forall c | c in ParseTokens(tokens, open, valid).commits :: Sound(c, valid)
  {
    if tokens != [] {
      var hash := TrimNewline(tokens[0]);
      var h := ReadHeader(hash, tokens[1..], open, valid);
      if IsObjectId(hash) && h.Header? {
        BodySound(h.commit, h.rest, open, valid);
      }
    }
  }

  lemma {:induction false} ChangesSane(parts: seq<string>)
    ensures BatchChanges(parts).Changes? ==> forall c | c in BatchChanges(parts).changes :: Sane(c)
    decreases |parts|
  {
    if parts != [] {
      var status := TrimNewline(parts[0]);
      if parts[0] == "" {
        ChangesSane(parts[1..]);
      } else if !IsObjectId(status) && status != "" && |parts| >= 2 {
        if !TwoPaths(status) {
          ChangesSane(parts[2..]);
        } else if |parts| >= 3 {
          ChangesSane(parts[3..]);
        }
      }
    }
  }

  /** The same of the parser of a whole buffer. */
  lemma {:induction false} BatchYieldsSound(parts: seq<string>, valid: string -> bool)
    ensures forall c | c in BatchParse(parts, valid).commits :: Sound(c, valid)
    decreases |parts|
  {
    if parts != [] {
      var hash := TrimNewline(parts[0]);
      if parts[0] == "" {
        BatchYieldsSound(parts[1..], valid);
      } else if IsObjectId(hash) && |parts| >= 3 && valid(parts[1]) {
        BatchShrinks(parts[3..]);
        ChangesSane(parts[3..]);
        var changes := BatchChanges(parts[3..]);
        if changes.Changes? {
          BatchYieldsSound(changes.rest, valid);
        }
      }
    }
  }

  // ---- the parser of a whole buffer ----------------------------------------------------------------

  /** The parts are those of the changes; before and after each there may be empty ones. */
  predicate PartsOfChanges(parts: seq<string>, changes: seq<Change>)
    decreases |parts|
  {
    if parts == [] then changes == []
    else if parts[0] == "" then PartsOfChanges(parts[1..], changes)
    else changes != [] && Width(changes[0]) <= |parts| && SpellsChange(parts[..Width(changes[0])], changes[0])
         && PartsOfChanges(parts[Width(changes[0])..], changes[1..])
  }

  /** The end, or an object identity. */
  predicate Stops(parts: seq<string>, n: nat) {
    n == |parts| || (n < |parts| && parts[n] != "" && IsObjectId(TrimNewline(parts[n])))
  }

  /** An object identity, a valid time, a subject, and the changes up to `n`. */
  predicate CommitUpTo(parts: seq<string>, n: nat, c: Commit, valid: string -> bool) {
    && 3 <= n <= |parts| && TrimNewline(parts[0]) == c.hash && IsObjectId(c.hash) && parts[1] == c.time && valid(c.time)
    && parts[2] == c.subject && PartsOfChanges(parts[3..n], c.changes) && Stops(parts, n)
  }

  ghost predicate PartsOfLog(parts: seq<string>, commits: seq<Commit>, valid: string -> bool)
    decreases |parts|
  {
    if parts == [] then commits == []
    else if parts[0] == "" then PartsOfLog(parts[1..], commits, valid)
    else commits != [] && exists n: nat :: CommitUpTo(parts, n, commits[0], valid) && PartsOfLog(parts[n..], commits[1..], valid)
  }

  lemma TakesParts(parts: seq<string>, n: nat, c: Change, more: seq<Change>)
    requires parts != [] && parts[0] != "" && n <= |parts| && Width(c) <= n && SpellsChange(parts[..Width(c)], c)
    requires PartsOfChanges(parts[Width(c)..n], more)
    ensures PartsOfChanges(parts[..n], [c] + more)
  {
    hide SpellsChange;
    var w, all := Width(c), parts[..n];
    assert all[0] == parts[0] && all[..w] == parts[..w] && all[w..] == parts[w..n];
    assert ([c] + more)[1..] == more;
  }

  lemma TakesEmpty(parts: seq<string>, n: nat, changes: seq<Change>)
    requires parts != [] && parts[0] == "" && 0 < n <= |parts| && PartsOfChanges(parts[1..n], changes)
    ensures PartsOfChanges(parts[..n], changes)
  {
    assert parts[..n][1..] == parts[1..n];
  }

  lemma Further(parts: seq<string>, k: nat, n: nat)
    requires k + n <= |parts|
    ensures parts[k..][n..] == parts[k + n..] && parts[k..][..n] == parts[k..k + n] && (Stops(parts[k..], n) <==> Stops(parts, k + n))
  {
  }

  lemma BatchStep(parts: seq<string>)
    requires parts != [] && parts[0] != "" && !IsObjectId(TrimNewline(parts[0])) && BatchChanges(parts).Changes?
    ensures |parts| >= 2 && TrimNewline(parts[0]) != "" && (TwoPaths(TrimNewline(parts[0])) ==> |parts| >= 3)
    ensures BatchChanges(parts) == WithChange(NextChange(parts), BatchChanges(parts[Width(NextChange(parts))..]))
  {
  }

  lemma BatchEnds(parts: seq<string>)
    requires parts != [] ==> parts[0] != "" && IsObjectId(TrimNewline(parts[0]))
    ensures BatchChanges(parts) == Changes([], parts) && Stops(parts, 0) && PartsOfChanges(parts[..0], [])
  {
  }

  lemma BatchEmpty(parts: seq<string>)
    requires parts != [] && parts[0] == ""
    ensures BatchChanges(parts) == BatchChanges(parts[1..])
  {
  }

  /** What the loop over changes takes is spelled by them, and it stops where it should. */
  lemma {:induction false} ChangesTaken(parts: seq<string>) returns (n: nat)
    requires BatchChanges(parts).Changes?
    ensures n <= |parts| && BatchChanges(parts).rest == parts[n..] && Stops(parts, n)
    ensures PartsOfChanges(parts[..n], BatchChanges(parts).changes)
    decreases |parts|
  {
    hide BatchChanges, PartsOfChanges, IsObjectId, TrimNewline, TwoPaths, Stops, SpellsChange, Width;
    if parts == [] {
      n := 0;
      BatchEnds(parts);
    } else if parts[0] == "" {
      BatchEmpty(parts);
      n := ChangesTaken(parts[1..]);
      Further(parts, 1, n);
      TakesEmpty(parts, n + 1, BatchChanges(parts).changes);
      n := n + 1;
    } else if IsObjectId(TrimNewline(parts[0])) {
      n := 0;
      BatchEnds(parts);
    } else {
      BatchStep(parts);
      var c := NextChange(parts);
      SomeWidth(c);
      var w := Width(c);
      n := ChangesTaken(parts[w..]);
      Further(parts, w, n);
      TakesParts(parts, w + n, c, BatchChanges(parts[w..]).changes);
      n := w + n;
    }
  }

  lemma SomeWidth(c: Change)
    ensures Width(c) > 0
  {
  }

  /** The parser of a whole buffer accepts only buffers that are spelled by the commits it gives back. */
  lemma {:induction false} BatchAccepts(parts: seq<string>, valid: string -> bool)
    requires BatchParse(parts, valid).ok
    ensures PartsOfLog(parts, BatchParse(parts, valid).commits, valid)
    decreases |parts|
  {
    hide SpellsChange, BatchChanges, PartsOfChanges;
    if parts != [] {
      if parts[0] == "" {
        BatchAccepts(parts[1..], valid);
      } else {
        BatchShrinks(parts[3..]);
        var n := ChangesTaken(parts[3..]);
        var changes := BatchChanges(parts[3..]);
        assert parts[3..][n..] == parts[n + 3..] && parts[3..][..n] == parts[3..n + 3];
        BatchAccepts(changes.rest, valid);
        var c := Commit(TrimNewline(parts[0]), parts[1], parts[2], changes.changes);
        assert CommitUpTo(parts, n + 3, c, valid);
        assert ([c] + BatchParse(changes.rest, valid).commits)[1..] == BatchParse(changes.rest, valid).commits;
      }
    }
  }

  lemma UntakesParts(parts: seq<string>, n: nat, changes: seq<Change>)
    requires 0 < n <= |parts| && PartsOfChanges(parts[..n], changes)
    ensures parts[0] == "" ==> PartsOfChanges(parts[1..n], changes)
    ensures parts[0] != "" ==>
      && changes != [] && Width(changes[0]) <= n && SpellsChange(parts[..Width(changes[0])], changes[0])
      && PartsOfChanges(parts[Width(changes[0])..n], changes[1..])
  {
    hide SpellsChange;
    var all := parts[..n];
    assert all[0] == parts[0] && all[1..] == parts[1..n];
    if parts[0] != "" {
      var w := Width(changes[0]);
      assert all[..w] == parts[..w] && all[w..] == parts[w..n];
    }
  }

  lemma NothingTaken(changes: seq<Change>)
    ensures PartsOfChanges([], changes) <==> changes == []
  {
  }

  /** A part that stops the changes does so wherever they began. */
  lemma {:induction false} ChangesRead(parts: seq<string>, n: nat, changes: seq<Change>)
    requires n <= |parts| && PartsOfChanges(parts[..n], changes) && Stops(parts, n)
    ensures BatchChanges(parts) == Changes(changes, parts[n..])
    decreases n
  {
    hide BatchChanges, PartsOfChanges, IsObjectId, TrimNewline, SpellsChange, Width;
    if n == 0 {
      assert parts[..0] == [] && parts[0..] == parts;
      NothingTaken(changes);
      BatchEnds(parts);
    } else {
      UntakesParts(parts, n, changes);
      hide Stops;
      if parts[0] == "" {
        Further(parts, 1, n - 1);
        BatchEmpty(parts);
        ChangesRead(parts[1..], n - 1, changes);
      } else {
        SomeWidth(changes[0]);
        var w := Width(changes[0]);
        Further(parts, w, n - w);
        ChangesRead(parts[w..], n - w, changes[1..]);
        OneRead(parts, changes[0]);
        assert [changes[0]] + changes[1..] == changes;
      }
    }
  }

  lemma OneRead(parts: seq<string>, c: Change)
    requires Width(c) <= |parts| && parts[0] != "" && SpellsChange(parts[..Width(c)], c)
    ensures BatchChanges(parts) == WithChange(c, BatchChanges(parts[Width(c)..]))
  {
    assert TrimNewline(parts[0])[..1] == c.status;
  }

  lemma CommitRead(parts: seq<string>, n: nat, c: Commit, more: seq<Commit>, valid: string -> bool)
    requires parts != [] && parts[0] != "" && CommitUpTo(parts, n, c, valid)
    requires BatchChanges(parts[3..]) == Changes(c.changes, parts[n..]) && BatchParse(parts[n..], valid) == Parsed(more, true)
    ensures BatchParse(parts, valid) == Parsed([c] + more, true)
  {
    hide BatchChanges, PartsOfChanges, IsObjectId, TrimNewline;
    BatchShrinks(parts[3..]);
  }

  lemma {:induction false} SpelledIsRead(parts: seq<string>, commits: seq<Commit>, valid: string -> bool)
    requires PartsOfLog(parts, commits, valid)
    ensures BatchParse(parts, valid) == Parsed(commits, true)
    decreases |parts|
  {
    hide BatchChanges, PartsOfChanges, IsObjectId, TrimNewline, Stops;
    if parts != [] {
      if parts[0] == "" {
        SpelledIsRead(parts[1..], commits, valid);
      } else {
        hide BatchParse;
        var n: nat :| CommitUpTo(parts, n, commits[0], valid) && PartsOfLog(parts[n..], commits[1..], valid);
        hide PartsOfLog;
        Further(parts, 3, n - 3);
        ChangesRead(parts[3..], n - 3, commits[0].changes);
        SpelledIsRead(parts[n..], commits[1..], valid);
        CommitRead(parts, n, commits[0], commits[1..], valid);
        assert [commits[0]] + commits[1..] == commits;
      }
    }
  }

  /** The parser of a whole buffer accepts a buffer with these commits exactly if its parts are theirs. */
  lemma BufferAccepts(parts: seq<string>, commits: seq<Commit>, valid: string -> bool)
    ensures BatchParse(parts, valid) == Parsed(commits, true) <==> PartsOfLog(parts, commits, valid)
  {
    hide BatchParse, PartsOfLog;
    if BatchParse(parts, valid).ok {
      BatchAccepts(parts, valid);
    }
    if PartsOfLog(parts, commits, valid) {
      SpelledIsRead(parts, commits, valid);
    }
  }
}
