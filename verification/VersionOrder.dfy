/** What decides the comparison of any two versions, and what their parts are. */
module VersionOrder {
  import opened Text
  import opened Versions

  // ---- parts -------------------------------------------------------------------------------------

  /** Both digits, or both letters. */
  predicate SameKind(a: char, b: char) {
    IsVersionCharacter(a) && IsVersionCharacter(b) && IsDigit(a) == IsDigit(b)
  }

  /** `v[i..j]` is a run of digits or of letters that goes on neither way. */
  predicate IsRun(v: string, i: nat, j: nat) {
    && i < j <= |v| && (forall x | i <= x < j :: SameKind(v[x], v[i]))
    && (i > 0 ==> !SameKind(v[i - 1], v[i])) && (j < |v| ==> !SameKind(v[j], v[i]))
  }

  lemma {:induction false} RunEndMaximal(s: string, numeric: bool)
    ensures var n := RunEnd(s, numeric); n < |s| ==> !(IsVersionCharacter(s[n]) && IsDigit(s[n]) == numeric)
  {
    if s != "" && IsVersionCharacter(s[0]) && IsDigit(s[0]) == numeric {
      RunEndMaximal(s[1..], numeric);
    }
  }

  /** The part comes from this run, which begins at `start` or later. */
  predicate From(v: string, start: nat, part: Part, run: (nat, nat), lower: string -> string) {
    start <= run.0 && IsRun(v, run.0, run.1) && part == Part(lower(v[run.0..run.1]), IsDigit(v[run.0]))
  }

  ghost predicate AllFrom(v: string, start: nat, parts: seq<Part>, runs: seq<(nat, nat)>, lower: string -> string) {
    |runs| == |parts| && forall k | 0 <= k < |runs| :: From(v, start, parts[k], runs[k], lower)
  }

  predicate InOrder(runs: seq<(nat, nat)>) {
    forall k, l | 0 <= k < l < |runs| :: runs[k].1 <= runs[l].0
  }

  ghost predicate Covers(v: string, start: nat, runs: seq<(nat, nat)>) {
    forall x | start <= x < |v| && IsVersionCharacter(v[x]) :: exists k :: 0 <= k < |runs| && runs[k].0 <= x < runs[k].1
  }

  /** The runs that make up the parts from `start` on. */
  ghost predicate Runs(v: string, start: nat, parts: seq<Part>, runs: seq<(nat, nat)>, lower: string -> string) {
    AllFrom(v, start, parts, runs, lower) && InOrder(runs) && Covers(v, start, runs)
  }

  lemma RunsFirst(v: string, start: nat, end: nat, first: Part, parts: seq<Part>, rest: seq<(nat, nat)>, lower: string -> string)
    requires IsRun(v, start, end) && first == Part(lower(v[start..end]), IsDigit(v[start])) && Runs(v, end, parts, rest, lower)
    ensures Runs(v, start, [first] + parts, [(start, end)] + rest, lower)
  {
    AllFromFirst(v, start, end, first, parts, rest, lower);
    OrderFirst(v, start, end, parts, rest, lower);
    CoverFirst(v, start, end, rest);
  }

  lemma AllFromFirst(v: string, start: nat, end: nat, first: Part, parts: seq<Part>, rest: seq<(nat, nat)>, lower: string -> string)
    requires start <= end && IsRun(v, start, end) && first == Part(lower(v[start..end]), IsDigit(v[start])) && AllFrom(v, end, parts, rest, lower)
    ensures AllFrom(v, start, [first] + parts, [(start, end)] + rest, lower)
  {
    hide IsRun;
    assert From(v, start, first, (start, end), lower);
    forall k | 0 <= k < |rest| ensures From(v, start, parts[k], rest[k], lower) {
      assert From(v, end, parts[k], rest[k], lower);
    }
  }

  lemma OrderFirst(v: string, start: nat, end: nat, parts: seq<Part>, rest: seq<(nat, nat)>, lower: string -> string)
    requires AllFrom(v, end, parts, rest, lower) && InOrder(rest)
    ensures InOrder([(start, end)] + rest)
  {
    hide IsRun;
    forall k | 0 <= k < |rest| ensures end <= rest[k].0 {
      assert From(v, end, parts[k], rest[k], lower);
    }
  }

  lemma CoverFirst(v: string, start: nat, end: nat, rest: seq<(nat, nat)>)
    requires start < end <= |v| && Covers(v, end, rest)
    ensures Covers(v, start, [(start, end)] + rest)
  {
    hide IsVersionCharacter;
    var runs := [(start, end)] + rest;
    forall x | start <= x < |v| && IsVersionCharacter(v[x]) ensures exists k :: 0 <= k < |runs| && runs[k].0 <= x < runs[k].1 {
      if x < end {
        assert runs[0].0 <= x < runs[0].1;
      } else {
        var k :| 0 <= k < |rest| && rest[k].0 <= x < rest[k].1;
        assert runs[k + 1] == rest[k];
      }
    }
  }

  lemma {:induction false} SplitRunsFrom(v: string, start: nat, lower: string -> string) returns (runs: seq<(nat, nat)>)
    requires start <= |v| && (0 < start < |v| ==> !SameKind(v[start - 1], v[start]))
    ensures Runs(v, start, Split(v[start..], lower), runs, lower)
    decreases |v| - start
  {
    hide Runs, From, IsLetter;
    var s := v[start..];
    if s == "" {
      runs := [];
      NoRuns(v, lower);
    } else if !IsVersionCharacter(s[0]) {
      runs := SplitRunsFrom(v, start + 1, lower);
      SplitStep(v, start, start + 1, lower);
      RunsSkip(v, start, Split(v[start + 1..], lower), runs, lower);
    } else {
      var end := start + RunEnd(s, IsDigit(s[0]));
      FirstRun(v, start);
      runs := SplitRunsFrom(v, end, lower);
      SplitStep(v, start, end, lower);
      RunsFirst(v, start, end, Part(lower(v[start..end]), IsDigit(v[start])), Split(v[end..], lower), runs, lower);
      runs := [(start, end)] + runs;
    }
  }

  lemma NoRuns(v: string, lower: string -> string)
    ensures Split("", lower) == [] && Runs(v, |v|, [], [], lower)
  {
  }

  lemma RunsSkip(v: string, start: nat, parts: seq<Part>, runs: seq<(nat, nat)>, lower: string -> string)
    requires start < |v| && !IsVersionCharacter(v[start]) && Runs(v, start + 1, parts, runs, lower)
    ensures Runs(v, start, parts, runs, lower)
  {
  }

  lemma RunStarts(s: string)
    requires s != "" && IsVersionCharacter(s[0])
    ensures RunEnd(s, IsDigit(s[0])) > 0
  {
  }

  lemma FirstRun(v: string, start: nat)
    requires start < |v| && IsVersionCharacter(v[start]) && (start > 0 ==> !SameKind(v[start - 1], v[start]))
    ensures var end := start + RunEnd(v[start..], IsDigit(v[start])); IsRun(v, start, end) && (end < |v| ==> !SameKind(v[end - 1], v[end]))
  {
    hide IsLetter, IsDigit, RunEnd;
    var s, n := v[start..], RunEnd(v[start..], IsDigit(v[start]));
    RunStarts(s);
    RunEndMaximal(s, IsDigit(s[0]));
    forall x | start <= x < start + n ensures SameKind(v[x], v[start]) {
      assert v[x] == s[x - start];
    }
    assert start + n < |v| ==> v[start + n] == s[n];
  }

  /** The parts of a version are its runs of digits and of letters, whole and in order, lower-cased. */
  lemma SplitMeans(version: string, lower: string -> string) returns (runs: seq<(nat, nat)>)
    ensures var parts := Split(version, lower);
      && |runs| == |parts|
      && (forall k | 0 <= k < |runs| :: IsRun(version, runs[k].0, runs[k].1))
      && (forall k | 0 <= k < |runs| :: parts[k] == Part(lower(version[runs[k].0..runs[k].1]), IsDigit(version[runs[k].0])))
      && (forall k, l | 0 <= k < l < |runs| :: runs[k].1 <= runs[l].0)
      && (forall x | 0 <= x < |version| && IsVersionCharacter(version[x]) :: exists k :: 0 <= k < |runs| && runs[k].0 <= x < runs[k].1)
  {
    runs := SplitRunsFrom(version, 0, lower);
    assert version[0..] == version;
  }

  // ---- what decides ------------------------------------------------------------------------------

  /** Numbers of one value, or the same word. */
  ghost predicate Equal(p: Part, q: Part) {
    if p.numeric && q.numeric && Digits(p.value) && Digits(q.value) then Value(p.value) == Value(q.value)
    else p.numeric == q.numeric && p.value == q.value
  }

  /** The smaller number, the word that comes first, or a word against a number. */
  ghost predicate Lower(p: Part, q: Part) {
    if p.numeric && q.numeric then Digits(p.value) && Digits(q.value) && Value(p.value) < Value(q.value)
    else !p.numeric && (q.numeric || FirstDifference(p.value, q.value))
  }

  predicate Proper(parts: seq<Part>) {
    forall p | p in parts && p.numeric :: Digits(p.value)
  }

  ghost predicate Agree(a: seq<Part>, b: seq<Part>, n: nat) {
    n <= |a| && n <= |b| && forall i | 0 <= i < n :: Equal(a[i], b[i])
  }

  predicate Zero(p: Part) {
    p.numeric && Digits(p.value) && Value(p.value) == 0
  }

  /** The first part from `n` on that is not the number zero. */
  predicate Leads(parts: seq<Part>, n: nat, j: int) {
    n <= j < |parts| && (forall i | n <= i < j :: Zero(parts[i])) && !Zero(parts[j])
  }

  /** It is a number or an ordinary word. */
  ghost predicate Continues(parts: seq<Part>, n: nat) {
    exists j :: Leads(parts, n, j) && (parts[j].numeric || !IsTag(parts[j].value))
  }

  predicate IsTag(word: string) {
    word == "a" || word == "alpha" || word == "b" || word == "beta" || word == "pre" || word == "preview" || word == "rc"
  }

  /** It is a tag. */
  ghost predicate Tagged(parts: seq<Part>, n: nat) {
    exists j :: Leads(parts, n, j) && !parts[j].numeric && IsTag(parts[j].value)
  }

  /** The first part in which the two differ is lower in `a`; or `b` is `a` and goes on; or `a` is `b` and a tag. */
  ghost predicate Below(a: seq<Part>, b: seq<Part>) {
    || (exists k :: 0 <= k < |a| && k < |b| && Agree(a, b, k) && Lower(a[k], b[k]))
    || (Agree(a, b, |a|) && Continues(b, |a|))
    || (Agree(a, b, |b|) && Tagged(a, |b|))
  }

  lemma PartsMean(p: Part, q: Part)
    requires (p.numeric ==> Digits(p.value)) && (q.numeric ==> Digits(q.value))
    ensures CompareParts(p, q) < 0 <==> Lower(p, q)
    ensures CompareParts(p, q) == 0 <==> Equal(p, q)
  {
    hide Text.Precedes, FirstDifference, Value, Digits, TrimZeros;
    if p.numeric && q.numeric {
      NumericPartsCompare(p, q);
    } else if !p.numeric && !q.numeric {
      PrecedesMeans(p.value, q.value);
      Irreflexive(p.value);
    }
  }

  lemma {:induction false} WeightMeans(parts: seq<Part>)
    requires Proper(parts)
    ensures Weight(parts) > 0 <==> Continues(parts, 0)
    ensures Weight(parts) < 0 <==> Tagged(parts, 0)
  {
    if parts != [] {
      assert parts[0] in parts;
      if parts[0].numeric {
        ZerosDoNotCount(parts[0].value);
        TrimmedIsZero(parts[0].value);
      }
      if Zero(parts[0]) {
        var rest := parts[1..];
        assert Proper(rest);
        WeightMeans(rest);
        RestShifts(parts, 0);
      } else {
        assert parts[0].numeric || !IsTag(parts[0].value) ==> Continues(parts, 0);
        assert !parts[0].numeric && IsTag(parts[0].value) ==> Tagged(parts, 0);
      }
    }
  }

  lemma LeadsShifts(parts: seq<Part>, n: nat, j: int)
    requires parts != [] && (n > 0 || Zero(parts[0]))
    ensures Leads(parts, n, j) <==> Leads(parts[1..], if n > 0 then n - 1 else 0, j - 1)
  {
    var rest, m := parts[1..], if n > 0 then n - 1 else 0;
    if Leads(rest, m, j - 1) {
      forall i | n <= i < j ensures Zero(parts[i]) {
        if i > 0 {
          assert rest[i - 1] == parts[i];
        }
      }
    }
  }

  /** Past a zero part, and past the first part of the other list, places move by one. */
  lemma RestShifts(parts: seq<Part>, n: nat)
    requires parts != [] && (n > 0 || Zero(parts[0]))
    ensures var m := if n > 0 then n - 1 else 0;
      (Continues(parts, n) <==> Continues(parts[1..], m)) && (Tagged(parts, n) <==> Tagged(parts[1..], m))
  {
    hide Leads, Zero, IsTag;
    var rest, m := parts[1..], if n > 0 then n - 1 else 0;
    forall j: int ensures Leads(parts, n, j) <==> Leads(rest, m, j - 1) {
      LeadsShifts(parts, n, j);
    }
    forall j: int ensures Leads(parts, n, j) ==> 0 < j < |parts| && rest[j - 1] == parts[j] {
      LeadsInside(parts, n, j);
    }
    forall j: int ensures Leads(rest, m, j) ==> Leads(parts, n, j + 1) && 0 <= j < |rest| && rest[j] == parts[j + 1] {
      LeadsShifts(parts, n, j + 1);
      LeadsInside(parts, n, j + 1);
    }
  }

  lemma LeadsInside(parts: seq<Part>, n: nat, j: int)
    requires parts != [] && (n > 0 || Zero(parts[0]))
    ensures Leads(parts, n, j) ==> 0 < j < |parts|
  {
  }

  lemma AgreeShifts(a: seq<Part>, b: seq<Part>, n: nat)
    requires a != [] && b != [] && Equal(a[0], b[0]) && n > 0
    ensures Agree(a, b, n) <==> Agree(a[1..], b[1..], n - 1)
  {
    if Agree(a[1..], b[1..], n - 1) {
      forall i | 0 <= i < n ensures Equal(a[i], b[i]) {
        if i > 0 {
          assert Equal(a[1..][i - 1], b[1..][i - 1]);
        }
      }
    }
  }

  lemma PrecedesShifts(a: seq<Part>, b: seq<Part>)
    requires a != [] && b != [] && Equal(a[0], b[0]) && !Lower(a[0], b[0])
    ensures Below(a, b) <==> Below(a[1..], b[1..])
  {
    hide Equal, Lower, Agree, Continues, Tagged;
    var x, y := a[1..], b[1..];
    RestShifts(a, |b|);
    RestShifts(b, |a|);
    AgreeShifts(a, b, |a|);
    AgreeShifts(a, b, |b|);
    if k :| 0 <= k < |a| && k < |b| && Agree(a, b, k) && Lower(a[k], b[k]) {
      AgreeShifts(a, b, k);
      assert Agree(x, y, k - 1) && Lower(x[k - 1], y[k - 1]);
    }
    if k :| 0 <= k < |x| && k < |y| && Agree(x, y, k) && Lower(x[k], y[k]) {
      AgreeShifts(a, b, k + 1);
      assert Lower(a[k + 1], b[k + 1]);
    }
  }

  lemma DiffersAtOnce(a: seq<Part>, b: seq<Part>)
    requires a != [] && b != [] && !Equal(a[0], b[0])
    ensures Below(a, b) <==> Lower(a[0], b[0])
  {
    hide Equal, Lower, Continues, Tagged;
    assert Agree(a, b, 0);
    assert forall n: nat :: Agree(a, b, n) ==> n == 0;
  }

  lemma {:induction false} ListsMean(a: seq<Part>, b: seq<Part>)
    requires Proper(a) && Proper(b)
    ensures CompareLists(a, b) < 0 <==> Below(a, b)
    decreases |a|
  {
    hide Equal, Lower, Continues, Tagged;
    if a == [] || b == [] {
      WeightMeans(a);
      WeightMeans(b);
      OneEnds(a, b);
    } else {
      assert a[0] in a && b[0] in b;
      PartsMean(a[0], b[0]);
      if Equal(a[0], b[0]) {
        assert Proper(a[1..]) && Proper(b[1..]);
        ListsMean(a[1..], b[1..]);
        PrecedesShifts(a, b);
      } else {
        DiffersAtOnce(a, b);
      }
    }
  }

  lemma OneEnds(a: seq<Part>, b: seq<Part>)
    requires a == [] || b == []
    ensures Below(a, b) <==> (a == [] && Continues(b, 0)) || (b == [] && Tagged(a, 0))
  {
    assert Agree(a, b, 0);
  }

  /** The order of any two versions: the first part in which they differ decides, numbers by size, words as text, and a number
      above a word; if one is the other and more, the first part that is not zero decides, and only a tag makes it lower. */
  lemma CompareMeans(left: string, right: string, lower: string -> string)
    requires forall s :: Digits(s) ==> lower(s) == s
    ensures var a, b := Split(left, lower), Split(right, lower); var c := Compare(left, right, lower);
      (c < 0 <==> Below(a, b)) && (c > 0 <==> Below(b, a))
  {
    NumericPartsAreDigits(left, lower);
    NumericPartsAreDigits(right, lower);
    ListsMean(Split(left, lower), Split(right, lower));
    ListsMean(Split(right, lower), Split(left, lower));
    ListsAntisymmetric(Split(left, lower), Split(right, lower));
  }
}
