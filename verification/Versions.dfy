/** The order of installed versions: digit runs compare as numbers of any size, letters as text. */
module Versions {
  import opened Text

  datatype Part = Part(value: string, numeric: bool)

  /** `unicode.IsLetter` for a single byte taken as a code point. */
  predicate IsLetter(c: char) {
    || 'a' <= c <= 'z' || 'A' <= c <= 'Z'
    || c as int in {0xAA, 0xB5, 0xBA} || (0xC0 <= c as int <= 0xFF && c as int != 0xD7 && c as int != 0xF7)
  }

  predicate IsVersionCharacter(c: char) {
    IsDigit(c) || IsLetter(c)
  }

  /** The end of the run that starts at the front: characters that are all digits, or all letters. */
  function RunEnd(s: string, numeric: bool): (n: nat)
    ensures n <= |s| && (forall k | 0 <= k < n :: IsVersionCharacter(s[k]) && IsDigit(s[k]) == numeric)
  {
    if s == "" || !IsVersionCharacter(s[0]) || IsDigit(s[0]) != numeric then 0 else RunEnd(s[1..], numeric) + 1
  }

  /** `splitVersion`; `lower` is `strings.ToLower`. */
  function Split(version: string, lower: string -> string): seq<Part>
    decreases |version|
  {
    if version == "" then []
    else if !IsVersionCharacter(version[0]) then Split(version[1..], lower)
    else
      var n := RunEnd(version, IsDigit(version[0]));
      [Part(lower(version[..n]), IsDigit(version[0]))] + Split(version[n..], lower)
  }

  /** `strings.TrimLeft(value, "0")`. */
  function TrimZeros(s: string): (t: string)
    ensures |t| <= |s| && (t != "" ==> t[0] != '0') && t == s[|s| - |t|..] && forall k | 0 <= k < |s| - |t| :: s[k] == '0'
  {
    if s != "" && s[0] == '0' then TrimZeros(s[1..]) else s
  }

  function Sign(n: int): int {
    if n < 0 then -1 else if n > 0 then 1 else 0
  }

  /** `strings.Compare`. */
  function CompareText(a: string, b: string): int {
    if a == b then 0 else if Precedes(a, b) then -1 else 1
  }

  /** `compareVersionParts`. */
  function CompareParts(a: Part, b: Part): int {
    if a.numeric && b.numeric then
      var x, y := TrimZeros(a.value), TrimZeros(b.value);
      if |x| != |y| then Sign(|x| - |y|) else CompareText(x, y)
    else if a.numeric then 1
    else if b.numeric then -1
    else CompareText(a.value, b.value)
  }

  /** The words that sort before a release. */
  const TAGS := {"a", "alpha", "b", "beta", "pre", "preview", "rc"}

  /** `remainderWeight`. */
  function Weight(parts: seq<Part>): int {
    if parts == [] then 0
    else if !parts[0].numeric then if parts[0].value in TAGS then -1 else 1
    else if TrimZeros(parts[0].value) != "" then 1
    else Weight(parts[1..])
  }

  function CompareLists(a: seq<Part>, b: seq<Part>): int {
    if a == [] && b == [] then 0
    else if a == [] then -Weight(b)
    else if b == [] then Weight(a)
    else if CompareParts(a[0], b[0]) != 0 then CompareParts(a[0], b[0])
    else CompareLists(a[1..], b[1..])
  }

  function Compare(left: string, right: string, lower: string -> string): int {
    CompareLists(Split(left, lower), Split(right, lower))
  }

  // ---- the code as it runs -----------------------------------------------------------------------

  method FindRunEnd(version: string, start: nat, numeric: bool) returns (end: nat)
    requires start < |version| && IsVersionCharacter(version[start]) && IsDigit(version[start]) == numeric
    ensures start < end <= |version| && end == start + RunEnd(version[start..], numeric)
  {
    end := start + 1;
    assert version[start..][1..] == version[end..];
    while end < |version| && IsVersionCharacter(version[end]) && IsDigit(version[end]) == numeric
      invariant start < end <= |version| && RunEnd(version[start..], numeric) == end - start + RunEnd(version[end..], numeric)
    {
      assert version[end..][1..] == version[end + 1..];
      end := end + 1;
    }
  }

  lemma SplitStep(version: string, start: nat, end: nat, lower: string -> string)
    requires start < end <= |version|
    ensures !IsVersionCharacter(version[start]) && end == start + 1 ==> Split(version[start..], lower) == Split(version[end..], lower)
    ensures IsVersionCharacter(version[start]) && end == start + RunEnd(version[start..], IsDigit(version[start])) ==>
      Split(version[start..], lower) == [Part(lower(version[start..end]), IsDigit(version[start]))] + Split(version[end..], lower)
  {
    assert version[start..][end - start..] == version[end..] && version[start..][..end - start] == version[start..end];
  }

  method SplitVersion(version: string, lower: string -> string) returns (parts: seq<Part>)
    ensures parts == Split(version, lower)
  {
    hide Split, IsLetter;
    parts := [];
    var start := 0;
    assert version[0..] == version;
    while start < |version|
      invariant start <= |version| && parts + Split(version[start..], lower) == Split(version, lower)
    {
      if !IsVersionCharacter(version[start]) {
        SplitStep(version, start, start + 1, lower);
        start := start + 1;
        continue;
      }
      var numeric := IsDigit(version[start]);
      var end := FindRunEnd(version, start, numeric);
      SplitStep(version, start, end, lower);
      parts := parts + [Part(lower(version[start..end]), numeric)];
      start := end;
    }
    NothingLeft(version[start..], lower);
  }

  lemma NothingLeft(rest: string, lower: string -> string)
    requires rest == ""
    ensures Split(rest, lower) == []
  {
  }

  method CompareVersions(left: string, right: string, lower: string -> string) returns (comparison: int)
    ensures comparison == Compare(left, right, lower)
  {
    var a := SplitVersion(left, lower);
    var b := SplitVersion(right, lower);
    var common := if |a| < |b| then |a| else |b|;
    assert a[0..] == a && b[0..] == b;
    for i := 0 to common
      invariant CompareLists(a[i..], b[i..]) == CompareLists(a, b)
    {
      assert a[i..][1..] == a[i + 1..] && b[i..][1..] == b[i + 1..];
      var c := CompareParts(a[i], b[i]);
      if c != 0 {
        return c;
      }
    }
    if |a| == common {
      if |b| == common {
        return 0;
      }
      return -Weight(b[common..]);
    }
    return Weight(a[common..]);
  }

  // ---- reflexive and antisymmetric, for all versions -----------------------------------------------

  lemma TextAntisymmetric(a: string, b: string)
    ensures CompareText(a, b) == -CompareText(b, a) && (CompareText(a, b) == 0 <==> a == b)
  {
    Total(a, b);
    Asymmetric(a, b);
  }

  lemma PartsAntisymmetric(a: Part, b: Part)
    ensures CompareParts(a, b) == -CompareParts(b, a)
  {
    TextAntisymmetric(a.value, b.value);
    TextAntisymmetric(TrimZeros(a.value), TrimZeros(b.value));
  }

  lemma {:induction false} ListsAntisymmetric(a: seq<Part>, b: seq<Part>)
    ensures CompareLists(a, b) == -CompareLists(b, a)
  {
    if a != [] && b != [] {
      PartsAntisymmetric(a[0], b[0]);
      ListsAntisymmetric(a[1..], b[1..]);
    }
  }

  /** Comparing the other way round gives the opposite answer, and a version equals itself. */
  lemma CompareAntisymmetric(left: string, right: string, lower: string -> string)
    ensures Compare(left, right, lower) == -Compare(right, left, lower)
    ensures Compare(left, left, lower) == 0
  {
    ListsAntisymmetric(Split(left, lower), Split(right, lower));
    ListsAntisymmetric(Split(left, lower), Split(left, lower));
  }

  // ---- digit runs are numbers --------------------------------------------------------------------

  lemma {:induction false} ZerosDoNotCount(s: string)
    requires Digits(s)
    ensures Digits(TrimZeros(s)) && Value(TrimZeros(s)) == Value(s)
    decreases |s|
  {
    if s != "" && s[0] == '0' {
      ZerosDoNotCount(s[1..]);
      LeadingZero(s);
    }
  }

  lemma {:induction false} LeadingZero(s: string)
    requires Digits(s) && s != "" && s[0] == '0'
    ensures Value(s[1..]) == Value(s)
    decreases |s|
  {
    if |s| > 1 {
      LeadingZero(s[..|s| - 1]);
      assert s[1..][..|s| - 2] == s[..|s| - 1][1..];
    } else {
      assert s[..0] == "" && s[1..] == "";
    }
  }

  lemma {:induction false} ValueBound(s: string)
    requires Digits(s)
    ensures Value(s) < Power(|s|)
    ensures s != "" && s[0] != '0' ==> Value(s) >= Power(|s| - 1)
    decreases |s|
  {
    if s != "" {
      ValueBound(s[..|s| - 1]);
      if |s| > 1 {
        assert s[..|s| - 1][0] == s[0];
      } else {
        assert s[..0] == "";
      }
    }
  }

  lemma {:induction false} PowerGrows(m: nat, n: nat)
    requires m <= n
    ensures Power(m) <= Power(n)
    decreases n
  {
    if m < n {
      PowerGrows(m, n - 1);
    }
  }

  /** Among digit runs without leading zeros, the longer is the greater. */
  lemma LongerIsGreater(x: string, y: string)
    requires Digits(x) && Digits(y) && |x| < |y| && y[0] != '0'
    ensures Value(x) < Value(y)
  {
    ValueBound(x);
    ValueBound(y);
    PowerGrows(|x|, |y| - 1);
  }

  lemma Shift(d: nat, p: nat)
    ensures d * (10 * p) == 10 * (d * p)
  {
  }

  lemma {:induction false} FirstDigit(s: string)
    requires Digits(s) && s != ""
    ensures Digits(s[1..]) && Value(s) == (s[0] - '0') as nat * Power(|s| - 1) + Value(s[1..])
    decreases |s|
  {
    if |s| > 1 {
      var n := |s| - 1;
      FirstDigit(s[..n]);
      assert s[..n][1..] == s[1..][..n - 1] && s[..n][0] == s[0] && s[1..][n - 1] == s[n];
      Shift((s[0] - '0') as nat, Power(n - 1));
      LastDigit(s);
      LastDigit(s[1..]);
      hide Value;
    } else {
      assert s[..0] == "" && s[1..] == "";
    }
  }

  lemma LastDigit(s: string)
    requires Digits(s) && s != ""
    ensures Value(s) == 10 * Value(s[..|s| - 1]) + (s[|s| - 1] - '0') as nat
  {
  }

  lemma Multiples(a: nat, b: nat, p: nat)
    requires a < b
    ensures a * p + p <= b * p
  {
    assert (a + 1) * p <= b * p;
  }

  /** Among digit runs of one length, text order is numeric order. */
  lemma {:induction false} TextIsNumeric(x: string, y: string)
    requires Digits(x) && Digits(y) && |x| == |y|
    ensures Precedes(x, y) <==> Value(x) < Value(y)
    ensures x == y <==> Value(x) == Value(y)
    decreases |x|
  {
    if x != "" {
      FirstDigit(x);
      FirstDigit(y);
      TextIsNumeric(x[1..], y[1..]);
      ValueBound(x[1..]);
      ValueBound(y[1..]);
      assert x == [x[0]] + x[1..] && y == [y[0]] + y[1..];
      hide Value, Digits, Power;
      OrderByFirst((x[0] - '0') as nat, (y[0] - '0') as nat, Value(x[1..]), Value(y[1..]), Power(|x| - 1));
    }
  }

  lemma OrderByFirst(a: nat, b: nat, x: nat, y: nat, p: nat)
    requires x < p && y < p
    ensures a < b ==> a * p + x < b * p + y
    ensures b < a ==> b * p + y < a * p + x
  {
    if a < b {
      Multiples(a, b, p);
    } else if b < a {
      Multiples(b, a, p);
    }
  }

  lemma TrimmedCompare(x: string, y: string)
    requires Digits(x) && Digits(y) && (x != "" ==> x[0] != '0') && (y != "" ==> y[0] != '0')
    ensures (if |x| != |y| then Sign(|x| - |y|) else CompareText(x, y)) == Sign(Value(x) - Value(y))
  {
    if |x| < |y| {
      LongerIsGreater(x, y);
    } else if |y| < |x| {
      LongerIsGreater(y, x);
    } else {
      TextIsNumeric(x, y);
      Total(x, y);
      hide Value, Precedes, Digits;
    }
  }

  /** Trimming zeros, then comparing lengths, then comparing text, compares the numbers. */
  lemma NumericPartsCompare(a: Part, b: Part)
    requires a.numeric && b.numeric && Digits(a.value) && Digits(b.value)
    ensures CompareParts(a, b) == Sign(Value(a.value) - Value(b.value))
  {
    hide Value, Precedes, CompareText, TrimZeros;
    ZerosDoNotCount(a.value);
    ZerosDoNotCount(b.value);
    TrimmedCompare(TrimZeros(a.value), TrimZeros(b.value));
  }

  // ---- the order of tuples -------------------------------------------------------------------------

  /** What a part counts for: a number, or a tag, which is below every number. */
  datatype Rank = Tag(word: string) | Number(value: nat)

  function Order(a: Rank, b: Rank): int {
    if a.Number? && b.Number? then Sign(a.value - b.value)
    else if a.Number? then 1
    else if b.Number? then -1
    else CompareText(a.word, b.word)
  }

  lemma OrderTransitive(a: Rank, b: Rank, c: Rank)
    requires Order(a, b) <= 0 && Order(b, c) <= 0
    ensures Order(a, c) <= 0 && (Order(a, c) == 0 ==> a == b == c)
  {
    if a.Tag? && b.Tag? && c.Tag? && a != b && b != c {
      Transitive(a.word, b.word, c.word);
      Asymmetric(a.word, b.word);
    }
  }

  lemma OrderAntisymmetric(a: Rank, b: Rank)
    ensures Order(a, b) == -Order(b, a) && (Order(a, b) == 0 <==> a == b)
  {
    if a.Tag? && b.Tag? {
      TextAntisymmetric(a.word, b.word);
    }
  }

  /** The component, or zero past the end. */
  function At(ranks: seq<Rank>, i: nat): Rank {
    if i < |ranks| then ranks[i] else Number(0)
  }

  function Tail(ranks: seq<Rank>): seq<Rank> {
    if ranks == [] then [] else ranks[1..]
  }

  /** The two tuples, padded with zeros, agree up to a component that is smaller in the first. */
  ghost predicate Smaller(a: seq<Rank>, b: seq<Rank>) {
    exists k: nat :: Order(At(a, k), At(b, k)) < 0 && forall j: nat | j < k :: At(a, j) == At(b, j)
  }

  ghost predicate SamePadded(a: seq<Rank>, b: seq<Rank>) {
    forall k: nat :: At(a, k) == At(b, k)
  }

  function PadCompare(a: seq<Rank>, b: seq<Rank>): int
    decreases |a| + |b|
  {
    if a == [] && b == [] then 0
    else if At(a, 0) != At(b, 0) then Order(At(a, 0), At(b, 0))
    else PadCompare(Tail(a), Tail(b))
  }

  lemma TailAt(a: seq<Rank>)
    ensures forall k: nat :: At(Tail(a), k) == At(a, k + 1)
  {
  }

  lemma {:induction false} PadCompareExact(a: seq<Rank>, b: seq<Rank>)
    ensures PadCompare(a, b) < 0 <==> Smaller(a, b)
    ensures PadCompare(a, b) > 0 <==> Smaller(b, a)
    ensures PadCompare(a, b) == 0 <==> SamePadded(a, b)
    ensures PadCompare(a, b) in {-1, 0, 1}
    decreases |a| + |b|
  {
    if a != [] || b != [] {
      if At(a, 0) == At(b, 0) {
        PadCompareExact(Tail(a), Tail(b));
        TailSmaller(a, b);
        TailSmaller(b, a);
      } else {
        FirstDecides(a, b);
        FirstDecides(b, a);
      }
    }
  }

  /** Tuples that differ at once are ordered by their first components. */
  lemma FirstDecides(a: seq<Rank>, b: seq<Rank>)
    requires At(a, 0) != At(b, 0)
    ensures Smaller(a, b) <==> Order(At(a, 0), At(b, 0)) < 0
    ensures Order(At(a, 0), At(b, 0)) == -Order(At(b, 0), At(a, 0)) && Order(At(a, 0), At(b, 0)) in {-1, 1}
    ensures !SamePadded(a, b)
  {
    OrderAntisymmetric(At(a, 0), At(b, 0));
  }

  lemma TailSmaller(a: seq<Rank>, b: seq<Rank>)
    requires At(a, 0) == At(b, 0)
    ensures Smaller(a, b) <==> Smaller(Tail(a), Tail(b))
    ensures SamePadded(a, b) <==> SamePadded(Tail(a), Tail(b))
  {
    TailAt(a);
    TailAt(b);
    OrderAntisymmetric(At(a, 0), At(b, 0));
    if Smaller(a, b) {
      var k: nat :| Order(At(a, k), At(b, k)) < 0 && forall j: nat | j < k :: At(a, j) == At(b, j);
      assert Order(At(Tail(a), k - 1), At(Tail(b), k - 1)) < 0;
    }
    if Smaller(Tail(a), Tail(b)) {
      var k: nat :| Order(At(Tail(a), k), At(Tail(b), k)) < 0 && forall j: nat | j < k :: At(Tail(a), j) == At(Tail(b), j);
      assert Order(At(a, k + 1), At(b, k + 1)) < 0;
      forall j: nat | j < k + 1 ensures At(a, j) == At(b, j) {
        if j > 0 {
          assert At(Tail(a), j - 1) == At(Tail(b), j - 1);
        }
      }
    }
    if SamePadded(Tail(a), Tail(b)) {
      forall k: nat ensures At(a, k) == At(b, k) {
        if k > 0 {
          assert At(Tail(a), k - 1) == At(Tail(b), k - 1);
        }
      }
    }
  }

  lemma {:induction false} PadTransitive(a: seq<Rank>, b: seq<Rank>, c: seq<Rank>)
    requires PadCompare(a, b) <= 0 && PadCompare(b, c) <= 0
    ensures PadCompare(a, c) <= 0
    decreases |a| + |b| + |c|
  {
    if a != [] || b != [] || c != [] {
      PadFirst(a, b);
      PadFirst(b, c);
      PadFirst(a, c);
      OrderTransitive(At(a, 0), At(b, 0), At(c, 0));
      if At(a, 0) == At(b, 0) == At(c, 0) {
        PadTransitive(Tail(a), Tail(b), Tail(c));
      }
    }
  }

  lemma PadFirst(a: seq<Rank>, b: seq<Rank>)
    ensures PadCompare(a, b) <= 0 ==> Order(At(a, 0), At(b, 0)) <= 0
    ensures PadCompare(a, b) == if At(a, 0) != At(b, 0) then Order(At(a, 0), At(b, 0)) else PadCompare(Tail(a), Tail(b))
  {
    OrderAntisymmetric(At(a, 0), At(b, 0));
  }

  // ---- versions of numbers and tags ------------------------------------------------------------------

  /** A number, or a word that sorts before a release. */
  predicate Tame(p: Part) {
    if p.numeric then Digits(p.value) else p.value in TAGS
  }

  predicate AllTame(parts: seq<Part>) {
    forall p | p in parts :: Tame(p)
  }

  function RankOf(p: Part): Rank
    requires Tame(p)
  {
    if p.numeric then Number(Value(p.value)) else Tag(p.value)
  }

  function Ranks(parts: seq<Part>): seq<Rank>
    requires AllTame(parts)
  {
    seq(|parts|, i requires 0 <= i < |parts| => assert parts[i] in parts; RankOf(parts[i]))
  }

  lemma RanksRest(parts: seq<Part>)
    requires AllTame(parts) && parts != []
    ensures Tame(parts[0]) && AllTame(parts[1..]) && |Ranks(parts)| == |parts|
    ensures Ranks(parts[1..]) == Tail(Ranks(parts)) && At(Ranks(parts), 0) == RankOf(parts[0])
  {
    assert parts[0] in parts;
  }

  lemma TrimmedIsZero(s: string)
    requires Digits(s)
    ensures TrimZeros(s) == "" <==> Value(s) == 0
  {
    ZerosDoNotCount(s);
    var x := TrimZeros(s);
    if x != "" {
      ValueBound(x);
      PowerGrows(0, |x| - 1);
    }
  }

  lemma {:induction false} WeightOfTame(parts: seq<Part>)
    requires AllTame(parts)
    ensures Weight(parts) == PadCompare(Ranks(parts), []) && -Weight(parts) == PadCompare([], Ranks(parts))
  {
    if parts != [] {
      RanksRest(parts);
      if parts[0].numeric {
        TrimmedIsZero(parts[0].value);
      }
      WeightOfTame(parts[1..]);
    }
  }

  lemma PartsByRank(a: Part, b: Part)
    requires Tame(a) && Tame(b)
    ensures CompareParts(a, b) == Order(RankOf(a), RankOf(b))
  {
    hide Value, Precedes, CompareText, TrimZeros;
    if a.numeric && b.numeric {
      NumericPartsCompare(a, b);
    }
  }

  lemma {:induction false} ListsCompareRanks(a: seq<Part>, b: seq<Part>)
    requires AllTame(a) && AllTame(b)
    ensures CompareLists(a, b) == PadCompare(Ranks(a), Ranks(b))
  {
    hide CompareParts, Ranks, PadCompare, Tame, AllTame, Weight, RankOf, Order;
    if a == [] {
      NoParts(a);
      WeightOfTame(b);
      if b == [] {
        NoParts(b);
      }
    } else if b == [] {
      NoParts(b);
      WeightOfTame(a);
    } else {
      RanksRest(a);
      RanksRest(b);
      PartsByRank(a[0], b[0]);
      OrderAntisymmetric(RankOf(a[0]), RankOf(b[0]));
      ListsCompareRanks(a[1..], b[1..]);
      PadFirst(Ranks(a), Ranks(b));
    }
  }

  lemma NoParts(parts: seq<Part>)
    requires parts == []
    ensures AllTame(parts) && Ranks(parts) == [] && PadCompare([], []) == 0 && Weight(parts) == 0
  {
  }

  /** Made of numbers, separators and tags. */
  predicate TameVersion(version: string, lower: string -> string) {
    AllTame(Split(version, lower))
  }

  function VersionRanks(version: string, lower: string -> string): seq<Rank>
    requires TameVersion(version, lower)
  {
    Ranks(Split(version, lower))
  }

  /** For versions made of numbers and tags, `compareVersions` is lexicographic comparison of the parts, padded with
      zeros, each tag below every number. */
  lemma CompareIsLexicographic(left: string, right: string, lower: string -> string)
    requires TameVersion(left, lower) && TameVersion(right, lower)
    ensures var a, b := VersionRanks(left, lower), VersionRanks(right, lower); var c := Compare(left, right, lower);
      && (c < 0 <==> Smaller(a, b)) && (c > 0 <==> Smaller(b, a)) && (c == 0 <==> SamePadded(a, b))
  {
    ListsCompareRanks(Split(left, lower), Split(right, lower));
    PadCompareExact(VersionRanks(left, lower), VersionRanks(right, lower));
  }

  /** Hence such versions are totally preordered. */
  lemma TagsArePreordered(x: string, y: string, z: string, lower: string -> string)
    requires TameVersion(x, lower) && TameVersion(y, lower) && TameVersion(z, lower)
    requires Compare(x, y, lower) <= 0 && Compare(y, z, lower) <= 0
    ensures Compare(x, z, lower) <= 0
  {
    hide PadCompare, CompareLists, Ranks, AllTame;
    ListsCompareRanks(Split(x, lower), Split(y, lower));
    ListsCompareRanks(Split(y, lower), Split(z, lower));
    ListsCompareRanks(Split(x, lower), Split(z, lower));
    PadTransitive(VersionRanks(x, lower), VersionRanks(y, lower), VersionRanks(z, lower));
  }

  // ---- versions of numbers only ----------------------------------------------------------------------

  /** Made of digit runs and separators. */
  predicate NumbersOnly(version: string) {
    forall i | 0 <= i < |version| :: !IsLetter(version[i])
  }

  lemma {:induction false} NumberParts(version: string, lower: string -> string)
    requires NumbersOnly(version) && forall s :: Digits(s) ==> lower(s) == s
    ensures forall p | p in Split(version, lower) :: p.numeric && Digits(p.value)
    decreases |version|
  {
    if version != "" {
      if !IsVersionCharacter(version[0]) {
        NumberParts(version[1..], lower);
      } else {
        var n := RunEnd(version, true);
        assert IsDigit(version[0]);
        assert Digits(version[..n]);
        NumberParts(version[n..], lower);
      }
    }
  }

  /** For versions made only of digit runs and separators, the tuples are tuples of the runs' numbers. */
  lemma CompareIsArithmetic(left: string, right: string, lower: string -> string)
    requires NumbersOnly(left) && NumbersOnly(right) && forall s :: Digits(s) ==> lower(s) == s
    ensures TameVersion(left, lower) && TameVersion(right, lower)
    ensures var a, b := VersionRanks(left, lower), VersionRanks(right, lower); var c := Compare(left, right, lower);
      && (forall i: nat :: At(a, i).Number? && At(b, i).Number?)
      && (c < 0 <==> exists k: nat :: At(a, k).value < At(b, k).value && forall j: nat | j < k :: At(a, j) == At(b, j))
      && (c > 0 <==> exists k: nat :: At(b, k).value < At(a, k).value && forall j: nat | j < k :: At(b, j) == At(a, j))
      && (c == 0 <==> SamePadded(a, b))
  {
    hide Split, Compare;
    NumberParts(left, lower);
    NumberParts(right, lower);
    CompareIsLexicographic(left, right, lower);
    NumbersBySize(VersionRanks(left, lower), VersionRanks(right, lower));
    NumbersBySize(VersionRanks(right, lower), VersionRanks(left, lower));
  }

  lemma NumbersBySize(a: seq<Rank>, b: seq<Rank>)
    requires (forall i | 0 <= i < |a| :: a[i].Number?) && (forall i | 0 <= i < |b| :: b[i].Number?)
    ensures forall i: nat :: At(a, i).Number? && At(b, i).Number?
    ensures Smaller(a, b) <==> exists k: nat :: At(a, k).value < At(b, k).value && forall j: nat | j < k :: At(a, j) == At(b, j)
  {
    forall k: nat ensures Order(At(a, k), At(b, k)) < 0 <==> At(a, k).value < At(b, k).value {
    }
  }

  lemma NumbersArePreordered(x: string, y: string, z: string, lower: string -> string)
    requires NumbersOnly(x) && NumbersOnly(y) && NumbersOnly(z) && forall s :: Digits(s) ==> lower(s) == s
    requires Compare(x, y, lower) <= 0 && Compare(y, z, lower) <= 0
    ensures Compare(x, z, lower) <= 0
  {
    hide Split, Compare;
    NumberParts(x, lower);
    NumberParts(y, lower);
    NumberParts(z, lower);
    TagsArePreordered(x, y, z, lower);
  }

  // ---- which words admit an order ----------------------------------------------------------------------

  predicate IsWord(w: string) {
    w != "" && forall i | 0 <= i < |w| :: IsLetter(w[i])
  }

  /** A separator, or nothing, follows. */
  lemma OnePart(part: string, numeric: bool, rest: string, lower: string -> string)
    requires part != "" && (forall k | 0 <= k < |part| :: IsVersionCharacter(part[k]) && IsDigit(part[k]) == numeric)
    requires lower(part) == part && (rest != "" ==> rest[0] == '.')
    ensures Split(part + rest, lower) == [Part(part, numeric)] + Split(rest, lower)
  {
    var s := part + rest;
    WholeRun(part, numeric, rest);
    assert s[..|part|] == part && s[|part|..] == rest;
  }

  lemma {:induction false} WholeRun(part: string, numeric: bool, rest: string)
    requires forall k | 0 <= k < |part| :: IsVersionCharacter(part[k]) && IsDigit(part[k]) == numeric
    requires rest != "" ==> rest[0] == '.'
    ensures RunEnd(part + rest, numeric) == |part|
    decreases |part|
  {
    if part == "" {
      assert part + rest == rest;
    } else {
      assert (part + rest)[1..] == part[1..] + rest;
      WholeRun(part[1..], numeric, rest);
    }
  }

  lemma SmallSplits(w: string, lower: string -> string)
    requires IsWord(w) && lower(w) == w && lower("1") == "1" && lower("0") == "0"
    ensures Split("1", lower) == [Part("1", true)]
    ensures Split("1.0", lower) == [Part("1", true), Part("0", true)]
    ensures Split("1." + w, lower) == [Part("1", true), Part(w, false)]
  {
    OnePart("1", true, "", lower);
    OnePart("0", true, "", lower);
    OnePart(w, false, "", lower);
    OnePart("1", true, ".0", lower);
    OnePart("1", true, "." + w, lower);
    assert ".0"[1..] == "0" && ("." + w)[1..] == w && "1" + ".0" == "1.0" && "1" + ("." + w) == "1." + w;
    assert "1" + "" == "1" && "0" + "" == "0" && w + "" == w;
    assert Split(".0", lower) == Split("0", lower) && Split("." + w, lower) == Split(w, lower) && Split("", lower) == [];
  }

  lemma PartsThen(a: Part, more: seq<Part>)
    requires CompareParts(a, a) == 0
    ensures CompareLists([a] + more, [a]) == Weight(more) && CompareLists([a], [a] + more) == -Weight(more)
  {
    assert ([a] + more)[1..] == more && [a][1..] == [];
  }

  lemma SmallParts(w: string)
    requires w !in TAGS
    ensures var one, zero, z := Part("1", true), Part("0", true), Part(w, false);
      CompareParts(one, one) == 0 && CompareParts(z, zero) == -1 && Weight([zero]) == 0 && Weight([z]) == 1
  {
    PartsAntisymmetric(Part("1", true), Part("1", true));
    assert "0"[1..] == "" && TrimZeros("0") == "";
  }

  lemma AfterOne(a: Part, x: Part, y: Part)
    requires CompareParts(a, a) == 0
    ensures CompareParts(x, y) != 0 ==> CompareLists([a, x], [a, y]) == CompareParts(x, y)
    ensures CompareLists([a, x], [a]) == Weight([x]) && CompareLists([a], [a, x]) == -Weight([x])
  {
    PartsThen(a, [x]);
    assert [a] + [x] == [a, x] && [a, x][1..] == [x] && [a, y][1..] == [y];
  }

  /** Any word but the tags closes a cycle: 1.0 equals 1, 1 is below 1.w, and 1.w is below 1.0. */
  lemma OtherWordsCycle(w: string, lower: string -> string)
    requires IsWord(w) && w !in TAGS && lower(w) == w && lower("1") == "1" && lower("0") == "0"
    ensures Compare("1.0", "1", lower) == 0 && Compare("1", "1." + w, lower) < 0 && Compare("1." + w, "1.0", lower) < 0
  {
    SmallSplits(w, lower);
    hide Split, CompareParts, CompareLists, Weight;
    var one, zero, z := Part("1", true), Part("0", true), Part(w, false);
    SmallParts(w);
    AfterOne(one, z, zero);
    AfterOne(one, zero, z);
  }

  /** Every letter run of the version is one of the words. */
  predicate Speaks(version: string, words: set<string>, lower: string -> string) {
    forall p | p in Split(version, lower) :: !p.numeric ==> p.value in words
  }

  /** Versions of these words are totally preordered. */
  ghost predicate AdmitsOrder(words: set<string>, lower: string -> string) {
    forall x, y, z | Speaks(x, words, lower) && Speaks(y, words, lower) && Speaks(z, words, lower) ::
      Compare(x, y, lower) <= 0 && Compare(y, z, lower) <= 0 ==> Compare(x, z, lower) <= 0
  }

  lemma {:induction false} NumericPartsAreDigits(version: string, lower: string -> string)
    requires forall s :: Digits(s) ==> lower(s) == s
    ensures forall p | p in Split(version, lower) :: p.numeric ==> Digits(p.value)
    decreases |version|
  {
    if version != "" {
      if !IsVersionCharacter(version[0]) {
        NumericPartsAreDigits(version[1..], lower);
      } else {
        var n := RunEnd(version, IsDigit(version[0]));
        assert IsDigit(version[0]) ==> Digits(version[..n]);
        NumericPartsAreDigits(version[n..], lower);
      }
    }
  }

  /** A vocabulary of lower-case words admits an order exactly when it has none but the tags. */
  lemma OrderedVocabularies(words: set<string>, lower: string -> string)
    requires (forall s :: Digits(s) ==> lower(s) == s) && forall w | w in words :: IsWord(w) && lower(w) == w
    ensures AdmitsOrder(words, lower) <==> words <= TAGS
  {
    hide Split, Compare, IsWord;
    if words <= TAGS {
      forall x, y, z | Speaks(x, words, lower) && Speaks(y, words, lower) && Speaks(z, words, lower) &&
                       Compare(x, y, lower) <= 0 && Compare(y, z, lower) <= 0
        ensures Compare(x, z, lower) <= 0
      {
        NumericPartsAreDigits(x, lower);
        NumericPartsAreDigits(y, lower);
        NumericPartsAreDigits(z, lower);
        TagsArePreordered(x, y, z, lower);
      }
    } else {
      var w :| w in words && w !in TAGS;
      assert Digits("1") && Digits("0");
      OtherWordsCycle(w, lower);
      SpeaksSmall(w, words, lower);
      assert !(Compare("1.0", "1." + w, lower) <= 0) by {
        CompareAntisymmetric("1.0", "1." + w, lower);
      }
    }
  }

  lemma SpeaksSmall(w: string, words: set<string>, lower: string -> string)
    requires IsWord(w) && w in words && lower(w) == w && lower("1") == "1" && lower("0") == "0"
    ensures Speaks("1", words, lower) && Speaks("1.0", words, lower) && Speaks("1." + w, words, lower)
  {
    SmallSplits(w, lower);
  }
}
