/** What the feed shows, said without saying in which order it is computed. */
module FeedSpec {
  import opened Text

  type Package = string
  type Kind = string

  datatype Event = Event(id: string, package: Package, name: string, kindOfPackage: string, groupId: nat, groupKind: string,
                         kind: Kind, time: int)

  datatype Scope = All | Ungrouped | User

  /** `needle` is the query, trimmed and folded; names and packages are folded alike. */
  datatype Filter = Filter(now: int, horizon: int, kinds: map<Kind, bool>, types: map<string, bool>, needle: string, rollUp: bool,
                           exempt: map<Package, bool>, scope: Scope, target: nat)

  datatype Group = Group(id: string, events: seq<Event>)

  /** A lookup in a map of flags; what is missing is false. */
  predicate On<K>(flags: map<K, bool>, key: K) {
    key in flags && flags[key]
  }

  /** `matchesFeedFilter`. */
  predicate Matches(e: Event, f: Filter) {
    && (f.kinds == map[] || On(f.kinds, e.kind))
    && (f.types == map[] || On(f.types, e.kindOfPackage))
    && (f.needle == "" || Contains(e.name, f.needle) || Contains(e.package, f.needle))
  }

  /** `MatchesGroupScope`. */
  predicate InScope(scope: Scope, groupId: nat, groupKind: string, target: nat) {
    match scope
    case Ungrouped => groupId == 0
    case User => groupId != 0 && groupId == target
    case All => groupKind != "hidden"
  }

  predicate Candidate(e: Event, f: Filter) {
    Matches(e, f) && InScope(f.scope, e.groupId, e.groupKind, f.target)
  }

  /** `beforeHorizon`. */
  predicate BeforeHorizon(e: Event, f: Filter) {
    f.horizon > 0 && !On(f.exempt, e.package) && e.time < f.now - f.horizon
  }

  /** `eventLess`: newest first, then by identity. */
  predicate Less(a: Event, b: Event) {
    if a.time != b.time then a.time > b.time else Precedes(a.id, b.id)
  }

  predicate Inside(e: Event, f: Filter) {
    Candidate(e, f) && !BeforeHorizon(e, f)
  }

  predicate Alike(a: Event, b: Event) {
    a.package == b.package && a.kind == b.kind
  }

  /** The newest of the old events of an installed package, of a kind that has none inside the horizon. */
  predicate Fallback(all: set<Event>, installed: set<Package>, f: Filter, e: Event) {
    && e in all && Candidate(e, f) && BeforeHorizon(e, f) && e.package in installed
    && (forall x | x in all && Alike(x, e) && Candidate(x, f) :: BeforeHorizon(x, f) && (x == e || Less(e, x)))
  }

  /** What the feed shows: the matching events inside the horizon, and those fallbacks. */
  function Shown(all: set<Event>, installed: set<Package>, f: Filter): set<Event> {
    set e | e in all && (Inside(e, f) || Fallback(all, installed, f, e))
  }

  predicate Sorted(list: seq<Event>) {
    forall i, j | 0 <= i < j < |list| :: Less(list[i], list[j])
  }

  predicate Lists(list: seq<Event>, all: set<Event>) {
    Sorted(list) && (forall e | e in list :: e in all) && (forall e | e in all :: e in list)
  }

  predicate DistinctIds(events: seq<Event>) {
    forall i, j | 0 <= i < j < |events| :: events[i].id != events[j].id
  }

  function Events(events: seq<Event>): set<Event> {
    set e | e in events
  }

  // ---- rows ----------------------------------------------------------------------------------

  function Alone(list: seq<Event>): seq<Group> {
    if list == [] then [] else
    var n := |list| - 1;
    Alone(list[..n]) + [Group(list[n].id, [list[n]])]
  }

  predicate Holds(g: Group, package: Package) {
    g.events != [] && g.events[0].package == package
  }

  function IndexOf(groups: seq<Group>, package: Package): (n: nat)
    ensures n <= |groups| && (n < |groups| ==> Holds(groups[n], package))
    ensures forall k | 0 <= k < n :: !Holds(groups[k], package)
  {
    if groups == [] || Holds(groups[0], package) then 0 else IndexOf(groups[1..], package) + 1
  }

  /** One group for each package, in order of its first event. */
  function RolledUp(list: seq<Event>): seq<Group> {
    if list == [] then [] else
    var n := |list| - 1;
    var groups := RolledUp(list[..n]);
    var k := IndexOf(groups, list[n].package);
    if k < |groups| then groups[k := groups[k].(events := groups[k].events + [list[n]])]
    else groups + [Group(list[n].id, [list[n]])]
  }

  function Grouped(list: seq<Event>, rollUp: bool): seq<Group> {
    if rollUp then RolledUp(list) else Alone(list)
  }

  /** The rows are a feed of these events. */
  ghost predicate IsFeed(groups: seq<Group>, all: set<Event>, installed: set<Package>, f: Filter) {
    exists list :: Lists(list, Shown(all, installed, f)) && groups == Grouped(list, f.rollUp)
  }

  // ---- the order is total, so the feed is determined --------------------------------------------

  lemma LessAsymmetric(a: Event, b: Event)
    ensures !(Less(a, b) && Less(b, a)) && !Less(a, a)
  {
    Asymmetric(a.id, b.id);
    Irreflexive(a.id);
  }

  lemma LessTransitive(a: Event, b: Event, c: Event)
    requires Less(a, b) && Less(b, c)
    ensures Less(a, c)
  {
    if a.time == b.time == c.time {
      Transitive(a.id, b.id, c.id);
    }
  }

  lemma LessTotal(a: Event, b: Event)
    requires a.id != b.id
    ensures Less(a, b) || Less(b, a)
  {
    Total(a.id, b.id);
  }

  lemma SortedRest(list: seq<Event>)
    requires Sorted(list) && list != []
    ensures Sorted(list[1..]) && forall e | e in list[1..] :: Less(list[0], e) && e != list[0]
  {
    forall e | e in list[1..] ensures Less(list[0], e) && e != list[0] {
      var i :| 0 <= i < |list[1..]| && list[1..][i] == e;
      assert Less(list[0], list[i + 1]);
      LessAsymmetric(e, e);
    }
  }

  /** A set of events has one sorted listing. */
  lemma {:induction false} ListingUnique(a: seq<Event>, b: seq<Event>, all: set<Event>)
    requires Lists(a, all) && Lists(b, all)
    ensures a == b
    decreases |a|
  {
    assert |b| > 0 ==> b[0] in all;
    if a == [] {
      assert b == [];
    } else {
      assert a[0] in b;
      SortedRest(a);
      SortedRest(b);
      if a[0] != b[0] {
        assert b[0] in a && b[0] in a[1..] by {
          assert a == [a[0]] + a[1..];
        }
        assert a[0] in b[1..] by {
          assert b == [b[0]] + b[1..];
        }
        LessAsymmetric(a[0], b[0]);
      }
      assert a == [a[0]] + a[1..] && b == [b[0]] + b[1..];
      ListingUnique(a[1..], b[1..], all - {a[0]});
    }
  }

  /** The feed depends on which events there are, and on nothing else. */
  lemma FeedUnique(a: seq<Group>, b: seq<Group>, all: set<Event>, installed: set<Package>, f: Filter)
    requires IsFeed(a, all, installed, f) && IsFeed(b, all, installed, f)
    ensures a == b
  {
    var x :| Lists(x, Shown(all, installed, f)) && a == Grouped(x, f.rollUp);
    var y :| Lists(y, Shown(all, installed, f)) && b == Grouped(y, f.rollUp);
    ListingUnique(x, y, Shown(all, installed, f));
  }

  // ---- roll-up -----------------------------------------------------------------------------------

  /** The events of one package, in order. */
  function Of(list: seq<Event>, package: Package): seq<Event> {
    if list == [] then [] else
    var n := |list| - 1;
    Of(list[..n], package) + if list[n].package == package then [list[n]] else []
  }

  function PackageOf(g: Group): Package {
    if g.events == [] then "" else g.events[0].package
  }

  predicate Whole(g: Group, list: seq<Event>) {
    g.events != [] && g.id == g.events[0].id && g.events == Of(list, g.events[0].package)
  }

  /** Each group holds all events of one package, in order, under the identity of its first; no package has two
      groups, and none is missing. */
  predicate Partition(groups: seq<Group>, list: seq<Event>) {
    && (forall k | 0 <= k < |groups| :: Whole(groups[k], list))
    && (forall a, b | 0 <= a < b < |groups| :: PackageOf(groups[a]) != PackageOf(groups[b]))
    && (forall e | e in list :: exists k :: 0 <= k < |groups| && Holds(groups[k], e.package))
  }

  lemma {:induction false} OfExact(list: seq<Event>, package: Package)
    ensures forall e :: e in Of(list, package) <==> e in list && e.package == package
  {
    if list != [] {
      OfExact(list[..|list| - 1], package);
      assert list == list[..|list| - 1] + [list[|list| - 1]];
    }
  }

  lemma SortedSnoc(list: seq<Event>, e: Event)
    requires Sorted(list) && forall x | x in list :: Less(x, e)
    ensures Sorted(list + [e])
  {
  }

  lemma {:induction false} OfSorted(list: seq<Event>, package: Package)
    requires Sorted(list)
    ensures Sorted(Of(list, package))
  {
    if list != [] {
      var n := |list| - 1;
      hide Less, Sorted;
      assert list == list[..n] + [list[n]];
      SortedPrefix(list[..n], list[n]);
      OfSorted(list[..n], package);
      OfExact(list[..n], package);
      SortedSnoc(Of(list[..n], package), list[n]);
      assert Of(list[..n], package) + [] == Of(list[..n], package);
    }
  }

  lemma {:induction false} RollUpPartitions(list: seq<Event>)
    ensures Partition(RolledUp(list), list)
  {
    if list != [] {
      var n := |list| - 1;
      var e, before := list[n], RolledUp(list[..n]);
      RollUpPartitions(list[..n]);
      RollUpStep(before, list[..n], e);
      assert list == list[..n] + [e];
    }
  }

  lemma OfSnoc(list: seq<Event>, e: Event, package: Package)
    ensures Of(list + [e], package) == Of(list, package) + if e.package == package then [e] else []
  {
    assert (list + [e])[..|list|] == list;
  }

  lemma RollUpStep(before: seq<Group>, list: seq<Event>, e: Event)
    requires Partition(before, list)
    ensures var k := IndexOf(before, e.package);
      Partition(if k < |before| then before[k := before[k].(events := before[k].events + [e])] else before + [Group(e.id, [e])], list + [e])
  {
    hide Partition;
    var k := IndexOf(before, e.package);
    if k < |before| {
      RollUpJoin(before, list, e, k);
    } else {
      RollUpOpen(before, list, e);
    }
  }

  lemma RollUpJoin(before: seq<Group>, list: seq<Event>, e: Event, k: nat)
    requires Partition(before, list) && k < |before| && Holds(before[k], e.package)
    ensures Partition(before[k := before[k].(events := before[k].events + [e])], list + [e])
  {
    var after := before[k := before[k].(events := before[k].events + [e])];
    forall j | 0 <= j < |after| ensures Whole(after[j], list + [e]) && PackageOf(after[j]) == PackageOf(before[j]) {
      assert Whole(before[j], list);
      OfSnoc(list, e, PackageOf(before[j]));
      assert j != k ==> PackageOf(before[j]) != PackageOf(before[k]);
    }
    forall x | x in list + [e] ensures exists j :: 0 <= j < |after| && Holds(after[j], x.package) {
      if x in list {
        var j :| 0 <= j < |before| && Holds(before[j], x.package);
        assert Holds(after[j], x.package);
      } else {
        assert Holds(after[k], x.package);
      }
    }
  }

  lemma NoneOf(list: seq<Event>, package: Package)
    requires forall e | e in list :: e.package != package
    ensures Of(list, package) == []
  {
    OfExact(list, package);
    assert forall e :: e !in Of(list, package);
  }

  lemma RollUpOpen(before: seq<Group>, list: seq<Event>, e: Event)
    requires Partition(before, list) && forall k | 0 <= k < |before| :: !Holds(before[k], e.package)
    ensures Partition(before + [Group(e.id, [e])], list + [e])
  {
    var after := before + [Group(e.id, [e])];
    forall x | x in list ensures x.package != e.package {
      var k :| 0 <= k < |before| && Holds(before[k], x.package);
    }
    NoneOf(list, e.package);
    OfSnoc(list, e, e.package);
    assert Whole(after[|before|], list + [e]);
    forall j | 0 <= j < |before| ensures Whole(after[j], list + [e]) && PackageOf(after[j]) != e.package {
      assert Whole(before[j], list) && !Holds(before[j], e.package);
      OfSnoc(list, e, PackageOf(before[j]));
    }
    forall x | x in list + [e] ensures exists j :: 0 <= j < |after| && Holds(after[j], x.package) {
      if x in list {
        var j :| 0 <= j < |before| && Holds(before[j], x.package);
        assert Holds(after[j], x.package);
      } else {
        assert Holds(after[|before|], x.package);
      }
    }
  }

  /** Each row begins with its newest event, and rows are ordered by it. */
  predicate NewestFirst(groups: seq<Group>) {
    && (forall k | 0 <= k < |groups| :: groups[k].events != [] && groups[k].id == groups[k].events[0].id && Sorted(groups[k].events))
    && (forall a, b | 0 <= a < b < |groups| :: groups[a].events != [] && groups[b].events != [] ==>
          Less(groups[a].events[0], groups[b].events[0]))
  }

  lemma SortedPrefix(rest: seq<Event>, last: Event)
    requires Sorted(rest + [last])
    ensures Sorted(rest) && forall e | e in rest :: Less(e, last)
  {
    var list := rest + [last];
    assert forall i | 0 <= i < |rest| :: list[i] == rest[i];
    forall e | e in rest ensures Less(e, last) {
      var i :| 0 <= i < |rest| && rest[i] == e;
      assert Less(list[i], list[|rest|]);
    }
  }

  predicate FirstOrdered(groups: seq<Group>, list: seq<Event>) {
    && (forall k | 0 <= k < |groups| :: groups[k].events != [] && groups[k].events[0] in list)
    && (forall a, b | 0 <= a < b < |groups| :: groups[a].events != [] && groups[b].events != [] ==>
          Less(groups[a].events[0], groups[b].events[0]))
  }

  lemma {:induction false} RollUpOrdered(list: seq<Event>)
    requires Sorted(list)
    ensures FirstOrdered(RolledUp(list), list)
  {
    if list != [] {
      var n := |list| - 1;
      assert list == list[..n] + [list[n]];
      SortedPrefix(list[..n], list[n]);
      RollUpOrdered(list[..n]);
    }
  }

  lemma {:induction false} AloneExact(list: seq<Event>)
    ensures |Alone(list)| == |list| && forall i | 0 <= i < |list| :: Alone(list)[i] == Group(list[i].id, [list[i]])
  {
    if list != [] {
      AloneExact(list[..|list| - 1]);
    }
  }

  lemma RowWhole(list: seq<Event>, k: nat)
    requires k < |RolledUp(list)|
    ensures Whole(RolledUp(list)[k], list)
  {
    RollUpPartitions(list);
  }

  lemma RowSorted(list: seq<Event>, k: nat)
    requires Sorted(list) && k < |RolledUp(list)|
    ensures var g := RolledUp(list)[k]; g.events != [] && g.id == g.events[0].id && Sorted(g.events)
  {
    hide RolledUp, Sorted;
    RowWhole(list, k);
    OfSorted(list, RolledUp(list)[k].events[0].package);
  }

  lemma RollUpNewest(list: seq<Event>)
    requires Sorted(list)
    ensures NewestFirst(RolledUp(list))
  {
    hide RolledUp, Less, Sorted;
    var groups := RolledUp(list);
    RollUpOrdered(list);
    forall k | 0 <= k < |groups| ensures groups[k].events != [] && groups[k].id == groups[k].events[0].id && Sorted(groups[k].events) {
      RowSorted(list, k);
    }
  }

  lemma RollUpCovers(list: seq<Event>, e: Event)
    ensures (exists k :: 0 <= k < |RolledUp(list)| && e in RolledUp(list)[k].events) <==> e in list
  {
    RollUpPartitions(list);
    var groups := RolledUp(list);
    if e in list {
      var k :| 0 <= k < |groups| && Holds(groups[k], e.package);
      assert Whole(groups[k], list);
      OfExact(list, e.package);
      assert e in groups[k].events;
    }
    forall k | 0 <= k < |groups| && e in groups[k].events ensures e in list {
      assert Whole(groups[k], list);
      OfExact(list, groups[k].events[0].package);
    }
  }

  lemma AloneCovers(list: seq<Event>, e: Event)
    ensures (exists k :: 0 <= k < |Alone(list)| && e in Alone(list)[k].events) <==> e in list
  {
    AloneExact(list);
    if e in list {
      var k :| 0 <= k < |list| && list[k] == e;
      assert e in Alone(list)[k].events;
    }
  }

  /** What the feed promises: a row for exactly what is to be shown, newest first within and among rows, and with
      roll-up one row for each package. */
  lemma FeedMeaning(groups: seq<Group>, all: set<Event>, installed: set<Package>, f: Filter, e: Event)
    requires IsFeed(groups, all, installed, f)
    ensures (exists k :: 0 <= k < |groups| && e in groups[k].events) <==> e in Shown(all, installed, f)
    ensures NewestFirst(groups)
    ensures f.rollUp ==> forall a, b | 0 <= a < b < |groups| :: PackageOf(groups[a]) != PackageOf(groups[b])
    ensures !f.rollUp ==> forall a | 0 <= a < |groups| :: |groups[a].events| == 1
  {
    var list :| Lists(list, Shown(all, installed, f)) && groups == Grouped(list, f.rollUp);
    if f.rollUp {
      RollUpNewest(list);
      RollUpCovers(list, e);
      RollUpPartitions(list);
    } else {
      AloneExact(list);
      AloneCovers(list, e);
    }
  }
}
