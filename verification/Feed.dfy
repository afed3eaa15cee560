/** The feed builder as it runs: candidates, horizon marks, fallbacks in a map, a sort, and grouping by index. */
module Feed {
  import opened Text
  import opened FeedSpec

  type Key = (Package, Kind)

  function KeyOf(e: Event): Key {
    (e.package, e.kind)
  }

  lemma SnocEvents(list: seq<Event>, e: Event)
    ensures Events(list + [e]) == Events(list) + {e}
  {
  }

  /** Distinct events with distinct identities. */
  lemma SnocDistinct(list: seq<Event>, e: Event)
    requires DistinctIds(list) && forall x | x in list :: x.id != e.id
    ensures DistinctIds(list + [e])
  {
  }

  lemma Apart(events: seq<Event>, a: Event, b: Event)
    requires DistinctIds(events) && a in events && b in events
    ensures a.id == b.id ==> a == b
  {
    var i :| 0 <= i < |events| && events[i] == a;
    var j :| 0 <= j < |events| && events[j] == b;
    if i < j {
      assert events[i].id != events[j].id;
    } else if j < i {
      assert events[j].id != events[i].id;
    }
  }

  lemma Fresh(events: seq<Event>, i: nat, e: Event)
    requires DistinctIds(events) && i < |events| && e in events[..i]
    ensures e.id != events[i].id
  {
    var k :| 0 <= k < i && events[..i][k] == e;
    assert events[k].id != events[i].id;
  }

  method Candidates(events: seq<Event>, f: Filter) returns (list: seq<Event>)
    ensures Events(list) == set e | e in events && Candidate(e, f)
    ensures DistinctIds(events) ==> DistinctIds(list)
  {
    list := [];
    for i := 0 to |events|
      invariant Events(list) == set e | e in events[..i] && Candidate(e, f)
      invariant DistinctIds(events) ==> DistinctIds(list)
    {
      assert events[..i + 1] == events[..i] + [events[i]];
      if !Matches(events[i], f) || !InScope(f.scope, events[i].groupId, events[i].groupKind, f.target) {
        continue;
      }
      if DistinctIds(events) {
        forall x | x in list ensures x.id != events[i].id {
          assert x in Events(list);
          Fresh(events, i, x);
        }
        SnocDistinct(list, events[i]);
      }
      SnocEvents(list, events[i]);
      list := list + [events[i]];
    }
    assert events[..|events|] == events;
  }

  method MarkInside(candidates: seq<Event>, f: Filter) returns (inside: set<Key>)
    ensures inside == set e | e in candidates && !BeforeHorizon(e, f) :: KeyOf(e)
  {
    inside := {};
    for i := 0 to |candidates|
      invariant inside == set e | e in candidates[..i] && !BeforeHorizon(e, f) :: KeyOf(e)
    {
      assert candidates[..i + 1] == candidates[..i] + [candidates[i]];
      if !BeforeHorizon(candidates[i], f) {
        inside := inside + {KeyOf(candidates[i])};
      }
    }
    assert candidates[..|candidates|] == candidates;
  }

  predicate Old(e: Event, inside: set<Key>, installed: set<Package>, f: Filter) {
    BeforeHorizon(e, f) && e.package in installed && KeyOf(e) !in inside
  }

  /** The map holds, for each package and kind, the newest of the old events seen. */
  ghost predicate Newest(newest: map<Key, Event>, seen: seq<Event>, inside: set<Key>, installed: set<Package>, f: Filter) {
    && (forall k | k in newest :: newest[k] in seen && KeyOf(newest[k]) == k && Old(newest[k], inside, installed, f))
    && (forall e | e in seen && Old(e, inside, installed, f) :: KeyOf(e) in newest && (e == newest[KeyOf(e)] || Less(newest[KeyOf(e)], e)))
  }

  lemma NewestStep(newest: map<Key, Event>, seen: seq<Event>, inside: set<Key>, installed: set<Package>, f: Filter, e: Event)
    requires Newest(newest, seen, inside, installed, f) && Old(e, inside, installed, f) && forall x | x in seen :: x.id != e.id
    ensures var better := KeyOf(e) !in newest || Less(e, newest[KeyOf(e)]);
      Newest(if better then newest[KeyOf(e) := e] else newest, seen + [e], inside, installed, f)
  {
    var k := KeyOf(e);
    if k in newest {
      LessTotal(e, newest[k]);
      forall x | x in seen && Old(x, inside, installed, f) && KeyOf(x) == k && Less(e, newest[k]) ensures Less(e, x) {
        if x != newest[k] {
          LessTransitive(e, newest[k], x);
        }
      }
    }
  }

  lemma NewestSkip(newest: map<Key, Event>, seen: seq<Event>, inside: set<Key>, installed: set<Package>, f: Filter, e: Event)
    requires Newest(newest, seen, inside, installed, f) && !Old(e, inside, installed, f)
    ensures Newest(newest, seen + [e], inside, installed, f)
  {
  }

  /** The second pass: keep what is inside the horizon, remember the newest of the rest. */
  method Select(candidates: seq<Event>, inside: set<Key>, installed: set<Package>, f: Filter)
    returns (filtered: seq<Event>, newest: map<Key, Event>)
    ensures Events(filtered) == set e | e in candidates && !BeforeHorizon(e, f)
    ensures DistinctIds(candidates) ==> DistinctIds(filtered) && Newest(newest, candidates, inside, installed, f)
  {
    filtered, newest := [], map[];
    for i := 0 to |candidates|
      invariant Events(filtered) == set e | e in candidates[..i] && !BeforeHorizon(e, f)
      invariant DistinctIds(candidates) ==> DistinctIds(filtered) && Newest(newest, candidates[..i], inside, installed, f)
    {
      assert candidates[..i + 1] == candidates[..i] + [candidates[i]];
      var event := candidates[i];
      if DistinctIds(candidates) {
        forall x | x in candidates[..i] ensures x.id != event.id {
          Fresh(candidates, i, x);
        }
      }
      if !BeforeHorizon(event, f) {
        if DistinctIds(candidates) {
          forall x | x in filtered ensures x.id != event.id {
            assert x in Events(filtered);
          }
          SnocDistinct(filtered, event);
          NewestSkip(newest, candidates[..i], inside, installed, f, event);
        }
        SnocEvents(filtered, event);
        filtered := filtered + [event];
        continue;
      }
      var key := KeyOf(event);
      if event.package !in installed || key in inside {
        if DistinctIds(candidates) {
          NewestSkip(newest, candidates[..i], inside, installed, f, event);
        }
        continue;
      }
      if DistinctIds(candidates) {
        NewestStep(newest, candidates[..i], inside, installed, f, event);
      }
      if key !in newest || Less(event, newest[key]) {
        newest := newest[key := event];
      }
    }
    assert candidates[..|candidates|] == candidates;
  }

  /** The fallbacks join the list in whatever order the map gives them. */
  method AppendFallbacks(filtered: seq<Event>, newest: map<Key, Event>) returns (list: seq<Event>)
    ensures Events(list) == Events(filtered) + set k | k in newest :: newest[k]
    ensures DistinctIds(filtered) && Apartness(filtered, newest) ==> DistinctIds(list)
  {
    list := filtered;
    var keys := newest.Keys;
    while keys != {}
      invariant keys <= newest.Keys
      invariant Events(list) == Events(filtered) + set k | k in newest && k !in keys :: newest[k]
      invariant DistinctIds(filtered) && Apartness(filtered, newest) ==> DistinctIds(list)
    {
      var key :| key in keys;
      if DistinctIds(filtered) && Apartness(filtered, newest) {
        forall x | x in list ensures x.id != newest[key].id {
          assert x in Events(list);
        }
        SnocDistinct(list, newest[key]);
      }
      SnocEvents(list, newest[key]);
      assert (set k | k in newest && k !in keys - {key} :: newest[k]) == (set k | k in newest && k !in keys :: newest[k]) + {newest[key]};
      list := list + [newest[key]];
      keys := keys - {key};
    }
    assert (set k | k in newest && k !in keys :: newest[k]) == set k | k in newest :: newest[k];
  }

  predicate Apartness(filtered: seq<Event>, newest: map<Key, Event>) {
    && (forall e, k | e in filtered && k in newest :: e.id != newest[k].id)
    && (forall j, k | j in newest && k in newest && j != k :: newest[j].id != newest[k].id)
  }

  predicate Ordered(list: seq<Event>) {
    forall i, j | 0 <= i < j < |list| :: !Less(list[j], list[i])
  }

  /** Sorting by `eventLess`; equal elements may end up in any order. */
  method Sort(list: seq<Event>) returns (sorted: seq<Event>)
    ensures Ordered(sorted) && multiset(sorted) == multiset(list)
  {
    sorted := [];
    for i := 0 to |list|
      invariant Ordered(sorted) && multiset(sorted) == multiset(list[..i])
    {
      assert list[..i + 1] == list[..i] + [list[i]];
      var at := |sorted|;
      while at > 0 && Less(list[i], sorted[at - 1])
        invariant 0 <= at <= |sorted| && forall k | at <= k < |sorted| :: Less(list[i], sorted[k])
      {
        at := at - 1;
      }
      InsertOrdered(sorted, at, list[i]);
      assert sorted == sorted[..at] + sorted[at..];
      sorted := sorted[..at] + [list[i]] + sorted[at..];
    }
    assert list[..|list|] == list;
  }

  lemma NotLessTransitive(a: Event, b: Event, c: Event)
    requires !Less(b, a) && !Less(c, b)
    ensures !Less(c, a)
  {
    if a.time == b.time == c.time && Precedes(c.id, a.id) {
      Total(b.id, c.id);
      Total(a.id, b.id);
      if a.id != b.id && b.id != c.id {
        Transitive(a.id, b.id, c.id);
      }
      Asymmetric(c.id, a.id);
    }
  }

  lemma InsertOrdered(sorted: seq<Event>, at: nat, e: Event)
    requires Ordered(sorted) && at <= |sorted| && (forall k | at <= k < |sorted| :: Less(e, sorted[k]))
    requires at > 0 ==> !Less(e, sorted[at - 1])
    ensures Ordered(sorted[..at] + [e] + sorted[at..])
  {
    forall k | 0 <= k < at ensures !Less(e, sorted[k]) {
      if k < at - 1 {
        NotLessTransitive(sorted[k], sorted[at - 1], e);
      }
    }
    forall k | at <= k < |sorted| ensures !Less(sorted[k], e) {
      LessAsymmetric(e, sorted[k]);
    }
  }

  lemma OrderedIsSorted(sorted: seq<Event>, list: seq<Event>)
    requires Ordered(sorted) && multiset(sorted) == multiset(list) && DistinctIds(list)
    ensures Lists(sorted, Events(list))
  {
    forall i, j | 0 <= i < j < |sorted| ensures Less(sorted[i], sorted[j]) {
      DistinctElements(list);
      assert sorted[i] in multiset(sorted) && sorted[j] in multiset(sorted);
      if sorted[i] == sorted[j] {
        Twice(sorted, i, j);
      }
      assert sorted[i] in list && sorted[j] in list;
      Apart(list, sorted[i], sorted[j]);
      LessTotal(sorted[i], sorted[j]);
    }
    forall e | e in list ensures e in sorted {
      assert e in multiset(list);
    }
    forall e | e in sorted ensures e in list {
      assert e in multiset(sorted);
    }
  }

  lemma {:induction false} DistinctElements(list: seq<Event>)
    requires DistinctIds(list)
    ensures forall e :: multiset(list)[e] <= 1
  {
    if list != [] {
      var n := |list| - 1;
      DistinctElements(list[..n]);
      assert list == list[..n] + [list[n]];
      forall e | e in list[..n] ensures e != list[n] {
        Fresh(list, n, e);
      }
      assert list[n] !in multiset(list[..n]);
    }
  }

  lemma Twice(s: seq<Event>, i: nat, j: nat)
    requires i < j < |s| && s[i] == s[j]
    ensures multiset(s)[s[i]] >= 2
  {
    assert s == s[..j] + [s[j]] + s[j + 1..];
    assert s[..j] == s[..i] + [s[i]] + s[i + 1..j];
  }

  /** Grouping by the index of each package's row. */
  method GroupRows(list: seq<Event>, rollUp: bool) returns (groups: seq<Group>)
    ensures groups == Grouped(list, rollUp)
  {
    groups := [];
    var groupByPackage: map<Package, nat> := map[];
    for i := 0 to |list|
      invariant groups == Grouped(list[..i], rollUp)
      invariant rollUp ==> forall p :: p in groupByPackage <==> IndexOf(groups, p) < |groups|
      invariant rollUp ==> forall p | p in groupByPackage :: groupByPackage[p] == IndexOf(groups, p)
    {
      var event := list[i];
      assert list[..i + 1][..i] == list[..i];
      if rollUp {
        if event.package in groupByPackage {
          var index := groupByPackage[event.package];
          JoinKeepsIndex(groups, index, event);
          groups := groups[index := groups[index].(events := groups[index].events + [event])];
          continue;
        }
        OpenIndex(groups, event);
        groupByPackage := groupByPackage[event.package := |groups|];
      }
      groups := groups + [Group(event.id, [event])];
    }
    assert list[..|list|] == list;
  }

  lemma IndexUnique(groups: seq<Group>, p: Package, n: nat)
    requires n <= |groups| && (n < |groups| ==> Holds(groups[n], p)) && forall k | 0 <= k < n :: !Holds(groups[k], p)
    ensures IndexOf(groups, p) == n
  {
    var m := IndexOf(groups, p);
    assert m < |groups| ==> Holds(groups[m], p);
    assert n < |groups| ==> Holds(groups[n], p);
  }

  lemma JoinKeepsIndex(groups: seq<Group>, index: nat, e: Event)
    requires index < |groups| && Holds(groups[index], e.package)
    ensures var t := groups[index := groups[index].(events := groups[index].events + [e])];
      forall p :: IndexOf(t, p) == IndexOf(groups, p)
  {
    var t := groups[index := groups[index].(events := groups[index].events + [e])];
    forall p ensures IndexOf(t, p) == IndexOf(groups, p) {
      assert forall k | 0 <= k < |groups| :: Holds(t[k], p) == Holds(groups[k], p);
      IndexUnique(t, p, IndexOf(groups, p));
    }
  }

  lemma OpenIndex(groups: seq<Group>, e: Event)
    requires IndexOf(groups, e.package) == |groups|
    ensures var t := groups + [Group(e.id, [e])];
      forall p :: IndexOf(t, p) == if p == e.package then |groups| else if IndexOf(groups, p) == |groups| then |t| else IndexOf(groups, p)
  {
    var t := groups + [Group(e.id, [e])];
    forall p ensures IndexOf(t, p) == if p == e.package then |groups| else if IndexOf(groups, p) == |groups| then |t| else IndexOf(groups, p) {
      assert forall k | 0 <= k < |groups| :: Holds(t[k], p) == Holds(groups[k], p);
      IndexUnique(t, p, if p == e.package then |groups| else if IndexOf(groups, p) == |groups| then |t| else IndexOf(groups, p));
    }
  }

  /** `BuildFeed`: with distinct identities the rows depend only on which events there are. */
  method Build(events: seq<Event>, installed: set<Package>, f: Filter) returns (groups: seq<Group>)
    ensures DistinctIds(events) ==> IsFeed(groups, Events(events), installed, f)
  {
    var candidates := Candidates(events, f);
    var inside := MarkInside(candidates, f);
    var filtered, newest := Select(candidates, inside, installed, f);
    var list := AppendFallbacks(filtered, newest);
    var sorted := Sort(list);
    groups := GroupRows(sorted, f.rollUp);
    if DistinctIds(events) {
      AllShown(events, candidates, inside, filtered, newest, list, installed, f);
      OrderedIsSorted(sorted, list);
    }
  }

  lemma AllShown(events: seq<Event>, candidates: seq<Event>, inside: set<Key>, filtered: seq<Event>, newest: map<Key, Event>,
                 list: seq<Event>, installed: set<Package>, f: Filter)
    requires Events(candidates) == (set e | e in events && Candidate(e, f)) && DistinctIds(candidates)
    requires inside == set e | e in candidates && !BeforeHorizon(e, f) :: KeyOf(e)
    requires Events(filtered) == (set e | e in candidates && !BeforeHorizon(e, f)) && DistinctIds(filtered)
    requires Newest(newest, candidates, inside, installed, f)
    requires Events(list) == Events(filtered) + set k | k in newest :: newest[k]
    ensures Apartness(filtered, newest) && Events(list) == Shown(Events(events), installed, f)
  {
    forall e, k | e in filtered && k in newest ensures e.id != newest[k].id {
      assert e in Events(filtered);
      Apart(candidates, e, newest[k]);
    }
    forall j, k | j in newest && k in newest && j != k ensures newest[j].id != newest[k].id {
      Apart(candidates, newest[j], newest[k]);
    }
    assert forall e :: e in candidates <==> e in Events(candidates);
    forall e ensures e in Events(list) <==> e in Shown(Events(events), installed, f) {
      ShownOrNot(events, candidates, inside, newest, installed, f, e);
    }
  }

  lemma ShownOrNot(events: seq<Event>, candidates: seq<Event>, inside: set<Key>, newest: map<Key, Event>, installed: set<Package>,
                   f: Filter, e: Event)
    requires forall x :: x in candidates <==> x in events && Candidate(x, f)
    requires inside == set x | x in candidates && !BeforeHorizon(x, f) :: KeyOf(x)
    requires Newest(newest, candidates, inside, installed, f)
    ensures e in Shown(Events(events), installed, f) <==>
            (e in candidates && !BeforeHorizon(e, f)) || (exists k :: k in newest && newest[k] == e)
  {
    var all := Events(events);
    if e in candidates && BeforeHorizon(e, f) {
      var k := KeyOf(e);
      if Fallback(all, installed, f, e) {
        assert k !in inside;
        assert Old(e, inside, installed, f);
        var n := newest[k];
        if n != e {
          assert n in candidates && Alike(n, e);
          LessAsymmetric(n, e);
        }
      }
      if k in newest && newest[k] == e {
        forall x | x in all && Alike(x, e) && Candidate(x, f) ensures BeforeHorizon(x, f) && (x == e || Less(e, x)) {
          assert x in candidates && KeyOf(x) == k;
        }
      }
    }
  }
}
