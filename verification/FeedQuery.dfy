/** The feed query: rows are chosen in SQL before the feed is built from them, and catalog hits follow it. */
module FeedQuery {
  import opened Wrappers
  import opened FeedSpec
  import Feed

  /** A row of the join: an event, its package's group columns (null when there is none), and whether the package is
      installed. */
  datatype Row = Row(event: Event, group: Option<nat>, groupKind: Option<string>, installed: bool)

  datatype CatalogPackage = CatalogPackage(id: Package, kindOfPackage: string)
  datatype PackageRow = PackageRow(name: string, kindOfPackage: string, groupId: nat, groupKind: string, installed: bool)

  /** `matched` is what the full-text indexes return, if the query has any term at all; `blank` says it is all space. */
  datatype Query = Query(filter: Filter, blank: bool, matched: Option<set<Package>>, externals: seq<Package>, catalog: seq<CatalogPackage>)

  /** What the joins guarantee: coalesced columns agree with their nulls, no group has the number 0, and a package is
      installed in all its rows or in none. */
  predicate Joined(rows: seq<Row>) {
    && (forall r | r in rows ::
          && r.event.groupId == (if r.group.Some? then r.group.value else 0)
          && r.event.groupKind == (if r.groupKind.Some? then r.groupKind.value else "")
          && r.group != Some(0))
    && (forall r, s | r in rows && s in rows && r.event.package == s.event.package :: r.installed == s.installed)
    && (forall i, j | 0 <= i < j < |rows| :: rows[i].event.id != rows[j].event.id)
  }

  /** `groupScopeSQL`. */
  predicate SqlScope(r: Row, f: Filter) {
    match f.scope
    case Ungrouped => r.group.None?
    case User => r.group == Some(f.target)
    case All => (if r.groupKind.Some? then r.groupKind.value else "") != "hidden"
  }

  /** Whether the search itself decides who is exempt from the horizon. */
  predicate Overrides(q: Query) {
    !q.blank && q.externals != []
  }

  predicate SqlHorizon(r: Row, q: Query) {
    q.filter.horizon > 0 ==>
      r.event.time >= q.filter.now - q.filter.horizon || r.installed || (Overrides(q) && r.event.package in q.externals)
  }

  predicate SqlKinds(r: Row, f: Filter) {
    (f.kinds == map[] || On(f.kinds, r.event.kind)) && (f.types == map[] || On(f.types, r.event.kindOfPackage))
  }

  predicate TextKeeps(r: Row, q: Query) {
    q.matched.None? || r.event.package in q.matched.value || r.event.package in q.externals
  }

  predicate SqlKeeps(r: Row, q: Query) {
    SqlScope(r, q.filter) && SqlHorizon(r, q) && SqlKinds(r, q.filter) && TextKeeps(r, q)
  }

  function ExemptAll(externals: seq<Package>): map<Package, bool> {
    map p | p in externals :: true
  }

  /** The filter that the feed is built with. */
  function Built(q: Query): Filter {
    q.filter.(needle := "", exempt := if Overrides(q) then ExemptAll(q.externals) else q.filter.exempt)
  }

  function EventsWhere(rows: seq<Row>, q: Query, sql: bool): set<Event> {
    set r | r in rows && (if sql then SqlKeeps(r, q) else TextKeeps(r, q)) :: r.event
  }

  function InstalledWhere(rows: seq<Row>, q: Query, sql: bool): set<Package> {
    set r | r in rows && r.installed && (if sql then SqlKeeps(r, q) else TextKeeps(r, q)) :: r.event.package
  }

  /** A row that the feed rules would show and the SQL horizon drops: exempt by the caller's own list. */
  predicate Lost(r: Row, q: Query) {
    && TextKeeps(r, q) && Candidate(r.event, Built(q)) && !r.installed && q.filter.horizon > 0
    && r.event.time < q.filter.now - q.filter.horizon && On(Built(q).exempt, r.event.package) && !Overrides(q)
  }

  lemma KeptIsCandidate(r: Row, q: Query)
    requires r.event.groupId == (if r.group.Some? then r.group.value else 0) && r.group != Some(0)
    requires r.event.groupKind == if r.groupKind.Some? then r.groupKind.value else ""
    ensures SqlScope(r, q.filter) && SqlKinds(r, q.filter) <==> Candidate(r.event, Built(q))
  {
  }

  lemma OneRow(rows: seq<Row>, r: Row, s: Row)
    requires Joined(rows) && r in rows && s in rows && r.event == s.event
    ensures r == s
  {
    var i :| 0 <= i < |rows| && rows[i] == r;
    var j :| 0 <= j < |rows| && rows[j] == s;
  }

  lemma RowOf(rows: seq<Row>, q: Query, sql: bool, e: Event) returns (r: Row)
    requires e in EventsWhere(rows, q, sql)
    ensures r in rows && r.event == e && if sql then SqlKeeps(r, q) else TextKeeps(r, q)
  {
    r :| r in rows && (if sql then SqlKeeps(r, q) else TextKeeps(r, q)) && r.event == e;
  }

  lemma InstalledAgree(rows: seq<Row>, q: Query, sql: bool, r: Row)
    requires Joined(rows) && r in rows && if sql then SqlKeeps(r, q) else TextKeeps(r, q)
    ensures r.event.package in InstalledWhere(rows, q, sql) <==> r.installed
  {
  }

  /** An old event of an installed package is chosen from the same rivals with or without the SQL filter. */
  lemma SameRivals(rows: seq<Row>, q: Query, r: Row)
    requires Joined(rows) && r in rows && r.installed && SqlKeeps(r, q)
    requires Candidate(r.event, Built(q))
    ensures Fallback(EventsWhere(rows, q, true), InstalledWhere(rows, q, true), Built(q), r.event)
            <==> Fallback(EventsWhere(rows, q, false), InstalledWhere(rows, q, false), Built(q), r.event)
  {
    InstalledAgree(rows, q, true, r);
    InstalledAgree(rows, q, false, r);
    forall x | x in EventsWhere(rows, q, false) && Alike(x, r.event) && Candidate(x, Built(q)) ensures x in EventsWhere(rows, q, true) {
      var s := RowOf(rows, q, false, x);
      KeptIsCandidate(s, q);
    }
    forall x | x in EventsWhere(rows, q, true) ensures x in EventsWhere(rows, q, false) {
      var s := RowOf(rows, q, true, x);
    }
  }

  /** The rows that SQL keeps show an event exactly when all rows would, unless the row is lost. */
  lemma ShownAlike(rows: seq<Row>, q: Query, r: Row)
    requires Joined(rows) && r in rows
    ensures !Lost(r, q) ==>
      (r.event in Shown(EventsWhere(rows, q, true), InstalledWhere(rows, q, true), Built(q))
       <==> r.event in Shown(EventsWhere(rows, q, false), InstalledWhere(rows, q, false), Built(q)))
    ensures Lost(r, q) ==> r.event !in EventsWhere(rows, q, true)
    ensures Lost(r, q) ==> r.event in Shown(EventsWhere(rows, q, false), InstalledWhere(rows, q, false), Built(q))
  {
    KeptIsCandidate(r, q);
    if r.event in EventsWhere(rows, q, true) {
      var s := RowOf(rows, q, true, r.event);
      OneRow(rows, r, s);
    }
    if r.event in EventsWhere(rows, q, false) {
      var s := RowOf(rows, q, false, r.event);
      OneRow(rows, r, s);
      InstalledAgree(rows, q, false, r);
    }
    if r.installed && SqlKeeps(r, q) && Candidate(r.event, Built(q)) {
      SameRivals(rows, q, r);
    }
    if SqlKeeps(r, q) {
      InstalledAgree(rows, q, true, r);
    }
  }

  /** Filtering rows in SQL changes nothing about the feed exactly when no row is lost. */
  lemma PushDownExact(rows: seq<Row>, q: Query)
    requires Joined(rows)
    ensures Shown(EventsWhere(rows, q, true), InstalledWhere(rows, q, true), Built(q))
            == Shown(EventsWhere(rows, q, false), InstalledWhere(rows, q, false), Built(q))
            <==> forall r | r in rows :: !Lost(r, q)
  {
    hide Shown, Lost;
    var kept := Shown(EventsWhere(rows, q, true), InstalledWhere(rows, q, true), Built(q));
    var all := Shown(EventsWhere(rows, q, false), InstalledWhere(rows, q, false), Built(q));
    forall e | e in kept || e in all ensures exists r :: r in rows && r.event == e {
      ShownIn(EventsWhere(rows, q, true), InstalledWhere(rows, q, true), Built(q), e);
      ShownIn(EventsWhere(rows, q, false), InstalledWhere(rows, q, false), Built(q), e);
      var r := RowOf(rows, q, e in EventsWhere(rows, q, true), e);
    }
    forall r | r in rows ensures (!Lost(r, q) ==> (r.event in kept <==> r.event in all)) && (Lost(r, q) ==> r.event in all && r.event !in kept) {
      ShownAlike(rows, q, r);
      ShownIn(EventsWhere(rows, q, true), InstalledWhere(rows, q, true), Built(q), r.event);
    }
  }

  lemma ShownIn(all: set<Event>, installed: set<Package>, f: Filter, e: Event)
    ensures e in Shown(all, installed, f) ==> e in all
  {
  }

  /** No row is lost when the search sets the exemptions, or nobody is exempt. */
  lemma NothingLost(rows: seq<Row>, q: Query)
    requires Overrides(q) || forall p | p in q.filter.exempt :: !q.filter.exempt[p]
    ensures forall r | r in rows :: !Lost(r, q)
  {
  }

  /** A caller's own exemption is not honoured by the SQL horizon: an old event of an exempt package that is not
      installed is dropped before the feed rules could keep it. */
  lemma CallerExemptionIsDropped()
    ensures var stale := Event("1", "wget", "wget", "formula", 0, "", "version", 10);
      var f := Filter(100, 50, map[], map[], "", false, map["wget" := true], All, 0);
      var q := Query(f, true, None, [], []);
      var rows := [Row(stale, None, None, false)];
      Joined(rows) && stale in Shown(EventsWhere(rows, q, false), {}, Built(q)) && EventsWhere(rows, q, true) == {}
  {
    var stale := Event("1", "wget", "wget", "formula", 0, "", "version", 10);
    var f := Filter(100, 50, map[], map[], "", false, map["wget" := true], All, 0);
    var q := Query(f, true, None, [], []);
    var r := Row(stale, None, None, false);
    assert TextKeeps(r, q) && r in [r] && !SqlKeeps(r, q);
  }

  // ---- catalog rows ------------------------------------------------------------------------------

  predicate Listed(pkg: CatalogPackage, packages: map<Package, PackageRow>, f: Filter) {
    && (f.types == map[] || On(f.types, pkg.kindOfPackage))
    && pkg.id in packages
    && (f.types == map[] || On(f.types, packages[pkg.id].kindOfPackage))
    && InScope(f.scope, packages[pkg.id].groupId, packages[pkg.id].groupKind, f.target)
  }

  function CatalogRow(id: Package, row: PackageRow): Group {
    Group("catalog:" + id, [Event("catalog:" + id, id, row.name, row.kindOfPackage, row.groupId, row.groupKind, "catalog", 0)])
  }

  /** The packages that get a catalog row, in order. */
  function CatalogIds(catalog: seq<CatalogPackage>, packages: map<Package, PackageRow>, f: Filter, shown: set<Package>): seq<Package>
    decreases |catalog|
  {
    if catalog == [] then [] else
    var pkg := catalog[0];
    if pkg.id !in shown && Listed(pkg, packages, f) then [pkg.id] + CatalogIds(catalog[1..], packages, f, shown + {pkg.id})
    else CatalogIds(catalog[1..], packages, f, shown)
  }

  /** Catalog rows name distinct packages, none of them already shown, and every listed hit is shown one way or the other. */
  lemma {:induction false} CatalogExact(catalog: seq<CatalogPackage>, packages: map<Package, PackageRow>, f: Filter, shown: set<Package>)
    ensures var ids := CatalogIds(catalog, packages, f, shown);
      && (forall i, j | 0 <= i < j < |ids| :: ids[i] != ids[j])
      && (forall id | id in ids :: id in packages && id !in shown
            && InScope(f.scope, packages[id].groupId, packages[id].groupKind, f.target)
            && (f.types == map[] || On(f.types, packages[id].kindOfPackage)))
      && (forall pkg | pkg in catalog && Listed(pkg, packages, f) :: pkg.id in shown || pkg.id in ids)
    decreases |catalog|
  {
    if catalog != [] {
      var pkg := catalog[0];
      assert catalog == [pkg] + catalog[1..];
      if pkg.id !in shown && Listed(pkg, packages, f) {
        CatalogExact(catalog[1..], packages, f, shown + {pkg.id});
        var rest := CatalogIds(catalog[1..], packages, f, shown + {pkg.id});
        assert forall i | 0 <= i < |rest| :: rest[i] in rest;
      } else {
        CatalogExact(catalog[1..], packages, f, shown);
      }
    }
  }

  function RowsOf(ids: seq<Package>, packages: map<Package, PackageRow>): seq<Group>
    requires forall id | id in ids :: id in packages
  {
    seq(|ids|, i requires 0 <= i < |ids| => assert ids[i] in ids; CatalogRow(ids[i], packages[ids[i]]))
  }

  function PackagesIn(groups: seq<Group>): set<Package> {
    set g, e | g in groups && e in g.events :: e.package
  }

  /** What follows the feed. */
  function CatalogPart(q: Query, packages: map<Package, PackageRow>, shown: set<Package>): (ids: seq<Package>)
    ensures forall id | id in ids :: id in packages
  {
    CatalogExact(q.catalog, packages, q.filter, shown);
    if q.filter.kinds != map[] && !On(q.filter.kinds, "version") then [] else CatalogIds(q.catalog, packages, q.filter, shown)
  }

  // ---- the query as it runs ----------------------------------------------------------------------

  predicate AllOff<K>(flags: map<K, bool>) {
    flags != map[] && forall k | k in flags :: !flags[k]
  }

  /** The statement's `WHERE`, row by row, and what the scan loop collects. */
  method Scan(rows: seq<Row>, q: Query) returns (events: seq<Event>, installed: set<Package>)
    requires Joined(rows)
    ensures Events(events) == EventsWhere(rows, q, true) && installed == InstalledWhere(rows, q, true) && DistinctIds(events)
  {
    events, installed := [], {};
    for i := 0 to |rows|
      invariant Events(events) == EventsWhere(rows[..i], q, true) && installed == InstalledWhere(rows[..i], q, true)
      invariant DistinctIds(events)
    {
      assert rows[..i + 1] == rows[..i] + [rows[i]];
      if SqlKeeps(rows[i], q) {
        forall x | x in events ensures x.id != rows[i].event.id {
          assert x in Events(events);
          var r := RowOf(rows[..i], q, true, x);
          var k :| 0 <= k < i && rows[..i][k] == r;
          assert rows[k].event.id != rows[i].event.id;
        }
        Feed.SnocDistinct(events, rows[i].event);
        Feed.SnocEvents(events, rows[i].event);
        events := events + [rows[i].event];
        if rows[i].installed {
          installed := installed + {rows[i].event.package};
        }
      }
    }
    assert rows[..|rows|] == rows;
  }

  /** With every kind or every type switched off there is nothing to show, so returning early changes nothing. */
  lemma NothingOn(rows: seq<Row>, packages: map<Package, PackageRow>, q: Query, sql: bool)
    requires AllOff(q.filter.kinds) || AllOff(q.filter.types)
    ensures IsFeed([], EventsWhere(rows, q, sql), InstalledWhere(rows, q, sql), Built(q))
    ensures CatalogPart(q, packages, {}) == []
  {
    assert Shown(EventsWhere(rows, q, sql), InstalledWhere(rows, q, sql), Built(q)) == {};
    assert Lists([], Shown(EventsWhere(rows, q, sql), InstalledWhere(rows, q, sql), Built(q)));
    assert Grouped([], Built(q).rollUp) == [];
    if AllOff(q.filter.types) {
      NoTypesNoRows(q.catalog, packages, q.filter, {});
    }
  }

  lemma {:induction false} NoTypesNoRows(catalog: seq<CatalogPackage>, packages: map<Package, PackageRow>, f: Filter, shown: set<Package>)
    requires AllOff(f.types)
    ensures CatalogIds(catalog, packages, f, shown) == []
    decreases |catalog|
  {
    if catalog != [] {
      NoTypesNoRows(catalog[1..], packages, f, shown);
    }
  }

  method AppendCatalog(feed: seq<Group>, packages: map<Package, PackageRow>, q: Query) returns (groups: seq<Group>)
    ensures groups == feed + RowsOf(CatalogPart(q, packages, PackagesIn(feed)), packages)
  {
    groups := feed;
    if q.filter.kinds != map[] && !On(q.filter.kinds, "version") {
      return;
    }
    var shown := PackagesIn(feed);
    ghost var ids: seq<Package> := [];
    assert q.catalog[0..] == q.catalog;
    for i := 0 to |q.catalog|
      invariant forall id | id in ids :: id in packages
      invariant groups == feed + RowsOf(ids, packages)
      invariant ids + CatalogIds(q.catalog[i..], packages, q.filter, shown) == CatalogIds(q.catalog, packages, q.filter, PackagesIn(feed))
    {
      var pkg := q.catalog[i];
      assert q.catalog[i..][1..] == q.catalog[i + 1..];
      if pkg.id in shown || (q.filter.types != map[] && !On(q.filter.types, pkg.kindOfPackage)) {
        continue;
      }
      if pkg.id !in packages {
        continue;
      }
      var row := packages[pkg.id];
      if q.filter.types != map[] && !On(q.filter.types, row.kindOfPackage) {
        continue;
      }
      if !InScope(q.filter.scope, row.groupId, row.groupKind, q.filter.target) {
        continue;
      }
      shown := shown + {pkg.id};
      RowsSnoc(ids, packages, pkg.id);
      groups := groups + [CatalogRow(pkg.id, row)];
      ids := ids + [pkg.id];
    }
  }

  lemma RowsSnoc(ids: seq<Package>, packages: map<Package, PackageRow>, id: Package)
    requires id in packages && forall x | x in ids :: x in packages
    ensures RowsOf(ids + [id], packages) == RowsOf(ids, packages) + [CatalogRow(id, packages[id])]
  {
  }

  /** A feed of the chosen rows, then the catalog rows that follow it; `sql` says whether the statement chose, or the text alone. */
  ghost predicate Answers(groups: seq<Group>, rows: seq<Row>, packages: map<Package, PackageRow>, q: Query, sql: bool) {
    exists feed ::
      && IsFeed(feed, EventsWhere(rows, q, sql), InstalledWhere(rows, q, sql), Built(q))
      && groups == feed + RowsOf(CatalogPart(q, packages, PackagesIn(feed)), packages)
  }

  /** A query has one answer. */
  lemma AnswerUnique(a: seq<Group>, b: seq<Group>, rows: seq<Row>, packages: map<Package, PackageRow>, q: Query, sql: bool)
    requires Answers(a, rows, packages, q, sql) && Answers(b, rows, packages, q, sql)
    ensures a == b
  {
    var events, installed := EventsWhere(rows, q, sql), InstalledWhere(rows, q, sql);
    var x :| IsFeed(x, events, installed, Built(q)) && a == x + RowsOf(CatalogPart(q, packages, PackagesIn(x)), packages);
    var y :| IsFeed(y, events, installed, Built(q)) && b == y + RowsOf(CatalogPart(q, packages, PackagesIn(y)), packages);
    FeedUnique(x, y, events, installed, Built(q));
  }

  /** `QueryFeed`: the answer for the rows the statement keeps, which unless a row is lost is the answer with the filter's
      own rules and nothing left to SQL. */
  method QueryFeed(rows: seq<Row>, packages: map<Package, PackageRow>, q: Query) returns (groups: seq<Group>)
    requires Joined(rows)
    ensures Answers(groups, rows, packages, q, true)
    ensures (forall r | r in rows :: !Lost(r, q)) ==> Answers(groups, rows, packages, q, false)
  {
    if AllOff(q.filter.kinds) || AllOff(q.filter.types) {
      NothingOn(rows, packages, q, true);
      NothingOn(rows, packages, q, false);
      assert PackagesIn([]) == {};
      assert [] == [] + RowsOf(CatalogPart(q, packages, PackagesIn([])), packages);
      return [];
    }
    var events, installed := Scan(rows, q);
    var f := q.filter.(needle := "");
    if Overrides(q) {
      f := f.(exempt := ExemptAll(q.externals));
    }
    var built := Feed.Build(events, installed, f);
    PushDownExact(rows, q);
    groups := AppendCatalog(built, packages, q);
  }
}
