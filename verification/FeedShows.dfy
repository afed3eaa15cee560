/** The feed in plain terms: times, identities, flags and substrings, without the functions that compute it. */
module FeedShows {
  import opened Wrappers
  import opened Text
  import opened FeedSpec
  import opened FeedQuery

  /** `a` is newer than `b`, or as new with a smaller identity. */
  ghost predicate Newer(a: Event, b: Event) {
    a.time > b.time || (a.time == b.time && FirstDifference(a.id, b.id))
  }

  lemma LessMeans(a: Event, b: Event)
    ensures Less(a, b) <==> Newer(a, b)
  {
    PrecedesMeans(a.id, b.id);
    if a.time == b.time && a.id == b.id {
      Irreflexive(a.id);
    }
  }

  /** Of a wanted kind and type, in scope, and with the text somewhere in its name or its package. */
  ghost predicate Passes(e: Event, f: Filter) {
    && (f.kinds == map[] || (e.kind in f.kinds && f.kinds[e.kind]))
    && (f.types == map[] || (e.kindOfPackage in f.types && f.types[e.kindOfPackage]))
    && (f.scope.Ungrouped? ==> e.groupId == 0)
    && (f.scope.User? ==> e.groupId == f.target && f.target != 0)
    && (f.scope.All? ==> e.groupKind != "hidden")
    && (f.needle == "" || Occurs(f.needle, e.name) || Occurs(f.needle, e.package))
  }

  /** Not too old, or of a package to which age does not matter. */
  predicate Recent(e: Event, f: Filter) {
    f.horizon <= 0 || e.time >= f.now - f.horizon || (e.package in f.exempt && f.exempt[e.package])
  }

  lemma CandidateMeans(e: Event, f: Filter)
    ensures Candidate(e, f) <==> Passes(e, f)
    ensures BeforeHorizon(e, f) <==> !Recent(e, f)
  {
    ContainsMeans(e.name, f.needle);
    ContainsMeans(e.package, f.needle);
  }

  /** An event is shown exactly when it passes the filter and is recent, or is the newest of an installed package and kind
      of which nothing that passes is recent. */
  lemma ShownMeans(all: set<Event>, installed: set<Package>, f: Filter, e: Event)
    ensures e in Shown(all, installed, f) <==>
      && e in all && Passes(e, f)
      && (Recent(e, f) ||
          (e.package in installed && forall x | x in all && x.package == e.package && x.kind == e.kind && Passes(x, f) ::
                                       !Recent(x, f) && (x == e || Newer(e, x))))
  {
    hide Candidate, BeforeHorizon, Passes, Recent, Less, Newer;
    CandidateMeans(e, f);
    forall x ensures (Candidate(x, f) <==> Passes(x, f)) && (BeforeHorizon(x, f) <==> !Recent(x, f)) && (Less(e, x) <==> Newer(e, x)) {
      CandidateMeans(x, f);
      LessMeans(e, x);
    }
  }

  /** A shown event that is too old is at least as new as everything else of its package and kind that passes. */
  lemma OldIsNewest(all: set<Event>, installed: set<Package>, f: Filter, e: Event, x: Event)
    requires e in Shown(all, installed, f) && !Recent(e, f)
    requires x in all && x.package == e.package && x.kind == e.kind && Passes(x, f)
    ensures e.time >= x.time && !Recent(x, f) && e.package in installed
  {
    hide Passes, Recent, Shown;
    ShownMeans(all, installed, f, e);
  }

  /** Within a row, and from row to row, times never increase, and where they are equal identities increase. A row is
      named by its first event. */
  lemma RowsByTime(groups: seq<Group>, all: set<Event>, installed: set<Package>, f: Filter)
    requires IsFeed(groups, all, installed, f)
    ensures forall k, i, j | 0 <= k < |groups| && 0 <= i < j < |groups[k].events| :: Newer(groups[k].events[i], groups[k].events[j])
    ensures forall k | 0 <= k < |groups| :: groups[k].events != [] && groups[k].id == groups[k].events[0].id
    ensures forall a, b | 0 <= a < b < |groups| :: Newer(groups[a].events[0], groups[b].events[0])
  {
    hide IsFeed, Less, Newer;
    var nobody := Event("", "", "", "", 0, "", "", 0);
    FeedMeaning(groups, all, installed, f, nobody);
    forall k, i, j | 0 <= k < |groups| && 0 <= i < j < |groups[k].events|
      ensures Newer(groups[k].events[i], groups[k].events[j])
    {
      assert Less(groups[k].events[i], groups[k].events[j]);
      LessMeans(groups[k].events[i], groups[k].events[j]);
    }
    forall a, b | 0 <= a < b < |groups| ensures Newer(groups[a].events[0], groups[b].events[0]) {
      assert Less(groups[a].events[0], groups[b].events[0]);
      LessMeans(groups[a].events[0], groups[b].events[0]);
    }
  }

  // ---- the query ---------------------------------------------------------------------------------

  /** The text was found in the package, or the caller found it there. */
  predicate Found(p: Package, q: Query) {
    q.matched.None? || p in q.matched.value || p in q.externals
  }

  /** Of a wanted kind and type, in the wanted groups, and found. */
  predicate Wanted(r: Row, q: Query) {
    && (q.filter.kinds == map[] || (r.event.kind in q.filter.kinds && q.filter.kinds[r.event.kind]))
    && (q.filter.types == map[] || (r.event.kindOfPackage in q.filter.types && q.filter.types[r.event.kindOfPackage]))
    && (q.filter.scope.Ungrouped? ==> r.group.None?)
    && (q.filter.scope.User? ==> r.group == Some(q.filter.target))
    && (q.filter.scope.All? ==> r.groupKind != Some("hidden"))
    && Found(r.event.package, q)
  }

  /** Not too old; or found by the caller, if there is a query; or else exempt by the caller's own list. */
  predicate Timely(r: Row, q: Query) {
    || q.filter.horizon <= 0 || r.event.time >= q.filter.now - q.filter.horizon
    || (if !q.blank && q.externals != [] then r.event.package in q.externals
        else r.event.package in q.filter.exempt && q.filter.exempt[r.event.package])
  }

  lemma WantedMeans(r: Row, q: Query)
    requires r.event.groupId == (if r.group.Some? then r.group.value else 0) && r.group != Some(0)
    requires r.event.groupKind == if r.groupKind.Some? then r.groupKind.value else ""
    ensures TextKeeps(r, q) && Passes(r.event, Built(q)) <==> Wanted(r, q)
    ensures Recent(r.event, Built(q)) <==> Timely(r, q)
  {
  }

  /** With nothing left to SQL, the query shows a row exactly when it is wanted and timely, or is the newest of an
      installed package and kind of which nothing wanted is timely. */
  lemma QueryShows(rows: seq<Row>, q: Query, r: Row)
    requires Joined(rows) && r in rows
    ensures r.event in Shown(EventsWhere(rows, q, false), InstalledWhere(rows, q, false), Built(q)) <==>
      && Wanted(r, q)
      && (Timely(r, q) ||
          (r.installed && forall x | x in rows && x.event.package == r.event.package && x.event.kind == r.event.kind && Wanted(x, q) ::
                            !Timely(x, q) && (x == r || Newer(r.event, x.event))))
  {
    hide Passes, Recent, Wanted, Timely, TextKeeps, Newer, Built, Shown;
    var all, installed, f := EventsWhere(rows, q, false), InstalledWhere(rows, q, false), Built(q);
    ShownMeans(all, installed, f, r.event);
    forall x | x in rows
      ensures (TextKeeps(x, q) && Passes(x.event, f) <==> Wanted(x, q)) && (Recent(x.event, f) <==> Timely(x, q))
      ensures x.event in all <==> TextKeeps(x, q)
      ensures x.event == r.event ==> x == r
    {
      WantedMeans(x, q);
      InAll(rows, q, x);
      if x.event == r.event {
        OneRow(rows, x, r);
      }
    }
    if TextKeeps(r, q) {
      InstalledAgree(rows, q, false, r);
    }
    forall e | e in all ensures exists x :: x in rows && x.event == e && TextKeeps(x, q) {
      var x := RowOf(rows, q, false, e);
    }
  }

  lemma InAll(rows: seq<Row>, q: Query, x: Row)
    requires Joined(rows) && x in rows
    ensures x.event in EventsWhere(rows, q, false) <==> TextKeeps(x, q)
  {
    if x.event in EventsWhere(rows, q, false) {
      var y := RowOf(rows, q, false, x.event);
      OneRow(rows, x, y);
    }
  }

  /** The rows of an answer: what the query shows, then one row for each catalog package that passes and is not shown. */
  lemma AnswerShows(groups: seq<Group>, rows: seq<Row>, packages: map<Package, PackageRow>, q: Query, r: Row)
    requires Joined(rows) && r in rows && Answers(groups, rows, packages, q, false) && r.event.kind != "catalog"
    ensures (exists k :: 0 <= k < |groups| && r.event in groups[k].events) <==>
              r.event in Shown(EventsWhere(rows, q, false), InstalledWhere(rows, q, false), Built(q))
  {
    hide IsFeed, CatalogPart, Shown;
    var all, installed := EventsWhere(rows, q, false), InstalledWhere(rows, q, false);
    var feed :| IsFeed(feed, all, installed, Built(q)) && groups == feed + RowsOf(CatalogPart(q, packages, PackagesIn(feed)), packages);
    FeedMeaning(feed, all, installed, Built(q), r.event);
    if k :| 0 <= k < |feed| && r.event in feed[k].events {
      assert groups[k] == feed[k];
    }
  }

  /** A package gets a catalog row exactly when version updates are wanted, none of its events is shown, and it is a hit of
      a wanted type and in scope, by the catalog's word and by the table's. */
  lemma CatalogMeans(q: Query, packages: map<Package, PackageRow>, shown: set<Package>, id: Package)
    ensures id in CatalogPart(q, packages, shown) <==>
      && (q.filter.kinds == map[] || ("version" in q.filter.kinds && q.filter.kinds["version"]))
      && id !in shown && id in packages
      && (exists pkg :: pkg in q.catalog && pkg.id == id &&
            (q.filter.types == map[] || (pkg.kindOfPackage in q.filter.types && q.filter.types[pkg.kindOfPackage])))
      && (q.filter.types == map[] || (packages[id].kindOfPackage in q.filter.types && q.filter.types[packages[id].kindOfPackage]))
      && (q.filter.scope.Ungrouped? ==> packages[id].groupId == 0)
      && (q.filter.scope.User? ==> packages[id].groupId == q.filter.target && q.filter.target != 0)
      && (q.filter.scope.All? ==> packages[id].groupKind != "hidden")
  {
    CatalogExact(q.catalog, packages, q.filter, shown);
    if id in CatalogIds(q.catalog, packages, q.filter, shown) {
      CatalogListed(q.catalog, packages, q.filter, shown, id);
    }
  }

  lemma {:induction false} CatalogListed(catalog: seq<CatalogPackage>, packages: map<Package, PackageRow>, f: Filter, shown: set<Package>, id: Package)
    requires id in CatalogIds(catalog, packages, f, shown)
    ensures exists pkg :: pkg in catalog && pkg.id == id && Listed(pkg, packages, f)
    decreases |catalog|
  {
    var pkg := catalog[0];
    if pkg.id != id || pkg.id in shown || !Listed(pkg, packages, f) {
      CatalogListed(catalog[1..], packages, f, if pkg.id !in shown && Listed(pkg, packages, f) then shown + {pkg.id} else shown, id);
    }
  }
}
