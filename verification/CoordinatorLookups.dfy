/** Lookups of installed packages: they run and finish in order of admission, and what the coordinator holds as
    installed is the result of the last one that succeeded. */
module CoordinatorLookups {
  import opened Wrappers
  import opened CoordinatorSpec
  import opened CoordinatorQueues

  predicate Succeeded(l: Lookup) {
    l.stage.Stored? || (l.stage.Settled? && l.stage.ok) || (l.stage.Closed? && l.stage.ok)
  }

  /** It has succeeded, and everybody may know. */
  predicate Landed(l: Lookup) {
    (l.stage.Settled? && l.stage.ok) || (l.stage.Closed? && l.stage.ok)
  }

  /** The packages of the last admitted lookup that has stored its answer. */
  function Latest(lookups: map<Id, Lookup>, admitted: seq<Id>): seq<Package> {
    if admitted == [] then [] else
    var n := |admitted| - 1;
    if admitted[n] in lookups && Succeeded(lookups[admitted[n]]) then lookups[admitted[n]].packages
    else Latest(lookups, admitted[..n])
  }

  predicate Stands(lookups: map<Id, Lookup>, q: seq<Id>, i: nat)
    requires i < |q|
  {
    && q[i] in lookups && !lookups[q[i]].stage.Closed?
    && (i > 0 ==> lookups[q[i]].stage.Idle? && lookups[q[i]].previous == Some(q[i - 1]))
  }

  /** Only the head of the queue has left `Idle`; each other lookup waits for the one before it. */
  predicate InOrder(lookups: map<Id, Lookup>, q: seq<Id>) {
    forall i | 0 <= i < |q| :: Stands(lookups, q, i)
  }

  predicate HeadReady(lookups: map<Id, Lookup>, q: seq<Id>) {
    q != [] && q[0] in lookups && lookups[q[0]].previous.Some? ==>
      lookups[q[0]].previous.value in lookups && lookups[lookups[q[0]].previous.value].stage.Closed?
  }

  predicate Tail(q: seq<Id>, admitted: seq<Id>) {
    |q| <= |admitted| && q == admitted[|admitted| - |q|..]
  }

  predicate Admitted(nextId: Id, q: seq<Id>, lookups: map<Id, Lookup>, admitted: seq<Id>) {
    && Tail(q, admitted) && Distinct(admitted)
    && (forall id | id in admitted :: id < nextId && id in lookups)
    && (forall id | id in lookups :: id in admitted && (id !in q ==> lookups[id].stage.Closed?))
  }

  predicate Held(q: seq<Id>, lookups: map<Id, Lookup>, admitted: seq<Id>, installed: seq<Package>, valid: bool) {
    && installed == Latest(lookups, admitted)
    && (valid ==> |q| <= 1)
    && (valid <==> admitted != [] && admitted[|admitted| - 1] in lookups && Landed(lookups[admitted[|admitted| - 1]]))
  }

  predicate Lookups(nextId: Id, q: seq<Id>, lookups: map<Id, Lookup>, admitted: seq<Id>, installed: seq<Package>, valid: bool) {
    InOrder(lookups, q) && HeadReady(lookups, q) && Admitted(nextId, q, lookups, admitted) && Held(q, lookups, admitted, installed, valid)
  }

  predicate LookupsOk(s: State) {
    && Lookups(s.nextId, s.lookupQueue, s.lookups, s.admitted, s.installed, s.installedValid)
    && (s.parked != {} ==> s.lookupQueue != [])
  }

  // ---- what the last success depends on --------------------------------------------------------

  lemma {:induction false} LatestSame(lookups: map<Id, Lookup>, lookups': map<Id, Lookup>, admitted: seq<Id>)
    requires forall id | id in admitted :: id in lookups && id in lookups' && Succeeded(lookups[id]) == Succeeded(lookups'[id])
                                           && (Succeeded(lookups[id]) ==> lookups[id].packages == lookups'[id].packages)
    ensures Latest(lookups, admitted) == Latest(lookups', admitted)
  {
    if admitted != [] {
      var n := |admitted| - 1;
      assert admitted[n] in admitted;
      LatestSame(lookups, lookups', admitted[..n]);
    }
  }

  /** Everything behind the head is idle, so a success of the head is the last one. */
  lemma {:induction false} LatestHead(lookups: map<Id, Lookup>, admitted: seq<Id>, k: nat)
    requires k < |admitted| && (forall id | id in admitted :: id in lookups) && Succeeded(lookups[admitted[k]])
    requires forall i | k < i < |admitted| :: !Succeeded(lookups[admitted[i]])
    ensures Latest(lookups, admitted) == lookups[admitted[k]].packages
  {
    var n := |admitted| - 1;
    assert admitted[n] in admitted;
    if k < n {
      LatestHead(lookups, admitted[..n], k);
    }
  }

  lemma HeadIndex(q: seq<Id>, admitted: seq<Id>)
    requires Tail(q, admitted) && q != []
    ensures var k := |admitted| - |q|; admitted[k] == q[0] && forall i | k <= i < |admitted| :: admitted[i] == q[i - k]
    ensures admitted[|admitted| - 1] == q[|q| - 1]
  {
    assert forall i | 0 <= i < |q| :: q[i] == admitted[|admitted| - |q| + i];
  }

  // ---- admission -------------------------------------------------------------------------------

  lemma AppendTail(q: seq<Id>, admitted: seq<Id>, id: Id)
    requires Tail(q, admitted) && Distinct(admitted) && id !in admitted
    ensures Tail(q + [id], admitted + [id]) && Distinct(admitted + [id])
  {
    var k := |admitted| - |q|;
    assert (admitted + [id])[k..] == admitted[k..] + [id];
  }

  lemma EnqueueInOrder(lookups: map<Id, Lookup>, q: seq<Id>, id: Id, l: Lookup)
    requires InOrder(lookups, q) && id !in lookups
    requires l.stage.Idle? && l.previous == if q == [] then None else Some(q[|q| - 1])
    ensures InOrder(lookups[id := l], q + [id])
  {
    var lookups', q' := lookups[id := l], q + [id];
    forall i | 0 <= i < |q'| ensures Stands(lookups', q', i) {
      if i < |q| {
        assert Stands(lookups, q, i);
      }
    }
  }

  lemma EnqueueReady(lookups: map<Id, Lookup>, q: seq<Id>, id: Id, l: Lookup)
    requires HeadReady(lookups, q) && id !in lookups && (q != [] ==> q[0] in lookups)
    requires q == [] ==> l.previous == None
    ensures HeadReady(lookups[id := l], q + [id])
  {
  }

  lemma EnqueueAdmitted(nextId: Id, q: seq<Id>, lookups: map<Id, Lookup>, admitted: seq<Id>, l: Lookup)
    requires Admitted(nextId, q, lookups, admitted)
    ensures Admitted(nextId + 1, q + [nextId], lookups[nextId := l], admitted + [nextId])
  {
    assert nextId !in admitted;
    AppendTail(q, admitted, nextId);
  }

  lemma EnqueueOk(nextId: Id, q: seq<Id>, lookups: map<Id, Lookup>, admitted: seq<Id>, installed: seq<Package>, valid: bool, l: Lookup)
    requires Lookups(nextId, q, lookups, admitted, installed, valid)
    requires l.stage.Idle? && l.previous == if q == [] then None else Some(q[|q| - 1])
    ensures Lookups(nextId + 1, q + [nextId], lookups[nextId := l], admitted + [nextId], installed, false)
  {
    var lookups', admitted' := lookups[nextId := l], admitted + [nextId];
    assert nextId !in lookups by {
      assert nextId !in admitted;
    }
    assert nextId !in admitted;
    assert q != [] ==> Stands(lookups, q, 0);
    EnqueueInOrder(lookups, q, nextId, l);
    EnqueueReady(lookups, q, nextId, l);
    EnqueueAdmitted(nextId, q, lookups, admitted, l);
    EnqueueLatest(lookups, admitted, nextId, l);
    hide InOrder, HeadReady, Admitted, Latest;
    assert admitted'[|admitted'| - 1] == nextId;
  }

  lemma EnqueueLatest(lookups: map<Id, Lookup>, admitted: seq<Id>, id: Id, l: Lookup)
    requires (forall x | x in admitted :: x in lookups) && id !in admitted && l.stage.Idle?
    ensures Latest(lookups[id := l], admitted + [id]) == Latest(lookups, admitted)
  {
    assert (admitted + [id])[..|admitted|] == admitted;
    LatestSame(lookups, lookups[id := l], admitted);
  }

  // ---- the head ------------------------------------------------------------------------------

  lemma HeadApart(q: seq<Id>, admitted: seq<Id>)
    requires Tail(q, admitted) && Distinct(admitted)
    ensures Distinct(q)
  {
    assert forall i | 0 <= i < |q| :: q[i] == admitted[|admitted| - |q| + i];
  }

  lemma HeadInOrder(lookups: map<Id, Lookup>, q: seq<Id>, l: Lookup)
    requires InOrder(lookups, q) && q != [] && Distinct(q) && !l.stage.Closed?
    ensures InOrder(lookups[q[0] := l], q)
  {
    var lookups' := lookups[q[0] := l];
    forall i | 0 <= i < |q| ensures Stands(lookups', q, i) {
      assert Stands(lookups, q, i);
      assert i > 0 ==> q[i] != q[0];
    }
  }

  lemma HeadHeld(q: seq<Id>, lookups: map<Id, Lookup>, admitted: seq<Id>, installed: seq<Package>, l: Lookup, installed': seq<Package>)
    requires InOrder(lookups, q) && q != [] && Tail(q, admitted) && Distinct(admitted) && installed == Latest(lookups, admitted)
    requires forall id | id in admitted :: id in lookups
    requires if Succeeded(l) then installed' == l.packages else installed' == installed && !Succeeded(lookups[q[0]])
    ensures installed' == Latest(lookups[q[0] := l], admitted)
  {
    hide Latest;
    HeadIndex(q, admitted);
    HeadApart(q, admitted);
    var k := |admitted| - |q|;
    var lookups' := lookups[q[0] := l];
    assert Stands(lookups, q, 0);
    if Succeeded(l) {
      RestIdle(q, lookups, admitted, l);
      LatestHead(lookups', admitted, k);
    } else {
      LatestSame(lookups, lookups', admitted);
    }
  }

  /** Everything behind the head is idle. */
  lemma RestIdle(q: seq<Id>, lookups: map<Id, Lookup>, admitted: seq<Id>, l: Lookup)
    requires InOrder(lookups, q) && q != [] && Distinct(q) && |q| <= |admitted| && forall x | x in admitted :: x in lookups
    requires var k := |admitted| - |q|; forall i | k <= i < |admitted| :: admitted[i] == q[i - k]
    ensures forall i | |admitted| - |q| < i < |admitted| :: !Succeeded(lookups[q[0] := l][admitted[i]])
  {
    var k := |admitted| - |q|;
    forall i | k < i < |admitted| ensures !Succeeded(lookups[q[0] := l][admitted[i]]) {
      assert Stands(lookups, q, i - k);
      assert q[i - k] != q[0];
    }
  }

  /** The head changes stage; nobody has finished. */
  lemma HeadStepOk(nextId: Id, q: seq<Id>, lookups: map<Id, Lookup>, admitted: seq<Id>, installed: seq<Package>, valid: bool,
                   l: Lookup, installed': seq<Package>, valid': bool)
    requires Lookups(nextId, q, lookups, admitted, installed, valid) && q != [] && q[0] in lookups
    requires !l.stage.Closed? && l.previous == lookups[q[0]].previous
    requires if Succeeded(l) then installed' == l.packages else installed' == installed && !Succeeded(lookups[q[0]])
    requires valid' <==> |q| == 1 && Landed(l)
    ensures Lookups(nextId, q, lookups[q[0] := l], admitted, installed', valid')
  {
    var lookups' := lookups[q[0] := l];
    HeadApart(q, admitted);
    HeadInOrder(lookups, q, l);
    HeadHeld(q, lookups, admitted, installed, l, installed');
    HeadIndex(q, admitted);
    assert Stands(lookups, q, 0);
    assert HeadReady(lookups', q) by {
      hide Latest;
    }
    assert Admitted(nextId, q, lookups', admitted);
    LastStands(lookups, q, admitted);
    assert Held(q, lookups', admitted, installed', valid') by {
      hide InOrder, HeadReady, Admitted;
    }
  }

  /** While a lookup is queued, the last admitted is the last queued, and has not landed unless it is the head. */
  lemma LastStands(lookups: map<Id, Lookup>, q: seq<Id>, admitted: seq<Id>)
    requires InOrder(lookups, q) && Tail(q, admitted) && q != []
    ensures admitted != [] && admitted[|admitted| - 1] == q[|q| - 1] && q[|q| - 1] in lookups
    ensures |q| > 1 ==> !Landed(lookups[q[|q| - 1]])
  {
    assert Stands(lookups, q, |q| - 1);
  }

  // ---- marks and departures ------------------------------------------------------------------

  lemma MarkInOrder(lookups: map<Id, Lookup>, q: seq<Id>, lookups': map<Id, Lookup>)
    requires InOrder(lookups, q) && lookups'.Keys == lookups.Keys
    requires forall id | id in lookups :: lookups'[id] == lookups[id].(cancelled := lookups'[id].cancelled)
    ensures InOrder(lookups', q)
  {
    forall i | 0 <= i < |q| ensures Stands(lookups', q, i) {
      assert Stands(lookups, q, i);
    }
  }

  /** Cancellation marks carry no result. */
  lemma MarkOk(nextId: Id, q: seq<Id>, lookups: map<Id, Lookup>, admitted: seq<Id>, installed: seq<Package>, valid: bool, lookups': map<Id, Lookup>)
    requires Lookups(nextId, q, lookups, admitted, installed, valid) && lookups'.Keys == lookups.Keys
    requires forall id | id in lookups :: lookups'[id] == lookups[id].(cancelled := lookups'[id].cancelled)
    ensures Lookups(nextId, q, lookups', admitted, installed, valid)
  {
    hide InOrder;
    MarkInOrder(lookups, q, lookups');
    assert Admitted(nextId, q, lookups', admitted) by {
      assert forall id :: id in lookups' <==> id in lookups;
    }
    assert HeadReady(lookups', q);
    LatestSame(lookups, lookups', admitted);
    assert Held(q, lookups', admitted, installed, valid);
  }

  lemma PopTail(q: seq<Id>, admitted: seq<Id>)
    requires Tail(q, admitted) && q != []
    ensures Tail(q[1..], admitted)
  {
    var k := |admitted| - |q|;
    assert admitted[k + 1..] == admitted[k..][1..];
  }

  lemma PopInOrder(lookups: map<Id, Lookup>, q: seq<Id>, l: Lookup)
    requires InOrder(lookups, q) && q != [] && Distinct(q) && l.stage.Closed?
    ensures InOrder(lookups[q[0] := l], q[1..]) && HeadReady(lookups[q[0] := l], q[1..])
  {
    var lookups', q' := lookups[q[0] := l], q[1..];
    forall i | 0 <= i < |q'| ensures Stands(lookups', q', i) {
      assert Stands(lookups, q, i + 1);
      assert q[i + 1] != q[0];
    }
    if |q| > 1 {
      assert Stands(lookups, q, 1) && q[1] != q[0];
    }
  }

  lemma PopAdmitted(nextId: Id, q: seq<Id>, lookups: map<Id, Lookup>, admitted: seq<Id>, l: Lookup)
    requires Admitted(nextId, q, lookups, admitted) && q != [] && q[0] in lookups && l.stage.Closed?
    ensures Admitted(nextId, q[1..], lookups[q[0] := l], admitted)
  {
    PopTail(q, admitted);
    hide Tail, Distinct;
    forall id | id in lookups && id != q[0] && id !in q[1..] ensures id !in q {
      NotFirst(q, id);
    }
  }

  lemma NotFirst(q: seq<Id>, id: Id)
    requires q != [] && id != q[0] && id !in q[1..]
    ensures id !in q
  {
    assert q == [q[0]] + q[1..];
  }

  lemma PopOk(nextId: Id, q: seq<Id>, lookups: map<Id, Lookup>, admitted: seq<Id>, installed: seq<Package>, valid: bool, l: Lookup)
    requires Lookups(nextId, q, lookups, admitted, installed, valid) && q != [] && q[0] in lookups && lookups[q[0]].stage.Settled?
    requires l.stage == Closed(lookups[q[0]].stage.ok) && l.packages == lookups[q[0]].packages
    ensures Lookups(nextId, q[1..], lookups[q[0] := l], admitted, installed, valid)
  {
    HeadApart(q, admitted);
    PopInOrder(lookups, q, l);
    PopAdmitted(nextId, q, lookups, admitted, l);
    LatestSame(lookups, lookups[q[0] := l], admitted) by {
      hide InOrder, HeadReady, Tail;
    }
    hide InOrder, HeadReady, Admitted, Latest;
  }

  /** Only the head is past `Idle`, so a lookup that settles or finishes is the first in the queue. */
  lemma Head(s: State, id: Id)
    requires LookupsOk(s) && LookupAt(s, id) && !s.lookups[id].stage.Idle?
    ensures s.lookupQueue != [] && s.lookupQueue[0] == id
  {
    var i :| 0 <= i < |s.lookupQueue| && s.lookupQueue[i] == id;
    assert Stands(s.lookups, s.lookupQueue, i);
  }

  /** A lookup behind another cannot start. */
  lemma HeadIdle(s: State, id: Id)
    requires LookupsOk(s) && Enabled(s, LookupStart(id))
    ensures s.lookupQueue != [] && s.lookupQueue[0] == id
  {
    var q := s.lookupQueue;
    var i :| 0 <= i < |q| && q[i] == id;
    assert Stands(s.lookups, q, i);
    assert i > 0 ==> Stands(s.lookups, q, i - 1);
  }
}
