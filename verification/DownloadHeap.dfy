/** The queue's heap of pending jobs, each of which knows its place, with the sift operations it is kept by. */
module DownloadHeap {
  import D = DownloadSpec

  class Job {
    const key: D.Key
    const sequence: D.Id
    var priority: int
    var index: int
    var waiters: seq<D.Waiter>
    var active: bool

    constructor (key: D.Key, sequence: D.Id, priority: int, w: D.Waiter)
      ensures this.key == key && this.sequence == sequence && this.priority == priority && waiters == [w] && !active
    {
      this.key, this.sequence, this.priority, index, waiters, active := key, sequence, priority, -1, [w], false;
    }
  }

  /** `jobHeap.Less`. */
  predicate Less(a: Job, b: Job)
    reads a`priority, b`priority
  {
    if a.priority != b.priority then a.priority > b.priority else a.sequence < b.sequence
  }

  function Parent(i: nat): nat {
    if i == 0 then 0 else (i - 1) / 2
  }

  /** The item at `i` is not before its parent. */
  ghost predicate Sunk(items: seq<Job>, i: nat)
    requires i < |items|
    reads items`priority
  {
    i > 0 ==> !Less(items[i], items[Parent(i)])
  }

  /** The children of `i` are not before its parent. */
  ghost predicate Bridged(items: seq<Job>, i: nat, n: nat)
    requires i < |items| && n <= |items|
    reads items`priority
  {
    i > 0 ==> forall c | 0 < c < n && Parent(c) == i :: !Less(items[c], items[Parent(i)])
  }

  ghost predicate IsHeap(items: seq<Job>, n: nat)
    requires n <= |items|
    reads items`priority
  {
    forall i | 0 < i < n :: Sunk(items, i)
  }

  ghost predicate SameItems(a: seq<Job>, b: seq<Job>) {
    |a| == |b| && (forall x | x in a :: x in b) && (forall x | x in b :: x in a)
  }

  /** In a heap nothing is before the item at the top. */
  lemma {:induction false} TopIsFirst(items: seq<Job>, n: nat, i: nat)
    requires i < n <= |items| && IsHeap(items, n)
    ensures !Less(items[i], items[0])
  {
    if i > 0 {
      assert Sunk(items, i);
      TopIsFirst(items, n, Parent(i));
    }
  }

  function Swapped(a: seq<Job>, i: nat, j: nat): seq<Job>
    requires i < |a| && j < |a|
  {
    a[i := a[j]][j := a[i]]
  }

  lemma SwapSame(a: seq<Job>, i: nat, j: nat)
    requires i < |a| && j < |a|
    ensures SameItems(Swapped(a, i, j), a)
  {
    var b := a[i := a[j]][j := a[i]];
    assert b[j] == a[i] && b[i] == a[j];
    forall x: Job | x in a ensures x in b {
      var k :| 0 <= k < |a| && a[k] == x;
      assert b[if k == i then j else if k == j then i else k] == x;
    }
  }

  /** Moving an item above its parent leaves only its own new place in doubt. */
  lemma UpStep(a: seq<Job>, j: nat, n: nat)
    requires 0 < j < n <= |a| && Less(a[j], a[Parent(j)])
    requires (forall i | 0 < i < n && i != j :: Sunk(a, i)) && Bridged(a, j, n)
    ensures var b := Swapped(a, Parent(j), j);
      (forall i | 0 < i < n && i != Parent(j) :: Sunk(b, i)) && Bridged(b, Parent(j), n)
  {
    var p, b := Parent(j), Swapped(a, Parent(j), j);
    forall i | 0 < i < n && i != p ensures Sunk(b, i) {
      if i != j {
        assert Sunk(a, i);
        if Parent(i) == j {
          assert !Less(a[i], a[p]);
        }
      }
    }
    if p > 0 {
      forall c | 0 < c < n && Parent(c) == p ensures !Less(b[c], b[Parent(p)]) {
        assert Sunk(a, p);
        if c != j {
          assert Sunk(a, c);
        }
      }
    }
  }

  /** The items below `n` are a heap but for the children of `i`, and for `i` itself while nothing has moved. */
  ghost predicate Sinking(a: seq<Job>, i: nat, start: nat, n: nat)
    requires i < |a| && n <= |a|
    reads a`priority
  {
    (forall k | 0 < k < n && Parent(k) != i && (k == i ==> i != start) :: Sunk(a, k)) && Bridged(a, i, n)
  }

  /** Moving an item below the first of its children leaves only the children of its new place in doubt. */
  lemma DownStep(a: seq<Job>, i: nat, j: nat, start: nat, n: nat)
    requires start <= i < j < n <= |a| && Parent(j) == i && Less(a[j], a[i]) && Sinking(a, i, start, n)
    requires forall c | 0 < c < n && Parent(c) == i :: !Less(a[c], a[j])
    ensures Sinking(Swapped(a, i, j), j, start, n)
  {
    var b := Swapped(a, i, j);
    forall k | 0 < k < n && Parent(k) != j ensures Sunk(b, k) {
      if k == i {
        assert !Less(a[j], a[Parent(i)]);
      } else if k != j && Parent(k) != i {
        assert Sunk(a, k);
      }
    }
    forall c | 0 < c < n && Parent(c) == j ensures !Less(b[c], b[Parent(j)]) {
      assert Sunk(a, c);
    }
  }

  /** No child of `i` is before it. */
  lemma Settled(a: seq<Job>, i: nat, start: nat, n: nat)
    requires i < |a| && n <= |a| && Sinking(a, i, start, n)
    requires forall c | 0 < c < n && Parent(c) == i :: !Less(a[c], a[i])
    ensures forall k | 0 < k < n && (k == i ==> i != start) :: Sunk(a, k)
  {
  }

  /** In a heap the children of an item are not before its parent either. */
  lemma HeapBridges(a: seq<Job>, i: nat, n: nat)
    requires i < |a| && n <= |a| && IsHeap(a, n)
    ensures Bridged(a, i, n)
  {
    if 0 < i {
      forall c | 0 < c < n && Parent(c) == i ensures !Less(a[c], a[Parent(i)]) {
        assert Sunk(a, c) && Sunk(a, i);
      }
    }
  }

  /** With the last item in place of another, only that place is in doubt. */
  lemma SwapOut(a: seq<Job>, i: nat, n: nat)
    requires i <= n && n + 1 == |a| && IsHeap(a, n + 1)
    ensures Sinking(Swapped(a, i, n), i, i, n)
  {
    HeapBridges(a, i, n);
    var b := Swapped(a, i, n);
    forall k | 0 < k < n && Parent(k) != i && k != i ensures Sunk(b, k) {
      assert Sunk(a, k);
    }
    if i > 0 {
      forall c | 0 < c < n && Parent(c) == i ensures !Less(b[c], b[Parent(i)]) {
        assert !Less(a[c], a[Parent(i)]);
      }
    }
  }

  class Heap {
    var items: seq<Job>
    ghost var Repr: set<Job>

    ghost predicate Valid()
      reads this, Repr`index
    {
      (forall i | 0 <= i < |items| :: items[i] in Repr && items[i].index == i)
    }

    constructor ()
      ensures items == [] && Repr == {}
    {
      items, Repr := [], {};
    }

    /** `jobHeap.Swap`. */
    method Swap(i: nat, j: nat)
      requires i < |items| && j < |items| && Valid()
      modifies this`items, Repr`index
      ensures items == Swapped(old(items), i, j) && Valid()
    {
      items := items[i := items[j]][j := items[i]];
      items[i].index := i;
      items[j].index := j;
    }

    /** `heap.up`, in the first `n` items. */
    method Up(start: nat, ghost n: nat)
      requires start < n <= |items| && Valid()
      requires forall i | 0 < i < n && i != start :: Sunk(items, i)
      requires Bridged(items, start, n)
      modifies this`items, Repr`index
      ensures Valid() && SameItems(items, old(items)) && items[n..] == old(items)[n..] && IsHeap(items, n)
    {
      var j: nat := start;
      while true
        invariant j < n <= |items| && Valid() && SameItems(items, old(items)) && items[n..] == old(items)[n..]
        invariant forall i | 0 < i < n && i != j :: Sunk(items, i)
        invariant Bridged(items, j, n)
        decreases j
      {
        var i := Parent(j);
        if i == j || !Less(items[j], items[i]) {
          break;
        }
        UpStep(items, j, n);
        SwapSame(items, i, j);
        Swap(i, j);
        j := i;
      }
    }

    /** `heap.down`, in the first `n` items. */
    method Down(start: nat, n: nat) returns (moved: bool)
      requires start <= n <= |items| && start < |items| && Valid() && Sinking(items, start, start, n)
      modifies this`items, Repr`index
      ensures Valid() && SameItems(items, old(items)) && items[n..] == old(items)[n..]
      ensures forall k | 0 < k < n && (k == start ==> moved) :: Sunk(items, k)
      ensures !moved ==> items == old(items)
    {
      hide Sinking, Sunk;
      var i: nat := start;
      while true
        invariant start <= i <= n <= |items| && i < |items| && Valid() && SameItems(items, old(items)) && items[n..] == old(items)[n..]
        invariant Sinking(items, i, start, n) && (i == start ==> items == old(items))
        decreases n - i
      {
        var j: nat := 2 * i + 1;
        if j >= n {
          break;
        }
        if j + 1 < n && Less(items[j + 1], items[j]) {
          j := j + 1;
        }
        assert forall c | 0 < c < n && Parent(c) == i :: c == 2 * i + 1 || c == 2 * i + 2;
        if !Less(items[j], items[i]) {
          break;
        }
        DownStep(items, i, j, start, n);
        SwapSame(items, i, j);
        Swap(i, j);
        i := j;
      }
      Settled(items, i, start, n);
      moved := i > start;
    }

    /** `heap.Push`. */
    method Push(j: Job)
      requires Valid() && IsHeap(items, |items|) && j !in items
      modifies this, Repr`index, j`index
      ensures Valid() && IsHeap(items, |items|) && SameItems(items, old(items) + [j]) && Repr == old(Repr) + {j}
    {
      Repr := Repr + {j};
      j.index := |items|;
      ghost var before := items;
      items := items + [j];
      forall i | 0 < i < |before| ensures Sunk(items, i) {
        assert Sunk(before, i);
      }
      Up(|items| - 1, |items|);
    }

    /** `jobHeap.Pop`. */
    method TakeLast() returns (j: Job)
      requires Valid() && items != []
      modifies this`items, Repr`index
      ensures items == old(items)[..|old(items)| - 1] && j == old(items)[|old(items)| - 1] && j.index == -1 && Valid()
    {
      j := items[|items| - 1];
      j.index := -1;
      items := items[..|items| - 1];
    }

    /** `heap.Remove`. */
    method Remove(i: nat) returns (j: Job)
      requires i < |items| && Valid() && IsHeap(items, |items|)
      modifies this`items, Repr`index
      ensures Valid() && IsHeap(items, |items|) && j == old(items)[i] && j.index == -1
      ensures SameItems(items + [j], old(items)) && j !in items
    {
      hide Sinking, Sunk;
      var n := |items| - 1;
      ghost var before := items;
      if n != i {
        SwapOut(items, i, n);
        SwapSame(items, i, n);
        Swap(i, n);
        var moved := Down(i, n);
        if !moved {
          SinkingBridges(items, i, n);
          Up(i, n);
        }
      }
      assert items[n..] == [old(items)[i]] && items == items[..n] + items[n..];
      ShorterHeap(items, n);
      j := TakeLast();
    }

    /** `heap.Pop`. */
    method Pop() returns (j: Job)
      requires items != [] && Valid() && IsHeap(items, |items|)
      modifies this`items, Repr`index
      ensures Valid() && IsHeap(items, |items|) && j == old(items)[0] && j.index == -1
      ensures SameItems(items + [j], old(items)) && j !in items
    {
      hide Sinking, Sunk;
      var n := |items| - 1;
      SwapOut(items, 0, n);
      SwapSame(items, 0, n);
      Swap(0, n);
      var _ := Down(0, n);
      assert items[n..] == [old(items)[0]] && items == items[..n] + items[n..];
      ShorterHeap(items, n);
      j := TakeLast();
    }

    /** `heap.Fix`, after the item at `i` has been given another priority. */
    method Fix(i: nat)
      requires i < |items| && Valid() && Sinking(items, i, i, |items|)
      modifies this`items, Repr`index
      ensures Valid() && SameItems(items, old(items)) && IsHeap(items, |items|)
    {
      hide Sinking, Sunk;
      SinkingBridges(items, i, |items|);
      var moved := Down(i, |items|);
      if !moved {
        Up(i, |items|);
      }
    }
  }

  lemma SinkingBridges(a: seq<Job>, i: nat, n: nat)
    requires i < |a| && n <= |a| && Sinking(a, i, i, n)
    ensures Bridged(a, i, n)
  {
  }

  lemma ShorterHeap(a: seq<Job>, n: nat)
    requires n <= |a| && IsHeap(a, n)
    ensures IsHeap(a[..n], n)
  {
    forall k | 0 < k < n ensures Sunk(a[..n], k) {
      assert Sunk(a, k);
    }
  }
}
