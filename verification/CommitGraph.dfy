/** First-parent history as Git stores it: a commit is content-addressed, so its value
    determines every commit below it, and two commits are the same exactly when they are equal. */
module Wrappers {
  datatype Option<+T> = None | Some(value: T)
}

module CommitGraph {
  import opened Wrappers

  type Package = string
  datatype Kind = Version | Revision | Metadata
  datatype Key = Key(package: Package, kind: Kind)

  /** One changed path together with what parsing both of its definitions yields: the update it
      records (if any) and the diagnostics. Parsing itself is not modelled. */
  datatype Change = Change(status: string, oldPath: string, path: string, update: Option<Key>, notes: seq<string>)

  datatype Commit =
    | Root(time: nat, changes: seq<Change>, salt: nat)
    | Child(parent: Commit, time: nat, changes: seq<Change>, salt: nat)

  /** `a` is `c` or lies below it on the first-parent chain. */
  predicate Anc(a: Commit, c: Commit) {
    a == c || (c.Child? && Anc(a, c.parent))
  }

  function Depth(c: Commit): nat {
    if c.Root? then 0 else 1 + Depth(c.parent)
  }

  /** Commit times never increase towards the root. */
  predicate Mono(c: Commit) {
    c.Child? ==> c.parent.time <= c.time && Mono(c.parent)
  }

  /** Git's `--since` walk from `tip` gets as far as `c`: nothing on the way is too old. */
  predicate Reach(tip: Commit, c: Commit, since: nat) {
    since <= tip.time && (c == tip || (tip.Child? && Reach(tip.parent, c, since)))
  }

  datatype Range = Range(floor: Option<Commit>, since: nat, until: nat)

  predicate Below(c: Commit, floor: Option<Commit>) {
    floor.Some? && Anc(c, floor.value)
  }

  /** The commits `git log --first-parent [--since] [--until] [floor..]tip` lists. A zero bound is absent. */
  predicate Lists(tip: Commit, r: Range, c: Commit) {
    Reach(tip, c, r.since) && !Below(c, r.floor) && Within(r, c)
  }

  predicate Within(r: Range, c: Commit) {
    r.until == 0 || c.time <= r.until
  }

  /** `git merge-base`: the first commit of `a`'s chain that `b` also has. */
  function MergeBase(a: Commit, b: Commit): Option<Commit> {
    if Anc(a, b) then Some(a) else if a.Root? then None else MergeBase(a.parent, b)
  }

  /** The commits of `floor..tip`. */
  function CommitsAbove(tip: Commit, floor: Commit): set<Commit> {
    if Anc(tip, floor) then {} else if tip.Root? then {tip} else {tip} + CommitsAbove(tip.parent, floor)
  }

  lemma {:induction false} AncDepth(a: Commit, c: Commit)
    requires Anc(a, c)
    ensures Depth(a) <= Depth(c)
    ensures Depth(a) == Depth(c) ==> a == c
  {
    if a != c {
      AncDepth(a, c.parent);
    }
  }

  lemma {:induction false} AncTrans(a: Commit, b: Commit, c: Commit)
    requires Anc(a, b) && Anc(b, c)
    ensures Anc(a, c)
  {
    if b != c {
      AncTrans(a, b, c.parent);
    }
  }

  /** Two commits of one chain are ordered by their distance from the root. */
  lemma {:induction false} AncLinear(a: Commit, b: Commit, c: Commit)
    requires Anc(a, c) && Anc(b, c)
    ensures Anc(a, b) || Anc(b, a)
  {
    if a != c && b != c {
      AncLinear(a, b, c.parent);
    }
  }

  lemma AncAntisym(a: Commit, b: Commit)
    requires Anc(a, b) && Anc(b, a)
    ensures a == b
  {
    AncDepth(a, b);
    AncDepth(b, a);
  }

  lemma NotBelowParent(c: Commit)
    requires c.Child?
    ensures !Anc(c, c.parent)
  {
    if Anc(c, c.parent) {
      AncDepth(c, c.parent);
    }
  }

  /** Whatever is not below `c`'s parent but shares a chain with `c` is at or above `c`. */
  lemma AboveParent(c: Commit, x: Commit, tip: Commit)
    requires c.Child? && Anc(c, tip) && Anc(x, tip)
    ensures Anc(x, c.parent) || Anc(c, x)
  {
    AncLinear(x, c, tip);
  }

  lemma {:induction false} ReachAnc(tip: Commit, c: Commit, since: nat)
    requires Reach(tip, c, since)
    ensures Anc(c, tip) && since <= c.time
  {
    if c != tip {
      ReachAnc(tip.parent, c, since);
    }
  }

  lemma {:induction false} ReachSplit(tip: Commit, m: Commit, c: Commit, since: nat)
    requires Anc(m, tip) && Anc(c, m)
    ensures Reach(tip, c, since) <==> Reach(tip, m, since) && Reach(m, c, since)
  {
    if m != tip {
      ReachSplit(tip.parent, m, c, since);
      AncTrans(c, m, tip.parent);
      if c == tip {
        AncDepth(tip, tip.parent);
      }
    } else if c != m && Reach(tip, c, since) {
      assert Reach(tip, tip, since);
    }
  }

  lemma {:induction false} MonoReach(tip: Commit, c: Commit, since: nat)
    requires Mono(tip) && Anc(c, tip)
    ensures Reach(tip, c, since) <==> since <= c.time
    ensures Mono(c) && c.time <= tip.time
  {
    if c != tip {
      MonoReach(tip.parent, c, since);
    }
  }

  lemma {:induction false} ReachZero(tip: Commit, c: Commit)
    requires Anc(c, tip)
    ensures Reach(tip, c, 0)
  {
    if c != tip {
      ReachZero(tip.parent, c);
    }
  }

  /** `MergeBase` is the lowest common ancestor: it is one, and every common ancestor is below it. */
  lemma {:induction false} MergeBaseLowest(a: Commit, b: Commit)
    ensures MergeBase(a, b).Some? ==> Anc(MergeBase(a, b).value, a) && Anc(MergeBase(a, b).value, b)
    ensures forall x :: Anc(x, a) && Anc(x, b) ==> MergeBase(a, b).Some? && Anc(x, MergeBase(a, b).value)
  {
    if !Anc(a, b) && a.Child? {
      MergeBaseLowest(a.parent, b);
    }
  }

  lemma {:induction false} CommitsAboveExact(tip: Commit, floor: Commit)
    ensures forall c :: c in CommitsAbove(tip, floor) <==> Anc(c, tip) && !Anc(c, floor)
  {
    if Anc(tip, floor) {
      forall c | Anc(c, tip) ensures Anc(c, floor) {
        AncTrans(c, tip, floor);
      }
    } else if tip.Child? {
      CommitsAboveExact(tip.parent, floor);
    }
  }
}
