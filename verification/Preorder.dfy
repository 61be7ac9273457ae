/** The depth-first list of a tree's channels, by a recursive loop and as a function. */
module Preorder {
  import opened Forest
  import opened ChannelTree

  /** What is below `p`, without `p`. */
  ghost function Descendants(t: Tree, p: Id): set<Id> {
    Subtree(Parents(t.channels), p) - {p}
  }

  lemma {:induction false} KidIsBelow(t: Tree, p: Id, i: nat)
    requires WellFormed(t) && i < |KidsOf(t, p)|
    ensures var k := KidsOf(t, p)[i];
      k in t.channels && t.channels[k].parentID == p && k != p && Below(Parents(t.channels), k, p)
  {
    var par := Parents(t.channels);
    assert KidsOk(t.channels, t.kids, p);
    var k := KidsOf(t, p)[i];
    BelowSelf(par, p);
    BelowStep(par, k, p);
    NoLoop(par, k, 1);
    assert Up(par, k, 1) == Up(par, par[k], 0);
  }

  lemma {:induction false} FewerBelow(t: Tree, p: Id, i: nat)
    requires WellFormed(t) && i < |KidsOf(t, p)|
    ensures Descendants(t, KidsOf(t, p)[i]) < Descendants(t, p)
  {
    var par := Parents(t.channels);
    var k := KidsOf(t, p)[i];
    KidIsBelow(t, p, i);
    forall x | x in Descendants(t, k)
      ensures x in Descendants(t, p)
    {
      BelowTransitive(par, x, k, p);
      if x == p {
        ParentNotBelow(par, k);
      }
    }
    assert k in Descendants(t, p);
  }

  /** The first `n` channels under `p`, each followed by all below it. */
  ghost function Walked(t: Tree, p: Id, n: nat): seq<Id>
    requires WellFormed(t) && n <= |KidsOf(t, p)|
    decreases Descendants(t, p), n
  {
    if n == 0 then []
    else
      var k := KidsOf(t, p)[n - 1];
      FewerBelow(t, p, n - 1);
      Walked(t, p, n - 1) + [k] + Walked(t, k, |KidsOf(t, k)|)
  }

  ghost function InOrder(t: Tree): seq<Id>
    requires WellFormed(t)
  {
    Walked(t, TOP, |KidsOf(t, TOP)|)
  }

  // ---- Which channels ---------------------------------------------------------------------

  ghost predicate UnderOne(t: Tree, p: Id, n: nat, x: Id)
    requires n <= |KidsOf(t, p)|
  {
    exists i {:trigger KidsOf(t, p)[i]} | 0 <= i < n :: x in t.channels && Below(Parents(t.channels), x, KidsOf(t, p)[i])
  }

  /** What is below a channel is under one of its children. */
  lemma {:induction false} UnderAChild(t: Tree, p: Id, x: Id)
    requires WellFormed(t)
    ensures x in Descendants(t, p) <==> UnderOne(t, p, |KidsOf(t, p)|, x)
  {
    var par := Parents(t.channels);
    if x in Descendants(t, p) {
      var n: nat :| Up(par, x, n) == p;
      var c := ChildAbove(t, p, x, n);
    }
    if UnderOne(t, p, |KidsOf(t, p)|, x) {
      var i :| 0 <= i < |KidsOf(t, p)| && x in t.channels && Below(par, x, KidsOf(t, p)[i]);
      KidIsBelow(t, p, i);
      BelowTransitive(par, x, KidsOf(t, p)[i], p);
      if x == p {
        ParentNotBelow(par, KidsOf(t, p)[i]);
      }
    }
  }

  lemma {:induction false} ChildAbove(t: Tree, p: Id, x: Id, n: nat) returns (i: nat)
    requires WellFormed(t) && x in t.channels && x != p && Up(Parents(t.channels), x, n) == p
    ensures i < |KidsOf(t, p)| && Below(Parents(t.channels), x, KidsOf(t, p)[i])
    decreases n
  {
    var par := Parents(t.channels);
    var q := par[x];
    if q == p {
      assert Listed(t.channels, t.kids, x);
      i :| 0 <= i < |KidsOf(t, p)| && KidsOf(t, p)[i] == x;
      BelowSelf(par, x);
    } else {
      RootedParent(par, x);
      BelowOutside(par, TOP, p);
      assert Up(par, x, n) == Up(par, q, n - 1) && Below(par, q, p);
      i := ChildAbove(t, p, q, n - 1);
      BelowStep(par, x, KidsOf(t, p)[i]);
    }
  }

  lemma {:induction false} UnderStep(t: Tree, p: Id, n: nat, x: Id)
    requires n < |KidsOf(t, p)|
    ensures UnderOne(t, p, n + 1, x) <==>
      UnderOne(t, p, n, x) || (x in t.channels && Below(Parents(t.channels), x, KidsOf(t, p)[n]))
  {
    if UnderOne(t, p, n, x) {
      var i :| 0 <= i < n && x in t.channels && Below(Parents(t.channels), x, KidsOf(t, p)[i]);
      assert KidsOf(t, p)[i] == KidsOf(t, p)[i];
    }
  }

  /** The walk meets what is under the children it has walked. */
  lemma {:induction false} WalkedMeets(t: Tree, p: Id, n: nat, x: Id)
    requires WellFormed(t) && n <= |KidsOf(t, p)|
    ensures x in Walked(t, p, n) <==> UnderOne(t, p, n, x)
    decreases Descendants(t, p), n
  {
    if n > 0 {
      var k := KidsOf(t, p)[n - 1];
      FewerBelow(t, p, n - 1);
      KidIsBelow(t, p, n - 1);
      WalkedMeets(t, p, n - 1, x);
      WalkedMeets(t, k, |KidsOf(t, k)|, x);
      UnderAChild(t, k, x);
      UnderStep(t, p, n - 1, x);
      BelowSelf(Parents(t.channels), k);
    }
  }

  // ---- In which order ----------------------------------------------------------------------

  /** No channel is below two siblings. */
  lemma {:induction false} NotBelowTwo(par: map<Id, Id>, a: Id, b: Id, x: Id)
    requires Rooted(par) && a in par && b in par && par[a] == par[b] && a != b
    ensures !(Below(par, x, a) && Below(par, x, b))
  {
    if Below(par, x, a) && Below(par, x, b) {
      var m: nat :| Up(par, x, m) == a;
      var n: nat :| Up(par, x, n) == b;
      NotUnderSibling(par, a, b);
      NotUnderSibling(par, b, a);
      UpCompose(par, x, if m <= n then m else n, if m <= n then n - m else m - n);
    }
  }

  lemma {:induction false} NotUnderSibling(par: map<Id, Id>, a: Id, b: Id)
    requires Rooted(par) && a in par && b in par && par[a] == par[b] && a != b
    ensures !Below(par, a, b)
  {
    BelowStep(par, a, b);
    ParentNotBelow(par, b);
  }

  function ParentOf(t: Tree, x: Id): Id {
    if x in t.channels then t.channels[x].parentID else TOP
  }

  /** A sibling's place among its own. */
  function Rank(t: Tree, x: Id): int {
    IndexOf(KidsOf(t, ParentOf(t, x)), x)
  }

  /** Two channels of `out` in the order of their siblings, when they are siblings. */
  ghost predicate Ranked(t: Tree, a: Id, b: Id) {
    ParentOf(t, a) == ParentOf(t, b) ==> Rank(t, a) < Rank(t, b)
  }

  ghost predicate AllRanked(t: Tree, out: seq<Id>) {
    forall i, j {:trigger At(out, i), At(out, j)} | 0 <= i < j < |out| :: Ranked(t, At(out, i), At(out, j))
  }

  lemma {:induction false} RankedJoin(t: Tree, a: seq<Id>, b: seq<Id>)
    requires AllRanked(t, a) && AllRanked(t, b)
    requires forall x, y | x in a && y in b :: Ranked(t, x, y)
    ensures AllRanked(t, a + b)
  {
    forall i, j | 0 <= i < j < |a + b|
      ensures Ranked(t, At(a + b, i), At(a + b, j))
    {
      if j < |a| {
        assert At(a + b, i) == At(a, i) && At(a + b, j) == At(a, j);
      } else if i >= |a| {
        assert At(a + b, i) == At(b, i - |a|) && At(a + b, j) == At(b, j - |a|);
      } else {
        assert At(a + b, i) in a && At(a + b, j) in b;
      }
    }
  }

  /** A channel under one of the first children, and one under a later child or that child. */
  lemma {:induction false} EarlierRanked(t: Tree, p: Id, n: nat, x: Id, y: Id)
    requires WellFormed(t) && n < |KidsOf(t, p)| && UnderOne(t, p, n, x)
    requires y in t.channels && Below(Parents(t.channels), y, KidsOf(t, p)[n])
    ensures Ranked(t, x, y)
  {
    var par := Parents(t.channels);
    var kids := KidsOf(t, p);
    var i :| 0 <= i < n && x in t.channels && Below(par, x, kids[i]);
    KidIsBelow(t, p, i);
    KidIsBelow(t, p, n);
    assert KidsOk(t.channels, t.kids, p);
    assert At(kids, i) != At(kids, n);
    if par[x] == par[y] {
      NotBelowTwo(par, kids[i], kids[n], x);
      NotBelowTwo(par, kids[i], kids[n], y);
      NotBelowTwo(par, kids[i], kids[n], par[x]);
      BelowStep(par, x, kids[i]);
      BelowStep(par, y, kids[n]);
      ParentNotBelow(par, kids[i]);
      ParentNotBelow(par, kids[n]);
      IndexOfAt(kids, i);
      IndexOfAt(kids, n);
    }
  }

  /** A channel, and one below it. */
  lemma {:induction false} ParentRanked(t: Tree, k: Id, y: Id)
    requires WellFormed(t) && k in t.channels && y in Descendants(t, k)
    ensures Ranked(t, k, y)
  {
    var par := Parents(t.channels);
    BelowStep(par, y, k);
    ParentNotBelow(par, k);
  }

  lemma {:induction false} WalkedRanked(t: Tree, p: Id, n: nat)
    requires WellFormed(t) && n <= |KidsOf(t, p)|
    ensures AllRanked(t, Walked(t, p, n))
    decreases Descendants(t, p), n
  {
    if n > 0 {
      var k := KidsOf(t, p)[n - 1];
      var below := Walked(t, k, |KidsOf(t, k)|);
      FewerBelow(t, p, n - 1);
      KidIsBelow(t, p, n - 1);
      WalkedRanked(t, p, n - 1);
      WalkedRanked(t, k, |KidsOf(t, k)|);
      forall x, y | x in Walked(t, p, n - 1) && y in [k]
        ensures Ranked(t, x, y)
      {
        WalkedMeets(t, p, n - 1, x);
        BelowSelf(Parents(t.channels), k);
        EarlierRanked(t, p, n - 1, x, y);
      }
      RankedJoin(t, Walked(t, p, n - 1), [k]);
      forall x, y | x in Walked(t, p, n - 1) + [k] && y in below
        ensures Ranked(t, x, y)
      {
        WalkedMeets(t, k, |KidsOf(t, k)|, y);
        UnderAChild(t, k, y);
        if x == k {
          ParentRanked(t, k, y);
        } else {
          WalkedMeets(t, p, n - 1, x);
          EarlierRanked(t, p, n - 1, x, y);
        }
      }
      RankedJoin(t, Walked(t, p, n - 1) + [k], below);
    }
  }

  /** Each channel of `out` comes after its parent, unless that is `p`. */
  ghost predicate ParentsFirst(t: Tree, p: Id, out: seq<Id>) {
    forall j {:trigger At(out, j)} | 0 <= j < |out| :: ParentOf(t, At(out, j)) == p || ParentBefore(t, out, j)
  }

  ghost predicate ParentBefore(t: Tree, out: seq<Id>, j: nat)
    requires j < |out|
  {
    exists i {:trigger At(out, i)} | 0 <= i < j :: At(out, i) == ParentOf(t, At(out, j))
  }

  lemma {:induction false} WalkedParents(t: Tree, p: Id, n: nat)
    requires WellFormed(t) && n <= |KidsOf(t, p)|
    ensures ParentsFirst(t, p, Walked(t, p, n))
    decreases Descendants(t, p), n
  {
    if n > 0 {
      var k := KidsOf(t, p)[n - 1];
      FewerBelow(t, p, n - 1);
      KidIsBelow(t, p, n - 1);
      WalkedParents(t, p, n - 1);
      WalkedParents(t, k, |KidsOf(t, k)|);
      ParentsJoin(t, p, k, Walked(t, p, n - 1), Walked(t, k, |KidsOf(t, k)|));
    }
  }

  lemma {:induction false} ParentsJoin(t: Tree, p: Id, k: Id, a: seq<Id>, b: seq<Id>)
    requires ParentsFirst(t, p, a) && ParentsFirst(t, k, b) && ParentOf(t, k) == p
    ensures ParentsFirst(t, p, a + [k] + b)
  {
    var out := a + [k] + b;
    forall j | 0 <= j < |out|
      ensures ParentOf(t, At(out, j)) == p || ParentBefore(t, out, j)
    {
      if j < |a| {
        assert At(out, j) == At(a, j);
        if ParentBefore(t, a, j) {
          var i :| 0 <= i < j && At(a, i) == ParentOf(t, At(a, j));
          assert At(out, i) == At(a, i);
        }
      } else if j > |a| {
        var jb := j - |a| - 1;
        assert At(out, j) == At(b, jb);
        if ParentOf(t, At(b, jb)) == k {
          assert At(out, |a|) == k;
        } else {
          var i :| 0 <= i < jb && At(b, i) == ParentOf(t, At(b, jb));
          assert At(out, |a| + 1 + i) == At(b, i);
        }
      }
    }
  }

  // ---- Together ----------------------------------------------------------------------------

  /** The walk lists each channel of the tree exactly once, after its parent, and siblings in
      their order. */
  lemma {:induction false} WalksTheTree(t: Tree)
    requires WellFormed(t)
    ensures forall x :: x in InOrder(t) <==> x in t.channels
    ensures Distinct(InOrder(t)) && AllRanked(t, InOrder(t)) && ParentsFirst(t, TOP, InOrder(t))
  {
    var out := InOrder(t);
    forall x
      ensures x in out <==> x in t.channels
    {
      WalkedMeets(t, TOP, |KidsOf(t, TOP)|, x);
      UnderAChild(t, TOP, x);
    }
    WalkedRanked(t, TOP, |KidsOf(t, TOP)|);
    WalkedParents(t, TOP, |KidsOf(t, TOP)|);
    forall i, j | 0 <= i < j < |out|
      ensures At(out, i) != At(out, j)
    {
      assert Ranked(t, At(out, i), At(out, j));
    }
  }

  method Walk(t: Tree, parent: Id) returns (out: seq<Id>)
    requires WellFormed(t)
    ensures out == Walked(t, parent, |KidsOf(t, parent)|)
    decreases Descendants(t, parent)
  {
    out := [];
    var kids := KidsOf(t, parent);
    for n := 0 to |kids|
      invariant out == Walked(t, parent, n)
    {
      FewerBelow(t, parent, n);
      var below := Walk(t, kids[n]);
      out := out + [kids[n]] + below;
    }
  }
}
