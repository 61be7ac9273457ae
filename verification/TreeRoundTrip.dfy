/** A well-formed tree is determined by its channels' records: building from them, in any
    order, gives the tree back. */
module TreeRoundTrip {
  import opened Forest
  import opened ChannelTree
  import opened SiblingSort
  import opened SiblingChain
  import opened TreeBuild
  import opened TreeFrom

  // ---- Lists and chains ----------------------------------------------------------

  lemma {:induction false} PrevInjective(list: seq<Id>, i: nat, j: nat)
    requires Distinct(list) && TOP !in list && i < |list| && j < |list|
    requires Prev(list, i) == Prev(list, j)
    ensures i == j
  {
    if i != j && i > 0 && j > 0 {
      Differ(list, i - 1, j - 1);
    }
  }

  lemma {:induction false} ChainReaches(preds: map<Id, Id>, list: seq<Id>, i: nat)
    requires InChain(preds, list) && i < |list|
    ensures Below(preds, list[i], TOP)
    decreases i
  {
    var k := Prev(list, i);
    assert list[i] in preds && preds[list[i]] == k;
    if i == 0 {
      BelowSelf(preds, TOP);
    } else {
      ChainReaches(preds, list, i - 1);
    }
    BelowStep(preds, list[i], TOP);
  }

  /** Two lists of the same channels, each in the order its channels name, are one list. */
  lemma {:induction false} SameUpTo(channels: map<Id, Channel>, p: Id, a: seq<Id>, b: seq<Id>, n: nat)
    requires ListOk(channels, p, a) && ListOk(channels, p, b) && TOP !in b
    requires forall x | x in a :: x in b
    requires n <= |a|
    ensures n <= |b| && a[..n] == b[..n]
  {
    if n > 0 {
      SameUpTo(channels, p, a, b, n - 1);
      var i := n - 1;
      assert a[i] in a;
      var j :| 0 <= j < |b| && b[j] == a[i];
      assert channels[a[i]].order == Prev(a, i) && channels[b[j]].order == Prev(b, j);
      if i < |b| {
        assert Prev(a, i) == Prev(b, i) by {
          if i > 0 {
            assert a[..i][i - 1] == b[..i][i - 1];
          }
        }
        PrevInjective(b, i, j);
      } else {
        assert a[..i] == b[..i] == b;
        assert a[..i][j] == b[j];
        Differ(a, j, i);
      }
    }
  }

  lemma {:induction false} SameKids(t: Tree, u: Tree)
    requires WellFormed(t) && WellFormed(u) && t.channels == u.channels
    ensures t.kids == u.kids
  {
    forall p | p in t.kids
      ensures p in u.kids && t.kids[p] == u.kids[p]
    {
      SameKidsAt(t, u, p);
    }
    forall p | p in u.kids
      ensures p in t.kids
    {
      SameKidsAt(u, t, p);
    }
  }

  lemma {:induction false} SameKidsAt(t: Tree, u: Tree, p: Id)
    requires WellFormed(t) && WellFormed(u) && t.channels == u.channels && p in t.kids
    ensures p in u.kids && t.kids[p] == u.kids[p]
  {
    var a := t.kids[p];
    assert KidsOk(t.channels, t.kids, p);
    forall x | x in a
      ensures p in u.kids && x in u.kids[p]
    {
      assert Listed(u.channels, u.kids, x);
    }
    assert a[0] in a;
    var b := u.kids[p];
    assert KidsOk(u.channels, u.kids, p);
    forall x | x in b
      ensures x in a && x != TOP
    {
      assert Listed(t.channels, t.kids, x);
      assert x in Parents(t.channels);
    }
    assert forall x | x in a :: x != TOP;
    SameUpTo(t.channels, p, a, b, |a|);
    SameUpTo(t.channels, p, b, a, |b|);
    assert a[..|a|] == a && b[..|b|] == b;
  }

  // ---- The records of a tree --------------------------------------------------------

  lemma {:induction false} ChildOrder(rows: seq<Channel>, p: Id, x: Id)
    requires UniqueIds(rows) && x in Ids(ChildrenOf(rows, |rows|, p))
    ensures x in RowMap(rows) && OrderOf(ChildrenOf(rows, |rows|, p), x) == RowMap(rows)[x].order
  {
    var sibs := ChildrenOf(rows, |rows|, p);
    ChildrenRows(rows, |rows|, p);
    assert sibs[IndexOf(Ids(sibs), x)] in sibs;
  }

  /** The siblings of a well-formed tree name one chain. */
  lemma {:induction false} KidsChain(t: Tree, rows: seq<Channel>, p: Id)
    requires WellFormed(t) && UniqueIds(rows) && RowMap(rows) == t.channels
    ensures Chain(ChildrenOf(rows, |rows|, p))
  {
    var sibs := ChildrenOf(rows, |rows|, p);
    var preds := Preds(sibs);
    ChildrenUnique(rows, |rows|, p);
    if p in t.kids {
      KidsInChain(t, rows, p);
      var list := t.kids[p];
      assert KidsOk(t.channels, t.kids, p);
      forall x | x in preds
        ensures x in list && Below(preds, x, TOP)
      {
        ChildrenIff(rows, p, x);
        assert Listed(t.channels, t.kids, x);
        var i :| 0 <= i < |list| && list[i] == x;
        ChainReaches(preds, list, i);
      }
      forall i, j | 0 <= i < j < |sibs|
        ensures At(Orders(sibs), i) != At(Orders(sibs), j)
      {
        PredsAt(sibs, i);
        PredsAt(sibs, j);
        assert At(Ids(sibs), i) != At(Ids(sibs), j);
        var a := IndexOf(list, sibs[i].id);
        var b := IndexOf(list, sibs[j].id);
        assert preds[list[a]] == Prev(list, a) && preds[list[b]] == Prev(list, b);
        if Prev(list, a) == Prev(list, b) {
          PrevInjective(list, a, b);
        }
      }
    } else {
      if sibs != [] {
        ChildrenIff(rows, p, Ids(sibs)[0]);
        var listed := Listed(t.channels, t.kids, Ids(sibs)[0]);
      }
    }
  }

  lemma {:induction false} KidsInChain(t: Tree, rows: seq<Channel>, p: Id)
    requires WellFormed(t) && UniqueIds(rows) && RowMap(rows) == t.channels && p in t.kids
    ensures InChain(Preds(ChildrenOf(rows, |rows|, p)), t.kids[p]) && TOP !in t.kids[p]
  {
    var list := t.kids[p];
    assert KidsOk(t.channels, t.kids, p);
    forall x | x in list
      ensures x != TOP && x in Preds(ChildrenOf(rows, |rows|, p))
      ensures Preds(ChildrenOf(rows, |rows|, p))[x] == t.channels[x].order
    {
      assert x in Parents(t.channels);
      ChildrenIff(rows, p, x);
      ChildOrder(rows, p, x);
    }
  }

  /** The records of a well-formed tree are rows that are a tree. */
  lemma {:induction false} RecordsAreTree(t: Tree, rows: seq<Channel>)
    requires WellFormed(t) && UniqueIds(rows) && RowMap(rows) == t.channels
    ensures RowsAreTree(rows)
  {
    forall p
      ensures Chain(ChildrenOf(rows, |rows|, p))
    {
      KidsChain(t, rows, p);
    }
  }

  // ---- Rows that are a tree are kept ---------------------------------------------------

  lemma {:induction false} ListOrder(rows: seq<Channel>, x: Id)
    requires RowsAreTree(rows) && x in RowMap(rows)
    ensures RowMap(rows)[x].parentID in Lists(rows)
    ensures Before(Lists(rows)[RowMap(rows)[x].parentID], x) == RowMap(rows)[x].order
  {
    var p := RowMap(rows)[x].parentID;
    var sibs := ChildrenOf(rows, |rows|, p);
    var list := Sorted(sibs);
    assert rows[IndexOf(Ids(rows), x)].parentID == p;
    ChildrenUnique(rows, |rows|, p);
    ChildrenIff(rows, p, x);
    ChildOrder(rows, p, x);
    SortedPermutation(sibs);
    SortedInChain(sibs);
    assert x in Elems(list);
    var i := IndexOf(list, x);
    assert x in Elems(Ids(sibs));
    var k := Prev(list, i);
    assert Preds(sibs)[list[i]] == k;
  }

  lemma {:induction false} BuildOfTree(rows: seq<Channel>)
    requires RowsAreTree(rows)
    ensures Build(rows) == Neat(Tree(RowMap(rows), Lists(rows), true))
  {
    BuildConsistentIff(rows);
    HungConsistentIff(rows);
    RoughConsistentIff(rows);
    HungRooted(rows);
  }

  lemma {:induction false} NeatSame(t: Tree)
    requires forall x | x in t.channels :: Before(KidsOf(t, t.channels[x].parentID), x) == t.channels[x].order
    ensures Neat(t).channels == t.channels
  {
  }

  /** Rows that are a tree become the tree's channels as they are. */
  lemma {:induction false} BuildKeepsRows(rows: seq<Channel>)
    requires RowsAreTree(rows)
    ensures Build(rows).channels == RowMap(rows)
  {
    var t := Tree(RowMap(rows), Lists(rows), true);
    BuildOfTree(rows);
    forall x | x in t.channels
      ensures Before(KidsOf(t, t.channels[x].parentID), x) == t.channels[x].order
    {
      ListOrder(rows, x);
    }
    NeatSame(t);
  }

  /** Round trip: the records of a well-formed tree, each once and in any order, build the
      same tree, and a consistent one. */
  lemma {:induction false} RoundTrip(t: Tree, rows: seq<Channel>)
    requires WellFormed(t) && UniqueIds(rows) && RowMap(rows) == t.channels
    ensures Build(rows) == t.(consistent := true)
  {
    RecordsAreTree(t, rows);
    BuildKeepsRows(rows);
    BuildWellFormed(rows);
    BuildConsistentIff(rows);
    SameKids(t, Build(rows));
  }
}
