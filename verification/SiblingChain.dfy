/** What the order of siblings means: a permutation for every input, and the one chain of
    predecessors when there is one. */
module SiblingChain {
  import opened Forest
  import opened ChannelTree
  import opened SiblingSort

  function OrderOf(sibs: seq<Channel>, x: Id): Id
    requires x in Ids(sibs)
  {
    sibs[IndexOf(Ids(sibs), x)].order
  }

  /** The sibling each names as the one before it. */
  ghost function Preds(sibs: seq<Channel>): map<Id, Id> {
    map x | x in Elems(Ids(sibs)) :: OrderOf(sibs, x)
  }

  ghost function Orders(sibs: seq<Channel>): seq<Id> {
    seq(|sibs|, i requires 0 <= i < |sibs| => sibs[i].order)
  }

  /** The predecessors named form one chain: all lead to the first place, and no two siblings
      name the same one. */
  ghost predicate Chain(sibs: seq<Channel>) {
    Rooted(Preds(sibs)) && Distinct(Orders(sibs))
  }

  /** Whatever the input, the order is a permutation of it. */
  lemma {:induction false} SortedPermutation(sibs: seq<Channel>)
    ensures Distinct(Sorted(sibs)) && Elems(Sorted(sibs)) == Elems(Ids(sibs))
  {
    var m := FollowerMap(sibs);
    var U := Elems(Ids(sibs));
    FollowersWithin(sibs);
    VisitElems(m, U, Next(m, TOP), 0, []);
    VisitElems(m, U, Ids(sibs), 0, Chained(sibs));
    forall x | x in Ids(sibs)
      ensures x in Sorted(sibs)
    {
      var i :| 0 <= i < |Ids(sibs)| && Ids(sibs)[i] == x;
      VisitCovers(m, U, Ids(sibs), 0, Chained(sibs), i);
    }
  }

  lemma {:induction false} PredsAt(sibs: seq<Channel>, i: nat)
    requires UniqueIds(sibs) && i < |sibs|
    ensures sibs[i].id in Preds(sibs) && Preds(sibs)[sibs[i].id] == sibs[i].order
  {
    IndexOfAt(Ids(sibs), i);
    assert Ids(sibs)[i] in Elems(Ids(sibs));
  }

  /** `y` comes right after `k`. */
  lemma {:induction false} NextIff(sibs: seq<Channel>, k: Id, y: Id)
    requires UniqueIds(sibs) && AllNamed(sibs, |sibs|)
    ensures y in Next(FollowerMap(sibs), k) <==> y in Preds(sibs) && Preds(sibs)[y] == k
  {
    FollowersWithin(sibs);
    NamingIff(sibs, |sibs|, k, y);
    if y in Next(FollowerMap(sibs), k) {
      var i :| 0 <= i < |sibs| && sibs[i].id == y && NamedAfter(sibs, sibs[i]) == k;
      PredsAt(sibs, i);
    }
    if y in Preds(sibs) && Preds(sibs)[y] == k {
      var i := IndexOf(Ids(sibs), y);
      assert sibs[i].id == y && NamedAfter(sibs, sibs[i]) == k;
    }
  }

  lemma {:induction false} TwoIn(list: seq<Id>, x: Id, y: Id)
    requires x in list && y in list && x != y
    ensures |list| > 1
  {
  }

  lemma {:induction false} SortOkIsChain(sibs: seq<Channel>)
    requires UniqueIds(sibs) && SortOk(sibs)
    ensures Chain(sibs)
  {
    var m := FollowerMap(sibs);
    var U := Elems(Ids(sibs));
    var preds := Preds(sibs);
    FollowersWithin(sibs);
    var P := set x | x in U && Below(preds, x, TOP);
    forall k, y | (k == TOP || k in P) && y in Next(m, k)
      ensures y in P
    {
      NextIff(sibs, k, y);
      BelowSelf(preds, TOP);
      BelowStep(preds, y, TOP);
    }
    VisitSound(m, U, Next(m, TOP), 0, [], P);
    forall i, j | 0 <= i < j < |sibs|
      ensures At(Orders(sibs), i) != At(Orders(sibs), j)
    {
      var k := sibs[i].order;
      if sibs[j].order == k {
        assert At(Ids(sibs), i) != At(Ids(sibs), j);
        PredsAt(sibs, i);
        PredsAt(sibs, j);
        NextIff(sibs, k, sibs[i].id);
        NextIff(sibs, k, sibs[j].id);
        TwoIn(Next(m, k), sibs[i].id, sibs[j].id);
      }
    }
  }

  lemma {:induction false} NamingShort(sibs: seq<Channel>, n: nat, k: Id)
    requires n <= |sibs| && AllNamed(sibs, |sibs|) && Distinct(Orders(sibs))
    ensures |Naming(sibs, n, k)| <= 1
    ensures Naming(sibs, n, k) != [] ==> exists i | 0 <= i < n :: sibs[i].order == k
  {
    if n > 0 {
      NamingShort(sibs, n - 1, k);
      if sibs[n - 1].order == k && Naming(sibs, n - 1, k) != [] {
        var i :| 0 <= i < n - 1 && sibs[i].order == k;
        Differ(Orders(sibs), i, n - 1);
      }
    }
  }

  lemma {:induction false} ChainedCovers(sibs: seq<Channel>, x: Id, n: nat)
    requires UniqueIds(sibs) && AllNamed(sibs, |sibs|)
    requires x in Preds(sibs) && Up(Preds(sibs), x, n) == TOP
    ensures x in Chained(sibs)
    decreases n
  {
    var m := FollowerMap(sibs);
    var U := Elems(Ids(sibs));
    var k := Preds(sibs)[x];
    FollowersWithin(sibs);
    NextIff(sibs, k, x);
    if k == TOP {
      var i :| 0 <= i < |Next(m, TOP)| && Next(m, TOP)[i] == x;
      VisitCovers(m, U, Next(m, TOP), 0, [], i);
    } else {
      assert k in Preds(sibs) by {
        var i := IndexOf(Ids(sibs), x);
        assert sibs[i].order == k;
        assert k in Elems(Ids(sibs));
      }
      ChainedCovers(sibs, k, n - 1);
      VisitClosed(m, U, Next(m, TOP), 0, [], k);
      assert x in Elems(Next(m, k));
    }
  }

  lemma {:induction false} ChainIsSortOk(sibs: seq<Channel>)
    requires UniqueIds(sibs) && Chain(sibs)
    ensures SortOk(sibs)
  {
    var m := FollowerMap(sibs);
    FollowersWithin(sibs);
    forall i | 0 <= i < |sibs|
      ensures sibs[i].order == TOP || sibs[i].order in Ids(sibs)
    {
      PredsAt(sibs, i);
      RootedParent(Preds(sibs), sibs[i].id);
    }
    forall k
      ensures |Next(m, k)| <= 1
    {
      NamingShort(sibs, |sibs|, k);
    }
    forall x | x in Ids(sibs)
      ensures x in Chained(sibs)
    {
      assert x in Preds(sibs);
      var n: nat :| Up(Preds(sibs), x, n) == TOP;
      ChainedCovers(sibs, x, n);
    }
  }

  /** The sort calls a set of siblings in order exactly when their predecessors form one chain. */
  lemma {:induction false} SortOkIffChain(sibs: seq<Channel>)
    requires UniqueIds(sibs)
    ensures SortOk(sibs) <==> Chain(sibs)
  {
    if SortOk(sibs) {
      SortOkIsChain(sibs);
    }
    if Chain(sibs) {
      ChainIsSortOk(sibs);
    }
  }

  /** Each id of `out` names the one before it. */
  ghost predicate InChain(preds: map<Id, Id>, out: seq<Id>) {
    forall i {:trigger Prev(out, i)} | 0 <= i < |out| :: out[i] in preds && preds[out[i]] == Prev(out, i)
  }

  lemma {:induction false} VisitInChain(m: Followers, U: set<Id>, preds: map<Id, Id>, out: seq<Id>)
    requires Within(m, U)
    requires forall k :: |Next(m, k)| <= 1
    requires forall k, y | y in Next(m, k) :: y in preds && preds[y] == k
    requires InChain(preds, out)
    ensures InChain(preds, Visit(m, U, Next(m, Prev(out, |out|)), 0, out))
    decreases U - Elems(out)
  {
    var list := Next(m, Prev(out, |out|));
    if list != [] && list[0] !in out {
      SeenGrows(U, list, 0, out);
      var out' := out + [list[0]];
      forall i | 0 <= i < |out'|
        ensures out'[i] in preds && preds[out'[i]] == Prev(out', i)
      {
        assert Prev(out', i) == Prev(out, i);
      }
      VisitInChain(m, U, preds, out');
      assert Prev(out', |out'|) == list[0];
    }
  }

  /** Siblings whose predecessors form a chain come out in that chain's order. */
  lemma {:induction false} SortedInChain(sibs: seq<Channel>)
    requires UniqueIds(sibs) && Chain(sibs)
    ensures InChain(Preds(sibs), Sorted(sibs))
  {
    var m := FollowerMap(sibs);
    var U := Elems(Ids(sibs));
    ChainIsSortOk(sibs);
    FollowersWithin(sibs);
    forall k
      ensures |Next(m, k)| <= 1
    {
      NamingShort(sibs, |sibs|, k);
    }
    forall k, y | y in Next(m, k)
      ensures y in Preds(sibs) && Preds(sibs)[y] == k
    {
      NextIff(sibs, k, y);
    }
    VisitInChain(m, U, Preds(sibs), []);
    VisitSeen(m, U, Ids(sibs), 0, Chained(sibs));
  }
}
