/** `ChannelTree.from` as it runs: rows read, grouped by parent, sorted, loops hung at the
    top, and lists settled in place. */
module TreeFromMethod {
  import opened Forest
  import opened ChannelTree
  import opened SiblingSort
  import opened TreeBuild
  import opened TreeLoops
  import opened TreeFrom
  import opened TreeDraft

  ghost predicate SortsOk(rows: seq<Channel>, parents: set<Id>) {
    forall p | p in parents :: SortOk(ChildrenOf(rows, |rows|, p))
  }

  lemma {:induction false} SortsOkStep(rows: seq<Channel>, parents: set<Id>, p: Id)
    ensures SortsOk(rows, parents + {p}) <==> SortsOk(rows, parents) && SortOk(ChildrenOf(rows, |rows|, p))
  {
    if SortsOk(rows, parents + {p}) {
      assert p in parents + {p};
      forall q | q in parents
        ensures SortOk(ChildrenOf(rows, |rows|, q))
      {
        assert q in parents + {p};
      }
    }
  }

  lemma {:induction false} SortsOkAll(rows: seq<Channel>)
    ensures SortsOk(rows, ParentIds(rows)) <==> AllSortOk(rows)
  {
    forall p | p !in ParentIds(rows)
      ensures SortOk(ChildrenOf(rows, |rows|, p))
    {
      ChildrenNonEmpty(rows, |rows|, p);
      NoSiblings();
    }
  }

  ghost function ListsOf(rows: seq<Channel>, parents: set<Id>): map<Id, seq<Id>> {
    map p | p in parents :: Sorted(ChildrenOf(rows, |rows|, p))
  }

  lemma {:induction false} ListsOfStep(rows: seq<Channel>, parents: set<Id>, p: Id)
    ensures ListsOf(rows, parents + {p}) == ListsOf(rows, parents)[p := Sorted(ChildrenOf(rows, |rows|, p))]
  {
  }

  method SortLists(rows: seq<Channel>, byParent: map<Id, seq<Channel>>, ok0: bool)
    returns (kids: map<Id, seq<Id>>, ok: bool)
    requires byParent == ByParent(rows)
    ensures kids == Lists(rows)
    ensures ok == (ok0 && AllSortOk(rows))
  {
    kids, ok := map[], ok0;
    var todo := byParent.Keys;
    ghost var done: set<Id> := {};
    while todo != {}
      invariant done + todo == byParent.Keys == ParentIds(rows)
      invariant kids == ListsOf(rows, done)
      invariant ok == (ok0 && SortsOk(rows, done))
      decreases todo
    {
      var p :| p in todo;
      SortsOkStep(rows, done, p);
      ListsOfStep(rows, done, p);
      var list;
      list, ok := SortSiblings(byParent[p], ok);
      kids := kids[p := list];
      todo, done := todo - {p}, done + {p};
    }
    assert done == ParentIds(rows);
    assert ListsOf(rows, ParentIds(rows)) == Lists(rows);
    SortsOkAll(rows);
  }

  lemma {:induction false} NoSiblings()
    ensures SortOk([])
  {
    FollowersWithin([]);
  }

  // ---- Marks --------------------------------------------------------------------------

  lemma {:induction false} ChildrenReached(t: Tree, x: Id)
    requires Loose(t) && (x == TOP || x in Reached(t.channels))
    ensures Elems(ListAt(t.kids, x)) <= Reached(t.channels)
  {
    forall y | y in ListAt(t.kids, x)
      ensures y in Reached(t.channels)
    {
      assert LooseAt(t.channels, t.kids, x);
      BelowSelf(Parents(t.channels), TOP);
      BelowStep(Parents(t.channels), y, TOP);
    }
  }

  lemma {:induction false} HangOneLists(t: Tree, id: Id, x: Id)
    requires Loose(t) && id in t.channels && t.channels[id].parentID != TOP
    ensures Elems(ListAt(HangOne(t, id).kids, x)) <= Elems(ListAt(t.kids, x)) + if x == TOP then {id} else {}
  {
    WithoutMembers(KidsOf(t, t.channels[id].parentID), id);
  }

  /** After a channel is hung, what is marked from it completes the marks. */
  lemma {:induction false} MarkedAfterHang(t: Tree, id: Id, r: set<Id>)
    requires Loose(t) && id in t.channels && t.channels[id].parentID != TOP
    requires Marks(HangOne(t, id).channels, HangOne(t, id).kids, id, Reached(t.channels) + {id}, r)
    ensures Loose(HangOne(t, id)) && r == Reached(HangOne(t, id).channels)
  {
    var t1 := HangOne(t, id);
    HangOneLoose(t, id);
    TopLevelReached(t1, id);
    forall x | x in r
      ensures Below(Parents(t1.channels), x, TOP)
    {
      if x in Reached(t.channels) {
        HangOneReach(t, id, x);
      } else if x != id {
        BelowTransitive(Parents(t1.channels), x, id, TOP);
      }
    }
    forall x | x == TOP || x in r
      ensures Elems(ListAt(t1.kids, x)) <= r
    {
      if x == TOP || x in Reached(t.channels) {
        ChildrenReached(t, x);
        HangOneLists(t, id, x);
      }
    }
    ReachedIs(t1, r);
  }

  method HangAtTop(draft: Draft, id: Id)
    requires id in draft.channels
    modifies draft
    ensures draft.Value() == HangOne(old(draft.Value()), id)
  {
    draft.consistent := false;
    var channel := draft.channels[id];
    var list := if channel.parentID in draft.kids then draft.kids[channel.parentID] else [];
    draft.kids := draft.kids[channel.parentID := Without(list, id)];
    var top := if TOP in draft.kids then draft.kids[TOP] else [];
    draft.kids := draft.kids[TOP := top + [id]];
    draft.channels := draft.channels[id := channel.(parentID := TOP)];
  }

  /** One turn: a channel not reached yet is hung at the top, and what it carries is marked. */
  method HangTurn(draft: Draft, id: Id, reachable: set<Id>) returns (r: set<Id>)
    requires Loose(draft.Value()) && id in draft.channels && reachable == Reached(draft.channels)
    modifies draft
    ensures draft.Value() == if Below(Parents(old(draft.channels)), id, TOP) then old(draft.Value())
                             else HangOne(old(draft.Value()), id)
    ensures draft.channels.Keys == old(draft.channels).Keys
    ensures Loose(draft.Value()) && r == Reached(draft.channels)
  {
    if id in reachable {
      return reachable;
    }
    ghost var t := draft.Value();
    assert t.channels[id].parentID != TOP by {
      if t.channels[id].parentID == TOP {
        TopLevelReached(t, id);
      }
    }
    HangOneLoose(t, id);
    HangAtTop(draft, id);
    assert draft.channels.Keys == t.channels.Keys;
    r := Mark(draft.kids, id, reachable + {id}, draft.channels);
    MarkedAfterHang(t, id, r);
  }

  method MarkTop(t: Tree) returns (r: set<Id>)
    requires Loose(t)
    ensures r == Reached(t.channels)
  {
    r := Mark(t.kids, TOP, {}, t.channels);
    ReachedIs(t, r);
  }

  lemma {:induction false} HungStep(t: Tree, ids: seq<Id>, i: nat)
    requires i < |ids| && forall x | x in ids :: x in t.channels
    ensures var u := if Below(Parents(t.channels), ids[i], TOP) then t else HangOne(t, ids[i]);
      u.channels.Keys == t.channels.Keys && HungFrom(t, ids, i) == HungFrom(u, ids, i + 1)
  {
  }

  /** Hang each channel no top-level channel leads to, in input order. */
  method HangLoops(draft: Draft, ids: seq<Id>)
    requires Loose(draft.Value()) && forall x | x in ids :: x in draft.channels
    modifies draft
    ensures draft.Value() == HungFrom(old(draft.Value()), ids, 0)
  {
    var reachable := MarkTop(draft.Value());
    ghost var goal := HungFrom(draft.Value(), ids, 0);
    for i := 0 to |ids|
      invariant Loose(draft.Value()) && reachable == Reached(draft.channels)
      invariant (forall x | x in ids :: x in draft.channels) && HungFrom(draft.Value(), ids, i) == goal
    {
      HungStep(draft.Value(), ids, i);
      reachable := HangTurn(draft, ids[i], reachable);
    }
  }

  // ---- Settling every list ---------------------------------------------------------------

  /** `t` with the lists of `done` settled, or dropped when empty. */
  ghost function NeatTo(t: Tree, done: set<Id>): Tree {
    Tree(map x | x in t.channels ::
           if t.channels[x].parentID in done
           then t.channels[x].(order := Before(KidsOf(t, t.channels[x].parentID), x)) else t.channels[x],
         map p | p in t.kids && (p in done ==> t.kids[p] != []) :: t.kids[p],
         t.consistent)
  }

  lemma {:induction false} NeatToAll(t: Tree)
    requires Loose(t)
    ensures NeatTo(t, t.kids.Keys) == Neat(t)
    ensures NeatTo(t, {}) == t
  {
    forall x | x in t.channels
      ensures t.channels[x].parentID in t.kids
    {
      assert Listed(t.channels, t.kids, x);
    }
  }

  lemma {:induction false} NeatToStep(t: Tree, done: set<Id>, p: Id)
    requires Loose(t) && p in t.kids && p !in done
    ensures var r := NeatTo(t, done);
      NeatTo(t, done + {p})
      == if t.kids[p] == [] then r.(kids := r.kids - {p})
         else r.(channels := Settled(r.channels, t.kids[p]))
  {
    assert LooseAt(t.channels, t.kids, p);
    forall x | x in t.channels
      ensures x in t.kids[p] <==> t.channels[x].parentID == p
    {
      assert Listed(t.channels, t.kids, x);
    }
  }

  method SettleLists(draft: Draft)
    requires Loose(draft.Value())
    modifies draft
    ensures draft.Value() == Neat(old(draft.Value()))
  {
    ghost var t := draft.Value();
    ghost var done: set<Id> := {};
    var todo := draft.kids.Keys;
    NeatToAll(t);
    while todo != {}
      invariant todo !! done && todo + done == t.kids.Keys
      invariant draft.Value() == NeatTo(t, done)
      decreases todo
    {
      var p :| p in todo;
      NeatToStep(t, done, p);
      assert p in draft.kids && draft.kids[p] == t.kids[p];
      assert LooseAt(t.channels, t.kids, p);
      if |draft.kids[p]| == 0 {
        draft.kids := draft.kids - {p};
      } else {
        draft.Settle(draft.kids[p]);
      }
      todo, done := todo - {p}, done + {p};
    }
    assert done == t.kids.Keys;
  }

  /** In place, `Build`, for every list of rows there is. */
  method From(input: seq<Channel>) returns (t: Tree)
    ensures t == Build(input) && WellFormed(t)
  {
    BuildWellFormed(input);
    RowsSame(input);
    RowsUnique(input, |input|);
    RoughLoose(input);
    var rows, ok := ReadRows(input);
    var channels, byParent;
    channels, byParent, ok := GroupRows(rows, ok);
    var kids;
    kids, ok := SortLists(Fixed(rows), byParent, ok);
    var draft := new Draft(Tree(channels, kids, ok));
    assert draft.Value() == Rough(input);
    HungRooted(input);
    HangLoops(draft, Ids(rows));
    SettleLists(draft);
    t := draft.Value();
  }
}
