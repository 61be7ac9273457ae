/** Marking what a channel leads to, in lists that may have loops, and what hanging one channel at
    the top does to the marks. */
module TreeLoops {
  import opened Forest
  import opened ChannelTree
  import opened SiblingSort
  import opened TreeBuild

  function ListAt(kids: map<Id, seq<Id>>, p: Id): seq<Id> {
    if p in kids then kids[p] else []
  }

  /** The channels the top level leads to. */
  ghost function Reached(channels: map<Id, Channel>): set<Id> {
    set x | x in channels && Below(Parents(channels), x, TOP)
  }

  /** The lists of every id of `r` outside `s` lead nowhere outside `r`. */
  ghost predicate ClosedBut(kids: map<Id, seq<Id>>, r: set<Id>, s: set<Id>) {
    forall x {:trigger ListAt(kids, x)} | x in r && x !in s :: Elems(ListAt(kids, x)) <= r
  }

  /** `r` is `seen` with what `parent` leads to past it. */
  ghost predicate Marks(channels: map<Id, Channel>, kids: map<Id, seq<Id>>, parent: Id, seen: set<Id>, r: set<Id>) {
    && seen <= r <= channels.Keys
    && Elems(ListAt(kids, parent)) <= r
    && ClosedBut(kids, r, seen)
    && forall x | x in r && x !in seen :: Below(Parents(channels), x, parent)
  }

  /** Mark what `parent` leads to and is not marked yet. */
  method Mark(kids: map<Id, seq<Id>>, parent: Id, seen: set<Id>, ghost channels: map<Id, Channel>)
    returns (r: set<Id>)
    requires Loose(Tree(channels, kids, true)) && seen <= channels.Keys
    ensures Marks(channels, kids, parent, seen, r)
    decreases channels.Keys - seen
  {
    r := seen;
    var list := if parent in kids then kids[parent] else [];
    ghost var par := Parents(channels);
    assert parent in kids ==> LooseAt(channels, kids, parent);
    for i := 0 to |list|
      invariant seen <= r <= channels.Keys
      invariant forall j | 0 <= j < i :: list[j] in r
      invariant ClosedBut(kids, r, seen)
      invariant forall x | x in r && x !in seen :: Below(par, x, parent)
    {
      var id := list[i];
      if id !in r {
        assert id in channels && par[id] == parent;
        ghost var before := r;
        assert channels.Keys - (r + {id}) < channels.Keys - seen by {
          assert id in channels.Keys - seen;
        }
        r := Mark(kids, id, r + {id}, channels);
        BelowSelf(par, parent);
        BelowStep(par, id, parent);
        forall x | x in r && x !in seen
          ensures Below(par, x, parent)
        {
          if x !in before && x != id {
            BelowTransitive(par, x, id, parent);
          }
        }
        assert ClosedBut(kids, r, seen) by {
          forall x | x in r && x !in seen
            ensures Elems(ListAt(kids, x)) <= r
          {
            if x in before {
              assert Elems(ListAt(kids, x)) <= before;
            }
          }
        }
      }
    }
  }

  /** A marked set that the top level leads into and that leads nowhere else is all that is
      below the top level. */
  lemma {:induction false} ReachedIs(t: Tree, r: set<Id>)
    requires Loose(t) && Marks(t.channels, t.kids, TOP, {}, r)
    ensures r == Reached(t.channels)
  {
    forall x | x in Reached(t.channels)
      ensures x in r
    {
      var n: nat :| Up(Parents(t.channels), x, n) == TOP;
      ReachedIn(t, r, x, n);
    }
  }

  lemma {:induction false} ReachedIn(t: Tree, r: set<Id>, x: Id, n: nat)
    requires Loose(t) && x in t.channels && Up(Parents(t.channels), x, n) == TOP
    requires Elems(ListAt(t.kids, TOP)) <= r && ClosedBut(t.kids, r, {})
    ensures x in r
    decreases n
  {
    var p := t.channels[x].parentID;
    assert GoodRow(t.channels, x);
    assert Listed(t.channels, t.kids, x);
    assert x in Elems(ListAt(t.kids, p));
    if p != TOP {
      ReachedIn(t, r, p, n - 1);
    }
  }

  // ---- Hanging one channel ------------------------------------------------------

  lemma {:induction false} HangOneLoose(t: Tree, id: Id)
    requires Loose(t) && id in t.channels && t.channels[id].parentID != TOP
    ensures Loose(HangOne(t, id))
    ensures Parents(HangOne(t, id).channels) == Parents(t.channels)[id := TOP]
  {
    var r := HangOne(t, id);
    var p0 := t.channels[id].parentID;
    assert Listed(t.channels, t.kids, id);
    assert LooseAt(t.channels, t.kids, p0);
    assert TOP in t.kids ==> LooseAt(t.channels, t.kids, TOP);
    var list := t.kids[p0];
    var top := ListAt(t.kids, TOP);
    WithoutMembers(list, id);
    WithoutDistinct(list, id);
    assert id !in top;
    DistinctAppend(top, id);
    forall x | x in r.channels
      ensures GoodRow(r.channels, x)
    {
      assert GoodRow(t.channels, x);
    }
    forall x | x in r.channels
      ensures Listed(r.channels, r.kids, x)
    {
      assert Listed(t.channels, t.kids, x);
    }
    forall p | p in r.kids
      ensures LooseAt(r.channels, r.kids, p)
    {
      if p == TOP {
        assert r.kids[p] == top + [id];
        assert forall i | 0 <= i < |top| :: top[i] != id && t.channels[top[i]].parentID == TOP;
      } else if p == p0 {
        var next := Without(list, id);
        assert r.kids[p] == next;
        forall i | 0 <= i < |next|
          ensures next[i] in t.channels && next[i] != id && t.channels[next[i]].parentID == p0
        {
          assert next[i] in list;
        }
      } else {
        assert LooseAt(t.channels, t.kids, p);
        assert id !in t.kids[p];
      }
    }
  }

  lemma {:induction false} NoTopRow(t: Tree)
    requires Loose(t)
    ensures TOP !in t.channels && TOP !in Parents(t.channels)
  {
    forall x | x in t.channels
      ensures x != TOP
    {
      assert GoodRow(t.channels, x);
    }
  }

  /** What was below the top level still is, and what `id` carries is now. */
  lemma {:induction false} HangOneReach(t: Tree, id: Id, x: Id)
    requires Loose(t) && id in t.channels
    requires Below(Parents(t.channels), x, TOP) || Below(Parents(t.channels), x, id)
    ensures Below(Parents(t.channels)[id := TOP], x, TOP)
  {
    var par := Parents(t.channels);
    var par' := par[id := TOP];
    assert GoodRow(t.channels, id);
    BelowSelf(par', TOP);
    if Below(par, x, TOP) {
      NoTopRow(t);
      var n: nat :| Up(par, x, n) == TOP;
      UpThrough(par, id, TOP, x, n);
    } else {
      var n: nat :| Up(par, x, n) == id;
      UpReaches(par, id, TOP, x, n);
      BelowStep(par', id, TOP);
      BelowTransitive(par', x, id, TOP);
    }
  }
}
