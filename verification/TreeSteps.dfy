/** Every channel event keeps the tree well formed. */
module TreeSteps {
  import opened Wrappers
  import opened Forest
  import opened ChannelTree

  /** Writing the record of a channel that is in no list. */
  lemma {:induction false} PutSound(t: Tree, out: set<Id>, c: Channel)
    requires Sound(t, out) && (c.id in out || c.id !in t.channels) && c.id != TOP
    requires c.parentID == TOP || c.parentID in t.channels
    requires !Below(Parents(t.channels), c.parentID, c.id)
    ensures Sound(t.(channels := t.channels[c.id := c]), out + {c.id})
    ensures Parents(t.channels[c.id := c]) == Parents(t.channels)[c.id := c.parentID]
  {
    var r := t.(channels := t.channels[c.id := c]);
    Reparent(Parents(t.channels), c.id, c.parentID);
    assert Parents(r.channels) == Parents(t.channels)[c.id := c.parentID];
    forall p | p in r.kids
      ensures c.id !in r.kids[p] && KidsOk(r.channels, r.kids, p)
    {
      assert KidsOk(t.channels, t.kids, p);
      if c.id in t.kids[p] {
        assert Listed(t.channels, t.kids, c.id);
      }
    }
    forall x | x in r.channels
      ensures Listed(r.channels, r.kids, x) <==> x !in out + {c.id}
    {
      if x != c.id {
        assert Listed(t.channels, t.kids, x) <==> x !in out;
      }
    }
  }

  lemma {:induction false} RemovedSound(t: Tree, out: set<Id>, id: Id)
    requires Sound(t, out) && id in t.channels && id !in out
    requires forall x | x in out :: !Below(Parents(t.channels), x, id)
    ensures Sound(Removed(t, id), out)
  {
    var par := Parents(t.channels);
    var gone := Subtree(par, id);
    var d := Detached(t, id);
    DetachSound(t, out, id);
    SubtreeDownClosed(par, id);
    BelowSelf(par, id);
    forall x | x in gone && x !in out + {id}
      ensures d.channels[x].parentID in gone
    {
      SubtreeParent(par, id, x);
      assert Parents(d.channels)[x] == par[x];
    }
    DropSound(d, out + {id}, gone);
    assert out + {id} - gone == out;
  }

  lemma {:induction false} RemovedParents(t: Tree, out: set<Id>, id: Id)
    requires Sound(t, out) && id in t.channels && id !in out
    ensures Parents(Removed(t, id).channels) == Parents(t.channels) - Subtree(Parents(t.channels), id)
  {
    DetachSound(t, out, id);
    assert Parents(Removed(t, id).channels)
        == Parents(Detached(t, id).channels) - Subtree(Parents(t.channels), id);
  }

  lemma {:induction false} RemovedLists(t: Tree, out: set<Id>, id: Id, p: Id)
    requires Sound(t, out) && id in t.channels && id !in out
    ensures KidsOf(Removed(t, id), p)
         == if p in Subtree(Parents(t.channels), id) then []
            else if p == t.channels[id].parentID then Without(KidsOf(t, p), id)
            else KidsOf(t, p)
  {
    DetachSound(t, out, id);
    assert KidsOf(Removed(t, id), p)
        == if p in Subtree(Parents(t.channels), id) then [] else KidsOf(Detached(t, id), p);
  }

  lemma {:induction false} RemovedWellFormed(t: Tree, id: Id)
    requires WellFormed(t)
    ensures WellFormed(Removed(t, id))
    ensures id !in Removed(t, id).channels
  {
    if id in t.channels {
      RemovedSound(t, {}, id);
      BelowSelf(Parents(t.channels), id);
    }
  }

  /** A new channel's record, written before the channel is put in a list. */
  lemma {:induction false} CreatedSound(t: Tree, c: Channel)
    requires WellFormed(t) && c.id != TOP && c.id !in t.channels
    requires c.parentID == TOP || c.parentID in t.channels
    ensures Sound(t.(channels := t.channels[c.id := c]), {c.id})
    ensures Parents(t.channels[c.id := c]) == Parents(t.channels)[c.id := c.parentID]
  {
    var par := Parents(t.channels);
    if Below(par, c.parentID, c.id) {
      var n: nat :| Up(par, c.parentID, n) == c.id;
      BelowInside(par, c.parentID, n);
    }
    PutSound(t, {}, c);
    assert {} + {c.id} == {c.id};
  }

  lemma {:induction false} CreatedWellFormed(t: Tree, id: Id, parent: Id, changes: Changes)
    requires WellFormed(t) && id != TOP
    ensures WellFormed(CreatedIn(t, id, parent, changes))
  {
    RemovedWellFormed(t, id);
    var t1 := if id in t.channels then Removed(t, id).(consistent := false) else t;
    assert WellFormed(t1);
    var p := ParentOr(t1.channels, parent);
    var order := if changes.order.Some? then changes.order.value else TOP;
    var c := Channel(id, p, order, ApplyProps(CREATED_DEFAULTS, changes.props));
    CreatedSound(t1, c);
    var t2 := Tree(t1.channels[id := c], t1.kids, t1.consistent && p == parent);
    assert Sound(t2, {id});
    InsertSound(t2, {id}, p, id, changes.order);
    assert {id} - {id} == {};
  }

  lemma {:induction false} PropsSound(t: Tree, out: set<Id>, id: Id, props: Props)
    requires Sound(t, out) && id in t.channels
    ensures Sound(t.(channels := t.channels[id := t.channels[id].(props := props)]), out)
    ensures Parents(t.channels[id := t.channels[id].(props := props)]) == Parents(t.channels)
  {
    var r := t.(channels := t.channels[id := t.channels[id].(props := props)]);
    assert Parents(r.channels) == Parents(t.channels);
    forall p | p in r.kids
      ensures KidsOk(r.channels, r.kids, p)
    {
      assert KidsOk(t.channels, t.kids, p);
    }
    forall x | x in r.channels
      ensures Listed(r.channels, r.kids, x) <==> x !in out
    {
      assert Listed(t.channels, t.kids, x) <==> x !in out;
    }
  }

  /** Taking a channel out of its list and putting it back elsewhere in it. */
  lemma {:induction false} ReorderedWellFormed(t: Tree, id: Id, after: Option<Id>)
    requires WellFormed(t) && id in t.channels
    ensures WellFormed(Inserted(Detached(t, id), t.channels[id].parentID, id, after))
  {
    DetachSound(t, {}, id);
    assert {} + {id} == {id};
    InsertSound(Detached(t, id), {id}, t.channels[id].parentID, id, after);
    assert {id} - {id} == {};
  }

  lemma {:induction false} EditedWellFormed(t: Tree, id: Id, changes: Changes)
    requires WellFormed(t)
    ensures WellFormed(EditedIn(t, id, changes))
  {
    if id in t.channels {
      var c := t.channels[id];
      var props := ApplyProps(c.props, changes.props);
      PropsSound(t, {}, id, props);
      if changes.order.Some? {
        ReorderedWellFormed(t.(channels := t.channels[id := c.(props := props)]), id, changes.order);
      }
    }
  }

  /** Where a move puts a channel: the named parent, or its own when that is under itself. */
  ghost function NewParent(t: Tree, id: Id, parent: Id): Id
    requires id in t.channels
  {
    var named := ParentOr(t.channels, parent);
    if Below(Parents(t.channels), named, id) then t.channels[id].parentID else named
  }

  lemma {:induction false} NewParentOutside(t: Tree, id: Id, parent: Id)
    requires WellFormed(t) && id in t.channels
    ensures var p := NewParent(t, id, parent);
      (p == TOP || p in t.channels) && !Below(Parents(t.channels), p, id)
  {
    ParentNotBelow(Parents(t.channels), id);
    RootedParent(Parents(t.channels), id);
  }

  /** A move with the channel out of its old list, not yet in the new one. */
  ghost function Lifted(t: Tree, id: Id, parent: Id): Tree
    requires id in t.channels
  {
    var d := Detached(t, id);
    Tree(d.channels[id := t.channels[id].(parentID := NewParent(t, id, parent))], d.kids,
         t.consistent && (parent == TOP || parent in t.channels) && !Below(Parents(t.channels), parent, id))
  }

  lemma {:induction false} LiftedSound(t: Tree, id: Id, parent: Id)
    requires WellFormed(t) && id in t.channels
    ensures Sound(Lifted(t, id, parent), {id})
    ensures Parents(Lifted(t, id, parent).channels) == Parents(t.channels)[id := NewParent(t, id, parent)]
  {
    NewParentOutside(t, id, parent);
    DetachSound(t, {}, id);
    assert {} + {id} == {id};
    PutSound(Detached(t, id), {id}, t.channels[id].(parentID := NewParent(t, id, parent)));
    assert {id} + {id} == {id};
  }

  lemma {:induction false} MovedIsLiftedAndInserted(t: Tree, id: Id, parent: Id, order: Id)
    requires WellFormed(t) && id in t.channels
    ensures MovedIn(t, id, parent, order)
         == Inserted(Lifted(t, id, parent), NewParent(t, id, parent), id, Some(order))
  {
    var par := Parents(t.channels);
    BelowOutside(par, TOP, id);
    if parent != TOP && parent !in t.channels {
      BelowOutside(par, parent, id);
    }
  }

  lemma {:induction false} MovedWellFormed(t: Tree, id: Id, parent: Id, order: Id)
    requires WellFormed(t)
    ensures WellFormed(MovedIn(t, id, parent, order))
  {
    if id in t.channels {
      LiftedSound(t, id, parent);
      MovedIsLiftedAndInserted(t, id, parent, order);
      InsertSound(Lifted(t, id, parent), {id}, NewParent(t, id, parent), id, Some(order));
      assert {id} - {id} == {};
    }
  }

  lemma {:induction false} AppliedWellFormed(t: Tree, e: Event)
    requires WellFormed(t)
    ensures WellFormed(Applied(t, e))
  {
    if e.channelID != TOP {
      match e
      case Created(id, parent, changes) => CreatedWellFormed(t, id, parent, changes);
      case Edited(id, changes) => EditedWellFormed(t, id, changes);
      case Moved(id, parent, order) => MovedWellFormed(t, id, parent, order);
      case Deleted(id) => RemovedWellFormed(t, id);
    }
  }
}
