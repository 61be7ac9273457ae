/** What the channel events do to a well-formed tree, over every run of events. */
module TreeLaws {
  import opened Wrappers
  import opened Forest
  import opened ChannelTree
  import opened TreeSteps

  /** Every run of events, with any ids in them, keeps the tree well formed. */
  lemma {:induction false} RunWellFormed(t: Tree, events: seq<Event>)
    requires WellFormed(t)
    ensures WellFormed(AppliedAll(t, events))
    decreases |events|
  {
    if events != [] {
      AppliedWellFormed(t, events[0]);
      RunWellFormed(Applied(t, events[0]), events[1..]);
    }
  }

  // ---- Consistency ----------------------------------------------------------

  ghost predicate IsPlace(list: seq<Id>, after: Id) {
    after == TOP || after in list
  }

  /** The event names only channels and siblings the tree holds, as the server's events do. */
  ghost predicate Placeable(t: Tree, e: Event) {
    match e
    case Created(id, parent, changes) =>
      && id != TOP && id !in t.channels
      && (parent == TOP || parent in t.channels)
      && changes.order.Some? && IsPlace(KidsOf(t, parent), changes.order.value)
    case Edited(id, changes) =>
      && id in t.channels
      && (changes.order.Some? ==>
            IsPlace(Without(KidsOf(t, t.channels[id].parentID), id), changes.order.value))
    case Moved(id, parent, order) =>
      && id in t.channels
      && (parent == TOP || parent in t.channels)
      && !Below(Parents(t.channels), parent, id)
      && IsPlace(Without(KidsOf(t, parent), id), order)
    case Deleted(id) =>
      id in t.channels && forall x | x in t.channels :: t.channels[x].parentID != id
  }

  ghost predicate AllPlaceable(t: Tree, events: seq<Event>)
    decreases |events|
  {
    events == [] || (Placeable(t, events[0]) && AllPlaceable(Applied(t, events[0]), events[1..]))
  }

  lemma {:induction false} InsertedConsistent(t: Tree, parent: Id, id: Id, after: Option<Id>)
    ensures Inserted(t, parent, id, after).consistent
       <==> t.consistent && after.Some? && IsPlace(KidsOf(t, parent), after.value)
  {
  }

  lemma {:induction false} DetachedConsistent(t: Tree, id: Id)
    requires id in t.channels
    ensures Detached(t, id).consistent == t.consistent
  {
  }

  /** An event keeps a tree consistent exactly when the tree can place it. */
  lemma {:induction false} ConsistentIff(t: Tree, e: Event)
    requires WellFormed(t)
    ensures Applied(t, e).consistent <==> t.consistent && Placeable(t, e)
  {
    match e
    case Created(id, parent, changes) =>
      if id != TOP {
        CreateConsistentIff(t, id, parent, changes);
      }
    case Edited(id, changes) =>
      if id in t.channels {
        EditConsistentIff(t, id, changes);
      }
    case Moved(id, parent, order) =>
      if id in t.channels {
        MoveConsistentIff(t, id, parent, order);
      }
    case Deleted(id) =>
      if id in t.channels {
        HasKids(t, id);
      }
  }

  lemma {:induction false} CreateConsistentIff(t: Tree, id: Id, parent: Id, changes: Changes)
    requires WellFormed(t) && id != TOP
    ensures CreatedIn(t, id, parent, changes).consistent
       <==> t.consistent && Placeable(t, Created(id, parent, changes))
  {
    var t1 := if id in t.channels then Removed(t, id).(consistent := false) else t;
    var p := ParentOr(t1.channels, parent);
    var order := if changes.order.Some? then changes.order.value else TOP;
    var c := Channel(id, p, order, ApplyProps(CREATED_DEFAULTS, changes.props));
    var t2 := Tree(t1.channels[id := c], t1.kids, t1.consistent && p == parent);
    assert CreatedIn(t, id, parent, changes) == Inserted(t2, p, id, changes.order);
    InsertedConsistent(t2, p, id, changes.order);
  }

  lemma {:induction false} EditConsistentIff(t: Tree, id: Id, changes: Changes)
    requires WellFormed(t) && id in t.channels
    ensures EditedIn(t, id, changes).consistent <==> t.consistent && Placeable(t, Edited(id, changes))
  {
    var props := ApplyProps(t.channels[id].props, changes.props);
    var p := t.channels[id].parentID;
    var t1 := t.(channels := t.channels[id := t.channels[id].(props := props)]);
    if changes.order.Some? {
      PropsSound(t, {}, id, props);
      DetachedLists(t1, id, p);
      DetachedConsistent(t1, id);
      InsertedConsistent(Detached(t1, id), p, id, changes.order);
      assert EditedIn(t, id, changes) == Inserted(Detached(t1, id), p, id, changes.order);
      assert KidsOf(t1, p) == KidsOf(t, p);
    }
  }

  lemma {:induction false} MoveConsistentIff(t: Tree, id: Id, parent: Id, order: Id)
    requires WellFormed(t) && id in t.channels
    ensures MovedIn(t, id, parent, order).consistent <==> t.consistent && Placeable(t, Moved(id, parent, order))
  {
    var np := NewParent(t, id, parent);
    MovedIsLiftedAndInserted(t, id, parent, order);
    InsertedConsistent(Lifted(t, id, parent), np, id, Some(order));
    LiftedLists(t, id, parent, np);
    if (parent == TOP || parent in t.channels) && !Below(Parents(t.channels), parent, id) {
      NewParentIsNamed(t, id, parent);
    }
  }

  lemma {:induction false} NewParentIsNamed(t: Tree, id: Id, parent: Id)
    requires id in t.channels && (parent == TOP || parent in t.channels) && !Below(Parents(t.channels), parent, id)
    ensures NewParent(t, id, parent) == parent
  {
  }

  lemma {:induction false} HasKids(t: Tree, id: Id)
    requires WellFormed(t)
    ensures id in t.kids <==> exists x | x in t.channels :: t.channels[x].parentID == id
  {
    if id in t.kids {
      assert KidsOk(t.channels, t.kids, id);
      assert t.kids[id][0] in t.channels;
    }
    forall x | x in t.channels && t.channels[x].parentID == id
      ensures id in t.kids
    {
      assert Listed(t.channels, t.kids, x);
    }
  }

  /** Detaching a channel takes it out of every list and touches no other. */
  lemma {:induction false} DetachedLists(t: Tree, id: Id, p: Id)
    requires WellFormed(t) && id in t.channels
    ensures KidsOf(Detached(t, id), p) == Without(KidsOf(t, p), id)
  {
    DetachSound(t, {}, id);
    if p != t.channels[id].parentID {
      assert p in t.kids ==> KidsOk(t.channels, t.kids, p);
      WithoutAbsent(KidsOf(t, p), id);
    }
  }

  /** Over a run the tree stays consistent exactly while every event can be placed; once
      false, `consistent` stays false. */
  lemma {:induction false} RunConsistentIff(t: Tree, events: seq<Event>)
    requires WellFormed(t)
    ensures AppliedAll(t, events).consistent <==> t.consistent && AllPlaceable(t, events)
    decreases |events|
  {
    if events != [] {
      AppliedWellFormed(t, events[0]);
      ConsistentIff(t, events[0]);
      RunConsistentIff(Applied(t, events[0]), events[1..]);
    }
  }

  // ---- What a move and a delete do --------------------------------------------

  /** The order a channel ends up with: the place named, or after the last sibling. */
  function Landing(list: seq<Id>, after: Option<Id>): Id {
    if after.Some? && (after.value == TOP || after.value in list) then after.value
    else Prev(list, |list|)
  }

  lemma {:induction false} InsertedOrder(t: Tree, out: set<Id>, parent: Id, id: Id, after: Option<Id>)
    requires Sound(t, out) && id in out && id in t.channels
    requires t.channels[id].parentID == parent
    ensures Inserted(t, parent, id, after).channels[id].order == Landing(KidsOf(t, parent), after)
  {
    var list := KidsOf(t, parent);
    var at := Place(list, after);
    var i := if at.Some? then at.value else |list|;
    ListOfOut(t, out, parent, id);
    SplicedOnce(list, i, id);
    BeforeAt(Spliced(list, i, id), i);
    assert Spliced(list, i, id)[i] == id;
  }

  ghost predicate SameProps(a: map<Id, Channel>, b: map<Id, Channel>) {
    forall x | x in a && x in b :: a[x].props == b[x].props
  }

  lemma {:induction false} DetachProps(t: Tree, id: Id)
    requires id in t.channels
    ensures Detached(t, id).channels.Keys == t.channels.Keys
    ensures SameProps(Detached(t, id).channels, t.channels)
  {
  }

  lemma {:induction false} InsertProps(t: Tree, parent: Id, id: Id, after: Option<Id>)
    ensures Inserted(t, parent, id, after).channels.Keys == t.channels.Keys
    ensures SameProps(Inserted(t, parent, id, after).channels, t.channels)
  {
  }

  lemma {:induction false} MovedProps(t: Tree, id: Id, parent: Id, order: Id)
    requires WellFormed(t) && id in t.channels
    ensures MovedIn(t, id, parent, order).channels.Keys == t.channels.Keys
    ensures SameProps(MovedIn(t, id, parent, order).channels, t.channels)
  {
    var t2 := Lifted(t, id, parent);
    MovedIsLiftedAndInserted(t, id, parent, order);
    DetachProps(t, id);
    InsertProps(t2, NewParent(t, id, parent), id, Some(order));
    assert forall x | x in t.channels :: t2.channels[x].props == t.channels[x].props;
  }

  lemma {:induction false} MoveParents(t: Tree, id: Id, parent: Id, order: Id)
    requires WellFormed(t) && id in t.channels
    ensures Applied(t, Moved(id, parent, order)).channels.Keys == t.channels.Keys
    ensures Parents(Applied(t, Moved(id, parent, order)).channels) == Parents(t.channels)[id := NewParent(t, id, parent)]
  {
    assert id != TOP by { assert id in Parents(t.channels); }
    LiftedSound(t, id, parent);
    MovedIsLiftedAndInserted(t, id, parent, order);
    InsertSound(Lifted(t, id, parent), {id}, NewParent(t, id, parent), id, Some(order));
  }

  lemma {:induction false} MoveOrder(t: Tree, id: Id, parent: Id, order: Id)
    requires WellFormed(t) && id in t.channels && id in Applied(t, Moved(id, parent, order)).channels
    ensures Applied(t, Moved(id, parent, order)).channels[id].order
         == Landing(Without(KidsOf(t, NewParent(t, id, parent)), id), Some(order))
  {
    assert id != TOP by { assert id in Parents(t.channels); }
    LiftedSound(t, id, parent);
    MovedIsLiftedAndInserted(t, id, parent, order);
    InsertedOrder(Lifted(t, id, parent), {id}, NewParent(t, id, parent), id, Some(order));
    LiftedLists(t, id, parent, NewParent(t, id, parent));
  }

  /** A move, also one aimed under the channel itself, keeps every channel and its
      properties, changes one parent, carries the subtree, and puts the channel behind the
      sibling named or else last. */
  lemma {:induction false} MoveEffect(t: Tree, id: Id, parent: Id, order: Id)
    requires WellFormed(t) && id in t.channels
    ensures var t' := Applied(t, Moved(id, parent, order)); var np := NewParent(t, id, parent);
      && t'.channels.Keys == t.channels.Keys
      && SameProps(t'.channels, t.channels)
      && Parents(t'.channels) == Parents(t.channels)[id := np]
      && Subtree(Parents(t'.channels), id) == Subtree(Parents(t.channels), id)
      && t'.channels[id].order == Landing(Without(KidsOf(t, np), id), Some(order))
  {
    MoveParents(t, id, parent, order);
    MoveOrder(t, id, parent, order);
    assert id in Parents(t.channels);
    MovedProps(t, id, parent, order);
    SubtreeMoved(Parents(t.channels), id, NewParent(t, id, parent));
  }

  lemma {:induction false} LiftedLists(t: Tree, id: Id, parent: Id, p: Id)
    requires WellFormed(t) && id in t.channels
    ensures KidsOf(Lifted(t, id, parent), p) == Without(KidsOf(t, p), id)
  {
    DetachedLists(t, id, p);
    assert KidsOf(Lifted(t, id, parent), p) == KidsOf(Detached(t, id), p);
  }

  /** A move leaves all other channels in their order, under every parent. */
  lemma {:induction false} MoveKeepsSiblings(t: Tree, id: Id, parent: Id, order: Id, p: Id)
    requires WellFormed(t) && id in t.channels
    ensures Without(KidsOf(MovedIn(t, id, parent, order), p), id) == Without(KidsOf(t, p), id)
  {
    LiftedSound(t, id, parent);
    MovedIsLiftedAndInserted(t, id, parent, order);
    LiftedLists(t, id, parent, p);
    InsertLists(Lifted(t, id, parent), {id}, NewParent(t, id, parent), id, Some(order));
    WithoutMembers(KidsOf(t, p), id);
    WithoutAbsent(KidsOf(Lifted(t, id, parent), p), id);
  }

  lemma {:induction false} SubtreeMoved(par: map<Id, Id>, id: Id, np: Id)
    requires id in par
    ensures Subtree(par[id := np], id) == Subtree(par, id)
  {
    var par' := par[id := np];
    assert par'[id := par[id]] == par;
    forall x | x in par
      ensures Below(par', x, id) <==> Below(par, x, id)
    {
      if Below(par, x, id) {
        var n: nat :| Up(par, x, n) == id;
        UpReaches(par, id, np, x, n);
      }
      if Below(par', x, id) {
        var n: nat :| Up(par', x, n) == id;
        UpReaches(par', id, par[id], x, n);
      }
    }
  }

  /** A delete removes exactly the channel and its descendants, and moves nothing else. */
  lemma {:induction false} DeleteEffect(t: Tree, id: Id)
    requires WellFormed(t) && id in t.channels
    ensures var t' := Applied(t, Deleted(id)); var gone := Subtree(Parents(t.channels), id);
      && t'.channels.Keys == t.channels.Keys - gone
      && SameProps(t'.channels, t.channels)
      && Parents(t'.channels) == Parents(t.channels) - gone
      && forall p | p !in gone :: KidsOf(t', p) == Without(KidsOf(t, p), id)
  {
    DetachProps(t, id);
    RemovedParents(t, {}, id);
    assert id != TOP by { assert id in Parents(t.channels); }
    forall p | p !in Subtree(Parents(t.channels), id)
      ensures KidsOf(Removed(t, id), p) == Without(KidsOf(t, p), id)
    {
      RemovedLists(t, {}, id, p);
      assert p in t.kids ==> KidsOk(t.channels, t.kids, p);
      if p != t.channels[id].parentID {
        WithoutAbsent(KidsOf(t, p), id);
      }
    }
  }
}
