/** What a creation and an edit do to a tree, whatever ids the event carries. */
module TreeEffects {
  import opened Wrappers
  import opened Forest
  import opened ChannelTree
  import opened TreeSteps
  import opened TreeLaws

  /** Two sets of channels alike but for `id`: the same channels, parents and properties. */
  ghost predicate AlikeBut(a: map<Id, Channel>, b: map<Id, Channel>, id: Id) {
    forall x | x != id :: (x in a <==> x in b) && (x in a ==> a[x].parentID == b[x].parentID && a[x].props == b[x].props)
  }

  /** Under every parent the channels but `id` are in the same order. */
  ghost predicate SameOrderBut(t': Tree, t: Tree, id: Id) {
    forall q {:trigger KidsOf(t', q)} {:trigger KidsOf(t, q)} :: Without(KidsOf(t', q), id) == Without(KidsOf(t, q), id)
  }

  /** A channel that is in no list yet put behind the sibling named, or else last. */
  lemma {:induction false} InsertEffect(t: Tree, id: Id, after: Option<Id>)
    requires Sound(t, {id}) && id in t.channels
    ensures var p := t.channels[id].parentID; var t' := Inserted(t, p, id, after);
      && t'.channels.Keys == t.channels.Keys && AlikeBut(t'.channels, t.channels, id)
      && t'.channels[id] == t.channels[id].(order := Landing(KidsOf(t, p), after))
  {
    var p := t.channels[id].parentID;
    var t' := Inserted(t, p, id, after);
    InsertSound(t, {id}, p, id, after);
    InsertProps(t, p, id, after);
    InsertedOrder(t, {id}, p, id, after);
    assert forall x | x in t.channels :: Parents(t'.channels)[x] == Parents(t.channels)[x];
    assert t'.channels[id].id == id == t.channels[id].id;
  }

  lemma {:induction false} NotListed(t: Tree, id: Id, q: Id)
    requires Sound(t, {id}) && id in t.channels
    ensures Without(KidsOf(t, q), id) == KidsOf(t, q)
  {
    assert !Listed(t.channels, t.kids, id);
    assert q in t.kids ==> KidsOk(t.channels, t.kids, q);
    WithoutAbsent(KidsOf(t, q), id);
  }

  lemma {:induction false} InsertKeepsOrder(t: Tree, id: Id, after: Option<Id>)
    requires Sound(t, {id}) && id in t.channels
    ensures SameOrderBut(Inserted(t, t.channels[id].parentID, id, after), t, id)
  {
    InsertLists(t, {id}, t.channels[id].parentID, id, after);
    forall q
      ensures Without(KidsOf(Inserted(t, t.channels[id].parentID, id, after), q), id) == Without(KidsOf(t, q), id)
    {
      NotListed(t, id, q);
    }
  }

  lemma {:induction false} SameOrderTwice(a: Tree, b: Tree, c: Tree, id: Id)
    requires SameOrderBut(a, b, id) && SameOrderBut(b, c, id)
    ensures SameOrderBut(a, c, id)
  {
    forall q
      ensures Without(KidsOf(a, q), id) == Without(KidsOf(c, q), id)
    {
      assert Without(KidsOf(a, q), id) == Without(KidsOf(b, q), id);
    }
  }

  /** A new channel put into a tree. */
  lemma {:induction false} EnterEffect(t: Tree, c: Channel, after: Option<Id>, ok: bool)
    requires WellFormed(t) && c.id != TOP && c.id !in t.channels && (c.parentID == TOP || c.parentID in t.channels)
    ensures var t' := Inserted(Tree(t.channels[c.id := c], t.kids, ok), c.parentID, c.id, after);
      && t'.channels.Keys == t.channels.Keys + {c.id}
      && AlikeBut(t'.channels, t.channels, c.id) && SameOrderBut(t', t, c.id)
      && t'.channels[c.id] == c.(order := Landing(KidsOf(t, c.parentID), after))
  {
    var t1 := Tree(t.channels[c.id := c], t.kids, ok);
    EnteredSound(t, c, ok);
    InsertEffect(t1, c.id, after);
    InsertKeepsOrder(t1, c.id, after);
    SameOrderTwice(Inserted(t1, c.parentID, c.id, after), t1, t, c.id);
  }

  /** The new channel is there, and in no list yet. */
  lemma {:induction false} EnteredSound(t: Tree, c: Channel, ok: bool)
    requires WellFormed(t) && c.id != TOP && c.id !in t.channels && (c.parentID == TOP || c.parentID in t.channels)
    ensures var t1 := Tree(t.channels[c.id := c], t.kids, ok);
      && Sound(t1, {c.id}) && SameOrderBut(t1, t, c.id) && KidsOf(t1, c.parentID) == KidsOf(t, c.parentID)
  {
    CreatedSound(t, c);
    var t1 := Tree(t.channels[c.id := c], t.kids, ok);
    assert Sound(t1, {c.id});
    forall q
      ensures Without(KidsOf(t1, q), c.id) == Without(KidsOf(t, q), c.id)
    {
      assert KidsOf(t1, q) == KidsOf(t, q);
    }
  }

  /** What a channel holds right after it is created. */
  function Newborn(id: Id, parent: Id, changes: Changes, order: Id): Channel {
    Channel(id, parent, order, ApplyProps(CREATED_DEFAULTS, changes.props))
  }

  function Cleared(t: Tree, t0: Tree, id: Id, parent: Id): bool {
    if id in t.channels then false else t.consistent && ParentOr(t0.channels, parent) == parent
  }

  /** The tree a creation starts from: what was there under its id goes first, with all below it. */
  ghost function MadeRoom(t: Tree, id: Id): Tree {
    if id in t.channels then Removed(t, id) else t
  }

  lemma {:induction false} CreatedIsEntered(t: Tree, id: Id, parent: Id, changes: Changes)
    requires id != TOP
    ensures var t0 := MadeRoom(t, id); var p := ParentOr(t0.channels, parent);
      var c := Newborn(id, p, changes, if changes.order.Some? then changes.order.value else TOP);
      Applied(t, Created(id, parent, changes))
      == Inserted(Tree(t0.channels[id := c], t0.kids, Cleared(t, t0, id, parent)), p, id, changes.order)
  {
  }

  /** A creation adds one channel, under the parent named if the tree has it and else at the top,
      behind the sibling named or else last, and moves no other. */
  lemma {:induction false} CreateEffect(t: Tree, id: Id, parent: Id, changes: Changes)
    requires WellFormed(t) && id != TOP
    ensures var t0 := MadeRoom(t, id);
      var t' := Applied(t, Created(id, parent, changes)); var p := ParentOr(t0.channels, parent);
      && t'.channels.Keys == t0.channels.Keys + {id} && id !in t0.channels
      && AlikeBut(t'.channels, t0.channels, id) && SameOrderBut(t', t0, id)
      && t'.channels[id] == Newborn(id, p, changes, Landing(KidsOf(t0, p), changes.order))
  {
    var t0 := MadeRoom(t, id);
    RemovedWellFormed(t, id);
    CreatedIsEntered(t, id, parent, changes);
    var order := if changes.order.Some? then changes.order.value else TOP;
    EnterEffect(t0, Newborn(id, ParentOr(t0.channels, parent), changes, order), changes.order, Cleared(t, t0, id, parent));
  }

  lemma {:induction false} PropsTwice(props: Props, a: map<Property, Option<string>>, b: map<Property, Option<string>>)
    ensures ApplyProps(ApplyProps(props, a), b) == ApplyProps(props, a + b)
  {
  }

  /** An edit without an order changes the channel's properties and nothing else; and two of them are
      one, the later over the earlier. */
  lemma {:induction false} RenameEffect(t: Tree, id: Id, a: Changes, b: Changes)
    requires WellFormed(t) && id in t.channels && a.order.None? && b.order.None?
    ensures Applied(t, Edited(id, a))
         == t.(channels := t.channels[id := t.channels[id].(props := ApplyProps(t.channels[id].props, a.props))])
    ensures Applied(Applied(t, Edited(id, a)), Edited(id, b)) == Applied(t, Edited(id, Changes(None, a.props + b.props)))
  {
    assert id in Parents(t.channels);
    PropsTwice(t.channels[id].props, a.props, b.props);
  }

  /** Out of its list with its new properties, and then in again. */
  lemma {:induction false} ReorderSteps(t: Tree, id: Id, changes: Changes, t1: Tree)
    requires WellFormed(t) && id in t.channels && changes.order.Some?
    requires t1 == t.(channels :=
                      t.channels[id := t.channels[id].(props := ApplyProps(t.channels[id].props, changes.props))])
    ensures WellFormed(t1)
    ensures Applied(t, Edited(id, changes)) == Inserted(Detached(t1, id), t.channels[id].parentID, id, changes.order)
  {
    assert id in Parents(t.channels);
    PropsSound(t, {}, id, t1.channels[id].props);
  }

  lemma {:induction false} ReorderedChannels(t: Tree, t1: Tree, id: Id, order: Option<Id>)
    requires WellFormed(t1) && id in t1.channels && t1.channels.Keys == t.channels.Keys && t1.kids == t.kids
    requires AlikeBut(t1.channels, t.channels, id)
    ensures var t', c := Inserted(Detached(t1, id), t1.channels[id].parentID, id, order), t1.channels[id];
      && t'.channels.Keys == t.channels.Keys && AlikeBut(t'.channels, t.channels, id)
      && t'.channels[id] == c.(order := Landing(Without(KidsOf(t, c.parentID), id), order))
  {
    TakenOut(t1, id);
    InsertEffect(Detached(t1, id), id, order);
    DetachedLists(t1, id, t1.channels[id].parentID);
  }

  lemma {:induction false} ReorderedLists(t: Tree, t1: Tree, id: Id, order: Option<Id>)
    requires WellFormed(t1) && id in t1.channels && t1.kids == t.kids
    ensures SameOrderBut(Inserted(Detached(t1, id), t1.channels[id].parentID, id, order), t, id)
  {
    TakenOut(t1, id);
    InsertKeepsOrder(Detached(t1, id), id, order);
    TakenOutOrder(t, t1, id);
    SameOrderTwice(Inserted(Detached(t1, id), t1.channels[id].parentID, id, order), Detached(t1, id), t, id);
  }

  /** One with an order also puts it behind the sibling named or else last, under its own parent, and
      moves no other. */
  lemma {:induction false} ReorderEffect(t: Tree, id: Id, changes: Changes)
    requires WellFormed(t) && id in t.channels && changes.order.Some?
    ensures var t' := Applied(t, Edited(id, changes)); var c := t.channels[id];
      && t'.channels.Keys == t.channels.Keys
      && AlikeBut(t'.channels, t.channels, id) && SameOrderBut(t', t, id)
      && t'.channels[id] == Channel(id, c.parentID, Landing(Without(KidsOf(t, c.parentID), id), changes.order),
                                    ApplyProps(c.props, changes.props))
  {
    var c := t.channels[id];
    var t1 := t.(channels := t.channels[id := c.(props := ApplyProps(c.props, changes.props))]);
    ReorderSteps(t, id, changes, t1);
    ReorderedChannels(t, t1, id, changes.order);
    ReorderedLists(t, t1, id, changes.order);
    assert id in Parents(t.channels);
  }

  lemma {:induction false} TakenOutOrder(t: Tree, t1: Tree, id: Id)
    requires WellFormed(t1) && id in t1.channels && t1.kids == t.kids && Sound(Detached(t1, id), {id})
    requires id in Detached(t1, id).channels
    ensures SameOrderBut(Detached(t1, id), t, id)
  {
    forall q
      ensures Without(KidsOf(Detached(t1, id), q), id) == Without(KidsOf(t, q), id)
    {
      DetachedLists(t1, id, q);
      NotListed(Detached(t1, id), id, q);
      assert KidsOf(t1, q) == KidsOf(t, q);
    }
  }

  lemma {:induction false} TakenOut(t: Tree, id: Id)
    requires WellFormed(t) && id in t.channels
    ensures var d := Detached(t, id);
      && Sound(d, {id}) && d.channels.Keys == t.channels.Keys
      && AlikeBut(d.channels, t.channels, id) && d.channels[id] == t.channels[id]
  {
    DetachSound(t, {}, id);
    assert {} + {id} == {id};
    DetachProps(t, id);
    var d := Detached(t, id);
    assert forall x | x in t.channels :: Parents(d.channels)[x] == Parents(t.channels)[x];
  }
}
