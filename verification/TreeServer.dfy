/** The server's side of the tree: a parent and a predecessor for each channel. One step changes
    them and sends one event, which does not say that the sibling behind changed too. A tree that
    applies the events is proved equal, after any run, to the one built from the server's rows. */
module TreeServer {
  import opened Wrappers
  import opened Forest
  import opened ChannelTree
  import opened TreeSteps
  import opened TreeLaws
  import opened SiblingSort
  import opened TreeBuild
  import opened TreeFrom
  import opened TreeRoundTrip

  /** The rows a listing would have now, by id; `order` is the predecessor. */
  type Server = map<Id, Channel>

  datatype Step =
    | Create(id: Id, parent: Id, after: Id, props: map<Property, Option<string>>)
    | Move(id: Id, parent: Id, after: Id)
    | Reorder(id: Id, after: Id, props: map<Property, Option<string>>)
    | Rename(id: Id, props: map<Property, Option<string>>)
    | Delete(id: Id)

  /** The channel that came after `after` now comes after the new one, `id`. */
  function PutBehind(s: Server, parent: Id, after: Id, id: Id): Server {
    map x | x in s ::
      if x != id && s[x].parentID == parent && s[x].order == after then s[x].(order := id) else s[x]
  }

  /** The channel that came after `id` now comes after what `id` came after. */
  function TakeOut(s: Server, id: Id): Server
    requires id in s
  {
    map x | x in s && x != id ::
      if s[x].parentID == s[id].parentID && s[x].order == id then s[x].(order := s[id].order) else s[x]
  }

  function PutIn(s: Server, c: Channel): Server {
    PutBehind(s, c.parentID, c.order, c.id)[c.id := c]
  }

  ghost predicate IsSibling(s: Server, parent: Id, after: Id) {
    after == TOP || (after in s && s[after].parentID == parent)
  }

  /** What the server lets happen. It deletes a channel's subchannels before the channel. */
  ghost predicate Enabled(s: Server, step: Step) {
    match step
    case Create(id, parent, after, _) =>
      id != TOP && id !in s && (parent == TOP || parent in s) && IsSibling(s, parent, after)
    case Move(id, parent, after) =>
      && id in s && (parent == TOP || parent in s) && !Below(Parents(s), parent, id)
      && IsSibling(s, parent, after) && after != id
    case Reorder(id, after, _) =>
      id in s && IsSibling(s, s[id].parentID, after) && after != id
    case Rename(id, _) => id in s
    case Delete(id) => id in s && forall x | x in s :: s[x].parentID != id
  }

  ghost function Next(s: Server, step: Step): Server
    requires Enabled(s, step)
  {
    match step
    case Create(id, parent, after, props) =>
      PutIn(s, Channel(id, parent, after, ApplyProps(CREATED_DEFAULTS, props)))
    case Move(id, parent, after) =>
      PutIn(TakeOut(s, id), s[id].(parentID := parent, order := after))
    case Reorder(id, after, props) =>
      PutIn(TakeOut(s, id), s[id].(order := after, props := ApplyProps(s[id].props, props)))
    case Rename(id, props) => s[id := s[id].(props := ApplyProps(s[id].props, props))]
    case Delete(id) => TakeOut(s, id)
  }

  /** What the server tells of a step. */
  function EventOf(step: Step): Event {
    match step
    case Create(id, parent, after, props) => Created(id, parent, Changes(Some(after), props))
    case Move(id, parent, after) => Moved(id, parent, after)
    case Reorder(id, after, props) => Edited(id, Changes(Some(after), props))
    case Rename(id, props) => Edited(id, Changes(None, props))
    case Delete(id) => Deleted(id)
  }

  // ---- One list ---------------------------------------------------------------------

  lemma {:induction false} BeforeSpliced(list: seq<Id>, at: nat, id: Id, j: nat)
    requires Distinct(list) && id !in list && TOP !in list && at <= |list| && j < |list|
    ensures Before(Spliced(list, at, id), list[j]) == if Prev(list, j) == Prev(list, at) then id else Prev(list, j)
  {
    var next := Spliced(list, at, id);
    SplicedOnce(list, at, id);
    var k := if j < at then j else j + 1;
    assert next[k] == list[j];
    BeforeAt(next, k);
    if j != at && Prev(list, j) == Prev(list, at) {
      if at < |list| {
        PrevInjective(list, j, at);
      } else if j > 0 {
        Differ(list, j - 1, at - 1);
      }
    }
  }

  lemma {:induction false} BeforeWithout(list: seq<Id>, id: Id, j: nat)
    requires Distinct(list) && id in list && j < |list| && list[j] != id
    ensures Before(Without(list, id), list[j])
         == if Prev(list, j) == id && j > 0 then Prev(list, IndexOf(list, id)) else Prev(list, j)
  {
    var i := IndexOf(list, id);
    WithoutSplit(list, id);
    WithoutDistinct(list, id);
    var next := Without(list, id);
    var k := if j < i then j else j - 1;
    assert next[k] == list[j];
    BeforeAt(next, k);
    if j > 0 && list[j - 1] == id && j - 1 != i {
      Differ(list, j - 1, i);
    }
    if j < i {
      assert j > 0 ==> next[j - 1] == list[j - 1];
    } else if j == i + 1 {
      assert k == i && (i > 0 ==> next[i - 1] == list[i - 1]);
    } else {
      assert next[k - 1] == list[j - 1];
    }
  }

  lemma {:induction false} NotTop(t: Tree, out: set<Id>, p: Id)
    requires Sound(t, out)
    ensures TOP !in KidsOf(t, p)
  {
    if p in t.kids {
      assert KidsOk(t.channels, t.kids, p);
      forall x | x in t.kids[p]
        ensures x != TOP
      {
        assert x in Parents(t.channels);
      }
    }
  }

  lemma {:induction false} InsertRefinesAt(t: Tree, id: Id, after: Id, x: Id)
    requires Sound(t, {id}) && id in t.channels && x in t.channels && x != id
    requires IsPlace(KidsOf(t, t.channels[id].parentID), after)
    ensures Inserted(t, t.channels[id].parentID, id, Some(after)).channels[x]
         == PutBehind(t.channels, t.channels[id].parentID, after, id)[x]
  {
    var parent := t.channels[id].parentID;
    var list := KidsOf(t, parent);
    var at := Place(list, Some(after)).value;
    ListOfOut(t, {id}, parent, id);
    NotTop(t, {id}, parent);
    SplicedOnce(list, at, id);
    assert Prev(list, at) == after;
    assert Listed(t.channels, t.kids, x);
    if x in list {
      var j := IndexOf(list, x);
      assert KidsOk(t.channels, t.kids, parent);
      assert t.channels[list[j]].order == Prev(list, j);
      BeforeSpliced(list, at, id, j);
    }
  }

  /** Inserting rewrites the order of the newcomer and of the one channel behind it. */
  lemma {:induction false} InsertRefines(t: Tree, id: Id, after: Id)
    requires Sound(t, {id}) && id in t.channels
    requires IsPlace(KidsOf(t, t.channels[id].parentID), after)
    ensures Inserted(t, t.channels[id].parentID, id, Some(after)).channels
         == PutIn(t.channels, t.channels[id].(order := after))
  {
    var r := Inserted(t, t.channels[id].parentID, id, Some(after));
    InsertedOrder(t, {id}, t.channels[id].parentID, id, Some(after));
    InsertProps(t, t.channels[id].parentID, id, Some(after));
    InsertSound(t, {id}, t.channels[id].parentID, id, Some(after));
    assert t.channels[id].id == id && r.channels[id].id == id;
    assert Parents(r.channels)[id] == Parents(t.channels)[id];
    forall x | x in t.channels && x != id
      ensures r.channels[x] == PutBehind(t.channels, t.channels[id].parentID, after, id)[x]
    {
      InsertRefinesAt(t, id, after, x);
    }
  }

  /** Detaching rewrites the order of the one channel behind. */
  lemma {:induction false} DetachRefines(t: Tree, id: Id)
    requires WellFormed(t) && id in t.channels
    ensures Detached(t, id).channels - {id} == TakeOut(t.channels, id)
  {
    var parent := t.channels[id].parentID;
    assert Listed(t.channels, t.kids, id);
    var list := t.kids[parent];
    assert KidsOk(t.channels, t.kids, parent);
    NotTop(t, {}, parent);
    var next := Without(list, id);
    WithoutMembers(list, id);
    DetachProps(t, id);
    var i := IndexOf(list, id);
    assert t.channels[list[i]].order == Prev(list, i);
    forall x | x in t.channels && x != id
      ensures Detached(t, id).channels[x] == TakeOut(t.channels, id)[x]
    {
      assert Listed(t.channels, t.kids, x);
      if x in list {
        var j := IndexOf(list, x);
        assert t.channels[list[j]].order == Prev(list, j);
        BeforeWithout(list, id, j);
        assert x in next && next != [];
      }
    }
  }

  // ---- One step ------------------------------------------------------------------------

  lemma {:induction false} SiblingIsPlace(t: Tree, out: set<Id>, parent: Id, after: Id)
    requires Sound(t, out) && after !in out
    ensures IsSibling(t.channels, parent, after) <==> IsPlace(KidsOf(t, parent), after)
  {
    if after in t.channels {
      assert Listed(t.channels, t.kids, after);
    }
    if parent in t.kids {
      assert KidsOk(t.channels, t.kids, parent);
    }
  }

  /** Putting a new channel in its place. */
  lemma {:induction false} EnterRefines(t: Tree, c: Channel)
    requires WellFormed(t) && c.id != TOP && c.id !in t.channels
    requires c.parentID == TOP || c.parentID in t.channels
    requires IsPlace(KidsOf(t, c.parentID), c.order)
    ensures Inserted(t.(channels := t.channels[c.id := c]), c.parentID, c.id, Some(c.order)).channels
         == PutIn(t.channels, c)
  {
    var t1 := t.(channels := t.channels[c.id := c]);
    CreatedSound(t, c);
    assert KidsOf(t1, c.parentID) == KidsOf(t, c.parentID);
    InsertRefines(t1, c.id, c.order);
    PutInTwice(t.channels, c);
  }

  lemma {:induction false} PutInTwice(s: Server, c: Channel)
    ensures PutIn(s[c.id := c], c) == PutIn(s, c)
  {
  }

  lemma {:induction false} CreateRefines(t: Tree, step: Step)
    requires WellFormed(t) && step.Create? && Enabled(t.channels, step)
    ensures Applied(t, EventOf(step)).channels == Next(t.channels, step)
    ensures Placeable(t, EventOf(step))
  {
    SiblingIsPlace(t, {}, step.parent, step.after);
    EnterRefines(t, Channel(step.id, step.parent, step.after, ApplyProps(CREATED_DEFAULTS, step.props)));
  }

  /** Taking a channel out and putting it back, with a new parent or order, as the server does. */
  lemma {:induction false} ReplaceRefines(t: Tree, d: Tree, c: Channel)
    requires WellFormed(t) && c.id in t.channels
    requires d.channels == Detached(t, c.id).channels[c.id := c.(order := t.channels[c.id].order)]
    requires Sound(d, {c.id}) && IsPlace(KidsOf(d, c.parentID), c.order)
    ensures Inserted(d, c.parentID, c.id, Some(c.order)).channels == PutIn(TakeOut(t.channels, c.id), c)
  {
    DetachRefines(t, c.id);
    InsertRefines(d, c.id, c.order);
    PutInOver(d.channels, TakeOut(t.channels, c.id), c);
  }

  lemma {:induction false} PutInOver(d: Server, s: Server, c: Channel)
    requires c.id in d && d - {c.id} == s
    ensures PutIn(d, c) == PutIn(s, c)
  {
    forall x | x in s
      ensures x != c.id && x in d && d[x] == s[x]
    {
      assert x in d - {c.id};
    }
    forall x | x in d && x != c.id
      ensures x in s
    {
      assert x in d - {c.id};
    }
  }

  lemma {:induction false} MoveRefines(t: Tree, step: Step)
    requires WellFormed(t) && step.Move? && Enabled(t.channels, step)
    ensures Applied(t, EventOf(step)).channels == Next(t.channels, step)
    ensures Placeable(t, EventOf(step))
  {
    var Move(id, parent, after) := step;
    assert id in Parents(t.channels);
    LiftedSound(t, id, parent);
    LiftedLists(t, id, parent, parent);
    MovedIsLiftedAndInserted(t, id, parent, after);
    SiblingIsPlace(t, {}, parent, after);
    WithoutMembers(KidsOf(t, parent), id);
    ReplaceRefines(t, Lifted(t, id, parent), t.channels[id].(parentID := parent, order := after));
  }

  /** The tree with a channel's properties changed, and that channel taken out of its list. */
  lemma {:induction false} ReorderReady(t: Tree, t1: Tree, id: Id, after: Id, props: Props)
    requires WellFormed(t) && id in t.channels && after != id && IsSibling(t.channels, t.channels[id].parentID, after)
    requires t1 == t.(channels := t.channels[id := t.channels[id].(props := props)])
    ensures WellFormed(t1) && Sound(Detached(t1, id), {id})
    ensures id in Detached(t1, id).channels && Detached(t1, id).channels[id] == t1.channels[id]
    ensures IsPlace(KidsOf(t, t.channels[id].parentID), after)
    ensures IsPlace(KidsOf(Detached(t1, id), t.channels[id].parentID), after)
  {
    var parent := t.channels[id].parentID;
    PropsSound(t, {}, id, props);
    DetachSound(t1, {}, id);
    assert {} + {id} == {id};
    DetachedLists(t1, id, parent);
    SiblingIsPlace(t, {}, parent, after);
    WithoutMembers(KidsOf(t, parent), id);
  }

  lemma {:induction false} ReorderPlaceable(t: Tree, id: Id, after: Id, props: map<Property, Option<string>>)
    requires WellFormed(t) && Enabled(t.channels, Reorder(id, after, props))
    ensures Placeable(t, Edited(id, Changes(Some(after), props)))
  {
    assert id in Parents(t.channels);
    SiblingIsPlace(t, {}, t.channels[id].parentID, after);
    WithoutMembers(KidsOf(t, t.channels[id].parentID), id);
  }

  lemma {:induction false} ReorderChannels(t: Tree, id: Id, after: Id, props: Props)
    requires WellFormed(t) && id in t.channels && after != id && IsSibling(t.channels, t.channels[id].parentID, after)
    ensures var c := t.channels[id];
      var t1 := t.(channels := t.channels[id := c.(props := props)]);
      Inserted(Detached(t1, id), c.parentID, id, Some(after)).channels
      == PutIn(TakeOut(t.channels, id), c.(order := after, props := props))
  {
    var c := t.channels[id];
    var t1 := t.(channels := t.channels[id := c.(props := props)]);
    ReorderReady(t, t1, id, after, props);
    assert id in Parents(t.channels);
    ReplaceRefines(t1, Detached(t1, id), t1.channels[id].(order := after));
    assert TakeOut(t1.channels, id) == TakeOut(t.channels, id);
  }

  lemma {:induction false} ReorderRefines(t: Tree, step: Step)
    requires WellFormed(t) && step.Reorder? && Enabled(t.channels, step)
    ensures Applied(t, EventOf(step)).channels == Next(t.channels, step)
    ensures Placeable(t, EventOf(step))
  {
    var Reorder(id, after, props) := step;
    assert id in Parents(t.channels);
    ReorderPlaceable(t, id, after, props);
    ReorderChannels(t, id, after, ApplyProps(t.channels[id].props, props));
  }

  lemma {:induction false} RenameRefines(t: Tree, step: Step)
    requires WellFormed(t) && step.Rename? && Enabled(t.channels, step)
    ensures Applied(t, EventOf(step)).channels == Next(t.channels, step)
    ensures Placeable(t, EventOf(step))
  {
    assert step.id in Parents(t.channels);
  }

  lemma {:induction false} DeleteRefines(t: Tree, step: Step)
    requires WellFormed(t) && step.Delete? && Enabled(t.channels, step)
    ensures Applied(t, EventOf(step)).channels == Next(t.channels, step)
    ensures Placeable(t, EventOf(step))
  {
    var par := Parents(t.channels);
    assert step.id in par;
    BelowSelf(par, step.id);
    forall x | x in Subtree(par, step.id)
      ensures x == step.id
    {
      if x != step.id {
        var n: nat :| Up(par, x, n) == step.id;
        var c := BelowChild(par, step.id, x, n);
      }
    }
    assert Subtree(par, step.id) == {step.id};
    DetachRefines(t, step.id);
  }

  /** Each thing that happens on the server, and the event it sends, keep the tree equal to the
      server's listing, and consistent. */
  lemma {:induction false} StepRefines(t: Tree, step: Step)
    requires WellFormed(t) && t.consistent && Enabled(t.channels, step)
    ensures var t' := Applied(t, EventOf(step));
      WellFormed(t') && t'.consistent && t'.channels == Next(t.channels, step)
  {
    AppliedWellFormed(t, EventOf(step));
    ConsistentIff(t, EventOf(step));
    match step
    case Create(_, _, _, _) => CreateRefines(t, step);
    case Move(_, _, _) => MoveRefines(t, step);
    case Reorder(_, _, _) => ReorderRefines(t, step);
    case Rename(_, _) => RenameRefines(t, step);
    case Delete(_) => DeleteRefines(t, step);
  }

  // ---- Every run --------------------------------------------------------------------------

  ghost predicate AllEnabled(s: Server, steps: seq<Step>)
    decreases |steps|
  {
    steps == [] || (Enabled(s, steps[0]) && AllEnabled(Next(s, steps[0]), steps[1..]))
  }

  ghost function Run(s: Server, steps: seq<Step>): Server
    requires AllEnabled(s, steps)
    decreases |steps|
  {
    if steps == [] then s else Run(Next(s, steps[0]), steps[1..])
  }

  function EventsOf(steps: seq<Step>): seq<Event>
    decreases |steps|
  {
    if steps == [] then [] else [EventOf(steps[0])] + EventsOf(steps[1..])
  }

  lemma {:induction false} RunRefines(t: Tree, steps: seq<Step>)
    requires WellFormed(t) && t.consistent && AllEnabled(t.channels, steps)
    ensures var t' := AppliedAll(t, EventsOf(steps));
      WellFormed(t') && t'.consistent && t'.channels == Run(t.channels, steps)
    decreases |steps|
  {
    if steps != [] {
      StepRefines(t, steps[0]);
      var events := EventsOf(steps);
      assert events[1..] == EventsOf(steps[1..]);
      RunRefines(Applied(t, EventOf(steps[0])), steps[1..]);
    }
  }

  /** Incremental equals rebuild: a tree built from one listing and led by the events of
      everything that then happens is the tree built from the last listing, in any order. */
  lemma {:induction false} IncrementalEqualsRebuild(first: seq<Channel>, steps: seq<Step>, last: seq<Channel>)
    requires RowsAreTree(first) && AllEnabled(RowMap(first), steps)
    requires UniqueIds(last) && RowMap(last) == Run(RowMap(first), steps)
    ensures AppliedAll(Build(first), EventsOf(steps)) == Build(last)
  {
    var t := Build(first);
    BuildWellFormed(first);
    BuildConsistentIff(first);
    BuildKeepsRows(first);
    RunRefines(t, steps);
    RoundTrip(AppliedAll(t, EventsOf(steps)), last);
  }
}
