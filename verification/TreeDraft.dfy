/** The mutable copy of a tree that one operation changes in place. */
module TreeDraft {
  import opened Wrappers
  import opened Forest
  import opened ChannelTree
  import opened TreeSteps
  import opened TreeRemove

  class Draft {
    var channels: map<Id, Channel>
    var kids: map<Id, seq<Id>>
    var consistent: bool

    function Value(): Tree
      reads this
    {
      Tree(channels, kids, consistent)
    }

    constructor (t: Tree)
      ensures Value() == t
    {
      channels, kids, consistent := t.channels, t.kids, t.consistent;
    }

    /** In place, `Settled`: one channel of `list` after the other. */
    method Settle(list: seq<Id>)
      requires Distinct(list) && forall x | x in list :: x in channels
      modifies this`channels
      ensures channels == Settled(old(channels), list)
    {
      for i := 0 to |list|
        invariant channels.Keys == old(channels).Keys
        invariant forall x | x in channels ::
          channels[x] == if x in list[..i] then old(channels)[x].(order := Before(list, x)) else old(channels)[x]
      {
        var channel := channels[list[i]];
        var order := if i == 0 then TOP else list[i - 1];
        BeforeAt(list, i);
        assert list[..i + 1] == list[..i] + [list[i]];
        assert list[i] !in list[..i] by {
          forall j | 0 <= j < i
            ensures list[j] != list[i]
          {
            assert At(list, j) != At(list, i);
          }
        }
        if channel.order != order {
          channels := channels[list[i] := channel.(order := order)];
        }
      }
      assert list[..|list|] == list;
    }

    /** In place, `Inserted`, for a channel that stands in no list. */
    method Insert(parent: Id, id: Id, after: Option<Id>)
      requires id in channels && id !in KidsOf(Value(), parent) && Distinct(KidsOf(Value(), parent))
      requires forall x | x in KidsOf(Value(), parent) :: x in channels
      modifies this
      ensures Value() == Inserted(old(Value()), parent, id, after)
    {
      var list := if parent in kids then kids[parent] else [];
      var at := |list|;
      if after == Some(TOP) {
        at := 0;
      } else {
        var index := if after.None? then -1 else IndexOf(list, after.value);
        if index >= 0 {
          at := index + 1;
        } else {
          consistent := false;
        }
      }
      var next := list[..at] + [id] + list[at..];
      assert next == Spliced(list, at, id);
      SplicedOnce(list, at, id);
      kids := kids[parent := next];
      Settle(next);
    }

    /** In place, `Detached`: the channel stays, and stands in no list. */
    method Detach(id: Id)
      requires id in channels
      requires channels[id].parentID in kids ==> KidsOk(channels, kids, channels[id].parentID)
      modifies this
      ensures Value() == Detached(old(Value()), id)
    {
      var channel := channels[id];
      if channel.parentID !in kids {
        return;
      }
      var list := kids[channel.parentID];
      var next := Without(list, id);
      WithoutMembers(list, id);
      WithoutDistinct(list, id);
      if |next| == 0 {
        kids := kids - {channel.parentID};
      } else {
        kids := kids[channel.parentID := next];
        Settle(next);
      }
    }

    /** `Below`, by following the parents up; a forest's paths all end. */
    method IsWithin(id: Id, ancestor: Id) returns (within: bool)
      requires Grounded(channels) && (id == TOP || id in channels) && ancestor in channels
      ensures within <==> Below(Parents(channels), id, ancestor)
    {
      var at := id;
      ghost var par := Parents(channels);
      if id == TOP {
        BelowOutside(par, TOP, ancestor);
        assert ancestor in par;
        return false;
      }
      assert Below(par, id, TOP) by { assert id in par; }
      ghost var n: nat :| Up(par, id, n) == TOP;
      while at in channels
        invariant Below(par, id, ancestor) <==> Below(par, at, ancestor)
        invariant Up(par, at, n) == TOP
        decreases n
      {
        BelowStep(par, at, ancestor);
        if channels[at].id == ancestor {
          return true;
        }
        at := channels[at].parentID;
        n := n - 1;
      }
      BelowOutside(par, at, ancestor);
      return false;
    }

    /** `ParentOr`; a parent that is unknown leaves the tree inconsistent. */
    method ParentOf(parent: Id) returns (p: Id)
      modifies this`consistent
      ensures p == ParentOr(channels, parent)
      ensures consistent == (old(consistent) && p == parent)
    {
      if parent == TOP || parent in channels {
        return parent;
      }
      consistent := false;
      return TOP;
    }

    /** Write a new channel's record and put it in its parent's list. */
    method Enter(c: Channel, after: Option<Id>)
      requires WellFormed(Value()) && c.id != TOP && c.id !in channels
      requires c.parentID == TOP || c.parentID in channels
      modifies this
      ensures Value() == Inserted(old(Value()).(channels := old(channels)[c.id := c]), c.parentID, c.id, after)
    {
      CreatedSound(Value(), c);
      channels := channels[c.id := c];
      ListOfOut(Value(), {c.id}, c.parentID, c.id);
      Insert(c.parentID, c.id, after);
    }

    method Create(id: Id, parent: Id, changes: Changes)
      requires WellFormed(Value()) && id != TOP
      modifies this
      ensures Value() == CreatedIn(old(Value()), id, parent, changes)
    {
      ghost var t := Value();
      if id in channels {
        // What the id stood for before goes, with all it carries.
        consistent := false;
        Remove(id, {});
        RemovedWellFormed(t.(consistent := false), id);
      }
      var p := ParentOf(parent);
      var order := if changes.order.Some? then changes.order.value else TOP;
      Enter(Channel(id, p, order, ApplyProps(CREATED_DEFAULTS, changes.props)), changes.order);
    }

    method Edit(id: Id, changes: Changes)
      requires WellFormed(Value())
      modifies this
      ensures Value() == EditedIn(old(Value()), id, changes)
    {
      if id !in channels {
        consistent := false;
        return;
      }
      // Only the properties change here; an order is looked at below.
      var channel := channels[id];
      channels := channels[id := channel.(props := ApplyProps(channel.props, changes.props))];
      PropsSound(old(Value()), {}, id, channels[id].props);
      if changes.order.None? {
        return;
      }
      DetachSound(Value(), {}, id);
      assert Listed(channels, kids, id) && KidsOk(channels, kids, channel.parentID);
      Detach(id);
      assert {} + {id} == {id};
      ListOfOut(Value(), {id}, channel.parentID, id);
      Insert(channel.parentID, id, changes.order);
    }

    method Move(id: Id, parent: Id, order: Id)
      requires WellFormed(Value())
      modifies this
      ensures Value() == MovedIn(old(Value()), id, parent, order)
    {
      if id !in channels {
        consistent := false;
        return;
      }
      ghost var t := Value();
      var channel := channels[id];
      var p := ParentOf(parent);
      assert channels == t.channels && kids == t.kids;
      var under := IsWithin(p, id);
      if under {
        // A place it carries itself is none to go to.
        consistent := false;
        p := channel.parentID;
      }
      assert p == NewParent(t, id, parent);
      assert consistent == Lifted(t, id, parent).consistent by {
        BelowOutside(Parents(channels), TOP, id);
        if parent !in channels {
          BelowOutside(Parents(channels), parent, id);
        }
      }
      assert channel.parentID in kids ==> KidsOk(channels, kids, channel.parentID);
      Detach(id);
      channels := channels[id := channel.(parentID := p)];
      assert Value() == Lifted(t, id, parent);
      assert id in channels && id !in KidsOf(Value(), p) && Distinct(KidsOf(Value(), p))
          && forall x | x in KidsOf(Value(), p) :: x in channels by {
        LiftedSound(t, id, parent);
        ListOfOut(Value(), {id}, p, id);
      }
      Insert(p, id, Some(order));
      MovedIsLiftedAndInserted(t, id, parent, order);
    }

    method Remove(id: Id, ghost out: set<Id>)
      requires Sound(Value(), out) && id !in out
      requires id in channels ==> forall x | x in out :: !Below(Parents(channels), x, id)
      modifies this
      ensures Value() == Removed(old(Value()), id)
      decreases if id in channels then Subtree(Parents(channels), id) else {}
    {
      if id !in channels {
        consistent := false;
        return;
      }
      ghost var t := Value();
      ghost var d := Detached(t, id);
      DetachSound(t, out, id);
      DetachedHasKids(t, out, id);
      assert Listed(channels, kids, id) && KidsOk(channels, kids, channels[id].parentID);
      Detach(id);
      ghost var all := out + {id};
      assert Uprooted(d, all, id);
      // Each child goes with its own subtree, and the list shrinks to nothing.
      if id in kids {
        consistent := false;
        var below := kids[id];
        ghost var gone: set<Id> := {};
        EmptyingStart(d, all, id, below);
        for i := 0 to |below|
          invariant Emptying(d, all, id, below, Value(), i, gone)
        {
          NextUnderId(d, all, id, below, Value(), i, gone);
          EmptyingStep(d, all, id, below, Value(), i, gone);
          gone := gone + Subtree(Parents(channels), below[i]);
          Remove(below[i], all);
        }
        EmptyingDone(d, all, id, below, Value(), gone);
      } else {
        EmptyingStart(d, all, id, []);
        EmptyingDone(d, all, id, [], d.(consistent := false), {});
      }
      kids := kids - {id};
      channels := channels - {id};
    }
  }

  /** `Applied`, on a copy: `t` is a value, and `next` another. */
  method Apply(t: Tree, e: Event) returns (next: Tree)
    requires WellFormed(t)
    ensures next == Applied(t, e) && WellFormed(next)
  {
    var draft := new Draft(t);
    AppliedWellFormed(t, e);
    if e.channelID == TOP {
      draft.consistent := false;
    } else {
      match e
      case Created(id, parent, changes) => draft.Create(id, parent, changes);
      case Edited(id, changes) => draft.Edit(id, changes);
      case Moved(id, parent, order) => draft.Move(id, parent, order);
      case Deleted(id) => draft.Remove(id, {});
    }
    next := draft.Value();
  }

  /** `out` runs from a top-level channel down to `id`, each the parent of the next. */
  ghost predicate IsPath(t: Tree, out: seq<Channel>, id: Id) {
    && out != []
    && (forall i | 0 <= i < |out| :: out[i].id in t.channels && t.channels[out[i].id] == out[i])
    && out[0].parentID == TOP
    && (forall i {:trigger out[i].parentID} | 0 < i < |out| :: out[i].parentID == out[i - 1].id)
    && out[|out| - 1].id == id
  }

  /** A list of distinct members of a set is no longer than the set. */
  lemma {:induction false} DistinctFits(list: seq<Id>, S: set<Id>)
    requires Distinct(list) && forall x | x in list :: x in S
    ensures |list| <= |S|
  {
    if list != [] {
      DistinctTail(list);
      DistinctFits(list[1..], S - {list[0]});
    }
  }

  /** The path down to `id`, if it is a channel. The loop may take as many steps as there
      are channels, and in a forest no path needs more. */
  method Path(t: Tree, id: Id) returns (out: seq<Channel>)
    requires WellFormed(t)
    ensures id !in t.channels ==> out == []
    ensures id in t.channels ==> IsPath(t, out, id)
  {
    out := [];
    var at := id;
    ghost var par := Parents(t.channels);
    ghost var seen: seq<Id> := [];
    while at in t.channels && |out| <= |t.channels|
      invariant |seen| == |out|
      invariant at == Up(par, id, |seen|)
      invariant id in t.channels ==> at == TOP || at in t.channels
      invariant id !in t.channels ==> out == [] && at == id
      invariant forall i | 0 <= i < |seen| :: seen[i] == Up(par, id, i) && seen[i] in t.channels
      invariant out == [] ==> at == id
      invariant out != [] ==> out[0].parentID == at && out[|out| - 1].id == id
      invariant forall i | 0 <= i < |out| :: out[i].id in t.channels && t.channels[out[i].id] == out[i]
      invariant forall i {:trigger out[i].parentID} | 0 < i < |out| :: out[i].parentID == out[i - 1].id
      decreases |t.channels| + 1 - |out|
    {
      var channel := t.channels[at];
      UpCompose(par, id, |seen|, 1);
      assert Up(par, at, 1) == Up(par, channel.parentID, 0) == channel.parentID;
      RootedParent(par, at);
      assert at in par;
      out := [channel] + out;
      seen := seen + [at];
      at := channel.parentID;
    }
    PathDistinct(par, id, seen);
    DistinctFits(seen, t.channels.Keys);
    assert |t.channels.Keys| == |t.channels|;
  }

  lemma {:induction false} PathDistinct(par: map<Id, Id>, id: Id, seen: seq<Id>)
    requires Rooted(par)
    requires forall i | 0 <= i < |seen| :: seen[i] == Up(par, id, i) && seen[i] in par
    ensures Distinct(seen)
  {
    forall i, j | 0 <= i < j < |seen|
      ensures At(seen, i) != At(seen, j)
    {
      UpCompose(par, id, i, j - i);
      NoLoop(par, seen[i], j - i);
    }
  }
}
