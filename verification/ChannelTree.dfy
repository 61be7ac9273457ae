/** Channel trees as values, and one function for each thing an event does to them. `WellFormed`
    is the invariant they are all proved to keep. */
module ChannelTree {
  import opened Wrappers
  import opened Forest

  /** What a channel has besides its id, its parent and its order. */
  datatype Property =
    | Name | Topic | Description | HasPassword | IsDefault | IsPermanent | IsSemiPermanent
    | Codec | CodecQuality | MaxClients | MaxFamilyClients | TotalClients | TotalFamilyClients
    | NeededSubscribePower | NeededTalkPower | IconID | Uid | CodecLatencyFactor | IsUnencrypted
    | IsMaxClientsUnlimited | IsMaxFamilyClientsUnlimited | IsMaxFamilyClientsInherited
    | DeleteDelay | NamePhonetic | IsForcedSilence | BannerURL | BannerMode | EmptyFor
    | StorageQuota | FilePath

  /** A channel's properties, as the server writes their values. */
  type Props = map<Property, string>

  datatype Channel = Channel(id: Id, parentID: Id, order: Id, props: Props)

  datatype Tree = Tree(channels: map<Id, Channel>, kids: map<Id, seq<Id>>, consistent: bool)

  /** What a notification said of a channel. A property mapped to `None` is cleared. */
  datatype Changes = Changes(order: Option<Id>, props: map<Property, Option<string>>)

  datatype Event =
    | Created(channelID: Id, parentID: Id, changes: Changes)
    | Edited(channelID: Id, changes: Changes)
    | Moved(channelID: Id, parentID: Id, order: Id)
    | Deleted(channelID: Id)

  /** What a created channel holds when the notification does not say. */
  const CREATED_DEFAULTS: Props := map[
    Name := "",
    Topic := "",
    Codec := "4",
    CodecQuality := "5",
    MaxClients := "-1",
    MaxFamilyClients := "-1",
    IsPermanent := "0",
    IsSemiPermanent := "0",
    IsDefault := "0",
    HasPassword := "0",
    CodecLatencyFactor := "1",
    DeleteDelay := "0",
    IsMaxClientsUnlimited := "1",
    IsMaxFamilyClientsUnlimited := "1",
    IsMaxFamilyClientsInherited := "0",
    NeededTalkPower := "0",
    IsForcedSilence := "0",
    NamePhonetic := "",
    IconID := "0",
    BannerURL := "",
    BannerMode := "0"
  ]

  function ApplyProps(props: Props, changes: map<Property, Option<string>>): Props {
    map k | k in props.Keys + changes.Keys && (k in changes ==> changes[k].Some?) ::
      if k in changes then changes[k].value else props[k]
  }

  // ---- Lists of ids ---------------------------------------------------------

  /** `list[i]`, under a name of its own so that `Distinct` is used only where it is asked for. */
  function At(list: seq<Id>, i: nat): Id
    requires i < |list|
  {
    list[i]
  }

  ghost predicate Distinct(list: seq<Id>) {
    forall i, j {:trigger At(list, i), At(list, j)} | 0 <= i < j < |list| :: At(list, i) != At(list, j)
  }

  /** The first position of `x`, or -1. */
  function IndexOf(list: seq<Id>, x: Id): (i: int)
    ensures -1 <= i < |list|
    ensures i >= 0 ==> list[i] == x
    ensures i < 0 <==> x !in list
  {
    if list == [] then -1
    else if list[0] == x then 0
    else
      var i := IndexOf(list[1..], x);
      if i < 0 then -1 else i + 1
  }

  /** The order that position `i` of a list implies: the id before it, or the top level's. */
  function Prev(list: seq<Id>, i: nat): Id
    requires i <= |list|
  {
    if i == 0 then TOP else list[i - 1]
  }

  /** The sibling before `x`, or the top level's id for the first. */
  function Before(list: seq<Id>, x: Id): Id {
    var i := IndexOf(list, x);
    if i < 0 then TOP else Prev(list, i)
  }

  /** `list` without `x`, the rest in order. */
  function Without(list: seq<Id>, x: Id): (r: seq<Id>)
    ensures |r| <= |list|
  {
    if list == [] then []
    else if list[0] == x then Without(list[1..], x)
    else [list[0]] + Without(list[1..], x)
  }

  function KidsOf(t: Tree, parent: Id): seq<Id> {
    if parent in t.kids then t.kids[parent] else []
  }

  // ---- What each step does, as a function -----------------------------------

  function Parents(channels: map<Id, Channel>): map<Id, Id> {
    map x | x in channels :: channels[x].parentID
  }

  /** The channels with, for each of `list`, the id before it there as its order. */
  function Settled(channels: map<Id, Channel>, list: seq<Id>): map<Id, Channel> {
    map x | x in channels ::
      if x in list then channels[x].(order := Before(list, x)) else channels[x]
  }

  /** Where `after` says a newcomer goes in `list`, if it says a place there. */
  function Place(list: seq<Id>, after: Option<Id>): (at: Option<nat>)
    ensures at.Some? ==> at.value <= |list|
  {
    if after == Some(TOP) then Some(0)
    else if after.Some? && IndexOf(list, after.value) >= 0 then Some(IndexOf(list, after.value) + 1)
    else None
  }

  function Inserted(t: Tree, parent: Id, id: Id, after: Option<Id>): Tree {
    var list := KidsOf(t, parent);
    var at := Place(list, after);
    var i := if at.Some? then at.value else |list|;
    var next := Spliced(list, i, id);
    Tree(Settled(t.channels, next), t.kids[parent := next], t.consistent && at.Some?)
  }

  function Detached(t: Tree, id: Id): Tree
    requires id in t.channels
  {
    var parent := t.channels[id].parentID;
    if parent !in t.kids then t
    else
      var next := Without(t.kids[parent], id);
      if next == [] then t.(kids := t.kids - {parent})
      else Tree(Settled(t.channels, next), t.kids[parent := next], t.consistent)
  }

  /** The channel and all below it are gone, and the siblings behind it are settled. */
  ghost function Removed(t: Tree, id: Id): Tree {
    if id !in t.channels then t.(consistent := false)
    else
      var gone := Subtree(Parents(t.channels), id);
      var d := Detached(t, id);
      Tree(d.channels - gone, d.kids - gone, t.consistent && id !in t.kids)
  }

  /** `parent`, if it is one of `channels`; else `TOP`. */
  function ParentOr(channels: map<Id, Channel>, parent: Id): Id {
    if parent == TOP || parent in channels then parent else TOP
  }

  ghost function CreatedIn(t: Tree, id: Id, parent: Id, changes: Changes): Tree {
    var t1 := if id in t.channels then Removed(t, id).(consistent := false) else t;
    var p := ParentOr(t1.channels, parent);
    var order := if changes.order.Some? then changes.order.value else TOP;
    var c := Channel(id, p, order, ApplyProps(CREATED_DEFAULTS, changes.props));
    Inserted(Tree(t1.channels[id := c], t1.kids, t1.consistent && p == parent), p, id, changes.order)
  }

  function EditedIn(t: Tree, id: Id, changes: Changes): Tree {
    if id !in t.channels then t.(consistent := false)
    else
      var c := t.channels[id];
      var t1 := t.(channels := t.channels[id := c.(props := ApplyProps(c.props, changes.props))]);
      if changes.order.None? then t1
      else Inserted(Detached(t1, id), c.parentID, id, changes.order)
  }

  ghost function MovedIn(t: Tree, id: Id, parent: Id, order: Id): Tree {
    if id !in t.channels then t.(consistent := false)
    else
      var c := t.channels[id];
      var named := ParentOr(t.channels, parent);
      var under := Below(Parents(t.channels), named, id);
      var p := if under then c.parentID else named;
      var d := Detached(t, id);
      Inserted(Tree(d.channels[id := c.(parentID := p)], d.kids,
                    d.consistent && named == parent && !under),
               p, id, Some(order))
  }

  /** The tree after an event. No channel has the top level's id. */
  ghost function Applied(t: Tree, e: Event): Tree {
    if e.channelID == TOP then t.(consistent := false)
    else match e
      case Created(id, parent, changes) => CreatedIn(t, id, parent, changes)
      case Edited(id, changes) => EditedIn(t, id, changes)
      case Moved(id, parent, order) => MovedIn(t, id, parent, order)
      case Deleted(id) => Removed(t, id)
  }

  ghost function AppliedAll(t: Tree, events: seq<Event>): Tree
    decreases |events|
  {
    if events == [] then t else AppliedAll(Applied(t, events[0]), events[1..])
  }

  // ---- The invariant --------------------------------------------------------

  /** `list` may stand under `parent`: no id twice, every one a channel with that parent, and with
      the id before it in the list as its order. */
  ghost predicate ListOk(channels: map<Id, Channel>, parent: Id, list: seq<Id>) {
    && list != []
    && Distinct(list)
    && (forall i | 0 <= i < |list| :: list[i] in channels && channels[list[i]].parentID == parent)
    && (forall i {:trigger Prev(list, i)} | 0 <= i < |list| :: channels[list[i]].order == Prev(list, i))
  }

  /** The channels hang under the top level, each under its own id. */
  ghost predicate Grounded(channels: map<Id, Channel>) {
    && (forall x | x in channels :: channels[x].id == x)
    && Rooted(Parents(channels))
  }

  ghost predicate Listed(channels: map<Id, Channel>, kids: map<Id, seq<Id>>, x: Id)
    requires x in channels
  {
    channels[x].parentID in kids && x in kids[channels[x].parentID]
  }

  ghost predicate KidsOk(channels: map<Id, Channel>, kids: map<Id, seq<Id>>, p: Id)
    requires p in kids
  {
    ListOk(channels, p, kids[p])
  }

  ghost predicate Arranged(channels: map<Id, Channel>, kids: map<Id, seq<Id>>, out: set<Id>) {
    && Grounded(channels)
    && (forall x {:trigger Listed(channels, kids, x)} | x in channels :: Listed(channels, kids, x) <==> x !in out)
    && (forall p {:trigger KidsOk(channels, kids, p)} | p in kids :: KidsOk(channels, kids, p))
  }

  /** The tree is a forest, except that the channels of `out` are in no list. */
  ghost predicate Sound(t: Tree, out: set<Id>) {
    Arranged(t.channels, t.kids, out)
  }

  /** Each id is in exactly one list, once, its parent's; every id is under the top level;
      every order is the sibling before. */
  ghost predicate WellFormed(t: Tree) {
    Sound(t, {})
  }

  // ---- Lemmas about lists ---------------------------------------------------

  lemma {:induction false} WithoutMembers(list: seq<Id>, x: Id)
    ensures forall y :: y in Without(list, x) <==> y in list && y != x
  {
    if list != [] {
      WithoutMembers(list[1..], x);
      forall y
        ensures y in list <==> y == list[0] || y in list[1..]
      {
      }
    }
  }

  lemma {:induction false} WithoutAbsent(list: seq<Id>, x: Id)
    requires x !in list
    ensures Without(list, x) == list
  {
    if list != [] {
      WithoutAbsent(list[1..], x);
    }
  }

  lemma {:induction false} DistinctTail(list: seq<Id>)
    requires Distinct(list) && list != []
    ensures list[0] !in list[1..] && Distinct(list[1..])
  {
    forall i, j | 0 <= i < j < |list| - 1
      ensures At(list[1..], i) != At(list[1..], j)
    {
      assert At(list, i + 1) != At(list, j + 1);
    }
    forall i | 0 <= i < |list| - 1
      ensures list[1..][i] != list[0]
    {
      assert At(list, 0) != At(list, i + 1);
    }
  }

  lemma {:induction false} WithoutSplit(list: seq<Id>, x: Id)
    requires Distinct(list) && x in list
    ensures var i := IndexOf(list, x); Without(list, x) == list[..i] + list[i + 1..]
  {
    DistinctTail(list);
    if list[0] == x {
      WithoutAbsent(list[1..], x);
    } else {
      WithoutSplit(list[1..], x);
      var i := IndexOf(list[1..], x);
      assert list[..i + 1] == [list[0]] + list[1..][..i];
    }
  }

  lemma {:induction false} WithoutDistinct(list: seq<Id>, x: Id)
    requires Distinct(list)
    ensures Distinct(Without(list, x))
  {
    if x in list {
      WithoutSplit(list, x);
      var i := IndexOf(list, x);
      forall j, k | 0 <= j < k < |list| - 1
        ensures At(Without(list, x), j) != At(Without(list, x), k)
      {
        assert At(list, if j < i then j else j + 1) != At(list, if k < i then k else k + 1);
      }
    } else {
      WithoutAbsent(list, x);
    }
  }

  function Spliced(list: seq<Id>, at: nat, x: Id): seq<Id>
    requires at <= |list|
  {
    list[..at] + [x] + list[at..]
  }

  /** Putting a new id into a list and taking it out again gives the list. */
  lemma {:induction false} SplicedOnce(list: seq<Id>, at: nat, x: Id)
    requires Distinct(list) && x !in list && at <= |list|
    ensures Distinct(Spliced(list, at, x))
    ensures forall y :: y in Spliced(list, at, x) <==> y in list || y == x
    ensures Without(Spliced(list, at, x), x) == list
  {
    var next := Spliced(list, at, x);
    assert list == list[..at] + list[at..];
    SplicedDistinct(list, at, x);
    WithoutMembers(next, x);
    assert next[at] == x;
    IndexOfAt(next, at);
    WithoutSplit(next, x);
    assert next[..at] == list[..at] && next[at + 1..] == list[at..];
  }

  lemma {:induction false} SplicedDistinct(list: seq<Id>, at: nat, x: Id)
    requires Distinct(list) && x !in list && at <= |list|
    ensures Distinct(Spliced(list, at, x))
  {
    var next := Spliced(list, at, x);
    forall i, j | 0 <= i < j < |next|
      ensures At(next, i) != At(next, j)
    {
      var i' := if i < at then i else i - 1;
      var j' := if j < at then j else j - 1;
      if i != at && j != at {
        assert At(list, i') != At(list, j');
      }
      if i == at {
        assert next[j] == list[j'];
      } else if j == at {
        assert next[i] == list[i'];
      } else {
        assert next[i] == list[i'] && next[j] == list[j'];
      }
    }
  }

  lemma {:induction false} Differ(list: seq<Id>, i: nat, j: nat)
    requires Distinct(list) && i < |list| && j < |list| && i != j
    ensures list[i] != list[j]
  {
    if i < j {
      assert At(list, i) != At(list, j);
    } else {
      assert At(list, j) != At(list, i);
    }
  }

  lemma {:induction false} IndexOfAt(list: seq<Id>, i: nat)
    requires Distinct(list) && i < |list|
    ensures IndexOf(list, list[i]) == i
  {
    if i > 0 {
      DistinctTail(list);
      IndexOfAt(list[1..], i - 1);
    }
  }

  lemma {:induction false} BeforeAt(list: seq<Id>, i: nat)
    requires Distinct(list) && i < |list|
    ensures Before(list, list[i]) == Prev(list, i)
  {
    IndexOfAt(list, i);
  }

  lemma {:induction false} SettledList(channels: map<Id, Channel>, parent: Id, list: seq<Id>)
    requires list != [] && Distinct(list)
    requires forall x | x in list :: x in channels && channels[x].parentID == parent
    ensures ListOk(Settled(channels, list), parent, list)
    ensures Parents(Settled(channels, list)) == Parents(channels)
  {
    forall i | 0 <= i < |list|
      ensures Settled(channels, list)[list[i]].order == Prev(list, i)
    {
      BeforeAt(list, i);
    }
  }

  /** Settling the channels of one parent leaves the lists of the others as they are. */
  lemma {:induction false} SettledOthers(channels: map<Id, Channel>, parent: Id, next: seq<Id>, p: Id, list: seq<Id>)
    requires ListOk(channels, p, list) && p != parent
    requires forall x | x in next :: x in channels && channels[x].parentID == parent
    ensures ListOk(Settled(channels, next), p, list)
  {
    forall i | 0 <= i < |list|
      ensures list[i] !in next
    {
    }
  }

  // ---- Each step keeps the invariant ----------------------------------------

  /** Replacing one parent's list by another of its channels. */
  lemma {:induction false} RelistSound(t: Tree, out: set<Id>, parent: Id, next: seq<Id>, out': set<Id>)
    requires Sound(t, out)
    requires next != [] && Distinct(next)
    requires forall x | x in next :: x in t.channels && t.channels[x].parentID == parent
    requires forall x | x in t.channels :: x !in out' <==> if t.channels[x].parentID == parent then x in next else x !in out
    ensures Sound(Tree(Settled(t.channels, next), t.kids[parent := next], t.consistent), out')
    ensures Parents(Settled(t.channels, next)) == Parents(t.channels)
  {
    var r := Tree(Settled(t.channels, next), t.kids[parent := next], t.consistent);
    SettledList(t.channels, parent, next);
    forall p | p in r.kids
      ensures KidsOk(r.channels, r.kids, p)
    {
      if p != parent {
        assert KidsOk(t.channels, t.kids, p);
        SettledOthers(t.channels, parent, next, p, t.kids[p]);
      }
    }
    forall x | x in r.channels
      ensures Listed(r.channels, r.kids, x) <==> x !in out'
    {
      if t.channels[x].parentID != parent {
        assert Listed(t.channels, t.kids, x) <==> x !in out;
      }
    }
  }

  lemma {:induction false} DetachSound(t: Tree, out: set<Id>, id: Id)
    requires Sound(t, out) && id in t.channels && id !in out
    ensures Sound(Detached(t, id), out + {id})
    ensures Parents(Detached(t, id).channels) == Parents(t.channels)
    ensures Detached(t, id).channels[id] == t.channels[id]
    ensures forall p | p != t.channels[id].parentID :: KidsOf(Detached(t, id), p) == KidsOf(t, p)
    ensures KidsOf(Detached(t, id), t.channels[id].parentID) == Without(KidsOf(t, t.channels[id].parentID), id)
  {
    var parent := t.channels[id].parentID;
    assert Listed(t.channels, t.kids, id);
    var list := t.kids[parent];
    var next := Without(list, id);
    WithoutMembers(list, id);
    assert KidsOk(t.channels, t.kids, parent);
    WithoutDistinct(list, id);
    var d := Detached(t, id);
    forall x | x in t.channels
      ensures x !in out + {id} <==> if t.channels[x].parentID == parent then x in next else x !in out
    {
      assert Listed(t.channels, t.kids, x) <==> x !in out;
    }
    if next != [] {
      RelistSound(t, out, parent, next, out + {id});
    } else {
      assert d.channels == t.channels;
      forall p | p in d.kids
        ensures KidsOk(d.channels, d.kids, p)
      {
        assert KidsOk(t.channels, t.kids, p);
      }
      forall x | x in d.channels
        ensures Listed(d.channels, d.kids, x) <==> x !in out + {id}
      {
        assert Listed(t.channels, t.kids, x) <==> x !in out;
      }
    }
  }

  lemma {:induction false} InsertSound(t: Tree, out: set<Id>, parent: Id, id: Id, after: Option<Id>)
    requires Sound(t, out) && id in out && id in t.channels
    requires t.channels[id].parentID == parent
    ensures Sound(Inserted(t, parent, id, after), out - {id})
    ensures Parents(Inserted(t, parent, id, after).channels) == Parents(t.channels)
  {
    var list := KidsOf(t, parent);
    var at := Place(list, after);
    var next := Spliced(list, if at.Some? then at.value else |list|, id);
    ListOfOut(t, out, parent, id);
    SplicedOnce(list, if at.Some? then at.value else |list|, id);
    forall x | x in t.channels
      ensures x !in out - {id} <==> if t.channels[x].parentID == parent then x in next else x !in out
    {
      assert Listed(t.channels, t.kids, x) <==> x !in out;
    }
    RelistSound(t, out, parent, next, out - {id});
  }

  lemma {:induction false} ListOfOut(t: Tree, out: set<Id>, parent: Id, id: Id)
    requires Sound(t, out) && id in out && id in t.channels
    requires t.channels[id].parentID == parent
    ensures id !in KidsOf(t, parent) && Distinct(KidsOf(t, parent))
    ensures forall x | x in KidsOf(t, parent) :: x in t.channels && t.channels[x].parentID == parent
  {
    assert !Listed(t.channels, t.kids, id);
    assert parent in t.kids ==> KidsOk(t.channels, t.kids, parent);
  }

  /** Inserting touches one list, and taking the newcomer out of it gives it back. */
  lemma {:induction false} InsertLists(t: Tree, out: set<Id>, parent: Id, id: Id, after: Option<Id>)
    requires Sound(t, out) && id in out && id in t.channels
    requires t.channels[id].parentID == parent
    ensures forall p | p != parent :: KidsOf(Inserted(t, parent, id, after), p) == KidsOf(t, p)
    ensures Without(KidsOf(Inserted(t, parent, id, after), parent), id) == KidsOf(t, parent)
  {
    var list := KidsOf(t, parent);
    var at := Place(list, after);
    ListOfOut(t, out, parent, id);
    SplicedOnce(list, if at.Some? then at.value else |list|, id);
  }

  /** Dropping whole subtrees of which no channel is listed under one that stays. */
  lemma {:induction false} DropSound(t: Tree, out: set<Id>, gone: set<Id>)
    requires Sound(t, out) && TOP !in gone && DownClosed(Parents(t.channels), gone)
    requires forall x | x in gone && x in t.channels && x !in out :: t.channels[x].parentID in gone
    ensures Sound(Tree(t.channels - gone, t.kids - gone, t.consistent), out - gone)
  {
    var r := Tree(t.channels - gone, t.kids - gone, t.consistent);
    var par := Parents(t.channels);
    RootedRestrict(par, gone);
    assert Parents(r.channels) == par - gone;
    forall x | x in r.channels
      ensures Listed(r.channels, r.kids, x) <==> x !in out - gone
    {
      assert x in par && par[x] !in gone;
      assert Listed(t.channels, t.kids, x) <==> x !in out;
    }
    forall p | p in r.kids
      ensures KidsOk(r.channels, r.kids, p)
    {
      var list := t.kids[p];
      assert KidsOk(t.channels, t.kids, p);
      forall i | 0 <= i < |list|
        ensures list[i] !in gone
      {
        var x := list[i];
        assert Listed(t.channels, t.kids, x);
      }
    }
  }
}
