/** Removing a channel that still has channels below it, one subtree at a time. */
module TreeRemove {
  import opened Forest
  import opened ChannelTree
  import opened TreeSteps

  /** `s` is `d`, where `id` is already out of its list, after the first `i` channels under
      `id` and all below them, `gone`, have been removed. */
  ghost predicate Emptying(d: Tree, out: set<Id>, id: Id, below: seq<Id>, s: Tree, i: nat, gone: set<Id>) {
    && i <= |below|
    && Sound(s, out)
    && !s.consistent
    && Shrunk(Parents(d.channels), Parents(s.channels), id, gone)
    && SameBut(d.channels, s.channels, below)
    && (forall j | 0 <= j < i :: below[j] in gone)
    && KidsOf(s, id) == below[i..]
    && ListsKept(d, s, id, gone)
  }

  ghost predicate Shrunk(par: map<Id, Id>, cur: map<Id, Id>, id: Id, gone: set<Id>) {
    gone <= Subtree(par, id) - {id} && DownClosed(par, gone) && cur == par - gone
  }

  ghost predicate SameBut(old_: map<Id, Channel>, new_: map<Id, Channel>, list: seq<Id>) {
    && new_.Keys <= old_.Keys
    && forall x | x in new_ && x !in list :: new_[x] == old_[x]
  }

  ghost predicate ListsKept(d: Tree, s: Tree, id: Id, gone: set<Id>) {
    forall p | p != id :: KidsOf(s, p) == if p in gone then [] else KidsOf(d, p)
  }

  /** The state in which emptying starts. */
  ghost predicate Uprooted(d: Tree, out: set<Id>, id: Id) {
    && Sound(d, out) && id in out && id in d.channels
    && forall x | x in out && x != id :: !Below(Parents(d.channels), x, id)
  }

  lemma {:induction false} EmptyingStart(d: Tree, out: set<Id>, id: Id, below: seq<Id>)
    requires Uprooted(d, out, id) && below == KidsOf(d, id)
    ensures Emptying(d, out, id, below, d.(consistent := false), 0, {})
  {
    assert Parents(d.channels) == Parents(d.channels) - {};
  }

  /** Detaching only settles the siblings. */
  lemma {:induction false} DetachedOthers(t: Tree, id: Id, x: Id)
    requires id in t.channels && x in t.channels && x !in KidsOf(t, t.channels[id].parentID)
    ensures Detached(t, id).channels[x] == t.channels[x]
  {
    WithoutMembers(KidsOf(t, t.channels[id].parentID), id);
  }

  lemma {:induction false} NextUnderId(d: Tree, out: set<Id>, id: Id, below: seq<Id>, s: Tree, i: nat, gone: set<Id>)
    requires Uprooted(d, out, id) && below == KidsOf(d, id)
    requires Emptying(d, out, id, below, s, i, gone) && i < |below|
    ensures var c := below[i];
      && c in s.channels && c !in out && s.channels[c].parentID == id
      && (forall x | x in out :: !Below(Parents(s.channels), x, c))
      && Subtree(Parents(s.channels), c) < Subtree(Parents(d.channels), id)
      && id !in Subtree(Parents(s.channels), c)
  {
    var c := below[i];
    var par := Parents(d.channels);
    var cur := Parents(s.channels);
    assert KidsOf(s, id)[0] == c;
    assert KidsOk(s.channels, s.kids, id);
    assert Listed(s.channels, s.kids, c);
    assert c in cur && cur[c] == id;
    BelowSelf(par, id);
    BelowStep(par, c, id);
    assert par[c] == id;
    ParentNotBelow(par, c);
    forall x | x !in gone && Below(cur, x, c)
      ensures x != id && Below(par, x, id)
    {
      BelowRestrict(par, gone, x, c);
      BelowTransitive(par, x, c, id);
    }
    assert id in Subtree(par, id);
  }

  lemma {:induction false} ShrunkStep(par: map<Id, Id>, cur: map<Id, Id>, id: Id, gone: set<Id>, c: Id)
    requires Shrunk(par, cur, id, gone)
    requires Subtree(cur, c) < Subtree(par, id) && id !in Subtree(cur, c)
    ensures Shrunk(par, cur - Subtree(cur, c), id, gone + Subtree(cur, c))
  {
    SubtreeDownClosed(cur, c);
  }

  lemma {:induction false} SameButStep(d: Tree, s: Tree, below: seq<Id>, c: Id)
    requires SameBut(d.channels, s.channels, below)
    requires c in s.channels && forall x | x in KidsOf(s, s.channels[c].parentID) :: x in below
    ensures SameBut(d.channels, Removed(s, c).channels, below)
  {
    forall x | x in Removed(s, c).channels && x !in below
      ensures Removed(s, c).channels[x] == s.channels[x]
    {
      DetachedOthers(s, c, x);
    }
  }

  lemma {:induction false} EmptyingStep(d: Tree, out: set<Id>, id: Id, below: seq<Id>, s: Tree, i: nat, gone: set<Id>)
    requires Uprooted(d, out, id) && below == KidsOf(d, id)
    requires Emptying(d, out, id, below, s, i, gone) && i < |below|
    ensures Emptying(d, out, id, below, Removed(s, below[i]), i + 1,
                     gone + Subtree(Parents(s.channels), below[i]))
  {
    var c := below[i];
    var cur := Parents(s.channels);
    var s' := Removed(s, c);
    NextUnderId(d, out, id, below, s, i, gone);
    RemovedSound(s, out, c);
    RemovedParents(s, out, c);
    ShrunkStep(Parents(d.channels), cur, id, gone, c);
    assert c in Subtree(cur, c) by { BelowSelf(cur, c); }
    forall x | x in KidsOf(s, id)
      ensures x in below
    {
    }
    SameButStep(d, s, below, c);
    assert KidsOf(s', id) == below[i + 1..] by {
      RemovedLists(s, out, c, id);
      assert KidsOf(s, id) != [];
      assert KidsOk(s.channels, s.kids, id);
      TailWithoutHead(s, id);
      assert KidsOf(s, id)[1..] == below[i + 1..];
    }
    forall p | p != id
      ensures KidsOf(s', p) == if p in gone + Subtree(cur, c) then [] else KidsOf(d, p)
    {
      RemovedLists(s, out, c, p);
    }
  }

  lemma {:induction false} TailWithoutHead(s: Tree, id: Id)
    requires KidsOf(s, id) != [] && Distinct(KidsOf(s, id))
    ensures Without(KidsOf(s, id), KidsOf(s, id)[0]) == KidsOf(s, id)[1..]
  {
    DistinctTail(KidsOf(s, id));
    WithoutAbsent(KidsOf(s, id)[1..], KidsOf(s, id)[0]);
  }

  /** Once every child is gone, all that was below `id` is. */
  lemma {:induction false} GoneIsSubtree(d: Tree, out: set<Id>, id: Id, below: seq<Id>, gone: set<Id>)
    requires Uprooted(d, out, id) && below == KidsOf(d, id)
    requires DownClosed(Parents(d.channels), gone) && gone <= Subtree(Parents(d.channels), id) - {id}
    requires forall j | 0 <= j < |below| :: below[j] in gone
    ensures gone == Subtree(Parents(d.channels), id) - {id}
  {
    var par := Parents(d.channels);
    forall x | x in Subtree(par, id) && x != id
      ensures x in gone
    {
      var n: nat :| Up(par, x, n) == id;
      var c := BelowChild(par, id, x, n);
      BelowSelf(par, id);
      BelowStep(par, c, id);
      ParentNotBelow(par, c);
      assert Listed(d.channels, d.kids, c);
      assert c in gone;
      var m: nat :| Up(par, x, m) == c;
      GoneBelow(par, gone, x, m);
    }
  }

  lemma {:induction false} SameLists(d: Tree, s: Tree, id: Id, gone: set<Id>)
    requires ListsKept(d, s, id, gone)
    requires forall p | p in s.kids :: s.kids[p] != []
    requires forall p | p in d.kids :: d.kids[p] != []
    ensures s.kids - {id} == d.kids - gone - {id}
  {
    forall p | p != id
      ensures p in s.kids <==> p in d.kids && p !in gone
      ensures p in s.kids ==> s.kids[p] == d.kids[p]
    {
      assert KidsOf(s, p) == if p in gone then [] else KidsOf(d, p);
    }
  }

  lemma {:induction false} EmptyingDone(d: Tree, out: set<Id>, id: Id, below: seq<Id>, s: Tree, gone: set<Id>)
    requires Uprooted(d, out, id) && below == KidsOf(d, id)
    requires Emptying(d, out, id, below, s, |below|, gone)
    ensures s.channels - {id} == d.channels - Subtree(Parents(d.channels), id)
    ensures s.kids - {id} == d.kids - Subtree(Parents(d.channels), id)
  {
    assert s.channels == d.channels - gone by {
      SameChannels(d, s, id, below, gone);
    }
    assert s.kids - {id} == d.kids - gone - {id} by {
      EmptyingLists(d, out, id, below, s, gone);
    }
    assert gone + {id} == Subtree(Parents(d.channels), id) by {
      GoneIsSubtree(d, out, id, below, gone);
      BelowSelf(Parents(d.channels), id);
    }
    MinusTwice(d.channels, gone, {id});
    MinusTwice(d.kids, gone, {id});
  }

  lemma {:induction false} MinusTwice<V>(m: map<Id, V>, a: set<Id>, b: set<Id>)
    ensures m - a - b == m - (a + b)
  {
  }

  lemma {:induction false} EmptyingLists(d: Tree, out: set<Id>, id: Id, below: seq<Id>, s: Tree, gone: set<Id>)
    requires Sound(d, out) && Sound(s, out) && ListsKept(d, s, id, gone)
    ensures s.kids - {id} == d.kids - gone - {id}
  {
    NoEmptyList(s, out);
    NoEmptyList(d, out);
    SameLists(d, s, id, gone);
  }

  lemma {:induction false} DetachedHasKids(t: Tree, out: set<Id>, id: Id)
    requires Sound(t, out) && id in t.channels && id !in out
    ensures id in Detached(t, id).kids <==> id in t.kids
  {
    DetachSound(t, out, id);
    NoEmptyList(t, out);
    NoEmptyList(Detached(t, id), out + {id});
    ParentNotBelow(Parents(t.channels), id);
    BelowSelf(Parents(t.channels), id);
    assert KidsOf(Detached(t, id), id) == KidsOf(t, id);
  }

  lemma {:induction false} NoEmptyList(t: Tree, out: set<Id>)
    requires Sound(t, out)
    ensures forall p | p in t.kids :: t.kids[p] != []
  {
    forall p | p in t.kids
      ensures t.kids[p] != []
    {
      assert KidsOk(t.channels, t.kids, p);
    }
  }

  lemma {:induction false} SameChannels(d: Tree, s: Tree, id: Id, below: seq<Id>, gone: set<Id>)
    requires Shrunk(Parents(d.channels), Parents(s.channels), id, gone)
    requires SameBut(d.channels, s.channels, below)
    requires forall j | 0 <= j < |below| :: below[j] in gone
    ensures s.channels == d.channels - gone
  {
    assert s.channels.Keys == Parents(s.channels).Keys == Parents(d.channels).Keys - gone;
  }

  lemma {:induction false} GoneBelow(par: map<Id, Id>, gone: set<Id>, x: Id, n: nat)
    requires DownClosed(par, gone) && Up(par, x, n) in gone
    ensures x in gone
    decreases n
  {
    if n > 0 && x in par {
      GoneBelow(par, gone, par[x], n - 1);
    }
  }
}
