/** `ChannelTree.from`: well formed for every input, consistent exactly for rows that are a
    tree, and then holding the rows as given. */
module TreeFrom {
  import opened Wrappers
  import opened Forest
  import opened ChannelTree
  import opened SiblingSort
  import opened SiblingChain
  import opened TreeBuild
  import opened TreeHung
  import opened TreeLoops
  import opened TreeDraft

  // ---- The rows of one parent ------------------------------------------------------

  lemma {:induction false} ChildrenIn(rows: seq<Channel>, n: nat, p: Id, x: Id)
    requires n <= |rows|
    ensures x in Ids(ChildrenOf(rows, n, p)) <==> exists i | 0 <= i < n :: rows[i].id == x && rows[i].parentID == p
  {
    if n > 0 {
      ChildrenIn(rows, n - 1, p, x);
      var init := ChildrenOf(rows, n - 1, p);
      if rows[n - 1].parentID == p {
        assert Ids(init + [rows[n - 1]]) == Ids(init) + [rows[n - 1].id];
      }
    }
  }

  lemma {:induction false} ChildrenUnique(rows: seq<Channel>, n: nat, p: Id)
    requires UniqueIds(rows) && n <= |rows|
    ensures UniqueIds(ChildrenOf(rows, n, p))
  {
    if n > 0 {
      ChildrenUnique(rows, n - 1, p);
      var init := ChildrenOf(rows, n - 1, p);
      var id := rows[n - 1].id;
      assert Ids(rows)[n - 1] == id;
      ChildrenIn(rows, n - 1, p, id);
      if id in Ids(init) {
        var i :| 0 <= i < n - 1 && rows[i].id == id && rows[i].parentID == p;
        Differ(Ids(rows), i, n - 1);
      }
      DistinctAppend(Ids(init), id);
      assert Ids(init + [rows[n - 1]]) == Ids(init) + [id];
    }
  }

  lemma {:induction false} RowAt(rows: seq<Channel>, i: nat)
    requires UniqueIds(rows) && i < |rows|
    ensures rows[i].id in RowMap(rows) && RowMap(rows)[rows[i].id] == rows[i]
  {
    IndexOfAt(Ids(rows), i);
    assert Ids(rows)[i] in Ids(rows);
  }

  lemma {:induction false} ChildrenIff(rows: seq<Channel>, p: Id, x: Id)
    requires UniqueIds(rows)
    ensures x in Ids(ChildrenOf(rows, |rows|, p)) <==> x in RowMap(rows) && RowMap(rows)[x].parentID == p
  {
    ChildrenIn(rows, |rows|, p, x);
    if x in Ids(ChildrenOf(rows, |rows|, p)) {
      var i :| 0 <= i < |rows| && rows[i].id == x && rows[i].parentID == p;
      RowAt(rows, i);
    }
    if x in RowMap(rows) {
      var i := IndexOf(Ids(rows), x);
      assert rows[i].id == x;
    }
  }

  lemma {:induction false} ChildrenRows(rows: seq<Channel>, n: nat, p: Id)
    requires UniqueIds(rows) && n <= |rows|
    ensures forall c | c in ChildrenOf(rows, n, p) :: c.id in RowMap(rows) && RowMap(rows)[c.id] == c && c.parentID == p
  {
    if n > 0 {
      ChildrenRows(rows, n - 1, p);
      RowAt(rows, n - 1);
    }
  }

  lemma {:induction false} ArrangedLoose(rows: seq<Channel>, ok: bool)
    requires UniqueIds(rows)
    requires forall i | 0 <= i < |rows| :: rows[i].parentID == TOP || rows[i].parentID in Ids(rows)
    ensures Loose(Tree(RowMap(rows), Lists(rows), ok))
  {
    var channels := RowMap(rows);
    var kids := Lists(rows);
    forall x | x in channels
      ensures GoodRow(channels, x) && Listed(channels, kids, x)
    {
      var i := IndexOf(Ids(rows), x);
      assert rows[i].id == x;
      var p := channels[x].parentID;
      ChildrenIff(rows, p, x);
      SortedPermutation(ChildrenOf(rows, |rows|, p));
      assert x in Elems(Sorted(ChildrenOf(rows, |rows|, p)));
    }
    forall p | p in kids
      ensures LooseAt(channels, kids, p)
    {
      SortedPermutation(ChildrenOf(rows, |rows|, p));
      forall i | 0 <= i < |kids[p]|
        ensures kids[p][i] in channels && channels[kids[p][i]].parentID == p
      {
        assert kids[p][i] in Elems(Sorted(ChildrenOf(rows, |rows|, p)));
        ChildrenIff(rows, p, kids[p][i]);
      }
    }
  }

  // ---- Hanging ---------------------------------------------------------------------

  lemma {:induction false} TopLevelReached(t: Tree, x: Id)
    requires x in t.channels && t.channels[x].parentID == TOP
    ensures Below(Parents(t.channels), x, TOP)
  {
    BelowSelf(Parents(t.channels), TOP);
    BelowStep(Parents(t.channels), x, TOP);
  }

  /** Only a channel that is not reached is hung, and at most its parent changes. */
  ghost predicate HungTo(t: Tree, h: Tree) {
    && h.channels.Keys == t.channels.Keys
    && forall x | x in t.channels ::
         && (h.channels[x] == t.channels[x] || h.channels[x] == t.channels[x].(parentID := TOP))
         && (Below(Parents(t.channels), x, TOP) ==>
               h.channels[x] == t.channels[x] && Below(Parents(h.channels), x, TOP))
  }

  lemma {:induction false} HangOneHung(t: Tree, id: Id)
    requires Loose(t) && id in t.channels && !Below(Parents(t.channels), id, TOP)
    ensures Loose(HangOne(t, id)) && HungTo(t, HangOne(t, id))
    ensures Below(Parents(HangOne(t, id).channels), id, TOP)
    ensures Parents(HangOne(t, id).channels) == Parents(t.channels)[id := TOP]
  {
    if t.channels[id].parentID == TOP {
      TopLevelReached(t, id);
    }
    HangOneLoose(t, id);
    var t1 := HangOne(t, id);
    TopLevelReached(t1, id);
    forall x | x in t.channels && Below(Parents(t.channels), x, TOP)
      ensures Below(Parents(t1.channels), x, TOP)
    {
      HangOneReach(t, id, x);
    }
  }

  lemma {:induction false} HungTwice(t: Tree, t1: Tree, h: Tree)
    requires HungTo(t, t1) && HungTo(t1, h)
    ensures HungTo(t, h)
  {
  }

  /** Hanging keeps the lists right. */
  lemma {:induction false} HungResult(t: Tree, ids: seq<Id>, i: nat)
    requires Loose(t) && i <= |ids| && forall x | x in ids :: x in t.channels
    ensures Loose(HungFrom(t, ids, i)) && HungTo(t, HungFrom(t, ids, i))
    decreases |ids| - i
  {
    if i < |ids| {
      if Below(Parents(t.channels), ids[i], TOP) {
        HungResult(t, ids, i + 1);
      } else {
        HangOneHung(t, ids[i]);
        var t1 := HangOne(t, ids[i]);
        HungResult(t1, ids, i + 1);
        HungTwice(t, t1, HungFrom(t1, ids, i + 1));
      }
    }
  }

  /** And reaches every row whose turn came. */
  lemma {:induction false} HungReached(t: Tree, ids: seq<Id>, i: nat, j: nat)
    requires Loose(t) && i <= j < |ids| && forall x | x in ids :: x in t.channels
    ensures Below(Parents(HungFrom(t, ids, i).channels), ids[j], TOP)
    decreases |ids| - i
  {
    var reached := Below(Parents(t.channels), ids[i], TOP);
    if !reached {
      HangOneHung(t, ids[i]);
    }
    var t1 := if reached then t else HangOne(t, ids[i]);
    if i == j {
      HungResult(t1, ids, i + 1);
    } else {
      HungReached(t1, ids, i + 1, j);
    }
  }

  lemma {:induction false} HungInconsistent(t: Tree, ids: seq<Id>, i: nat)
    requires i <= |ids| && (forall x | x in ids :: x in t.channels) && !t.consistent
    ensures !HungFrom(t, ids, i).consistent
    decreases |ids| - i
  {
    if i < |ids| {
      HungInconsistent(if Below(Parents(t.channels), ids[i], TOP) then t else HangOne(t, ids[i]), ids, i + 1);
    }
  }

  /** Nothing is hung exactly when every row is reached. */
  lemma {:induction false} HungNone(t: Tree, ids: seq<Id>, i: nat)
    requires i <= |ids| && forall x | x in ids :: x in t.channels
    ensures var h := HungFrom(t, ids, i);
      && (h.consistent <==> t.consistent && forall j | i <= j < |ids| :: Below(Parents(t.channels), ids[j], TOP))
      && (h.consistent ==> h == t)
    decreases |ids| - i
  {
    if i < |ids| {
      if Below(Parents(t.channels), ids[i], TOP) {
        HungNone(t, ids, i + 1);
      } else {
        HungInconsistent(HangOne(t, ids[i]), ids, i + 1);
      }
    }
  }

  /** And what is hung is what `IsHung` says of the parents named. */
  lemma {:induction false} HungPlaces(named: map<Id, Id>, t: Tree, ids: seq<Id>, i: nat)
    requires Loose(t) && i <= |ids| && forall x | x in ids :: x in t.channels
    requires HungTill(named, Parents(t.channels), ids, i)
    ensures HungTill(named, Parents(HungFrom(t, ids, i).channels), ids, |ids|)
    decreases |ids| - i
  {
    if i < |ids| {
      TurnHung(named, Parents(t.channels), ids, i);
      if Below(Parents(t.channels), ids[i], TOP) {
        HungPlaces(named, t, ids, i + 1);
      } else {
        HangOneHung(t, ids[i]);
        HungPlaces(named, HangOne(t, ids[i]), ids, i + 1);
      }
    }
  }

  // ---- Settling ---------------------------------------------------------------------

  lemma {:induction false} NeatWellFormed(t: Tree)
    requires Loose(t) && Rooted(Parents(t.channels))
    ensures WellFormed(Neat(t))
    ensures Parents(Neat(t).channels) == Parents(t.channels)
  {
    var r := Neat(t);
    assert Parents(r.channels) == Parents(t.channels);
    forall x | x in r.channels
      ensures r.channels[x].id == x && Listed(r.channels, r.kids, x)
    {
      assert GoodRow(t.channels, x);
      assert Listed(t.channels, t.kids, x);
    }
    forall p | p in r.kids
      ensures KidsOk(r.channels, r.kids, p)
    {
      assert LooseAt(t.channels, t.kids, p);
      forall i | 0 <= i < |r.kids[p]|
        ensures r.channels[r.kids[p][i]].order == Prev(r.kids[p], i)
      {
        BeforeAt(t.kids[p], i);
      }
    }
  }

  // ---- What the rows become -----------------------------------------------------------

  /** The last row of an id counts. */
  function LastRow(input: seq<Channel>, n: nat, x: Id): Option<Channel>
    requires n <= |input|
  {
    if n == 0 then None
    else if input[n - 1].id == x then Some(input[n - 1])
    else LastRow(input, n - 1, x)
  }

  lemma {:induction false} LastRowIff(input: seq<Channel>, n: nat, x: Id)
    requires n <= |input|
    ensures LastRow(input, n, x).Some? <==> exists i | 0 <= i < n :: input[i].id == x
  {
    if n > 0 {
      LastRowIff(input, n - 1, x);
    }
  }

  lemma {:induction false} RowsUnique(input: seq<Channel>, n: nat)
    requires n <= |input|
    ensures UniqueIds(RowsOf(input, n)) && |RowsOf(input, n)| <= n
    ensures |RowsOf(input, n)| == n ==> forall i | 0 <= i < n :: RowsOf(input, n)[i] == input[i]
    ensures UniqueIds(input) ==> |RowsOf(input, n)| == n
  {
    if n > 0 {
      RowsUnique(input, n - 1);
      var r := RowsOf(input, n - 1);
      var c := input[n - 1];
      assert Ids(input)[n - 1] == c.id;
      if c.id != TOP && c.id !in Ids(r) {
        DistinctAppend(Ids(r), c.id);
        assert Ids(r + [c]) == Ids(r) + [c.id];
      } else if c.id != TOP {
        var i := IndexOf(Ids(r), c.id);
        assert Ids(r[i := c]) == Ids(r);
        if UniqueIds(input) {
          assert r[i] == input[i];
          Differ(Ids(input), i, n - 1);
        }
      }
    }
  }

  lemma {:induction false} RowsLast(input: seq<Channel>, n: nat, x: Id)
    requires n <= |input|
    ensures x in Ids(RowsOf(input, n)) <==> x != TOP && LastRow(input, n, x).Some?
    ensures x in Ids(RowsOf(input, n)) ==> LastRow(input, n, x) == Some(RowMap(RowsOf(input, n))[x])
  {
    if n > 0 {
      RowsLast(input, n - 1, x);
      RowsUnique(input, n - 1);
      var r := RowsOf(input, n - 1);
      var c := input[n - 1];
      if c.id != TOP {
        if c.id in Ids(r) {
          RowsReplace(r, c, x);
        } else {
          RowsAppend(r, c, x);
        }
      }
    }
  }

  lemma {:induction false} RowsReplace(r: seq<Channel>, c: Channel, x: Id)
    requires UniqueIds(r) && c.id in Ids(r)
    ensures var r' := r[IndexOf(Ids(r), c.id) := c];
      && Ids(r') == Ids(r)
      && (x in Ids(r) ==> RowMap(r')[x] == if x == c.id then c else RowMap(r)[x])
  {
    var i := IndexOf(Ids(r), c.id);
    assert Ids(r[i := c]) == Ids(r);
    if x in Ids(r) {
      assert IndexOf(Ids(r), x) == i ==> x == c.id;
    }
  }

  lemma {:induction false} RowsAppend(r: seq<Channel>, c: Channel, x: Id)
    requires UniqueIds(r) && c.id !in Ids(r) && c.id != TOP
    ensures x in Ids(r + [c]) <==> x in Ids(r) || x == c.id
    ensures x in Ids(r + [c]) ==> RowMap(r + [c])[x] == if x == c.id then c else RowMap(r)[x]
  {
    assert Ids(r + [c]) == Ids(r) + [c.id];
    DistinctAppend(Ids(r), c.id);
    if x == c.id {
      IndexOfAt(Ids(r + [c]), |r|);
    } else if x in Ids(r) {
      IndexOfAt(Ids(r + [c]), IndexOf(Ids(r), x));
    }
  }

  lemma {:induction false} FixedUnique(rows: seq<Channel>)
    requires UniqueIds(rows)
    ensures UniqueIds(Fixed(rows)) && Ids(Fixed(rows)) == Ids(rows)
    ensures forall i | 0 <= i < |rows| :: Fixed(rows)[i].parentID == TOP || Fixed(rows)[i].parentID in Ids(rows)
    ensures RowMap(Fixed(rows)).Keys == RowMap(rows).Keys
    ensures forall x | x in RowMap(rows) ::
      RowMap(Fixed(rows))[x] == RowMap(rows)[x].(parentID := FixedParent(Ids(rows), RowMap(rows)[x]))
  {
    FixedIds(rows);
    forall i | 0 <= i < |rows|
      ensures Fixed(rows)[i] == rows[i].(parentID := FixedParent(Ids(rows), rows[i]))
    {
    }
  }

  /** The tree before loops are broken and lists settled. */
  ghost function Rough(input: seq<Channel>): Tree {
    var rows := RowsOf(input, |input|);
    var fixed := Fixed(rows);
    Tree(RowMap(fixed), Lists(fixed),
         |rows| == |input| && fixed == rows && AllSortOk(fixed))
  }

  lemma {:induction false} RoughLoose(input: seq<Channel>)
    ensures var rows := RowsOf(input, |input|);
      && Loose(Rough(input))
      && (forall x | x in Ids(rows) :: x in Rough(input).channels)
      && Build(input) == Neat(HungFrom(Rough(input), Ids(rows), 0))
  {
    var rows := RowsOf(input, |input|);
    RowsUnique(input, |input|);
    FixedUnique(rows);
    ArrangedLoose(Fixed(rows), Rough(input).consistent);
  }

  ghost function Hung(input: seq<Channel>): Tree {
    RoughLoose(input);
    HungFrom(Rough(input), Ids(RowsOf(input, |input|)), 0)
  }

  lemma {:induction false} HungRooted(input: seq<Channel>)
    ensures Build(input) == Neat(Hung(input))
    ensures Loose(Hung(input)) && HungTo(Rough(input), Hung(input)) && Rooted(Parents(Hung(input).channels))
  {
    var rows := RowsOf(input, |input|);
    RoughLoose(input);
    RowsUnique(input, |input|);
    FixedUnique(rows);
    HungResult(Rough(input), Ids(rows), 0);
    var h := Hung(input);
    forall x | x in h.channels
      ensures x != TOP && Below(Parents(h.channels), x, TOP)
    {
      assert GoodRow(h.channels, x);
      var i := IndexOf(Ids(rows), x);
      HungReached(Rough(input), Ids(rows), 0, i);
    }
  }

  /** Any rows become a forest: each id in exactly one list, once, its parent's; each id under
      the top level; each order the sibling before. */
  lemma {:induction false} BuildWellFormed(input: seq<Channel>)
    ensures WellFormed(Build(input))
  {
    HungRooted(input);
    NeatWellFormed(Hung(input));
  }

  /** The parents the rows name, where they must give way. */
  function Named(input: seq<Channel>): map<Id, Id> { Parents(RowMap(Fixed(RowsOf(input, |input|)))) }

  function InputIds(input: seq<Channel>): seq<Id> { Ids(RowsOf(input, |input|)) }

  /** The forest is over exactly the ids given, each with its last row's properties, and under the
      parent named, if it is there and not the channel itself, unless its row is hung. */
  lemma {:induction false} BuildRecords(input: seq<Channel>, x: Id)
    ensures x in Build(input).channels <==> x != TOP && LastRow(input, |input|, x).Some?
    ensures x in Build(input).channels ==>
      var row, ids, named := LastRow(input, |input|, x).value, InputIds(input), Named(input);
      var c := Build(input).channels[x];
      && x in ids && x in named && named[x] == FixedParent(ids, row)
      && c.id == x && c.props == row.props
      && c.parentID == if IsHung(named, ids, IndexOf(ids, x)) then TOP else named[x]
  {
    RowsLast(input, |input|, x);
    RoughRecord(input, x);
    HungRooted(input);
    assert x in Build(input).channels <==> x in Rough(input).channels;
    if x in Hung(input).channels {
      assert GoodRow(Hung(input).channels, x);
      HungParent(input, x);
    }
  }

  lemma {:induction false} HungParent(input: seq<Channel>, x: Id)
    requires x in InputIds(input)
    ensures x in Hung(input).channels && x in Named(input)
    ensures Hung(input).channels[x].parentID
         == if IsHung(Named(input), InputIds(input), IndexOf(InputIds(input), x)) then TOP else Named(input)[x]
  {
    var ids, named := InputIds(input), Named(input);
    RoughLoose(input);
    HungNothingYet(input);
    HungPlaces(named, Rough(input), ids, 0);
    RowsUnique(input, |input|);
    var i := IndexOf(ids, x);
    assert x in named by {
      FixedUnique(RowsOf(input, |input|));
    }
    if HungAmong(named, ids, |ids|, x) {
      var j :| 0 <= j < |ids| && ids[j] == x && IsHung(named, ids, j);
      IndexOfAt(ids, j);
    }
  }

  lemma {:induction false} HungNothingYet(input: seq<Channel>)
    ensures HungTill(Named(input), Parents(Rough(input).channels), InputIds(input), 0)
  {
    RoughLoose(input);
    NoTopRow(Rough(input));
  }

  // ---- A row that is hung though it is in no loop ---------------------------------------------

  const LOOP: seq<Channel> := [Channel(3, 1, 0, map[]), Channel(1, 2, 0, map[]), Channel(2, 1, 0, map[])]

  lemma {:induction false} LoopIds()
    ensures Ids(LOOP) == [3, 1, 2] && UniqueIds(LOOP) && RowsOf(LOOP, |LOOP|) == LOOP && Fixed(LOOP) == LOOP
  {
    assert Ids(LOOP) == [3, 1, 2];
    RowsSame(LOOP);
    assert Fixed(LOOP) == LOOP;
  }

  lemma {:induction false} LoopRows()
    ensures InputIds(LOOP) == [3, 1, 2] && Named(LOOP) == map[3 := 1, 1 := 2, 2 := 1]
  {
    LoopIds();
    RowAt(LOOP, 0);
    RowAt(LOOP, 1);
    RowAt(LOOP, 2);
  }

  lemma {:induction false} LoopUp(named: map<Id, Id>, x: Id, n: nat)
    requires named == map[3 := 1, 1 := 2, 2 := 1] && (x == 1 || x == 2)
    ensures Up(named, x, n) == 1 || Up(named, x, n) == 2
    decreases n
  {
    if n > 0 {
      LoopUp(named, 3 - x, n - 1);
    }
  }

  lemma {:induction false} BelowLoopUp(named: map<Id, Id>, n: nat)
    requires named == map[3 := 1, 1 := 2, 2 := 1]
    ensures Up(named, 3, n) != TOP && (n > 0 ==> Up(named, 3, n) != 3)
  {
    if n > 0 {
      LoopUp(named, 1, n - 1);
    }
  }

  lemma {:induction false} FirstIsHung()
    ensures |InputIds(LOOP)| > 0 && IsHung(Named(LOOP), InputIds(LOOP), 0)
  {
    LoopRows();
    forall n: nat
      ensures Up(Named(LOOP), 3, n) != TOP
    {
      BelowLoopUp(Named(LOOP), n);
    }
  }

  /** A channel that is not its own ancestor is hung at the top: it only hangs below a loop, but its
      row comes first. */
  lemma {:induction false} BelowLoopHung()
    ensures forall n: nat | n > 0 :: Up(Named(LOOP), 3, n) != 3
    ensures 3 in Build(LOOP).channels && Build(LOOP).channels[3].parentID == TOP
  {
    FirstIsHung();
    BuildRecords(LOOP, 3);
    LoopRows();
    assert LastRow(LOOP, 1, 3) == Some(LOOP[0]);
    RowsLast(LOOP, 3, 3);
    forall n: nat | n > 0
      ensures Up(Named(LOOP), 3, n) != 3
    {
      BelowLoopUp(Named(LOOP), n);
    }
  }

  lemma {:induction false} RoughRecord(input: seq<Channel>, x: Id)
    ensures x in Rough(input).channels <==> x in Ids(RowsOf(input, |input|))
    ensures x in Rough(input).channels ==>
      var row := RowMap(RowsOf(input, |input|))[x];
      Rough(input).channels[x] == row.(parentID := FixedParent(Ids(RowsOf(input, |input|)), row))
  {
    RowsUnique(input, |input|);
    FixedUnique(RowsOf(input, |input|));
  }

  // ---- Rows that are a tree --------------------------------------------------------------

  /** Unique non-zero ids, parents that exist and lead to the top level, and one chain of
      predecessors under each parent. */
  ghost predicate RowsAreTree(rows: seq<Channel>) {
    && UniqueIds(rows)
    && Rooted(Parents(RowMap(rows)))
    && AllChains(rows)
  }

  ghost predicate AllChains(rows: seq<Channel>) {
    forall p :: Chain(ChildrenOf(rows, |rows|, p))
  }

  lemma {:induction false} FixedSame(rows: seq<Channel>)
    requires UniqueIds(rows) && Rooted(Parents(RowMap(rows)))
    ensures Fixed(rows) == rows
  {
    var par := Parents(RowMap(rows));
    forall i | 0 <= i < |rows|
      ensures FixedParent(Ids(rows), rows[i]) == rows[i].parentID
    {
      var x := rows[i].id;
      RowAt(rows, i);
      RootedParent(par, x);
      ParentNotBelow(par, x);
      BelowSelf(par, x);
    }
    KeptIff(rows);
  }

  lemma {:induction false} SortOkAll(rows: seq<Channel>)
    requires UniqueIds(rows)
    ensures AllSortOk(rows) <==> AllChains(rows)
  {
    forall p
      ensures SortOk(ChildrenOf(rows, |rows|, p)) <==> Chain(ChildrenOf(rows, |rows|, p))
    {
      ChildrenUnique(rows, |rows|, p);
      SortOkIffChain(ChildrenOf(rows, |rows|, p));
    }
  }

  lemma {:induction false} RowsSame(input: seq<Channel>)
    ensures |RowsOf(input, |input|)| == |input| <==> UniqueIds(input)
    ensures UniqueIds(input) ==> RowsOf(input, |input|) == input
  {
    RowsUnique(input, |input|);
    if |RowsOf(input, |input|)| == |input| {
      assert RowsOf(input, |input|) == input;
    }
  }

  lemma {:induction false} RoughConsistentIff(input: seq<Channel>)
    ensures Rough(input).consistent <==> UniqueIds(input) && Fixed(input) == input && AllChains(input)
    ensures Rough(input).consistent ==> RowsOf(input, |input|) == input
    ensures Rough(input).consistent ==> Rough(input).channels == RowMap(input) && Rough(input).kids == Lists(input)
  {
    RowsSame(input);
    if UniqueIds(input) {
      SortOkAll(input);
    }
  }

  ghost predicate AllBelow(channels: map<Id, Channel>, ids: seq<Id>) {
    forall x | x in ids :: Below(Parents(channels), x, TOP)
  }

  lemma {:induction false} AllBelowIsRooted(rows: seq<Channel>)
    requires UniqueIds(rows)
    ensures AllBelow(RowMap(rows), Ids(rows)) <==> Rooted(Parents(RowMap(rows)))
  {
    assert Parents(RowMap(rows)).Keys == RowMap(rows).Keys;
    assert forall x :: x in RowMap(rows) <==> x in Ids(rows);
  }

  lemma {:induction false} HungConsistentIff(input: seq<Channel>)
    ensures Build(input).consistent == Hung(input).consistent
    ensures Hung(input).consistent
       <==> Rough(input).consistent && AllBelow(Rough(input).channels, Ids(RowsOf(input, |input|)))
    ensures Hung(input).consistent ==> Hung(input) == Rough(input)
  {
    var ids := Ids(RowsOf(input, |input|));
    RoughLoose(input);
    HungNone(Rough(input), ids, 0);
    assert (forall j | 0 <= j < |ids| :: Below(Parents(Rough(input).channels), ids[j], TOP))
      <==> AllBelow(Rough(input).channels, ids);
  }

  /** `consistent` is true exactly when the rows are a tree. */
  lemma {:induction false} BuildConsistentIff(input: seq<Channel>)
    ensures Build(input).consistent <==> RowsAreTree(input)
  {
    HungConsistentIff(input);
    RoughConsistentIff(input);
    if UniqueIds(input) {
      AllBelowIsRooted(input);
      if Rooted(Parents(RowMap(input))) {
        FixedSame(input);
      }
    }
  }
}
