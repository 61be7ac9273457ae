/** Building a tree from rows in any order, also rows that are no tree: what `From` returns,
    as a function of its input. */
module TreeBuild {
  import opened Forest
  import opened ChannelTree
  import opened SiblingSort

  // ---- Rows ---------------------------------------------------------------------

  /** The rows among the first `n`: one an id, at the place of the id's first, with the value
      of its last. No channel has the top level's id. */
  function RowsOf(input: seq<Channel>, n: nat): seq<Channel>
    requires n <= |input|
  {
    if n == 0 then []
    else
      var r := RowsOf(input, n - 1);
      var c := input[n - 1];
      if c.id == TOP then r
      else if c.id in Ids(r) then r[IndexOf(Ids(r), c.id) := c]
      else r + [c]
  }

  function RowMap(rows: seq<Channel>): map<Id, Channel> {
    map x | x in Ids(rows) :: rows[IndexOf(Ids(rows), x)]
  }

  /** The parent a row is filed under: the one it names, if that is another of `ids`; else `TOP`. */
  function FixedParent(ids: seq<Id>, c: Channel): Id {
    if c.parentID != TOP && (c.parentID == c.id || c.parentID !in ids) then TOP else c.parentID
  }

  /** The rows, the parents of the first `n` given way where they must. */
  function FixedTo(rows: seq<Channel>, n: nat): seq<Channel> {
    seq(|rows|, i requires 0 <= i < |rows| =>
      if i < n then rows[i].(parentID := FixedParent(Ids(rows), rows[i])) else rows[i])
  }

  function Fixed(rows: seq<Channel>): seq<Channel> {
    FixedTo(rows, |rows|)
  }

  /** Those of the first `n` rows whose parent is `p`, in input order. */
  function ChildrenOf(rows: seq<Channel>, n: nat, p: Id): seq<Channel>
    requires n <= |rows|
  {
    if n == 0 then []
    else if rows[n - 1].parentID == p then ChildrenOf(rows, n - 1, p) + [rows[n - 1]]
    else ChildrenOf(rows, n - 1, p)
  }

  ghost function ParentIds(rows: seq<Channel>): set<Id> {
    set i | 0 <= i < |rows| :: rows[i].parentID
  }

  ghost function ByParent(rows: seq<Channel>): map<Id, seq<Channel>> {
    map p | p in ParentIds(rows) :: ChildrenOf(rows, |rows|, p)
  }

  /** The list of each parent, by the predecessors its channels name. */
  ghost function Lists(rows: seq<Channel>): map<Id, seq<Id>> {
    map p | p in ParentIds(rows) :: Sorted(ChildrenOf(rows, |rows|, p))
  }

  ghost predicate AllSortOk(rows: seq<Channel>) {
    forall p :: SortOk(ChildrenOf(rows, |rows|, p))
  }

  // ---- Channels in a loop ----------------------------------------------------------

  /** `id` out of its parent's list and last under `TOP`; what it carries stays under it. */
  function HangOne(t: Tree, id: Id): Tree
    requires id in t.channels
  {
    var c := t.channels[id];
    var kids1 := t.kids[c.parentID := Without(KidsOf(t, c.parentID), id)];
    var top := if TOP in kids1 then kids1[TOP] else [];
    Tree(t.channels[id := c.(parentID := TOP)], kids1[TOP := top + [id]], false)
  }

  /** Hang, in the order of `ids` from position `i` on, each that is not below the top level
      when its turn comes. */
  ghost function HungFrom(t: Tree, ids: seq<Id>, i: nat): Tree
    requires i <= |ids| && forall x | x in ids :: x in t.channels
    decreases |ids| - i
  {
    if i == |ids| then t
    else if Below(Parents(t.channels), ids[i], TOP) then HungFrom(t, ids, i + 1)
    else HungFrom(HangOne(t, ids[i]), ids, i + 1)
  }

  /** Empty lists dropped, and every order set by position. */
  function Neat(t: Tree): Tree {
    Tree(map x | x in t.channels :: t.channels[x].(order := Before(KidsOf(t, t.channels[x].parentID), x)),
         map p | p in t.kids && t.kids[p] != [] :: t.kids[p],
         t.consistent)
  }

  ghost function Build(input: seq<Channel>): Tree {
    var rows := RowsOf(input, |input|);
    var fixed := Fixed(rows);
    var ok := |rows| == |input| && fixed == rows && AllSortOk(fixed);
    FixedIds(rows);
    Neat(HungFrom(Tree(RowMap(fixed), Lists(fixed), ok), Ids(rows), 0))
  }

  lemma {:induction false} FixedIds(rows: seq<Channel>)
    ensures Ids(Fixed(rows)) == Ids(rows)
  {
  }

  lemma {:induction false} FixedSameIds(rows: seq<Channel>, n: nat)
    ensures Ids(FixedTo(rows, n)) == Ids(rows)
  {
  }

  lemma {:induction false} FixedRow(rows: seq<Channel>, n: nat, x: Id)
    ensures x in RowMap(FixedTo(rows, n)) <==> x in Ids(rows)
    ensures x in Ids(rows) ==> RowMap(FixedTo(rows, n))[x] == FixedTo(rows, n)[IndexOf(Ids(rows), x)]
  {
    FixedSameIds(rows, n);
  }

  lemma {:induction false} FixedAt(rows: seq<Channel>, n: nat, i: nat)
    requires UniqueIds(rows) && i < |rows|
    ensures rows[i].id in RowMap(FixedTo(rows, n)) && RowMap(FixedTo(rows, n))[rows[i].id] == FixedTo(rows, n)[i]
  {
    assert Ids(rows)[i] == rows[i].id;
    IndexOfAt(Ids(rows), i);
    FixedRow(rows, n, rows[i].id);
  }

  lemma {:induction false} FixedOther(rows: seq<Channel>, i: nat, x: Id)
    requires i < |rows| && x != rows[i].id
    ensures x in RowMap(FixedTo(rows, i)) <==> x in RowMap(FixedTo(rows, i + 1))
    ensures x in RowMap(FixedTo(rows, i)) ==> RowMap(FixedTo(rows, i + 1))[x] == RowMap(FixedTo(rows, i))[x]
  {
    FixedRow(rows, i, x);
    FixedRow(rows, i + 1, x);
    if x in Ids(rows) {
      assert Ids(rows)[i] == rows[i].id;
      assert IndexOf(Ids(rows), x) != i;
    }
  }

  lemma {:induction false} ChangedAt<V>(a: map<Id, V>, b: map<Id, V>, k: Id, v: V)
    requires k in a && k in b && b[k] == v
    requires forall x | x != k :: x in a <==> x in b
    requires forall x | x != k && x in a :: b[x] == a[x]
    ensures b == a[k := v]
  {
  }

  /** Fixing row `i` changes it and no other. */
  lemma {:induction false} FixedStep(rows: seq<Channel>, i: nat)
    requires UniqueIds(rows) && i < |rows|
    ensures rows[i].id in RowMap(FixedTo(rows, i)) && RowMap(FixedTo(rows, i))[rows[i].id] == rows[i]
    ensures RowMap(FixedTo(rows, i + 1))
         == RowMap(FixedTo(rows, i))[rows[i].id := rows[i].(parentID := FixedParent(Ids(rows), rows[i]))]
  {
    FixedAt(rows, i, i);
    FixedAt(rows, i + 1, i);
    forall x | x != rows[i].id
      ensures x in RowMap(FixedTo(rows, i)) <==> x in RowMap(FixedTo(rows, i + 1))
      ensures x in RowMap(FixedTo(rows, i)) ==> RowMap(FixedTo(rows, i + 1))[x] == RowMap(FixedTo(rows, i))[x]
    {
      FixedOther(rows, i, x);
    }
    ChangedAt(RowMap(FixedTo(rows, i)), RowMap(FixedTo(rows, i + 1)), rows[i].id,
              rows[i].(parentID := FixedParent(Ids(rows), rows[i])));
  }

  /** Row `i` and those before it keep their parents. */
  ghost predicate Kept(rows: seq<Channel>, n: nat)
    requires n <= |rows|
  {
    forall i | 0 <= i < n :: rows[i].parentID == FixedParent(Ids(rows), rows[i])
  }

  lemma {:induction false} KeptIff(rows: seq<Channel>)
    ensures Kept(rows, |rows|) <==> Fixed(rows) == rows
  {
    if Kept(rows, |rows|) {
      assert forall i | 0 <= i < |rows| :: Fixed(rows)[i] == rows[i];
    } else {
      var i :| 0 <= i < |rows| && rows[i].parentID != FixedParent(Ids(rows), rows[i]);
      assert Fixed(rows)[i] != rows[i];
    }
  }

  /** `m` holds the first `n` rows by parent. */
  ghost predicate Grouped(rows: seq<Channel>, n: nat, m: map<Id, seq<Channel>>)
    requires n <= |rows|
  {
    forall p {:trigger ChildrenOf(rows, n, p)} ::
      ChildrenOf(rows, n, p) == (if p in m then m[p] else []) && (p in m ==> m[p] != [])
  }

  lemma {:induction false} GroupedStep(rows: seq<Channel>, n: nat, m: map<Id, seq<Channel>>)
    requires n < |rows| && Grouped(rows, n, m)
    ensures var p := rows[n].parentID;
      Grouped(rows, n + 1, m[p := (if p in m then m[p] else []) + [rows[n]]])
  {
    var q := rows[n].parentID;
    var m' := m[q := (if q in m then m[q] else []) + [rows[n]]];
    forall p
      ensures ChildrenOf(rows, n + 1, p) == (if p in m' then m'[p] else []) && (p in m' ==> m'[p] != [])
    {
      assert ChildrenOf(rows, n, p) == if p in m then m[p] else [];
    }
  }

  lemma {:induction false} GroupedAll(rows: seq<Channel>, m: map<Id, seq<Channel>>)
    requires Grouped(rows, |rows|, m)
    ensures m == ByParent(rows)
  {
    forall p
      ensures p in m <==> p in ParentIds(rows)
    {
      ChildrenNonEmpty(rows, |rows|, p);
    }
  }

  lemma {:induction false} ChildrenNonEmpty(rows: seq<Channel>, n: nat, p: Id)
    requires n <= |rows|
    ensures ChildrenOf(rows, n, p) != [] <==> exists i | 0 <= i < n :: rows[i].parentID == p
  {
    if n > 0 {
      ChildrenNonEmpty(rows, n - 1, p);
    }
  }

  // ---- Lists before they are settled -------------------------------------------------

  ghost predicate LooseList(channels: map<Id, Channel>, p: Id, list: seq<Id>) {
    && Distinct(list)
    && forall i | 0 <= i < |list| :: list[i] in channels && channels[list[i]].parentID == p
  }

  ghost predicate LooseAt(channels: map<Id, Channel>, kids: map<Id, seq<Id>>, p: Id)
    requires p in kids
  {
    LooseList(channels, p, kids[p])
  }

  ghost predicate GoodRow(channels: map<Id, Channel>, x: Id)
    requires x in channels
  {
    && channels[x].id == x && x != TOP
    && (channels[x].parentID == TOP || channels[x].parentID in channels)
  }

  /** Each channel is in exactly one list, once, its parent's; parents may form loops. */
  ghost predicate Loose(t: Tree) {
    && (forall x | x in t.channels :: GoodRow(t.channels, x))
    && (forall x {:trigger Listed(t.channels, t.kids, x)} | x in t.channels :: Listed(t.channels, t.kids, x))
    && (forall p {:trigger LooseAt(t.channels, t.kids, p)} | p in t.kids :: LooseAt(t.channels, t.kids, p))
  }

  // ---- The methods ---------------------------------------------------------------------

  /** Read the rows: one an id. */
  method ReadRows(input: seq<Channel>) returns (rows: seq<Channel>, ok: bool)
    ensures rows == RowsOf(input, |input|)
    ensures ok == (|rows| == |input|)
  {
    rows, ok := [], true;
    for i := 0 to |input|
      invariant rows == RowsOf(input, i) && |rows| <= i
      invariant ok == (|rows| == i)
    {
      var channel := input[i];
      if channel.id == TOP {
        ok := false;
      } else if channel.id in Ids(rows) {
        ok := false;
        rows := rows[IndexOf(Ids(rows), channel.id) := channel];
      } else {
        rows := rows + [channel];
      }
    }
  }

  /** What one turn of the loop below does to the records, and to whether they all stood. */
  lemma {:induction false} RowTurn(rows: seq<Channel>, i: nat, parent: Id)
    requires UniqueIds(rows) && i < |rows| && parent == FixedParent(Ids(rows), rows[i])
    ensures Fixed(rows)[i] == rows[i].(parentID := parent)
    ensures Kept(rows, i + 1) <==> Kept(rows, i) && parent == rows[i].parentID
    ensures RowMap(FixedTo(rows, i + 1)) ==
      if parent == rows[i].parentID then RowMap(FixedTo(rows, i))
      else RowMap(FixedTo(rows, i))[rows[i].id := rows[i].(parentID := parent)]
  {
    FixedStep(rows, i);
  }

  /** Give every row a parent that exists, and collect the rows of each parent. */
  method GroupRows(rows: seq<Channel>, ok0: bool)
    returns (channels: map<Id, Channel>, byParent: map<Id, seq<Channel>>, ok: bool)
    requires UniqueIds(rows)
    ensures channels == RowMap(Fixed(rows)) && byParent == ByParent(Fixed(rows))
    ensures ok == (ok0 && Fixed(rows) == rows)
  {
    ok, channels, byParent := ok0, RowMap(rows), map[];
    var ids := Ids(rows);
    ghost var fixed := Fixed(rows);
    assert FixedTo(rows, 0) == rows;
    for i := 0 to |rows|
      invariant ok == (ok0 && Kept(rows, i))
      invariant channels == RowMap(FixedTo(rows, i))
      invariant Grouped(fixed, i, byParent)
    {
      var channel := rows[i];
      var parent := channel.parentID;
      RowTurn(rows, i, FixedParent(ids, channel));
      if parent != TOP && (parent == channel.id || parent !in ids) {
        ok := false;
        parent := TOP;
        channels := channels[channel.id := channel.(parentID := TOP)];
      }
      GroupedStep(fixed, i, byParent);
      byParent := byParent[parent := (if parent in byParent then byParent[parent] else []) + [channel.(parentID := parent)]];
    }
    KeptIff(rows);
    GroupedAll(fixed, byParent);
  }
}
