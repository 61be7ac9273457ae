/** The sort of one parent's rows: a loop over a stack of its own is proved equal to a recursive
    walk along the predecessor pointers. */
module SiblingSort {
  import opened Forest
  import opened ChannelTree

  /** Who follows whom: for an id, the ids that name it, in input order. */
  type Followers = map<Id, seq<Id>>

  function Next(m: Followers, k: Id): seq<Id> {
    if k in m then m[k] else []
  }

  ghost function Elems(s: seq<Id>): set<Id> {
    set x | x in s
  }

  lemma {:induction false} PrefixElems(a: seq<Id>, b: seq<Id>)
    requires a <= b
    ensures Elems(a) <= Elems(b)
  {
    forall x | x in a
      ensures x in b
    {
      var i :| 0 <= i < |a| && a[i] == x;
      assert b[i] == x;
    }
  }

  ghost predicate Within(m: Followers, U: set<Id>) {
    forall k | k in m :: Elems(m[k]) <= U
  }

  /** The walk from the ids of `list` from position `at` on, after those of `out`: each id not
      yet seen, followed by the walk of its followers. */
  ghost function Visit(m: Followers, U: set<Id>, list: seq<Id>, at: nat, out: seq<Id>): (r: seq<Id>)
    requires Within(m, U) && Elems(list) <= U && at <= |list|
    ensures out <= r
    decreases U - Elems(out), |list| - at
  {
    if at == |list| then out
    else if list[at] in out then Visit(m, U, list, at + 1, out)
    else
      SeenGrows(U, list, at, out);
      var r := Visit(m, U, Next(m, list[at]), 0, out + [list[at]]);
      PrefixElems(out + [list[at]], r);
      Visit(m, U, list, at + 1, r)
  }

  lemma {:induction false} SeenGrows(U: set<Id>, list: seq<Id>, at: nat, out: seq<Id>)
    requires Elems(list) <= U && at < |list| && list[at] !in out
    ensures U - Elems(out + [list[at]]) < U - Elems(out)
    ensures list[at] in U && list[at] in out + [list[at]]
  {
    assert list[at] in Elems(list);
    assert list[at] in U - Elems(out) && list[at] !in U - Elems(out + [list[at]]);
  }

  lemma {:induction false} VisitElems(m: Followers, U: set<Id>, list: seq<Id>, at: nat, out: seq<Id>)
    requires Within(m, U) && Elems(list) <= U && at <= |list|
    requires Elems(out) <= U && Distinct(out)
    ensures var r := Visit(m, U, list, at, out); Elems(r) <= U && Distinct(r)
    decreases U - Elems(out), |list| - at
  {
    if at < |list| {
      if list[at] in out {
        VisitElems(m, U, list, at + 1, out);
      } else {
        SeenGrows(U, list, at, out);
        DistinctAppend(out, list[at]);
        VisitElems(m, U, Next(m, list[at]), 0, out + [list[at]]);
        var r := Visit(m, U, Next(m, list[at]), 0, out + [list[at]]);
        PrefixElems(out + [list[at]], r);
        VisitElems(m, U, list, at + 1, r);
      }
    }
  }

  lemma {:induction false} DistinctAppend(list: seq<Id>, x: Id)
    requires Distinct(list) && x !in list
    ensures Distinct(list + [x])
  {
    forall i, j | 0 <= i < j < |list| + 1
      ensures At(list + [x], i) != At(list + [x], j)
    {
      if j < |list| {
        assert At(list, i) != At(list, j);
      } else {
        assert At(list + [x], i) in list;
      }
    }
  }

  /** A walk from ids all seen already adds nothing. */
  lemma {:induction false} VisitSeen(m: Followers, U: set<Id>, list: seq<Id>, at: nat, out: seq<Id>)
    requires Within(m, U) && Elems(list) <= U && at <= |list| && Elems(list) <= Elems(out)
    ensures Visit(m, U, list, at, out) == out
    decreases |list| - at
  {
    if at < |list| {
      assert list[at] in Elems(list);
      VisitSeen(m, U, list, at + 1, out);
    }
  }

  /** A walk comes to every id it starts from. */
  lemma {:induction false} VisitCovers(m: Followers, U: set<Id>, list: seq<Id>, at: nat, out: seq<Id>, i: nat)
    requires Within(m, U) && Elems(list) <= U && at <= i < |list|
    ensures list[i] in Visit(m, U, list, at, out)
    decreases |list| - at
  {
    var r := if list[at] in out then out else Visit(m, U, Next(m, list[at]), 0, out + [list[at]]);
    if i > at {
      VisitCovers(m, U, list, at + 1, r, i);
    } else {
      if list[at] !in out {
        PrefixElems(out + [list[at]], r);
        assert list[at] in out + [list[at]];
      }
      assert list[at] in Elems(r);
      PrefixElems(r, Visit(m, U, list, at + 1, r));
    }
  }

  /** After a walk the followers of everything it added are there too. */
  lemma {:induction false} VisitClosed(m: Followers, U: set<Id>, list: seq<Id>, at: nat, out: seq<Id>, x: Id)
    requires Within(m, U) && Elems(list) <= U && at <= |list|
    requires x in Visit(m, U, list, at, out) && x !in out
    ensures Elems(Next(m, x)) <= Elems(Visit(m, U, list, at, out))
    decreases U - Elems(out), |list| - at
  {
    if list[at] in out {
      VisitClosed(m, U, list, at + 1, out, x);
    } else {
      SeenGrows(U, list, at, out);
      var r := Visit(m, U, Next(m, list[at]), 0, out + [list[at]]);
      PrefixElems(out + [list[at]], r);
      PrefixElems(r, Visit(m, U, list, at + 1, r));
      if x !in r {
        VisitClosed(m, U, list, at + 1, r, x);
      } else if x != list[at] {
        VisitClosed(m, U, Next(m, list[at]), 0, out + [list[at]], x);
      } else {
        forall y | y in Next(m, x)
          ensures y in r
        {
          var i :| 0 <= i < |Next(m, x)| && Next(m, x)[i] == y;
          VisitCovers(m, U, Next(m, x), 0, out + [x], i);
        }
      }
    }
  }

  /** Whatever holds of the ids started from, and passes from an id to its followers, holds of
      all a walk adds. */
  lemma {:induction false} VisitSound(m: Followers, U: set<Id>, list: seq<Id>, at: nat, out: seq<Id>, P: set<Id>)
    requires Within(m, U) && Elems(list) <= U && at <= |list|
    requires Elems(list) <= P && Elems(out) <= P
    requires forall k | k in P :: Elems(Next(m, k)) <= P
    ensures Elems(Visit(m, U, list, at, out)) <= P
    decreases U - Elems(out), |list| - at
  {
    if at < |list| {
      if list[at] in out {
        VisitSound(m, U, list, at + 1, out, P);
      } else {
        SeenGrows(U, list, at, out);
        assert list[at] in Elems(list);
        VisitSound(m, U, Next(m, list[at]), 0, out + [list[at]], P);
        var r := Visit(m, U, Next(m, list[at]), 0, out + [list[at]]);
        PrefixElems(out + [list[at]], r);
        VisitSound(m, U, list, at + 1, r, P);
      }
    }
  }

  // ---- The explicit stack -----------------------------------------------------

  /** The lists being walked, the innermost on top, and how far each walk has come. */
  datatype Stack = Bottom | Frame(list: seq<Id>, at: nat, under: Stack)

  ghost predicate StackOk(U: set<Id>, stack: Stack) {
    stack.Frame? ==> stack.at <= |stack.list| && Elems(stack.list) <= U && StackOk(U, stack.under)
  }

  /** What the frames of a stack still have to add, the top one first. */
  ghost function Resume(m: Followers, U: set<Id>, stack: Stack, out: seq<Id>): (r: seq<Id>)
    requires Within(m, U) && StackOk(U, stack)
    decreases stack
  {
    match stack
    case Bottom => out
    case Frame(list, at, under) => Resume(m, U, under, Visit(m, U, list, at, out))
  }

  ghost function Remaining(stack: Stack): int {
    match stack
    case Bottom => 0
    case Frame(list, at, under) => Remaining(under) + 1 + |list| - at
  }

  lemma {:induction false} RemainingNonNegative(U: set<Id>, stack: Stack)
    requires StackOk(U, stack)
    ensures Remaining(stack) >= 0
  {
    if stack.Frame? {
      RemainingNonNegative(U, stack.under);
    }
  }

  /** At most one sibling comes after each id of `out` from position `n` on. */
  predicate SingleFrom(m: Followers, out: seq<Id>, n: nat) {
    forall i | n <= i < |out| :: |Next(m, out[i])| <= 1
  }

  /** Depth first from the followers of `start`, one frame per id on the current chain. */
  method Follow(m: Followers, start: Id, out0: seq<Id>, ok0: bool, ghost U: set<Id>)
    returns (out: seq<Id>, ok: bool)
    requires Within(m, U)
    ensures Elems(Next(m, start)) <= U && out == Visit(m, U, Next(m, start), 0, out0)
    ensures ok == (ok0 && |Next(m, start)| <= 1 && SingleFrom(m, out, |out0|))
  {
    out, ok := out0, ok0 && |Next(m, start)| <= 1;
    assert Elems(Next(m, start)) <= U;
    var stack := Frame(Next(m, start), 0, Bottom);
    while stack.Frame?
      invariant StackOk(U, stack)
      invariant Resume(m, U, stack, out) == Visit(m, U, Next(m, start), 0, out0)
      invariant out0 <= out
      invariant ok == (ok0 && |Next(m, start)| <= 1 && SingleFrom(m, out, |out0|))
      decreases U - Elems(out), Remaining(stack)
    {
      RemainingNonNegative(U, stack);
      if stack.at == |stack.list| {
        stack := stack.under;
      } else {
        var id := stack.list[stack.at];
        ghost var list, at := stack.list, stack.at;
        stack := stack.(at := stack.at + 1);
        if id !in out {
          SeenGrows(U, list, at, out);
          ok := ok && |Next(m, id)| <= 1;
          out := out + [id];
          stack := Frame(Next(m, id), 0, stack);
        }
      }
    }
  }

  // ---- Siblings -----------------------------------------------------------------

  function Ids(rows: seq<Channel>): seq<Id> {
    seq(|rows|, i requires 0 <= i < |rows| => rows[i].id)
  }

  /** Rows in which no id comes twice, and none is the top level's id. */
  ghost predicate UniqueIds(sibs: seq<Channel>) {
    Distinct(Ids(sibs)) && TOP !in Ids(sibs)
  }

  /** The sibling a channel comes after, if the one it names is a sibling; else the first place. */
  function NamedAfter(sibs: seq<Channel>, c: Channel): Id {
    if c.order != TOP && c.order in Ids(sibs) then c.order else TOP
  }

  /** Those of the first `n` siblings that come after `k`, in input order. */
  function Naming(sibs: seq<Channel>, n: nat, k: Id): seq<Id>
    requires n <= |sibs|
  {
    if n == 0 then []
    else if NamedAfter(sibs, sibs[n - 1]) == k then Naming(sibs, n - 1, k) + [sibs[n - 1].id]
    else Naming(sibs, n - 1, k)
  }

  ghost function FollowerMap(sibs: seq<Channel>): Followers {
    map k | k in {TOP} + Elems(Ids(sibs)) && Naming(sibs, |sibs|, k) != [] :: Naming(sibs, |sibs|, k)
  }

  lemma {:induction false} NamingIff(sibs: seq<Channel>, n: nat, k: Id, x: Id)
    requires n <= |sibs|
    ensures x in Naming(sibs, n, k) <==> exists i | 0 <= i < n :: sibs[i].id == x && NamedAfter(sibs, sibs[i]) == k
  {
    if n > 0 {
      NamingIff(sibs, n - 1, k, x);
    }
  }

  lemma {:induction false} FollowersWithin(sibs: seq<Channel>)
    ensures Within(FollowerMap(sibs), Elems(Ids(sibs)))
    ensures forall k :: Next(FollowerMap(sibs), k) == Naming(sibs, |sibs|, k)
  {
    forall k
      ensures Elems(Naming(sibs, |sibs|, k)) <= Elems(Ids(sibs))
      ensures Naming(sibs, |sibs|, k) != [] ==> k in {TOP} + Elems(Ids(sibs))
    {
      forall x
        ensures x in Naming(sibs, |sibs|, k) ==> x in Ids(sibs) && k in {TOP} + Elems(Ids(sibs))
      {
        NamingIff(sibs, |sibs|, k, x);
        if x in Naming(sibs, |sibs|, k) {
          var i :| 0 <= i < |sibs| && sibs[i].id == x && NamedAfter(sibs, sibs[i]) == k;
          assert Ids(sibs)[i] == x;
        }
      }
      if Naming(sibs, |sibs|, k) != [] {
        assert Naming(sibs, |sibs|, k)[0] in Naming(sibs, |sibs|, k);
      }
    }
  }

  lemma {:induction false} FollowerMapWithin(sibs: seq<Channel>)
    ensures Within(FollowerMap(sibs), Elems(Ids(sibs)))
  {
    FollowersWithin(sibs);
  }

  /** The walk from the first place. */
  ghost function Chained(sibs: seq<Channel>): seq<Id> {
    FollowerMapWithin(sibs);
    Visit(FollowerMap(sibs), Elems(Ids(sibs)), Next(FollowerMap(sibs), TOP), 0, [])
  }

  /** The siblings in order: those the walk from the first place comes to, then the others in
      input order, each with what follows it. */
  ghost function Sorted(sibs: seq<Channel>): seq<Id> {
    FollowerMapWithin(sibs);
    Visit(FollowerMap(sibs), Elems(Ids(sibs)), Ids(sibs), 0, Chained(sibs))
  }

  ghost predicate AllNamed(sibs: seq<Channel>, n: nat)
    requires n <= |sibs|
  {
    forall i | 0 <= i < n :: sibs[i].order == TOP || sibs[i].order in Ids(sibs)
  }

  /** What the sort checks on its way. */
  ghost predicate SortOk(sibs: seq<Channel>) {
    && AllNamed(sibs, |sibs|)
    && |Next(FollowerMap(sibs), TOP)| <= 1
    && SingleFrom(FollowerMap(sibs), Chained(sibs), 0)
    && Elems(Ids(sibs)) <= Elems(Chained(sibs))
  }

  /** Collect, for each sibling, those that come after it. */
  method CollectFollowers(sibs: seq<Channel>, ok0: bool) returns (after: Followers, ok: bool)
    ensures after == FollowerMap(sibs)
    ensures ok == (ok0 && AllNamed(sibs, |sibs|))
  {
    var ids := Ids(sibs);
    ok, after := ok0, map[];
    for i := 0 to |sibs|
      invariant ok == (ok0 && AllNamed(sibs, i))
      invariant forall k :: k in after <==> Naming(sibs, i, k) != []
      invariant forall k | k in after :: after[k] == Naming(sibs, i, k)
    {
      var channel := sibs[i];
      var named := channel.order != TOP && channel.order in ids;
      if channel.order != TOP && !named {
        ok := false;
      }
      var key := if named then channel.order else TOP;
      after := after[key := (if key in after then after[key] else []) + [channel.id]];
    }
    FollowersWithin(sibs);
    forall k
      ensures k in after <==> k in FollowerMap(sibs)
    {
      assert Next(FollowerMap(sibs), k) == Naming(sibs, |sibs|, k);
    }
  }

  /** Add the ids not yet come to, in input order, each with what follows it. */
  method FollowRest(m: Followers, ids: seq<Id>, first: seq<Id>, ok0: bool, ghost U: set<Id>)
    returns (out: seq<Id>, ok: bool)
    requires Within(m, U) && Elems(ids) <= U
    ensures out == Visit(m, U, ids, 0, first)
    ensures ok == (ok0 && forall j | 0 <= j < |ids| :: ids[j] in first)
  {
    out, ok := first, ok0;
    for i := 0 to |ids|
      invariant Visit(m, U, ids, i, out) == Visit(m, U, ids, 0, first)
      invariant ok == (ok0 && forall j | 0 <= j < i :: ids[j] in first)
      invariant (forall j | 0 <= j < i :: ids[j] in first) ==> out == first
    {
      VisitStep(m, U, ids, i, out);
      if ids[i] !in out {
        ok := false;
        out := out + [ids[i]];
        out, ok := Follow(m, ids[i], out, ok, U);
      }
    }
  }

  /** The loop over the stack gives `Sorted`, and `ok` is lost exactly when `SortOk` does not hold. */
  method SortSiblings(sibs: seq<Channel>, ok0: bool) returns (out: seq<Id>, ok: bool)
    ensures out == Sorted(sibs)
    ensures ok == (ok0 && SortOk(sibs))
  {
    var after;
    after, ok := CollectFollowers(sibs, ok0);
    FollowersWithin(sibs);
    out, ok := Follow(after, TOP, [], ok, Elems(Ids(sibs)));
    CleanIff(Ids(sibs), out);
    out, ok := FollowRest(after, Ids(sibs), out, ok, Elems(Ids(sibs)));
  }

  lemma {:induction false} VisitStep(m: Followers, U: set<Id>, list: seq<Id>, at: nat, out: seq<Id>)
    requires Within(m, U) && Elems(list) <= U && at < |list|
    ensures Elems(Next(m, list[at])) <= U
    ensures Visit(m, U, list, at, out)
         == Visit(m, U, list, at + 1, if list[at] in out then out else Visit(m, U, Next(m, list[at]), 0, out + [list[at]]))
  {
  }

  lemma {:induction false} CleanIff(ids: seq<Id>, first: seq<Id>)
    ensures Elems(ids) <= Elems(first) <==> forall j | 0 <= j < |ids| :: ids[j] in first
  {
    if Elems(ids) <= Elems(first) {
      forall j | 0 <= j < |ids|
        ensures ids[j] in first
      {
        assert ids[j] in Elems(ids);
      }
    }
  }
}
