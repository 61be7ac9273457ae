/** Parent maps: the shape shared by the channel tree (child to parent) and by a
    list of siblings (channel to the sibling it names as its predecessor). */
module Forest {

  /** A channel id; ids come off the wire as unsigned 64-bit numbers. */
  type Id = nat

  /** No channel's id: where every path up ends, and what stands before the first of a list. */
  const TOP: Id := 0

  /** The id reached from `x` after `n` steps up; an id outside the map stays where it is. */
  function Up(par: map<Id, Id>, x: Id, n: nat): Id
    decreases n
  {
    if n == 0 || x !in par then x else Up(par, par[x], n - 1)
  }

  /** `x` is `a`, or sits somewhere under it. */
  ghost predicate Below(par: map<Id, Id>, x: Id, a: Id) {
    exists n: nat :: Up(par, x, n) == a
  }

  /** Every id of the map hangs, directly or not, under the top level. */
  ghost predicate Rooted(par: map<Id, Id>) {
    TOP !in par && forall x | x in par :: Below(par, x, TOP)
  }

  /** `a` and everything under it. */
  ghost function Subtree(par: map<Id, Id>, a: Id): set<Id> {
    set x | x in par && Below(par, x, a)
  }

  /** `S` holds, with any id, every id directly under it. */
  ghost predicate DownClosed(par: map<Id, Id>, S: set<Id>) {
    forall x | x in par && par[x] in S :: x in S
  }

  lemma {:induction false} BelowSelf(par: map<Id, Id>, x: Id)
    ensures Below(par, x, x)
  {
    assert Up(par, x, 0) == x;
  }

  lemma {:induction false} BelowStep(par: map<Id, Id>, x: Id, a: Id)
    requires x in par
    ensures Below(par, x, a) <==> x == a || Below(par, par[x], a)
  {
    BelowSelf(par, x);
    if Below(par, x, a) && x != a {
      var n: nat :| Up(par, x, n) == a;
      assert Up(par, par[x], n - 1) == a;
    }
    if Below(par, par[x], a) {
      var n: nat :| Up(par, par[x], n) == a;
      assert Up(par, x, n + 1) == a;
    }
  }

  lemma {:induction false} UpCompose(par: map<Id, Id>, x: Id, m: nat, n: nat)
    ensures Up(par, Up(par, x, m), n) == Up(par, x, m + n)
    decreases m
  {
    if m > 0 && x in par {
      UpCompose(par, par[x], m - 1, n);
    }
  }

  lemma {:induction false} BelowTransitive(par: map<Id, Id>, x: Id, y: Id, z: Id)
    requires Below(par, x, y) && Below(par, y, z)
    ensures Below(par, x, z)
  {
    var m: nat :| Up(par, x, m) == y;
    var n: nat :| Up(par, y, n) == z;
    UpCompose(par, x, m, n);
  }

  /** An id outside the map is its own only ancestor. */
  lemma {:induction false} BelowOutside(par: map<Id, Id>, x: Id, a: Id)
    requires x !in par
    ensures Below(par, x, a) <==> x == a
  {
    BelowSelf(par, x);
  }

  /** In a rooted map no step leads out of the map except to the top level. */
  lemma {:induction false} RootedParent(par: map<Id, Id>, x: Id)
    requires Rooted(par) && x in par
    ensures par[x] == TOP || par[x] in par
  {
    BelowStep(par, x, TOP);
    if par[x] !in par {
      BelowOutside(par, par[x], TOP);
    }
  }

  /** A rooted map has no loop: what is under `x` by one step or more is not above it. */
  lemma {:induction false} NoLoop(par: map<Id, Id>, x: Id, n: nat)
    requires Rooted(par) && x in par && n > 0
    ensures Up(par, x, n) != x
  {
    if Up(par, x, n) == x {
      var m: nat :| Up(par, x, m) == TOP;
      LoopStays(par, x, n, m);
      UpTop(par, x, m, m * n - m);
    }
  }

  lemma {:induction false} LoopStays(par: map<Id, Id>, x: Id, n: nat, k: nat)
    requires Up(par, x, n) == x
    ensures k * n >= 0 && Up(par, x, k * n) == x
  {
    if k > 0 {
      LoopStays(par, x, n, k - 1);
      assert (k - 1) * n + n == k * n;
      UpCompose(par, x, (k - 1) * n, n);
    }
  }

  lemma {:induction false} UpTop(par: map<Id, Id>, x: Id, m: nat, n: int)
    requires TOP !in par && Up(par, x, m) == TOP && n >= 0
    ensures Up(par, x, m + n) == TOP
  {
    UpCompose(par, x, m, n);
  }

  /** What a rooted map's paths reach from inside is inside. */
  lemma {:induction false} BelowInside(par: map<Id, Id>, x: Id, n: nat)
    requires Rooted(par) && (x == TOP || x in par)
    ensures Up(par, x, n) == TOP || Up(par, x, n) in par
    decreases n
  {
    if n > 0 && x in par {
      RootedParent(par, x);
      BelowInside(par, par[x], n - 1);
    }
  }

  lemma {:induction false} ParentNotBelow(par: map<Id, Id>, x: Id)
    requires Rooted(par) && x in par
    ensures !Below(par, par[x], x)
  {
    if Below(par, par[x], x) {
      var n: nat :| Up(par, par[x], n) == x;
      NoLoop(par, x, n + 1);
    }
  }

  /** Everything under `a` but `a` itself hangs from something under `a`. */
  lemma {:induction false} SubtreeParent(par: map<Id, Id>, a: Id, x: Id)
    requires Rooted(par) && a != TOP && x in Subtree(par, a) && x != a
    ensures par[x] in Subtree(par, a)
  {
    BelowStep(par, x, a);
    RootedParent(par, x);
    BelowOutside(par, TOP, a);
  }

  /** Cutting off whole subtrees changes no path of what is left. */
  lemma {:induction false} UpRestrict(par: map<Id, Id>, S: set<Id>, x: Id, n: nat)
    requires DownClosed(par, S) && x !in S
    ensures Up(par - S, x, n) == Up(par, x, n)
    decreases n
  {
    if n > 0 && x in par {
      UpRestrict(par, S, par[x], n - 1);
    }
  }

  lemma {:induction false} BelowRestrict(par: map<Id, Id>, S: set<Id>, x: Id, a: Id)
    requires DownClosed(par, S) && x !in S
    ensures Below(par - S, x, a) <==> Below(par, x, a)
  {
    if Below(par - S, x, a) {
      var n: nat :| Up(par - S, x, n) == a;
      UpRestrict(par, S, x, n);
    }
    if Below(par, x, a) {
      var n: nat :| Up(par, x, n) == a;
      UpRestrict(par, S, x, n);
    }
  }

  lemma {:induction false} RootedRestrict(par: map<Id, Id>, S: set<Id>)
    requires Rooted(par) && DownClosed(par, S)
    ensures Rooted(par - S)
  {
    forall x | x in par - S
      ensures Below(par - S, x, TOP)
    {
      BelowRestrict(par, S, x, TOP);
    }
  }

  lemma {:induction false} SubtreeDownClosed(par: map<Id, Id>, a: Id)
    ensures DownClosed(par, Subtree(par, a))
  {
    forall x | x in par && par[x] in Subtree(par, a)
      ensures x in Subtree(par, a)
    {
      BelowStep(par, x, a);
    }
  }

  /** A path that avoids `id` is not changed by what `id` hangs under. */
  lemma {:induction false} UpAvoids(par: map<Id, Id>, id: Id, np: Id, x: Id, n: nat)
    requires !Below(par, x, id)
    ensures Up(par[id := np], x, n) == Up(par, x, n)
    decreases n
  {
    BelowSelf(par, x);
    if n > 0 && x in par {
      BelowStep(par, x, id);
      UpAvoids(par, id, np, par[x], n - 1);
    }
  }

  /** Every path through `id` now goes on through its new parent. */
  lemma {:induction false} UpThrough(par: map<Id, Id>, id: Id, np: Id, x: Id, n: nat)
    requires TOP !in par && id != TOP && Up(par, x, n) == TOP
    requires Below(par[id := np], np, TOP)
    ensures Below(par[id := np], x, TOP)
    decreases n
  {
    var par' := par[id := np];
    if x == id {
      BelowStep(par', id, TOP);
    } else if x in par {
      UpThrough(par, id, np, par[x], n - 1);
      BelowStep(par', x, TOP);
    } else {
      BelowSelf(par', x);
    }
  }

  /** What was below `id` stays below it, whatever `id` hangs under. */
  lemma {:induction false} UpReaches(par: map<Id, Id>, id: Id, np: Id, x: Id, n: nat)
    requires Up(par, x, n) == id
    ensures Below(par[id := np], x, id)
    decreases n
  {
    BelowSelf(par[id := np], x);
    if x != id {
      UpReaches(par, id, np, par[x], n - 1);
      BelowStep(par[id := np], x, id);
    }
  }

  /** Hanging `id`, new or not, with all it carries under a place outside it keeps the map rooted. */
  lemma {:induction false} Reparent(par: map<Id, Id>, id: Id, np: Id)
    requires Rooted(par) && id != TOP
    requires np == TOP || np in par
    requires !Below(par, np, id)
    ensures Rooted(par[id := np])
  {
    var par' := par[id := np];
    if np == TOP {
      BelowSelf(par', TOP);
    } else {
      var n: nat :| Up(par, np, n) == TOP;
      UpAvoids(par, id, np, np, n);
    }
    forall x | x in par'
      ensures Below(par', x, TOP)
    {
      if x == id {
        BelowStep(par', id, TOP);
      } else {
        var n: nat :| Up(par, x, n) == TOP;
        UpThrough(par, id, np, x, n);
      }
    }
  }

  /** What is under `a`, other than `a`, is under one of its children. */
  lemma {:induction false} BelowChild(par: map<Id, Id>, a: Id, x: Id, n: nat) returns (c: Id)
    requires Up(par, x, n) == a && x != a && x in par
    ensures c in par && par[c] == a && Below(par, x, c)
    decreases n
  {
    BelowSelf(par, x);
    if par[x] == a {
      c := x;
    } else {
      assert par[x] in par;
      c := BelowChild(par, a, par[x], n - 1);
      BelowStep(par, x, c);
    }
  }
}
