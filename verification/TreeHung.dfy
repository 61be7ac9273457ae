/** Which channels `ChannelTree.from` hangs at the top: in input order, each that no path leads up
    from to the top level or to a row before it. */
module TreeHung {
  import opened Forest

  /** Row `j` is hung: the parents named lead from it neither to the top nor to an earlier row. */
  ghost predicate IsHung(named: map<Id, Id>, ids: seq<Id>, j: nat)
    requires j < |ids|
  {
    !Below(named, ids[j], TOP) && forall k | 0 <= k < j :: !Below(named, ids[j], ids[k])
  }

  /** `x` is one of the first `i` rows, and hung. */
  ghost predicate HungAmong(named: map<Id, Id>, ids: seq<Id>, i: nat, x: Id)
    requires i <= |ids|
  {
    exists j | 0 <= j < i :: ids[j] == x && IsHung(named, ids, j)
  }

  /** The parents once the first `i` rows were looked at. */
  ghost predicate HungTill(named: map<Id, Id>, par: map<Id, Id>, ids: seq<Id>, i: nat)
    requires i <= |ids|
  {
    && par.Keys == named.Keys && TOP !in named
    && forall x | x in named :: par[x] == if HungAmong(named, ids, i, x) then TOP else named[x]
  }

  /** A path the names give leads to the top, or to a place that is hung before its end. */
  lemma {:induction false} PathReaches(named: map<Id, Id>, par: map<Id, Id>, x: Id, a: Id, n: nat)
    requires par.Keys == named.Keys && forall y | y in named :: par[y] == named[y] || par[y] == TOP
    requires Up(named, x, n) == a && Below(par, a, TOP)
    ensures Below(par, x, TOP)
    decreases n
  {
    if n > 0 && x in named {
      BelowStep(par, x, TOP);
      if par[x] == TOP {
        BelowSelf(par, TOP);
      } else {
        PathReaches(named, par, named[x], a, n - 1);
      }
    }
  }

  lemma {:induction false} BelowReaches(named: map<Id, Id>, par: map<Id, Id>, ids: seq<Id>, i: nat, x: Id, a: Id)
    requires i <= |ids| && HungTill(named, par, ids, i) && Below(named, x, a) && Below(par, a, TOP)
    ensures Below(par, x, TOP)
  {
    var n: nat :| Up(named, x, n) == a;
    PathReaches(named, par, x, a, n);
  }

  /** Every row looked at is reached. */
  lemma {:induction false} RowReached(named: map<Id, Id>, par: map<Id, Id>, ids: seq<Id>, i: nat, k: nat)
    requires i <= |ids| && HungTill(named, par, ids, i) && k < i && ids[k] in named
    requires forall j | 0 <= j < k :: ids[j] in named
    ensures Below(par, ids[k], TOP)
  {
    BelowSelf(par, TOP);
    if IsHung(named, ids, k) {
      assert HungAmong(named, ids, i, ids[k]);
      BelowStep(par, ids[k], TOP);
    } else if Below(named, ids[k], TOP) {
      BelowReaches(named, par, ids, i, ids[k], TOP);
    } else {
      var j :| 0 <= j < k && Below(named, ids[k], ids[j]);
      RowReached(named, par, ids, i, j);
      BelowReaches(named, par, ids, i, ids[k], ids[j]);
    }
  }

  /** What leads to the top now was named so, or leads to a row looked at. */
  lemma {:induction false} ReachedWas(named: map<Id, Id>, par: map<Id, Id>, ids: seq<Id>, i: nat, x: Id, n: nat)
    requires i <= |ids| && HungTill(named, par, ids, i) && x in named && Up(par, x, n) == TOP
    ensures Below(named, x, TOP) || exists k | 0 <= k < i :: Below(named, x, ids[k])
    decreases n
  {
    if HungAmong(named, ids, i, x) {
      BelowSelf(named, x);
    } else if named[x] == TOP {
      BelowSelf(named, TOP);
      BelowStep(named, x, TOP);
    } else {
      BelowStep(named, x, TOP);
      assert n > 0 && Up(par, named[x], n - 1) == TOP;
      assert named[x] in named;
      ReachedWas(named, par, ids, i, named[x], n - 1);
      if k :| 0 <= k < i && Below(named, named[x], ids[k]) {
        BelowStep(named, x, ids[k]);
      }
    }
  }

  /** A row is reached when its turn comes exactly when it is not to be hung. */
  lemma {:induction false} TurnIff(named: map<Id, Id>, par: map<Id, Id>, ids: seq<Id>, i: nat)
    requires i < |ids| && HungTill(named, par, ids, i) && forall j | 0 <= j <= i :: ids[j] in named
    ensures Below(par, ids[i], TOP) <==> !IsHung(named, ids, i)
  {
    if Below(par, ids[i], TOP) {
      var n: nat :| Up(par, ids[i], n) == TOP;
      ReachedWas(named, par, ids, i, ids[i], n);
    }
    if Below(named, ids[i], TOP) {
      BelowSelf(par, TOP);
      BelowReaches(named, par, ids, i, ids[i], TOP);
    }
    if k :| 0 <= k < i && Below(named, ids[i], ids[k]) {
      RowReached(named, par, ids, i, k);
      BelowReaches(named, par, ids, i, ids[i], ids[k]);
    }
  }

  /** One turn: the row is hung when it is not reached. */
  lemma {:induction false} TurnHung(named: map<Id, Id>, par: map<Id, Id>, ids: seq<Id>, i: nat)
    requires i < |ids| && HungTill(named, par, ids, i) && forall j | 0 <= j <= i :: ids[j] in named
    ensures HungTill(named, if Below(par, ids[i], TOP) then par else par[ids[i] := TOP], ids, i + 1)
  {
    TurnIff(named, par, ids, i);
    forall x | x in named
      ensures HungAmong(named, ids, i + 1, x) <==> HungAmong(named, ids, i, x) || (x == ids[i] && IsHung(named, ids, i))
    {
      if HungAmong(named, ids, i, x) {
        var j :| 0 <= j < i && ids[j] == x && IsHung(named, ids, j);
        assert HungAmong(named, ids, i + 1, x);
      }
    }
  }
}
