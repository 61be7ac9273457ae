/** Where the rows of an answer come from: each was taken up from one line, for one command. */
module CommandSources {
  import opened Wrappers
  import opened Commands
  import opened CommandLaws

  /** The positions of the rows that answer `p`, those of `rows` being `at`. */
  function KeptAt(p: Pending, rows: seq<Row>, at: seq<nat>, own: string, n: nat): seq<nat>
    requires n <= |rows| == |at|
  {
    if n == 0 then []
    else if Answers(p, rows[n - 1], own) then KeptAt(p, rows, at, own, n - 1) + [at[n - 1]]
    else KeptAt(p, rows, at, own, n - 1)
  }

  /** Call `n` is the `error` of a command that waits under `rc`. */
  predicate Ends(events: seq<Event>, n: nat, rc: nat)
    requires n < |events|
  {
    events[n].Resolve? && events[n].rc == rc && rc in Run(events, n).pending
  }

  /** The positions of the rows command `rc` took at its `error`, if that is among the first `n` calls. */
  ghost function Sources(events: seq<Event>, n: nat, rc: nat): seq<nat>
    requires n <= |events|
  {
    if n == 0 then []
    else if Ends(events, n - 1, rc) then
      BufferAtHeld(events, n - 1);
      var s := Run(events, n - 1);
      KeptAt(s.pending[rc], s.buffer, HeldAt(events, n - 1), events[n - 1].own, |s.buffer|)
    else Sources(events, n - 1, rc)
  }

  // ---- A row has one command ---------------------------------------------------------------------

  lemma {:induction false} KeptAtHeld(p: Pending, rows: seq<Row>, at: seq<nat>, own: string, n: nat)
    requires n <= |rows| == |at|
    ensures forall k | k in KeptAt(p, rows, at, own, n) :: k in at
  {
    if n > 0 {
      KeptAtHeld(p, rows, at, own, n - 1);
    }
  }

  /** What a command took was given to it, at some `error` of its own. */
  lemma {:induction false} SourceGiven(events: seq<Event>, n: nat, rc: nat, k: nat) returns (m: nat)
    requires n <= |events| && k in Sources(events, n, rc)
    ensures GivenTo(events, k, m, rc)
  {
    if Ends(events, n - 1, rc) {
      m := n - 1;
      BufferAtHeld(events, m);
      HeldIsDue(events, m);
      var s := Run(events, m);
      KeptAtHeld(s.pending[rc], s.buffer, HeldAt(events, m), events[m].own, |s.buffer|);
    } else {
      m := SourceGiven(events, n - 1, rc, k);
    }
  }

  lemma {:induction false} SourcesApart(events: seq<Event>, n: nat, a: nat, b: nat)
    requires n <= |events| && a != b
    ensures forall k | k in Sources(events, n, a) :: k !in Sources(events, n, b)
  {
    forall k | k in Sources(events, n, a)
      ensures k !in Sources(events, n, b)
    {
      if k in Sources(events, n, b) {
        var m1 := SourceGiven(events, n, a, k);
        var m2 := SourceGiven(events, n, b, k);
        GivenOnce(events, k, m1, m2, a, b);
      }
    }
  }

  // ---- And an answer is made of its rows ---------------------------------------------------------

  /** `data` are the rows at those positions, in that order. */
  ghost predicate AreFrom(events: seq<Event>, at: seq<nat>, data: seq<Params>) {
    && |data| == |at|
    && forall i | 0 <= i < |at| :: at[i] < |events| && events[at[i]].Arrived? && events[at[i]].row.params == data[i]
  }

  /** Each was offered as a notification in the first `n` calls. */
  ghost predicate WereOffered(events: seq<Event>, n: nat, data: seq<Params>)
    requires n <= |events|
  {
    forall i | 0 <= i < |data| :: WasOffered(events, n, data[i])
  }

  ghost predicate WasOffered(events: seq<Event>, n: nat, params: Params)
    requires n <= |events|
  {
    exists m | 0 <= m < n :: events[m].Offer? && events[m].params == params
  }

  /** An answer is the rows its command took at its `error`, and then what was offered to it; or
      there is none. */
  ghost predicate MadeOf(events: seq<Event>, n: nat, rc: nat, data: seq<Params>)
    requires n <= |events|
  {
    || data == []
    || var at := Sources(events, n, rc);
       && |at| <= |data| && AreFrom(events, at, data[..|at|]) && WereOffered(events, n, data[|at|..])
  }

  ghost predicate PendingOk(events: seq<Event>, n: nat, rc: nat, p: Pending)
    requires n <= |events|
  {
    && WereOffered(events, n, p.correlated)
    && (p.held.Some? ==> AreFrom(events, Sources(events, n, rc), p.held.value))
  }

  ghost predicate Sourced(events: seq<Event>, n: nat, s: State)
    requires n <= |events|
  {
    && (forall rc | rc in s.pending :: PendingOk(events, n, rc, s.pending[rc]))
    && (forall i | 0 <= i < |s.settled| :: MadeOf(events, n, s.settled[i].rc, s.settled[i].result.data))
  }

  lemma {:induction false} KeptFrom(events: seq<Event>, p: Pending, rows: seq<Row>, at: seq<nat>, own: string, n: nat)
    requires RowsAt(events, at, rows) && n <= |rows|
    ensures AreFrom(events, KeptAt(p, rows, at, own, n), ParamsOf(Kept(p, rows, own, n)))
  {
    if n > 0 {
      KeptFrom(events, p, rows, at, own, n - 1);
      assert IsRowAt(events, at[n - 1], rows[n - 1]);
    }
  }

  /** What a command takes at its `error` is what `Sources` says. */
  lemma {:induction false} TakenFrom(events: seq<Event>, n: nat, rc: nat)
    requires n < |events| && Ends(events, n, rc)
    ensures var s := Run(events, n);
            AreFrom(events, Sources(events, n + 1, rc), Answer(s.pending[rc], s.buffer, events[n].own))
  {
    BufferAtHeld(events, n);
    var s := Run(events, n);
    KeptFrom(events, s.pending[rc], s.buffer, HeldAt(events, n), events[n].own, |s.buffer|);
  }

  lemma {:induction false} OfferedLater(events: seq<Event>, n: nat, data: seq<Params>)
    requires n < |events| && WereOffered(events, n, data)
    ensures WereOffered(events, n + 1, data)
    ensures events[n].Offer? ==> WereOffered(events, n + 1, data + [events[n].params])
  {
    forall i | 0 <= i < |data|
      ensures WasOffered(events, n + 1, data[i])
    {
      assert WasOffered(events, n, data[i]);
      var m :| 0 <= m < n && events[m].Offer? && events[m].params == data[i];
      assert events[m].Offer?;
    }
    if events[n].Offer? {
      assert WasOffered(events, n + 1, events[n].params);
    }
  }

  /** A command that does not end now keeps its sources. */
  lemma {:induction false} PendingLater(events: seq<Event>, n: nat, rc: nat, p: Pending)
    requires n < |events| && PendingOk(events, n, rc, p) && !Ends(events, n, rc)
    ensures PendingOk(events, n + 1, rc, p)
    ensures events[n].Offer? ==> PendingOk(events, n + 1, rc, p.(correlated := p.correlated + [events[n].params]))
  {
    OfferedLater(events, n, p.correlated);
  }

  lemma {:induction false} MadeLater(events: seq<Event>, n: nat, rc: nat, data: seq<Params>)
    requires n < |events| && MadeOf(events, n, rc, data) && rc !in Run(events, n).pending
    ensures MadeOf(events, n + 1, rc, data)
  {
    if data != [] {
      OfferedLater(events, n, data[|Sources(events, n, rc)|..]);
    }
  }

  lemma {:induction false} MadeOfBoth(events: seq<Event>, n: nat, rc: nat, own: seq<Params>, offered: seq<Params>)
    requires n <= |events| && AreFrom(events, Sources(events, n, rc), own) && WereOffered(events, n, offered)
    ensures MadeOf(events, n, rc, own + offered)
  {
    assert (own + offered)[..|own|] == own && (own + offered)[|own|..] == offered;
  }

  /** What was settled before is still what it was. */
  lemma {:induction false} SettledLater(events: seq<Event>, n: nat, i: nat)
    requires n < |events| && Sourced(events, n, Run(events, n)) && i < |Run(events, n).settled|
    ensures MadeOf(events, n + 1, Run(events, n).settled[i].rc, Run(events, n).settled[i].result.data)
  {
    var s := Run(events, n);
    RunSound(events, n);
    assert InOne(s, s.settled[i].rc) && Settled(s.settled, s.settled[i].rc);
    MadeLater(events, n, s.settled[i].rc, s.settled[i].result.data);
  }

  /** One call settles what fits, and leaves what waits as it should be. */
  lemma {:induction false} OfferSourced(events: seq<Event>, n: nat, rc: nat)
    requires n < |events| && events[n].Offer? && Sourced(events, n, Run(events, n))
    requires rc in Run(events, n).pending && Run(events, n).pending[rc].spec.correlated.Some?
    requires Run(events, n + 1) == Taken(Run(events, n), rc, events[n].name, events[n].params)
    ensures Sourced(events, n + 1, Run(events, n + 1))
  {
    var s, s', e := Run(events, n), Run(events, n + 1), events[n];
    forall x | x in s'.pending
      ensures PendingOk(events, n + 1, x, s'.pending[x])
    {
      assert PendingOk(events, n, x, s.pending[x]);
      PendingLater(events, n, x, s.pending[x]);
    }
    forall i | 0 <= i < |s'.settled|
      ensures MadeOf(events, n + 1, s'.settled[i].rc, s'.settled[i].result.data)
    {
      if i < |s.settled| {
        SettledLater(events, n, i);
      } else {
        var p := s.pending[rc];
        assert PendingOk(events, n, rc, p);
        PendingLater(events, n, rc, p);
        if p.held.Some? {
          MadeOfBoth(events, n + 1, rc, p.held.value, p.correlated + [e.params]);
        }
      }
    }
  }

  lemma {:induction false} ResolvePending(events: seq<Event>, n: nat, rc: nat, x: nat)
    requires n < |events| && Ends(events, n, rc) && Sourced(events, n, Run(events, n))
    requires x in Run(events, n + 1).pending
    ensures PendingOk(events, n + 1, x, Run(events, n + 1).pending[x])
  {
    var s := Run(events, n);
    assert x in s.pending && PendingOk(events, n, x, s.pending[x]);
    if x == rc {
      OfferedLater(events, n, s.pending[rc].correlated);
      TakenFrom(events, n, rc);
    } else {
      PendingLater(events, n, x, s.pending[x]);
    }
  }

  lemma {:induction false} ResolveSettled(events: seq<Event>, n: nat, rc: nat)
    requires n < |events| && Ends(events, n, rc) && Sourced(events, n, Run(events, n))
    ensures var s, s' := Run(events, n), Run(events, n + 1);
            || s'.settled == s.settled
            || (&& |s'.settled| == |s.settled| + 1 && s.settled <= s'.settled
                && MadeOf(events, n + 1, s'.settled[|s.settled|].rc, s'.settled[|s.settled|].result.data))
  {
    var s, e := Run(events, n), events[n];
    var p := s.pending[rc];
    var data := Answer(p, s.buffer, e.own);
    assert PendingOk(events, n, rc, p);
    OfferedLater(events, n, p.correlated);
    TakenFrom(events, n, rc);
    MadeOfBoth(events, n + 1, rc, data, p.correlated);
    MadeOfBoth(events, n + 1, rc, data, []);
    assert data + [] == data;
  }

  lemma {:induction false} ResolveSourced(events: seq<Event>, n: nat, rc: nat)
    requires n < |events| && Ends(events, n, rc) && Sourced(events, n, Run(events, n))
    ensures Sourced(events, n + 1, Run(events, n + 1))
  {
    var s, s' := Run(events, n), Run(events, n + 1);
    forall x | x in s'.pending
      ensures PendingOk(events, n + 1, x, s'.pending[x])
    {
      ResolvePending(events, n, rc, x);
    }
    ResolveSettled(events, n, rc);
    forall i | 0 <= i < |s'.settled|
      ensures MadeOf(events, n + 1, s'.settled[i].rc, s'.settled[i].result.data)
    {
      if i < |s.settled| {
        SettledLater(events, n, i);
      }
    }
  }

  lemma {:induction false} ResetSourced(events: seq<Event>, n: nat)
    requires n < |events| && events[n].ResetAll? && Sourced(events, n, Run(events, n))
    ensures Sourced(events, n + 1, Run(events, n + 1))
  {
    var s, s' := Run(events, n), Run(events, n + 1);
    AllFailedEmpty(s.pending, events[n].cause, s.nextRC + 1);
    forall i | 0 <= i < |s'.settled|
      ensures MadeOf(events, n + 1, s'.settled[i].rc, s'.settled[i].result.data)
    {
      if i < |s.settled| {
        SettledLater(events, n, i);
      } else {
        assert s'.settled[i] == AllFailed(s.pending, events[n].cause, s.nextRC + 1)[i - |s.settled|];
      }
    }
  }

  lemma {:induction false} AllFailedEmpty(pending: map<nat, Pending>, err: Failure, n: nat)
    ensures forall i | 0 <= i < |AllFailed(pending, err, n)| :: AllFailed(pending, err, n)[i].result.data == []
  {
    if n > 0 {
      AllFailedEmpty(pending, err, n - 1);
    }
  }

  /** Any other call settles nothing, and at most adds or drops a command. */
  lemma {:induction false} QuietSourced(events: seq<Event>, n: nat)
    requires n < |events| && Sourced(events, n, Run(events, n))
    requires Run(events, n + 1).settled == Run(events, n).settled
    requires forall rc | rc in Run(events, n + 1).pending ::
               var p := Run(events, n + 1).pending[rc];
               (rc in Run(events, n).pending && p == Run(events, n).pending[rc] && !Ends(events, n, rc))
               || (p.correlated == [] && p.held.None?)
    ensures Sourced(events, n + 1, Run(events, n + 1))
  {
    var s, s' := Run(events, n), Run(events, n + 1);
    forall rc | rc in s'.pending
      ensures PendingOk(events, n + 1, rc, s'.pending[rc])
    {
      if !(s'.pending[rc].correlated == [] && s'.pending[rc].held.None?) {
        assert PendingOk(events, n, rc, s.pending[rc]);
        PendingLater(events, n, rc, s.pending[rc]);
      }
    }
    forall i | 0 <= i < |s'.settled|
      ensures MadeOf(events, n + 1, s'.settled[i].rc, s'.settled[i].result.data)
    {
      SettledLater(events, n, i);
    }
  }

  lemma {:induction false} IsQuiet(s: State, e: Event)
    requires !e.ResetAll? && !(e.Resolve? && e.rc in s.pending)
    requires !(e.Offer? && FirstCorrelated(s, e.name, e.params, 0).Some?)
    ensures Step(s, e).settled == s.settled
    ensures forall rc | rc in Step(s, e).pending ::
              var p := Step(s, e).pending[rc];
              (rc in s.pending && p == s.pending[rc]) || (p.correlated == [] && p.held.None?)
  {
  }

  lemma {:induction false} StepSourced(events: seq<Event>, n: nat, s: State, e: Event)
    requires n < |events| && s == Run(events, n) && e == events[n] && Sourced(events, n, s)
    ensures Sourced(events, n + 1, Run(events, n + 1))
  {
    assert Run(events, n + 1) == Step(s, e);
    if e.Resolve? && e.rc in s.pending {
      ResolveSourced(events, n, e.rc);
    } else if e.ResetAll? {
      ResetSourced(events, n);
    } else if e.Offer? && FirstCorrelated(s, e.name, e.params, 0).Some? {
      OfferSourced(events, n, FirstCorrelated(s, e.name, e.params, 0).value);
    } else {
      IsQuiet(s, e);
      QuietSourced(events, n);
    }
  }

  lemma {:induction false} RunSourced(events: seq<Event>, n: nat)
    requires n <= |events|
    ensures Sourced(events, n, Run(events, n))
  {
    if n > 0 {
      RunSourced(events, n - 1);
      StepSourced(events, n - 1, Run(events, n - 1), events[n - 1]);
    }
  }

  /** Two answers share no row: each is made of the rows its command took at its own `error`, and
      then of what was offered to it, and no row that came was taken by both. */
  lemma {:induction false} RowReachesOne(events: seq<Event>, n: nat, i: nat, j: nat)
    requires n <= |events| && i != j && i < |Run(events, n).settled| && j < |Run(events, n).settled|
    ensures var a, b := Run(events, n).settled[i], Run(events, n).settled[j];
            && MadeOf(events, n, a.rc, a.result.data) && MadeOf(events, n, b.rc, b.result.data)
            && forall k | k in Sources(events, n, a.rc) :: k !in Sources(events, n, b.rc)
  {
    RunSourced(events, n);
    RunSound(events, n);
    var settled := Run(events, n).settled;
    assert settled[i].rc != settled[j].rc;
    SourcesApart(events, n, settled[i].rc, settled[j].rc);
  }
}
