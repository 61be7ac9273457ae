/** The tracker itself: each call is one step of `Commands`. */
module CommandTracking {
  import opened Wrappers
  import opened Commands

  ghost predicate Declares(p: Pending, name: string) {
    name in p.spec.notifications || (p.spec.correlated.Some? && name in p.spec.correlated.value.notifications)
  }

  class CommandTracker {
    var pending: map<nat, Pending>
    var nextRC: nat
    var rows: seq<Row>
    var welcomeComplete: bool
    /** The promises resolved so far, in that order. */
    var settled: seq<Settlement>

    ghost predicate Valid()
      reads this
    {
      forall rc | rc in pending :: 1 <= rc <= nextRC
    }

    ghost function Contents(): State
      reads this
    {
      State(pending, nextRC, rows, welcomeComplete, settled)
    }

    constructor ()
      ensures Valid() && Contents() == START
    {
      pending, nextRC, rows, welcomeComplete, settled := map[], 0, [], false, [];
    }

    method Register(spec: Spec, correlation: Option<string>, echo: Option<string>) returns (rc: nat)
      requires Valid()
      modifies this
      ensures Valid() && Contents() == Step(old(Contents()), Event.Register(spec, correlation, echo))
      ensures rc == old(nextRC) + 1 && rc in pending && rc !in old(pending)
    {
      nextRC := nextRC + 1;
      rc := nextRC;
      var key := correlation;
      if spec.correlated.Some? && spec.correlated.value.key == "return_code" {
        key := Some(Decimal(rc));
      }
      pending := pending[rc := Pending(spec, key, echo, [], None)];
    }

    method Unregister(rc: nat)
      requires Valid()
      modifies this
      ensures Valid() && Contents() == Step(old(Contents()), Event.Unregister(rc))
    {
      pending := pending - {rc};
    }

    method SignalWelcomeComplete()
      requires Valid()
      modifies this
      ensures Valid() && Contents() == Step(old(Contents()), Welcome)
    {
      welcomeComplete := true;
      rows := [];
    }

    /** True exactly when the declaration of a waiting command has `name` among its notifications. */
    method Expects(name: string) returns (expected: bool)
      requires Valid()
      ensures expected <==> exists rc :: rc in pending && Declares(pending[rc], name)
    {
      for rc := 0 to nextRC + 1
        invariant forall k | 0 <= k < rc && k in pending :: !Declares(pending[k], name)
      {
        if rc in pending {
          var p := pending[rc];
          if name in p.spec.notifications {
            return true;
          }
          if p.spec.correlated.Some? && name in p.spec.correlated.value.notifications {
            return true;
          }
        }
      }
      return false;
    }

    method Buffer(params: Params, source: string)
      requires Valid()
      modifies this
      ensures Valid() && Contents() == Step(old(Contents()), Arrived(Row(source, params)))
    {
      if !welcomeComplete {
        return;
      }
      if |pending| == 0 {
        return;
      }
      rows := rows + [Row(source, params)];
    }

    method SettleCommand(rc: nat, result: Result)
      requires Valid()
      modifies this
      ensures Valid() && Contents() == Settle(old(Contents()), rc, result)
    {
      pending := pending - {rc};
      settled := settled + [Settlement(rc, result)];
    }

    method OfferCorrelated(name: string, params: Params)
      requires Valid()
      modifies this
      ensures Valid() && Contents() == Step(old(Contents()), Offer(name, params))
    {
      for rc := 0 to nextRC + 1
        invariant Valid() && Contents() == old(Contents())
        invariant FirstCorrelated(Contents(), name, params, rc) == FirstCorrelated(Contents(), name, params, 0)
      {
        if rc !in pending {
          continue;
        }
        var p := pending[rc];
        if p.spec.correlated.None? || p.correlation.None? || name !in p.spec.correlated.value.notifications {
          continue;
        }
        var c := p.spec.correlated.value;
        if Lookup(params, c.key) != p.correlation {
          continue;
        }
        if Some(name) == c.failure && Get(params, "status", "0") != "0" {
          SettleCommand(rc, Result(Some(FailureOf(params)), []));
          return;
        }
        var correlated := p.correlated + [params];
        if p.held.Some? {
          SettleCommand(rc, Result(None, p.held.value + correlated));
        } else {
          pending := pending[rc := p.(correlated := correlated)];
        }
        return;
      }
    }

    method Resolve(rc: nat, err: Option<Failure>, own: string)
      requires Valid()
      modifies this
      ensures Valid() && Contents() == Step(old(Contents()), Event.Resolve(rc, err, own))
    {
      var held := rows;
      rows := [];
      if rc !in pending {
        return;
      }
      var p := pending[rc];
      var data := Answer(p, held, own);
      if err.Some? {
        SettleCommand(rc, Result(err, data));
        return;
      }
      if p.spec.correlated.Some? && p.correlation.Some? && |p.correlated| == 0 {
        pending := pending[rc := p.(held := Some(data))];
        return;
      }
      SettleCommand(rc, Result(None, data + p.correlated));
    }

    method DiscardBuffer()
      requires Valid()
      modifies this
      ensures Valid() && Contents() == Step(old(Contents()), Discard)
    {
      rows := [];
    }

    method Reset(cause: Failure)
      requires Valid()
      modifies this
      ensures Valid() && Contents() == Step(old(Contents()), ResetAll(cause))
    {
      var lost := pending;
      pending := map[];
      ghost var before := settled;
      for rc := 0 to nextRC + 1
        invariant pending == map[] && nextRC == old(nextRC)
        invariant settled == before + AllFailed(lost, cause, rc)
      {
        if rc in lost {
          settled := settled + [Settlement(rc, Result(Some(cause), []))];
        }
      }
      rows := [];
      welcomeComplete := false;
    }
  }
}
