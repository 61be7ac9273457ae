/** The client's own methods: each is the step of `Query` it stands for. */
module QueryClients {
  import opened Wrappers
  import opened Query

  class QueryClient {
    const web: bool
    var pending: Option<Pending>
    var abandoned: int
    var strayKey: Option<string>
    /** The promises settled so far, in that order. */
    var outcomes: seq<Outcome>

    ghost function Contents(): Client
      reads this
    {
      Client(web, pending, abandoned, strayKey, outcomes)
    }

    constructor (web: bool)
      ensures Contents() == Start(web)
    {
      this.web := web;
      pending, abandoned, strayKey, outcomes := None, 0, None, [];
    }

    method Send(id: nat, command: string)
      requires pending.None?
      modifies this
      ensures Contents() == Sent(old(Contents()), id, command)
    {
      pending := Some(Pending(id, command, [], None));
    }

    method Leave(failed: bool) returns (abandonedByUs: bool)
      modifies this
      ensures Contents() == Left(old(Contents()), failed)
      ensures abandonedByUs <==> abandoned != old(abandoned)
    {
      abandonedByUs := false;
      if pending.Some? {
        var gone := pending.value;
        pending := None;
        if gone.held.None? && !failed {
          abandoned := abandoned + 1;
          abandonedByUs := true;
        }
        outcomes := outcomes + [GaveUp(gone.id)];
      }
    }

    method FailWrite(abandonedByUs: bool)
      modifies this
      ensures Contents() == if abandonedByUs then WriteFailed(old(Contents())) else old(Contents())
    {
      if abandonedByUs {
        abandoned := abandoned - 1;
      }
    }

    method ReadError(refused: bool)
      modifies this
      ensures Contents() == ErrorRead(old(Contents()), refused)
    {
      if abandoned > 0 {
        abandoned := abandoned - 1;
        return;
      }
      var was := pending;
      pending := None;
      if was.None? {
        return;
      }
      var p := was.value;
      strayKey := None;
      if refused || TransferRefused(p.command, p.rows) {
        outcomes := outcomes + [Refused(p.id)];
        return;
      }
      var late := if web then None else LateRowsOf(p.command);
      if late.None? || (HasLateRow(late.value, p.rows) && !late.value.several) {
        outcomes := outcomes + [Answered(p.id, p.rows)];
        return;
      }
      pending := Some(p.(held := late));
    }

    method Finish()
      requires pending.Some?
      modifies this
      ensures Contents() == Done(old(Contents()), Answered(old(pending).value.id, old(pending).value.rows))
    {
      var p := pending.value;
      pending := None;
      outcomes := outcomes + [Answered(p.id, p.rows)];
    }

    method TakeRow(row: Params)
      modifies this
      ensures Contents() == RowTaken(old(Contents()), row)
    {
      if pending.Some? {
        var p := pending.value;
        pending := Some(p.(rows := p.rows + [row]));
        if p.held.Some? && (p.held.value.any || Keyed(p.held.value, row)) {
          if !p.held.value.several && !p.held.value.any {
            Finish();
          }
        }
      }
    }

    method ReadRows(rows: seq<Params>)
      modifies this
      ensures Contents() == RowsRead(old(Contents()), rows, |rows|)
    {
      if abandoned > 0 {
        AbandonedDropsAll(Contents(), rows, |rows|);
        return;
      }
      for n := 0 to |rows|
        invariant Contents() == RowsRead(old(Contents()), rows, n) && abandoned <= 0
      {
        var row := rows[n];
        if strayKey.Some? && row.Keys == {strayKey.value} {
          var key := strayKey.value;
          var own := if pending.None? then None else LateRowsOf(pending.value.command);
          strayKey := None;
          if own.None? || key !in own.value.keys {
            continue;
          }
        }
        TakeRow(row);
      }
    }

    method EndHold()
      modifies this
      ensures Contents() == HoldEnded(old(Contents()))
    {
      if pending.Some? && pending.value.held.Some? {
        var held := pending.value.held.value;
        if !HasLateRow(held, pending.value.rows) && |held.keys| > 0 {
          strayKey := Some(held.keys[0]);
        }
        Finish();
      }
    }
  }

  lemma {:induction false} AbandonedDropsAll(c: Client, rows: seq<Params>, n: nat)
    requires c.abandoned > 0 && n <= |rows|
    ensures RowsRead(c, rows, n) == c
  {
    if n > 0 {
      AbandonedDropsAll(c, rows, n - 1);
    }
  }
}
