/** What holds of every run of the tracker, whatever calls it gets in whatever order. */
module CommandLaws {
  import opened Wrappers
  import opened Commands

  // ---- Each command settles once ----------------------------------------------------------

  ghost predicate CodesOnce(settled: seq<Settlement>) {
    forall i, j | 0 <= i < j < |settled| :: settled[i].rc != settled[j].rc
  }

  ghost predicate Settled(settled: seq<Settlement>, rc: nat) {
    exists i | 0 <= i < |settled| :: settled[i].rc == rc
  }

  ghost predicate InOne(s: State, rc: nat) {
    !(rc in s.pending && Settled(s.settled, rc)) && (rc in s.pending || Settled(s.settled, rc) ==> 1 <= rc <= s.nextRC)
  }

  /** A command is waiting or settled, never both and settled at most once; no code past the
      counter is in use; and nothing is held before the welcome is over. */
  ghost predicate Sound(s: State) {
    && CodesOnce(s.settled)
    && (forall rc: nat {:trigger InOne(s, rc)} :: InOne(s, rc))
    && (!s.welcome ==> s.buffer == [])
  }

  lemma {:induction false} SettledAppend(a: seq<Settlement>, b: seq<Settlement>, rc: nat)
    ensures Settled(a + b, rc) <==> Settled(a, rc) || Settled(b, rc)
  {
    if Settled(a, rc) {
      var i :| 0 <= i < |a| && a[i].rc == rc;
      assert (a + b)[i].rc == rc;
    }
    if Settled(b, rc) {
      var i :| 0 <= i < |b| && b[i].rc == rc;
      assert (a + b)[|a| + i].rc == rc;
    }
  }

  lemma {:induction false} SettleSound(s: State, rc: nat, result: Result)
    requires Sound(s) && rc in s.pending
    ensures Sound(Settle(s, rc, result))
  {
    var s' := Settle(s, rc, result);
    assert InOne(s, rc);
    forall x: nat
      ensures InOne(s', x)
    {
      assert InOne(s, x);
      SettledAppend(s.settled, [Settlement(rc, result)], x);
    }
  }

  lemma {:induction false} SameCodesSound(s: State, s': State)
    requires Sound(s) && s'.settled == s.settled && s'.nextRC == s.nextRC
    requires s'.pending.Keys <= s.pending.Keys && (!s'.welcome ==> s'.buffer == [])
    ensures Sound(s')
  {
    forall x: nat
      ensures InOne(s', x)
    {
      assert InOne(s, x);
    }
  }

  lemma {:induction false} RegisteredSound(s: State, spec: Spec, correlation: Option<string>, echo: Option<string>)
    requires Sound(s)
    ensures Sound(Registered(s, spec, correlation, echo))
  {
    forall x: nat
      ensures InOne(Registered(s, spec, correlation, echo), x)
    {
      assert InOne(s, x);
    }
  }

  lemma {:induction false} OfferedSound(s: State, name: string, params: Params)
    requires Sound(s)
    ensures Sound(Offered(s, name, params))
  {
    var first := FirstCorrelated(s, name, params, 0);
    if first.Some? {
      var rc := first.value;
      var p := s.pending[rc];
      SettleSound(s, rc, Result(Some(FailureOf(params)), []));
      if p.held.Some? {
        SettleSound(s, rc, Result(None, p.held.value + (p.correlated + [params])));
      }
      SameCodesSound(s, s.(pending := s.pending[rc := p.(correlated := p.correlated + [params])]));
    }
  }

  lemma {:induction false} ResolvedSound(s: State, rc: nat, err: Option<Failure>, own: string)
    requires Sound(s)
    ensures Sound(Resolved(s, rc, err, own))
  {
    var s0 := s.(buffer := []);
    SameCodesSound(s, s0);
    if rc in s.pending {
      var p := s.pending[rc];
      var data := Answer(p, s.buffer, own);
      SettleSound(s0, rc, Result(err, data));
      SettleSound(s0, rc, Result(None, data + p.correlated));
      SameCodesSound(s0, s0.(pending := s0.pending[rc := p.(held := Some(data))]));
    }
  }

  lemma {:induction false} AllFailedCodes(pending: map<nat, Pending>, err: Failure, n: nat)
    ensures var all := AllFailed(pending, err, n);
      CodesOnce(all) && forall i | 0 <= i < |all| :: all[i].rc < n && all[i].rc in pending
  {
    if n > 0 {
      AllFailedCodes(pending, err, n - 1);
    }
  }

  lemma {:induction false} ResetSound(s: State, err: Failure)
    requires Sound(s)
    ensures Sound(Reset(s, err))
  {
    var all := AllFailed(s.pending, err, s.nextRC + 1);
    AllFailedCodes(s.pending, err, s.nextRC + 1);
    forall x: nat
      ensures InOne(Reset(s, err), x)
    {
      assert InOne(s, x);
      SettledAppend(s.settled, all, x);
    }
    forall i, j | 0 <= i < |s.settled| && 0 <= j < |all|
      ensures s.settled[i].rc != all[j].rc
    {
      assert InOne(s, all[j].rc);
    }
  }

  lemma {:induction false} StepSound(s: State, e: Event)
    requires Sound(s)
    ensures Sound(Step(s, e))
  {
    match e
    case Register(spec, correlation, echo) => RegisteredSound(s, spec, correlation, echo);
    case Offer(name, params) => OfferedSound(s, name, params);
    case Resolve(rc, err, own) => ResolvedSound(s, rc, err, own);
    case ResetAll(cause) => ResetSound(s, cause);
    case Unregister(rc) => SameCodesSound(s, Step(s, e));
    case Welcome => SameCodesSound(s, Step(s, e));
    case Arrived(row) => SameCodesSound(s, Step(s, e));
    case Discard => SameCodesSound(s, Step(s, e));
  }

  /** However the calls come, each command settles at most once. */
  lemma {:induction false} RunSound(events: seq<Event>, n: nat)
    requires n <= |events|
    ensures Sound(Run(events, n))
  {
    if n == 0 {
      assert forall rc: nat :: InOne(START, rc);
    } else {
      RunSound(events, n - 1);
      StepSound(Run(events, n - 1), events[n - 1]);
    }
  }

  // ---- Return codes --------------------------------------------------------------------------

  /** The code a registration gets: one more than all registrations before it, in whatever
      connection they were. */
  function Registrations(events: seq<Event>, n: nat): nat
    requires n <= |events|
  {
    if n == 0 then 0 else Registrations(events, n - 1) + if events[n - 1].Register? then 1 else 0
  }

  lemma {:induction false} CodesCount(events: seq<Event>, n: nat)
    requires n <= |events|
    ensures Run(events, n).nextRC == Registrations(events, n)
  {
    if n > 0 {
      CodesCount(events, n - 1);
    }
  }

  lemma {:induction false} RegistrationsGrow(events: seq<Event>, a: nat, b: nat)
    requires a <= b <= |events|
    ensures Registrations(events, a) <= Registrations(events, b)
    decreases b
  {
    if a < b {
      RegistrationsGrow(events, a, b - 1);
    }
  }

  /** No return code is handed out twice, a reset in between or not. */
  lemma {:induction false} CodesNeverRepeat(events: seq<Event>, a: nat, b: nat)
    requires a < b < |events| && events[a].Register? && events[b].Register?
    ensures Run(events, a + 1).nextRC < Run(events, b + 1).nextRC
    ensures Run(events, a + 1).nextRC in Run(events, a + 1).pending
  {
    CodesCount(events, a + 1);
    CodesCount(events, b + 1);
    RegistrationsGrow(events, a + 1, b);
  }

  // ---- Whose a row is --------------------------------------------------------------------------

  predicate Clears(e: Event) {
    e.Welcome? || e.Resolve? || e.Discard? || e.ResetAll?
  }

  /** Row `k` was taken up as it arrived. */
  ghost predicate TakenUp(events: seq<Event>, k: nat)
    requires k < |events|
  {
    events[k].Arrived? && Run(events, k).welcome && Run(events, k).pending != map[]
  }

  /** Row `k` was taken up and no `error`, end of welcome or reset came before call `n`. */
  ghost predicate Due(events: seq<Event>, k: nat, n: nat)
    requires n <= |events|
  {
    k < n && TakenUp(events, k) && forall m | k < m < n :: !Clears(events[m])
  }

  /** `at` are the positions, in order, of the rows due at call `n`. */
  ghost predicate AreDue(events: seq<Event>, n: nat, at: seq<nat>)
    requires n <= |events|
  {
    && (forall i, j | 0 <= i < j < |at| :: at[i] < at[j])
    && (forall i | 0 <= i < |at| :: Due(events, at[i], n))
    && (forall k: nat | Due(events, k, n) :: k in at)
  }

  ghost predicate IsRowAt(events: seq<Event>, at: nat, row: Row) {
    at < |events| && events[at] == Arrived(row)
  }

  /** `rows` are the rows at those positions. */
  ghost predicate RowsAt(events: seq<Event>, at: seq<nat>, rows: seq<Row>) {
    && |rows| == |at|
    && forall i {:trigger IsRowAt(events, at[i], rows[i])} | 0 <= i < |at| :: IsRowAt(events, at[i], rows[i])
  }

  lemma {:induction false} RowsAtMore(events: seq<Event>, at: seq<nat>, rows: seq<Row>, n: nat, row: Row)
    requires RowsAt(events, at, rows) && IsRowAt(events, n, row)
    ensures RowsAt(events, at + [n], rows + [row])
  {
    forall i | 0 <= i < |at + [n]|
      ensures IsRowAt(events, (at + [n])[i], (rows + [row])[i])
    {
      if i < |at| {
        assert IsRowAt(events, at[i], rows[i]);
      }
    }
  }

  lemma {:induction false} DueStep(events: seq<Event>, k: nat, n: nat)
    requires n < |events|
    ensures k < n ==> (Due(events, k, n + 1) <==> Due(events, k, n) && !Clears(events[n]))
    ensures Due(events, n, n + 1) <==> TakenUp(events, n)
    ensures k > n ==> !Due(events, k, n + 1)
  {
    if k < n && TakenUp(events, k) && Clears(events[n]) {
      assert !Due(events, k, n + 1);
    }
  }

  /** The positions of the rows taken up and not yet cleared, one call at a time. */
  ghost function HeldAt(events: seq<Event>, n: nat): seq<nat>
    requires n <= |events|
  {
    if n == 0 || Clears(events[n - 1]) then []
    else if TakenUp(events, n - 1) then HeldAt(events, n - 1) + [n - 1]
    else HeldAt(events, n - 1)
  }

  lemma {:induction false} HeldIsDue(events: seq<Event>, n: nat)
    requires n <= |events|
    ensures AreDue(events, n, HeldAt(events, n))
  {
    if n > 0 {
      HeldIsDue(events, n - 1);
      DueNext(events, n - 1, HeldAt(events, n - 1), HeldAt(events, n));
    }
  }

  lemma {:induction false} DueNext(events: seq<Event>, n: nat, at: seq<nat>, at': seq<nat>)
    requires n < |events| && AreDue(events, n, at)
    requires at' == if Clears(events[n]) then [] else if TakenUp(events, n) then at + [n] else at
    ensures AreDue(events, n + 1, at')
  {
    forall i | 0 <= i < |at'|
      ensures Due(events, at'[i], n + 1)
    {
      DueStep(events, at'[i], n);
    }
    forall k: nat | Due(events, k, n + 1)
      ensures k in at'
    {
      DueStep(events, k, n);
      if k == n {
        assert at'[|at|] == n;
      } else {
        assert k in at;
      }
    }
  }

  lemma {:induction false} BufferStep(s: State, e: Event)
    ensures Step(s, e).buffer == if Clears(e) then []
      else if e.Arrived? && s.welcome && s.pending != map[] then s.buffer + [e.row] else s.buffer
  {
  }

  lemma {:induction false} BufferAtHeld(events: seq<Event>, n: nat)
    requires n <= |events|
    ensures RowsAt(events, HeldAt(events, n), Run(events, n).buffer)
  {
    if n > 0 {
      var s := Run(events, n - 1);
      BufferAtHeld(events, n - 1);
      BufferStep(s, events[n - 1]);
      if TakenUp(events, n - 1) {
        RowsAtMore(events, HeldAt(events, n - 1), s.buffer, n - 1, events[n - 1].row);
      }
    }
  }

  /** What the buffer holds is the rows taken up since the last `error`, in the order they came. */
  lemma {:induction false} BufferIsDue(events: seq<Event>, n: nat) returns (at: seq<nat>)
    requires n <= |events|
    ensures AreDue(events, n, at)
    ensures RowsAt(events, at, Run(events, n).buffer)
  {
    at := HeldAt(events, n);
    HeldIsDue(events, n);
    BufferAtHeld(events, n);
  }

  /** Call `n` is the `error` of command `rc`, and row `k` is one it is given to answer with. */
  ghost predicate GivenTo(events: seq<Event>, k: nat, n: nat, rc: nat) {
    n < |events| && events[n].Resolve? && events[n].rc == rc && rc in Run(events, n).pending && Due(events, k, n)
  }

  /** A row is given to at most one command, at one `error`. */
  lemma {:induction false} GivenOnce(events: seq<Event>, k: nat, n: nat, m: nat, a: nat, b: nat)
    requires GivenTo(events, k, n, a) && GivenTo(events, k, m, b)
    ensures n == m && a == b
  {
    if n < m {
      assert Clears(events[n]);
    } else if m < n {
      assert Clears(events[m]);
    }
  }

  // ---- Answers that echo the return code ---------------------------------------------------------

  lemma {:induction false} DecimalLast(n: nat)
    ensures Decimal(n)[|Decimal(n)| - 1] == Digit(n % 10)
  {
  }

  lemma {:induction false} DigitDiffers(a: nat, b: nat)
    requires a < 10 && b < 10 && Digit(a) == Digit(b)
    ensures a == b
  {
  }

  /** A number is read from its decimal digits without doubt. */
  lemma {:induction false} DecimalOnce(a: nat, b: nat)
    requires Decimal(a) == Decimal(b)
    ensures a == b
    decreases a
  {
    DecimalLast(a);
    DecimalLast(b);
    DigitDiffers(a % 10, b % 10);
    if a < 10 {
      assert |Decimal(b)| == 1;
    } else {
      assert b >= 10;
      assert Decimal(a)[..|Decimal(a)| - 1] == Decimal(a / 10);
      assert Decimal(b)[..|Decimal(b)| - 1] == Decimal(b / 10);
      DecimalOnce(a / 10, b / 10);
    }
  }

  predicate EchoesCode(p: Pending) {
    p.spec.correlated.Some? && p.spec.correlated.value.key == "return_code"
  }

  ghost predicate CodeEchoed(s: State, rc: nat)
    requires rc in s.pending
  {
    EchoesCode(s.pending[rc]) ==> s.pending[rc].correlation == Some(Decimal(rc))
  }

  ghost predicate OwnCodes(s: State) {
    forall rc {:trigger CodeEchoed(s, rc)} | rc in s.pending :: CodeEchoed(s, rc)
  }

  lemma {:induction false} PendingKept(s: State, e: Event, rc: nat)
    requires rc in s.pending && rc in Step(s, e).pending && (e.Register? ==> rc <= s.nextRC)
    ensures Step(s, e).pending[rc].spec == s.pending[rc].spec
    ensures Step(s, e).pending[rc].correlation == s.pending[rc].correlation
  {
  }

  lemma {:induction false} PendingNew(s: State, e: Event, rc: nat)
    requires rc in Step(s, e).pending && rc !in s.pending
    ensures e.Register? && rc == s.nextRC + 1
  {
  }

  /** A caller cannot make a command that echoes its code wait for another one's. */
  lemma {:induction false} RunOwnCodes(events: seq<Event>, n: nat)
    requires n <= |events|
    ensures OwnCodes(Run(events, n))
  {
    if n > 0 {
      RunOwnCodes(events, n - 1);
      RunSound(events, n - 1);
      OwnCodesStep(Run(events, n - 1), events[n - 1]);
    }
  }

  lemma {:induction false} OwnCodesStep(s: State, e: Event)
    requires OwnCodes(s) && Sound(s)
    ensures OwnCodes(Step(s, e))
  {
    var s' := Step(s, e);
    forall rc | rc in s'.pending
      ensures CodeEchoed(s', rc)
    {
      if rc in s.pending {
        assert CodeEchoed(s, rc) && InOne(s, rc);
        PendingKept(s, e, rc);
      } else {
        PendingNew(s, e, rc);
      }
    }
  }

  /** A notification carrying a return code answers, of the commands that echo theirs, that one. */
  lemma {:induction false} EchoFindsOwn(s: State, rc: nat, x: nat, name: string, params: Params)
    requires OwnCodes(s) && x in s.pending && EchoesCode(s.pending[x]) && Correlates(s.pending[x], name, params)
    requires Lookup(params, "return_code") == Some(Decimal(rc))
    ensures x == rc
  {
    assert CodeEchoed(s, x);
    DecimalOnce(x, rc);
  }

  // ---- Before or after the error -------------------------------------------------------------------

  lemma {:induction false} FirstSame(s: State, t: State, name: string, params: Params, rc: nat)
    requires rc <= s.nextRC + 1 && t.nextRC == s.nextRC && t.pending.Keys == s.pending.Keys
    requires forall x | x in s.pending :: Correlates(t.pending[x], name, params) == Correlates(s.pending[x], name, params)
    ensures FirstCorrelated(t, name, params, rc) == FirstCorrelated(s, name, params, rc)
    decreases s.nextRC + 1 - rc
  {
    if rc <= s.nextRC {
      FirstSame(s, t, name, params, rc + 1);
    }
  }

  /** A command that waits for a correlated answer ends alike whether that comes before or after its
      `error`: with the rows up to the `error`, then that answer. */
  lemma {:induction false} EitherOrder(s: State, rc: nat, name: string, params: Params, own: string)
    requires FirstCorrelated(s, name, params, 0) == Some(rc)
    requires s.pending[rc].correlated == [] && s.pending[rc].held.None?
    requires Some(name) != s.pending[rc].spec.correlated.value.failure || Get(params, "status", "0") == "0"
    ensures var early := Resolved(Offered(s, name, params), rc, None, own);
      var late := Offered(Resolved(s, rc, None, own), name, params);
      early == late == Settle(s.(buffer := []), rc, Result(None, Answer(s.pending[rc], s.buffer, own) + [params]))
  {
    var p := s.pending[rc];
    var data := Answer(p, s.buffer, own);
    var held := Resolved(s, rc, None, own);
    assert held == s.(buffer := [], pending := s.pending[rc := p.(held := Some(data))]);
    FirstSame(s, held, name, params, 0);
    assert held.pending - {rc} == s.pending - {rc};
    var offered := Offered(s, name, params);
    assert p.correlated + [params] == [params];
    assert offered == s.(pending := s.pending[rc := p.(correlated := [params])]);
    AnswerSame(p, p.(correlated := [params]), s.buffer, own, |s.buffer|);
    assert offered.pending - {rc} == s.pending - {rc};
  }

  lemma {:induction false} AnswerSame(p: Pending, q: Pending, rows: seq<Row>, own: string, n: nat)
    requires n <= |rows| && q.spec == p.spec && q.echo == p.echo
    ensures Kept(q, rows, own, n) == Kept(p, rows, own, n)
  {
    if n > 0 {
      AnswerSame(p, q, rows, own, n - 1);
    }
  }
}
