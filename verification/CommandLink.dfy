/** The tracker against a server that answers one client's lines in order: for each line its
    rows, then its `error`. Whatever else happens in between, a command that is answered gets
    exactly the rows the server sent for it. */
module CommandLink {
  import opened Wrappers
  import opened Commands
  import opened CommandLaws

  /** A line the client wrote, with the rows the server will answer. A line that nobody waits
      for carries no return code, and neither does its `error`. */
  datatype Request = Command(rc: nat, rows: seq<Params>) | Silent(rows: seq<Params>)

  /** The server answers `written[next]` and has sent `sent` of its rows, the first `missed` of
      them before the welcome was over. Codes up to `base` are from earlier connections. */
  datatype Link = Link(t: State, written: seq<Request>, next: nat, sent: nat, missed: nat, base: nat)

  datatype Move =
    | Write(spec: Spec, correlation: Option<string>, echo: Option<string>, rows: seq<Params>)
    | WriteFails(spec: Spec, correlation: Option<string>, echo: Option<string>)
    | WriteSilent(rows: seq<Params>)
    | GiveUp(rc: nat)
    | RowComes
    | ErrorComes(err: Option<Failure>, own: string)
    | WelcomeEnds
    | Notified(name: string, params: Params)
    | Unmodelled(name: string, params: Params)
    | StaleRow(params: Params)
    | StaleError(rc: nat, err: Option<Failure>, own: string)
    | Reconnect(cause: Failure)

  predicate Enabled(l: Link, m: Move) {
    match m
    case RowComes => l.next < |l.written| && l.sent < |l.written[l.next].rows|
    case ErrorComes(_, _) => l.next < |l.written| && l.sent == |l.written[l.next].rows|
    case Notified(name, _) => name != ""
    case Unmodelled(name, _) => name != ""
    // What is still under way from the connection before can only come in before the welcome.
    case StaleRow(_) => !l.t.welcome
    case StaleError(rc, _, _) => !l.t.welcome && rc <= l.base
    case _ => true
  }

  function Next(l: Link, m: Move): Link
    requires Enabled(l, m)
  {
    match m
    case Write(spec, correlation, echo, rows) =>
      l.(t := Step(l.t, Register(spec, correlation, echo)), written := l.written + [Command(l.t.nextRC + 1, rows)])
    case WriteFails(spec, correlation, echo) =>
      l.(t := Step(Step(l.t, Register(spec, correlation, echo)), Unregister(l.t.nextRC + 1)))
    case WriteSilent(rows) => l.(written := l.written + [Silent(rows)])
    case GiveUp(rc) => l.(t := Step(l.t, Unregister(rc)))
    case RowComes =>
      l.(t := Step(l.t, Arrived(Row("", l.written[l.next].rows[l.sent]))),
         sent := l.sent + 1,
         missed := if l.t.welcome then l.missed else l.sent + 1)
    case ErrorComes(err, own) =>
      var line := l.written[l.next];
      l.(t := if line.Command? then Step(l.t, Resolve(line.rc, err, own)) else Step(l.t, Discard),
         next := l.next + 1, sent := 0, missed := 0)
    case WelcomeEnds => l.(t := Step(l.t, Welcome), missed := l.sent)
    case Notified(name, params) => l.(t := Step(Step(l.t, Arrived(Row(name, params))), Offer(name, params)))
    case Unmodelled(name, params) => l.(t := Step(l.t, Arrived(Row(name, params))))
    case StaleRow(params) => l.(t := Step(l.t, Arrived(Row("", params))))
    case StaleError(rc, err, own) => l.(t := Step(l.t, Resolve(rc, err, own)))
    case Reconnect(cause) => Link(Step(l.t, ResetAll(cause)), [], 0, 0, 0, l.t.nextRC)
  }

  const FIRST := Link(START, [], 0, 0, 0, 0)

  // ---- The invariant ---------------------------------------------------------------------------

  /** The nameless ones of the first `n` rows. */
  function Nameless(rows: seq<Row>, n: nat): seq<Params>
    requires n <= |rows|
  {
    if n == 0 then []
    else if rows[n - 1].source == "" then Nameless(rows, n - 1) + [rows[n - 1].params]
    else Nameless(rows, n - 1)
  }

  /** The code of line `i`, if it has one, is of this connection and above those before it. */
  ghost predicate CodeOf(written: seq<Request>, base: nat, i: nat, code: nat)
    requires i < |written|
  {
    written[i].Command? && written[i].rc == code
  }

  ghost predicate CodesRise(l: Link) {
    && (forall i, c: nat {:trigger CodeOf(l.written, l.base, i, c)} |
          0 <= i < |l.written| && CodeOf(l.written, l.base, i, c) :: l.base < c <= l.t.nextRC)
    && (forall i, j, c: nat, d: nat {:trigger CodeOf(l.written, l.base, i, c), CodeOf(l.written, l.base, j, d)} |
          0 <= i < j < |l.written| && CodeOf(l.written, l.base, i, c) && CodeOf(l.written, l.base, j, d) :: c < d)
  }

  ghost predicate Placed(l: Link) {
    && l.next <= |l.written| && l.missed <= l.sent
    && (if l.next < |l.written| then l.sent <= |l.written[l.next].rows| else l.sent == 0)
  }

  /** The rows held are those of the answer under way, as far as it has come. */
  ghost predicate HoldsOwn(l: Link)
    requires Placed(l)
  {
    var held := Nameless(l.t.buffer, |l.t.buffer|);
    && (l.sent == 0 ==> held == [])
    && (l.next < |l.written| && l.written[l.next].Command? && l.written[l.next].rc in l.t.pending ==>
          held == l.written[l.next].rows[l.missed..l.sent])
  }

  ghost predicate ThisConnection(l: Link) {
    && l.base <= l.t.nextRC
    && (forall rc | rc in l.t.pending :: l.base < rc)
  }

  ghost predicate Good(l: Link) {
    Sound(l.t) && CodesRise(l) && Placed(l) && HoldsOwn(l) && ThisConnection(l)
  }

  // ---- It is kept -------------------------------------------------------------------------------

  lemma {:induction false} NamelessAppend(rows: seq<Row>, row: Row, n: nat)
    requires n <= |rows|
    ensures Nameless(rows + [row], n) == Nameless(rows, n)
    ensures Nameless(rows + [row], |rows| + 1) ==
      if row.source == "" then Nameless(rows + [row], |rows|) + [row.params] else Nameless(rows + [row], |rows|)
  {
    if n > 0 {
      NamelessAppend(rows, row, n - 1);
    }
  }

  lemma {:induction false} NamelessOf(rows: seq<Row>, row: Row)
    ensures Nameless(rows + [row], |rows + [row]|) ==
      if row.source == "" then Nameless(rows, |rows|) + [row.params] else Nameless(rows, |rows|)
  {
    NamelessAppend(rows, row, |rows|);
  }

  lemma {:induction false} WriteGood(l: Link, m: Move)
    requires Good(l) && m.Write?
    ensures Good(Next(l, m))
  {
    var l' := Next(l, m);
    RegisteredSound(l.t, m.spec, m.correlation, m.echo);
    assert forall i, c: nat | 0 <= i < |l.written| :: CodeOf(l'.written, l.base, i, c) == CodeOf(l.written, l.base, i, c);
    assert CodesRise(l');
    assert Placed(l');
    if l.next < |l.written| {
      assert l'.written[l.next] == l.written[l.next];
      if l.written[l.next].Command? {
        assert CodeOf(l.written, l.base, l.next, l.written[l.next].rc);
      }
    }
  }

  lemma {:induction false} WriteSilentGood(l: Link, m: Move)
    requires Good(l) && m.WriteSilent?
    ensures Good(Next(l, m))
  {
    var l' := Next(l, m);
    assert forall i, c: nat | 0 <= i < |l.written| :: CodeOf(l'.written, l.base, i, c) == CodeOf(l.written, l.base, i, c);
  }

  /** A step of the tracker alone that hands out no code, adds no command and no nameless row. */
  lemma {:induction false} SameRowsGood(l: Link, t: State)
    requires Good(l) && Sound(t) && t.nextRC >= l.t.nextRC
    requires t.pending.Keys <= l.t.pending.Keys
    requires Nameless(t.buffer, |t.buffer|) == Nameless(l.t.buffer, |l.t.buffer|)
    ensures Good(l.(t := t))
  {
    var l' := l.(t := t);
    assert forall i, c: nat | 0 <= i < |l.written| :: CodeOf(l'.written, l.base, i, c) == CodeOf(l.written, l.base, i, c);
  }

  lemma {:induction false} ArrivedNameless(s: State, row: Row)
    requires row.source != ""
    ensures var s' := Step(s, Arrived(row));
      Nameless(s'.buffer, |s'.buffer|) == Nameless(s.buffer, |s.buffer|) && s'.pending == s.pending && s'.nextRC == s.nextRC
  {
    NamelessOf(s.buffer, row);
  }

  lemma {:induction false} OfferKeepsRows(s: State, name: string, params: Params)
    ensures var s' := Step(s, Offer(name, params));
      s'.buffer == s.buffer && s'.nextRC == s.nextRC && s'.pending.Keys <= s.pending.Keys
  {
  }

  lemma {:induction false} NotifiedGood(l: Link, m: Move)
    requires Good(l) && Enabled(l, m) && (m.Notified? || m.Unmodelled?)
    ensures Good(Next(l, m))
  {
    var row := Row(m.name, m.params);
    var t := Step(l.t, Arrived(row));
    StepSound(l.t, Arrived(row));
    ArrivedNameless(l.t, row);
    SameRowsGood(l, t);
    if m.Notified? {
      StepSound(t, Offer(m.name, m.params));
      OfferKeepsRows(t, m.name, m.params);
      SameRowsGood(l.(t := t), Step(t, Offer(m.name, m.params)));
    }
  }

  lemma {:induction false} RowGood(l: Link, m: Move)
    requires Good(l) && Enabled(l, m) && m.RowComes?
    ensures Good(Next(l, m))
  {
    var l' := Next(l, m);
    var line := l.written[l.next];
    var row := Row("", line.rows[l.sent]);
    StepSound(l.t, Arrived(row));
    assert forall i, c: nat | 0 <= i < |l.written| :: CodeOf(l'.written, l.base, i, c) == CodeOf(l.written, l.base, i, c);
    assert CodesRise(l') && Placed(l');
    if line.Command? && line.rc in l.t.pending {
      assert l.t.pending != map[];
      NamelessOf(l.t.buffer, row);
      if l.t.welcome {
        assert line.rows[l.missed..l.sent + 1] == line.rows[l.missed..l.sent] + [line.rows[l.sent]];
      }
    }
  }

  lemma {:induction false} ErrorGood(l: Link, m: Move)
    requires Good(l) && Enabled(l, m) && m.ErrorComes?
    ensures Good(Next(l, m))
  {
    var l' := Next(l, m);
    var line := l.written[l.next];
    var e := if line.Command? then Resolve(line.rc, m.err, m.own) else Discard;
    StepSound(l.t, e);
    assert l'.t == Step(l.t, e);
    BufferStep(l.t, e);
    ClearsKeep(l.t, e);
    assert forall i, c: nat | 0 <= i < |l.written| :: CodeOf(l'.written, l.base, i, c) == CodeOf(l.written, l.base, i, c);
    assert CodesRise(l') && Placed(l');
  }

  lemma {:induction false} ClearsKeep(s: State, e: Event)
    requires e.Resolve? || e.Discard? || e.Welcome?
    ensures Step(s, e).nextRC == s.nextRC && Step(s, e).pending.Keys <= s.pending.Keys
  {
  }

  lemma {:induction false} WelcomeGood(l: Link, m: Move)
    requires Good(l) && m.WelcomeEnds?
    ensures Good(Next(l, m))
  {
    var l' := Next(l, m);
    StepSound(l.t, Welcome);
    assert forall i, c: nat | 0 <= i < |l.written| :: CodeOf(l'.written, l.base, i, c) == CodeOf(l.written, l.base, i, c);
    assert CodesRise(l') && Placed(l');
  }

  /** What comes in late from an earlier connection finds no command and changes nothing. */
  lemma {:induction false} StaleIsNothing(l: Link, m: Move)
    requires Good(l) && Enabled(l, m) && (m.StaleRow? || m.StaleError?)
    ensures Next(l, m) == l
  {
    if m.StaleError? {
      assert m.rc !in l.t.pending;
    }
  }

  lemma {:induction false} GiveUpGood(l: Link, m: Move)
    requires Good(l) && m.GiveUp?
    ensures Good(Next(l, m))
  {
    StepSound(l.t, Unregister(m.rc));
    SameRowsGood(l, Step(l.t, Unregister(m.rc)));
  }

  lemma {:induction false} WriteFailsGood(l: Link, m: Move)
    requires Good(l) && m.WriteFails?
    ensures Good(Next(l, m))
  {
    var e := Register(m.spec, m.correlation, m.echo);
    StepSound(l.t, e);
    StepSound(Step(l.t, e), Unregister(l.t.nextRC + 1));
    SameRowsGood(l, Next(l, m).t);
  }

  lemma {:induction false} ReconnectGood(l: Link, m: Move)
    requires Good(l) && m.Reconnect?
    ensures Good(Next(l, m))
  {
    StepSound(l.t, ResetAll(m.cause));
  }

  lemma {:induction false} NextGood(l: Link, m: Move)
    requires Good(l) && Enabled(l, m)
    ensures Good(Next(l, m))
  {
    match m
    case Write(_, _, _, _) => WriteGood(l, m);
    case WriteFails(_, _, _) => WriteFailsGood(l, m);
    case WriteSilent(_) => WriteSilentGood(l, m);
    case GiveUp(_) => GiveUpGood(l, m);
    case RowComes => RowGood(l, m);
    case ErrorComes(_, _) => ErrorGood(l, m);
    case WelcomeEnds => WelcomeGood(l, m);
    case Notified(_, _) => NotifiedGood(l, m);
    case Unmodelled(_, _) => NotifiedGood(l, m);
    case StaleRow(_) => StaleIsNothing(l, m);
    case StaleError(_, _, _) => StaleIsNothing(l, m);
    case Reconnect(_) => ReconnectGood(l, m);
  }

  /** `links` is a run: from the first state, one enabled move after another. */
  ghost predicate IsRun(links: seq<Link>, moves: seq<Move>) {
    && |links| == |moves| + 1 && links[0] == FIRST
    && forall i | 0 <= i < |moves| :: Enabled(links[i], moves[i]) && links[i + 1] == Next(links[i], moves[i])
  }

  lemma {:induction false} RunGood(links: seq<Link>, moves: seq<Move>, n: nat)
    requires IsRun(links, moves) && n < |links|
    ensures Good(links[n])
  {
    if n == 0 {
      assert forall rc: nat :: InOne(START, rc);
    } else {
      RunGood(links, moves, n - 1);
      NextGood(links[n - 1], moves[n - 1]);
    }
  }

  // ---- What a command is answered ------------------------------------------------------------------

  lemma {:induction false} KeptNameless(p: Pending, rows: seq<Row>, own: string, n: nat)
    requires n <= |rows|
    ensures var kept := Kept(p, rows, own, n); Nameless(kept, |kept|) == Nameless(rows, n)
    ensures forall row | row in Kept(p, rows, own, n) :: row in rows && Answers(p, row, own)
  {
    if n > 0 {
      KeptNameless(p, rows, own, n - 1);
      NamelessOf(Kept(p, rows, own, n - 1), rows[n - 1]);
    }
  }

  /** `data` is the rows the server sent for line `i` of `l`, except those before the welcome,
      among them only notifications that `p` declared as its answer. */
  ghost predicate IsOwnAnswer(l: Link, i: nat, p: Pending, own: string, data: seq<Params>)
    requires i < |l.written| && l.missed <= |l.written[i].rows|
  {
    exists rows: seq<Row> ::
      && data == ParamsOf(rows)
      && Nameless(rows, |rows|) == l.written[i].rows[l.missed..]
      && forall row | row in rows :: Answers(p, row, own)
  }

  /** A command that is answered gets its own rows, all of them and no other command's, however
      many commands before it were given up on. */
  lemma {:induction false} AnsweredWithOwn(links: seq<Link>, moves: seq<Move>, n: nat)
    requires IsRun(links, moves) && n < |moves| && moves[n].ErrorComes?
    requires links[n].written[links[n].next].Command?
    requires links[n].written[links[n].next].rc in links[n].t.pending
    ensures var l := links[n];
      var rc := l.written[l.next].rc;
      var p := l.t.pending[rc];
      var data := Answer(p, l.t.buffer, moves[n].own);
      && l.missed <= |l.written[l.next].rows|
      && IsOwnAnswer(l, l.next, p, moves[n].own, data)
      && links[n + 1].t == Closed(l.t.(buffer := []), rc, p, data, moves[n].err)
  {
    var l := links[n];
    RunGood(links, moves, n);
    var line := l.written[l.next];
    var p := l.t.pending[line.rc];
    var rows := Kept(p, l.t.buffer, moves[n].own, |l.t.buffer|);
    KeptNameless(p, l.t.buffer, moves[n].own, |l.t.buffer|);
    assert line.rows[l.missed..l.sent] == line.rows[l.missed..];
    assert Answer(p, l.t.buffer, moves[n].own) == ParamsOf(rows);
  }

  /** Only the end of the welcome, or rows before it, make an answer miss any of its rows. */
  lemma {:induction false} NothingMissed(links: seq<Link>, moves: seq<Move>, a: nat, n: nat)
    requires IsRun(links, moves) && a <= n < |links| && links[a].sent == 0 && links[a].t.welcome
    requires forall k | a <= k < n :: !moves[k].WelcomeEnds? && !moves[k].Reconnect?
    ensures links[n].missed == 0 && links[n].t.welcome
    decreases n
  {
    RunGood(links, moves, a);
    if a < n {
      NothingMissed(links, moves, a, n - 1);
      WelcomeStays(links[n - 1], moves[n - 1]);
    }
  }

  lemma {:induction false} WelcomeStays(l: Link, m: Move)
    requires Enabled(l, m) && l.t.welcome && !m.WelcomeEnds? && !m.Reconnect?
    ensures Next(l, m).t.welcome && (l.missed == 0 ==> Next(l, m).missed == 0)
  {
  }
}
