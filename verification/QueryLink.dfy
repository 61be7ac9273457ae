/** The ServerQuery client against a server that answers in order. Commands may be given up on at
    any point, rows may come after the `error` line of their answer or never, and a hold may end
    with or without its row. In every run it is known what each command was answered with; it is
    exactly its own rows when the rows come in time and no key is remembered from an earlier create,
    and a remembered key costs a command a row exactly when `KeepsAll` says so. */
module QueryLink {
  import opened Wrappers
  import opened Query

  /** A command and the answer it gets, whether its line reached the server, the stray key when it
      was sent, the rows of earlier answers that came to it, and how many rows of its own it was
      sent before its `error` and in all. Commands are numbered in the order of their start. */
  datatype Call = Call(
    command: string, rows: seq<Params>, refused: bool, arrived: bool,
    stray: Option<string>, late: seq<Params>, before: nat, taken: nat)

  /** The server has the lines of the commands `lines` and answers `lines[next]`: `sent` of its rows
      are out, and `closed` once its `error` is and the client holds the answer. `unsent` counts the
      commands given up on whose lines never got there, and whose writes have not yet failed. */
  datatype World = World(
    c: Client, calls: seq<Call>, lines: seq<nat>, next: nat, sent: nat, closed: bool, unsent: nat)

  function First(web: bool): World { World(Start(web), [], [], 0, 0, false, 0) }

  datatype Move =
    | Send(command: string, rows: seq<Params>, refused: bool, arrives: bool)
    | WriteFails
    | LateWriteFails
    | GiveUp
    | LateRowComes(row: Params)
    | RowComes
    | ErrorComes
    | HoldEnds

  predicate Held(c: Client) { c.pending.Some? && c.pending.value.held.Some? }

  predicate Shaped(w: World) {
    && (w.c.pending.Some? ==> |w.calls| > 0)
    && (w.next < |w.lines| ==> w.lines[w.next] < |w.calls|)
  }

  predicate Answering(w: World) { Shaped(w) && w.next < |w.lines| && w.unsent == 0 }

  /** The command the server answers. */
  function Line(w: World): Call
    requires Answering(w)
  {
    w.calls[w.lines[w.next]]
  }

  /** The moves of a server that answers in order. A row an earlier answer left behind comes before
      the next answer begins, and a write fails before any later line is answered. */
  predicate Enabled(w: World, m: Move) {
    && Shaped(w)
    && match m
       case Send(_, _, _, _) => w.c.pending.None?
       case WriteFails => w.c.pending.Some? && !w.calls[|w.calls| - 1].arrived
       case LateWriteFails => w.unsent > 0
       case GiveUp => w.c.pending.Some?
       case LateRowComes(_) => w.sent == 0 && !w.closed
       case RowComes => Answering(w) && w.sent < |Line(w).rows|
       case ErrorComes => Answering(w) && !w.closed
       case HoldEnds => w.closed && Held(w.c)
  }

  function NextLine(w: World, c: Client): World { w.(c := c, next := w.next + 1, sent := 0, closed := false) }

  function Noted(w: World, call: Call): World
    requires |w.calls| > 0
  {
    w.(calls := w.calls[|w.calls| - 1 := call])
  }

  function RowSent(w: World): World
    requires Enabled(w, RowComes)
  {
    var c := RowRead(w.c, Line(w).rows[w.sent]);
    if !w.closed then w.(c := c, sent := w.sent + 1)
    else
      var noted := Noted(w, w.calls[|w.calls| - 1].(taken := w.sent + 1));
      if Held(c) then noted.(c := c, sent := w.sent + 1) else NextLine(noted, c)
  }

  function ErrorSent(w: World): World
    requires Enabled(w, ErrorComes)
  {
    var c := ErrorRead(w.c, Line(w).refused);
    if w.c.abandoned > 0 then NextLine(w, c)
    else
      var noted := Noted(w, w.calls[|w.calls| - 1].(before := w.sent, taken := w.sent));
      if Held(c) then noted.(c := c, closed := true) else NextLine(noted, c)
  }

  function LateRowSent(w: World, row: Params): World
    requires Shaped(w)
  {
    if w.c.pending.None? || w.c.abandoned > 0 then w.(c := RowRead(w.c, row))
    else
      var last := w.calls[|w.calls| - 1];
      Noted(w, last.(late := last.late + [row])).(c := RowRead(w.c, row))
  }

  function Next(w: World, m: Move): World
    requires Enabled(w, m)
  {
    match m
    case Send(command, rows, refused, arrives) =>
      w.(c := Sent(w.c, |w.calls|, command),
         calls := w.calls + [Call(command, rows, refused, arrives, w.c.strayKey, [], 0, 0)],
         lines := if arrives then w.lines + [|w.calls|] else w.lines)
    case WriteFails => w.(c := Left(w.c, true))
    case LateWriteFails => w.(c := WriteFailed(w.c), unsent := w.unsent - 1)
    case GiveUp =>
      if Held(w.c) then NextLine(w, Left(w.c, false))
      else w.(c := Left(w.c, false), unsent := w.unsent + if w.calls[|w.calls| - 1].arrived then 0 else 1)
    case LateRowComes(row) => LateRowSent(w, row)
    case RowComes => RowSent(w)
    case ErrorComes => ErrorSent(w)
    case HoldEnds => NextLine(w, HoldEnded(w.c))
  }

  // ---- What a command receives -------------------------------------------------------------------

  predicate OnlyKey(row: Params, key: string) { row.Keys == {key} }

  /** The place of the first row that has the key and no other. */
  function FirstOnly(rows: seq<Params>, key: string): (i: nat)
    ensures i <= |rows|
    ensures forall j | 0 <= j < i :: !OnlyKey(rows[j], key)
    ensures i < |rows| ==> OnlyKey(rows[i], key)
  {
    if rows == [] then 0
    else
      var i := FirstOnly(rows[..|rows| - 1], key);
      if i < |rows| - 1 || OnlyKey(rows[|rows| - 1], key) then i else |rows|
  }

  function WithoutFirst(rows: seq<Params>, key: string): seq<Params> {
    var i := FirstOnly(rows, key);
    if i == |rows| then rows else rows[..i] + rows[i + 1..]
  }

  /** Of the rows that came before its `error`, those a command keeps: without the first that has the
      stray key and no other, unless its own answer carries that key. */
  function Kept(call: Call, rows: seq<Params>): seq<Params> {
    if call.stray.None? || Carries(call.command, call.stray.value) then rows
    else WithoutFirst(rows, call.stray.value)
  }

  /** The key still remembered after those rows. */
  function StrayAfter(call: Call, rows: seq<Params>): Option<string> {
    if call.stray.None? || FirstOnly(rows, call.stray.value) < |rows| then None else call.stray
  }

  ghost predicate Counts(call: Call) { call.before <= call.taken <= |call.rows| }

  function AtError(call: Call): seq<Params>
    requires Counts(call)
  {
    Kept(call, call.late + call.rows[..call.before])
  }

  function Received(call: Call): seq<Params>
    requires Counts(call)
  {
    AtError(call) + call.rows[call.before..call.taken]
  }

  lemma {:induction false} WithoutFirstMore(rows: seq<Params>, key: string, row: Params)
    ensures FirstOnly(rows, key) < |rows| ==>
              && FirstOnly(rows + [row], key) == FirstOnly(rows, key)
              && WithoutFirst(rows + [row], key) == WithoutFirst(rows, key) + [row]
    ensures FirstOnly(rows, key) == |rows| && !OnlyKey(row, key) ==>
              FirstOnly(rows + [row], key) == |rows| + 1 && WithoutFirst(rows + [row], key) == rows + [row]
    ensures FirstOnly(rows, key) == |rows| && OnlyKey(row, key) ==>
              FirstOnly(rows + [row], key) == |rows| && WithoutFirst(rows + [row], key) == rows
  {
    var i := FirstOnly(rows, key);
    var more := rows + [row];
    assert more[..|rows|] == rows;
    if i < |rows| {
      assert more[..i] + more[i + 1..] == (rows[..i] + rows[i + 1..]) + [row];
    } else if OnlyKey(row, key) {
      assert more[..|rows|] + more[|rows| + 1..] == rows;
    }
  }

  /** The command on the wire has, and the client remembers, what `seen` leaves. */
  ghost predicate Tracks(c: Client, call: Call, seen: seq<Params>) {
    && c.pending.Some? && c.pending.value.held.None? && c.pending.value.command == call.command
    && c.pending.value.rows == Kept(call, seen) && c.strayKey == StrayAfter(call, seen)
  }

  function WithRows(c: Client, call: Call, seen: seq<Params>): Client
    requires c.pending.Some?
  {
    c.(strayKey := StrayAfter(call, seen), pending := Some(c.pending.value.(rows := Kept(call, seen))))
  }

  /** One row more, before the `error`, with the command on the wire and no answer abandoned. */
  lemma {:induction false} RowKept(c: Client, call: Call, seen: seq<Params>, row: Params)
    requires c.abandoned <= 0 && Tracks(c, call, seen)
    ensures RowRead(c, row) == WithRows(c, call, seen + [row])
  {
    if call.stray.Some? {
      WithoutFirstMore(seen, call.stray.value, row);
    }
  }

  // ---- The invariant -----------------------------------------------------------------------------

  /** The `error` lines still to come. */
  function Due(w: World): int { |w.lines| - w.next - if w.closed then 1 else 0 }

  /** Whether the client waits for the `error` of a command that reached the server. */
  predicate Waiting(w: World) {
    w.c.pending.Some? && w.c.pending.value.held.None? && |w.calls| > 0 && w.calls[|w.calls| - 1].arrived
  }

  ghost predicate Counted(w: World) {
    && w.c.abandoned + (if Waiting(w) then 1 else 0) == Due(w) + w.unsent
    && w.c.abandoned >= w.unsent
    && w.next <= |w.lines|
    && (forall k | 0 <= k < |w.lines| :: w.lines[k] < |w.calls|)
    && (w.next == |w.lines| ==> w.sent == 0 && !w.closed)
    && (w.next < |w.lines| ==> w.sent <= |w.calls[w.lines[w.next]].rows|)
    && (w.closed <==> Held(w.c))
    && (w.closed ==> w.unsent == 0)
  }

  /** The rows of its own answer the command on the wire was sent so far. */
  function OwnSoFar(w: World, call: Call): seq<Params> {
    if call.arrived && w.next + 1 == |w.lines| && w.sent <= |call.rows| then call.rows[..w.sent] else []
  }

  /** The client has what `Kept` says of the rows its command was sent, and remembers the key until
      it has seen a row of it. */
  ghost predicate OnTrack(w: World) {
    w.c.pending.Some? ==>
      && |w.calls| > 0
      && var p, call := w.c.pending.value, w.calls[|w.calls| - 1];
         && p.id == |w.calls| - 1 && p.command == call.command
         && (call.arrived ==> w.next < |w.lines| && w.lines[|w.lines| - 1] == p.id)
         && if w.closed then
              && call.arrived && w.next + 1 == |w.lines| && !call.refused && Counts(call) && call.taken == w.sent
              && p.rows == Received(call) && w.c.strayKey.None? && p.held == LateRowsOf(call.command)
            else
              && p.rows == Kept(call, call.late + OwnSoFar(w, call))
              && w.c.strayKey == StrayAfter(call, call.late + OwnSoFar(w, call))
  }

  /** The outcome is what the command was sent: its rows, or its refusal. */
  ghost predicate IsAnswer(call: Call, o: Outcome) {
    match o
    case Answered(_, rows) => call.arrived && Counts(call) && !call.refused && rows == Received(call)
    case Refused(_) => call.arrived && Counts(call) && (call.refused || TransferRefused(call.command, AtError(call)))
    case GaveUp(_) => true
  }

  ghost predicate Fits(calls: seq<Call>, o: Outcome) { o.id < |calls| && IsAnswer(calls[o.id], o) }

  ghost predicate AllFit(w: World) {
    forall i | 0 <= i < |w.c.outcomes| :: Fits(w.calls, w.c.outcomes[i])
  }

  /** The number commands settled have stayed under. */
  function SettledBelow(w: World): int { |w.calls| - if w.c.pending.Some? then 1 else 0 }

  /** Commands are settled in the order of their start, each once. */
  ghost predicate Numbered(w: World) {
    && (forall i, j | 0 <= i < j < |w.c.outcomes| :: w.c.outcomes[i].id < w.c.outcomes[j].id)
    && (forall i | 0 <= i < |w.c.outcomes| :: w.c.outcomes[i].id < SettledBelow(w))
  }

  ghost predicate Good(w: World) {
    Counted(w) && OnTrack(w) && AllFit(w) && Numbered(w)
  }

  // ---- It is kept ------------------------------------------------------------------------------

  /** What was settled before stays what it was. */
  lemma {:induction false} SameOutcomes(w: World, w': World)
    requires Good(w) && w'.c.outcomes == w.c.outcomes && SettledBelow(w') >= SettledBelow(w)
    requires |w'.calls| >= |w.calls|
    requires forall i | 0 <= i < SettledBelow(w) && i < |w.calls| :: w'.calls[i] == w.calls[i]
    ensures AllFit(w') && Numbered(w')
  {
    forall i | 0 <= i < |w'.c.outcomes|
      ensures Fits(w'.calls, w'.c.outcomes[i])
    {
      assert Fits(w.calls, w.c.outcomes[i]);
    }
  }

  /** The client's command is settled, with what fits. */
  lemma {:induction false} DoneOutcomes(w: World, w': World, o: Outcome)
    requires Good(w) && w.c.pending.Some? && o.id == w.c.pending.value.id
    requires w'.c.outcomes == w.c.outcomes + [o] && w'.c.pending.None?
    requires |w'.calls| == |w.calls| && w'.calls[..|w.calls| - 1] == w.calls[..|w.calls| - 1]
    requires IsAnswer(w'.calls[|w.calls| - 1], o)
    ensures AllFit(w') && Numbered(w')
  {
    forall i | 0 <= i < |w'.c.outcomes|
      ensures Fits(w'.calls, w'.c.outcomes[i])
    {
      if i < |w.c.outcomes| {
        var id := w.c.outcomes[i].id;
        assert Fits(w.calls, w.c.outcomes[i]) && id < |w.calls| - 1;
        assert w'.calls[id] == w'.calls[..|w.calls| - 1][id] == w.calls[..|w.calls| - 1][id];
      }
    }
  }

  lemma {:induction false} SendGood(w: World, m: Move)
    requires Good(w) && Enabled(w, m) && m.Send?
    ensures Good(Next(w, m))
  {
    var w' := Next(w, m);
    SameOutcomes(w, w');
    var call := w'.calls[|w.calls|];
    assert OwnSoFar(w', call) == [] by {
      assert call.rows[..0] == [];
    }
    assert call.late + OwnSoFar(w', call) == [];
  }

  lemma {:induction false} WriteFailsGood(w: World, m: Move)
    requires Good(w) && Enabled(w, m) && (m.WriteFails? || m.LateWriteFails?)
    ensures Good(Next(w, m))
  {
    var w' := Next(w, m);
    if m.WriteFails? {
      DoneOutcomes(w, w', GaveUp(w.c.pending.value.id));
    } else {
      SameOutcomes(w, w');
    }
  }

  lemma {:induction false} GiveUpGood(w: World, m: Move)
    requires Good(w) && Enabled(w, m) && m.GiveUp?
    ensures Good(Next(w, m))
  {
    DoneOutcomes(w, Next(w, m), GaveUp(w.c.pending.value.id));
  }

  lemma {:induction false} LateRowStep(w: World, row: Params, call: Call)
    requires Shaped(w) && w.c.pending.Some? && w.c.abandoned == 0
    requires call == w.calls[|w.calls| - 1] && Tracks(w.c, call, call.late)
    ensures LateRowSent(w, row) ==
              Noted(w, call.(late := call.late + [row])).(c := WithRows(w.c, call, call.late + [row]))
  {
    RowKept(w.c, call, call.late, row);
  }

  lemma {:induction false} OnlyLate(w: World, call: Call)
    requires w.sent == 0
    ensures call.late + OwnSoFar(w, call) == call.late
  {
    assert OwnSoFar(w, call) == [];
  }

  lemma {:induction false} OneLateMore(w: World, call: Call, late: seq<Params>)
    requires Good(w) && w.sent == 0 && !w.closed && w.c.pending.Some? && |w.calls| > 0
    requires call == w.calls[|w.calls| - 1]
    ensures Good(Noted(w, call.(late := late)).(c := WithRows(w.c, call, late)))
  {
    var w' := Noted(w, call.(late := late)).(c := WithRows(w.c, call, late));
    OnlyLate(w', call.(late := late));
    SameOutcomes(w, w');
  }

  lemma {:induction false} OwnLateRow(w: World, row: Params)
    requires Good(w) && w.sent == 0 && !w.closed && w.c.pending.Some? && w.c.abandoned == 0
    ensures Good(LateRowSent(w, row))
  {
    var call := w.calls[|w.calls| - 1];
    OnlyLate(w, call);
    OneLateMore(w, call, call.late + [row]);
    LateRowStep(w, row, call);
  }

  lemma {:induction false} LateRowGood(w: World, m: Move)
    requires Good(w) && Enabled(w, m) && m.LateRowComes?
    ensures Good(Next(w, m))
  {
    if w.c.abandoned > 0 {
      assert Next(w, m) == w;
    } else if w.c.pending.Some? {
      OwnLateRow(w, m.row);
    } else {
      SameOutcomes(w, Next(w, m));
    }
  }

  /** While answers nobody waits for are due, their rows change nothing. */
  lemma {:induction false} AbandonedRow(w: World)
    requires Good(w) && Enabled(w, RowComes) && w.c.abandoned > 0
    ensures Good(Next(w, RowComes)) && Next(w, RowComes).c == w.c
  {
    NotItsTurn(w);
    RowPassed(w);
    assert Next(w, RowComes) == w.(sent := w.sent + 1);
  }

  lemma {:induction false} RowPassed(w: World)
    requires Good(w) && !w.closed && w.next < |w.lines| && w.sent < |w.calls[w.lines[w.next]].rows|
    requires w.c.pending.Some? && |w.calls| > 0 ==> !w.calls[|w.calls| - 1].arrived || w.next + 1 < |w.lines|
    ensures Good(w.(sent := w.sent + 1))
  {
    SameOutcomes(w, w.(sent := w.sent + 1));
  }

  /** And none of them is of the command on the wire. */
  lemma {:induction false} NotItsTurn(w: World)
    requires Good(w) && Answering(w) && w.c.abandoned > 0
    ensures !w.closed
    ensures w.c.pending.Some? ==> !w.calls[|w.calls| - 1].arrived || w.next + 1 < |w.lines|
  {
  }

  /** With none due, the answer under way is that of the command on the wire. */
  lemma {:induction false} OwnAnswer(w: World)
    requires Good(w) && Answering(w) && w.c.abandoned == 0
    ensures w.c.pending.Some? && w.next + 1 == |w.lines| && w.lines[w.next] == |w.calls| - 1
    ensures Line(w) == w.calls[|w.calls| - 1] && Line(w).arrived
    ensures !w.closed ==> Tracks(w.c, Line(w), Line(w).late + Line(w).rows[..w.sent])
  {
  }

  lemma {:induction false} OwnRowStep(w: World, seen: seq<Params>)
    requires Enabled(w, RowComes) && w.c.abandoned == 0 && !w.closed
    requires Tracks(w.c, Line(w), Line(w).late + Line(w).rows[..w.sent])
    requires seen == Line(w).late + Line(w).rows[..w.sent + 1]
    ensures Next(w, RowComes) == w.(sent := w.sent + 1, c := WithRows(w.c, Line(w), seen))
  {
    var row := Line(w).rows[w.sent];
    assert seen == (Line(w).late + Line(w).rows[..w.sent]) + [row];
    RowKept(w.c, Line(w), Line(w).late + Line(w).rows[..w.sent], row);
  }

  lemma {:induction false} OneRowMore(w: World, call: Call, seen: seq<Params>)
    requires Good(w) && w.c.pending.Some? && !w.closed && |w.calls| > 0 && call == w.calls[|w.calls| - 1]
    requires call.arrived && w.next + 1 == |w.lines| && w.lines[w.next] == |w.calls| - 1 && w.sent < |call.rows|
    requires seen == call.late + call.rows[..w.sent + 1]
    ensures Good(w.(sent := w.sent + 1, c := WithRows(w.c, call, seen)))
  {
    var w' := w.(sent := w.sent + 1, c := WithRows(w.c, call, seen));
    assert OwnSoFar(w', call) == call.rows[..w.sent + 1];
    SameOutcomes(w, w');
  }

  lemma {:induction false} OwnRow(w: World)
    requires Good(w) && Enabled(w, RowComes) && w.c.abandoned == 0 && !w.closed
    ensures Good(Next(w, RowComes))
  {
    OwnAnswer(w);
    var seen := Line(w).late + Line(w).rows[..w.sent + 1];
    OneRowMore(w, Line(w), seen);
    OwnRowStep(w, seen);
  }

  /** The answer under way ends with what settles its command. */
  lemma {:induction false} LineSettled(w: World, call: Call, c: Client, o: Outcome)
    requires Good(w) && Answering(w) && w.c.abandoned == 0
    requires call == Line(w).(before := call.before, taken := call.taken)
    requires c.pending.None? && c.abandoned == 0 && c.outcomes == w.c.outcomes + [o]
    requires o.id == |w.calls| - 1 && IsAnswer(call, o)
    ensures Good(NextLine(Noted(w, call), c))
  {
    OwnAnswer(w);
    DoneOutcomes(w, NextLine(Noted(w, call), c), o);
  }

  lemma {:induction false} HeldRow(w: World)
    requires Good(w) && Enabled(w, RowComes) && w.c.abandoned == 0 && w.closed
    ensures Good(Next(w, RowComes))
  {
    OwnAnswer(w);
    var call := Line(w);
    var call' := call.(taken := w.sent + 1);
    assert Received(call') == Received(call) + [call.rows[w.sent]] by {
      assert call.rows[call.before..w.sent + 1] == call.rows[call.before..w.sent] + [call.rows[w.sent]];
    }
    var c := RowRead(w.c, call.rows[w.sent]);
    if Held(c) {
      assert Next(w, RowComes) == Noted(w, call').(c := c, sent := w.sent + 1);
      SameOutcomes(w, Next(w, RowComes));
    } else {
      LineSettled(w, call', c, Answered(w.c.pending.value.id, Received(call')));
    }
  }

  lemma {:induction false} AbandonedError(w: World)
    requires Good(w) && Enabled(w, ErrorComes) && w.c.abandoned > 0
    ensures Good(Next(w, ErrorComes))
  {
    NotItsTurn(w);
    LinePassed(w);
    assert Next(w, ErrorComes) == NextLine(w, w.c.(abandoned := w.c.abandoned - 1));
  }

  lemma {:induction false} NoneOwn(w: World, call: Call)
    requires !call.arrived || w.next + 1 != |w.lines|
    ensures call.late + OwnSoFar(w, call) == call.late
  {
  }

  lemma {:induction false} LinePassed(w: World)
    requires Good(w) && !w.closed && w.next < |w.lines| && w.unsent == 0 && w.c.abandoned > 0
    requires w.c.pending.Some? && |w.calls| > 0 ==> !w.calls[|w.calls| - 1].arrived || w.next + 1 < |w.lines|
    ensures Good(NextLine(w, w.c.(abandoned := w.c.abandoned - 1)))
  {
    var w' := NextLine(w, w.c.(abandoned := w.c.abandoned - 1));
    SameOutcomes(w, w');
    if w.c.pending.Some? {
      NoneOwn(w, w.calls[|w.calls| - 1]);
      OnlyLate(w', w'.calls[|w.calls| - 1]);
    }
  }

  /** At its `error` a command is held, or settled with what fits. */
  lemma {:induction false} ErrorSettles(c: Client, call: Call)
    requires c.abandoned == 0 && c.pending.Some? && c.pending.value.command == call.command && call.arrived
    requires Counts(call) && c.pending.value.rows == AtError(call) == Received(call)
    ensures var p, c' := c.pending.value, ErrorRead(c, call.refused);
            && c'.abandoned == 0 && c'.strayKey.None?
            && if Held(c') then
                 && !call.refused && c'.outcomes == c.outcomes
                 && c'.pending.value == p.(held := LateRowsOf(p.command))
               else
                 && c'.pending.None? && |c'.outcomes| == |c.outcomes| + 1
                 && var o := c'.outcomes[|c.outcomes|];
                    c'.outcomes == c.outcomes + [o] && o.id == p.id && IsAnswer(call, o)
  {
  }

  lemma {:induction false} OwnErrorHeld(w: World, call: Call, c: Client)
    requires Good(w) && Answering(w) && w.c.abandoned == 0 && !w.closed
    requires call == Line(w).(before := w.sent, taken := w.sent) && !call.refused && Counts(call)
    requires w.c.pending.Some? && w.c.pending.value.rows == Received(call) && Held(c)
    requires c == w.c.(strayKey := None, pending := Some(w.c.pending.value.(held := LateRowsOf(call.command))))
    ensures Good(Noted(w, call).(c := c, closed := true))
  {
    OwnAnswer(w);
    SameOutcomes(w, Noted(w, call).(c := c, closed := true));
  }

  lemma {:induction false} RowsAtError(w: World, call: Call)
    requires Good(w) && Enabled(w, ErrorComes) && w.c.abandoned == 0
    requires call == Line(w).(before := w.sent, taken := w.sent)
    ensures w.c.pending.Some? && w.c.pending.value.id == |w.calls| - 1 && w.c.pending.value.command == call.command
    ensures call.arrived && Counts(call) && w.c.pending.value.rows == AtError(call) == Received(call)
    ensures Line(w) == w.calls[|w.calls| - 1]
  {
    OwnAnswer(w);
    assert call.rows[w.sent..w.sent] == [];
  }

  lemma {:induction false} OwnError(w: World)
    requires Good(w) && Enabled(w, ErrorComes) && w.c.abandoned == 0
    ensures Good(Next(w, ErrorComes))
  {
    var call := Line(w).(before := w.sent, taken := w.sent);
    RowsAtError(w, call);
    ErrorSettles(w.c, call);
    var c := ErrorRead(w.c, call.refused);
    if Held(c) {
      OwnErrorHeld(w, call, c);
    } else {
      LineSettled(w, call, c, c.outcomes[|w.c.outcomes|]);
    }
  }

  lemma {:induction false} HoldEndsGood(w: World, m: Move)
    requires Good(w) && Enabled(w, m) && m.HoldEnds?
    ensures Good(Next(w, m))
  {
    OwnAnswer(w);
    assert Noted(w, Line(w)) == w;
    LineSettled(w, Line(w), HoldEnded(w.c), Answered(|w.calls| - 1, w.c.pending.value.rows));
  }

  lemma {:induction false} NextGood(w: World, m: Move)
    requires Good(w) && Enabled(w, m)
    ensures Good(Next(w, m))
  {
    match m
    case Send(_, _, _, _) => SendGood(w, m);
    case WriteFails => WriteFailsGood(w, m);
    case LateWriteFails => WriteFailsGood(w, m);
    case GiveUp => GiveUpGood(w, m);
    case LateRowComes(_) => LateRowGood(w, m);
    case RowComes =>
      if w.c.abandoned > 0 { AbandonedRow(w); } else if w.closed { HeldRow(w); } else { OwnRow(w); }
    case ErrorComes => if w.c.abandoned > 0 { AbandonedError(w); } else { OwnError(w); }
    case HoldEnds => HoldEndsGood(w, m);
  }

  ghost predicate IsRun(web: bool, worlds: seq<World>, moves: seq<Move>) {
    && |worlds| == |moves| + 1 && worlds[0] == First(web)
    && forall i | 0 <= i < |moves| :: Enabled(worlds[i], moves[i]) && worlds[i + 1] == Next(worlds[i], moves[i])
  }

  lemma {:induction false} RunGood(web: bool, worlds: seq<World>, moves: seq<Move>, n: nat)
    requires IsRun(web, worlds, moves) && n < |worlds|
    ensures Good(worlds[n])
  {
    if n > 0 {
      RunGood(web, worlds, moves, n - 1);
      NextGood(worlds[n - 1], moves[n - 1]);
    }
  }

  // ---- What a caller sees ------------------------------------------------------------------------

  /** The answers still due are those of the commands given up on, and that of the command on the
      wire unless its `error` was read. */
  lemma {:induction false} DueCount(web: bool, worlds: seq<World>, moves: seq<Move>, n: nat)
    requires IsRun(web, worlds, moves) && n < |worlds|
    requires worlds[n].unsent == 0
    requires worlds[n].c.pending.Some? && |worlds[n].calls| > 0 ==> worlds[n].calls[|worlds[n].calls| - 1].arrived
    ensures Due(worlds[n]) == worlds[n].c.abandoned + if worlds[n].c.pending.Some? && !Held(worlds[n].c) then 1 else 0
  {
    RunGood(web, worlds, moves, n);
  }

  /** Every command that is settled had reached the server, unless it was given up on, and was
      answered with what `Received` says, or refused for that; and none is settled twice. */
  lemma {:induction false} EveryAnswerKnown(web: bool, worlds: seq<World>, moves: seq<Move>, n: nat, i: nat)
    requires IsRun(web, worlds, moves) && n < |worlds| && i < |worlds[n].c.outcomes|
    ensures Fits(worlds[n].calls, worlds[n].c.outcomes[i])
    ensures forall j | 0 <= j < |worlds[n].c.outcomes| && j != i ::
              worlds[n].c.outcomes[j].id != worlds[n].c.outcomes[i].id
  {
    RunGood(web, worlds, moves, n);
  }

  /** What was answered or refused had reached the server. */
  lemma {:induction false} AnsweredWasSent(web: bool, worlds: seq<World>, moves: seq<Move>, n: nat, i: nat)
    requires IsRun(web, worlds, moves) && n < |worlds| && i < |worlds[n].c.outcomes| && !worlds[n].c.outcomes[i].GaveUp?
    ensures worlds[n].c.outcomes[i].id < |worlds[n].calls| && worlds[n].calls[worlds[n].c.outcomes[i].id].arrived
  {
    EveryAnswerKnown(web, worlds, moves, n, i);
  }

  /** No row that came before its `error` is taken for another's. */
  ghost predicate KeepsAll(call: Call)
    requires Counts(call)
  {
    || call.stray.None? || Carries(call.command, call.stray.value)
    || forall i | 0 <= i < call.before :: !OnlyKey(call.rows[i], call.stray.value)
  }

  /** The one row that came late is the one the client remembers the key of. */
  ghost predicate OnlyTheStray(call: Call) {
    && call.stray.Some? && !Carries(call.command, call.stray.value)
    && |call.late| == 1 && OnlyKey(call.late[0], call.stray.value)
  }

  lemma {:induction false} WithoutFirstIsOwn(late: seq<Params>, own: seq<Params>, key: string)
    ensures WithoutFirst(late + own, key) == own <==>
              || (late == [] && forall i | 0 <= i < |own| :: !OnlyKey(own[i], key))
              || (|late| == 1 && OnlyKey(late[0], key))
  {
    var seen := late + own;
    var i := FirstOnly(seen, key);
    assert |WithoutFirst(seen, key)| == |late| + |own| - if i < |seen| then 1 else 0;
    if late == [] {
      assert seen == own;
    } else if |late| == 1 {
      assert seen[0] == late[0] && seen[1..] == own;
      if 0 < i < |seen| {
        assert !OnlyKey(seen[i - 1], key) && OnlyKey(own[i - 1], key);
        assert WithoutFirst(seen, key)[i - 1] == seen[i - 1];
      }
    }
  }

  /** A command whose rows have all come is answered with exactly them if, and only if, no row of an
      earlier answer came to it and it lost none of its own, or the one that came was the stray. */
  lemma {:induction false} ExactIff(web: bool, worlds: seq<World>, moves: seq<Move>, n: nat, i: nat)
    requires IsRun(web, worlds, moves) && n < |worlds|
    requires i < |worlds[n].c.outcomes| && worlds[n].c.outcomes[i].Answered?
    ensures var o := worlds[n].c.outcomes[i];
            && o.id < |worlds[n].calls|
            && var call := worlds[n].calls[o.id];
               && Counts(call)
               && (call.taken == |call.rows| ==>
                     (o.rows == call.rows <==> (call.late == [] && KeepsAll(call)) || OnlyTheStray(call)))
  {
    EveryAnswerKnown(web, worlds, moves, n, i);
    var call := worlds[n].calls[worlds[n].c.outcomes[i].id];
    if call.taken == |call.rows| {
      var own := call.rows[..call.before];
      assert call.rows == own + call.rows[call.before..];
      SameTail(AtError(call), own, call.rows[call.before..call.taken]);
      if call.stray.None? || Carries(call.command, call.stray.value) {
        assert |call.late + own| == |call.late| + |own|;
        assert call.late == [] ==> call.late + own == own;
      } else {
        WithoutFirstIsOwn(call.late, own, call.stray.value);
      }
    }
  }

  lemma {:induction false} SameTail(a: seq<Params>, b: seq<Params>, tail: seq<Params>)
    ensures a + tail == b + tail <==> a == b
  {
    if a + tail == b + tail {
      assert |a| == |b|;
      assert a == (a + tail)[..|a|] == (b + tail)[..|b|] == b;
    }
  }

  /** A late row that has only the remembered key reaches the next command exactly when that
      command's own answer carries the key; else it gets its own rows alone. */
  lemma {:induction false} StrayKeptOut(web: bool, worlds: seq<World>, moves: seq<Move>, n: nat, i: nat)
    requires IsRun(web, worlds, moves) && n < |worlds|
    requires i < |worlds[n].c.outcomes| && worlds[n].c.outcomes[i].Answered?
    ensures var o := worlds[n].c.outcomes[i];
            && o.id < |worlds[n].calls|
            && var call := worlds[n].calls[o.id];
               call.stray.Some? && |call.late| == 1 && OnlyKey(call.late[0], call.stray.value)
               && call.taken == |call.rows| ==>
                 (o.rows == call.rows <==> !Carries(call.command, call.stray.value))
  {
    ExactIff(web, worlds, moves, n, i);
  }

  // ---- When rows come in time ----------------------------------------------------------------------

  /** An answer's rows come before its `error`, or while the client holds the answer. */
  predicate InTime(w: World, m: Move)
    requires Enabled(w, m)
  {
    match m
    case LateRowComes(_) => false
    case RowComes => w.closed ==> w.sent + 1 == |Line(w).rows| || Held(RowRead(w.c, Line(w).rows[w.sent]))
    case ErrorComes => w.sent == |Line(w).rows| || (w.c.abandoned == 0 && Held(ErrorRead(w.c, Line(w).refused)))
    case HoldEnds => w.next < |w.lines| ==> w.sent == |w.calls[w.lines[w.next]].rows|
    case _ => true
  }

  ghost predicate IsTimelyRun(web: bool, worlds: seq<World>, moves: seq<Move>) {
    && IsRun(web, worlds, moves)
    && forall i | 0 <= i < |moves| :: Enabled(worlds[i], moves[i]) && InTime(worlds[i], moves[i])
  }

  /** All its rows had come when a command was settled. */
  ghost predicate Whole(calls: seq<Call>, o: Outcome) {
    o.id < |calls| && match o
      case Answered(id, _) => calls[id].taken == |calls[id].rows|
      case Refused(id) => calls[id].before == |calls[id].rows|
      case GaveUp(_) => true
  }

  ghost predicate Timely(w: World) {
    && (forall i | 0 <= i < |w.calls| :: w.calls[i].late == [])
    && (forall i | 0 <= i < |w.c.outcomes| :: Whole(w.calls, w.c.outcomes[i]))
  }

  lemma {:induction false} TimelyStays(w: World, w': World)
    requires Good(w) && Timely(w)
    requires |w'.calls| >= |w.calls| && forall i | 0 <= i < |w'.calls| :: w'.calls[i].late == []
    requires forall i | 0 <= i < SettledBelow(w) && i < |w.calls| :: w'.calls[i] == w.calls[i]
    requires |w'.c.outcomes| <= |w.c.outcomes| + 1 && w.c.outcomes <= w'.c.outcomes
    requires |w'.c.outcomes| > |w.c.outcomes| ==> Whole(w'.calls, w'.c.outcomes[|w.c.outcomes|])
    ensures Timely(w')
  {
    forall i | 0 <= i < |w'.c.outcomes|
      ensures Whole(w'.calls, w'.c.outcomes[i])
    {
      if i < |w.c.outcomes| {
        assert w'.c.outcomes[i] == w.c.outcomes[i];
        assert Whole(w.calls, w.c.outcomes[i]);
      }
    }
  }

  lemma {:induction false} RowTimely(w: World)
    requires Good(w) && Timely(w) && Enabled(w, RowComes) && InTime(w, RowComes)
    ensures Timely(Next(w, RowComes))
  {
    TimelyStays(w, Next(w, RowComes));
  }

  lemma {:induction false} NotedTimely(w: World, call: Call, w': World)
    requires Good(w) && Timely(w) && w.c.pending.Some? && |w.calls| > 0
    requires call.late == [] && w'.calls == w.calls[|w.calls| - 1 := call] && w'.c.outcomes == w.c.outcomes
    ensures Timely(w')
  {
    TimelyStays(w, w');
  }

  lemma {:induction false} SettledTimely(w: World, call: Call, w': World, o: Outcome)
    requires Good(w) && Timely(w) && w.c.pending.Some? && |w.calls| > 0
    requires call.late == [] && w'.calls == w.calls[|w.calls| - 1 := call] && w'.c.outcomes == w.c.outcomes + [o]
    requires o.id == |w.calls| - 1 && call.before == call.taken == |call.rows|
    ensures Timely(w')
  {
    TimelyStays(w, w');
  }

  lemma {:induction false} OwnErrorTimely(w: World, call: Call, c: Client)
    requires Good(w) && Timely(w) && Enabled(w, ErrorComes) && w.c.abandoned == 0
    requires call == Line(w).(before := w.sent, taken := w.sent) && c == ErrorRead(w.c, call.refused)
    requires Held(c) || w.sent == |call.rows|
    ensures Timely(ErrorSent(w))
  {
    RowsAtError(w, call);
    ErrorSettles(w.c, call);
    if Held(c) {
      NotedTimely(w, call, ErrorSent(w));
    } else {
      SettledTimely(w, call, ErrorSent(w), c.outcomes[|w.c.outcomes|]);
    }
  }

  lemma {:induction false} ErrorTimely(w: World)
    requires Good(w) && Timely(w) && Enabled(w, ErrorComes) && InTime(w, ErrorComes)
    ensures Timely(Next(w, ErrorComes))
  {
    if w.c.abandoned > 0 {
      TimelyStays(w, Next(w, ErrorComes));
    } else {
      OwnErrorTimely(w, Line(w).(before := w.sent, taken := w.sent), ErrorRead(w.c, Line(w).refused));
    }
  }

  lemma {:induction false} NextTimely(w: World, m: Move)
    requires Good(w) && Timely(w) && Enabled(w, m) && InTime(w, m)
    ensures Timely(Next(w, m))
  {
    var w' := Next(w, m);
    if m.RowComes? {
      RowTimely(w);
    } else if m.ErrorComes? {
      ErrorTimely(w);
    } else {
      TimelyStays(w, w');
    }
  }

  lemma {:induction false} RunTimely(web: bool, worlds: seq<World>, moves: seq<Move>, n: nat)
    requires IsTimelyRun(web, worlds, moves) && n < |worlds|
    ensures Timely(worlds[n])
  {
    if n > 0 {
      RunTimely(web, worlds, moves, n - 1);
      RunGood(web, worlds, moves, n - 1);
      NextTimely(worlds[n - 1], moves[n - 1]);
    }
  }

  /** With rows that come in time, a command sent while a key is remembered is answered with exactly
      its own rows if, and only if, its own answer carries that key, or none of its rows before its
      `error` has that key and no other. */
  lemma {:induction false} OwnRowsIff(web: bool, worlds: seq<World>, moves: seq<Move>, n: nat, i: nat)
    requires IsTimelyRun(web, worlds, moves) && n < |worlds|
    requires i < |worlds[n].c.outcomes| && worlds[n].c.outcomes[i].Answered?
    ensures var o := worlds[n].c.outcomes[i];
            && o.id < |worlds[n].calls| && Counts(worlds[n].calls[o.id])
            && (o.rows == worlds[n].calls[o.id].rows <==> KeepsAll(worlds[n].calls[o.id]))
  {
    RunTimely(web, worlds, moves, n);
    ExactIff(web, worlds, moves, n, i);
    assert Whole(worlds[n].calls, worlds[n].c.outcomes[i]);
  }

  // ---- Where a remembered key comes from -----------------------------------------------------------

  /** A create that was answered without its row. */
  predicate Missed(calls: seq<Call>, o: Outcome, key: string) {
    && o.Answered? && o.id < |calls| && LateRowsOf(calls[o.id].command).Some?
    && var late := LateRowsOf(calls[o.id].command).value;
       |late.keys| > 0 && late.keys[0] == key && !HasLateRow(late, o.rows)
  }

  ghost predicate Caused(w: World, key: Option<string>) {
    key.Some? ==> exists i | 0 <= i < |w.c.outcomes| :: Missed(w.calls, w.c.outcomes[i], key.value)
  }

  ghost predicate AllCaused(w: World) {
    Caused(w, w.c.strayKey) && forall i | 0 <= i < |w.calls| :: Caused(w, w.calls[i].stray)
  }

  lemma {:induction false} CausedStays(w: World, w': World, key: Option<string>)
    requires Caused(w, key) && w.c.outcomes <= w'.c.outcomes && |w.calls| <= |w'.calls|
    requires forall i | 0 <= i < |w.calls| :: w'.calls[i].command == w.calls[i].command
    ensures Caused(w', key)
  {
    if key.Some? {
      var i :| 0 <= i < |w.c.outcomes| && Missed(w.calls, w.c.outcomes[i], key.value);
      assert Missed(w'.calls, w'.c.outcomes[i], key.value);
    }
  }

  /** Settling appends, and a line read makes the client remember no key. */
  predicate Onward(c: Client, c': Client) {
    c.outcomes <= c'.outcomes && (c'.strayKey.None? || c'.strayKey == c.strayKey)
  }

  lemma {:induction false} ReadsOnward(c: Client, row: Params, refused: bool)
    ensures Onward(c, RowRead(c, row)) && Onward(c, ErrorRead(c, refused))
  {
  }

  lemma {:induction false} NextOnward(w: World, m: Move)
    requires Enabled(w, m) && !m.HoldEnds?
    ensures Onward(w.c, Next(w, m).c)
  {
    match m
    case RowComes => ReadsOnward(w.c, Line(w).rows[w.sent], false);
    case ErrorComes => ReadsOnward(w.c, map[], Line(w).refused);
    case LateRowComes(row) => ReadsOnward(w.c, row, false);
    case _ =>
  }

  /** Only the end of a hold does, that of a create without its row. */
  lemma {:induction false} HoldEndCaused(w: World)
    requires Good(w) && Enabled(w, HoldEnds)
    ensures w.c.outcomes <= Next(w, HoldEnds).c.outcomes
    ensures var w' := Next(w, HoldEnds);
            |w'.c.outcomes| == |w.c.outcomes| + 1 && w'.calls == w.calls
            && (w'.c.strayKey.Some? ==> Missed(w.calls, w'.c.outcomes[|w.c.outcomes|], w'.c.strayKey.value))
  {
  }

  predicate SameCalls(calls: seq<Call>, calls': seq<Call>) {
    && |calls| == |calls'|
    && forall i | 0 <= i < |calls| :: calls'[i].command == calls[i].command && calls'[i].stray == calls[i].stray
  }

  lemma {:induction false} NextCalls(w: World, m: Move)
    requires Enabled(w, m) && !m.Send?
    ensures SameCalls(w.calls, Next(w, m).calls)
  {
    match m
    case RowComes => assert SameCalls(w.calls, RowSent(w).calls);
    case ErrorComes => assert SameCalls(w.calls, ErrorSent(w).calls);
    case LateRowComes(row) => assert SameCalls(w.calls, LateRowSent(w, row).calls);
    case _ =>
  }

  lemma {:induction false} NextCaused(w: World, m: Move)
    requires Good(w) && AllCaused(w) && Enabled(w, m)
    ensures AllCaused(Next(w, m))
  {
    var w' := Next(w, m);
    if !m.Send? {
      NextCalls(w, m);
    }
    if m.HoldEnds? {
      HoldEndCaused(w);
    } else {
      NextOnward(w, m);
    }
    CausedStays(w, w', w.c.strayKey);
    forall i | 0 <= i < |w'.calls|
      ensures Caused(w', w'.calls[i].stray)
    {
      if i < |w.calls| {
        CausedStays(w, w', w.calls[i].stray);
      }
    }
    if w'.c.strayKey.Some? && m.HoldEnds? {
      assert Missed(w'.calls, w'.c.outcomes[|w.c.outcomes|], w'.c.strayKey.value);
    }
  }

  lemma {:induction false} RunCaused(web: bool, worlds: seq<World>, moves: seq<Move>, n: nat)
    requires IsRun(web, worlds, moves) && n < |worlds|
    ensures AllCaused(worlds[n])
  {
    if n > 0 {
      RunCaused(web, worlds, moves, n - 1);
      RunGood(web, worlds, moves, n - 1);
      NextCaused(worlds[n - 1], moves[n - 1]);
    }
  }

  /** With rows that come in time, and no create answered without its row, every command that is
      answered gets exactly its own rows, and one that is refused is one the server refused. */
  lemma {:induction false} EveryAnswerIsOwn(web: bool, worlds: seq<World>, moves: seq<Move>, n: nat, i: nat)
    requires IsTimelyRun(web, worlds, moves) && n < |worlds| && i < |worlds[n].c.outcomes|
    requires forall j, key | 0 <= j < |worlds[n].c.outcomes| ::
               !Missed(worlds[n].calls, worlds[n].c.outcomes[j], key)
    ensures worlds[n].c.outcomes[i].id < |worlds[n].calls|
    ensures var o, call := worlds[n].c.outcomes[i], worlds[n].calls[worlds[n].c.outcomes[i].id];
            && (o.Answered? ==> call.arrived && !call.refused && o.rows == call.rows)
            && (o.Refused? ==> call.arrived && (call.refused || TransferRefused(call.command, call.rows)))
  {
    EveryAnswerKnown(web, worlds, moves, n, i);
    RunTimely(web, worlds, moves, n);
    RunCaused(web, worlds, moves, n);
    var o := worlds[n].c.outcomes[i];
    var call := worlds[n].calls[o.id];
    assert Whole(worlds[n].calls, o) && Caused(worlds[n], call.stray) && call.stray.None?;
    if o.Answered? {
      OwnRowsIff(web, worlds, moves, n, i);
    } else if o.Refused? {
      assert call.late + call.rows[..call.before] == call.rows;
    }
  }

  // ---- Without its row -----------------------------------------------------------------------------

  const FIND := LateRows([], false, true)
  const CREATE := LateRows(["cid"], false, false)
  const ROW: Params := map["cid" := "5"]

  /** A create that is granted without its row, and the next command, whose one row has that key and
      no other. */
  function CostlyMove(n: nat): Move {
    match n
    case 0 => Send("channelcreate", [], false, true)
    case 3 => Send("channelfind", [ROW], false, true)
    case 4 => RowComes
    case 1 => ErrorComes
    case 5 => ErrorComes
    case _ => HoldEnds
  }

  const CREATED := Call("channelcreate", [], false, true, None, [], 0, 0)
  const FOUND := Call("channelfind", [ROW], false, true, Some("cid"), [], 0, 0)

  function CostlyClient(n: nat): Client {
    match n
    case 0 => Start(false)
    case 1 => Client(false, Some(Pending(0, "channelcreate", [], None)), 0, None, [])
    case 2 => Client(false, Some(Pending(0, "channelcreate", [], Some(CREATE))), 0, None, [])
    case 3 => Client(false, None, 0, Some("cid"), [Answered(0, [])])
    case 4 => Client(false, Some(Pending(1, "channelfind", [], None)), 0, Some("cid"), [Answered(0, [])])
    case 5 => Client(false, Some(Pending(1, "channelfind", [], None)), 0, None, [Answered(0, [])])
    case 6 => Client(false, Some(Pending(1, "channelfind", [], Some(FIND))), 0, None, [Answered(0, [])])
    case _ => Client(false, None, 0, None, [Answered(0, []), Answered(1, [])])
  }

  /** A create that is granted without its row, and the next command, whose one row has that key and
      no other. */
  function CostlyWorld(n: nat): World {
    var c := CostlyClient(n);
    match n
    case 0 => First(false)
    case 1 => World(c, [CREATED], [0], 0, 0, false, 0)
    case 2 => World(c, [CREATED], [0], 0, 0, true, 0)
    case 3 => World(c, [CREATED], [0], 1, 0, false, 0)
    case 4 => World(c, [CREATED, FOUND], [0, 1], 1, 0, false, 0)
    case 5 => World(c, [CREATED, FOUND], [0, 1], 1, 1, false, 0)
    case 6 => World(c, [CREATED, FOUND.(before := 1, taken := 1)], [0, 1], 1, 1, true, 0)
    case _ => World(c, [CREATED, FOUND.(before := 1, taken := 1)], [0, 1], 2, 0, false, 0)
  }

  ghost predicate StepTo(w: World, m: Move, w': World) { Enabled(w, m) && InTime(w, m) && Next(w, m) == w' }

  lemma {:induction false} RunOfSteps(web: bool, worlds: seq<World>, moves: seq<Move>)
    requires |worlds| == |moves| + 1 && worlds[0] == First(web)
    requires forall i | 0 <= i < |moves| :: StepTo(worlds[i], moves[i], worlds[i + 1])
    ensures IsTimelyRun(web, worlds, moves)
  {
    forall i | 0 <= i < |moves|
      ensures Enabled(worlds[i], moves[i]) && InTime(worlds[i], moves[i]) && worlds[i + 1] == Next(worlds[i], moves[i])
    {
      assert StepTo(worlds[i], moves[i], worlds[i + 1]);
    }
  }

  lemma {:induction false} CostlyCreate(n: nat)
    requires n < 3
    ensures StepTo(CostlyWorld(n), CostlyMove(n), CostlyWorld(n + 1))
  {
    assert LateRowsOf("channelcreate") == Some(CREATE);
    if n == 0 {
    } else if n == 1 {
    } else {
    }
  }

  lemma {:induction false} FindIsRead()
    ensures LateRowsOf("channelfind") == Some(FIND)
  {
    assert EndsWith("channelfind", "find");
  }

  lemma {:induction false} CostlySend()
    ensures StepTo(CostlyWorld(3), CostlyMove(3), CostlyWorld(4))
  {
    assert Sent(CostlyClient(3), 1, "channelfind") == CostlyClient(4);
  }

  /** Its row is taken for that of the create. */
  lemma {:induction false} RowIsDropped()
    ensures RowRead(CostlyClient(4), ROW) == CostlyClient(5)
  {
    FindIsRead();
    assert ROW.Keys == {"cid"};
    assert !Carries("channelfind", "cid");
  }

  lemma {:induction false} OpenRow(w: World, row: Params, c: Client)
    requires Answering(w) && !w.closed && w.sent < |Line(w).rows| && Line(w).rows[w.sent] == row
    requires RowRead(w.c, row) == c
    ensures StepTo(w, RowComes, w.(c := c, sent := w.sent + 1))
  {
  }

  lemma {:induction false} CostlyRow()
    ensures StepTo(CostlyWorld(4), CostlyMove(4), CostlyWorld(5))
  {
    RowIsDropped();
    OpenRow(CostlyWorld(4), ROW, CostlyClient(5));
  }

  lemma {:induction false} FindIsHeld()
    ensures ErrorRead(CostlyClient(5), false) == CostlyClient(6)
  {
    FindIsRead();
    assert !TransferRefused("channelfind", []);
  }

  lemma {:induction false} WholeHeld(w: World, call: Call, c: Client)
    requires Answering(w) && !w.closed && w.c.abandoned == 0 && Line(w) == call && w.sent == |call.rows|
    requires w.calls[|w.calls| - 1] == call && ErrorRead(w.c, call.refused) == c && Held(c)
    ensures StepTo(w, ErrorComes, Noted(w, call.(before := w.sent, taken := w.sent)).(c := c, closed := true))
  {
  }

  lemma {:induction false} CostlyHold()
    ensures StepTo(CostlyWorld(5), CostlyMove(5), CostlyWorld(6))
  {
    FindIsHeld();
    WholeHeld(CostlyWorld(5), FOUND, CostlyClient(6));
  }

  lemma {:induction false} CostlyEnd()
    ensures StepTo(CostlyWorld(6), CostlyMove(6), CostlyWorld(7))
  {
    assert HoldEnded(CostlyClient(6)) == CostlyClient(7);
  }

  lemma {:induction false} CostlyStep(n: nat)
    requires n < 7
    ensures StepTo(CostlyWorld(n), CostlyMove(n), CostlyWorld(n + 1))
  {
    if n < 3 {
      CostlyCreate(n);
    } else if n == 3 {
      CostlySend();
    } else if n == 4 {
      CostlyRow();
    } else if n == 5 {
      CostlyHold();
    } else {
      CostlyEnd();
    }
  }

  lemma {:induction false} CostlyRun(worlds: seq<World>, moves: seq<Move>)
    requires |worlds| == 8 && |moves| == 7
    requires forall n | 0 <= n < 8 :: worlds[n] == CostlyWorld(n)
    requires forall n | 0 <= n < 7 :: moves[n] == CostlyMove(n)
    ensures IsTimelyRun(false, worlds, moves)
  {
    forall i | 0 <= i < 7
      ensures StepTo(worlds[i], moves[i], worlds[i + 1])
    {
      CostlyStep(i);
    }
    assert worlds[0] == CostlyWorld(0);
    RunOfSteps(false, worlds, moves);
  }

  /** There is a run of a server that answers in order and in time in which a command loses a row of
      its own, to a create that was granted without its row. */
  lemma {:induction false} MissingRowCosts() returns (worlds: seq<World>, moves: seq<Move>)
    ensures |worlds| == 8 && IsTimelyRun(false, worlds, moves)
    ensures var w := worlds[7];
            w.c.outcomes == [Answered(0, []), Answered(1, [])] && |w.calls| == 2 && w.calls[1].rows == [ROW]
  {
    worlds, moves := seq(8, (n: nat) => CostlyWorld(n)), seq(7, (n: nat) => CostlyMove(n));
    CostlyRun(worlds, moves);
    assert worlds[7] == CostlyWorld(7);
  }
}
