/** How the ServerQuery client matches answers to commands. Lines carry no return code: an answer
    is known by its order alone, with one command on the wire at a time. */
module Query {
  import opened Wrappers

  type Params = map<string, string>

  // ---- Rows that follow the `error` line ------------------------------------------------------

  /** How the row of an answer is known: by one of `keys`, or, if `any`, by being there at all. With
      `several` it may not be the only one. */
  datatype LateRows = LateRows(keys: seq<string>, several: bool, any: bool)

  const LATE_ROWS: map<string, LateRows> := map[
    "channelcreate" := LateRows(["cid"], false, false),
    "servergroupadd" := LateRows(["sgid"], false, false),
    "servergroupcopy" := LateRows(["sgid"], false, false),
    "channelgroupadd" := LateRows(["cgid"], false, false),
    "channelgroupcopy" := LateRows(["cgid"], false, false),
    "banadd" := LateRows(["banid"], false, false),
    "banclient" := LateRows(["banid"], true, false),
    "privilegekeyadd" := LateRows(["token"], false, false),
    "tokenadd" := LateRows(["token"], false, false),
    "apikeyadd" := LateRows(["apikey"], false, false),
    "servercreate" := LateRows(["sid"], false, false)
  ]

  predicate EndsWith(text: string, tail: string) {
    |text| >= |tail| && text[|text| - |tail|..] == tail
  }

  predicate IsWord(text: string) {
    forall i | 0 <= i < |text| ::
      'a' <= text[i] <= 'z' || 'A' <= text[i] <= 'Z' || '0' <= text[i] <= '9' || text[i] == '_'
  }

  predicate Reads(command: string) {
    || EndsWith(command, "list") || EndsWith(command, "info") || EndsWith(command, "find") || EndsWith(command, "search")
    || (|command| > 3 && command[..3] == "get" && IsWord(command[3..]))
    || command in ["whoami", "version", "permfind", "permoverview", "permget"]
  }

  function LateRowsOf(command: string): Option<LateRows> {
    if command in LATE_ROWS then Some(LATE_ROWS[command])
    else if Reads(command) then Some(LateRows([], false, true))
    else None
  }

  predicate Keyed(late: LateRows, row: Params) {
    exists i | 0 <= i < |late.keys| :: late.keys[i] in row
  }

  predicate HasLateRow(late: LateRows, rows: seq<Params>) {
    if late.any then |rows| > 0 else exists i | 0 <= i < |rows| :: Keyed(late, rows[i])
  }

  /** A status that is a number other than 0. */
  predicate IsFailure(status: string) {
    && (forall i | 0 <= i < |status| :: '0' <= status[i] <= '9')
    && exists i | 0 <= i < |status| :: status[i] != '0'
  }

  /** A transfer refused by a row and not by the `error` line. */
  predicate TransferRefused(command: string, rows: seq<Params>) {
    && (command == "ftinitupload" || command == "ftinitdownload")
    && |rows| > 0 && "ftkey" !in rows[0] && "status" in rows[0] && IsFailure(rows[0]["status"])
  }

  // ---- The client -----------------------------------------------------------------------------

  /** The command on the wire. A command whose `error` was read, but not yet all its rows, is held. */
  datatype Pending = Pending(id: nat, command: string, rows: seq<Params>, held: Option<LateRows>)

  datatype Outcome = Answered(id: nat, rows: seq<Params>) | Refused(id: nat) | GaveUp(id: nat)

  datatype Client = Client(
    web: bool, pending: Option<Pending>, abandoned: int, strayKey: Option<string>, outcomes: seq<Outcome>)

  function Start(web: bool): Client { Client(web, None, 0, None, []) }

  function Done(c: Client, outcome: Outcome): Client {
    c.(pending := None, outcomes := c.outcomes + [outcome])
  }

  function Sent(c: Client, id: nat, command: string): Client {
    c.(pending := Some(Pending(id, command, [], None)))
  }

  /** The caller no longer waits: by timeout, by cancel, or as the line could not be written. */
  function Left(c: Client, failed: bool): Client {
    if c.pending.None? then c
    else
      var left := Done(c, GaveUp(c.pending.value.id));
      if c.pending.value.held.Some? || failed then left else left.(abandoned := c.abandoned + 1)
  }

  /** No answer is due to an abandoned command whose line was never written. */
  function WriteFailed(c: Client): Client { c.(abandoned := c.abandoned - 1) }

  /** The late rows a command may have on this connection. */
  function LateOn(web: bool, command: string): Option<LateRows> {
    if web then None else LateRowsOf(command)
  }

  function ErrorRead(c: Client, refused: bool): Client {
    if c.abandoned > 0 then c.(abandoned := c.abandoned - 1)
    else if c.pending.None? then c
    else
      var p := c.pending.value;
      var own := c.(strayKey := None);
      var late := LateOn(c.web, p.command);
      if refused || TransferRefused(p.command, p.rows) then Done(own, Refused(p.id))
      else if late.None? || (HasLateRow(late.value, p.rows) && !late.value.several) then Done(own, Answered(p.id, p.rows))
      else own.(pending := Some(p.(held := late)))
  }

  /** The row a command gave up waiting for: its key and nothing else. */
  predicate IsStray(c: Client, row: Params) {
    c.strayKey.Some? && row.Keys == {c.strayKey.value}
  }

  /** Whether the command's own answer carries the key. */
  predicate Carries(command: string, key: string) {
    LateRowsOf(command).Some? && key in LateRowsOf(command).value.keys
  }

  /** Whether a row like that might as well be the answer of the command on the wire. */
  predicate OwnsKey(c: Client, key: string) {
    c.pending.Some? && Carries(c.pending.value.command, key)
  }

  function RowTaken(c: Client, row: Params): Client {
    if c.pending.None? then c
    else
      var p := c.pending.value.(rows := c.pending.value.rows + [row]);
      if p.held.Some? && !p.held.value.several && !p.held.value.any && Keyed(p.held.value, row)
        then Done(c, Answered(p.id, p.rows))
      else c.(pending := Some(p))
  }

  function RowRead(c: Client, row: Params): Client {
    if c.abandoned > 0 then c
    else if IsStray(c, row) then
      var seen := c.(strayKey := None);
      if OwnsKey(c, c.strayKey.value) then RowTaken(seen, row) else seen
    else RowTaken(c, row)
  }

  /** The rows of one line. */
  function RowsRead(c: Client, rows: seq<Params>, n: nat): Client
    requires n <= |rows|
  {
    if n == 0 then c else RowRead(RowsRead(c, rows, n - 1), rows[n - 1])
  }

  /** The wait for late rows is over. */
  function HoldEnded(c: Client): Client {
    if c.pending.None? || c.pending.value.held.None? then c
    else
      var p := c.pending.value;
      var given := Done(c, Answered(p.id, p.rows));
      if !HasLateRow(p.held.value, p.rows) && |p.held.value.keys| > 0 then
        given.(strayKey := Some(p.held.value.keys[0]))
      else given
  }
}
