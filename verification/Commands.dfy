/** The command tracker of a voice connection as a value, with one function for each of its calls.
    Return codes count up, so their order is that of registration. */
module Commands {
  import opened Wrappers

  type Params = map<string, string>

  datatype Failure = NotConnected | Refused(status: string, message: string, extra: Option<string>)

  datatype Result = Result(err: Option<Failure>, data: seq<Params>)

  datatype Correlated = Correlated(notifications: set<string>, key: string, failure: Option<string>)

  /** What a command declares of its answer. A command with none declares `PLAIN`. */
  datatype Spec = Spec(
    notifications: set<string>, correlated: Option<Correlated>, ownRowsOnly: bool, echoKey: Option<string>)

  const PLAIN := Spec({}, None, false, None)

  /** A row held till the next `error`. `source` is the notification it came as, empty for none. */
  datatype Row = Row(source: string, params: Params)

  datatype Pending = Pending(
    spec: Spec, correlation: Option<string>, echo: Option<string>, correlated: seq<Params>, held: Option<seq<Params>>)

  /** A promise that was resolved. */
  datatype Settlement = Settlement(rc: nat, result: Result)

  datatype State = State(
    pending: map<nat, Pending>, nextRC: nat, buffer: seq<Row>, welcome: bool, settled: seq<Settlement>)

  const START := State(map[], 0, [], false, [])

  function Digit(d: nat): char
    requires d < 10
  {
    "0123456789"[d]
  }

  function Decimal(n: nat): (r: string)
    ensures |r| > 0
  {
    if n < 10 then [Digit(n)] else Decimal(n / 10) + [Digit(n % 10)]
  }

  function Get(params: Params, key: string, otherwise: string): string {
    if key in params then params[key] else otherwise
  }

  function Lookup(params: Params, key: string): Option<string> {
    if key in params then Some(params[key]) else None
  }

  // ---- What answers a command ---------------------------------------------------------

  /** Whether a row since the last `error` is part of `p`'s answer, `own` being the client's id. */
  predicate Answers(p: Pending, row: Row, own: string) {
    || row.source == ""
    || (&& row.source in p.spec.notifications
        && (p.spec.ownRowsOnly ==> Lookup(row.params, "invokerid") == Some(own))
        && (p.spec.echoKey.Some? && p.echo.Some? ==>
              p.spec.echoKey.value in row.params ==> row.params[p.spec.echoKey.value] == p.echo.value))
  }

  /** The first `n` rows that answer `p`. */
  function Kept(p: Pending, rows: seq<Row>, own: string, n: nat): seq<Row>
    requires n <= |rows|
  {
    if n == 0 then []
    else if Answers(p, rows[n - 1], own) then Kept(p, rows, own, n - 1) + [rows[n - 1]]
    else Kept(p, rows, own, n - 1)
  }

  function ParamsOf(rows: seq<Row>): (r: seq<Params>)
    ensures |r| == |rows|
  {
    seq(|rows|, i requires 0 <= i < |rows| => rows[i].params)
  }

  function Answer(p: Pending, rows: seq<Row>, own: string): seq<Params> {
    ParamsOf(Kept(p, rows, own, |rows|))
  }

  /** Whether a notification answers `p` wherever it falls against `p`'s `error`. */
  predicate Correlates(p: Pending, name: string, params: Params) {
    && p.spec.correlated.Some? && p.correlation.Some?
    && name in p.spec.correlated.value.notifications
    && Lookup(params, p.spec.correlated.value.key) == p.correlation
  }

  /** The first command from `rc` on that a notification answers. */
  function FirstCorrelated(s: State, name: string, params: Params, rc: nat): (r: Option<nat>)
    requires rc <= s.nextRC + 1
    ensures r.Some? ==> rc <= r.value <= s.nextRC && r.value in s.pending && Correlates(s.pending[r.value], name, params)
    decreases s.nextRC + 1 - rc
  {
    if rc > s.nextRC then None
    else if rc in s.pending && Correlates(s.pending[rc], name, params) then Some(rc)
    else FirstCorrelated(s, name, params, rc + 1)
  }

  // ---- The steps -------------------------------------------------------------------------

  function Settle(s: State, rc: nat, result: Result): State {
    s.(pending := s.pending - {rc}, settled := s.settled + [Settlement(rc, result)])
  }

  function NewPending(rc: nat, spec: Spec, correlation: Option<string>, echo: Option<string>): Pending {
    var own := spec.correlated.Some? && spec.correlated.value.key == "return_code";
    Pending(spec, if own then Some(Decimal(rc)) else correlation, echo, [], None)
  }

  function Registered(s: State, spec: Spec, correlation: Option<string>, echo: Option<string>): State {
    var rc := s.nextRC + 1;
    s.(nextRC := rc, pending := s.pending[rc := NewPending(rc, spec, correlation, echo)])
  }

  function Buffered(s: State, row: Row): State {
    if !s.welcome || s.pending == map[] then s else s.(buffer := s.buffer + [row])
  }

  function FailureOf(params: Params): Failure {
    var extra := Get(params, "extra_msg", "");
    Refused(Get(params, "status", ""), Get(params, "msg", ""), if extra == "" then None else Some(extra))
  }

  /** A notification that answers command `rc`. */
  function Taken(s: State, rc: nat, name: string, params: Params): State
    requires rc in s.pending && s.pending[rc].spec.correlated.Some?
  {
    var p := s.pending[rc];
    if Some(name) == p.spec.correlated.value.failure && Get(params, "status", "0") != "0" then
      Settle(s, rc, Result(Some(FailureOf(params)), []))
    else
      var correlated := p.correlated + [params];
      if p.held.Some? then Settle(s, rc, Result(None, p.held.value + correlated))
      else s.(pending := s.pending[rc := p.(correlated := correlated)])
  }

  function Offered(s: State, name: string, params: Params): State {
    var first := FirstCorrelated(s, name, params, 0);
    if first.None? then s else Taken(s, first.value, name, params)
  }

  /** The command `p` at its own `error`, with `data` the rows it takes. */
  function Closed(s: State, rc: nat, p: Pending, data: seq<Params>, err: Option<Failure>): State {
    if err.Some? then Settle(s, rc, Result(err, data))
    else if p.spec.correlated.Some? && p.correlation.Some? && p.correlated == [] then
      s.(pending := s.pending[rc := p.(held := Some(data))])
    else Settle(s, rc, Result(None, data + p.correlated))
  }

  function Resolved(s: State, rc: nat, err: Option<Failure>, own: string): State {
    if rc !in s.pending then s.(buffer := [])
    else Closed(s.(buffer := []), rc, s.pending[rc], Answer(s.pending[rc], s.buffer, own), err)
  }

  /** The first codes below `rc` settled with `err`, in the order they were registered. */
  function AllFailed(pending: map<nat, Pending>, err: Failure, rc: nat): seq<Settlement> {
    if rc == 0 then []
    else
      var before := AllFailed(pending, err, rc - 1);
      if rc - 1 in pending then before + [Settlement(rc - 1, Result(Some(err), []))] else before
  }

  function Reset(s: State, err: Failure): State {
    State(map[], s.nextRC, [], false, s.settled + AllFailed(s.pending, err, s.nextRC + 1))
  }

  datatype Event =
    | Register(spec: Spec, correlation: Option<string>, echo: Option<string>)
    | Unregister(rc: nat)
    | Welcome
    | Arrived(row: Row)
    | Offer(name: string, params: Params)
    | Resolve(rc: nat, err: Option<Failure>, own: string)
    | Discard
    | ResetAll(cause: Failure)

  function Step(s: State, e: Event): State {
    match e
    case Register(spec, correlation, echo) => Registered(s, spec, correlation, echo)
    case Unregister(rc) => s.(pending := s.pending - {rc})
    case Welcome => s.(welcome := true, buffer := [])
    case Arrived(row) => Buffered(s, row)
    case Offer(name, params) => Offered(s, name, params)
    case Resolve(rc, err, own) => Resolved(s, rc, err, own)
    case Discard => s.(buffer := [])
    case ResetAll(cause) => Reset(s, cause)
  }

  /** The state after the first `n` of `events`. */
  function Run(events: seq<Event>, n: nat): State
    requires n <= |events|
  {
    if n == 0 then START else Step(Run(events, n - 1), events[n - 1])
  }
}
