/** The life of a voice client's connection: attempts, sessions, the goodbye, the delivery queue
    and the reconnect loop. A step is what the client does between two points where it waits.
    Continuations that were made ready run in that order, and events are delivered only when none
    is left: a microtask runs before the next macrotask. */
module Lifecycle {
  import opened Wrappers

  datatype Status = Disconnected | Connecting | Connected

  /** Where the attempt's own continuation stands: looking the address up, opening the socket, or
      waiting for the attempt to settle. */
  datatype Phase = Resolving | Opening | Waiting

  datatype Leaving = NotLeaving | Goodbye(no: nat) | Closing(no: nat, token: nat)

  datatype Delivery = DisconnectedEvent(token: nat) | OtherEvent

  /** Who called `connect()`: the application, or the reconnect loop. */
  datatype Owner = User | Loop(id: nat)

  /** A call that waits for a goodbye, or for a `disconnected` to be delivered. */
  datatype Await = ForLeaving(no: nat) | ForDelivery(token: nat)

  datatype Call = Call(owner: Owner, disconnects: nat, await: Await)

  datatype CallResult = Succeeded | WasConnected | Failed

  datatype LoopStage = Sleeping | Calling | Answered(result: CallResult)

  datatype Hook = SessionStart(attempt: nat) | AttemptFailed(attempt: nat) | SessionEnd(attempt: nat)

  /** What is ready to go on: an attempt that was given up while it looked the address up or opened
      its socket; the call inside an attempt that is settled; what waits for a `disconnected` that
      was delivered; and the two ends of a goodbye, whose attempt is rejected before it is over. */
  datatype Job =
    | AttemptGoesOn(attempt: nat)
    | CallEnds(attempt: nat)
    | DeliverySettled(token: nat)
    | LeaveOver(no: nat)
    | LeavingCleared(no: nat)

  /** `attempt` numbers the latest attempt, 0 before the first; `settled` and `phase` are its.
      `delivered` is the `disconnected` a connect waits for, `arrived` whether listeners had it.
      `running` is the call inside the attempt, with its abort listener. */
  datatype Client = Client(
    status: Status, attempt: nat, settled: bool, succeeded: bool, phase: Phase, running: Option<Owner>,
    session: Option<nat>, sessionCount: nat,
    leaving: Leaving, leavings: nat, disconnects: nat, stopped: bool,
    queue: seq<Delivery>, tokens: nat, delivered: Option<nat>, arrived: bool,
    reconnecting: bool, loops: map<nat, LoopStage>, nextLoop: nat,
    calls: map<nat, Call>, nextCall: nat,
    ready: seq<Job>, hooks: seq<Hook>)

  const NEW := Client(
    Disconnected, 0, true, false, Waiting, None, None, 0, NotLeaving, 0, 0, false,
    [], 0, None, false, false, map[], 0, map[], 0, [], [])

  // ---- What the steps are made of -----------------------------------------------------------

  function Announced(c: Client): Client {
    c.(queue := c.queue + [DisconnectedEvent(c.tokens)], tokens := c.tokens + 1,
       delivered := Some(c.tokens), arrived := false)
  }

  /** What goes on once the attempt has failed. Its promise, and so the call that waits for it, may
      be held back. */
  function Resumed(c: Client, heldBack: bool): seq<Job> {
    if !c.phase.Waiting? then [AttemptGoesOn(c.attempt)] else if heldBack then [] else [CallEnds(c.attempt)]
  }

  /** The attempt settled as failed: its hook is told, and its lookup or socket stops. */
  function Settled(c: Client, heldBack: bool): Client {
    if c.settled then c
    else c.(
      settled := true, succeeded := false, hooks := c.hooks + [AttemptFailed(c.attempt)],
      ready := c.ready + Resumed(c, heldBack))
  }

  function Rejected(c: Client): Client { Settled(c, false) }

  function ConnectionFailed(c: Client): Client {
    if c.status.Connected? then c
    else
      var rejected := Rejected(c);
      if c.status.Disconnected? then rejected else Announced(rejected.(status := Disconnected))
  }

  function SessionEnded(c: Client): Client {
    if c.session.None? then c else c.(session := None, hooks := c.hooks + [SessionEnd(c.session.value)])
  }

  function MarkedConnected(c: Client): Client {
    if !c.status.Connecting? || c.settled then c
    else c.(
      ready := c.ready + [CallEnds(c.attempt)],
      status := Connected, sessionCount := c.sessionCount + 1, settled := true, succeeded := true,
      session := Some(c.attempt), hooks := c.hooks + [SessionStart(c.attempt)], queue := c.queue + [OtherEvent])
  }

  function Started(c: Client, owner: Owner): Client {
    c.(stopped := false, status := Connecting, attempt := c.attempt + 1, settled := false, succeeded := false,
       phase := Resolving, running := Some(owner))
  }

  /** A call is over before it made an attempt. */
  function CallOver(c: Client, owner: Owner, result: CallResult): Client {
    if owner.Loop? && owner.id in c.loops then c.(loops := c.loops[owner.id := Answered(result)]) else c
  }

  function Parked(c: Client, call: Call): Client {
    c.(calls := c.calls[c.nextCall := call], nextCall := c.nextCall + 1)
  }

  /** What a call does once no goodbye is in its way. */
  function Proceeded(c: Client, owner: Owner, disconnects: nat): Client {
    if c.delivered.Some? then Parked(c, Call(owner, disconnects, ForDelivery(c.delivered.value)))
    else if c.disconnects != disconnects then CallOver(c, owner, Failed)
    else if !c.status.Disconnected? then CallOver(c, owner, WasConnected)
    else Started(c, owner)
  }

  /** Whether a call, at the point it is at, would start an attempt. */
  predicate WouldStart(c: Client, disconnects: nat) {
    c.delivered.None? && c.disconnects == disconnects && c.status.Disconnected?
  }

  function ConnectCalled(c: Client, owner: Owner): Client {
    if !c.leaving.NotLeaving? then Parked(c, Call(owner, c.disconnects, ForLeaving(c.leaving.no)))
    else Proceeded(c, owner, c.disconnects)
  }

  /** Whether what a call waits for has come. */
  predicate Ready(c: Client, await: Await) {
    match await
    case ForLeaving(no) => c.leaving.NotLeaving? || c.leaving.no != no
    case ForDelivery(token) => c.delivered != Some(token)
  }

  function LeaveClosed(c: Client, no: nat): Client {
    var announced := Announced(SessionEnded(c));
    announced.(leaving := Closing(no, c.tokens))
  }

  /** The goodbye begins; the attempt under way, if any, is given up, and its promise held back. */
  function LeaveBegun(c: Client): Client {
    Settled(c.(status := Disconnected), true).(leaving := Goodbye(c.leavings), leavings := c.leavings + 1)
  }

  function Asked(c: Client): Client { c.(stopped := true, disconnects := c.disconnects + 1) }

  function DisconnectCalled(c: Client, holdsSession: bool): Client {
    var asked := Asked(c);
    if !c.leaving.NotLeaving? || c.status.Disconnected? then asked
    else if c.status.Connected? || holdsSession then LeaveBegun(asked)
    else LeaveClosed(LeaveBegun(asked), c.leavings)
  }

  function LoopOver(c: Client, id: nat): Client {
    c.(loops := c.loops - {id}, reconnecting := false)
  }

  /** A reconnect loop begins after a drop, unless one runs. `retry` is what the policy says. */
  function ReconnectScheduled(c: Client, policy: bool, retry: bool): Client {
    if !policy || c.stopped || c.reconnecting then c
    else
      var begun := c.(reconnecting := true, loops := c.loops[c.nextLoop := Sleeping], nextLoop := c.nextLoop + 1);
      if retry then begun else LoopOver(begun, c.nextLoop)
  }

  function ConnectionClosed(c: Client, policy: bool, retry: bool): Client {
    if c.status.Disconnected? then c
    else if !c.status.Connected? then ConnectionFailed(c)
    else ReconnectScheduled(Announced(SessionEnded(c.(status := Disconnected))), policy, retry)
  }

  /** The call inside the attempt is over, and no longer listens to its signal. */
  function RunningOver(c: Client): Client {
    if c.running.None? then c
    else CallOver(c.(running := None), c.running.value, if c.succeeded then Succeeded else Failed)
  }

  /** What waits for a `disconnected` that was delivered: first that it is cleared, then the goodbye
      that announced it. */
  function Woken(c: Client, token: nat): seq<Job> {
    if c.leaving.Closing? && c.leaving.token == token then [DeliverySettled(token), LeaveOver(c.leaving.no)]
    else [DeliverySettled(token)]
  }

  function DeliveredOne(c: Client): Client
    requires |c.queue| > 0
  {
    match c.queue[0]
    case OtherEvent => c.(queue := c.queue[1..])
    case DisconnectedEvent(token) =>
      c.(queue := c.queue[1..], arrived := c.arrived || c.delivered == Some(token), ready := c.ready + Woken(c, token))
  }

  function Drained(c: Client): Client
    decreases |c.queue|
  {
    if c.queue == [] then c else Drained(DeliveredOne(c))
  }

  /** An attempt that was given up fails the connection, and waits for its promise. */
  function Continued(c: Client, a: nat): Client {
    var failed := ConnectionFailed(c);
    if c.leaving.NotLeaving? then failed.(ready := failed.ready + [CallEnds(a)]) else failed
  }

  /** The goodbye is over: the attempt it gave up is rejected, and then no goodbye is on. */
  function Rejections(c: Client, no: nat): seq<Job> {
    if c.running.Some? then [CallEnds(c.attempt), LeavingCleared(no)] else [LeavingCleared(no)]
  }

  /** The first continuation that is ready runs. */
  function Ran(c: Client): Client
    requires |c.ready| > 0
  {
    var rest := c.(ready := c.ready[1..]);
    match c.ready[0]
    case AttemptGoesOn(a) => Continued(rest, a)
    case CallEnds(_) => RunningOver(rest)
    case DeliverySettled(token) => if c.delivered == Some(token) then rest.(delivered := None) else rest
    case LeaveOver(no) => c.(ready := c.ready[1..] + Rejections(c, no))
    case LeavingCleared(_) => rest.(leaving := NotLeaving)
  }

  function LoopWoken(c: Client, id: nat): Client {
    if c.stopped || !c.status.Disconnected? then LoopOver(c, id)
    else ConnectCalled(c.(loops := c.loops[id := Calling]), Loop(id))
  }

  function LoopAnswered(c: Client, id: nat, result: CallResult, retry: bool): Client {
    if (result.Succeeded? && c.status.Connected?) || result.WasConnected? then LoopOver(c, id)
    else if c.stopped || !retry then LoopOver(c, id)
    else c.(loops := c.loops[id := Sleeping])
  }

  // ---- The steps --------------------------------------------------------------------------------

  datatype Step =
    | Connect
    | Disconnect(holdsSession: bool)
    | CallGoesOn(call: nat)
    | CallAborted(call: nat)
    | AttemptAborted
    | AddressFound
    | SocketOpen
    | SetupFails
    | ServerAccepts
    | HandshakeFails
    | SocketCloses(policy: bool, retry: bool)
    | GoodbyeOver
    | Drain
    | RunReady
    | WaitsAgain
    | LoopWakes(id: nat)
    | LoopGoesOn(id: nat, retry: bool)
    | ServerEvent

  /** What may happen next. A packet handler reports packets and its closing once its socket is
      open. An attempt given up goes on through promises that are not part of this model, so when
      its turn comes it may have to wait for another. */
  predicate Enabled(c: Client, step: Step) {
    match step
    case Connect => true
    case Disconnect(_) => true
    case CallGoesOn(call) => call in c.calls && Ready(c, c.calls[call].await)
    case CallAborted(call) => call in c.calls
    case AttemptAborted => c.running.Some?
    case AddressFound => c.phase.Resolving? && !c.settled
    case SocketOpen => c.phase.Opening? && !c.settled
    case SetupFails => !c.phase.Waiting? && !c.settled
    case ServerAccepts => c.phase.Waiting?
    case HandshakeFails => true
    case SocketCloses(_, _) => c.phase.Waiting?
    case GoodbyeOver => c.leaving.Goodbye?
    case Drain => |c.queue| > 0 && c.ready == []
    case RunReady => |c.ready| > 0
    case WaitsAgain => |c.ready| > 0 && c.ready[0].AttemptGoesOn?
    case LoopWakes(id) => id in c.loops && c.loops[id].Sleeping?
    case LoopGoesOn(id, _) => id in c.loops && c.loops[id].Answered?
    case ServerEvent => true
  }

  function Next(c: Client, step: Step): Client
    requires Enabled(c, step)
  {
    match step
    case Connect => ConnectCalled(c, User)
    case Disconnect(holdsSession) => DisconnectCalled(c, holdsSession)
    case CallGoesOn(call) => Proceeded(c.(calls := c.calls - {call}), c.calls[call].owner, c.calls[call].disconnects)
    case CallAborted(call) => CallOver(c.(calls := c.calls - {call}), c.calls[call].owner, Failed)
    case AttemptAborted => ConnectionFailed(c)
    case AddressFound => c.(phase := Opening)
    case SocketOpen => c.(phase := Waiting)
    case SetupFails => ConnectionFailed(c.(phase := Waiting))
    case ServerAccepts => MarkedConnected(c)
    case HandshakeFails => ConnectionFailed(c)
    case SocketCloses(policy, retry) => ConnectionClosed(c, policy, retry)
    case GoodbyeOver => LeaveClosed(c, c.leaving.no)
    case Drain => Drained(c)
    case RunReady => Ran(c)
    case WaitsAgain => c.(ready := c.ready[1..] + [c.ready[0]])
    case LoopWakes(id) => LoopWoken(c, id)
    case LoopGoesOn(id, retry) => LoopAnswered(c, id, c.loops[id].result, retry)
    case ServerEvent => c.(queue := c.queue + [OtherEvent])
  }
}
