/** What holds of every life of a client, in whatever order its steps come. */
module LifecycleLaws {
  import opened Wrappers
  import opened Lifecycle

  // ---- Counting hooks -----------------------------------------------------------------------

  /** How many of the first `n` hooks ended attempt `a`: as a session, or as failed. */
  function Outcomes(hooks: seq<Hook>, a: nat, n: nat): nat
    requires n <= |hooks|
  {
    if n == 0 then 0
    else Outcomes(hooks, a, n - 1) + if hooks[n - 1] == SessionStart(a) || hooks[n - 1] == AttemptFailed(a) then 1 else 0
  }

  /** How many of the first `n` hooks are `hook`. */
  function Told(hooks: seq<Hook>, hook: Hook, n: nat): nat
    requires n <= |hooks|
  {
    if n == 0 then 0 else Told(hooks, hook, n - 1) + if hooks[n - 1] == hook then 1 else 0
  }

  lemma {:induction false} OutcomesPrefix(hooks: seq<Hook>, h: Hook, a: nat, n: nat)
    requires n <= |hooks|
    ensures Outcomes(hooks + [h], a, n) == Outcomes(hooks, a, n)
  {
    if n > 0 {
      OutcomesPrefix(hooks, h, a, n - 1);
    }
  }

  lemma {:induction false} ToldPrefix(hooks: seq<Hook>, h: Hook, hook: Hook, n: nat)
    requires n <= |hooks|
    ensures Told(hooks + [h], hook, n) == Told(hooks, hook, n)
  {
    if n > 0 {
      ToldPrefix(hooks, h, hook, n - 1);
    }
  }

  lemma {:induction false} StartsAreOutcomes(hooks: seq<Hook>, a: nat, n: nat)
    requires n <= |hooks|
    ensures Told(hooks, SessionStart(a), n) <= Outcomes(hooks, a, n)
  {
    if n > 0 {
      StartsAreOutcomes(hooks, a, n - 1);
    }
  }

  // ---- The invariant -------------------------------------------------------------------------

  /** Attempt `a` has its outcome once it is settled, and its session, if any, its end once over. */
  ghost predicate HooksOk(hooks: seq<Hook>, attempt: nat, settled: bool, session: Option<nat>, a: nat) {
    && Outcomes(hooks, a, |hooks|) == (if 1 <= a < attempt || (a == attempt && a > 0 && settled) then 1 else 0)
    && Told(hooks, SessionEnd(a), |hooks|) + (if session == Some(a) then 1 else 0) == Told(hooks, SessionStart(a), |hooks|)
  }

  ghost predicate AllHooksOk(hooks: seq<Hook>, attempt: nat, settled: bool, session: Option<nat>) {
    forall a: nat {:trigger HooksOk(hooks, attempt, settled, session, a)} :: HooksOk(hooks, attempt, settled, session, a)
  }

  ghost predicate Shaped(c: Client) {
    && (c.status.Connecting? ==>
          && !c.settled && c.session.None? && c.leaving.NotLeaving? && c.delivered.None? && c.attempt > 0
          && c.running.Some?)
    && (c.status.Connected? ==>
          && c.settled && c.succeeded && c.session == Some(c.attempt) && c.leaving.NotLeaving? && c.delivered.None?
          && c.attempt > 0 && c.phase.Waiting?)
    && (c.status.Disconnected? ==> c.settled && (c.session.Some? ==> c.leaving.Goodbye?))
    && (c.leaving.Goodbye? ==> c.delivered.None?)
    && (c.session.Some? ==> c.session.value == c.attempt && c.phase.Waiting?)
  }

  /** At most one `disconnected` is queued, and it is the one a connect waits for. */
  ghost predicate QueueOk(queue: seq<Delivery>, delivered: Option<nat>, arrived: bool) {
    && (forall i | 0 <= i < |queue| :: queue[i].DisconnectedEvent? ==> delivered == Some(queue[i].token) && !arrived)
    && (forall i, j | 0 <= i < j < |queue| :: queue[i].OtherEvent? || queue[j].OtherEvent?)
  }

  /** A call made since the last `disconnect()` waits for the goodbye that is on. */
  ghost predicate CallOk(call: Call, disconnects: nat, leaving: Leaving) {
    && call.disconnects <= disconnects
    && (call.disconnects == disconnects && !leaving.NotLeaving? ==> call.await == ForLeaving(leaving.no))
  }

  ghost predicate CallsOk(calls: map<nat, Call>, disconnects: nat, leaving: Leaving) {
    forall k | k in calls :: CallOk(calls[k], disconnects, leaving)
  }

  ghost predicate OneLoop(c: Client) {
    && (c.reconnecting <==> c.loops != map[])
    && (forall i, j | i in c.loops && j in c.loops :: i == j)
  }

  /** A `disconnected` is on its way, or will be once the goodbye is said. */
  predicate Undelivered(c: Client) {
    (c.delivered.Some? && !c.arrived) || c.leaving.Goodbye?
  }

  /** The `disconnected` of a goodbye that was said is on its way. */
  predicate OnItsWay(c: Client) {
    && (c.delivered.Some? ==> !c.arrived)
    && (c.leaving.Closing? ==> c.delivered == Some(c.leaving.token))
  }

  /** The call of an attempt that `disconnect()` gave up waits for the end of the goodbye. */
  predicate HeldBack(c: Client) { !c.leaving.NotLeaving? && !c.succeeded }

  /** What can be ready, and what still has to come of the call inside the attempt. */
  ghost predicate ReadyOk(c: Client) {
    if c.ready == [] then
      OnItsWay(c) && (c.running.Some? ==> c.status.Connecting? || HeldBack(c))
    else match c.ready[0]
      case AttemptGoesOn(a) =>
        && |c.ready| == 1 && a == c.attempt && c.running.Some?
        && c.status.Disconnected? && !c.succeeded && Undelivered(c) && OnItsWay(c)
      case CallEnds(a) =>
        && a == c.attempt && c.running.Some? && !c.status.Connecting?
        && if |c.ready| == 1 then OnItsWay(c) && !HeldBack(c) && (c.status.Disconnected? ==> Undelivered(c))
           else |c.ready| == 2 && c.ready[1].LeavingCleared? && Parting(c)
      case DeliverySettled(token) =>
        && c.status.Disconnected? && c.delivered == Some(token) && c.arrived
        && if |c.ready| == 1 then c.leaving.NotLeaving? && c.running.None?
           else |c.ready| == 2 && c.ready[1].LeaveOver? && c.leaving.Closing?
      case LeaveOver(_) => |c.ready| == 1 && Parting(c)
      case LeavingCleared(_) => |c.ready| == 1 && Parting(c) && c.running.None?
  }

  /** A goodbye was said and its `disconnected` delivered. */
  predicate Parting(c: Client) { c.status.Disconnected? && c.leaving.Closing? && c.delivered.None? }

  ghost predicate Good(c: Client) {
    && AllHooksOk(c.hooks, c.attempt, c.settled, c.session)
    && Shaped(c)
    && QueueOk(c.queue, c.delivered, c.arrived)
    && CallsOk(c.calls, c.disconnects, c.leaving)
    && OneLoop(c)
    && ReadyOk(c)
  }

  // ---- Hooks -------------------------------------------------------------------------------------

  lemma {:induction false} HookAdded(hooks: seq<Hook>, h: Hook, a: nat)
    ensures Outcomes(hooks + [h], a, |hooks| + 1)
      == Outcomes(hooks, a, |hooks|) + if h == SessionStart(a) || h == AttemptFailed(a) then 1 else 0
    ensures Told(hooks + [h], SessionStart(a), |hooks| + 1)
      == Told(hooks, SessionStart(a), |hooks|) + if h == SessionStart(a) then 1 else 0
    ensures Told(hooks + [h], SessionEnd(a), |hooks| + 1)
      == Told(hooks, SessionEnd(a), |hooks|) + if h == SessionEnd(a) then 1 else 0
  {
    OutcomesPrefix(hooks, h, a, |hooks|);
    ToldPrefix(hooks, h, SessionStart(a), |hooks|);
    ToldPrefix(hooks, h, SessionEnd(a), |hooks|);
  }

  lemma {:induction false} AttemptFailedHooks(hooks: seq<Hook>, attempt: nat, session: Option<nat>)
    requires AllHooksOk(hooks, attempt, false, session) && attempt > 0
    ensures AllHooksOk(hooks + [AttemptFailed(attempt)], attempt, true, session)
  {
    var hooks' := hooks + [AttemptFailed(attempt)];
    forall a: nat
      ensures HooksOk(hooks', attempt, true, session, a)
    {
      assert HooksOk(hooks, attempt, false, session, a);
      HookAdded(hooks, AttemptFailed(attempt), a);
    }
  }

  lemma {:induction false} SessionStartHooks(hooks: seq<Hook>, attempt: nat)
    requires AllHooksOk(hooks, attempt, false, None) && attempt > 0
    ensures AllHooksOk(hooks + [SessionStart(attempt)], attempt, true, Some(attempt))
  {
    var hooks' := hooks + [SessionStart(attempt)];
    forall a: nat
      ensures HooksOk(hooks', attempt, true, Some(attempt), a)
    {
      assert HooksOk(hooks, attempt, false, None, a);
      HookAdded(hooks, SessionStart(attempt), a);
    }
  }

  lemma {:induction false} SessionEndHooks(hooks: seq<Hook>, attempt: nat, settled: bool, s: nat)
    requires AllHooksOk(hooks, attempt, settled, Some(s))
    ensures AllHooksOk(hooks + [SessionEnd(s)], attempt, settled, None)
  {
    var hooks' := hooks + [SessionEnd(s)];
    forall a: nat
      ensures HooksOk(hooks', attempt, settled, None, a)
    {
      assert HooksOk(hooks, attempt, settled, Some(s), a);
      HookAdded(hooks, SessionEnd(s), a);
    }
  }

  lemma {:induction false} NextAttemptHooks(hooks: seq<Hook>, attempt: nat)
    requires AllHooksOk(hooks, attempt, true, None)
    ensures AllHooksOk(hooks, attempt + 1, false, None)
  {
    var next := attempt + 1;
    forall a: nat
      ensures HooksOk(hooks, next, false, None, a)
    {
      assert HooksOk(hooks, attempt, true, None, a);
    }
  }

  // ---- Parts of steps -------------------------------------------------------------------------------

  /** Announcing with nothing else on its way. */
  lemma {:induction false} AnnouncedQueue(c: Client)
    requires QueueOk(c.queue, c.delivered, c.arrived) && c.delivered.None?
    ensures QueueOk(Announced(c).queue, Announced(c).delivered, Announced(c).arrived)
  {
  }

  lemma {:induction false} OtherQueue(queue: seq<Delivery>, delivered: Option<nat>, arrived: bool)
    requires QueueOk(queue, delivered, arrived)
    ensures QueueOk(queue + [OtherEvent], delivered, arrived)
  {
  }

  lemma {:induction false} RejectedHooks(c: Client, heldBack: bool)
    requires AllHooksOk(c.hooks, c.attempt, c.settled, c.session) && (!c.settled ==> c.attempt > 0)
    ensures AllHooksOk(Settled(c, heldBack).hooks, c.attempt, true, c.session) && Settled(c, heldBack).settled
  {
    if !c.settled {
      AttemptFailedHooks(c.hooks, c.attempt, c.session);
    }
  }

  lemma {:induction false} ConnectionFailedGood(c: Client)
    requires Good(c)
    ensures Good(ConnectionFailed(c))
  {
    if c.status.Connecting? {
      RejectedHooks(c, false);
      AnnouncedQueue(Rejected(c).(status := Disconnected));
    }
  }

  lemma {:induction false} CallOverGood(c: Client, owner: Owner, result: CallResult)
    requires Good(c)
    ensures Good(CallOver(c, owner, result))
  {
    if owner.Loop? && owner.id in c.loops {
      assert CallOver(c, owner, result).loops.Keys == c.loops.Keys;
    }
  }

  lemma {:induction false} ParkedGood(c: Client, call: Call)
    requires Good(c) && CallOk(call, c.disconnects, c.leaving)
    ensures Good(Parked(c, call))
  {
  }

  lemma {:induction false} StartedGood(c: Client, owner: Owner)
    requires Good(c) && c.status.Disconnected? && c.delivered.None? && c.leaving.NotLeaving?
    ensures Good(Started(c, owner))
  {
    NextAttemptHooks(c.hooks, c.attempt);
  }

  /** A call goes on only when no goodbye is on, or it is too late for it. */
  lemma {:induction false} ProceededGood(c: Client, owner: Owner, disconnects: nat)
    requires Good(c) && disconnects <= c.disconnects && (disconnects == c.disconnects ==> c.leaving.NotLeaving?)
    ensures Good(Proceeded(c, owner, disconnects))
  {
    if c.delivered.Some? {
      ParkedGood(c, Call(owner, disconnects, ForDelivery(c.delivered.value)));
    } else if c.disconnects != disconnects {
      CallOverGood(c, owner, Failed);
    } else if !c.status.Disconnected? {
      CallOverGood(c, owner, WasConnected);
    } else {
      StartedGood(c, owner);
    }
  }

  lemma {:induction false} ConnectCalledGood(c: Client, owner: Owner)
    requires Good(c)
    ensures Good(ConnectCalled(c, owner))
  {
    if c.leaving.NotLeaving? {
      ProceededGood(c, owner, c.disconnects);
    } else {
      ParkedGood(c, Call(owner, c.disconnects, ForLeaving(c.leaving.no)));
    }
  }

  lemma {:induction false} FewerCallsGood(c: Client, call: nat)
    requires Good(c)
    ensures Good(c.(calls := c.calls - {call}))
  {
  }

  lemma {:induction false} LeaveClosedGood(c: Client, no: nat)
    requires Good(c) && c.leaving == Goodbye(no)
    ensures Good(LeaveClosed(c, no))
  {
    if c.session.Some? {
      SessionEndHooks(c.hooks, c.attempt, c.settled, c.session.value);
    }
    AnnouncedQueue(SessionEnded(c));
  }

  lemma {:induction false} AskedGood(c: Client)
    requires Good(c)
    ensures Good(Asked(c))
    ensures forall k | k in c.calls :: c.calls[k].disconnects <= c.disconnects
  {
    forall k | k in c.calls
      ensures CallOk(c.calls[k], c.disconnects + 1, c.leaving)
    {
      assert CallOk(c.calls[k], c.disconnects, c.leaving);
    }
  }

  /** A goodbye begins: every call that waits was made before it. */
  lemma {:induction false} LeftGood(c: Client)
    requires Good(c) && !c.status.Disconnected? && c.leaving.NotLeaving?
    requires forall k | k in c.calls :: c.calls[k].disconnects < c.disconnects
    ensures Good(LeaveBegun(c))
  {
    RejectedHooks(c.(status := Disconnected), true);
  }

  lemma {:induction false} DisconnectCalledGood(c: Client, holdsSession: bool)
    requires Good(c)
    ensures Good(DisconnectCalled(c, holdsSession))
  {
    var asked := Asked(c);
    AskedGood(c);
    if c.leaving.NotLeaving? && !c.status.Disconnected? {
      LeftGood(asked);
      LeaveClosedGood(LeaveBegun(asked), c.leavings);
    }
  }

  lemma {:induction false} LoopOverGood(c: Client, id: nat)
    requires Good(c) && id in c.loops
    ensures Good(LoopOver(c, id))
  {
  }

  lemma {:induction false} ReconnectScheduledGood(c: Client, policy: bool, retry: bool)
    requires Good(c)
    ensures Good(ReconnectScheduled(c, policy, retry))
  {
    if policy && !c.stopped && !c.reconnecting {
      var begun := c.(reconnecting := true, loops := c.loops[c.nextLoop := Sleeping], nextLoop := c.nextLoop + 1);
      assert c.nextLoop in begun.loops;
      assert Good(begun);
      LoopOverGood(begun, c.nextLoop);
    }
  }

  lemma {:induction false} DroppedGood(c: Client)
    requires Good(c) && c.status.Connected?
    ensures Good(Announced(SessionEnded(c.(status := Disconnected))))
  {
    SessionEndHooks(c.hooks, c.attempt, c.settled, c.session.value);
    AnnouncedQueue(SessionEnded(c.(status := Disconnected)));
  }

  lemma {:induction false} ConnectionClosedGood(c: Client, policy: bool, retry: bool)
    requires Good(c)
    ensures Good(ConnectionClosed(c, policy, retry))
  {
    if c.status.Connected? {
      DroppedGood(c);
      ReconnectScheduledGood(Announced(SessionEnded(c.(status := Disconnected))), policy, retry);
    } else {
      ConnectionFailedGood(c);
    }
  }

  lemma {:induction false} MarkedConnectedGood(c: Client)
    requires Good(c) && c.phase.Waiting?
    ensures Good(MarkedConnected(c))
  {
    if c.status.Connecting? && !c.settled {
      SessionStartHooks(c.hooks, c.attempt);
      OtherQueue(c.queue, c.delivered, c.arrived);
    }
  }

  lemma {:induction false} RunningOverGood(c: Client)
    requires Good(c.(running := None))
    ensures Good(RunningOver(c))
  {
    if c.running.Some? {
      CallOverGood(c.(running := None), c.running.value, if c.succeeded then Succeeded else Failed);
    }
  }

  /** The queue after its first delivery, which made what is left no longer wait for it. */
  lemma {:induction false} QueueShorter(queue: seq<Delivery>, delivered: Option<nat>)
    requires QueueOk(queue, delivered, false) && |queue| > 0
    ensures QueueOk(queue[1..], delivered, queue[0].DisconnectedEvent?)
  {
    var rest := queue[1..];
    forall i | 0 <= i < |rest| && rest[i].DisconnectedEvent?
      ensures delivered == Some(rest[i].token) && queue[0].OtherEvent?
    {
      assert rest[i] == queue[i + 1];
    }
    forall i, j | 0 <= i < j < |rest|
      ensures rest[i].OtherEvent? || rest[j].OtherEvent?
    {
      assert rest[i] == queue[i + 1] && rest[j] == queue[j + 1];
    }
  }

  /** Nothing but what deliveries made ready is. */
  predicate Draining(c: Client) { c.ready == [] || c.ready[0].DeliverySettled? }

  lemma {:induction false} OtherDelivered(c: Client)
    requires Good(c) && |c.queue| > 0 && c.queue[0].OtherEvent?
    ensures Good(DeliveredOne(c))
  {
    if c.arrived {
      forall i | 0 <= i < |c.queue| - 1
        ensures c.queue[1..][i] == c.queue[i + 1]
      {
      }
    } else {
      QueueShorter(c.queue, c.delivered);
    }
  }

  lemma {:induction false} DisconnectedDelivered(c: Client)
    requires Good(c) && |c.queue| > 0 && c.queue[0].DisconnectedEvent? && Draining(c)
    ensures Good(DeliveredOne(c)) && Draining(DeliveredOne(c))
  {
    assert !c.arrived && c.delivered == Some(c.queue[0].token) && c.ready == [];
    QueueShorter(c.queue, c.delivered);
  }

  lemma {:induction false} DrainedGood(c: Client)
    requires Good(c) && Draining(c)
    ensures Good(Drained(c))
    decreases |c.queue|
  {
    if c.queue != [] {
      if c.queue[0].OtherEvent? {
        OtherDelivered(c);
      } else {
        DisconnectedDelivered(c);
      }
      DrainedGood(DeliveredOne(c));
    }
  }

  lemma {:induction false} LoopWokenGood(c: Client, id: nat)
    requires Good(c) && id in c.loops
    ensures Good(LoopWoken(c, id))
  {
    if c.stopped || !c.status.Disconnected? {
      LoopOverGood(c, id);
    } else {
      assert c.loops[id := Calling].Keys == c.loops.Keys;
      ConnectCalledGood(c.(loops := c.loops[id := Calling]), Loop(id));
    }
  }

  lemma {:induction false} LoopAnsweredGood(c: Client, id: nat, result: CallResult, retry: bool)
    requires Good(c) && id in c.loops
    ensures Good(LoopAnswered(c, id, result, retry))
  {
    LoopOverGood(c, id);
    assert c.loops[id := Sleeping].Keys == c.loops.Keys;
  }

  lemma {:induction false} CallGoesOnGood(c: Client, call: nat)
    requires Good(c) && Enabled(c, CallGoesOn(call))
    ensures Good(Next(c, CallGoesOn(call)))
  {
    assert CallOk(c.calls[call], c.disconnects, c.leaving);
    FewerCallsGood(c, call);
    ProceededGood(c.(calls := c.calls - {call}), c.calls[call].owner, c.calls[call].disconnects);
  }

  /** An attempt that was given up does nothing more: its continuation finds it settled and the
      client disconnected, and never another attempt. Only its call may end now. */
  lemma {:induction false} AbandonedDoesNothing(c: Client)
    requires Good(c) && |c.ready| > 0 && c.ready[0].AttemptGoesOn?
    ensures c.ready == [AttemptGoesOn(c.attempt)]
    ensures Ran(c) == c.(ready := if c.leaving.NotLeaving? then [CallEnds(c.attempt)] else [])
  {
    assert c.ready[1..] == [];
  }

  lemma {:induction false} CallEndsGood(c: Client)
    requires Good(c) && |c.ready| > 0 && c.ready[0].CallEnds?
    ensures Good(Ran(c))
  {
    var rest := c.(ready := c.ready[1..]);
    assert Good(rest.(running := None));
    RunningOverGood(rest);
  }

  lemma {:induction false} DeliverySettledGood(c: Client)
    requires Good(c) && |c.ready| > 0 && c.ready[0].DeliverySettled?
    ensures Good(Ran(c))
  {
  }

  lemma {:induction false} LeaveOverGood(c: Client)
    requires Good(c) && |c.ready| > 0 && c.ready[0].LeaveOver?
    ensures Good(Ran(c))
  {
    assert c.ready[1..] == [];
  }

  lemma {:induction false} LeavingClearedGood(c: Client)
    requires Good(c) && |c.ready| > 0 && c.ready[0].LeavingCleared?
    ensures Good(Ran(c))
  {
    assert c.ready[1..] == [];
  }

  lemma {:induction false} AttemptGoesOnGood(c: Client)
    requires Good(c) && |c.ready| > 0 && c.ready[0].AttemptGoesOn?
    ensures Good(Ran(c))
  {
    AbandonedDoesNothing(c);
  }

  lemma {:induction false} RanGood(c: Client)
    requires Good(c) && |c.ready| > 0
    ensures Good(Ran(c))
  {
    match c.ready[0]
    case AttemptGoesOn(_) => AttemptGoesOnGood(c);
    case CallEnds(_) => CallEndsGood(c);
    case DeliverySettled(_) => DeliverySettledGood(c);
    case LeaveOver(_) => LeaveOverGood(c);
    case LeavingCleared(_) => LeavingClearedGood(c);
  }

  /** Nor does the signal of a call whose attempt is settled. */
  lemma {:induction false} LateAbortDoesNothing(c: Client)
    requires Good(c) && c.running.Some? && c.settled
    ensures Next(c, AttemptAborted) == c
  {
  }

  lemma {:induction false} SetupGood(c: Client, step: Step)
    requires Good(c) && Enabled(c, step) && (step.AddressFound? || step.SocketOpen? || step.SetupFails?)
    ensures Good(Next(c, step))
  {
    if step.SetupFails? {
      ConnectionFailedGood(c.(phase := Waiting));
    }
  }

  lemma {:induction false} NextGood(c: Client, step: Step)
    requires Good(c) && Enabled(c, step)
    ensures Good(Next(c, step))
  {
    match step
    case Connect => ConnectCalledGood(c, User);
    case Disconnect(holdsSession) => DisconnectCalledGood(c, holdsSession);
    case CallGoesOn(call) => CallGoesOnGood(c, call);
    case CallAborted(call) =>
      FewerCallsGood(c, call);
      CallOverGood(c.(calls := c.calls - {call}), c.calls[call].owner, Failed);
    case AttemptAborted => ConnectionFailedGood(c);
    case AddressFound => SetupGood(c, step);
    case SocketOpen => SetupGood(c, step);
    case SetupFails => SetupGood(c, step);
    case ServerAccepts => MarkedConnectedGood(c);
    case HandshakeFails => ConnectionFailedGood(c);
    case SocketCloses(policy, retry) => ConnectionClosedGood(c, policy, retry);
    case GoodbyeOver => LeaveClosedGood(c, c.leaving.no);
    case Drain => DrainedGood(c);
    case RunReady => RanGood(c);
    case WaitsAgain => AbandonedDoesNothing(c);
    case LoopWakes(id) => LoopWokenGood(c, id);
    case LoopGoesOn(id, retry) => LoopAnsweredGood(c, id, c.loops[id].result, retry);
    case ServerEvent => OtherQueue(c.queue, c.delivered, c.arrived);
  }

  // ---- Runs -------------------------------------------------------------------------------------------

  ghost predicate IsRun(clients: seq<Client>, steps: seq<Step>) {
    && |clients| == |steps| + 1 && clients[0] == NEW
    && forall i | 0 <= i < |steps| :: Enabled(clients[i], steps[i]) && clients[i + 1] == Next(clients[i], steps[i])
  }

  lemma {:induction false} RunGood(clients: seq<Client>, steps: seq<Step>, n: nat)
    requires IsRun(clients, steps) && n < |clients|
    ensures Good(clients[n])
  {
    if n == 0 {
      forall a: nat
        ensures HooksOk([], 0, true, None, a)
      {
      }
    } else {
      RunGood(clients, steps, n - 1);
      NextGood(clients[n - 1], steps[n - 1]);
    }
  }

  /** Each attempt ends at most once, as a session or as failed, and once the client is
      disconnected again every attempt has. */
  lemma {:induction false} AttemptsEndOnce(clients: seq<Client>, steps: seq<Step>, n: nat, a: nat)
    requires IsRun(clients, steps) && n < |clients|
    ensures var c := clients[n];
      && Outcomes(c.hooks, a, |c.hooks|) <= 1
      && (c.status.Disconnected? && 1 <= a <= c.attempt ==> Outcomes(c.hooks, a, |c.hooks|) == 1)
  {
    RunGood(clients, steps, n);
    var c := clients[n];
    assert HooksOk(c.hooks, c.attempt, c.settled, c.session, a);
  }

  /** Each session that started ends at most once, and none is left open once the client is
      disconnected and its goodbye over. */
  lemma {:induction false} SessionsEndOnce(clients: seq<Client>, steps: seq<Step>, n: nat, a: nat)
    requires IsRun(clients, steps) && n < |clients|
    ensures var c := clients[n];
      var started, ended := Told(c.hooks, SessionStart(a), |c.hooks|), Told(c.hooks, SessionEnd(a), |c.hooks|);
      && ended <= started <= 1
      && (c.status.Disconnected? && !c.leaving.Goodbye? ==> ended == started)
  {
    RunGood(clients, steps, n);
    var c := clients[n];
    assert HooksOk(c.hooks, c.attempt, c.settled, c.session, a);
    StartsAreOutcomes(c.hooks, a, |c.hooks|);
  }

  /** No attempt starts while the end of an earlier session has not been delivered, or a goodbye
      is on, or another attempt or its call is. */
  lemma {:induction false} StartsAfterTheEnd(clients: seq<Client>, steps: seq<Step>, n: nat)
    requires IsRun(clients, steps) && n < |steps| && clients[n + 1].attempt != clients[n].attempt
    ensures var c := clients[n];
      && (forall i | 0 <= i < |c.queue| :: c.queue[i].OtherEvent?)
      && c.status.Disconnected? && c.leaving.NotLeaving? && c.running.None? && c.ready == []
      && clients[n + 1].attempt == c.attempt + 1
  {
    RunGood(clients, steps, n);
    StartsOnlyFree(clients[n], steps[n]);
  }

  lemma {:induction false} ProceededStarts(c: Client, owner: Owner, disconnects: nat)
    requires Proceeded(c, owner, disconnects).attempt != c.attempt
    ensures WouldStart(c, disconnects) && Proceeded(c, owner, disconnects).attempt == c.attempt + 1
  {
  }

  lemma {:induction false} CalledStarts(c: Client, owner: Owner)
    requires ConnectCalled(c, owner).attempt != c.attempt
    ensures WouldStart(c, c.disconnects) && c.leaving.NotLeaving? && ConnectCalled(c, owner).attempt == c.attempt + 1
  {
    ProceededStarts(c, owner, c.disconnects);
  }

  lemma {:induction false} SettledSame(c: Client, heldBack: bool)
    ensures Settled(c, heldBack).attempt == c.attempt
  {
  }

  lemma {:induction false} FailedSame(c: Client)
    ensures ConnectionFailed(c).attempt == c.attempt
  {
    SettledSame(c, false);
  }

  lemma {:induction false} LeaveClosedSame(c: Client, no: nat)
    ensures LeaveClosed(c, no).attempt == c.attempt
  {
  }

  lemma {:induction false} BegunSame(c: Client)
    ensures LeaveBegun(c).attempt == c.attempt
  {
    SettledSame(c.(status := Disconnected), true);
  }

  lemma {:induction false} LeftSame(c: Client, holdsSession: bool)
    ensures DisconnectCalled(c, holdsSession).attempt == c.attempt
  {
    BegunSame(Asked(c));
    LeaveClosedSame(LeaveBegun(Asked(c)), c.leavings);
  }

  lemma {:induction false} ClosedSame(c: Client, policy: bool, retry: bool)
    ensures ConnectionClosed(c, policy, retry).attempt == c.attempt
  {
    FailedSame(c);
  }

  lemma {:induction false} OverSame(c: Client, owner: Owner, result: CallResult)
    ensures CallOver(c, owner, result).attempt == c.attempt
    ensures RunningOver(c).attempt == c.attempt
  {
  }

  lemma {:induction false} DeliveredSame(c: Client)
    requires |c.queue| > 0
    ensures DeliveredOne(c).attempt == c.attempt
  {
    match c.queue[0]
    case OtherEvent =>
    case DisconnectedEvent(_) =>
  }

  lemma {:induction false} DrainedSame(c: Client)
    ensures Drained(c).attempt == c.attempt
    decreases |c.queue|
  {
    if c.queue != [] {
      DeliveredSame(c);
      DrainedSame(DeliveredOne(c));
    }
  }

  lemma {:induction false} RanSame(c: Client)
    requires |c.ready| > 0
    ensures Ran(c).attempt == c.attempt
  {
    var rest := c.(ready := c.ready[1..]);
    match c.ready[0]
    case AttemptGoesOn(_) => FailedSame(rest);
    case CallEnds(_) => OverSame(rest, User, Failed);
    case DeliverySettled(_) =>
    case LeaveOver(_) =>
    case LeavingCleared(_) =>
  }

  lemma {:induction false} OthersStartNone(c: Client, step: Step)
    requires Enabled(c, step) && !step.Connect? && !step.CallGoesOn? && !step.LoopWakes?
    ensures Next(c, step).attempt == c.attempt
  {
    match step
    case Disconnect(holdsSession) => LeftSame(c, holdsSession);
    case CallAborted(call) => OverSame(c.(calls := c.calls - {call}), c.calls[call].owner, Failed);
    case AttemptAborted => FailedSame(c);
    case AddressFound =>
    case SocketOpen =>
    case SetupFails => FailedSame(c.(phase := Waiting));
    case ServerAccepts =>
    case HandshakeFails => FailedSame(c);
    case SocketCloses(policy, retry) => ClosedSame(c, policy, retry);
    case GoodbyeOver => LeaveClosedSame(c, c.leaving.no);
    case Drain => DrainedSame(c);
    case RunReady => RanSame(c);
    case WaitsAgain =>
    case LoopGoesOn(_, _) =>
    case ServerEvent =>
  }

  lemma {:induction false} StartsOnlyFree(c: Client, step: Step)
    requires Good(c) && Enabled(c, step) && Next(c, step).attempt != c.attempt
    ensures c.delivered.None? && c.status.Disconnected? && c.leaving.NotLeaving?
    ensures Next(c, step).attempt == c.attempt + 1
  {
    if step.CallGoesOn? {
      assert CallOk(c.calls[step.call], c.disconnects, c.leaving);
      ProceededStarts(c.(calls := c.calls - {step.call}), c.calls[step.call].owner, c.calls[step.call].disconnects);
    } else if step.Connect? {
      CalledStarts(c, User);
    } else if step.LoopWakes? {
      if !(c.stopped || !c.status.Disconnected?) {
        CalledStarts(c.(loops := c.loops[step.id := Calling]), Loop(step.id));
      }
    } else {
      OthersStartNone(c, step);
    }
  }

  // ---- Without the order ---------------------------------------------------------------------------

  /** The same steps, but for a delivery that does not wait for the continuations that are ready. */
  predicate EnabledLoosely(c: Client, step: Step) {
    if step.Drain? then |c.queue| > 0 else Enabled(c, step)
  }

  function NextLoosely(c: Client, step: Step): Client
    requires EnabledLoosely(c, step)
  {
    if step.Drain? then Drained(c) else Next(c, step)
  }

  ghost predicate IsLooseRun(clients: seq<Client>, steps: seq<Step>) {
    && |clients| == |steps| + 1 && clients[0] == NEW
    && forall i | 0 <= i < |steps| ::
         EnabledLoosely(clients[i], steps[i]) && clients[i + 1] == NextLoosely(clients[i], steps[i])
  }

  /** An attempt is given up, and the next one starts before the first one's continuation runs. */
  function LooseStep(n: nat): Step {
    match n
    case 0 => Connect
    case 1 => AttemptAborted
    case 2 => Drain
    case 3 => WaitsAgain
    case 4 => RunReady
    case 5 => Connect
    case _ => RunReady
  }

  const FIRST := NEW.(status := Connecting, attempt := 1, settled := false, phase := Resolving, running := Some(User))

  const GIVEN_UP := FIRST.(
    status := Disconnected, settled := true, hooks := [AttemptFailed(1)], tokens := 1, delivered := Some(0))

  const SECOND := GIVEN_UP.(
    delivered := None, arrived := true, status := Connecting, attempt := 2, settled := false, ready := [AttemptGoesOn(1)])

  function LooseClient(n: nat): Client {
    match n
    case 0 => NEW
    case 1 => FIRST
    case 2 => GIVEN_UP.(queue := [DisconnectedEvent(0)], ready := [AttemptGoesOn(1)])
    case 3 => GIVEN_UP.(arrived := true, ready := [AttemptGoesOn(1), DeliverySettled(0)])
    case 4 => GIVEN_UP.(arrived := true, ready := [DeliverySettled(0), AttemptGoesOn(1)])
    case 5 => GIVEN_UP.(arrived := true, delivered := None, ready := [AttemptGoesOn(1)])
    case 6 => SECOND
    case _ => Ran(SECOND)
  }

  predicate LooselyTo(c: Client, step: Step, c': Client) { EnabledLoosely(c, step) && NextLoosely(c, step) == c' }

  lemma {:induction false} LooseGivesUp(n: nat)
    requires n < 3
    ensures LooselyTo(LooseClient(n), LooseStep(n), LooseClient(n + 1))
  {
    if n == 0 {
    } else if n == 1 {
    } else {
      var had := DeliveredOne(LooseClient(2));
      assert had.queue == [];
      assert Drained(had) == had;
    }
  }

  lemma {:induction false} LooseStartsAgain(n: nat)
    requires 3 <= n < 7
    ensures LooselyTo(LooseClient(n), LooseStep(n), LooseClient(n + 1))
  {
    if n == 3 {
    } else if n == 4 {
    } else if n == 5 {
    } else {
    }
  }

  /** With a delivery that came sooner, the continuation of an attempt that was given up would fail
      the next one, which nothing is wrong with. */
  lemma {:induction false} OrderMatters() returns (clients: seq<Client>, steps: seq<Step>)
    ensures |clients| == 8 && IsLooseRun(clients, steps)
    ensures clients[6].status.Connecting? && clients[6].attempt == 2 && clients[6].ready == [AttemptGoesOn(1)]
    ensures steps[6] == RunReady
    ensures clients[7].status.Disconnected? && clients[7].hooks == [AttemptFailed(1), AttemptFailed(2)]
  {
    clients, steps := seq(8, (n: nat) => LooseClient(n)), seq(7, (n: nat) => LooseStep(n));
    forall i | 0 <= i < 7
      ensures LooselyTo(clients[i], steps[i], clients[i + 1])
    {
      if i < 3 { LooseGivesUp(i); } else { LooseStartsAgain(i); }
    }
    LooseRunOfSteps(clients, steps);
  }

  lemma {:induction false} LooseRunOfSteps(clients: seq<Client>, steps: seq<Step>)
    requires |clients| == |steps| + 1 && clients[0] == NEW
    requires forall i | 0 <= i < |steps| :: LooselyTo(clients[i], steps[i], clients[i + 1])
    ensures IsLooseRun(clients, steps)
  {
    forall i | 0 <= i < |steps|
      ensures EnabledLoosely(clients[i], steps[i]) && clients[i + 1] == NextLoosely(clients[i], steps[i])
    {
      assert LooselyTo(clients[i], steps[i], clients[i + 1]);
    }
  }

  /** At most one reconnect loop runs. */
  lemma {:induction false} OneLoopRuns(clients: seq<Client>, steps: seq<Step>, n: nat, i: nat, j: nat)
    requires IsRun(clients, steps) && n < |clients| && i in clients[n].loops && j in clients[n].loops
    ensures i == j && clients[n].reconnecting
  {
    RunGood(clients, steps, n);
  }
}
