/** The client itself: each method is the step of `Lifecycle` it stands for. */
module VoiceClients {
  import opened Wrappers
  import L = Lifecycle

  class VoiceClient {
    var status: L.Status
    var attempt: nat
    var settled: bool
    var succeeded: bool
    var phase: L.Phase
    var running: Option<L.Owner>
    var session: Option<nat>
    var sessionCount: nat
    var leaving: L.Leaving
    var leavings: nat
    var disconnects: nat
    var stopped: bool
    var queue: seq<L.Delivery>
    var tokens: nat
    var delivered: Option<nat>
    var arrived: bool
    var reconnecting: bool
    var loops: map<nat, L.LoopStage>
    var nextLoop: nat
    var calls: map<nat, L.Call>
    var nextCall: nat
    var ready: seq<L.Job>
    var hooks: seq<L.Hook>

    ghost function Contents(): L.Client
      reads this
    {
      L.Client(status, attempt, settled, succeeded, phase, running, session, sessionCount, leaving, leavings,
               disconnects, stopped, queue, tokens, delivered, arrived, reconnecting, loops, nextLoop,
               calls, nextCall, ready, hooks)
    }

    constructor ()
      ensures Contents() == L.NEW
    {
      status, attempt, settled, succeeded, phase, running := L.Disconnected, 0, true, false, L.Waiting, None;
      session, sessionCount, leaving, leavings, disconnects, stopped := None, 0, L.NotLeaving, 0, 0, false;
      queue, tokens, delivered, arrived := [], 0, None, false;
      reconnecting, loops, nextLoop, calls, nextCall, ready, hooks := false, map[], 0, map[], 0, [], [];
    }

    method AnnounceDisconnected()
      modifies this
      ensures Contents() == L.Announced(old(Contents()))
    {
      queue := queue + [L.DisconnectedEvent(tokens)];
      delivered := Some(tokens);
      arrived := false;
      tokens := tokens + 1;
    }

    /** Ends an attempt that has no outcome yet as failed; `heldBack` leaves its promise to the end of
        the goodbye. */
    method SettleAttempt(heldBack: bool)
      modifies this
      ensures Contents() == L.Settled(old(Contents()), heldBack)
    {
      if settled {
        return;
      }
      settled := true;
      succeeded := false;
      hooks := hooks + [L.AttemptFailed(attempt)];
      if phase != L.Waiting {
        ready := ready + [L.AttemptGoesOn(attempt)];
      } else if !heldBack {
        ready := ready + [L.CallEnds(attempt)];
      }
    }

    method FailConnection()
      modifies this
      ensures Contents() == L.ConnectionFailed(old(Contents()))
    {
      if status == L.Connected {
        return;
      }
      SettleAttempt(false);
      if status == L.Disconnected {
        return;
      }
      status := L.Disconnected;
      AnnounceDisconnected();
    }

    method EndSession()
      modifies this
      ensures Contents() == L.SessionEnded(old(Contents()))
    {
      if session.None? {
        return;
      }
      var ended := session.value;
      session := None;
      hooks := hooks + [L.SessionEnd(ended)];
    }

    method MarkConnected()
      modifies this
      ensures Contents() == L.MarkedConnected(old(Contents()))
    {
      if status != L.Connecting || settled {
        return;
      }
      status := L.Connected;
      sessionCount := sessionCount + 1;
      settled := true;
      succeeded := true;
      ready := ready + [L.CallEnds(attempt)];
      session := Some(attempt);
      hooks := hooks + [L.SessionStart(attempt)];
      queue := queue + [L.OtherEvent];
    }

    method NewAttempt()
      modifies this
      ensures Contents() == old(Contents()).(attempt := old(attempt) + 1, settled := false, succeeded := false,
                                               phase := L.Resolving)
    {
      attempt := attempt + 1;
      settled := false;
      succeeded := false;
      phase := L.Resolving;
    }

    method StartAttempt(owner: L.Owner)
      modifies this
      ensures Contents() == L.Started(old(Contents()), owner)
    {
      stopped := false;
      NewAttempt();
      status := L.Connecting;
      running := Some(owner);
    }

    method Park(call: L.Call)
      modifies this
      ensures Contents() == L.Parked(old(Contents()), call)
    {
      calls := calls[nextCall := call];
      nextCall := nextCall + 1;
    }

    /** The rest of `connect()`, from where it no longer waits for a goodbye. */
    method GoOn(owner: L.Owner, made: nat)
      modifies this
      ensures Contents() == L.Proceeded(old(Contents()), owner, made)
    {
      if delivered.Some? {
        Park(L.Call(owner, made, L.ForDelivery(delivered.value)));
      } else if disconnects != made {
        EndCall(owner, L.CallResult.Failed);
      } else if status != L.Disconnected {
        EndCall(owner, L.WasConnected);
      } else {
        StartAttempt(owner);
      }
    }

    method EndCall(owner: L.Owner, result: L.CallResult)
      modifies this
      ensures Contents() == L.CallOver(old(Contents()), owner, result)
    {
      if owner.Loop? && owner.id in loops {
        loops := loops[owner.id := L.Answered(result)];
      }
    }

    method Connect(owner: L.Owner)
      modifies this
      ensures Contents() == L.ConnectCalled(old(Contents()), owner)
    {
      if leaving != L.NotLeaving {
        Park(L.Call(owner, disconnects, L.ForLeaving(leaving.no)));
        return;
      }
      GoOn(owner, disconnects);
    }

    /** The end of `#leave`, once the goodbye was answered or there was none to say. */
    method CloseAndAnnounce(no: nat)
      modifies this
      ensures Contents() == L.LeaveClosed(old(Contents()), no)
    {
      EndSession();
      var token := tokens;
      AnnounceDisconnected();
      leaving := L.Closing(no, token);
    }

    method GiveUpAttempt()
      modifies this
      ensures Contents() == L.Settled(old(Contents()).(status := L.Disconnected), true)
    {
      status := L.Disconnected;
      SettleAttempt(true);
    }

    method BeginLeaving() returns (no: nat)
      modifies this
      ensures Contents() == L.LeaveBegun(old(Contents())) && no == old(leavings)
    {
      GiveUpAttempt();
      no := leavings;
      leavings := leavings + 1;
      leaving := L.Goodbye(no);
    }

    method Disconnect(cryptoReady: bool)
      modifies this
      ensures Contents() == L.DisconnectCalled(old(Contents()), cryptoReady)
    {
      stopped := true;
      disconnects := disconnects + 1;
      if leaving != L.NotLeaving || status == L.Disconnected {
        return;
      }
      var holdsSession := status == L.Connected || cryptoReady;
      var no := BeginLeaving();
      if !holdsSession {
        CloseAndAnnounce(no);
      }
    }

    method ScheduleReconnect(policy: bool, retry: bool)
      modifies this
      ensures Contents() == L.ReconnectScheduled(old(Contents()), policy, retry)
    {
      if !policy || stopped || reconnecting {
        return;
      }
      reconnecting := true;
      var id := nextLoop;
      nextLoop := nextLoop + 1;
      loops := loops[id := L.Sleeping];
      if !retry {
        EndLoop(id);
      }
    }

    method EndLoop(id: nat)
      modifies this
      ensures Contents() == L.LoopOver(old(Contents()), id)
    {
      loops := loops - {id};
      reconnecting := false;
    }

    method HandleConnectionClosed(policy: bool, retry: bool)
      modifies this
      ensures Contents() == L.ConnectionClosed(old(Contents()), policy, retry)
    {
      if status == L.Disconnected {
        return;
      }
      if status != L.Connected {
        FailConnection();
        return;
      }
      status := L.Disconnected;
      EndSession();
      AnnounceDisconnected();
      ScheduleReconnect(policy, retry);
    }

    /** What waits for a `disconnected` that was delivered is ready. */
    method WakeDelivered(token: nat)
      modifies this
      ensures Contents() == old(Contents()).(
        arrived := old(arrived) || old(delivered) == Some(token),
        ready := old(ready) + L.Woken(old(Contents()), token))
    {
      if delivered == Some(token) {
        arrived := true;
      }
      ready := ready + [L.DeliverySettled(token)];
      if leaving.Closing? && leaving.token == token {
        ready := ready + [L.LeaveOver(leaving.no)];
      }
    }

    method DeliverNext()
      requires |queue| > 0
      modifies this
      ensures Contents() == L.DeliveredOne(old(Contents()))
    {
      var first := queue[0];
      queue := queue[1..];
      if first.DisconnectedEvent? {
        WakeDelivered(first.token);
      }
    }

    /** Everything that is queued is delivered, in its order. */
    method Drain()
      modifies this
      ensures Contents() == L.Drained(old(Contents()))
    {
      while |queue| > 0
        invariant L.Drained(Contents()) == L.Drained(old(Contents()))
        decreases |queue|
      {
        DeliverNext();
      }
    }

    /** The call inside the attempt is over, and no longer listens to its signal. */
    method EndRunning()
      modifies this
      ensures Contents() == L.RunningOver(old(Contents()))
    {
      if running.None? {
        return;
      }
      var owner := running.value;
      running := None;
      EndCall(owner, if succeeded then L.Succeeded else L.CallResult.Failed);
    }

    /** What an attempt does after its lookup or socket stopped. */
    method ContinueAttempt(a: nat)
      modifies this
      ensures Contents() == L.Continued(old(Contents()), a)
    {
      FailConnection();
      if leaving == L.NotLeaving {
        ready := ready + [L.CallEnds(a)];
      }
    }

    method RejectHeldBack(no: nat)
      modifies this
      ensures Contents() == old(Contents()).(ready := old(ready) + L.Rejections(old(Contents()), no))
    {
      if running.Some? {
        ready := ready + [L.CallEnds(attempt)];
      }
      ready := ready + [L.LeavingCleared(no)];
    }

    /** The continuation that is first runs. */
    method RunReady()
      requires |ready| > 0
      modifies this
      ensures Contents() == L.Ran(old(Contents()))
    {
      var job := ready[0];
      ready := ready[1..];
      match job {
        case AttemptGoesOn(a) => ContinueAttempt(a);
        case CallEnds(_) => EndRunning();
        case DeliverySettled(token) =>
          if delivered == Some(token) {
            delivered := None;
          }
        case LeaveOver(no) => RejectHeldBack(no);
        case LeavingCleared(_) => leaving := L.NotLeaving;
      }
    }

    method WakeLoop(id: nat)
      modifies this
      ensures Contents() == L.LoopWoken(old(Contents()), id)
    {
      if stopped {
        EndLoop(id);
        return;
      }
      if status != L.Disconnected {
        EndLoop(id);
        return;
      }
      loops := loops[id := L.Calling];
      Connect(L.Loop(id));
    }

    method GoOnLoop(id: nat, result: L.CallResult, retry: bool)
      modifies this
      ensures Contents() == L.LoopAnswered(old(Contents()), id, result, retry)
    {
      if result == L.Succeeded && status == L.Connected {
        EndLoop(id);
        return;
      }
      if result == L.WasConnected {
        EndLoop(id);
        return;
      }
      if stopped || !retry {
        EndLoop(id);
        return;
      }
      loops := loops[id := L.Sleeping];
    }
  }
}
