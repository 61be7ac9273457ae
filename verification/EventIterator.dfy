/** Asking for events one at a time: those that come too early are buffered, and calls that come too
    early wait. Events are numbered as they arrive. */
module EventIteration {

  const MAX_VOICE := 256

  datatype Answer = Value(call: nat, event: nat) | Done(call: nat) | Rejected(call: nat)

  /** `came` events and `calls` calls so far. `answers` are the calls settled, in that order, and
      `discarded` the events thrown away by `return` or an abort. */
  datatype State = State(
    voice: bool, buffered: seq<nat>, waiting: seq<nat>, ended: bool, aborted: bool, dropped: nat,
    came: nat, calls: nat, answers: seq<Answer>, discarded: nat)

  function Fresh(voice: bool): State { State(voice, [], [], false, false, 0, 0, 0, [], 0) }

  function AllAnswered(waiting: seq<nat>, rejected: bool, n: nat): seq<Answer>
    requires n <= |waiting|
  {
    if n == 0 then []
    else AllAnswered(waiting, rejected, n - 1) + [if rejected then Rejected(waiting[n - 1]) else Done(waiting[n - 1])]
  }

  function Heard(s: State): State {
    if s.ended then s
    else if |s.waiting| > 0 then
      s.(waiting := s.waiting[1..], came := s.came + 1, answers := s.answers + [Value(s.waiting[0], s.came)])
    else if s.voice && |s.buffered| >= MAX_VOICE then
      s.(buffered := s.buffered[1..] + [s.came], came := s.came + 1, dropped := s.dropped + 1)
    else s.(buffered := s.buffered + [s.came], came := s.came + 1)
  }

  function Asked(s: State): State {
    var next := s.(calls := s.calls + 1);
    if s.aborted then next.(answers := s.answers + [Rejected(s.calls)])
    else if |s.buffered| > 0 then next.(buffered := s.buffered[1..], answers := s.answers + [Value(s.calls, s.buffered[0])])
    else if s.ended then next.(answers := s.answers + [Done(s.calls)])
    else next.(waiting := s.waiting + [s.calls])
  }

  function Over(s: State, rejected: bool): State {
    s.(ended := true, waiting := [], answers := s.answers + AllAnswered(s.waiting, rejected, |s.waiting|))
  }

  function Discarded(s: State): State { s.(buffered := [], discarded := s.discarded + |s.buffered|) }

  /** The client disconnected: what is buffered can still be read. */
  function Disconnected(s: State): State { if s.ended then s else Over(s, false) }

  function Aborted(s: State): State { if s.ended then s else Over(Discarded(s), true).(aborted := true) }

  /** `return()` ends the iteration; its own result is apart from the answers. */
  function Returned(s: State): State { Over(Discarded(s), false) }

  datatype Step = Hear | Ask | Disconnect | Abort | Return

  function Next(s: State, step: Step): State {
    match step
    case Hear => Heard(s)
    case Ask => Asked(s)
    case Disconnect => Disconnected(s)
    case Abort => Aborted(s)
    case Return => Returned(s)
  }

  class EventIterator {
    const voice: bool
    var buffered: seq<nat>
    var waiting: seq<nat>
    var ended: bool
    var aborted: bool
    var dropped: nat
    var came: nat
    var calls: nat
    var answers: seq<Answer>
    var discarded: nat

    ghost function Contents(): State
      reads this
    {
      State(voice, buffered, waiting, ended, aborted, dropped, came, calls, answers, discarded)
    }

    constructor (voice: bool)
      ensures Contents() == Fresh(voice)
    {
      this.voice := voice;
      buffered, waiting, ended, aborted, dropped, came, calls, answers, discarded := [], [], false, false, 0, 0, 0, [], 0;
    }

    method OnEvent()
      modifies this
      ensures Contents() == Heard(old(Contents()))
    {
      if ended {
        return;
      }
      var event := came;
      came := came + 1;
      if |waiting| > 0 {
        answers := answers + [Value(waiting[0], event)];
        waiting := waiting[1..];
        return;
      }
      if voice && |buffered| >= MAX_VOICE {
        buffered := buffered[1..];
        dropped := dropped + 1;
      }
      buffered := buffered + [event];
    }

    method AskNext()
      modifies this
      ensures Contents() == Asked(old(Contents()))
    {
      var call := calls;
      calls := calls + 1;
      if aborted {
        answers := answers + [Rejected(call)];
      } else if |buffered| > 0 {
        answers := answers + [Value(call, buffered[0])];
        buffered := buffered[1..];
      } else if ended {
        answers := answers + [Done(call)];
      } else {
        waiting := waiting + [call];
      }
    }

    method AnswerWaiting(rejected: bool)
      modifies this
      ensures Contents() == Over(old(Contents()), rejected)
    {
      ended := true;
      var calling := waiting;
      waiting := [];
      for i := 0 to |calling|
        invariant Contents() == old(Contents()).(
                    ended := true, waiting := [], answers := old(answers) + AllAnswered(calling, rejected, i))
      {
        answers := answers + [if rejected then Rejected(calling[i]) else Done(calling[i])];
      }
    }

    method OnDisconnected()
      modifies this
      ensures Contents() == Disconnected(old(Contents()))
    {
      if !ended {
        AnswerWaiting(false);
      }
    }

    method OnAbort()
      modifies this
      ensures Contents() == Aborted(old(Contents()))
    {
      if !ended {
        aborted := true;
        discarded := discarded + |buffered|;
        buffered := [];
        AnswerWaiting(true);
      }
    }

    method Return()
      modifies this
      ensures Contents() == Returned(old(Contents()))
    {
      discarded := discarded + |buffered|;
      buffered := [];
      AnswerWaiting(false);
    }
  }

  // ---- Every run -------------------------------------------------------------------------------

  /** The events given in the first `n` answers, in the order they were given. */
  function Given(answers: seq<Answer>, n: nat): seq<nat>
    requires n <= |answers|
  {
    if n == 0 then []
    else if answers[n - 1].Value? then Given(answers, n - 1) + [answers[n - 1].event]
    else Given(answers, n - 1)
  }

  ghost predicate Rising(events: seq<nat>, below: nat) {
    && (forall i, j | 0 <= i < j < |events| :: events[i] < events[j])
    && (forall i | 0 <= i < |events| :: events[i] < below)
  }

  /** Calls are answered in the order they were made: the first ones, and the rest wait. */
  ghost predicate CallsInOrder(answers: seq<Answer>, waiting: seq<nat>, calls: nat) {
    && |answers| + |waiting| == calls
    && (forall i | 0 <= i < |answers| :: answers[i].call == i)
    && (forall i | 0 <= i < |waiting| :: waiting[i] == |answers| + i)
  }

  /** What is buffered is the latest events. */
  ghost predicate Latest(buffered: seq<nat>, came: nat) {
    |buffered| <= came && forall i | 0 <= i < |buffered| :: buffered[i] == came - |buffered| + i
  }

  ghost predicate Good(s: State) {
    var given := Given(s.answers, |s.answers|);
    && (s.buffered == [] || s.waiting == [])
    && (s.ended ==> s.waiting == []) && (s.aborted ==> s.ended && s.buffered == [])
    && CallsInOrder(s.answers, s.waiting, s.calls)
    && Latest(s.buffered, s.came)
    && Rising(given, s.came - |s.buffered|)
    && s.came == |given| + |s.buffered| + s.dropped + s.discarded
    && (if s.voice then |s.buffered| <= MAX_VOICE else s.dropped == 0)
    && (!s.ended ==> s.discarded == 0)
  }

  lemma {:induction false} GivenPrefix(answers: seq<Answer>, more: seq<Answer>, n: nat)
    requires n <= |answers|
    ensures Given(answers + more, n) == Given(answers, n)
  {
    if n > 0 {
      GivenPrefix(answers, more, n - 1);
    }
  }

  lemma {:induction false} GivenOne(answers: seq<Answer>, a: Answer)
    ensures Given(answers + [a], |answers| + 1)
      == if a.Value? then Given(answers, |answers|) + [a.event] else Given(answers, |answers|)
  {
    GivenPrefix(answers, [a], |answers|);
  }

  lemma {:induction false} AllAnsweredCalls(waiting: seq<nat>, rejected: bool, n: nat)
    requires n <= |waiting|
    ensures var all := AllAnswered(waiting, rejected, n);
      |all| == n && forall i | 0 <= i < n :: !all[i].Value? && all[i].call == waiting[i]
  {
    if n > 0 {
      AllAnsweredCalls(waiting, rejected, n - 1);
    }
  }

  lemma {:induction false} GivenNone(answers: seq<Answer>, more: seq<Answer>, n: nat)
    requires n <= |more| && forall i | 0 <= i < |more| :: !more[i].Value?
    ensures Given(answers + more, |answers| + n) == Given(answers, |answers|)
  {
    if n == 0 {
      GivenPrefix(answers, more, |answers|);
    } else {
      GivenNone(answers, more, n - 1);
    }
  }

  lemma {:induction false} OverGood(s: State, rejected: bool)
    requires Good(s)
    ensures Good(Over(s, rejected))
  {
    var all := AllAnswered(s.waiting, rejected, |s.waiting|);
    AllAnsweredCalls(s.waiting, rejected, |s.waiting|);
    GivenNone(s.answers, all, |all|);
  }

  lemma {:induction false} HeardGood(s: State)
    requires Good(s)
    ensures Good(Heard(s))
  {
    if !s.ended && |s.waiting| > 0 {
      GivenOne(s.answers, Value(s.waiting[0], s.came));
    }
  }

  lemma {:induction false} AskedGood(s: State)
    requires Good(s)
    ensures Good(Asked(s))
  {
    var s' := Asked(s);
    if s'.answers != s.answers {
      GivenOne(s.answers, s'.answers[|s.answers|]);
    }
  }

  lemma {:induction false} DiscardedOver(s: State, rejected: bool)
    requires Good(s)
    ensures Good(Over(Discarded(s), rejected))
    ensures rejected ==> Good(Over(Discarded(s), rejected).(aborted := true))
  {
    OverGood(s, rejected);
    var all := AllAnswered(s.waiting, rejected, |s.waiting|);
    assert Over(Discarded(s), rejected).answers == Over(s, rejected).answers;
  }

  lemma {:induction false} NextGood(s: State, step: Step)
    requires Good(s)
    ensures Good(Next(s, step))
  {
    match step
    case Hear => HeardGood(s);
    case Ask => AskedGood(s);
    case Disconnect => OverGood(s, false);
    case Abort => DiscardedOver(s, true);
    case Return => DiscardedOver(s, false);
  }

  function Run(voice: bool, steps: seq<Step>, n: nat): State
    requires n <= |steps|
  {
    if n == 0 then Fresh(voice) else Next(Run(voice, steps, n - 1), steps[n - 1])
  }

  lemma {:induction false} FreshGood(voice: bool)
    ensures Good(Fresh(voice))
  {
    assert Given([], 0) == [];
  }

  lemma {:induction false} SameKind(voice: bool, steps: seq<Step>, n: nat)
    requires n <= |steps|
    ensures Run(voice, steps, n).voice == voice
  {
    if n > 0 {
      SameKind(voice, steps, n - 1);
    }
  }

  /** Whatever comes: events and calls never both wait; calls are answered in order, each once, with
      events in order; and until the iteration is given up every event was given, is buffered, or was
      dropped, which only voice is, the oldest first and only past 256. */
  lemma {:induction false} RunGood(voice: bool, steps: seq<Step>, n: nat)
    requires n <= |steps|
    ensures Good(Run(voice, steps, n))
  {
    if n == 0 {
      FreshGood(voice);
    } else {
      RunGood(voice, steps, n - 1);
      NextGood(Run(voice, steps, n - 1), steps[n - 1]);
    }
  }

  /** An event that is not voice is never lost: the events given are the first ones, every one. */
  lemma {:induction false} NothingLost(steps: seq<Step>, n: nat)
    requires n <= |steps| && forall i | 0 <= i < n :: !steps[i].Abort? && !steps[i].Return?
    ensures var s := Run(false, steps, n);
      var given := Given(s.answers, |s.answers|);
      s.came == |given| + |s.buffered| && forall i | 0 <= i < |given| :: given[i] == i
  {
    RunGood(false, steps, n);
    SameKind(false, steps, n);
    KeptAll(false, steps, n);
    var s := Run(false, steps, n);
    RisingDense(Given(s.answers, |s.answers|), |Given(s.answers, |s.answers|)|);
  }

  lemma {:induction false} KeptAll(voice: bool, steps: seq<Step>, n: nat)
    requires n <= |steps| && forall i | 0 <= i < n :: !steps[i].Abort? && !steps[i].Return?
    ensures Run(voice, steps, n).discarded == 0
  {
    if n > 0 {
      KeptAll(voice, steps, n - 1);
    }
  }

  lemma {:induction false} RisingDense(events: seq<nat>, n: nat)
    requires Rising(events, |events|) && n <= |events|
    ensures forall i | |events| - n <= i < |events| :: events[i] == i
  {
    RisingAtLeast(events, |events|);
    if n > 0 {
      RisingDense(events, n - 1);
      var i := |events| - n;
      if n > 1 {
        assert events[i] < events[i + 1] == i + 1;
      }
      assert events[i] == i;
    }
  }

  lemma {:induction false} RisingAtLeast(events: seq<nat>, n: nat)
    requires Rising(events, |events|) && n <= |events|
    ensures forall i | 0 <= i < n :: events[i] >= i
  {
    if n > 1 {
      RisingAtLeast(events, n - 1);
      assert events[n - 2] < events[n - 1];
    }
  }
}
