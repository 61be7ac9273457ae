/** One event of an emitter that keeps what was emitted while nobody listened. Payloads are
    numbered as they are emitted. */
module Emitting {

  const MAX_KEPT := 256

  datatype Told = Told(listener: nat, payload: nat)

  /** `told` is what each listener was given, in order; `dropped` what was given up past the bound;
      `missed` what was emitted with nobody listening to an event that is not kept. */
  datatype State = State(
    keeps: bool, listeners: seq<nat>, kept: seq<nat>, emitted: nat, told: seq<Told>, dropped: seq<nat>, missed: seq<nat>)

  function Fresh(keeps: bool): State { State(keeps, [], [], 0, [], [], []) }

  /** The payload given to each of the first `n` listeners. */
  function ToAll(listeners: seq<nat>, payload: nat, n: nat): seq<Told>
    requires n <= |listeners|
  {
    if n == 0 then [] else ToAll(listeners, payload, n - 1) + [Told(listeners[n - 1], payload)]
  }

  /** The first `n` payloads kept, given to one listener. */
  function AllTo(listener: nat, kept: seq<nat>, n: nat): seq<Told>
    requires n <= |kept|
  {
    if n == 0 then [] else AllTo(listener, kept, n - 1) + [Told(listener, kept[n - 1])]
  }

  function Without(listeners: seq<nat>, listener: nat, n: nat): seq<nat>
    requires n <= |listeners|
  {
    if n == 0 then []
    else if listeners[n - 1] == listener then Without(listeners, listener, n - 1)
    else Without(listeners, listener, n - 1) + [listeners[n - 1]]
  }

  function Listened(s: State, listener: nat): State {
    var on := s.(listeners := s.listeners + [listener]);
    if |s.listeners| == 0 then on.(kept := [], told := s.told + AllTo(listener, s.kept, |s.kept|)) else on
  }

  function Unsubscribed(s: State, listener: nat): State {
    s.(listeners := Without(s.listeners, listener, |s.listeners|))
  }

  function Emitted(s: State): State {
    var payload := s.emitted;
    var next := s.(emitted := s.emitted + 1);
    if |s.listeners| > 0 then next.(told := s.told + ToAll(s.listeners, payload, |s.listeners|))
    else if !s.keeps then next.(missed := s.missed + [payload])
    else if |s.kept| + 1 > MAX_KEPT then next.(kept := s.kept[1..] + [payload], dropped := s.dropped + [s.kept[0]])
    else next.(kept := s.kept + [payload])
  }

  class Emitter {
    const keeps: bool
    var listeners: seq<nat>
    var kept: seq<nat>
    var emitted: nat
    var told: seq<Told>
    var dropped: seq<nat>
    var missed: seq<nat>

    ghost function Contents(): State
      reads this
    {
      State(keeps, listeners, kept, emitted, told, dropped, missed)
    }

    constructor (keeps: bool)
      ensures Contents() == Fresh(keeps)
    {
      this.keeps := keeps;
      listeners, kept, emitted, told, dropped, missed := [], [], 0, [], [], [];
    }

    method On(listener: nat)
      modifies this
      ensures Contents() == Listened(old(Contents()), listener)
    {
      var before := listeners;
      listeners := before + [listener];
      if |before| == 0 {
        var waiting := kept;
        kept := [];
        for i := 0 to |waiting|
          invariant Contents() == old(Contents()).(
                      listeners := [listener], kept := [], told := old(told) + AllTo(listener, waiting, i))
        {
          told := told + [Told(listener, waiting[i])];
        }
      }
    }

    method Unsubscribe(listener: nat)
      modifies this
      ensures Contents() == Unsubscribed(old(Contents()), listener)
    {
      listeners := Without(listeners, listener, |listeners|);
    }

    method Emit()
      modifies this
      ensures Contents() == Emitted(old(Contents()))
    {
      var payload := emitted;
      emitted := emitted + 1;
      if |listeners| == 0 {
        if keeps {
          kept := kept + [payload];
          if |kept| > MAX_KEPT {
            dropped := dropped + [kept[0]];
            kept := kept[1..];
          }
        } else {
          missed := missed + [payload];
        }
        return;
      }
      var list := listeners;
      for i := 0 to |list|
        invariant Contents() == old(Contents()).(emitted := payload + 1, told := old(told) + ToAll(list, payload, i))
      {
        told := told + [Told(list[i], payload)];
      }
    }
  }

  // ---- Every run ------------------------------------------------------------------------------

  datatype Step = On(listener: nat) | Off(listener: nat) | Emit

  function Next(s: State, step: Step): State {
    match step
    case On(listener) => Listened(s, listener)
    case Off(listener) => Unsubscribed(s, listener)
    case Emit => Emitted(s)
  }

  function Run(keeps: bool, steps: seq<Step>, n: nat): State
    requires n <= |steps|
  {
    if n == 0 then Fresh(keeps) else Next(Run(keeps, steps, n - 1), steps[n - 1])
  }

  ghost predicate InOrder(told: seq<Told>, below: nat) {
    && (forall i, j | 0 <= i < j < |told| :: told[i].payload <= told[j].payload)
    && (forall i | 0 <= i < |told| :: told[i].payload < below)
  }

  ghost predicate WasTold(told: seq<Told>, payload: nat) {
    exists i | 0 <= i < |told| :: told[i].payload == payload
  }

  ghost predicate Accounted(s: State, payload: nat) {
    WasTold(s.told, payload) || payload in s.kept || payload in s.dropped || payload in s.missed
  }

  /** What is kept is the latest, and only while nobody listens; what was told came in order, all of
      it before what is kept; and everything emitted is told, kept, dropped or missed. */
  ghost predicate Good(s: State) {
    && |s.kept| <= MAX_KEPT && |s.kept| <= s.emitted
    && (forall i | 0 <= i < |s.kept| :: s.kept[i] == s.emitted - |s.kept| + i)
    && (s.kept != [] ==> s.keeps && s.listeners == [])
    && (s.keeps ==> s.missed == [])
    && (!s.keeps ==> s.dropped == [])
    && (forall i | 0 <= i < |s.dropped| :: s.dropped[i] + MAX_KEPT < s.emitted)
    && InOrder(s.told, s.emitted - |s.kept|)
    && (forall p: nat {:trigger Accounted(s, p)} | p < s.emitted :: Accounted(s, p))
  }

  lemma {:induction false} ToldMore(told: seq<Told>, more: seq<Told>, p: nat)
    ensures WasTold(told + more, p) <==> WasTold(told, p) || WasTold(more, p)
  {
    if WasTold(told, p) {
      var i :| 0 <= i < |told| && told[i].payload == p;
      assert (told + more)[i].payload == p;
    }
    if WasTold(more, p) {
      var i :| 0 <= i < |more| && more[i].payload == p;
      assert (told + more)[|told| + i].payload == p;
    }
  }

  lemma {:induction false} ToAllTold(listeners: seq<nat>, payload: nat, n: nat)
    requires n <= |listeners|
    ensures var all := ToAll(listeners, payload, n);
      |all| == n && forall i | 0 <= i < n :: all[i] == Told(listeners[i], payload)
  {
    if n > 0 {
      ToAllTold(listeners, payload, n - 1);
    }
  }

  lemma {:induction false} AllToTold(listener: nat, kept: seq<nat>, n: nat)
    requires n <= |kept|
    ensures var all := AllTo(listener, kept, n);
      |all| == n && forall i | 0 <= i < n :: all[i] == Told(listener, kept[i])
  {
    if n > 0 {
      AllToTold(listener, kept, n - 1);
    }
  }

  lemma {:induction false} ListenedGood(s: State, listener: nat)
    requires Good(s)
    ensures Good(Listened(s, listener))
  {
    var s' := Listened(s, listener);
    var more := AllTo(listener, s.kept, |s.kept|);
    AllToTold(listener, s.kept, |s.kept|);
    forall p: nat | p < s.emitted
      ensures Accounted(s', p)
    {
      assert Accounted(s, p);
      ToldMore(s.told, more, p);
      if p in s.kept {
        var i :| 0 <= i < |s.kept| && s.kept[i] == p;
        assert more[i].payload == p;
      }
    }
  }

  lemma {:induction false} WithoutNone(listeners: seq<nat>, listener: nat, n: nat)
    requires n <= |listeners| && listeners == []
    ensures Without(listeners, listener, n) == []
  {
  }

  lemma {:induction false} UnsubscribedGood(s: State, listener: nat)
    requires Good(s)
    ensures Good(Unsubscribed(s, listener))
  {
    var s' := Unsubscribed(s, listener);
    if s.listeners == [] {
      WithoutNone(s.listeners, listener, |s.listeners|);
    }
    forall p: nat | p < s.emitted
      ensures Accounted(s', p)
    {
      assert Accounted(s, p);
    }
  }

  lemma {:induction false} ToldToAll(s: State)
    requires Good(s) && |s.listeners| > 0
    ensures Good(Emitted(s))
  {
    var s' := Emitted(s);
    var more := ToAll(s.listeners, s.emitted, |s.listeners|);
    ToAllTold(s.listeners, s.emitted, |s.listeners|);
    forall p: nat | p < s'.emitted
      ensures Accounted(s', p)
    {
      ToldMore(s.told, more, p);
      if p < s.emitted {
        assert Accounted(s, p);
      } else {
        assert more[0].payload == p;
      }
    }
  }

  lemma {:induction false} KeptGood(s: State)
    requires Good(s) && |s.listeners| == 0
    ensures Good(Emitted(s))
  {
    var s' := Emitted(s);
    assert |s.kept| > 0 ==> s.kept == [s.kept[0]] + s.kept[1..];
    forall p: nat | p < s'.emitted
      ensures Accounted(s', p)
    {
      if p < s.emitted {
        assert Accounted(s, p);
      } else if s.keeps {
        assert s'.kept[|s'.kept| - 1] == p;
      } else {
        assert s'.missed[|s.missed|] == p;
      }
    }
  }

  /** However listeners come and go: nothing that waits passes 256 or is given out of order, and what
      is lost was dropped past the bound, or is of an event that nobody asked to keep. */
  lemma {:induction false} RunGood(keeps: bool, steps: seq<Step>, n: nat)
    requires n <= |steps|
    ensures Good(Run(keeps, steps, n))
  {
    if n > 0 {
      RunGood(keeps, steps, n - 1);
      var s := Run(keeps, steps, n - 1);
      match steps[n - 1]
      case On(listener) => ListenedGood(s, listener);
      case Off(listener) => UnsubscribedGood(s, listener);
      case Emit => if |s.listeners| > 0 { ToldToAll(s); } else { KeptGood(s); }
    }
  }
}
