/** What a publisher sends right behind its offer, before the view exists, reaches the view first
    and in order. */
module StreamsSignals {
  import opened Wrappers
  import opened Streams
  import opened StreamsLaws

  /** What the first `n` signals of a log say to watch `no`. */
  function SentTo(log: seq<Signal>, no: nat, n: nat): seq<string>
    requires n <= |log|
  {
    if n == 0 then []
    else if log[n - 1].no == no then SentTo(log, no, n - 1) + [log[n - 1].json]
    else SentTo(log, no, n - 1)
  }

  function AllTo(log: seq<Signal>, no: nat): seq<string> { SentTo(log, no, |log|) }

  function Least(a: nat, b: nat): nat { if a < b then a else b }

  ghost predicate IsTail(x: seq<string>, y: seq<string>) {
    |x| <= |y| && forall i {:trigger x[i]} | 0 <= i < |x| :: x[i] == y[|y| - |x| + i]
  }

  /** How many of the signals that came early are more than fit. */
  function Lost(early: nat): nat { if early > MAX_EARLY_SIGNALS then early - MAX_EARLY_SIGNALS else 0 }

  /** A watch that waits keeps the latest of its signals, as many as fit. A view was given all that
      came, in that order, but for the oldest of those that came before the answer and did not fit. */
  ghost predicate SignalsOk(w: Watches, no: nat) {
    var came, given := AllTo(w.arrived, no), AllTo(w.delivered, no);
    && (Waits(w, no) ==>
          var early := w.watching[w.ids[no]].early;
          IsTail(early, came) && |early| == Least(|came|, MAX_EARLY_SIGNALS) && Soon(w, no) == |came|)
    && Soon(w, no) <= |came|
    && given == (if Outcome(no, Joined) in w.outcomes then came[Lost(Soon(w, no))..] else [])
    && (no >= |w.ids| ==> came == [])
  }

  ghost predicate AllSignalsOk(w: Watches) {
    forall no: nat {:trigger SignalsOk(w, no)} :: SignalsOk(w, no)
  }

  lemma {:induction false} SentPrefix(log: seq<Signal>, s: Signal, no: nat, n: nat)
    requires n <= |log|
    ensures SentTo(log + [s], no, n) == SentTo(log, no, n)
  {
    if n > 0 {
      SentPrefix(log, s, no, n - 1);
    }
  }

  lemma {:induction false} SentAppend(log: seq<Signal>, s: Signal, no: nat)
    ensures AllTo(log + [s], no) == if s.no == no then AllTo(log, no) + [s.json] else AllTo(log, no)
  {
    SentPrefix(log, s, no, |log|);
  }

  lemma {:induction false} SentMany(log: seq<Signal>, of: nat, early: seq<string>, no: nat, n: nat)
    requires n <= |early|
    ensures AllTo(log + SignalsOf(of, early)[..n], no) == if of == no then AllTo(log, no) + early[..n] else AllTo(log, no)
  {
    var all := SignalsOf(of, early);
    if n == 0 {
      assert log + all[..0] == log;
    } else {
      SentMany(log, of, early, no, n - 1);
      assert log + all[..n] == (log + all[..n - 1]) + [Signal(of, early[n - 1])];
      SentAppend(log + all[..n - 1], Signal(of, early[n - 1]), no);
      assert early[..n] == early[..n - 1] + [early[n - 1]];
    }
  }

  lemma {:induction false} TailPushed(early: seq<string>, came: seq<string>, json: string)
    requires IsTail(early, came) && |early| == Least(|came|, MAX_EARLY_SIGNALS)
    ensures IsTail(Pushed(early, json), came + [json])
    ensures |Pushed(early, json)| == Least(|came + [json]|, MAX_EARLY_SIGNALS)
  {
  }

  /** Nothing came and nothing was given: at most a watch is over. */
  lemma {:induction false} QuietSignals(w: Watches, w': Watches)
    requires AllSignalsOk(w) && w'.arrived == w.arrived && w'.delivered == w.delivered
    requires w'.soon == w.soon && |w.ids| <= |w'.ids|
    requires forall no: nat | Waits(w', no) && no < |w.ids| ::
               Waits(w, no) && w'.watching[w'.ids[no]] == w.watching[w.ids[no]]
    requires forall no: nat | Waits(w', no) && no >= |w.ids| :: w'.watching[w'.ids[no]].early == []
    requires forall no: nat :: Outcome(no, Joined) in w'.outcomes <==> Outcome(no, Joined) in w.outcomes
    ensures AllSignalsOk(w')
  {
    forall no: nat
      ensures SignalsOk(w', no)
    {
      assert SignalsOk(w, no);
    }
  }

  lemma {:induction false} SignalledSignals(w: Watches, id: string, json: string)
    requires WatchesOk(w) && AllSignalsOk(w)
    ensures AllSignalsOk(Signalled(w, id, json))
  {
    if id in w.watching {
      var watch := w.watching[id];
      var w' := Signalled(w, id, json);
      assert WatchAt(w.watching, w.ids, id) && WatchOk(w, watch.no);
      forall no: nat
        ensures SignalsOk(w', no)
      {
        assert SignalsOk(w, no);
        SentAppend(w.arrived, Signal(watch.no, json), no);
        SentAppend(w.delivered, Signal(watch.no, json), no);
        if no == watch.no {
          OneSignalled(w, id, json);
        } else if Waits(w', no) {
          assert w'.ids[no] != id;
        }
      }
    }
  }

  lemma {:induction false} RestMore(came: seq<string>, json: string, lost: nat)
    requires lost <= |came|
    ensures (came + [json])[lost..] == came[lost..] + [json]
  {
  }

  lemma {:induction false} ViewSignalled(w: Watches, id: string, json: string)
    requires WatchesOk(w) && AllSignalsOk(w) && id in w.watching && w.watching[id].joined
    ensures SignalsOk(Signalled(w, id, json), w.watching[id].no)
  {
    var no := w.watching[id].no;
    assert WatchAt(w.watching, w.ids, id) && WatchOk(w, no) && SignalsOk(w, no) && Views(w, no);
    SentAppend(w.arrived, Signal(no, json), no);
    SentAppend(w.delivered, Signal(no, json), no);
    RestMore(AllTo(w.arrived, no), json, Lost(Soon(w, no)));
  }

  lemma {:induction false} WaitSignalled(w: Watches, id: string, json: string)
    requires WatchesOk(w) && AllSignalsOk(w) && id in w.watching && !w.watching[id].joined
    ensures SignalsOk(Signalled(w, id, json), w.watching[id].no)
  {
    var no, early := w.watching[id].no, w.watching[id].early;
    var w' := Signalled(w, id, json);
    var came := AllTo(w.arrived, no);
    assert WatchAt(w.watching, w.ids, id) && WatchOk(w, no) && SignalsOk(w, no);
    NotJoinedYet(w, no);
    SentAppend(w.arrived, Signal(no, json), no);
    TailPushed(early, came, json);
    assert AllTo(w'.arrived, no) == came + [json];
    assert w'.watching[w'.ids[no]].early == Pushed(early, json);
    assert Soon(w', no) == |came| + 1;
    assert w'.delivered == w.delivered && w'.outcomes == w.outcomes;
  }

  lemma {:induction false} OneSignalled(w: Watches, id: string, json: string)
    requires WatchesOk(w) && AllSignalsOk(w) && id in w.watching
    ensures SignalsOk(Signalled(w, id, json), w.watching[id].no)
  {
    if w.watching[id].joined {
      ViewSignalled(w, id, json);
    } else {
      WaitSignalled(w, id, json);
    }
  }

  lemma {:induction false} OpenedSignals(w: Watches, id: string)
    requires WatchesOk(w) && AllSignalsOk(w) && id in w.watching && !w.watching[id].joined
    ensures AllSignalsOk(ViewOpened(w, id))
  {
    var watch := w.watching[id];
    var w' := ViewOpened(w, id);
    assert WatchAt(w.watching, w.ids, id) && WatchOk(w, watch.no);
    assert SignalsOf(watch.no, watch.early)[..|watch.early|] == SignalsOf(watch.no, watch.early);
    assert watch.early[..|watch.early|] == watch.early;
    forall no: nat
      ensures SignalsOk(w', no)
    {
      assert SignalsOk(w, no);
      SentMany(w.delivered, watch.no, watch.early, no, |watch.early|);
      if no == watch.no {
        NotJoinedYet(w, no);
        assert w'.outcomes[|w.outcomes|] == Outcome(no, Joined);
      } else if Outcome(no, Joined) in w'.outcomes {
        assert Outcome(no, Joined) in w.outcomes;
      }
    }
  }

  lemma {:induction false} JoinedIsOutcome(outcomes: seq<Outcome>, no: nat)
    ensures Outcome(no, Joined) in outcomes ==> HasOutcome(outcomes, no)
  {
    if Outcome(no, Joined) in outcomes {
      var i :| 0 <= i < |outcomes| && outcomes[i] == Outcome(no, Joined);
      assert HasOutcome(outcomes, no);
    }
  }

  lemma {:induction false} NotJoinedYet(w: Watches, no: nat)
    requires WatchesOk(w) && Waits(w, no)
    ensures Outcome(no, Joined) !in w.outcomes
  {
    JoinedIsOutcome(w.outcomes, no);
    assert WatchOk(w, no);
  }

  lemma {:induction false} OverSignals(w: Watches, id: string, result: Result)
    requires WatchesOk(w) && AllSignalsOk(w) && id in w.watching && !result.Joined?
    ensures AllSignalsOk(WatchOver(w, id, result))
  {
    QuietSignals(w, WatchOver(w, id, result));
  }

  lemma {:induction false} ViewEndedSignals(w: Watches, no: nat)
    requires AllSignalsOk(w)
    ensures AllSignalsOk(ViewEnded(w, no))
  {
    QuietSignals(w, ViewEnded(w, no));
  }

  lemma {:induction false} AnsweredSignals(w: Watches, id: string, accepted: bool, offer: string)
    requires WatchesOk(w) && AllSignalsOk(w)
    ensures AllSignalsOk(Answered(w, id, accepted, offer))
  {
    if id in w.watching && !w.watching[id].joined {
      if !accepted {
        OverSignals(w, id, Denied);
      } else if offer == "" {
        OverSignals(w, id, NoOffer);
      } else {
        OpenedSignals(w, id);
      }
    }
  }

  lemma {:induction false} AskedSignals(w: Watches, id: string)
    requires WatchesOk(w) && AllSignalsOk(w)
    ensures AllSignalsOk(Asked(w, id))
  {
    if id !in w.watching {
      var w' := Asked(w, id);
      forall no: nat
        ensures SignalsOk(w', no)
      {
        assert SignalsOk(w, no);
        assert no < |w.ids| ==> w'.ids[no] == w.ids[no];
      }
    }
  }

  lemma {:induction false} WatchedOverSignals(w: Watches, id: string)
    requires WatchesOk(w) && AllSignalsOk(w)
    ensures AllSignalsOk(WatchedOver(w, id))
  {
    if id in w.watching {
      var dropped := w.(watching := w.watching - {id});
      if w.watching[id].joined {
        QuietSignals(w, dropped);
        ViewEndedSignals(dropped, w.watching[id].no);
      } else {
        OverSignals(w, id, StreamOver);
      }
    }
  }

  lemma {:induction false} WatchesOverSignals(w: Watches, n: nat)
    requires WatchesOk(w) && AllSignalsOk(w)
    ensures AllSignalsOk(WatchesOver(w, n))
  {
    if n > 0 {
      WatchesOverSignals(w, n - 1);
      WatchesOverOk(w, n - 1);
      var before := WatchesOver(w, n - 1);
      if IsCurrent(before, n - 1) {
        var id := before.ids[n - 1];
        var dropped := before.(watching := before.watching - {id});
        if before.watching[id].joined {
          QuietSignals(before, dropped);
          ViewEndedSignals(dropped, n - 1);
        } else {
          OverSignals(before, id, GaveUp);
        }
      }
    }
  }

  lemma {:induction false} NextSignals(r: Registry, step: Step)
    requires Good(r) && AllSignalsOk(r.watches)
    ensures AllSignalsOk(Next(r, step).watches)
  {
    var w := r.watches;
    match step
    case Learn(_) =>
    case SetupAnswered(info, _) => WatchedOverSignals(w, info.id);
    case Ended(id, _, _) => WatchedOverSignals(w, id);
    case ServerStopped(id, _) => WatchedOverSignals(w, id);
    case WatchAsked(id) => AskedSignals(w, id);
    case WatchAnswered(id, accepted, offer) => AnsweredSignals(w, id, accepted, offer);
    case WatchGivenUp(no, gone) =>
      if Waits(w, no) {
        OverSignals(w, w.ids[no], GaveUp);
        WatchLeftOk(w, no);
        WatchedOverSignals(WatchLeft(w, no), w.ids[no]);
      }
    case SignalCame(id, json) => SignalledSignals(w, id, json);
    case ViewClosed(no) => ViewEndedSignals(w, no);
    case Reset =>
      WatchesOverSignals(w, |w.ids|);
      QuietSignals(WatchesOver(w, |w.ids|), WatchesOver(w, |w.ids|).(closedViews := []));
  }

  /** A view is given every signal that came for its watch, in that order, without the oldest when
      more than 256 came before the answer, and no other; nobody else is given any. */
  lemma {:induction false} SignalsInOrder(steps: seq<Step>, n: nat, no: nat)
    requires n <= |steps|
    ensures var w := Run(steps, n).watches;
            var came, given := AllTo(w.arrived, no), AllTo(w.delivered, no);
            var early := Soon(w, no);
            if Outcome(no, Joined) in w.outcomes then
              && early <= |came| && |given| == |came| - Lost(early)
              && forall i | 0 <= i < |given| :: given[i] == came[i + Lost(early)]
            else given == []
  {
    RunSignals(steps, n);
    assert SignalsOk(Run(steps, n).watches, no);
  }

  lemma {:induction false} RunSignals(steps: seq<Step>, n: nat)
    requires n <= |steps|
    ensures AllSignalsOk(Run(steps, n).watches)
  {
    if n == 0 {
      forall no: nat
        ensures SignalsOk(NEW.watches, no)
      {
      }
    } else {
      RunSignals(steps, n - 1);
      RunGood(steps, n - 1);
      NextSignals(Run(steps, n - 1), steps[n - 1]);
    }
  }
}
