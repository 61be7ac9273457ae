/** What holds of the stream registry after any steps in any order. */
module StreamsLaws {
  import opened Wrappers
  import opened Streams

  // ---- Streams are started, updated and stopped in turn ----------------------------------

  /** Whether the first `n` events leave stream `id` started and not stopped. */
  function IsOpen(events: seq<Event>, id: string, n: nat): bool
    requires n <= |events|
  {
    if n == 0 then false
    else match events[n - 1]
      case StreamStarted(info) => info.id == id || IsOpen(events, id, n - 1)
      case StreamUpdated(_) => IsOpen(events, id, n - 1)
      case StreamStopped(info, _, _) => info.id != id && IsOpen(events, id, n - 1)
      case AllForgotten => false
  }

  /** Of stream `id`: started only when it is not, updated and stopped only when it is. */
  ghost predicate InTurn(events: seq<Event>, id: string, n: nat)
    requires n <= |events|
  {
    n == 0
    || (&& InTurn(events, id, n - 1)
        && match events[n - 1]
           case StreamStarted(info) => info.id == id ==> !IsOpen(events, id, n - 1)
           case StreamUpdated(info) => info.id == id ==> IsOpen(events, id, n - 1)
           case StreamStopped(info, _, _) => info.id == id ==> IsOpen(events, id, n - 1)
           case AllForgotten => true)
  }

  lemma {:induction false} EventsPrefix(events: seq<Event>, e: Event, id: string, n: nat)
    requires n <= |events|
    ensures IsOpen(events + [e], id, n) == IsOpen(events, id, n)
    ensures InTurn(events + [e], id, n) == InTurn(events, id, n)
  {
    if n > 0 {
      EventsPrefix(events, e, id, n - 1);
    }
  }

  /** The stream is known exactly while it is started and not stopped, and then is no orphan. */
  ghost predicate StreamOk(k: Known, id: string) {
    && (id in k.infos <==> IsOpen(k.events, id, |k.events|))
    && InTurn(k.events, id, |k.events|)
    && (id in k.infos ==> k.infos[id].id == id && id !in k.orphans)
  }

  ghost predicate KnownOk(k: Known) {
    forall id: string {:trigger StreamOk(k, id)} :: StreamOk(k, id)
  }

  lemma {:induction false} EventKept(k: Known, k': Known, e: Event, id: string)
    requires StreamOk(k, id) && k'.events == k.events + [e]
    requires match e
      case StreamStarted(info) => info.id == id ==> id !in k.infos
      case StreamUpdated(info) => info.id == id ==> id in k.infos
      case StreamStopped(info, _, _) => info.id == id ==> id in k.infos
      case AllForgotten => true
    ensures InTurn(k'.events, id, |k'.events|)
    ensures IsOpen(k'.events, id, |k'.events|) == match e
      case StreamStarted(info) => info.id == id || id in k.infos
      case StreamUpdated(info) => id in k.infos
      case StreamStopped(info, _, _) => info.id != id && id in k.infos
      case AllForgotten => false
  {
    EventsPrefix(k.events, e, id, |k.events|);
  }

  lemma {:induction false} LearnedOk(k: Known, info: Info)
    requires KnownOk(k)
    ensures KnownOk(Learned(k, info))
  {
    var k' := Learned(k, info);
    assert StreamOk(k, info.id);
    forall id: string
      ensures StreamOk(k', id)
    {
      assert StreamOk(k, id);
      if k'.events != k.events {
        EventKept(k, k', k'.events[|k.events|], id);
      }
    }
  }

  lemma {:induction false} OverOk(k: Known, id: string, cause: Cause, reason: nat)
    requires KnownOk(k)
    ensures KnownOk(Over(k, id, cause, reason))
    ensures id !in Over(k, id, cause, reason).infos && Over(k, id, cause, reason).orphans == k.orphans
  {
    var k' := Over(k, id, cause, reason);
    assert StreamOk(k, id);
    forall x: string
      ensures StreamOk(k', x)
    {
      assert StreamOk(k, x);
      if id in k.infos {
        EventKept(k, k', StreamStopped(k.infos[id], cause, reason), x);
      }
    }
  }

  lemma {:induction false} WithoutIn(list: seq<string>, x: string, n: nat, y: string)
    requires n <= |list| && y in Without(list, x, n)
    ensures y in list && y != x
  {
    if n > 0 && y in Without(list, x, n - 1) {
      WithoutIn(list, x, n - 1, y);
    }
  }

  /** A stream is noted as an orphan and then over: it is never both known and an orphan. */
  lemma {:induction false} OrphanedOk(k: Known, id: string)
    requires KnownOk(k)
    ensures KnownOk(Over(OrphanNoted(k, id), id, Stopped, 0))
  {
    OverOk(k, id, Stopped, 0);
    var over := Over(k, id, Stopped, 0);
    var k' := Over(OrphanNoted(k, id), id, Stopped, 0);
    assert k' == over.(orphans := Added(k.orphans, id, MAX_ORPHANS));
    forall x: string
      ensures StreamOk(k', x)
    {
      assert StreamOk(over, x) && StreamOk(k, x);
    }
  }

  lemma {:induction false} OrphanForgottenOk(k: Known, id: string)
    requires KnownOk(k)
    ensures KnownOk(OrphanForgotten(k, id))
  {
    forall x: string
      ensures StreamOk(OrphanForgotten(k, id), x)
    {
      assert StreamOk(k, x);
      if x in Without(k.orphans, id, |k.orphans|) {
        WithoutIn(k.orphans, id, |k.orphans|, x);
      }
    }
  }

  lemma {:induction false} ForgottenOk(k: Known)
    requires KnownOk(k)
    ensures KnownOk(Forgotten(k))
  {
    forall id: string
      ensures StreamOk(Forgotten(k), id)
    {
      assert StreamOk(k, id);
      EventKept(k, Forgotten(k), AllForgotten, id);
    }
  }

  // ---- Published streams end once ------------------------------------------------------------

  ghost predicate PublishedAt(published: map<string, nat>, ids: seq<string>, id: string)
    requires id in published
  {
    published[id] < |ids| && ids[published[id]] == id
  }

  ghost predicate PublishedOk(p: Published) {
    && (forall id {:trigger PublishedAt(p.published, p.ids, id)} | id in p.published :: PublishedAt(p.published, p.ids, id))
    && (forall i, j | 0 <= i < j < |p.ends| :: p.ends[i] != p.ends[j])
    && (forall i | 0 <= i < |p.ends| :: p.ends[i] < |p.ids| && !IsPublished(p, p.ends[i]))
  }

  predicate IsPublished(p: Published, no: nat)
    requires no < |p.ids|
  {
    p.ids[no] in p.published && p.published[p.ids[no]] == no
  }

  lemma {:induction false} AdoptedOk(p: Published, id: string)
    requires PublishedOk(p)
    ensures PublishedOk(Adopted(p, id))
  {
    if id !in p.published {
      var p' := Adopted(p, id);
      forall x | x in p'.published
        ensures PublishedAt(p'.published, p'.ids, x)
      {
        if x != id {
          assert PublishedAt(p.published, p.ids, x);
        }
      }
      forall i | 0 <= i < |p.ends|
        ensures p.ends[i] < |p'.ids| && !IsPublished(p', p.ends[i])
      {
        assert p'.ids[p.ends[i]] == p.ids[p.ends[i]];
        assert !IsPublished(p, p.ends[i]);
      }
    }
  }

  lemma {:induction false} PublishedOverOk(p: Published, id: string)
    requires PublishedOk(p)
    ensures PublishedOk(PublishedOver(p, id))
  {
    if id in p.published {
      var p' := PublishedOver(p, id);
      assert PublishedAt(p.published, p.ids, id);
      forall x | x in p'.published
        ensures PublishedAt(p'.published, p'.ids, x)
      {
        assert PublishedAt(p.published, p.ids, x);
      }
      assert IsPublished(p, p.published[id]);
    }
  }

  lemma {:induction false} PublishedAllOverOk(p: Published, n: nat)
    requires PublishedOk(p)
    ensures PublishedOk(PublishedAllOver(p, n))
  {
    if n > 0 {
      PublishedAllOverOk(p, n - 1);
      var before := PublishedAllOver(p, n - 1);
      if n - 1 < |before.ids| {
        PublishedOverOk(before, before.ids[n - 1]);
      }
    }
  }

  // ---- Watches ----------------------------------------------------------------------------------

  ghost predicate WatchAt(watching: map<string, Watch>, ids: seq<string>, id: string)
    requires id in watching
  {
    watching[id].no < |ids| && ids[watching[id].no] == id
  }

  ghost predicate HasOutcome(outcomes: seq<Outcome>, no: nat) {
    exists i | 0 <= i < |outcomes| :: outcomes[i].no == no
  }

  predicate Waits(w: Watches, no: nat) { IsCurrent(w, no) && !w.watching[w.ids[no]].joined }
  predicate Views(w: Watches, no: nat) { IsCurrent(w, no) && w.watching[w.ids[no]].joined }

  /** A watch waits, or has its outcome; it has an open view exactly while it is kept as one. */
  ghost predicate WatchOk(w: Watches, no: nat) {
    && (HasOutcome(w.outcomes, no) <==> no < |w.ids| && !Waits(w, no))
    && (no in w.open <==> Views(w, no))
    && (Views(w, no) ==> Outcome(no, Joined) in w.outcomes)
    && (no in w.viewEnds ==> no < |w.ids| && no !in w.open && !Waits(w, no))
  }

  ghost predicate WatchesOk(w: Watches) {
    && (forall id {:trigger WatchAt(w.watching, w.ids, id)} | id in w.watching :: WatchAt(w.watching, w.ids, id))
    && (forall no: nat {:trigger WatchOk(w, no)} :: WatchOk(w, no))
    && (forall i, j | 0 <= i < j < |w.outcomes| :: w.outcomes[i].no != w.outcomes[j].no)
    && (forall i, j | 0 <= i < j < |w.viewEnds| :: w.viewEnds[i] != w.viewEnds[j])
  }

  lemma {:induction false} OutcomeAdded(outcomes: seq<Outcome>, o: Outcome, no: nat)
    ensures HasOutcome(outcomes + [o], no) <==> HasOutcome(outcomes, no) || o.no == no
  {
    if HasOutcome(outcomes, no) {
      var i :| 0 <= i < |outcomes| && outcomes[i].no == no;
      assert (outcomes + [o])[i].no == no;
    }
    assert (outcomes + [o])[|outcomes|] == o;
  }

  lemma {:induction false} AskedOk(w: Watches, id: string)
    requires WatchesOk(w)
    ensures WatchesOk(Asked(w, id))
  {
    if id !in w.watching {
      var w' := Asked(w, id);
      forall x | x in w'.watching
        ensures WatchAt(w'.watching, w'.ids, x)
      {
        if x != id {
          assert WatchAt(w.watching, w.ids, x);
        }
      }
      forall no: nat
        ensures WatchOk(w', no)
      {
        assert WatchOk(w, no);
        assert no < |w.ids| ==> w'.ids[no] == w.ids[no];
      }
    }
  }

  lemma {:induction false} WatchOverOk(w: Watches, id: string, result: Result)
    requires WatchesOk(w) && id in w.watching && !w.watching[id].joined
    ensures WatchesOk(WatchOver(w, id, result))
  {
    var w' := WatchOver(w, id, result);
    var ended := w.watching[id].no;
    assert WatchAt(w.watching, w.ids, id) && WatchOk(w, ended);
    forall x | x in w'.watching
      ensures WatchAt(w'.watching, w'.ids, x)
    {
      assert WatchAt(w.watching, w.ids, x);
    }
    forall no: nat
      ensures WatchOk(w', no)
    {
      assert WatchOk(w, no);
      OutcomeAdded(w.outcomes, Outcome(ended, result), no);
    }
    forall i | 0 <= i < |w.outcomes|
      ensures w.outcomes[i].no != ended
    {
      if w.outcomes[i].no == ended {
        assert HasOutcome(w.outcomes, ended);
      }
    }
  }

  /** A view closes: it is kept no more. */
  lemma {:induction false} ViewClosedOk(w: Watches, w': Watches, no: nat, id: string)
    requires WatchesOk(w) && Views(w, no) && id == w.ids[no]
    requires w' == w.(open := w.open - {no}, viewEnds := w.viewEnds + [no],
                      watching := w.watching - {id}, closedViews := w'.closedViews)
    ensures WatchesOk(w')
  {
    forall x | x in w'.watching
      ensures WatchAt(w'.watching, w'.ids, x)
    {
      assert WatchAt(w.watching, w.ids, x);
    }
    assert WatchOk(w, no);
    forall x: nat
      ensures WatchOk(w', x)
    {
      assert WatchOk(w, x);
    }
    forall i | 0 <= i < |w.viewEnds|
      ensures w.viewEnds[i] != no
    {
      assert WatchOk(w, w.viewEnds[i]);
    }
  }

  lemma {:induction false} ViewEndedOk(w: Watches, no: nat)
    requires WatchesOk(w)
    ensures WatchesOk(ViewEnded(w, no))
  {
    assert WatchOk(w, no);
    if no in w.open {
      ViewClosedOk(w, ViewEnded(w, no), no, w.ids[no]);
    }
  }

  lemma {:induction false} AnsweredOk(w: Watches, id: string, accepted: bool, offer: string)
    requires WatchesOk(w)
    ensures WatchesOk(Answered(w, id, accepted, offer))
  {
    if id in w.watching && !w.watching[id].joined {
      if !accepted {
        WatchOverOk(w, id, Denied);
      } else if offer == "" {
        WatchOverOk(w, id, NoOffer);
      } else {
        ViewOpenedOk(w, id);
      }
    }
  }

  lemma {:induction false} ViewOpenedOk(w: Watches, id: string)
    requires WatchesOk(w) && id in w.watching && !w.watching[id].joined
    ensures WatchesOk(ViewOpened(w, id))
  {
    var w' := ViewOpened(w, id);
    var joined := w.watching[id].no;
    assert WatchAt(w.watching, w.ids, id) && WatchOk(w, joined);
    forall x | x in w'.watching
      ensures WatchAt(w'.watching, w'.ids, x)
    {
      assert WatchAt(w.watching, w.ids, x);
    }
    forall no: nat
      ensures WatchOk(w', no)
    {
      assert WatchOk(w, no);
      OutcomeAdded(w.outcomes, Outcome(joined, Joined), no);
    }
    forall i | 0 <= i < |w.outcomes|
      ensures w.outcomes[i].no != joined
    {
      if w.outcomes[i].no == joined {
        assert HasOutcome(w.outcomes, joined);
      }
    }
  }

  lemma {:induction false} SignalledOk(w: Watches, id: string, json: string)
    requires WatchesOk(w)
    ensures WatchesOk(Signalled(w, id, json))
  {
    if id in w.watching {
      var w' := Signalled(w, id, json);
      forall x | x in w'.watching
        ensures WatchAt(w'.watching, w'.ids, x)
      {
        assert WatchAt(w.watching, w.ids, x);
      }
      forall no: nat
        ensures WatchOk(w', no)
      {
        assert WatchOk(w, no);
      }
    }
  }

  lemma {:induction false} WatchLeftOk(w: Watches, no: nat)
    requires WatchesOk(w)
    ensures WatchesOk(WatchLeft(w, no))
  {
    if Waits(w, no) {
      WatchOverOk(w, w.ids[no], GaveUp);
    }
  }

  lemma {:induction false} ViewDropped(w: Watches, id: string)
    requires WatchesOk(w) && id in w.watching && w.watching[id].joined
    ensures WatchesOk(ViewEnded(w.(watching := w.watching - {id}), w.watching[id].no))
  {
    var no := w.watching[id].no;
    assert WatchAt(w.watching, w.ids, id) && WatchOk(w, no);
    ViewClosedOk(w, ViewEnded(w.(watching := w.watching - {id}), no), no, id);
  }

  lemma {:induction false} WatchedOverOk(w: Watches, id: string)
    requires WatchesOk(w)
    ensures WatchesOk(WatchedOver(w, id))
  {
    if id in w.watching {
      if w.watching[id].joined {
        ViewDropped(w, id);
      } else {
        WatchOverOk(w, id, StreamOver);
      }
    }
  }

  lemma {:induction false} WatchesOverOk(w: Watches, n: nat)
    requires WatchesOk(w)
    ensures WatchesOk(WatchesOver(w, n))
  {
    if n > 0 {
      WatchesOverOk(w, n - 1);
      var before := WatchesOver(w, n - 1);
      if IsCurrent(before, n - 1) {
        if before.watching[before.ids[n - 1]].joined {
          ViewDropped(before, before.ids[n - 1]);
        } else {
          WatchOverOk(before, before.ids[n - 1], GaveUp);
        }
      }
    }
  }

  lemma {:induction false} ClosedForgottenOk(w: Watches)
    requires WatchesOk(w)
    ensures WatchesOk(w.(closedViews := []))
  {
    forall no: nat
      ensures WatchOk(w.(closedViews := []), no)
    {
      assert WatchOk(w, no);
    }
  }

  // ---- The registry -------------------------------------------------------------------------------

  ghost predicate Good(r: Registry) {
    KnownOk(r.known) && WatchesOk(r.watches) && PublishedOk(r.published)
  }

  lemma {:induction false} EndedGood(r: Registry, id: string, cause: Cause, reason: nat)
    requires Good(r)
    ensures Good(StreamEnded(r, id, cause, reason))
  {
    OverOk(r.known, id, cause, reason);
    WatchedOverOk(r.watches, id);
    PublishedOverOk(r.published, id);
  }

  lemma {:induction false} GivenUpGood(r: Registry, no: nat, gone: bool)
    requires Good(r)
    ensures Good(Next(r, WatchGivenUp(no, gone)))
  {
    if Waits(r.watches, no) {
      WatchLeftOk(r.watches, no);
      EndedGood(r.(watches := WatchLeft(r.watches, no)), r.watches.ids[no], Gone, 0);
    }
  }

  lemma {:induction false} ResetGood(r: Registry)
    requires Good(r)
    ensures Good(Next(r, Reset))
  {
    ForgottenOk(r.known);
    WatchesOverOk(r.watches, |r.watches.ids|);
    ClosedForgottenOk(WatchesOver(r.watches, |r.watches.ids|));
    PublishedAllOverOk(r.published, |r.published.ids|);
  }

  lemma {:induction false} NextGood(r: Registry, step: Step)
    requires Good(r)
    ensures Good(Next(r, step))
  {
    match step
    case Learn(info) => LearnedOk(r.known, info);
    case SetupAnswered(info, abandoned) =>
      OrphanedOk(r.known, info.id);
      WatchedOverOk(r.watches, info.id);
      PublishedOverOk(r.published, info.id);
      LearnedOk(r.known, info);
      AdoptedOk(r.published, info.id);
    case Ended(id, cause, reason) => EndedGood(r, id, cause, reason);
    case ServerStopped(id, reason) =>
      EndedGood(r, id, ByServer, reason);
      OrphanForgottenOk(StreamEnded(r, id, ByServer, reason).known, id);
    case WatchAsked(id) => AskedOk(r.watches, id);
    case WatchAnswered(id, accepted, offer) => AnsweredOk(r.watches, id, accepted, offer);
    case WatchGivenUp(no, gone) => GivenUpGood(r, no, gone);
    case SignalCame(id, json) => SignalledOk(r.watches, id, json);
    case ViewClosed(no) => ViewEndedOk(r.watches, no);
    case Reset => ResetGood(r);
  }

  function Run(steps: seq<Step>, n: nat): Registry
    requires n <= |steps|
  {
    if n == 0 then NEW else Next(Run(steps, n - 1), steps[n - 1])
  }

  lemma {:induction false} RunGood(steps: seq<Step>, n: nat)
    requires n <= |steps|
    ensures Good(Run(steps, n))
  {
    if n == 0 {
      forall id: string
        ensures StreamOk(NEW.known, id)
      {
      }
      forall no: nat
        ensures WatchOk(NEW.watches, no)
      {
      }
    } else {
      RunGood(steps, n - 1);
      NextGood(Run(steps, n - 1), steps[n - 1]);
    }
  }

  /** Whatever happens, the events of each stream are started, updated any number of times and
      stopped, in turn; and those known are those started and not stopped, none of them one that was
      stopped for a `publish` that gave up. */
  lemma {:induction false} EventsInTurn(steps: seq<Step>, n: nat, id: string)
    requires n <= |steps|
    ensures var k := Run(steps, n).known;
      && InTurn(k.events, id, |k.events|)
      && (id in k.infos <==> IsOpen(k.events, id, |k.events|))
      && (id in k.orphans ==> id !in k.infos)
  {
    RunGood(steps, n);
    assert StreamOk(Run(steps, n).known, id);
  }

  /** Each watch has one outcome at most, and exactly one once it no longer waits; each view and each
      published stream ends at most once. */
  lemma {:induction false} EachEndsOnce(steps: seq<Step>, n: nat, no: nat)
    requires n <= |steps|
    ensures var r := Run(steps, n);
      && (forall i, j | 0 <= i < j < |r.watches.outcomes| :: r.watches.outcomes[i].no != r.watches.outcomes[j].no)
      && (no < |r.watches.ids| ==> (HasOutcome(r.watches.outcomes, no) <==> !Waits(r.watches, no)))
      && (forall i, j | 0 <= i < j < |r.watches.viewEnds| :: r.watches.viewEnds[i] != r.watches.viewEnds[j])
      && (forall i, j | 0 <= i < j < |r.published.ends| :: r.published.ends[i] != r.published.ends[j])
  {
    RunGood(steps, n);
    assert WatchOk(Run(steps, n).watches, no);
  }
}
