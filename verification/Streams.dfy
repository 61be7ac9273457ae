/** What a client knows of the streams on its server, those it publishes and those it watches. */
module Streams {
  import opened Wrappers

  datatype Info = Info(id: string, client: nat, values: map<string, string>)

  datatype Cause = Stopped | ByServer | Gone

  /** What was told of streams. At `AllForgotten` the connection ended, and no stream was named. */
  datatype Event =
    | StreamStarted(info: Info)
    | StreamUpdated(info: Info)
    | StreamStopped(info: Info, cause: Cause, reason: nat)
    | AllForgotten

  /** What is remembered of streams: those that run, those to be ignored, and those that ended. */
  datatype Known = Known(infos: map<string, Info>, orphans: seq<string>, stopped: seq<string>, events: seq<Event>)

  /** A request to watch: `early` are the signals that came before its answer. */
  datatype Watch = Watch(no: nat, early: seq<string>, joined: bool)

  datatype Result = Joined | Denied | NoOffer | StreamOver | GaveUp

  datatype Outcome = Outcome(no: nat, result: Result)

  datatype Signal = Signal(no: nat, json: string)

  /** The watches, numbered as they are asked for; `ids` is the stream of each. A view has its
      watch's number, and `open` are those not closed. `arrived` are the signals that came for a
      watch, `soon` how many of them before its answer, `delivered` those its view was given, `viewEnds`
      the views that were told they closed. */
  datatype Watches = Watches(
    watching: map<string, Watch>, ids: seq<string>, outcomes: seq<Outcome>, open: set<nat>,
    viewEnds: seq<nat>, closedViews: seq<string>,
    arrived: seq<Signal>, soon: map<nat, nat>, delivered: seq<Signal>)

  /** The streams published here, numbered; `ends` are those that were told they ended. */
  datatype Published = Published(published: map<string, nat>, ids: seq<string>, ends: seq<nat>)

  datatype Registry = Registry(known: Known, watches: Watches, published: Published)

  const NEW := Registry(
    Known(map[], [], [], []), Watches(map[], [], [], {}, [], [], [], map[], []), Published(map[], [], []))

  const MAX_ORPHANS := 16
  const MAX_STOPPED := 256
  const MAX_CLOSED_VIEWS := 1024
  const MAX_EARLY_SIGNALS := 256

  // ---- Bounded memories ------------------------------------------------------------------

  function Without(list: seq<string>, x: string, n: nat): (r: seq<string>)
    requires n <= |list|
  {
    if n == 0 then []
    else if list[n - 1] == x then Without(list, x, n - 1)
    else Without(list, x, n - 1) + [list[n - 1]]
  }

  function Bounded(list: seq<string>, max: nat): seq<string> {
    if |list| > max then list[1..] else list
  }

  /** `x` remembered as the newest. */
  function Remembered(list: seq<string>, x: string, max: nat): seq<string> {
    Bounded(Without(list, x, |list|) + [x], max)
  }

  /** `x` remembered where it was, or as the newest. */
  function Added(list: seq<string>, x: string, max: nat): seq<string> {
    Bounded(if x in list then list else list + [x], max)
  }

  // ---- Streams ------------------------------------------------------------------------------

  function Learned(k: Known, info: Info): Known {
    if info.id in k.orphans then k
    else if info.id !in k.infos then k.(infos := k.infos[info.id := info], events := k.events + [StreamStarted(info)])
    else if k.infos[info.id] != info then k.(infos := k.infos[info.id := info], events := k.events + [StreamUpdated(info)])
    else k
  }

  function Over(k: Known, id: string, cause: Cause, reason: nat): Known {
    var noted := if cause.Gone? then k else k.(stopped := Remembered(k.stopped, id, MAX_STOPPED));
    if id !in k.infos then noted
    else noted.(infos := k.infos - {id}, events := k.events + [StreamStopped(k.infos[id], cause, reason)])
  }

  function OrphanNoted(k: Known, id: string): Known { k.(orphans := Added(k.orphans, id, MAX_ORPHANS)) }

  function OrphanForgotten(k: Known, id: string): Known { k.(orphans := Without(k.orphans, id, |k.orphans|)) }

  function Forgotten(k: Known): Known { Known(map[], [], [], k.events + [AllForgotten]) }

  // ---- Watches ---------------------------------------------------------------------------------

  predicate IsCurrent(w: Watches, no: nat) {
    no < |w.ids| && w.ids[no] in w.watching && w.watching[w.ids[no]].no == no
  }

  /** A view closes, once, whoever closes it. */
  function ViewEnded(w: Watches, no: nat): Watches {
    if no !in w.open || no >= |w.ids| then w
    else
      var id := w.ids[no];
      w.(open := w.open - {no}, viewEnds := w.viewEnds + [no],
         watching := if IsCurrent(w, no) then w.watching - {id} else w.watching,
         closedViews := Remembered(w.closedViews, id, MAX_CLOSED_VIEWS))
  }

  function Asked(w: Watches, id: string): Watches {
    if id in w.watching then w
    else w.(watching := w.watching[id := Watch(|w.ids|, [], false)], ids := w.ids + [id],
            closedViews := Without(w.closedViews, id, |w.closedViews|))
  }

  /** A watch is over with no view. */
  function WatchOver(w: Watches, id: string, result: Result): Watches
    requires id in w.watching
  {
    w.(watching := w.watching - {id}, outcomes := w.outcomes + [Outcome(w.watching[id].no, result)])
  }

  function SignalsOf(no: nat, early: seq<string>): (r: seq<Signal>)
    ensures |r| == |early|
  {
    seq(|early|, i requires 0 <= i < |early| => Signal(no, early[i]))
  }

  /** The publisher let this client in: what it sent since it was asked goes to the view. */
  function ViewOpened(w: Watches, id: string): Watches
    requires id in w.watching
  {
    var watch := w.watching[id];
    w.(watching := w.watching[id := Watch(watch.no, [], true)], open := w.open + {watch.no},
       outcomes := w.outcomes + [Outcome(watch.no, Joined)],
       delivered := w.delivered + SignalsOf(watch.no, watch.early))
  }

  /** The publisher's answer. */
  function Answered(w: Watches, id: string, accepted: bool, offer: string): Watches {
    if id !in w.watching || w.watching[id].joined then w
    else if !accepted then WatchOver(w, id, Denied)
    else if offer == "" then WatchOver(w, id, NoOffer)
    else ViewOpened(w, id)
  }

  function Pushed(early: seq<string>, json: string): seq<string> {
    var more := early + [json];
    if |more| > MAX_EARLY_SIGNALS then more[1..] else more
  }

  /** How many signals came for watch `no` before its answer. */
  function Soon(w: Watches, no: nat): nat { if no in w.soon then w.soon[no] else 0 }

  /** A signal for a watched stream. */
  function Signalled(w: Watches, id: string, json: string): Watches {
    if id !in w.watching then w
    else
      var watch := w.watching[id];
      var come := w.(arrived := w.arrived + [Signal(watch.no, json)]);
      if !watch.joined then
        come.(watching := w.watching[id := watch.(early := Pushed(watch.early, json))],
              soon := w.soon[watch.no := Soon(w, watch.no) + 1])
      else if watch.no in w.open then come.(delivered := w.delivered + [Signal(watch.no, json)])
      else come
  }

  /** The caller of watch `no` stops waiting for it. */
  function WatchLeft(w: Watches, no: nat): Watches {
    if !IsCurrent(w, no) || w.watching[w.ids[no]].joined then w else WatchOver(w, w.ids[no], GaveUp)
  }

  /** The stream is over: so is its view, or the wait for one. */
  function WatchedOver(w: Watches, id: string): Watches {
    if id !in w.watching then w
    else if w.watching[id].joined then ViewEnded(w.(watching := w.watching - {id}), w.watching[id].no)
    else WatchOver(w, id, StreamOver)
  }

  /** The connection is over, for the watches numbered below `n`. */
  function WatchesOver(w: Watches, n: nat): Watches {
    if n == 0 then w
    else
      var before := WatchesOver(w, n - 1);
      if !IsCurrent(before, n - 1) then before
      else if before.watching[before.ids[n - 1]].joined then
        ViewEnded(before.(watching := before.watching - {before.ids[n - 1]}), n - 1)
      else WatchOver(before, before.ids[n - 1], GaveUp)
  }

  // ---- Published -----------------------------------------------------------------------------------

  function Adopted(p: Published, id: string): Published {
    if id in p.published then p else p.(published := p.published[id := |p.ids|], ids := p.ids + [id])
  }

  function PublishedOver(p: Published, id: string): Published {
    if id in p.published then p.(published := p.published - {id}, ends := p.ends + [p.published[id]]) else p
  }

  function PublishedAllOver(p: Published, n: nat): Published {
    if n == 0 then p
    else
      var before := PublishedAllOver(p, n - 1);
      if n - 1 < |before.ids| && before.ids[n - 1] in before.published && before.published[before.ids[n - 1]] == n - 1
        then PublishedOver(before, before.ids[n - 1]) else before
  }

  // ---- The registry --------------------------------------------------------------------------------

  function StreamEnded(r: Registry, id: string, cause: Cause, reason: nat): Registry {
    Registry(Over(r.known, id, cause, reason), WatchedOver(r.watches, id), PublishedOver(r.published, id))
  }

  function Orphaned(r: Registry, id: string): Registry {
    StreamEnded(r.(known := OrphanNoted(r.known, id)), id, Stopped, 0)
  }

  datatype Step =
    | Learn(info: Info)
    | SetupAnswered(info: Info, abandoned: bool)
    | Ended(id: string, cause: Cause, reason: nat)
    | ServerStopped(id: string, reason: nat)
    | WatchAsked(id: string)
    | WatchAnswered(id: string, accepted: bool, offer: string)
    | WatchGivenUp(no: nat, gone: bool)
    | SignalCame(id: string, json: string)
    | ViewClosed(no: nat)
    | Reset

  function Next(r: Registry, step: Step): Registry {
    match step
    case Learn(info) => r.(known := Learned(r.known, info))
    case SetupAnswered(info, abandoned) =>
      if abandoned then Orphaned(r, info.id)
      else if info.id in r.known.stopped then r
      else r.(known := Learned(r.known, info), published := Adopted(r.published, info.id))
    case Ended(id, cause, reason) => StreamEnded(r, id, cause, reason)
    case ServerStopped(id, reason) =>
      var over := StreamEnded(r, id, ByServer, reason);
      over.(known := OrphanForgotten(over.known, id))
    case WatchAsked(id) => r.(watches := Asked(r.watches, id))
    case WatchAnswered(id, accepted, offer) => r.(watches := Answered(r.watches, id, accepted, offer))
    case WatchGivenUp(no, gone) =>
      if !IsCurrent(r.watches, no) || r.watches.watching[r.watches.ids[no]].joined then r
      else
        var left := r.(watches := WatchLeft(r.watches, no));
        if gone then StreamEnded(left, r.watches.ids[no], Gone, 0) else left
    case SignalCame(id, json) => r.(watches := Signalled(r.watches, id, json))
    case ViewClosed(no) => r.(watches := ViewEnded(r.watches, no))
    case Reset =>
      Registry(Forgotten(r.known), WatchesOver(r.watches, |r.watches.ids|).(closedViews := []),
               PublishedAllOver(r.published, |r.published.ids|))
  }
}
