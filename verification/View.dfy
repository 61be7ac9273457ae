/** The view as a value: its roster and tree, the two caches, the revisions told, and who waits for
    it to be ready. */
module View {
  import opened Wrappers
  import opened Forest
  import opened ChannelTree
  import opened Preorder
  import TreeBuild
  import TreeFrom
  import TreeSteps

  datatype Status = Empty | Loading | Live | Stale

  datatype Entry = Entry(channel: Id, values: map<string, string>)

  type Roster = map<nat, Entry>

  /** The clients as they were at a revision. */
  datatype Known = Known(revision: nat, clients: Roster)

  /** The channels of the tree that was the `no`-th. */
  datatype Ordered = Ordered(no: nat, channels: seq<Id>)

  datatype Settled = Settled(waiter: nat, ready: bool)

  /** `reported` are the revisions that `viewReady` and `viewChanged` announced. */
  datatype Store = Store(
    status: Status, revision: nat, roster: Roster, tree: Tree, treeNo: nat, rows: seq<Channel>,
    known: Known, ordered: Ordered, announced: nat, reported: seq<nat>,
    waiters: set<nat>, nextWaiter: nat, settled: seq<Settled>)

  const NO_TREE := Tree(map[], map[], true)
  const NEW := Store(Empty, 0, map[], NO_TREE, 0, [], Known(0, map[]), Ordered(0, []), 0, [], {}, 0, [])

  // ---- The steps ---------------------------------------------------------------------------

  function Bumped(s: Store): Store { s.(revision := s.revision + 1) }

  function ClientSet(s: Store, id: nat, entry: Entry): Store { Bumped(s.(roster := s.roster[id := entry])) }

  function ClientDeleted(s: Store, id: nat): Store {
    if id in s.roster then Bumped(s.(roster := s.roster - {id})) else s
  }

  function RosterCleared(s: Store): Store {
    if s.roster == map[] then s else Bumped(s.(roster := map[]))
  }

  function Treed(s: Store, tree: Tree): Store { s.(tree := tree, treeNo := s.treeNo + 1) }

  ghost function ResetFor(s: Store): Store {
    Bumped(Treed(RosterCleared(s).(rows := []), TreeBuild.Build([])).(status := Loading))
  }

  /** A row without its count of clients, which no event keeps up to date. */
  function Uncounted(c: Channel): Channel {
    c.(props := c.props - {TotalClients, TotalFamilyClients})
  }

  function AllUncounted(rows: seq<Channel>): (r: seq<Channel>)
    ensures |r| == |rows|
  {
    seq(|rows|, i requires 0 <= i < |rows| => Uncounted(rows[i]))
  }

  /** The waiters numbered below `n`, settled in the order they came. */
  function AllSettled(waiters: set<nat>, ready: bool, n: nat): seq<Settled> {
    if n == 0 then []
    else if n - 1 in waiters then AllSettled(waiters, ready, n - 1) + [Settled(n - 1, ready)]
    else AllSettled(waiters, ready, n - 1)
  }

  function WaitersSettled(s: Store, ready: bool): Store {
    s.(waiters := {}, settled := s.settled + AllSettled(s.waiters, ready, s.nextWaiter))
  }

  function Reported(s: Store): Store { s.(announced := s.revision, reported := s.reported + [s.revision]) }

  /** The view is live, with the tree of the rows collected. */
  ghost function MadeLive(s: Store): Store {
    Bumped(Treed(s, TreeBuild.Build(AllUncounted(s.rows))).(rows := [], status := Live))
  }

  ghost function Finished(s: Store): Store {
    if !s.status.Loading? then s else WaitersSettled(Reported(MadeLive(s)), true)
  }

  ghost function Changed(s: Store, e: Event): Store {
    if s.status.Live? then Bumped(Treed(s, Applied(s.tree, e))) else s
  }

  /** The clients of a channel numbered below `n` forgotten, but not this client. */
  function ChannelDropped(s: Store, channel: Id, self: nat, n: nat): Store {
    if n == 0 then s
    else
      var before := ChannelDropped(s, channel, self, n - 1);
      if n - 1 in s.roster && s.roster[n - 1].channel == channel && n - 1 != self then ClientDeleted(before, n - 1) else before
  }

  predicate Accepting(s: Store) { s.status.Loading? || s.status.Live? }

  function EndedNow(s: Store): Store {
    if Accepting(s) then WaitersSettled(Bumped(s.(status := Stale)), false) else s
  }

  function ToAnnounce(s: Store): Option<nat> {
    if s.status.Loading? || s.status.Empty? || s.revision == s.announced then None else Some(s.revision)
  }

  function Announced(s: Store): Store {
    if ToAnnounce(s).Some? then Reported(s) else s
  }

  /** A caller waits for the view; the `aborted` one does not. */
  function Waited(s: Store, aborted: bool): Store {
    var id := s.nextWaiter;
    var next := s.(nextWaiter := id + 1);
    if aborted then next.(settled := s.settled + [Settled(id, false)])
    else if s.status.Live? then next.(settled := s.settled + [Settled(id, true)])
    else if s.status.Stale? then next.(settled := s.settled + [Settled(id, false)])
    else next.(waiters := s.waiters + {id})
  }

  function WaiterAborted(s: Store, id: nat): Store {
    if id in s.waiters then s.(waiters := s.waiters - {id}, settled := s.settled + [Settled(id, false)]) else s
  }

  function ClientsRead(s: Store): Store {
    if s.known.revision != s.revision then s.(known := Known(s.revision, s.roster)) else s
  }

  ghost function ChannelsRead(s: Store): Store
    requires WellFormed(s.tree)
  {
    if s.ordered.no != s.treeNo then s.(ordered := Ordered(s.treeNo, InOrder(s.tree))) else s
  }

  datatype Step =
    | SetClient(id: nat, entry: Entry)
    | DeleteClient(id: nat)
    | DropChannel(channel: Id, self: nat, ids: nat)
    | Reset
    | Collect(row: Channel)
    | Finish
    | Change(event: Event)
    | OtherChange
    | End
    | Announce
    | WhenReady(aborted: bool)
    | AbortWaiter(id: nat)
    | ReadClients
    | ReadChannels

  ghost function Next(s: Store, step: Step): Store
    requires WellFormed(s.tree)
  {
    match step
    case SetClient(id, entry) => ClientSet(s, id, entry)
    case DeleteClient(id) => ClientDeleted(s, id)
    case DropChannel(channel, self, ids) => ChannelDropped(s, channel, self, ids)
    case Reset => ResetFor(s)
    case Collect(row) => if s.status.Loading? then s.(rows := s.rows + [row]) else s
    case Finish => Finished(s)
    case Change(event) => Changed(s, event)
    case OtherChange => if Accepting(s) then Bumped(s) else s
    case End => EndedNow(s)
    case Announce => Announced(s)
    case WhenReady(aborted) => Waited(s, aborted)
    case AbortWaiter(id) => WaiterAborted(s, id)
    case ReadClients => ClientsRead(s)
    case ReadChannels => ChannelsRead(s)
  }

  // ---- The invariant ---------------------------------------------------------------------------

  /** A cache that carries the current key holds the current state. */
  ghost predicate CachesOk(s: Store) {
    && WellFormed(s.tree)
    && s.known.revision <= s.revision && (s.known.revision == s.revision ==> s.known.clients == s.roster)
    && s.ordered.no <= s.treeNo && (s.ordered.no == s.treeNo ==> s.ordered.channels == InOrder(s.tree))
  }

  /** The revisions announced rise, and none is past the view's. */
  ghost predicate Rising(reported: seq<nat>, announced: nat, revision: nat) {
    && announced <= revision
    && (forall i, j | 0 <= i < j < |reported| :: reported[i] < reported[j])
    && (forall i | 0 <= i < |reported| :: 0 < reported[i] <= announced)
  }

  ghost predicate WaiterTold(settled: seq<Settled>, id: nat) {
    exists i | 0 <= i < |settled| :: settled[i].waiter == id
  }

  ghost predicate WaiterOk(waiters: set<nat>, next: nat, settled: seq<Settled>, id: nat) {
    && !(id in waiters && WaiterTold(settled, id))
    && (id in waiters || WaiterTold(settled, id) <==> id < next)
  }

  /** Each caller who asked waits or was told, never both, and told once. */
  ghost predicate WaitersOk(waiters: set<nat>, next: nat, settled: seq<Settled>) {
    && (forall id: nat {:trigger WaiterOk(waiters, next, settled, id)} :: WaiterOk(waiters, next, settled, id))
    && (forall i, j | 0 <= i < j < |settled| :: settled[i].waiter != settled[j].waiter)
  }

  ghost predicate Good(s: Store) {
    && CachesOk(s)
    && Rising(s.reported, s.announced, s.revision)
    && WaitersOk(s.waiters, s.nextWaiter, s.settled)
    && (s.waiters != {} ==> s.status.Empty? || s.status.Loading?)
  }

  // ---- It is kept -------------------------------------------------------------------------------

  lemma {:induction false} ToldMore(settled: seq<Settled>, more: seq<Settled>, id: nat)
    ensures WaiterTold(settled + more, id) <==> WaiterTold(settled, id) || WaiterTold(more, id)
  {
    if WaiterTold(settled, id) {
      var i :| 0 <= i < |settled| && settled[i].waiter == id;
      assert (settled + more)[i].waiter == id;
    }
    if WaiterTold(more, id) {
      var i :| 0 <= i < |more| && more[i].waiter == id;
      assert (settled + more)[|settled| + i].waiter == id;
    }
  }

  ghost predicate OnceEach(all: seq<Settled>, waiters: set<nat>, n: nat) {
    && (forall i | 0 <= i < |all| :: all[i].waiter < n && all[i].waiter in waiters)
    && (forall i, j | 0 <= i < j < |all| :: all[i].waiter != all[j].waiter)
  }

  lemma {:induction false} AllSettledOnce(waiters: set<nat>, ready: bool, n: nat)
    ensures OnceEach(AllSettled(waiters, ready, n), waiters, n)
  {
    if n > 0 {
      var before := AllSettled(waiters, ready, n - 1);
      AllSettledOnce(waiters, ready, n - 1);
      if n - 1 in waiters {
        assert OnceEach(before + [Settled(n - 1, ready)], waiters, n);
      } else {
        assert OnceEach(before, waiters, n);
      }
    }
  }

  lemma {:induction false} AllSettledMeets(waiters: set<nat>, ready: bool, n: nat, id: nat)
    requires id in waiters && id < n
    ensures WaiterTold(AllSettled(waiters, ready, n), id)
  {
    var before := AllSettled(waiters, ready, n - 1);
    if id == n - 1 {
      assert AllSettled(waiters, ready, n)[|before|].waiter == id;
    } else {
      AllSettledMeets(waiters, ready, n - 1, id);
      if n - 1 in waiters {
        ToldMore(before, [Settled(n - 1, ready)], id);
      }
    }
  }

  lemma {:induction false} WaitersSettledOk(waiters: set<nat>, next: nat, settled: seq<Settled>, ready: bool)
    requires WaitersOk(waiters, next, settled)
    ensures WaitersOk({}, next, settled + AllSettled(waiters, ready, next))
  {
    var all := AllSettled(waiters, ready, next);
    AllSettledOnce(waiters, ready, next);
    forall id: nat
      ensures WaiterOk({}, next, settled + all, id)
    {
      assert WaiterOk(waiters, next, settled, id);
      ToldMore(settled, all, id);
      if id in waiters {
        AllSettledMeets(waiters, ready, next, id);
      }
    }
    forall i, j | 0 <= i < |settled| && 0 <= j < |all|
      ensures settled[i].waiter != all[j].waiter
    {
      assert WaiterOk(waiters, next, settled, all[j].waiter);
    }
  }

  lemma {:induction false} OneSettledOk(
      waiters: set<nat>, next: nat, settled: seq<Settled>, id: nat, ready: bool, next': nat)
    requires WaitersOk(waiters, next, settled)
    requires (id in waiters && next' == next) || (id == next && next' == next + 1)
    ensures WaitersOk(waiters - {id}, next', settled + [Settled(id, ready)])
  {
    var one := [Settled(id, ready)];
    forall x: nat
      ensures WaiterOk(waiters - {id}, next', settled + one, x)
    {
      assert WaiterOk(waiters, next, settled, x);
      assert WaiterOk(waiters, next, settled, id);
      ToldMore(settled, one, x);
      assert one[0].waiter == id;
    }
    forall i | 0 <= i < |settled|
      ensures settled[i].waiter != id
    {
      assert WaiterOk(waiters, next, settled, id);
    }
  }

  lemma {:induction false} WaitedOk(waiters: set<nat>, next: nat, settled: seq<Settled>)
    requires WaitersOk(waiters, next, settled)
    ensures WaitersOk(waiters + {next}, next + 1, settled)
  {
    var next' := next + 1;
    forall x: nat
      ensures WaiterOk(waiters + {next}, next', settled, x)
    {
      assert WaiterOk(waiters, next, settled, x);
    }
  }

  lemma {:induction false} DroppedGood(s: Store, channel: Id, self: nat, n: nat)
    requires Good(s)
    ensures Good(ChannelDropped(s, channel, self, n))
  {
    if n > 0 {
      DroppedGood(s, channel, self, n - 1);
    }
  }

  lemma {:induction false} TreedGood(s: Store, tree: Tree)
    requires Good(s) && WellFormed(tree)
    ensures Good(Treed(s, tree))
  {
  }

  lemma {:induction false} ResetGood(s: Store)
    requires Good(s)
    ensures Good(ResetFor(s))
  {
    TreeFrom.BuildWellFormed([]);
    TreedGood(RosterCleared(s).(rows := []), TreeBuild.Build([]));
  }

  lemma {:induction false} FinishedGood(s: Store)
    requires Good(s)
    ensures Good(Finished(s))
  {
    if s.status.Loading? {
      TreeFrom.BuildWellFormed(AllUncounted(s.rows));
      WaitersSettledOk(s.waiters, s.nextWaiter, s.settled, true);
    }
  }

  lemma {:induction false} ChangedGood(s: Store, e: Event)
    requires Good(s)
    ensures Good(Changed(s, e))
  {
    if s.status.Live? {
      TreeSteps.AppliedWellFormed(s.tree, e);
      TreedGood(s, Applied(s.tree, e));
    }
  }

  lemma {:induction false} EndedGood(s: Store)
    requires Good(s)
    ensures Good(EndedNow(s))
  {
    WaitersSettledOk(s.waiters, s.nextWaiter, s.settled, false);
  }

  lemma {:induction false} WaitedGood(s: Store, aborted: bool)
    requires Good(s)
    ensures Good(Waited(s, aborted))
  {
    var id := s.nextWaiter;
    assert WaiterOk(s.waiters, id, s.settled, id);
    assert s.waiters - {id} == s.waiters;
    OneSettledOk(s.waiters, id, s.settled, id, true, id + 1);
    OneSettledOk(s.waiters, id, s.settled, id, false, id + 1);
    WaitedOk(s.waiters, id, s.settled);
  }

  lemma {:induction false} NextGood(s: Store, step: Step)
    requires Good(s)
    ensures Good(Next(s, step))
  {
    match step
    case SetClient(_, _) =>
    case DeleteClient(_) =>
    case DropChannel(channel, self, ids) => DroppedGood(s, channel, self, ids);
    case Reset => ResetGood(s);
    case Collect(_) =>
    case Finish => FinishedGood(s);
    case Change(event) => ChangedGood(s, event);
    case OtherChange =>
    case End => EndedGood(s);
    case Announce =>
    case WhenReady(aborted) => WaitedGood(s, aborted);
    case AbortWaiter(id) =>
      if id in s.waiters { OneSettledOk(s.waiters, s.nextWaiter, s.settled, id, false, s.nextWaiter); }
    case ReadClients =>
    case ReadChannels =>
  }

  ghost predicate IsRun(stores: seq<Store>, steps: seq<Step>) {
    && |stores| == |steps| + 1 && stores[0] == NEW
    && forall i | 0 <= i < |steps| :: WellFormed(stores[i].tree) && stores[i + 1] == Next(stores[i], steps[i])
  }

  lemma {:induction false} NewGood()
    ensures Good(NEW)
  {
    forall id: nat
      ensures WaiterOk({}, 0, [], id)
    {
    }
  }

  lemma {:induction false} RunGood(stores: seq<Store>, steps: seq<Step>, n: nat)
    requires IsRun(stores, steps) && n < |stores|
    ensures Good(stores[n])
  {
    if n == 0 {
      NewGood();
    } else {
      RunGood(stores, steps, n - 1);
      NextGood(stores[n - 1], steps[n - 1]);
    }
  }

  // ---- What a reader sees --------------------------------------------------------------------------

  /** A read of `clients` is the roster as it is, and one of `channels` the tree as it is: each
      channel once, after its parent, siblings in order. */
  lemma {:induction false} ReadsAreCurrent(stores: seq<Store>, steps: seq<Step>, n: nat)
    requires IsRun(stores, steps) && n < |stores|
    ensures WellFormed(stores[n].tree)
    ensures ClientsRead(stores[n]).known.clients == stores[n].roster
    ensures var channels := ChannelsRead(stores[n]).ordered.channels;
      && (forall x :: x in channels <==> x in stores[n].tree.channels)
      && Distinct(channels) && AllRanked(stores[n].tree, channels) && ParentsFirst(stores[n].tree, TOP, channels)
  {
    RunGood(stores, steps, n);
    WalksTheTree(stores[n].tree);
  }

  /** Every change of the roster moves the revision, so a snapshot is never taken for a later
      state. */
  lemma {:induction false} RosterMovesRevision(stores: seq<Store>, steps: seq<Step>, i: nat, n: nat)
    requires IsRun(stores, steps) && i <= n < |stores|
    ensures stores[i].revision <= stores[n].revision
    ensures stores[i].revision == stores[n].revision ==> stores[i].roster == stores[n].roster
    decreases n
  {
    if i < n {
      RosterMovesRevision(stores, steps, i, n - 1);
      NextMoves(stores[n - 1], steps[n - 1]);
    }
  }

  lemma {:induction false} DroppedMoves(s: Store, channel: Id, self: nat, n: nat)
    ensures var s' := ChannelDropped(s, channel, self, n);
      s.revision <= s'.revision && (s.revision == s'.revision ==> s.roster == s'.roster)
  {
    if n > 0 {
      DroppedMoves(s, channel, self, n - 1);
    }
  }

  lemma {:induction false} NextMoves(s: Store, step: Step)
    requires WellFormed(s.tree)
    ensures s.revision <= Next(s, step).revision && (s.revision == Next(s, step).revision ==> s.roster == Next(s, step).roster)
  {
    if step.DropChannel? {
      DroppedMoves(s, step.channel, step.self, step.ids);
    }
  }

  /** The revisions announced strictly rise. */
  lemma {:induction false} AnnouncedRise(stores: seq<Store>, steps: seq<Step>, n: nat, i: nat, j: nat)
    requires IsRun(stores, steps) && n < |stores| && i < j < |stores[n].reported|
    ensures stores[n].reported[i] < stores[n].reported[j] <= stores[n].revision
  {
    RunGood(stores, steps, n);
  }

  /** Once the view is ready or over, nobody waits, and everybody who asked was told once. */
  lemma {:induction false} EveryWaiterTold(stores: seq<Store>, steps: seq<Step>, n: nat, id: nat)
    requires IsRun(stores, steps) && n < |stores| && id < stores[n].nextWaiter
    requires stores[n].status.Live? || stores[n].status.Stale?
    ensures WaiterTold(stores[n].settled, id)
    ensures forall i, j | 0 <= i < j < |stores[n].settled| :: stores[n].settled[i].waiter != stores[n].settled[j].waiter
  {
    RunGood(stores, steps, n);
    assert WaiterOk(stores[n].waiters, stores[n].nextWaiter, stores[n].settled, id);
  }
}
