/** The operations that close and let in, and whole runs of a published stream. */
module PublishedRuns {
  import opened Wrappers
  import opened Published
  import opened PublishedLaws

  // ---- Requests --------------------------------------------------------------------------

  lemma {:induction false} StateSet(s: Stream, token: nat, state: RequestState)
    requires Asked(s.requests, s.pending, s.announced) && token in s.requests && !state.Waiting?
    ensures var requests := SetState(s, token, state).requests;
      Asked(requests, s.pending, s.announced)
  {
    var requests := SetState(s, token, state).requests;
    forall t | t in requests
      ensures RequestOk(requests, s.pending, s.announced, t)
    {
      assert RequestOk(s.requests, s.pending, s.announced, t);
    }
    forall c | c in s.pending
      ensures PendingOk(requests, s.pending, c)
    {
      assert PendingOk(s.requests, s.pending, c);
    }
  }

  lemma {:induction false} NotToldYet(requests: map<nat, JoinRequest>, closings: seq<Closing>, token: nat, i: nat)
    requires Told(requests, closings) && i < |closings| && token in requests
    requires !requests[token].state.Withdrawn? && !requests[token].state.Ended?
    ensures closings[i].token != token
  {
    assert IsClosed(requests, closings, i);
  }

  lemma {:induction false} StateSetTold(s: Stream, token: nat, state: RequestState)
    requires Told(s.requests, s.closings) && token in s.requests
    requires !s.requests[token].state.Withdrawn? && !s.requests[token].state.Ended? && !state.Withdrawn? && !state.Ended?
    ensures Told(SetState(s, token, state).requests, s.closings)
  {
    var requests := SetState(s, token, state).requests;
    forall i: nat | i < |s.closings|
      ensures IsClosed(requests, s.closings, i)
    {
      NotToldYet(s.requests, s.closings, token, i);
      assert IsClosed(s.requests, s.closings, i);
    }
    forall t | t in requests && (requests[t].state.Withdrawn? || requests[t].state.Ended?)
      ensures TokenTold(s.closings, t)
    {
      assert t != token;
    }
  }

  lemma {:induction false} ClosedTold(s: Stream, token: nat, cause: RequestState)
    requires Told(s.requests, s.closings) && token in s.requests && s.requests[token].state.Waiting?
    requires cause.Withdrawn? || cause.Ended?
    ensures Told(SetState(s, token, cause).requests, s.closings + [Closing(token, cause)])
  {
    var requests := SetState(s, token, cause).requests;
    var closings := s.closings + [Closing(token, cause)];
    forall i: nat | i < |closings|
      ensures IsClosed(requests, closings, i) && (i < |s.closings| ==> closings[i].token != token)
    {
      if i < |s.closings| {
        NotToldYet(s.requests, s.closings, token, i);
        assert IsClosed(s.requests, s.closings, i);
      }
    }
    forall t | t in requests && (requests[t].state.Withdrawn? || requests[t].state.Ended?)
      ensures TokenTold(closings, t)
    {
      if t == token {
        assert closings[|s.closings|].token == t;
      } else {
        assert TokenTold(s.closings, t);
        var i :| 0 <= i < |s.closings| && s.closings[i].token == t;
        assert closings[i].token == t;
      }
    }
  }

  /** Fewer wait and nothing else of what a client has changes. */
  lemma {:induction false} FewerWait(s: Stream, s': Stream)
    requires One(s) && s'.peers == s.peers && s'.resolving == s.resolving
    requires forall c: ClientID :: IsWaiting(s', c) ==> IsWaiting(s, c)
    ensures One(s')
  {
    forall c: ClientID
      ensures AtMostOne(s', c)
    {
      assert AtMostOne(s, c);
    }
  }

  lemma {:induction false} CloseRequestCore(s: Stream, token: nat, cause: RequestState)
    requires Core(s) && (cause.Withdrawn? || cause.Ended?)
    ensures Core(CloseRequest(s, token, cause))
  {
    if token in s.requests && s.requests[token].state.Waiting? {
      StateSet(s, token, cause);
      ClosedTold(s, token, cause);
      FewerWait(s, CloseRequest(s, token, cause));
    }
  }

  /** A client's entry goes once its request does not wait. */
  lemma {:induction false} PendingGone(s: Stream, client: ClientID)
    requires Core(s) && client in s.pending && !IsWaiting(s, client)
    ensures Core(s.(pending := s.pending - {client}))
  {
    var pending := s.pending - {client};
    forall t | t in s.requests
      ensures RequestOk(s.requests, pending, s.announced, t)
    {
      assert RequestOk(s.requests, s.pending, s.announced, t);
    }
    forall c | c in pending
      ensures PendingOk(s.requests, pending, c)
    {
      assert PendingOk(s.requests, s.pending, c);
    }
    FewerWait(s, s.(pending := pending));
  }

  // ---- Slots -----------------------------------------------------------------------------------

  function Cut(slots: seq<Slot>, i: nat): seq<Slot>
    requires i < |slots|
  {
    slots[..i] + slots[i + 1..]
  }

  lemma {:induction false} CutAt(slots: seq<Slot>, i: nat, j: nat)
    requires i < |slots| && j + 1 < |slots|
    ensures At(Cut(slots, i), j) == At(slots, if j < i then j else j + 1)
  {
  }

  /** The line without a client's request, whether or not its slot stays. */
  lemma {:induction false} LineWithout(
      slots: seq<Slot>, resolving: map<ClientID, nat>, announced: seq<nat>, next: nat, i: nat)
    requires Line(slots, resolving, announced, next) && i < |slots| && Current(resolving, slots[i])
    ensures Line(slots, resolving - {slots[i].client}, announced, next)
    ensures Line(Cut(slots, i), resolving - {slots[i].client}, announced, next)
  {
    var cut := Cut(slots, i);
    var resolving' := resolving - {slots[i].client};
    forall j: nat | j < |cut|
      ensures At(cut, j).token < next && Before(announced, At(cut, j).token)
    {
      CutAt(slots, i, j);
    }
    forall j: nat, k: nat | j < k < |cut|
      ensures At(cut, j).token < At(cut, k).token
    {
      CutAt(slots, i, j);
      CutAt(slots, i, k);
    }
    forall c | c in resolving'
      ensures HasSlot(slots, resolving', c) && HasSlot(cut, resolving', c)
    {
      assert HasSlot(slots, resolving, c);
      var j: nat :| j < |slots| && At(slots, j).client == c && At(slots, j).token == resolving[c];
      assert j != i;
      CutAt(slots, i, if j < i then j else j - 1);
      assert At(cut, if j < i then j else j - 1) == At(slots, j);
    }
  }

  /** The slot of a client being looked up, by its token. */
  lemma {:induction false} SlotFound(s: Stream, client: ClientID)
    requires Line(s.slots, s.resolving, s.announced, s.nextToken) && client in s.resolving
    ensures var i := SlotAt(s.slots, s.resolving[client], |s.slots|);
      i >= 0 && s.slots[i].client == client && Current(s.resolving, s.slots[i])
  {
    var i := SlotAt(s.slots, s.resolving[client], |s.slots|);
    assert HasSlot(s.slots, s.resolving, client);
    var j: nat :| j < |s.slots| && At(s.slots, j).client == client && At(s.slots, j).token == s.resolving[client];
    assert s.slots[j] == At(s.slots, j) && i >= 0 && s.slots[i] == At(s.slots, i);
  }

  lemma {:induction false} SlotDroppedBase(s: Stream, client: ClientID)
    requires Base(s) && client in s.resolving
    ensures Base(SlotDropped(s, client))
  {
    SlotFound(s, client);
    var i := SlotAt(s.slots, s.resolving[client], |s.slots|);
    LineWithout(s.slots, s.resolving, s.announced, s.nextToken, i);
    var s' := SlotDropped(s, client);
    assert Cut(s.slots, i) == s.slots[..i] + s.slots[i + 1..];
    forall c: ClientID
      ensures AtMostOne(s', c)
    {
      assert AtMostOne(s, c);
    }
  }

  /** Same slots, same clients being looked up. */
  predicate SameLine(s: Stream, s': Stream) {
    s'.slots == s.slots && s'.resolving == s.resolving && s'.ended == s.ended
  }

  lemma {:induction false} SameLineGood(s: Stream, s': Stream)
    requires Good(s) && SameLine(s, s') && Core(s')
    requires s'.ended ==> s'.pending == map[] && s'.peers == map[]
    ensures Good(s')
  {
  }

  lemma {:induction false} WithdrawnGood(s: Stream, client: ClientID)
    requires Good(s) && client in s.pending
    ensures var closed := CloseRequest(s, s.pending[client], Withdrawn);
      Good(closed.(pending := closed.pending - {client}))
  {
    var closed := CloseRequest(s, s.pending[client], Withdrawn);
    CloseRequestCore(s, s.pending[client], Withdrawn);
    PendingGone(closed, client);
    SameLineGood(s, closed.(pending := closed.pending - {client}));
  }

  lemma {:induction false} PendingDroppedGood(s: Stream, client: ClientID, host: Host)
    requires Good(s)
    ensures Good(PendingDropped(s, client, host))
  {
    var open := if client in s.resolving then Advanced(SlotDropped(s, client), host) else s;
    if client in s.resolving {
      SlotDroppedBase(s, client);
      AdvancedGood(SlotDropped(s, client), host);
    }
    assert Good(open);
    if client in open.pending {
      WithdrawnGood(open, client);
    }
  }

  // ---- Peers --------------------------------------------------------------------------------------

  lemma {:induction false} PeerEndedLetIn(s: Stream, peer: nat, cause: PeerCause)
    requires LetIn(s.peers, s.allPeers, s.nextPeer)
    ensures var s' := PeerEnded(s, peer, cause); LetIn(s'.peers, s'.allPeers, s'.nextPeer) && s'.peers.Keys <= s.peers.Keys
  {
    var s' := PeerEnded(s, peer, cause);
    if peer in s.allPeers && !s.allPeers[peer].closed {
      assert PeerOk(s.peers, s.allPeers, s.nextPeer, peer);
      forall p | p in s'.allPeers
        ensures PeerOk(s'.peers, s'.allPeers, s.nextPeer, p)
      {
        assert PeerOk(s.peers, s.allPeers, s.nextPeer, p);
      }
      forall c | c in s'.peers
        ensures PeerKept(s'.peers, s'.allPeers, c)
      {
        assert PeerKept(s.peers, s.allPeers, c);
      }
    }
  }

  lemma {:induction false} PeersToldMore(allPeers: map<nat, Peer>, closings: seq<PeerClosing>, peer: nat, cause: PeerCause)
    requires PeersTold(allPeers, closings) && peer in allPeers && !allPeers[peer].closed
    ensures PeersTold(allPeers[peer := Peer(allPeers[peer].client, true)], closings + [PeerClosing(peer, cause)])
  {
    var all := allPeers[peer := Peer(allPeers[peer].client, true)];
    var more := closings + [PeerClosing(peer, cause)];
    forall p | p in all && all[p].closed
      ensures PeerTold(more, p)
    {
      if p == peer {
        assert more[|closings|].peer == p;
      } else {
        assert PeerTold(closings, p);
        var i :| 0 <= i < |closings| && closings[i].peer == p;
        assert more[i].peer == p;
      }
    }
    forall i | 0 <= i < |more|
      ensures more[i].peer in all && all[more[i].peer].closed && (i < |closings| ==> more[i].peer != peer)
    {
    }
  }

  lemma {:induction false} PeerEndedTold(s: Stream, peer: nat, cause: PeerCause)
    requires PeersTold(s.allPeers, s.peerClosings)
    ensures PeersTold(PeerEnded(s, peer, cause).allPeers, PeerEnded(s, peer, cause).peerClosings)
  {
    if peer in s.allPeers && !s.allPeers[peer].closed {
      PeersToldMore(s.allPeers, s.peerClosings, peer, cause);
    }
  }

  /** Only peers closed. */
  predicate OnlyPeers(s: Stream, s': Stream) {
    SameLine(s, s') && s'.pending == s.pending && s'.requests == s.requests && s'.nextPeer == s.nextPeer
  }

  lemma {:induction false} PeerEndedCore(s: Stream, peer: nat, cause: PeerCause)
    requires Core(s)
    ensures Core(PeerEnded(s, peer, cause)) && OnlyPeers(s, PeerEnded(s, peer, cause))
    ensures PeerEnded(s, peer, cause).peers.Keys <= s.peers.Keys
  {
    PeerEndedLetIn(s, peer, cause);
    PeerEndedTold(s, peer, cause);
    var s' := PeerEnded(s, peer, cause);
    forall c: ClientID
      ensures AtMostOne(s', c)
    {
      assert AtMostOne(s, c);
    }
  }

  lemma {:induction false} PeerEndedGood(s: Stream, peer: nat, cause: PeerCause)
    requires Good(s)
    ensures Good(PeerEnded(s, peer, cause))
  {
    PeerEndedCore(s, peer, cause);
    SameLineGood(s, PeerEnded(s, peer, cause));
  }

  lemma {:induction false} WithoutShorter(list: seq<ClientID>, client: ClientID, n: nat)
    requires n <= |list|
    ensures |Without(list, client, n)| <= n
  {
    if n > 0 {
      WithoutShorter(list, client, n - 1);
    }
  }

  lemma {:induction false} FreshPeer(s: Stream)
    requires LetIn(s.peers, s.allPeers, s.nextPeer)
    ensures s.nextPeer !in s.allPeers
  {
    if s.nextPeer in s.allPeers {
      var ok := PeerOk(s.peers, s.allPeers, s.nextPeer, s.nextPeer);
    }
  }

  lemma {:induction false} ViewerOpenedCore(s: Stream, client: ClientID)
    requires Core(s) && client !in s.peers && client !in s.resolving && !IsWaiting(s, client)
    ensures Core(ViewerOpened(s, client))
  {
    var s' := ViewerOpened(s, client);
    WithoutShorter(s.closedViewers, client, |s.closedViewers|);
    FreshPeer(s);
    forall p | p in s'.allPeers
      ensures PeerOk(s'.peers, s'.allPeers, s'.nextPeer, p)
    {
      if p in s.allPeers {
        assert PeerOk(s.peers, s.allPeers, s.nextPeer, p);
      }
    }
    forall c | c in s'.peers
      ensures PeerKept(s'.peers, s'.allPeers, c)
    {
      if c != client {
        assert PeerKept(s.peers, s.allPeers, c);
        assert PeerOk(s.peers, s.allPeers, s.nextPeer, s.peers[c]);
      }
    }
    forall c: ClientID
      ensures AtMostOne(s', c)
    {
      assert AtMostOne(s, c);
    }
    assert PeersTold(s'.allPeers, s'.peerClosings) by {
      forall p | p in s'.allPeers && s'.allPeers[p].closed
        ensures PeerTold(s.peerClosings, p)
      {
        assert p in s.allPeers;
      }
    }
  }

  lemma {:induction false} StateSetCore(s: Stream, token: nat, state: RequestState)
    requires Core(s) && token in s.requests && !state.Waiting? && !state.Withdrawn? && !state.Ended?
    requires !s.requests[token].state.Withdrawn? && !s.requests[token].state.Ended?
    ensures Core(SetState(s, token, state))
  {
    StateSet(s, token, state);
    StateSetTold(s, token, state);
    FewerWait(s, SetState(s, token, state));
  }

  lemma {:induction false} AcceptStartedGood(s: Stream, token: nat)
    requires Good(s)
    ensures Good(AcceptStarted(s, token))
  {
    if token in s.requests && s.requests[token].state.Waiting? {
      var client := s.requests[token].client;
      assert RequestOk(s.requests, s.pending, s.announced, token);
      assert IsWaiting(s, client) && AtMostOne(s, client);
      StateSetCore(s, token, Accepted);
      ViewerOpenedCore(SetState(s, token, Accepted), client);
      SameLineGood(s, AcceptStarted(s, token));
    }
  }

  lemma {:induction false} AnsweredGood(s: Stream, op: Op, host: Host)
    requires Good(s) && (op.Deny? || op.DenyFails? || op.AcceptFails?)
    ensures Good(Step(s, op, host))
  {
    if op.token in s.requests {
      var state := s.requests[op.token].state;
      if op.Deny? && state.Waiting? {
        StateSetCore(s, op.token, Denied);
        SameLineGood(s, Step(s, op, host));
      } else if (op.DenyFails? && state.Denied?) || (op.AcceptFails? && state.Accepted?) {
        StateSetCore(s, op.token, Failed);
        SameLineGood(s, SetState(s, op.token, Failed));
        if op.AcceptFails? {
          PeerEndedGood(SetState(s, op.token, Failed), op.peer, ByUser);
        }
      }
    }
  }

  // ---- The end ----------------------------------------------------------------------------------------

  /** Only requests with tokens below `n` closed, and all of those that waited. */
  ghost predicate OnlyRequests(s: Stream, s': Stream, n: nat) {
    && SameLine(s, s') && s'.pending == s.pending && s'.peers == s.peers && s'.nextPeer == s.nextPeer
    && s'.announced == s.announced && s'.requests.Keys == s.requests.Keys
    && forall t | t in s.requests ::
         && (t < n ==> !s'.requests[t].state.Waiting?)
         && (t >= n ==> s'.requests[t] == s.requests[t])
  }

  lemma {:induction false} RequestsEndedCore(s: Stream, n: nat)
    requires Core(s)
    ensures Core(RequestsEnded(s, n))
  {
    if n > 0 {
      RequestsEndedCore(s, n - 1);
      CloseRequestCore(RequestsEnded(s, n - 1), n - 1, Ended);
    }
  }

  lemma {:induction false} RequestsEndedAll(s: Stream, n: nat)
    requires Core(s)
    ensures OnlyRequests(s, RequestsEnded(s, n), n)
  {
    if n > 0 {
      RequestsEndedAll(s, n - 1);
      if n - 1 in s.requests {
        assert RequestOk(s.requests, s.pending, s.announced, n - 1);
      }
    }
  }

  lemma {:induction false} PeersEndedCore(s: Stream, cause: PeerCause, n: nat)
    requires Core(s)
    ensures Core(PeersEnded(s, cause, n)) && OnlyPeers(s, PeersEnded(s, cause, n))
  {
    if n > 0 {
      PeersEndedCore(s, cause, n - 1);
      var before := PeersEnded(s, cause, n - 1);
      PeerEndedCore(before, n - 1, cause);
    }
  }

  /** The peers left are numbered from `n` on. */
  ghost predicate LeftFrom(s: Stream, before: Stream, n: nat) {
    forall c | c in before.peers :: c in s.peers && before.peers[c] == s.peers[c] && before.peers[c] >= n
  }

  lemma {:induction false} PeersEndedAll(s: Stream, cause: PeerCause, n: nat)
    requires Core(s)
    ensures LeftFrom(s, PeersEnded(s, cause, n), n)
  {
    if n > 0 {
      PeersEndedAll(s, cause, n - 1);
      PeersEndedCore(s, cause, n - 1);
      PeersEndedOne(s, PeersEnded(s, cause, n - 1), n - 1, cause);
    }
  }

  lemma {:induction false} PeersEndedOne(s: Stream, before: Stream, p: nat, cause: PeerCause)
    requires Core(s) && Core(before) && LeftFrom(s, before, p)
    ensures var open := p in s.allPeers && s.allPeers[p].client in s.peers && s.peers[s.allPeers[p].client] == p;
      LeftFrom(s, if open then PeerEnded(before, p, cause) else before, p + 1)
  {
    forall c | c in before.peers && before.peers[c] == p
      ensures p in before.allPeers && before.allPeers[p] == Peer(c, false)
      ensures p in s.allPeers && s.allPeers[p] == Peer(c, false)
    {
      assert PeerKept(before.peers, before.allPeers, c);
      assert PeerKept(s.peers, s.allPeers, c);
    }
  }

  lemma {:induction false} PendingAllGone(s: Stream)
    requires Core(s) && forall t | t in s.requests :: !s.requests[t].state.Waiting?
    ensures Core(s.(pending := map[]))
  {
    forall t | t in s.requests
      ensures RequestOk(s.requests, map[], s.announced, t)
    {
      assert RequestOk(s.requests, s.pending, s.announced, t);
    }
    FewerWait(s, s.(pending := map[]));
  }

  lemma {:induction false} AllBelow(s: Stream, token: nat)
    requires Core(s) && token in s.requests
    ensures token < s.nextToken
  {
    assert RequestOk(s.requests, s.pending, s.announced, token);
  }

  lemma {:induction false} FinishedGood(s: Stream, cause: PeerCause)
    requires Good(s)
    ensures Good(Finished(s, cause))
  {
    if !s.ended {
      var over := s.(ended := true, slots := [], resolving := map[]);
      forall c: ClientID
        ensures AtMostOne(over, c)
      {
        assert AtMostOne(s, c);
      }
      RequestsEndedCore(over, s.nextToken);
      RequestsEndedAll(over, s.nextToken);
      var told := RequestsEnded(over, s.nextToken);
      forall t | t in told.requests
        ensures !told.requests[t].state.Waiting?
      {
        AllBelow(s, t);
      }
      PendingAllGone(told);
      PeersEndedCore(told.(pending := map[]), cause, s.nextPeer);
      PeersEndedAll(told.(pending := map[]), cause, s.nextPeer);
      NoPeers(PeersEnded(told.(pending := map[]), cause, s.nextPeer));
    }
  }

  lemma {:induction false} NoPeers(s: Stream)
    requires Core(s) && forall c | c in s.peers :: s.peers[c] >= s.nextPeer
    ensures s.peers == map[]
  {
    if c :| c in s.peers {
      assert PeerKept(s.peers, s.allPeers, c);
      var ok := PeerOk(s.peers, s.allPeers, s.nextPeer, s.peers[c]);
    }
  }

  // ---- Runs ------------------------------------------------------------------------------------------

  lemma {:induction false} StepGood(s: Stream, op: Op, host: Host)
    requires Good(s)
    ensures Good(Step(s, op, host))
  {
    match op
    case Request(client, message) => RequestedGood(s, client, message, host);
    case LookupAnswers(token, viewer) => LookedUpGood(s, token, viewer, host);
    case DropPending(client) => PendingDroppedGood(s, client, host);
    case Gone(client) =>
      PendingDroppedGood(s, client, host);
      var dropped := PendingDropped(s, client, host);
      if client in dropped.peers {
        PeerEndedGood(dropped, dropped.peers[client], Left);
      }
    case Accept(token) => AcceptStartedGood(s, token);
    case AcceptFails(_, _) => AnsweredGood(s, op, host);
    case Deny(_) => AnsweredGood(s, op, host);
    case DenyFails(_) => AnsweredGood(s, op, host);
    case ClosePeer(peer) => PeerEndedGood(s, peer, ByUser);
    case Finish(cause) => FinishedGood(s, cause);
  }

  /** One operation, with what the host answers during it. */
  datatype Call = Call(op: Op, host: Host)

  function Run(calls: seq<Call>, n: nat): Stream
    requires n <= |calls|
  {
    if n == 0 then FRESH else Step(Run(calls, n - 1), calls[n - 1].op, calls[n - 1].host)
  }

  /** After any operations in any order: requests were announced in the order they came, a client
      has at most one of a peer, a slot and a waiting request, nothing that could be announced is
      stuck, and every request and peer that closed was told so exactly once. */
  lemma {:induction false} RunGood(calls: seq<Call>, n: nat)
    requires n <= |calls|
    ensures Good(Run(calls, n))
  {
    if n == 0 {
      assert One(FRESH) by {
        forall c: ClientID
          ensures AtMostOne(FRESH, c)
        {
        }
      }
    } else {
      RunGood(calls, n - 1);
      StepGood(Run(calls, n - 1), calls[n - 1].op, calls[n - 1].host);
    }
  }

  // ---- A request is answered once -------------------------------------------------------------------

  /** Request `t` is as it was, or its answer could not be sent, or it stopped waiting. */
  ghost predicate OnlyOnward(s: Stream, s': Stream, t: nat) {
    t in s.requests ==>
      && t in s'.requests
      && (s'.requests[t].state == s.requests[t].state
          || s.requests[t].state.Waiting?
          || ((s.requests[t].state.Accepted? || s.requests[t].state.Denied?) && s'.requests[t].state.Failed?))
  }

  lemma {:induction false} DrainedOnward(s: Stream, denied: set<Viewer>, t: nat)
    requires Base(s) && LookupsOut(s) && t in s.requests
    ensures t in Drained(s, denied).requests && Drained(s, denied).requests[t] == s.requests[t]
    decreases |s.slots|
  {
    if |s.slots| > 0 && !HeadWaits(s) {
      var head := At(s.slots, 0);
      assert Before(s.announced, head.token);
      NewToken(s, head.token);
      HeadTakenBase(s, denied);
      HeadTakenLookups(s, denied);
      DrainedOnward(HeadTaken(s, denied), denied, t);
    }
  }

  lemma {:induction false} AdvancedOnward(s: Stream, host: Host, t: nat)
    requires Base(s) && t in s.requests
    ensures t in Advanced(s, host).requests && Advanced(s, host).requests[t] == s.requests[t]
  {
    LookupsStart(s, host);
    DrainedOnward(s.(slots := AllLooked(s.slots, s.resolving, host.known)), host.denied, t);
  }

  lemma {:induction false} SlotsOnward(s: Stream, client: ClientID, host: Host, t: nat)
    requires Good(s) && client in s.resolving && t in s.requests
    ensures var open := Advanced(SlotDropped(s, client), host);
      t in open.requests && open.requests[t] == s.requests[t]
  {
    SlotDroppedBase(s, client);
    AdvancedOnward(SlotDropped(s, client), host, t);
  }

  lemma {:induction false} DroppedOnward(s: Stream, client: ClientID, host: Host, t: nat)
    requires Good(s)
    ensures OnlyOnward(s, PendingDropped(s, client, host), t)
  {
    if t in s.requests && client in s.resolving {
      SlotsOnward(s, client, host, t);
    }
  }

  lemma {:induction false} FinishedOnward(s: Stream, cause: PeerCause, t: nat)
    requires Good(s)
    ensures OnlyOnward(s, Finished(s, cause), t)
  {
    if !s.ended {
      var over := s.(ended := true, slots := [], resolving := map[]);
      RequestsEndedOnward(over, s.nextToken, t);
      PeersEndedOnward(RequestsEnded(over, s.nextToken).(pending := map[]), cause, s.nextPeer);
    }
  }

  lemma {:induction false} RequestsEndedOnward(s: Stream, n: nat, t: nat)
    ensures OnlyOnward(s, RequestsEnded(s, n), t)
  {
    if n > 0 {
      RequestsEndedOnward(s, n - 1, t);
    }
  }

  lemma {:induction false} PeersEndedOnward(s: Stream, cause: PeerCause, n: nat)
    ensures PeersEnded(s, cause, n).requests == s.requests
  {
    if n > 0 {
      PeersEndedOnward(s, cause, n - 1);
    }
  }

  lemma {:induction false} RequestedOnward(s: Stream, client: ClientID, message: string, host: Host, t: nat)
    requires Good(s)
    ensures OnlyOnward(s, Requested(s, client, message, host), t)
  {
    if t in s.requests && !(s.ended || client in s.peers || client in s.resolving || IsWaiting(s, client)) {
      RequestedBase(s, client, message);
      AdvancedOnward(s.(resolving := s.resolving[client := s.nextToken],
                        slots := s.slots + [Slot(s.nextToken, client, message, None, false)],
                        nextToken := s.nextToken + 1), host, t);
    }
  }

  lemma {:induction false} LookedUpOnward(s: Stream, token: nat, viewer: Viewer, host: Host, t: nat)
    requires Good(s)
    ensures OnlyOnward(s, LookedUp(s, token, viewer, host), t)
  {
    var i := SlotAt(s.slots, token, |s.slots|);
    if t in s.requests {
      if i >= 0 {
        AnsweredBase(s, i, viewer);
        AdvancedOnward(s.(slots := s.slots[i := s.slots[i].(looking := false, identity := Some(viewer))]), host, t);
      } else {
        AdvancedOnward(s, host, t);
      }
    }
  }

  lemma {:induction false} GoneOnward(s: Stream, client: ClientID, host: Host, t: nat)
    requires Good(s)
    ensures OnlyOnward(s, ViewerGone(s, client, host), t)
  {
    DroppedOnward(s, client, host, t);
  }

  lemma {:induction false} AnsweredOnward(s: Stream, op: Op, host: Host, t: nat)
    requires op.Accept? || op.AcceptFails? || op.Deny? || op.DenyFails? || op.ClosePeer?
    ensures OnlyOnward(s, Step(s, op, host), t)
  {
  }

  /** A request that was answered, withdrawn or ended never waits again, whatever comes next. */
  lemma {:induction false} LeavesOnce(s: Stream, op: Op, host: Host, t: nat)
    requires Good(s)
    ensures OnlyOnward(s, Step(s, op, host), t)
  {
    match op
    case Request(client, message) => RequestedOnward(s, client, message, host, t);
    case LookupAnswers(token, viewer) => LookedUpOnward(s, token, viewer, host, t);
    case DropPending(client) => DroppedOnward(s, client, host, t);
    case Gone(client) => GoneOnward(s, client, host, t);
    case Accept(_) => AnsweredOnward(s, op, host, t);
    case AcceptFails(_, _) => AnsweredOnward(s, op, host, t);
    case Deny(_) => AnsweredOnward(s, op, host, t);
    case DenyFails(_) => AnsweredOnward(s, op, host, t);
    case ClosePeer(_) => AnsweredOnward(s, op, host, t);
    case Finish(cause) => FinishedOnward(s, cause, t);
  }
}
