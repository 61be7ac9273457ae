/** What holds of a published stream after every operation, whatever the order the lookups answer
    in. */
module PublishedLaws {
  import opened Wrappers
  import opened Published

  // ---- The invariant ------------------------------------------------------------------------

  function At(slots: seq<Slot>, i: nat): Slot
    requires i < |slots|
  {
    slots[i]
  }

  ghost predicate InLine(slots: seq<Slot>) {
    forall i: nat, j: nat {:trigger At(slots, i), At(slots, j)} | i < j < |slots| :: At(slots, i).token < At(slots, j).token
  }

  ghost predicate InOrder(announced: seq<nat>) {
    forall i, j | 0 <= i < j < |announced| :: announced[i] < announced[j]
  }

  ghost predicate Before(announced: seq<nat>, token: nat) {
    forall k | 0 <= k < |announced| :: announced[k] < token
  }

  ghost predicate HasSlot(slots: seq<Slot>, resolving: map<ClientID, nat>, c: ClientID)
    requires c in resolving
  {
    exists i: nat {:trigger At(slots, i)} :: i < |slots| && At(slots, i).client == c && At(slots, i).token == resolving[c]
  }

  /** Slots stand in the order the requests came, behind all that were announced. */
  ghost predicate Line(slots: seq<Slot>, resolving: map<ClientID, nat>, announced: seq<nat>, next: nat) {
    && InLine(slots) && InOrder(announced) && Before(announced, next)
    && (forall i: nat {:trigger At(slots, i)} | i < |slots| ::
          At(slots, i).token < next && Before(announced, At(slots, i).token))
    && (forall c {:trigger HasSlot(slots, resolving, c)} | c in resolving :: HasSlot(slots, resolving, c))
  }

  ghost predicate RequestOk(requests: map<nat, JoinRequest>, pending: map<ClientID, nat>, announced: seq<nat>, t: nat)
    requires t in requests
  {
    && t in announced
    && (requests[t].state.Waiting? ==> requests[t].client in pending && pending[requests[t].client] == t)
  }

  ghost predicate PendingOk(requests: map<nat, JoinRequest>, pending: map<ClientID, nat>, c: ClientID)
    requires c in pending
  {
    pending[c] in requests && requests[pending[c]].client == c
  }

  /** The requests that wait are those kept as their client's. */
  ghost predicate Asked(requests: map<nat, JoinRequest>, pending: map<ClientID, nat>, announced: seq<nat>) {
    && (forall t {:trigger RequestOk(requests, pending, announced, t)} | t in requests ::
          RequestOk(requests, pending, announced, t))
    && (forall c {:trigger PendingOk(requests, pending, c)} | c in pending :: PendingOk(requests, pending, c))
  }

  ghost predicate IsClosed(requests: map<nat, JoinRequest>, closings: seq<Closing>, i: nat)
    requires i < |closings|
  {
    && closings[i].token in requests && requests[closings[i].token].state == closings[i].cause
    && (closings[i].cause.Withdrawn? || closings[i].cause.Ended?)
  }

  ghost predicate TokenTold(closings: seq<Closing>, t: nat) {
    exists i | 0 <= i < |closings| :: closings[i].token == t
  }

  /** Each request that was withdrawn or ended was told so once, and no other was. */
  ghost predicate Told(requests: map<nat, JoinRequest>, closings: seq<Closing>) {
    && (forall i: nat {:trigger IsClosed(requests, closings, i)} | i < |closings| :: IsClosed(requests, closings, i))
    && (forall i, j | 0 <= i < j < |closings| :: closings[i].token != closings[j].token)
    && (forall t {:trigger TokenTold(closings, t)} | t in requests && (requests[t].state.Withdrawn? || requests[t].state.Ended?) ::
          TokenTold(closings, t))
  }

  ghost predicate PeerOk(peers: map<ClientID, nat>, allPeers: map<nat, Peer>, next: nat, p: nat)
    requires p in allPeers
  {
    p < next && (!allPeers[p].closed ==> allPeers[p].client in peers && peers[allPeers[p].client] == p)
  }

  ghost predicate PeerKept(peers: map<ClientID, nat>, allPeers: map<nat, Peer>, c: ClientID)
    requires c in peers
  {
    peers[c] in allPeers && allPeers[peers[c]] == Peer(c, false)
  }

  /** The peers kept are the open ones. */
  ghost predicate LetIn(peers: map<ClientID, nat>, allPeers: map<nat, Peer>, next: nat) {
    && (forall p {:trigger PeerOk(peers, allPeers, next, p)} | p in allPeers :: PeerOk(peers, allPeers, next, p))
    && (forall c {:trigger PeerKept(peers, allPeers, c)} | c in peers :: PeerKept(peers, allPeers, c))
  }

  ghost predicate PeerTold(closings: seq<PeerClosing>, p: nat) {
    exists i | 0 <= i < |closings| :: closings[i].peer == p
  }

  /** Each peer that is closed was told so once, and no other was. */
  ghost predicate PeersTold(allPeers: map<nat, Peer>, closings: seq<PeerClosing>) {
    && (forall i | 0 <= i < |closings| :: closings[i].peer in allPeers && allPeers[closings[i].peer].closed)
    && (forall i, j | 0 <= i < j < |closings| :: closings[i].peer != closings[j].peer)
    && (forall p {:trigger PeerTold(closings, p)} | p in allPeers && allPeers[p].closed :: PeerTold(closings, p))
  }

  /** A client has at most one of a peer, a slot and a waiting request. */
  ghost predicate AtMostOne(s: Stream, c: ClientID) {
    && !(c in s.peers && c in s.resolving)
    && !(c in s.peers && IsWaiting(s, c))
    && !(c in s.resolving && IsWaiting(s, c))
  }

  ghost predicate One(s: Stream) {
    forall c: ClientID {:trigger AtMostOne(s, c)} :: AtMostOne(s, c)
  }

  ghost predicate OverIsEmpty(s: Stream) {
    s.ended ==> s.slots == [] && s.resolving == map[] && s.pending == map[] && s.peers == map[]
  }

  /** All the rules but that a stream that is over holds nothing. */
  ghost predicate Core(s: Stream) {
    && Line(s.slots, s.resolving, s.announced, s.nextToken)
    && Asked(s.requests, s.pending, s.announced)
    && Told(s.requests, s.closings)
    && LetIn(s.peers, s.allPeers, s.nextPeer)
    && PeersTold(s.allPeers, s.peerClosings)
    && One(s)
    && |s.closedViewers| <= MAX_CLOSED
  }

  ghost predicate Base(s: Stream) {
    Core(s) && OverIsEmpty(s)
  }

  /** Every current slot has its answer or its lookup is out. */
  ghost predicate LookupsOut(s: Stream) {
    forall i: nat {:trigger At(s.slots, i)} | i < |s.slots| && Current(s.resolving, At(s.slots, i)) ::
      At(s.slots, i).identity.Some? || At(s.slots, i).looking
  }

  /** Nothing that could be announced is left waiting: the head, if any, is its client's request
      and its lookup is still out. */
  ghost predicate NothingStuck(s: Stream) {
    |s.slots| > 0 ==> HeadWaits(s) && s.slots[0].looking
  }

  ghost predicate Good(s: Stream) {
    Base(s) && LookupsOut(s) && NothingStuck(s)
  }

  // ---- Announcing ------------------------------------------------------------------------------

  lemma {:induction false} TailAt(slots: seq<Slot>, i: nat)
    requires i + 1 < |slots|
    ensures At(slots[1..], i) == At(slots, i + 1)
  {
  }

  /** The line without its head, and without its head's client when it is that client's. */
  lemma {:induction false} LineTail(slots: seq<Slot>, resolving: map<ClientID, nat>, announced: seq<nat>, next: nat)
    requires Line(slots, resolving, announced, next) && |slots| > 0
    ensures Current(resolving, slots[0]) ==>
      Line(slots[1..], resolving - {slots[0].client}, announced + [slots[0].token], next)
      && Line(slots[1..], resolving - {slots[0].client}, announced, next)
    ensures !Current(resolving, slots[0]) ==> Line(slots[1..], resolving, announced, next)
  {
    var head := At(slots, 0);
    var resolving' := if Current(resolving, head) then resolving - {head.client} else resolving;
    var announced' := announced + [head.token];
    forall i: nat | i < |slots| - 1
      ensures At(slots[1..], i).token < next
      ensures Before(announced', At(slots[1..], i).token) && Before(announced, At(slots[1..], i).token)
    {
      TailAt(slots, i);
      assert Before(announced, At(slots, i + 1).token);
      assert At(slots, i + 1).token > head.token;
    }
    forall c | c in resolving'
      ensures HasSlot(slots[1..], resolving', c)
    {
      assert HasSlot(slots, resolving, c);
      var i: nat :| i < |slots| && At(slots, i).client == c && At(slots, i).token == resolving[c];
      assert i > 0;
      TailAt(slots, i - 1);
    }
    forall i: nat, j: nat | i < j < |slots| - 1
      ensures At(slots[1..], i).token < At(slots[1..], j).token
    {
      TailAt(slots, i);
      TailAt(slots, j);
    }
  }

  /** A token not announced yet names no request. */
  lemma {:induction false} NewToken(s: Stream, token: nat)
    requires Asked(s.requests, s.pending, s.announced) && Before(s.announced, token)
    ensures token !in s.requests
  {
    if token in s.requests {
      var ok := RequestOk(s.requests, s.pending, s.announced, token);
    }
  }

  lemma {:induction false} AskedMore(s: Stream, slot: Slot, viewer: Viewer)
    requires Asked(s.requests, s.pending, s.announced) && Told(s.requests, s.closings)
    requires slot.token !in s.requests && !IsWaiting(s, slot.client)
    ensures var requests := s.requests[slot.token := JoinRequest(slot.client, viewer, slot.message, Waiting)];
      && Asked(requests, s.pending[slot.client := slot.token], s.announced + [slot.token])
      && Told(requests, s.closings)
  {
    var requests := s.requests[slot.token := JoinRequest(slot.client, viewer, slot.message, Waiting)];
    var pending := s.pending[slot.client := slot.token];
    var announced := s.announced + [slot.token];
    assert announced[|s.announced|] == slot.token;
    forall t | t in requests
      ensures RequestOk(requests, pending, announced, t)
    {
      if t != slot.token {
        assert RequestOk(s.requests, s.pending, s.announced, t);
      }
    }
    forall c | c in pending
      ensures PendingOk(requests, pending, c)
    {
      if c != slot.client {
        assert PendingOk(s.requests, s.pending, c);
      }
    }
    forall i: nat | i < |s.closings|
      ensures IsClosed(requests, s.closings, i)
    {
      assert IsClosed(s.requests, s.closings, i);
    }
    forall t | t in requests && (requests[t].state.Withdrawn? || requests[t].state.Ended?)
      ensures TokenTold(s.closings, t)
    {
      assert t in s.requests;
    }
  }

  lemma {:induction false} WaitingOnly(s: Stream, s': Stream, client: ClientID)
    requires Base(s) && s'.peers == s.peers && s'.resolving == s.resolving - {client} && client !in s.peers
    requires forall c: ClientID | c != client :: IsWaiting(s', c) == IsWaiting(s, c)
    ensures One(s')
  {
    forall c: ClientID
      ensures AtMostOne(s', c)
    {
      assert AtMostOne(s, c);
    }
  }

  lemma {:induction false} AnnouncedBase(s: Stream, head: Slot, viewer: Viewer, slots: seq<Slot>, denied: set<Viewer>)
    requires Base(s) && !s.ended && Current(s.resolving, head) && Before(s.announced, head.token)
    requires Line(slots, s.resolving - {head.client}, s.announced + [head.token], s.nextToken)
    requires Line(slots, s.resolving - {head.client}, s.announced, s.nextToken)
    ensures Base(Announced(s.(slots := slots), head, viewer, denied))
  {
    var s' := Announced(s.(slots := slots), head, viewer, denied);
    assert AtMostOne(s, head.client);
    NewToken(s, head.token);
    AskedMore(s, head, viewer);
    forall c: ClientID | c != head.client
      ensures IsWaiting(s', c) == IsWaiting(s, c)
    {
      if c in s.pending {
        assert PendingOk(s.requests, s.pending, c);
      }
    }
    WaitingOnly(s, s', head.client);
  }

  lemma {:induction false} HeadTakenBase(s: Stream, denied: set<Viewer>)
    requires Base(s) && |s.slots| > 0 && !HeadWaits(s)
    ensures Base(HeadTaken(s, denied))
  {
    var head := At(s.slots, 0);
    LineTail(s.slots, s.resolving, s.announced, s.nextToken);
    if Current(s.resolving, head) {
      AnnouncedBase(s, head, head.identity.value, s.slots[1..], denied);
    } else {
      BaseWithSlots(s, s.slots[1..]);
    }
  }

  lemma {:induction false} HeadTakenLookups(s: Stream, denied: set<Viewer>)
    requires Base(s) && LookupsOut(s) && |s.slots| > 0 && !HeadWaits(s)
    ensures LookupsOut(HeadTaken(s, denied))
  {
    var s' := HeadTaken(s, denied);
    forall i: nat | i < |s'.slots| && Current(s'.resolving, At(s'.slots, i))
      ensures At(s'.slots, i).identity.Some? || At(s'.slots, i).looking
    {
      TailAt(s.slots, i);
      assert Current(s.resolving, At(s.slots, i + 1));
    }
  }

  /** Announcing what can be announced keeps the rules and leaves nothing stuck. */
  lemma {:induction false} DrainedGood(s: Stream, denied: set<Viewer>)
    requires Base(s) && LookupsOut(s)
    ensures Good(Drained(s, denied))
    decreases |s.slots|
  {
    if |s.slots| == 0 {
    } else if HeadWaits(s) {
      assert Current(s.resolving, At(s.slots, 0));
    } else {
      HeadTakenBase(s, denied);
      HeadTakenLookups(s, denied);
      DrainedGood(HeadTaken(s, denied), denied);
    }
  }

  lemma {:induction false} SameLine(
      slots: seq<Slot>, slots': seq<Slot>, resolving: map<ClientID, nat>, announced: seq<nat>, next: nat)
    requires Line(slots, resolving, announced, next) && |slots'| == |slots|
    requires forall i: nat {:trigger At(slots', i)} | i < |slots| ::
      At(slots', i).token == At(slots, i).token && At(slots', i).client == At(slots, i).client
    ensures Line(slots', resolving, announced, next)
  {
    forall i: nat | i < |slots'|
      ensures At(slots', i).token < next && Before(announced, At(slots', i).token)
    {
      assert At(slots', i).token == At(slots, i).token;
    }
    forall c | c in resolving
      ensures HasSlot(slots', resolving, c)
    {
      assert HasSlot(slots, resolving, c);
      var i: nat :| i < |slots| && At(slots, i).client == c && At(slots, i).token == resolving[c];
      assert At(slots', i).client == c;
    }
    forall i: nat, j: nat | i < j < |slots'|
      ensures At(slots', i).token < At(slots', j).token
    {
      assert At(slots, i).token < At(slots, j).token;
    }
  }

  lemma {:induction false} BaseWithSlots(s: Stream, slots: seq<Slot>)
    requires Base(s) && Line(slots, s.resolving, s.announced, s.nextToken) && (s.ended ==> slots == [])
    ensures Base(s.(slots := slots))
  {
    forall c: ClientID
      ensures AtMostOne(s.(slots := slots), c)
    {
      assert AtMostOne(s, c);
    }
  }

  lemma {:induction false} LookupsStart(s: Stream, host: Host)
    requires Base(s)
    ensures Base(s.(slots := AllLooked(s.slots, s.resolving, host.known)))
    ensures LookupsOut(s.(slots := AllLooked(s.slots, s.resolving, host.known)))
  {
    var slots := AllLooked(s.slots, s.resolving, host.known);
    forall i: nat | i < |s.slots|
      ensures At(slots, i) == Looked(At(s.slots, i), s.resolving, host.known)
    {
    }
    SameLine(s.slots, slots, s.resolving, s.announced, s.nextToken);
    BaseWithSlots(s, slots);
  }

  lemma {:induction false} AdvancedGood(s: Stream, host: Host)
    requires Base(s)
    ensures Good(Advanced(s, host))
  {
    LookupsStart(s, host);
    DrainedGood(s.(slots := AllLooked(s.slots, s.resolving, host.known)), host.denied);
  }

  // ---- The operations ------------------------------------------------------------------------------

  lemma {:induction false} LineMore(
      slots: seq<Slot>, resolving: map<ClientID, nat>, announced: seq<nat>, next: nat, client: ClientID, message: string)
    requires Line(slots, resolving, announced, next) && client !in resolving
    ensures Line(slots + [Slot(next, client, message, None, false)], resolving[client := next], announced, next + 1)
  {
    var slots' := slots + [Slot(next, client, message, None, false)];
    var resolving' := resolving[client := next];
    forall i: nat | i < |slots'|
      ensures At(slots', i).token < next + 1 && Before(announced, At(slots', i).token)
    {
      if i < |slots| {
        assert At(slots', i) == At(slots, i);
      }
    }
    forall c | c in resolving'
      ensures HasSlot(slots', resolving', c)
    {
      if c == client {
        assert At(slots', |slots|).client == c;
      } else {
        assert HasSlot(slots, resolving, c);
        var i: nat :| i < |slots| && At(slots, i).client == c && At(slots, i).token == resolving[c];
        assert At(slots', i).client == c;
      }
    }
    forall i: nat, j: nat | i < j < |slots'|
      ensures At(slots', i).token < At(slots', j).token
    {
      assert At(slots', i) == At(slots, i);
      if j < |slots| {
        assert At(slots', j) == At(slots, j);
      }
    }
  }

  lemma {:induction false} RequestedBase(s: Stream, client: ClientID, message: string)
    requires Base(s) && !s.ended && client !in s.peers && client !in s.resolving && !IsWaiting(s, client)
    ensures Base(s.(resolving := s.resolving[client := s.nextToken],
                    slots := s.slots + [Slot(s.nextToken, client, message, None, false)], nextToken := s.nextToken + 1))
  {
    var s' := s.(resolving := s.resolving[client := s.nextToken],
                 slots := s.slots + [Slot(s.nextToken, client, message, None, false)], nextToken := s.nextToken + 1);
    LineMore(s.slots, s.resolving, s.announced, s.nextToken, client, message);
    forall c: ClientID
      ensures AtMostOne(s', c)
    {
      assert AtMostOne(s, c);
    }
  }

  lemma {:induction false} RequestedGood(s: Stream, client: ClientID, message: string, host: Host)
    requires Good(s)
    ensures Good(Requested(s, client, message, host))
  {
    if !(s.ended || client in s.peers || client in s.resolving || IsWaiting(s, client)) {
      RequestedBase(s, client, message);
      AdvancedGood(s.(resolving := s.resolving[client := s.nextToken],
                      slots := s.slots + [Slot(s.nextToken, client, message, None, false)], nextToken := s.nextToken + 1), host);
    }
  }

  lemma {:induction false} AnsweredBase(s: Stream, i: nat, viewer: Viewer)
    requires Base(s) && i < |s.slots|
    ensures Base(s.(slots := s.slots[i := s.slots[i].(looking := false, identity := Some(viewer))]))
  {
    var slots := s.slots[i := s.slots[i].(looking := false, identity := Some(viewer))];
    SameLine(s.slots, slots, s.resolving, s.announced, s.nextToken);
    BaseWithSlots(s, slots);
  }

  lemma {:induction false} LookedUpGood(s: Stream, token: nat, viewer: Viewer, host: Host)
    requires Good(s)
    ensures Good(LookedUp(s, token, viewer, host))
  {
    var i := SlotAt(s.slots, token, |s.slots|);
    if i < 0 {
      AdvancedGood(s, host);
    } else {
      AnsweredBase(s, i, viewer);
      AdvancedGood(s.(slots := s.slots[i := s.slots[i].(looking := false, identity := Some(viewer))]), host);
    }
  }
}
