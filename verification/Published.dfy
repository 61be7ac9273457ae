/** One published stream: the line of requests whose senders are being looked up, the requests that
    were announced, and the peers. Requests are numbered by tokens in the order they come. */
module Published {
  import opened Wrappers

  type ClientID = nat

  datatype Viewer = Viewer(client: ClientID, uid: string)

  /** A place in the line. `looking` while the answer to its lookup is still to come. */
  datatype Slot = Slot(token: nat, client: ClientID, message: string, identity: Option<Viewer>, looking: bool)

  datatype RequestState = Waiting | Accepted | Denied | Failed | Withdrawn | Ended

  datatype JoinRequest = JoinRequest(client: ClientID, viewer: Viewer, message: string, state: RequestState)

  datatype PeerCause = ByUser | Left | Stopped | Disconnected | Disposed

  datatype Peer = Peer(client: ClientID, closed: bool)

  datatype Closing = Closing(token: nat, cause: RequestState)

  datatype PeerClosing = PeerClosing(peer: nat, cause: PeerCause)

  /** The last three are what listeners heard: requests announced, and requests and peers closed. */
  datatype Stream = Stream(
    ended: bool,
    peers: map<ClientID, nat>,
    pending: map<ClientID, nat>,
    resolving: map<ClientID, nat>,
    slots: seq<Slot>,
    closedViewers: seq<ClientID>,
    nextToken: nat,
    requests: map<nat, JoinRequest>,
    nextPeer: nat,
    allPeers: map<nat, Peer>,
    announced: seq<nat>,
    closings: seq<Closing>,
    peerClosings: seq<PeerClosing>)

  const FRESH := Stream(false, map[], map[], map[], [], [], 0, map[], 0, map[], [], [], [])

  /** What the host answers at once: who a client is, and whom it has denied before. */
  datatype Host = Host(known: map<ClientID, Viewer>, denied: set<Viewer>)

  const MAX_CLOSED := 1024

  // ---- Lookups and announcements --------------------------------------------------------------

  /** Whether a slot is its client's current request. */
  predicate Current(resolving: map<ClientID, nat>, slot: Slot) {
    slot.client in resolving && resolving[slot.client] == slot.token
  }

  function Looked(slot: Slot, resolving: map<ClientID, nat>, known: map<ClientID, Viewer>): Slot {
    if slot.identity.Some? || slot.looking || !Current(resolving, slot) then slot
    else if slot.client in known then slot.(identity := Some(known[slot.client]))
    else slot.(looking := true)
  }

  function AllLooked(slots: seq<Slot>, resolving: map<ClientID, nat>, known: map<ClientID, Viewer>): (r: seq<Slot>)
    ensures |r| == |slots|
  {
    seq(|slots|, i requires 0 <= i < |slots| => Looked(slots[i], resolving, known))
  }

  function Announced(s: Stream, slot: Slot, viewer: Viewer, denied: set<Viewer>): Stream {
    var gone := s.(resolving := s.resolving - {slot.client});
    if viewer in denied then gone
    else gone.(
      requests := s.requests[slot.token := JoinRequest(slot.client, viewer, slot.message, Waiting)],
      pending := s.pending[slot.client := slot.token],
      announced := s.announced + [slot.token])
  }

  /** The head of the line, announced if it still stands, and the line without it. */
  function HeadTaken(s: Stream, denied: set<Viewer>): Stream
    requires |s.slots| > 0 && (Current(s.resolving, s.slots[0]) && !s.ended ==> s.slots[0].identity.Some?)
  {
    var rest := s.(slots := s.slots[1..]);
    if Current(s.resolving, s.slots[0]) && !s.ended then Announced(rest, s.slots[0], s.slots[0].identity.value, denied)
    else rest
  }

  /** Whether the head waits for its lookup. */
  predicate HeadWaits(s: Stream)
    requires |s.slots| > 0
  {
    Current(s.resolving, s.slots[0]) && !s.ended && s.slots[0].identity.None?
  }

  function Drained(s: Stream, denied: set<Viewer>): Stream
    decreases |s.slots|
  {
    if |s.slots| == 0 || HeadWaits(s) then s else Drained(HeadTaken(s, denied), denied)
  }

  function Advanced(s: Stream, host: Host): Stream {
    Drained(s.(slots := AllLooked(s.slots, s.resolving, host.known)), host.denied)
  }

  // ---- The operations ----------------------------------------------------------------------------

  predicate IsWaiting(s: Stream, client: ClientID) {
    && client in s.pending && s.pending[client] in s.requests
    && s.requests[s.pending[client]].state.Waiting?
  }

  function Requested(s: Stream, client: ClientID, message: string, host: Host): Stream {
    if s.ended || client in s.peers || client in s.resolving || IsWaiting(s, client) then s
    else
      var slot := Slot(s.nextToken, client, message, None, false);
      Advanced(s.(resolving := s.resolving[client := s.nextToken], slots := s.slots + [slot],
                  nextToken := s.nextToken + 1), host)
  }

  function SlotAt(slots: seq<Slot>, token: nat, n: nat): (i: int)
    requires n <= |slots|
    ensures -1 <= i < n && (i >= 0 ==> slots[i].token == token)
    ensures i < 0 ==> forall j | 0 <= j < n :: slots[j].token != token
  {
    if n == 0 then -1 else if slots[n - 1].token == token then n - 1 else SlotAt(slots, token, n - 1)
  }

  /** The lookup made for a slot has answered; the slot may be gone by now. */
  function LookedUp(s: Stream, token: nat, viewer: Viewer, host: Host): Stream {
    var i := SlotAt(s.slots, token, |s.slots|);
    if i < 0 then Advanced(s, host)
    else Advanced(s.(slots := s.slots[i := s.slots[i].(looking := false, identity := Some(viewer))]), host)
  }

  function CloseRequest(s: Stream, token: nat, cause: RequestState): Stream {
    if token !in s.requests || !s.requests[token].state.Waiting? then s
    else
      s.(requests := s.requests[token := s.requests[token].(state := cause)],
         closings := s.closings + [Closing(token, cause)])
  }

  function SlotDropped(s: Stream, client: ClientID): Stream {
    if client !in s.resolving then s
    else
      var i := SlotAt(s.slots, s.resolving[client], |s.slots|);
      var gone := s.(resolving := s.resolving - {client});
      if i < 0 || s.slots[i].looking then gone else gone.(slots := s.slots[..i] + s.slots[i + 1..])
  }

  function PendingDropped(s: Stream, client: ClientID, host: Host): Stream {
    var open := if client in s.resolving then Advanced(SlotDropped(s, client), host) else s;
    if client !in open.pending then open
    else
      var closed := CloseRequest(open, open.pending[client], Withdrawn);
      closed.(pending := closed.pending - {client})
  }

  function Without(list: seq<ClientID>, client: ClientID, n: nat): seq<ClientID>
    requires n <= |list|
  {
    if n == 0 then []
    else if list[n - 1] == client then Without(list, client, n - 1)
    else Without(list, client, n - 1) + [list[n - 1]]
  }

  function ClosedAdded(list: seq<ClientID>, client: ClientID): seq<ClientID> {
    var added := if client in list then list else list + [client];
    if |added| > MAX_CLOSED then added[1..] else added
  }

  function PeerEnded(s: Stream, peer: nat, cause: PeerCause): Stream {
    if peer !in s.allPeers || s.allPeers[peer].closed then s
    else
      var client := s.allPeers[peer].client;
      var over := s.(allPeers := s.allPeers[peer := Peer(client, true)],
                     peerClosings := s.peerClosings + [PeerClosing(peer, cause)]);
      if client !in s.peers || s.peers[client] != peer then over
      else over.(peers := s.peers - {client}, closedViewers := ClosedAdded(s.closedViewers, client))
  }

  function ViewerGone(s: Stream, client: ClientID, host: Host): Stream {
    var dropped := PendingDropped(s, client, host);
    if client in dropped.peers then PeerEnded(dropped, dropped.peers[client], Left) else dropped
  }

  function ViewerOpened(s: Stream, client: ClientID): Stream {
    s.(closedViewers := Without(s.closedViewers, client, |s.closedViewers|),
       peers := s.peers[client := s.nextPeer],
       allPeers := s.allPeers[s.nextPeer := Peer(client, false)],
       nextPeer := s.nextPeer + 1)
  }

  function SetState(s: Stream, token: nat, state: RequestState): Stream
    requires token in s.requests
  {
    s.(requests := s.requests[token := s.requests[token].(state := state)])
  }

  /** A request answered with an offer. One that is not waiting is refused, and nothing changes. */
  function AcceptStarted(s: Stream, token: nat): Stream {
    if token !in s.requests || !s.requests[token].state.Waiting? then s
    else ViewerOpened(SetState(s, token, Accepted), s.requests[token].client)
  }

  function DenyStarted(s: Stream, token: nat): Stream {
    if token !in s.requests || !s.requests[token].state.Waiting? then s else SetState(s, token, Denied)
  }

  /** The offer of peer `peer`, made for request `token`, could not be sent. */
  function AcceptFailed(s: Stream, token: nat, peer: nat): Stream {
    if token !in s.requests || !s.requests[token].state.Accepted? then s
    else PeerEnded(SetState(s, token, Failed), peer, ByUser)
  }

  function DenyFailed(s: Stream, token: nat): Stream {
    if token !in s.requests || !s.requests[token].state.Denied? then s else SetState(s, token, Failed)
  }

  /** Of the requests kept, those with tokens below `n` closed, as the stream is over. */
  function RequestsEnded(s: Stream, n: nat): Stream {
    if n == 0 then s
    else
      var before := RequestsEnded(s, n - 1);
      if n - 1 in s.requests && s.requests[n - 1].client in s.pending && s.pending[s.requests[n - 1].client] == n - 1
        then CloseRequest(before, n - 1, Ended) else before
  }

  predicate IsOpen(all: map<nat, Peer>, open: map<ClientID, nat>, peer: nat) {
    peer in all && all[peer].client in open && open[all[peer].client] == peer
  }

  /** Of the peers kept, those numbered below `n` ended. */
  function PeersEnded(s: Stream, cause: PeerCause, n: nat): Stream {
    if n == 0 then s
    else
      var before := PeersEnded(s, cause, n - 1);
      if IsOpen(s.allPeers, s.peers, n - 1) then PeerEnded(before, n - 1, cause) else before
  }

  lemma {:induction false} PeersEndedNext(s: Stream, cause: PeerCause, n: nat)
    ensures PeersEnded(s, cause, n + 1) ==
            if IsOpen(s.allPeers, s.peers, n) then PeerEnded(PeersEnded(s, cause, n), n, cause) else PeersEnded(s, cause, n)
  {
  }

  function Finished(s: Stream, cause: PeerCause): Stream {
    if s.ended then s
    else
      var over := s.(ended := true, slots := [], resolving := map[]);
      PeersEnded(RequestsEnded(over, s.nextToken).(pending := map[]), cause, s.nextPeer)
  }

  datatype Op =
    | Request(client: ClientID, message: string)
    | LookupAnswers(token: nat, viewer: Viewer)
    | DropPending(client: ClientID)
    | Gone(client: ClientID)
    | Accept(token: nat)
    | AcceptFails(token: nat, peer: nat)
    | Deny(token: nat)
    | DenyFails(token: nat)
    | ClosePeer(peer: nat)
    | Finish(cause: PeerCause)

  function Step(s: Stream, op: Op, host: Host): Stream {
    match op
    case Request(client, message) => Requested(s, client, message, host)
    case LookupAnswers(token, viewer) => LookedUp(s, token, viewer, host)
    case DropPending(client) => PendingDropped(s, client, host)
    case Gone(client) => ViewerGone(s, client, host)
    case Accept(token) => AcceptStarted(s, token)
    case AcceptFails(token, peer) => AcceptFailed(s, token, peer)
    case Deny(token) => DenyStarted(s, token)
    case DenyFails(token) => DenyFailed(s, token)
    case ClosePeer(peer) => PeerEnded(s, peer, ByUser)
    case Finish(cause) => Finished(s, cause)
  }
}
