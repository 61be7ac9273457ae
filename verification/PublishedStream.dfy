/** The stream itself: each method is the step of `Published` it stands for. */
module PublishedStreams {
  import opened Wrappers
  import opened Published

  class PublishedStream {
    var ended: bool
    var peers: map<ClientID, nat>
    var pending: map<ClientID, nat>
    var resolving: map<ClientID, nat>
    var slots: seq<Slot>
    var closedViewers: seq<ClientID>
    var nextToken: nat
    var requests: map<nat, JoinRequest>
    var nextPeer: nat
    var allPeers: map<nat, Peer>
    /** What listeners heard. */
    var announced: seq<nat>
    var closings: seq<Closing>
    var peerClosings: seq<PeerClosing>

    ghost function Contents(): Stream
      reads this
    {
      Stream(ended, peers, pending, resolving, slots, closedViewers, nextToken, requests, nextPeer, allPeers,
             announced, closings, peerClosings)
    }

    constructor ()
      ensures Contents() == FRESH
    {
      ended, peers, pending, resolving, slots, closedViewers := false, map[], map[], map[], [], [];
      nextToken, requests, nextPeer, allPeers, announced, closings, peerClosings := 0, map[], 0, map[], [], [], [];
    }

    method Announce(slot: Slot, viewer: Viewer, denied: set<Viewer>)
      modifies this
      ensures Contents() == Announced(old(Contents()), slot, viewer, denied)
    {
      resolving := resolving - {slot.client};
      if viewer in denied {
        return;
      }
      requests := requests[slot.token := JoinRequest(slot.client, viewer, slot.message, Waiting)];
      pending := pending[slot.client := slot.token];
      announced := announced + [slot.token];
    }

    /** Starts the lookups of the slots that have none. */
    method StartLookups(known: map<ClientID, Viewer>)
      modifies this`slots
      ensures slots == AllLooked(old(slots), resolving, known)
    {
      for i := 0 to |slots|
        invariant |slots| == |old(slots)|
        invariant forall j | 0 <= j < i :: slots[j] == Looked(old(slots)[j], resolving, known)
        invariant forall j | i <= j < |slots| :: slots[j] == old(slots)[j]
      {
        var slot := slots[i];
        if slot.identity.Some? || slot.looking {
          continue;
        }
        if slot.client !in resolving || resolving[slot.client] != slot.token {
          continue;
        }
        if slot.client in known {
          slots := slots[i := slot.(identity := Some(known[slot.client]))];
          continue;
        }
        slots := slots[i := slot.(looking := true)];
      }
    }

    method Advance(host: Host)
      modifies this
      ensures Contents() == Advanced(old(Contents()), host)
    {
      StartLookups(host.known);
      ghost var looked := Contents();
      while |slots| > 0
        invariant Drained(Contents(), host.denied) == Drained(looked, host.denied)
        decreases |slots|
      {
        var head := slots[0];
        var current := head.client in resolving && resolving[head.client] == head.token && !ended;
        if current && head.identity.None? {
          break;
        }
        slots := slots[1..];
        if current {
          Announce(head, head.identity.value, host.denied);
        }
      }
    }

    method Request(client: ClientID, message: string, host: Host)
      modifies this
      ensures Contents() == Requested(old(Contents()), client, message, host)
    {
      if ended || client in peers || client in resolving {
        return;
      }
      if client in pending && pending[client] in requests && requests[pending[client]].state.Waiting? {
        return;
      }
      resolving := resolving[client := nextToken];
      slots := slots + [Slot(nextToken, client, message, None, false)];
      nextToken := nextToken + 1;
      Advance(host);
    }

    method LookupAnswers(token: nat, viewer: Viewer, host: Host)
      modifies this
      ensures Contents() == LookedUp(old(Contents()), token, viewer, host)
    {
      var i := SlotAt(slots, token, |slots|);
      if i >= 0 {
        slots := slots[i := slots[i].(looking := false, identity := Some(viewer))];
      }
      Advance(host);
    }

    method Close(token: nat, cause: RequestState)
      modifies this
      ensures Contents() == CloseRequest(old(Contents()), token, cause)
    {
      if token !in requests || !requests[token].state.Waiting? {
        return;
      }
      requests := requests[token := requests[token].(state := cause)];
      closings := closings + [Closing(token, cause)];
    }

    method DropSlot(client: ClientID)
      requires client in resolving
      modifies this
      ensures Contents() == SlotDropped(old(Contents()), client)
    {
      var i := SlotAt(slots, resolving[client], |slots|);
      resolving := resolving - {client};
      if i >= 0 && !slots[i].looking {
        slots := slots[..i] + slots[i + 1..];
      }
    }

    method DropPending(client: ClientID, host: Host)
      modifies this
      ensures Contents() == PendingDropped(old(Contents()), client, host)
    {
      if client in resolving {
        DropSlot(client);
        Advance(host);
      }
      if client in pending {
        Close(pending[client], Withdrawn);
        pending := pending - {client};
      }
    }

    method EndPeer(peer: nat, cause: PeerCause)
      modifies this
      ensures Contents() == PeerEnded(old(Contents()), peer, cause)
    {
      if peer !in allPeers || allPeers[peer].closed {
        return;
      }
      var client := allPeers[peer].client;
      allPeers := allPeers[peer := Peer(client, true)];
      if client in peers && peers[client] == peer {
        peers := peers - {client};
        if client !in closedViewers {
          closedViewers := closedViewers + [client];
        }
        if |closedViewers| > MAX_CLOSED {
          closedViewers := closedViewers[1..];
        }
      }
      peerClosings := peerClosings + [PeerClosing(peer, cause)];
    }

    method ViewerLeft(client: ClientID, host: Host)
      modifies this
      ensures Contents() == ViewerGone(old(Contents()), client, host)
    {
      DropPending(client, host);
      if client in peers {
        EndPeer(peers[client], Left);
      }
    }

    method OpenViewer(client: ClientID) returns (peer: nat)
      modifies this
      ensures Contents() == ViewerOpened(old(Contents()), client) && peer == old(nextPeer)
    {
      peer := nextPeer;
      nextPeer := nextPeer + 1;
      closedViewers := Without(closedViewers, client, |closedViewers|);
      peers := peers[client := peer];
      allPeers := allPeers[peer := Peer(client, false)];
    }

    /** Answers a request with an offer. The result says whether it could be answered. */
    method AcceptRequest(token: nat) returns (peer: Option<nat>)
      modifies this
      ensures Contents() == AcceptStarted(old(Contents()), token)
      ensures peer.Some? <==> token in old(requests) && old(requests)[token].state.Waiting?
    {
      peer := None;
      if token in requests && requests[token].state.Waiting? {
        requests := requests[token := requests[token].(state := Accepted)];
        var p := OpenViewer(requests[token].client);
        peer := Some(p);
      }
    }

    method Finish(cause: PeerCause)
      modifies this
      ensures Contents() == Finished(old(Contents()), cause)
    {
      if ended {
        return;
      }
      ended := true;
      slots := [];
      resolving := map[];
      EndRequests();
      pending := map[];
      EndPeers(cause);
    }

    method EndRequests()
      modifies this
      ensures Contents() == RequestsEnded(old(Contents()), old(nextToken))
      ensures pending == old(pending) && nextPeer == old(nextPeer)
    {
      var all := requests;
      for token := 0 to nextToken
        invariant Contents() == RequestsEnded(old(Contents()), token)
        invariant nextToken == old(nextToken) && pending == old(pending) && nextPeer == old(nextPeer)
      {
        if token in all && all[token].client in pending && pending[all[token].client] == token {
          Close(token, Ended);
        }
      }
    }

    method EndPeerIfOpen(peer: nat, cause: PeerCause, isOpen: bool)
      modifies this
      ensures Contents() == if isOpen then PeerEnded(old(Contents()), peer, cause) else old(Contents())
    {
      if isOpen {
        EndPeer(peer, cause);
      }
    }

    method EndPeers(cause: PeerCause)
      modifies this
      ensures Contents() == PeersEnded(old(Contents()), cause, old(nextPeer))
    {
      var all := allPeers;
      var open := peers;
      var last := nextPeer;
      ghost var before := Contents();
      assert before.allPeers == all && before.peers == open && before.nextPeer == last;
      for peer := 0 to last
        invariant Contents() == PeersEnded(before, cause, peer)
      {
        PeersEndedNext(before, cause, peer);
        EndPeerIfOpen(peer, cause, IsOpen(all, open, peer));
      }
    }
  }
}
