/** The store behind the view: each method is the step of `View` it stands for. */
module ViewStores {
  import opened Wrappers
  import opened Forest
  import opened ChannelTree
  import opened Preorder
  import V = View
  import TreeBuild
  import TreeDraft
  import TreeFromMethod

  class ViewStore {
    var status: V.Status
    var revision: nat
    var roster: V.Roster
    var tree: Tree
    var treeNo: nat
    var rows: seq<Channel>
    var known: V.Known
    var ordered: V.Ordered
    var announced: nat
    var reported: seq<nat>
    var waiters: set<nat>
    var nextWaiter: nat
    var settled: seq<V.Settled>

    ghost function Contents(): V.Store
      reads this
    {
      V.Store(status, revision, roster, tree, treeNo, rows, known, ordered, announced, reported, waiters, nextWaiter, settled)
    }

    constructor ()
      ensures Contents() == V.NEW
    {
      status, revision, roster, tree, treeNo, rows := V.Empty, 0, map[], V.NO_TREE, 0, [];
      known, ordered, announced, reported := V.Known(0, map[]), V.Ordered(0, []), 0, [];
      waiters, nextWaiter, settled := {}, 0, [];
    }

    method SetClient(id: nat, entry: V.Entry)
      modifies this
      ensures Contents() == V.ClientSet(old(Contents()), id, entry)
    {
      roster := roster[id := entry];
      revision := revision + 1;
    }

    method DeleteClient(id: nat) returns (had: bool)
      modifies this
      ensures Contents() == V.ClientDeleted(old(Contents()), id)
      ensures had <==> id in old(roster)
    {
      had := id in roster;
      if had {
        roster := roster - {id};
        revision := revision + 1;
      }
    }

    method ClearRoster()
      modifies this
      ensures Contents() == V.RosterCleared(old(Contents()))
    {
      if |roster| > 0 {
        roster := map[];
        revision := revision + 1;
      }
    }

    method SetTree(next: Tree)
      modifies this
      ensures Contents() == V.Treed(old(Contents()), next)
    {
      tree := next;
      treeNo := treeNo + 1;
    }

    method Reset()
      modifies this
      ensures Contents() == V.ResetFor(old(Contents()))
    {
      ClearRoster();
      rows := [];
      var none := TreeFromMethod.From([]);
      SetTree(none);
      status := V.Loading;
      revision := revision + 1;
    }

    method Collect(row: Channel)
      modifies this
      ensures status == V.Loading ==> Contents() == old(Contents()).(rows := old(rows) + [row])
      ensures status != V.Loading ==> Contents() == old(Contents())
    {
      if status == V.Loading {
        rows := rows + [row];
      }
    }

    method SettleWaiters(ready: bool)
      modifies this
      ensures Contents() == V.WaitersSettled(old(Contents()), ready)
    {
      var waiting := waiters;
      for id := 0 to nextWaiter
        invariant Contents() == old(Contents()).(settled := old(settled) + V.AllSettled(waiting, ready, id))
      {
        if id in waiting {
          settled := settled + [V.Settled(id, ready)];
        }
      }
      waiters := {};
    }

    method Report()
      modifies this
      ensures Contents() == V.Reported(old(Contents()))
    {
      announced := revision;
      reported := reported + [revision];
    }

    method GoLive()
      modifies this
      ensures Contents() == V.MadeLive(old(Contents()))
    {
      var built := TreeFromMethod.From(V.AllUncounted(rows));
      rows := [];
      SetTree(built);
      status := V.Live;
      revision := revision + 1;
    }

    method TellLive() returns (at: nat)
      modifies this
      ensures Contents() == V.Reported(V.MadeLive(old(Contents()))) && at == old(revision) + 1
    {
      GoLive();
      Report();
      at := revision;
    }

    /** The welcome is over: the revision the view became live at, if it was waiting for that. */
    method Finish() returns (at: Option<nat>)
      modifies this
      ensures Contents() == V.Finished(old(Contents()))
      ensures at == if old(status) == V.Loading then Some(old(revision) + 1) else None
    {
      if status != V.Loading {
        return None;
      }
      var now := TellLive();
      SettleWaiters(true);
      return Some(now);
    }

    method Change(e: Event)
      requires WellFormed(tree)
      modifies this
      ensures Contents() == V.Changed(old(Contents()), e)
    {
      if status == V.Live {
        var next := TreeDraft.Apply(tree, e);
        SetTree(next);
        revision := revision + 1;
      }
    }

    /** Forgets a channel's clients, those numbered below `ids`, but not this client. */
    method DropChannel(channel: Id, self: nat, ids: nat)
      modifies this
      ensures Contents() == V.ChannelDropped(old(Contents()), channel, self, ids)
    {
      var all := roster;
      for id := 0 to ids
        invariant Contents() == V.ChannelDropped(old(Contents()), channel, self, id)
      {
        if id in all && all[id].channel == channel && id != self {
          var had := DeleteClient(id);
        }
      }
    }

    method End()
      modifies this
      ensures Contents() == V.EndedNow(old(Contents()))
    {
      if status != V.Loading && status != V.Live {
        return;
      }
      status := V.Stale;
      revision := revision + 1;
      SettleWaiters(false);
    }

    method Announce() returns (at: Option<nat>)
      modifies this
      ensures Contents() == V.Announced(old(Contents()))
      ensures at == V.ToAnnounce(old(Contents()))
    {
      if status == V.Loading || status == V.Empty || revision == announced {
        return None;
      }
      Report();
      return Some(revision);
    }

    method WhenReady(aborted: bool) returns (id: nat)
      modifies this
      ensures Contents() == V.Waited(old(Contents()), aborted) && id == old(nextWaiter)
    {
      id := nextWaiter;
      nextWaiter := nextWaiter + 1;
      if aborted {
        settled := settled + [V.Settled(id, false)];
      } else if status == V.Live {
        settled := settled + [V.Settled(id, true)];
      } else if status == V.Stale {
        settled := settled + [V.Settled(id, false)];
      } else {
        waiters := waiters + {id};
      }
    }

    method AbortWaiter(id: nat)
      modifies this
      ensures Contents() == V.WaiterAborted(old(Contents()), id)
    {
      if id in waiters {
        waiters := waiters - {id};
        settled := settled + [V.Settled(id, false)];
      }
    }

    method Clients() returns (clients: V.Roster)
      modifies this
      ensures Contents() == V.ClientsRead(old(Contents())) && clients == known.clients
    {
      if known.revision != revision {
        known := V.Known(revision, roster);
      }
      clients := known.clients;
    }

    method Channels() returns (channels: seq<Id>)
      requires WellFormed(tree)
      modifies this
      ensures Contents() == V.ChannelsRead(old(Contents())) && channels == ordered.channels
    {
      if ordered.no != treeNo {
        var list := Walk(tree, TOP);
        ordered := V.Ordered(treeNo, list);
      }
      channels := ordered.channels;
    }
  }
}
