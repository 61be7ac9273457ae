/** The registry itself: each method is the step of `Streams` it stands for. */
module StreamRegistries {
  import opened Wrappers
  import S = Streams

  class StreamRegistry {
    var known: S.Known
    var watches: S.Watches
    var published: S.Published

    ghost function Contents(): S.Registry
      reads this
    {
      S.Registry(known, watches, published)
    }

    constructor ()
      ensures Contents() == S.NEW
    {
      known := S.Known(map[], [], [], []);
      watches := S.Watches(map[], [], [], {}, [], [], [], map[], []);
      published := S.Published(map[], [], []);
    }

    method Learn(info: S.Info)
      modifies this`known
      ensures Contents() == S.Next(old(Contents()), S.Learn(info))
    {
      if info.id in known.orphans {
        return;
      }
      var before := if info.id in known.infos then Some(known.infos[info.id]) else None;
      known := known.(infos := known.infos[info.id := info]);
      if before.None? {
        known := known.(events := known.events + [S.StreamStarted(info)]);
      } else if before.value != info {
        known := known.(events := known.events + [S.StreamUpdated(info)]);
      } else {
        assert known.infos == old(known).infos;
      }
    }

    method EndView(no: nat)
      modifies this`watches
      ensures watches == S.ViewEnded(old(watches), no)
    {
      if no !in watches.open || no >= |watches.ids| {
        return;
      }
      var id := watches.ids[no];
      watches := watches.(open := watches.open - {no}, viewEnds := watches.viewEnds + [no],
                          closedViews := S.Remembered(watches.closedViews, id, S.MAX_CLOSED_VIEWS));
      if id in watches.watching && watches.watching[id].no == no {
        watches := watches.(watching := watches.watching - {id});
      }
    }

    method EndWatch(id: string, result: S.Result)
      requires id in watches.watching
      modifies this`watches
      ensures watches == S.WatchOver(old(watches), id, result)
    {
      var no := watches.watching[id].no;
      watches := watches.(watching := watches.watching - {id}, outcomes := watches.outcomes + [S.Outcome(no, result)]);
    }

    method EndWatched(id: string)
      modifies this`watches
      ensures watches == S.WatchedOver(old(watches), id)
    {
      if id in watches.watching {
        var watch := watches.watching[id];
        if watch.joined {
          watches := watches.(watching := watches.watching - {id});
          EndView(watch.no);
        } else {
          EndWatch(id, S.StreamOver);
        }
      }
    }

    method EndPublished(id: string)
      modifies this`published
      ensures published == S.PublishedOver(old(published), id)
    {
      if id in published.published {
        var no := published.published[id];
        published := published.(published := published.published - {id}, ends := published.ends + [no]);
      }
    }

    method End(id: string, cause: S.Cause, reason: nat)
      modifies this
      ensures Contents() == S.StreamEnded(old(Contents()), id, cause, reason)
    {
      if cause != S.Gone {
        known := known.(stopped := S.Remembered(known.stopped, id, S.MAX_STOPPED));
      }
      var info := if id in known.infos then Some(known.infos[id]) else None;
      known := known.(infos := known.infos - {id});
      EndPublished(id);
      EndWatched(id);
      if info.Some? {
        known := known.(events := known.events + [S.StreamStopped(info.value, cause, reason)]);
      } else {
        assert known.infos == old(known).infos;
      }
    }

    method Orphan(id: string)
      modifies this
      ensures Contents() == S.Orphaned(old(Contents()), id)
    {
      known := known.(orphans := S.Added(known.orphans, id, S.MAX_ORPHANS));
      End(id, S.Stopped, 0);
    }

    /** The server's answer to a `publish`, which may have been `abandoned` before it came. */
    method Setup(info: S.Info, abandoned: bool)
      modifies this
      ensures Contents() == S.Next(old(Contents()), S.SetupAnswered(info, abandoned))
    {
      if abandoned {
        Orphan(info.id);
        return;
      }
      if info.id in known.stopped {
        return;
      }
      Learn(info);
      if info.id !in published.published {
        published := published.(published := published.published[info.id := |published.ids|], ids := published.ids + [info.id]);
      }
    }

    /** A request to watch; the number of the watch, unless the stream is watched already. */
    method Watch(id: string) returns (no: Option<nat>)
      modifies this`watches
      ensures Contents() == S.Next(old(Contents()), S.WatchAsked(id))
      ensures no.None? <==> id in old(watches).watching
    {
      if id in watches.watching {
        return None;
      }
      no := Some(|watches.ids|);
      watches := watches.(watching := watches.watching[id := S.Watch(|watches.ids|, [], false)],
                          ids := watches.ids + [id],
                          closedViews := S.Without(watches.closedViews, id, |watches.closedViews|));
    }

    method OnRespond(id: string, accepted: bool, offer: string)
      modifies this`watches
      ensures Contents() == S.Next(old(Contents()), S.WatchAnswered(id, accepted, offer))
    {
      if id !in watches.watching || watches.watching[id].joined {
        return;
      }
      if !accepted {
        EndWatch(id, S.Denied);
        return;
      }
      if offer == "" {
        EndWatch(id, S.NoOffer);
        return;
      }
      var watch := watches.watching[id];
      watches := watches.(open := watches.open + {watch.no},
                          delivered := watches.delivered + S.SignalsOf(watch.no, watch.early),
                          watching := watches.watching[id := S.Watch(watch.no, [], true)],
                          outcomes := watches.outcomes + [S.Outcome(watch.no, S.Joined)]);
    }

    method OnSignaling(id: string, json: string)
      modifies this`watches
      ensures Contents() == S.Next(old(Contents()), S.SignalCame(id, json))
    {
      if id !in watches.watching {
        return;
      }
      var watch := watches.watching[id];
      watches := watches.(arrived := watches.arrived + [S.Signal(watch.no, json)]);
      if watch.joined {
        if watch.no in watches.open {
          watches := watches.(delivered := watches.delivered + [S.Signal(watch.no, json)]);
        }
        return;
      }
      var early := watch.early + [json];
      if |early| > S.MAX_EARLY_SIGNALS {
        early := early[1..];
      }
      watches := watches.(watching := watches.watching[id := watch.(early := early)],
                          soon := watches.soon[watch.no := S.Soon(watches, watch.no) + 1]);
    }

    method ResetWatches()
      modifies this`watches
      ensures watches == S.WatchesOver(old(watches), |old(watches).ids|).(closedViews := [])
    {
      for no := 0 to |watches.ids|
        invariant watches == S.WatchesOver(old(watches), no) && watches.ids == old(watches).ids
      {
        var id := watches.ids[no];
        if id in watches.watching && watches.watching[id].no == no {
          if watches.watching[id].joined {
            watches := watches.(watching := watches.watching - {id});
            EndView(no);
          } else {
            EndWatch(id, S.GaveUp);
          }
        }
      }
      watches := watches.(closedViews := []);
    }

    method ResetPublished()
      modifies this`published
      ensures published == S.PublishedAllOver(old(published), |old(published).ids|)
    {
      for no := 0 to |published.ids|
        invariant published == S.PublishedAllOver(old(published), no) && published.ids == old(published).ids
      {
        var id := published.ids[no];
        if id in published.published && published.published[id] == no {
          EndPublished(id);
        }
      }
    }

    /** The connection is over. */
    method Reset()
      modifies this
      ensures Contents() == S.Next(old(Contents()), S.Reset)
    {
      known := S.Known(map[], [], [], known.events + [S.AllForgotten]);
      ResetPublished();
      ResetWatches();
    }
  }
}
