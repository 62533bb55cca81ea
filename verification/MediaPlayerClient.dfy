/** The MSE media player client itself: an object whose methods update its fields in the
    event loop.  Each method is proved against the step function of ClientModel, and a
    valid object is always the result of a run, so every run theorem holds of it. */
module MediaPlayerClientObject {
  import opened ClientModel
  import ClientBarrier
  import ClientCommands
  import ClientDutyTheorems
  import ClientEos
  import ClientHistory
  import ClientReport
  import Sync = FlushAndDataSynchronizer
  import D = PullModeDelegate
  import P = PullModel

  class MediaPlayerClient {
    var clientState: ClientState
    var sources: Sources
    var serverState: PlaybackState
    var wasPlayingBeforeEos: bool
    var allAttachedSent: bool
    var audioStreams: int
    var videoStreams: int
    var subtitleStreams: int
    const sync: Sync.Synchronizer

    ghost var events: seq<Event>
    ghost var log: seq<Entry>

    ghost function View(): State
      reads this
    {
      State(clientState, sources, serverState, wasPlayingBeforeEos, allAttachedSent,
            audioStreams, videoStreams, subtitleStreams)
    }

    /** The object is where its events have brought it. */
    ghost predicate Valid()
      reads this
    {
      Run(events) == History(View(), log)
    }

    constructor ()
      ensures Valid() && events == [] && fresh(sync) && sync.Valid() && sync.states == map[]
    {
      sync := new Sync.Synchronizer();
      clientState, sources, serverState := Idle, map[], SrvIdle;
      wasPlayingBeforeEos, allAttachedSent := false, false;
      audioStreams, videoStreams, subtitleStreams := UNKNOWN_STREAMS, UNKNOWN_STREAMS, UNKNOWN_STREAMS;
      events, log := [], [];
    }

    /** What a sink or an application may rely on in every reachable state. */
    lemma Guarantees()
      requires Valid()
      ensures ClientBarrier.Barriers(log)
      ensures ClientCommands.ToldAtMostOnce(log) && ClientCommands.ToldWithCounts(log, View())
      ensures ClientCommands.QuietStart(log) ==>
                ClientCommands.PausedBetweenPlays(log) && ClientCommands.CommandsAfterAttached(log)
      ensures ClientCommands.QuietStart(log) ==>
                && ClientHistory.PausedBeforePlays(log) && ClientHistory.PlayAskedBetweenPauses(log)
                && ClientHistory.PausedBetweenFlushAndPlay(log)
      ensures wasPlayingBeforeEos <==> ClientEos.EndedWhilePlaying(log)
    {
      if ClientCommands.QuietStart(log) {
        ClientDutyTheorems.CommandsAreSpaced(events);
      }
      ClientBarrier.BarriersHoldInEveryRun(events);
      ClientCommands.InvInEveryRun(events);
      ClientEos.EosFlagIsHistory(events);
    }

    /** Adds the event that has just been carried out from `st` and `before` to the history. */
    ghost method Record(e: Event, st: State, before: seq<Entry>)
      requires Run(events) == History(st, before)
      requires View() == Step(st, e).state && log == before + Step(st, e).log
      modifies this`events
      ensures Valid() && events == old(events) + [e]
    {
      RunGrows(events, e);
      events := events + [e];
    }

    /** The body of play, run inline in the event loop. */
    method PlayInLoop(id: int, async: bool) returns (reply: Reply)
      modifies this
      ensures var o := PlayStep(old(View()), id, async);
              View() == o.state && log == old(log) + o.log && reply == o.reply
      ensures events == old(events)
    {
      if id !in sources {
        return NotAttached;
      }
      log := log + [AskedPlay(id)];
      if serverState.SrvPlaying? || (serverState.SrvEndOfStream? && wasPlayingBeforeEos) {
        sources := sources[id := sources[id].(state := Playing)];
        if AllIn(sources, {Playing}) {
          clientState := Playing;
        }
        return SuccessSync;
      }
      sources := sources[id := sources[id].(state := AwaitingPlaying)];
      if clientState.Paused? {
        if AllIn(sources, {AwaitingPlaying, Playing}) {
          log := log + [SentPlay];
          clientState := AwaitingPlaying;
          if !async {
            log := log + [PostedPlaying];
            return SuccessSync;
          }
        }
      }
      sources := sources[id := sources[id].(sink := sources[id].sink.(commitNeeded := true))];
      reply := SuccessAsync;
    }

    method Play(id: int, async: bool) returns (reply: Reply)
      requires Valid()
      modifies this
      ensures Valid() && events == old(events) + [Event.Play(id, async)]
      ensures reply == PlayStep(old(View()), id, async).reply
      ensures id in old(sources) ==>
                old(log) <= log && ClientDutyTheorems.PlayDuty(old(log), id, async, log[|old(log)|..])
    {
      RunGrows(events, Event.Play(id, async));
      if id in sources {
        ClientDutyTheorems.PlayDutyIsDone(events, id, async);
      }
      reply := PlayInLoop(id, async);
      events := events + [Event.Play(id, async)];
      assert log[|old(log)|..] == PlayStep(old(View()), id, async).log;
    }

    /** The body of pause, run in the event loop. */
    method PauseInLoop(id: int) returns (reply: Reply)
      modifies this
      ensures var o := PauseStep(old(View()), id);
              View() == o.state && log == old(log) + o.log && reply == o.reply
      ensures events == old(events)
    {
      if id !in sources {
        return NotAttached;
      }
      log := log + [AskedPause(id)];
      if serverState.SrvPaused? && clientState != AwaitingPlaying && clientState != AwaitingPaused {
        sources := sources[id := sources[id].(state := Paused)];
        if AllIn(sources, {Paused}) {
          clientState := Paused;
        }
        return SuccessSync;
      }
      sources := sources[id := sources[id].(state := AwaitingPaused)];
      var shouldPause := false;
      if clientState.Ready? {
        if AllIn(sources, {AwaitingPaused}) {
          shouldPause := true;
        }
      } else if clientState.AwaitingPlaying? || clientState.Playing? {
        shouldPause := true;
      }
      if shouldPause {
        log := log + [SentPause(clientState)];
        clientState := AwaitingPaused;
      }
      sources := sources[id := sources[id].(sink := sources[id].sink.(commitNeeded := true))];
      reply := SuccessAsync;
    }

    method Pause(id: int) returns (reply: Reply)
      requires Valid()
      modifies this
      ensures Valid() && events == old(events) + [Event.Pause(id)]
      ensures reply == PauseStep(old(View()), id).reply
      ensures id in old(sources) ==>
                old(log) <= log && ClientDutyTheorems.PauseDuty(old(log), id, log[|old(log)|..])
    {
      RunGrows(events, Event.Pause(id));
      if id in sources {
        ClientDutyTheorems.PauseDutyIsDone(events, id);
      }
      reply := PauseInLoop(id);
      events := events + [Event.Pause(id)];
      assert log[|old(log)|..] == PauseStep(old(View()), id).log;
    }

    method FlushInLoop(id: int, accepted: bool, async: bool)
      requires Valid()
      modifies this
      ensures Valid() && events == old(events) + [Event.Flush(id, accepted, async)]
    {
      RunGrows(events, Event.Flush(id, accepted, async));
      events := events + [Event.Flush(id, accepted, async)];
      log := log + [FlushBegun(id)];
      wasPlayingBeforeEos := false;
      if id !in sources || !accepted {
        return;
      }
      sources := sources[id := sources[id].(flushing := true)];
      if async {
        sources := sources[id := sources[id].(sink := sources[id].sink.(commitNeeded := true))];
        sources := sources[id := sources[id].(state := AwaitingPaused)];
        log := log + [FlushedAsync(id)];
        if clientState.Playing? {
          clientState := AwaitingPlaying;
        } else if clientState.Paused? {
          clientState := AwaitingPaused;
        }
      }
    }

    /** The synchroniser hears of every flush, before it is known whether there is such a source. */
    method Flush(id: int, accepted: bool, async: bool)
      requires Valid() && sync.Valid()
      modifies this, sync
      ensures Valid() && events == old(events) + [Event.Flush(id, accepted, async)]
      ensures sync.Valid() && sync.Performed(Sync.FlushStarted(id))
    {
      sync.NotifyFlushStarted(id);
      FlushInLoop(id, accepted, async);
    }

    /** Counts the attached sources of each kind, in the table's own order. */
    method AreAllStreamsAttached() returns (all: bool)
      ensures all == CountsMatch(sources, audioStreams, videoStreams, subtitleStreams)
    {
      var video, audio, subtitle := 0, 0, 0;
      var rest: set<int> := sources.Keys;
      ghost var done: set<int> := {};
      while rest != {}
        invariant rest + done == sources.Keys && rest !! done
        invariant CountedAmong(sources, done, video, audio, subtitle)
        decreases rest
      {
        HasMember(rest);
        var id: int :| id in rest;
        CountOneMore(sources, done, id, video, audio, subtitle);
        match sources[id].kind {
          case Video => video := video + 1;
          case Audio => audio := audio + 1;
          case Subtitle => subtitle := subtitle + 1;
          case UnknownMedia =>
        }
        rest := rest - {id};
        done := done + {id};
      }
      assert done == sources.Keys;
      all := video == videoStreams && audio == audioStreams && subtitle == subtitleStreams;
    }

    method SendAllSourcesAttachedInLoop()
      modifies this
      ensures var o := SendAllAttachedStep(old(View())); View() == o.state && log == old(log) + o.log
      ensures ClientCommands.AllStreamsAttached(View()) ==> allAttachedSent
      ensures events == old(events)
    {
      ClientCommands.SendAllTells(View());
      var all := AreAllStreamsAttached();
      if !allAttachedSent && all {
        log := log + [SentAllAttached(sources, audioStreams, videoStreams, subtitleStreams)];
        allAttachedSent := true;
        clientState := Ready;
        if AllIn(sources, {AwaitingPaused}) {
          log := log + [SentPause(clientState)];
          clientState := AwaitingPaused;
        }
      }
    }

    method SendAllSourcesAttachedIfPossible()
      requires Valid()
      modifies this
      ensures Valid() && events == old(events) + [SendAllAttached]
      ensures ClientCommands.AllStreamsAttached(View()) ==> ClientCommands.ToldAllAttached(log)
    {
      RunGrows(events, SendAllAttached);
      SendAllSourcesAttachedInLoop();
      events := events + [SendAllAttached];
      ClientCommands.AttachProtocol(events);
    }

    /** The source joins the table unless it is there already. */
    method InsertSource(id: int, kind: MediaType, sink: Sink) returns (added: bool)
      modifies this`sources, this`log
      ensures added <==> id !in old(sources)
      ensures sources == if added then old(sources)[id := Source(kind, Ready, false, sink)] else old(sources)
      ensures log == old(log) + if added then [Attached(id)] else []
    {
      added := id !in sources;
      if added {
        sources := sources[id := Source(kind, Ready, false, sink)];
        log := log + [Attached(id)];
      }
    }

    method AttachInLoop(id: int, kind: MediaType, accepted: bool, sink: Sink) returns (added: bool)
      requires Valid() && !kind.UnknownMedia?
      modifies this
      ensures Valid() && events == old(events) + [Attach(id, kind, accepted, sink)]
      ensures added <==> accepted && id !in old(sources)
      ensures ClientCommands.AllStreamsAttached(View()) ==> allAttachedSent
      ensures accepted ==> id in sources
      ensures added ==> sources[id] == Source(kind, Ready, false, sink)
    {
      RunGrows(events, Attach(id, kind, accepted, sink));
      events := events + [Attach(id, kind, accepted, sink)];
      added := false;
      if accepted {
        added := InsertSource(id, kind, sink);
      }
      SendAllSourcesAttachedInLoop();
    }

    /** `accepted` is the backend's answer; it is the result for a known kind of source. */
    method AttachSource(id: int, kind: MediaType, accepted: bool, sink: Sink) returns (result: bool)
      requires Valid() && sync.Valid()
      modifies this, sync
      ensures Valid() && events == old(events) + [Attach(id, kind, accepted, sink)]
      ensures result <==> accepted && kind != UnknownMedia
      ensures kind != UnknownMedia && ClientCommands.AllStreamsAttached(View()) ==> ClientCommands.ToldAllAttached(log)
      ensures result ==> id in sources && (id !in old(sources) ==> sources[id] == Source(kind, Ready, false, sink))
      ensures sync.Valid()
      ensures if result && id !in old(sources) then sync.Performed(Sync.AddSource(id)) else unchanged(sync)
    {
      if kind.UnknownMedia? {
        RunGrows(events, Attach(id, kind, accepted, sink));
        events := events + [Attach(id, kind, accepted, sink)];
        return false;
      }
      var added := AttachInLoop(id, kind, accepted, sink);
      ClientCommands.AttachProtocol(events);
      if added {
        sync.Add(id);
      }
      result := accepted;
    }

    method RemoveInLoop(id: int)
      requires Valid()
      modifies this
      ensures Valid() && events == old(events) + [Remove(id)]
    {
      RunGrows(events, Remove(id));
      events := events + [Remove(id)];
      sources := sources - {id};
      log := log + [Removed(id)];
    }

    method RemoveSource(id: int)
      requires Valid() && sync.Valid()
      modifies this, sync
      ensures Valid() && events == old(events) + [Remove(id)]
      ensures sync.Valid() && sync.Performed(Sync.RemoveSource(id))
    {
      RemoveInLoop(id);
      sync.Remove(id);
    }

    /** The delegate's reaction to a report: commit the sink's state, or ask to play again. */
    method HandleStateChanged(id: int, report: PlaybackState, async: bool)
      requires id in sources
      requires SettledState(sources[id].state, report) == sources[id].state
      modifies this
      ensures var o := Visit(old(View()), id, report, async);
              View() == o.state && log == old(log) + o.log
      ensures sources.Keys == old(sources.Keys)
      ensures events == old(events)
    {
      var sink := sources[id].sink;
      assert old(View()).(sources := sources[id := sources[id]]) == old(View());
      if sink.commitNeeded {
        if (report.SrvPaused? && sink.next.GstPaused?) || (report.SrvPlaying? && sink.next.GstPlaying?) {
          var postNext := if sink.next == sink.pending then VoidPending else sink.pending;
          sources := sources[id := sources[id].(sink := Sink(false, sink.next, postNext, VoidPending))];
        } else if report.SrvPaused? && sink.current.GstPaused? && sink.next.GstPlaying? {
          var _ := PlayInLoop(id, async);
        }
      }
    }

    /** One turn of the loop over the sources. */
    method VisitSource(id: int, report: PlaybackState, async: bool)
      requires id in sources
      modifies this
      ensures var o := Visit(old(View()), id, report, async);
              View() == o.state && log == old(log) + o.log
      ensures sources.Keys == old(sources.Keys)
      ensures events == old(events)
    {
      ghost var st := View();
      var source := sources[id];
      if report.SrvPaused? && source.state.AwaitingPaused? {
        source := source.(state := Paused);
      } else if report.SrvPlaying? && source.state.AwaitingPlaying? {
        source := source.(state := Playing);
      }
      sources := sources[id := source];
      VisitSettled(st, id, report, async);
      assert View() == st.(sources := st.sources[id := source]);
      HandleStateChanged(id, report, async);
    }

    /** The client's own reaction; `visiting` says whether the sources are told. */
    method TakeInReport(report: PlaybackState) returns (visiting: bool)
      modifies this
      ensures View() == TakeIn(old(View()), report) && log == old(log) + [Reported(report)]
      ensures visiting <==> IsVisiting(old(View()), report)
      ensures events == old(events)
    {
      var previous := serverState;
      serverState := report;
      log := log + [Reported(report)];
      visiting := false;
      match report {
        case SrvPaused =>
          wasPlayingBeforeEos := false;
          visiting := true;
          if clientState.AwaitingPaused? {
            clientState := Paused;
          }
        case SrvPlaying =>
          wasPlayingBeforeEos := false;
          visiting := true;
          if clientState.AwaitingPlaying? {
            clientState := Playing;
          } else if clientState.AwaitingPaused? {
            visiting := false;
          }
        case SrvEndOfStream =>
          if !wasPlayingBeforeEos && previous.SrvPlaying? {
            wasPlayingBeforeEos := true;
          }
        case SrvFailure =>
          wasPlayingBeforeEos := false;
        case _ =>
      }
    }

    method HandleReportInLoop(report: PlaybackState, async: bool) returns (ghost order: seq<int>)
      modifies this
      ensures IsVisiting(old(View()), report) ==> ClientReport.Enumerates(order, old(sources.Keys))
      ensures var o := ReportStep(old(View()), report, order, async);
              View() == o.state && log == old(log) + o.log
      ensures events == old(events)
    {
      order := [];
      var visiting := TakeInReport(report);
      if visiting {
        order := VisitSources(report, async);
        ghost var visits := VisitAll(TakeIn(old(View()), report), order, report, async);
        assert log == old(log) + [Reported(report)] + visits.log;
        assert old(log) + [Reported(report)] + visits.log == old(log) + ([Reported(report)] + visits.log);
      }
    }

    method HandleReport(report: PlaybackState, async: bool) returns (ghost order: seq<int>)
      requires Valid()
      modifies this
      ensures Valid() && events == old(events) + [Report(report, order, async)]
      ensures IsVisiting(old(View()), report) ==> ClientReport.Enumerates(order, old(sources.Keys))
      ensures View() == ReportStep(old(View()), report, order, async).state
    {
      ghost var st, before := View(), log;
      order := HandleReportInLoop(report, async);
      Record(Report(report, order, async), st, before);
    }

    /** Takes in a report and visits the sources in whatever order the table yields them; for a
        PAUSED report that order makes no difference. */
    method HandlePlaybackStateChange(report: PlaybackState, async: bool) returns (ghost order: seq<int>)
      requires Valid()
      modifies this
      ensures Valid() && events == old(events) + [Report(report, order, async)]
      ensures report.SrvPaused? ==> View() == ClientReport.PausedReportResult(old(View()))
    {
      order := HandleReport(report, async);
      if report.SrvPaused? {
        ClientReport.PausedReportIsOrderIndependent(old(View()), order, async);
      }
    }

    /** The visits in `order` have been made, starting from `st` and `before`. */
    ghost predicate HasVisited(st: State, before: seq<Entry>, order: seq<int>, report: PlaybackState, async: bool)
      reads this
    {
      var o := VisitAll(st, order, report, async);
      View() == o.state && log == before + o.log
    }

    method VisitNext(id: int, report: PlaybackState, async: bool,
                     ghost st: State, ghost before: seq<Entry>, ghost order: seq<int>)
      requires id in sources
      requires HasVisited(st, before, order, report, async)
      modifies this
      ensures HasVisited(st, before, order + [id], report, async)
      ensures sources.Keys == old(sources.Keys)
      ensures events == old(events)
    {
      VisitSource(id, report, async);
      assert (order + [id])[..|order|] == order;
    }

    method VisitSources(report: PlaybackState, async: bool) returns (ghost order: seq<int>)
      modifies this
      ensures ClientReport.Enumerates(order, old(sources.Keys))
      ensures HasVisited(old(View()), old(log), order, report, async)
      ensures events == old(events)
    {
      order := [];
      ghost var st := View();
      var rest: set<int> := sources.Keys;
      while rest != {}
        invariant sources.Keys == old(sources.Keys) && rest <= sources.Keys
        invariant ClientReport.Enumerates(order, sources.Keys - rest)
        invariant HasVisited(st, old(log), order, report, async)
        invariant events == old(events)
        decreases rest
      {
        HasMember(rest);
        var id: int :| id in rest;
        VisitNext(id, report, async, st, old(log), order);
        order := order + [id];
        rest := rest - {id};
      }
      assert sources.Keys - rest == sources.Keys;
    }

    method EndFlushInLoop(id: int) returns (ended: bool)
      requires Valid()
      modifies this
      ensures Valid() && events == old(events) + [SourceFlushed(id)]
      ensures ended <==> id in old(sources) && old(sources)[id].flushing
    {
      RunGrows(events, SourceFlushed(id));
      events := events + [SourceFlushed(id)];
      ended := id in sources && sources[id].flushing;
      if ended {
        sources := sources[id := sources[id].(flushing := false)];
      }
    }

    /** A flush that is under way is over for the sink and for the synchroniser. */
    method HandleSourceFlushed(id: int, delegate: D.Delegate)
      requires Valid() && sync.Valid() && delegate.Valid() && delegate.sourceId == id
      modifies this, sync, delegate
      ensures Valid() && events == old(events) + [SourceFlushed(id)]
      ensures sync.Valid() && delegate.Valid()
      ensures if id in old(sources) && old(sources)[id].flushing
              then sync.Performed(Sync.FlushCompleted(id)) && delegate.events == old(delegate.events) + [P.FlushCompleted]
              else unchanged(sync) && unchanged(delegate)
    {
      var ended := EndFlushInLoop(id);
      if ended {
        delegate.HandleFlushCompleted();
        sync.NotifyFlushCompleted(id);
      }
    }

    /** GStreamer changes the state of a sink on its own. */
    method SinkChanges(id: int, sink: Sink)
      requires Valid()
      modifies this
      ensures Valid() && events == old(events) + [SinkChange(id, sink)]
    {
      RunGrows(events, SinkChange(id, sink));
      events := events + [SinkChange(id, sink)];
      if id in sources {
        sources := sources[id := sources[id].(sink := sink)];
      }
    }

    method HandleStreamCollection(audio: int, video: int, subtitle: int)
      requires Valid()
      modifies this
      ensures Valid() && events == old(events) + [StreamCollection(audio, video, subtitle)]
    {
      RunGrows(events, StreamCollection(audio, video, subtitle));
      events := events + [StreamCollection(audio, video, subtitle)];
      if audioStreams == UNKNOWN_STREAMS {
        audioStreams := audio;
      }
      if videoStreams == UNKNOWN_STREAMS {
        videoStreams := video;
      }
      if subtitleStreams == UNKNOWN_STREAMS {
        subtitleStreams := subtitle;
      }
    }
  }

  lemma HasMember(ids: set<int>)
    ensures ids == {} || exists id :: id in ids
  {
    if forall id :: id !in ids {
      assert ids == {};
    }
  }

  /** Settling a source before its visit changes nothing. */
  lemma VisitSettled(st: State, id: int, report: PlaybackState, async: bool)
    requires id in st.sources
    ensures var source := st.sources[id];
            var settled := source.(state := SettledState(source.state, report));
            Visit(st.(sources := st.sources[id := settled]), id, report, async) == Visit(st, id, report, async)
  {
    var source := st.sources[id];
    var settled := source.(state := SettledState(source.state, report));
    var sources := st.sources[id := settled];
    assert sources[id := settled] == sources;
    assert sources[id := settled.(sink := Committed(source.sink))]
        == st.sources[id := settled.(sink := Committed(source.sink))];
  }

  /** The sources of a kind among those counted so far. */
  function IdsAmong(sources: Sources, ids: set<int>, kind: MediaType): set<int> {
    set id | id in ids && id in sources && sources[id].kind == kind
  }

  /** The counts are those of the sources in `ids`, and of the whole table once all are in. */
  ghost predicate CountedAmong(sources: Sources, ids: set<int>, video: nat, audio: nat, subtitle: nat)
    ensures CountedAmong(sources, ids, video, audio, subtitle) && ids == sources.Keys ==>
              && video == |IdsOfKind(sources, Video)|
              && audio == |IdsOfKind(sources, Audio)|
              && subtitle == |IdsOfKind(sources, Subtitle)|
  {
    assert ids == sources.Keys ==> forall kind :: IdsAmong(sources, ids, kind) == IdsOfKind(sources, kind);
    && video == |IdsAmong(sources, ids, Video)|
    && audio == |IdsAmong(sources, ids, Audio)|
    && subtitle == |IdsAmong(sources, ids, Subtitle)|
  }

  lemma IdsAmongGrow(sources: Sources, ids: set<int>, id: int, kind: MediaType)
    requires id in sources && id !in ids
    ensures |IdsAmong(sources, ids + {id}, kind)| ==
            |IdsAmong(sources, ids, kind)| + if sources[id].kind == kind then 1 else 0
  {
    var less, more := IdsAmong(sources, ids, kind), IdsAmong(sources, ids + {id}, kind);
    if sources[id].kind == kind {
      assert more == less + {id};
    } else {
      assert more == less;
    }
  }

  lemma CountOneMore(sources: Sources, ids: set<int>, id: int, video: nat, audio: nat, subtitle: nat)
    requires id in sources && id !in ids && CountedAmong(sources, ids, video, audio, subtitle)
    ensures var kind := sources[id].kind;
            CountedAmong(sources, ids + {id}, if kind.Video? then video + 1 else video,
                         if kind.Audio? then audio + 1 else audio,
                         if kind.Subtitle? then subtitle + 1 else subtitle)
  {
    IdsAmongGrow(sources, ids, id, Video);
    IdsAmongGrow(sources, ids, id, Audio);
    IdsAmongGrow(sources, ids, id, Subtitle);
  }
}
