/** The play and pause barriers over whole runs.

    A source's state is exactly what its own latest request says, so the two
    barriers the client checks on states are barriers on requests. */
module ClientBarrier {
  import opened ClientModel

  datatype Ask = Nothing | ToPlay | ToPause | WasFlushed

  function AskAfter(e: Entry, id: int, before: Ask): Ask {
    match e
    case Attached(i) => if i == id then Nothing else before
    case AskedPlay(i) => if i == id then ToPlay else before
    case AskedPause(i) => if i == id then ToPause else before
    case FlushedAsync(i) => if i == id then WasFlushed else before
    case _ => before
  }

  /** The latest play, pause or successful asynchronous flush of `id` since it was attached. */
  function LastAsk(log: seq<Entry>, id: int): Ask {
    if log == [] then Nothing else AskAfter(log[|log| - 1], id, LastAsk(log[..|log| - 1], id))
  }

  function IdsAfter(e: Entry, before: set<int>): set<int> {
    match e
    case Attached(i) => before + {i}
    case Removed(i) => before - {i}
    case _ => before
  }

  /** The sources attached and not removed so far. */
  function AttachedIds(log: seq<Entry>): set<int> {
    if log == [] then {} else IdsAfter(log[|log| - 1], AttachedIds(log[..|log| - 1]))
  }

  /** What the entry at `k` may assume of the entries before it. */
  ghost predicate BarrierAt(log: seq<Entry>, k: nat)
    requires k < |log|
  {
    && (log[k].SentPlay? ==> forall id | id in AttachedIds(log[..k]) :: LastAsk(log[..k], id) == ToPlay)
    && (log[k] == SentPause(Ready) ==>
          forall id | id in AttachedIds(log[..k]) :: LastAsk(log[..k], id) in {ToPause, WasFlushed})
  }

  ghost predicate Barriers(log: seq<Entry>) {
    forall k | 0 <= k < |log| :: BarrierAt(log, k)
  }

  /** A source's state and its latest request determine each other. */
  ghost predicate StateTellsAsk(state: ClientState, ask: Ask) {
    && (state in {AwaitingPlaying, Playing} <==> ask == ToPlay)
    && (state in {AwaitingPaused, Paused} <==> ask in {ToPause, WasFlushed})
    && (state == Ready <==> ask == Nothing)
  }

  ghost predicate Inv(sources: Sources, log: seq<Entry>) {
    && sources.Keys == AttachedIds(log)
    && (forall id | id in sources :: StateTellsAsk(sources[id].state, LastAsk(log, id)))
    && Barriers(log)
  }

  lemma LogGrows(log: seq<Entry>, e: Entry)
    ensures AttachedIds(log + [e]) == IdsAfter(e, AttachedIds(log))
    ensures forall id :: LastAsk(log + [e], id) == AskAfter(e, id, LastAsk(log, id))
  {
    assert (log + [e])[..|log|] == log;
  }

  lemma BarriersGrow(log: seq<Entry>, e: Entry)
    requires Barriers(log)
    requires BarrierAt(log + [e], |log|)
    ensures Barriers(log + [e])
  {
    forall k | 0 <= k < |log| + 1
      ensures BarrierAt(log + [e], k)
    {
      if k < |log| {
        assert BarrierAt(log, k);
        assert (log + [e])[..k] == log[..k];
      }
    }
  }

  /** How the source table may change with one log line. */
  ghost predicate Follows(sources: Sources, e: Entry, sources': Sources) {
    && sources'.Keys == IdsAfter(e, sources.Keys)
    && (forall id | id in sources' ::
          forall ask | id in sources ==> StateTellsAsk(sources[id].state, ask) ::
            StateTellsAsk(sources'[id].state, AskAfter(e, id, ask)))
    && (e.SentPlay? ==> AllIn(sources, {AwaitingPlaying, Playing}))
    && (e == SentPause(Ready) ==> AllIn(sources, {AwaitingPaused}))
  }

  /** One entry at a time: the invariant over a new log line and a new source table. */
  lemma Extend(sources: Sources, log: seq<Entry>, e: Entry, sources': Sources)
    requires Inv(sources, log)
    requires Follows(sources, e, sources')
    ensures Inv(sources', log + [e])
  {
    LogGrows(log, e);
    assert (log + [e])[..|log|] == log;
    BarriersGrow(log, e);
  }

  /** A command that finds the table as its barrier says. */
  lemma CommandKeeps(sources: Sources, log: seq<Entry>, e: Entry)
    requires Inv(sources, log)
    requires e.SentPlay? || e.SentPause? || e.PostedPlaying?
    requires e.SentPlay? ==> AllIn(sources, {AwaitingPlaying, Playing})
    requires e == SentPause(Ready) ==> AllIn(sources, {AwaitingPaused})
    ensures Inv(sources, log + [e])
  {
    Extend(sources, log, e, sources);
  }

  lemma AskedPlayKeeps(st: State, log: seq<Entry>, id: int, async: bool)
    requires Inv(st.sources, log) && id in st.sources
    ensures Inv(PlayStep(st, id, async).state.sources, log + [AskedPlay(id)])
  {
    Extend(st.sources, log, AskedPlay(id), PlayStep(st, id, async).state.sources);
  }

  lemma PlayKeeps(st: State, log: seq<Entry>, id: int, async: bool)
    requires Inv(st.sources, log)
    ensures var o := PlayStep(st, id, async); Inv(o.state.sources, log + o.log)
  {
    var o := PlayStep(st, id, async);
    if id !in st.sources {
      assert log + o.log == log;
    } else {
      var l1 := log + [AskedPlay(id)];
      AskedPlayKeeps(st, log, id, async);
      if |o.log| > 1 {
        CommandKeeps(o.state.sources, l1, SentPlay);
        if async {
          assert log + o.log == l1 + [SentPlay];
        } else {
          CommandKeeps(o.state.sources, l1 + [SentPlay], PostedPlaying);
          assert log + o.log == l1 + [SentPlay] + [PostedPlaying];
        }
      }
    }
  }

  lemma AskedPauseKeeps(st: State, log: seq<Entry>, id: int)
    requires Inv(st.sources, log) && id in st.sources
    ensures Inv(PauseStep(st, id).state.sources, log + [AskedPause(id)])
  {
    Extend(st.sources, log, AskedPause(id), PauseStep(st, id).state.sources);
  }

  lemma PauseKeeps(st: State, log: seq<Entry>, id: int)
    requires Inv(st.sources, log)
    ensures var o := PauseStep(st, id); Inv(o.state.sources, log + o.log)
  {
    var o := PauseStep(st, id);
    if id !in st.sources {
      assert log + o.log == log;
    } else {
      AskedPauseKeeps(st, log, id);
      if |o.log| > 1 {
        CommandKeeps(o.state.sources, log + [AskedPause(id)], SentPause(st.client));
        assert log + o.log == log + [AskedPause(id)] + [SentPause(st.client)];
      }
    }
  }

  lemma FlushKeeps(st: State, log: seq<Entry>, id: int, accepted: bool, async: bool)
    requires Inv(st.sources, log)
    ensures var o := FlushStep(st, id, accepted, async); Inv(o.state.sources, log + o.log)
  {
    var o := FlushStep(st, id, accepted, async);
    var l1 := log + [FlushBegun(id)];
    Extend(st.sources, log, FlushBegun(id), st.sources);
    if |o.log| > 1 {
      Extend(st.sources, l1, FlushedAsync(id), o.state.sources);
      assert log + o.log == l1 + [FlushedAsync(id)];
    } else {
      Extend(st.sources, log, FlushBegun(id), o.state.sources);
    }
  }

  lemma SendAllKeeps(st: State, log: seq<Entry>)
    requires Inv(st.sources, log)
    ensures var o := SendAllAttachedStep(st); Inv(o.state.sources, log + o.log)
  {
    var o := SendAllAttachedStep(st);
    if o.log == [] {
      assert log + o.log == log;
    } else {
      var told := SentAllAttached(st.sources, st.audioStreams, st.videoStreams, st.subtitleStreams);
      Extend(st.sources, log, told, st.sources);
      if AllIn(st.sources, {AwaitingPaused}) {
        assert log + o.log == log + [told] + [SentPause(Ready)];
        Extend(st.sources, log + [told], SentPause(Ready), st.sources);
      }
    }
  }

  lemma AttachKeeps(st: State, log: seq<Entry>, id: int, kind: MediaType, accepted: bool, sink: Sink)
    requires Inv(st.sources, log)
    ensures var o := AttachStep(st, id, kind, accepted, sink); Inv(o.state.sources, log + o.log)
  {
    var o := AttachStep(st, id, kind, accepted, sink);
    if kind.UnknownMedia? {
      assert log + o.log == log;
    } else if accepted && id !in st.sources {
      var st1 := st.(sources := st.sources[id := Source(kind, Ready, false, sink)]);
      assert log + o.log == log + [Attached(id)] + SendAllAttachedStep(st1).log;
      Extend(st.sources, log, Attached(id), st1.sources);
      SendAllKeeps(st1, log + [Attached(id)]);
    } else {
      SendAllKeeps(st, log);
    }
  }

  /** A change that keeps every state keeps the invariant. */
  lemma SameStates(sources: Sources, log: seq<Entry>, sources': Sources)
    requires Inv(sources, log)
    requires sources'.Keys == sources.Keys
    requires forall id | id in sources' ::
               StateTellsAsk(sources[id].state, LastAsk(log, id)) ==>
                 StateTellsAsk(sources'[id].state, LastAsk(log, id))
    ensures Inv(sources', log)
  {
  }

  lemma VisitKeeps(st: State, log: seq<Entry>, id: int, report: PlaybackState, async: bool)
    requires Inv(st.sources, log)
    ensures var o := Visit(st, id, report, async); Inv(o.state.sources, log + o.log)
  {
    var o := Visit(st, id, report, async);
    if id in st.sources {
      var source := st.sources[id];
      var settled := st.sources[id := source.(state := SettledState(source.state, report))];
      SameStates(st.sources, log, settled);
      if Commits(source.sink, report) {
        SameStates(settled, log, o.state.sources);
        assert log + o.log == log;
      } else if ReRequestsPlay(source.sink, report) {
        PlayKeeps(st.(sources := settled), log, id, async);
      } else {
        assert log + o.log == log;
      }
    } else {
      assert log + o.log == log;
    }
  }

  lemma {:induction false} VisitAllKeeps(st: State, log: seq<Entry>, order: seq<int>, report: PlaybackState, async: bool)
    requires Inv(st.sources, log)
    ensures var o := VisitAll(st, order, report, async); Inv(o.state.sources, log + o.log)
  {
    if order == [] {
      assert log + VisitAll(st, order, report, async).log == log;
    } else {
      var n := |order| - 1;
      var before := VisitAll(st, order[..n], report, async);
      VisitAllKeeps(st, log, order[..n], report, async);
      VisitKeeps(before.state, log + before.log, order[n], report, async);
      assert log + (before.log + Visit(before.state, order[n], report, async).log)
          == log + before.log + Visit(before.state, order[n], report, async).log;
    }
  }

  lemma ReportKeeps(st: State, log: seq<Entry>, report: PlaybackState, order: seq<int>, async: bool)
    requires Inv(st.sources, log)
    ensures var o := ReportStep(st, report, order, async); Inv(o.state.sources, log + o.log)
  {
    var st1 := TakeIn(st, report);
    Extend(st.sources, log, Reported(report), st1.sources);
    if IsVisiting(st, report) {
      VisitAllKeeps(st1, log + [Reported(report)], order, report, async);
      var o := VisitAll(st1, order, report, async);
      assert log + ([Reported(report)] + o.log) == log + [Reported(report)] + o.log;
    }
  }

  lemma StepKeeps(st: State, log: seq<Entry>, e: Event)
    requires Inv(st.sources, log)
    ensures var o := Step(st, e); Inv(o.state.sources, log + o.log)
  {
    var o := Step(st, e);
    match e
    case Play(id, async) => PlayKeeps(st, log, id, async);
    case Pause(id) => PauseKeeps(st, log, id);
    case Flush(id, accepted, async) => FlushKeeps(st, log, id, accepted, async);
    case Attach(id, kind, accepted, sink) => AttachKeeps(st, log, id, kind, accepted, sink);
    case SendAllAttached => SendAllKeeps(st, log);
    case Remove(id) => Extend(st.sources, log, Removed(id), o.state.sources);
    case Report(report, order, async) => ReportKeeps(st, log, report, order, async);
    case _ =>
      SameStates(st.sources, log, o.state.sources);
      assert log + o.log == log;
  }

  /** In every run, a source is awaiting or in PLAYING exactly when its latest request since
      it was attached was play, awaiting or in PAUSED exactly when it was a pause or an
      asynchronous flush, and READY exactly when there was none.  Hence every play command
      finds all attached sources asking to play, and every pause command sent from READY
      finds them all asking to pause or flushed. */
  lemma {:induction false} BarriersHoldInEveryRun(events: seq<Event>)
    ensures var h := Run(events);
            && h.state.sources.Keys == AttachedIds(h.log)
            && (forall id | id in h.state.sources :: StateTellsAsk(h.state.sources[id].state, LastAsk(h.log, id)))
            && Barriers(h.log)
  {
    if events != [] {
      var n := |events| - 1;
      BarriersHoldInEveryRun(events[..n]);
      StepKeeps(Run(events[..n]).state, Run(events[..n]).log, events[n]);
    }
  }
}
