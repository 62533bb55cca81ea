/** The commands the client sends to the server, over whole runs: the attach
    protocol and the absence of duplicate play commands. */
module ClientCommands {
  import opened ClientModel

  ghost predicate ToldAllAttached(log: seq<Entry>) {
    exists j | 0 <= j < |log| :: log[j].SentAllAttached?
  }

  predicate IsLoud(e: Entry) {
    e == Reported(SrvPaused) || e == Reported(SrvPlaying)
  }

  predicate IsCommand(e: Entry) {
    e.SentPlay? || e.SentPause?
  }

  /** The server reports neither PAUSED nor PLAYING before it knows all sources are attached. */
  ghost predicate QuietStart(log: seq<Entry>) {
    forall i | 0 <= i < |log| && IsLoud(log[i]) :: ToldAllAttached(log[..i])
  }

  ghost predicate CommandsAfterAttached(log: seq<Entry>) {
    forall i | 0 <= i < |log| && (log[i].SentPlay? || log[i].SentPause?) :: ToldAllAttached(log[..i])
  }

  ghost predicate PausedBetweenPlays(log: seq<Entry>) {
    forall i, j | 0 <= i < j < |log| && log[i].SentPlay? && log[j].SentPlay? ::
      exists k | i < k < j :: log[k] == Reported(SrvPaused)
  }

  ghost predicate ToldAtMostOnce(log: seq<Entry>) {
    forall i, j | 0 <= i < j < |log| :: !(log[i].SentAllAttached? && log[j].SentAllAttached?)
  }

  /** The server was told when the table held the declared number of sources of each kind,
      and the declared numbers are still the same. */
  ghost predicate ToldWithCounts(log: seq<Entry>, st: State) {
    forall i | 0 <= i < |log| && log[i].SentAllAttached? ::
      && |IdsOfKind(log[i].table, Audio)| == log[i].audio
      && |IdsOfKind(log[i].table, Video)| == log[i].video
      && |IdsOfKind(log[i].table, Subtitle)| == log[i].subtitle
      && log[i].audio == st.audioStreams
      && log[i].video == st.videoStreams
      && log[i].subtitle == st.subtitleStreams
  }

  /** A play command was sent and no PAUSED report has come since. */
  ghost predicate PlayOutstanding(log: seq<Entry>) {
    exists i | 0 <= i < |log| :: log[i].SentPlay? && forall k | i < k < |log| :: log[k] != Reported(SrvPaused)
  }

  ghost predicate Inv(st: State, log: seq<Entry>) {
    && (st.allAttachedSent <==> ToldAllAttached(log))
    && ToldAtMostOnce(log)
    && ToldWithCounts(log, st)
    && (QuietStart(log) ==> QuietInv(st, log))
  }

  ghost predicate QuietInv(st: State, log: seq<Entry>) {
    && CommandsAfterAttached(log)
    && PausedBetweenPlays(log)
    && (!st.allAttachedSent ==>
          st.client.Idle? && !st.server.SrvPaused? && !st.server.SrvPlaying? && !st.wasPlayingBeforeEos)
    && (PlayOutstanding(log) ==>
          && st.allAttachedSent
          && st.client in {AwaitingPlaying, Playing, AwaitingPaused}
          && (st.client.Playing? ==> !st.server.SrvPaused?))
  }

  lemma LogGrows(log: seq<Entry>, e: Entry)
    ensures ToldAllAttached(log + [e]) <==> ToldAllAttached(log) || e.SentAllAttached?
    ensures PlayOutstanding(log + [e]) <==> e.SentPlay? || (PlayOutstanding(log) && e != Reported(SrvPaused))
  {
    var l := log + [e];
    assert forall i | 0 <= i < |log| :: l[i] == log[i];
    assert l[|log|] == e;
    if ToldAllAttached(log) {
      var j :| 0 <= j < |log| && log[j].SentAllAttached?;
      assert l[j].SentAllAttached?;
    }
    if PlayOutstanding(log) && e != Reported(SrvPaused) {
      var i :| 0 <= i < |log| && log[i].SentPlay? && forall k | i < k < |log| :: log[k] != Reported(SrvPaused);
      assert l[i].SentPlay?;
    }
  }

  lemma PrefixPropertiesGrow(log: seq<Entry>, e: Entry)
    ensures QuietStart(log + [e]) <==> QuietStart(log) && (IsLoud(e) ==> ToldAllAttached(log))
    ensures CommandsAfterAttached(log + [e]) <==>
            CommandsAfterAttached(log) && (e.SentPlay? || e.SentPause? ==> ToldAllAttached(log))
    ensures ToldAtMostOnce(log + [e]) <==> ToldAtMostOnce(log) && !(e.SentAllAttached? && ToldAllAttached(log))
  {
    var l := log + [e];
    assert l[|log|] == e && l[..|log|] == log;
    assert forall i | 0 <= i < |log| :: l[i] == log[i] && l[..i] == log[..i];
  }

  lemma PlaysGrow(log: seq<Entry>, e: Entry)
    requires PausedBetweenPlays(log)
    requires e.SentPlay? ==> !PlayOutstanding(log)
    ensures PausedBetweenPlays(log + [e])
  {
    var l := log + [e];
    forall i, j | 0 <= i < j < |l| && l[i].SentPlay? && l[j].SentPlay?
      ensures exists k | i < k < j :: l[k] == Reported(SrvPaused)
    {
      assert log[i].SentPlay?;
      if j < |log| {
        var k :| i < k < j && log[k] == Reported(SrvPaused);
        assert l[k] == Reported(SrvPaused);
      } else {
        var k :| i < k < |log| && log[k] == Reported(SrvPaused);
        assert l[k] == Reported(SrvPaused);
      }
    }
  }

  /** How the state may change with one log line. */
  ghost predicate Follows(st: State, e: Entry, st': State) {
    && st'.audioStreams == st.audioStreams && st'.videoStreams == st.videoStreams
    && st'.subtitleStreams == st.subtitleStreams
    && (st'.allAttachedSent <==> st.allAttachedSent || e.SentAllAttached?)
    && (e.SentAllAttached? ==>
          && !st.allAttachedSent
          && e == SentAllAttached(e.table, st.audioStreams, st.videoStreams, st.subtitleStreams)
          && CountsMatch(e.table, e.audio, e.video, e.subtitle))
    && (e.SentPause? ==> !st.client.Idle?)
    && (e.SentPlay? ==> st.client.Paused? && st'.client.AwaitingPlaying?)
    && (!st.allAttachedSent && !st'.allAttachedSent && !IsLoud(e)
        && st.client.Idle? && !st.server.SrvPaused? && !st.server.SrvPlaying? && !st.wasPlayingBeforeEos ==>
          && st'.client.Idle?
          && !st'.server.SrvPaused? && !st'.server.SrvPlaying? && !st'.wasPlayingBeforeEos)
    && (st.allAttachedSent && e != Reported(SrvPaused)
        && st.client in {AwaitingPlaying, Playing, AwaitingPaused}
        && (st.client.Playing? ==> !st.server.SrvPaused?) ==>
          && st'.client in {AwaitingPlaying, Playing, AwaitingPaused}
          && (st'.client.Playing? ==> !st'.server.SrvPaused?))
  }

  lemma Extend(st: State, log: seq<Entry>, e: Entry, st': State)
    requires Inv(st, log)
    requires Follows(st, e, st')
    ensures Inv(st', log + [e])
  {
    LogGrows(log, e);
    PrefixPropertiesGrow(log, e);
    if QuietStart(log) {
      PlaysGrow(log, e);
    }
  }

  /** The same without a log line. */
  lemma Slide(st: State, log: seq<Entry>, st': State)
    requires Inv(st, log)
    requires Follows(st, PostedPlaying, st')
    ensures Inv(st', log)
  {
  }

  lemma PlayKeeps(st: State, log: seq<Entry>, id: int, async: bool)
    requires Inv(st, log)
    ensures var o := PlayStep(st, id, async); Inv(o.state, log + o.log)
  {
    var o := PlayStep(st, id, async);
    if id !in st.sources {
      assert log + o.log == log;
    } else if |o.log| == 1 {
      Extend(st, log, AskedPlay(id), o.state);
    } else {
      Extend(st, log, AskedPlay(id), st);
      var l2 := log + [AskedPlay(id)] + [SentPlay];
      Extend(st, log + [AskedPlay(id)], SentPlay, o.state);
      if async {
        assert log + o.log == l2;
      } else {
        Extend(o.state, l2, PostedPlaying, o.state);
        assert log + o.log == l2 + [PostedPlaying];
      }
    }
  }

  lemma PauseKeeps(st: State, log: seq<Entry>, id: int)
    requires Inv(st, log)
    ensures var o := PauseStep(st, id); Inv(o.state, log + o.log)
  {
    var o := PauseStep(st, id);
    if id !in st.sources {
      assert log + o.log == log;
    } else if |o.log| == 1 {
      Extend(st, log, AskedPause(id), o.state);
    } else {
      Extend(st, log, AskedPause(id), st);
      Extend(st, log + [AskedPause(id)], SentPause(st.client), o.state);
      assert log + o.log == log + [AskedPause(id)] + [SentPause(st.client)];
    }
  }

  lemma FlushKeeps(st: State, log: seq<Entry>, id: int, accepted: bool, async: bool)
    requires Inv(st, log)
    ensures var o := FlushStep(st, id, accepted, async); Inv(o.state, log + o.log)
  {
    var o := FlushStep(st, id, accepted, async);
    Extend(st, log, FlushBegun(id), o.state);
    if |o.log| > 1 {
      Extend(o.state, log + [FlushBegun(id)], FlushedAsync(id), o.state);
      assert log + o.log == log + [FlushBegun(id)] + [FlushedAsync(id)];
    }
  }

  lemma SendAllKeeps(st: State, log: seq<Entry>)
    requires Inv(st, log)
    ensures var o := SendAllAttachedStep(st); Inv(o.state, log + o.log)
  {
    var o := SendAllAttachedStep(st);
    if o.log == [] {
      assert log + o.log == log;
    } else {
      var ready := st.(allAttachedSent := true, client := Ready);
      Extend(st, log, o.log[0], ready);
      if |o.log| > 1 {
        Extend(ready, log + [o.log[0]], SentPause(Ready), o.state);
        assert log + o.log == log + [o.log[0]] + [SentPause(Ready)];
      }
    }
  }

  lemma AttachKeeps(st: State, log: seq<Entry>, id: int, kind: MediaType, accepted: bool, sink: Sink)
    requires Inv(st, log)
    ensures var o := AttachStep(st, id, kind, accepted, sink); Inv(o.state, log + o.log)
  {
    var o := AttachStep(st, id, kind, accepted, sink);
    if kind.UnknownMedia? {
      assert log + o.log == log;
    } else if accepted && id !in st.sources {
      var st1 := st.(sources := st.sources[id := Source(kind, Ready, false, sink)]);
      Extend(st, log, Attached(id), st1);
      SendAllKeeps(st1, log + [Attached(id)]);
      assert log + o.log == log + [Attached(id)] + SendAllAttachedStep(st1).log;
    } else {
      SendAllKeeps(st, log);
    }
  }

  lemma VisitKeeps(st: State, log: seq<Entry>, id: int, report: PlaybackState, async: bool)
    requires Inv(st, log)
    ensures var o := Visit(st, id, report, async); Inv(o.state, log + o.log)
  {
    var o := Visit(st, id, report, async);
    if id in st.sources && !Commits(st.sources[id].sink, report) && ReRequestsPlay(st.sources[id].sink, report) {
      var source := st.sources[id];
      var st1 := st.(sources := st.sources[id := source.(state := SettledState(source.state, report))]);
      Slide(st, log, st1);
      PlayKeeps(st1, log, id, async);
    } else {
      Slide(st, log, o.state);
      assert log + o.log == log;
    }
  }

  lemma {:induction false} VisitAllKeeps(st: State, log: seq<Entry>, order: seq<int>, report: PlaybackState, async: bool)
    requires Inv(st, log)
    ensures var o := VisitAll(st, order, report, async); Inv(o.state, log + o.log)
  {
    if order == [] {
      assert log + VisitAll(st, order, report, async).log == log;
    } else {
      var n := |order| - 1;
      var before := VisitAll(st, order[..n], report, async);
      VisitAllKeeps(st, log, order[..n], report, async);
      VisitKeeps(before.state, log + before.log, order[n], report, async);
      assert log + (before.log + Visit(before.state, order[n], report, async).log)
          == log + before.log + Visit(before.state, order[n], report, async).log;
    }
  }

  lemma ReportKeeps(st: State, log: seq<Entry>, report: PlaybackState, order: seq<int>, async: bool)
    requires Inv(st, log)
    ensures var o := ReportStep(st, report, order, async); Inv(o.state, log + o.log)
  {
    var st1 := TakeIn(st, report);
    Extend(st, log, Reported(report), st1);
    if IsVisiting(st, report) {
      VisitAllKeeps(st1, log + [Reported(report)], order, report, async);
      var o := VisitAll(st1, order, report, async);
      assert log + ([Reported(report)] + o.log) == log + [Reported(report)] + o.log;
    }
  }

  lemma CollectionKeeps(st: State, log: seq<Entry>, audio: int, video: int, subtitle: int)
    requires Inv(st, log)
    ensures var o := Step(st, StreamCollection(audio, video, subtitle)); Inv(o.state, log + o.log)
  {
    var o := Step(st, StreamCollection(audio, video, subtitle));
    assert log + o.log == log;
    if st.allAttachedSent {
      var i :| 0 <= i < |log| && log[i].SentAllAttached?;
      assert CountsMatch(log[i].table, st.audioStreams, st.videoStreams, st.subtitleStreams);
      assert o.state == st;
    }
  }

  lemma StepKeeps(st: State, log: seq<Entry>, e: Event)
    requires Inv(st, log)
    ensures var o := Step(st, e); Inv(o.state, log + o.log)
  {
    var o := Step(st, e);
    match e
    case Play(id, async) => PlayKeeps(st, log, id, async);
    case Pause(id) => PauseKeeps(st, log, id);
    case Flush(id, accepted, async) => FlushKeeps(st, log, id, accepted, async);
    case Attach(id, kind, accepted, sink) => AttachKeeps(st, log, id, kind, accepted, sink);
    case SendAllAttached => SendAllKeeps(st, log);
    case Remove(id) => Extend(st, log, Removed(id), o.state);
    case Report(report, order, async) => ReportKeeps(st, log, report, order, async);
    case StreamCollection(audio, video, subtitle) => CollectionKeeps(st, log, audio, video, subtitle);
    case _ =>
      Slide(st, log, o.state);
      assert log + o.log == log;
  }

  lemma {:induction false} InvInEveryRun(events: seq<Event>)
    ensures Inv(Run(events).state, Run(events).log)
  {
    if events != [] {
      var n := |events| - 1;
      InvInEveryRun(events[..n]);
      StepKeeps(Run(events[..n]).state, Run(events[..n]).log, events[n]);
    }
  }

  /** Between any two play commands the server reported PAUSED, whatever pauses, flushes,
      attaches, removals and other reports occur in between. */
  lemma NoDuplicatePlay(events: seq<Event>)
    requires QuietStart(Run(events).log)
    ensures PausedBetweenPlays(Run(events).log)
  {
    InvInEveryRun(events);
  }

  /** The events after which the client looks whether all sources are attached. */
  predicate LooksForAll(e: Event) {
    e.SendAllAttached? || (e.Attach? && e.kind != UnknownMedia)
  }

  /** As many sources of each kind are attached as were declared. */
  ghost predicate AllStreamsAttached(st: State) {
    forall kind | kind in {Audio, Video, Subtitle} :: |IdsOfKind(st.sources, kind)| == CountOf(st, kind)
  }

  lemma CountsTellAll(st: State)
    ensures AllStreamsAttached(st) <==> CountsMatch(st.sources, st.audioStreams, st.videoStreams, st.subtitleStreams)
  {
    assert Audio in {Audio, Video, Subtitle} && Video in {Audio, Video, Subtitle} && Subtitle in {Audio, Video, Subtitle};
    assert AllStreamsAttached(st) ==> |IdsOfKind(st.sources, Audio)| == CountOf(st, Audio);
    assert AllStreamsAttached(st) ==> |IdsOfKind(st.sources, Video)| == CountOf(st, Video);
    assert AllStreamsAttached(st) ==> |IdsOfKind(st.sources, Subtitle)| == CountOf(st, Subtitle);
  }

  ghost predicate Tells(log: seq<Entry>) {
    exists x | x in log :: x.SentAllAttached?
  }

  ghost predicate Commands(log: seq<Entry>) {
    exists x | x in log :: IsCommand(x)
  }

  /** A look tells the server exactly if it was not told and all streams are attached; a pause
      command goes with it exactly if every source is waiting for PAUSED. */
  ghost predicate TellsExactly(st: State, o: Outcome) {
    var tells := !st.allAttachedSent && AllStreamsAttached(o.state);
    && (Tells(o.log) <==> tells)
    && (Commands(o.log) <==> tells && AllIn(o.state.sources, {AwaitingPaused}))
    && (forall x | x in o.log && IsCommand(x) :: x == SentPause(Ready))
    && (o.state.allAttachedSent <==> st.allAttachedSent || tells)
  }

  lemma SendAllTells(st: State)
    ensures TellsExactly(st, SendAllAttachedStep(st))
  {
    var o := SendAllAttachedStep(st);
    CountsTellAll(o.state);
    CountsTellAll(st);
    if o.log != [] {
      assert o.log[0].SentAllAttached?;
    }
    if |o.log| > 1 {
      assert IsCommand(o.log[1]) && o.log[1] in o.log;
    }
  }

  lemma AttachedEntryTellsNothing(id: int, log: seq<Entry>)
    ensures Tells([Attached(id)] + log) <==> Tells(log)
    ensures Commands([Attached(id)] + log) <==> Commands(log)
  {
    assert forall x :: x in [Attached(id)] + log <==> x == Attached(id) || x in log;
  }

  lemma LookTellsExactly(st: State, e: Event)
    requires LooksForAll(e)
    ensures TellsExactly(st, Step(st, e))
  {
    if e.Attach? && e.accepted && e.id !in st.sources {
      var st1 := st.(sources := st.sources[e.id := Source(e.kind, Ready, false, e.sink)]);
      SendAllTells(st1);
      AttachedEntryTellsNothing(e.id, SendAllAttachedStep(st1).log);
    } else {
      SendAllTells(st);
    }
  }

  /** allSourcesAttached is sent at most once, exactly when the flag says so, and only with
      the declared number of sources of each kind in the table; and the client that looks and
      finds that number attached has sent it. */
  lemma AttachProtocol(events: seq<Event>)
    ensures var h := Run(events);
            && ToldAtMostOnce(h.log)
            && ToldWithCounts(h.log, h.state)
            && (h.state.allAttachedSent <==> ToldAllAttached(h.log))
            && (events != [] && LooksForAll(events[|events| - 1]) && AllStreamsAttached(h.state) ==> ToldAllAttached(h.log))
  {
    InvInEveryRun(events);
    if events != [] && LooksForAll(events[|events| - 1]) {
      LookTellsExactly(Run(events[..|events| - 1]).state, events[|events| - 1]);
    }
  }

  /** No play or pause command precedes allSourcesAttached. */
  lemma NoCommandBeforeAllAttached(events: seq<Event>)
    requires QuietStart(Run(events).log)
    ensures CommandsAfterAttached(Run(events).log)
  {
    InvInEveryRun(events);
  }

  function CountOf(st: State, kind: MediaType): int {
    match kind
    case Audio => st.audioStreams
    case Video => st.videoStreams
    case _ => st.subtitleStreams
  }

  /** The count an event declares for a kind of stream, UNKNOWN_STREAMS if none. */
  function DeclaredBy(e: Event, kind: MediaType): int {
    if !e.StreamCollection? then UNKNOWN_STREAMS
    else match kind
      case Audio => e.audio
      case Video => e.video
      case _ => e.subtitle
  }

  lemma {:induction false} VisitAllKeepsCounts(st: State, order: seq<int>, report: PlaybackState, async: bool)
    ensures forall kind :: CountOf(VisitAll(st, order, report, async).state, kind) == CountOf(st, kind)
  {
    if order != [] {
      VisitAllKeepsCounts(st, order[..|order| - 1], report, async);
    }
  }

  lemma StepWritesOnce(st: State, e: Event, kind: MediaType)
    ensures CountOf(Step(st, e).state, kind) == WriteOnce(CountOf(st, kind), DeclaredBy(e, kind))
  {
    if e.Report? {
      VisitAllKeepsCounts(TakeIn(st, e.report), e.order, e.report, e.async);
    }
  }

  /** A stream count is unknown exactly while nothing was declared for it; afterwards it is
      the first known value declared, and no later declaration changes it. */
  lemma {:induction false} CountIsFirstDeclared(events: seq<Event>, kind: MediaType)
    ensures var count := CountOf(Run(events).state, kind);
            if count == UNKNOWN_STREAMS then
              forall i | 0 <= i < |events| :: DeclaredBy(events[i], kind) == UNKNOWN_STREAMS
            else
              exists i | 0 <= i < |events| ::
                && DeclaredBy(events[i], kind) == count
                && forall j | 0 <= j < i :: DeclaredBy(events[j], kind) == UNKNOWN_STREAMS
  {
    if events != [] {
      var n := |events| - 1;
      CountIsFirstDeclared(events[..n], kind);
      StepWritesOnce(Run(events[..n]).state, events[n], kind);
      var count := CountOf(Run(events[..n]).state, kind);
      if count != UNKNOWN_STREAMS {
        var i :| 0 <= i < n && DeclaredBy(events[..n][i], kind) == count
                 && forall j | 0 <= j < i :: DeclaredBy(events[..n][j], kind) == UNKNOWN_STREAMS;
        assert DeclaredBy(events[i], kind) == count;
      } else {
        assert forall j | 0 <= j < n :: events[..n][j] == events[j];
      }
    }
  }
}
