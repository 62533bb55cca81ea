/** The MSE media player client as a state machine.

    Every event runs to completion in the client's event loop, so one event is
    one step.  A step yields the new state and the entries it adds to the log of
    requests, reports and commands; the run theorems speak about that log.

    The server, GStreamer and the sinks' own threads are the environment: backend
    results, the iteration order of the source table and the GStreamer state of
    each sink are inputs of the events. */
module ClientModel {

  /** State of the client and of each attached source. */
  datatype ClientState = Idle | Ready | AwaitingPaused | Paused | AwaitingPlaying | Playing

  /** What the server last reported.  `SrvOther` stands for the values the client ignores. */
  datatype PlaybackState =
    SrvIdle | SrvPlaying | SrvPaused | SrvSeekDone | SrvEndOfStream | SrvFailure | SrvOther

  datatype GstState = VoidPending | Null | GstReady | GstPaused | GstPlaying

  datatype MediaType = Audio | Video | Subtitle | UnknownMedia

  /** The part of a sink that takes part in asynchronous state changes. */
  datatype Sink = Sink(commitNeeded: bool, current: GstState, next: GstState, pending: GstState)

  datatype Source = Source(kind: MediaType, state: ClientState, flushing: bool, sink: Sink)

  type Sources = map<int, Source>

  const UNKNOWN_STREAMS := -1

  datatype State = State(
    client: ClientState,
    sources: Sources,
    server: PlaybackState,
    wasPlayingBeforeEos: bool,
    allAttachedSent: bool,
    audioStreams: int,
    videoStreams: int,
    subtitleStreams: int)

  datatype Reply = SuccessAsync | SuccessSync | NotAttached | NoReply

  /** One line of the history.  `SentPause` records the client state it was sent from,
      `SentAllAttached` the table of sources and the declared counts at that moment. */
  datatype Entry =
    | Attached(id: int)
    | Removed(id: int)
    | AskedPlay(id: int)
    | AskedPause(id: int)
    | FlushBegun(id: int)
    | FlushedAsync(id: int)
    | Reported(report: PlaybackState)
    | SentPlay
    | SentPause(from: ClientState)
    | SentAllAttached(table: Sources, audio: int, video: int, subtitle: int)
    | PostedPlaying

  datatype Outcome = Outcome(state: State, log: seq<Entry>, reply: Reply)

  datatype Event =
    | Play(id: int, async: bool)
    | Pause(id: int)
    | Flush(id: int, accepted: bool, async: bool)
    | Attach(id: int, kind: MediaType, accepted: bool, sink: Sink)
    | SendAllAttached
    | Remove(id: int)
    | Report(report: PlaybackState, order: seq<int>, async: bool)
    | SourceFlushed(id: int)
    | StreamCollection(audio: int, video: int, subtitle: int)
    | SinkChange(id: int, sink: Sink)

  function Init(): State {
    State(Idle, map[], SrvIdle, false, false, UNKNOWN_STREAMS, UNKNOWN_STREAMS, UNKNOWN_STREAMS)
  }

  predicate AllIn(sources: Sources, states: set<ClientState>) {
    forall id | id in sources :: sources[id].state in states
  }

  function WithState(sources: Sources, id: int, s: ClientState): Sources
    requires id in sources
  {
    sources[id := sources[id].(state := s)]
  }

  /** The sink starts an asynchronous state change: it must be committed later. */
  function WithCommitNeeded(sources: Sources, id: int): Sources
    requires id in sources
  {
    sources[id := sources[id].(sink := sources[id].sink.(commitNeeded := true))]
  }

  predicate ServerAlreadyPlaying(st: State) {
    st.server.SrvPlaying? || (st.server.SrvEndOfStream? && st.wasPlayingBeforeEos)
  }

  function PlayStep(st: State, id: int, async: bool): Outcome {
    if id !in st.sources then
      Outcome(st, [], NotAttached)
    else if ServerAlreadyPlaying(st) then
      var sources := WithState(st.sources, id, Playing);
      var client := if AllIn(sources, {Playing}) then Playing else st.client;
      Outcome(st.(sources := sources, client := client), [AskedPlay(id)], SuccessSync)
    else
      var sources := WithState(st.sources, id, AwaitingPlaying);
      if st.client.Paused? && AllIn(sources, {AwaitingPlaying, Playing}) then
        if async then
          Outcome(st.(sources := WithCommitNeeded(sources, id), client := AwaitingPlaying),
                  [AskedPlay(id), SentPlay], SuccessAsync)
        else
          Outcome(st.(sources := sources, client := AwaitingPlaying),
                  [AskedPlay(id), SentPlay, PostedPlaying], SuccessSync)
      else
        Outcome(st.(sources := WithCommitNeeded(sources, id)), [AskedPlay(id)], SuccessAsync)
  }

  function PauseStep(st: State, id: int): Outcome {
    if id !in st.sources then
      Outcome(st, [], NotAttached)
    else if st.server.SrvPaused? && !st.client.AwaitingPlaying? && !st.client.AwaitingPaused? then
      var sources := WithState(st.sources, id, Paused);
      var client := if AllIn(sources, {Paused}) then Paused else st.client;
      Outcome(st.(sources := sources, client := client), [AskedPause(id)], SuccessSync)
    else
      var sources := WithState(st.sources, id, AwaitingPaused);
      var shouldPause :=
        if st.client.Ready? then AllIn(sources, {AwaitingPaused})
        else st.client.AwaitingPlaying? || st.client.Playing?;
      if shouldPause then
        Outcome(st.(sources := WithCommitNeeded(sources, id), client := AwaitingPaused),
                [AskedPause(id), SentPause(st.client)], SuccessAsync)
      else
        Outcome(st.(sources := WithCommitNeeded(sources, id)), [AskedPause(id)], SuccessAsync)
  }

  function ClientAfterAsyncFlush(client: ClientState): ClientState {
    if client.Playing? then AwaitingPlaying
    else if client.Paused? then AwaitingPaused
    else client
  }

  function FlushStep(st: State, id: int, accepted: bool, async: bool): Outcome {
    var st1 := st.(wasPlayingBeforeEos := false);
    if id !in st.sources || !accepted then
      Outcome(st1, [FlushBegun(id)], NoReply)
    else
      var flushing := st.sources[id := st.sources[id].(flushing := true)];
      if async then
        var sources := WithState(WithCommitNeeded(flushing, id), id, AwaitingPaused);
        Outcome(st1.(sources := sources, client := ClientAfterAsyncFlush(st.client)),
                [FlushBegun(id), FlushedAsync(id)], NoReply)
      else
        Outcome(st1.(sources := flushing), [FlushBegun(id)], NoReply)
  }

  function IdsOfKind(sources: Sources, kind: MediaType): set<int> {
    set id | id in sources && sources[id].kind == kind
  }

  predicate CountsMatch(sources: Sources, audio: int, video: int, subtitle: int) {
    && |IdsOfKind(sources, Video)| == video
    && |IdsOfKind(sources, Audio)| == audio
    && |IdsOfKind(sources, Subtitle)| == subtitle
  }

  function SendAllAttachedStep(st: State): Outcome {
    if st.allAttachedSent || !CountsMatch(st.sources, st.audioStreams, st.videoStreams, st.subtitleStreams) then
      Outcome(st, [], NoReply)
    else
      var told := SentAllAttached(st.sources, st.audioStreams, st.videoStreams, st.subtitleStreams);
      if AllIn(st.sources, {AwaitingPaused}) then
        Outcome(st.(allAttachedSent := true, client := AwaitingPaused), [told, SentPause(Ready)], NoReply)
      else
        Outcome(st.(allAttachedSent := true, client := Ready), [told], NoReply)
  }

  function AttachStep(st: State, id: int, kind: MediaType, accepted: bool, sink: Sink): Outcome {
    if kind.UnknownMedia? then
      Outcome(st, [], NoReply)
    else if accepted && id !in st.sources then
      var o := SendAllAttachedStep(st.(sources := st.sources[id := Source(kind, Ready, false, sink)]));
      Outcome(o.state, [Attached(id)] + o.log, NoReply)
    else
      SendAllAttachedStep(st)
  }

  /** The client's own reaction to a report, before the sources are visited. */
  function TakeIn(st: State, report: PlaybackState): State {
    var st1 := st.(server := report);
    match report
    case SrvPaused =>
      st1.(wasPlayingBeforeEos := false, client := if st.client.AwaitingPaused? then Paused else st.client)
    case SrvPlaying =>
      st1.(wasPlayingBeforeEos := false, client := if st.client.AwaitingPlaying? then Playing else st.client)
    case SrvEndOfStream =>
      st1.(wasPlayingBeforeEos := st.wasPlayingBeforeEos || st.server.SrvPlaying?)
    case SrvFailure => st1.(wasPlayingBeforeEos := false)
    case _ => st1
  }

  /** PLAYING is outdated once a pause is on its way. */
  predicate IsVisiting(st: State, report: PlaybackState) {
    report.SrvPaused? || (report.SrvPlaying? && !st.client.AwaitingPaused?)
  }

  function SettledState(s: ClientState, report: PlaybackState): ClientState {
    if report.SrvPaused? && s.AwaitingPaused? then Paused
    else if report.SrvPlaying? && s.AwaitingPlaying? then Playing
    else s
  }

  predicate Commits(sink: Sink, report: PlaybackState) {
    && sink.commitNeeded
    && ((report.SrvPaused? && sink.next.GstPaused?) || (report.SrvPlaying? && sink.next.GstPlaying?))
  }

  /** A prerolled sink that still wants to go on to PLAYING asks for it again. */
  predicate ReRequestsPlay(sink: Sink, report: PlaybackState) {
    sink.commitNeeded && report.SrvPaused? && sink.current.GstPaused? && sink.next.GstPlaying?
  }

  function Committed(sink: Sink): Sink {
    Sink(false, sink.next, if sink.next == sink.pending then VoidPending else sink.pending, VoidPending)
  }

  /** One turn of the loop over the sources: settle the source, then call its delegate,
      which either commits the sink's state or re-enters the client with a play request. */
  function Visit(st: State, id: int, report: PlaybackState, async: bool): Outcome {
    if id !in st.sources then
      Outcome(st, [], NoReply)
    else
      var source := st.sources[id];
      var settled := source.(state := SettledState(source.state, report));
      if Commits(source.sink, report) then
        Outcome(st.(sources := st.sources[id := settled.(sink := Committed(source.sink))]), [], NoReply)
      else if ReRequestsPlay(source.sink, report) then
        PlayStep(st.(sources := st.sources[id := settled]), id, async)
      else
        Outcome(st.(sources := st.sources[id := settled]), [], NoReply)
  }

  function VisitAll(st: State, order: seq<int>, report: PlaybackState, async: bool): Outcome {
    if order == [] then
      Outcome(st, [], NoReply)
    else
      var n := |order| - 1;
      var before := VisitAll(st, order[..n], report, async);
      var last := Visit(before.state, order[n], report, async);
      Outcome(last.state, before.log + last.log, NoReply)
  }

  function ReportStep(st: State, report: PlaybackState, order: seq<int>, async: bool): Outcome {
    var st1 := TakeIn(st, report);
    if IsVisiting(st, report) then
      var o := VisitAll(st1, order, report, async);
      Outcome(o.state, [Reported(report)] + o.log, NoReply)
    else
      Outcome(st1, [Reported(report)], NoReply)
  }

  function Step(st: State, e: Event): Outcome {
    match e
    case Play(id, async) => PlayStep(st, id, async)
    case Pause(id) => PauseStep(st, id)
    case Flush(id, accepted, async) => FlushStep(st, id, accepted, async)
    case Attach(id, kind, accepted, sink) => AttachStep(st, id, kind, accepted, sink)
    case SendAllAttached => SendAllAttachedStep(st)
    case Remove(id) => Outcome(st.(sources := st.sources - {id}), [Removed(id)], NoReply)
    case Report(report, order, async) => ReportStep(st, report, order, async)
    case SourceFlushed(id) =>
      if id in st.sources && st.sources[id].flushing then
        Outcome(st.(sources := st.sources[id := st.sources[id].(flushing := false)]), [], NoReply)
      else
        Outcome(st, [], NoReply)
    case StreamCollection(audio, video, subtitle) =>
      Outcome(st.(audioStreams := WriteOnce(st.audioStreams, audio),
                  videoStreams := WriteOnce(st.videoStreams, video),
                  subtitleStreams := WriteOnce(st.subtitleStreams, subtitle)), [], NoReply)
    case SinkChange(id, sink) =>
      if id in st.sources then
        Outcome(st.(sources := st.sources[id := st.sources[id].(sink := sink)]), [], NoReply)
      else
        Outcome(st, [], NoReply)
  }

  function WriteOnce(known: int, value: int): int {
    if known == UNKNOWN_STREAMS then value else known
  }

  datatype History = History(state: State, log: seq<Entry>)

  /** The state and the log after a whole run of events. */
  function Run(events: seq<Event>): History {
    if events == [] then
      History(Init(), [])
    else
      var n := |events| - 1;
      var before := Run(events[..n]);
      var o := Step(before.state, events[n]);
      History(o.state, before.log + o.log)
  }

  lemma RunGrows(events: seq<Event>, e: Event)
    ensures var before := Run(events);
            var o := Step(before.state, e);
            Run(events + [e]) == History(o.state, before.log + o.log)
  {
    assert (events + [e])[..|events|] == events;
  }
}
