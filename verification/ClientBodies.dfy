/** What the client posts to its message queue: each client event as a program of small steps
    on the client's fields, in the order of the source, with the requests that sinks make
    while a report is handled as nested calls. */
module ClientBodies {
  import opened ClientModel
  import Q = MessageQueueModel
  import QT = MessageQueueTheorems
  import QC = MessageQueueCalm

  type Body = seq<Q.Action<History>>

  // ----- The small steps -----

  /** A change to one entry of the table of sources. */
  datatype Edit =
    | SetState(state: ClientState)
    | NeedCommit
    | SetFlushing(flushing: bool)
    | Settle(report: PlaybackState)
    | CommitSink
    | SetSink(sink: Sink)

  function Edited(x: Source, e: Edit): Source {
    match e
    case SetState(s) => x.(state := s)
    case NeedCommit => x.(sink := x.sink.(commitNeeded := true))
    case SetFlushing(flushing) => x.(flushing := flushing)
    case Settle(report) => x.(state := SettledState(x.state, report))
    case CommitSink => x.(sink := Committed(x.sink))
    case SetSink(sink) => x.(sink := sink)
  }

  datatype Micro =
    | Note(entry: Entry)
    | NoteTold
    | MarkTold
    | SetClient(client: ClientState)
    | LeaveSettled
    | ForgetEos
    | Change(id: int, edit: Edit)
    | Insert(id: int, source: Source)
    | Erase(id: int)
    | TakeReport(report: PlaybackState)
    | Declare(audio: int, video: int, subtitle: int)

  function Perform(m: Micro, h: History): History {
    var st := h.state;
    match m
    case Note(e) => h.(log := h.log + [e])
    case NoteTold =>
      h.(log := h.log + [SentAllAttached(st.sources, st.audioStreams, st.videoStreams, st.subtitleStreams)])
    case MarkTold => h.(state := st.(allAttachedSent := true))
    case SetClient(s) => h.(state := st.(client := s))
    case LeaveSettled => h.(state := st.(client := ClientAfterAsyncFlush(st.client)))
    case ForgetEos => h.(state := st.(wasPlayingBeforeEos := false))
    case Change(id, edit) =>
      if id in st.sources then h.(state := st.(sources := st.sources[id := Edited(st.sources[id], edit)])) else h
    case Insert(id, source) => h.(state := st.(sources := st.sources[id := source]))
    case Erase(id) => h.(state := st.(sources := st.sources - {id}))
    case TakeReport(report) => h.(state := TakeIn(st, report))
    case Declare(audio, video, subtitle) =>
      h.(state := st.(audioStreams := WriteOnce(st.audioStreams, audio),
                      videoStreams := WriteOnce(st.videoStreams, video),
                      subtitleStreams := WriteOnce(st.subtitleStreams, subtitle)))
  }

  datatype Test =
    | Has(id: int)
    | AllAre(states: set<ClientState>)
    | ClientIs(client: ClientState)
    | ServerPlays
    | MayPlay
    | PausedAlready
    | ShouldPause
    | MayTell
    | IsFlushing(id: int)
    | Visits(report: PlaybackState)
    | MayCommit(id: int, report: PlaybackState)
    | AsksAgain(id: int, report: PlaybackState)

  predicate Holds(t: Test, h: History) {
    var st := h.state;
    match t
    case Has(id) => id in st.sources
    case AllAre(states) => AllIn(st.sources, states)
    case ClientIs(s) => st.client == s
    case ServerPlays => ServerAlreadyPlaying(st)
    case MayPlay => st.client.Paused? && AllIn(st.sources, {AwaitingPlaying, Playing})
    case PausedAlready => st.server.SrvPaused? && !st.client.AwaitingPlaying? && !st.client.AwaitingPaused?
    case ShouldPause =>
      if st.client.Ready? then AllIn(st.sources, {AwaitingPaused}) else st.client.AwaitingPlaying? || st.client.Playing?
    case MayTell =>
      !st.allAttachedSent && CountsMatch(st.sources, st.audioStreams, st.videoStreams, st.subtitleStreams)
    case IsFlushing(id) => id in st.sources && st.sources[id].flushing
    case Visits(report) => IsVisiting(st, report)
    case MayCommit(id, report) => id in st.sources && Commits(st.sources[id].sink, report)
    case AsksAgain(id, report) => id in st.sources && ReRequestsPlay(st.sources[id].sink, report)
  }

  function Act(m: Micro): Q.Action<History> {
    Q.Do((h: History) => Perform(m, h))
  }

  function Branch(t: Test, yes: Body, no: Body): Q.Action<History> {
    Q.If((h: History) => Holds(t, h), yes, no)
  }

  // ----- The programs -----

  function PlayAtOnce(id: int): Body {
    [Act(Change(id, SetState(Playing))), Branch(AllAre({Playing}), [Act(SetClient(Playing))], [])]
  }

  function SendPlay(id: int, async: bool): Body {
    [Act(Note(SentPlay)), Act(SetClient(AwaitingPlaying)),
     Act(if async then Change(id, NeedCommit) else Note(PostedPlaying))]
  }

  function PlayLater(id: int, async: bool): Body {
    [Act(Change(id, SetState(AwaitingPlaying))), Branch(MayPlay, SendPlay(id, async), [Act(Change(id, NeedCommit))])]
  }

  function PlayAttached(id: int, async: bool): Body {
    [Act(Note(AskedPlay(id))), Branch(ServerPlays, PlayAtOnce(id), PlayLater(id, async))]
  }

  function PlayBody(id: int, async: bool): Body {
    [Branch(Has(id), PlayAttached(id, async), [])]
  }

  function PauseAtOnce(id: int): Body {
    [Act(Change(id, SetState(Paused))), Branch(AllAre({Paused}), [Act(SetClient(Paused))], [])]
  }

  /** The pause command records the client state it is sent from. */
  function SendPause(from: ClientState): Body {
    [Act(Note(SentPause(from))), Act(SetClient(AwaitingPaused))]
  }

  function PauseFrom(from: ClientState, no: Body): Body {
    [Branch(ClientIs(from), SendPause(from), no)]
  }

  function PauseLater(id: int): Body {
    [Act(Change(id, SetState(AwaitingPaused))),
     Branch(ShouldPause, PauseFrom(Ready, PauseFrom(AwaitingPlaying, SendPause(Playing))), []),
     Act(Change(id, NeedCommit))]
  }

  function PauseAttached(id: int): Body {
    [Act(Note(AskedPause(id))), Branch(PausedAlready, PauseAtOnce(id), PauseLater(id))]
  }

  function PauseBody(id: int): Body {
    [Branch(Has(id), PauseAttached(id), [])]
  }

  function FlushAsync(id: int): Body {
    [Act(Change(id, NeedCommit)), Act(Change(id, SetState(AwaitingPaused))), Act(Note(FlushedAsync(id))), Act(LeaveSettled)]
  }

  function FlushAttached(id: int, async: bool): Body {
    [Act(Change(id, SetFlushing(true)))] + if async then FlushAsync(id) else []
  }

  function FlushBody(id: int, accepted: bool, async: bool): Body {
    [Act(Note(FlushBegun(id))), Act(ForgetEos), Branch(Has(id), if accepted then FlushAttached(id, async) else [], [])]
  }

  function TellAll(): Body {
    [Act(NoteTold), Act(MarkTold), Act(SetClient(Ready)), Branch(AllAre({AwaitingPaused}), SendPause(Ready), [])]
  }

  function SendAllBody(): Body {
    [Branch(MayTell, TellAll(), [])]
  }

  function InsertSource(id: int, kind: MediaType, sink: Sink): Body {
    [Act(Insert(id, Source(kind, Ready, false, sink))), Act(Note(Attached(id)))]
  }

  function AttachBody(id: int, kind: MediaType, accepted: bool, sink: Sink): Body {
    if kind.UnknownMedia? then []
    else [Branch(Has(id), [], if accepted then InsertSource(id, kind, sink) else [])] + SendAllBody()
  }

  /** One turn of the loop over the sources; the sink's request is a nested call. */
  function VisitAttached(id: int, report: PlaybackState, async: bool): Body {
    [Act(Change(id, Settle(report))),
     Branch(MayCommit(id, report), [Act(Change(id, CommitSink))],
            [Branch(AsksAgain(id, report), [Q.Call(PlayBody(id, async))], [])])]
  }

  function VisitBody(id: int, report: PlaybackState, async: bool): Body {
    [Branch(Has(id), VisitAttached(id, report, async), [])]
  }

  function VisitsBody(order: seq<int>, report: PlaybackState, async: bool): Body {
    if order == [] then []
    else VisitsBody(order[..|order| - 1], report, async) + VisitBody(order[|order| - 1], report, async)
  }

  function ReportBody(report: PlaybackState, order: seq<int>, async: bool): Body {
    [Act(TakeReport(report)), Act(Note(Reported(report))), Branch(Visits(report), VisitsBody(order, report, async), [])]
  }

  function BodyFor(e: Event): Body {
    match e
    case Play(id, async) => PlayBody(id, async)
    case Pause(id) => PauseBody(id)
    case Flush(id, accepted, async) => FlushBody(id, accepted, async)
    case Attach(id, kind, accepted, sink) => AttachBody(id, kind, accepted, sink)
    case SendAllAttached => SendAllBody()
    case Remove(id) => [Act(Erase(id)), Act(Note(Removed(id)))]
    case Report(report, order, async) => ReportBody(report, order, async)
    case SourceFlushed(id) => [Branch(IsFlushing(id), [Act(Change(id, SetFlushing(false)))], [])]
    case StreamCollection(audio, video, subtitle) => [Act(Declare(audio, video, subtitle))]
    case SinkChange(id, sink) => [Act(Change(id, SetSink(sink)))]
  }

  // ----- Running a program -----

  /** The client after an outcome. */
  function Then(h: History, o: Outcome): History {
    History(o.state, h.log + o.log)
  }

  ghost predicate Does(body: Body, h: History, h': History) {
    QT.Exec(QT.Context(h, false), body) == QT.Context(h', false)
  }

  ghost predicate Takes(a: Q.Action<History>, h: History, h': History) {
    QT.ExecOne(QT.Context(h, false), a) == QT.Context(h', false)
  }

  lemma ActTakes(m: Micro, h: History)
    ensures Takes(Act(m), h, Perform(m, h))
  {
  }

  lemma BranchTakes(t: Test, yes: Body, no: Body, h: History, h': History)
    requires if Holds(t, h) then Does(yes, h, h') else Does(no, h, h')
    ensures Takes(Branch(t, yes, no), h, h')
  {
  }

  lemma CallTakes(body: Body, h: History, h': History)
    requires Does(body, h, h')
    ensures Takes(Q.Call(body), h, h')
  {
  }

  lemma DoesNothing(h: History)
    ensures Does([], h, h)
  {
  }

  lemma DoesJoin(a: Body, b: Body, h: History, h1: History, h2: History)
    requires Does(a, h, h1) && Does(b, h1, h2)
    ensures Does(a + b, h, h2)
  {
    QT.ExecJoins(QT.Context(h, false), a, b);
  }

  lemma DoesOne(a: Q.Action<History>, h: History, h': History)
    requires Takes(a, h, h')
    ensures Does([a], h, h')
  {
    QT.ExecFirst(QT.Context(h, false), [a]);
    assert [a][1..] == [];
  }

  lemma DoesTwo(a: Q.Action<History>, b: Q.Action<History>, h: History, h1: History, h2: History)
    requires Takes(a, h, h1) && Takes(b, h1, h2)
    ensures Does([a, b], h, h2)
  {
    DoesOne(a, h, h1);
    DoesOne(b, h1, h2);
    DoesJoin([a], [b], h, h1, h2);
    assert [a] + [b] == [a, b];
  }

  lemma DoesThree(a: Q.Action<History>, b: Q.Action<History>, c: Q.Action<History>,
                  h: History, h1: History, h2: History, h3: History)
    requires Takes(a, h, h1) && Takes(b, h1, h2) && Takes(c, h2, h3)
    ensures Does([a, b, c], h, h3)
  {
    DoesTwo(a, b, h, h1, h2);
    DoesOne(c, h2, h3);
    DoesJoin([a, b], [c], h, h2, h3);
    assert [a, b] + [c] == [a, b, c];
  }

  lemma DoesFour(a: Q.Action<History>, b: Q.Action<History>, c: Q.Action<History>, d: Q.Action<History>,
                 h: History, h1: History, h2: History, h3: History, h4: History)
    requires Takes(a, h, h1) && Takes(b, h1, h2) && Takes(c, h2, h3) && Takes(d, h3, h4)
    ensures Does([a, b, c, d], h, h4)
  {
    DoesTwo(a, b, h, h1, h2);
    DoesTwo(c, d, h2, h3, h4);
    DoesJoin([a, b], [c, d], h, h2, h4);
    assert [a, b] + [c, d] == [a, b, c, d];
  }

  // ----- Each program does its step -----

  /** An edit followed by setting the client if all sources are in a state. */
  lemma EditAndSettleDoes(h: History, id: int, s: ClientState)
    requires id in h.state.sources
    ensures var sources := WithState(h.state.sources, id, s);
            var client := if AllIn(sources, {s}) then s else h.state.client;
            Does([Act(Change(id, SetState(s))), Branch(AllAre({s}), [Act(SetClient(s))], [])], h,
                 h.(state := h.state.(sources := sources, client := client)))
  {
    var h1 := Perform(Change(id, SetState(s)), h);
    var h2 := if Holds(AllAre({s}), h1) then Perform(SetClient(s), h1) else h1;
    ActTakes(Change(id, SetState(s)), h);
    ActTakes(SetClient(s), h1);
    DoesOne(Act(SetClient(s)), h1, Perform(SetClient(s), h1));
    DoesNothing(h1);
    BranchTakes(AllAre({s}), [Act(SetClient(s))], [], h1, h2);
    DoesTwo(Act(Change(id, SetState(s))), Branch(AllAre({s}), [Act(SetClient(s))], []), h, h1, h2);
  }

  lemma SendPlayDoes(h: History, id: int, async: bool)
    requires id in h.state.sources
    ensures var st := h.state.(client := AwaitingPlaying);
            Does(SendPlay(id, async), h,
                 if async then History(st.(sources := WithCommitNeeded(st.sources, id)), h.log + [SentPlay])
                 else History(st, h.log + [SentPlay] + [PostedPlaying]))
  {
    var last := if async then Change(id, NeedCommit) else Note(PostedPlaying);
    var h1 := Perform(Note(SentPlay), h);
    var h2 := Perform(SetClient(AwaitingPlaying), h1);
    ActTakes(Note(SentPlay), h);
    ActTakes(SetClient(AwaitingPlaying), h1);
    ActTakes(last, h2);
    DoesThree(Act(Note(SentPlay)), Act(SetClient(AwaitingPlaying)), Act(last), h, h1, h2, Perform(last, h2));
  }

  /** The client after an outcome whose first log line is already written. */
  function ThenRest(h: History, o: Outcome): History
    requires o.log != []
  {
    History(o.state, h.log + o.log[1..])
  }

  lemma PlayLaterDoes(h: History, id: int, async: bool)
    requires id in h.state.sources && !ServerAlreadyPlaying(h.state)
    ensures Does(PlayLater(id, async), h, ThenRest(h, PlayStep(h.state, id, async)))
  {
    var first := Change(id, SetState(AwaitingPlaying));
    var h1 := Perform(first, h);
    var h2 := ThenRest(h, PlayStep(h.state, id, async));
    ActTakes(first, h);
    if Holds(MayPlay, h1) {
      SendPlayDoes(h1, id, async);
      assert h1.log + [SentPlay] + [PostedPlaying] == h.log + [SentPlay, PostedPlaying];
    } else {
      assert h2 == Perform(Change(id, NeedCommit), h1);
      ActTakes(Change(id, NeedCommit), h1);
      DoesOne(Act(Change(id, NeedCommit)), h1, h2);
    }
    BranchTakes(MayPlay, SendPlay(id, async), [Act(Change(id, NeedCommit))], h1, h2);
    DoesTwo(Act(first), Branch(MayPlay, SendPlay(id, async), [Act(Change(id, NeedCommit))]), h, h1, h2);
  }

  /** A program for an attached source: a log line, then one of two ways. */
  lemma AskedThenDoes(h: History, id: int, e: Entry, t: Test, yes: Body, no: Body, o: Outcome)
    requires o.log != [] && o.log[0] == e
    requires var h1 := Perform(Note(e), h);
             if Holds(t, h1) then Does(yes, h1, ThenRest(h1, o)) else Does(no, h1, ThenRest(h1, o))
    requires id in h.state.sources
    ensures Does([Branch(Has(id), [Act(Note(e)), Branch(t, yes, no)], [])], h, Then(h, o))
  {
    var h1 := Perform(Note(e), h);
    var h2 := ThenRest(h1, o);
    assert o.log == [e] + o.log[1..];
    assert h.log + [e] + o.log[1..] == h.log + o.log;
    ActTakes(Note(e), h);
    BranchTakes(t, yes, no, h1, h2);
    DoesTwo(Act(Note(e)), Branch(t, yes, no), h, h1, h2);
    BranchTakes(Has(id), [Act(Note(e)), Branch(t, yes, no)], [], h, h2);
    DoesOne(Branch(Has(id), [Act(Note(e)), Branch(t, yes, no)], []), h, h2);
  }

  /** A program for a source that is not attached. */
  lemma NotAttachedDoes(h: History, id: int, yes: Body, no: Body, h': History)
    requires id !in h.state.sources && Does(no, h, h')
    ensures Does([Branch(Has(id), yes, no)], h, h')
  {
    BranchTakes(Has(id), yes, no, h, h');
    DoesOne(Branch(Has(id), yes, no), h, h');
  }

  lemma SameLog(h: History)
    ensures History(h.state, h.log + []) == h
  {
  }

  lemma PlayDoes(h: History, id: int, async: bool)
    ensures Does(PlayBody(id, async), h, Then(h, PlayStep(h.state, id, async)))
  {
    SameLog(h);
    if id !in h.state.sources {
      DoesNothing(h);
      NotAttachedDoes(h, id, PlayAttached(id, async), [], h);
    } else {
      var h1 := Perform(Note(AskedPlay(id)), h);
      SameLog(h1);
      if ServerAlreadyPlaying(h.state) {
        EditAndSettleDoes(h1, id, Playing);
        assert PlayStep(h.state, id, async).log[1..] == [];
        SameLog(ThenRest(h1, PlayStep(h.state, id, async)));
      } else {
        PlayLaterDoes(h1, id, async);
      }
      AskedThenDoes(h, id, AskedPlay(id), ServerPlays, PlayAtOnce(id), PlayLater(id, async), PlayStep(h.state, id, async));
    }
  }

  lemma SendPauseDoes(h: History, from: ClientState)
    ensures Does(SendPause(from), h, History(h.state.(client := AwaitingPaused), h.log + [SentPause(from)]))
  {
    var h1 := Perform(Note(SentPause(from)), h);
    ActTakes(Note(SentPause(from)), h);
    ActTakes(SetClient(AwaitingPaused), h1);
    DoesTwo(Act(Note(SentPause(from))), Act(SetClient(AwaitingPaused)), h, h1, Perform(SetClient(AwaitingPaused), h1));
  }

  lemma PauseFromDoes(h: History, from: ClientState, no: Body, h': History)
    requires if h.state.client == from then Does(SendPause(from), h, h') else Does(no, h, h')
    ensures Does(PauseFrom(from, no), h, h')
  {
    BranchTakes(ClientIs(from), SendPause(from), no, h, h');
    DoesOne(Branch(ClientIs(from), SendPause(from), no), h, h');
  }

  lemma PauseLaterDoes(h: History, id: int)
    requires id in h.state.sources && !Holds(PausedAlready, h)
    ensures Does(PauseLater(id), h, ThenRest(h, PauseStep(h.state, id)))
  {
    var first := Change(id, SetState(AwaitingPaused));
    var send := PauseFrom(Ready, PauseFrom(AwaitingPlaying, SendPause(Playing)));
    var h1 := Perform(first, h);
    var h2 := if Holds(ShouldPause, h1)
              then History(h1.state.(client := AwaitingPaused), h1.log + [SentPause(h1.state.client)]) else h1;
    ActTakes(first, h);
    if Holds(ShouldPause, h1) {
      SendPauseDoes(h1, h1.state.client);
      if !h1.state.client.Ready? {
        PauseFromDoes(h1, AwaitingPlaying, SendPause(Playing), h2);
      }
      PauseFromDoes(h1, Ready, PauseFrom(AwaitingPlaying, SendPause(Playing)), h2);
    } else {
      DoesNothing(h1);
    }
    BranchTakes(ShouldPause, send, [], h1, h2);
    ActTakes(Change(id, NeedCommit), h2);
    var h3 := Perform(Change(id, NeedCommit), h2);
    DoesThree(Act(first), Branch(ShouldPause, send, []), Act(Change(id, NeedCommit)), h, h1, h2, h3);
    var o := PauseStep(h.state, id);
    if Holds(ShouldPause, h1) {
      assert o.log[1..] == [SentPause(h.state.client)];
    } else {
      assert o.log[1..] == [] && h.log + [] == h.log;
    }
    assert h3.log == h.log + o.log[1..];
    assert h3.state == o.state;
  }

  lemma PauseDoes(h: History, id: int)
    ensures Does(PauseBody(id), h, Then(h, PauseStep(h.state, id)))
  {
    SameLog(h);
    if id !in h.state.sources {
      DoesNothing(h);
      NotAttachedDoes(h, id, PauseAttached(id), [], h);
    } else {
      var h1 := Perform(Note(AskedPause(id)), h);
      SameLog(h1);
      if Holds(PausedAlready, h) {
        EditAndSettleDoes(h1, id, Paused);
        assert PauseStep(h.state, id).log[1..] == [];
        SameLog(ThenRest(h1, PauseStep(h.state, id)));
      } else {
        PauseLaterDoes(h1, id);
      }
      AskedThenDoes(h, id, AskedPause(id), PausedAlready, PauseAtOnce(id), PauseLater(id), PauseStep(h.state, id));
    }
  }

  lemma FlushAsyncDoes(h: History, id: int)
    requires id in h.state.sources
    ensures var sources := WithState(WithCommitNeeded(h.state.sources, id), id, AwaitingPaused);
            Does(FlushAsync(id), h,
                 History(h.state.(sources := sources, client := ClientAfterAsyncFlush(h.state.client)), h.log + [FlushedAsync(id)]))
  {
    var h1 := Perform(Change(id, NeedCommit), h);
    var h2 := Perform(Change(id, SetState(AwaitingPaused)), h1);
    var h3 := Perform(Note(FlushedAsync(id)), h2);
    ActTakes(Change(id, NeedCommit), h);
    ActTakes(Change(id, SetState(AwaitingPaused)), h1);
    ActTakes(Note(FlushedAsync(id)), h2);
    ActTakes(LeaveSettled, h3);
    DoesFour(Act(Change(id, NeedCommit)), Act(Change(id, SetState(AwaitingPaused))), Act(Note(FlushedAsync(id))),
             Act(LeaveSettled), h, h1, h2, h3, Perform(LeaveSettled, h3));
  }

  lemma FlushAttachedDoes(h: History, id: int, async: bool)
    requires id in h.state.sources && !h.state.wasPlayingBeforeEos
    ensures Does(FlushAttached(id, async), h, ThenRest(h, FlushStep(h.state, id, true, async)))
  {
    var first := Change(id, SetFlushing(true));
    var h1 := Perform(first, h);
    var h2 := ThenRest(h, FlushStep(h.state, id, true, async));
    SameLog(h1);
    ActTakes(first, h);
    DoesOne(Act(first), h, h1);
    if async {
      FlushAsyncDoes(h1, id);
      assert [FlushBegun(id), FlushedAsync(id)][1..] == [FlushedAsync(id)];
      assert h2.state.sources == WithState(WithCommitNeeded(h1.state.sources, id), id, AwaitingPaused);
    } else {
      assert [FlushBegun(id)][1..] == [];
      DoesNothing(h1);
    }
    DoesJoin([Act(first)], if async then FlushAsync(id) else [], h, h1, h2);
  }

  lemma FlushDoes(h: History, id: int, accepted: bool, async: bool)
    ensures Does(FlushBody(id, accepted, async), h, Then(h, FlushStep(h.state, id, accepted, async)))
  {
    var o := FlushStep(h.state, id, accepted, async);
    var yes := if accepted then FlushAttached(id, async) else [];
    var h1 := Perform(Note(FlushBegun(id)), h);
    var h2 := Perform(ForgetEos, h1);
    assert o.log == [FlushBegun(id)] + o.log[1..];
    assert h.log + [FlushBegun(id)] + o.log[1..] == h.log + o.log;
    SameLog(h2);
    ActTakes(Note(FlushBegun(id)), h);
    ActTakes(ForgetEos, h1);
    if id in h.state.sources && accepted {
      FlushAttachedDoes(h2, id, async);
    } else {
      DoesNothing(h2);
    }
    BranchTakes(Has(id), yes, [], h2, Then(h, o));
    DoesThree(Act(Note(FlushBegun(id))), Act(ForgetEos), Branch(Has(id), yes, []), h, h1, h2, Then(h, o));
  }

  lemma TellAllDoes(h: History)
    requires Holds(MayTell, h)
    ensures Does(TellAll(), h, Then(h, SendAllAttachedStep(h.state)))
  {
    var h1 := Perform(NoteTold, h);
    var h2 := Perform(MarkTold, h1);
    var h3 := Perform(SetClient(Ready), h2);
    var h4 := Then(h, SendAllAttachedStep(h.state));
    ActTakes(NoteTold, h);
    ActTakes(MarkTold, h1);
    ActTakes(SetClient(Ready), h2);
    SendPauseDoes(h3, Ready);
    DoesNothing(h3);
    var told := SentAllAttached(h.state.sources, h.state.audioStreams, h.state.videoStreams, h.state.subtitleStreams);
    assert h.log + [told] + [SentPause(Ready)] == h.log + [told, SentPause(Ready)];
    BranchTakes(AllAre({AwaitingPaused}), SendPause(Ready), [], h3, h4);
    DoesFour(Act(NoteTold), Act(MarkTold), Act(SetClient(Ready)), Branch(AllAre({AwaitingPaused}), SendPause(Ready), []),
             h, h1, h2, h3, h4);
  }

  lemma SendAllDoes(h: History)
    ensures Does(SendAllBody(), h, Then(h, SendAllAttachedStep(h.state)))
  {
    var h' := Then(h, SendAllAttachedStep(h.state));
    SameLog(h);
    if Holds(MayTell, h) {
      TellAllDoes(h);
    } else {
      DoesNothing(h);
    }
    BranchTakes(MayTell, TellAll(), [], h, h');
    DoesOne(Branch(MayTell, TellAll(), []), h, h');
  }

  lemma InsertDoes(h: History, id: int, kind: MediaType, sink: Sink)
    ensures var sources := h.state.sources[id := Source(kind, Ready, false, sink)];
            Does(InsertSource(id, kind, sink), h, History(h.state.(sources := sources), h.log + [Attached(id)]))
  {
    var insert := Insert(id, Source(kind, Ready, false, sink));
    var h1 := Perform(insert, h);
    ActTakes(insert, h);
    ActTakes(Note(Attached(id)), h1);
    DoesTwo(Act(insert), Act(Note(Attached(id))), h, h1, Perform(Note(Attached(id)), h1));
  }

  /** The table gains the source unless it is there or the backend refuses it. */
  lemma MayInsertDoes(h: History, id: int, kind: MediaType, accepted: bool, sink: Sink)
    ensures var no := if accepted then InsertSource(id, kind, sink) else [];
            var sources := h.state.sources[id := Source(kind, Ready, false, sink)];
            Does([Branch(Has(id), [], no)], h,
                 if accepted && id !in h.state.sources then History(h.state.(sources := sources), h.log + [Attached(id)]) else h)
  {
    var no := if accepted then InsertSource(id, kind, sink) else [];
    var sources := h.state.sources[id := Source(kind, Ready, false, sink)];
    var h1 := if accepted && id !in h.state.sources then History(h.state.(sources := sources), h.log + [Attached(id)]) else h;
    DoesNothing(h);
    InsertDoes(h, id, kind, sink);
    BranchTakes(Has(id), [], no, h, h1);
    DoesOne(Branch(Has(id), [], no), h, h1);
  }

  lemma AttachDoes(h: History, id: int, kind: MediaType, accepted: bool, sink: Sink)
    ensures Does(AttachBody(id, kind, accepted, sink), h, Then(h, AttachStep(h.state, id, kind, accepted, sink)))
  {
    if kind.UnknownMedia? {
      SameLog(h);
      DoesNothing(h);
    } else {
      var no := if accepted then InsertSource(id, kind, sink) else [];
      var sources := h.state.sources[id := Source(kind, Ready, false, sink)];
      var h1 := if accepted && id !in h.state.sources then History(h.state.(sources := sources), h.log + [Attached(id)]) else h;
      MayInsertDoes(h, id, kind, accepted, sink);
      SendAllDoes(h1);
      DoesJoin([Branch(Has(id), [], no)], SendAllBody(), h, h1, Then(h1, SendAllAttachedStep(h1.state)));
      var log := SendAllAttachedStep(h1.state).log;
      assert h.log + [Attached(id)] + log == h.log + ([Attached(id)] + log);
    }
  }

  /** The nested call is the play step inside the visit. */
  lemma VisitAttachedDoes(h: History, id: int, report: PlaybackState, async: bool)
    requires id in h.state.sources
    ensures Does(VisitAttached(id, report, async), h, Then(h, Visit(h.state, id, report, async)))
  {
    var first := Change(id, Settle(report));
    var h1 := Perform(first, h);
    var h2 := Then(h, Visit(h.state, id, report, async));
    var again := Branch(AsksAgain(id, report), [Q.Call(PlayBody(id, async))], []);
    SameLog(h1);
    ActTakes(first, h);
    DoesNothing(h1);
    if Holds(MayCommit(id, report), h1) {
      ActTakes(Change(id, CommitSink), h1);
      assert h2 == Perform(Change(id, CommitSink), h1);
      DoesOne(Act(Change(id, CommitSink)), h1, h2);
    } else {
      if Holds(AsksAgain(id, report), h1) {
        PlayDoes(h1, id, async);
        CallTakes(PlayBody(id, async), h1, h2);
        DoesOne(Q.Call(PlayBody(id, async)), h1, h2);
      }
      BranchTakes(AsksAgain(id, report), [Q.Call(PlayBody(id, async))], [], h1, h2);
      DoesOne(again, h1, h2);
    }
    BranchTakes(MayCommit(id, report), [Act(Change(id, CommitSink))], [again], h1, h2);
    DoesTwo(Act(first), Branch(MayCommit(id, report), [Act(Change(id, CommitSink))], [again]), h, h1, h2);
  }

  lemma VisitDoes(h: History, id: int, report: PlaybackState, async: bool)
    ensures Does(VisitBody(id, report, async), h, Then(h, Visit(h.state, id, report, async)))
  {
    var h' := Then(h, Visit(h.state, id, report, async));
    SameLog(h);
    DoesNothing(h);
    if id in h.state.sources {
      VisitAttachedDoes(h, id, report, async);
    }
    BranchTakes(Has(id), VisitAttached(id, report, async), [], h, h');
    DoesOne(Branch(Has(id), VisitAttached(id, report, async), []), h, h');
  }

  lemma {:induction false} VisitsDo(h: History, order: seq<int>, report: PlaybackState, async: bool)
    ensures Does(VisitsBody(order, report, async), h, Then(h, VisitAll(h.state, order, report, async)))
  {
    if order == [] {
      SameLog(h);
      DoesNothing(h);
    } else {
      var n := |order| - 1;
      var before := VisitAll(h.state, order[..n], report, async);
      var h1 := Then(h, before);
      var last := Visit(before.state, order[n], report, async);
      VisitsDo(h, order[..n], report, async);
      VisitDoes(h1, order[n], report, async);
      DoesJoin(VisitsBody(order[..n], report, async), VisitBody(order[n], report, async), h, h1, Then(h1, last));
      assert h.log + before.log + last.log == h.log + (before.log + last.log);
    }
  }

  lemma ReportDoes(h: History, report: PlaybackState, order: seq<int>, async: bool)
    ensures Does(ReportBody(report, order, async), h, Then(h, ReportStep(h.state, report, order, async)))
  {
    var h1 := Perform(TakeReport(report), h);
    var h2 := Perform(Note(Reported(report)), h1);
    var h3 := Then(h, ReportStep(h.state, report, order, async));
    ActTakes(TakeReport(report), h);
    ActTakes(Note(Reported(report)), h1);
    assert Holds(Visits(report), h2) == IsVisiting(h.state, report);
    VisitsDo(h2, order, report, async);
    DoesNothing(h2);
    var visits := VisitAll(h2.state, order, report, async);
    assert h.log + [Reported(report)] + visits.log == h.log + ([Reported(report)] + visits.log);
    BranchTakes(Visits(report), VisitsBody(order, report, async), [], h2, h3);
    DoesThree(Act(TakeReport(report)), Act(Note(Reported(report))),
              Branch(Visits(report), VisitsBody(order, report, async), []), h, h1, h2, h3);
  }

  lemma RemoveDoes(h: History, id: int)
    ensures Does(BodyFor(Remove(id)), h, Then(h, Step(h.state, Remove(id))))
  {
    var h1 := Perform(Erase(id), h);
    ActTakes(Erase(id), h);
    ActTakes(Note(Removed(id)), h1);
    DoesTwo(Act(Erase(id)), Act(Note(Removed(id))), h, h1, Perform(Note(Removed(id)), h1));
  }

  lemma SmallBodiesDo(h: History, e: Event)
    requires e.SourceFlushed? || e.StreamCollection? || e.SinkChange?
    ensures Does(BodyFor(e), h, Then(h, Step(h.state, e)))
  {
    var h' := Then(h, Step(h.state, e));
    SameLog(h');
    SameLog(h);
    match e
    case SourceFlushed(id) =>
      var m := Change(id, SetFlushing(false));
      ActTakes(m, h);
      DoesOne(Act(m), h, Perform(m, h));
      DoesNothing(h);
      BranchTakes(IsFlushing(id), [Act(m)], [], h, h');
      DoesOne(Branch(IsFlushing(id), [Act(m)], []), h, h');
    case StreamCollection(audio, video, subtitle) =>
      ActTakes(Declare(audio, video, subtitle), h);
      DoesOne(Act(Declare(audio, video, subtitle)), h, h');
    case SinkChange(id, sink) =>
      ActTakes(Change(id, SetSink(sink)), h);
      DoesOne(Act(Change(id, SetSink(sink))), h, h');
  }

  /** The program of each event, run on its own, does exactly the event's step. */
  lemma BodyDoesStep(h: History, e: Event)
    ensures Does(BodyFor(e), h, Then(h, Step(h.state, e)))
  {
    match e
    case Play(id, async) => PlayDoes(h, id, async);
    case Pause(id) => PauseDoes(h, id);
    case Flush(id, accepted, async) => FlushDoes(h, id, accepted, async);
    case Attach(id, kind, accepted, sink) => AttachDoes(h, id, kind, accepted, sink);
    case SendAllAttached => SendAllDoes(h);
    case Remove(id) => RemoveDoes(h, id);
    case Report(report, order, async) => ReportDoes(h, report, order, async);
    case _ => SmallBodiesDo(h, e);
  }

  // ----- What all programs have in common -----

  /** No step rewrites the log, and none stops the queue. */
  ghost predicate IsClean(body: Body) {
    body == [] ||
    (&& (match body[0]
         case Do(run) => forall h: History :: h.log <= run(h).log
         case If(_, yes, no) => IsClean(yes) && IsClean(no)
         case Call(inner) => IsClean(inner)
         case StopSelf => false)
     && IsClean(body[1..]))
  }

  ghost predicate IsCleanAction(a: Q.Action<History>) {
    match a
    case Do(run) => forall h: History :: h.log <= run(h).log
    case If(_, yes, no) => IsClean(yes) && IsClean(no)
    case Call(inner) => IsClean(inner)
    case StopSelf => false
  }

  lemma {:induction false} CleanActionsMakeClean(body: Body)
    requires forall i | 0 <= i < |body| :: IsCleanAction(body[i])
    ensures IsClean(body)
  {
    if body != [] {
      CleanActionsMakeClean(body[1..]);
    }
  }

  lemma {:induction false} CleanJoins(a: Body, b: Body)
    requires IsClean(a) && IsClean(b)
    ensures IsClean(a + b)
  {
    if a == [] {
      assert a + b == b;
    } else {
      assert (a + b)[0] == a[0] && (a + b)[1..] == a[1..] + b;
      CleanJoins(a[1..], b);
    }
  }

  lemma {:induction false} CleanIsCalm(body: Body)
    requires IsClean(body)
    ensures QC.IsCalm(body)
  {
    if body != [] {
      CleanIsCalm(body[1..]);
      match body[0]
      case If(_, yes, no) => CleanIsCalm(yes); CleanIsCalm(no);
      case Call(inner) => CleanIsCalm(inner);
      case _ =>
    }
  }

  /** Running a program only adds to the log. */
  lemma {:induction false} CleanKeepsLog(h: History, body: Body)
    requires IsClean(body)
    ensures var c := QT.Exec(QT.Context(h, false), body); !c.detached && h.log <= c.world.log
    decreases body
  {
    if body != [] {
      var c := QT.Context(h, false);
      QT.ExecFirst(c, body);
      match body[0] {
        case Do(run) => CleanKeepsLog(run(h), body[1..]);
        case If(test, yes, no) =>
          CleanKeepsLog(h, if test(h) then yes else no);
          CleanKeepsLog(QT.ExecOne(c, body[0]).world, body[1..]);
        case Call(inner) =>
          CleanKeepsLog(h, inner);
          CleanKeepsLog(QT.ExecOne(c, body[0]).world, body[1..]);
      }
    }
  }

  lemma ActIsClean(m: Micro)
    ensures IsCleanAction(Act(m))
  {
  }

  lemma ActsAreClean()
    ensures forall m: Micro :: IsCleanAction(Act(m))
    ensures forall m: Micro :: IsClean([Act(m)])
    ensures IsClean([])
  {
    forall m: Micro
      ensures IsCleanAction(Act(m)) && IsClean([Act(m)])
    {
      ActIsClean(m);
      CleanActionsMakeClean([Act(m)]);
    }
  }

  lemma PlayIsClean(id: int, async: bool)
    ensures IsClean(PlayBody(id, async))
  {
    ActsAreClean();
    CleanActionsMakeClean(PlayAtOnce(id));
    CleanActionsMakeClean(SendPlay(id, async));
    CleanActionsMakeClean(PlayLater(id, async));
    CleanActionsMakeClean(PlayAttached(id, async));
    CleanActionsMakeClean(PlayBody(id, async));
  }

  lemma SendPauseIsClean(from: ClientState)
    ensures IsClean(SendPause(from))
  {
    ActsAreClean();
    CleanActionsMakeClean(SendPause(from));
  }

  lemma PauseFromIsClean(from: ClientState, no: Body)
    requires IsClean(no)
    ensures IsClean(PauseFrom(from, no))
  {
    SendPauseIsClean(from);
    CleanActionsMakeClean(PauseFrom(from, no));
  }

  lemma PauseLaterIsClean(id: int)
    ensures IsClean(PauseLater(id))
  {
    SendPauseIsClean(Playing);
    PauseFromIsClean(AwaitingPlaying, SendPause(Playing));
    PauseFromIsClean(Ready, PauseFrom(AwaitingPlaying, SendPause(Playing)));
    ActIsClean(Change(id, SetState(AwaitingPaused)));
    ActIsClean(Change(id, NeedCommit));
    CleanActionsMakeClean(PauseLater(id));
  }

  lemma PauseIsClean(id: int)
    ensures IsClean(PauseBody(id))
  {
    ActsAreClean();
    CleanActionsMakeClean(PauseAtOnce(id));
    PauseLaterIsClean(id);
    CleanActionsMakeClean(PauseAttached(id));
    CleanActionsMakeClean(PauseBody(id));
  }

  lemma FlushIsClean(id: int, accepted: bool, async: bool)
    ensures IsClean(FlushBody(id, accepted, async))
  {
    ActsAreClean();
    CleanActionsMakeClean(FlushAsync(id));
    CleanJoins([Act(Change(id, SetFlushing(true)))], if async then FlushAsync(id) else []);
    CleanActionsMakeClean(FlushBody(id, accepted, async));
  }

  lemma SendAllIsClean()
    ensures IsClean(SendAllBody())
  {
    ActsAreClean();
    SendPauseIsClean(Ready);
    CleanActionsMakeClean(TellAll());
    CleanActionsMakeClean(SendAllBody());
  }

  lemma AttachIsClean(id: int, kind: MediaType, accepted: bool, sink: Sink)
    ensures IsClean(AttachBody(id, kind, accepted, sink))
  {
    var no := if accepted then InsertSource(id, kind, sink) else [];
    ActsAreClean();
    SendAllIsClean();
    CleanActionsMakeClean(InsertSource(id, kind, sink));
    CleanActionsMakeClean([Branch(Has(id), [], no)]);
    CleanJoins([Branch(Has(id), [], no)], SendAllBody());
  }

  lemma VisitIsClean(id: int, report: PlaybackState, async: bool)
    ensures IsClean(VisitBody(id, report, async))
  {
    ActsAreClean();
    PlayIsClean(id, async);
    CleanActionsMakeClean([Q.Call(PlayBody(id, async))]);
    CleanActionsMakeClean([Branch(AsksAgain(id, report), [Q.Call(PlayBody(id, async))], [])]);
    CleanActionsMakeClean(VisitAttached(id, report, async));
    CleanActionsMakeClean(VisitBody(id, report, async));
  }

  lemma {:induction false} VisitsAreClean(order: seq<int>, report: PlaybackState, async: bool)
    ensures IsClean(VisitsBody(order, report, async))
  {
    if order != [] {
      var n := |order| - 1;
      VisitsAreClean(order[..n], report, async);
      VisitIsClean(order[n], report, async);
      CleanJoins(VisitsBody(order[..n], report, async), VisitBody(order[n], report, async));
    }
  }

  lemma BodyIsClean(e: Event)
    ensures IsClean(BodyFor(e))
  {
    ActsAreClean();
    match e
    case Play(id, async) => PlayIsClean(id, async);
    case Pause(id) => PauseIsClean(id);
    case Flush(id, accepted, async) => FlushIsClean(id, accepted, async);
    case Attach(id, kind, accepted, sink) => AttachIsClean(id, kind, accepted, sink);
    case SendAllAttached => SendAllIsClean();
    case Report(report, order, async) =>
      VisitsAreClean(order, report, async);
      CleanActionsMakeClean(ReportBody(report, order, async));
    case _ => CleanActionsMakeClean(BodyFor(e));
  }
}
