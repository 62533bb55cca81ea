/** What the history says about the client's state, kept by every step: where a standing play
    or pause command leaves the client, and what has to lie between commands. */
module ClientDuties {
  import opened Wrappers
  import opened ClientModel
  import opened ClientBarrier
  import opened ClientCommands
  import opened ClientEos
  import opened ClientHistory

  // ----- The invariant -----

  /** Where a play that has not been answered by PAUSED leaves the client. */
  predicate Moving(st: State) {
    st.client in {AwaitingPlaying, Playing} && (st.client.Playing? ==> !st.server.SrvPaused?)
  }

  /** No source has been settled, and the server has reported neither PAUSED nor PLAYING. */
  predicate Untouched(st: State) {
    && !st.server.SrvPaused? && !ServerAlreadyPlaying(st) && !st.wasPlayingBeforeEos
    && AllIn(st.sources, {Ready, AwaitingPlaying, AwaitingPaused})
  }

  /** What a pause command that stands, not overtaken, says about the client. */
  ghost predicate PauseAnswered(st: State, log: seq<Entry>) {
    if !HasReport(Since(log)) then st.client.AwaitingPaused?
    else
      && st.server.SrvPaused?
      && st.client in {Paused, AwaitingPaused}
      && ((forall e | e in SinceReport(log) :: !e.FlushedAsync?) ==> st.client.Paused?)
  }

  ghost predicate Duty(st: State, log: seq<Entry>) {
    && PlayAskedBetweenPauses(log) && PausedBetweenFlushAndPlay(log) && PausedBeforePlays(log)
    && (Reported(SrvPaused) !in log ==> !st.client.Paused? && !st.server.SrvPaused?)
    && (LastCommand(log).Some? ==> st.allAttachedSent && !st.client.Idle? && !st.client.Ready?)
    && (PlayStands(log) ==> Moving(st))
    && (PlayConfirmed(log) ==> st.client in {Playing, Paused})
    && (PauseStands(log) && !Overtaken(log) ==> PauseAnswered(st, log))
    && (NoLoudReport(log) ==>
          Untouched(st) && (LastCommand(log).None? ==> st.client == if st.allAttachedSent then Ready else Idle))
    && (PauseSpent(log) ==> st.client in {AwaitingPaused, Paused})
    && (FlushOutstanding(log) ==> Moving(st) || st.client.AwaitingPaused?)
  }

  ghost predicate Known(st: State, log: seq<Entry>) {
    && ClientCommands.Inv(st, log)
    && ClientBarrier.Inv(st.sources, log)
    && ClientEos.Inv(st, log)
    && (QuietStart(log) ==> Duty(st, log))
  }

  // ----- How the state may change with one log line -----

  ghost predicate EosFollows(st: State, e: Entry, st': State) {
    && st'.server == (if e.Reported? then e.report else st.server)
    && (st'.wasPlayingBeforeEos <==>
          (e == Reported(SrvEndOfStream) && st.server.SrvPlaying?) || (st.wasPlayingBeforeEos && !Clears(e)))
  }

  /** A command settles where the client is. */
  ghost predicate CommandFollows(st: State, e: Entry, st': State) {
    && (e.SentPlay? ==> st.client.Paused? && st'.client.AwaitingPlaying?)
    && (e.SentPause? ==> st.client !in {Paused, AwaitingPaused} && st'.client.AwaitingPaused?)
    && (st.allAttachedSent && !st.client.Idle? && !st.client.Ready? ==> !st'.client.Idle? && !st'.client.Ready?)
    && (!st.client.Paused? && !st.server.SrvPaused? && e != Reported(SrvPaused) ==> !st'.client.Paused?)
  }

  ghost predicate PlayFollows(st: State, e: Entry, st': State) {
    && (Moving(st) && !e.SentPause? && e != Reported(SrvPaused) ==> Moving(st'))
    && (Moving(st) && e == Reported(SrvPlaying) ==> st'.client.Playing?)
    && (st.client in {Playing, Paused} && !IsCommand(e) && !e.FlushedAsync? ==> st'.client in {Playing, Paused})
  }

  ghost predicate PauseFollows(st: State, e: Entry, st': State) {
    && (st.client in {AwaitingPaused, Paused} && !e.SentPlay?
        && !(e.AskedPlay? && AllIn(st'.sources, {AwaitingPlaying, Playing})) ==>
          st'.client in {AwaitingPaused, Paused})
    && (st.client.AwaitingPaused? && !IsCommand(e) && !e.Reported?
        && !(e.AskedPlay? && ServerAlreadyPlaying(st) && AllIn(st'.sources, {AwaitingPlaying, Playing})) ==>
          st'.client.AwaitingPaused?)
    && (st.client in {AwaitingPaused, Paused} && e == Reported(SrvPaused) ==> st'.client.Paused?)
    && (st.client.Paused? && st.server.SrvPaused? && !IsCommand(e) && !e.FlushedAsync? && !e.Reported? ==>
          st'.client.Paused?)
    && (st.client.Paused? && e.FlushedAsync? ==> st'.client.AwaitingPaused?)
  }

  ghost predicate UntouchedFollows(st: State, e: Entry, st': State) {
    Untouched(st) && !IsLoud(e) ==>
      && Untouched(st')
      && (!IsCommand(e) && st.client == (if st.allAttachedSent then Ready else Idle) ==>
            st'.client == if st'.allAttachedSent then Ready else Idle)
  }

  ghost predicate FlushFollows(st: State, e: Entry, st': State) {
    && (e.FlushedAsync? && !st.client.Idle? && !st.client.Ready? ==> st'.client in {AwaitingPaused, AwaitingPlaying})
    && ((Moving(st) || st.client.AwaitingPaused?) && e != Reported(SrvPaused) ==> Moving(st') || st'.client.AwaitingPaused?)
  }

  ghost predicate DutyFollows(st: State, e: Entry, st': State) {
    && CommandFollows(st, e, st')
    && UntouchedFollows(st, e, st')
    && (st.allAttachedSent ==> PlayFollows(st, e, st') && PauseFollows(st, e, st') && FlushFollows(st, e, st'))
  }

  /** What a play command finds just before it: everyone has just come to ask to play. */
  ghost predicate PlayIsEarned(log: seq<Entry>) {
    log != [] && AllAskAt(log, |log| - 1)
  }

  lemma EosExtends(st: State, log: seq<Entry>, e: Entry, st': State)
    requires ClientEos.Inv(st, log) && EosFollows(st, e, st')
    ensures ClientEos.Inv(st', log + [e])
  {
    ClientEos.LogGrows(log, e);
  }

  /** The source table tells whether everyone asks to play. */
  lemma TableTellsAsks(sources: Sources, log: seq<Entry>)
    requires ClientBarrier.Inv(sources, log)
    ensures AllIn(sources, {AwaitingPlaying, Playing}) <==> EveryoneToPlay(log)
    ensures AllIn(sources, {AwaitingPaused, Paused}) <==> EveryoneToPause(log)
  {
    if EveryoneToPlay(log) {
      forall id | id in sources
        ensures sources[id].state in {AwaitingPlaying, Playing}
      {
        assert id in AttachedIds(log);
      }
    }
    if EveryoneToPause(log) {
      forall id | id in sources
        ensures sources[id].state in {AwaitingPaused, Paused}
      {
        assert id in AttachedIds(log);
      }
    }
  }

  /** What one log line has to come with, over the facts known before it. */
  ghost predicate GoesOn(st: State, log: seq<Entry>, e: Entry, st': State) {
    && Duty(st, log) && DutyFollows(st, e, st')
    && ClientEos.Inv(st, log) && EosFollows(st, e, st')
    && ClientBarrier.Inv(st'.sources, log + [e])
    && (st.allAttachedSent ==> st'.allAttachedSent)
    && (IsCommand(e) ==> st.allAttachedSent)
    && (e.SentPlay? ==> PlayIsEarned(log))
  }

  lemma PlayDutyGrows(st: State, log: seq<Entry>, e: Entry, st': State)
    requires GoesOn(st, log, e, st')
    ensures LastCommand(log + [e]).Some? ==> st'.allAttachedSent && !st'.client.Idle? && !st'.client.Ready?
    ensures PlayStands(log + [e]) ==> Moving(st')
    ensures PlayConfirmed(log + [e]) ==> st'.client in {Playing, Paused}
  {
    TailGrows(log, e);
    StandingGrows(log, e);
    PlayConfirmedGrows(log, e);
  }

  lemma PauseDutyGrows(st: State, log: seq<Entry>, e: Entry, st': State)
    requires GoesOn(st, log, e, st')
    ensures PauseStands(log + [e]) && !Overtaken(log + [e]) ==> PauseAnswered(st', log + [e])
  {
    TailGrows(log, e);
    StandingGrows(log, e);
    if PauseStands(log + [e]) && !Overtaken(log + [e]) && !e.SentPause? {
      if Overtaken(log) {
        OvertakenStays(log, e);
      }
      TableTellsAsks(st'.sources, log + [e]);
      if e.AskedPlay? && !HasReport(Since(log)) && ServerPlays(log) && EveryoneToPlay(log + [e]) {
        OvertakenNow(log, e);
      }
      AnswerGrows(st, log, e, st');
    }
  }

  lemma AnswerGrows(st: State, log: seq<Entry>, e: Entry, st': State)
    requires GoesOn(st, log, e, st') && LastCommand(log).Some?
    requires PauseAnswered(st, log) && !IsCommand(e) && (e.Reported? ==> e.report == SrvPaused)
    requires !HasReport(Since(log)) ==>
               !(e.AskedPlay? && ServerAlreadyPlaying(st) && AllIn(st'.sources, {AwaitingPlaying, Playing}))
    ensures PauseAnswered(st', log + [e])
  {
    TailGrows(log, e);
    TailGrows(Since(log), e);
    if HasReport(Since(log)) && !e.Reported? {
      var l := SinceReport(log) + [e];
      assert forall x :: x in l <==> x in SinceReport(log) || x == e;
    }
  }

  lemma OtherDutiesGrow(st: State, log: seq<Entry>, e: Entry, st': State)
    requires GoesOn(st, log, e, st')
    ensures NoLoudReport(log + [e]) ==>
              && Untouched(st')
              && (LastCommand(log + [e]).None? ==> st'.client == if st'.allAttachedSent then Ready else Idle)
    ensures PauseSpent(log + [e]) ==> st'.client in {AwaitingPaused, Paused}
    ensures FlushOutstanding(log + [e]) ==> Moving(st') || st'.client.AwaitingPaused?
  {
    TailGrows(log, e);
    FlushOutstandingGrows(log, e);
    SpentGrows(log, e);
    TableTellsAsks(st'.sources, log + [e]);
    if e.SentPlay? {
      EarnedPlayIsNotSpent(log);
    }
    SpentIsTold(log);
    FlushOutstandingIsTold(log);
  }

  lemma EarnedPlayIsNotSpent(log: seq<Entry>)
    requires PlayIsEarned(log)
    ensures !PauseSpent(log)
  {
    assert AllAskAt(log, |log| - 1);
  }

  lemma {:induction false} CommandIsLast(log: seq<Entry>, i: nat)
    requires i < |log| && IsCommand(log[i])
    ensures LastCommand(log).Some?
  {
    var n := |log| - 1;
    if i < n {
      CommandIsLast(log[..n], i);
    }
  }

  lemma SpentIsTold(log: seq<Entry>)
    ensures PauseSpent(log) ==> LastCommand(log).Some?
  {
    if PauseSpent(log) {
      var i :| 0 <= i < |log| && log[i].SentPause?;
      CommandIsLast(log, i);
    }
  }

  lemma {:induction false} LastCommandStays(log: seq<Entry>, i: nat)
    requires i <= |log| && LastCommand(log[..i]).Some?
    ensures LastCommand(log).Some?
  {
    if i == |log| {
      assert log[..i] == log;
    } else {
      assert log[..|log| - 1][..i] == log[..i];
      LastCommandStays(log[..|log| - 1], i);
    }
  }

  lemma FlushOutstandingIsTold(log: seq<Entry>)
    ensures FlushOutstanding(log) ==> LastCommand(log).Some?
  {
    if FlushOutstanding(log) {
      var i :| 0 <= i < |log| && log[i].FlushedAsync? && LastCommand(log[..i]).Some?;
      LastCommandStays(log, i);
    }
  }

  lemma DutyGrows(st: State, log: seq<Entry>, e: Entry, st': State)
    requires GoesOn(st, log, e, st')
    ensures Duty(st', log + [e])
  {
    PlayDutyGrows(st, log, e, st');
    PauseDutyGrows(st, log, e, st');
    OtherDutiesGrow(st, log, e, st');
    BetweenPausesGrows(log, e);
    BetweenFlushAndPlayGrows(log, e);
    BeforePlaysGrows(log, e);
    assert Reported(SrvPaused) in log + [e] <==> Reported(SrvPaused) in log || e == Reported(SrvPaused);
  }

  /** One log line and the state after it. */
  ghost predicate Follows(st: State, log: seq<Entry>, e: Entry, st': State) {
    && ClientCommands.Follows(st, e, st')
    && ClientBarrier.Follows(st.sources, e, st'.sources)
    && EosFollows(st, e, st')
    && DutyFollows(st, e, st')
    && (e.SentPlay? ==> PlayIsEarned(log))
  }

  lemma Extend(st: State, log: seq<Entry>, e: Entry, st': State)
    requires Known(st, log) && Follows(st, log, e, st')
    ensures Known(st', log + [e])
  {
    ClientCommands.Extend(st, log, e, st');
    ClientBarrier.Extend(st.sources, log, e, st'.sources);
    EosExtends(st, log, e, st');
    ClientCommands.PrefixPropertiesGrow(log, e);
    if QuietStart(log + [e]) {
      DutyGrows(st, log, e, st');
    }
  }

  lemma ExtendTwice(st: State, log: seq<Entry>, a: Entry, mid: State, b: Entry, st': State)
    requires Known(st, log) && Follows(st, log, a, mid) && Follows(mid, log + [a], b, st')
    ensures Known(st', log + [a, b])
  {
    Extend(st, log, a, mid);
    Extend(mid, log + [a], b, st');
    assert log + [a] + [b] == log + [a, b];
  }

  /** A change of the table or the counts that writes no log line. */
  lemma Slide(st: State, log: seq<Entry>, st': State)
    requires Known(st, log) && ClientCommands.Inv(st', log) && ClientBarrier.Inv(st'.sources, log)
    requires st'.client == st.client && st'.server == st.server
    requires st'.wasPlayingBeforeEos == st.wasPlayingBeforeEos && st'.allAttachedSent == st.allAttachedSent
    requires Untouched(st) ==> Untouched(st')
    ensures Known(st', log)
  {
  }

  // ----- Every step keeps the invariant -----

  /** A play request before its command, if any: its source asks. */
  lemma AskedPlayFollows(st: State, log: seq<Entry>, id: int, async: bool)
    requires id in st.sources
    ensures var o := PlayStep(st, id, async);
            Follows(st, log, AskedPlay(id), if |o.log| == 1 then o.state else st.(sources := o.state.sources))
  {
  }

  lemma SentPlayFollows(st: State, log: seq<Entry>, st': State)
    requires st.client.Paused? && st' == st.(client := AwaitingPlaying)
    requires AllIn(st.sources, {AwaitingPlaying, Playing}) && PlayIsEarned(log)
    ensures Follows(st, log, SentPlay, st')
  {
  }

  lemma PostedFollows(st: State, log: seq<Entry>)
    ensures Follows(st, log, PostedPlaying, st)
  {
  }

  lemma EarnedByAsk(sources: Sources, log: seq<Entry>, id: int)
    requires ClientBarrier.Inv(sources, log + [AskedPlay(id)]) && AllIn(sources, {AwaitingPlaying, Playing})
    ensures PlayIsEarned(log + [AskedPlay(id)])
  {
    var l := log + [AskedPlay(id)];
    TableTellsAsks(sources, l);
    assert l[..|l|] == l;
  }

  lemma PlayKeeps(st: State, log: seq<Entry>, id: int, async: bool)
    requires Known(st, log)
    ensures var o := PlayStep(st, id, async); Known(o.state, log + o.log)
  {
    var o := PlayStep(st, id, async);
    if id !in st.sources {
      assert log + o.log == log;
    } else {
      AskedPlayFollows(st, log, id, async);
      if |o.log| == 1 {
        Extend(st, log, AskedPlay(id), o.state);
      } else {
        Extend(st, log, AskedPlay(id), st.(sources := o.state.sources));
        SentPlayKeeps(st.(sources := o.state.sources), log, id, async, o.state);
        assert log + o.log == log + [AskedPlay(id)] + if async then [SentPlay] else [SentPlay, PostedPlaying];
      }
    }
  }

  lemma SentPlayKeeps(st: State, log: seq<Entry>, id: int, async: bool, st': State)
    requires Known(st, log + [AskedPlay(id)])
    requires st.client.Paused? && st' == st.(client := AwaitingPlaying) && AllIn(st.sources, {AwaitingPlaying, Playing})
    ensures Known(st', log + [AskedPlay(id)] + if async then [SentPlay] else [SentPlay, PostedPlaying])
  {
    var l := log + [AskedPlay(id)];
    EarnedByAsk(st.sources, log, id);
    SentPlayFollows(st, l, st');
    Extend(st, l, SentPlay, st');
    if !async {
      PostedFollows(st', l + [SentPlay]);
      Extend(st', l + [SentPlay], PostedPlaying, st');
      assert l + [SentPlay] + [PostedPlaying] == l + [SentPlay, PostedPlaying];
    }
  }

  lemma AskedPauseFollows(st: State, log: seq<Entry>, id: int)
    requires id in st.sources
    ensures var o := PauseStep(st, id);
            Follows(st, log, AskedPause(id), if |o.log| == 1 then o.state else st.(sources := o.state.sources))
  {
  }

  lemma SentPauseFollows(st: State, log: seq<Entry>, st': State)
    requires st.client in {Ready, AwaitingPlaying, Playing} && st' == st.(client := AwaitingPaused)
    requires st.client.Ready? ==> AllIn(st.sources, {AwaitingPaused})
    ensures Follows(st, log, SentPause(st.client), st')
  {
  }

  lemma PauseKeeps(st: State, log: seq<Entry>, id: int)
    requires Known(st, log)
    ensures var o := PauseStep(st, id); Known(o.state, log + o.log)
  {
    var o := PauseStep(st, id);
    if id !in st.sources {
      assert log + o.log == log;
    } else {
      AskedPauseFollows(st, log, id);
      if |o.log| == 1 {
        Extend(st, log, AskedPause(id), o.state);
      } else {
        var mid := st.(sources := o.state.sources);
        SentPauseFollows(mid, log + [AskedPause(id)], o.state);
        ExtendTwice(st, log, AskedPause(id), mid, SentPause(st.client), o.state);
      }
    }
  }

  lemma FlushBegunFollows(st: State, log: seq<Entry>, id: int, st': State)
    requires st' == st.(wasPlayingBeforeEos := false, sources := st'.sources)
    requires st'.sources == st.sources || (id in st.sources && st'.sources == st.sources[id := st.sources[id].(flushing := true)])
    ensures Follows(st, log, FlushBegun(id), st')
  {
  }

  lemma FlushedFollows(st: State, log: seq<Entry>, id: int)
    requires id in st.sources && !st.wasPlayingBeforeEos
    ensures Follows(st, log, FlushedAsync(id), FlushStep(st, id, true, true).state)
  {
  }

  lemma FlushKeeps(st: State, log: seq<Entry>, id: int, accepted: bool, async: bool)
    requires Known(st, log)
    ensures var o := FlushStep(st, id, accepted, async); Known(o.state, log + o.log)
  {
    var o := FlushStep(st, id, accepted, async);
    if |o.log| == 1 {
      FlushBegunFollows(st, log, id, o.state);
      Extend(st, log, FlushBegun(id), o.state);
    } else {
      var mid := st.(wasPlayingBeforeEos := false);
      FlushBegunFollows(st, log, id, mid);
      FlushedFollows(mid, log + [FlushBegun(id)], id);
      ExtendTwice(st, log, FlushBegun(id), mid, FlushedAsync(id), o.state);
    }
  }

  lemma ToldFollows(st: State, log: seq<Entry>, told: Entry)
    requires !st.allAttachedSent && CountsMatch(st.sources, st.audioStreams, st.videoStreams, st.subtitleStreams)
    requires told == SentAllAttached(st.sources, st.audioStreams, st.videoStreams, st.subtitleStreams)
    ensures Follows(st, log, told, st.(allAttachedSent := true, client := Ready))
  {
  }

  lemma SendAllKeeps(st: State, log: seq<Entry>)
    requires Known(st, log)
    ensures var o := SendAllAttachedStep(st); Known(o.state, log + o.log)
  {
    var o := SendAllAttachedStep(st);
    if o.log == [] {
      assert log + o.log == log;
    } else {
      var ready := st.(allAttachedSent := true, client := Ready);
      ToldFollows(st, log, o.log[0]);
      if |o.log| == 1 {
        assert o.log == [o.log[0]];
        Extend(st, log, o.log[0], ready);
      } else {
        SentPauseFollows(ready, log + [o.log[0]], o.state);
        ExtendTwice(st, log, o.log[0], ready, SentPause(Ready), o.state);
      }
    }
  }

  lemma AttachedFollows(st: State, log: seq<Entry>, id: int, source: Source)
    requires id !in st.sources && source.state.Ready?
    ensures Follows(st, log, Attached(id), st.(sources := st.sources[id := source]))
  {
  }

  lemma AttachKeeps(st: State, log: seq<Entry>, id: int, kind: MediaType, accepted: bool, sink: Sink)
    requires Known(st, log)
    ensures var o := AttachStep(st, id, kind, accepted, sink); Known(o.state, log + o.log)
  {
    var o := AttachStep(st, id, kind, accepted, sink);
    if kind.UnknownMedia? {
      assert log + o.log == log;
    } else if accepted && id !in st.sources {
      var st1 := st.(sources := st.sources[id := Source(kind, Ready, false, sink)]);
      AttachedFollows(st, log, id, Source(kind, Ready, false, sink));
      Extend(st, log, Attached(id), st1);
      SendAllKeeps(st1, log + [Attached(id)]);
      assert log + o.log == log + [Attached(id)] + SendAllAttachedStep(st1).log;
    } else {
      SendAllKeeps(st, log);
    }
  }

  /** Changing one source within what its latest request allows. */
  lemma ChangeKeeps(st: State, log: seq<Entry>, id: int, source: Source)
    requires Known(st, log) && id in st.sources
    requires forall ask | StateTellsAsk(st.sources[id].state, ask) :: StateTellsAsk(source.state, ask)
    requires Untouched(st) ==> source.state == st.sources[id].state
    ensures Known(st.(sources := st.sources[id := source]), log)
  {
    var st' := st.(sources := st.sources[id := source]);
    ClientBarrier.SameStates(st.sources, log, st'.sources);
    ClientCommands.Slide(st, log, st');
    Slide(st, log, st');
  }

  lemma VisitKeeps(st: State, log: seq<Entry>, id: int, report: PlaybackState, async: bool)
    requires Known(st, log) && st.server == report
    ensures var o := Visit(st, id, report, async); Known(o.state, log + o.log)
  {
    var o := Visit(st, id, report, async);
    if id !in st.sources {
      assert log + o.log == log;
    } else {
      var source := st.sources[id];
      var settled := source.(state := SettledState(source.state, report));
      if Commits(source.sink, report) {
        ChangeKeeps(st, log, id, settled.(sink := Committed(source.sink)));
        assert log + o.log == log;
      } else {
        ChangeKeeps(st, log, id, settled);
        if ReRequestsPlay(source.sink, report) {
          PlayKeeps(st.(sources := st.sources[id := settled]), log, id, async);
        } else {
          assert log + o.log == log;
        }
      }
    }
  }

  lemma {:induction false} VisitAllKeeps(st: State, log: seq<Entry>, order: seq<int>, report: PlaybackState, async: bool)
    requires Known(st, log) && st.server == report
    ensures var o := VisitAll(st, order, report, async); Known(o.state, log + o.log)
  {
    if order == [] {
      assert log + VisitAll(st, order, report, async).log == log;
    } else {
      var n := |order| - 1;
      var before := VisitAll(st, order[..n], report, async);
      VisitAllKeeps(st, log, order[..n], report, async);
      ClientEos.VisitAllIsNeutral(st, order[..n], report, async);
      VisitKeeps(before.state, log + before.log, order[n], report, async);
      var last := Visit(before.state, order[n], report, async);
      assert log + (before.log + last.log) == log + before.log + last.log;
    }
  }

  lemma ReportFollows(st: State, log: seq<Entry>, report: PlaybackState)
    ensures Follows(st, log, Reported(report), TakeIn(st, report))
  {
  }

  lemma ReportKeeps(st: State, log: seq<Entry>, report: PlaybackState, order: seq<int>, async: bool)
    requires Known(st, log)
    ensures var o := ReportStep(st, report, order, async); Known(o.state, log + o.log)
  {
    var st1 := TakeIn(st, report);
    ReportFollows(st, log, report);
    Extend(st, log, Reported(report), st1);
    if IsVisiting(st, report) {
      VisitAllKeeps(st1, log + [Reported(report)], order, report, async);
      var o := VisitAll(st1, order, report, async);
      assert log + ([Reported(report)] + o.log) == log + [Reported(report)] + o.log;
    }
  }

  lemma RemovedFollows(st: State, log: seq<Entry>, id: int)
    ensures Follows(st, log, Removed(id), st.(sources := st.sources - {id}))
  {
  }

  lemma StepKeeps(st: State, log: seq<Entry>, e: Event)
    requires Known(st, log)
    ensures var o := Step(st, e); Known(o.state, log + o.log)
  {
    var o := Step(st, e);
    match e
    case Play(id, async) => PlayKeeps(st, log, id, async);
    case Pause(id) => PauseKeeps(st, log, id);
    case Flush(id, accepted, async) => FlushKeeps(st, log, id, accepted, async);
    case Attach(id, kind, accepted, sink) => AttachKeeps(st, log, id, kind, accepted, sink);
    case SendAllAttached => SendAllKeeps(st, log);
    case Remove(id) =>
      RemovedFollows(st, log, id);
      Extend(st, log, Removed(id), o.state);
    case Report(report, order, async) => ReportKeeps(st, log, report, order, async);
    case SourceFlushed(id) =>
      assert log + o.log == log;
      if o.state != st {
        ChangeKeeps(st, log, id, st.sources[id].(flushing := false));
      }
    case StreamCollection(audio, video, subtitle) =>
      assert log + o.log == log;
      ClientCommands.CollectionKeeps(st, log, audio, video, subtitle);
      Slide(st, log, o.state);
    case SinkChange(id, sink) =>
      assert log + o.log == log;
      if id in st.sources {
        ChangeKeeps(st, log, id, st.sources[id].(sink := sink));
      }
  }

  lemma {:induction false} KnownInEveryRun(events: seq<Event>)
    ensures Known(Run(events).state, Run(events).log)
  {
    if events != [] {
      var n := |events| - 1;
      KnownInEveryRun(events[..n]);
      StepKeeps(Run(events[..n]).state, Run(events[..n]).log, events[n]);
    }
  }
}
