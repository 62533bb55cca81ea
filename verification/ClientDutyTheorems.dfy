/** What the client must do, over whole runs: when a pause or a play request has to send its
    command, when it is answered at once, and what lies between two commands.

    Everything is said of the log of requests, reports and commands. */
module ClientDutyTheorems {
  import opened Wrappers
  import opened ClientModel
  import opened ClientBarrier
  import opened ClientCommands
  import opened ClientEos
  import opened ClientHistory
  import opened ClientDuties

  // ----- When a pause command must be sent -----

  /** What an event adds to the log of a run. */
  function Added(events: seq<Event>, e: Event): seq<Entry> {
    Step(Run(events).state, e).log
  }

  /** In every run with a quiet start: while the latest command is a play and the server has
      not reported PAUSED since, a pause request of any attached source sends a pause. */
  lemma PauseIsSentWhilePlaying(events: seq<Event>, id: int)
    requires var log := Run(events).log; QuietStart(log) && PlayStands(log) && id in AttachedIds(log)
    ensures Added(events, Pause(id)) == [AskedPause(id), SentPause(Run(events).state.client)]
  {
    KnownInEveryRun(events);
  }

  /** With every request on record, the table shows who asks to pause. */
  lemma PauseRequestTable(st: State, log: seq<Entry>, id: int)
    requires Known(st, log) && id in st.sources
    ensures EveryoneToPause(log + [AskedPause(id)]) <==>
            AllIn(WithState(st.sources, id, AwaitingPaused), {AwaitingPaused, Paused})
  {
    var sources := WithState(st.sources, id, AwaitingPaused);
    ClientBarrier.Extend(st.sources, log, AskedPause(id), sources);
    TableTellsAsks(sources, log + [AskedPause(id)]);
  }

  lemma PauseRequestInRun(events: seq<Event>, id: int)
    requires id in AttachedIds(Run(events).log)
    ensures var h := Run(events);
            && id in h.state.sources && h.state.server == LastReport(h.log)
            && (EveryoneToPause(h.log + [AskedPause(id)]) <==>
                AllIn(WithState(h.state.sources, id, AwaitingPaused), {AwaitingPaused, Paused}))
  {
    KnownInEveryRun(events);
    PauseRequestTable(Run(events).state, Run(events).log, id);
  }

  lemma ReadyPause(st: State, id: int)
    requires st.client.Ready? && id in st.sources
    requires AllIn(WithState(st.sources, id, AwaitingPaused), {AwaitingPaused, Paused})
    ensures PauseStep(st, id).log == [AskedPause(id), SentPause(Ready)] <==>
            !st.server.SrvPaused? && forall i | i in st.sources && i != id :: !st.sources[i].state.Paused?
  {
    var sources := WithState(st.sources, id, AwaitingPaused);
    assert forall i | i in st.sources && i != id :: sources[i] == st.sources[i];
    assert AllIn(sources, {AwaitingPaused}) <==>
           forall i | i in st.sources && i != id :: !st.sources[i].state.Paused?;
  }

  lemma ReadyPauseIncomplete(st: State, id: int)
    requires st.client.Ready? && id in st.sources
    requires !AllIn(WithState(st.sources, id, AwaitingPaused), {AwaitingPaused, Paused})
    ensures PauseStep(st, id).log == [AskedPause(id)]
  {
  }

  /** The first pause command: allSourcesAttached has been sent, no command yet, and the server
      has kept quiet.  A pause request sends it exactly if, with this request, every attached
      source last asked to pause or was flushed. */
  lemma FirstPauseIsSent(events: seq<Event>, id: int)
    requires var log := Run(events).log;
             ToldAllAttached(log) && LastCommand(log).None? && NoLoudReport(log) && id in AttachedIds(log)
    ensures Added(events, Pause(id)) ==
            [AskedPause(id)] + if EveryoneToPause(Run(events).log + [AskedPause(id)]) then [SentPause(Ready)] else []
  {
    var st, log := Run(events).state, Run(events).log;
    KnownInEveryRun(events);
    assert QuietStart(log);
    PauseRequestTable(st, log, id);
    var sources := WithState(st.sources, id, AwaitingPaused);
    assert AllIn(sources, {AwaitingPaused, Paused}) <==> AllIn(sources, {AwaitingPaused});
  }

  /** The same without any premise on the reports, for a client in READY: the request that
      completes the barrier sends the command exactly if the server has not reported PAUSED
      last and no other source has been settled in PAUSED. */
  lemma FirstPauseExactly(events: seq<Event>, id: int)
    requires Run(events).state.client.Ready? && id in AttachedIds(Run(events).log)
    ensures var h := Run(events);
            var everyone := EveryoneToPause(h.log + [AskedPause(id)]);
            var sent := Added(events, Pause(id)) == [AskedPause(id), SentPause(Ready)];
            (sent <==> everyone) <==>
            !everyone || (LastReport(h.log) != SrvPaused
                          && forall i | i in h.state.sources && i != id :: !h.state.sources[i].state.Paused?)
  {
    var st, log := Run(events).state, Run(events).log;
    PauseRequestInRun(events, id);
    if EveryoneToPause(log + [AskedPause(id)]) {
      ReadyPause(st, id);
    } else {
      ReadyPauseIncomplete(st, id);
    }
  }

  /** In every run with a quiet start: if the server confirmed the latest play command and has
      paused on its own since, and no source was flushed in between, a pause request is
      answered at once and sends nothing. */
  lemma PauseIsSynchronousByHistory(events: seq<Event>, id: int)
    requires var log := Run(events).log;
             QuietStart(log) && PlayConfirmed(log) && LastReport(log) == SrvPaused && id in AttachedIds(log)
    ensures var o := PauseStep(Run(events).state, id);
            o.log == [AskedPause(id)] && o.reply == SuccessSync && o.state.sources[id].state == Paused
  {
    KnownInEveryRun(events);
  }

  // ----- When a play command must be sent -----

  /** The latest command is a pause, the server has since reported, and only PAUSED, and no
      source was flushed since its last report. */
  ghost predicate PauseReached(log: seq<Entry>) {
    PauseStands(log) && HasReport(Since(log)) && forall e | e in SinceReport(log) :: !e.FlushedAsync?
  }

  lemma PlayRequestTable(st: State, log: seq<Entry>, id: int)
    requires Known(st, log) && id in st.sources
    ensures EveryoneToPlay(log + [AskedPlay(id)]) <==>
            AllIn(WithState(st.sources, id, AwaitingPlaying), {AwaitingPlaying, Playing})
  {
    var sources := WithState(st.sources, id, AwaitingPlaying);
    ClientBarrier.Extend(st.sources, log, AskedPlay(id), sources);
    TableTellsAsks(sources, log + [AskedPlay(id)]);
  }

  function PlayAdds(id: int, sent: bool, async: bool): seq<Entry> {
    [AskedPlay(id)] + if !sent then [] else if async then [SentPlay] else [SentPlay, PostedPlaying]
  }

  /** In every run with a quiet start: once the server has reported PAUSED on the latest pause
      command, a play request of an attached source sends a play exactly if, with this
      request, every attached source last asked to play; unless the sources took the pause
      back before the server reported on it. */
  lemma PlayIsSentOncePaused(events: seq<Event>, id: int, async: bool)
    requires var log := Run(events).log;
             QuietStart(log) && PauseReached(log) && !Overtaken(log) && id in AttachedIds(log)
    ensures Added(events, Play(id, async)) ==
            PlayAdds(id, EveryoneToPlay(Run(events).log + [AskedPlay(id)]), async)
  {
    KnownInEveryRun(events);
    PlayRequestTable(Run(events).state, Run(events).log, id);
  }

  lemma {:induction false} LastReportIsSince(log: seq<Entry>)
    ensures HasReport(Since(log)) ==> Reported(LastReport(log)) in Since(log)
  {
    if log != [] && !IsCommand(log[|log| - 1]) {
      var n := |log| - 1;
      LastReportIsSince(log[..n]);
      assert Since(log) == Since(log[..n]) + [log[n]];
      TailGrows(Since(log[..n]), log[n]);
    }
  }

  /** Whatever the sources did: in that situation the play request that completes the barrier
      sends the command exactly if the client itself is in PAUSED. */
  lemma PlayIsSentExactly(events: seq<Event>, id: int, async: bool)
    requires var log := Run(events).log; PauseReached(log) && id in AttachedIds(log)
    ensures var everyone := EveryoneToPlay(Run(events).log + [AskedPlay(id)]);
            (SentPlay in Added(events, Play(id, async)) <==> everyone) <==>
            !everyone || Run(events).state.client.Paused?
    ensures QuietStart(Run(events).log) && !Overtaken(Run(events).log) ==> Run(events).state.client.Paused?
  {
    KnownInEveryRun(events);
    LastReportIsSince(Run(events).log);
    PlayRequestTable(Run(events).state, Run(events).log, id);
  }

  // ----- When the server pauses on its own -----

  lemma LastPauseAtOnce(st: State, id: int)
    requires id in st.sources && st.server.SrvPaused? && st.client in {Playing, Paused}
    requires forall i | i in st.sources && i != id :: st.sources[i].state.Paused?
    ensures var o := PauseStep(st, id); o.log == [AskedPause(id)] && o.state.client.Paused? && o.state.server.SrvPaused?
  {
    assert AllIn(WithState(st.sources, id, Paused), {Paused});
  }

  lemma PlayFromPaused(events: seq<Event>, id: int, async: bool)
    requires var st := Run(events).state; st.client.Paused? && st.server.SrvPaused? && id in st.sources
    ensures Added(events, Play(id, async)) == PlayAdds(id, EveryoneToPlay(Run(events).log + [AskedPlay(id)]), async)
  {
    KnownInEveryRun(events);
    PlayRequestTable(Run(events).state, Run(events).log, id);
  }

  /** In every run with a quiet start: if the server confirmed the latest play command and has
      paused on its own since, the pause request of the last source that is not in PAUSED
      takes this up without a command: the next play request sends a play exactly if, with
      it, everyone asks to play. */
  lemma ServerPauseIsTakenUp(events: seq<Event>, id: int, next: int, async: bool)
    requires var h := Run(events);
             && QuietStart(h.log) && PlayConfirmed(h.log) && LastReport(h.log) == SrvPaused
             && id in h.state.sources && next in h.state.sources
             && forall i | i in h.state.sources && i != id :: h.state.sources[i].state.Paused?
    ensures Added(events, Pause(id)) == [AskedPause(id)]
    ensures var after := events + [Pause(id)];
            Added(after, Play(next, async)) ==
            PlayAdds(next, EveryoneToPlay(Run(after).log + [AskedPlay(next)]), async)
  {
    KnownInEveryRun(events);
    RunGrows(events, Pause(id));
    LastPauseAtOnce(Run(events).state, id);
    PlayFromPaused(events + [Pause(id)], next, async);
  }

  // ----- Duties of a request -----

  /** What a pause request of an attached source has to add to the log. */
  ghost predicate PauseDuty(log: seq<Entry>, id: int, added: seq<Entry>) {
    && (QuietStart(log) && PlayStands(log) ==> exists from :: added == [AskedPause(id), SentPause(from)])
    && (ToldAllAttached(log) && LastCommand(log).None? && NoLoudReport(log) ==>
          added == [AskedPause(id)] + if EveryoneToPause(log + [AskedPause(id)]) then [SentPause(Ready)] else [])
    && (QuietStart(log) && PlayConfirmed(log) && LastReport(log) == SrvPaused ==> added == [AskedPause(id)])
  }

  /** What a play request of an attached source has to add to the log. */
  ghost predicate PlayDuty(log: seq<Entry>, id: int, async: bool, added: seq<Entry>) {
    && (ServerPlays(log) ==> added == [AskedPlay(id)])
    && (QuietStart(log) && PauseReached(log) && !Overtaken(log) ==>
          added == PlayAdds(id, EveryoneToPlay(log + [AskedPlay(id)]), async))
  }

  lemma PauseDutyIsDone(events: seq<Event>, id: int)
    requires id in Run(events).state.sources
    ensures PauseDuty(Run(events).log, id, Added(events, Pause(id)))
  {
    var log := Run(events).log;
    BarriersHoldInEveryRun(events);
    if QuietStart(log) && PlayStands(log) {
      PauseIsSentWhilePlaying(events, id);
    }
    if ToldAllAttached(log) && LastCommand(log).None? && NoLoudReport(log) {
      FirstPauseIsSent(events, id);
    }
    if QuietStart(log) && PlayConfirmed(log) && LastReport(log) == SrvPaused {
      PauseIsSynchronousByHistory(events, id);
    }
  }

  lemma PlayDutyIsDone(events: seq<Event>, id: int, async: bool)
    requires id in Run(events).state.sources
    ensures PlayDuty(Run(events).log, id, async, Added(events, Play(id, async)))
  {
    var log := Run(events).log;
    BarriersHoldInEveryRun(events);
    PlayIsSynchronousByHistory(events, id, async);
    if QuietStart(log) && PauseReached(log) && !Overtaken(log) {
      PlayIsSentOncePaused(events, id, async);
    }
  }

  // ----- What lies between commands -----

  /** In every run with a quiet start: every play command comes after a PAUSED report; a second
      pause command is sent only after everyone has come to ask to play; and a source that was
      flushed after a command holds back play commands until the next PAUSED report. */
  lemma CommandsAreSpaced(events: seq<Event>)
    requires QuietStart(Run(events).log)
    ensures var log := Run(events).log;
            PausedBeforePlays(log) && PlayAskedBetweenPauses(log) && PausedBetweenFlushAndPlay(log)
  {
    KnownInEveryRun(events);
  }

  // ----- The pause that goes with allSourcesAttached -----

  lemma QuietUntilTold(log: seq<Entry>)
    requires QuietStart(log) && !ToldAllAttached(log)
    ensures NoLoudReport(log)
  {
    forall e | e in log
      ensures !IsLoud(e)
    {
      var i :| 0 <= i < |log| && log[i] == e;
      assert !ToldAllAttached(log[..i]);
    }
  }

  /** A look at the attached sources writes no report. */
  lemma LookIsQuiet(st: State, e: Event)
    requires LooksForAll(e)
    ensures NoLoudReport(Step(st, e).log)
  {
  }

  /** In every run with a quiet start, the look that sends allSourcesAttached sends a pause
      with it exactly if every attached source last asked to pause or was flushed; no other
      look sends a command. */
  lemma AllAttachedPausesExactly(events: seq<Event>, e: Event)
    requires LooksForAll(e) && QuietStart(Run(events).log)
    ensures Commands(Added(events, e)) <==> Tells(Added(events, e)) && EveryoneToPause(Run(events + [e]).log)
    ensures Tells(Added(events, e)) <==>
            !ToldAllAttached(Run(events).log) && AllStreamsAttached(Run(events + [e]).state)
  {
    var before, after := Run(events), Run(events + [e]);
    RunGrows(events, e);
    LookTellsExactly(before.state, e);
    ClientCommands.InvInEveryRun(events);
    if Tells(Added(events, e)) {
      QuietUntilTold(before.log);
      LookIsQuiet(before.state, e);
      UntouchedPauses(events + [e]);
    }
  }

  /** As long as the server keeps quiet, whoever asks to pause is waiting for PAUSED. */
  lemma UntouchedPauses(events: seq<Event>)
    requires NoLoudReport(Run(events).log)
    ensures AllIn(Run(events).state.sources, {AwaitingPaused}) <==> EveryoneToPause(Run(events).log)
  {
    var st, log := Run(events).state, Run(events).log;
    KnownInEveryRun(events);
    assert QuietStart(log);
    TableTellsAsks(st.sources, log);
    assert AllIn(st.sources, {AwaitingPaused, Paused}) <==> AllIn(st.sources, {AwaitingPaused});
  }

  // ----- Nothing is passed over -----

  /** What a request must leave on record. */
  ghost predicate IsOnRecord(before: seq<Entry>, e: Event, after: seq<Entry>)
    requires before <= after
  {
    match e
    case Play(id, _) => id in AttachedIds(before) ==> LastAsk(after, id) == ToPlay
    case Pause(id) => id in AttachedIds(before) ==> LastAsk(after, id) == ToPause
    case Flush(id, accepted, async) =>
      && FlushBegun(id) in after[|before|..]
      && (id in AttachedIds(before) && accepted && async ==> LastAsk(after, id) == WasFlushed)
    case Attach(id, kind, accepted, _) =>
      accepted && kind != UnknownMedia ==>
        id in AttachedIds(after) && (id !in AttachedIds(before) ==> LastAsk(after, id) == Nothing)
    case Remove(id) => id !in AttachedIds(after)
    case Report(report, _, _) => LastReport(after) == report
    case _ => true
  }

  lemma FirstLine(log: seq<Entry>, more: seq<Entry>)
    requires more != []
    ensures (log + more)[|log|..] == more && more[0] in (log + more)[|log|..]
  {
  }

  ghost predicate AsksNothing(more: seq<Entry>) {
    forall x | x in more :: !x.Attached? && !x.Removed? && !x.AskedPlay? && !x.AskedPause? && !x.FlushedAsync?
  }

  lemma {:induction false} NeutralAsks(log: seq<Entry>, more: seq<Entry>, id: int)
    requires AsksNothing(more)
    ensures LastAsk(log + more, id) == LastAsk(log, id) && AttachedIds(log + more) == AttachedIds(log)
  {
    if more == [] {
      assert log + more == log;
    } else {
      var n := |more| - 1;
      NeutralAsks(log, more[..n], id);
      ClientBarrier.LogGrows(log + more[..n], more[n]);
      assert log + more == log + more[..n] + [more[n]];
    }
  }

  /** The first line says what is asked, the others ask nothing. */
  lemma AskOnRecord(log: seq<Entry>, e: Entry, more: seq<Entry>, id: int)
    requires AsksNothing(more)
    ensures LastAsk(log + ([e] + more), id) == AskAfter(e, id, LastAsk(log, id))
    ensures AttachedIds(log + ([e] + more)) == IdsAfter(e, AttachedIds(log))
  {
    ClientBarrier.LogGrows(log, e);
    NeutralAsks(log + [e], more, id);
    assert log + [e] + more == log + ([e] + more);
  }

  /** The line with which such an event begins, if it has an effect at all. */
  function FirstEntry(e: Event): Entry
    requires e.Play? || e.Pause? || e.Attach? || e.Remove?
  {
    match e
    case Play(id, _) => AskedPlay(id)
    case Pause(id) => AskedPause(id)
    case Attach(id, _, _, _) => Attached(id)
    case Remove(id) => Removed(id)
  }

  predicate TakesEffect(st: State, e: Event)
    requires e.Play? || e.Pause? || e.Attach? || e.Remove?
  {
    if e.Attach? then e.accepted && e.kind != UnknownMedia && e.id !in st.sources
    else e.Remove? || e.id in st.sources
  }

  lemma RequestBegins(st: State, e: Event)
    requires e.Play? || e.Pause? || e.Attach? || e.Remove?
    requires TakesEffect(st, e)
    ensures var log := Step(st, e).log; log != [] && log[0] == FirstEntry(e) && AsksNothing(log[1..])
  {
    if e.Attach? {
      var st1 := st.(sources := st.sources[e.id := Source(e.kind, Ready, false, e.sink)]);
      assert Step(st, e).log[1..] == SendAllAttachedStep(st1).log;
    }
  }

  lemma RequestOnRecord(st: State, log: seq<Entry>, e: Event)
    requires st.sources.Keys == AttachedIds(log)
    requires e.Play? || e.Pause? || e.Attach? || e.Remove?
    ensures IsOnRecord(log, e, log + Step(st, e).log)
  {
    var more := Step(st, e).log;
    if TakesEffect(st, e) {
      RequestBegins(st, e);
      AskOnRecord(log, more[0], more[1..], e.id);
      assert more == [more[0]] + more[1..];
    } else {
      LookAsksNothing(st, e);
      NeutralAsks(log, more, e.id);
    }
  }

  lemma LookAsksNothing(st: State, e: Event)
    requires e.Play? || e.Pause? || e.Attach? || e.Remove?
    requires !TakesEffect(st, e)
    ensures AsksNothing(Step(st, e).log)
  {
  }

  lemma FlushLog(st: State, id: int, accepted: bool, async: bool)
    ensures FlushStep(st, id, accepted, async).log ==
            [FlushBegun(id)] + if id in st.sources && accepted && async then [FlushedAsync(id)] else []
  {
  }

  lemma FlushedOnRecord(log: seq<Entry>, id: int)
    ensures LastAsk(log + [FlushBegun(id), FlushedAsync(id)], id) == WasFlushed
  {
    var l := log + [FlushBegun(id)];
    ClientBarrier.LogGrows(l, FlushedAsync(id));
    assert log + [FlushBegun(id), FlushedAsync(id)] == l + [FlushedAsync(id)];
  }

  lemma FlushOnRecord(st: State, log: seq<Entry>, id: int, accepted: bool, async: bool)
    requires st.sources.Keys == AttachedIds(log)
    ensures IsOnRecord(log, Flush(id, accepted, async), log + FlushStep(st, id, accepted, async).log)
  {
    var more := FlushStep(st, id, accepted, async).log;
    FlushLog(st, id, accepted, async);
    FirstLine(log, more);
    if id in st.sources && accepted && async {
      FlushedOnRecord(log, id);
    }
  }

  lemma ReportOnRecord(st: State, log: seq<Entry>, e: Event)
    requires ClientEos.Inv(st, log) && e.Report?
    ensures IsOnRecord(log, e, log + Step(st, e).log)
  {
    ClientEos.ReportKeeps(st, log, e.report, e.order, e.async);
    ClientEos.VisitAllIsNeutral(TakeIn(st, e.report), e.order, e.report, e.async);
  }

  /** In every run every request of an attached source, every flush, accepted attach, removal
      and report is on record: no event is passed over. */
  lemma RequestsAreOnRecord(events: seq<Event>, e: Event)
    ensures IsOnRecord(Run(events).log, e, Run(events + [e]).log)
  {
    var h := Run(events);
    RunGrows(events, e);
    BarriersHoldInEveryRun(events);
    ClientEos.InvInEveryRun(events);
    match e
    case Flush(id, accepted, async) => FlushOnRecord(h.state, h.log, id, accepted, async);
    case Report(_, _, _) => ReportOnRecord(h.state, h.log, e);
    case Play(_, _) => RequestOnRecord(h.state, h.log, e);
    case Pause(_) => RequestOnRecord(h.state, h.log, e);
    case Attach(_, _, _, _) => RequestOnRecord(h.state, h.log, e);
    case Remove(_) => RequestOnRecord(h.state, h.log, e);
    case _ =>
  }

  // ----- Flushes under way -----

  /** The accepted flush of `id` at `i` has neither been completed nor cut off by a removal. */
  ghost predicate FlushOpenSince(events: seq<Event>, id: int, i: nat)
    requires i < |events|
  {
    && events[i].Flush? && events[i].id == id && events[i].accepted && id in Run(events[..i]).state.sources
    && forall k | i < k < |events| :: events[k] != SourceFlushed(id) && events[k] != Remove(id)
  }

  ghost predicate FlushUnderWay(events: seq<Event>, id: int) {
    exists i | 0 <= i < |events| :: FlushOpenSince(events, id, i)
  }

  lemma FlushUnderWayGrows(events: seq<Event>, e: Event, id: int)
    ensures FlushUnderWay(events + [e], id) <==>
            || (e.Flush? && e.id == id && e.accepted && id in Run(events).state.sources)
            || (FlushUnderWay(events, id) && e != SourceFlushed(id) && e != Remove(id))
  {
    var l := events + [e];
    assert l[|events|] == e && l[..|events|] == events;
    assert forall i | 0 <= i < |events| :: l[i] == events[i] && l[..i] == events[..i];
    if FlushUnderWay(l, id) {
      var i :| 0 <= i < |l| && FlushOpenSince(l, id, i);
      assert i < |events| ==> FlushOpenSince(events, id, i) && l[|events|] != SourceFlushed(id) && l[|events|] != Remove(id);
    }
    if FlushUnderWay(events, id) && e != SourceFlushed(id) && e != Remove(id) {
      var i :| 0 <= i < |events| && FlushOpenSince(events, id, i);
      assert FlushOpenSince(l, id, i);
    }
    if e.Flush? && e.id == id && e.accepted && id in Run(events).state.sources {
      assert FlushOpenSince(l, id, |events|);
    }
  }

  predicate IsFlushing(st: State, id: int) {
    id in st.sources && st.sources[id].flushing
  }

  lemma VisitKeepsFlushing(st: State, visited: int, report: PlaybackState, async: bool, id: int)
    ensures IsFlushing(Visit(st, visited, report, async).state, id) <==> IsFlushing(st, id)
  {
  }

  lemma {:induction false} VisitAllKeepsFlushing(st: State, order: seq<int>, report: PlaybackState, async: bool, id: int)
    ensures IsFlushing(VisitAll(st, order, report, async).state, id) <==> IsFlushing(st, id)
  {
    if order != [] {
      var n := |order| - 1;
      VisitAllKeepsFlushing(st, order[..n], report, async, id);
      VisitKeepsFlushing(VisitAll(st, order[..n], report, async).state, order[n], report, async, id);
    }
  }

  lemma PlayKeepsFlushing(st: State, asking: int, async: bool, id: int)
    ensures IsFlushing(PlayStep(st, asking, async).state, id) <==> IsFlushing(st, id)
  {
  }

  lemma PauseKeepsFlushing(st: State, asking: int, id: int)
    ensures IsFlushing(PauseStep(st, asking).state, id) <==> IsFlushing(st, id)
  {
  }

  lemma FlushMarks(st: State, flushed: int, accepted: bool, async: bool, id: int)
    ensures IsFlushing(FlushStep(st, flushed, accepted, async).state, id) <==>
            (flushed == id && accepted && id in st.sources) || IsFlushing(st, id)
  {
  }

  lemma SendAllKeepsFlushing(st: State, id: int)
    ensures IsFlushing(SendAllAttachedStep(st).state, id) <==> IsFlushing(st, id)
  {
  }

  lemma AttachKeepsFlushing(st: State, e: Event, id: int)
    requires e.Attach?
    ensures IsFlushing(Step(st, e).state, id) <==> IsFlushing(st, id)
  {
    SendAllKeepsFlushing(st, id);
    SendAllKeepsFlushing(st.(sources := st.sources[e.id := Source(e.kind, Ready, false, e.sink)]), id);
  }

  lemma StepFlushes(st: State, e: Event, id: int)
    ensures IsFlushing(Step(st, e).state, id) <==>
            || (e.Flush? && e.id == id && e.accepted && id in st.sources)
            || (IsFlushing(st, id) && e != SourceFlushed(id) && e != Remove(id))
  {
    match e
    case Play(asking, async) => PlayKeepsFlushing(st, asking, async, id);
    case Pause(asking) => PauseKeepsFlushing(st, asking, id);
    case Flush(flushed, accepted, async) => FlushMarks(st, flushed, accepted, async, id);
    case Attach(_, _, _, _) => AttachKeepsFlushing(st, e, id);
    case SendAllAttached => SendAllKeepsFlushing(st, id);
    case Report(report, order, async) => VisitAllKeepsFlushing(TakeIn(st, report), order, report, async, id);
    case _ =>
  }

  /** In every run a source is marked as flushing exactly while an accepted flush of it is
      under way; this decides which completions reach its sink and the synchroniser. */
  lemma {:induction false} FlushMarkIsHistory(events: seq<Event>, id: int)
    ensures IsFlushing(Run(events).state, id) <==> FlushUnderWay(events, id)
  {
    if events != [] {
      var n := |events| - 1;
      FlushMarkIsHistory(events[..n], id);
      StepFlushes(Run(events[..n]).state, events[n], id);
      FlushUnderWayGrows(events[..n], events[n], id);
      assert events == events[..n] + [events[n]];
    }
  }

  // ----- Two runs in which a command is not sent -----

  const STILL := Sink(false, Null, Null, Null)

  /** One audio source, attached and told, whose sink never commits. */
  ghost predicate Solo(h: History, id: int, client: ClientState, server: PlaybackState, state: ClientState) {
    && h.state.sources.Keys == {id}
    && h.state.sources[id].state == state && h.state.sources[id].sink.next.Null?
    && h.state.client == client && h.state.server == server
    && h.state.allAttachedSent && !h.state.wasPlayingBeforeEos
  }

  function SoloStart(id: int): seq<Event> {
    [StreamCollection(1, 0, 0)] + [Attach(id, Audio, true, STILL)]
  }

  lemma SoloCounts(id: int)
    ensures var table := map[id := Source(Audio, Ready, false, STILL)]; CountsMatch(table, 1, 0, 0)
  {
    var table := map[id := Source(Audio, Ready, false, STILL)];
    assert IdsOfKind(table, Audio) == {id} && IdsOfKind(table, Video) == {} && IdsOfKind(table, Subtitle) == {};
  }

  lemma SoloDeclared()
    ensures Run([StreamCollection(1, 0, 0)]) == History(State(Idle, map[], SrvIdle, false, false, 1, 0, 0), [])
  {
    assert [StreamCollection(1, 0, 0)][..0] == [];
  }

  lemma SoloStarts(id: int)
    ensures var h := Run(SoloStart(id));
            && Solo(h, id, Ready, SrvIdle, Ready)
            && |h.log| == 2 && h.log[0] == Attached(id) && h.log[1].SentAllAttached?
  {
    SoloDeclared();
    SoloCounts(id);
    RunGrows([StreamCollection(1, 0, 0)], Attach(id, Audio, true, STILL));
    var none: Sources := map[];
    assert none[id := Source(Audio, Ready, false, STILL)] == map[id := Source(Audio, Ready, false, STILL)];
  }

  lemma SoloReport(events: seq<Event>, id: int, client: ClientState, server: PlaybackState, state: ClientState, report: PlaybackState)
    requires Solo(Run(events), id, client, server, state) && report in {SrvPaused, SrvPlaying}
    ensures var e := Report(report, [id], true);
            && Solo(Run(events + [e]), id,
                    if report.SrvPaused? && client.AwaitingPaused? then Paused
                    else if report.SrvPlaying? && client.AwaitingPlaying? then Playing else client,
                    report,
                    if report.SrvPlaying? && client.AwaitingPaused? then state else SettledState(state, report))
            && Run(events + [e]).log == Run(events).log + [Reported(report)]
  {
    var st1 := TakeIn(Run(events).state, report);
    RunGrows(events, Report(report, [id], true));
    assert [id][..0] == [];
    assert VisitAll(st1, [], report, true) == Outcome(st1, [], NoReply);
    assert VisitAll(st1, [id], report, true).state == Visit(st1, id, report, true).state;
  }

  lemma SoloPause(events: seq<Event>, id: int, client: ClientState, server: PlaybackState, state: ClientState)
    requires Solo(Run(events), id, client, server, state) && client in {Ready, Playing} && !server.SrvPaused?
    ensures var h := Run(events + [Pause(id)]);
            && Solo(h, id, AwaitingPaused, server, AwaitingPaused)
            && h.log == Run(events).log + [AskedPause(id)] + [SentPause(client)]
  {
    RunGrows(events, Pause(id));
  }

  lemma SoloPlay(events: seq<Event>, id: int, client: ClientState, server: PlaybackState, state: ClientState)
    requires Solo(Run(events), id, client, server, state)
    ensures var h := Run(events + [Play(id, true)]);
            var sent := !server.SrvPlaying? && client.Paused?;
            && Solo(h, id, if server.SrvPlaying? then Playing else if sent then AwaitingPlaying else client, server,
                    if server.SrvPlaying? then Playing else AwaitingPlaying)
            && h.log == Run(events).log + [AskedPlay(id)] + if sent then [SentPlay] else []
  {
    RunGrows(events, Play(id, true));
    var log := Run(events).log;
    assert log + [AskedPlay(id), SentPlay] == log + [AskedPlay(id)] + [SentPlay];
    assert log + [AskedPlay(id)] == log + [AskedPlay(id)] + [];
  }

  /** With one source, its own request completes either barrier. */
  lemma SoloAsks(events: seq<Event>, id: int)
    requires Run(events).state.sources.Keys == {id}
    ensures var log := Run(events).log;
            && id in AttachedIds(log)
            && EveryoneToPause(log + [AskedPause(id)]) && EveryoneToPlay(log + [AskedPlay(id)])
  {
    BarriersHoldInEveryRun(events);
    ClientBarrier.LogGrows(Run(events).log, AskedPause(id));
    ClientBarrier.LogGrows(Run(events).log, AskedPlay(id));
  }

  /** A log that goes on from the start of a solo run has a quiet start. */
  lemma SoloIsQuiet(id: int, log: seq<Entry>)
    requires Run(SoloStart(id)).log <= log
    ensures QuietStart(log) && ToldAllAttached(log)
  {
    SoloStarts(id);
    var start := Run(SoloStart(id)).log;
    assert log[0] == start[0] && log[1] == start[1];
    forall i | 0 <= i < |log| && IsLoud(log[i])
      ensures ToldAllAttached(log[..i])
    {
      assert i >= 2 && log[..i][1].SentAllAttached?;
    }
  }

  lemma NoCommandInTwo(a: Entry, b: Entry)
    requires !IsCommand(a) && !IsCommand(b)
    ensures LastCommand([a, b]).None?
  {
    assert [a, b][..1] == [a];
    assert LastCommand([a]).None? by {
      assert [a][..0] == [];
    }
  }

  lemma SoloStartsWithoutCommand(id: int)
    ensures LastCommand(Run(SoloStart(id)).log).None?
  {
    SoloStarts(id);
    var log := Run(SoloStart(id)).log;
    NoCommandInTwo(log[0], log[1]);
    assert log == [log[0], log[1]];
  }

  function Unsolicited(id: int): seq<Event> {
    SoloStart(id) + [Report(SrvPaused, [id], true)]
  }

  lemma UnsolicitedLog(id: int)
    ensures var h := Run(Unsolicited(id));
            && Solo(h, id, Ready, SrvPaused, Ready)
            && QuietStart(h.log) && ToldAllAttached(h.log) && LastCommand(h.log).None?
  {
    SoloStarts(id);
    SoloReport(SoloStart(id), id, Ready, SrvIdle, Ready, SrvPaused);
    SoloIsQuiet(id, Run(Unsolicited(id)).log);
    SoloStartsWithoutCommand(id);
    TailGrows(Run(SoloStart(id)).log, Reported(SrvPaused));
  }

  lemma PauseAtOnce(st: State, id: int)
    requires id in st.sources && st.client.Ready? && st.server.SrvPaused?
    ensures PauseStep(st, id).log == [AskedPause(id)]
  {
  }

  /** The server reports PAUSED on its own before any command: the pause request that completes
      the barrier sends nothing. */
  lemma UnsolicitedPausedReplacesCommand(id: int)
    ensures var h := Run(Unsolicited(id));
            && QuietStart(h.log) && ToldAllAttached(h.log) && LastCommand(h.log).None?
            && id in AttachedIds(h.log) && EveryoneToPause(h.log + [AskedPause(id)])
            && Added(Unsolicited(id), Pause(id)) == [AskedPause(id)]
  {
    UnsolicitedLog(id);
    SoloAsks(Unsolicited(id), id);
    PauseAtOnce(Run(Unsolicited(id)).state, id);
  }

  /** Paused and playing once, then a pause that is taken back before the server reports on it. */
  function UpToPlaying(id: int): seq<Event> {
    SoloStart(id) + [Pause(id)] + [Report(SrvPaused, [id], true)] + [Play(id, true)] + [Report(SrvPlaying, [id], true)]
  }

  function TakenBack(id: int): seq<Event> {
    UpToPlaying(id) + [Pause(id)] + [Play(id, true)] + [Report(SrvPaused, [id], true)]
  }

  lemma SoloPlays(id: int)
    ensures var h := Run(UpToPlaying(id)); Solo(h, id, Playing, SrvPlaying, Playing) && Run(SoloStart(id)).log <= h.log
  {
    var start := SoloStart(id);
    SoloStarts(id);
    SoloPause(start, id, Ready, SrvIdle, Ready);
    var paused := start + [Pause(id)];
    SoloReport(paused, id, AwaitingPaused, SrvIdle, AwaitingPaused, SrvPaused);
    var reported := paused + [Report(SrvPaused, [id], true)];
    SoloPlay(reported, id, Paused, SrvPaused, Paused);
    SoloReport(reported + [Play(id, true)], id, AwaitingPlaying, SrvPaused, AwaitingPlaying, SrvPlaying);
  }

  lemma TakenBackLog(id: int)
    ensures var h := Run(TakenBack(id));
            && Solo(h, id, Playing, SrvPaused, Playing)
            && h.log == Run(UpToPlaying(id)).log
                        + [AskedPause(id)] + [SentPause(Playing)] + [AskedPlay(id)] + [Reported(SrvPaused)]
  {
    var playing := UpToPlaying(id);
    SoloPlays(id);
    SoloPause(playing, id, Playing, SrvPlaying, Playing);
    SoloPlay(playing + [Pause(id)], id, AwaitingPaused, SrvPlaying, AwaitingPaused);
    var log := Run(playing + [Pause(id)]).log;
    assert log + [AskedPlay(id)] + [] == log + [AskedPlay(id)];
    SoloReport(playing + [Pause(id)] + [Play(id, true)], id, Playing, SrvPlaying, Playing, SrvPaused);
  }

  lemma TakenBackReached(log: seq<Entry>, id: int)
    ensures PauseReached(log + [SentPause(Playing)] + [AskedPlay(id)] + [Reported(SrvPaused)])
  {
    var l1 := log + [SentPause(Playing)];
    var l2 := l1 + [AskedPlay(id)];
    StandingGrows(log, SentPause(Playing));
    StandingGrows(l1, AskedPlay(id));
    StandingGrows(l2, Reported(SrvPaused));
    TailGrows(l2, Reported(SrvPaused));
    TailGrows(Since(l2), Reported(SrvPaused));
  }

  lemma PlayNotPaused(st: State, id: int, async: bool)
    requires id in st.sources && st.client.Playing? && st.server.SrvPaused?
    ensures PlayStep(st, id, async).log == [AskedPlay(id)]
  {
  }

  /** A source asks to play while the pause is awaited and the last report is still PLAYING: the
      client takes itself to be playing, the server pauses, and the next play request that
      completes the barrier sends nothing. */
  lemma TakenBackPauseLosesPlay(id: int, async: bool)
    ensures var h := Run(TakenBack(id));
            && QuietStart(h.log) && PauseReached(h.log) && id in AttachedIds(h.log)
            && EveryoneToPlay(h.log + [AskedPlay(id)])
            && Added(TakenBack(id), Play(id, async)) == [AskedPlay(id)]
  {
    SoloPlays(id);
    TakenBackLog(id);
    SoloIsQuiet(id, Run(TakenBack(id)).log);
    TakenBackReached(Run(UpToPlaying(id)).log + [AskedPause(id)], id);
    SoloAsks(TakenBack(id), id);
    PlayNotPaused(Run(TakenBack(id)).state, id, async);
  }
}
