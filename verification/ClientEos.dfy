/** The end-of-stream flag as a fact about the history of reports and flushes. */
module ClientEos {
  import opened ClientModel

  /** The server's latest report, IDLE if there was none. */
  function LastReport(log: seq<Entry>): PlaybackState {
    if log == [] then SrvIdle
    else if log[|log| - 1].Reported? then log[|log| - 1].report
    else LastReport(log[..|log| - 1])
  }

  predicate Clears(e: Entry) {
    || e.FlushBegun?
    || (e.Reported? && e.report in {SrvPaused, SrvPlaying, SrvFailure})
  }

  /** Some END_OF_STREAM report came directly after a PLAYING report, and no PAUSED, PLAYING
      or FAILURE report and no flush has come since. */
  ghost predicate EndedWhilePlaying(log: seq<Entry>) {
    exists k | 0 <= k < |log| ::
      && log[k] == Reported(SrvEndOfStream)
      && LastReport(log[..k]) == SrvPlaying
      && forall j | k < j < |log| :: !Clears(log[j])
  }

  /** By its reports the server is playing, or has ended while playing. */
  ghost predicate ServerPlays(log: seq<Entry>) {
    LastReport(log) == SrvPlaying || (LastReport(log) == SrvEndOfStream && EndedWhilePlaying(log))
  }

  ghost predicate Inv(st: State, log: seq<Entry>) {
    && st.server == LastReport(log)
    && (st.wasPlayingBeforeEos <==> EndedWhilePlaying(log))
  }

  lemma LogGrows(log: seq<Entry>, e: Entry)
    ensures LastReport(log + [e]) == if e.Reported? then e.report else LastReport(log)
    ensures EndedWhilePlaying(log + [e]) <==>
            || (e == Reported(SrvEndOfStream) && LastReport(log) == SrvPlaying)
            || (EndedWhilePlaying(log) && !Clears(e))
  {
    var l := log + [e];
    assert l[|log|] == e && l[..|log|] == log;
    assert forall k | 0 <= k < |log| :: l[k] == log[k] && l[..k] == log[..k];
    if EndedWhilePlaying(log) && !Clears(e) {
      var k :| 0 <= k < |log| && log[k] == Reported(SrvEndOfStream) && LastReport(log[..k]) == SrvPlaying
               && forall j | k < j < |log| :: !Clears(log[j]);
      assert l[k] == Reported(SrvEndOfStream) && LastReport(l[..k]) == SrvPlaying;
    }
  }

  ghost predicate Neutral(more: seq<Entry>) {
    forall e | e in more :: !e.Reported? && !e.FlushBegun?
  }

  lemma {:induction false} NeutralChangesNothing(st: State, log: seq<Entry>, more: seq<Entry>, st': State)
    requires Inv(st, log) && Neutral(more)
    requires st'.server == st.server && st'.wasPlayingBeforeEos == st.wasPlayingBeforeEos
    ensures Inv(st', log + more)
  {
    if more == [] {
      assert log + more == log;
    } else {
      var n := |more| - 1;
      NeutralChangesNothing(st, log, more[..n], st');
      LogGrows(log + more[..n], more[n]);
      assert log + more == log + more[..n] + [more[n]];
    }
  }

  lemma VisitIsNeutral(st: State, id: int, report: PlaybackState, async: bool)
    ensures var o := Visit(st, id, report, async);
            && Neutral(o.log)
            && o.state.server == st.server && o.state.wasPlayingBeforeEos == st.wasPlayingBeforeEos
  {
  }

  lemma {:induction false} VisitAllIsNeutral(st: State, order: seq<int>, report: PlaybackState, async: bool)
    ensures var o := VisitAll(st, order, report, async);
            && Neutral(o.log)
            && o.state.server == st.server && o.state.wasPlayingBeforeEos == st.wasPlayingBeforeEos
  {
    if order != [] {
      var n := |order| - 1;
      VisitAllIsNeutral(st, order[..n], report, async);
      VisitIsNeutral(VisitAll(st, order[..n], report, async).state, order[n], report, async);
    }
  }

  lemma TakeInKeeps(st: State, log: seq<Entry>, report: PlaybackState)
    requires Inv(st, log)
    ensures Inv(TakeIn(st, report), log + [Reported(report)])
  {
    LogGrows(log, Reported(report));
    var before, after := st.wasPlayingBeforeEos, TakeIn(st, report).wasPlayingBeforeEos;
    if report.SrvEndOfStream? {
      assert !Clears(Reported(report)) && after == (before || st.server.SrvPlaying?);
    } else if report in {SrvPaused, SrvPlaying, SrvFailure} {
      assert Clears(Reported(report)) && !after;
    } else {
      assert !Clears(Reported(report)) && after == before;
    }
  }

  lemma ReportKeeps(st: State, log: seq<Entry>, report: PlaybackState, order: seq<int>, async: bool)
    requires Inv(st, log)
    ensures var o := ReportStep(st, report, order, async); Inv(o.state, log + o.log)
  {
    var st1 := TakeIn(st, report);
    TakeInKeeps(st, log, report);
    if IsVisiting(st, report) {
      var visits := VisitAll(st1, order, report, async);
      assert log + ([Reported(report)] + visits.log) == log + [Reported(report)] + visits.log;
      VisitAllIsNeutral(st1, order, report, async);
      NeutralChangesNothing(st1, log + [Reported(report)], visits.log, visits.state);
    }
  }

  lemma FlushKeeps(st: State, log: seq<Entry>, id: int, accepted: bool, async: bool)
    requires Inv(st, log)
    ensures var o := FlushStep(st, id, accepted, async); Inv(o.state, log + o.log)
  {
    var o := FlushStep(st, id, accepted, async);
    LogGrows(log, FlushBegun(id));
    if |o.log| == 2 {
      LogGrows(log + [FlushBegun(id)], FlushedAsync(id));
      assert log + o.log == log + [FlushBegun(id)] + [FlushedAsync(id)];
    }
  }

  lemma OtherStepsAreNeutral(st: State, e: Event)
    requires !e.Report? && !e.Flush?
    ensures var o := Step(st, e);
            && Neutral(o.log)
            && o.state.server == st.server && o.state.wasPlayingBeforeEos == st.wasPlayingBeforeEos
  {
  }

  lemma StepKeeps(st: State, log: seq<Entry>, e: Event)
    requires Inv(st, log)
    ensures var o := Step(st, e); Inv(o.state, log + o.log)
  {
    match e
    case Report(report, order, async) => ReportKeeps(st, log, report, order, async);
    case Flush(id, accepted, async) => FlushKeeps(st, log, id, accepted, async);
    case _ =>
      OtherStepsAreNeutral(st, e);
      NeutralChangesNothing(st, log, Step(st, e).log, Step(st, e).state);
  }

  lemma {:induction false} InvInEveryRun(events: seq<Event>)
    ensures Inv(Run(events).state, Run(events).log)
  {
    if events != [] {
      var n := |events| - 1;
      InvInEveryRun(events[..n]);
      StepKeeps(Run(events[..n]).state, Run(events[..n]).log, events[n]);
    }
  }

  /** In every run the flag is exactly the history fact. */
  lemma EosFlagIsHistory(events: seq<Event>)
    ensures Run(events).state.wasPlayingBeforeEos <==> EndedWhilePlaying(Run(events).log)
  {
    InvInEveryRun(events);
  }

  /** A play request of an attached source is answered synchronously, with the source in
      PLAYING at once, when the history says the server is playing or ended while playing;
      otherwise the source waits, and a synchronous answer means a play command was sent. */
  lemma PlayIsSynchronousByHistory(events: seq<Event>, id: int, async: bool)
    requires id in Run(events).state.sources
    ensures var h := Run(events);
            var o := PlayStep(h.state, id, async);
            if ServerPlays(h.log)
            then o.reply == SuccessSync && o.state.sources[id].state == Playing && o.log == [AskedPlay(id)]
            else o.state.sources[id].state == AwaitingPlaying && (o.reply == SuccessSync <==> SentPlay in o.log && !async)
  {
    InvInEveryRun(events);
  }
}
