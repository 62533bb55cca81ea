/** Reading the client's log of requests, reports and commands: the latest command, what came
    since, and who asks for what; with each notion, how one more log line changes it. */
module ClientHistory {
  import opened Wrappers
  import opened ClientModel
  import opened ClientBarrier
  import opened ClientCommands
  import opened ClientEos

  // ----- Reading the log -----

  /** The latest play or pause command. */
  function LastCommand(log: seq<Entry>): Option<Entry> {
    if log == [] then None
    else if IsCommand(log[|log| - 1]) then Some(log[|log| - 1])
    else LastCommand(log[..|log| - 1])
  }

  /** What came after the latest command. */
  function Since(log: seq<Entry>): (tail: seq<Entry>)
    ensures |tail| <= |log|
  {
    if log == [] || IsCommand(log[|log| - 1]) then [] else Since(log[..|log| - 1]) + [log[|log| - 1]]
  }

  /** What came after the latest report. */
  function SinceReport(log: seq<Entry>): seq<Entry> {
    if log == [] || log[|log| - 1].Reported? then [] else SinceReport(log[..|log| - 1]) + [log[|log| - 1]]
  }

  ghost predicate EveryoneToPlay(log: seq<Entry>) {
    forall id | id in AttachedIds(log) :: LastAsk(log, id) == ToPlay
  }

  ghost predicate EveryoneToPause(log: seq<Entry>) {
    forall id | id in AttachedIds(log) :: LastAsk(log, id) in {ToPause, WasFlushed}
  }

  ghost predicate HasReport(log: seq<Entry>) {
    exists e | e in log :: e.Reported?
  }

  ghost predicate NoLoudReport(log: seq<Entry>) {
    forall e | e in log :: !IsLoud(e)
  }

  /** The latest command is a play, and the server has not reported PAUSED since. */
  ghost predicate PlayStands(log: seq<Entry>) {
    LastCommand(log) == Some(SentPlay) && Reported(SrvPaused) !in Since(log)
  }

  /** Some PLAYING report came before any PAUSED report, and no source was flushed since it. */
  ghost predicate Confirmed(tail: seq<Entry>) {
    exists i | 0 <= i < |tail| ::
      && tail[i] == Reported(SrvPlaying)
      && Reported(SrvPaused) !in tail[..i]
      && forall k | i < k < |tail| :: !tail[k].FlushedAsync?
  }

  /** The latest command is a play, which the server has confirmed; it may have paused on its
      own afterwards. */
  ghost predicate PlayConfirmed(log: seq<Entry>) {
    LastCommand(log) == Some(SentPlay) && Confirmed(Since(log))
  }

  /** The latest command is a pause, and the server has reported nothing but PAUSED since. */
  ghost predicate PauseStands(log: seq<Entry>) {
    && LastCommand(log).Some? && LastCommand(log).value.SentPause?
    && forall e | e in Since(log) && e.Reported? :: e.report == SrvPaused
  }

  /** At `k` a source asks to play before any report has answered the latest command, while by
      its reports the server still plays, and with it everyone asks to play. */
  ghost predicate Overtakes(log: seq<Entry>, k: nat)
    requires k < |log|
  {
    && log[k].AskedPlay?
    && (forall j | |log| - |Since(log)| <= j < k :: !log[j].Reported?)
    && ServerPlays(log[..k])
    && EveryoneToPlay(log[..k + 1])
  }

  /** The sources took back the latest pause command before the server had reported on it. */
  ghost predicate Overtaken(log: seq<Entry>) {
    exists k | |log| - |Since(log)| <= k < |log| :: Overtakes(log, k)
  }

  /** At `k` a source asks to play, and with it everyone does. */
  ghost predicate AllAskAt(log: seq<Entry>, k: nat)
    requires k < |log|
  {
    log[k].AskedPlay? && EveryoneToPlay(log[..k + 1])
  }

  /** A pause command was sent and there was no moment since at which everyone came to ask
      to play. */
  ghost predicate PauseSpent(log: seq<Entry>) {
    exists i | 0 <= i < |log| :: log[i].SentPause? && forall k | i < k < |log| :: !AllAskAt(log, k)
  }

  /** A source was flushed after the first command, and the server has not reported PAUSED
      since. */
  ghost predicate FlushOutstanding(log: seq<Entry>) {
    exists i | 0 <= i < |log| ::
      && log[i].FlushedAsync? && LastCommand(log[..i]).Some?
      && forall k | i < k < |log| :: log[k] != Reported(SrvPaused)
  }

  // ----- One more log line -----

  lemma TailGrows(log: seq<Entry>, e: Entry)
    ensures LastCommand(log + [e]) == if IsCommand(e) then Some(e) else LastCommand(log)
    ensures Since(log + [e]) == if IsCommand(e) then [] else Since(log) + [e]
    ensures SinceReport(log + [e]) == if e.Reported? then [] else SinceReport(log) + [e]
    ensures HasReport(log + [e]) <==> HasReport(log) || e.Reported?
    ensures NoLoudReport(log + [e]) <==> NoLoudReport(log) && !IsLoud(e)
  {
    assert (log + [e])[..|log|] == log;
    assert e in log + [e];
    assert forall x :: x in log + [e] <==> x in log || x == e;
  }

  lemma StandingGrows(log: seq<Entry>, e: Entry)
    ensures PlayStands(log + [e]) <==> e.SentPlay? || (PlayStands(log) && !e.SentPause? && e != Reported(SrvPaused))
    ensures PauseStands(log + [e]) <==>
            || e.SentPause?
            || (PauseStands(log) && !IsCommand(e) && (e.Reported? ==> e.report == SrvPaused))
  {
    TailGrows(log, e);
    if !IsCommand(e) {
      assert forall x :: x in Since(log) + [e] <==> x in Since(log) || x == e;
    }
  }

  lemma ConfirmedGrows(tail: seq<Entry>, e: Entry)
    requires Confirmed(tail + [e])
    ensures (Confirmed(tail) && !e.FlushedAsync?) || (Reported(SrvPaused) !in tail && e == Reported(SrvPlaying))
  {
    var l := tail + [e];
    var i :| 0 <= i < |l| && l[i] == Reported(SrvPlaying) && Reported(SrvPaused) !in l[..i]
             && forall k | i < k < |l| :: !l[k].FlushedAsync?;
    assert l[..i] == tail[..i] && l[|tail|] == e;
    if i < |tail| {
      assert tail[i] == Reported(SrvPlaying);
      assert forall k | i < k < |tail| :: tail[k] == l[k];
    } else {
      assert tail[..i] == tail;
    }
  }

  lemma PlayConfirmedGrows(log: seq<Entry>, e: Entry)
    ensures PlayConfirmed(log + [e]) ==>
            && !IsCommand(e)
            && ((PlayConfirmed(log) && !e.FlushedAsync?) || (PlayStands(log) && e == Reported(SrvPlaying)))
  {
    TailGrows(log, e);
    if PlayConfirmed(log + [e]) && !IsCommand(e) {
      ConfirmedGrows(Since(log), e);
    }
  }

  lemma OvertakenStays(log: seq<Entry>, e: Entry)
    requires !IsCommand(e) && Overtaken(log)
    ensures Overtaken(log + [e])
  {
    TailGrows(log, e);
    var l := log + [e];
    var k :| |log| - |Since(log)| <= k < |log| && Overtakes(log, k);
    OvertakesInLonger(log, l, k);
  }

  lemma OvertakesInLonger(log: seq<Entry>, l: seq<Entry>, k: nat)
    requires log <= l && k < |log| && |l| - |Since(l)| == |log| - |Since(log)| && Overtakes(log, k)
    ensures Overtakes(l, k)
  {
    assert l[..k] == log[..k] && l[..k + 1] == log[..k + 1];
    assert forall j | 0 <= j <= k :: l[j] == log[j];
  }

  lemma {:induction false} SinceIsTail(log: seq<Entry>)
    ensures Since(log) == log[|log| - |Since(log)|..]
  {
    if log != [] {
      SinceIsTail(log[..|log| - 1]);
    }
  }

  lemma NoReportSince(log: seq<Entry>, e: Entry)
    requires !HasReport(Since(log))
    ensures forall j | |log| - |Since(log)| <= j < |log| :: !(log + [e])[j].Reported?
  {
    SinceIsTail(log);
    forall j | |log| - |Since(log)| <= j < |log|
      ensures !(log + [e])[j].Reported?
    {
      assert log[j] == Since(log)[j - (|log| - |Since(log)|)];
    }
  }

  lemma OvertakenNow(log: seq<Entry>, e: Entry)
    requires e.AskedPlay? && !HasReport(Since(log)) && ServerPlays(log) && EveryoneToPlay(log + [e])
    ensures Overtaken(log + [e])
  {
    var l, n := log + [e], |log|;
    TailGrows(log, e);
    NoReportSince(log, e);
    assert |l| - |Since(l)| == n - |Since(log)|;
    assert l[..n] == log;
    assert l[..n + 1] == l;
    assert Overtakes(l, n);
  }

  lemma AllAskInLonger(log: seq<Entry>, e: Entry)
    ensures forall k | 0 <= k < |log| :: AllAskAt(log + [e], k) <==> AllAskAt(log, k)
    ensures AllAskAt(log + [e], |log|) <==> e.AskedPlay? && EveryoneToPlay(log + [e])
  {
    var l := log + [e];
    assert l[|log|] == e && l[..|log| + 1] == l;
    assert forall k | 0 <= k < |log| :: l[k] == log[k] && l[..k + 1] == log[..k + 1];
  }

  lemma SpentGrows(log: seq<Entry>, e: Entry)
    ensures PauseSpent(log + [e]) ==>
            e.SentPause? || (PauseSpent(log) && !(e.AskedPlay? && EveryoneToPlay(log + [e])))
  {
    var l := log + [e];
    AllAskInLonger(log, e);
    if PauseSpent(l) && !e.SentPause? {
      var i :| 0 <= i < |l| && l[i].SentPause? && forall k | i < k < |l| :: !AllAskAt(l, k);
      assert i < |log| && log[i].SentPause?;
      assert forall k | i < k < |log| :: !AllAskAt(log, k);
      assert !AllAskAt(l, |log|);
    }
  }

  lemma FlushOutstandingGrows(log: seq<Entry>, e: Entry)
    ensures FlushOutstanding(log + [e]) <==>
            || (e.FlushedAsync? && LastCommand(log).Some?)
            || (FlushOutstanding(log) && e != Reported(SrvPaused))
  {
    var l := log + [e];
    assert l[|log|] == e && l[..|log|] == log;
    assert forall k | 0 <= k < |log| :: l[k] == log[k] && l[..k] == log[..k];
    if FlushOutstanding(log) && e != Reported(SrvPaused) {
      var i :| 0 <= i < |log| && log[i].FlushedAsync? && LastCommand(log[..i]).Some?
               && forall k | i < k < |log| :: log[k] != Reported(SrvPaused);
      assert l[i].FlushedAsync? && LastCommand(l[..i]).Some?;
    }
  }

  /** Between any two pause commands there is a moment at which everyone came to ask to play. */
  ghost predicate PlayAskedBetweenPauses(log: seq<Entry>) {
    forall i, j | 0 <= i < j < |log| && log[i].SentPause? && log[j].SentPause? :: exists k | i < k < j :: AllAskAt(log, k)
  }

  /** Between a flush that follows a command and the next play command the server reports PAUSED. */
  ghost predicate PausedBetweenFlushAndPlay(log: seq<Entry>) {
    forall i, j | 0 <= i < j < |log| && log[i].FlushedAsync? && LastCommand(log[..i]).Some? && log[j].SentPlay? ::
      exists k | i < k < j :: log[k] == Reported(SrvPaused)
  }

  /** Every play command comes after some PAUSED report. */
  ghost predicate PausedBeforePlays(log: seq<Entry>) {
    forall j | 0 <= j < |log| && log[j].SentPlay? :: Reported(SrvPaused) in log[..j]
  }

  lemma BeforePlaysGrows(log: seq<Entry>, e: Entry)
    requires PausedBeforePlays(log)
    requires e.SentPlay? ==> Reported(SrvPaused) in log
    ensures PausedBeforePlays(log + [e])
  {
    var l := log + [e];
    assert l[..|log|] == log;
    assert forall j | 0 <= j < |log| :: l[j] == log[j] && l[..j] == log[..j];
  }

  lemma BetweenPausesGrows(log: seq<Entry>, e: Entry)
    requires PlayAskedBetweenPauses(log)
    requires e.SentPause? ==> !PauseSpent(log)
    ensures PlayAskedBetweenPauses(log + [e])
  {
    var l := log + [e];
    forall i, j | 0 <= i < j < |l| && l[i].SentPause? && l[j].SentPause?
      ensures exists k | i < k < j :: AllAskAt(l, k)
    {
      assert log[i].SentPause?;
      if j < |log| {
        assert log[j].SentPause?;
      }
      var k :| i < k < j && AllAskAt(log, k);
      assert l[k] == log[k] && l[..k + 1] == log[..k + 1];
      assert AllAskAt(l, k);
    }
  }

  lemma BetweenFlushAndPlayGrows(log: seq<Entry>, e: Entry)
    requires PausedBetweenFlushAndPlay(log)
    requires e.SentPlay? ==> !FlushOutstanding(log)
    ensures PausedBetweenFlushAndPlay(log + [e])
  {
    var l := log + [e];
    forall i, j | 0 <= i < j < |l| && l[i].FlushedAsync? && LastCommand(l[..i]).Some? && l[j].SentPlay?
      ensures exists k | i < k < j :: l[k] == Reported(SrvPaused)
    {
      assert l[i] == log[i] && l[..i] == log[..i];
      if j < |log| {
        assert log[j].SentPlay?;
      }
      var k :| i < k < j && log[k] == Reported(SrvPaused);
      assert l[k] == log[k];
    }
  }
}
