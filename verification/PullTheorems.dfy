/** What holds of the sample queue over every run. */
module PullTheorems {
  import opened Wrappers
  import opened PullModel

  // ----- Bounded queue and flush flag -----

  ghost predicate Bounded(st: State) {
    && |st.samples| <= MAX_QUEUED
    && (st.signalled ==> st.waiting.Some? && |st.samples| < MAX_QUEUED)
    && (st.sinkFlush ==> st.samples == [])
  }

  lemma StepKeepsBounded(st: State, e: Event)
    requires Bounded(st)
    ensures Bounded(Step(st, e).state)
  {
  }

  /** In every run the queue never exceeds its limit, and a flushing sink holds no samples. */
  lemma {:induction false} QueueIsBoundedAndFlushedEmpty(events: seq<Event>)
    ensures Bounded(Run(events).state)
  {
    if events != [] {
      var n := |events| - 1;
      QueueIsBoundedAndFlushedEmpty(events[..n]);
      StepKeepsBounded(Run(events[..n]).state, events[n]);
    }
  }

  // ----- The flags are history -----

  /** The FLUSH_START at `k` finds the sink not flushing. */
  ghost predicate Begins(events: seq<Event>, k: nat)
    requires k < |events|
  {
    events[k].FlushStart? && !Run(events[..k]).state.sinkFlush
  }

  /** The end of stream came, and no flush has begun since. */
  ghost predicate EosCame(events: seq<Event>) {
    exists i | 0 <= i < |events| :: events[i].EosEvent? && forall k | i < k < |events| :: !Begins(events, k)
  }

  /** A segment reached the client, and no flush has begun since. */
  ghost predicate SegmentCame(events: seq<Event>) {
    exists i | 0 <= i < |events| :: events[i] == SegmentEvent(true) && forall k | i < k < |events| :: !Begins(events, k)
  }

  /** A FLUSH_START or a change to READY came, and neither FLUSH_STOP nor a change to PAUSED since. */
  ghost predicate SinkFlushOpen(events: seq<Event>) {
    exists i | 0 <= i < |events| ::
      && (events[i].FlushStart? || events[i].PausedToReady?)
      && forall k | i < k < |events| :: !events[k].FlushStop? && !events[k].ReadyToPaused?
  }

  lemma BeginsInLonger(events: seq<Event>, e: Event)
    ensures forall k | 0 <= k < |events| :: Begins(events + [e], k) <==> Begins(events, k)
    ensures Begins(events + [e], |events|) <==> e.FlushStart? && !Run(events).state.sinkFlush
  {
    var l := events + [e];
    assert l[|events|] == e && l[..|events|] == events;
    assert forall k | 0 <= k < |events| :: l[k] == events[k] && l[..k] == events[..k];
  }

  lemma EosCameGrows(events: seq<Event>, e: Event)
    ensures EosCame(events + [e]) <==>
            e.EosEvent? || (EosCame(events) && !(e.FlushStart? && !Run(events).state.sinkFlush))
  {
    var l := events + [e];
    BeginsInLonger(events, e);
    if EosCame(events) && !Begins(l, |events|) {
      var i :| 0 <= i < |events| && events[i].EosEvent? && forall k | i < k < |events| :: !Begins(events, k);
      assert l[i].EosEvent?;
    }
    if EosCame(l) && !e.EosEvent? {
      var i :| 0 <= i < |l| && l[i].EosEvent? && forall k | i < k < |l| :: !Begins(l, k);
      assert events[i].EosEvent? && !Begins(l, |events|);
    }
    if e.EosEvent? {
      assert l[|events|].EosEvent?;
    }
  }

  lemma SegmentCameGrows(events: seq<Event>, e: Event)
    ensures SegmentCame(events + [e]) <==>
            e == SegmentEvent(true) || (SegmentCame(events) && !(e.FlushStart? && !Run(events).state.sinkFlush))
  {
    var l := events + [e];
    BeginsInLonger(events, e);
    if SegmentCame(events) && !Begins(l, |events|) {
      var i :| 0 <= i < |events| && events[i] == SegmentEvent(true) && forall k | i < k < |events| :: !Begins(events, k);
      assert l[i] == SegmentEvent(true);
    }
    if SegmentCame(l) && e != SegmentEvent(true) {
      var i :| 0 <= i < |l| && l[i] == SegmentEvent(true) && forall k | i < k < |l| :: !Begins(l, k);
      assert events[i] == SegmentEvent(true) && !Begins(l, |events|);
    }
    if e == SegmentEvent(true) {
      assert l[|events|] == SegmentEvent(true);
    }
  }

  lemma SinkFlushOpenGrows(events: seq<Event>, e: Event)
    ensures SinkFlushOpen(events + [e]) <==>
            || e.FlushStart? || e.PausedToReady?
            || (SinkFlushOpen(events) && !e.FlushStop? && !e.ReadyToPaused?)
  {
    var l := events + [e];
    assert l[|events|] == e;
    assert forall k | 0 <= k < |events| :: l[k] == events[k];
    if SinkFlushOpen(events) && !e.FlushStop? && !e.ReadyToPaused? {
      var i :| 0 <= i < |events| && (events[i].FlushStart? || events[i].PausedToReady?)
               && forall k | i < k < |events| :: !events[k].FlushStop? && !events[k].ReadyToPaused?;
      assert l[i].FlushStart? || l[i].PausedToReady?;
    }
    if e.FlushStart? || e.PausedToReady? {
      assert l[|events|].FlushStart? || l[|events|].PausedToReady?;
    }
  }

  lemma EosFlagStep(st: State, e: Event)
    ensures Step(st, e).state.isEos <==> e.EosEvent? || (st.isEos && !(e.FlushStart? && !st.sinkFlush))
  {
  }

  lemma SegmentFlagStep(st: State, e: Event)
    ensures Step(st, e).state.segmentSet <==>
            e == SegmentEvent(true) || (st.segmentSet && !(e.FlushStart? && !st.sinkFlush))
  {
  }

  lemma SinkFlushStep(st: State, e: Event)
    ensures Step(st, e).state.sinkFlush <==>
            e.FlushStart? || e.PausedToReady? || (st.sinkFlush && !e.FlushStop? && !e.ReadyToPaused?)
  {
  }

  /** In every run the flags are facts about the events: the end of stream and the segment have
      come since the last flush began, and the sink flushes from FLUSH_START or READY until
      FLUSH_STOP or PAUSED. */
  lemma {:induction false} FlagsAreHistory(events: seq<Event>)
    ensures var st := Run(events).state;
            && (st.isEos <==> EosCame(events))
            && (st.segmentSet <==> SegmentCame(events))
            && (st.sinkFlush <==> SinkFlushOpen(events))
  {
    if events != [] {
      var n := |events| - 1;
      FlagsAreHistory(events[..n]);
      EosFlagStep(Run(events[..n]).state, events[n]);
      SegmentFlagStep(Run(events[..n]).state, events[n]);
      SinkFlushStep(Run(events[..n]).state, events[n]);
      EosCameGrows(events[..n], events[n]);
      SegmentCameGrows(events[..n], events[n]);
      SinkFlushOpenGrows(events[..n], events[n]);
      assert events == events[..n] + [events[n]];
    }
  }

  // ----- The streaming thread is woken -----

  /** A streaming thread that waits although there is room has been signalled. */
  ghost predicate WaiterIsSignalled(st: State) {
    st.waiting.Some? && |st.samples| < MAX_QUEUED ==> st.signalled
  }

  lemma StepKeepsWaiterSignalled(st: State, e: Event)
    requires WaiterIsSignalled(st)
    ensures WaiterIsSignalled(Step(st, e).state)
  {
  }

  /** No wakeup of the sink's condition variable is lost: in every run a streaming thread that
      waits with room in the queue has been signalled. */
  lemma {:induction false} NoLostWakeup(events: seq<Event>)
    ensures WaiterIsSignalled(Run(events).state)
  {
    if events != [] {
      NoLostWakeup(events[..|events| - 1]);
      StepKeepsWaiterSignalled(Run(events[..|events| - 1]).state, events[|events| - 1]);
    }
  }

  /** So, in every run, once there is room the waiting buffer goes on when its thread is
      scheduled: it is queued at the tail, or discarded if the sink is flushing or no sample
      can be made of it. */
  lemma WaiterGoesOn(events: seq<Event>, sampleMade: bool)
    requires var st := Run(events).state; st.waiting.Some? && |st.samples| < MAX_QUEUED
    ensures var st, h := Run(events).state, Run(events + [BufferResumes(sampleMade)]);
            var n := st.waiting.value;
            && h.state.waiting.None?
            && if sampleMade && !st.sinkFlush
               then h.state.samples == st.samples + [n] && h.log == Run(events).log + [Queued(n)]
               else h.state.samples == st.samples && h.log == Run(events).log + [Discarded(n)]
  {
    NoLostWakeup(events);
    RunGrows(events, BufferResumes(sampleMade));
  }

  // ----- Every buffer has one fate -----

  /** How often buffer `n` was queued or discarded, or is waiting. */
  function Fates(st: State, log: seq<Entry>, n: nat): nat {
    multiset(log)[Queued(n)] + multiset(log)[Discarded(n)] + if st.waiting == Some(n) then 1 else 0
  }

  ghost predicate OneFateEach(st: State, log: seq<Entry>) {
    forall n: nat :: Fates(st, log, n) == if n < st.received then 1 else 0
  }

  /** Whether a log line settles buffer `n`. */
  function Settles(e: Entry, n: nat): nat {
    if e == Queued(n) || e == Discarded(n) then 1 else 0
  }

  function Pending(waiting: Option<nat>, n: nat): nat {
    if waiting == Some(n) then 1 else 0
  }

  lemma FatesGrow(st: State, log: seq<Entry>, e: Entry, st': State, n: nat)
    ensures Fates(st', log + [e], n) ==
            Fates(st, log, n) + Settles(e, n) + Pending(st'.waiting, n) - Pending(st.waiting, n)
  {
    assert multiset(log + [e]) == multiset(log) + multiset{e};
  }

  /** The same for the one or two lines of a step. */
  function SettledBy(log: seq<Entry>, n: nat): nat {
    (if |log| > 0 then Settles(log[0], n) else 0) + if |log| > 1 then Settles(log[1], n) else 0
  }

  lemma FinishSettles(st: State, m: nat, sampleMade: bool, n: nat)
    ensures var o := FinishBuffer(st, m, sampleMade);
            && |o.log| == 1 && SettledBy(o.log, n) == (if m == n then 1 else 0)
            && o.state.waiting == st.waiting && o.state.received == st.received
  {
  }

  /** What a step does to the fate of buffer `n`. */
  ghost predicate SettlesRightly(st: State, o: Outcome, n: nat) {
    && |o.log| <= 2 && st.received <= o.state.received
    && SettledBy(o.log, n) + Pending(o.state.waiting, n) - Pending(st.waiting, n) ==
       if st.received <= n < o.state.received then 1 else 0
  }

  lemma FinishedArrivalSettles(st: State, f: Outcome, n: nat)
    requires st.waiting.None? && |f.log| == 1
    requires SettledBy(f.log, n) == if st.received == n then 1 else 0
    requires f.state.waiting.None? && f.state.received == st.received + 1
    ensures SettlesRightly(st, Outcome(f.state, [Received(st.received)] + f.log), n)
  {
    var log := [Received(st.received)] + f.log;
    assert log[0] == Received(st.received) && log[1] == f.log[0];
  }

  lemma WaitingArrivalSettles(st: State, st': State, n: nat)
    requires st.waiting.None? && st'.waiting == Some(st.received) && st'.received == st.received + 1
    ensures SettlesRightly(st, Outcome(st', [Received(st.received)]), n)
  {
  }

  lemma NothingSettles(st: State, n: nat)
    ensures SettlesRightly(st, Outcome(st, []), n)
  {
  }

  /** The three ways an arrival can go. */
  lemma ArrivalGoes(st: State, sampleMade: bool)
    ensures var o, m, st1 := Step(st, BufferArrives(sampleMade)), st.received, st.(received := st.received + 1);
            if st.waiting.Some? then o == Outcome(st, [])
            else if |st.samples| >= MAX_QUEUED then o == Outcome(st1.(waiting := Some(m), signalled := false), [Received(m)])
            else var f := FinishBuffer(st1, m, sampleMade); o == Outcome(f.state, [Received(m)] + f.log)
  {
  }

  lemma ArrivalSettles(st: State, sampleMade: bool, n: nat)
    ensures SettlesRightly(st, Step(st, BufferArrives(sampleMade)), n)
  {
    var m, st1 := st.received, st.(received := st.received + 1);
    ArrivalGoes(st, sampleMade);
    if st.waiting.Some? {
      NothingSettles(st, n);
    } else if |st.samples| >= MAX_QUEUED {
      WaitingArrivalSettles(st, st1.(waiting := Some(m), signalled := false), n);
    } else {
      FinishSettles(st1, m, sampleMade, n);
      FinishedArrivalSettles(st, FinishBuffer(st1, m, sampleMade), n);
    }
  }

  lemma {:induction false} ResumptionSettles(st: State, sampleMade: bool, n: nat)
    requires st.waiting.Some? ==> st.waiting.value < st.received
    ensures SettlesRightly(st, Step(st, BufferResumes(sampleMade)), n)
  {
    if st.waiting.Some? {
      FinishSettles(st.(waiting := None, signalled := false), st.waiting.value, sampleMade, n);
    }
  }

  lemma {:induction false} OtherStepSettlesNothing(st: State, e: Event, n: nat)
    requires !e.BufferArrives? && !e.BufferResumes?
    ensures SettlesRightly(st, Step(st, e), n)
  {
    var o := Step(st, e);
    StreamingThreadUntouched(st, e);
    OtherStepLog(st, e);
  }

  lemma StreamingThreadUntouched(st: State, e: Event)
    requires !e.BufferArrives? && !e.BufferResumes?
    ensures var st' := Step(st, e).state; st'.received == st.received && st'.waiting == st.waiting
  {
    match e
    case PopSample => assert Step(st, e).state.waiting == st.waiting;
    case FlushStart => assert Clear(st).waiting == st.waiting;
    case PausedToReady => assert Clear(st).waiting == st.waiting;
    case _ =>
  }

  lemma OtherStepLog(st: State, e: Event)
    requires !e.BufferArrives? && !e.BufferResumes?
    ensures var log := Step(st, e).log; log == [] || (|log| == 1 && !log[0].Queued? && !log[0].Discarded?)
  {
  }

  /** A step settles a buffer exactly if it takes it in or ends its wait. */
  lemma {:induction false} StepSettles(st: State, e: Event, n: nat)
    requires st.waiting.Some? ==> st.waiting.value < st.received
    ensures SettlesRightly(st, Step(st, e), n)
  {
    if e.BufferArrives? {
      ArrivalSettles(st, e.sampleMade, n);
    } else if e.BufferResumes? {
      ResumptionSettles(st, e.sampleMade, n);
    } else {
      OtherStepSettlesNothing(st, e, n);
    }
  }

  /** The fate of one buffer over one step. */
  lemma StepKeepsFate(st: State, log: seq<Entry>, e: Event, n: nat)
    requires Fates(st, log, n) == if n < st.received then 1 else 0
    requires st.waiting.Some? ==> st.waiting.value < st.received
    ensures var o := Step(st, e); Fates(o.state, log + o.log, n) == if n < o.state.received then 1 else 0
  {
    var o := Step(st, e);
    StepSettles(st, e, n);
    FatesAfter(st, log, o.log, o.state, n);
  }

  lemma FatesAfter(st: State, log: seq<Entry>, more: seq<Entry>, st': State, n: nat)
    requires |more| <= 2
    ensures Fates(st', log + more, n) ==
            Fates(st, log, n) + SettledBy(more, n) + Pending(st'.waiting, n) - Pending(st.waiting, n)
  {
    if more == [] {
      assert log + more == log;
    } else if |more| == 1 {
      assert more == [more[0]];
      FatesGrow(st, log, more[0], st', n);
    } else {
      var l := log + [more[0]];
      FatesGrow(st, log, more[0], st, n);
      FatesGrow(st, l, more[1], st', n);
      assert log + more == l + [more[1]];
    }
  }

  lemma StepKeepsFates(st: State, log: seq<Entry>, e: Event)
    requires OneFateEach(st, log)
    ensures var o := Step(st, e); OneFateEach(o.state, log + o.log)
  {
    var o := Step(st, e);
    if st.waiting.Some? {
      assert Fates(st, log, st.waiting.value) == if st.waiting.value < st.received then 1 else 0;
    }
    forall n: nat
      ensures Fates(o.state, log + o.log, n) == if n < o.state.received then 1 else 0
    {
      assert Fates(st, log, n) == if n < st.received then 1 else 0;
      StepKeepsFate(st, log, e, n);
    }
  }

  /** In every run every received buffer is queued once, discarded once, or still waiting;
      none is lost or duplicated before the queue. */
  lemma {:induction false} EveryBufferHasOneFate(events: seq<Event>)
    ensures OneFateEach(Run(events).state, Run(events).log)
  {
    if events != [] {
      var n := |events| - 1;
      EveryBufferHasOneFate(events[..n]);
      StepKeepsFates(Run(events[..n]).state, Run(events[..n]).log, events[n]);
    }
  }

  // ----- Server flush -----

  ghost predicate ServerFlushOpen(log: seq<Entry>) {
    exists i | 0 <= i < |log| :: log[i].ServerFlushAsked? && forall k | i < k < |log| :: !log[k].ServerFlushEnded?
  }

  /** No sample is returned between a server flush request and its completion. */
  ghost predicate NothingReturnedDuringServerFlush(log: seq<Entry>) {
    forall j | 0 <= j < |log| && log[j].Returned? :: !ServerFlushOpen(log[..j])
  }

  lemma ServerLogGrows(log: seq<Entry>, e: Entry)
    ensures ServerFlushOpen(log + [e]) <==> e.ServerFlushAsked? || (ServerFlushOpen(log) && !e.ServerFlushEnded?)
    ensures NothingReturnedDuringServerFlush(log + [e]) <==>
            NothingReturnedDuringServerFlush(log) && (e.Returned? ==> !ServerFlushOpen(log))
  {
    var l := log + [e];
    assert l[|log|] == e && l[..|log|] == log;
    assert forall i | 0 <= i < |log| :: l[i] == log[i] && l[..i] == log[..i];
    if ServerFlushOpen(log) && !e.ServerFlushEnded? {
      var i :| 0 <= i < |log| && log[i].ServerFlushAsked? && forall k | i < k < |log| :: !log[k].ServerFlushEnded?;
      assert l[i].ServerFlushAsked?;
    }
  }

  ghost predicate ServerInv(st: State, log: seq<Entry>) {
    && NothingReturnedDuringServerFlush(log)
    && (st.serverFlush <==> ServerFlushOpen(log))
  }

  lemma StepKeepsServerInv(st: State, log: seq<Entry>, e: Event)
    requires ServerInv(st, log)
    ensures var o := Step(st, e); ServerInv(o.state, log + o.log)
  {
    var o := Step(st, e);
    if o.log == [] {
      assert log + o.log == log;
    } else {
      ServerLogGrows(log, o.log[0]);
      if |o.log| == 2 {
        ServerLogGrows(log + [o.log[0]], o.log[1]);
        assert log + o.log == log + [o.log[0]] + [o.log[1]];
      } else {
        assert o.log == [o.log[0]];
      }
    }
  }

  /** In every run, no sample is returned between a server flush request and its completion. */
  lemma {:induction false} ServerFlushIsolated(events: seq<Event>)
    ensures ServerInv(Run(events).state, Run(events).log)
  {
    if events != [] {
      var n := |events| - 1;
      ServerFlushIsolated(events[..n]);
      StepKeepsServerInv(Run(events[..n]).state, Run(events[..n]).log, events[n]);
    }
  }

  // ----- Sink flush -----

  /** Sample `n` was received before some FLUSH_START in the log. */
  ghost predicate Stale(log: seq<Entry>, n: nat) {
    exists i, j | 0 <= i < j < |log| :: log[i] == Received(n) && log[j].FlushBegun?
  }

  /** After a FLUSH_START no sample received before it is returned. */
  ghost predicate NoStaleReturned(log: seq<Entry>) {
    forall k | 0 <= k < |log| && log[k].Returned? :: !Stale(log[..k], log[k].sample)
  }

  ghost predicate NoStaleQueued(st: State, log: seq<Entry>) {
    forall n | n in st.samples :: !Stale(log, n)
  }

  ghost predicate FreshInv(st: State, log: seq<Entry>) {
    && (forall n: nat | Received(n) in log :: n < st.received)
    && NoStaleQueued(st, log)
    && NoStaleReturned(log)
  }

  /** A waiting buffer from before a flush goes on and finds the sink's flag down again. */
  ghost predicate ResumesStale(st: State, log: seq<Entry>, e: Event) {
    && e == BufferResumes(true) && st.waiting.Some? && st.signalled && !st.sinkFlush
    && Stale(log, st.waiting.value)
  }

  lemma StaleGrows(log: seq<Entry>, e: Entry, n: nat)
    ensures Stale(log + [e], n) <==> Stale(log, n) || (e.FlushBegun? && Received(n) in log)
  {
    var l := log + [e];
    assert l[|log|] == e;
    assert forall i | 0 <= i < |log| :: l[i] == log[i];
    if Stale(log, n) {
      var i, j :| 0 <= i < j < |log| && log[i] == Received(n) && log[j].FlushBegun?;
      assert l[i] == Received(n) && l[j].FlushBegun?;
    }
    if e.FlushBegun? && Received(n) in log {
      var i :| 0 <= i < |log| && log[i] == Received(n);
      assert l[i] == Received(n) && l[|log|].FlushBegun?;
    }
  }

  lemma FreshLogGrows(log: seq<Entry>, e: Entry)
    requires NoStaleReturned(log)
    requires e.Returned? ==> !Stale(log, e.sample)
    ensures NoStaleReturned(log + [e])
  {
    var l := log + [e];
    assert l[..|log|] == log;
    assert forall k | 0 <= k < |log| :: l[k] == log[k] && l[..k] == log[..k];
  }

  /** How the state may change with one log line that is not a FLUSH_START. */
  lemma FreshExtend(st: State, log: seq<Entry>, e: Entry, st': State)
    requires FreshInv(st, log)
    requires !e.FlushBegun?
    requires e.Received? ==> e.sample == st.received && st'.received == st.received + 1
    requires !e.Received? ==> st'.received == st.received
    requires e.Returned? ==> e.sample in st.samples
    requires forall n | n in st'.samples :: n in st.samples || !Stale(log, n)
    ensures FreshInv(st', log + [e])
  {
    forall n
      ensures Stale(log + [e], n) <==> Stale(log, n)
    {
      StaleGrows(log, e, n);
    }
    FreshLogGrows(log, e);
  }

  lemma NewSampleIsFresh(st: State, log: seq<Entry>)
    requires FreshInv(st, log)
    ensures !Stale(log, st.received)
  {
  }

  lemma FreshArrives(st: State, log: seq<Entry>, sampleMade: bool)
    requires FreshInv(st, log)
    ensures var o := Step(st, BufferArrives(sampleMade)); FreshInv(o.state, log + o.log)
  {
    var o := Step(st, BufferArrives(sampleMade));
    if st.waiting.Some? {
      assert log + o.log == log;
    } else {
      var n := st.received;
      var st1 := st.(received := n + 1);
      NewSampleIsFresh(st, log);
      if |st.samples| >= MAX_QUEUED {
        FreshExtend(st, log, Received(n), o.state);
      } else {
        FreshExtend(st, log, Received(n), st1);
        StaleGrows(log, Received(n), n);
        FreshExtend(st1, log + [Received(n)], o.log[1], o.state);
        assert log + o.log == log + [Received(n)] + [o.log[1]];
      }
    }
  }

  lemma FreshFlush(st: State, log: seq<Entry>)
    requires FreshInv(st, log) && Bounded(st)
    ensures var o := Step(st, FlushStart); FreshInv(o.state, log + o.log)
  {
    FreshLogGrows(log, FlushBegun);
  }

  lemma FreshStep(st: State, log: seq<Entry>, e: Event)
    requires FreshInv(st, log) && Bounded(st) && !ResumesStale(st, log, e)
    ensures var o := Step(st, e); FreshInv(o.state, log + o.log)
  {
    var o := Step(st, e);
    if e.BufferArrives? {
      FreshArrives(st, log, e.sampleMade);
    } else if e.FlushStart? {
      FreshFlush(st, log);
    } else if o.log == [] {
      assert log + o.log == log;
    } else {
      assert o.log == [o.log[0]];
      FreshExtend(st, log, o.log[0], o.state);
    }
  }

  ghost predicate NeverResumesStale(events: seq<Event>) {
    forall i | 0 <= i < |events| :: !ResumesStale(Run(events[..i]).state, Run(events[..i]).log, events[i])
  }

  ghost predicate NeverQueuesStale(events: seq<Event>) {
    forall i | 0 <= i <= |events| :: NoStaleQueued(Run(events[..i]).state, Run(events[..i]).log)
  }

  lemma {:induction false} FreshWithoutStaleResume(events: seq<Event>)
    requires NeverResumesStale(events)
    ensures FreshInv(Run(events).state, Run(events).log)
  {
    if events != [] {
      var n := |events| - 1;
      NeverResumesStalePrefix(events, n);
      FreshWithoutStaleResume(events[..n]);
      QueueIsBoundedAndFlushedEmpty(events[..n]);
      FreshStep(Run(events[..n]).state, Run(events[..n]).log, events[n]);
    }
  }

  /** A stale resumption puts its sample into the queue. */
  lemma StaleResumeQueuesStale(st: State, log: seq<Entry>, e: Event)
    requires ResumesStale(st, log, e)
    ensures var o := Step(st, e); !NoStaleQueued(o.state, log + o.log)
  {
    var n := st.waiting.value;
    StaleGrows(log, Queued(n), n);
    assert n in st.samples + [n];
  }

  lemma StaleResumeIsSeen(events: seq<Event>, i: nat)
    requires i < |events| && ResumesStale(Run(events[..i]).state, Run(events[..i]).log, events[i])
    ensures !NoStaleQueued(Run(events[..i + 1]).state, Run(events[..i + 1]).log)
  {
    StaleResumeQueuesStale(Run(events[..i]).state, Run(events[..i]).log, events[i]);
    assert events[..i + 1][..i] == events[..i];
  }

  lemma NeverResumesStalePrefix(events: seq<Event>, i: nat)
    requires NeverResumesStale(events) && i <= |events|
    ensures NeverResumesStale(events[..i])
  {
    assert forall k | 0 <= k < i :: events[..i][k] == events[k] && events[..i][..k] == events[..k];
  }

  /** Flush isolation, exactly: no sample from before a FLUSH_START is ever queued after it if
      and only if no buffer that waited through the whole flush goes on after it; and then
      none is ever returned. */
  lemma FlushIsolatedExactly(events: seq<Event>)
    ensures NeverQueuesStale(events) <==> NeverResumesStale(events)
    ensures NeverResumesStale(events) ==> NoStaleReturned(Run(events).log)
  {
    if NeverResumesStale(events) {
      forall i | 0 <= i <= |events|
        ensures NoStaleQueued(Run(events[..i]).state, Run(events[..i]).log)
      {
        NeverResumesStalePrefix(events, i);
        FreshWithoutStaleResume(events[..i]);
      }
      FreshWithoutStaleResume(events);
    } else {
      var i :| 0 <= i < |events| && ResumesStale(Run(events[..i]).state, Run(events[..i]).log, events[i]);
      StaleResumeIsSeen(events, i);
    }
  }

  // -- The stream lock --

  /** GStreamer holds the pad's stream lock while a buffer is handled, and takes it for
      FLUSH_STOP and to reactivate the pad: these wait for the streaming thread. */
  ghost predicate StreamLocked(events: seq<Event>) {
    forall i | 0 <= i < |events| && (events[i].FlushStop? || events[i].ReadyToPaused?) ::
      Run(events[..i]).state.waiting.None?
  }

  lemma StreamLockedPrefix(events: seq<Event>, i: nat)
    requires StreamLocked(events) && i <= |events|
    ensures StreamLocked(events[..i])
  {
    assert forall k | 0 <= k < i :: events[..i][k] == events[k] && events[..i][..k] == events[..k];
  }

  /** A waiting buffer from before a flush finds the sink still flushing. */
  ghost predicate WaitsInFlush(st: State, log: seq<Entry>) {
    && (forall n: nat | Received(n) in log :: n < st.received)
    && (st.waiting.Some? && Stale(log, st.waiting.value) ==> st.sinkFlush)
  }

  /** One log line over a new state. */
  lemma WaitsExtend(st: State, log: seq<Entry>, e: Entry, st': State)
    requires WaitsInFlush(st, log)
    requires st.received <= st'.received && (e.Received? ==> e.sample < st'.received)
    requires st'.waiting.Some? && Stale(log, st'.waiting.value) ==> st'.sinkFlush
    requires st'.waiting.Some? && e.FlushBegun? ==> st'.sinkFlush
    ensures WaitsInFlush(st', log + [e])
  {
    if st'.waiting.Some? {
      StaleGrows(log, e, st'.waiting.value);
    }
  }

  lemma ArrivalKeepsWaitsInFlush(st: State, log: seq<Entry>, sampleMade: bool)
    requires WaitsInFlush(st, log) && st.waiting.None?
    ensures var o := Step(st, BufferArrives(sampleMade)); WaitsInFlush(o.state, log + o.log)
  {
    var o := Step(st, BufferArrives(sampleMade));
    var n := st.received;
    assert !Stale(log, n);
    if |st.samples| >= MAX_QUEUED {
      WaitsExtend(st, log, Received(n), o.state);
    } else {
      assert log + o.log == log + [Received(n)] + [o.log[1]];
      var st1 := st.(received := n + 1);
      WaitsExtend(st, log, Received(n), st1);
      WaitsExtend(st1, log + [Received(n)], o.log[1], o.state);
    }
  }

  lemma StepKeepsWaitsInFlush(st: State, log: seq<Entry>, e: Event)
    requires WaitsInFlush(st, log)
    requires e.FlushStop? || e.ReadyToPaused? ==> st.waiting.None?
    ensures var o := Step(st, e); WaitsInFlush(o.state, log + o.log)
  {
    var o := Step(st, e);
    if o.log == [] {
      assert log + o.log == log;
    } else if e.BufferArrives? {
      ArrivalKeepsWaitsInFlush(st, log, e.sampleMade);
    } else {
      assert o.log == [o.log[0]];
      WaitsExtend(st, log, o.log[0], o.state);
    }
  }

  lemma {:induction false} LockedRunsWaitInFlush(events: seq<Event>)
    requires StreamLocked(events)
    ensures WaitsInFlush(Run(events).state, Run(events).log)
  {
    if events != [] {
      var n := |events| - 1;
      StreamLockedPrefix(events, n);
      LockedRunsWaitInFlush(events[..n]);
      StepKeepsWaitsInFlush(Run(events[..n]).state, Run(events[..n]).log, events[n]);
    }
  }

  /** Flush isolation: under the stream lock, after a FLUSH_START no sample received before it
      is ever queued or returned. */
  lemma FlushIsolated(events: seq<Event>)
    requires StreamLocked(events)
    ensures NeverQueuesStale(events) && NoStaleReturned(Run(events).log)
  {
    forall i | 0 <= i < |events|
      ensures !ResumesStale(Run(events[..i]).state, Run(events[..i]).log, events[i])
    {
      StreamLockedPrefix(events, i);
      LockedRunsWaitInFlush(events[..i]);
    }
    FlushIsolatedExactly(events);
  }

  // -- A run without the stream lock --

  /** Buffers that arrive while nobody pulls. */
  function Arrivals(count: nat): (events: seq<Event>)
    ensures |events| == count
  {
    seq(count, i => BufferArrives(true))
  }

  lemma {:induction false} ArrivalsFill(count: nat)
    requires count <= MAX_QUEUED
    ensures var st := Run(Arrivals(count)).state;
            |st.samples| == count && st == Init().(samples := st.samples, received := count)
  {
    if count > 0 {
      ArrivalsFill(count - 1);
      assert Arrivals(count)[..count - 1] == Arrivals(count - 1);
    }
  }

  /** With the queue full, one more buffer has to wait. */
  lemma OneTooMany()
    ensures var h := Run(Arrivals(MAX_QUEUED + 1));
            && h.state == Init().(samples := h.state.samples, received := MAX_QUEUED + 1, waiting := Some(MAX_QUEUED))
            && Received(MAX_QUEUED) in h.log
  {
    ArrivalsFill(MAX_QUEUED);
    assert Arrivals(MAX_QUEUED + 1)[..MAX_QUEUED] == Arrivals(MAX_QUEUED);
  }

  /** A whole flush, during which the waiting buffer is not scheduled. */
  function UnlockedFlush(): seq<Event> {
    Arrivals(MAX_QUEUED + 1) + [FlushStart] + [FlushServer] + [FlushStop]
  }

  function UnlockedRun(): seq<Event> {
    UnlockedFlush() + [BufferResumes(true)] + [FlushCompleted] + [GetFrontSample]
  }

  lemma StaleStays(log: seq<Entry>, more: seq<Entry>, n: nat)
    requires Stale(log, n)
    ensures Stale(log + more, n)
  {
    var i, j :| 0 <= i < j < |log| && log[i] == Received(n) && log[j].FlushBegun?;
    assert (log + more)[i] == Received(n) && (log + more)[j].FlushBegun?;
  }

  /** A buffer from before a flush, ready to go on. */
  ghost predicate WaitsStale(h: History, n: nat) {
    h.state.samples == [] && h.state.waiting == Some(n) && h.state.signalled && Stale(h.log, n)
  }

  lemma FlushStartMakesStale(events: seq<Event>, n: nat)
    requires var st := Run(events).state; st.waiting == Some(n) && !st.sinkFlush
    requires Received(n) in Run(events).log
    ensures WaitsStale(Run(events + [FlushStart]), n)
  {
    RunGrows(events, FlushStart);
    StaleGrows(Run(events).log, FlushBegun, n);
  }

  lemma FlushStopLeavesStale(events: seq<Event>, n: nat)
    requires WaitsStale(Run(events), n)
    ensures var h := Run(events + [FlushServer] + [FlushStop]); WaitsStale(h, n) && !h.state.sinkFlush
  {
    RunGrows(events, FlushServer);
    StaleStays(Run(events).log, [ServerFlushAsked], n);
    RunGrows(events + [FlushServer], FlushStop);
    StaleStays(Run(events + [FlushServer]).log, [], n);
  }

  lemma StaleBufferIsQueued(events: seq<Event>, n: nat)
    requires WaitsStale(Run(events), n) && !Run(events).state.sinkFlush
    ensures var h := Run(events + [BufferResumes(true)]); h.state.samples == [n] && Stale(h.log, n)
  {
    RunGrows(events, BufferResumes(true));
    StaleStays(Run(events).log, [Queued(n)], n);
  }

  lemma StaleReturn(log: seq<Entry>, n: nat)
    requires Stale(log, n)
    ensures !NoStaleReturned(log + [Returned(n)])
  {
    var l := log + [Returned(n)];
    assert l[..|log|] == log && l[|log|] == Returned(n);
  }

  lemma StaleBufferIsReturned(events: seq<Event>, n: nat)
    requires Run(events).state.samples == [n] && Stale(Run(events).log, n)
    ensures var log := Run(events + [FlushCompleted] + [GetFrontSample]).log;
            log != [] && log[|log| - 1] == Returned(n) && !NoStaleReturned(log)
  {
    RunGrows(events, FlushCompleted);
    StaleStays(Run(events).log, [ServerFlushEnded], n);
    RunGrows(events + [FlushCompleted], GetFrontSample);
    StaleReturn(Run(events + [FlushCompleted]).log, n);
  }

  lemma StaleReturnedMeansQueued(events: seq<Event>)
    requires !NoStaleReturned(Run(events).log)
    ensures !NeverQueuesStale(events)
  {
    FlushIsolatedExactly(events);
  }

  lemma UnlockedFlushLeavesStale()
    ensures WaitsStale(Run(UnlockedFlush()), MAX_QUEUED) && !Run(UnlockedFlush()).state.sinkFlush
  {
    OneTooMany();
    FlushStartMakesStale(Arrivals(MAX_QUEUED + 1), MAX_QUEUED);
    FlushStopLeavesStale(Arrivals(MAX_QUEUED + 1) + [FlushStart], MAX_QUEUED);
  }

  lemma StaleBufferComesBack(events: seq<Event>, n: nat)
    requires WaitsStale(Run(events), n) && !Run(events).state.sinkFlush
    ensures var log := Run(events + [BufferResumes(true)] + [FlushCompleted] + [GetFrontSample]).log;
            log != [] && log[|log| - 1] == Returned(n) && !NoStaleReturned(log)
  {
    StaleBufferIsQueued(events, n);
    StaleBufferIsReturned(events + [BufferResumes(true)], n);
  }

  /** Without the stream lock the property fails: in this run a buffer that waits through a
      whole flush is queued and returned after it. */
  lemma UnlockedStopLetsStaleSampleThrough()
    ensures var log := Run(UnlockedRun()).log;
            log != [] && log[|log| - 1] == Returned(MAX_QUEUED) && !NoStaleReturned(log)
    ensures !NeverQueuesStale(UnlockedRun())
  {
    UnlockedFlushLeavesStale();
    StaleBufferComesBack(UnlockedFlush(), MAX_QUEUED);
    StaleReturnedMeansQueued(UnlockedRun());
  }
}
