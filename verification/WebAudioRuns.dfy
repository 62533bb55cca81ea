/** The web audio client over whole runs: conservation of bytes, whole-frame streams, the
    bounded queue and the end-of-stream notices. */
module WebAudioRuns {
  import opened WebAudioModel
  import opened WebAudioTheorems

  // ----- Conservation -----

  /** The pass, if it is offered room, keeps every byte that it does not write or drop. */
  ghost predicate GoodPass(st: State, r: Response) {
    st.phase.AtPass? && st.buffers != [] ==>
      && st.frameSize > 0
      && |st.buffers[0]| < U32
      && (r.roomKnown && r.room > 0 ==> KeepsBytes(|st.buffers[0]|, st.frameSize, r))
  }

  ghost predicate GoodPasses(events: seq<Event>) {
    forall i | 0 <= i < |events| && events[i].Pass? :: GoodPass(Run(events[..i]).state, events[i].response)
  }

  /** Accepted bytes are, in order, those written or dropped so far and those still queued. */
  ghost predicate Balanced(st: State, log: seq<Entry>) {
    AcceptedBytes(log) == Consumed(log) + Flat(st.buffers)
  }

  /** Every write fits the room it was offered and is whole frames. */
  ghost predicate WritesFit(log: seq<Entry>) {
    forall e | e in log && e.Wrote? :: e.frames <= e.room && |e.bytes| == e.frames * e.frameSize
  }

  /** At most one line, of bytes that leave the queue, which fit. */
  ghost predicate TakesOut(before: seq<Bytes>, entries: seq<Entry>, after: seq<Bytes>) {
    && |entries| <= 1
    && Flat(before) == Consumed(entries) + Flat(after)
    && WritesFit(entries)
    && (forall e | e in entries :: e.Wrote? || e.Dropped?)
  }

  lemma WritePassEntries(buffers: seq<Bytes>, frameSize: nat, r: Response)
    requires buffers != [] && frameSize > 0 && |buffers[0]| < U32 && r.room > 0
    requires KeepsBytes(|buffers[0]|, frameSize, r)
    ensures var (after, entries) := WritePass(buffers, frameSize, r); TakesOut(buffers, entries, after)
  {
    PassConservesExactly(buffers, frameSize, r);
    FramesFit(|buffers[0]|, r.room, frameSize);
  }

  lemma PassEntries(st: State, r: Response)
    requires GoodPass(st, r)
    ensures var o := PassStep(st, r); TakesOut(st.buffers, o.log, o.state.buffers)
  {
    if st.phase.AtPass? && st.buffers != [] {
      if !r.roomKnown {
        ConsumedOne(Dropped(Flat(st.buffers)));
      } else if r.room > 0 {
        WritePassEntries(st.buffers, st.frameSize, r);
      }
    }
  }

  lemma Regroup(a: Bytes, b: Bytes, c: Bytes, d: Bytes, e: Bytes)
    requires b + c == d + e
    ensures a + b + c == a + d + e
  {
    assert a + b + c == a + (b + c);
    assert a + d + e == a + (d + e);
  }

  /** One log line: the balance over the bytes queued before and after it. */
  lemma BalanceGrows(log: seq<Entry>, e: Entry, queued: Bytes, queued': Bytes)
    requires AcceptedBytes(log) == Consumed(log) + queued
    requires queued + (if e.Accepted? then e.bytes else []) == Consumes(e) + queued'
    ensures AcceptedBytes(log + [e]) == Consumed(log + [e]) + queued'
  {
    LogGrows(log, e);
    Regroup(Consumed(log), queued, if e.Accepted? then e.bytes else [], Consumes(e), queued');
  }

  lemma PassKeepsBalance(st: State, log: seq<Entry>, r: Response)
    requires Balanced(st, log) && WritesFit(log) && GoodPass(st, r)
    ensures var o := PassStep(st, r); Balanced(o.state, log + o.log) && WritesFit(log + o.log)
  {
    var o := PassStep(st, r);
    PassEntries(st, r);
    if o.log == [] {
      assert log + o.log == log;
    } else {
      var e := o.log[0];
      assert o.log == [e];
      ConsumedOne(e);
      BalanceGrows(log, e, Flat(st.buffers), Flat(o.state.buffers));
    }
  }

  /** Notices carry no bytes. */
  predicate IsNotice(e: Entry) {
    e.EosRose? || e.EosFell? || e.ToldEos?
  }

  lemma NoticeKeepsBalance(log: seq<Entry>, notice: Entry, queued: Bytes)
    requires AcceptedBytes(log) == Consumed(log) + queued && IsNotice(notice)
    ensures AcceptedBytes(log + [notice]) == Consumed(log + [notice]) + queued
  {
    assert queued + [] == [] + queued;
    BalanceGrows(log, notice, queued, queued);
  }

  lemma OtherStepLog(st: State, e: Event)
    requires !e.Pass? && !e.NewSample?
    ensures var o := Step(st, e);
            o.state.buffers == st.buffers && (o.log == [] || (|o.log| == 1 && IsNotice(o.log[0])))
  {
  }

  lemma OtherKeepsBalance(st: State, log: seq<Entry>, e: Event)
    requires Balanced(st, log) && WritesFit(log) && !e.Pass?
    ensures var o := Step(st, e); Balanced(o.state, log + o.log) && WritesFit(log + o.log)
  {
    var o := Step(st, e);
    if o.log == [] {
      assert log + o.log == log;
    } else if e.NewSample? {
      FlatPush(st.buffers, e.buffer);
      BalanceGrows(log, Accepted(e.buffer), Flat(st.buffers), Flat(st.buffers + [e.buffer]));
    } else {
      OtherStepLog(st, e);
      assert o.log == [o.log[0]];
      NoticeKeepsBalance(log, o.log[0], Flat(st.buffers));
    }
  }

  lemma StepKeepsBalance(st: State, log: seq<Entry>, e: Event)
    requires Balanced(st, log) && WritesFit(log)
    requires e.Pass? ==> GoodPass(st, e.response)
    ensures var o := Step(st, e); Balanced(o.state, log + o.log) && WritesFit(log + o.log)
  {
    if e.Pass? {
      PassKeepsBalance(st, log, e.response);
    } else {
      OtherKeepsBalance(st, log, e);
    }
  }

  lemma GoodPassesPrefix(events: seq<Event>, n: nat)
    requires GoodPasses(events) && n < |events|
    ensures GoodPasses(events[..n])
    ensures events[n].Pass? ==> GoodPass(Run(events[..n]).state, events[n].response)
  {
    assert forall i | 0 <= i < n :: events[..n][i] == events[i] && events[..n][..i] == events[..i];
  }

  /** Conservation: in every run whose passes keep their bytes, the bytes written, with only the
      dropped pieces added in their places, followed by the queued bytes, are the accepted
      bytes, across resizing and merging; and each write fits the room. */
  lemma {:induction false} BytesAreConserved(events: seq<Event>)
    requires GoodPasses(events)
    ensures var h := Run(events); Balanced(h.state, h.log) && WritesFit(h.log)
  {
    if events != [] {
      var n := |events| - 1;
      GoodPassesPrefix(events, n);
      BytesAreConserved(events[..n]);
      StepKeepsBalance(Run(events[..n]).state, Run(events[..n]).log, events[n]);
    }
  }

  // ----- Whole-frame streams -----

  predicate IsWhole(buffer: Bytes, frameSize: nat)
    requires frameSize > 0
  {
    |buffer| < U32 && |buffer| % frameSize == 0
  }

  /** One frame size throughout, and every buffer holds whole frames of it. */
  ghost predicate WholeFrames(events: seq<Event>, frameSize: nat)
    requires frameSize > 0
  {
    && (forall e | e in events && e.NewSample? :: IsWhole(e.buffer, frameSize))
    && (forall e | e in events && e.Open? && e.created :: e.frameSize == frameSize)
  }

  ghost predicate WholeInv(st: State, frameSize: nat)
    requires frameSize > 0
  {
    && (st.isOpen ==> st.frameSize == frameSize)
    && (!st.phase.AtRest? ==> st.isOpen)
    && (forall b | b in st.buffers :: IsWhole(b, frameSize))
  }

  lemma WholeFills(size: nat, frameSize: nat, r: Response)
    requires frameSize > 0 && size < U32 && size % frameSize == 0
    ensures FillsOrUsesUp(size, frameSize, r)
  {
    FramesFit(size, r.room, frameSize);
    assert size == (size / frameSize) * frameSize + size % frameSize;
  }

  /** A leftover of whole frames is whole frames. */
  lemma WholeLeftover(size: nat, frames: nat, frameSize: nat)
    requires frameSize > 0 && size % frameSize == 0 && frames * frameSize < size
    ensures (size - frames * frameSize) % frameSize == 0
    ensures (size - frames * frameSize) / frameSize != 0
  {
    var whole := size / frameSize;
    assert size == whole * frameSize;
    var left := whole - frames;
    assert left * frameSize == whole * frameSize - frames * frameSize;
    assert left > 0 by {
      if left <= 0 {
        MulMonotone(whole, frames, frameSize);
      }
    }
    MultipleDivides(left, frameSize);
  }

  lemma MultipleDivides(k: nat, d: nat)
    requires k > 0 && d > 0
    ensures (k * d) % d == 0 && (k * d) / d != 0
  {
    MulMonotone(1, k, d);
    QuotientPositive(k * d, d);
    ModOfMultiple(k, d);
  }

  lemma ModOfMultiple(k: nat, d: nat)
    requires d > 0
    ensures (k * d) % d == 0
  {
    var q := (k * d) / d;
    QuotientFits(k * d, d);
    if q < k {
      MulMonotone(q + 1, k, d);
    } else if q > k {
      MulMonotone(k + 1, q, d);
    }
    assert k * d == q * d + (k * d) % d;
  }

  lemma WholePass(buffers: seq<Bytes>, frameSize: nat, r: Response)
    requires buffers != [] && frameSize > 0 && r.room > 0
    requires forall b | b in buffers :: IsWhole(b, frameSize)
    ensures forall b | b in WritePass(buffers, frameSize, r).0 :: IsWhole(b, frameSize)
  {
    var front := buffers[0];
    assert front in buffers;
    var frames := FramesToWrite(|front|, r.room, frameSize);
    FramesFit(|front|, r.room, frameSize);
    WholeFills(|front|, frameSize, r);
    if !WriteFails(frames, r) && frames * frameSize < |front| {
      WholeLeftover(|front|, frames, frameSize);
      assert Leftover(|front|, r.room, frameSize) == |front| - frames * frameSize;
    }
  }

  lemma StepKeepsWhole(st: State, e: Event, frameSize: nat)
    requires frameSize > 0 && WholeInv(st, frameSize)
    requires e.NewSample? ==> IsWhole(e.buffer, frameSize)
    requires e.Open? && e.created ==> e.frameSize == frameSize
    ensures WholeInv(Step(st, e).state, frameSize)
  {
    if e.Pass? && st.phase.AtPass? && st.buffers != [] && e.response.roomKnown && e.response.room > 0 {
      WholePass(st.buffers, frameSize, e.response);
    }
  }

  lemma {:induction false} WholeInEveryRun(events: seq<Event>, frameSize: nat)
    requires frameSize > 0 && WholeFrames(events, frameSize)
    ensures WholeInv(Run(events).state, frameSize)
  {
    if events != [] {
      var n := |events| - 1;
      assert events[n] in events;
      WholeInEveryRun(events[..n], frameSize);
      StepKeepsWhole(Run(events[..n]).state, events[n], frameSize);
    }
  }

  /** A whole-frame stream meets the premise of conservation whatever the server answers, so
      its bytes are conserved outright. */
  lemma WholeFramesAreConserved(events: seq<Event>, frameSize: nat)
    requires frameSize > 0 && WholeFrames(events, frameSize)
    ensures GoodPasses(events)
    ensures Balanced(Run(events).state, Run(events).log)
  {
    forall i | 0 <= i < |events| && events[i].Pass?
      ensures GoodPass(Run(events[..i]).state, events[i].response)
    {
      var st, r := Run(events[..i]).state, events[i].response;
      WholeInEveryRun(events[..i], frameSize);
      if st.phase.AtPass? && st.buffers != [] {
        assert st.buffers[0] in st.buffers;
        WholeFills(|st.buffers[0]|, frameSize, r);
        FillingKeepsBytes(|st.buffers[0]|, frameSize, r);
      }
    }
    BytesAreConserved(events);
  }

  // ----- Termination of the push loop -----

  /** Every pass of the push loop either ends it or shrinks the queue: a failed room query
      empties the queue, no room ends the loop with the queue as it is, and room filled or a
      buffer used up makes the pair (queued bytes, queued buffers) smaller. */
  lemma PushLoopTerminates(st: State, r: Response)
    requires st.phase.AtPass? && st.buffers != [] && st.frameSize > 0 && |st.buffers[0]| < U32
    requires FillsOrUsesUp(|st.buffers[0]|, st.frameSize, r)
    ensures var st' := PassStep(st, r).state;
            if !r.roomKnown then st'.buffers == [] && st'.phase.AtLoopEnd?
            else if r.room == 0 then st'.buffers == st.buffers && st'.phase.AtLoopEnd?
            else Shrinks(st.buffers, st'.buffers) && (st'.phase.AtPass? <==> st'.buffers != [])
  {
    if r.roomKnown && r.room > 0 {
      FillingPassShrinks(st.buffers, st.frameSize, r);
    }
  }

  /** Bytes and buffers in the queue. */
  function Size(buffers: seq<Bytes>): nat {
    |Flat(buffers)| + |buffers|
  }

  lemma PassAddsNoBuffers(buffers: seq<Bytes>, frameSize: nat, r: Response)
    requires buffers != [] && frameSize > 0
    ensures |WritePass(buffers, frameSize, r).0| <= |buffers|
  {
  }

  /** The pass is one of the loop's, and fills the room or uses up the front buffer. */
  ghost predicate FillingPass(st: State, r: Response) {
    && st.phase.AtPass? && st.buffers != [] && st.frameSize > 0 && |st.buffers[0]| < U32
    && FillsOrUsesUp(|st.buffers[0]|, st.frameSize, r)
  }

  lemma FillingPassUsesUp(st: State, r: Response)
    requires FillingPass(st, r)
    ensures var st' := PassStep(st, r).state; st'.phase.AtPass? ==> Size(st'.buffers) < Size(st.buffers)
  {
    PushLoopTerminates(st, r);
    if r.roomKnown && r.room > 0 {
      PassAddsNoBuffers(st.buffers, st.frameSize, r);
    }
  }

  /** What can come between the passes of a push. */
  predicate IsDuringPush(e: Event) {
    e.Pass? || e.SeeRoom? || e.ServerEndOfStream?
  }

  function CountPasses(events: seq<Event>): nat {
    if events == [] then 0
    else CountPasses(events[..|events| - 1]) + if events[|events| - 1].Pass? then 1 else 0
  }

  ghost predicate FillingPasses(events: seq<Event>, more: seq<Event>) {
    more == [] ||
    (var n := |more| - 1;
     && FillingPasses(events, more[..n]) && IsDuringPush(more[n])
     && (more[n].Pass? ==> FillingPass(Run(events + more[..n]).state, more[n].response)))
  }

  /** In every run a push makes no more passes than there are bytes and buffers in the queue
      when it begins, as long as each fills the room or uses up the front buffer. */
  lemma {:induction false} PassesAreBounded(events: seq<Event>, more: seq<Event>)
    requires FillingPasses(events, more)
    requires Run(events + more).state.phase.AtPass?
    ensures CountPasses(more) + Size(Run(events + more).state.buffers) <= Size(Run(events).state.buffers)
  {
    if more == [] {
      assert events + more == events;
    } else {
      var n := |more| - 1;
      var st := Run(events + more[..n]).state;
      assert events + more == events + more[..n] + [more[n]];
      RunGrows(events + more[..n], more[n]);
      PassesAreBounded(events, more[..n]);
      if more[n].Pass? {
        FillingPassUsesUp(st, more[n].response);
      }
    }
  }

  // ----- A push begins -----

  /** The events that ask for a push when the event loop is at rest. */
  predicate AsksForPush(st: State, e: Event) {
    (e.NewSample? && st.sawRoom) || (e.SetEos? && st.isOpen && !st.isEos) || e.TimerExpired?
  }

  /** In every run a new sample, the end of stream and the retry timer begin a push whenever the
      session is open and something is queued; the sample is queued first. */
  lemma PushBegins(events: seq<Event>, e: Event)
    requires Run(events).state.phase.AtRest? && AsksForPush(Run(events).state, e)
    ensures var st, st' := Run(events).state, Run(events + [e]).state;
            && st'.buffers == st.buffers + (if e.NewSample? then [e.buffer] else [])
            && (st.isOpen && st'.buffers != [] ==> st'.phase.AtPass?)
  {
    RunGrows(events, e);
  }

  // ----- Bounded queue -----

  ghost predicate Bounded(st: State) {
    |st.buffers| <= MAX_QUEUE && (st.sawRoom ==> |st.buffers| < MAX_QUEUE)
  }

  lemma StepKeepsBounded(st: State, e: Event)
    requires Bounded(st)
    ensures Bounded(Step(st, e).state)
  {
  }

  /** With one streaming thread the queue never exceeds its limit, although the check and the
      push are separate critical sections. */
  lemma {:induction false} QueueIsBounded(events: seq<Event>)
    ensures Bounded(Run(events).state)
  {
    if events != [] {
      QueueIsBounded(events[..|events| - 1]);
      StepKeepsBounded(Run(events[..|events| - 1]).state, events[|events| - 1]);
    }
  }

  // ----- The streaming thread is woken -----

  /** A streaming thread that sleeps finds the queue full. */
  ghost predicate SleepsOnlyWhenFull(st: State) {
    st.asleep ==> |st.buffers| >= MAX_QUEUE && !st.sawRoom
  }

  lemma StepKeepsSleepsOnlyWhenFull(st: State, e: Event)
    requires SleepsOnlyWhenFull(st)
    ensures SleepsOnlyWhenFull(Step(st, e).state)
  {
    if e.Pass? && st.phase.AtPass? && st.buffers != [] && st.frameSize > 0 {
      NotifiesExactly(st.buffers, st.frameSize, e.response);
    }
  }

  /** No wakeup is lost: in every run the streaming thread sleeps only while the queue is full,
      across pops, merges and the clearing of the queue. */
  lemma {:induction false} NoLostWakeup(events: seq<Event>)
    ensures SleepsOnlyWhenFull(Run(events).state)
  {
    if events != [] {
      NoLostWakeup(events[..|events| - 1]);
      StepKeepsSleepsOnlyWhenFull(Run(events[..|events| - 1]).state, events[|events| - 1]);
    }
  }

  // ----- Leftovers below a frame -----

  /** The pass writes all the room it is offered and leaves of the front buffer something below
      a frame, with another buffer behind it. */
  ghost predicate CutsBelowFrame(st: State, r: Response) {
    && st.phase.AtPass? && |st.buffers| > 1 && st.frameSize > 0
    && r.roomKnown && r.room > 0 && r.mapped && r.written
    && r.room * st.frameSize < |st.buffers[0]| < (r.room + 1) * st.frameSize
    && |st.buffers[0]| < U32
  }

  /** In every run, wherever a pass cuts the front buffer below a frame, the rest does not stay
      alone ahead of the next buffer: it is joined with it, and the others are untouched. */
  lemma ShortLeftoversAreJoined(events: seq<Event>)
    ensures forall i | 0 <= i < |events| && events[i].Pass? && CutsBelowFrame(Run(events[..i]).state, events[i].response) ::
              var st := Run(events[..i]).state;
              Run(events[..i + 1]).state.buffers ==
              [st.buffers[0][events[i].response.room * st.frameSize..] + st.buffers[1]] + st.buffers[2..]
  {
    forall i | 0 <= i < |events| && events[i].Pass? && CutsBelowFrame(Run(events[..i]).state, events[i].response)
      ensures var st := Run(events[..i]).state;
              Run(events[..i + 1]).state.buffers ==
              [st.buffers[0][events[i].response.room * st.frameSize..] + st.buffers[1]] + st.buffers[2..]
    {
      var st := Run(events[..i]).state;
      FillingPassLeaves(st.buffers, st.frameSize, events[i].response);
      assert events[..i + 1] == events[..i] + [events[i]];
      RunGrows(events[..i], events[i]);
    }
  }

  function Small(n: nat): Bytes {
    seq(n, i => 0)
  }

  /** Room for one frame, and a write that succeeds. */
  function OneFrame(): Response {
    Response(true, 1, true, true)
  }

  function LoneLeftover(): seq<Event> {
    [Open(true, 4)] + [SeeRoom] + [NewSample(Small(5))] + [Pass(OneFrame())] + [Pass(Response(true, 0, true, true))] + [FinishPush]
  }

  function LateNeighbour(): seq<Event> {
    LoneLeftover() + [SeeRoom] + [NewSample(Small(3))]
  }

  lemma FirstSample()
    ensures Run([Open(true, 4)] + [SeeRoom] + [NewSample(Small(5))]).state
         == State([Small(5)], true, false, 4, false, AtPass, 0, false, false)
  {
    var e1 := [Open(true, 4)];
    assert [] + e1 == e1;
    RunGrows([], Open(true, 4));
    RunGrows(e1, SeeRoom);
    RunGrows(e1 + [SeeRoom], NewSample(Small(5)));
    assert [] + [Small(5)] == [Small(5)];
  }

  lemma FirstPass(st: State)
    requires st == State([Small(5)], true, false, 4, false, AtPass, 0, false, false)
    ensures PassStep(st, OneFrame()).state == st.(buffers := [Small(1)], available := 1)
  {
    FillingPassLeaves([Small(5)], 4, OneFrame());
    assert Small(5)[4..] == Small(1);
    assert [Small(5)][1..] == [];
  }

  lemma LoneLeftoverStays()
    ensures Run(LoneLeftover()).state == State([Small(1)], true, false, 4, true, AtRest, 0, false, false)
  {
    var e3 := [Open(true, 4)] + [SeeRoom] + [NewSample(Small(5))];
    var e4 := e3 + [Pass(OneFrame())];
    FirstSample();
    FirstPass(Run(e3).state);
    RunGrows(e3, Pass(OneFrame()));
    RunGrows(e4, Pass(Response(true, 0, true, true)));
    RunGrows(e4 + [Pass(Response(true, 0, true, true))], FinishPush);
  }

  /** A leftover that was alone when it was cut is not joined with a buffer that comes later:
      the two hold a whole frame together, but a pass that is offered room writes nothing,
      leaves them as they are and goes on looping. */
  lemma LateNeighbourStarves()
    ensures var st, o := Run(LateNeighbour()).state, Step(Run(LateNeighbour()).state, Pass(OneFrame()));
            && st.phase.AtPass? && st.frameSize == 4 && st.buffers == [Small(1), Small(3)]
            && o.log == [] && o.state.buffers == st.buffers && o.state.phase.AtPass?
  {
    LoneLeftoverStays();
    RunGrows(LoneLeftover(), SeeRoom);
    RunGrows(LoneLeftover() + [SeeRoom], NewSample(Small(3)));
    var st := Run(LateNeighbour()).state;
    assert st.buffers == [Small(1), Small(3)];
    FramesFit(1, 1, 4);
    OtherPassIsStuck(st.buffers, 4, OneFrame());
  }

  // ----- End of stream -----

  /** The backend was told since the flag last rose, and no sample was accepted since then. */
  ghost predicate NoticeStands(log: seq<Entry>) {
    exists i | 0 <= i < |log| :: log[i].ToldEos? && forall k | i < k < |log| :: !log[k].EosRose? && !log[k].Accepted?
  }

  /** Two notices of the same episode have a newly accepted sample between them. */
  ghost predicate NoticesAreEarned(log: seq<Entry>) {
    forall j | 0 <= j < |log| && log[j].ToldEos? :: !NoticeStands(log[..j])
  }

  /** The backend was told since the flag last rose. */
  ghost predicate ToldSinceRise(log: seq<Entry>) {
    exists i | 0 <= i < |log| :: log[i].ToldEos? && forall k | i < k < |log| :: !log[k].EosRose?
  }

  ghost predicate EosInv(st: State, log: seq<Entry>) {
    && NoticesAreEarned(log)
    && (NoticeStands(log) ==> st.buffers == [] && st.phase.AtRest?)
    && (st.isEos && st.buffers == [] && st.phase.AtRest? ==> ToldSinceRise(log))
    && (st.phase.AtNotice? ==> st.buffers == [])
  }

  lemma EosLogGrows(log: seq<Entry>, e: Entry)
    ensures NoticeStands(log + [e]) <==> e.ToldEos? || (NoticeStands(log) && !e.EosRose? && !e.Accepted?)
    ensures ToldSinceRise(log + [e]) <==> e.ToldEos? || (ToldSinceRise(log) && !e.EosRose?)
    ensures NoticesAreEarned(log + [e]) <==> NoticesAreEarned(log) && (e.ToldEos? ==> !NoticeStands(log))
  {
    var l := log + [e];
    assert l[|log|] == e && l[..|log|] == log;
    assert forall i | 0 <= i < |log| :: l[i] == log[i] && l[..i] == log[..i];
    if NoticeStands(log) && !e.EosRose? && !e.Accepted? {
      var i :| 0 <= i < |log| && log[i].ToldEos? && forall k | i < k < |log| :: !log[k].EosRose? && !log[k].Accepted?;
      assert l[i].ToldEos?;
    }
    if ToldSinceRise(log) && !e.EosRose? {
      var i :| 0 <= i < |log| && log[i].ToldEos? && forall k | i < k < |log| :: !log[k].EosRose?;
      assert l[i].ToldEos?;
    }
  }

  lemma StepKeepsEosInv(st: State, log: seq<Entry>, e: Event)
    requires EosInv(st, log)
    ensures var o := Step(st, e); EosInv(o.state, log + o.log)
  {
    var o := Step(st, e);
    if o.log == [] {
      assert log + o.log == log;
    } else {
      EosLogGrows(log, o.log[0]);
      assert o.log == [o.log[0]];
    }
  }

  /** In every run: whenever the flag is up at rest with nothing queued, the backend has been
      told since it rose; and it is told twice in an episode only for newly accepted samples. */
  lemma {:induction false} EosNoticesAreRight(events: seq<Event>)
    ensures EosInv(Run(events).state, Run(events).log)
  {
    if events != [] {
      var n := |events| - 1;
      EosNoticesAreRight(events[..n]);
      StepKeepsEosInv(Run(events[..n]).state, Run(events[..n]).log, events[n]);
    }
  }

  /** The server's notice lowers the flag from another thread, so the backend may be told with
      the flag down already. */
  lemma NoticeMayComeLate(frameSize: nat)
    ensures var h := Run([Open(true, frameSize)] + [SetEos] + [ServerEndOfStream] + [Tell]);
            h.log == [EosRose, EosFell, ToldEos] && !h.state.isEos
  {
    var open := [Open(true, frameSize)];
    RunGrows([], Open(true, frameSize));
    assert [] + open == open;
    RunGrows(open, SetEos);
    RunGrows(open + [SetEos], ServerEndOfStream);
    RunGrows(open + [SetEos] + [ServerEndOfStream], Tell);
  }

  lemma ToldStep(st: State, e: Event)
    ensures var o := Step(st, e);
            (exists x | x in o.log :: x.ToldEos?) ==> st.phase.AtNotice? && o.state.buffers == st.buffers && o.log == [ToldEos]
  {
    if e.Pass? {
      assert forall x | x in PassStep(st, e.response).log :: !x.ToldEos?;
    }
  }

  /** The log line at `k` was written by a step that began and ended with nothing queued. */
  ghost predicate WrittenWithNothingQueued(events: seq<Event>, k: nat) {
    exists i | 0 <= i < |events| ::
      && |Run(events[..i]).log| <= k < |Run(events[..i + 1]).log|
      && Run(events[..i]).state.buffers == [] && Run(events[..i + 1]).state.buffers == []
  }

  /** In every run the backend is told only with nothing queued. */
  lemma {:induction false} ToldOnlyWithNothingQueued(events: seq<Event>, k: nat)
    requires k < |Run(events).log| && Run(events).log[k].ToldEos?
    ensures WrittenWithNothingQueued(events, k)
  {
    var n := |events| - 1;
    var before, log := Run(events[..n]), Run(events).log;
    if k < |before.log| {
      ToldOnlyWithNothingQueued(events[..n], k);
      var i :| 0 <= i < n
               && |Run(events[..n][..i]).log| <= k < |Run(events[..n][..i + 1]).log|
               && Run(events[..n][..i]).state.buffers == [] && Run(events[..n][..i + 1]).state.buffers == [];
      assert events[..n][..i] == events[..i] && events[..n][..i + 1] == events[..i + 1];
    } else {
      assert log[k] in Step(before.state, events[n]).log;
      ToldStep(before.state, events[n]);
      EosNoticesAreRight(events[..n]);
      assert events[..n + 1] == events;
    }
  }

  /** So if the passes keep their bytes, every byte accepted until then has been written or
      dropped. */
  lemma {:induction false} ToldOnlyWhenAllIsConsumed(events: seq<Event>, k: nat)
    requires GoodPasses(events)
    requires k < |Run(events).log| && Run(events).log[k].ToldEos?
    ensures AcceptedBytes(Run(events).log[..k]) == Consumed(Run(events).log[..k])
  {
    var n := |events| - 1;
    GoodPassesPrefix(events, n);
    var before := Run(events[..n]);
    var log := Run(events).log;
    if k < |before.log| {
      ToldOnlyWhenAllIsConsumed(events[..n], k);
      assert log[..k] == before.log[..k];
    } else {
      assert log[k] in Step(before.state, events[n]).log;
      BytesAreConserved(events[..n]);
      ToldStep(before.state, events[n]);
      EosNoticesAreRight(events[..n]);
      assert log[..k] == before.log;
    }
  }
}
