/** The web audio client as an object.  A valid client is always the result of a run of
    WebAudioModel.  The push loop need not end for buffers with partial frames, so it is given
    up after `patience` passes; for whole frames a bound on the passes is proved, whatever the
    server answers. */
module WebAudioPlayerClientObject {
  import opened WebAudioModel
  import opened WebAudioTheorems
  import opened WebAudioRuns

  class WebAudioPlayerClient {
    var buffers: seq<Bytes>
    var isOpen: bool
    var isEos: bool
    var frameSize: nat
    var hasTimer: bool

    ghost var asleep: bool
    ghost var phase: Phase
    ghost var available: nat
    ghost var sawRoom: bool
    ghost var events: seq<Event>
    ghost var log: seq<Entry>

    ghost function View(): State
      reads this
    {
      State(buffers, isOpen, isEos, frameSize, hasTimer, phase, available, sawRoom, asleep)
    }

    ghost predicate InRun()
      reads this
    {
      Run(events) == History(View(), log)
    }

    ghost predicate Valid()
      reads this
    {
      InRun() && phase.AtRest?
    }

    /** What the stream must be like for the push loop to make progress. */
    ghost predicate HoldsWholeFrames()
      reads this
    {
      isOpen ==> frameSize > 0 && forall b | b in buffers :: IsWhole(b, frameSize)
    }

    constructor ()
      ensures Valid() && events == [] && HoldsWholeFrames()
    {
      buffers, isOpen, isEos, frameSize, hasTimer, asleep := [], false, false, 0, false, false;
      phase, available, sawRoom, events, log := AtRest, 0, false, [], [];
    }

    /** What holds of every reachable client. */
    lemma Guarantees()
      requires InRun()
      ensures |buffers| <= MAX_QUEUE
      ensures asleep ==> |buffers| == MAX_QUEUE
      ensures NoticesAreEarned(log)
      ensures isEos && buffers == [] && phase.AtRest? ==> ToldSinceRise(log)
      ensures GoodPasses(events) ==> Balanced(View(), log) && WritesFit(log)
    {
      QueueIsBounded(events);
      NoLostWakeup(events);
      EosNoticesAreRight(events);
      if GoodPasses(events) {
        BytesAreConserved(events);
      }
    }

    /** Pops the front buffer, which was used up or could not be written, and wakes the
        streaming thread. */
    method PopFront(ghost dropped: bool)
      requires buffers != []
      modifies this`buffers, this`asleep, this`log
      ensures !asleep
      ensures buffers == old(buffers)[1..]
      ensures log == old(log) + if dropped then [Dropped(old(buffers)[0])] else []
    {
      if dropped {
        log := log + [Dropped(buffers[0])];
      }
      buffers := buffers[1..];
      asleep := false;
    }

    /** Resizes the front buffer to its leftover; a leftover below a frame joins the next buffer. */
    method HandleLeftover(framesToWrite: nat, room: nat)
      requires buffers != [] && frameSize > 0
      modifies this`buffers, this`asleep
      ensures asleep == (old(asleep) && !Merges(old(buffers), Leftover(|old(buffers)[0]|, room, frameSize), frameSize))
      ensures framesToWrite == room > 0 && room * frameSize < |old(buffers)[0]| < U32 ==>
                buffers == RestInFront(old(buffers), room * frameSize, frameSize)
      ensures buffers == KeepLeftover(old(buffers), ByteCount(framesToWrite, frameSize),
                                      Leftover(|old(buffers)[0]|, room, frameSize), frameSize)
    {
      if framesToWrite == room > 0 && room * frameSize < |buffers[0]| < U32 {
        LeftoverInFront(buffers, room, frameSize);
      }
      var buffer := buffers[0];
      var leftoverData := (|buffer| - (room * frameSize) % U32) % U32;
      var offset := (framesToWrite * frameSize) % U32;
      if offset + leftoverData <= |buffer| {
        buffer := buffer[offset..offset + leftoverData];
      }
      if leftoverData / frameSize == 0 && |buffers| > 1 {
        buffers := buffers[1..];
        var combined := buffer + buffers[0];
        buffers := [combined] + buffers[1..];
        asleep := false;
      } else {
        buffers := [buffer] + buffers[1..];
      }
    }

    /** A pass that was offered room. */
    method WriteFront(r: Response)
      requires buffers != [] && frameSize > 0 && r.roomKnown && r.room > 0
      modifies this`buffers, this`asleep, this`log
      ensures asleep == (old(asleep) && !Notifies(old(buffers), frameSize, r))
      ensures buffers == WritePass(old(buffers), frameSize, r).0
      ensures log == old(log) + WritePass(old(buffers), frameSize, r).1
    {
      var writeFailure := false;
      var buffer := buffers[0];
      var whole := (|buffer| / frameSize) % U32;
      var framesToWrite := if r.room <= whole then r.room else whole;
      if framesToWrite > 0 {
        if !r.mapped {
          writeFailure := true;
        } else if !r.written {
          writeFailure := true;
        } else {
          log := log + [Wrote(buffer[..Min(framesToWrite * frameSize, |buffer|)], framesToWrite, r.room, frameSize)];
        }
      }
      if !writeFailure && (framesToWrite * frameSize) % U32 < |buffer| {
        HandleLeftover(framesToWrite, r.room);
      } else {
        PopFront(writeFailure);
      }
    }

    /** One pass of the push loop; `more` says whether the loop goes on. */
    method PushPass(r: Response) returns (more: bool)
      requires InRun() && phase.AtPass? && buffers != [] && frameSize > 0
      modifies this`buffers, this`asleep, this`log, this`phase, this`available, this`events
      ensures InRun() && events == old(events) + [Pass(r)]
      ensures View() == PassStep(old(View()), r).state
      ensures more <==> phase.AtPass?
      ensures !more <==> phase.AtLoopEnd?
    {
      RunGrows(events, Pass(r));
      if !r.roomKnown {
        log := log + [Dropped(Flat(buffers))];
        buffers := [];
        asleep := false;
      } else {
        available := r.room;
        if r.room != 0 {
          WriteFront(r);
        }
      }
      more := buffers != [] && r.room != 0;
      phase := if Continues(View()) then AtPass else AtLoopEnd;
      events := events + [Pass(r)];
    }

    /** Where the push loop is. */
    ghost predicate Pushing(more: bool)
      reads this
    {
      && InRun() && isOpen && frameSize > 0
      && if more then phase.AtPass? && buffers != [] else phase.AtLoopEnd?
    }

    /** What the other threads may do during a push: look for room, bring the server's notice. */
    method Meanwhile()
      requires InRun()
      modifies this`sawRoom, this`isEos, this`events, this`log, this`asleep
      ensures InRun() && old(events) <= events && (GoodPasses(old(events)) ==> GoodPasses(events))
    {
      var steps :| 0 <= steps;
      for i := 0 to steps
        invariant InRun() && old(events) <= events && (GoodPasses(old(events)) ==> GoodPasses(events))
      {
        var notice: bool := *;
        if notice {
          NotifyEndOfStream();
        } else {
          var _ := WaitForRoom();
        }
      }
    }

    /** One pass with whatever the server and GStreamer answer. */
    method PushOnce() returns (more: bool)
      requires Pushing(true)
      modifies this`buffers, this`asleep, this`log, this`phase, this`available, this`events, this`isEos, this`sawRoom
      ensures Pushing(more) && old(events) <= events
      ensures old(HoldsWholeFrames()) ==>
                && HoldsWholeFrames() && (more ==> Size(buffers) < Size(old(buffers)))
                && (GoodPasses(old(events)) ==> GoodPasses(events))
    {
      Meanwhile();
      var roomKnown, mapped, written := *, *, *;
      var room :| 0 <= room < U32;
      var r := Response(roomKnown, room, mapped, written);
      if HoldsWholeFrames() {
        WholePassProperties(View(), r);
        GoodPassesGrow(events, r);
      }
      more := PushPass(r);
    }

    /** Tells the backend that the stream has ended; the flag may have fallen since it was read. */
    method TellBackend()
      requires InRun() && phase.AtNotice?
      modifies this`phase, this`log, this`events, this`isEos, this`sawRoom, this`asleep
      ensures Valid() && old(events) <= events
      ensures GoodPasses(old(events)) ==> GoodPasses(events)
    {
      Meanwhile();
      RunGrows(events, Tell);
      OtherEventKeepsGoodPasses(events, Tell);
      events := events + [Tell];
      phase := AtRest;
      log := log + [ToldEos];
    }

    /** After the loop: the retry timer, or a look at the end-of-stream flag. */
    method LeaveLoop() returns (notice: bool)
      requires Pushing(false)
      modifies this`phase, this`hasTimer, this`events
      ensures InRun() && events == old(events) + [FinishPush] && (if notice then phase.AtNotice? else phase.AtRest?)
      ensures GoodPasses(old(events)) ==> GoodPasses(events)
      ensures buffers != [] ==> hasTimer
    {
      RunGrows(events, FinishPush);
      OtherEventKeepsGoodPasses(events, FinishPush);
      events := events + [FinishPush];
      notice := buffers == [] && isEos;
      phase := if notice then AtNotice else AtRest;
      if buffers != [] {
        hasTimer := true;
      }
    }

    /** What follows the loop: the retry timer or the end-of-stream notice. */
    method EndPush()
      requires Pushing(false)
      modifies this`phase, this`hasTimer, this`log, this`events, this`isEos, this`sawRoom, this`asleep
      ensures Valid() && old(events) + [FinishPush] <= events
      ensures GoodPasses(old(events)) ==> GoodPasses(events)
      ensures buffers != [] ==> hasTimer
    {
      var notice := LeaveLoop();
      if notice {
        TellBackend();
      }
    }

    /** A push has ended, or is still at it after `patience` passes; for whole frames it ends
        within as many passes as there are bytes and buffers in the queue, and no byte is lost. */
    twostate predicate Pushed(finished: bool, patience: nat, size: nat, wasWhole: bool)
      reads this
    {
      && old(events) <= events
      && (if finished then Valid() else InRun() && phase.AtPass?)
      && (finished && isOpen && buffers != [] ==> hasTimer)
      && (wasWhole ==> HoldsWholeFrames()
                       && (size <= patience ==> finished)
                       && (GoodPasses(old(events)) ==> GoodPasses(events)))
    }

    /** The loop itself. */
    method PushWhileRoom(patience: nat) returns (finished: bool)
      requires Pushing(true)
      modifies this`buffers, this`asleep, this`log, this`phase, this`available, this`events, this`isEos, this`sawRoom
      ensures Pushing(!finished) && old(events) <= events
      ensures old(HoldsWholeFrames()) ==>
                && HoldsWholeFrames()
                && (Size(old(buffers)) <= patience ==> finished)
                && (GoodPasses(old(events)) ==> GoodPasses(events))
    {
      var more, passes := true, 0;
      while more && passes < patience
        invariant passes <= patience && Pushing(more) && old(events) <= events
        invariant old(HoldsWholeFrames()) ==>
                    && HoldsWholeFrames()
                    && (more ==> passes + Size(buffers) <= Size(old(buffers)))
                    && (GoodPasses(old(events)) ==> GoodPasses(events))
        decreases patience - passes
      {
        more := PushOnce();
        passes := passes + 1;
      }
      assert buffers != [] ==> Size(buffers) > 0;
      finished := !more;
    }

    /** Sends queued bytes while the server offers room; then arms the retry timer or, at end
        of stream with nothing queued, tells the backend. */
    method PushSamples(patience: nat) returns (finished: bool)
      requires phase.AtRest? && Run(events) == History(BeginPush(View()), log)
      requires isOpen ==> frameSize > 0
      modifies this`buffers, this`asleep, this`log, this`phase, this`available, this`events, this`hasTimer, this`isEos, this`sawRoom
      ensures Pushed(finished, patience, Size(old(buffers)), old(HoldsWholeFrames()))
    {
      if !isOpen || buffers == [] {
        return true;
      }
      phase, available := AtPass, 0;
      finished := PushWhileRoom(patience);
      if finished {
        EndPush();
      }
    }

    /** The streaming thread looks whether there is room in the queue, during a push or not; it
        waits while there is none. */
    method WaitForRoom() returns (room: bool)
      requires InRun()
      modifies this`sawRoom, this`events, this`asleep
      ensures InRun() && events == old(events) + [SeeRoom]
      ensures room <==> |buffers| < MAX_QUEUE
      ensures sawRoom == room && (room || asleep)
      ensures GoodPasses(old(events)) ==> GoodPasses(events)
    {
      RunGrows(events, SeeRoom);
      OtherEventKeepsGoodPasses(events, SeeRoom);
      events := events + [SeeRoom];
      QueueIsBounded(old(events));
      room := |buffers| < MAX_QUEUE;
      asleep := if sawRoom then asleep else !room;
      sawRoom := room;
    }

    /** The buffer goes to the tail of the queue and the retry timer is cancelled. */
    method AcceptSample(buffer: Bytes)
      requires Valid() && sawRoom
      modifies this`events, this`log, this`sawRoom, this`hasTimer, this`buffers, this`asleep
      ensures phase.AtRest? && Run(events) == History(BeginPush(View()), log)
      ensures buffers == old(buffers) + [buffer] && events == old(events) + [NewSample(buffer)]
      ensures GoodPasses(old(events)) ==> GoodPasses(events)
    {
      RunGrows(events, NewSample(buffer));
      OtherEventKeepsGoodPasses(events, NewSample(buffer));
      events := events + [NewSample(buffer)];
      log := log + [Accepted(buffer)];
      sawRoom := false;
      hasTimer := false;
      buffers := buffers + [buffer];
    }

    /** The streaming thread hands over a buffer, after having seen room. */
    method NotifyNewSample(buffer: Bytes, patience: nat) returns (finished: bool)
      requires Valid() && sawRoom && (isOpen ==> frameSize > 0)
      modifies this
      ensures old(events) + [NewSample(buffer)] <= events
      ensures Pushed(finished, patience, Size(old(buffers)) + |buffer| + 1,
                     old(HoldsWholeFrames()) && (old(isOpen) ==> old(frameSize) > 0 && IsWhole(buffer, old(frameSize))))
    {
      FlatPush(buffers, buffer);
      AcceptSample(buffer);
      finished := PushSamples(patience);
    }

    /** The flag rises. */
    method RaiseEos()
      requires Valid() && isOpen && !isEos
      modifies this`events, this`log, this`isEos, this`phase
      ensures isEos && events == old(events) + [SetEos]
      ensures if buffers == [] then InRun() && phase.AtNotice?
              else phase.AtRest? && Run(events) == History(BeginPush(View()), log)
      ensures GoodPasses(old(events)) ==> GoodPasses(events)
    {
      RunGrows(events, SetEos);
      OtherEventKeepsGoodPasses(events, SetEos);
      events := events + [SetEos];
      isEos := true;
      log := log + [EosRose];
      if buffers == [] {
        phase := AtNotice;
      }
    }

    method SetEndOfStream(patience: nat) returns (finished: bool)
      requires Valid() && (isOpen ==> frameSize > 0)
      modifies this
      ensures if old(isOpen && !isEos) then old(events) + [SetEos] <= events else unchanged(this) && finished
      ensures finished || !old(HoldsWholeFrames()) || patience < Size(old(buffers))
      ensures if finished then Valid() else InRun() && phase.AtPass?
      ensures old(HoldsWholeFrames()) && GoodPasses(old(events)) ==> GoodPasses(events)
    {
      finished := true;
      if isOpen && !isEos {
        RaiseEos();
        if buffers == [] {
          TellBackend();
        } else {
          finished := PushSamples(patience);
        }
      }
    }

    method NotifyTimerExpired(patience: nat) returns (finished: bool)
      requires Valid() && (isOpen ==> frameSize > 0)
      modifies this
      ensures old(events) + [TimerExpired] <= events
      ensures Pushed(finished, patience, Size(old(buffers)), old(HoldsWholeFrames()))
    {
      RunGrows(events, TimerExpired);
      OtherEventKeepsGoodPasses(events, TimerExpired);
      events := events + [TimerExpired];
      finished := PushSamples(patience);
    }

    /** Creates the backend unless it is open with the same configuration; `created` is the
        backend's answer.  An unchanged configuration is answered with false. */
    method OpenSession(isNewConfig: bool, created: bool, newFrameSize: nat) returns (result: bool)
      requires Valid()
      modifies this
      ensures Valid() && (GoodPasses(old(events)) ==> GoodPasses(events))
      ensures result <==> created && (isNewConfig || !old(isOpen))
      ensures events == old(events) + if isNewConfig || !old(isOpen) then [Open(created, newFrameSize)] else []
    {
      if isOpen && !isNewConfig {
        return false;
      }
      RunGrows(events, Open(created, newFrameSize));
      OtherEventKeepsGoodPasses(events, Open(created, newFrameSize));
      events := events + [Open(created, newFrameSize)];
      if created {
        frameSize := newFrameSize;
        isOpen := true;
      } else {
        isOpen := false;
      }
      result := isOpen;
    }

    method CloseSession()
      requires Valid()
      modifies this
      ensures Valid() && events == old(events) + [Close] && !isOpen
      ensures GoodPasses(old(events)) ==> GoodPasses(events)
    {
      RunGrows(events, Close);
      OtherEventKeepsGoodPasses(events, Close);
      events := events + [Close];
      hasTimer := false;
      isOpen := false;
    }

    /** The server has played everything; the notice comes at any time. */
    method NotifyEndOfStream()
      requires InRun()
      modifies this`isEos, this`log, this`events
      ensures InRun() && events == old(events) + [ServerEndOfStream] && !isEos
      ensures GoodPasses(old(events)) ==> GoodPasses(events)
    {
      RunGrows(events, ServerEndOfStream);
      OtherEventKeepsGoodPasses(events, ServerEndOfStream);
      events := events + [ServerEndOfStream];
      log := log + [EosFell];
      isEos := false;
    }
  }

  /** A pass over whole-frame buffers is good, keeps them whole, and shrinks the queue if the
      loop is to go on. */
  lemma WholePassProperties(st: State, r: Response)
    requires st.phase.AtPass? && st.buffers != [] && st.frameSize > 0
    requires forall b | b in st.buffers :: IsWhole(b, st.frameSize)
    ensures GoodPass(st, r)
    ensures var st' := PassStep(st, r).state;
            && (forall b | b in st'.buffers :: IsWhole(b, st.frameSize))
            && (st'.phase.AtPass? ==> st'.buffers != [] && r.roomKnown && r.room > 0 && Shrinks(st.buffers, st'.buffers))
  {
    var front := st.buffers[0];
    assert front in st.buffers;
    WholeFills(|front|, st.frameSize, r);
    PushLoopTerminates(st, r);
    if r.roomKnown && r.room > 0 {
      FillingKeepsBytes(|front|, st.frameSize, r);
      WholePass(st.buffers, st.frameSize, r);
    }
  }

  lemma GoodPassesGrow(events: seq<Event>, r: Response)
    requires GoodPass(Run(events).state, r)
    ensures GoodPasses(events) ==> GoodPasses(events + [Pass(r)])
  {
    var l := events + [Pass(r)];
    assert l[..|events|] == events;
    assert forall i | 0 <= i < |events| :: l[i] == events[i] && l[..i] == events[..i];
  }

  lemma OtherEventKeepsGoodPasses(events: seq<Event>, e: Event)
    requires !e.Pass?
    ensures GoodPasses(events) ==> GoodPasses(events + [e])
  {
    var l := events + [e];
    assert forall i | 0 <= i < |events| :: l[i] == events[i] && l[..i] == events[..i];
  }
}
