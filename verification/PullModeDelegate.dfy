/** The pull-mode sink as an object.

    The methods of the delegate are the critical sections of the sink's mutex; a valid
    delegate is always the result of a run of PullModel. */
module PullModeDelegate {
  import opened Wrappers
  import opened PullModel
  import PullTheorems
  import Sync = FlushAndDataSynchronizer

  class Delegate {
    const sourceId: int
    const sync: Sync.Synchronizer
    var samples: seq<nat>
    var isEos: bool
    var segmentSet: bool
    var sinkFlush: bool
    var serverFlush: bool
    var timeReset: bool
    var received: nat
    var waiting: Option<nat>
    var signalled: bool

    ghost var events: seq<Event>
    ghost var log: seq<Entry>

    ghost function View(): State
      reads this
    {
      State(samples, isEos, segmentSet, sinkFlush, serverFlush, timeReset, received, waiting, signalled)
    }

    ghost predicate Valid()
      reads this
    {
      Run(events) == History(View(), log)
    }

    constructor (sourceId: int, sync: Sync.Synchronizer)
      ensures Valid() && events == [] && samples == [] && this.sourceId == sourceId && this.sync == sync
    {
      this.sourceId, this.sync := sourceId, sync;
      samples, isEos, segmentSet, sinkFlush, serverFlush, timeReset := [], false, false, false, false, false;
      received, waiting, signalled := 0, None, false;
      events, log := [], [];
    }

    /** What holds of every reachable sink. */
    lemma Guarantees()
      requires Valid()
      ensures |samples| <= MAX_QUEUED
      ensures sinkFlush ==> samples == []
      ensures waiting.Some? && |samples| < MAX_QUEUED ==> signalled
      ensures PullTheorems.OneFateEach(View(), log)
      ensures isEos <==> PullTheorems.EosCame(events)
      ensures segmentSet <==> PullTheorems.SegmentCame(events)
      ensures sinkFlush <==> PullTheorems.SinkFlushOpen(events)
      ensures PullTheorems.NothingReturnedDuringServerFlush(log)
      ensures PullTheorems.StreamLocked(events) ==> PullTheorems.NoStaleReturned(log)
    {
      PullTheorems.QueueIsBoundedAndFlushedEmpty(events);
      PullTheorems.NoLostWakeup(events);
      PullTheorems.EveryBufferHasOneFate(events);
      PullTheorems.FlagsAreHistory(events);
      PullTheorems.ServerFlushIsolated(events);
      if PullTheorems.StreamLocked(events) {
        PullTheorems.FlushIsolated(events);
      }
    }

    /** The synchroniser has heard of received data once, or not at all. */
    twostate predicate ToldReceived(told: bool)
      reads sync
    {
      if told then sync.Performed(Sync.ReceiveData(sourceId)) else unchanged(sync)
    }

    /** The tail of handleBuffer; the synchroniser hears of the data unless it was discarded. */
    method FinishBuffer(n: nat, sampleMade: bool, hasClient: bool)
      requires sync.Valid()
      modifies this`samples, this`log, sync
      ensures var o := PullModel.FinishBuffer(old(View()), n, sampleMade);
              View() == o.state && log == old(log) + o.log
      ensures sync.Valid() && ToldReceived(!sinkFlush && hasClient)
    {
      if sinkFlush {
        log := log + [Discarded(n)];
        return;
      }
      if sampleMade {
        samples := samples + [n];
        log := log + [Queued(n)];
      } else {
        log := log + [Discarded(n)];
      }
      if hasClient {
        sync.NotifyDataReceived(sourceId);
      }
    }

    /** The critical section of an arriving buffer. */
    method HandleBufferLocked(sampleMade: bool, hasClient: bool)
      requires sync.Valid()
      modifies this`received, this`waiting, this`signalled, this`samples, this`log, sync
      ensures var o := Step(old(View()), BufferArrives(sampleMade));
              View() == o.state && log == old(log) + o.log
      ensures sync.Valid()
      ensures ToldReceived(old(waiting.None? && |samples| < MAX_QUEUED && !sinkFlush) && hasClient)
    {
      if waiting.Some? {
        return;
      }
      var n := received;
      received := received + 1;
      log := log + [Received(n)];
      if |samples| >= MAX_QUEUED {
        waiting, signalled := Some(n), false;
        return;
      }
      ghost var o := PullModel.FinishBuffer(View(), n, sampleMade);
      FinishBuffer(n, sampleMade, hasClient);
      assert old(log) + [Received(n)] + o.log == old(log) + ([Received(n)] + o.log);
    }

    /** A buffer arrives; if the queue is full the streaming thread starts to wait. */
    method HandleBuffer(sampleMade: bool, hasClient: bool)
      requires Valid() && sync.Valid()
      modifies this, sync
      ensures Valid() && events == old(events) + [BufferArrives(sampleMade)]
      ensures var o := Step(old(View()), BufferArrives(sampleMade)); View() == o.state && log == old(log) + o.log
      ensures old(waiting.None? && |samples| < MAX_QUEUED && !sinkFlush) && sampleMade ==>
                samples == old(samples) + [old(received)]
      ensures sync.Valid()
      ensures ToldReceived(old(waiting.None? && |samples| < MAX_QUEUED && !sinkFlush) && hasClient)
    {
      RunGrows(events, BufferArrives(sampleMade));
      HandleBufferLocked(sampleMade, hasClient);
      events := events + [BufferArrives(sampleMade)];
    }

    /** The waiting streaming thread goes on after a signal. */
    method ResumeBuffer(sampleMade: bool, hasClient: bool)
      requires Valid() && sync.Valid()
      modifies this, sync
      ensures Valid() && events == old(events) + [BufferResumes(sampleMade)]
      ensures var o := Step(old(View()), BufferResumes(sampleMade)); View() == o.state && log == old(log) + o.log
      ensures old(waiting.Some? && |samples| < MAX_QUEUED) ==> waiting.None?
      ensures sync.Valid()
      ensures ToldReceived(old(waiting.Some? && signalled && !sinkFlush) && hasClient)
    {
      PullTheorems.NoLostWakeup(events);
      RunGrows(events, BufferResumes(sampleMade));
      events := events + [BufferResumes(sampleMade)];
      if waiting.Some? && signalled {
        var n := waiting.value;
        waiting, signalled := None, false;
        FinishBuffer(n, sampleMade, hasClient);
      }
    }

    /** Has the sink got its segment, or its end of stream? */
    method IsReadyToSendData() returns (ready: bool)
      requires Valid()
      modifies this`events, this`log
      ensures Valid() && events == old(events) + [AskReady]
      ensures log == old(log) + [ReadyAnswered(ready)] && (ready <==> isEos || segmentSet)
    {
      RunGrows(events, AskReady);
      events := events + [AskReady];
      ready := isEos || segmentSet;
      log := log + [ReadyAnswered(ready)];
    }

    /** Has everything up to the end of stream been pulled? */
    method IsEos() returns (eos: bool)
      requires Valid()
      modifies this`events, this`log
      ensures Valid() && events == old(events) + [AskEos]
      ensures log == old(log) + [EosAnswered(eos)] && (eos <==> isEos && samples == [])
    {
      RunGrows(events, AskEos);
      events := events + [AskEos];
      eos := samples == [] && isEos;
      log := log + [EosAnswered(eos)];
    }

    method GetFrontSample() returns (sample: Option<nat>)
      requires Valid()
      modifies this`events, this`log
      ensures Valid() && events == old(events) + [Event.GetFrontSample]
      ensures sample == if serverFlush || samples == [] then None else Some(samples[0])
      ensures log == old(log) + [if sample.Some? then Returned(sample.value) else NothingReturned]
    {
      RunGrows(events, Event.GetFrontSample);
      events := events + [Event.GetFrontSample];
      sample := None;
      if !serverFlush && samples != [] {
        sample := Some(samples[0]);
        log := log + [Returned(samples[0])];
      } else {
        log := log + [NothingReturned];
      }
    }

    method PopSample()
      requires Valid()
      modifies this
      ensures Valid() && events == old(events) + [Event.PopSample]
      ensures var o := Step(old(View()), Event.PopSample); View() == o.state && log == old(log) + o.log
      ensures old(samples) != [] ==> log == old(log) + [Popped(old(samples)[0])] && samples == old(samples)[1..]
      ensures waiting == old(waiting) && (waiting.Some? ==> signalled)
    {
      RunGrows(events, Event.PopSample);
      events := events + [Event.PopSample];
      if samples != [] {
        log := log + [Popped(samples[0])];
        samples := samples[1..];
      }
      signalled := waiting.Some?;
    }

    /** The segment reaches the client, if there is one. */
    method HandleSegment(hasClient: bool)
      requires Valid()
      modifies this
      ensures Valid() && events == old(events) + [SegmentEvent(hasClient)]
      ensures var o := Step(old(View()), SegmentEvent(hasClient)); View() == o.state && log == old(log) + o.log
    {
      RunGrows(events, SegmentEvent(hasClient));
      events := events + [SegmentEvent(hasClient)];
      if hasClient {
        segmentSet := true;
      }
    }

    method HandleEosEvent(hasClient: bool)
      requires Valid() && sync.Valid()
      modifies this, sync
      ensures Valid() && events == old(events) + [EosEvent]
      ensures var o := Step(old(View()), EosEvent); View() == o.state && log == old(log) + o.log
      ensures sync.Valid() && ToldReceived(hasClient)
    {
      RunGrows(events, EosEvent);
      events := events + [EosEvent];
      isEos := true;
      if hasClient {
        sync.NotifyDataReceived(sourceId);
      }
    }

    /** Drains the queue one sample at a time, with the mutex held. */
    method ClearBuffersUnlocked()
      modifies this`sinkFlush, this`signalled, this`samples
      ensures View() == Clear(old(View()))
    {
      sinkFlush := true;
      signalled := waiting.Some?;
      while samples != []
        invariant View() == Clear(old(View())).(samples := samples)
        decreases |samples|
      {
        samples := samples[1..];
      }
    }

    method StartFlushingLocked()
      modifies this`isEos, this`sinkFlush, this`segmentSet, this`signalled, this`samples, this`log
      ensures var o := Step(old(View()), FlushStart);
              View() == o.state && log == old(log) + o.log
    {
      log := log + [FlushBegun];
      if !sinkFlush {
        if isEos {
          isEos := false;
        }
        sinkFlush := true;
        segmentSet := false;
        ClearBuffersUnlocked();
      }
    }

    /** The critical section of a FLUSH_START, after its wait in the synchroniser. */
    method StartFlushing()
      requires Valid()
      modifies this
      ensures Valid() && events == old(events) + [FlushStart]
      ensures var o := Step(old(View()), FlushStart); View() == o.state && log == old(log) + o.log
    {
      RunGrows(events, FlushStart);
      StartFlushingLocked();
      events := events + [FlushStart];
    }

    method FlushServer()
      requires Valid()
      modifies this
      ensures Valid() && events == old(events) + [Event.FlushServer]
      ensures var o := Step(old(View()), Event.FlushServer); View() == o.state && log == old(log) + o.log
    {
      RunGrows(events, Event.FlushServer);
      events := events + [Event.FlushServer];
      log := log + [ServerFlushAsked];
      serverFlush, timeReset := true, true;
    }

    /** The last critical section of a FLUSH_STOP. */
    method EndFlushing()
      requires Valid()
      modifies this
      ensures Valid() && events == old(events) + [FlushStop]
      ensures var o := Step(old(View()), FlushStop); View() == o.state && log == old(log) + o.log
    {
      RunGrows(events, FlushStop);
      events := events + [FlushStop];
      sinkFlush := false;
    }

    /** Two critical sections: the server is asked first, then the sink's flag falls. */
    method StopFlushing(hasClient: bool)
      requires Valid()
      modifies this
      ensures Valid()
      ensures events == old(events) + (if hasClient then [Event.FlushServer] else []) + [FlushStop]
    {
      if hasClient {
        FlushServer();
      }
      EndFlushing();
    }

    method HandleFlushCompleted()
      requires Valid()
      modifies this
      ensures Valid() && events == old(events) + [FlushCompleted]
      ensures var o := Step(old(View()), FlushCompleted); View() == o.state && log == old(log) + o.log
    {
      RunGrows(events, FlushCompleted);
      events := events + [FlushCompleted];
      log := log + [ServerFlushEnded];
      serverFlush, timeReset := false, false;
    }

    method ChangeReadyToPaused()
      requires Valid()
      modifies this
      ensures Valid() && events == old(events) + [ReadyToPaused]
      ensures var o := Step(old(View()), ReadyToPaused); View() == o.state && log == old(log) + o.log
    {
      RunGrows(events, ReadyToPaused);
      events := events + [ReadyToPaused];
      sinkFlush := false;
    }

    method ChangePausedToReady()
      requires Valid()
      modifies this
      ensures Valid() && events == old(events) + [PausedToReady]
    {
      RunGrows(events, PausedToReady);
      events := events + [PausedToReady];
      ClearBuffersUnlocked();
    }
  }
}
