/** The sample queue of a pull-mode sink, shared by the streaming thread that fills it, the
    puller thread that empties it and the threads that flush it.

    One event is one critical section of the sink's mutex.  Samples are named by their
    number of arrival.  An event that its thread cannot take in the current state (a second
    buffer while the streaming thread waits, a resumption that nobody signalled) is a no-op. */
module PullModel {
  import opened Wrappers

  const MAX_QUEUED := 24

  datatype State = State(
    samples: seq<nat>,
    isEos: bool,
    segmentSet: bool,
    sinkFlush: bool,
    serverFlush: bool,
    timeReset: bool,
    received: nat,
    waiting: Option<nat>,
    signalled: bool)

  datatype Event =
    | BufferArrives(sampleMade: bool)
    | BufferResumes(sampleMade: bool)
    | AskReady
    | AskEos
    | GetFrontSample
    | PopSample
    | SegmentEvent(hasClient: bool)
    | EosEvent
    | FlushStart
    | FlushStop
    | FlushServer
    | FlushCompleted
    | ReadyToPaused
    | PausedToReady

  datatype Entry =
    | Received(sample: nat)
    | Discarded(sample: nat)
    | Queued(sample: nat)
    | ReadyAnswered(ready: bool)
    | EosAnswered(eos: bool)
    | Returned(sample: nat)
    | NothingReturned
    | Popped(sample: nat)
    | FlushBegun
    | ServerFlushAsked
    | ServerFlushEnded

  datatype Outcome = Outcome(state: State, log: seq<Entry>)

  function Init(): State {
    State([], false, false, false, false, false, 0, None, false)
  }

  /** The tail of handleBuffer, once the streaming thread does not wait any more. */
  function FinishBuffer(st: State, n: nat, sampleMade: bool): Outcome {
    if st.sinkFlush then Outcome(st, [Discarded(n)])
    else if sampleMade then Outcome(st.(samples := st.samples + [n]), [Queued(n)])
    else Outcome(st, [Discarded(n)])
  }

  /** Empties the queue, marks the sink as flushing and wakes the streaming thread. */
  function Clear(st: State): State {
    st.(samples := [], sinkFlush := true, signalled := st.waiting.Some?)
  }

  function Step(st: State, e: Event): Outcome {
    match e
    case BufferArrives(sampleMade) =>
      if st.waiting.Some? then Outcome(st, [])
      else
        var n := st.received;
        var st1 := st.(received := n + 1);
        if |st.samples| >= MAX_QUEUED then
          Outcome(st1.(waiting := Some(n), signalled := false), [Received(n)])
        else
          var o := FinishBuffer(st1, n, sampleMade);
          Outcome(o.state, [Received(n)] + o.log)
    case BufferResumes(sampleMade) =>
      if st.waiting.Some? && st.signalled then
        FinishBuffer(st.(waiting := None, signalled := false), st.waiting.value, sampleMade)
      else
        Outcome(st, [])
    case AskReady => Outcome(st, [ReadyAnswered(st.isEos || st.segmentSet)])
    case AskEos => Outcome(st, [EosAnswered(st.isEos && st.samples == [])])
    case GetFrontSample =>
      if st.serverFlush || st.samples == [] then Outcome(st, [NothingReturned])
      else Outcome(st, [Returned(st.samples[0])])
    case PopSample =>
      var st1 := st.(signalled := st.waiting.Some?);
      if st.samples == [] then Outcome(st1, [])
      else Outcome(st1.(samples := st.samples[1..]), [Popped(st.samples[0])])
    case SegmentEvent(hasClient) => Outcome(if hasClient then st.(segmentSet := true) else st, [])
    case EosEvent => Outcome(st.(isEos := true), [])
    case FlushStart =>
      if st.sinkFlush then Outcome(st, [FlushBegun])
      else Outcome(Clear(st.(isEos := false, segmentSet := false)), [FlushBegun])
    case FlushStop => Outcome(st.(sinkFlush := false), [])
    case FlushServer => Outcome(st.(serverFlush := true, timeReset := true), [ServerFlushAsked])
    case FlushCompleted => Outcome(st.(serverFlush := false, timeReset := false), [ServerFlushEnded])
    case ReadyToPaused => Outcome(st.(sinkFlush := false), [])
    case PausedToReady => Outcome(Clear(st), [])
  }

  datatype History = History(state: State, log: seq<Entry>)

  function Run(events: seq<Event>): History {
    if events == [] then History(Init(), [])
    else
      var n := |events| - 1;
      var before := Run(events[..n]);
      var o := Step(before.state, events[n]);
      History(o.state, before.log + o.log)
  }

  lemma RunGrows(events: seq<Event>, e: Event)
    ensures var before := Run(events);
            var o := Step(before.state, e);
            Run(events + [e]) == History(o.state, before.log + o.log)
  {
    assert (events + [e])[..|events|] == events;
  }
}
