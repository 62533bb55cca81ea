/** The web audio client: a byte stream cut at frame boundaries to fit the room the server
    offers, with leftovers, merging, drop on failure, a retry timer and end of stream.

    Events run one after the other in the client's event loop, except the server's
    end-of-stream notice and the streaming thread's wait for room, which come at any time.
    A push is a loop; each pass of it is one event.  Sizes are 32-bit where the source's are. */
module WebAudioModel {

  type Bytes = seq<bv8>

  const MAX_QUEUE := 40
  const U32 := 0x1_0000_0000

  /** Where the event loop is in a push; `AtNotice` has seen the end-of-stream flag up with
      nothing queued and has yet to tell the backend. */
  datatype Phase = AtRest | AtPass | AtLoopEnd | AtNotice

  datatype State = State(
    buffers: seq<Bytes>,
    isOpen: bool,
    isEos: bool,
    frameSize: nat,
    hasTimer: bool,
    phase: Phase,
    available: nat,
    sawRoom: bool,
    asleep: bool)

  /** The server's and GStreamer's answers during one pass. */
  datatype Response = Response(roomKnown: bool, room: nat, mapped: bool, written: bool)

  datatype Event =
    | SeeRoom
    | NewSample(buffer: Bytes)
    | SetEos
    | TimerExpired
    | Pass(response: Response)
    | FinishPush
    | Tell
    | Open(created: bool, frameSize: nat)
    | Close
    | ServerEndOfStream

  datatype Entry =
    | Accepted(bytes: Bytes)
    | Wrote(bytes: Bytes, frames: nat, room: nat, frameSize: nat)
    | Dropped(bytes: Bytes)
    | EosRose
    | EosFell
    | ToldEos

  datatype Outcome = Outcome(state: State, log: seq<Entry>)

  function Init(): State {
    State([], false, false, 0, false, AtRest, 0, false, false)
  }

  function Min(a: nat, b: nat): nat {
    if a <= b then a else b
  }

  function Flat(buffers: seq<Bytes>): Bytes {
    if buffers == [] then [] else buffers[0] + Flat(buffers[1..])
  }

  function FramesToWrite(size: nat, room: nat, frameSize: nat): nat
    requires frameSize > 0
  {
    Min(room, (size / frameSize) % U32)
  }

  /** The 32-bit product frames * frameSize. */
  function ByteCount(frames: nat, frameSize: nat): nat {
    (frames * frameSize) % U32
  }

  /** The leftover is computed from the room, not from what was written. */
  function Leftover(size: nat, room: nat, frameSize: nat): nat {
    (size - ByteCount(room, frameSize)) % U32
  }

  /** gst_buffer_resize: a range beyond the buffer is rejected and leaves it as it is. */
  function Resize(buffer: Bytes, offset: nat, size: nat): Bytes {
    if offset + size <= |buffer| then buffer[offset..offset + size] else buffer
  }

  predicate Continues(st: State) {
    st.buffers != [] && st.available != 0
  }

  /** A leftover below a frame must be processed with the next buffer. */
  predicate Merges(buffers: seq<Bytes>, leftover: nat, frameSize: nat)
    requires frameSize > 0
  {
    leftover / frameSize == 0 && |buffers| > 1
  }

  /** The queue after the front buffer was written up to `offset` with `leftover` to come. */
  function KeepLeftover(buffers: seq<Bytes>, offset: nat, leftover: nat, frameSize: nat): seq<Bytes>
    requires buffers != [] && frameSize > 0
  {
    var rest := Resize(buffers[0], offset, leftover);
    if Merges(buffers, leftover, frameSize) then [rest + buffers[1]] + buffers[2..]
    else [rest] + buffers[1..]
  }

  function WriteFails(frames: nat, r: Response): bool {
    frames > 0 && !(r.mapped && r.written)
  }

  /** A pass that is offered room. */
  function WritePass(buffers: seq<Bytes>, frameSize: nat, r: Response): (seq<Bytes>, seq<Entry>)
    requires buffers != [] && frameSize > 0
  {
    var front := buffers[0];
    var frames := FramesToWrite(|front|, r.room, frameSize);
    if WriteFails(frames, r) then
      (buffers[1..], [Dropped(front)])
    else
      var entry := Wrote(front[..Min(frames * frameSize, |front|)], frames, r.room, frameSize);
      var entries := if frames > 0 then [entry] else [];
      if ByteCount(frames, frameSize) < |front| then
        (KeepLeftover(buffers, ByteCount(frames, frameSize), Leftover(|front|, r.room, frameSize), frameSize), entries)
      else
        (buffers[1..], entries)
  }

  /** Does a pass that is offered room wake the streaming thread?  It does where it pops a
      buffer: because of a failure, because it is used up, or to merge it. */
  predicate Notifies(buffers: seq<Bytes>, frameSize: nat, r: Response)
    requires buffers != [] && frameSize > 0
  {
    var frames := FramesToWrite(|buffers[0]|, r.room, frameSize);
    || WriteFails(frames, r)
    || ByteCount(frames, frameSize) >= |buffers[0]|
    || Merges(buffers, Leftover(|buffers[0]|, r.room, frameSize), frameSize)
  }

  function PassStep(st: State, r: Response): Outcome {
    if !st.phase.AtPass? || st.buffers == [] || st.frameSize == 0 then Outcome(st, [])
    else
      var (buffers, available, entries) :=
        if !r.roomKnown then ([], st.available, [Dropped(Flat(st.buffers))])
        else if r.room == 0 then (st.buffers, 0, [])
        else
          var (b, l) := WritePass(st.buffers, st.frameSize, r);
          (b, r.room, l);
      var notifies := !r.roomKnown || (r.room != 0 && Notifies(st.buffers, st.frameSize, r));
      var st1 := st.(buffers := buffers, available := available, asleep := st.asleep && !notifies);
      Outcome(st1.(phase := if Continues(st1) then AtPass else AtLoopEnd), entries)
  }

  function BeginPush(st: State): State {
    if !st.isOpen || st.buffers == [] then st else st.(phase := AtPass, available := 0)
  }

  function Step(st: State, e: Event): Outcome {
    match e
    case SeeRoom =>
      if st.sawRoom then Outcome(st, [])
      else Outcome(st.(sawRoom := |st.buffers| < MAX_QUEUE, asleep := |st.buffers| >= MAX_QUEUE), [])
    case NewSample(buffer) =>
      if !st.phase.AtRest? || !st.sawRoom then Outcome(st, [])
      else Outcome(BeginPush(st.(hasTimer := false, sawRoom := false, buffers := st.buffers + [buffer])),
                   [Accepted(buffer)])
    case SetEos =>
      if !st.phase.AtRest? || !st.isOpen || st.isEos then Outcome(st, [])
      else if st.buffers == [] then Outcome(st.(isEos := true, phase := AtNotice), [EosRose])
      else Outcome(BeginPush(st.(isEos := true)), [EosRose])
    case TimerExpired => if st.phase.AtRest? then Outcome(BeginPush(st), []) else Outcome(st, [])
    case Pass(r) => PassStep(st, r)
    case FinishPush =>
      if !st.phase.AtLoopEnd? then Outcome(st, [])
      else if st.buffers != [] then Outcome(st.(phase := AtRest, hasTimer := true), [])
      else Outcome(st.(phase := if st.isEos then AtNotice else AtRest), [])
    case Tell => if st.phase.AtNotice? then Outcome(st.(phase := AtRest), [ToldEos]) else Outcome(st, [])
    case Open(created, frameSize) =>
      if !st.phase.AtRest? then Outcome(st, [])
      else if created then Outcome(st.(isOpen := true, frameSize := frameSize), [])
      else Outcome(st.(isOpen := false), [])
    case Close =>
      if !st.phase.AtRest? then Outcome(st, []) else Outcome(st.(isOpen := false, hasTimer := false), [])
    case ServerEndOfStream => Outcome(st.(isEos := false), [EosFell])
  }

  datatype History = History(state: State, log: seq<Entry>)

  function Run(events: seq<Event>): History {
    if events == [] then History(Init(), [])
    else
      var n := |events| - 1;
      var before := Run(events[..n]);
      var o := Step(before.state, events[n]);
      History(o.state, before.log + o.log)
  }

  lemma RunGrows(events: seq<Event>, e: Event)
    ensures var before := Run(events);
            var o := Step(before.state, e);
            Run(events + [e]) == History(o.state, before.log + o.log)
  {
    assert (events + [e])[..|events|] == events;
  }
}
