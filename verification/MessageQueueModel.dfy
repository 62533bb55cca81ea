/** The message queue under every interleaving of posters, one worker and one stop.

    One event is one step of one thread between two points where another thread can run;
    an event its thread cannot take in the current state is a no-op.  A poster checks the
    flags and pushes in two steps with the lock held, because the worker may lower the
    flags in between.  A handler is a program over the state `W` of the client behind the
    queue, so that its steps can be seen to interleave with everything else. */
module MessageQueueModel {
  import opened Wrappers

  /** What a handler does next: touch the client, branch on it, make a nested callInEventLoop,
      or stop the queue from the worker's own thread. */
  datatype Action<!W> =
    | Do(run: W -> W)
    | If(test: W -> bool, yes: seq<Action<W>>, no: seq<Action<W>>)
    | Call(body: seq<Action<W>>)
    | StopSelf

  /** A call with its identity, or the message a stop from another thread posts. */
  datatype Message<!W> = Posted(id: int, body: seq<Action<W>>) | StopRequest

  datatype Fate = Taken | Skipped

  datatype Settled<!W> = Settled(message: Message<W>, fate: Fate)

  /** Where the worker is.  `ClearingSelf` is a stop from its own thread that has lowered the
      flags and has yet to clear; `Finishing` has run the handler and has yet to mark it done. */
  datatype Worker<!W> =
    | NotStarted
    | AtQueue
    | Handling(message: Message<W>, todo: seq<Action<W>>)
    | ClearingSelf(message: Message<W>, todo: seq<Action<W>>)
    | Finishing(message: Message<W>)
    | AtLoopEnd
    | Exited

  /** Where the one stop from another thread is; `Tested` has found the queue running and has
      yet to take the lock. */
  datatype StopPhase = NoStop | Tested | AwaitingMessage | Joining | Clearing | Returned

  /** Messages are numbered in the order of acceptance: `current` is the one in the worker's
      hands, `stopTicket` the stop's, and `done` are those whose callers may go on. */
  datatype State<!W> = State(
    world: W,
    queue: seq<Message<W>>,
    running: bool,
    accepting: bool,
    posting: Option<Message<W>>,
    worker: Worker<W>,
    detached: bool,
    current: nat,
    done: set<nat>,
    stop: StopPhase,
    stopTicket: nat,
    // History
    accepted: seq<Message<W>>,
    settled: seq<Settled<W>>,
    handled: seq<Message<W>>)

  datatype Event<!W> =
    | Start
    | PostCheck(id: int, body: seq<Action<W>>)
    | PostPush
    | Take
    | Work
    | LoopCheck
    | ClearAll
    | StopTest
    | StopFlag
    | StopMessageDone
    | StopJoined
    | StopClears

  ghost function Init<W>(world: W): State<W> {
    State(world, [], false, false, None, NotStarted, false, 0, {}, NoStop, 0, [], [], [])
  }

  function BodyOf<W>(m: Message<W>): seq<Action<W>> {
    match m
    case Posted(_, body) => body
    case StopRequest => []
  }

  ghost function AllSkipped<W>(queue: seq<Message<W>>): seq<Settled<W>> {
    seq(|queue|, i requires 0 <= i < |queue| => Settled(queue[i], Skipped))
  }

  function Tickets(first: nat, end: nat): (tickets: set<nat>)
    requires first <= end
    ensures forall k: nat :: k in tickets <==> first <= k < end
    decreases end
  {
    if first == end then {} else Tickets(first, end - 1) + {end - 1}
  }

  /** Skips every queued message and releases its caller. */
  ghost function Clear<W>(st: State<W>): State<W> {
    st.(queue := [],
        settled := st.settled + AllSkipped(st.queue),
        done := st.done + Tickets(|st.settled|, |st.settled| + |st.queue|))
  }

  ghost function Push<W>(st: State<W>, m: Message<W>): State<W> {
    st.(queue := st.queue + [m], accepted := st.accepted + [m])
  }

  /** One step of a handler; nested calls run inline, unless a stop from this thread has
      detached it: then they are refused like any post. */
  ghost function HandlerStep<W>(st: State<W>, m: Message<W>, todo: seq<Action<W>>): State<W> {
    if todo == [] then
      st.(running := st.running && m.Posted?, worker := Finishing(m))
    else
      var rest := todo[1..];
      match todo[0]
      case Do(run) => st.(world := run(st.world), worker := Handling(m, rest))
      case If(test, yes, no) => st.(worker := Handling(m, (if test(st.world) then yes else no) + rest))
      case Call(body) => st.(worker := Handling(m, (if st.detached then [] else body) + rest))
      case StopSelf =>
        if !st.running then st.(worker := Handling(m, rest))
        else st.(accepting := false, running := false, detached := true, worker := ClearingSelf(m, rest))
  }

  ghost function WorkStep<W>(st: State<W>): State<W> {
    match st.worker
    case Handling(m, todo) => HandlerStep(st, m, todo)
    case ClearingSelf(m, todo) => if st.posting.Some? then st else Clear(st).(worker := Handling(m, todo))
    case Finishing(m) => st.(handled := st.handled + [m], done := st.done + {st.current}, worker := AtLoopEnd)
    case _ => st
  }

  ghost function Step<W>(st: State<W>, e: Event<W>): State<W> {
    match e
    case Start =>
      if st.running || !st.worker.NotStarted? then st
      else st.(running := true, accepting := true, worker := AtQueue)
    case PostCheck(id, body) =>
      if st.posting.Some? || !st.running || !st.accepting then st
      else st.(posting := Some(Posted(id, body)))
    case PostPush =>
      if st.posting.None? then st else Push(st, st.posting.value).(posting := None)
    case Take =>
      if !st.worker.AtQueue? || st.posting.Some? || st.queue == [] then st
      else st.(queue := st.queue[1..], settled := st.settled + [Settled(st.queue[0], Taken)],
               current := |st.settled|, worker := Handling(st.queue[0], BodyOf(st.queue[0])))
    case Work => WorkStep(st)
    case LoopCheck =>
      if !st.worker.AtLoopEnd? then st else st.(worker := if st.running then AtQueue else Exited)
    case ClearAll => if st.posting.Some? then st else Clear(st)
    case StopTest => if st.stop.NoStop? && st.running then st.(stop := Tested) else st
    case StopFlag =>
      if !st.stop.Tested? || st.posting.Some? then st
      else Push(st, StopRequest).(accepting := false, stop := AwaitingMessage, stopTicket := |st.accepted|)
    case StopMessageDone =>
      if st.stop.AwaitingMessage? && st.stopTicket in st.done then st.(stop := Joining) else st
    case StopJoined =>
      if st.stop.Joining? && (st.worker.Exited? || st.detached) then st.(stop := Clearing) else st
    case StopClears =>
      if st.stop.Clearing? && st.posting.None? then Clear(st).(stop := Returned) else st
  }

  ghost function RunFrom<W>(st: State<W>, events: seq<Event<W>>): State<W> {
    if events == [] then st else Step(RunFrom(st, events[..|events| - 1]), events[|events| - 1])
  }

  ghost function Run<W>(world: W, events: seq<Event<W>>): State<W> {
    RunFrom(Init(world), events)
  }
}
