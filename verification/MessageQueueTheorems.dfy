/** Fates and atomicity: what holds of the message queue in every interleaving. */
module MessageQueueTheorems {
  import opened Wrappers
  import opened MessageQueueModel

  // ----- Every accepted message has one fate, in order -----

  ghost function Messages<W>(settled: seq<Settled<W>>): seq<Message<W>> {
    if settled == [] then [] else Messages(settled[..|settled| - 1]) + [settled[|settled| - 1].message]
  }

  ghost function WithFate<W>(settled: seq<Settled<W>>, fate: Fate): seq<Message<W>> {
    if settled == [] then []
    else
      var s := settled[|settled| - 1];
      WithFate(settled[..|settled| - 1], fate) + if s.fate == fate then [s.message] else []
  }

  predicate IsBusy<W>(worker: Worker<W>) {
    worker.Handling? || worker.ClearingSelf? || worker.Finishing?
  }

  /** The message in the worker's hands. */
  ghost function InHand<W>(st: State<W>): seq<Message<W>> {
    if IsBusy(st.worker) then [st.worker.message] else []
  }

  /** The accepted messages are the settled ones followed by the queued ones; the settled ones
      that were taken are those handled, in that order, and the one in the worker's hands. */
  ghost predicate OneFateEach<W>(st: State<W>) {
    && st.accepted == Messages(st.settled) + st.queue
    && WithFate(st.settled, Taken) == st.handled + InHand(st)
  }

  /** Exactly the callers of the handled and the skipped messages may go on. */
  ghost predicate MarksRight<W>(st: State<W>) {
    && (IsBusy(st.worker) ==> st.current < |st.settled|)
    && forall k: nat :: k in st.done <==> k < |st.settled| && !(IsBusy(st.worker) && k == st.current)
  }

  lemma SettledGrows<W>(settled: seq<Settled<W>>, s: Settled<W>)
    ensures Messages(settled + [s]) == Messages(settled) + [s.message]
    ensures forall fate :: WithFate(settled + [s], fate) ==
                           WithFate(settled, fate) + if s.fate == fate then [s.message] else []
  {
    assert (settled + [s])[..|settled|] == settled;
  }

  lemma SkippedGrows<W>(queue: seq<Message<W>>, m: Message<W>)
    ensures AllSkipped(queue + [m]) == AllSkipped(queue) + [Settled(m, Skipped)]
  {
  }

  lemma {:induction false} SkippingSettles<W>(settled: seq<Settled<W>>, queue: seq<Message<W>>)
    ensures Messages(settled + AllSkipped(queue)) == Messages(settled) + queue
    ensures WithFate(settled + AllSkipped(queue), Taken) == WithFate(settled, Taken)
  {
    if queue == [] {
      assert settled + AllSkipped(queue) == settled;
    } else {
      var n := |queue| - 1;
      var before, m := queue[..n], queue[n];
      SkippingSettles(settled, before);
      SettledGrows(settled + AllSkipped(before), Settled(m, Skipped));
      SkippedGrows(before, m);
      assert queue == before + [m];
      assert settled + AllSkipped(queue) == settled + AllSkipped(before) + [Settled(m, Skipped)];
      assert Messages(settled) + before + [m] == Messages(settled) + queue;
    }
  }

  lemma ClearKeepsFates<W>(st: State<W>)
    requires OneFateEach(st)
    ensures OneFateEach(Clear(st))
  {
    SkippingSettles(st.settled, st.queue);
  }

  lemma TakeKeepsFates<W>(st: State<W>)
    requires OneFateEach(st)
    requires st.worker.AtQueue? && st.posting.None? && st.queue != []
    ensures OneFateEach(Step(st, Take))
  {
    var m, rest := st.queue[0], st.queue[1..];
    SettledGrows(st.settled, Settled(m, Taken));
    assert st.queue == [m] + rest;
    assert Messages(st.settled) + ([m] + rest) == Messages(st.settled) + [m] + rest;
    assert InHand(st) == [] && st.handled + [] == st.handled;
  }

  lemma PushKeepsFates<W>(st: State<W>, m: Message<W>)
    requires OneFateEach(st)
    ensures OneFateEach(Push(st, m))
  {
    assert Messages(st.settled) + (st.queue + [m]) == Messages(st.settled) + st.queue + [m];
  }

  /** A handler's step only touches the client, the flags and what is left to do. */
  lemma HandlerKeepsHistory<W>(st: State<W>, m: Message<W>, todo: seq<Action<W>>)
    requires st.worker == Handling(m, todo)
    ensures var st' := HandlerStep(st, m, todo);
            && IsBusy(st'.worker) && st'.worker.message == m
            && st' == st.(world := st'.world, worker := st'.worker, running := st'.running,
                          accepting := st'.accepting, detached := st'.detached)
  {
  }

  lemma WorkKeepsFates<W>(st: State<W>)
    requires OneFateEach(st)
    ensures OneFateEach(WorkStep(st))
  {
    match st.worker
    case ClearingSelf(_, _) => ClearKeepsFates(st);
    case Finishing(m) => assert st.handled + [m] + [] == st.handled + [m];
    case Handling(m, todo) => HandlerKeepsHistory(st, m, todo);
    case _ =>
  }

  lemma StepKeepsFates<W>(st: State<W>, e: Event<W>)
    requires OneFateEach(st)
    ensures OneFateEach(Step(st, e))
  {
    match e
    case Take => if st.worker.AtQueue? && st.posting.None? && st.queue != [] { TakeKeepsFates(st); }
    case PostPush => if st.posting.Some? { PushKeepsFates(st, st.posting.value); }
    case StopFlag => PushKeepsFates(st, StopRequest);
    case Work => WorkKeepsFates(st);
    case ClearAll => ClearKeepsFates(st);
    case StopClears => ClearKeepsFates(st);
    case _ =>
  }

  lemma StepKeepsMarks<W>(st: State<W>, e: Event<W>)
    requires MarksRight(st)
    ensures MarksRight(Step(st, e))
  {
    if e.Work? && st.worker.Handling? {
      HandlerKeepsHistory(st, st.worker.message, st.worker.todo);
    }
  }

  /** In every interleaving each accepted message is handled once, in acceptance order, or
      skipped once, never both, and its caller waits until then and no longer. */
  lemma {:induction false} EveryMessageHasOneFate<W>(world: W, events: seq<Event<W>>)
    ensures OneFateEach(Run(world, events)) && MarksRight(Run(world, events))
  {
    if events != [] {
      var n := |events| - 1;
      EveryMessageHasOneFate(world, events[..n]);
      StepKeepsFates(Run(world, events[..n]), events[n]);
      StepKeepsMarks(Run(world, events[..n]), events[n]);
    }
  }

  // ----- Atomicity -----

  /** The client, and whether a handler has detached the worker. */
  datatype Context<W> = Context(world: W, detached: bool)

  /** A handler run on its own, nested calls included. */
  ghost function Exec<W>(c: Context<W>, body: seq<Action<W>>): Context<W>
    decreases body
  {
    if body == [] then c
    else
      var next := match body[0]
        case Do(run) => c.(world := run(c.world))
        case If(test, yes, no) => if test(c.world) then Exec(c, yes) else Exec(c, no)
        case Call(inner) => if c.detached then c else Exec(c, inner)
        case StopSelf => c.(detached := true);
      Exec(next, body[1..])
  }

  ghost function ExecOne<W>(c: Context<W>, action: Action<W>): Context<W> {
    match action
    case Do(run) => c.(world := run(c.world))
    case If(test, yes, no) => if test(c.world) then Exec(c, yes) else Exec(c, no)
    case Call(inner) => if c.detached then c else Exec(c, inner)
    case StopSelf => c.(detached := true)
  }

  lemma ExecFirst<W>(c: Context<W>, body: seq<Action<W>>)
    requires body != []
    ensures Exec(c, body) == Exec(ExecOne(c, body[0]), body[1..])
  {
  }

  /** Whole messages handled one after the other. */
  ghost function ExecAll<W>(world: W, messages: seq<Message<W>>): Context<W> {
    if messages == [] then Context(world, false)
    else Exec(ExecAll(world, messages[..|messages| - 1]), BodyOf(messages[|messages| - 1]))
  }

  lemma {:induction false} ExecJoins<W>(c: Context<W>, a: seq<Action<W>>, b: seq<Action<W>>)
    ensures Exec(c, a + b) == Exec(Exec(c, a), b)
    decreases a
  {
    if a == [] {
      assert a + b == b;
    } else {
      var next := ExecOne(c, a[0]);
      assert (a + b)[0] == a[0] && (a + b)[1..] == a[1..] + b;
      ExecFirst(c, a);
      ExecFirst(c, a + b);
      ExecJoins(next, a[1..], b);
    }
  }

  lemma ExecAllGrows<W>(world: W, messages: seq<Message<W>>, m: Message<W>)
    ensures ExecAll(world, messages + [m]) == Exec(ExecAll(world, messages), BodyOf(m))
  {
    assert (messages + [m])[..|messages|] == messages;
  }

  /** What the handler in the worker's hands still has to do. */
  ghost function Todo<W>(st: State<W>): seq<Action<W>> {
    if st.worker.Handling? || st.worker.ClearingSelf? then st.worker.todo else []
  }

  /** A handler that is not the stop's finds the queue running until it stops it itself. */
  ghost predicate WorkerInv<W>(st: State<W>) {
    && (st.detached ==> !st.running && !st.worker.AtQueue? && !st.worker.NotStarted?)
    && (st.worker.ClearingSelf? ==> st.detached && st.worker.message.Posted?)
    && (st.worker.AtQueue? ==> st.running)
    && (st.worker.Handling? ==>
          if st.worker.message.Posted? then st.running || st.detached else st.worker.todo == [])
  }

  lemma HandlerKeepsWorkerInv<W>(st: State<W>, m: Message<W>, todo: seq<Action<W>>)
    requires st.worker == Handling(m, todo) && WorkerInv(st)
    ensures WorkerInv(HandlerStep(st, m, todo))
  {
  }

  lemma StepKeepsWorkerInv<W>(st: State<W>, e: Event<W>)
    requires WorkerInv(st)
    ensures WorkerInv(Step(st, e))
  {
    if e.Work? && st.worker.Handling? {
      HandlerKeepsWorkerInv(st, st.worker.message, st.worker.todo);
    }
  }

  /** Finishing the handler in the worker's hands leads to where whole messages lead. */
  ghost predicate LooksAtomic<W>(world: W, st: State<W>) {
    Exec(Context(st.world, st.detached), Todo(st)) == ExecAll(world, st.handled + InHand(st))
  }

  lemma HandlerKeepsExec<W>(st: State<W>, m: Message<W>, todo: seq<Action<W>>)
    requires st.worker == Handling(m, todo) && WorkerInv(st)
    ensures var st' := HandlerStep(st, m, todo);
            Exec(Context(st'.world, st'.detached), Todo(st')) == Exec(Context(st.world, st.detached), todo)
  {
    if todo != [] {
      var c, rest := Context(st.world, st.detached), todo[1..];
      match todo[0]
      case If(test, yes, no) => ExecJoins(c, if test(st.world) then yes else no, rest);
      case Call(body) => ExecJoins(c, if st.detached then [] else body, rest);
      case _ =>
    }
  }

  lemma WorkKeepsAtomic<W>(world: W, st: State<W>)
    requires LooksAtomic(world, st) && WorkerInv(st)
    ensures LooksAtomic(world, WorkStep(st))
  {
    match st.worker
    case Handling(m, todo) =>
      HandlerKeepsExec(st, m, todo);
      HandlerKeepsHistory(st, m, todo);
    case Finishing(m) => assert st.handled + [m] + [] == st.handled + [m];
    case _ =>
  }

  lemma TakeKeepsAtomic<W>(world: W, st: State<W>)
    requires LooksAtomic(world, st) && st.worker.AtQueue? && st.posting.None? && st.queue != []
    ensures LooksAtomic(world, Step(st, Take))
  {
    assert st.handled + [] == st.handled;
    ExecAllGrows(world, st.handled, st.queue[0]);
  }

  /** Only the worker's own steps touch the client and what is left to do. */
  lemma OtherStepKeepsClient<W>(st: State<W>, e: Event<W>)
    requires !e.Take? && !e.Work?
    ensures var st' := Step(st, e);
            && st'.world == st.world && st'.detached == st.detached && st'.handled == st.handled
            && (st'.worker == st.worker || (Todo(st) == Todo(st') == [] && !IsBusy(st.worker) && !IsBusy(st'.worker)))
  {
  }

  lemma StepKeepsAtomic<W>(world: W, st: State<W>, e: Event<W>)
    requires LooksAtomic(world, st) && WorkerInv(st)
    ensures LooksAtomic(world, Step(st, e))
  {
    match e
    case Take => if st.worker.AtQueue? && st.posting.None? && st.queue != [] { TakeKeepsAtomic(world, st); }
    case Work => WorkKeepsAtomic(world, st);
    case _ => OtherStepKeepsClient(st, e);
  }

  /** In every interleaving the client is where an atomic run of the handled messages in queue
      order leads, up to the message in the worker's hands. */
  lemma {:induction false} RunIsAtomic<W>(world: W, events: seq<Event<W>>)
    ensures LooksAtomic(world, Run(world, events)) && WorkerInv(Run(world, events))
  {
    if events != [] {
      var n := |events| - 1;
      RunIsAtomic(world, events[..n]);
      StepKeepsWorkerInv(Run(world, events[..n]), events[n]);
      StepKeepsAtomic(world, Run(world, events[..n]), events[n]);
    }
  }
}
