/** Stopping a message queue, from another thread and from a handler of its own: what each
    promises, and exactly when a stop returns.  No handler is excluded here. */
module MessageQueueStop {
  import opened Wrappers
  import opened MessageQueueModel
  import opened MessageQueueTheorems

  /** The stop's message has been pushed. */
  predicate IsFlagged(stop: StopPhase) {
    !stop.NoStop? && !stop.Tested?
  }

  // ----- Nothing is accepted after a stop -----

  /** Once the queue has stopped accepting, no poster is past its check and no stop is between
      its test and its push, nothing is accepted any more. */
  ghost predicate Closed<W>(st: State<W>) {
    && !st.accepting && st.posting.None? && !st.worker.NotStarted?
    && !st.stop.Tested? && (st.running ==> IsFlagged(st.stop))
  }

  lemma StepKeepsClosed<W>(st: State<W>, e: Event<W>)
    requires Closed(st)
    ensures Closed(Step(st, e)) && Step(st, e).accepted == st.accepted
  {
    if e.Work? && st.worker.Handling? {
      HandlerKeepsHistory(st, st.worker.message, st.worker.todo);
    }
  }

  lemma {:induction false} NothingAcceptedOnceClosed<W>(st: State<W>, events: seq<Event<W>>)
    requires Closed(st)
    ensures Closed(RunFrom(st, events)) && RunFrom(st, events).accepted == st.accepted
  {
    if events != [] {
      var n := |events| - 1;
      NothingAcceptedOnceClosed(st, events[..n]);
      StepKeepsClosed(RunFrom(st, events[..n]), events[n]);
    }
  }

  /** A stop closes the queue: no message is accepted after the flag, in any continuation. */
  lemma NothingAcceptedAfterStop<W>(st: State<W>, events: seq<Event<W>>)
    requires st.stop.Tested? && st.posting.None? && !st.worker.NotStarted?
    ensures RunFrom(Step(st, StopFlag), events).accepted == st.accepted + [StopRequest]
  {
    NothingAcceptedOnceClosed(Step(st, StopFlag), events);
  }

  // ----- Where the stop message is -----

  ghost predicate NoStopIn<W>(messages: seq<Message<W>>) {
    forall i | 0 <= i < |messages| :: messages[i].Posted?
  }

  /** The worker goes through the queue, with no end in sight yet. */
  ghost predicate Serves<W>(st: State<W>) {
    && st.running && !st.detached
    && (st.worker.AtQueue? || st.worker.AtLoopEnd?
        || ((st.worker.Handling? || st.worker.Finishing?) && st.worker.message.Posted?))
  }

  /** A handler has stopped the queue: the worker goes as far as the end of its handler. */
  ghost predicate SelfStopped<W>(st: State<W>) {
    && st.detached && !st.running && !st.accepting
    && (st.worker.AtLoopEnd? || st.worker.Exited? || (IsBusy(st.worker) && st.worker.message.Posted?))
  }

  /** The stop message is queued, behind everything else. */
  ghost predicate StopIsLast<W>(st: State<W>) {
    && st.stop.AwaitingMessage?
    && |st.queue| > 0 && st.queue[|st.queue| - 1].StopRequest? && NoStopIn(st.queue[..|st.queue| - 1])
    && st.stopTicket == |st.settled| + |st.queue| - 1
  }

  /** The worker handles the stop message, the last one, or has done so. */
  ghost predicate StopReached<W>(st: State<W>) {
    && st.queue == [] && !st.detached
    && match st.worker
       case Handling(m, todo) =>
         m.StopRequest? && todo == [] && st.running && st.current == st.stopTicket && st.stop.AwaitingMessage?
       case Finishing(m) =>
         m.StopRequest? && !st.running && st.current == st.stopTicket && st.stop.AwaitingMessage?
       case AtLoopEnd => !st.running && st.stopTicket in st.done
       case Exited => !st.running && st.stopTicket in st.done
       case _ => false
  }

  /** A clear has skipped the stop message, and the worker goes on without it. */
  ghost predicate StopLost<W>(st: State<W>) {
    && Serves(st) && NoStopIn(st.queue) && st.stopTicket in st.done
    && (st.stop.AwaitingMessage? || st.stop.Joining?)
  }

  /** A handler has stopped the queue and skipped the stop message, or will. */
  ghost predicate StopSkippedBySelf<W>(st: State<W>) {
    && SelfStopped(st)
    && if st.worker.ClearingSelf? then StopIsLast(st) || (NoStopIn(st.queue) && st.stopTicket in st.done)
       else st.queue == [] && st.stopTicket in st.done
  }

  /** The stop message was pushed after a handler had stopped and cleared the queue. */
  ghost predicate StopLate<W>(st: State<W>) {
    && SelfStopped(st) && !st.worker.ClearingSelf? && st.stop.AwaitingMessage?
    && st.queue == [StopRequest] && st.stopTicket == |st.settled|
  }

  ghost predicate BeforeFlag<W>(st: State<W>) {
    && NoStopIn(st.queue)
    && (st.posting.Some? ==> st.posting.value.Posted?)
    && if st.worker.NotStarted? then
         !st.running && !st.accepting && !st.detached && st.posting.None? && st.queue == [] && st.stop.NoStop?
       else if st.detached then
         SelfStopped(st) && (!st.worker.ClearingSelf? ==> st.queue == [] && st.posting.None?)
       else
         Serves(st)
  }

  ghost predicate StopPlace<W>(st: State<W>) {
    if !IsFlagged(st.stop) then BeforeFlag(st)
    else
      || (Serves(st) && StopIsLast(st)) || StopReached(st) || StopLost(st)
      || StopSkippedBySelf(st) || StopLate(st)
  }

  ghost predicate StopInv<W>(st: State<W>) {
    && |st.accepted| == |st.settled| + |st.queue|
    && (IsFlagged(st.stop) ==> !st.accepting && st.posting.None?)
    && (st.stop.Clearing? || st.stop.Returned? ==> st.worker.Exited? || st.detached)
    && (st.stop.Returned? ==> st.queue == [])
  }

  lemma StepKeepsStopInv<W>(st: State<W>, e: Event<W>)
    requires StopInv(st) && StopPlace(st)
    ensures StopInv(Step(st, e))
  {
    if e.Work? && st.worker.Handling? {
      HandlerKeepsHistory(st, st.worker.message, st.worker.todo);
    }
  }

  // -- Each step keeps the stop message in one of these places --

  lemma TakeKeepsPlace<W>(st: State<W>)
    requires StopInv(st) && MarksRight(st) && StopPlace(st)
    requires st.worker.AtQueue? && st.posting.None? && st.queue != []
    ensures StopPlace(Step(st, Take))
  {
    var rest := st.queue[1..];
    if IsFlagged(st.stop) && StopIsLast(st) && |st.queue| > 1 {
      assert st.queue[..|st.queue| - 1][0] == st.queue[0];
      assert rest[..|rest| - 1] == st.queue[..|st.queue| - 1][1..];
    }
  }

  lemma HandlerKeepsPlace<W>(st: State<W>)
    requires StopInv(st) && MarksRight(st) && WorkerInv(st) && StopPlace(st) && st.worker.Handling?
    ensures StopPlace(WorkStep(st))
  {
    HandlerKeepsHistory(st, st.worker.message, st.worker.todo);
  }

  lemma SelfClearKeepsPlace<W>(st: State<W>)
    requires StopInv(st) && MarksRight(st) && WorkerInv(st) && StopPlace(st) && st.worker.ClearingSelf?
    ensures StopPlace(WorkStep(st))
  {
  }

  lemma FinishKeepsPlace<W>(st: State<W>)
    requires StopInv(st) && MarksRight(st) && WorkerInv(st) && StopPlace(st) && st.worker.Finishing?
    ensures StopPlace(WorkStep(st))
  {
  }

  lemma ClearKeepsPlace<W>(st: State<W>)
    requires StopInv(st) && MarksRight(st) && StopPlace(st) && st.posting.None?
    ensures StopPlace(Clear(st))
  {
  }

  lemma FlagKeepsPlace<W>(st: State<W>)
    requires StopInv(st) && StopPlace(st) && st.stop.Tested? && st.posting.None?
    ensures StopPlace(Step(st, StopFlag))
  {
    assert (st.queue + [StopRequest])[..|st.queue|] == st.queue;
  }

  lemma StopperKeepsPlace<W>(st: State<W>, e: Event<W>)
    requires StopInv(st) && MarksRight(st) && StopPlace(st)
    requires e.StopMessageDone? || e.StopJoined? || e.StopClears?
    ensures StopPlace(Step(st, e))
  {
  }

  lemma StepKeepsPlace<W>(st: State<W>, e: Event<W>)
    requires StopInv(st) && MarksRight(st) && WorkerInv(st) && StopPlace(st)
    ensures StopPlace(Step(st, e))
  {
    match e
    case Take => if st.worker.AtQueue? && st.posting.None? && st.queue != [] { TakeKeepsPlace(st); }
    case Work =>
      if st.worker.Handling? {
        HandlerKeepsPlace(st);
      } else if st.worker.ClearingSelf? {
        SelfClearKeepsPlace(st);
      } else if st.worker.Finishing? {
        FinishKeepsPlace(st);
      }
    case ClearAll => if st.posting.None? { ClearKeepsPlace(st); }
    case StopFlag => if st.stop.Tested? && st.posting.None? { FlagKeepsPlace(st); }
    case StopMessageDone => StopperKeepsPlace(st, e);
    case StopJoined => StopperKeepsPlace(st, e);
    case StopClears => StopperKeepsPlace(st, e);
    case _ =>
  }

  /** All that is known of a state that a run leads to. */
  ghost predicate Reachable<W>(st: State<W>) {
    StopInv(st) && StopPlace(st) && OneFateEach(st) && MarksRight(st) && WorkerInv(st)
  }

  lemma StepKeepsReachable<W>(st: State<W>, e: Event<W>)
    requires Reachable(st)
    ensures Reachable(Step(st, e))
  {
    StepKeepsStopInv(st, e);
    StepKeepsPlace(st, e);
    StepKeepsFates(st, e);
    StepKeepsMarks(st, e);
    StepKeepsWorkerInv(st, e);
  }

  lemma {:induction false} EveryRunIsReachable<W>(world: W, events: seq<Event<W>>)
    ensures Reachable(Run(world, events))
  {
    if events != [] {
      var n := |events| - 1;
      EveryRunIsReachable(world, events[..n]);
      StepKeepsReachable(Run(world, events[..n]), events[n]);
    }
  }

  // ----- When a stop returns, everything accepted is done -----

  /** Every accepted message is handled or skipped, but the one in the worker's hands. */
  ghost predicate AllOthersDone<W>(st: State<W>) {
    && st.accepted == Messages(st.settled)
    && WithFate(st.settled, Taken) == st.handled + InHand(st)
    && (forall k: nat :: k in st.done <==> k < |st.accepted| && !(IsBusy(st.worker) && k == st.current))
  }

  lemma AllOthersDoneIsQueueEmpty<W>(st: State<W>)
    requires Reachable(st)
    ensures AllOthersDone(st) <==> st.queue == []
  {
    MessagesLength(st.settled);
    assert Messages(st.settled) + [] == Messages(st.settled);
  }

  lemma {:induction false} MessagesLength<W>(settled: seq<Settled<W>>)
    ensures |Messages(settled)| == |settled|
  {
    if settled != [] {
      MessagesLength(settled[..|settled| - 1]);
    }
  }

  /** When a stop from another thread returns, whatever was cleared and whatever handlers did,
      every accepted message is done and its caller may go on, except that of a worker that has
      stopped the queue itself and is still busy; otherwise the worker is gone. */
  lemma AllDoneWhenStopReturns<W>(world: W, events: seq<Event<W>>)
    requires Run(world, events).stop.Returned?
    ensures var st := Run(world, events);
            && AllOthersDone(st)
            && (st.worker.Exited? || st.detached)
            && (st.worker.Exited? ==> WithFate(st.settled, Taken) == st.handled)
  {
    EveryRunIsReachable(world, events);
    var st := Run(world, events);
    AllOthersDoneIsQueueEmpty(st);
    assert st.handled + [] == st.handled;
  }

  // ----- What the waiting handlers will do -----

  /** The waiting messages handled one after the other. */
  ghost function ExecRest<W>(c: Context<W>, queue: seq<Message<W>>): Context<W>
    decreases |queue|
  {
    if queue == [] then c else ExecRest(Exec(c, BodyOf(queue[0])), queue[1..])
  }

  /** One of the handlers in hand and in the queue stops the queue. */
  ghost predicate WillDetach<W>(st: State<W>) {
    ExecRest(Exec(Context(st.world, st.detached), Todo(st)), st.queue).detached
  }

  lemma {:induction false} ExecStaysDetached<W>(c: Context<W>, body: seq<Action<W>>)
    requires c.detached
    ensures Exec(c, body).detached
    decreases body
  {
    if body != [] {
      ExecFirst(c, body);
      match body[0] {
        case If(test, yes, no) => ExecStaysDetached(c, if test(c.world) then yes else no);
        case _ =>
      }
      ExecStaysDetached(ExecOne(c, body[0]), body[1..]);
    }
  }

  lemma {:induction false} RestStaysDetached<W>(c: Context<W>, queue: seq<Message<W>>)
    requires c.detached
    ensures ExecRest(c, queue).detached
    decreases |queue|
  {
    if queue != [] {
      ExecStaysDetached(c, BodyOf(queue[0]));
      RestStaysDetached(Exec(c, BodyOf(queue[0])), queue[1..]);
    }
  }

  lemma WorkKeepsPrediction<W>(st: State<W>)
    requires WorkerInv(st) && Serves(st)
    ensures WillDetach(WorkStep(st)) == WillDetach(st)
  {
    if st.worker.Handling? {
      HandlerKeepsExec(st, st.worker.message, st.worker.todo);
      HandlerKeepsHistory(st, st.worker.message, st.worker.todo);
    }
  }

  /** A step of a serving queue that accepts nothing does not change what its handlers will do;
      only a clear can, by skipping the one that would have stopped it. */
  lemma StepKeepsPrediction<W>(st: State<W>, e: Event<W>)
    requires WorkerInv(st) && Serves(st) && st.posting.None? && !st.accepting && IsFlagged(st.stop)
    ensures WillDetach(Step(st, e)) ==> WillDetach(st)
    ensures !e.ClearAll? && !e.StopClears? ==> WillDetach(Step(st, e)) == WillDetach(st)
  {
    if e.Work? {
      WorkKeepsPrediction(st);
    } else if e.ClearAll? || e.StopClears? {
      var c := Exec(Context(st.world, st.detached), Todo(st));
      if c.detached {
        RestStaysDetached(c, st.queue);
      }
    }
  }

  // ----- Exactly when a stop returns -----

  /** How many steps a handler can still take. */
  ghost function Weight<W>(body: seq<Action<W>>): nat {
    if body == [] then 0
    else
      (match body[0]
       case If(_, yes, no) => Weight(yes) + Weight(no)
       case Call(inner) => Weight(inner)
       case StopSelf => 1
       case Do(_) => 0) + 1 + Weight(body[1..])
  }

  ghost function QueueWeight<W>(queue: seq<Message<W>>): nat {
    if queue == [] then 0 else Weight(BodyOf(queue[0])) + 4 + QueueWeight(queue[1..])
  }

  ghost function WorkerWeight<W>(worker: Worker<W>): nat {
    match worker
    case Handling(_, todo) => Weight(todo) + 3
    case ClearingSelf(_, todo) => Weight(todo) + 4
    case Finishing(_) => 2
    case AtLoopEnd => 1
    case _ => 0
  }

  function PhaseWeight(stop: StopPhase): nat {
    match stop
    case AwaitingMessage => 3
    case Joining => 2
    case Clearing => 1
    case _ => 0
  }

  /** The steps that all threads together can still take once a stop is flagged. */
  ghost function Pending<W>(st: State<W>): nat {
    QueueWeight(st.queue) + WorkerWeight(st.worker) + PhaseWeight(st.stop)
  }

  lemma {:induction false} WeightJoins<W>(a: seq<Action<W>>, b: seq<Action<W>>)
    ensures Weight(a + b) == Weight(a) + Weight(b)
  {
    if a == [] {
      assert a + b == b;
    } else {
      assert (a + b)[0] == a[0] && (a + b)[1..] == a[1..] + b;
      WeightJoins(a[1..], b);
    }
  }

  lemma HandlerStepCounts<W>(st: State<W>, m: Message<W>, todo: seq<Action<W>>)
    requires st.worker == Handling(m, todo)
    ensures WorkerWeight(HandlerStep(st, m, todo).worker) < WorkerWeight(st.worker)
  {
    if todo != [] {
      match todo[0]
      case If(test, yes, no) => WeightJoins(if test(st.world) then yes else no, todo[1..]);
      case Call(body) => WeightJoins(if st.detached then [] else body, todo[1..]);
      case _ =>
    }
  }

  lemma ClearOfNothing<W>(st: State<W>)
    requires st.queue == []
    ensures Clear(st) == st
  {
    assert st.settled + AllSkipped(st.queue) == st.settled;
    assert st.done + Tickets(|st.settled|, |st.settled|) == st.done;
  }

  /** Once a stop is flagged, each step of any thread changes nothing or uses up one of the
      pending steps. */
  lemma EveryStepCounts<W>(st: State<W>, e: Event<W>)
    requires Reachable(st) && IsFlagged(st.stop)
    ensures Step(st, e) == st || Pending(Step(st, e)) < Pending(st)
    ensures IsFlagged(Step(st, e).stop)
  {
    match e
    case Work =>
      if st.worker.Handling? {
        HandlerKeepsHistory(st, st.worker.message, st.worker.todo);
        HandlerStepCounts(st, st.worker.message, st.worker.todo);
      }
    case ClearAll => if st.queue == [] { ClearOfNothing(st); }
    case _ =>
  }

  /** The stop is under way and on its way to its end. */
  ghost predicate WillReturn<W>(st: State<W>) {
    IsFlagged(st.stop) && !StopLate(st) && (StopLost(st) ==> WillDetach(st))
  }

  /** The step that brings a stop on. */
  ghost function NextStep<W>(st: State<W>): Event<W> {
    match st.worker
    case AtQueue => Take
    case AtLoopEnd => LoopCheck
    case Exited =>
      (match st.stop
       case AwaitingMessage => StopMessageDone
       case Joining => StopJoined
       case _ => StopClears)
    case _ => Work
  }

  lemma NextStepCounts<W>(st: State<W>)
    requires Reachable(st) && WillReturn(st) && !st.stop.Returned?
    ensures Step(st, NextStep(st)) != st
  {
    if st.worker.Handling? {
      HandlerStepCounts(st, st.worker.message, st.worker.todo);
    }
  }

  /** Without a clear, a stop on its way stays on it, and one that is not never gets there. */
  lemma StepKeepsWillReturn<W>(st: State<W>, e: Event<W>)
    requires Reachable(st) && IsFlagged(st.stop) && !e.ClearAll?
    ensures WillReturn(Step(st, e)) <==> WillReturn(st)
  {
    StepKeepsReachable(st, e);
    EveryStepCounts(st, e);
    if StopLost(st) {
      StepKeepsPrediction(st, e);
      LostStep(st, e);
    } else if StopLate(st) {
      LateStep(st, e);
    } else {
      GoodStep(st, e);
    }
  }

  lemma LostStep<W>(st: State<W>, e: Event<W>)
    requires Reachable(st) && StopLost(st) && !e.ClearAll?
    ensures StopLost(Step(st, e)) || (Step(st, e).detached && WillReturn(Step(st, e)) && WillDetach(Step(st, e)))
  {
    if e.Work? && st.worker.Handling? {
      HandlerKeepsHistory(st, st.worker.message, st.worker.todo);
      var st' := Step(st, e);
      if st'.detached {
        var c := Context(st'.world, true);
        ExecStaysDetached(c, Todo(st'));
        RestStaysDetached(Exec(c, Todo(st')), st'.queue);
      }
    }
  }

  lemma LateStep<W>(st: State<W>, e: Event<W>)
    requires Reachable(st) && StopLate(st) && !e.ClearAll?
    ensures StopLate(Step(st, e))
  {
    if e.Work? && st.worker.Handling? {
      HandlerKeepsHistory(st, st.worker.message, st.worker.todo);
    }
  }

  lemma GoodStep<W>(st: State<W>, e: Event<W>)
    requires Reachable(st) && IsFlagged(st.stop) && !StopLate(st) && !StopLost(st) && !e.ClearAll?
    ensures !StopLate(Step(st, e)) && !StopLost(Step(st, e))
  {
    if e.Work? && st.worker.Handling? {
      HandlerKeepsHistory(st, st.worker.message, st.worker.todo);
    }
  }

  lemma RunGrows<W>(world: W, events: seq<Event<W>>, e: Event<W>)
    ensures Run(world, events + [e]) == Step(Run(world, events), e)
  {
    assert (events + [e])[..|events|] == events;
  }

  ghost predicate NoClear<W>(events: seq<Event<W>>) {
    forall i | 0 <= i < |events| :: !events[i].ClearAll?
  }

  lemma NextStepBringsItOn<W>(world: W, events: seq<Event<W>>)
    requires WillReturn(Run(world, events)) && !Run(world, events).stop.Returned?
    ensures var e := NextStep(Run(world, events));
            && !e.ClearAll? && WillReturn(Run(world, events + [e]))
            && Pending(Run(world, events + [e])) < Pending(Run(world, events))
  {
    var st := Run(world, events);
    var e := NextStep(st);
    EveryRunIsReachable(world, events);
    NextStepCounts(st);
    EveryStepCounts(st, e);
    StepKeepsWillReturn(st, e);
    RunGrows(world, events, e);
  }

  /** A stop that is on its way can be brought to its end without anybody's help. */
  lemma {:induction false} StopCanReturn<W>(world: W, events: seq<Event<W>>) returns (more: seq<Event<W>>)
    requires WillReturn(Run(world, events))
    ensures NoClear(more) && Run(world, events + more).stop.Returned?
    decreases Pending(Run(world, events))
  {
    if Run(world, events).stop.Returned? {
      more := [];
      assert events + more == events;
    } else {
      var e := NextStep(Run(world, events));
      NextStepBringsItOn(world, events);
      var rest := StopCanReturn(world, events + [e]);
      more := [e] + rest;
      assert events + more == events + [e] + rest;
    }
  }

  lemma OneMoreStep<W>(world: W, events: seq<Event<W>>, e: Event<W>)
    requires IsFlagged(Run(world, events).stop) && !e.ClearAll?
    ensures IsFlagged(Run(world, events + [e]).stop)
    ensures WillReturn(Run(world, events + [e])) <==> WillReturn(Run(world, events))
  {
    EveryRunIsReachable(world, events);
    EveryStepCounts(Run(world, events), e);
    StepKeepsWillReturn(Run(world, events), e);
    RunGrows(world, events, e);
  }

  lemma {:induction false} WillReturnIsDecided<W>(world: W, events: seq<Event<W>>, more: seq<Event<W>>)
    requires IsFlagged(Run(world, events).stop) && NoClear(more)
    ensures IsFlagged(Run(world, events + more).stop)
    ensures WillReturn(Run(world, events + more)) <==> WillReturn(Run(world, events))
  {
    if more == [] {
      assert events + more == events;
    } else {
      var n := |more| - 1;
      WillReturnIsDecided(world, events, more[..n]);
      OneMoreStep(world, events + more[..n], more[n]);
      assert events + more == events + more[..n] + [more[n]];
    }
  }

  /** In every run, whatever handlers do: a flagged stop can return without the help of a clear
      if and only if its message was not pushed after a handler had stopped and cleared the
      queue, and was not skipped by a clear with no waiting handler that stops the queue. */
  lemma StopReturnsExactly<W>(world: W, events: seq<Event<W>>)
    requires IsFlagged(Run(world, events).stop)
    ensures var st := Run(world, events);
            (exists more | NoClear(more) :: Run(world, events + more).stop.Returned?)
            <==> !StopLate(st) && (StopLost(st) ==> WillDetach(st))
  {
    if WillReturn(Run(world, events)) {
      var more := StopCanReturn(world, events);
    } else {
      forall more | NoClear(more)
        ensures !Run(world, events + more).stop.Returned?
      {
        WillReturnIsDecided(world, events, more);
      }
    }
  }

  // -- Every schedule brings it there --

  /** Each step of the schedule changes something. */
  ghost predicate EachStepCounts<W>(world: W, events: seq<Event<W>>, more: seq<Event<W>>) {
    more == [] ||
    (var n := |more| - 1;
     EachStepCounts(world, events, more[..n])
     && Step(Run(world, events + more[..n]), more[n]) != Run(world, events + more[..n]))
  }

  /** One more effective step. */
  lemma ScheduleStep<W>(world: W, events: seq<Event<W>>, e: Event<W>)
    requires IsFlagged(Run(world, events).stop)
    requires Step(Run(world, events), e) != Run(world, events)
    ensures IsFlagged(Run(world, events + [e]).stop)
    ensures Pending(Run(world, events + [e])) < Pending(Run(world, events))
  {
    EveryRunIsReachable(world, events);
    EveryStepCounts(Run(world, events), e);
    RunGrows(world, events, e);
  }

  lemma {:induction false} ScheduleIsBounded<W>(world: W, events: seq<Event<W>>, more: seq<Event<W>>)
    requires IsFlagged(Run(world, events).stop) && EachStepCounts(world, events, more)
    ensures IsFlagged(Run(world, events + more).stop)
    ensures |more| + Pending(Run(world, events + more)) <= Pending(Run(world, events))
  {
    if more == [] {
      assert events + more == events;
    } else {
      var n := |more| - 1;
      var before, e := more[..n], more[n];
      assert events + more == (events + before) + [e];
      assert EachStepCounts(world, events, before);
      ScheduleIsBounded(world, events, before);
      ScheduleStep(world, events + before, e);
    }
  }

  /** Whatever the schedule: without idle steps it is no longer than Pending, clears included,
      and when no thread can take another step but a clear, the stop has returned, unless its
      message came too late or was skipped with nobody left to stop the queue. */
  lemma EveryScheduleReturns<W>(world: W, events: seq<Event<W>>, more: seq<Event<W>>)
    requires IsFlagged(Run(world, events).stop) && EachStepCounts(world, events, more)
    ensures |more| <= Pending(Run(world, events))
    ensures var st := Run(world, events + more);
            (forall e: Event<W> | !e.ClearAll? :: Step(st, e) == st)
            ==> st.stop.Returned? || StopLate(st) || (StopLost(st) && !WillDetach(st))
  {
    ScheduleIsBounded(world, events, more);
    var st := Run(world, events + more);
    if !st.stop.Returned? && WillReturn(st) {
      EveryRunIsReachable(world, events + more);
      NextStepCounts(st);
      assert !NextStep(st).ClearAll?;
    }
  }

  // -- The two ways to hang --

  lemma LostForGood<W>(st: State<W>, e: Event<W>)
    requires Reachable(st) && StopLost(st) && !WillDetach(st)
    ensures StopLost(Step(st, e)) && !WillDetach(Step(st, e))
  {
    StepKeepsPrediction(st, e);
    if !e.ClearAll? {
      LostStep(st, e);
    }
  }

  /** Started, tested, flagged and cleared with nothing else in the queue. */
  ghost function ClearedStop<W>(): seq<Event<W>> {
    [Start, StopTest, StopFlag, ClearAll]
  }

  lemma ClearedStopIsLost<W>(world: W)
    ensures var st := Run<W>(world, ClearedStop()); StopLost(st) && !WillDetach(st)
  {
    var none: seq<Event<W>>, events: seq<Event<W>> := [], ClearedStop();
    assert none + [Start] == events[..1];
    RunGrows(world, none, Start);
    assert events[..1] + [StopTest] == events[..2];
    RunGrows(world, events[..1], StopTest);
    assert events[..2] + [StopFlag] == events[..3];
    RunGrows(world, events[..2], StopFlag);
    assert events[..3] + [ClearAll] == events;
    RunGrows(world, events[..3], ClearAll);
  }

  /** A clear while the stop message is queued: in every continuation, further clears and any
      handlers included, the stop does not return. */
  lemma {:induction false} ClearedStopNeverReturns<W>(world: W, more: seq<Event<W>>)
    ensures var st := Run(world, ClearedStop() + more); StopLost(st) && !WillDetach(st) && !st.stop.Returned?
  {
    var events: seq<Event<W>> := ClearedStop();
    if more == [] {
      assert events + more == events;
      ClearedStopIsLost(world);
    } else {
      var n := |more| - 1;
      ClearedStopNeverReturns(world, more[..n]);
      EveryRunIsReachable(world, events + more[..n]);
      LostForGood(Run(world, events + more[..n]), more[n]);
      RunGrows(world, events + more[..n], more[n]);
      assert events + more == events + more[..n] + [more[n]];
    }
  }

  /** A stop passes its test, a handler stops and clears the queue, and only then the stop
      takes the lock. */
  ghost function LateStop<W>(): seq<Event<W>> {
    [Start, PostCheck(1, [StopSelf]), PostPush, Take, StopTest, Work, Work, StopFlag]
  }

  lemma LateStopGoesFirst<W>(world: W)
    ensures var st := Run<W>(world, LateStop()[..5]);
            st == State(world, [], true, true, None, Handling(Posted(1, [StopSelf]), [StopSelf]), false, 0, {}, Tested, 0,
                        [Posted(1, [StopSelf])], [Settled(Posted(1, [StopSelf]), Taken)], [])
  {
    var none: seq<Event<W>>, events: seq<Event<W>> := [], LateStop();
    assert none + [Start] == events[..1];
    RunGrows(world, none, Start);
    assert events[..1] + [events[1]] == events[..2];
    RunGrows(world, events[..1], events[1]);
    assert events[..2] + [PostPush] == events[..3];
    RunGrows(world, events[..2], PostPush);
    assert events[..3] + [Take] == events[..4];
    RunGrows(world, events[..3], Take);
    assert events[..4] + [StopTest] == events[..5];
    RunGrows(world, events[..4], StopTest);
  }

  /** The stop hangs: it returns in no continuation in which nobody clears the queue. */
  lemma LateStopNeverReturns<W>(world: W, more: seq<Event<W>>)
    requires NoClear(more)
    ensures StopLate(Run<W>(world, LateStop()))
    ensures !Run(world, LateStop() + more).stop.Returned?
  {
    var events: seq<Event<W>> := LateStop();
    LateStopGoesFirst(world);
    assert events[..5] + [Work] == events[..6];
    RunGrows(world, events[..5], Work);
    assert events[..6] + [Work] == events[..7];
    RunGrows(world, events[..6], Work);
    assert events[..7] + [StopFlag] == events;
    RunGrows(world, events[..7], StopFlag);
    WillReturnIsDecided(world, events, more);
  }

  // ----- A handler that stops the queue -----

  /** A handler has stopped its own queue and cleared it. */
  ghost predicate HasStoppedItself<W>(st: State<W>) {
    st.detached && !st.worker.ClearingSelf?
  }

  lemma SelfStoppedStep<W>(st: State<W>, e: Event<W>)
    requires Reachable(st) && HasStoppedItself(st) && st.queue == [] && !st.stop.Tested?
    ensures HasStoppedItself(Step(st, e)) && Step(st, e).queue == [] && !Step(st, e).stop.Tested?
  {
    if e.Work? && st.worker.Handling? {
      HandlerKeepsHistory(st, st.worker.message, st.worker.todo);
    }
  }

  lemma {:induction false} SelfStoppedStays<W>(world: W, events: seq<Event<W>>, more: seq<Event<W>>)
    requires var st := Run(world, events); HasStoppedItself(st) && st.queue == [] && !st.stop.Tested?
    ensures var st := Run(world, events + more); HasStoppedItself(st) && st.queue == [] && !st.stop.Tested?
  {
    if more == [] {
      assert events + more == events;
    } else {
      var n := |more| - 1;
      SelfStoppedStays(world, events, more[..n]);
      EveryRunIsReachable(world, events + more[..n]);
      SelfStoppedStep(Run(world, events + more[..n]), more[n]);
      RunGrows(world, events + more[..n], more[n]);
      assert events + more == events + more[..n] + [more[n]];
    }
  }

  /** When a handler has stopped its own queue, every other accepted message is done, but for
      the message of a stop that came too late; and it stays that way in every continuation if
      and only if no stop is between its test and its push. */
  lemma SelfStopFinishesEveryOtherMessage<W>(world: W, events: seq<Event<W>>)
    requires HasStoppedItself(Run(world, events))
    ensures var st := Run(world, events);
            && (AllOthersDone(st) || StopLate(st))
            && ((forall more :: AllOthersDone(Run(world, events + more))) <==> !StopLate(st) && !st.stop.Tested?)
  {
    var st := Run(world, events);
    EveryRunIsReachable(world, events);
    AllOthersDoneIsQueueEmpty(st);
    if !StopLate(st) && !st.stop.Tested? {
      forall more
        ensures AllOthersDone(Run(world, events + more))
      {
        SelfStoppedStays(world, events, more);
        EveryRunIsReachable(world, events + more);
        AllOthersDoneIsQueueEmpty(Run(world, events + more));
      }
    } else {
      var more: seq<Event<W>> := if StopLate(st) then [] else [StopFlag];
      if StopLate(st) {
        assert events + more == events;
      }
      RunGrows(world, events, StopFlag);
      EveryRunIsReachable(world, events + more);
      AllOthersDoneIsQueueEmpty(Run(world, events + more));
    }
  }
}
