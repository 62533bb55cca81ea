/** Message queues whose handlers do not stop them: then a stop from another thread skips
    nothing unless somebody clears, and only a clear can make it hang. */
module MessageQueueCalm {
  import opened Wrappers
  import opened MessageQueueModel
  import opened MessageQueueTheorems
  import opened MessageQueueStop

  // ----- No handler stops the queue from its own thread -----

  predicate IsCalm<W>(body: seq<Action<W>>) {
    body == [] ||
    (&& (match body[0]
         case Do(_) => true
         case If(_, yes, no) => IsCalm(yes) && IsCalm(no)
         case Call(inner) => IsCalm(inner)
         case StopSelf => false)
     && IsCalm(body[1..]))
  }

  ghost predicate CalmEvents<W>(events: seq<Event<W>>) {
    forall i | 0 <= i < |events| && events[i].PostCheck? :: IsCalm(events[i].body)
  }

  lemma {:induction false} CalmJoins<W>(a: seq<Action<W>>, b: seq<Action<W>>)
    requires IsCalm(a) && IsCalm(b)
    ensures IsCalm(a + b)
  {
    if a == [] {
      assert a + b == b;
    } else {
      assert (a + b)[0] == a[0] && (a + b)[1..] == a[1..] + b;
      CalmJoins(a[1..], b);
    }
  }

  ghost predicate NoSelfStop<W>(st: State<W>) {
    && !st.detached
    && (forall i | 0 <= i < |st.queue| :: IsCalm(BodyOf(st.queue[i])))
    && (st.posting.Some? ==> IsCalm(BodyOf(st.posting.value)))
    && !st.worker.ClearingSelf?
    && (st.worker.Handling? ==> IsCalm(st.worker.todo))
  }

  lemma HandlerKeepsNoSelfStop<W>(st: State<W>, m: Message<W>, todo: seq<Action<W>>)
    requires st.worker == Handling(m, todo) && NoSelfStop(st)
    ensures NoSelfStop(HandlerStep(st, m, todo))
  {
    if todo != [] {
      match todo[0]
      case If(test, yes, no) => CalmJoins(if test(st.world) then yes else no, todo[1..]);
      case Call(body) => CalmJoins(body, todo[1..]);
      case _ =>
    }
  }

  lemma StepKeepsNoSelfStop<W>(st: State<W>, e: Event<W>)
    requires NoSelfStop(st) && (e.PostCheck? ==> IsCalm(e.body))
    ensures NoSelfStop(Step(st, e))
  {
    if e.Work? && st.worker.Handling? {
      HandlerKeepsNoSelfStop(st, st.worker.message, st.worker.todo);
    }
  }

  lemma CalmPrefix<W>(events: seq<Event<W>>, n: nat)
    requires CalmEvents(events) && n <= |events|
    ensures CalmEvents(events[..n])
  {
  }

  lemma {:induction false} CalmRunsStayCalm<W>(world: W, events: seq<Event<W>>)
    requires CalmEvents(events)
    ensures NoSelfStop(Run(world, events))
  {
    if events != [] {
      var n := |events| - 1;
      CalmPrefix(events, n);
      CalmRunsStayCalm(world, events[..n]);
      StepKeepsNoSelfStop(Run(world, events[..n]), events[n]);
    }
  }

  // ----- A stop with no clear skips nothing -----

  lemma ReturnSkipsNothing<W>(st: State<W>)
    requires Reachable(st) && NoSelfStop(st) && st.stop.Clearing?
    ensures Step(st, StopClears).settled == st.settled
  {
    assert st.queue == [];
    assert st.settled + AllSkipped(st.queue) == st.settled;
  }

  lemma WorkSettlesNothing<W>(st: State<W>)
    requires NoSelfStop(st)
    ensures WorkStep(st).settled == st.settled
  {
    if st.worker.Handling? {
      HandlerKeepsHistory(st, st.worker.message, st.worker.todo);
    }
  }

  lemma TakeSkipsNothing<W>(st: State<W>)
    requires WithFate(st.settled, Skipped) == []
    ensures WithFate(Step(st, Take).settled, Skipped) == []
  {
    if st.queue != [] {
      SettledGrows(st.settled, Settled(st.queue[0], Taken));
    }
  }

  lemma StepSkipsNothing<W>(st: State<W>, e: Event<W>)
    requires Reachable(st) && NoSelfStop(st)
    requires WithFate(st.settled, Skipped) == [] && !e.ClearAll?
    ensures WithFate(Step(st, e).settled, Skipped) == []
  {
    match e
    case Take => TakeSkipsNothing(st);
    case Work => WorkSettlesNothing(st);
    case StopClears => if st.stop.Clearing? { ReturnSkipsNothing(st); }
    case _ =>
  }

  lemma {:induction false} NothingSkipped<W>(world: W, events: seq<Event<W>>)
    requires CalmEvents(events) && NoClear(events)
    ensures WithFate(Run(world, events).settled, Skipped) == []
  {
    if events != [] {
      var n := |events| - 1;
      CalmPrefix(events, n);
      NothingSkipped(world, events[..n]);
      EveryRunIsReachable(world, events[..n]);
      CalmRunsStayCalm(world, events[..n]);
      StepSkipsNothing(Run(world, events[..n]), events[n]);
    }
  }

  lemma {:induction false} NothingSkippedMeansAllTaken<W>(settled: seq<Settled<W>>)
    requires WithFate(settled, Skipped) == []
    ensures WithFate(settled, Taken) == Messages(settled)
  {
    if settled != [] {
      NothingSkippedMeansAllTaken(settled[..|settled| - 1]);
    }
  }

  /** A stop from another thread, with no clear and no handler that stops the queue itself,
      skips nothing: when it returns the worker is gone, every accepted message has been
      handled, in acceptance order, and the client is where an atomic run of them leads. */
  lemma StopSkipsNothing<W>(world: W, events: seq<Event<W>>)
    requires CalmEvents(events) && NoClear(events)
    requires Run(world, events).stop.Returned?
    ensures var st := Run(world, events);
            && st.worker.Exited?
            && st.handled == st.accepted
            && st.world == ExecAll(world, st.accepted).world
  {
    AllDoneWhenStopReturns(world, events);
    CalmRunsStayCalm(world, events);
    NothingSkipped(world, events);
    NothingSkippedMeansAllTaken(Run(world, events).settled);
    RunIsAtomic(world, events);
    var st := Run(world, events);
    assert st.handled + [] == st.handled;
  }

  // ----- Only a clear makes a stop hang -----

  /** The step is a clear that takes the stop message off the queue. */
  ghost predicate ClearsStop<W>(st: State<W>, e: Event<W>) {
    e.ClearAll? && StopRequest in st.queue
  }

  /** Some clear in the run has taken the stop message off the queue. */
  ghost predicate StopCleared<W>(world: W, events: seq<Event<W>>) {
    exists i | 0 <= i < |events| :: ClearsStop(Run(world, events[..i]), events[i])
  }

  lemma StopClearedGrows<W>(world: W, events: seq<Event<W>>)
    requires events != []
    ensures var n := |events| - 1;
            StopCleared(world, events) <==>
            StopCleared(world, events[..n]) || ClearsStop(Run(world, events[..n]), events[n])
  {
    var n := |events| - 1;
    assert forall i | 0 <= i < n :: events[..n][..i] == events[..i];
    if StopCleared(world, events[..n]) {
      var i :| 0 <= i < n && ClearsStop(Run(world, events[..n][..i]), events[..n][i]);
      assert ClearsStop(Run(world, events[..i]), events[i]);
    }
  }

  lemma LostByClear<W>(st: State<W>, e: Event<W>)
    requires Reachable(st) && NoSelfStop(st) && (e.PostCheck? ==> IsCalm(e.body))
    ensures StopLost(Step(st, e)) <==> StopLost(st) || ClearsStop(st, e)
  {
    StepKeepsNoSelfStop(st, e);
    if e.ClearAll? {
      ClearLoses(st);
    } else if StopLost(st) {
      LostStep(st, e);
    } else if IsFlagged(st.stop) && !StopLate(st) {
      GoodStep(st, e);
    }
  }

  lemma ClearLoses<W>(st: State<W>)
    requires Reachable(st) && NoSelfStop(st)
    ensures StopLost(Step(st, ClearAll)) <==> StopLost(st) || StopRequest in st.queue
  {
    if StopRequest in st.queue {
      var i :| 0 <= i < |st.queue| && st.queue[i].StopRequest?;
      assert Serves(st) && StopIsLast(st);
    }
  }

  lemma {:induction false} LostExactlyIfCleared<W>(world: W, events: seq<Event<W>>)
    requires CalmEvents(events)
    ensures StopLost(Run(world, events)) <==> StopCleared(world, events)
  {
    if events != [] {
      var n := |events| - 1;
      CalmPrefix(events, n);
      LostExactlyIfCleared(world, events[..n]);
      EveryRunIsReachable(world, events[..n]);
      CalmRunsStayCalm(world, events[..n]);
      LostByClear(Run(world, events[..n]), events[n]);
      StopClearedGrows(world, events);
    }
  }

  lemma {:induction false} CalmBodyDetachesNobody<W>(c: Context<W>, body: seq<Action<W>>)
    requires IsCalm(body) && !c.detached
    ensures !Exec(c, body).detached
    decreases body
  {
    if body != [] {
      ExecFirst(c, body);
      match body[0] {
        case If(test, yes, no) => CalmBodyDetachesNobody(c, if test(c.world) then yes else no);
        case Call(inner) => CalmBodyDetachesNobody(c, inner);
        case _ =>
      }
      CalmBodyDetachesNobody(ExecOne(c, body[0]), body[1..]);
    }
  }

  lemma {:induction false} CalmQueueDetachesNobody<W>(c: Context<W>, queue: seq<Message<W>>)
    requires (forall i | 0 <= i < |queue| :: IsCalm(BodyOf(queue[i]))) && !c.detached
    ensures !ExecRest(c, queue).detached
    decreases |queue|
  {
    if queue != [] {
      CalmBodyDetachesNobody(c, BodyOf(queue[0]));
      CalmQueueDetachesNobody(Exec(c, BodyOf(queue[0])), queue[1..]);
    }
  }

  /** With no self-stopping handler, a flagged stop can return without the help of a clear if
      and only if no clear has taken its message off the queue. */
  lemma CalmStopReturnsExactly<W>(world: W, events: seq<Event<W>>)
    requires CalmEvents(events) && IsFlagged(Run(world, events).stop)
    ensures (exists more | NoClear(more) :: Run(world, events + more).stop.Returned?)
            <==> !StopCleared(world, events)
  {
    var st := Run(world, events);
    CalmRunsStayCalm(world, events);
    LostExactlyIfCleared(world, events);
    StopReturnsExactly(world, events);
    CalmBodyDetachesNobody(Context(st.world, st.detached), Todo(st));
    CalmQueueDetachesNobody(Exec(Context(st.world, st.detached), Todo(st)), st.queue);
  }
}
