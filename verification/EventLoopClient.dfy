/** The client behind its message queue.  Threads post calls; the worker runs their programs
    step by step, nested requests inline, while others post, clear and stop in between.  The
    client is nevertheless always where a run of whole events leads, so the run theorems of
    the client hold in every interleaving. */
module EventLoopClient {
  import opened Wrappers
  import opened ClientBodies
  import Q = MessageQueueModel
  import QT = MessageQueueTheorems
  import QS = MessageQueueStop
  import QC = MessageQueueCalm
  import C = ClientModel
  import ClientBarrier
  import ClientCommands

  /** What each call stands for: its identity names a client event. */
  type Calls = int -> C.Event

  ghost predicate IsCall(m: Q.Message<C.History>, calls: Calls) {
    m.Posted? ==> m.body == BodyFor(calls(m.id))
  }

  /** Every post is a call of the client. */
  ghost predicate ClientPosts(events: seq<Q.Event<C.History>>, calls: Calls) {
    forall i | 0 <= i < |events| && events[i].PostCheck? :: events[i].body == BodyFor(calls(events[i].id))
  }

  /** The client events that messages stand for. */
  ghost function EventsOf(messages: seq<Q.Message<C.History>>, calls: Calls): seq<C.Event> {
    if messages == [] then []
    else
      var m := messages[|messages| - 1];
      EventsOf(messages[..|messages| - 1], calls) + if m.Posted? then [calls(m.id)] else []
  }

  ghost function Start(): C.History {
    C.Run([])
  }

  // ----- Whole messages are client steps -----

  ghost predicate AreCalls(messages: seq<Q.Message<C.History>>, calls: Calls) {
    forall i | 0 <= i < |messages| :: IsCall(messages[i], calls)
  }

  lemma {:induction false} WholeMessagesAreSteps(messages: seq<Q.Message<C.History>>, calls: Calls)
    requires AreCalls(messages, calls)
    ensures QT.ExecAll(Start(), messages) == QT.Context(C.Run(EventsOf(messages, calls)), false)
  {
    if messages != [] {
      var n := |messages| - 1;
      var m, before := messages[n], EventsOf(messages[..n], calls);
      WholeMessagesAreSteps(messages[..n], calls);
      if m.Posted? {
        var e := calls(m.id);
        BodyDoesStep(C.Run(before), e);
        assert (before + [e])[..|before|] == before;
      } else {
        assert before + [] == before;
      }
    }
  }

  // ----- All messages in the queue are calls -----

  ghost predicate AllCalls(st: Q.State<C.History>, calls: Calls) {
    && AreCalls(st.queue, calls) && AreCalls(st.handled, calls)
    && (st.posting.Some? ==> IsCall(st.posting.value, calls))
    && (QT.IsBusy(st.worker) ==> IsCall(st.worker.message, calls))
    && IsClean(QT.Todo(st))
  }

  lemma HandlerKeepsClean(st: Q.State<C.History>, m: Q.Message<C.History>, todo: seq<Q.Action<C.History>>)
    requires st.worker == Q.Handling(m, todo) && IsClean(todo)
    ensures IsClean(QT.Todo(Q.HandlerStep(st, m, todo)))
  {
    if todo != [] {
      match todo[0]
      case If(test, yes, no) => CleanJoins(if test(st.world) then yes else no, todo[1..]);
      case Call(body) => CleanJoins(if st.detached then [] else body, todo[1..]);
      case _ =>
    }
  }

  lemma TakeKeepsCalls(st: Q.State<C.History>, calls: Calls)
    requires AllCalls(st, calls)
    ensures AllCalls(Q.Step(st, Q.Take), calls)
  {
    if st.queue != [] && st.queue[0].Posted? {
      assert IsCall(st.queue[0], calls);
      BodyIsClean(calls(st.queue[0].id));
    }
  }

  lemma StepKeepsCalls(st: Q.State<C.History>, e: Q.Event<C.History>, calls: Calls)
    requires AllCalls(st, calls)
    requires e.PostCheck? ==> e.body == BodyFor(calls(e.id))
    ensures AllCalls(Q.Step(st, e), calls)
  {
    match e
    case Take => TakeKeepsCalls(st, calls);
    case Work =>
      if st.worker.Handling? {
        QT.HandlerKeepsHistory(st, st.worker.message, st.worker.todo);
        HandlerKeepsClean(st, st.worker.message, st.worker.todo);
      }
    case _ =>
  }

  lemma PostsPrefix(events: seq<Q.Event<C.History>>, calls: Calls, n: nat)
    requires ClientPosts(events, calls) && n <= |events|
    ensures ClientPosts(events[..n], calls)
  {
  }

  lemma {:induction false} AllCallsInEveryRun(events: seq<Q.Event<C.History>>, calls: Calls)
    requires ClientPosts(events, calls)
    ensures AllCalls(Q.Run(Start(), events), calls)
  {
    if events != [] {
      var n := |events| - 1;
      PostsPrefix(events, calls, n);
      AllCallsInEveryRun(events[..n], calls);
      StepKeepsCalls(Q.Run(Start(), events[..n]), events[n], calls);
    }
  }

  lemma ClientPostsAreCalm(events: seq<Q.Event<C.History>>, calls: Calls)
    requires ClientPosts(events, calls)
    ensures QC.CalmEvents(events)
  {
    forall i | 0 <= i < |events|
      ensures events[i].PostCheck? ==> QC.IsCalm(events[i].body)
    {
      if events[i].PostCheck? {
        BodyIsClean(calls(events[i].id));
        CleanIsCalm(events[i].body);
      }
    }
  }

  // ----- The refinement -----

  /** In every interleaving, finishing the call in the worker's hands leads to where the client
      events of the calls taken so far lead, each as one step; whenever no call is in the
      worker's hands the client is there. */
  lemma CallsAreAtomicClientSteps(events: seq<Q.Event<C.History>>, calls: Calls)
    requires ClientPosts(events, calls)
    ensures var st := Q.Run(Start(), events);
            && Does(QT.Todo(st), st.world, C.Run(EventsOf(st.handled + QT.InHand(st), calls)))
            && (!QT.IsBusy(st.worker) ==> st.world == C.Run(EventsOf(st.handled, calls)))
  {
    var st := Q.Run(Start(), events);
    AllCallsInEveryRun(events, calls);
    ClientPostsAreCalm(events, calls);
    QC.CalmRunsStayCalm(Start(), events);
    QT.RunIsAtomic(Start(), events);
    WholeMessagesAreSteps(st.handled + QT.InHand(st), calls);
    if !QT.IsBusy(st.worker) {
      assert st.handled + [] == st.handled;
    }
  }

  lemma BarriersOfPrefix(log: seq<C.Entry>, whole: seq<C.Entry>)
    requires log <= whole && ClientBarrier.Barriers(whole)
    ensures ClientBarrier.Barriers(log)
  {
    forall k | 0 <= k < |log|
      ensures ClientBarrier.BarrierAt(log, k)
    {
      assert ClientBarrier.BarrierAt(whole, k);
      assert log[..k] == whole[..k] && log[k] == whole[k];
    }
  }

  lemma PlaysOfPrefix(log: seq<C.Entry>, whole: seq<C.Entry>)
    requires log <= whole && ClientCommands.PausedBetweenPlays(whole)
    ensures ClientCommands.PausedBetweenPlays(log)
  {
    forall i, j | 0 <= i < j < |log| && log[i].SentPlay? && log[j].SentPlay?
      ensures exists k | i < k < j :: log[k] == C.Reported(C.SrvPaused)
    {
      assert whole[i].SentPlay? && whole[j].SentPlay?;
      var k :| i < k < j && whole[k] == C.Reported(C.SrvPaused);
      assert log[k] == whole[k];
    }
  }

  /** In every interleaving, even in the middle of a call, the barriers hold of the commands
      sent so far, and no play command is repeated without a PAUSED report. */
  lemma BarriersHoldInEveryInterleaving(events: seq<Q.Event<C.History>>, calls: Calls)
    requires ClientPosts(events, calls)
    ensures var st := Q.Run(Start(), events);
            var whole := C.Run(EventsOf(st.handled + QT.InHand(st), calls));
            && st.world.log <= whole.log
            && ClientBarrier.Barriers(st.world.log)
            && (ClientCommands.QuietStart(whole.log) ==> ClientCommands.PausedBetweenPlays(st.world.log))
  {
    var st := Q.Run(Start(), events);
    var whole := EventsOf(st.handled + QT.InHand(st), calls);
    CallsAreAtomicClientSteps(events, calls);
    AllCallsInEveryRun(events, calls);
    CleanKeepsLog(st.world, QT.Todo(st));
    ClientBarrier.BarriersHoldInEveryRun(whole);
    BarriersOfPrefix(st.world.log, C.Run(whole).log);
    if ClientCommands.QuietStart(C.Run(whole).log) {
      ClientCommands.NoDuplicatePlay(whole);
      PlaysOfPrefix(st.world.log, C.Run(whole).log);
    }
  }

  /** When a stop from another thread returns, with no clear, the client has taken exactly the
      accepted calls as steps, each once, in the order of acceptance. */
  lemma StopDeliversEveryCall(events: seq<Q.Event<C.History>>, calls: Calls)
    requires ClientPosts(events, calls) && QS.NoClear(events)
    requires Q.Run(Start(), events).stop.Returned?
    ensures var st := Q.Run(Start(), events); st.world == C.Run(EventsOf(st.accepted, calls))
  {
    ClientPostsAreCalm(events, calls);
    QC.StopSkipsNothing(Start(), events);
    QC.CalmRunsStayCalm(Start(), events);
    CallsAreAtomicClientSteps(events, calls);
  }
}
