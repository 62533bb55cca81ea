/** The message queue as an object shared by threads.

    `Perform` is one step of one thread.  An operation of the source is a method that takes
    its own thread's steps and lets the other threads take any number of theirs in between.
    A wait that need not end is given up after `patience` looks; the result says so. */
module MessageQueueObject {
  import opened Wrappers
  import opened MessageQueueModel
  import opened MessageQueueTheorems
  import opened MessageQueueStop
  import opened MessageQueueCalm

  /** Whose steps are not interference. */
  datatype Thread = Caller(holdsLock: bool) | WorkerThread | StopThread

  predicate Owns<W>(me: Thread, e: Event<W>) {
    match me
    case Caller(holdsLock) => holdsLock && (e.PostCheck? || e.PostPush?)
    case WorkerThread => e.Take? || e.Work? || e.LoopCheck?
    case StopThread => e.StopTest? || e.StopFlag? || e.StopMessageDone? || e.StopJoined? || e.StopClears?
  }

  /** What the steps of the other threads leave alone, and what they can only add to. */
  ghost predicate Rely<W>(me: Thread, st: State<W>, st': State<W>) {
    && st.accepted <= st'.accepted
    && st.done <= st'.done
    && (!st.worker.NotStarted? ==> !st'.worker.NotStarted?)
    && (me == Caller(true) ==> st'.posting == st.posting)
    && (me.WorkerThread? ==>
          && st'.worker == st.worker && st'.current == st.current && st'.handled == st.handled
          && st'.world == st.world && st'.detached == st.detached)
    && (me.StopThread? ==> st'.stop == st.stop && st'.stopTicket == st.stopTicket)
  }

  /** The thread has got as far as to hold the lock, or to run. */
  ghost predicate IsThere<W>(me: Thread, st: State<W>) {
    && (me == Caller(true) ==> st.posting.Some?)
    && (me.WorkerThread? ==> !st.worker.NotStarted?)
  }

  lemma OtherStepRelies<W>(me: Thread, st: State<W>, e: Event<W>)
    requires !Owns(me, e)
    requires IsThere(me, st)
    ensures Rely(me, st, Step(st, e)) && IsThere(me, Step(st, e))
  {
    if e.Work? && st.worker.Handling? {
      HandlerKeepsHistory(st, st.worker.message, st.worker.todo);
    }
  }

  datatype CallOutcome = Refused | Done | StillWaiting

  lemma {:induction false} MessagesAt<W>(settled: seq<Settled<W>>, k: nat)
    requires k < |settled|
    ensures |Messages(settled)| == |settled| && Messages(settled)[k] == settled[k].message
  {
    var n := |settled| - 1;
    if n > 0 {
      MessagesAt(settled[..n], if k < n then k else 0);
    }
  }

  class MessageQueue<W> {
    var world: W
    var queue: seq<Message<W>>
    var running: bool
    var accepting: bool

    // Where the threads are
    var posting: Option<Message<W>>
    var worker: Worker<W>
    var detached: bool
    var stop: StopPhase

    // The m_done flags, by number of acceptance; `front` is the number of the queue's front
    var done: set<nat>
    var front: nat
    var current: nat
    var stopTicket: nat

    ghost const start: W
    ghost var accepted: seq<Message<W>>
    ghost var settled: seq<Settled<W>>
    ghost var handled: seq<Message<W>>
    ghost var events: seq<Event<W>>

    ghost function View(): State<W>
      reads this
    {
      State(world, queue, running, accepting, posting, worker, detached, current, done, stop, stopTicket,
            accepted, settled, handled)
    }

    ghost predicate Numbered()
      reads this
    {
      front == |settled| && |accepted| == front + |queue|
    }

    ghost predicate Valid()
      reads this
    {
      View() == Run(start, events) && Numbered()
    }

    constructor (world: W)
      ensures Valid() && events == [] && start == world
    {
      this.world, start, queue, running, accepting := world, world, [], false, false;
      posting, worker, detached, stop := None, NotStarted, false, NoStop;
      done, front, current, stopTicket := {}, 0, 0, 0;
      accepted, settled, handled, events := [], [], [], [];
    }

    /** Each accepted message is handled once in order or skipped once, its caller waits until
        then and no longer, and the client sees whole messages only. */
    lemma Guarantees()
      requires Valid()
      ensures OneFateEach(View()) && MarksRight(View())
      ensures LooksAtomic(start, View())
    {
      EveryMessageHasOneFate(start, events);
      RunIsAtomic(start, events);
    }

    // ----- One step of one thread -----

    method StartWorker()
      requires Numbered()
      modifies this`running, this`accepting, this`worker
      ensures View() == Step(old(View()), Start)
    {
      if !running && worker.NotStarted? {
        running := true;
        accepting := true;
        worker := AtQueue;
      }
    }

    method Push(m: Message<W>)
      requires Numbered()
      modifies this`queue, this`accepted
      ensures Numbered() && View() == MessageQueueModel.Push(old(View()), m)
    {
      queue := queue + [m];
      accepted := accepted + [m];
    }

    method TakeFront()
      requires Numbered()
      modifies this`queue, this`settled, this`front, this`current, this`worker
      ensures Numbered() && View() == Step(old(View()), Take)
    {
      if worker.AtQueue? && posting.None? && queue != [] {
        var message := queue[0];
        queue := queue[1..];
        settled := settled + [Settled(message, Taken)];
        current := front;
        front := front + 1;
        worker := Handling(message, BodyOf(message));
      }
    }

    /** Skips the queued messages one by one with the lock held. */
    method DoClear()
      requires Numbered()
      modifies this`queue, this`settled, this`done, this`front
      ensures Numbered() && View() == Clear(old(View()))
    {
      while queue != []
        invariant Numbered()
        invariant settled + AllSkipped(queue) == old(settled) + AllSkipped(old(queue))
        invariant done == old(done) + Tickets(old(front), front)
        decreases |queue|
      {
        ghost var before := queue;
        done := done + {front};
        settled := settled + [Settled(queue[0], Skipped)];
        queue := queue[1..];
        front := front + 1;
        assert AllSkipped(before) == [Settled(before[0], Skipped)] + AllSkipped(queue);
      }
      assert settled + AllSkipped(queue) == settled;
    }

    /** One step of the handler; a nested callInEventLoop is run inline, a stop on the worker's
        own thread lowers the flags before it clears. */
    method HandlerStep()
      requires Numbered() && worker.Handling?
      modifies this`world, this`running, this`accepting, this`detached, this`worker
      ensures View() == MessageQueueModel.HandlerStep(old(View()), old(worker.message), old(worker.todo))
    {
      var message, todo := worker.message, worker.todo;
      if todo == [] {
        if message.StopRequest? {
          running := false;
        }
        worker := Finishing(message);
        return;
      }
      worker := Handling(message, todo[1..]);
      match todo[0] {
        case Do(run) => world := run(world);
        case If(test, yes, no) => worker := Handling(message, (if test(world) then yes else no) + todo[1..]);
        case Call(body) => worker := Handling(message, (if detached then [] else body) + todo[1..]);
        case StopSelf =>
          if running {
            accepting := false;
            running := false;
            detached := true;
            worker := ClearingSelf(message, todo[1..]);
          }
      }
    }

    method WorkerStep()
      requires Numbered()
      modifies this
      ensures Numbered() && View() == WorkStep(old(View())) && events == old(events)
    {
      match worker {
        case Handling(_, _) => HandlerStep();
        case ClearingSelf(message, todo) =>
          if posting.None? {
            DoClear();
            worker := Handling(message, todo);
          }
        case Finishing(message) =>
          handled := handled + [message];
          done := done + {current};
          worker := AtLoopEnd;
        case _ =>
      }
    }

    /** One step of the stop from another thread. */
    method StopperStep(e: Event<W>)
      requires Numbered() && Owns(StopThread, e)
      modifies this
      ensures Numbered() && View() == Step(old(View()), e) && events == old(events)
    {
      match e {
        case StopTest => if stop.NoStop? && running { stop := Tested; }
        case StopFlag =>
          if stop.Tested? && posting.None? {
            stopTicket := front + |queue|;
            Push(StopRequest);
            accepting := false;
            stop := AwaitingMessage;
          }
        case StopMessageDone => if stop.AwaitingMessage? && stopTicket in done { stop := Joining; }
        case StopJoined => if stop.Joining? && (worker.Exited? || detached) { stop := Clearing; }
        case StopClears =>
          if stop.Clearing? && posting.None? {
            DoClear();
            stop := Returned;
          }
        case _ =>
      }
    }

    /** One step of a poster. */
    method PosterStep(e: Event<W>)
      requires Numbered() && (e.PostCheck? || e.PostPush?)
      modifies this`posting, this`queue, this`accepted
      ensures Numbered() && View() == Step(old(View()), e)
    {
      if e.PostCheck? {
        if posting.None? && running && accepting {
          posting := Some(Posted(e.id, e.body));
        }
      } else if posting.Some? {
        Push(posting.value);
        posting := None;
      }
    }

    /** One step of whichever thread the event names. */
    method Perform(e: Event<W>)
      requires Valid()
      modifies this
      ensures Valid() && events == old(events) + [e] && View() == Step(old(View()), e)
    {
      MessageQueueStop.RunGrows(start, events, e);
      match e {
        case Start => StartWorker();
        case PostCheck(_, _) => PosterStep(e);
        case PostPush => PosterStep(e);
        case Take => TakeFront();
        case Work => WorkerStep();
        case LoopCheck => if worker.AtLoopEnd? { worker := if running then AtQueue else Exited; }
        case ClearAll => if posting.None? { DoClear(); }
        case _ => StopperStep(e);
      }
      events := events + [e];
    }

    // ----- The operations -----

    /** Any number of steps of the other threads, in any order. */
    method OtherThreads(me: Thread)
      requires Valid() && IsThere(me, View())
      modifies this
      ensures Valid() && IsThere(me, View())
      ensures Rely(me, old(View()), View())
    {
      var steps :| 0 <= steps;
      for i := 0 to steps
        invariant Valid() && IsThere(me, View())
        invariant Rely(me, old(View()), View())
      {
        var e: Event<W> := *;
        if !Owns(me, e) {
          OtherStepRelies(me, View(), e);
          Perform(e);
        }
      }
    }

    /** Waits for the lock: whoever has it pushes its message first. */
    method Lock(me: Thread)
      requires Valid() && IsThere(me, View()) && me != Caller(true)
      modifies this
      ensures Valid() && IsThere(me, View())
      ensures Rely(me, old(View()), View()) && posting.None?
    {
      OtherThreads(me);
      if posting.Some? {
        OtherStepRelies(me, View(), PostPush);
        Perform(PostPush);
      }
    }

    /** Posts a message from any thread; `ticket` is its number of acceptance. */
    method PostMessage(id: int, body: seq<Action<W>>) returns (ok: bool, ticket: nat)
      requires Valid()
      modifies this
      ensures Valid() && old(accepted) <= accepted
      ensures ok ==> |old(accepted)| <= ticket < |accepted| && accepted[ticket] == Posted(id, body)
      ensures !ok ==> !running || !accepting
    {
      ticket := 0;
      Lock(Caller(false));
      ok := running && accepting;
      if ok {
        Perform(PostCheck(id, body));
        OtherThreads(Caller(true));
        ticket := front + |queue|;
        Perform(PostPush);
      }
    }

    /** A blocking call from a thread other than the worker's: it comes back with its message
        handled or skipped, or with a refusal. */
    method CallInEventLoop(id: int, body: seq<Action<W>>, patience: nat) returns (outcome: CallOutcome, ghost ticket: nat)
      requires Valid()
      modifies this
      ensures Valid() && old(accepted) <= accepted
      ensures outcome.Refused? ==> !running || !accepting
      ensures !outcome.Refused? ==> |old(accepted)| <= ticket < |accepted| && accepted[ticket] == Posted(id, body)
      ensures outcome.Done? ==> ticket < |settled| && settled[ticket].message == Posted(id, body)
                                && (IsBusy(worker) ==> current != ticket)
      ensures outcome.StillWaiting? ==> ticket !in done
    {
      var ok, number := PostMessage(id, body);
      ticket := number;
      if !ok {
        return Refused, ticket;
      }
      for i := 0 to patience
        invariant Valid() && old(accepted) <= accepted
        invariant |old(accepted)| <= ticket < |accepted| && accepted[ticket] == Posted(id, body)
      {
        if number in done {
          break;
        }
        OtherThreads(Caller(false));
      }
      Guarantees();
      if number in done {
        MessagesAt(settled, ticket);
        return Done, ticket;
      }
      outcome := StillWaiting;
    }

    /** The stop still waits for its message or for the worker. */
    ghost predicate StillStopping()
      reads this
    {
      (stop.AwaitingMessage? && stopTicket !in done) || (stop.Joining? && !worker.Exited? && !detached)
    }

    /** The stop's wait for its message and for the worker. */
    method AwaitWorker(patience: nat) returns (joined: bool)
      requires Valid() && stop.AwaitingMessage?
      modifies this
      ensures Valid()
      ensures if joined then stop.Clearing? else StillStopping()
    {
      for i := 0 to patience
        invariant Valid() && stop.AwaitingMessage?
      {
        if stopTicket in done {
          break;
        }
        OtherThreads(StopThread);
      }
      if stopTicket !in done {
        return false;
      }
      Perform(StopMessageDone);
      for i := 0 to patience
        invariant Valid() && stop.Joining?
      {
        if worker.Exited? || detached {
          break;
        }
        OtherThreads(StopThread);
      }
      if !worker.Exited? && !detached {
        return false;
      }
      Perform(StopJoined);
      joined := true;
    }

    /** A stop from another thread.  When it returns, every message that was ever accepted is
        handled or skipped and its caller may go on, but that of a handler that has stopped the
        queue itself and is still at it; with no clear and no such handler, all were handled. */
    method DoStop(patience: nat) returns (returned: bool)
      requires Valid() && (stop.NoStop? || stop.Returned?)
      modifies this
      ensures Valid()
      ensures !old(running) ==> returned && events == old(events)
      ensures old(running) && returned ==> stop.Returned? && !accepting && AllOthersDone(View())
                                           && (worker.Exited? || detached)
      ensures old(running) && returned && CalmEvents(events) && NoClear(events) ==>
                worker.Exited? && handled == accepted && world == ExecAll(start, accepted).world
      ensures !returned ==> StillStopping()
    {
      if !running {
        return true;
      }
      RaiseStop();
      returned := AwaitWorker(patience);
      if returned {
        FinishStop();
      }
    }

    /** The test, and the first critical section of a stop. */
    method RaiseStop()
      requires Valid() && (stop.NoStop? || stop.Returned?) && running
      modifies this
      ensures Valid() && stop.AwaitingMessage?
    {
      EveryRunIsReachable(start, events);
      Perform(StopTest);
      Lock(StopThread);
      Perform(StopFlag);
    }

    /** The last critical section of a stop. */
    method FinishStop()
      requires Valid() && stop.Clearing?
      modifies this
      ensures Valid() && stop.Returned? && !accepting && AllOthersDone(View()) && (worker.Exited? || detached)
      ensures CalmEvents(events) && NoClear(events) ==>
                worker.Exited? && handled == accepted && world == ExecAll(start, accepted).world
    {
      Lock(StopThread);
      Perform(StopClears);
      AllDoneWhenStopReturns(start, events);
      EveryRunIsReachable(start, events);
      if CalmEvents(events) && NoClear(events) {
        StopSkipsNothing(start, events);
      }
    }

    /** The worker waits for a message and takes it. */
    method WaitForMessage(patience: nat) returns (got: bool)
      requires Valid() && worker.AtQueue?
      modifies this
      ensures Valid() && handled == old(handled) && world == old(world) && detached == old(detached)
      ensures if got then worker.Handling? && worker.todo == BodyOf(worker.message)
              else worker.AtQueue? && (patience > 0 ==> queue == [])
    {
      for i := 0 to patience
        invariant Valid() && handled == old(handled) && world == old(world) && detached == old(detached)
        invariant worker.AtQueue? && (i > 0 ==> queue == [])
      {
        Lock(WorkerThread);
        if queue != [] {
          Perform(Take);
          return true;
        }
      }
      got := false;
    }

    /** Runs the handler of the message in the worker's hands to its end, whatever the other
        threads do meanwhile, and marks it done. */
    method HandleMessage()
      requires Valid() && worker.Handling?
      modifies this
      ensures Valid() && worker.AtLoopEnd? && handled == old(handled) + [old(worker).message]
      ensures Context(world, detached) == Exec(Context(old(world), old(detached)), old(worker).todo)
    {
      while !worker.AtLoopEnd?
        invariant Valid()
        invariant if worker.AtLoopEnd? then handled == old(handled) + [old(worker).message]
                  else handled == old(handled) && IsBusy(worker) && worker.message == old(worker).message
        invariant Exec(Context(world, detached), Todo(View())) == Exec(Context(old(world), old(detached)), old(worker).todo)
        decreases WorkerWeight(worker)
      {
        HandleStep();
      }
    }

    method HandleStep()
      requires Valid() && IsBusy(worker)
      modifies this
      ensures Valid() && WorkerWeight(worker) < WorkerWeight(old(worker))
      ensures Exec(Context(world, detached), Todo(View())) == Exec(Context(old(world), old(detached)), Todo(old(View())))
      ensures if worker.AtLoopEnd? then handled == old(handled) + [old(worker).message]
              else handled == old(handled) && IsBusy(worker) && worker.message == old(worker).message
    {
      Lock(WorkerThread);
      RunIsAtomic(start, events);
      if worker.Handling? {
        HandlerStepCounts(View(), worker.message, worker.todo);
        HandlerKeepsHistory(View(), worker.message, worker.todo);
        HandlerKeepsExec(View(), worker.message, worker.todo);
      }
      Perform(Work);
    }

    /** The worker's loop, for up to `patience` messages: it ends once the queue has stopped
        running, and the client is where the handled messages, each run whole and in order, lead. */
    method ProcessMessages(patience: nat) returns (exited: bool)
      requires Valid() && worker.AtQueue?
      modifies this
      ensures Valid()
      ensures exited <==> worker.Exited?
      ensures exited ==> !running
      ensures !exited && queue != [] ==> |handled| == |old(handled)| + patience
      ensures world == ExecAll(start, handled).world && WithFate(settled, Taken) == handled
      ensures accepted == Messages(settled) + queue
    {
      exited := false;
      for i := 0 to patience
        invariant Valid() && worker.AtQueue? && |handled| == |old(handled)| + i
      {
        var got := WaitForMessage(patience);
        if !got {
          break;
        }
        HandleMessage();
        OtherThreads(WorkerThread);
        exited := !running;
        Perform(LoopCheck);
        if exited {
          break;
        }
      }
      Guarantees();
      assert handled + [] == handled;
    }
  }
}
