/** Client, sinks and flush/data synchroniser together.

    The threads of a sink reach the monitor at different times: a FLUSH_START waits there
    before it takes the sink's mutex, buffers that arrive report data until it has, and the
    monitor hears of the flush only with the FLUSH_STOP, before the flush enters the client's
    event loop.  Each of these is a step of its own. */
module ClientSynchronizer {
  import C = ClientModel
  import Sync = FlushAndDataSynchronizer

  /** What became of a source since its entry was `entry`: data was received, its earlier flush
      was completed.  A push, an add or a removal starts anew. */
  datatype Since = Since(entry: Sync.SourceState, received: bool, completed: bool)

  /** Where a sink is in a flush: the wait at its start, the wait over and the mutex not yet
      taken, the queue cleared, the client asked to flush, with the sink's flag up or, after a
      FLUSH_STOP that had no FLUSH_START, down. */
  datatype Cycle =
    | Flowing
    | Waiting
    | WaitOver(since: Since)
    | Cleared(since: Since)
    | Asked(flagUp: bool)

  datatype Joint = Joint(client: C.State, monitor: Sync.Monitor, sinks: map<int, Cycle>)

  datatype JointStep =
    | OfClient(event: C.Event)
    | FlushStartArrives(id: int)
    | Looks(id: int)
    | Clears(id: int)
    | FlushStopArrives(id: int)
    | FlushStopEnds(id: int)
    | BufferArrives(id: int)
    | EosArrives(id: int)
    | Pushes(id: int)

  function CycleOf(x: Joint, id: int): Cycle {
    if id in x.sinks then x.sinks[id] else Flowing
  }

  predicate IsInserted(st: C.State, e: C.Event) {
    e.Attach? && e.accepted && !e.kind.UnknownMedia? && e.id !in st.sources
  }

  /** What a client step tells the monitor, if anything. */
  function ToldBy(st: C.State, e: C.Event): seq<Sync.Step> {
    match e
    case Attach(id, _, _, _) => if IsInserted(st, e) then [Sync.Operate(Sync.AddSource(id))] else []
    case Remove(id) => [Sync.Operate(Sync.RemoveSource(id))]
    case SourceFlushed(id) =>
      if id in st.sources && st.sources[id].flushing then [Sync.Operate(Sync.FlushCompleted(id))] else []
    case _ => []
  }

  /** The sink takes buffers unless a FLUSH_START has cleared the queue. */
  predicate TakesBuffers(cycle: Cycle) {
    !cycle.Cleared? && cycle != Asked(true)
  }

  function MonitorSteps(x: Joint, j: JointStep): (steps: seq<Sync.Step>)
    ensures |steps| <= 1
  {
    match j
    case OfClient(e) => ToldBy(x.client, e)
    case FlushStartArrives(id) => if CycleOf(x, id).Flowing? then [Sync.StartWaiting(id)] else []
    case Looks(id) => if CycleOf(x, id).Waiting? then [Sync.LookAgain(id)] else []
    case FlushStopArrives(id) =>
      if CycleOf(x, id).Cleared? || CycleOf(x, id).Flowing? then [Sync.Operate(Sync.FlushStarted(id))] else []
    case BufferArrives(id) => if TakesBuffers(CycleOf(x, id)) then [Sync.Operate(Sync.ReceiveData(id))] else []
    case EosArrives(id) => [Sync.Operate(Sync.ReceiveData(id))]
    case Pushes(id) => [Sync.Operate(Sync.PushData(id))]
    case _ => []
  }

  function Recorded(since: Since, op: Sync.Op): Since {
    match op
    case ReceiveData(_) => since.(received := true)
    case FlushCompleted(_) => since.(completed := true)
    case PushData(_) => Since(Sync.SourceState(Sync.Idle, Sync.DataPushed), false, false)
    case _ => Since(Sync.SourceState(Sync.Idle, Sync.NoData), false, false)
  }

  /** The monitor operation of a step, as seen by a sink in the middle of a flush. */
  function Observe(cycle: Cycle, id: int, steps: seq<Sync.Step>): Cycle {
    if steps == [] || !steps[0].Operate? || steps[0].op.id != id then cycle
    else
      match cycle
      case WaitOver(since) => WaitOver(Recorded(since, steps[0].op))
      case Cleared(since) => Cleared(Recorded(since, steps[0].op))
      case _ => cycle
  }

  /** The sink's own move. */
  function Moved(x: Joint, j: JointStep): Cycle
    requires !j.OfClient?
  {
    var cycle := CycleOf(x, j.id);
    var over := WaitOver(Since(Sync.At(x.monitor.table, j.id), false, false));
    match j
    case FlushStartArrives(id) =>
      if !cycle.Flowing? then cycle else if Sync.Guard(x.monitor.table, id) then over else Waiting
    case Looks(id) =>
      if cycle.Waiting? && id in x.monitor.awake && Sync.Guard(x.monitor.table, id) then over else cycle
    case Clears(_) => if cycle.WaitOver? then Cleared(cycle.since) else cycle
    case FlushStopArrives(_) => if cycle.Cleared? || cycle.Flowing? then Asked(cycle.Cleared?) else cycle
    case FlushStopEnds(_) => if cycle.Asked? then Flowing else cycle
    case _ => cycle
  }

  /** The source whose sink a step is about. */
  function SourceOf(j: JointStep): int {
    match j
    case OfClient(e) => (match e
                         case Attach(id, _, _, _) => id
                         case Remove(id) => id
                         case SourceFlushed(id) => id
                         case _ => 0)
    case _ => j.id
  }

  function Next(x: Joint, j: JointStep): Joint {
    var steps, id := MonitorSteps(x, j), SourceOf(j);
    var moved := if j.OfClient? then CycleOf(x, id) else Moved(x, j);
    Joint(if j.OfClient? then C.Step(x.client, j.event).state else x.client,
          if steps == [] then x.monitor else Sync.Next(x.monitor, steps[0]),
          x.sinks[id := Observe(moved, id, steps)])
  }

  function Start(): Joint {
    Joint(C.Init(), Sync.Monitor(map[], {}, {}), map[])
  }

  function Run(steps: seq<JointStep>): Joint {
    if steps == [] then Start() else Next(Run(steps[..|steps| - 1]), steps[|steps| - 1])
  }

  /** Only attached sources are flushed and report data. */
  predicate IsAttachedStep(x: Joint, j: JointStep) {
    j.FlushStopArrives? || j.BufferArrives? || j.EosArrives? || j.Pushes? ==> j.id in x.client.sources
  }

  ghost predicate OnlyAttached(steps: seq<JointStep>) {
    steps != [] ==>
      var n := |steps| - 1;
      OnlyAttached(steps[..n]) && IsAttachedStep(Run(steps[..n]), steps[n])
  }

  // ----- The two tables agree -----

  lemma {:induction false} VisitsKeepKeys(st: C.State, order: seq<int>, report: C.PlaybackState, async: bool)
    ensures C.VisitAll(st, order, report, async).state.sources.Keys == st.sources.Keys
  {
    if order != [] {
      var n := |order| - 1;
      VisitsKeepKeys(st, order[..n], report, async);
      var before := C.VisitAll(st, order[..n], report, async).state;
      assert C.Visit(before, order[n], report, async).state.sources.Keys == before.sources.Keys;
    }
  }

  /** The client's table gains and loses exactly the sources of which it tells the monitor. */
  lemma ClientKeys(st: C.State, e: C.Event)
    ensures C.Step(st, e).state.sources.Keys ==
            if IsInserted(st, e) then st.sources.Keys + {e.id}
            else if e.Remove? then st.sources.Keys - {e.id}
            else st.sources.Keys
  {
    if e.Report? {
      VisitsKeepKeys(C.TakeIn(st, e.report), e.order, e.report, e.async);
    }
  }

  lemma MonitorKeys(t: Sync.Table, op: Sync.Op)
    ensures Sync.Apply(t, op).Keys == if op.RemoveSource? then t.Keys - {op.id} else t.Keys + {op.id}
  {
  }

  ghost predicate SameSources(x: Joint) {
    x.monitor.table.Keys == x.client.sources.Keys
  }

  lemma NextKeepsSources(x: Joint, j: JointStep)
    requires SameSources(x) && IsAttachedStep(x, j)
    ensures SameSources(Next(x, j))
  {
    var steps := MonitorSteps(x, j);
    if j.OfClient? {
      ClientKeys(x.client, j.event);
    }
    if steps != [] && steps[0].Operate? {
      MonitorKeys(x.monitor.table, steps[0].op);
    }
  }

  /** In every run both know the same sources, so no source is added that is there. */
  lemma {:induction false} SourcesAgree(steps: seq<JointStep>)
    requires OnlyAttached(steps)
    ensures SameSources(Run(steps))
  {
    if steps != [] {
      var n := |steps| - 1;
      SourcesAgree(steps[..n]);
      NextKeepsSources(Run(steps[..n]), steps[n]);
    }
  }

  // ----- Exactly when a wakeup is lost -----

  ghost predicate AllBlocked(x: Joint) {
    forall w | w in x.monitor.asleep :: !Sync.Guard(x.monitor.table, w)
  }

  /** A FLUSH_STOP tells the monitor of a flush while the source is all that a sleeping thread
      of another sink waits for. */
  ghost predicate StopFreesSleeper(x: Joint, j: JointStep) {
    && j.FlushStopArrives? && MonitorSteps(x, j) != []
    && exists w | w in x.monitor.asleep :: w != j.id && Sync.Blockers(x.monitor.table, w) == {j.id}
  }

  /** The client adds a source of which the monitor has an entry already, and that source is
      all that a sleeping thread waits for. */
  ghost predicate AttachFreesSleeper(x: Joint, j: JointStep) {
    && j.OfClient? && IsInserted(x.client, j.event)
    && exists w | w in x.monitor.asleep :: Sync.Blockers(x.monitor.table, w) == {j.event.id}
  }

  ghost predicate FreesSleeper(x: Joint, j: JointStep) {
    StopFreesSleeper(x, j) || AttachFreesSleeper(x, j)
  }

  /** The operation frees this sleeper without waking it. */
  ghost predicate Frees(t: Sync.Table, op: Sync.Op, w: int) {
    (op.AddSource? || (op.FlushStarted? && op.id != w)) && Sync.Blockers(t, w) == {op.id}
  }

  lemma OperationLosesExactly(m: Sync.Monitor, op: Sync.Op)
    requires forall w | w in m.asleep :: !Sync.Guard(m.table, w)
    ensures var m' := Sync.Next(m, Sync.Operate(op));
            (forall w | w in m'.asleep :: !Sync.Guard(m'.table, w)) <==>
            !(exists w | w in m.asleep :: Frees(m.table, op, w))
  {
    if !Sync.Signals(op) {
      forall w | w in m.asleep
        ensures Sync.Guard(Sync.Apply(m.table, op), w) <==> Frees(m.table, op, w)
      {
        Sync.LostWakeupExactly(m.table, op, w);
      }
      if w :| w in m.asleep && Frees(m.table, op, w) {
        assert Sync.Guard(Sync.Next(m, Sync.Operate(op)).table, w);
      }
    }
  }

  lemma NextLosesExactly(x: Joint, j: JointStep)
    requires AllBlocked(x)
    ensures AllBlocked(Next(x, j)) <==> !FreesSleeper(x, j)
  {
    var steps := MonitorSteps(x, j);
    if steps != [] && steps[0].Operate? {
      OperationLosesExactly(x.monitor, steps[0].op);
      assert (exists w | w in x.monitor.asleep :: Frees(x.monitor.table, steps[0].op, w)) <==> FreesSleeper(x, j);
    }
  }

  ghost predicate AlwaysBlocked(steps: seq<JointStep>) {
    AllBlocked(Run(steps)) && (steps != [] ==> AlwaysBlocked(steps[..|steps| - 1]))
  }

  ghost predicate NeverFreesSleeper(steps: seq<JointStep>) {
    steps != [] ==>
      var n := |steps| - 1;
      NeverFreesSleeper(steps[..n]) && !FreesSleeper(Run(steps[..n]), steps[n])
  }

  /** In every run nobody ever sleeps with its guard true if and only if no FLUSH_STOP comes for
      a source, and no source is attached, that is all that a sleeping thread waits for. */
  lemma {:induction false} WakeupsLostExactly(steps: seq<JointStep>)
    ensures AlwaysBlocked(steps) <==> NeverFreesSleeper(steps)
  {
    if steps != [] {
      var n := |steps| - 1;
      WakeupsLostExactly(steps[..n]);
      if AlwaysBlocked(steps[..n]) {
        NextLosesExactly(Run(steps[..n]), steps[n]);
      }
    }
  }

  /** If only attached sources are flushed and report data, no attach can do it. */
  lemma AttachFreesNobody(steps: seq<JointStep>, j: JointStep)
    requires OnlyAttached(steps)
    ensures !AttachFreesSleeper(Run(steps), j)
  {
    var x := Run(steps);
    if AttachFreesSleeper(x, j) {
      var w :| w in x.monitor.asleep && Sync.Blockers(x.monitor.table, w) == {j.event.id};
      EntryOfBlocker(x.monitor.table, j.event.id, w);
      SourcesAgree(steps);
    }
  }

  lemma EntryOfBlocker(t: Sync.Table, id: int, w: int)
    requires Sync.Blockers(t, w) == {id}
    ensures id in t
  {
    assert id in Sync.Blockers(t, w);
  }

  ghost predicate NoStopFreesSleeper(steps: seq<JointStep>) {
    steps != [] ==>
      var n := |steps| - 1;
      NoStopFreesSleeper(steps[..n]) && !StopFreesSleeper(Run(steps[..n]), steps[n])
  }

  lemma {:induction false} OnlyStopsFree(steps: seq<JointStep>)
    requires OnlyAttached(steps)
    ensures NeverFreesSleeper(steps) <==> NoStopFreesSleeper(steps)
  {
    if steps != [] {
      var n := |steps| - 1;
      OnlyStopsFree(steps[..n]);
      AttachFreesNobody(steps[..n], steps[n]);
    }
  }

  /** Then only a FLUSH_STOP can lose a wakeup. */
  lemma AttachedWakeupsLostExactly(steps: seq<JointStep>)
    requires OnlyAttached(steps)
    ensures AlwaysBlocked(steps) <==> NoStopFreesSleeper(steps)
  {
    WakeupsLostExactly(steps);
    OnlyStopsFree(steps);
  }

  // ----- What the wait at the start of a flush is good for -----

  /** The entry that a record stands for. */
  function EntryNow(since: Since): Sync.SourceState {
    Sync.SourceState(if since.completed then Sync.Flushed else since.entry.flush,
                     if since.entry.data.NoData? && since.received then Sync.DataReceived else since.entry.data)
  }

  /** An entry that ends its own source's wait. */
  predicate LetsGo(s: Sync.SourceState) {
    !s.flush.Flushing? && (s.flush.Idle? || !s.data.DataReceived?)
  }

  /** Something has come in between: data for a source whose flush is over, or the late end of
      an earlier flush for a source with data. */
  predicate IsDisturbed(since: Since) {
    if since.entry.flush.Idle? then
      since.completed && (since.entry.data.DataReceived? || (since.entry.data.NoData? && since.received))
    else
      since.entry.data.NoData? && since.received
  }

  ghost predicate CycleRight(x: Joint, id: int) {
    var cycle := CycleOf(x, id);
    cycle.WaitOver? || cycle.Cleared? ==>
      LetsGo(cycle.since.entry) && Sync.At(x.monitor.table, id) == EntryNow(cycle.since)
  }

  lemma GuardLetsGo(t: Sync.Table, id: int)
    requires Sync.Guard(t, id)
    ensures LetsGo(Sync.At(t, id))
  {
    if id in t {
      assert !Sync.Blocks(t, id, id);
    }
  }

  lemma RecordedIsRight(t: Sync.Table, since: Since, op: Sync.Op)
    requires LetsGo(since.entry) && Sync.At(t, op.id) == EntryNow(since) && !op.FlushStarted?
    ensures var s := Recorded(since, op);
            LetsGo(s.entry) && Sync.At(Sync.Apply(t, op), op.id) == EntryNow(s)
  {
  }

  lemma OtherEntryStays(t: Sync.Table, op: Sync.Op, id: int)
    requires op.id != id
    ensures Sync.At(Sync.Apply(t, op), id) == Sync.At(t, id)
  {
  }

  lemma OwnCycleRight(x: Joint, j: JointStep)
    requires CycleRight(x, SourceOf(j))
    ensures CycleRight(Next(x, j), SourceOf(j))
  {
    var id, steps := SourceOf(j), MonitorSteps(x, j);
    var moved := if j.OfClient? then CycleOf(x, id) else Moved(x, j);
    if Sync.Guard(x.monitor.table, id) {
      GuardLetsGo(x.monitor.table, id);
    }
    if steps != [] && steps[0].Operate? && (moved.WaitOver? || moved.Cleared?) {
      RecordedIsRight(x.monitor.table, moved.since, steps[0].op);
    }
  }

  lemma NextKeepsCycles(x: Joint, j: JointStep, id: int)
    requires CycleRight(x, id) && CycleRight(x, SourceOf(j))
    ensures CycleRight(Next(x, j), id)
  {
    if id == SourceOf(j) {
      OwnCycleRight(x, j);
    } else {
      var steps := MonitorSteps(x, j);
      if steps != [] && steps[0].Operate? {
        OtherEntryStays(x.monitor.table, steps[0].op, id);
      }
    }
  }

  lemma {:induction false} CyclesRightInEveryRun(steps: seq<JointStep>, id: int)
    ensures CycleRight(Run(steps), id)
  {
    if steps != [] {
      var n := |steps| - 1;
      CyclesRightInEveryRun(steps[..n], id);
      CyclesRightInEveryRun(steps[..n], SourceOf(steps[n]));
      NextKeepsCycles(Run(steps[..n]), steps[n], id);
    }
  }

  /** In every run, when the FLUSH_STOP of a flush that has waited comes, its source holds up
      other sources if and only if, since its wait ended, it received data without being idle,
      or the end of an earlier flush came late while it had data. */
  lemma HoldsUpExactlyIfDisturbed(steps: seq<JointStep>, id: int)
    requires CycleOf(Run(steps), id).Cleared?
    ensures Sync.HoldsUpOthers(Run(steps).monitor.table, id) <==> IsDisturbed(CycleOf(Run(steps), id).since)
  {
    CyclesRightInEveryRun(steps, id);
  }

  /** The FLUSH_STOP belongs to a flush that has waited and has not been disturbed since. */
  ghost predicate IsUndisturbed(x: Joint, j: JointStep) {
    j.FlushStopArrives? && MonitorSteps(x, j) != [] ==>
      CycleOf(x, j.id).Cleared? && !IsDisturbed(CycleOf(x, j.id).since)
  }

  ghost predicate AllUndisturbed(steps: seq<JointStep>) {
    steps != [] ==>
      var n := |steps| - 1;
      AllUndisturbed(steps[..n]) && IsUndisturbed(Run(steps[..n]), steps[n])
  }

  lemma BlockerHoldsUp(t: Sync.Table, id: int, w: int)
    requires w != id && Sync.Blockers(t, w) == {id}
    ensures Sync.HoldsUpOthers(t, id)
  {
    assert id in Sync.Blockers(t, w);
  }

  lemma UndisturbedFreesNobody(steps: seq<JointStep>, j: JointStep)
    requires OnlyAttached(steps) && IsAttachedStep(Run(steps), j) && IsUndisturbed(Run(steps), j)
    ensures !FreesSleeper(Run(steps), j)
  {
    var x := Run(steps);
    AttachFreesNobody(steps, j);
    if StopFreesSleeper(x, j) {
      var w :| w in x.monitor.asleep && w != j.id && Sync.Blockers(x.monitor.table, w) == {j.id};
      BlockerHoldsUp(x.monitor.table, j.id, w);
      SourcesAgree(steps);
      HoldsUpExactlyIfDisturbed(steps, j.id);
    }
  }

  lemma {:induction false} UndisturbedNeverFrees(steps: seq<JointStep>)
    requires OnlyAttached(steps) && AllUndisturbed(steps)
    ensures NeverFreesSleeper(steps)
  {
    if steps != [] {
      var n := |steps| - 1;
      UndisturbedNeverFrees(steps[..n]);
      UndisturbedFreesNobody(steps[..n], steps[n]);
    }
  }

  /** In every run in which only attached sources are flushed and report data and no flush is
      disturbed between the end of its wait and its FLUSH_STOP, nobody sleeps with its guard
      true. */
  lemma UndisturbedFlushesLoseNoWakeup(steps: seq<JointStep>)
    requires OnlyAttached(steps) && AllUndisturbed(steps)
    ensures AllBlocked(Run(steps))
  {
    UndisturbedNeverFrees(steps);
    WakeupsLostExactly(steps);
  }

  // ----- Runs that lose a wakeup -----

  /** Two sources are attached. */
  function TwoSources(sink: C.Sink): seq<JointStep> {
    [OfClient(C.Attach(1, C.Audio, true, sink))] + [OfClient(C.Attach(2, C.Video, true, sink))]
  }

  /** Source 1 is flushed. */
  function FlushBegins(): seq<JointStep> {
    [FlushStartArrives(1)] + [Clears(1)] + [FlushStopArrives(1)]
  }

  function FlushEnds(): seq<JointStep> {
    [OfClient(C.Flush(1, true, false))] + [FlushStopEnds(1)] + [OfClient(C.SourceFlushed(1))]
  }

  /** At its next flush a buffer arrives between the end of the wait and the critical section,
      and source 2 begins to wait for that buffer to be pushed. */
  function BufferSlipsIn(): seq<JointStep> {
    [FlushStartArrives(1)] + [BufferArrives(1)] + [FlushStartArrives(2)]
  }

  /** Then the FLUSH_STOP overwrites what source 2 waits for. */
  function LosingRun(sink: C.Sink): seq<JointStep> {
    TwoSources(sink) + FlushBegins() + FlushEnds() + BufferSlipsIn() + ([Clears(1)] + [FlushStopArrives(1)])
  }

  lemma OneStep(steps: seq<JointStep>, j: JointStep)
    ensures Run(steps + [j]) == Next(Run(steps), j)
    ensures OnlyAttached(steps) && IsAttachedStep(Run(steps), j) ==> OnlyAttached(steps + [j])
  {
    assert (steps + [j])[..|steps|] == steps;
  }

  /** Where the two sources and their sinks are. */
  ghost predicate IsAt(x: Joint, flushing1: bool, s1: Sync.SourceState, c1: Cycle, asleep: set<int>) {
    && x.client.sources.Keys == {1, 2} && x.client.sources[1].flushing == flushing1
    && x.monitor.table == map[1 := s1, 2 := Sync.SourceState(Sync.Idle, Sync.NoData)]
    && x.monitor.asleep == asleep
    && CycleOf(x, 1) == c1 && (asleep == {} ==> CycleOf(x, 2) == Flowing)
  }

  ghost predicate HasComeTo(steps: seq<JointStep>, s1: Sync.SourceState, c1: Cycle, asleep: set<int>) {
    OnlyAttached(steps) && IsAt(Run(steps), false, s1, c1, asleep)
  }

  lemma TwoAttached(sink: C.Sink)
    ensures HasComeTo(TwoSources(sink), Sync.SourceState(Sync.Idle, Sync.NoData), Flowing, {})
  {
    var first := OfClient(C.Attach(1, C.Audio, true, sink));
    OneStep([], first);
    assert [] + [first] == [first];
    assert Run([first]).client.sources == map[1 := C.Source(C.Audio, C.Ready, false, sink)];
    OneStep([first], OfClient(C.Attach(2, C.Video, true, sink)));
  }

  lemma FirstFlushStarts(x: Joint)
    requires IsAt(x, false, Sync.SourceState(Sync.Idle, Sync.NoData), Flowing, {})
    ensures var x1 := Next(x, FlushStartArrives(1));
            var x2 := Next(x1, Clears(1));
            && ThreeAttached(x, FlushStartArrives(1), Clears(1), FlushStopArrives(1))
            && IsAt(Next(x2, FlushStopArrives(1)), false, Sync.SourceState(Sync.Flushing, Sync.NoData), Asked(true), {})
  {
    assert Sync.Guard(x.monitor.table, 1);
  }

  lemma FirstFlushEnds(x: Joint)
    requires IsAt(x, false, Sync.SourceState(Sync.Flushing, Sync.NoData), Asked(true), {})
    ensures var x1 := Next(x, OfClient(C.Flush(1, true, false)));
            var x2 := Next(x1, FlushStopEnds(1));
            var x3 := Next(x2, OfClient(C.SourceFlushed(1)));
            && ThreeAttached(x, OfClient(C.Flush(1, true, false)), FlushStopEnds(1), OfClient(C.SourceFlushed(1)))
            && IsAt(x3, false, Sync.SourceState(Sync.Flushed, Sync.NoData), Flowing, {})
  {
  }

  lemma BufferComesInBetween(x: Joint)
    requires IsAt(x, false, Sync.SourceState(Sync.Flushed, Sync.NoData), Flowing, {})
    ensures var x1 := Next(x, FlushStartArrives(1));
            var x2 := Next(x1, BufferArrives(1));
            var x3 := Next(x2, FlushStartArrives(2));
            && ThreeAttached(x, FlushStartArrives(1), BufferArrives(1), FlushStartArrives(2))
            && IsAt(x3, false, Sync.SourceState(Sync.Flushed, Sync.DataReceived), CycleOf(x3, 1), {2})
            && CycleOf(x3, 1).WaitOver?
  {
    var x1 := Next(x, FlushStartArrives(1));
    var x2 := Next(x1, BufferArrives(1));
    assert Sync.Guard(x.monitor.table, 1);
    assert Sync.Blocks(x2.monitor.table, 1, 2);
  }

  lemma SecondFlushFrees(x: Joint)
    requires IsAt(x, false, Sync.SourceState(Sync.Flushed, Sync.DataReceived), CycleOf(x, 1), {2})
    requires CycleOf(x, 1).WaitOver?
    ensures var x1 := Next(x, Clears(1));
            var x2 := Next(x1, FlushStopArrives(1));
            2 in x2.monitor.asleep && Sync.Guard(x2.monitor.table, 2)
  {
  }

  /** Three more steps, none of which names a source that is not attached. */
  ghost predicate ThreeAttached(x: Joint, a: JointStep, b: JointStep, c: JointStep) {
    IsAttachedStep(x, a) && IsAttachedStep(Next(x, a), b) && IsAttachedStep(Next(Next(x, a), b), c)
  }

  lemma ThreeMore(steps: seq<JointStep>, a: JointStep, b: JointStep, c: JointStep)
    ensures Run(steps + ([a] + [b] + [c])) == Next(Next(Next(Run(steps), a), b), c)
  {
    Regroup(steps, a, b, c);
    var s1 := steps + [a];
    var s2 := s1 + [b];
    OneStep(steps, a);
    OneStep(s1, b);
    OneStep(s2, c);
  }

  lemma Regroup(steps: seq<JointStep>, a: JointStep, b: JointStep, c: JointStep)
    ensures steps + ([a] + [b] + [c]) == steps + [a] + [b] + [c]
  {
  }

  lemma AttachedGrows(steps: seq<JointStep>, j: JointStep)
    requires OnlyAttached(steps) && IsAttachedStep(Run(steps), j)
    ensures OnlyAttached(steps + [j])
  {
    assert (steps + [j])[..|steps|] == steps;
  }

  lemma ThreeSteps(steps: seq<JointStep>, a: JointStep, b: JointStep, c: JointStep)
    requires OnlyAttached(steps) && ThreeAttached(Run(steps), a, b, c)
    ensures var all := steps + ([a] + [b] + [c]);
            Run(all) == Next(Next(Next(Run(steps), a), b), c) && OnlyAttached(all)
  {
    ThreeMore(steps, a, b, c);
    Regroup(steps, a, b, c);
    OneStep(steps, a);
    OneStep(steps + [a], b);
    AttachedGrows(steps + [a] + [b], c);
  }

  lemma StageOne(steps: seq<JointStep>)
    requires HasComeTo(steps, Sync.SourceState(Sync.Idle, Sync.NoData), Flowing, {})
    ensures HasComeTo(steps + FlushBegins(), Sync.SourceState(Sync.Flushing, Sync.NoData), Asked(true), {})
  {
    FirstFlushStarts(Run(steps));
    ThreeSteps(steps, FlushStartArrives(1), Clears(1), FlushStopArrives(1));
  }

  lemma StageTwo(steps: seq<JointStep>)
    requires HasComeTo(steps, Sync.SourceState(Sync.Flushing, Sync.NoData), Asked(true), {})
    ensures HasComeTo(steps + FlushEnds(), Sync.SourceState(Sync.Flushed, Sync.NoData), Flowing, {})
  {
    FirstFlushEnds(Run(steps));
    ThreeSteps(steps, OfClient(C.Flush(1, true, false)), FlushStopEnds(1), OfClient(C.SourceFlushed(1)));
  }

  lemma StageThree(steps: seq<JointStep>)
    requires HasComeTo(steps, Sync.SourceState(Sync.Flushed, Sync.NoData), Flowing, {})
    ensures var all := steps + BufferSlipsIn();
            var c1 := CycleOf(Run(all), 1);
            c1.WaitOver? && HasComeTo(all, Sync.SourceState(Sync.Flushed, Sync.DataReceived), c1, {2})
  {
    BufferComesInBetween(Run(steps));
    ThreeSteps(steps, FlushStartArrives(1), BufferArrives(1), FlushStartArrives(2));
  }

  lemma StageFour(steps: seq<JointStep>)
    requires CycleOf(Run(steps), 1).WaitOver?
    requires HasComeTo(steps, Sync.SourceState(Sync.Flushed, Sync.DataReceived), CycleOf(Run(steps), 1), {2})
    ensures var all := steps + ([Clears(1)] + [FlushStopArrives(1)]);
            OnlyAttached(all) && 2 in Run(all).monitor.asleep && Sync.Guard(Run(all).monitor.table, 2)
  {
    SecondFlushFrees(Run(steps));
    OneStep(steps, Clears(1));
    OneStep(steps + [Clears(1)], FlushStopArrives(1));
    assert steps + ([Clears(1)] + [FlushStopArrives(1)]) == steps + [Clears(1)] + [FlushStopArrives(1)];
  }

  /** In this run only attached sources are flushed and report data, every flush waits, and
      still source 2 ends up asleep with its guard true. */
  lemma BufferAfterWaitLosesWakeup(sink: C.Sink)
    ensures var x := Run(LosingRun(sink)); 2 in x.monitor.asleep && Sync.Guard(x.monitor.table, 2)
    ensures OnlyAttached(LosingRun(sink))
  {
    var two := TwoSources(sink);
    TwoAttached(sink);
    StageOne(two);
    StageTwo(two + FlushBegins());
    StageThree(two + FlushBegins() + FlushEnds());
    StageFour(two + FlushBegins() + FlushEnds() + BufferSlipsIn());
  }

  // -- A flush between two attaches --

  /** The sink keeps its source's id after a removal.  A flush then makes an entry for it, and
      attaching the source again overwrites the entry without waking the thread that waits. */
  function FlushBetweenAttaches(sink: C.Sink): seq<JointStep> {
    [OfClient(C.Attach(1, C.Audio, true, sink))] + [OfClient(C.Remove(1))]
    + ([FlushStopArrives(1)] + [FlushStopEnds(1)] + [FlushStartArrives(1)])
    + [OfClient(C.Attach(1, C.Audio, true, sink))]
  }

  lemma AttachedAndRemoved(sink: C.Sink)
    ensures var x := Run([OfClient(C.Attach(1, C.Audio, true, sink))] + [OfClient(C.Remove(1))]);
            x.client.sources == map[] && x.monitor == Sync.Monitor(map[], {}, {}) && CycleOf(x, 1) == Flowing
  {
    var first := OfClient(C.Attach(1, C.Audio, true, sink));
    OneStep([], first);
    assert [] + [first] == [first];
    assert Run([first]).client.sources == map[1 := C.Source(C.Audio, C.Ready, false, sink)];
    OneStep([first], OfClient(C.Remove(1)));
  }

  lemma FlushMakesEntry(x: Joint)
    requires x.client.sources == map[] && x.monitor == Sync.Monitor(map[], {}, {}) && CycleOf(x, 1) == Flowing
    ensures var y := Next(Next(Next(x, FlushStopArrives(1)), FlushStopEnds(1)), FlushStartArrives(1));
            && y.client == x.client && 1 in y.monitor.asleep
            && y.monitor.table == map[1 := Sync.SourceState(Sync.Flushing, Sync.NoData)]
  {
    var x1 := Next(Next(x, FlushStopArrives(1)), FlushStopEnds(1));
    assert Sync.Blocks(x1.monitor.table, 1, 1);
  }

  lemma FlushBetweenAttachesLosesWakeup(sink: C.Sink)
    ensures var x := Run(FlushBetweenAttaches(sink)); 1 in x.monitor.asleep && Sync.Guard(x.monitor.table, 1)
  {
    var two := [OfClient(C.Attach(1, C.Audio, true, sink))] + [OfClient(C.Remove(1))];
    var five := two + ([FlushStopArrives(1)] + [FlushStopEnds(1)] + [FlushStartArrives(1)]);
    AttachedAndRemoved(sink);
    FlushMakesEntry(Run(two));
    ThreeMore(two, FlushStopArrives(1), FlushStopEnds(1), FlushStartArrives(1));
    AttachOverwrites(Run(five), sink);
    OneStep(five, OfClient(C.Attach(1, C.Audio, true, sink)));
  }

  lemma AttachOverwrites(x: Joint, sink: C.Sink)
    requires x.client.sources == map[] && 1 in x.monitor.asleep
    requires x.monitor.table == map[1 := Sync.SourceState(Sync.Flushing, Sync.NoData)]
    ensures var y := Next(x, OfClient(C.Attach(1, C.Audio, true, sink)));
            1 in y.monitor.asleep && Sync.Guard(y.monitor.table, 1)
  {
  }
}
