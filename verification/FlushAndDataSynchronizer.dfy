/** The monitor that orders flushes and data across the sources.

    A thread waiting for source `w` sleeps on one condition variable until its guard
    holds; operations change the table and some of them wake every sleeper. */
module FlushAndDataSynchronizer {

  datatype FlushState = Idle | Flushing | Flushed

  datatype DataState = NoData | DataReceived | DataPushed

  datatype SourceState = SourceState(flush: FlushState, data: DataState)

  type Table = map<int, SourceState>

  datatype Op =
    | AddSource(id: int)
    | RemoveSource(id: int)
    | FlushStarted(id: int)
    | FlushCompleted(id: int)
    | ReceiveData(id: int)
    | PushData(id: int)

  /** Reading an absent source creates it idle and without data. */
  function At(t: Table, id: int): SourceState {
    if id in t then t[id] else SourceState(Idle, NoData)
  }

  function Apply(t: Table, op: Op): Table {
    var s := At(t, op.id);
    match op
    case AddSource(id) => t[id := SourceState(Idle, NoData)]
    case RemoveSource(id) => t - {id}
    case FlushStarted(id) => t[id := SourceState(Flushing, NoData)]
    case FlushCompleted(id) => t[id := s.(flush := Flushed)]
    case ReceiveData(id) => t[id := if s.data.NoData? then s.(data := DataReceived) else s]
    case PushData(id) => t[id := SourceState(Idle, DataPushed)]
  }

  /** The operations that end with notify_all. */
  predicate Signals(op: Op) {
    op.RemoveSource? || op.FlushCompleted? || op.PushData?
  }

  /** Source `s` holds up the flush of source `w`. */
  predicate Blocks(t: Table, s: int, w: int) {
    && s in t
    && (|| (s == w && t[s].flush.Flushing?)
        || (!t[s].flush.Idle? && t[s].data.DataReceived?))
  }

  function Blockers(t: Table, w: int): set<int> {
    set s | s in t && Blocks(t, s, w)
  }

  predicate Guard(t: Table, w: int) {
    forall s | s in t :: !Blocks(t, s, w)
  }

  lemma GuardIsNoBlockers(t: Table, w: int)
    ensures Guard(t, w) <==> Blockers(t, w) == {}
  {
    if Guard(t, w) {
      assert Blockers(t, w) == {};
    } else {
      var s :| s in t && Blocks(t, s, w);
      assert s in Blockers(t, w);
    }
  }

  // ----- No lost wakeup -----

  /** The step frees the waiter without waking it. */
  predicate LosesWakeup(t: Table, op: Op, w: int) {
    !Guard(t, w) && Guard(Apply(t, op), w) && !Signals(op)
  }

  /** Exactly the two silent operations that overwrite a source lose a wakeup, and only when
      that source is the waiter's one blocker: re-adding it, or starting another source's flush. */
  lemma LostWakeupExactly(t: Table, op: Op, w: int)
    ensures LosesWakeup(t, op, w) <==>
            (op.AddSource? || (op.FlushStarted? && op.id != w)) && Blockers(t, w) == {op.id}
  {
    var t' := Apply(t, op);
    GuardIsNoBlockers(t, w);
    GuardIsNoBlockers(t', w);
    assert forall s | s != op.id :: Blocks(t, s, w) <==> Blocks(t', s, w);
    assert forall s :: s in Blockers(t, w) <==> Blocks(t, s, w);
    assert forall s :: s in Blockers(t', w) <==> Blocks(t', s, w);
    if op.AddSource? || (op.FlushStarted? && op.id != w) {
      assert !Blocks(t', op.id, w);
      if Blockers(t, w) == {op.id} {
        assert Blockers(t', w) == {};
      } else if Blockers(t', w) == {} {
        assert Blockers(t, w) <= {op.id};
      }
    } else if !Signals(op) {
      assert Blocks(t, op.id, w) ==> Blocks(t', op.id, w);
      assert Blockers(t, w) <= Blockers(t', w);
    }
  }

  // ----- Waiters -----

  /** Threads: `asleep` sleep in wait, `awake` were woken and have yet to look again. */
  datatype Monitor = Monitor(table: Table, asleep: set<int>, awake: set<int>)

  datatype Step =
    | Operate(op: Op)
    | StartWaiting(w: int)
    | LookAgain(w: int)

  /** What the callers promise: a source is added only when absent, and a flush is started
      only by a source that does not hold up others with data still to be pushed. */
  predicate Allowed(m: Monitor, step: Step) {
    step.Operate? ==>
      && (step.op.AddSource? ==> step.op.id !in m.table)
      && (step.op.FlushStarted? ==> !HoldsUpOthers(m.table, step.op.id))
  }

  predicate HoldsUpOthers(t: Table, s: int) {
    s in t && !t[s].flush.Idle? && t[s].data.DataReceived?
  }

  function Next(m: Monitor, step: Step): Monitor {
    match step
    case Operate(op) =>
      if Signals(op) then Monitor(Apply(m.table, op), {}, m.awake + m.asleep)
      else m.(table := Apply(m.table, op))
    case StartWaiting(w) =>
      if Guard(m.table, w) then m else m.(asleep := m.asleep + {w}, awake := m.awake - {w})
    case LookAgain(w) =>
      if w !in m.awake then m
      else if Guard(m.table, w) then m.(awake := m.awake - {w})
      else m.(asleep := m.asleep + {w}, awake := m.awake - {w})
  }

  function Run(steps: seq<Step>): Monitor {
    if steps == [] then Monitor(map[], {}, {}) else Next(Run(steps[..|steps| - 1]), steps[|steps| - 1])
  }

  ghost predicate AllAllowed(steps: seq<Step>) {
    forall i | 0 <= i < |steps| :: Allowed(Run(steps[..i]), steps[i])
  }

  lemma NextKeepsSleepersBlocked(m: Monitor, step: Step)
    requires Allowed(m, step)
    requires forall w | w in m.asleep :: !Guard(m.table, w)
    ensures forall w | w in Next(m, step).asleep :: !Guard(Next(m, step).table, w)
  {
    if step.Operate? && !Signals(step.op) {
      var op := step.op;
      forall w | w in m.asleep
        ensures !Guard(Apply(m.table, op), w)
      {
        LostWakeupExactly(m.table, op, w);
        assert op.id in Blockers(m.table, w) ==> Blocks(m.table, op.id, w);
        assert op.id in {op.id};
      }
    }
  }

  /** In every allowed run nobody sleeps while its guard holds: each step that freed a waiter
      has woken it. */
  lemma {:induction false} NobodySleepsWithGuardTrue(steps: seq<Step>)
    requires AllAllowed(steps)
    ensures forall w | w in Run(steps).asleep :: !Guard(Run(steps).table, w)
  {
    if steps != [] {
      var n := |steps| - 1;
      forall i | 0 <= i < n
        ensures Allowed(Run(steps[..n][..i]), steps[..n][i])
      {
        assert steps[..n][..i] == steps[..i];
      }
      NobodySleepsWithGuardTrue(steps[..n]);
      NextKeepsSleepersBlocked(Run(steps[..n]), steps[n]);
    }
  }

  /** A source with data still to be pushed starts another flush while source 2 waits for it. */
  function LosingRun(): seq<Step> {
    [Operate(AddSource(1))] + [Operate(FlushStarted(1))] + [Operate(FlushCompleted(1))] + [Operate(ReceiveData(1))]
    + [StartWaiting(2)] + [Operate(FlushStarted(1))]
  }

  lemma RunGrows(steps: seq<Step>, step: Step)
    ensures Run(steps + [step]) == Next(Run(steps), step)
  {
    assert (steps + [step])[..|steps|] == steps;
  }

  /** Without what the callers promise the property fails: here a waiter sleeps with its guard
      true, and nobody has woken it. */
  lemma LostWakeupHappens()
    ensures var m := Run(LosingRun()); 2 in m.asleep && Guard(m.table, 2)
    ensures !AllAllowed(LosingRun())
  {
    var s1 := [Operate(AddSource(1))];
    var s2 := s1 + [Operate(FlushStarted(1))];
    var s3 := s2 + [Operate(FlushCompleted(1))];
    var s4 := s3 + [Operate(ReceiveData(1))];
    var s5 := s4 + [StartWaiting(2)];
    RunGrows([], Operate(AddSource(1)));
    assert [] + s1 == s1;
    RunGrows(s1, Operate(FlushStarted(1)));
    RunGrows(s2, Operate(FlushCompleted(1)));
    RunGrows(s3, Operate(ReceiveData(1)));
    RunGrows(s4, StartWaiting(2));
    RunGrows(s5, Operate(FlushStarted(1)));
    assert Blocks(Run(s4).table, 1, 2);
    if AllAllowed(LosingRun()) {
      NobodySleepsWithGuardTrue(LosingRun());
    }
  }

  /** A source whose own guard holds may start its flush. */
  lemma OwnGuardAllowsFlush(m: Monitor, s: int)
    requires Guard(m.table, s)
    ensures Allowed(m, Operate(FlushStarted(s)))
  {
    if HoldsUpOthers(m.table, s) {
      assert Blocks(m.table, s, s);
    }
  }

  // ----- Progress -----

  /** Pushing a blocker's data removes it, and nothing else, from the blockers. */
  lemma PushShrinksBlockers(t: Table, s: int, w: int)
    ensures Blockers(Apply(t, PushData(s)), w) == Blockers(t, w) - {s}
  {
    var t' := Apply(t, PushData(s));
    assert forall b | b != s :: Blocks(t, b, w) <==> Blocks(t', b, w);
    assert !Blocks(t', s, w);
  }

  /** Completing the waiter's own flush does so too, unless its data is still to be pushed. */
  lemma OwnCompletionShrinksBlockers(t: Table, w: int)
    ensures Blockers(Apply(t, FlushCompleted(w)), w) ==
            if At(t, w).data.DataReceived? then Blockers(t, w) + {w} else Blockers(t, w) - {w}
  {
    var t' := Apply(t, FlushCompleted(w));
    assert forall b | b != w :: Blocks(t, b, w) <==> Blocks(t', b, w);
    assert Blocks(t', w, w) <==> At(t, w).data.DataReceived?;
  }

  function ApplyAll(t: Table, ops: seq<Op>): Table {
    if ops == [] then t else Apply(ApplyAll(t, ops[..|ops| - 1]), ops[|ops| - 1])
  }

  /** The operation gives source `s` a new start. */
  predicate Restarts(op: Op, s: int) {
    op.id == s && (op.AddSource? || op.RemoveSource? || op.FlushStarted?)
  }

  /** After its data was pushed, a source blocks nobody, through late flush completions and
      further data, until it is restarted. */
  lemma {:induction false} PushedSourceBlocksNobody(t: Table, s: int, ops: seq<Op>)
    requires s in t && t[s].data.DataPushed? && !t[s].flush.Flushing?
    requires forall op | op in ops :: !Restarts(op, s)
    ensures var t' := ApplyAll(t, ops);
            && s in t' && t'[s].data.DataPushed? && !t'[s].flush.Flushing?
            && forall w :: !Blocks(t', s, w)
  {
    if ops != [] {
      var n := |ops| - 1;
      assert ops[n] in ops;
      PushedSourceBlocksNobody(t, s, ops[..n]);
    }
  }

  lemma {:induction false} ApplyAllSplits(t: Table, a: seq<Op>, b: seq<Op>)
    ensures ApplyAll(t, a + b) == ApplyAll(ApplyAll(t, a), b)
  {
    if b == [] {
      assert a + b == a;
    } else {
      assert (a + b)[..|a + b| - 1] == a + b[..|b| - 1];
      ApplyAllSplits(t, a, b[..|b| - 1]);
    }
  }

  lemma {:induction false} UntouchedSource(t: Table, s: int, ops: seq<Op>)
    requires forall op | op in ops :: op.id != s
    ensures s in ApplyAll(t, ops) <==> s in t
    ensures At(ApplyAll(t, ops), s) == At(t, s)
  {
    if ops != [] {
      var n := |ops| - 1;
      assert ops[n] in ops;
      UntouchedSource(t, s, ops[..n]);
    }
  }

  /** A source whose data was pushed at `k` blocks nobody at the end. */
  lemma PushedAtBlocksNobody(t: Table, ops: seq<Op>, k: nat, w: int)
    requires k < |ops| && ops[k].PushData?
    requires forall op | op in ops :: !Restarts(op, ops[k].id)
    ensures !Blocks(ApplyAll(t, ops), ops[k].id, w)
  {
    assert ops == ops[..k + 1] + ops[k + 1..];
    ApplyAllSplits(t, ops[..k + 1], ops[k + 1..]);
    assert ops[..k + 1][..k] == ops[..k];
    assert forall op | op in ops[k + 1..] :: op in ops;
    PushedSourceBlocksNobody(ApplyAll(t, ops[..k + 1]), ops[k].id, ops[k + 1..]);
  }

  /** Wait progress: once the data of every blocker, and of every source that was active in
      the meantime, has been pushed, with no source restarted, the waiter's guard holds. */
  lemma WaiterIsReleased(t: Table, ops: seq<Op>, w: int)
    requires forall op, s | op in ops :: !Restarts(op, s)
    requires forall s | s in Blockers(t, w) :: PushData(s) in ops
    requires forall op | op in ops :: PushData(op.id) in ops
    ensures Guard(ApplyAll(t, ops), w)
  {
    var t' := ApplyAll(t, ops);
    forall s | s in t'
      ensures !Blocks(t', s, w)
    {
      if PushData(s) in ops {
        var k :| 0 <= k < |ops| && ops[k] == PushData(s);
        PushedAtBlocksNobody(t, ops, k, w);
      } else {
        UntouchedSource(t, s, ops);
        assert Blocks(t', s, w) ==> s in Blockers(t, w);
      }
    }
  }

  // ----- The monitor as an object -----

  class Synchronizer {
    var states: Table
    /** How often the condition variable has been signalled. */
    ghost var signals: nat
    ghost var ops: seq<Op>

    ghost predicate Valid()
      reads this
    {
      states == ApplyAll(map[], ops)
    }

    constructor ()
      ensures Valid() && states == map[] && signals == 0 && ops == []
    {
      states, signals, ops := map[], 0, [];
    }

    /** Exactly this operation has been carried out, with its signal. */
    twostate predicate Performed(op: Op)
      reads this
    {
      && states == Apply(old(states), op)
      && signals == old(signals) + (if Signals(op) then 1 else 0)
      && ops == old(ops) + [op]
    }

    method Add(id: int)
      requires Valid()
      modifies this
      ensures Valid() && Performed(AddSource(id))
    {
      states := states[id := SourceState(Idle, NoData)];
      Record(AddSource(id));
    }

    method Remove(id: int)
      requires Valid()
      modifies this
      ensures Valid() && Performed(RemoveSource(id))
    {
      states := states - {id};
      signals := signals + 1;
      Record(RemoveSource(id));
    }

    /** The source's state, created if absent. */
    method Touch(id: int) returns (s: SourceState)
      modifies this`states
      ensures s == At(old(states), id) && states == old(states)[id := s]
    {
      if id !in states {
        states := states[id := SourceState(Idle, NoData)];
      }
      s := states[id];
    }

    method NotifyFlushStarted(id: int)
      requires Valid()
      modifies this
      ensures Valid() && Performed(FlushStarted(id))
    {
      var s := Touch(id);
      states := states[id := s.(flush := Flushing)];
      states := states[id := states[id].(data := NoData)];
      Record(FlushStarted(id));
    }

    method NotifyFlushCompleted(id: int)
      requires Valid()
      modifies this
      ensures Valid() && Performed(FlushCompleted(id))
    {
      var s := Touch(id);
      states := states[id := s.(flush := Flushed)];
      signals := signals + 1;
      Record(FlushCompleted(id));
    }

    method NotifyDataReceived(id: int)
      requires Valid()
      modifies this
      ensures Valid() && Performed(ReceiveData(id))
    {
      var s := Touch(id);
      if s.data.NoData? {
        states := states[id := s.(data := DataReceived)];
      }
      Record(ReceiveData(id));
    }

    method NotifyDataPushed(id: int)
      requires Valid()
      modifies this
      ensures Valid() && Performed(PushData(id))
    {
      var s := Touch(id);
      states := states[id := s.(data := DataPushed)];
      states := states[id := states[id].(flush := Idle)];
      signals := signals + 1;
      Record(PushData(id));
    }

    ghost method Record(op: Op)
      requires states == Apply(ApplyAll(map[], ops), op)
      modifies this`ops
      ensures Valid() && ops == old(ops) + [op]
    {
      assert (ops + [op])[..|ops|] == ops;
      ops := ops + [op];
    }

    /** True if a waiter for `id` may go on: the none_of over the table. */
    method MayProceed(id: int) returns (go: bool)
      ensures go <==> Blockers(states, id) == {}
    {
      GuardIsNoBlockers(states, id);
      go := forall s | s in states ::
        !((s == id && states[s].flush.Flushing?) || (!states[s].flush.Idle? && states[s].data.DataReceived?));
    }
  }
}
