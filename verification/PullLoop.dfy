/** Answering a need-data request: the puller thread moves samples from the sink's queue to
    the server while the streaming thread keeps adding samples at the tail.

    Everything the loop's contract speaks of is on record elsewhere: the sink's log holds
    every answer the sink gave and every arrival, the backend's log every attempt to map,
    parse and add a sample, with its answer. */
module PullLoop {
  import opened Wrappers
  import opened PullModel
  import opened PullModeDelegate
  import Sync = FlushAndDataSynchronizer

  datatype MediaStatus = Ok | Eos | NoAvailableSamples | Error

  datatype AddSegmentStatus = SegmentAdded | NoSpace | AddFailed

  datatype HaveData = HaveData(status: MediaStatus, sourceId: int, requestId: nat)

  datatype Attempt =
    | Mapped(sample: nat, ok: bool)
    | Parsed(sample: nat, ok: bool)
    | Offered(sample: nat, status: AddSegmentStatus)

  /** gst_buffer_map, the parser and the server; their answers are their own. */
  class Backend {
    var segments: seq<nat>
    ghost var attempts: seq<Attempt>

    method MapBuffer(sample: nat) returns (ok: bool)
      modifies this`attempts
      ensures attempts == old(attempts) + [Mapped(sample, ok)]
    {
      ok := *;
      attempts := attempts + [Mapped(sample, ok)];
    }

    method ParseBuffer(sample: nat) returns (ok: bool)
      modifies this`attempts
      ensures attempts == old(attempts) + [Parsed(sample, ok)]
    {
      ok := *;
      attempts := attempts + [Parsed(sample, ok)];
    }

    method AddSegment(sample: nat) returns (status: AddSegmentStatus)
      modifies this
      ensures attempts == old(attempts) + [Offered(sample, status)]
      ensures segments == old(segments) + if status.SegmentAdded? then [sample] else []
    {
      status := *;
      attempts := attempts + [Offered(sample, status)];
      if status.SegmentAdded? {
        segments := segments + [sample];
      }
    }
  }

  /** The client's queue, as far as have-data messages go. */
  class Outbox {
    var posted: seq<HaveData>
  }

  // ----- Reading the sink's log -----

  /** What the puller itself has been told by the sink. */
  predicate IsOwnCall(e: Entry) {
    e.ReadyAnswered? || e.EosAnswered? || e.Returned? || e.NothingReturned? || e.Popped?
  }

  function OwnCalls(log: seq<Entry>): seq<Entry> {
    if log == [] then []
    else OwnCalls(log[..|log| - 1]) + if IsOwnCall(log[|log| - 1]) then [log[|log| - 1]] else []
  }

  /** The samples that came in at the tail. */
  function Arrived(log: seq<Entry>): seq<nat> {
    if log == [] then []
    else Arrived(log[..|log| - 1]) + if log[|log| - 1].Queued? then [log[|log| - 1].sample] else []
  }

  /** The samples that left at the front. */
  function PoppedIn(log: seq<Entry>): seq<nat> {
    if log == [] then []
    else PoppedIn(log[..|log| - 1]) + if log[|log| - 1].Popped? then [log[|log| - 1].sample] else []
  }

  lemma {:induction false} LogsJoin(a: seq<Entry>, b: seq<Entry>)
    ensures OwnCalls(a + b) == OwnCalls(a) + OwnCalls(b)
    ensures Arrived(a + b) == Arrived(a) + Arrived(b)
    ensures PoppedIn(a + b) == PoppedIn(a) + PoppedIn(b)
  {
    if b == [] {
      assert a + b == a;
    } else {
      assert (a + b)[..|a + b| - 1] == a + b[..|b| - 1];
      LogsJoin(a, b[..|b| - 1]);
    }
  }

  lemma {:induction false} PopsAreOwnCalls(log: seq<Entry>)
    ensures PoppedIn(log) == PoppedIn(OwnCalls(log))
  {
    if log != [] {
      var n := |log| - 1;
      PopsAreOwnCalls(log[..n]);
      LogsJoin(OwnCalls(log[..n]), if IsOwnCall(log[n]) then [log[n]] else []);
      assert IsOwnCall(log[n]) ==> [log[n]][..0] == [];
    }
  }

  /** Nothing is lost, duplicated or reordered between two queues. */
  ghost predicate Kept(start: seq<nat>, log: seq<Entry>, queue: seq<nat>) {
    start + Arrived(log) == PoppedIn(log) + queue
  }

  lemma KeptJoins(start: seq<nat>, a: seq<Entry>, mid: seq<nat>, b: seq<Entry>, queue: seq<nat>)
    requires Kept(start, a, mid) && Kept(mid, b, queue)
    ensures Kept(start, a + b, queue)
  {
    LogsJoin(a, b);
    assert start + Arrived(a + b) == start + Arrived(a) + Arrived(b);
    assert PoppedIn(a) + mid + Arrived(b) == PoppedIn(a) + (mid + Arrived(b));
  }

  lemma OneEntry(e: Entry)
    ensures OwnCalls([e]) == if IsOwnCall(e) then [e] else []
    ensures Arrived([e]) == if e.Queued? then [e.sample] else []
    ensures PoppedIn([e]) == if e.Popped? then [e.sample] else []
  {
    assert [e][..0] == [];
  }

  // ----- The other threads -----

  /** What the other threads may do between two critical sections of the puller as long as
      none of them clears the queue: add samples at the tail, deliver events, ask the server to
      flush, complete a flush, let the sink's flag fall. */
  ghost predicate Rely(st: State, log: seq<Entry>, st': State) {
    && OwnCalls(log) == []
    && PoppedIn(log) == []
    && st'.samples == st.samples + Arrived(log)
    && (st.isEos ==> st'.isEos)
    && (st.segmentSet ==> st'.segmentSet)
  }

  /** Every step of another thread but FLUSH_START and PAUSED to READY. */
  predicate IsEnvironment(e: Event) {
    && !e.AskReady? && !e.AskEos? && !e.GetFrontSample? && !e.PopSample?
    && !e.FlushStart? && !e.PausedToReady?
  }

  lemma FinishRelies(st: State, n: nat, sampleMade: bool)
    ensures var o := FinishBuffer(st, n, sampleMade);
            |o.log| == 1 && Rely(st, o.log, o.state)
  {
    var o := FinishBuffer(st, n, sampleMade);
    OneEntry(o.log[0]);
    assert o.log == [o.log[0]];
  }

  lemma ReceiptRelies(st: State, st': State, n: nat)
    requires st' == st.(received := st'.received, waiting := st'.waiting, signalled := st'.signalled)
    ensures Rely(st, [Received(n)], st')
  {
    OneEntry(Received(n));
    assert st.samples + [] == st.samples;
  }

  lemma ArrivalRelies(st: State, sampleMade: bool)
    requires st.waiting.None?
    ensures var o := Step(st, BufferArrives(sampleMade)); Rely(st, o.log, o.state)
  {
    var n := st.received;
    var st1 := st.(received := n + 1);
    if |st.samples| < MAX_QUEUED {
      var o := FinishBuffer(st1, n, sampleMade);
      FinishRelies(st1, n, sampleMade);
      ReceiptRelies(st, st1, n);
      RelyJoins(st, [Received(n)], st1, o.log, o.state);
    } else {
      ReceiptRelies(st, st1.(waiting := Some(n), signalled := false), n);
    }
  }

  lemma EnvironmentRelies(st: State, e: Event)
    requires IsEnvironment(e)
    ensures Rely(st, Step(st, e).log, Step(st, e).state)
  {
    match e
    case BufferArrives(sampleMade) => if st.waiting.None? { ArrivalRelies(st, sampleMade); } else { FlagsRely(st, st); }
    case BufferResumes(sampleMade) =>
      if st.waiting.Some? && st.signalled {
        FinishRelies(st.(waiting := None, signalled := false), st.waiting.value, sampleMade);
      } else {
        FlagsRely(st, st);
      }
    case FlushServer => NoticeRelies(st, ServerFlushAsked, Step(st, e).state);
    case FlushCompleted => NoticeRelies(st, ServerFlushEnded, Step(st, e).state);
    case SegmentEvent(_) => FlagsRely(st, Step(st, e).state);
    case EosEvent => FlagsRely(st, Step(st, e).state);
    case FlushStop => FlagsRely(st, Step(st, e).state);
    case ReadyToPaused => FlagsRely(st, Step(st, e).state);
  }

  /** A step that only touches flags. */
  lemma FlagsRely(st: State, st': State)
    requires st'.samples == st.samples && (st.isEos ==> st'.isEos) && (st.segmentSet ==> st'.segmentSet)
    ensures Rely(st, [], st')
  {
    assert st.samples + [] == st.samples;
  }

  lemma NoticeRelies(st: State, e: Entry, st': State)
    requires e.ServerFlushAsked? || e.ServerFlushEnded?
    requires st'.samples == st.samples && st'.isEos == st.isEos && st'.segmentSet == st.segmentSet
    ensures Rely(st, [e], st')
  {
    OneEntry(e);
    assert st.samples + [] == st.samples;
  }

  lemma RelyJoins(st: State, a: seq<Entry>, st1: State, b: seq<Entry>, st2: State)
    requires Rely(st, a, st1) && Rely(st1, b, st2)
    ensures Rely(st, a + b, st2)
  {
    LogsJoin(a, b);
    assert st.samples + Arrived(a) + Arrived(b) == st.samples + (Arrived(a) + Arrived(b));
  }

  lemma RelyGoesOn(st: State, base: seq<Entry>, log: seq<Entry>, st1: State, log': seq<Entry>, st2: State)
    requires base <= log <= log'
    requires Rely(st, log[|base|..], st1) && Rely(st1, log'[|log|..], st2)
    ensures Rely(st, log'[|base|..], st2)
  {
    RelyJoins(st, log[|base|..], st1, log'[|log|..], st2);
    assert log'[|base|..] == log[|base|..] + log'[|log|..];
  }

  /** How often a source's data was reported as pushed. */
  function Pushes(ops: seq<Sync.Op>, id: int): nat {
    if ops == [] then 0
    else Pushes(ops[..|ops| - 1], id) + if ops[|ops| - 1] == Sync.PushData(id) then 1 else 0
  }

  lemma PushesGrow(ops: seq<Sync.Op>, op: Sync.Op, id: int)
    ensures Pushes(ops + [op], id) == Pushes(ops, id) + if op == Sync.PushData(id) then 1 else 0
  {
    assert (ops + [op])[..|ops|] == ops;
  }

  /** One step of another thread on the sink. */
  method OtherThreadStep(d: Delegate, ghost id: int)
    requires d.Valid() && d.sync.Valid()
    modifies d, d.sync
    ensures d.Valid() && d.sync.Valid() && old(d.log) <= d.log
    ensures Rely(old(d.View()), d.log[|old(d.log)|..], d.View())
    ensures Pushes(d.sync.ops, id) == Pushes(old(d.sync.ops), id)
  {
    var choice: int := *;
    var sampleMade: bool := *;
    var hasClient: bool := *;
    ghost var e;
    PushesGrow(d.sync.ops, Sync.ReceiveData(d.sourceId), id);
    if choice == 0 {
      d.HandleBuffer(sampleMade, hasClient);
      e := BufferArrives(sampleMade);
    } else if choice == 1 {
      d.ResumeBuffer(sampleMade, hasClient);
      e := BufferResumes(sampleMade);
    } else if choice == 2 {
      d.HandleSegment(hasClient);
      e := SegmentEvent(hasClient);
    } else if choice == 3 {
      d.HandleEosEvent(hasClient);
      e := EosEvent;
    } else if choice == 4 {
      d.HandleFlushCompleted();
      e := FlushCompleted;
    } else if choice == 5 {
      d.FlushServer();
      e := Event.FlushServer;
    } else if choice == 6 {
      d.EndFlushing();
      e := FlushStop;
    } else {
      d.ChangeReadyToPaused();
      e := ReadyToPaused;
    }
    EnvironmentRelies(old(d.View()), e);
    assert d.log[|old(d.log)|..] == Step(old(d.View()), e).log;
  }

  /** One step of another thread on the synchroniser; only this source's puller reports its
      data as pushed. */
  method OtherSourceStep(sync: Sync.Synchronizer, id: int)
    requires sync.Valid()
    modifies sync
    ensures sync.Valid() && Pushes(sync.ops, id) == Pushes(old(sync.ops), id)
  {
    var op: Sync.Op := *;
    if op == Sync.PushData(id) {
      return;
    }
    PushesGrow(sync.ops, op, id);
    match op {
      case AddSource(i) => sync.Add(i);
      case RemoveSource(i) => sync.Remove(i);
      case FlushStarted(i) => sync.NotifyFlushStarted(i);
      case FlushCompleted(i) => sync.NotifyFlushCompleted(i);
      case ReceiveData(i) => sync.NotifyDataReceived(i);
      case PushData(i) => sync.NotifyDataPushed(i);
    }
  }

  /** Any number of steps of the other threads, in any order. */
  method Interference(d: Delegate, id: int)
    requires d.Valid() && d.sync.Valid()
    modifies d, d.sync
    ensures d.Valid() && d.sync.Valid() && old(d.log) <= d.log
    ensures Rely(old(d.View()), d.log[|old(d.log)|..], d.View())
    ensures Pushes(d.sync.ops, id) == Pushes(old(d.sync.ops), id)
  {
    var steps :| 0 <= steps;
    ghost var base, start, pushes := d.log, d.View(), Pushes(d.sync.ops, id);
    assert d.log[|d.log|..] == [];
    FlagsRely(start, start);
    for i := 0 to steps
      invariant d.Valid() && d.sync.Valid() && base <= d.log
      invariant Rely(start, d.log[|base|..], d.View())
      invariant Pushes(d.sync.ops, id) == pushes
    {
      OneMoreStep(d, id, base, start);
    }
  }

  /** One more step of another thread, since the sink's log was `base`. */
  method OneMoreStep(d: Delegate, id: int, ghost base: seq<Entry>, ghost start: State)
    requires d.Valid() && d.sync.Valid() && base <= d.log && Rely(start, d.log[|base|..], d.View())
    modifies d, d.sync
    ensures d.Valid() && d.sync.Valid() && base <= d.log && Rely(start, d.log[|base|..], d.View())
    ensures Pushes(d.sync.ops, id) == Pushes(old(d.sync.ops), id)
  {
    ghost var log, st := d.log, d.View();
    OtherThreadStep(d, id);
    RelyGoesOn(start, base, log, st, d.log, d.View());
    OtherSourceStep(d.sync, id);
  }

  // ----- One turn of the loop -----

  /** How a sample left the queue. */
  datatype Fate = Added | Refused | Unmappable | Unparsable

  /** What one turn of the loop came to. */
  datatype Turn =
    | NotReady
    | NoSample
    | AtEos
    | Full(sample: nat)
    | Took(sample: nat, fate: Fate)

  /** What the sink answered to the puller in such a turn. */
  function Calls(turn: Turn): seq<Entry> {
    match turn
    case NotReady => [ReadyAnswered(false)]
    case NoSample => [ReadyAnswered(true), NothingReturned, EosAnswered(false)]
    case AtEos => [ReadyAnswered(true), NothingReturned, EosAnswered(true)]
    case Full(s) => [ReadyAnswered(true), Returned(s)]
    case Took(s, _) => [ReadyAnswered(true), Returned(s), Popped(s)]
  }

  /** What was tried with the sample, and with which answers. */
  function Attempts(turn: Turn): seq<Attempt> {
    match turn
    case Full(s) => [Mapped(s, true), Parsed(s, true), Offered(s, NoSpace)]
    case Took(s, Unmappable) => [Mapped(s, false)]
    case Took(s, Unparsable) => [Mapped(s, true), Parsed(s, false)]
    case Took(s, Added) => [Mapped(s, true), Parsed(s, true), Offered(s, SegmentAdded)]
    case Took(s, Refused) => [Mapped(s, true), Parsed(s, true), Offered(s, AddFailed)]
    case _ => []
  }

  /** Since the sink's log was `base` and its queue `start`, the puller has been told `own`,
      and no sample was lost. */
  ghost predicate Since(d: Delegate, base: seq<Entry>, start: seq<nat>, own: seq<Entry>)
    reads d, d.sync
  {
    && d.Valid() && d.sync.Valid() && base <= d.log
    && OwnCalls(d.log[|base|..]) == own
    && Kept(start, d.log[|base|..], d.samples)
  }

  /** The log goes on by `more`. */
  lemma SinceGrows(base: seq<Entry>, log: seq<Entry>, more: seq<Entry>, start: seq<nat>, mid: seq<nat>, queue: seq<nat>)
    requires base <= log && Kept(start, log[|base|..], mid) && Kept(mid, more, queue)
    ensures base <= log + more
    ensures OwnCalls((log + more)[|base|..]) == OwnCalls(log[|base|..]) + OwnCalls(more)
    ensures Kept(start, (log + more)[|base|..], queue)
  {
    assert (log + more)[|base|..] == log[|base|..] + more;
    LogsJoin(log[|base|..], more);
    KeptJoins(start, log[|base|..], mid, more, queue);
  }

  /** The other threads have their turn. */
  method Others(d: Delegate, id: int, ghost base: seq<Entry>, ghost start: seq<nat>, ghost own: seq<Entry>)
    requires Since(d, base, start, own)
    modifies d, d.sync
    ensures Since(d, base, start, own) && old(d.samples) <= d.samples
    ensures Pushes(d.sync.ops, id) == Pushes(old(d.sync.ops), id)
  {
    Interference(d, id);
    ghost var more := d.log[|old(d.log)|..];
    SinceGrows(base, old(d.log), more, start, old(d.samples), d.samples);
    assert d.log == old(d.log) + more;
  }

  /** The sink answers one call after the other threads had their turn. */
  method AskIfReady(d: Delegate, id: int, ghost base: seq<Entry>, ghost start: seq<nat>, ghost own: seq<Entry>)
    returns (ready: bool)
    requires Since(d, base, start, own)
    modifies d, d.sync
    ensures Since(d, base, start, own + [ReadyAnswered(ready)])
    ensures Pushes(d.sync.ops, id) == Pushes(old(d.sync.ops), id)
  {
    Others(d, id, base, start, own);
    ghost var log := d.log;
    ready := d.IsReadyToSendData();
    OneEntry(ReadyAnswered(ready));
    SinceGrows(base, log, [ReadyAnswered(ready)], start, d.samples, d.samples);
  }

  method AskForFront(d: Delegate, id: int, ghost base: seq<Entry>, ghost start: seq<nat>, ghost own: seq<Entry>)
    returns (sample: Option<nat>)
    requires Since(d, base, start, own)
    modifies d, d.sync
    ensures Since(d, base, start, own + [if sample.Some? then Returned(sample.value) else NothingReturned])
    ensures sample.Some? ==> d.samples != [] && d.samples[0] == sample.value
    ensures Pushes(d.sync.ops, id) == Pushes(old(d.sync.ops), id)
  {
    Others(d, id, base, start, own);
    ghost var log := d.log;
    sample := d.GetFrontSample();
    ghost var answer := if sample.Some? then Returned(sample.value) else NothingReturned;
    OneEntry(answer);
    SinceGrows(base, log, [answer], start, d.samples, d.samples);
  }

  method AskIfEos(d: Delegate, id: int, ghost base: seq<Entry>, ghost start: seq<nat>, ghost own: seq<Entry>)
    returns (isEos: bool)
    requires Since(d, base, start, own)
    modifies d, d.sync
    ensures Since(d, base, start, own + [EosAnswered(isEos)])
    ensures isEos ==> d.isEos && d.samples == []
    ensures Pushes(d.sync.ops, id) == Pushes(old(d.sync.ops), id)
  {
    Others(d, id, base, start, own);
    ghost var log := d.log;
    isEos := d.IsEos();
    OneEntry(EosAnswered(isEos));
    SinceGrows(base, log, [EosAnswered(isEos)], start, d.samples, d.samples);
  }

  lemma PopKeeps(queue: seq<nat>)
    requires queue != []
    ensures Kept(queue, [Popped(queue[0])], queue[1..])
    ensures OwnCalls([Popped(queue[0])]) == [Popped(queue[0])]
  {
    OneEntry(Popped(queue[0]));
    assert queue == [queue[0]] + queue[1..];
  }

  method PopNow(d: Delegate, ghost base: seq<Entry>, ghost start: seq<nat>, ghost own: seq<Entry>)
    requires Since(d, base, start, own) && d.samples != []
    modifies d
    ensures Since(d, base, start, own + [Popped(old(d.samples)[0])])
  {
    ghost var log, queue := d.log, d.samples;
    PopKeeps(queue);
    d.PopSample();
    SinceGrows(base, log, [Popped(queue[0])], start, queue, queue[1..]);
  }

  method PopFront(d: Delegate, id: int, ghost base: seq<Entry>, ghost start: seq<nat>, ghost own: seq<Entry>)
    requires Since(d, base, start, own) && d.samples != []
    modifies d, d.sync
    ensures Since(d, base, start, own + [Popped(old(d.samples)[0])])
    ensures Pushes(d.sync.ops, id) == Pushes(old(d.sync.ops), id)
  {
    Others(d, id, base, start, own);
    PopNow(d, base, start, own);
  }

  /** The first half of a turn: is the sink ready, and what is its front sample? */
  method LookAtFront(d: Delegate, id: int) returns (sample: Option<nat>, turn: Turn)
    requires d.Valid() && d.sync.Valid()
    modifies d, d.sync
    ensures sample.None? ==> turn.NotReady? || turn.NoSample? || turn.AtEos?
    ensures Since(d, old(d.log), old(d.samples),
                  if sample.None? then Calls(turn) else [ReadyAnswered(true), Returned(sample.value)])
    ensures sample.Some? ==> d.samples != [] && d.samples[0] == sample.value
    ensures sample.None? && turn.AtEos? ==> d.isEos && d.samples == []
    ensures Pushes(d.sync.ops, id) == Pushes(old(d.sync.ops), id)
  {
    ghost var base, start := d.log, d.samples;
    sample, turn := None, NotReady;
    assert d.log[|base|..] == [];
    var ready := AskIfReady(d, id, base, start, []);
    assert [] + [ReadyAnswered(ready)] == [ReadyAnswered(ready)];
    if !ready {
      return;
    }
    sample := AskForFront(d, id, base, start, [ReadyAnswered(true)]);
    if sample.Some? {
      return;
    }
    var isEos := AskIfEos(d, id, base, start, [ReadyAnswered(true), NothingReturned]);
    turn := if isEos then AtEos else NoSample;
  }

  /** What the map, the parser and the server say about a sample; it may be popped unless the
      server has no space for it. */
  method OfferSample(backend: Backend, sample: nat) returns (turn: Turn)
    modifies backend
    ensures turn.Took? || turn.Full?
    ensures turn.sample == sample && backend.attempts == old(backend.attempts) + Attempts(turn)
    ensures backend.segments == old(backend.segments) + if turn == Took(sample, Added) then [sample] else []
  {
    var mapped := backend.MapBuffer(sample);
    if !mapped {
      return Took(sample, Unmappable);
    }
    var parsed := backend.ParseBuffer(sample);
    if !parsed {
      return Took(sample, Unparsable);
    }
    var status := backend.AddSegment(sample);
    match status {
      case NoSpace => turn := Full(sample);
      case SegmentAdded => turn := Took(sample, Added);
      case AddFailed => turn := Took(sample, Refused);
    }
  }

  /** One turn: the sink's and the backend's logs say which. */
  method PullOne(d: Delegate, backend: Backend, id: int) returns (turn: Turn)
    requires d.Valid() && d.sync.Valid()
    modifies d, d.sync, backend
    ensures Since(d, old(d.log), old(d.samples), Calls(turn))
    ensures backend.attempts == old(backend.attempts) + Attempts(turn)
    ensures backend.segments == old(backend.segments) + if IsAdded(turn) then [turn.sample] else []
    ensures turn.Full? ==> d.samples != [] && d.samples[0] == turn.sample
    ensures turn.AtEos? ==> d.isEos && d.samples == []
    ensures Pushes(d.sync.ops, id) == Pushes(old(d.sync.ops), id)
  {
    ghost var base, start := d.log, d.samples;
    var sample;
    sample, turn := LookAtFront(d, id);
    if sample.Some? {
      turn := OfferSample(backend, sample.value);
      if turn.Took? {
        PopFront(d, id, base, start, [ReadyAnswered(true), Returned(sample.value)]);
      }
    }
  }

  // ----- The whole request -----

  function CallsOf(turns: seq<Turn>): seq<Entry> {
    if turns == [] then [] else CallsOf(turns[..|turns| - 1]) + Calls(turns[|turns| - 1])
  }

  function AttemptsOf(turns: seq<Turn>): seq<Attempt> {
    if turns == [] then [] else AttemptsOf(turns[..|turns| - 1]) + Attempts(turns[|turns| - 1])
  }

  /** The samples that left the queue. */
  function TakenBy(turns: seq<Turn>): seq<nat> {
    if turns == [] then []
    else TakenBy(turns[..|turns| - 1]) + if turns[|turns| - 1].Took? then [turns[|turns| - 1].sample] else []
  }

  predicate IsAdded(turn: Turn) {
    turn.Took? && turn.fate.Added?
  }

  /** The samples the server took. */
  function AddedBy(turns: seq<Turn>): seq<nat> {
    if turns == [] then []
    else AddedBy(turns[..|turns| - 1]) + if IsAdded(turns[|turns| - 1]) then [turns[|turns| - 1].sample] else []
  }

  /** A sample counts as added unless it could not be mapped or parsed or did not fit. */
  predicate Counts(turn: Turn) {
    turn.Took? && (turn.fate.Added? || turn.fate.Refused?)
  }

  predicate AnyCounts(turns: seq<Turn>) {
    exists i | 0 <= i < |turns| :: Counts(turns[i])
  }

  lemma AnyCountsGrows(turns: seq<Turn>, turn: Turn)
    ensures AnyCounts(turns + [turn]) <==> AnyCounts(turns) || Counts(turn)
  {
    assert (turns + [turn])[|turns|] == turn;
    if AnyCounts(turns) {
      var i :| 0 <= i < |turns| && Counts(turns[i]);
      assert Counts((turns + [turn])[i]);
    }
  }

  /** The turns of a request: each but the last takes a sample, and the loop ends after
      `frameCount` samples or with a turn that takes none. */
  predicate IsPull(turns: seq<Turn>, frameCount: nat) {
    && |turns| <= frameCount
    && (forall i | 0 <= i < |turns| - 1 :: turns[i].Took?)
    && (|turns| < frameCount ==> turns != [] && !turns[|turns| - 1].Took?)
  }

  lemma TurnsGrow(turns: seq<Turn>, turn: Turn)
    ensures CallsOf(turns + [turn]) == CallsOf(turns) + Calls(turn)
    ensures AttemptsOf(turns + [turn]) == AttemptsOf(turns) + Attempts(turn)
    ensures TakenBy(turns + [turn]) == TakenBy(turns) + if turn.Took? then [turn.sample] else []
    ensures AddedBy(turns + [turn]) == AddedBy(turns) + if IsAdded(turn) then [turn.sample] else []
  {
    assert (turns + [turn])[..|turns|] == turns;
  }

  function LastCall(turn: Turn): Entry {
    Calls(turn)[|Calls(turn)| - 1]
  }

  function LastAttempt(turn: Turn): Attempt
    requires turn.Took?
  {
    Attempts(turn)[|Attempts(turn)| - 1]
  }

  lemma TurnFromLastAnswers(t: Turn, t': Turn)
    requires LastCall(t) == LastCall(t')
    requires t.Took? && t'.Took? ==> LastAttempt(t) == LastAttempt(t')
    ensures t == t'
  {
  }

  lemma TailsAgree<T>(a: seq<T>, x: seq<T>, b: seq<T>, y: seq<T>)
    requires a + x == b + y
    ensures x != [] && y != [] ==> x[|x| - 1] == y[|y| - 1]
    ensures |x| == |y| ==> a == b
  {
    var s := a + x;
    if x != [] && y != [] {
      assert s[|s| - 1] == x[|x| - 1];
      assert s[|s| - 1] == y[|y| - 1];
    }
    assert s[..|a|] == a && s[..|b|] == b;
  }

  lemma LastTurnDetermined(calls: seq<Entry>, attempts: seq<Attempt>, t: Turn,
                           calls': seq<Entry>, attempts': seq<Attempt>, t': Turn)
    requires calls + Calls(t) == calls' + Calls(t')
    requires attempts + Attempts(t) == attempts' + Attempts(t')
    ensures t == t' && calls == calls' && attempts == attempts'
  {
    TailsAgree(calls, Calls(t), calls', Calls(t'));
    TailsAgree(attempts, Attempts(t), attempts', Attempts(t'));
    TurnFromLastAnswers(t, t');
  }

  /** What the sink and the backend have on record leaves no choice about the turns. */
  lemma {:induction false} LogsDetermineTurns(turns: seq<Turn>, turns': seq<Turn>)
    requires CallsOf(turns) == CallsOf(turns') && AttemptsOf(turns) == AttemptsOf(turns')
    ensures turns == turns'
  {
    var n, n' := |turns| - 1, |turns'| - 1;
    if turns != [] && turns' != [] {
      LastTurnDetermined(CallsOf(turns[..n]), AttemptsOf(turns[..n]), turns[n],
                         CallsOf(turns'[..n']), AttemptsOf(turns'[..n']), turns'[n']);
      LogsDetermineTurns(turns[..n], turns'[..n']);
      assert turns == turns[..n] + [turns[n]];
      assert turns' == turns'[..n'] + [turns'[n']];
    }
  }

  lemma {:induction false} NoPops(log: seq<Entry>)
    requires forall i | 0 <= i < |log| :: !log[i].Popped?
    ensures PoppedIn(log) == []
  {
    if log != [] {
      NoPops(log[..|log| - 1]);
    }
  }

  lemma PoppedLast(before: seq<Entry>, sample: nat)
    requires forall i | 0 <= i < |before| :: !before[i].Popped?
    ensures PoppedIn(before + [Popped(sample)]) == [sample]
  {
    NoPops(before);
    OneEntry(Popped(sample));
    LogsJoin(before, [Popped(sample)]);
  }

  lemma PoppedInTurn(turn: Turn)
    ensures PoppedIn(Calls(turn)) == if turn.Took? then [turn.sample] else []
  {
    if turn.Took? {
      var before := [ReadyAnswered(true), Returned(turn.sample)];
      PoppedLast(before, turn.sample);
      assert Calls(turn) == before + [Popped(turn.sample)];
    } else {
      NoPops(Calls(turn));
    }
  }

  /** The samples that leave the queue are those the turns took. */
  lemma {:induction false} PoppedAreTaken(turns: seq<Turn>)
    ensures PoppedIn(CallsOf(turns)) == TakenBy(turns)
  {
    if turns != [] {
      var n := |turns| - 1;
      PoppedAreTaken(turns[..n]);
      LogsJoin(CallsOf(turns[..n]), Calls(turns[n]));
      PoppedInTurn(turns[n]);
    }
  }

  /** The turns so far are what the sink's and the backend's logs say since a request began. */
  ghost predicate OnRecord(d: Delegate, backend: Backend, base: seq<Entry>, start: seq<nat>,
                           attempts: seq<Attempt>, segments: seq<nat>, turns: seq<Turn>)
    reads d, d.sync, backend
  {
    && Since(d, base, start, CallsOf(turns))
    && backend.attempts == attempts + AttemptsOf(turns)
    && backend.segments == segments + AddedBy(turns)
  }

  lemma RecordGrows(attempts: seq<Attempt>, segments: seq<nat>, turns: seq<Turn>, turn: Turn)
    ensures attempts + AttemptsOf(turns) + Attempts(turn) == attempts + AttemptsOf(turns + [turn])
    ensures segments + AddedBy(turns) + (if IsAdded(turn) then [turn.sample] else []) == segments + AddedBy(turns + [turn])
  {
    TurnsGrow(turns, turn);
    Regroup(attempts, AttemptsOf(turns), Attempts(turn));
    Regroup(segments, AddedBy(turns), if IsAdded(turn) then [turn.sample] else []);
  }

  lemma Regroup<T>(a: seq<T>, b: seq<T>, c: seq<T>)
    ensures a + b + c == a + (b + c)
  {
  }

  /** One more turn of a request. */
  method NextTurn(d: Delegate, backend: Backend, id: int, ghost base: seq<Entry>, ghost start: seq<nat>,
                  ghost attempts: seq<Attempt>, ghost segments: seq<nat>, ghost turns: seq<Turn>)
    returns (turn: Turn)
    requires OnRecord(d, backend, base, start, attempts, segments, turns)
    modifies d, d.sync, backend
    ensures OnRecord(d, backend, base, start, attempts, segments, turns + [turn])
    ensures turn.Full? ==> d.samples != [] && d.samples[0] == turn.sample
    ensures turn.AtEos? ==> d.isEos && d.samples == []
    ensures Pushes(d.sync.ops, id) == Pushes(old(d.sync.ops), id)
  {
    ghost var log, queue := d.log, d.samples;
    turn := PullOne(d, backend, id);
    TurnsGrow(turns, turn);
    RecordGrows(attempts, segments, turns, turn);
    SinceGrows(base, log, d.log[|log|..], start, queue, d.samples);
    assert d.log == log + d.log[|log|..];
  }

  /** So far every turn took a sample, and some were counted as added. */
  ghost predicate IsUnderWay(turns: seq<Turn>, frame: nat, addedSegments: nat) {
    && |turns| == frame && (forall i | 0 <= i < |turns| :: turns[i].Took?)
    && (addedSegments > 0 <==> AnyCounts(turns))
  }

  lemma UnderWayGrows(turns: seq<Turn>, turn: Turn, frame: nat, addedSegments: nat, frameCount: nat)
    requires IsUnderWay(turns, frame, addedSegments) && frame < frameCount
    ensures var all := turns + [turn];
            if turn.Took? then IsUnderWay(all, frame + 1, addedSegments + if Counts(turn) then 1 else 0)
            else IsPull(all, frameCount) && (addedSegments > 0 <==> AnyCounts(all))
  {
    AnyCountsGrows(turns, turn);
  }

  /** The loop, with what it has counted so far. */
  method PullAll(d: Delegate, backend: Backend, id: int, frameCount: nat)
    returns (isEos: bool, addedSegments: nat, ghost turns: seq<Turn>)
    requires d.Valid() && d.sync.Valid()
    modifies d, d.sync, backend
    ensures IsPull(turns, frameCount)
    ensures OnRecord(d, backend, old(d.log), old(d.samples), old(backend.attempts), old(backend.segments), turns)
    ensures isEos <==> turns != [] && turns[|turns| - 1].AtEos?
    ensures addedSegments > 0 <==> AnyCounts(turns)
    ensures turns != [] && turns[|turns| - 1].Full? ==> d.samples != [] && d.samples[0] == turns[|turns| - 1].sample
    ensures isEos ==> d.isEos && d.samples == []
    ensures Pushes(d.sync.ops, id) == Pushes(old(d.sync.ops), id)
  {
    isEos, addedSegments, turns := false, 0, [];
    ghost var base, start, attempts, segments := d.log, d.samples, backend.attempts, backend.segments;
    assert d.log[|d.log|..] == [];
    for frame := 0 to frameCount
      invariant IsUnderWay(turns, frame, addedSegments)
      invariant OnRecord(d, backend, base, start, attempts, segments, turns)
      invariant !isEos && Pushes(d.sync.ops, id) == Pushes(old(d.sync.ops), id)
    {
      var turn := NextTurn(d, backend, id, base, start, attempts, segments, turns);
      UnderWayGrows(turns, turn, frame, addedSegments, frameCount);
      turns := turns + [turn];
      isEos := turn.AtEos?;
      if !turn.Took? {
        break;
      }
      if Counts(turn) {
        addedSegments := addedSegments + 1;
      }
    }
  }

  /** Handles one need-data request for up to `frameCount` samples.

      `turns` is what happened turn by turn; the sink's log and the backend's log determine it. */
  method HandlePullBuffer(d: Delegate, backend: Backend, outbox: Outbox, sourceId: int, requestId: nat, frameCount: nat)
    returns (status: MediaStatus, ghost turns: seq<Turn>)
    requires d.Valid() && d.sync.Valid()
    modifies d, d.sync, backend, outbox
    // Each turn is on record at the sink and at the backend, and the loop goes on while it can.
    ensures IsPull(turns, frameCount)
    ensures d.Valid() && d.sync.Valid() && old(d.log) <= d.log
    ensures OwnCalls(d.log[|old(d.log)|..]) == CallsOf(turns)
    ensures backend.attempts == old(backend.attempts) + AttemptsOf(turns)
    // No sample is lost, duplicated or reordered, and the server has those it took.
    ensures old(d.samples) + Arrived(d.log[|old(d.log)|..]) == TakenBy(turns) + d.samples
    ensures backend.segments == old(backend.segments) + AddedBy(turns)
    // The sample that did not fit is still the next one.
    ensures turns != [] && turns[|turns| - 1].Full? ==> d.samples != [] && d.samples[0] == turns[|turns| - 1].sample
    // Exactly one answer, with the right status.
    ensures outbox.posted == old(outbox.posted) + [HaveData(status, sourceId, requestId)]
    ensures status.Eos? <==> turns != [] && turns[|turns| - 1].AtEos?
    ensures status.Eos? ==> d.isEos && d.samples == []
    ensures status.NoAvailableSamples? <==> !status.Eos? && !AnyCounts(turns)
    ensures !status.Error?
    // The synchroniser hears of pushed data once, unless there was nothing to push.
    ensures Pushes(d.sync.ops, sourceId) ==
            Pushes(old(d.sync.ops), sourceId) + if status.NoAvailableSamples? then 0 else 1
    ensures !status.NoAvailableSamples? ==> Sync.At(d.sync.states, sourceId) == Sync.SourceState(Sync.Idle, Sync.DataPushed)
  {
    var isEos, addedSegments;
    isEos, addedSegments, turns := PullAll(d, backend, sourceId, frameCount);
    PopsAreOwnCalls(d.log[|old(d.log)|..]);
    PoppedAreTaken(turns);
    status := Answer(d.sync, outbox, sourceId, requestId, isEos, addedSegments);
  }

  /** What follows the loop: the status, the notice to the synchroniser and the answer. */
  method Answer(sync: Sync.Synchronizer, outbox: Outbox, sourceId: int, requestId: nat, isEos: bool, addedSegments: nat)
    returns (status: MediaStatus)
    requires sync.Valid()
    modifies sync, outbox
    ensures sync.Valid()
    ensures status == if isEos then Eos else if addedSegments == 0 then NoAvailableSamples else Ok
    ensures outbox.posted == old(outbox.posted) + [HaveData(status, sourceId, requestId)]
    ensures Pushes(sync.ops, sourceId) == Pushes(old(sync.ops), sourceId) + if status.NoAvailableSamples? then 0 else 1
    ensures !status.NoAvailableSamples? ==> Sync.At(sync.states, sourceId) == Sync.SourceState(Sync.Idle, Sync.DataPushed)
  {
    status := Ok;
    if isEos {
      status := Eos;
    } else if addedSegments == 0 {
      status := NoAvailableSamples;
    }
    if status.Ok? || status.Eos? {
      PushesGrow(sync.ops, Sync.PushData(sourceId), sourceId);
      sync.NotifyDataPushed(sourceId);
    }
    outbox.posted := outbox.posted + [HaveData(status, sourceId, requestId)];
  }
}
