/** The registry of media player clients: one client per GStreamer parent, shared by any number
    of managers through a reference count, with at most one manager in control.

    Any number of threads call any managers.  A call tests the manager's weak reference before
    it takes the registry's mutex, so each test and each critical section is a step of its own,
    with steps of other threads in between, those on the same manager included.  Managers,
    parents and threads are named by their identity. */
module RegistryModel {
  import opened Wrappers

  datatype Info = Info(client: nat, controller: Option<nat>, refCount: nat)

  /** A manager's own weak reference and parent. */
  datatype Attachment = Detached | AttachedTo(parent: nat, client: nat)

  datatype State = State(infos: map<nat, Info>, managers: map<nat, Attachment>, nextClient: nat)

  /** The critical sections. */
  datatype Op =
    | Create(manager: nat, parent: nat, backendCreated: bool)
    | Release(manager: nat)
    | HasControl(manager: nat)

  datatype Entry =
    | Joined(manager: nat, parent: nat)
    | Left(manager: nat, parent: nat)
    | Granted(manager: nat, parent: nat)
    | Stopped(client: nat)
    | NotFound(manager: nat)

  datatype Outcome = Outcome(state: State, log: seq<Entry>, control: bool)

  function Init(): State {
    State(map[], map[], 0)
  }

  function At(st: State, m: nat): Attachment {
    if m in st.managers then st.managers[m] else Detached
  }

  /** A weak reference can be locked: the registry still holds the client. */
  predicate IsAlive(st: State, a: Attachment) {
    a.AttachedTo? && exists p | p in st.infos :: st.infos[p].client == a.client
  }

  predicate Locks(st: State, m: nat) {
    IsAlive(st, At(st, m))
  }

  function CreateStep(st: State, m: nat, p: nat, backendCreated: bool): Outcome {
    if p in st.infos then
      var info := st.infos[p];
      Outcome(st.(infos := st.infos[p := info.(refCount := info.refCount + 1)],
                  managers := st.managers[m := AttachedTo(p, info.client)]),
              [Joined(m, p)], false)
    else if backendCreated then
      Outcome(State(st.infos[p := Info(st.nextClient, Some(m), 1)],
                    st.managers[m := AttachedTo(p, st.nextClient)],
                    st.nextClient + 1),
              [Joined(m, p), Granted(m, p)], false)
    else
      Outcome(st, [], false)
  }

  /** A 32-bit decrement. */
  function Decremented(count: nat): nat {
    if count == 0 then 0xFFFF_FFFF else count - 1
  }

  /** The manager's parent has an entry; a manager that is not attached has no parent. */
  predicate IsFound(st: State, m: nat) {
    At(st, m).AttachedTo? && At(st, m).parent in st.infos
  }

  function ReleaseStep(st: State, m: nat): Outcome {
    if !IsFound(st, m) then
      Outcome(st, [NotFound(m)], false)
    else
      var p := At(st, m).parent;
      var info := st.infos[p];
      var managers := st.managers[m := Detached];
      if info.refCount == 1 then
        Outcome(st.(infos := st.infos - {p}, managers := managers), [Left(m, p), Stopped(info.client)], false)
      else
        var controller := if info.controller == Some(m) then None else info.controller;
        Outcome(st.(infos := st.infos[p := Info(info.client, controller, Decremented(info.refCount))], managers := managers),
                [Left(m, p)], false)
  }

  function HasControlStep(st: State, m: nat): Outcome {
    if !IsFound(st, m) then
      Outcome(st, [NotFound(m)], false)
    else
      var p := At(st, m).parent;
      if st.infos[p].controller == Some(m) then
        Outcome(st, [Granted(m, p)], true)
      else if st.infos[p].controller.None? then
        Outcome(st.(infos := st.infos[p := st.infos[p].(controller := Some(m))]), [Granted(m, p)], true)
      else
        Outcome(st, [], false)
  }

  function Step(st: State, op: Op): Outcome {
    match op
    case Create(m, p, backendCreated) => CreateStep(st, m, p, backendCreated)
    case Release(m) => ReleaseStep(st, m)
    case HasControl(m) => HasControlStep(st, m)
  }

  // ----- Threads -----

  /** Where a thread is in a call.  An attach copies the manager's fields, may call a release,
      which tests and then takes the mutex, creates, with the backend's answer, copies again and
      answers by that copy. */
  datatype Position =
    | Idle
    | Releasing(manager: nat)
    | Querying(manager: nat)
    | Copied(manager: nat, parent: nat, backendCreated: bool, copy: Attachment)
    | Leaving(manager: nat, parent: nat, backendCreated: bool)
    | LeavingTested(manager: nat, parent: nat, backendCreated: bool)
    | Creating(manager: nat, parent: nat, backendCreated: bool)
    | Checking(manager: nat, parent: nat)
    | Checked(manager: nat, parent: nat, copy: Attachment)

  predicate IsAttaching(pos: Position) {
    pos.Copied? || pos.Leaving? || pos.LeavingTested? || pos.Creating? || pos.Checking? || pos.Checked?
  }

  /** The thread has found the weak reference alive and waits for the mutex. */
  predicate HasTested(pos: Position) {
    pos.Releasing? || pos.Querying? || pos.LeavingTested?
  }

  /** The thread has seen its manager attached at a moment on record. */
  predicate HasSeenAttached(pos: Position) {
    HasTested(pos) || (pos.Checked? && pos.copy.AttachedTo?)
  }

  datatype Event =
    | CallRelease(thread: nat, manager: nat)
    | CallControl(thread: nat, manager: nat)
    | CallAttach(thread: nat, manager: nat, parent: nat, backendCreated: bool)
    | Test(thread: nat)
    | Section(thread: nat)

  /** `seen` is the length of the log when a thread last saw its manager attached. */
  datatype History = History(state: State, log: seq<Entry>, threads: map<nat, Position>, seen: map<nat, nat>)

  function PositionOf(h: History, t: nat): Position {
    if t in h.threads then h.threads[t] else Idle
  }

  /** The critical section a thread waits for. */
  function OpAt(pos: Position): Option<Op> {
    match pos
    case Releasing(m) => Some(Release(m))
    case Querying(m) => Some(HasControl(m))
    case LeavingTested(m, _, _) => Some(Release(m))
    case Creating(m, p, backendCreated) => Some(Create(m, p, backendCreated))
    case _ => None
  }

  function OpOf(h: History, e: Event): Option<Op> {
    if e.Section? then OpAt(PositionOf(h, e.thread)) else None
  }

  /** An attach looks at its copies: create, release first, or nothing to do. */
  function Decided(st: State, pos: Position): Position
    requires pos.Copied?
  {
    if !IsAlive(st, pos.copy) then Creating(pos.manager, pos.parent, pos.backendCreated)
    else if pos.parent != pos.copy.parent then Leaving(pos.manager, pos.parent, pos.backendCreated)
    else Checking(pos.manager, pos.parent)
  }

  function PositionAfter(st: State, pos: Position, e: Event): Position {
    match e
    case CallRelease(_, m) => if pos.Idle? && Locks(st, m) then Releasing(m) else pos
    case CallControl(_, m) => if pos.Idle? && Locks(st, m) then Querying(m) else pos
    case CallAttach(_, m, p, b) => if pos.Idle? then Copied(m, p, b, At(st, m)) else pos
    case Test(_) =>
      (match pos
       case Copied(_, _, _, _) => Decided(st, pos)
       case Leaving(m, p, b) => if Locks(st, m) then LeavingTested(m, p, b) else Creating(m, p, b)
       case Checking(m, p) => Checked(m, p, At(st, m))
       case Checked(_, _, _) => Idle
       case _ => pos)
    case Section(_) =>
      (match pos
       case Releasing(_) => Idle
       case Querying(_) => Idle
       case LeavingTested(m, p, b) => Creating(m, p, b)
       case Creating(m, p, _) => Checking(m, p)
       case _ => pos)
  }

  /** The answer of a control query, given in its critical section. */
  predicate Answer(h: History, e: Event) {
    OpOf(h, e).Some? && Step(h.state, OpOf(h, e).value).control
  }

  /** The answer of an attach: the client it has copied last is alive. */
  predicate AttachAnswer(st: State, pos: Position) {
    pos.Checked? && IsAlive(st, pos.copy)
  }

  function Next(h: History, e: Event): History {
    var t, before := e.thread, PositionOf(h, e.thread);
    var after := PositionAfter(h.state, before, e);
    var threads := h.threads[t := after];
    var seen := if HasSeenAttached(after) && !HasSeenAttached(before) then h.seen[t := |h.log|] else h.seen;
    match OpOf(h, e)
    case None => h.(threads := threads, seen := seen)
    case Some(op) =>
      var o := Step(h.state, op);
      History(o.state, h.log + o.log, threads, seen)
  }

  function Run(events: seq<Event>): History {
    if events == [] then History(Init(), [], map[], map[]) else Next(Run(events[..|events| - 1]), events[|events| - 1])
  }

  lemma RunGrows(events: seq<Event>, e: Event)
    ensures Run(events + [e]) == Next(Run(events), e)
  {
    assert (events + [e])[..|events|] == events;
  }
}
