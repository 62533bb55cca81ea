/** Managers and the registry they share, as objects.  `Registry.Perform` is one step of one
    thread; a method of a manager takes the steps of its own thread and lets the other threads
    take any number of theirs in between, on this manager too. */
module MediaPlayerManagerObject {
  import opened Wrappers
  import opened RegistryModel
  import opened RegistryTheorems
  import opened RegistryRaces

  /** The fields of all managers are as a state says. */
  ghost predicate AreAs(managers: map<nat, MediaPlayerManager>, registry: Registry, st: State)
    reads managers.Values
  {
    forall m | m in managers ::
      managers[m].id == m && managers[m].registry == registry && managers[m].View() == At(st, m)
  }

  /** Threads call managers that exist. */
  ghost predicate AreKnown(threads: map<nat, Position>, managers: map<nat, MediaPlayerManager>) {
    forall t | t in threads && !threads[t].Idle? :: threads[t].manager in managers
  }

  lemma StayKnown(h: History, e: Event, managers: map<nat, MediaPlayerManager>)
    requires AreKnown(h.threads, managers)
    requires e.CallRelease? || e.CallControl? || e.CallAttach? ==> e.manager in managers
    ensures AreKnown(Next(h, e).threads, managers)
  {
  }

  /** The static table of clients, the managers that use it and where the threads are. */
  class Registry {
    var infos: map<nat, Info>
    var nextClient: nat
    var managers: map<nat, MediaPlayerManager>
    var threads: map<nat, Position>
    ghost var history: History
    ghost var events: seq<Event>

    ghost predicate Valid()
      reads this, managers.Values
    {
      && Run(events) == history
      && infos == history.state.infos && nextClient == history.state.nextClient && threads == history.threads
      && AreAs(managers, this, history.state)
      && AreKnown(threads, managers)
    }

    constructor ()
      ensures Valid() && managers == map[] && events == []
    {
      infos, nextClient, managers, threads := map[], 0, map[], map[];
      history, events := History(Init(), [], map[], map[]), [];
    }

    /** Whatever managers and threads come and go. */
    lemma Guarantees()
      requires Valid()
      ensures ControlIsExclusive(history.log) && StoppedWhenLeft(history.state, history.log)
      ensures forall t :: SeenRight(history, t)
      ensures OneAttachEach(events) ==> CountsRight(history.state)
      ensures OneAttachEach(events) ==> forall t | t in threads :: PositionRight(history, threads[t])
      ensures Serialised(events) ==> forall e | e in history.log :: !e.NotFound?
    {
      AtMostOneControls(events);
      StopsExactlyWhenLastLeaves(events);
      forall t
        ensures SeenRight(history, t)
      {
        SeenRightInEveryRun(events, t);
      }
      if OneAttachEach(events) {
        InvInEveryRun(events);
      }
      if Serialised(events) {
        NeverNotFound(events);
      }
    }

    function PositionNow(t: nat): Position
      reads this
    {
      if t in threads then threads[t] else Idle
    }

    /** The event names managers that exist. */
    predicate IsPossible(e: Event)
      reads this
    {
      e.CallRelease? || e.CallControl? || e.CallAttach? ==> e.manager in managers
    }

    /** Adds an event to the history. */
    ghost method Record(e: Event)
      requires Run(events) == history
      modifies this`history, this`events
      ensures Run(events) == history
      ensures events == old(events) + [e] && history == Next(old(history), e)
    {
      RunGrows(events, e);
      history, events := Next(history, e), events + [e];
    }

    /** The critical section of an operation. */
    method Perform(op: Op) returns (control: bool)
      requires infos == history.state.infos && nextClient == history.state.nextClient && AreAs(managers, this, history.state)
      requires op.manager in managers
      modifies this`infos, this`nextClient, managers[op.manager]
      ensures var o := Step(history.state, op);
              && infos == o.state.infos && nextClient == o.state.nextClient && control == o.control
              && managers[op.manager].View() == At(o.state, op.manager)
    {
      control := false;
      var m := managers[op.manager];
      match op {
        case Create(_, p, backendCreated) => m.CreateMediaPlayerClient(p, backendCreated);
        case Release(_) => m.ReleaseSection();
        case HasControl(_) => control := m.ControlSection();
      }
    }

    /** The critical section of a thread, if it waits for one. */
    method Enter(pos: Position, e: Event) returns (control: bool)
      requires infos == history.state.infos && nextClient == history.state.nextClient && AreAs(managers, this, history.state)
      requires pos == PositionOf(history, e.thread) && (!pos.Idle? ==> pos.manager in managers)
      modifies this`infos, this`nextClient, managers.Values
      ensures var st := Next(history, e).state;
              infos == st.infos && nextClient == st.nextClient && AreAs(managers, this, st)
      ensures control == Answer(history, e)
    {
      control := false;
      if e.Section? {
        var op := OpAt(pos);
        if op.Some? {
          OnlyOneMoves(history.state, op.value);
          control := Perform(op.value);
        }
      }
    }

    /** One step of one thread. */
    method TakeStep(e: Event) returns (control: bool)
      requires Valid() && IsPossible(e)
      modifies this, managers.Values
      ensures Valid() && managers == old(managers) && events == old(events) + [e]
      ensures history == Next(old(history), e)
      ensures control == Answer(old(history), e)
    {
      var pos := PositionNow(e.thread);
      var after := NextPosition(pos, e);
      control := Enter(pos, e);
      Settle(e, after);
    }

    /** The step is over for the registry: the thread moves on. */
    method Settle(e: Event, after: Position)
      requires Run(events) == history
      requires var st := Next(history, e).state;
               infos == st.infos && nextClient == st.nextClient && AreAs(managers, this, st)
      requires threads == history.threads && AreKnown(threads, managers)
      requires e.CallRelease? || e.CallControl? || e.CallAttach? ==> e.manager in managers
      requires after == PositionAfter(history.state, PositionOf(history, e.thread), e)
      modifies this`threads, this`history, this`events
      ensures Valid() && events == old(events) + [e] && history == Next(old(history), e)
    {
      StayKnown(history, e, managers);
      threads := threads[e.thread := after];
      Record(e);
    }

    /** Where the thread goes, by what it finds in the managers' fields. */
    method NextPosition(pos: Position, e: Event) returns (after: Position)
      requires AreAs(managers, this, history.state) && infos == history.state.infos
      requires e.CallRelease? || e.CallControl? || e.CallAttach? ==> e.manager in managers
      requires !pos.Idle? ==> pos.manager in managers
      ensures after == PositionAfter(history.state, pos, e)
    {
      match e {
        case CallRelease(_, m) =>
          var alive := IsHeld(managers[m].Fields());
          after := if pos.Idle? && alive then Releasing(m) else pos;
        case CallControl(_, m) =>
          var alive := IsHeld(managers[m].Fields());
          after := if pos.Idle? && alive then Querying(m) else pos;
        case CallAttach(_, m, p, b) => after := if pos.Idle? then Copied(m, p, b, managers[m].Fields()) else pos;
        case Test(_) =>
          match pos {
            case Copied(m, p, b, copy) =>
              var alive := IsHeld(copy);
              if !alive {
                after := Creating(m, p, b);
              } else if p != copy.parent {
                after := Leaving(m, p, b);
              } else {
                after := Checking(m, p);
              }
            case Leaving(m, p, b) =>
              var alive := IsHeld(managers[m].Fields());
              after := if alive then LeavingTested(m, p, b) else Creating(m, p, b);
            case Checking(m, p) => after := Checked(m, p, managers[m].Fields());
            case Checked(_, _, _) => after := Idle;
            case _ => after := pos;
          }
        case Section(_) =>
          match pos {
            case Releasing(_) => after := Idle;
            case Querying(_) => after := Idle;
            case LeavingTested(m, p, b) => after := Creating(m, p, b);
            case Creating(m, p, _) => after := Checking(m, p);
            case _ => after := pos;
          }
      }
    }

    /** A weak reference can be locked while the registry holds the client. */
    method IsHeld(a: Attachment) returns (alive: bool)
      ensures alive <==> a.AttachedTo? && exists p | p in infos :: infos[p].client == a.client
    {
      alive := a.AttachedTo? && exists p | p in infos :: infos[p].client == a.client;
    }

    /** Any number of steps of the other threads. */
    method OtherThreads(t: nat)
      requires Valid()
      modifies this, managers.Values
      ensures Valid() && managers == old(managers) && old(events) <= events
      ensures PositionOf(history, t) == PositionOf(old(history), t)
    {
      var steps :| 0 <= steps;
      for i := 0 to steps
        invariant Valid() && managers == old(managers) && old(events) <= events
        invariant PositionOf(history, t) == PositionOf(old(history), t)
      {
        var e: Event := *;
        var possible := IsPossible(e);
        if e.thread != t && possible {
          var _ := TakeStep(e);
        }
      }
    }
  }

  /** A section moves only its own manager. */
  lemma OnlyOneMoves(st: State, op: Op)
    ensures forall m | m != op.manager :: At(Step(st, op).state, m) == At(st, m)
  {
  }

  class MediaPlayerManager {
    const id: nat
    const registry: Registry
    var client: Option<nat>
    var parent: nat

    /** Identities are those of live objects, so no two managers share one. */
    constructor (id: nat, registry: Registry)
      requires registry.Valid() && id !in registry.managers && At(registry.history.state, id).Detached?
      modifies registry
      ensures Valid() && this.registry == registry && this.id == id && client.None?
      ensures registry.managers == old(registry.managers)[id := this] && registry.events == old(registry.events)
    {
      this.id, this.registry, client, parent := id, registry, None, 0;
      new;
      registry.managers := registry.managers[id := this];
    }

    ghost predicate Valid()
      reads this, registry, registry.managers.Values
    {
      registry.Valid() && id in registry.managers && registry.managers[id] == this
    }

    ghost function View(): Attachment
      reads this
    {
      Fields()
    }

    function Fields(): Attachment
      reads this
    {
      if client.Some? then AttachedTo(parent, client.value) else Detached
    }

    /** Who controls the client of this manager's parent. */
    ghost function ControllerNow(): Option<nat>
      reads this, registry
    {
      if parent in registry.infos then registry.infos[parent].controller else None
    }

    // ----- Critical sections -----

    method ControlSection() returns (control: bool)
      requires registry.infos == registry.history.state.infos && View() == At(registry.history.state, id)
      modifies registry`infos
      ensures var o := HasControlStep(registry.history.state, id); registry.infos == o.state.infos && control == o.control
    {
      control := false;
      if client.Some? && parent in registry.infos {
        var info := registry.infos[parent];
        if info.controller == Some(id) {
          control := true;
        } else {
          control := AcquireControl();
        }
      }
    }

    method AcquireControl() returns (control: bool)
      requires parent in registry.infos
      modifies registry`infos
      ensures var info := old(registry.infos)[parent];
              && control == info.controller.None?
              && registry.infos == if control then old(registry.infos)[parent := info.(controller := Some(id))]
                                   else old(registry.infos)
    {
      var info := registry.infos[parent];
      if info.controller.None? {
        registry.infos := registry.infos[parent := info.(controller := Some(id))];
        return true;
      }
      control := false;
    }

    method ReleaseSection()
      requires registry.infos == registry.history.state.infos && View() == At(registry.history.state, id)
      modifies registry`infos, this
      ensures var o := ReleaseStep(registry.history.state, id);
              registry.infos == o.state.infos && View() == At(o.state, id)
    {
      if client.Some? && parent in registry.infos {
        var info := registry.infos[parent];
        if info.refCount == 1 {
          registry.infos := registry.infos - {parent};
        } else {
          var controller := info.controller;
          if controller == Some(id) {
            controller := None;
          }
          var count := if info.refCount == 0 then 0xFFFF_FFFF else info.refCount - 1;
          registry.infos := registry.infos[parent := Info(info.client, controller, count)];
        }
        client := None;
      }
    }

    /** Joins the client of a parent, or creates it. */
    method CreateMediaPlayerClient(gstParent: nat, backendCreated: bool)
      requires registry.infos == registry.history.state.infos && View() == At(registry.history.state, id)
      requires registry.nextClient == registry.history.state.nextClient
      modifies registry`infos, registry`nextClient, this
      ensures var o := CreateStep(registry.history.state, id, gstParent, backendCreated);
              && registry.infos == o.state.infos && registry.nextClient == o.state.nextClient
              && View() == At(o.state, id)
    {
      if gstParent in registry.infos {
        var info := registry.infos[gstParent];
        registry.infos := registry.infos[gstParent := info.(refCount := info.refCount + 1)];
        client, parent := Some(info.client), gstParent;
      } else if backendCreated {
        var c := registry.nextClient;
        registry.nextClient := registry.nextClient + 1;
        registry.infos := registry.infos[gstParent := Info(c, Some(id), 1)];
        client, parent := Some(c), gstParent;
      }
    }

    // ----- The calls, with the other threads in between -----

    /** The client can be locked exactly when it is set, because the registry still holds it. */
    lemma LockIsClientSet()
      requires Valid()
      ensures Locks(registry.history.state, id) <==> client.Some?
      ensures client.Some? ==> parent in registry.infos && registry.infos[parent].refCount >= 1
    {
      SoundInEveryRun(registry.events);
      LocksIsAttached(registry.history.state, id);
      if client.Some? {
        assert EntrySound(registry.history.state, parent);
      }
    }

    /** The test of a call, and what other threads do until it takes the mutex. */
    method TestAndWait(t: nat, e: Event) returns (tested: bool)
      requires Valid() && registry.PositionNow(t).Idle? && (e == CallControl(t, id) || e == CallRelease(t, id))
      modifies registry, registry.managers.Values
      ensures Valid() && registry.managers == old(registry.managers)
      ensures old(registry.events) + [e] <= registry.events
      ensures registry.PositionNow(t) ==
              if !tested then Idle else if e.CallControl? then Querying(id) else Releasing(id)
      ensures !tested ==> client.None?
    {
      LockIsClientSet();
      var _ := registry.TakeStep(e);
      tested := !registry.PositionNow(t).Idle?;
      if tested {
        registry.OtherThreads(t);
      }
    }

    /** The critical section of a control query. */
    method QueryNow(t: nat) returns (control: bool)
      requires Valid() && registry.PositionNow(t) == Querying(id)
      modifies registry, registry.managers.Values
      ensures Valid() && registry.managers == old(registry.managers) && registry.PositionNow(t).Idle?
      ensures registry.events == old(registry.events) + [Section(t)]
      ensures control <==> client.Some? && ControllerNow() == Some(id)
      ensures !control && client.Some? ==> ControllerNow().Some?
    {
      LocksNow();
      control := registry.TakeStep(Section(t));
    }

    /** True exactly if this manager is attached and is, or has become, the controller. */
    method HasControl(t: nat) returns (control: bool)
      requires Valid() && registry.PositionNow(t).Idle?
      modifies registry, registry.managers.Values
      ensures Valid() && registry.managers == old(registry.managers) && registry.PositionNow(t).Idle?
      ensures old(registry.events) + [CallControl(t, id)] <= registry.events
      ensures control <==> client.Some? && ControllerNow() == Some(id)
      ensures !control && client.Some? ==> ControllerNow().Some?
    {
      var tested := TestAndWait(t, CallControl(t, id));
      control := false;
      if tested {
        control := QueryNow(t);
      }
    }

    /** The critical section of a release. */
    method ReleaseNow(t: nat)
      requires Valid() && registry.PositionNow(t) == Releasing(id)
      modifies registry, registry.managers.Values
      ensures Valid() && registry.managers == old(registry.managers) && registry.PositionNow(t).Idle?
      ensures registry.events == old(registry.events) + [Section(t)]
      ensures client.None?
    {
      LocksNow();
      var _ := registry.TakeStep(Section(t));
    }

    /** Afterwards the manager is not attached, whoever released it. */
    method ReleaseMediaPlayerClient(t: nat)
      requires Valid() && registry.PositionNow(t).Idle?
      modifies registry, registry.managers.Values
      ensures Valid() && registry.managers == old(registry.managers) && registry.PositionNow(t).Idle?
      ensures old(registry.events) + [CallRelease(t, id)] <= registry.events
      ensures client.None?
    {
      var tested := TestAndWait(t, CallRelease(t, id));
      if tested {
        ReleaseNow(t);
      }
    }

    lemma LocksNow()
      requires Valid()
      ensures IsFound(registry.history.state, id) <==> client.Some?
    {
      SoundInEveryRun(registry.events);
      LocksIsAttached(registry.history.state, id);
    }

    /** One step of an attach, and what other threads do after it. */
    method AttachStep(t: nat, e: Event)
      requires Valid() && e.thread == t && (e.Test? || e.Section?)
      modifies registry, registry.managers.Values
      ensures Valid() && registry.managers == old(registry.managers)
      ensures old(registry.events) + [e] <= registry.events
      ensures registry.PositionNow(t) == PositionAfter(old(registry.history.state), old(registry.PositionNow(t)), e)
    {
      var _ := registry.TakeStep(e);
      registry.OtherThreads(t);
    }

    /** The first step of an attach copies the manager's fields. */
    method CopyFields(t: nat, gstParent: nat, backendCreated: bool)
      requires Valid() && registry.PositionNow(t).Idle?
      modifies registry, registry.managers.Values
      ensures Valid() && registry.managers == old(registry.managers)
      ensures old(registry.events) + [CallAttach(t, id, gstParent, backendCreated)] <= registry.events
      ensures registry.PositionNow(t) == Copied(id, gstParent, backendCreated, old(View()))
    {
      var _ := registry.TakeStep(CallAttach(t, id, gstParent, backendCreated));
      registry.OtherThreads(t);
    }

    /** The test of the release that an attach calls. */
    method TestToLeave(t: nat, gstParent: nat, backendCreated: bool)
      requires Valid() && registry.PositionNow(t) == Leaving(id, gstParent, backendCreated)
      modifies registry, registry.managers.Values
      ensures Valid() && registry.managers == old(registry.managers) && old(registry.events) <= registry.events
      ensures registry.PositionNow(t) == LeavingTested(id, gstParent, backendCreated)
              || registry.PositionNow(t) == Creating(id, gstParent, backendCreated)
    {
      AttachStep(t, Test(t));
    }

    /** Its critical section. */
    method SectionToLeave(t: nat, gstParent: nat, backendCreated: bool)
      requires Valid() && registry.PositionNow(t) == LeavingTested(id, gstParent, backendCreated)
      modifies registry, registry.managers.Values
      ensures Valid() && registry.managers == old(registry.managers) && old(registry.events) <= registry.events
      ensures registry.PositionNow(t) == Creating(id, gstParent, backendCreated)
    {
      AttachStep(t, Section(t));
    }

    /** Leaves the client of another parent, if it is still attached to it. */
    method LeaveToAttach(t: nat, gstParent: nat, backendCreated: bool)
      requires Valid() && registry.PositionNow(t) == Leaving(id, gstParent, backendCreated)
      modifies registry, registry.managers.Values
      ensures Valid() && registry.managers == old(registry.managers) && old(registry.events) <= registry.events
      ensures registry.PositionNow(t) == Creating(id, gstParent, backendCreated)
    {
      TestToLeave(t, gstParent, backendCreated);
      var pos := registry.PositionNow(t);
      if pos.LeavingTested? {
        SectionToLeave(t, gstParent, backendCreated);
      }
    }

    /** Decides by the copies what to do. */
    method DecideAttach(t: nat, gstParent: nat, backendCreated: bool)
      requires Valid() && registry.PositionNow(t).Copied?
      requires registry.PositionNow(t) == Copied(id, gstParent, backendCreated, registry.PositionNow(t).copy)
      modifies registry, registry.managers.Values
      ensures Valid() && registry.managers == old(registry.managers) && old(registry.events) <= registry.events
      ensures registry.PositionNow(t) == Creating(id, gstParent, backendCreated)
              || registry.PositionNow(t) == Leaving(id, gstParent, backendCreated)
              || registry.PositionNow(t) == Checking(id, gstParent)
    {
      AttachStep(t, Test(t));
    }

    /** Joins or creates the client of the parent. */
    method CreateToAttach(t: nat, gstParent: nat, backendCreated: bool)
      requires Valid() && registry.PositionNow(t) == Creating(id, gstParent, backendCreated)
      modifies registry, registry.managers.Values
      ensures Valid() && registry.managers == old(registry.managers) && old(registry.events) <= registry.events
      ensures registry.PositionNow(t) == Checking(id, gstParent)
    {
      AttachStep(t, Section(t));
    }

    /** Takes the critical sections that the decision calls for. */
    method CarryOutAttach(t: nat, gstParent: nat, backendCreated: bool)
      requires Valid()
      requires registry.PositionNow(t) == Creating(id, gstParent, backendCreated)
               || registry.PositionNow(t) == Leaving(id, gstParent, backendCreated)
               || registry.PositionNow(t) == Checking(id, gstParent)
      modifies registry, registry.managers.Values
      ensures Valid() && registry.managers == old(registry.managers) && old(registry.events) <= registry.events
      ensures registry.PositionNow(t) == Checking(id, gstParent)
    {
      var pos := registry.PositionNow(t);
      if pos.Leaving? {
        LeaveToAttach(t, gstParent, backendCreated);
        CreateToAttach(t, gstParent, backendCreated);
      } else if pos.Creating? {
        CreateToAttach(t, gstParent, backendCreated);
      }
    }

    /** Copies the result. */
    method CopyResult(t: nat, gstParent: nat)
      requires Valid() && registry.PositionNow(t) == Checking(id, gstParent)
      modifies registry, registry.managers.Values
      ensures Valid() && registry.managers == old(registry.managers) && old(registry.events) + [Test(t)] <= registry.events
      ensures registry.PositionNow(t) == Checked(id, gstParent, old(View()))
    {
      AttachStep(t, Test(t));
    }

    /** What the copy tells of the manager as it is now. */
    lemma CopyTells(t: nat, gstParent: nat)
      requires Valid() && registry.PositionNow(t).Checked?
      requires registry.PositionNow(t).manager == id && registry.PositionNow(t).parent == gstParent
      ensures client.Some? && OneAttachEach(registry.events) ==>
                View() == registry.PositionNow(t).copy && parent == gstParent
                && AttachAnswer(registry.history.state, registry.PositionNow(t))
      ensures client.None? && registry.PositionNow(t).copy.AttachedTo? ==> ReleasedNow(t)
    {
      registry.Guarantees();
      assert SeenRight(registry.history, t);
      LockIsClientSet();
    }

    /** Another thread has released this manager since thread `t` last saw it attached. */
    ghost predicate ReleasedNow(t: nat)
      reads registry
    {
      t in registry.history.seen && ReleasedSince(registry.history.log, registry.history.seen[t], id)
    }

    /** Answers by the copy. */
    method AnswerAttach(t: nat, gstParent: nat) returns (attached: bool)
      requires Valid() && registry.PositionNow(t).Checked?
      requires registry.PositionNow(t).manager == id && registry.PositionNow(t).parent == gstParent
      modifies registry, registry.managers.Values
      ensures Valid() && registry.managers == old(registry.managers) && registry.PositionNow(t).Idle?
      ensures registry.events == old(registry.events) + [Test(t)]
      ensures client.Some? && OneAttachEach(registry.events) ==> attached && parent == gstParent
      ensures attached && client.None? ==> ReleasedNow(t)
    {
      CopyTells(t, gstParent);
      attached := registry.IsHeld(registry.PositionNow(t).copy);
      var _ := registry.TakeStep(Test(t));
    }

    /** Everything up to the last look. */
    method CallForAttach(t: nat, gstParent: nat, backendCreated: bool)
      requires Valid() && registry.PositionNow(t).Idle?
      modifies registry, registry.managers.Values
      ensures Valid() && registry.managers == old(registry.managers)
      ensures old(registry.events) + [CallAttach(t, id, gstParent, backendCreated)] <= registry.events
      ensures registry.PositionNow(t) == Checking(id, gstParent)
    {
      CopyFields(t, gstParent, backendCreated);
      DecideAttach(t, gstParent, backendCreated);
      CarryOutAttach(t, gstParent, backendCreated);
    }

    /** The last look. */
    method CheckAttached(t: nat, gstParent: nat) returns (attached: bool)
      requires Valid() && registry.PositionNow(t) == Checking(id, gstParent)
      modifies registry, registry.managers.Values
      ensures Valid() && registry.managers == old(registry.managers) && registry.PositionNow(t).Idle?
      ensures old(registry.events) <= registry.events
      ensures client.Some? && OneAttachEach(registry.events) ==> attached && parent == gstParent
      ensures attached && client.None? ==> ReleasedNow(t)
    {
      CopyResult(t, gstParent);
      attached := AnswerAttach(t, gstParent);
    }

    /** Attaches to the client of a parent, leaving the one of another parent first, while
        other threads call this manager and others.  If none of them attaches a manager that is
        being attached, the answer can be wrong in one way: the manager was released after the
        last copy of its fields. */
    method AttachMediaPlayerClient(t: nat, gstParent: nat, backendCreated: bool) returns (attached: bool)
      requires Valid() && registry.PositionNow(t).Idle?
      modifies registry, registry.managers.Values
      ensures Valid() && registry.managers == old(registry.managers) && registry.PositionNow(t).Idle?
      ensures old(registry.events) + [CallAttach(t, id, gstParent, backendCreated)] <= registry.events
      ensures client.Some? && OneAttachEach(registry.events) ==> attached && parent == gstParent
      ensures attached && client.None? ==> ReleasedNow(t)
    {
      CallForAttach(t, gstParent, backendCreated);
      attached := CheckAttached(t, gstParent);
    }
  }
}
