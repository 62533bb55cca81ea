/** What holds of the registry over every run of its threads. */
module RegistryTheorems {
  import opened Wrappers
  import opened RegistryModel

  function Members(st: State, p: nat): set<nat> {
    set m | m in st.managers && st.managers[m].AttachedTo? && st.managers[m].parent == p
  }

  ghost predicate EntryRight(st: State, p: nat)
    requires p in st.infos
  {
    && st.infos[p].refCount == |Members(st, p)|
    && st.infos[p].refCount >= 1
    && (st.infos[p].controller.Some? ==> st.infos[p].controller.value in Members(st, p))
  }

  ghost predicate ManagerRight(st: State, m: nat)
    requires m in st.managers
  {
    var a := st.managers[m];
    a.AttachedTo? ==> a.parent in st.infos && st.infos[a.parent].client == a.client
  }

  /** The count of a parent's entry is the number of managers attached to it, at least one, its
      controller is nobody or one of them, and every attached manager finds its client there. */
  ghost predicate CountsRight(st: State) {
    && (forall p | p in st.infos :: EntryRight(st, p))
    && (forall m | m in st.managers :: ManagerRight(st, m))
  }

  /** Clients are not shared between parents. */
  ghost predicate ClientsApart(st: State) {
    && (forall p | p in st.infos :: st.infos[p].client < st.nextClient)
    && (forall p, q | p in st.infos && q in st.infos && st.infos[p].client == st.infos[q].client :: p == q)
  }

  ghost predicate Inv(st: State) {
    CountsRight(st) && ClientsApart(st)
  }

  ghost predicate ManagersRight(st: State) {
    forall m | m in st.managers :: ManagerRight(st, m)
  }

  /** What is left of an entry when managers are attached by several threads at a time: the
      count may be too high, and then the controller need not be attached. */
  ghost predicate EntrySound(st: State, p: nat)
    requires p in st.infos
  {
    && st.infos[p].refCount >= 1
    && st.infos[p].refCount >= |Members(st, p)|
    && (st.infos[p].controller.Some? ==>
          st.infos[p].controller.value in Members(st, p) || st.infos[p].refCount > |Members(st, p)|)
  }

  ghost predicate EntriesSound(st: State) {
    forall p | p in st.infos :: EntrySound(st, p)
  }

  ghost predicate Sound(st: State) {
    EntriesSound(st) && ManagersRight(st) && ClientsApart(st)
  }

  lemma LocksIsAttached(st: State, m: nat)
    requires ManagersRight(st)
    ensures Locks(st, m) <==> At(st, m).AttachedTo?
    ensures IsFound(st, m) <==> At(st, m).AttachedTo?
    ensures IsFound(st, m) ==> m in Members(st, At(st, m).parent)
  {
    if At(st, m).AttachedTo? {
      assert ManagerRight(st, m);
      assert st.infos[At(st, m).parent].client == At(st, m).client;
    }
  }

  /** Manager `m` moves to `a`; no entry but that of `p` changes. */
  ghost predicate Moves(st: State, m: nat, a: Attachment, p: nat, st': State) {
    && st'.managers == st.managers[m := a]
    && (a.AttachedTo? ==> a.parent == p)
    && (forall q | q != p :: m !in Members(st, q))
    && st'.infos - {p} == st.infos - {p}
  }

  lemma MembersChange(st: State, m: nat, a: Attachment, p: nat, st': State)
    requires Moves(st, m, a, p, st')
    ensures Members(st', p) == if a.AttachedTo? then Members(st, p) + {m} else Members(st, p) - {m}
    ensures forall q | q != p :: Members(st', q) == Members(st, q)
  {
  }

  lemma OtherEntriesStay(st: State, m: nat, a: Attachment, p: nat, st': State, q: nat)
    requires Moves(st, m, a, p, st') && q != p
    ensures q in st'.infos <==> q in st.infos
    ensures q in st.infos ==> st'.infos[q] == st.infos[q]
  {
    assert q in st'.infos <==> q in st'.infos - {p};
    assert q in st.infos <==> q in st.infos - {p};
    assert q in st.infos ==> st.infos[q] == (st.infos - {p})[q] && st'.infos[q] == (st'.infos - {p})[q];
  }

  lemma MoveKeepsCounts(st: State, m: nat, a: Attachment, p: nat, st': State)
    requires CountsRight(st) && Moves(st, m, a, p, st')
    requires p in st'.infos ==> EntryRight(st', p)
    requires p in st.infos && p in st'.infos ==> st'.infos[p].client == st.infos[p].client
    requires a.AttachedTo? ==> p in st'.infos && st'.infos[p].client == a.client
    requires p !in st'.infos ==> Members(st', p) == {}
    ensures CountsRight(st')
  {
    MembersChange(st, m, a, p, st');
    forall q | q in st'.infos
      ensures EntryRight(st', q)
    {
      if q != p {
        OtherEntriesStay(st, m, a, p, st', q);
        assert EntryRight(st, q);
      }
    }
    forall x | x in st'.managers
      ensures ManagerRight(st', x)
    {
      var b := st'.managers[x];
      if x != m && b.AttachedTo? {
        assert ManagerRight(st, x);
        assert x in Members(st', b.parent);
        if b.parent != p {
          OtherEntriesStay(st, m, a, p, st', b.parent);
        }
      }
    }
  }

  lemma CreateKeepsCounts(st: State, m: nat, p: nat, backendCreated: bool)
    requires Inv(st) && !Locks(st, m) && (p in st.infos || backendCreated)
    ensures CountsRight(CreateStep(st, m, p, backendCreated).state)
  {
    var st' := CreateStep(st, m, p, backendCreated).state;
    var a := st'.managers[m];
    LocksIsAttached(st, m);
    assert forall q :: m !in Members(st, q);
    assert st'.infos - {p} == st.infos - {p};
    MembersChange(st, m, a, p, st');
    if p in st.infos {
      assert EntryRight(st, p);
    } else {
      NoEntryNoMembers(st, p);
      assert Members(st', p) == {m};
    }
    MoveKeepsCounts(st, m, a, p, st');
  }

  lemma NoEntryNoMembers(st: State, p: nat)
    requires CountsRight(st)
    ensures p !in st.infos ==> Members(st, p) == {}
  {
    forall m | m in Members(st, p)
      ensures p in st.infos
    {
      assert ManagerRight(st, m);
    }
  }

  lemma ReleaseKeepsCounts(st: State, m: nat)
    requires Inv(st) && IsFound(st, m)
    ensures CountsRight(ReleaseStep(st, m).state)
  {
    var st' := ReleaseStep(st, m).state;
    LocksIsAttached(st, m);
    var p := At(st, m).parent;
    assert st'.infos - {p} == st.infos - {p};
    assert Moves(st, m, Detached, p, st');
    MembersChange(st, m, Detached, p, st');
    assert EntryRight(st, p);
    assert |Members(st', p)| == |Members(st, p)| - 1;
    if st.infos[p].refCount == 1 {
      assert Members(st', p) == {};
    }
    MoveKeepsCounts(st, m, Detached, p, st');
  }

  lemma StepKeepsClientsApart(st: State, op: Op)
    requires ClientsApart(st)
    ensures ClientsApart(Step(st, op).state)
  {
  }

  /** Only a manager that is not attached creates. */
  predicate IsReady(st: State, op: Op) {
    op.Create? ==> !Locks(st, op.manager)
  }

  lemma StepKeeps(st: State, op: Op)
    requires Inv(st) && IsReady(st, op)
    ensures Inv(Step(st, op).state)
  {
    StepKeepsClientsApart(st, op);
    match op
    case Create(m, p, backendCreated) =>
      if p in st.infos || backendCreated {
        CreateKeepsCounts(st, m, p, backendCreated);
      }
    case Release(m) =>
      if IsFound(st, m) {
        ReleaseKeepsCounts(st, m);
      }
    case HasControl(m) =>
      LocksIsAttached(st, m);
      var st' := HasControlStep(st, m).state;
      assert forall q :: Members(st', q) == Members(st, q);
      assert forall p | p in st.infos :: EntryRight(st, p);
      assert forall x | x in st.managers :: ManagerRight(st, x);
  }

  /** The counts depend on it: a creation by a manager that is attached always breaks them. */
  lemma CreateKeepsCountsExactly(st: State, m: nat, p: nat, backendCreated: bool)
    requires Inv(st) && (p in st.infos || backendCreated)
    ensures CountsRight(CreateStep(st, m, p, backendCreated).state) <==> !Locks(st, m)
  {
    if !Locks(st, m) {
      CreateKeepsCounts(st, m, p, backendCreated);
    } else {
      var st' := CreateStep(st, m, p, backendCreated).state;
      LocksIsAttached(st, m);
      var q := At(st, m).parent;
      assert EntryRight(st, q);
      assert q in st'.infos;
      if q == p {
        assert Members(st', q) == Members(st, q);
      } else {
        assert Members(st', q) == Members(st, q) - {m};
        assert st'.infos[q] == st.infos[q];
      }
      assert !EntryRight(st', q);
    }
  }

  // ----- Whatever the threads do -----

  /** No entry but that of `p` gains a member, and none but it changes. */
  lemma MoveKeepsSound(st: State, m: nat, a: Attachment, p: nat, st': State)
    requires EntriesSound(st) && ManagersRight(st)
    requires st'.managers == st.managers[m := a] && st'.infos - {p} == st.infos - {p}
    requires a.AttachedTo? ==> a.parent == p && p in st'.infos && st'.infos[p].client == a.client
    requires a.Detached? ==> At(st, m).AttachedTo? && At(st, m).parent == p
    requires p in st'.infos ==> EntrySound(st', p)
    requires p in st.infos && p in st'.infos ==> st'.infos[p].client == st.infos[p].client
    requires p !in st'.infos ==> Members(st', p) == {}
    ensures EntriesSound(st') && ManagersRight(st')
  {
    forall q | q in st'.infos
      ensures EntrySound(st', q)
    {
      if q != p {
        OthersStaySound(st, m, a, p, st', q);
      }
    }
    forall x | x in st'.managers
      ensures ManagerRight(st', x)
    {
      var b := st'.managers[x];
      if x != m && b.AttachedTo? {
        assert ManagerRight(st, x);
        assert x in Members(st', b.parent);
        if b.parent != p {
          assert b.parent in st.infos - {p};
          assert st'.infos[b.parent] == (st'.infos - {p})[b.parent];
        }
      }
    }
  }

  lemma OthersStaySound(st: State, m: nat, a: Attachment, p: nat, st': State, q: nat)
    requires EntriesSound(st) && q != p && q in st'.infos
    requires st'.managers == st.managers[m := a] && st'.infos - {p} == st.infos - {p}
    requires a.AttachedTo? ==> a.parent == p
    requires a.Detached? ==> At(st, m).AttachedTo? && At(st, m).parent == p
    ensures EntrySound(st', q)
  {
    assert q in st'.infos - {p};
    assert q in st.infos && st'.infos[q] == (st'.infos - {p})[q] == (st.infos - {p})[q] == st.infos[q];
    assert EntrySound(st, q);
    assert Members(st', q) == Members(st, q) - if a.AttachedTo? then {m} else {};
    CardinalityOfSubset(Members(st', q), Members(st, q));
    if m in Members(st, q) && a.AttachedTo? {
      assert |Members(st', q)| == |Members(st, q)| - 1;
    }
  }

  lemma JoinIsSound(st: State, m: nat, p: nat, st': State)
    requires p in st.infos && EntrySound(st, p)
    requires p in st'.infos && st'.infos[p] == st.infos[p].(refCount := st.infos[p].refCount + 1)
    requires Members(st', p) == Members(st, p) + {m}
    ensures EntrySound(st', p)
  {
    assert |Members(st', p)| <= |Members(st, p)| + 1;
  }

  lemma CreateKeepsSound(st: State, m: nat, p: nat, backendCreated: bool)
    requires Sound(st) && (p in st.infos || backendCreated)
    ensures Sound(CreateStep(st, m, p, backendCreated).state)
  {
    var st' := CreateStep(st, m, p, backendCreated).state;
    StepKeepsClientsApart(st, Create(m, p, backendCreated));
    assert st'.infos - {p} == st.infos - {p};
    assert Members(st', p) == Members(st, p) + {m};
    if p in st.infos {
      JoinIsSound(st, m, p, st');
      MoveKeepsSound(st, m, st'.managers[m], p, st');
    } else {
      NoMembersThere(st, p);
      assert Members(st', p) == {m};
      MoveKeepsSound(st, m, st'.managers[m], p, st');
    }
  }

  lemma NoMembersThere(st: State, p: nat)
    requires ManagersRight(st)
    ensures p !in st.infos ==> Members(st, p) == {}
  {
    forall m | m in Members(st, p)
      ensures p in st.infos
    {
      assert ManagerRight(st, m);
    }
  }

  lemma ReleaseKeepsSound(st: State, m: nat)
    requires Sound(st) && IsFound(st, m)
    ensures Sound(ReleaseStep(st, m).state)
  {
    var st' := ReleaseStep(st, m).state;
    var p := At(st, m).parent;
    StepKeepsClientsApart(st, Release(m));
    assert EntrySound(st, p);
    assert st'.infos - {p} == st.infos - {p};
    assert m in Members(st, p) && Members(st', p) == Members(st, p) - {m};
    assert |Members(st', p)| == |Members(st, p)| - 1;
    MoveKeepsSound(st, m, Detached, p, st');
  }

  lemma QueryKeepsSound(st: State, m: nat)
    requires Sound(st)
    ensures Sound(HasControlStep(st, m).state)
  {
    var st' := HasControlStep(st, m).state;
    assert forall q :: Members(st', q) == Members(st, q);
    assert forall q | q in st.infos :: EntrySound(st, q);
    assert forall x | x in st.managers :: ManagerRight(st, x);
    if IsFound(st, m) {
      assert m in Members(st, At(st, m).parent);
    }
  }

  lemma StepKeepsSound(st: State, op: Op)
    requires Sound(st)
    ensures Sound(Step(st, op).state)
  {
    match op
    case Create(m, p, backendCreated) =>
      if p in st.infos || backendCreated {
        CreateKeepsSound(st, m, p, backendCreated);
      }
    case Release(m) =>
      if IsFound(st, m) {
        ReleaseKeepsSound(st, m);
      }
    case HasControl(m) => QueryKeepsSound(st, m);
  }

  /** Every run, whatever the threads do. */
  lemma {:induction false} SoundInEveryRun(events: seq<Event>)
    ensures Sound(Run(events).state)
  {
    if events != [] {
      var n := |events| - 1;
      var h, e := Run(events[..n]), events[n];
      SoundInEveryRun(events[..n]);
      if OpOf(h, e).Some? {
        StepKeepsSound(h.state, OpOf(h, e).value);
      }
    }
  }

  // ----- Threads -----

  /** What an attach under way may rely on. */
  ghost predicate PositionRight(h: History, pos: Position) {
    && (pos.Creating? ==> At(h.state, pos.manager).Detached?)
    && (pos.Copied? ==> At(h.state, pos.manager) == pos.copy || At(h.state, pos.manager).Detached?)
    && (pos.Checking? && At(h.state, pos.manager).AttachedTo? ==> At(h.state, pos.manager).parent == pos.parent)
    && (pos.Checked? ==>
          && (At(h.state, pos.manager) == pos.copy || At(h.state, pos.manager).Detached?)
          && (pos.copy.AttachedTo? ==> pos.copy.parent == pos.parent))
  }

  ghost predicate ThreadsRight(h: History) {
    && (forall t | t in h.threads :: PositionRight(h, h.threads[t]))
    && (forall t, u | t in h.threads && u in h.threads && IsAttaching(h.threads[t]) && IsAttaching(h.threads[u])
                      && h.threads[t].manager == h.threads[u].manager :: t == u)
  }

  /** The event does not begin an attach of a manager that another thread is attaching. */
  predicate IsPermitted(h: History, e: Event) {
    e.CallAttach? && PositionOf(h, e.thread).Idle? ==>
      forall t | t in h.threads && IsAttaching(h.threads[t]) :: h.threads[t].manager != e.manager
  }

  /** Each manager is attached by one thread at a time. */
  ghost predicate OneAttachEach(events: seq<Event>) {
    events != [] ==>
      var n := |events| - 1;
      OneAttachEach(events[..n]) && IsPermitted(Run(events[..n]), events[n])
  }

  lemma SectionIsReady(h: History, e: Event)
    requires Inv(h.state) && ThreadsRight(h)
    ensures OpOf(h, e).Some? ==> IsReady(h.state, OpOf(h, e).value)
  {
    if e.Section? && e.thread in h.threads && h.threads[e.thread].Creating? {
      assert PositionRight(h, h.threads[e.thread]);
      LocksIsAttached(h.state, h.threads[e.thread].manager);
    }
  }

  lemma StepMovesOnlyItsManager(st: State, op: Op, m: nat)
    requires ManagersRight(st)
    ensures m != op.manager ==> At(Step(st, op).state, m) == At(st, m)
    ensures op.Release? ==> At(Step(st, op).state, op.manager).Detached?
    ensures op.HasControl? ==> At(Step(st, op).state, m) == At(st, m)
  {
    LocksIsAttached(st, op.manager);
  }

  /** The thread that moves. */
  lemma OwnPositionRight(h: History, e: Event)
    requires Inv(h.state) && ThreadsRight(h)
    ensures PositionRight(Next(h, e), PositionAfter(h.state, PositionOf(h, e.thread), e))
  {
    var pos := PositionOf(h, e.thread);
    SectionIsReady(h, e);
    if e.thread in h.threads {
      assert PositionRight(h, h.threads[e.thread]);
    }
    if !pos.Idle? {
      LocksIsAttached(h.state, pos.manager);
    }
    if OpOf(h, e).Some? {
      StepMovesOnlyItsManager(h.state, OpOf(h, e).value, pos.manager);
    }
  }

  /** Another thread: a section of this one detaches its manager or leaves it alone. */
  lemma OtherPositionRight(h: History, e: Event, u: nat)
    requires Inv(h.state) && ThreadsRight(h) && u in h.threads && u != e.thread
    ensures PositionRight(Next(h, e), h.threads[u])
  {
    assert PositionRight(h, h.threads[u]);
    SectionIsReady(h, e);
    if OpOf(h, e).Some? && IsAttaching(h.threads[u]) {
      var op, m := OpOf(h, e).value, h.threads[u].manager;
      StepMovesOnlyItsManager(h.state, op, m);
      assert op.Create? ==> op.manager != m;
    }
  }

  lemma NextKeepsThreads(h: History, e: Event)
    requires Inv(h.state) && ThreadsRight(h) && IsPermitted(h, e)
    ensures ThreadsRight(Next(h, e))
  {
    var h' := Next(h, e);
    forall t | t in h'.threads
      ensures PositionRight(h', h'.threads[t])
    {
      if t == e.thread {
        OwnPositionRight(h, e);
      } else {
        OtherPositionRight(h, e, t);
      }
    }
  }

  lemma {:induction false} InvInEveryRun(events: seq<Event>)
    requires OneAttachEach(events)
    ensures Inv(Run(events).state) && ThreadsRight(Run(events))
  {
    if events != [] {
      var n := |events| - 1;
      var h, e := Run(events[..n]), events[n];
      InvInEveryRun(events[..n]);
      SectionIsReady(h, e);
      NextKeepsThreads(h, e);
      if OpOf(h, e).Some? {
        StepKeeps(h.state, OpOf(h, e).value);
      }
    }
  }

  /** Registry counts, over any number of threads, managers and parents, with each manager
      attached by one thread at a time. */
  lemma RegistryCounts(events: seq<Event>)
    requires OneAttachEach(events)
    ensures var st := Run(events).state;
            && CountsRight(st)
            && (forall p :: p in st.infos <==> Members(st, p) != {})
  {
    InvInEveryRun(events);
    var st := Run(events).state;
    forall p
      ensures p in st.infos <==> Members(st, p) != {}
    {
      NoEntryNoMembers(st, p);
      if p in st.infos {
        assert EntryRight(st, p);
      }
    }
  }

  /** A creation that takes place finds its manager not attached. */
  ghost predicate CreatesDetached(h: History, e: Event) {
    OpOf(h, e).Some? && OpOf(h, e).value.Create? ==>
      var op := OpOf(h, e).value;
      op.parent in h.state.infos || op.backendCreated ==> !Locks(h.state, op.manager)
  }

  lemma NextKeepsInvExactly(h: History, e: Event)
    requires Inv(h.state)
    ensures Inv(Next(h, e).state) <==> CreatesDetached(h, e)
  {
    if OpOf(h, e).Some? {
      var op := OpOf(h, e).value;
      StepKeepsClientsApart(h.state, op);
      if op.Create? {
        if op.parent in h.state.infos || op.backendCreated {
          CreateKeepsCountsExactly(h.state, op.manager, op.parent, op.backendCreated);
        }
      } else {
        StepKeeps(h.state, op);
      }
    }
  }

  /** The counts are right after each step of the run. */
  ghost predicate AlwaysRight(events: seq<Event>) {
    Inv(Run(events).state) && (events != [] ==> AlwaysRight(events[..|events| - 1]))
  }

  ghost predicate AlwaysCreatesDetached(events: seq<Event>) {
    events != [] ==>
      var n := |events| - 1;
      CreatesDetached(Run(events[..n]), events[n]) && AlwaysCreatesDetached(events[..n])
  }

  /** In every run, whatever the threads do, the counts are right all along if and only if each
      creation finds its manager not attached. */
  lemma {:induction false} RegistryCountsExactly(events: seq<Event>)
    ensures AlwaysRight(events) <==> AlwaysCreatesDetached(events)
  {
    if events != [] {
      var n := |events| - 1;
      RegistryCountsExactly(events[..n]);
      if AlwaysRight(events[..n]) {
        NextKeepsInvExactly(Run(events[..n]), events[n]);
      }
    }
  }

  // ----- Stopping -----

  ghost predicate IsHeld(st: State, c: nat) {
    exists p | p in st.infos :: st.infos[p].client == c
  }

  /** A client has been stopped once if it was created and nobody is attached to it any more,
      and not at all otherwise. */
  ghost predicate StoppedWhenLeft(st: State, log: seq<Entry>) {
    forall c: nat :: multiset(log)[Stopped(c)] == if c < st.nextClient && !IsHeld(st, c) then 1 else 0
  }

  lemma StepKeepsStops(st: State, log: seq<Entry>, op: Op)
    requires Sound(st) && StoppedWhenLeft(st, log)
    ensures var o := Step(st, op); StoppedWhenLeft(o.state, log + o.log)
  {
    var o := Step(st, op);
    forall c: nat
      ensures multiset(log + o.log)[Stopped(c)] ==
              if c < o.state.nextClient && !IsHeld(o.state, c) then 1 else 0
    {
      assert multiset(log + o.log)[Stopped(c)] == multiset(log)[Stopped(c)] + multiset(o.log)[Stopped(c)];
      match op
      case Create(m, p, backendCreated) => HeldAfterCreate(st, m, p, backendCreated, c);
      case Release(m) => HeldAfterRelease(st, m, c);
      case HasControl(m) => HeldAfterQuery(st, m, c);
    }
  }

  lemma HeldAfterCreate(st: State, m: nat, p: nat, backendCreated: bool, c: nat)
    requires Sound(st)
    ensures var o := CreateStep(st, m, p, backendCreated);
            && multiset(o.log)[Stopped(c)] == 0
            && (IsHeld(o.state, c) <==> IsHeld(st, c) || (c == st.nextClient && o.state.nextClient > st.nextClient))
  {
    var o := CreateStep(st, m, p, backendCreated);
    if IsHeld(st, c) {
      var q :| q in st.infos && st.infos[q].client == c;
      assert q in o.state.infos && o.state.infos[q].client == c;
    }
    if c == st.nextClient && o.state.nextClient > st.nextClient {
      assert o.state.infos[p].client == c;
    }
  }

  lemma HeldAfterRelease(st: State, m: nat, c: nat)
    requires Sound(st)
    ensures var o := ReleaseStep(st, m);
            && multiset(o.log)[Stopped(c)] == (if IsHeld(st, c) && !IsHeld(o.state, c) then 1 else 0)
            && (IsHeld(o.state, c) ==> IsHeld(st, c))
  {
    var o := ReleaseStep(st, m);
    LocksIsAttached(st, m);
    if IsFound(st, m) {
      var p := At(st, m).parent;
      if IsHeld(st, c) {
        var q :| q in st.infos && st.infos[q].client == c;
        if q != p || st.infos[p].refCount > 1 {
          assert q in o.state.infos && o.state.infos[q].client == c;
        } else {
          assert !IsHeld(o.state, c);
        }
      }
    }
  }

  lemma HeldAfterQuery(st: State, m: nat, c: nat)
    ensures var o := HasControlStep(st, m);
            multiset(o.log)[Stopped(c)] == 0 && (IsHeld(o.state, c) <==> IsHeld(st, c))
  {
    var o := HasControlStep(st, m);
    assert o.state.infos.Keys == st.infos.Keys;
    assert forall p | p in st.infos :: o.state.infos[p].client == st.infos[p].client;
  }

  /** A client is stopped exactly when its last manager leaves, and only then. */
  lemma {:induction false} StopsExactlyWhenLastLeaves(events: seq<Event>)
    ensures StoppedWhenLeft(Run(events).state, Run(events).log)
  {
    if events != [] {
      var n := |events| - 1;
      StopsExactlyWhenLastLeaves(events[..n]);
      SoundInEveryRun(events[..n]);
      var h := Run(events[..n]);
      if OpOf(h, events[n]).Some? {
        StepKeepsStops(h.state, h.log, OpOf(h, events[n]).value);
      }
    }
  }

  // ----- Exclusive control -----

  /** The grant at `i` has not been given up by its manager's leaving. */
  ghost predicate Stands(log: seq<Entry>, i: nat)
    requires i < |log|
  {
    log[i].Granted? && forall k | i < k < |log| :: log[k] != Left(log[i].manager, log[i].parent)
  }

  /** Control of a parent passes to another manager only after the first one left. */
  ghost predicate ControlIsExclusive(log: seq<Entry>) {
    forall i, j | 0 <= i < j < |log| && log[i].Granted? && log[j].Granted?
                  && log[i].parent == log[j].parent && log[i].manager != log[j].manager ::
      exists k | i < k < j :: log[k] == Left(log[i].manager, log[i].parent)
  }

  ghost predicate ControlInv(st: State, log: seq<Entry>) {
    && ControlIsExclusive(log)
    && (forall i | 0 <= i < |log| && Stands(log, i) ::
          && log[i].parent in st.infos
          && st.infos[log[i].parent].controller == Some(log[i].manager))
  }

  lemma StandsGrows(log: seq<Entry>, e: Entry, i: nat)
    requires i < |log|
    ensures Stands(log + [e], i) <==> Stands(log, i) && e != Left(log[i].manager, log[i].parent)
  {
    var l := log + [e];
    assert l[|log|] == e;
    assert forall k | 0 <= k < |log| :: l[k] == log[k];
  }

  lemma ExclusiveGrows(log: seq<Entry>, e: Entry)
    requires ControlIsExclusive(log)
    requires e.Granted? ==> forall i | 0 <= i < |log| && Stands(log, i) && log[i].parent == e.parent ::
               log[i].manager == e.manager
    ensures ControlIsExclusive(log + [e])
  {
    var l := log + [e];
    forall i, j | 0 <= i < j < |l| && l[i].Granted? && l[j].Granted?
                  && l[i].parent == l[j].parent && l[i].manager != l[j].manager
      ensures exists k | i < k < j :: l[k] == Left(l[i].manager, l[i].parent)
    {
      assert l[i] == log[i];
      if j < |log| {
        var k :| i < k < j && log[k] == Left(log[i].manager, log[i].parent);
        assert l[k] == log[k];
      } else {
        assert !Stands(log, i);
        var k :| i < k < |log| && log[k] == Left(log[i].manager, log[i].parent);
        assert l[k] == log[k];
      }
    }
  }

  /** One log line over a new table. */
  lemma ControlExtend(st: State, log: seq<Entry>, e: Entry, st': State)
    requires ControlInv(st, log)
    requires e.Granted? ==>
               && e.parent in st'.infos && st'.infos[e.parent].controller == Some(e.manager)
               && (e.parent in st.infos ==> st.infos[e.parent].controller in {None, Some(e.manager)})
    requires forall p | p in st.infos && st.infos[p].controller.Some? ::
               || e == Left(st.infos[p].controller.value, p)
               || (p in st'.infos && st'.infos[p].controller == st.infos[p].controller)
    ensures ControlInv(st', log + [e])
  {
    var l := log + [e];
    ExclusiveGrows(log, e);
    forall i | 0 <= i < |l| && Stands(l, i)
      ensures l[i].parent in st'.infos && st'.infos[l[i].parent].controller == Some(l[i].manager)
    {
      if i < |log| {
        StandsGrows(log, e, i);
        assert l[i] == log[i] && Stands(log, i);
      }
    }
  }

  lemma StepKeepsControl(st: State, log: seq<Entry>, op: Op)
    requires Sound(st) && ControlInv(st, log)
    ensures var o := Step(st, op); ControlInv(o.state, log + o.log)
  {
    var o := Step(st, op);
    LocksIsAttached(st, op.manager);
    if o.log == [] {
      assert log + o.log == log;
    } else if |o.log| == 1 {
      assert o.log == [o.log[0]];
      ControlExtend(st, log, o.log[0], o.state);
    } else if op.Create? {
      ControlExtend(st, log, Joined(op.manager, op.parent), st);
      ControlExtend(st, log + [Joined(op.manager, op.parent)], Granted(op.manager, op.parent), o.state);
      assert log + o.log == log + [Joined(op.manager, op.parent)] + [Granted(op.manager, op.parent)];
    } else {
      LastLeaves(st, op.manager);
      ControlExtend(st, log, o.log[0], o.state);
      ControlExtend(o.state, log + [o.log[0]], o.log[1], o.state);
      assert log + o.log == log + [o.log[0]] + [o.log[1]];
    }
  }

  /** The last member is the only possible controller. */
  lemma LastLeaves(st: State, m: nat)
    requires Sound(st) && IsFound(st, m)
    requires st.infos[At(st, m).parent].refCount == 1
    ensures st.infos[At(st, m).parent].controller in {None, Some(m)}
  {
    var p := At(st, m).parent;
    LocksIsAttached(st, m);
    assert EntrySound(st, p);
    if st.infos[p].controller.Some? {
      var c := st.infos[p].controller.value;
      if c != m {
        assert {c, m} <= Members(st, p);
        assert |{c, m}| == 2;
        CardinalityOfSubset({c, m}, Members(st, p));
      }
    }
  }

  lemma CardinalityOfSubset(a: set<nat>, b: set<nat>)
    requires a <= b
    ensures |a| <= |b|
  {
    assert b == a + (b - a);
  }

  /** In every run at most one manager has control of a parent: between two grants to
      different managers the first one has left. */
  lemma {:induction false} AtMostOneControls(events: seq<Event>)
    ensures ControlInv(Run(events).state, Run(events).log)
  {
    if events != [] {
      var n := |events| - 1;
      AtMostOneControls(events[..n]);
      SoundInEveryRun(events[..n]);
      var h := Run(events[..n]);
      if OpOf(h, events[n]).Some? {
        StepKeepsControl(h.state, h.log, OpOf(h, events[n]).value);
      }
    }
  }
}
