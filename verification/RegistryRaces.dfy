/** Threads that call the same manager: when a critical section does not find the entry that
    its test promised, and what two attaches at once do to the counts. */
module RegistryRaces {
  import opened Wrappers
  import opened RegistryModel
  import opened RegistryTheorems

  // ----- The could-not-find branches -----

  predicate IsJoin(e: Entry, m: nat) {
    e.Joined? && e.manager == m
  }

  predicate IsLeave(e: Entry, m: nat) {
    e.Left? && e.manager == m
  }

  /** Since the log was `since` long the manager was released, and not attached again. */
  ghost predicate ReleasedSince(log: seq<Entry>, since: nat, m: nat) {
    exists k | since <= k < |log| :: IsLeave(log[k], m) && forall j | k < j < |log| :: !IsJoin(log[j], m)
  }

  lemma ReleasedSinceGrows(log: seq<Entry>, e: Entry, since: nat, m: nat)
    requires since <= |log|
    ensures ReleasedSince(log + [e], since, m) <==> IsLeave(e, m) || (ReleasedSince(log, since, m) && !IsJoin(e, m))
  {
    var l := log + [e];
    assert l[|log|] == e;
    assert forall k | 0 <= k < |log| :: l[k] == log[k];
    if ReleasedSince(log, since, m) && !IsJoin(e, m) {
      var k :| since <= k < |log| && IsLeave(log[k], m) && forall j | k < j < |log| :: !IsJoin(log[j], m);
      assert IsLeave(l[k], m);
    }
  }

  lemma OpReleasedSince(st: State, log: seq<Entry>, op: Op, since: nat, m: nat)
    requires Sound(st) && since <= |log|
    requires At(st, m).Detached? <==> ReleasedSince(log, since, m)
    ensures var o := Step(st, op); At(o.state, m).Detached? <==> ReleasedSince(log + o.log, since, m)
  {
    var o := Step(st, op);
    StepMovesOnlyItsManager(st, op, m);
    LocksIsAttached(st, op.manager);
    if o.log == [] {
      assert log + o.log == log;
    } else {
      ReleasedSinceGrows(log, o.log[0], since, m);
      if |o.log| == 2 {
        ReleasedSinceGrows(log + [o.log[0]], o.log[1], since, m);
        assert log + o.log == log + [o.log[0]] + [o.log[1]];
      } else {
        assert o.log == [o.log[0]];
      }
    }
  }

  /** A thread that has seen its manager attached finds it detached exactly if it was released
      since. */
  ghost predicate SeenRight(h: History, t: nat) {
    HasSeenAttached(PositionOf(h, t)) ==>
      && t in h.seen && h.seen[t] <= |h.log|
      && (At(h.state, PositionOf(h, t).manager).Detached? <==>
          ReleasedSince(h.log, h.seen[t], PositionOf(h, t).manager))
  }

  lemma NextKeepsTest(h: History, e: Event, t: nat)
    requires Sound(h.state) && SeenRight(h, t)
    requires PositionOf(Next(h, e), t) == PositionOf(h, t)
    ensures SeenRight(Next(h, e), t)
  {
    if OpOf(h, e).Some? && HasSeenAttached(PositionOf(h, t)) {
      OpReleasedSince(h.state, h.log, OpOf(h, e).value, h.seen[t], PositionOf(h, t).manager);
    }
  }

  lemma NewTestIsRight(h: History, e: Event)
    requires Sound(h.state) && PositionOf(Next(h, e), e.thread) != PositionOf(h, e.thread)
    ensures SeenRight(Next(h, e), e.thread)
  {
    var pos := PositionOf(Next(h, e), e.thread);
    if HasSeenAttached(pos) {
      LocksIsAttached(h.state, pos.manager);
    }
  }

  lemma {:induction false} SeenRightInEveryRun(events: seq<Event>, t: nat)
    ensures SeenRight(Run(events), t)
  {
    if events != [] {
      var n := |events| - 1;
      var h, e := Run(events[..n]), events[n];
      SeenRightInEveryRun(events[..n], t);
      SoundInEveryRun(events[..n]);
      if PositionOf(Next(h, e), t) == PositionOf(h, t) {
        NextKeepsTest(h, e, t);
      } else {
        NewTestIsRight(h, e);
      }
    }
  }

  lemma SectionNotFound(h: History, e: Event)
    requires Sound(h.state) && OpOf(h, e).Some?
    ensures var op := OpOf(h, e).value;
            (exists x | x in Step(h.state, op).log :: x.NotFound?) <==>
            !op.Create? && At(h.state, op.manager).Detached?
  {
    var op := OpOf(h, e).value;
    LocksIsAttached(h.state, op.manager);
    var log := Step(h.state, op).log;
    if !op.Create? && At(h.state, op.manager).Detached? {
      assert log == [NotFound(op.manager)];
      assert log[0] in log;
    }
  }

  lemma NextNotFound(h: History, e: Event)
    requires Sound(h.state)
    ensures (exists x | x in Next(h, e).log[|h.log|..] :: x.NotFound?) <==>
            e.Section? && HasTested(PositionOf(h, e.thread)) && At(h.state, PositionOf(h, e.thread).manager).Detached?
  {
    if OpOf(h, e).Some? {
      SectionNotFound(h, e);
      assert Next(h, e).log[|h.log|..] == Step(h.state, OpOf(h, e).value).log;
    } else {
      assert Next(h, e).log[|h.log|..] == [];
    }
  }

  /** A section of a call that has tested reaches the could-not-find branch if and only if,
      between its test and its section, another thread released the manager and nobody attached
      it again; no other step reaches it. */
  lemma NotFoundExactly(events: seq<Event>, e: Event)
    ensures var h := Run(events);
            var pos := PositionOf(h, e.thread);
            (exists x | x in Next(h, e).log[|h.log|..] :: x.NotFound?) <==>
            e.Section? && HasTested(pos) && e.thread in h.seen
            && ReleasedSince(h.log, h.seen[e.thread], pos.manager)
  {
    SoundInEveryRun(events);
    SeenRightInEveryRun(events, e.thread);
    NextNotFound(Run(events), e);
  }

  // -- Calls on one manager one after the other --

  predicate IsOn(pos: Position, m: nat) {
    !pos.Idle? && pos.manager == m
  }

  /** The event does not begin a call on a manager on which another thread has one under way. */
  ghost predicate IsSerial(h: History, e: Event) {
    e.CallRelease? || e.CallControl? || e.CallAttach? ==>
      forall t | t in h.threads && t != e.thread :: !IsOn(h.threads[t], e.manager)
  }

  ghost predicate Serialised(events: seq<Event>) {
    events != [] ==>
      var n := |events| - 1;
      Serialised(events[..n]) && IsSerial(Run(events[..n]), events[n])
  }

  ghost predicate OneCallEach(h: History) {
    forall t, u | t in h.threads && u in h.threads && !h.threads[t].Idle? && !h.threads[u].Idle?
                  && h.threads[t].manager == h.threads[u].manager :: t == u
  }

  ghost predicate TestedAttached(h: History) {
    forall t | t in h.threads && HasTested(h.threads[t]) :: At(h.state, h.threads[t].manager).AttachedTo?
  }

  lemma SerialKeepsTests(h: History, e: Event)
    requires Inv(h.state) && ThreadsRight(h) && OneCallEach(h) && TestedAttached(h)
    ensures TestedAttached(Next(h, e))
  {
    var h' := Next(h, e);
    forall t | t in h'.threads && HasTested(h'.threads[t])
      ensures At(h'.state, h'.threads[t].manager).AttachedTo?
    {
      if t == e.thread {
        OwnTestIsRight(h, e);
      } else {
        OtherTestIsRight(h, e, t);
      }
    }
  }

  lemma OwnTestIsRight(h: History, e: Event)
    requires Inv(h.state) && TestedAttached(h) && HasTested(PositionOf(Next(h, e), e.thread))
    ensures At(Next(h, e).state, PositionOf(Next(h, e), e.thread).manager).AttachedTo?
  {
    LocksIsAttached(h.state, PositionOf(Next(h, e), e.thread).manager);
    assert OpOf(h, e).None?;
  }

  lemma OtherTestIsRight(h: History, e: Event, t: nat)
    requires Inv(h.state) && OneCallEach(h) && TestedAttached(h)
    requires t in h.threads && t != e.thread && HasTested(h.threads[t])
    ensures At(Next(h, e).state, h.threads[t].manager).AttachedTo?
  {
    var m := h.threads[t].manager;
    if OpOf(h, e).Some? {
      assert OpOf(h, e).value.manager != m;
      StepMovesOnlyItsManager(h.state, OpOf(h, e).value, m);
    }
  }

  lemma SerialKeepsCalls(h: History, e: Event)
    requires OneCallEach(h) && IsSerial(h, e)
    ensures OneCallEach(Next(h, e)) && IsPermitted(h, e)
  {
  }

  lemma SerialStep(h: History, e: Event)
    requires Inv(h.state) && ThreadsRight(h) && TestedAttached(h)
    ensures forall x | x in Next(h, e).log :: x in h.log || !x.NotFound?
  {
    if OpOf(h, e).Some? {
      SectionNotFound(h, e);
    }
  }

  /** Calls that come one after the other on each manager attach it one at a time. */
  lemma {:induction false} SerialisedRuns(events: seq<Event>)
    requires Serialised(events)
    ensures OneAttachEach(events) && OneCallEach(Run(events))
  {
    if events != [] {
      var n := |events| - 1;
      SerialisedRuns(events[..n]);
      SerialKeepsCalls(Run(events[..n]), events[n]);
    }
  }

  /** If the calls on each manager come one after the other, the could-not-find branches are
      never reached. */
  lemma {:induction false} NeverNotFound(events: seq<Event>)
    requires Serialised(events)
    ensures TestedAttached(Run(events))
    ensures forall x | x in Run(events).log :: !x.NotFound?
  {
    if events != [] {
      var n := |events| - 1;
      NeverNotFound(events[..n]);
      SerialisedRuns(events[..n]);
      InvInEveryRun(events[..n]);
      SerialKeepsTests(Run(events[..n]), events[n]);
      SerialStep(Run(events[..n]), events[n]);
    }
  }

  // -- Runs that go wrong --

  /** Manager 1 attaches to parent 7; a control query has tested it when another thread
      releases it. */
  function ReleasedInBetween(): seq<Event> {
    [CallAttach(1, 1, 7, true)] + [Test(1)] + [Section(1)] + [CallControl(2, 1)] + [CallRelease(3, 1)]
    + [Section(3)] + [Section(2)]
  }

  function Attached(): State {
    State(map[7 := Info(0, Some(1), 1)], map[1 := AttachedTo(7, 0)], 1)
  }

  lemma ThreeSteps(a: Event, b: Event, c: Event)
    ensures Run([a] + [b] + [c]) == Next(Next(Next(Run([]), a), b), c)
  {
    RunGrows([], a);
    assert [] + [a] == [a];
    RunGrows([a], b);
    RunGrows([a] + [b], c);
  }

  lemma AttachSteps(h: History)
    requires h == History(Init(), [], map[], map[])
    ensures Next(Next(Next(h, CallAttach(1, 1, 7, true)), Test(1)), Section(1)) ==
            History(Attached(), [Joined(1, 7), Granted(1, 7)], map[1 := Checking(1, 7)], map[])
  {
    var h2 := Next(Next(h, CallAttach(1, 1, 7, true)), Test(1));
    assert h2 == h.(threads := map[1 := Creating(1, 7, true)]);
  }

  lemma AttachRuns()
    ensures Run([CallAttach(1, 1, 7, true)] + [Test(1)] + [Section(1)]) ==
            History(Attached(), [Joined(1, 7), Granted(1, 7)], map[1 := Checking(1, 7)], map[])
  {
    ThreeSteps(CallAttach(1, 1, 7, true), Test(1), Section(1));
    AttachSteps(Run([]));
  }

  /** The query and the release have both found the manager attached; the release comes first. */
  lemma ReleaseComesFirst(h: History)
    requires h == History(Attached(), [Joined(1, 7), Granted(1, 7)], map[1 := Checking(1, 7)], map[])
    ensures var h' := Next(Next(Next(h, CallControl(2, 1)), CallRelease(3, 1)), Section(3));
            PositionOf(h', 2) == Querying(1) && At(h'.state, 1).Detached?
  {
    assert h.state.infos[7].client == 0;
    assert Locks(h.state, 1);
    var h2 := Next(Next(h, CallControl(2, 1)), CallRelease(3, 1));
    assert h2 == h.(threads := map[1 := Checking(1, 7), 2 := Querying(1), 3 := Releasing(1)],
                    seen := map[2 := 2, 3 := 2]);
  }

  lemma {:induction false} NoAttachKeepsOneEach(events: seq<Event>, more: seq<Event>)
    requires OneAttachEach(events) && forall i | 0 <= i < |more| :: !more[i].CallAttach?
    ensures OneAttachEach(events + more)
  {
    if more == [] {
      assert events + more == events;
    } else {
      var n := |more| - 1;
      NoAttachKeepsOneEach(events, more[..n]);
      assert (events + more)[..|events| + n] == events + more[..n];
    }
  }

  lemma OnlyOneAttaches()
    ensures OneAttachEach(ReleasedInBetween())
  {
    var first := [CallAttach(1, 1, 7, true)];
    assert first[..0] == [];
    NoAttachKeepsOneEach(first, ReleasedInBetween()[1..]);
    assert ReleasedInBetween() == first + ReleasedInBetween()[1..];
  }

  /** The branch is reached although no manager is attached by two threads at a time. */
  lemma NotFoundHappens()
    ensures OneAttachEach(ReleasedInBetween())
    ensures NotFound(1) in Run(ReleasedInBetween()).log
  {
    var e3 := [CallAttach(1, 1, 7, true)] + [Test(1)] + [Section(1)];
    var e4 := e3 + [CallControl(2, 1)];
    var e5 := e4 + [CallRelease(3, 1)];
    var e6 := e5 + [Section(3)];
    OnlyOneAttaches();
    AttachRuns();
    ReleaseComesFirst(Run(e3));
    RunGrows(e3, CallControl(2, 1));
    RunGrows(e4, CallRelease(3, 1));
    RunGrows(e5, Section(3));
    RunGrows(e6, Section(2));
    assert Run(ReleasedInBetween()).log == Run(e6).log + [NotFound(1)];
  }

  /** Two threads attach manager 1 to parent 7 and both look before either creates. */
  function TwoAttaches(): seq<Event> {
    [CallAttach(1, 1, 7, true)] + [CallAttach(2, 1, 7, true)] + [Test(1)] + [Test(2)] + [Section(1)] + [Section(2)]
  }

  lemma BothWillCreate(h: History)
    requires h == History(Init(), [], map[], map[])
    ensures Next(Next(Next(Next(h, CallAttach(1, 1, 7, true)), CallAttach(2, 1, 7, true)), Test(1)), Test(2)) ==
            h.(threads := map[1 := Creating(1, 7, true), 2 := Creating(1, 7, true)])
  {
    var h2 := Next(Next(h, CallAttach(1, 1, 7, true)), CallAttach(2, 1, 7, true));
    assert h2 == h.(threads := map[1 := Copied(1, 7, true, Detached), 2 := Copied(1, 7, true, Detached)]);
  }

  lemma FourSteps(a: Event, b: Event, c: Event, d: Event)
    ensures Run([a] + [b] + [c] + [d]) == Next(Next(Next(Next(Run([]), a), b), c), d)
  {
    RunGrows([], a);
    assert [] + [a] == [a];
    RunGrows([a], b);
    RunGrows([a] + [b], c);
    RunGrows([a] + [b] + [c], d);
  }

  lemma BothCreate(h: History)
    requires h == History(Init(), [], map[1 := Creating(1, 7, true), 2 := Creating(1, 7, true)], map[])
    ensures var st := Next(Next(h, Section(1)), Section(2)).state;
            st.infos == map[7 := Info(0, Some(1), 2)] && st.managers == map[1 := AttachedTo(7, 0)]
  {
  }

  /** The count is then two with one member. */
  lemma TwoAttachesMiscount()
    ensures var st := Run(TwoAttaches()).state;
            7 in st.infos && st.infos[7].refCount == 2 && Members(st, 7) == {1}
  {
    var e4 := [CallAttach(1, 1, 7, true)] + [CallAttach(2, 1, 7, true)] + [Test(1)] + [Test(2)];
    FourSteps(CallAttach(1, 1, 7, true), CallAttach(2, 1, 7, true), Test(1), Test(2));
    BothWillCreate(Run([]));
    BothCreate(Run(e4));
    RunGrows(e4, Section(1));
    RunGrows(e4 + [Section(1)], Section(2));
  }

  // -- The answer of an attach --

  /** Exactly when an attach answers yes for a manager that is not attached: the manager was
      released since the last copy of its fields, and the client lives on with others. */
  lemma WrongAnswerExactly(events: seq<Event>, t: nat)
    requires PositionOf(Run(events), t).Checked?
    ensures var h := Run(events);
            var pos := PositionOf(h, t);
            AttachAnswer(h.state, pos) && At(h.state, pos.manager).Detached? <==>
            IsAlive(h.state, pos.copy) && t in h.seen && ReleasedSince(h.log, h.seen[t], pos.manager)
  {
    SeenRightInEveryRun(events, t);
  }

  lemma OtherLooks(h: History)
    requires h.state == Attached() && h.threads == map[1 := Checking(1, 7)] && h.seen == map[]
    ensures Next(Next(h, CallAttach(2, 2, 7, true)), Test(2)) ==
            h.(threads := map[1 := Checking(1, 7), 2 := Creating(2, 7, true)])
  {
  }

  lemma OtherJoins(h: History)
    requires h.state == Attached() && h.threads == map[1 := Checking(1, 7), 2 := Creating(2, 7, true)] && h.seen == map[]
    ensures var h' := Next(h, Section(2));
            && h'.state == State(map[7 := Info(0, Some(1), 2)], map[1 := AttachedTo(7, 0), 2 := AttachedTo(7, 0)], 1)
            && h'.threads == map[1 := Checking(1, 7), 2 := Checking(2, 7)] && h'.seen == map[]
  {
  }

  lemma ReleasedAfterCopy(h: History)
    requires h.state == State(map[7 := Info(0, Some(1), 2)], map[1 := AttachedTo(7, 0), 2 := AttachedTo(7, 0)], 1)
    requires h.threads == map[1 := Checking(1, 7), 2 := Checking(2, 7)] && h.seen == map[]
    ensures var h1 := Next(Next(Next(h, Test(1)), CallRelease(3, 1)), Section(3));
            AttachAnswer(h1.state, PositionOf(h1, 1)) && At(h1.state, 1).Detached?
  {
    assert h.state.infos[7].client == 0;
    assert Locks(h.state, 1);
    var h0 := Next(Next(h, Test(1)), CallRelease(3, 1));
    assert h0.threads == map[1 := Checked(1, 7, AttachedTo(7, 0)), 2 := Checking(2, 7), 3 := Releasing(1)];
    var h1 := Next(h0, Section(3));
    assert h1.state.infos[7].client == 0;
  }

  /** Manager 2 joins the client of manager 1, whose attach has just copied its fields when
      another thread releases it. */
  function WrongAnswerRun(): seq<Event> {
    [CallAttach(1, 1, 7, true)] + [Test(1)] + [Section(1)] + [CallAttach(2, 2, 7, true)] + [Test(2)] + [Section(2)]
    + [Test(1)] + [CallRelease(3, 1)] + [Section(3)]
  }

  lemma ThreeMore(events: seq<Event>, a: Event, b: Event, c: Event)
    ensures Run(events + [a] + [b] + [c]) == Next(Next(Next(Run(events), a), b), c)
  {
    RunGrows(events, a);
    RunGrows(events + [a], b);
    RunGrows(events + [a] + [b], c);
  }

  /** A run in which the answer will be wrong. */
  lemma WrongAnswerHappens()
    ensures var h := Run(WrongAnswerRun());
            AttachAnswer(h.state, PositionOf(h, 1)) && At(h.state, 1).Detached?
  {
    var e3 := [CallAttach(1, 1, 7, true)] + [Test(1)] + [Section(1)];
    var e6 := e3 + [CallAttach(2, 2, 7, true)] + [Test(2)] + [Section(2)];
    AttachRuns();
    ThreeMore(e3, CallAttach(2, 2, 7, true), Test(2), Section(2));
    OtherLooks(Run(e3));
    OtherJoins(Next(Next(Run(e3), CallAttach(2, 2, 7, true)), Test(2)));
    ThreeMore(e6, Test(1), CallRelease(3, 1), Section(3));
    ReleasedAfterCopy(Run(e6));
  }
}
