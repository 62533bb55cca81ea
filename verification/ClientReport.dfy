/** A PAUSED report re-enters the client through the sinks that want to go on to PLAYING.
    The handler visits the sources in the unspecified order of a hash table; its result is
    given here in closed form, which no order can change. */
module ClientReport {
  import opened ClientModel

  /** `order` visits every source once. */
  ghost predicate Enumerates(order: seq<int>, ids: set<int>) {
    && (forall id :: id in order <==> id in ids)
    && (forall i, j | 0 <= i < j < |order| :: order[i] != order[j])
  }

  predicate ReRequests(source: Source) {
    ReRequestsPlay(source.sink, SrvPaused)
  }

  predicate AskedToPlay(source: Source) {
    source.state in {AwaitingPlaying, Playing}
  }

  /** A source after a PAUSED report. */
  function AfterPaused(source: Source): Source {
    var settled := source.(state := SettledState(source.state, SrvPaused));
    if Commits(source.sink, SrvPaused) then settled.(sink := Committed(source.sink))
    else if ReRequests(source) then settled.(state := AwaitingPlaying)
    else settled
  }

  /** Some sink asks to play again and every other source had already asked. */
  ghost predicate PlayIsDue(sources: Sources) {
    && (exists id | id in sources :: ReRequests(sources[id]))
    && (forall id | id in sources :: ReRequests(sources[id]) || AskedToPlay(sources[id]))
  }

  /** The client after a PAUSED report, whatever the order of the visits. */
  ghost function PausedReportResult(st: State): State {
    var st1 := TakeIn(st, SrvPaused);
    st1.(sources := map id | id in st.sources :: AfterPaused(st.sources[id]),
         client := if st1.client.Paused? && PlayIsDue(st.sources) then AwaitingPlaying else st1.client)
  }

  /** How many play commands a piece of log holds. */
  function Plays(log: seq<Entry>): nat {
    multiset(log)[SentPlay]
  }

  /** After the visits in `done`: visited sources are settled, the others untouched, and the
      play command is out exactly if, with what has been visited, everyone asks to play. */
  ghost predicate VisitedSoFar(st1: State, done: seq<int>, o: Outcome) {
    && o.state.server == SrvPaused
    && o.state.sources.Keys == st1.sources.Keys
    && (forall id | id in st1.sources ::
          o.state.sources[id] == if id in done then AfterPaused(st1.sources[id]) else st1.sources[id])
    && (var due := DueSoFar(st1, done);
        && o.state.client == (if due then AwaitingPlaying else st1.client)
        && Plays(o.log) == if due then 1 else 0)
    && o.state == st1.(sources := o.state.sources, client := o.state.client)
  }

  ghost predicate DueSoFar(st1: State, done: seq<int>) {
    && st1.client.Paused?
    && (exists id | id in done :: id in st1.sources && ReRequests(st1.sources[id]))
    && (forall id | id in st1.sources ::
          AskedToPlay(st1.sources[id]) || (id in done && ReRequests(st1.sources[id])))
  }

  /** A visit of a source that does not ask again settles it and sends nothing. */
  lemma QuietVisit(st1: State, done: seq<int>, id: int, o: Outcome, async: bool)
    requires VisitedSoFar(st1, done, o) && id in st1.sources && id !in done
    requires !ReRequests(st1.sources[id]) || Commits(st1.sources[id].sink, SrvPaused)
    ensures var v := Visit(o.state, id, SrvPaused, async);
            VisitedSoFar(st1, done + [id], Outcome(v.state, o.log + v.log, NoReply))
  {
    var v := Visit(o.state, id, SrvPaused, async);
    assert o.log + v.log == o.log;
    assert forall i :: i in done + [id] <==> i in done || i == id;
    assert DueSoFar(st1, done + [id]) <==> DueSoFar(st1, done);
  }

  /** Everyone asks to play once `id` does, given what has been visited. */
  lemma EveryoneAsks(st1: State, done: seq<int>, id: int, sources: Sources)
    requires id in st1.sources && id !in done && ReRequests(st1.sources[id])
    requires sources.Keys == st1.sources.Keys
    requires forall i | i in st1.sources && i != id ::
               sources[i] == if i in done then AfterPaused(st1.sources[i]) else st1.sources[i]
    requires sources[id].state == AwaitingPlaying
    ensures st1.client.Paused? && AllIn(sources, {AwaitingPlaying, Playing}) <==> DueSoFar(st1, done + [id])
  {
    forall i | i in st1.sources
      ensures sources[i].state in {AwaitingPlaying, Playing} <==>
              AskedToPlay(st1.sources[i]) || (i in done + [id] && ReRequests(st1.sources[i]))
    {
    }
    assert id in done + [id];
  }

  /** A play request while the server is paused, from a sink that already has to commit. */
  lemma NestedPlay(st: State, id: int, async: bool)
    requires id in st.sources && st.server.SrvPaused? && st.sources[id].sink.commitNeeded
    ensures var o := PlayStep(st, id, async);
            var asking := WithState(st.sources, id, AwaitingPlaying);
            var due := st.client.Paused? && AllIn(asking, {AwaitingPlaying, Playing});
            && o.state == st.(sources := asking, client := if due then AwaitingPlaying else st.client)
            && Plays(o.log) == if due then 1 else 0
  {
    var asking := WithState(st.sources, id, AwaitingPlaying);
    assert WithCommitNeeded(asking, id) == asking;
  }

  /** What the visit of an asking source does to the table. */
  lemma AskingVisitIsNestedPlay(st: State, id: int, async: bool)
    requires id in st.sources && st.server.SrvPaused? && ReRequests(st.sources[id])
    ensures var v := Visit(st, id, SrvPaused, async);
            var asking := st.sources[id := AfterPaused(st.sources[id])];
            var due := st.client.Paused? && AllIn(asking, {AwaitingPlaying, Playing});
            && v.state == st.(sources := asking, client := if due then AwaitingPlaying else st.client)
            && Plays(v.log) == if due then 1 else 0
  {
    var source := st.sources[id];
    var settled := st.(sources := st.sources[id := source.(state := SettledState(source.state, SrvPaused))]);
    NestedPlay(settled, id, async);
    assert WithState(settled.sources, id, AwaitingPlaying) == st.sources[id := AfterPaused(source)];
  }

  /** A visit of a source that asks again is a nested play request. */
  lemma AskingVisit(st1: State, done: seq<int>, id: int, o: Outcome, async: bool)
    requires VisitedSoFar(st1, done, o) && id in st1.sources && id !in done
    requires ReRequests(st1.sources[id])
    ensures var v := Visit(o.state, id, SrvPaused, async);
            VisitedSoFar(st1, done + [id], Outcome(v.state, o.log + v.log, NoReply))
  {
    AskingVisitIsNestedPlay(o.state, id, async);
    var asking := o.state.sources[id := AfterPaused(st1.sources[id])];
    EveryoneAsks(st1, done, id, asking);
    var v := Visit(o.state, id, SrvPaused, async);
    if DueSoFar(st1, done) {
      var i :| i in done && i in st1.sources && ReRequests(st1.sources[i]);
      assert i in done + [id];
      assert DueSoFar(st1, done + [id]);
    }
    assert Plays(o.log + v.log) == Plays(o.log) + Plays(v.log);
    assert forall i :: i in done + [id] <==> i in done || i == id;
  }

  lemma {:induction false} VisitsSoFar(st1: State, order: seq<int>, async: bool)
    requires st1.server == SrvPaused
    requires forall i, j | 0 <= i < j < |order| :: order[i] != order[j]
    requires forall id | id in order :: id in st1.sources
    ensures VisitedSoFar(st1, order, VisitAll(st1, order, SrvPaused, async))
  {
    if order != [] {
      var n := |order| - 1;
      var id := order[n];
      assert id in st1.sources;
      var before := VisitAll(st1, order[..n], SrvPaused, async);
      VisitsSoFar(st1, order[..n], async);
      assert order == order[..n] + [id];
      assert id !in order[..n];
      if ReRequests(st1.sources[id]) {
        AskingVisit(st1, order[..n], id, before, async);
      } else {
        QuietVisit(st1, order[..n], id, before, async);
      }
    }
  }

  /** In every state and for every visiting order, a PAUSED report has the same result; it
      sends exactly one play command when the client is PAUSED once the report is taken in,
      some sink asks again and every other source had already asked, and none otherwise. */
  lemma PausedReportIsOrderIndependent(st: State, order: seq<int>, async: bool)
    requires Enumerates(order, st.sources.Keys)
    ensures var o := ReportStep(st, SrvPaused, order, async);
            && o.state == PausedReportResult(st)
            && Plays(o.log) ==
               (if TakeIn(st, SrvPaused).client.Paused? && PlayIsDue(st.sources) then 1 else 0)
  {
    var st1 := TakeIn(st, SrvPaused);
    var o := VisitAll(st1, order, SrvPaused, async);
    VisitsSoFar(st1, order, async);
    assert multiset([Reported(SrvPaused)])[SentPlay] == 0;
    assert DueSoFar(st1, order) <==> st1.client.Paused? && PlayIsDue(st.sources);
    assert forall id | id in st.sources :: id in order;
    assert o.state.sources == PausedReportResult(st).sources;
  }

  /** After a PAUSED report no source is left waiting for PAUSED. */
  lemma NoSourceLeftAwaitingPaused(st: State, order: seq<int>, async: bool)
    requires Enumerates(order, st.sources.Keys)
    ensures var sources := ReportStep(st, SrvPaused, order, async).state.sources;
            && sources.Keys == st.sources.Keys
            && forall id | id in sources :: !sources[id].state.AwaitingPaused?
  {
    PausedReportIsOrderIndependent(st, order, async);
  }

  function AfterPlaying(source: Source): Source {
    var settled := source.(state := SettledState(source.state, SrvPlaying));
    if Commits(source.sink, SrvPlaying) then settled.(sink := Committed(source.sink)) else settled
  }

  lemma PlayingVisit(st: State, id: int, async: bool)
    requires id in st.sources
    ensures var v := Visit(st, id, SrvPlaying, async);
            v.log == [] && v.state == st.(sources := st.sources[id := AfterPlaying(st.sources[id])])
  {
  }

  /** The table with the sources in `done` settled. */
  function SettledIn(sources: Sources, done: seq<int>): Sources {
    map id | id in sources :: if id in done then AfterPlaying(sources[id]) else sources[id]
  }

  lemma {:induction false} PlayingVisits(st1: State, order: seq<int>, async: bool)
    requires forall i, j | 0 <= i < j < |order| :: order[i] != order[j]
    requires forall id | id in order :: id in st1.sources
    ensures var o := VisitAll(st1, order, SrvPlaying, async);
            o.log == [] && o.state == st1.(sources := SettledIn(st1.sources, order))
  {
    if order == [] {
      assert SettledIn(st1.sources, order) == st1.sources;
    } else {
      var n := |order| - 1;
      var id := order[n];
      assert id in order && id !in order[..n];
      PlayingVisits(st1, order[..n], async);
      PlayingVisit(st1.(sources := SettledIn(st1.sources, order[..n])), id, async);
      assert order == order[..n] + [id];
      assert SettledIn(st1.sources, order) ==
             SettledIn(st1.sources, order[..n])[id := AfterPlaying(st1.sources[id])];
    }
  }

  /** PLAYING reports do not re-enter the client, so they too have one result for all orders. */
  lemma PlayingReportIsOrderIndependent(st: State, order: seq<int>, async: bool)
    requires Enumerates(order, st.sources.Keys)
    ensures var o := ReportStep(st, SrvPlaying, order, async);
            var st1 := TakeIn(st, SrvPlaying);
            && o.log == [Reported(SrvPlaying)]
            && o.state == if st.client.AwaitingPaused? then st1
                          else st1.(sources := map id | id in st.sources :: AfterPlaying(st.sources[id]))
  {
    if !st.client.AwaitingPaused? {
      PlayingVisits(TakeIn(st, SrvPlaying), order, async);
      assert forall id | id in st.sources :: id in order;
      assert SettledIn(st.sources, order) == map id | id in st.sources :: AfterPlaying(st.sources[id]);
    }
  }

  /** After a PLAYING report that is not discarded no source is left waiting for PLAYING. */
  lemma NoSourceLeftAwaitingPlaying(st: State, order: seq<int>, async: bool)
    requires Enumerates(order, st.sources.Keys) && !st.client.AwaitingPaused?
    ensures var sources := ReportStep(st, SrvPlaying, order, async).state.sources;
            && sources.Keys == st.sources.Keys
            && forall id | id in sources :: !sources[id].state.AwaitingPlaying?
  {
    PlayingReportIsOrderIndependent(st, order, async);
  }

  /** The state a sink goes on to when it commits. */
  function Onward(sink: Sink, reached: GstState): Sink {
    Sink(false, reached, if sink.pending == reached then VoidPending else sink.pending, VoidPending)
  }

  /** A sink on its way to `reached` is there once the server is; no other sink changes. */
  ghost predicate SinksReach(before: Sources, reached: GstState, after: Sources) {
    && after.Keys == before.Keys
    && forall id | id in before ::
         var sink := before[id].sink;
         after[id].sink == if sink.commitNeeded && sink.next == reached then Onward(sink, reached) else sink
  }

  lemma AfterPausedReaches(source: Source)
    ensures var sink := source.sink;
            AfterPaused(source).sink ==
            if sink.commitNeeded && sink.next == GstPaused then Onward(sink, GstPaused) else sink
  {
  }

  /** A PAUSED report brings every sink that is on its way to PAUSED there. */
  lemma PausedReportCommits(st: State, order: seq<int>, async: bool)
    requires Enumerates(order, st.sources.Keys)
    ensures SinksReach(st.sources, GstPaused, ReportStep(st, SrvPaused, order, async).state.sources)
  {
    PausedReportIsOrderIndependent(st, order, async);
    forall id | id in st.sources
      ensures var sink := st.sources[id].sink;
              AfterPaused(st.sources[id]).sink ==
              if sink.commitNeeded && sink.next == GstPaused then Onward(sink, GstPaused) else sink
    {
      AfterPausedReaches(st.sources[id]);
    }
  }

  /** A PLAYING report that is not discarded brings every sink on its way to PLAYING there. */
  lemma PlayingReportCommits(st: State, order: seq<int>, async: bool)
    requires Enumerates(order, st.sources.Keys) && !st.client.AwaitingPaused?
    ensures SinksReach(st.sources, GstPlaying, ReportStep(st, SrvPlaying, order, async).state.sources)
  {
    PlayingReportIsOrderIndependent(st, order, async);
  }

  lemma AsyncPauseNeedsCommit(st: State, id: int)
    requires id in st.sources
    ensures var o := PauseStep(st, id);
            && o.state.sources.Keys == st.sources.Keys
            && o.state.sources[id].sink == st.sources[id].sink.(commitNeeded := o.reply.SuccessAsync? || st.sources[id].sink.commitNeeded)
  {
  }

  lemma AsyncPlayNeedsCommit(st: State, id: int, async: bool)
    requires id in st.sources
    ensures var o := PlayStep(st, id, async);
            && o.state.sources.Keys == st.sources.Keys
            && o.state.sources[id].sink == st.sources[id].sink.(commitNeeded := o.reply.SuccessAsync? || st.sources[id].sink.commitNeeded)
            && (!st.client.AwaitingPaused? ==> !o.state.client.AwaitingPaused?)
  {
  }

  /** A pause answered asynchronously is completed by the next PAUSED report: the sink that is
      on its way to PAUSED gets there. */
  lemma AsyncPauseIsCommitted(st: State, id: int, order: seq<int>, async: bool)
    requires id in st.sources && PauseStep(st, id).reply.SuccessAsync? && Enumerates(order, st.sources.Keys)
    requires st.sources[id].sink.next == GstPaused
    ensures var o := ReportStep(PauseStep(st, id).state, SrvPaused, order, async);
            id in o.state.sources && o.state.sources[id].sink == Onward(st.sources[id].sink, GstPaused)
  {
    AsyncPauseNeedsCommit(st, id);
    PausedReportCommits(PauseStep(st, id).state, order, async);
  }

  /** A play answered asynchronously is completed by the next PLAYING report, unless a pause is
      awaited. */
  lemma AsyncPlayIsCommitted(st: State, id: int, order: seq<int>, async: bool)
    requires id in st.sources && PlayStep(st, id, async).reply.SuccessAsync? && Enumerates(order, st.sources.Keys)
    requires st.sources[id].sink.next == GstPlaying && !st.client.AwaitingPaused?
    ensures var o := ReportStep(PlayStep(st, id, async).state, SrvPlaying, order, async);
            id in o.state.sources && o.state.sources[id].sink == Onward(st.sources[id].sink, GstPlaying)
  {
    AsyncPlayNeedsCommit(st, id, async);
    PlayingReportCommits(PlayStep(st, id, async).state, order, async);
  }

  lemma FlushNeedsCommit(st: State, id: int)
    requires id in st.sources
    ensures var after := FlushStep(st, id, true, true).state.sources;
            after.Keys == st.sources.Keys && after[id].sink == st.sources[id].sink.(commitNeeded := true)
  {
  }

  /** A sink that lost its state in an asynchronous flush and is on its way back to PAUSED gets
      there with the next PAUSED report. */
  lemma FlushIsCommitted(st: State, id: int, order: seq<int>, async: bool)
    requires id in st.sources && Enumerates(order, st.sources.Keys) && st.sources[id].sink.next == GstPaused
    ensures var o := ReportStep(FlushStep(st, id, true, true).state, SrvPaused, order, async);
            id in o.state.sources && o.state.sources[id].sink == Onward(st.sources[id].sink, GstPaused)
  {
    FlushNeedsCommit(st, id);
    PausedReportCommits(FlushStep(st, id, true, true).state, order, async);
  }
}
