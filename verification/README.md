# Verification of the Rialto GStreamer sinks

This project models the parts of the Rialto GStreamer plugin where threads, queues and state
machines meet, and proves what they promise over whole runs.  The remote server, GStreamer and
the other threads are an environment that takes any steps it likes: backend answers, the order in
which a hash table is visited, arrivals between two critical sections and the interleaving of
threads are inputs or nondeterministic choices, and every theorem holds for all of them.

Each piece has the same shape.  A model module defines a state, the events that change it (one
event is one critical section, or one step of one thread) and the log of what happened; theorem
modules prove facts about every run; and a class with the source's fields, and where threads
share it also with their positions, has methods that are proved to do exactly what the model's
steps do, so the theorems hold of the object (`Guarantees` in each class).  An operation that
lets go of a lock has the steps of other threads in between, chosen freely.

| piece | files |
|---|---|
| MSE media player client | ClientModel, ClientBarrier, ClientCommands, ClientEos, ClientHistory, ClientDuties, ClientDutyTheorems, ClientReport, MediaPlayerClient |
| pull-mode sink and pull loop | PullModel, PullTheorems, PullModeDelegate, PullLoop |
| flush/data synchroniser | FlushAndDataSynchronizer, ClientSynchronizer (with client and sinks) |
| message queue | MessageQueueModel, MessageQueueTheorems, MessageQueueStop, MessageQueueCalm, MessageQueue |
| client behind its queue | ClientBodies, EventLoopClient |
| web audio client | WebAudioModel, WebAudioTheorems, WebAudioRuns, WebAudioPlayerClient |
| client registry | RegistryModel, RegistryTheorems, RegistryRaces, MediaPlayerManager |
| subsample decoder | SubSamples |

`dafny verify dfyconfig.toml` checks everything.

## What the code does not promise

Where a promise one might read into the code does not hold, the model keeps the code as it is, a
lemma shows the failing case and another says exactly when the promise does hold.

- Web audio: line 368 of source/GStreamerWebAudioPlayerClient.cpp computes the leftover from the
  room instead of from what was written.  `PartialFrameIsWrittenTwice` is a concrete case,
  `PassConservesExactly` and `ProgressExactly` are the exact conditions, and
  `WholeFramesAreConserved` shows that streams of whole frames always meet them.
- Web audio: a leftover below a frame is joined with the next buffer only at the moment it is cut.
  If it is alone in the queue then, a buffer that arrives later is not joined with it, and a pass
  with room for the frame that the two would make changes nothing (`LateNeighbourStarves`).
  `ProgressExactly` is the exact condition; `ShortLeftoversAreJoined` covers every cut that has a
  neighbour.
- MSE client: the pause request that completes the barrier sends no command if the server reports
  PAUSED on its own beforehand (`UnsolicitedPausedReplacesCommand`).  `FirstPauseExactly` is the
  exact condition, and `FirstPauseIsSent` holds as long as the server reports neither PAUSED nor
  PLAYING.
- MSE client: if all sources ask to play again while a pause is awaited and the last report is
  still PLAYING, the client takes itself to be playing although the pause command is on its way;
  after the server has paused, the next play request sends nothing (`TakenBackPauseLosesPlay`).
  `PlayIsSentExactly` says when the play is sent, and `PlayIsSentOncePaused` that it is whenever
  the pause was not taken back in this way.
- Synchroniser: re-adding a source, or starting the flush of another source with data still to be
  pushed, can free a waiter without waking it; `LostWakeupHappens` is a run in which that
  happens and `LostWakeupExactly` says precisely when.  The wait at the start of a flush does not
  prevent it, because buffers are taken until the critical section that follows the wait, and the
  monitor hears of the flush only with the FLUSH_STOP: `BufferAfterWaitLosesWakeup` is a run of
  client, sinks and monitor, `WakeupsLostExactly` and `HoldsUpExactlyIfDisturbed` are the exact
  conditions.  The client causes it too when a sink flushes between the removal of its source
  and the next attach (`FlushBetweenAttachesLosesWakeup`).
- Pull-mode sink: the flag test after the wait in handleBuffer tells a flush that is going on, not
  one that has come and gone.  `FlushIsolatedExactly` says when old samples stay out,
  `UnlockedStopLetsStaleSampleThrough` is a run in which one comes back, and `FlushIsolated`
  proves isolation from GStreamer's own rule that FLUSH_STOP waits for the stream lock held by
  handleBuffer.
- Message queue: there are two ways for a stop to wait for ever.  A clear takes its message off the
  queue and no waiting handler stops the queue (`ClearedStopNeverReturns`), or a handler stops
  and clears the queue between the stop's test of m_running, which is made without the lock, and
  its push, and nobody clears later (`LateStopNeverReturns`).  `StopReturnsExactly` shows that
  there is no third, and `EveryScheduleReturns` that otherwise every schedule brings the stop to
  its end.
- Registry: a call tests the manager's weak reference before it takes the mutex, so a release by
  another thread in between leads to the could-not-find branches (`NotFoundHappens`,
  `NotFoundExactly`); and two threads that attach one manager at the same time make its count one
  too high (`TwoAttachesMiscount`, `RegistryCountsExactly`).  An attach can answer yes although
  the manager was released just before (`WrongAnswerHappens`, `WrongAnswerExactly`).
- Web audio: the server's notice can lower the end-of-stream flag between its test and the
  notice to the backend (`NoticeMayComeLate`).

Two smaller observations: a segment for which addSegment reports an error other than NO_SPACE is
popped and counted as added (`Refused` in PullLoop), and `open` of the web audio client answers
false when it is already open with the same configuration (`OpenSession`).

## Model

| member | source | states |
|---|---|---|
| ClientBarrier.BarriersHoldInEveryRun | source/GStreamerMSEMediaPlayerClient.cpp:267-451 | In every run a source is awaiting or in PLAYING exactly when its latest request since attach was play, awaiting or in PAUSED exactly when it was a pause or an asynchronous flush, READY exactly when there was none; every play command finds all attached sources asking to play, every pause command sent from READY finds them all asking to pause or flushed |
| ClientCommands.NoDuplicatePlay | source/GStreamerMSEMediaPlayerClient.cpp:281-394 | If the server reports neither PAUSED nor PLAYING before allSourcesAttached, between any two play commands there is a PAUSED report |
| ClientCommands.AttachProtocol | source/GStreamerMSEMediaPlayerClient.cpp:566-586 | allSourcesAttached is sent at most once, exactly when the flag says so, and only when for each kind the number of attached sources is the declared one; conversely, after every look (the call itself or the attach of a known kind) that finds the declared numbers attached it has been sent |
| ClientCommands.LookTellsExactly | source/GStreamerMSEMediaPlayerClient.cpp:566-586 | In every state a look sends allSourcesAttached exactly if it was not sent before and the declared numbers are attached; it sends a pause with it, from READY, exactly if every source is AWAITING_PAUSED, and no other command |
| ClientCommands.NoCommandBeforeAllAttached | source/GStreamerMSEMediaPlayerClient.cpp:507-586 | With no PAUSED or PLAYING report before allSourcesAttached, no play or pause command precedes it |
| ClientCommands.CountIsFirstDeclared | source/GStreamerMSEMediaPlayerClient.cpp:905-921 | A stream count is the first known value declared for it and never changes; it is unknown exactly while nothing was declared |
| ClientEos.EosFlagIsHistory | source/GStreamerMSEMediaPlayerClient.cpp:602-689 | wasPlayingBeforeEos holds exactly when some END_OF_STREAM report came directly after a PLAYING report with no PAUSED, PLAYING or FAILURE report and no flush since |
| ClientEos.PlayIsSynchronousByHistory | source/GStreamerMSEMediaPlayerClient.cpp:281-332 | The history of reports decides when a play request is answered synchronously with the source in PLAYING; otherwise a synchronous answer means a play command was sent and answered synchronously |
| ClientDutyTheorems.PauseIsSentWhilePlaying | source/GStreamerMSEMediaPlayerClient.cpp:350-394 | In every run with a quiet start: if the latest command is a play and no PAUSED report came since, a pause request of any attached source sends a pause command |
| ClientDutyTheorems.FirstPauseIsSent | source/GStreamerMSEMediaPlayerClient.cpp:350-394 | In every run with allSourcesAttached sent, no command yet and no PAUSED or PLAYING report: a pause request sends a pause exactly if, with it, every attached source last asked to pause or was flushed |
| ClientDutyTheorems.FirstPauseExactly | source/GStreamerMSEMediaPlayerClient.cpp:350-394 | In every run, for a client in READY and whatever the reports: sending goes with the completed barrier if and only if the barrier is incomplete or the last report is not PAUSED and no other source was settled in PAUSED |
| ClientDutyTheorems.UnsolicitedPausedReplacesCommand | source/GStreamerMSEMediaPlayerClient.cpp:350-394 | A run with a quiet start in which the server reports PAUSED on its own and the pause request that completes the barrier sends nothing |
| ClientDutyTheorems.PauseIsSynchronousByHistory | source/GStreamerMSEMediaPlayerClient.cpp:350-376 | In every run with a quiet start: if the server confirmed the latest play and then paused on its own, with no flush in between, a pause request is answered at once with the source in PAUSED and sends nothing |
| ClientDutyTheorems.ServerPauseIsTakenUp | source/GStreamerMSEMediaPlayerClient.cpp:281-394 | In that case, once the last source has asked to pause, the next play request sends a play exactly if, with it, everyone asks to play |
| ClientDutyTheorems.PlayIsSentOncePaused | source/GStreamerMSEMediaPlayerClient.cpp:281-330 | In every run with a quiet start: if the latest command is a pause, a report came since, all of them PAUSED, no source was flushed since the last one and the sources did not take the pause back before the server reported on it, a play request sends a play exactly if, with it, every attached source last asked to play |
| ClientDutyTheorems.PlayIsSentExactly | source/GStreamerMSEMediaPlayerClient.cpp:281-330 | Without the last premise and without a quiet start: sending goes with the completed barrier if and only if the barrier is incomplete or the client is in PAUSED, which it is after a quiet start and a pause not taken back |
| ClientDutyTheorems.TakenBackPauseLosesPlay | source/GStreamerMSEMediaPlayerClient.cpp:281-330 | A run with a quiet start in which a pause is taken back while it is awaited, the server reports PAUSED, and the play request that completes the barrier sends nothing |
| ClientDutyTheorems.CommandsAreSpaced | source/GStreamerMSEMediaPlayerClient.cpp:281-448 | In every run with a quiet start: a PAUSED report precedes every play command; between two pause commands there is a moment at which everyone comes to ask to play; a source flushed after a command holds back play commands until the next PAUSED report |
| ClientDutyTheorems.AllAttachedPausesExactly | source/GStreamerMSEMediaPlayerClient.cpp:566-586 | In every run with a quiet start a look sends a command exactly if it sends allSourcesAttached and every attached source last asked to pause or was flushed |
| ClientDutyTheorems.RequestsAreOnRecord | source/GStreamerMSEMediaPlayerClient.cpp:267-689 | In every run each request of an attached source becomes its latest request, each flush begins, each accepted attach and each removal takes effect on who is attached, and each report becomes the latest |
| ClientDutyTheorems.FlushMarkIsHistory | source/GStreamerMSEMediaPlayerClient.cpp:414-451 | In every run a source is marked as flushing exactly while an accepted flush of it is under way, neither completed nor cut off by a removal |
| ClientReport.PausedReportIsOrderIndependent | source/GStreamerMSEMediaPlayerClient.cpp:602-648 | For every state and every visiting order a PAUSED report has one result, given in closed form, and sends exactly one play command when the client is PAUSED, some sink asks again and every other source had asked, none otherwise |
| ClientReport.NoSourceLeftAwaitingPaused | source/GStreamerMSEMediaPlayerClient.cpp:632-645 | No source is left AWAITING_PAUSED by a PAUSED report |
| ClientReport.PlayingReportIsOrderIndependent | source/GStreamerMSEMediaPlayerClient.cpp:612-648 | A PLAYING report sends nothing and has one result for all orders; it is discarded while a pause is awaited |
| ClientReport.NoSourceLeftAwaitingPlaying | source/GStreamerMSEMediaPlayerClient.cpp:632-645 | No source is left AWAITING_PLAYING by a PLAYING report that is not discarded |
| ClientReport.PausedReportCommits | source/PullModePlaybackDelegate.cpp:152-190 | For every visiting order, a PAUSED report commits every sink whose next state is PAUSED, moving it on towards its target, and no other |
| ClientReport.PlayingReportCommits | source/PullModePlaybackDelegate.cpp:152-190 | The same for PLAYING, unless a pause is awaited |
| ClientReport.AsyncPauseIsCommitted | source/PullModePlaybackDelegate.cpp:152-190 | A sink on its way to PAUSED whose pause request was answered asynchronously is committed by the next PAUSED report |
| ClientReport.AsyncPlayIsCommitted | source/PullModePlaybackDelegate.cpp:152-190 | A sink on its way to PLAYING whose play request was answered asynchronously is committed by the next PLAYING report, unless a pause is awaited |
| ClientReport.FlushIsCommitted | source/PullModePlaybackDelegate.cpp:152-190 | A sink that lost its state to an asynchronous flush and is on its way to PAUSED is committed by the next PAUSED report |
| MediaPlayerClientObject.MediaPlayerClient.constructor | source/GStreamerMSEMediaPlayerClient.cpp:68-80 | A new client is the empty run |
| MediaPlayerClientObject.MediaPlayerClient.Guarantees | source/GStreamerMSEMediaPlayerClient.h:250-376 | Every reachable client object satisfies the barrier, attach, duplicate-play, command-spacing and end-of-stream theorems |
| MediaPlayerClientObject.MediaPlayerClient.PlayInLoop | source/GStreamerMSEMediaPlayerClient.cpp:273-329 | The body of play is the model's play step, in state, log and reply |
| MediaPlayerClientObject.MediaPlayerClient.Play | source/GStreamerMSEMediaPlayerClient.cpp:267-333 | Play extends the run by one play event and replies as the step says; it sends its command whenever the history says it must (server paused on the latest pause and everyone asks to play), and none while the server plays by its reports |
| MediaPlayerClientObject.MediaPlayerClient.PauseInLoop | source/GStreamerMSEMediaPlayerClient.cpp:341-398 | The body of pause is the model's pause step, in state, log and reply |
| MediaPlayerClientObject.MediaPlayerClient.Pause | source/GStreamerMSEMediaPlayerClient.cpp:335-402 | Pause extends the run by one pause event and replies as the step says; it sends its command whenever the history says it must: always while a play stands, and as the first command exactly if everyone asks to pause |
| MediaPlayerClientObject.MediaPlayerClient.Flush | source/GStreamerMSEMediaPlayerClient.cpp:414-451 | Flush tells the synchroniser first, whatever source it names, and extends the run by one flush event, failed and unattached flushes included |
| MediaPlayerClientObject.MediaPlayerClient.AreAllStreamsAttached | source/GStreamerMSEMediaPlayerClient.cpp:984-1007 | The counting loop answers whether the number of sources of each kind is the declared one |
| MediaPlayerClientObject.MediaPlayerClient.SendAllSourcesAttachedInLoop | source/GStreamerMSEMediaPlayerClient.cpp:566-586 | Sends allSourcesAttached and the pause that may follow it as the model's step; if the declared numbers are attached it has been sent afterwards |
| MediaPlayerClientObject.MediaPlayerClient.SendAllSourcesAttachedIfPossible | source/GStreamerMSEMediaPlayerClient.cpp:561-564 | Extends the run by one event, after which allSourcesAttached is on record if the declared numbers are attached |
| MediaPlayerClientObject.MediaPlayerClient.AttachSource | source/GStreamerMSEMediaPlayerClient.cpp:507-559 | Extends the run by one attach event; true exactly for a known kind the backend accepts, and then the source is in the table, in READY if it is new; attaching the last declared source sends allSourcesAttached; the synchroniser gains the source exactly if the table does |
| MediaPlayerClientObject.MediaPlayerClient.RemoveSource | source/GStreamerMSEMediaPlayerClient.cpp:588-600 | Extends the run by one removal and removes the source from the synchroniser |
| MediaPlayerClientObject.MediaPlayerClient.HandleStateChanged | source/PullModePlaybackDelegate.cpp:152-190 | The delegate commits the sink's state or re-enters the client with a play request, as in the model's visit |
| MediaPlayerClientObject.MediaPlayerClient.VisitSource | source/GStreamerMSEMediaPlayerClient.cpp:632-645 | One turn of the loop over the sources |
| MediaPlayerClientObject.MediaPlayerClient.VisitSources | source/GStreamerMSEMediaPlayerClient.cpp:632-645 | The loop visits every source once in some order and does what the model's visits in that order do |
| MediaPlayerClientObject.MediaPlayerClient.HandlePlaybackStateChange | source/GStreamerMSEMediaPlayerClient.cpp:602-689 | A report extends the run by one event; for PAUSED the new state is the closed form, although the order is not known |
| MediaPlayerClientObject.MediaPlayerClient.HandleSourceFlushed | source/GStreamerMSEMediaPlayerClient.cpp:691-711 | Extends the run by one event; exactly if the source was flushing, its own sink and the synchroniser hear of the completion |
| MediaPlayerClientObject.MediaPlayerClient.HandleStreamCollection | source/GStreamerMSEMediaPlayerClient.cpp:905-921 | Extends the run by one event |
| PullTheorems.QueueIsBoundedAndFlushedEmpty | source/PullModePlaybackDelegate.cpp:862-932 | In every run the queue never exceeds 24 samples, and a flushing sink holds none |
| PullTheorems.ServerFlushIsolated | source/PullModePlaybackDelegate.cpp:845-921 | No sample is returned between a server flush request and its completion, and the flag is up exactly in between |
| PullTheorems.FlushIsolatedExactly | source/PullModePlaybackDelegate.cpp:809-886 | Samples from before a FLUSH_START are never queued after it if and only if no buffer that waited through the whole flush goes on after it; then none is returned |
| PullTheorems.FlushIsolated | source/PullModePlaybackDelegate.cpp:809-921 | Under the stream lock, after a FLUSH_START no sample received before it is ever queued or returned |
| PullTheorems.UnlockedStopLetsStaleSampleThrough | source/PullModePlaybackDelegate.cpp:831-886 | A run without the stream lock, flush of the server included, in which a buffer that waited through the flush is returned after it |
| PullTheorems.NoLostWakeup | source/PullModePlaybackDelegate.cpp:862-932 | In every run the streaming thread that waits in handleBuffer has been signalled whenever the queue is below 24 samples |
| PullTheorems.WaiterGoesOn | source/PullModePlaybackDelegate.cpp:870-900 | In every run a buffer that waits while there is room goes on when its thread runs: queued at the tail, or discarded if the sink is flushing or no sample could be made |
| PullTheorems.EveryBufferHasOneFate | source/PullModePlaybackDelegate.cpp:862-932 | In every run each buffer received either is waiting, or was queued once, or was discarded once, exactly one of these; no other is |
| PullTheorems.FlagsAreHistory | source/PullModePlaybackDelegate.cpp:643-843 | In every run the end of stream and the segment are set exactly if their event came and no flush has begun since, and the flushing flag is up exactly after a FLUSH_START or a change to READY with no FLUSH_STOP or change to PAUSED since |
| PullModeDelegate.Delegate.constructor | source/PullModePlaybackDelegate.cpp:78-82 | A new sink is the empty run |
| PullModeDelegate.Delegate.Guarantees | source/PullModePlaybackDelegate.h:91-101 | Every reachable sink satisfies the bound, the wakeup, the fate, the flag and the flush theorems |
| PullModeDelegate.Delegate.FinishBuffer | source/PullModePlaybackDelegate.cpp:876-900 | A buffer is discarded while flushing, queued at the tail otherwise; the synchroniser hears of it exactly if it was not discarded and there is a client |
| PullModeDelegate.Delegate.HandleBuffer | source/PullModePlaybackDelegate.cpp:862-900 | An arriving buffer is queued, discarded or made to wait as in the model, with the notice to the synchroniser; with room, no flush and a sample it is queued at the tail |
| PullModeDelegate.Delegate.ResumeBuffer | source/PullModePlaybackDelegate.cpp:870-900 | A signalled waiting buffer goes on, with the notice to the synchroniser; one that has room never stays waiting |
| PullModeDelegate.Delegate.IsReadyToSendData | source/PullModePlaybackDelegate.cpp:940-944 | Ready exactly with a segment or the end of stream; the answer is on record |
| PullModeDelegate.Delegate.IsEos | source/PullModePlaybackDelegate.cpp:934-938 | True exactly at end of stream with an empty queue; the answer is on record |
| PullModeDelegate.Delegate.GetFrontSample | source/PullModePlaybackDelegate.cpp:902-921 | The front sample, or none during a server flush or with an empty queue |
| PullModeDelegate.Delegate.PopSample | source/PullModePlaybackDelegate.cpp:923-932 | Removes the front sample, if any; a waiting streaming thread is signalled |
| PullModeDelegate.Delegate.HandleSegment | source/PullModePlaybackDelegate.cpp:780-792 | Marks the segment as set exactly if there is a client |
| PullModeDelegate.Delegate.HandleEosEvent | source/PullModePlaybackDelegate.cpp:643-653 | Marks the end of stream and tells the synchroniser |
| PullModeDelegate.Delegate.ClearBuffersUnlocked | source/PullModePlaybackDelegate.cpp:99-110 | The draining loop empties the queue, raises the flag and wakes the streaming thread |
| PullModeDelegate.Delegate.StartFlushing | source/PullModePlaybackDelegate.cpp:816-829 | The critical section of FLUSH_START clears the queue, the end of stream and the segment, unless already flushing; the wait before it is a step of its own in ClientSynchronizer |
| PullModeDelegate.Delegate.FlushServer | source/PullModePlaybackDelegate.cpp:845-860 | The server flush is marked as going on |
| PullModeDelegate.Delegate.StopFlushing | source/PullModePlaybackDelegate.cpp:831-843 | The server is asked to flush before the sink's flag falls, in two critical sections |
| PullModeDelegate.Delegate.HandleFlushCompleted | source/PullModePlaybackDelegate.cpp:144-150 | The server flush is over |
| PullModeDelegate.Delegate.ChangeReadyToPaused | source/PullModePlaybackDelegate.cpp:217-225 | The sink's flag falls |
| PullModeDelegate.Delegate.ChangePausedToReady | source/PullModePlaybackDelegate.cpp:282-301 | The queue is cleared |
| PullLoop.Interference | source/PullModePlaybackDelegate.cpp:780-900 | Any number of steps of other threads, except FLUSH_START and PAUSED to READY, which clear the queue, only add samples at the tail, as the log shows, and keep the event flags up |
| PullLoop.LogsDetermineTurns | source/GStreamerMSEMediaPlayerClient.cpp:1204-1257 | The answers on record at the sink and at the backend leave no choice about what the turns of a pull were |
| PullLoop.PullOne | source/GStreamerMSEMediaPlayerClient.cpp:1206-1257 | One turn makes exactly the calls of one of five kinds of turn, with the answers on record; a sample is popped exactly if it could not be mapped or parsed or the server did not answer NO_SPACE |
| PullLoop.HandlePullBuffer | source/GStreamerMSEMediaPlayerClient.cpp:1199-1277 | For every interleaving: the calls on record are those of a sequence of turns that each take a sample, until frameCount are taken or a turn finds the sink not ready, no sample, the end of stream or no space; original queue plus logged arrivals equals samples taken followed by the queue; the server has exactly those added, in order; a NO_SPACE sample stays in front; exactly one have-data answer, EOS exactly if the last answer of the sink was end of stream with an empty queue, NO_AVAILABLE_SAMPLES exactly if nothing was added and not EOS; the synchroniser is told once exactly otherwise |
| FlushAndDataSynchronizer.LostWakeupExactly | source/FlushAndDataSynchronizer.cpp:27-94 | A step frees a waiter without waking it exactly if it re-adds, or starts the flush of another source that is, the waiter's one blocker |
| FlushAndDataSynchronizer.LostWakeupHappens | source/FlushAndDataSynchronizer.cpp:42-94 | A run in which a waiter sleeps with its guard true |
| FlushAndDataSynchronizer.NobodySleepsWithGuardTrue | source/FlushAndDataSynchronizer.cpp:27-94 | In every run that adds only absent sources and starts a flush only of a source with no unpushed data, nobody sleeps while its guard holds |
| FlushAndDataSynchronizer.OwnGuardAllowsFlush | source/FlushAndDataSynchronizer.cpp:77-94 | A source whose own wait is over meets the premise for starting its flush |
| FlushAndDataSynchronizer.PushShrinksBlockers | source/FlushAndDataSynchronizer.cpp:68-75 | A data push removes exactly that source from every waiter's blockers |
| FlushAndDataSynchronizer.OwnCompletionShrinksBlockers | source/FlushAndDataSynchronizer.cpp:50-56 | Completion of the waiter's own flush removes it from its blockers exactly if it has no unpushed data |
| FlushAndDataSynchronizer.PushedSourceBlocksNobody | source/FlushAndDataSynchronizer.cpp:42-75 | After its data was pushed a source blocks nobody until its next flush start, add or removal |
| FlushAndDataSynchronizer.WaiterIsReleased | source/FlushAndDataSynchronizer.cpp:50-94 | Once every blocker and every source active meanwhile has had its data pushed, the waiter's guard holds |
| FlushAndDataSynchronizer.Synchronizer.constructor | source/FlushAndDataSynchronizer.h:57-57 | Starts with no sources |
| FlushAndDataSynchronizer.Synchronizer.Add | source/FlushAndDataSynchronizer.cpp:27-32 | Performs the model's operation without a signal |
| FlushAndDataSynchronizer.Synchronizer.Remove | source/FlushAndDataSynchronizer.cpp:34-40 | Performs the model's operation with a signal |
| FlushAndDataSynchronizer.Synchronizer.NotifyFlushStarted | source/FlushAndDataSynchronizer.cpp:42-48 | Performs the model's operation without a signal |
| FlushAndDataSynchronizer.Synchronizer.NotifyFlushCompleted | source/FlushAndDataSynchronizer.cpp:50-56 | Performs the model's operation with a signal |
| FlushAndDataSynchronizer.Synchronizer.NotifyDataReceived | source/FlushAndDataSynchronizer.cpp:58-66 | Performs the model's operation without a signal |
| FlushAndDataSynchronizer.Synchronizer.NotifyDataPushed | source/FlushAndDataSynchronizer.cpp:68-75 | Performs the model's operation with a signal |
| FlushAndDataSynchronizer.Synchronizer.MayProceed | source/FlushAndDataSynchronizer.cpp:77-94 | The wait predicate is true exactly when the waiter has no blockers |
| ClientSynchronizer.WakeupsLostExactly | source/PullModePlaybackDelegate.cpp:809-860 | In every run of client, sinks and synchroniser nobody ever sleeps with its guard true if and only if no FLUSH_STOP comes for a source that is all that a sleeping thread of another sink waits for, and no source is attached that is all that a sleeping thread waits for |
| ClientSynchronizer.AttachedWakeupsLostExactly | source/PullModePlaybackDelegate.cpp:809-860 | If only attached sources are flushed and report data, only such a FLUSH_STOP can do it |
| ClientSynchronizer.HoldsUpExactlyIfDisturbed | source/PullModePlaybackDelegate.cpp:809-860 | In every run, when the FLUSH_STOP of a flush that has waited comes, its source holds up others if and only if, since its wait ended, it received data without being idle or an earlier flush of it was completed late while it had data |
| ClientSynchronizer.UndisturbedFlushesLoseNoWakeup | source/PullModePlaybackDelegate.cpp:809-900 | If moreover no flush is disturbed in this way between the end of its wait and its FLUSH_STOP, nobody sleeps with its guard true |
| ClientSynchronizer.BufferAfterWaitLosesWakeup | source/PullModePlaybackDelegate.cpp:809-900 | A run in which a buffer arrives between the end of the wait and the critical section, and another sink sleeps on with its guard true |
| ClientSynchronizer.FlushBetweenAttachesLosesWakeup | source/GStreamerMSEMediaPlayerClient.cpp:414-432 | A run in which a sink whose source was removed flushes, and attaching the source again loses the wakeup of the thread that waits for it |
| MessageQueueTheorems.EveryMessageHasOneFate | source/MessageQueue.cpp:22-40 | In every interleaving the accepted messages are the settled ones followed by the queued ones, those taken are handled once, in acceptance order, and exactly the handled and skipped ones are marked done |
| MessageQueueTheorems.RunIsAtomic | source/MessageQueue.cpp:120-162 | For any client behind the queue, in every interleaving, finishing the handler in the worker's hands leads to where the handled messages, each run whole with its nested calls inline, lead |
| MessageQueueStop.NothingAcceptedAfterStop | source/MessageQueue.cpp:106-118 | After a stop has pushed its message nothing is accepted any more, in any continuation |
| MessageQueueStop.AllDoneWhenStopReturns | source/MessageQueue.cpp:164-203 | In every run, self-stopping handlers included: when a stop from another thread returns, every accepted message was handled or skipped and is marked done, except that of a worker that has stopped the queue itself and is still busy; otherwise the worker is gone |
| MessageQueueStop.StopReturnsExactly | source/MessageQueue.cpp:164-203 | In every run: a stop that has pushed its message can return without the help of a clear if and only if it did not push after a handler had stopped and cleared the queue, and its message was not skipped by a clear with no waiting handler left that stops the queue |
| MessageQueueStop.EveryScheduleReturns | source/MessageQueue.cpp:94-203 | Every schedule without idle steps after the push is bounded; when no thread can take another step but a clear, the stop has returned, or its message came too late or was skipped with nobody left to stop the queue |
| MessageQueueStop.ClearedStopNeverReturns | source/MessageQueue.cpp:179-203 | Start, stop, clear: in every continuation the stop does not return |
| MessageQueueStop.LateStopNeverReturns | source/MessageQueue.cpp:164-187 | A stop passes its test, a handler stops and clears the queue, the stop pushes its message: it returns in no continuation in which nobody clears the queue |
| MessageQueueStop.SelfStopFinishesEveryOtherMessage | source/MessageQueue.cpp:166-192 | When a handler has stopped its own queue, every other accepted message is done but for that of a stop that came too late; it stays so in every continuation if and only if no stop is between its test of m_running and its push |
| MessageQueueCalm.StopSkipsNothing | source/MessageQueue.cpp:164-193 | With no clear and no self-stopping handler a stop skips nothing: when it returns the worker is gone, all accepted messages were handled in acceptance order and the client is where an atomic run of them leads |
| MessageQueueCalm.CalmStopReturnsExactly | source/MessageQueue.cpp:164-203 | With no self-stopping handler a stop that has pushed its message can return without the help of a clear if and only if no clear has taken the message off the queue |
| MessageQueueObject.MessageQueue.constructor | source/MessageQueue.cpp:64-64 | A new queue is the empty run |
| MessageQueueObject.MessageQueue.Guarantees | source/MessageQueue.h:63-93 | Every reachable queue object satisfies the fate, mark and atomicity theorems |
| MessageQueueObject.MessageQueue.StartWorker | source/MessageQueue.cpp:71-82 | Raises both flags and starts the worker, once |
| MessageQueueObject.MessageQueue.DoClear | source/MessageQueue.cpp:195-203 | The loop skips every queued message once, in order, and marks it done |
| MessageQueueObject.MessageQueue.PostMessage | source/MessageQueue.cpp:106-118 | With other threads in between: accepted at the tail, or refused with a flag down |
| MessageQueueObject.MessageQueue.CallInEventLoop | source/MessageQueue.cpp:145-162 | A blocking call from another thread comes back only with its own message handled or skipped, or refused |
| MessageQueueObject.MessageQueue.WaitForMessage | source/MessageQueue.cpp:94-104 | The worker takes the front message and its whole body, or has found the queue empty at every look |
| MessageQueueObject.MessageQueue.HandleMessage | source/MessageQueue.cpp:24-30 | Whatever the other threads do meanwhile, the client is where the whole handler with its nested calls leads, and the message is handled |
| MessageQueueObject.MessageQueue.ProcessMessages | source/MessageQueue.cpp:120-127 | The worker loop handles messages until the queue stops running; the client is where the handled messages lead, in order |
| MessageQueueObject.MessageQueue.DoStop | source/MessageQueue.cpp:164-193 | With the test before the lock: when a stop from another thread returns, all that was ever accepted is done and marked, except the message of a handler that has stopped the queue itself and is still at it, and nothing more is accepted; with no clear and no such handler all were handled and the worker is gone |
| ClientBodies.BodyDoesStep | source/GStreamerMSEMediaPlayerClient.cpp:267-921 | The program of each client event, small step by small step on the client's fields and with nested calls, does exactly the event's step |
| ClientBodies.VisitAttachedDoes | source/GStreamerMSEMediaPlayerClient.cpp:632-645 | In the program of a report, the nested play call of a sink is the play step inside the visit |
| EventLoopClient.CallsAreAtomicClientSteps | source/MessageQueue.cpp:140-162 | In every interleaving of posts, clears, a stop and the worker's small steps, finishing the call in hand leads to the run of the client events of the calls taken, and between calls the client is there |
| EventLoopClient.BarriersHoldInEveryInterleaving | source/GStreamerMSEMediaPlayerClient.cpp:267-451 | Even in the middle of a call the log is the beginning of that run's log, the play and pause barriers hold of it, and after a quiet start no play command is repeated without a PAUSED report |
| EventLoopClient.StopDeliversEveryCall | source/MessageQueue.cpp:164-193 | When a stop returns with no clear, the client has taken exactly the accepted calls as steps, once each, in order |
| WebAudioTheorems.PassConservesExactly | source/GStreamerWebAudioPlayerClient.cpp:340-389 | A pass with room keeps all bytes exactly if the 32-bit size of the room is the size written, the buffer is used up, the write fails, or nothing is written and the resize is rejected |
| WebAudioTheorems.PartialFrameIsWrittenTwice | source/GStreamerWebAudioPlayerClient.cpp:365-381 | One and a quarter frames offered room for two are written and kept whole |
| WebAudioTheorems.FramesFit | source/GStreamerWebAudioPlayerClient.cpp:344-356 | What is written is the smaller of the room and the whole frames in the buffer, inside the buffer, and its size does not wrap |
| WebAudioTheorems.ProgressExactly | source/GStreamerWebAudioPlayerClient.cpp:340-389 | With room clear of the 32-bit limit, the pair (queued bytes, queued buffers) goes down exactly if the pass fills the room, uses up the front buffer or its write fails |
| WebAudioTheorems.OtherPassIsStuck | source/GStreamerWebAudioPlayerClient.cpp:365-381 | Otherwise the pass leaves the queue unchanged |
| WebAudioTheorems.FillingPassLeaves | source/GStreamerWebAudioPlayerClient.cpp:366-381 | A written pass that fills its room leaves the unwritten bytes in front, joined with the next buffer exactly if they are fewer than a frame and there is a next buffer, and the rest of the queue as it was |
| WebAudioTheorems.PassWritesAllItCan | source/GStreamerWebAudioPlayerClient.cpp:340-363 | A pass with room and a whole frame in front writes as many whole frames as room and buffer allow, from the start of the buffer; if mapping or writing fails the buffer is dropped |
| WebAudioTheorems.NotifiesExactly | source/GStreamerWebAudioPlayerClient.cpp:340-389 | A pass notifies the streaming thread exactly if it makes the queue one buffer shorter, and never makes it shorter by more |
| WebAudioRuns.BytesAreConserved | source/GStreamerWebAudioPlayerClient.cpp:287-404 | In every run whose passes keep their bytes, accepted bytes equal written and dropped bytes in order followed by queued bytes, across resizing and merging; each write fits its room |
| WebAudioRuns.WholeFramesAreConserved | source/GStreamerWebAudioPlayerClient.cpp:320-404 | Streams of whole frames meet the premise whatever the server answers |
| WebAudioRuns.PushLoopTerminates | source/GStreamerWebAudioPlayerClient.cpp:329-390 | Every pass ends the loop or makes the queue smaller; a failed room query empties the queue |
| WebAudioRuns.PassesAreBounded | source/GStreamerWebAudioPlayerClient.cpp:329-390 | In every run a push whose passes fill the room or use up the front buffer makes no more passes than there are bytes and buffers in the queue |
| WebAudioRuns.QueueIsBounded | source/GStreamerWebAudioPlayerClient.cpp:287-318 | With one streaming thread the queue never exceeds 40 buffers |
| WebAudioRuns.ShortLeftoversAreJoined | source/GStreamerWebAudioPlayerClient.cpp:366-381 | In every run, after each pass that cuts the front buffer below a frame ahead of another buffer, the two are one buffer in front |
| WebAudioRuns.LateNeighbourStarves | source/GStreamerWebAudioPlayerClient.cpp:320-381 | A run in which a leftover is alone when it is cut, a second buffer arrives, together they hold a frame, and a pass with room for it changes nothing |
| WebAudioRuns.NoLostWakeup | source/GStreamerWebAudioPlayerClient.cpp:287-390 | In every run the streaming thread sleeps only while the queue is full |
| WebAudioRuns.PushBegins | source/GStreamerWebAudioPlayerClient.cpp:242-330 | In every run a new sample, the end of stream and the timer each start a push when samples are queued, the new sample at the tail |
| WebAudioRuns.EosNoticesAreRight | source/GStreamerWebAudioPlayerClient.cpp:242-270 | With the flag up and nothing queued at rest the backend has been told since the flag rose; a second notice since then needs a newly accepted sample, whenever the server lowers the flag |
| WebAudioRuns.NoticeMayComeLate | source/GStreamerWebAudioPlayerClient.cpp:392-403 | A run in which the server lowers the flag between its test and the notice |
| WebAudioRuns.ToldOnlyWithNothingQueued | source/GStreamerWebAudioPlayerClient.cpp:392-403 | In every run the backend is told only by a step that begins and ends with an empty queue |
| WebAudioRuns.ToldOnlyWhenAllIsConsumed | source/GStreamerWebAudioPlayerClient.cpp:392-403 | If the passes keep their bytes, every byte accepted until then has been written or dropped |
| WebAudioPlayerClientObject.WebAudioPlayerClient.constructor | source/GStreamerWebAudioPlayerClient.cpp:80-90 | A new client is the empty run |
| WebAudioPlayerClientObject.WebAudioPlayerClient.Guarantees | source/GStreamerWebAudioPlayerClient.h:42-44 | Every reachable client satisfies the bound, wakeup, end-of-stream and conservation theorems |
| WebAudioPlayerClientObject.WebAudioPlayerClient.HandleLeftover | source/GStreamerWebAudioPlayerClient.cpp:367-380 | Resizes the front buffer; when the room was filled, what stays in front are the unwritten bytes, joined with the next buffer exactly if they are below a frame and there is one |
| WebAudioPlayerClientObject.WebAudioPlayerClient.WriteFront | source/GStreamerWebAudioPlayerClient.cpp:340-389 | A pass with room does what the model's pass does, failures included |
| WebAudioPlayerClientObject.WebAudioPlayerClient.PushPass | source/GStreamerWebAudioPlayerClient.cpp:329-390 | One pass extends the run by one event and says whether the loop goes on |
| WebAudioPlayerClientObject.WebAudioPlayerClient.PushSamples | source/GStreamerWebAudioPlayerClient.cpp:320-404 | With room looks and server notices in between, the loop extends the run pass by pass and then arms the timer if samples are left; for whole frames it ends within as many passes as bytes and buffers, and loses no byte |
| WebAudioPlayerClientObject.WebAudioPlayerClient.WaitForRoom | source/GStreamerWebAudioPlayerClient.cpp:293-296 | The streaming thread sees room exactly below 40 buffers, during a push or not, and falls asleep otherwise |
| WebAudioPlayerClientObject.WebAudioPlayerClient.NotifyNewSample | source/GStreamerWebAudioPlayerClient.cpp:298-317 | The buffer is queued at the tail and pushed |
| WebAudioPlayerClientObject.WebAudioPlayerClient.SetEndOfStream | source/GStreamerWebAudioPlayerClient.cpp:242-270 | Raises the flag once and tells the backend or pushes; no effect when closed or already raised |
| WebAudioPlayerClientObject.WebAudioPlayerClient.NotifyTimerExpired | source/GStreamerWebAudioPlayerClient.cpp:282-285 | Pushes again |
| WebAudioPlayerClientObject.WebAudioPlayerClient.OpenSession | source/GStreamerWebAudioPlayerClient.cpp:140-180 | Opens unless open with the same configuration; true exactly if a backend was created |
| WebAudioPlayerClientObject.WebAudioPlayerClient.CloseSession | source/GStreamerWebAudioPlayerClient.cpp:185-198 | Closes and drops the timer, keeping the queue |
| WebAudioPlayerClientObject.WebAudioPlayerClient.NotifyEndOfStream | source/GStreamerWebAudioPlayerClient.cpp:433-439 | Lowers the flag, at any time |
| RegistryTheorems.RegistryCounts | source/MediaPlayerManager.cpp:34-191 | Over any number of threads, managers and parents, with each manager attached by one thread at a time, the count of an entry is the number of managers attached to it, an entry exists exactly when there is one, its controller is nobody or one of them |
| RegistryTheorems.RegistryCountsExactly | source/MediaPlayerManager.cpp:34-191 | In every run, whatever the threads do, the counts are right all along if and only if each creation finds its manager not attached |
| RegistryTheorems.CreateKeepsCountsExactly | source/MediaPlayerManager.cpp:151-191 | A creation keeps the counts right if and only if its manager is not attached |
| RegistryRaces.TwoAttachesMiscount | source/MediaPlayerManager.cpp:34-53 | A run in which two threads attach one manager at the same time: both look before either creates, and the count is two with one member |
| RegistryRaces.NotFoundExactly | source/MediaPlayerManager.cpp:77-138 | In every run, whatever the threads do: a critical section reaches the could-not-find branch if and only if, since its call tested the weak reference, another thread released the manager and nobody attached it again |
| RegistryRaces.NotFoundHappens | source/MediaPlayerManager.cpp:77-138 | A run that reaches the branch |
| RegistryRaces.NeverNotFound | source/MediaPlayerManager.cpp:77-138 | If the calls on each manager come one after the other the could-not-find branches are never reached |
| RegistryRaces.WrongAnswerExactly | source/MediaPlayerManager.cpp:54-69 | In every run an attach answers yes for a manager that is not attached if and only if the manager was released since the last copy of its fields and others keep the client |
| RegistryRaces.WrongAnswerHappens | source/MediaPlayerManager.cpp:54-69 | A run in which that happens |
| RegistryTheorems.SoundInEveryRun | source/MediaPlayerManager.cpp:34-191 | In every run, whatever the threads do: counts are never too low, attached managers find their client, and a controller that is not attached is still counted |
| RegistryTheorems.StopsExactlyWhenLastLeaves | source/MediaPlayerManager.cpp:108-138 | In every run, whatever the threads do: a client has been stopped once if it was created and the registry holds it no more, and not at all otherwise |
| RegistryTheorems.AtMostOneControls | source/MediaPlayerManager.cpp:77-149 | In every run, whatever the threads do: between two grants of control of a parent to different managers the first one has left |
| MediaPlayerManagerObject.Registry.constructor | source/MediaPlayerManager.cpp:24-25 | The registry starts empty |
| MediaPlayerManagerObject.Registry.Guarantees | source/MediaPlayerManager.h:37-53 | Every reachable registry satisfies the stopping, control and could-not-find theorems, and the counting theorem if each manager is attached by one thread at a time |
| MediaPlayerManagerObject.MediaPlayerManager.constructor | source/MediaPlayerManager.cpp:27-27 | A new manager is attached to nothing |
| MediaPlayerManagerObject.MediaPlayerManager.LockIsClientSet | source/MediaPlayerManager.cpp:72-75 | The weak reference can be locked exactly while the manager is attached |
| MediaPlayerManagerObject.MediaPlayerManager.HasControl | source/MediaPlayerManager.cpp:77-106 | Test, other threads, critical section: true exactly if this manager is then attached and the controller |
| MediaPlayerManagerObject.MediaPlayerManager.AcquireControl | source/MediaPlayerManager.cpp:140-149 | Becomes the controller exactly if there is none |
| MediaPlayerManagerObject.MediaPlayerManager.ControlSection | source/MediaPlayerManager.cpp:81-100 | The critical section of a control query does what the model's step does, the could-not-find branch included |
| MediaPlayerManagerObject.MediaPlayerManager.ReleaseSection | source/MediaPlayerManager.cpp:112-136 | The critical section of a release does what the model's step does, the could-not-find branch included |
| MediaPlayerManagerObject.MediaPlayerManager.ReleaseMediaPlayerClient | source/MediaPlayerManager.cpp:108-138 | Test, other threads, critical section: afterwards the manager is not attached, whoever released it |
| MediaPlayerManagerObject.MediaPlayerManager.CreateMediaPlayerClient | source/MediaPlayerManager.cpp:151-191 | The critical section joins or creates the client of a parent as in the model |
| MediaPlayerManagerObject.MediaPlayerManager.AttachMediaPlayerClient | source/MediaPlayerManager.cpp:34-70 | With steps of other threads in between, on this manager too: a manager that is attached at the end is attached to the given parent and the answer is yes, as long as no other thread attaches it meanwhile; a yes for a manager that is not attached means that it was released after the last copy of its fields |
| SubSamples.DecodeOfEncode | source/GStreamerEMEUtils.cpp:104-123 | Decoding the big-endian encoding of any list returns the list, whatever follows it |
| SubSamples.EncodeOfDecode | source/GStreamerEMEUtils.cpp:104-123 | Re-encoding a decoded buffer gives its first 6 * count bytes |
| SubSamples.GetSubSamples | source/GStreamerEMEUtils.cpp:85-127 | Appends the decoded records exactly if the accepted-size test holds, with up to five trailing bytes; every read is in bounds |

## Left out

- GObject and GStreamer plumbing (sink classes, pads, properties, caps, queries, seek and rate events) and the thin getters and setters of the client would only add easy members.
- Reference counts and memory of GstBuffer and GstSample: buffers are byte sequences, samples are numbers in order of arrival.
- NeedDataMessage and HaveDataMessage forward one call each; of them only the posting of the one answer is modelled.
- The timer thread is a flag, and the control backend's running state is not modelled.
- Positions, durations, volume and playback information of the client are not modelled.
- ClientModel takes each attached source to have its own delegate, whose client is this client; a delegate attached under two source ids is not modelled.
- EventLoopClient.CallsAreAtomicClientSteps: a change that GStreamer makes to a sink's state is a client event of its own, so one that falls into the middle of a report is seen before or after that report.
- Barriers are not re-evaluated when a source is removed, and a flush that failed or named an unattached source is never completed: the code promises neither, so nothing is claimed.
- Agreement between client and server after all sources ask to play while a pause is awaited and the last report is PLAYING is not claimed, because the code has no check there; `TakenBackPauseLosesPlay` is such a run.
- PullModeDelegate.Delegate.FlushServer: the client's flush that follows its critical section is MediaPlayerClient.Flush; the two objects are not composed here.
- PullModeDelegate.Delegate.ChangeReadyToPaused: the pause request and the result it returns are MediaPlayerClient.Pause; only the sink's flag is modelled here.
- PullModeDelegate.Delegate.ChangePausedToReady: the removal of the source is MediaPlayerClient.RemoveSource, and the async-done message is not modelled.
- ClientSynchronizer: one thread flushes a sink at a time, and a FLUSH_START that finds the sink flushing already is not modelled.
- ClientSynchronizer: a sink in READY, which takes no buffers, is not told apart from one that flows.
- MediaPlayerClientObject.MediaPlayerClient.AttachSource: the start of the source's puller is not modelled.
- PullLoop.HandlePullBuffer: a FLUSH_START or a change to READY between getFrontSample and popSample is outside its rely condition, because it clears the queue and the pop then removes whatever is in front.
- PullTheorems.QueueIsBoundedAndFlushedEmpty: assumes one streaming thread per sink and no spurious wakeups of the condition variable.
- MessageQueueModel: one start and one stop from another thread per queue; two such stops at the same time are not modelled.
- MessageQueueObject.MessageQueue.StartWorker: starting a queue again after it has stopped does nothing here.
- MessageQueueObject.MessageQueue.DoStop: may be called again once it has returned, but not by two threads at the same time.
- WebAudioModel: a frame size of zero divides by zero in the source and is a no-op in the model; gst_buffer_resize beyond the end of a buffer is taken to leave the buffer as it is.
- WebAudioPlayerClientObject.WebAudioPlayerClient.PushSamples: requires a frame size above zero while open, because the source divides by it; its loop is given up after a given number of passes, because with partial frames it need not end.
- RegistryTheorems.RegistryCounts: one thread attaches a manager at a time; releases and control queries of the manager may come from any thread.
- RegistryModel: other holders of a client, such as a thread in the middle of a call, do not keep its weak references alive.
- RegistryModel: the reference count is not bounded to 32 bits when it is incremented; it equals the number of attached managers.
