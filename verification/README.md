# Verification models of the CoESCD platform's stateful cores

This project models, in Dafny, the parts of the platform whose correctness spans many calls:
the media call server, the field app's offline operation queue, the analytics ETL with its
watermark, the WebSocket gateway's connection index, the worker pool, the attribute
validator, and the chat list and department tree of the portal. `dafny verify dfyconfig.toml`
checks everything.

Code that changes state is a class whose methods work one object and one loop turn at a time.
Each is proved to achieve a function on values (the *specification step*), and the properties
are proved about these steps over all runs.

## How the models are laid out

**Media call server** (`Media*.dfy`). `MediaModel` is the state: sockets with everything ever
sent on them, sessions, participants, the open mediasoup objects with what each of them stands
on, both recording indices, and the published events. `MediaSteps` has one step for each
signaling message, backend command and socket close. `MediaServing.MediaServer` is the code: its
`Handle` is proved to take exactly these steps, through the mutually recursive `EndSession` and
`RemoveParticipant`. The other modules prove, over every run:

- `MediaEngine`: everything held is open and on its session's router, and everything open
  belongs to a session that is there.
- `MediaRecordings`: a recording pins its session, the two indices are mutual inverses, and the
  events of a recording tell one story.
- `MediaCoverage`, `MediaForgotten`: the running tracks of a recording are exactly the live
  producers, unless a participant with recorded producers has joined again.
- `MediaViews`: what a client makes of its messages is its session.
- `MediaAnswers`: what every command does, in terms of what each connection hears and what the
  entries say afterwards, without the functions that the steps are made of.
- `MediaHistories`: whose word a mute flag is, which session a connection is active in, and which
  producers a client knows of.
- `MediaEvents`: why each event was published.
- `MediaIsolation`: a departure closes nothing that others hold, consumers of the departed aside,
  and exactly what the departed held.
- `MediaExamples`: short runs that reach the cases which the theorems single out.

**Offline queue** (`OfflineQueue.dfy`, `OfflineQueueLimits.dfy`). Passes of the page and of the
service worker are interleaved action by action, and may die between any two of them; `FieldDb`
is the store and both drains when nothing disturbs them, and `UndisturbedPassDrains` ties the two
together. `OfflineQueueLimits` shows that the bounds are reached and that five completed passes
are the end of an operation.

**Analytics ETL** (`AnalyticsEtl.dfy`). The watermark load of one table over histories of source
changes, completed runs and runs that crash between batches.

**Gateway** (`Gateway.dfy`, and `GatewayDelivery.dfy` for what arrives on its sockets), **worker
pool** (`WorkerPooling.dfy`), **attribute validator** (`AttributeValidator.dfy`), **chat thread**
(`ChatThread.dfy`, and `ChatContent.dfy` for the fields of a message), **departments**
(`Departments.dfy`).

## Assumptions

- Every signaling message, backend command and socket close is one atomic step. In particular
  the check-then-await of `createSession` (session-manager.ts:45-49) and of `startRecording`
  (recording-manager.ts:90-102) is not interrupted.
- mediasoup: `close()` is idempotent, closing an object closes what stands on it, closing a
  router closes everything made on it, and close listeners run at once.
- One session per socket at a time, where a theorem about a client's view says so
  (`StaysInOneSession`); a participant has as many sockets as it likes.
- Outcomes of foreign calls (mediasoup, FFmpeg, the archiver, the object store, `fetch`, the
  network) are parameters, so every theorem holds for each of them.
- Identifiers are only compared, so numbers stand for strings; empty identifiers do not occur.
- Each IndexedDB transaction and each SQL transaction is atomic and succeeds; during one ETL run
  the query gives the same rows in the same order on every page.
- Operations are enqueued with no attempts, as the one caller does
  (apps/field-pwa/src/lib/api.ts:41).
- New connection ids of the gateway, new workers, and new operation keys are never used twice.

## What turned out false, and exactly when it holds

- *A client sees exactly the others of its session.* A moderator's mute is announced to the muted
  client as well (media-server.ts:318-331), whose fold then lists the client itself. The view is
  exact if and only if the client was not muted by a moderator since its last join; itself aside,
  it is always exact (`MediaViews.ClientsSeeTheirSession`, reached in
  `MediaExamples.MutedClientSeesItself`).
- A connection that is in two sessions gets the news of both without being able to tell them
  apart (`MediaViews.SecondSessionSpoilsView`, reached in `MediaExamples.TwoSessionsSpoilView`).
- *A closed socket has no seat.* A leave clears the active session whatever session it names, and
  a join replaces it, so that a close may leave a seat taken. It frees the seat if and only if the
  session is the active one (`MediaHistories.CloseFreesActiveSeat`, for whole runs
  `MediaHistories.SeatsOfClosedSockets`, reached in `MediaExamples.ClosedSocketKeepsSeat`).
- *Recordings cover their session.* A join keeps this if and only if it does not replace the entry
  of a participant who is present with recorded producers (`MediaCoverage.StepCovers`, reached in
  `MediaExamples.RejoinForgets`); and an active recording covers its session if and only if no such
  join has hit it since it was started (`MediaForgotten.RunsCoverExactly`).
- *A session that is not recorded is there only while somebody is in it.* A session is there with
  nobody in it if and only if its last participant left while it was recorded, and no join and no
  end has come since; stopping the recording does not end it (`MediaRecordings.RunsDesert`,
  reached in `MediaExamples.StopLeavesSessionDeserted`).
- *A departure closes all that the participant made.* It closes exactly what the entry holds and
  what stands on that; a transport outlives it if and only if the session goes on and the entry
  has replaced it (`MediaIsolation.TransportsOutliveLeave`).
- *The target mirrors the source.* A source write keeps this if and only if its `updated_at` lies
  above the watermark or is missing, or the target has the row already
  (`AnalyticsEtl.WriteKeepsMirror`).
- *A rerun writes nothing.* It rewrites every row if no row ever had an `updated_at`
  (`AnalyticsEtl.RerunWritesNothing`). The code allows for such rows
  (analytics_loader.py:66-69), the repository's own schema does not: there the column is not null
  (apps/backend/src/infra/database/migrations/1712300007000-AnalyticsSchema.ts:110,174).
- *Survivors are clean.* It fails in two ways. Only rows with numeric labels are quarantined; and
  timestamps are parsed a column at a time (attribute_validator.py:142), so that a timestamp may
  read differently once other rows are gone (`AttributeValidator.DroppedRowChangesReading`). The
  survivors are clean if and only if every row that is wrong in itself has a numeric label, no row
  with a string for a label has the key of an earlier survivor, and every timestamp that reads
  differently without the dropped rows, or stands in a row with a string for a label, reads in
  range (`AttributeValidator.SurvivorsAreClean`). Where a column takes the notation of its first
  value, the last condition can be read off the frame (`AttributeValidator.SurvivorsByFirst`);
  where cells are read one by one, it concerns string labels only
  (`AttributeValidator.CellwiseSurvivorsAreClean`).
- *Presence follows connections.* A stop issues no offline command, so whoever was connected stays
  online (`Gateway.PresenceFollowsConnections` has the exact condition).
- *A stopped pool is empty.* It stays so for certain if and only if no replacement was under way
  (`WorkerPooling.StopIsFinalUnlessSpawning`). A stop while the pool is still being started does
  not occur: signals are handled only after the start (apps/media/src/main.ts:36-49).
- *Clients show the same content.* Ids and order always converge. Whole lists are equal if and only
  if, message by message, the updates that each client saw about it make the same of it
  (`ChatThread.ContentConverges`), as they do when they came in the same order. For the deleted
  mark: a delete takes effect if and only if its message was in the list or created before it, and
  an answered edit undoes it (`ChatThread.DeletedExactly`, `ChatThread.DeleteNeedsItsMessage`).
- *At most five attempts.* With up to P passes at once the limit is 4 + P, and it is reached for
  every P (`OfflineQueueLimits.AttemptsReachTheBound`).
- *At most one acceptance.* With up to P passes at once the limit is P, and it is reached; each
  pass that dies between the answer and the deletion allows one more, without any overlap
  (`OfflineQueueLimits.DeathsRepeatAcceptances`).

## Model

| member | source | states |
|---|---|---|
| `MediaViews.ClientsSeeTheirSession` | apps/media/src/signaling/signaling-handler.ts:100-160 | in every run, a client that stays in one session and folds its join answer and all later messages gets, itself aside, exactly the session's other participants with their mute flags; it gets exactly that if and only if no moderator muted it since its join |
| `MediaViews.RunsKeepView` | apps/media/src/signaling/signaling-handler.ts:360-391 | the same as an invariant of all interleavings of join, leave, mute, disconnect, kick and moderator mute |
| `MediaViews.StepKeepsView` | apps/media/src/media-server.ts:260-332 | each message, command or close keeps a connection's view right, and the self-entry appears with a moderator's mute and goes with a join |
| `MediaViews.OwnJoinStartsView` | apps/media/src/signaling/signaling-handler.ts:120-159 | in a connection's only session the join answer starts the view afresh, whatever was sent before |
| `MediaViews.JoinAnswerResetsView` | apps/media/src/signaling/signaling-handler.ts:120-159 | even in a second session the join answer itself shows exactly the session joined |
| `MediaViews.LeaveKeepsView` | apps/media/src/signaling/signaling-handler.ts:309-322 | a leave, even by somebody who is not there, keeps every other view right |
| `MediaViews.CloseSocketKeepsView` | apps/media/src/signaling/signaling-handler.ts:377-391 | so does a disconnect |
| `MediaViews.KickKeepsView` | apps/media/src/media-server.ts:260-288 | so does a kick, also when it ends the session |
| `MediaViews.ModerateMuteKeepsView` | apps/media/src/media-server.ts:290-332 | a moderator's mute keeps views right except for the self-entry of the muted |
| `MediaViews.NewcomerIsAnnounced` | apps/media/src/signaling/signaling-handler.ts:143-152 | a joining participant is in the view of every open member afterwards |
| `MediaViews.SecondSessionSpoilsView` | apps/media/src/signaling/signaling-handler.ts:360-375 | a connection in two sessions sees somebody in one who joined the other |
| `MediaHistories.FlagsAreLastWord` | apps/media/src/signaling/signaling-handler.ts:335-336 | in every run each mute flag of a participant is the last value that a mute command about it gave for that flag since its join, by itself or a moderator, and off until there was one |
| `MediaHistories.ClientsKnowProducers` | apps/media/src/signaling/signaling-handler.ts:129-152 | in every run an open client that stays in one session has been told, in its last join answer or since, of every producer that the others have, and of nothing that its owner never made |
| `MediaHistories.ToldIsTrue` | apps/media/src/signaling/signaling-handler.ts:243-252 | whatever pair of producer and participant a client is told was an open producer of that participant at some time, also across sessions |
| `MediaHistories.ActiveIsLastJoined` | apps/media/src/signaling/signaling-handler.ts:48-82 | in every run a connection counts as active in the session it last joined, unless it has sent a leave since, whatever session that was for |
| `MediaHistories.SeatsOfClosedSockets` | apps/media/src/signaling/signaling-handler.ts:50-54 | in every run a seat that outlives the close of its socket is in a session that was not the connection's active one |
| `MediaHistories.CloseFreesActiveSeat` | apps/media/src/signaling/signaling-handler.ts:377-391 | the close of a member's socket frees its seat if and only if the session is the active one |
| `MediaHistories.EntryAfter` | apps/media/src/signaling/signaling-handler.ts:120-133 | through any command an entry keeps profile and socket, changes its flags as a mute about it asks and else not, and gains no producer but one it has just made |
| `MediaHistories.ConnAfter` | apps/media/src/signaling/signaling-handler.ts:360-375 | what any command does to any connection: the news it hears, its phase and its active session; snapshots answer its own join only, and producers are announced only as they are made |
| `MediaAnswers.MuteSelfDoes` | apps/media/src/signaling/signaling-handler.ts:324-347 | a client's mute sets each flag it gives and no other, tells exactly the others the flags as they are then, and is answered |
| `MediaAnswers.ModerateMuteDoes` | apps/media/src/media-server.ts:290-332 | a moderator's mute does so too, tells the muted twice, and everybody else in the session once |
| `MediaAnswers.JoinDoes` | apps/media/src/signaling/signaling-handler.ts:100-160 | a join seats the client with an empty entry, in a new session on a new router if need be, announces it to the others, and answers with the others' profiles, flags and producers |
| `MediaAnswers.NewTransportDoes` | apps/media/src/signaling/signaling-handler.ts:162-196 | the transport is made on the session's router and becomes the send or the receive transport asked for; without a participant it is made all the same |
| `MediaAnswers.NewProducerDoes` | apps/media/src/signaling/signaling-handler.ts:221-257 | refused exactly without a participant with an open send transport; else the id announced to the others, and given in the answer, is the one id that is new among the participant's producers |
| `MediaAnswers.NewConsumerDoes` | apps/media/src/signaling/signaling-handler.ts:259-292 | refused exactly unless the producer is open on the session's router and the participant has an open receive transport; the consumer stands on both |
| `MediaAnswers.LeaveDoes` | apps/media/src/signaling/signaling-handler.ts:309-322 | takes exactly that participant out, ends the session if it was the last one and nothing is recorded, tells the others and answers |
| `MediaAnswers.SocketClosedDoes` | apps/media/src/signaling/signaling-handler.ts:377-391 | the close does so for the active session, and changes nothing else |
| `MediaAnswers.KickOutDoes` | apps/media/src/media-server.ts:260-288 | tells the kicked, starts closing its socket if it is open, takes it out and tells the others |
| `MediaAnswers.EndDoes` | apps/media/src/media-server.ts:192-203 | exactly that session goes, and no client is told |
| `MediaCoverage.RecordingsCoverTheirSession` | apps/media/src/recording/recording-manager.ts:117-123 | when taps start and no join forgets producers, an active recording's running tracks are exactly the live producers of the current participants, whether they came before or after the start |
| `MediaCoverage.RunsCover` | apps/media/src/recording/recording-manager.ts:254-279 | the same over every run with failing taps, up to the producers whose tap failed |
| `MediaForgotten.RunsCoverExactly` | apps/media/src/recording/recording-manager.ts:254-279 | over every run, an active recording's running tracks are its session's live producers, up to failed taps, if and only if no join has replaced a present participant with recorded producers since the recording was started |
| `MediaForgotten.StepKeepsStray` | apps/media/src/recording/recording-manager.ts:376-396 | the track of a producer whose entry was replaced runs on through every step until its recording is stopped |
| `MediaForgotten.ForgettingStrays` | apps/media/src/sessions/session-manager.ts:130-133 | such a join leaves an open producer that no entry holds, with its track running |
| `MediaCoverage.StepCovers` | apps/media/src/recording/recording-manager.ts:376-396 | a step keeps the cover if and only if it is no join that replaces a present participant with recorded producers |
| `MediaCoverage.JoinCovers` | apps/media/src/sessions/session-manager.ts:130-133 | the join's half of that, both directions |
| `MediaCoverage.ProduceCovers` | apps/media/src/signaling/signaling-handler.ts:233-254 | a new producer gets its track, once |
| `MediaCoverage.StartCovers` | apps/media/src/recording/recording-manager.ts:113-131 | starting covers all producers already there |
| `MediaCoverage.StopCovers` | apps/media/src/recording/recording-manager.ts:133-238 | stopping one recording leaves the cover of others |
| `MediaCoverage.RunsKeepTracksLive` | apps/media/src/recording/recording-manager.ts:376-386 | in every run no running track outlives its producer |
| `MediaCoverage.RunsMissNothing` | apps/media/src/recording/recording-manager.ts:271-278 | when every tap succeeds no producer is ever missed |
| `MediaRecordings.RunsPin` | apps/media/src/recording/recording-manager.ts:90-115 | in every run the two indices are mutual inverses, a session's flag is set exactly if it is indexed, and an indexed session is in the map with its router open |
| `MediaRecordings.StepKeepsPinOk` | apps/media/src/sessions/session-manager.ts:169-172 | each step keeps this, although everybody may leave and end, kick and stop may come at any time |
| `MediaRecordings.EndKeepsPinOk` | apps/media/src/media-server.ts:192-203 | ending a recorded session leaves no dangling index entry, thanks to the order of stop and end |
| `MediaRecordings.RunsTellStories` | apps/media/src/recording/recording-manager.ts:79-98 | with fresh ids, the events of a recording are none, one failure, a start, or a start and then exactly one end for the same session |
| `MediaRecordings.TerminalLeavesIndices` | apps/media/src/recording/recording-manager.ts:217-237 | a terminal event is the last of its recording, which is then in neither index |
| `MediaEvents.EventsAreExplained` | apps/media/src/recording/recording-manager.ts:148-233 | every event of every run is explained by the command that published it: `Started` by an allowed start, with the number of tracks begun; `Ready` by a stop or end whose archive was stored and, if there are tracks, one of them stopped, with the number of tracks begun by then; `Failed` by a refused start or by any other stop |
| `MediaEvents.StoriesHaveReasons` | apps/media/src/recording/recording-manager.ts:217-237 | with fresh ids the end of a recording's story is explained by a later command than its start |
| `MediaEvents.TracksAreThoseBegun` | apps/media/src/recording/recording-manager.ts:117-123 | in every run the tracks of an active recording, running or not, are those of the producers tapped at its start and since |
| `MediaEvents.StopPublishes` | apps/media/src/recording/recording-manager.ts:133-238 | stopping an active recording publishes exactly one event, `Ready` if and only if it ends well, and otherwise `Failed`; stopping any other does nothing |
| `MediaEvents.EndPublishes` | apps/media/src/media-server.ts:192-203 | ending a recorded session publishes the same one event for its recording, ending another none |
| `MediaEvents.StartPublishes` | apps/media/src/recording/recording-manager.ts:78-131 | the two refusals publish a failure, a missing directory nothing, and a start the number of producers that could be tapped |
| `MediaRecordings.RunsTearDown` | apps/media/src/sessions/session-manager.ts:146-173 | in every run all that is open belongs to a session that is there, and a session that was not recorded since it last came into the map, on its present router, is there only while it has a participant |
| `MediaRecordings.RunsDesert` | apps/media/src/sessions/session-manager.ts:169-172 | in every run a session is there with nobody in it if and only if some command took its last participant out while it was recorded and no join or end of it came since |
| `MediaRecordings.StepDeserts` | apps/media/src/recording/recording-manager.ts:139-142 | the same for one step; in particular, stopping a recording neither ends nor empties a session |
| `MediaExamples.StopLeavesSessionDeserted` | apps/media/src/recording/recording-manager.ts:133-142 | connect, join, start, leave and stop leave an empty, unrecorded session in the map with its router open |
| `MediaExamples.MutedClientSeesItself` | apps/media/src/media-server.ts:318-331 | connect, join and a moderator's mute give an open client a view that lists itself |
| `MediaExamples.RejoinForgets` | apps/media/src/sessions/session-manager.ts:130-133 | a recorded client that joins once more leaves its recording with a track too many |
| `MediaExamples.TwoSessionsSpoilView` | apps/media/src/signaling/signaling-handler.ts:360-375 | connect, join twice, and a newcomer in the first session: the client sees the newcomer in the second |
| `MediaExamples.ClosedSocketKeepsSeat` | apps/media/src/signaling/signaling-handler.ts:309-312 | a client that joins one session, sends a leave for another and closes its socket keeps its seat |
| `MediaEngine.StepKeepsEngine` | apps/media/src/sessions/session-manager.ts:83-97 | each step keeps: held objects are open, of the right kind, owner and router; routers are open and of one session each; nothing open is orphaned |
| `MediaEngine.EndSessionOpen` | apps/media/src/sessions/session-manager.ts:92 | after the end of a session exactly what was made on other routers is open |
| `MediaEngine.CloseAllTwice` | apps/media/src/sessions/session-manager.ts:154-163 | closing one set of objects after another comes to the same as closing both at once, so the order of closing does not matter |
| `MediaEngine.DropThenEnd` | apps/media/src/sessions/session-manager.ts:88-92 | removing the participants first does not change what ending the session achieves |
| `MediaIsolation.LeaveSparesOthers` | apps/media/src/sessions/session-manager.ts:146-163 | a removal closes no transport and no producer of anybody else in any session |
| `MediaIsolation.LeaveClosesOwn` | apps/media/src/sessions/session-manager.ts:153-165 | all that the removed participant's entry held is closed and the participant is gone |
| `MediaIsolation.LeaveClosesExactly` | apps/media/src/sessions/session-manager.ts:153-163 | an object is closed by a departure if and only if its session ends, or the entry holds it or something it stands on |
| `MediaIsolation.TransportsOutliveLeave` | apps/media/src/signaling/signaling-handler.ts:167-168 | a transport outlives a departure if and only if the session goes on and the entry does not hold it any more |
| `MediaIsolation.ReplacedTransportStaysOpen` | apps/media/src/signaling/signaling-handler.ts:162-168 | a send transport replaced by a second one stays open when its owner leaves a session that goes on |
| `MediaIsolation.RunsKeepApart` | apps/media/src/signaling/signaling-handler.ts:233-241 | in every run only consumers stand on what somebody else owns |
| `MediaServing.MediaServer.Handle` | apps/media/src/media-server.ts:183-241 | the code, run on any message, command or close, takes exactly the step the theorems speak of, and keeps its invariant |
| `MediaServing.MediaServer.EndSession` | apps/media/src/sessions/session-manager.ts:83-97 | the loop of removals, which may end the session half-way, terminates and closes exactly the session's router and all made on it |
| `MediaServing.MediaServer.RemoveParticipant` | apps/media/src/sessions/session-manager.ts:146-173 | removes the participant, and ends the session exactly when it was the last one and no recording is active |
| `MediaServing.MediaServer.RemoveThenEnd` | apps/media/src/sessions/session-manager.ts:88-93 | a removal inside the loop does not change what the end achieves |
| `MediaServing.MediaServer.CreateSession` | apps/media/src/sessions/session-manager.ts:40-81 | an existing session is kept, a missing one gets a fresh router |
| `MediaServing.MediaServer.AddParticipant` | apps/media/src/sessions/session-manager.ts:130-144 | fails without a session, else replaces the entry of that id |
| `MediaServing.MediaServer.SetParticipantMute` | apps/media/src/sessions/session-manager.ts:107-128 | flags given are set, flags not given stay, nothing happens to an absent participant |
| `MediaServing.MediaServer.NotifyOthers` | apps/media/src/signaling/signaling-handler.ts:360-375 | the loop sends once down every open socket of the session but the excluded one |
| `MediaServing.MediaServer.Join` | apps/media/src/signaling/signaling-handler.ts:100-160 | refines the join step |
| `MediaServing.MediaServer.CreateTransport` | apps/media/src/signaling/signaling-handler.ts:162-196 | refines the transport step, in which a non-member's transport stays open on the router |
| `MediaServing.MediaServer.Produce` | apps/media/src/signaling/signaling-handler.ts:221-257 | refines the produce step: transport needed, others told, recording told |
| `MediaServing.MediaServer.Consume` | apps/media/src/signaling/signaling-handler.ts:259-292 | refines the consume step: the producer must be on the session's router |
| `MediaServing.MediaServer.Leave` | apps/media/src/signaling/signaling-handler.ts:309-322 | refines the leave step |
| `MediaServing.MediaServer.SetMute` | apps/media/src/signaling/signaling-handler.ts:324-347 | refines the mute step |
| `MediaServing.MediaServer.HandleDisconnect` | apps/media/src/signaling/signaling-handler.ts:377-391 | removes a present participant and tells those who remain |
| `MediaServing.MediaServer.HandleProducerAdded` | apps/media/src/recording/recording-manager.ts:254-279 | an active recording of the session, and only that, gets one more track, and only for a participant still in the session |
| `MediaServing.MediaServer.EnsureTrackRecording` | apps/media/src/recording/recording-manager.ts:281-389 | at most one track for each producer |
| `MediaServing.MediaServer.EnsureAllTracks` | apps/media/src/recording/recording-manager.ts:117-123 | the nested loops start exactly one track for each producer of the session |
| `MediaServing.MediaServer.StartRecording` | apps/media/src/recording/recording-manager.ts:78-131 | refines the start step with its two refusals, and its silence when the directory cannot be made |
| `MediaServing.MediaServer.StopTracks` | apps/media/src/recording/recording-manager.ts:144-149 | every track ends stopped; the counters are equal and positive exactly if each of at least one stop failed |
| `MediaServing.MediaServer.StopRecording` | apps/media/src/recording/recording-manager.ts:133-238 | refines the stop step: one terminal event, both indices cleared, whatever fails |
| `MediaServing.MediaServer.StopRecordingBySession` | apps/media/src/recording/recording-manager.ts:240-247 | refines the stop of the session's recording, if any |
| `MediaServing.MediaServer.FailRecording` | apps/media/src/recording/recording-manager.ts:421-444 | flag, indices and event of a failure |
| `MediaServing.MediaServer.KickParticipant` | apps/media/src/media-server.ts:260-288 | refines the kick step |
| `MediaServing.MediaServer.MuteParticipant` | apps/media/src/media-server.ts:290-332 | refines the moderator's mute step |
| `MediaServing.MediaServer.Stop` | apps/media/src/media-server.ts:59-66 | comes to stopping every recording and then ending every session by command; no session, recording or mediasoup object is left |
| `OfflineQueue.AttemptsBounded` | apps/field-pwa/src/lib/sync.ts:21-56 | under any interleaving with at most P passes at once, attempts plus passes still holding the operation stay within 4 + P; sends stay within 4 + P and acceptances within P, plus what was lost with dying passes |
| `OfflineQueueLimits.AttemptsReachTheBound` | apps/field-pwa/src/lib/sync.ts:64-66 | for every P some run with at most P passes at once, none dying, makes 4 + P attempts and sends of one operation |
| `OfflineQueueLimits.AcceptancesReachTheBound` | apps/field-pwa/src/lib/sync.ts:45-47 | for every P some such run has one operation accepted P times |
| `OfflineQueueLimits.DeathsRepeatAcceptances` | apps/field-pwa/src/lib/sync.ts:45-46 | for every n some run with one pass at a time and n passes dying after the answer has one operation accepted n times |
| `OfflineQueue.NoOverlapNoExcess` | apps/field-pwa/src/lib/sync.ts:26-38 | without overlap at most five attempts, and if no pass dies at most five sends and one acceptance |
| `OfflineQueue.RunsBalance` | apps/field-pwa/src/sw.ts:115-136 | the bookkeeping invariant behind both, for every operation in every run |
| `OfflineQueue.AtLeastOnce` | apps/field-pwa/src/lib/offline-db.ts:69-82 | whatever was enqueued is still stored as enqueued, or a send of that very request was accepted |
| `OfflineQueue.StaysDeleted` | apps/field-pwa/src/sw.ts:168-195 | a deleted operation never comes back, also by a late increment |
| `OfflineQueue.UndisturbedPassDrains` | apps/field-pwa/src/lib/sync.ts:21-56 | a pass that nothing disturbs is a plain drain of its snapshot |
| `OfflineQueue.PassOverStore` | apps/field-pwa/src/lib/sync.ts:25-55 | such a pass deletes exactly the accepted, and adds one attempt to exactly the other eligible operations |
| `OfflineQueueLimits.CompletedPassTries` | apps/field-pwa/src/lib/sync.ts:25-56 | under any overlap, a pass begun when an operation was stored leaves it deleted, given up, or with one more attempt once it has finished |
| `OfflineQueueLimits.OldOperationsRunOut` | apps/field-pwa/src/lib/sync.ts:26-29 | after k passes completed one after another, among any enqueues and other passes, an old operation still stored has min(k, 5) attempts or more |
| `OfflineQueueLimits.FivePassesSuffice` | apps/field-pwa/src/lib/sync.ts:12-30 | after five completed passes only passes that already planned to send an old operation do so, at most once each; if there are none it is never sent again |
| `OfflineQueue.PassCounts` | apps/field-pwa/src/lib/sync.ts:22-59 | accepted and remaining add up to the store, and the keys sent ascend and are exactly the eligible ones |
| `OfflineQueue.FieldDb.SyncPendingOperations` | apps/field-pwa/src/lib/sync.ts:14-60 | synced and failed add up to the snapshot, remaining equals failed and the store's size, sends follow enqueue order and hit exactly the eligible; offline nothing happens |
| `OfflineQueue.FieldDb.FlushIncidentQueue` | apps/field-pwa/src/sw.ts:105-137 | the service worker's drain has the same effect on the store |
| `OfflineQueue.FieldDb.EnqueueOperation` | apps/field-pwa/src/lib/offline-db.ts:69-72 | a new key above all others, with the attempts the caller gives |
| `OfflineQueue.FieldDb.GetPendingOperations` | apps/field-pwa/src/lib/offline-db.ts:74-77 | all records in key order |
| `OfflineQueue.FieldDb.IncrementAttempts` | apps/field-pwa/src/lib/offline-db.ts:84-93 | one more attempt for a stored operation, nothing for a deleted one |
| `OfflineQueue.FieldDb.DeletePendingOperation` | apps/field-pwa/src/lib/offline-db.ts:79-82 | removes that record only |
| `OfflineQueue.SnapshotIsStore` | apps/field-pwa/src/lib/offline-db.ts:74-77 | a snapshot has every record exactly once |
| `AnalyticsEtl.HistoriesMirror` | apps/pipelines/plugins/coescd/loaders/analytics_loader.py:47-86 | over every history of source writes, deletions, completed and crashed runs, each source row up to the watermark is in the target and agrees on all columns but `reported_at`; the watermark never decreases |
| `AnalyticsEtl.WriteKeepsMirror` | apps/pipelines/plugins/coescd/loaders/analytics_loader.py:131-135 | a source write keeps the mirror if and only if it is not at or below the watermark, or changes nothing the target lacks |
| `AnalyticsEtl.CompleteKeepsMirror` | apps/pipelines/plugins/coescd/loaders/analytics_loader.py:61-77 | a completed run moves the watermark without losing a row |
| `AnalyticsEtl.CrashKeepsMirror` | apps/pipelines/plugins/coescd/loaders/analytics_loader.py:61-65 | a run crashed after any prefix keeps the mirror |
| `AnalyticsEtl.ReportedAtIsKept` | apps/pipelines/plugins/coescd/loaders/analytics_loader.py:197-207 | an incident keeps the `reported_at` it was first loaded with over every history |
| `AnalyticsEtl.CrashThenRerun` | apps/pipelines/plugins/coescd/loaders/analytics_loader.py:53-77 | a run crashed after any prefix and then rerun, in any row order, gives the target and watermark of one uninterrupted run |
| `AnalyticsEtl.RerunWritesNothing` | apps/pipelines/plugins/coescd/loaders/analytics_loader.py:131-135 | a further run on an unchanged source reads nothing if and only if there is a watermark, a row with `updated_at`, or no row at all; otherwise it reads every row |
| `AnalyticsEtl.UpsertOf` | apps/pipelines/plugins/coescd/loaders/analytics_loader.py:203-211 | what an upsert of distinct rows makes of each id: the row as read, but for the first `reported_at` of an incident |
| `AnalyticsEtl.UpsertAbsorbs` | apps/pipelines/plugins/coescd/loaders/analytics_loader.py:203-211 | upserting part of a result and then all of it is upserting it once |
| `AnalyticsEtl.BatchRead` | apps/pipelines/plugins/coescd/loaders/analytics_loader.py:281-293 | terminates; the batches concatenate to the query result, none is empty, and all but the last are full, at exact multiples too |
| `AnalyticsEtl.AnalyticsStore.RunEtl` | apps/pipelines/plugins/coescd/loaders/analytics_loader.py:47-86 | upserts a prefix of the result, all of it when completed; the watermark is written only then, and is the latest update time seen; a crash may come after any batch, the last one included |
| `AnalyticsEtl.AnalyticsStore.WriteBatch` | apps/pipelines/plugins/coescd/loaders/analytics_loader.py:186-234 | the row by row upsert |
| `AnalyticsEtl.RunOnce` | apps/pipelines/plugins/coescd/loaders/analytics_loader.py:88-117 | a run of the code keeps the mirror, completed or not |
| `Gateway.PresenceFollowsConnections` | apps/gateway/src/gateway.ts:92-102 | over every run, the last presence command for a user is online exactly when the user has a connection or was left behind by a stop and did not come back |
| `Gateway.OnlineMeansConnected` | apps/gateway/src/gateway.ts:159-174 | until a stop, online exactly when there is a connection |
| `Gateway.StopStrandsTheConnected` | apps/gateway/src/gateway.ts:50-56 | a stop leaves everyone who was connected online |
| `Gateway.RoomsAreWhatTheClientSaid` | apps/gateway/src/gateway.ts:137-153 | a connection is in a room exactly if it joined it since it last left it; nobody else has a say |
| `Gateway.IndexWithout` | apps/gateway/src/gateway.ts:159-170 | taking a connection out of the index gives the index of the smaller table, and empties a user's entry exactly when the user's last connection goes |
| `Gateway.IndexAfterConnect` | apps/gateway/src/gateway.ts:92-98 | adding to a user's entry gives the index of the larger table |
| `Gateway.GatewayServer.HandleConnection` | apps/gateway/src/gateway.ts:62-120 | the index still is exactly users to their non-empty connection sets; rejected tokens change nothing |
| `Gateway.GatewayServer.HandleDisconnect` | apps/gateway/src/gateway.ts:159-174 | so it is after a close, even one that comes after a stop |
| `Gateway.GatewayServer.HandleMessage` | apps/gateway/src/gateway.ts:122-157 | touches the one client only, and the index not at all |
| `Gateway.GatewayServer.SendToUser` | apps/gateway/src/gateway.ts:187-197 | going through the index reaches the same open sockets, once each, as scanning all clients |
| `Gateway.GatewayServer.BroadcastToRoom` | apps/gateway/src/gateway.ts:177-184 | every open client of the room once, nobody else |
| `Gateway.GatewayServer.HandlePlatformEvent` | apps/gateway/src/gateway.ts:246-257 | a user named takes precedence over a room |
| `Gateway.GatewayServer.Stop` | apps/gateway/src/gateway.ts:50-60 | closes every socket and empties table and index together |
| `GatewayDelivery.SentOncePerOccasion` | apps/gateway/src/gateway.ts:122-203 | in every run a client was sent each message exactly as often as there was an occasion for it while its socket was open, and its own id once: an event for its user, an event for a room it was in, or something it said |
| `GatewayDelivery.EventsReachTheirClients` | apps/gateway/src/gateway.ts:177-197 | so each event reached a client as often as it was sent to its user or its rooms |
| `GatewayDelivery.OpenUntilFaded` | apps/gateway/src/gateway.ts:199-203 | a socket counts as open until it fades |
| `GatewayDelivery.ToUserDelivers` | apps/gateway/src/gateway.ts:187-197 | one more message on each open connection of the user, and nothing else changes |
| `GatewayDelivery.ToRoomDelivers` | apps/gateway/src/gateway.ts:177-184 | one more message on each open connection in the room, and nothing else changes |
| `GatewayDelivery.ReceiveAnswers` | apps/gateway/src/gateway.ts:122-157 | what each kind of message does to the client that sent it, and to nobody else |
| `GatewayDelivery.ConnectAnswers` | apps/gateway/src/gateway.ts:82-119 | a valid token gives a row of its own, the acknowledgement and an online command; others leave no trace |
| `WorkerPooling.RoundRobinIsFair` | apps/media/src/workers/worker-pool.ts:78-85 | any k picks in a row hand out each of n workers k/n times, rounded down or up, from any index, even one out of range |
| `WorkerPooling.PicksOfOne` | apps/media/src/workers/worker-pool.ts:78-85 | the exact number of picks of each worker |
| `WorkerPooling.PicksInTurn` | apps/media/src/workers/worker-pool.ts:78-85 | the picks go through the pool in its order from the worker at the index |
| `WorkerPooling.LaunchesInOrder` | apps/media/src/workers/worker-pool.ts:41-67 | a fresh pool holds its workers in the order they were launched, and the first is picked first |
| `WorkerPooling.DeathClosesGap` | apps/media/src/workers/worker-pool.ts:57-62 | a death takes that one worker out of the order |
| `WorkerPooling.DeadAreNotPicked` | apps/media/src/workers/worker-pool.ts:57-62 | a worker that died is never handed out again, whatever follows |
| `WorkerPooling.WorkersAddUp` | apps/media/src/workers/worker-pool.ts:97-115 | until a stop, workers, replacements under way and failed replacements add up to the workers launched |
| `WorkerPooling.StopIsFinalUnlessSpawning` | apps/media/src/workers/worker-pool.ts:69-75 | a stopped pool stays empty for certain if and only if no replacement was under way |
| `WorkerPooling.WorkerPool.Pick` | apps/media/src/workers/worker-pool.ts:78-85 | the worker whose turn it is, the error exactly for an empty pool, and an index in range afterwards |
| `WorkerPooling.WorkerPool.HandleDied` | apps/media/src/workers/worker-pool.ts:57-62 | the dead worker goes, the others stay in order, a replacement is under way |
| `WorkerPooling.WorkerPool.SpawnReplacement` | apps/media/src/workers/worker-pool.ts:97-115 | a replacement joins, or fails, and is no longer under way |
| `WorkerPooling.WorkerPool.Start` | apps/media/src/workers/worker-pool.ts:41-67 | that many launches in a row |
| `WorkerPooling.WorkerPool.Stop` | apps/media/src/workers/worker-pool.ts:69-75 | closes exactly the workers in the pool |
| `AttributeValidator.SurvivorsAreClean` | apps/pipelines/plugins/coescd/validators/attribute_validator.py:46-50 | with any labels and any way of reading columns, validating the survivors again, at once or later, finds nothing wrong with any row if and only if rows wrong in themselves have numeric labels, no string-labelled row has the key of an earlier survivor, and timestamps that read differently, or stand in string-labelled rows, read in range |
| `AttributeValidator.NumberedSurvivorsAreClean` | apps/pipelines/plugins/coescd/validators/attribute_validator.py:142-163 | with numeric labels, if and only if every timestamp that reads differently without the dropped rows reads in range |
| `AttributeValidator.SurvivorsByFirst` | apps/pipelines/plugins/coescd/validators/attribute_validator.py:142 | for a reader that takes the notation of a column's first value, if and only if every value that means another time in the notation of the first survivor is in range |
| `AttributeValidator.CellwiseSurvivorsAreClean` | apps/pipelines/plugins/coescd/validators/attribute_validator.py:142 | for a reader that takes cells one by one, a condition on labels and keys of the first frame alone is exact |
| `AttributeValidator.DroppedRowChangesReading` | apps/pipelines/plugins/coescd/validators/attribute_validator.py:142 | two numerically labelled rows with dates in two notations: the survivor is flagged when validated again |
| `AttributeValidator.JustifiedMeans` | apps/pipelines/plugins/coescd/validators/attribute_validator.py:26-36 | what each error means in numbers: for a bounded column a value outside the bounds as written, for a timestamp one before 1704067200 or more than 300 seconds ahead, for a duplicate an earlier row with equal key values, missing ones included |
| `AttributeValidator.SurvivorsArePlausible` | apps/pipelines/plugins/coescd/validators/attribute_validator.py:112-125 | the survivors have no number outside the nine bounds if and only if every row that has one is labelled with a number |
| `AttributeValidator.NumberedSurvivorsAreSound` | apps/pipelines/plugins/coescd/validators/attribute_validator.py:46-50 | with numeric labels the survivors' required values are there, their numbers in bounds, their times as first read in range, and their keys pairwise different |
| `AttributeValidator.CleanStaysClean` | apps/pipelines/plugins/coescd/validators/attribute_validator.py:133-134 | a frame that is clean now is clean at any later time |
| `AttributeValidator.NumberedSurvivorsStayClean` | apps/pipelines/plugins/coescd/validators/attribute_validator.py:46-50 | with numeric labels and cells read one by one, the survivors are clean at any later time and their keys distinct |
| `AttributeValidator.SurvivorsHaveDistinctKeys` | apps/pipelines/plugins/coescd/validators/attribute_validator.py:162-178 | the survivors' primary keys are pairwise distinct if and only if no string-labelled row has the key of an earlier survivor |
| `AttributeValidator.CleanExactlyIfNumbered` | apps/pipelines/plugins/coescd/validators/attribute_validator.py:46-50 | with any labels, no survivor has a missing or out-of-bounds value if and only if every such row has a numeric label |
| `AttributeValidator.Validate` | apps/pipelines/plugins/coescd/validators/attribute_validator.py:67-91 | an error is reported if and only if a row has that problem or a required column is missing; the quarantine is exactly the numeric labels of rows with a problem |
| `AttributeValidator.CheckRequiredFields` | apps/pipelines/plugins/coescd/validators/attribute_validator.py:97-110 | adds exactly the missing columns and the nulls |
| `AttributeValidator.CheckAttributeBounds` | apps/pipelines/plugins/coescd/validators/attribute_validator.py:112-125 | adds exactly the numbers outside their bounds |
| `AttributeValidator.CheckTimestamps` | apps/pipelines/plugins/coescd/validators/attribute_validator.py:127-160 | adds exactly the times before the platform's start or too far ahead, and one warning for each column that cannot be parsed |
| `AttributeValidator.CheckDuplicateRecords` | apps/pipelines/plugins/coescd/validators/attribute_validator.py:162-178 | adds exactly the rows whose key an earlier row has, or one warning if a key column is missing |
| `AttributeValidator.AttributeValidationResult.AddError` | apps/pipelines/plugins/coescd/validators/attribute_validator.py:46-50 | the quarantine stays the numeric labels among the errors, and valid means no error |
| `ChatThread.ListsConverge` | apps/portal-web/src/components/chat/ChatThreadClient.tsx:114-153 | two clients that saw the same messages created, in any order and any number of times, mixed with edits and deletes, list the same ids strictly sorted by sequence |
| `ChatThread.UpdatesKeepOk` | apps/portal-web/src/components/chat/ChatThreadClient.tsx:283-289 | any updates keep the list strictly sorted, with exactly the ids it had and those created |
| `ChatThread.IdsDetermineList` | apps/portal-web/src/components/chat/ChatThreadClient.tsx:120 | a strictly sorted list is determined by its set of ids |
| `ChatThread.SortSorts` | apps/portal-web/src/components/chat/ChatThreadClient.tsx:120 | the sort is ascending and a permutation |
| `ChatThread.SortIsStable` | apps/portal-web/src/components/chat/ChatThreadClient.tsx:120 | messages with the same sequence keep their order |
| `ChatThread.HighestNeverDrops` | apps/portal-web/src/components/chat/ChatThreadClient.tsx:94-97 | no update lowers the highest sequence |
| `ChatThread.DeletedExactly` | apps/portal-web/src/components/chat/ChatThreadClient.tsx:139-153 | over every history, a message shows as deleted if and only if some update deleted it, or it was so from the start, and no answered edit has brought it back since |
| `ChatThread.DeleteNeedsItsMessage` | apps/portal-web/src/components/chat/ChatThreadClient.tsx:139-153 | without answered edits, a delete takes effect if and only if its message was in the list to begin with or created before it |
| `ChatThread.ContentConverges` | apps/portal-web/src/components/chat/ChatThreadClient.tsx:114-153 | two clients show equal lists, whole messages included, if and only if for every message the updates about it that each saw make the same of it |
| `ChatThread.SameOrderSameContent` | apps/portal-web/src/components/chat/ChatThreadClient.tsx:114-153 | they do if the updates about each message came in the same order, however mixed with those about others |
| `ChatThread.ListShowsLives` | apps/portal-web/src/components/chat/ChatThreadClient.tsx:124-153 | what a list shows of a message depends on the updates about that message alone |
| `ChatThread.DeletedStaysDeleted` | apps/portal-web/src/components/chat/ChatThreadClient.tsx:309-312 | once shown as deleted a message stays so until an edit of it is answered |
| `ChatThread.EarlyDeleteIsLost` | apps/portal-web/src/components/chat/ChatThreadClient.tsx:139-153 | a delete that comes before its message has no effect, unlike the other order |
| `ChatThread.HighestOf` | apps/portal-web/src/components/chat/ChatThreadClient.tsx:94-97 | the highest sequence is that of some message, or zero, and no message has a higher one |
| `ChatContent.ShownFieldsAreLastWords` | apps/portal-web/src/components/chat/ChatThreadClient.tsx:124-153 | over every history body, attachments, marks and time of a listed message each show the last word that an update about it said on that field |
| `ChatContent.LifeBegins` | apps/portal-web/src/components/chat/ChatThreadClient.tsx:114-122 | what is said of a message before its creation is lost, and creating it again changes nothing |
| `ChatContent.EditedDoes` | apps/portal-web/src/components/chat/ChatThreadClient.tsx:124-137 | an edit sets body and time if it carries them, and the edited mark, of that message alone |
| `ChatContent.DeletedDoes` | apps/portal-web/src/components/chat/ChatThreadClient.tsx:139-153 | a delete takes body and attachments away and sets the mark; its answer does the same but for the time |
| `ChatContent.EditAnsweredDoes` | apps/portal-web/src/components/chat/ChatThreadClient.tsx:309-312 | the answer to an edit replaces the message |
| `ChatContent.CreatedDoes` | apps/portal-web/src/components/chat/ChatThreadClient.tsx:116-121 | a creation adds the message if its id is not listed, and otherwise changes nothing |
| `Departments.RebuildFlattened` | apps/portal-web/src/lib/admin.ts:1206-1214 | the forest can be read back from the ids and depths of its flat list |
| `Departments.FlatFormsDiffer` | apps/portal-web/src/lib/admin.ts:1206-1214 | so two forests with the same flat list are the same |
| `Departments.SubtreesAreBlocks` | apps/portal-web/src/lib/admin.ts:1216-1221 | the subtree ids of a node are the contiguous block of the flat list from it up to the next entry no deeper |
| `Departments.ForestIds` | apps/portal-web/src/lib/admin.ts:1216-1221 | collecting and flattening visit the same nodes in the same order |
| `Departments.ParentAbove` | apps/portal-web/src/lib/admin.ts:1206-1214 | an entry that is no root is listed below its parent, which is the nearest entry before it that is less deep, and less deep by one |
| `Departments.RootAt` | apps/portal-web/src/lib/admin.ts:1206-1214 | an entry at the base depth is a root |

## Left out

- Media: what happens between the awaits of one handler; two `join` messages racing to create one session, or two starts racing for one recording id.
- Media: a session, participant or recording is a value in its map, so an object kept by another handler after its removal is not captured; the kick's loop over the old session object comes to the same, since an ended session has no participants.
- Media: `connect_transport` and `resume_consumer`, which change nothing of the modelled state, and the plain transports of track recordings, of which only the track's stopped flag is kept.
- Media: the order in which one notification reaches several sockets, and the parallel waiting of `stopAll` and `stop`, which are taken one after another.
- Media: the death of a worker, which would close routers of live sessions without any of the modelled code noticing.
- Media: tokens on connecting, the acknowledgement of a new connection, and the answers to frames that are no request.
- Media: what an answer carries beside the id of the object made, and what a client does with a producer it is told of.
- MediaHistories.ClientsKnowProducers: like the view it speaks of connections that never join a second session while in a first; that what is told is true holds for all.
- Media: SDP, codecs, ports, files, archives, object storage, Redis keys, tokens, logging.
- MediaViews.ClientsSeeTheirSession: speaks of connections that never join a second session while in a first; for the others the join answer is right (`MediaViews.JoinAnswerResetsView`) and later news may spoil it (`MediaViews.SecondSessionSpoilsView`).
- MediaServing.MediaServer.EnsureTrackRecording: the transport, consumer and recorder process of a track are one success flag.
- MediaServing.MediaServer.Stop: leaves out the close events that answer the final close of the sockets, and the connections to AMQP and Redis.
- OfflineQueue.FieldDb.FlushIncidentQueue: like the page's drain it runs undisturbed in this form.
- Offline queue: headers and tokens, the listeners that start passes (any number of passes may start at any time), other object stores, a service worker that cannot open the database, and transactions that fail.
- OfflineQueue.FieldDb.SyncPendingOperations: this method and the service worker's drain run undisturbed; interleavings are stated about the machine `OfflineQueue.Step`.
- Analytics ETL: SQL text, time zones, engines, creation of the watermark table, and changes of the source in the middle of a run.
- Gateway: token contents, AMQP and Redis, presence expiry, frames that are JSON but not an object, and the order of sends across sockets.
- WorkerPooling.WorkerPool.Start: no worker dies inside this method; the machine lets launches and deaths alternate freely.
- Worker pool: routers and codecs; a worker stands for its object, so no two are the same.
- Attribute validator: how a column is parsed as timestamps, which is a parameter, and a cell as a number, which the cell carries; the order and repetition of errors; message texts.
- Chat: typing, presence, requests and their failures; fields of a message that no updater looks at.
- Departments: fields of a department other than its id and children.
