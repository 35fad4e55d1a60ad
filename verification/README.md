# Verified model of the switch game servers

This project models the stateful core of the game's servers and replay client in Dafny and proves what the rest of
the system relies on: how a waiting room moves between two game servers over Redis, how commands delivered more than
once take effect once, how the tile map reaches viewers, buffers and replay files unchanged, and how the limiters,
the autoscaler, the result outbox, the lobby and the connection books keep their rules over every run.

`dafny verify dfyconfig.toml` checks everything.

## Layout

| file | models |
|---|---|
| `Redis.dfy` | the atomic primitives over one keyspace |
| `HandOff.dfy`, `HandOffInvariant.dfy`, `HandOffSafety.dfy`, `HandOffProgress.dfy`, `HandOffExample.dfy` | the room hand-off: state machine, inductive invariant, safety, what answered calls get done, a concrete run |
| `CommandConsumer.dfy`, `CommandAnswers.dfy` | the at-least-once command consumer: order of events, and which answer is given why |
| `Tiles.dfy`, `Snapshots.dfy` | tile grids and changes; what a frame carries and what a client shows |
| `GameSession.dfy`, `Delivery.dfy`, `BufferedSnapshots.dfy`, `Replay.dfy` | the three chains that reconstruct the map |
| `RateLimit.dfy`, `RateDecisions.dfy` | abuse limiter: keys and windows, and its decisions by who called |
| `StartLock.dfy` | start lock |
| `Scaling.dfy`, `ScalingProgress.dfy` | autoscaler: bounds and stability, and what it does in each situation |
| `ResultJournal.dfy`, `ResultOutbox.dfy` | durable match results |
| `LobbyRoster.dfy`, `Connections.dfy`, `ReplayAnalysis.dfy` | seats, connections and tickets, replay statistics |

Objects whose methods update fields are classes here, and their loops are loops; each method is tied to a function of
the old state, and the theorems are about those functions over all runs. The hand-off is a protocol between processes
and is a state machine: any number of servers and of transfers of one room, with every Redis call in flight split into
the moment it takes effect and the moment its answer arrives or is lost, interleaved with joins, leaves, key expiry,
the publish loop, redelivery and other writers of claims.

## What turned out not to hold

Each has a lemma with a run in which it fails and a lemma that says exactly when it holds.

* **The directory can name the source again** (`server-game/src/redis/registry.ts:318-322`). The publish loop guards
  a missing directory key with `rooms.get(id)?.handingOff`; once the room has been handed over and swept, `rooms.get`
  is empty, the guard passes, and a key that expired meanwhile is written with the source's name. `DirectoryExact`
  proves that this is the only way: the directory names nobody but the holder throughout a run if and only if no such
  write took effect. Claims are not affected, because their loop captures the room object, which stays frozen.
* **Switching spectating off and on loses tile changes** (`server-game/src/rooms/room.ts:769-783`). The comment on
  `requestFullSnapshot` says that turning spectating on sends a full frame; no caller does it. `MissedWhileOff` shows
  the stale map for every match in which a change is missed, and that a request repairs it. `MatchRightExactly` gives
  the condition over whole matches: every frame that is delivered leaves its viewer with the world's map if and only
  if no delta goes to a viewer for whom a tile has changed since its last frame that the delta does not touch.
* **Coalescing frames loses sections** when a full frame lacks a section that an earlier frame had
  (`client/src/game/BufferedSnapshots.ts:10-11`). `CoalescingExact` gives the condition in both directions; the map
  always survives.
* **A second result of one match can be lost** when two workers share a journal
  (`server-game/src/redis/result-journal.ts:83-87`): the removal is by name. `LossExactly` gives the
  condition over whole runs: nothing is lost at any point if and only if no confirmation removes a file that holds
  another result which nothing else keeps. One worker, or one result per match, is always safe, where a confirmation
  is one of the result that was asked about. The server asks by match alone (`server-game/src/main.ts:240`), so there a
  second result of a match counts as confirmed with the first.
* **Joins can lock the start for as long as one likes** when the budget is not smaller than its window and anything is
  granted at all: `StallExactly`.
* **One result can hold back all others** (`server-game/src/redis/result-outbox.ts:115-121`): an oversized or
  conflicting one at the head of the queue (`HeadHoldsBack`). `DrainsExactly` says when the queue drains.
* **The autoscaler can flap** when the thresholds are too close for the minimum size: `SteadyExactly` has the
  condition, `Damped`: there is no room to scale, or the thresholds are far enough apart, which a factor of two
  implies. `Flaps` has the runs.
* **A sweep is visible** when one rule is checked with two window sizes: `TwoWindowsSeeTheSweep` has two calls for any
  two sizes, and `SweepUnseenExactly` says that the sweep is invisible in every run if and only if no rule has two. No
  caller gives a rule two sizes (`server-game/src/transport/ws-transport.ts:529-604`).
* **Tagger segments and prefix sums disagree** by exactly the time a player spends as a tagger listed behind another
  (`SegmentsAgainstPrefixSums`): they agree if and only if no frame that takes time lists the player behind another
  tagger (`AgreeExactly`), and `TwoTaggersDisagree` has the frames where they do not.

## Model

| member | source | states |
|---|---|---|
| Redis.Keyspace.SetIfAbsent | server-game/src/redis/redis-client.ts:147-149 | writes only an absent key, and says whether it did |
| Redis.Keyspace.CompareAndSet | server-game/src/redis/redis-client.ts:163-178 | writes only over the expected value, and says whether it did |
| Redis.Keyspace.CompareAndDelete | server-game/src/redis/redis-client.ts:153-161 | removes only the expected value, and says whether it did |
| Redis.Keyspace.CompareAndSetMany | server-game/src/redis/redis-client.ts:184-194 | the check-all-then-set-all batch: rejected when malformed, otherwise every key is written or none, and it is every key exactly when all expectations hold |
| Redis.WrittenAt | server-game/src/redis/redis-client.ts:19-22 | each replacement of a well-formed batch ends up in its own key |
| Redis.WrittenElsewhere | server-game/src/redis/redis-client.ts:11-23 | a batch leaves every other key alone |
| HandOffInvariant.RunOk | server-game/src/rooms/hand-off.ts:50-106 | the invariant tying source, peer, intent, directory and every member's entry holds after every run of steps, failures and redeliveries |
| HandOffInvariant.StepOk | server-game/src/rooms/hand-off.ts:50-106 | every single step of source, peer, publish loop and environment keeps the invariant |
| HandOffInvariant.CommitParties | server-game/src/redis/command-consumer.ts:347-381 | an accepted batch belongs to a transfer whose source still holds the frozen room and whose peer has it staged |
| HandOffInvariant.BatchCommits | server-game/src/redis/registry.ts:116-145 | an accepted batch turns the intent to committed and makes the directory and every member's entry name the peer, and nothing else |
| HandOffSafety.ExactlyOneHolder | server-game/src/rooms/hand-off.ts:54-104 | after every run exactly one server holds the room, counting a committed staged room |
| HandOffSafety.AtMostOneServing | server-game/src/rooms/hand-off.ts:46-48 | after every run at most one server has the room live and unfrozen |
| HandOffSafety.IntentFinal | server-game/src/rooms/hand-off.ts:59-70 | an intent leaves pending once and never changes again |
| HandOffSafety.RoomFollowsIntent | server-game/src/rooms/hand-off.ts:61-70 | the source resumes only after cancelled and releases only after committed; the peer goes live only after committed and discards only what is not committed |
| HandOffSafety.CommitMovesTheRoom | server-game/src/redis/command-consumer.ts:347-381 | the step that commits takes the roster exactly as the source froze it, from the server that held the room to a peer without one |
| HandOffSafety.OnlyCommitCommits | server-game/src/redis/registry.ts:126-143 | no step but an accepted batch makes a transfer committed |
| HandOffSafety.AllOrNothing | server-game/src/redis/registry.ts:116-145 | while a transfer is staged and open, a key comes to name the target only in the committing step, and in that step the directory and all members' entries do |
| HandOffSafety.NamedOnlyByItself | server-game/src/redis/registry.ts:310-356 | apart from commits, a key comes to name a server only by that server's own join or set-if-absent |
| HandOffSafety.GivenAwayForGood | server-game/src/redis/registry.ts:336-373 | after a commit no member's entry ever names the source again, and the directory only after a set-if-absent with the room gone |
| HandOffSafety.PublishSparesOthers | server-game/src/redis/registry.ts:264-273 | no write of the publish, removal, refresh or release loops overwrites or deletes an entry that names another server |
| HandOffSafety.DirectoryStep | server-game/src/redis/registry.ts:310-324 | one step spoils the directory exactly when it is a set-if-absent of a room that is gone on an expired key |
| HandOffSafety.DirectoryExact | server-game/src/redis/registry.ts:310-324 | throughout a run the directory names nobody but the holder if and only if no such write took effect |
| HandOffSafety.GuardSuffices | server-game/src/redis/registry.ts:320 | a run that never passes the guard with the room gone keeps the directory right, whatever expires |
| HandOffSafety.DirectoryCanGoWrong | server-game/src/redis/registry.ts:318-322 | from every state with a captured projection and a commit not yet settled, a run leads to a directory that names the source |
| HandOffSafety.SettleResolves | server-game/src/rooms/hand-off.ts:54-72 | a settle attempt whose calls are answered ends the transfer: the room is released if it was committed and resumed otherwise |
| HandOffProgress.OfferIsSent | server-game/src/rooms/hand-off.ts:80-100 | freezing a room and having the calls answered puts the transfer on the stream with its intent pending and the roster as it was |
| HandOffProgress.OfferFails | server-game/src/rooms/hand-off.ts:83-87 | when the intent was not created, or nobody knows, the room is usable again and nothing was sent |
| HandOffProgress.AdoptionSucceeds | server-game/src/redis/command-consumer.ts:347-381 | an adoption nobody disturbs succeeds for every roster: the intent is committed, directory and members' entries name the peer, and it has the room |
| HandOffProgress.AdoptionResolves | server-game/src/redis/command-consumer.ts:363-380 | an answered second look ends the adoption: the room is live with the command's roster if the transfer was committed, and gone otherwise |
| HandOffProgress.StagedIsNeverStuck | server-game/src/redis/command-consumer.ts:347-381 | from wherever an adoption stands some run ends it, a redelivery included |
| HandOffProgress.NextTransferIsStaged | server-game/src/redis/command-consumer.ts:351-358 | after a discarded adoption a server that does not drain stages the next transfer delivered to it |
| HandOffProgress.RosterFollows | server-game/src/redis/registry.ts:336-356 | who joins is in the roster and has an entry that names the server; who leaves is not, and the others stay |
| HandOffProgress.ProjectionIsCaptured | server-game/src/redis/registry.ts:256-262 | a round starts by capturing whether there is a room to project |
| HandOffProgress.ExpiredComesBack | server-game/src/redis/registry.ts:310-356 | an expired key of a room in service names the server again after an answered round |
| HandOffProgress.OwnIsRenewed | server-game/src/redis/registry.ts:310-350 | an answered round renews the directory entry and leaves a member's own entry as it is |
| HandOffProgress.OwnIsRemoved | server-game/src/redis/registry.ts:264-273 | what no longer belongs to the room is removed by an answered round if it is still the server's own |
| HandOffExample.DirectoryGoesWrong | server-game/src/redis/registry.ts:318-322 | a concrete run from the start, with two servers and one member, after which the directory names the source |
| HandOffExample.CommitReached | server-game/src/redis/registry.ts:116-145 | a concrete run in which the batch is accepted before the source hears of it |
| CommandConsumer.Consumer.Process | server-game/src/redis/command-consumer.ts:188-234 | one delivery: reply, then write, then acknowledge, stopping at the first failure, which is reported exactly |
| CommandConsumer.Consumer.GetReply | server-game/src/redis/command-consumer.ts:264-294 | the order of local cache, stored record, deadline and handler, with the reply pinned before it is recorded |
| CommandConsumer.Consumer.Sweep | server-game/src/redis/command-consumer.ts:265-268 | forgets exactly the cached replies whose lifetime is over |
| CommandConsumer.Consumer.PollOnce | server-game/src/redis/command-consumer.ts:154-161 | each distinct entry is processed once, in order, until one throws; a poll that comes through returns their number and leaves none of them pending |
| CommandConsumer.FirstsAre | server-game/src/redis/command-consumer.ts:154-159 | the filter keeps exactly one delivery of every entry |
| CommandConsumer.PollGood | server-game/src/redis/command-consumer.ts:160-161 | a poll that stops anywhere keeps what the consumer promises, and one that comes through acknowledged every entry |
| CommandConsumer.DeliveryGood | server-game/src/redis/command-consumer.ts:188-294 | any delivery of a pending entry, whatever fails in it, keeps the order of events and what is remembered |
| CommandConsumer.ExactlyOnce | server-game/src/redis/command-consumer.ts:122-162 | over every run each handler completes at most once, all replies of a request are the same, an acknowledgement follows its reply, and an entry without one is still pending |
| CommandConsumer.RedeliveryRepeatsAnswer | server-game/src/redis/command-consumer.ts:269-275 | once a handler completed, every later delivery can only write that answer and acknowledge |
| CommandAnswers.DeadlineDecides | server-game/src/redis/command-consumer.ts:287-293 | a request without a known answer is answered Expired without running if and only if its deadline has passed and no room is staged for it; otherwise its handler runs, and one that completes is logged and gives the answer |
| CommandAnswers.KnownAnswerIsGiven | server-game/src/redis/command-consumer.ts:269-285 | a cached answer, or without one a usable stored record, is given again and pinned, and nothing runs |
| CommandAnswers.FailedReadWaits | server-game/src/redis/command-consumer.ts:277 | without a cached answer a failing read gives nothing and changes nothing |
| CommandAnswers.ReplyThenAck | server-game/src/redis/command-consumer.ts:217-233 | a delivery logs the reply when it was sent, then the acknowledgement, and nothing else |
| CommandAnswers.RememberedForAMinute | server-game/src/redis/command-consumer.ts:232-233 | the answer of a delivery that came through is given again for a minute, whatever becomes of the stored record |
| CommandAnswers.AnswersHaveReasons | server-game/src/redis/command-consumer.ts:264-294 | over every run each reply written was given by a handler that ran, was stored from the start, or is Expired for a request delivered late |
| CommandAnswers.ExpiredOnlyWhenLate | server-game/src/redis/command-consumer.ts:287-289 | from a fresh process a request answered Expired that never ran was delivered after its deadline, or that reply was stored |
| Tiles.ApplyTimeline | server-game/src/simulation/step.ts:28-38 | the new grid is the old one with the reported changes applied, which do the same as all entries and lie inside the grid |
| Tiles.CellAfter | server-game/src/simulation/step.ts:32-36 | a cell ends with its last change |
| Tiles.SameChanges | client/src/game/BufferedSnapshots.ts:20-22 | lists that agree on the last change of every cell transform every grid alike |
| Tiles.CatchesUp | server-game/src/game/game-session.ts:291-319 | a screen reaches the world by a list of changes exactly when it was wrong only where the list has a change |
| Snapshots.BuildSnapshot | server-game/src/game/snapshot-view.ts:75-121 | which sections, map and changes a frame carries for a viewer |
| Snapshots.FrameBringsTiles | client/src/game/internal/WorldScene.ts:622-640 | a full frame shows the world on any client; a delta moves a client by exactly its changes; sections not carried stay |
| BufferedSnapshots.BufferedSnapshots.Push | client/src/game/BufferedSnapshots.ts:7-26 | what is held after a push: reset or merge, changes folded into a held map or kept by position |
| BufferedSnapshots.BufferedSnapshots.MergeTiles | client/src/game/BufferedSnapshots.ts:20-22 | changes keyed by position, in insertion order |
| BufferedSnapshots.BufferedSnapshots.Take | client/src/game/BufferedSnapshots.ts:28-32 | hands out the held frame and forgets it |
| BufferedSnapshots.PutAllLatest | client/src/game/BufferedSnapshots.ts:20-22 | the keyed list has one entry per cell, that cell's last change |
| BufferedSnapshots.MergeMeans | client/src/game/BufferedSnapshots.ts:9-24 | merging a delta is, for every client, showing it after what was held |
| BufferedSnapshots.HeldMeans | client/src/game/BufferedSnapshots.ts:7-32 | the held frame stands for all frames since the last reset and never has both a map and tile changes |
| BufferedSnapshots.CoalescingExact | client/src/game/BufferedSnapshots.ts:7-32 | one frame in place of many gives every client the same map and sections if and only if what was dropped at the last reset is superseded |
| BufferedSnapshots.TilesSurvive | client/src/game/BufferedSnapshots.ts:7-32 | on frames of one server timeline the map always survives |
| BufferedSnapshots.ShadingIsLost | server-game/src/game/snapshot-view.ts:96-101 | a filtered frame followed by an unfiltered full one loses the tile shading |
| BufferedSnapshots.StartsOverExactly | client/src/game/BufferedSnapshots.ts:10-11 | a full frame or one from an earlier tick replaces what was held; any other keeps the held sections it does not bring |
| GameSession.GameSession.Step | server-game/src/game/game-session.ts:256-289 | a finished session gives no frame; otherwise the tick, the grid and the pending changes move on, and an ending tick is recorded |
| GameSession.GameSession.Publish | server-game/src/game/game-session.ts:291-319 | serves every target full or delta under backpressure, records unless finished, and empties the pending changes |
| GameSession.GameSession.RequestFullSnapshot | server-game/src/game/game-session.ts:204-207 | flags the viewer and changes nothing else |
| GameSession.GameSession.EliminateDisconnected | server-game/src/game/game-session.ts:215-254 | a departure that ends the match records the pending changes in a final frame and empties them |
| GameSession.PublishDelivers | server-game/src/game/game-session.ts:291-312 | after a publish a flagged or in-sync target has the world's grid, or got nothing exactly because it was due a delta and behind, and is flagged |
| GameSession.DeltaReachesExactly | server-game/src/game/game-session.ts:291-312 | a delta brings a screen to the world if and only if it was wrong only where a change is pending |
| Delivery.RightExactly | server-game/src/game/game-session.ts:291-319 | over every run every frame that reaches a viewer leaves it with the world's map if and only if no delta reaches it when a tile has changed since its last frame that the delta does not touch |
| Delivery.MatchRightExactly | server-game/src/game/game-session.ts:291-319 | the same from the start of a match for all its participants |
| Delivery.CarefulIsRight | server-game/src/game/game-session.ts:204-207 | a full frame requested for everybody who missed a publish is enough for every later frame to be right |
| Delivery.EachIsServedAs | server-game/src/game/game-session.ts:298-312 | a publish sends each target one frame by its own flag and access: map or changes, roster when flagged, shading and own id when filtered, cooldowns when also in the world, each with its own content |
| Delivery.ShotsShow | server-game/src/game/game-session.ts:241-319 | a publish of a running match, its last tick and a departure that ends it each record one shot of the world and scene of that moment |
| Delivery.NoShotAfterTheEnd | server-game/src/game/game-session.ts:256-319 | after the end nothing is recorded any more |
| GameSession.ViewersFollow | server-game/src/game/game-session.ts:205-319 | over every run each participant is flagged, not being served, or behind by exactly the pending changes |
| GameSession.BufferedViewerSeesWorld | client/src/game/BufferedSnapshots.ts:3-35 | a served viewer whose frames went through the buffer ends with the world's map on any renderer |
| GameSession.RunFilms | server-game/src/game/game-session.ts:241-319 | every run leaves a recording whose consecutive shots differ exactly by the changes the later one carries |
| GameSession.MatchReadsBack | server-game/src/replay/cli.ts:78-104 | from any run of a session through recording, with any events noted, to reading: every tick gives the last recorded world at or before it |
| GameSession.MissedWhileOff | server-game/src/rooms/room.ts:769-783 | switching spectating off and on leaves the old map and no flag whenever a change was missed; a request gives the world's map |
| Replay.MemoryReplayRecorder.WriteFrame | server-game/src/replay/recorder.ts:108-125 | rotation before a keyframe, the frame limit, the process budget, or the frame appended and its bytes counted |
| Replay.MemoryReplayRecorder.Finish | server-game/src/replay/recorder.ts:137-150 | closes the last chunk and hands out what is to be stored, or releases |
| Replay.MemoryReplayRecorder.Abort | server-game/src/replay/recorder.ts:197-202 | gives up once and releases |
| Replay.MemoryReplayRecorder.Release | server-game/src/replay/recorder.ts:209-214 | returns the bytes under the clamp and empties the recorder |
| Replay.SessionReplayRecorder.RecordSnapshotTick | server-game/src/game/session-recorder.ts:34-36 | a keyframe every sixty recorded frames, deltas in between |
| Replay.SessionReplayRecorder.RecordFinalFrame | server-game/src/game/session-recorder.ts:38-41 | the final frame is always a keyframe |
| Replay.SessionReplayRecorder.RecordEvents | server-game/src/game/session-recorder.ts:44-55 | notes events at any time and touches no frame |
| Replay.FindChunk | server-game/src/replay/cli.ts:140 | the last chunk that starts at or before the tick; one without frames starts where the match does |
| Replay.ReconstructAt | server-game/src/replay/cli.ts:77-104 | folds the chunk's frames up to the tick from its keyframe |
| Replay.ChunksAreTheFrames | server-game/src/replay/recorder.ts:204-207 | whatever masks and events are noted in between, every chunk starts with its only keyframe and holds at most sixty frames, and the chunks joined are the frames in order |
| Replay.RoundTrip | server-game/src/replay/cli.ts:78-104 | with masks and events noted before, between and after the frames, for every tick the stored chunks give exactly the world of the last recorded frame at or before it, or nothing when there is none |
| Replay.NotesUnseen | server-game/src/replay/recorder.ts:127-135 | noted masks and events change nothing that is read back, also before the first frame |
| Replay.NotesAreStored | server-game/src/replay/recorder.ts:127-150 | the stored chunks joined have every mask and every event in the order in which they were noted |
| Replay.FramesAreShots | server-game/src/game/session-recorder.ts:34-75 | each shot is one frame at its tick, a keyframe exactly at the end and at every sixtieth |
| Replay.KeptExactly | server-game/src/replay/recorder.ts:112-119 | a recording is given up if and only if some frame finds no room in the match or beside the other recorders' bytes |
| Replay.FinishStores | server-game/src/replay/recorder.ts:144-150 | finishing stores exactly the chunks reading back is about, and keeps their bytes counted until the store ended |
| Replay.SpoolConserved | server-game/src/replay/recorder.ts:65-66 | over any number of recorders the shared counter is the sum of the bytes they hold, and within the limit |
| Replay.ReturnedOnce | server-game/src/replay/recorder.ts:209-214 | the clamp never takes effect, and a second release returns nothing |
| RateLimit.AbuseRateLimiter.Check | server-game/src/gateway/rate-limit.ts:70-115 | sweeps, counts the call once for each subject key and joins what the keys say |
| RateLimit.AbuseRateLimiter.Cooldown | server-game/src/gateway/rate-limit.ts:117-131 | allowed when no key is cooling, and then all keys are |
| RateLimit.AbuseRateLimiter.Sweep | server-game/src/gateway/rate-limit.ts:63-68 | keeps exactly the live buckets and cooldowns, at most once per interval |
| RateLimit.SweepingIsInvisible | server-game/src/gateway/rate-limit.ts:53-68 | over every run of checks and cooldowns the decisions are those of a limiter that never sweeps |
| RateLimit.TwoWindowsSeeTheSweep | server-game/src/gateway/rate-limit.ts:23-37 | for any two window sizes of one rule there are two calls of which a sweep changes the second decision |
| RateLimit.SweepUnseenExactly | server-game/src/gateway/rate-limit.ts:63-68 | the sweep is invisible in every run if and only if no rule has two window sizes |
| RateLimit.CountKeepsStreak | server-game/src/gateway/rate-limit.ts:97-112 | counting a call keeps a streak the number of windows in a row that exceeded the threshold |
| RateLimit.OpenCarries | server-game/src/gateway/rate-limit.ts:81-96 | a new window inherits the streak exactly when the window just before it exceeded the threshold |
| RateLimit.DecisionMeans | server-game/src/gateway/rate-limit.ts:70-115 | refused, persistent and abusive in terms of the call history alone, for the limiter as it is |
| RateDecisions.ChecksCountTheirSource | server-game/src/gateway/rate-limit.ts:70-145 | refused, persistent and abusive by who called: how many checks of the rule came from the same connection, address or known user in this window and those before |
| RateDecisions.CooldownsKeepApart | server-game/src/gateway/rate-limit.ts:117-131 | a cooldown call is refused exactly when an earlier allowed one of its rule, from the same connection, address or known user, is not over |
| StartLock.StartLock.ApplyJoin | server-game/src/rooms/lobby-state.ts:299-308 | prunes, grants what the budget leaves of the join lock and extends the lock |
| StartLock.StartLock.ApplyMapChange | server-game/src/rooms/lobby-state.ts:310-312 | extends the lock without touching the grants |
| StartLock.StartLock.RemainingMs | server-game/src/rooms/lobby-state.ts:314-316 | the time until the lock opens, and 0 when it is open |
| StartLock.GrantsAreBudgeted | server-game/src/rooms/lobby-state.ts:299-323 | over every run of joins the grants within any rolling window sum to at most the budget |
| StartLock.JoinsAreGranted | server-game/src/rooms/lobby-state.ts:299-308 | a join is granted its whole lock unless less is left of the budget in the window, then what is left, and shuts the start for that long |
| StartLock.LockedMeans | server-game/src/rooms/lobby-state.ts:305-316 | the lock is shut at a time exactly when some grant covers it |
| StartLock.JoinsCannotStall | server-game/src/rooms/lobby-state.ts:278-323 | with a budget smaller than the window joins never lock the start in one stretch for longer than the budget |
| StartLock.JoinsCanStall | server-game/src/rooms/lobby-state.ts:278-323 | with a join lock and a budget not smaller than the window, joining whenever the lock opens keeps it shut for any length of time |
| StartLock.StallExactly | server-game/src/rooms/lobby-state.ts:278-323 | the budget bounds the lock if and only if it is smaller than the window, or there is no budget or no join lock |
| Scaling.Quietest | server-supervisor/src/policy.ts:91-93 | the chosen server is one of the given ones and no other has less load or, at equal load, a smaller id |
| Scaling.AverageMeans | server-supervisor/src/policy.ts:79-80 | comparing totals with multiples of a threshold is comparing the average with the threshold |
| Scaling.DownIsSafe | server-supervisor/src/policy.ts:86-100 | a server is put to sleep only when none is starting or draining, at least the minimum stays active and the average load is below the lower threshold, and it is the least loaded |
| Scaling.Supervisor.Tick | server-supervisor/src/main.ts:134-165 | marks children from the heartbeats, decides, and spawns or puts to sleep; a failed read changes nothing |
| Scaling.Supervisor.Mark | server-supervisor/src/main.ts:142-147 | a child is seen or draining from the first heartbeat that says so |
| Scaling.ProcessCap | server-supervisor/src/main.ts:68-77 | over every run, whatever the registry shows, live children never exceed the maximum |
| Scaling.ActionsCoolDown | server-supervisor/src/policy.ts:66-73 | an action driven by load comes at least a cooldown after the last action, and shrinking is always driven by load |
| Scaling.LookCounts | server-supervisor/src/main.ts:144-150 | with truthful heartbeats the counts of starting and active servers are those of the processes |
| Scaling.NeverFlaps | server-supervisor/src/policy.ts:57-103 | under a constant load the closed loop never both grows and shrinks for load, and acts at most maximum minus minimum times |
| Scaling.TwiceIsDamped | server-supervisor/src/policy.ts:16-24 | an upper threshold of twice the lower one is enough |
| Scaling.Flaps | server-supervisor/src/policy.ts:57-103 | without the condition a constant load makes the loop grow and then shrink |
| Scaling.SteadyExactly | server-supervisor/src/policy.ts:57-103 | no constant load makes a settled loop grow and shrink if and only if the thresholds are far enough apart or there is no room to scale |
| ScalingProgress.BelowMinimumSpawns | server-supervisor/src/policy.ts:66-69 | below the minimum one process is spawned, whatever the last action and the loads |
| ScalingProgress.OverloadSpawns | server-supervisor/src/policy.ts:79-84 | with the minimum met, everybody up and the cooldown over, too high an average spawns one process |
| ScalingProgress.IdleSleeps | server-supervisor/src/policy.ts:86-100 | with more than the minimum, nobody starting or draining and the cooldown over, too low an average puts the quietest server to sleep |
| ScalingProgress.OtherwiseWaits | server-supervisor/src/policy.ts:71-103 | with the minimum met nothing is done during a cooldown, while a process starts, or between the thresholds |
| ScalingProgress.MinimumRestored | server-supervisor/src/main.ts:134-165 | from any fleet with room for the missing processes, as many looks as are missing bring the capacity to the minimum, and it stays there |
| ScalingProgress.LoadWeighs | server-supervisor/src/policy.ts:53-55 | an idle server has no load, and a room weighs as much as eight connections or a second of loop lag |
| ResultJournal.ResultJournal.Append | server-game/src/redis/result-journal.ts:55-80 | publishes a new entry, compares an existing one and replaces none, with failures before and after the link |
| ResultJournal.ResultJournal.Acknowledge | server-game/src/redis/result-journal.ts:82-87 | removes the entry of a name, or nothing when it fails first |
| ResultJournal.ResultJournal.Entries | server-game/src/redis/result-journal.ts:24-53 | a batch of the sorted listing from the cursor, round to the start, and its readable results in order; the cursor moves only after a healthy batch |
| ResultJournal.ContentsAre | server-game/src/redis/result-journal.ts:31-50 | what is returned are exactly the readable entries of the batch |
| ResultJournal.AppendNeverReplaces | server-game/src/redis/result-journal.ts:68-78 | an entry once published stays as it is |
| ResultJournal.RetryIsHarmless | server-game/src/redis/result-journal.ts:68-80 | retrying an append that took effect but failed returns and changes nothing |
| ResultJournal.BatchExactly | server-game/src/redis/result-journal.ts:27-30 | an entry is in the batch exactly when fewer than the limit come before it going round from the cursor |
| ResultJournal.DistanceFalls | server-game/src/redis/result-journal.ts:24-53 | a batch without an entry brings the cursor closer to it by the limit, whatever is removed |
| ResultJournal.EveryEntryIsRead | server-game/src/redis/result-journal.ts:24-53 | without insertions every surviving entry is in one of the next ceil(n / limit) batches |
| ResultOutbox.JournalOutbox.Enqueue | server-game/src/redis/result-outbox.ts:66-74 | the result joins the queue and the queue is persisted as far as the disk allows |
| ResultOutbox.JournalOutbox.PersistPending | server-game/src/redis/result-outbox.ts:115-121 | moves the queue into the journal up to the first failure |
| ResultOutbox.PersistKeeps | server-game/src/redis/result-outbox.ts:115-121 | every queued result stays queued or is on disk, and nothing on disk changes |
| ResultOutbox.HeadHoldsBack | server-game/src/redis/result-outbox.ts:115-121 | behind a result that cannot be published nothing moves, whatever the disk does |
| ResultOutbox.DrainsExactly | server-game/src/redis/result-outbox.ts:115-121 | the queue drains if and only if the disk takes every result and none is oversized or in conflict with its file or with another queued one |
| ResultOutbox.NeverLost | server-game/src/redis/result-outbox.ts:66-160 | with any workers and failures and one result per match, each enqueued result is queued or on disk until the database confirmed it |
| ResultOutbox.AloneNeverLost | server-game/src/redis/result-outbox.ts:123-160 | one worker never loses a result, even with several per match |
| ResultOutbox.ConfirmLosesExactly | server-game/src/redis/result-outbox.ts:140-143 | a confirmation loses a result if and only if the removed file held another one that nothing else keeps |
| ResultOutbox.LossExactly | server-game/src/redis/result-outbox.ts:123-160 | nothing is lost at any point of a run if and only if no confirmation in it removes a file that holds another result which nothing else keeps |
| ResultOutbox.ConflictLosesResult | server-game/src/redis/result-outbox.ts:136-143 | a concrete run of two workers and two results of one match that loses the second |
| ResultOutbox.MemoryOutbox.Enqueue | server-game/src/redis/result-outbox.ts:75-81 | accepted exactly below capacity, at the end of the queue |
| ResultOutbox.MemoryOutbox.SendNext | server-game/src/redis/result-outbox.ts:93-112 | one turn of the flush loop, with an add that may fail, or take effect and lose its answer |
| ResultOutbox.StreamInOrder | server-game/src/redis/result-outbox.ts:90-113 | over every run the stream is the order of enqueueing with repeats only, and the queue is what has not been flushed |
| ResultOutbox.GoneIsInStream | server-game/src/redis/result-outbox.ts:109-111 | nothing leaves the queue without being in the stream |
| ResultOutbox.FlushDelivers | server-game/src/redis/result-outbox.ts:90-113 | a flush whose adds are answered puts the whole queue on the stream in order and empties it |
| LobbyRoster.LobbyRoster.Hold | server-game/src/rooms/lobby-state.ts:113-119 | duplicate exactly for a known user, full exactly when every seat is blocked or taken, otherwise the lowest free seat |
| LobbyRoster.LobbyRoster.Claim | server-game/src/rooms/lobby-state.ts:125-157 | a live hold becomes a member in its seat, and the host of an empty lobby; a dead hold goes |
| LobbyRoster.LobbyRoster.AdoptMembers | server-game/src/rooms/lobby-state.ts:166-192 | carried members take their seats and their host beside whoever is here, and the lobby stays valid exactly when new users fit |
| LobbyRoster.LobbyRoster.PurgeExpiredHolds | server-game/src/rooms/lobby-state.ts:202-211 | exactly the expired holds go, and their number is returned |
| LobbyRoster.LobbyRoster.Remove | server-game/src/rooms/lobby-state.ts:213-220 | the member goes, and a departing host is followed by whoever joined first |
| LobbyRoster.LobbyRoster.PassHost | server-game/src/rooms/lobby-state.ts:222-228 | passes exactly from the host to a member with that number |
| LobbyRoster.LobbyRoster.MoveSlot | server-game/src/rooms/lobby-state.ts:241-251 | each refusal exactly when its reason holds; otherwise seat, number and colour move together |
| LobbyRoster.ClaimSeats | server-game/src/rooms/lobby-state.ts:125-157 | claiming keeps seats distinct and in range, one number per member, join orders distinct and the host a member |
| LobbyRoster.ClaimChanges | server-game/src/rooms/lobby-state.ts:125-157 | a claim moves its hold to a member in that seat who joined last, touches nobody else, and leaves the host of a lobby alone |
| LobbyRoster.NeverOverfull | server-game/src/rooms/lobby-state.ts:62-65 | members and holds together never exceed the capacity |
| LobbyRoster.AdoptionSeats | server-game/src/rooms/room.ts:461-465 | adopting users that are not here yet gives a valid lobby if and only if seats, numbers and join orders fit beside those who are and an empty lobby gets a host |
| LobbyRoster.ExportThenAdopt | server-game/src/rooms/room.ts:414-443 | what a lobby exports can be adopted, and gives the same members in the same seats with the same host |
| Connections.ConnectionManager.Open | server-game/src/gateway/connection-manager.ts:36-42 | opens exactly within the limits, under a new id |
| Connections.ConnectionManager.Authenticate | server-game/src/gateway/connection-manager.ts:56-64 | succeeds exactly when allowed, and moves the connection from one counter to the other |
| Connections.ConnectionManager.Close | server-game/src/gateway/connection-manager.ts:66-76 | removes the connection, its count and its user |
| Connections.OpenKeeps | server-game/src/gateway/connection-manager.ts:36-42 | opening keeps the counters exact, users and connections one to one, and the limits |
| Connections.AuthenticateKeeps | server-game/src/gateway/connection-manager.ts:56-64 | authenticating keeps the counters exact, users and connections one to one, and the limits |
| Connections.CloseKeeps | server-game/src/gateway/connection-manager.ts:66-76 | closing keeps the counters exact, users and connections one to one, and the limits |
| Connections.OpensWhenThereIsRoom | server-game/src/gateway/connection-manager.ts:36-42 | a connection is turned away only when the live records leave no room for it |
| Connections.AuthenticatesWhenThereIsRoom | server-game/src/gateway/connection-manager.ts:56-64 | an authentication is refused only for an unknown or known connection, a user who is connected, or a full address |
| Connections.RecordsChange | server-game/src/gateway/connection-manager.ts:36-76 | opening, authenticating and closing change one record, and only as asked |
| Connections.FloorNeverHit | server-game/src/gateway/connection-manager.ts:90-100 | lowering a counter never meets its floor |
| Connections.TicketStore.Issue | server-game/src/gateway/ticket-store.ts:62-76 | accepted exactly for a live reservation within the lifetime, under a ticket not in use |
| Connections.TicketStore.DeleteExpired | server-game/src/gateway/ticket-store.ts:93-102 | exactly the expired reservations go, and their number is returned |
| Connections.TicketAuthenticator.Admit | server-game/src/gateway/ticket-auth.ts:64-80 | a seat is admitted exactly when the connection becomes authenticated in the same step |
| Connections.TicketAuthenticator.Authenticate | server-game/src/gateway/ticket-auth.ts:54-86 | a principal is given out exactly for a live ticket of this server that the rooms and the connection admit; it consumes the ticket and authenticates the connection in one step, and no issue yields two |
| Connections.ConsumedOnce | server-game/src/gateway/ticket-store.ts:78-91 | consuming a reservation as its principal is given out keeps one principal per issue |
| ReplayAnalysis.LastAtOrBefore | client/src/replay/analysis.ts:134-142 | the binary search splits the ticks into those at most the value and the others |
| ReplayAnalysis.FirstAtOrAfter | client/src/replay/analysis.ts:144-152 | the binary search splits the ticks into those below the value and the others |
| ReplayAnalysis.SearchesMeet | client/src/replay/analysis.ts:134-152 | the index after the last one before a tick is the first one from it on |
| ReplayAnalysis.BuildStates | client/src/replay/analysis.ts:165-172 | every state has the last list of players given up to its frame |
| ReplayAnalysis.ByIdKeeps | client/src/replay/analysis.ts:165-172 | the list is kept and put in order of ids |
| ReplayAnalysis.CarriedIsLastGiven | client/src/replay/analysis.ts:165-172 | a frame shows the last list given up to it, and nothing before the first |
| ReplayAnalysis.TaggerSegments | client/src/replay/analysis.ts:258-269 | segments are ordered and disjoint, cover exactly the frames with a tagger, have their frames' ticks, and change player where they touch |
| ReplayAnalysis.TaggerTicks | client/src/replay/analysis.ts:279-295 | every participant's prefix sum at every frame |
| ReplayAnalysis.SegmentsAgainstPrefixSums | client/src/replay/analysis.ts:258-295 | the final prefix sum is the length of the player's segments plus the time as a tagger behind another, and they agree exactly when that is nothing |
| ReplayAnalysis.AgreeExactly | client/src/replay/analysis.ts:258-295 | with ticks in order a player's segments add up to its final prefix sum if and only if no frame that takes time lists it behind another tagger |
| ReplayAnalysis.TwoTaggersDisagree | client/src/replay/analysis.ts:258-295 | a frame with two taggers gives the second one its time in the prefix sum and no segment |
| ReplayAnalysis.OneTaggerAgrees | client/src/replay/analysis.ts:258-295 | with at most one tagger per frame segments and prefix sums agree for every player |

## Left out

- Redis is one linearizable store, processes do not crash, and the intent key does not expire during a run.
- A room that closes because everybody left, a room's code and the waiting list, and kick markers are not in the hand-off.
- Rooms are handed off independently, so the hand-off follows one room; the loops of the source over rooms and retries are its steps in any order.
- A member joins a room on a server only when no answer of that server about the same member's entry is outstanding.
- `findPeer` is any choice of another server; a peer may also refuse a room for its own reasons.
- The source's own command to itself, poison entries, and the consumer group's creation are not modelled; a stream entry is one well-formed command.
- The handlers of the other commands are any outcome; a handler that throws may leave a staged room behind.
- Simulation, visibility and room membership decide ticks, targets and sections from outside; a tick changes tiles through the map timeline only, as in the source.
- Sending a frame does not throw; the frame bytes, compression, hashing and signatures are the identity.
- Tile changes outside the grid do nothing here; the command-line reader and the map layer would lengthen a row, which no recorded change asks for.
- Snapshots.FrameBringsTiles: rosters and regions accumulate on the client by id; a section here is its latest value, because coalescing replaces sections whole.
- GameSession.EliminateDisconnected: who leaves and who becomes tagger is not modelled, because the simulation is outside; whether the departure ends the match is an input.
- Replay.MemoryReplayRecorder.Finish: ends at its first await, because other recorders run during the store; the end of the store, good or bad, is the step `StoreEnded` of the shared budget.
- Events and visibility masks of a replay are their ticks only, and what they say is not read back; masks are always on.
- Names of journal files are ordered like the numbers that stand for them; hash collisions and corrupt files other than unreadable ones are left out.
- The stream's length limit, the publication lease and the retry throttle of results are left out: they change when a result is sent again, not whether it is kept.
- Heartbeats tell the truth in the closed loop of the autoscaler, so a server put to sleep shows it at the next look; the process cap and the cooldown hold without that.
- Loads are exact reals, and heartbeat validation is left out.
- Distances, the other per-player totals and the memoised table of the analyser are left out.
- Ticket randomness is a fresh number, and the response delay is left out.
