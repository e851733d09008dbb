# xnminer: a verified model of the miner's stateful core

The miner finds blocks on a GPU, keeps the ones the pool will not take yet in a "bag" on disk, and submits
them when the network's difficulty allows. This project models the parts of it that hold state or do
arithmetic that matters, and proves what they promise:

| files | part |
|---|---|
| `Store`, `BlockStore`, `BagRuns`, `BagJson`, `Policy` | the bag: a list, a digest index, an append-only log and a snapshot, over runs with crashes and restarts |
| `FlushBatch`, `Submit`, `FlushWave` | choosing a flush batch, reading the pool's answers, sending waves and settling them |
| `Lifecycle`, `Ending`, `HitPaths`, `FlushSteps` | how finds pass between the mining thread, the submit worker, the signal handler and the bag, and that a session can always be ended |
| `Finds`, `Twins` | that no find itself is lost on the way, and exactly when one can be |
| `MatchWindow` | what the supervisor believes about the network, and when it drains the bag |
| `BagForward` | shipping unforwarded hits to the vault in waves |
| `LaneRing` | the per-lane result rings between the GPU lane workers and `mine_batch` |
| `VramPlan`, `ThermalHunt`, `Engine`, `Headroom` | the memory planner, the thermal control loop, and the engine's memory bound over long runs |
| `Sha256`, `Fips180Bits`, `Fips180Vectors`, `Fips180Example` | SHA-256 in place, against FIPS 180-4; the standard's functions bit by bit, and its example message worked through to the digest |
| `Ini`, `Phc` | the settings editor against the settings parser; PHC strings put together and taken apart |

Code that updates fields or buffers in place is a class or a method with loops, tied by its `ensures` to a
function on values (`Enqueue`, `AfterReplan`, `Compress`, ..); the theorems are about those functions and about
runs of them. Concurrency is a state machine of atomic steps; every theorem about it holds for every sequence of
steps by any thread.

Conventions: doubles are exact reals or rationals (the factor 1.001 is 1001/1000); counters are unbounded
integers, except where the source narrows them (`attempts`, `next_id` read back as `int`, PHC's `uint32_t`),
which is written out; one log append is atomic; each operation sees one local minute; JSON files are JSON values;
what the pool, the pollers, the driver and the sensors report are arbitrary inputs.

## What the proofs turned up

- The queue log is never truncated, so a hit that was submitted and removed is back in the bag after the next
  load, and is submitted again (`BagRuns.SubmittedHitReturns`).
- In the thermal hunt a cut leaves the low watermark at the batch, and so does a hot reading whose cut the settle
  window refuses; until a raise no further cut can follow, however hot the card. `ThermalHunt.CutExactly` says when a
  cut happens, `ThermalHunt.FloorMeetsBatch` when the watermark is left at the batch, `ThermalHunt.CutsNeedRaises`
  that cuts never outnumber raises by more than one, and `ThermalHunt.HotAndStuck` shows it at two readings.
- `set_difficulty` stores the new difficulty before a replan that may throw; the old batch is then mined at the new
  cost, which can be past the target, and repeating the call does nothing (`Engine.FailedReplanBreaksBound`, on an
  8 GiB card). Right after the call the bound holds exactly when one attempt at the new cost fits a lane's budget or
  the batch then running does (`Engine.SetDifficultyBound`; `Engine.RestoreBound` for `restore_lane_cap_if_cool`). That
  is not enough later: one cool reading can raise the batch past the target (`Headroom.RaiseBreaksBound`). Over whole
  runs, whatever is adjusted between replans, the bound holds if and only if at every new difficulty one attempt fits
  a lane's budget or the whole plan in force fits at it (`Headroom.LongRunBound`).
- `set_thermal_batch_scale` can put the batch below the hunt's watermark (`Engine.ScaleBreaksRange`); the hunt stays
  in range over a whole run exactly when every scale set fits it (`Engine.HuntRangeExactly`).
- `enqueue` identifies a find by its hash alone: a second find with the same hash and another key is dropped
  (`Twins.ConcreteTwin`). Whatever the threads do no find is lost if and only if no two, and none and a bagged one,
  share a hash (`Twins.TwinsDecide`).
- `mine_batch` can wait for ever only on a lane whose request has no batch, difficulty or salt (`LaneRing.NoDeadlock`).
- Restarting the lane workers discards up to four results a lane (`LaneRing.RestartLoses`).
- After a change of difficulty up to four results a lane are labelled with a cost they were not computed at
  (`LaneRing.StaleIsMislabelled`); `LaneRing.LabelsExactly` says which.
- The drop of a queued block that fails to prepare cannot happen (`Lifecycle.NeverDrops`), and neither can the
  filter for bare digests (`Phc.PrepareBareSucceeds`).
- `clamp_plan_to_caps` never changes a plan the planner drafts (`VramPlan.DraftIsClamped`).
- The comment on `flush_priority` in `src/queue/policy.hpp` says XNM flushes before XBLK; the code puts XBLK first,
  and the model follows the code.

## Model

| member | source | states |
|---|---|---|
| Store.LoadItemsReads | src/queue/store.cpp:94-124 | the snapshot loop reads back every item the store wrote, in order |
| Store.ItemRoundTrip | src/queue/store.cpp:108-118 | a snapshot item reads back as itself, attempts wrapped to an int |
| Store.EntryReads | src/queue/store.cpp:126-155 | a log line the store wrote never throws on recovery: it is skipped when its digest is empty or present, else added under its id or, if that is taken or below 1, a fresh one |
| Store.ItemDefaults | src/queue/store.cpp:101-118 | what an item's or a file's missing members stand for |
| Store.RecoverWell | src/queue/store.cpp:126-155 | recovery only appends, keeps ids and digests distinct through the id repair, and ends with every logged digest present |
| Store.BaseWell | src/queue/store.cpp:94-124 | the loaded snapshot is well formed and holds exactly what was saved |
| Store.LoadRestores | src/queue/store.cpp:94-155 | loading the store's own files never fails; the last snapshot is a prefix of the result, what follows has digests the snapshot lacked, and the digests are exactly those ever logged |
| Store.DeferredExactly | src/queue/store.cpp:389-400 | at shutdown only XUNI outside the five minutes around the hour waits for its window, all else for the next start |
| BagRuns.ApplyKeeps | src/queue/store.cpp:94-304 | each operation, restart or crash keeps the representation invariant and adds exactly its own digest to the log |
| BagRuns.RunKeepsInv | src/queue/store.cpp:94-304 | the invariant over every run; the log holds exactly the digests ever passed to enqueue |
| BagRuns.RunWellFormed | src/queue/store.cpp:195-211 | over every run: ids distinct and below next_id_, non-empty digests distinct, hash_index_ exactly their set |
| BagRuns.CrashDurability | src/queue/store.cpp:94-211 | after any load, however stale or torn the snapshot, the digests in the bag are exactly those ever passed to enqueue |
| BagRuns.OnlySubmittedLeaves | src/queue/store.cpp:277-292 | between loads a digest leaves the bag only through mark_submitted of its own block |
| BagRuns.SubmittedHitReturns | src/queue/store.cpp:126-155 | a submitted and removed hit is back after the next load |
| BagRuns.RestartRoundTrip | src/queue/store.cpp:94-184 | a clean restart brings the list back in place and order, before anything the log adds; unchanged exactly when all attempts fit an int |
| BagRuns.LoadSynced | src/queue/store.cpp:94-124 | after a load with nothing dirty, the snapshot on disk holds the pending list |
| BagRuns.EnqueueKeeps | src/queue/store.cpp:195-211 | enqueue keeps the invariant and logs exactly its digest |
| BagRuns.SubmittedKeeps | src/queue/store.cpp:277-292 | removal keeps the invariant |
| BagRuns.RunDirty | src/queue/store.cpp:157-184 | over every run the snapshot is at most seven operations behind |
| BlockStores.BlockStore.LoadFiles | src/queue/store.cpp:94-124 | load in place computes the specified merge; files the store wrote always load into a valid store |
| BlockStores.BlockStore.ReadSnapshot | src/queue/store.cpp:106-119 | the item loop, stopping at an item that throws but keeping what was read |
| BlockStores.BlockStore.RecoverJsonl | src/queue/store.cpp:126-155 | the log loop, saving when it added something |
| BlockStores.BlockStore.FreeId | src/queue/store.cpp:138-145 | the recorded id unless it is below 1 or in use |
| BlockStores.BlockStore.SaveDb | src/queue/store.cpp:157-175 | the whole list and next_id_ become the snapshot, and nothing is dirty |
| BlockStores.BlockStore.MaybeSaveDb | src/queue/store.cpp:177-179 | saves at eight dirty operations |
| BlockStores.BlockStore.FlushDb | src/queue/store.cpp:181-184 | saves when anything is dirty |
| BlockStores.BlockStore.EnqueueHit | src/queue/store.cpp:195-216 | refuses a known digest with 0, else appends to list, index and log under a fresh id |
| BlockStores.BlockStore.EraseId | src/queue/store.cpp:281-289 | erase/remove_if of one id keeps the rest in order and the index exact |
| BlockStores.BlockStore.MarkSubmittedMany | src/queue/store.cpp:277-292 | id by id, exactly the blocks with those ids go, in one save |
| BlockStores.BlockStore.MarkForwardedMany | src/queue/store.cpp:229-242 | exactly the blocks with those ids are flagged |
| BlockStores.BlockStore.MarkPendingReason | src/queue/store.cpp:294-304 | only the block with that id gets the reason |
| BlockStores.BlockStore.DeferAllToNextStart | src/queue/store.cpp:389-400 | every block gets the reason its type and the minute call for |
| BlockStores.BlockStore.ListUnforwarded | src/queue/store.cpp:218-227 | the first limit unforwarded blocks, in order |
| BlockStores.BlockStore.PendingEligible | src/queue/store.cpp:321-329 | counts the blocks whose cost is high enough, ready or not |
| BlockStores.BlockStore.ListFlushBatch | src/queue/store.cpp:349-387 | the early-stopping, two-buffer selection with its sort equals the specification Sorted(Chosen(..)) |
| BlockStores.EraseStep | src/queue/store.cpp:281-289 | one step of the erase keeps list and index together |
| FlushBatch.Scan | src/queue/store.cpp:352-373 | the capped, early-stopping scan holds a prefix of the preferred blocks, all of them (and the capped wrapped ones) unless it is full |
| FlushBatch.TopUp | src/queue/store.cpp:374-379 | topping up stops at the cap |
| FlushBatch.FirstExactly | src/queue/store.cpp:218-227 | a leading part of the unforwarded blocks, as long as the limit allows; no limit means all |
| FlushBatch.SelectBatch | src/queue/store.cpp:349-379 | first cap of eligible from the skip id on, then eligible before it |
| FlushBatch.SortForFlush | src/queue/store.cpp:380-385 | the batch in flush order |
| FlushBatch.OrderUnique | src/queue/store.cpp:380-385 | flush order is strict on distinct ids, so an unstable sort has one possible result |
| FlushBatch.SortedUnique | src/queue/store.cpp:380-385 | any arrangement in flush order is the specified one |
| FlushBatch.ChosenLength | src/queue/store.cpp:349-387 | the length is min(limit, number eligible); limit <= 0 means all |
| FlushBatch.ChosenMembers | src/queue/store.cpp:349-387 | only eligible blocks of the bag, without a limit all of them |
| FlushBatch.ChosenFirst | src/queue/store.cpp:349-379 | a limit leaves out blocks below the skip id before others, and the youngest of each first |
| FlushBatch.OrderExactly | src/queue/policy.cpp:53-61 | flush order: superblocks, then the common kinds, then XUNI, then the rest, letters in either case; within a kind the older id |
| FlushBatch.EligibleExactly | src/queue/policy.cpp:27-51 | a block may go exactly if its cost reaches, or having none the given one, if any, reaches, the network's and, for XUNI, the minute is within five of the full hour |
| FlushBatch.EligibleCounted | src/queue/store.cpp:349-387 | the number of eligible blocks is that of their positions |
| FlushBatch.PayableCounted | src/queue/store.cpp:321-329 | the eligible count behind a drain is the number of blocks whose cost is high enough |
| FlushBatch.BatchContents | src/queue/store.cpp:349-387 | length, membership, order and distinct ids of the batch together |
| BagJson.HitWithExtras | src/queue/store.cpp:17-42 | a hit reads back from its JSON whatever other members stand beside it |
| BagJson.HitRoundTrip | src/queue/store.cpp:17-42 | a hit survives the trip exactly when its attempts fit an int |
| BagJson.HitNames | src/queue/store.cpp:17-42 | which member carries which part of a hit, both ways, and the defaults for one with only key and digest |
| BagJson.NumbersRead | src/queue/store.cpp:29-42 | what an int member holding a 64-bit number, a fraction or a boolean is read as |
| BagJson.LoneHit | src/queue/store.cpp:68-74 | a body without a list is one hit if it has a digest or a key, else none |
| BagJson.HitsFromBagJson | src/queue/store.cpp:54-76 | the bag reader: which array it goes through, what it skips, when it throws |
| BagJson.BagRoundTrip | src/queue/store.cpp:46-76 | reading inverts writing exactly on bags whose hits all have a key or digest and int-sized attempts; the worker name comes back |
| FlushWave.WaveSize | src/app/supervisor.cpp:894-902 | unlimited (0) exactly on shutdown, 64 outside a drain; in one the configured batch or the larger of 256 and sixteen per submission in flight |
| FlushWave.Parallel | src/app/supervisor.cpp:943-946 | one in flight on shutdown, four outside a drain, in one the configured number within 1 to 256 |
| FlushWave.WorkExactly | src/app/supervisor.cpp:904-934 | when the wave holds the batch, a block is sent if and only if its cost, or having none the one mined at, reaches the network's and XUNI is in its window |
| FlushWave.BuildWork | src/app/supervisor.cpp:914-934 | the work list is the prefix of the ready, affordable, prepared blocks; the prepare-failed branch is never taken |
| FlushWave.SettleOne | src/app/supervisor.cpp:975-1012 | one answer changes at most the reason of its own block and the network view, by the order in which the classifiers are asked |
| FlushWave.SettleWave | src/app/supervisor.cpp:970-1013 | one wave's answers in order: reasons, accepted ids, holds and the network view |
| FlushWave.SendWaves | src/app/supervisor.cpp:959-1015 | bag and network view after the waves are the specified ones; the count returned is how many blocks left |
| FlushWave.TryFlush | src/app/supervisor.cpp:894-1047 | the whole flush after its gates: work from the current bag, each item at most once, removal of exactly the blocks answered with 200-299 or "already exists", the pause and the next starting id after a batch of holds |
| FlushWave.SentExactly | src/app/supervisor.cpp:959-993 | item k is sent exactly when on shutdown, or when no earlier wave had a transport failure |
| Submit.SaysAnyCase | src/network/submitter.cpp:15-26 | searching the lowered body finds a text exactly where its letters stand in either case |
| Submit.JudgeExactly | src/network/submitter.cpp:22-70 | an answer is an accept exactly with status 200-299 or "already exists"; else a transport failure with status 0 or one of three texts; else a hold with 401, 403, 429 or a text about the cost or the time, parked exactly for the cost; else a reject |
| FlushWave.AcceptedLeave | src/app/supervisor.cpp:975-1014 | a sent block is gone if its answer has status 200-299 or holds "already exists", else it stays under the reason that status and text call for; every other block is unchanged |
| FlushWave.GoneExactly | src/app/supervisor.cpp:975-1014 | a block has left if and only if an item with its id was sent and answered so |
| FlushWave.HoldsCounted | src/app/supervisor.cpp:994-1003 | the holds counted are the answers that neither took the find nor broke the line and have status 401, 403, 429 or a text about cost or time |
| FlushWave.RestsExactly | src/app/supervisor.cpp:1028-1044 | the pause and the move past the batch come exactly when not on shutdown, some answer held, none took a find and none broke the line |
| FlushWave.TransportExactly | src/app/supervisor.cpp:985-993 | the flush breaks off after a wave exactly if some answer in it has status 0 or speaks of the connection without having taken the find |
| Lifecycle.LiveReasonExactly | src/app/supervisor.cpp:828-855 | the reason a live find is bagged with, from status and text |
| FlushWave.SettledLength | src/app/supervisor.cpp:959-1047 | the flush count is the number of blocks gone |
| FlushWave.AnswersKeepWindow | src/app/supervisor.cpp:975-993 | no answer closes an open match window; submits stay paused at most 3 s after a transport failure |
| FlushWave.AllWorkDistinct | src/app/supervisor.cpp:914-934 | no block is submitted twice in one flush |
| FlushWave.AllWorkMembers | src/app/supervisor.cpp:914-934 | every item is a ready, affordable block of the batch, submitted as prepared |
| FlushWave.RelabelWithout | src/app/supervisor.cpp:987-1014 | reasons and removals commute, so removing at the end of a wave loses no reason |
| Lifecycle.FindsConserved | src/app/supervisor.cpp:677-1142 | over every interleaving a prepared find is in memory, its hash is in the bag, or a find with its hash was accepted |
| Lifecycle.SessionEnd | src/app/supervisor.cpp:1186-1241 | after finalize_session live queue and hands are empty and the worker is gone; every find's hash is bagged or accepted, and the next load brings the bagged ones back |
| Ending.SessionCanEnd | src/app/supervisor.cpp:1087-1241 | from whatever state the threads have reached, some steps bring mining thread and handler to their end, with every find made so far bagged or accepted: no join and no queue deadlocks a shutdown |
| Ending.OutCloser | src/app/supervisor.cpp:1087-1241 | in every such state the mining thread, the handler or the worker being joined has a step that brings the end closer |
| Lifecycle.HexKey | src/mining/argon2_encode.cpp:33-39 | the keys not dropped are those of 64 hexadecimal digits in either case |
| Lifecycle.OnlyAcceptedLeave | src/app/supervisor.cpp:959-1015 | with all threads running, a hash leaves the bag only by a flush removal and only after the very find bagged with it was accepted |
| Lifecycle.NeverDrops | src/app/supervisor.cpp:922-931 | the prepare-failed removal is unreachable |
| Lifecycle.EnqueuedItself | src/queue/store.cpp:195-211 | enqueue keeps the find itself exactly when its hash is new or this very find is there |
| Lifecycle.MainMoves | src/app/supervisor.cpp:708-781 | no step of the mining and shutdown thread loses a find |
| Lifecycle.WorkerMoves | src/app/supervisor.cpp:1101-1142 | no step of the submit worker loses a find |
| Lifecycle.HandlerMoves | src/app/supervisor.cpp:114-129 | no step of the signal handler loses a find |
| Lifecycle.EndWaveKeeps | src/app/supervisor.cpp:1014 | removing a wave's accepted ids takes no unaccepted find, even with other threads at the store meanwhile |
| Lifecycle.ItemsFromBag | src/app/supervisor.cpp:904-934 | a flush's items are the bag's own blocks |
| Lifecycle.RunKeeps | src/app/supervisor.cpp:1101-1241 | the system invariant over every interleaving |
| Finds.FindsThemselves | src/app/supervisor.cpp:677-1142 | over every interleaving, finds told apart by their hashes are themselves in memory or in the bag, or were themselves accepted |
| Finds.SessionEndThemselves | src/app/supervisor.cpp:1186-1241 | after finalize_session each such find is itself in the bag or was itself accepted, and the next load brings the bagged ones back with attempts as an int |
| Finds.RunTraced | src/app/supervisor.cpp:677-1142 | memory only ever holds finds prepared this session; the bag, its files and what was accepted only those and what they began with |
| Finds.LoadedFrom | src/queue/store.cpp:94-155 | what a load finds was in the files |
| Twins.LostToBag | src/queue/store.cpp:195-211 | a find whose hash is bagged for another find is lost |
| Twins.LostToFirst | src/queue/store.cpp:195-211 | of two finds with one new hash the first is kept and the second lost |
| Twins.TwinsDecide | src/app/supervisor.cpp:677-1142 | all runs keep all of a set of finds if and only if no two, and none and a bagged one, share a hash |
| Twins.ConcreteTwin | src/queue/store.cpp:195-211 | two keys with one digest, prepared and queued on an empty bag: only the first is kept |
| HitPaths.Supervisor.HandleHit | src/app/supervisor.cpp:708-781 | a prepared find goes to the bag under the stated reason, so that its hash is there, or to the back of the live queue, not to both |
| HitPaths.Supervisor.ProcessLiveSubmit | src/app/supervisor.cpp:783-855 | the find is accepted, exactly if sent and answered with 200-299 or "already exists", or its hash is in the bag, with the reason, the change of network view and the landed count each case calls for |
| HitPaths.Supervisor.ServeLive | src/app/supervisor.cpp:1120-1124 | the worker's loop over the finds it took: bag, network view, landed count and accepted finds after the whole batch |
| HitPaths.ServingIsSteps | src/app/supervisor.cpp:1120-1124 | that loop is a run of the machine's submit steps with nothing in between |
| HitPaths.Supervisor.UpdateDrain | src/app/supervisor.cpp:303-391 | the drain step with the bag counted; a start resets the landed count and the starting id, an end saves the bag |
| HitPaths.Supervisor.TryFlushPending | src/app/supervisor.cpp:857-1047 | the whole of try_flush_pending: gates, refreshes, deferral on shutdown, the flush, and the landed count during a drain |
| HitPaths.FlushInWindow | src/app/supervisor.cpp:857-890 | in an open match window the gates lead to a flush at the forced m exactly when the poll is within budget or the paper shows that m |
| HitPaths.FlushInClassic | src/app/supervisor.cpp:857-890 | in classic mode, unpaused at difficulty d, the gates lead to a flush at d exactly when the poll is good or within the 3/60 s budget or the paper shows d |
| HitPaths.NoFlushPaused | src/app/supervisor.cpp:857-868 | while submits are paused, or in classic mode deferred, there is no flush and not even a poll |
| HitPaths.RoutesExactly | src/app/supervisor.cpp:708-808 | on each thread which find goes on, and the logged reason of every other, from minute, flags, view and clock |
| HitPaths.Supervisor.BagLiveQueue | src/app/supervisor.cpp:95-112 | empties the live queue into the bag, in order |
| HitPaths.EnqueueAllIndexes | src/app/supervisor.cpp:95-112 | bagging a batch adds exactly its digests |
| HitPaths.WindowGoesOnward | src/app/supervisor.cpp:708-808 | in an open match window a find at the forced m is bagged only for shutdown, XUNI outside its window, or (mining thread) a drain that has landed a block |
| HitPaths.RoutesAgree | src/app/supervisor.cpp:735-808 | what the mining thread hands over the worker does not turn back, unless something changed between |
| HitPaths.HandleIsSteps | src/app/supervisor.cpp:708-781 | handle_hit is a run of the interleaved machine's mining-thread steps |
| FlushSteps.AnswersAreSteps | src/app/supervisor.cpp:970-1013 | a wave's answers, one step each, leave the bag and the accepted ids the sequential loop leaves |
| FlushSteps.WaveIsSteps | src/app/supervisor.cpp:959-1015 | one sequential wave is the machine's answer steps and removal, uninterrupted |
| HitPaths.BagIsSteps | src/app/supervisor.cpp:95-112 | bagging the live queue is the machine's take and bag steps, uninterrupted |
| MatchWindow.Oracle.RefreshNetwork | src/app/supervisor.cpp:469-609 | one refresh as specified: repeated reads ignored, good and failed polls told apart; returns whether a difficulty is known and the network up |
| MatchWindow.Oracle.TakeDifficulty | src/app/supervisor.cpp:489-511 | a poll with a value: garbage falls back to last-good, streak and backoff reset, a change defers submits |
| MatchWindow.Oracle.CountFailure | src/app/supervisor.cpp:561-582 | a failed poll against the 6/120 s or 3/60 s budgets |
| MatchWindow.Oracle.RefreshPaper | src/app/supervisor.cpp:265-287 | a new good snapshot sets the newest m; a bad one keeps the last for 30 s; a repeated one changes nothing |
| MatchWindow.Oracle.NoteTransportFailure | src/app/supervisor.cpp:407-432 | a match or a rate limit pauses 3 s and keeps the network up; anything else marks it down for at least 15 s |
| MatchWindow.Oracle.UpdateMatchDrain | src/app/supervisor.cpp:303-391 | a drain starts when an oracle shows the bag m and enough blocks match; it ends as mismatch, clear or timed out, in that order |
| MatchWindow.AcceptDifficulty | src/network/difficulty.cpp:48-53 | whatever the poll and the fallback, the difficulty taken is positive |
| MatchWindow.PollOpens | src/app/supervisor.cpp:489-511 | a poll reporting the forced m opens the window |
| MatchWindow.WindowStaysOpen | src/app/supervisor.cpp:469-609 | over any mix of events without another difficulty reported, the window stays open throughout exactly when every failed poll was under six in a row and under 120 s after the last good one |
| MatchWindow.DrainSurvives | src/app/supervisor.cpp:303-362 | in such a window no drain ends as a mismatch; one that stops has no matching blocks left or is out of time |
| MatchWindow.OpenMeans | src/app/supervisor.cpp:174-236 | open means: not left, target m is the forced m, live and flush submits allowed exactly after the backoff, and a transport failure pauses 3 s |
| MatchWindow.SixthFailureCloses | src/app/supervisor.cpp:563-582 | five fresh failures keep the window open, the sixth closes it |
| MatchWindow.NetworkStaysUp | src/app/supervisor.cpp:469-609 | in classic mode, or hybrid away from the forced m: over any run without another difficulty reported, the network stays up throughout if and only if every new failed poll is under three in a row and under 60 s after the last good one and every transport failure is a rate limit or meets the forced m on the paper |
| MatchWindow.PlainStep | src/app/supervisor.cpp:469-609 | the same for one event, with the counts kept |
| MatchWindow.StaleExactly | src/app/supervisor.cpp:556-582 | in any mode and over any run the view is stale exactly from the first failed poll after a good one to the next good one |
| MatchWindow.PollShows | src/app/supervisor.cpp:489-511 | the difficulty a new answer leaves, garbage included, and that in classic mode a change defers submits for five seconds and the sampling interval, nothing else does |
| MatchWindow.PauseExactly | src/app/supervisor.cpp:407-432 | the pause after a failed submission: 3 s with the network as it was, or 15 s and the polling interval with it down |
| MatchWindow.DrainExactly | src/app/supervisor.cpp:303-391 | when a drain starts, runs on and ends, and why, from what the view shows of the bag's m |
| MatchWindow.RereadsChangeNothing | src/app/supervisor.cpp:479-488 | reading the same snapshot again changes nothing |
| MatchWindow.StepTracks | src/app/supervisor.cpp:469-609 | one event keeps the counts in line with the poll results alone |
| MatchWindow.PaperStep | src/app/supervisor.cpp:265-287 | one event leaves the paper's m standing unless it is a bad new snapshot 30 s or more after the last good one |
| MatchWindow.PaperHolds | src/app/supervisor.cpp:265-287 | over runs without a good snapshot the paper holds throughout exactly when every bad one is under 30 s late |
| BagForward.BagForwarder.SendWave | src/network/bag_forward.cpp:49-83 | posts the first batch of unforwarded hits; flags them on success, changes only the fail streak otherwise |
| BagForward.WaveLeaves | src/network/bag_forward.cpp:49-83 | an accepted wave takes exactly the first batch off the unforwarded list |
| BagForward.WavesPost | src/network/bag_forward.cpp:49-83 | k accepted waves post exactly the first k * batch hits, each once, in order |
| BagForward.ForwardingCompletes | src/network/bag_forward.cpp:49-83 | nothing is left exactly from ceil(n / batch) accepted waves on, and by then all have been posted |
| LaneRing.Mailbox.Store | src/mining/cuda_engine.cpp:185-188 | the ring write appends to the unread results |
| LaneRing.Mailbox.Take | src/mining/cuda_engine.cpp:655-661 | the ring read takes the oldest |
| LaneRing.AbsorbOneEach | src/mining/cuda_engine.cpp:654-662 | one call takes the oldest result of every lane and nothing else |
| LaneRing.WorkerKeeps | src/mining/cuda_engine.cpp:154-191 | each atomic step of a lane worker keeps the lane invariant |
| LaneRing.MoveKeepsInv | src/mining/cuda_engine.cpp:298-324 | every step of the pipeline keeps the invariant, re-publishing and restarting the workers included |
| LaneRing.RingSafety | src/mining/cuda_engine.cpp:154-191 | for every interleaving, restarts included, at most four results wait, the absorbed ones are a prefix of the produced in order, and unread slots are intact |
| LaneRing.WaitsExactly | src/mining/cuda_engine.cpp:110-172 | a worker waits exactly with no newer request and nothing to do, or with four unread results under a request that still stands |
| LaneRing.NoDeadlock | src/mining/cuda_engine.cpp:611-663 | in every reachable state mine_batch, in the middle of a call, can go on, or a worker it waits for can, or that lane's request has no batch, difficulty or salt |
| LaneRing.RestartLoses | src/mining/cuda_engine.cpp:298-324 | a restart loses, per lane, exactly the unread suffix and what the worker is busy with, at most four in all |
| LaneRing.RestartFiles | src/mining/cuda_engine.cpp:298-324 | restarting is the only step that discards a lane |
| LaneRing.LanesInStep | src/mining/cuda_engine.cpp:611-663 | between calls every lane has been drained once per call since the workers were started |
| LaneRing.StaleResultsBounded | src/mining/cuda_engine.cpp:611-663 | after a publish at most four more results of older requests can come from a lane |
| LaneRing.LabelsExactly | src/mining/cuda_engine.cpp:509-527 | an absorbed match carries the cost it was computed at if and only if it answers the current request or one at the same cost; only the first four after a publish can fail to |
| LaneRing.StaleIsMislabelled | src/mining/cuda_engine.cpp:509-527 | with a result waiting on every lane, a change of difficulty puts the new cost on the next result absorbed |
| VramPlan.LanesExactly | src/mining/vram_batch.cpp:40-47 | all lanes at difficulty 100; under the reference the most lanes whose joint difficulty stays within it; otherwise one |
| VramPlan.BudgetExactly | src/mining/vram_batch.cpp:132-141 | the budget is the most MiB that with the overhead stay under the target and leave the headroom |
| VramPlan.BatchExactly | src/mining/vram_batch.cpp:54-155 | a lane's batch is the most attempts, of 1024 * 1.001 bytes per unit of difficulty, that its even share holds and the explicit limits allow |
| VramPlan.ShrinkBatch | src/mining/vram_batch.cpp:110-113 | the step strictly shrinks, to 98 % rounded down or to one |
| VramPlan.ClampSearch | src/mining/vram_batch.cpp:88-123 | without the step limit the search still ends, with a plan within limits or its input |
| VramPlan.ClampPlanToCaps | src/mining/vram_batch.cpp:88-123 | a plan outside its limits becomes what the unlimited search finds if that takes at most 10000 candidates, else stays as it is |
| VramPlan.SearchExactly | src/mining/vram_batch.cpp:88-123 | the search succeeds exactly when one lane with the least batch it reaches (0 or 1) fits the limits |
| VramPlan.PlanCudaBatch | src/mining/vram_batch.cpp:125-178 | the plan returned is the draft, which the final clamp leaves alone; its lanes, budget and batch are the largest allowed |
| VramPlan.DraftIsClamped | src/mining/vram_batch.cpp:125-178 | clamping leaves every drafted plan unchanged |
| VramPlan.SearchCannotHelp | src/mining/vram_batch.cpp:88-123 | when the overhead alone breaks the limits no smaller pack helps |
| VramPlan.LimitIsTight | src/mining/vram_batch.cpp:54-60 | the limit fits the budget and one more attempt does not |
| VramPlan.RoomForOne | src/mining/vram_batch.cpp:54-76 | a plan has attempts exactly when one fits a lane's budget |
| VramPlan.PackFits | src/mining/vram_batch.cpp:125-178 | all lanes together stay in the allowed budget |
| VramPlan.PlanWithinLimits | src/mining/vram_batch.cpp:125-178 | a plan with any attempts at all is within limits |
| VramPlan.PlanIsMaximal | src/mining/vram_batch.cpp:62-76 | without explicit limits one more attempt per lane exceeds the lane's budget |
| VramPlan.ResolveCaps | src/efficiency/vram_policy.cpp:23-73 | 1 <= target <= emergency <= total, the other caps in range |
| VramPlan.PackExactly | src/mining/vram_batch.cpp:49-52 | a pack counts, per lane, its attempts' exact bytes rounded down |
| VramPlan.CapsExactly | src/efficiency/vram_policy.cpp:23-73 | each cap is its own override or the nearest MiB to its own percentage, over its own floor, brought into range; emergency at least the target |
| VramPlan.PlanUnderCaps | src/mining/vram_batch.cpp:125-178 | with resolved caps projected use <= target <= emergency <= total, and the headroom is left |
| ThermalHunt.HuntState.HuntThermalScale | src/efficiency/thermal_policy.cpp:32-135 | the routine in place computes the specified step |
| ThermalHunt.HuntState.CutWhenHot | src/efficiency/thermal_policy.cpp:113-125 | the six clamping steps of a hot reading, in place: the drop chosen, the cut if settled, the watermark raised either way |
| ThermalHunt.RecordedTemp | src/efficiency/thermal_policy.cpp:49-65 | the temperature recorded is the die's if at its own cap and hotter, else the junction's if used and known, else the die's; a fall of 12 from at or above target is no change, a smaller one counts |
| ThermalHunt.HotNeverRaised | src/efficiency/thermal_policy.cpp:49-112 | no raise while the die is at its cap and two over target, whatever the memory shows, nor while a junction in use is over target |
| ThermalHunt.HuntExactly | src/efficiency/thermal_policy.cpp:84-128 | for a state in range: exactly when a call raises or cuts, from temperature, trend and settle time, and to which batch |
| ThermalHunt.MarksExactly | src/efficiency/thermal_policy.cpp:80-130 | the watermark, last good batch, idle time, cool count and time it leaves |
| ThermalHunt.FirstExactly | src/efficiency/thermal_policy.cpp:40-78 | the first call only brings the batch into range and seeds the marks |
| ThermalHunt.FirstCallInRange | src/efficiency/thermal_policy.cpp:68-78 | the first reading brings the state into range exactly when its watermark is not above its batch; so for fresh and for seeded states |
| ThermalHunt.HuntStep | src/efficiency/thermal_policy.cpp:80-128 | floor <= batch <= planned and min_batch <= batch are kept, floor never sinks, a cut lands strictly above the old floor |
| ThermalHunt.CutsBounded | src/efficiency/thermal_policy.cpp:80-128 | a run of any length makes at most planned - initial floor cuts |
| ThermalHunt.NoCutAtFloor | src/efficiency/thermal_policy.cpp:113-125 | no cut when the floor has reached the batch |
| ThermalHunt.RefusedCutRaisesFloor | src/efficiency/thermal_policy.cpp:99-125 | a wanted cut refused by the settle window still raises the floor to the batch |
| ThermalHunt.CutExactly | src/efficiency/thermal_policy.cpp:84-125 | a cut happens if and only if the reading is hot and settled and the last good batch or one step lies between watermark and batch |
| ThermalHunt.FloorMeetsBatch | src/efficiency/thermal_policy.cpp:84-125 | the watermark is left at the batch if and only if a cut was wanted, executed or not, or it was there and no raise came |
| ThermalHunt.CutsNeedRaises | src/efficiency/thermal_policy.cpp:109-128 | over any run cuts are at most raises plus one, at most raises from a watermark at the batch |
| ThermalHunt.HotAndStuck | src/efficiency/thermal_policy.cpp:84-125 | two readings after which a card past its cap is not cut |
| ThermalHunt.StuckAtFloor | src/efficiency/thermal_policy.cpp:99-125 | from there the batch never falls again until a raise |
| Engine.ApplyBatchScale | src/efficiency/thermal_policy.cpp:137-141 | scaled batch between 1 (if any) and the whole |
| Engine.ScaleNearest | src/efficiency/thermal_policy.cpp:137-141 | a scaled batch is the nearest whole number, a half up, and at least one |
| Engine.BatchInTune | src/mining/cuda_engine.cpp:326-507 | over every run the mined batch is the plan at the scale reported, and the hunt's own batch |
| Engine.HeatNeverRaises | src/mining/cuda_engine.cpp:472-507 | no reading with the die at max_gpu, two over the memory target, or the memory over it, enlarges the batch |
| Engine.LimitCuts | src/mining/cuda_engine.cpp:472-507 | the memory at max_mem, one over target, makes a settled engine with room cut |
| Engine.ReadingMoves | src/mining/cuda_engine.cpp:472-507 | a reading raises the batch by the configured step, short only at the plan, and never takes it under the least |
| Engine.LeastShare | src/mining/cuda_engine.cpp:472-507 | the least is the configured share of the plan, rounded |
| Engine.ScalesTaken | src/mining/cuda_engine.cpp:460-485 | the scale taken over lies within the configured least (at least 0.2) and 1 and moves by half a percent or more; a hunt is seeded at 0.5 to 1 of the plan |
| Engine.ReplanExactly | src/mining/cuda_engine.cpp:326-361 | a replan that goes through: most lanes under the cap, batch limits kept, pack under the target and leaving the headroom, batch at the scale set |
| Engine.CudaEngine.Replan | src/mining/cuda_engine.cpp:326-361 | on failure only difficulty and caps have changed |
| Engine.CudaEngine.Start | src/mining/cuda_engine.cpp:363-408 | started only after a plan was found |
| Engine.CudaEngine.Stop | src/mining/cuda_engine.cpp:410-415 | not started and without a plan |
| Engine.CudaEngine.SetDifficulty | src/mining/cuda_engine.cpp:417-424 | no-op on the same difficulty, else store then replan |
| Engine.CudaEngine.ReduceLaneCap | src/mining/cuda_engine.cpp:426-432 | one lane fewer at least to 1, lanes capped, batch and plan untouched |
| Engine.CudaEngine.AddLaneCap | src/mining/cuda_engine.cpp:434-442 | one lane more, but lanes never above the plan, the cap or the configuration |
| Engine.LaneCapRoundTrip | src/mining/cuda_engine.cpp:426-442 | taking a lane away and giving it back restores the engine exactly when it used all that cap and plan allow |
| Engine.CudaEngine.RestoreLaneCapIfCool | src/mining/cuda_engine.cpp:444-458 | only when below the cap and cool: full cap, and a replan if started |
| Engine.CudaEngine.SetThermalBatchScale | src/mining/cuda_engine.cpp:460-470 | below half a percent nothing changes; otherwise scale, batch and the hunt's batch move together |
| Engine.CudaEngine.UpdateThermal | src/mining/cuda_engine.cpp:472-507 | seeds the hunt at start_scale, then applies its verdict |
| Engine.ReplanSized | src/mining/cuda_engine.cpp:326-361 | replanning leaves a pack sized by its plan |
| Engine.ApplySized | src/mining/cuda_engine.cpp:326-507 | every engine operation keeps lanes and batch sized by the plan |
| Engine.EngineMemoryBound | src/mining/cuda_engine.cpp:326-507 | over every run a started pack plus overhead is within the plan's target at the difficulty planned for, which is the mined one unless the last replan threw; from the throw on see Headroom.LongRunBound |
| Engine.ReplanBound | src/mining/cuda_engine.cpp:326-361 | a replan that may throw keeps the bound at the mined difficulty if and only if one attempt fits a lane's budget or the running batch fits |
| Engine.SetDifficultyBound | src/mining/cuda_engine.cpp:417-424 | the same if and only if, for the state right after set_difficulty, after any run |
| Engine.RestoreBound | src/mining/cuda_engine.cpp:444-458 | the same if and only if, for the state right after restore_lane_cap_if_cool, after any run |
| Headroom.LongRunBound | src/mining/cuda_engine.cpp:326-507 | over every run: a started engine stays within target at the mined difficulty under all further adjustments, at every point, if and only if each new difficulty fitted a lane's budget or the whole plan in force when it was set |
| Headroom.PeakDecides | src/mining/cuda_engine.cpp:426-507 | a started engine stays within target under all lane, scale and thermal adjustments if and only if its whole plan fits at the difficulty it mines |
| Headroom.PeakComesBack | src/mining/cuda_engine.cpp:426-507 | from any started engine some adjustments bring back every lane and the whole batch |
| Headroom.OpSecureExactly | src/mining/cuda_engine.cpp:326-507 | one operation keeps that headroom if and only if it sets no difficulty that neither replans nor fits the whole plan |
| Headroom.RaiseBreaksBound | src/mining/cuda_engine.cpp:472-507 | a run on an 8 GiB card: after a replan threw the batch still fits, and one cool reading later it does not |
| Headroom.RunRegular | src/mining/cuda_engine.cpp:426-470 | over every run lane caps stay within the configuration, and without thermal control the batch is what the scale makes of the plan |
| Engine.ScaleRange | src/mining/cuda_engine.cpp:460-470 | setting a scale keeps the hunt in range if and only if nothing is rescaled, there is no watermark yet, or the batch stays at or above watermark and minimum |
| Engine.HuntRangeExactly | src/mining/cuda_engine.cpp:326-507 | over every run from construction the hunt is in range throughout if and only if every scale set fits; so always if none is set |
| Engine.ReplannedMeans | src/mining/cuda_engine.cpp:326-361 | what counts as a replan leaves a fresh hunt and the new plan's batch and difficulty |
| Engine.EngineCutsBounded | src/mining/cuda_engine.cpp:472-507 | between two replans the engine's hunt makes at most planned minus seeded watermark cuts |
| Engine.ScaleBreaksRange | src/mining/cuda_engine.cpp:460-470 | a run in which a scale set by hand leaves the batch below the watermark |
| Engine.FailedReplanBreaksBound | src/mining/cuda_engine.cpp:417-424 | on an 8 GiB card a failed replan breaks the bound and a second call repairs nothing |
| Fips180.RoundConstants | src/util/sha256.cpp:15-25 | the 64 constants are the fraction bits of the primes' cube roots |
| Fips180.InitialValues | src/util/sha256.cpp:71-72 | the initial state is the fraction bits of the square roots |
| Fips180Bits.RotrBit | src/util/sha256.cpp:13 | bit i of a rotation by n is bit (i + n) mod 32 |
| Fips180Bits.BigSigmaBits | src/util/sha256.cpp:43-46 | each bit is the parity of the bits 2, 13 and 22 (6, 11 and 25) places on |
| Fips180Bits.SmallSigmaBits | src/util/sha256.cpp:35-36 | each bit is the parity of the bits 7 and 18 (17 and 19) places on and the one 3 (10) above, zero past the end |
| Fips180Bits.ChBit | src/util/sha256.cpp:44 | choice takes the second's bit where the first has a one, else the third's |
| Fips180Bits.MajBit | src/util/sha256.cpp:47 | majority has a one where at least two have |
| Fips180Example.AllRounds | src/util/sha256.cpp:28-57 | on the padded block of "abc" schedule and rounds give the working variables FIPS 180-2 lists |
| Fips180Example.AbcDigest | src/util/sha256.cpp:70-100 | the digest of "abc" is the eight words the standard gives |
| Fips180Example.AbcHex | src/util/sha256.cpp:70-108 | in hex it is ba7816bf 8f01cfea 414140de 5dae2223 b00361a3 96177a9c b410ff61 f20015ad |
| Sha256.FillSchedule | src/util/sha256.cpp:28-39 | the in-place schedule is section 6.2.2's W |
| Sha256.RunRounds | src/util/sha256.cpp:40-60 | 64 rounds over eight variables are the specified fold |
| Sha256.Transform | src/util/sha256.cpp:27-68 | one block in place is the compression function |
| Sha256.StoreLength | src/util/sha256.cpp:93-95 | the last eight bytes hold the bit length, big-endian |
| Sha256.ShortTail | src/util/sha256.cpp:84-96 | with under 56 bytes left one block completes the padding |
| Sha256.LongTail | src/util/sha256.cpp:84-96 | with 56 or more two blocks do |
| Sha256.Finish | src/util/sha256.cpp:84-96 | the tail gives the digest of the padded message |
| Sha256.Sha256Hex | src/util/sha256.cpp:70-108 | the result is the hex of the first bytes of SHA-256 of the input |
| Sha256.DigestByteAt | src/util/sha256.cpp:101-106 | byte i of the digest is byte i % 4 of word i / 4, most significant first |
| Ini.ParseIni | src/config/settings.cpp:41-65 | the parsing loop gives the table of the fold over the lines, last entry winning |
| Ini.SetIniValue | src/config/settings.cpp:131-192 | the loop with its three flags writes the specified file: the pair replaces the key's lines in the section, or goes in where the section ends, or into a new section at the end |
| Ini.WriteLines | src/config/settings.cpp:186-191 | every line is ended by a newline, nothing for no lines |
| Ini.SplitJoin | src/config/settings.cpp:136-191 | written lines read back as the same lines |
| Ini.LineReads | src/config/settings.cpp:46-54 | of any line, blanks aside: # and ; comments, empty lines and lines without = are skipped, a bracketed name is a section |
| Ini.EntryReads | src/config/settings.cpp:53-57 | any other line is the key before the first = and the value after it |
| Ini.InlineComment | src/config/settings.cpp:57-59 | a value ends where a blank and a # first stand together |
| Ini.PairLineReads | src/config/settings.cpp:41-65 | the line the editor writes parses as the key and the stripped value |
| Ini.EditStepInStep | src/config/settings.cpp:151-175 | editor and parser stay in step over one line |
| Ini.EditInStep | src/config/settings.cpp:151-175 | after any prefix of a file the text written so far parses, off the edited entry, as the text read |
| Ini.NewSectionReads | src/config/settings.cpp:180-184 | a section added at the end holds the pair and disturbs nothing |
| Ini.SetThenParse | src/config/settings.cpp:131-192 | for every file, parsing after the edit gives the old table with exactly the named entry replaced |
| Ini.SetThenGet | src/config/settings.cpp:67-74 | a non-empty value reads back exactly when it holds no " #"; all other entries read as before |
| Phc.DecimalRoundTrip | src/mining/argon2_encode.cpp:45-74 | a number written in decimal reads back as itself |
| Phc.CountUppercase | src/mining/block_types.cpp:18-24 | the loop counts exactly the upper-case letters |
| Phc.CostFieldFound | src/mining/argon2_encode.cpp:45-55 | the search finds the real m field, nothing before it |
| Phc.CostRoundTrip | src/mining/argon2_encode.cpp:45-74 | the cost encoded is the cost read back exactly when it is at most INT_MAX, else nothing |
| Phc.DigestRoundTrip | src/mining/block_types.cpp:9-16 | the digest comes back exactly when it holds no '$' |
| Phc.EncodedFields | src/mining/argon2_encode.cpp:57-74 | split at '$' the string has the six PHC fields in place, split at ',' the cost field has m, t and p in that order, each its own value |
| Phc.DigestPart | src/mining/block_types.cpp:9-16 | the digest part is what follows the last '$' of a text that starts with one or holds four, else the text |
| Phc.ClassifyExactly | src/mining/block_types.cpp:26-48 | the kind, from the marks in the hash, at least fifty capitals in its digest part, and the type given |
| Phc.PreparedFields | src/mining/argon2_encode.cpp:76-100 | preparing keeps what the miner reported; a bare digest becomes an encoded one from which cost and digest read back |
| Phc.ClassifyIdempotent | src/mining/block_types.cpp:30-48 | classifying twice is classifying once |
| Phc.PrepareBareSucceeds | src/mining/argon2_encode.cpp:87-93 | preparing a bare digest always succeeds |
| Phc.PrepareRefuses | src/mining/argon2_encode.cpp:76-100 | prepare refuses exactly a find encoded for another cost |
| Phc.PrepareIdempotent | src/mining/argon2_encode.cpp:76-100 | preparing a prepared find changes nothing |

## Left out

- HTTP, the pollers' network code, the updater, wallet, leaderboard and explorer reporting: their results are arbitrary inputs to the steps.
- CUDA, NVML, the hash kernels and the vendor backend: what a lane's batch returns is arbitrary, and so are the driver's memory figures.
- JSON as text, file system failures and partial log lines: the model starts from JSON values; a torn snapshot counts as unreadable and an append as atomic.
- Base64 and `hex_to_bytes`: the encoded salt is a parameter of `Phc.Encode`.
- Floating-point rounding: scales, ages and sizes are exact.
- Sha256.Sha256Hex: inputs of 2^61 bytes or more, where the source's bit length would wrap, are outside its contract, as they are outside FIPS 180-4.
- Sha256.FillSchedule: words are integers below 2^32 with bitwise operations spelled out, so the source's shift-and-or assembly of bytes appears as positional arithmetic.
- Lifecycle.FindsConserved: judges the bag by hash, as `enqueue` does; the finds themselves are the subject of `Finds` and `Twins`.
- Lifecycle.SessionEnd: by hash as well; `Finds.SessionEndThemselves` is about the finds.
- FlushWave.TryFlush: no other thread touches the bag during it. `Lifecycle` has the flush interleaved with everything else, answer by answer, without the network view; `FlushSteps` joins the two.
- Engine.EngineMemoryBound: says nothing at the mined difficulty once a replan has thrown; `Headroom.LongRunBound` does.
- Engine.SetDifficultyBound: is about the state right after the call only, as `Engine.RestoreBound` is; `Headroom.LongRunBound` is about what follows.
- Engine.RestoreBound: as `Engine.SetDifficultyBound`.
- BlockStores.BlockStore.ListFlushBatch: `std::sort` is represented by a specified sort, justified by the order being strict.
- Exceptions thrown by disk or allocation failures, and a signal delivered to a thread that already holds a lock.
- MatchWindow.Oracle.UpdateMatchDrain: log texts, the parked flag and the dashboard are not modelled.
- Failures while lanes are being created (`sync_lanes`, `ensure_lane_workers`); and `note_vram_emergency`, which in the source returns 1.0 and changes nothing.
- Ring behaviour after a lane error or after `mine_batch` throws, and wake-ups of condition variables: a step may happen whenever its guard holds.
- The group scheduling helpers of the engine, which `mine_batch` does not use, and its single-lane path.
- `compute_allow_xuni_base`, `difficulty_power_target_pct`, `normalize_power_range`, settings clamps and metrics: they would only add easy members.
- That rotating the skip id past held blocks starves none: the code does not promise it.
