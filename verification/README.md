# Verification of the miner's hand-off, storage and support algorithms

This project models, in Dafny, the part of the miner that brings a found hash to the pool, and the algorithms
around it, and proves properties of that model over every run or every input. Nothing here runs the miner; the
sources were read and restated, branch by branch.

## What is modelled

**The block store** (`Bags`, `BlockStore`, and the proofs in `BagInvariants`, `Durability`, `JournalRecovery`,
`FlushBatch`, `FlushWave`; JSON records in `Codec`). `Bags` gives every operation of the store as a function on states:
the pending list, the digest index, the id counter, the count of unsaved operations, the database file and the journal.
`BlockStore.BlockStore` is the class that works in place; each of its methods is proved to move its fields exactly as
the function of the same name. A database is a sequence of records and a save is one completed write.

**The hand-off protocol** (`Protocol`, `Routing`, `Responses`, `WavePool`, and the proofs in `Conservation`,
`WaveReasons`, `EndReasons` and `Sending`). The mining thread, the submit worker, the threads of a flush wave and the
console handler take turns in any order; a step holds one mutex or makes one access to an atomic. Answers of the pool
and readings of the gates are inputs of the steps. Both shutdown paths of the mining thread, the exit path of the worker
and the console path are included. A wave carries the digest under which a block lies in the store; building its PHC
string again before it is sent never fails (`Phc.RawDigestPrepares`) and does not change which block it is.

**The difficulty view and the match-drain window** (`MatchDrain` on values with whole method bodies as steps, class
`Oracle.Oracle` in place, and `DrainThreads` with any number of threads, one access to shared state at a time, over a
bag that other threads add to and take from; `DrainRuns` has runs of it from the start).

**The lane mailbox ring** (`LaneRing`), one load or store at a time, the lanes together (`LanePasses`), and **the
dev-fee cycle** (`DevFee`).

**Self-contained algorithms**: the PHC encoder and decoder and the block types (`Phc`), the ini parser and editor on
the text of the file (`Ini`), streaming SHA-256 against FIPS 180-4 (`Sha256`, with its constants in `Sha256Tables`),
the thermal hunt (`Thermal`), the batch planner (`Vram`). `Seqs`, `Text`, `Blocks` and `Policy` hold what they share.

Run `dafny verify dfyconfig.toml` to check everything.

## Findings

- `BlockStore::load` evaluates `next_id_++` for each row even when the row has an id, so a clean restart moves the
  id counter on by the number of rows (`Durability.RestartKeepsList`).
- `BlockStore::load` reads the id counter through a 32-bit int. Index and list agree all the same
  (`Durability.RunDurable`), but ids stay positive exactly as long as no empty store is reopened on a counter that reads
  as less than 1 (`Durability.RunPositive`); `enqueue` answers 0 for a duplicate.
- A hit whose attempt count does not fit 32 bits comes back from disk with another count (`Codec.HitRoundTrip`); a clean
  restart gives the same list exactly when all counts fit.
- The "prepare failed" removal in a flush wave cannot happen (`Phc.RawDigestPrepares`).
- An open drain window can be at an m that is not the last-good one, in exactly three ways
  (`DrainThreads.WindowExactly`, `DrainThreads.Strays`): between the store of another m and the end of the update after
  it; when it is opened on a match that a later answer has overtaken; and when the update after the answer finds the
  network down, which takes three failed polls of another thread between the store and that update
  (`DrainRuns.DownLookReached`). In the last two it stays so until an update runs while the network is up, the pinned m
  is reported, or its time is spent. A wave aimed meanwhile goes out at the pinned m (`DrainRuns.MisaimReached`).
- An open drain window can be shut although the last-good m is the pinned one, pinned blocks wait and there is time
  left: exactly when all that the update goes by has been overtaken before it shuts the window, its count by a block,
  its mismatch by an answer, the end it read by a later window (`DrainThreads.ClosesAgainst`). At the default settings
  an update that counted before the first block came shuts the window that another thread opened for that block
  (`DrainRuns.ShutOnOldCount`); an overtaken mismatch does the same (`DrainRuns.ShutOnOldMismatch`).
- A window loses its time budget when the thread that shut the one before clears the end only after this one was
  opened; it then has no end (`DrainThreads.EndExactly`, `DrainThreads.EndLost`, `DrainRuns.WipedBudgetReached`).
- `set_ini_value` called twice is not idempotent on a file with a line that ends in two carriage returns
  (`Ini.DoubleReturnChanges`), unless that line is one it replaces (`Ini.SetTwice`); on any other file it is
  (`Ini.OrdinaryFileSettles`).
- A hot thermal reading that comes before the settling time lifts the floor to the batch, and then nothing is cut,
  however hot, until a reading has raised the batch (`Thermal.HotTooSoon`). The raise settling time of the interface has
  no effect on any decision.
- After the parameters change, one result of the old parameters per lane can still be taken
  (`LaneRing.StaleIsTaken`), never more (`LaneRing.OneStalePerKick`).
- A failed result stays at the head of its lane: every later `mine_batch` throws there, and throws away one good result
  of each lane before it, until the parameters change or the lanes are restarted (`LanePasses.BadHeadSticks`,
  `LanePasses.PassWastes`).
- For a wallet that is the fee address itself, hits of a drain are flagged as fee after 99 finds (`DevFee.OwnAddress`).
- The fee flag on hits of `drain_pipeline` differs from the account they were mined for exactly when the batch before
  ended a phase of the cycle (`DevFee.DrainAgrees`).

## Model

| member | source | states |
|---|---|---|
| `Blocks.Wrap32` | src/queue/store.cpp:33-51 | a number read back through a 32-bit int is unchanged exactly when it fits |
| `Blocks.WrapsModulo` | src/queue/store.cpp:33-51 | otherwise it is off by a multiple of 2^32 |
| `Codec.HitRoundTrip` | src/queue/store.cpp:18-51 | a hit written to JSON and read back is the same hit, exactly when its attempt count fits 32 bits; otherwise only that count differs |
| `Codec.RowRoundTrip` | src/queue/store.cpp:116-127 | a database row read back is the block that was saved, up to the attempt count |
| `Codec.JournalRoundTrip` | src/queue/store.cpp:218-225 | the hit read back from a journal line is the hit that was enqueued, up to the attempt count |
| `Codec.Defaults` | src/queue/store.cpp:33-51 | what missing members of a record stand for |
| `Codec.CostMember` | src/queue/store.cpp:41-43 | a memory cost comes back as it was, and a null or nothing as none |
| `BlockStore.BlockStore.SaveDb` | src/queue/store.cpp:169-185 | writes one row per pending block, in order, with the id counter, and clears the dirty count |
| `BlockStore.BlockStore.MarkDirtyThenMaybeSave` | src/queue/store.cpp:187-191 | saves at the eighth unsaved operation |
| `BlockStore.BlockStore.Flush` | src/queue/store.cpp:193-196 | saves if anything is unsaved |
| `BlockStore.BlockStore.Enqueue` | src/queue/store.cpp:227-248 | a digest that is there is refused with id 0 and nothing changes; otherwise the hit itself is appended, with the reason and under the id that is returned, with index, counter, journal line and lazy save |
| `BlockStore.BlockStore.EraseIf` | src/queue/store.cpp:309-322 | the erase-remove loop keeps the rest in order and takes exactly the digests of the removed blocks out of the index |
| `BlockStore.BlockStore.DropByHash` | src/queue/store.cpp:198-216 | removes the blocks with those digests and says how many; saves only if there were any |
| `BlockStore.BlockStore.MarkSubmittedMany` | src/queue/store.cpp:309-324 | removing ids one by one equals removing them at once, and saves; nothing for an empty list |
| `BlockStore.BlockStore.MarkPendingReason` | src/queue/store.cpp:326-336 | changes the reason of the first block with the id and nothing else, with a lazy save |
| `BlockStore.BlockStore.MarkForwardedMany` | src/queue/store.cpp:261-274 | flags the first block with each id, and saves |
| `BlockStore.BlockStore.DeferAllToNextStart` | src/queue/store.cpp:407-420 | every reason becomes the one for the next start, XUNI outside its window its own, and saves |
| `BlockStore.CountMatching` | src/queue/store.cpp:343-351 | the loop counts exactly the blocks of that memory cost |
| `BlockStore.BlockStore.PendingMatchingM` | src/queue/store.cpp:343-351 | the same for the pending list |
| `BlockStore.BlockStore.ListFlushBatch` | src/queue/store.cpp:370-405 | the loop with its early exits returns the specified wave |
| `BlockStore.BlockStore.Scan` | src/queue/store.cpp:380-392 | the two lists of the scan are the first blocks of either kind, as many as the cap |
| `BlockStore.BlockStore.RecoverJsonl` | src/queue/store.cpp:138-167 | replays the journal line by line on what is loaded and saves if that added blocks; fails exactly when a line throws |
| `BlockStore.BlockStore.LoadDb` | src/queue/store.cpp:115-130 | loads rows up to the first that throws |
| `BlockStore.BlockStore.Load` | src/queue/store.cpp:101-136 | loading with its fallbacks to the journal |
| `BagInvariants.AppendAgrees` | src/queue/store.cpp:124-126 | appending a block with a fresh digest and id keeps index and list in agreement |
| `BagInvariants.DigestsSplit` | src/queue/store.cpp:314-320 | the digests of what stays are the old digests less those of what goes |
| `BagInvariants.RecoverAgrees` | src/queue/store.cpp:101-167 | whatever the two files hold, a store that opens agrees with its index exactly when the rows that were loaded have distinct ids and digests |
| `BagInvariants.OpAgrees` | src/queue/store.cpp:198-336 | every operation keeps: the index is the set of non-empty digests of the list, digests and ids are distinct, ids are below the counter |
| `BagInvariants.DeferReasons` | src/queue/store.cpp:407-420 | put off to the next start, a block of type XUNI outside minutes 55 to 4 waits for its window and any other for the start; nothing else of it changes |
| `BagInvariants.ForwardsExactly` | src/queue/store.cpp:261-274 | exactly the blocks with those ids become forwarded, and nothing else changes |
| `BagInvariants.RemovesExactly` | src/queue/store.cpp:198-324 | removals leave exactly the blocks without those ids or digests, in order |
| `Durability.EnqueueDurable` | src/queue/store.cpp:227-243 | enqueueing keeps the saved list a prefix of memory and at most seven blocks behind, or the journal sufficient before the first save |
| `Durability.LoadSaved` | src/queue/store.cpp:101-136 | loading a saved file gives exactly the saved blocks, their digests, and a counter beyond every id, whatever counter the file says |
| `Durability.LoadOnlyJournal` | src/queue/store.cpp:138-167 | before the first save, replaying the journal gives back every pending block with a digest |
| `Durability.CrashLosesLittle` | src/queue/store.cpp:187-243 | a crash between two operations loses at most the last seven enqueues and brings back no removed block; with nothing unsaved the list comes back whole, reasons included |
| `Durability.RestartKeepsList` | src/queue/store.cpp:96-136 | a clean restart, with or without anything unsaved, gives the list back with its reasons and digests, and the same list exactly when attempt counts fit; after a save the counter has grown by the number of rows exactly when it fits 32 bits |
| `Durability.StepDurable` | src/queue/store.cpp:96-336 | every operation, clean restart and crash keeps both invariants of the store |
| `Durability.RunDurable` | src/queue/store.cpp:96-336 | so does every sequence of them |
| `Durability.SavedReopensPositive` | src/queue/store.cpp:114-122 | after a save and a reopening, ids and counter are positive exactly when there is a block or the counter, read through 32 bits, is |
| `Durability.RunPositive` | src/queue/store.cpp:96-336 | over a run they stay positive exactly when no step reopens an empty store on a counter read as less than 1 |
| `Durability.FirstSessionDurable` | src/queue/store.cpp:101-112 | a session that opens without a readable database, whatever the journal holds, starts in those invariants with positive ids; a first installation with an empty list |
| `JournalRecovery.RecoversFirsts` | src/queue/store.cpp:138-167 | replay yields one block per distinct non-empty digest of the journal, in first-occurrence order |
| `JournalRecovery.LostDatabase` | src/queue/store.cpp:101-167 | the same for a store opened on a lost or unreadable database, with distinct ids |
| `JournalRecovery.RunComplete` | src/queue/store.cpp:218-243 | after every run each pending digest has a readable journal line |
| `JournalRecovery.LostDatabaseLosesNoDigest` | src/queue/store.cpp:138-243 | after every run of a session that opened without a readable database, on any journal whose lines are readable, losing the database once more loses no pending digest, saved or not, and the session after that starts in the invariants again |
| `JournalRecovery.RecoveredWhole` | src/queue/store.cpp:138-165 | a replayed block has the hit and the reason of its journal line, and its id unless that is taken or not positive |
| `JournalRecovery.NoRowsCounts` | src/queue/store.cpp:101-136 | a database without rows keeps its counter, cut to 32 bits, and is written anew exactly if the journal gave blocks |
| `FlushBatch.SortedInOrder` | src/queue/store.cpp:398-403 | the wave is sorted by priority, then id |
| `FlushBatch.ChosenCount` | src/queue/store.cpp:373-397 | as many blocks as the limit and the eligible blocks allow, exactly |
| `FlushBatch.ChosenEarliest` | src/queue/store.cpp:388-397 | of each part, the earliest in bag order |
| `FlushBatch.WaveIsRight` | src/queue/store.cpp:370-405 | distinct eligible blocks in order, of exactly that number; blocks before the rotation point only when all eligible ones after it are in |
| `FlushBatch.AllChosen` | src/queue/store.cpp:370-397 | without a limit a batch is exactly what is eligible |
| `FlushBatch.RotationWraps` | src/queue/store.cpp:377-397 | a block before the rotation point goes out only with every eligible one from there on |
| `FlushBatch.SoonerFirst` | src/queue/store.cpp:398-403 | of two blocks of a batch the one of the sooner kind comes first, and of one kind the smaller id |
| `FlushBatch.EligibleExactly` | src/queue/store.cpp:380-387 | a block is eligible by its own memory cost or the default, and XUNI by the hour |
| `Policy.KindsInOrder` | src/queue/policy.cpp:53-61 | plain blocks before superblocks before XUNI, whatever the case of the name; unknown kinds last |
| `FlushWave.TakesFirst` | src/app/supervisor.cpp:980-1004 | a wave takes the sendable blocks of its batch in order, as many as its size allows, and all of them without a size |
| `FlushWave.WaveHoldsAll` | src/app/supervisor.cpp:955-1004 | a drain without a limit and the last wave hold every block of the aimed m whose hour it is; other waves hold up to the limit, 64 outside a drain, of a batch twice that size |
| `Responses.FlushOutcome` | src/network/submitter.cpp:22-78 | each of the four branches is reached exactly for its class of answers |
| `Responses.ShortPhrases` | src/network/submitter.cpp:27-56 | a wrong memory cost and a closed window are told by their shortest phrases alone |
| `Responses.OutcomeTable` | src/network/submitter.cpp:22-78 | what becomes of a block by the status and the words of the answer |
| `Routing.DropsExactly` | src/app/supervisor.cpp:755-903 | with storing on no branch drops a prepared hit; with it off, exactly the stated ones do |
| `Routing.PostsExactly` | src/app/supervisor.cpp:755-850 | exactly when a hit is handed to the live queue, and exactly when it is posted |
| `Routing.ReasonsTell` | src/app/supervisor.cpp:755-842 | the reason of a bagged hit tells why it could not go out |
| `Routing.ReasonsExactly` | src/app/supervisor.cpp:755-842 | with storing on, the reason or the way of every hit by the gates that were read |
| `Routing.RefusedReasons` | src/app/supervisor.cpp:860-903 | the reason of a hit that the pool refused, by status and words |
| `WavePool.PoolStepInv` | src/app/supervisor.cpp:1014-1105 | every access keeps: each issued index is with one worker or filed once, and the counters add up with the answers filed but not yet counted |
| `WavePool.JoinedWave` | src/app/supervisor.cpp:1014-1123 | in every interleaving, at the join the indices sent are exactly a prefix of the work, each once, and each of the four counters is the number of answers of its class, which are all of them, even after an early stop |
| `WavePool.SendsAll` | src/app/supervisor.cpp:1072-1105 | a pool that does not obey the stop flag, or never sees it, gets an answer for all of its work |
| `WavePool.StopsSoon` | src/app/supervisor.cpp:1078-1105 | once the flag is up an ordinary pool gets at most one more answer for each worker |
| `Conservation.EnqueueQuiet` | src/queue/store.cpp:227-243 | an enqueue loses no digest, removes no block and leaves the list before it alone |
| `Conservation.EnqueueStores` | src/queue/store.cpp:227-248 | a hit whose digest is not bagged is stored as a value, with its reason, under the id that is returned; otherwise nothing changes and a block has its digest |
| `Conservation.MinerKeeps` | src/app/supervisor.cpp:724-811 | no step of the mining thread lets a hit go but into the store, with storing on |
| `Conservation.JobKeeps` | src/app/supervisor.cpp:813-903 | no step of the worker on its live jobs does, but to the pool |
| `Conservation.FlushKeeps` | src/app/supervisor.cpp:905-1132 | a flush wave neither takes a hit into hands nor lets one go |
| `Conservation.EndKeeps` | src/app/supervisor.cpp:1288-1303 | nor does the exit of the worker |
| `Conservation.ConsoleKeeps` | src/app/supervisor.cpp:137-152 | nor does the console handler |
| `Conservation.AcceptedBlock` | src/app/supervisor.cpp:1033-1040 | a block that carries an accepted id is the block that was accepted |
| `Conservation.CommitLosesNothing` | src/app/supervisor.cpp:1125-1132 | the removal at the end of a wave takes only hits that were accepted |
| `Conservation.MinerInv` | src/app/supervisor.cpp:1349-1402 | every step of the mining thread keeps the invariant of the protocol, through both shutdown paths |
| `Conservation.JobInv` | src/app/supervisor.cpp:1240-1286 | so does every step on live jobs |
| `Conservation.FlushInv` | src/app/supervisor.cpp:905-1123 | so does every step of a wave |
| `Conservation.CommitInv` | src/app/supervisor.cpp:1125-1132 | so does the end of a wave |
| `Conservation.EndInv` | src/app/supervisor.cpp:1288-1303 | so does every step of the worker's exit |
| `Conservation.ConsoleInv` | src/app/supervisor.cpp:119-152 | so does every step of the console handler |
| `Conservation.AfterInv` | src/app/supervisor.cpp:1240-1402 | so does every run |
| `Conservation.NoHitLost` | src/app/supervisor.cpp:119-152 | with storing on, after every run each prepared hit, key, account and all, is in a thread's hands, in the live queue, in the store or accepted, or another known hit with its digest is |
| `Conservation.NothingInvented` | src/app/supervisor.cpp:724-1303 | whatever is held, stored or accepted is, as a value, a hit that was prepared or was stored at the start |
| `Conservation.AcceptedExactly` | src/app/supervisor.cpp:1029-1053 | a hit counts as accepted exactly when the run holds an answer to its own submit with a status from 200 to 299 or the words of a duplicate |
| `Conservation.SessionEnd` | src/app/supervisor.cpp:1376-1402 | once finalize_session has returned and the console handler is idle, the file holds every pending block, the next session opens with exactly these digests, and each prepared hit is among them as a value, up to an attempt count cut to 32 bits, or accepted, or another known hit with its digest is; it opens with exactly this list, reasons included, if nothing was unsaved, and in any case after the destructor |
| `Conservation.WaveRemovesAccepted` | src/app/supervisor.cpp:975-1132 | in every run, the list after a wave is the list it started from, grown at its end, less exactly the blocks for whose id an answer accepted an item, in order, unchanged but for reasons (for which see `WaveReasons.RejectsAlone`); the counters are the numbers of answers of each class |
| `WaveReasons.NextReasons` | src/app/supervisor.cpp:1014-1123 | every step of every thread keeps what is known of the reasons |
| `WaveReasons.RejectsAlone` | src/app/supervisor.cpp:975-1123 | in every run, at every moment of a wave, and unless all reasons have been rewritten since it was selected, each block of the list it was selected from is as it was, but that its reason is "resubmission" exactly when an item of the wave with its id was answered as a reject |
| `EndReasons.EverythingPutOff` | src/app/supervisor.cpp:1288-1402 | in every run, once finalize_session has returned, every block that is left waits for the next start, or is XUNI and waits for its window, or was refused |
| `Sending.NeverSends` | src/app/supervisor.cpp:755-1303 | with submits off nothing is ever handed over, posted, sent in a wave or accepted |
| `Sending.LooksExactly` | src/app/supervisor.cpp:1256-1286 | what becomes of the batch that the worker takes, with which reason |
| `Sending.LeavesWhenTold` | src/app/supervisor.cpp:1288-1303 | in every run the worker ends only after it has been told to |
| `Sending.LeavesExactly` | src/app/supervisor.cpp:1288-1301 | and then it does, with a last wave exactly if submits are on and no shutdown is under way or live submits may go out |
| `Sending.LastWaveSendsAll` | src/app/supervisor.cpp:1072-1105 | in every run the last wave gets an answer for every block it was to send |
| `Sending.ToldBeforeJoin` | src/app/supervisor.cpp:119-152 | in every run both shutdown paths wait only for a worker that has been told to leave, and the console handler takes the queue only after it has told it |
| `Sending.ServesOn` | src/app/supervisor.cpp:1180-1222 | the worker serves the queue wave after wave and only then checks whether to go on |
| `Sending.NoNewPost` | src/app/supervisor.cpp:813-850 | once the shutdown flag is up it stays up and no new post begins |
| `Sending.PostStarts` | src/app/supervisor.cpp:813-850 | a post begins only outside shutdown, with submits on, for the next hit of the batch |
| `Sending.FlagIsUp` | src/app/supervisor.cpp:119-152 | in every run the mining thread shuts down, the console handler works and the worker is told to stop only with the shutdown flag up |
| `Sending.DecidesExactly` | src/app/supervisor.cpp:755-811 | with storing on, the reason or the way of a hit in hand, by the flag and the gates at that step |
| `Sending.RoutesExactly` | src/app/supervisor.cpp:813-850 | and of the next hit of the batch before its post |
| `Sending.AnswersExactly` | src/app/supervisor.cpp:852-903 | what becomes of a posted hit, by status and words of the answer |
| `Sending.QueueInOrder` | src/app/supervisor.cpp:1240-1286 | hits go through the live queue in the order they were handed over, each once |
| `MatchDrain.FlushBeyondLive` | src/app/supervisor.cpp:197-229 | flushing is allowed whenever live submits are, and beyond that exactly in a pause that an open window ignores |
| `DrainThreads.NextInv` | src/app/supervisor.cpp:327-628 | every access that a thread makes while it polls, updates the window or aims a wave, and every block that comes or goes, keeps the invariant below |
| `DrainThreads.WindowExactly` | src/app/supervisor.cpp:327-628 | in every interleaving of any number of threads, an open window is not at the last-good m exactly when the thread that stored the latest answer, another m, has not moved the window yet, or the window has gone astray |
| `DrainThreads.Strays` | src/app/supervisor.cpp:355-390 | a window goes astray only when it is opened on a match that a later answer has overtaken, or when the thread that stored another m leaves it open because the network counted as down |
| `DrainThreads.StrayEnds` | src/app/supervisor.cpp:355-390 | it is put right only when it closes, is opened afresh on a match that holds, or the pinned m is reported |
| `DrainThreads.AtPinBetweenUpdates` | src/app/supervisor.cpp:327-409 | while no thread is in an update and no window is astray, an open window is at the last-good m |
| `DrainThreads.WaveExactly` | src/app/supervisor.cpp:905-975 | in every interleaving, an aimed wave is at the last-good m exactly when the latest answer stored since it was aimed is its target or, without one, the window it went by was not off |
| `DrainThreads.ClosesAgainst` | src/app/supervisor.cpp:349-381 | in every interleaving, an open window is shut exactly by the store of a closing update, which has counted none at the pinned m, read a mismatch or read an end that has passed; it is shut against the present state (last-good m pinned, pinned blocks waiting, time left) exactly when all of these have been overtaken: the count by a block that still waits with no other m stored last, the mismatch by the pinned m stored last, the end by a later window |
| `DrainThreads.ClosesRightly` | src/app/supervisor.cpp:349-381 | an update that no added block, no pinned answer and no other window has overtaken closes rightly |
| `DrainThreads.EndExactly` | src/app/supervisor.cpp:355-387 | in every interleaving the stored end is that of the latest opening, or its opener has yet to store it, or another thread has stored its own after it |
| `DrainThreads.EndLost` | src/app/supervisor.cpp:368-387 | which step loses the end, which one gives a window its end again, and what is stored by each |
| `DrainRuns.StoreMisaims` | src/app/supervisor.cpp:505-564 | without any stale read, an answer stored under an open window misaims the wave of another thread until the update |
| `DrainRuns.MisaimReached` | src/app/supervisor.cpp:505-564 | two threads reach that from the start |
| `DrainRuns.DownLookStrays` | src/app/supervisor.cpp:270-368 | the update of the thread that stored another m leaves the window open when the network counts as down |
| `DrainRuns.DownLookReached` | src/app/supervisor.cpp:569-595 | two threads reach that from the start, with three failed polls between the store and the update |
| `DrainRuns.NextUpdateShuts` | src/app/supervisor.cpp:355-381 | any update that runs alone while the network is up shuts a window that is not at the last-good m |
| `DrainRuns.AloneIsUpdate` | src/app/supervisor.cpp:327-409 | an update that runs alone does what the whole body does |
| `DrainRuns.ShutOnOldCount` | src/app/supervisor.cpp:349-390 | from the start, with two threads and no answer but the pinned m, a window is shut while a pinned block waits and no time is spent |
| `DrainRuns.ShutOnOldMismatch` | src/app/supervisor.cpp:348-381 | from the start, with two threads and no added block since the count, a window is shut on a mismatch after the pinned m has been stored again |
| `DrainRuns.WipedBudgetReached` | src/app/supervisor.cpp:368-387 | from the start, with a time budget set, two threads reach an open window that never times out |
| `DrainRuns.TakenUpOnce` | src/app/supervisor.cpp:480-498 | a status that any thread has taken up is not taken up again by a poll that does not wait, until another one is |
| `DrainRuns.AimsAnew` | src/app/supervisor.cpp:905-975 | a thread that has sent its wave aims the next one at what it then reads |
| `MatchDrain.WindowAtPin` | src/app/supervisor.cpp:327-409 | in every run of bodies that do not overlap, an open window means pinned, submitting and draining, at the last-good m |
| `MatchDrain.FlushAtLastGood` | src/app/supervisor.cpp:277-283 | in such a run every wave is aimed at the last-good m, draining or not |
| `MatchDrain.FailedPollsKeepOpen` | src/app/supervisor.cpp:569-627 | any number of failed polls leaves an open window open and the last-good m as it was |
| `MatchDrain.ClosesExactly` | src/app/supervisor.cpp:355-381 | in runs of bodies that do not overlap, an open window closes in a step if and only if the step looks at the bag and finds none of the pinned m, the time spent, or has just been told another m |
| `MatchDrain.OpensExactly` | src/app/supervisor.cpp:327-390 | in such runs, a shut window opens in a step if and only if the miner is pinned, submits and drains, and the step looks at the bag with the pinned m as the last-good one and at least the configured number waiting; and what end it gets |
| `MatchDrain.NoNumberNoMismatch` | src/app/supervisor.cpp:269-275 | without a last-good m there is no mismatch |
| `MatchDrain.TargetExactly` | src/app/supervisor.cpp:277-283 | on a sound window a wave is aimed at the last-good m, and when it drains |
| `MatchDrain.NothingBeforeAnswer` | src/app/supervisor.cpp:197-229 | nothing goes out with submits off or before the first answer |
| `MatchDrain.TakenOpens` | src/app/supervisor.cpp:1029-1042 | a block that the pool takes ends every pause but that for a change of m |
| `MatchDrain.HeldWavePauses` | src/app/supervisor.cpp:1154-1160 | an ordinary wave without one accept holds everything but an open window back for two seconds |
| `MatchDrain.FallBackIsDown` | src/app/supervisor.cpp:1461-1472 | a start without an answer goes by the configured m and counts as down |
| `MatchDrain.AnswerHolds` | src/app/supervisor.cpp:500-522 | one answer holds submits and flushes back in classic mode, for five seconds or the sampling interval, exactly if it reports another m |
| `MatchDrain.OnlyChangesHold` | src/app/supervisor.cpp:500-522 | after any series of answers they are held back exactly until the pause of the last answer that changed m is over |
| `MatchDrain.FirstAnswer` | src/app/supervisor.cpp:505-518 | the first answer pauses nothing, and what stands for a number out of range |
| `MatchDrain.SnapshotOnce` | src/app/supervisor.cpp:494-499 | a snapshot of the poller counts once, as an answer or as a failure |
| `MatchDrain.UpAfterMisses` | src/app/supervisor.cpp:569-595 | after an answer and any number of failed polls the network is up exactly while both budgets hold: six and 120 s at the pinned m, three and 60 s otherwise |
| `MatchDrain.DeadProbeBlocks` | src/app/supervisor.cpp:197-260 | a probe that finds the pool dead holds live submits and flushes back until it expires, and has no effect afterwards |
| `MatchDrain.MissesInARow` | src/app/supervisor.cpp:569-595 | after failed polls in a row the network counts as up exactly while both budgets hold |
| `MatchDrain.RefusalHolds` | src/app/supervisor.cpp:423-451 | a refused submit holds live submits back until exactly the end of its pause, at least three seconds outside a window; an open window flushes on |
| `MatchDrain.RefusalsInARow` | src/app/supervisor.cpp:423-451 | through a series of refusals the network stays up exactly when the last-good m is pinned, a window is open, or all were rate limits; window and last-good m do not move |
| `MatchDrain.AbsorbedLast` | src/app/supervisor.cpp:500-522 | after a series of answers the last-good m is the last plausible one |
| `MatchDrain.OpensOnStaleRead` | src/app/supervisor.cpp:339-390 | one overlap: with answers stored between read and decision a shut window opens, and is at the last-good m exactly when the last plausible answer is the pinned m |
| `MatchDrain.StaleWindowStays` | src/app/supervisor.cpp:355-381 | such a window outlives three failed polls and any bag, aimed at an m that is not the last-good one |
| `Oracle.Oracle.UpdateMatchDrain` | src/app/supervisor.cpp:327-409 | the method makes exactly the specified move |
| `Oracle.Oracle.NoteDifficulty` | src/app/supervisor.cpp:500-522 | what a poll with a number changes |
| `Oracle.Oracle.NoteMiss` | src/app/supervisor.cpp:569-595 | what a poll without one changes |
| `Oracle.Oracle.RefreshNetwork` | src/app/supervisor.cpp:480-628 | the whole refresh, with the answer it gives |
| `Oracle.Oracle.NoteTransportFailure` | src/app/supervisor.cpp:423-451 | the method makes exactly the move that the two results on refusals are about |
| `Oracle.Oracle.VerifyReadyToPush` | src/app/supervisor.cpp:231-260 | the cached probe |
| `Oracle.Oracle.PassFirst` | src/app/supervisor.cpp:905-929 | the whole state after the gates before the poll; a poll is made only for a wave that does not drain and may flush, or is the last; only a dead pool or a closed flush gate stops a pinned miner |
| `Oracle.Oracle.PassGates` | src/app/supervisor.cpp:905-949 | the whole state is that after the named bodies; a wave that passes was allowed; nothing but a dead pool holds a pinned miner back from draining or from its last wave; a sound window stays sound |
| `Oracle.Oracle.PlanWave` | src/app/supervisor.cpp:905-1004 | the whole state is that after the named bodies and perhaps a moved rotation point; every block of a wave may be sent now and is of the m it is aimed at, which is the last-good m if the window was sound; a wave of nothing moves the rotation point past its batch |
| `Oracle.ChooseWork` | src/app/supervisor.cpp:980-1004 | the loop that stops when the wave is full takes the first sendable blocks |
| `Oracle.ChosenRight` | src/app/supervisor.cpp:984-989 | a wave never holds blocks of another m |
| `LaneRing.OtherSlot` | src/mining/cuda_engine.cpp:190-194 | the slot that is written is not that of any unread result |
| `LaneRing.WorkerInv` | src/mining/cuda_engine.cpp:119-199 | every load and store of the worker keeps the invariant of the ring |
| `LaneRing.ConsumerInv` | src/mining/cuda_engine.cpp:672-724 | so does every one of mine_batch, also when it leaves early |
| `LaneRing.AfterInv` | src/mining/cuda_engine.cpp:119-199 | so does every interleaving |
| `LaneRing.RefinesQueue` | src/mining/cuda_engine.cpp:672-724 | each step is a step of a FIFO queue of at most four, or none: a count appends, a take gives the head, only a kick drops, from the front |
| `LaneRing.RingIsSafe` | src/mining/cuda_engine.cpp:160-197 | in every interleaving 0 <= produced - consumed <= 4, unread results lie unharmed in their slots, and what is taken is what was produced at that place |
| `LaneRing.ResultsKeepParams` | src/mining/cuda_engine.cpp:128-146 | every result was computed with the parameters published with its generation, which are never without salt, difficulty or batch, and generations never go back |
| `LaneRing.KicksExactly` | src/mining/cuda_engine.cpp:672-697 | in every interleaving the generations published are the parameters of the calls with repetitions as one; so calls that change nothing skip no result, and each change skips at most four |
| `LaneRing.WaitsExactly` | src/mining/cuda_engine.cpp:156-164 | a worker waits exactly while four results are unread and neither kick nor stop has come, mine_batch exactly while there is none |
| `LaneRing.StopsSoon` | src/mining/cuda_engine.cpp:151-170 | once the lanes are told to stop a worker counts at most the batch it is in |
| `LaneRing.OneStalePerKick` | src/mining/cuda_engine.cpp:162-176 | after a kick only the first counted result can be of an older generation; fewer late takes than kicks |
| `LaneRing.StaleIsTaken` | src/mining/cuda_engine.cpp:675-724 | and that one is real: it can be taken whenever a kick meets a running batch |
| `LaneRing.BadHeadStays` | src/mining/cuda_engine.cpp:713-724 | a bad result at the head stays there through every step but a kick and is never taken |
| `LanePasses.TakeHeads` | src/mining/cuda_engine.cpp:713-724 | the consuming loop takes the heads of the lanes before the first bad one, and all of them when there is none |
| `LanePasses.BadHeadSticks` | src/mining/cuda_engine.cpp:672-724 | once a lane has a bad head nothing is delivered any more, whatever is produced, until that lane is kicked or the lanes are restarted |
| `LanePasses.PassWastes` | src/mining/cuda_engine.cpp:713-724 | each such pass costs every lane before the first bad head one good result |
| `LanePasses.EachOnceInOrder` | src/mining/cuda_engine.cpp:672-724 | as long as all results are good and nothing is kicked or restarted, every lane's results are handed out once each, in the order they were produced |
| `LanePasses.KickTakesFront` | src/mining/cuda_engine.cpp:672-724 | a kick takes results from the front of its lane alone, a restart all of them |
| `DevFee.FeeCycle.SelectPayoutSalt` | src/mining/cuda_engine.cpp:551-567 | the account that the next batch runs for |
| `DevFee.FeeCycle.StampAndCountHits` | src/mining/cuda_engine.cpp:569-583 | how a batch moves the cycle |
| `DevFee.FeeShare` | src/mining/cuda_engine.cpp:569-583 | in every prefix of a run 99 times the fee finds is at most b times the user finds, and the user has at most 98 + b finds for each of the fee and the cycle under way |
| `DevFee.OneInAHundred` | src/mining/cuda_engine.cpp:569-583 | with single-hit batches the fee has exactly the floor of a hundredth of all finds |
| `DevFee.FeeOff` | src/mining/cuda_engine.cpp:551-583 | with the fee off nothing is ever flagged, by batches or by drains |
| `DevFee.OwnAddress` | src/mining/cuda_engine.cpp:551-583 | for the fee address itself no batch is flagged, and a drain is, all of it, exactly when the batch before it had hits and brought the finds to 99 |
| `DevFee.OwnAddressRun` | src/mining/cuda_engine.cpp:551-583 | so without drains it never has a flagged find |
| `DevFee.DrainAgrees` | src/mining/cuda_engine.cpp:739-760 | when the flag on drained hits is that of their account |
| `Phc.DecimalRoundTrip` | src/mining/argon2_encode.cpp:45-74 | a number written in decimal is read back |
| `Phc.CostRoundTrip` | src/mining/argon2_encode.cpp:45-74 | the memory cost in an encoded hash is read back, whatever salt and digest hold; a negative cost is not |
| `Phc.CountUppercase` | src/mining/block_types.cpp:18-24 | the loop counts the upper-case letters |
| `Phc.NormaliseType` | src/mining/block_types.cpp:31-36 | the loops leave the type upper-cased, without null characters and trimmed |
| `Phc.Classify` | src/mining/block_types.cpp:30-48 | the whole classification |
| `Phc.ClassifyTwice` | src/mining/block_types.cpp:30-50 | classifying by the type just given changes nothing |
| `Phc.RawDigestPrepares` | src/mining/argon2_encode.cpp:87-99 | preparing a raw digest never fails, and sets digest, type and cost and nothing else |
| `Phc.EncodeReads` | src/mining/argon2_encode.cpp:59-74 | a reader of the PHC format gets back each field that was written |
| `Phc.DigestPart` | src/mining/block_types.cpp:9-16 | what follows the last dollar counts alone exactly if the hash begins with a dollar or has four of them |
| `Phc.SuperblockByDigest` | src/mining/block_types.cpp:9-28 | a superblock in PHC form is judged by the capitals of its digest alone |
| `Phc.ClassPrecedence` | src/mining/block_types.cpp:30-48 | XUNI before superblocks before plain blocks, each by the hash or the given type |
| `Phc.PrepareTwice` | src/mining/argon2_encode.cpp:76-102 | a prepared hit is prepared again to itself at its cost, and refused at another |
| `Ini.ParseIni` | src/config/settings.cpp:42-66 | the loop reads the table that the lines say |
| `Ini.SetIniValue` | src/config/settings.cpp:132-193 | the loop writes the specified text |
| `Ini.LinesSet` | src/config/settings.cpp:151-186 | the edited lines parse to the old table with the one entry set |
| `Ini.SetThenGet` | src/config/settings.cpp:68-193 | after a proper setting is written its lookup gives the value and every other lookup what it gave before, repeated sections and keys included |
| `Ini.KeepsOtherLines` | src/config/settings.cpp:151-186 | the editor keeps every line it does not replace, in order, and puts in at most one line, or one section at the end |
| `Ini.NoteAfterValue` | src/config/settings.cpp:59-63 | a note after the value is not part of it |
| `Ini.SaysNothing` | src/config/settings.cpp:50-76 | blank lines, notes and lines that are neither header nor entry say nothing, and an empty value counts as none |
| `Ini.SetTwice` | src/config/settings.cpp:132-193 | writing it again changes nothing exactly when every line of the file that ends in a carriage return, as the editor reads it, is one that the first call replaced |
| `Ini.OrdinaryFileSettles` | src/config/settings.cpp:132-193 | a file without a line that ends in two carriage returns is never changed again |
| `Ini.DoubleReturnChanges` | src/config/settings.cpp:138-141 | a file for which it does change |
| `Sha256.ZeroCountIsSmallest` | src/util/sha256.cpp:84-92 | the padding is the least that section 5.1.1 of FIPS 180-4 asks for |
| `Sha256.PaddedIsWhole` | src/util/sha256.cpp:84-96 | a padded message is a whole number of blocks |
| `Sha256.Schedule` | src/util/sha256.cpp:28-38 | the message schedule of section 6.2.2 |
| `Sha256.Mix` | src/util/sha256.cpp:40-57 | the 64 rounds of section 6.2.2 |
| `Sha256.Transform` | src/util/sha256.cpp:27-66 | one step of the hash computation |
| `Sha256.WrapByte` | src/util/sha256.cpp:75-94 | the eight length bytes do not see the wrap of the 64-bit count |
| `Sha256.LastBlocks` | src/util/sha256.cpp:84-96 | the one or two last blocks are the rest of the message and its padding |
| `Sha256.Finish` | src/util/sha256.cpp:84-96 | hashes them |
| `Sha256.Sha256` | src/util/sha256.cpp:70-96 | for every message, streaming gives the hash of the whole padded message, with the constants of `Sha256Tables` |
| `Sha256Tables.FirstPrimes` | src/util/sha256.cpp:15-26 | the primes that the constants are made of are the first 64 |
| `Sha256Tables.RoundConstants` | src/util/sha256.cpp:15-26 | each round constant is the fractional part of the cube root of its prime to 32 bits, as in section 4.2.2 of FIPS 180-4 |
| `Sha256Tables.InitialWords` | src/util/sha256.cpp:70-74 | each initial word is that of the square root of its prime, as in section 5.3.3 |
| `Sha256Tables.PaddedAbc` | src/util/sha256.cpp:84-94 | the message of the worked example of FIPS 180-2 (appendix B.1), padded |
| `Sha256Tables.ScheduleStarts` | src/util/sha256.cpp:28-38 | which words of the block a schedule is made of |
| `Sha256Tables.ScheduledWord` | src/util/sha256.cpp:34-38 | a word of the example's schedule |
| `Sha256Tables.FirstWord` | src/util/sha256.cpp:28-33 | the first word of the example, most significant byte first |
| `Sha256Tables.FirstRound` | src/util/sha256.cpp:40-57 | the working variables of the example after its first round |
| `Sha256Tables.LastRound` | src/util/sha256.cpp:40-57 | and after its last |
| `Sha256Tables.FirstBytes` | src/util/sha256.cpp:98-111 | the bytes and digits that its digest begins and the first word ends with |
| `Sha256.DigestOrder` | src/util/sha256.cpp:98-107 | the digest is the words in order, the most significant byte first |
| `Sha256.WordBytes` | src/util/sha256.cpp:103-107 | a word written out byte by byte is read back as the same word |
| `Sha256.Sha256Hex` | src/util/sha256.cpp:70-111 | the hexadecimal digits of the asked-for prefix of the digest, all of it for 0 or more than 32 |
| `Thermal.ThermalHunt.Drop` | src/efficiency/thermal_policy.cpp:115-121 | the five corrections in a row come to a closed form |
| `Thermal.ThermalHunt.Apply` | src/efficiency/thermal_policy.cpp:99-107 | a change waits for the settling time and stays within bounds |
| `Thermal.ThermalHunt.Observe` | src/efficiency/thermal_policy.cpp:32-135 | one reading moves the controller as specified |
| `Thermal.FirstReady` | src/efficiency/thermal_policy.cpp:67-78 | the first reading makes the controller ready |
| `Thermal.FirstReading` | src/efficiency/thermal_policy.cpp:67-78 | what the first reading sets |
| `Thermal.SensorThatCounts` | src/efficiency/thermal_policy.cpp:48-58 | which of the two sensors counts |
| `Thermal.LimitsHold` | src/efficiency/thermal_policy.cpp:36-53 | the limits that the code forces on its inputs |
| `Thermal.ActsByTemperature` | src/efficiency/thermal_policy.cpp:60-131 | a raise exactly at or below the target, not rising, in time and below the plan; no cut below the target, and one in time and with room two degrees above, at the cap, or rising at the target; when a drop counts as none |
| `Thermal.NextKeeps` | src/efficiency/thermal_policy.cpp:80-135 | what one reading keeps, what each action implies, and that the card idles exactly while it is at the target or above |
| `Thermal.CutsExactly` | src/efficiency/thermal_policy.cpp:113-126 | a cut happens exactly when a hot reading comes after the settling time and the five corrections give another count, and goes there; to the last good count whenever that lies between floor and batch |
| `Thermal.CutsClimb` | src/efficiency/thermal_policy.cpp:113-126 | over a run every cut goes above the cut before it, and there is a raise between any two |
| `Thermal.RunBounded` | src/efficiency/thermal_policy.cpp:32-135 | in every run: bounds, a floor that never falls, changes at least the settling time apart, and no more cuts than room above the first floor |
| `Thermal.HotTooSoon` | src/efficiency/thermal_policy.cpp:113-126 | after a hot reading before the settling time there is no cut, however hot, until a reading raises the batch |
| `Vram.PlanFits` | src/mining/vram_batch.cpp:125-162 | a plan with jobs fits its budget and both limits of the card |
| `Vram.PlanFillsLane` | src/mining/vram_batch.cpp:59-81 | without explicit caps one more job per lane would not fit |
| `Vram.CapsKept` | src/mining/vram_batch.cpp:67-81 | the caps are kept, and a lane below both is full |
| `Vram.BudgetIsAll` | src/mining/vram_batch.cpp:134-140 | the budget is all that the target and the desktop leave |
| `Vram.LanesShare` | src/mining/vram_batch.cpp:36-57 | the lanes share the budget evenly, at 1025.024 bytes an attempt and unit of difficulty |
| `Vram.Lanes` | src/mining/vram_batch.cpp:50-52 | any number of lanes from 1 to 32 is kept |
| `Vram.ClampPlanToCaps` | src/mining/vram_batch.cpp:93-123 | the loop returns its plan, or the first one within limits as it takes off two percent at a time; it leaves a settled plan alone |
| `Vram.PlanCudaBatch` | src/mining/vram_batch.cpp:125-178 | the planner returns the first plan: the clamp never alters it |

## Left out

- `MatchDrain.WindowAtPin`: for bodies that do not overlap; `DrainThreads.WindowExactly` has every interleaving.
- `MatchDrain.FlushAtLastGood`: for bodies that do not overlap; `DrainThreads.WaveExactly` has every interleaving.
- `MatchDrain.ClosesExactly`: for bodies that do not overlap, on a window at the last-good m; `DrainThreads.ClosesAgainst` has every interleaving.
- `MatchDrain.OpensOnStaleRead`: one overlap; `DrainThreads.WindowExactly` has them all.
- `DrainThreads.ReadEndNext`: the two reads of the end in one comparison (supervisor.cpp:357) are one step, and a time is read or written whole.
- `Codec.HitFromJson`: a number of the wrong JSON kind counts as a type error; the lenient conversions between integers, floats and booleans are not modelled, and hash rates are finite reals.
- `LaneRing.State`: the counters are unbounded; their wrap after 2^31 results is not modelled, nor are memory orders weaker than the order of the steps, nor the reset of the counters when lanes are restarted, nor a worker whose lane is gone.
- `Vram.FirstPlan`: 1.001 and 0.98 are exact fractions and integers are unbounded; rounding of doubles and truncation to int are not modelled.
- `Thermal.Next`: times are reals; the scale that the controller also reports is batch divided by plan and is not carried.
- `MatchDrain.Step`: the clock is read once for a body; counters and messages for the display are left out, and so is the flush of the store when a window closes, which `Bags.Flush` covers.
- `Phc.Encode`: base64 and hexadecimal decoding of the salt are a parameter.
- `Ini.Parse`: the nested map of the parser has its two keys as one; files are texts, and characters are not limited to bytes.
- Hits that `handle_hit` drops before it prepares them (a key that is not 64 hexadecimal digits; XUNI it will not store) never enter the protocol.
- HTTP, proxies and sockets: answers and polls are inputs. Hardware probes, power limits, thread pinning and GPU kernels: a batch gives any result.
- JSON text, torn writes and files changed by others: a save is one completed write.
- Clocks and the minute of the hour: passed in.
- Metrics, logging, dashboard, wallet, uploads and statistics: display and reporting only.
- The lane-group functions of `cuda_engine.cpp`: not on the path of `mine_batch`.
- `drop_by_hash` and the forwarding flags are modelled as store operations, but the supervisor never calls them.
- When XUNI mining is allowed in a batch, `thermal_batch_scale`, `apply_batch_scale`, the power targets and `suggested_max_lanes`: expressions without state that would only add easy members.
- Fairness and progress: all results are safety properties, except that counts at the end of a wave or a session are exact.
