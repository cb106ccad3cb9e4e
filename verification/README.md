# mem-order in Dafny

mem-order records the order of shared-memory accesses of a multithreaded program and replays it. This project
models its recorders, its log tools and its replayers and proves that they fit together: **record any run, push
the logs through the tools, and every replay, however its threads are scheduled and however late their stores
reach memory, makes the same accesses with the same values and ends with the same memory.**

Programs are arbitrary: a thread program is a function from the values its accesses have returned so far to its
next access (`Mem.Program`). That a replayed thread asks for the recorded accesses is therefore proved, not
assumed. Numbers of objects and accesses are arbitrary, and so is the number of threads, except where the ticket lock
is involved: what its 16-bit counters allow is settled exactly.

## How it is built

Code that threads run concurrently is a transition system with explicit program counters. A step makes one shared
access; the exceptions are the mutex-protected look at a reader log and the token holder's read of the commit log,
each one step, and a transaction's commit. A run is an arbitrary schedule, and `Exec` folds `Step` over it. The
recorders, the lock and the final form of the replayers run on x86 store buffers: a store enters the thread's FIFO
buffer and a separate `Drain` step moves it to memory, a load sees the newest buffered store, and locked
instructions, fences and commits wait for an empty buffer. A transaction may abort at any time, an abort restores
everything private to the thread, and a commit is one step that is possible only while memory still holds every
value the transaction loaded; hardware conflict detection allows fewer runs. Code that runs on one thread and
updates its own structures is written as classes and loops, each proved against a function of the accesses.

| modules | what they model |
|---|---|
| `Mem`, `History`, `StoreBuffer`, `Schedules` | accesses, thread programs; linear histories, legal when running them one access at a time is a run of the program; what a thread sees with its buffered stores; runs and fair schedules |
| `RecordModel`, `RecordProof`, `RecordTheorems`, `RecordProgress`, `RecordPaths` | mem-record-seqlock.c and mem-record-rtmseq.c: seqlock readers and writers mixed with read and write transactions |
| `NoFence` | the same without `__sync_synchronize`: the run that the comment in mem-record-seqlock.c warns of |
| `RecordLog`, `LogExact`, `Recorder` | mem-record.c and the log taking of the recorders, direct and batched |
| `Reorder`, `KWay`, `MergeMemop`, `Pipeline` | reorder-memop.cpp, merge-memop.cpp, `load_wait_reader_log` |
| `Replay`, `ReplaySafety`, `ReplaySteps`, `ReplayInvariant`, `ReplayProgress` | mem-replay.c with every store visible at once |
| `ReplayTso`, `ReplayTsoProof`, `ReplayTsoTheorems`, `ReplayPaths` | mem-replay.c on store buffers, as a refinement of `Replay` |
| `EndToEnd` | recorder, tools and replayer together |
| `ClusterRecord`, `ClusterSim`, `ClusterProof`, `ClusterTheorems`, `ClusterProgress`, `ClusterPaths` | mem-record-rtmcluster.c: transactions over seven accesses, queued log taking; a refinement of the hybrid recorder |
| `Blocks`, `CommitRecord`, `CommitProof`, `CommitTheorems`, `CommitProgress`, `CommitPaths` | mem-record-rtmcommit.c: blocks, timestamps, global fallback lock |
| `MergeCommit`, `CommitReplay`, `CommitReplayProof`, `CommitReplayTso`, `CommitReplayTsoProof`, `CommitReplayPaths`, `CommitEndToEnd` | merge-commit.cpp, mem-replay-rtmcommit.c, and all of it together |
| `TicketLock` | ticket-spinlock.h, with 16-bit wrap-around |
| `CommitTicket`, `CommitTicketProof`, `CommitTicketPaths` | mem-record-rtmcommit.c with `g_lock` as the 32-bit word of the ticket lock, a refinement of `CommitRecord` |
| `MappedLog` | log.c and log.h: the growing page-mapped log over a sequence of bytes |

The recorder's proof appends an access to the auxiliary history `hist` at the point where it takes effect: a read
when its version check succeeds, a write at the fence, a transaction at its commit. The invariant says that `hist`
is legal and relates memory, the buffers and each thread's position to it. The replayer's proof goes the other
way: its invariant says which accesses of a given legal history have been replayed, and the earliest access that
has not been replayed can always go on. The store-buffer replayers are related to the simple ones by emptying
all buffers: a thread that uses an object is the only one with buffered stores to it.

Progress is proved for all parts: no recorder and no replayer ever gets stuck, and each finishes under every fair
schedule, one in which every thread and every buffer gets enough turns, whatever their order and whatever transactions
start and abort in between. For the recorders this needs a program that ends. Optimistic readers retry only when a
version has changed, and a block whose transaction aborted is not tried as a transaction again; the work left is counted
so that every step of every thread pays for what it costs the others.

What the machines do when left alone is proved as well, so that safety does not rest on runs that never happen. From
every reachable state at rest a block of the commit and of the cluster recorder commits as one transaction and never
touches the lock, and wherever it is aborted the block runs under the lock, or access by access, with its stores
buffered (the `*Paths` modules of the recorders). A replaying thread completes accesses and whole blocks while its
stores stay in its buffer, and the threads that wait for them go on exactly when these stores have reached memory
(`ReplayPaths`, `CommitReplayPaths`).

Two properties are not true of all runs and are settled exactly. Without the fence a two-thread run finishes with
logs that no order of the accesses explains (`NoFence.UnfencedBreaks`), with it every run has such an order
(`RecordTheorems.RecorderLinearizes`). The ticket lock excludes threads from each other exactly up to 65536 threads,
and `ticket_lockable` can be trusted exactly below 65536 (`TicketLock.ThreadLimit`). Likewise growing a mapped log
keeps the write position exactly when it lies in the last page, which entries no larger than a page guarantee
(`MappedLog.Writer.Enlarge`, `MappedLog.Writer.NextEntry`).

Where comments and code differ the code is followed: a read transaction tests for an odd version and not for the
lock, as mem-record-rtmseq.c does although an earlier comment describes a lock check; the direct recorders do not
update `last->version` on writes while the batching ones do, and the logs are proved to be the same all the same.

## Model

| member | source | states |
|---|---|---|
| RecordTheorems.RecorderLinearizes | mem-record-seqlock.c:49-118 | in every reachable state, under store buffers with the fence, one legal order of all accesses respects every thread's program order and every object's version order, and each thread has logged exactly its accesses in it, but perhaps the one in progress |
| RecordTheorems.RecorderFinishes | mem-record-seqlock.c:99-136 | when all threads are done the traces are the whole order, every program has ended, and memory is what the order leaves |
| RecordTheorems.HybridSnapshot | mem-record-rtmseq.c:14-137 | whatever mix of read and write transactions and fallbacks runs, a logged access has an even version, and a read returns exactly the value that the writes below this version left |
| RecordTheorems.WriterVersions | mem-record-rtmseq.c:97-136 | writers obtain versions 0, 2, 4, ... of an object, each exactly once and in this order |
| RecordProgress.RecorderProgress | mem-record-seqlock.c:49-118 | no deadlock: in every reachable unfinished state, for programs that access existing objects, some thread can go on without a transaction or some buffer can drain |
| RecordProgress.StepWorks | mem-record-seqlock.c:49-118 | every step, also a failed version check that sends a reader back, an abort or a draining store, reduces the work left, whatever it does to the other threads |
| RecordProgress.RecorderFairlyFinishes | mem-record-rtmseq.c:8-137 | for programs that end, every fair continuation of every run finishes the recording, whatever transactions start and abort |
| RecordProof.ExecInv | mem-record-rtmseq.c:8-137 | the inductive invariant: legality of the order, who holds which lock, what is in each buffer and what an optimistic reader may have seen |
| RecordProof.FenceKeeps | mem-record-seqlock.c:104-118 | a fallback write takes effect at the fence, where its buffer is empty and its version is twice the number of earlier writes |
| RecordProof.TxWriteKeeps | mem-record-rtmseq.c:97-114 | a write transaction that commits with the lock free takes effect as the next write of the object |
| RecordProof.RecheckKeeps | mem-record-seqlock.c:49-69 | a read that leaves its retry loop extends the legal order with the version and value it saw, and one that does not starts over |
| RecordPaths.ReadAlone | mem-record-seqlock.c:49-95 | a fallback read, also one entered by an abort from anywhere in a transaction, takes four steps from an even version to its log entry and leaves all buffered stores where they are |
| RecordPaths.WriteAlone | mem-record-rtmseq.c:115-137 | a fallback write, also after an abort: which store is in the buffer at each point, that only the two before the fence have to drain, and that at the log entry the even version and the unlock are still buffered |
| NoFence.UnfencedBreaks | mem-record-seqlock.c:11-47 | without the fence a run of two threads finishes with traces that no legal order explains |
| NoFence.NoLinearization | mem-record-seqlock.c:29-40 | the cycle: program order and version order together exclude every order for these two traces |
| NoFence.ReadOvertakes | mem-record-seqlock.c:17-35 | with both stores of the write buffered, the thread's next read still sees version 0 and value 0 of the other object |
| RecordLog.DirectLogs | mem-record-seqlock.c:71-95 | the log taking of the direct recorders writes a wait entry exactly for accesses that do not repeat what the thread last read of the object, and a reader entry exactly when a read version is left |
| RecordLog.BatchedLogs | mem-record-seqbatch.c:18-42 | the same logs from the batching recorders, which remember versions of writes too |
| RecordLog.BatchRefinesDirect | mem-record-seqbatch.c:18-65 | for every sequence of accesses with versions a recorder can produce, the finished logs of the two are equal |
| RecordLog.FinishedMarks | mem-record.c:85-97 | the finished logs of every thread end with exactly (-1, -1) and (-1, -1, -1), and no earlier entry has a -1 where these are recognized |
| Recorder.ThreadLog.constructor | mem-record.c:44-59 | a new thread: version 0 and no read remembered for every object |
| Recorder.ThreadLog.Order | mem-record.c:65-104 | a wait entry, and a reader entry if the object was last read |
| Recorder.ThreadLog.Read | mem-record-seqlock.c:71-95 | in-place log taking of a read equals the specified step; the object's last version and last read are now this one |
| Recorder.ThreadLog.Write | mem-record-seqlock.c:120-135 | in-place log taking of a write, which leaves the remembered version alone |
| Recorder.ThreadLog.Process | mem-record-seqbatch.c:18-34 | in-place log taking of one queued access |
| Recorder.ThreadLog.Finish | mem-record.c:115-130 | a last reader entry for every object last accessed by a read, then exactly the end marks (-1, -1) and (-1, -1, -1) |
| Recorder.EncodeDecode | mem-record-seqbatch.c:54-60 | marking writes by the complement of the object id loses nothing |
| Recorder.BatchLog.Flush | mem-record-seqbatch.c:36-42 | processing the queue applies its entries in order and empties it |
| Recorder.BatchLog.Add | mem-record-seqbatch.c:44-60 | queueing an access and flushing a full queue have the effect of logging the access, now or later |
| Recorder.BatchLog.Finish | mem-record-seqbatch.c:62-65 | what is still queued is in the finished logs |
| Recorder.RecordDirect | mem-record.c:99-130 | a whole thread under direct logging, end marks included |
| Recorder.RecordBatched | mem-record-seqbatch.c:13-65 | a whole thread under batching, for every queue size, leaves the logs of direct logging, end marks included |
| LogExact.MemopLogExact | mem-record.c:99-128 | the finished reader log has exactly one entry for each object version the thread read and did not itself overwrite, carrying its last read, versions strictly increasing per object |
| LogExact.VersionLogSuffices | mem-record.c:65-70 | the sparse version log: entries name their accesses in order with their versions, an access without an entry has version 0 or repeats the version of an earlier access, and only the last entry, (-1, -1), has a negative memop |
| Reorder.LoadWaitMemopLog | reorder-memop.cpp:21-58 | each object's vector holds its entries in their order; the total counts them |
| Reorder.WriteOutMemopLog | reorder-memop.cpp:60-73 | the vectors one behind the other |
| Reorder.ReorderThread | reorder-memop.cpp:75-93 | the whole tool for one thread, also for an empty log |
| Reorder.BucketedStable | reorder-memop.cpp:31-72 | bucketing keeps every object's entries in order and adds none |
| Reorder.BucketedPermutation | reorder-memop.cpp:31-72 | bucketing is a permutation of the log |
| Reorder.BucketedSorted | reorder-memop.cpp:60-73 | with versions increasing per object the output is strictly sorted by object and version |
| KWay.OpenLogs | merge-memop.cpp:73-80 | the queue holds the first entry of every log that has one |
| KWay.MergeStep | merge-memop.cpp:84-138 | popping a least entry and reading the next one of its log keeps the merge sorted and complete, whichever of equal entries is taken |
| KWay.MergeDone | merge-memop.cpp:84-138 | when the queue is empty the output is sorted and contains every log, each in its order, and nothing else |
| KWay.CountMerged | merge-memop.cpp:84-138 | for every property of entries the merged log has as many as all logs together |
| MergeMemop.LeTotal | merge-memop.cpp:21-27 | the comparison is a total order |
| MergeMemop.IndexEntry | merge-memop.cpp:100-120 | the index table is complete up to the current object, with -1 and 0 for objects without entries (`MergeMemop.CellsAt`) |
| MergeMemop.CloseCell | merge-memop.cpp:102-109 | the count written for an object is positive and is its number of entries |
| MergeMemop.MergeLogs | merge-memop.cpp:73-145 | the merged log is a sorted interleaving of the inputs; of the two index cells of each object the second is the number of its entries in the input logs, and the first is the number of entries of smaller objects, or -1 if it has none |
| MergeMemop.SliceIsSub | mem-replay.c:66-82 | in a sorted log the slice from the start of an object, as long as its count, is exactly its entries |
| MergeMemop.LoadReaderLogs | mem-replay.c:48-84 | the replayer cuts exactly every object's entries out of the merged log |
| Pipeline.BuildReaderLogs | mem-replay.c:48-84 | from the recorder's files to the replayer's reader logs: sorted by version, each thread's entries in order, none lost; also when there are no entries and no file is written |
| ReplaySteps.VersionReached | mem-replay.c:178-180 | an access without an entry finds its object at its recorded version |
| ReplaySteps.WaitPassed | mem-replay.c:23-34 | the cursor of the version log stays at the first entry that is not handled |
| ReplaySteps.VersionAssert | mem-replay.c:183-192 | `obj_version == wait_version` holds wherever it is asserted |
| ReplaySteps.MutexFree | mem-replay.c:86-92 | the debug trylock never fails |
| ReplaySteps.ReadersClear | mem-replay.c:197-208 | when no entry of the current version is left, every recorded read of that version has been replayed |
| ReplaySteps.LoadsRecorded | mem-replay.c:210-225 | a replayed read loads the recorded value |
| ReplaySteps.StepKeepsInv | mem-replay.c:178-240 | every step of every thread keeps the invariant |
| ReplayInvariant.ReplayDeterminism | mem-replay.c:178-240 | for every schedule no assertion fires, every thread's accesses are the recorded ones in order with object, version and value, and in the end memory is the recorded memory |
| ReplayInvariant.SingleConsumer | mem-replay.c:86-119 | at most one thread is in an object's reader log |
| ReplayProgress.EarliestCanStep | mem-replay.c:178-208 | the earliest recorded access that is not replayed has its version wait and its reader waits satisfied |
| ReplayProgress.ReplayProgress | mem-replay.c:178-208 | in every reachable state with accesses left some thread can step |
| ReplayProgress.StepDrops | mem-replay.c:178-240 | every step that is not a spin reduces the work left |
| ReplayTsoProof.SeesNeeded | mem-replay.c:183-192 | under store buffers, a thread that sees the version its access needs is alone with the object: no other thread has a buffered store to it |
| ReplayTsoProof.SeenBefore | mem-replay.c:178-180 | an access without an entry has its version in what the thread has seen before, its own buffered stores included |
| ReplayTsoProof.FlatStep | mem-replay.c:178-240 | a step taken with what the thread sees is the step it would take if no store were buffered |
| ReplayTsoTheorems.TsoRefinesReplay | mem-replay.c:178-240 | with its buffers emptied every state under store buffers is one that the simple replayer reaches |
| ReplayTsoTheorems.TsoDeterminism | mem-replay.c:178-240 | determinism of replay under store buffers |
| ReplayTsoTheorems.TsoAssertions | mem-replay.c:86-119 | as each thread sees memory: the awaited version is exactly reached where it is asserted, the debug trylock finds the mutex free, and the next reader entry is never of a version that is over, as `next_reader_memop` asserts |
| ReplayTsoTheorems.TsoProgress | mem-replay.c:178-208 | no deadlock under store buffers |
| ReplayTsoTheorems.TsoTerminates | mem-replay.c:178-240 | no schedule takes more real steps than a bound fixed by the recording |
| ReplayTsoTheorems.TsoFairlyCompletes | mem-replay.c:178-240 | from every reachable state, every continuation with more rounds than work left completes the replay, a round being any stretch in which each thread and each buffer gets a turn |
| ReplayTsoTheorems.TsoCompletes | mem-replay.c:178-240 | every schedule can be continued to a complete replay |
| ReplayPaths.ReadOverBuffer | mem-replay.c:210-225 | from every reachable state a thread whose next access is a read of a version it sees completes the read by its own steps, with every buffered store still buffered and the new memop behind them |
| ReplayPaths.WriteThenRead | mem-replay.c:210-240 | from every reachable state past the reader wait of a write, a thread completes the write and a following read of a version it sees without a single store leaving its buffer, which then ends with the word, the version and both memops |
| ReplayPaths.SpinsOnMemory | mem-replay.c:183-208 | a thread waits for a version exactly until that version has reached memory, and for a reader exactly until that thread's memop has, however long they have been in another thread's buffer |
| Schedules.FairlyDone | mem-replay.c:178-208 | a system that can always go on, and only so often, finishes in every schedule with enough rounds; spinning costs nothing |
| EndToEnd.RecordedLogsOk | mem-record.c:99-130 | the logs of a finished recording, processed by the tools, are what the replayer needs |
| EndToEnd.RecordThenReplay | mem-replay.c:151-240 | every replay of every recorded run repeats it: no assertion, same accesses, never stuck, same final memory |
| EndToEnd.RecordedReplayCompletes | mem-replay.c:151-240 | every replay of a recorded run can be completed |
| EndToEnd.RecordedReplayFairlyCompletes | mem-replay.c:151-240 | whatever has been scheduled, there is a number of rounds after which every fair continuation of a replay is complete |
| EndToEnd.BatchRecordThenReplay | mem-record-seqbatch.c:18-114 | every replay of every run that was logged through the batching queue repeats it |
| ClusterSim.BlockTx | mem-record-rtmcluster.c:105-143 | a transaction over many accesses that commits has the effect of single-access transactions run one after another, on memory, versions and logs |
| ClusterSim.OneTx | mem-record-rtmseq.c:14-114 | a single-access transaction with the version even, or the lock free for a write, begins, commits and logs the access |
| ClusterProof.ClusterRefinesHybrid | mem-record-rtmcluster.c:86-221 | the shared state of every run, with the order of all accesses, is reached by a run of the hybrid recorder |
| ClusterProof.AbortedOk | mem-record-rtmcluster.c:92-126 | an abort puts the thread, with queue, count and logs, back to the start of its block |
| ClusterPaths.BlockAlone | mem-record-rtmcluster.c:86-221 | from every reachable state with no fallback write under way, a block that is left alone commits as one transaction: nothing of it is visible before, all its accesses take effect in one step, and an abort at any point restores the block start |
| ClusterTheorems.QueueLockstep | mem-record-rtmcluster.c:45-84 | between accesses the queue holds exactly as many entries as the thread has made accesses, modulo 7; the nesting assertion holds and no log is taken inside a transaction, whatever was rolled back |
| ClusterTheorems.ClusterLogs | mem-record-rtmcluster.c:27-84 | the logs of every finished run, also of a thread that ends inside a block, are those of logging directly the thread's part of a legal order of all accesses |
| ClusterTheorems.ClusterRecordThenReplay | mem-record-rtmcluster.c:86-221 | every replay of every run the cluster recorder took repeats it |
| ClusterProgress.ClusterProgress | mem-record-rtmcluster.c:86-221 | no deadlock: in every reachable unfinished state some thread can go on or some buffer can drain |
| ClusterProgress.ClusterFairlyFinishes | mem-record-rtmcluster.c:72-221 | for programs that end, every fair continuation of every run finishes the recording, whatever aborts |
| CommitProof.TxAtomic | mem-record-rtmcommit.c:67-75 | a transaction whose loaded values are in memory when it commits behaves as if it ran there alone |
| CommitProof.AbortKeeps | mem-record-rtmcommit.c:52-65 | an abort brings the thread back to the start of its block, access count included, and makes it queue for the lock |
| CommitProof.ExecInv | mem-record-rtmcommit.c:52-130 | the inductive invariant: blocks, buffers, lock queue, timestamps and memory |
| CommitTheorems.CommitSerializable | mem-record-rtmcommit.c:52-130 | for every mix of transactions, aborts and fallback blocks, running the blocks one at a time in timestamp order is a run of the program with the same values, and gives the same memory whenever nobody has the lock |
| CommitTheorems.CommitFinishes | mem-record-rtmcommit.c:88-99 | at the end, partial last blocks included, all accesses, all timestamps and memory are those of the serial run |
| CommitTheorems.TimestampsExact | mem-record-rtmcommit.c:19-21 | the timestamps are exactly 0 to n-1, each in the log of the thread that committed then, increasing in every log |
| CommitTheorems.BlockSizes | mem-record-rtmcommit.c:88-130 | a finished thread with n accesses has exactly (n + 6) / 7 timestamps in its log, and each of its blocks but the last has seven accesses |
| CommitTheorems.FallbackExclusive | mem-record-rtmcommit.c:63-80 | fallback blocks exclude each other, and only the lock holder has stores on their way to memory |
| CommitProgress.CommitProgress | mem-record-rtmcommit.c:52-130 | no deadlock: in every reachable unfinished state some thread can go on or some buffer can drain |
| CommitProgress.CommitFairlyFinishes | mem-record-rtmcommit.c:52-130 | for programs that end, every fair continuation of every run finishes the recording, whatever aborts |
| CommitPaths.TxAlone | mem-record-rtmcommit.c:52-75 | from every reachable state with the lock free and all buffers empty, a block that is left alone runs as one transaction: nothing shared changes before, the thread never queues for the lock, the commit adds the block to the order and to memory in one step, then its timestamp is logged |
| CommitPaths.FallbackAlone | mem-record-rtmcommit.c:54-80 | a transaction aborted anywhere gets the free lock and runs its block to the end with every store, the new time and the release still in its buffer, in this order; when they have drained memory is as the block leaves it and the lock is free |
| CommitTicketProof.SameCheck | ticket-spinlock.h:56-61 | what `ticket_lockable` tells a transaction is what the queue says, also while the thread's own release is still in its buffer |
| CommitTicketProof.CommitSimulated | mem-record-rtmcommit.c:67-75 | a transaction that loaded a free lock word and finds it unchanged commits while nobody holds or waits |
| CommitTicketProof.TicketRefinesQueue | mem-record-rtmcommit.c:52-130 | with fewer than 65536 threads every run over the ticket lock's 32-bit word is a run over a queue |
| CommitTicketProof.TicketCommitSerializable | mem-record-rtmcommit.c:52-130 | serializability over the ticket lock; memory is that of the blocks whenever the lock word says that the lock is free |
| CommitTicketProof.TicketRecordThenReplay | mem-replay-rtmcommit.c:29-90 | every replay of every run recorded over the ticket lock repeats it |
| CommitTicketProof.TicketProgress | ticket-spinlock.h:31-42 | no deadlock over the ticket lock |
| CommitTicketPaths.TicketTxAlone | mem-record-rtmcommit.c:52-75 | the same transaction over the ticket lock: the lock word and every thread's part of the lock stay as they are from beginning to end |
| CommitTicketPaths.TicketFallbackAlone | ticket-spinlock.h:31-42 | the fallback over the ticket lock takes one ticket, is let in at once, keeps its release buffered behind the block's stores, and in the end both halves of the word are one higher |
| MergeCommit.MergeTimes | merge-commit.cpp:30-67 | the merged log is a sorted interleaving of the threads' timestamps, and for logs that hold the times of some blocks it lists these blocks' threads in time order |
| MergeCommit.MergedCommitOrder | merge-commit.cpp:51-64 | its j-th thread is the one that committed at time j, and it has no other entries |
| CommitReplayProof.CommitReplayDeterminism | mem-replay-rtmcommit.c:46-90 | for every schedule `g_next_thr == g_tid` holds where it is asserted and what has been done is the first n blocks and a part of the next, partial last blocks included |
| CommitReplayProof.CommitReplayProgress | mem-replay-rtmcommit.c:46-90 | while some thread is not done some thread can step |
| CommitReplayTsoProof.TsoRefinesCommitReplay | mem-replay-rtmcommit.c:19-90 | under store buffers only the thread that memory says has the token has buffered stores, and with its buffers emptied every state is one that the simple replayer reaches |
| CommitReplayTsoProof.TsoCommitDeterminism | mem-replay-rtmcommit.c:46-90 | determinism of token-passing replay under store buffers |
| CommitReplayTsoProof.TsoCommitAssertion | mem-replay-rtmcommit.c:62-82 | wherever `g_next_thr == g_tid` is asserted the thread sees the token, under store buffers |
| CommitReplayTsoProof.TsoCommitProgress | mem-replay-rtmcommit.c:46-90 | no deadlock under store buffers |
| CommitReplayTsoProof.TsoCommitTerminates | mem-replay-rtmcommit.c:46-90 | no schedule takes more real steps than a bound fixed by the recording |
| CommitReplayTsoProof.TsoCommitFairlyCompletes | mem-replay-rtmcommit.c:46-90 | from every reachable state, every continuation with more rounds than work left completes the replay |
| CommitReplayTsoProof.TsoCommitCompletes | mem-replay-rtmcommit.c:46-90 | every schedule can be continued to a complete replay |
| CommitReplayPaths.BlockOverBuffer | mem-replay-rtmcommit.c:46-90 | from every reachable state a thread at a block start that sees the token replays the recorded next block by its own steps with no store leaving its buffer, which then ends with the block's stores and, unless it was the last block, the new cursor and the token |
| CommitReplayPaths.WaitsForToken | mem-replay-rtmcommit.c:52-60 | a thread starts a block only if memory says it has the token, and exactly then if it has no buffered stores |
| CommitEndToEnd.FilesSorted | mem-record-rtmcommit.c:36-39 | the logs a recording leaves are sorted, as the merge needs them |
| CommitEndToEnd.CommitRecordThenReplay | mem-replay-rtmcommit.c:29-90 | every replay of every recorded run repeats it: the assertion holds, same accesses, never stuck, same final memory |
| CommitEndToEnd.RecordedCommitReplayFairlyCompletes | mem-replay-rtmcommit.c:29-90 | whatever has been scheduled, there is a number of rounds after which every fair continuation of a replay is complete |
| CommitEndToEnd.RecordedCommitReplayCompletes | mem-replay-rtmcommit.c:29-90 | every replay of a recorded run can be completed |
| TicketLock.MutualExclusion | ticket-spinlock.h:31-42 | with up to 65536 threads no two threads are between being let in and the arrival of their release in memory |
| TicketLock.FirstComeFirstServed | ticket-spinlock.h:31-42 | threads are let in in the order of their tickets across any number of wraps, one at a time |
| TicketLock.LockableExact | ticket-spinlock.h:44-61 | `ticket_lockable` is true exactly when nobody holds the lock or waits, and the exchange of `ticket_trylock` succeeds exactly when this holds and no ticket was taken since it looked |
| TicketLock.TryExact | ticket-spinlock.h:44-54 | a whole `ticket_trylock`, whatever others do between its load and its exchange, takes the lock if and only if nobody holds it or waits and the users half is unchanged; on an idle lock without interference it always does |
| TicketLock.TicketIsQueue | ticket-spinlock.h:31-61 | the lock implements a queue: taking a ticket appends, a release removes the first, exactly the first is let in, and every thread judges rightly whether the queue is empty, one with a buffered release as if it were out |
| TicketLock.ThreadLimit | ticket-spinlock.h:21-42 | mutual exclusion of all runs holds if and only if there are at most 65536 threads, and `ticket_lockable` is exact if and only if there are fewer |
| MappedLog.Writer.constructor | log.c:33-59 | a new log is one empty page of 4096 bytes |
| MappedLog.Writer.Enlarge | log.c:67-111 | the file grows by 4096 bytes and the write position keeps its place in the file if and only if it was in the last 4096 |
| MappedLog.Writer.NextEntry | log.h:38-45 | for every entry size: the returned place is the end of the log and has room, if and only if the entry fits the window or the rest of the window is less than a page and the entry fits in it and one page more |
| MappedLog.Writer.Append | log.h:38-45 | an entry no larger than a page is appended to the contents, also across pages |
| MappedLog.Writer.Truncate | log.c:147-160 | the truncated file is exactly the contents |
| MappedLog.Reader.ReadEntry | log.h:47-54 | an entry is read exactly when it is there in full; otherwise nothing moves |
| MappedLog.WriteLog | log.c:67-160 | the finished file is the concatenation of the entries |
| MappedLog.ReadLog | log.h:47-58 | fixed-size reads return the entries in order and then stop |

## Left out

- The layout of log entries in bytes: recorder, tools and replayers exchange sequences of entries, and `MappedLog` stores entries that are already bytes.
- System calls and their error exits: opening, mapping and truncating files; a missing input file reads as an empty log.
- `calc_objid`: an address carries its object, so that the mapping may be any function of the address.
- Inline assembly and intrinsics: locked exchange, fence and the transaction instructions are taken as primitives.
- Weaker orders than x86 store buffers, and speculative loads inside transactions that never commit.
- Overflow of access counts, versions and timestamps: they are unbounded; only the ticket lock wraps.
- The range of thread ids, an `int8_t` in mem.h: thread numbers are unbounded in the model.
- The `rdtsc` timestamps, which the source disables.
- The order of equal entries in the merge queues: any order is allowed.
- Thread creation, the start barrier and the order in which `memop_cnt` is set up.
- The workloads racey.c, addcnt.c and relay.c: an arbitrary thread program stands for them.
- infer.c, goinfer/, the dump and timing scripts, statistics and debug output.
