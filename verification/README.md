# forkyard, verified

A Dafny model of forkyard's session engine and of what must hold of it.

A worker thread owns many forked sessions of a chain at one block. It never
waits on the network: each job first runs as a *speculative pass*, in which
every read that upstream would have to answer is recorded and answered with a
made-up default. If anything was recorded, the pass is rolled back, the job is
parked with its session's later jobs behind it, the missing keys are fetched on
another thread (shared with other sessions through a table of fetches in
flight), and the job is run again. After sixteen passes, or a failed fetch, it
runs once more with real, blocking reads.

The main result is that this is invisible: at every point of every run, each
session's state and every reply are those of a plain worker that runs the same
jobs one at a time with real reads, jobs are answered in the order sent and
none is lost, and no job waits for a wake-up that will not come: every job is
answered within a bounded number of turns. What the plain worker answers is in
turn what a bare view says, a function from queries to answers with no overlay,
base or cache in it (`WorkerJobs.WorkerShowsViews`), and nothing but a
session's own history decides it (`WorkerTheorems.OnlyOwnHistoryMatters`).
Around this stand the session algebra (overlay, base, fallback, branching,
saving and resuming), the single-flight table, the files sessions and caches
are kept in, and three self-contained parts: pinned blocks, the MT19937
generator and the token bucket.

## How it is laid out

| file | what it holds |
|---|---|
| `Chain.dfy` | accounts, slots, code, block env, and upstream at one block as a total function |
| `Collections.dfy` | sequences without repeats |
| `Views.dfy` | what a session answers, as a function |
| `Fetch.dfy` | the read cache, the thread-local list of misses |
| `Engine.dfy` | a session as a value and what each operation computes; `Session`, the class that does it in place |
| `Passes.dfy` | a job as an arbitrary reader program; passes, rollback, attempts, against the plain run |
| `WorkerModel.dfy`, `WorkerInvariant.dfy`, `WorkerTheorems.dfy` | the worker as a step machine, the invariant every step keeps, what follows from it |
| `WorkerProgress.dfy`, `WorkerDrain.dfy`, `WorkerTurns.dfy` | why retries get further; how many turns it takes to answer every job; what each turn comes to, pass by pass |
| `WorkerJobs.dfy` | what each job means to its client: a session known by its view alone |
| `Worker.dfy` | `WorkerThread`, the worker in place, each method tied to the step machine |
| `SingleFlight.dfy`, `Batch.dfy` | concurrent `resolve` calls; the retried JSON-RPC batch |
| `Lineage.dfy`, `Forest.dfy` | one session's base, branches and saved state; all sessions of a process at once |
| `Canon.dfy`, `Persist.dfy`, `ForkCache.dfy` | sorted forms, session snapshots, the fork cache |
| `Crash.dfy`, `SnapshotFiles.dfy` | writing a file across power losses, and what a snapshot's id stands for then |
| `Manager.dfy`, `PinnedBlocks.dfy`, `OnceCells.dfy` | opening sessions at a block, the blocks kept warm, and requests that overlap on one of them |
| `Mt.dfy`, `MtReference.dfy`, `TokenBucket.dfy` | `PyRandom`, its arithmetic in other terms, and the proxy's rate limit |

## How the world is modelled

- **Execution** is an arbitrary deterministic reader program: it is done, with
  a reply and a diff, or it asks for one piece of state and goes on as the
  answer says. Nothing about the EVM is assumed.
- **Upstream** at one block is a total function from keys to values. A `World`
  adds, for every read a thread makes, what other threads have landed in the
  shared cache before it and whether upstream fails it; the theorems hold for
  all worlds.
- **Concurrency** is steps of a machine: a job arrives, the worker takes a
  message, a resolver posts its wake-up, a cache grows, a session is reaped; a
  call to `resolve` claims, asks, gets an answer or not, lands, wakes.
- **Failed reads.** `Session::storage` answers zero for a slot upstream fails
  to give and does not cache it (`crates/engine/src/lib.rs:488-490`), so a
  blocking pass can compute from a zero that is not there. Refinement is
  therefore stated against the plain worker *with the same reads failing*; the
  failing reads are recorded per answer, are none in a speculative pass, and
  none at all when upstream is healthy.
- **Files** are records; bytecode either decodes or does not; hashing is a
  parameter, assumed not to collide where a statement needs that.

Three things the code does are worth knowing. Each is stated as an exact
condition, with a run that meets it:

- A saved state depends on the order a hash map is walked in exactly when two
  accounts of one code hash name different code (`Lineage.OrderIsIrrelevant`);
  two account writes bring that about (`Forest.ASavedStateMayDependOnTheWalk`).
- A store that has answered, whether it wrote its file or found it, can be lost,
  never torn, exactly when power fails before the directory reaches the disk
  (`Crash.AnAnswerSurvivesIffSaved`); six steps on an empty disk lose one
  (`Crash.AnAnsweredStoreIsLost`).
- `set_block_env` on its own puts new sessions on two blocks at once exactly
  when the env is not the fallback's block's (`Manager.SetEnvAloneMayTearBlocks`);
  `Manager.ASetEnvTearsABlock` is a session that reads under one block's number
  a balance of another.

A fourth is smaller: an account that arrives with empty inline code loses it on
the way through the cache file, and nothing else is lost there
(`ForkCache.SoundRevives`, `ForkCache.ASnapshotIsTrimmed`). Statements about
resumed sessions and reloaded caches say so where it shows.

## Model

| member | source | states |
|---|---|---|
| `WorkerTheorems.WorkerRefinesPlain` | crates/session/src/lib.rs:878-1088 | in every reachable configuration each session is exactly where the plain worker would have it after the same jobs with the same reads failing, every reply is the plain worker's, and reads only fail in a blocking pass and only if upstream fails |
| `WorkerTheorems.HealthyRunsArePlain` | crates/session/src/lib.rs:878-1088 | with upstream healthy, an unreaped session's replies and state are the plain worker's on a prefix of its jobs in the order sent, and on all of them once nothing is parked or waiting |
| `WorkerTheorems.OrderAndConservation` | crates/session/src/lib.rs:882-942 | answered jobs, then the parked queue, then the inbox, are exactly the jobs sent to the session, in order |
| `WorkerTheorems.BlockedIffOneWakeup` | crates/session/src/lib.rs:897-942 | a session is blocked if and only if exactly one wake-up for it is outstanding, with a non-empty queue and at most sixteen rounds |
| `WorkerTheorems.NoJobIsStuck` | crates/session/src/lib.rs:907-925 | while a session has an unanswered job, the worker has a message for it to take or that session's own resolver has yet to post one |
| `WorkerDrain.TurnsAreBounded` | crates/session/src/lib.rs:878-942 | over any run, the messages the worker took and the wake-ups its resolvers posted number at most 35 for each job sent, whatever fails and whatever else happens |
| `WorkerDrain.QuietMeansAnswered` | crates/session/src/lib.rs:878-942 | where no message and no resolver is left, every job sent has been answered, in order |
| `WorkerDrain.StepLowers` | crates/session/src/lib.rs:882-942 | a turn lowers what is left to do for exactly the session whose turn it is, an arriving job raises it by its own share, and nothing else changes it |
| `WorkerTheorems.PassesAreBounded` | crates/session/src/lib.rs:151-154 | every answered job took at most sixteen speculative passes and one blocking pass |
| `WorkerTheorems.UnblockLowersMeasure` | crates/session/src/lib.rs:930-942 | with no arrivals a wake-up shortens the queue, or leaves it with one more round behind its front job, which a failed resolve or the round limit rules out |
| `WorkerTurns.WakeUpTurns` | crates/session/src/lib.rs:930-942 | a wake-up after a failed resolve, or of a job with sixteen passes behind it, answers that job by a blocking pass; any other answers it by one more speculative pass or parks the whole queue again with that round counted; and the jobs behind it that get their turn are answered by at most one speculative pass each |
| `WorkerTurns.RequestTurns` | crates/session/src/lib.rs:882-893 | a job whose session is not waiting is answered at once, by a speculative pass if it reads, or parked alone after it |
| `WorkerTurns.BlockingIsTheLastResort` | crates/session/src/lib.rs:897-942 | over any run, a job answered by a blocking pass had had exactly sixteen speculative ones or was woken by a resolve that failed |
| `WorkerTheorems.OnlyOwnHistoryMatters` | crates/session/src/lib.rs:878-1088 | two workers on runs of their own, with other sessions, caches, passes and parkings: where a session had the same jobs answered with the same reads failing, it is the same and so are all its replies |
| `WorkerTheorems.FaithfulRepliesArePlain` | crates/session/src/lib.rs:946-1022 | a fault-free event history answers as the plain worker does on the same jobs |
| `WorkerTheorems.QueueOnlyShrinks` | crates/session/src/lib.rs:930-942 | running a session's queue leaves a shorter queue or the same one with one more round |
| `WorkerProgress.RetriesGetFurther` | crates/session/src/lib.rs:897-942 | over any run, a waiting job has had at most as many speculative passes as its true path had keys missing from the cache when its first pass's step began, fewer by the keys it will still lack while a wake-up that may succeed is outstanding |
| `WorkerProgress.AnswersAreWithinBudget` | crates/session/src/lib.rs:897-942 | the same of answered jobs: over any run, none took more speculative passes than one and the keys of its true path that were missing from the cache when its first pass's step began, also where its session was reaped while it was parked; the step that logged the answer is named |
| `WorkerProgress.QueueBudgets` | crates/session/src/lib.rs:930-942 | running a queue parks its front job only within what its passes so far allowed, or a later job after its first pass |
| `WorkerProgress.DeferredFinds` | crates/session/src/lib.rs:1031-1057 | a deferred job changed no session and hands back a key it needs that was not cached when its pass began |
| `WorkerProgress.QueueLeavesOthers` | crates/session/src/lib.rs:930-942 | running one session's queue leaves every other session, its queue and its wake-up alone |
| `WorkerJobs.TouchingChangesNothing` | crates/session/src/lib.rs:1071-1080 | touching sender and recipient first changes nothing an execution computes |
| `WorkerJobs.AdvanceRunsItsTransaction` | crates/session/src/lib.rs:963-975 | an `Advance` answers what its transaction with the checks on comes to on what the session answers, and from then on the session answers so with that run's diff laid over |
| `WorkerJobs.SimulateRunsItsTransaction` | crates/session/src/lib.rs:949-962 | a `Simulate` answers what its transaction comes to there, with or without the checks as asked, and no answer changes |
| `WorkerJobs.OnlyAdvanceWrites` | crates/session/src/lib.rs:1061-1088 | whatever reads fail, only an `Advance` changes what a session answers, and it neither code nor block hashes |
| `WorkerJobs.BothEndsAreReported` | crates/session/src/lib.rs:1072-1075 | however early an execution stops, sender and recipient are held, cached by then, or among the keys its first pass hands back to be fetched |
| `WorkerJobs.ReadJobsAnswerTheView` | crates/session/src/lib.rs:977-1019 | with no read failing, account, slot and code jobs answer the session's view, code inline or under its hash |
| `WorkerJobs.FailedReadsAreTold` | crates/session/src/lib.rs:977-1019 | a read job whose read upstream fails is told an error for an account or its code and zero for a slot, and its session is as it was |
| `WorkerJobs.WriteJobsAreExact` | crates/session/src/lib.rs:1171-1192 | a cheat write changes exactly the account or slot it names in the view |
| `WorkerJobs.LifeOfASession` | crates/session/src/lib.rs:946-1197 | over any jobs at all, forking, seeding, branching, adopting, executing, writing and discarding, a session answers as a bare view on which a fork lays the seed over the base over upstream, an adoption takes what the child holds, a write its one place and an `Advance` the diff its transaction comes to; every reply is what that view says, a child's being its parent's |
| `WorkerJobs.WorkerShowsViews` | crates/session/src/lib.rs:878-1197 | at every point of every healthy run the speculating worker's sessions and replies are those of bare views |
| `WorkerJobs.AdoptedChildLivesAsParent` | crates/session/src/lib.rs:1137-1147 | whatever jobs follow, an adopted child answers each as its parent would have, saved states included and children it branches off being twins, and stays its parent's twin: all it owns, and every answer it gives without upstream |
| `WorkerJobs.TwinsAnswerAlike` | crates/session/src/lib.rs:946-1197 | twins, however each splits what it holds over overlay, inherited state and base, answer every job alike and stay twins, with the same reads failing as well |
| `WorkerJobs.SeededForkReadsAlike` | crates/session/src/lib.rs:1113-1136 | a fork seeded with what `State` answered, on the lineage's base, reads as the session saved, and finds by hash exactly the code that session could name |
| `WorkerInvariant.StepKeeps` | crates/session/src/lib.rs:847-942 | every step of the worker, its clients, its resolvers and the reaper keeps the worker's invariant |
| `WorkerInvariant.HandleKeeps` | crates/session/src/lib.rs:946-1022 | handling a job, answered or deferred, keeps every session explained, accounted for and conserved |
| `WorkerInvariant.ParkKeeps` | crates/session/src/lib.rs:897-926 | parking keeps the invariant whether or not a resolver thread could be spawned |
| `WorkerInvariant.ReapKeeps` | crates/session/src/lib.rs:865-872 | a session expiring at any moment, even while parked, keeps the invariant |
| `WorkerInvariant.ReachableIsInv` | crates/session/src/lib.rs:847-875 | the invariant holds in every reachable configuration |
| `Worker.RunAttempt` | crates/session/src/lib.rs:1031-1057 | the in-place pass, kept or rolled back, is the attempt the theorems are about |
| `Worker.Execute` | crates/session/src/lib.rs:1061-1088 | sender and recipient are touched first, then the execution runs, as the program of the job says |
| `Worker.CodeOf` | crates/session/src/lib.rs:1095-1108 | an account's code is its inline code, nothing for the empty hash, or the code under its hash |
| `Worker.WorkerThread.HandleJob` | crates/session/src/lib.rs:1111-1197 | every job that never reads upstream does what the step machine says, replies included, for every order a hash map may be walked in |
| `Worker.WorkerThread.Handle` | crates/session/src/lib.rs:946-1022 | the in-place handling of a job is the machine's, deferred keys included |
| `Worker.WorkerThread.Park` | crates/session/src/lib.rs:897-926 | the job goes to the front, one more round is counted, and one resolve or one failed wake-up is left outstanding |
| `Worker.WorkerThread.Unblocked` | crates/session/src/lib.rs:930-942 | the queue loop is the machine's run of the queue |
| `Worker.WorkerThread.Accept` | crates/session/src/lib.rs:882-893 | taking a message is the machine's step: wake-up, queue behind a parked job, or run |
| `Passes.RollbackIsExact` | crates/engine/src/lib.rs:247-274 | ending a pass without keeping it, whole or cut short by a panic after any number of reads, gives back the very session it began with |
| `Passes.AbortedRollsBack` | crates/session/src/lib.rs:1040-1050 | at every point of a pass the overlay is the one at its start plus the logged keys, disjointly |
| `Passes.UnmissedPassIsPlain` | crates/fetch/src/lib.rs:433-477 | a pass that recorded no miss has the reply, diff and session of the plain run, whatever other threads land meanwhile |
| `Passes.AttemptIsPlainOrNothing` | crates/session/src/lib.rs:1031-1057 | an attempt is the plain run, or it changes nothing and hands back a key the program truly needs and did not have |
| `Passes.FirstMissIsOnTruePath` | crates/fetch/src/lib.rs:43-63 | the first key a pass misses is one the program reads when every read is real, and was not cached |
| `Passes.DirtyPassesAreBounded` | crates/session/src/lib.rs:151-154 | with each pass's misses fetched before the next, a job has at most as many passes with misses as its true path had uncached keys |
| `Passes.PlainRunKeepsView` | crates/engine/src/lib.rs:433-500 | caching what was read changes no later answer, and a fault-free run answers from one fixed view |
| `Passes.CommitView` | crates/engine/src/lib.rs:507-519 | a commit changes exactly the diff's accounts and slots in the view |
| `Passes.AskMatchesPlain` | crates/engine/src/lib.rs:433-500 | one read is the plain read unless it is recorded as a miss, and a missed key was neither held nor cached |
| `Passes.FailedRead` | crates/engine/src/lib.rs:433-500 | a read upstream fails is zero for a slot and an error for anything else, and neither session nor cache has it afterwards |
| `Passes.MissedRead` | crates/fetch/src/lib.rs:433-477 | a read a speculating thread would wait for is noted and answered as if nothing were there, and nothing is fetched |
| `Passes.SpeculationNeverFetches` | crates/fetch/src/lib.rs:43-63 | a speculative pass caches nothing but what other threads land, and is the same whatever upstream would fail |
| `Passes.MissesWereUncached` | crates/fetch/src/lib.rs:88-96 | what a pass misses was not cached when it began |
| `Passes.AnsweredIsHeld` | crates/engine/src/lib.rs:433-500 | what upstream answered is held from then on, but for the absence of an account or code and for block hashes |
| `Fetch.ReadRefSound` | crates/fetch/src/lib.rs:433-477 | a read keeps the cache truthful, forgets nothing, and answers anything but the truth only when it says so |
| `Fetch.ReadThrough.Read` | crates/fetch/src/lib.rs:436-477 | cache, then the miss list, then upstream; errors are not cached |
| `Fetch.Thread.RecordMiss` | crates/fetch/src/lib.rs:88-96 | a miss is recorded exactly when the thread is speculating |
| `Engine.ForgetOneMore` | crates/engine/src/lib.rs:256-274 | forgetting a log key by key is forgetting all of it at once |
| `Engine.Session.Restore` | crates/engine/src/lib.rs:226-297 | a fork is an empty overlay on the base, a restore the saved state laid over it |
| `Engine.Session.EndSpeculation` | crates/engine/src/lib.rs:256-274 | logging stops, and without `keep` exactly the logged keys are gone |
| `Engine.Session.Basic` | crates/engine/src/lib.rs:433-449 | overlay, base, fallback; a missing account is not cached in the overlay, an error surfaces |
| `Engine.Session.CodeByHash` | crates/engine/src/lib.rs:451-469 | overlay, base, fallback; code is never recorded as a miss |
| `Engine.Session.Storage` | crates/engine/src/lib.rs:471-492 | overlay, base, fallback; a failed read is zero and is not cached |
| `Engine.Session.BlockHash` | crates/engine/src/lib.rs:494-501 | base, then fallback; nothing is cached in the overlay |
| `Engine.Session.Commit` | crates/engine/src/lib.rs:507-519 | the diff's entries win over the overlay's, nothing else changes |
| `Engine.Session.Branch` | crates/engine/src/lib.rs:371-404 | the overlay is folded into a fresh base and into `inherited`, the parent untouched |
| `Engine.Session.State` | crates/engine/src/lib.rs:306-337 | inherited under overlay, with the code of the contracts the session can see, for every order a hash map may be walked in |
| `Engine.GatherCode` | crates/engine/src/lib.rs:315-323 | the gathering loop computes the gathered code |
| `Engine.Ascending` | crates/engine/src/lib.rs:333-335 | a set's one strictly ascending enumeration |
| `SingleFlight.OneOwner` | crates/fetch/src/lib.rs:313-331 | a key is in flight if and only if some call owns it, and then exactly one does |
| `SingleFlight.OnlyOwnersAsk` | crates/fetch/src/lib.rs:313-331 | a key being asked for is in flight and its asker's own, and no other call owns it or asks for it |
| `SingleFlight.CacheIsTruthful` | crates/fetch/src/lib.rs:288-331 | however calls overlap, the cache holds only upstream's values |
| `SingleFlight.NeverFetchedAgain` | crates/fetch/src/lib.rs:288-331 | over a whole run, a key one `resolve` fetched is never asked for or fetched by any `resolve` again |
| `SingleFlight.NoDeadlock` | crates/fetch/src/lib.rs:238-264 | a waiter owns no flight in progress, and while a call has not returned some call can go on |
| `SingleFlight.WaitsAreBounded` | crates/fetch/src/lib.rs:288-311 | a call waits at most one round more than the rounds in which an awaited fetch failed, and `Ok` means all its keys are cached |
| `SingleFlight.OnlyTheOwnerSeesTheError` | crates/fetch/src/lib.rs:288-311 | a call ends in an error if and only if its own fetch failed |
| `SingleFlight.StepKeeps` | crates/fetch/src/lib.rs:249-331 | every step of every call keeps the single-flight invariant |
| `SingleFlight.ClaimSound` | crates/fetch/src/lib.rs:313-331 | a claim owns each uncached key nobody fetches, once, and awaits the flights of the rest, duplicates included |
| `SingleFlight.LandSound` | crates/fetch/src/lib.rs:254-264 | landing ends exactly the flights of the given keys |
| `SingleFlight.AllLandedAllCached` | crates/fetch/src/lib.rs:305-308 | once all awaited flights landed without failing, everything the call asked for is cached |
| `SingleFlight.FlightTable.ClaimKeys` | crates/fetch/src/lib.rs:313-331 | the claiming loop over the live table computes the claim |
| `SingleFlight.FlightTable.LandKeys` | crates/fetch/src/lib.rs:254-264 | the landing loop over the live table computes the landing |
| `Batch.ResolvedSound` | crates/fetch/src/lib.rs:353-365 | success means every key is cached, with upstream's value, and nothing cached is lost |
| `Batch.RetriesAreBounded` | crates/fetch/src/lib.rs:136-142 | at most one batch and the allowed retries are sent and only a rate limit is retried; it stops only when everything is cached, a batch ended otherwise, whose end is then the answer, or the last retry was rate limited too |
| `Batch.EachBatchAsksForTheRest` | crates/fetch/src/lib.rs:350-365 | a batch asks for exactly the requested keys that nothing before it cached |
| `Batch.Batcher.ResolveBatched` | crates/fetch/src/lib.rs:353-365 | the retry loop sends those batches and ends so |
| `Lineage.BranchKeepsView` | crates/engine/src/lib.rs:364-404 | a child answers everything its parent answers without the fallback, and the same |
| `Lineage.BranchStaysRooted` | crates/engine/src/lib.rs:371-404 | at every depth the base is the root base overridden by `inherited`, and a child owns what its parent owned |
| `Lineage.GatherFinds` | crates/engine/src/lib.rs:299-323 | gathering keeps known code and adds the code of exactly the contracts whose code can be named |
| `Lineage.OrderIsIrrelevant` | crates/engine/src/lib.rs:306-337 | a saved state is independent of hash-map order if and only if accounts of one code hash name one code |
| `Lineage.RestoreAnswersAlike` | crates/engine/src/lib.rs:281-337 | restoring what a session saved over its root base answers every account, slot and block hash as the session did |
| `Lineage.RestoreFindsCode` | crates/engine/src/lib.rs:302-323 | a restored session resolves a code hash without the fallback exactly when the original did or held a contract of it whose code it could name |
| `Lineage.RestoreKeepsCode` | crates/engine/src/lib.rs:302-323 | with all code under its own hash, code found before is found the same after |
| `Lineage.HashedIsOrderFree` | crates/engine/src/lib.rs:306-337 | with all code under its own hash the saved state is one state |
| `Lineage.RestoreOverAnyBase` | crates/engine/src/lib.rs:281-297 | over any other base that agrees with upstream the restored session sees the same view |
| `Lineage.RestoreOverAnyMirror` | crates/engine/src/lib.rs:281-297 | so it does over one read back from a cache file, up to empty inline code |
| `Forest.NonInterference` | crates/engine/src/lib.rs:364-404 | over any run of forks, resumes, branches, executions, writes and discards, every session is exactly its own history redone alone on a plain reader |
| `Forest.EventsActOnViews` | crates/engine/src/lib.rs:364-519 | with no read failing, an opened session answers its state over its base over upstream, a child what its parent does, a written one the entry written, and an executed one its diff, computed on what it answered, over that; and the reply is what the execution comes to there |
| `Forest.OnlyTheSubjectChanges` | crates/engine/src/lib.rs:364-404 | an event touches its own session and no other, and a discard removes it |
| `Forest.RepliesDependOnHistory` | crates/session/src/lib.rs:637-653 | two runs that agree on one session's history, failed reads included and however interleaved, leave it the same, and answer it the same if upstream fails the same of the reads it makes |
| `Forest.ChildStartsAsParent` | crates/engine/src/lib.rs:364-404 | a child starts with its parent's view and keeps it whatever happens to the parent, its end included |
| `Forest.OthersChangeNothing` | crates/engine/src/lib.rs:367-370 | events of other sessions leave a session untouched |
| `Forest.EverySessionIsRooted` | crates/engine/src/lib.rs:179-185 | every session of every run has its lineage's first base under what it inherited |
| `Forest.SavedSessionsResume` | crates/engine/src/lib.rs:281-337 | any session of any run, saved and resumed over its root or any base of its block, reads as it did; over bases that went through a cache file, up to empty inline code |
| `Forest.ASavedStateMayDependOnTheWalk` | crates/engine/src/lib.rs:306-337 | a run of two account writes ends in a session whose saved state depends on the order its accounts are walked in |
| `Forest.CachesStayTruthful` | crates/fetch/src/lib.rs:433-477 | the shared caches only ever hold upstream's values |
| `Canon.SortIsCanonical` | crates/engine/src/lib.rs:328-336 | however a map's entries are handed over, sorting gives one list |
| `Canon.AscendingIsUnique` | crates/engine/src/lib.rs:205-207 | a set has one ascending list |
| `Persist.SavesIsUnique` | crates/engine/src/lib.rs:202-212 | equal session maps save as equal lists |
| `Persist.SortedListsSave` | crates/engine/src/lib.rs:328-336 | sorting the maps' entries is that form |
| `Persist.DecodeCode` | crates/engine/src/persist.rs:206-217 | all the stored code, in order, or a refusal of the whole file |
| `Persist.SnapshotRoundTrips` | crates/engine/src/persist.rs:493-565 | a snapshot loads as the state it was made from with each account's code inline when the state has it, the same state exactly when it already was so |
| `Persist.SnapshotLoadsExactlyWhen` | crates/engine/src/persist.rs:529-565 | a snapshot loads if and only if it is a parsable one of this version and chain that names its block and whose code all decodes, and as the block it names |
| `Persist.SnapshotRefusalsSayWhy` | crates/engine/src/persist.rs:529-565 | a refused snapshot is refused for what is first wrong with it, with what was found |
| `Persist.SnapshotTellsStates` | crates/engine/src/persist.rs:493-507 | equal snapshot files are of one block and one state, inline code aside |
| `Persist.SnapshotIsAFixedPoint` | crates/engine/src/persist.rs:493-565 | snapshot, load, resume on the same root, snapshot again gives the same file and so the same id, in any walking order and at any depth of branching |
| `Persist.ResumedSessionReads` | crates/session/src/lib.rs:596-604 | a session resumed from its file reads as the one saved, inline code aside, and its inline code is what the state has |
| `Persist.StoreThenLoad` | crates/engine/src/persist.rs:509-516 | after a store its id holds what was stored exactly when no other file had the id |
| `Persist.StoringAgainAnswers` | crates/engine/src/persist.rs:509-516 | a store answers its id if and only if that is fit and the file is there already or the disk takes it; storing the same again then answers the same, whatever the disk does, and writes nothing |
| `Persist.OnlyIdsAreLookedUp` | crates/engine/src/persist.rs:484-565 | nothing but 32 lower-case hexadecimal digits is ever looked up, and a missing file and an unreadable one are told apart |
| `Persist.IdsNeverChange` | crates/engine/src/persist.rs:462-466 | over any run of stores by processes sharing a directory, an id answered once loads that very state from then on, if ids do not collide and no file is lost |
| `SnapshotFiles.AnIdLoadsItsStateOrNone` | crates/engine/src/persist.rs:462-565 | at every moment of every run, across power losses, kills, failed writes and concurrent stores, an id loads the very state it was minted for or is missing, nothing else ever |
| `SnapshotFiles.AnAnsweredIdStays` | crates/engine/src/persist.rs:493-525 | an id once there, written or found, is there until power is lost, and after that exactly if it was when the directory last reached the disk |
| `Persist.StoredUnderItsId` | crates/engine/src/persist.rs:509-516 | whatever is under an id, a store of that id put it there |
| `Persist.SnapshotStore.Store` | crates/engine/src/persist.rs:493-525 | mint the id, write only if absent, report a bad id or a failed write |
| `Persist.SnapshotStore.Load` | crates/engine/src/persist.rs:529-565 | the checks in order, each with its error, failed reads included, then the state |
| `ForkCache.CacheRoundTrips` | crates/engine/src/persist.rs:328-415 | a stored cache loads back, the same snapshot exactly when it is closed under code, with its four-field env exactly when that is of the key's block and fits a u64 |
| `ForkCache.LoadsExactlyWhen` | crates/engine/src/persist.rs:328-371 | a file loads if and only if it is a parsable cache file of this version, chain and block whose code all decodes |
| `ForkCache.CacheRefusalsSayWhy` | crates/engine/src/persist.rs:328-371 | a refused cache is refused for what is first wrong with it, with what was found |
| `ForkCache.LoadedEnvIsOfTheBlock` | crates/engine/src/persist.rs:328-371 | the env that comes with a loaded cache is the file's if that is of the key's block, and none otherwise |
| `ForkCache.OtherFilesAreRefused` | crates/engine/src/persist.rs:348-355 | a file of another key is always refused, and neither kind of file is read as the other |
| `ForkCache.CacheSnapshotIsSound` | crates/fetch/src/lib.rs:583-607 | what a run fetched is a snapshot of upstream's state closed under code, in any order, nothing under the empty hash though accounts may carry empty code inline |
| `ForkCache.CacheHoldsAllFetched` | crates/fetch/src/lib.rs:583-607 | no account, slot, block hash or code that was fetched is left out |
| `ForkCache.SoundRevives` | crates/engine/src/persist.rs:219-235 | a sound snapshot comes back from its file without its empty inline code and otherwise the same, so unchanged exactly when no account carried any |
| `ForkCache.ASnapshotIsTrimmed` | crates/fetch/src/lib.rs:583-607 | a fetched account with empty inline code, whose snapshot comes back from its file without it |
| `ForkCache.MergeIsSound` | crates/engine/src/lib.rs:54-61 | folding fetched state into the seed loses no key and keeps every value upstream's |
| `ForkCache.MergePrefersNewer` | crates/engine/src/lib.rs:54-61 | where both snapshots have an entry the newer one's is taken, and otherwise whichever there is |
| `ForkCache.CacheOnlyWarms` | crates/bin/src/main.rs:66-70 | over any number of runs at one chain and block the file is absent or sound, a saved run loads again as all it was seeded with and all it fetched, empty inline code aside, and a run that fails to save leaves the file as it was |
| `Crash.TargetIsWhole` | crates/engine/src/persist.rs:248-274 | at any moment of any run, across power losses, kills, failures and concurrent writers, a target is absent or holds one call's bytes whole |
| `Crash.SkippingAnExistingFileIsSound` | crates/engine/src/persist.rs:512-516 | a target named after its bytes, when found, holds them |
| `Crash.TargetsOnlyChangeBy` | crates/engine/src/persist.rs:251-274 | only its own rename or a power loss ever changes what a target holds, and to what |
| `Crash.LossGoesBackToTheLastSave` | crates/engine/src/persist.rs:248-274 | over any run, a power loss leaves of every target exactly what it held when the directory last reached the disk |
| `Crash.AnAnswerSurvivesIffSaved` | crates/engine/src/persist.rs:509-516 | a store that answered, having written its file or found it there, keeps it over a power loss exactly when the target was there at the last save, as it was if that came after the answer |
| `Crash.AnAnsweredStoreMayBeLost` | crates/engine/src/persist.rs:269-274 | power going right after the rename leaves the bytes exactly when the directory on disk already had them; once the directory is on disk they stay |
| `Crash.AnAnsweredStoreIsLost` | crates/engine/src/persist.rs:251-274 | six steps from an empty disk: a call is written, synced, renamed and answers, power goes, and its target is not there, lost as well to whoever found it and skipped writing |
| `Crash.StepKeeps` | crates/engine/src/persist.rs:251-274 | every step of every writer, and every loss, keeps the invariant behind it |
| `Crash.FileSystem.WriteAtomically` | crates/engine/src/persist.rs:251-274 | on success the target is the whole synced file, on any failure it is untouched, the temporary name is gone either way and no other file changes; and what it does is steps of one call of the step machine, one after the other |
| `Crash.RunGoesOn` | crates/engine/src/persist.rs:251-274 | a run that reached the disk the call started from, and then the steps of the call, is a run: what holds of runs holds of the call in place |
| `Manager.DoneKeepsConsistent` | crates/session/src/lib.rs:468-578 | every operation of honest callers keeps each session's whole env, its fallback and its root base on one block |
| `Manager.BlocksNeverChange` | crates/session/src/lib.rs:456-476 | over whole runs a live session stays on the block and fallback it was opened with |
| `Manager.RestoreIsAtItsBlock` | crates/session/src/lib.rs:567-578 | a resumed session is at its snapshot's block with exactly its state, and resuming fails only when that block is not the default and cannot be forked |
| `Manager.ForkDefaultReads` | crates/session/src/lib.rs:494-515 | a fork of the default block answers its seed over the default base over the default fallback, owns its seed, and touches no other session |
| `Manager.ForkAtReads` | crates/session/src/lib.rs:530-553 | a fork of another block is of what its cell holds, else of what the factory answers, which then fills the cell, with no base; with neither there is no session and no cell is filled; asking counts as use regardless |
| `Manager.PinnedIsShared` | crates/session/src/lib.rs:518-551 | two sessions asked for at one block, one after the other, are on one fork, env and base, whatever the factory would answer the second time |
| `Manager.RestoreForks` | crates/session/src/lib.rs:571-578 | resuming is forking the default block if that is the one asked for, and forking at the block otherwise |
| `Manager.RefreshMovesTheDefault` | crates/session/src/lib.rs:468-476 | after a refresh new sessions fork the new fallback under the new env with no base, and those there are as they were |
| `Manager.ForkFromReads` | crates/session/src/lib.rs:637-653 | the session under the returned id answers every query without upstream as the parent does and owns what it owns, on its fork and env; the parent and all others are as they were |
| `Manager.DiscardRemoves` | crates/session/src/lib.rs:776-782 | a discarded session is gone, and nothing else |
| `Manager.SetEnvAloneMayTearBlocks` | crates/session/src/lib.rs:446-454 | setting the env alone keeps new sessions on one block if and only if it is the fallback's |
| `Manager.SetEnvAloneReads` | crates/session/src/lib.rs:446-454 | a session opened then has the env it was given and reads the state of the block the fallback forks |
| `Manager.ASetEnvTearsABlock` | crates/session/src/lib.rs:446-454 | a session that reads, under the number of block 101, a balance the account does not have at block 101 |
| `Manager.PinnedSound` | crates/session/src/lib.rs:530-551 | the pinned block handed out is the block asked for |
| `Manager.SessionManager.RefreshFallback` | crates/session/src/lib.rs:468-476 | fallback and env are swapped and the base dropped, sessions untouched |
| `Manager.SessionManager.ForkSeeded` | crates/session/src/lib.rs:494-515 | a session on the default block with the next id |
| `Manager.SessionManager.ForkAtBlockSeeded` | crates/session/src/lib.rs:530-553 | recency moves first, then the cell or the factory, then registration, with each failure's state |
| `Manager.SessionManager.RestoreAt` | crates/session/src/lib.rs:571-578 | on the default base when that is the block, otherwise on a pinned one |
| `Manager.SessionManager.ForkFrom` | crates/session/src/lib.rs:637-653 | an id is taken only once the branch succeeded |
| `PinnedBlocks.RecencyIsTheLastDistinct` | crates/session/src/lib.rs:79-102 | after any history `recency` is the last `cap` distinct blocks in the order of their last requests, and they are the keys of `cells` |
| `PinnedBlocks.OrderIsOfLastUse` | crates/session/src/lib.rs:79-102 | behind a block stands exactly what was requested after its last request |
| `PinnedBlocks.NearRequestsShare` | crates/session/src/lib.rs:518-551 | two requests for a block with fewer than `cap` others between share a cell, and once one succeeded the other has its answer without asking the factory |
| `PinnedBlocks.OneSuccessPerCell` | crates/session/src/lib.rs:75-78 | a cell is filled by at most one success |
| `PinnedBlocks.FailureIsRetryable` | crates/session/src/lib.rs:75-78 | after a failed request the next request for its cell, however many for other cells come between, asks the factory again and has its answer |
| `PinnedBlocks.FilledBySuccess` | crates/session/src/lib.rs:75-78 | a cell is filled if and only if an earlier request for it came when the factory could answer |
| `OnceCells.RequestsCollapse` | crates/session/src/lib.rs:74-76 | however requests for one cell overlap, the factory has been called at most once more than it failed, never twice at a time, and all who succeed have one value |
| `OnceCells.FullForGood` | crates/session/src/lib.rs:74-76 | once full, a cell keeps its value and calls the factory no more |
| `OnceCells.FullAnswersAll` | crates/session/src/lib.rs:74-76 | whoever is answered once the cell is full is answered with its value |
| `OnceCells.NobodyIsStuck` | crates/session/src/lib.rs:74-78 | an unanswered request can go on, or the one calling the factory will end |
| `PinnedBlocks.KeepsCell` | crates/session/src/lib.rs:88-102 | until fewer than `cap` others no longer holds, a block keeps its cell |
| `PinnedBlocks.PinnedTable.CellOf` | crates/session/src/lib.rs:88-102 | the retain, push, insert and evict loop computes the table |
| `Mt.TermRecurrence` | crates/loadgen/src/main.rs:111-121 | the terms the array holds are those of x[n + 624] = x[n + 397] xor twist(x[n], x[n + 1]) |
| `Mt.Regenerate` | crates/loadgen/src/main.rs:111-121 | rewriting the 624 words in place gives the next 624 terms |
| `Mt.PyRandom.NextU32` | crates/loadgen/src/main.rs:111-129 | the k-th call answers the tempered (624 + k)-th term for the seed's words |
| `Mt.PyRandom.constructor` | crates/loadgen/src/main.rs:61-100 | seeding a generator gives the words of `init_by_array` for the seed's digits, nothing drawn |
| `Mt.InitByArray` | crates/loadgen/src/main.rs:75-98 | both mixing loops with their wrap-around compute the seeded words |
| `Mt.InitGenrand` | crates/loadgen/src/main.rs:102-109 | each word grown from the one before |
| `MtReference.SeededWords` | crates/loadgen/src/main.rs:75-109 | for a key of up to 624 words, each seeded word by a recurrence over the words alone, without array, wrap-around or loop |
| `MtReference.FoldsAddUp` | crates/loadgen/src/main.rs:75-109 | the three factors of seeding, as wrapping addition repeated |
| `MtReference.SeedingKnownAnswers` | crates/loadgen/src/main.rs:75-109 | words other implementations of the generator give |
| `Mt.KeyWords` | crates/loadgen/src/main.rs:64-74 | the loop pushes the seed's 32-bit digits, lowest first, and a single zero for zero |
| `Mt.DigitsTell` | crates/loadgen/src/main.rs:64-74 | the digits tell the seed, each fits a word, and the highest is not zero |
| `Mt.TemperingIsInvertible` | crates/loadgen/src/main.rs:125-128 | tempering is a bijection with `Untemper` its inverse |
| `MtReference.TemperingIsLinear` | crates/loadgen/src/main.rs:125-128 | tempering takes each bit of a word by itself |
| `MtReference.TemperedBits` | crates/loadgen/src/main.rs:125-128 | what it makes of each of the 32 bits |
| `MtReference.TwistIsTheMatrix` | crates/loadgen/src/main.rs:111-121 | the twist halves an even word and adds the matrix row to what it makes of an odd word's even neighbour |
| `Mt.OutputsDetermineTheRest` | crates/loadgen/src/main.rs:111-129 | any 624 outputs in a row, untempered, are words that draw exactly what follows, for ever |
| `Mt.PyRandom.RandBelow` | crates/loadgen/src/main.rs:131-139 | the first draw whose top bits fall below n, every earlier one rejected, only those draws used |
| `MtReference.BitLengthIsLeast` | crates/loadgen/src/main.rs:131-139 | a draw is cut to as many bits as the bound takes and no more |
| `MtReference.TopKnownAnswers` | crates/loadgen/src/main.rs:131-139 | and they are its top ones |
| `TokenBucket.AdmittedInWindow` | python/benchmarks/rpc_proxy.py:84-92 | in every window of time the tokens asked of the calls to `try_consume` that were answered true are at most the burst and the rate times the window, whatever else the bucket is asked |
| `TokenBucket.AdmissionsInOrder` | python/benchmarks/rpc_proxy.py:75-82 | admission times never decrease in call order |
| `TokenBucket.AdmittedIsEarned` | python/benchmarks/rpc_proxy.py:69-92 | the tokens asked for and admitted by any time, reserved or consumed, never exceed the burst and what was earned since the start |
| `TokenBucket.BalanceBounds` | python/benchmarks/rpc_proxy.py:69-92 | the balance is at most the burst and the earnings since any call, less all tokens reserved, and consumed by calls answered true, from it on |
| `TokenBucket.BalanceIsTight` | python/benchmarks/rpc_proxy.py:69-92 | and it is exactly that for some call, or exactly the start and all earnings less those tokens: nothing is lost but what a full bucket cannot hold |
| `TokenBucket.CallIsExact` | python/benchmarks/rpc_proxy.py:69-92 | a call takes from the refilled balance its tokens if it reserves, or consumes and is covered, which is exactly when it answers true, and otherwise nothing |
| `TokenBucket.BackwardsEarnsNothing` | python/benchmarks/rpc_proxy.py:69-73 | a clock that went back earns nothing |
| `TokenBucket.ConsumesExactlyWithinBurst` | python/benchmarks/rpc_proxy.py:84-92 | a full bucket lets a request through if and only if it is within the burst |
| `TokenBucket.PerSecondIsSteady` | python/benchmarks/rpc_proxy.py:69-82 | a positive rate earns in proportion to time, and what is owed takes the time that earns it |
| `TokenBucket.TokenBucket.Reserve` | python/benchmarks/rpc_proxy.py:75-82 | charge, then wait for the debt to be earned |
| `TokenBucket.TokenBucket.TryConsume` | python/benchmarks/rpc_proxy.py:84-92 | charge if and only if the refilled balance covers it |
| `TokenBucket.Create` | python/benchmarks/rpc_proxy.py:50-67 | a bucket exactly for a positive rate and burst, full, the burst defaulting to a second of the rate |

## Left out

- Execution itself: the EVM, gas, fees, transaction decoding and the wording of errors. Execution is an arbitrary reader program.
- The HTTP and MCP surfaces, the ingest loop, the rest of the load generator and of the benchmarks, process control and plotting.
- The upstream client, its keep-alive and semaphore, how a rate limit is recognised in an error text, and how long retries wait. A batch is an outcome: what it cached, and how it ended.
- Real time. Idle sessions expire at arbitrary moments; the per-session clock that decides which are idle is not kept, nor is the live-session count the workers publish.
- A panic that escapes a pass and unwinds through the worker (`crates/session/src/lib.rs:858-860`), which drops the queue being run. A pass cut short by a panic is rolled back exactly (`Passes.RollbackIsExact`); a resolver that panics is a failed resolve.
- Reply channels whose client has gone, and workers that have exited.
- The list of misses as a list: a deferred job's keys are the set of them, which is what sorting and deduplicating leaves.
- Worker.WorkerThread.Borrow: sessions in the worker's map are values, lent to a `Session` object for the length of a job and stored back, so aliasing between a session and the map is not modelled; each session has one owner in the source too.
- Engine.Session.Commit: an execution's diff is given as two maps, accounts and slots, already flattened from per-account entries and holding only touched ones.
- SingleFlight.FlightTable.ClaimKeys: flights are rows of a table; the condition variable a waiter sleeps on is the `Wake` step, and a claim under the lock is one step.
- SingleFlight.NeverFetchedAgain: blocking reads outside `resolve` bypass the table in the source, and may fetch a key again; the claim is about `resolve`.
- Batches and the backend's own cache: `send_batch` also writes what it got into the backend's cache, which appears here only as the source of a fork-cache snapshot, and it answers an account with no code, balance or nonce as present where the single read may answer that there is none; both count as upstream's one value.
- Persist.SnapshotStore.Load: the directory layout beyond one path per chain and id is not modelled.
- JSON text: files are records, and bytes that do not parse are one value.
- SnapshotFiles.AnIdLoadsItsStateOrNone: a path is taken to be a file name of its own, and a file's bytes to parse as the file; asking whether a file exists and writing it are steps apart, so two stores may both write it.
- ForkCache.CacheRoundTrips: block envs have only the four fields a header sets; the others are defaults in the source as well.
- Crash.TargetIsWhole: processes alive at one time are taken to have distinct process ids, as the temporary names assume, and the directory to reach the disk as a whole; creating the directory itself is not modelled.
- Manager.DoneKeepsConsistent: the operations that take several locks in turn are one step each, so nothing is claimed of a fork that runs between two of `refresh_fallback`'s assignments.
- Mt.PyRandom.RandBelow: asks that some later draw be accepted, without which the source's loop never ends, and for a bound of at most 32 bits, beyond which its shift is out of range; no draw is accepted for a bound of zero.
- MtReference.SeededWords: for keys of up to 624 words, which is seeds below 2 to the 19968; `Mt.InitByArray` is for keys of any length.
- TokenBucket.AdmittedInWindow: times and tokens are reals, not floats, on a clock that does not go back; the bucket's lock makes each call one step.
