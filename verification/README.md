# Aphid native bridge: sessions, retirement and values

A Dafny model of the C++ bridge (`native/bridge.cpp`, contract in `native/bridge.h`) between the
BEAM and the LadybugDB engine, with proofs about every interleaving of its threads.

**Session protocol.** `Protocol.dfy` gives one session as a state machine: one function for each
critical section, and for each stretch one thread runs without the lock. API threads reserve, submit,
cancel, finish, and acquire or release leases; the worker carries a program counter with its captured
locals; a fetching thread, the retiring thread and the interrupt controller interleave freely.
`Engine.dfy` abstracts the engine to a durable store, at most one open transaction per connection and
a statement tree; what the engine may decide either way arrives in a `Reply`, so results hold for
every such decision (a failing query may or may not close its transaction, a failing commit or
autocommit query may or may not have taken effect, a throwing fetch may or may not lose a row); what
the engine is taken to do always is listed below. `History.dfy` records a run without influencing it. One invariant
(`Invariants`, `Transactions`, `Completions`, `Destruction`, `Streaming`) is kept by every step and
gives the run theorems in `Soundness`, `Atomicity`, `Generations`, `Fetching`, `Shutdown`, `Reclaim`,
`Requests`, `Outcomes`, `Losses` and `Submissions`. `Effects` says what every execution must do by its
code, `Annals` notes along a run what callers were told, and `Answers` proves every answer of every entry
point to be exactly what those notes make it, grants and refusals alike. `NativeSession.dfy` is the object itself, with the
source's fields and one method for each critical section; every method is proved to change the object's
view exactly as the protocol function of the same name does. The preconditions of the callers' methods
are those of the protocol's steps, and `NativeSession.Session.Work` takes any turn of the worker from the
protocol's invariant alone, so the run theorems are about that object.

**Runtime.** `RuntimeProtocol.dfy` has the registry, counted ownership, the retirement queue and the
cleaner; `RuntimeInvariant.dfy` and `RuntimeSafety.dfy` prove what every run keeps, and `Retirement.dfy` that
retirement comes to its end. `NativeRuntime.dfy`
is the registry vector and the linked queue threaded through the databases. `Composition.dfy` proves
that every session step, seen by the runtime, is a step the runtime admits; `System.dfy` puts all
databases with all their sessions into one machine and proves what its runs keep.

**Types and values.** `Numbers.dfy` has the 128-bit two's-complement encoding and the decimal limit,
`Types.dfy` type construction and inspection, `Values.dfy` scalars, `Keys.dfy` map-key equality,
hashing and the hash set, `Construction.dfy` nested values and who owns the children while they are
built, `NestedValues.dfy` the round trip at any depth. What the engine, the hardware or the standard
library decides is a parameter (`Facts`, `Hashers`).

## Hypotheses

About callers and threads, as the guards `History.Allowed`, `History.Enabled` and
`Composition.CallersEntitled`:

- Operation and lease identities are fresh and nonzero, as `aphid_next_id` provides
  (`native/bridge.cpp:433`).
- A reservation is submitted successfully at most once (`native/bridge.h:71-76`); refused attempts may be
  repeated. `Submissions.SafeIffFirstSubmission` proves that an accepted submission, of a query or of a
  control, is safe if and only if it is the reservation's first;
  `Submissions.SecondSubmissionOverwritesFetch` and `Submissions.LateControlLosesCompletion` are runs in
  which a second one overwrites a result being fetched and loses a completion.
- A control carries the identity of its own reservation, under a nonzero lease, as
  `aphid_transaction_control` makes it.
- The cancellation callback does not throw while a submission holds the lock (`native/bridge.cpp:529`).
- Thread infrastructure fails only where the worker takes its lock to dequeue (103), rolls back (123) or
  takes its lock after a completion (184).
- The fetch functions are called by the holder of the cursor (`native/bridge.h:92-98`).
- For `RuntimeProtocol`: handles are used by those who own them, and the cleaner is one thread.
- The progress theorems of `Reclaim` count worker steps without an infrastructure failure and with a
  rollback that does not throw; that of `Shutdown` needs neither.

About the engine and the standard library, as `Engine.RunText`, `Engine.RunControl`, `Protocol.FetchNext`,
`Keys.LeafEqual` and `Keys.RespectsZero` have them:

- A statement that is not a transaction statement never opens a transaction and never commits an open
  one, whether it succeeds or fails; in autocommit it takes effect wholly or not at all.
- A successful begin opens an empty transaction; a commit that takes effect makes exactly the
  transaction's writes durable; a rollback and the destruction of a connection make none durable.
- A result delivers its rows in order through one tuple buffer; a throwing fetch delivers nothing and
  loses at most one row.
- Equality of scalars of one type is equality of the inspected fields, with both zeros equal and NaN
  equal to nothing; equal numbers, both zeros included, hash equally.

## Where code and documentation differ

The comment at `native/bridge.cpp:494` says that release or retirement already requested cleanup of a
refused control's reservation. After a plain cancel nothing has: the reservation stays until an
abandoning cancel, a lease release or retirement. The model follows the code:
`Reclaim.RefusedControlStrands` is the input, `Reclaim.RefusedControlIsStrandedIff` the exact condition
under which a refused control is stranded, and `Reclaim.StrandedUntilFreed` the exact condition that ends it.

## Model

| member | source | states |
|---|---|---|
| `Engine.ValidateQuery` | native/bridge.cpp:53-63 | A text is accepted exactly when it parses to one statement whose innermost statement, under any EXPLAIN wrappers, is not a transaction statement; which of the refusals is raised is determined |
| `Engine.ExplainDepthDoesNotMatter` | native/bridge.cpp:57-62 | Wrapping a statement in any number of EXPLAINs never changes the verdict, and a wrapped transaction statement is always refused |
| `Engine.AcceptableIffOnePlainStatement` | native/bridge.cpp:53-63 | Accepted are exactly the texts of one plain statement under any number of wrappers |
| `Engine.ReplayDecides` | native/bridge.cpp:147-150 | After a replay every key holds what the last write to it says, and the others are as before |
| `Engine.UserTextCannotControlTransaction` | native/bridge.cpp:153-167 | Whatever text a user passes and however the engine answers, running it opens no transaction, commits none, and under a lease makes nothing durable by itself; without one it makes its own writes durable or none |
| `NativeSession.Session.constructor` | native/bridge.cpp:64-81 | A new session is the protocol's initial state with its own open connection |
| `NativeSession.Connection.Persist` | native/bridge.cpp:147-150 | Making a batch durable, write by write, replays exactly that batch on the store |
| `NativeSession.Connection.RunControl` | native/bridge.cpp:145-151 | Begin, commit and rollback take the transaction and the store as specified and throw exactly when the outcome's code is 3 |
| `NativeSession.Connection.RunAccepted` | native/bridge.cpp:156-166 | An accepted text changes transaction and store, and yields code, result and statement, as specified |
| `NativeSession.Session.AcquireLease` | native/bridge.cpp:445-453 | Succeeds exactly on a free, unstopped, unleased session with a nonzero identity; refusals change nothing |
| `NativeSession.Session.ReleaseLease` | native/bridge.cpp:455-463 | Takes effect exactly for the current lease, marking it abandoned and cancelling and discarding the operation, whatever the worker does |
| `NativeSession.Session.Reserve` | native/bridge.cpp:465-477 | Succeeds exactly when idle, not stopped and the lease matches and is neither abandoned nor failed |
| `NativeSession.Session.Submit` | native/bridge.cpp:506-537 | Accepts a job exactly for the live, unsubmitted, uncancelled reservation, recording what the cancellation callback says |
| `NativeSession.Session.SubmitControl` | native/bridge.cpp:489-500 | Accepts a control job exactly for the uncancelled reservation of a live lease |
| `NativeSession.Session.Cancel` | native/bridge.cpp:539-548 | Marks exactly the operation named, with abandonment if asked; other identities have no effect |
| `NativeSession.Session.Finish` | native/bridge.cpp:550-558 | Requests destruction exactly of the named operation once it is ready |
| `NativeSession.Session.State` | native/bridge.cpp:560-565 | The public snapshot of the protocol state |
| `NativeSession.Session.RequestStop` | native/bridge.cpp:290-295 | Retirement stops, cancels and discards in one critical section |
| `NativeSession.Session.Interrupt` | native/bridge.cpp:83-88 | The controller reaches the connection exactly when an operation is executing that was cancelled or stopped, and never without a connection |
| `NativeSession.Session.FetchBegin` | native/bridge.cpp:584-602 | Grants the one fetch lease exactly for a ready, successful, undiscarded result on an unstopped session |
| `NativeSession.Session.FetchNext` | native/bridge.cpp:652-666 | Releases the previous row, then delivers the pushed-back row or the engine's next one, or reports the end or a fault, as the protocol says |
| `NativeSession.Session.FetchUnread` | native/bridge.cpp:638-643 | Pushes back the current row once |
| `NativeSession.Session.FetchDrop` | native/bridge.cpp:620 | The cursor and its row go before the lease is given back |
| `NativeSession.Session.FetchEnd` | native/bridge.cpp:621-625 | Gives the fetch lease back |
| `NativeSession.Session.Dequeue` | native/bridge.cpp:99-116 | The worker takes the pending job or, without one, the result, row and statement, and captures stop, cancellation and lease release in the same section |
| `NativeSession.Session.DropNext` | native/bridge.cpp:117-120 | Row, result and statement are destroyed in that order, outside the lock |
| `NativeSession.Session.RollBack` | native/bridge.cpp:121-124 | An open transaction of a captured release is rolled back without touching the store; a throwing rollback ends the worker |
| `NativeSession.Session.Clear` | native/bridge.cpp:125-135 | Operation flags and identity are cleared together, the lease only if its release was captured |
| `NativeSession.Session.Execute` | native/bridge.cpp:137-172 | The dequeued job runs as specified: cancelled, control, refused or query; store and transaction follow its outcome |
| `NativeSession.Session.Publish` | native/bridge.cpp:173-181 | Result, statement, position, error, readiness and lease failure are published in one section |
| `NativeSession.Session.Complete` | native/bridge.cpp:182-188 | One completion call; an undelivered result is discarded |
| `NativeSession.Session.Fail` | native/bridge.cpp:190-204 | An infrastructure failure stops the session and completes a pending job with an error |
| `NativeSession.Session.Work` | native/bridge.cpp:90-220 | From any state that satisfies the invariant, one turn of the worker is the protocol's worker step, persists exactly what that step makes durable, and keeps the connection until its hand-off |
| `NativeSession.Session.Exit` | native/bridge.cpp:206-220 | After the last fetch: row, result, statement, hand-off of the connection, its destruction, exit |
| `Invariants.ShapeKept` | native/bridge.cpp:64-222 | Every lawful step of any thread keeps the consistency of flags, owned objects and the worker's position |
| `Invariants.BaseKept` | native/bridge.cpp:435-627 | Under the caller hypotheses every step keeps shape, identities and the record of who was asked to end |
| `Invariants.EnabledIsLawful` | native/bridge.h:71-76 | The hypotheses about callers imply all the session needs of them |
| `Soundness.FreshIsSound` | native/bridge.cpp:64-81 | The initial state satisfies the whole invariant |
| `Soundness.SoundKept` | native/bridge.cpp:90-222 | Every enabled step keeps the whole invariant |
| `Soundness.SoundAlong` | native/bridge.cpp:90-222 | The invariant holds after every run |
| `Transactions.ExecutionStart` | native/bridge.cpp:137-155 | A job starts under the lease it was reserved with, no earlier job of it having failed, and any open transaction holds exactly that lease's batch |
| `Transactions.ExecutionContributes` | native/bridge.cpp:144-166 | What one execution makes durable is what the execution log alone prescribes |
| `Transactions.LogKept` | native/bridge.cpp:144-181 | The log stays consistent with reservations, leases and the open transaction |
| `Atomicity.ConsistentKept` | native/bridge.cpp:137-181 | With many sessions on one store, every step of any of them keeps the store equal to the replay of what the global order committed |
| `Atomicity.StoreIsCommittedWork` | native/bridge.cpp:144-166 | In every schedule of any number of sessions the store is the replay, in execution order, of ordinary queries that succeeded, or whose fault was durable all the same, and of batches whose commit took effect |
| `Effects.SuccessTakesEffect` | native/bridge.cpp:144-151 | In every run, by the log alone: a commit with code 0 took effect, under a lease nothing but a commit ever does, and a job with code 4 wrote nothing |
| `Effects.EveryExecutionAdds` | native/bridge.cpp:144-166 | In every schedule a commit with code 0 adds to the committed work exactly its lease's batch, a successful ordinary query exactly its writes, a failing commit its batch or nothing, and every other execution nothing |
| `Effects.ExecutionIsExact` | native/bridge.cpp:137-172 | In every run and for every answer of engine and callback: a job is skipped with code 4 exactly if it was cancelled at dequeue or its own callback says so; a query succeeds exactly if acceptable, with a transaction under a lease, and taken by the engine, a control as its transaction and the engine decide; a success writes, returns, opens, commits or rolls back in full, and is logged so |
| `Atomicity.UncommittedLeaseLeavesNoTrace` | native/bridge.h:51-58 | Deleting from the execution order all jobs of a lease without an effective commit leaves the committed work unchanged |
| `Soundness.LeaseReadIsReservation` | native/bridge.cpp:153-154 | In every run the lease read without the lock is the one the job was reserved under, and a transaction is open only under a nonzero lease |
| `Soundness.FailedLeaseHistory` | native/bridge.cpp:173-181 | In every run all jobs of a lease but possibly its last succeeded, so a commit follows successes only |
| `Soundness.ExactlyOnceCompletion` | native/bridge.h:38-42 | In every run completions are the accepted submissions in order, each once, at most one outstanding, and at worker exit none missing |
| `Completions.InFlightAfterControl` | native/bridge.cpp:479-537 | An accepted submission adds exactly one outstanding job, a refused one none |
| `Completions.InFlightAfterWorker` | native/bridge.cpp:182-203 | Every worker step conserves completed plus outstanding jobs, in order |
| `Outcomes.OutcomeKept` | native/bridge.cpp:173-188 | Until a failed worker is recorded the current outcome is that of the last execution |
| `Outcomes.CompletionReportsExecution` | native/bridge.cpp:182-203 | In every run a completion carries the code of its own job's execution; a job completed by a failing worker was never executed |
| `Outcomes.OnlySuccessIsFetched` | native/bridge.cpp:594-598 | In every run only the result of a successful execution can be fetched |
| `Soundness.DestroyedOnceInOrder` | native/bridge.cpp:205-218 | In every run rows go before their result, results before their statement, all before the connection; at exit exactly what was created was destroyed |
| `Destruction.ConservationKept` | native/bridge.cpp:111-120 | Every step conserves created against destroyed plus living objects, object by object |
| `Destruction.DestroyedSoFarKept` | native/bridge.cpp:111-120 | Every step keeps the order of destructions |
| `Soundness.InterruptedConnectionIsAlive` | native/bridge.cpp:83-88 | In every run an interrupted connection is neither handed off nor destroyed |
| `Soundness.InterruptsWereRequested` | native/bridge.cpp:83-88 | In every run the controller interrupts only operations whose cancellation, lease release or stop was requested |
| `Annals.NotesKept` | native/bridge.cpp:435-627 | Every step keeps the session's flags in agreement with what callers have been told |
| `Answers.StateInEveryRun` | native/bridge.cpp:560-565 | In every run the public state is 3 exactly after a stop or worker failure, else 2 or 1 exactly while a reservation is not given up and has or has not been completed, 4 while a lease is held and no reservation, and 0 otherwise |
| `Answers.LeaseAnswersInEveryRun` | native/bridge.cpp:445-463 | In every run a lease is granted exactly in state 0, and a release takes effect exactly while the lease is held |
| `Answers.ReserveInEveryRun` | native/bridge.cpp:465-477 | In every run an ordinary reservation succeeds exactly in state 0, one under a lease exactly in state 4 with that lease held, not released, and without a failed execution of it in the log |
| `Answers.SubmitInEveryRun` | native/bridge.cpp:490-531 | In every run a query or control is accepted exactly for a current reservation whose end nobody requested, on a session not stopped; a second query only while the first runs |
| `Answers.EndInEveryRun` | native/bridge.cpp:539-558 | In every run cancel is effective exactly for the current operation, and finish exactly for it once completed |
| `Answers.FetchInEveryRun` | native/bridge.cpp:594-600 | In every run a fetch begins exactly for the completed success of a query that was not dismissed, on a session not stopped, while nobody else fetches it |
| `Answers.NothingUnaskedInEveryRun` | native/bridge.cpp:98-135 | In every run the worker gives up only operations that were finished, abandoned, released, stopped or not delivered, and takes back only released leases; all others stay |
| `Answers.FetchingInEveryRun` | native/bridge.cpp:638-666 | In every run, whatever the engine does: a fetch answers -1 exactly if the engine threw and no row was pushed back, 1 exactly with one more row, the next one if none was lost, and 0 only without a fault and, if none was lost, exactly when all rows were received; a push-back succeeds exactly while a row is held and that row comes next |
| `Answers.EndIsTrueInEveryRun` | native/bridge.h:112 | In every run a result once reported to be at its end was received whole, unless the engine lost a row of it |
| `Requests.InterruptsExactlyTheRequested` | native/bridge.h:77-79 | In every run the controller interrupts exactly the executing operations whose end was requested, so no request is forgotten until execution ends |
| `Requests.DiscardTakesEffect` | native/bridge.cpp:539-558 | An effective finish, abandon, lease release or stop discards the current operation |
| `Requests.DiscardIsFinal` | native/bridge.cpp:594-598 | Once discarded, no fetch of that result begins and no job is accepted for that identity, in every run |
| `Soundness.StreamedRowsArePrefix` | native/bridge.cpp:638-666 | In every run the rows received, net of push-backs, are as many as the position says and a held row's tuple buffer still holds that row; unless a throwing engine lost a row of this result they are a prefix of it, and the end is reported exactly when all were received |
| `Losses.OrderKept` | native/bridge.cpp:638-666 | Every step keeps the rows received a subsequence of the rows handed out, losses and push-backs included |
| `Losses.ReceivedInOrder` | native/bridge.cpp:638-666 | In every run, whatever rows a throwing engine loses, the rows received are a subsequence of the result: none repeated, none out of order |
| `Streaming.StreamKept` | native/bridge.cpp:584-666 | Every step keeps position, push-back and tuple buffer in agreement with what was received, also after a lost row |
| `Generations.ReservationStartsClean` | native/bridge.cpp:465-477 | Every successful reservation finds no cancellation, discard, readiness, pending job, result, row, statement or fetch |
| `Generations.StaleOperationForever` | native/bridge.h:77-80 | Once an identity has lost the session, every later call carrying it is refused and changes nothing, in every run |
| `Generations.ReservationSupersedes` | native/bridge.h:73-76 | After a successful reservation every earlier identity is dead for the rest of the run |
| `Generations.StaleLeaseForever` | native/bridge.h:51-56 | A lease that has lost the session is harmless for ever |
| `Generations.ReleaseTakesEffect` | native/bridge.cpp:455-463 | A release that returns 1 sets the lease aside and wakes the worker, unless a fetch or the worker's own pass delays it |
| `Generations.ReleasedLeaseKept` | native/bridge.cpp:121-133 | A released lease stays released until a step that leaves no transaction open |
| `Generations.ReleaseIsNeverLost` | native/bridge.cpp:98-135 | In every run, wherever the release landed, nothing is reserved under that lease any more |
| `Generations.StateZeroMeansIdle` | native/bridge.h:54-55 | Public state 0 implies no transaction, result, row, statement, pending job or fetch, an idle worker and no outstanding completion |
| `Generations.PendingJobNeverReachesEngine` | native/bridge.cpp:141-142 | A job still pending when it is cancelled, released or stopped never reaches the engine, in every continuation |
| `Fetching.OthersLeaveFetchAlone` | native/bridge.cpp:584-627 | While a cursor is open no step of any other thread, a failing worker included, moves result, unread row, statement, connection, transaction or position, accepts an operation or destroys anything |
| `Fetching.FetchLeaseIsExclusive` | native/bridge.h:92-98 | The same for whole runs without a step of the holder |
| `Fetching.HolderIsNeverStuck` | native/bridge.h:92-98 | The holder can always go on and always give its lease back |
| `Submissions.SafeBySession` | native/bridge.cpp:490-498 | What the flags say: an acceptable query is safe if and only if the worker does not hold a job of that identity, an acceptable control if and only if moreover the session is busy with nothing pending or ready |
| `Submissions.SafeIffFirstSubmission` | native/bridge.cpp:490-523 | In every run a query or control that would be accepted replaces no pending job and keeps the session consistent if and only if nothing was accepted for its reservation before |
| `Submissions.SecondSubmissionOverwritesFetch` | native/bridge.cpp:522-523 | A concrete run in which submitting a query twice for one reservation lets the worker replace a result that is being fetched |
| `Submissions.LateControlLosesCompletion` | native/bridge.cpp:490-498 | A concrete run in which a control replaces the accepted query of its reservation: two submissions accepted, one completed, the query never executed, the worker exited |
| `Shutdown.WorkerLowersRank` | native/bridge.cpp:90-220 | After stop every worker step lowers a bound on the steps left |
| `Shutdown.CallersCannotDelay` | native/bridge.cpp:287-296 | After stop no call admits a reservation, a submission or a fetch, or raises the bound |
| `Shutdown.StoppedWorkerIsBounded` | native/bridge.cpp:101-135 | On every run after stop the worker takes at most 24 steps and nothing new is accepted |
| `Shutdown.OnlyFetchDelaysExit` | native/bridge.cpp:206-210 | After stop only a held fetch makes the worker wait |
| `Shutdown.StoppedWorkerExits` | native/bridge.cpp:205-220 | On every run after stop, whatever the other threads do, the worker takes at most the bounded number of steps, has exited after that many with everything released and every accepted job completed, and before can go on unless a fetch begun before the stop is still held |
| `Reclaim.OperationIsReclaimed` | native/bridge.h:77-83 | On every run, with any other threads between, a finished or abandoned operation is gone after a fixed number of failure-free worker steps, its job completed, its parts destroyed and nothing else accepted |
| `Reclaim.OnlyFetchDelaysReclaim` | native/bridge.cpp:101 | Until then the worker can take its next step unless a fetch is held |
| `Reclaim.RefusedResultIsReclaimed` | native/bridge.cpp:182-187 | In every run, after a completion whose callback answers 0, seven failure-free worker steps leave the operation gone, with any other threads between |
| `Reclaim.RefusalDiscards` | native/bridge.h:40 | After such an answer the next failure-free worker step discards the operation, so that no fetch of it begins any more |
| `Reclaim.JobNeverWaits` | native/bridge.cpp:101 | While an accepted job awaits its completion the worker can always take its next step |
| `Reclaim.AcceptedJobIsCompleted` | native/bridge.h:38-42 | In every run an accepted job has been completed once the worker has taken four more steps, even if its infrastructure fails |
| `Reclaim.FinishOrAbandonReclaims` | native/bridge.cpp:539-558 | An effective finish, or cancel with abandon, suffices for that |
| `Reclaim.ReleasedLeaseIsCleared` | native/bridge.cpp:121-133 | Wherever a release lands, also in the middle of a pass that did not see it, on every run without a stop a fixed number of failure-free worker steps, with any other threads between, rolls back, clears the lease and reaches public state 0 |
| `Reclaim.RefusedControlStrands` | native/bridge.cpp:489-495 | A plain cancel between a control's reservation and its submission leaves the reservation in place |
| `Reclaim.RefusedControlIsStrandedIff` | native/bridge.cpp:492-495 | In every run a control refused while its reservation holds the session is stranded if and only if neither stop, nor a lease release, nor an abandoning cancel came first; otherwise the worker is awake or has exited |
| `Reclaim.StrandedUntilFreed` | native/bridge.cpp:489-495 | Such a reservation holds the session, with the worker asleep, until and only until an abandoning cancel, the release of its lease or retirement |
| `NativeRuntime.Database.BeginRetire` | native/bridge.cpp:288-289 | Exactly one caller wins, and only from the ready state, before the database ever entered the queue |
| `NativeRuntime.Database.Unref` | native/bridge.cpp:248-250 | Gives up one reference and frees exactly on the last |
| `NativeRuntime.Runtime.constructor` | native/bridge.cpp:252-272 | The queue and the registry start empty |
| `NativeRuntime.Runtime.Reserve` | native/bridge.cpp:274-285 | The registry scan returns the specified code and registers, with one reference more, exactly on 0 |
| `NativeRuntime.Runtime.Enqueue` | native/bridge.cpp:297-302 | Appends the database of the thread that won its retirement to the queue that the linked list represents |
| `NativeRuntime.Runtime.Retire` | native/bridge.cpp:287-304 | A database enters the queue exactly if it was ready, whatever was enqueued before; a second retirement changes nothing |
| `NativeRuntime.Runtime.TakeFirst` | native/bridge.cpp:324-331 | Takes the queue's first element and leaves the list representing the rest |
| `NativeRuntime.Runtime.Unregister` | native/bridge.cpp:347-353 | Erases exactly the first occurrence of the database |
| `RuntimeInvariant.ReserveCodeMeaning` | native/bridge.cpp:274-282 | The scan admits exactly when no entry has the path, and returns 6 exactly when the first entry with it is retiring |
| `RuntimeInvariant.DbOkKept` | native/bridge.cpp:287-428 | Every local step keeps a database's counts, roles and progress through retirement consistent |
| `RuntimeInvariant.RuntimeOkKept` | native/bridge.cpp:252-361 | Every step of opener, callers, workers, cursors, controller and cleaner keeps the runtime's invariant |
| `RuntimeInvariant.EraseMembers` | native/bridge.cpp:347-353 | Erasing removes exactly that database from a registry without repetition |
| `RuntimeSafety.OkAlong` | native/bridge.cpp:252-361 | The invariant holds after every run |
| `RuntimeSafety.ReferencesAreConserved` | native/bridge.cpp:248-250 | In every run refs equals handles, plus one while the runtime owns the database, plus open and ending cursors; it is freed exactly at zero, and only after workers, connections and engine are gone |
| `RuntimeSafety.NothingTouchesFreedDatabase` | native/bridge.cpp:616-627 | No step of anyone acts on a freed database |
| `RuntimeSafety.ControllerSeesOpenDatabases` | native/bridge.cpp:306-317 | The controller visits registered databases only, whose session arrays no longer grow |
| `RuntimeSafety.OneEnginePerPath` | native/bridge.cpp:274-285 | In every run at most one live engine has a given nonempty path, failed opens included |
| `RuntimeSafety.RegistryIsBounded` | native/bridge.cpp:280 | In every run at most 64 databases are registered |
| `RuntimeSafety.CodeSixMeansRetiring` | native/bridge.cpp:277-281 | In every reachable state code 6 is returned exactly when the path's holder is retiring, and 0 exactly when nobody holds it and there is room |
| `RuntimeSafety.AdmissionRegisters` | native/bridge.cpp:280-284 | An admitted database is registered last, under its path, with two references, and from then on its path is refused with 2; a refused one changes nothing |
| `RuntimeSafety.RetirementIsFifo` | native/bridge.cpp:287-331 | In every run each database is enqueued at most once and handed to the cleaner in enqueue order |
| `Retirement.EveryOpeningCanRetire` | native/bridge.cpp:417-427 | An opening can fail at any point, succeeds only with its engine and all started sessions, and either way leaves a ready database that a first request retires |
| `Retirement.RetireTakesEffect` | native/bridge.cpp:287-289 | The first request on a ready database starts its retirement, any other changes nothing |
| `Retirement.RetirerGoesOn` | native/bridge.cpp:290-302 | The retiring thread can always go on, and stops every session once before it queues the database |
| `Retirement.CleanerTakesNext` | native/bridge.cpp:324-331 | An idle cleaner takes the first database of a nonempty queue |
| `Retirement.CleanerGoesOn` | native/bridge.cpp:332-357 | The cleaner can always go on, unless the worker it is joining has not exited |
| `Retirement.RetirementEnds` | native/bridge.cpp:321-358 | On every run without a failed join a queued database is let go exactly when the cleaner has taken a fixed number of steps on it: closed, unregistered, without engine, all workers exited |
| `Retirement.FailedJoinSetsAside` | native/bridge.cpp:332-337 | A failed join leads to quarantine, not to destruction, and frees the cleaner for the next database |
| `Retirement.QuarantineIsPermanent` | native/bridge.cpp:337 | In every run a quarantined database keeps its engine, its registration and its memory |
| `RuntimeSafety.EngineOutlivesConnections` | native/bridge.cpp:332-346 | The engine is destroyed only after every worker has exited, every connection is gone and no fetch is open |
| `Composition.SessionStepIsRuntimeStep` | native/bridge.cpp:90-222 | Every session step, seen as stop, exit, connection and fetch, is a runtime step that is enabled, or is invisible |
| `Composition.SessionMeetsRoleAssumption` | native/bridge.cpp:205-221 | The session invariant provides what the runtime assumes of sessions, and an exited session holds nothing |
| `System.FreshSystemIsOk` | native/bridge.cpp:252-272 | The bridge starts in its invariant |
| `System.OkKept` | native/bridge.cpp:90-361 | Every step of any session of any database, and of the runtime, keeps the runtime's books and every session's invariant together |
| `System.OkAlong` | native/bridge.cpp:90-361 | The joint invariant holds after every run |
| `System.PossibleIsEnabled` | native/bridge.cpp:584-627 | In every reachable state the runtime's books admit every step a session can take |
| `System.EngineGoesLast` | native/bridge.cpp:332-347 | In every run, when an engine is about to be destroyed, every session of it has exited, with all its objects destroyed once in order, no transaction and every accepted job completed |
| `System.NoSessionOfFreedDatabaseMoves` | native/bridge.cpp:616-627 | In every run no caller, worker, cursor, controller or retiring thread steps on a session of a freed database |
| `Numbers.SignedAcceptedIffFits` | native/bridge.cpp:921-931 | A signed integer is accepted exactly when its value lies between the powers of two of the width, and is stored as that value |
| `Numbers.UnsignedAcceptedIffFits` | native/bridge.cpp:932-935 | An unsigned integer is accepted exactly when its value is below the power of two of the width, and is stored as that value |
| `Numbers.SignedIsTwosComplement` | native/bridge.h:120-122 | Two words mean the one number of 128-bit two's complement congruent to them |
| `Numbers.HalfIsPowerOfTwo` | native/bridge.cpp:926-935 | The bounds of every width are the powers of two they should be |
| `Numbers.SignedRoundTrip` | native/bridge.cpp:743-750 | An accepted signed integer reads back with the same 128 bits |
| `Numbers.UnsignedRoundTrip` | native/bridge.cpp:755-758 | An accepted unsigned integer reads back with the same 128 bits |
| `Numbers.MagnitudeIsAbsolute` | native/bridge.cpp:944-945 | The wrapped negation gives the absolute value for every 128-bit number, the minimum included |
| `Numbers.LimitFitsIffPrecisionAllowed` | native/bridge.cpp:798-800 | A power of ten fits 128 bits exactly up to precision 38, the largest a type may have |
| `Numbers.DecimalLimit` | native/bridge.cpp:946-947 | The wrapping loop computes the power of ten modulo 2^128, and the power itself for every allowed precision |
| `Numbers.CheckPrecision` | native/bridge.cpp:942-949 | The precision check passes exactly when the absolute coefficient is below the power of ten |
| `Types.MakeFields` | native/bridge.cpp:811-820 | The field loop with its set of names accepts exactly distinct names with present children and keeps their order |
| `Types.TypeMake` | native/bridge.cpp:787-831 | Construction from one descriptor level succeeds and yields as specified |
| `Types.BuildableIffWellFormed` | native/bridge.cpp:787-831 | A descriptor tree of any depth can be built exactly when it is well formed |
| `Types.BuildThenRead` | native/bridge.cpp:672-722 | Reading a built type with inspect and child alone gives the same tree, names included |
| `Types.CanonicalBuildsSame` | native/bridge.cpp:787-831 | What is read back builds the same type again |
| `Values.ScalarRoundTrip` | native/bridge.cpp:724-780 | Every accepted scalar is read back with the fields its type uses unchanged |
| `Values.IntegerAcceptedIffFits` | native/bridge.cpp:954-963 | For each boolean, integer, date and timestamp tag, by its own literal bounds: a value is accepted exactly when in bounds, stored exactly and read back with the same words |
| `Values.OtherScalarsAccepted` | native/bridge.cpp:936-976 | For each other scalar tag, exactly what is accepted and what is stored; no further tag is accepted |
| `Values.OtherScalarsReadBack` | native/bridge.cpp:763-768 | Floating point, intervals and UUIDs are read back as what was stored, field by field |
| `Values.TextReadBack` | native/bridge.cpp:735-741 | Text, byte strings and JSON are read back byte for byte |
| `Values.DecimalReadBack` | native/bridge.cpp:743-754 | A decimal is read back with the words of its coefficient |
| `Values.FiniteIsBelowInfinity` | native/bridge.cpp:964-970 | A binary64 pattern is finite exactly when its magnitude is below that of infinity |
| `Values.DecimalAcceptedIffInRange` | native/bridge.cpp:942-963 | A decimal is accepted exactly when its absolute coefficient is below ten to the precision, given storage wide enough for the precision |
| `Keys.KeyEqualReflexive` | native/bridge.cpp:857-870 | Equality is reflexive exactly on values without a NaN at any depth |
| `Keys.KeyEqualSymmetric` | native/bridge.cpp:857-870 | Equality is symmetric at any depth |
| `Keys.KeyEqualTransitive` | native/bridge.cpp:857-870 | Equality is transitive at any depth |
| `Keys.KeyEqualMeansSame` | native/bridge.cpp:857-870 | Two values are equal exactly when they are the same up to the sign of zeros and hold no NaN |
| `Keys.EqualKeysHashEqually` | native/bridge.cpp:839-856 | Equal keys hash equally at any depth, typed nulls and both zeros included, and hashing refuses both or neither |
| `Keys.HashedIffHashable` | native/bridge.cpp:842-845 | Hashing refuses exactly the values with a part that inspection refuses |
| `Keys.HashSetAgreesWithPairs` | native/bridge.cpp:900 | Looking only at members of equal hash finds a duplicate exactly when some earlier key is equal |
| `Construction.Insert` | native/bridge.cpp:896-900 | Checking one entry against the hash set accepts exactly when the entries so far, this one included, fit and have distinct keys |
| `Construction.MoveEntries` | native/bridge.cpp:893-908 | The map loop accepts exactly the entries that fit with keys equal to no other, moving children in order |
| `Construction.MoveElements` | native/bridge.cpp:909-917 | The element loop accepts exactly children of the expected types, moving them in order |
| `Construction.MadeParts` | native/bridge.cpp:781-785 | The parts read from a made value are its children in order, map entries flattened |
| `Construction.ConsumeSlots` | native/bridge.cpp:874-877 | Leaving the function frees each remaining child once and nulls every slot |
| `Construction.ValueMake` | native/bridge.cpp:872-980 | On every path every slot ends null and every child ends owned once by the made value or freed once; what is made, and when, is as specified |
| `NestedValues.BuildThenReadTree` | native/bridge.h:138-141 | A value tree of any depth reads back, through inspect and child alone, as the same tree with unused fields blank and map entries flattened |
| `NestedValues.BuiltIsComparable` | native/bridge.cpp:964-970 | No NaN can be built at any depth, so key equality is an equivalence on what can |
| `NestedValues.BuiltIsHashable` | native/bridge.cpp:839-856 | Hashing refuses no built value of readable types |
| `NestedValues.MapAcceptedIffKeysDistinct` | native/bridge.cpp:893-908 | A map is accepted exactly when its pairs have the right types, no key is null and no two keys are equal |
| `NestedValues.ContainerAcceptedIffChildrenFit` | native/bridge.cpp:887-917 | A list, array or struct is accepted exactly when its count is the one its type shows and each child has the type its type shows at that place |
| `NestedValues.NullAcceptedIffChildless` | native/bridge.cpp:882-885 | A typed null is accepted exactly without children |

## Left out

- Engine internals (planner, storage, isolation between readers), the parser and path canonicalisation: the engine is a store, a transaction and rows, a text is a statement tree, and a database path is given as it is registered.
- Reads of the store: a query's rows are arbitrary, so nothing is said about which rows a query returns.
- `healthy` and `startup_failed` (`native/bridge.cpp:259-260`) and the codes 1 and 3 of refused calls: environment faults without protocol state.
- `session_for` (`native/bridge.cpp:368-371`): a call on a database that is not ready is refused before it reaches the session and changes nothing; the model lets calls go on until `stop` is set, which only adds runs.
- The limits of `aphid_open_configured` (`native/bridge.cpp:387-391`): range checks before anything is registered.
- Error texts, counters, `aphid_operation_error`, `aphid_transferring`, column names and types of a cursor: copies of state that is modelled.
- Operating system failures elsewhere: a lock that fails in an API call or between dequeue and completion, and a quarantined cleaner thread.
- Thread scheduling: the loops of `Session::run`, `control` and `clean` are sequences of atomic steps; what is proved of progress counts the worker's own steps.
- NativeSession.Session.Submit: the parameter map and the query bytes are part of the job's abstract query; a refused `aphid_submit_params` additionally cancels with abandon, which is the separate step `NativeSession.Session.Cancel`.
- NativeSession.Session.SubmitControl: `aphid_transaction_control` reserves and submits under two separate locks, so it is two steps here, with other threads in between.
- NativeRuntime.Runtime.Reserve: the vector is a sequence field; its reserved capacity and the database counter are not modelled.
- System.OkKept: the shared store of a database's sessions is the subject of `Atomicity` and not a further component of this machine.
- FLOAT rounding, UUID parsing, JSON validation, decimal storage width and the standard library's hashes: parameters with the properties named above.
- Internal identifiers and graph values (node, relationship, recursive relationship): output only, never built by the bridge; their types can be inspected in the model, their contents cannot.
- `aphid_params_*`, `aphid_fetch_value` and the column getters: a map with a duplicate check, and bounds checks.
- The Zig NIF, the Elixir coordinator, `native/proof.cpp` and the build scripts are not part of this model.
