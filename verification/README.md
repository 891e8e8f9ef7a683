# A verified model of task-forge

task-forge is a distributed task queue. Several processes share one PostgreSQL table of tasks; each
process claims tasks by polling and by Kafka message, runs them in a bounded worker pool, and then
completes them, schedules a retry, or moves them to a dead-letter table. Leader-only loops reset tasks
whose owner died or whose lock is too old, and task creation writes an outbox row that a publisher copies
to Kafka. Who may hold a task, how often it can run, and that nothing is lost follows from many small SQL
writes that interleave across processes. This project models those writes and proves the guarantees over
every interleaving.

`dafny verify dfyconfig.toml` checks the whole project.

## How the model is laid out

Statements and rows

- `TaskTable`, `Outbox` (first part), `Oldest`: one function per SQL statement, from the table before to
  the table after, and what `ORDER BY created_at LIMIT n` promises.
- `Decision`, `Backoff`: the executor's choice of outcome, and the retry delay in 64-bit arithmetic.

The objects, as classes whose methods update their fields and are proved against those functions

- `Database.Store` (the repositories), `Executor.Executor`, `Intake.Dispatcher`, `Intake.Consumer`,
  `Publisher.OutboxPublisher`, `Monitor.Recovery`, `Pool.WorkerPool`, `Leader.Coordinator`,
  `Leader.InstanceRepository`.
- Faults are parameters: a set of database calls that fail, a row that does not scan, a publish that is
  stored without being acknowledged. A result set that only the engine can choose is a parameter too, with
  a `requires` that says what the query promises about it.
- `Bridge.Mirror` runs a store, an executor and a producer beside a ghost board and bus, and shows that each of
  their calls, failed ones included, is a run of at most two steps of the machines below, with equal tables.

The machines, over which all runs are quantified

- `TaskLife`: one task as the cluster sees it: its row, every live envelope that carries it, its history.
- `Board`: the task tables and every envelope in every process. A step is one committed statement or
  transaction, one channel operation, or one fault: create, DLQ retry, batch claim, single claim, send and
  receive, the executor's write, the two halves of MoveToDLQ, a lost envelope or failed write, a crash, the
  two recovery updates, the operator's status override, and time. `Board.Projection` shows that every step
  is, for each task, a move of that task's machine; the invariants are proved per task and lifted.
- `Invariants`, `Guarantees`, `Starvation`, `Verdicts`, `Records`: what every run keeps, the counting bounds, why
  a task ends as it does, and what its columns tell about the run.
- `Scripts`, `Exactness`, `Letters`, `Witnesses`: continuations of arbitrary runs, with which the guarantees that
  do not hold of every run get their exact conditions, and the bounds are shown to be attained.
- `ClaimLocks`: the batch claim as two statements under row locks, refining the board's atomic claim.
- `Cluster`, `Recovery`, `SafeCluster`, `Leaving`: board, outbox, publishers, instance registry and recoverers
  together. Theorems about board runs hold of cluster runs by `Cluster.BoardRun`; `SafeCluster` derives the
  premise of the ownership theorems from dead instances and young locks; `Leaving` is about an orderly exit.
- `Timed`: the cluster with the timed pool of every process, which makes the locks of carried tasks young.
- `Waiting`, `Tightness`, `Shutdown`, `Leader` (second part): the timed channel with its two senders, one process from
  serving to exit, and leadership across processes.

## What limits the guarantees

- `CompleteTask` and `FailTask` match on id alone, not on the owner. If recovery resets a task that some
  process still carries, the late write lands on whatever the row has become. Single ownership, permanent
  terminal states, exact conservation and exact dead-letter attempts are therefore stated for runs in which
  recovery resets only tasks without a live envelope (`Guarantees.SafelyRecovered`). That premise is exact:
  ownership holds throughout a run if and only if the run is safely recovered (`Exactness.OwnershipIffSafe`).
  Take a safely recovered run of the program, in which every process has the same handler table, and one
  recovery step. Some continuation by the processes alone lets a task leave a terminal state, or gives it two
  dead letters, if and only if the step resets the task while it is carried and its type is registered
  (`Exactness.TerminalIffSafe`, `Letters.OneLetterIffSafe`). Some continuation gives it a dead letter with a
  wrong attempt count if and only if, besides, the envelope that carries it has not been taken over by MoveToDLQ
  and its snapshot still allows a retry (`Letters.AttemptsIffSafe`). The lemmas whose names end in `For` say the
  same of any set of handler tables, as in the middle of a rolling deployment; there a process without the
  handler takes the place of the retry that is left.
- The premise is met whenever only dead instances are taken for stale. In `Timed`, where every process has the
  pool of `Waiting` and time passes everywhere at once, no carried task is ever found stale, and single ownership
  and safe recovery follow from that premise alone (`Timed.TimedSingleOwner`, `Timed.TimedRecoveryIsSafe`). The
  parameters must satisfy `Waiting.AgeSuffices`, as the defaults do exactly while a claim takes less than 66 s
  (`Timed.DefaultsMayBoot`).
- A process that leaves in good order strands the rows that it still holds: its recovery by instance id is over,
  and only `UnlockStaleTasks` frees them (`Leaving.OnlyStaleUnlockFrees`).
- `last_error` is NOT NULL in the dead-letter table but nullable in `tasks`. The insert always has a value
  exactly when `max_retries` is at least 2 (`Witnesses.NotNullIffTwoAttempts`); the schema's default is 3.
- The delays grow from one attempt to the next, whatever the jitter, exactly for attempts 1 to 8
  (`Backoff.DelaysGrowExactlyToEight`).
- The claim bound is m + 2R for a retry limit m of at least 2, and 1 + R without retries; for every m and R
  some run attains it (`Witnesses.BoundIsReached`).

## Model

| member | source | states |
|---|---|---|
| Guarantees.BoundedClaims | internal/repository/task_repository.go:364-456 | in every run without the status override, with any crashes, lost writes, redeliveries and interleavings, a task that recovery reset R times is claimed at most m + 2R times for a retry limit m of at least 2, and at most 1 + R times for a limit of 1 or 0 |
| Guarantees.CountersAreTrue | internal/repository/task_repository.go:226-338 | the per-task counters used in the bounds are the numbers of claims and resets that the steps of the run contain |
| TaskLife.CountedStep | internal/worker/executor.go:158-198 | every move of a task keeps the budget invariant that ties claims, retries, resets, the claim-time snapshots of live envelopes and attempt_count together |
| TaskLife.CountedBound | internal/worker/executor.go:167-184 | that invariant implies the claim bound |
| Witnesses.BoundIsReached | internal/repository/task_repository.go:364-456 | for every retry limit and every number of resets there is a run that attains the claim bound |
| Starvation.BoundedPasses | internal/worker/dispatcher.go:84-112 | without override, batch size times the polls that found a task claimable and left it out is at most n * m plus twice the resets of n tasks, those ever created no later than it, m being the retry limit |
| Starvation.NoStarvation | internal/worker/dispatcher.go:84-112 | without recovery besides, at most n * m |
| Starvation.PassCounts | internal/repository/task_repository.go:245-251 | every poll that does not return a pending, free and due task counts against that bound |
| Starvation.PollIsFull | internal/repository/task_repository.go:242-251 | a poll that leaves a claimable task out returns a full batch, all of it created no later than that task |
| Starvation.PassesAreTrue | internal/worker/dispatcher.go:84-112 | the counter of passes is the number of such polls in the run |
| ClaimLocks.RunRefines | internal/repository/task_repository.go:226-338 | every interleaving of selects, commits, rollbacks, single-row locks, single claims and other writes is a run of atomic claims, one for each commit; each claim took the oldest of the rows that were eligible and unlocked at its select, and skipped exactly the rows that were locked by an open statement, ineligible or absent then |
| ClaimLocks.CommitIsAtomic | internal/repository/task_repository.go:242-302 | at commit the batch is the oldest-first prefix of the rows that the select could choose, that is of those eligible in the table and under the locks that it saw; every returned row is unchanged and still eligible |
| ClaimLocks.OpenBatchesDisjoint | internal/repository/task_repository.go:242-251 | two batch claims that are open together never share a row |
| ClaimLocks.ClaimIsBoardStep | internal/repository/task_repository.go:226-303 | the atomic claim of the refinement is the board's batch claim: same guard, same table after it |
| ClaimLocks.KeepsInv | internal/repository/task_repository.go:226-338 | every step keeps it true that open claims still describe the table and hold disjoint rows |
| Guarantees.SingleOwner | internal/repository/task_repository.go:285-322 | in every safely recovered run a task has at most one live envelope in all processes, and its row is running and locked by that envelope's worker |
| TaskLife.OwnedStep | internal/repository/task_repository.go:340-456 | every move without override, with recovery only of uncarried tasks, keeps single ownership |
| Guarantees.PhaseRefinement | internal/repository/task_repository.go:340-456 | in safely recovered runs every step takes every task along an edge new-pending, pending-running, running-pending, running-completed, running-failed or running-dead-lettered, or leaves it where it is |
| Guarantees.TerminalForever | internal/repository/task_repository.go:340-456 | in safely recovered runs completed, failed and dead-lettered are never left |
| Exactness.OwnershipIffSafe | internal/repository/task_repository.go:340-456 | in a run without override, every carried task is carried once, with its row running and locked by that process, after every prefix, if and only if every recovery of the run spares carried tasks |
| Exactness.TerminalIffSafe | internal/repository/task_repository.go:347-399 | with the program's one handler table, after a safely recovered run and one recovery step: some continuation by the processes alone makes a task leave completed, failed or dead-lettered if and only if the step resets it while it is carried and its type is registered |
| Exactness.TerminalIffSafeFor | internal/worker/executor.go:133-146 | for processes with any handler tables, if and only if the step resets it while it is carried and some table has its type |
| Letters.OneLetterIffSafe | internal/repository/dead_letter_task_repository.go:57-119 | with one handler table, some continuation gives the task two dead letters under exactly the condition of TerminalIffSafe |
| Letters.OneLetterIffSafeFor | internal/repository/dead_letter_task_repository.go:57-119 | with any tables, under exactly the condition of TerminalIffSafeFor |
| Letters.AttemptsIffSafe | internal/repository/dead_letter_task_repository.go:87-92 | with one handler table, some continuation gives it a dead letter with another attempt_count than max_retries - 1 if and only if, besides, a carrying envelope has not been read by MoveToDLQ and its snapshot allows a retry |
| Letters.AttemptsIffSafeFor | internal/repository/dead_letter_task_repository.go:87-92 | with any tables, if and only if, besides, a carrying envelope has not been read by MoveToDLQ and its snapshot allows a retry or some table lacks the type |
| Witnesses.UnsafeRecoveryBreaks | internal/repository/task_repository.go:418-456 | for every retry limit of at least 2 there are runs with the program's handler table that do each of the three |
| Witnesses.CompletedCanComeBack | internal/repository/task_repository.go:347-399 | without safe recovery there is a run in which a completed task becomes pending again, because writes match on id alone |
| Timed.TimedSingleOwner | cmd/api/main.go:129-151 | in every run of the system with time in which only dead instances are taken for stale, a task is carried at most once in all processes, by a live one, and its row is running and locked by it |
| Timed.TimedRecoveryIsSafe | internal/worker/stale_cleaner.go:20-32 | in every such run each recovery resets only tasks that no process carries, so all that is proved of safely recovered runs holds of it |
| Timed.KeepsTimely | internal/worker/pool.go:57-66 | every step keeps each carried envelope in its process's pool, on time, and locked no earlier than a claim's duration before its claim returned |
| Timed.TimelyIsPrompt | internal/repository/task_repository.go:418-424 | hence UnlockStaleTasks finds no carried task |
| Timed.DefaultsMayBoot | internal/config/config.go:55-60 | a process with the defaults satisfies the condition on the parameters if and only if claims take less than 66 s |
| SafeCluster.RecoveryIsSafe | cmd/api/main.go:83-99 | when only dead instances are taken for stale and no carried task's lock is older than the stale age when UnlockStaleTasks comes, every recovery of a run of the whole system spares carried tasks; the second premise is derived in Timed |
| SafeCluster.ClusterSingleOwner | internal/repository/task_repository.go:285-322 | in such runs a task is carried at most once in all processes, by a live one, and its row is running and locked by it |
| SafeCluster.ClusterTerminalForever | internal/repository/task_repository.go:340-456 | in such runs completed, failed and dead-lettered are never left |
| SafeCluster.ClusterExactConservation | internal/repository/dead_letter_task_repository.go:57-254 | in such runs tasks and dead letters number the creates and DLQ retries, letters are unique per task and tell the last attempt |
| Guarantees.Conservation | internal/repository/dead_letter_task_repository.go:57-119 | in every run, the override included, each id ever inserted is in tasks or has a dead letter, never both and never neither, and its payload is the one of the create that its chain of DLQ retries goes back to |
| Guarantees.ExactConservation | internal/repository/dead_letter_task_repository.go:57-254 | in safely recovered runs tasks and dead letters together number the successful creates and DLQ retries, and no task has two dead letters |
| Guarantees.LivesAreBirths | internal/repository/dead_letter_task_repository.go:183-254 | the ids ever inserted number the successful creates and DLQ retries |
| Invariants.KeepsPayloads | internal/repository/dead_letter_task_repository.go:183-254 | no step changes a payload, in rows, in dead letters, or along a chain of DLQ retries |
| Guarantees.DeadLetterHasError | internal/worker/executor.go:167-184 | with at least two attempts, whatever row MoveToDLQ has read carries a last_error, and its envelope's snapshot was on its last attempt |
| Guarantees.DeadLetterAttempts | internal/repository/dead_letter_task_repository.go:87-92 | in safely recovered runs every dead letter's attempt_count is max_retries - 1 |
| Witnesses.NotNullIffTwoAttempts | migrations/000005_create_dead_letter_tasks.up.sql:5 | no run reaches a dead-letter insert with a null last_error if and only if max_retries is at least 2 |
| Witnesses.SchemaDefaultIsEnough | migrations/000003_add_worker_columns.up.sql:3-5 | with the schema's default of 3 no run reaches such an insert |
| Verdicts.FinalByExecution | internal/worker/executor.go:106-213 | in every run without the override, a completed task was completed by a handler registered for its type that returned success for it, and a failed one was executed by a process with no handler for its payload |
| Verdicts.OutcomesHaveCauses | internal/worker/executor.go:106-146 | a task whose payload is malformed or has no type is never completed, never scheduled for a retry and never dead-lettered, and a failed task's last_error is exactly the reason its payload gives |
| Verdicts.JudgedStep | internal/worker/executor.go:106-198 | every move of a task keeps status, last_error and next_retry_at in line with its payload |
| Records.RowTellsRecord | internal/repository/task_repository.go:373-399 | in every run, the override included, a row's attempt_count is the number of failures that executions have written to it, its last_error is the last one's text or reason, and its next_retry_at is the time that the last retry was given |
| Records.NoEarlyClaim | internal/repository/task_repository.go:242-319 | no poll or message claims a task before the time that its last retry was given |
| Records.BurialsFollowFailures | internal/worker/executor.go:183-187 | in every run a dead letter is a copy of its task's row at a moment at which a handler failed on its last attempt |
| Records.SettleMeans | internal/worker/executor.go:106-213 | column by column what an execution does: completed, retried at the given time with the handler's text, rejected with the reason, or handed to MoveToDLQ unchanged |
| Guarantees.LockInvariant | internal/repository/task_repository.go:285-322 | in every run locked_by is null iff locked_at is; without the override also running iff both are set, and a running row's next_retry_at is null or at most locked_at, which is at most now |
| TaskTable.ReleasedIsClaimable | internal/repository/task_repository.go:418-456 | a running row that keeps the lock columns right is eligible as soon as recovery resets it |
| TaskTable.RunningGoesStale | internal/repository/task_repository.go:418-424 | every running row meets the stale test, exactly from locked_at + age on |
| Guarantees.ResetMeansClaimable | internal/repository/task_repository.go:418-456 | after any recovery step of a run without override each reset row can be claimed at once |
| Guarantees.InsertsUnderKey | internal/repository/task_repository.go:82-127 | at most one live task has a key, and the creates that inserted under it are that task and the dead-lettered ones, none else |
| Guarantees.IdempotentCreation | internal/repository/task_repository.go:82-114 | of two successful creates of a run under one key, the second inserts nothing and returns the task that the first returned, unless that task was dead-lettered in between |
| Invariants.KeepsUniqueKeys | migrations/000004_add_idempotency_key.up.sql:3-5 | no step puts a second live task under a key that is not null |
| Cluster.OneEventPerInsert | internal/repository/task_repository.go:116-127 | the events ever emitted for a key number the inserting creates of the run under it |
| Cluster.OneEventPerKey | internal/repository/task_repository.go:82-127 | which are the key's one live task, if any, and its dead-lettered ones |
| Cluster.OutboxLosesNothing | internal/worker/outbox_publisher.go:110-183 | with any number of publishers, crashes and purges: a created task has exactly one event, a DLQ retry has none, an event that is marked or gone has its message in the Kafka log, and the log names created tasks only |
| Cluster.KeepsAnnounced | internal/repository/task_repository.go:68-79 | every step of the whole system keeps tasks and events in step |
| Outbox.KeepsInv | internal/repository/outbox_repository.go:68-128 | every emit, fetch, publish, mark, abandoned cycle and purge keeps the outbox invariant |
| Outbox.Drain | internal/worker/outbox_publisher.go:110-143 | k undisturbed cycles leave max(0, n - k * batch) of n unpublished events, so ceil(n / batch) cycles empty the outbox |
| Outbox.BatchLeaves | internal/repository/outbox_repository.go:32-93 | a cycle takes exactly its batch, min(batch, n) events, out of the unpublished ones |
| Outbox.PassedOverByCycle | internal/repository/outbox_repository.go:32-38 | an event that a cycle passes over has a full batch of events at least as old taken before it |
| Outbox.Retention | internal/repository/outbox_repository.go:109-128 | over any run of clean cycles, a marked event is in the outbox, with the time of its mark, exactly as long as no purge came more than the retention after it |
| Cluster.BoardRun | cmd/api/main.go:83-99 | the board inside a cluster run makes a board run, so all board theorems hold of the cluster |
| Recovery.NoOrphanLeft | internal/worker/instance_monitor.go:25-50 | when only dead instances are stale, once any recoverer has deregistered an instance no running row is locked by it, ever after, and recovering it again changes nothing |
| Recovery.KeepsNoOrphans | cmd/api/main.go:83-99 | any interleaving of recoverers, with failing calls, keeps that invariant |
| Recovery.StepHoldsNothingNew | internal/repository/task_repository.go:226-456 | only a claim for a worker can add to the running rows locked by it |
| Leaving.LeaveStrands | cmd/api/main.go:211-246 | a process that has drained its pool and deregisters strands exactly the rows that are still running and locked by it |
| Leaving.OnlyStaleUnlockFrees | internal/repository/task_repository.go:418-444 | at every later point such a row is still running and locked by it, or UnlockStaleTasks has found it stale |
| Leaving.StaleUnlockFrees | internal/repository/task_repository.go:418-424 | UnlockStaleTasks finds it exactly from lock plus age on, and then it can be claimed |
| Waiting.AheadShrinks | internal/worker/dispatcher.go:109-111 | with both senders and the order of blocked sends, no step adds to the envelopes that can still start before a given one, and every start takes one away |
| Waiting.WaitingBound | internal/worker/pool.go:53-69 | an envelope with n ahead of it at its claim, j of them unsent mates of its batch, starts within (n + j) * T / W, whatever is claimed later, and its handler has ended a further T later |
| Waiting.ClaimBudget | internal/worker/pool.go:26 | n + j is at most 3W + 2 * batch - 1 at any claim |
| Waiting.TrackedIsYoung | internal/worker/pool.go:53-69 | an envelope that has not ended was claimed less than the stale age ago, the claim's duration included |
| Tightness.SlipsAreNeeded | internal/kafka/consumer.go:152-169 | for every j there is a run in which an envelope with j unsent mates starts only at (n + j) * T / W, so the bound is attained |
| Waiting.NeverStaleWhileLive | internal/repository/task_repository.go:418-424 | if that much work, one handler and the duration of the claim stay below the stale age, UnlockStaleTasks never matches the row of a claimed envelope before its handler has returned, for any traffic |
| Waiting.DefaultsSuffice | internal/config/config.go:55-60 | with 5 workers, batch 10, 30 s handlers and a stale age of 5 min that is so if and only if a claim takes less than 66 s |
| Waiting.DefaultsNeverStale | internal/config/config.go:55-60 | so with the defaults and claims under 66 s stale unlocking never resets a task that is still to be run or running |
| Waiting.DefaultsAllow44 | internal/config/config.go:55-60 | counted in envelopes the defaults allow 44 ahead and no more; at most 34 can be |
| Leader.OneLeader | internal/repository/instance_repository.go:116-174 | in every run at most one process has live leader loops, it has one monitor and one cleaner and holds the lock, and main unlocks only when they are cancelled |
| Leader.FreeLockIsGranted | internal/repository/instance_repository.go:128-147 | in every reachable state without a leader, the next tick that reaches the database, of any process that is not shutting down, makes it leader with one monitor and one cleaner |
| Leader.LeaderStays | internal/worker/coordinator.go:66-87 | a leader stays leader whatever the ticks return, its own and its rivals' |
| Leader.LeaderLeavesLockFree | cmd/api/main.go:239-241 | a leader that crashes or gives the lock up leaves it free |
| Leader.LoopsFollowAnswers | internal/worker/coordinator.go:63-91 | for any sequence of acquire results there is one live monitor and one live cleaner exactly while the last answer that was no error said leader |
| Leader.Coordinator.Tick | internal/worker/coordinator.go:66-87 | the ticker's body does what the coordinator's state machine says and keeps at most one context open |
| Leader.Coordinator.CancelParent | cmd/api/main.go:211 | cancelling the parent context ends both loops |
| Leader.InstanceRepository.TryAcquireLeader | internal/repository/instance_repository.go:116-149 | a kept connection answers true; else a failing call is an error that leaves the lock alone, and otherwise the lock is granted exactly when it is free; the connection is kept exactly on true |
| Leader.InstanceRepository.ReleaseLeader | internal/repository/instance_repository.go:151-174 | drops the kept connection and the lock, also when the unlock query fails |
| Shutdown.DrainIsExact | cmd/api/main.go:211-227 | nothing is left to be sent once the channel is closed, the channel holds at most 2W envelopes, and when main has exited every envelope sent was processed once and no worker is active |
| Shutdown.DrainCompletes | internal/worker/pool.go:75-78 | from every state in shutdown a run to the exit exists, blocked senders included |
| Shutdown.StepShrinks | internal/worker/dispatcher.go:66-116 | once cancelled, every step ends a claim in flight or lowers the work left, which is never negative |
| Shutdown.EveryScheduleExits | cmd/api/main.go:211-227 | under every infinite schedule that takes a possible step whenever there is one, main exits |
| Shutdown.OnlyExitIsFinal | cmd/api/main.go:211-227 | in shutdown no step is possible exactly when main has exited |
| Shutdown.NeverStuck | internal/kafka/consumer.go:78-106 | until main has exited some step is possible |
| Shutdown.KeepsInv | cmd/api/main.go:211-227 | every step keeps the order of shutdown and the channel's accounts |
| Pool.FatesOnlyAdvance | internal/worker/pool.go:57-67 | sending, receiving and finishing move a ticket forward only, and touch no other ticket |
| Pool.QuietMeansDone | internal/worker/pool.go:75-78 | an empty channel and no active worker mean that all that was sent is processed, once |
| Pool.WorkerPool.Send | internal/worker/dispatcher.go:109-111 | the envelope joins the end of the open channel, which has room for 2W |
| Pool.WorkerPool.Receive | internal/worker/pool.go:59-61 | a free worker gets the oldest envelope |
| Pool.WorkerPool.Finish | internal/worker/pool.go:62-65 | the worker's ticket is done, active falls and processed rises by one |
| Pool.WorkerPool.Drained | internal/worker/pool.go:75-78 | the loops have ended exactly when the channel is empty and no worker is busy, and then processed = sent and active = 0 |
| Backoff.BackoffInRange | internal/worker/executor.go:217-237 | for every attempt and draw: a positive bound for the generator, no int64 overflow, and a delay within [0.9c, 1.1c) of c = min(2^(attempt-1), 300) seconds |
| Backoff.GuardPreventsOverflow | internal/worker/executor.go:224-227 | for any positive base, below its number of leading zeros neither the shift nor the product overflows |
| Backoff.CappedIsTarget | internal/worker/executor.go:218-231 | the wrapped computation equals min(2^(attempt-1), 300) seconds for every attempt |
| Backoff.EveryDelayPossible | internal/worker/executor.go:233-236 | every delay of that range can be drawn |
| Backoff.DelaysInNanoseconds | internal/worker/executor.go:218-236 | the delays in nanoseconds: 0.9 to 1.1 s after the first attempt, doubling up to the ninth, 270 to 330 s from the tenth on |
| Backoff.EndsInNanoseconds | internal/worker/executor.go:218-236 | the ends of the first and of the longest range to the nanosecond: 900,000,000 and 1,099,999,999, 270,000,000,000 and 329,999,999,999 are possible delays |
| Backoff.DelaysGrowExactlyToEight | internal/worker/executor.go:217-237 | every possible delay after attempt + 1 exceeds every possible delay after attempt if and only if attempt is at most 8 |
| Oldest.AnswerExists | internal/repository/task_repository.go:249-250 | an oldest-first answer exists for every table and limit |
| Oldest.SurvivesShrinking | internal/repository/task_repository.go:249-251 | an oldest-first answer stays one when keys outside it disappear |
| Oldest.AnswerIsUnique | internal/repository/task_repository.go:249-250 | with different creation times the answer is unique, in its order too |
| Board.Projection | internal/repository/task_repository.go:226-456 | whatever a step does to the cluster, it does to each task as one of that task's moves |
| Bridge.Mirror.Create | internal/repository/task_repository.go:36-128 | Store.Create is an Insert with its outbox event, a Reply, or no step, and leaves the tables equal to the machines' |
| Bridge.Mirror.Retry | internal/repository/dead_letter_task_repository.go:183-254 | Store.Retry is a Redrive or no step |
| Bridge.Mirror.ClaimTask | internal/repository/task_repository.go:305-338 | Store.ClaimTask is the board's single claim or no step |
| Bridge.Mirror.ClaimTasks | internal/repository/task_repository.go:226-303 | Store.ClaimTasks is the board's batch claim or no step, and each returned row is the snapshot of the envelope that the claim makes |
| Bridge.Mirror.Execute | internal/worker/executor.go:86-213 | Executor.Execute on a carried envelope is its settling, for a dead-lettering followed by the transfer, or the loss of the envelope when a call fails |
| Bridge.Mirror.UnlockStaleTasks | internal/repository/task_repository.go:418-436 | Store.UnlockStaleTasks is the board's stale reset or no step, and returns the number of its rows |
| Bridge.Mirror.RecoverTasksByInstance | internal/repository/task_repository.go:438-456 | Store.RecoverTasksByInstance is the board's recovery or no step, and returns the number of its rows |
| Bridge.Mirror.GetUnpublished | internal/repository/outbox_repository.go:25-66 | a read batch opens a publisher cycle on the bus with the same ids and tasks |
| Bridge.Mirror.Publish | internal/worker/outbox_publisher.go:148-183 | a publish is the bus's, with the acknowledgement that the producer gave |
| Bridge.Mirror.MarkPublished | internal/repository/outbox_repository.go:68-93 | a mark is the bus's, or abandons the cycle when it fails |
| Bridge.Mirror.PurgePublished | internal/repository/outbox_repository.go:109-128 | a purge is the bus's, or no step |
| Bridge.Mirror.ProcessCycle | internal/worker/outbox_publisher.go:110-143 | a whole cycle of the publisher is a run of the bus: fetch, one publish for each event, mark, purge, or what the faults leave of it |
| Database.Store.Create | internal/repository/task_repository.go:36-128 | one pending, unlocked row without attempts, with max_retries 3, and one event together, or neither; an existing key answers with its holder; exactly when each happens, for every combination of failing calls |
| Database.Store.ClaimTasks | internal/repository/task_repository.go:226-303 | returns due rows in order of creation, leaving one out only for a full batch of rows no younger; sets exactly these to running with worker and time, or fails and changes nothing; exactly when it succeeds |
| Database.Store.ClaimTask | internal/repository/task_repository.go:305-338 | claims and returns the new row if and only if the row is there, pending, unlocked and due, else returns nothing |
| Database.Store.CompleteTask | internal/repository/task_repository.go:340-362 | the row is completed and unlocked, every other column and row as it was, and the result, not-found included |
| Database.Store.FailTask | internal/repository/task_repository.go:364-416 | one attempt more, the message, no lock; with a retry time the row is pending and claimable exactly from that time on, without one it is failed and never claimable; every other column and row as it was, and the result |
| Database.Store.UnlockStaleTasks | internal/repository/task_repository.go:418-436 | exactly the stale rows are reset, and their number is returned |
| Database.Store.RecoverTasksByInstance | internal/repository/task_repository.go:438-456 | exactly the instance's running rows are reset, and their number is returned |
| Database.Store.MoveToDLQ | internal/repository/dead_letter_task_repository.go:57-119 | the row becomes a dead letter, or nothing changes; it succeeds if and only if the row is there with a last_error and no call fails |
| Database.Store.Retry | internal/repository/dead_letter_task_repository.go:183-254 | a fresh row with the dead letter's payload and retried_at set, or nothing changes, exactly when each; the returned task has the fields that the code fills in, and zero for max_retries |
| Database.Store.GetUnpublished | internal/repository/outbox_repository.go:25-66 | unpublished events as they are, in order of creation, one left out only for a full batch of events no younger |
| Database.Store.MarkPublished | internal/repository/outbox_repository.go:68-93 | exactly the given events get the given published_at |
| Database.Store.PurgePublished | internal/repository/outbox_repository.go:109-128 | an event is deleted if and only if it was published longer ago than the retention; every other stays as it was |
| Database.Store.Register | internal/repository/instance_repository.go:24-39 | the instance row, or an error for a taken id |
| Database.Store.Heartbeat | internal/repository/instance_repository.go:41-62 | the new heartbeat, or not-found |
| Database.Store.GetStaleInstances | internal/repository/instance_repository.go:64-97 | exactly the instances whose heartbeat is older than the timeout, each once, or an error when the query or a scan fails |
| Database.Store.Deregister | internal/repository/instance_repository.go:99-114 | the instance row is gone, and no error when there was none |
| Executor.Executor.Execute | internal/worker/executor.go:86-213 | the tables end up as the verdict on payload type, handler table, handler result and snapshot says, column by column, or as they were when the write fails |
| Executor.OutcomeRan | internal/worker/executor.go:106-198 | verdict and write together complete, retry, reject or bury the row, with the message, count, time and letter that each case demands |
| Executor.Executor.HandleFailure | internal/worker/executor.go:158-198 | retry with a delay in range while attempts remain, else the row is dead-lettered; no change when the write fails |
| Intake.Dispatcher.RunCycle | internal/worker/dispatcher.go:84-112 | exactly the claimed rows are sent, in order of creation, one left out only for a full batch no younger, or nothing is claimed and nothing sent |
| Intake.Consumer.ProcessMessage | internal/kafka/consumer.go:108-174 | a task is sent exactly when its claim succeeded; the message is committed unless the claim call failed |
| Publisher.OutboxPublisher.ProcessCycle | internal/worker/outbox_publisher.go:110-143 | the log grows by one entry for each stored message, in batch order; event by event, the acknowledged ones are marked and those published longer ago than the retention are gone, except for failing calls; an event stops being unpublished only when its message is in the log; a faultless cycle is a clean one in the sense of Outbox.Drain |
| Publisher.OutboxPublisher.PublishAll | internal/worker/outbox_publisher.go:126-130 | the loop publishes every event and collects the acknowledged ids |
| Publisher.OutboxPublisher.MarkAndPurge | internal/worker/outbox_publisher.go:132-142 | nothing is marked for an empty list, and a failed mark skips the purge |
| Publisher.StoredInOrder | internal/worker/outbox_publisher.go:128-129 | the stored messages of a batch, one for each, at the place that their order gives |
| Publisher.OutboxPublisher.PublishEvent | internal/worker/outbox_publisher.go:148-183 | the id joins the list exactly when the publish was acknowledged |
| Publisher.AckedExactly | internal/worker/outbox_publisher.go:126-182 | an id is in the list if and only if its publish was acknowledged |
| Monitor.Recovery.Sweep | internal/worker/instance_monitor.go:28-50 | row by row, exactly the running rows of instances with an old heartbeat whose recovery did not fail are reset, and exactly those whose deregistration did not fail either are removed; no removed instance still holds a running row |
| Monitor.Recovery.RecoverInstance | internal/worker/instance_monitor.go:36-47 | an instance is removed only after its rows were reset |
| Monitor.Recovery.Clean | internal/worker/stale_cleaner.go:20-32 | one tick resets exactly the stale rows |
| Monitor.RecoverOneMore | internal/repository/task_repository.go:438-444 | recovering one instance after others is recovering them together |

## Left out

- HTTP handlers, routing, response formatting and error mapping: I/O and thin mapping. Creates and DLQ retries enter as steps; every create has status pending, as the handler sets it.
- The status override (`UpdateStatus`): a step of the board, but only the guarantees that survive it are claimed for runs that contain it.
- Telemetry, metrics, spans, logging and trace headers: no effect on task state.
- Configuration and environment: worker count, batch size, intervals and limits are parameters; the defaults enter one corollary.
- JSON and UUID parsing: a payload is malformed or has a type and a body, a Kafka message is garbled, without a usable id, or about a task; error texts are kept as their parts.
- UUIDs and worker names are numbers; that the engine's new UUIDs are fresh and worker ids unique is a premise of the steps that make them.
- Task handlers: arbitrary success or failure. Their contexts and timeouts appear only as the premise that a handler ends within a limit.
- PostgreSQL itself: statements are atomic, row locks and SKIP LOCKED act as in the manual of version 16 (sections 13.2.1 and 13.3.2), a failed call rolls back, and there is one clock. The columns updated_at and started_at, which no modelled statement reads, are not modelled.
- The width of attempt_count: the column is a 32-bit integer, the model's is unbounded; the claim bound keeps it far below the limit.
- The kafka-go client and the broker: the log is a sequence that keeps everything; a message may be stored without being acknowledged, and a task may be claimed by message at any time, any number of times, so no guarantee rests on offsets or commits.
- `Create` under a taken key reads the holder outside the transaction: if the holder vanishes in between, the call returns the same internal error as for a failed read, and the model uses that fault.
- Guarantees.SingleOwner: stated for safely recovered runs, because writes match on id alone; the same holds of `PhaseRefinement`, `TerminalForever`, `ExactConservation` and `DeadLetterAttempts`. The exact conditions are in `Exactness` and `Letters`.
- Exactness.TerminalIffSafe, like the results in `Letters`, takes a retry limit of at least 2; the schema's is always 3, and with less a dead-lettering can fail on the null last_error.
- Leader.OneLeader: excludes a database session that is lost while the process goes on, since `TryAcquireLeader` answers from the kept connection; a failed unlock query is taken to be a broken connection.
- Recovery.NoOrphanLeft: excludes instances that are stale but alive, and the status override.
- Waiting.WaitingBound: a claim is a round trip to the database, and the model takes it that by its return the other sender of the process has tried to send what it has. The delays of the scheduler are not modelled otherwise, and a handler's time limit includes its final write.
- Timed.TimedSingleOwner: time is in whole units, a claim's commit and its return are one step, at most the claim's duration after its lock, and the premise that stale instances are dead remains.
- The board lets any queued envelope be received next and any number wait; order, capacity and closing are the subject of `Pool`, `Shutdown` and `Waiting`.
- Shutdown.DrainIsExact: after the cancel no new claim begins, because a query under a cancelled context fails; main's time limits for the HTTP server and telemetry are not part of it.
- The ticker and fetch loops themselves (`Run` and `Start` of the dispatcher, consumer, publisher, coordinator, monitor and cleaner): their bodies are methods, and the machines let them run at any time.
- `Pool.Submit`: nothing in the program calls it; the channel's senders are the dispatcher and the consumer.
- Read-only queries (lists, lookups, counts), down migrations, containers and dashboards: nothing to keep or lose.
