# Workrail: durable jobs, replay and payouts

Workrail keeps background jobs in PostgreSQL and runs their workflows by replay: a
workflow is executed again from the top after every crash, suspension or lost lease, and
the checkpoints in the store make the executions agree. This project states what that
design promises and proves it of a model that takes the same branches as the code.

**The job store** (`StoreModel`, `StoreInvariant`, `StoreHistory`, `Store`). A state is a
clock and a map from job ids to a job's row, checkpoints, mailbox and log. `StoreModel`
gives every transaction as a pure operation on one job's rows, plus the jobs it creates
and deletes. `StoreInvariant` proves the invariant that every operation keeps, and
`StoreHistory` proves theorems about arbitrary sequences of operations. `Store` is the
same store as a class whose methods update the tables statement by statement; each
contract equates the new tables with the operation it performs.

**The replay runtime** (`Faults`, `Keys`, `Runtime`, `RuntimeInvariant`, `RuntimeSystem`,
`Guarantees`, `FencedRuns`, `ChildQueues`, `Worker`). A workflow is an arbitrary
deterministic function from what its calls have returned so far to the next action: a
step, a signal wait, a sleep, a child, a result or an error, in any nesting of activities.
Any number of runs of one job may be live at once, zombies on lost leases included. `Runtime` breaks a run into the small steps
at which other runs, workers, senders and operators can interleave; `SaveStep` is two
steps, its ownership check and its insert, because the code takes no row lock in between.
`RuntimeInvariant` is a rely/guarantee argument for one run, `RuntimeSystem` lifts it to
the whole system, and `Guarantees` holds the theorems, `FencedRuns` those about lost
leases, `ChildQueues` those about the queue of a child. Only the theorems that tell apart
the keys of different kinds of call suppose the naming contract (no '/' in a name, no
reserved prefix on a step), and only of the job that they are about. `Worker` is the code
in imperative form, proved to move along paths of that state machine.

**The same in columns** (`Columns`, `Deliveries`, `Calls`, `Timers`, `ReusedTimers`,
`ChildOutcomes`). What the operations and calls come to, stated without the model's own
guards and helpers, in terms of status, lease, clock, attempts, payloads and deadlines.
`Columns` says exactly which jobs a claim, a sweep and retention take, what each operation
makes of a row, and what that means over whole runs: a lease protects its job until it
ends, and a job that waits is not claimed before its time. `Deliveries` accounts for every
mailbox by the signals that were sent. `Calls` follows a run from a wait, a timer, a child,
a step or an error to the job's row. `Timers` traces every checkpoint back to the call that
wrote it, which bounds every deadline. `ChildOutcomes` traces a parent's permanent failure
back to its child.

**Effectively once** (`Simulation`, `EffectivelyOnce`, `Uninterrupted`). A simulation
between the runs of one job with crashes anywhere and one run that is never interrupted
and gets the same answers to its waits, timers and children; and, for workflows of steps,
the converse: that run is itself a behaviour of the system.

**Built-in sequence workflow** (`Sequence`), **heartbeats** (`Heartbeats`), **job list
paging** (`Paging`).

**The payouts application** (`Ledger`, `Bank`, `Payouts`, `PayoutApp`, `PayoutRows`,
`PayoutJobs`, `PayoutSuccess`, `Money`). The ledger and the bank rail are classes over their tables; `Payouts` interleaves the payout
and settlement workflows of one payout, statement by statement (checkpoints, status writes
and notifications included), with everything that other payouts do to the same tables;
`PayoutApp` is the imperative form, and `PayoutRows` says row by row what one run leaves
and what all runs together can write. `PayoutJobs` puts the payout workflow into the runtime,
with real claims, leases, checkpoints and terminal writes, and proves that its executions
are traces of that machine, so that the machine's theorems hold of the jobs;
`PayoutSuccess` constructs an execution that completes. `Money` is the pair of amount
formatter and amount reader.

`dafny verify dfyconfig.toml` checks the project.

## Findings

Places where the code does less than its comments say; each has a lemma.

- The worker gives up "before the unrenewed lease expires" (`internal/engine/worker.go:164`)
  only under a timing condition, which `Heartbeats.GiveUpBound` states exactly;
  `NotAlwaysBeforeExpiry` is an instance where it stops the job just as the lease ends.
- The backoff is min(2^(attempt-1), 60) seconds for attempts up to 34. From 35 on the
  int64 product wraps: the delay is still a minute at attempts 38, 42, 43, 46, 48, 51, 52
  and 54, negative at the others up to 55, and zero from 56 on (`Jobs.BackoffExactly`).
- The lease fence is the worker id. A worker that reclaims its own job is not fenced from
  its earlier run (`StoreHistory.OneWorkerIsNotFencedFromItself`). Replay agreement holds
  all the same, because it rests on the first write of a checkpoint winning.
- SaveStep takes no lock between its ownership check and its insert
  (`internal/store/postgres/store.go:228-239`), so a run can land a checkpoint on a job
  that it has lost in between, a canceled one for instance
  (`FencedRuns.CanceledJobGetsACheckpoint`). It is one checkpoint at most, and the only
  thing a run without the lease can write (`FencedRuns.LostLease`,
  `FencedRuns.LateCheckpoint`); such inserts are all that can change the checkpoints of a
  finished job (`StoreHistory.CheckpointsFrozenIff`).
- A wait can cost an attempt: when a signal makes the store refuse the park, the job stays
  leased, and after the lease either the next claim counts another attempt or, when none
  is left, the sweep dead-letters the job (`StoreHistory.RefusedParkCostsAnAttempt`).
- A payout can be paid and refunded. It happens exactly when the payout is posted and a
  run that was refused for lack of funds releases after another run has made its hold
  (`Payouts.PaidAndRefundedIff`, and of the jobs `PayoutJobs.PaidAndRefundedIff`). There
  are two ways to it. A run is refused, the account is refilled, and another run holds
  before the refused one releases (`Payouts.OverlapPaysAndRefunds`). Or two runs look for a
  hold in vain, because the look takes no lock (`examples/payments/ledger.go:38-49`); one
  makes it, and the other then finds the balance spent by that very hold, is refused for
  lack of funds and releases it (`Payouts.RacePaysAndRefunds`). It cannot happen when no
  run makes the hold while another one is between its look for a hold and the end of its
  reservation or, if it is refused, of its release (`Payouts.NeverPaidAndRefunded`), in
  particular not when runs do not overlap (`Payouts.NoOverlapIsPatient`,
  `PayoutJobs.NeverPaidAndRefunded`).
- A crash between the reservation and its checkpoint shows in the payout's result: the
  repeated reservation finds the hold and says so (`Ledger.ReceiptTellsRepeat`). The books
  are the same.
- `parseAmount` accepts texts that it misreads. An accepted text is read as the amount it
  denotes iff it has no minus sign, only digits behind the point, and a value within int64
  (`Money.AcceptedIsRight`): "-0.50" is read as 50 cents (`Money.MinusIsLost`), "1.-5" as
  95 (`Money.SignedPence`), "1.23x" as 123 (`Money.TailIsIgnored`), and 184467440737095517
  dollars as 84 cents (`Money.HugeAmountReadAsCents`). Every text that denotes 1 cent up to
  the largest int64 is accepted and read right (`Money.AmountsAreAccepted`), but not with
  the commas that `formatCents` prints (`Money.ReadableIffSmall`).
- A timer's name has to be unique, as `internal/engine/sleep.go:27-28` asks. Of two sleeps
  under one name the second finds the first one's deadline: it lasts its duration in all
  executions iff the first was no shorter (`ReusedTimers.ReusedNameIff`). In general a run
  is past a timer only after the job's creation plus the duration of its first sleep under
  that name (`Timers.NeverTooEarly`).
- A child that is started inside an activity goes to the queue "default", because the
  pushed frame carries no queue (`internal/engine/activities.go:29-31`). A new child's
  queue is its parent's iff it is started outside of activities or the parent's queue is
  "default" (`ChildQueues.ChildQueue`; `ChildQueues.ChildOnDefaultQueue` is a reachable
  state where it is not).

## Model

| member | source | states |
|---|---|---|
| Store.Store.Enqueue | internal/store/postgres/store.go:58-84 | the new tables are those of the enqueue operation; a used idempotency key returns its job and creates none; a missing parent is refused |
| Store.Store.Claim | internal/store/postgres/store.go:86-139 | exactly the first claimable unlocked jobs in (run_after, created_at) order are leased, each with one more attempt and a claim event, and returned; a running one only if its lease has ended |
| Store.Store.DeadLetterExhausted | internal/store/postgres/store.go:141-177 | exactly the unlocked jobs without attempts left whose lease has ended are dead-lettered, keeping an earlier error, and their ids returned |
| Store.Store.PruneCompleted | internal/store/postgres/store.go:183-208 | a batch of old enough succeeded or canceled jobs of the queue disappears, at most 5000 and none left out otherwise; children lose the parent link |
| Store.Store.InsertCheckpoint | internal/store/postgres/store.go:236-251 | the first value under a key is stored and logged, and every later writer gets that value back |
| Store.Store.SaveStep | internal/store/postgres/store.go:224-257 | a caller without the lease at the check is refused and changes nothing; any other inserts into the tables as others have left them by then, however long after the check, and gets the value that is stored afterwards |
| Store.Store.SaveStepAlone | internal/store/postgres/store.go:224-257 | when nobody commits in between, check and insert are the one atomic operation of the state machine |
| Store.Store.Heartbeat | internal/store/postgres/store.go:279-292 | extends the lease of the owner of a running job and of nobody else |
| Store.Store.Suspend | internal/store/postgres/store.go:294-315 | parks the job and gives the attempt back exactly when the caller owns it and its wake version is still the claimed one |
| Store.Store.Signal | internal/store/postgres/store.go:317-369 | delivers once per key, bumps the wake version and brings run_after to the present; unknown and finished jobs are told apart, a repeated key is accepted; what is not repeated is put at the end of the mailbox with the payload that was sent |
| Store.Store.GetSignalAt | internal/store/postgres/store.go:371-386 | the index-th delivery under the name in delivery order, or nothing |
| Store.Store.Complete | internal/store/postgres/store.go:408-425 | only the owner of a running job completes it, with its result |
| Store.Store.Fail | internal/store/postgres/store.go:427-462 | only the owner fails a job; the next status, delay and completion time follow the failure rule |
| Store.Store.Cancel | internal/store/postgres/store.go:464-477 | cancels a job that is not finished and no other |
| Store.Store.RetryDeadLetter | internal/store/postgres/store.go:479-496 | takes a dead-lettered job, and no other, back to a claimable one with all attempts |
| Store.Store.Replay | internal/store/postgres/store.go:498-513 | a new job with the source's type, payload and limits, no key, no checkpoints, no mailbox |
| Store.OneJob | internal/store/postgres/store.go:279-546 | an operation on one job leaves every other job as it was |
| Columns.LiveLeaseIsSafe | internal/store/postgres/store.go:101-102 | a running job whose lease_expires_at is now or later is in no legal claim, and claims and sweeps leave it as it is |
| Columns.LeaseProtects | internal/store/postgres/store.go:86-177 | over any run of the store: until the lease ends, each heartbeat giving it its full length again, the job stays leased to its worker with the attempt it was claimed for, unless the worker or a cancel ends it |
| Columns.IntervalIs | internal/store/postgres/store.go:695-700 | a lease of whole microseconds ends exactly that much later, any other positive one within a microsecond of it, and 30 s stand in for none |
| Columns.ClaimTakes | internal/store/postgres/store.go:94-107 | a claim is legal iff it takes as many due jobs as it asks for, none later in (run_after, created_at) than one left behind; due is waiting with run_after passed, or running with the lease ended and attempts left |
| Columns.ClaimMakes | internal/store/postgres/store.go:108-132 | what each column of a claimed job is afterwards; the others are left alone |
| Columns.SweepTakes | internal/store/postgres/store.go:144-173 | the sweep dead-letters a job iff it holds the lock, the row is free, and the job runs, past its lease, with no attempts left; the columns afterwards |
| Columns.Renewed | internal/store/postgres/store.go:279-292 | a heartbeat of the owner gives the lease its length from now and changes nothing else |
| Columns.CheckpointMakes | internal/store/postgres/store.go:224-257 | the first value under a key stays; nothing but checkpoints and log is touched |
| Columns.SuspendMakes | internal/store/postgres/store.go:294-315 | an owner's park with the current wake version: queued until the given time, one attempt less, no lease; any other changes nothing |
| Columns.CompleteMakes | internal/store/postgres/store.go:408-425 | the owner's result is stored, {} for none, and the job succeeded |
| Columns.FailMakes | internal/store/postgres/store.go:427-462 | dead-lettered iff permanent or out of attempts, else waiting for min(2^(attempt-1), 60) seconds for attempts up to 34; with the error's text |
| Columns.CancelMakes | internal/store/postgres/store.go:464-477 | what each column of an unfinished job is afterwards; a finished one stays as it is |
| Columns.RetryMakes | internal/store/postgres/store.go:479-496 | a dead-lettered job has attempt 0, no error, no result, its checkpoints and mailbox, and is due now |
| Columns.EnqueueMakes | internal/store/postgres/store.go:58-84 | a job is made iff the key is free and the parent exists; what each of its columns is, with the defaults |
| Columns.EnqueueLeaves | internal/store/postgres/store.go:67-80 | the other jobs stay as they are, but for the log of the holder of a used key |
| Columns.ReplayMakes | internal/store/postgres/store.go:498-513 | queue, type, payload and max_attempts are the source's, everything else is new |
| Columns.PruneTakes | internal/store/postgres/store.go:183-200 | retention takes, 5000 at most, jobs of the queue that succeeded or were canceled more than the retention ago, and leaves none of them if they are fewer |
| Columns.PruneMakes | internal/store/postgres/store.go:193-200 | the taken jobs are gone, and all that changes of another is a link to a parent that is gone |
| Columns.SignalMakes | internal/store/postgres/store.go:324-366 | an accepted signal that is no repeat is the mailbox's last entry, with its payload, {} for none; the wake version is one more, and a waiting job is due |
| Columns.NotBeforeItsTime | internal/store/postgres/store.go:100 | over any run of the store: a waiting job that gets no signal is in no claim before its run_after |
| Deliveries.SignalDelivers | internal/store/postgres/store.go:324-342 | an accepted signal adds its payload to the deliveries under its name and none under another |
| Deliveries.MailboxIsWhatWasSent | internal/store/postgres/store.go:317-386 | over any run from the empty store, a job's deliveries under a name are the payloads of its accepted, not repeated signals under it, in order |
| StoreInvariant.InvKept | internal/store/postgres/store.go:58-513 | every operation keeps the invariant: rows consistent, log reconciled, attempts budgeted, keys unique, mailboxes counted by the wake version |
| StoreInvariant.RowKept | internal/store/postgres/store.go:297-302 | running iff leased; completed_at iff finished; waiting jobs have attempts left; running jobs have 1 <= attempt <= max_attempts and run_after in the past |
| StoreInvariant.EventAccounts | internal/store/postgres/store.go:243-251 | each operation logs one event that tells what it did to attempts, checkpoints and mailbox, or none and leaves them alone |
| StoreInvariant.LogKept | internal/store/postgres/store.go:128-132 | the log accounts for the attempt counter, matches the checkpoints one to one and the mailbox in order |
| StoreInvariant.MeasureFalls | internal/store/postgres/store.go:149-164 | 2(max_attempts - attempt) + (1 if running) falls with every claim, failure, sweep, completion and cancel; a park adds one |
| StoreInvariant.KeysKept | internal/store/postgres/store.go:63-71 | no two jobs have one idempotency key |
| StoreInvariant.EntryGrows | internal/store/postgres/store.go:236-251 | no operation takes back a checkpoint, a delivery, a log entry, a job's identity or a success |
| StoreHistory.ReachableInv | internal/store/postgres/store.go:86-132 | in every reachable state the invariant holds, and a job never retried from the dead-letter queue has attempt = claims - suspensions and a bounded number of moves |
| StoreHistory.OnlyPruneRemoves | internal/store/postgres/store.go:194-199 | a job disappears only by retention, after it succeeded or was canceled |
| StoreHistory.GrowsBetween | internal/store/postgres/store.go:236-251 | over any run of the store, a later state of a job extends the earlier one |
| StoreHistory.Fencing | internal/store/postgres/store.go:228-235 | once a job is not leased to a worker id, each of its writes that checks and writes in one statement, and each SaveStep checked from then on, is refused without effect until a claim hands it the job |
| StoreHistory.ClaimTakesTheJob | internal/store/postgres/store.go:108-117 | a claim makes its worker the owner and nobody else |
| StoreHistory.OneWorkerIsNotFencedFromItself | internal/store/postgres/store.go:228-235 | after a worker reclaims its own job, its earlier run's checkpoint is accepted |
| StoreHistory.OutcomeFrozen | internal/store/postgres/store.go:479-496 | a finished job keeps status, result, mailbox and the checkpoints it has until pruned; a dead-lettered one is never pruned and moves only by a retry |
| StoreHistory.CheckpointsFrozenIff | internal/store/postgres/store.go:228-239 | a finished job gets a further checkpoint iff an insert that was past its ownership check lands on it with a new key |
| StoreHistory.LiveJobsAreNeverPruned | internal/store/postgres/store.go:193-200 | a job that is gone was deleted by a prune that found it succeeded or canceled |
| StoreHistory.OneJobPerKey | internal/store/postgres/store.go:63-69 | two enqueues under one key create two jobs only if the first was deleted in between |
| StoreHistory.ResendIsNoop | internal/store/postgres/store.go:330-342 | an accepted keyed signal can be sent again at any later time and changes nothing |
| StoreHistory.ExpiredLeaseHasOneExit | internal/store/postgres/store.go:101-103 | an expired running job is claimable or swept, exactly one of the two |
| StoreHistory.RefusedParkCostsAnAttempt | internal/store/postgres/store.go:306-310 | a refused park leaves the job leased; once the lease has expired, a legal claim counts another attempt, or, with the attempts spent, a legal sweep dead-letters it |
| Jobs.BackoffSchedule | internal/engine/job.go:132-141 | the delay is min(2^(attempt-1), 60) seconds for attempts 1 to 34 |
| Jobs.BackoffExactly | internal/engine/job.go:132-141 | for all attempts: the delay is min(2^(attempt-1), 60) seconds iff attempt <= 34 or attempt is 38, 42, 43, 46, 48, 51, 52 or 54; it is zero from attempt 56 on |
| Jobs.BackoffWraps | internal/engine/job.go:132-141 | attempts 35 to 55, where the int64 product has wrapped: a minute at eight of them, a negative delay at the others |
| Faults.PermanentIffMarked | internal/engine/errors.go:15-35 | a failure is permanent iff some error in its wrap tree is marked |
| Faults.FirstSuspension | internal/engine/worker.go:186-188 | the suspension that is acted on is the first one in the wrap tree |
| Keys.KeysDoNotCollide | internal/engine/steps.go:52-57 | two calls have one stored key iff path, kind, name and index agree |
| Keys.SignalKeyInjective | internal/engine/signal.go:20 | signal keys determine name and index, also for names with '#' |
| Keys.ContractIsNeeded | internal/engine/activities.go:18-40 | each clause of the naming contract is needed: an empty activity name, a slash in the name of an activity, step, timer, signal or child, and each reserved prefix give a collision |
| Keys.ChildKeyInjective | internal/engine/children.go:32-38 | child idempotency keys determine parent and name |
| RuntimeInvariant.RunStable | internal/engine/steps.go:71-78 | whatever others do to the store, what a run has observed stays true |
| RuntimeSystem.NextKept | internal/engine/worker.go:131-217 | every step of every run and every store operation keeps the system invariant |
| RuntimeSystem.AlwaysInv | internal/engine/worker.go:131-217 | every interleaving stays inside the invariant |
| RuntimeSystem.ParkIsCurrent | internal/store/postgres/store.go:294-302 | a park that goes through has seen the whole mailbox |
| Guarantees.ReplayAgreement | internal/engine/steps.go:66-94 | any two runs of one job, zombies included, have observed comparable sequences of keys and values |
| Guarantees.SameResult | internal/engine/steps.go:66-94 | runs of one job that come to the end return the same |
| Guarantees.ResultIsDetermined | internal/engine/worker.go:211-217 | a succeeded job's result is the one that every run that comes to the end computes |
| Guarantees.CheckpointsAreFinal | internal/store/postgres/store.go:236-251 | what a step returned in any run is what its key holds then and ever after |
| Guarantees.InOrderSignals | internal/engine/signal.go:36-61 | a run of a well named workflow that waits for deliveries 0, 1, 2, ... reads a prefix of the mailbox, none skipped or repeated |
| Guarantees.SignalCheckpoints | internal/engine/signal.go:44-61 | in a job whose workflow is well named every checkpoint under a signal key is the delivery that the key names |
| Guarantees.NoLostWakeUp | internal/store/postgres/store.go:294-369 | a job parked for delivery i has at most i deliveries or can be claimed now |
| Guarantees.StableTimers | internal/engine/sleep.go:31-59 | all runs agree on a timer's deadline, and none gets past it early |
| Guarantees.ParkedUntilDeadline | internal/engine/sleep.go:44-59 | a run that suspends on a timer parks its job with the stored deadline as run_after, the deadline of every run that got past the timer |
| Guarantees.ChildIdentity | internal/engine/children.go:30-47 | for jobs whose workflows are well named, one parent and name means one child in any activity, and different ones never share |
| Guarantees.ChildResultAgrees | internal/engine/children.go:52-63 | all waits for one child that return give the same result |
| Deliveries.ReadsWhatWasSent | internal/engine/signal.go:36-61 | in every interleaving, a run that waits for deliveries 0, 1, 2, ... reads a prefix of what was sent to its job under that name |
| Calls.WaitParks | internal/engine/signal.go:54-56 | in every reachable state, a run that looks for a delivery that is not there, holds the lease and was not signaled parks its job: queued, due in 5 seconds, one attempt less |
| Calls.WaitNeverFails | internal/engine/signal.go:54-56 | a wait that merely finds nothing never fails its job, with or without the lease |
| Calls.WaitSees | internal/engine/signal.go:50-61 | a wait whose delivery is there checkpoints it and goes on with it |
| Calls.TimerParks | internal/engine/sleep.go:45-57 | the first run to come to a timer at time t stores t + d, and parks its job until then |
| Calls.TimerPasses | internal/engine/sleep.go:55-58 | a run at or after the deadline goes on |
| Calls.ChildDecides | internal/engine/children.go:54-64 | the child's result is seen iff it succeeded; the run will fail its job for good iff the child is dead-lettered or canceled, and suspend it for 5 seconds iff the child is not finished |
| Calls.ChildEndsParent | internal/engine/children.go:60-61 | a dead-lettered or canceled child dead-letters its parent whatever attempts are left |
| Calls.ChildParksParent | internal/engine/children.go:62-63 | an unfinished child parks its parent: queued, due in 5 seconds, one attempt less |
| Calls.ChildIsOrdered | internal/engine/children.go:30-38 | the child's row: the type and input asked for, the parent, the key, three attempts, due at once |
| Calls.ChildIsFound | internal/engine/children.go:30-41 | a child that is there under its key is used and not made again |
| Calls.StepSees | internal/engine/steps.go:78-93 | what a body returns, {} for nothing, is checkpointed and returned |
| Calls.StepIsSkipped | internal/engine/steps.go:71-77 | a step with a checkpoint returns it, with no body and no write |
| Calls.StepErrorFails | internal/engine/steps.go:78-81 | a body's error fails the job, permanently iff it is so marked or attempts are spent, with a text that names the step |
| Calls.RaiseFails | internal/engine/worker.go:200-202 | a workflow's error fails the job in the same way |
| Calls.ReturnCompletes | internal/engine/worker.go:211 | a workflow's result becomes the job's |
| Calls.EarlyEnds | internal/engine/signal.go:37-39 | a negative index, a refused checkpoint and a missing child fail the run for now; a sleep of no length returns at once |
| Calls.ClaimStarts | internal/engine/worker.go:131-137 | a claim starts one run for each job it takes, from the top, with the row's queue, type, payload and wake version |
| Timers.NeverTooEarly | internal/engine/sleep.go:45-58 | in every reachable state, a run that got past a timer did so no earlier than the job's creation plus the duration of its first sleep under that key |
| Timers.StoredDeadline | internal/engine/sleep.go:45-47 | a well named job's checkpoint for a timer is a time between the job's creation and now, plus the duration of a sleep of its workflow under that name |
| Timers.OneDuration | internal/engine/sleep.go:45-47 | so with one duration d per name it is at least the job's creation plus d and at most now plus d |
| ReusedTimers.ReusedNameIff | internal/engine/sleep.go:25-28 | of two sleeps under one name the second lasts its duration in all executions iff the first was no shorter |
| ChildOutcomes.ParentFailsAfterChild | internal/engine/children.go:54-61 | in every execution, a run that failed for good at a child did so at a step that found the checkpointed child dead-lettered or canceled, unless a database call failed with a permanent error |
| ChildOutcomes.ResultIsTheChilds | internal/engine/children.go:55-59 | a child's result that a run has seen is that of the checkpointed child, which succeeded |
| FencedRuns.LostLease | internal/store/postgres/store.go:228-251 | along any trace, until a claim hands its worker the job again, no step of a run without the lease changes the job's row, checkpoints or mailbox, except at most one if the run was past the check of SaveStep |
| FencedRuns.LateCheckpoint | internal/store/postgres/store.go:236-251 | that one step inserts the checked value under its key, which was free, and changes nothing else |
| FencedRuns.CanceledJobGetsACheckpoint | internal/store/postgres/store.go:228-239 | from every state in which a lease holder is about to save a step: check, cancel, insert leads to a canceled job with a checkpoint more |
| ChildQueues.ChildQueue | internal/engine/children.go:30-38 | in every reachable state, a child that a run creates is on its parent's queue iff it is started outside of activities or that queue is "default" |
| ChildQueues.ChildOnDefaultQueue | internal/engine/activities.go:29-31 | a reachable state in which a job of queue "payouts" has a child on queue "default" |
| Simulation.RunStepSim | internal/engine/steps.go:71-93 | every small step of a live run, whatever call it is in, keeps it, its checkpoints and the world in step with an uninterrupted run |
| EffectivelyOnce.AsIfUninterrupted | internal/engine/steps.go:59-65 | non-overlapping runs of a workflow with idempotent steps, and with any waits, timers and children, that end in completion leave the world, checkpoints and result of one uninterrupted run that gets the same answers, and bodies ran at most once per step plus once per aborted run |
| EffectivelyOnce.SameEffects | internal/engine/workflows.go:92-109 | any two ways in which a job completes, with the same answers to its waits, timers and children or without any, leave the same world, checkpoints and result |
| Uninterrupted.CanComplete | internal/engine/worker.go:131-217 | if the uninterrupted run comes to a result, one claim and one undisturbed run bring the job there, every body executed once |
| Uninterrupted.CompletesIff | internal/engine/steps.go:59-65 | for workflows of steps, some behaviour completes the job iff the uninterrupted run comes to a result |
| Worker.RunStep | internal/engine/steps.go:66-94 | the code takes the steps of a checkpointed call and no others, with the body's answer |
| Worker.WaitSignalAt | internal/engine/signal.go:36-61 | the code takes the steps of a wait: checkpoint, mailbox, suspension; without checkpoint and delivery it suspends for 5 seconds |
| Worker.Sleep | internal/engine/sleep.go:31-59 | the code takes the steps of a timer: checkpointed deadline, suspension until then; at the first call the deadline is now + d |
| Worker.ExecuteChild | internal/engine/children.go:22-64 | the code takes the steps of a child: enqueue under its key, checkpoint, status; the child of the checkpoint has succeeded and its result goes on, or failed and ends the parent for good, or is not finished and suspends the parent for 5 seconds, unless the call itself failed |
| Worker.TerminalBranch | internal/engine/worker.go:186-217 | result, suspension or failure decide the one terminal write; a failure dead-letters iff it is permanent or attempts are spent |
| Worker.RunJob | internal/engine/worker.go:131-217 | a job's execution is a path of the state machine and, unless the process dies, ends with its terminal write |
| Worker.ReachesIsReachable | internal/engine/worker.go:131-217 | such a path is a trace of the whole system, so the guarantees hold of it |
| Sequence.SequenceWorkflow | internal/engine/workflows.go:92-109 | the loop asks for the first step without a result, or stops at the first repeated name |
| Sequence.EveryStepItsOwn | internal/engine/workflows.go:92-109 | in every reachable state the steps ran in order under different keys, and the returned map has each step's own checkpoint |
| Sequence.WhatItAsks | internal/engine/workflows.go:92-109 | it asks for the first step without a result iff there is one and the names so far differ, returns iff all steps have results and differ, and else stops with an error that is not permanent |
| Heartbeats.StopsIff | internal/engine/worker.go:149-171 | a renewal never stops the job, a lost lease always does, another failure iff the last renewal is at least the lease less one interval ago |
| Heartbeats.TickTaken | internal/engine/worker.go:140-148 | a tick that fired during a call is taken at once, else the next multiple of the interval; others are dropped |
| Heartbeats.Watch | internal/engine/worker.go:139-173 | the loop stops the job at the first call that lost the lease or failed too long after the last renewal |
| Heartbeats.GivesUp | internal/engine/worker.go:160-170 | of three failures in a row the first never stops the job, the third always does, the second iff it took long enough |
| Heartbeats.GiveUpBound | internal/engine/worker.go:139-173 | after a heartbeat at tick t that renewed the lease the job is stopped by t + 3I + d <= t + L + d, and before t + L exactly under the stated condition on the calls' durations; without a renewal t is the start of the loop, and t + L is later than the end of the lease |
| Heartbeats.FirstSilence | internal/engine/worker.go:139-173 | without any renewal the lease ends L after the claim; the exact condition, in which the gap from claim to loop counts, for stopping before that |
| Heartbeats.NotAlwaysBeforeExpiry | internal/engine/worker.go:163-168 | an instance in which the job is stopped only at t + L |
| Ledger.Ledger.Reserve | examples/payments/ledger.go:34-74 | the look for a hold, then the locked check of the balance on the tables as others have left them by then: a hold that was seen is reused; unknown account, missing funds and a hold made in between change nothing, the last two told apart only by the balance; otherwise one hold and one debit |
| Ledger.Ledger.ReserveAlone | examples/payments/ledger.go:34-74 | when nobody comes in between, the two statements are the one operation: one hold and one debit per payout |
| Ledger.ReserveMakes | examples/payments/ledger.go:37-67 | without a hold a reservation succeeds iff the account is known and has the money; it takes exactly that from it and writes one line that says so |
| Ledger.HoldIsUsed | examples/payments/ledger.go:80-119 | a post or release copies account and amount of the hold, once; only a release moves money, back to that account |
| Ledger.Ledger.Post | examples/payments/ledger.go:80-88 | records the hold's account and amount as posted, once, and moves no money |
| Ledger.Ledger.Release | examples/payments/ledger.go:92-119 | returns the hold's amount to its account, once |
| Ledger.Conservation | examples/payments/ledger.go:34-119 | after any operations each balance is initial - holds + releases and not negative, and entries are unique and match their hold |
| Ledger.RepeatIsNoop | examples/payments/schema.sql:27-37 | an operation that took effect can be repeated at any time without effect |
| Ledger.ReceiptTellsRepeat | examples/payments/ledger.go:34-74 | a repeated reservation leaves the books alone but answers with another receipt, marked as reused |
| Bank.Bank.Submit | examples/payments/bank.go:51-89 | the accepted transfer of the key, or a counted attempt that is rejected or unavailable by the scenario's rules |
| Bank.SubmitMakes | examples/payments/bank.go:51-89 | nine zeros are always rejected, amounts ending in 13 are refused at the first two attempts, others are accepted to settle in 6 seconds; each counts |
| Bank.StatusMakes | examples/payments/bank.go:92-119 | a pending transfer whose time has come is returned iff its amount ends in 99, else settled; no other changes |
| Bank.FlakyClears | examples/payments/bank.go:59-70 | a flaky amount clears at the third attempt, and not before |
| Bank.Bank.Status | examples/payments/bank.go:92-119 | decides a due pending transfer by its amount and leaves every other alone |
| Bank.SubmitOnce | examples/payments/bank.go:52-57 | after a key was accepted every later submission returns the same transfer and moves no money |
| Bank.StatusIsFinal | examples/payments/bank.go:105-113 | a decided transfer is reported the same ever after |
| Payouts.NeverPaidAndRefunded | examples/payments/workflow.go:74-221 | when no run makes the hold while another is between its look for a hold and the end of its reservation or release, no payout has a post and a release; a post has a settled transfer of its amount, a release has a returned one or none, status paid has a post and status returned a release |
| Payouts.PaidAndRefundedIff | examples/payments/workflow.go:80-88 | over all traces: post and release iff post and some run refused for lack of funds released after a hold had been made |
| Payouts.NoOverlapIsPatient | examples/payments/workflow.go:74-88 | runs of which none begins before the earlier ones are over never make the hold beside such a run |
| Payouts.MoneyConserved | examples/payments/workflow.go:74-221 | even with overlapping runs money is conserved on all accounts and a payout has at most one transfer |
| Payouts.OverlapPaysAndRefunds | examples/payments/workflow.go:80-88 | a trace of overlapping runs that leaves both entries, the account being refilled in between |
| Payouts.RacePaysAndRefunds | examples/payments/ledger.go:38-58 | a trace that leaves both entries from an account with the payout's amount: two runs look for a hold in vain, one makes it, the other is refused by it |
| Payouts.TransferKeyInjective | examples/payments/workflow.go:64 | different payouts have different transfer keys |
| PayoutApp.App.PayoutWorkflow | examples/payments/workflow.go:74-137 | one run of the code (reserve, submit, schedule, mark submitted; compensate, mark failed and notify on a permanent error) is a path of the payout's state machine that comes to its end; it reports completion iff all four steps are checkpointed |
| PayoutApp.App.SettlementWorkflow | examples/payments/workflow.go:150-198 | one run of the code (ask, post or release, notify, set the status, each checkpoint once) is a path of the settlement in the same machine that comes to its end, with the outcome booked iff the bank had decided |
| PayoutRows.PayoutRun | examples/payments/workflow.go:74-137 | an undisturbed run leaves all four effects done; or, refused for lack of funds or its routing number, nothing held, the payout failed and the customer told; or, for an error that is not permanent, what was reserved and nothing more |
| PayoutRows.SettlementRun | examples/payments/workflow.go:150-198 | an undisturbed settlement leaves the payout posted, told and paid if the bank settled it, released, told and returned if it came back, and unchanged otherwise |
| PayoutRows.RowsAlways | examples/payments/workflow.go:74-198 | over all traces, every entry of the payout is of its amount on its account, its transfer is of its amount, and it says paid or returned only after a notification |
| PayoutRows.DeskMoves | examples/payments/workflow.go:119-130 | no step takes a payout back to pending, makes submitted of anything but pending, or schedules a second settlement |
| PayoutJobs.Refines | examples/payments/workflow.go:74-137 | every execution of a payout's jobs in the runtime, with claims, lost leases, zombies, crashes, replays and retention, is a trace of the payout's machine to the same tables and checkpoints, with the same late releases |
| PayoutJobs.PaidAndRefundedIff | examples/payments/workflow.go:80-88 | of all executions of its jobs: a payout is posted and released iff it is posted and a refused run released after a hold had been made |
| PayoutJobs.NeverPaidAndRefunded | examples/payments/workflow.go:74-137 | if claims start at most one run of the payout at a time, and none while another lives, it is never posted and released |
| PayoutJobs.SucceededIsSent | examples/payments/workflow.go:132-136 | whatever overlaps: once a payout's job has succeeded, the money is held, the rail has the transfer of its amount, all four steps are checkpointed, and the result is made of the stored hold and transfer |
| PayoutSuccess.CanBePaidOut | examples/payments/workflow.go:74-137 | with funds, a good routing number and the rail up, there is an execution from the empty job store to the job's success |
| Paging.PageRows | internal/store/postgres/store.go:548-569 | a page has rows that match queue, type, status and parent and are older than the cursor, newest first, 50 or as many as were asked for up to 100 |
| Paging.PageMisses | internal/store/postgres/store.go:563-569 | a matching row that is not on it is older than all of a full page |
| Paging.PageIsDetermined | internal/store/postgres/store.go:555-569 | the filters by queue, status, type and parent, the cursor, the order and the limit leave one possible answer |
| Paging.PageExists | internal/store/postgres/store.go:548-575 | and there always is one |
| Paging.OlderVisitsEachOnce | internal/api/dashboard.go:288-318 | the Older links show each job that stays and keeps matching exactly once, newest first, and come to an end, whatever is inserted, deleted or changed meanwhile |
| Money.FormatCents | examples/payments/workflow.go:239-249 | the loop puts a comma before every group of three digits |
| Money.CommasEveryThree | examples/payments/workflow.go:244-247 | counted from the right exactly every fourth character is a comma |
| Money.StrippedGroups | examples/payments/workflow.go:244-247 | without its commas the text is the number |
| Money.RoundTrip | examples/payments/http.go:124-144 | every positive int64 amount is read back from its printed form without the commas |
| Money.ReadableIffSmall | examples/payments/http.go:131-133 | with its commas a printed amount is readable iff it has none |
| Money.ExactIffInRange | examples/payments/http.go:139-143 | a text of digits, point and two digits is read as dollars times 100 plus cents iff that is a positive int64 |
| Money.AcceptedIsRight | examples/payments/http.go:124-144 | every accepted text is read as the amount it denotes iff it has no minus sign, only digits behind the point and a value within int64 |
| Money.AmountsAreAccepted | examples/payments/http.go:124-144 | every text that denotes an amount from one cent to the largest int64 is accepted as that amount |
| Money.MinusIsLost | examples/payments/http.go:131-142 | "-0.50" is accepted as 50 cents |
| Money.SignedPence | examples/payments/http.go:135-139 | "1.-5", which is no number, is accepted as 95 cents |
| Money.TailIsIgnored | examples/payments/http.go:135 | "1.23x", which is no number, is accepted as 123 cents |
| Money.HugeAmountReadAsCents | examples/payments/http.go:139-143 | 184467440737095517 dollars are read as 84 cents |

## Left out

- Transactions: each is one atomic step, except SaveStep and Reserve, which are split after their unlocked checks, and Submit, which is no transaction. A terminal write that commits between the two statements of Signal, so that a delivery is stored and the wake version of the finished job is not bumped, is therefore not modelled. SQL text, read-committed visibility, row locks and advisory locks are not modelled; locked rows and held locks are parameters of an operation.
- Store.Store.Heartbeat: renewal and event are one step; in the code the event is a second statement that can fail alone. The same holds for Complete, Cancel, RetryDeadLetter and Replay.
- Store.Store.RecordEvent: event types recorded from outside are kept apart from the store's own, so a caller that forges an engine event type is not modelled.
- Store.Store.Replay: the new id comes from the caller as a parameter; ids are fresh, never reused and contain no ':', as uuids do.
- Columns.LeaseProtects: leases of heartbeats are whole microseconds; how others are rounded is Columns.IntervalIs.
- Columns.PruneTakes: for retentions of whole microseconds.
- PayoutRows.PayoutRun: one run with nobody else moving; what overlapping runs can do is in Payouts and PayoutRows.RowsAlways.
- Clock: one clock for database and workers, advancing between steps; skew between machines is not modelled, and a transaction takes no time.
- StoreHistory.Fencing: takes SaveStep as one operation that checks and inserts at one moment; what a run can still do between its check and its insert is the subject of FencedRuns.
- JSON: values are abstract; the difference between the winner's own bytes and the normalised bytes of later reads is not modelled, nor are JSON and YAML decoding.
- pgInterval: rounding through a float is modelled as rounding to microseconds.
- Signal order: ids of a mailbox follow the order of the atomic Signal steps.
- Workflows: deterministic functions of what their calls returned, which propagate call errors; workflows that swallow errors or branch on time or randomness are not modelled, nor are steps that call the runtime from inside their body.
- Guarantees.ChildIdentity: other callers may use the child's key too; the statement then is that they share the one job.
- Guarantees.NoLostWakeUp: says that the job can be claimed, not that some worker does; there is no fairness.
- EffectivelyOnce.AsIfUninterrupted: the answers to waits, timers and children are those on record at the end; that they are deliveries, agreed deadlines and results is the subject of the other guarantees. The world is the part that this job's steps act on, and a step counts as idempotent only if a repeat also returns the same value, which the reservation of a payout does not (Ledger.ReceiptTellsRepeat).
- Sequence.SequenceWorkflow: an activity is the body of its step; checkpoints that it makes from inside the body are not modelled, and neither is the decoding of the list.
- Worker.RunJob: executes without interference from other actors and without failing database calls; interleaving and failures are in the state machine of Runtime. Error texts are shortened to their prefix.
- Heartbeats.Watch: the job's own end is the end of the list of calls; the heartbeat loop and the workflow are not interleaved.
- Payouts.NeverPaidAndRefunded: bank references, failure reasons and the texts of notifications are left out; a settlement may start at any time; a refused checkpoint write counts as a crash. Reservations of other payouts are one step each: what they see of their own holds does not matter to this one.
- PayoutJobs.Refines: the settlement is no workflow of the runtime as modelled, because it branches on a status that it reads outside of its steps; its runs are those of the payout's machine. No error of the database is marked permanent. The result document is an arbitrary function of the stored hold and transfer.
- Ledger.Ledger.Reserve: the amount and account of a payout are those of its job's payload, the same in all its jobs.
- Paging.OlderVisitsEachOnce: invalid status values, which List refuses, are excluded by the type of the filter. Rows inserted during the walk come after those that were there.
- Compensators: they get a step runner under the worker's id, so one that ran a step while the worker holds a retried job again could write a checkpoint. The guarantees suppose that compensators write none, as their documentation asks.
- Draining, shutdown, metrics, tracing, HTTP routing, authentication, templates, timeline, CLI, configuration and migrations.
- Queue depth, redaction and listing of steps and signals: they would add only easy members.
