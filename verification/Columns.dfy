/** What each operation of the store means in terms of the columns, the clock and the
    mailbox, and what that comes to over whole runs. */
module Columns {
  import opened Values
  import opened Faults
  import opened Jobs
  import opened StoreModel
  import opened StoreInvariant
  import opened StoreHistory

  // --------------------------------------------------------------- leases

  /** A lease of `d` granted now ends here: 30 s stand in for none, and an interval is
      rounded to whole microseconds. */
  predicate LeaseEnds(now: Time, d: Time, expiry: Time) {
    if d <= 0 then expiry == now + 30_000_000_000
    else if d % 1_000 == 0 then expiry == now + d
    else now + d - 1_000 < expiry < now + d + 1_000
  }

  lemma IntervalIs(now: Time, d: Time)
    ensures LeaseEnds(now, d, now + Interval(d))
  {
    if d > 0 {
      var n, rest := d / 1_000, d % 1_000;
      assert (d + 500) / 1_000 == if rest < 500 then n else n + 1;
    }
  }

  /** The row is leased to the worker until `expiry`. */
  predicate LeasedUntil(s: State, id: JobId, worker: WorkerId, expiry: Time) {
    id in s.jobs && s.jobs[id].row.status == Running
    && s.jobs[id].row.leaseOwner == Some(worker) && s.jobs[id].row.leaseExpires == Some(expiry)
  }

  /** As long as a lease has not ended, nobody can claim the job, and no sweep touches
      it. */
  lemma LiveLeaseIsSafe(s: State, id: JobId, worker: WorkerId, expiry: Time, op: Op)
    requires LeasedUntil(s, id, worker, expiry) && s.now <= expiry && Legal(s, op)
    ensures op.Claim? ==> id !in op.picked
    ensures op.Claim? || op.Sweep? ==> id in Apply(s, op).jobs && Apply(s, op).jobs[id] == s.jobs[id]
  {
    if op.Claim? && id in op.picked {
      assert false;
    }
  }

  /** What ends a lease before its time: the worker's own terminal write, or a cancel. */
  predicate GivesBack(op: Op, id: JobId, worker: WorkerId) {
    match op
    case Suspend(j, w, _, _) => j == id && w == worker
    case Complete(j, w, _) => j == id && w == worker
    case Fail(j, w, _) => j == id && w == worker
    case Cancel(j) => j == id
    case _ => false
  }

  predicate Beats(op: Op, id: JobId, worker: WorkerId) {
    op.Heartbeat? && op.job == id && op.worker == worker
  }

  /** When the lease ends: each heartbeat gives it its full length again. */
  ghost function Deadline(s: State, ops: seq<Op>, id: JobId, worker: WorkerId, granted: Time): Time {
    if ops == [] then granted
    else
      var front, last := ops[..|ops| - 1], ops[|ops| - 1];
      if Beats(last, id, worker) then Execute(s, front).now + last.lease else Deadline(s, front, id, worker, granted)
  }

  predicate LeftAlone(op: Op, id: JobId, worker: WorkerId) {
    !GivesBack(op, id, worker) && (Beats(op, id, worker) ==> op.lease > 0 && op.lease % 1_000 == 0)
  }

  /** The clock has not passed the deadline at any time, and nobody ends the lease. */
  ghost predicate InTime(s: State, ops: seq<Op>, id: JobId, worker: WorkerId, granted: Time) {
    && Execute(s, ops).now <= Deadline(s, ops, id, worker, granted)
    && (ops != [] ==> InTime(s, ops[..|ops| - 1], id, worker, granted) && LeftAlone(ops[|ops| - 1], id, worker))
  }

  /** Until its deadline a lease is safe from everybody else: whatever claims, sweeps,
      retentions, signals, and other workers' writes there are, the job stays with the
      worker, with the attempt it was claimed for, and each heartbeat moves the deadline.
      (Leases of heartbeats are whole microseconds.) */
  lemma {:induction false} LeaseProtects(s: State, ops: seq<Op>, id: JobId, worker: WorkerId, granted: Time)
    requires Inv(s) && LegalRun(s, ops) && LeasedUntil(s, id, worker, granted)
    requires InTime(s, ops, id, worker, granted)
    ensures LeasedUntil(Execute(s, ops), id, worker, Deadline(s, ops, id, worker, granted))
    ensures Execute(s, ops).jobs[id].row.attempt == s.jobs[id].row.attempt
    decreases |ops|
  {
    if ops != [] {
      LeaseProtects(s, ops[..|ops| - 1], id, worker, granted);
      LeaseStep(s, ops, id, worker, granted);
    }
  }

  lemma LeaseStep(s: State, ops: seq<Op>, id: JobId, worker: WorkerId, granted: Time)
    requires ops != [] && Inv(s) && LegalRun(s, ops) && InTime(s, ops, id, worker, granted)
    requires LeasedUntil(Execute(s, ops[..|ops| - 1]), id, worker, Deadline(s, ops[..|ops| - 1], id, worker, granted))
    ensures LeasedUntil(Execute(s, ops), id, worker, Deadline(s, ops, id, worker, granted))
    ensures Execute(s, ops).jobs[id].row.attempt == Execute(s, ops[..|ops| - 1]).jobs[id].row.attempt
  {
    var front, last := ops[..|ops| - 1], ops[|ops| - 1];
    Issued(s, front);
    LeaseStays(Execute(s, front), last, id, worker, Deadline(s, front, id, worker, granted));
  }

  lemma Issued(s: State, ops: seq<Op>)
    requires Inv(s) && LegalRun(s, ops)
    ensures Execute(s, ops).jobs.Keys <= Execute(s, ops).issued
  {
    InvAlways(s, ops);
  }

  lemma LeaseStays(s: State, op: Op, id: JobId, worker: WorkerId, expiry: Time)
    requires s.jobs.Keys <= s.issued && Legal(s, op) && LeftAlone(op, id, worker)
    requires LeasedUntil(s, id, worker, expiry) && s.now <= expiry
    ensures LeasedUntil(Apply(s, op), id, worker, if Beats(op, id, worker) then s.now + op.lease else expiry)
    ensures Apply(s, op).jobs[id].row.attempt == s.jobs[id].row.attempt
  {
    if op.Claim? || op.Sweep? {
      LiveLeaseIsSafe(s, id, worker, expiry, op);
    } else {
      RunningStays(s, op, id);
      RowStays(op, s.now, id, s.jobs[id], worker, expiry);
    }
  }

  lemma RowStays(op: Op, now: Time, id: JobId, e: Entry, worker: WorkerId, expiry: Time)
    requires e.row.status == Running && e.row.leaseOwner == Some(worker) && e.row.leaseExpires == Some(expiry)
    requires !op.Claim? && !op.Sweep? && LeftAlone(op, id, worker)
    ensures var row := EntryAfter(op, now, id, e).row;
            && row.status == Running && row.leaseOwner == Some(worker) && row.attempt == e.row.attempt
            && row.leaseExpires == Some(if Beats(op, id, worker) then now + op.lease else expiry)
  {
    if Beats(op, id, worker) { IntervalIs(now, op.lease); }
  }

  lemma RunningStays(s: State, op: Op, id: JobId)
    requires s.jobs.Keys <= s.issued && Legal(s, op) && id in s.jobs && s.jobs[id].row.status == Running
    ensures id in Apply(s, op).jobs && Apply(s, op).jobs[id] == EntryAfter(op, s.now, id, s.jobs[id])
  {
    StaysUnlessPruned(s, op, id);
    RowsAfter(s, op, id);
    NotReborn(s, op, id);
  }

  lemma StaysUnlessPruned(s: State, op: Op, id: JobId)
    requires Legal(s, op) && id in s.jobs && s.jobs[id].row.status !in {Succeeded, Canceled}
    ensures id in Apply(s, op).jobs
  {
    if id !in Apply(s, op).jobs {
      OnlyPruneRemoves(s, op, id);
    }
  }

  lemma NotReborn(s: State, op: Op, id: JobId)
    requires Legal(s, op) && id in s.jobs && s.jobs.Keys <= s.issued
    ensures id !in Born(s, op)
  {
  }

  // --------------------------------------------------------------- claims

  /** A job that a claim on the queue may take: waiting and due, or running under a lease
      that has ended, with an attempt left. */
  predicate Due(row: Row, queue: string, now: Time) {
    && row.queue == queue
    && (((row.status == Queued || row.status == Retrying) && row.runAfter <= now)
        || (row.status == Running && row.leaseExpires.Some? && row.leaseExpires.value < now && row.attempt < row.maxAttempts))
  }

  /** Exactly which jobs a claim takes: as many of the due ones as it asks for, none of
      them later in (run_after, created_at) than one that is left behind. */
  lemma ClaimTakes(s: State, worker: WorkerId, queue: string, lease: Time, limit: int, locked: set<JobId>, picked: set<JobId>)
    ensures var due := set id | id in s.jobs && id !in locked && Due(s.jobs[id].row, if queue == "" then "default" else queue, s.now);
            var most := if limit <= 0 then 1 else limit;
            Legal(s, Claim(worker, queue, lease, limit, locked, picked)) <==>
              && picked <= due
              && |picked| == (if most < |due| then most else |due|)
              && forall p, left | p in picked && left in due && left !in picked ::
                   var (a, b) := (s.jobs[p].row, s.jobs[left].row);
                   a.runAfter < b.runAfter || (a.runAfter == b.runAfter && a.createdAt <= b.createdAt)
  {
    var due := set id | id in s.jobs && id !in locked && Due(s.jobs[id].row, if queue == "" then "default" else queue, s.now);
    assert Available(s, EffectiveQueue(queue), locked) == due;
  }

  /** What a claim makes of the jobs it takes, and that it leaves the others alone. */
  lemma ClaimMakes(s: State, op: Op, id: JobId)
    requires op.Claim? && Legal(s, op) && id in s.jobs
    ensures var e := s.jobs[id];
            && id in Apply(s, op).jobs
            && var e' := Apply(s, op).jobs[id];
               if id !in op.picked then e' == e
               else
                 && e'.row.status == Running && e'.row.leaseOwner == Some(op.worker)
                 && e'.row.leaseExpires.Some? && LeaseEnds(s.now, op.lease, e'.row.leaseExpires.value)
                 && e'.row.attempt == e.row.attempt + 1 && e'.row.error == None
                 && e'.row.heartbeatAt == Some(s.now) && e'.row.updatedAt == s.now
                 && SameOrder(e.row, e'.row) && e'.row.runAfter == e.row.runAfter
                 && e'.row.result == e.row.result && e'.row.completedAt == e.row.completedAt
                 && e'.steps == e.steps && e'.mail == e.mail && e'.log == e.log + [Claimed(op.worker, e.row.attempt + 1)]
  {
    IntervalIs(s.now, op.lease);
    RowsAfter(s, op, id);
  }

  /** What was ordered, and how often it has been signaled. */
  predicate SameOrder(row: Row, row': Row) {
    && row'.queue == row.queue && row'.kind == row.kind && row'.payload == row.payload && row'.idem == row.idem
    && row'.maxAttempts == row.maxAttempts && row'.createdAt == row.createdAt && row'.parent == row.parent
    && row'.wakeVersion == row.wakeVersion
  }

  /** Exactly which jobs the sweep dead-letters, and what it makes of them. */
  lemma SweepTakes(s: State, held: bool, locked: set<JobId>, id: JobId)
    requires id in s.jobs
    ensures var e := s.jobs[id];
            && id in Apply(s, Sweep(held, locked)).jobs
            && var e' := Apply(s, Sweep(held, locked)).jobs[id];
               if held && id !in locked && e.row.status == Running && e.row.leaseExpires.Some?
                  && e.row.leaseExpires.value < s.now && e.row.attempt >= e.row.maxAttempts
               then
                 && e'.row.status == DeadLetter && e'.row.leaseOwner == None && e'.row.leaseExpires == None
                 && e'.row.error == (if e.row.error.Some? then e.row.error else Some("lease expired after max attempts"))
                 && e'.row.completedAt == Some(s.now) && e'.row.updatedAt == s.now && e'.row.attempt == e.row.attempt
                 && SameOrder(e.row, e'.row) && e'.steps == e.steps && e'.mail == e.mail && e'.log == e.log + [DeadLettered]
               else e' == e
  {
    RowsAfter(s, Sweep(held, locked), id);
  }

  lemma Renewed(s: State, id: JobId, worker: WorkerId, lease: Time)
    requires id in s.jobs
    ensures var e := s.jobs[id];
            && id in Apply(s, Heartbeat(id, worker, lease)).jobs
            && var e' := Apply(s, Heartbeat(id, worker, lease)).jobs[id];
               if e.row.leaseOwner == Some(worker) && e.row.status == Running then
                 && e'.row.leaseExpires.Some? && LeaseEnds(s.now, lease, e'.row.leaseExpires.value)
                 && e'.row.heartbeatAt == Some(s.now) && e'.row.updatedAt == s.now
                 && e'.row.(leaseExpires := e.row.leaseExpires, heartbeatAt := e.row.heartbeatAt, updatedAt := e.row.updatedAt) == e.row
                 && e'.steps == e.steps && e'.mail == e.mail && e'.log == e.log + [Heartbeaten(worker)]
               else e' == e
  {
    IntervalIs(s.now, lease);
    RowsAfter(s, Heartbeat(id, worker, lease), id);
  }

  /** The first value under a key stays, and nothing but the checkpoints and the log is
      touched; with the lease checked in the same step, only its holder writes. */
  lemma CheckpointMakes(s: State, id: JobId, key: string, value: Json, worker: WorkerId)
    requires id in s.jobs
    ensures id in Apply(s, InsertStep(id, key, value)).jobs && id in Apply(s, SaveStep(id, worker, key, value)).jobs
    ensures var e, e' := s.jobs[id], Apply(s, InsertStep(id, key, value)).jobs[id];
            && e'.row == e.row && e'.mail == e.mail
            && e'.steps == (if key in e.steps then e.steps else e.steps[key := value])
            && e'.log == (if key in e.steps then e.log else e.log + [StepCompleted(key)])
            && Apply(s, SaveStep(id, worker, key, value)).jobs[id] == if HeldBy(e.row, worker) then e' else e
  {
    RowsAfter(s, InsertStep(id, key, value), id);
    RowsAfter(s, SaveStep(id, worker, key, value), id);
  }

  /** What the writer of a checkpoint is told: the value that is stored now. */
  lemma SaveTells(s: State, id: JobId, worker: WorkerId, key: string, value: Json)
    ensures var reply := SaveStepReply(s, id, worker, key, value);
            if id in s.jobs && HeldBy(s.jobs[id].row, worker) then
              && id in Apply(s, SaveStep(id, worker, key, value)).jobs
              && key in Apply(s, SaveStep(id, worker, key, value)).jobs[id].steps
              && reply == Ok(Apply(s, SaveStep(id, worker, key, value)).jobs[id].steps[key])
            else reply == Err(InvalidTransition)
  {
    if id in s.jobs { CheckpointMakes(s, id, key, value, worker); }
  }

  // ---------------------------------------------------- terminal writes, parks

  predicate HeldBy(row: Row, worker: WorkerId) {
    row.leaseOwner == Some(worker) && row.status == Running
  }

  predicate Unleased(row: Row, now: Time) {
    row.leaseOwner == None && row.leaseExpires == None && row.updatedAt == now
  }

  /** A park: back in the queue until `runAfter`, with the attempt given back. */
  lemma SuspendMakes(s: State, id: JobId, worker: WorkerId, runAfter: Time, wake: int)
    requires id in s.jobs
    ensures var e := s.jobs[id];
            && id in Apply(s, Suspend(id, worker, runAfter, wake)).jobs
            && var e' := Apply(s, Suspend(id, worker, runAfter, wake)).jobs[id];
               if HeldBy(e.row, worker) && e.row.wakeVersion == wake then
                 && e'.row.status == Queued && e'.row.runAfter == runAfter && Unleased(e'.row, s.now)
                 && e'.row.attempt == (if e.row.attempt >= 1 then e.row.attempt - 1 else 0)
                 && SameOrder(e.row, e'.row) && e'.row.error == e.row.error && e'.row.result == e.row.result
                 && e'.row.completedAt == e.row.completedAt && e'.steps == e.steps && e'.mail == e.mail
                 && e'.log == e.log + [Suspended(runAfter)]
               else e' == e
  {
    RowsAfter(s, Suspend(id, worker, runAfter, wake), id);
  }

  lemma CompleteMakes(s: State, id: JobId, worker: WorkerId, result: Option<Json>)
    requires id in s.jobs
    ensures var e := s.jobs[id];
            && id in Apply(s, Complete(id, worker, result)).jobs
            && var e' := Apply(s, Complete(id, worker, result)).jobs[id];
               if HeldBy(e.row, worker) then
                 && e'.row.status == Succeeded && Unleased(e'.row, s.now)
                 && e'.row.result == Some(if result.Some? then result.value else EmptyObject)
                 && e'.row.completedAt == Some(s.now) && e'.row.attempt == e.row.attempt && e'.row.runAfter == e.row.runAfter
                 && SameOrder(e.row, e'.row) && e'.row.error == e.row.error && e'.steps == e.steps && e'.mail == e.mail
                 && e'.log == e.log + [JobSucceeded]
               else e' == e
  {
    RowsAfter(s, Complete(id, worker, result), id);
  }

  /** A failure is final iff it is permanent or the attempts are used up. Otherwise the
      job waits min(2^(attempt-1), 60) seconds, as long as the int64 product allows. */
  lemma FailMakes(s: State, id: JobId, worker: WorkerId, cause: Fault)
    requires Inv(s) && id in s.jobs
    ensures id in Apply(s, Fail(id, worker, cause)).jobs
    ensures FailedAs(s.jobs[id], Apply(s, Fail(id, worker, cause)).jobs[id], worker, cause, s.now)
  {
    AttemptsSpent(s, id);
    Failing(s, id, worker, cause);
    FailedRow(s.jobs[id], worker, cause, s.now);
  }

  lemma Failing(s: State, id: JobId, worker: WorkerId, cause: Fault)
    requires id in s.jobs
    ensures id in Apply(s, Fail(id, worker, cause)).jobs
    ensures Apply(s, Fail(id, worker, cause)).jobs[id] == FailedEntry(s.jobs[id], worker, cause, s.now)
  {
    RowsAfter(s, Fail(id, worker, cause), id);
  }

  lemma AttemptsSpent(s: State, id: JobId)
    requires Inv(s) && id in s.jobs
    ensures s.jobs[id].row.status == Running ==> s.jobs[id].row.attempt >= 1
  {
    assert RowOk(s.jobs[id].row, s.now);
  }

  lemma FailedRow(e: Entry, worker: WorkerId, cause: Fault, now: Time)
    requires e.row.status == Running ==> e.row.attempt >= 1
    ensures FailedAs(e, FailedEntry(e, worker, cause, now), worker, cause, now)
  {
    if 1 <= e.row.attempt <= 34 { BackoffSchedule(e.row.attempt); }
  }

  predicate FailedAs(e: Entry, e': Entry, worker: WorkerId, cause: Fault, now: Time) {
    if HeldBy(e.row, worker) then
      && Unleased(e'.row, now) && e'.row.error == Some(Message(cause)) && e'.row.attempt == e.row.attempt
      && e'.row.result == e.row.result && SameOrder(e.row, e'.row) && e'.steps == e.steps && e'.mail == e.mail
      && e'.log == e.log + [JobFailed(Message(cause), e'.row.status, IsPermanent(cause))]
      && if IsPermanent(cause) || e.row.attempt >= e.row.maxAttempts then
           e'.row.status == DeadLetter && e'.row.completedAt == Some(now) && e'.row.runAfter == now
         else
           && e'.row.status == Retrying && e'.row.completedAt == None && e.row.attempt >= 1
           && (e.row.attempt <= 34 ==> e'.row.runAfter == now + Delay(e.row.attempt))
    else e' == e
  }

  /** min(2^(attempt-1), 60) seconds. */
  function Delay(attempt: int): Time
    requires attempt >= 1
  {
    1_000_000_000 * if Pow2(attempt - 1) < 60 then Pow2(attempt - 1) else 60
  }

  lemma CancelMakes(s: State, id: JobId)
    requires id in s.jobs
    ensures var e := s.jobs[id];
            && id in Apply(s, Cancel(id)).jobs
            && var e' := Apply(s, Cancel(id)).jobs[id];
               if e.row.status in {Succeeded, DeadLetter, Canceled} then e' == e
               else
                 && e'.row.status == Canceled && Unleased(e'.row, s.now) && e'.row.completedAt == Some(s.now)
                 && e'.row.attempt == e.row.attempt && e'.row.runAfter == e.row.runAfter && SameOrder(e.row, e'.row)
                 && e'.row.error == e.row.error && e'.row.result == e.row.result && e'.steps == e.steps && e'.mail == e.mail
                 && e'.log == e.log + [JobCanceled]
  {
    RowsAfter(s, Cancel(id), id);
  }

  /** A dead-lettered job that is retried has all its attempts, its checkpoints and its
      mailbox, and can be claimed at once. */
  lemma RetryMakes(s: State, id: JobId)
    requires id in s.jobs
    ensures var e := s.jobs[id];
            && id in Apply(s, RetryDeadLetter(id)).jobs
            && var e' := Apply(s, RetryDeadLetter(id)).jobs[id];
               if e.row.status == DeadLetter then
                 && e'.row.status == Queued && e'.row.attempt == 0 && e'.row.runAfter == s.now && Unleased(e'.row, s.now)
                 && e'.row.heartbeatAt == None && e'.row.result == None && e'.row.error == None && e'.row.completedAt == None
                 && SameOrder(e.row, e'.row) && e'.steps == e.steps && e'.mail == e.mail && Due(e'.row, e.row.queue, s.now)
                 && e'.log == e.log + [DeadLetterRetried]
               else e' == e
  {
    RowsAfter(s, RetryDeadLetter(id), id);
  }

  // ------------------------------------------------------ creation, deletion

  /** A fresh row. */
  predicate NewlyQueued(e: Entry, now: Time) {
    && e.row.status == Queued && e.row.attempt == 0 && e.row.leaseOwner == None && e.row.leaseExpires == None
    && e.row.heartbeatAt == None && e.row.result == None && e.row.error == None && e.row.completedAt == None
    && e.row.createdAt == now && e.row.updatedAt == now && e.row.wakeVersion == 0 && e.steps == map[] && e.mail == []
  }

  /** An enqueue makes a job unless its key is taken or its parent is gone. The defaults:
      queue "default", payload {}, three attempts, due at once. */
  lemma EnqueueMakes(s: State, req: EnqueueRequest, id: JobId)
    requires id !in s.jobs
    ensures var taken := req.idem != "" && exists other | other in s.jobs :: s.jobs[other].row.idem == Some(req.idem);
            var orphan := req.parent.Some? && req.parent.value !in s.jobs;
            && (id in Apply(s, Enqueue(req, id)).jobs <==> !taken && !orphan)
            && (id in Apply(s, Enqueue(req, id)).jobs ==>
                  var e := Apply(s, Enqueue(req, id)).jobs[id];
                  && NewlyQueued(e, s.now)
                  && e.row.queue == (if req.queue == "" then "default" else req.queue) && e.row.kind == req.kind
                  && e.row.payload == (if req.payload.Some? then req.payload.value else EmptyObject)
                  && e.row.maxAttempts == (if req.maxAttempts <= 0 then 3 else req.maxAttempts)
                  && e.row.runAfter == (if req.runAfter.Some? then req.runAfter.value else s.now)
                  && e.row.idem == (if req.idem == "" then None else Some(req.idem)) && e.row.parent == req.parent
                  && e.log == [Enqueued])
  {
  }

  /** An enqueue changes nothing of the jobs that there are; one that hits a used key is
      noted in the log of the key's holder. */
  lemma EnqueueLeaves(s: State, req: EnqueueRequest, id: JobId, other: JobId)
    requires other in s.jobs && other != id
    ensures other in Apply(s, Enqueue(req, id)).jobs
    ensures var e, e' := s.jobs[other], Apply(s, Enqueue(req, id)).jobs[other];
            && e'.row == e.row && e'.steps == e.steps && e'.mail == e.mail
            && e'.log == e.log + if req.idem != "" && e.row.idem == Some(req.idem) then [EnqueueHit] else []
  {
  }

  /** A replay copies queue, type, payload and limits, and nothing else. */
  lemma ReplayMakes(s: State, source: JobId, id: JobId)
    requires id !in s.jobs
    ensures id in Apply(s, Replay(source, id)).jobs <==> source in s.jobs
    ensures source in s.jobs ==>
              var e, row := Apply(s, Replay(source, id)).jobs[id], s.jobs[source].row;
              && NewlyQueued(e, s.now)
              && e.row.queue == row.queue && e.row.kind == row.kind && e.row.payload == row.payload
              && e.row.maxAttempts == row.maxAttempts && e.row.runAfter == s.now && e.row.idem == None && e.row.parent == None
              && e.log == [Replayed(source)]
  {
  }

  /** Completed so long ago that retention may delete it. (Retentions are whole
      microseconds.) */
  predicate Outlived(row: Row, queue: string, retention: Time, now: Time) {
    && row.queue == queue && (row.status == Succeeded || row.status == Canceled)
    && row.completedAt.Some? && row.completedAt.value + retention < now
  }

  /** Exactly which jobs retention deletes: as many of those as a batch takes. */
  lemma PruneTakes(s: State, queue: string, retention: Time, picked: set<JobId>)
    requires retention > 0 && retention % 1_000 == 0
    ensures var aged := set id | id in s.jobs && Outlived(s.jobs[id].row, queue, retention, s.now);
            Legal(s, Prune(queue, retention, true, picked)) <==>
              picked <= aged && |picked| == (if |aged| < 5000 then |aged| else 5000)
    ensures retention > 0 && Legal(s, Prune(queue, retention, false, picked)) ==> picked == {}
  {
    var aged := set id | id in s.jobs && Outlived(s.jobs[id].row, queue, retention, s.now);
    IntervalIs(s.now, retention);
    assert PrunableJobs(s, queue, retention) == aged;
  }

  lemma PruneMakes(s: State, queue: string, retention: Time, held: bool, picked: set<JobId>, id: JobId)
    requires id in s.jobs
    ensures id in Apply(s, Prune(queue, retention, held, picked)).jobs <==> id !in picked
    ensures id !in picked ==>
              var e, e' := s.jobs[id], Apply(s, Prune(queue, retention, held, picked)).jobs[id];
              && e'.row.parent == (if e.row.parent.Some? && e.row.parent.value in picked then None else e.row.parent)
              && e'.row.(parent := e.row.parent) == e.row && e'.steps == e.steps && e'.mail == e.mail && e'.log == e.log
  {
  }

  // --------------------------------------------------------------- signals

  /** The repeat of a keyed signal that the mailbox has. */
  predicate Repeated(e: Entry, name: string, key: string) {
    key != "" && exists i :: 0 <= i < |e.mail| && e.mail[i].name == name && e.mail[i].key == Some(key)
  }

  /** A signal is delivered unless the job has finished or the mailbox has its key: it goes
      to the end of the mailbox with the payload that was sent, bumps the wake version and
      makes a waiting job due. */
  lemma SignalMakes(s: State, id: JobId, name: string, payload: Option<Json>, key: string)
    requires id in s.jobs
    ensures var e := s.jobs[id];
            && id in Apply(s, Signal(id, name, payload, key)).jobs
            && var e' := Apply(s, Signal(id, name, payload, key)).jobs[id];
               if e.row.status in {Succeeded, DeadLetter, Canceled} || Repeated(e, name, key) then e' == e
               else
                 && e'.mail == e.mail + [Mail(name, if payload.Some? then payload.value else EmptyObject,
                                              if key == "" then None else Some(key))]
                 && e'.row.wakeVersion == e.row.wakeVersion + 1 && e'.row.updatedAt == s.now
                 && e'.row.runAfter == (if e.row.runAfter <= s.now then e.row.runAfter else s.now)
                 && e'.row.(wakeVersion := e.row.wakeVersion, updatedAt := e.row.updatedAt, runAfter := e.row.runAfter) == e.row
                 && (e.row.status in {Queued, Retrying} ==> Due(e'.row, e.row.queue, s.now))
                 && e'.steps == e.steps && e'.log == e.log + [Signaled(name)]
  {
    var e := s.jobs[id];
    RowsAfter(s, Signal(id, name, payload, key), id);
    assert Duplicate(e.mail, name, key) <==> Repeated(e, name, key);
  }

  /** What the sender is told. */
  lemma SignalTells(s: State, id: JobId, name: string, key: string)
    ensures SignalReply(s, id, name, key) ==
            if id !in s.jobs then Err(NotFound)
            else if s.jobs[id].row.status in {Succeeded, DeadLetter, Canceled} && !Repeated(s.jobs[id], name, key)
            then Err(InvalidTransition)
            else Ok(())
  {
    if id in s.jobs {
      assert Duplicate(s.jobs[id].mail, name, key) <==> Repeated(s.jobs[id], name, key);
    }
  }

  // ------------------------------------------------------- waiting, over runs

  /** Not to be claimed before `due`. */
  predicate Rests(s: State, id: JobId, due: Time) {
    id in s.jobs ==>
      || (s.jobs[id].row.status in {Queued, Retrying} && s.jobs[id].row.runAfter == due)
      || s.jobs[id].row.status == Canceled
  }

  predicate NoSignal(op: Op, id: JobId) {
    op.Signal? ==> op.job != id
  }

  lemma RestsOn(s: State, op: Op, id: JobId, due: Time)
    requires s.jobs.Keys <= s.issued && id in s.issued && Legal(s, op) && Rests(s, id, due) && s.now < due && NoSignal(op, id)
    ensures id in Apply(s, op).issued && Rests(Apply(s, op), id, due)
    ensures op.Claim? ==> id !in op.picked
  {
    if id in Apply(s, op).jobs {
      NotIssuedTwice(s, op, id);
      RowsAfter(s, op, id);
      RowRests(op, s.now, id, s.jobs[id], due);
    }
  }

  lemma NotIssuedTwice(s: State, op: Op, id: JobId)
    requires id in s.issued && Legal(s, op)
    ensures id !in Born(s, op)
    ensures op.Claim? && id in op.picked ==>
              && id in s.jobs && s.jobs[id].row.status != Canceled
              && (s.jobs[id].row.status == Running || s.jobs[id].row.runAfter <= s.now)
  {
  }

  lemma RowRests(op: Op, now: Time, id: JobId, e: Entry, due: Time)
    requires NoSignal(op, id) && now < due && (op.Claim? ==> id !in op.picked)
    requires (e.row.status in {Queued, Retrying} && e.row.runAfter == due) || e.row.status == Canceled
    ensures var row := EntryAfter(op, now, id, e).row;
            (row.status in {Queued, Retrying} && row.runAfter == due) || row.status == Canceled
  {
  }

  /** A job that waits for its time, after a failure, a park or an enqueue for later, is not
      claimed before that time unless a signal wakes it. */
  lemma {:induction false} NotBeforeItsTime(s: State, ops: seq<Op>, id: JobId, due: Time)
    requires Inv(s) && LegalRun(s, ops) && id in s.jobs && Rests(s, id, due)
    requires Quiet(s, ops, id, due)
    ensures Execute(s, ops).now < due ==> id in Execute(s, ops).issued && Rests(Execute(s, ops), id, due)
    ensures forall op | op in ops && op.Claim? :: id !in op.picked
    decreases |ops|
  {
    if ops != [] {
      var front, last := ops[..|ops| - 1], ops[|ops| - 1];
      NotBeforeItsTime(s, front, id, due);
      RestStep(s, ops, id, due);
      assert forall op | op in ops :: op in front || op == last;
    }
  }

  /** No signal for the job, and every operation before its time. */
  ghost predicate Quiet(s: State, ops: seq<Op>, id: JobId, due: Time) {
    ops != [] ==>
      var front, last := ops[..|ops| - 1], ops[|ops| - 1];
      Quiet(s, front, id, due) && NoSignal(last, id) && Execute(s, front).now < due
  }

  lemma RestStep(s: State, ops: seq<Op>, id: JobId, due: Time)
    requires ops != [] && Inv(s) && LegalRun(s, ops) && Quiet(s, ops, id, due)
    requires var s1 := Execute(s, ops[..|ops| - 1]); id in s1.issued && Rests(s1, id, due)
    ensures id in Execute(s, ops).issued && Rests(Execute(s, ops), id, due)
    ensures ops[|ops| - 1].Claim? ==> id !in ops[|ops| - 1].picked
  {
    Issued(s, ops[..|ops| - 1]);
    RestsOn(Execute(s, ops[..|ops| - 1]), ops[|ops| - 1], id, due);
  }
}
