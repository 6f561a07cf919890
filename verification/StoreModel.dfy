/** The job store as a state machine: one operation is one transaction.

    Every operation touches the rows of each job independently of the other
    jobs, so an operation is given by what it does to one job's rows
    (`EntryAfter`), which jobs it creates (`Born`) and which it deletes
    (`Removed`). */
module StoreModel {
  import opened Values
  import opened Faults
  import opened Jobs

  datatype Mail = Mail(name: string, payload: Json, key: Option<string>)

  datatype Event =
    | Enqueued
    | EnqueueHit
    | Claimed(worker: WorkerId, attempt: int)
    | Heartbeaten(worker: WorkerId)
    | StepCompleted(key: string)
    | Suspended(runAfter: Time)
    | Signaled(name: string)
    | JobSucceeded
    | JobFailed(message: string, next: Status, permanent: bool)
    | DeadLettered
    | JobCanceled
    | DeadLetterRetried
    | Replayed(source: JobId)
    | Recorded(kind: string)                    // outcomes recorded outside execution

  /** A job with the rows that cascade with it: checkpoints, mailbox and log. */
  datatype Entry = Entry(row: Row, steps: map<string, Json>, mail: seq<Mail>, log: seq<Event>)

  /** `issued` remembers every id ever handed out; ids are never reused. */
  datatype State = State(now: Time, jobs: map<JobId, Entry>, issued: set<JobId>)

  datatype Op =
    | Tick(to: Time)
    | Enqueue(req: EnqueueRequest, id: JobId)
    | Claim(worker: WorkerId, queue: string, lease: Time, limit: int, locked: set<JobId>, picked: set<JobId>)
    | Sweep(held: bool, locked: set<JobId>)
    | Prune(queue: string, olderThan: Time, held: bool, picked: set<JobId>)
    | Heartbeat(job: JobId, worker: WorkerId, lease: Time)
    | SaveStep(job: JobId, worker: WorkerId, key: string, value: Json)
    | InsertStep(job: JobId, key: string, value: Json)  // SaveStep past its ownership check
    | Suspend(job: JobId, worker: WorkerId, runAfter: Time, wakeVersion: int)
    | Signal(job: JobId, name: string, payload: Option<Json>, idem: string)
    | Complete(job: JobId, worker: WorkerId, result: Option<Json>)
    | Fail(job: JobId, worker: WorkerId, cause: Fault)
    | Cancel(job: JobId)
    | RetryDeadLetter(job: JobId)
    | Replay(source: JobId, id: JobId)
    | RecordEvent(job: JobId, kind: string)

  const PRUNE_BATCH_SIZE := 5000

  /** The uuid alphabet has no ':'. */
  predicate IsUuid(id: JobId) {
    id != "" && ':' !in id
  }

  /** pgInterval: seconds printed with six decimals, 30s when not positive. */
  function Interval(d: Time): Time {
    if d <= 0 then 30 * SECOND else (d + MICROSECOND / 2) / MICROSECOND * MICROSECOND
  }

  // ---------------------------------------------------------------- guards

  predicate Expired(row: Row, now: Time) {
    row.status == Running && row.leaseExpires.Some? && row.leaseExpires.value < now
  }

  predicate Reclaimable(row: Row, now: Time) {
    Expired(row, now) && row.attempt < row.maxAttempts
  }

  predicate Exhausted(row: Row, now: Time) {
    Expired(row, now) && row.attempt >= row.maxAttempts
  }

  predicate Claimable(row: Row, queue: string, now: Time) {
    row.queue == queue && ((Waiting(row.status) && row.runAfter <= now) || Reclaimable(row, now))
  }

  predicate Prunable(row: Row, queue: string, olderThan: Time, now: Time) {
    row.queue == queue && (row.status == Succeeded || row.status == Canceled)
    && row.completedAt.Some? && row.completedAt.value < now - Interval(olderThan)
  }

  /** The fence of every worker write: the caller holds the lease. */
  predicate Owns(row: Row, worker: WorkerId) {
    row.leaseOwner == Some(worker) && row.status == Running
  }

  predicate Duplicate(mail: seq<Mail>, name: string, idem: string) {
    idem != "" && exists m | m in mail :: m.name == name && m.key == Some(idem)
  }

  function KeyOf(idem: string): Option<string> {
    if idem == "" then None else Some(idem)
  }

  predicate HasKey(s: State, idem: string) {
    exists id | id in s.jobs :: s.jobs[id].row.idem == Some(idem)
  }

  // ------------------------------------------------- one job, one operation

  function ClaimedEntry(e: Entry, worker: WorkerId, lease: Time, now: Time): Entry {
    e.(row := e.row.(status := Running, attempt := e.row.attempt + 1, leaseOwner := Some(worker),
                     leaseExpires := Some(now + Interval(lease)), heartbeatAt := Some(now),
                     updatedAt := now, error := None),
       log := e.log + [Claimed(worker, e.row.attempt + 1)])
  }

  function SweptEntry(e: Entry, now: Time): Entry {
    e.(row := e.row.(status := DeadLetter,
                     error := if e.row.error.Some? then e.row.error else Some("lease expired after max attempts"),
                     leaseOwner := None, leaseExpires := None, updatedAt := now, completedAt := Some(now)),
       log := e.log + [DeadLettered])
  }

  /** First write wins: a key that is present keeps its value. */
  function InsertedEntry(e: Entry, key: string, value: Json): Entry {
    if key in e.steps then e
    else e.(steps := e.steps[key := value], log := e.log + [StepCompleted(key)])
  }

  /** Parks only when nothing has signaled the job since the claim. */
  function SuspendedEntry(e: Entry, worker: WorkerId, runAfter: Time, wakeVersion: int, now: Time): Entry {
    if !Owns(e.row, worker) || e.row.wakeVersion != wakeVersion then e
    else
      e.(row := e.row.(status := Queued, runAfter := runAfter,
                       attempt := if e.row.attempt - 1 > 0 then e.row.attempt - 1 else 0,
                       leaseOwner := None, leaseExpires := None, updatedAt := now),
         log := e.log + [Suspended(runAfter)])
  }

  function SignaledEntry(e: Entry, name: string, payload: Option<Json>, idem: string, now: Time): Entry {
    if Terminal(e.row.status) || Duplicate(e.mail, name, idem) then e
    else
      e.(row := e.row.(runAfter := Min(e.row.runAfter, now), wakeVersion := e.row.wakeVersion + 1, updatedAt := now),
         mail := e.mail + [Mail(name, OrEmpty(payload), KeyOf(idem))],
         log := e.log + [Signaled(name)])
  }

  function CompletedEntry(e: Entry, worker: WorkerId, result: Option<Json>, now: Time): Entry {
    if !Owns(e.row, worker) then e
    else
      e.(row := e.row.(status := Succeeded, result := Some(OrEmpty(result)), leaseOwner := None,
                       leaseExpires := None, updatedAt := now, completedAt := Some(now)),
         log := e.log + [JobSucceeded])
  }

  function FailedEntry(e: Entry, worker: WorkerId, cause: Fault, now: Time): Entry {
    if !Owns(e.row, worker) then e
    else
      var next := NextStatusAfterFailure(e.row.attempt, e.row.maxAttempts, cause);
      e.(row := e.row.(status := next, error := Some(Message(cause)),
                       runAfter := if next == DeadLetter then now else now + Backoff(e.row.attempt),
                       leaseOwner := None, leaseExpires := None, updatedAt := now,
                       completedAt := if next == DeadLetter then Some(now) else None),
         log := e.log + [JobFailed(Message(cause), next, IsPermanent(cause))])
  }

  function CanceledEntry(e: Entry, now: Time): Entry {
    if Terminal(e.row.status) then e
    else
      e.(row := e.row.(status := Canceled, leaseOwner := None, leaseExpires := None,
                       updatedAt := now, completedAt := Some(now)),
         log := e.log + [JobCanceled])
  }

  function RetriedEntry(e: Entry, now: Time): Entry {
    if e.row.status != DeadLetter then e
    else
      e.(row := e.row.(status := Queued, attempt := 0, runAfter := now, leaseOwner := None,
                       leaseExpires := None, heartbeatAt := None, result := None, error := None,
                       updatedAt := now, completedAt := None),
         log := e.log + [DeadLetterRetried])
  }

  /** ON DELETE SET NULL. */
  function Orphaned(e: Entry, deleted: set<JobId>): Entry {
    if e.row.parent.Some? && e.row.parent.value in deleted then e.(row := e.row.(parent := None)) else e
  }

  /** What `op`, run at time `now`, leaves of the rows `e` of job `id`. */
  function EntryAfter(op: Op, now: Time, id: JobId, e: Entry): Entry {
    match op
    case Tick(_) => e
    case Enqueue(req, _) =>
      if req.idem != "" && e.row.idem == Some(req.idem) then e.(log := e.log + [EnqueueHit]) else e
    case Claim(worker, _, lease, _, _, picked) =>
      if id in picked then ClaimedEntry(e, worker, lease, now) else e
    case Sweep(held, locked) =>
      if held && id !in locked && Exhausted(e.row, now) then SweptEntry(e, now) else e
    case Prune(_, _, _, picked) =>
      Orphaned(e, picked)
    case Heartbeat(job, worker, lease) =>
      if id != job || !Owns(e.row, worker) then e
      else e.(row := e.row.(heartbeatAt := Some(now), leaseExpires := Some(now + Interval(lease)), updatedAt := now),
              log := e.log + [Heartbeaten(worker)])
    case SaveStep(job, worker, key, value) =>
      if id != job || !Owns(e.row, worker) then e else InsertedEntry(e, key, value)
    case InsertStep(job, key, value) =>
      if id != job then e else InsertedEntry(e, key, value)
    case Suspend(job, worker, runAfter, wakeVersion) =>
      if id != job then e else SuspendedEntry(e, worker, runAfter, wakeVersion, now)
    case Signal(job, name, payload, idem) =>
      if id != job then e else SignaledEntry(e, name, payload, idem, now)
    case Complete(job, worker, result) =>
      if id != job then e else CompletedEntry(e, worker, result, now)
    case Fail(job, worker, cause) =>
      if id != job then e else FailedEntry(e, worker, cause, now)
    case Cancel(job) =>
      if id != job then e else CanceledEntry(e, now)
    case RetryDeadLetter(job) =>
      if id != job then e else RetriedEntry(e, now)
    case Replay(_, _) => e
    case RecordEvent(job, kind) =>
      if id != job then e else e.(log := e.log + [Recorded(kind)])
  }

  // ------------------------------------------------------ creation, deletion

  function NewRow(queue: string, kind: string, payload: Json, idem: Option<string>, maxAttempts: int,
                  runAfter: Time, parent: Option<JobId>, now: Time): Row
  {
    Row(queue, kind, payload, Queued, idem, 0, maxAttempts, runAfter, None, None, None, None, None, 0,
        now, now, None, parent)
  }

  /** The insert goes through when no job has the key and the parent exists. */
  predicate Inserts(s: State, req: EnqueueRequest) {
    (req.idem == "" || !HasKey(s, req.idem)) && (req.parent.None? || req.parent.value in s.jobs)
  }

  function Born(s: State, op: Op): map<JobId, Entry> {
    match op
    case Enqueue(req, id) =>
      if !Inserts(s, req) then map[]
      else
        var n := Normalize(req, s.now);
        map[id := Entry(NewRow(n.queue, n.kind, OrEmpty(n.payload), KeyOf(n.idem), n.maxAttempts,
                               n.runAfter.value, n.parent, s.now), map[], [], [Enqueued])]
    case Replay(source, id) =>
      if source !in s.jobs then map[]
      else
        var row := s.jobs[source].row;
        map[id := Entry(NewRow(row.queue, row.kind, row.payload, None, row.maxAttempts, s.now, None, s.now),
                        map[], [], [Replayed(source)])]
    case _ => map[]
  }

  function Removed(op: Op): set<JobId> {
    if op.Prune? then op.picked else {}
  }

  function Apply(s: State, op: Op): State {
    var born := Born(s, op);
    State(if op.Tick? then op.to else s.now,
          (map id | id in s.jobs && id !in Removed(op) :: EntryAfter(op, s.now, id, s.jobs[id])) + born,
          s.issued + born.Keys)
  }

  // --------------------------------------- what the environment may choose

  /** Rows locked by a concurrent transaction are skipped, not waited for. */
  function Available(s: State, queue: string, locked: set<JobId>): set<JobId> {
    set id | id in s.jobs && id !in locked && Claimable(s.jobs[id].row, queue, s.now)
  }

  /** ORDER BY run_after, created_at; ties are in no particular order. */
  predicate Before(a: Row, b: Row) {
    a.runAfter < b.runAfter || (a.runAfter == b.runAfter && a.createdAt < b.createdAt)
  }

  function EffectiveLimit(limit: int): int {
    if limit <= 0 then 1 else limit
  }

  function EffectiveQueue(queue: string): string {
    if queue == "" then "default" else queue
  }

  ghost predicate FirstOf(s: State, picked: set<JobId>, available: set<JobId>, limit: int)
    requires available <= s.jobs.Keys
  {
    && picked <= available
    && |picked| == Min(limit, |available|)
    && forall p, a | p in picked && a in available && a !in picked :: !Before(s.jobs[a].row, s.jobs[p].row)
  }

  function PrunableJobs(s: State, queue: string, olderThan: Time): set<JobId> {
    set id | id in s.jobs && Prunable(s.jobs[id].row, queue, olderThan, s.now)
  }

  ghost predicate Legal(s: State, op: Op) {
    match op
    case Tick(to) => s.now <= to
    case Enqueue(_, id) => id !in s.issued && IsUuid(id)
    case Replay(_, id) => id !in s.issued && IsUuid(id)
    case Claim(_, queue, _, limit, locked, picked) =>
      var available := Available(s, EffectiveQueue(queue), locked);
      available <= s.jobs.Keys && FirstOf(s, picked, available, EffectiveLimit(limit))
    case Prune(queue, olderThan, held, picked) =>
      if olderThan <= 0 || !held then picked == {}
      else
        var prunable := PrunableJobs(s, queue, olderThan);
        picked <= prunable && |picked| == Min(PRUNE_BATCH_SIZE, |prunable|)
    case _ => true
  }

  // ------------------------------------------------------------------ replies

  datatype StoreError = NotFound | InvalidTransition | ForeignKey

  predicate OwnsJob(s: State, job: JobId, worker: WorkerId) {
    job in s.jobs && Owns(s.jobs[job].row, worker)
  }

  function SaveStepReply(s: State, job: JobId, worker: WorkerId, key: string, value: Json): Result<Json, StoreError> {
    if !OwnsJob(s, job, worker) then Err(InvalidTransition)
    else if key in s.jobs[job].steps then Ok(s.jobs[job].steps[key])
    else Ok(value)
  }

  predicate Parks(s: State, job: JobId, worker: WorkerId, wakeVersion: int) {
    OwnsJob(s, job, worker) && s.jobs[job].row.wakeVersion == wakeVersion
  }

  /** The repeated key is a no-op success even when the job has finished. */
  function SignalReply(s: State, job: JobId, name: string, idem: string): Result<(), StoreError> {
    if job !in s.jobs then Err(NotFound)
    else if Duplicate(s.jobs[job].mail, name, idem) then Ok(())
    else if Terminal(s.jobs[job].row.status) then Err(InvalidTransition)
    else Ok(())
  }

  /** The deliveries under one name, in order. */
  function Named(mail: seq<Mail>, name: string): seq<Json> {
    if mail == [] then []
    else
      var last := mail[|mail| - 1];
      Named(mail[..|mail| - 1], name) + if last.name == name then [last.payload] else []
  }

  /** The deliveries of a longer mailbox start with those of a shorter one. */
  lemma {:induction false} NamedPrefix(mail: seq<Mail>, k: nat, name: string)
    requires k <= |mail|
    ensures Named(mail[..k], name) <= Named(mail, name)
    decreases |mail|
  {
    if k == |mail| {
      assert mail[..k] == mail;
    } else {
      NamedPrefix(mail[..|mail| - 1], k, name);
      assert mail[..|mail| - 1][..k] == mail[..k];
    }
  }

  function SignalAt(s: State, job: JobId, name: string, index: int): Option<Json> {
    if job !in s.jobs || index < 0 then None
    else
      var deliveries := Named(s.jobs[job].mail, name);
      if index < |deliveries| then Some(deliveries[index]) else None
  }

  const EMPTY_STORE := State(0, map[], {})
}
