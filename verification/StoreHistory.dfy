/** Theorems about whole runs of the store: any sequence of operations. */
module StoreHistory {
  import opened Values
  import opened Jobs
  import opened StoreModel
  import opened StoreInvariant

  ghost function Execute(s: State, ops: seq<Op>): State {
    if ops == [] then s else Apply(Execute(s, ops[..|ops| - 1]), ops[|ops| - 1])
  }

  ghost predicate LegalRun(s: State, ops: seq<Op>) {
    ops != [] ==>
      LegalRun(s, ops[..|ops| - 1]) && Legal(Execute(s, ops[..|ops| - 1]), ops[|ops| - 1])
  }

  /** The state before operation `k`. */
  ghost function At(s: State, ops: seq<Op>, k: nat): State
    requires k <= |ops|
  {
    Execute(s, ops[..k])
  }

  lemma {:induction false} PrefixLegal(s: State, ops: seq<Op>, k: nat)
    requires LegalRun(s, ops) && k <= |ops|
    ensures LegalRun(s, ops[..k])
    ensures k < |ops| ==> Legal(At(s, ops, k), ops[k]) && At(s, ops, k + 1) == Apply(At(s, ops, k), ops[k])
    decreases |ops|
  {
    if k == |ops| {
      assert ops[..k] == ops;
    } else {
      var front := ops[..|ops| - 1];
      assert ops[..k + 1][..k] == ops[..k] && ops[..k + 1][k] == ops[k];
      if k == |ops| - 1 {
        assert ops[..k + 1] == ops;
      } else {
        PrefixLegal(s, front, k);
        assert front[..k] == ops[..k];
      }
    }
  }

  /** Every reachable state satisfies the invariant. */
  lemma {:induction false} InvAlways(s: State, ops: seq<Op>)
    requires Inv(s) && LegalRun(s, ops)
    ensures Inv(Execute(s, ops))
    decreases |ops|
  {
    if ops != [] {
      InvAlways(s, ops[..|ops| - 1]);
      InvKept(Execute(s, ops[..|ops| - 1]), ops[|ops| - 1]);
    }
  }

  /** The invariant holds from the empty database on; in particular the log of
      a job that was never retried from the dead-letter queue accounts for its
      attempts exactly, and bounds how often it can be claimed. */
  lemma ReachableInv(ops: seq<Op>, id: JobId)
    requires LegalRun(EMPTY_STORE, ops)
    ensures Inv(Execute(EMPTY_STORE, ops))
    ensures var s := Execute(EMPTY_STORE, ops);
            id in s.jobs && DeadLetterRetried !in s.jobs[id].log ==>
              var e := s.jobs[id];
              && e.row.attempt == ClaimCount(e.log) - ParkCount(e.log)
              && Moves(e.log) <= 2 * e.row.maxAttempts + ParkCount(e.log)
  {
    InvAlways(EMPTY_STORE, ops);
    var s := Execute(EMPTY_STORE, ops);
    if id in s.jobs {
      Accounts(s.jobs[id], s.now);
    }
  }

  lemma Accounts(e: Entry, now: Time)
    requires EntryOk(e, now)
    ensures DeadLetterRetried !in e.log ==>
              && e.row.attempt == ClaimCount(e.log) - ParkCount(e.log)
              && Moves(e.log) <= 2 * e.row.maxAttempts + ParkCount(e.log)
  {
    if DeadLetterRetried !in e.log {
      NeverRetried(e.log);
    }
  }

  function ClaimCount(log: seq<Event>): nat {
    if log == [] then 0 else ClaimCount(log[..|log| - 1]) + if log[|log| - 1].Claimed? then 1 else 0
  }

  lemma {:induction false} NeverRetried(log: seq<Event>)
    requires DeadLetterRetried !in log
    ensures AttemptInLog(log) == ClaimCount(log) - ParkCount(log) && Retries(log) == 0
    decreases |log|
  {
    if log != [] {
      assert log[|log| - 1] in log;
      NeverRetried(log[..|log| - 1]);
    }
  }

  // ---------------------------------------------------- identity and growth

  lemma NoRebirth(s: State, op: Op, id: JobId)
    requires Legal(s, op) && id in s.issued && id !in s.jobs
    ensures id !in Apply(s, op).jobs
  {
  }

  lemma OnlyPruneRemoves(s: State, op: Op, id: JobId)
    requires Legal(s, op) && id in s.jobs && id !in Apply(s, op).jobs
    ensures op.Prune? && id in op.picked && s.jobs[id].row.status in {Succeeded, Canceled}
  {
    assert id in Removed(op);
    assert id in PrunableJobs(s, op.queue, op.olderThan);
  }

  lemma GrowsStep(s: State, op: Op, id: JobId, e: Entry)
    requires Inv(s) && Legal(s, op) && id in s.jobs && Grows(e, s.jobs[id])
    ensures id in Apply(s, op).jobs ==> Grows(e, Apply(s, op).jobs[id])
  {
    if id in Apply(s, op).jobs {
      Surviving(s, op, id);
      GrowsTransitive(e, s.jobs[id], Apply(s, op).jobs[id]);
    }
  }

  /** One operation on, whether the job is still there or not. */
  lemma StillGrown(s: State, op: Op, id: JobId, e: Entry)
    requires Inv(s) && Legal(s, op) && id in s.issued && (id in s.jobs ==> Grows(e, s.jobs[id]))
    ensures id in Apply(s, op).issued && (id in Apply(s, op).jobs ==> Grows(e, Apply(s, op).jobs[id]))
  {
    if id in s.jobs {
      GrowsStep(s, op, id, e);
    } else {
      NoRebirth(s, op, id);
    }
  }

  /** A job's entry at operation `k` extends its entry at an earlier operation `i`. */
  lemma {:induction false} GrowsBetween(s: State, ops: seq<Op>, i: nat, k: nat, id: JobId)
    requires Inv(s) && LegalRun(s, ops) && i <= k <= |ops| && id in At(s, ops, i).jobs
    ensures id in At(s, ops, i).issued && id in At(s, ops, k).issued
    ensures id in At(s, ops, k).jobs ==> Grows(At(s, ops, i).jobs[id], At(s, ops, k).jobs[id])
    decreases k
  {
    if i == k {
      PrefixLegal(s, ops, k);
      InvAlways(s, ops[..k]);
    } else {
      GrowsBetween(s, ops, i, k - 1, id);
      PrefixLegal(s, ops, k - 1);
      InvAlways(s, ops[..k - 1]);
      StillGrown(At(s, ops, k - 1), ops[k - 1], id, At(s, ops, i).jobs[id]);
    }
  }

  // --------------------------------------------------------------- fencing

  /** A write that the lease fence guards. */
  predicate WorkerWrite(op: Op, job: JobId, worker: WorkerId) {
    match op
    case Heartbeat(j, w, _) => j == job && w == worker
    case SaveStep(j, w, _, _) => j == job && w == worker
    case Suspend(j, w, _, _) => j == job && w == worker
    case Complete(j, w, _) => j == job && w == worker
    case Fail(j, w, _) => j == job && w == worker
    case _ => false
  }

  predicate ClaimsFor(op: Op, job: JobId, worker: WorkerId) {
    op.Claim? && op.worker == worker && job in op.picked
  }

  predicate NotHeldBy(s: State, job: JobId, worker: WorkerId) {
    job in s.jobs ==> s.jobs[job].row.leaseOwner != Some(worker)
  }

  lemma UnheldStep(s: State, op: Op, job: JobId, worker: WorkerId)
    requires NotHeldBy(s, job, worker) && !ClaimsFor(op, job, worker)
    ensures NotHeldBy(Apply(s, op), job, worker)
  {
    if job in s.jobs && job !in Removed(op) {
      assert EntryAfter(op, s.now, job, s.jobs[job]).row.leaseOwner != Some(worker);
    }
  }

  lemma {:induction false} StaysUnheld(s: State, ops: seq<Op>, job: JobId, worker: WorkerId)
    requires NotHeldBy(s, job, worker)
    requires forall op | op in ops :: !ClaimsFor(op, job, worker)
    ensures NotHeldBy(Execute(s, ops), job, worker)
    decreases |ops|
  {
    if ops != [] {
      assert ops[|ops| - 1] in ops;
      StaysUnheld(s, ops[..|ops| - 1], job, worker);
      UnheldStep(Execute(s, ops[..|ops| - 1]), ops[|ops| - 1], job, worker);
    }
  }

  lemma RefusedWriteChangesNothing(s: State, op: Op, job: JobId, worker: WorkerId)
    requires NotHeldBy(s, job, worker) && WorkerWrite(op, job, worker)
    ensures Apply(s, op) == s && !OwnsJob(s, job, worker)
  {
    assert Apply(s, op).jobs == s.jobs;
  }

  /** From the moment `job` is not leased to `worker` - another worker claimed
      it, say - every write by `worker` is refused and changes nothing, until a
      claim hands that worker the job again. */
  lemma Fencing(s: State, ops: seq<Op>, job: JobId, worker: WorkerId, k: nat)
    requires NotHeldBy(s, job, worker)
    requires k < |ops| && WorkerWrite(ops[k], job, worker)
    requires forall i | 0 <= i < k :: !ClaimsFor(ops[i], job, worker)
    ensures At(s, ops, k + 1) == At(s, ops, k)
    ensures !OwnsJob(At(s, ops, k), job, worker)
  {
    StaysUnheld(s, ops[..k], job, worker);
    assert ops[..k + 1][..k] == ops[..k];
    RefusedWriteChangesNothing(At(s, ops, k), ops[k], job, worker);
  }

  /** A claim by `worker` takes the job from every other worker. */
  lemma ClaimTakesTheJob(s: State, op: Op, job: JobId, other: WorkerId)
    requires Inv(s) && Legal(s, op) && op.Claim? && job in op.picked && other != op.worker
    ensures job in Apply(s, op).jobs && OwnsJob(Apply(s, op), job, op.worker) && NotHeldBy(Apply(s, op), job, other)
  {
  }

  /** The fence is the worker id and not the claim: after a worker reclaims a
      job of its own, a checkpoint written by its earlier run is accepted. */
  lemma OneWorkerIsNotFencedFromItself(s: State, claim: Op, job: JobId, key: string, value: Json)
    requires claim.Claim? && job in claim.picked && OwnsJob(s, job, claim.worker) && key !in s.jobs[job].steps
    ensures var s' := Apply(Apply(s, claim), SaveStep(job, claim.worker, key, value));
            job in s'.jobs && key in s'.jobs[job].steps && s'.jobs[job].steps[key] == value
  {
    var e := ClaimedEntry(s.jobs[job], claim.worker, claim.lease, s.now);
    assert Apply(s, claim).jobs[job] == e;
    SavedByOwner(Apply(s, claim), job, claim.worker, key, value);
  }

  lemma SavedByOwner(s: State, job: JobId, worker: WorkerId, key: string, value: Json)
    requires OwnsJob(s, job, worker) && key !in s.jobs[job].steps
    ensures var s' := Apply(s, SaveStep(job, worker, key, value));
            job in s'.jobs && key in s'.jobs[job].steps && s'.jobs[job].steps[key] == value
  {
    assert Apply(s, SaveStep(job, worker, key, value)).jobs[job] == InsertedEntry(s.jobs[job], key, value);
  }

  // ------------------------------------------------------- frozen outcomes

  /** What outlives the end: the log, the link to a parent that is itself pruned, and
      checkpoints that were past their ownership check when the job ended. */
  ghost predicate Frozen(e: Entry, e': Entry) {
    && e'.row.(parent := None) == e.row.(parent := None)
    && e'.mail == e.mail
    && (forall key | key in e.steps :: key in e'.steps && e'.steps[key] == e.steps[key])
  }

  /** An operator takes the job back from the dead-letter queue. */
  predicate TakesBack(op: Op, id: JobId, e: Entry) {
    op.RetryDeadLetter? && op.job == id && e.row.status == DeadLetter
  }

  lemma FrozenEntry(op: Op, now: Time, id: JobId, e: Entry)
    requires RowOk(e.row, now) && Guarded(op, now, id, e) && Terminal(e.row.status) && !TakesBack(op, id, e)
    ensures Frozen(e, EntryAfter(op, now, id, e))
  {
  }

  lemma FrozenStep(s: State, op: Op, id: JobId, e: Entry)
    requires Inv(s) && Legal(s, op) && id in s.jobs && Frozen(e, s.jobs[id]) && Terminal(e.row.status)
    requires !TakesBack(op, id, e)
    ensures id in Apply(s, op).jobs ==> Frozen(e, Apply(s, op).jobs[id])
    ensures e.row.status == DeadLetter ==> id in Apply(s, op).jobs
  {
    EntryFacts(s, op, id);
    if id in Apply(s, op).jobs {
      SurvivorEntry(s, op, id);
      FrozenEntry(op, s.now, id, s.jobs[id]);
    } else {
      OnlyPruneRemoves(s, op, id);
    }
  }

  lemma EntryFacts(s: State, op: Op, id: JobId)
    requires Inv(s) && Legal(s, op) && id in s.jobs
    ensures RowOk(s.jobs[id].row, s.now) && Guarded(op, s.now, id, s.jobs[id]) && id in s.issued
  {
  }

  lemma SurvivorEntry(s: State, op: Op, id: JobId)
    requires Legal(s, op) && id in s.jobs && id in s.issued && id in Apply(s, op).jobs
    ensures Apply(s, op).jobs[id] == EntryAfter(op, s.now, id, s.jobs[id])
  {
  }

  /** A finished job keeps its status, result, mailbox and checkpoints until it is
      pruned, and gets further checkpoints at most; a dead-lettered one is never pruned,
      and moves only when an operator retries it. */
  lemma {:induction false} OutcomeFrozen(s: State, ops: seq<Op>, id: JobId)
    requires Inv(s) && LegalRun(s, ops) && id in s.jobs && Terminal(s.jobs[id].row.status)
    requires forall op | op in ops :: !TakesBack(op, id, s.jobs[id])
    ensures id in Execute(s, ops).jobs ==> Frozen(s.jobs[id], Execute(s, ops).jobs[id])
    ensures s.jobs[id].row.status == DeadLetter ==> id in Execute(s, ops).jobs
    decreases |ops|
  {
    if ops != [] {
      var mid := Execute(s, ops[..|ops| - 1]);
      assert ops[|ops| - 1] in ops;
      OutcomeFrozen(s, ops[..|ops| - 1], id);
      InvAlways(s, ops[..|ops| - 1]);
      if id in mid.jobs {
        FrozenStep(mid, ops[|ops| - 1], id, s.jobs[id]);
      } else {
        GrowsBetween(s, ops, 0, |ops| - 1, id);
        NoRebirth(mid, ops[|ops| - 1], id);
      }
    }
  }

  /** An insert, past its ownership check, of a key that the job had not. */
  predicate LateInsert(op: Op, id: JobId, e: Entry) {
    op.InsertStep? && op.job == id && op.key !in e.steps
  }

  lemma LastStep(s: State, op: Op, id: JobId, e: Entry)
    requires id in s.jobs && id in Apply(s, op).jobs && id !in Born(s, op) && Frozen(e, s.jobs[id]) && Terminal(e.row.status)
    ensures Apply(s, op).jobs[id].steps == e.steps <==> s.jobs[id].steps == e.steps && !LateInsert(op, id, e)
  {
    RowsAfter(s, op, id);
    if op.InsertStep? && op.job == id && op.key !in s.jobs[id].steps {
      assert op.key in Apply(s, op).jobs[id].steps;
    } else {
      OtherSteps(op, s.now, id, s.jobs[id]);
    }
  }

  lemma OtherSteps(op: Op, now: Time, id: JobId, e: Entry)
    requires Terminal(e.row.status) && !(op.InsertStep? && op.job == id && op.key !in e.steps)
    ensures EntryAfter(op, now, id, e).steps == e.steps
  {
  }

  lemma StillThere(s: State, op: Op, id: JobId)
    requires Legal(s, op) && id in s.issued && id in Apply(s, op).jobs
    ensures id in s.jobs && id !in Born(s, op)
  {
  }

  lemma StaysIssued(s: State, ops: seq<Op>, id: JobId)
    requires Inv(s) && LegalRun(s, ops) && id in s.jobs
    ensures id in Execute(s, ops).issued
  {
    GrowsBetween(s, ops, 0, |ops|, id);
    assert ops[..|ops|] == ops;
  }

  predicate NoneLate(ops: seq<Op>, id: JobId, e: Entry) {
    forall op | op in ops :: !LateInsert(op, id, e)
  }

  lemma NoneLateSplit(ops: seq<Op>, id: JobId, e: Entry)
    requires ops != []
    ensures NoneLate(ops, id, e) <==> NoneLate(ops[..|ops| - 1], id, e) && !LateInsert(ops[|ops| - 1], id, e)
  {
    assert ops == ops[..|ops| - 1] + [ops[|ops| - 1]];
  }

  /** And it gets a further checkpoint exactly when such an insert lands on it. */
  lemma {:induction false} CheckpointsFrozenIff(s: State, ops: seq<Op>, id: JobId)
    requires Inv(s) && LegalRun(s, ops) && id in s.jobs && Terminal(s.jobs[id].row.status)
    requires forall op | op in ops :: !TakesBack(op, id, s.jobs[id])
    requires id in Execute(s, ops).jobs
    ensures Execute(s, ops).jobs[id].steps == s.jobs[id].steps <==> NoneLate(ops, id, s.jobs[id])
    decreases |ops|
  {
    if ops != [] {
      var front, last := ops[..|ops| - 1], ops[|ops| - 1];
      var mid := Execute(s, front);
      OutcomeFrozen(s, front, id);
      StaysIssued(s, front, id);
      StillThere(mid, last, id);
      CheckpointsFrozenIff(s, front, id);
      NoneLateSplit(ops, id, s.jobs[id]);
      LastStep(mid, last, id, s.jobs[id]);
    }
  }

  /** Operation `k` deletes the finished job `id`. */
  ghost predicate PrunedAt(s: State, ops: seq<Op>, k: nat, id: JobId) {
    && k < |ops| && ops[k].Prune? && id in ops[k].picked && id in At(s, ops, k).jobs
    && At(s, ops, k).jobs[id].row.status in {Succeeded, Canceled}
  }

  lemma PrunedInFront(s: State, ops: seq<Op>, n: nat, k: nat, id: JobId)
    requires n <= |ops| && PrunedAt(s, ops[..n], k, id)
    ensures PrunedAt(s, ops, k, id)
  {
    assert ops[..n][..k] == ops[..k];
  }

  /** Retention deletes only jobs that succeeded or were canceled. */
  lemma {:induction false} LiveJobsAreNeverPruned(s: State, ops: seq<Op>, id: JobId)
    requires LegalRun(s, ops) && id in s.jobs && id !in Execute(s, ops).jobs
    ensures exists k: nat :: PrunedAt(s, ops, k, id)
    decreases |ops|
  {
    var n := |ops| - 1;
    if id in Execute(s, ops[..n]).jobs {
      OnlyPruneRemoves(Execute(s, ops[..n]), ops[n], id);
      assert PrunedAt(s, ops, n, id);
    } else {
      LiveJobsAreNeverPruned(s, ops[..n], id);
      var k: nat :| PrunedAt(s, ops[..n], k, id);
      PrunedInFront(s, ops, n, k, id);
    }
  }

  // ------------------------------------------------------------ idempotency

  /** Two enqueues under one idempotency key create two jobs only when the first
      job was deleted in between. */
  lemma OneJobPerKey(s: State, ops: seq<Op>, i: nat, k: nat)
    requires Inv(s) && LegalRun(s, ops) && i < k < |ops|
    requires ops[i].Enqueue? && ops[k].Enqueue? && ops[i].req.idem == ops[k].req.idem != ""
    requires Inserts(At(s, ops, i), ops[i].req) && Inserts(At(s, ops, k), ops[k].req)
    ensures ops[i].id in At(s, ops, i + 1).jobs && ops[i].id !in At(s, ops, k).jobs
  {
    PrefixLegal(s, ops, i);
    PrefixLegal(s, ops, i + 1);
    PrefixLegal(s, ops, k);
    var born := At(s, ops, i + 1);
    InvAlways(s, ops[..i + 1]);
    var id := ops[i].id;
    assert id in born.jobs && born.jobs[id].row.idem == Some(ops[i].req.idem);
    GrowsBetween(s, ops, i + 1, k, id);
    assert !HasKey(At(s, ops, k), ops[i].req.idem);
  }

  /** Once a keyed signal was accepted, sending it again is accepted and changes
      nothing, for as long as the job exists, finished or not. */
  lemma ResendIsNoop(s: State, ops: seq<Op>, i: nat, k: nat)
    requires Inv(s) && LegalRun(s, ops) && i < k < |ops|
    requires ops[i].Signal? && ops[k].Signal? && ops[i].job == ops[k].job
    requires ops[i].name == ops[k].name && ops[i].idem == ops[k].idem != ""
    requires SignalReply(At(s, ops, i), ops[i].job, ops[i].name, ops[i].idem).Ok?
    requires ops[k].job in At(s, ops, k).jobs
    ensures SignalReply(At(s, ops, k), ops[k].job, ops[k].name, ops[k].idem).Ok?
    ensures At(s, ops, k + 1) == At(s, ops, k)
  {
    assert At(s, ops, i + 1) == Apply(At(s, ops, i), ops[i]) by { PrefixLegal(s, ops, i); }
    assert At(s, ops, k + 1) == Apply(At(s, ops, k), ops[k]) by { PrefixLegal(s, ops, k); }
    AcceptedIsRemembered(At(s, ops, i), ops[i]);
    GrowsBetween(s, ops, i + 1, k, ops[i].job);
    RememberedIsNoop(At(s, ops, i + 1).jobs[ops[i].job].mail, At(s, ops, k), ops[k]);
  }

  lemma RememberedIsNoop(sent: seq<Mail>, s: State, op: Op)
    requires op.Signal? && op.job in s.jobs && sent <= s.jobs[op.job].mail && Duplicate(sent, op.name, op.idem)
    ensures SignalReply(s, op.job, op.name, op.idem).Ok? && Apply(s, op) == s
  {
    var m :| m in sent && m.name == op.name && m.key == Some(op.idem);
    assert m in s.jobs[op.job].mail;
    assert Duplicate(s.jobs[op.job].mail, op.name, op.idem);
    assert Apply(s, op).jobs == s.jobs;
  }

  lemma AcceptedIsRemembered(s: State, op: Op)
    requires op.Signal? && op.idem != "" && SignalReply(s, op.job, op.name, op.idem).Ok?
    ensures op.job in Apply(s, op).jobs && Duplicate(Apply(s, op).jobs[op.job].mail, op.name, op.idem)
  {
    var before := s.jobs[op.job];
    var after := Apply(s, op).jobs[op.job];
    assert after == SignaledEntry(before, op.name, op.payload, op.idem, s.now);
    if !Duplicate(before.mail, op.name, op.idem) {
      assert after.mail[|before.mail|] == Mail(op.name, OrEmpty(op.payload), Some(op.idem));
    }
  }

  // ---------------------------------------------------------- no stuck lease

  /** An expired lease is dealt with in exactly one of two ways: a claim on its
      queue takes the job over, or the sweep dead-letters it. */
  lemma ExpiredLeaseHasOneExit(s: State, id: JobId, worker: WorkerId, lease: Time)
    requires Inv(s) && id in s.jobs && Expired(s.jobs[id].row, s.now)
    ensures var row := s.jobs[id].row;
            var available := Available(s, row.queue, {});
            var claim := Claim(worker, row.queue, lease, |available|, {}, available);
            && (row.attempt < row.maxAttempts <==> id in available)
            && (id in available ==> Legal(s, claim) && Claimed(worker, row.attempt + 1) in Apply(s, claim).jobs[id].log)
            && (id in available <==> Apply(s, Sweep(true, {})).jobs[id] == s.jobs[id])
            && (id !in available <==> Apply(s, Sweep(true, {})).jobs[id].row.status == DeadLetter)
  {
    var e := s.jobs[id];
    var available := Available(s, e.row.queue, {});
    SweepDeadLettersExhausted(s, id);
    assert id in available <==> Reclaimable(e.row, s.now);
    if id in available {
      ClaimOfAll(s, id, worker, lease);
    }
  }

  lemma SweepDeadLettersExhausted(s: State, id: JobId)
    requires id in s.jobs && Expired(s.jobs[id].row, s.now)
    ensures var e' := Apply(s, Sweep(true, {})).jobs[id];
            if Exhausted(s.jobs[id].row, s.now) then e'.row.status == DeadLetter else e' == s.jobs[id]
  {
    assert Apply(s, Sweep(true, {})).jobs[id] == EntryAfter(Sweep(true, {}), s.now, id, s.jobs[id]);
  }

  lemma ClaimOfAll(s: State, id: JobId, worker: WorkerId, lease: Time)
    requires id in s.jobs && s.jobs[id].row.queue != "" && id in Available(s, s.jobs[id].row.queue, {})
    ensures var available := Available(s, s.jobs[id].row.queue, {});
            var claim := Claim(worker, s.jobs[id].row.queue, lease, |available|, {}, available);
            Legal(s, claim) && Claimed(worker, s.jobs[id].row.attempt + 1) in Apply(s, claim).jobs[id].log
  {
    var e := s.jobs[id];
    var available := Available(s, e.row.queue, {});
    assert |available| > 0 by { assert available != {}; }
    var claim := Claim(worker, e.row.queue, lease, |available|, {}, available);
    var claimed := ClaimedEntry(e, worker, lease, s.now);
    assert Apply(s, claim).jobs[id] == claimed;
    assert claimed.log[|e.log|] == Claimed(worker, e.row.attempt + 1);
  }

  // ------------------------------------------------- what a wait can cost

  lemma RefusedPark(s: State, job: JobId, worker: WorkerId, runAfter: Time, wake: int)
    requires job in s.jobs && s.jobs[job].row.wakeVersion != wake
    ensures !Parks(s, job, worker, wake)
    ensures var s' := Apply(s, Suspend(job, worker, runAfter, wake));
            job in s'.jobs && s'.jobs[job] == s.jobs[job] && s'.now == s.now
  {
  }

  lemma Ticked(s: State, job: JobId, to: Time)
    requires job in s.jobs
    ensures var s' := Apply(s, Tick(to)); job in s'.jobs && s'.jobs[job] == s.jobs[job] && s'.now == to
  {
  }

  /** The state after a refused park and the end of the lease. */
  function Overdue(s: State, job: JobId, worker: WorkerId, runAfter: Time, wake: int, to: Time): State {
    Apply(Apply(s, Suspend(job, worker, runAfter, wake)), Tick(to))
  }

  lemma OverdueFacts(s: State, job: JobId, worker: WorkerId, runAfter: Time, wake: int, to: Time)
    requires Inv(s) && OwnsJob(s, job, worker) && s.jobs[job].row.wakeVersion != wake
    requires s.jobs[job].row.leaseExpires.value < to && s.now <= to
    ensures var later := Overdue(s, job, worker, runAfter, wake, to);
            && !Parks(s, job, worker, wake)
            && job in later.jobs && later.jobs[job] == s.jobs[job] && Expired(later.jobs[job].row, later.now)
            && s.jobs[job].row.queue != ""
  {
    RefusedPark(s, job, worker, runAfter, wake);
    Ticked(Apply(s, Suspend(job, worker, runAfter, wake)), job, to);
    assert RowOk(s.jobs[job].row, s.now);
  }

  /** A claim can be made, and counts as another attempt. */
  ghost predicate ClaimCounts(s: State, id: JobId, worker: WorkerId)
    requires id in s.jobs
  {
    var row := s.jobs[id].row;
    var available := Available(s, row.queue, {});
    var claim := Claim(worker, row.queue, SECOND, |available|, {}, available);
    Legal(s, claim) && id in Apply(s, claim).jobs && Apply(s, claim).jobs[id].row.attempt == row.attempt + 1
  }

  /** The next sweep dead-letters the job. */
  predicate SweptNext(s: State, id: JobId) {
    var s' := Apply(s, Sweep(true, {}));
    id in s'.jobs && s'.jobs[id].row.status == DeadLetter
  }

  lemma ExpiredCosts(s: State, id: JobId, worker: WorkerId)
    requires id in s.jobs && s.jobs[id].row.queue != "" && Expired(s.jobs[id].row, s.now)
    ensures if s.jobs[id].row.attempt < s.jobs[id].row.maxAttempts then ClaimCounts(s, id, worker) else SweptNext(s, id)
  {
    var row := s.jobs[id].row;
    if row.attempt < row.maxAttempts {
      var available := Available(s, row.queue, {});
      assert id in available;
      ClaimOfAll(s, id, worker, SECOND);
      RowsAfter(s, Claim(worker, row.queue, SECOND, |available|, {}, available), id);
    } else {
      SweepDeadLettersExhausted(s, id);
    }
  }

  /** A park is free only when it goes through. When a signal has come in since the
      claim, Suspend is refused and the job stays leased. Once the lease has run out,
      either a claim can be made, and counts as another attempt, or, when the attempts
      are spent, the next sweep dead-letters the job. */
  lemma RefusedParkCostsAnAttempt(s: State, job: JobId, worker: WorkerId, runAfter: Time, wake: int, to: Time)
    requires Inv(s) && OwnsJob(s, job, worker) && s.jobs[job].row.wakeVersion != wake
    requires s.jobs[job].row.leaseExpires.value < to && s.now <= to
    ensures !Parks(s, job, worker, wake)
    ensures var later := Overdue(s, job, worker, runAfter, wake, to);
            && job in later.jobs && later.jobs[job] == s.jobs[job]
            && if s.jobs[job].row.attempt < s.jobs[job].row.maxAttempts then ClaimCounts(later, job, worker)
               else SweptNext(later, job)
  {
    OverdueFacts(s, job, worker, runAfter, wake, to);
    ExpiredCosts(Overdue(s, job, worker, runAfter, wake, to), job, worker);
  }
}
