/** The store as the code runs it: tables updated in place, statement by
    statement. Every method is one transaction, and its contract equates the new
    tables with the operation of the state machine that it performs. */
module Store {
  import opened Values
  import opened Faults
  import opened Jobs
  import opened StoreModel
  import opened StoreInvariant
  import opened StoreHistory

  predicate OnOneJob(op: Op, job: JobId) {
    && (op.Heartbeat? || op.SaveStep? || op.InsertStep? || op.Suspend? || op.Signal? || op.Complete?
        || op.Fail? || op.Cancel? || op.RetryDeadLetter? || op.RecordEvent?)
    && op.job == job
  }

  /** `Apply` of an operation on one existing job; `OneJob` proves it so. */
  function UpdateOne(s: State, op: Op, job: JobId): State
    requires OnOneJob(op, job)
  {
    if job in s.jobs then s.(jobs := s.jobs[job := EntryAfter(op, s.now, job, s.jobs[job])]) else s
  }

  lemma LeavesOthers(op: Op, now: Time, job: JobId, id: JobId, e: Entry)
    requires OnOneJob(op, job) && id != job
    ensures EntryAfter(op, now, id, e) == e
  {
  }

  lemma SameDomain(s: State, op: Op, job: JobId)
    requires OnOneJob(op, job)
    ensures Apply(s, op).jobs.Keys == s.jobs.Keys && Apply(s, op).now == s.now && Apply(s, op).issued == s.issued
  {
    assert Born(s, op) == map[] && Removed(op) == {};
  }

  lemma OneEntry(s: State, op: Op, job: JobId, id: JobId)
    requires OnOneJob(op, job) && id in Apply(s, op).jobs
    ensures id in s.jobs
    ensures Apply(s, op).jobs[id] == if id == job then EntryAfter(op, s.now, job, s.jobs[job]) else s.jobs[id]
  {
    RowsAfter(s, op, id);
    if id != job { LeavesOthers(op, s.now, job, id, s.jobs[id]); }
  }

  lemma SameMaps(m: map<JobId, Entry>, m': map<JobId, Entry>)
    requires m.Keys == m'.Keys && forall id | id in m :: m[id] == m'[id]
    ensures m == m'
  {
  }

  /** An operation on one existing job leaves every other job alone. */
  lemma OneJob(s: State, op: Op, job: JobId)
    requires OnOneJob(op, job)
    ensures Apply(s, op) == UpdateOne(s, op, job)
  {
    var s' := Apply(s, op);
    SameDomain(s, op, job);
    forall id | id in s'.jobs
      ensures s'.jobs[id] == UpdateOne(s, op, job).jobs[id]
    {
      OneEntry(s, op, job, id);
    }
    SameMaps(s'.jobs, UpdateOne(s, op, job).jobs);
  }

  /** A nonempty set of rows has one that no other row precedes. */
  lemma {:induction false} EarliestExists(jobs: map<JobId, Entry>, ids: set<JobId>)
    requires ids != {} && ids <= jobs.Keys
    ensures exists p :: p in ids && forall a | a in ids :: !Before(jobs[a].row, jobs[p].row)
    decreases ids
  {
    var p :| p in ids;
    if ids == {p} {
      assert !Before(jobs[p].row, jobs[p].row);
    } else {
      EarliestExists(jobs, ids - {p});
      var q :| q in ids - {p} && forall a | a in ids - {p} :: !Before(jobs[a].row, jobs[q].row);
      var first := if Before(jobs[p].row, jobs[q].row) then p else q;
      forall a | a in ids
        ensures !Before(jobs[a].row, jobs[first].row)
      {
        assert a == p || a in ids - {p};
      }
    }
  }

  lemma Collected(claimed: seq<(JobId, Row)>, id: JobId, row: Row, ids: set<JobId>)
    requires ids == set c | c in claimed :: c.0
    ensures ids + {id} == set c | c in claimed + [(id, row)] :: c.0
  {
    var more := claimed + [(id, row)];
    assert (id, row) in more;
    assert forall c | c in claimed :: c in more;
    assert forall c | c in more :: c in claimed || c == (id, row);
  }

  lemma HitOnly(s: State, req: EnqueueRequest, id: JobId, hit: JobId)
    requires req.idem != "" && hit in s.jobs && s.jobs[hit].row.idem == Some(req.idem)
    requires forall j | j in s.jobs && j != hit :: s.jobs[j].row.idem != Some(req.idem)
    ensures Apply(s, Enqueue(req, id)) ==
            s.(jobs := s.jobs[hit := s.jobs[hit].(log := s.jobs[hit].log + [EnqueueHit])])
  {
    assert HasKey(s, req.idem);
    assert Apply(s, Enqueue(req, id)).jobs == s.jobs[hit := s.jobs[hit].(log := s.jobs[hit].log + [EnqueueHit])];
  }

  lemma NoHit(s: State, req: EnqueueRequest, id: JobId)
    requires id !in s.jobs && (req.idem != "" ==> !HasKey(s, req.idem))
    ensures Apply(s, Enqueue(req, id)) ==
            State(s.now, s.jobs + Born(s, Enqueue(req, id)), s.issued + Born(s, Enqueue(req, id)).Keys)
  {
    assert Apply(s, Enqueue(req, id)).jobs == s.jobs + Born(s, Enqueue(req, id));
  }

  function RequestedRow(req: EnqueueRequest, now: Time): Row {
    var n := Normalize(req, now);
    NewRow(n.queue, n.kind, OrEmpty(n.payload), KeyOf(n.idem), n.maxAttempts, n.runAfter.value, n.parent, now)
  }

  lemma NewJob(s: State, req: EnqueueRequest, id: JobId)
    requires id !in s.jobs && Inserts(s, req)
    ensures Apply(s, Enqueue(req, id)) ==
            State(s.now, s.jobs[id := Entry(RequestedRow(req, s.now), map[], [], [Enqueued])], s.issued + {id})
  {
    var e := Entry(RequestedRow(req, s.now), map[], [], [Enqueued]);
    assert Born(s, Enqueue(req, id)) == map[id := e];
    NoHit(s, req, id);
    assert s.jobs + map[id := e] == s.jobs[id := e];
  }

  lemma NoJob(s: State, req: EnqueueRequest, id: JobId)
    requires id !in s.jobs && !Inserts(s, req) && (req.idem != "" ==> !HasKey(s, req.idem))
    ensures Apply(s, Enqueue(req, id)) == s
  {
    NoHit(s, req, id);
    assert s.jobs + map[] == s.jobs;
  }

  /** Each job is kept with the rows that cascade with it. */
  class Store {
    var now: Time
    var jobs: map<JobId, Entry>
    ghost var issued: set<JobId>

    ghost function Snapshot(): State
      reads this
    {
      State(now, jobs, issued)
    }

    constructor ()
      ensures Snapshot() == EMPTY_STORE
    {
      now, jobs, issued := 0, map[], {};
    }

    // ------------------------------------------------------------ statements

    method UpdateRow(job: JobId, row: Row)
      requires job in jobs
      modifies this`jobs
      ensures jobs == old(jobs)[job := old(jobs)[job].(row := row)]
    {
      jobs := jobs[job := jobs[job].(row := row)];
    }

    method AppendEvent(job: JobId, event: Event)
      requires job in jobs
      modifies this`jobs
      ensures jobs == old(jobs)[job := old(jobs)[job].(log := old(jobs)[job].log + [event])]
    {
      jobs := jobs[job := jobs[job].(log := jobs[job].log + [event])];
    }

    method InsertJob(id: JobId, row: Row, event: Event)
      modifies this`jobs, this`issued
      ensures jobs == old(jobs)[id := Entry(row, map[], [], [event])] && issued == old(issued) + {id}
    {
      jobs := jobs[id := Entry(row, map[], [], [])];
      issued := issued + {id};
      AppendEvent(id, event);
      assert [] + [event] == [event];
    }

    // ---------------------------------------------------------- transactions

    method Enqueue(request: EnqueueRequest, id: JobId) returns (r: Result<(JobId, bool), StoreError>)
      requires id !in issued && IsUuid(id) && id !in jobs && KeysUnique(Snapshot())
      modifies this`jobs, this`issued
      ensures Snapshot() == Apply(old(Snapshot()), StoreModel.Enqueue(request, id))
      ensures r.Ok? ==> r.value.0 in jobs && (r.value.1 <==> r.value.0 !in old(jobs))
      ensures r.Ok? && request.idem != "" ==> jobs[r.value.0].row.idem == Some(request.idem)
      ensures r.Ok? ==> if r.value.1 then r.value.0 == id else request.idem != ""
      ensures r.Err? ==> r.error == ForeignKey && !Inserts(old(Snapshot()), request)
                         && (request.idem != "" ==> !HasKey(old(Snapshot()), request.idem))
    {
      ghost var before := Snapshot();
      if hit :| request.idem != "" && hit in jobs && jobs[hit].row.idem == Some(request.idem) {
        AppendEvent(hit, EnqueueHit);
        HitOnly(before, request, id, hit);
        return Ok((hit, false));
      }
      if request.parent.Some? && request.parent.value !in jobs {
        NoJob(before, request, id);
        return Err(ForeignKey);
      }
      NewJob(before, request, id);
      InsertJob(id, RequestedRow(request, now), Enqueued);
      return Ok((id, true));
    }

    /** Claims the first jobs in (run_after, created_at) order among those that
        no concurrent transaction holds: select, update, then log each one. */
    method Claim(worker: WorkerId, queueName: string, lease: Time, limit: int, locked: set<JobId>)
      returns (claimed: seq<(JobId, Row)>, ghost picked: set<JobId>)
      modifies this`jobs
      ensures var op := StoreModel.Claim(worker, queueName, lease, limit, locked, picked);
              Legal(old(Snapshot()), op) && Snapshot() == Apply(old(Snapshot()), op)
      ensures picked == set c | c in claimed :: c.0
      ensures forall c | c in claimed :: c.0 in jobs && c.1 == jobs[c.0].row
      ensures |claimed| == |picked|
      ensures forall id | id in picked && id in old(jobs) && old(jobs)[id].row.status == Running ::
                old(jobs)[id].row.leaseExpires.Some? && old(jobs)[id].row.leaseExpires.value < now
    {
      ghost var before := Snapshot();
      var chosen := SelectClaimable(EffectiveQueue(queueName), EffectiveLimit(limit), locked);
      picked := chosen;
      claimed := MarkClaimed(chosen, worker, lease);
      assert jobs == Apply(before, StoreModel.Claim(worker, queueName, lease, limit, locked, picked)).jobs;
    }

    method MarkClaimed(chosen: set<JobId>, worker: WorkerId, lease: Time) returns (claimed: seq<(JobId, Row)>)
      requires chosen <= jobs.Keys
      modifies this`jobs
      ensures jobs == map id | id in old(jobs) ::
                if id in chosen then ClaimedEntry(old(jobs)[id], worker, lease, now) else old(jobs)[id]
      ensures chosen == set c | c in claimed :: c.0
      ensures forall c | c in claimed :: c.0 in jobs && c.1 == jobs[c.0].row
      ensures |claimed| == |chosen|
    {
      claimed := [];
      var todo := chosen;
      while todo != {}
        invariant todo <= chosen <= old(jobs).Keys
        invariant jobs == map id | id in old(jobs) ::
                    if id in chosen - todo then ClaimedEntry(old(jobs)[id], worker, lease, now) else old(jobs)[id]
        invariant chosen - todo == set c | c in claimed :: c.0
        invariant forall c | c in claimed :: c.0 in jobs && c.1 == jobs[c.0].row
        invariant |claimed| == |chosen| - |todo|
        decreases todo
      {
        var id :| id in todo;
        var row := jobs[id].row;
        row := row.(status := Running, attempt := row.attempt + 1, leaseOwner := Some(worker),
                    leaseExpires := Some(now + Interval(lease)), heartbeatAt := Some(now),
                    updatedAt := now, error := None);
        UpdateRow(id, row);
        AppendEvent(id, Claimed(worker, row.attempt));
        Collected(claimed, id, row, chosen - todo);
        claimed, todo := claimed + [(id, row)], todo - {id};
        assert chosen - todo == (chosen - (todo + {id})) + {id};
      }
    }

    method SelectClaimable(queue: string, count: int, locked: set<JobId>) returns (chosen: set<JobId>)
      requires count >= 0
      ensures chosen <= Available(Snapshot(), queue, locked) <= jobs.Keys
      ensures FirstOf(Snapshot(), chosen, Available(Snapshot(), queue, locked), count)
    {
      var available := set id | id in jobs && id !in locked && Claimable(jobs[id].row, queue, now);
      assert available == Available(Snapshot(), queue, locked);
      chosen := {};
      var rest := available;
      while |chosen| < count && rest != {}
        invariant chosen + rest == available <= jobs.Keys && chosen !! rest && |chosen| <= count
        invariant forall p, a | p in chosen && a in rest :: !Before(jobs[a].row, jobs[p].row)
        decreases rest
      {
        EarliestExists(jobs, rest);
        var p :| p in rest && forall a | a in rest :: !Before(jobs[a].row, jobs[p].row);
        chosen, rest := chosen + {p}, rest - {p};
      }
      assert |available| == |chosen| + |rest|;
      if rest == {} { assert chosen == available; }
    }

    method DeadLetterExhausted(held: bool, locked: set<JobId>) returns (ids: set<JobId>)
      modifies this`jobs
      ensures Snapshot() == Apply(old(Snapshot()), Sweep(held, locked))
      ensures ids == set id | id in old(jobs) && held && id !in locked && Exhausted(old(jobs)[id].row, now)
      ensures forall id | id in ids :: old(jobs)[id].row.leaseExpires.Some? && old(jobs)[id].row.leaseExpires.value < now
    {
      ghost var before := Snapshot();
      ids := {};
      if held {
        ids := set id | id in jobs && id !in locked && Exhausted(jobs[id].row, now);
        var todo := ids;
        while todo != {}
          invariant todo <= ids <= before.jobs.Keys && now == before.now && issued == before.issued
          invariant jobs == map id | id in before.jobs ::
                      if id in ids - todo then SweptEntry(before.jobs[id], now) else before.jobs[id]
          decreases todo
        {
          var id :| id in todo;
          var row := jobs[id].row;
          UpdateRow(id, row.(status := DeadLetter,
                             error := if row.error.Some? then row.error else Some("lease expired after max attempts"),
                             leaseOwner := None, leaseExpires := None, updatedAt := now, completedAt := Some(now)));
          AppendEvent(id, DeadLettered);
          todo := todo - {id};
        }
      }
      assert jobs == Apply(before, Sweep(held, locked)).jobs;
    }

    /** Deletes at most one batch; the rows that hang off a job go with it. */
    method PruneCompleted(queue: string, olderThan: Time, held: bool) returns (count: nat, ghost picked: set<JobId>)
      modifies this`jobs
      ensures var op := Prune(queue, olderThan, held, picked);
              Legal(old(Snapshot()), op) && Snapshot() == Apply(old(Snapshot()), op)
      ensures count == |picked| && picked !! jobs.Keys && picked <= old(jobs).Keys
    {
      ghost var before := Snapshot();
      var batch: set<JobId> := {};
      if olderThan > 0 && held {
        batch := SelectPrunable(queue, olderThan);
      }
      picked, count := batch, |batch|;
      jobs := map id | id in jobs && id !in batch :: Orphaned(jobs[id], batch);
      assert jobs == Apply(before, Prune(queue, olderThan, held, picked)).jobs;
    }

    method SelectPrunable(queue: string, olderThan: Time) returns (batch: set<JobId>)
      ensures batch <= PrunableJobs(Snapshot(), queue, olderThan) <= jobs.Keys
      ensures |batch| == Min(PRUNE_BATCH_SIZE, |PrunableJobs(Snapshot(), queue, olderThan)|)
    {
      var prunable := set id | id in jobs && Prunable(jobs[id].row, queue, olderThan, now);
      assert prunable == PrunableJobs(Snapshot(), queue, olderThan);
      batch := {};
      var rest := prunable;
      while |batch| < PRUNE_BATCH_SIZE && rest != {}
        invariant batch + rest == prunable && batch !! rest && |batch| <= PRUNE_BATCH_SIZE
        decreases rest
      {
        var p :| p in rest;
        batch, rest := batch + {p}, rest - {p};
      }
      assert |prunable| == |batch| + |rest|;
      if rest == {} { assert batch == prunable; }
    }

    method GetStep(job: JobId, key: string) returns (found: Option<Json>)
      ensures found == if job in jobs && key in jobs[job].steps then Some(jobs[job].steps[key]) else None
    {
      found := None;
      if job in jobs && key in jobs[job].steps {
        found := Some(jobs[job].steps[key]);
      }
    }

    method OwnsLease(job: JobId, worker: WorkerId) returns (owned: bool)
      ensures owned == OwnsJob(Snapshot(), job, worker)
    {
      owned := job in jobs && Owns(jobs[job].row, worker);
    }

    /** The insert of SaveStep: on a conflict the winning checkpoint comes back. */
    method InsertCheckpoint(job: JobId, key: string, value: Json) returns (r: Result<Json, StoreError>)
      modifies this`jobs
      ensures Snapshot() == UpdateOne(old(Snapshot()), InsertStep(job, key, value), job)
      ensures if job in jobs then key in jobs[job].steps && r == Ok(jobs[job].steps[key]) else r == Err(ForeignKey)
    {
      if job !in jobs {
        return Err(ForeignKey);
      }
      if key in jobs[job].steps {
        return Ok(jobs[job].steps[key]);
      }
      jobs := jobs[job := jobs[job].(steps := jobs[job].steps[key := value])];
      AppendEvent(job, StepCompleted(key));
      r := Ok(value);
    }

    /** Two statements without a lock in between: the ownership check, and the insert.
        `meanwhile` is what transactions that commit between the two leave of the tables,
        if there are any. */
    method SaveStep(job: JobId, worker: WorkerId, key: string, value: Json, meanwhile: Option<State>)
      returns (r: Result<Json, StoreError>)
      requires meanwhile.Some? ==> exists ops :: LegalRun(Snapshot(), ops) && Execute(Snapshot(), ops) == meanwhile.value
      modifies this
      ensures !OwnsJob(old(Snapshot()), job, worker) ==> r == Err(InvalidTransition) && Snapshot() == old(Snapshot())
      ensures OwnsJob(old(Snapshot()), job, worker) ==>
                var mid := if meanwhile.Some? then meanwhile.value else old(Snapshot());
                && Snapshot() == UpdateOne(mid, InsertStep(job, key, value), job)
                && if job in mid.jobs then key in jobs[job].steps && r == Ok(jobs[job].steps[key]) else r == Err(ForeignKey)
    {
      var owned := OwnsLease(job, worker);
      if !owned {
        return Err(InvalidTransition);
      }
      if meanwhile.Some? {
        now, jobs, issued := meanwhile.value.now, meanwhile.value.jobs, meanwhile.value.issued;
      }
      r := InsertCheckpoint(job, key, value);
    }

    /** When nobody comes in between, that is one atomic operation. */
    method SaveStepAlone(job: JobId, worker: WorkerId, key: string, value: Json) returns (r: Result<Json, StoreError>)
      modifies this
      ensures now == old(now) && issued == old(issued)
      ensures Snapshot() == UpdateOne(old(Snapshot()), StoreModel.SaveStep(job, worker, key, value), job)
      ensures r == SaveStepReply(old(Snapshot()), job, worker, key, value)
      ensures r.Ok? ==> job in jobs && key in jobs[job].steps && r.value == jobs[job].steps[key]
    {
      r := SaveStep(job, worker, key, value, None);
    }

    method Heartbeat(job: JobId, worker: WorkerId, lease: Time) returns (ok: bool)
      modifies this`jobs
      ensures Snapshot() == UpdateOne(old(Snapshot()), StoreModel.Heartbeat(job, worker, lease), job)
      ensures ok == OwnsJob(old(Snapshot()), job, worker)
      ensures ok ==> job in jobs && jobs[job].row.leaseExpires == Some(now + Interval(lease))
    {
      ok := job in jobs && Owns(jobs[job].row, worker);
      if ok {
        UpdateRow(job, jobs[job].row.(heartbeatAt := Some(now), leaseExpires := Some(now + Interval(lease)),
                                      updatedAt := now));
        AppendEvent(job, Heartbeaten(worker));
      }
    }

    method Suspend(job: JobId, worker: WorkerId, runAfter: Time, wakeVersion: int) returns (parked: bool)
      modifies this`jobs
      ensures Snapshot() == UpdateOne(old(Snapshot()), StoreModel.Suspend(job, worker, runAfter, wakeVersion), job)
      ensures parked == Parks(old(Snapshot()), job, worker, wakeVersion)
    {
      parked := job in jobs && Owns(jobs[job].row, worker) && jobs[job].row.wakeVersion == wakeVersion;
      if parked {
        var row := jobs[job].row;
        UpdateRow(job, row.(status := Queued, runAfter := runAfter,
                            attempt := if row.attempt - 1 > 0 then row.attempt - 1 else 0,
                            leaseOwner := None, leaseExpires := None, updatedAt := now));
        AppendEvent(job, Suspended(runAfter));
      }
    }

    method Signal(job: JobId, name: string, payload: Option<Json>, idem: string) returns (r: Result<(), StoreError>)
      modifies this`jobs
      ensures Snapshot() == UpdateOne(old(Snapshot()), StoreModel.Signal(job, name, payload, idem), job)
      ensures r == SignalReply(old(Snapshot()), job, name, idem)
      ensures r.Ok? && !Duplicate(old(jobs)[job].mail, name, idem) ==>
                jobs[job].mail == old(jobs)[job].mail + [Mail(name, if payload.Some? then payload.value else EmptyObject, KeyOf(idem))]
    {
      if job !in jobs {
        return Err(NotFound);
      }
      if Duplicate(jobs[job].mail, name, idem) {
        return Ok(());
      }
      if Terminal(jobs[job].row.status) {
        return Err(InvalidTransition);
      }
      jobs := jobs[job := jobs[job].(mail := jobs[job].mail + [Mail(name, OrEmpty(payload), KeyOf(idem))])];
      AppendEvent(job, Signaled(name));
      var row := jobs[job].row;
      UpdateRow(job, row.(runAfter := Min(row.runAfter, now), wakeVersion := row.wakeVersion + 1, updatedAt := now));
      r := Ok(());
    }

    /** The index-th delivery under `name`: OFFSET over the rows in id order. */
    method GetSignalAt(job: JobId, name: string, index: int) returns (found: Option<Json>)
      ensures found == SignalAt(Snapshot(), job, name, index)
    {
      if index < 0 || job !in jobs {
        return None;
      }
      var mail := jobs[job].mail;
      var skipped, k := 0, 0;
      while k < |mail|
        invariant 0 <= k <= |mail| && skipped <= index
        invariant skipped == |Named(mail[..k], name)|
      {
        assert mail[..k + 1][..k] == mail[..k];
        if mail[k].name == name {
          if skipped == index {
            NamedPrefix(mail, k + 1, name);
            return Some(mail[k].payload);
          }
          skipped := skipped + 1;
        }
        k := k + 1;
      }
      assert mail[..k] == mail;
      found := None;
    }

    method Complete(job: JobId, worker: WorkerId, result: Option<Json>) returns (ok: bool)
      modifies this`jobs
      ensures Snapshot() == UpdateOne(old(Snapshot()), StoreModel.Complete(job, worker, result), job)
      ensures ok == OwnsJob(old(Snapshot()), job, worker)
    {
      ok := job in jobs && Owns(jobs[job].row, worker);
      if ok {
        UpdateRow(job, jobs[job].row.(status := Succeeded, result := Some(OrEmpty(result)), leaseOwner := None,
                                      leaseExpires := None, updatedAt := now, completedAt := Some(now)));
        AppendEvent(job, JobSucceeded);
      }
    }

    method Fail(job: JobId, worker: WorkerId, cause: Fault) returns (ok: bool)
      modifies this`jobs
      ensures Snapshot() == UpdateOne(old(Snapshot()), StoreModel.Fail(job, worker, cause), job)
      ensures ok == OwnsJob(old(Snapshot()), job, worker)
    {
      ok := job in jobs && Owns(jobs[job].row, worker);
      if ok {
        var row := jobs[job].row;
        var next := NextStatusAfterFailure(row.attempt, row.maxAttempts, cause);
        var runAfter := now + Backoff(row.attempt);
        if next == DeadLetter {
          runAfter := now;
        }
        UpdateRow(job, row.(status := next, error := Some(Message(cause)), runAfter := runAfter,
                            leaseOwner := None, leaseExpires := None, updatedAt := now,
                            completedAt := if next == DeadLetter then Some(now) else None));
        AppendEvent(job, JobFailed(Message(cause), next, IsPermanent(cause)));
      }
    }

    method Cancel(job: JobId) returns (ok: bool)
      modifies this`jobs
      ensures Snapshot() == UpdateOne(old(Snapshot()), StoreModel.Cancel(job), job)
      ensures ok <==> job in old(jobs) && !Terminal(old(jobs)[job].row.status)
    {
      ok := job in jobs && !Terminal(jobs[job].row.status);
      if ok {
        UpdateRow(job, jobs[job].row.(status := Canceled, leaseOwner := None, leaseExpires := None,
                                      updatedAt := now, completedAt := Some(now)));
        AppendEvent(job, JobCanceled);
      }
    }

    method RetryDeadLetter(job: JobId) returns (r: Result<Row, StoreError>)
      modifies this`jobs
      ensures Snapshot() == UpdateOne(old(Snapshot()), StoreModel.RetryDeadLetter(job), job)
      ensures r.Ok? <==> job in old(jobs) && old(jobs)[job].row.status == DeadLetter
      ensures r.Ok? ==> job in jobs && r.value == jobs[job].row && Claimable(r.value, r.value.queue, now)
      ensures r.Err? ==> r.error == InvalidTransition
    {
      if job !in jobs || jobs[job].row.status != DeadLetter {
        return Err(InvalidTransition);
      }
      UpdateRow(job, jobs[job].row.(status := Queued, attempt := 0, runAfter := now, leaseOwner := None,
                                    leaseExpires := None, heartbeatAt := None, result := None, error := None,
                                    updatedAt := now, completedAt := None));
      AppendEvent(job, DeadLetterRetried);
      r := Ok(jobs[job].row);
    }

    /** A genuinely fresh run: no checkpoints, no mailbox, no idempotency key. */
    method Replay(source: JobId, id: JobId) returns (r: Result<Row, StoreError>)
      requires id !in issued && IsUuid(id) && id !in jobs
      modifies this`jobs, this`issued
      ensures Snapshot() == Apply(old(Snapshot()), StoreModel.Replay(source, id))
      ensures r.Ok? <==> source in old(jobs)
      ensures r.Ok? ==> id in jobs && r.value == jobs[id].row && jobs[id].steps == map[] && jobs[id].mail == []
      ensures r.Err? ==> r.error == NotFound
    {
      ghost var before := Snapshot();
      ghost var op := StoreModel.Replay(source, id);
      if source !in jobs {
        assert jobs == Apply(before, op).jobs;
        return Err(NotFound);
      }
      var row := jobs[source].row;
      InsertJob(id, NewRow(row.queue, row.kind, row.payload, None, row.maxAttempts, now, None, now), Replayed(source));
      assert Born(before, op) == map[id := jobs[id]];
      assert jobs == Apply(before, op).jobs;
      r := Ok(jobs[id].row);
    }

    method RecordEvent(job: JobId, kind: string) returns (r: Result<(), StoreError>)
      modifies this`jobs
      ensures Snapshot() == UpdateOne(old(Snapshot()), StoreModel.RecordEvent(job, kind), job)
      ensures r == if job in jobs then Ok(()) else Err(ForeignKey)
    {
      if job !in jobs {
        return Err(ForeignKey);
      }
      AppendEvent(job, Recorded(kind));
      r := Ok(());
    }
  }
}
