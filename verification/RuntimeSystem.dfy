/** The invariant of the whole system: the store and every run ever started. */
module RuntimeSystem {
  import opened Values
  import opened Faults
  import opened Jobs
  import opened StoreModel
  import opened StoreInvariant
  import opened Keys
  import opened Runtime
  import opened RuntimeInvariant

  /** A workflow on one payload keeps to the documented naming contract. */
  ghost predicate WellNamed(reg: Registry, kind: string, payload: Json) {
    forall hist ::
      var a := reg(kind, payload, hist); Checkpointed(a) ==> PathOk(a.path) && CallOk(CallOf(a))
  }

  /** A job whose own workflow does. What other jobs do has no bearing on its keys. */
  ghost predicate JobWellNamed(reg: Registry, e: Entry) {
    WellNamed(reg, e.row.kind, e.row.payload)
  }

  /** Checkpoints under signal keys are deliveries, and checkpoints under child
      keys are jobs under the child's idempotency key. */
  ghost predicate KeyedOk(job: JobId, e: Entry, seen: map<JobId, Entry>) {
    && (forall path, name, i: nat | PathOk(path) && '/' !in name && StoredKey(path, SignalCall(name, i)) in e.steps ::
          IsDelivery(e.mail, name, i, e.steps[StoredKey(path, SignalCall(name, i))]))
    && (forall path, name | PathOk(path) && '/' !in name && StoredKey(path, ChildCall(name)) in e.steps ::
          IsChildOf(e.steps[StoredKey(path, ChildCall(name))], job, name, seen))
  }

  /** A job parked for a signal that it did not find: until it can be claimed
      again, the signal has still not come. */
  predicate NapOk(e: Entry, now: Time, nap: (string, nat)) {
    e.row.status == Queued && now < e.row.runAfter ==> |Named(e.mail, nap.0)| <= nap.1
  }

  ghost predicate RunsOk(reg: Registry, y: Sys) {
    forall r | 0 <= r < |y.runs| :: RunOk(reg, y.runs[r], y.seen, y.store)
  }

  ghost predicate AllKeyedOk(reg: Registry, seen: map<JobId, Entry>) {
    forall j | j in seen && JobWellNamed(reg, seen[j]) :: KeyedOk(j, seen[j], seen)
  }

  ghost predicate ParkedOk(y: Sys) {
    && y.parked.Keys <= y.store.issued
    && forall j | j in y.parked && j in y.store.jobs :: NapOk(y.store.jobs[j], y.store.now, y.parked[j])
  }

  ghost predicate SysInv(reg: Registry, y: Sys) {
    && Inv(y.store)
    && SeenOk(y.store, y.seen)
    && RunsOk(reg, y)
    && AllKeyedOk(reg, y.seen)
    && ParkedOk(y)
  }

  // ------------------------------------------------------------- the store

  /** What a legal store operation does to the history. */
  ghost predicate Advances(s: State, seen: map<JobId, Entry>, s': State, seen': map<JobId, Entry>) {
    && SeenOk(s', seen') && SeenGrows(seen, seen')
    && s.now <= s'.now
    && (forall j | j in s.issued :: StaysGone(s, s', j))
  }

  lemma JobAdvances(s: State, op: Op, j: JobId, e: Entry)
    requires Inv(s) && Legal(s, op) && j in s.issued && (j in s.jobs ==> e == s.jobs[j])
    ensures StaysGone(s, Apply(s, op), j)
    ensures j in Apply(s, op).jobs ==> Grows(e, Apply(s, op).jobs[j])
  {
    if j in Apply(s, op).jobs {
      Surviving(s, op, j);
    }
  }

  lemma OpAdvances(s: State, op: Op, seen: map<JobId, Entry>)
    requires Inv(s) && Legal(s, op) && SeenOk(s, seen)
    ensures Inv(Apply(s, op)) && Advances(s, seen, Apply(s, op), seen + Apply(s, op).jobs)
  {
    InvKept(s, op);
    HistoryAdvances(s, op, seen);
  }

  lemma HistoryAdvances(s: State, op: Op, seen: map<JobId, Entry>)
    requires Inv(s) && Legal(s, op) && SeenOk(s, seen) && Inv(Apply(s, op))
    ensures Advances(s, seen, Apply(s, op), seen + Apply(s, op).jobs)
  {
    var s' := Apply(s, op);
    var seen' := seen + s'.jobs;
    forall j | j in seen
      ensures j in seen' && Grows(seen[j], seen'[j])
    {
      JobAdvances(s, op, j, seen[j]);
    }
    forall j | j in s.issued
      ensures StaysGone(s, s', j)
    {
      if j in s'.jobs { Surviving(s, op, j); }
    }
    assert SeenOk(s', seen') by {
      assert s'.jobs.Keys <= s'.issued && s.issued <= s'.issued;
    }
  }

  lemma NothingAdvances(s: State, seen: map<JobId, Entry>)
    requires SeenOk(s, seen)
    ensures seen + s.jobs == seen && Advances(s, seen, s, seen)
  {
  }

  lemma OthersKept(reg: Registry, run: Run, s: State, seen: map<JobId, Entry>, s': State, seen': map<JobId, Entry>)
    requires RunOk(reg, run, seen, s) && SeenOk(s, seen) && Advances(s, seen, s', seen')
    ensures RunOk(reg, run, seen', s')
  {
    assert run.job in s.issued;
    RunStable(reg, run, seen, s, seen', s');
  }

  // -------------------------------------------------------------- the runs

  ghost function StoreAfter(s: State, write: Option<Op>): State {
    if write.Some? then Apply(s, write.value) else s
  }

  /** The run that moves is in order afterwards, in the store it leaves. */
  lemma MoverKept(reg: Registry, s: State, run: Run, c: Choice, seen: map<JobId, Entry>, s': State, seen': map<JobId, Entry>)
    requires RunOk(reg, run, seen, s) && SeenOk(s, seen) && Advances(s, seen, s', seen')
    requires var write := StepRun(reg, s, run, c).0;
             s' == StoreAfter(s, write) && (write.None? ==> seen' == seen) && (write.Some? ==> Legal(s, write.value))
    requires c.Break? ==> FindSuspension(c.fault).None?
    ensures RunOk(reg, StepRun(reg, s, run, c).1, seen', s')
  {
    var a := NextAction(reg, run);
    OthersKept(reg, run, s, seen, s', seen');
    if run.phase.Gone? {
    } else if run.phase.Ended? {
      RephaseOk(reg, run, Gone, seen', s');
    } else if c.Break? {
      BrokeOk(reg, run, c.fault, seen', s');
    } else if run.phase.Ready? {
      StartOk(reg, s, run, seen);
    } else if Checkpointed(a) {
      CallKept(reg, s, run, c, seen, s', seen');
    }
  }

  lemma CallKept(reg: Registry, s: State, run: Run, c: Choice, seen: map<JobId, Entry>, s': State, seen': map<JobId, Entry>)
    requires RunOk(reg, run, seen, s) && RunOk(reg, run, seen', s')
    requires SeenOk(s, seen) && Advances(s, seen, s', seen') && run.job in s.issued
    requires Checkpointed(NextAction(reg, run))
    requires var write := StepCheckpointed(s, run, NextAction(reg, run), c).0;
             s' == StoreAfter(s, write) && (write.None? ==> seen' == seen) && (write.Some? ==> Legal(s, write.value))
    ensures RunOk(reg, StepCheckpointed(s, run, NextAction(reg, run), c).1, seen', s')
  {
    var a := NextAction(reg, run);
    match run.phase
    case Missed =>
      if RunBody(s, run, a, c).0.Some? { assert s'.now == s.now; }
      BodyOk(reg, s, run, c, seen, s', seen');
    case Delivered(value) => LookupOk(reg, s, run, Produced(value), seen);
    case Produced(value) =>
      if OwnsJob(s, run.job, run.worker) {
        RephaseOk(reg, run, Owned(value), seen, s);
      } else {
        BrokeOk(reg, run, Wrapped("save step", Plain("invalid job state transition")), seen, s);
      }
    case Owned(value) => OwnedKept(reg, s, run, value, seen', s');
    case Loaded(value) => UseOk(reg, s, run, value, seen);
    case _ =>
  }

  lemma OwnedKept(reg: Registry, s: State, run: Run, value: Json, seen': map<JobId, Entry>, s': State)
    requires RunOk(reg, run, seen', s') && SeenOk(s', seen') && run.phase == Owned(value) && Checkpointed(NextAction(reg, run))
    requires var op := InsertStep(run.job, KeyFor(NextAction(reg, run)), value); Legal(s, op) && s' == Apply(s, op)
    ensures RunOk(reg, StepCheckpointed(s, run, NextAction(reg, run), Go).1, seen', s')
  {
    var a := NextAction(reg, run);
    if run.job in s.jobs {
      Inserted(s, run.job, KeyFor(a), value);
      RephaseOk(reg, run, Loaded(s'.jobs[run.job].steps[KeyFor(a)]), seen', s');
    } else {
      BrokeOk(reg, run, Wrapped("save step", Plain("foreign key")), seen', s');
    }
  }

  lemma Inserted(s: State, job: JobId, key: string, value: Json)
    requires job in s.jobs && Legal(s, InsertStep(job, key, value))
    ensures var s' := Apply(s, InsertStep(job, key, value));
            s'.now == s.now && job in s'.jobs && s'.jobs[job] == InsertedEntry(s.jobs[job], key, value)
  {
  }

  // -------------------------------------------------- keyed checkpoints

  lemma KeyedStable(job: JobId, e: Entry, seen: map<JobId, Entry>, e': Entry, seen': map<JobId, Entry>)
    requires KeyedOk(job, e, seen) && SeenGrows(seen, seen') && e.mail <= e'.mail && e'.steps == e.steps
    ensures KeyedOk(job, e', seen')
  {
    forall path, name, i: nat | PathOk(path) && '/' !in name && StoredKey(path, SignalCall(name, i)) in e'.steps
      ensures IsDelivery(e'.mail, name, i, e'.steps[StoredKey(path, SignalCall(name, i))])
    {
      DeliveryStable(e.mail, e'.mail, name, i, e.steps[StoredKey(path, SignalCall(name, i))]);
    }
    forall path, name | PathOk(path) && '/' !in name && StoredKey(path, ChildCall(name)) in e'.steps
      ensures IsChildOf(e'.steps[StoredKey(path, ChildCall(name))], job, name, seen')
    {
      var child := e.steps[StoredKey(path, ChildCall(name))].id;
      assert IsChildOf(e.steps[StoredKey(path, ChildCall(name))], job, name, seen);
      assert Grows(seen[child], seen'[child]);
    }
  }

  /** An operation that is not a checkpoint write leaves the checkpoints alone. */
  lemma StepsKept(op: Op, now: Time, id: JobId, e: Entry)
    requires !op.SaveStep? && !op.InsertStep?
    ensures EntryAfter(op, now, id, e).steps == e.steps && e.mail <= EntryAfter(op, now, id, e).mail
  {
  }

  lemma KeyedKept(reg: Registry, s: State, op: Op, seen: map<JobId, Entry>)
    requires Inv(s) && Legal(s, op) && SeenOk(s, seen) && AllKeyedOk(reg, seen)
    requires !op.SaveStep? && !op.InsertStep? && Advances(s, seen, Apply(s, op), seen + Apply(s, op).jobs)
    ensures AllKeyedOk(reg, seen + Apply(s, op).jobs)
  {
    var s' := Apply(s, op);
    var seen' := seen + s'.jobs;
    forall j | j in seen' && JobWellNamed(reg, seen'[j])
      ensures KeyedOk(j, seen'[j], seen')
    {
      if j in s'.jobs {
        Surviving(s, op, j);
        if j in Born(s, op) {
          assert seen'[j].steps == map[];
        } else {
          StepsKept(op, s.now, j, s.jobs[j]);
          KeyedStable(j, s.jobs[j], seen, s'.jobs[j], seen');
        }
      } else {
        KeyedStable(j, seen[j], seen, seen[j], seen');
      }
    }
  }

  /** A run's own checkpoint is of the kind its key says, because no other call
      shares the key. */
  lemma InsertKeyed(a: Action, job: JobId, e: Entry, value: Json, seen: map<JobId, Entry>, seen': map<JobId, Entry>)
    requires Checkpointed(a) && PathOk(a.path) && CallOk(CallOf(a))
    requires KeyedOk(job, e, seen) && SeenGrows(seen, seen') && ProductOk(a, job, e, value, seen)
    ensures KeyedOk(job, InsertedEntry(e, KeyFor(a), value), seen')
  {
    var e' := InsertedEntry(e, KeyFor(a), value);
    KeyedStable(job, e, seen, e, seen');
    if KeyFor(a) !in e.steps {
      forall path, name, i: nat | PathOk(path) && '/' !in name && StoredKey(path, SignalCall(name, i)) in e'.steps
        ensures IsDelivery(e'.mail, name, i, e'.steps[StoredKey(path, SignalCall(name, i))])
      {
        KeysDoNotCollide(path, SignalCall(name, i), a.path, CallOf(a));
      }
      forall path, name | PathOk(path) && '/' !in name && StoredKey(path, ChildCall(name)) in e'.steps
        ensures IsChildOf(e'.steps[StoredKey(path, ChildCall(name))], job, name, seen')
      {
        KeysDoNotCollide(path, ChildCall(name), a.path, CallOf(a));
        if StoredKey(path, ChildCall(name)) == KeyFor(a) {
          assert Grows(seen[value.id], seen'[value.id]);
        }
      }
    }
  }

  lemma KeyedInsert(reg: Registry, s: State, run: Run, value: Json, seen: map<JobId, Entry>)
    requires Inv(s) && SeenOk(s, seen) && AllKeyedOk(reg, seen) && RunOk(reg, run, seen, s)
    requires run.phase == Owned(value) && Checkpointed(NextAction(reg, run))
    requires var op := InsertStep(run.job, KeyFor(NextAction(reg, run)), value);
             Legal(s, op) && Advances(s, seen, Apply(s, op), seen + Apply(s, op).jobs)
    ensures AllKeyedOk(reg, seen + Apply(s, InsertStep(run.job, KeyFor(NextAction(reg, run)), value)).jobs)
  {
    var a := NextAction(reg, run);
    var s' := Apply(s, InsertStep(run.job, KeyFor(a), value));
    var seen' := seen + s'.jobs;
    forall j | j in seen' && JobWellNamed(reg, seen'[j])
      ensures KeyedOk(j, seen'[j], seen')
    {
      if j == run.job && j in s.jobs {
        assert seen'[j] == InsertedEntry(s.jobs[j], KeyFor(a), value);
        assert PathOk(a.path) && CallOk(CallOf(a));
        InsertKeyed(a, j, s.jobs[j], value, seen, seen');
      } else {
        assert seen'[j] == seen[j];
        KeyedStable(j, seen[j], seen, seen[j], seen');
      }
    }
  }

  // ----------------------------------------------------------- parked jobs

  /** Only a suspension can bury a job under a nap: a signal brings its run_after
      to the present, and everything else leaves mailbox and nap as they are. */
  lemma NapKept(op: Op, now: Time, id: JobId, e: Entry, later: Time, nap: (string, nat))
    requires RowOk(e.row, now) && NapOk(e, now, nap) && now <= later && !op.Suspend?
    ensures NapOk(EntryAfter(op, now, id, e), later, nap)
  {
  }

  lemma ParkedKept(y: Sys, op: Op)
    requires Inv(y.store) && Legal(y.store, op) && SeenOk(y.store, y.seen) && ParkedOk(y) && !op.Suspend?
    ensures ParkedOk(Remember(y, Apply(y.store, op)))
  {
    var s' := Apply(y.store, op);
    forall j | j in y.parked && j in s'.jobs
      ensures NapOk(s'.jobs[j], s'.now, y.parked[j])
    {
      Surviving(y.store, op, j);
      NapKept(op, y.store.now, j, y.store.jobs[j], s'.now, y.parked[j]);
    }
  }

  /** The version a run was handed at its claim counts the mailbox, so a park that
      goes through finds the mailbox that the run has looked at. */
  lemma ParkIsCurrent(e: Entry, now: Time, worker: WorkerId, runAfter: Time, wake: int, nap: (string, nat))
    requires e.row.wakeVersion == |e.mail| && NapGuard(e.mail, wake, nap)
    requires Owns(e.row, worker) && e.row.wakeVersion == wake
    ensures NapOk(SuspendedEntry(e, worker, runAfter, wake, now), now, nap)
  {
  }

  lemma SuspendEntries(s: State, op: Op, j: JobId)
    requires op.Suspend? && j in Apply(s, op).jobs
    ensures j in s.jobs && Apply(s, op).now == s.now && Apply(s, op).issued == s.issued
    ensures Apply(s, op).jobs[j] ==
            if j == op.job then SuspendedEntry(s.jobs[j], op.worker, op.runAfter, op.wakeVersion, s.now) else s.jobs[j]
  {
  }

  lemma SuspendKept(y: Sys, run: Run, op: Op)
    requires op.Suspend? && op == Suspend(run.job, run.worker, op.runAfter, run.wake)
    requires (forall j | j in y.store.jobs :: y.store.jobs[j].row.wakeVersion == |y.store.jobs[j].mail|)
    requires SeenOk(y.store, y.seen) && ParkedOk(y) && run.phase.Ended? && run.job in y.store.issued
    requires run.phase.nap.Some? && run.job in y.store.jobs ==>
               NapGuard(y.store.jobs[run.job].mail, run.wake, run.phase.nap.value)
    ensures ParkedOk(Remember(y, Apply(y.store, op)).(parked := ParkedAfter(y, run, Some(op))))
  {
    var s' := Apply(y.store, op);
    var parked' := ParkedAfter(y, run, Some(op));
    forall j | j in parked' && j in s'.jobs
      ensures NapOk(s'.jobs[j], s'.now, parked'[j])
    {
      SuspendEntries(y.store, op, j);
      if j == run.job && Parks(y.store, run.job, run.worker, run.wake) {
        ParkIsCurrent(y.store.jobs[j], y.store.now, run.worker, op.runAfter, run.wake, parked'[j]);
      }
    }
  }

  // --------------------------------------------------------------- all steps

  lemma {:induction false} EmptyOk(reg: Registry)
    ensures SysInv(reg, EMPTY_SYS)
  {
  }

  lemma EnvKept(reg: Registry, y: Sys, op: Op)
    requires SysInv(reg, y) && Legal(y.store, op) && !op.SaveStep? && !op.InsertStep? && !op.Suspend?
    ensures SysInv(reg, Remember(y, Apply(y.store, op)))
  {
    var y' := Remember(y, Apply(y.store, op));
    OpAdvances(y.store, op, y.seen);
    forall r | 0 <= r < |y.runs|
      ensures RunOk(reg, y.runs[r], y'.seen, y'.store)
    {
      OthersKept(reg, y.runs[r], y.store, y.seen, y'.store, y'.seen);
    }
    KeyedKept(reg, y.store, op, y.seen);
    ParkedKept(y, op);
  }

  lemma NewRunOk(reg: Registry, s: State, seen: map<JobId, Entry>, job: JobId, worker: WorkerId)
    requires Inv(s) && SeenOk(s, seen) && job in s.jobs
    ensures RunOk(reg, NewRun(s, job, worker), seen, s)
  {
    assert EntryOk(s.jobs[job], s.now);
  }

  lemma NewRunsOk(reg: Registry, s: State, seen: map<JobId, Entry>, jobs: seq<JobId>, worker: WorkerId)
    requires Inv(s) && SeenOk(s, seen) && forall i | 0 <= i < |jobs| :: jobs[i] in s.jobs
    ensures forall i | 0 <= i < |jobs| :: RunOk(reg, NewRuns(s, jobs, worker)[i], seen, s)
  {
    forall i | 0 <= i < |jobs|
      ensures RunOk(reg, NewRuns(s, jobs, worker)[i], seen, s)
    {
      NewRunOk(reg, s, seen, jobs[i], worker);
    }
  }

  lemma StartKept(reg: Registry, y: Sys, l: Label)
    requires SysInv(reg, y) && l.Start? && LegalLabel(reg, y, l)
    ensures SysInv(reg, Next(reg, y, l))
  {
    EnvKept(reg, y, l.claim);
    var mid := Remember(y, Apply(y.store, l.claim));
    StartedOk(reg, y, mid, l);
  }

  lemma StartedOk(reg: Registry, y: Sys, mid: Sys, l: Label)
    requires l.Start? && LegalLabel(reg, y, l)
    requires SysInv(reg, mid) && mid == Remember(y, Apply(y.store, l.claim))
    ensures SysInv(reg, Next(reg, y, l))
  {
    assert forall i | 0 <= i < |l.jobs| :: l.jobs[i] in l.claim.picked;
    NewRunsOk(reg, mid.store, mid.seen, l.jobs, l.claim.worker);
    var begun := NewRuns(mid.store, l.jobs, l.claim.worker);
    assert Next(reg, y, l) == mid.(runs := mid.runs + begun);
  }

  /** The writes of a run: an enqueue for a child, its own checkpoint, or one
      terminal write. */
  lemma WriteKinds(reg: Registry, s: State, run: Run, c: Choice)
    requires StepRun(reg, s, run, c).0.Some?
    ensures var op := StepRun(reg, s, run, c).0.value;
            && !op.SaveStep? && !op.Claim?
            && (op.InsertStep? ==> run.phase.Owned? && Checkpointed(NextAction(reg, run))
                                   && op == InsertStep(run.job, KeyFor(NextAction(reg, run)), run.phase.value))
            && (op.Suspend? ==> run.phase.Ended? && op == Suspend(run.job, run.worker, op.runAfter, run.wake))
  {
  }

  /** What a write of a run does to the rest of the system. */
  lemma WriteKept(reg: Registry, y: Sys, run: Run, op: Op)
    requires SysInv(reg, y) && Legal(y.store, op) && RunOk(reg, run, y.seen, y.store)
    requires !op.SaveStep?
    requires op.InsertStep? ==> run.phase.Owned? && Checkpointed(NextAction(reg, run))
                                && op == InsertStep(run.job, KeyFor(NextAction(reg, run)), run.phase.value)
    requires op.Suspend? ==> run.phase.Ended? && op == Suspend(run.job, run.worker, op.runAfter, run.wake)
    ensures var y' := Remember(y, Apply(y.store, op)).(parked := ParkedAfter(y, run, Some(op)));
            Inv(y'.store) && Advances(y.store, y.seen, y'.store, y'.seen) && AllKeyedOk(reg, y'.seen) && ParkedOk(y')
  {
    OpAdvances(y.store, op, y.seen);
    if op.InsertStep? {
      KeyedInsert(reg, y.store, run, run.phase.value, y.seen);
    } else {
      KeyedKept(reg, y.store, op, y.seen);
    }
    WriteParked(reg, y, run, op);
  }

  lemma WriteParked(reg: Registry, y: Sys, run: Run, op: Op)
    requires Inv(y.store) && Legal(y.store, op) && SeenOk(y.store, y.seen) && ParkedOk(y)
    requires RunOk(reg, run, y.seen, y.store)
    requires op.Suspend? ==> run.phase.Ended? && op == Suspend(run.job, run.worker, op.runAfter, run.wake)
    ensures ParkedOk(Remember(y, Apply(y.store, op)).(parked := ParkedAfter(y, run, Some(op))))
  {
    if op.Suspend? {
      WakeCounts(y.store);
      GuardOfNap(reg, y.store, run, y.seen);
      SuspendKept(y, run, op);
    } else {
      ParkedKept(y, op);
    }
  }

  lemma GuardOfNap(reg: Registry, s: State, run: Run, seen: map<JobId, Entry>)
    requires SeenOk(s, seen) && RunOk(reg, run, seen, s) && run.phase.Ended?
    ensures run.job in s.issued
    ensures run.phase.nap.Some? && run.job in s.jobs ==>
              NapGuard(s.jobs[run.job].mail, run.wake, run.phase.nap.value)
  {
  }

  lemma WakeCounts(s: State)
    requires Inv(s)
    ensures forall j | j in s.jobs :: s.jobs[j].row.wakeVersion == |s.jobs[j].mail|
  {
    forall j | j in s.jobs
      ensures s.jobs[j].row.wakeVersion == |s.jobs[j].mail|
    {
      assert EntryOk(s.jobs[j], s.now);
    }
  }

  lemma MoveKept(reg: Registry, y: Sys, r: nat, c: Choice)
    requires SysInv(reg, y) && LegalLabel(reg, y, Move(r, c))
    ensures SysInv(reg, Next(reg, y, Move(r, c)))
  {
    var y' := Next(reg, y, Move(r, c));
    if WriteOf(reg, y, r, c).Some? {
      WriteKinds(reg, y.store, y.runs[r], c);
      WriteKept(reg, y, y.runs[r], WriteOf(reg, y, r, c).value);
    } else {
      NothingAdvances(y.store, y.seen);
    }
    forall i | 0 <= i < |y'.runs|
      ensures RunOk(reg, y'.runs[i], y'.seen, y'.store)
    {
      if i == r {
        MoverKept(reg, y.store, y.runs[r], c, y.seen, y'.store, y'.seen);
      } else {
        OthersKept(reg, y.runs[i], y.store, y.seen, y'.store, y'.seen);
      }
    }
  }

  lemma NextKept(reg: Registry, y: Sys, l: Label)
    requires SysInv(reg, y) && LegalLabel(reg, y, l)
    ensures SysInv(reg, Next(reg, y, l))
  {
    match l
    case Env(op) => EnvKept(reg, y, op);
    case Start(_, _) => StartKept(reg, y, l);
    case Move(r, c) => MoveKept(reg, y, r, c);
    case Crash(r) => RephaseOk(reg, y.runs[r], Gone, y.seen, y.store);
  }

  /** Every system state that any interleaving reaches is in order. */
  lemma {:induction false} AlwaysInv(reg: Registry, y: Sys, ls: seq<Label>)
    requires SysInv(reg, y) && LegalTrace(reg, y, ls)
    ensures SysInv(reg, Trace(reg, y, ls))
    decreases |ls|
  {
    if ls != [] {
      NextKept(reg, y, ls[0]);
      AlwaysInv(reg, Next(reg, y, ls[0]), ls[1..]);
    }
  }
}
