/** The lease fence in the whole system. A run that has lost the lease cannot write to
    its job any more, with one exception: SaveStep takes no lock between its ownership
    check and its insert, so a run that is past the check lands that one checkpoint. */
module FencedRuns {
  import opened Values
  import opened Jobs
  import opened StoreModel
  import opened StoreInvariant
  import opened StoreHistory
  import opened Runtime
  import opened RuntimeInvariant
  import opened RuntimeSystem
  import opened Guarantees

  /** A run that does not hold the lease of its job. */
  predicate Fenced(s: State, run: Run) {
    NotHeldBy(s, run.job, run.worker)
  }

  /** Row, checkpoints and mailbox are the same. The log may differ: an enqueue under a
      used key is noted with the job that has the key. */
  predicate Untouched(e: Entry, e': Entry) {
    e'.row == e.row && e'.steps == e.steps && e'.mail == e.mail
  }

  // --------------------------------------------------------- one step of the run

  lemma EnqueueTouchesNothing(op: Op, now: Time, id: JobId, e: Entry)
    requires op.Enqueue?
    ensures Untouched(e, EntryAfter(op, now, id, e))
  {
  }

  lemma RefusedTerminal(run: Run, outcome: Outcome, now: Time, e: Entry)
    requires e.row.leaseOwner != Some(run.worker)
    ensures EntryAfter(TerminalWrite(run, outcome), now, run.job, e) == e
  {
  }

  /** The writes of a run, by what they do to its own job. */
  predicate FencedWrite(run: Run, a: Action, op: Op) {
    || op.Enqueue?
    || (run.phase.Ended? && op == TerminalWrite(run, run.phase.outcome))
    || (run.phase.Owned? && Checkpointed(a) && op == InsertStep(run.job, KeyFor(a), run.phase.value))
  }

  lemma CallWrites(s: State, run: Run, a: Action, c: Choice)
    requires Checkpointed(a) && !run.phase.Ended?
    ensures var write := StepCheckpointed(s, run, a, c).0; write.Some? ==> FencedWrite(run, a, write.value)
  {
  }

  /** The same run, and not past an ownership check. */
  predicate Unchecked(run: Run, run': Run) {
    run'.job == run.job && run'.worker == run.worker && !run'.phase.Owned?
  }

  lemma BodyStays(s: State, run: Run, a: Action, c: Choice)
    requires Checkpointed(a) && !run.phase.Owned?
    ensures Unchecked(run, RunBody(s, run, a, c).1)
  {
  }

  lemma UseStays(s: State, run: Run, a: Action, value: Json)
    requires Checkpointed(a)
    ensures Unchecked(run, UseCheckpoint(s, run, a, value))
  {
  }

  lemma CallStays(s: State, run: Run, a: Action, c: Choice)
    requires Checkpointed(a) && !OwnsJob(s, run.job, run.worker)
    ensures Unchecked(run, StepCheckpointed(s, run, a, c).1)
  {
    match run.phase
    case Missed => BodyStays(s, run, a, c);
    case Loaded(value) => UseStays(s, run, a, value);
    case _ =>
  }

  /** What a fenced run can do: it gets past no ownership check any more. */
  lemma FencedStep(reg: Registry, s: State, run: Run, c: Choice)
    requires Fenced(s, run) && (run.phase.Owned? ==> Checkpointed(NextAction(reg, run)))
    ensures var (write, run') := StepRun(reg, s, run, c);
            && (write.Some? ==> FencedWrite(run, NextAction(reg, run), write.value))
            && run'.job == run.job && run'.worker == run.worker && !run'.phase.Owned?
  {
    var a := NextAction(reg, run);
    if Checkpointed(a) && !run.phase.Ended? {
      CallWrites(s, run, a, c);
      CallStays(s, run, a, c);
    }
  }

  /** And what its write does to the job: nothing, or it lands the one checkpoint that
      had been checked. */
  lemma FencedEffect(s: State, run: Run, a: Action, op: Op)
    requires Fenced(s, run) && FencedWrite(run, a, op) && Legal(s, op) && run.job in s.issued && run.job in Apply(s, op).jobs
    ensures run.job in s.jobs
    ensures var e, e' := s.jobs[run.job], Apply(s, op).jobs[run.job];
            if run.phase.Owned? && op.InsertStep? then e' == InsertedEntry(e, KeyFor(a), run.phase.value) else Untouched(e, e')
  {
    StillThere(s, op, run.job);
    RowsAfter(s, op, run.job);
    if op.Enqueue? {
      EnqueueTouchesNothing(op, s.now, run.job, s.jobs[run.job]);
    } else if run.phase.Ended? {
      RefusedTerminal(run, run.phase.outcome, s.now, s.jobs[run.job]);
    }
  }

  // ------------------------------------------------------------ whole traces

  /** No claim hands the job to the worker. */
  predicate NotHanded(l: Label, job: JobId, worker: WorkerId) {
    l.Start? ==> !ClaimsFor(l.claim, job, worker)
  }

  /** A step of run `r` that does change its own job. */
  ghost predicate Touches(reg: Registry, y: Sys, r: nat, l: Label)
    requires LegalLabel(reg, y, l) && r < |y.runs|
  {
    var job, s, s' := y.runs[r].job, y.store, Next(reg, y, l).store;
    l.Move? && l.r == r && job in s.jobs && job in s'.jobs && !Untouched(s.jobs[job], s'.jobs[job])
  }

  lemma RunsStay(reg: Registry, y: Sys, l: Label)
    requires LegalLabel(reg, y, l)
    ensures |y.runs| <= |Next(reg, y, l).runs|
  {
  }

  /** How many steps of run `r` along a trace do. */
  ghost function TouchCount(reg: Registry, y: Sys, r: nat, ls: seq<Label>): nat
    requires LegalTrace(reg, y, ls) && r < |y.runs|
    decreases |ls|
  {
    if ls == [] then 0
    else
      RunsStay(reg, y, ls[0]);
      (if Touches(reg, y, r, ls[0]) then 1 else 0) + TouchCount(reg, Next(reg, y, ls[0]), r, ls[1..])
  }

  /** A store operation that is no such claim leaves the run fenced. */
  lemma StaysFenced(reg: Registry, y: Sys, l: Label, run: Run)
    requires LegalLabel(reg, y, l) && Fenced(y.store, run) && NotHanded(l, run.job, run.worker)
    ensures Fenced(Next(reg, y, l).store, run)
  {
    StoreOfNext(reg, y, l);
    var op := OpOf(reg, y, l);
    if op.Some? {
      if l.Move? { WriteKinds(reg, y.store, y.runs[l.r], l.c); }
      UnheldStep(y.store, op.value, run.job, run.worker);
    }
  }

  /** One label of the trace, seen from run `r`. */
  lemma OneLabel(reg: Registry, y: Sys, r: nat, l: Label)
    requires SysInv(reg, y) && LegalLabel(reg, y, l) && r < |y.runs| && Fenced(y.store, y.runs[r])
    requires NotHanded(l, y.runs[r].job, y.runs[r].worker)
    ensures var run := y.runs[r];
            var run' := Next(reg, y, l).runs[r];
            && r < |Next(reg, y, l).runs| && run'.job == run.job && run'.worker == run.worker
            && Fenced(Next(reg, y, l).store, run')
            && (run'.phase.Owned? ==> run.phase.Owned? && !Touches(reg, y, r, l))
            && (Touches(reg, y, r, l) ==> run.phase.Owned?)
  {
    var run := y.runs[r];
    assert RunOk(reg, run, y.seen, y.store);
    StaysFenced(reg, y, l, run);
    if l.Move? && l.r == r {
      FencedStep(reg, y.store, run, l.c);
      var write := StepRun(reg, y.store, run, l.c).0;
      if write.Some? && run.job in Next(reg, y, l).store.jobs {
        FencedEffect(y.store, run, NextAction(reg, run), write.value);
      }
    }
  }

  /** Once a run has lost the lease, and until a claim hands its worker the job again,
      none of its steps changes the job's row, checkpoints or mailbox; except that, if it
      was past the ownership check of SaveStep when it lost the lease, at most one does. */
  lemma {:induction false} LostLease(reg: Registry, y: Sys, r: nat, ls: seq<Label>)
    requires SysInv(reg, y) && LegalTrace(reg, y, ls) && r < |y.runs| && Fenced(y.store, y.runs[r])
    requires forall l | l in ls :: NotHanded(l, y.runs[r].job, y.runs[r].worker)
    ensures TouchCount(reg, y, r, ls) <= if y.runs[r].phase.Owned? then 1 else 0
    decreases |ls|
  {
    if ls != [] {
      OneLabel(reg, y, r, ls[0]);
      NextKept(reg, y, ls[0]);
      LostLease(reg, Next(reg, y, ls[0]), r, ls[1..]);
    }
  }

  /** What that one step does: it inserts the checkpoint that was checked, if its key is
      still free. */
  lemma LateCheckpoint(reg: Registry, y: Sys, r: nat, c: Choice)
    requires SysInv(reg, y) && r < |y.runs| && Fenced(y.store, y.runs[r]) && LegalLabel(reg, y, Move(r, c))
    requires Touches(reg, y, r, Move(r, c))
    ensures var run := y.runs[r];
            && run.phase.Owned? && Checkpointed(NextAction(reg, run))
            && KeyFor(NextAction(reg, run)) !in y.store.jobs[run.job].steps
            && Next(reg, y, Move(r, c)).store.jobs[run.job]
               == InsertedEntry(y.store.jobs[run.job], KeyFor(NextAction(reg, run)), run.phase.value)
  {
    var run := y.runs[r];
    assert RunOk(reg, run, y.seen, y.store);
    FencedStep(reg, y.store, run, c);
    FencedEffect(y.store, run, NextAction(reg, run), StepRun(reg, y.store, run, c).0.value);
  }

  // ------------------------------------------------------------- the window

  lemma Check(reg: Registry, y: Sys, r: nat) returns (y': Sys)
    requires r < |y.runs| && y.runs[r].phase.Produced? && Checkpointed(NextAction(reg, y.runs[r]))
    requires OwnsJob(y.store, y.runs[r].job, y.runs[r].worker)
    ensures LegalLabel(reg, y, Move(r, Go)) && y' == Next(reg, y, Move(r, Go)) && y'.store == y.store
    ensures y'.runs == y.runs[r := y.runs[r].(phase := Owned(y.runs[r].phase.value))]
  {
    var run := y.runs[r];
    assert StepRun(reg, y.store, run, Go) == (None, run.(phase := Owned(run.phase.value)));
    y' := Next(reg, y, Move(r, Go));
  }

  lemma CancelNow(s: State, job: JobId)
    requires job in s.jobs && !Terminal(s.jobs[job].row.status)
    ensures var s' := Apply(s, Cancel(job));
            && job in s'.jobs && s'.jobs[job].row.status == Canceled && s'.jobs[job].row.leaseOwner == None
            && s'.jobs[job].steps == s.jobs[job].steps
  {
  }

  lemma Land(reg: Registry, y: Sys, r: nat) returns (y': Sys)
    requires r < |y.runs| && y.runs[r].phase.Owned? && Checkpointed(NextAction(reg, y.runs[r])) && y.runs[r].job in y.store.jobs
    ensures LegalLabel(reg, y, Move(r, Go)) && y' == Next(reg, y, Move(r, Go))
    ensures var run := y.runs[r];
            run.job in y'.store.jobs
            && y'.store.jobs[run.job] == InsertedEntry(y.store.jobs[run.job], KeyFor(NextAction(reg, run)), run.phase.value)
  {
    var run := y.runs[r];
    Inserted(y.store, run.job, KeyFor(NextAction(reg, run)), run.phase.value);
    y' := Next(reg, y, Move(r, Go));
  }

  lemma CancelLabel(reg: Registry, y: Sys, job: JobId) returns (y': Sys)
    requires job in y.store.jobs && !Terminal(y.store.jobs[job].row.status)
    ensures LegalLabel(reg, y, Env(Cancel(job))) && y' == Next(reg, y, Env(Cancel(job))) && y'.runs == y.runs
    ensures job in y'.store.jobs && y'.store.jobs[job].row.status == Canceled && y'.store.jobs[job].row.leaseOwner == None
    ensures y'.store.jobs[job].steps == y.store.jobs[job].steps
  {
    CancelNow(y.store, job);
    y' := Next(reg, y, Env(Cancel(job)));
  }

  lemma TwoLabels(reg: Registry, y: Sys, k: Label, l: Label)
    requires LegalLabel(reg, y, k) && LegalLabel(reg, Next(reg, y, k), l)
    ensures LegalTrace(reg, y, [k, l]) && Trace(reg, y, [k, l]) == Next(reg, Next(reg, y, k), l)
  {
    var ls, mid := [k, l], Next(reg, y, k);
    assert ls[1..] == [l] && [l][1..] == [];
    assert LegalTrace(reg, Next(reg, mid, l), []) && Trace(reg, Next(reg, mid, l), []) == Next(reg, mid, l);
    assert LegalTrace(reg, mid, ls[1..]) && Trace(reg, mid, ls[1..]) == Next(reg, mid, l);
  }

  /** The window is real. From every state in which a run that holds the lease is about
      to save a step, three steps lead on to this: the run's check, an operator's cancel,
      the run's insert. The job is canceled, leased to nobody, and has one checkpoint more
      than when it was canceled. */
  lemma CanceledJobGetsACheckpoint(reg: Registry, y: Sys, r: nat) returns (canceled: Sys, last: Sys)
    requires r < |y.runs| && y.runs[r].phase.Produced? && Checkpointed(NextAction(reg, y.runs[r]))
    requires OwnsJob(y.store, y.runs[r].job, y.runs[r].worker)
    requires KeyFor(NextAction(reg, y.runs[r])) !in y.store.jobs[y.runs[r].job].steps
    ensures var ls := [Move(r, Go), Env(Cancel(y.runs[r].job))];
            && LegalTrace(reg, y, ls) && Trace(reg, y, ls) == canceled
            && LegalLabel(reg, canceled, Move(r, Go)) && Next(reg, canceled, Move(r, Go)) == last
    ensures var job := y.runs[r].job;
            && job in canceled.store.jobs && job in last.store.jobs && r < |canceled.runs|
            && canceled.store.jobs[job].row.status == Canceled && Fenced(canceled.store, canceled.runs[r])
            && last.store.jobs[job].row == canceled.store.jobs[job].row
            && last.store.jobs[job].steps != canceled.store.jobs[job].steps
  {
    var run := y.runs[r];
    var checked := Check(reg, y, r);
    canceled := CancelLabel(reg, checked, run.job);
    TwoLabels(reg, y, Move(r, Go), Env(Cancel(run.job)));
    last := Land(reg, canceled, r);
    assert KeyFor(NextAction(reg, run)) in last.store.jobs[run.job].steps;
  }
}
