/** What the runtime promises, for every deterministic, error-propagating
    workflow and every interleaving of runs, crashes, signals, cancellations,
    lease steals, retries and pruning. */
module Guarantees {
  import opened Values
  import opened Faults
  import opened Jobs
  import opened StoreModel
  import opened StoreInvariant
  import opened Keys
  import opened Runtime
  import opened RuntimeInvariant
  import opened RuntimeSystem

  ghost predicate Comparable<T(!new)>(a: seq<T>, b: seq<T>) {
    a <= b || b <= a
  }

  /** The states that some legal interleaving reaches from the empty system, whatever
      the workflows do and however they name their steps. */
  ghost predicate Reachable(reg: Registry, y: Sys) {
    exists ls :: LegalTrace(reg, EMPTY_SYS, ls) && Trace(reg, EMPTY_SYS, ls) == y
  }

  lemma ReachableOk(reg: Registry, y: Sys)
    requires Reachable(reg, y)
    ensures SysInv(reg, y)
  {
    var ls :| LegalTrace(reg, EMPTY_SYS, ls) && Trace(reg, EMPTY_SYS, ls) == y;
    EmptyOk(reg);
    AlwaysInv(reg, EMPTY_SYS, ls);
  }

  /** The action a run took to make its i-th observation. */
  ghost function ActionAt(reg: Registry, run: Run, i: nat): Action
    requires i < |run.obs|
  {
    reg(run.kind, run.payload, Seen(run.obs[..i]))
  }

  // -------------------------------------------------------- replay agreement

  /** A matching observation is determined by the action and the store's history. */
  lemma ObsDetermined(a: Action, o: Obs, p: Obs, e: Entry, seen: map<JobId, Entry>, now: Time)
    requires ObsMatches(a, o, e, seen, now) && ObsMatches(a, p, e, seen, now)
    ensures o == p
  {
  }

  /** With equal observations behind them, two runs make the same next one. */
  lemma AgreeNext(reg: Registry, q: Run, r: Run, seen: map<JobId, Entry>, s: State, before: seq<Obs>, n: nat)
    requires RunOk(reg, q, seen, s) && RunOk(reg, r, seen, s) && q.job == r.job
    requires n < |q.obs| && n < |r.obs| && q.obs[..n] == before && r.obs[..n] == before
    ensures q.obs[n] == r.obs[n]
  {
    var a := reg(q.kind, q.payload, Seen(before));
    assert ObsMatches(a, q.obs[n], seen[q.job], seen, s.now);
    assert ObsMatches(a, r.obs[n], seen[q.job], seen, s.now);
    ObsDetermined(a, q.obs[n], r.obs[n], seen[q.job], seen, s.now);
  }

  lemma OneLonger(a: seq<Obs>, b: seq<Obs>, n: nat)
    requires n < |a| && n < |b| && a[..n] == b[..n] && a[n] == b[n]
    ensures a[..n + 1] == b[..n + 1]
  {
    assert a[..n + 1] == a[..n] + [a[n]] && b[..n + 1] == b[..n] + [b[n]];
  }

  lemma {:induction false} AgreeUpTo(reg: Registry, q: Run, r: Run, seen: map<JobId, Entry>, s: State, n: nat)
    requires RunOk(reg, q, seen, s) && RunOk(reg, r, seen, s) && q.job == r.job
    requires n <= |q.obs| && n <= |r.obs|
    ensures q.obs[..n] == r.obs[..n]
  {
    if n > 0 {
      AgreeUpTo(reg, q, r, seen, s, n - 1);
      AgreeNext(reg, q, r, seen, s, q.obs[..n - 1], n - 1);
      OneLonger(q.obs, r.obs, n - 1);
    }
  }

  /** Any two runs of one job have observed the same checkpoints, children and
      timers, as far as both have come. */
  lemma ReplayAgreement(reg: Registry, y: Sys, q: nat, r: nat)
    requires Reachable(reg, y)
    requires q < |y.runs| && r < |y.runs| && y.runs[q].job == y.runs[r].job
    ensures Comparable(y.runs[q].obs, y.runs[r].obs)
  {
    ReachableOk(reg, y);
    var a, b := y.runs[q].obs, y.runs[r].obs;
    var n := if |a| <= |b| then |a| else |b|;
    AgreeUpTo(reg, y.runs[q], y.runs[r], y.seen, y.store, n);
    assert a[..n] == a || b[..n] == b;
  }

  /** Two runs of one job that come to the end return the same result. */
  lemma SameResult(reg: Registry, y: Sys, q: nat, r: nat)
    requires Reachable(reg, y)
    requires q < |y.runs| && r < |y.runs| && y.runs[q].job == y.runs[r].job
    requires NextAction(reg, y.runs[q]).Return? && NextAction(reg, y.runs[r]).Return?
    ensures NextAction(reg, y.runs[q]) == NextAction(reg, y.runs[r])
  {
    ReachableOk(reg, y);
    EndsMeet(reg, y.runs[q], y.runs[r], y.seen, y.store);
  }

  /** A run that has reached its end is not a proper prefix of any other. */
  lemma EndsMeet(reg: Registry, q: Run, r: Run, seen: map<JobId, Entry>, s: State)
    requires RunOk(reg, q, seen, s) && RunOk(reg, r, seen, s) && q.job == r.job
    requires NextAction(reg, q).Return? && NextAction(reg, r).Return?
    ensures q.obs == r.obs && NextAction(reg, q) == NextAction(reg, r)
  {
    var n := if |q.obs| <= |r.obs| then |q.obs| else |r.obs|;
    AgreeUpTo(reg, q, r, seen, s, n);
    assert q.obs[..|q.obs|] == q.obs && r.obs[..|r.obs|] == r.obs;
    if n < |r.obs| { GoesOn(reg, r, seen, s, n); }
    if n < |q.obs| { GoesOn(reg, q, seen, s, n); }
  }

  lemma GoesOn(reg: Registry, run: Run, seen: map<JobId, Entry>, s: State, n: nat)
    requires RunOk(reg, run, seen, s) && n < |run.obs|
    ensures !ActionAt(reg, run, n).Return?
  {
    assert ObsMatches(ActionAt(reg, run, n), run.obs[n], seen[run.job], seen, s.now);
  }

  // ------------------------------------------------------------- the result

  /** Run `r` is done, and computed the result that its job has. */
  ghost predicate Computed(reg: Registry, y: Sys, j: JobId, r: nat)
    requires j in y.seen
  {
    && r < |y.runs| && y.runs[r].job == j && y.runs[r].phase.Gone?
    && NextAction(reg, y.runs[r]).Return?
    && y.seen[j].row.result == Some(OrEmpty(NextAction(reg, y.runs[r]).result))
  }

  ghost predicate ResultsComputed(reg: Registry, y: Sys) {
    forall j | j in y.seen && y.seen[j].row.status == Succeeded :: exists r: nat :: Computed(reg, y, j, r)
  }

  lemma BecomesSucceeded(op: Op, now: Time, id: JobId, e: Entry)
    requires e.row.status != Succeeded && EntryAfter(op, now, id, e).row.status == Succeeded
    ensures op.Complete? && op.job == id && EntryAfter(op, now, id, e).row.result == Some(OrEmpty(op.result))
  {
  }

  /** The store operation of a label, if it has one. */
  ghost function OpOf(reg: Registry, y: Sys, l: Label): Option<Op>
    requires LegalLabel(reg, y, l)
  {
    match l
    case Env(op) => Some(op)
    case Start(claim, _) => Some(claim)
    case Move(r, c) => WriteOf(reg, y, r, c)
    case Crash(_) => None
  }

  lemma StoreOfNext(reg: Registry, y: Sys, l: Label)
    requires LegalLabel(reg, y, l)
    ensures Next(reg, y, l).store == StoreAfter(y.store, OpOf(reg, y, l))
    ensures l.Crash? || Next(reg, y, l).seen == y.seen + Next(reg, y, l).store.jobs
    ensures l.Crash? ==> Next(reg, y, l).seen == y.seen
    ensures OpOf(reg, y, l).Some? ==> Legal(y.store, OpOf(reg, y, l).value)
  {
  }

  /** Runs that are done stay as they are. */
  lemma GoneStays(reg: Registry, y: Sys, l: Label, r: nat)
    requires LegalLabel(reg, y, l) && r < |y.runs| && y.runs[r].phase.Gone?
    ensures r < |Next(reg, y, l).runs| && Next(reg, y, l).runs[r] == y.runs[r]
  {
  }

  /** A completion is made by a run that has computed the result. */
  lemma Completes(reg: Registry, y: Sys, l: Label, op: Op)
    requires SysInv(reg, y) && LegalLabel(reg, y, l) && OpOf(reg, y, l) == Some(op) && op.Complete?
    ensures l.Move? && l.r < |Next(reg, y, l).runs|
    ensures var run := Next(reg, y, l).runs[l.r];
            run.job == op.job && run.phase.Gone? && NextAction(reg, run) == Return(op.result)
  {
    assert RunOk(reg, y.runs[l.r], y.seen, y.store);
  }

  lemma ResultsStep(reg: Registry, y: Sys, l: Label, j: JobId)
    requires SysInv(reg, y) && LegalLabel(reg, y, l) && ResultsComputed(reg, y)
    requires var y' := Next(reg, y, l); j in y'.seen && y'.seen[j].row.status == Succeeded
    ensures exists r: nat :: Computed(reg, Next(reg, y, l), j, r)
  {
    if j in y.seen && y.seen[j].row.status == Succeeded {
      ResultKept(reg, y, l, j);
    } else {
      NewResult(reg, y, l, j);
    }
  }

  lemma ResultKept(reg: Registry, y: Sys, l: Label, j: JobId)
    requires SysInv(reg, y) && LegalLabel(reg, y, l) && ResultsComputed(reg, y)
    requires j in y.seen && y.seen[j].row.status == Succeeded && j in Next(reg, y, l).seen
    ensures exists r: nat :: Computed(reg, Next(reg, y, l), j, r)
  {
    StepGrows(reg, y, l);
    assert Grows(y.seen[j], Next(reg, y, l).seen[j]);
    var r: nat :| Computed(reg, y, j, r);
    GoneStays(reg, y, l, r);
    assert Computed(reg, Next(reg, y, l), j, r);
  }

  lemma NewResult(reg: Registry, y: Sys, l: Label, j: JobId)
    requires SysInv(reg, y) && LegalLabel(reg, y, l) && !(j in y.seen && y.seen[j].row.status == Succeeded)
    requires j in Next(reg, y, l).seen && Next(reg, y, l).seen[j].row.status == Succeeded
    ensures exists r: nat :: Computed(reg, Next(reg, y, l), j, r)
  {
    StoreOfNext(reg, y, l);
    var op := OpOf(reg, y, l).value;
    NewlySucceeded(y.store, op, y.seen, j);
    Completes(reg, y, l, op);
    assert Computed(reg, Next(reg, y, l), j, l.r);
  }

  lemma NewlySucceeded(s: State, op: Op, seen: map<JobId, Entry>, j: JobId)
    requires Inv(s) && Legal(s, op) && SeenOk(s, seen) && !(j in seen && seen[j].row.status == Succeeded)
    requires var seen' := seen + Apply(s, op).jobs; j in seen' && seen'[j].row.status == Succeeded
    ensures op.Complete? && op.job == j && (seen + Apply(s, op).jobs)[j].row.result == Some(OrEmpty(op.result))
  {
    Surviving(s, op, j);
    if j !in Born(s, op) {
      BecomesSucceeded(op, s.now, j, s.jobs[j]);
    }
  }

  lemma {:induction false} ResultsAlways(reg: Registry, y: Sys, ls: seq<Label>)
    requires SysInv(reg, y) && LegalTrace(reg, y, ls) && ResultsComputed(reg, y)
    ensures ResultsComputed(reg, Trace(reg, y, ls))
    decreases |ls|
  {
    if ls != [] {
      var next := Next(reg, y, ls[0]);
      NextKept(reg, y, ls[0]);
      forall j | j in next.seen && next.seen[j].row.status == Succeeded
        ensures exists r: nat :: Computed(reg, next, j, r)
      {
        ResultsStep(reg, y, ls[0], j);
      }
      ResultsAlways(reg, next, ls[1..]);
    }
  }

  /** The result of a succeeded job is the one that every run of it that comes to
      the end computes, whichever run won the race to complete it. */
  lemma ResultIsDetermined(reg: Registry, y: Sys, j: JobId, r: nat)
    requires Reachable(reg, y) && j in y.store.jobs && y.store.jobs[j].row.status == Succeeded
    requires r < |y.runs| && y.runs[r].job == j && NextAction(reg, y.runs[r]).Return?
    ensures y.store.jobs[j].row.result == Some(OrEmpty(NextAction(reg, y.runs[r]).result))
  {
    ReachableOk(reg, y);
    ReachableResults(reg, y);
    assert y.seen[j] == y.store.jobs[j];
    ComputedAgrees(reg, y, j, r);
  }

  lemma ComputedAgrees(reg: Registry, y: Sys, j: JobId, r: nat)
    requires RunsOk(reg, y) && j in y.seen && (exists q: nat :: Computed(reg, y, j, q))
    requires r < |y.runs| && y.runs[r].job == j && NextAction(reg, y.runs[r]).Return?
    ensures y.seen[j].row.result == Some(OrEmpty(NextAction(reg, y.runs[r]).result))
  {
    var q: nat :| Computed(reg, y, j, q);
    EndsMeet(reg, y.runs[q], y.runs[r], y.seen, y.store);
  }

  lemma ReachableResults(reg: Registry, y: Sys)
    requires Reachable(reg, y)
    ensures ResultsComputed(reg, y)
  {
    var ls :| LegalTrace(reg, EMPTY_SYS, ls) && Trace(reg, EMPTY_SYS, ls) == y;
    EmptyOk(reg);
    assert ResultsComputed(reg, EMPTY_SYS);
    ResultsAlways(reg, EMPTY_SYS, ls);
  }

  // ------------------------------------------------------------ one trace on

  lemma {:induction false} TraceGrows(reg: Registry, y: Sys, ls: seq<Label>)
    requires SysInv(reg, y) && LegalTrace(reg, y, ls)
    ensures SeenGrows(y.seen, Trace(reg, y, ls).seen)
    decreases |ls|
  {
    if ls != [] {
      var next := Next(reg, y, ls[0]);
      NextKept(reg, y, ls[0]);
      StepGrows(reg, y, ls[0]);
      TraceGrows(reg, next, ls[1..]);
      var last := Trace(reg, next, ls[1..]);
      forall j | j in y.seen
        ensures j in last.seen && Grows(y.seen[j], last.seen[j])
      {
        GrowsTransitive(y.seen[j], next.seen[j], last.seen[j]);
      }
    } else {
      assert forall j | j in y.seen :: Grows(y.seen[j], y.seen[j]);
    }
  }

  lemma StepGrows(reg: Registry, y: Sys, l: Label)
    requires SysInv(reg, y) && LegalLabel(reg, y, l)
    ensures SeenGrows(y.seen, Next(reg, y, l).seen)
  {
    match l
    case Env(op) => OpAdvances(y.store, op, y.seen);
    case Start(claim, _) => OpAdvances(y.store, claim, y.seen);
    case Move(r, c) =>
      if WriteOf(reg, y, r, c).Some? {
        OpAdvances(y.store, WriteOf(reg, y, r, c).value, y.seen);
      } else {
        NothingAdvances(y.store, y.seen);
        assert forall j | j in y.seen :: Grows(y.seen[j], y.seen[j]);
      }
    case Crash(_) => assert forall j | j in y.seen :: Grows(y.seen[j], y.seen[j]);
  }

  /** The value that a step returned in any run is the one value ever stored under
      its key: it is what the store holds then and from then on. */
  lemma CheckpointsAreFinal(reg: Registry, y: Sys, more: seq<Label>, r: nat, i: nat)
    requires Reachable(reg, y) && LegalTrace(reg, y, more)
    requires r < |y.runs| && i < |y.runs[r].obs| && y.runs[r].obs[i].Value?
    ensures var later := Trace(reg, y, more);
            var run := y.runs[r];
            && run.job in later.seen
            && Holds(later.seen[run.job], run.obs[i].key, run.obs[i].value)
            && (run.job in later.store.jobs ==> Holds(later.store.jobs[run.job], run.obs[i].key, run.obs[i].value))
  {
    ReachableOk(reg, y);
    var run := y.runs[r];
    assert ObsMatches(reg(run.kind, run.payload, Seen(run.obs[..i])), run.obs[i], y.seen[run.job], y.seen, y.store.now);
    TraceGrows(reg, y, more);
    AlwaysInv(reg, y, more);
    assert Grows(y.seen[run.job], Trace(reg, y, more).seen[run.job]);
  }

  // ----------------------------------------------------------------- signals

  lemma WaitSawDelivery(reg: Registry, y: Sys, run: Run, i: nat)
    requires SysInv(reg, y) && RunOk(reg, run, y.seen, y.store)
    requires i < |run.obs| && ActionAt(reg, run, i).DoWait? && WellNamed(reg, run.kind, run.payload)
    ensures var a := ActionAt(reg, run, i);
            run.job in y.seen && IsDelivery(y.seen[run.job].mail, a.name, a.index, ViewOf(run.obs[i]))
  {
    var a := ActionAt(reg, run, i);
    assert ObsMatches(a, run.obs[i], y.seen[run.job], y.seen, y.store.now);
    assert PathOk(a.path) && CallOk(CallOf(a));
    assert KeyedOk(run.job, y.seen[run.job], y.seen);
    assert StoredKey(a.path, SignalCall(a.name, a.index)) in y.seen[run.job].steps;
  }

  /** A run that waits for the deliveries 0, 1, 2, ... of a signal reads the
      mailbox in order, with none skipped and none repeated. `spots[n]` is the
      position in the run at which delivery n was read. */
  lemma InOrderSignals(reg: Registry, y: Sys, r: nat, name: string, spots: seq<nat>)
    requires Reachable(reg, y) && r < |y.runs| && WellNamed(reg, y.runs[r].kind, y.runs[r].payload)
    requires var run := y.runs[r];
             forall n | 0 <= n < |spots| ::
               spots[n] < |run.obs| && ActionAt(reg, run, spots[n]).DoWait?
               && ActionAt(reg, run, spots[n]).name == name && ActionAt(reg, run, spots[n]).index == n
    ensures var run := y.runs[r];
            && run.job in y.seen
            && seq(|spots|, n requires 0 <= n < |spots| && spots[n] < |run.obs| => ViewOf(run.obs[spots[n]]))
               <= Named(y.seen[run.job].mail, name)
  {
    ReachableOk(reg, y);
    var run := y.runs[r];
    forall n | 0 <= n < |spots|
      ensures IsDelivery(y.seen[run.job].mail, name, n, ViewOf(run.obs[spots[n]]))
    {
      WaitSawDelivery(reg, y, run, spots[n]);
    }
    if |spots| > 0 {
      assert IsDelivery(y.seen[run.job].mail, name, |spots| - 1, ViewOf(run.obs[spots[|spots| - 1]]));
    }
  }

  /** Every checkpoint under a signal key, whichever run wrote it, is the delivery
      that the key names. */
  lemma SignalCheckpoints(reg: Registry, y: Sys, job: JobId, path: seq<string>, name: string, i: nat)
    requires Reachable(reg, y) && PathOk(path) && '/' !in name
    requires var s := y.store;
             job in s.jobs && JobWellNamed(reg, s.jobs[job]) && StoredKey(path, SignalCall(name, i)) in s.jobs[job].steps
    ensures var e := y.store.jobs[job];
            IsDelivery(e.mail, name, i, e.steps[StoredKey(path, SignalCall(name, i))])
  {
    ReachableOk(reg, y);
    assert KeyedOk(job, y.seen[job], y.seen);
  }

  /** No lost wake-up: a job parked because delivery i of a signal had not come
      either still has at most i deliveries, or can be claimed right now. */
  lemma NoLostWakeUp(reg: Registry, y: Sys, job: JobId)
    requires Reachable(reg, y)
    requires job in y.parked && job in y.store.jobs && y.store.jobs[job].row.status == Queued
    ensures var e := y.store.jobs[job];
            var (name, index) := y.parked[job];
            |Named(e.mail, name)| <= index || Claimable(e.row, e.row.queue, y.store.now)
  {
    ReachableOk(reg, y);
  }

  // ------------------------------------------------------------------ timers

  /** All runs of a job agree on a timer's deadline, and no run gets past it
      before the deadline. */
  lemma StableTimers(reg: Registry, y: Sys, q: nat, i: nat, r: nat, k: nat)
    requires Reachable(reg, y)
    requires q < |y.runs| && r < |y.runs| && y.runs[q].job == y.runs[r].job
    requires && i < |y.runs[q].obs| && k < |y.runs[r].obs| && y.runs[q].obs[i].Woke? && y.runs[r].obs[k].Woke?
             && y.runs[q].obs[i].key == y.runs[r].obs[k].key
    ensures y.runs[q].obs[i].at == y.runs[r].obs[k].at <= y.store.now
  {
    ReachableOk(reg, y);
    TimerStored(reg, y, y.runs[q], i);
    TimerStored(reg, y, y.runs[r], k);
  }

  lemma TimerStored(reg: Registry, y: Sys, run: Run, i: nat)
    requires RunOk(reg, run, y.seen, y.store) && i < |run.obs| && run.obs[i].Woke?
    ensures Holds(y.seen[run.job], run.obs[i].key, Instant(run.obs[i].at)) && run.obs[i].at <= y.store.now
  {
    assert ObsMatches(ActionAt(reg, run, i), run.obs[i], y.seen[run.job], y.seen, y.store.now);
  }

  /** The deadline of the timer under `key` of a job, as every run that got past it saw it. */
  predicate DeadlineOf(y: Sys, job: JobId, key: string, deadline: Time) {
    forall q, i | 0 <= q < |y.runs| && y.runs[q].job == job && 0 <= i < |y.runs[q].obs|
                  && y.runs[q].obs[i].Woke? && y.runs[q].obs[i].key == key :: y.runs[q].obs[i].at == deadline
  }

  lemma SuspendsOnDeadline(reg: Registry, y: Sys, run: Run)
    requires RunsOk(reg, y) && run in y.runs && run.phase.Ended? && run.phase.outcome.Broken?
    requires NextAction(reg, run).DoSleep? && FindSuspension(run.phase.outcome.fault).Some?
    ensures var a, deadline := NextAction(reg, run), FindSuspension(run.phase.outcome.fault).value;
            && run.job in y.seen && Checkpointed(a) && Holds(y.seen[run.job], KeyFor(a), Instant(deadline))
            && DeadlineOf(y, run.job, KeyFor(a), deadline)
  {
    var a, deadline := NextAction(reg, run), FindSuspension(run.phase.outcome.fault).value;
    assert RunOk(reg, run, y.seen, y.store);
    forall q, i | 0 <= q < |y.runs| && y.runs[q].job == run.job && 0 <= i < |y.runs[q].obs|
                  && y.runs[q].obs[i].Woke? && y.runs[q].obs[i].key == KeyFor(a)
      ensures y.runs[q].obs[i].at == deadline
    {
      TimerStored(reg, y, y.runs[q], i);
    }
  }

  /** A run that suspends on a timer parks its job until the deadline that is stored, the
      one that every run that got past the timer had. However often the job is woken early
      and parked again, its run_after is that same deadline. */
  lemma ParkedUntilDeadline(reg: Registry, y: Sys, r: nat)
    requires Reachable(reg, y) && r < |y.runs| && y.runs[r].phase.Ended? && y.runs[r].phase.outcome.Broken?
    requires NextAction(reg, y.runs[r]).DoSleep? && FindSuspension(y.runs[r].phase.outcome.fault).Some?
    requires Parks(y.store, y.runs[r].job, y.runs[r].worker, y.runs[r].wake)
    ensures LegalLabel(reg, y, Move(r, Go))
    ensures var run, a := y.runs[r], NextAction(reg, y.runs[r]);
            var after := Next(reg, y, Move(r, Go)).store.jobs;
            && run.job in after && after[run.job].row.status == Queued
            && Checkpointed(a) && run.job in y.seen && Holds(y.seen[run.job], KeyFor(a), Instant(after[run.job].row.runAfter))
            && DeadlineOf(y, run.job, KeyFor(a), after[run.job].row.runAfter)
  {
    ReachableOk(reg, y);
    var run := y.runs[r];
    SuspendsOnDeadline(reg, y, run);
    ParkedAt(reg, y.store, run, FindSuspension(run.phase.outcome.fault).value);
  }

  lemma ParkedAt(reg: Registry, s: State, run: Run, deadline: Time)
    requires run.phase.Ended? && run.phase.outcome.Broken? && FindSuspension(run.phase.outcome.fault) == Some(deadline)
    requires Parks(s, run.job, run.worker, run.wake)
    ensures var write := StepRun(reg, s, run, Go).0;
            && write.Some? && Legal(s, write.value) && run.job in Apply(s, write.value).jobs
            && Apply(s, write.value).jobs[run.job].row.status == Queued
            && Apply(s, write.value).jobs[run.job].row.runAfter == deadline
  {
    var op := Suspend(run.job, run.worker, deadline, run.wake);
    assert StepRun(reg, s, run, Go).0 == Some(op);
    assert Apply(s, op).jobs[run.job] == SuspendedEntry(s.jobs[run.job], run.worker, deadline, run.wake, s.now);
  }

  // ---------------------------------------------------------------- children

  /** Under one parent and one name there is one child, in whatever activity the
      calls are made, as long as the children exist; and different parents or
      names never share one. */
  lemma ChildIdentity(reg: Registry, y: Sys, j: JobId, p: seq<string>, a: string, k: JobId, q: seq<string>, b: string)
    requires Reachable(reg, y) && PathOk(p) && PathOk(q) && '/' !in a && '/' !in b
    requires var s := y.store;
             && j in s.jobs && JobWellNamed(reg, s.jobs[j]) && StoredKey(p, ChildCall(a)) in s.jobs[j].steps
             && k in s.jobs && JobWellNamed(reg, s.jobs[k]) && StoredKey(q, ChildCall(b)) in s.jobs[k].steps
    ensures var s := y.store;
            var c, d := s.jobs[j].steps[StoredKey(p, ChildCall(a))], s.jobs[k].steps[StoredKey(q, ChildCall(b))];
            && c.JobRef? && d.JobRef?
            && (j == k && a == b && c.id in s.jobs && d.id in s.jobs ==> c == d)
            && (c == d ==> j == k && a == b)
  {
    ReachableOk(reg, y);
    var s := y.store;
    assert KeyedOk(j, y.seen[j], y.seen) && KeyedOk(k, y.seen[k], y.seen);
    var c, d := s.jobs[j].steps[StoredKey(p, ChildCall(a))], s.jobs[k].steps[StoredKey(q, ChildCall(b))];
    assert IsChildOf(c, j, a, y.seen) && IsChildOf(d, k, b, y.seen);
    assert IsUuid(j) && IsUuid(k);
    ChildKeyInjective(j, a, k, b);
  }

  /** All waits for one child that returned have returned the same result. */
  lemma ChildResultAgrees(reg: Registry, y: Sys, q: nat, i: nat, r: nat, k: nat)
    requires Reachable(reg, y)
    requires q < |y.runs| && r < |y.runs|
    requires && i < |y.runs[q].obs| && k < |y.runs[r].obs|
             && y.runs[q].obs[i].ChildDone? && y.runs[r].obs[k].ChildDone?
             && y.runs[q].obs[i].child == y.runs[r].obs[k].child
    ensures y.runs[q].obs[i].result == y.runs[r].obs[k].result
  {
    ReachableOk(reg, y);
    assert RunOk(reg, y.runs[q], y.seen, y.store) && RunOk(reg, y.runs[r], y.seen, y.store);
    assert ObsMatches(ActionAt(reg, y.runs[q], i), y.runs[q].obs[i], y.seen[y.runs[q].job], y.seen, y.store.now);
    assert ObsMatches(ActionAt(reg, y.runs[r], k), y.runs[r].obs[k], y.seen[y.runs[r].job], y.seen, y.store.now);
  }
}
