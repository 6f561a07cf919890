/** Effectively once: when the runs of a job do not overlap and its steps are
    idempotent, crashes, retries, lost leases and dead-letter retries leave no
    trace in the world or in the result. */
module EffectivelyOnce {
  import opened Values
  import opened Jobs
  import opened StoreModel
  import opened StoreInvariant
  import opened Runtime
  import opened RuntimeInvariant
  import opened RuntimeSystem
  import opened Guarantees
  import opened Simulation

  // ------------------------------------------------------------ the machine

  /** The system, the part of the world that job `j` acts on, how often its step
      bodies have been executed, and how many of its runs were aborted. */
  datatype WSys<W> = WSys(y: Sys, w: W, execs: nat, aborts: nat)

  ghost predicate Executes(reg: Registry, y: Sys, j: JobId, l: Label) {
    && l.Move? && l.r < |y.runs| && y.runs[l.r].job == j && y.runs[l.r].phase.Missed?
    && NextAction(reg, y.runs[l.r]).DoStep? && l.c.Body?
  }

  /** No run of `j` is started while another has not finished. */
  predicate StartsAlone(y: Sys, j: JobId, l: Label) {
    l.Start? && j in l.jobs ==>
      && (forall r | 0 <= r < |y.runs| && y.runs[r].job == j :: y.runs[r].phase.Gone?)
      && (forall i, k | 0 <= i < k < |l.jobs| :: l.jobs[i] != l.jobs[k])
  }

  /** The body acts on the world when it is executed. It may fail before its
      effect or after it; a success returns what the effect returned. */
  ghost predicate WorldStep<W>(reg: Registry, eff: Effects<W>, x: WSys<W>, j: JobId, l: Label, x': WSys<W>) {
    if Executes(reg, x.y, j, l) then
      var (w, value) := eff(KeyFor(NextAction(reg, x.y.runs[l.r])), x.w);
      && x'.execs == x.execs + 1
      && (if l.c.outcome.Ok? then x'.w == w && l.c.outcome.value == Some(value) else x'.w == x.w || x'.w == w)
    else x'.w == x.w && x'.execs == x.execs
  }

  ghost predicate WNext<W>(reg: Registry, eff: Effects<W>, j: JobId, x: WSys<W>, l: Label, x': WSys<W>) {
    && LegalLabel(reg, x.y, l) && StartsAlone(x.y, j, l)
    && x'.y == Next(reg, x.y, l)
    && WorldStep(reg, eff, x, j, l, x')
    && x'.aborts == x.aborts + (if (l.Move? || l.Crash?) && x.y.runs[l.r].job == j
                                   && Aborts(NextAction(reg, x.y.runs[l.r]), x.y.runs[l.r], x'.y.runs[l.r]) then 1 else 0)
  }

  ghost predicate Behavior<W>(reg: Registry, eff: Effects<W>, j: JobId, xs: seq<WSys<W>>, ls: seq<Label>) {
    |xs| == |ls| + 1 && forall i | 0 <= i < |ls| :: WNext(reg, eff, j, xs[i], ls[i], xs[i + 1])
  }

  /** Job `j` is there, nothing of it has run, and the world is untouched. */
  ghost predicate Unstarted<W>(reg: Registry, j: JobId, x: WSys<W>) {
    && SysInv(reg, x.y) && j in x.y.store.jobs && x.y.store.jobs[j].steps == map[]
    && x.y.store.jobs[j].row.status != Succeeded
    && (forall r | 0 <= r < |x.y.runs| :: x.y.runs[r].job != j)
    && x.execs == 0 && x.aborts == 0
  }

  // ------------------------------------------------------- the runs of a job

  predicate AllGone(runs: seq<Run>, j: JobId) {
    forall r | 0 <= r < |runs| && runs[r].job == j :: runs[r].phase.Gone?
  }

  predicate OneLiveRun(runs: seq<Run>, j: JobId) {
    forall q, r | 0 <= q < |runs| && 0 <= r < |runs| && runs[q].job == j && runs[r].job == j
                  && !runs[q].phase.Gone? && !runs[r].phase.Gone? :: q == r
  }

  predicate Flying(code: Code, run: Run) {
    InFlight(code(Seen(run.obs)), run)
  }

  /** Is there a body that has been executed and is not checkpointed yet? */
  function Busy(code: Code, runs: seq<Run>, j: JobId): nat {
    if exists r :: 0 <= r < |runs| && runs[r].job == j && Flying(code, runs[r]) then 1 else 0
  }

  ghost predicate RunsSim<W>(code: Code, eff: Effects<W>, ans: Answers, w0: W, k: nat, e: Entry, w: W, runs: seq<Run>, j: JobId) {
    forall r | 0 <= r < |runs| && runs[r].job == j :: RunSim(code, eff, ans, w0, k, e.steps, w, runs[r])
  }

  /** The workflow has come to its end, with the result that the job has. */
  ghost predicate Done<W>(code: Code, eff: Effects<W>, ans: Answers, w0: W, k: nat, e: Entry) {
    var a := code(Seen(IdealAfter(code, eff, ans, w0, k).obs));
    a.Return? && e.row.result == Some(OrEmpty(a.result))
  }

  ghost predicate JobSim<W>(code: Code, eff: Effects<W>, ans: Answers, w0: W, k: nat, e: Entry, w: W, runs: seq<Run>, j: JobId) {
    && WorldSim(code, eff, ans, w0, k, e.steps, w)
    && RunsSim(code, eff, ans, w0, k, e, w, runs, j)
    && OneLiveRun(runs, j)
    && (e.row.status == Succeeded ==> AllGone(runs, j) && Done(code, eff, ans, w0, k, e))
  }

  // ------------------------------------------- what happens around the runs

  /** The operations that write no checkpoint and no result of job `j`. */
  predicate Quiet(op: Op, j: JobId) {
    !((op.SaveStep? || op.InsertStep? || op.Complete?) && op.job == j)
  }

  predicate SameProgress(e: Entry, e': Entry) {
    && e'.steps == e.steps && e'.row.kind == e.row.kind && e'.row.payload == e.row.payload
    && (e'.row.status == Succeeded ==> e.row.status == Succeeded && e'.row.result == e.row.result)
  }

  lemma QuietEntry(op: Op, now: Time, j: JobId, e: Entry)
    requires Quiet(op, j)
    ensures SameProgress(e, EntryAfter(op, now, j, e))
  {
  }

  /** The runs of `j` are the same in both. */
  predicate SameRuns(runs: seq<Run>, runs': seq<Run>, j: JobId) {
    && |runs| <= |runs'|
    && (forall r | 0 <= r < |runs| && (runs[r].job == j || runs'[r].job == j) :: runs'[r] == runs[r])
    && (forall r | |runs| <= r < |runs'| :: runs'[r].job != j)
  }

  lemma QuietSim<W>(code: Code, eff: Effects<W>, ans: Answers, w0: W, k: nat, e: Entry, e': Entry, w: W, runs: seq<Run>, runs': seq<Run>, j: JobId)
    requires JobSim(code, eff, ans, w0, k, e, w, runs, j) && SameProgress(e, e') && SameRuns(runs, runs', j)
    ensures JobSim(code, eff, ans, w0, k, e', w, runs', j) && Busy(code, runs', j) == Busy(code, runs, j)
  {
    if Busy(code, runs, j) == 1 {
      var r :| 0 <= r < |runs| && runs[r].job == j && Flying(code, runs[r]);
      assert runs'[r] == runs[r];
    }
  }

  /** The live run of `j` is over. */
  lemma DropSim<W>(code: Code, eff: Effects<W>, ans: Answers, w0: W, k: nat, e: Entry, e': Entry, w: W, runs: seq<Run>, r: nat, j: JobId)
    requires JobSim(code, eff, ans, w0, k, e, w, runs, j) && SameProgress(e, e') && r < |runs| && runs[r].job == j
    ensures var run' := runs[r].(phase := Gone);
            && JobSim(code, eff, ans, w0, k, e', w, runs[r := run'], j)
            && Busy(code, runs, j) <= Busy(code, runs[r := run'], j) + if Aborts(code(Seen(runs[r].obs)), runs[r], run') then 1 else 0
  {
    var runs' := runs[r := runs[r].(phase := Gone)];
    if Busy(code, runs, j) == 1 {
      var q :| 0 <= q < |runs| && runs[q].job == j && Flying(code, runs[q]);
      if q != r { assert runs'[q] == runs[q]; }
    }
  }

  /** A claim starts the next run from the top. */
  lemma BeginSim<W>(code: Code, eff: Effects<W>, ans: Answers, w0: W, k: nat, e: Entry, e': Entry, w: W, runs: seq<Run>, begun: seq<Run>, j: JobId)
    requires JobSim(code, eff, ans, w0, k, e, w, runs, j) && SameProgress(e, e') && AllGone(runs, j)
    requires e'.row.status != Succeeded && OneLiveRun(begun, j)
    requires forall r | 0 <= r < |begun| :: begun[r].obs == [] && begun[r].phase.Ready?
    ensures JobSim(code, eff, ans, w0, k, e', w, runs + begun, j) && Busy(code, runs, j) == 0
  {
    var runs' := runs + begun;
    forall q, r | 0 <= q < |runs'| && 0 <= r < |runs'| && runs'[q].job == j && runs'[r].job == j
                  && !runs'[q].phase.Gone? && !runs'[r].phase.Gone?
      ensures q == r
    {
      assert begun[q - |runs|] == runs'[q] && begun[r - |runs|] == runs'[r];
    }
  }

  /** The live run of `j` goes from `run` to `run'`, and the others are gone. */
  lemma LiveSim<W>(code: Code, eff: Effects<W>, ans: Answers, w0: W, k: nat, k': nat, e: Entry, e': Entry, w: W, w': W,
                   runs: seq<Run>, r: nat, run': Run, j: JobId)
    requires JobSim(code, eff, ans, w0, k, e, w, runs, j) && k' >= k && r < |runs| && runs[r].job == j && Live(runs[r])
    requires run'.job == j && WorldSim(code, eff, ans, w0, k', e'.steps, w') && RunSim(code, eff, ans, w0, k', e'.steps, w', run')
    requires e'.row.status == e.row.status
    ensures JobSim(code, eff, ans, w0, k', e', w', runs[r := run'], j)
  {
    var runs' := runs[r := run'];
    assert forall q | 0 <= q < |runs| && q != r && runs[q].job == j :: runs'[q] == runs[q] && runs[q].phase.Gone?;
  }

  lemma LiveBusy(code: Code, runs: seq<Run>, r: nat, run': Run, j: JobId)
    requires OneLiveRun(runs, j) && r < |runs| && runs[r].job == j && Live(runs[r]) && run'.job == j
    ensures Busy(code, runs, j) == (if Flying(code, runs[r]) then 1 else 0)
    ensures Busy(code, runs[r := run'], j) == (if Flying(code, run') then 1 else 0)
  {
    if Flying(code, run') { assert runs[r := run'][r] == run'; }
  }

  /** The run that completes the job has come to the end of the workflow. */
  lemma CompleteSim<W>(code: Code, eff: Effects<W>, ans: Answers, w0: W, k: nat, e: Entry, w: W, runs: seq<Run>, r: nat, j: JobId, now: Time)
    requires JobSim(code, eff, ans, w0, k, e, w, runs, j) && r < |runs| && runs[r].job == j
    requires runs[r].phase.Ended? && runs[r].phase.outcome.Returned?
    ensures var run' := runs[r].(phase := Gone);
            var e' := CompletedEntry(e, runs[r].worker, runs[r].phase.outcome.result, now);
            && JobSim(code, eff, ans, w0, k, e', w, runs[r := run'], j)
            && Busy(code, runs, j) <= Busy(code, runs[r := run'], j)
  {
    var m := |runs[r].obs|;
    IdealEnds(code, eff, ans, w0, m, k);
  }

  // ------------------------------------------------------------- every step

  ghost predicate Counted<W>(code: Code, eff: Effects<W>, ans: Answers, w0: W, j: JobId, k: nat, x: WSys<W>) {
    x.execs <= IdealAfter(code, eff, ans, w0, k).bodies + x.aborts + Busy(code, x.y.runs, j)
  }

  ghost predicate Simulates<W>(reg: Registry, kind: string, payload: Json, eff: Effects<W>, ans: Answers, w0: W, j: JobId, k: nat, x: WSys<W>) {
    j in x.y.store.jobs ==>
      var e := x.y.store.jobs[j];
      && e.row.kind == kind && e.row.payload == payload
      && JobSim(CodeOf(reg, kind, payload), eff, ans, w0, k, e, x.w, x.y.runs, j)
      && Counted(CodeOf(reg, kind, payload), eff, ans, w0, j, k, x)
  }

  lemma JobEntry(s: State, op: Op, j: JobId)
    requires Inv(s) && Legal(s, op) && j in s.issued && j in Apply(s, op).jobs
    ensures j in s.jobs && Apply(s, op).jobs[j] == EntryAfter(op, s.now, j, s.jobs[j])
  {
    Surviving(s, op, j);
  }

  /** A quiet operation, and none of the runs of `j` moves. */
  lemma QuietStep<W>(reg: Registry, kind: string, payload: Json, eff: Effects<W>, ans: Answers, w0: W, j: JobId, k: nat, x: WSys<W>, op: Op, x': WSys<W>)
    requires Simulates(reg, kind, payload, eff, ans, w0, j, k, x) && Inv(x.y.store) && j in x.y.store.issued
    requires Legal(x.y.store, op) && Quiet(op, j) && x'.y.store == Apply(x.y.store, op)
    requires SameRuns(x.y.runs, x'.y.runs, j) && x'.w == x.w && x'.execs == x.execs && x'.aborts >= x.aborts
    ensures Simulates(reg, kind, payload, eff, ans, w0, j, k, x')
  {
    if j in x'.y.store.jobs {
      JobEntry(x.y.store, op, j);
      var e, e' := x.y.store.jobs[j], x'.y.store.jobs[j];
      QuietEntry(op, x.y.store.now, j, e);
      QuietSim(CodeOf(reg, kind, payload), eff, ans, w0, k, e, e', x.w, x.y.runs, x'.y.runs, j);
    }
  }

  lemma StillStep<W>(reg: Registry, kind: string, payload: Json, eff: Effects<W>, ans: Answers, w0: W, j: JobId, k: nat, x: WSys<W>, x': WSys<W>)
    requires Simulates(reg, kind, payload, eff, ans, w0, j, k, x) && x'.y.store == x.y.store
    requires SameRuns(x.y.runs, x'.y.runs, j) && x'.w == x.w && x'.execs == x.execs && x'.aborts >= x.aborts
    ensures Simulates(reg, kind, payload, eff, ans, w0, j, k, x')
  {
    if j in x'.y.store.jobs {
      var e := x.y.store.jobs[j];
      QuietSim(CodeOf(reg, kind, payload), eff, ans, w0, k, e, e, x.w, x.y.runs, x'.y.runs, j);
    }
  }

  /** A claim that starts a run of `j`. */
  lemma BeginStep<W>(reg: Registry, kind: string, payload: Json, eff: Effects<W>, ans: Answers, w0: W, j: JobId, k: nat, x: WSys<W>, claim: Op, begun: seq<Run>, x': WSys<W>)
    requires Simulates(reg, kind, payload, eff, ans, w0, j, k, x) && Inv(x.y.store) && j in x.y.store.issued
    requires Legal(x.y.store, claim) && claim.Claim? && j in claim.picked && x'.y.store == Apply(x.y.store, claim)
    requires AllGone(x.y.runs, j) && OneLiveRun(begun, j) && x'.y.runs == x.y.runs + begun
    requires forall r | 0 <= r < |begun| :: begun[r].obs == [] && begun[r].phase.Ready?
    requires x'.w == x.w && x'.execs == x.execs && x'.aborts == x.aborts
    ensures Simulates(reg, kind, payload, eff, ans, w0, j, k, x')
  {
    if j in x'.y.store.jobs {
      JobEntry(x.y.store, claim, j);
      var e, e' := x.y.store.jobs[j], x'.y.store.jobs[j];
      QuietEntry(claim, x.y.store.now, j, e);
      BeginSim(CodeOf(reg, kind, payload), eff, ans, w0, k, e, e', x.w, x.y.runs, begun, j);
    }
  }

  predicate OwnWrite(op: Op, job: JobId) {
    op.Enqueue? || ((op.InsertStep? || op.Complete? || op.Suspend? || op.Fail?) && op.job == job)
  }

  lemma CallWritesOwnJob(s: State, run: Run, a: Action, c: Choice)
    requires Checkpointed(a)
    ensures var (write, run') := StepCheckpointed(s, run, a, c);
            run'.job == run.job && (write.Some? ==> OwnWrite(write.value, run.job))
  {
  }

  /** The writes of a run are a checkpoint or an ending of its own job, or a child. */
  lemma WritesOwnJob(reg: Registry, s: State, run: Run, c: Choice)
    ensures var (write, run') := StepRun(reg, s, run, c);
            run'.job == run.job && (write.Some? ==> OwnWrite(write.value, run.job))
  {
    if Checkpointed(NextAction(reg, run)) { CallWritesOwnJob(s, run, NextAction(reg, run), c); }
  }

  /** A run of `j` completes it. */
  lemma CompleteStep<W>(reg: Registry, kind: string, payload: Json, eff: Effects<W>, ans: Answers, w0: W, j: JobId, k: nat, x: WSys<W>, r: nat, op: Op, x': WSys<W>)
    requires Simulates(reg, kind, payload, eff, ans, w0, j, k, x) && Inv(x.y.store) && j in x.y.store.issued
    requires r < |x.y.runs| && x.y.runs[r].job == j && x.y.runs[r].phase.Ended? && x.y.runs[r].phase.outcome.Returned?
    requires op == Complete(j, x.y.runs[r].worker, x.y.runs[r].phase.outcome.result) && Legal(x.y.store, op)
    requires x'.y.store == Apply(x.y.store, op) && x'.y.runs == x.y.runs[r := x.y.runs[r].(phase := Gone)]
    requires x'.w == x.w && x'.execs == x.execs && x'.aborts == x.aborts
    ensures Simulates(reg, kind, payload, eff, ans, w0, j, k, x')
  {
    if j in x'.y.store.jobs {
      JobEntry(x.y.store, op, j);
      var e := x.y.store.jobs[j];
      CompleteSim(CodeOf(reg, kind, payload), eff, ans, w0, k, e, x.w, x.y.runs, r, j, x.y.store.now);
      Completed(op, x.y.store.now, e);
    }
  }

  /** A run of `j` suspends it or fails it. */
  lemma GiveUpStep<W>(reg: Registry, kind: string, payload: Json, eff: Effects<W>, ans: Answers, w0: W, j: JobId, k: nat, x: WSys<W>, r: nat, op: Op, x': WSys<W>)
    requires Simulates(reg, kind, payload, eff, ans, w0, j, k, x) && Inv(x.y.store) && j in x.y.store.issued
    requires r < |x.y.runs| && x.y.runs[r].job == j && x.y.runs[r].phase.Ended?
    requires Quiet(op, j) && Legal(x.y.store, op)
    requires x'.y.store == Apply(x.y.store, op) && x'.y.runs == x.y.runs[r := x.y.runs[r].(phase := Gone)]
    requires x'.w == x.w && x'.execs == x.execs && x'.aborts == x.aborts
    ensures Simulates(reg, kind, payload, eff, ans, w0, j, k, x')
  {
    if j in x'.y.store.jobs {
      JobEntry(x.y.store, op, j);
      var e, e' := x.y.store.jobs[j], x'.y.store.jobs[j];
      QuietEntry(op, x.y.store.now, j, e);
      DropSim(CodeOf(reg, kind, payload), eff, ans, w0, k, e, e', x.w, x.y.runs, r, j);
    }
  }

  lemma Completed(op: Op, now: Time, e: Entry)
    requires op.Complete?
    ensures var e' := EntryAfter(op, now, op.job, e);
            e' == CompletedEntry(e, op.worker, op.result, now)
            && e'.steps == e.steps && e'.row.kind == e.row.kind && e'.row.payload == e.row.payload
  {
  }

  /** A run of `j` is gone without a write: it crashed, or its terminal write failed. */
  lemma DropStep<W>(reg: Registry, kind: string, payload: Json, eff: Effects<W>, ans: Answers, w0: W, j: JobId, k: nat, x: WSys<W>, r: nat, x': WSys<W>)
    requires Simulates(reg, kind, payload, eff, ans, w0, j, k, x) && x'.y.store == x.y.store
    requires r < |x.y.runs| && x.y.runs[r].job == j && x'.y.runs == x.y.runs[r := x.y.runs[r].(phase := Gone)]
    requires x'.w == x.w && x'.execs == x.execs
    requires x'.aborts == x.aborts + if Aborts(NextAction(reg, x.y.runs[r]), x.y.runs[r], x'.y.runs[r]) then 1 else 0
    ensures Simulates(reg, kind, payload, eff, ans, w0, j, k, x')
  {
    if j in x'.y.store.jobs {
      var e := x.y.store.jobs[j];
      DropSim(CodeOf(reg, kind, payload), eff, ans, w0, k, e, e, x.w, x.y.runs, r, j);
    }
  }

  /** The answers are those on record for job `j`. */
  predicate OnRecord(ans: Answers, y: Sys, j: JobId) {
    j in y.store.jobs ==> Foretold(ans, y.store.jobs[j].steps, y.store.jobs)
  }

  /** What a run's own write does to its job. */
  lemma CallEntry(s: State, run: Run, a: Action, write: Option<Op>)
    requires run.job in s.jobs && CallWrite(s.jobs[run.job].steps, run, a, write)
    requires run.job in StoreAfter(s, write).jobs && (write.Some? && write.value.Enqueue? ==> write.value.id !in s.jobs)
    ensures var e, e' := s.jobs[run.job], StoreAfter(s, write).jobs[run.job];
            && e'.row == e.row
            && e'.steps == if WritesStep(write) then e.steps[KeyFor(a) := run.phase.value] else e.steps
  {
    if write.Some? {
      RowsAfter(s, write.value, run.job);
    }
  }

  /** Live run `r` of job `j` moves, and world and counters follow. */
  ghost predicate LiveMove<W(!new)>(reg: Registry, kind: string, payload: Json, eff: Effects<W>, ans: Answers, j: JobId, x: WSys<W>, r: nat, c: Choice, x': WSys<W>) {
    && Idempotent(eff) && OnRecord(ans, x.y, j) && OnRecord(ans, x'.y, j)
    && j in x.y.store.jobs && Inv(x.y.store)
    && r < |x.y.runs| && x.y.runs[r].job == j && Live(x.y.runs[r])
    && x.y.runs[r].kind == kind && x.y.runs[r].payload == payload
    && var run, a := x.y.runs[r], NextAction(reg, x.y.runs[r]);
       && Acts(eff, a, run, c, x.w, x'.w) && (c.Break? ==> x'.w == x.w)
       && x'.execs == x.execs + (if run.phase.Missed? && a.DoStep? && c.Body? then 1 else 0)
       && var (write, run') := StepRun(reg, x.y.store, run, c);
          && (write.Some? ==> Legal(x.y.store, write.value))
          && x'.y.store == StoreAfter(x.y.store, write) && x'.y.runs == x.y.runs[r := run']
          && x'.aborts == x.aborts + if Aborts(a, run, run') then 1 else 0
  }

  /** What it does to run and row. */
  lemma LiveKeeps<W(!new)>(reg: Registry, kind: string, payload: Json, eff: Effects<W>, ans: Answers, w0: W, j: JobId, k: nat, x: WSys<W>, r: nat, c: Choice, x': WSys<W>)
    returns (k': nat)
    requires LiveMove(reg, kind, payload, eff, ans, j, x, r, c, x') && j in x'.y.store.jobs
    requires InStep(CodeOf(reg, kind, payload), eff, ans, w0, x.y.store, x.y.runs[r], k, x.w)
    ensures var (write, run') := StepRun(reg, x.y.store, x.y.runs[r], c);
            var e, e' := x.y.store.jobs[j], x'.y.store.jobs[j];
            && run'.job == j && e'.row == e.row
            && e'.steps == (if WritesStep(write) then e.steps[KeyFor(NextAction(reg, x.y.runs[r])) := x.y.runs[r].phase.value] else e.steps)
            && Keeps(CodeOf(reg, kind, payload), eff, ans, w0, e.steps, x.y.runs[r], write, run', k, k', x'.w)
  {
    var run := x.y.runs[r];
    k' := RunStepSim(reg, CodeOf(reg, kind, payload), eff, ans, w0, x.y.store, run, c, k, x.w, x'.w);
    WritesOwnJob(reg, x.y.store, run, c);
    FreshIsNew(x.y.store, StepRun(reg, x.y.store, run, c).0);
    CallEntry(x.y.store, run, NextAction(reg, run), StepRun(reg, x.y.store, run, c).0);
  }

  /** And so to the job, and to the count of the bodies. */
  lemma LiveCount<W>(code: Code, eff: Effects<W>, ans: Answers, w0: W, steps: map<string, Json>, j: JobId, k: nat, k': nat, w': W,
                     runs: seq<Run>, r: nat, write: Option<Op>, run': Run, bodies: nat)
    requires OneLiveRun(runs, j) && r < |runs| && runs[r].job == j && Live(runs[r]) && run'.job == j
    requires Keeps(code, eff, ans, w0, steps, runs[r], write, run', k, k', w')
    requires bodies <= 1
    requires bodies == 1 ==> Flying(code, run') || Aborts(code(Seen(runs[r].obs)), runs[r], run')
    requires bodies == 1 ==> !Flying(code, runs[r])
    ensures IdealAfter(code, eff, ans, w0, k).bodies + bodies + Busy(code, runs, j)
            <= IdealAfter(code, eff, ans, w0, k').bodies + Busy(code, runs[r := run'], j)
               + if Aborts(code(Seen(runs[r].obs)), runs[r], run') then 1 else 0
  {
    LiveBusy(code, runs, r, run', j);
  }

  /** A body that is executed is in flight, or its run is aborted. */
  lemma Executed(s: State, run: Run, a: Action, c: Choice)
    requires run.phase.Missed? && a.DoStep? && c.Body?
    ensures var run' := RunBody(s, run, a, c).1;
            !InFlight(a, run) && run'.obs == run.obs && (InFlight(a, run') || Aborts(a, run, run'))
  {
  }

  /** A small step of the live run of `j`. */
  lemma LiveStep<W(!new)>(reg: Registry, kind: string, payload: Json, eff: Effects<W>, ans: Answers, w0: W, j: JobId, k: nat, x: WSys<W>, r: nat, c: Choice, x': WSys<W>)
    returns (k': nat)
    requires Simulates(reg, kind, payload, eff, ans, w0, j, k, x) && LiveMove(reg, kind, payload, eff, ans, j, x, r, c, x')
    ensures Simulates(reg, kind, payload, eff, ans, w0, j, k', x')
  {
    k' := k;
    if j in x'.y.store.jobs {
      var code, run, e := CodeOf(reg, kind, payload), x.y.runs[r], x.y.store.jobs[j];
      var (write, run') := StepRun(reg, x.y.store, run, c);
      k' := LiveKeeps(reg, kind, payload, eff, ans, w0, j, k, x, r, c, x');
      LiveSim(code, eff, ans, w0, k, k', e, x'.y.store.jobs[j], x.w, x'.w, x.y.runs, r, run', j);
      var body := run.phase.Missed? && NextAction(reg, run).DoStep? && c.Body?;
      if body { Executed(x.y.store, run, NextAction(reg, run), c); }
      LiveCount(code, eff, ans, w0, e.steps, j, k, k', x'.w, x.y.runs, r, write, run', if body then 1 else 0);
    }
  }

  lemma FreshIsNew(s: State, write: Option<Op>)
    requires Inv(s) && (write.Some? ==> Legal(s, write.value))
    ensures write.Some? && write.value.Enqueue? ==> write.value.id !in s.jobs
  {
  }

  /** The terminal write is a completion, or leaves checkpoints and result alone. */
  lemma TerminalKinds(run: Run, outcome: Outcome)
    ensures var op := TerminalWrite(run, outcome);
            if outcome.Returned? then op == Complete(run.job, run.worker, outcome.result) else Quiet(op, run.job)
  {
  }

  lemma EndedRun(reg: Registry, s: State, run: Run, c: Choice)
    requires run.phase.Ended?
    ensures var (write, run') := StepRun(reg, s, run, c);
            run' == run.(phase := Gone) && (write.Some? ==> write.value == TerminalWrite(run, run.phase.outcome))
  {
  }

  // ------------------------------------------------------------ every label

  lemma EndedStep<W>(reg: Registry, kind: string, payload: Json, eff: Effects<W>, ans: Answers, w0: W, j: JobId, k: nat, x: WSys<W>, r: nat, c: Choice, x': WSys<W>)
    requires Simulates(reg, kind, payload, eff, ans, w0, j, k, x) && Inv(x.y.store) && j in x.y.store.issued
    requires r < |x.y.runs| && x.y.runs[r].job == j && x.y.runs[r].phase.Ended?
    requires var (write, run') := StepRun(reg, x.y.store, x.y.runs[r], c);
             && (write.Some? ==> Legal(x.y.store, write.value))
             && x'.y.store == StoreAfter(x.y.store, write) && x'.y.runs == x.y.runs[r := run']
    requires x'.w == x.w && x'.execs == x.execs && x'.aborts == x.aborts
    ensures Simulates(reg, kind, payload, eff, ans, w0, j, k, x')
  {
    var run := x.y.runs[r];
    var (write, run') := StepRun(reg, x.y.store, run, c);
    EndedRun(reg, x.y.store, run, c);
    TerminalKinds(run, run.phase.outcome);
    if write.None? {
      DropStep(reg, kind, payload, eff, ans, w0, j, k, x, r, x');
    } else if run.phase.outcome.Returned? {
      CompleteStep(reg, kind, payload, eff, ans, w0, j, k, x, r, write.value, x');
    } else {
      GiveUpStep(reg, kind, payload, eff, ans, w0, j, k, x, r, write.value, x');
    }
  }

  /** Another job's run moves, or one that is gone. */
  lemma OtherStep<W>(reg: Registry, kind: string, payload: Json, eff: Effects<W>, ans: Answers, w0: W, j: JobId, k: nat, x: WSys<W>, r: nat, c: Choice, x': WSys<W>)
    requires Simulates(reg, kind, payload, eff, ans, w0, j, k, x) && Inv(x.y.store) && j in x.y.store.issued
    requires r < |x.y.runs| && (x.y.runs[r].job == j ==> x.y.runs[r].phase.Gone?)
    requires var (write, run') := StepRun(reg, x.y.store, x.y.runs[r], c);
             && (write.Some? ==> Legal(x.y.store, write.value))
             && x'.y.store == StoreAfter(x.y.store, write) && x'.y.runs == x.y.runs[r := run']
    requires x'.w == x.w && x'.execs == x.execs && x'.aborts == x.aborts
    ensures Simulates(reg, kind, payload, eff, ans, w0, j, k, x')
  {
    var write := StepRun(reg, x.y.store, x.y.runs[r], c).0;
    WritesOwnJob(reg, x.y.store, x.y.runs[r], c);
    if write.Some? {
      QuietStep(reg, kind, payload, eff, ans, w0, j, k, x, write.value, x');
    } else {
      StillStep(reg, kind, payload, eff, ans, w0, j, k, x, x');
    }
  }

  /** What a move does, and how the world and the counters follow. */
  lemma MoveFacts<W>(reg: Registry, eff: Effects<W>, j: JobId, x: WSys<W>, r: nat, c: Choice, x': WSys<W>)
    requires WNext(reg, eff, j, x, Move(r, c), x')
    ensures r < |x.y.runs|
    ensures var run := x.y.runs[r];
            var (write, run') := StepRun(reg, x.y.store, run, c);
            && (write.Some? ==> Legal(x.y.store, write.value))
            && x'.y.store == StoreAfter(x.y.store, write) && x'.y.runs == x.y.runs[r := run']
            && (run.job == j ==> Acts(eff, NextAction(reg, run), run, c, x.w, x'.w))
            && (run.job != j ==> x'.w == x.w)
            && x'.execs == x.execs + (if run.job == j && run.phase.Missed? && NextAction(reg, run).DoStep? && c.Body? then 1 else 0)
            && x'.aborts == x.aborts + (if run.job == j && Aborts(NextAction(reg, run), run, run') then 1 else 0)
  {
  }

  lemma MovesLive<W(!new)>(reg: Registry, kind: string, payload: Json, eff: Effects<W>, ans: Answers, j: JobId, x: WSys<W>, r: nat, c: Choice, x': WSys<W>)
    requires SysInv(reg, x.y) && Idempotent(eff) && OnRecord(ans, x.y, j) && OnRecord(ans, x'.y, j)
    requires WNext(reg, eff, j, x, Move(r, c), x') && x.y.runs[r].job == j && Live(x.y.runs[r]) && j in x.y.store.jobs
    requires x.y.store.jobs[j].row.kind == kind && x.y.store.jobs[j].row.payload == payload
    ensures LiveMove(reg, kind, payload, eff, ans, j, x, r, c, x')
  {
    MoveFacts(reg, eff, j, x, r, c, x');
    assert RunOk(reg, x.y.runs[r], x.y.seen, x.y.store);
  }

  /** A run moves. */
  lemma MoveStep<W(!new)>(reg: Registry, kind: string, payload: Json, eff: Effects<W>, ans: Answers, w0: W, j: JobId, k: nat, x: WSys<W>, r: nat, c: Choice, x': WSys<W>)
    returns (k': nat)
    requires SysInv(reg, x.y) && j in x.y.store.issued && Simulates(reg, kind, payload, eff, ans, w0, j, k, x)
    requires Idempotent(eff) && OnRecord(ans, x.y, j) && OnRecord(ans, x'.y, j)
    requires WNext(reg, eff, j, x, Move(r, c), x')
    ensures Simulates(reg, kind, payload, eff, ans, w0, j, k', x')
  {
    k' := k;
    MoveFacts(reg, eff, j, x, r, c, x');
    var run := x.y.runs[r];
    if run.job == j && run.phase.Ended? {
      EndedStep(reg, kind, payload, eff, ans, w0, j, k, x, r, c, x');
    } else if run.job == j && Live(run) {
      if j in x.y.store.jobs {
        MovesLive(reg, kind, payload, eff, ans, j, x, r, c, x');
        k' := LiveStep(reg, kind, payload, eff, ans, w0, j, k, x, r, c, x');
      } else {
        StaysAway(x.y.store, StepRun(reg, x.y.store, run, c).0, j);
      }
    } else {
      OtherStep(reg, kind, payload, eff, ans, w0, j, k, x, r, c, x');
    }
  }

  /** A deleted job does not come back. */
  lemma StaysAway(s: State, write: Option<Op>, j: JobId)
    requires Inv(s) && j in s.issued && j !in s.jobs && (write.Some? ==> Legal(s, write.value))
    ensures j !in StoreAfter(s, write).jobs
  {
    if write.Some? && j in Apply(s, write.value).jobs {
      JobEntry(s, write.value, j);
    }
  }

  lemma StartFacts<W>(reg: Registry, eff: Effects<W>, j: JobId, x: WSys<W>, claim: Op, jobs: seq<JobId>, x': WSys<W>) returns (begun: seq<Run>)
    requires WNext(reg, eff, j, x, Start(claim, jobs), x')
    ensures claim.Claim? && Legal(x.y.store, claim) && x'.y.store == Apply(x.y.store, claim)
    ensures x'.w == x.w && x'.execs == x.execs && x'.aborts == x.aborts && x'.y.runs == x.y.runs + begun
    ensures |begun| == |jobs| && forall i | 0 <= i < |jobs| :: begun[i].job == jobs[i] && begun[i].obs == [] && begun[i].phase.Ready?
    ensures j in jobs ==> j in claim.picked && AllGone(x.y.runs, j) && OneLiveRun(begun, j)
  {
    assert forall i | 0 <= i < |jobs| :: jobs[i] in claim.picked;
    begun := NewRuns(x'.y.store, jobs, claim.worker);
  }

  lemma StartStep<W>(reg: Registry, kind: string, payload: Json, eff: Effects<W>, ans: Answers, w0: W, j: JobId, k: nat, x: WSys<W>, claim: Op, jobs: seq<JobId>, x': WSys<W>)
    requires SysInv(reg, x.y) && j in x.y.store.issued && Simulates(reg, kind, payload, eff, ans, w0, j, k, x)
    requires WNext(reg, eff, j, x, Start(claim, jobs), x')
    ensures Simulates(reg, kind, payload, eff, ans, w0, j, k, x')
  {
    var begun := StartFacts(reg, eff, j, x, claim, jobs, x');
    if j in jobs {
      BeginStep(reg, kind, payload, eff, ans, w0, j, k, x, claim, begun, x');
    } else {
      QuietStep(reg, kind, payload, eff, ans, w0, j, k, x, claim, x');
    }
  }

  lemma CrashStep<W>(reg: Registry, kind: string, payload: Json, eff: Effects<W>, ans: Answers, w0: W, j: JobId, k: nat, x: WSys<W>, r: nat, x': WSys<W>)
    requires Simulates(reg, kind, payload, eff, ans, w0, j, k, x) && WNext(reg, eff, j, x, Crash(r), x')
    ensures Simulates(reg, kind, payload, eff, ans, w0, j, k, x')
  {
    if x.y.runs[r].job == j {
      DropStep(reg, kind, payload, eff, ans, w0, j, k, x, r, x');
    } else {
      StillStep(reg, kind, payload, eff, ans, w0, j, k, x, x');
    }
  }

  ghost predicate InOrder<W>(reg: Registry, kind: string, payload: Json, eff: Effects<W>, ans: Answers, w0: W, j: JobId, k: nat, x: WSys<W>) {
    SysInv(reg, x.y) && j in x.y.store.issued && Simulates(reg, kind, payload, eff, ans, w0, j, k, x)
  }

  lemma AnyStep<W(!new)>(reg: Registry, kind: string, payload: Json, eff: Effects<W>, ans: Answers, w0: W, j: JobId, k: nat, x: WSys<W>, l: Label, x': WSys<W>)
    returns (k': nat)
    requires InOrder(reg, kind, payload, eff, ans, w0, j, k, x)
    requires Idempotent(eff) && WNext(reg, eff, j, x, l, x') && OnRecord(ans, x.y, j) && OnRecord(ans, x'.y, j)
    ensures Simulates(reg, kind, payload, eff, ans, w0, j, k', x')
  {
    k' := k;
    match l
    case Env(op) => QuietStep(reg, kind, payload, eff, ans, w0, j, k, x, op, x');
    case Start(claim, jobs) => StartStep(reg, kind, payload, eff, ans, w0, j, k, x, claim, jobs, x');
    case Move(r, c) => k' := MoveStep(reg, kind, payload, eff, ans, w0, j, k, x, r, c, x');
    case Crash(r) => CrashStep(reg, kind, payload, eff, ans, w0, j, k, x, r, x');
  }

  lemma StaysInOrder(reg: Registry, y: Sys, l: Label, j: JobId)
    requires SysInv(reg, y) && LegalLabel(reg, y, l) && j in y.store.issued
    ensures SysInv(reg, Next(reg, y, l)) && j in Next(reg, y, l).store.issued
  {
    NextKept(reg, y, l);
    StoreOfNext(reg, y, l);
  }

  lemma AtTheStart<W>(reg: Registry, kind: string, payload: Json, eff: Effects<W>, ans: Answers, j: JobId, x: WSys<W>)
    requires Unstarted(reg, j, x) && x.y.store.jobs[j].row.kind == kind && x.y.store.jobs[j].row.payload == payload
    ensures InOrder(reg, kind, payload, eff, ans, x.w, j, 0, x)
  {
  }

  lemma OrderKept<W(!new)>(reg: Registry, kind: string, payload: Json, eff: Effects<W>, ans: Answers, w0: W, j: JobId, k: nat, x: WSys<W>, l: Label, x': WSys<W>)
    returns (k': nat)
    requires Idempotent(eff) && OnRecord(ans, x.y, j) && OnRecord(ans, x'.y, j)
    requires InOrder(reg, kind, payload, eff, ans, w0, j, k, x) && WNext(reg, eff, j, x, l, x')
    ensures InOrder(reg, kind, payload, eff, ans, w0, j, k', x')
  {
    StaysInOrder(reg, x.y, l, j);
    k' := AnyStep(reg, kind, payload, eff, ans, w0, j, k, x, l, x');
  }

  lemma {:induction false} AlwaysInOrder<W(!new)>(reg: Registry, kind: string, payload: Json, eff: Effects<W>, ans: Answers, w0: W, j: JobId,
                                                  xs: seq<WSys<W>>, ls: seq<Label>, n: nat) returns (k: nat)
    requires Idempotent(eff) && Behavior(reg, eff, j, xs, ls) && forall i | 0 <= i < |xs| :: OnRecord(ans, xs[i].y, j)
    requires InOrder(reg, kind, payload, eff, ans, w0, j, 0, xs[0]) && n <= |ls|
    ensures InOrder(reg, kind, payload, eff, ans, w0, j, k, xs[n])
  {
    if n == 0 {
      k := 0;
    } else {
      k := AlwaysInOrder(reg, kind, payload, eff, ans, w0, j, xs, ls, n - 1);
      assert WNext(reg, eff, j, xs[n - 1], ls[n - 1], xs[n - 1 + 1]);
      k := OrderKept(reg, kind, payload, eff, ans, w0, j, k, xs[n - 1], ls[n - 1], xs[n]);
    }
  }

  // ------------------------------------------------------------- the answers

  /** What was answered, read off the end: the checkpoints of job `j`, and the results of
      all jobs there ever were. */
  function AnswersOf(y: Sys, j: JobId): Answers {
    Answers(if j in y.seen then y.seen[j].steps else map[], map id | id in y.seen :: OrEmpty(y.seen[id].row.result))
  }

  /** What is on record at the end fits what was on record before. */
  lemma WasOnRecord(y: Sys, last: Sys, j: JobId)
    requires SeenOk(y.store, y.seen) && SeenGrows(y.seen, last.seen)
    ensures OnRecord(AnswersOf(last, j), y, j)
  {
    if j in y.store.jobs {
      assert Grows(y.seen[j], last.seen[j]);
      forall id | id in y.store.jobs
        ensures id in last.seen && Grows(y.store.jobs[id], last.seen[id])
      {
        assert y.seen[id] == y.store.jobs[id];
      }
    }
  }

  lemma {:induction false} InvUpTo<W>(reg: Registry, eff: Effects<W>, j: JobId, xs: seq<WSys<W>>, ls: seq<Label>, n: nat)
    requires Behavior(reg, eff, j, xs, ls) && SysInv(reg, xs[0].y) && n <= |ls|
    ensures SysInv(reg, xs[n].y)
  {
    if n > 0 {
      InvUpTo(reg, eff, j, xs, ls, n - 1);
      assert WNext(reg, eff, j, xs[n - 1], ls[n - 1], xs[n - 1 + 1]);
      NextKept(reg, xs[n - 1].y, ls[n - 1]);
    }
  }

  lemma SeenGrowsOn(a: map<JobId, Entry>, b: map<JobId, Entry>, c: map<JobId, Entry>)
    requires SeenGrows(a, b) && SeenGrows(b, c)
    ensures SeenGrows(a, c)
  {
    forall id | id in a
      ensures id in c && Grows(a[id], c[id])
    {
      GrowsTransitive(a[id], b[id], c[id]);
    }
  }

  lemma GrowsAt<W>(reg: Registry, eff: Effects<W>, j: JobId, xs: seq<WSys<W>>, ls: seq<Label>, n: nat)
    requires Behavior(reg, eff, j, xs, ls) && n < |ls| && SysInv(reg, xs[n].y)
    ensures SeenGrows(xs[n].y.seen, xs[n + 1].y.seen)
  {
    assert WNext(reg, eff, j, xs[n], ls[n], xs[n + 1]);
    StepGrows(reg, xs[n].y, ls[n]);
  }

  lemma {:induction false} GrowsUpTo<W>(reg: Registry, eff: Effects<W>, j: JobId, xs: seq<WSys<W>>, ls: seq<Label>, i: nat, n: nat)
    requires Behavior(reg, eff, j, xs, ls) && SysInv(reg, xs[0].y) && i <= n <= |ls|
    ensures SeenGrows(xs[i].y.seen, xs[n].y.seen)
    decreases n
  {
    if n == i {
      assert forall id | id in xs[i].y.seen :: Grows(xs[i].y.seen[id], xs[i].y.seen[id]);
    } else {
      GrowsUpTo(reg, eff, j, xs, ls, i, n - 1);
      InvUpTo(reg, eff, j, xs, ls, n - 1);
      GrowsAt(reg, eff, j, xs, ls, n - 1);
      SeenGrowsOn(xs[i].y.seen, xs[n - 1].y.seen, xs[n].y.seen);
    }
  }

  // ---------------------------------------------------------------- theorems

  lemma AtTheEnd<W>(reg: Registry, kind: string, payload: Json, eff: Effects<W>, ans: Answers, w0: W, j: JobId, k: nat, x: WSys<W>)
    requires Simulates(reg, kind, payload, eff, ans, w0, j, k, x)
    requires j in x.y.store.jobs && x.y.store.jobs[j].row.status == Succeeded
    ensures var ideal := IdealAfter(CodeOf(reg, kind, payload), eff, ans, w0, k);
            var end := reg(kind, payload, Seen(ideal.obs));
            && end.Return? && x.w == ideal.w && x.y.store.jobs[j].steps == ideal.steps
            && x.y.store.jobs[j].row.result == Some(OrEmpty(end.result))
            && x.execs <= ideal.bodies + x.aborts
  {
  }

  /** Effectively once. Start with a job of which nothing has run, take any
      behaviour with non-overlapping runs that completes it, with any crashes,
      failed bodies, lost leases and retries on the way, and with any waits, timers and
      children. World, checkpoints and result are those of one run without interruption
      that takes `n` actions and gets the same answers to its waits, timers and children,
      and no body has been executed more than once, except for one time per aborted run. */
  lemma AsIfUninterrupted<W(!new)>(reg: Registry, eff: Effects<W>, j: JobId, xs: seq<WSys<W>>, ls: seq<Label>) returns (n: nat)
    requires Idempotent(eff) && Behavior(reg, eff, j, xs, ls) && Unstarted(reg, j, xs[0])
    requires var s := xs[|ls|].y.store; j in s.jobs && s.jobs[j].row.status == Succeeded
    ensures var row := xs[0].y.store.jobs[j].row;
            var code, last := CodeOf(reg, row.kind, row.payload), xs[|ls|];
            var ideal := IdealAfter(code, eff, AnswersOf(last.y, j), xs[0].w, n);
            var end := code(Seen(ideal.obs));
            && end.Return?
            && last.w == ideal.w
            && last.y.store.jobs[j].row.result == Some(OrEmpty(end.result))
            && last.y.store.jobs[j].steps == ideal.steps
            && last.execs <= ideal.bodies + last.aborts && ideal.bodies <= |ideal.steps|
  {
    var row, ans := xs[0].y.store.jobs[j].row, AnswersOf(xs[|ls|].y, j);
    AtTheStart(reg, row.kind, row.payload, eff, ans, j, xs[0]);
    forall i | 0 <= i < |xs|
      ensures OnRecord(ans, xs[i].y, j)
    {
      InvUpTo(reg, eff, j, xs, ls, i);
      GrowsUpTo(reg, eff, j, xs, ls, i, |ls|);
      WasOnRecord(xs[i].y, xs[|ls|].y, j);
    }
    n := AlwaysInOrder(reg, row.kind, row.payload, eff, ans, xs[0].w, j, xs, ls, |ls|);
    AtTheEnd(reg, row.kind, row.payload, eff, ans, xs[0].w, j, n, xs[|ls|]);
    BodiesAreSaved(CodeOf(reg, row.kind, row.payload), eff, ans, xs[0].w, n);
  }

  lemma SameEnd<W>(code: Code, eff: Effects<W>, w0: W, ans: Answers, ans': Answers, n: nat, m: nat)
    requires SameAnswers(code, eff, w0, ans, ans')
    requires code(Seen(IdealAfter(code, eff, ans, w0, n).obs)).Return? && code(Seen(IdealAfter(code, eff, ans', w0, m).obs)).Return?
    ensures IdealAfter(code, eff, ans, w0, n) == IdealAfter(code, eff, ans', w0, m)
  {
    SameIdeal(code, eff, w0, ans, ans', m);
    if n <= m {
      IdealEnds(code, eff, ans, w0, n, m);
    } else {
      IdealEnds(code, eff, ans, w0, m, n);
    }
  }

  /** So any two ways in which the same job completes, with the same answers to its waits,
      timers and children, leave the same world and the same result behind. A workflow of
      steps asks for none. */
  lemma SameEffects<W(!new)>(reg: Registry, eff: Effects<W>, j: JobId, xs: seq<WSys<W>>, ls: seq<Label>, ys: seq<WSys<W>>, ms: seq<Label>)
    requires Idempotent(eff) && Behavior(reg, eff, j, xs, ls) && Behavior(reg, eff, j, ys, ms)
    requires Unstarted(reg, j, xs[0]) && ys[0] == xs[0]
    requires var s := xs[|ls|].y.store; j in s.jobs && s.jobs[j].row.status == Succeeded
    requires var s := ys[|ms|].y.store; j in s.jobs && s.jobs[j].row.status == Succeeded
    requires var code := CodeOf(reg, xs[0].y.store.jobs[j].row.kind, xs[0].y.store.jobs[j].row.payload);
             Flat(code) || SameAnswers(code, eff, xs[0].w, AnswersOf(xs[|ls|].y, j), AnswersOf(ys[|ms|].y, j))
    ensures xs[|ls|].w == ys[|ms|].w
    ensures xs[|ls|].y.store.jobs[j].row.result == ys[|ms|].y.store.jobs[j].row.result
    ensures xs[|ls|].y.store.jobs[j].steps == ys[|ms|].y.store.jobs[j].steps
  {
    var row := xs[0].y.store.jobs[j].row;
    var code, ans, w0 := CodeOf(reg, row.kind, row.payload), AnswersOf(xs[|ls|].y, j), xs[0].w;
    var n := AsIfUninterrupted(reg, eff, j, xs, ls);
    var m := AsIfUninterrupted(reg, eff, j, ys, ms);
    if Flat(code) { FlatAsksNothing(code, eff, w0, ans, AnswersOf(ys[|ms|].y, j)); }
    SameEnd(code, eff, w0, ans, AnswersOf(ys[|ms|].y, j), n, m);
  }
}
