/** The uninterrupted run is itself a behaviour of the system, so effectively once
    compares executions with an execution. */
module Uninterrupted {
  import opened Values
  import opened Jobs
  import opened StoreModel
  import opened StoreInvariant
  import opened Runtime
  import opened RuntimeSystem
  import opened Simulation
  import opened EffectivelyOnce

  /** Some behaviour leads from `x` to `x'`. */
  ghost predicate LeadsTo<W(!new)>(reg: Registry, eff: Effects<W>, j: JobId, x: WSys<W>, x': WSys<W>) {
    exists xs, ls :: Behavior(reg, eff, j, xs, ls) && xs[0] == x && xs[|ls|] == x'
  }

  lemma Stays<W(!new)>(reg: Registry, eff: Effects<W>, j: JobId, x: WSys<W>)
    ensures LeadsTo(reg, eff, j, x, x)
  {
    var ls: seq<Label> := [];
    assert Behavior(reg, eff, j, [x], ls) && [x][0] == x && [x][|ls|] == x;
  }

  lemma LeadsOn<W(!new)>(reg: Registry, eff: Effects<W>, j: JobId, x: WSys<W>, x1: WSys<W>, l: Label, x2: WSys<W>)
    requires LeadsTo(reg, eff, j, x, x1) && WNext(reg, eff, j, x1, l, x2)
    ensures LeadsTo(reg, eff, j, x, x2)
  {
    var xs, ls :| Behavior(reg, eff, j, xs, ls) && xs[0] == x && xs[|ls|] == x1;
    Extended(reg, eff, j, xs, ls, l, x2);
  }

  lemma Extended<W(!new)>(reg: Registry, eff: Effects<W>, j: JobId, xs: seq<WSys<W>>, ls: seq<Label>, l: Label, x2: WSys<W>)
    requires Behavior(reg, eff, j, xs, ls) && WNext(reg, eff, j, xs[|ls|], l, x2)
    ensures LeadsTo(reg, eff, j, xs[0], x2)
  {
    var ys, ms := xs + [x2], ls + [l];
    forall i | 0 <= i < |ms|
      ensures WNext(reg, eff, j, ys[i], ms[i], ys[i + 1])
    {
      if i < |ls| {
        assert ys[i] == xs[i] && ys[i + 1] == xs[i + 1] && ms[i] == ls[i];
      }
    }
    assert Behavior(reg, eff, j, ys, ms) && ys[0] == xs[0] && ys[|ms|] == x2;
  }

  // ------------------------------------------------------------ single moves

  /** A move of run `r` of job `j` that does not abort it. */
  lemma OneMove<W(!new)>(reg: Registry, eff: Effects<W>, j: JobId, x0: WSys<W>, x: WSys<W>, r: nat, c: Choice, w: W)
    returns (x': WSys<W>)
    requires LeadsTo(reg, eff, j, x0, x) && r < |x.y.runs| && x.y.runs[r].job == j
    requires Acts(eff, NextAction(reg, x.y.runs[r]), x.y.runs[r], c, x.w, w)
    requires var (write, run') := StepRun(reg, x.y.store, x.y.runs[r], c);
             !c.Break? && (write.Some? ==> Legal(x.y.store, write.value)) && !Aborts(NextAction(reg, x.y.runs[r]), x.y.runs[r], run')
    ensures LeadsTo(reg, eff, j, x0, x') && x'.w == w && x'.aborts == x.aborts
    ensures x'.execs == x.execs + if x.y.runs[r].phase.Missed? && NextAction(reg, x.y.runs[r]).DoStep? && c.Body? then 1 else 0
    ensures var (write, run') := StepRun(reg, x.y.store, x.y.runs[r], c);
            x'.y.store == StoreAfter(x.y.store, write) && x'.y.runs == x.y.runs[r := run']
  {
    var body := x.y.runs[r].phase.Missed? && NextAction(reg, x.y.runs[r]).DoStep? && c.Body?;
    x' := WSys(Next(reg, x.y, Move(r, c)), w, x.execs + if body then 1 else 0, x.aborts);
    LeadsOn(reg, eff, j, x0, x, Move(r, c), x');
  }

  /** Run `r` holds the job's lease and has kept to the uninterrupted run so far. */
  ghost predicate Along<W>(code: Code, eff: Effects<W>, w0: W, n: nat, s: State, run: Run, w: W) {
    var id := IdealAfter(code, eff, NO_ANSWERS, w0, n);
    && OwnsJob(s, run.job, run.worker) && run.obs == id.obs
    && s.jobs[run.job].steps == id.steps && w == id.w
  }

  /** At its n-th action, and every body that was executed is checkpointed. */
  ghost predicate AtAction<W>(reg: Registry, kind: string, payload: Json, eff: Effects<W>, w0: W, j: JobId, n: nat, x: WSys<W>, r: nat) {
    && r < |x.y.runs| && x.y.runs[r].job == j && x.y.runs[r].phase.Ready?
    && x.y.runs[r].kind == kind && x.y.runs[r].payload == payload
    && Along(CodeOf(reg, kind, payload), eff, w0, n, x.y.store, x.y.runs[r], x.w)
    && x.execs == IdealAfter(CodeOf(reg, kind, payload), eff, NO_ANSWERS, w0, n).bodies && x.aborts == 0
  }

  // ------------------------------------------- the small steps of one action

  lemma Looks(reg: Registry, s: State, run: Run)
    requires run.phase.Ready? && run.job in s.jobs && NextAction(reg, run).DoStep?
    ensures var key, e := KeyFor(NextAction(reg, run)), s.jobs[run.job];
            StepRun(reg, s, run, Go) == (None, run.(phase := if key in e.steps then Loaded(e.steps[key]) else Missed))
  {
  }

  lemma Works(reg: Registry, s: State, run: Run, value: Json)
    requires run.phase.Missed? && NextAction(reg, run).DoStep?
    ensures StepRun(reg, s, run, Body(Ok(Some(value)))) == (None, run.(phase := Produced(value)))
  {
  }

  lemma Checks(reg: Registry, s: State, run: Run, value: Json)
    requires run.phase == Produced(value) && NextAction(reg, run).DoStep? && OwnsJob(s, run.job, run.worker)
    ensures StepRun(reg, s, run, Go) == (None, run.(phase := Owned(value)))
  {
  }

  lemma Saves(reg: Registry, s: State, run: Run, value: Json)
    requires run.phase == Owned(value) && NextAction(reg, run).DoStep? && OwnsJob(s, run.job, run.worker)
    requires KeyFor(NextAction(reg, run)) !in s.jobs[run.job].steps
    ensures var key := KeyFor(NextAction(reg, run));
            var op := InsertStep(run.job, key, value);
            && StepRun(reg, s, run, Go) == (Some(op), run.(phase := Loaded(value))) && Legal(s, op)
            && OwnsJob(Apply(s, op), run.job, run.worker)
            && Apply(s, op).jobs[run.job].steps == s.jobs[run.job].steps[key := value]
  {
    Inserted(s, run.job, KeyFor(NextAction(reg, run)), value);
  }

  lemma Uses(reg: Registry, s: State, run: Run, value: Json)
    requires run.phase == Loaded(value) && NextAction(reg, run).DoStep?
    ensures StepRun(reg, s, run, Go) == (None, Observe(run, Value(KeyFor(NextAction(reg, run)), value)))
  {
  }

  // --------------------------------------------------------------- one action

  /** A step with a checkpoint is looked up. */
  lemma Replays<W(!new)>(reg: Registry, kind: string, payload: Json, eff: Effects<W>, j: JobId, x0: WSys<W>, w0: W, n: nat, x: WSys<W>, r: nat)
    returns (x': WSys<W>)
    requires LeadsTo(reg, eff, j, x0, x) && AtAction(reg, kind, payload, eff, w0, j, n, x, r)
    requires NextAction(reg, x.y.runs[r]).DoStep? && KeyFor(NextAction(reg, x.y.runs[r])) in x.y.store.jobs[j].steps
    ensures LeadsTo(reg, eff, j, x0, x') && AtAction(reg, kind, payload, eff, w0, j, n + 1, x', r)
  {
    var run := x.y.runs[r];
    var value := x.y.store.jobs[j].steps[KeyFor(NextAction(reg, run))];
    Looks(reg, x.y.store, run);
    x' := OneMove(reg, eff, j, x0, x, r, Go, x.w);
    Uses(reg, x'.y.store, x'.y.runs[r], value);
    x' := OneMove(reg, eff, j, x0, x', r, Go, x.w);
  }

  /** A step without one is executed and saved. */
  lemma Performs<W(!new)>(reg: Registry, kind: string, payload: Json, eff: Effects<W>, j: JobId, x0: WSys<W>, w0: W, n: nat, x: WSys<W>, r: nat)
    returns (x': WSys<W>)
    requires LeadsTo(reg, eff, j, x0, x) && AtAction(reg, kind, payload, eff, w0, j, n, x, r)
    requires NextAction(reg, x.y.runs[r]).DoStep? && KeyFor(NextAction(reg, x.y.runs[r])) !in x.y.store.jobs[j].steps
    ensures LeadsTo(reg, eff, j, x0, x') && AtAction(reg, kind, payload, eff, w0, j, n + 1, x', r)
  {
    var run := x.y.runs[r];
    var (w, value) := eff(KeyFor(NextAction(reg, run)), x.w);
    x' := WorksThrough(reg, eff, j, x0, x, r, w, value);
    x' := Records(reg, eff, j, x0, x', r, value);
  }

  /** Up to the body's return. */
  lemma WorksThrough<W(!new)>(reg: Registry, eff: Effects<W>, j: JobId, x0: WSys<W>, x: WSys<W>, r: nat, w: W, value: Json)
    returns (x': WSys<W>)
    requires LeadsTo(reg, eff, j, x0, x) && r < |x.y.runs| && x.y.runs[r].job == j && x.y.runs[r].phase.Ready?
    requires j in x.y.store.jobs && NextAction(reg, x.y.runs[r]).DoStep?
    requires KeyFor(NextAction(reg, x.y.runs[r])) !in x.y.store.jobs[j].steps
    requires eff(KeyFor(NextAction(reg, x.y.runs[r])), x.w) == (w, value)
    ensures LeadsTo(reg, eff, j, x0, x') && x'.w == w && x'.execs == x.execs + 1 && x'.aborts == x.aborts
    ensures x'.y.store == x.y.store && x'.y.runs == x.y.runs[r := x.y.runs[r].(phase := Produced(value))]
  {
    Looks(reg, x.y.store, x.y.runs[r]);
    x' := OneMove(reg, eff, j, x0, x, r, Go, x.w);
    Works(reg, x'.y.store, x'.y.runs[r], value);
    x' := OneMove(reg, eff, j, x0, x', r, Body(Ok(Some(value))), w);
  }

  /** From the body's return to the next action. */
  lemma Records<W(!new)>(reg: Registry, eff: Effects<W>, j: JobId, x0: WSys<W>, x: WSys<W>, r: nat, value: Json)
    returns (x': WSys<W>)
    requires LeadsTo(reg, eff, j, x0, x) && r < |x.y.runs| && x.y.runs[r].job == j && x.y.runs[r].phase == Produced(value)
    requires OwnsJob(x.y.store, j, x.y.runs[r].worker) && NextAction(reg, x.y.runs[r]).DoStep?
    requires KeyFor(NextAction(reg, x.y.runs[r])) !in x.y.store.jobs[j].steps
    ensures LeadsTo(reg, eff, j, x0, x') && x'.w == x.w && x'.execs == x.execs && x'.aborts == x.aborts
    ensures OwnsJob(x'.y.store, j, x.y.runs[r].worker)
    ensures var key := KeyFor(NextAction(reg, x.y.runs[r]));
            && x'.y.store.jobs[j].steps == x.y.store.jobs[j].steps[key := value]
            && x'.y.runs == x.y.runs[r := Observe(x.y.runs[r], Value(key, value))]
  {
    Checks(reg, x.y.store, x.y.runs[r], value);
    x' := OneMove(reg, eff, j, x0, x, r, Go, x.w);
    Saves(reg, x'.y.store, x'.y.runs[r], value);
    x' := OneMove(reg, eff, j, x0, x', r, Go, x.w);
    Uses(reg, x'.y.store, x'.y.runs[r], value);
    x' := OneMove(reg, eff, j, x0, x', r, Go, x.w);
  }

  // ------------------------------------------------------ from claim to result

  /** A timer that is due at once is passed. */
  lemma PassesNap<W(!new)>(reg: Registry, kind: string, payload: Json, eff: Effects<W>, j: JobId, x0: WSys<W>, w0: W, n: nat, x: WSys<W>, r: nat)
    returns (x': WSys<W>)
    requires LeadsTo(reg, eff, j, x0, x) && AtAction(reg, kind, payload, eff, w0, j, n, x, r)
    requires Naps(NextAction(reg, x.y.runs[r]))
    ensures LeadsTo(reg, eff, j, x0, x') && AtAction(reg, kind, payload, eff, w0, j, n + 1, x', r)
  {
    var run := x.y.runs[r];
    assert StepRun(reg, x.y.store, run, Go) == (None, Observe(run, NoNap));
    x' := OneMove(reg, eff, j, x0, x, r, Go, x.w);
  }

  lemma OneAction<W(!new)>(reg: Registry, kind: string, payload: Json, eff: Effects<W>, j: JobId, x0: WSys<W>, w0: W, n: nat, x: WSys<W>, r: nat)
    returns (x': WSys<W>)
    requires LeadsTo(reg, eff, j, x0, x) && AtAction(reg, kind, payload, eff, w0, j, n, x, r)
    ensures LeadsTo(reg, eff, j, x0, x') && AtAction(reg, kind, payload, eff, w0, j, n + 1, x', r)
  {
    var a := NextAction(reg, x.y.runs[r]);
    if Naps(a) {
      x' := PassesNap(reg, kind, payload, eff, j, x0, w0, n, x, r);
    } else if !a.DoStep? {
      x' := x;
    } else if KeyFor(a) in x.y.store.jobs[j].steps {
      x' := Replays(reg, kind, payload, eff, j, x0, w0, n, x, r);
    } else {
      x' := Performs(reg, kind, payload, eff, j, x0, w0, n, x, r);
    }
  }

  lemma {:induction false} Actions<W(!new)>(reg: Registry, kind: string, payload: Json, eff: Effects<W>, j: JobId, x0: WSys<W>, w0: W, n: nat, x: WSys<W>, r: nat)
    returns (x': WSys<W>)
    requires LeadsTo(reg, eff, j, x0, x) && AtAction(reg, kind, payload, eff, w0, j, 0, x, r)
    ensures LeadsTo(reg, eff, j, x0, x') && AtAction(reg, kind, payload, eff, w0, j, n, x', r)
    decreases n
  {
    if n == 0 {
      x' := x;
    } else {
      x' := Actions(reg, kind, payload, eff, j, x0, w0, n - 1, x, r);
      x' := OneAction(reg, kind, payload, eff, j, x0, w0, n - 1, x', r);
    }
  }

  /** The claim can be made, and takes this job only. */
  ghost predicate ClaimsOnly(s: State, claim: Op, j: JobId) {
    claim.Claim? && Legal(s, claim) && claim.picked == {j}
  }

  lemma ClaimedRows(s: State, claim: Op, j: JobId)
    requires Inv(s) && j in s.jobs && ClaimsOnly(s, claim, j)
    ensures var s' := Apply(s, claim);
            && OwnsJob(s', j, claim.worker) && s'.jobs[j].steps == s.jobs[j].steps
            && s'.jobs[j].row.kind == s.jobs[j].row.kind && s'.jobs[j].row.payload == s.jobs[j].row.payload
  {
    var s' := Apply(s, claim);
    assert j in s'.jobs;
    RowsAfter(s, claim, j);
  }

  lemma StartLabel(reg: Registry, y: Sys, j: JobId, claim: Op)
    requires j in y.store.jobs && ClaimsOnly(y.store, claim, j)
    ensures LegalLabel(reg, y, Start(claim, [j]))
    ensures var y' := Next(reg, y, Start(claim, [j]));
            y'.store == Apply(y.store, claim) && j in y'.store.jobs && y'.runs == y.runs + [NewRun(y'.store, j, claim.worker)]
  {
    var jobs := [j];
    assert claim.picked == (set i | 0 <= i < |jobs| :: jobs[i]) by {
      assert jobs[0] == j;
    }
    assert j in Apply(y.store, claim).jobs;
    assert NewRuns(Apply(y.store, claim), jobs, claim.worker) == [NewRun(Apply(y.store, claim), j, claim.worker)];
  }

  lemma StartsNext<W>(reg: Registry, eff: Effects<W>, j: JobId, x: WSys<W>, claim: Op)
    requires j in x.y.store.jobs && ClaimsOnly(x.y.store, claim, j) && AllGone(x.y.runs, j)
    requires LegalLabel(reg, x.y, Start(claim, [j]))
    ensures WNext(reg, eff, j, x, Start(claim, [j]), x.(y := Next(reg, x.y, Start(claim, [j]))))
  {
  }

  lemma Starts<W(!new)>(reg: Registry, eff: Effects<W>, j: JobId, x0: WSys<W>, claim: Op) returns (x': WSys<W>, r: nat)
    requires Unstarted(reg, j, x0) && ClaimsOnly(x0.y.store, claim, j)
    ensures LeadsTo(reg, eff, j, x0, x')
    ensures var row := x0.y.store.jobs[j].row; AtAction(reg, row.kind, row.payload, eff, x0.w, j, 0, x', r)
  {
    ClaimedRows(x0.y.store, claim, j);
    StartLabel(reg, x0.y, j, claim);
    StartsNext(reg, eff, j, x0, claim);
    r := |x0.y.runs|;
    x' := x0.(y := Next(reg, x0.y, Start(claim, [j])));
    Stays(reg, eff, j, x0);
    LeadsOn(reg, eff, j, x0, x0, Start(claim, [j]), x');
  }

  lemma Returns<W(!new)>(reg: Registry, eff: Effects<W>, j: JobId, x0: WSys<W>, x: WSys<W>, r: nat) returns (x': WSys<W>)
    requires LeadsTo(reg, eff, j, x0, x) && r < |x.y.runs| && x.y.runs[r].job == j && x.y.runs[r].phase.Ready?
    requires OwnsJob(x.y.store, j, x.y.runs[r].worker) && NextAction(reg, x.y.runs[r]).Return?
    ensures LeadsTo(reg, eff, j, x0, x') && x'.w == x.w && x'.execs == x.execs && x'.aborts == x.aborts
    ensures j in x'.y.store.jobs && x'.y.store.jobs[j].row.status == Succeeded
    ensures x'.y.store.jobs[j].row.result == Some(OrEmpty(NextAction(reg, x.y.runs[r]).result))
  {
    var run := x.y.runs[r];
    var result := NextAction(reg, run).result;
    assert StepRun(reg, x.y.store, run, Go) == (None, run.(phase := Ended(Returned(result), None)));
    x' := OneMove(reg, eff, j, x0, x, r, Go, x.w);
    EndedRun(reg, x'.y.store, x'.y.runs[r], Go);
    CompletedRows(x'.y.store, j, run.worker, result);
    x' := OneMove(reg, eff, j, x0, x', r, Go, x.w);
  }

  lemma CompletedRows(s: State, j: JobId, worker: WorkerId, result: Option<Json>)
    requires OwnsJob(s, j, worker)
    ensures var s' := Apply(s, Complete(j, worker, result));
            j in s'.jobs && s'.jobs[j].row.status == Succeeded && s'.jobs[j].row.result == Some(OrEmpty(result))
  {
  }

  /** If the uninterrupted run comes to a result after n actions, a claim and a run
      that nothing disturbs bring the job there: with its world and result, and with
      every body executed exactly once. */
  lemma CanComplete<W(!new)>(reg: Registry, eff: Effects<W>, j: JobId, x: WSys<W>, claim: Op, n: nat) returns (x': WSys<W>)
    requires Unstarted(reg, j, x) && ClaimsOnly(x.y.store, claim, j)
    requires var row := x.y.store.jobs[j].row;
             var code := CodeOf(reg, row.kind, row.payload);
             code(Seen(IdealAfter(code, eff, NO_ANSWERS, x.w, n).obs)).Return?
    ensures LeadsTo(reg, eff, j, x, x') && j in x'.y.store.jobs && x'.y.store.jobs[j].row.status == Succeeded
    ensures var row := x.y.store.jobs[j].row;
            var code := CodeOf(reg, row.kind, row.payload);
            var ideal := IdealAfter(code, eff, NO_ANSWERS, x.w, n);
            && x'.w == ideal.w && x'.y.store.jobs[j].row.result == Some(OrEmpty(code(Seen(ideal.obs)).result))
            && x'.execs == |ideal.steps| && x'.aborts == 0
  {
    var row, r := x.y.store.jobs[j].row, 0;
    x', r := Starts(reg, eff, j, x, claim);
    x' := Actions(reg, row.kind, row.payload, eff, j, x, x.w, n, x', r);
    x' := Returns(reg, eff, j, x, x', r);
    BodiesAreSaved(CodeOf(reg, row.kind, row.payload), eff, NO_ANSWERS, x.w, n);
  }

  /** Can it complete at all? Exactly if the uninterrupted run comes to a result. */
  lemma CompletesIff<W(!new)>(reg: Registry, eff: Effects<W>, j: JobId, x: WSys<W>, claim: Op, code: Code)
    requires Idempotent(eff) && Unstarted(reg, j, x) && ClaimsOnly(x.y.store, claim, j)
    requires code == CodeOf(reg, x.y.store.jobs[j].row.kind, x.y.store.jobs[j].row.payload) && Flat(code)
    ensures (exists x' :: LeadsTo(reg, eff, j, x, x') && j in x'.y.store.jobs && x'.y.store.jobs[j].row.status == Succeeded)
            <==> (exists n: nat :: code(Seen(IdealAfter(code, eff, NO_ANSWERS, x.w, n).obs)).Return?)
  {
    if x' :| LeadsTo(reg, eff, j, x, x') && j in x'.y.store.jobs && x'.y.store.jobs[j].row.status == Succeeded {
      var xs, ls :| Behavior(reg, eff, j, xs, ls) && xs[0] == x && xs[|ls|] == x';
      var n := AsIfUninterrupted(reg, eff, j, xs, ls);
      FlatAsksNothing(code, eff, x.w, AnswersOf(x'.y, j), NO_ANSWERS);
      SameIdeal(code, eff, x.w, AnswersOf(x'.y, j), NO_ANSWERS, n);
      assert code(Seen(IdealAfter(code, eff, NO_ANSWERS, x.w, n).obs)).Return?;
    }
    if n: nat :| code(Seen(IdealAfter(code, eff, NO_ANSWERS, x.w, n).obs)).Return? {
      var x' := CanComplete(reg, eff, j, x, claim, n);
    }
  }
}
