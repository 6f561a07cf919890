/** A parent fails for good only after one of its children did, and sees a result only
    after the child has succeeded with it. */
module ChildOutcomes {
  import opened Values
  import opened Faults
  import opened Jobs
  import opened StoreModel
  import opened Runtime
  import opened RuntimeInvariant
  import opened RuntimeSystem
  import opened Guarantees
  import opened Calls

  /** The states of an interleaving, from the empty system on. */
  ghost predicate Execution(reg: Registry, ys: seq<Sys>, ls: seq<Label>) {
    && |ys| == |ls| + 1 && ys[0] == EMPTY_SYS
    && forall n | 0 <= n < |ls| :: LegalLabel(reg, ys[n], ls[n]) && ys[n + 1] == Next(reg, ys[n], ls[n])
  }

  /** The run is at a child, and ends with a permanent error. */
  predicate GivesUpOnChild(reg: Registry, run: Run) {
    && NextAction(reg, run).DoChild?
    && run.phase.Ended? && run.phase.outcome.Broken? && IsPermanent(run.phase.outcome.fault)
  }

  /** The run is at the same call. */
  predicate SameCall(run: Run, run': Run) {
    run'.job == run.job && run'.kind == run.kind && run'.payload == run.payload && run'.obs == run.obs
  }

  /** With this step the run gave up: a database call failed with an error that is marked
      permanent, or the child of its checkpoint was found dead-lettered or canceled. */
  ghost predicate GaveUp(reg: Registry, y: Sys, l: Label, r: nat, run: Run) {
    && l.Move? && l.r == r && r < |y.runs| && SameCall(y.runs[r], run)
    && ((l.c.Break? && IsPermanent(l.c.fault))
        || (Watches(reg, y, r) && ChildRow(reg, y, r).status in {DeadLetter, Canceled} && ChildOnRecord(reg, y, r)))
  }

  /** The child is the one that is checkpointed for this call. */
  predicate ChildOnRecord(reg: Registry, y: Sys, r: nat)
    requires Watches(reg, y, r)
  {
    y.runs[r].job in y.seen && Holds(y.seen[y.runs[r].job], KeyFor(NextAction(reg, y.runs[r])), JobRef(y.runs[r].phase.value.id))
  }

  lemma CallGivesUp(reg: Registry, s: State, run: Run, c: Choice)
    requires NextAction(reg, run).DoChild?
    requires var run' := StepCheckpointed(s, run, NextAction(reg, run), c).1;
             run' != run && run'.phase.Ended? && run'.phase.outcome.Broken? && IsPermanent(run'.phase.outcome.fault)
    ensures run.phase.Loaded? && run.phase.value.JobRef? && run.phase.value.id in s.jobs
    ensures s.jobs[run.phase.value.id].row.status in {DeadLetter, Canceled}
    ensures SameCall(run, StepCheckpointed(s, run, NextAction(reg, run), c).1)
  {
  }

  lemma BeginningKeepsCall(s: State, run: Run, a: Action)
    requires StartAction(s, run, a).phase.Ended?
    ensures SameCall(run, StartAction(s, run, a))
  {
  }

  lemma BodyKeepsCall(s: State, run: Run, a: Action, c: Choice)
    requires Checkpointed(a)
    ensures SameCall(run, RunBody(s, run, a, c).1)
  {
  }

  lemma UseKeepsCall(s: State, run: Run, a: Action, value: Json)
    requires Checkpointed(a) && UseCheckpoint(s, run, a, value).phase.Ended?
    ensures SameCall(run, UseCheckpoint(s, run, a, value))
  {
  }

  lemma CallKeepsCall(s: State, run: Run, a: Action, c: Choice)
    requires Checkpointed(a) && StepCheckpointed(s, run, a, c).1.phase.Ended?
    ensures SameCall(run, StepCheckpointed(s, run, a, c).1)
  {
    match run.phase
    case Missed => BodyKeepsCall(s, run, a, c);
    case Loaded(value) => UseKeepsCall(s, run, a, value);
    case _ =>
  }

  /** A run that ends is still at the call that ended it. */
  lemma EndKeepsCall(reg: Registry, s: State, run: Run, c: Choice)
    requires StepRun(reg, s, run, c).1.phase.Ended?
    ensures SameCall(run, StepRun(reg, s, run, c).1)
  {
    var a := NextAction(reg, run);
    if run.phase.Ended? || run.phase.Gone? || c.Break? {
    } else if run.phase.Ready? {
      BeginningKeepsCall(s, run, a);
    } else if Checkpointed(a) {
      CallKeepsCall(s, run, a, c);
    }
  }

  lemma SameNext(reg: Registry, run: Run, run': Run)
    requires SameCall(run, run')
    ensures NextAction(reg, run') == NextAction(reg, run)
  {
  }

  lemma BeginsChild(reg: Registry, s: State, run: Run)
    requires NextAction(reg, run).DoChild? && run.phase.Ready?
    ensures !StartAction(s, run, NextAction(reg, run)).phase.Ended?
  {
  }

  lemma StepGivesUp(reg: Registry, s: State, run: Run, c: Choice)
    requires !run.phase.Ended? && GivesUpOnChild(reg, StepRun(reg, s, run, c).1)
    ensures SameCall(run, StepRun(reg, s, run, c).1)
    ensures || (c.Break? && IsPermanent(c.fault))
            || (run.phase.Loaded? && run.phase.value.JobRef? && NextAction(reg, run).DoChild? && run.phase.value.id in s.jobs
                && s.jobs[run.phase.value.id].row.status in {DeadLetter, Canceled})
  {
    EndKeepsCall(reg, s, run, c);
    SameNext(reg, run, StepRun(reg, s, run, c).1);
    if c.Break? {
    } else if run.phase.Ready? {
      BeginsChild(reg, s, run);
    } else {
      CallGivesUp(reg, s, run, c);
    }
  }

  lemma LabelGivesUp(reg: Registry, y: Sys, l: Label, r: nat)
    requires SysInv(reg, y) && LegalLabel(reg, y, l) && r < |Next(reg, y, l).runs| && GivesUpOnChild(reg, Next(reg, y, l).runs[r])
    ensures (r < |y.runs| && y.runs[r] == Next(reg, y, l).runs[r]) || GaveUp(reg, y, l, r, Next(reg, y, l).runs[r])
  {
    if r < |y.runs| && y.runs[r] != Next(reg, y, l).runs[r] {
      MovedRun(reg, y, l, r);
      StepGivesUp(reg, y.store, y.runs[r], l.c);
      assert RunOk(reg, y.runs[r], y.seen, y.store);
      OnRecord(reg, y, r);
    }
  }

  lemma MovedRun(reg: Registry, y: Sys, l: Label, r: nat)
    requires LegalLabel(reg, y, l) && r < |y.runs| && y.runs[r] != Next(reg, y, l).runs[r] && !Next(reg, y, l).runs[r].phase.Gone?
    ensures l.Move? && l.r == r && Next(reg, y, l).runs[r] == StepRun(reg, y.store, y.runs[r], l.c).1 && !y.runs[r].phase.Ended?
  {
  }

  lemma OnRecord(reg: Registry, y: Sys, r: nat)
    requires r < |y.runs| && RunOk(reg, y.runs[r], y.seen, y.store)
    ensures Watches(reg, y, r) ==> ChildOnRecord(reg, y, r)
  {
  }

  lemma StepOf(reg: Registry, ys: seq<Sys>, ls: seq<Label>, n: nat)
    requires Execution(reg, ys, ls) && n < |ls|
    ensures LegalLabel(reg, ys[n], ls[n]) && ys[n + 1] == Next(reg, ys[n], ls[n])
  {
  }

  lemma {:induction false} ExecutionOk(reg: Registry, ys: seq<Sys>, ls: seq<Label>, n: nat)
    requires Execution(reg, ys, ls) && n <= |ls|
    ensures SysInv(reg, ys[n])
  {
    if n == 0 {
      EmptyOk(reg);
    } else {
      ExecutionOk(reg, ys, ls, n - 1);
      StepOf(reg, ys, ls, n - 1);
      NextKept(reg, ys[n - 1], ls[n - 1]);
    }
  }

  lemma LastStepGivesUp(reg: Registry, ys: seq<Sys>, ls: seq<Label>, n: nat, r: nat)
    requires Execution(reg, ys, ls) && n < |ls| && r < |ys[n + 1].runs| && GivesUpOnChild(reg, ys[n + 1].runs[r])
    ensures (r < |ys[n].runs| && ys[n].runs[r] == ys[n + 1].runs[r]) || GaveUp(reg, ys[n], ls[n], r, ys[n + 1].runs[r])
  {
    ExecutionOk(reg, ys, ls, n);
    StepOf(reg, ys, ls, n);
    LabelGivesUp(reg, ys[n], ls[n], r);
  }

  /** Among the first `n` steps there is one with which the run gave up. */
  ghost predicate GaveUpBy(reg: Registry, ys: seq<Sys>, ls: seq<Label>, n: nat, r: nat, run: Run)
    requires n <= |ls| <= |ys|
  {
    exists k :: 0 <= k < n && GaveUp(reg, ys[k], ls[k], r, run)
  }

  lemma GaveUpNow(reg: Registry, ys: seq<Sys>, ls: seq<Label>, n: nat, r: nat, run: Run)
    requires n < |ls| <= |ys|
    requires GaveUp(reg, ys[n], ls[n], r, run) || GaveUpBy(reg, ys, ls, n, r, run)
    ensures GaveUpBy(reg, ys, ls, n + 1, r, run)
  {
    if GaveUp(reg, ys[n], ls[n], r, run) {
    } else {
      var k :| 0 <= k < n && GaveUp(reg, ys[k], ls[k], r, run);
    }
  }

  /** A run that gave up for good on a child did so at some earlier step, at which the child
      was dead-lettered or canceled, unless the database failed it. */
  lemma {:induction false} ParentFailsAfterChild(reg: Registry, ys: seq<Sys>, ls: seq<Label>, n: nat, r: nat)
    requires Execution(reg, ys, ls) && n <= |ls| && r < |ys[n].runs| && GivesUpOnChild(reg, ys[n].runs[r])
    ensures GaveUpBy(reg, ys, ls, n, r, ys[n].runs[r])
  {
    if n > 0 {
      LastStepGivesUp(reg, ys, ls, n - 1, r);
      if r < |ys[n - 1].runs| && ys[n - 1].runs[r] == ys[n].runs[r] {
        ParentFailsAfterChild(reg, ys, ls, n - 1, r);
      }
      GaveUpNow(reg, ys, ls, n - 1, r, ys[n].runs[r]);
    }
  }

  /** A run that has seen a child's result: the child, the one of its checkpoint, has
      succeeded with it. */
  lemma ResultIsTheChilds(reg: Registry, y: Sys, r: nat, i: nat)
    requires Reachable(reg, y) && r < |y.runs| && i < |y.runs[r].obs| && y.runs[r].obs[i].ChildDone?
    ensures var run, o := y.runs[r], y.runs[r].obs[i];
            && o.child in y.seen && y.seen[o.child].row.status == Succeeded
            && o.result == (if y.seen[o.child].row.result.Some? then y.seen[o.child].row.result.value else EmptyObject)
            && run.job in y.seen && Holds(y.seen[run.job], o.key, JobRef(o.child))
  {
    ReachableOk(reg, y);
    assert RunOk(reg, y.runs[r], y.seen, y.store);
    assert ObsMatches(ActionAt(reg, y.runs[r], i), y.runs[r].obs[i], y.seen[y.runs[r].job], y.seen, y.store.now);
  }
}
