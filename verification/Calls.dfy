/** What a call comes to, in terms of the job's row: which finding suspends the run, which
    fails it, and until when. */
module Calls {
  import opened Values
  import opened Faults
  import opened Jobs
  import opened StoreModel
  import opened StoreInvariant
  import opened Columns
  import opened Runtime
  import opened RuntimeSystem
  import opened Guarantees

  // ------------------------------------------------------------ moves in a row

  /** Run `r` can make `n` moves in a row. */
  ghost predicate CanMove(reg: Registry, y: Sys, r: nat, n: nat)
    decreases n
  {
    n > 0 ==> LegalLabel(reg, y, Move(r, Go)) && CanMove(reg, Next(reg, y, Move(r, Go)), r, n - 1)
  }

  ghost function Moved(reg: Registry, y: Sys, r: nat, n: nat): (y': Sys)
    requires CanMove(reg, y, r, n)
    ensures |y'.runs| == |y.runs|
    decreases n
  {
    if n == 0 then y else Moved(reg, Next(reg, y, Move(r, Go)), r, n - 1)
  }

  /** One move: what it writes, and where the run is then. */
  lemma OneMove(reg: Registry, y: Sys, r: nat, write: Option<Op>, run: Run, n: nat) returns (y': Sys)
    requires r < |y.runs| && StepRun(reg, y.store, y.runs[r], Go) == (write, run)
    requires write.Some? ==> Legal(y.store, write.value)
    ensures LegalLabel(reg, y, Move(r, Go)) && y' == Next(reg, y, Move(r, Go))
    ensures y'.store == (if write.Some? then Apply(y.store, write.value) else y.store)
    ensures y'.runs == y.runs[r := run] && y'.parked == ParkedAfter(y, y.runs[r], write)
    ensures CanMove(reg, y', r, n) ==> CanMove(reg, y, r, n + 1) && Moved(reg, y, r, n + 1) == Moved(reg, y', r, n)
  {
    y' := Next(reg, y, Move(r, Go));
  }

  /** The run has the lease of its job, which has not been signaled since the claim. */
  predicate Undisturbed(s: State, run: Run) {
    && run.job in s.jobs && s.jobs[run.job].row.status == Running
    && s.jobs[run.job].row.leaseOwner == Some(run.worker) && s.jobs[run.job].row.wakeVersion == run.wake
  }

  /** The job waits in the queue until `due`, and the attempt was given back. */
  predicate ParkedUntil(s: State, run: Run, due: Time, s': State) {
    && run.job in s.jobs && run.job in s'.jobs
    && var row, row' := s.jobs[run.job].row, s'.jobs[run.job].row;
       row'.status == Queued && row'.runAfter == due && row'.leaseOwner == None && row'.attempt == row.attempt - 1
  }

  /** What a park leaves. */
  predicate Parked(y: Sys, r: nat, due: Time, y': Sys) {
    && r < |y.runs| && r < |y'.runs| && ParkedUntil(y.store, y.runs[r], due, y'.store) && y'.runs[r].phase.Gone?
    && y'.store.jobs[y.runs[r].job].steps == y.store.jobs[y.runs[r].job].steps
  }

  lemma SuspendsThen(reg: Registry, y: Sys, r: nat, due: Time, n: nat) returns (y': Sys)
    requires r < |y.runs| && Undisturbed(y.store, y.runs[r]) && y.store.jobs[y.runs[r].job].row.attempt >= 1
    requires y.runs[r].phase.Ended? && y.runs[r].phase.outcome.Broken?
    requires FindSuspension(y.runs[r].phase.outcome.fault) == Some(due)
    ensures Parked(y, r, due, y')
    ensures var run := y.runs[r];
            run.phase.nap.Some? ==> run.job in y'.parked && y'.parked[run.job] == run.phase.nap.value
    ensures CanMove(reg, y', r, n) ==> CanMove(reg, y, r, n + 1) && Moved(reg, y, r, n + 1) == Moved(reg, y', r, n)
  {
    var run := y.runs[r];
    var op := Suspend(run.job, run.worker, due, run.wake);
    assert StepRun(reg, y.store, run, Go) == (Some(op), run.(phase := Gone));
    SuspendMakes(y.store, run.job, run.worker, due, run.wake);
    y' := OneMove(reg, y, r, Some(op), run.(phase := Gone), n);
  }

  lemma Suspends(reg: Registry, y: Sys, r: nat, due: Time)
    requires r < |y.runs| && Undisturbed(y.store, y.runs[r]) && y.store.jobs[y.runs[r].job].row.attempt >= 1
    requires y.runs[r].phase.Ended? && y.runs[r].phase.outcome.Broken?
    requires FindSuspension(y.runs[r].phase.outcome.fault) == Some(due)
    ensures CanMove(reg, y, r, 1) && Parked(y, r, due, Moved(reg, y, r, 1))
    ensures var run, y' := y.runs[r], Moved(reg, y, r, 1);
            run.phase.nap.Some? ==> run.job in y'.parked && y'.parked[run.job] == run.phase.nap.value
  {
    var y' := SuspendsThen(reg, y, r, due, 0);
  }

  lemma HasAttempt(reg: Registry, y: Sys, r: nat)
    requires Reachable(reg, y) && r < |y.runs| && Undisturbed(y.store, y.runs[r])
    ensures y.store.jobs[y.runs[r].job].row.attempt >= 1
  {
    ReachableOk(reg, y);
    AttemptsSpent(y.store, y.runs[r].job);
  }

  // ----------------------------------------------------------------- waits

  /** The run waits for a delivery that its mailbox has not, or has. */
  predicate Looks(reg: Registry, y: Sys, r: nat) {
    r < |y.runs| && y.runs[r].phase.Missed? && NextAction(reg, y.runs[r]).DoWait? && NextAction(reg, y.runs[r]).index >= 0
    && y.runs[r].job in y.store.jobs
  }

  function Mailed(reg: Registry, y: Sys, r: nat): seq<Json>
    requires Looks(reg, y, r)
  {
    Named(y.store.jobs[y.runs[r].job].mail, NextAction(reg, y.runs[r]).name)
  }

  /** A wait that finds nothing suspends its run: two moves on, the job is parked for that
      delivery, for 5 seconds, and the attempt is given back. */
  lemma WaitParks(reg: Registry, y: Sys, r: nat)
    requires Reachable(reg, y) && Looks(reg, y, r) && Undisturbed(y.store, y.runs[r])
    requires |Mailed(reg, y, r)| <= NextAction(reg, y.runs[r]).index
    ensures CanMove(reg, y, r, 2)
    ensures var run, a, y' := y.runs[r], NextAction(reg, y.runs[r]), Moved(reg, y, r, 2);
            && ParkedUntil(y.store, run, y.store.now + 5_000_000_000, y'.store)
            && run.job in y'.parked && y'.parked[run.job] == (a.name, a.index)
  {
    var run, a := y.runs[r], NextAction(reg, y.runs[r]);
    var due := y.store.now + 5_000_000_000;
    HasAttempt(reg, y, r);
    var ended := run.(phase := Ended(Broken(Suspension(due)), Some((a.name, a.index))));
    assert StepRun(reg, y.store, run, Go) == (None, ended);
    var y1 := OneMove(reg, y, r, None, ended, 1);
    Suspends(reg, y1, r, due);
  }

  /** Nothing but a failing database call makes a wait fail its run: one that finds no
      delivery ends in a park, signaled or not, lease or no lease. */
  lemma WaitNeverFails(reg: Registry, y: Sys, r: nat, c: Choice)
    requires Looks(reg, y, r) && !c.Break?
    ensures var run, a := y.runs[r], NextAction(reg, y.runs[r]);
            var (write, run') := StepRun(reg, y.store, run, c);
            && write == None
            && if a.index < |Mailed(reg, y, r)| then run' == run.(phase := Delivered(Mailed(reg, y, r)[a.index]))
               else
                 && run'.phase.Ended? && run'.phase.outcome.Broken?
                 && TerminalWrite(run', run'.phase.outcome) == Suspend(run.job, run.worker, y.store.now + 5_000_000_000, run.wake)
  {
  }

  /** The run's checkpointed call, looked at by its key. */
  predicate Unsaved(reg: Registry, y: Sys, r: nat) {
    r < |y.runs| && Checkpointed(NextAction(reg, y.runs[r])) && Undisturbed(y.store, y.runs[r])
    && KeyFor(NextAction(reg, y.runs[r])) !in y.store.jobs[y.runs[r].job].steps
  }

  /** From the value to the checkpoint: the run checks its lease, and writes it. */
  lemma Saves(reg: Registry, y: Sys, r: nat, value: Json, n: nat) returns (y': Sys)
    requires Unsaved(reg, y, r) && y.runs[r].phase == Produced(value)
    ensures y'.runs == y.runs[r := y.runs[r].(phase := Loaded(value))] && y'.store.now == y.store.now
    ensures var run, key := y.runs[r], KeyFor(NextAction(reg, y.runs[r]));
            && run.job in y'.store.jobs && y'.store.jobs[run.job].row == y.store.jobs[run.job].row
            && y'.store.jobs[run.job].steps == y.store.jobs[run.job].steps[key := value]
    ensures CanMove(reg, y', r, n) ==> CanMove(reg, y, r, n + 2) && Moved(reg, y, r, n + 2) == Moved(reg, y', r, n)
  {
    var run, a := y.runs[r], NextAction(reg, y.runs[r]);
    var owned, loaded := run.(phase := Owned(value)), run.(phase := Loaded(value));
    assert StepRun(reg, y.store, run, Go) == (None, owned);
    var y1 := OneMove(reg, y, r, None, owned, n + 1);
    var op := InsertStep(run.job, KeyFor(a), value);
    Inserted(y.store, run.job, KeyFor(a), value);
    assert StepRun(reg, y1.store, owned, Go) == (Some(op), loaded);
    y' := OneMove(reg, y1, r, Some(op), loaded, n);
    assert y'.runs == y.runs[r := loaded];
  }

  /** The delivery is found, and its checkpoint looked up once more. */
  lemma Finds(reg: Registry, y: Sys, r: nat, delivery: Json, n: nat) returns (y': Sys)
    requires Looks(reg, y, r) && Unsaved(reg, y, r)
    requires SignalAt(y.store, y.runs[r].job, NextAction(reg, y.runs[r]).name, NextAction(reg, y.runs[r]).index) == Some(delivery)
    ensures y'.store == y.store && y'.runs == y.runs[r := y.runs[r].(phase := Produced(delivery))]
    ensures CanMove(reg, y', r, n) ==> CanMove(reg, y, r, n + 2) && Moved(reg, y, r, n + 2) == Moved(reg, y', r, n)
  {
    var run := y.runs[r];
    var delivered, produced := run.(phase := Delivered(delivery)), run.(phase := Produced(delivery));
    assert StepRun(reg, y.store, run, Go) == (None, delivered);
    var y1 := OneMove(reg, y, r, None, delivered, n + 1);
    assert StepRun(reg, y1.store, delivered, Go) == (None, produced);
    y' := OneMove(reg, y1, r, None, produced, n);
    assert y'.runs == y.runs[r := produced];
  }

  /** A wait whose delivery is there goes on: five moves on, it is checkpointed, and the run
      has seen it. */
  lemma WaitSees(reg: Registry, y: Sys, r: nat)
    requires Looks(reg, y, r) && Unsaved(reg, y, r) && NextAction(reg, y.runs[r]).index < |Mailed(reg, y, r)|
    ensures CanMove(reg, y, r, 5)
    ensures var run, key, y' := y.runs[r], KeyFor(NextAction(reg, y.runs[r])), Moved(reg, y, r, 5);
            var delivery := Mailed(reg, y, r)[NextAction(reg, y.runs[r]).index];
            && y'.runs[r] == run.(obs := run.obs + [Value(key, delivery)], phase := Ready)
            && run.job in y'.store.jobs && y'.store.jobs[run.job].steps == y.store.jobs[run.job].steps[key := delivery]
  {
    var delivery := Mailed(reg, y, r)[NextAction(reg, y.runs[r]).index];
    var y2 := Finds(reg, y, r, delivery, 3);
    var y4 := Saves(reg, y2, r, delivery, 1);
    Uses(reg, y4, r, delivery);
  }

  lemma Uses(reg: Registry, y: Sys, r: nat, value: Json)
    requires r < |y.runs| && y.runs[r].phase == Loaded(value)
    requires NextAction(reg, y.runs[r]).DoWait? && NextAction(reg, y.runs[r]).index >= 0
    ensures CanMove(reg, y, r, 1) && Moved(reg, y, r, 1).store == y.store
    ensures Moved(reg, y, r, 1).runs[r]
            == y.runs[r].(obs := y.runs[r].obs + [Value(KeyFor(NextAction(reg, y.runs[r])), value)], phase := Ready)
  {
    var run := y.runs[r];
    var seen := Observe(run, Value(KeyFor(NextAction(reg, run)), value));
    assert StepRun(reg, y.store, run, Go) == (None, seen);
    var y' := OneMove(reg, y, r, None, seen, 0);
  }

  // ------------------------------------------------------------------ steps

  /** What a step's body returns, `{}` for nothing, is checkpointed, and is what the run has
      seen: by the body's own step and three more. */
  lemma StepSees(reg: Registry, y: Sys, r: nat, bytes: Option<Json>) returns (y': Sys)
    requires r < |y.runs| && y.runs[r].phase.Missed? && NextAction(reg, y.runs[r]).DoStep? && Unsaved(reg, y, r)
    ensures LegalLabel(reg, y, Move(r, Body(Ok(bytes)))) && y' == Next(reg, y, Move(r, Body(Ok(bytes)))) && CanMove(reg, y', r, 3)
    ensures var run, key, last := y.runs[r], KeyFor(NextAction(reg, y.runs[r])), Moved(reg, y', r, 3);
            var value := if bytes.Some? then bytes.value else EmptyObject;
            && last.runs[r] == run.(obs := run.obs + [Value(key, value)], phase := Ready)
            && run.job in last.store.jobs && last.store.jobs[run.job].steps == y.store.jobs[run.job].steps[key := value]
  {
    var run, value := y.runs[r], if bytes.Some? then bytes.value else EmptyObject;
    assert StepRun(reg, y.store, run, Body(Ok(bytes))) == (None, run.(phase := Produced(value)));
    y' := Next(reg, y, Move(r, Body(Ok(bytes))));
    var y3 := Saves(reg, y', r, value, 1);
    StepUses(reg, y3, r, value);
  }

  lemma StepUses(reg: Registry, y: Sys, r: nat, value: Json)
    requires r < |y.runs| && y.runs[r].phase == Loaded(value) && NextAction(reg, y.runs[r]).DoStep?
    ensures CanMove(reg, y, r, 1) && Moved(reg, y, r, 1).store == y.store
    ensures Moved(reg, y, r, 1).runs[r]
            == y.runs[r].(obs := y.runs[r].obs + [Value(KeyFor(NextAction(reg, y.runs[r])), value)], phase := Ready)
  {
    var run := y.runs[r];
    var seen := Observe(run, Value(KeyFor(NextAction(reg, run)), value));
    assert StepRun(reg, y.store, run, Go) == (None, seen);
    var y' := OneMove(reg, y, r, None, seen, 0);
  }

  /** A step that has its checkpoint is not executed again: two moves on, with no body and
      no write, the run has seen it. */
  lemma StepIsSkipped(reg: Registry, y: Sys, r: nat)
    requires r < |y.runs| && y.runs[r].phase.Ready? && NextAction(reg, y.runs[r]).DoStep? && y.runs[r].job in y.store.jobs
    requires KeyFor(NextAction(reg, y.runs[r])) in y.store.jobs[y.runs[r].job].steps
    ensures CanMove(reg, y, r, 2) && Moved(reg, y, r, 2).store == y.store
    ensures var run, key := y.runs[r], KeyFor(NextAction(reg, y.runs[r]));
            Moved(reg, y, r, 2).runs[r]
            == run.(obs := run.obs + [Value(key, y.store.jobs[run.job].steps[key])], phase := Ready)
  {
    var run := y.runs[r];
    var value := y.store.jobs[run.job].steps[KeyFor(NextAction(reg, run))];
    assert StepRun(reg, y.store, run, Go) == (None, run.(phase := Loaded(value)));
    var y1 := OneMove(reg, y, r, None, run.(phase := Loaded(value)), 1);
    StepUses(reg, y1, r, value);
  }

  // ----------------------------------------------------------------- timers

  /** The run's next call is a timer. */
  predicate Sleeps(reg: Registry, y: Sys, r: nat) {
    r < |y.runs| && NextAction(reg, y.runs[r]).DoSleep? && NextAction(reg, y.runs[r]).d > 0
  }

  /** The run is at a timer that has no checkpoint yet. */
  predicate AtTimer(reg: Registry, y: Sys, r: nat) {
    Sleeps(reg, y, r) && Unsaved(reg, y, r) && y.runs[r].phase.Missed? && y.store.jobs[y.runs[r].job].row.attempt >= 1
  }

  /** It has the stored deadline, and is early. */
  predicate Early(reg: Registry, y: Sys, r: nat, due: Time) {
    && Sleeps(reg, y, r) && y.runs[r].phase == Loaded(Instant(due)) && y.store.now < due
    && Undisturbed(y.store, y.runs[r]) && y.store.jobs[y.runs[r].job].row.attempt >= 1
  }

  /** The checkpoint is all that has changed for the job. */
  predicate Stored(s: State, run: Run, key: string, due: Time, s': State, run': Run) {
    && run'.job == run.job && run.job in s.jobs && run.job in s'.jobs
    && s'.jobs[run.job].row == s.jobs[run.job].row
    && s'.jobs[run.job].steps == s.jobs[run.job].steps[key := Instant(due)]
  }

  lemma TimerStores(reg: Registry, y: Sys, r: nat, n: nat) returns (y': Sys)
    requires AtTimer(reg, y, r)
    ensures var run, due := y.runs[r], y.store.now + NextAction(reg, y.runs[r]).d;
            Early(reg, y', r, due) && Stored(y.store, run, KeyFor(NextAction(reg, run)), due, y'.store, y'.runs[r])
    ensures CanMove(reg, y', r, n) ==> CanMove(reg, y, r, n + 3) && Moved(reg, y, r, n + 3) == Moved(reg, y', r, n)
  {
    var run, deadline := y.runs[r], Instant(y.store.now + NextAction(reg, y.runs[r]).d);
    assert StepRun(reg, y.store, run, Go) == (None, run.(phase := Produced(deadline)));
    var y1 := OneMove(reg, y, r, None, run.(phase := Produced(deadline)), n + 2);
    y' := Saves(reg, y1, r, deadline, n);
    assert y'.runs == y.runs[r := run.(phase := Loaded(deadline))];
  }

  /** A run that is early parks its job until the stored deadline. */
  lemma TimerWaits(reg: Registry, y: Sys, r: nat, due: Time, n: nat) returns (y': Sys)
    requires Early(reg, y, r, due)
    ensures Parked(y, r, due, y')
    ensures CanMove(reg, y', r, n) ==> CanMove(reg, y, r, n + 2) && Moved(reg, y, r, n + 2) == Moved(reg, y', r, n)
  {
    var ended := y.runs[r].(phase := Ended(Broken(Suspension(due)), None));
    assert StepRun(reg, y.store, y.runs[r], Go) == (None, ended);
    var y1 := OneMove(reg, y, r, None, ended, n + 1);
    y' := SuspendsThen(reg, y1, r, due, n);
  }

  /** The job is parked until the timer's deadline, which is checkpointed. */
  predicate ParkedOnTimer(s: State, run: Run, key: string, due: Time, s': State) {
    ParkedUntil(s, run, due, s') && s'.jobs[run.job].steps == s.jobs[run.job].steps[key := Instant(due)]
  }

  lemma StoredThenParked(s: State, run: Run, key: string, due: Time, mid: State, run': Run, s': State)
    requires Stored(s, run, key, due, mid, run') && ParkedUntil(mid, run', due, s')
    requires s'.jobs[run.job].steps == mid.jobs[run.job].steps
    ensures ParkedOnTimer(s, run, key, due, s')
  {
  }

  lemma TimerRuns(reg: Registry, y: Sys, r: nat, rest: nat) returns (y': Sys, moves: nat)
    requires AtTimer(reg, y, r)
    ensures ParkedOnTimer(y.store, y.runs[r], KeyFor(NextAction(reg, y.runs[r])), y.store.now + NextAction(reg, y.runs[r]).d,
                          y'.store)
    ensures CanMove(reg, y', r, rest) ==> CanMove(reg, y, r, moves) && Moved(reg, y, r, moves) == Moved(reg, y', r, rest)
  {
    var run, due := y.runs[r], y.store.now + NextAction(reg, y.runs[r]).d;
    var y3 := TimerStores(reg, y, r, rest + 2);
    y' := TimerWaits(reg, y3, r, due, rest);
    StoredThenParked(y.store, run, KeyFor(NextAction(reg, run)), due, y3.store, y3.runs[r], y'.store);
    moves := rest + 5;
  }

  lemma TimerRunsOnce(reg: Registry, y: Sys, r: nat) returns (moves: nat)
    requires AtTimer(reg, y, r)
    ensures CanMove(reg, y, r, moves)
    ensures ParkedOnTimer(y.store, y.runs[r], KeyFor(NextAction(reg, y.runs[r])), y.store.now + NextAction(reg, y.runs[r]).d,
                          Moved(reg, y, r, moves).store)
  {
    var y';
    y', moves := TimerRuns(reg, y, r, 0);
  }

  /** The first run to reach a timer, at time t, stores the deadline t + d, and its job is
      parked until then: the run alone gets there in a few moves. */
  lemma TimerParks(reg: Registry, y: Sys, r: nat) returns (moves: nat)
    requires Reachable(reg, y) && Sleeps(reg, y, r) && Unsaved(reg, y, r) && y.runs[r].phase.Missed?
    ensures CanMove(reg, y, r, moves)
    ensures ParkedOnTimer(y.store, y.runs[r], KeyFor(NextAction(reg, y.runs[r])), y.store.now + NextAction(reg, y.runs[r]).d,
                          Moved(reg, y, r, moves).store)
  {
    HasAttempt(reg, y, r);
    moves := TimerRunsOnce(reg, y, r);
  }

  /** A run that comes back in time goes on at once. */
  lemma TimerPasses(reg: Registry, y: Sys, r: nat, due: Time)
    requires Sleeps(reg, y, r) && y.runs[r].phase == Loaded(Instant(due)) && due <= y.store.now
    ensures CanMove(reg, y, r, 1)
    ensures Moved(reg, y, r, 1).runs[r]
            == y.runs[r].(obs := y.runs[r].obs + [Woke(KeyFor(NextAction(reg, y.runs[r])), due)], phase := Ready)
  {
    var woken := Observe(y.runs[r], Woke(KeyFor(NextAction(reg, y.runs[r])), due));
    assert StepRun(reg, y.store, y.runs[r], Go) == (None, woken);
    var y1 := OneMove(reg, y, r, None, woken, 0);
  }

  // --------------------------------------------------------------- children

  /** The run has loaded the id of its child, and the child exists. */
  predicate Watches(reg: Registry, y: Sys, r: nat) {
    r < |y.runs| && y.runs[r].phase.Loaded? && y.runs[r].phase.value.JobRef? && NextAction(reg, y.runs[r]).DoChild?
    && y.runs[r].phase.value.id in y.store.jobs
  }

  function ChildRow(reg: Registry, y: Sys, r: nat): Row
    requires Watches(reg, y, r)
  {
    y.store.jobs[y.runs[r].phase.value.id].row
  }

  /** What a look at the child comes to: its result is seen iff the child succeeded; the
      run will fail its job for good iff the child is dead-lettered or canceled; and it
      will park its job for 5 seconds iff the child is not finished. */
  lemma ChildDecides(reg: Registry, y: Sys, r: nat)
    requires Watches(reg, y, r)
    ensures var run, a, child := y.runs[r], NextAction(reg, y.runs[r]), ChildRow(reg, y, r);
            var (write, run') := StepRun(reg, y.store, run, Go);
            var result := if child.result.Some? then child.result.value else EmptyObject;
            var due := y.store.now + 5_000_000_000;
            && write == None && (run'.phase.Ready? || (run'.phase.Ended? && run'.phase.outcome.Broken?))
            && (child.status == Succeeded <==>
                  run' == run.(obs := run.obs + [ChildDone(KeyFor(a), run.phase.value.id, result)], phase := Ready))
            && (child.status in {DeadLetter, Canceled} <==>
                  run'.phase.Ended? && TerminalWrite(run', run'.phase.outcome).Fail? && IsPermanent(run'.phase.outcome.fault))
            && (child.status !in {Succeeded, DeadLetter, Canceled} <==>
                  run'.phase.Ended? && TerminalWrite(run', run'.phase.outcome) == Suspend(run.job, run.worker, due, run.wake))
  {
  }

  /** A child that was dead-lettered or canceled takes its parent with it: two moves on the
      parent is dead-lettered, whatever attempts it has left. */
  lemma ChildEndsParent(reg: Registry, y: Sys, r: nat)
    requires Watches(reg, y, r) && Undisturbed(y.store, y.runs[r]) && ChildRow(reg, y, r).status in {DeadLetter, Canceled}
    ensures CanMove(reg, y, r, 2)
    ensures var y' := Moved(reg, y, r, 2);
            y.runs[r].job in y'.store.jobs && y'.store.jobs[y.runs[r].job].row.status == DeadLetter
  {
    var ended := Broke(y.runs[r], Permanent(Plain("child workflow ended")));
    assert StepRun(reg, y.store, y.runs[r], Go) == (None, ended);
    assert IsPermanent(ended.phase.outcome.fault);
    var y1 := OneMove(reg, y, r, None, ended, 1);
    Fails(reg, y1, r);
  }

  /** A child that is not finished parks its parent for 5 seconds, with the attempt given
      back. */
  lemma ChildParksParent(reg: Registry, y: Sys, r: nat)
    requires Reachable(reg, y) && Watches(reg, y, r) && Undisturbed(y.store, y.runs[r])
    requires ChildRow(reg, y, r).status !in {Succeeded, DeadLetter, Canceled}
    ensures CanMove(reg, y, r, 2)
    ensures ParkedUntil(y.store, y.runs[r], y.store.now + 5_000_000_000, Moved(reg, y, r, 2).store)
  {
    var run, due := y.runs[r], y.store.now + 5_000_000_000;
    var ended := run.(phase := Ended(Broken(Suspension(due)), None));
    HasAttempt(reg, y, r);
    assert StepRun(reg, y.store, run, Go) == (None, ended);
    var y1 := OneMove(reg, y, r, None, ended, 1);
    Suspends(reg, y1, r, due);
  }

  /** The job that a call creates for its child: the type and input that were asked for,
      three attempts, due at once. */
  lemma ChildIsOrdered(reg: Registry, y: Sys, r: nat, id: JobId)
    requires r < |y.runs| && y.runs[r].phase.Missed? && NextAction(reg, y.runs[r]).DoChild? && id !in y.store.jobs
    requires y.runs[r].job in y.store.jobs && LegalLabel(reg, y, Move(r, FreshChild(id)))
    requires id in Next(reg, y, Move(r, FreshChild(id))).store.jobs
    ensures var run, a, e := y.runs[r], NextAction(reg, y.runs[r]), Next(reg, y, Move(r, FreshChild(id))).store.jobs[id];
            && NewlyQueued(e, y.store.now) && e.row.kind == a.kind && e.row.parent == Some(run.job)
            && e.row.payload == (if a.input.Some? then a.input.value else EmptyObject)
            && e.row.idem == Some("child:" + run.job + ":" + a.name)
            && e.row.maxAttempts == 3 && e.row.runAfter == y.store.now
            && Next(reg, y, Move(r, FreshChild(id))).runs[r].phase == Produced(JobRef(id))
  {
    var run, a := y.runs[r], NextAction(reg, y.runs[r]);
    EnqueueMakes(y.store, ChildRequest(run, a), id);
    ChildEnqueues(reg, y, r, id);
  }

  /** A child that is there already, from an earlier run, is found and not made again. */
  lemma ChildIsFound(reg: Registry, y: Sys, r: nat, id: JobId, child: JobId)
    requires r < |y.runs| && y.runs[r].phase.Missed? && NextAction(reg, y.runs[r]).DoChild?
    requires LegalLabel(reg, y, Move(r, FreshChild(id))) && KeysUnique(y.store)
    requires child in y.store.jobs
    requires y.store.jobs[child].row.idem == Some("child:" + y.runs[r].job + ":" + NextAction(reg, y.runs[r]).name)
    ensures var y' := Next(reg, y, Move(r, FreshChild(id)));
            y'.store.jobs.Keys == y.store.jobs.Keys && y'.runs[r].phase == Produced(JobRef(child))
  {
    var run, a := y.runs[r], NextAction(reg, y.runs[r]);
    var req := ChildRequest(run, a);
    FoundByKey(y.store, req, id, child);
    assert StepRun(reg, y.store, run, FreshChild(id)) == (Some(Enqueue(req, id)), run.(phase := Produced(JobRef(child))));
    StoreOfNext(reg, y, Move(r, FreshChild(id)));
  }

  lemma FoundByKey(s: State, req: EnqueueRequest, id: JobId, holder: JobId)
    requires KeysUnique(s) && req.idem != "" && holder in s.jobs && s.jobs[holder].row.idem == Some(req.idem)
    ensures EnqueueReply(s, req, id) == Some(holder) && Apply(s, Enqueue(req, id)).jobs.Keys == s.jobs.Keys
  {
    assert HasKey(s, req.idem);
  }

  lemma ChildEnqueues(reg: Registry, y: Sys, r: nat, id: JobId)
    requires r < |y.runs| && y.runs[r].phase.Missed? && NextAction(reg, y.runs[r]).DoChild? && id !in y.store.jobs
    requires LegalLabel(reg, y, Move(r, FreshChild(id)))
    ensures var y' := Next(reg, y, Move(r, FreshChild(id)));
            && y'.store == Apply(y.store, Enqueue(ChildRequest(y.runs[r], NextAction(reg, y.runs[r])), id))
            && (id in y'.store.jobs ==> y'.runs[r].phase == Produced(JobRef(id)))
  {
    var run, a := y.runs[r], NextAction(reg, y.runs[r]);
    assert StepRun(reg, y.store, run, FreshChild(id)).0 == Some(Enqueue(ChildRequest(run, a), id));
    StoreOfNext(reg, y, Move(r, FreshChild(id)));
  }

  // ----------------------------------------------------------------- errors

  /** A run that ended with an error that holds no suspension fails its job. */
  lemma Fails(reg: Registry, y: Sys, r: nat)
    requires r < |y.runs| && y.runs[r].phase.Ended? && y.runs[r].phase.outcome.Broken?
    requires FindSuspension(y.runs[r].phase.outcome.fault).None?
    requires y.runs[r].job in y.store.jobs && HeldBy(y.store.jobs[y.runs[r].job].row, y.runs[r].worker)
    ensures CanMove(reg, y, r, 1)
    ensures var run, y' := y.runs[r], Moved(reg, y, r, 1);
            && run.job in y'.store.jobs
            && FailedWith(y.store.jobs[run.job].row, run.phase.outcome.fault, y'.store.jobs[run.job].row)
  {
    var run := y.runs[r];
    var op := Fail(run.job, run.worker, run.phase.outcome.fault);
    assert StepRun(reg, y.store, run, Go) == (Some(op), run.(phase := Gone));
    Failing(y.store, run.job, run.worker, run.phase.outcome.fault);
    var y' := OneMove(reg, y, r, Some(op), run.(phase := Gone), 0);
  }

  /** Dead-lettered iff permanent or out of attempts, else retried; with the error's text. */
  predicate FailedWith(row: Row, fault: Fault, row': Row) {
    && row'.error == Some(Message(fault)) && row'.leaseOwner == None
    && row'.status == if IsPermanent(fault) || row.attempt >= row.maxAttempts then DeadLetter else Retrying
  }

  /** A step's error fails the job, permanently iff the error is marked so: the mark is not
      lost on the way up, and the text names the step. */
  lemma StepErrorFails(reg: Registry, y: Sys, r: nat, fault: Fault) returns (y': Sys)
    requires r < |y.runs| && y.runs[r].phase.Missed? && NextAction(reg, y.runs[r]).DoStep? && FindSuspension(fault).None?
    requires y.runs[r].job in y.store.jobs && HeldBy(y.store.jobs[y.runs[r].job].row, y.runs[r].worker)
    ensures LegalLabel(reg, y, Move(r, Body(Err(fault)))) && y' == Next(reg, y, Move(r, Body(Err(fault))))
    ensures CanMove(reg, y', r, 1)
    ensures var run, last := y.runs[r], Moved(reg, y', r, 1);
            && run.job in last.store.jobs
            && var row, row' := y.store.jobs[run.job].row, last.store.jobs[run.job].row;
               && row'.error == Some("step " + NextAction(reg, run).name + ": " + Message(fault))
               && row'.status == if IsPermanent(fault) || row.attempt >= row.maxAttempts then DeadLetter else Retrying
  {
    var run := y.runs[r];
    var ended := Broke(run, Wrapped("step " + NextAction(reg, run).name, fault));
    assert StepRun(reg, y.store, run, Body(Err(fault))) == (None, ended);
    y' := Next(reg, y, Move(r, Body(Err(fault))));
    Fails(reg, y', r);
  }

  /** A workflow's own error. */
  lemma RaiseFails(reg: Registry, y: Sys, r: nat)
    requires r < |y.runs| && y.runs[r].phase.Ready? && NextAction(reg, y.runs[r]).Raise?
    requires FindSuspension(NextAction(reg, y.runs[r]).fault).None?
    requires y.runs[r].job in y.store.jobs && HeldBy(y.store.jobs[y.runs[r].job].row, y.runs[r].worker)
    ensures CanMove(reg, y, r, 2)
    ensures var run, y' := y.runs[r], Moved(reg, y, r, 2);
            && run.job in y'.store.jobs
            && FailedWith(y.store.jobs[run.job].row, NextAction(reg, run).fault, y'.store.jobs[run.job].row)
  {
    var run := y.runs[r];
    var ended := Broke(run, NextAction(reg, run).fault);
    assert StepRun(reg, y.store, run, Go) == (None, ended);
    var y1 := OneMove(reg, y, r, None, ended, 1);
    Fails(reg, y1, r);
  }

  /** A workflow's result. */
  lemma ReturnCompletes(reg: Registry, y: Sys, r: nat)
    requires r < |y.runs| && y.runs[r].phase.Ready? && NextAction(reg, y.runs[r]).Return?
    requires y.runs[r].job in y.store.jobs && HeldBy(y.store.jobs[y.runs[r].job].row, y.runs[r].worker)
    ensures CanMove(reg, y, r, 2)
    ensures var run, result, y' := y.runs[r], NextAction(reg, y.runs[r]).result, Moved(reg, y, r, 2);
            && run.job in y'.store.jobs && y'.store.jobs[run.job].row.status == Succeeded
            && y'.store.jobs[run.job].row.result == Some(if result.Some? then result.value else EmptyObject)
  {
    var run, result := y.runs[r], NextAction(reg, y.runs[r]).result;
    var ended, op := run.(phase := Ended(Returned(result), None)), Complete(run.job, run.worker, result);
    assert StepRun(reg, y.store, run, Go) == (None, ended);
    var y1 := OneMove(reg, y, r, None, ended, 1);
    assert StepRun(reg, y1.store, ended, Go) == (Some(op), ended.(phase := Gone));
    CompleteMakes(y1.store, run.job, run.worker, result);
    var y2 := OneMove(reg, y1, r, Some(op), ended.(phase := Gone), 0);
  }

  /** What else a call can come to at once: a negative index and a lost lease fail the run,
      with errors that are not permanent, and a sleep of no length returns without a
      checkpoint. */
  lemma EarlyEnds(reg: Registry, s: State, run: Run)
    ensures var (a, (write, run')) := (NextAction(reg, run), StepRun(reg, s, run, Go));
            && (run.phase.Ready? && a.DoWait? && a.index < 0 ==> write == None && EndsInRetry(run'))
            && (run.phase.Ready? && a.DoSleep? && a.d <= 0 ==> write == None && run' == run.(obs := run.obs + [NoNap]))
            && (run.phase.Produced? && Checkpointed(a) && !(run.job in s.jobs && HeldBy(s.jobs[run.job].row, run.worker))
                ==> write == None && EndsInRetry(run'))
            && (run.phase.Loaded? && run.phase.value.JobRef? && a.DoChild? && run.phase.value.id !in s.jobs
                ==> write == None && EndsInRetry(run'))
  {
    var lost, missing := Plain("invalid job state transition"), Plain("job not found");
    assert FindSuspension(lost).None? && FindSuspension(missing).None? && !IsPermanent(lost) && !IsPermanent(missing);
  }

  /** The run will fail its job, for good only if the attempts are used up. */
  predicate EndsInRetry(run: Run) {
    run.phase.Ended? && TerminalWrite(run, run.phase.outcome).Fail? && !IsPermanent(run.phase.outcome.fault)
  }

  // ----------------------------------------------------------------- claims

  /** The runs that a claim starts are one for each job that it takes, from the top, with
      what the claimed row says, and undisturbed. */
  lemma ClaimStarts(reg: Registry, y: Sys, claim: Op, jobs: seq<JobId>, i: nat)
    requires LegalLabel(reg, y, Start(claim, jobs)) && i < |jobs|
    ensures var y' := Next(reg, y, Start(claim, jobs));
            && |y'.runs| == |y.runs| + |jobs| && y'.runs[..|y.runs|] == y.runs
            && jobs[i] in y.store.jobs && jobs[i] in y'.store.jobs
            && var run, row := y'.runs[|y.runs| + i], y.store.jobs[jobs[i]].row;
               && run.job == jobs[i] && run.worker == claim.worker && run.obs == [] && run.phase == Ready
               && run.queue == row.queue && run.kind == row.kind && run.payload == row.payload && run.wake == row.wakeVersion
               && Undisturbed(y'.store, run) && y'.store.jobs[jobs[i]].row.attempt == row.attempt + 1
  {
    assert forall k | 0 <= k < |jobs| :: jobs[k] in claim.picked;
    ClaimMakes(y.store, claim, jobs[i]);
  }
}
