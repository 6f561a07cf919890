/** The worker's code as it runs: a workflow executed call by call against the
    store, and the one terminal write. Every statement is a step that the state
    machine of `Runtime` can take, so what holds of all its traces holds here. */
module Worker {
  import opened Values
  import opened Faults
  import opened Jobs
  import opened StoreModel
  import opened StoreInvariant
  import opened Runtime
  import opened RuntimeInvariant
  import opened RuntimeSystem
  import S = Store

  // -------------------------------------------------------- steps of one run

  /** What the world answers to one call: the outcome of a step body, and the id
      that the database would give to a new job. */
  datatype Answer = Answer(body: Result<Option<Json>, Fault>, id: JobId)

  /** The choices that given answers leave; no database call fails. */
  predicate Answered(c: Choice, answers: set<Answer>) {
    c.Go? || exists w :: w in answers && (c == Body(w.body) || c == FreshChild(w.id))
  }

  /** The steps that a run takes when nobody else moves. */
  ghost predicate CanStep(reg: Registry, answers: set<Answer>, s: State, run: Run, cs: seq<Choice>)
    decreases |cs|
  {
    cs != [] ==>
      var (write, run') := StepRun(reg, s, run, cs[0]);
      && Answered(cs[0], answers) && (write.Some? ==> Legal(s, write.value))
      && CanStep(reg, answers, StoreAfter(s, write), run', cs[1..])
  }

  ghost function Stepped(reg: Registry, s: State, run: Run, cs: seq<Choice>): (State, Run)
    decreases |cs|
  {
    if cs == [] then (s, run)
    else
      var (write, run') := StepRun(reg, s, run, cs[0]);
      Stepped(reg, StoreAfter(s, write), run', cs[1..])
  }

  ghost predicate Reaches(reg: Registry, answers: set<Answer>, s: State, run: Run, s': State, run': Run) {
    exists cs :: CanStep(reg, answers, s, run, cs) && Stepped(reg, s, run, cs) == (s', run')
  }

  lemma {:induction false} Then(reg: Registry, answers: set<Answer>, s: State, run: Run, cs: seq<Choice>, ds: seq<Choice>)
    requires CanStep(reg, answers, s, run, cs)
    requires var (mid, run') := Stepped(reg, s, run, cs); CanStep(reg, answers, mid, run', ds)
    ensures CanStep(reg, answers, s, run, cs + ds)
    ensures var (mid, run') := Stepped(reg, s, run, cs); Stepped(reg, s, run, cs + ds) == Stepped(reg, mid, run', ds)
    decreases |cs|
  {
    if cs == [] {
      assert cs + ds == ds;
    } else {
      var (write, next) := StepRun(reg, s, run, cs[0]);
      Then(reg, answers, StoreAfter(s, write), next, cs[1..], ds);
      assert (cs + ds)[1..] == cs[1..] + ds;
    }
  }

  lemma {:induction false} MoreAnswers(reg: Registry, few: set<Answer>, many: set<Answer>, s: State, run: Run, cs: seq<Choice>)
    requires CanStep(reg, few, s, run, cs) && few <= many
    ensures CanStep(reg, many, s, run, cs)
    decreases |cs|
  {
    if cs != [] {
      var (write, next) := StepRun(reg, s, run, cs[0]);
      MoreAnswers(reg, few, many, StoreAfter(s, write), next, cs[1..]);
    }
  }

  lemma Single(reg: Registry, answers: set<Answer>, s: State, run: Run, c: Choice)
    requires Answered(c, answers)
    requires var write := StepRun(reg, s, run, c).0; write.Some? ==> Legal(s, write.value)
    ensures CanStep(reg, answers, s, run, [c])
    ensures var (write, run') := StepRun(reg, s, run, c); Stepped(reg, s, run, [c]) == (StoreAfter(s, write), run')
  {
    var cs := [c];
    assert cs[0] == c && cs[1..] == [];
    var (write, run') := StepRun(reg, s, run, cs[0]);
    assert Stepped(reg, s, run, cs) == Stepped(reg, StoreAfter(s, write), run', cs[1..]);
  }

  lemma Goes(reg: Registry, answers: set<Answer>, s0: State, run0: Run, s: State, run: Run, c: Choice, write: Option<Op>, run': Run)
    requires Reaches(reg, answers, s0, run0, s, run) && StepRun(reg, s, run, c) == (write, run')
    requires Answered(c, answers) && (write.Some? ==> Legal(s, write.value))
    ensures Reaches(reg, answers, s0, run0, StoreAfter(s, write), run')
  {
    var cs :| CanStep(reg, answers, s0, run0, cs) && Stepped(reg, s0, run0, cs) == (s, run);
    Single(reg, answers, s, run, c);
    Then(reg, answers, s0, run0, cs, [c]);
  }

  lemma GoesOn(reg: Registry, answers: set<Answer>, s0: State, run0: Run, s: State, run: Run, w: Answer, s': State, run': Run)
    requires Reaches(reg, answers, s0, run0, s, run) && Reaches(reg, {w}, s, run, s', run') && w in answers
    ensures Reaches(reg, answers, s0, run0, s', run')
  {
    var cs :| CanStep(reg, answers, s0, run0, cs) && Stepped(reg, s0, run0, cs) == (s, run);
    var ds :| CanStep(reg, {w}, s, run, ds) && Stepped(reg, s, run, ds) == (s', run');
    MoreAnswers(reg, {w}, answers, s, run, ds);
    Then(reg, answers, s0, run0, cs, ds);
  }

  lemma Stands(reg: Registry, answers: set<Answer>, s: State, run: Run)
    ensures Reaches(reg, answers, s, run, s, run)
  {
    assert CanStep(reg, answers, s, run, []) && Stepped(reg, s, run, []) == (s, run);
  }

  function Moves(r: nat, cs: seq<Choice>): seq<Label> {
    seq(|cs|, i requires 0 <= i < |cs| => Move(r, cs[i]))
  }

  /** The same steps are a trace of the whole system, in which only this run moves. */
  lemma {:induction false} StepsAreATrace(reg: Registry, answers: set<Answer>, y: Sys, r: nat, cs: seq<Choice>)
    requires r < |y.runs| && CanStep(reg, answers, y.store, y.runs[r], cs)
    ensures LegalTrace(reg, y, Moves(r, cs))
    ensures var last := Trace(reg, y, Moves(r, cs));
            r < |last.runs| && (last.store, last.runs[r]) == Stepped(reg, y.store, y.runs[r], cs)
    decreases |cs|
  {
    if cs == [] {
      assert Moves(r, cs) == [];
    } else {
      StepsAreATrace(reg, answers, Next(reg, y, Move(r, cs[0])), r, cs[1..]);
      assert Moves(r, cs)[1..] == Moves(r, cs[1..]) && Moves(r, cs)[0] == Move(r, cs[0]);
    }
  }

  /** So whatever code reaches, some interleaving of the system reaches. */
  lemma ReachesIsReachable(reg: Registry, answers: set<Answer>, y: Sys, r: nat, s: State, run: Run) returns (ls: seq<Label>)
    requires r < |y.runs| && Reaches(reg, answers, y.store, y.runs[r], s, run)
    ensures LegalTrace(reg, y, ls)
    ensures var last := Trace(reg, y, ls); r < |last.runs| && last.store == s && last.runs[r] == run
  {
    var cs :| CanStep(reg, answers, y.store, y.runs[r], cs) && Stepped(reg, y.store, y.runs[r], cs) == (s, run);
    StepsAreATrace(reg, answers, y, r, cs);
    ls := Moves(r, cs);
  }

  // --------------------------------------------- the statements of a call

  lemma SaveRefused(reg: Registry, answers: set<Answer>, s0: State, run0: Run, s: State, run: Run, value: Json)
    requires Reaches(reg, answers, s0, run0, s, run) && run.phase == Produced(value) && Checkpointed(NextAction(reg, run))
    requires !OwnsJob(s, run.job, run.worker)
    ensures S.UpdateOne(s, SaveStep(run.job, run.worker, KeyFor(NextAction(reg, run)), value), run.job) == s
    ensures Reaches(reg, answers, s0, run0, s, Broke(run, Wrapped("save step", Plain("invalid job state transition"))))
  {
    var out := Broke(run, Wrapped("save step", Plain("invalid job state transition")));
    Goes(reg, answers, s0, run0, s, run, Go, None, out);
    var op := SaveStep(run.job, run.worker, KeyFor(NextAction(reg, run)), value);
    if run.job in s.jobs {
      assert s.jobs[run.job := EntryAfter(op, s.now, run.job, s.jobs[run.job])] == s.jobs;
    }
  }

  lemma SaveDone(reg: Registry, answers: set<Answer>, s0: State, run0: Run, s: State, run: Run, value: Json)
    requires Reaches(reg, answers, s0, run0, s, run) && run.phase == Produced(value) && Checkpointed(NextAction(reg, run))
    requires OwnsJob(s, run.job, run.worker)
    ensures var key := KeyFor(NextAction(reg, run));
            var s' := S.UpdateOne(s, SaveStep(run.job, run.worker, key, value), run.job);
            && s'.jobs[run.job] == InsertedEntry(s.jobs[run.job], key, value)
            && Reaches(reg, answers, s0, run0, s', run.(phase := Loaded(s'.jobs[run.job].steps[key])))
  {
    var key := KeyFor(NextAction(reg, run));
    var owned := run.(phase := Owned(value));
    Goes(reg, answers, s0, run0, s, run, Go, None, owned);
    InsertDone(reg, answers, s0, run0, s, owned, value);
  }

  lemma InsertDone(reg: Registry, answers: set<Answer>, s0: State, run0: Run, s: State, run: Run, value: Json)
    requires Reaches(reg, answers, s0, run0, s, run) && run.phase == Owned(value) && Checkpointed(NextAction(reg, run))
    requires run.job in s.jobs
    ensures var key := KeyFor(NextAction(reg, run));
            var s' := S.UpdateOne(s, InsertStep(run.job, key, value), run.job);
            && s'.jobs[run.job] == InsertedEntry(s.jobs[run.job], key, value)
            && Reaches(reg, answers, s0, run0, s', run.(phase := Loaded(s'.jobs[run.job].steps[key])))
  {
    var key := KeyFor(NextAction(reg, run));
    var op := InsertStep(run.job, key, value);
    S.OneJob(s, op, run.job);
    Goes(reg, answers, s0, run0, s, run, Go, Some(op), run.(phase := Loaded(InsertedEntry(s.jobs[run.job], key, value).steps[key])));
  }

  lemma Began(reg: Registry, answers: set<Answer>, s0: State, run0: Run, s: State, run: Run)
    requires Reaches(reg, answers, s0, run0, s, run) && run.phase.Ready?
    ensures Reaches(reg, answers, s0, run0, s, StartAction(s, run, NextAction(reg, run)))
  {
    Goes(reg, answers, s0, run0, s, run, Go, None, StartAction(s, run, NextAction(reg, run)));
  }

  lemma Ran(reg: Registry, answers: set<Answer>, s0: State, run0: Run, s: State, run: Run, c: Choice)
    requires Reaches(reg, answers, s0, run0, s, run) && run.phase.Missed? && Answered(c, answers) && Checkpointed(NextAction(reg, run))
    requires var write := RunBody(s, run, NextAction(reg, run), c).0; write.Some? ==> Legal(s, write.value)
    ensures var (write, run') := RunBody(s, run, NextAction(reg, run), c);
            Reaches(reg, answers, s0, run0, StoreAfter(s, write), run')
  {
    var (write, run') := RunBody(s, run, NextAction(reg, run), c);
    Goes(reg, answers, s0, run0, s, run, c, write, run');
  }

  lemma Used(reg: Registry, answers: set<Answer>, s0: State, run0: Run, s: State, run: Run)
    requires Reaches(reg, answers, s0, run0, s, run) && run.phase.Loaded? && Checkpointed(NextAction(reg, run))
    ensures Reaches(reg, answers, s0, run0, s, UseCheckpoint(s, run, NextAction(reg, run), run.phase.value))
  {
    Goes(reg, answers, s0, run0, s, run, Go, None, UseCheckpoint(s, run, NextAction(reg, run), run.phase.value));
  }

  lemma LookedAgain(reg: Registry, answers: set<Answer>, s0: State, run0: Run, s: State, run: Run, value: Json)
    requires Reaches(reg, answers, s0, run0, s, run) && run.phase == Delivered(value) && Checkpointed(NextAction(reg, run))
    ensures Reaches(reg, answers, s0, run0, s, Lookup(s, run, KeyFor(NextAction(reg, run)), Produced(value)))
  {
    Goes(reg, answers, s0, run0, s, run, Go, None, Lookup(s, run, KeyFor(NextAction(reg, run)), Produced(value)));
  }

  // ------------------------------------------------------------- the calls

  /** Where the steps of a call leave a run: at its next action, or at an end. */
  predicate Called(run: Run, out: Run) {
    && ((out.phase.Ready? && |out.obs| == |run.obs| + 1) || out.phase.Ended?)
    && out.job == run.job && out.worker == run.worker && out.wake == run.wake
  }

  /** The lookup that a call starts with. */
  method Load(db: S.Store, run: Run, key: string, otherwise: Phase) returns (out: Run)
    ensures out == Lookup(db.Snapshot(), run, key, otherwise)
  {
    var cached := db.GetStep(run.job, key);
    out := run.(phase := if cached.Some? then Loaded(cached.value) else otherwise);
  }

  /** The job has a checkpoint under the key. */
  predicate Known(s: State, job: JobId, key: string) {
    job in s.jobs && key in s.jobs[job].steps
  }

  /** The run ends with an error that is neither permanent nor a suspension. */
  predicate FailsForNow(run: Run) {
    && run.phase.Ended? && run.phase.outcome.Broken?
    && !IsPermanent(run.phase.outcome.fault) && FindSuspension(run.phase.outcome.fault).None?
  }

  predicate OnRecord(s: State, job: JobId, key: string, value: Json) {
    Known(s, job, key) && s.jobs[job].steps[key] == value
  }

  /** The holder of the lease has saved the value, if there was none. */
  predicate SavedBy(s0: State, job: JobId, worker: WorkerId, key: string, value: Json, s: State, out: Run) {
    OwnsJob(s0, job, worker) && !Known(s0, job, key) ==> OnRecord(s, job, key, value) && out.phase == Loaded(value)
  }

  lemma PlainFails(run: Run, context: string, message: string)
    ensures FailsForNow(Broke(run, Wrapped(context, Plain(message))))
  {
  }

  /** RunStep after its body: save the result, or take what won. */
  method SaveResult(db: S.Store, reg: Registry, run: Run, value: Json,
                    ghost answers: set<Answer>, ghost s0: State, ghost run0: Run) returns (out: Run)
    requires run.phase == Produced(value) && Checkpointed(NextAction(reg, run))
    requires Inv(db.Snapshot()) && Reaches(reg, answers, s0, run0, db.Snapshot(), run)
    modifies db
    ensures db.now == old(db.now) && db.issued == old(db.issued)
    ensures Inv(db.Snapshot()) && Reaches(reg, answers, s0, run0, db.Snapshot(), out)
    ensures (out.phase.Loaded? || out.phase.Ended?) && out == run.(phase := out.phase)
    ensures out.phase.Loaded? ==> OnRecord(db.Snapshot(), run.job, KeyFor(NextAction(reg, run)), out.phase.value)
    ensures SavedBy(old(db.Snapshot()), run.job, run.worker, KeyFor(NextAction(reg, run)), value, db.Snapshot(), out)
    ensures out.phase.Ended? ==> FailsForNow(out)
  {
    ghost var s := db.Snapshot();
    var key := KeyFor(NextAction(reg, run));
    KeepsInv(s, SaveStep(run.job, run.worker, key, value), run.job);
    var saved := db.SaveStepAlone(run.job, run.worker, key, value);
    match saved
    case Err(_) =>
      SaveRefused(reg, answers, s0, run0, s, run, value);
      PlainFails(run, "save step", "invalid job state transition");
      out := Broke(run, Wrapped("save step", Plain("invalid job state transition")));
    case Ok(stored) =>
      SaveDone(reg, answers, s0, run0, s, run, value);
      out := run.(phase := Loaded(stored));
  }

  lemma KeepsInv(s: State, op: Op, job: JobId)
    requires Inv(s) && S.OnOneJob(op, job)
    ensures Inv(S.UpdateOne(s, op, job))
  {
    S.OneJob(s, op, job);
    InvKept(s, op);
  }

  /** steps.go: the checkpointed result, or the body's once it is saved. */
  method RunStep(db: S.Store, reg: Registry, run: Run, answer: Answer) returns (out: Run)
    requires run.phase.Ready? && NextAction(reg, run).DoStep?
    requires Inv(db.Snapshot())
    modifies db
    ensures db.issued == old(db.issued)
    ensures Inv(db.Snapshot()) && Reaches(reg, {answer}, old(db.Snapshot()), run, db.Snapshot(), out) && Called(run, out)
  {
    var a := NextAction(reg, run);
    ghost var s0 := db.Snapshot();
    Stands(reg, {answer}, s0, run);
    Began(reg, {answer}, s0, run, db.Snapshot(), run);
    out := Load(db, run, KeyFor(a), Missed);
    if out.phase.Missed? {
      Ran(reg, {answer}, s0, run, db.Snapshot(), out, Body(answer.body));
      match answer.body
      case Err(fault) =>
        out := Broke(out, Wrapped("step " + a.name, fault));
        return;
      case Ok(result) =>
        out := out.(phase := Produced(OrEmpty(result)));
        out := SaveResult(db, reg, out, OrEmpty(result), {answer}, s0, run);
    }
    if out.phase.Loaded? {
      Used(reg, {answer}, s0, run, db.Snapshot(), out);
      out := Observe(out, Value(KeyFor(a), out.phase.value));
    }
  }

  /** signal.go: the checkpointed delivery, or the mailbox's; a delivery that is not
      there suspends the run. */
  method WaitSignalAt(db: S.Store, reg: Registry, run: Run) returns (out: Run)
    requires run.phase.Ready? && NextAction(reg, run).DoWait?
    requires Inv(db.Snapshot())
    modifies db
    ensures db.issued == old(db.issued)
    ensures Inv(db.Snapshot()) && Reaches(reg, {}, old(db.Snapshot()), run, db.Snapshot(), out) && Called(run, out)
    ensures var a := NextAction(reg, run);
            a.index >= 0 && !Known(old(db.Snapshot()), run.job, KeyFor(a))
            && SignalAt(old(db.Snapshot()), run.job, a.name, a.index).None? ==>
              out == run.(phase := Ended(Broken(Suspension(old(db.now) + 5_000_000_000)), Some((a.name, a.index))))
  {
    var a := NextAction(reg, run);
    ghost var s0 := db.Snapshot();
    Stands(reg, {}, s0, run);
    Began(reg, {}, s0, run, db.Snapshot(), run);
    if a.index < 0 {
      out := Broke(run, Plain("signal index out of range"));
      return;
    }
    out := Load(db, run, KeyFor(a), Missed);
    if out.phase.Missed? {
      var found := db.GetSignalAt(run.job, a.name, a.index);
      Ran(reg, {}, s0, run, db.Snapshot(), out, Go);
      if found.None? {
        out := out.(phase := Ended(Broken(Suspension(db.now + SIGNAL_POLL_INTERVAL)), Some((a.name, a.index))));
        return;
      }
      out := out.(phase := Delivered(found.value));
      LookedAgain(reg, {}, s0, run, db.Snapshot(), out, found.value);
      out := Load(db, out, KeyFor(a), Produced(found.value));
      if out.phase.Produced? {
        out := SaveResult(db, reg, out, found.value, {}, s0, run);
      }
    }
    if out.phase.Loaded? {
      Used(reg, {}, s0, run, db.Snapshot(), out);
      out := Observe(out, Value(KeyFor(a), out.phase.value));
    }
  }

  /** Holds the lease, and has no checkpoint for its next call yet. */
  predicate FirstAt(s: State, run: Run, key: string) {
    OwnsJob(s, run.job, run.worker) && !Known(s, run.job, key)
  }

  /** A call that comes to a timer for the first time has it at its whole length from now. */
  predicate HasDeadline(reg: Registry, s0: State, run: Run, s: State, out: Run)
    requires NextAction(reg, run).DoSleep? && NextAction(reg, run).d > 0
  {
    var key, deadline := KeyFor(NextAction(reg, run)), Instant(s0.now + NextAction(reg, run).d);
    FirstAt(s0, run, key) ==> OnRecord(s, run.job, key, deadline) && out.phase == Loaded(deadline)
  }

  lemma DeadlineSaved(reg: Registry, s0: State, run: Run, s: State, out: Run)
    requires NextAction(reg, run).DoSleep? && NextAction(reg, run).d > 0
    requires SavedBy(s0, run.job, run.worker, KeyFor(NextAction(reg, run)), Instant(s0.now + NextAction(reg, run).d), s, out)
    ensures HasDeadline(reg, s0, run, s, out)
  {
  }

  /** The checkpointed deadline of a timer. */
  method TimerDeadline(db: S.Store, reg: Registry, run: Run) returns (out: Run)
    requires run.phase.Ready? && NextAction(reg, run).DoSleep? && NextAction(reg, run).d > 0
    requires Inv(db.Snapshot())
    modifies db
    ensures db.issued == old(db.issued) && db.now == old(db.now)
    ensures Inv(db.Snapshot()) && Reaches(reg, {}, old(db.Snapshot()), run, db.Snapshot(), out)
    ensures (out.phase.Loaded? || out.phase.Ended?) && out == run.(phase := out.phase)
    ensures HasDeadline(reg, old(db.Snapshot()), run, db.Snapshot(), out)
  {
    var a := NextAction(reg, run);
    ghost var s0 := db.Snapshot();
    Stands(reg, {}, s0, run);
    Began(reg, {}, s0, run, db.Snapshot(), run);
    out := Load(db, run, KeyFor(a), Missed);
    if out.phase.Missed? {
      Ran(reg, {}, s0, run, db.Snapshot(), out, Go);
      out := out.(phase := Produced(Instant(db.now + a.d)));
      assert NextAction(reg, out) == a;
      out := SaveResult(db, reg, out, Instant(db.now + a.d), {}, s0, run);
      DeadlineSaved(reg, s0, run, db.Snapshot(), out);
    } else {
      assert Known(s0, run.job, KeyFor(a));
    }
  }

  /** The deadline is stored, and the run suspends until then. */
  predicate SleepsUntil(s: State, run: Run, key: string, deadline: Time, out: Run) {
    OnRecord(s, run.job, key, Instant(deadline)) && out.phase == Ended(Broken(Suspension(deadline)), None)
  }

  /** A call that comes to a timer for the first time sleeps its whole length. */
  predicate SleepsWhole(reg: Registry, s0: State, run: Run, s: State, out: Run)
    requires NextAction(reg, run).DoSleep? && NextAction(reg, run).d > 0
  {
    var a := NextAction(reg, run);
    FirstAt(s0, run, KeyFor(a)) ==> SleepsUntil(s, run, KeyFor(a), s0.now + a.d, out)
  }

  /** sleep.go: the deadline is a checkpoint, and the run suspends until then. */
  method Sleep(db: S.Store, reg: Registry, run: Run) returns (out: Run)
    requires run.phase.Ready? && NextAction(reg, run).DoSleep?
    requires Inv(db.Snapshot())
    modifies db
    ensures db.issued == old(db.issued)
    ensures Inv(db.Snapshot()) && Reaches(reg, {}, old(db.Snapshot()), run, db.Snapshot(), out) && Called(run, out)
    ensures NextAction(reg, run).d > 0 ==> SleepsWhole(reg, old(db.Snapshot()), run, db.Snapshot(), out)
  {
    ghost var s0 := db.Snapshot();
    if NextAction(reg, run).d <= 0 {
      Stands(reg, {}, s0, run);
      Began(reg, {}, s0, run, db.Snapshot(), run);
      out := Observe(run, NoNap);
    } else {
      out := SleepOn(db, reg, run);
    }
  }

  /** A sleep of some length. */
  method SleepOn(db: S.Store, reg: Registry, run: Run) returns (out: Run)
    requires run.phase.Ready? && NextAction(reg, run).DoSleep? && NextAction(reg, run).d > 0
    requires Inv(db.Snapshot())
    modifies db
    ensures db.issued == old(db.issued)
    ensures Inv(db.Snapshot()) && Reaches(reg, {}, old(db.Snapshot()), run, db.Snapshot(), out) && Called(run, out)
    ensures SleepsWhole(reg, old(db.Snapshot()), run, db.Snapshot(), out)
  {
    ghost var s0 := db.Snapshot();
    out := TimerDeadline(db, reg, run);
    ghost var s, loaded := db.Snapshot(), out;
    if out.phase.Loaded? {
      Used(reg, {}, s0, run, s, out);
      out := WatchTimer(db, reg, out);
    }
    assert s == db.Snapshot();
    Woken(reg, s0, run, s, loaded, out);
  }

  lemma Woken(reg: Registry, s0: State, run: Run, s: State, loaded: Run, out: Run)
    requires NextAction(reg, run).DoSleep? && NextAction(reg, run).d > 0 && s.now == s0.now
    requires HasDeadline(reg, s0, run, s, loaded)
    requires loaded.phase.Loaded? && loaded.phase.value.Instant? && s.now < loaded.phase.value.at ==>
               out.phase == Ended(Broken(Suspension(loaded.phase.value.at)), None)
    ensures SleepsWhole(reg, s0, run, s, out)
  {
  }

  /** What becomes of a call whose deadline is known. */
  method WatchTimer(db: S.Store, reg: Registry, run: Run) returns (out: Run)
    requires run.phase.Loaded? && NextAction(reg, run).DoSleep? && NextAction(reg, run).d > 0
    ensures out == UseCheckpoint(db.Snapshot(), run, NextAction(reg, run), run.phase.value) && Called(run, out)
    ensures run.phase.value.Instant? && db.now < run.phase.value.at ==>
              out == run.(phase := Ended(Broken(Suspension(run.phase.value.at)), None))
  {
    var a, raw := NextAction(reg, run), run.phase.value;
    if !raw.Instant? {
      return Broke(run, Plain("decode timer checkpoint"));
    }
    if db.now < raw.at {
      return Broke(run, Suspension(raw.at));
    }
    out := Observe(run, Woke(KeyFor(a), raw.at));
  }

  /** The id that Enqueue gave back is the one that the state machine answers. */
  lemma SameChild(s: State, req: EnqueueRequest, id: JobId, child: JobId)
    requires Inv(s) && Legal(s, Enqueue(req, id)) && req.idem != ""
    requires Inserts(s, req) || HasKey(s, req.idem)
    requires var s' := Apply(s, Enqueue(req, id));
             KeysUnique(s') && child in s'.jobs && s'.jobs[child].row.idem == Some(req.idem)
    ensures EnqueueReply(s, req, id) == Some(child)
  {
    ChildEnqueued(s, req, id);
  }

  lemma EnqueueKeepsInv(s: State, req: EnqueueRequest, id: JobId)
    requires Inv(s) && id !in s.issued && IsUuid(id)
    ensures Inv(Apply(s, Enqueue(req, id))) && id !in s.jobs && KeysUnique(s)
  {
    InvKept(s, Enqueue(req, id));
  }

  /** The checkpointed id of a child. */
  method ChildId(db: S.Store, reg: Registry, run: Run, answer: Answer) returns (out: Run)
    requires run.phase.Ready? && NextAction(reg, run).DoChild? && answer.id !in db.issued && IsUuid(answer.id)
    requires Inv(db.Snapshot())
    modifies db
    ensures Inv(db.Snapshot()) && Reaches(reg, {answer}, old(db.Snapshot()), run, db.Snapshot(), out)
    ensures (out.phase.Loaded? || out.phase.Ended?) && out == run.(phase := out.phase)
    ensures db.issued <= old(db.issued) + {answer.id}
    ensures out.phase.Loaded? ==> OnRecord(db.Snapshot(), run.job, KeyFor(NextAction(reg, run)), out.phase.value)
    ensures out.phase.Ended? ==> FailsForNow(out)
  {
    var a := NextAction(reg, run);
    ghost var s0 := db.Snapshot();
    Stands(reg, {answer}, s0, run);
    Began(reg, {answer}, s0, run, db.Snapshot(), run);
    out := Load(db, run, KeyFor(a), Missed);
    if out.phase.Missed? {
      out := StartChild(db, reg, out, answer, s0, run);
      if out.phase.Produced? {
        out := SaveResult(db, reg, out, out.phase.value, {answer}, s0, run);
      }
    }
  }

  /** children.go: the child is a job under a stable key, its id a checkpoint of the
      parent; the run suspends until the child has ended. */
  method ExecuteChild(db: S.Store, reg: Registry, run: Run, answer: Answer) returns (out: Run)
    requires run.phase.Ready? && NextAction(reg, run).DoChild? && answer.id !in db.issued && IsUuid(answer.id)
    requires Inv(db.Snapshot())
    modifies db
    ensures Inv(db.Snapshot()) && Reaches(reg, {answer}, old(db.Snapshot()), run, db.Snapshot(), out) && Called(run, out)
    ensures db.issued <= old(db.issued) + {answer.id}
    ensures FailsForNow(out) || ChildDecided(db.Snapshot(), run.job, KeyFor(NextAction(reg, run)), out)
  {
    ghost var s0 := db.Snapshot();
    out := ChildId(db, reg, run, answer);
    if out.phase.Loaded? {
      Used(reg, {answer}, s0, run, db.Snapshot(), out);
      out := WatchChild(db, reg, out);
    }
  }

  /** The body of the child's step: enqueue it under its key. */
  method StartChild(db: S.Store, reg: Registry, run: Run, answer: Answer, ghost s0: State, ghost run0: Run) returns (out: Run)
    requires run.phase.Missed? && NextAction(reg, run).DoChild? && answer.id !in db.issued && IsUuid(answer.id)
    requires Inv(db.Snapshot()) && Reaches(reg, {answer}, s0, run0, db.Snapshot(), run)
    modifies db`jobs, db`issued
    ensures Inv(db.Snapshot()) && Reaches(reg, {answer}, s0, run0, db.Snapshot(), out)
    ensures (out.phase.Produced? || out.phase.Ended?) && out == run.(phase := out.phase)
    ensures out.phase.Ended? ==> FailsForNow(out)
    ensures db.issued <= old(db.issued) + {answer.id}
  {
    var a := NextAction(reg, run);
    var request := ChildRequest(run, a);
    ghost var s := db.Snapshot();
    EnqueueKeepsInv(s, request, answer.id);
    Ran(reg, {answer}, s0, run0, s, run, FreshChild(answer.id));
    var reply := db.Enqueue(request, answer.id);
    match reply
    case Err(_) =>
      out := Broke(run, Wrapped("step __child:" + a.name, Plain("foreign key")));
    case Ok(job) =>
      SameChild(s, request, answer.id, job.0);
      out := run.(phase := Produced(JobRef(job.0)));
  }

  /** The child of the checkpoint has succeeded, and its result goes on to the parent; or it
      failed, and ends the parent for good; or it is not finished, and the parent suspends
      for 5 seconds. */
  predicate ChildDecided(s: State, job: JobId, key: string, out: Run) {
    && Known(s, job, key) && s.jobs[job].steps[key].JobRef? && s.jobs[job].steps[key].id in s.jobs
    && ByStatus(s.jobs[s.jobs[job].steps[key].id].row, s.now, out)
  }

  predicate ByStatus(child: Row, now: Time, out: Run) {
    match child.status
    case Succeeded => out.phase.Ready? && |out.obs| > 0 && out.obs[|out.obs| - 1].ChildDone?
                      && out.obs[|out.obs| - 1].result == if child.result.Some? then child.result.value else EmptyObject
    case DeadLetter => out.phase.Ended? && out.phase.outcome.Broken? && IsPermanent(out.phase.outcome.fault)
    case Canceled => out.phase.Ended? && out.phase.outcome.Broken? && IsPermanent(out.phase.outcome.fault)
    case _ => out.phase == Ended(Broken(Suspension(now + 5_000_000_000)), None)
  }

  /** What becomes of a call whose child is known. */
  method WatchChild(db: S.Store, reg: Registry, run: Run) returns (out: Run)
    requires run.phase.Loaded? && NextAction(reg, run).DoChild?
    ensures out == UseCheckpoint(db.Snapshot(), run, NextAction(reg, run), run.phase.value) && Called(run, out)
    ensures if run.phase.value.JobRef? && run.phase.value.id in db.jobs then ByStatus(db.jobs[run.phase.value.id].row, db.now, out)
            else FailsForNow(out)
  {
    var a, raw := NextAction(reg, run), run.phase.value;
    if !raw.JobRef? {
      return Broke(run, Plain("decode child checkpoint"));
    }
    if raw.id !in db.jobs {
      return Broke(run, Wrapped("child " + a.name, Plain("job not found")));
    }
    var child := db.jobs[raw.id].row;
    match child.status
    case Succeeded => out := Observe(run, ChildDone(KeyFor(a), raw.id, OrEmpty(child.result)));
    case DeadLetter => out := Broke(run, Permanent(Plain("child workflow ended")));
    case Canceled => out := Broke(run, Permanent(Plain("child workflow ended")));
    case _ => out := Broke(run, Suspension(db.now + SIGNAL_POLL_INTERVAL));
  }

  // -------------------------------------------------------------- the job

  /** The ids that the database would hand out are fresh, and all different. */
  ghost predicate FreshIds(answers: seq<Answer>, from: nat, issued: set<JobId>)
    requires from <= |answers|
  {
    && (forall i | from <= i < |answers| :: answers[i].id !in issued && IsUuid(answers[i].id))
    && (forall i, k | from <= i < k < |answers| :: answers[i].id != answers[k].id)
  }

  lemma Lift(reg: Registry, w: Answer, s: State, run: Run, s': State, run': Run)
    requires Reaches(reg, {}, s, run, s', run')
    ensures Reaches(reg, {w}, s, run, s', run')
  {
    var cs :| CanStep(reg, {}, s, run, cs) && Stepped(reg, s, run, cs) == (s', run');
    MoreAnswers(reg, {}, {w}, s, run, cs);
  }

  /** One call of the workflow, or its end. */
  method Call(db: S.Store, reg: Registry, run: Run, answer: Answer) returns (out: Run)
    requires run.phase.Ready? && answer.id !in db.issued && IsUuid(answer.id) && Inv(db.Snapshot())
    modifies db
    ensures Inv(db.Snapshot()) && Reaches(reg, {answer}, old(db.Snapshot()), run, db.Snapshot(), out) && Called(run, out)
    ensures db.issued <= old(db.issued) + {answer.id}
  {
    ghost var s0 := db.Snapshot();
    Stands(reg, {answer}, s0, run);
    match NextAction(reg, run)
    case DoStep(_, _) => out := RunStep(db, reg, run, answer);
    case DoWait(_, _, _) =>
      out := WaitSignalAt(db, reg, run);
      Lift(reg, answer, s0, run, db.Snapshot(), out);
    case DoSleep(_, _, _) =>
      out := Sleep(db, reg, run);
      Lift(reg, answer, s0, run, db.Snapshot(), out);
    case DoChild(_, _, _, _) => out := ExecuteChild(db, reg, run, answer);
    case Return(result) =>
      Began(reg, {answer}, s0, run, s0, run);
      out := run.(phase := Ended(Returned(result), None));
    case Raise(fault) =>
      Began(reg, {answer}, s0, run, s0, run);
      out := Broke(run, fault);
  }

  function AnswerSet(answers: seq<Answer>): set<Answer> {
    set i | 0 <= i < |answers| :: answers[i]
  }

  /** A run of the code so far. */
  ghost predicate Executed(reg: Registry, answers: seq<Answer>, s: State, start: Run, s': State, run: Run, calls: nat) {
    && Reaches(reg, AnswerSet(answers), s, start, s', run)
    && ((run.phase.Ready? && |run.obs| == |start.obs| + calls) || run.phase.Ended?)
  }

  lemma OneCallMore(reg: Registry, answers: seq<Answer>, s0: State, start: Run, s: State, run: Run, i: nat, s': State, run': Run)
    requires Executed(reg, answers, s0, start, s, run, i) && i < |answers| && run.phase.Ready?
    requires Reaches(reg, {answers[i]}, s, run, s', run') && Called(run, run')
    ensures Executed(reg, answers, s0, start, s', run', i + 1)
  {
    assert answers[i] in AnswerSet(answers);
    GoesOn(reg, AnswerSet(answers), s0, start, s, run, answers[i], s', run');
  }

  /** Executes the workflow until it ends, or until the process dies: that is when
      there are no more answers. */
  method Execute(db: S.Store, reg: Registry, start: Run, answers: seq<Answer>) returns (run: Run)
    requires start.phase.Ready? && Inv(db.Snapshot()) && FreshIds(answers, 0, db.issued)
    modifies db
    ensures Inv(db.Snapshot()) && Executed(reg, answers, old(db.Snapshot()), start, db.Snapshot(), run, |answers|)
  {
    ghost var s0 := db.Snapshot();
    run := start;
    Stands(reg, AnswerSet(answers), s0, start);
    var i := 0;
    while i < |answers| && run.phase.Ready?
      invariant i <= |answers| && FreshIds(answers, i, db.issued) && Inv(db.Snapshot())
      invariant Executed(reg, answers, s0, start, db.Snapshot(), run, i)
      decreases |answers| - i
    {
      ghost var s, before := db.Snapshot(), run;
      run := Call(db, reg, run, answers[i]);
      OneCallMore(reg, answers, s0, start, s, before, i, db.Snapshot(), run);
      i := i + 1;
    }
  }

  lemma Finished(reg: Registry, answers: set<Answer>, s0: State, run0: Run, s: State, run: Run)
    requires Reaches(reg, answers, s0, run0, s, run) && run.phase.Ended? && Inv(s)
    ensures S.OnOneJob(TerminalWrite(run, run.phase.outcome), run.job)
    ensures var s' := S.UpdateOne(s, TerminalWrite(run, run.phase.outcome), run.job);
            Inv(s') && Reaches(reg, answers, s0, run0, s', run.(phase := Gone))
  {
    var op := TerminalWrite(run, run.phase.outcome);
    S.OneJob(s, op, run.job);
    InvKept(s, op);
    Goes(reg, answers, s0, run0, s, run, Go, Some(op), run.(phase := Gone));
  }

  /** Which terminal write it is: a result completes the job; an error with a
      suspension anywhere in its tree parks it, also when it is marked permanent; any
      other error fails it, and dead-letters it exactly when it is permanent or the
      attempts are used up. */
  lemma TerminalBranch(run: Run, outcome: Outcome, e: Entry, now: Time)
    requires Owns(e.row, run.worker)
    ensures var op := TerminalWrite(run, outcome);
            && (op.Complete? <==> outcome.Returned?)
            && (op.Suspend? <==> outcome.Broken? && exists f :: f in Tree(outcome.fault) && f.Suspension?)
            && (op.Fail? ==> (EntryAfter(op, now, run.job, e).row.status == DeadLetter <==>
                  (exists f :: f in Tree(outcome.fault) && (f.Permanent? || f.PermanentMark?)) || e.row.attempt >= e.row.maxAttempts))
  {
    if outcome.Broken? {
      SuspensionIffFound(outcome.fault);
      PermanentIffMarked(outcome.fault);
      if FindSuspension(outcome.fault).None? {
        Fails(run, outcome.fault, e, now);
      }
    }
  }

  lemma Fails(run: Run, fault: Fault, e: Entry, now: Time)
    requires Owns(e.row, run.worker)
    ensures EntryAfter(Fail(run.job, run.worker, fault), now, run.job, e).row.status
            == NextStatusAfterFailure(e.row.attempt, e.row.maxAttempts, fault)
  {
  }

  /** Exactly one terminal write: a suspension anywhere in the error's chain parks
      the job, any other error fails it. */
  method RecordOutcome(db: S.Store, run: Run, outcome: Outcome)
    modifies db`jobs
    ensures S.OnOneJob(TerminalWrite(run, outcome), run.job)
    ensures db.Snapshot() == S.UpdateOne(old(db.Snapshot()), TerminalWrite(run, outcome), run.job)
  {
    match outcome
    case Returned(result) =>
      var completed := db.Complete(run.job, run.worker, result);
    case Broken(fault) =>
      var suspension := FindSuspension(fault);
      if suspension.Some? {
        var parked := db.Suspend(run.job, run.worker, suspension.value, run.wake);
      } else {
        var failed := db.Fail(run.job, run.worker, fault);
      }
  }

  /** worker.go, runJob. Whatever it does, it does along a path of the state machine,
      and unless the process dies it ends with its terminal write. */
  method RunJob(db: S.Store, reg: Registry, start: Run, answers: seq<Answer>) returns (run: Run)
    requires start.phase.Ready? && Inv(db.Snapshot()) && FreshIds(answers, 0, db.issued)
    modifies db
    ensures Inv(db.Snapshot()) && Reaches(reg, AnswerSet(answers), old(db.Snapshot()), start, db.Snapshot(), run)
    ensures (run.phase.Ready? && |run.obs| == |start.obs| + |answers|) || run.phase.Gone?
  {
    run := Execute(db, reg, start, answers);
    if run.phase.Ended? {
      Finished(reg, AnswerSet(answers), old(db.Snapshot()), start, db.Snapshot(), run);
      RecordOutcome(db, run, run.phase.outcome);
      run := run.(phase := Gone);
    }
  }
}
