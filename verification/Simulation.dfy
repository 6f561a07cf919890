/** One run of a job, step by step, beside an uninterrupted run of its workflow:
    how far the checkpoints, the world and the run itself have come. */
module Simulation {
  import opened Values
  import opened Faults
  import opened Jobs
  import opened StoreModel
  import opened Runtime

  /** What the step stored under a key does to the world, and returns. */
  type Effects<!W> = (string, W) -> (W, Json)

  /** Running a step again at once changes nothing and returns the same. */
  ghost predicate Idempotent<W(!new)>(eff: Effects<W>) {
    forall key, w :: eff(key, eff(key, w).0) == eff(key, w)
  }

  /** The workflow of one job: what it has seen determines its next action. */
  type Code = seq<Json> -> Action

  /** Steps only: no waits, timers or children. */
  ghost predicate Flat(code: Code) {
    forall hist :: code(hist).DoStep? || code(hist).Return? || code(hist).Raise?
  }

  function CodeOf(reg: Registry, kind: string, payload: Json): Code {
    hist => reg(kind, payload, hist)
  }

  /** What the waits, timers and children of a job were answered: the delivery, deadline
      or child under each key, and each child's result. */
  datatype Answers = Answers(values: map<string, Json>, results: map<JobId, Json>)

  const NO_ANSWERS := Answers(map[], map[])

  // ------------------------------------------------- one uninterrupted run

  datatype Ideal<W> = Ideal(w: W, steps: map<string, Json>, obs: seq<Obs>, bodies: nat)

  predicate Naps(a: Action) {
    a.DoSleep? && a.d <= 0
  }

  /** What is stored for a call: a step's return value, or the answer. */
  ghost function ValueFor<W>(eff: Effects<W>, ans: Answers, x: Ideal<W>, a: Action): Option<Json>
    requires Checkpointed(a)
  {
    var key := KeyFor(a);
    if a.DoStep? then Some(if key in x.steps then x.steps[key] else eff(key, x.w).1)
    else if key in ans.values && (key in x.steps ==> x.steps[key] == ans.values[key]) then Some(ans.values[key])
    else None
  }

  /** What a call that has its checkpoint lets the workflow see. */
  function ObsFor(ans: Answers, a: Action, value: Json): Option<Obs>
    requires Checkpointed(a)
  {
    match a
    case DoStep(_, _) => Some(Value(KeyFor(a), value))
    case DoWait(_, _, _) => Some(Value(KeyFor(a), value))
    case DoSleep(_, _, _) => if value.Instant? then Some(Woke(KeyFor(a), value.at)) else None
    case DoChild(_, _, _, _) =>
      if value.JobRef? && value.id in ans.results then Some(ChildDone(KeyFor(a), value.id, ans.results[value.id])) else None
  }

  /** One action. At the end of the workflow, and where an answer is missing, the run
      stands still. */
  ghost function IdealStep<W>(code: Code, eff: Effects<W>, ans: Answers, x: Ideal<W>): Ideal<W> {
    var a := code(Seen(x.obs));
    if Naps(a) then x.(obs := x.obs + [NoNap])
    else if !Checkpointed(a) then x
    else
      var value := ValueFor(eff, ans, x, a);
      if value.None? || ObsFor(ans, a, value.value).None? then x
      else
        var works := a.DoStep? && KeyFor(a) !in x.steps;
        Ideal(if works then eff(KeyFor(a), x.w).0 else x.w, x.steps[KeyFor(a) := value.value],
              x.obs + [ObsFor(ans, a, value.value).value], x.bodies + if works then 1 else 0)
  }

  /** The uninterrupted run after `n` actions. */
  ghost function IdealAfter<W>(code: Code, eff: Effects<W>, ans: Answers, w0: W, n: nat): Ideal<W> {
    if n == 0 then Ideal(w0, map[], [], 0) else IdealStep(code, eff, ans, IdealAfter(code, eff, ans, w0, n - 1))
  }

  lemma OneGrows<W>(code: Code, eff: Effects<W>, ans: Answers, x: Ideal<W>)
    ensures var x' := IdealStep(code, eff, ans, x);
            && x.steps.Keys <= x'.steps.Keys && (forall key | key in x.steps :: x'.steps[key] == x.steps[key])
            && x.bodies <= x'.bodies && |x.obs| <= |x'.obs| <= |x.obs| + 1
            && x'.bodies - x.bodies <= |x'.steps| - |x.steps|
  {
    var a := code(Seen(x.obs));
    if Checkpointed(a) && KeyFor(a) in x.steps {
      assert x.steps[KeyFor(a) := x.steps[KeyFor(a)]] == x.steps;
    }
  }

  lemma {:induction false} IdealGrows<W>(code: Code, eff: Effects<W>, ans: Answers, w0: W, m: nat, n: nat)
    requires m <= n
    ensures var before, after := IdealAfter(code, eff, ans, w0, m), IdealAfter(code, eff, ans, w0, n);
            && before.steps.Keys <= after.steps.Keys
            && (forall key | key in before.steps :: after.steps[key] == before.steps[key])
            && before.bodies <= after.bodies && |after.obs| <= |before.obs| + (n - m)
    decreases n
  {
    if m < n {
      IdealGrows(code, eff, ans, w0, m, n - 1);
      OneGrows(code, eff, ans, IdealAfter(code, eff, ans, w0, n - 1));
    }
  }

  /** A run that has `n` observations after `n` actions had one after each. */
  lemma NeverStood<W>(code: Code, eff: Effects<W>, ans: Answers, w0: W, m: nat, n: nat)
    requires m <= n && |IdealAfter(code, eff, ans, w0, n).obs| == n
    ensures |IdealAfter(code, eff, ans, w0, m).obs| == m
  {
    IdealGrows(code, eff, ans, w0, 0, m);
    IdealGrows(code, eff, ans, w0, m, n);
  }

  /** Every body that was executed has its checkpoint. */
  lemma {:induction false} BodiesAreSaved<W>(code: Code, eff: Effects<W>, ans: Answers, w0: W, n: nat)
    ensures IdealAfter(code, eff, ans, w0, n).bodies <= |IdealAfter(code, eff, ans, w0, n).steps|
    ensures ans == NO_ANSWERS ==>
              IdealAfter(code, eff, ans, w0, n).bodies == |IdealAfter(code, eff, ans, w0, n).steps|
  {
    if n > 0 {
      BodiesAreSaved(code, eff, ans, w0, n - 1);
      OneGrows(code, eff, ans, IdealAfter(code, eff, ans, w0, n - 1));
      NoAnswerNoStep(code, eff, ans, IdealAfter(code, eff, ans, w0, n - 1));
    }
  }

  lemma NoAnswerNoStep<W>(code: Code, eff: Effects<W>, ans: Answers, x: Ideal<W>)
    ensures var x' := IdealStep(code, eff, ans, x);
            ans == NO_ANSWERS ==> x'.bodies - x.bodies == |x'.steps| - |x.steps|
  {
    var a := code(Seen(x.obs));
    if Checkpointed(a) && KeyFor(a) in x.steps {
      assert x.steps[KeyFor(a) := x.steps[KeyFor(a)]] == x.steps;
    }
  }

  /** At the end of the workflow, the uninterrupted run stands still. */
  lemma {:induction false} IdealEnds<W>(code: Code, eff: Effects<W>, ans: Answers, w0: W, m: nat, n: nat)
    requires m <= n
    requires var a := code(Seen(IdealAfter(code, eff, ans, w0, m).obs)); !Checkpointed(a) && !Naps(a)
    ensures IdealAfter(code, eff, ans, w0, n) == IdealAfter(code, eff, ans, w0, m)
    decreases n
  {
    if m < n { IdealEnds(code, eff, ans, w0, m, n - 1); }
  }

  /** Answers that differ on nothing that the uninterrupted run asks for. */
  ghost predicate SameAnswer(a: Action, ans: Answers, ans': Answers) {
    Checkpointed(a) && !a.DoStep? ==>
      && (KeyFor(a) in ans.values <==> KeyFor(a) in ans'.values)
      && (KeyFor(a) in ans.values ==>
            && ans'.values[KeyFor(a)] == ans.values[KeyFor(a)]
            && ObsFor(ans', a, ans.values[KeyFor(a)]) == ObsFor(ans, a, ans.values[KeyFor(a)]))
  }

  lemma SameStep<W>(code: Code, eff: Effects<W>, ans: Answers, ans': Answers, x: Ideal<W>)
    requires SameAnswer(code(Seen(x.obs)), ans, ans')
    ensures IdealStep(code, eff, ans', x) == IdealStep(code, eff, ans, x)
  {
  }

  ghost predicate SameAnswers<W>(code: Code, eff: Effects<W>, w0: W, ans: Answers, ans': Answers) {
    forall n: nat :: SameAnswer(code(Seen(IdealAfter(code, eff, ans, w0, n).obs)), ans, ans')
  }

  /** A workflow of steps asks for no answers. */
  lemma FlatAsksNothing<W>(code: Code, eff: Effects<W>, w0: W, ans: Answers, ans': Answers)
    requires Flat(code)
    ensures SameAnswers(code, eff, w0, ans, ans')
  {
  }

  /** With the same answers, the uninterrupted run is the same. */
  lemma {:induction false} SameIdeal<W>(code: Code, eff: Effects<W>, w0: W, ans: Answers, ans': Answers, n: nat)
    requires SameAnswers(code, eff, w0, ans, ans')
    ensures IdealAfter(code, eff, ans', w0, n) == IdealAfter(code, eff, ans, w0, n)
  {
    if n > 0 {
      SameIdeal(code, eff, w0, ans, ans', n - 1);
      SameStep(code, eff, ans, ans', IdealAfter(code, eff, ans, w0, n - 1));
    }
  }

  // ---------------------------------------------------------- the simulation

  /** The answers are those on record: the stored checkpoints, and the results of the
      children that have succeeded. */
  predicate Foretold(ans: Answers, steps: map<string, Json>, jobs: map<JobId, Entry>) {
    && (forall key | key in steps :: key in ans.values && ans.values[key] == steps[key])
    && (forall id | id in jobs :: id in ans.results)
    && (forall id | id in jobs && jobs[id].row.status == Succeeded :: ans.results[id] == OrEmpty(jobs[id].row.result))
  }

  /** The effect after the last checkpoint has happened, and is not recorded. */
  ghost predicate Pending<W>(code: Code, eff: Effects<W>, id: Ideal<W>, w: W) {
    var a := code(Seen(id.obs));
    a.DoStep? && KeyFor(a) !in id.steps && w == eff(KeyFor(a), id.w).0
  }

  ghost predicate WorldSim<W>(code: Code, eff: Effects<W>, ans: Answers, w0: W, k: nat, steps: map<string, Json>, w: W) {
    var id := IdealAfter(code, eff, ans, w0, k);
    steps == id.steps && |id.obs| == k && (w == id.w || Pending(code, eff, id, w))
  }

  ghost predicate RunSim<W>(code: Code, eff: Effects<W>, ans: Answers, w0: W, k: nat, steps: map<string, Json>, w: W, run: Run) {
    && |run.obs| <= k && run.obs == IdealAfter(code, eff, ans, w0, |run.obs|).obs
    && var a := code(Seen(run.obs));
       match run.phase
       case Ready => true
       case Missed => Checkpointed(a) && KeyFor(a) !in steps
       case Delivered(_) => a.DoWait? && Checkpointed(a) && KeyFor(a) !in steps
       case Produced(value) => Unsaved(code, eff, ans, w0, k, w, run, value)
       case Owned(value) => Unsaved(code, eff, ans, w0, k, w, run, value)
       case Loaded(value) => Checkpointed(a) && KeyFor(a) in steps && steps[KeyFor(a)] == value
       case Ended(outcome, _) => outcome.Returned? ==> a == Return(outcome.result)
       case Gone => true
  }

  /** The value of the next checkpoint, after the effect if it is a step's. */
  ghost predicate Unsaved<W>(code: Code, eff: Effects<W>, ans: Answers, w0: W, k: nat, w: W, run: Run, value: Json) {
    var id := IdealAfter(code, eff, ans, w0, k);
    var a := code(Seen(run.obs));
    && |run.obs| == k && Checkpointed(a) && KeyFor(a) !in id.steps && ObsFor(ans, a, value).Some?
    && (a.DoStep? ==> Pending(code, eff, id, w) && value == eff(KeyFor(a), id.w).1)
  }

  predicate Live(run: Run) {
    !run.phase.Ended? && !run.phase.Gone?
  }

  /** Ended without a result, by an error or a crash; a wait, a timer or a child that only
      suspends the run does not count. */
  predicate Aborts(a: Action, before: Run, after: Run) {
    Live(before) && (after.phase.Gone? || (after.phase.Ended? && after.phase.outcome.Broken?
                                           && (a.DoStep? || FindSuspension(after.phase.outcome.fault).None?)))
  }

  /** A step's body has been executed, and its checkpoint is not written. */
  predicate InFlight(a: Action, run: Run) {
    a.DoStep? && (run.phase.Produced? || run.phase.Owned?)
  }

  /** A run that has not come as far as the checkpoints finds its next one. */
  lemma NextIsSaved<W>(code: Code, eff: Effects<W>, ans: Answers, w0: W, m: nat, k: nat)
    requires m < k && |IdealAfter(code, eff, ans, w0, k).obs| == k
    requires Checkpointed(code(Seen(IdealAfter(code, eff, ans, w0, m).obs)))
    ensures var id, last := IdealAfter(code, eff, ans, w0, m), IdealAfter(code, eff, ans, w0, k);
            var a := code(Seen(id.obs));
            && KeyFor(a) in last.steps && ObsFor(ans, a, last.steps[KeyFor(a)]).Some?
            && IdealAfter(code, eff, ans, w0, m + 1).obs == id.obs + [ObsFor(ans, a, last.steps[KeyFor(a)]).value]
  {
    NeverStood(code, eff, ans, w0, m, k);
    NeverStood(code, eff, ans, w0, m + 1, k);
    IdealGrows(code, eff, ans, w0, m + 1, k);
  }

  /** The step that fills in the next checkpoint of the uninterrupted run. */
  lemma SaveSim<W>(code: Code, eff: Effects<W>, ans: Answers, w0: W, k: nat, steps: map<string, Json>, w: W, run: Run, value: Json)
    requires WorldSim(code, eff, ans, w0, k, steps, w) && RunSim(code, eff, ans, w0, k, steps, w, run) && run.phase == Owned(value)
    requires var a := code(Seen(run.obs)); !a.DoStep? ==> KeyFor(a) in ans.values && ans.values[KeyFor(a)] == value
    ensures var key := KeyFor(code(Seen(run.obs)));
            && key !in steps
            && WorldSim(code, eff, ans, w0, k + 1, steps[key := value], w)
            && RunSim(code, eff, ans, w0, k + 1, steps[key := value], w, run.(phase := Loaded(value)))
            && IdealAfter(code, eff, ans, w0, k + 1).bodies
               == IdealAfter(code, eff, ans, w0, k).bodies + if code(Seen(run.obs)).DoStep? then 1 else 0
  {
  }

  /** A run takes the next value from the checkpoints; `k` moves on with it when it
      is the first to come this far. */
  lemma UseSim<W>(code: Code, eff: Effects<W>, ans: Answers, w0: W, k: nat, steps: map<string, Json>, w: W, run: Run, value: Json, obs: Obs)
    returns (k': nat)
    requires WorldSim(code, eff, ans, w0, k, steps, w) && RunSim(code, eff, ans, w0, k, steps, w, run) && run.phase == Loaded(value)
    requires var a := code(Seen(run.obs));
             ObsFor(ans, a, value) == Some(obs) && (!a.DoStep? ==> KeyFor(a) in ans.values && ans.values[KeyFor(a)] == value)
    ensures k' >= k && IdealAfter(code, eff, ans, w0, k').bodies == IdealAfter(code, eff, ans, w0, k).bodies
    ensures WorldSim(code, eff, ans, w0, k', steps, w) && RunSim(code, eff, ans, w0, k', steps, w, Observe(run, obs))
  {
    var m := |run.obs|;
    if m < k {
      NextIsSaved(code, eff, ans, w0, m, k);
      NeverStood(code, eff, ans, w0, m, k);
      k' := k;
    } else {
      k' := k + 1;
      assert steps[KeyFor(code(Seen(run.obs))) := value] == steps;
    }
  }

  /** A timer that is due at once is passed without a checkpoint. */
  lemma NapSim<W>(code: Code, eff: Effects<W>, ans: Answers, w0: W, k: nat, steps: map<string, Json>, w: W, run: Run) returns (k': nat)
    requires WorldSim(code, eff, ans, w0, k, steps, w) && RunSim(code, eff, ans, w0, k, steps, w, run) && run.phase.Ready?
    requires Naps(code(Seen(run.obs)))
    ensures k' >= k && IdealAfter(code, eff, ans, w0, k').bodies == IdealAfter(code, eff, ans, w0, k).bodies
    ensures WorldSim(code, eff, ans, w0, k', steps, w) && RunSim(code, eff, ans, w0, k', steps, w, Observe(run, NoNap))
  {
    k' := if |run.obs| < k then k else k + 1;
  }

  /** Executing the body brings about the same effect and the same value, whether
      or not an aborted run has been here before. */
  lemma BodySim<W(!new)>(code: Code, eff: Effects<W>, ans: Answers, w0: W, k: nat, steps: map<string, Json>, w: W, run: Run)
    requires Idempotent(eff) && code(Seen(run.obs)).DoStep?
    requires WorldSim(code, eff, ans, w0, k, steps, w) && RunSim(code, eff, ans, w0, k, steps, w, run) && run.phase.Missed?
    ensures var (w', value) := eff(KeyFor(code(Seen(run.obs))), w);
            && WorldSim(code, eff, ans, w0, k, steps, w')
            && RunSim(code, eff, ans, w0, k, steps, w', run.(phase := Produced(value)))
  {
    AtTheFront(code, eff, ans, w0, k, steps, w, run);
  }

  /** A run that misses its checkpoint has come as far as the checkpoints. */
  lemma AtTheFront<W>(code: Code, eff: Effects<W>, ans: Answers, w0: W, k: nat, steps: map<string, Json>, w: W, run: Run)
    requires WorldSim(code, eff, ans, w0, k, steps, w) && RunSim(code, eff, ans, w0, k, steps, w, run)
    requires run.phase.Missed? || run.phase.Delivered?
    ensures |run.obs| == k
  {
    var m := |run.obs|;
    if m < k {
      NextIsSaved(code, eff, ans, w0, m, k);
    }
  }

  // ----------------------------------------------------- one step of a run

  /** The body of a step acts on the world when it is executed. */
  ghost predicate Acts<W>(eff: Effects<W>, a: Action, run: Run, c: Choice, w: W, w': W) {
    if run.phase.Missed? && a.DoStep? && c.Body? then
      var (v, value) := eff(KeyFor(a), w);
      if c.outcome.Ok? then w' == v && c.outcome.value == Some(value) else w' == w || w' == v
    else w' == w
  }

  predicate WritesStep(write: Option<Op>) {
    write.Some? && write.value.InsertStep?
  }

  /** A run writes its next checkpoint, or enqueues a child. */
  predicate CallWrite(steps: map<string, Json>, run: Run, a: Action, write: Option<Op>) {
    write.Some? ==>
      || (write.value.Enqueue? && a.DoChild?)
      || (run.phase.Owned? && Checkpointed(a) && KeyFor(a) !in steps
          && write.value == InsertStep(run.job, KeyFor(a), run.phase.value))
  }

  predicate Flights(a: Action, run: Run, write: Option<Op>, a': Action, run': Run) {
    && (InFlight(a', run') && !InFlight(a, run) ==> run.phase.Missed? && a.DoStep?)
    && (InFlight(a, run) && !InFlight(a', run') ==> WritesStep(write) || Aborts(a, run, run'))
  }

  /** A small step from `run` to `run'` keeps step with the uninterrupted run. */
  ghost predicate Keeps<W>(code: Code, eff: Effects<W>, ans: Answers, w0: W, steps: map<string, Json>, run: Run, write: Option<Op>,
                           run': Run, k: nat, k': nat, w': W)
  {
    var a := code(Seen(run.obs));
    && CallWrite(steps, run, a, write)
    && (var steps' := if WritesStep(write) then steps[KeyFor(a) := run.phase.value] else steps;
        WorldSim(code, eff, ans, w0, k', steps', w') && RunSim(code, eff, ans, w0, k', steps', w', run'))
    && k' >= k
    && IdealAfter(code, eff, ans, w0, k').bodies
       >= IdealAfter(code, eff, ans, w0, k).bodies + (if WritesStep(write) && a.DoStep? then 1 else 0)
    && Flights(a, run, write, code(Seen(run'.obs)), run')
  }

  ghost predicate InStep<W>(code: Code, eff: Effects<W>, ans: Answers, w0: W, s: State, run: Run, k: nat, w: W) {
    && run.job in s.jobs && WorldSim(code, eff, ans, w0, k, s.jobs[run.job].steps, w)
    && RunSim(code, eff, ans, w0, k, s.jobs[run.job].steps, w, run)
    && Foretold(ans, s.jobs[run.job].steps, s.jobs)
  }

  /** After the write, too, the answers are those on record. */
  ghost predicate StaysForetold(ans: Answers, s: State, job: JobId, write: Option<Op>) {
    var s' := if write.Some? then Apply(s, write.value) else s;
    job in s'.jobs && Foretold(ans, s'.jobs[job].steps, s'.jobs)
  }

  lemma StartSim<W>(code: Code, eff: Effects<W>, ans: Answers, w0: W, s: State, run: Run, k: nat, w: W) returns (k': nat)
    requires InStep(code, eff, ans, w0, s, run, k, w) && run.phase.Ready?
    ensures Keeps(code, eff, ans, w0, s.jobs[run.job].steps, run, None, StartAction(s, run, code(Seen(run.obs))), k, k', w)
  {
    k' := k;
    if Naps(code(Seen(run.obs))) {
      k' := NapSim(code, eff, ans, w0, k, s.jobs[run.job].steps, w, run);
    }
  }

  lemma MissedStepSim<W(!new)>(code: Code, eff: Effects<W>, ans: Answers, w0: W, s: State, run: Run, c: Choice, k: nat, w: W, w': W)
    requires InStep(code, eff, ans, w0, s, run, k, w) && run.phase.Missed? && Idempotent(eff) && code(Seen(run.obs)).DoStep?
    requires Acts(eff, code(Seen(run.obs)), run, c, w, w')
    ensures var (write, run') := RunBody(s, run, code(Seen(run.obs)), c);
            Keeps(code, eff, ans, w0, s.jobs[run.job].steps, run, write, run', k, k, w')
  {
    if c.Body? {
      BodySim(code, eff, ans, w0, k, s.jobs[run.job].steps, w, run);
    }
  }

  /** A wait finds its delivery or suspends, and a timer takes its deadline. */
  lemma MissedWaitSim<W>(code: Code, eff: Effects<W>, ans: Answers, w0: W, s: State, run: Run, c: Choice, k: nat, w: W)
    requires InStep(code, eff, ans, w0, s, run, k, w) && run.phase.Missed?
    requires code(Seen(run.obs)).DoWait? || code(Seen(run.obs)).DoSleep?
    ensures var (write, run') := RunBody(s, run, code(Seen(run.obs)), c);
            Keeps(code, eff, ans, w0, s.jobs[run.job].steps, run, write, run', k, k, w)
  {
    AtTheFront(code, eff, ans, w0, k, s.jobs[run.job].steps, w, run);
  }

  lemma MissedChildSim<W>(code: Code, eff: Effects<W>, ans: Answers, w0: W, s: State, run: Run, c: Choice, k: nat, w: W)
    requires InStep(code, eff, ans, w0, s, run, k, w) && run.phase.Missed? && code(Seen(run.obs)).DoChild?
    requires StaysForetold(ans, s, run.job, RunBody(s, run, code(Seen(run.obs)), c).0)
    ensures var (write, run') := RunBody(s, run, code(Seen(run.obs)), c);
            Keeps(code, eff, ans, w0, s.jobs[run.job].steps, run, write, run', k, k, w)
  {
    AtTheFront(code, eff, ans, w0, k, s.jobs[run.job].steps, w, run);
    if c.FreshChild? {
      ReplyIsThere(s, ChildRequest(run, code(Seen(run.obs))), c.id);
    }
  }

  lemma ReplyIsThere(s: State, req: EnqueueRequest, id: JobId)
    ensures var reply := EnqueueReply(s, req, id);
            reply.Some? ==> reply.value in s.jobs || reply.value in Apply(s, Enqueue(req, id)).jobs
  {
  }

  /** What a call makes of its checkpoint, with the answers on record: it returns, or the
      run ends without a result. */
  lemma Used(ans: Answers, s: State, run: Run, a: Action, value: Json)
    requires Checkpointed(a) && Foretold(ans, map[], s.jobs)
    ensures var run' := UseCheckpoint(s, run, a, value);
            if run'.phase.Ready? then ObsFor(ans, a, value).Some? && run' == Observe(run, ObsFor(ans, a, value).value)
            else run' == run.(phase := run'.phase) && run'.phase.Ended? && run'.phase.outcome.Broken?
  {
  }

  lemma UseCallSim<W>(code: Code, eff: Effects<W>, ans: Answers, w0: W, s: State, run: Run, k: nat, w: W) returns (k': nat)
    requires InStep(code, eff, ans, w0, s, run, k, w) && Checkpointed(code(Seen(run.obs))) && run.phase.Loaded?
    ensures var run' := UseCheckpoint(s, run, code(Seen(run.obs)), run.phase.value);
            Keeps(code, eff, ans, w0, s.jobs[run.job].steps, run, None, run', k, k', w)
  {
    var a, value := code(Seen(run.obs)), run.phase.value;
    k' := k;
    Used(ans, s, run, a, value);
    if UseCheckpoint(s, run, a, value).phase.Ready? {
      k' := UseSim(code, eff, ans, w0, k, s.jobs[run.job].steps, w, run, value, ObsFor(ans, a, value).value);
    }
  }

  lemma InsertForetold(ans: Answers, s: State, job: JobId, key: string, value: Json)
    requires job in s.jobs && key !in s.jobs[job].steps && StaysForetold(ans, s, job, Some(InsertStep(job, key, value)))
    ensures key in ans.values && ans.values[key] == value
  {
    assert Apply(s, InsertStep(job, key, value)).jobs[job] == InsertedEntry(s.jobs[job], key, value);
  }

  lemma OwnedSim<W>(code: Code, eff: Effects<W>, ans: Answers, w0: W, s: State, run: Run, c: Choice, k: nat, w: W) returns (k': nat)
    requires InStep(code, eff, ans, w0, s, run, k, w) && Checkpointed(code(Seen(run.obs))) && run.phase.Owned?
    requires StaysForetold(ans, s, run.job, StepCheckpointed(s, run, code(Seen(run.obs)), c).0)
    ensures var (write, run') := StepCheckpointed(s, run, code(Seen(run.obs)), c);
            Keeps(code, eff, ans, w0, s.jobs[run.job].steps, run, write, run', k, k', w)
  {
    var a, value := code(Seen(run.obs)), run.phase.value;
    InsertForetold(ans, s, run.job, KeyFor(a), value);
    SaveSim(code, eff, ans, w0, k, s.jobs[run.job].steps, w, run, value);
    k' := k + 1;
  }

  lemma CallSim<W>(code: Code, eff: Effects<W>, ans: Answers, w0: W, s: State, run: Run, c: Choice, k: nat, w: W)
    requires InStep(code, eff, ans, w0, s, run, k, w) && Checkpointed(code(Seen(run.obs)))
    requires run.phase.Delivered? || run.phase.Produced?
    ensures var (write, run') := StepCheckpointed(s, run, code(Seen(run.obs)), c);
            Keeps(code, eff, ans, w0, s.jobs[run.job].steps, run, write, run', k, k, w)
  {
    if run.phase.Delivered? {
      AtTheFront(code, eff, ans, w0, k, s.jobs[run.job].steps, w, run);
    }
  }

  lemma BreakSim<W>(code: Code, eff: Effects<W>, ans: Answers, w0: W, s: State, run: Run, fault: Fault, k: nat, w: W)
    requires InStep(code, eff, ans, w0, s, run, k, w) && Live(run)
    ensures Keeps(code, eff, ans, w0, s.jobs[run.job].steps, run, None, Broke(run, fault), k, k, w)
  {
  }

  lemma MissedSim<W(!new)>(code: Code, eff: Effects<W>, ans: Answers, w0: W, s: State, run: Run, c: Choice, k: nat, w: W, w': W)
    requires InStep(code, eff, ans, w0, s, run, k, w) && run.phase.Missed? && Idempotent(eff)
    requires Acts(eff, code(Seen(run.obs)), run, c, w, w')
    requires StaysForetold(ans, s, run.job, RunBody(s, run, code(Seen(run.obs)), c).0)
    ensures var (write, run') := RunBody(s, run, code(Seen(run.obs)), c);
            Keeps(code, eff, ans, w0, s.jobs[run.job].steps, run, write, run', k, k, w')
  {
    var a := code(Seen(run.obs));
    if a.DoStep? {
      MissedStepSim(code, eff, ans, w0, s, run, c, k, w, w');
    } else if a.DoChild? {
      MissedChildSim(code, eff, ans, w0, s, run, c, k, w);
    } else {
      MissedWaitSim(code, eff, ans, w0, s, run, c, k, w);
    }
  }

  /** A small step of a live run, on the rows of its job and the world. */
  lemma RunStepSim<W(!new)>(reg: Registry, code: Code, eff: Effects<W>, ans: Answers, w0: W, s: State, run: Run, c: Choice, k: nat, w: W, w': W)
    returns (k': nat)
    requires InStep(code, eff, ans, w0, s, run, k, w) && Live(run) && Idempotent(eff)
    requires NextAction(reg, run) == code(Seen(run.obs)) && Acts(eff, NextAction(reg, run), run, c, w, w')
    requires (c.Break? ==> w' == w) && StaysForetold(ans, s, run.job, StepRun(reg, s, run, c).0)
    ensures var (write, run') := StepRun(reg, s, run, c);
            Keeps(code, eff, ans, w0, s.jobs[run.job].steps, run, write, run', k, k', w')
  {
    k' := k;
    if c.Break? {
      BreakSim(code, eff, ans, w0, s, run, c.fault, k, w);
    } else {
      match run.phase
      case Ready => k' := StartSim(code, eff, ans, w0, s, run, k, w);
      case Missed => MissedSim(code, eff, ans, w0, s, run, c, k, w, w');
      case Owned(_) => k' := OwnedSim(code, eff, ans, w0, s, run, c, k, w);
      case Loaded(_) => k' := UseCallSim(code, eff, ans, w0, s, run, k, w);
      case _ => CallSim(code, eff, ans, w0, s, run, c, k, w);
    }
  }
}
