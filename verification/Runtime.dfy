/** The replay runtime. A workflow is deterministic: the values its calls have
    returned so far determine its next action. A run executes a workflow from
    the top against the store, in the small steps at which other runs, workers
    and operators can interleave: one database transaction, or one read of the
    clock, at a time. Any number of runs of one job may be live at once. */
module Runtime {
  import opened Values
  import opened Faults
  import opened Jobs
  import opened StoreModel
  import opened Keys

  /** What a workflow asks for next, under the activity path it is in. */
  datatype Action =
    | DoStep(path: seq<string>, name: string)
    | DoWait(path: seq<string>, name: string, index: int)
    | DoSleep(path: seq<string>, name: string, d: Time)
    | DoChild(path: seq<string>, name: string, kind: string, input: Option<Json>)
    | Return(result: Option<Json>)
    | Raise(fault: Fault)

  /** One returned call. */
  datatype Obs =
    | Value(key: string, value: Json)
    | Woke(key: string, at: Time)
    | NoNap
    | ChildDone(key: string, child: JobId, result: Json)

  function ViewOf(obs: Obs): Json {
    match obs
    case Value(_, value) => value
    case Woke(_, _) => EmptyObject
    case NoNap => EmptyObject
    case ChildDone(_, _, result) => result
  }

  /** What the workflow itself has seen. */
  function Seen(obs: seq<Obs>): seq<Json> {
    seq(|obs|, i requires 0 <= i < |obs| => ViewOf(obs[i]))
  }

  /** All workflow code: workflow type, payload and what was seen so far give the
      next action; an unknown type raises. */
  type Registry = (string, Json, seq<Json>) -> Action

  datatype Outcome = Returned(result: Option<Json>) | Broken(fault: Fault)

  datatype Phase =
    | Ready                                     // about to take the next action
    | Missed                                    // GetStep found no checkpoint
    | Delivered(value: Json)                    // GetSignalAt found the delivery
    | Produced(value: Json)                     // the step body returned
    | Owned(value: Json)                        // SaveStep saw that the worker holds the lease
    | Loaded(value: Json)                       // the checkpoint's value came back
    | Ended(outcome: Outcome, nap: Option<(string, nat)>)
    | Gone                                      // crashed, or done with its terminal write

  datatype Run = Run(
    job: JobId, worker: WorkerId, queue: string, kind: string, payload: Json, wake: int,
    obs: seq<Obs>, phase: Phase)

  /** What the world decides: a step body's outcome, the id that a new job would
      get, or a failure of any database call. */
  datatype Choice =
    | Go
    | Body(outcome: Result<Option<Json>, Fault>)
    | FreshChild(id: JobId)
    | Break(fault: Fault)

  const SIGNAL_POLL_INTERVAL: Time := 5 * SECOND

  predicate Checkpointed(a: Action) {
    a.DoStep? || (a.DoWait? && a.index >= 0) || (a.DoSleep? && a.d > 0) || a.DoChild?
  }

  function CallOf(a: Action): Call
    requires Checkpointed(a)
  {
    match a
    case DoStep(_, name) => StepCall(name)
    case DoWait(_, name, index) => SignalCall(name, index)
    case DoSleep(_, name, _) => TimerCall(name)
    case DoChild(_, name, _, _) => ChildCall(name)
  }

  function KeyFor(a: Action): string
    requires Checkpointed(a)
  {
    StoredKey(a.path, CallOf(a))
  }

  function NextAction(reg: Registry, run: Run): Action {
    reg(run.kind, run.payload, Seen(run.obs))
  }

  /** Inside an activity the frame has lost the queue, and the child goes to the
      default one. */
  function ChildRequest(run: Run, a: Action): EnqueueRequest
    requires a.DoChild?
  {
    EnqueueRequest(if a.path == [] then run.queue else "", a.kind, Some(OrEmpty(a.input)),
                   ChildKey(run.job, a.name), 0, None, Some(run.job))
  }

  /** The job that an enqueue returns: the holder of the key, or the new one. */
  ghost function EnqueueReply(s: State, req: EnqueueRequest, id: JobId): Option<JobId> {
    if req.idem != "" && HasKey(s, req.idem) then
      var hit :| hit in s.jobs && s.jobs[hit].row.idem == Some(req.idem);
      Some(hit)
    else if Inserts(s, req) then Some(id)
    else None
  }

  function Broke(run: Run, fault: Fault): Run {
    run.(phase := Ended(Broken(fault), None))
  }

  function Observe(run: Run, obs: Obs): Run {
    run.(obs := run.obs + [obs], phase := Ready)
  }

  /** The lookup that every checkpointed call starts with. */
  function Lookup(s: State, run: Run, key: string, otherwise: Phase): Run {
    if run.job in s.jobs && key in s.jobs[run.job].steps
    then run.(phase := Loaded(s.jobs[run.job].steps[key]))
    else run.(phase := otherwise)
  }

  function StartAction(s: State, run: Run, a: Action): Run {
    match a
    case Return(result) => run.(phase := Ended(Returned(result), None))
    case Raise(fault) => Broke(run, fault)
    case DoWait(_, _, index) =>
      if index < 0 then Broke(run, Plain("signal index out of range")) else Lookup(s, run, KeyFor(a), Missed)
    case DoSleep(_, _, d) => if d <= 0 then Observe(run, NoNap) else Lookup(s, run, KeyFor(a), Missed)
    case _ => Lookup(s, run, KeyFor(a), Missed)
  }

  /** What a call does after its checkpoint was not found: the step body. */
  ghost function RunBody(s: State, run: Run, a: Action, c: Choice): (Option<Op>, Run)
    requires Checkpointed(a)
  {
    match a
    case DoStep(_, name) =>
      (None, if !c.Body? then run
             else if c.outcome.Ok? then run.(phase := Produced(OrEmpty(c.outcome.value)))
             else Broke(run, Wrapped("step " + name, c.outcome.error)))
    case DoWait(_, name, index) =>
      var found := SignalAt(s, run.job, name, index);
      (None, if found.Some? then run.(phase := Delivered(found.value))
             else run.(phase := Ended(Broken(Suspension(s.now + SIGNAL_POLL_INTERVAL)), Some((name, index)))))
    case DoSleep(_, _, d) => (None, run.(phase := Produced(Instant(s.now + d))))
    case DoChild(_, name, _, _) =>
      if !c.FreshChild? then (None, run)
      else
        var req := ChildRequest(run, a);
        var reply := EnqueueReply(s, req, c.id);
        (Some(Enqueue(req, c.id)),
         if reply.Some? then run.(phase := Produced(JobRef(reply.value)))
         else Broke(run, Wrapped("step __child:" + name, Plain("foreign key"))))
  }

  /** What a call makes of the checkpoint it got back. */
  function UseCheckpoint(s: State, run: Run, a: Action, value: Json): Run
    requires Checkpointed(a)
  {
    match a
    case DoStep(_, _) => Observe(run, Value(KeyFor(a), value))
    case DoWait(_, _, _) => Observe(run, Value(KeyFor(a), value))
    case DoSleep(_, _, _) =>
      if !value.Instant? then Broke(run, Plain("decode timer checkpoint"))
      else if s.now < value.at then Broke(run, Suspension(value.at))
      else Observe(run, Woke(KeyFor(a), value.at))
    case DoChild(_, name, _, _) =>
      if !value.JobRef? then Broke(run, Plain("decode child checkpoint"))
      else if value.id !in s.jobs then Broke(run, Wrapped("child " + name, Plain("job not found")))
      else
        var child := s.jobs[value.id].row;
        if child.status == Succeeded then Observe(run, ChildDone(KeyFor(a), value.id, OrEmpty(child.result)))
        else if child.status == DeadLetter || child.status == Canceled
        then Broke(run, Permanent(Plain("child workflow ended")))
        else Broke(run, Suspension(s.now + SIGNAL_POLL_INTERVAL))
  }

  /** The one terminal branch that runJob takes for an outcome. */
  function TerminalWrite(run: Run, outcome: Outcome): Op {
    match outcome
    case Returned(result) => Complete(run.job, run.worker, result)
    case Broken(fault) =>
      var suspension := FindSuspension(fault);
      if suspension.Some? then Suspend(run.job, run.worker, suspension.value, run.wake)
      else Fail(run.job, run.worker, fault)
  }

  /** A step inside a checkpointed call. */
  ghost function StepCheckpointed(s: State, run: Run, a: Action, c: Choice): (Option<Op>, Run)
    requires Checkpointed(a)
  {
    match run.phase
    case Missed => RunBody(s, run, a, c)
    case Delivered(value) => (None, Lookup(s, run, KeyFor(a), Produced(value)))
    case Produced(value) =>
      (None, if OwnsJob(s, run.job, run.worker) then run.(phase := Owned(value))
             else Broke(run, Wrapped("save step", Plain("invalid job state transition"))))
    case Owned(value) =>
      (Some(InsertStep(run.job, KeyFor(a), value)),
       if run.job in s.jobs then run.(phase := Loaded(InsertedEntry(s.jobs[run.job], KeyFor(a), value).steps[KeyFor(a)]))
       else Broke(run, Wrapped("save step", Plain("foreign key"))))
    case Loaded(value) => (None, UseCheckpoint(s, run, a, value))
    case _ => (None, run)
  }

  /** One small step of a run: the write it makes, if any, and where it gets to. */
  ghost function StepRun(reg: Registry, s: State, run: Run, c: Choice): (Option<Op>, Run) {
    var a := NextAction(reg, run);
    if run.phase.Gone? then (None, run)
    else if run.phase.Ended? then
      if c.Break? then (None, run.(phase := Gone))
      else (Some(TerminalWrite(run, run.phase.outcome)), run.(phase := Gone))
    else if c.Break? then (None, Broke(run, c.fault))
    else if run.phase.Ready? then (None, StartAction(s, run, a))
    else if Checkpointed(a) then StepCheckpointed(s, run, a, c)
    else (None, run)
  }

  // -------------------------------------------------------------- the system

  /** The store, every run ever started, and two histories that no step reads:
      `seen` keeps the last entry of every job, also after it is pruned, and
      `parked` the signal a parked job was parked for. */
  datatype Sys = Sys(store: State, runs: seq<Run>, seen: map<JobId, Entry>, parked: map<JobId, (string, nat)>)

  datatype Label =
    | Env(op: Op)
    | Start(claim: Op, jobs: seq<JobId>)        // a claim, and the runs it starts
    | Move(r: nat, c: Choice)
    | Crash(r: nat)

  /** Checkpoints and terminal writes come from runs only. */
  predicate IsEnv(op: Op) {
    !op.Claim? && !op.InsertStep? && !op.SaveStep? && !op.Suspend? && !op.Complete? && !op.Fail?
  }

  function NewRun(s: State, job: JobId, worker: WorkerId): Run
    requires job in s.jobs
  {
    var row := s.jobs[job].row;
    Run(job, worker, row.queue, row.kind, row.payload, row.wakeVersion, [], Ready)
  }

  function NewRuns(s: State, jobs: seq<JobId>, worker: WorkerId): seq<Run>
    requires forall i | 0 <= i < |jobs| :: jobs[i] in s.jobs
  {
    seq(|jobs|, i requires 0 <= i < |jobs| => NewRun(s, jobs[i], worker))
  }

  function Remember(y: Sys, store: State): Sys {
    y.(store := store, seen := y.seen + store.jobs)
  }

  /** The write a run makes in this step, if it makes one. */
  ghost function WriteOf(reg: Registry, y: Sys, r: nat, c: Choice): Option<Op>
    requires r < |y.runs|
  {
    StepRun(reg, y.store, y.runs[r], c).0
  }

  function ParkedAfter(y: Sys, run: Run, write: Option<Op>): map<JobId, (string, nat)> {
    if write.Some? && write.value.Suspend? && Parks(y.store, run.job, run.worker, run.wake) && run.phase.Ended? then
      if run.phase.nap.Some? then y.parked[run.job := run.phase.nap.value] else y.parked - {run.job}
    else y.parked
  }

  ghost predicate LegalLabel(reg: Registry, y: Sys, l: Label) {
    match l
    case Env(op) => IsEnv(op) && Legal(y.store, op)
    case Start(claim, jobs) =>
      claim.Claim? && Legal(y.store, claim) && claim.picked == (set i | 0 <= i < |jobs| :: jobs[i])
      && claim.picked <= y.store.jobs.Keys
    case Move(r, c) =>
      && r < |y.runs| && (c.Break? ==> FindSuspension(c.fault).None?)  // no database error is a suspension
      && (var write := WriteOf(reg, y, r, c); write.Some? ==> Legal(y.store, write.value))
    case Crash(r) => r < |y.runs|
  }

  ghost function Next(reg: Registry, y: Sys, l: Label): Sys
    requires LegalLabel(reg, y, l)
  {
    match l
    case Env(op) => Remember(y, Apply(y.store, op))
    case Start(claim, jobs) =>
      var store := Apply(y.store, claim);
      assert forall i | 0 <= i < |jobs| :: jobs[i] in claim.picked;
      Remember(y, store).(runs := y.runs + NewRuns(store, jobs, claim.worker))
    case Move(r, c) =>
      var (write, run) := StepRun(reg, y.store, y.runs[r], c);
      var store := if write.Some? then Apply(y.store, write.value) else y.store;
      Remember(y, store).(runs := y.runs[r := run], parked := ParkedAfter(y, y.runs[r], write))
    case Crash(r) => y.(runs := y.runs[r := y.runs[r].(phase := Gone)])
  }

  /** Every label of the sequence is legal where it is taken. */
  ghost predicate LegalTrace(reg: Registry, y: Sys, ls: seq<Label>)
    decreases |ls|
  {
    ls != [] ==> LegalLabel(reg, y, ls[0]) && LegalTrace(reg, Next(reg, y, ls[0]), ls[1..])
  }

  ghost function Trace(reg: Registry, y: Sys, ls: seq<Label>): Sys
    requires LegalTrace(reg, y, ls)
    decreases |ls|
  {
    if ls == [] then y else Trace(reg, Next(reg, y, ls[0]), ls[1..])
  }

  const EMPTY_SYS := Sys(EMPTY_STORE, [], map[], map[])
}
