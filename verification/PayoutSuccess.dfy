/** A payout can be paid out: an execution of its job that nothing disturbs. */
module PayoutSuccess {
  import opened Values
  import opened Jobs
  import opened StoreModel
  import opened Runtime
  import opened RuntimeInvariant
  import opened Guarantees
  import opened PayoutJobs
  import U = Uninterrupted
  import P = Payouts
  import L = Ledger
  import B = Bank


  ghost predicate CanReach(reg: Registry, work: Work, x: Joint, x': Joint) {
    exists xs, ls :: Execution(reg, work, xs, ls) && xs[0] == x && xs[|ls|] == x'
  }

  lemma CanStay(reg: Registry, work: Work, x: Joint)
    ensures CanReach(reg, work, x, x)
  {
    var ls: seq<JointLabel> := [];
    assert Execution(reg, work, [x], ls) && [x][0] == x && [x][|ls|] == x;
  }

  lemma CanReachNext(reg: Registry, work: Work, x0: Joint, x: Joint, l: JointLabel, x': Joint)
    requires CanReach(reg, work, x0, x) && JointNext(reg, work, x, l, x')
    ensures CanReach(reg, work, x0, x')
  {
    var xs, ls :| Execution(reg, work, xs, ls) && xs[0] == x0 && xs[|ls|] == x;
    var ys, ms := xs + [x'], ls + [l];
    forall i | 0 <= i < |ms|
      ensures JointNext(reg, work, ys[i], ms[i], ys[i + 1])
    {
      if i < |ls| { assert ys[i] == xs[i] && ys[i + 1] == xs[i + 1] && ms[i] == ls[i]; }
    }
    assert Execution(reg, work, ys, ms) && ys[0] == x0 && ys[|ms|] == x';
  }

  /** The only run there is belongs to the payout's job `j`, holds the lease, and has come
      to step `n`, with nothing checkpointed from there on. */
  ghost predicate Underway(work: Work, x: Joint, j: JobId, n: nat) {
    && |x.places| == |x.y.runs| == 1 && n <= |STEP_NAMES|
    && SeenOk(x.y.store, x.y.seen)
    && var run, s := x.y.runs[0], x.y.store;
       && run.job == j && Mine(work, run) && |run.obs| == n
       && OwnsJob(s, j, run.worker) && IsMine(work, s.jobs[j].row)
       && forall i | n <= i < |STEP_NAMES| :: StepKey(i) !in s.jobs[j].steps
  }

  ghost predicate AtStep(work: Work, x: Joint, j: JobId, n: nat, phase: Phase, place: P.Place) {
    Underway(work, x, j, n) && x.y.runs[0].phase == phase && x.places[0] == place
  }

  /** The application's tables. */
  predicate SameTables(x: Joint, x': Joint) {
    x'.books == x.books && x'.rail == x.rail && x'.settled == x.settled && x'.settlements == x.settlements
    && x'.desk == x.desk && x'.now == x.now
  }

  /** The run moves, without writing to the job store. */
  lemma MovesOn(reg: Registry, work: Work, x0: Joint, x: Joint, j: JobId, n: nat, c: Choice, phase: Phase, place: P.Place)
    returns (x': Joint)
    requires CanReach(reg, work, x0, x) && Underway(work, x, j, n) && !c.Break?
    requires StepRun(reg, x.y.store, x.y.runs[0], c) == (None, x.y.runs[0].(phase := phase))
    requires Answers(x.y.runs[0], x.places[0], c)
    requires place == PlaceAfter(x.y.runs[0], c, x.y.runs[0].(phase := phase), x.places[0])
    ensures CanReach(reg, work, x0, x') && AtStep(work, x', j, n, phase, place) && SameTables(x, x')
    ensures x'.y.store == x.y.store && x'.y.runs[0].worker == x.y.runs[0].worker && x'.y.runs[0].obs == x.y.runs[0].obs
  {
    MoveIsNext(reg, work, x0, x, c);
    x' := AfterMove(reg, work, x, c);
  }

  /** A statement of the step's body. */
  lemma Says(reg: Registry, work: Work, x0: Joint, x: Joint, j: JobId, n: nat, ref: string, w': P.World) returns (x': Joint)
    requires CanReach(reg, work, x0, x) && Underway(work, x, j, n) && InHand(x.y.runs[0], x.places[0])
    requires P.CanStep(WorldOf(work, x), 0) && w' == P.StepRun(work.p, WorldOf(work, x), 0, ref)
    requires w'.saved == SavedOf(work, x.y) && |w'.runs| == 1 && w'.runs[0].job == j
    ensures CanReach(reg, work, x0, x') && AtStep(work, x', j, n, x.y.runs[0].phase, w'.runs[0].place) && x'.y == x.y
    ensures WorldOf(work, x') == w'
  {
    x' := Joint(x.y, [w'.runs[0].place], w'.books, w'.rail, w'.settled, w'.settlements, w'.desk, w'.now);
    assert RunsOf(x') == w'.runs;
    CanReachNext(reg, work, x0, x, Statement(0, ref), x');
  }

  lemma Misses(reg: Registry, work: Work, x0: Joint, x: Joint, j: JobId, n: nat) returns (x': Joint)
    requires Registered(reg, work) && CanReach(reg, work, x0, x) && n < |STEP_NAMES|
    requires AtStep(work, x, j, n, Ready, P.At(n))
    ensures CanReach(reg, work, x0, x') && AtStep(work, x', j, n, Missed, P.Missed(n)) && SameTables(x, x')
  {
    FindsCheckpoint(reg, work, x.y.store, x.y.runs[0], Go);
    x' := MovesOn(reg, work, x0, x, j, n, Go, Missed, P.Missed(n));
  }

  /** From the body's return to the next step. */
  lemma Checkpoints(reg: Registry, work: Work, x0: Joint, x: Joint, j: JobId, n: nat) returns (x': Joint)
    requires Registered(reg, work) && CanReach(reg, work, x0, x) && n < |STEP_NAMES|
    requires AtStep(work, x, j, n, Missed, P.Made(n))
    ensures CanReach(reg, work, x0, x') && AtStep(work, x', j, n + 1, Ready, P.At(n + 1)) && SameTables(x, x')
  {
    BodyEnds(reg, work, x.y.store, x.y.runs[0], Body(Ok(None)));
    x' := MovesOn(reg, work, x0, x, j, n, Body(Ok(None)), Produced(EmptyObject), P.Made(n));
    HoldsLease(reg, work, x'.y.store, x'.y.runs[0]);
    x' := MovesOn(reg, work, x0, x', j, n, Go, Owned(EmptyObject), P.Made(n));
    x' := Writes(reg, work, x0, x', j, n);
  }

  lemma HoldsLease(reg: Registry, work: Work, s: State, run: Run)
    requires Registered(reg, work) && Mine(work, run) && run.phase.Produced? && |run.obs| < |STEP_NAMES|
    requires OwnsJob(s, run.job, run.worker)
    ensures StepRun(reg, s, run, Go) == (None, run.(phase := Owned(run.phase.value)))
  {
    NextOfMine(reg, work, run);
  }

  lemma WritesNew(reg: Registry, work: Work, s: State, run: Run)
    requires Registered(reg, work) && Mine(work, run) && run.phase.Owned? && |run.obs| < |STEP_NAMES|
    requires run.job in s.jobs && StepKey(|run.obs|) !in s.jobs[run.job].steps
    ensures StepRun(reg, s, run, Go)
            == (Some(InsertStep(run.job, StepKey(|run.obs|), run.phase.value)), run.(phase := Loaded(run.phase.value)))
  {
    NextOfMine(reg, work, run);
  }

  lemma Writes(reg: Registry, work: Work, x0: Joint, x: Joint, j: JobId, n: nat) returns (x': Joint)
    requires Registered(reg, work) && CanReach(reg, work, x0, x) && n < |STEP_NAMES|
    requires AtStep(work, x, j, n, Owned(EmptyObject), P.Made(n))
    ensures CanReach(reg, work, x0, x') && AtStep(work, x', j, n + 1, Ready, P.At(n + 1)) && SameTables(x, x')
  {
    var mid := WritesOne(reg, work, x0, x, j, n);
    x' := Passes(reg, work, x0, mid, j, n);
  }

  /** Loaded, and the rows are those after the insert. */
  ghost predicate Loads(work: Work, x: Joint, j: JobId, n: nat) {
    && |x.places| == |x.y.runs| == 1 && n < |STEP_NAMES|
    && SeenOk(x.y.store, x.y.seen)
    && var run, s := x.y.runs[0], x.y.store;
       && run.job == j && Mine(work, run) && |run.obs| == n && run.phase == Loaded(EmptyObject)
       && x.places[0] == P.At(n + 1)
       && OwnsJob(s, j, run.worker) && IsMine(work, s.jobs[j].row)
       && forall i | n + 1 <= i < |STEP_NAMES| :: StepKey(i) !in s.jobs[j].steps
  }

  /** A move of the run, with its code's place. */
  ghost function AfterMove(reg: Registry, work: Work, x: Joint, c: Choice): Joint
    requires |x.places| == |x.y.runs| == 1 && LegalLabel(reg, x.y, Move(0, c))
  {
    x.(y := Next(reg, x.y, Move(0, c)), places := PlacesAfter(reg, work, x, Move(0, c)))
  }

  lemma MoveIsNext(reg: Registry, work: Work, x0: Joint, x: Joint, c: Choice)
    requires CanReach(reg, work, x0, x) && |x.places| == |x.y.runs| == 1
    requires LegalLabel(reg, x.y, Move(0, c)) && Answers(x.y.runs[0], x.places[0], c)
    ensures CanReach(reg, work, x0, AfterMove(reg, work, x, c))
  {
    CanReachNext(reg, work, x0, x, System(Move(0, c)), AfterMove(reg, work, x, c));
  }

  lemma InsertNext(reg: Registry, work: Work, y: Sys, n: nat)
    requires Registered(reg, work) && |y.runs| == 1 && Mine(work, y.runs[0]) && |y.runs[0].obs| == n < |STEP_NAMES|
    requires y.runs[0].phase.Owned? && y.runs[0].job in y.store.jobs && StepKey(n) !in y.store.jobs[y.runs[0].job].steps
    ensures LegalLabel(reg, y, Move(0, Go))
    ensures var run, y' := y.runs[0], Next(reg, y, Move(0, Go));
            && y'.store == Apply(y.store, InsertStep(run.job, StepKey(n), run.phase.value))
            && y'.seen == y.seen + y'.store.jobs && y'.runs == [run.(phase := Loaded(run.phase.value))]
  {
    WritesNew(reg, work, y.store, y.runs[0]);
    StoreOfNext(reg, y, Move(0, Go));
  }

  lemma InsertPlace(reg: Registry, work: Work, x: Joint, n: nat)
    requires |x.places| == |x.y.runs| == 1 && LegalLabel(reg, x.y, Move(0, Go))
    requires Mine(work, x.y.runs[0]) && |x.y.runs[0].obs| == n && x.y.runs[0].phase.Owned?
    requires Next(reg, x.y, Move(0, Go)).runs[0].phase.Loaded?
    ensures PlacesAfter(reg, work, x, Move(0, Go)) == [P.At(n + 1)]
  {
  }

  lemma WritesOne(reg: Registry, work: Work, x0: Joint, x: Joint, j: JobId, n: nat) returns (x': Joint)
    requires Registered(reg, work) && CanReach(reg, work, x0, x) && n < |STEP_NAMES|
    requires AtStep(work, x, j, n, Owned(EmptyObject), P.Made(n))
    ensures CanReach(reg, work, x0, x') && Loads(work, x', j, n) && SameTables(x, x')
  {
    InsertNext(reg, work, x.y, n);
    InsertPlace(reg, work, x, n);
    MoveIsNext(reg, work, x0, x, Go);
    x' := AfterMove(reg, work, x, Go);
    LoadsAfter(work, x, j, n, x');
  }

  lemma LoadsAfter(work: Work, x: Joint, j: JobId, n: nat, x': Joint)
    requires n < |STEP_NAMES| && AtStep(work, x, j, n, Owned(EmptyObject), P.Made(n))
    requires x'.y.store == Apply(x.y.store, InsertStep(j, StepKey(n), EmptyObject)) && x'.y.seen == x.y.seen + x'.y.store.jobs
    requires x'.y.runs == [x.y.runs[0].(phase := Loaded(EmptyObject))] && x'.places == [P.At(n + 1)]
    ensures Loads(work, x', j, n)
  {
    InsertedRow(x.y.store, j, n, EmptyObject);
    RemembersAll(x.y, x'.y);
  }

  lemma RemembersAll(y: Sys, y': Sys)
    requires SeenOk(y.store, y.seen) && y'.seen == y.seen + y'.store.jobs
    requires y'.store.issued == y.store.issued && y'.store.jobs.Keys == y.store.jobs.Keys
    ensures SeenOk(y'.store, y'.seen)
  {
  }

  lemma InsertedRow(s: State, j: JobId, n: nat, value: Json)
    requires j in s.jobs && n < |STEP_NAMES| && StepKey(n) !in s.jobs[j].steps
    ensures var s' := Apply(s, InsertStep(j, StepKey(n), value));
            && s'.jobs.Keys == s.jobs.Keys && s'.issued == s.issued
            && s'.jobs[j].row == s.jobs[j].row
            && forall i | n < i < |STEP_NAMES| && StepKey(i) !in s.jobs[j].steps :: StepKey(i) !in s'.jobs[j].steps
  {
    InsertedJobs(s, j, StepKey(n), value);
    forall i | n < i < |STEP_NAMES| && StepKey(i) == StepKey(n)
      ensures false
    {
      StepKeys(i, n);
    }
  }

  lemma Passes(reg: Registry, work: Work, x0: Joint, x: Joint, j: JobId, n: nat) returns (x': Joint)
    requires Registered(reg, work) && CanReach(reg, work, x0, x) && Loads(work, x, j, n)
    ensures CanReach(reg, work, x0, x') && AtStep(work, x', j, n + 1, Ready, P.At(n + 1)) && SameTables(x, x')
  {
    UsesCheckpoint(reg, work, x.y.store, x.y.runs[0], Go);
    assert x.y.seen + x.y.store.jobs == x.y.seen;
    MoveIsNext(reg, work, x0, x, Go);
    x' := AfterMove(reg, work, x, Go);
  }

  // ------------------------------------------------------------- the steps

  /** What the tables must be like for the payout to go through. */
  predicate Payable(work: Work, books: L.Books, rail: B.Rail) {
    var key := P.TransferKey(work.p.id);
    && !L.HasLine(books.lines, work.p.id, L.Hold) && L.Funded(books, work.p.account, work.p.amount)
    && B.Lookup(rail.transfers, key).None? && work.p.routing != B.REJECT_ROUTING_NUMBER
    && !B.IsFlaky(work.p.amount, B.AttemptsAfter(rail, key))
  }

  lemma Holds(reg: Registry, work: Work, x0: Joint, x: Joint, j: JobId) returns (x': Joint)
    requires CanReach(reg, work, x0, x) && AtStep(work, x, j, 0, Missed, P.Missed(0))
    requires !L.HasLine(x.books.lines, work.p.id, L.Hold) && L.Funded(x.books, work.p.account, work.p.amount)
    ensures CanReach(reg, work, x0, x') && AtStep(work, x', j, 0, Missed, P.Made(0)) && x'.rail == x.rail
    ensures L.HasLine(x'.books.lines, work.p.id, L.Hold)
  {
    x' := Says(reg, work, x0, x, j, 0, "", P.Moved(WorldOf(work, x), 0, P.NoHoldSeen));
    x' := Says(reg, work, x0, x', j, 0, "", P.StepReserve(work.p, WorldOf(work, x'), 0));
    var books := L.Reserved(x.books, work.p.id, work.p.account, work.p.amount);
    assert books.lines[|x.books.lines|] == L.Line(work.p.account, work.p.id, L.Hold, work.p.amount);
  }

  lemma Reserves(reg: Registry, work: Work, x0: Joint, x: Joint, j: JobId) returns (x': Joint)
    requires Registered(reg, work) && CanReach(reg, work, x0, x) && AtStep(work, x, j, 0, Ready, P.At(0))
    requires !L.HasLine(x.books.lines, work.p.id, L.Hold) && L.Funded(x.books, work.p.account, work.p.amount)
    ensures CanReach(reg, work, x0, x') && AtStep(work, x', j, 1, Ready, P.At(1)) && x'.rail == x.rail
    ensures L.HasLine(x'.books.lines, work.p.id, L.Hold)
  {
    x' := Misses(reg, work, x0, x, j, 0);
    x' := Holds(reg, work, x0, x', j);
    x' := Checkpoints(reg, work, x0, x', j, 0);
  }

  lemma Submits(reg: Registry, work: Work, x0: Joint, x: Joint, j: JobId, ref: string) returns (x': Joint)
    requires Registered(reg, work) && CanReach(reg, work, x0, x) && AtStep(work, x, j, 1, Ready, P.At(1))
    requires B.Lookup(x.rail.transfers, P.TransferKey(work.p.id)).None? && work.p.routing != B.REJECT_ROUTING_NUMBER
    requires !B.IsFlaky(work.p.amount, B.AttemptsAfter(x.rail, P.TransferKey(work.p.id)))
    ensures CanReach(reg, work, x0, x') && AtStep(work, x', j, 2, Ready, P.At(2))
  {
    var key := P.TransferKey(work.p.id);
    x' := Misses(reg, work, x0, x, j, 1);
    x' := Says(reg, work, x0, x', j, 1, "", P.Moved(WorldOf(work, x'), 0, P.NotSent));
    x' := Says(reg, work, x0, x', j, 1, "", P.StepCount(work.p, WorldOf(work, x'), 0));
    x' := Sends(reg, work, x0, x', j, ref);
    x' := Checkpoints(reg, work, x0, x', j, 1);
  }

  lemma Sends(reg: Registry, work: Work, x0: Joint, x: Joint, j: JobId, ref: string) returns (x': Joint)
    requires CanReach(reg, work, x0, x) && Underway(work, x, j, 1) && x.y.runs[0].phase == Missed && x.places[0].Counted?
    requires B.Lookup(x.rail.transfers, P.TransferKey(work.p.id)).None?
    ensures CanReach(reg, work, x0, x') && AtStep(work, x', j, 1, Missed, P.Made(1))
  {
    var key := P.TransferKey(work.p.id);
    var transfer := B.NewTransfer(key, ref, work.p.amount, x.places[0].attempts, x.now);
    x' := Says(reg, work, x0, x, j, 1, ref, P.StepRun(work.p, WorldOf(work, x), 0, ref));
    B.AppendedLookup(x.rail.transfers, transfer, key);
    x' := Says(reg, work, x0, x', j, 1, "", P.StepLookup(work.p, WorldOf(work, x'), 0, P.Over));
  }

  lemma Schedules(reg: Registry, work: Work, x0: Joint, x: Joint, j: JobId) returns (x': Joint)
    requires Registered(reg, work) && CanReach(reg, work, x0, x) && AtStep(work, x, j, 2, Ready, P.At(2))
    ensures CanReach(reg, work, x0, x') && AtStep(work, x', j, 3, Ready, P.At(3))
  {
    x' := Misses(reg, work, x0, x, j, 2);
    x' := Says(reg, work, x0, x', j, 2, "", P.StepSchedule(WorldOf(work, x'), 0));
    x' := Checkpoints(reg, work, x0, x', j, 2);
  }

  lemma Marks(reg: Registry, work: Work, x0: Joint, x: Joint, j: JobId) returns (x': Joint)
    requires Registered(reg, work) && CanReach(reg, work, x0, x) && AtStep(work, x, j, 3, Ready, P.At(3))
    ensures CanReach(reg, work, x0, x') && AtStep(work, x', j, 4, Ready, P.At(4))
  {
    x' := Misses(reg, work, x0, x, j, 3);
    x' := Says(reg, work, x0, x', j, 3, "", P.StepBody(work.p, WorldOf(work, x'), 0, 3));
    x' := Checkpoints(reg, work, x0, x', j, 3);
  }

  lemma Returns(reg: Registry, work: Work, x0: Joint, x: Joint, j: JobId) returns (x': Joint, result: Option<Json>)
    requires Registered(reg, work) && CanReach(reg, work, x0, x) && AtStep(work, x, j, 4, Ready, P.At(4))
    ensures CanReach(reg, work, x0, x') && AtStep(work, x', j, 4, Ended(Returned(result), None), P.Over)
  {
    result := NextAction(reg, x.y.runs[0]).result;
    NextOfMine(reg, work, x.y.runs[0]);
    x' := MovesOn(reg, work, x0, x, j, 4, Go, Ended(Returned(result), None), P.Over);
  }

  lemma CompleteNext(reg: Registry, y: Sys, result: Option<Json>)
    requires |y.runs| == 1 && y.runs[0].phase == Ended(Returned(result), None)
    ensures LegalLabel(reg, y, Move(0, Go))
    ensures Next(reg, y, Move(0, Go)).store == Apply(y.store, Complete(y.runs[0].job, y.runs[0].worker, result))
  {
    StoreOfNext(reg, y, Move(0, Go));
  }

  lemma Succeeds(reg: Registry, work: Work, x0: Joint, x: Joint, j: JobId) returns (x': Joint)
    requires Registered(reg, work) && CanReach(reg, work, x0, x) && AtStep(work, x, j, 4, Ready, P.At(4))
    ensures CanReach(reg, work, x0, x')
    ensures j in x'.y.store.jobs && x'.y.store.jobs[j].row.status == Succeeded && IsMine(work, x'.y.store.jobs[j].row)
  {
    var mid, result := Returns(reg, work, x0, x, j);
    CompleteNext(reg, mid.y, result);
    SucceededRow(mid.y.store, j, mid.y.runs[0].worker, result);
    MoveIsNext(reg, work, x0, mid, Go);
    x' := AfterMove(reg, work, mid, Go);
  }

  lemma SucceededRow(s: State, j: JobId, worker: WorkerId, result: Option<Json>)
    requires OwnsJob(s, j, worker)
    ensures var s' := Apply(s, Complete(j, worker, result));
            && j in s'.jobs && s'.jobs[j].row.status == Succeeded
            && s'.jobs[j].row.kind == s.jobs[j].row.kind && s'.jobs[j].row.payload == s.jobs[j].row.payload
  {
  }

  // ------------------------------------------------------------ the beginning

  lemma Enqueues(reg: Registry, work: Work, x: Joint, j: JobId) returns (x': Joint)
    requires AtFirst(work, x) && IsUuid(j)
    ensures CanReach(reg, work, x, x') && SameTables(x, x') && x'.places == [] && Fresh(work, x'.y, j)
  {
    var l := Env(Enqueue(EnqueueRequest("payouts", work.kind, Some(work.payload), "", 1, Some(0), None), j));
    CanStay(reg, work, x);
    x' := x.(y := Next(reg, x.y, l));
    CanReachNext(reg, work, x, x, System(l), x');
  }

  lemma CanClaim(s: State, j: JobId, claim: Op)
    requires s.jobs.Keys == {j} && s.now == 0 && s.jobs[j].row.queue == "payouts" && s.jobs[j].row.status == Queued
    requires s.jobs[j].row.runAfter == 0 && claim == Claim("worker", "payouts", SECOND, 1, {}, {j})
    ensures U.ClaimsOnly(s, claim, j)
  {
    assert Available(s, "payouts", {}) == {j};
  }

  lemma LeasedRow(s: State, j: JobId, claim: Op)
    requires s.jobs.Keys == {j} == s.issued && claim == Claim("worker", "payouts", SECOND, 1, {}, {j})
    ensures var s' := Apply(s, claim);
            && s'.jobs.Keys == {j} == s'.issued && OwnsJob(s', j, "worker") && s'.jobs[j].steps == s.jobs[j].steps
            && s'.jobs[j].row.kind == s.jobs[j].row.kind && s'.jobs[j].row.payload == s.jobs[j].row.payload
  {
  }

  /** The job is enqueued, and nothing has run. */
  predicate Fresh(work: Work, y: Sys, j: JobId) {
    var s := y.store;
    && s.jobs.Keys == {j} == s.issued && s.now == 0 && y.seen == s.jobs && y.runs == []
    && s.jobs[j].row == NewRow("payouts", work.kind, work.payload, None, 1, 0, None, 0) && s.jobs[j].steps == map[]
  }

  lemma ClaimNext(reg: Registry, work: Work, y: Sys, j: JobId, claim: Op)
    requires Fresh(work, y, j) && claim == Claim("worker", "payouts", SECOND, 1, {}, {j})
    ensures LegalLabel(reg, y, Start(claim, [j]))
    ensures var y' := Next(reg, y, Start(claim, [j]));
            && SeenOk(y'.store, y'.seen) && OwnsJob(y'.store, j, "worker") && y'.store.jobs[j].steps == map[]
            && IsMine(work, y'.store.jobs[j].row)
            && y'.runs == [NewRun(y'.store, j, "worker")]
  {
    CanClaim(y.store, j, claim);
    U.StartLabel(reg, y, j, claim);
    LeasedRow(y.store, j, claim);
  }

  lemma Claims(reg: Registry, work: Work, x0: Joint, x: Joint, j: JobId) returns (x': Joint)
    requires CanReach(reg, work, x0, x) && x.places == [] && Fresh(work, x.y, j)
    ensures CanReach(reg, work, x0, x') && AtStep(work, x', j, 0, Ready, P.At(0)) && SameTables(x, x')
  {
    var l := Start(Claim("worker", "payouts", SECOND, 1, {}, {j}), [j]);
    ClaimNext(reg, work, x.y, j, l.claim);
    x' := x.(y := Next(reg, x.y, l), places := PlacesAfter(reg, work, x, l));
    CanReachNext(reg, work, x0, x, System(l), x');
  }

  /** If there is money for it, the routing number is good and the rail is up, the payout's
      job can be enqueued, claimed and completed. By what was proved of completed jobs, the
      money is then held and the transfer made. */
  lemma CanBePaidOut(reg: Registry, work: Work, x: Joint, j: JobId) returns (x': Joint)
    requires Registered(reg, work) && AtFirst(work, x) && IsUuid(j) && Payable(work, x.books, x.rail)
    ensures CanReach(reg, work, x, x') && j in x'.y.store.jobs && x'.y.store.jobs[j].row.status == Succeeded
    ensures var transfer := B.Lookup(x'.rail.transfers, P.TransferKey(work.p.id));
            L.HasLine(x'.books.lines, work.p.id, L.Hold) && transfer.Some? && transfer.value.amount == work.p.amount
  {
    x' := Enqueues(reg, work, x, j);
    x' := Claims(reg, work, x, x', j);
    x' := Reserves(reg, work, x, x', j);
    x' := Submits(reg, work, x, x', j, "ach");
    x' := Schedules(reg, work, x, x', j);
    x' := Marks(reg, work, x, x', j);
    x' := Succeeds(reg, work, x, x', j);
    var xs, ls :| Execution(reg, work, xs, ls) && xs[0] == x && xs[|ls|] == x';
    SucceededIsSent(reg, work, xs, ls, j);
  }
}
