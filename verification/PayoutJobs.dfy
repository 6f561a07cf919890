/** The payout workflow as it runs: a workflow of the replay runtime whose step bodies
    are statements on the ledger and the rail. The leases, claims, zombies and crashes are
    those of the runtime, and the checkpoints are the rows of the job store. Every such
    execution is a trace of `Payouts`, so what is proved there holds of the jobs. */
module PayoutJobs {
  import opened Values
  import opened Faults
  import opened Jobs
  import opened StoreModel
  import opened StoreInvariant
  import opened Keys
  import opened Runtime
  import opened RuntimeInvariant
  import opened RuntimeSystem
  import opened Guarantees
  import C = ChildQueues
  import P = Payouts
  import L = Ledger
  import B = Bank

  // ------------------------------------------------------------ the workflow

  const STEP_NAMES: seq<string> := ["reserve-funds", "submit-ach", "schedule-settlement", "mark-submitted"]

  /** The payout, the jobs that carry it, by type and payload, and the result document
      made from hold and transfer. */
  datatype Work = Work(kind: string, payload: Json, p: P.Payout, report: (Json, Json) -> Json)

  function WorkflowOf(work: Work, hist: seq<Json>): Action {
    if |hist| < |STEP_NAMES| then DoStep([], STEP_NAMES[|hist|]) else Return(Some(work.report(hist[0], hist[1])))
  }

  ghost predicate Registered(reg: Registry, work: Work) {
    forall hist :: reg(work.kind, work.payload, hist) == WorkflowOf(work, hist)
  }

  function StepKey(step: nat): string
    requires step < |STEP_NAMES|
  {
    StoredKey([], StepCall(STEP_NAMES[step]))
  }

  lemma StepKeys(a: nat, b: nat)
    requires a < |STEP_NAMES| && b < |STEP_NAMES| && StepKey(a) == StepKey(b)
    ensures a == b
  {
    assert StepKey(a) == STEP_NAMES[a] && StepKey(b) == STEP_NAMES[b];
    assert STEP_NAMES[0][0] == 'r' && STEP_NAMES[1][1] == 'u' && STEP_NAMES[2][1] == 'c' && STEP_NAMES[3][0] == 'm';
  }

  // ----------------------------------------------------------- both together

  /** The runtime, and the tables of the application; `places` says of every run where
      its workflow's code is. */
  datatype Joint = Joint(
    y: Sys, places: seq<P.Place>, books: L.Books, rail: B.Rail, settled: seq<set<P.Checkpoint>>,
    settlements: seq<P.Settlement>, desk: P.Desk, now: Time)

  datatype JointLabel =
    | System(m: Label)                  // a step of the runtime
    | Statement(r: nat, ref: string)    // a statement of a step body, or of the compensation
    | Cut(r: nat)                       // a statement of the compensation fails
    | Outside(o: P.Label)               // other payouts, and the settlement

  predicate IsMine(work: Work, row: Row) {
    row.kind == work.kind && row.payload == work.payload
  }

  predicate Mine(work: Work, run: Run) {
    run.kind == work.kind && run.payload == work.payload
  }

  /** The steps of a payout's job that have a checkpoint. */
  function JobSaved(work: Work, jobs: map<JobId, Entry>, j: JobId): set<nat> {
    if j in jobs && IsMine(work, jobs[j].row)
    then set n | 0 <= n < |STEP_NAMES| && StepKey(n) in jobs[j].steps
    else {}
  }

  function SavedOf(work: Work, y: Sys): map<JobId, set<nat>> {
    map j | j in y.seen :: JobSaved(work, y.store.jobs, j)
  }

  function RunsOf(x: Joint): seq<P.Run>
    requires |x.places| == |x.y.runs|
  {
    seq(|x.places|, r requires 0 <= r < |x.places| => P.Run(x.y.runs[r].job, x.places[r]))
  }

  /** The payout's world, read off the job store, the runs and the tables. */
  function WorldOf(work: Work, x: Joint): P.World
    requires |x.places| == |x.y.runs|
  {
    P.World(x.books, x.rail, SavedOf(work, x.y), RunsOf(x), x.settled, x.settlements, x.desk, x.now)
  }

  /** How a step body ends follows from what its statements came to. No error of the
      database is a permanent one. The terminal write waits for the workflow's code. */
  predicate Answers(run: Run, place: P.Place, c: Choice) {
    && (c.Break? ==> !IsPermanent(c.fault))
    && (run.phase.Missed? && c.Body? ==>
          if c.outcome.Ok? then place.Made?
          else if IsPermanent(c.outcome.error) then place.Abandoning?
          else place.Over?)
    && (run.phase.Ended? ==> place.Over?)
  }

  /** The place after a step of the runtime: a look for a checkpoint, a checkpoint that is
      written, an error, or none of these. */
  function PlaceAfter(run: Run, c: Choice, run': Run, place: P.Place): P.Place {
    if run'.phase.Gone? || (run'.phase.Ended? && !(run.phase.Missed? && c.Body?)) then P.Over
    else if run.phase.Ready? then
      if run'.phase.Missed? then P.Missed(|run.obs|) else P.At(|run.obs| + 1)
    else if run.phase.Owned? then P.At(|run.obs| + 1)
    else place
  }

  /** A claim's run of the payout is at the first step; the others do not matter here. */
  function FirstPlaces(work: Work, runs: seq<Run>): seq<P.Place> {
    seq(|runs|, i requires 0 <= i < |runs| => if Mine(work, runs[i]) then P.At(0) else P.Over)
  }

  ghost function PlacesAfter(reg: Registry, work: Work, x: Joint, l: Label): seq<P.Place>
    requires LegalLabel(reg, x.y, l) && |x.places| == |x.y.runs|
  {
    match l
    case Env(_) => x.places
    case Start(_, _) => x.places + FirstPlaces(work, Next(reg, x.y, l).runs[|x.y.runs|..])
    case Move(r, c) =>
      if !Mine(work, x.y.runs[r]) then x.places
      else x.places[r := PlaceAfter(x.y.runs[r], c, Next(reg, x.y, l).runs[r], x.places[r])]
    case Crash(r) => x.places[r := P.Over]
  }

  /** The code is inside a step body, or in the compensation after a permanent error. */
  predicate InHand(run: Run, place: P.Place) {
    if place.Abandoning? || place.Failing? || place.Reporting? then run.phase.Ended?
    else run.phase.Missed? && !place.Made? && !place.Over?
  }

  predicate IsOutside(o: P.Label) {
    o.Tick? || o.OtherLedger? || o.OtherBank? || o.NewSettlement? || o.BeginSettlement? || o.StepSettlement?
    || o.CrashSettlement?
  }

  ghost predicate JointNext(reg: Registry, work: Work, x: Joint, l: JointLabel, x': Joint) {
    && |x.places| == |x.y.runs| && |x'.places| == |x'.y.runs|
    && match l
       case System(m) =>
         && LegalLabel(reg, x.y, m)
         && (m.Move? && Mine(work, x.y.runs[m.r]) ==> Answers(x.y.runs[m.r], x.places[m.r], m.c))
         && x' == x.(y := Next(reg, x.y, m), places := PlacesAfter(reg, work, x, m))
       case Statement(r, ref) =>
         && r < |x.places| && Mine(work, x.y.runs[r]) && InHand(x.y.runs[r], x.places[r])
         && x'.y == x.y
         && P.CanStep(WorldOf(work, x), r) && WorldOf(work, x') == P.StepRun(work.p, WorldOf(work, x), r, ref)
       case Cut(r) =>
         && r < |x.places| && Mine(work, x.y.runs[r]) && x.y.runs[r].phase.Ended?
         && x' == x.(places := x.places[r := P.Over])
       case Outside(o) =>
         && IsOutside(o) && P.Possible(work.p, WorldOf(work, x), o)
         && x'.y == x.y && WorldOf(work, x') == P.Next(work.p, WorldOf(work, x), o)
  }

  ghost predicate Execution(reg: Registry, work: Work, xs: seq<Joint>, ls: seq<JointLabel>) {
    |xs| == |ls| + 1 && forall i | 0 <= i < |ls| :: JointNext(reg, work, xs[i], ls[i], xs[i + 1])
  }

  /** An empty job store, and tables that know nothing of the payout. */
  ghost predicate AtFirst(work: Work, x: Joint) {
    x.y == EMPTY_SYS && x.places == [] && P.Fresh(work.p, WorldOf(work, x))
  }

  /** A run of the payout that was refused for lack of funds releases another run's hold. */
  predicate LateRelease(work: Work, x: Joint, l: JointLabel) {
    && l.Statement? && l.r < |x.places| && x.places[l.r] == P.Abandoning(P.NoFunds)
    && L.HasLine(x.books.lines, work.p.id, L.Hold)
  }

  // ------------------------------------------------------------ the coupling

  /** The places of a step body. */
  predicate InBody(step: nat, place: P.Place) {
    || place == P.Missed(step) || place == P.Made(step) || place.Over?
    || (step == 0 && (place.NoHoldSeen? || place == P.Abandoning(P.NoFunds)))
    || (step == 1 && (place.NotSent? || place.Counted? || place.Sent? || place == P.Abandoning(P.BadRouting)))
  }

  predicate Coupled(run: Run, place: P.Place) {
    var n := |run.obs|;
    match run.phase
    case Ready => n <= |STEP_NAMES| && place == P.At(n)
    case Missed => n < |STEP_NAMES| && InBody(n, place)
    case Delivered(_) => false
    case Produced(_) => n < |STEP_NAMES| && place == P.Made(n)
    case Owned(_) => n < |STEP_NAMES| && place == P.Made(n)
    case Loaded(_) => n < |STEP_NAMES| && place == P.At(n + 1)
    case Ended(_, _) => place.Over? || place.Abandoning? || place.Failing? || place.Reporting?
    case Gone => place.Over?
  }

  predicate PlacesOk(work: Work, x: Joint) {
    && |x.places| == |x.y.runs|
    && forall r | 0 <= r < |x.places| ::
         if Mine(work, x.y.runs[r]) then Coupled(x.y.runs[r], x.places[r]) else x.places[r].Over?
  }

  ghost predicate JointOk(reg: Registry, work: Work, x: Joint) {
    Reachable(reg, x.y) && PlacesOk(work, x)
  }

  // --------------------------------------------------- traces of the payout

  /** The trace `ms` of the payout does what the label did. */
  ghost predicate Mirrors(work: Work, w: P.World, w': P.World, ms: seq<P.Label>, late: bool) {
    && P.CanTrace(work.p, w, ms) && P.Trace(work.p, w, ms) == w'
    && (P.EverBelated(work.p, w, ms) <==> late)
    && (P.OneLive(w.runs) ==> P.AllPatient(work.p, w, ms))
  }

  /** And it begins no run. */
  ghost predicate Follows(work: Work, w: P.World, w': P.World, ms: seq<P.Label>, late: bool) {
    Mirrors(work, w, w', ms, late) && (P.OneLive(w.runs) ==> P.OneLive(w'.runs))
  }

  predicate NoSteps(ms: seq<P.Label>) {
    forall m | m in ms :: !m.Step?
  }

  lemma {:induction false} QuietTrace(p: P.Payout, w: P.World, ms: seq<P.Label>)
    requires P.CanTrace(p, w, ms) && NoSteps(ms)
    ensures !P.EverBelated(p, w, ms) && P.AllPatient(p, w, ms)
    decreases |ms|
  {
    if ms != [] {
      assert ms[0] in ms && forall m | m in ms[1..] :: m in ms;
      QuietTrace(p, P.Next(p, w, ms[0]), ms[1..]);
    }
  }

  lemma OneLabel(work: Work, w: P.World, m: P.Label) returns (ms: seq<P.Label>)
    requires P.Possible(work.p, w, m) && !m.Begin?
    ensures Follows(work, w, P.Next(work.p, w, m), ms, P.Belated(work.p, w, m))
  {
    if P.OneLive(w.runs) { P.OneLiveKept(work.p, w, m); }
    var w' := P.Next(work.p, w, m);
    assert P.CanTrace(work.p, w', []) && P.Trace(work.p, w', []) == w';
    assert !P.EverBelated(work.p, w', []) && P.AllPatient(work.p, w', []);
    ms := [m];
    assert ms[1..] == [];
  }

  lemma NoLabel(work: Work, w: P.World) returns (ms: seq<P.Label>)
    ensures Follows(work, w, w, ms, false)
  {
    ms := [];
  }

  lemma {:induction false} Concatenated(p: P.Payout, w: P.World, a: seq<P.Label>, b: seq<P.Label>)
    requires P.CanTrace(p, w, a) && P.CanTrace(p, P.Trace(p, w, a), b)
    ensures P.CanTrace(p, w, a + b) && P.Trace(p, w, a + b) == P.Trace(p, P.Trace(p, w, a), b)
    ensures P.EverBelated(p, w, a + b) <==> P.EverBelated(p, w, a) || P.EverBelated(p, P.Trace(p, w, a), b)
    ensures P.AllPatient(p, w, a + b) <==> P.AllPatient(p, w, a) && P.AllPatient(p, P.Trace(p, w, a), b)
    decreases |a|
  {
    if a == [] {
      assert a + b == b;
    } else {
      Concatenated(p, P.Next(p, w, a[0]), a[1..], b);
      assert (a + b)[0] == a[0] && (a + b)[1..] == a[1..] + b;
    }
  }

  // ------------------------------------------------ checkpoints in the store

  /** Some jobs are new or gone, and the checkpoints of the others are the same. */
  predicate Blanked(m: map<JobId, set<nat>>, m': map<JobId, set<nat>>) {
    m.Keys <= m'.Keys && forall j | j in m' :: m'[j] == {} || (j in m && m'[j] == m[j])
  }

  lemma {:induction false} Blanks(work: Work, w: P.World, saved: map<JobId, set<nat>>) returns (ms: seq<P.Label>)
    requires Blanked(w.saved, saved)
    ensures NoSteps(ms) && P.CanTrace(work.p, w, ms) && P.Trace(work.p, w, ms) == w.(saved := saved)
    decreases |set j | j in saved && (j !in w.saved || saved[j] != w.saved[j])|
  {
    var changed := set j | j in saved && (j !in w.saved || saved[j] != w.saved[j]);
    if changed == {} {
      forall j | j in saved
        ensures j in w.saved && saved[j] == w.saved[j]
      {
        assert j !in changed;
      }
      assert saved == w.saved;
      ms := [];
    } else {
      var j :| j in changed;
      var w1 := P.Next(work.p, w, P.NewJob(j));
      var left := set i | i in saved && (i !in w1.saved || saved[i] != w1.saved[i]);
      assert left == changed - {j};
      ms := Blanks(work, w1, saved);
      ms := [P.NewJob(j)] + ms;
      assert ms[1..] == ms[1..] && P.Trace(work.p, w1, ms[1..]) == w.(saved := saved);
    }
  }

  lemma BlanksFollow(work: Work, w: P.World, saved: map<JobId, set<nat>>) returns (ms: seq<P.Label>)
    requires Blanked(w.saved, saved)
    ensures Follows(work, w, w.(saved := saved), ms, false)
  {
    ms := Blanks(work, w, saved);
    QuietTrace(work.p, w, ms);
  }

  /** No checkpoint of a payout's job is written. */
  predicate WritesNone(work: Work, s: State, op: Op) {
    !op.SaveStep? && (op.InsertStep? && op.job in s.jobs ==> !IsMine(work, s.jobs[op.job].row))
  }

  lemma EntryKeeps(work: Work, op: Op, now: Time, j: JobId, e: Entry)
    requires !op.SaveStep? && (op.InsertStep? && op.job == j ==> !IsMine(work, e.row))
    ensures IsMine(work, EntryAfter(op, now, j, e).row) <==> IsMine(work, e.row)
    ensures IsMine(work, e.row) ==> EntryAfter(op, now, j, e).steps == e.steps
  {
  }

  lemma BornBlank(s: State, op: Op, j: JobId)
    requires j in Born(s, op)
    ensures Born(s, op)[j].steps == map[]
  {
  }

  lemma JobSavedAfter(work: Work, s: State, op: Op, j: JobId)
    requires WritesNone(work, s, op)
    ensures var saved := JobSaved(work, Apply(s, op).jobs, j);
            saved == {} || (j in s.jobs && saved == JobSaved(work, s.jobs, j))
  {
    if j in Apply(s, op).jobs {
      RowsAfter(s, op, j);
      if j in Born(s, op) {
        BornBlank(s, op, j);
      } else {
        EntryKeeps(work, op, s.now, j, s.jobs[j]);
      }
    }
  }

  lemma SavedAfter(work: Work, y: Sys, op: Op, y': Sys)
    requires SeenOk(y.store, y.seen) && WritesNone(work, y.store, op)
    requires y'.store == Apply(y.store, op) && y'.seen == y.seen + y'.store.jobs
    ensures Blanked(SavedOf(work, y), SavedOf(work, y'))
  {
    forall j | j in y'.seen
      ensures var saved := SavedOf(work, y')[j]; saved == {} || (j in y.seen && saved == SavedOf(work, y)[j])
    {
      JobSavedAfter(work, y.store, op, j);
    }
  }

  /** A checkpoint of a payout's job is written. */
  lemma SavedByInsert(work: Work, y: Sys, job: JobId, step: nat, value: Json, y': Sys)
    requires SeenOk(y.store, y.seen) && job in y.store.jobs && IsMine(work, y.store.jobs[job].row)
    requires step < |STEP_NAMES|
    requires y'.store.jobs == y.store.jobs[job := InsertedEntry(y.store.jobs[job], StepKey(step), value)]
    requires y'.seen == y.seen + y'.store.jobs
    ensures SavedOf(work, y') == SavedOf(work, y)[job := SavedOf(work, y)[job] + {step}]
  {
    assert y'.seen.Keys == y.seen.Keys;
    InsertedSteps(work, y.store.jobs[job], step, value);
    assert JobSaved(work, y'.store.jobs, job) == JobSaved(work, y.store.jobs, job) + {step};
    forall j | j in y'.seen && j != job
      ensures JobSaved(work, y'.store.jobs, j) == JobSaved(work, y.store.jobs, j)
    {
    }
  }

  lemma InsertedSteps(work: Work, e: Entry, step: nat, value: Json)
    requires step < |STEP_NAMES|
    ensures var e' := InsertedEntry(e, StepKey(step), value);
            && e'.row == e.row
            && (set n | 0 <= n < |STEP_NAMES| && StepKey(n) in e'.steps)
               == (set n | 0 <= n < |STEP_NAMES| && StepKey(n) in e.steps) + {step}
  {
    forall n: nat | n < |STEP_NAMES| && StepKey(n) == StepKey(step)
      ensures n == step
    {
      StepKeys(n, step);
    }
  }

  // ---------------------------------------------------- the runtime's steps

  lemma NextOfMine(reg: Registry, work: Work, run: Run)
    requires Registered(reg, work) && Mine(work, run)
    ensures var n := |run.obs|;
            if n < |STEP_NAMES| then
              NextAction(reg, run) == DoStep([], STEP_NAMES[n]) && KeyFor(NextAction(reg, run)) == StepKey(n)
            else NextAction(reg, run).Return?
  {
    assert reg(work.kind, work.payload, Seen(run.obs)) == WorkflowOf(work, Seen(run.obs));
  }

  /** A step of a payout's run by what it does to run and checkpoints. */
  predicate Went(run: Run, run': Run, phase: Phase) {
    run' == run.(phase := phase)
  }

  predicate Breaks(run: Run, run': Run) {
    run'.phase.Ended? && run' == run.(phase := run'.phase)
  }

  lemma FindsCheckpoint(reg: Registry, work: Work, s: State, run: Run, c: Choice)
    requires Registered(reg, work) && Mine(work, run) && run.phase.Ready? && !c.Break?
    ensures var (write, run') := StepRun(reg, s, run, c);
            var n := |run.obs|;
            && write == None
            && if n >= |STEP_NAMES| then Breaks(run, run')
               else if run.job in s.jobs && StepKey(n) in s.jobs[run.job].steps
               then Went(run, run', Loaded(s.jobs[run.job].steps[StepKey(n)]))
               else Went(run, run', Missed)
  {
    NextOfMine(reg, work, run);
  }

  lemma BodyEnds(reg: Registry, work: Work, s: State, run: Run, c: Choice)
    requires Registered(reg, work) && Mine(work, run) && run.phase.Missed? && |run.obs| < |STEP_NAMES| && !c.Break?
    ensures var (write, run') := StepRun(reg, s, run, c);
            && write == None
            && if !c.Body? then run' == run
               else if c.outcome.Ok? then Went(run, run', Produced(OrEmpty(c.outcome.value)))
               else Breaks(run, run')
  {
    NextOfMine(reg, work, run);
  }

  lemma ChecksLease(reg: Registry, work: Work, s: State, run: Run, c: Choice)
    requires Registered(reg, work) && Mine(work, run) && run.phase.Produced? && |run.obs| < |STEP_NAMES| && !c.Break?
    ensures var (write, run') := StepRun(reg, s, run, c);
            write == None && (Went(run, run', Owned(run.phase.value)) || Breaks(run, run'))
  {
    NextOfMine(reg, work, run);
  }

  lemma WritesCheckpoint(reg: Registry, work: Work, s: State, run: Run, c: Choice)
    requires Registered(reg, work) && Mine(work, run) && run.phase.Owned? && |run.obs| < |STEP_NAMES| && !c.Break?
    ensures var (write, run') := StepRun(reg, s, run, c);
            && write == Some(InsertStep(run.job, StepKey(|run.obs|), run.phase.value))
            && if run.job in s.jobs then run'.phase.Loaded? && Went(run, run', run'.phase) else Breaks(run, run')
  {
    NextOfMine(reg, work, run);
  }

  lemma UsesCheckpoint(reg: Registry, work: Work, s: State, run: Run, c: Choice)
    requires Registered(reg, work) && Mine(work, run) && run.phase.Loaded? && |run.obs| < |STEP_NAMES| && !c.Break?
    ensures var (write, run') := StepRun(reg, s, run, c);
            write == None && run' == Observe(run, Value(StepKey(|run.obs|), run.phase.value))
  {
    NextOfMine(reg, work, run);
  }

  lemma Finishes(reg: Registry, s: State, run: Run, c: Choice)
    requires run.phase.Ended? || run.phase.Gone?
    ensures var (write, run') := StepRun(reg, s, run, c);
            && (write.Some? ==> !write.value.SaveStep? && !write.value.InsertStep?)
            && Went(run, run', Gone)
  {
  }

  // -------------------------------------------------- a move of a payout's run

  /** Run `r` gets to `run` and its code to `place`. */
  predicate MovesTo(x: Joint, r: nat, run: Run, place: P.Place, x': Joint)
    requires |x.places| == |x.y.runs|
  {
    && r < |x.places| && run.job == x.y.runs[r].job
    && x' == x.(y := x'.y, places := x.places[r := place])
    && x'.y.runs == x.y.runs[r := run]
  }

  lemma WorldMoves(work: Work, x: Joint, r: nat, run: Run, place: P.Place, x': Joint)
    requires |x.places| == |x.y.runs| && MovesTo(x, r, run, place, x')
    ensures WorldOf(work, x') == P.Moved(WorldOf(work, x), r, place).(saved := SavedOf(work, x'.y))
  {
    assert RunsOf(x') == RunsOf(x)[r := RunsOf(x)[r].(place := place)];
  }

  lemma SameSaved(work: Work, y: Sys, y': Sys)
    requires SeenOk(y.store, y.seen) && y'.store == y.store && y'.seen == y.seen + y.store.jobs
    ensures SavedOf(work, y') == SavedOf(work, y)
  {
    assert y.seen + y.store.jobs == y.seen;
  }

  lemma OverNow(work: Work, x: Joint, r: nat, run: Run, x': Joint) returns (ms: seq<P.Label>)
    requires |x.places| == |x.y.runs| && MovesTo(x, r, run, P.Over, x') && SavedOf(work, x'.y) == SavedOf(work, x.y)
    ensures Follows(work, WorldOf(work, x), WorldOf(work, x'), ms, false)
  {
    WorldMoves(work, x, r, run, P.Over, x');
    ms := OneLabel(work, WorldOf(work, x), P.Crash(r));
  }

  lemma StaysPut(work: Work, x: Joint, r: nat, run: Run, x': Joint) returns (ms: seq<P.Label>)
    requires |x.places| == |x.y.runs| && r < |x.places| && MovesTo(x, r, run, x.places[r], x')
    requires SavedOf(work, x'.y) == SavedOf(work, x.y)
    ensures Follows(work, WorldOf(work, x), WorldOf(work, x'), ms, false)
  {
    WorldMoves(work, x, r, run, x.places[r], x');
    assert WorldOf(work, x').runs == WorldOf(work, x).runs;
    ms := NoLabel(work, WorldOf(work, x));
  }

  lemma LookFollows(work: Work, x: Joint, r: nat, run: Run, place: P.Place, x': Joint) returns (ms: seq<P.Label>)
    requires |x.places| == |x.y.runs| && MovesTo(x, r, run, place, x') && SavedOf(work, x'.y) == SavedOf(work, x.y)
    requires SeenOk(x.y.store, x.y.seen) && run.job in x.y.seen && x.places[r].At? && x.places[r].step <= |STEP_NAMES|
    requires run.job in x.y.store.jobs ==> IsMine(work, x.y.store.jobs[run.job].row)
    requires var n := x.places[r].step;
             place == if n >= |STEP_NAMES| then P.Over
                      else if run.job in x.y.store.jobs && StepKey(n) in x.y.store.jobs[run.job].steps then P.At(n + 1)
                      else P.Missed(n)
    ensures Follows(work, WorldOf(work, x), WorldOf(work, x'), ms, false)
  {
    WorldMoves(work, x, r, run, place, x');
    var n := x.places[r].step;
    assert n < |STEP_NAMES| ==>
        (n in SavedOf(work, x.y)[run.job] <==> run.job in x.y.store.jobs && StepKey(n) in x.y.store.jobs[run.job].steps);
    ms := OneLabel(work, WorldOf(work, x), P.Step(r, ""));
  }

  lemma WriteFollows(work: Work, x: Joint, r: nat, run: Run, n: nat, x': Joint) returns (ms: seq<P.Label>)
    requires |x.places| == |x.y.runs| && MovesTo(x, r, run, P.At(n + 1), x') && x.places[r] == P.Made(n)
    requires run.job in x.y.seen && SavedOf(work, x'.y) == SavedOf(work, x.y)[run.job := SavedOf(work, x.y)[run.job] + {n}]
    ensures Follows(work, WorldOf(work, x), WorldOf(work, x'), ms, false)
  {
    WorldMoves(work, x, r, run, P.At(n + 1), x');
    ms := OneLabel(work, WorldOf(work, x), P.Step(r, ""));
  }

  /** What a move of a payout's run starts from and what it leads to. */
  ghost predicate MineMoves(reg: Registry, work: Work, x: Joint, r: nat, c: Choice, x': Joint) {
    && |x.places| == |x.y.runs| && r < |x.places| && Registered(reg, work)
    && SeenOk(x.y.store, x.y.seen)
    && var run, place, s := x.y.runs[r], x.places[r], x.y.store;
       && Mine(work, run) && Coupled(run, place) && Answers(run, place, c)
       && run.job in x.y.seen && (run.job in s.jobs ==> IsMine(work, s.jobs[run.job].row))
       && var (write, run') := StepRun(reg, s, run, c);
          && x'.y.store == StoreAfter(s, write) && x'.y.seen == x.y.seen + x'.y.store.jobs
          && MovesTo(x, r, run', PlaceAfter(run, c, run', place), x')
  }

  lemma ErrorFollows(reg: Registry, work: Work, x: Joint, r: nat, c: Choice, x': Joint) returns (ms: seq<P.Label>)
    requires MineMoves(reg, work, x, r, c, x') && c.Break? && !x.y.runs[r].phase.Ended? && !x.y.runs[r].phase.Gone?
    ensures Follows(work, WorldOf(work, x), WorldOf(work, x'), ms, false)
    ensures Mine(work, x'.y.runs[r]) && Coupled(x'.y.runs[r], x'.places[r])
  {
    SameSaved(work, x.y, x'.y);
    ms := OverNow(work, x, r, x'.y.runs[r], x');
  }

  lemma ReadyFollows(reg: Registry, work: Work, x: Joint, r: nat, c: Choice, x': Joint) returns (ms: seq<P.Label>)
    requires MineMoves(reg, work, x, r, c, x') && !c.Break? && x.y.runs[r].phase.Ready?
    ensures Follows(work, WorldOf(work, x), WorldOf(work, x'), ms, false)
    ensures Mine(work, x'.y.runs[r]) && Coupled(x'.y.runs[r], x'.places[r])
  {
    FindsCheckpoint(reg, work, x.y.store, x.y.runs[r], c);
    SameSaved(work, x.y, x'.y);
    ms := LookFollows(work, x, r, x'.y.runs[r], x'.places[r], x');
  }

  lemma BodyFollows(reg: Registry, work: Work, x: Joint, r: nat, c: Choice, x': Joint) returns (ms: seq<P.Label>)
    requires MineMoves(reg, work, x, r, c, x') && !c.Break? && x.y.runs[r].phase.Missed?
    ensures Follows(work, WorldOf(work, x), WorldOf(work, x'), ms, false)
    ensures Mine(work, x'.y.runs[r]) && Coupled(x'.y.runs[r], x'.places[r])
  {
    BodyEnds(reg, work, x.y.store, x.y.runs[r], c);
    SameSaved(work, x.y, x'.y);
    ms := StaysPut(work, x, r, x'.y.runs[r], x');
  }

  lemma CheckFollows(reg: Registry, work: Work, x: Joint, r: nat, c: Choice, x': Joint) returns (ms: seq<P.Label>)
    requires MineMoves(reg, work, x, r, c, x') && !c.Break? && x.y.runs[r].phase.Produced?
    ensures Follows(work, WorldOf(work, x), WorldOf(work, x'), ms, false)
    ensures Mine(work, x'.y.runs[r]) && Coupled(x'.y.runs[r], x'.places[r])
  {
    ChecksLease(reg, work, x.y.store, x.y.runs[r], c);
    SameSaved(work, x.y, x'.y);
    if x'.y.runs[r].phase.Owned? {
      ms := StaysPut(work, x, r, x'.y.runs[r], x');
    } else {
      ms := OverNow(work, x, r, x'.y.runs[r], x');
    }
  }

  lemma InsertedJobs(s: State, job: JobId, key: string, value: Json)
    ensures Apply(s, InsertStep(job, key, value)).jobs
            == if job in s.jobs then s.jobs[job := InsertedEntry(s.jobs[job], key, value)] else s.jobs
  {
  }

  lemma InsertSaves(work: Work, y: Sys, job: JobId, step: nat, value: Json, y': Sys)
    requires SeenOk(y.store, y.seen) && job in y.seen && step < |STEP_NAMES|
    requires job in y.store.jobs ==> IsMine(work, y.store.jobs[job].row)
    requires y'.store == Apply(y.store, InsertStep(job, StepKey(step), value)) && y'.seen == y.seen + y'.store.jobs
    ensures SavedOf(work, y') == if job in y.store.jobs then SavedOf(work, y)[job := SavedOf(work, y)[job] + {step}]
                                 else SavedOf(work, y)
  {
    InsertedJobs(y.store, job, StepKey(step), value);
    if job in y.store.jobs {
      SavedByInsert(work, y, job, step, value, y');
    } else {
      assert y'.store.jobs == y.store.jobs && y'.seen == y.seen;
    }
  }

  lemma InsertCoupled(reg: Registry, work: Work, s: State, run: Run, c: Choice, place: P.Place)
    requires Registered(reg, work) && Mine(work, run) && Coupled(run, place) && run.phase.Owned? && !c.Break?
    ensures var run' := StepRun(reg, s, run, c).1;
            Mine(work, run') && Coupled(run', PlaceAfter(run, c, run', place))
  {
    WritesCheckpoint(reg, work, s, run, c);
  }

  lemma InsertFollows(reg: Registry, work: Work, x: Joint, r: nat, c: Choice, x': Joint) returns (ms: seq<P.Label>)
    requires MineMoves(reg, work, x, r, c, x') && !c.Break? && x.y.runs[r].phase.Owned?
    ensures Follows(work, WorldOf(work, x), WorldOf(work, x'), ms, false)
  {
    var run := x.y.runs[r];
    WritesCheckpoint(reg, work, x.y.store, run, c);
    InsertSaves(work, x.y, run.job, |run.obs|, run.phase.value, x'.y);
    if run.job in x.y.store.jobs {
      ms := WriteFollows(work, x, r, x'.y.runs[r], |run.obs|, x');
    } else {
      ms := OverNow(work, x, r, x'.y.runs[r], x');
    }
  }

  lemma UseFollows(reg: Registry, work: Work, x: Joint, r: nat, c: Choice, x': Joint) returns (ms: seq<P.Label>)
    requires MineMoves(reg, work, x, r, c, x') && !c.Break? && x.y.runs[r].phase.Loaded?
    ensures Follows(work, WorldOf(work, x), WorldOf(work, x'), ms, false)
    ensures Mine(work, x'.y.runs[r]) && Coupled(x'.y.runs[r], x'.places[r])
  {
    UsesCheckpoint(reg, work, x.y.store, x.y.runs[r], c);
    SameSaved(work, x.y, x'.y);
    ms := StaysPut(work, x, r, x'.y.runs[r], x');
  }

  lemma FinishFollows(reg: Registry, work: Work, x: Joint, r: nat, c: Choice, x': Joint) returns (ms: seq<P.Label>)
    requires MineMoves(reg, work, x, r, c, x') && (x.y.runs[r].phase.Ended? || x.y.runs[r].phase.Gone?)
    ensures Follows(work, WorldOf(work, x), WorldOf(work, x'), ms, false)
    ensures Mine(work, x'.y.runs[r]) && Coupled(x'.y.runs[r], x'.places[r])
  {
    var run := x.y.runs[r];
    Finishes(reg, x.y.store, run, c);
    var write := StepRun(reg, x.y.store, run, c).0;
    WorldMoves(work, x, r, x'.y.runs[r], P.Over, x');
    assert RunsOf(x') == RunsOf(x);
    if write.Some? {
      SavedAfter(work, x.y, write.value, x'.y);
    } else {
      SameSaved(work, x.y, x'.y);
    }
    ms := BlanksFollow(work, WorldOf(work, x), SavedOf(work, x'.y));
  }

  lemma MineFollows(reg: Registry, work: Work, x: Joint, r: nat, c: Choice, x': Joint) returns (ms: seq<P.Label>)
    requires MineMoves(reg, work, x, r, c, x')
    ensures Follows(work, WorldOf(work, x), WorldOf(work, x'), ms, false)
    ensures Mine(work, x'.y.runs[r]) && Coupled(x'.y.runs[r], x'.places[r])
  {
    var phase := x.y.runs[r].phase;
    if phase.Ended? || phase.Gone? {
      ms := FinishFollows(reg, work, x, r, c, x');
    } else if c.Break? {
      ms := ErrorFollows(reg, work, x, r, c, x');
    } else {
      match phase
      case Ready => ms := ReadyFollows(reg, work, x, r, c, x');
      case Missed => ms := BodyFollows(reg, work, x, r, c, x');
      case Produced(_) => ms := CheckFollows(reg, work, x, r, c, x');
      case Owned(_) =>
        InsertCoupled(reg, work, x.y.store, x.y.runs[r], c, x.places[r]);
        ms := InsertFollows(reg, work, x, r, c, x');
      case Loaded(_) => ms := UseFollows(reg, work, x, r, c, x');
    }
  }

  // ------------------------------------------------------------- every label

  lemma JobOfRun(reg: Registry, work: Work, x: Joint, r: nat)
    requires Reachable(reg, x.y) && r < |x.y.runs|
    ensures SeenOk(x.y.store, x.y.seen)
    ensures var run := x.y.runs[r];
            && run.job in x.y.seen
            && (run.job in x.y.store.jobs ==> (IsMine(work, x.y.store.jobs[run.job].row) <==> Mine(work, run)))
  {
    ReachableOk(reg, x.y);
    assert RunOk(reg, x.y.runs[r], x.y.seen, x.y.store);
  }

  predicate SameJob(run: Run, run': Run) {
    run'.job == run.job && run'.kind == run.kind && run'.payload == run.payload
  }

  lemma CallKeepsJob(s: State, run: Run, a: Action, c: Choice)
    requires Checkpointed(a)
    ensures SameJob(run, StepCheckpointed(s, run, a, c).1)
  {
    match run.phase
    case Missed => BodyKeepsJob(s, run, a, c);
    case Loaded(value) => assert SameJob(run, UseCheckpoint(s, run, a, value));
    case _ =>
  }

  lemma BodyKeepsJob(s: State, run: Run, a: Action, c: Choice)
    requires Checkpointed(a)
    ensures SameJob(run, RunBody(s, run, a, c).1)
  {
  }

  lemma KeepsJob(reg: Registry, s: State, run: Run, c: Choice)
    ensures SameJob(run, StepRun(reg, s, run, c).1)
  {
    var a := NextAction(reg, run);
    assert SameJob(run, StartAction(s, run, a));
    if Checkpointed(a) { CallKeepsJob(s, run, a, c); }
  }

  /** The store does something that writes no checkpoint of the payout, and no place
      changes. */
  lemma StoreFollows(work: Work, x: Joint, op: Option<Op>, x': Joint) returns (ms: seq<P.Label>)
    requires |x.places| == |x.y.runs| == |x'.y.runs| && x' == x.(y := x'.y) && RunsOf(x') == RunsOf(x)
    requires SeenOk(x.y.store, x.y.seen) && (op.Some? ==> WritesNone(work, x.y.store, op.value))
    requires x'.y.store == StoreAfter(x.y.store, op) && x'.y.seen == x.y.seen + x'.y.store.jobs
    ensures Follows(work, WorldOf(work, x), WorldOf(work, x'), ms, false)
  {
    if op.Some? {
      SavedAfter(work, x.y, op.value, x'.y);
    } else {
      SameSaved(work, x.y, x'.y);
    }
    ms := BlanksFollow(work, WorldOf(work, x), SavedOf(work, x'.y));
  }

  lemma OtherRunFollows(reg: Registry, work: Work, x: Joint, r: nat, c: Choice, x': Joint) returns (ms: seq<P.Label>)
    requires JointOk(reg, work, x) && JointNext(reg, work, x, System(Move(r, c)), x') && !Mine(work, x.y.runs[r])
    ensures Follows(work, WorldOf(work, x), WorldOf(work, x'), ms, false) && PlacesOk(work, x')
  {
    var run := x.y.runs[r];
    JobOfRun(reg, work, x, r);
    KeepsJob(reg, x.y.store, run, c);
    var write := StepRun(reg, x.y.store, run, c).0;
    if write.Some? { WriteKinds(reg, x.y.store, run, c); }
    StoreOfNext(reg, x.y, Move(r, c));
    assert RunsOf(x') == RunsOf(x);
    ms := StoreFollows(work, x, write, x');
  }

  lemma MyRunFollows(reg: Registry, work: Work, x: Joint, r: nat, c: Choice, x': Joint) returns (ms: seq<P.Label>)
    requires Registered(reg, work) && JointOk(reg, work, x) && JointNext(reg, work, x, System(Move(r, c)), x')
    requires Mine(work, x.y.runs[r])
    ensures Follows(work, WorldOf(work, x), WorldOf(work, x'), ms, false) && PlacesOk(work, x')
  {
    JobOfRun(reg, work, x, r);
    KeepsJob(reg, x.y.store, x.y.runs[r], c);
    StoreOfNext(reg, x.y, Move(r, c));
    assert MineMoves(reg, work, x, r, c, x');
    ms := MineFollows(reg, work, x, r, c, x');
  }

  lemma EnvFollows(reg: Registry, work: Work, x: Joint, op: Op, x': Joint) returns (ms: seq<P.Label>)
    requires JointOk(reg, work, x) && JointNext(reg, work, x, System(Env(op)), x')
    ensures Follows(work, WorldOf(work, x), WorldOf(work, x'), ms, false) && PlacesOk(work, x')
  {
    ReachableOk(reg, x.y);
    assert RunsOf(x') == RunsOf(x);
    ms := StoreFollows(work, x, Some(op), x');
  }

  lemma CrashFollows(reg: Registry, work: Work, x: Joint, r: nat, x': Joint) returns (ms: seq<P.Label>)
    requires JointOk(reg, work, x) && JointNext(reg, work, x, System(Crash(r)), x')
    ensures Follows(work, WorldOf(work, x), WorldOf(work, x'), ms, false) && PlacesOk(work, x')
  {
    ms := OverNow(work, x, r, x'.y.runs[r], x');
  }

  lemma CutFollows(reg: Registry, work: Work, x: Joint, r: nat, x': Joint) returns (ms: seq<P.Label>)
    requires JointOk(reg, work, x) && JointNext(reg, work, x, Cut(r), x')
    ensures Follows(work, WorldOf(work, x), WorldOf(work, x'), ms, false) && PlacesOk(work, x')
  {
    ms := OverNow(work, x, r, x'.y.runs[r], x');
  }

  /** Claimed runs of the payout begin at the first step; the others take no step. */
  lemma {:induction false} Begins(p: P.Payout, w: P.World, runs: seq<P.Run>) returns (ms: seq<P.Label>)
    requires forall i | 0 <= i < |runs| :: runs[i].place == P.At(0) || runs[i].place.Over?
    ensures NoSteps(ms) && P.CanTrace(p, w, ms) && P.Trace(p, w, ms) == w.(runs := w.runs + runs)
    decreases |runs|
  {
    if runs == [] {
      ms := [];
      assert w.runs + runs == w.runs;
    } else {
      var first := Begun(p, w, runs[0]);
      var w1 := w.(runs := w.runs + [runs[0]]);
      var rest := Begins(p, w1, runs[1..]);
      assert w1.runs + runs[1..] == w.runs + runs by { assert runs == [runs[0]] + runs[1..]; }
      Concatenated(p, w, first, rest);
      ms := first + rest;
    }
  }

  lemma Begun(p: P.Payout, w: P.World, run: P.Run) returns (ms: seq<P.Label>)
    requires run.place == P.At(0) || run.place.Over?
    ensures NoSteps(ms) && P.CanTrace(p, w, ms) && P.Trace(p, w, ms) == w.(runs := w.runs + [run])
  {
    var w1 := P.Next(p, w, P.Begin(run.job));
    if run.place.Over? {
      var w2 := w.(runs := w.runs + [run]);
      assert P.Next(p, w1, P.Crash(|w.runs|)) == w2 by { assert w1.runs[|w.runs| := run] == w2.runs; }
      ms := P.Before(p, w1, P.Crash(|w.runs|), w2, []);
      ms := P.Before(p, w, P.Begin(run.job), w1, ms);
    } else {
      ms := P.Before(p, w, P.Begin(run.job), w1, []);
    }
  }

  /** The run executes the workflow and payload of the row. */
  predicate RunsRow(run: Run, row: Row) {
    run.kind == row.kind && run.payload == row.payload
  }

  predicate AtTheTop(runs: seq<Run>) {
    forall i | 0 <= i < |runs| :: runs[i].phase.Ready? && runs[i].obs == []
  }

  lemma ClaimKeepsKind(s: State, claim: Op, job: JobId)
    requires claim.Claim? && job in s.jobs
    ensures var s' := Apply(s, claim);
            job in s'.jobs && s'.jobs[job].row.kind == s.jobs[job].row.kind && s'.jobs[job].row.payload == s.jobs[job].row.payload
  {
  }

  lemma Started(reg: Registry, y: Sys, claim: Op, jobs: seq<JobId>) returns (begun: seq<Run>)
    requires LegalLabel(reg, y, Start(claim, jobs))
    ensures Next(reg, y, Start(claim, jobs)).runs == y.runs + begun && AtTheTop(begun) && |begun| == |jobs|
    ensures forall i | 0 <= i < |jobs| :: jobs[i] in y.store.jobs && RunsRow(begun[i], y.store.jobs[jobs[i]].row)
  {
    assert forall i | 0 <= i < |jobs| :: jobs[i] in claim.picked;
    begun := NewRuns(Apply(y.store, claim), jobs, claim.worker);
    forall i | 0 <= i < |jobs|
      ensures jobs[i] in y.store.jobs && RunsRow(begun[i], y.store.jobs[jobs[i]].row)
    {
      ClaimKeepsKind(y.store, claim, jobs[i]);
    }
  }

  lemma MorePlaces(work: Work, x: Joint, begun: seq<Run>, x': Joint)
    requires PlacesOk(work, x) && AtTheTop(begun)
    requires x'.y.runs == x.y.runs + begun && x'.places == x.places + FirstPlaces(work, begun)
    ensures PlacesOk(work, x')
  {
    forall r | 0 <= r < |x'.places|
      ensures if Mine(work, x'.y.runs[r]) then Coupled(x'.y.runs[r], x'.places[r]) else x'.places[r].Over?
    {
      if r >= |x.places| { assert x'.y.runs[r] == begun[r - |x.places|]; }
    }
  }

  lemma MoreRuns(work: Work, x: Joint, begun: seq<Run>, x': Joint) returns (more: seq<P.Run>)
    requires |x.places| == |x.y.runs|
    requires x'.y.runs == x.y.runs + begun && x'.places == x.places + FirstPlaces(work, begun)
    ensures RunsOf(x') == RunsOf(x) + more
    ensures forall i | 0 <= i < |more| :: more[i].place == P.At(0) || more[i].place.Over?
  {
    more := seq(|begun|, i requires 0 <= i < |begun| => P.Run(begun[i].job, FirstPlaces(work, begun)[i]));
  }

  lemma StartFollows(reg: Registry, work: Work, x: Joint, claim: Op, jobs: seq<JobId>, x': Joint) returns (ms: seq<P.Label>)
    requires JointOk(reg, work, x) && JointNext(reg, work, x, System(Start(claim, jobs)), x')
    ensures Mirrors(work, WorldOf(work, x), WorldOf(work, x'), ms, false) && PlacesOk(work, x')
  {
    ReachableOk(reg, x.y);
    var begun := Started(reg, x.y, claim, jobs);
    assert x'.y.runs[|x.y.runs|..] == begun;
    MorePlaces(work, x, begun, x');
    var more := MoreRuns(work, x, begun, x');
    SavedAfter(work, x.y, claim, x'.y);
    ms := BlanksAndBegins(work, WorldOf(work, x), SavedOf(work, x'.y), more);
  }

  lemma BlanksAndBegins(work: Work, w: P.World, saved: map<JobId, set<nat>>, more: seq<P.Run>) returns (ms: seq<P.Label>)
    requires Blanked(w.saved, saved) && forall i | 0 <= i < |more| :: more[i].place == P.At(0) || more[i].place.Over?
    ensures Mirrors(work, w, w.(saved := saved, runs := w.runs + more), ms, false)
  {
    var blanks := Blanks(work, w, saved);
    var begins := Begins(work.p, w.(saved := saved), more);
    Concatenated(work.p, w, blanks, begins);
    ms := blanks + begins;
    QuietTrace(work.p, w, ms);
  }

  lemma StatementFollows(reg: Registry, work: Work, x: Joint, r: nat, ref: string, x': Joint) returns (ms: seq<P.Label>)
    requires JointOk(reg, work, x) && JointNext(reg, work, x, Statement(r, ref), x')
    ensures Follows(work, WorldOf(work, x), WorldOf(work, x'), ms, LateRelease(work, x, Statement(r, ref))) && PlacesOk(work, x')
  {
    ms := OneLabel(work, WorldOf(work, x), P.Step(r, ref));
    StatementPlaces(work, x, r, ref, x');
  }

  lemma StatementPlaces(work: Work, x: Joint, r: nat, ref: string, x': Joint)
    requires PlacesOk(work, x) && |x'.places| == |x'.y.runs| && x'.y == x.y
    requires r < |x.places| && Mine(work, x.y.runs[r]) && InHand(x.y.runs[r], x.places[r])
    requires P.CanStep(WorldOf(work, x), r) && WorldOf(work, x') == P.StepRun(work.p, WorldOf(work, x), r, ref)
    ensures PlacesOk(work, x')
  {
    var w, w' := WorldOf(work, x), WorldOf(work, x');
    assert w.runs[r] == P.Run(x.y.runs[r].job, x.places[r]);
    assert forall k | 0 <= k < |x'.places| :: w'.runs[k] == P.Run(x.y.runs[k].job, x'.places[k]);
    assert forall k | 0 <= k < |x.places| && k != r :: w'.runs[k] == w.runs[k] == P.Run(x.y.runs[k].job, x.places[k]);
    assert Coupled(x.y.runs[r], w'.runs[r].place);
  }

  lemma OutsidePlaces(work: Work, x: Joint, x': Joint)
    requires PlacesOk(work, x) && |x'.places| == |x'.y.runs| && x'.y == x.y && RunsOf(x') == RunsOf(x)
    ensures PlacesOk(work, x')
  {
    forall r | 0 <= r < |x'.places|
      ensures x'.places[r] == x.places[r]
    {
      assert RunsOf(x')[r] == RunsOf(x)[r];
    }
  }

  lemma OutsideKeepsRuns(p: P.Payout, w: P.World, o: P.Label)
    requires IsOutside(o) && P.Possible(p, w, o)
    ensures P.Next(p, w, o).runs == w.runs
  {
  }

  lemma OutsideFollows(reg: Registry, work: Work, x: Joint, o: P.Label, x': Joint) returns (ms: seq<P.Label>)
    requires JointOk(reg, work, x) && JointNext(reg, work, x, Outside(o), x')
    ensures Follows(work, WorldOf(work, x), WorldOf(work, x'), ms, false) && PlacesOk(work, x')
  {
    ms := OneLabel(work, WorldOf(work, x), o);
    OutsideKeepsRuns(work.p, WorldOf(work, x), o);
    OutsidePlaces(work, x, x');
  }

  /** Every step of the jobs, the tables and the environment is one of the payout's
      machine, or several, or none. */
  lemma LabelFollows(reg: Registry, work: Work, x: Joint, l: JointLabel, x': Joint) returns (ms: seq<P.Label>)
    requires Registered(reg, work) && JointOk(reg, work, x) && JointNext(reg, work, x, l, x')
    ensures Mirrors(work, WorldOf(work, x), WorldOf(work, x'), ms, LateRelease(work, x, l)) && JointOk(reg, work, x')
    ensures P.OneLive(RunsOf(x)) && !(l.System? && l.m.Start?) ==> P.OneLive(RunsOf(x'))
  {
    match l
    case System(m) =>
      C.ReachableNext(reg, x.y, m);
      match m {
        case Env(op) => ms := EnvFollows(reg, work, x, op, x');
        case Start(claim, jobs) => ms := StartFollows(reg, work, x, claim, jobs, x');
        case Move(r, c) =>
          if Mine(work, x.y.runs[r]) { ms := MyRunFollows(reg, work, x, r, c, x'); }
          else { ms := OtherRunFollows(reg, work, x, r, c, x'); }
        case Crash(r) => ms := CrashFollows(reg, work, x, r, x');
      }
    case Statement(r, ref) => ms := StatementFollows(reg, work, x, r, ref, x');
    case Cut(r) => ms := CutFollows(reg, work, x, r, x');
    case Outside(o) => ms := OutsideFollows(reg, work, x, o, x');
  }

  // -------------------------------------------------------- every execution

  ghost predicate LateBy(work: Work, xs: seq<Joint>, ls: seq<JointLabel>, n: nat)
    requires |xs| == |ls| + 1 && n <= |ls|
  {
    exists i :: 0 <= i < n && LateRelease(work, xs[i], ls[i])
  }

  /** A trace of the payout's machine to the `n`-th state of the execution. */
  ghost predicate Mirrored(work: Work, xs: seq<Joint>, ls: seq<JointLabel>, n: nat, ms: seq<P.Label>)
    requires |xs| == |ls| + 1 && n <= |ls| && |xs[0].places| == |xs[0].y.runs| && |xs[n].places| == |xs[n].y.runs|
  {
    var w := WorldOf(work, xs[0]);
    && P.CanTrace(work.p, w, ms) && P.Trace(work.p, w, ms) == WorldOf(work, xs[n])
    && (P.EverBelated(work.p, w, ms) <==> LateBy(work, xs, ls, n))
    && (OneByOne(work, xs, ls, n) ==> P.OneLive(RunsOf(xs[n])) && P.AllPatient(work.p, w, ms))
  }

  /** Every execution of a payout's jobs is a trace of the payout's machine, to the same
      tables, and the late releases are the machine's. */
  lemma {:induction false} Refines(reg: Registry, work: Work, xs: seq<Joint>, ls: seq<JointLabel>, n: nat) returns (ms: seq<P.Label>)
    requires Registered(reg, work) && Execution(reg, work, xs, ls) && AtFirst(work, xs[0]) && n <= |ls|
    ensures JointOk(reg, work, xs[0]) && JointOk(reg, work, xs[n]) && Mirrored(work, xs, ls, n, ms)
    decreases n
  {
    AtFirstOk(reg, work, xs[0]);
    if n == 0 {
      ms := [];
    } else {
      ms := Refines(reg, work, xs, ls, n - 1);
      ms := OneMore(reg, work, xs, ls, n, ms);
    }
  }

  lemma LateMore(work: Work, xs: seq<Joint>, ls: seq<JointLabel>, n: nat)
    requires 0 < n <= |ls| && |xs| == |ls| + 1
    ensures LateBy(work, xs, ls, n) <==> LateBy(work, xs, ls, n - 1) || LateRelease(work, xs[n - 1], ls[n - 1])
  {
  }

  lemma OneMore(reg: Registry, work: Work, xs: seq<Joint>, ls: seq<JointLabel>, n: nat, front: seq<P.Label>) returns (ms: seq<P.Label>)
    requires Registered(reg, work) && 0 < n <= |ls| && |xs| == |ls| + 1 && JointNext(reg, work, xs[n - 1], ls[n - 1], xs[n])
    requires |xs[0].places| == |xs[0].y.runs| && JointOk(reg, work, xs[n - 1]) && Mirrored(work, xs, ls, n - 1, front)
    ensures JointOk(reg, work, xs[n]) && Mirrored(work, xs, ls, n, ms)
  {
    var x, l, x' := xs[n - 1], ls[n - 1], xs[n];
    var last := LabelFollows(reg, work, x, l, x');
    Concatenated(work.p, WorldOf(work, xs[0]), front, last);
    ms := front + last;
    LateMore(work, xs, ls, n);
    if OneByOne(work, xs, ls, n) {
      assert OneByOne(work, xs, ls, n - 1) && OneAtATime(work, x, l);
      if l.System? && l.m.Start? { StartsOne(reg, work, x, l.m.claim, l.m.jobs, x'); }
    }
  }

  lemma AtFirstOk(reg: Registry, work: Work, x: Joint)
    requires AtFirst(work, x)
    ensures JointOk(reg, work, x) && P.OneLive(RunsOf(x))
  {
    var ls: seq<Label> := [];
    assert LegalTrace(reg, EMPTY_SYS, ls) && Trace(reg, EMPTY_SYS, ls) == EMPTY_SYS;
  }

  /** A claim starts at most one run of the payout, and none while another one lives. */
  predicate OneAtATime(work: Work, x: Joint, l: JointLabel) {
    l.System? && l.m.Start? ==>
      var jobs := l.m.jobs;
      forall i | 0 <= i < |jobs| && jobs[i] in x.y.store.jobs && IsMine(work, x.y.store.jobs[jobs[i]].row) ::
        && (forall r | 0 <= r < |x.y.runs| && Mine(work, x.y.runs[r]) :: x.y.runs[r].phase.Gone?)
        && (forall k | 0 <= k < |jobs| && k != i && jobs[k] in x.y.store.jobs :: !IsMine(work, x.y.store.jobs[jobs[k]].row))
  }

  predicate OneByOne(work: Work, xs: seq<Joint>, ls: seq<JointLabel>, n: nat)
    requires |xs| == |ls| + 1 && n <= |ls|
  {
    forall i | 0 <= i < n :: OneAtATime(work, xs[i], ls[i])
  }

  /** Either no run is begun for the payout, or one while all others are over. */
  lemma LiveOnes(work: Work, x: Joint, begun: seq<Run>, x': Joint)
    requires |x.places| == |x.y.runs| && P.OneLive(RunsOf(x))
    requires x'.y.runs == x.y.runs + begun && x'.places == x.places + FirstPlaces(work, begun)
    requires forall i | 0 <= i < |begun| && Mine(work, begun[i]) ::
               && (forall r | 0 <= r < |x.places| :: x.places[r].Over?)
               && (forall k | 0 <= k < |begun| && k != i :: !Mine(work, begun[k]))
    ensures P.OneLive(RunsOf(x'))
  {
    var n := |x.places|;
    forall q, r | 0 <= q < r < |x'.places|
      ensures x'.places[q].Over? || x'.places[r].Over?
    {
      if r < n {
        assert RunsOf(x)[q].place.Over? || RunsOf(x)[r].place.Over?;
      } else if Mine(work, begun[r - n]) && q >= n {
        assert !Mine(work, begun[q - n]);
      }
    }
  }

  lemma StartsOne(reg: Registry, work: Work, x: Joint, claim: Op, jobs: seq<JobId>, x': Joint)
    requires JointOk(reg, work, x) && JointNext(reg, work, x, System(Start(claim, jobs)), x')
    requires P.OneLive(RunsOf(x)) && OneAtATime(work, x, System(Start(claim, jobs)))
    ensures P.OneLive(RunsOf(x'))
  {
    var begun := Started(reg, x.y, claim, jobs);
    assert x'.y.runs[|x.y.runs|..] == begun;
    OnlyOneBegun(work, x, claim, jobs, begun);
    LiveOnes(work, x, begun, x');
  }

  lemma OnlyOneBegun(work: Work, x: Joint, claim: Op, jobs: seq<JobId>, begun: seq<Run>)
    requires PlacesOk(work, x) && OneAtATime(work, x, System(Start(claim, jobs))) && |begun| == |jobs|
    requires forall i | 0 <= i < |jobs| :: jobs[i] in x.y.store.jobs && RunsRow(begun[i], x.y.store.jobs[jobs[i]].row)
    ensures forall i | 0 <= i < |begun| && Mine(work, begun[i]) ::
              && (forall r | 0 <= r < |x.places| :: x.places[r].Over?)
              && (forall k | 0 <= k < |begun| && k != i :: !Mine(work, begun[k]))
  {
    forall i | 0 <= i < |begun| && Mine(work, begun[i])
      ensures forall r | 0 <= r < |x.places| :: x.places[r].Over?
      ensures forall k | 0 <= k < |begun| && k != i :: !Mine(work, begun[k])
    {
      assert IsMine(work, x.y.store.jobs[jobs[i]].row);
    }
  }

  // ------------------------------------------------------------ the promises

  /** Exactly when a payout is both paid and refunded, whatever claims, lost leases,
      crashes, retries, replays, prunings and signals the runtime sees. */
  lemma PaidAndRefundedIff(reg: Registry, work: Work, xs: seq<Joint>, ls: seq<JointLabel>)
    requires Registered(reg, work) && Execution(reg, work, xs, ls) && AtFirst(work, xs[0])
    ensures var lines := xs[|ls|].books.lines;
            L.HasLine(lines, work.p.id, L.Post) && L.HasLine(lines, work.p.id, L.Release)
            <==> L.HasLine(lines, work.p.id, L.Post) && LateBy(work, xs, ls, |ls|)
  {
    var ms := Refines(reg, work, xs, ls, |ls|);
    P.PaidAndRefundedIff(work.p, WorldOf(work, xs[0]), ms);
  }

  /** A payout of which one job runs at a time is never both paid and refunded. */
  lemma NeverPaidAndRefunded(reg: Registry, work: Work, xs: seq<Joint>, ls: seq<JointLabel>)
    requires Registered(reg, work) && Execution(reg, work, xs, ls) && AtFirst(work, xs[0])
    requires OneByOne(work, xs, ls, |ls|)
    ensures var lines := xs[|ls|].books.lines;
            !(L.HasLine(lines, work.p.id, L.Post) && L.HasLine(lines, work.p.id, L.Release))
    ensures var x := xs[|ls|];
            var transfer := B.Lookup(x.rail.transfers, P.TransferKey(work.p.id));
            && (L.HasLine(x.books.lines, work.p.id, L.Post) ==> transfer.Some? && transfer.value.status == B.Settled)
            && (L.HasLine(x.books.lines, work.p.id, L.Release) ==> transfer.None? || transfer.value.status == B.Returned)
  {
    var ms := Refines(reg, work, xs, ls, |ls|);
    P.NeverPaidAndRefunded(work.p, WorldOf(work, xs[0]), ms);
  }

  /** What the run that computed a job's result had read. */
  lemma RunRead(reg: Registry, work: Work, y: Sys, run: Run)
    requires Registered(reg, work) && RunOk(reg, run, y.seen, y.store) && Mine(work, run) && NextAction(reg, run).Return?
    ensures var e := y.seen[run.job];
            && (forall n | 0 <= n < |STEP_NAMES| :: StepKey(n) in e.steps)
            && OrEmpty(NextAction(reg, run).result) == work.report(e.steps[StepKey(0)], e.steps[StepKey(1)])
  {
    ReturnsLast(reg, work, run);
    forall n | 0 <= n < |STEP_NAMES|
      ensures run.obs[n].Value? && Holds(y.seen[run.job], StepKey(n), run.obs[n].value)
    {
      StepRead(reg, work, run, n, y.seen, y.store.now);
    }
  }

  lemma ResultRead(reg: Registry, work: Work, y: Sys, j: JobId)
    requires Registered(reg, work) && Reachable(reg, y)
    requires j in y.store.jobs && IsMine(work, y.store.jobs[j].row) && y.store.jobs[j].row.status == Succeeded
    ensures var e := y.store.jobs[j];
            && (forall n | 0 <= n < |STEP_NAMES| :: StepKey(n) in e.steps)
            && e.row.result == Some(work.report(e.steps[StepKey(0)], e.steps[StepKey(1)]))
  {
    ReachableOk(reg, y);
    ReachableResults(reg, y);
    var r: nat :| Computed(reg, y, j, r);
    assert RunOk(reg, y.runs[r], y.seen, y.store);
    RunRead(reg, work, y, y.runs[r]);
  }

  lemma ReturnsLast(reg: Registry, work: Work, run: Run)
    requires Registered(reg, work) && Mine(work, run) && NextAction(reg, run).Return?
    ensures |run.obs| >= |STEP_NAMES|
    ensures NextAction(reg, run) == Return(Some(work.report(ViewOf(run.obs[0]), ViewOf(run.obs[1]))))
  {
    assert reg(work.kind, work.payload, Seen(run.obs)) == WorkflowOf(work, Seen(run.obs));
  }

  lemma StepRead(reg: Registry, work: Work, run: Run, n: nat, seen: map<JobId, Entry>, now: Time)
    requires Registered(reg, work) && Mine(work, run) && run.job in seen && ObsOk(reg, run, seen, now)
    requires n < |STEP_NAMES| && n < |run.obs|
    ensures run.obs[n].Value? && Holds(seen[run.job], StepKey(n), run.obs[n].value)
  {
    assert reg(work.kind, work.payload, Seen(run.obs[..n])) == WorkflowOf(work, Seen(run.obs[..n]));
    assert ObsMatches(reg(run.kind, run.payload, Seen(run.obs[..n])), run.obs[n], seen[run.job], seen, now);
  }

  /** When a payout's job has succeeded, the money is held and the rail has the transfer
      of that amount, all four steps are checkpointed, and the job's result is the report
      of the hold and the transfer that are. */
  lemma SucceededIsSent(reg: Registry, work: Work, xs: seq<Joint>, ls: seq<JointLabel>, j: JobId)
    requires Registered(reg, work) && Execution(reg, work, xs, ls) && AtFirst(work, xs[0])
    requires var s := xs[|ls|].y.store;
             j in s.jobs && IsMine(work, s.jobs[j].row) && s.jobs[j].row.status == Succeeded
    ensures var x := xs[|ls|];
            var transfer, e := B.Lookup(x.rail.transfers, P.TransferKey(work.p.id)), x.y.store.jobs[j];
            && L.HasLine(x.books.lines, work.p.id, L.Hold)
            && transfer.Some? && transfer.value.amount == work.p.amount
            && (forall n | 0 <= n < |STEP_NAMES| :: StepKey(n) in e.steps)
            && e.row.result == Some(work.report(e.steps[StepKey(0)], e.steps[StepKey(1)]))
  {
    var x := xs[|ls|];
    var ms := Refines(reg, work, xs, ls, |ls|);
    ResultRead(reg, work, x.y, j);
    P.TraceKept(true, work.p, WorldOf(work, xs[0]), ms);
    ReachableOk(reg, x.y);
    assert 1 in SavedOf(work, x.y)[j];
    assert P.SavedOk(P.ViewOf(work.p, WorldOf(work, x)), SavedOf(work, x.y)[j]);
  }
}
