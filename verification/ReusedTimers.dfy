/** A timer's name used twice in one workflow: the second sleep gets the first deadline. */
module ReusedTimers {
  import opened Values
  import opened Jobs
  import opened StoreModel
  import opened Keys
  import opened Runtime
  import opened RuntimeInvariant
  import opened Guarantees
  import opened ChildQueues
  import opened Uninterrupted
  import opened Timers

  /** A workflow that sleeps for `d` and then, under the same name, for `e`. */
  function Naps(d: Time, e: Time): Registry {
    (kind, payload, hist) =>
      if |hist| == 0 then DoSleep([], "nap", d) else if |hist| == 1 then DoSleep([], "nap", e) else Return(None)
  }

  const NAP := EnqueueRequest("", "naps", None, "", 1, Some(0), None)
  const NAP_ROW := NewRow("default", "naps", EmptyObject, None, 1, 0, None, 0)
  const NAP_CLAIM := Claim("worker", "", SECOND, 1, {}, {"job"})

  lemma NapEnqueued(reg: Registry) returns (y: Sys)
    ensures Reachable(reg, y) && y.runs == [] && y.store.now == 0
    ensures y.store.jobs == map["job" := Entry(NAP_ROW, map[], [], [Enqueued])]
  {
    var ls: seq<Label> := [];
    assert LegalTrace(reg, EMPTY_SYS, ls) && Trace(reg, EMPTY_SYS, ls) == EMPTY_SYS;
    ReachableNext(reg, EMPTY_SYS, Env(Enqueue(NAP, "job")));
    y := Next(reg, EMPTY_SYS, Env(Enqueue(NAP, "job")));
  }

  const NAP_KEY := StoredKey([], TimerCall("nap"))

  /** The job runs, with its timer stored or not, and this is its one run. */
  ghost predicate Napping(reg: Registry, y: Sys, now: Time, steps: map<string, Json>, obs: seq<Obs>, phase: Phase) {
    && Reachable(reg, y) && y.store.now == now
    && "job" in y.store.jobs && y.store.jobs["job"].row.createdAt == 0 && y.store.jobs["job"].steps == steps
    && OwnsJob(y.store, "job", "worker")
    && |y.runs| == 1 && y.runs[0].job == "job" && y.runs[0].worker == "worker" && y.runs[0].obs == obs && y.runs[0].phase == phase
  }

  lemma NapClaimable(s: State)
    requires s.jobs == map["job" := Entry(NAP_ROW, map[], [], [Enqueued])] && s.now == 0
    ensures Legal(s, NAP_CLAIM) && NAP_CLAIM.picked <= s.jobs.Keys
    ensures Apply(s, NAP_CLAIM).jobs.Keys == {"job"} && Apply(s, NAP_CLAIM).now == 0
    ensures Apply(s, NAP_CLAIM).jobs["job"] == ClaimedEntry(s.jobs["job"], "worker", SECOND, 0)
  {
    assert Claimable(s.jobs["job"].row, "default", 0);
    assert Available(s, "default", {}) == {"job"};
  }

  lemma NapStarted(reg: Registry, y: Sys) returns (y': Sys)
    requires Reachable(reg, y) && y.runs == [] && y.store.now == 0
    requires y.store.jobs == map["job" := Entry(NAP_ROW, map[], [], [Enqueued])]
    ensures Napping(reg, y', 0, map[], [], Ready)
  {
    NapClaimable(y.store);
    StartLabel(reg, y, "job", NAP_CLAIM);
    ReachableNext(reg, y, Start(NAP_CLAIM, ["job"]));
    y' := Next(reg, y, Start(NAP_CLAIM, ["job"]));
  }

  /** A move that writes nothing. */
  lemma NapMoves(reg: Registry, y: Sys, now: Time, steps: map<string, Json>, obs: seq<Obs>, phase: Phase, run': Run) returns (y': Sys)
    requires Napping(reg, y, now, steps, obs, phase) && StepRun(reg, y.store, y.runs[0], Go) == (None, run')
    requires run'.job == "job" && run'.worker == "worker"
    ensures Napping(reg, y', now, steps, run'.obs, run'.phase)
  {
    ReachableNext(reg, y, Move(0, Go));
    y' := Next(reg, y, Move(0, Go));
  }

  lemma NapCalls(d: Time, e: Time, run: Run)
    requires d > 0 && e > 0 && |run.obs| <= 1
    ensures NextAction(Naps(d, e), run) == DoSleep([], "nap", if |run.obs| == 0 then d else e)
    ensures KeyFor(NextAction(Naps(d, e), run)) == NAP_KEY
  {
  }

  /** The first sleep takes its deadline, and the run is about to write it. */
  lemma NapTaken(d: Time, e: Time, y: Sys) returns (y': Sys)
    requires d > 0 && e > 0 && Napping(Naps(d, e), y, 0, map[], [], Ready)
    ensures Napping(Naps(d, e), y', 0, map[], [], Owned(Instant(d)))
  {
    var reg := Naps(d, e);
    NapCalls(d, e, y.runs[0]);
    y' := NapMoves(reg, y, 0, map[], [], Ready, y.runs[0].(phase := Missed));
    NapCalls(d, e, y'.runs[0]);
    y' := NapMoves(reg, y', 0, map[], [], Missed, y'.runs[0].(phase := Produced(Instant(d))));
    NapCalls(d, e, y'.runs[0]);
    y' := NapMoves(reg, y', 0, map[], [], Produced(Instant(d)), y'.runs[0].(phase := Owned(Instant(d))));
  }

  lemma NapInserted(s: State, value: Json)
    requires "job" in s.jobs && s.jobs["job"].steps == map[] && OwnsJob(s, "job", "worker")
    ensures var op := InsertStep("job", NAP_KEY, value);
            && Legal(s, op) && Apply(s, op).now == s.now && "job" in Apply(s, op).jobs
            && Apply(s, op).jobs["job"].steps == map[NAP_KEY := value]
            && Apply(s, op).jobs["job"].row == s.jobs["job"].row
            && InsertedEntry(s.jobs["job"], NAP_KEY, value).steps == map[NAP_KEY := value]
  {
  }

  lemma NapStored(d: Time, e: Time, y: Sys) returns (y': Sys)
    requires d > 0 && e > 0 && Napping(Naps(d, e), y, 0, map[], [], Owned(Instant(d)))
    ensures Napping(Naps(d, e), y', 0, map[NAP_KEY := Instant(d)], [], Loaded(Instant(d)))
  {
    var reg := Naps(d, e);
    NapCalls(d, e, y.runs[0]);
    NapInserted(y.store, Instant(d));
    var op := InsertStep("job", NAP_KEY, Instant(d));
    assert StepRun(reg, y.store, y.runs[0], Go) == (Some(op), y.runs[0].(phase := Loaded(Instant(d))));
    ReachableNext(reg, y, Move(0, Go));
    y' := Next(reg, y, Move(0, Go));
  }

  lemma NapTicked(reg: Registry, d: Time, y: Sys) returns (y': Sys)
    requires d > 0 && Napping(reg, y, 0, map[NAP_KEY := Instant(d)], [], Loaded(Instant(d)))
    ensures Napping(reg, y', d, map[NAP_KEY := Instant(d)], [], Loaded(Instant(d)))
  {
    ReachableNext(reg, y, Env(Tick(d)));
    y' := Next(reg, y, Env(Tick(d)));
  }

  /** At its deadline the run gets past the first sleep, */
  lemma NapOver(d: Time, e: Time, y: Sys) returns (y': Sys)
    requires d > 0 && e > 0 && Napping(Naps(d, e), y, d, map[NAP_KEY := Instant(d)], [], Loaded(Instant(d)))
    ensures Napping(Naps(d, e), y', d, map[NAP_KEY := Instant(d)], [Woke(NAP_KEY, d)], Ready)
  {
    NapCalls(d, e, y.runs[0]);
    assert [] + [Woke(NAP_KEY, d)] == [Woke(NAP_KEY, d)];
    y' := NapMoves(Naps(d, e), y, d, map[NAP_KEY := Instant(d)], [], Loaded(Instant(d)),
                   y.runs[0].(obs := [Woke(NAP_KEY, d)], phase := Ready));
  }

  /** and at once past the second. */
  lemma NapPassed(d: Time, e: Time, y: Sys) returns (y': Sys)
    requires d > 0 && e > 0 && Napping(Naps(d, e), y, d, map[NAP_KEY := Instant(d)], [Woke(NAP_KEY, d)], Ready)
    ensures Napping(Naps(d, e), y', d, map[NAP_KEY := Instant(d)], [Woke(NAP_KEY, d), Woke(NAP_KEY, d)], Ready)
  {
    var reg, steps, one := Naps(d, e), map[NAP_KEY := Instant(d)], [Woke(NAP_KEY, d)];
    assert one + one == [Woke(NAP_KEY, d), Woke(NAP_KEY, d)];
    NapCalls(d, e, y.runs[0]);
    y' := NapMoves(reg, y, d, steps, one, Ready, y.runs[0].(phase := Loaded(Instant(d))));
    NapCalls(d, e, y'.runs[0]);
    y' := NapMoves(reg, y', d, steps, one, Loaded(Instant(d)), y'.runs[0].(obs := one + one, phase := Ready));
  }

  /** Run `r` is past its second sleep earlier than the job's creation plus `e`. */
  ghost predicate WakesEarly(reg: Registry, e: Time, y: Sys, r: nat) {
    && Reachable(reg, y) && r < |y.runs| && y.runs[r].job in y.seen && |y.runs[r].obs| >= 2 && y.runs[r].obs[1].Woke?
    && y.runs[r].obs[1].at < y.seen[y.runs[r].job].row.createdAt + e
  }

  lemma CanWakeEarly(d: Time, e: Time) returns (y: Sys)
    requires 0 < d < e
    ensures WakesEarly(Naps(d, e), e, y, 0)
  {
    y := NapEnqueued(Naps(d, e));
    y := NapStarted(Naps(d, e), y);
    y := NapTaken(d, e, y);
    y := NapStored(d, e, y);
    y := NapTicked(Naps(d, e), d, y);
    y := NapOver(d, e, y);
    y := NapPassed(d, e, y);
    ReachableOk(Naps(d, e), y);
  }

  lemma NeverWakesEarly(d: Time, e: Time, y: Sys, r: nat)
    requires 0 < e <= d
    ensures !WakesEarly(Naps(d, e), e, y, r)
  {
    if WakesEarly(Naps(d, e), e, y, r) {
      var reg, run := Naps(d, e), y.runs[r];
      ReachableOk(reg, y);
      assert RunOk(reg, run, y.seen, y.store);
      assert ActionAt(reg, run, 0) == DoSleep([], "nap", d);
      assert ActionAt(reg, run, 1) == DoSleep([], "nap", e);
      assert ObsMatches(ActionAt(reg, run, 0), run.obs[0], y.seen[run.job], y.seen, y.store.now);
      assert ObsMatches(ActionAt(reg, run, 1), run.obs[1], y.seen[run.job], y.seen, y.store.now);
      NeverTooEarly(reg, y, r, 1, 0);
    }
  }

  /** Why names have to be unique. The second of two sleeps under one name lasts its
      duration in all executions iff the first one was no shorter: its checkpoint is found,
      and the duration of the second call is not looked at. */
  lemma ReusedNameIff(d: Time, e: Time)
    requires d > 0 && e > 0
    ensures (forall y, r: nat :: !WakesEarly(Naps(d, e), e, y, r)) <==> e <= d
  {
    if e <= d {
      forall y, r: nat
        ensures !WakesEarly(Naps(d, e), e, y, r)
      {
        NeverWakesEarly(d, e, y, r);
      }
    } else {
      var y := CanWakeEarly(d, e);
      assert WakesEarly(Naps(d, e), e, y, 0);
    }
  }
}
