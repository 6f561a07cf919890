/** Where checkpoints come from, and what that says about timers: no run gets past a timer
    before the job's creation plus the timer's duration. */
module Timers {
  import opened Values
  import opened StoreModel
  import opened StoreInvariant
  import opened Keys
  import opened Runtime
  import opened RuntimeInvariant
  import opened RuntimeSystem
  import opened Guarantees

  predicate Under(o: Obs, key: string) {
    !o.NoNap? && o.key == key
  }

  /** Nothing among the first `n` observations was under the key. */
  predicate NoneUnder(obs: seq<Obs>, n: nat, key: string) {
    n <= |obs| && forall m | 0 <= m < n :: !Under(obs[m], key)
  }

  /** The deadline of a timer that was taken at some time between the job's creation and now. */
  predicate LateEnough(a: Action, value: Json, created: Time, now: Time) {
    a.DoSleep? ==> value.Instant? && created + a.d <= value.at <= now + a.d
  }

  /** The run, as it was when it wrote the checkpoint: it came to the call for the first
      time under this key. */
  ghost predicate Wrote(reg: Registry, q: Run, key: string, seen: map<JobId, Entry>, s: State) {
    && RunOk(reg, q, seen, s) && q.phase.Gone?
    && NoneUnder(q.obs, |q.obs|, key)
    && Checkpointed(NextAction(reg, q)) && KeyFor(NextAction(reg, q)) == key
    && key in seen[q.job].steps
    && LateEnough(NextAction(reg, q), seen[q.job].steps[key], seen[q.job].row.createdAt, s.now)
  }

  ghost predicate HasWriter(reg: Registry, j: JobId, key: string, seen: map<JobId, Entry>, s: State) {
    exists q: Run :: q.job == j && Wrote(reg, q, key, seen, s)
  }

  ghost predicate AllWritten(reg: Registry, y: Sys) {
    forall j, key | j in y.seen && key in y.seen[j].steps :: HasWriter(reg, j, key, y.seen, y.store)
  }

  /** A run on its way to writing a timer's checkpoint. */
  ghost predicate OnTime(reg: Registry, run: Run, seen: map<JobId, Entry>, now: Time)
    requires run.job in seen
  {
    run.phase.Produced? || run.phase.Owned? ==>
      LateEnough(NextAction(reg, run), run.phase.value, seen[run.job].row.createdAt, now)
  }

  predicate CreatedBefore(seen: map<JobId, Entry>, now: Time) {
    forall j | j in seen :: seen[j].row.createdAt <= now
  }

  ghost predicate AllOnTime(reg: Registry, y: Sys) {
    forall r | 0 <= r < |y.runs| :: y.runs[r].job in y.seen && OnTime(reg, y.runs[r], y.seen, y.store.now)
  }

  // -------------------------------------------------------------- one label

  /** What one label makes of store and history, whatever it is. */
  lemma LabelAdvances(reg: Registry, y: Sys, l: Label)
    requires SysInv(reg, y) && LegalLabel(reg, y, l)
    ensures Advances(y.store, y.seen, Next(reg, y, l).store, Next(reg, y, l).seen)
  {
    StoreOfNext(reg, y, l);
    if OpOf(reg, y, l).Some? {
      OpAdvances(y.store, OpOf(reg, y, l).value, y.seen);
    } else {
      NothingAdvances(y.store, y.seen);
    }
  }

  lemma WriterStays(reg: Registry, q: Run, key: string, y: Sys, seen': map<JobId, Entry>, s': State)
    requires SeenOk(y.store, y.seen) && Advances(y.store, y.seen, s', seen') && Wrote(reg, q, key, y.seen, y.store)
    ensures Wrote(reg, q, key, seen', s')
  {
    OthersKept(reg, q, y.store, y.seen, s', seen');
    assert Grows(y.seen[q.job], seen'[q.job]);
  }

  /** Only the insert of a checkpoint adds one. */
  lemma NewStep(s: State, op: Op, j: JobId, key: string)
    requires j in Apply(s, op).jobs && key in Apply(s, op).jobs[j].steps && !op.SaveStep?
    requires !(j in s.jobs && key in s.jobs[j].steps)
    ensures op.InsertStep? && op.job == j && op.key == key && j in s.jobs && Apply(s, op).jobs[j].steps[key] == op.value
  {
    RowsAfter(s, op, j);
    if j !in Born(s, op) && !op.InsertStep? {
      StepsKept(op, s.now, j, s.jobs[j]);
    }
  }

  lemma Inserter(reg: Registry, y: Sys, l: Label)
    requires LegalLabel(reg, y, l) && OpOf(reg, y, l).Some?
    ensures !OpOf(reg, y, l).value.SaveStep?
    ensures OpOf(reg, y, l).value.InsertStep? ==>
              && l.Move? && l.r < |y.runs| && y.runs[l.r].phase.Owned? && Checkpointed(NextAction(reg, y.runs[l.r]))
              && OpOf(reg, y, l).value == InsertStep(y.runs[l.r].job, KeyFor(NextAction(reg, y.runs[l.r])), y.runs[l.r].phase.value)
  {
    if l.Move? { WriteKinds(reg, y.store, y.runs[l.r], l.c); }
  }

  /** A run that has seen something under the key has its checkpoint in the store. */
  lemma SeenIsStored(reg: Registry, run: Run, seen: map<JobId, Entry>, s: State, key: string)
    requires RunOk(reg, run, seen, s) && key !in seen[run.job].steps
    ensures NoneUnder(run.obs, |run.obs|, key)
  {
    forall m | 0 <= m < |run.obs|
      ensures !Under(run.obs[m], key)
    {
      assert ObsMatches(ActionAt(reg, run, m), run.obs[m], seen[run.job], seen, s.now);
    }
  }

  lemma NewWriter(reg: Registry, y: Sys, l: Label, j: JobId, key: string)
    requires SysInv(reg, y) && AllOnTime(reg, y) && LegalLabel(reg, y, l)
    requires j in Next(reg, y, l).seen && key in Next(reg, y, l).seen[j].steps && !(j in y.seen && key in y.seen[j].steps)
    ensures HasWriter(reg, j, key, Next(reg, y, l).seen, Next(reg, y, l).store)
  {
    var y' := Next(reg, y, l);
    StoreOfNext(reg, y, l);
    LabelAdvances(reg, y, l);
    Inserter(reg, y, l);
    NewStep(y.store, OpOf(reg, y, l).value, j, key);
    var run := y.runs[l.r];
    var q := run.(phase := Gone);
    OthersKept(reg, run, y.store, y.seen, y'.store, y'.seen);
    RephaseOk(reg, run, Gone, y'.seen, y'.store);
    SeenIsStored(reg, run, y.seen, y.store, key);
    assert Grows(y.seen[j], y'.seen[j]);
    assert NextAction(reg, q) == NextAction(reg, run);
    assert Wrote(reg, q, key, y'.seen, y'.store);
  }

  lemma WrittenStep(reg: Registry, y: Sys, l: Label, j: JobId, key: string)
    requires SysInv(reg, y) && AllOnTime(reg, y) && AllWritten(reg, y) && LegalLabel(reg, y, l)
    requires j in Next(reg, y, l).seen && key in Next(reg, y, l).seen[j].steps
    ensures HasWriter(reg, j, key, Next(reg, y, l).seen, Next(reg, y, l).store)
  {
    if j in y.seen && key in y.seen[j].steps {
      var q: Run :| q.job == j && Wrote(reg, q, key, y.seen, y.store);
      LabelAdvances(reg, y, l);
      WriterStays(reg, q, key, y, Next(reg, y, l).seen, Next(reg, y, l).store);
    } else {
      NewWriter(reg, y, l, j, key);
    }
  }

  // ------------------------------------------------------ runs on their way

  lemma CreatedStep(s: State, op: Op, j: JobId)
    requires Inv(s) && Legal(s, op) && j in Apply(s, op).jobs
    ensures Apply(s, op).jobs[j].row.createdAt <= Apply(s, op).now
  {
    InvKept(s, op);
    assert EntryOk(Apply(s, op).jobs[j], Apply(s, op).now);
  }

  lemma CreatedKept(reg: Registry, y: Sys, l: Label)
    requires SysInv(reg, y) && CreatedBefore(y.seen, y.store.now) && LegalLabel(reg, y, l)
    ensures CreatedBefore(Next(reg, y, l).seen, Next(reg, y, l).store.now)
  {
    var y' := Next(reg, y, l);
    StoreOfNext(reg, y, l);
    LabelAdvances(reg, y, l);
    forall j | j in y'.seen
      ensures y'.seen[j].row.createdAt <= y'.store.now
    {
      if OpOf(reg, y, l).Some? && j in y'.store.jobs {
        CreatedStep(y.store, OpOf(reg, y, l).value, j);
      } else {
        assert y'.seen[j] == y.seen[j];
      }
    }
  }

  /** A timer's deadline is taken now, and kept from there. */
  lemma CallOnTime(reg: Registry, s: State, run: Run, c: Choice, seen: map<JobId, Entry>)
    requires RunOk(reg, run, seen, s) && OnTime(reg, run, seen, s.now) && seen[run.job].row.createdAt <= s.now
    requires Checkpointed(NextAction(reg, run))
    ensures var run' := StepCheckpointed(s, run, NextAction(reg, run), c).1; run'.job == run.job && OnTime(reg, run', seen, s.now)
  {
    var a := NextAction(reg, run);
    var run' := StepCheckpointed(s, run, a, c).1;
    match run.phase
    case Missed => assert NextAction(reg, run') == a;
    case Delivered(_) => assert a.DoWait? && NextAction(reg, run') == a;
    case Produced(_) => assert NextAction(reg, run') == a;
    case _ =>
  }

  lemma MoverOnTime(reg: Registry, s: State, run: Run, c: Choice, seen: map<JobId, Entry>)
    requires RunOk(reg, run, seen, s) && OnTime(reg, run, seen, s.now) && seen[run.job].row.createdAt <= s.now
    ensures StepRun(reg, s, run, c).1.job == run.job && OnTime(reg, StepRun(reg, s, run, c).1, seen, s.now)
  {
    if !c.Break? && !run.phase.Ready? && Checkpointed(NextAction(reg, run)) {
      CallOnTime(reg, s, run, c, seen);
    }
  }

  lemma OnTimeStays(reg: Registry, run: Run, seen: map<JobId, Entry>, now: Time, seen': map<JobId, Entry>, now': Time)
    requires run.job in seen && OnTime(reg, run, seen, now) && SeenGrows(seen, seen') && now <= now'
    ensures run.job in seen' && OnTime(reg, run, seen', now')
  {
    assert Grows(seen[run.job], seen'[run.job]);
  }

  lemma RunsKnown(reg: Registry, y: Sys, r: nat)
    requires SysInv(reg, y) && r < |y.runs|
    ensures y.runs[r].job in y.seen && RunOk(reg, y.runs[r], y.seen, y.store)
  {
  }

  /** The run that a label moves, and the others. */
  lemma RunAfter(reg: Registry, y: Sys, l: Label, r: nat)
    requires LegalLabel(reg, y, l) && r < |y.runs|
    ensures r < |Next(reg, y, l).runs|
    ensures var run' := Next(reg, y, l).runs[r];
            if l.Move? && l.r == r then run' == StepRun(reg, y.store, y.runs[r], l.c).1
            else run' == y.runs[r] || run'.phase.Gone?
  {
  }

  lemma BegunRuns(reg: Registry, y: Sys, l: Label, r: nat)
    requires LegalLabel(reg, y, l) && |y.runs| <= r < |Next(reg, y, l).runs|
    ensures Next(reg, y, l).runs[r].phase.Ready?
  {
  }

  lemma OnTimeStep(reg: Registry, y: Sys, l: Label, r: nat)
    requires SysInv(reg, y) && AllOnTime(reg, y) && CreatedBefore(y.seen, y.store.now) && LegalLabel(reg, y, l)
    requires r < |Next(reg, y, l).runs| && Next(reg, y, l).runs[r].job in Next(reg, y, l).seen
    ensures OnTime(reg, Next(reg, y, l).runs[r], Next(reg, y, l).seen, Next(reg, y, l).store.now)
  {
    var y' := Next(reg, y, l);
    LabelAdvances(reg, y, l);
    if r < |y.runs| {
      RunsKnown(reg, y, r);
      RunAfter(reg, y, l, r);
      OneRunOnTime(reg, y.store, y.runs[r], if l.Move? && l.r == r then Some(l.c) else None, y.seen, y'.runs[r], y'.seen, y'.store.now);
    } else {
      BegunRuns(reg, y, l, r);
    }
  }

  /** One run over one label: it moves, or stands, or is gone. */
  lemma OneRunOnTime(reg: Registry, s: State, run: Run, c: Option<Choice>, seen: map<JobId, Entry>,
                     run': Run, seen': map<JobId, Entry>, now': Time)
    requires RunOk(reg, run, seen, s) && OnTime(reg, run, seen, s.now) && seen[run.job].row.createdAt <= s.now
    requires if c.Some? then run' == StepRun(reg, s, run, c.value).1 else run' == run || run'.phase.Gone?
    requires SeenGrows(seen, seen') && s.now <= now' && run'.job in seen'
    ensures OnTime(reg, run', seen', now')
  {
    if c.Some? {
      MoverOnTime(reg, s, run, c.value, seen);
    }
    if !run'.phase.Gone? {
      OnTimeStays(reg, run', seen, s.now, seen', now');
    }
  }

  ghost predicate TimersOk(reg: Registry, y: Sys) {
    AllWritten(reg, y) && AllOnTime(reg, y) && CreatedBefore(y.seen, y.store.now)
  }

  lemma TimersKept(reg: Registry, y: Sys, l: Label)
    requires SysInv(reg, y) && TimersOk(reg, y) && LegalLabel(reg, y, l)
    ensures SysInv(reg, Next(reg, y, l)) && TimersOk(reg, Next(reg, y, l))
  {
    var y' := Next(reg, y, l);
    NextKept(reg, y, l);
    CreatedKept(reg, y, l);
    forall j, key | j in y'.seen && key in y'.seen[j].steps
      ensures HasWriter(reg, j, key, y'.seen, y'.store)
    {
      WrittenStep(reg, y, l, j, key);
    }
    forall r | 0 <= r < |y'.runs|
      ensures y'.runs[r].job in y'.seen && OnTime(reg, y'.runs[r], y'.seen, y'.store.now)
    {
      RunsKnown(reg, y', r);
      OnTimeStep(reg, y, l, r);
    }
  }

  lemma {:induction false} TimersAlways(reg: Registry, y: Sys, ls: seq<Label>)
    requires SysInv(reg, y) && TimersOk(reg, y) && LegalTrace(reg, y, ls)
    ensures TimersOk(reg, Trace(reg, y, ls))
    decreases |ls|
  {
    if ls != [] {
      TimersKept(reg, y, ls[0]);
      TimersAlways(reg, Next(reg, y, ls[0]), ls[1..]);
    }
  }

  lemma ReachableTimers(reg: Registry, y: Sys)
    requires Reachable(reg, y)
    ensures TimersOk(reg, y)
  {
    var ls :| LegalTrace(reg, EMPTY_SYS, ls) && Trace(reg, EMPTY_SYS, ls) == y;
    EmptyOk(reg);
    TimersAlways(reg, EMPTY_SYS, ls);
  }

  // -------------------------------------------------------------- deadlines

  /** The run that wrote a checkpoint came to the same call as every other run does when it
      comes to the key for the first time. */
  lemma SameFirstCall(reg: Registry, q: Run, run: Run, k: nat, key: string, seen: map<JobId, Entry>, s: State)
    requires Wrote(reg, q, key, seen, s) && RunOk(reg, run, seen, s) && q.job == run.job
    requires k < |run.obs| && Under(run.obs[k], key) && NoneUnder(run.obs, k, key)
    ensures NextAction(reg, q) == ActionAt(reg, run, k)
  {
    var n := if |q.obs| <= k then |q.obs| else k;
    AgreeUpTo(reg, q, run, seen, s, n);
    if |q.obs| > k {
      OneMoreAgrees(reg, q, run, k, seen, s);
    } else if |q.obs| < k {
      assert q.obs[..|q.obs|] == q.obs;
      KeyOfCall(reg, run, |q.obs|, seen, s);
    } else {
      assert q.obs[..k] == q.obs;
    }
  }

  lemma OneMoreAgrees(reg: Registry, q: Run, run: Run, k: nat, seen: map<JobId, Entry>, s: State)
    requires RunOk(reg, q, seen, s) && RunOk(reg, run, seen, s) && q.job == run.job && k < |run.obs| && k < |q.obs|
    ensures q.obs[k] == run.obs[k]
  {
    AgreeUpTo(reg, q, run, seen, s, k + 1);
    assert q.obs[..k + 1][k] == q.obs[k] && run.obs[..k + 1][k] == run.obs[k];
  }

  lemma KeyOfCall(reg: Registry, run: Run, n: nat, seen: map<JobId, Entry>, s: State)
    requires RunOk(reg, run, seen, s) && n < |run.obs| && Checkpointed(ActionAt(reg, run, n))
    ensures Under(run.obs[n], KeyFor(ActionAt(reg, run, n)))
  {
    assert ObsMatches(ActionAt(reg, run, n), run.obs[n], seen[run.job], seen, s.now);
  }

  /** A deadline that a run waited for is at least the creation of its job plus the duration
      of the run's first sleep under that key. So no run gets past a timer earlier than that:
      observation `i` is a timer's, and call `k` the first under its key. */
  lemma NeverTooEarly(reg: Registry, y: Sys, r: nat, i: nat, k: nat)
    requires Reachable(reg, y) && r < |y.runs| && k <= i < |y.runs[r].obs| && y.runs[r].obs[i].Woke?
    requires Under(y.runs[r].obs[k], y.runs[r].obs[i].key) && NoneUnder(y.runs[r].obs, k, y.runs[r].obs[i].key)
    requires ActionAt(reg, y.runs[r], k).DoSleep?
    ensures var run := y.runs[r];
            && run.job in y.seen && (run.job in y.store.jobs ==> y.store.jobs[run.job] == y.seen[run.job])
            && y.seen[run.job].row.createdAt + ActionAt(reg, run, k).d <= run.obs[i].at <= y.store.now
  {
    ReachableOk(reg, y);
    ReachableTimers(reg, y);
    RunsKnown(reg, y, r);
    DeadlineBound(reg, y, y.runs[r], i, k);
  }

  lemma DeadlineBound(reg: Registry, y: Sys, run: Run, i: nat, k: nat)
    requires AllWritten(reg, y) && RunOk(reg, run, y.seen, y.store) && k <= i < |run.obs| && run.obs[i].Woke?
    requires Under(run.obs[k], run.obs[i].key) && NoneUnder(run.obs, k, run.obs[i].key) && ActionAt(reg, run, k).DoSleep?
    ensures y.seen[run.job].row.createdAt + ActionAt(reg, run, k).d <= run.obs[i].at <= y.store.now
  {
    var key := run.obs[i].key;
    TimerStored(reg, y, run, i);
    assert HasWriter(reg, run.job, key, y.seen, y.store);
    var q: Run :| q.job == run.job && Wrote(reg, q, key, y.seen, y.store);
    SameFirstCall(reg, q, run, k, key, y.seen, y.store);
  }

  /** What a job that keeps to the naming contract has stored for a timer is the deadline of
      a sleep under that name, with its duration added to a time between the job's creation
      and now. */
  lemma StoredDeadline(reg: Registry, y: Sys, job: JobId, path: seq<string>, name: string)
    requires Reachable(reg, y) && PathOk(path) && '/' !in name
    requires var s := y.store;
             job in s.jobs && JobWellNamed(reg, s.jobs[job]) && StoredKey(path, TimerCall(name)) in s.jobs[job].steps
    ensures exists d, at :: TimerOf(reg, y.store.jobs[job], path, name, d, at, y.store.now)
  {
    ReachableOk(reg, y);
    ReachableTimers(reg, y);
    assert y.seen[job] == y.store.jobs[job];
    StoredByTimer(reg, y, job, path, name);
  }

  /** The workflow sleeps for `d` under the name at some point, and the deadline is `at`. */
  ghost predicate TimerOf(reg: Registry, e: Entry, path: seq<string>, name: string, d: Time, at: Time, now: Time) {
    && Holds(e, StoredKey(path, TimerCall(name)), Instant(at))
    && d > 0 && e.row.createdAt + d <= at <= now + d
    && exists hist :: reg(e.row.kind, e.row.payload, hist) == DoSleep(path, name, d)
  }

  lemma StoredByTimer(reg: Registry, y: Sys, job: JobId, path: seq<string>, name: string)
    requires AllWritten(reg, y) && PathOk(path) && '/' !in name
    requires job in y.seen && JobWellNamed(reg, y.seen[job]) && StoredKey(path, TimerCall(name)) in y.seen[job].steps
    ensures exists d, at :: TimerOf(reg, y.seen[job], path, name, d, at, y.store.now)
  {
    var e, key := y.seen[job], StoredKey(path, TimerCall(name));
    assert HasWriter(reg, job, key, y.seen, y.store);
    var q: Run :| q.job == job && Wrote(reg, q, key, y.seen, y.store);
    var a := NextAction(reg, q);
    assert a == reg(e.row.kind, e.row.payload, Seen(q.obs));
    KeysDoNotCollide(path, TimerCall(name), a.path, CallOf(a));
    assert a == DoSleep(path, name, a.d);
    assert TimerOf(reg, e, path, name, a.d, e.steps[key].at, y.store.now);
  }

  /** In particular, when a name is used with one duration only. */
  lemma OneDuration(reg: Registry, y: Sys, job: JobId, path: seq<string>, name: string, d: Time)
    requires Reachable(reg, y) && PathOk(path) && '/' !in name
    requires var s := y.store;
             job in s.jobs && JobWellNamed(reg, s.jobs[job]) && StoredKey(path, TimerCall(name)) in s.jobs[job].steps
    requires var row := y.store.jobs[job].row;
             forall hist :: var a := reg(row.kind, row.payload, hist);
               a.DoSleep? && a.path == path && a.name == name ==> a.d == d
    ensures var e, key := y.store.jobs[job], StoredKey(path, TimerCall(name));
            e.steps[key].Instant? && e.row.createdAt + d <= e.steps[key].at <= y.store.now + d
  {
    var e := y.store.jobs[job];
    StoredDeadline(reg, y, job, path, name);
    var d', at :| TimerOf(reg, e, path, name, d', at, y.store.now);
    var hist :| reg(e.row.kind, e.row.payload, hist) == DoSleep(path, name, d');
  }
}
