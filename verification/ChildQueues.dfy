/** Which queue a child goes to. */
module ChildQueues {
  import opened Values
  import opened Jobs
  import opened StoreModel
  import opened StoreInvariant
  import opened Runtime
  import opened RuntimeSystem
  import opened Guarantees
  import opened Uninterrupted

  lemma {:induction false} OneLabelMore(reg: Registry, y: Sys, ls: seq<Label>, l: Label)
    requires LegalTrace(reg, y, ls) && LegalLabel(reg, Trace(reg, y, ls), l)
    ensures LegalTrace(reg, y, ls + [l])
    ensures Trace(reg, y, ls + [l]) == Next(reg, Trace(reg, y, ls), l)
    decreases |ls|
  {
    if ls == [] {
      assert [l][1..] == [] && ls + [l] == [l];
    } else {
      OneLabelMore(reg, Next(reg, y, ls[0]), ls[1..], l);
      assert (ls + [l])[1..] == ls[1..] + [l];
    }
  }

  lemma ReachableNext(reg: Registry, y: Sys, l: Label)
    requires Reachable(reg, y) && LegalLabel(reg, y, l)
    ensures Reachable(reg, Next(reg, y, l))
  {
    var ls :| LegalTrace(reg, EMPTY_SYS, ls) && Trace(reg, EMPTY_SYS, ls) == y;
    OneLabelMore(reg, EMPTY_SYS, ls, l);
  }

  /** The enqueue that a run makes for a child. */
  lemma ChildEnqueue(reg: Registry, s: State, run: Run, id: JobId)
    requires run.phase.Missed? && NextAction(reg, run).DoChild?
    ensures StepRun(reg, s, run, FreshChild(id)).0 == Some(Enqueue(ChildRequest(run, NextAction(reg, run)), id))
  {
  }

  /** A child that a run creates goes to its parent's queue exactly when it is started
      outside of all activities, or when that queue is the default one. */
  lemma ChildQueue(reg: Registry, y: Sys, r: nat, id: JobId)
    requires Reachable(reg, y) && r < |y.runs| && y.runs[r].job in y.store.jobs
    requires y.runs[r].phase.Missed? && NextAction(reg, y.runs[r]).DoChild?
    requires LegalLabel(reg, y, Move(r, FreshChild(id)))
    requires id in Born(y.store, Enqueue(ChildRequest(y.runs[r], NextAction(reg, y.runs[r])), id))
    ensures var y' := Next(reg, y, Move(r, FreshChild(id)));
            var a, parent := NextAction(reg, y.runs[r]), y.store.jobs[y.runs[r].job].row;
            && id in y'.store.jobs && y'.store.jobs[id].row.parent == Some(y.runs[r].job)
            && (y'.store.jobs[id].row.queue == parent.queue <==> a.path == [] || parent.queue == "default")
  {
    ReachableOk(reg, y);
    var run := y.runs[r];
    ChildEnqueue(reg, y.store, run, id);
    ParentQueue(reg, y, run);
    BornQueue(y.store, run, NextAction(reg, run), id);
  }

  lemma ParentQueue(reg: Registry, y: Sys, run: Run)
    requires SysInv(reg, y) && run in y.runs && run.job in y.store.jobs
    ensures run.queue == y.store.jobs[run.job].row.queue != ""
  {
    assert EntryOk(y.store.jobs[run.job], y.store.now);
  }

  lemma BornQueue(s: State, run: Run, a: Action, id: JobId)
    requires a.DoChild? && run.queue != "" && id in Born(s, Enqueue(ChildRequest(run, a), id))
    ensures var s' := Apply(s, Enqueue(ChildRequest(run, a), id));
            && id in s'.jobs && s'.jobs[id].row.parent == Some(run.job)
            && s'.jobs[id].row.queue == if a.path == [] then run.queue else "default"
  {
  }

  // ------------------------------------------------------------ an instance

  /** A workflow that starts a child from inside the activity "charge". */
  function Charging(): Registry {
    (kind, payload, hist) =>
      if kind == "pay" then DoChild(["charge"], "receipt", "print", None) else Return(None)
  }

  const PAY := EnqueueRequest("payouts", "pay", None, "", 1, Some(0), None)
  const PAY_ROW := NewRow("payouts", "pay", EmptyObject, None, 1, 0, None, 0)
  const CLAIM := Claim("worker", "payouts", SECOND, 1, {}, {"parent"})

  lemma ParentEnqueued()
    ensures Reachable(Charging(), EMPTY_SYS) && LegalLabel(Charging(), EMPTY_SYS, Env(Enqueue(PAY, "parent")))
    ensures var y := Next(Charging(), EMPTY_SYS, Env(Enqueue(PAY, "parent")));
            && Reachable(Charging(), y) && y.runs == [] && y.store.now == 0 && y.store.issued == {"parent"}
            && y.store.jobs == map["parent" := Entry(PAY_ROW, map[], [], [Enqueued])]
  {
    var ls: seq<Label> := [];
    assert LegalTrace(Charging(), EMPTY_SYS, ls) && Trace(Charging(), EMPTY_SYS, ls) == EMPTY_SYS;
    ReachableNext(Charging(), EMPTY_SYS, Env(Enqueue(PAY, "parent")));
  }

  lemma ParentClaimable(s: State)
    requires s.jobs == map["parent" := Entry(PAY_ROW, map[], [], [Enqueued])] && s.now == 0
    ensures Legal(s, CLAIM) && CLAIM.picked <= s.jobs.Keys
  {
    assert Claimable(s.jobs["parent"].row, "payouts", 0);
    assert Available(s, "payouts", {}) == {"parent"};
  }

  lemma ParentClaimed(y: Sys) returns (y': Sys)
    requires Reachable(Charging(), y) && y.runs == [] && y.store.now == 0 && y.store.issued == {"parent"}
    requires y.store.jobs == map["parent" := Entry(PAY_ROW, map[], [], [Enqueued])]
    ensures Reachable(Charging(), y') && y'.store.jobs.Keys == {"parent"} == y'.store.issued
    ensures y'.store.jobs["parent"].row.queue == "payouts" && y'.store.jobs["parent"].steps == map[]
    ensures y'.store.jobs["parent"].row.idem == None
    ensures |y'.runs| == 1 && y'.runs[0].job == "parent" && y'.runs[0].kind == "pay" && y'.runs[0].phase.Ready?
    ensures y'.runs[0].queue == "payouts"
  {
    ParentClaimable(y.store);
    StartLabel(Charging(), y, "parent", CLAIM);
    ReachableNext(Charging(), y, Start(CLAIM, ["parent"]));
    y' := Next(Charging(), y, Start(CLAIM, ["parent"]));
    ClaimedParent(y.store);
  }

  lemma ClaimedParent(s: State)
    requires s.jobs == map["parent" := Entry(PAY_ROW, map[], [], [Enqueued])] && s.issued == {"parent"}
    ensures var s' := Apply(s, CLAIM);
            && s'.jobs.Keys == {"parent"} == s'.issued
            && s'.jobs["parent"] == ClaimedEntry(s.jobs["parent"], "worker", SECOND, s.now)
  {
  }

  lemma ParentLooks(y: Sys) returns (y': Sys)
    requires Reachable(Charging(), y) && y.store.jobs.Keys == {"parent"} == y.store.issued
    requires y.store.jobs["parent"].steps == map[] && |y.runs| == 1
    requires y.runs[0].job == "parent" && y.runs[0].kind == "pay" && y.runs[0].phase.Ready?
    ensures Reachable(Charging(), y') && y'.store == y.store && y'.runs == [y.runs[0].(phase := Missed)]
  {
    var run := y.runs[0];
    assert StepRun(Charging(), y.store, run, Go) == (None, run.(phase := Missed));
    ReachableNext(Charging(), y, Move(0, Go));
    y' := Next(Charging(), y, Move(0, Go));
  }

  lemma ParentStartsChild(y: Sys) returns (y': Sys)
    requires Reachable(Charging(), y) && y.store.jobs.Keys == {"parent"} == y.store.issued
    requires y.store.jobs["parent"].row.queue == "payouts" && y.store.jobs["parent"].row.idem == None
    requires |y.runs| == 1 && y.runs[0].job == "parent" && y.runs[0].kind == "pay" && y.runs[0].queue == "payouts"
    requires y.runs[0].phase.Missed?
    ensures Reachable(Charging(), y') && "parent" in y'.store.jobs && y'.store.jobs["parent"].row.queue == "payouts"
    ensures "child" in y'.store.jobs && y'.store.jobs["child"].row.parent == Some("parent")
    ensures y'.store.jobs["child"].row.queue == "default"
  {
    var run := y.runs[0];
    var a := NextAction(Charging(), run);
    assert a == DoChild(["charge"], "receipt", "print", None);
    ChildEnqueue(Charging(), y.store, run, "child");
    assert !HasKey(y.store, ChildRequest(run, a).idem);
    ReachableNext(Charging(), y, Move(0, FreshChild("child")));
    BornQueue(y.store, run, a, "child");
    y' := Next(Charging(), y, Move(0, FreshChild("child")));
  }

  /** A reachable state in which a job of queue "payouts" has a child on "default". */
  lemma ChildOnDefaultQueue() returns (y: Sys)
    ensures Reachable(Charging(), y)
    ensures && "parent" in y.store.jobs && y.store.jobs["parent"].row.queue == "payouts"
            && "child" in y.store.jobs && y.store.jobs["child"].row.parent == Some("parent")
            && y.store.jobs["child"].row.queue == "default"
  {
    ParentEnqueued();
    y := Next(Charging(), EMPTY_SYS, Env(Enqueue(PAY, "parent")));
    y := ParentClaimed(y);
    y := ParentLooks(y);
    y := ParentStartsChild(y);
  }
}
