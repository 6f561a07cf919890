/** What every run relies on and guarantees while other runs interleave. */
module RuntimeInvariant {
  import opened Values
  import opened Faults
  import opened Jobs
  import opened StoreModel
  import opened StoreInvariant
  import opened Keys
  import opened Runtime

  /** The rely condition: between two steps of a run, jobs only grow. */
  ghost predicate SeenGrows(seen: map<JobId, Entry>, seen': map<JobId, Entry>) {
    forall j | j in seen :: j in seen' && Grows(seen[j], seen'[j])
  }

  predicate IsDelivery(mail: seq<Mail>, name: string, index: int, value: Json) {
    0 <= index < |Named(mail, name)| && Named(mail, name)[index] == value
  }

  predicate IsChildOf(value: Json, job: JobId, name: string, seen: map<JobId, Entry>) {
    value.JobRef? && value.id in seen && seen[value.id].row.idem == Some(ChildKey(job, name))
  }

  predicate Holds(e: Entry, key: string, value: Json) {
    key in e.steps && e.steps[key] == value
  }

  /** The observation is the one that action `a` can return, given the entry of
      the job and of its children. */
  predicate ObsMatches(a: Action, o: Obs, e: Entry, seen: map<JobId, Entry>, now: Time) {
    match a
    case DoStep(_, _) => o.Value? && o.key == KeyFor(a) && Holds(e, o.key, o.value)
    case DoWait(_, _, index) => index >= 0 && o.Value? && o.key == KeyFor(a) && Holds(e, o.key, o.value)
    case DoSleep(_, _, d) =>
      if d <= 0 then o.NoNap?
      else o.Woke? && o.key == KeyFor(a) && Holds(e, o.key, Instant(o.at)) && o.at <= now
    case DoChild(_, _, _, _) =>
      && o.ChildDone? && o.key == KeyFor(a) && Holds(e, o.key, JobRef(o.child))
      && o.child in seen && seen[o.child].row.status == Succeeded && OrEmpty(seen[o.child].row.result) == o.result
    case _ => false
  }

  ghost predicate ObsOk(reg: Registry, run: Run, seen: map<JobId, Entry>, now: Time)
    requires run.job in seen
  {
    forall i | 0 <= i < |run.obs| ::
      ObsMatches(reg(run.kind, run.payload, Seen(run.obs[..i])), run.obs[i], seen[run.job], seen, now)
  }

  /** A wait that found nothing: unless a signal came in since the claim, the
      mailbox still holds too few deliveries. */
  predicate NapGuard(mail: seq<Mail>, wake: int, nap: (string, nat)) {
    |mail| == wake ==> |Named(mail, nap.0)| <= nap.1
  }

  ghost predicate PhaseOk(a: Action, run: Run, seen: map<JobId, Entry>, s: State)
    requires run.job in seen
  {
    var e := seen[run.job];
    match run.phase
    case Missed => Checkpointed(a)
    case Delivered(value) => a.DoWait? && IsDelivery(e.mail, a.name, a.index, value)
    case Produced(value) => ProductOk(a, run.job, e, value, seen)
    case Owned(value) => ProductOk(a, run.job, e, value, seen)
    case Loaded(value) => Checkpointed(a) && Holds(e, KeyFor(a), value)
    case Ended(outcome, nap) =>
      && (nap.Some? && run.job in s.jobs ==> NapGuard(e.mail, run.wake, nap.value))
      && (outcome.Returned? ==> a == Return(outcome.result))
      && (a.DoSleep? && outcome.Broken? ==> NapsUntilDeadline(a, e, FindSuspension(outcome.fault)))
    case _ => true
  }

  /** A timer suspends its run until the checkpointed deadline, and no other time. */
  predicate NapsUntilDeadline(a: Action, e: Entry, nap: Option<Time>)
    requires a.DoSleep?
  {
    nap.Some? ==> a.d > 0 && Holds(e, KeyFor(a), Instant(nap.value))
  }

  predicate ProductOk(a: Action, job: JobId, e: Entry, value: Json, seen: map<JobId, Entry>) {
    && Checkpointed(a)
    && (a.DoWait? ==> IsDelivery(e.mail, a.name, a.index, value))
    && (a.DoChild? ==> IsChildOf(value, job, a.name, seen))
  }

  ghost predicate RunOk(reg: Registry, run: Run, seen: map<JobId, Entry>, s: State) {
    && run.job in seen
    && run.kind == seen[run.job].row.kind && run.payload == seen[run.job].row.payload
    && run.queue == seen[run.job].row.queue
    && run.wake <= |seen[run.job].mail|
    && ObsOk(reg, run, seen, s.now)
    && PhaseOk(NextAction(reg, run), run, seen, s)
  }

  /** `seen` is the store as long as a job exists, and its last word afterwards. */
  predicate SeenOk(store: State, seen: map<JobId, Entry>) {
    && (forall j | j in store.jobs :: j in seen && seen[j] == store.jobs[j])
    && seen.Keys <= store.issued
  }

  // -------------------------------------------------------------- stability

  predicate StaysGone(s: State, s': State, job: JobId) {
    job in s'.jobs ==> job in s.jobs
  }

  lemma DeliveryStable(mail: seq<Mail>, mail': seq<Mail>, name: string, index: int, value: Json)
    requires mail <= mail' && IsDelivery(mail, name, index, value)
    ensures IsDelivery(mail', name, index, value)
  {
    assert mail'[..|mail|] == mail;
    NamedPrefix(mail', |mail|, name);
  }

  lemma ObsStable(a: Action, o: Obs, job: JobId, seen: map<JobId, Entry>, now: Time, seen': map<JobId, Entry>, now': Time)
    requires SeenGrows(seen, seen') && now <= now' && job in seen && ObsMatches(a, o, seen[job], seen, now)
    ensures ObsMatches(a, o, seen'[job], seen', now')
  {
    assert Grows(seen[job], seen'[job]);
    if a.DoChild? {
      assert Grows(seen[o.child], seen'[o.child]);
    }
  }

  lemma ProductStable(a: Action, job: JobId, value: Json, seen: map<JobId, Entry>, seen': map<JobId, Entry>)
    requires SeenGrows(seen, seen') && job in seen && ProductOk(a, job, seen[job], value, seen)
    ensures ProductOk(a, job, seen'[job], value, seen')
  {
    assert Grows(seen[job], seen'[job]);
    if a.DoWait? {
      DeliveryStable(seen[job].mail, seen'[job].mail, a.name, a.index, value);
    }
    if a.DoChild? {
      assert Grows(seen[value.id], seen'[value.id]);
    }
  }

  lemma PhaseStable(a: Action, run: Run, seen: map<JobId, Entry>, s: State, seen': map<JobId, Entry>, s': State)
    requires SeenGrows(seen, seen') && StaysGone(s, s', run.job)
    requires run.job in seen && PhaseOk(a, run, seen, s) && run.wake <= |seen[run.job].mail|
    ensures PhaseOk(a, run, seen', s')
  {
    var e, e' := seen[run.job], seen'[run.job];
    assert Grows(e, e');
    match run.phase
    case Delivered(value) => DeliveryStable(e.mail, e'.mail, a.name, a.index, value);
    case Produced(value) => ProductStable(a, run.job, value, seen, seen');
    case Owned(value) => ProductStable(a, run.job, value, seen, seen');
    case Ended(_, nap) =>
      if |e'.mail| == run.wake {
        assert e'.mail == e.mail;
      }
    case _ =>
  }

  /** Whatever the others do, a run keeps what it had. */
  lemma RunStable(reg: Registry, run: Run, seen: map<JobId, Entry>, s: State, seen': map<JobId, Entry>, s': State)
    requires SeenGrows(seen, seen') && s.now <= s'.now && StaysGone(s, s', run.job) && RunOk(reg, run, seen, s)
    ensures RunOk(reg, run, seen', s')
  {
    assert Grows(seen[run.job], seen'[run.job]);
    forall i | 0 <= i < |run.obs|
      ensures ObsMatches(reg(run.kind, run.payload, Seen(run.obs[..i])), run.obs[i], seen'[run.job], seen', s'.now)
    {
      ObsStable(reg(run.kind, run.payload, Seen(run.obs[..i])), run.obs[i], run.job, seen, s.now, seen', s'.now);
    }
    PhaseStable(NextAction(reg, run), run, seen, s, seen', s');
  }

  // ------------------------------------------------------- steps of one run

  lemma ObserveOk(reg: Registry, run: Run, seen: map<JobId, Entry>, s: State, o: Obs)
    requires RunOk(reg, run, seen, s) && ObsMatches(NextAction(reg, run), o, seen[run.job], seen, s.now)
    ensures RunOk(reg, Observe(run, o), seen, s)
  {
    var run' := Observe(run, o);
    forall i | 0 <= i < |run'.obs|
      ensures ObsMatches(reg(run.kind, run.payload, Seen(run'.obs[..i])), run'.obs[i], seen[run.job], seen, s.now)
    {
      if i < |run.obs| {
        assert run'.obs[..i] == run.obs[..i];
      } else {
        assert run'.obs[..i] == run.obs;
      }
    }
  }

  /** Only the phase changed, and the new phase is in order. */
  lemma RephaseOk(reg: Registry, run: Run, phase: Phase, seen: map<JobId, Entry>, s: State)
    requires RunOk(reg, run, seen, s)
    requires PhaseOk(NextAction(reg, run), run.(phase := phase), seen, s)
    ensures RunOk(reg, run.(phase := phase), seen, s)
  {
    var run' := run.(phase := phase);
    assert NextAction(reg, run') == NextAction(reg, run);
    assert ObsOk(reg, run', seen, s.now);
  }

  lemma BrokeOk(reg: Registry, run: Run, fault: Fault, seen: map<JobId, Entry>, s: State)
    requires RunOk(reg, run, seen, s) && (NextAction(reg, run).DoSleep? ==> FindSuspension(fault).None?)
    ensures RunOk(reg, Broke(run, fault), seen, s)
  {
    RephaseOk(reg, run, Ended(Broken(fault), None), seen, s);
  }

  lemma LookupOk(reg: Registry, s: State, run: Run, otherwise: Phase, seen: map<JobId, Entry>)
    requires RunOk(reg, run, seen, s) && SeenOk(s, seen) && Checkpointed(NextAction(reg, run))
    requires PhaseOk(NextAction(reg, run), run.(phase := otherwise), seen, s)
    ensures RunOk(reg, Lookup(s, run, KeyFor(NextAction(reg, run)), otherwise), seen, s)
  {
    var key := KeyFor(NextAction(reg, run));
    if run.job in s.jobs && key in s.jobs[run.job].steps {
      RephaseOk(reg, run, Loaded(s.jobs[run.job].steps[key]), seen, s);
    } else {
      RephaseOk(reg, run, otherwise, seen, s);
    }
  }

  lemma StartOk(reg: Registry, s: State, run: Run, seen: map<JobId, Entry>)
    requires RunOk(reg, run, seen, s) && SeenOk(s, seen)
    ensures RunOk(reg, StartAction(s, run, NextAction(reg, run)), seen, s)
  {
    var a := NextAction(reg, run);
    match a
    case Return(result) => RephaseOk(reg, run, Ended(Returned(result), None), seen, s);
    case Raise(fault) => BrokeOk(reg, run, fault, seen, s);
    case DoWait(_, _, index) =>
      if index < 0 {
        BrokeOk(reg, run, Plain("signal index out of range"), seen, s);
      } else {
        LookupOk(reg, s, run, Missed, seen);
      }
    case DoSleep(_, _, d) =>
      if d <= 0 {
        ObserveOk(reg, run, seen, s, NoNap);
      } else {
        LookupOk(reg, s, run, Missed, seen);
      }
    case _ => LookupOk(reg, s, run, Missed, seen);
  }

  lemma UseOk(reg: Registry, s: State, run: Run, value: Json, seen: map<JobId, Entry>)
    requires RunOk(reg, run, seen, s) && SeenOk(s, seen) && run.phase == Loaded(value)
    ensures RunOk(reg, UseCheckpoint(s, run, NextAction(reg, run), value), seen, s)
  {
    var a := NextAction(reg, run);
    var run' := UseCheckpoint(s, run, a, value);
    if run'.phase.Ended? {
      RephaseOk(reg, run, run'.phase, seen, s);
    } else {
      var o := run'.obs[|run.obs|];
      assert run' == Observe(run, o);
      ObserveOk(reg, run, seen, s, o);
    }
  }

  /** The body of a step, in the store as it is after the body's own write. */
  lemma BodyOk(reg: Registry, s: State, run: Run, c: Choice, seen: map<JobId, Entry>, s': State, seen': map<JobId, Entry>)
    requires RunOk(reg, run, seen, s) && SeenOk(s, seen) && SeenGrows(seen, seen') && SeenOk(s', seen')
    requires run.phase.Missed? && s'.now == s.now && StaysGone(s, s', run.job)
    requires var write := RunBody(s, run, NextAction(reg, run), c).0;
             s' == if write.Some? then Apply(s, write.value) else s
    ensures RunOk(reg, RunBody(s, run, NextAction(reg, run), c).1, seen', s')
  {
    var a := NextAction(reg, run);
    var run' := RunBody(s, run, a, c).1;
    RunStable(reg, run, seen, s, seen', s');
    if run' != run {
      if a.DoWait? {
        PhaseStable(a, run', seen, s, seen', s');
      }
      if a.DoChild? && run'.phase.Produced? {
        ChildEnqueued(s, ChildRequest(run, a), c.id);
      }
      RephaseOk(reg, run, run'.phase, seen', s');
    }
  }

  /** The id that comes back belongs to a job under the requested key. */
  lemma ChildEnqueued(s: State, req: EnqueueRequest, id: JobId)
    requires req.idem != "" && EnqueueReply(s, req, id).Some?
    ensures var child := EnqueueReply(s, req, id).value;
            child in Apply(s, Enqueue(req, id)).jobs &&
            Apply(s, Enqueue(req, id)).jobs[child].row.idem == Some(req.idem)
  {
  }
}
