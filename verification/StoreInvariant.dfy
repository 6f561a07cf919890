/** The invariant that every store operation keeps. */
module StoreInvariant {
  import opened Values
  import opened Jobs
  import opened StoreModel

  // ------------------------------------------------------- reading the log

  /** The attempt counter that the log accounts for: claims minus suspensions
      since the job was created or last retried from the dead-letter queue. */
  function AttemptInLog(log: seq<Event>): int {
    if log == [] then 0
    else
      var before := AttemptInLog(log[..|log| - 1]);
      match log[|log| - 1]
      case Claimed(_, _) => before + 1
      case Suspended(_) => before - 1
      case DeadLetterRetried => 0
      case _ => before
  }

  /** The keys of the checkpoints that the log records, in order. */
  function StepsInLog(log: seq<Event>): seq<string> {
    if log == [] then []
    else
      StepsInLog(log[..|log| - 1]) +
      match log[|log| - 1] case StepCompleted(key) => [key] case _ => []
  }

  /** The names of the signals that the log records, in order. */
  function SignalsInLog(log: seq<Event>): seq<string> {
    if log == [] then []
    else
      SignalsInLog(log[..|log| - 1]) +
      match log[|log| - 1] case Signaled(name) => [name] case _ => []
  }

  /** A claim, a failure, a sweep or an ending: the events that use a job up. */
  predicate IsMove(event: Event) {
    event.Claimed? || event.JobFailed? || event.JobSucceeded? || event.JobCanceled? || event.DeadLettered?
  }

  function Moves(log: seq<Event>): nat {
    if log == [] then 0 else Moves(log[..|log| - 1]) + if IsMove(log[|log| - 1]) then 1 else 0
  }

  function ParkCount(log: seq<Event>): nat {
    if log == [] then 0 else ParkCount(log[..|log| - 1]) + if log[|log| - 1].Suspended? then 1 else 0
  }

  function Retries(log: seq<Event>): nat {
    if log == [] then 0 else Retries(log[..|log| - 1]) + if log[|log| - 1].DeadLetterRetried? then 1 else 0
  }

  /** How many moves a job has left if nothing parks or retries it. */
  function Measure(row: Row): int {
    if Terminal(row.status) then 0
    else 2 * (row.maxAttempts - row.attempt) + if row.status == Running then 1 else 0
  }

  function Names(mail: seq<Mail>): seq<string> {
    seq(|mail|, i requires 0 <= i < |mail| => mail[i].name)
  }

  predicate Distinct<T(==)>(xs: seq<T>) {
    forall i, j | 0 <= i < j < |xs| :: xs[i] != xs[j]
  }

  lemma LogGrows(log: seq<Event>, event: Event)
    ensures AttemptInLog(log + [event]) ==
            (match event
             case Claimed(_, _) => AttemptInLog(log) + 1
             case Suspended(_) => AttemptInLog(log) - 1
             case DeadLetterRetried => 0
             case _ => AttemptInLog(log))
    ensures StepsInLog(log + [event]) ==
            StepsInLog(log) + (match event case StepCompleted(key) => [key] case _ => [])
    ensures SignalsInLog(log + [event]) ==
            SignalsInLog(log) + (match event case Signaled(name) => [name] case _ => [])
    ensures Moves(log + [event]) == Moves(log) + if IsMove(event) then 1 else 0
    ensures ParkCount(log + [event]) == ParkCount(log) + if event.Suspended? then 1 else 0
    ensures Retries(log + [event]) == Retries(log) + if event.DeadLetterRetried? then 1 else 0
  {
    assert (log + [event])[..|log|] == log;
  }

  // ---------------------------------------------------------- the invariant

  /** What the columns of one row say together. */
  predicate RowOk(row: Row, now: Time) {
    && row.status != Failed
    && row.queue != ""
    && (row.status == Running <==> row.leaseOwner.Some?)
    && (row.leaseOwner.Some? <==> row.leaseExpires.Some?)
    && (Terminal(row.status) <==> row.completedAt.Some?)
    && (row.status == Succeeded <==> row.result.Some?)
    && (Waiting(row.status) ==> 0 <= row.attempt < row.maxAttempts)
    && (row.status == Running ==> 1 <= row.attempt <= row.maxAttempts && row.runAfter <= now)
    && 0 <= row.attempt <= row.maxAttempts
    && row.maxAttempts >= 1
    && row.createdAt <= row.updatedAt <= now
  }

  /** The log accounts for the attempt counter, the checkpoints and the mailbox. */
  ghost predicate Reconciled(e: Entry) {
    && AttemptInLog(e.log) == e.row.attempt
    && Distinct(StepsInLog(e.log))
    && (forall key :: key in StepsInLog(e.log) <==> key in e.steps)
    && SignalsInLog(e.log) == Names(e.mail)
  }

  /** Every move was paid for: by the attempts a job starts with and is given
      again on a dead-letter retry, or by a park, which gives one back. */
  predicate Budgeted(e: Entry) {
    Moves(e.log) + Measure(e.row) <= 2 * e.row.maxAttempts * (1 + Retries(e.log)) + ParkCount(e.log)
  }

  /** A keyed signal is in the mailbox at most once. */
  predicate MailKeysUnique(mail: seq<Mail>) {
    forall i, j | 0 <= i < j < |mail| ::
      mail[i].name == mail[j].name && mail[i].key.Some? ==> mail[i].key != mail[j].key
  }

  ghost predicate EntryOk(e: Entry, now: Time) {
    RowOk(e.row, now) && Reconciled(e) && Budgeted(e) && MailKeysUnique(e.mail) && e.row.wakeVersion == |e.mail|
  }

  /** idempotency_key is unique among the jobs that exist. */
  predicate KeysUnique(s: State) {
    forall a, b | a in s.jobs && b in s.jobs && a != b ::
      s.jobs[a].row.idem.Some? ==> s.jobs[a].row.idem != s.jobs[b].row.idem
  }

  predicate ParentsExist(s: State) {
    forall id | id in s.jobs ::
      s.jobs[id].row.parent.Some? ==> s.jobs[id].row.parent.value in s.jobs
  }

  ghost predicate Inv(s: State) {
    && (forall id | id in s.jobs :: EntryOk(s.jobs[id], s.now))
    && s.jobs.Keys <= s.issued
    && (forall id | id in s.issued :: IsUuid(id))
    && KeysUnique(s)
    && ParentsExist(s)
  }

  // ------------------------------------------------------------ preservation

  /** The guard a claim rests on; any other operation is free. */
  predicate Guarded(op: Op, now: Time, id: JobId, e: Entry) {
    op.Claim? && id in op.picked ==> Claimable(e.row, EffectiveQueue(op.queue), now)
  }

  lemma RowKept(op: Op, now: Time, id: JobId, e: Entry)
    requires RowOk(e.row, now) && Guarded(op, now, id, e)
    ensures RowOk(EntryAfter(op, now, id, e).row, now)
  {
  }

  /** An operation logs one event, which tells what it did to the counter, the
      checkpoints and the mailbox, or it logs none and leaves them alone. */
  ghost predicate Accounted(e: Entry, e': Entry, event: Event) {
    && e'.log == e.log + [event]
    && e'.row.attempt == (match event
                          case Claimed(_, _) => e.row.attempt + 1
                          case Suspended(_) => e.row.attempt - 1
                          case DeadLetterRetried => 0
                          case _ => e.row.attempt)
    && (if event.StepCompleted? then event.key !in e.steps && e'.steps.Keys == e.steps.Keys + {event.key} else e'.steps == e.steps)
    && (if event.Signaled? then |e'.mail| > 0 && e'.mail == e.mail + [e'.mail[|e'.mail| - 1]]
                                && e'.mail[|e'.mail| - 1].name == event.name
        else e'.mail == e.mail)
  }

  lemma EventAccounts(op: Op, now: Time, id: JobId, e: Entry)
    requires RowOk(e.row, now)
    ensures var e' := EntryAfter(op, now, id, e);
            if |e'.log| == |e.log| then e'.log == e.log && e'.row.attempt == e.row.attempt && e'.steps == e.steps && e'.mail == e.mail
            else |e'.log| > 0 && Accounted(e, e', e'.log[|e'.log| - 1])
  {
  }

  lemma AccountedReconciles(e: Entry, e': Entry, event: Event)
    requires Reconciled(e) && Accounted(e, e', event)
    ensures Reconciled(e')
  {
    LogGrows(e.log, event);
    if event.Signaled? {
      assert Names(e'.mail) == Names(e.mail) + [event.name];
    }
  }

  lemma LogKept(op: Op, now: Time, id: JobId, e: Entry)
    requires RowOk(e.row, now) && Reconciled(e)
    ensures Reconciled(EntryAfter(op, now, id, e))
  {
    var e' := EntryAfter(op, now, id, e);
    EventAccounts(op, now, id, e);
    if |e'.log| != |e.log| {
      AccountedReconciles(e, e', e'.log[|e'.log| - 1]);
    }
  }

  /** Claims, failures, sweeps and endings use the measure up; a park gives back one. */
  lemma MeasureFalls(op: Op, now: Time, id: JobId, e: Entry)
    requires RowOk(e.row, now) && Guarded(op, now, id, e) && EntryAfter(op, now, id, e).log != e.log
    ensures var e' := EntryAfter(op, now, id, e);
            var event := e'.log[|e'.log| - 1];
            && e'.log == e.log + [event]
            && (IsMove(event) ==> 0 <= Measure(e'.row) < Measure(e.row))
            && (event.Suspended? ==> Measure(e'.row) == Measure(e.row) + 1)
            && (event.DeadLetterRetried? ==> Measure(e.row) == 0 && Measure(e'.row) == 2 * e.row.maxAttempts)
            && (!IsMove(event) && !event.Suspended? && !event.DeadLetterRetried? ==> Measure(e'.row) == Measure(e.row))
  {
  }

  lemma BudgetSpent(e: Entry, e': Entry, event: Event)
    requires Budgeted(e) && e'.log == e.log + [event] && e'.row.maxAttempts == e.row.maxAttempts && Measure(e'.row) >= 0
    requires IsMove(event) ==> Measure(e'.row) < Measure(e.row)
    requires event.Suspended? ==> Measure(e'.row) == Measure(e.row) + 1
    requires event.DeadLetterRetried? ==> Measure(e.row) == 0 && Measure(e'.row) == 2 * e.row.maxAttempts
    requires !IsMove(event) && !event.Suspended? && !event.DeadLetterRetried? ==> Measure(e'.row) == Measure(e.row)
    ensures Budgeted(e')
  {
    LogGrows(e.log, event);
    var m, r := e.row.maxAttempts, Retries(e.log);
    assert 2 * m * (1 + (r + 1)) == 2 * m * (1 + r) + 2 * m;
  }

  lemma BudgetKept(op: Op, now: Time, id: JobId, e: Entry)
    requires RowOk(e.row, now) && Guarded(op, now, id, e) && Budgeted(e)
    ensures Budgeted(EntryAfter(op, now, id, e))
  {
    var e' := EntryAfter(op, now, id, e);
    RowKept(op, now, id, e);
    RowGrows(op, now, id, e);
    if e'.log != e.log {
      MeasureFalls(op, now, id, e);
      BudgetSpent(e, e', e'.log[|e'.log| - 1]);
    } else {
      NothingLogged(op, now, id, e);
    }
  }

  lemma NothingLogged(op: Op, now: Time, id: JobId, e: Entry)
    requires EntryAfter(op, now, id, e).log == e.log
    ensures Measure(EntryAfter(op, now, id, e).row) == Measure(e.row)
  {
  }

  lemma MailKept(op: Op, now: Time, id: JobId, e: Entry)
    requires MailKeysUnique(e.mail) && e.row.wakeVersion == |e.mail|
    ensures var e' := EntryAfter(op, now, id, e); MailKeysUnique(e'.mail) && e'.row.wakeVersion == |e'.mail|
  {
    if op.Signal? && id == op.job && !Terminal(e.row.status) && !Duplicate(e.mail, op.name, op.idem) {
      assert forall i | 0 <= i < |e.mail| :: e.mail[i] in e.mail;
    }
  }

  lemma LaterRowOk(e: Entry, now: Time, later: Time)
    requires EntryOk(e, now) && now <= later
    ensures EntryOk(e, later)
  {
  }

  lemma EntryKept(op: Op, now: Time, id: JobId, e: Entry)
    requires EntryOk(e, now) && Guarded(op, now, id, e)
    ensures EntryOk(EntryAfter(op, now, id, e), now)
  {
    RowKept(op, now, id, e);
    LogKept(op, now, id, e);
    BudgetKept(op, now, id, e);
    MailKept(op, now, id, e);
  }

  /** What no operation takes back while the job exists: its identity, its
      checkpoints, the order of its mailbox, its log, and a success. */
  ghost predicate Grows(e: Entry, e': Entry) {
    && e'.row.queue == e.row.queue && e'.row.kind == e.row.kind && e'.row.payload == e.row.payload
    && e'.row.idem == e.row.idem && e'.row.maxAttempts == e.row.maxAttempts && e'.row.createdAt == e.row.createdAt
    && (e'.row.parent == e.row.parent || e'.row.parent == None)
    && (forall key :: key in e.steps ==> key in e'.steps && e'.steps[key] == e.steps[key])
    && e.mail <= e'.mail
    && e.log <= e'.log
    && (e.row.status == Succeeded ==> e'.row.status == Succeeded && e'.row.result == e.row.result)
  }

  lemma RowGrows(op: Op, now: Time, id: JobId, e: Entry)
    requires RowOk(e.row, now) && Guarded(op, now, id, e)
    ensures var row, row' := e.row, EntryAfter(op, now, id, e).row;
            && row'.queue == row.queue && row'.kind == row.kind && row'.payload == row.payload
            && row'.idem == row.idem && row'.maxAttempts == row.maxAttempts && row'.createdAt == row.createdAt
            && (row'.parent == row.parent || row'.parent == None)
            && (row.status == Succeeded ==> row'.status == Succeeded && row'.result == row.result)
  {
  }

  lemma TablesGrow(op: Op, now: Time, id: JobId, e: Entry)
    ensures var e' := EntryAfter(op, now, id, e);
            && (forall key :: key in e.steps ==> key in e'.steps && e'.steps[key] == e.steps[key])
            && e.mail <= e'.mail && e.log <= e'.log
  {
  }

  lemma EntryGrows(op: Op, now: Time, id: JobId, e: Entry)
    requires RowOk(e.row, now) && Guarded(op, now, id, e)
    ensures Grows(e, EntryAfter(op, now, id, e))
  {
    RowGrows(op, now, id, e);
    TablesGrow(op, now, id, e);
  }

  lemma GrowsTransitive(a: Entry, b: Entry, c: Entry)
    requires Grows(a, b) && Grows(b, c)
    ensures Grows(a, c)
  {
  }

  /** A job that is there after `op` was created by it, or was there before and grew. */
  lemma Surviving(s: State, op: Op, id: JobId)
    requires Inv(s) && Legal(s, op) && id in Apply(s, op).jobs
    ensures id !in Born(s, op) ==> id in s.jobs && id !in Removed(op)
    ensures id !in Born(s, op) ==> Apply(s, op).jobs[id] == EntryAfter(op, s.now, id, s.jobs[id])
    ensures id !in Born(s, op) ==> Grows(s.jobs[id], Apply(s, op).jobs[id])
    ensures id !in Born(s, op) && s.jobs[id].row.parent.Some? && s.jobs[id].row.parent.value in Removed(op) ==>
            Apply(s, op).jobs[id].row.parent.None?
    ensures id in Born(s, op) ==> id !in s.issued && Apply(s, op).jobs[id] == Born(s, op)[id]
  {
    if id !in Born(s, op) {
      EntryGrows(op, s.now, id, s.jobs[id]);
    }
  }

  lemma FreshOk(row: Row, now: Time, event: Event)
    requires row == NewRow(row.queue, row.kind, row.payload, row.idem, row.maxAttempts, row.runAfter, row.parent, now)
    requires row.queue != "" && row.maxAttempts >= 1 && (event.Enqueued? || event.Replayed?)
    ensures EntryOk(Entry(row, map[], [], [event]), now)
  {
    LogGrows([], event);
    assert [] + [event] == [event];
  }

  lemma BornOk(s: State, op: Op)
    requires Inv(s) && Legal(s, op)
    ensures forall id | id in Born(s, op) :: EntryOk(Born(s, op)[id], s.now) && id !in s.issued && IsUuid(id)
  {
    forall id | id in Born(s, op)
      ensures EntryOk(Born(s, op)[id], s.now) && id !in s.issued && IsUuid(id)
    {
      var e := Born(s, op)[id];
      FreshOk(e.row, s.now, e.log[0]);
    }
  }

  /** Where the rows of a job come from. */
  lemma RowsAfter(s: State, op: Op, id: JobId)
    requires id in Apply(s, op).jobs
    ensures if id in Born(s, op) then Apply(s, op).jobs[id] == Born(s, op)[id]
            else id in s.jobs && Apply(s, op).jobs[id] == EntryAfter(op, s.now, id, s.jobs[id])
  {
  }

  lemma KeyStays(op: Op, now: Time, id: JobId, e: Entry)
    ensures EntryAfter(op, now, id, e).row.idem == e.row.idem
  {
  }

  /** At most one job is created at a time, and it brings a key that no job has. */
  lemma NewKey(s: State, op: Op, id: JobId)
    requires id in Born(s, op)
    ensures Born(s, op).Keys == {id}
    ensures forall other | other in s.jobs && s.jobs[other].row.idem.Some? ::
              s.jobs[other].row.idem != Born(s, op)[id].row.idem
  {
  }

  lemma KeysKept(s: State, op: Op)
    requires Inv(s) && Legal(s, op)
    ensures KeysUnique(Apply(s, op))
  {
    var s' := Apply(s, op);
    forall a, b | a in s'.jobs && b in s'.jobs && a != b && s'.jobs[a].row.idem.Some?
      ensures s'.jobs[a].row.idem != s'.jobs[b].row.idem
    {
      TwoKeys(s, op, a, b);
    }
  }

  lemma TwoKeys(s: State, op: Op, a: JobId, b: JobId)
    requires KeysUnique(s) && a in Apply(s, op).jobs && b in Apply(s, op).jobs && a != b
    ensures var s' := Apply(s, op); s'.jobs[a].row.idem.Some? ==> s'.jobs[a].row.idem != s'.jobs[b].row.idem
  {
    RowsAfter(s, op, a);
    RowsAfter(s, op, b);
    if a in Born(s, op) {
      NewKey(s, op, a);
      KeyStays(op, s.now, b, s.jobs[b]);
    } else {
      KeyStays(op, s.now, a, s.jobs[a]);
      if b in Born(s, op) {
        NewKey(s, op, b);
      } else {
        KeyStays(op, s.now, b, s.jobs[b]);
      }
    }
  }

  lemma ParentsKept(s: State, op: Op)
    requires Inv(s) && Legal(s, op)
    ensures ParentsExist(Apply(s, op))
  {
    var s' := Apply(s, op);
    forall id | id in s'.jobs && s'.jobs[id].row.parent.Some?
      ensures s'.jobs[id].row.parent.value in s'.jobs
    {
      Surviving(s, op, id);
    }
  }

  lemma InvKept(s: State, op: Op)
    requires Inv(s) && Legal(s, op)
    ensures Inv(Apply(s, op))
  {
    var s' := Apply(s, op);
    forall id | id in s'.jobs
      ensures EntryOk(s'.jobs[id], s'.now)
    {
      BornOk(s, op);
      if id in Born(s, op) {
        LaterRowOk(s'.jobs[id], s.now, s'.now);
      } else {
        EntryKept(op, s.now, id, s.jobs[id]);
        LaterRowOk(s'.jobs[id], s.now, s'.now);
      }
    }
    KeysKept(s, op);
    ParentsKept(s, op);
  }
}
