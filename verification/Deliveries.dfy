/** What waits read is what was sent: the mailbox against the signals of the whole
    history. */
module Deliveries {
  import opened Values
  import opened Jobs
  import opened StoreModel
  import opened StoreInvariant
  import opened StoreHistory
  import opened Columns
  import opened Runtime
  import opened RuntimeSystem
  import opened Guarantees

  // ----------------------------------------------------------- what was sent

  /** A signal under the name that finds the job there and not finished. */
  predicate Arrives(s: State, op: Op, job: JobId, name: string) {
    && op.Signal? && op.job == job && op.name == name
    && job in s.jobs && s.jobs[job].row.status !in {Succeeded, DeadLetter, Canceled}
  }

  /** The keys under which such signals have come so far. */
  ghost function KeysSent(ops: seq<Op>, job: JobId, name: string): set<string> {
    if ops == [] then {}
    else
      var front, last := ops[..|ops| - 1], ops[|ops| - 1];
      KeysSent(front, job, name) + if Arrives(Execute(EMPTY_STORE, front), last, job, name) then {last.idem} else {}
  }

  /** The payloads of the signals that were accepted and no repeats, in order. */
  ghost function Sent(ops: seq<Op>, job: JobId, name: string): seq<Json> {
    if ops == [] then []
    else
      var front, last := ops[..|ops| - 1], ops[|ops| - 1];
      Sent(front, job, name) +
      if Arrives(Execute(EMPTY_STORE, front), last, job, name) && (last.idem == "" || last.idem !in KeysSent(front, job, name))
      then [if last.payload.Some? then last.payload.value else EmptyObject] else []
  }

  predicate HasKeyed(mail: seq<Mail>, name: string, key: string) {
    exists i :: 0 <= i < |mail| && mail[i].name == name && mail[i].key == Some(key)
  }

  /** The mailbox shows what was sent under the name, and knows the keys. */
  ghost predicate Shows(mail: seq<Mail>, name: string, sent: seq<Json>, keys: set<string>) {
    Named(mail, name) == sent && forall key | key != "" :: HasKeyed(mail, name, key) <==> key in keys
  }

  lemma NamedGrows(mail: seq<Mail>, m: Mail, name: string)
    ensures Named(mail + [m], name) == Named(mail, name) + if m.name == name then [m.payload] else []
  {
    assert (mail + [m])[..|mail|] == mail;
  }

  lemma KeyedGrows(mail: seq<Mail>, m: Mail, name: string, key: string)
    ensures HasKeyed(mail + [m], name, key) <==> HasKeyed(mail, name, key) || (m.name == name && m.key == Some(key))
  {
    var longer := mail + [m];
    assert longer[|mail|] == m;
    if HasKeyed(mail, name, key) {
      var i :| 0 <= i < |mail| && mail[i].name == name && mail[i].key == Some(key);
      assert longer[i] == mail[i];
    }
  }

  /** What one signal does to the deliveries, under its own name and under the others. */
  lemma SignalDelivers(s: State, job: JobId, name: string, payload: Option<Json>, key: string, other: string)
    requires job in s.jobs
    ensures var op := Signal(job, name, payload, key);
            var mail := s.jobs[job].mail;
            && job in Apply(s, op).jobs
            && var mail' := Apply(s, op).jobs[job].mail;
               if Arrives(s, op, job, name) && (key == "" || !HasKeyed(mail, name, key)) then
                 && Named(mail', name) == Named(mail, name) + [if payload.Some? then payload.value else EmptyObject]
                 && (other != name ==> Named(mail', other) == Named(mail, other))
               else mail' == mail
  {
    SignalMakes(s, job, name, payload, key);
    var m := Mail(name, if payload.Some? then payload.value else EmptyObject, if key == "" then None else Some(key));
    NamedGrows(s.jobs[job].mail, m, name);
    NamedGrows(s.jobs[job].mail, m, other);
  }

  lemma SignalShows(s: State, op: Op, job: JobId, name: string, sent: seq<Json>, keys: set<string>)
    requires op.Signal? && op.job == job && job in s.jobs && Shows(s.jobs[job].mail, name, sent, keys)
    ensures var arrives := Arrives(s, op, job, name);
            var sent' := if arrives && (op.idem == "" || op.idem !in keys)
                         then sent + [if op.payload.Some? then op.payload.value else EmptyObject] else sent;
            job in Apply(s, op).jobs && Shows(Apply(s, op).jobs[job].mail, name, sent', keys + if arrives then {op.idem} else {})
  {
    var mail := s.jobs[job].mail;
    SignalMakes(s, job, op.name, op.payload, op.idem);
    SignalDelivers(s, job, op.name, op.payload, op.idem, name);
    var m := Mail(op.name, if op.payload.Some? then op.payload.value else EmptyObject, if op.idem == "" then None else Some(op.idem));
    forall key | key != ""
      ensures HasKeyed(mail + [m], name, key) <==> HasKeyed(mail, name, key) || (m.name == name && m.key == Some(key))
    {
      KeyedGrows(mail, m, name, key);
    }
  }

  /** Only signals change a mailbox. */
  lemma OthersKeepMail(op: Op, now: Time, job: JobId, e: Entry)
    requires !(op.Signal? && op.job == job)
    ensures EntryAfter(op, now, job, e).mail == e.mail
  {
  }

  // ------------------------------------------------------------- store runs

  /** A job has in its mailbox what was sent to it; to an id not given out, nothing was. */
  ghost predicate Faithful(ops: seq<Op>, job: JobId, name: string) {
    var s := Execute(EMPTY_STORE, ops);
    && (job in s.jobs ==> Shows(s.jobs[job].mail, name, Sent(ops, job, name), KeysSent(ops, job, name)))
    && (job !in s.issued ==> Sent(ops, job, name) == [] && KeysSent(ops, job, name) == {})
  }

  /** Over every legal run from the empty store: the deliveries of a job under a name are
      the payloads of its accepted signals under that name that were no repeats, in the
      order in which they were sent. */
  lemma {:induction false} MailboxIsWhatWasSent(ops: seq<Op>, job: JobId, name: string)
    requires LegalRun(EMPTY_STORE, ops)
    ensures Faithful(ops, job, name)
    ensures var s := Execute(EMPTY_STORE, ops); job in s.jobs ==> Named(s.jobs[job].mail, name) == Sent(ops, job, name)
    decreases |ops|
  {
    if ops != [] {
      MailboxIsWhatWasSent(ops[..|ops| - 1], job, name);
      FaithfulStep(ops, job, name);
    }
  }

  lemma KnownIds(ops: seq<Op>)
    requires LegalRun(EMPTY_STORE, ops)
    ensures Execute(EMPTY_STORE, ops).jobs.Keys <= Execute(EMPTY_STORE, ops).issued
  {
    InvAlways(EMPTY_STORE, ops);
  }

  lemma FaithfulStep(ops: seq<Op>, job: JobId, name: string)
    requires ops != [] && LegalRun(EMPTY_STORE, ops) && Faithful(ops[..|ops| - 1], job, name)
    ensures Faithful(ops, job, name)
  {
    var front, last := ops[..|ops| - 1], ops[|ops| - 1];
    var s := Execute(EMPTY_STORE, front);
    KnownIds(front);
    if job in Apply(s, last).jobs && job in s.jobs {
      if last.Signal? && last.job == job {
        SignalShows(s, last, job, name, Sent(front, job, name), KeysSent(front, job, name));
      } else {
        NotReborn(s, last, job);
        RowsAfter(s, last, job);
        OthersKeepMail(last, s.now, job, s.jobs[job]);
      }
    } else if job in Apply(s, last).jobs {
      Newborn(s, last, job);
    }
  }

  lemma Newborn(s: State, op: Op, job: JobId)
    requires Legal(s, op) && job !in s.jobs && job in Apply(s, op).jobs
    ensures job !in s.issued && Apply(s, op).jobs[job].mail == [] && !op.Signal?
  {
  }

  // ------------------------------------------------------------ system runs

  /** The store operation of a label, and those of a trace. */
  ghost function OpList(reg: Registry, y: Sys, l: Label): seq<Op>
    requires LegalLabel(reg, y, l)
  {
    var op := OpOf(reg, y, l);
    if op.Some? then [op.value] else []
  }

  ghost function OpsOf(reg: Registry, y: Sys, ls: seq<Label>): seq<Op>
    requires LegalTrace(reg, y, ls)
    decreases |ls|
  {
    if ls == [] then [] else OpList(reg, y, ls[0]) + OpsOf(reg, Next(reg, y, ls[0]), ls[1..])
  }

  /** The store is what the operations made of the empty one, and what is remembered of a
      job, deleted or not, has the mail that was sent to it. */
  ghost predicate Accounts(store: State, seen: map<JobId, Entry>, ops: seq<Op>, name: string) {
    && LegalRun(EMPTY_STORE, ops) && store == Execute(EMPTY_STORE, ops)
    && (forall j | j in store.jobs :: j in seen && seen[j] == store.jobs[j])
    && forall j | j in seen :: Shows(seen[j].mail, name, Sent(ops, j, name), KeysSent(ops, j, name))
  }

  lemma OneMore(ops: seq<Op>, op: Op)
    requires LegalRun(EMPTY_STORE, ops) && Legal(Execute(EMPTY_STORE, ops), op)
    ensures LegalRun(EMPTY_STORE, ops + [op])
    ensures Execute(EMPTY_STORE, ops + [op]) == Apply(Execute(EMPTY_STORE, ops), op)
  {
    assert (ops + [op])[..|ops|] == ops;
  }

  lemma GoneGetsNothing(ops: seq<Op>, op: Op, job: JobId, name: string)
    requires LegalRun(EMPTY_STORE, ops) && Legal(Execute(EMPTY_STORE, ops), op)
    requires job !in Apply(Execute(EMPTY_STORE, ops), op).jobs
    ensures Sent(ops + [op], job, name) == Sent(ops, job, name) && KeysSent(ops + [op], job, name) == KeysSent(ops, job, name)
  {
    assert (ops + [op])[..|ops|] == ops;
    if op.Signal? && op.job == job && job in Execute(EMPTY_STORE, ops).jobs {
      SignalMakes(Execute(EMPTY_STORE, ops), job, op.name, op.payload, op.idem);
    }
  }

  lemma AccountsOn(store: State, seen: map<JobId, Entry>, ops: seq<Op>, name: string, op: Op)
    requires Accounts(store, seen, ops, name) && Legal(store, op)
    ensures Accounts(Apply(store, op), seen + Apply(store, op).jobs, ops + [op], name)
  {
    var store' := Apply(store, op);
    var seen' := seen + store'.jobs;
    OneMore(ops, op);
    forall j | j in seen'
      ensures Shows(seen'[j].mail, name, Sent(ops + [op], j, name), KeysSent(ops + [op], j, name))
    {
      if j in store'.jobs {
        MailboxIsWhatWasSent(ops + [op], j, name);
      } else {
        GoneGetsNothing(ops, op, j, name);
      }
    }
  }

  lemma SeenAlready(store: State, seen: map<JobId, Entry>, ops: seq<Op>, name: string)
    requires Accounts(store, seen, ops, name)
    ensures seen + store.jobs == seen
  {
  }

  lemma AccountsLabel(reg: Registry, y: Sys, l: Label, ops: seq<Op>, name: string)
    requires LegalLabel(reg, y, l) && Accounts(y.store, y.seen, ops, name)
    ensures Accounts(Next(reg, y, l).store, Next(reg, y, l).seen, ops + OpList(reg, y, l), name)
  {
    var op := OpOf(reg, y, l);
    StoreOfNext(reg, y, l);
    if op.Some? {
      AccountsOn(y.store, y.seen, ops, name, op.value);
    } else {
      SeenAlready(y.store, y.seen, ops, name);
      assert ops + [] == ops;
    }
  }

  lemma InOneGo(a: seq<Op>, b: seq<Op>, c: seq<Op>)
    ensures a + b + c == a + (b + c)
  {
  }

  lemma {:induction false} AccountsAlways(reg: Registry, y: Sys, ls: seq<Label>, ops: seq<Op>, name: string)
    requires LegalTrace(reg, y, ls) && Accounts(y.store, y.seen, ops, name)
    ensures Accounts(Trace(reg, y, ls).store, Trace(reg, y, ls).seen, ops + OpsOf(reg, y, ls), name)
    decreases |ls|
  {
    if ls == [] {
      assert ops + OpsOf(reg, y, ls) == ops;
    } else {
      var y' := Next(reg, y, ls[0]);
      AccountsLabel(reg, y, ls[0], ops, name);
      AccountsAlways(reg, y', ls[1..], ops + OpList(reg, y, ls[0]), name);
      InOneGo(ops, OpList(reg, y, ls[0]), OpsOf(reg, y', ls[1..]));
    }
  }

  /** A run that waits for the deliveries 0, 1, 2, ... of a signal reads a prefix of what
      was sent to its job under that name, whatever was sent, retried, crashed or pruned.
      `spots[n]` is the position in the run at which delivery n was read. */
  lemma ReadsWhatWasSent(reg: Registry, ls: seq<Label>, r: nat, name: string, spots: seq<nat>)
    requires LegalTrace(reg, EMPTY_SYS, ls)
    requires var y := Trace(reg, EMPTY_SYS, ls); r < |y.runs| && WellNamed(reg, y.runs[r].kind, y.runs[r].payload)
    requires var run := Trace(reg, EMPTY_SYS, ls).runs[r];
             forall n | 0 <= n < |spots| ::
               spots[n] < |run.obs| && ActionAt(reg, run, spots[n]).DoWait?
               && ActionAt(reg, run, spots[n]).name == name && ActionAt(reg, run, spots[n]).index == n
    ensures var run := Trace(reg, EMPTY_SYS, ls).runs[r];
            seq(|spots|, n requires 0 <= n < |spots| && spots[n] < |run.obs| => ViewOf(run.obs[spots[n]]))
            <= Sent(OpsOf(reg, EMPTY_SYS, ls), run.job, name)
  {
    var y := Trace(reg, EMPTY_SYS, ls);
    InOrderSignals(reg, y, r, name, spots);
    AccountsAlways(reg, EMPTY_SYS, ls, [], name);
    assert [] + OpsOf(reg, EMPTY_SYS, ls) == OpsOf(reg, EMPTY_SYS, ls);
  }
}
