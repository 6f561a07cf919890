/** The payments application as it runs: side effects in sequence on the ledger, the
    bank and the checkpoints, along a path of the state machine of `Payouts`. */
module PayoutApp {
  import opened Values
  import opened Payouts
  import L = Ledger
  import B = Bank

  /** Run `r` alone takes `n` steps. */
  ghost function RunAlone(p: Payout, w: World, r: nat, ref: string, n: nat): (w': World)
    requires CanStep(w, r)
    ensures CanStep(w', r) && w'.runs[r].job == w.runs[r].job && w'.now == w.now && |w'.runs| == |w.runs|
  {
    if n == 0 then w else StepRun(p, RunAlone(p, w, r, ref, n - 1), r, ref)
  }

  ghost predicate Gets(p: Payout, w0: World, r: nat, ref: string, w: World) {
    CanStep(w0, r) && exists n: nat :: RunAlone(p, w0, r, ref, n) == w
  }

  lemma GetsOn(p: Payout, w0: World, r: nat, ref: string, w: World)
    requires Gets(p, w0, r, ref, w)
    ensures CanStep(w, r) && Gets(p, w0, r, ref, StepRun(p, w, r, ref))
  {
    var n: nat :| RunAlone(p, w0, r, ref, n) == w;
    assert RunAlone(p, w0, r, ref, n + 1) == StepRun(p, w, r, ref);
  }

  lemma MovedTwice(runs: seq<Run>, r: nat, a: Place, b: Place)
    requires r < |runs|
    ensures var mid := runs[r := runs[r].(place := a)]; mid[r := mid[r].(place := b)] == runs[r := runs[r].(place := b)]
  {
  }

  /** Every step begins with a look for its checkpoint, */
  lemma LooksUp(p: Payout, w0: World, r: nat, ref: string, w: World, step: nat) returns (w': World)
    requires Gets(p, w0, r, ref, w) && CanStep(w, r) && w.runs[r].place == At(step) && step < STEPS
    ensures Gets(p, w0, r, ref, w') && CanStep(w', r)
    ensures w' == Moved(w, r, if step in w.saved[w.runs[r].job] then At(step + 1) else Missed(step))
  {
    GetsOn(p, w0, r, ref, w);
    w' := StepRun(p, w, r, ref);
  }

  /** and ends with writing it. */
  lemma Saves(p: Payout, w0: World, r: nat, ref: string, w: World, step: nat) returns (w': World)
    requires Gets(p, w0, r, ref, w) && CanStep(w, r) && w.runs[r].place == Made(step)
    ensures Gets(p, w0, r, ref, w') && CanStep(w', r)
    ensures w' == Saved(Moved(w, r, At(step + 1)), w.runs[r].job, step)
  {
    GetsOn(p, w0, r, ref, w);
    w' := StepRun(p, w, r, ref);
  }

  /** Reserve is a look for a hold, and, if there is none, the locked reservation. */
  lemma ReserveSteps(p: Payout, w0: World, r: nat, ref: string, w: World) returns (w': World)
    requires Gets(p, w0, r, ref, w) && CanStep(w, r) && w.runs[r].place == Missed(0)
    ensures Gets(p, w0, r, ref, w') && CanStep(w', r)
    ensures w' == Moved(w, r, w'.runs[r].place).(books := L.Reserved(w.books, p.id, p.account, p.amount))
    ensures w'.runs[r].place == match L.ReserveReply(w.books, p.id, p.account, p.amount)
                                case Ok(_) => Made(0)
                                case Err(InsufficientFunds) => Abandoning(NoFunds)
                                case Err(_) => Over
  {
    GetsOn(p, w0, r, ref, w);
    w' := StepRun(p, w, r, ref);
    if w'.runs[r].place == NoHoldSeen {
      GetsOn(p, w0, r, ref, w');
      w' := StepRun(p, w', r, ref);
      MovedTwice(w.runs, r, NoHoldSeen, w'.runs[r].place);
    }
  }

  /** Submit is lookup, recordAttempt, insert and lookup. */
  lemma SubmitSteps(p: Payout, w0: World, r: nat, ref: string, w: World) returns (w': World)
    requires Gets(p, w0, r, ref, w) && CanStep(w, r) && w.runs[r].place == Missed(1)
    ensures Gets(p, w0, r, ref, w') && CanStep(w', r)
    ensures var (rail, reply) := B.Submitted(w.rail, TransferKey(p.id), p.amount, p.routing, ref, w.now);
            && w' == Moved(w, r, w'.runs[r].place).(rail := rail)
            && w'.runs[r].place == match reply
                                   case Ok(_) => Made(1)
                                   case Err(Rejected) => Abandoning(BadRouting)
                                   case Err(_) => Over
  {
    var key := TransferKey(p.id);
    GetsOn(p, w0, r, ref, w);
    w' := StepRun(p, w, r, ref);
    if w'.runs[r].place == NotSent {
      GetsOn(p, w0, r, ref, w');
      w' := StepRun(p, w', r, ref);
      if w'.runs[r].place.Counted? {
        SendSteps(p, w0, r, ref, w');
        w' := StepRun(p, StepRun(p, w', r, ref), r, ref);
      }
    }
  }

  lemma SendSteps(p: Payout, w0: World, r: nat, ref: string, w: World)
    requires Gets(p, w0, r, ref, w) && CanStep(w, r) && w.runs[r].place.Counted?
    requires B.Lookup(w.rail.transfers, TransferKey(p.id)).None?
    ensures var transfer := B.NewTransfer(TransferKey(p.id), ref, p.amount, w.runs[r].place.attempts, w.now);
            var w' := StepRun(p, StepRun(p, w, r, ref), r, ref);
            Gets(p, w0, r, ref, w') && w' == Moved(w, r, Made(1)).(rail := B.Inserted(w.rail, transfer))
  {
    var transfer := B.NewTransfer(TransferKey(p.id), ref, p.amount, w.runs[r].place.attempts, w.now);
    GetsOn(p, w0, r, ref, w);
    var sent := StepRun(p, w, r, ref);
    assert sent == Moved(w, r, Sent).(rail := B.Inserted(w.rail, transfer));
    B.AppendedLookup(w.rail.transfers, transfer, TransferKey(p.id));
    GetsOn(p, w0, r, ref, sent);
    MovedTwice(w.runs, r, Sent, Made(1));
  }

  /** Release, mark, notify. */
  lemma AbandonSteps(p: Payout, w0: World, r: nat, ref: string, w: World) returns (w': World)
    requires Gets(p, w0, r, ref, w) && CanStep(w, r) && w.runs[r].place.Abandoning?
    ensures Gets(p, w0, r, ref, w') && CanStep(w', r)
    ensures w' == Moved(w, r, Over).(books := L.Released(w.books, p.id), desk := Noted(w.desk.(status := Failed)))
  {
    GetsOn(p, w0, r, ref, w);
    w' := StepRun(p, w, r, ref);
    GetsOn(p, w0, r, ref, w');
    MovedTwice(w.runs, r, Failing, Reporting);
    w' := StepRun(p, w', r, ref);
    assert w' == Moved(w, r, Reporting).(books := L.Released(w.books, p.id), desk := w.desk.(status := Failed));
    GetsOn(p, w0, r, ref, w');
    MovedTwice(w.runs, r, Reporting, Over);
    w' := StepRun(p, w', r, ref);
  }

  lemma Unmoved(p: Payout, w: World, r: nat, ref: string)
    requires CanStep(w, r)
    ensures Gets(p, w, r, ref, w)
  {
    assert RunAlone(p, w, r, ref, 0) == w;
  }

  // -------------------------------------------------------- the settlement

  ghost predicate CanSettle(w: World, s: nat) {
    s < |w.settlements| && HasJob(w, w.settlements[s])
  }

  lemma StillSettles(p: Payout, w: World, s: nat)
    requires CanSettle(w, s)
    ensures CanSettle(StepSettle(p, w, s), s)
  {
  }

  ghost function SettleAlone(p: Payout, w: World, s: nat, n: nat): (w': World)
    requires CanSettle(w, s)
    ensures CanSettle(w', s)
  {
    if n == 0 then w
    else
      var before := SettleAlone(p, w, s, n - 1);
      StillSettles(p, before, s);
      StepSettle(p, before, s)
  }

  ghost predicate Comes(p: Payout, w0: World, s: nat, w: World) {
    CanSettle(w0, s) && exists n: nat :: SettleAlone(p, w0, s, n) == w
  }

  lemma ComesOn(p: Payout, w0: World, s: nat, w: World)
    requires Comes(p, w0, s, w)
    ensures CanSettle(w, s) && Comes(p, w0, s, StepSettle(p, w, s))
  {
    var n: nat :| SettleAlone(p, w0, s, n) == w;
    assert SettleAlone(p, w0, s, n + 1) == StepSettle(p, w, s);
  }

  lemma NotYet(p: Payout, w: World, s: nat)
    requires CanSettle(w, s)
    ensures Comes(p, w, s, w)
  {
    assert SettleAlone(p, w, s, 0) == w;
  }

  // ------------------------------------------------------------ the code

  /** Where the reserve step leaves the run. */
  function AfterReserve(error: Option<L.LedgerError>, done: Place): Place {
    if error.None? then done else if error.value.InsufficientFunds? then Abandoning(NoFunds) else Over
  }

  class App {
    const ledger: L.Ledger
    const bank: B.Bank
    var saved: map<JobId, set<nat>>
    var settled: seq<set<Checkpoint>>
    var desk: Desk
    var now: Time

    constructor (ledger: L.Ledger, bank: B.Bank, saved: map<JobId, set<nat>>, settled: seq<set<Checkpoint>>, desk: Desk, now: Time)
      ensures this.ledger == ledger && this.bank == bank && this.now == now
      ensures this.saved == saved && this.settled == settled && this.desk == desk
    {
      this.ledger, this.bank, this.now := ledger, bank, now;
      this.saved, this.settled, this.desk := saved, settled, desk;
    }

    /** The tables are those of world `w`. */
    ghost predicate Shows(w: World)
      reads this, ledger, bank
    {
      && w.books == ledger.Tables() && w.rail == bank.Tables()
      && w.saved == saved && w.settled == settled && w.desk == desk && w.now == now
    }

    /** Checkpoints the step whose body has returned. */
    method SaveStep(p: Payout, job: JobId, step: nat, ref: string, ghost w0: World, ghost before: World, ghost r: nat)
      returns (ghost w: World)
      requires Shows(before) && Gets(p, w0, r, ref, before) && CanStep(before, r) && before.runs[r] == Run(job, Made(step))
      modifies this`saved
      ensures Shows(w) && Gets(p, w0, r, ref, w) && CanStep(w, r)
      ensures w.runs[r].job == job && w.runs[r].place.At? && w.runs[r].place.step == step + 1
      ensures job in old(saved) && saved == old(saved)[job := old(saved)[job] + {step}]
    {
      w := Saves(p, w0, r, ref, before, step);
      saved := saved[job := saved[job] + {step}];
    }

    /** The body of the reserve step. */
    method ReserveBody(p: Payout, job: JobId, ref: string, ghost w0: World, ghost before: World, ghost r: nat)
      returns (reply: Option<L.LedgerError>, ghost w: World)
      requires Shows(before) && Gets(p, w0, r, ref, before) && CanStep(before, r) && before.runs[r] == Run(job, Missed(0))
      modifies ledger
      ensures Shows(w) && Gets(p, w0, r, ref, w) && CanStep(w, r)
      ensures w.runs[r] == Run(job, AfterReserve(reply, Made(0)))
    {
      w := ReserveSteps(p, w0, r, ref, before);
      var hold := ledger.ReserveAlone(p.id, p.account, p.amount);
      reply := if hold.Err? then Some(hold.error) else None;
    }

    /** The reserve step. */
    method ReserveFunds(p: Payout, job: JobId, ref: string, ghost w0: World, ghost before: World, ghost r: nat)
      returns (reply: Option<L.LedgerError>, ghost w: World)
      requires Shows(before) && Gets(p, w0, r, ref, before) && CanStep(before, r) && before.runs[r] == Run(job, At(0))
      modifies ledger, this`saved
      ensures Shows(w) && Gets(p, w0, r, ref, w) && CanStep(w, r)
      ensures w.runs[r] == Run(job, AfterReserve(reply, At(1)))
      ensures job in saved && (reply.None? <==> 0 in saved[job])
    {
      w := LooksUp(p, w0, r, ref, before, 0);
      if 0 in saved[job] {
        return None, w;
      }
      reply, w := ReserveBody(p, job, ref, w0, w, r);
      if reply.Some? {
        return;
      }
      w := SaveStep(p, job, 0, ref, w0, w, r);
    }

    /** The submit step. */
    method SubmitTransfer(p: Payout, job: JobId, ref: string, ghost w0: World, ghost before: World, ghost r: nat)
      returns (reply: Option<B.BankError>, ghost w: World)
      requires Shows(before) && Gets(p, w0, r, ref, before) && CanStep(before, r) && before.runs[r] == Run(job, At(1))
      modifies bank, this`saved
      ensures Shows(w) && Gets(p, w0, r, ref, w) && CanStep(w, r)
      ensures w.runs[r] == Run(job, match reply
                                    case None => At(2)
                                    case Some(Rejected) => Abandoning(BadRouting)
                                    case Some(_) => Over)
      ensures job in saved && job in old(saved) && old(saved)[job] <= saved[job] && (reply.None? <==> 1 in saved[job])
    {
      reply := None;
      w := LooksUp(p, w0, r, ref, before, 1);
      if 1 in saved[job] {
        return;
      }
      w := SubmitSteps(p, w0, r, ref, w);
      var transfer := bank.Submit(TransferKey(p.id), p.amount, p.routing, ref, now);
      if transfer.Err? {
        return Some(transfer.error), w;
      }
      w := SaveStep(p, job, 1, ref, w0, w, r);
    }

    /** The settlement is enqueued once, under its key. */
    method ScheduleSettlement(p: Payout, job: JobId, ref: string, ghost w0: World, ghost before: World, ghost r: nat)
      returns (ghost w: World)
      requires Shows(before) && Gets(p, w0, r, ref, before) && CanStep(before, r) && before.runs[r] == Run(job, At(2))
      modifies this`saved, this`settled, this`desk
      ensures Shows(w) && Gets(p, w0, r, ref, w) && CanStep(w, r) && w.runs[r] == Run(job, At(3))
      ensures job in saved && job in old(saved) && old(saved)[job] + {2} <= saved[job]
    {
      w := LooksUp(p, w0, r, ref, before, 2);
      if 2 !in saved[job] {
        GetsOn(p, w0, r, ref, w);
        w := StepRun(p, w, r, ref);
        if !desk.scheduled {
          settled := settled + [{}];
        }
        desk := desk.(scheduled := true);
        w := SaveStep(p, job, 2, ref, w0, w, r);
      }
    }

    /** The payout's row says submitted, if it said pending. */
    method MarkSubmitted(p: Payout, job: JobId, ref: string, ghost w0: World, ghost before: World, ghost r: nat)
      returns (ghost w: World)
      requires Shows(before) && Gets(p, w0, r, ref, before) && CanStep(before, r) && before.runs[r] == Run(job, At(3))
      modifies this`saved, this`desk
      ensures Shows(w) && Gets(p, w0, r, ref, w) && CanStep(w, r) && w.runs[r] == Run(job, At(4))
      ensures job in saved && job in old(saved) && old(saved)[job] + {3} <= saved[job]
    {
      w := LooksUp(p, w0, r, ref, before, 3);
      if 3 !in saved[job] {
        GetsOn(p, w0, r, ref, w);
        w := StepRun(p, w, r, ref);
        if desk.status == Awaiting {
          desk := desk.(status := Submitted);
        }
        w := SaveStep(p, job, 3, ref, w0, w, r);
      }
    }

    /** What a permanent error leaves to do: give the money back, mark the payout, and
        tell the customer. */
    method Abandon(p: Payout, ref: string, ghost w0: World, ghost before: World, ghost r: nat) returns (ghost w: World)
      requires Shows(before) && Gets(p, w0, r, ref, before) && CanStep(before, r) && before.runs[r].place.Abandoning?
      modifies ledger, this`desk
      ensures Shows(w) && Gets(p, w0, r, ref, w) && CanStep(w, r)
      ensures w.runs[r] == Run(before.runs[r].job, Over)
    {
      w := AbandonSteps(p, w0, r, ref, before);
      ledger.Release(p.id);
      desk := desk.(status := Failed);
      desk := desk.(notes := desk.notes + 1);
    }

    method ReserveOrAbandon(p: Payout, job: JobId, ref: string, ghost w0: World, ghost before: World, ghost r: nat)
      returns (ok: bool, ghost w: World)
      requires Shows(before) && Gets(p, w0, r, ref, before) && CanStep(before, r) && before.runs[r] == Run(job, At(0))
      modifies ledger, this`saved, this`desk
      ensures Shows(w) && Gets(p, w0, r, ref, w) && CanStep(w, r)
      ensures w.runs[r].place == (if ok then At(1) else Over) && w.runs[r].job == job
      ensures job in saved && (ok <==> 0 in saved[job])
    {
      var unreserved;
      unreserved, w := ReserveFunds(p, job, ref, w0, before, r);
      ok := unreserved.None?;
      if unreserved == Some(L.InsufficientFunds) {
        w := Abandon(p, ref, w0, w, r);
      }
    }

    method SubmitOrAbandon(p: Payout, job: JobId, ref: string, ghost w0: World, ghost before: World, ghost r: nat)
      returns (ok: bool, ghost w: World)
      requires Shows(before) && Gets(p, w0, r, ref, before) && CanStep(before, r) && before.runs[r] == Run(job, At(1))
      modifies ledger, bank, this`saved, this`desk
      ensures Shows(w) && Gets(p, w0, r, ref, w) && CanStep(w, r)
      ensures w.runs[r].place == (if ok then At(2) else Over) && w.runs[r].job == job
      ensures job in saved && job in old(saved) && old(saved)[job] <= saved[job] && (ok <==> 1 in saved[job])
    {
      var unsent;
      unsent, w := SubmitTransfer(p, job, ref, w0, before, r);
      ok := unsent.None?;
      if unsent == Some(B.Rejected) {
        w := Abandon(p, ref, w0, w, r);
      }
    }

    method ScheduleAndMark(p: Payout, job: JobId, ref: string, ghost w0: World, ghost before: World, ghost r: nat)
      returns (ghost w: World)
      requires Shows(before) && Gets(p, w0, r, ref, before) && CanStep(before, r) && before.runs[r] == Run(job, At(2))
      modifies this`saved, this`settled, this`desk
      ensures Shows(w) && Gets(p, w0, r, ref, w) && CanStep(w, r) && w.runs[r] == Run(job, Over)
      ensures job in saved && job in old(saved) && old(saved)[job] + {2, 3} <= saved[job]
    {
      w := ScheduleSettlement(p, job, ref, w0, before, r);
      w := MarkSubmitted(p, job, ref, w0, w, r);
      GetsOn(p, w0, r, ref, w);
      w := StepRun(p, w, r, ref);
    }

    /** Reserve, submit, schedule the settlement, mark the payout submitted. A permanent
        error is compensated, any other is left to the next attempt. */
    method PayoutWorkflow(p: Payout, job: JobId, ref: string, ghost w0: World, ghost r: nat) returns (completed: bool, ghost w: World)
      requires Shows(w0) && CanStep(w0, r) && w0.runs[r] == Run(job, At(0))
      modifies ledger, bank, this`saved, this`settled, this`desk
      ensures Shows(w) && Gets(p, w0, r, ref, w) && CanStep(w, r) && w.runs[r].place == Over
      ensures job in saved && (completed <==> {0, 1, 2, 3} <= saved[job])
    {
      Unmoved(p, w0, r, ref);
      completed, w := ReserveOrAbandon(p, job, ref, w0, w0, r);
      if completed {
        completed, w := SubmitOrAbandon(p, job, ref, w0, w, r);
      }
      if completed {
        w := ScheduleAndMark(p, job, ref, w0, w, r);
      }
    }

    /** The checkpointed ledger step of a settlement. */
    method BookOutcome(p: Payout, job: nat, status: B.TransferStatus, ghost w0: World, ghost before: World, ghost s: nat)
      returns (ghost w: World)
      requires Shows(before) && Comes(p, w0, s, before) && CanSettle(before, s) && before.settlements[s] == Knows(job, status)
      modifies ledger, this`settled
      ensures Shows(w) && Comes(p, w0, s, w) && CanSettle(w, s) && w.settlements[s] == Telling(job, status)
    {
      ComesOn(p, w0, s, before);
      w := StepSettle(p, before, s);
      if LedgerStep(status) !in settled[job] {
        if status == B.Returned {
          ledger.Release(p.id);
        } else {
          ledger.Post(p.id);
        }
        ComesOn(p, w0, s, w);
        w := StepSettle(p, w, s);
        settled := settled[job := settled[job] + {LedgerStep(status)}];
      }
    }

    /** The checkpointed notification of a settlement. */
    method NotifyOutcome(p: Payout, job: nat, status: B.TransferStatus, ghost w0: World, ghost before: World, ghost s: nat)
      returns (ghost w: World)
      requires Shows(before) && Comes(p, w0, s, before) && CanSettle(before, s) && before.settlements[s] == Telling(job, status)
      modifies this`settled, this`desk
      ensures Shows(w) && Comes(p, w0, s, w) && CanSettle(w, s) && w.settlements[s] == Marking(job, status)
    {
      ComesOn(p, w0, s, before);
      w := StepSettle(p, before, s);
      if NoteStep(status) !in settled[job] {
        desk := desk.(notes := desk.notes + 1);
        ComesOn(p, w0, s, w);
        w := StepSettle(p, w, s);
        settled := settled[job := settled[job] + {NoteStep(status)}];
      }
    }

    method MarkOutcome(p: Payout, job: nat, status: B.TransferStatus, ghost w0: World, ghost before: World, ghost s: nat)
      returns (ghost w: World)
      requires Shows(before) && Comes(p, w0, s, before) && CanSettle(before, s) && before.settlements[s] == Marking(job, status)
      modifies this`desk
      ensures Shows(w) && Comes(p, w0, s, w) && CanSettle(w, s) && w.settlements[s].Closed?
    {
      ComesOn(p, w0, s, before);
      w := StepSettle(p, before, s);
      desk := desk.(status := if status == B.Returned then Returned else Paid);
    }

    method BookAndNotify(p: Payout, job: nat, status: B.TransferStatus, ghost w0: World, ghost before: World, ghost s: nat)
      returns (ghost w: World)
      requires Shows(before) && Comes(p, w0, s, before) && CanSettle(before, s) && before.settlements[s] == Knows(job, status)
      modifies ledger, this`settled, this`desk
      ensures Shows(w) && Comes(p, w0, s, w) && CanSettle(w, s) && w.settlements[s].Closed?
    {
      w := BookOutcome(p, job, status, w0, before, s);
      w := NotifyOutcome(p, job, status, w0, w, s);
      w := MarkOutcome(p, job, status, w0, w, s);
    }

    /** Asks the bank what became of the transfer, and books, notifies and marks the
        payout accordingly. */
    method SettlementWorkflow(p: Payout, job: nat, ghost w0: World, ghost s: nat) returns (done: bool, ghost w: World)
      requires Shows(w0) && CanSettle(w0, s) && w0.settlements[s] == Asking(job)
      modifies ledger, bank, this`settled, this`desk
      ensures Shows(w) && Comes(p, w0, s, w) && CanSettle(w, s) && w.settlements[s].Closed?
      ensures var reply := B.StatusReply(w0.rail, "payout:" + p.id, w0.now); done <==> reply.Ok? && reply.value.status != B.Pending
    {
      NotYet(p, w0, s);
      ComesOn(p, w0, s, w0);
      w := StepSettle(p, w0, s);
      var status := bank.Status(TransferKey(p.id), now);
      done := status.Ok? && status.value.status != B.Pending;
      if done {
        w := BookAndNotify(p, job, status.value.status, w0, w, s);
      }
    }
  }
}
