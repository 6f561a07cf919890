/** What one run of a payout leaves in the tables when nobody comes in between, row by row,
    and what every run, however many overlap, writes for the payout and nothing else. */
module PayoutRows {
  import opened Values
  import opened Payouts
  import opened PayoutApp
  import L = Ledger
  import B = Bank

  // ---------------------------------------------------- one run, undisturbed

  predicate HasEntry(w: World, p: Payout, kind: L.Kind) {
    exists i :: 0 <= i < |w.books.lines| && w.books.lines[i].payout == p.id && w.books.lines[i].kind == kind
  }

  predicate HasTransfer(w: World, p: Payout) {
    exists i :: 0 <= i < |w.rail.transfers| && w.rail.transfers[i].key == "payout:" + p.id
  }

  predicate HasFunds(w: World, p: Payout) {
    p.account in w.books.balances && w.books.balances[p.account] >= p.amount
  }

  /** The books after the reserve step. */
  predicate ReservedFrom(w0: World, p: Payout, done: bool, w: World) {
    if done || HasEntry(w0, p, L.Hold) then w.books == w0.books
    else
      && HasFunds(w0, p)
      && w.books.balances == w0.books.balances[p.account := w0.books.balances[p.account] - p.amount]
      && w.books.lines == w0.books.lines + [L.Line(p.account, p.id, L.Hold, p.amount)]
  }

  /** The effects of the first `n` steps are there, those of steps that were checkpointed
      before excepted. */
  predicate Effects(p: Payout, w0: World, before: set<nat>, n: nat, w: World) {
    && (if n == 0 then w.books == w0.books else ReservedFrom(w0, p, 0 in before, w))
    && (n >= 2 && 1 !in before ==> HasTransfer(w, p))
    && w.settled == (if n >= 3 && 2 !in before && !w0.desk.scheduled then w0.settled + [{}] else w0.settled)
    && w.desk.scheduled == (w0.desk.scheduled || (n >= 3 && 2 !in before))
    && w.desk.status == (if n >= 4 && 3 !in before && w0.desk.status == Awaiting then Submitted else w0.desk.status)
    && w.desk.notes == w0.desk.notes
  }

  ghost predicate SavedTo(before: set<nat>, n: nat, after: set<nat>) {
    forall s: nat :: s in after <==> s in before || s < n
  }

  /** All four steps are done. */
  ghost predicate SentOff(p: Payout, w0: World, before: set<nat>, w: World, after: set<nat>) {
    Effects(p, w0, before, 4, w) && SavedTo(before, 4, after)
  }

  /** Refused for good, for lack of funds or because of the routing number. */
  predicate Refused(p: Payout, w0: World, before: set<nat>) {
    || (0 !in before && !HasEntry(w0, p, L.Hold) && p.account in w0.books.balances && w0.books.balances[p.account] < p.amount)
    || (1 !in before && p.routing == "000000000")
  }

  /** Compensated: nothing stays held, the payout's row says failed, and the customer was
      told. */
  ghost predicate CalledOff(p: Payout, w0: World, before: set<nat>, w: World, after: set<nat>) {
    && Refused(p, w0, before) && Unfinished(before, after)
    && (HasEntry(w, p, L.Hold) ==> HasEntry(w, p, L.Release))
    && w.desk == Desk(w0.desk.scheduled, Failed, w0.desk.notes + 1) && w.settled == w0.settled
  }

  /** An error that is not permanent: an unknown account, or a rail that is not up. What was
      reserved stays so for the next attempt, and nobody is told. */
  ghost predicate LeftForLater(p: Payout, w0: World, before: set<nat>, w: World, after: set<nat>) {
    && Unfinished(before, after) && w.desk == w0.desk && w.settled == w0.settled
    && if 0 in after then ReservedFrom(w0, p, 0 in before, w) && p.routing != "000000000" && p.amount >= 0 && p.amount % 100 == 13
       else w.books == w0.books && p.account !in w0.books.balances
  }

  ghost predicate Unfinished(before: set<nat>, after: set<nat>) {
    exists s: nat :: s < 2 && s !in before && SavedTo(before, s, after)
  }

  /** Where a run is that began at step 0, in these terms. */
  ghost predicate OnItsWay(p: Payout, w0: World, before: set<nat>, w: World, place: Place, after: set<nat>) {
    match place
    case At(n) => n <= 4 && SavedTo(before, n, after) && Effects(p, w0, before, n, w)
    case Missed(n) => n < 4 && n !in before && SavedTo(before, n, after) && Effects(p, w0, before, n, w)
    case NoHoldSeen => 0 !in before && SavedTo(before, 0, after) && Effects(p, w0, before, 0, w) && !HasEntry(w0, p, L.Hold)
    case NotSent => Sending(p, w0, before, w, after) && !HasTransfer(w, p)
    case Counted(_) => Sending(p, w0, before, w, after)
    case Sent => Sending(p, w0, before, w, after) && HasTransfer(w, p)
    case Made(n) => n < 4 && n !in before && SavedTo(before, n, after) && Effects(p, w0, before, n + 1, w)
    case Abandoning(_) => Untold(p, w0, before, w, after) && w.desk == w0.desk
    case Failing => Untold(p, w0, before, w, after) && w.desk == w0.desk && (HasEntry(w, p, L.Hold) ==> HasEntry(w, p, L.Release))
    case Reporting =>
      && Untold(p, w0, before, w, after) && w.desk == w0.desk.(status := Failed)
      && (HasEntry(w, p, L.Hold) ==> HasEntry(w, p, L.Release))
    case Over => SentOff(p, w0, before, w, after) || CalledOff(p, w0, before, w, after) || LeftForLater(p, w0, before, w, after)
  }

  ghost predicate Sending(p: Payout, w0: World, before: set<nat>, w: World, after: set<nat>) {
    1 !in before && SavedTo(before, 1, after) && Effects(p, w0, before, 1, w)
  }

  ghost predicate Untold(p: Payout, w0: World, before: set<nat>, w: World, after: set<nat>) {
    Refused(p, w0, before) && Unfinished(before, after) && w.settled == w0.settled
  }

  lemma LooksFor(w: World, p: Payout)
    ensures HasTransfer(w, p) <==> B.Lookup(w.rail.transfers, TransferKey(p.id)).Some?
  {
  }

  lemma SavesOne(before: set<nat>, n: nat, after: set<nat>)
    requires SavedTo(before, n, after)
    ensures SavedTo(before, n + 1, after + {n})
    ensures n in after ==> SavedTo(before, n + 1, after) && n in before
  {
    if n in after { assert after + {n} == after; }
  }

  /** The run's own place and job aside, all that `OnItsWay` looks at. */
  ghost predicate Goes(p: Payout, w0: World, before: set<nat>, w: World, r: nat, job: JobId) {
    CanStep(w, r) && w.runs[r].job == job && OnItsWay(p, w0, before, w, w.runs[r].place, w.saved[job])
  }

  lemma GoesAt(p: Payout, w0: World, before: set<nat>, w: World, r: nat, job: JobId, ref: string)
    requires Goes(p, w0, before, w, r, job) && (w.runs[r].place.At? || w.runs[r].place.Made?)
    ensures Goes(p, w0, before, StepRun(p, w, r, ref), r, job)
  {
    var place := w.runs[r].place;
    if place.Made? || place.step < STEPS {
      SavesOne(before, place.step, w.saved[job]);
    }
  }

  lemma GoesReserve(p: Payout, w0: World, before: set<nat>, w: World, r: nat, job: JobId, ref: string)
    requires Goes(p, w0, before, w, r, job) && (w.runs[r].place == Missed(0) || w.runs[r].place.NoHoldSeen?)
    ensures Goes(p, w0, before, StepRun(p, w, r, ref), r, job)
  {
  }

  lemma GoesSubmit(p: Payout, w0: World, before: set<nat>, w: World, r: nat, job: JobId, ref: string)
    requires Goes(p, w0, before, w, r, job)
    requires w.runs[r].place == Missed(1) || w.runs[r].place.NotSent? || w.runs[r].place.Counted? || w.runs[r].place.Sent?
    ensures Goes(p, w0, before, StepRun(p, w, r, ref), r, job)
  {
    LooksFor(w, p);
    var w' := StepRun(p, w, r, ref);
    if w.runs[r].place.Counted? {
      TransferInserted(p, w.rail, B.NewTransfer(TransferKey(p.id), ref, p.amount, w.runs[r].place.attempts, w.now));
      LooksFor(w', p);
    }
    if w.runs[r].place.NotSent? {
      assert w'.rail.transfers == w.rail.transfers;
      assert SavedTo(before, 1, w.saved[job]);
    }
  }

  lemma TransferInserted(p: Payout, rail: B.Rail, t: B.Transfer)
    requires t.key == TransferKey(p.id)
    ensures B.Lookup(B.Inserted(rail, t).transfers, TransferKey(p.id)).Some?
  {
    InsertedView(p, rail, t);
  }

  lemma GoesSchedule(p: Payout, w0: World, before: set<nat>, w: World, r: nat, job: JobId, ref: string)
    requires Goes(p, w0, before, w, r, job) && (w.runs[r].place == Missed(2) || w.runs[r].place == Missed(3))
    ensures Goes(p, w0, before, StepRun(p, w, r, ref), r, job)
  {
  }

  lemma ReleasesHold(b: L.Books, payout: L.PayoutId)
    requires L.HasLine(b.lines, payout, L.Hold)
    ensures L.HasLine(L.Released(b, payout).lines, payout, L.Release)
  {
    var lines := L.Released(b, payout).lines;
    if !L.HasLine(b.lines, payout, L.Release) {
      assert lines[|b.lines|].payout == payout && lines[|b.lines|].kind == L.Release;
    }
  }

  lemma GoesAbandon(p: Payout, w0: World, before: set<nat>, w: World, r: nat, job: JobId, ref: string)
    requires Goes(p, w0, before, w, r, job)
    requires w.runs[r].place.Abandoning? || w.runs[r].place.Failing? || w.runs[r].place.Reporting? || w.runs[r].place.Over?
    ensures Goes(p, w0, before, StepRun(p, w, r, ref), r, job)
  {
    if w.runs[r].place.Abandoning? && L.HasLine(w.books.lines, p.id, L.Hold) {
      ReleasesHold(w.books, p.id);
    }
  }

  lemma GoesOn(p: Payout, w0: World, before: set<nat>, w: World, r: nat, job: JobId, ref: string)
    requires Goes(p, w0, before, w, r, job)
    ensures Goes(p, w0, before, StepRun(p, w, r, ref), r, job)
  {
    match w.runs[r].place
    case At(_) => GoesAt(p, w0, before, w, r, job, ref);
    case Made(_) => GoesAt(p, w0, before, w, r, job, ref);
    case Missed(step) =>
      if step == 0 { GoesReserve(p, w0, before, w, r, job, ref); }
      else if step == 1 { GoesSubmit(p, w0, before, w, r, job, ref); }
      else { GoesSchedule(p, w0, before, w, r, job, ref); }
    case NoHoldSeen => GoesReserve(p, w0, before, w, r, job, ref);
    case NotSent => GoesSubmit(p, w0, before, w, r, job, ref);
    case Counted(_) => GoesSubmit(p, w0, before, w, r, job, ref);
    case Sent => GoesSubmit(p, w0, before, w, r, job, ref);
    case _ => GoesAbandon(p, w0, before, w, r, job, ref);
  }

  lemma {:induction false} GoesAlone(p: Payout, w0: World, r: nat, ref: string, n: nat)
    requires CanStep(w0, r) && w0.runs[r].place == At(0)
    ensures Goes(p, w0, w0.saved[w0.runs[r].job], RunAlone(p, w0, r, ref, n), r, w0.runs[r].job)
  {
    if n > 0 {
      GoesAlone(p, w0, r, ref, n - 1);
      GoesOn(p, w0, w0.saved[w0.runs[r].job], RunAlone(p, w0, r, ref, n - 1), r, w0.runs[r].job, ref);
    }
  }

  /** An undisturbed run from the top leaves exactly one of three things. Everything is done:
      the money is taken from the payout's account once, as a hold of its amount, the rail
      has a transfer under its key, one settlement is scheduled, and the payout says
      submitted if it was pending. Or the payout is refused, for lack of funds or because of
      its routing number: nothing stays held, the payout says failed, the customer was told.
      Or it is left as it is for the next attempt. */
  lemma PayoutRun(p: Payout, w0: World, r: nat, ref: string, w: World)
    requires Gets(p, w0, r, ref, w) && w0.runs[r].place == At(0) && CanStep(w, r) && w.runs[r].place.Over?
    ensures var job := w0.runs[r].job;
            var before := w0.saved[job];
            && job in w.saved
            && (SentOff(p, w0, before, w, w.saved[job]) || CalledOff(p, w0, before, w, w.saved[job])
                || LeftForLater(p, w0, before, w, w.saved[job]))
            && (SentOff(p, w0, before, w, w.saved[job]) <==> forall s: nat | s < 4 :: s in w.saved[job])
            && !(CalledOff(p, w0, before, w, w.saved[job]) && LeftForLater(p, w0, before, w, w.saved[job]))
  {
    var n: nat :| RunAlone(p, w0, r, ref, n) == w;
    GoesAlone(p, w0, r, ref, n);
    var job := w0.runs[r].job;
    NotBoth(p, w0, w0.saved[job], w, w.saved[job]);
  }

  lemma NotBoth(p: Payout, w0: World, before: set<nat>, w: World, after: set<nat>)
    ensures CalledOff(p, w0, before, w, after) || LeftForLater(p, w0, before, w, after) ==> exists s: nat :: s < 4 && s !in after
    ensures !(CalledOff(p, w0, before, w, after) && LeftForLater(p, w0, before, w, after))
  {
    if Unfinished(before, after) {
      var s: nat :| s < 2 && s !in before && SavedTo(before, s, after);
      assert s !in after;
    }
  }

  // --------------------------------------------- one settlement, undisturbed

  predicate BankSays(p: Payout, w0: World, status: B.TransferStatus) {
    var reply := B.StatusReply(w0.rail, "payout:" + p.id, w0.now);
    reply.Ok? && reply.value.status == status
  }

  /** The ledger step of a decided transfer, once. */
  predicate Booking(p: Payout, w0: World, done: bool, status: B.TransferStatus, w: World) {
    if done then w.books == w0.books
    else if status == B.Returned then
      w.books == L.Released(w0.books, p.id) && (HasEntry(w0, p, L.Hold) ==> HasEntry(w, p, L.Release))
    else
      w.books == L.Posted(w0.books, p.id) && (HasEntry(w0, p, L.Hold) ==> HasEntry(w, p, L.Post))
      && w.books.balances == w0.books.balances
  }

  /** The customer has been told, once. */
  predicate Noticed(w0: World, done: bool, w: World) {
    w.desk.notes == w0.desk.notes + (if done then 0 else 1) && w.desk.scheduled == w0.desk.scheduled
  }

  /** The transfer went through: posted, told, marked paid. */
  predicate PaidOut(p: Payout, w0: World, before: set<Checkpoint>, w: World, after: set<Checkpoint>) {
    && BankSays(p, w0, B.Settled) && after == before + {PostLedger, NotifyPaid} && w.desk.status == Paid
    && Booking(p, w0, PostLedger in before, B.Settled, w) && Noticed(w0, NotifyPaid in before, w)
  }

  /** It came back: released, told, marked returned. */
  predicate SentBack(p: Payout, w0: World, before: set<Checkpoint>, w: World, after: set<Checkpoint>) {
    && BankSays(p, w0, B.Returned) && after == before + {ReleaseFunds, NotifyReturned} && w.desk.status == Returned
    && Booking(p, w0, ReleaseFunds in before, B.Returned, w) && Noticed(w0, NotifyReturned in before, w)
  }

  /** The bank does not know the transfer, or not yet what becomes of it. */
  predicate NotYetSettled(p: Payout, w0: World, before: set<Checkpoint>, w: World, after: set<Checkpoint>) {
    && !BankSays(p, w0, B.Settled) && !BankSays(p, w0, B.Returned)
    && after == before && w.books == w0.books && w.desk == w0.desk
  }

  function Ledgered(status: B.TransferStatus): Checkpoint {
    if status == B.Returned then ReleaseFunds else PostLedger
  }

  function Notified(status: B.TransferStatus): Checkpoint {
    if status == B.Returned then NotifyReturned else NotifyPaid
  }

  predicate OnTheBooks(p: Payout, w0: World, before: set<Checkpoint>, w: World, status: B.TransferStatus) {
    status != B.Pending && BankSays(p, w0, status) && Booking(p, w0, Ledgered(status) in before, status, w)
  }

  ghost predicate Settling(p: Payout, w0: World, before: set<Checkpoint>, w: World, place: Settlement, after: set<Checkpoint>) {
    match place
    case Asking(_) => after == before && w.books == w0.books && w.desk == w0.desk && w.rail == w0.rail && w.now == w0.now
    case Knows(_, status) =>
      after == before && w.books == w0.books && w.desk == w0.desk && status != B.Pending && BankSays(p, w0, status)
    case Booked(_, status) =>
      after == before && Ledgered(status) !in before && w.desk == w0.desk && OnTheBooks(p, w0, before, w, status)
    case Telling(_, status) => after == before + {Ledgered(status)} && w.desk == w0.desk && OnTheBooks(p, w0, before, w, status)
    case Told(_, status) =>
      && after == before + {Ledgered(status)} && OnTheBooks(p, w0, before, w, status)
      && Notified(status) !in before && Noticed(w0, false, w)
    case Marking(_, status) =>
      && after == before + {Ledgered(status), Notified(status)} && OnTheBooks(p, w0, before, w, status)
      && Noticed(w0, Notified(status) in before, w)
    case Closed =>
      PaidOut(p, w0, before, w, after) || SentBack(p, w0, before, w, after) || NotYetSettled(p, w0, before, w, after)
  }

  ghost predicate Settles(p: Payout, w0: World, w: World, s: nat, job: nat) {
    && CanSettle(w, s) && job < |w0.settled| && job < |w.settled| && (w.settlements[s].Closed? || w.settlements[s].job == job)
    && Settling(p, w0, w0.settled[job], w, w.settlements[s], w.settled[job])
  }

  lemma PostsHold(b: L.Books, payout: L.PayoutId)
    ensures L.Posted(b, payout).balances == b.balances
    ensures L.HasLine(b.lines, payout, L.Hold) ==> L.HasLine(L.Posted(b, payout).lines, payout, L.Post)
  {
    var lines := L.Posted(b, payout).lines;
    if L.HasLine(b.lines, payout, L.Hold) && !L.HasLine(b.lines, payout, L.Post) {
      assert lines[|b.lines|].payout == payout && lines[|b.lines|].kind == L.Post;
    }
  }

  lemma SettlesBooks(p: Payout, w0: World, w: World, s: nat, job: nat)
    requires Settles(p, w0, w, s, job) && w.settlements[s].Knows?
    ensures Settles(p, w0, StepSettle(p, w, s), s, job)
  {
    PostsHold(w.books, p.id);
    if L.HasLine(w.books.lines, p.id, L.Hold) { ReleasesHold(w.books, p.id); }
    if LedgerStep(w.settlements[s].status) in w.settled[job] {
      assert w.settled[job] == w0.settled[job] + {Ledgered(w.settlements[s].status)};
    }
  }

  lemma SettlesTells(p: Payout, w0: World, w: World, s: nat, job: nat)
    requires Settles(p, w0, w, s, job) && (w.settlements[s].Booked? || w.settlements[s].Telling? || w.settlements[s].Told?)
    ensures Settles(p, w0, StepSettle(p, w, s), s, job)
  {
  }

  lemma SettlesOn(p: Payout, w0: World, w: World, s: nat, job: nat)
    requires Settles(p, w0, w, s, job)
    ensures Settles(p, w0, StepSettle(p, w, s), s, job)
  {
    match w.settlements[s]
    case Knows(_, _) => SettlesBooks(p, w0, w, s, job);
    case Booked(_, _) => SettlesTells(p, w0, w, s, job);
    case Telling(_, _) => SettlesTells(p, w0, w, s, job);
    case Told(_, _) => SettlesTells(p, w0, w, s, job);
    case _ => StillSettles(p, w, s);
  }

  lemma {:induction false} SettlesAlone(p: Payout, w0: World, s: nat, n: nat)
    requires CanSettle(w0, s) && w0.settlements[s].Asking?
    ensures Settles(p, w0, SettleAlone(p, w0, s, n), s, w0.settlements[s].job)
  {
    if n > 0 {
      SettlesAlone(p, w0, s, n - 1);
      SettlesOn(p, w0, SettleAlone(p, w0, s, n - 1), s, w0.settlements[s].job);
    }
  }

  /** An undisturbed settlement leaves exactly what the bank's answer calls for: posted, told
      and paid; released, told and returned; or nothing. */
  lemma SettlementRun(p: Payout, w0: World, s: nat, w: World)
    requires Comes(p, w0, s, w) && w0.settlements[s].Asking? && CanSettle(w, s) && w.settlements[s].Closed?
    ensures var job := w0.settlements[s].job;
            && job < |w0.settled| && job < |w.settled|
            && if BankSays(p, w0, B.Settled) then PaidOut(p, w0, w0.settled[job], w, w.settled[job])
               else if BankSays(p, w0, B.Returned) then SentBack(p, w0, w0.settled[job], w, w.settled[job])
               else NotYetSettled(p, w0, w0.settled[job], w, w.settled[job])
  {
    var job := w0.settlements[s].job;
    SettledAlone(p, w0, s, w);
    ClosedAs(p, w0, w0.settled[job], w, w.settled[job]);
  }

  lemma SettledAlone(p: Payout, w0: World, s: nat, w: World)
    requires Comes(p, w0, s, w) && w0.settlements[s].Asking?
    ensures Settles(p, w0, w, s, w0.settlements[s].job)
  {
    var n: nat :| SettleAlone(p, w0, s, n) == w;
    SettlesAlone(p, w0, s, n);
  }

  lemma ClosedAs(p: Payout, w0: World, before: set<Checkpoint>, w: World, after: set<Checkpoint>)
    requires PaidOut(p, w0, before, w, after) || SentBack(p, w0, before, w, after) || NotYetSettled(p, w0, before, w, after)
    ensures if BankSays(p, w0, B.Settled) then PaidOut(p, w0, before, w, after)
            else if BankSays(p, w0, B.Returned) then SentBack(p, w0, before, w, after)
            else NotYetSettled(p, w0, before, w, after)
  {
  }

  // ------------------------------------------- all runs, however they overlap

  /** Every entry of the payout is on its account and of its amount. */
  predicate EntriesAsOrdered(p: Payout, lines: seq<L.Line>) {
    forall i | 0 <= i < |lines| && lines[i].payout == p.id :: lines[i].account == p.account && lines[i].amount == p.amount
  }

  /** Every transfer under its key is of its amount, and there is none to nine zeros. */
  predicate TransfersAsOrdered(p: Payout, transfers: seq<B.Transfer>) {
    forall i | 0 <= i < |transfers| && transfers[i].key == "payout:" + p.id ::
      transfers[i].amount == p.amount && p.routing != "000000000"
  }

  predicate CountedOk(p: Payout, runs: seq<Run>) {
    forall r | 0 <= r < |runs| && runs[r].place.Counted? :: p.routing != "000000000"
  }

  /** Who is told: nobody's payout says paid or returned before a notification was sent. */
  predicate ToldOk(w: World) {
    && (w.desk.status == Paid || w.desk.status == Returned ==> w.desk.notes >= 1)
    && (forall j | 0 <= j < |w.settled| :: (NotifyPaid in w.settled[j] || NotifyReturned in w.settled[j]) ==> w.desk.notes >= 1)
    && (forall s | 0 <= s < |w.settlements| :: (w.settlements[s].Told? || w.settlements[s].Marking?) ==> w.desk.notes >= 1)
    && w.desk.notes >= 0
  }

  predicate RowsOk(p: Payout, w: World) {
    && EntriesAsOrdered(p, w.books.lines) && TransfersAsOrdered(p, w.rail.transfers)
    && CountedOk(p, w.runs) && ToldOk(w)
  }

  lemma EntriesKept(p: Payout, b: L.Books, op: L.LedgerOp)
    requires EntriesAsOrdered(p, b.lines)
    requires op.payout == p.id && op.DoReserve? ==> op.account == p.account && op.amount == p.amount
    ensures EntriesAsOrdered(p, L.Applied(b, op).lines)
  {
  }

  lemma TransfersKept(p: Payout, rail: B.Rail, op: B.BankOp)
    requires TransfersAsOrdered(p, rail.transfers) && (op.DoSubmit? ==> op.key != "payout:" + p.id)
    ensures TransfersAsOrdered(p, B.Applied(rail, op).transfers)
  {
  }

  lemma StepEntries(p: Payout, w: World, r: nat, ref: string)
    requires EntriesAsOrdered(p, w.books.lines) && CanStep(w, r)
    ensures EntriesAsOrdered(p, StepRun(p, w, r, ref).books.lines)
  {
    EntriesKept(p, w.books, L.DoReserve(p.id, p.account, p.amount));
    EntriesKept(p, w.books, L.DoRelease(p.id));
  }

  lemma StepTransfers(p: Payout, w: World, r: nat, ref: string)
    requires TransfersAsOrdered(p, w.rail.transfers) && CountedOk(p, w.runs) && CanStep(w, r)
    ensures var w' := StepRun(p, w, r, ref); TransfersAsOrdered(p, w'.rail.transfers) && CountedOk(p, w'.runs)
  {
  }

  lemma StepTold(p: Payout, w: World, r: nat, ref: string)
    requires ToldOk(w) && CanStep(w, r)
    ensures ToldOk(StepRun(p, w, r, ref))
  {
  }

  lemma SettleEntries(p: Payout, w: World, s: nat)
    requires EntriesAsOrdered(p, w.books.lines) && s < |w.settlements| && HasJob(w, w.settlements[s])
    ensures EntriesAsOrdered(p, StepSettle(p, w, s).books.lines)
  {
    EntriesKept(p, w.books, L.DoPost(p.id));
    EntriesKept(p, w.books, L.DoRelease(p.id));
  }

  lemma SettleTransfers(p: Payout, w: World, s: nat)
    requires TransfersAsOrdered(p, w.rail.transfers) && s < |w.settlements| && HasJob(w, w.settlements[s])
    ensures TransfersAsOrdered(p, StepSettle(p, w, s).rail.transfers) && StepSettle(p, w, s).runs == w.runs
  {
    TransfersKept(p, w.rail, B.DoStatus(TransferKey(p.id), w.now));
  }

  lemma SettleTold(p: Payout, w: World, s: nat)
    requires ToldOk(w) && s < |w.settlements| && HasJob(w, w.settlements[s])
    ensures ToldOk(StepSettle(p, w, s))
  {
  }

  lemma RowsKept(p: Payout, w: World, l: Label)
    requires RowsOk(p, w) && Possible(p, w, l)
    ensures RowsOk(p, Next(p, w, l))
  {
    match l
    case OtherLedger(op) => EntriesKept(p, w.books, op);
    case OtherBank(op) => TransfersKept(p, w.rail, op);
    case Step(r, ref) =>
      StepEntries(p, w, r, ref);
      StepTransfers(p, w, r, ref);
      StepTold(p, w, r, ref);
    case StepSettlement(s) =>
      SettleEntries(p, w, s);
      SettleTransfers(p, w, s);
      SettleTold(p, w, s);
    case _ =>
  }

  /** In every state, whatever overlaps and whatever the other payouts do: what is held,
      posted or released for the payout is its own amount on its own account, what the rail
      has under its key is its amount, and a payout that says paid or returned has had a
      notification. */
  lemma {:induction false} RowsAlways(p: Payout, w: World, ls: seq<Label>)
    requires RowsOk(p, w) && CanTrace(p, w, ls)
    ensures RowsOk(p, Trace(p, w, ls))
    decreases |ls|
  {
    if ls != [] {
      RowsKept(p, w, ls[0]);
      RowsAlways(p, Next(p, w, ls[0]), ls[1..]);
    }
  }

  lemma StartsOk(p: Payout, w: World)
    requires Fresh(p, w)
    ensures RowsOk(p, w)
  {
    forall i | 0 <= i < |w.books.lines|
      ensures w.books.lines[i].payout != p.id
    {
      assert !L.HasLine(w.books.lines, p.id, w.books.lines[i].kind);
    }
  }

  /** What a step of anyone may make of the payout's own row. */
  lemma DeskMoves(p: Payout, w: World, l: Label)
    requires Possible(p, w, l)
    ensures var (d, d') := (w.desk, Next(p, w, l).desk);
            && (d.scheduled ==> d'.scheduled)
            && (l.Step? ==> |Next(p, w, l).settled| == |w.settled| + if d'.scheduled && !d.scheduled then 1 else 0)
            && (d'.status == Submitted && d.status != Submitted ==> d.status == Awaiting)
            && (d'.status == Awaiting ==> d.status == Awaiting)
            && (d'.notes == d.notes || d'.notes == d.notes + 1)
            && (d'.status != d.status ==> d'.notes == d.notes)
  {
  }
}
