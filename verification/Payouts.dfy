/** The payout workflow and the settlement workflow of one payout, statement by
    statement, against the ledger and the rail that they share with all others. */
module Payouts {
  import opened Values
  import L = Ledger
  import B = Bank

  /** The snapshot that the payout's job carries. */
  datatype Payout = Payout(id: L.PayoutId, account: L.AccountId, amount: int, routing: string)

  function TransferKey(id: L.PayoutId): string {
    "payout:" + id
  }

  lemma TransferKeyInjective(a: L.PayoutId, b: L.PayoutId)
    requires TransferKey(a) == TransferKey(b)
    ensures a == b
  {
    assert a == TransferKey(a)[7..] && b == TransferKey(b)[7..];
  }

  datatype Cause = NoFunds | BadRouting

  /** Where a run of the payout workflow is between two statements. Steps are numbered:
      0 reserves, 1 submits, 2 schedules the settlement, 3 marks the payout submitted. */
  datatype Place =
    | At(step: nat)             // about to look the step's checkpoint up
    | Missed(step: nat)         // it has none, and the body is about to run
    | NoHoldSeen                // Reserve saw no hold, and has not locked the balance yet
    | NotSent                   // the rail has no transfer under the key
    | Counted(attempts: int)    // the attempt is recorded, and the rail accepts it
    | Sent                      // the transfer is inserted
    | Made(step: nat)           // the body returned, and is not checkpointed yet
    | Abandoning(cause: Cause)  // a permanent error, the hold is not released yet
    | Failing                   // released, the payout's row does not say failed yet
    | Reporting                 // the customer is not notified yet
    | Over                      // returned, or crashed

  const STEPS: nat := 4

  /** A run, and the job whose checkpoints it uses; a replay is another job. */
  datatype Run = Run(job: JobId, place: Place)

  /** The checkpoints of a settlement. */
  datatype Checkpoint = ReleaseFunds | NotifyReturned | PostLedger | NotifyPaid

  function LedgerStep(status: B.TransferStatus): Checkpoint {
    if status == B.Returned then ReleaseFunds else PostLedger
  }

  function NoteStep(status: B.TransferStatus): Checkpoint {
    if status == B.Returned then NotifyReturned else NotifyPaid
  }

  /** Where a run of the settlement workflow is, and its job. */
  datatype Settlement =
    | Asking(job: nat)
    | Knows(job: nat, status: B.TransferStatus)    // the transfer is decided
    | Booked(job: nat, status: B.TransferStatus)   // the ledger step's body returned
    | Telling(job: nat, status: B.TransferStatus)  // the ledger step is checkpointed
    | Told(job: nat, status: B.TransferStatus)     // the notification's body returned
    | Marking(job: nat, status: B.TransferStatus)  // the notification is checkpointed
    | Closed

  datatype PayoutStatus = Awaiting | Submitted | Failed | Returned | Paid

  /** The payout's own row, its notifications, and whether its settlement's idempotency
      key is taken. */
  datatype Desk = Desk(scheduled: bool, status: PayoutStatus, notes: nat)

  datatype World = World(
    books: L.Books, rail: B.Rail, saved: map<JobId, set<nat>>, runs: seq<Run>,
    settled: seq<set<Checkpoint>>, settlements: seq<Settlement>, desk: Desk, now: Time)

  datatype Label =
    | Tick(to: Time)
    | OtherLedger(ledgerOp: L.LedgerOp)   // other payouts
    | OtherBank(bankOp: B.BankOp)
    | NewJob(job: JobId)                  // enqueued, or its checkpoints deleted by retention
    | Begin(job: JobId)
    | Step(r: nat, ref: string)
    | Crash(r: nat)
    | NewSettlement
    | BeginSettlement(check: nat)
    | StepSettlement(s: nat)
    | CrashSettlement(s: nat)

  // -------------------------------------------------------------- the steps

  predicate CanStep(w: World, r: nat) {
    r < |w.runs| && w.runs[r].job in w.saved
  }

  function Moved(w: World, r: nat, place: Place): World
    requires r < |w.runs|
  {
    w.(runs := w.runs[r := w.runs[r].(place := place)])
  }

  function Saved(w: World, job: JobId, step: nat): World
    requires job in w.saved
  {
    w.(saved := w.saved[job := w.saved[job] + {step}])
  }

  /** Reserve first looks for a hold, and takes no lock for it. */
  function StepFindHold(p: Payout, w: World, r: nat): World
    requires r < |w.runs|
  {
    Moved(w, r, if L.HasLine(w.books.lines, p.id, L.Hold) then Made(0) else NoHoldSeen)
  }

  /** Then it locks the balance, and inserts the hold if there is money for it. By then
      another run may have inserted one: the unique index refuses a second, with an error
      that is not permanent. */
  function StepReserve(p: Payout, w: World, r: nat): World
    requires r < |w.runs|
  {
    match L.LockedReply(w.books, p.id, p.account, p.amount)
    case Ok(_) => Moved(w, r, Made(0)).(books := L.Reserved(w.books, p.id, p.account, p.amount))
    case Err(InsufficientFunds) => Moved(w, r, Abandoning(NoFunds))
    case Err(_) => Moved(w, r, Over)
  }

  function StepCount(p: Payout, w: World, r: nat): World
    requires r < |w.runs|
  {
    var attempts := B.AttemptsAfter(w.rail, TransferKey(p.id));
    Moved(w, r, if p.routing == B.REJECT_ROUTING_NUMBER then Abandoning(BadRouting)
                else if B.IsFlaky(p.amount, attempts) then Over
                else Counted(attempts)).(rail := B.Counted(w.rail, TransferKey(p.id)))
  }

  function StepLookup(p: Payout, w: World, r: nat, otherwise: Place): World
    requires r < |w.runs|
  {
    Moved(w, r, if B.Lookup(w.rail.transfers, TransferKey(p.id)).Some? then Made(1) else otherwise)
  }

  /** The settlement's key makes the enqueue safe to repeat. */
  function StepSchedule(w: World, r: nat): World
    requires r < |w.runs|
  {
    Moved(w, r, Made(2)).(settled := if w.desk.scheduled then w.settled else w.settled + [{}],
                          desk := w.desk.(scheduled := true))
  }

  function MarkedSubmitted(desk: Desk): Desk {
    if desk.status == Awaiting then desk.(status := Submitted) else desk
  }

  function Noted(desk: Desk): Desk {
    desk.(notes := desk.notes + 1)
  }

  /** The first statement of a step's body. */
  function StepBody(p: Payout, w: World, r: nat, step: nat): World
    requires r < |w.runs| && step < STEPS
  {
    if step == 0 then StepFindHold(p, w, r)
    else if step == 1 then StepLookup(p, w, r, NotSent)
    else if step == 2 then StepSchedule(w, r)
    else Moved(w, r, Made(3)).(desk := MarkedSubmitted(w.desk))
  }

  function StepRun(p: Payout, w: World, r: nat, ref: string): World
    requires CanStep(w, r)
  {
    var job := w.runs[r].job;
    match w.runs[r].place
    case At(step) =>
      Moved(w, r, if step >= STEPS then Over else if step in w.saved[job] then At(step + 1) else Missed(step))
    case Missed(step) => if step < STEPS then StepBody(p, w, r, step) else w
    case NoHoldSeen => StepReserve(p, w, r)
    case NotSent => StepCount(p, w, r)
    case Counted(attempts) =>
      Moved(w, r, Sent).(rail := B.Inserted(w.rail, B.NewTransfer(TransferKey(p.id), ref, p.amount, attempts, w.now)))
    case Sent => StepLookup(p, w, r, Over)
    case Made(step) => Saved(Moved(w, r, At(step + 1)), job, step)
    case Abandoning(_) => Moved(w, r, Failing).(books := L.Released(w.books, p.id))
    case Failing => Moved(w, r, Reporting).(desk := w.desk.(status := Failed))
    case Reporting => Moved(w, r, Over).(desk := Noted(w.desk))
    case Over => w
  }

  function SettlementMoved(w: World, s: nat, place: Settlement): World
    requires s < |w.settlements|
  {
    w.(settlements := w.settlements[s := place])
  }

  function Settled(w: World, job: nat, step: Checkpoint): World
    requires job < |w.settled|
  {
    w.(settled := w.settled[job := w.settled[job] + {step}])
  }

  function StepAsk(p: Payout, w: World, s: nat, job: nat): World
    requires s < |w.settlements|
  {
    var reply := B.StatusReply(w.rail, TransferKey(p.id), w.now);
    SettlementMoved(w, s, if reply.Err? || reply.value.status == B.Pending then Closed else Knows(job, reply.value.status))
      .(rail := w.rail.(transfers := B.Resolved(w.rail.transfers, TransferKey(p.id), w.now)))
  }

  function StepBook(p: Payout, w: World, s: nat, job: nat, status: B.TransferStatus): World
    requires s < |w.settlements|
  {
    SettlementMoved(w, s, Booked(job, status))
      .(books := if status == B.Returned then L.Released(w.books, p.id) else L.Posted(w.books, p.id))
  }

  predicate HasJob(w: World, s: Settlement) {
    s.Closed? || s.job < |w.settled|
  }

  function StepSettle(p: Payout, w: World, s: nat): World
    requires s < |w.settlements| && HasJob(w, w.settlements[s])
  {
    match w.settlements[s]
    case Asking(job) => StepAsk(p, w, s, job)
    case Knows(job, status) =>
      if LedgerStep(status) in w.settled[job] then SettlementMoved(w, s, Telling(job, status))
      else StepBook(p, w, s, job, status)
    case Booked(job, status) => Settled(SettlementMoved(w, s, Telling(job, status)), job, LedgerStep(status))
    case Telling(job, status) =>
      if NoteStep(status) in w.settled[job] then SettlementMoved(w, s, Marking(job, status))
      else SettlementMoved(w, s, Told(job, status)).(desk := Noted(w.desk))
    case Told(job, status) => Settled(SettlementMoved(w, s, Marking(job, status)), job, NoteStep(status))
    case Marking(_, status) =>
      SettlementMoved(w, s, Closed).(desk := w.desk.(status := if status == B.Returned then Returned else Paid))
    case Closed => w
  }

  predicate Possible(p: Payout, w: World, l: Label) {
    match l
    case OtherLedger(op) => op.payout != p.id && (op.DoReserve? ==> op.amount > 0)
    case OtherBank(op) => op.key != TransferKey(p.id)
    case Step(r, _) => CanStep(w, r)
    case Crash(r) => r < |w.runs|
    case BeginSettlement(check) => check < |w.settled|
    case StepSettlement(s) => s < |w.settlements| && HasJob(w, w.settlements[s])
    case CrashSettlement(s) => s < |w.settlements|
    case _ => true
  }

  function Next(p: Payout, w: World, l: Label): World
    requires Possible(p, w, l)
  {
    match l
    case Tick(to) => w.(now := to)
    case OtherLedger(op) => w.(books := L.Applied(w.books, op))
    case OtherBank(op) => w.(rail := B.Applied(w.rail, op))
    case NewJob(job) => w.(saved := w.saved[job := {}])
    case Begin(job) => w.(runs := w.runs + [Run(job, At(0))])
    case Step(r, ref) => StepRun(p, w, r, ref)
    case Crash(r) => Moved(w, r, Over)
    case NewSettlement => w.(settled := w.settled + [{}])
    case BeginSettlement(check) => w.(settlements := w.settlements + [Asking(check)])
    case StepSettlement(s) => StepSettle(p, w, s)
    case CrashSettlement(s) => SettlementMoved(w, s, Closed)
  }

  ghost predicate CanTrace(p: Payout, w: World, ls: seq<Label>)
    decreases |ls|
  {
    ls != [] ==> Possible(p, w, ls[0]) && CanTrace(p, Next(p, w, ls[0]), ls[1..])
  }

  ghost function Trace(p: Payout, w: World, ls: seq<Label>): World
    requires CanTrace(p, w, ls)
    decreases |ls|
  {
    if ls == [] then w else Trace(p, Next(p, w, ls[0]), ls[1..])
  }

  // ---------------------------------------------------------- the invariant

  /** All that the shared tables say about the payout. */
  datatype View = View(held: bool, posted: bool, released: bool, transfer: Option<B.Transfer>)

  function LinesView(p: Payout, lines: seq<L.Line>, transfer: Option<B.Transfer>): View {
    View(L.HasLine(lines, p.id, L.Hold), L.HasLine(lines, p.id, L.Post), L.HasLine(lines, p.id, L.Release), transfer)
  }

  function ViewOf(p: Payout, w: World): View {
    LinesView(p, w.books.lines, B.Lookup(w.rail.transfers, TransferKey(p.id)))
  }

  predicate Rejected(p: Payout) {
    p.routing == B.REJECT_ROUTING_NUMBER
  }

  predicate HasStatus(v: View, status: B.TransferStatus) {
    v.transfer.Some? && v.transfer.value.status == status
  }

  /** What the entries of the payout say about its transfer; `late` says that a run that was
      refused may have released another run's hold. */
  predicate MoneyOk(late: bool, p: Payout, v: View) {
    && (v.transfer.Some? ==> !Rejected(p) && v.transfer.value.amount == p.amount && v.held)
    && (v.posted ==> HasStatus(v, B.Settled))
    && (v.released ==> late || Rejected(p) || HasStatus(v, B.Returned))
    && (v.posted || v.released ==> v.held)
  }

  predicate SavedOk(v: View, steps: set<nat>) {
    (0 in steps ==> v.held) && (1 in steps ==> v.transfer.Some?)
  }

  /** The steps before step `n` have had their effects. */
  predicate DoneUpTo(v: View, n: nat) {
    (n >= 1 ==> v.held) && (n >= 2 ==> v.transfer.Some?)
  }

  predicate PlaceOk(p: Payout, v: View, place: Place) {
    match place
    case At(step) => DoneUpTo(v, step)
    case Missed(step) => DoneUpTo(v, step)
    case NotSent => v.held
    case Counted(_) => v.held && !Rejected(p)
    case Sent => v.transfer.Some?
    case Made(step) => DoneUpTo(v, step + 1)
    case Abandoning(cause) => cause.NoFunds? || Rejected(p)
    case _ => true
  }

  /** The ledger says what a decided transfer calls for. */
  predicate Entered(v: View, status: B.TransferStatus) {
    if status == B.Returned then v.released else v.posted
  }

  predicate SettledOk(v: View, steps: set<Checkpoint>) {
    (ReleaseFunds in steps ==> v.released) && (PostLedger in steps ==> v.posted)
  }

  predicate SettlementOk(v: View, s: Settlement) {
    && (!s.Asking? && !s.Closed? ==> s.status != B.Pending && HasStatus(v, s.status))
    && (s.Booked? || s.Telling? || s.Told? || s.Marking? ==> Entered(v, s.status))
  }

  /** A payout that is marked paid or returned is so in the ledger. */
  predicate DeskOk(v: View, desk: Desk) {
    (desk.status == Paid ==> v.posted) && (desk.status == Returned ==> v.released)
  }

  predicate SettledAllOk(v: View, settled: seq<set<Checkpoint>>) {
    forall j | 0 <= j < |settled| :: SettledOk(v, settled[j])
  }

  predicate SavesOk(v: View, saved: map<JobId, set<nat>>) {
    forall j | j in saved :: SavedOk(v, saved[j])
  }

  predicate PlacesOk(p: Payout, v: View, runs: seq<Run>) {
    forall r | 0 <= r < |runs| :: PlaceOk(p, v, runs[r].place)
  }

  predicate SettlementsOk(v: View, settlements: seq<Settlement>) {
    forall s | 0 <= s < |settlements| :: SettlementOk(v, settlements[s])
  }

  predicate PayoutOk(late: bool, p: Payout, w: World) {
    var v := ViewOf(p, w);
    && MoneyOk(late, p, v)
    && SavesOk(v, w.saved) && PlacesOk(p, v, w.runs)
    && SettledAllOk(v, w.settled) && SettlementsOk(v, w.settlements) && DeskOk(v, w.desk)
  }

  // --------------------------------------------- what statements do to the view

  lemma AppendedLine(p: Payout, lines: seq<L.Line>, line: L.Line, t: Option<B.Transfer>)
    ensures var v := LinesView(p, lines, t);
            LinesView(p, lines + [line], t) ==
            if line.payout != p.id then v
            else View(v.held || line.kind == L.Hold, v.posted || line.kind == L.Post, v.released || line.kind == L.Release, t)
  {
    var longer := lines + [line];
    forall kind
      ensures L.HasLine(longer, p.id, kind) <==> L.HasLine(lines, p.id, kind) || (line.payout == p.id && line.kind == kind)
    {
      if L.HasLine(lines, p.id, kind) {
        var i :| 0 <= i < |lines| && lines[i].payout == p.id && lines[i].kind == kind;
        assert longer[i] == lines[i];
      }
      assert longer[|lines|] == line;
    }
  }

  lemma LedgerView(p: Payout, b: L.Books, op: L.LedgerOp, t: Option<B.Transfer>)
    ensures var v := LinesView(p, b.lines, t);
            LinesView(p, L.Applied(b, op).lines, t) ==
            if op.payout != p.id then v
            else match op
                 case DoReserve(_, account, amount) => v.(held := v.held || L.Funded(b, account, amount))
                 case DoPost(_) => v.(posted := v.posted || v.held)
                 case DoRelease(_) => v.(released := v.released || v.held)
  {
    var lines, lines' := b.lines, L.Applied(b, op).lines;
    if lines' != lines {
      assert lines' == lines + [lines'[|lines|]];
      AppendedLine(p, lines, lines'[|lines|], t);
    }
  }

  lemma InsertedView(p: Payout, rail: B.Rail, transfer: B.Transfer)
    requires transfer.key == TransferKey(p.id)
    ensures var t := B.Lookup(rail.transfers, TransferKey(p.id));
            B.Lookup(B.Inserted(rail, transfer).transfers, TransferKey(p.id)) == if t.Some? then t else Some(transfer)
  {
    B.AppendedLookup(rail.transfers, transfer, TransferKey(p.id));
  }

  lemma OtherBankView(p: Payout, rail: B.Rail, op: B.BankOp)
    requires op.key != TransferKey(p.id)
    ensures B.Lookup(B.Applied(rail, op).transfers, TransferKey(p.id)) == B.Lookup(rail.transfers, TransferKey(p.id))
  {
    match op
    case DoSubmit(key, amount, routing, ref, now) =>
      B.AppendedLookup(rail.transfers, B.NewTransfer(key, ref, amount, B.AttemptsAfter(rail, key), now), TransferKey(p.id));
    case DoStatus(key, now) => B.ResolvedLookup(rail.transfers, key, now, TransferKey(p.id));
  }

  /** The payout's rows only ever move forward. */
  predicate Forward(v: View, v': View) {
    (v.held ==> v'.held) && (v.posted ==> v'.posted) && (v.released ==> v'.released) && B.Lasts(v.transfer, v'.transfer)
  }

  lemma FootingKept(p: Payout, v: View, v': View, place: Place)
    requires Forward(v, v') && PlaceOk(p, v, place)
    ensures PlaceOk(p, v', place)
  {
  }

  lemma SettlementStays(v: View, v': View, s: Settlement)
    requires Forward(v, v') && SettlementOk(v, s)
    ensures SettlementOk(v', s)
  {
  }

  lemma OthersKept(late: bool, p: Payout, w: World, v': View)
    requires Forward(ViewOf(p, w), v') && PayoutOk(late, p, w)
    ensures SavesOk(v', w.saved) && PlacesOk(p, v', w.runs)
    ensures SettledAllOk(v', w.settled) && SettlementsOk(v', w.settlements) && DeskOk(v', w.desk)
  {
    forall r | 0 <= r < |w.runs|
      ensures PlaceOk(p, v', w.runs[r].place)
    {
      FootingKept(p, ViewOf(p, w), v', w.runs[r].place);
    }
    forall s | 0 <= s < |w.settlements|
      ensures SettlementOk(v', w.settlements[s])
    {
      SettlementStays(ViewOf(p, w), v', w.settlements[s]);
    }
  }

  // ------------------------------------------------------ the belated release

  /** A run that was refused for lack of funds releases, and there is a hold: another
      run has made it in between. */
  predicate Belated(p: Payout, w: World, l: Label) {
    && l.Step? && l.r < |w.runs| && w.runs[l.r].place == Abandoning(NoFunds)
    && L.HasLine(w.books.lines, p.id, L.Hold)
  }

  ghost predicate EverBelated(p: Payout, w: World, ls: seq<Label>)
    requires CanTrace(p, w, ls)
    decreases |ls|
  {
    ls != [] && (Belated(p, w, ls[0]) || EverBelated(p, Next(p, w, ls[0]), ls[1..]))
  }

  // ------------------------------------------------------- the payout's runs

  /** A step of a run: what it does to the payout's rows, its own checkpoints and its
      place. */
  ghost predicate StepOk(late: bool, p: Payout, w: World, r: nat, w': World)
    requires r < |w.runs|
  {
    var v, v' := ViewOf(p, w), ViewOf(p, w');
    && Forward(v, v') && MoneyOk(late, p, v')
    && w'.settlements == w.settlements && (w'.settled == w.settled || w'.settled == w.settled + [{}])
    && (w'.desk.status == w.desk.status || w'.desk.status == Submitted || w'.desk.status == Failed)
    && (exists place :: w'.runs == w.runs[r := w.runs[r].(place := place)] && PlaceOk(p, v', place))
    && w'.saved.Keys == w.saved.Keys && (forall j | j in w.saved :: w'.saved[j] == w.saved[j] || SavedOk(v', w'.saved[j]))
  }

  lemma BodyStepOk(late: bool, p: Payout, w: World, r: nat, step: nat)
    requires r < |w.runs| && PayoutOk(late, p, w) && w.runs[r].place == Missed(step) && step < STEPS
    ensures StepOk(late, p, w, r, StepBody(p, w, r, step))
  {
    var w' := StepBody(p, w, r, step);
    assert PlaceOk(p, ViewOf(p, w), w.runs[r].place);
    assert w'.runs == w.runs[r := w.runs[r].(place := w'.runs[r].place)];
  }

  lemma ReserveStepOk(late: bool, p: Payout, w: World, r: nat)
    requires r < |w.runs| && PayoutOk(late, p, w) && w.runs[r].place == NoHoldSeen
    ensures StepOk(late, p, w, r, StepReserve(p, w, r))
  {
    var w' := StepReserve(p, w, r);
    LedgerView(p, w.books, L.DoReserve(p.id, p.account, p.amount), ViewOf(p, w).transfer);
    assert w'.runs == w.runs[r := w.runs[r].(place := w'.runs[r].place)];
  }

  lemma SaveStepOk(late: bool, p: Payout, w: World, r: nat, ref: string)
    requires CanStep(w, r) && PayoutOk(late, p, w) && w.runs[r].place.Made?
    ensures StepOk(late, p, w, r, StepRun(p, w, r, ref))
  {
    var w' := StepRun(p, w, r, ref);
    assert PlaceOk(p, ViewOf(p, w), w.runs[r].place) && SavedOk(ViewOf(p, w), w.saved[w.runs[r].job]);
    assert w'.runs == w.runs[r := w.runs[r].(place := w'.runs[r].place)];
  }

  lemma SubmitStepOk(late: bool, p: Payout, w: World, r: nat, ref: string)
    requires CanStep(w, r) && PayoutOk(late, p, w)
    requires var place := w.runs[r].place; place.NotSent? || place.Counted? || place.Sent?
    ensures StepOk(late, p, w, r, StepRun(p, w, r, ref))
  {
    var w' := StepRun(p, w, r, ref);
    assert PlaceOk(p, ViewOf(p, w), w.runs[r].place);
    assert w'.runs == w.runs[r := w.runs[r].(place := w'.runs[r].place)];
    if w.runs[r].place.Counted? {
      InsertedView(p, w.rail, B.NewTransfer(TransferKey(p.id), ref, p.amount, w.runs[r].place.attempts, w.now));
    }
  }

  lemma ReleaseStepOk(late: bool, p: Payout, w: World, r: nat, ref: string)
    requires CanStep(w, r) && PayoutOk(late, p, w) && (Belated(p, w, Step(r, ref)) ==> late) && w.runs[r].place.Abandoning?
    ensures StepOk(late, p, w, r, StepRun(p, w, r, ref))
  {
    var w' := StepRun(p, w, r, ref);
    assert PlaceOk(p, ViewOf(p, w), w.runs[r].place);
    assert w'.runs == w.runs[r := w.runs[r].(place := w'.runs[r].place)];
    LedgerView(p, w.books, L.DoRelease(p.id), ViewOf(p, w).transfer);
  }

  lemma ReportStepOk(late: bool, p: Payout, w: World, r: nat, ref: string)
    requires CanStep(w, r) && PayoutOk(late, p, w)
    requires var place := w.runs[r].place; place.Failing? || place.Reporting? || place.Over?
    ensures StepOk(late, p, w, r, StepRun(p, w, r, ref))
  {
    var w' := StepRun(p, w, r, ref);
    assert w'.runs == w.runs[r := w.runs[r].(place := w'.runs[r].place)];
  }

  lemma AtStepOk(late: bool, p: Payout, w: World, r: nat, ref: string)
    requires CanStep(w, r) && PayoutOk(late, p, w) && (w.runs[r].place.At? || w.runs[r].place.Missed?)
    ensures StepOk(late, p, w, r, StepRun(p, w, r, ref))
  {
    var w', place := StepRun(p, w, r, ref), w.runs[r].place;
    assert PlaceOk(p, ViewOf(p, w), place) && SavedOk(ViewOf(p, w), w.saved[w.runs[r].job]);
    if place.Missed? && place.step < STEPS {
      BodyStepOk(late, p, w, r, place.step);
    } else {
      assert w'.runs == w.runs[r := w.runs[r].(place := w'.runs[r].place)];
    }
  }

  lemma RunStepOk(late: bool, p: Payout, w: World, r: nat, ref: string)
    requires CanStep(w, r) && PayoutOk(late, p, w) && (Belated(p, w, Step(r, ref)) ==> late)
    ensures StepOk(late, p, w, r, StepRun(p, w, r, ref))
  {
    var place := w.runs[r].place;
    if place.At? || place.Missed? {
      AtStepOk(late, p, w, r, ref);
    } else if place.NoHoldSeen? {
      ReserveStepOk(late, p, w, r);
    } else if place.NotSent? || place.Counted? || place.Sent? {
      SubmitStepOk(late, p, w, r, ref);
    } else if place.Made? {
      SaveStepOk(late, p, w, r, ref);
    } else if place.Abandoning? {
      ReleaseStepOk(late, p, w, r, ref);
    } else {
      ReportStepOk(late, p, w, r, ref);
    }
  }

  lemma StepKept(late: bool, p: Payout, w: World, r: nat, w': World)
    requires r < |w.runs| && PayoutOk(late, p, w) && StepOk(late, p, w, r, w')
    ensures PayoutOk(late, p, w')
  {
    OthersKept(late, p, w, ViewOf(p, w'));
  }

  // --------------------------------------------------------- the settlements

  lemma AskKept(late: bool, p: Payout, w: World, s: nat, job: nat)
    requires s < |w.settlements| && PayoutOk(late, p, w) && w.settlements[s] == Asking(job)
    ensures PayoutOk(late, p, StepAsk(p, w, s, job))
  {
    B.ResolvedLookup(w.rail.transfers, TransferKey(p.id), w.now, TransferKey(p.id));
    OthersKept(late, p, w, ViewOf(p, StepAsk(p, w, s, job)));
  }

  lemma BookKept(late: bool, p: Payout, w: World, s: nat, job: nat, status: B.TransferStatus)
    requires s < |w.settlements| && PayoutOk(late, p, w) && w.settlements[s] == Knows(job, status)
    ensures PayoutOk(late, p, StepBook(p, w, s, job, status))
  {
    var v := ViewOf(p, w);
    assert SettlementOk(v, w.settlements[s]);
    LedgerView(p, w.books, if status == B.Returned then L.DoRelease(p.id) else L.DoPost(p.id), v.transfer);
    OthersKept(late, p, w, ViewOf(p, StepBook(p, w, s, job, status)));
  }

  /** A settlement writes a checkpoint, and nothing else but its own place. */
  lemma SettledKept(late: bool, p: Payout, w: World, s: nat, job: nat, step: Checkpoint, next: Settlement)
    requires s < |w.settlements| && job < |w.settled| && PayoutOk(late, p, w)
    requires SettlementOk(ViewOf(p, w), next) && SettledOk(ViewOf(p, w), w.settled[job] + {step})
    ensures PayoutOk(late, p, Settled(SettlementMoved(w, s, next), job, step))
  {
  }

  lemma DeskKept(late: bool, p: Payout, w: World, s: nat, next: Settlement, desk: Desk)
    requires s < |w.settlements| && PayoutOk(late, p, w)
    requires SettlementOk(ViewOf(p, w), next) && DeskOk(ViewOf(p, w), desk)
    ensures PayoutOk(late, p, SettlementMoved(w, s, next).(desk := desk))
  {
  }

  lemma SettleKept(late: bool, p: Payout, w: World, s: nat)
    requires s < |w.settlements| && HasJob(w, w.settlements[s]) && PayoutOk(late, p, w)
    ensures PayoutOk(late, p, StepSettle(p, w, s))
  {
    var now := w.settlements[s];
    assert SettlementOk(ViewOf(p, w), now);
    if !now.Closed? { assert SettledOk(ViewOf(p, w), w.settled[now.job]); }
    match now
    case Asking(job) => AskKept(late, p, w, s, job);
    case Knows(job, status) =>
      if LedgerStep(status) in w.settled[job] { DeskKept(late, p, w, s, Telling(job, status), w.desk); }
      else { BookKept(late, p, w, s, job, status); }
    case Booked(job, status) => SettledKept(late, p, w, s, job, LedgerStep(status), Telling(job, status));
    case Telling(job, status) =>
      if NoteStep(status) in w.settled[job] { DeskKept(late, p, w, s, Marking(job, status), w.desk); }
      else { DeskKept(late, p, w, s, Told(job, status), Noted(w.desk)); }
    case Told(job, status) => SettledKept(late, p, w, s, job, NoteStep(status), Marking(job, status));
    case Marking(_, status) =>
      DeskKept(late, p, w, s, Closed, w.desk.(status := if status == B.Returned then Returned else Paid));
    case Closed =>
  }

  // ------------------------------------------------------------- every trace

  lemma NextKept(late: bool, p: Payout, w: World, l: Label)
    requires PayoutOk(late, p, w) && Possible(p, w, l) && (Belated(p, w, l) ==> late)
    ensures PayoutOk(late, p, Next(p, w, l))
  {
    match l
    case OtherLedger(op) => LedgerView(p, w.books, op, ViewOf(p, w).transfer);
    case OtherBank(op) => OtherBankView(p, w.rail, op);
    case Step(r, ref) =>
      RunStepOk(late, p, w, r, ref);
      StepKept(late, p, w, r, StepRun(p, w, r, ref));
    case StepSettlement(s) => SettleKept(late, p, w, s);
    case _ =>
  }

  lemma {:induction false} TraceKept(late: bool, p: Payout, w: World, ls: seq<Label>)
    requires PayoutOk(late, p, w) && CanTrace(p, w, ls) && (EverBelated(p, w, ls) ==> late)
    ensures PayoutOk(late, p, Trace(p, w, ls))
    decreases |ls|
  {
    if ls != [] {
      NextKept(late, p, w, ls[0]);
      TraceKept(late, p, Next(p, w, ls[0]), ls[1..]);
    }
  }

  /** Entries stay. */
  lemma ReleasedStays(p: Payout, w: World, l: Label)
    requires Possible(p, w, l)
    ensures L.HasLine(w.books.lines, p.id, L.Release) ==> L.HasLine(Next(p, w, l).books.lines, p.id, L.Release)
    ensures Belated(p, w, l) ==> L.HasLine(Next(p, w, l).books.lines, p.id, L.Release)
  {
    var op := BooksStep(p, w, l);
    if op.Some? { LedgerView(p, w.books, op.value, None); }
    if Belated(p, w, l) { LedgerView(p, w.books, L.DoRelease(p.id), None); }
  }

  lemma {:induction false} BelatedReleases(p: Payout, w: World, ls: seq<Label>)
    requires CanTrace(p, w, ls) && (EverBelated(p, w, ls) || L.HasLine(w.books.lines, p.id, L.Release))
    ensures L.HasLine(Trace(p, w, ls).books.lines, p.id, L.Release)
    decreases |ls|
  {
    if ls != [] {
      ReleasedStays(p, w, ls[0]);
      BelatedReleases(p, Next(p, w, ls[0]), ls[1..]);
    }
  }

  /** Nothing has been done for the payout yet. */
  predicate Fresh(p: Payout, w: World) {
    && ViewOf(p, w) == View(false, false, false, None)
    && w.saved == map[] && w.runs == [] && w.settled == [] && w.settlements == [] && w.desk == Desk(false, Awaiting, 0)
  }

  /** Exactly when a payout is both paid and refunded, over all crashes, retries,
      replays, overlapping runs and settlement checks, with any other payouts in between:
      it was paid, and a run that had been refused for lack of funds released after
      another run had made a hold. */
  lemma PaidAndRefundedIff(p: Payout, w: World, ls: seq<Label>)
    requires Fresh(p, w) && CanTrace(p, w, ls)
    ensures var lines := Trace(p, w, ls).books.lines;
            L.HasLine(lines, p.id, L.Post) && L.HasLine(lines, p.id, L.Release)
            <==> L.HasLine(lines, p.id, L.Post) && EverBelated(p, w, ls)
  {
    if EverBelated(p, w, ls) {
      BelatedReleases(p, w, ls);
    } else {
      TraceKept(false, p, w, ls);
    }
  }

  // ------------------------------------------------------- the guarded system

  /** This statement makes the payout's hold. */
  predicate Holds(p: Payout, w: World, l: Label) {
    && l.Step? && l.r < |w.runs| && w.runs[l.r].place == NoHoldSeen
    && !L.HasLine(w.books.lines, p.id, L.Hold) && L.Funded(w.books, p.account, p.amount)
  }

  /** A run that would miss a hold made now: it has looked for one already and not reserved
      yet, or was refused and has not released yet. */
  predicate Unaware(place: Place) {
    place == NoHoldSeen || place == Abandoning(NoFunds)
  }

  /** No run makes the hold of the payout while another is between its look for a hold and
      the end of its reservation, or of its release if it is refused. */
  predicate Patient(p: Payout, w: World, l: Label) {
    Holds(p, w, l) ==> forall r | 0 <= r < |w.runs| && r != l.r :: !Unaware(w.runs[r].place)
  }

  ghost predicate AllPatient(p: Payout, w: World, ls: seq<Label>)
    requires CanTrace(p, w, ls)
    decreases |ls|
  {
    ls != [] ==> Patient(p, w, ls[0]) && AllPatient(p, Next(p, w, ls[0]), ls[1..])
  }

  /** As long as there is such a run, there is no hold. */
  predicate Aware(p: Payout, w: World) {
    forall r | 0 <= r < |w.runs| && Unaware(w.runs[r].place) :: !L.HasLine(w.books.lines, p.id, L.Hold)
  }

  lemma OnlyReserveHolds(p: Payout, w: World, l: Label)
    requires Possible(p, w, l)
    requires !L.HasLine(w.books.lines, p.id, L.Hold) && L.HasLine(Next(p, w, l).books.lines, p.id, L.Hold)
    ensures Holds(p, w, l) && Next(p, w, l).runs == w.runs[l.r := w.runs[l.r].(place := Made(0))]
  {
    var op := BooksStep(p, w, l);
    if op.Some? { LedgerView(p, w.books, op.value, None); }
  }

  lemma UnawareByStep(p: Payout, w: World, r: nat, ref: string, k: nat)
    requires CanStep(w, r)
    requires k < |StepRun(p, w, r, ref).runs| && Unaware(StepRun(p, w, r, ref).runs[k].place)
    ensures k < |w.runs|
    ensures Unaware(w.runs[k].place) || (k == r && !L.HasLine(StepRun(p, w, r, ref).books.lines, p.id, L.Hold))
  {
  }

  /** A run looks for a hold in vain only where there is none. */
  lemma UnawareWhereNoHold(p: Payout, w: World, l: Label, r: nat)
    requires Possible(p, w, l) && r < |Next(p, w, l).runs| && Unaware(Next(p, w, l).runs[r].place)
    ensures r < |w.runs|
    ensures Unaware(w.runs[r].place) || (l.Step? && l.r == r && !L.HasLine(Next(p, w, l).books.lines, p.id, L.Hold))
  {
    match l
    case Step(k, ref) => UnawareByStep(p, w, k, ref, r);
    case StepSettlement(s) => assert StepSettle(p, w, s).runs == w.runs;
    case _ =>
  }

  lemma PatienceKept(p: Payout, w: World, l: Label)
    requires Aware(p, w) && Possible(p, w, l) && Patient(p, w, l)
    ensures Aware(p, Next(p, w, l)) && !Belated(p, w, l)
  {
    var w' := Next(p, w, l);
    forall r | 0 <= r < |w'.runs| && Unaware(w'.runs[r].place)
      ensures !L.HasLine(w'.books.lines, p.id, L.Hold)
    {
      UnawareWhereNoHold(p, w, l, r);
      if Unaware(w.runs[r].place) && L.HasLine(w'.books.lines, p.id, L.Hold) {
        OnlyReserveHolds(p, w, l);
      }
    }
  }

  lemma {:induction false} PatientIsNeverBelated(p: Payout, w: World, ls: seq<Label>)
    requires Aware(p, w) && CanTrace(p, w, ls) && AllPatient(p, w, ls)
    ensures !EverBelated(p, w, ls)
    decreases |ls|
  {
    if ls != [] {
      PatienceKept(p, w, ls[0]);
      PatientIsNeverBelated(p, Next(p, w, ls[0]), ls[1..]);
    }
  }

  /** A payout is never both paid and refunded, zombies included, as long as no run makes
      the hold while another that looked for one in vain has still to finish: a posted payout has a settled
      transfer of its amount and no refund, and a refunded one has a transfer that came
      back, or none at all. */
  lemma NeverPaidAndRefunded(p: Payout, w: World, ls: seq<Label>)
    requires Fresh(p, w) && CanTrace(p, w, ls) && AllPatient(p, w, ls)
    ensures var last := Trace(p, w, ls);
            var lines, transfer := last.books.lines, B.Lookup(last.rail.transfers, TransferKey(p.id));
            && !(L.HasLine(lines, p.id, L.Post) && L.HasLine(lines, p.id, L.Release))
            && (L.HasLine(lines, p.id, L.Post) ==>
                  transfer.Some? && transfer.value.status == B.Settled && transfer.value.amount == p.amount)
            && (L.HasLine(lines, p.id, L.Release) ==> transfer.None? || transfer.value.status == B.Returned)
            && (transfer.Some? ==> L.HasLine(lines, p.id, L.Hold))
            && (last.desk.status == Paid ==> L.HasLine(lines, p.id, L.Post))
            && (last.desk.status == Returned ==> L.HasLine(lines, p.id, L.Release))
  {
    PatientIsNeverBelated(p, w, ls);
    TraceKept(false, p, w, ls);
  }

  // ---------------------------------------------------------- one at a time

  /** A run of the payout begins only when the earlier ones are over. */
  predicate Alone(w: World, l: Label) {
    l.Begin? ==> forall r | 0 <= r < |w.runs| :: w.runs[r].place.Over?
  }

  ghost predicate NoOverlap(p: Payout, w: World, ls: seq<Label>)
    requires CanTrace(p, w, ls)
    decreases |ls|
  {
    ls != [] ==> Alone(w, ls[0]) && NoOverlap(p, Next(p, w, ls[0]), ls[1..])
  }

  predicate OneLive(runs: seq<Run>) {
    forall q, r | 0 <= q < r < |runs| :: runs[q].place.Over? || runs[r].place.Over?
  }

  lemma OneLiveKept(p: Payout, w: World, l: Label)
    requires OneLive(w.runs) && Possible(p, w, l) && Alone(w, l)
    ensures OneLive(Next(p, w, l).runs) && Patient(p, w, l)
  {
    if l.Step? {
      var runs' := Next(p, w, l).runs;
      assert |runs'| == |w.runs| && forall q | 0 <= q < |runs'| && q != l.r :: runs'[q] == w.runs[q];
      assert w.runs[l.r].place.Over? ==> runs'[l.r] == w.runs[l.r];
    }
  }

  /** Runs that do not overlap at all are patient. */
  lemma {:induction false} NoOverlapIsPatient(p: Payout, w: World, ls: seq<Label>)
    requires OneLive(w.runs) && CanTrace(p, w, ls) && NoOverlap(p, w, ls)
    ensures AllPatient(p, w, ls)
    decreases |ls|
  {
    if ls != [] {
      OneLiveKept(p, w, ls[0]);
      NoOverlapIsPatient(p, Next(p, w, ls[0]), ls[1..]);
    }
  }

  // ------------------------------------------- the tables, with all payouts

  /** Every statement is one ledger operation or none. */
  lemma BooksStep(p: Payout, w: World, l: Label) returns (op: Option<L.LedgerOp>)
    requires Possible(p, w, l)
    ensures op.Some? ==> Next(p, w, l).books == L.Applied(w.books, op.value)
    ensures op.Some? && op.value.DoReserve? && p.amount > 0 ==> op.value.amount > 0
    ensures op.None? ==> Next(p, w, l).books == w.books
  {
    var books := Next(p, w, l).books;
    op := None;
    match l
    case OtherLedger(other) => op := Some(other);
    case Step(r, _) =>
      if w.runs[r].place == NoHoldSeen && books != w.books { op := Some(L.DoReserve(p.id, p.account, p.amount)); }
      if w.runs[r].place.Abandoning? { op := Some(L.DoRelease(p.id)); }
    case StepSettlement(s) =>
      if w.settlements[s].Knows? && LedgerStep(w.settlements[s].status) !in w.settled[w.settlements[s].job] {
        op := Some(if w.settlements[s].status == B.Returned then L.DoRelease(p.id) else L.DoPost(p.id));
      }
    case _ =>
  }

  lemma RailStep(p: Payout, w: World, l: Label)
    requires B.OnePerKey(w.rail.transfers) && Possible(p, w, l)
    ensures B.OnePerKey(Next(p, w, l).rail.transfers)
  {
    if l.OtherBank? { B.TransferLasts(w.rail, l.bankOp, TransferKey(p.id)); }
  }

  lemma TablesKept(p: Payout, w: World, l: Label, initial: map<L.AccountId, int>)
    requires L.BooksOk(initial, w.books) && B.OnePerKey(w.rail.transfers) && p.amount > 0 && Possible(p, w, l)
    ensures L.BooksOk(initial, Next(p, w, l).books) && B.OnePerKey(Next(p, w, l).rail.transfers)
  {
    var op := BooksStep(p, w, l);
    if op.Some? { L.BooksKept(initial, w.books, op.value); }
    RailStep(p, w, l);
  }

  /** Money is conserved on all accounts, and the rail has at most one transfer for
      the payout, even when runs overlap. */
  lemma {:induction false} MoneyConserved(p: Payout, w: World, ls: seq<Label>, initial: map<L.AccountId, int>)
    requires L.BooksOk(initial, w.books) && B.OnePerKey(w.rail.transfers) && p.amount > 0 && CanTrace(p, w, ls)
    ensures var last := Trace(p, w, ls);
            L.BooksOk(initial, last.books) && B.OnePerKey(last.rail.transfers)
    decreases |ls|
  {
    if ls != [] {
      TablesKept(p, w, ls[0], initial);
      MoneyConserved(p, Next(p, w, ls[0]), ls[1..], initial);
    }
  }

  // ------------------------------------------- two ways to both entries

  lemma Before(p: Payout, w: World, l: Label, w': World, ls: seq<Label>) returns (more: seq<Label>)
    requires Possible(p, w, l) && Next(p, w, l) == w' && CanTrace(p, w', ls)
    ensures more == [l] + ls && CanTrace(p, w, more) && Trace(p, w, more) == Trace(p, w', ls)
  {
    more := [l] + ls;
    assert more[1..] == ls;
  }

  /** The account is empty: the money is held for payout "q". */
  const EMPTY_ACCOUNT := L.Books(map["a" := 0], [L.Line("a", "q", L.Hold, 100)])
  const REFILLED := L.Books(map["a" := 100], EMPTY_ACCOUNT.lines + [L.Line("a", "q", L.Release, 100)])
  const HELD := L.Books(map["a" := 0], REFILLED.lines + [L.Line("a", "p", L.Hold, 100)])
  const SENT := B.Transfer("payout:p", "ach", B.Pending, 100, 1, B.SETTLE_LAG)

  const P := Payout("p", "a", 100, "021000021")
  const NO_RAIL := B.Rail([], map[])
  const TRIED := B.Rail([], map["payout:p" := 1])

  /** Two runs of one job. */
  function Both(books: L.Books, rail: B.Rail, saved: set<nat>, first: Place, second: Place): World {
    World(books, rail, map["j" := saved], [Run("j", first), Run("j", second)], [], [], Desk(false, Awaiting, 0), 0)
  }

  /** The first run has been refused, the second one is at `second`. */
  function Racing(books: L.Books, rail: B.Rail, saved: set<nat>, second: Place): World {
    Both(books, rail, saved, Abandoning(NoFunds), second)
  }

  /** Nothing has happened yet, and these are the books. */
  function Start(books: L.Books): World {
    World(books, NO_RAIL, map[], [], [], [], Desk(false, Awaiting, 0), 0)
  }

  /** The second run has scheduled the settlement, which asks when it is due. */
  const DUE := World(
    HELD, TRIED.(transfers := [SENT]), map["j" := {0, 1}], [Run("j", Abandoning(NoFunds)), Run("j", Made(2))],
    [{}], [Asking(0)], Desk(true, Awaiting, 0), B.SETTLE_LAG)

  /** A run of the job looks for a hold, in vain. */
  lemma LooksInVain(w: World, r: nat, w': World, ls: seq<Label>) returns (more: seq<Label>)
    requires CanStep(w, r) && w.runs[r].place == At(0) && 0 !in w.saved[w.runs[r].job]
    requires !L.HasLine(w.books.lines, "p", L.Hold) && w' == Moved(w, r, NoHoldSeen) && CanTrace(P, w', ls)
    ensures CanTrace(P, w, more) && Trace(P, w, more) == Trace(P, w', ls)
  {
    var mid := Moved(w, r, Missed(0));
    assert mid.runs[r := mid.runs[r].(place := NoHoldSeen)] == w'.runs;
    more := Before(P, mid, Step(r, ""), w', ls);
    more := Before(P, w, Step(r, ""), mid, more);
  }

  lemma FirstRunBegins(books: L.Books, w: World, ls: seq<Label>) returns (more: seq<Label>)
    requires w == Start(books).(saved := map["j" := {}], runs := [Run("j", At(0))]) && CanTrace(P, w, ls)
    ensures CanTrace(P, Start(books), more) && Trace(P, Start(books), more) == Trace(P, w, ls)
  {
    var known := Start(books).(saved := map["j" := {}]);
    more := Before(P, known, Begin("j"), w, ls);
    more := Before(P, Start(books), NewJob("j"), known, more);
  }

  lemma FirstRunFindsNoMoney(ls: seq<Label>) returns (more: seq<Label>)
    requires CanTrace(P, Racing(REFILLED, NO_RAIL, {}, At(0)), ls)
    ensures CanTrace(P, Start(EMPTY_ACCOUNT), more)
    ensures Trace(P, Start(EMPTY_ACCOUNT), more) == Trace(P, Racing(REFILLED, NO_RAIL, {}, At(0)), ls)
  {
    var w1 := Start(EMPTY_ACCOUNT).(saved := map["j" := {}], runs := [Run("j", At(0))]);
    var w2 := w1.(runs := [Run("j", NoHoldSeen)]);
    var w3 := w1.(runs := [Run("j", Abandoning(NoFunds))]);
    var w4 := w3.(books := REFILLED);
    more := Before(P, w4, Begin("j"), Racing(REFILLED, NO_RAIL, {}, At(0)), ls);
    assert EMPTY_ACCOUNT.lines[0] == L.Line("a", "q", L.Hold, 100);
    more := Before(P, w3, OtherLedger(L.DoRelease("q")), w4, more);
    more := Before(P, w2, Step(0, ""), w3, more);
    more := LooksInVain(w1, 0, w2, more);
    more := FirstRunBegins(EMPTY_ACCOUNT, w1, more);
  }

  /** Beside a run that was refused, another one makes the hold. */
  lemma SecondRunHolds(ls: seq<Label>) returns (more: seq<Label>)
    requires CanTrace(P, Racing(HELD, NO_RAIL, {}, Made(0)), ls)
    ensures var w := Racing(REFILLED, NO_RAIL, {}, At(0));
            CanTrace(P, w, more) && Trace(P, w, more) == Trace(P, Racing(HELD, NO_RAIL, {}, Made(0)), ls)
  {
    var looked := Racing(REFILLED, NO_RAIL, {}, NoHoldSeen);
    more := Before(P, looked, Step(1, ""), Racing(HELD, NO_RAIL, {}, Made(0)), ls);
    more := LooksInVain(Racing(REFILLED, NO_RAIL, {}, At(0)), 1, looked, more);
  }

  /** Of two runs that saw no hold, the second makes it and leaves no money for the first. */
  lemma OneHoldForBoth(ls: seq<Label>) returns (more: seq<Label>)
    requires CanTrace(P, Racing(HELD, NO_RAIL, {}, Made(0)), ls)
    ensures var w := Both(REFILLED, NO_RAIL, {}, NoHoldSeen, NoHoldSeen);
            CanTrace(P, w, more) && Trace(P, w, more) == Trace(P, Racing(HELD, NO_RAIL, {}, Made(0)), ls)
  {
    var w4, w5 := Both(REFILLED, NO_RAIL, {}, NoHoldSeen, NoHoldSeen), Both(HELD, NO_RAIL, {}, NoHoldSeen, Made(0));
    more := Before(P, w5, Step(0, ""), Racing(HELD, NO_RAIL, {}, Made(0)), ls);
    more := Before(P, w4, Step(1, ""), w5, more);
  }

  lemma BothLook(ls: seq<Label>) returns (more: seq<Label>)
    requires CanTrace(P, Both(REFILLED, NO_RAIL, {}, NoHoldSeen, NoHoldSeen), ls)
    ensures CanTrace(P, Start(REFILLED), more)
    ensures Trace(P, Start(REFILLED), more) == Trace(P, Both(REFILLED, NO_RAIL, {}, NoHoldSeen, NoHoldSeen), ls)
  {
    var w1 := Start(REFILLED).(saved := map["j" := {}], runs := [Run("j", At(0))]);
    var w2, w3 := Both(REFILLED, NO_RAIL, {}, At(0), At(0)), Both(REFILLED, NO_RAIL, {}, NoHoldSeen, At(0));
    more := LooksInVain(w3, 1, Both(REFILLED, NO_RAIL, {}, NoHoldSeen, NoHoldSeen), ls);
    more := LooksInVain(w2, 0, w3, more);
    more := Before(P, w1, Begin("j"), w2, more);
    more := FirstRunBegins(REFILLED, w1, more);
  }

  lemma SecondRunCounts(ls: seq<Label>) returns (more: seq<Label>)
    requires CanTrace(P, Racing(HELD, TRIED, {0}, Counted(1)), ls)
    ensures var w := Racing(HELD, NO_RAIL, {}, Made(0));
            CanTrace(P, w, more) && Trace(P, w, more) == Trace(P, Racing(HELD, TRIED, {0}, Counted(1)), ls)
  {
    var w4, w5 := Racing(HELD, NO_RAIL, {}, Made(0)), Racing(HELD, NO_RAIL, {0}, At(1));
    var w6, w7 := Racing(HELD, NO_RAIL, {0}, Missed(1)), Racing(HELD, NO_RAIL, {0}, NotSent);
    assert !B.IsFlaky(100, 1) && TransferKey("p") == "payout:p";
    assert B.Counted(NO_RAIL, "payout:p") == TRIED;
    more := Before(P, w7, Step(1, ""), Racing(HELD, TRIED, {0}, Counted(1)), ls);
    more := Before(P, w6, Step(1, ""), w7, more);
    more := Before(P, w5, Step(1, ""), w6, more);
    assert StepRun(P, w4, 1, "") == w5 by {
      SavesFirst(w4, w5);
    }
    more := Before(P, w4, Step(1, ""), w5, more);
  }

  lemma SavesFirst(w: World, w': World)
    requires w == Racing(HELD, NO_RAIL, {}, Made(0)) && w' == Racing(HELD, NO_RAIL, {0}, At(1))
    ensures StepRun(P, w, 1, "") == w'
  {
    var nothing: set<nat> := {};
    assert nothing + {0} == {0};
    assert w.saved["j" := {0}] == w'.saved && w.runs[1 := Run("j", At(1))] == w'.runs;
  }

  lemma SecondRunSends(ls: seq<Label>) returns (more: seq<Label>)
    requires CanTrace(P, Racing(HELD, TRIED.(transfers := [SENT]), {0}, Sent), ls)
    ensures var w := Racing(HELD, TRIED, {0}, Counted(1));
            CanTrace(P, w, more) && Trace(P, w, more) == Trace(P, Racing(HELD, TRIED.(transfers := [SENT]), {0}, Sent), ls)
  {
    var w7, w8 := Racing(HELD, TRIED, {0}, Counted(1)), Racing(HELD, TRIED.(transfers := [SENT]), {0}, Sent);
    assert StepRun(P, w7, 1, "ach") == w8 by {
      assert B.NewTransfer("payout:p", "ach", 100, 1, 0) == SENT && TransferKey("p") == "payout:p";
      assert B.Inserted(TRIED, SENT) == TRIED.(transfers := [SENT]);
      assert w7.runs[1 := Run("j", Sent)] == w8.runs;
    }
    more := Before(P, w7, Step(1, "ach"), w8, ls);
  }

  lemma SecondRunSaves(ls: seq<Label>) returns (more: seq<Label>)
    requires CanTrace(P, Racing(HELD, TRIED.(transfers := [SENT]), {0, 1}, At(2)), ls)
    ensures var w := Racing(HELD, TRIED.(transfers := [SENT]), {0}, Sent);
            && CanTrace(P, w, more)
            && Trace(P, w, more) == Trace(P, Racing(HELD, TRIED.(transfers := [SENT]), {0, 1}, At(2)), ls)
  {
    var rail := TRIED.(transfers := [SENT]);
    var w8, w9 := Racing(HELD, rail, {0}, Sent), Racing(HELD, rail, {0}, Made(1));
    var w10 := Racing(HELD, rail, {0, 1}, At(2));
    assert StepRun(P, w9, 1, "") == w10 by {
      var one: set<nat> := {0};
      assert one + {1} == {0, 1};
      assert w9.saved["j" := {0, 1}] == w10.saved && w9.runs[1 := Run("j", At(2))] == w10.runs;
    }
    assert StepRun(P, w8, 1, "") == w9 by {
      assert TransferKey("p") == "payout:p" && B.Lookup(rail.transfers, "payout:p") == Some(SENT);
      assert w8.runs[1 := Run("j", Made(1))] == w9.runs;
    }
    more := Before(P, w9, Step(1, ""), w10, ls);
    more := Before(P, w8, Step(1, ""), w9, more);
  }

  lemma SecondRunSchedules(ls: seq<Label>) returns (more: seq<Label>)
    requires CanTrace(P, DUE, ls)
    ensures var w := Racing(HELD, TRIED.(transfers := [SENT]), {0, 1}, At(2));
            CanTrace(P, w, more) && Trace(P, w, more) == Trace(P, DUE, ls)
  {
    var w10 := Racing(HELD, TRIED.(transfers := [SENT]), {0, 1}, At(2));
    var w11 := Racing(HELD, TRIED.(transfers := [SENT]), {0, 1}, Missed(2));
    var w12 := DUE.(settlements := [], now := 0);
    assert StepRun(P, w11, 1, "") == w12 by {
      var none: set<Checkpoint> := {};
      assert w11.settled + [none] == w12.settled && w11.runs[1 := Run("j", Made(2))] == w12.runs;
    }
    more := Before(P, DUE.(now := 0), Tick(B.SETTLE_LAG), DUE, ls);
    more := Before(P, w12, BeginSettlement(0), DUE.(now := 0), more);
    more := Before(P, w11, Step(1, ""), w12, more);
    more := Before(P, w10, Step(1, ""), w11, more);
  }

  /** The settlement posts the second run's payout; the first run releases it. */
  lemma PostThenRelease(lines: seq<L.Line>, balances: map<L.AccountId, int>)
    requires lines == HELD.lines && balances == map["a" := 0]
    ensures var posted := L.Posted(L.Books(balances, lines), "p");
            && posted == L.Books(balances, lines + [L.Line("a", "p", L.Post, 100)])
            && L.HasLine(L.Released(posted, "p").lines, "p", L.Post)
            && L.HasLine(L.Released(posted, "p").lines, "p", L.Release)
  {
    var line := L.Line("a", "p", L.Post, 100);
    assert lines[2] == L.Line("a", "p", L.Hold, 100);
    AppendedLine(P, lines, line, None);
    var posted := L.Books(balances, lines + [line]);
    LedgerView(P, posted, L.DoRelease("p"), None);
    LedgerView(P, L.Books(balances, lines), L.DoPost("p"), None);
  }

  lemma SettlementPosts() returns (w: World, ls: seq<Label>)
    ensures w.books == L.Posted(HELD, "p") && w.runs == DUE.runs && w.saved == DUE.saved
    ensures |ls| == 2 && Possible(P, DUE, ls[0]) && Possible(P, Next(P, DUE, ls[0]), ls[1])
            && Next(P, Next(P, DUE, ls[0]), ls[1]) == w
  {
    ls := [StepSettlement(0), StepSettlement(0)];
    assert TransferKey("p") == "payout:p";
    assert B.StatusReply(DUE.rail, "payout:p", DUE.now) == Ok(SENT.(status := B.Settled));
    assert Next(P, DUE, ls[0]).settlements[0] == Knows(0, B.Settled);
    w := Next(P, Next(P, DUE, ls[0]), ls[1]);
  }

  lemma BelatedRelease(w: World)
    requires w.books == L.Posted(HELD, "p") && w.runs == DUE.runs && w.saved == DUE.saved
    ensures Possible(P, w, Step(0, ""))
    ensures var lines := Next(P, w, Step(0, "")).books.lines; L.HasLine(lines, "p", L.Post) && L.HasLine(lines, "p", L.Release)
  {
    PostThenRelease(HELD.lines, HELD.balances);
  }

  lemma Three(p: Payout, w: World, ls: seq<Label>)
    requires |ls| == 3 && Possible(p, w, ls[0]) && Possible(p, Next(p, w, ls[0]), ls[1])
    requires Possible(p, Next(p, Next(p, w, ls[0]), ls[1]), ls[2])
    ensures CanTrace(p, w, ls) && Trace(p, w, ls) == Next(p, Next(p, Next(p, w, ls[0]), ls[1]), ls[2])
  {
    var w1 := Next(p, w, ls[0]);
    var w2 := Next(p, w1, ls[1]);
    var tail := Before(p, w2, ls[2], Next(p, w2, ls[2]), []);
    tail := Before(p, w1, ls[1], w2, tail);
    tail := Before(p, w, ls[0], w1, tail);
    assert ls == [ls[0]] + ([ls[1]] + ([ls[2]] + []));
  }

  lemma BothEntries() returns (ls: seq<Label>)
    ensures CanTrace(P, DUE, ls)
    ensures var lines := Trace(P, DUE, ls).books.lines; L.HasLine(lines, "p", L.Post) && L.HasLine(lines, "p", L.Release)
  {
    var w, settle := SettlementPosts();
    BelatedRelease(w);
    ls := settle + [Step(0, "")];
    Three(P, DUE, ls);
  }

  lemma PaidThenRefunded() returns (ls: seq<Label>)
    ensures var w := Racing(HELD, NO_RAIL, {}, Made(0));
            && CanTrace(P, w, ls)
            && L.HasLine(Trace(P, w, ls).books.lines, "p", L.Post) && L.HasLine(Trace(P, w, ls).books.lines, "p", L.Release)
  {
    ls := BothEntries();
    ls := SecondRunSchedules(ls);
    ls := SecondRunSaves(ls);
    ls := SecondRunSends(ls);
    ls := SecondRunCounts(ls);
  }

  /** A first run finds no money. Before it releases the hold that it believes it may
      have, the account is refilled and a second run holds, sends and schedules, and the
      settlement posts. Then comes the first run's release: paid and refunded. */
  lemma OverlapPaysAndRefunds() returns (ls: seq<Label>)
    ensures Fresh(P, Start(EMPTY_ACCOUNT)) && CanTrace(P, Start(EMPTY_ACCOUNT), ls)
    ensures var lines := Trace(P, Start(EMPTY_ACCOUNT), ls).books.lines;
            L.HasLine(lines, P.id, L.Post) && L.HasLine(lines, P.id, L.Release)
  {
    ls := PaidThenRefunded();
    ls := SecondRunHolds(ls);
    ls := FirstRunFindsNoMoney(ls);
  }

  /** The account has enough money for the payout from the start. Two runs look for a hold in vain, the second makes it, and the first then finds no
      money. It releases the second's hold, which is sent and posted all the same. */
  lemma RacePaysAndRefunds() returns (ls: seq<Label>)
    ensures REFILLED.balances[P.account] == P.amount
    ensures Fresh(P, Start(REFILLED)) && CanTrace(P, Start(REFILLED), ls)
    ensures var lines := Trace(P, Start(REFILLED), ls).books.lines;
            L.HasLine(lines, P.id, L.Post) && L.HasLine(lines, P.id, L.Release)
  {
    ls := PaidThenRefunded();
    ls := OneHoldForBoth(ls);
    ls := BothLook(ls);
  }
}
