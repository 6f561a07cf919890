/** The demo's bank rail: transfers keyed by the caller, attempts counted apart,
    and settlement some time after submission. */
module Bank {
  import opened Values

  const SETTLE_LAG: Time := 6 * SECOND
  const REJECT_ROUTING_NUMBER := "000000000"
  const FLAKY_CENTS := 13
  const FLAKY_FAILURES := 2
  const RETURNED_CENTS := 99

  datatype TransferStatus = Pending | Settled | Returned

  datatype Transfer = Transfer(key: string, ref: string, status: TransferStatus, amount: int, attempts: int, settleAfter: Time)

  /** The tables bank_transfers and bank_attempts. */
  datatype Rail = Rail(transfers: seq<Transfer>, attempts: map<string, int>)

  datatype BankError = RailUnavailable | Rejected | Vanished | UnknownTransfer

  /** The last two digits, as a truncating division leaves them. */
  function Cents(amount: int): int {
    if amount >= 0 then amount % 100 else -(-amount % 100)
  }

  // ------------------------------------------------------------ statements

  function Lookup(transfers: seq<Transfer>, key: string): (found: Option<Transfer>)
    ensures found.Some? ==> found.value in transfers && found.value.key == key
    ensures found.None? ==> forall i | 0 <= i < |transfers| :: transfers[i].key != key
  {
    if transfers == [] then None
    else
      var last := transfers[|transfers| - 1];
      if last.key == key then Some(last) else Lookup(transfers[..|transfers| - 1], key)
  }

  function AttemptsAfter(rail: Rail, key: string): int {
    if key in rail.attempts then rail.attempts[key] + 1 else 1
  }

  function Counted(rail: Rail, key: string): Rail {
    rail.(attempts := rail.attempts[key := AttemptsAfter(rail, key)])
  }

  /** ON CONFLICT (idempotency_key) DO NOTHING. */
  function Inserted(rail: Rail, transfer: Transfer): Rail {
    if Lookup(rail.transfers, transfer.key).Some? then rail
    else rail.(transfers := rail.transfers + [transfer])
  }

  predicate IsFlaky(amount: int, attempts: int) {
    Cents(amount) == FLAKY_CENTS && attempts <= FLAKY_FAILURES
  }

  function Outcome(amount: int): TransferStatus {
    if Cents(amount) == RETURNED_CENTS then Returned else Settled
  }

  function Decided(t: Transfer, now: Time): Transfer {
    if t.status == Pending && t.settleAfter <= now then t.(status := Outcome(t.amount)) else t
  }

  function Resolved(transfers: seq<Transfer>, key: string, now: Time): (r: seq<Transfer>)
    ensures |r| == |transfers|
    ensures forall i | 0 <= i < |r| :: r[i] == if transfers[i].key == key then Decided(transfers[i], now) else transfers[i]
  {
    seq(|transfers|, i requires 0 <= i < |transfers| =>
      if transfers[i].key == key then Decided(transfers[i], now) else transfers[i])
  }

  /** One transfer for each key. */
  predicate OnePerKey(transfers: seq<Transfer>) {
    forall i, k | 0 <= i < k < |transfers| :: transfers[i].key != transfers[k].key
  }

  // ----------------------------------------------------------- whole calls

  function NewTransfer(key: string, ref: string, amount: int, attempts: int, now: Time): Transfer {
    Transfer(key, ref, Pending, amount, attempts, now + SETTLE_LAG)
  }

  function Submitted(rail: Rail, key: string, amount: int, routing: string, ref: string, now: Time): (Rail, Result<Transfer, BankError>) {
    var found := Lookup(rail.transfers, key);
    if found.Some? then (rail, Ok(found.value))
    else
      var counted := Counted(rail, key);
      var attempts := AttemptsAfter(rail, key);
      if routing == REJECT_ROUTING_NUMBER then (counted, Err(Rejected))
      else if IsFlaky(amount, attempts) then (counted, Err(RailUnavailable))
      else
        var transfer := NewTransfer(key, ref, amount, attempts, now);
        (Inserted(counted, transfer), Ok(transfer))
  }

  function StatusReply(rail: Rail, key: string, now: Time): Result<Transfer, BankError> {
    var found := Lookup(rail.transfers, key);
    if found.None? then Err(UnknownTransfer) else Ok(Decided(found.value, now))
  }

  // -------------------------------------------------------------- the bank

  class Bank {
    var transfers: seq<Transfer>
    var attempts: map<string, int>

    ghost function Tables(): Rail
      reads this
    {
      Rail(transfers, attempts)
    }

    constructor ()
      ensures Tables() == Rail([], map[])
    {
      transfers, attempts := [], map[];
    }

    method FindTransfer(key: string) returns (found: Option<Transfer>)
      ensures found == Lookup(transfers, key)
    {
      var i := |transfers|;
      assert transfers[..i] == transfers;
      while i > 0
        invariant 0 <= i <= |transfers|
        invariant Lookup(transfers, key) == Lookup(transfers[..i], key)
      {
        i := i - 1;
        assert transfers[..i + 1][..i] == transfers[..i];
        if transfers[i].key == key {
          return Some(transfers[i]);
        }
      }
      return None;
    }

    method RecordAttempt(key: string) returns (count: int)
      modifies this
      ensures Tables() == Counted(old(Tables()), key) && count == AttemptsAfter(old(Tables()), key)
    {
      count := if key in attempts then attempts[key] + 1 else 1;
      attempts := attempts[key := count];
    }

    /** Sends a transfer, or returns the one that the key already has. */
    method Submit(key: string, amount: int, routing: string, ref: string, now: Time) returns (reply: Result<Transfer, BankError>)
      modifies this
      ensures (Tables(), reply) == Submitted(old(Tables()), key, amount, routing, ref, now)
    {
      var found := FindTransfer(key);
      if found.Some? {
        return Ok(found.value);
      }
      var count := RecordAttempt(key);
      if routing == REJECT_ROUTING_NUMBER {
        return Err(Rejected);
      }
      if Cents(amount) == FLAKY_CENTS && count <= FLAKY_FAILURES {
        return Err(RailUnavailable);
      }
      found := FindTransfer(key);
      if found.None? {
        transfers := transfers + [NewTransfer(key, ref, amount, count, now)];
      }
      var sent := FindTransfer(key);
      if sent.None? {
        return Err(Vanished);
      }
      return Ok(sent.value);
    }

    /** Resolves a pending transfer once its settlement lag has passed. */
    method Status(key: string, now: Time) returns (reply: Result<Transfer, BankError>)
      modifies this
      ensures reply == StatusReply(old(Tables()), key, now)
      ensures Tables() == Rail(Resolved(old(transfers), key, now), old(attempts))
    {
      var found := FindTransfer(key);
      if found.None? {
        assert Resolved(transfers, key, now) == transfers;
        return Err(UnknownTransfer);
      }
      transfers := Resolved(transfers, key, now);
      return Ok(Decided(found.value, now));
    }
  }

  // ------------------------------------------------------------- every run

  datatype BankOp =
    | DoSubmit(key: string, amount: int, routing: string, ref: string, now: Time)
    | DoStatus(key: string, now: Time)

  function Applied(rail: Rail, op: BankOp): Rail {
    match op
    case DoSubmit(key, amount, routing, ref, now) => Submitted(rail, key, amount, routing, ref, now).0
    case DoStatus(key, now) => rail.(transfers := Resolved(rail.transfers, key, now))
  }

  function AppliedAll(rail: Rail, ops: seq<BankOp>): Rail {
    if ops == [] then rail else Applied(AppliedAll(rail, ops[..|ops| - 1]), ops[|ops| - 1])
  }

  lemma {:induction false} ResolvedLookup(transfers: seq<Transfer>, key: string, now: Time, other: string)
    ensures Lookup(Resolved(transfers, key, now), other) ==
            match Lookup(transfers, other)
            case None => None
            case Some(t) => Some(if other == key then Decided(t, now) else t)
    decreases |transfers|
  {
    if transfers != [] {
      ResolvedLookup(transfers[..|transfers| - 1], key, now, other);
      assert Resolved(transfers, key, now)[..|transfers| - 1] == Resolved(transfers[..|transfers| - 1], key, now);
    }
  }

  lemma AppendedLookup(transfers: seq<Transfer>, transfer: Transfer, key: string)
    ensures Lookup(transfers + [transfer], key) == if transfer.key == key then Some(transfer) else Lookup(transfers, key)
  {
    assert (transfers + [transfer])[..|transfers|] == transfers;
  }

  /** The transfer of a key is there for good, with its reference and amount, and a
      decided one stays as it was decided. */
  predicate Lasts(t: Option<Transfer>, t': Option<Transfer>) {
    t.Some? ==>
      && t'.Some? && t'.value == t.value.(status := t'.value.status)
      && (t.value.status != Pending ==> t'.value.status == t.value.status)
      && (t'.value.status != Pending && t.value.status == Pending ==> t'.value.status == Outcome(t.value.amount))
  }

  lemma TransferLasts(rail: Rail, op: BankOp, key: string)
    ensures Lasts(Lookup(rail.transfers, key), Lookup(Applied(rail, op).transfers, key))
    ensures OnePerKey(rail.transfers) ==> OnePerKey(Applied(rail, op).transfers)
  {
    match op
    case DoSubmit(other, amount, routing, ref, now) =>
      AppendedLookup(rail.transfers, NewTransfer(other, ref, amount, AttemptsAfter(rail, other), now), key);
    case DoStatus(other, now) => ResolvedLookup(rail.transfers, other, now, key);
  }

  lemma {:induction false} TransferLastsAlways(rail: Rail, ops: seq<BankOp>, key: string)
    ensures Lasts(Lookup(rail.transfers, key), Lookup(AppliedAll(rail, ops).transfers, key))
    ensures OnePerKey(rail.transfers) ==> OnePerKey(AppliedAll(rail, ops).transfers)
    decreases |ops|
  {
    if ops != [] {
      TransferLastsAlways(rail, ops[..|ops| - 1], key);
      TransferLasts(AppliedAll(rail, ops[..|ops| - 1]), ops[|ops| - 1], key);
    }
  }

  /** Submissions are idempotent on the key: once one has been accepted, every later
      one under the key, whatever it asks for, gets the same transfer and moves no
      money; and the rail never holds two transfers under one key. */
  lemma SubmitOnce(rail: Rail, first: BankOp, ops: seq<BankOp>, again: BankOp)
    requires OnePerKey(rail.transfers) && first.DoSubmit? && again.DoSubmit? && again.key == first.key
    requires Submitted(rail, first.key, first.amount, first.routing, first.ref, first.now).1.Ok?
    ensures var sent := Submitted(rail, first.key, first.amount, first.routing, first.ref, first.now).1.value;
            var later := AppliedAll(Applied(rail, first), ops);
            var (rail', reply) := Submitted(later, again.key, again.amount, again.routing, again.ref, again.now);
            && rail' == later && OnePerKey(later.transfers)
            && reply.Ok? && reply.value.ref == sent.ref && reply.value.amount == sent.amount && reply.value.key == first.key
  {
    var now := Applied(rail, first);
    TransferLasts(rail, first, first.key);
    AppendedLookup(rail.transfers, NewTransfer(first.key, first.ref, first.amount, AttemptsAfter(rail, first.key), first.now), first.key);
    TransferLastsAlways(now, ops, first.key);
  }

  /** A decided transfer is reported the same ever after. */
  lemma StatusIsFinal(rail: Rail, key: string, now: Time, ops: seq<BankOp>, later: Time)
    requires StatusReply(rail, key, now).Ok? && StatusReply(rail, key, now).value.status != Pending
    ensures var rail' := AppliedAll(Applied(rail, DoStatus(key, now)), ops);
            StatusReply(rail', key, later) == StatusReply(rail, key, now)
  {
    ResolvedLookup(rail.transfers, key, now, key);
    TransferLastsAlways(Applied(rail, DoStatus(key, now)), ops, key);
  }

  // --------------------------------------------------- in terms of the rows

  predicate Unknown(rail: Rail, key: string) {
    forall i | 0 <= i < |rail.transfers| :: rail.transfers[i].key != key
  }

  /** What a submission under a new key comes to, for a positive amount of cents: one to the
      routing number of nine zeros is always rejected; an amount that ends in 13 is refused
      at the first two attempts; any other is accepted with its amount, to settle in 6
      seconds. Each counts as an attempt. */
  lemma SubmitMakes(rail: Rail, key: string, amount: nat, routing: string, ref: string, now: Time)
    requires Unknown(rail, key)
    ensures var (rail', reply) := Submitted(rail, key, amount, routing, ref, now);
            var attempts := (if key in rail.attempts then rail.attempts[key] else 0) + 1;
            && rail'.attempts == rail.attempts[key := attempts]
            && if routing == "000000000" then reply == Err(Rejected) && rail'.transfers == rail.transfers
               else if amount % 100 == 13 && attempts <= 2 then reply == Err(RailUnavailable) && rail'.transfers == rail.transfers
               else
                 && reply == Ok(Transfer(key, ref, Pending, amount, attempts, now + 6_000_000_000))
                 && rail'.transfers == rail.transfers + [Transfer(key, ref, Pending, amount, attempts, now + 6_000_000_000)]
  {
    assert Lookup(rail.transfers, key).None?;
  }

  /** A transfer is pending for as long as its time has not come, and then returned iff its
      amount ends in 99 cents, else settled. */
  lemma StatusMakes(rail: Rail, n: nat, now: Time)
    requires OnePerKey(rail.transfers) && n < |rail.transfers| && rail.transfers[n].amount >= 0
    ensures var t := rail.transfers[n];
            && StatusReply(rail, t.key, now)
               == Ok(if t.status == Pending && t.settleAfter <= now
                     then t.(status := if t.amount % 100 == 99 then Returned else Settled) else t)
            && Applied(rail, DoStatus(t.key, now)).attempts == rail.attempts
            && Applied(rail, DoStatus(t.key, now)).transfers == rail.transfers[n := StatusReply(rail, t.key, now).value]
  {
    var t := rail.transfers[n];
    var found := Lookup(rail.transfers, t.key).value;
    var k :| 0 <= k < |rail.transfers| && rail.transfers[k] == found;
    assert k == n;
    assert Resolved(rail.transfers, t.key, now) == rail.transfers[n := Decided(t, now)];
  }

  /** So a flaky amount clears at the third attempt, and not before. */
  lemma FlakyClears(key: string, amount: nat, routing: string, ref: string, now: Time)
    requires amount % 100 == 13 && routing != "000000000"
    ensures var first := Submitted(Rail([], map[]), key, amount, routing, ref, now);
            var second := Submitted(first.0, key, amount, routing, ref, now);
            var third := Submitted(second.0, key, amount, routing, ref, now);
            && first.1 == Err(RailUnavailable) && second.1 == Err(RailUnavailable)
            && third.1 == Ok(Transfer(key, ref, Pending, amount, 3, now + 6_000_000_000))
  {
    var first := Submitted(Rail([], map[]), key, amount, routing, ref, now);
    SubmitMakes(Rail([], map[]), key, amount, routing, ref, now);
    SubmitMakes(first.0, key, amount, routing, ref, now);
    SubmitMakes(Submitted(first.0, key, amount, routing, ref, now).0, key, amount, routing, ref, now);
  }
}
