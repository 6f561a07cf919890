/** The payments ledger: balances, and an append-only table of entries with at
    most one row per payout and kind. */
module Ledger {
  import opened Values

  type AccountId = string
  type PayoutId = string

  datatype Kind = Hold | Post | Release

  datatype Line = Line(account: AccountId, payout: PayoutId, kind: Kind, amount: int)

  /** The tables accounts and ledger_entries. */
  datatype Books = Books(balances: map<AccountId, int>, lines: seq<Line>)

  /** What the reserve step checkpoints: the request, and whether it was a repeat. */
  datatype Receipt = Receipt(payout: PayoutId, account: AccountId, amount: int, reused: bool)

  datatype LedgerError = UnknownAccount | InsufficientFunds | HoldConflict

  predicate HasLine(lines: seq<Line>, payout: PayoutId, kind: Kind) {
    exists i :: 0 <= i < |lines| && lines[i].payout == payout && lines[i].kind == kind
  }

  function LineOf(lines: seq<Line>, payout: PayoutId, kind: Kind): (line: Line)
    requires HasLine(lines, payout, kind)
    ensures line in lines && line.payout == payout && line.kind == kind
  {
    var last := lines[|lines| - 1];
    if last.payout == payout && last.kind == kind then last else LineOf(lines[..|lines| - 1], payout, kind)
  }

  // ------------------------------------------------------- specification

  predicate Funded(b: Books, account: AccountId, amount: int) {
    account in b.balances && b.balances[account] >= amount
  }

  function Reserved(b: Books, payout: PayoutId, account: AccountId, amount: int): Books {
    if HasLine(b.lines, payout, Hold) || !Funded(b, account, amount) then b
    else Books(b.balances[account := b.balances[account] - amount], b.lines + [Line(account, payout, Hold, amount)])
  }

  /** What a reservation that saw no hold answers once it has the lock on the balance.
      The unique index refuses a second hold, but only after the balance is checked. */
  function LockedReply(b: Books, payout: PayoutId, account: AccountId, amount: int): Result<Receipt, LedgerError> {
    if account !in b.balances then Err(UnknownAccount)
    else if b.balances[account] < amount then Err(InsufficientFunds)
    else if HasLine(b.lines, payout, Hold) then Err(HoldConflict)
    else Ok(Receipt(payout, account, amount, false))
  }

  /** The answer when nobody comes in between. */
  function ReserveReply(b: Books, payout: PayoutId, account: AccountId, amount: int): Result<Receipt, LedgerError> {
    if HasLine(b.lines, payout, Hold) then Ok(Receipt(payout, account, amount, true))
    else LockedReply(b, payout, account, amount)
  }

  /** Copies account and amount from the hold. */
  function Posted(b: Books, payout: PayoutId): Books {
    if !HasLine(b.lines, payout, Hold) || HasLine(b.lines, payout, Post) then b
    else b.(lines := b.lines + [LineOf(b.lines, payout, Hold).(kind := Post)])
  }

  function Released(b: Books, payout: PayoutId): Books {
    if !HasLine(b.lines, payout, Hold) || HasLine(b.lines, payout, Release) then b
    else
      var hold := LineOf(b.lines, payout, Hold);
      Books(if hold.account in b.balances then b.balances[hold.account := b.balances[hold.account] + hold.amount]
            else b.balances,
            b.lines + [hold.(kind := Release)])
  }

  // ------------------------------------------------------------ the ledger

  class Ledger {
    var balances: map<AccountId, int>
    var lines: seq<Line>

    ghost function Tables(): Books
      reads this
    {
      Books(balances, lines)
    }

    constructor (accounts: map<AccountId, int>)
      ensures Tables() == Books(accounts, [])
    {
      balances, lines := accounts, [];
    }

    /** The row of a payout under one kind; the unique index admits one. */
    method Find(payout: PayoutId, kind: Kind) returns (found: Option<Line>)
      ensures found == if HasLine(lines, payout, kind) then Some(LineOf(lines, payout, kind)) else None
    {
      var i := |lines|;
      assert lines[..i] == lines;
      while i > 0
        invariant 0 <= i <= |lines|
        invariant HasLine(lines, payout, kind) <==> HasLine(lines[..i], payout, kind)
        invariant HasLine(lines, payout, kind) ==> LineOf(lines, payout, kind) == LineOf(lines[..i], payout, kind)
      {
        i := i - 1;
        if lines[i].payout == payout && lines[i].kind == kind {
          assert lines[..i + 1][i] == lines[i];
          return Some(lines[i]);
        }
        assert lines[..i + 1][..i] == lines[..i];
        assert forall n | 0 <= n < i :: lines[..i + 1][n] == lines[..i][n];
      }
      return None;
    }

    /** Moves money out of the balance and records a hold, once per payout. The look for
        an earlier hold takes no lock: `meanwhile` is what the tables have become, by
        whatever operations of others, when the lock on the balance is there. */
    method Reserve(payout: PayoutId, account: AccountId, amount: int, meanwhile: Option<Books>)
      returns (reply: Result<Receipt, LedgerError>)
      requires meanwhile.Some? ==> exists ops :: AppliedAll(Tables(), ops) == meanwhile.value
      modifies this
      ensures HasLine(old(Tables()).lines, payout, Hold) ==>
                reply == Ok(Receipt(payout, account, amount, true)) && Tables() == old(Tables())
      ensures !HasLine(old(Tables()).lines, payout, Hold) ==>
                var mid := if meanwhile.Some? then meanwhile.value else old(Tables());
                && reply == LockedReply(mid, payout, account, amount)
                && Tables() == Reserved(mid, payout, account, amount)
    {
      var hold := Find(payout, Hold);
      if hold.Some? {
        return Ok(Receipt(payout, account, amount, true));
      }
      if meanwhile.Some? {
        balances, lines := meanwhile.value.balances, meanwhile.value.lines;
      }
      if account !in balances {
        return Err(UnknownAccount);
      }
      if balances[account] < amount {
        return Err(InsufficientFunds);
      }
      var conflict := Find(payout, Hold);
      if conflict.Some? {
        return Err(HoldConflict);
      }
      lines := lines + [Line(account, payout, Hold, amount)];
      balances := balances[account := balances[account] - amount];
      return Ok(Receipt(payout, account, amount, false));
    }

    /** When nobody comes in between, that is one operation. */
    method ReserveAlone(payout: PayoutId, account: AccountId, amount: int) returns (reply: Result<Receipt, LedgerError>)
      modifies this
      ensures reply == ReserveReply(old(Tables()), payout, account, amount)
      ensures Tables() == Reserved(old(Tables()), payout, account, amount)
    {
      reply := Reserve(payout, account, amount, None);
    }

    /** Records the settled debit, once per payout. */
    method Post(payout: PayoutId)
      modifies this
      ensures Tables() == Posted(old(Tables()), payout)
    {
      var hold := Find(payout, Hold);
      var post := Find(payout, Kind.Post);
      if hold.Some? && post.None? {
        lines := lines + [hold.value.(kind := Kind.Post)];
      }
    }

    /** Returns held money to the balance, once per payout. */
    method Release(payout: PayoutId)
      modifies this
      ensures Tables() == Released(old(Tables()), payout)
    {
      var hold := Find(payout, Hold);
      if hold.None? {
        return;
      }
      var release := Find(payout, Kind.Release);
      if release.Some? {
        return;
      }
      lines := lines + [hold.value.(kind := Kind.Release)];
      if hold.value.account in balances {
        balances := balances[hold.value.account := balances[hold.value.account] + hold.value.amount];
      }
    }
  }

  // ------------------------------------------------------------- every run

  datatype LedgerOp =
    | DoReserve(payout: PayoutId, account: AccountId, amount: int)
    | DoPost(payout: PayoutId)
    | DoRelease(payout: PayoutId)

  function Applied(b: Books, op: LedgerOp): Books {
    match op
    case DoReserve(payout, account, amount) => Reserved(b, payout, account, amount)
    case DoPost(payout) => Posted(b, payout)
    case DoRelease(payout) => Released(b, payout)
  }

  function AppliedAll(b: Books, ops: seq<LedgerOp>): Books {
    if ops == [] then b else Applied(AppliedAll(b, ops[..|ops| - 1]), ops[|ops| - 1])
  }

  function Total(lines: seq<Line>, account: AccountId, kind: Kind): int {
    if lines == [] then 0
    else
      var last := lines[|lines| - 1];
      Total(lines[..|lines| - 1], account, kind) + if last.account == account && last.kind == kind then last.amount else 0
  }

  lemma TotalGrows(lines: seq<Line>, line: Line, account: AccountId, kind: Kind)
    ensures Total(lines + [line], account, kind)
            == Total(lines, account, kind) + if line.account == account && line.kind == kind then line.amount else 0
  {
    assert (lines + [line])[..|lines|] == lines;
  }

  /** UNIQUE (payout_id, kind). */
  predicate Unique(lines: seq<Line>) {
    forall i, k | 0 <= i < k < |lines| :: lines[i].payout == lines[k].payout ==> lines[i].kind != lines[k].kind
  }

  /** Every line is positive, and every post or release is its payout's hold under
      another kind. */
  predicate Backed(lines: seq<Line>) {
    forall i | 0 <= i < |lines| :: lines[i].amount > 0 && lines[i].(kind := Hold) in lines
  }

  /** What the balances owe to the entries. */
  predicate Balanced(initial: map<AccountId, int>, b: Books) {
    && b.balances.Keys == initial.Keys
    && (forall i | 0 <= i < |b.lines| :: b.lines[i].account in initial)
    && forall a | a in initial ::
         b.balances[a] >= 0 && b.balances[a] == initial[a] - Total(b.lines, a, Hold) + Total(b.lines, a, Release)
  }

  predicate BooksOk(initial: map<AccountId, int>, b: Books) {
    Unique(b.lines) && Backed(b.lines) && Balanced(initial, b)
  }

  /** A new line of a kind that the payout has not, under the payout's hold. */
  lemma Appended(lines: seq<Line>, line: Line)
    requires Unique(lines) && Backed(lines) && !HasLine(lines, line.payout, line.kind)
    requires line.amount > 0 && (line.kind != Hold ==> line.(kind := Hold) in lines)
    ensures Unique(lines + [line]) && Backed(lines + [line])
  {
    assert forall k | k in lines :: k in lines + [line];
    assert line in lines + [line];
  }

  /** What a line does to the balance of its account. */
  function Change(line: Line): int {
    match line.kind
    case Hold => -line.amount
    case Post => 0
    case Release => line.amount
  }

  lemma BalancedKept(initial: map<AccountId, int>, b: Books, line: Line, b': Books)
    requires Balanced(initial, b) && line.account in initial && line.amount > 0
    requires b' == Books(b.balances[line.account := b.balances[line.account] + Change(line)], b.lines + [line])
    requires b'.balances[line.account] >= 0
    ensures Balanced(initial, b')
  {
    forall a | a in initial
      ensures b'.balances[a] >= 0 && b'.balances[a] == initial[a] - Total(b'.lines, a, Hold) + Total(b'.lines, a, Release)
    {
      TotalGrows(b.lines, line, a, Hold);
      TotalGrows(b.lines, line, a, Release);
    }
  }

  /** An operation adds one line, or changes nothing. */
  lemma OneLine(initial: map<AccountId, int>, b: Books, op: LedgerOp) returns (line: Line)
    requires BooksOk(initial, b) && (op.DoReserve? ==> op.amount > 0) && Applied(b, op) != b
    ensures line.account in initial && line.amount > 0 && line.payout == op.payout
    ensures !HasLine(b.lines, line.payout, line.kind) && (line.kind != Hold ==> line.(kind := Hold) in b.lines)
    ensures b.balances[line.account] + Change(line) >= 0
    ensures Applied(b, op) == Books(b.balances[line.account := b.balances[line.account] + Change(line)], b.lines + [line])
  {
    line := if op.DoReserve? then Line(op.account, op.payout, Hold, op.amount)
            else LineOf(b.lines, op.payout, Hold).(kind := if op.DoPost? then Post else Release);
    if op.DoPost? {
      assert b.balances[line.account := b.balances[line.account]] == b.balances;
    }
  }

  lemma BooksKept(initial: map<AccountId, int>, b: Books, op: LedgerOp)
    requires BooksOk(initial, b) && (op.DoReserve? ==> op.amount > 0)
    ensures BooksOk(initial, Applied(b, op))
  {
    if Applied(b, op) != b {
      var line := OneLine(initial, b, op);
      Appended(b.lines, line);
      BalancedKept(initial, b, line, Applied(b, op));
    }
  }

  /** Conservation of money: whatever the ledger is asked to do, in whatever order
      and however often. Every balance is what the account started with, minus its
      holds, plus its releases, and never negative; a post or release copies its
      payout's hold; a payout has at most one entry of each kind, so it debits and
      refunds at most once. */
  lemma {:induction false} Conservation(initial: map<AccountId, int>, ops: seq<LedgerOp>)
    requires forall a | a in initial :: initial[a] >= 0
    requires forall i | 0 <= i < |ops| :: ops[i].DoReserve? ==> ops[i].amount > 0
    ensures var b := AppliedAll(Books(initial, []), ops);
            && (forall a | a in initial :: a in b.balances &&
                  b.balances[a] >= 0 && b.balances[a] == initial[a] - Total(b.lines, a, Hold) + Total(b.lines, a, Release))
            && Unique(b.lines) && Backed(b.lines)
    ensures BooksOk(initial, AppliedAll(Books(initial, []), ops))
    decreases |ops|
  {
    if ops != [] {
      Conservation(initial, ops[..|ops| - 1]);
      BooksKept(initial, AppliedAll(Books(initial, []), ops[..|ops| - 1]), ops[|ops| - 1]);
    }
  }

  /** A repeated operation changes nothing, whatever happened in between. */
  lemma {:induction false} RepeatIsNoop(b: Books, op: LedgerOp, ops: seq<LedgerOp>)
    requires op.DoReserve? ==> Funded(b, op.account, op.amount) || HasLine(b.lines, op.payout, Hold)
    requires !op.DoReserve? ==> HasLine(b.lines, op.payout, Hold)
    ensures var later := AppliedAll(Applied(b, op), ops); Applied(later, op) == later
    decreases |ops|
  {
    var kind := if op.DoReserve? then Hold else if op.DoPost? then Post else Release;
    var lines := Applied(b, op).lines;
    assert HasLine(lines, op.payout, kind) by {
      if lines != b.lines { assert lines[|b.lines|].payout == op.payout && lines[|b.lines|].kind == kind; }
    }
    EntriesStay(Applied(b, op), ops, op.payout, kind);
  }

  /** The books do not tell a repeated reservation from the first, but the receipt does:
      a crash between the reservation and its checkpoint shows in the payout's result. */
  lemma ReceiptTellsRepeat(b: Books, payout: PayoutId, account: AccountId, amount: int)
    requires Funded(b, account, amount) && !HasLine(b.lines, payout, Hold)
    ensures var once := Reserved(b, payout, account, amount);
            && Reserved(once, payout, account, amount) == once
            && ReserveReply(b, payout, account, amount) == Ok(Receipt(payout, account, amount, false))
            && ReserveReply(once, payout, account, amount) == Ok(Receipt(payout, account, amount, true))
  {
    var once := Reserved(b, payout, account, amount);
    assert once.lines[|b.lines|] == Line(account, payout, Hold, amount);
  }

  lemma {:induction false} EntriesStay(b: Books, ops: seq<LedgerOp>, payout: PayoutId, kind: Kind)
    requires HasLine(b.lines, payout, kind)
    ensures HasLine(AppliedAll(b, ops).lines, payout, kind)
    decreases |ops|
  {
    if ops != [] {
      EntriesStay(b, ops[..|ops| - 1], payout, kind);
      LineStays(AppliedAll(b, ops[..|ops| - 1]), ops[|ops| - 1], payout, kind);
    }
  }

  lemma LineStays(b: Books, op: LedgerOp, payout: PayoutId, kind: Kind)
    requires HasLine(b.lines, payout, kind)
    ensures HasLine(Applied(b, op).lines, payout, kind)
  {
    var i :| 0 <= i < |b.lines| && b.lines[i].payout == payout && b.lines[i].kind == kind;
    assert Applied(b, op).lines[i] == b.lines[i];
  }

  // --------------------------------------------------- in terms of the rows

  /** With no hold yet, a reservation succeeds iff the account is known and has the money;
      it then takes exactly that from that account, and writes one line that says so. */
  lemma ReserveMakes(b: Books, payout: PayoutId, account: AccountId, amount: int)
    requires forall i | 0 <= i < |b.lines| :: !(b.lines[i].payout == payout && b.lines[i].kind == Hold)
    ensures var can := account in b.balances && b.balances[account] >= amount;
            && (ReserveReply(b, payout, account, amount) == Ok(Receipt(payout, account, amount, false)) <==> can)
            && (ReserveReply(b, payout, account, amount) == Err(UnknownAccount) <==> account !in b.balances)
            && (ReserveReply(b, payout, account, amount) == Err(InsufficientFunds) <==>
                  account in b.balances && b.balances[account] < amount)
            && var b' := Reserved(b, payout, account, amount);
               if can then b'.balances == b.balances[account := b.balances[account] - amount]
                           && b'.lines == b.lines + [Line(account, payout, Hold, amount)]
               else b' == b
  {
  }

  /** A payout that is held and not yet posted gets one more line, the hold's account and
      amount as posted, and no balance changes. A release is the same, and gives the amount
      back to that account. */
  lemma HoldIsUsed(b: Books, hold: nat)
    requires Unique(b.lines) && hold < |b.lines| && b.lines[hold].kind == Hold && b.lines[hold].account in b.balances
    ensures var (payout, account, amount) := (b.lines[hold].payout, b.lines[hold].account, b.lines[hold].amount);
            var posted := exists i :: 0 <= i < |b.lines| && b.lines[i].payout == payout && b.lines[i].kind == Post;
            var released := exists i :: 0 <= i < |b.lines| && b.lines[i].payout == payout && b.lines[i].kind == Release;
            && Posted(b, payout) == (if posted then b else Books(b.balances, b.lines + [Line(account, payout, Post, amount)]))
            && Released(b, payout) == (if released then b
                                       else Books(b.balances[account := b.balances[account] + amount],
                                                  b.lines + [Line(account, payout, Release, amount)]))
  {
    var payout := b.lines[hold].payout;
    assert HasLine(b.lines, payout, Hold);
    var line := LineOf(b.lines, payout, Hold);
    assert line.payout == payout && line.kind == Hold;
    var found :| 0 <= found < |b.lines| && b.lines[found] == line;
    assert found == hold;
  }

  /** Without a hold neither does anything. */
  lemma NothingHeld(b: Books, payout: PayoutId)
    requires forall i | 0 <= i < |b.lines| :: !(b.lines[i].payout == payout && b.lines[i].kind == Hold)
    ensures Posted(b, payout) == b && Released(b, payout) == b
  {
  }
}
