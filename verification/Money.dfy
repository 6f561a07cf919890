/** Amounts of money as text: the formatter of the workflow and the reader of the
    form, which meet in the comma-free form of an amount. */
module Money {
  import opened Values
  import opened Jobs
  import opened Text

  const MAX_INT64 := 0x7FFF_FFFF_FFFF_FFFF
  const MIN_INT64 := -0x8000_0000_0000_0000

  predicate IsInt64(n: int) {
    MIN_INT64 <= n <= MAX_INT64
  }

  // --------------------------------------------------------------- printing

  /** strconv.FormatInt(n, 10). */
  function Signed(n: int): string {
    if n < 0 then "-" + Decimal(-n) else Decimal(n)
  }

  /** %02d: padded with zeros to two characters, the sign counting as one. */
  function TwoWide(n: int): string {
    if 0 <= n < 10 then "0" + Decimal(n) else Signed(n)
  }

  /** Go's division truncates. */
  function Quotient(a: int, b: nat): int
    requires b > 0
  {
    if a >= 0 then a / b else -(-a / b)
  }

  function Remainder(a: int, b: nat): int
    requires b > 0
  {
    a - b * Quotient(a, b)
  }

  /** A comma before every group of three, counted from the right. */
  function Grouped(digits: string): string {
    if |digits| <= 3 then digits
    else Grouped(digits[..|digits| - 3]) + "," + digits[|digits| - 3..]
  }

  function Joined(whole: string, pence: string): string {
    "$" + whole + ("." + pence)
  }

  function Formatted(cents: int): string {
    var amount := if cents < 0 then Wrap64(-cents) else cents;
    var text := Joined(Grouped(Signed(Quotient(amount, 100))), TwoWide(Remainder(amount, 100)));
    if cents < 0 then "-" + text else text
  }

  /** One turn of the loop puts one comma in, and leaves a shorter rest to group. */
  lemma GroupStep(whole: string, i: nat, tail: string)
    requires 0 < i && i + 3 <= |whole|
    ensures var dollars := whole[..i + 3] + tail;
            dollars[..i] + "," + dollars[i..] == whole[..i] + ("," + whole[i..i + 3] + tail)
    ensures Grouped(whole[..i + 3]) + tail == Grouped(whole[..i]) + ("," + whole[i..i + 3] + tail)
  {
    var front := whole[..i + 3];
    assert front[..i] == whole[..i] && front[i..] == whole[i..i + 3];
    assert (front + tail)[i..] == whole[i..i + 3] + tail;
  }

  method FormatCents(cents: int) returns (text: string)
    requires IsInt64(cents)
    ensures text == Formatted(cents)
  {
    var sign, amount := "", cents;
    if amount < 0 {
      sign, amount := "-", Wrap64(-amount);
    }
    var dollars := Signed(Quotient(amount, 100));
    ghost var whole, tail := dollars, "";
    var i := |dollars| - 3;
    assert whole[..|whole|] == whole;
    while i > 0
      invariant 0 <= i + 3 <= |whole|
      invariant dollars == whole[..i + 3] + tail
      invariant Grouped(whole) == Grouped(whole[..i + 3]) + tail
    {
      GroupStep(whole, i, tail);
      dollars := dollars[..i] + "," + dollars[i..];
      tail := "," + whole[i..i + 3] + tail;
      i := i - 3;
    }
    text := Joined(dollars, TwoWide(Remainder(amount, 100)));
    if sign != "" {
      text := sign + text;
    }
  }

  lemma FourOn(k: nat)
    requires k >= 4
    ensures (k - 4) % 4 == k % 4
  {
  }

  /** Counted from the right, exactly every fourth character of the whole dollars is
      a comma. */
  lemma {:induction false} CommasEveryThree(digits: string, k: nat)
    requires AllDigits(digits) && k < |Grouped(digits)|
    ensures var text := Grouped(digits); text[|text| - 1 - k] == ',' <==> k % 4 == 3
    decreases |digits|
  {
    if |digits| > 3 {
      var front, last := digits[..|digits| - 3], digits[|digits| - 3..];
      var head, text := Grouped(front), Grouped(digits);
      assert text == head + "," + last && |text| == |head| + 4;
      if k >= 4 {
        CommasEveryThree(front, k - 4);
        FourOn(k);
        assert text[|text| - 1 - k] == head[|head| - 1 - (k - 4)];
      } else if k == 3 {
        assert text[|head|] == ',';
      } else {
        assert text[|text| - 1 - k] == last[2 - k];
      }
    }
  }

  /** And it starts with a digit. */
  lemma {:induction false} StartsWithDigit(digits: string)
    requires AllDigits(digits) && digits != ""
    ensures Grouped(digits) != "" && Grouped(digits)[0] == digits[0]
    decreases |digits|
  {
    if |digits| > 3 { StartsWithDigit(digits[..|digits| - 3]); }
  }

  lemma {:induction false} OnlyCommasAndDigits(digits: string)
    requires AllDigits(digits)
    ensures forall c | c in Grouped(digits) :: c == ',' || IsDigit(c)
    ensures |digits| > 3 ==> ',' in Grouped(digits)
    decreases |digits|
  {
    if |digits| > 3 { OnlyCommasAndDigits(digits[..|digits| - 3]); }
  }

  function Stripped(text: string): string {
    if text == "" then ""
    else Stripped(text[..|text| - 1]) + if text[|text| - 1] == ',' then "" else [text[|text| - 1]]
  }

  lemma {:induction false} StrippedJoin(a: string, b: string)
    ensures Stripped(a + b) == Stripped(a) + Stripped(b)
    decreases |b|
  {
    if b == "" {
      assert a + b == a;
    } else {
      assert (a + b)[..|a + b| - 1] == a + b[..|b| - 1];
      StrippedJoin(a, b[..|b| - 1]);
    }
  }

  lemma {:induction false} NothingToStrip(text: string)
    requires ',' !in text
    ensures Stripped(text) == text
    decreases |text|
  {
    if text != "" { NothingToStrip(text[..|text| - 1]); }
  }

  lemma StrippedTail(head: string, stripped: string, tail: string)
    requires Stripped(head) == stripped && Stripped(tail) == tail
    ensures Stripped(head + tail) == stripped + tail
  {
    StrippedJoin(head, tail);
  }

  lemma StrippedComma(head: string, stripped: string)
    requires Stripped(head) == stripped
    ensures Stripped(head + ",") == stripped
  {
    assert (head + ",")[..|head|] == head;
  }

  /** Without its commas a grouped number is the number. */
  lemma {:induction false} StrippedGroups(digits: string)
    requires AllDigits(digits)
    ensures Stripped(Grouped(digits)) == digits
    decreases |digits|
  {
    if |digits| <= 3 {
      NothingToStrip(digits);
    } else {
      var front, last := digits[..|digits| - 3], digits[|digits| - 3..];
      StrippedGroups(front);
      StrippedComma(Grouped(front), front);
      NothingToStrip(last);
      StrippedTail(Grouped(front) + ",", front, last);
      assert front + last == digits;
    }
  }

  // ---------------------------------------------------------------- reading

  datatype AmountError = Required | Invalid | NotPositive

  /** unicode.IsSpace. */
  predicate IsSpace(c: char) {
    var n := c as int;
    9 <= n <= 13 || n in {0x20, 0x85, 0xA0, 0x1680, 0x2028, 0x2029, 0x202F, 0x205F, 0x3000} || 0x2000 <= n <= 0x200A
  }

  function TrimLeft(s: string): (r: string)
    ensures r != "" ==> !IsSpace(r[0])
  {
    if s != "" && IsSpace(s[0]) then TrimLeft(s[1..]) else s
  }

  function TrimRight(s: string): string {
    if s != "" && IsSpace(s[|s| - 1]) then TrimRight(s[..|s| - 1]) else s
  }

  function TrimSpace(s: string): string {
    TrimRight(TrimLeft(s))
  }

  function TrimDollar(s: string): string {
    if s != "" && s[0] == '$' then s[1..] else s
  }

  /** strings.Cut at the first point. */
  function Cut(s: string): (string, string) {
    if s == "" then ("", "")
    else if s[0] == '.' then ("", s[1..])
    else
      var (whole, frac) := Cut(s[1..]);
      ([s[0]] + whole, frac)
  }

  /** strconv.ParseInt(s, 10, 64). */
  function ParseInt(s: string): Option<int> {
    var negative := s != "" && s[0] == '-';
    var digits := if s != "" && (s[0] == '-' || s[0] == '+') then s[1..] else s;
    if digits == "" || !AllDigits(digits) then None
    else
      var value: int := DigitsValue(digits);
      var n := if negative then -value else value;
      if IsInt64(n) then Some(n) else None
  }

  function ParseAmount(value: string): Result<int, AmountError> {
    ReadAmount(TrimSpace(TrimDollar(TrimSpace(value))))
  }

  function ReadAmount(amount: string): Result<int, AmountError> {
    if amount == "" then Err(Required) else ReadFields(Cut(amount).0, Cut(amount).1)
  }

  /** Whatever follows the first two characters after the point is ignored. */
  function Pence(frac: string): (pence: string)
    ensures |pence| == 2
  {
    (frac + "00")[..2]
  }

  function ReadFields(whole: string, frac: string): Result<int, AmountError> {
    var dollars := ParseInt(whole);
    var cents := ParseInt(Pence(frac));
    if dollars.None? || cents.None? then Err(Invalid) else Combined(dollars.value, cents.value)
  }

  function Combined(dollars: int, cents: int): Result<int, AmountError> {
    var total := Wrap64(Wrap64(dollars * 100) + cents);
    if total <= 0 then Err(NotPositive) else Ok(total)
  }

  // ------------------------------------------------------------- round trip

  lemma {:induction false} CutAtPoint(whole: string, frac: string)
    requires '.' !in whole
    ensures Cut(whole + ("." + frac)) == (whole, frac)
    decreases |whole|
  {
    var s := whole + ("." + frac);
    if whole == "" {
      assert s[1..] == frac;
    } else {
      assert s[0] == whole[0] && s[0] in whole;
      assert s[1..] == whole[1..] + ("." + frac);
      CutAtPoint(whole[1..], frac);
      assert [whole[0]] + whole[1..] == whole;
    }
  }

  /** Two digits, and they are worth what they were printed from. */
  lemma TwoDigits(n: nat)
    requires n < 100
    ensures |TwoWide(n)| == 2 && AllDigits(TwoWide(n)) && DigitsValue(TwoWide(n)) == n
  {
    var s := TwoWide(n);
    DecimalValue(n);
    if n < 10 {
      assert s[..1] == "0" && "0"[..0] == "";
    } else {
      assert Decimal(n / 10) == [DigitChar(n / 10)];
    }
  }

  /** The comma-free form of an amount. */
  function Plain(cents: nat): string {
    Joined(Decimal(cents / 100), TwoWide(cents % 100))
  }

  lemma StrippedParts(whole: string, pence: string)
    requires AllDigits(whole) && AllDigits(pence)
    ensures Stripped(Joined(Grouped(whole), pence)) == Joined(whole, pence)
  {
    StrippedDollars(whole);
    NothingToStrip("." + pence);
    StrippedTail("$" + Grouped(whole), "$" + whole, "." + pence);
  }

  lemma StrippedDollars(whole: string)
    requires AllDigits(whole)
    ensures Stripped("$" + Grouped(whole)) == "$" + whole
  {
    StrippedJoin("$", Grouped(whole));
    NothingToStrip("$");
    StrippedGroups(whole);
  }

  lemma StrippedIsPlain(cents: nat)
    ensures Stripped(Formatted(cents)) == Plain(cents)
  {
    TwoDigits(cents % 100);
    StrippedParts(Decimal(cents / 100), TwoWide(cents % 100));
  }

  lemma NoSpaces(s: string)
    requires s != "" && !IsSpace(s[0]) && !IsSpace(s[|s| - 1])
    ensures TrimSpace(s) == s
  {
  }

  lemma TwoDigitValue(s: string)
    requires |s| == 2 && AllDigits(s)
    ensures DigitsValue(s) == 10 * DigitValue(s[0]) + DigitValue(s[1]) < 100 && ParseInt(s) == Some(DigitsValue(s))
  {
    assert DigitsValue(s[..1]) == 10 * DigitsValue(s[..1][..0]) + DigitValue(s[0]);
    assert s[..1][..0] == "";
  }

  /** The answer for dollars and cents that were read. */
  function Reply(dollars: Option<int>, cents: int): Result<int, AmountError> {
    if dollars.None? then Err(Invalid) else Combined(dollars.value, cents)
  }

  lemma Trimmed(text: string, whole: string, pence: string)
    requires text == Joined(whole, pence)
    requires whole != "" && !IsSpace(whole[0]) && |pence| == 2 && AllDigits(pence)
    ensures TrimSpace(TrimDollar(TrimSpace(text))) == whole + ("." + pence)
  {
    var amount := whole + ("." + pence);
    assert text[1..] == amount;
    assert IsDigit(pence[1]);
    NoSpaces(text);
    NoSpaces(amount);
  }

  lemma ReadsAmount(whole: string, pence: string)
    requires whole != "" && '.' !in whole && |pence| == 2 && AllDigits(pence)
    ensures ReadAmount(whole + ("." + pence)) == Reply(ParseInt(whole), DigitsValue(pence))
  {
    CutAtPoint(whole, pence);
    assert Pence(pence) == pence;
    TwoDigitValue(pence);
  }

  /** The reader takes apart what was put together: a dollar sign, the dollars, a
      point and two more digits. */
  lemma ReadsParts(text: string, whole: string, pence: string, reply: Result<int, AmountError>)
    requires text == Joined(whole, pence)
    requires whole != "" && !IsSpace(whole[0]) && '.' !in whole && |pence| == 2 && AllDigits(pence)
    requires reply == Reply(ParseInt(whole), DigitsValue(pence))
    ensures ParseAmount(text) == reply
  {
    Trimmed(text, whole, pence);
    ReadsAmount(whole, pence);
  }

  lemma ParsesDigits(s: string)
    requires s != "" && AllDigits(s)
    ensures ParseInt(s) == if DigitsValue(s) > MAX_INT64 then None else Some(DigitsValue(s))
    ensures !IsSpace(s[0]) && '.' !in s
  {
    assert IsDigit(s[0]);
  }

  lemma ExactReply(dollars: int, cents: int)
    requires 0 <= dollars && 0 <= cents < 100
    ensures Reply(if dollars > MAX_INT64 then None else Some(dollars), cents) == Ok(dollars * 100 + cents)
            <==> 1 <= dollars * 100 + cents <= MAX_INT64
  {
  }

  lemma ReadsDecimal(n: nat)
    requires n <= MAX_INT64
    ensures var s := Decimal(n); s != "" && !IsSpace(s[0]) && '.' !in s && ParseInt(s) == Some(n)
  {
    DecimalValue(n);
    ParsesDigits(Decimal(n));
  }

  lemma InRange(amount: int, dollars: nat, cents: nat)
    requires cents < 100 && amount == dollars * 100 + cents && 1 <= amount <= MAX_INT64
    ensures dollars <= MAX_INT64 && Reply(Some(dollars), cents) == Ok(amount)
  {
    ExactReply(dollars, cents);
  }

  lemma ReadsBack(amount: int, dollars: nat, cents: nat, text: string)
    requires cents < 100 && amount == dollars * 100 + cents && 1 <= amount <= MAX_INT64
    requires text == Joined(Decimal(dollars), TwoWide(cents))
    ensures ParseAmount(text) == Ok(amount)
  {
    InRange(amount, dollars, cents);
    ReadsDecimal(dollars);
    TwoDigits(cents);
    ReadsParts(text, Decimal(dollars), TwoWide(cents), Ok(amount));
  }

  /** Every positive amount survives being printed and read again. */
  lemma RoundTrip(cents: int)
    requires 1 <= cents <= MAX_INT64
    ensures ParseAmount(Stripped(Formatted(cents))) == Ok(cents)
  {
    StrippedIsPlain(cents);
    ReadsBack(cents, cents / 100, cents % 100, Plain(cents));
  }

  lemma ShortDecimal(n: nat)
    ensures |Decimal(n)| <= 3 <==> n < 1000
  {
    if n >= 10 { assert |Decimal(n)| == |Decimal(n / 10)| + 1; }
    if n >= 100 { assert |Decimal(n / 10)| == |Decimal(n / 10 / 10)| + 1; }
    if n >= 1000 { assert |Decimal(n / 10 / 10)| == |Decimal(n / 10 / 10 / 10)| + 1; }
  }

  /** With its commas left in, an amount can be read exactly when it has none. */
  lemma ReadableIffSmall(cents: int, text: string)
    requires 1 <= cents <= MAX_INT64 && text == Formatted(cents)
    ensures ParseAmount(text) == (if cents < 100_000 then Ok(cents) else Err(Invalid))
  {
    if cents < 100_000 {
      SmallIsReadable(cents, text);
    } else {
      LargeIsRefused(cents, text);
    }
  }

  lemma SmallIsReadable(cents: int, text: string)
    requires 1 <= cents < 100_000 && text == Formatted(cents)
    ensures ParseAmount(text) == Ok(cents)
  {
    ShortDecimal(cents / 100);
    assert text == Plain(cents);
    ReadsBack(cents, cents / 100, cents % 100, text);
  }

  lemma LargeIsRefused(cents: int, text: string)
    requires 100_000 <= cents <= MAX_INT64 && text == Formatted(cents)
    ensures ParseAmount(text) == Err(Invalid)
  {
    ShortDecimal(cents / 100);
    TwoDigits(cents % 100);
    CommasAreRefused(text, Decimal(cents / 100), TwoWide(cents % 100));
  }

  lemma CommasAreRefused(text: string, whole: string, pence: string)
    requires text == Joined(Grouped(whole), pence)
    requires AllDigits(whole) && |whole| > 3 && |pence| == 2 && AllDigits(pence)
    ensures ParseAmount(text) == Err(Invalid)
  {
    GroupedIsNoInt(whole);
    ReadsParts(text, Grouped(whole), pence, Err(Invalid));
  }

  lemma GroupedIsNoInt(whole: string)
    requires AllDigits(whole) && |whole| > 3
    ensures var s := Grouped(whole); s != "" && !IsSpace(s[0]) && '.' !in s && ParseInt(s) == None
  {
    OnlyCommasAndDigits(whole);
    StartsWithDigit(whole);
    assert IsDigit(whole[0]);
    NotAnInt(Grouped(whole));
  }

  lemma NotAnInt(s: string)
    requires s != "" && IsDigit(s[0]) && ',' in s
    ensures ParseInt(s) == None
  {
  }

  /** Dollars and cents are added up in int64: the sum is right exactly when it is
      one, and a larger amount is not refused but can be read as another. */
  lemma ExactIffInRange(text: string, whole: string, pence: string)
    requires text == Joined(whole, pence)
    requires whole != "" && AllDigits(whole) && |pence| == 2 && AllDigits(pence)
    ensures var exact := DigitsValue(whole) * 100 + DigitsValue(pence);
            ParseAmount(text) == Ok(exact) <==> 1 <= exact <= MAX_INT64
  {
    var dollars, cents := DigitsValue(whole), DigitsValue(pence);
    ParsesDigits(whole);
    TwoDigitValue(pence);
    ExactReply(dollars, cents);
    ReadsParts(text, whole, pence, Reply(ParseInt(whole), cents));
  }

  lemma HugeReply(dollars: int)
    requires dollars == 184_467_440_737_095_517
    ensures Reply(Some(dollars), 0) == Ok(84)
  {
  }

  /** $184467440737095517.00 is read as 84 cents. */
  lemma HugeAmountReadAsCents(dollars: nat, text: string)
    requires dollars == 184_467_440_737_095_517 && text == Joined(Decimal(dollars), TwoWide(0))
    ensures ParseAmount(text) == Ok(84)
  {
    ReadsDecimal(dollars);
    TwoDigits(0);
    HugeReply(dollars);
    ReadsParts(text, Decimal(dollars), TwoWide(0), Ok(84));
  }

  // ------------------------------------------------------------- every text

  function Unsigned(whole: string): string {
    if whole != "" && (whole[0] == '-' || whole[0] == '+') then whole[1..] else whole
  }

  predicate Minus(whole: string) {
    whole != "" && whole[0] == '-'
  }

  /** The cents that dollars and a fraction denote, if they are a number at all: digits,
      perhaps under one sign, and digits behind the point, those after the second dropped. */
  function Denoted(whole: string, frac: string): Option<int> {
    if Unsigned(whole) == "" || !AllDigits(Unsigned(whole)) || !AllDigits(frac) then None
    else
      var cents := DigitsValue(Unsigned(whole)) * 100 + DigitsValue(Pence(frac));
      Some(if Minus(whole) then 0 - cents else cents)
  }

  lemma PenceDigits(frac: string)
    requires AllDigits(frac)
    ensures AllDigits(Pence(frac)) && DigitsValue(Pence(frac)) < 100
    ensures ParseInt(Pence(frac)) == Some(DigitsValue(Pence(frac)))
  {
    assert AllDigits(frac + "00");
    TwoDigitValue(Pence(frac));
  }

  lemma ReadDollars(whole: string)
    ensures ParseInt(whole).Some? ==> Unsigned(whole) != "" && AllDigits(Unsigned(whole))
    ensures Unsigned(whole) != "" && AllDigits(Unsigned(whole)) ==>
              var value: int := DigitsValue(Unsigned(whole));
              var n := if Minus(whole) then 0 - value else value;
              ParseInt(whole) == if IsInt64(n) then Some(n) else None
  {
  }

  /** What is read of a number is what it denotes, unless a sign or the range gets in
      the way. */
  lemma SumIsDenoted(dollars: int, cents: int)
    requires 0 <= cents < 100 && IsInt64(dollars) && Combined(dollars, cents).Ok?
    ensures dollars >= 0 ==> (Combined(dollars, cents) == Ok(dollars * 100 + cents) <==> dollars * 100 + cents <= MAX_INT64)
  {
  }

  lemma FieldsAreRight(whole: string, frac: string)
    requires ReadFields(whole, frac).Ok?
    ensures Unsigned(whole) != "" && AllDigits(Unsigned(whole))
    ensures Denoted(whole, frac) == Some(ReadFields(whole, frac).value)
            <==> !Minus(whole) && AllDigits(frac) && DigitsValue(Unsigned(whole)) * 100 + DigitsValue(Pence(frac)) <= MAX_INT64
  {
    ReadDollars(whole);
    if AllDigits(frac) {
      PenceDigits(frac);
      SumIsDenoted(ParseInt(whole).value, DigitsValue(Pence(frac)));
    }
  }

  lemma NumbersAreRead(whole: string, frac: string, n: int)
    requires Denoted(whole, frac) == Some(n) && 1 <= n <= MAX_INT64
    ensures ReadFields(whole, frac) == Ok(n)
  {
    PenceDigits(frac);
    var dollars, cents := DigitsValue(Unsigned(whole)), DigitsValue(Pence(frac));
    assert !Minus(whole) && n == dollars * 100 + cents;
    ReadDollars(whole);
    InRange(n, dollars, cents);
    assert ParseInt(whole) == Some(dollars);
  }

  /** The text without the blanks and the dollar sign around the amount. */
  function Bare(value: string): string {
    TrimSpace(TrimDollar(TrimSpace(value)))
  }

  /** Every text that is accepted. The amount is the one the text denotes exactly when
      there is no minus sign, nothing but digits behind the point, and no overflow. */
  lemma AcceptedIsRight(value: string, whole: string, frac: string)
    requires ParseAmount(value).Ok? && (whole, frac) == Cut(Bare(value))
    ensures Unsigned(whole) != "" && AllDigits(Unsigned(whole))
    ensures Denoted(whole, frac) == Some(ParseAmount(value).value)
            <==> !Minus(whole) && AllDigits(frac) && DigitsValue(Unsigned(whole)) * 100 + DigitsValue(Pence(frac)) <= MAX_INT64
  {
    FieldsAreRight(whole, frac);
  }

  /** Every text that denotes an amount between one cent and the largest int64 is
      accepted, and as that amount. */
  lemma AmountsAreAccepted(value: string, whole: string, frac: string, n: int)
    requires (whole, frac) == Cut(Bare(value)) && Denoted(whole, frac) == Some(n) && 1 <= n <= MAX_INT64
    ensures ParseAmount(value) == Ok(n)
  {
    NumbersAreRead(whole, frac, n);
  }

  lemma OneDigitValue(s: string)
    requires |s| == 1 && AllDigits(s)
    ensures DigitsValue(s) == DigitValue(s[0])
  {
    assert s[..0] == "";
  }

  predicate Printable(s: string) {
    forall i | 0 <= i < |s| :: !IsSpace(s[i]) && s[i] != '$'
  }

  lemma BareText(text: string, whole: string, frac: string, reply: Result<int, AmountError>)
    requires text == whole + ("." + frac) && whole != "" && frac != ""
    requires Printable(whole) && Printable(frac) && '.' !in whole && reply == ReadFields(whole, frac)
    ensures ParseAmount(text) == reply
  {
    NoSpaces(text);
    CutAtPoint(whole, frac);
  }

  /** One text for each way to be wrong, besides overflow. A negative amount of less
      than a dollar: -0.50 is read as 50 cents. */
  lemma MinusIsLost(text: string)
    requires text == "-0" + ("." + "50")
    ensures Denoted("-0", "50") == Some(-50) && ParseAmount(text) == Ok(50)
  {
    MinusPrintable();
    TwoDigitValue("50");
    MinusFields("-0", "50");
    BareText(text, "-0", "50", Ok(50));
  }

  lemma MinusPrintable()
    ensures Printable("-0") && Printable("50") && '.' !in "-0"
  {
  }

  lemma MinusZero(whole: string)
    requires |whole| == 2 && whole[0] == '-' && whole[1] == '0'
    ensures Unsigned(whole) == "0" && DigitsValue(Unsigned(whole)) == 0 && ParseInt(whole) == Some(0)
  {
    OneDigitValue("0");
    assert whole[1..] == "0";
  }

  lemma MinusFields(whole: string, frac: string)
    requires |whole| == 2 && whole[0] == '-' && whole[1] == '0' && |frac| == 2 && AllDigits(frac)
    requires DigitsValue(frac) > 0
    ensures Denoted(whole, frac) == Some(0 - DigitsValue(frac)) && ReadFields(whole, frac) == Ok(DigitsValue(frac))
  {
    MinusZero(whole);
    assert Pence(frac) == frac;
    TwoDigitValue(frac);
  }

  /** Signed pence: 1.-5 is read as 95 cents. */
  lemma SignedPence(text: string)
    requires text == "1" + ("." + "-5")
    ensures Denoted("1", "-5") == None && ParseAmount(text) == Ok(95)
  {
    SignedFields();
    BareText(text, "1", "-5", Ok(95));
  }

  lemma SignedFields()
    ensures Denoted("1", "-5") == None && ReadFields("1", "-5") == Ok(95)
    ensures Printable("1") && Printable("-5") && '.' !in "1"
  {
    OneDigitValue("1");
    OneDigitValue("5");
    assert Pence("-5") == "-5" && "-5"[1..] == "5";
    assert !IsDigit("-5"[0]);
  }

  /** Something behind the pence: 1.23x is read as 123 cents. */
  lemma TailIsIgnored(text: string)
    requires text == "1" + ("." + "23x")
    ensures Denoted("1", "23x") == None && ParseAmount(text) == Ok(123)
  {
    TailFields();
    BareText(text, "1", "23x", Ok(123));
  }

  lemma TailFields()
    ensures Denoted("1", "23x") == None && ReadFields("1", "23x") == Ok(123)
    ensures Printable("1") && Printable("23x") && '.' !in "1"
  {
    OneDigitValue("1");
    assert Pence("23x") == "23";
    TwoDigitValue("23");
    assert !IsDigit("23x"[2]);
  }
}
