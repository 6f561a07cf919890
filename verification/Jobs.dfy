/** The jobs table row and the pure rules of job.go. */
module Jobs {
  import opened Values
  import opened Faults

  /** `Failed` is in the database enum but no operation writes it. */
  datatype Status = Queued | Running | Retrying | Succeeded | Failed | DeadLetter | Canceled

  predicate Terminal(status: Status) {
    status == Succeeded || status == DeadLetter || status == Canceled
  }

  predicate Waiting(status: Status) {
    status == Queued || status == Retrying
  }

  datatype Row = Row(
    queue: string,
    kind: string,
    payload: Json,
    status: Status,
    idem: Option<string>,
    attempt: int,
    maxAttempts: int,
    runAfter: Time,
    leaseOwner: Option<WorkerId>,
    leaseExpires: Option<Time>,
    heartbeatAt: Option<Time>,
    result: Option<Json>,
    error: Option<string>,
    wakeVersion: int,
    createdAt: Time,
    updatedAt: Time,
    completedAt: Option<Time>,
    parent: Option<JobId>)

  datatype EnqueueRequest = EnqueueRequest(
    queue: string,
    kind: string,
    payload: Option<Json>,
    idem: string,
    maxAttempts: int,
    runAfter: Option<Time>,
    parent: Option<JobId>)

  function Normalize(req: EnqueueRequest, now: Time): (r: EnqueueRequest)
    ensures r.queue != "" && r.payload.Some? && r.maxAttempts > 0 && r.runAfter.Some?
    ensures req.queue != "" && req.payload.Some? && req.maxAttempts > 0 && req.runAfter.Some? ==> r == req
  {
    req.(queue := if req.queue == "" then "default" else req.queue,
         payload := Some(OrEmpty(req.payload)),
         maxAttempts := if req.maxAttempts <= 0 then 3 else req.maxAttempts,
         runAfter := if req.runAfter.None? then Some(now) else req.runAfter)
  }

  function NextStatusAfterFailure(attempt: int, maxAttempts: int, cause: Fault): Status {
    if IsPermanent(cause) || attempt >= maxAttempts then DeadLetter else Retrying
  }

  /** An int64 holds its value modulo 2^64. */
  function Wrap64(n: int): (r: int)
    ensures -0x8000_0000_0000_0000 <= r < 0x8000_0000_0000_0000
    ensures -0x8000_0000_0000_0000 <= n < 0x8000_0000_0000_0000 ==> r == n
  {
    (n + 0x8000_0000_0000_0000) % 0x1_0000_0000_0000_0000 - 0x8000_0000_0000_0000
  }

  function Pow2(n: nat): (r: nat)
    ensures r >= 1
  {
    if n == 0 then 1 else 2 * Pow2(n - 1)
  }

  /** The uncapped delay after a shift by n < 64: the shift and the product both wrap. */
  function RawDelay(n: nat): Time {
    Wrap64(SECOND * Wrap64(Pow2(n)))
  }

  /** Backoff in int64 arithmetic; a shift by 64 or more leaves nothing. */
  function Backoff(attempt: int): Time {
    var shift := if attempt < 1 then 0 else attempt - 1;
    var delay := if shift >= 64 then 0 else RawDelay(shift);
    if delay > MINUTE then MINUTE else delay
  }

  lemma {:induction false} Pow2Monotone(m: nat, n: nat)
    requires m <= n
    ensures Pow2(m) <= Pow2(n)
    decreases n
  {
    if m < n { Pow2Monotone(m, n - 1); }
  }

  lemma Pow2Values()
    ensures Pow2(6) == 64 && Pow2(33) == 0x2_0000_0000 && Pow2(34) == 0x4_0000_0000
  {
    assert Pow2(4) == 0x10;
    assert Pow2(8) == 0x100;
    assert Pow2(12) == 0x1000;
    assert Pow2(16) == 0x1_0000;
    assert Pow2(20) == 0x10_0000;
    assert Pow2(24) == 0x100_0000;
    assert Pow2(28) == 0x1000_0000;
    assert Pow2(32) == 0x1_0000_0000;
  }

  /** No product in this range wraps. */
  lemma Capped(factor: int)
    requires 1 <= factor <= 0x2_0000_0000
    ensures var delay := Wrap64(SECOND * Wrap64(factor));
            (if delay > MINUTE then MINUTE else delay) == Min(factor, 60) * SECOND
  {
  }

  /** The documented schedule, min(2^(attempt-1), 60) seconds. */
  predicate OnSchedule(attempt: int)
    requires attempt >= 1
  {
    Backoff(attempt) == Min(Pow2(attempt - 1), 60) * SECOND
  }

  /** It is what the int64 code computes for every attempt up to 34. */
  lemma BackoffSchedule(attempt: int)
    requires 1 <= attempt <= 34
    ensures OnSchedule(attempt)
  {
    Pow2Monotone(attempt - 1, 33);
    Pow2Values();
    Capped(Pow2(attempt - 1));
  }

  // ------------------------------------------------- where the product wraps

  lemma WrapShift(n: int, k: int)
    ensures Wrap64(n + k * 0x1_0000_0000_0000_0000) == Wrap64(n)
  {
  }

  /** What was lost by wrapping is a multiple of 2^64. */
  lemma WrapLoses(n: int) returns (k: int)
    ensures n == Wrap64(n) + k * 0x1_0000_0000_0000_0000
  {
    k := (n + 0x8000_0000_0000_0000) / 0x1_0000_0000_0000_0000;
  }

  lemma WrapSeconds(n: int)
    ensures Wrap64(SECOND * Wrap64(n)) == Wrap64(SECOND * n)
  {
    var k := WrapLoses(n);
    WrapShift(SECOND * Wrap64(n), SECOND * k);
  }

  lemma WrapDouble(n: int)
    ensures Wrap64(2 * Wrap64(n)) == Wrap64(2 * n)
  {
    var k := WrapLoses(n);
    WrapShift(2 * Wrap64(n), 2 * k);
  }

  /** One attempt more doubles the uncapped delay, and wraps it again. */
  lemma RawDoubles(n: nat)
    ensures RawDelay(n + 1) == Wrap64(2 * RawDelay(n))
  {
    WrapSeconds(Pow2(n));
    WrapSeconds(Pow2(n + 1));
    WrapDouble(SECOND * Pow2(n));
  }

  /** The uncapped delays of attempts 35 to 56. */
  const WRAPPED: seq<int> := [
    -1_266_874_889_709_551_616, -2_533_749_779_419_103_232, -5_067_499_558_838_206_464,
    8_311_744_956_033_138_688, -1_823_254_161_643_274_240, -3_646_508_323_286_548_480,
    -7_293_016_646_573_096_960, 3_860_710_780_563_357_696, 7_721_421_561_126_715_392,
    -3_003_900_951_456_120_832, -6_007_801_902_912_241_664, 6_431_140_267_885_068_288,
    -5_584_463_537_939_415_040, 7_277_816_997_830_721_536, -3_891_110_078_048_108_544,
    -7_782_220_156_096_217_088, 2_882_303_761_517_117_440, 5_764_607_523_034_234_880,
    -6_917_529_027_641_081_856, 4_611_686_018_427_387_904, -9_223_372_036_854_775_808,
    0]

  lemma WrappedDoubles(k: nat)
    requires k + 1 < |WRAPPED|
    ensures Wrap64(2 * WRAPPED[k]) == WRAPPED[k + 1]
  {
  }

  lemma {:induction false} RawIsWrapped(n: nat)
    requires 34 <= n < 34 + |WRAPPED|
    ensures RawDelay(n) == WRAPPED[n - 34]
  {
    if n == 34 {
      Pow2Values();
    } else {
      RawIsWrapped(n - 1);
      RawDoubles(n - 1);
      WrappedDoubles(n - 35);
    }
  }

  lemma {:induction false} RawIsNothing(n: nat)
    requires n >= 55
    ensures RawDelay(n) == 0
  {
    if n == 55 {
      RawIsWrapped(55);
    } else {
      RawIsNothing(n - 1);
      RawDoubles(n - 1);
    }
  }

  /** Exactly when the code keeps to the schedule. At some attempts after 34 the
      wrapped product happens to be large, and is capped as documented; at the others up
      to 55 it is negative, and from 56 on there is no delay at all. */
  lemma BackoffExactly(attempt: int)
    requires attempt >= 1
    ensures OnSchedule(attempt) <==> attempt <= 34 || attempt in {38, 42, 43, 46, 48, 51, 52, 54}
    ensures 35 <= attempt <= 55 && !OnSchedule(attempt) ==> Backoff(attempt) < 0
    ensures attempt >= 56 ==> Backoff(attempt) == 0
  {
    if attempt <= 34 {
      BackoffSchedule(attempt);
    } else {
      CapIsDue(attempt);
      if attempt <= 55 {
        BackoffWraps(attempt);
      } else if attempt <= 64 {
        RawIsNothing(attempt - 1);
      }
    }
  }

  /** After attempt 34 the schedule is at its cap. */
  lemma CapIsDue(attempt: int)
    requires attempt >= 35
    ensures Min(Pow2(attempt - 1), 60) == 60
  {
    Pow2Monotone(6, attempt - 1);
    Pow2Values();
  }

  lemma BackoffWraps(attempt: int)
    requires 35 <= attempt <= 55
    ensures if attempt in {38, 42, 43, 46, 48, 51, 52, 54} then Backoff(attempt) == MINUTE else Backoff(attempt) < 0
  {
    RawIsWrapped(attempt - 1);
  }
}
