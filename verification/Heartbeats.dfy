/** The heartbeat loop beside a running job: when it renews, and when it gives up. */
module Heartbeats {
  import opened Values

  const MILLISECOND: Time := 1_000_000

  function Interval(lease: Time): (r: Time)
    ensures r > 0
    ensures lease >= 3 ==> 3 * r <= lease < 3 * r + 3
  {
    if lease <= 0 then 10 * SECOND
    else if lease / 3 <= 0 then MILLISECOND
    else lease / 3
  }

  /** How one Heartbeat call went, and how long it took. */
  datatype Outcome = Renewed | LeaseLost | Failed

  datatype Beat = Beat(outcome: Outcome, duration: nat)

  // ----------------------------------------------------------------- ticks

  /** A ticker holds one tick for a slow receiver and drops the rest. `used` ticks
      have been received or dropped by `now`; gives the number after the next one is
      received, and when that is. */
  function NextTick(interval: Time, start: Time, used: nat, now: Time): (r: (nat, Time))
    requires interval > 0 && start <= now
    ensures r.0 > used && r.1 >= now
  {
    var fired := (now - start) / interval;
    if fired > used then (fired, now) else (used + 1, start + (used + 1) * interval)
  }

  /** Ticks used and time passed when call `n` begins. */
  function Begins(interval: Time, start: Time, beats: seq<Beat>, n: nat): (r: (nat, Time))
    requires interval > 0 && n <= |beats|
    ensures r.1 >= start
    decreases n
  {
    if n == 0 then NextTick(interval, start, 0, start)
    else
      var (used, now) := Begins(interval, start, beats, n - 1);
      NextTick(interval, start, used, now + beats[n - 1].duration)
  }

  function Ends(interval: Time, start: Time, beats: seq<Beat>, n: nat): Time
    requires interval > 0 && n < |beats|
  {
    Begins(interval, start, beats, n).1 + beats[n].duration
  }

  /** When the lease was last seen renewed before call `n`. */
  function LastRenewed(interval: Time, start: Time, beats: seq<Beat>, n: nat): Time
    requires interval > 0 && n <= |beats|
  {
    if n == 0 then start
    else if beats[n - 1].outcome.Renewed? then Ends(interval, start, beats, n - 1)
    else LastRenewed(interval, start, beats, n - 1)
  }

  /** Call `n` makes the worker stop the job. */
  predicate StopsAt(lease: Time, start: Time, beats: seq<Beat>, n: nat)
    requires n < |beats|
  {
    var interval := Interval(lease);
    || beats[n].outcome.LeaseLost?
    || (beats[n].outcome.Failed?
        && Ends(interval, start, beats, n) - LastRenewed(interval, start, beats, n) >= lease - interval)
  }

  // ------------------------------------------------------------------ loop

  /** The loop over the calls that are made while the job runs. It stops the job at
      the first call that says so, and then makes no other. */
  method Watch(lease: Time, start: Time, beats: seq<Beat>) returns (stopped: Option<Time>, calls: nat)
    ensures calls <= |beats| && forall n | 0 <= n < calls - 1 :: !StopsAt(lease, start, beats, n)
    ensures stopped.None? ==> calls == |beats| && (calls > 0 ==> !StopsAt(lease, start, beats, calls - 1))
    ensures stopped.Some? ==> calls > 0 && StopsAt(lease, start, beats, calls - 1)
                              && stopped.value == Ends(Interval(lease), start, beats, calls - 1)
  {
    var interval := Interval(lease);
    var lastRenewed, now, used := start, start, 0;
    calls := 0;
    while calls < |beats|
      invariant calls <= |beats| && start <= now
      invariant NextTick(interval, start, used, now) == Begins(interval, start, beats, calls)
      invariant lastRenewed == LastRenewed(interval, start, beats, calls)
      invariant forall n | 0 <= n < calls :: !StopsAt(lease, start, beats, n)
    {
      var tick := NextTick(interval, start, used, now);
      used, now := tick.0, tick.1 + beats[calls].duration;
      calls := calls + 1;
      match beats[calls - 1].outcome
      case Renewed =>
        lastRenewed := now;
      case LeaseLost =>
        return Some(now), calls;
      case Failed =>
        if now - lastRenewed >= lease - interval {
          return Some(now), calls;
        }
    }
    return None, calls;
  }

  // --------------------------------------------------------- give-up bound

  predicate Quick(interval: Time, d: nat, beats: seq<Beat>) {
    d <= interval - 2 && forall n | 0 <= n < |beats| :: beats[n].duration <= d
  }

  /** Calls shorter than the interval begin on the tick. */
  lemma {:induction false} OnTheTick(interval: Time, start: Time, beats: seq<Beat>, n: nat, d: nat)
    requires interval > 0 && n <= |beats| && Quick(interval, d, beats)
    ensures Begins(interval, start, beats, n) == (n + 1, start + (n + 1) * interval)
    decreases n
  {
    if n == 0 {
      assert (start - start) / interval == 0;
    } else {
      OnTheTick(interval, start, beats, n - 1, d);
      Between(interval, n, beats[n - 1].duration);
    }
  }

  lemma Between(interval: Time, n: nat, duration: nat)
    requires 0 <= duration < interval
    ensures (n * interval + duration) / interval == n
  {
    var q := (n * interval + duration) / interval;
    var rest := (n * interval + duration) % interval;
    assert q * interval + rest == n * interval + duration;
    if q > n { Grows(n + 1, q, interval); }
    if q < n { Grows(q + 1, n, interval); }
  }

  lemma Grows(a: int, b: int, factor: nat)
    requires a <= b
    ensures a * factor <= b * factor
  {
  }

  /** The tick of the last renewal before call `n`; the start of the job is one. */
  function RenewalTick(interval: Time, start: Time, k: nat): Time {
    start + k * interval
  }

  function RenewalDelay(beats: seq<Beat>, k: nat): nat
    requires k <= |beats|
  {
    if k == 0 then 0 else beats[k - 1].duration
  }

  /** `k` calls were made, the last of them renewed the lease (or k = 0, and the job
      has just started), and the next three fail. */
  predicate ThenSilence(lease: Time, start: Time, beats: seq<Beat>, k: nat) {
    && k + 3 <= |beats| && (k > 0 ==> beats[k - 1].outcome.Renewed?)
    && beats[k].outcome.Failed? && beats[k + 1].outcome.Failed? && beats[k + 2].outcome.Failed?
  }

  /** What is left of the lease after three intervals: 0, 1 or 2 nanoseconds. */
  function Rest(lease: Time): int {
    lease - 3 * Interval(lease)
  }

  /** Failure `m`, counted from 0, ends that many ticks and its own duration later. */
  predicate EndsOnTime(lease: Time, start: Time, beats: seq<Beat>, k: nat, m: nat)
    requires k + m < |beats|
  {
    Ends(Interval(lease), start, beats, k + m)
    == RenewalTick(Interval(lease), start, k) + (m + 1) * Interval(lease) + beats[k + m].duration
  }

  lemma FailureEnds(lease: Time, start: Time, beats: seq<Beat>, k: nat, m: nat, d: nat)
    requires lease >= 6 && Quick(Interval(lease), d, beats) && k + m < |beats|
    ensures EndsOnTime(lease, start, beats, k, m)
  {
    var interval := Interval(lease);
    OnTheTick(interval, start, beats, k + m, d);
    assert (k + m + 1) * interval == k * interval + (m + 1) * interval;
  }

  lemma Silent(lease: Time, start: Time, beats: seq<Beat>, k: nat, d: nat)
    requires lease >= 6 && Quick(Interval(lease), d, beats) && ThenSilence(lease, start, beats, k)
    ensures var interval := Interval(lease);
            var renewed := RenewalTick(interval, start, k) + RenewalDelay(beats, k);
            && LastRenewed(interval, start, beats, k) == renewed
            && LastRenewed(interval, start, beats, k + 1) == renewed
            && LastRenewed(interval, start, beats, k + 2) == renewed
  {
    var interval := Interval(lease);
    if k > 0 { OnTheTick(interval, start, beats, k - 1, d); }
    assert LastRenewed(interval, start, beats, k + 2) == LastRenewed(interval, start, beats, k + 1);
  }

  /** The first failure never stops the job, the second does when its call took long
      enough, and the third always does. */
  lemma GivesUp(lease: Time, start: Time, beats: seq<Beat>, k: nat, d: nat)
    requires lease >= 6 && Quick(Interval(lease), d, beats) && ThenSilence(lease, start, beats, k)
    ensures !StopsAt(lease, start, beats, k)
    ensures StopsAt(lease, start, beats, k + 1) <==> beats[k + 1].duration >= RenewalDelay(beats, k) + Rest(lease)
    ensures StopsAt(lease, start, beats, k + 2)
    ensures EndsOnTime(lease, start, beats, k, 1) && EndsOnTime(lease, start, beats, k, 2)
  {
    FailureEnds(lease, start, beats, k, 0, d);
    FailureEnds(lease, start, beats, k, 1, d);
    FailureEnds(lease, start, beats, k, 2, d);
    Silent(lease, start, beats, k, d);
  }

  /** When the job is stopped. */
  function StopTime(lease: Time, start: Time, beats: seq<Beat>, k: nat): Time
    requires k + 3 <= |beats|
  {
    Ends(Interval(lease), start, beats, if StopsAt(lease, start, beats, k + 1) then k + 1 else k + 2)
  }

  /** If every heartbeat after the tick at t fails, the job is stopped by
      t + 3I + d, which is at most t + L + d. It is stopped strictly before t + L, when
      a lease renewed at t may expire, exactly when the second failing call outlasted
      the renewing one by the rest of the lease or the third took less than that rest. */
  lemma GiveUpBound(lease: Time, start: Time, beats: seq<Beat>, k: nat, d: nat)
    requires lease >= 6 && Quick(Interval(lease), d, beats) && ThenSilence(lease, start, beats, k)
    ensures var t, interval := RenewalTick(Interval(lease), start, k), Interval(lease);
            && StopTime(lease, start, beats, k) <= t + 3 * interval + d <= t + lease + d
            && (StopTime(lease, start, beats, k) < t + lease <==>
                  beats[k + 1].duration >= RenewalDelay(beats, k) + Rest(lease) || beats[k + 2].duration < Rest(lease))
            && (d == 0 ==> StopTime(lease, start, beats, k) < t + lease)
  {
    GivesUp(lease, start, beats, k, d);
  }

  /** The first silence is another matter. The lease was granted at the claim, `gap` before
      the loop's first tick is set, and no heartbeat has renewed it: the job is stopped before
      that lease ends exactly when the gap, too, fits into what the failing calls leave. */
  lemma FirstSilence(lease: Time, start: Time, beats: seq<Beat>, gap: nat, d: nat)
    requires lease >= 6 && Quick(Interval(lease), d, beats) && ThenSilence(lease, start, beats, 0)
    ensures var interval, expiry := Interval(lease), start - gap + lease;
            && StopTime(lease, start, beats, 0) <= start + 3 * interval + d <= expiry + gap + d
            && (StopTime(lease, start, beats, 0) < expiry <==>
                  if beats[1].duration >= Rest(lease) then gap + beats[1].duration < interval + Rest(lease)
                  else gap + beats[2].duration < Rest(lease))
  {
    GivesUp(lease, start, beats, 0, d);
  }

  /** The margin is not always there: a lease of 9 ns, a renewal that took 1 ns, and
      two failures that took none. The job is stopped only as the lease expires. */
  lemma NotAlwaysBeforeExpiry()
    ensures var beats := [Beat(Renewed, 1), Beat(Failed, 0), Beat(Failed, 0), Beat(Failed, 0)];
            StopTime(9, 0, beats, 1) == RenewalTick(Interval(9), 0, 1) + 9
  {
    var beats := [Beat(Renewed, 1), Beat(Failed, 0), Beat(Failed, 0), Beat(Failed, 0)];
    GivesUp(9, 0, beats, 1, 1);
  }

  /** The interval of a lease: a third of it, 1 ms if that is nothing, 10 s without a lease. */
  lemma IntervalOf(lease: Time)
    ensures lease <= 0 ==> Interval(lease) == 10_000_000_000
    ensures 0 < lease < 3 ==> Interval(lease) == 1_000_000
    ensures lease >= 3 ==> Interval(lease) == lease / 3
  {
  }

  /** A renewal never stops the job and a lost lease always does; any other failure does iff
      the last renewal, or the start of the loop, is at least the lease less one interval
      ago. */
  lemma StopsIff(lease: Time, start: Time, beats: seq<Beat>, n: nat, k: nat)
    requires n < |beats| && k <= n && (forall m | k <= m < n :: !beats[m].outcome.Renewed?)
    requires k == 0 || beats[k - 1].outcome.Renewed?
    ensures var interval := Interval(lease);
            var renewed := if k == 0 then start else Begins(interval, start, beats, k - 1).1 + beats[k - 1].duration;
            var ends := Begins(interval, start, beats, n).1 + beats[n].duration;
            match beats[n].outcome
            case Renewed => !StopsAt(lease, start, beats, n)
            case LeaseLost => StopsAt(lease, start, beats, n)
            case Failed => StopsAt(lease, start, beats, n) <==> ends - renewed >= lease - interval
  {
    SinceRenewal(Interval(lease), start, beats, n, k);
  }

  lemma {:induction false} SinceRenewal(interval: Time, start: Time, beats: seq<Beat>, n: nat, k: nat)
    requires interval > 0 && k <= n <= |beats| && (forall m | k <= m < n :: !beats[m].outcome.Renewed?)
    ensures LastRenewed(interval, start, beats, n) == LastRenewed(interval, start, beats, k)
    decreases n
  {
    if k < n { SinceRenewal(interval, start, beats, n - 1, k); }
  }

  /** When the next tick is taken: at once if one fired while the last call was under way,
      else at the next multiple of the interval; what fired beyond that is dropped. */
  lemma TickTaken(interval: Time, start: Time, used: nat, now: Time, fired: nat)
    requires interval > 0 && start <= now && start + fired * interval <= now < start + (fired + 1) * interval
    ensures NextTick(interval, start, used, now)
            == if fired > used then (fired, now) else (used + 1, start + (used + 1) * interval)
  {
    var rest := now - start - fired * interval;
    assert (fired + 1) * interval == fired * interval + interval;
    Between(interval, fired, rest);
  }
}
