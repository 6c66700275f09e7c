/** `reconnect_delay`: saturating exponential backoff with jitter (src/client.rs). */
module Backoff {
  import opened Types

  const U32_MAX: nat := 0xFFFF_FFFF
  /** Duration::MAX: u64::MAX seconds and 999_999_999 nanoseconds. */
  const DURATION_MAX: nat := 0xFFFF_FFFF_FFFF_FFFF * 1_000_000_000 + 999_999_999

  function Min(a: nat, b: nat): nat {
    if a <= b then a else b
  }

  function Pow2(n: nat): nat {
    if n == 0 then 1 else 2 * Pow2(n - 1)
  }

  /** `2_u32.saturating_pow(n)`: exponentiation stopped at u32::MAX. */
  function SaturatingPow2(n: nat): nat {
    Min(Pow2(n), U32_MAX)
  }

  function SaturatingMul(d: nat, k: nat): nat {
    Min(d * k, DURATION_MAX)
  }

  function SaturatingAdd(a: nat, b: nat): nat {
    Min(a + b, DURATION_MAX)
  }

  function Predecessor(attempt: nat): nat {
    if attempt == 0 then 0 else attempt - 1
  }

  function Base(o: Options, attempt: nat): nat {
    Min(SaturatingMul(o.reconnectDelay, SaturatingPow2(Predecessor(attempt))), o.maxReconnectDelay)
  }

  /** The delay before a retry; `random` is the 128-bit value of a fresh UUID. */
  function Delay(o: Options, attempt: nat, random: nat): nat {
    var base := Base(o, attempt);
    var jitterBound := base / NANOS_PER_MILLI / 4;
    var jitter := random % (jitterBound + 1);
    Min(SaturatingAdd(base, jitter * NANOS_PER_MILLI), o.maxReconnectDelay)
  }

  /** The documented schedule, without machine widths: delay doubled per attempt, capped. */
  function Ideal(o: Options, attempt: nat): nat {
    Min(o.reconnectDelay * Pow2(Predecessor(attempt)), o.maxReconnectDelay)
  }

  // ---- Powers of two ----

  lemma {:induction false} Pow2Monotone(a: nat, b: nat)
    requires a <= b
    ensures Pow2(a) <= Pow2(b)
    decreases b
  {
    if a < b {
      Pow2Monotone(a, b - 1);
    }
  }

  lemma Pow2At32()
    ensures Pow2(31) == 0x8000_0000 && Pow2(32) == 0x1_0000_0000
  {
    assert Pow2(8) == 256;
    assert Pow2(16) == 65536;
    assert Pow2(24) == 0x100_0000;
    assert Pow2(31) == 0x8000_0000;
  }

  lemma ScaleMonotone(d: nat, a: nat, b: nat)
    requires a <= b
    ensures d * a <= d * b
  {
  }

  /** A validated delay times any u32 factor stays below Duration::MAX, so only the power can saturate. */
  lemma MulNeverSaturates(o: Options, attempt: nat)
    requires Valid(o)
    ensures SaturatingMul(o.reconnectDelay, SaturatingPow2(Predecessor(attempt)))
         == o.reconnectDelay * SaturatingPow2(Predecessor(attempt))
  {
    var k := SaturatingPow2(Predecessor(attempt));
    ScaleMonotone(o.reconnectDelay, k, U32_MAX);
    ScaleMonotone(U32_MAX, o.reconnectDelay, NANOS_PER_DAY);
  }

  // ---- Main results ----

  /** The computed base is the documented one exactly when the u32 power has not visibly saturated. */
  lemma BaseIsIdealIff(o: Options, attempt: nat)
    requires Valid(o)
    ensures Base(o, attempt) == Ideal(o, attempt)
       <==> attempt <= 32 || o.maxReconnectDelay <= o.reconnectDelay * U32_MAX
  {
    MulNeverSaturates(o, attempt);
    Pow2At32();
    if attempt <= 32 {
      Pow2Monotone(Predecessor(attempt), 31);
    } else {
      Pow2Monotone(32, Predecessor(attempt));
      assert SaturatingPow2(Predecessor(attempt)) == U32_MAX;
      ScaleMonotone(o.reconnectDelay, U32_MAX + 1, Pow2(Predecessor(attempt)));
      assert o.reconnectDelay * (U32_MAX + 1) == o.reconnectDelay * U32_MAX + o.reconnectDelay;
    }
  }

  /** A first delay of at least one millisecond meets the threshold, whatever the cap. */
  lemma MillisecondDelaysAreExact(o: Options, attempt: nat)
    requires Valid(o) && NANOS_PER_MILLI <= o.reconnectDelay
    ensures Base(o, attempt) == Ideal(o, attempt)
  {
    ScaleMonotone(U32_MAX, NANOS_PER_MILLI, o.reconnectDelay);
    BaseIsIdealIff(o, attempt);
  }

  /** The threshold is real: with one-nanosecond first delays and a day's cap, attempt 33 is below the schedule. */
  lemma SaturationIsVisible(o: Options)
    requires Valid(o) && o.reconnectDelay == 1 && o.maxReconnectDelay == NANOS_PER_DAY
    ensures Base(o, 33) < Ideal(o, 33)
  {
    Pow2At32();
    MulNeverSaturates(o, 33);
  }

  lemma BaseMonotone(o: Options, a: nat, b: nat)
    requires Valid(o) && a <= b
    ensures Base(o, a) <= Base(o, b)
  {
    MulNeverSaturates(o, a);
    MulNeverSaturates(o, b);
    Pow2Monotone(Predecessor(a), Predecessor(b));
    ScaleMonotone(o.reconnectDelay, SaturatingPow2(Predecessor(a)), SaturatingPow2(Predecessor(b)));
  }

  /** Whatever the random value: never below the base, never above the cap, at most a quarter of the base more. */
  lemma DelayBounded(o: Options, attempt: nat, random: nat)
    requires Valid(o)
    ensures Base(o, attempt) <= Delay(o, attempt, random) <= o.maxReconnectDelay
    ensures 4 * Delay(o, attempt, random) <= 5 * Base(o, attempt)
    ensures 0 < Delay(o, attempt, random)
  {
    var base := Base(o, attempt);
    var bound := base / NANOS_PER_MILLI / 4;
    var jitter := random % (bound + 1);
    assert jitter <= bound;
    assert bound * NANOS_PER_MILLI * 4 <= base;
    assert jitter * NANOS_PER_MILLI <= bound * NANOS_PER_MILLI;
    MulNeverSaturates(o, attempt);
    Pow2Monotone(0, Predecessor(attempt));
    ScaleMonotone(o.reconnectDelay, 1, SaturatingPow2(Predecessor(attempt)));
  }

  /** How many whole milliseconds fit in a quarter of the base. */
  ghost predicate QuarterMillis(o: Options, attempt: nat, q: nat) {
    4 * q * 1_000_000 <= Base(o, attempt) < 4 * (q + 1) * 1_000_000
  }

  /** The jitter is `random` modulo the milliseconds allowed: from none up to a quarter of the base, each reached. */
  lemma DelayJitter(o: Options, attempt: nat, random: nat, q: nat)
    requires Valid(o) && QuarterMillis(o, attempt, q)
    ensures Delay(o, attempt, random) == Min(Base(o, attempt) + random % (q + 1) * 1_000_000, o.maxReconnectDelay)
    ensures random <= q ==> Delay(o, attempt, random) == Min(Base(o, attempt) + random * 1_000_000, o.maxReconnectDelay)
  {
    var base, jitter := Base(o, attempt), random % (q + 1);
    Quarter(base, q);
    hide Base;
    ScaleMonotone(NANOS_PER_MILLI, jitter, q);
    BaseCapped(o, attempt);
    if random <= q {
      Remainder(random, q + 1);
    }
  }

  lemma Quarter(base: nat, q: nat)
    requires 4 * q * 1_000_000 <= base < 4 * (q + 1) * 1_000_000
    ensures base / NANOS_PER_MILLI / 4 == q
  {
  }

  lemma Remainder(n: nat, m: nat)
    requires n < m
    ensures n % m == n
  {
  }

  lemma BaseCapped(o: Options, attempt: nat)
    ensures Base(o, attempt) <= o.maxReconnectDelay
  {
  }

  /** There is exactly one such number. */
  lemma QuarterMillisExists(o: Options, attempt: nat) returns (q: nat)
    ensures QuarterMillis(o, attempt, q)
  {
    q := Base(o, attempt) / NANOS_PER_MILLI / 4;
  }

  /** The delays of an outage's first `k` retries, one random value each. */
  function TotalDelay(o: Options, randoms: seq<nat>): nat {
    if randoms == [] then 0
    else TotalDelay(o, randoms[..|randoms| - 1]) + Delay(o, |randoms|, randoms[|randoms| - 1])
  }

  lemma GeometricStep(d: nat, p: nat)
    requires 1 <= p
    ensures d * (2 * p - 1) == d * (p - 1) + d * p
  {
  }

  /** The delays of one outage add up to at most 5/4 of the geometric sum. */
  lemma {:induction false} TotalDelayBounded(o: Options, randoms: seq<nat>)
    requires Valid(o)
    ensures 1 <= Pow2(|randoms|)
    ensures 4 * TotalDelay(o, randoms) <= 5 * (o.reconnectDelay * (Pow2(|randoms|) - 1))
  {
    if randoms != [] {
      var k := |randoms|;
      TotalDelayBounded(o, randoms[..k - 1]);
      DelayBounded(o, k, randoms[k - 1]);
      MulNeverSaturates(o, k);
      ScaleMonotone(o.reconnectDelay, SaturatingPow2(k - 1), Pow2(k - 1));
      GeometricStep(o.reconnectDelay, Pow2(k - 1));
    }
  }
}
