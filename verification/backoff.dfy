/** Exponential backoff with jitter, over real numbers; the random number drawn is an argument. */
module Backoff {
  datatype Config = Config(enabled: bool, initialDelayMs: real, maxDelayMs: real, maxRetries: int)

  function Pow2(n: nat): real {
    if n == 0 then 1.0 else 2.0 * Pow2(n - 1)
  }

  function Min(a: real, b: real): real {
    if a <= b then a else b
  }

  function Base(attempt: int, cfg: Config): real {
    Min(cfg.maxDelayMs, cfg.initialDelayMs * Pow2(if attempt < 0 then 0 else attempt))
  }

  function RoundDown(ms: real): int {
    if ms.Floor < 0 then 0 else ms.Floor
  }

  /** A base spread by twenty percent to either side. */
  function Jittered(base: real, random: real): int {
    var jitter := base * 0.2;
    RoundDown(base - jitter + random * jitter * 2.0)
  }

  function ComputeBackoffMs(attempt: int, cfg: Config, random: real): int {
    Jittered(Base(attempt, cfg), random)
  }

  ghost predicate NonNegative(cfg: Config) {
    cfg.initialDelayMs >= 0.0 && cfg.maxDelayMs >= 0.0
  }

  /** Randomness as Math.random delivers it: one number in [0, 1) per draw. */
  ghost predicate UnitDraws(random: nat -> real) {
    forall i :: 0.0 <= random(i) < 1.0
  }

  lemma {:induction false} PowersArePositive(n: nat)
    ensures Pow2(n) >= 1.0
  {
    if n > 0 {
      PowersArePositive(n - 1);
    }
  }

  lemma BaseIsNonNegative(attempt: int, cfg: Config)
    requires NonNegative(cfg)
    ensures Base(attempt, cfg) >= 0.0
  {
    var p := Pow2(if attempt < 0 then 0 else attempt);
    PowersArePositive(if attempt < 0 then 0 else attempt);
    assert cfg.initialDelayMs * p >= 0.0;
  }

  /** Each delay lies between floor(0.8 b) and 1.2 b, where b is the capped exponential base. */
  lemma DelayWithinJitter(attempt: int, cfg: Config, random: real)
    requires NonNegative(cfg) && 0.0 <= random < 1.0
    ensures (0.8 * Base(attempt, cfg)).Floor <= ComputeBackoffMs(attempt, cfg, random)
    ensures ComputeBackoffMs(attempt, cfg, random) as real <= 1.2 * Base(attempt, cfg)
  {
    BaseIsNonNegative(attempt, cfg);
    JitterStaysWithin(Base(attempt, cfg), random);
  }

  lemma JitterStaysWithin(b: real, random: real)
    requires b >= 0.0 && 0.0 <= random < 1.0
    ensures (0.8 * b).Floor <= Jittered(b, random) && Jittered(b, random) as real <= 1.2 * b
  {
    var jitter := b * 0.2;
    SwingIsBounded(random, jitter);
    RoundStaysWithin(b, b - jitter + random * jitter * 2.0);
  }

  lemma RoundStaysWithin(b: real, ms: real)
    requires 0.0 <= 0.8 * b <= ms <= 1.2 * b
    ensures (0.8 * b).Floor <= RoundDown(ms) && RoundDown(ms) as real <= 1.2 * b
  {
    FloorMonotone(0.8 * b, ms);
  }

  lemma SwingIsBounded(random: real, jitter: real)
    requires 0.0 <= random < 1.0 && jitter >= 0.0
    ensures 0.0 <= random * jitter * 2.0 <= jitter * 2.0
  {
    assert 0.0 <= random * jitter;
    assert (1.0 - random) * jitter >= 0.0;
  }

  lemma FloorMonotone(x: real, y: real)
    requires x <= y
    ensures x.Floor <= y.Floor
  {
  }

  /** The sum of the first k delays. */
  function TotalDelay(cfg: Config, random: nat -> real, k: nat): int {
    if k == 0 then 0 else TotalDelay(cfg, random, k - 1) + ComputeBackoffMs(k - 1, cfg, random(k - 1))
  }

  /** The sum of the first k bases, the delays without jitter. */
  function TotalBase(cfg: Config, k: nat): real {
    if k == 0 then 0.0 else TotalBase(cfg, k - 1) + Base(k - 1, cfg)
  }

  lemma {:induction false} TotalWithinBases(cfg: Config, random: nat -> real, k: nat)
    requires NonNegative(cfg) && UnitDraws(random)
    ensures TotalDelay(cfg, random, k) as real <= 1.2 * TotalBase(cfg, k)
  {
    if k > 0 {
      TotalWithinBases(cfg, random, k - 1);
      DelayWithinJitter(k - 1, cfg, random(k - 1));
      AddUp(TotalDelay(cfg, random, k - 1), ComputeBackoffMs(k - 1, cfg, random(k - 1)), TotalBase(cfg, k - 1), Base(k - 1, cfg));
    }
  }

  lemma AddUp(d: int, e: int, x: real, y: real)
    requires d as real <= 1.2 * x && e as real <= 1.2 * y
    ensures (d + e) as real <= 1.2 * (x + y)
  {
  }

  /** The sum of the first k bases if each were the cap. */
  function Capped(k: nat, max: real): real {
    k as real * max
  }

  lemma CapStep(k: nat, max: real)
    ensures Capped(0, max) == 0.0
    ensures Capped(k + 1, max) == Capped(k, max) + max
  {
    assert (k + 1) as real == k as real + 1.0;
  }

  /** The sum of the first k uncapped bases. */
  function Geometric(initial: real, k: nat): real {
    initial * (Pow2(k) - 1.0)
  }

  lemma GeometricStarts(initial: real)
    ensures Geometric(initial, 0) == 0.0
  {
  }

  lemma GeometricStep(initial: real, k: nat)
    ensures Geometric(initial, k + 1) == Geometric(initial, k) + initial * Pow2(k)
  {
    Distribute(initial, Pow2(k));
  }

  lemma Distribute(x: real, p: real)
    ensures x * (2.0 * p - 1.0) == x * (p - 1.0) + x * p
  {
  }

  lemma BaseWithin(attempt: nat, cfg: Config)
    ensures Base(attempt, cfg) <= cfg.maxDelayMs && Base(attempt, cfg) <= cfg.initialDelayMs * Pow2(attempt)
  {
  }

  lemma {:induction false} BasesUnderCap(cfg: Config, k: nat)
    ensures TotalBase(cfg, k) <= Capped(k, cfg.maxDelayMs)
  {
    if k == 0 {
      CapStep(0, cfg.maxDelayMs);
    } else {
      BasesUnderCap(cfg, k - 1);
      BaseWithin(k - 1, cfg);
      CapStep(k - 1, cfg.maxDelayMs);
    }
  }

  lemma {:induction false} BasesUnderGeometric(cfg: Config, k: nat)
    ensures TotalBase(cfg, k) <= Geometric(cfg.initialDelayMs, k)
  {
    if k == 0 {
      GeometricStarts(cfg.initialDelayMs);
    } else {
      BasesUnderGeometric(cfg, k - 1);
      BaseWithin(k - 1, cfg);
      GeometricStep(cfg.initialDelayMs, k - 1);
    }
  }

  function DelayBound(cfg: Config, k: nat): real {
    Min(Capped(k, cfg.maxDelayMs), Geometric(cfg.initialDelayMs, k))
  }

  lemma BasesWithinBound(cfg: Config, k: nat)
    ensures TotalBase(cfg, k) <= DelayBound(cfg, k)
  {
    BasesUnderCap(cfg, k);
    BasesUnderGeometric(cfg, k);
  }

  lemma Scale(total: real, x: real, y: real)
    requires total <= 1.2 * x && x <= y
    ensures total <= 1.2 * y
  {
  }

  /** k successive delays total at most 1.2 times the smaller of k times the cap and the geometric sum. */
  lemma TotalDelayBounded(cfg: Config, random: nat -> real, k: nat)
    requires NonNegative(cfg) && UnitDraws(random)
    ensures TotalDelay(cfg, random, k) as real <= 1.2 * DelayBound(cfg, k)
  {
    TotalWithinBases(cfg, random, k);
    BasesWithinBound(cfg, k);
    Scale(TotalDelay(cfg, random, k) as real, TotalBase(cfg, k), DelayBound(cfg, k));
  }

  /** The base begins at the initial delay and doubles with every attempt until it reaches the cap. */
  lemma BaseDoubles(attempt: nat, cfg: Config)
    requires NonNegative(cfg)
    ensures Base(0, cfg) == if cfg.initialDelayMs <= cfg.maxDelayMs then cfg.initialDelayMs else cfg.maxDelayMs
    ensures Base(attempt + 1, cfg) == if 2.0 * Base(attempt, cfg) <= cfg.maxDelayMs then 2.0 * Base(attempt, cfg) else cfg.maxDelayMs
    ensures forall k: int :: k < 0 ==> Base(k, cfg) == Base(0, cfg)
  {
    var x, p := cfg.initialDelayMs, Pow2(attempt);
    PowersArePositive(attempt);
    assert x * (2.0 * p) == 2.0 * (x * p);
    assert x * p >= 0.0;
  }

  /** The delay runs through the whole range as the draw does: 0.8 of the base at zero, the base itself in the
      middle, and never less for a greater draw. */
  lemma JitterSpans(b: real, low: real, high: real)
    requires b >= 0.0 && 0.0 <= low <= high
    ensures Jittered(b, 0.0) == (0.8 * b).Floor && Jittered(b, 0.5) == b.Floor
    ensures Jittered(b, low) <= Jittered(b, high)
  {
    var j := b * 0.2;
    assert (high - low) * j >= 0.0;
    assert high * j == (high - low) * j + low * j;
    FloorMonotone(b - j + low * j * 2.0, b - j + high * j * 2.0);
    FloorMonotone(0.0, 0.8 * b);
  }

  /** A delay is never negative, whatever the configuration: a base at or below zero waits for nothing. */
  lemma NegativeBasesWaitForNothing(b: real, random: real)
    requires b <= 0.0 && 0.0 <= random < 1.0
    ensures Jittered(b, random) == 0
  {
    var j := b * 0.2;
    SwingIsBounded(random, -j);
    assert random * -j == -(random * j);
    assert b - j + random * j * 2.0 <= 0.0;
  }

  lemma RoundsDownByLess(ms: real)
    ensures RoundDown(ms) as real > ms - 1.0
  {
  }

  lemma DelayAtLeast(b: real, random: real)
    requires b >= 0.0 && 0.0 <= random < 1.0
    ensures Jittered(b, random) as real > 0.8 * b - 1.0
  {
    var jitter := b * 0.2;
    SwingIsBounded(random, jitter);
    RoundsDownByLess(b - jitter + random * jitter * 2.0);
  }

  /** The other bound: k successive delays total at least 0.8 times their bases, but for less than a
      millisecond each. */
  lemma {:induction false} TotalDelayAtLeast(cfg: Config, random: nat -> real, k: nat)
    requires NonNegative(cfg) && UnitDraws(random)
    ensures TotalDelay(cfg, random, k) as real >= 0.8 * TotalBase(cfg, k) - k as real
  {
    if k > 0 {
      TotalDelayAtLeast(cfg, random, k - 1);
      BaseIsNonNegative(k - 1, cfg);
      DelayAtLeast(Base(k - 1, cfg), random(k - 1));
    }
  }
}
