/** src/infrastructure/reliability/retry_backoff.py: capped exponential delay with full jitter. */
module Backoff {
  import opened Core

  function Pow2(n: nat): (p: nat)
    ensures p > n
  {
    if n == 0 then 1 else 2 * Pow2(n - 1)
  }

  function Min(a: real, b: real): real {
    if a <= b then a else b
  }

  /** base * 2^n, the uncapped delay. */
  function Uncapped(cfg: Config, n: nat): (r: real)
    ensures r >= 0.0
  {
    cfg.baseSeconds * Pow2(n) as real
  }

  /** The upper end of the jitter range after `retryCount` retries. */
  function Delay(cfg: Config, retryCount: nat): (r: real)
    ensures 0.0 <= r <= cfg.maxSeconds
  {
    Min(Uncapped(cfg, retryCount), cfg.maxSeconds)
  }

  /** Every wait `random.uniform(0, delay)` may return. */
  predicate JitterInRange(cfg: Config, retryCount: nat, jitter: real) {
    0.0 <= jitter <= Delay(cfg, retryCount)
  }

  predicate ShouldRetry(cfg: Config, retryCount: nat) {
    retryCount < cfg.maxAttempts
  }

  const TRANSIENT_PREFIXES := ["PROVIDER_TRANSIENT_ERROR", "PROVIDER_RATE_LIMIT", "CIRCUIT_OPEN"]

  predicate IsTransient(code: string) {
    exists i | 0 <= i < |TRANSIENT_PREFIXES| :: TRANSIENT_PREFIXES[i] <= code
  }

  lemma TransientIff(code: string)
    ensures IsTransient(code) <==>
      "PROVIDER_TRANSIENT_ERROR" <= code || "PROVIDER_RATE_LIMIT" <= code || "CIRCUIT_OPEN" <= code
  {
    assert IsTransient(code) <==>
      TRANSIENT_PREFIXES[0] <= code || TRANSIENT_PREFIXES[1] <= code || TRANSIENT_PREFIXES[2] <= code;
  }

  /** `x` doubled n times. */
  function Doubled(x: real, n: nat): real {
    if n == 0 then x else 2.0 * Doubled(x, n - 1)
  }

  lemma {:induction false} UncappedIsDoubled(cfg: Config, n: nat)
    ensures Uncapped(cfg, n) == Doubled(cfg.baseSeconds, n)
  {
    if n > 0 {
      UncappedIsDoubled(cfg, n - 1);
      UncappedDoubles(cfg, n - 1);
    }
  }

  /**
   * What the delay is, three ways: the base doubled once per retry and capped, and the same step by step,
   * which fixes the whole sequence from its first element.
   */
  lemma DelayExactly(cfg: Config, n: nat)
    ensures Delay(cfg, n) == Min(Doubled(cfg.baseSeconds, n), cfg.maxSeconds)
    ensures Delay(cfg, 0) == if cfg.baseSeconds <= cfg.maxSeconds then cfg.baseSeconds else cfg.maxSeconds
    ensures Delay(cfg, n + 1) == if 2.0 * Delay(cfg, n) <= cfg.maxSeconds then 2.0 * Delay(cfg, n) else cfg.maxSeconds
  {
    UncappedIsDoubled(cfg, n);
    UncappedIsDoubled(cfg, 0);
    UncappedDoubles(cfg, n);
  }

  /** At the default settings: 10 seconds at first, 640 after six doublings, and then the cap of 15 minutes. */
  lemma DefaultDelays(n: nat)
    ensures Delay(DEFAULTS, 0) == 10.0 && Delay(DEFAULTS, 6) == 640.0
    ensures n >= 7 ==> Delay(DEFAULTS, n) == 900.0
  {
    var x: real := DEFAULTS.baseSeconds;
    assert Doubled(x, 3) == 80.0;
    assert Doubled(x, 6) == 640.0 && Doubled(x, 7) == 1280.0;
    DelayExactly(DEFAULTS, 0);
    DelayExactly(DEFAULTS, 6);
    DelayExactly(DEFAULTS, 7);
    if n >= 7 {
      DelayGrows(DEFAULTS, 7, n);
    }
  }

  lemma {:induction false} DelayGrows(cfg: Config, n: nat, m: nat)
    requires n <= m
    ensures Delay(cfg, n) <= Delay(cfg, m)
    decreases m
  {
    if n < m {
      DelayGrows(cfg, n, m - 1);
      DelayAtMostDoubles(cfg, m - 1);
    }
  }

  lemma UncappedDoubles(cfg: Config, n: nat)
    ensures Uncapped(cfg, n + 1) == 2.0 * Uncapped(cfg, n)
  {
    assert Pow2(n + 1) as real == 2.0 * Pow2(n) as real;
  }

  /** One more retry never shortens the cap and never more than doubles it. */
  lemma DelayAtMostDoubles(cfg: Config, n: nat)
    ensures Delay(cfg, n) <= Delay(cfg, n + 1) <= 2.0 * Delay(cfg, n)
  {
    UncappedDoubles(cfg, n);
  }

  /** From some retry on, the cap no longer moves. */
  lemma DelayEventuallyConstant(cfg: Config) returns (settled: nat)
    ensures forall n: nat :: n >= settled ==> Delay(cfg, n) == Delay(cfg, settled)
    ensures cfg.baseSeconds > 0.0 ==> Delay(cfg, settled) == cfg.maxSeconds
  {
    if cfg.baseSeconds == 0.0 {
      settled := 0;
    } else {
      settled := CapReached(cfg);
      forall n: nat | n >= settled ensures Delay(cfg, n) == Delay(cfg, settled) {
        DelayGrows(cfg, settled, n);
      }
    }
  }

  lemma CapReached(cfg: Config) returns (settled: nat)
    requires cfg.baseSeconds > 0.0
    ensures Uncapped(cfg, settled) >= cfg.maxSeconds
  {
    var ratio := cfg.maxSeconds / cfg.baseSeconds;
    settled := ratio.Floor + 1;
    assert cfg.baseSeconds * ratio == cfg.maxSeconds;
    ScaleUp(cfg.baseSeconds, ratio, Pow2(settled) as real);
  }

  lemma ScaleUp(k: real, x: real, y: real)
    requires k >= 0.0 && x <= y
    ensures k * x <= k * y
  {
  }

  /** The caps of the first `n` retries together. */
  function TotalDelay(cfg: Config, n: nat): real {
    if n == 0 then 0.0 else TotalDelay(cfg, n - 1) + Delay(cfg, n - 1)
  }

  lemma {:induction false} GeometricBound(cfg: Config, n: nat)
    ensures TotalDelay(cfg, n) + cfg.baseSeconds <= Uncapped(cfg, n)
  {
    if n > 0 {
      GeometricBound(cfg, n - 1);
      UncappedDoubles(cfg, n - 1);
    }
  }

  function Times(x: real, n: nat): real {
    x * n as real
  }

  lemma OneMore(x: real, n: nat)
    requires n > 0
    ensures Times(x, n) == Times(x, n - 1) + x
  {
    assert n as real == (n - 1) as real + 1.0;
  }

  lemma {:induction false} FlatBound(cfg: Config, n: nat)
    ensures TotalDelay(cfg, n) <= Times(cfg.maxSeconds, n)
  {
    if n > 0 {
      FlatBound(cfg, n - 1);
      OneMore(cfg.maxSeconds, n);
    }
  }

  /** Two closed bounds together: base * 2^n - base, and n times the cap. */
  function WaitCeiling(cfg: Config, n: nat): real {
    Min(Uncapped(cfg, n) - cfg.baseSeconds, Times(cfg.maxSeconds, n))
  }

  /** The ceiling in terms of the settings: the base doubled n times less the base, and the cap added n times. */
  lemma WaitCeilingIs(cfg: Config, n: nat)
    ensures WaitCeiling(cfg, n) == Min(Doubled(cfg.baseSeconds, n) - cfg.baseSeconds, Times(cfg.maxSeconds, n))
    ensures Times(cfg.maxSeconds, 0) == 0.0
    ensures Times(cfg.maxSeconds, n + 1) == Times(cfg.maxSeconds, n) + cfg.maxSeconds
  {
    UncappedIsDoubled(cfg, n);
    OneMore(cfg.maxSeconds, n + 1);
  }

  lemma TotalDelayBound(cfg: Config, n: nat)
    ensures TotalDelay(cfg, n) <= WaitCeiling(cfg, n)
  {
    GeometricBound(cfg, n);
    FlatBound(cfg, n);
  }
}
