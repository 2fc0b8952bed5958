/** The retry loop and its int64 backoff (retry/retry.go:188-247, 293-348). */
module Retry {

  import opened Decimal

  const MAX_INT := 0x7fff_ffff_ffff_ffff
  const TWO_63 := 0x8000_0000_0000_0000
  const TWO_62 := 0x4000_0000_0000_0000

  type Int64 = x: int | -TWO_63 <= x <= MAX_INT

  /** Two's complement wrap-around. */
  function Wrap(x: int): (r: Int64)
    ensures -TWO_63 <= x <= MAX_INT ==> r == x
    ensures (r - x) % (2 * TWO_63) == 0
  {
    var m := x % (2 * TWO_63);
    if m > MAX_INT then m - 2 * TWO_63 else m
  }

  /** A float64 product: NaN, or a value that may lie outside int64. */
  datatype Float = NaN | Value(v: real)

  datatype Config = Config(maxAttempts: int, baseDelay: Int64, maxDelay: Int64, jitter: bool)

  // ----- The schedule -----

  function Pow2(n: nat): (r: nat)
    ensures r >= 1
  {
    if n == 0 then 1 else 2 * Pow2(n - 1)
  }

  /** min with MaxDelay, where zero or less means no cap. */
  function Capped(maxDelay: int, d: int): int {
    if maxDelay > 0 && d > maxDelay then maxDelay else d
  }

  /** base doubled n times. */
  function Shifted(base: nat, n: nat): (r: nat)
    ensures r >= base
  {
    if n == 0 then base else 2 * Shifted(base, n - 1)
  }

  lemma {:induction false} ShiftedGrows(base: nat, a: nat, b: nat)
    requires a <= b
    ensures Shifted(base, a) <= Shifted(base, b)
    decreases b - a
  {
    if a < b {
      ShiftedGrows(base, a, b - 1);
    }
  }

  lemma DoubleProduct(b: int, p: int)
    ensures b * (2 * p) == 2 * (b * p)
  {
  }

  lemma {:induction false} ShiftedIsProduct(base: nat, n: nat)
    ensures Shifted(base, n) == base * Pow2(n)
  {
    if n > 0 {
      ShiftedIsProduct(base, n - 1);
      DoubleProduct(base, Pow2(n - 1));
    }
  }

  /** BaseDelay * 2^(attempt-1) under the cap; where that does not fit an int64, the cap or 2^62. */
  predicate IsDoubled(cfg: Config, attempt: int, d: int) {
    var product := cfg.baseDelay * Pow2(if attempt < 1 then 0 else attempt - 1);
    IsCapped(cfg, product, d)
  }

  predicate IsCapped(cfg: Config, product: int, d: int) {
    if product <= MAX_INT then d == Capped(cfg.maxDelay, product)
    else Capped(cfg.maxDelay, TWO_62) <= d && (d == TWO_62 || d == cfg.maxDelay)
  }

  lemma WrapDoubles(d: Int64)
    requires d > 0
    ensures if 2 * d <= MAX_INT then Wrap(d * 2) == 2 * d else Wrap(d * 2) < 0
  {
  }

  /** The doubling loop: exact while the product fits, saturated beyond. */
  method Doubled(cfg: Config, attempt: int) returns (d: Int64)
    requires cfg.baseDelay > 0
    ensures 0 < d && (cfg.maxDelay > 0 ==> d <= cfg.maxDelay)
    ensures IsDoubled(cfg, attempt, d)
  {
    hide Wrap, Pow2;
    d := cfg.baseDelay;
    var n: nat := if attempt < 1 then 0 else attempt - 1;
    ShiftedIsProduct(cfg.baseDelay, n);
    var i: nat := 0;
    while i < n
      invariant 0 <= i <= n && 0 < d && d == Shifted(cfg.baseDelay, i)
      invariant i > 0 && cfg.maxDelay > 0 ==> d < cfg.maxDelay
    {
      ShiftedGrows(cfg.baseDelay, i + 1, n);
      WrapDoubles(d);
      d := Wrap(d * 2);
      if d < 0 {
        d := TWO_62;
        break;
      }
      if cfg.maxDelay > 0 && d >= cfg.maxDelay {
        d := cfg.maxDelay;
        break;
      }
      i := i + 1;
    }
    if cfg.maxDelay > 0 && d > cfg.maxDelay {
      d := cfg.maxDelay;
    }
  }

  /** `backoffDelay`, for any jitter draw: never negative, never above a positive MaxDelay, exact without jitter. */
  method BackoffDelay(cfg: Config, attempt: int, after: Option<Int64>, scaled: Int64 -> Float) returns (d: Int64)
    ensures 0 <= d && (cfg.maxDelay > 0 ==> d <= cfg.maxDelay)
    ensures after.Some? ==> d == Capped(cfg.maxDelay, if after.value < 0 then 0 else after.value)
    ensures after.None? && cfg.baseDelay <= 0 ==> d == 0
    ensures after.None? && cfg.baseDelay > 0 && !cfg.jitter ==> IsDoubled(cfg, attempt, d)
  {
    if after.Some? {
      d := if after.value < 0 then 0 else after.value;
      if cfg.maxDelay > 0 && d > cfg.maxDelay {
        d := cfg.maxDelay;
      }
      return;
    }
    if cfg.baseDelay <= 0 {
      return 0;
    }
    d := Doubled(cfg, attempt);
    if cfg.jitter {
      var product := scaled(d);
      if product.Value? && product.v >= TWO_63 as real {
        d := MAX_INT;
      } else if product.Value? && product.v > 0.0 {
        d := product.v.Floor;
      } else {
        d := 0;
      }
      if cfg.maxDelay > 0 && d > cfg.maxDelay {
        d := cfg.maxDelay;
      }
    }
  }

  // ----- The loop -----

  /** What `Do` makes of a failed attempt, from the classification and two looks at the parent context. */
  datatype Decision = Return | Ended | Again

  function MaxAttempts(cfg: Config): (n: nat)
    ensures n >= 1
  {
    if cfg.maxAttempts < 1 then 1 else cfg.maxAttempts
  }

  function Decide(cfg: Config, attempt: nat, retryable: bool, done: bool): Decision {
    if done then (if retryable then Ended else Return)
    else if !retryable || attempt >= MaxAttempts(cfg) then Return
    else Again
  }

  /** The n-th attempt's error, if it failed; whether it is retryable; when the parent context is done; and which
      sleeps are cut short, by it or by themselves. Moments are counted: an attempt,
        a look at the context and a sleep each take one. */
  datatype Script<!E> = Script(attempt: nat -> Option<E>, retryable: E -> bool, until: nat, sleepFails: nat -> bool)

  /** What `Do` returns: success, an attempt's own error, or the context's error in its place. */
  datatype Outcome<E> = Done | Failed(error: E) | CtxError

  /** `Do`. Only the last attempt can be anything but a retryable failure, and a retryable error is returned only
      while the context is seen alive. */
  method Do<E>(cfg: Config, s: Script<E>) returns (r: Outcome<E>, attempts: nat, ghost seen: nat)
    ensures 1 <= attempts <= MaxAttempts(cfg)
    ensures forall n :: 1 <= n < attempts ==> s.attempt(n).Some? && s.retryable(s.attempt(n).value)
    ensures r.Done? <==> s.attempt(attempts).None?
    ensures r.Failed? ==> s.attempt(attempts) == Some(r.error)
    ensures r.CtxError? ==> s.attempt(attempts).Some? && s.retryable(s.attempt(attempts).value) && seen >= s.until
    ensures r.Failed? && s.retryable(r.error) ==> seen < s.until && (attempts == MaxAttempts(cfg) || s.sleepFails(seen))
  {
    attempts := 0;
    var now := 0;
    while true
      invariant 0 <= attempts < MaxAttempts(cfg)
      invariant forall n :: 1 <= n <= attempts ==> s.attempt(n).Some? && s.retryable(s.attempt(n).value)
      decreases MaxAttempts(cfg) - attempts
    {
      attempts := attempts + 1;
      now := now + 1;
      var err := s.attempt(attempts);
      if err.None? {
        return Done, attempts, now;
      }
      var retryable := s.retryable(err.value);
      now := now + 1;
      match Decide(cfg, attempts, retryable, now >= s.until) {
        case Return => return Failed(err.value), attempts, now;
        case Ended => return CtxError, attempts, now;
        case Again =>
          now := now + 1;
          if s.sleepFails(now) {
            if now >= s.until {
              return CtxError, attempts, now;
            }
            return Failed(err.value), attempts, now;
          }
      }
    }
  }
}
