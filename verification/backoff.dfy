/** app/retry/engine.py: the retry delay. The jitter is drawn anywhere in the interval
    random.uniform draws from. */
module Backoff {
  import opened Wrappers
  import opened Rounding

  datatype RetryConfig = RetryConfig(maxAttempts: int, baseDelay: int, maxDelay: int, jitter: real)

  const DEFAULT_RETRY_CONFIG := RetryConfig(5, 5, 3600, 0.2)

  function Power2(n: nat): (p: int)
    ensures p >= 1
  {
    if n == 0 then 1 else 2 * Power2(n - 1)
  }

  function FirstAttempt(attempt: int): int {
    if attempt <= 0 then 1 else attempt
  }

  /** base_delay * 2^(attempt-1), capped. */
  function PlainDelay(cfg: RetryConfig, attempt: int): int {
    var d := cfg.baseDelay * Power2(FirstAttempt(attempt) - 1);
    if d <= cfg.maxDelay then d else cfg.maxDelay
  }

  /** jitter_delta. */
  function Swing(d: real, jitter: real): real {
    d * jitter
  }

  function Jittered(d: real, jitter: real, u: real): real {
    if jitter > 0.0 then d + u * Swing(d, jitter) else d
  }

  function Shortest(d: real, jitter: real): real {
    d - Swing(d, jitter)
  }

  function Longest(d: real, jitter: real): real {
    d + Swing(d, jitter)
  }

  function Draw(cfg: RetryConfig, attempt: int, u: real): int {
    var r := Round(Jittered(PlainDelay(cfg, attempt) as real, cfg.jitter, u));
    if r < 1 then 1 else r
  }

  /** The delays get_backoff_delay_seconds can return; u in [-1, 1] is the draw. */
  ghost predicate IsDelay(cfg: RetryConfig, attempt: int, delay: Option<int>) {
    if FirstAttempt(attempt) > cfg.maxAttempts then delay == None
    else exists u: real :: -1.0 <= u <= 1.0 && delay == Some(Draw(cfg, attempt, u))
  }

  predicate Sensible(cfg: RetryConfig) {
    cfg.baseDelay >= 1 && cfg.maxDelay >= 1
  }

  lemma PlainDelayIsPositive(cfg: RetryConfig, attempt: int)
    requires Sensible(cfg)
    ensures 1 <= PlainDelay(cfg, attempt) <= cfg.maxDelay
  {
  }

  lemma Grow(b: int, p: int)
    requires b >= 1 && p >= 1
    ensures b * p >= 1
  {
  }

  lemma DrawBounds(d: real, j: real, u: real)
    requires d >= 0.0 && -1.0 <= u <= 1.0
    ensures j <= 0.0 ==> Jittered(d, j, u) == d
    ensures j > 0.0 ==> Shortest(d, j) <= Jittered(d, j, u) <= Longest(d, j)
  {
    hide Swing;
    if j > 0.0 {
      NotNegative(d, j);
      Between(Swing(d, j), u);
    }
  }

  lemma NotNegative(a: real, b: real)
    requires a >= 0.0 && b >= 0.0
    ensures Swing(a, b) >= 0.0
  {
  }

  lemma Between(m: real, u: real)
    requires m >= 0.0 && -1.0 <= u <= 1.0
    ensures -m <= u * m <= m
  {
  }

  /** Every delay is at least a second and within the jitter of the capped exponential;
      without jitter it is that exponential. */
  lemma DelayIsNearPlain(cfg: RetryConfig, attempt: int, delay: int)
    requires Sensible(cfg) && IsDelay(cfg, attempt, Some(delay))
    ensures 1 <= delay
    ensures cfg.jitter <= 0.0 ==> delay == PlainDelay(cfg, attempt)
    ensures cfg.jitter > 0.0 ==>
              var d := PlainDelay(cfg, attempt) as real;
              Round(Shortest(d, cfg.jitter)) <= delay && (delay <= Round(Longest(d, cfg.jitter)) || delay == 1)
  {
    PlainDelayIsPositive(cfg, attempt);
    hide Round, PlainDelay, Jittered, Shortest, Longest;
    var u :| -1.0 <= u <= 1.0 && Some(delay) == Some(Draw(cfg, attempt, u));
    var d := PlainDelay(cfg, attempt) as real;
    RoundOfWhole(PlainDelay(cfg, attempt));
    DrawBounds(d, cfg.jitter, u);
    if cfg.jitter > 0.0 {
      RoundIsMonotone(Shortest(d, cfg.jitter), Jittered(d, cfg.jitter, u));
      RoundIsMonotone(Jittered(d, cfg.jitter, u), Longest(d, cfg.jitter));
    }
  }

  // ---------- does waiting grow? ----------

  /** The next attempt may wait less than this one did. */
  ghost predicate MayShrink(cfg: RetryConfig, attempt: int) {
    exists delay, later :: IsDelay(cfg, attempt, Some(delay)) && IsDelay(cfg, attempt + 1, Some(later)) && later < delay
  }

  lemma DrawIsMonotone(cfg: RetryConfig, attempt: int, u: real)
    requires Sensible(cfg) && -1.0 <= u <= 1.0
    ensures Draw(cfg, attempt, -1.0) <= Draw(cfg, attempt, u) <= Draw(cfg, attempt, 1.0)
  {
    PlainDelayIsPositive(cfg, attempt);
    hide Round, PlainDelay;
    var d := PlainDelay(cfg, attempt) as real;
    DrawBounds(d, cfg.jitter, u);
    RoundIsMonotone(Jittered(d, cfg.jitter, -1.0), Jittered(d, cfg.jitter, u));
    RoundIsMonotone(Jittered(d, cfg.jitter, u), Jittered(d, cfg.jitter, 1.0));
  }

  /** It may exactly when its shortest draw is below this one's longest, whatever the
      jitter, on either side of the cap. */
  lemma MayShrinkIff(cfg: RetryConfig, attempt: int)
    requires Sensible(cfg) && 1 <= attempt < cfg.maxAttempts
    ensures MayShrink(cfg, attempt) <==> Draw(cfg, attempt + 1, -1.0) < Draw(cfg, attempt, 1.0)
  {
    hide Draw;
    if MayShrink(cfg, attempt) {
      var delay, later :| IsDelay(cfg, attempt, Some(delay)) && IsDelay(cfg, attempt + 1, Some(later)) && later < delay;
      var u: real :| -1.0 <= u <= 1.0 && Some(delay) == Some(Draw(cfg, attempt, u));
      var v: real :| -1.0 <= v <= 1.0 && Some(later) == Some(Draw(cfg, attempt + 1, v));
      DrawIsMonotone(cfg, attempt, u);
      DrawIsMonotone(cfg, attempt + 1, v);
    }
    if Draw(cfg, attempt + 1, -1.0) < Draw(cfg, attempt, 1.0) {
      assert IsDelay(cfg, attempt, Some(Draw(cfg, attempt, 1.0)));
      assert IsDelay(cfg, attempt + 1, Some(Draw(cfg, attempt + 1, -1.0)));
    }
  }

  /** So with jitter at most a third, a later attempt never waits less than an earlier one
      did, as long as the cap does not cut in. */
  lemma BackoffGrows(cfg: RetryConfig, attempt: int)
    requires Sensible(cfg) && 1 <= attempt < cfg.maxAttempts && cfg.jitter * 3.0 <= 1.0
    requires cfg.baseDelay * Power2(attempt) <= cfg.maxDelay
    ensures !MayShrink(cfg, attempt)
  {
    MayShrinkIff(cfg, attempt);
    Doubles(cfg, attempt);
    PlainDelayIsPositive(cfg, attempt);
    hide Round, PlainDelay, MayShrink;
    var d := PlainDelay(cfg, attempt) as real;
    if cfg.jitter > 0.0 {
      Third(d, cfg.jitter);
      RoundIsMonotone(Longest(d, cfg.jitter), Shortest(2.0 * d, cfg.jitter));
    } else {
      RoundIsMonotone(d, 2.0 * d);
    }
  }

  /** And at the cap it may as soon as the jitter is worth more than half a second, or
      half a second on an odd cap. */
  lemma CapMayShrinkIff(cfg: RetryConfig, attempt: int)
    requires Sensible(cfg) && 1 <= attempt < cfg.maxAttempts && PlainDelay(cfg, attempt) == cfg.maxDelay
    ensures var swing := Swing(cfg.maxDelay as real, cfg.jitter);
            MayShrink(cfg, attempt) <==> swing > 0.5 || (swing == 0.5 && cfg.maxDelay % 2 == 1)
  {
    MayShrinkIff(cfg, attempt);
    CapStays(cfg, attempt);
    var d, j := cfg.maxDelay, cfg.jitter;
    SignOfSwing(d as real, j);
    var up, down := Jittered(d as real, j, 1.0), Jittered(d as real, j, -1.0);
    hide PlainDelay, MayShrink, Swing;
    assert j > 0.0 ==> up == d as real + Swing(d as real, j) && down == d as real - Swing(d as real, j);
    RoundBothWays(d, Swing(d as real, j));
    RoundOfWhole(d);
    hide Round, Jittered;
  }

  lemma CapStays(cfg: RetryConfig, attempt: int)
    requires Sensible(cfg) && attempt >= 1 && PlainDelay(cfg, attempt) == cfg.maxDelay
    ensures PlainDelay(cfg, attempt + 1) == cfg.maxDelay
  {
    assert Power2(attempt) == 2 * Power2(attempt - 1);
    Twice(cfg.baseDelay, Power2(attempt - 1));
  }

  lemma Twice(b: int, p: int)
    requires b >= 1 && p >= 1
    ensures b * (2 * p) == 2 * (b * p) && b * p >= 1
  {
  }

  lemma SignOfSwing(d: real, j: real)
    requires d > 0.0
    ensures Swing(d, j) > 0.0 <==> j > 0.0
  {
  }

  lemma RoundBothWays(d: int, x: real)
    requires d >= 1
    ensures x > 0.0 ==>
              (Round(d as real - x) < Round(d as real + x) <==> x > 0.5 || (x == 0.5 && d % 2 == 1))
              && (1 < Round(d as real + x) <==> d > 1 || x >= 0.5)
              && Round(d as real + x) >= d
  {
    RoundOfWhole(d);
    if x > 0.0 {
      RoundIsMonotone(d as real, d as real + x);
    }
  }

  lemma Doubles(cfg: RetryConfig, attempt: int)
    requires Sensible(cfg) && attempt >= 1 && cfg.baseDelay * Power2(attempt) <= cfg.maxDelay
    ensures PlainDelay(cfg, attempt + 1) == 2 * PlainDelay(cfg, attempt)
  {
  }

  lemma Third(d: real, j: real)
    requires d >= 0.0 && 3.0 * j <= 1.0
    ensures Longest(d, j) <= Shortest(2.0 * d, j)
  {
  }

  /** As installed: the first retry comes after four to six seconds, none waits less than
      the one before, and after the fifth attempt there is none. */
  lemma DefaultBackoff(attempt: int, delay: int)
    requires 1 <= attempt <= 4 && IsDelay(DEFAULT_RETRY_CONFIG, attempt, Some(delay))
    ensures !MayShrink(DEFAULT_RETRY_CONFIG, attempt) && (attempt == 1 ==> 4 <= delay <= 6)
    ensures forall d :: IsDelay(DEFAULT_RETRY_CONFIG, 6, d) ==> d == None
  {
    assert Power2(0) == 1 && Power2(1) == 2 && Power2(2) == 4 && Power2(3) == 8 && Power2(4) == 16;
    BackoffGrows(DEFAULT_RETRY_CONFIG, attempt);
    DelayIsNearPlain(DEFAULT_RETRY_CONFIG, attempt, delay);
    RoundOfWhole(4);
    RoundOfWhole(6);
  }

  /** With jitter a half it may: six seconds at the first attempt, four at the second. */
  lemma MoreJitterCanShrink()
    ensures MayShrink(RetryConfig(5, 4, 3600, 0.5), 1)
  {
    var cfg := RetryConfig(5, 4, 3600, 0.5);
    assert Power2(0) == 1 && Power2(1) == 2;
    RoundOfWhole(6);
    RoundOfWhole(4);
    assert Draw(cfg, 1, 1.0) == 6 && Draw(cfg, 2, -1.0) == 4;
    MayShrinkIff(cfg, 1);
  }
}
