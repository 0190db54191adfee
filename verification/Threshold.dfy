/** The notification level of a usage ratio, in the 64-bit arithmetic the panel computes it in. */
module Threshold {

  const MAX_INT64: int := 0x7FFF_FFFF_FFFF_FFFF
  const TWO_TO_64: int := 0x1_0000_0000_0000_0000

  /** The int64 that a mathematical result wraps around to. */
  function Wrap64(x: int): (r: int)
    ensures -0x8000_0000_0000_0000 <= r < 0x8000_0000_0000_0000 && (r - x) % 0x1_0000_0000_0000_0000 == 0
  {
    var m := x % TWO_TO_64;
    if m <= MAX_INT64 then m else m - TWO_TO_64
  }

  /** Division that truncates toward zero. */
  function Quotient(a: int, b: int): int
    requires b > 0
  {
    if a >= 0 then a / b else -(-a / b)
  }

  function Level(used: int, quota: int): (l: int)
    ensures l in {0, 80, 95, 100}
  {
    if quota <= 0 then (if used > 0 then 100 else 0)
    else
      var pct := Quotient(Wrap64(used * 100), quota);
      if pct >= 100 then 100 else if pct >= 95 then 95 else if pct >= 80 then 80 else 0
  }

  /** Usage counts whose percentage does not overflow. */
  predicate Countable(used: int) { 0 <= used <= MAX_INT64 / 100 }

  lemma QuotientAtLeast(a: int, b: int, t: nat)
    requires b > 0 && a >= 0
    ensures Quotient(a, b) >= t <==> a >= t * b
  {
    assert a == (a / b) * b + a % b;
    if a / b >= t {
      MulMono(t, a / b, b);
    } else {
      MulMono(a / b + 1, t, b);
    }
  }

  lemma NegativeQuotient(a: int, b: int)
    requires b > 0 && a < 0
    ensures Quotient(a, b) <= 0
  {
    assert -a / b >= 0;
  }

  lemma MulMono(x: int, y: int, b: int)
    requires x <= y && b >= 0
    ensures x * b <= y * b
  {
    assert y * b - x * b == (y - x) * b;
  }

  /** Level t is reached exactly when used is at least t percent of the quota; without a quota, by any usage. */
  lemma LevelIsExact(used: int, quota: int, t: int)
    requires Countable(used) && t in {80, 95, 100}
    ensures quota > 0 ==> (Level(used, quota) >= t <==> 100 * used >= t * quota)
    ensures quota <= 0 ==> (Level(used, quota) >= t <==> used > 0)
  {
    if quota <= 0 { return; }
    assert Wrap64(used * 100) == used * 100;
    hide Wrap64, Quotient;
    QuotientAtLeast(used * 100, quota, t);
  }

  /** More usage never lowers the level, and more quota never raises it. */
  lemma LevelIsMonotone(used: int, used': int, quota: int, quota': int)
    requires Countable(used) && Countable(used') && used <= used' && 0 <= quota' <= quota
    ensures Level(used, quota) <= Level(used', quota')
  {
    if quota' > 0 && Level(used, quota) > 0 {
      var t := Level(used, quota);
      LevelIsExact(used, quota, t);
      MulMono(quota', quota, t);
      LevelIsExact(used', quota', t);
    }
  }

  /** More quota never raises the level, whatever the usage and however often its percentage wraps around. */
  lemma LevelIsAntitone(used: int, quota: int, quota': int)
    requires 0 < quota' <= quota
    ensures Level(used, quota) <= Level(used, quota')
  {
    hide Level, Wrap64;
    WrappedLevel(used, quota);
    WrappedLevel(used, quota');
    LevelsClimb(Wrap64(100 * used), quota, quota', Level(used, quota), Level(used, quota'));
  }

  lemma LevelsClimb(v: int, quota: int, quota': int, l: int, l': int)
    requires 0 < quota' <= quota && l in {0, 80, 95, 100} && l' in {0, 80, 95, 100}
    requires forall t | t in {80, 95, 100} :: l >= t <==> v >= t * quota
    requires forall t | t in {80, 95, 100} :: l' >= t <==> v >= t * quota'
    ensures l <= l'
  {
    if l > 0 {
      MulMono(quota', quota, l);
      assert v >= l * quota >= l * quota';
    }
  }

  /** Whether the computed level is the exact one. */
  ghost predicate Right(used: int, quota: int) {
    forall t | t in {80, 95, 100} :: Level(used, quota) >= t <==> 100 * used >= t * quota
  }

  /**
   * For every int64 usage and quota: past the bound the product wraps around, and the level is
   * right exactly when the true ratio is below 80 percent or the wrapped product still exceeds
   * the quota a hundredfold.
   */
  lemma LevelIsRightExactly(used: int, quota: int)
    requires 0 <= used <= MAX_INT64 && 0 < quota <= MAX_INT64
    ensures Right(used, quota) <==> Countable(used) || 100 * used < 80 * quota || Wrap64(100 * used) >= 100 * quota
  {
    if Countable(used) {
      LevelIsExact(used, quota, 80);
      LevelIsExact(used, quota, 95);
      LevelIsExact(used, quota, 100);
    } else {
      WrapGoesDown(100 * used);
      WrappedLevel(used, quota);
      assert 80 in {80, 95, 100} && 95 in {80, 95, 100} && 100 in {80, 95, 100};
      hide Wrap64, Level;
    }
  }

  /** Past MAX_INT64 the wrapped value is at least one whole window below the true one. */
  lemma WrapGoesDown(x: int)
    requires x > MAX_INT64
    ensures Wrap64(x) <= MAX_INT64 && Wrap64(x) <= x - TWO_TO_64
  {}

  lemma WrappedLevel(used: int, quota: int)
    requires 0 < quota
    ensures var v := Wrap64(100 * used);
      forall t | t in {80, 95, 100} :: Level(used, quota) >= t <==> v >= t * quota
  {
    var v := Wrap64(100 * used);
    assert used * 100 == 100 * used;
    hide Wrap64;
    if v >= 0 {
      QuotientAtLeast(v, quota, 80);
      QuotientAtLeast(v, quota, 95);
      QuotientAtLeast(v, quota, 100);
    } else {
      NegativeQuotient(v, quota);
    }
  }
}
