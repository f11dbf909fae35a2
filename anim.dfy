/**
 * The easing catalog and the spring evaluator of src/lib/anim.ts.
 *
 * JavaScript numbers are modelled by exact reals. The three closed-form
 * damped-oscillator formulas use exp, sqrt, sin and cos over doubles; they
 * are not modelled, and the evaluator receives them as one function
 * parameter of the clamped time.
 */
module Anim {

  // ---------------------------------------------------------------------
  // Powers (Math.pow with a natural exponent)
  // ---------------------------------------------------------------------

  function Pow(x: real, n: nat): real
  {
    if n == 0 then 1.0 else x * Pow(x, n - 1)
  }

  lemma {:induction false} PowNonnegative(x: real, n: nat)
    requires 0.0 <= x
    ensures 0.0 <= Pow(x, n)
  {
    if n > 0 {
      PowNonnegative(x, n - 1);
    }
  }

  /** Raising to a natural power is monotone on the non-negative reals. */
  lemma {:induction false} PowMonotone(x: real, y: real, n: nat)
    requires 0.0 <= x <= y
    ensures Pow(x, n) <= Pow(y, n)
  {
    if n > 0 {
      PowMonotone(x, y, n - 1);
      PowNonnegative(x, n - 1);
      calc {
        Pow(x, n);
      ==
        x * Pow(x, n - 1);
      <= { MulLeftMonotone(x, y, Pow(x, n - 1)); }
        y * Pow(x, n - 1);
      <= { MulLeftMonotone(Pow(x, n - 1), Pow(y, n - 1), y); }
        y * Pow(y, n - 1);
      }
    }
  }

  lemma MulLeftMonotone(a: real, b: real, c: real)
    requires a <= b && 0.0 <= c
    ensures a * c <= b * c
  {
  }

  /** Powers of a number in [0, 1] stay in [0, 1]. */
  lemma {:induction false} PowUnitInterval(x: real, n: nat)
    requires 0.0 <= x <= 1.0
    ensures 0.0 <= Pow(x, n) <= 1.0
  {
    if n > 0 {
      PowUnitInterval(x, n - 1);
      PowNonnegative(x, n);
      MulLeftMonotone(x, 1.0, Pow(x, n - 1));
      assert Pow(x, n) <= Pow(x, n - 1);
    }
  }

  // ---------------------------------------------------------------------
  // Curve easings
  // ---------------------------------------------------------------------

  function EaseInOutCubic(t: real): real
  {
    if t < 0.5 then 4.0 * t * t * t else 1.0 - Pow(-2.0 * t + 2.0, 3) / 2.0
  }

  function EaseInOutQuint(t: real): real
  {
    if t < 0.5 then 16.0 * t * t * t * t * t
    else var f := 2.0 * t - 2.0; 0.5 * f * f * f * f * f + 1.0
  }

  function EaseOutQuint(t: real): real
  {
    1.0 - Pow(1.0 - t, 5)
  }

  /** easeInOutCubic starts at 0, ends at 1 and passes through 0.5 at t = 0.5. */
  lemma EaseInOutCubicLandmarks()
    ensures EaseInOutCubic(0.0) == 0.0 && EaseInOutCubic(1.0) == 1.0
    ensures EaseInOutCubic(0.5) == 0.5
  {
  }

  /**
   * easeInOutCubic is point-symmetric about (0.5, 0.5): each piece is the
   * mirror image of the other, so the value at t = 0.5 is 0.5.
   */
  lemma EaseInOutCubicSymmetric(t: real)
    ensures EaseInOutCubic(1.0 - t) == 1.0 - EaseInOutCubic(t)
  {
    var u := 1.0 - t;
    assert forall x :: Pow(x, 3) == x * x * x by {
      forall x ensures Pow(x, 3) == x * x * x {
        assert Pow(x, 1) == x;
      }
    }
    if t < 0.5 {
      assert -2.0 * u + 2.0 == 2.0 * t;
      assert (2.0 * t) * (2.0 * t) * (2.0 * t) == 8.0 * (t * t * t);
    } else if t > 0.5 {
      var g := -2.0 * t + 2.0;
      assert g == 2.0 * u;
      assert Pow(g, 3) == g * g * g;
      assert g * g * g == (2.0 * u) * (2.0 * u) * (2.0 * u) == 8.0 * (u * u * u);
    }
  }

  /** easeInOutQuint maps 0 to 0, 1 to 1 and 0.5 to 0.5. */
  lemma EaseInOutQuintLandmarks()
    ensures EaseInOutQuint(0.0) == 0.0 && EaseInOutQuint(1.0) == 1.0
    ensures EaseInOutQuint(0.5) == 0.5
  {
  }

  /** The second piece of easeInOutQuint, 0.5*(2t-2)^5 + 1, is the mirror image 1 - (2-2t)^5/2 of the first. */
  lemma EaseInOutQuintMirror(t: real)
    requires t >= 0.5
    ensures EaseInOutQuint(t) == 1.0 - Pow(2.0 - 2.0 * t, 5) / 2.0
  {
    var g := 2.0 - 2.0 * t;
    assert Pow(g, 1) == g;
    assert Pow(g, 3) == g * g * g;
    assert Pow(g, 5) == g * g * g * g * g;
    assert (-g) * (-g) * (-g) * (-g) * (-g) == -(g * g * g * g * g);
  }

  /** easeOutQuint starts at 0 and ends at 1. */
  lemma EaseOutQuintEndpoints()
    ensures EaseOutQuint(0.0) == 0.0 && EaseOutQuint(1.0) == 1.0
  {
  }

  /** easeOutQuint is non-decreasing on [0, 1] and stays within [0, 1] there. */
  lemma EaseOutQuintMonotone(s: real, t: real)
    requires 0.0 <= s <= t <= 1.0
    ensures EaseOutQuint(s) <= EaseOutQuint(t)
    ensures 0.0 <= EaseOutQuint(s) <= 1.0
  {
    PowMonotone(1.0 - t, 1.0 - s, 5);
    PowUnitInterval(1.0 - s, 5);
  }

  // ---------------------------------------------------------------------
  // Preset tables
  // ---------------------------------------------------------------------

  datatype EasingPreset = EasingPreset(name: string, easing: real -> real)

  /** EASING_PRESETS: display name and curve per key. */
  const EasingPresets: map<string, EasingPreset> := map[
    "smooth" := EasingPreset("Smooth", EaseOutQuint),
    "balanced" := EasingPreset("Balanced", EaseInOutQuint),
    "dynamic" := EasingPreset("Dynamic", EaseInOutCubic)
  ]

  /** Every curve preset starts at 0 and lands on 1. */
  lemma EasingPresetsEndpoints(k: string)
    requires k in EasingPresets
    ensures EasingPresets[k].easing(0.0) == 0.0 && EasingPresets[k].easing(1.0) == 1.0
  {
  }

  datatype SpringPreset = SpringPreset(name: string, mass: real, tension: real, friction: real)

  /** SPRING_PHYSICS_PRESETS: the presets the animation panel offers. */
  const SpringPhysicsPresets: map<string, SpringPreset> := map[
    "default" := SpringPreset("Default", 1.0, 170.0, 26.0),
    "gentle" := SpringPreset("Gentle", 1.0, 120.0, 14.0),
    "wobbly" := SpringPreset("Wobbly", 1.0, 180.0, 12.0),
    "stiff" := SpringPreset("Stiff", 1.0, 210.0, 20.0),
    "slow" := SpringPreset("Slow", 1.0, 280.0, 60.0)
  ]

  // ---------------------------------------------------------------------
  // Spring evaluator
  // ---------------------------------------------------------------------

  /** The spring parameters simulateSpring reads (ZoomAnimationSettings). */
  datatype SpringConfig = SpringConfig(mass: real, tension: real, friction: real, transitionDuration: real)

  datatype Regime = Underdamped | Critical | Overdamped

  /**
   * The branch simulateSpring takes, decided by the damping ratio
   * zeta = friction / (2 * sqrt(tension * mass)). Over exact reals with
   * tension * mass > 0 and friction >= 0, zeta < 1, = 1, > 1 are
   * friction^2 <, =, > 4 * tension * mass (see RegimeMatchesDampingRatio).
   * A negative product makes the square root NaN, and so zeta; NaN fails
   * the first two tests and falls to the last branch. A zero product is a
   * signed zero in IEEE arithmetic: -0 exactly when one factor is negative,
   * since the other is then the zero. Its square root keeps the sign, so a
   * non-zero friction makes zeta an infinity whose sign is the sign of
   * friction times the sign of the zero: -Infinity takes the first branch,
   * +Infinity the last. Zero friction over a zero product is NaN.
   */
  function RegimeOf(c: SpringConfig): Regime
  {
    var tm := c.tension * c.mass;
    if tm > 0.0 then
      if c.friction < 0.0 || c.friction * c.friction < 4.0 * tm then Underdamped
      else if c.friction * c.friction == 4.0 * tm then Critical
      else Overdamped
    else if tm == 0.0 then
      var positiveZero := c.tension >= 0.0 && c.mass >= 0.0;
      if c.friction != 0.0 && (c.friction < 0.0) == positiveZero then Underdamped else Overdamped
    else Overdamped
  }

  /** Over a zero product, the sign of the zero decides whether zeta is -Infinity or +Infinity. */
  lemma RegimeOverZeroProduct()
    ensures RegimeOf(SpringConfig(0.0, -170.0, 26.0, 1.0)) == Underdamped
    ensures RegimeOf(SpringConfig(0.0, -170.0, -1.0, 1.0)) == Overdamped
    ensures RegimeOf(SpringConfig(0.0, 170.0, -1.0, 1.0)) == Underdamped
    ensures RegimeOf(SpringConfig(0.0, 170.0, 26.0, 1.0)) == Overdamped
    ensures RegimeOf(SpringConfig(0.0, 170.0, 0.0, 1.0)) == Overdamped
  {
  }

  /** The branch chosen agrees with comparing the damping ratio against 1. */
  lemma RegimeMatchesDampingRatio(c: SpringConfig, root: real, zeta: real)
    requires c.mass > 0.0 && c.tension > 0.0
    requires root > 0.0 && root * root == c.tension * c.mass
    requires zeta == c.friction / (2.0 * root)
    ensures RegimeOf(c) == Underdamped <==> zeta < 1.0
    ensures RegimeOf(c) == Critical <==> zeta == 1.0
    ensures RegimeOf(c) == Overdamped <==> zeta > 1.0
  {
    var f := c.friction;
    var tm := c.tension * c.mass;
    assert tm > 0.0 by { MulPositive(c.tension, c.mass); }
    assert f == zeta * (2.0 * root);
    assert 4.0 * tm == (2.0 * root) * (2.0 * root);
    if f < 0.0 {
      assert zeta < 1.0 by { SignOfQuotient(f, 2.0 * root); }
    } else {
      SquareCompare(f, 2.0 * root);
      QuotientCompare(f, 2.0 * root);
    }
  }

  lemma MulPositive(a: real, b: real)
    requires a > 0.0 && b > 0.0
    ensures a * b > 0.0
  {
  }

  lemma SignOfQuotient(a: real, b: real)
    requires a < 0.0 && b > 0.0
    ensures a / b < 0.0
  {
  }

  /** For non-negative a and positive b, a/b compares with 1 as a compares with b. */
  lemma QuotientCompare(a: real, b: real)
    requires a >= 0.0 && b > 0.0
    ensures (a / b < 1.0 <==> a < b) && (a / b == 1.0 <==> a == b) && (a / b > 1.0 <==> a > b)
  {
  }

  lemma MulStrictBoth(a: real, b: real, c: real, d: real)
    requires 0.0 <= a < b && 0.0 <= c < d
    ensures a * c < b * d
  {
  }

  /** For non-negative a and b, a*a compares with b*b as a compares with b. */
  lemma SquareCompare(a: real, b: real)
    requires a >= 0.0 && b >= 0.0
    ensures (a * a < b * b <==> a < b) && (a * a == b * b <==> a == b)
  {
    if a < b {
      MulStrictBoth(a, b, a, b);
    } else if b < a {
      MulStrictBoth(b, a, b, a);
    }
  }

  /** The closed-form position of regime r at clamped time t for config c, from and to. */
  type RegimeFormula = (Regime, SpringConfig, real, real, real) -> real

  /** Math.max(0, Math.min(1, t)). */
  function Clamp01(t: real): (r: real)
    ensures 0.0 <= r <= 1.0
    ensures 0.0 <= t <= 1.0 ==> r == t
    ensures t < 0.0 ==> r == 0.0
    ensures t > 1.0 ==> r == 1.0
  {
    var upper := if 1.0 < t then 1.0 else t;
    if 0.0 > upper then 0.0 else upper
  }

  /**
   * simulateSpring: clamp t to [0, 1], return `to` exactly at the end, and
   * otherwise evaluate the closed form of the config's damping regime at the
   * clamped time.
   */
  function SimulateSpring(t: real, from: real, to: real, c: SpringConfig, formula: RegimeFormula): (x: real)
    ensures t >= 1.0 ==> x == to
    ensures t < 1.0 ==> x == formula(RegimeOf(c), c, Clamp01(t), from, to)
  {
    var clamped := Clamp01(t);
    if clamped == 1.0 then to else formula(RegimeOf(c), c, clamped, from, to)
  }

  /** Only the clamped time matters: every t below 0 behaves like 0. */
  lemma SpringSeesClampedTime(t: real, from: real, to: real, c: SpringConfig, formula: RegimeFormula)
    ensures SimulateSpring(t, from, to, c, formula) == SimulateSpring(Clamp01(t), from, to, c, formula)
    ensures t < 0.0 ==> SimulateSpring(t, from, to, c, formula) == SimulateSpring(0.0, from, to, c, formula)
  {
  }

  /** createSpringEasing: the spring bound to fixed from, to and config. */
  function CreateSpringEasing(from: real, to: real, c: SpringConfig, formula: RegimeFormula): (easing: real -> real)
    ensures forall t :: easing(t) == SimulateSpring(t, from, to, c, formula)
  {
    t => SimulateSpring(t, from, to, c, formula)
  }
}
