/** JavaScript's `Math` object as the core uses it.

    Every transcendental function is opaque: a `MathOps` value carries one
    real function per operation of `Math`, and the subset type `MathLib`
    admits only those values that satisfy the handful of facts about these
    functions that the proofs of this project rely on. Nothing else is known
    about them, so no property proved here depends on their values. The
    ranges of `asin` and `acos` are stated for every argument, whereas
    JavaScript returns NaN outside [-1, 1]; there is no fact tying `sqrt(x)`
    to `x`, since no function written here could witness one. */
module JsMath {

  datatype MathOps = MathOps(
    pi: real,
    sin: real -> real,
    cos: real -> real,
    tan: real -> real,
    asin: real -> real,
    acos: real -> real,
    atan: real -> real,
    atan2: (real, real) -> real,
    sqrt: real -> real,
    log: real -> real,
    exp: real -> real)
  {
    /** The facts about `Math` the proofs may use. */
    ghost predicate Sound() {
      && pi > 0.0
      && (forall x :: sin(x) * sin(x) + cos(x) * cos(x) == 1.0)
      && (forall x :: -pi / 2.0 <= x <= pi / 2.0 ==> cos(x) >= 0.0)
      && (forall x :: 0.0 < x < pi / 2.0 ==> tan(x) > 0.0)
      && (forall x :: -pi / 2.0 <= asin(x) <= pi / 2.0)
      && (forall x :: 0.0 <= acos(x) <= pi)
      && (forall x :: -pi / 2.0 < atan(x) < pi / 2.0 && (x > 0.0 ==> atan(x) > 0.0))
      && (forall x :: exp(x) > 0.0)
      && (forall x :: x >= 0.0 ==> sqrt(x) >= 0.0)
      && (forall x :: x > 0.0 ==> sqrt(x) > 0.0)
      && sqrt(0.0) == 0.0
    }
  }

  /** A `Math` object about which only `Sound()` is known. */
  type MathLib = m: MathOps | m.Sound()
    witness MathOps(1.0, x => 0.0, x => 1.0, x => 1.0, x => 0.0, x => 0.0,
                    x => if x > 0.0 then 0.25 else 0.0, (y, x) => 0.0, x => x, x => 0.0, x => 1.0)

  /** `Math.abs`, `Math.min` and `Math.max` are exact. */
  function Abs(x: real): real { if x < 0.0 then -x else x }
  function Min(x: real, y: real): real { if x <= y then x else y }
  function Max(x: real, y: real): real { if x >= y then x else y }

  /** An angle within a half turn either way converts to at most 90 degrees either way. */
  lemma DegreesOfQuarterTurn(m: MathLib, t: real)
    requires -m.pi / 2.0 <= t <= m.pi / 2.0
    ensures -90.0 <= t * 180.0 / m.pi <= 90.0
    ensures -m.pi / 2.0 < t < m.pi / 2.0 ==> -90.0 < t * 180.0 / m.pi < 90.0
  {
    var q := t / m.pi;
    assert q * m.pi == t;
    assert t * 180.0 / m.pi == q * 180.0;
    assert (0.5 - q) * m.pi >= 0.0;
    assert (q + 0.5) * m.pi >= 0.0;
    if -m.pi / 2.0 < t < m.pi / 2.0 {
      assert (0.5 - q) * m.pi > 0.0;
      assert (q + 0.5) * m.pi > 0.0;
    }
  }
}
