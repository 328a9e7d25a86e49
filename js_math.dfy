/** Numeric helpers with the semantics of JavaScript's `Math` functions and
    Phaser's `Math.Clamp`, over Dafny's exact `real` and `int`. */
module JsMath {

  datatype Option<T> = None | Some(value: T)

  /** The value of `Math.PI`, written out to the digits JavaScript prints. */
  const Pi: real := 3.141592653589793

  /** `Math.min` on two numbers. */
  function Min(a: real, b: real): (r: real)
    ensures r <= a && r <= b
    ensures r == a || r == b
  {
    if a <= b then a else b
  }

  /** `Math.max` on two numbers. */
  function Max(a: real, b: real): (r: real)
    ensures r >= a && r >= b
    ensures r == a || r == b
  {
    if a >= b then a else b
  }

  /** `Math.abs`. */
  function Abs(x: real): (r: real)
    ensures r >= 0.0
    ensures r == x || r == -x
  {
    if x < 0.0 then -x else x
  }

  /** `Math.sign`: -1, 0 or 1, agreeing with the sign of `x`. */
  function Sign(x: real): (r: int)
    ensures -1 <= r <= 1
    ensures r == 0 <==> x == 0.0
    ensures r == 1 <==> x > 0.0
    ensures r == -1 <==> x < 0.0
  {
    if x > 0.0 then 1 else if x < 0.0 then -1 else 0
  }

  /** `Phaser.Math.Clamp(v, lo, hi)`, which is `Math.max(lo, Math.min(hi, v))`.
      When the bounds are inverted the lower one wins. */
  function Clamp(v: real, lo: real, hi: real): (r: real)
    ensures r >= lo
    ensures lo <= hi ==> r <= hi
    ensures lo <= v <= hi ==> r == v
    ensures v < lo ==> r == lo
    ensures lo <= hi && hi < v ==> r == hi
  {
    Max(lo, Min(hi, v))
  }

  /** `Math.trunc`: rounds toward zero. */
  function Trunc(x: real): (r: int)
    ensures x >= 0.0 ==> r as real <= x < r as real + 1.0
    ensures x < 0.0 ==> r as real - 1.0 < x <= r as real
  {
    if x >= 0.0 then x.Floor else -((-x).Floor)
  }

  /** JavaScript's `%` on numbers: the remainder of truncated division,
      carrying the sign of the dividend. */
  function JsRem(a: real, b: real): real
    requires b != 0.0
  {
    a - b * Trunc(a / b) as real
  }

  /** One step of first-order smoothing, `cur += (target - cur) * k`, as the
      source writes its gradual transitions. */
  function Approach(cur: real, target: real, k: real): (r: real)
    ensures 0.0 <= k <= 1.0 ==> Min(cur, target) <= r <= Max(cur, target)
    ensures k == 1.0 ==> r == target
    ensures k == 0.0 ==> r == cur
  {
    ApproachBetween(cur, target, k);
    cur + (target - cur) * k
  }

  lemma ApproachBetween(cur: real, target: real, k: real)
    ensures 0.0 <= k <= 1.0 ==>
      Min(cur, target) <= cur + (target - cur) * k <= Max(cur, target)
  {
    if 0.0 <= k <= 1.0 {
      if cur <= target {
        MulMono(k, target - cur, 1.0, target - cur);
      } else {
        MulMono(k, cur - target, 1.0, cur - target);
      }
    }
  }

  /** Multiplying two nonnegative quantities by upper bounds of them. */
  lemma MulMono(a: real, b: real, a': real, b': real)
    requires 0.0 <= a <= a' && 0.0 <= b <= b'
    ensures 0.0 <= a * b <= a' * b'
  {
    assert a * b <= a' * b by {
      assert (a' - a) * b >= 0.0;
    }
    assert a' * b <= a' * b' by {
      assert a' * (b' - b) >= 0.0;
    }
  }

  /** Scaling a nonnegative quantity by a factor within bounds keeps the
      product within the scaled bounds. */
  lemma ScaleBetween(x: real, y: real, lo: real, hi: real)
    requires x >= 0.0 && lo <= y <= hi
    ensures x * lo <= x * y <= x * hi
  {
    assert x * (y - lo) >= 0.0;
    assert x * (hi - y) >= 0.0;
  }

  /** A product of two nonnegative quantities is nonnegative. */
  lemma MulNonneg(a: real, b: real)
    requires a >= 0.0 && b >= 0.0
    ensures a * b >= 0.0
  {
    ScaleBetween(a, b, 0.0, b);
  }

  /** A product of two positive quantities is positive. */
  lemma MulPos(a: real, b: real)
    requires a > 0.0 && b > 0.0
    ensures a * b > 0.0
  {
    assert a * b >= a * 0.0 by {
      ScaleBetween(a, b, 0.0, b);
    }
    assert a * b != 0.0;
  }

  /** The four-factor form of `MulMono`. */
  lemma MulMono4(a: real, b: real, c: real, d: real, a': real, b': real, c': real, d': real)
    requires 0.0 <= a <= a' && 0.0 <= b <= b' && 0.0 <= c <= c' && 0.0 <= d <= d'
    ensures 0.0 <= a * b * c * d <= a' * b' * c' * d'
  {
    MulMono(a, b, a', b');
    var ab, ab' := a * b, a' * b';
    MulMono(ab, c, ab', c');
    var abc, abc' := ab * c, ab' * c';
    MulMono(abc, d, abc', d');
  }
}
