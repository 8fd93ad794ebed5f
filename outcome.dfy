/**
 * The arithmetic of one spin: which segment wins, how long the wheel turns,
 * how many whole turns it makes, where it stops, and the quintic ease-out
 * that drives the rotation between start and stop.
 */
module Outcome {
  import opened Types

  /** Euclidean division is determined by any quotient/remainder pair. */
  lemma DivModUnique(x: int, d: int, q: int, r: int)
    requires d > 0 && x == q * d + r && 0 <= r < d
    ensures x / d == q && x % d == r
  {
    var q', r' := x / d, x % d;
    assert x == q' * d + r' && 0 <= r' < d;
    var k := q - q';
    assert k * d == q * d - q' * d;
    assert k * d == r' - r;
  }

  /** Catalog sizes for which a segment angle 360/n and its half are whole degrees. */
  predicate WholeHalfSegments(n: int)
  {
    n >= 1 && 360 % (2 * n) == 0
  }

  /** The angle one segment spans, in degrees. */
  function SegmentAngle(n: int): (seg: int)
    requires WholeHalfSegments(n)
    ensures seg * n == 360 && seg % 2 == 0 && seg >= 2
  {
    var k := 360 / (2 * n);
    assert 360 == (2 * k) * n;
    DivModUnique(360, n, 2 * k, 0);
    360 / n
  }

  /** The spin's duration in milliseconds, from the first random draw `r`. */
  function Duration(mode: SpinMode, r: real): (d: real)
    requires 0.0 <= r < 1.0
    ensures mode == EXCLUSIVE ==> 12000.0 <= d < 15000.0
    ensures mode == REGULER ==> 10000.0 <= d < 12000.0
  {
    if mode == EXCLUSIVE then 12000.0 + r * 3000.0 else 10000.0 + r * 2000.0
  }

  /** The winning segment, floor(r * n), from the second random draw `r`. */
  function TargetIndex(r: real, n: int): (i: int)
    requires 0.0 <= r < 1.0 && n >= 1
    ensures 0 <= i < n
  {
    assert r * n as real < n as real;
    (r * n as real).Floor
  }

  /** Multiplying both sides by a positive factor keeps a strict inequality. */
  lemma ScaleLess(a: real, c: real, n: real)
    requires n > 0.0
    ensures a < c <==> a * n < c * n
  {
    assert (c - a) * n == c * n - a * n;
    if a < c {
      assert (c - a) * n > 0.0;
    } else {
      assert (a - c) * n >= 0.0;
    }
  }

  /** The floor of x is i exactly when x lies in [i, i+1). */
  lemma FloorIs(x: real, i: int)
    ensures x.Floor == i <==> i as real <= x < (i + 1) as real
  {
    var f := x.Floor;
    assert f as real <= x < f as real + 1.0;
  }

  /** Comparing r with m/n is comparing r*n with m, for positive n. */
  lemma DivideBound(r: real, m: real, n: real)
    requires n > 0.0
    ensures m / n <= r <==> m <= r * n
    ensures r < m / n <==> r * n < m
  {
    assert (m / n) * n == m;
    ScaleLess(r, m / n, n);
  }

  /** Segment i wins exactly for the draws in [i/n, (i+1)/n): every segment gets an interval of width 1/n. */
  lemma TargetIndexInterval(r: real, n: int, i: int)
    requires 0.0 <= r < 1.0 && n >= 1
    ensures TargetIndex(r, n) == i <==> i as real / n as real <= r < (i + 1) as real / n as real
  {
    var nr := n as real;
    FloorIs(r * nr, i);
    DivideBound(r, i as real, nr);
    DivideBound(r, (i + 1) as real, nr);
  }

  /** The number of whole turns before the wheel settles, from the third random draw `r`. */
  function FullSpins(mode: SpinMode, r: real): (f: int)
    requires 0.0 <= r < 1.0
    ensures mode == EXCLUSIVE ==> 18 <= f <= 27
    ensures mode == REGULER ==> 15 <= f <= 22
  {
    if mode == EXCLUSIVE then 18 + (r * 10.0).Floor else 15 + (r * 8.0).Floor
  }

  /** The absolute rotation, in degrees, at which the wheel stops. */
  function TargetRotation(fullSpins: int, index: int, n: int): (t: int)
    requires WholeHalfSegments(n)
    ensures 0 <= index < n ==> fullSpins * 360 - 90 < t < fullSpins * 360 + 270
  {
    var seg := SegmentAngle(n);
    assert 0 <= index < n ==> index * seg + seg / 2 < 360 by {
      if 0 <= index < n {
        assert index * seg <= (n - 1) * seg;
      }
    }
    fullSpins * 360 + (270 - (index * seg + seg / 2))
  }

  /**
   * The segment under the pointer when the wheel is turned by `rotation` degrees:
   * segment i is drawn over [i*seg, (i+1)*seg) in the wheel's own frame, and the
   * pointer sits at 270 degrees (twelve o'clock on the canvas).
   */
  function PointerSegment(rotation: int, n: int): (s: int)
    requires WholeHalfSegments(n)
    ensures 0 <= s < n
  {
    var seg := SegmentAngle(n);
    var local := (270 - rotation) % 360;
    var s := local / seg;
    s
  }

  /** The number of whole turns does not change the stopping angle modulo a full turn. */
  lemma TargetAlignment(fullSpins: int, index: int, n: int)
    requires WholeHalfSegments(n)
    ensures var seg := SegmentAngle(n);
      TargetRotation(fullSpins, index, n) % 360 == (270 - (index * seg + seg / 2)) % 360
  {
    var seg := SegmentAngle(n);
    var a := 270 - (index * seg + seg / 2);
    DivModUnique(fullSpins * 360 + a, 360, fullSpins + a / 360, a % 360);
  }

  /** The wheel stops with the centre of the chosen segment under the pointer, whatever the number of turns. */
  lemma StopsOnTarget(fullSpins: int, index: int, n: int)
    requires WholeHalfSegments(n) && 0 <= index < n
    ensures PointerSegment(TargetRotation(fullSpins, index, n), n) == index
    ensures var seg := SegmentAngle(n);
      (TargetRotation(fullSpins, index, n) + index * seg + seg / 2) % 360 == 270
  {
    var seg := SegmentAngle(n);
    var half := seg / 2;
    var centre := index * seg + half;
    assert centre < 360 by {
      assert index * seg <= (n - 1) * seg;
    }
    var t := TargetRotation(fullSpins, index, n);
    assert 270 - t == centre + (-fullSpins) * 360;
    DivModUnique(270 - t, 360, -fullSpins, centre);
    DivModUnique(centre, seg, index, half);
    DivModUnique(t + centre, 360, fullSpins, 270);
  }

  /** With the 12-entry catalogs: segment 0 stops at 255 degrees and segment 6 at 75, modulo a turn. */
  lemma TwelveSegmentStops(fullSpins: int)
    ensures WholeHalfSegments(12)
    ensures TargetRotation(fullSpins, 0, 12) % 360 == 255
    ensures TargetRotation(fullSpins, 6, 12) % 360 == 75
  {
    TargetAlignment(fullSpins, 0, 12);
    TargetAlignment(fullSpins, 6, 12);
  }

  /**
   * A second spin can end below where the first one stopped: the first can stop
   * at 27 turns plus 255 degrees, the next at 15 turns minus 75 degrees, so the
   * wheel then turns backwards.
   */
  lemma SecondSpinCanTurnBack()
    ensures TargetRotation(15, 11, 12) - TargetRotation(27, 0, 12) < 0
  {
  }

  /** x to the power k; the model of Math.pow with a whole exponent. */
  function Pow(x: real, k: nat): (r: real)
    ensures 0.0 <= x ==> 0.0 <= r
    ensures x == 1.0 ==> r == 1.0
    ensures x == 0.0 && k >= 1 ==> r == 0.0
  {
    if k == 0 then 1.0 else x * Pow(x, k - 1)
  }

  lemma {:induction false} PowUnit(x: real, k: nat)
    requires 0.0 <= x <= 1.0
    ensures 0.0 <= Pow(x, k) <= 1.0
  {
    if k > 0 {
      PowUnit(x, k - 1);
      var p := Pow(x, k - 1);
      assert 0.0 * p <= x * p <= 1.0 * p;
    }
  }

  /** The product of two non-negative factors grows strictly with both. */
  lemma ProductIncreasing(a: real, b: real, c: real, d: real)
    requires 0.0 <= a < b && 0.0 <= c < d
    ensures 0.0 <= a * c < b * d
  {
    assert (b - a) * c >= 0.0;
    ScaleLess(c, d, b);
  }

  lemma {:induction false} PowStrictlyIncreasing(a: real, b: real, k: nat)
    requires 0.0 <= a < b && k >= 1
    ensures 0.0 <= Pow(a, k) < Pow(b, k)
  {
    if k == 1 {
      assert Pow(a, 0) == 1.0 && Pow(b, 0) == 1.0;
    } else {
      PowStrictlyIncreasing(a, b, k - 1);
      var pa, pb := Pow(a, k - 1), Pow(b, k - 1);
      assert Pow(a, k) == a * pa && Pow(b, k) == b * pb;
      ProductIncreasing(a, b, pa, pb);
    }
  }

  /** Quintic ease-out: fast at first, slowing smoothly to a stop. */
  function Ease(p: real): (e: real)
    ensures p == 0.0 ==> e == 0.0
    ensures p == 1.0 ==> e == 1.0
    ensures p <= 1.0 ==> e <= 1.0
  {
    1.0 - Pow(1.0 - p, 5)
  }

  /** Ease-out starts at 0, ends at 1 and stays within [0, 1] in between. */
  lemma EaseRange(p: real)
    requires 0.0 <= p <= 1.0
    ensures Ease(0.0) == 0.0 && Ease(1.0) == 1.0
    ensures 0.0 <= Ease(p) <= 1.0
  {
    PowUnit(1.0 - p, 5);
  }

  /** Ease-out is strictly increasing on [0, 1]. */
  lemma EaseIncreasing(p: real, q: real)
    requires 0.0 <= p < q <= 1.0
    ensures Ease(p) < Ease(q)
  {
    PowStrictlyIncreasing(1.0 - q, 1.0 - p, 5);
  }

  /** How far through the spin we are: elapsed/duration, capped at 1. */
  function Progress(elapsed: real, duration: real): (p: real)
    requires duration > 0.0
    ensures p <= 1.0
    ensures p == 1.0 <==> elapsed >= duration
    ensures elapsed >= 0.0 ==> p >= 0.0
  {
    var ratio := elapsed / duration;
    assert ratio < 1.0 <==> elapsed < duration by {
      assert ratio * duration == elapsed;
    }
    if ratio < 1.0 then ratio else 1.0
  }

  /** Progress never goes backwards as time advances. */
  lemma ProgressMonotone(e1: real, e2: real, duration: real)
    requires duration > 0.0 && e1 <= e2
    ensures Progress(e1, duration) <= Progress(e2, duration)
  {
    var a, b := e1 / duration, e2 / duration;
    assert a * duration == e1 && b * duration == e2;
    ScaleLess(b, a, duration);
    assert a <= b;
  }

  /** The rotation shown at progress p of a spin from `start` to `target`. */
  function RotationAt(start: real, target: int, p: real): (r: real)
    ensures p == 0.0 ==> r == start
    ensures p == 1.0 ==> r == target as real
  {
    start + (target as real - start) * Ease(p)
  }

  /** During a spin the wheel stays between its start and its target, and reaches the target at progress 1. */
  lemma RotationBetween(start: real, target: int, p: real)
    requires 0.0 <= p <= 1.0
    ensures RotationAt(start, target, 1.0) == target as real
    ensures start <= target as real ==> start <= RotationAt(start, target, p) <= target as real
    ensures target as real <= start ==> target as real <= RotationAt(start, target, p) <= start
  {
    EaseRange(p);
    var d, e := target as real - start, Ease(p);
    assert RotationAt(start, target, p) == start + d * e;
    if d >= 0.0 {
      assert 0.0 <= d * e <= d * 1.0;
    } else {
      assert d * 1.0 <= d * e <= 0.0;
    }
  }
}
