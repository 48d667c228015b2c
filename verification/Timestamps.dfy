// The time origin shared by both streams and the rescaling of timestamps (KoalaPlayer/src/koala_muxer.c).
module Timestamps {
  import opened MediaFrames

  /** `first_pts` after a frame with this dts: captured while it is negative, then kept. */
  function NextOrigin(first: int, dts: int): int {
    if first < 0 then dts else first
  }

  /** The frame relative to the origin; an origin that is not positive shifts nothing. */
  function Normalised(first: int, frame: MediaFrame): MediaFrame {
    if first > 0 then frame.(pts := frame.pts - first, dts := frame.dts - first) else frame
  }

  /** x / d rounded to nearest, halves up. */
  function RoundedQuotient(x: nat, d: nat): int
    requires d > 0
  {
    (x + d / 2) / d
  }

  /** `av_rescale(a, num, den)`: a * num / den, rounded to nearest, halves away from zero. */
  function Rescale(a: int, num: nat, den: nat): int
    requires den > 0
  {
    if a >= 0 then RoundedQuotient(a * num, den) else -RoundedQuotient(-a * num, den)
  }

  lemma QuotientNearest(x: nat, d: nat)
    requires d > 0
    ensures -(d as int) <= 2 * (RoundedQuotient(x, d) * d - x) <= d
  {
    assert (x + d / 2) / d * d + (x + d / 2) % d == x + d / 2;
  }

  /** The rounding error is at most half an output unit, negative timestamps included. */
  lemma RescaleNearest(a: int, num: nat, den: nat)
    requires den > 0
    ensures -(den as int) <= 2 * (Rescale(a, num, den) * den - a * num) <= den
  {
    if a >= 0 {
      QuotientNearest(a * num, den);
    } else {
      QuotientNearest(-a * num, den);
      assert Rescale(a, num, den) * den == -(RoundedQuotient(-a * num, den) * den);
      assert -a * num == -(a * num);
    }
  }

  /** Ties go away from zero, and a timestamp and its negative come out as negatives of each other. */
  lemma RescaleTies(a: nat, num: nat, den: nat, k: nat)
    requires den > 0 && 2 * (a * num) == (2 * k + 1) * den
    ensures Rescale(a, num, den) == k + 1
  {
    assert a * num + den / 2 == (k + 1) * den;
    QuotientOf(k + 1, den);
  }

  lemma QuotientOf(k: nat, d: nat)
    requires d > 0
    ensures k * d / d == k
  {
    var (q, r) := (k * d / d, k * d % d);
    assert k * d == q * d + r;
    assert (k - q) * d == r < d;
    NonNegativeFactor(k - q, d);
    FactorBelow(k - q, d);
  }

  lemma FactorBelow(m: nat, d: nat)
    requires m * d < d
    ensures m == 0
  {
  }

  lemma RescaleOdd(a: int, num: nat, den: nat)
    requires den > 0
    ensures Rescale(-a, num, den) == -Rescale(a, num, den)
  {
    assert 0 * num == 0;
  }

  lemma {:induction false} DivMonotone(x: nat, y: nat, d: nat)
    requires d > 0 && x <= y
    ensures x / d <= y / d
  {
    var k := y - x;
    assert x / d * d + x % d == x;
    assert y / d * d + y % d == y;
    assert (y / d - x / d) * d == k + x % d - y % d > -(d as int);
    NonNegativeFactor(y / d - x / d, d);
  }

  lemma NonNegativeFactor(m: int, d: nat)
    requires m * d > -(d as int)
    ensures m >= 0
  {
  }

  lemma MulMonotone(a: nat, b: nat, n: nat)
    requires a <= b
    ensures a * n <= b * n
  {
  }

  lemma QuotientMonotone(a: nat, b: nat, num: nat, den: nat)
    requires den > 0 && a <= b
    ensures 0 <= RoundedQuotient(a * num, den) <= RoundedQuotient(b * num, den)
  {
    MulMonotone(a, b, num);
    DivMonotone(a * num + den / 2, b * num + den / 2, den);
  }

  /** A later timestamp never comes out earlier. */
  lemma {:induction false} RescaleMonotone(a: int, b: int, num: nat, den: nat)
    requires den > 0 && a <= b
    ensures Rescale(a, num, den) <= Rescale(b, num, den)
  {
    if a >= 0 {
      QuotientMonotone(a, b, num, den);
    } else if b < 0 {
      QuotientMonotone(-b, -a, num, den);
    } else {
      QuotientMonotone(0, -a, num, den);
      QuotientMonotone(0, b, num, den);
    }
  }

  /** The distance of two timestamps on one base is distorted by at most one output unit. */
  lemma {:induction false} RescaleDistance(a: int, b: int, num: nat, den: nat)
    requires den > 0
    ensures -(den as int) <= (Rescale(a, num, den) - Rescale(b, num, den)) * den - (a - b) * num <= den
  {
    RescaleNearest(a, num, den);
    RescaleNearest(b, num, den);
    assert (Rescale(a, num, den) - Rescale(b, num, den)) * den
           == Rescale(a, num, den) * den - Rescale(b, num, den) * den;
    assert (a - b) * num == a * num - b * num;
  }
}
