/** Heading arithmetic of the outdoor navigation code
    (models/outdoor/navigation/utils.py): Python's floored `%` on floats
    and the two heading-difference helpers. */
module Angles {

  /** Python's `x % m` for floats and a positive modulus: the remainder
      carries the sign of `m`, so it lies in [0, m). */
  function RealMod(x: real, m: real): (r: real)
    requires m > 0.0
    ensures 0.0 <= r < m
  {
    var y := x / m;
    var q := y.Floor;
    assert m * y == x;
    MulMonotone(m, q as real, y);
    assert y < q as real + 1.0;
    MulMonotone(m, y, q as real + 1.0);
    assert m * (q as real + 1.0) == m * (q as real) + m;
    assert x < m * (q as real) + m;
    assert m * (q as real) <= x;
    x - m * (q as real)
  }

  lemma MulMonotone(m: real, a: real, b: real)
    requires m > 0.0 && a <= b
    ensures m * a <= m * b
    ensures a < b ==> m * a < m * b
  {
  }

  lemma MulSub(m: real, q: int, k: int)
    ensures m * ((q - k) as real) == m * (q as real) - m * (k as real)
  {
  }

  /** No non-zero multiple of a positive `m` lies strictly between -m and m. */
  lemma MultipleInRange(m: real, z: int, p: real)
    requires m > 0.0 && p == m * (z as real) && -m < p < m
    ensures z == 0
  {
    if z >= 1 {
      MulMonotone(m, 1.0, z as real);
      assert false;
    } else if z <= -1 {
      MulMonotone(m, z as real, -1.0);
      assert false;
    }
  }

  /** `RealMod` is the unique remainder: whenever `x = m * k + r` with `r`
      in [0, m), `x % m` is `r`. */
  lemma ModUnique(x: real, m: real, k: int, r: real)
    requires m > 0.0 && 0.0 <= r < m && x == m * (k as real) + r
    ensures RealMod(x, m) == r
  {
    var q := (x / m).Floor;
    var r' := RealMod(x, m);
    assert r' == x - m * (q as real);
    var z := q - k;
    MulSub(m, q, k);
    var p := r - r';
    assert 0.0 <= r' < m;
    assert m * (z as real) == p;
    MultipleInRange(m, z, p);
  }

  function Abs(x: real): real { if x < 0.0 then -x else x }

  function Min3(a: real, b: real, c: real): (r: real)
    ensures r <= a && r <= b && r <= c
    ensures r == a || r == b || r == c
  {
    if a <= b && a <= c then a else if b <= c then b else c
  }

  /** `get_heading_diff(h1, h2)`: the smallest of |d|, |d + 360| and
      |d - 360| for d = h1 - h2. */
  function HeadingDiff(h1: real, h2: real): real {
    Min3(Abs(h1 - h2), Abs(h1 - h2 + 360.0), Abs(h1 - h2 - 360.0))
  }

  /** `angular_diff(a, b)`: |((a - b + 180) % 360) - 180|. */
  function AngularDiff(a: real, b: real): real {
    Abs(RealMod(a - b + 180.0, 360.0) - 180.0)
  }

  lemma HeadingDiffNonNegativeSymmetric(h1: real, h2: real)
    ensures HeadingDiff(h1, h2) >= 0.0
    ensures HeadingDiff(h1, h2) == HeadingDiff(h2, h1)
  {
  }

  lemma AngularDiffRange(a: real, b: real)
    ensures 0.0 <= AngularDiff(a, b) <= 180.0
  {
  }

  lemma AngularDiffSymmetric(a: real, b: real)
    ensures AngularDiff(a, b) == AngularDiff(b, a)
  {
    var d := a - b;
    var x := RealMod(d + 180.0, 360.0);
    var k := ((d + 180.0) / 360.0).Floor;
    assert d + 180.0 == 360.0 * (k as real) + x;
    if x == 0.0 {
      ModUnique(-d + 180.0, 360.0, 1 - k, 0.0);
    } else {
      ModUnique(-d + 180.0, 360.0, -k, 360.0 - x);
    }
  }

  lemma AngularDiffExamples()
    ensures AngularDiff(350.0, 10.0) == 20.0
    ensures AngularDiff(10.0, 350.0) == 20.0
  {
    ModUnique(520.0, 360.0, 1, 160.0);
    ModUnique(-160.0, 360.0, -1, 200.0);
  }

  /** For headings in [0, 360) the two helpers agree. */
  lemma HeadingDiffIsAngularDiff(h1: real, h2: real)
    requires 0.0 <= h1 < 360.0 && 0.0 <= h2 < 360.0
    ensures HeadingDiff(h1, h2) == AngularDiff(h1, h2)
  {
    var d := h1 - h2;
    if d < -180.0 {
      ModUnique(d + 180.0, 360.0, -1, d + 540.0);
    } else if d < 180.0 {
      ModUnique(d + 180.0, 360.0, 0, d + 180.0);
    } else {
      ModUnique(d + 180.0, 360.0, 1, d - 180.0);
    }
  }
}
