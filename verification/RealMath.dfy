/** Facts about exact real arithmetic that the timing models share. */
module RealMath {

  /** The floor remainder: Python's `%` on floats with a positive divisor. */
  function Mod(x: real, c: real): (r: real)
    requires c > 0.0
    ensures 0.0 <= r < c
  {
    var q := x / c;
    var d := q - q.Floor as real;
    var r := x - c * (q.Floor as real);
    assert q * c == x && d * c == q * c - (q.Floor as real) * c;
    ScaleFraction(d, c);
    assert r == d * c;
    r
  }

  function Min(a: real, b: real): real {
    if a <= b then a else b
  }

  function Max(a: real, b: real): real {
    if a >= b then a else b
  }

  /** `k` copies of `c` added up: their product, kept linear for the solver. */
  function Times(c: real, k: nat): real {
    if k == 0 then 0.0 else Times(c, k - 1) + c
  }

  lemma {:induction false} TimesIsProduct(c: real, k: nat)
    ensures Times(c, k) == c * (k as real)
  {
    if k > 0 {
      TimesIsProduct(c, k - 1);
    }
  }

  lemma {:induction false} TimesSplit(c: real, a: nat, b: nat)
    ensures Times(c, a + b) == Times(c, a) + Times(c, b)
  {
    if b > 0 {
      TimesSplit(c, a, b - 1);
    }
  }

  lemma {:induction false} TimesMono(c: real, a: nat, b: nat)
    requires c >= 0.0 && a <= b
    ensures 0.0 <= Times(c, a) <= Times(c, b)
    decreases b
  {
    if a < b {
      TimesMono(c, a, b - 1);
    } else if b > 0 {
      TimesMono(c, a - 1, b - 1);
    }
  }

  lemma MulMono(a: real, b: real, c: real)
    requires a <= b && c >= 0.0
    ensures a * c <= b * c
  {
  }

  lemma ScaleFraction(d: real, c: real)
    requires 0.0 <= d < 1.0 && c > 0.0
    ensures 0.0 <= d * c < c
  {
    var gap := 1.0 - d;
    assert gap * c > 0.0;
    assert gap * c == c - d * c;
  }

  /** Quotient and remainder are the only such pair. */
  lemma ModUnique(x: real, c: real, k: int, r: real)
    requires c > 0.0 && 0.0 <= r < c && x == c * (k as real) + r
    ensures (x / c).Floor == k && Mod(x, c) == r
  {
    var q, f := x / c, r / c;
    assert f * c == r;
    assert q == k as real + f by {
      assert (k as real + f) * c == c * (k as real) + f * c;
    }
    FractionBelowOne(f, c, r);
  }

  lemma FractionBelowOne(f: real, c: real, r: real)
    requires c > 0.0 && r == f * c && 0.0 <= r < c
    ensures 0.0 <= f < 1.0
  {
    if f >= 1.0 {
      MulMono(1.0, f, c);
      assert false;
    } else if f < 0.0 {
      MulNegative(f, c);
      assert false;
    }
  }

  lemma MulNegative(f: real, c: real)
    requires f < 0.0 && c > 0.0
    ensures f * c < 0.0
  {
  }

  /** Adding whole periods does not move the remainder. */
  lemma ModShift(x: real, c: real, k: int)
    requires c > 0.0
    ensures Mod(x + c * (k as real), c) == Mod(x, c)
  {
    var q := (x / c).Floor;
    assert x + c * (k as real) == c * ((q + k) as real) + Mod(x, c);
    ModUnique(x + c * (k as real), c, q + k, Mod(x, c));
  }

  /** Taking away at least one unit `m` lowers the number of whole units. */
  lemma FloorFalls(t: real, d: real, m: real)
    requires m > 0.0 && d >= m && t >= d
    ensures 0 <= ((t - d) / m).Floor < (t / m).Floor
  {
    var q, r := t / m, (t - d) / m;
    assert q * m == t && r * m == t - d;
    assert (q - r) * m == d;
    var gap := q - r - 1.0;
    assert gap * m == (q - r) * m - m;
    if gap < 0.0 {
      MulNegative(gap, m);
      assert false;
    }
    if r < 0.0 {
      MulNegative(r, m);
      assert false;
    }
  }
}
