/** Multiples of a real number come as close above a whole number as one likes. */
module NearWhole {

  /** q times a is p and a rest d. */
  predicate Lands(a: real, q: int, p: int, d: real) { a * (q as real) == (p as real) + d }

  function Size(d: real): real { if d < 0.0 then -d else d }

  function Scale(k: int, d: real): real { (k as real) * d }

  lemma Scaled(a: real, q: int, p: int, d: real, k: int)
    requires Lands(a, q, p, d)
    ensures Lands(a, k * q, k * p, Scale(k, d))
  {
    var x, y := k as real, q as real;
    assert (k * q) as real == x * y && (k * p) as real == x * (p as real);
    Swap(a, x, y);
    Spread(x, p as real, d);
  }

  lemma Swap(a: real, x: real, y: real)
    ensures a * (x * y) == x * (a * y)
  {
  }

  lemma Spread(x: real, y: real, z: real)
    ensures x * (y + z) == x * y + x * z
  {
  }

  lemma Shifted(a: real, q: int, p: int, d: real, j: int)
    requires Lands(a, q, p, d)
    ensures Lands(a, q, p + j, d - j as real)
  {
  }

  lemma Inverse(s: real) returns (x: real)
    requires 0.0 < s <= 1.0
    ensures x >= 1.0 && x * s == 1.0
  {
    x := 1.0 / s;
  }

  lemma Larger(s: real, x: real, y: real)
    requires s > 0.0 && x <= y
    ensures x * s <= y * s && (x < y ==> x * s < y * s)
  {
    assert (y - x) * s >= 0.0;
    Spread(s, y - x, x);
  }

  /** The multiple of s nearest to one. */
  lemma Nearest(s: real) returns (k: nat)
    requires 0.0 < s <= 1.0
    ensures k >= 1 && 1.0 - s / 2.0 <= Scale(k, s) <= 1.0 + s / 2.0
  {
    var x := Inverse(s);
    k := (x + 0.5).Floor;
    var y := k as real;
    Larger(s, x - 0.5, y);
    Larger(s, y, x + 0.5);
    Spread(s, x - 0.5, 0.5);
    Spread(s, x, 0.5);
    assert (x - 0.5) * s == 1.0 - s / 2.0 && (x + 0.5) * s == 1.0 + s / 2.0;
  }

  /** The last multiple of s up to one. */
  lemma Last(s: real) returns (k: nat)
    requires 0.0 < s <= 1.0
    ensures k >= 1 && 1.0 - s < Scale(k, s) <= 1.0
  {
    var x := Inverse(s);
    k := x.Floor;
    var y := k as real;
    Larger(s, x - 1.0, y);
    Larger(s, y, x);
    Spread(s, x, -1.0);
  }

  lemma Opposite(k: int, d: real)
    ensures Scale(k, -d) == -Scale(k, d)
  {
  }

  /** A multiple lands at most half as far off. */
  lemma Halve(a: real, q: int, p: int, d: real) returns (q': int, p': int, d': real)
    requires q >= 1 && Lands(a, q, p, d) && 0.0 < Size(d) <= 1.0
    ensures q' >= 1 && Lands(a, q', p', d') && Size(d') <= Size(d) / 2.0
  {
    hide Scale;
    var k := Nearest(Size(d));
    var j := if d < 0.0 then -1 else 1;
    Opposite(k, d);
    Scaled(a, q, p, d, k);
    Shifted(a, k * q, k * p, Scale(k, d), j);
    q', p', d' := k * q, k * p + j, Scale(k, d) - j as real;
  }

  lemma HalfTimes(n: int, eps: real, s: real)
    requires eps > 0.0 && s <= Scale(n, eps) / 2.0
    ensures s <= Scale((n + 1) / 2, eps)
  {
    var h := (n + 1) / 2;
    Larger(eps, n as real, (2 * h) as real);
  }

  /** Halving often enough. */
  lemma Near(a: real, eps: real, n: nat, q: int, p: int, d: real) returns (q': int, p': int, d': real)
    requires q >= 1 && Lands(a, q, p, d) && Size(d) <= 1.0 && eps > 0.0 && Size(d) <= Scale(n, eps)
    ensures q' >= 1 && Lands(a, q', p', d') && Size(d') <= eps
    decreases n
  {
    if Size(d) <= eps { q', p', d' := q, p, d; }
    else {
      assert n >= 2;
      q', p', d' := Halve(a, q, p, d);
      HalfTimes(n, eps, Size(d'));
      q', p', d' := Near(a, eps, (n + 1) / 2, q', p', d');
    }
  }

  /** Some multiple lands within eps, above. */
  lemma Above(a: real, eps: real) returns (q: int, p: int, d: real)
    requires 0.0 < eps <= 1.0
    ensures q >= 1 && Lands(a, q, p, d) && 0.0 <= d <= eps
  {
    hide Scale;
    var n := Nearest(eps);
    var m := 2 * n;
    Doubled(n, eps);
    p := a.Floor;
    q, p, d := Near(a, eps, m, 1, p, a - p as real);
    if d < 0.0 {
      var k := Last(-d);
      Opposite(k, d);
      Scaled(a, q, p, d, k);
      Shifted(a, k * q, k * p, Scale(k, d), -1);
      q, p, d := k * q, k * p - 1, Scale(k, d) + 1.0;
    }
  }

  lemma Doubled(n: int, s: real)
    ensures Scale(2 * n, s) == 2.0 * Scale(n, s)
  {
  }

  /** So does one from any place on. */
  lemma From(a: real, least: nat, eps: real) returns (m: nat, p: int, d: real)
    requires 0.0 < eps <= 1.0
    ensures Lands(a, least + m, p, d) && 0.0 <= d <= eps && (least == 0 ==> m == 0)
  {
    if least == 0 {
      m, p, d := 0, 0, 0.0;
    } else {
      var part := eps / least as real;
      assert 0.0 < part <= 1.0 && Scale(least, part) == eps;
      var q;
      q, p, d := Above(a, part);
      Scaled(a, q, p, d, least);
      Larger(least as real, 0.0, d);
      Larger(least as real, d, part);
      m, p, d := least * q - least, least * p, Scale(least, d);
    }
  }
}
