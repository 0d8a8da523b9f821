/** The Wilson score interval of a proportion, in exact arithmetic and before rounding.

    The square root is a parameter: any non-negative number whose square is the value the
    program takes the root of. */
module Wilson {
  import opened Seqs

  datatype Interval = Interval(lo: real, hi: real)

  function Proportion(s: int, n: nat): real
    requires n >= 1
  {
    s as real / n as real
  }

  function Denominator(n: nat, z: real): real
    requires n >= 1
  {
    1.0 + z * z / n as real
  }

  /** What stands under the root. */
  function Spread(s: int, n: nat, z: real): real
    requires n >= 1
  {
    var p, total := Proportion(s, n), n as real;
    p * (1.0 - p) / total + z * z / (4.0 * total * total)
  }

  ghost predicate IsRoot(root: real, s: int, n: nat, z: real)
    requires n >= 1
  {
    root >= 0.0 && root * root == Spread(s, n, z)
  }

  lemma DenominatorPositive(n: nat, z: real)
    requires n >= 1
    ensures Denominator(n, z) >= 1.0
  {
    assert z * z >= 0.0;
  }

  function Center(s: int, n: nat, z: real): real
    requires n >= 1
  {
    DenominatorPositive(n, z);
    (Proportion(s, n) + z * z / (2.0 * n as real)) / Denominator(n, z)
  }

  function Margin(n: nat, z: real, root: real): real
    requires n >= 1
  {
    DenominatorPositive(n, z);
    z * root / Denominator(n, z)
  }

  function Larger(a: real, b: real): real { if a >= b then a else b }
  function Smaller(a: real, b: real): real { if a <= b then a else b }

  /** The interval, clamped to [0, 1]; none when there is nothing to count. */
  function Bounds(s: int, n: nat, z: real, root: real): Option<Interval> {
    if n == 0 then None
    else Some(Interval(Larger(0.0, Center(s, n, z) - Margin(n, z, root)), Smaller(1.0, Center(s, n, z) + Margin(n, z, root))))
  }

  // ---- The algebra, with c = z*z/n and m = z*root ----

  lemma Times(a: real, b: real, c: real)
    requires a >= 0.0 && b <= c
    ensures a * b <= a * c
  {
  }

  lemma TimesStrict(a: real, b: real, c: real)
    requires a > 0.0 && b < c
    ensures a * b < a * c
  {
  }

  lemma Nonnegative(a: real, b: real)
    requires a >= 0.0 && b >= 0.0
    ensures a * b >= 0.0
  {
  }

  /** Two quotients with the same positive denominator compare as their numerators. */
  lemma Compare(a: real, b: real, d: real, x: real, y: real)
    requires d > 0.0 && a * d == x && b * d == y && x <= y
    ensures a <= b
  {
    if a > b {
      TimesStrict(d, b, a);
      assert false;
    }
  }

  lemma SquareOrder(a: real, b: real)
    requires a >= 0.0 && b >= 0.0 && a * a <= b * b
    ensures a <= b
  {
    if a > b {
      Compare(a, b, a + b, a * a + a * b, b * a + b * b);
      assert false;
    }
  }

  ghost predicate Radius(p: real, c: real, m: real) {
    && 0.0 <= p <= 1.0 && c >= 0.0 && m >= 0.0
    && m * m == c * (p * (1.0 - p)) + c * c / 4.0
  }

  lemma Centred(c: real, p: real)
    ensures c * (0.5 - p) == c / 2.0 - p * c
    ensures c * (p - 0.5) == p * c - c / 2.0
    ensures p * (1.0 + c) == p + p * c
  {
  }

  /** The square of the way from the proportion to the shrunken centre. */
  lemma WaySquared(c: real, p: real)
    ensures (c * (0.5 - p)) * (c * (0.5 - p)) == c * c / 4.0 - (c * c) * (p * (1.0 - p))
  {
    var e := 0.5 - p;
    assert e * e == 0.25 - p * (1.0 - p);
    assert (c * e) * (c * e) == (c * c) * (e * e);
  }

  /** The radius reaches at least to the proportion itself, from the shrunken centre. */
  lemma RadiusReaches(p: real, c: real, m: real)
    requires Radius(p, c, m)
    ensures m >= c * (0.5 - p) && m >= c * (p - 0.5)
  {
    var d, v := c * (0.5 - p), p * (1.0 - p);
    WaySquared(c, p);
    Centred(c, p);
    Nonnegative(p, 1.0 - p);
    Nonnegative(c, v);
    Nonnegative(c, c);
    Nonnegative(c * c, v);
    assert m * m >= d * d;
    if d >= 0.0 {
      SquareOrder(d, m);
    } else {
      assert (-d) * (-d) == d * d;
      SquareOrder(-d, m);
    }
  }

  /** The radius does not reach below 0. */
  lemma RadiusStays(p: real, c: real, m: real)
    requires Radius(p, c, m)
    ensures m <= p + c / 2.0
  {
    var b := p + c / 2.0;
    assert b * b == p * p + p * c + c * c / 4.0;
    assert c * (p * (1.0 - p)) == p * c - c * (p * p);
    Nonnegative(p, p);
    Nonnegative(c, p * p);
    SquareOrder(m, b);
  }

  lemma RadiusMirror(p: real, c: real, m: real)
    requires Radius(p, c, m)
    ensures Radius(1.0 - p, c, m)
  {
  }

  lemma SquaresDiffer(p: real, q: real, c: real, m: real, k: real)
    requires Radius(p, c, m) && Radius(q, c, k)
    ensures (k - m) * (m + k) == (q - p) * (c * (1.0 - p - q))
  {
    assert (k - m) * (m + k) == k * k - m * m;
    var a, b := q * (1.0 - q), p * (1.0 - p);
    assert a - b == (q - p) * (1.0 - p - q);
    assert c * a - c * b == c * (a - b);
  }

  lemma SlopeAtMostOne(rise: real, run: real, sum: real, w: real)
    requires rise * sum == run * w && run >= 0.0 && w <= sum && sum >= 0.0
    requires sum == 0.0 ==> rise <= run
    ensures rise <= run
  {
    Times(run, w, sum);
    if sum > 0.0 {
      Compare(rise, run, sum, rise * sum, run * sum);
    }
  }

  /** The radius grows no faster than the proportion. */
  lemma RadiusGrowsSlowly(p: real, q: real, c: real, m: real, k: real)
    requires Radius(p, c, m) && Radius(q, c, k) && p <= q
    ensures k - m <= q - p
  {
    SquaresDiffer(p, q, c, m, k);
    WayBounded(p, q, c, m, k);
    SlopeAtMostOne(k - m, q - p, m + k, c * (1.0 - p - q));
  }

  lemma WayBounded(p: real, q: real, c: real, m: real, k: real)
    requires Radius(p, c, m) && Radius(q, c, k)
    ensures c * (1.0 - p - q) <= m + k
  {
    RadiusReaches(p, c, m);
    RadiusReaches(q, c, k);
    var a, b := 0.5 - p, 0.5 - q;
    assert c * (a + b) == c * a + c * b;
  }

  /** Where the two numerators lie. */
  ghost predicate Placed(p: real, c: real, m: real) {
    && 0.0 <= p + c / 2.0 - m <= p * (1.0 + c)
    && p * (1.0 + c) <= p + c / 2.0 + m <= 1.0 + c
  }

  lemma RadiusPlaces(p: real, c: real, m: real)
    requires Radius(p, c, m)
    ensures Placed(p, c, m)
  {
    RadiusStays(p, c, m);
    RadiusReaches(p, c, m);
    RadiusMirror(p, c, m);
    RadiusStays(1.0 - p, c, m);
    Centred(c, p);
  }

  // ---- The bounds are the algebra's ----

  function Curvature(n: nat, z: real): real
    requires n >= 1
  {
    z * z / n as real
  }

  lemma RootIsRadius(s: int, n: nat, z: real, root: real)
    requires n >= 1 && 0 <= s <= n && z >= 0.0 && IsRoot(root, s, n, z)
    ensures Radius(Proportion(s, n), Curvature(n, z), z * root)
  {
    var p, c, total := Proportion(s, n), Curvature(n, z), n as real;
    Unit(s, n);
    var zz := z * z;
    assert zz >= 0.0;
    Quotient(zz, total);
    assert (z * root) * (z * root) == zz * (root * root);
    SpreadScaled(zz, p, total);
  }

  lemma Unit(s: int, n: nat)
    requires n >= 1 && 0 <= s <= n
    ensures 0.0 <= Proportion(s, n) <= 1.0
  {
    var total := n as real;
    assert Proportion(s, n) * total == s as real;
    assert 0.0 <= s as real <= total;
  }

  lemma Quotient(a: real, b: real)
    requires a >= 0.0 && b > 0.0
    ensures a / b >= 0.0
  {
  }

  lemma SpreadScaled(zz: real, p: real, total: real)
    requires total > 0.0
    ensures zz * (p * (1.0 - p) / total + zz / (4.0 * total * total))
            == (zz / total) * (p * (1.0 - p)) + (zz / total) * (zz / total) / 4.0
  {
    ScaledQuotient(zz, p * (1.0 - p), total);
    ScaledSquare(zz, total);
  }

  lemma ScaledQuotient(a: real, v: real, total: real)
    requires total > 0.0
    ensures a * (v / total) == (a / total) * v
  {
    var x, y := v / total, a / total;
    assert x * total == v && y * total == a;
    assert a * x == y * total * x == y * (x * total);
  }

  lemma ScaledSquare(a: real, total: real)
    requires total > 0.0
    ensures a * (a / (4.0 * total * total)) == (a / total) * (a / total) / 4.0
  {
    var y := a / total;
    assert y * total == a;
    Nonnegative(total, total);
    Positive(total, total);
    var four := 4.0 * total;
    var x := y / four;
    assert x * four == y;
    assert x * (four * total) == (x * four) * total;
    assert 4.0 * total * total == four * total;
    Positive(four, total);
    Divide(x, four * total, a);
    assert four * (a * x) == a * (x * four);
    assert four * (y * y / 4.0) == (y * total) * y;
    Divide(a * x, four, a * y);
    Divide(y * y / 4.0, four, a * y);
  }

  lemma Positive(a: real, b: real)
    requires a > 0.0 && b > 0.0
    ensures a * b > 0.0
  {
  }

  lemma Divide(q: real, d: real, a: real)
    requires d != 0.0 && q * d == a
    ensures a / d == q
  {
  }

  /** An interval whose ends, cleared of the denominator, are those of the formula. */
  ghost predicate Scaled(b: Interval, p: real, c: real, m: real) {
    b.lo * (1.0 + c) == p + c / 2.0 - m && b.hi * (1.0 + c) == p + c / 2.0 + m
  }

  lemma BoundsScaled(s: int, n: nat, z: real, root: real)
    requires n >= 1
    ensures Scaled(Interval(Center(s, n, z) - Margin(n, z, root), Center(s, n, z) + Margin(n, z, root)),
                   Proportion(s, n), Curvature(n, z), z * root)
  {
    var d, total, zz := Denominator(n, z), n as real, z * z;
    DenominatorPositive(n, z);
    assert zz / (2.0 * total) == (zz / total) / 2.0 by {
      assert (zz / total) * total == zz;
      Divide((zz / total) / 2.0, 2.0 * total, zz);
    }
    assert Center(s, n, z) * d == Proportion(s, n) + Curvature(n, z) / 2.0;
    assert Margin(n, z, root) * d == z * root;
  }

  /** The bounds are where they belong without the clamps, and they enclose the proportion. */
  lemma ClampsNeverBind(s: int, n: nat, z: real, root: real)
    requires n >= 1 && 0 <= s <= n && z >= 0.0 && IsRoot(root, s, n, z)
    ensures var lo, hi := Center(s, n, z) - Margin(n, z, root), Center(s, n, z) + Margin(n, z, root);
            && 0.0 <= lo <= Proportion(s, n) <= hi <= 1.0
            && Bounds(s, n, z, root) == Some(Interval(lo, hi))
  {
    RootIsRadius(s, n, z, root);
    BoundsScaled(s, n, z, root);
    Enclosed(Proportion(s, n), Curvature(n, z), z * root, Center(s, n, z) - Margin(n, z, root),
             Center(s, n, z) + Margin(n, z, root));
  }

  lemma TheBounds(s: int, n: nat, z: real, root: real) returns (b: Interval)
    requires n >= 1 && 0 <= s <= n && z >= 0.0 && IsRoot(root, s, n, z)
    ensures Bounds(s, n, z, root) == Some(b) && Scaled(b, Proportion(s, n), Curvature(n, z), z * root)
  {
    b := Interval(Center(s, n, z) - Margin(n, z, root), Center(s, n, z) + Margin(n, z, root));
    ClampsNeverBind(s, n, z, root);
    BoundsScaled(s, n, z, root);
  }

  lemma Enclosed(p: real, c: real, m: real, lo: real, hi: real)
    requires Radius(p, c, m)
    requires lo * (1.0 + c) == p + c / 2.0 - m && hi * (1.0 + c) == p + c / 2.0 + m
    ensures 0.0 <= lo <= p <= hi <= 1.0
  {
    RadiusPlaces(p, c, m);
    EnclosedWhenPlaced(p, 1.0 + c, lo, hi, lo * (1.0 + c), hi * (1.0 + c));
  }

  lemma EnclosedWhenPlaced(p: real, d: real, lo: real, hi: real, x: real, y: real)
    requires d > 0.0 && lo * d == x && hi * d == y
    requires 0.0 <= x <= p * d <= y <= d
    ensures 0.0 <= lo <= p <= hi <= 1.0
  {
    Compare(0.0, lo, d, 0.0, x);
    Compare(lo, p, d, x, p * d);
    Compare(p, hi, d, p * d, y);
    Compare(hi, 1.0, d, y, d);
  }

  /** Counting failures instead of successes mirrors the interval. */
  lemma FailuresMirror(s: int, n: nat, z: real, root: real)
    requires n >= 1 && 0 <= s <= n && z >= 0.0 && IsRoot(root, s, n, z)
    ensures IsRoot(root, n - s, n, z)
    ensures var b := Bounds(s, n, z, root).value;
            Bounds(n - s, n, z, root) == Some(Interval(1.0 - b.hi, 1.0 - b.lo))
  {
    SpreadMirrors(s, n, z);
    var here := TheBounds(s, n, z, root);
    var there := TheBounds(n - s, n, z, root);
    MirrorProportion(s, n);
    RootIsRadius(s, n, z, root);
    Mirrored(Proportion(s, n), Curvature(n, z), z * root, here, there);
  }

  lemma SpreadMirrors(s: int, n: nat, z: real)
    requires n >= 1
    ensures Spread(n - s, n, z) == Spread(s, n, z)
  {
    MirrorProportion(s, n);
    var p := Proportion(s, n);
    assert (1.0 - p) * (1.0 - (1.0 - p)) == p * (1.0 - p);
  }

  lemma Mirrored(p: real, c: real, m: real, a: Interval, b: Interval)
    requires Radius(p, c, m) && Scaled(a, p, c, m) && Scaled(b, 1.0 - p, c, m)
    ensures b == Interval(1.0 - a.hi, 1.0 - a.lo)
  {
    Reflect(1.0 + c, p + c / 2.0 + m, a.hi, b.lo);
    Reflect(1.0 + c, p + c / 2.0 - m, a.lo, b.hi);
  }

  lemma Reflect(d: real, x: real, a: real, b: real)
    requires d > 0.0 && a * d == x && b * d == d - x
    ensures b == 1.0 - a
  {
    assert (1.0 - a) * d == d - x;
    Compare(b, 1.0 - a, d, d - x, d - x);
    Compare(1.0 - a, b, d, d - x, d - x);
  }

  lemma MirrorProportion(s: int, n: nat)
    requires n >= 1
    ensures Proportion(n - s, n) == 1.0 - Proportion(s, n)
  {
    var total := n as real;
    assert Proportion(s, n) * total == s as real;
    assert (n - s) as real == total - s as real;
    Divide(1.0 - Proportion(s, n), total, (n - s) as real);
  }

  /** More successes move neither bound down. */
  lemma BoundsMonotone(s: int, t: int, n: nat, z: real, root: real, root': real)
    requires n >= 1 && 0 <= s <= t <= n && z >= 0.0
    requires IsRoot(root, s, n, z) && IsRoot(root', t, n, z)
    ensures Bounds(s, n, z, root).value.lo <= Bounds(t, n, z, root').value.lo
    ensures Bounds(s, n, z, root).value.hi <= Bounds(t, n, z, root').value.hi
  {
    ProportionMonotone(s, t, n);
    RootIsRadius(s, n, z, root);
    RootIsRadius(t, n, z, root');
    RadiiOrdered(Proportion(s, n), Proportion(t, n), Curvature(n, z), z * root, z * root');
    var low := TheBounds(s, n, z, root);
    var high := TheBounds(t, n, z, root');
    Ordered(Proportion(s, n), Proportion(t, n), Curvature(n, z), z * root, z * root', low, high);
  }

  lemma Ordered(p: real, q: real, c: real, m: real, k: real, a: Interval, b: Interval)
    requires c >= 0.0 && p - m <= q - k && p + m <= q + k && Scaled(a, p, c, m) && Scaled(b, q, c, k)
    ensures a.lo <= b.lo && a.hi <= b.hi
  {
    Compare(a.lo, b.lo, 1.0 + c, p + c / 2.0 - m, q + c / 2.0 - k);
    Compare(a.hi, b.hi, 1.0 + c, p + c / 2.0 + m, q + c / 2.0 + k);
  }

  lemma RadiiOrdered(p: real, q: real, c: real, m: real, k: real)
    requires Radius(p, c, m) && Radius(q, c, k) && p <= q
    ensures p - m <= q - k && p + m <= q + k
  {
    RadiusGrowsSlowly(p, q, c, m, k);
    RadiusMirror(p, c, m);
    RadiusMirror(q, c, k);
    RadiusGrowsSlowly(1.0 - q, 1.0 - p, c, k, m);
  }

  lemma ProportionMonotone(s: int, t: int, n: nat)
    requires n >= 1 && s <= t
    ensures Proportion(s, n) <= Proportion(t, n)
  {
    var total := n as real;
    assert Proportion(s, n) * total == s as real && Proportion(t, n) * total == t as real;
    Compare(Proportion(s, n), Proportion(t, n), total, s as real, t as real);
  }

  // ---- What the interval is ----

  lemma CompleteSquare(p: real, c: real, x: real)
    ensures (1.0 + c) * ((x - p) * (x - p) - c * (x * (1.0 - x)))
            == ((1.0 + c) * x - (p + c / 2.0)) * ((1.0 + c) * x - (p + c / 2.0)) - (c * (p * (1.0 - p)) + c * c / 4.0)
  {
    var d, a := 1.0 + c, p + c / 2.0;
    var xx, px := x * x, p * x;
    assert (x - p) * (x - p) - c * (x * (1.0 - x)) == d * xx - 2.0 * (a * x) + p * p by {
      assert (x - p) * (x - p) == xx - 2.0 * px + p * p;
      assert c * (x * (1.0 - x)) == c * x - c * xx;
      assert a * x == px + c * x / 2.0 && d * xx == xx + c * xx;
    }
    assert (d * x - a) * (d * x - a) == d * (d * xx) - 2.0 * (d * (a * x)) + a * a;
    assert a * a == p * p + c * p + c * c / 4.0;
    assert c * (p * (1.0 - p)) == c * p - c * (p * p);
    assert d * (p * p) == p * p + c * (p * p);
    assert d * (d * xx - 2.0 * (a * x) + p * p) == d * (d * xx) - 2.0 * (d * (a * x)) + d * (p * p);
  }

  lemma SquareWithin(u: real, m: real)
    requires m >= 0.0
    ensures u * u <= m * m <==> -m <= u <= m
  {
    assert (-u) * (-u) == u * u;
    if u * u <= m * m {
      SquareOrder(if u >= 0.0 then u else -u, m);
    }
    if -m <= u <= m {
      var v := if u >= 0.0 then u else -u;
      Times(v, v, m);
      Times(m, v, m);
    }
  }

  lemma SignScaled(d: real, f: real)
    requires d > 0.0
    ensures d * f <= 0.0 <==> f <= 0.0
  {
    if f > 0.0 {
      Positive(d, f);
    } else {
      Times(d, f, 0.0);
    }
  }

  lemma InsideScaled(b: Interval, d: real, a: real, m: real, x: real)
    requires d > 0.0 && b.lo * d == a - m && b.hi * d == a + m
    ensures b.lo <= x <= b.hi <==> -m <= d * x - a <= m
  {
    if b.lo <= x <= b.hi {
      Times(d, b.lo, x);
      Times(d, x, b.hi);
    }
    if -m <= d * x - a <= m {
      Compare(b.lo, x, d, a - m, d * x);
      Compare(x, b.hi, d, d * x, a + m);
    }
  }

  /** x lies within z standard errors, taken at x itself, of the observed proportion p. */
  predicate WithinErrors(x: real, p: real, c: real) {
    (x - p) * (x - p) <= c * (x * (1.0 - x))
  }

  lemma Score(p: real, c: real, m: real, b: Interval, x: real)
    requires Radius(p, c, m) && Scaled(b, p, c, m)
    ensures b.lo <= x <= b.hi <==> WithinErrors(x, p, c)
  {
    var d, a := 1.0 + c, p + c / 2.0;
    InsideScaled(b, d, a, m, x);
    SquareWithin(d * x - a, m);
    CompleteSquare(p, c, x);
    SignScaled(d, (x - p) * (x - p) - c * (x * (1.0 - x)));
  }

  /** The interval holds exactly the proportions that lie within z standard errors of the
      observed one. */
  lemma ScoreInterval(s: int, n: nat, z: real, root: real, b: Interval)
    requires n >= 1 && 0 <= s <= n && z >= 0.0 && IsRoot(root, s, n, z) && Bounds(s, n, z, root) == Some(b)
    ensures forall x: real :: b.lo <= x <= b.hi <==> WithinErrors(x, Proportion(s, n), Curvature(n, z))
  {
    var same := TheBounds(s, n, z, root);
    RootIsRadius(s, n, z, root);
    AllScores(Proportion(s, n), Curvature(n, z), z * root, same);
  }

  lemma AllScores(p: real, c: real, m: real, b: Interval)
    requires Radius(p, c, m) && Scaled(b, p, c, m)
    ensures forall x: real :: b.lo <= x <= b.hi <==> WithinErrors(x, p, c)
  {
    forall x: real ensures b.lo <= x <= b.hi <==> WithinErrors(x, p, c) {
      Score(p, c, m, b, x);
    }
  }
}
