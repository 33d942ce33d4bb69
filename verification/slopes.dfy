/** How steep the terrain's noise can be, in any direction: the fade curve, and one cell
    of values faded between its corners. */
module Slopes {
  import opened Common

  // ----------------------------------------------------------- the fade curve

  /** Quintic, so that its second derivative is continuous too. */
  function Fade(t: real): real {
    t * t * t * (t * (t * 6.0 - 15.0) + 10.0)
  }

  lemma FadeExpanded(t: real)
    ensures Fade(t) == 6.0 * (t * t * t * t * t) - 15.0 * (t * t * t * t) + 10.0 * (t * t * t)
  {
  }

  /** The mean slope of the fade curve between a and b, by the sums of their powers. */
  ghost function MeanSlope(a: real, b: real): real {
    var s, t := a + b, a * b;
    6.0 * (s * s * s * s - 3.0 * s * s * t + t * t) - 15.0 * (s * s * s - 2.0 * s * t) + 10.0 * (s * s - t)
  }

  lemma Powers(a: real, b: real)
    ensures var s, t := a + b, a * b;
            && b * b * b - a * a * a == (b - a) * (s * s - t)
            && b * b * b * b - a * a * a * a == (b - a) * (s * s * s - 2.0 * s * t)
            && b * b * b * b * b - a * a * a * a * a == (b - a) * (s * s * s * s - 3.0 * s * s * t + t * t)
  {
  }

  lemma FadeDifference(a: real, b: real)
    ensures Fade(b) - Fade(a) == (b - a) * MeanSlope(a, b)
  {
    FadeExpanded(a);
    FadeExpanded(b);
    Powers(a, b);
  }

  /** Between 0 and 1 the fade curve never falls and never rises faster than 15/8.
      With m the midpoint and d half the distance, the mean slope is
      30 ((p - e)^2 + e/3 - 4e^2/5) for p = m(1 - m), e = d^2. */
  lemma MeanSlopeBounds(a: real, b: real)
    requires 0.0 <= a <= b <= 1.0
    ensures 0.0 <= MeanSlope(a, b) <= 1.875
  {
    var m, d := (a + b) / 2.0, (b - a) / 2.0;
    var p, e := m * (1.0 - m), d * d;
    MeanSlopeCentred(m, d);
    assert a == m - d && b == m + d;
    assert 0.0 <= d <= 0.5;
    Quarter(d);
    assert (p - e) * (p - e) >= 0.0;
    Product(e, 1.0 / 3.0 - 4.0 * e / 5.0);
    Peak(m, d);
  }

  lemma MeanSlopeCentred(m: real, d: real)
    ensures var p, e := m * (1.0 - m), d * d;
            MeanSlope(m - d, m + d) == 30.0 * ((p - e) * (p - e) + e * (1.0 / 3.0 - 4.0 * e / 5.0))
  {
  }

  lemma Quarter(d: real)
    requires 0.0 <= d <= 0.5
    ensures 0.0 <= d * d <= 0.25
  {
    Product(0.5 - d, 0.5 + d);
    Product(d, d);
  }

  lemma Peak(m: real, d: real)
    requires 0.0 <= m - d && m + d <= 1.0 && 0.0 <= d
    ensures var p, e := m * (1.0 - m), d * d;
            (p - e) * (p - e) + e * (1.0 / 3.0 - 4.0 * e / 5.0) <= 1.0 / 16.0
  {
    var p, e := m * (1.0 - m), d * d;
    Quarter(d);
    assert 0.25 - p == (m - 0.5) * (m - 0.5) >= 0.0;
    Product(m - d, 1.0 - m - d);
    assert p - (d - e) == (m - d) * (1.0 - m - d);
    Product(0.5 - d, 3.0 * d + 0.5);
    assert 0.25 + d - 3.0 * e == (0.5 - d) * (3.0 * d + 0.5);
    Product(0.25 - p, 0.25 + p - 2.0 * e);
    Product(e, 1.0 / 6.0 - e / 5.0);
    assert 1.0 / 16.0 - ((p - e) * (p - e) + e * (1.0 / 3.0 - 4.0 * e / 5.0))
        == (0.25 - p) * (0.25 + p - 2.0 * e) + e * (1.0 / 6.0 - e / 5.0);
  }

  lemma FadeSlope(a: real, b: real)
    requires 0.0 <= a <= b <= 1.0
    ensures 0.0 <= Fade(b) - Fade(a) <= 1.875 * (b - a)
  {
    FadeDifference(a, b);
    MeanSlopeBounds(a, b);
    Product(b - a, MeanSlope(a, b));
    Product(b - a, 1.875 - MeanSlope(a, b));
  }

  lemma FadeEnds()
    ensures Fade(0.0) == 0.0 && Fade(1.0) == 1.0
  {
  }

  /** The fade is symmetric about its middle, and so flat at both ends that its slope and
      its curvature are 0 there. */
  lemma FadeFlatAtEnds(t: real)
    requires 0.0 <= t <= 1.0
    ensures Fade(1.0 - t) == 1.0 - Fade(t) && 0.0 <= Fade(t) <= 10.0 * (t * t * t)
  {
    FadeCentred(t, 2.0 * t - 1.0);
    FadeCentred(1.0 - t, 1.0 - 2.0 * t);
    Product(t, t);
    Product(t * t, t);
    Product(t, 15.0 - 6.0 * t);
    SquareNotNegative(t - 1.25);
    Product(t * t * t, t * (15.0 - 6.0 * t));
    Product(t * t * t, 10.0 - t * (15.0 - 6.0 * t));
    assert Fade(t) == t * t * t * (10.0 - t * (15.0 - 6.0 * t));
  }

  lemma FadeRange(t: real)
    requires 0.0 <= t <= 1.0
    ensures 0.0 <= Fade(t) <= 1.0
  {
    FadeEnds();
    FadeSlope(0.0, t);
    FadeSlope(t, 1.0);
  }

  // --------------------------------------------------- chords by their centre

  /** Of a chord of the fade between a and b, with m = a + b - 1 and d = b - a: sixteen times its
      mean slope, by r = 1 - m^2 and q = d^2 ... */
  ghost function Rise(r: real, q: real): real { 30.0 * (r * r) + q * (40.0 - 60.0 * r + 6.0 * q) }

  /** ... and sixteen times how far the sum of its ends is from 1, divided by m. */
  ghost function Lift(r: real, q: real): real { 16.0 + 8.0 * r + 6.0 * (r * r) - 30.0 * (q * (2.0 * r - q)) }

  lemma RiseCentred(a: real, b: real, m: real, d: real)
    requires m == a + b - 1.0 && d == b - a
    ensures 16.0 * MeanSlope(a, b) == Rise(1.0 - m * m, d * d)
  {
    var s, t := a + b, a * b;
    assert s == 1.0 + m && 4.0 * t == (1.0 + m) * (1.0 + m) - d * d;
  }

  /** Around its centre the fade is odd. */
  lemma FadeCentred(t: real, y: real)
    requires y == 2.0 * t - 1.0
    ensures 16.0 * Fade(t) == 8.0 + 15.0 * y - 10.0 * (y * y * y) + 3.0 * (y * y * y * y * y)
  {
    FadeExpanded(t);
  }

  lemma OddPowers(m: real, d: real)
    ensures (m - d) * (m - d) * (m - d) + (m + d) * (m + d) * (m + d) == 2.0 * m * m * m + 6.0 * m * d * d
    ensures (m - d) * (m - d) * (m - d) * (m - d) * (m - d) + (m + d) * (m + d) * (m + d) * (m + d) * (m + d)
         == 2.0 * m * m * m * m * m + 20.0 * m * m * m * d * d + 10.0 * m * d * d * d * d
  {
  }

  lemma LiftExpanded(m: real, d: real)
    ensures m * Lift(1.0 - m * m, d * d)
         == 30.0 * m - 10.0 * (2.0 * m * m * m + 6.0 * m * d * d)
            + 3.0 * (2.0 * m * m * m * m * m + 20.0 * m * m * m * d * d + 10.0 * m * d * d * d * d)
  {
  }

  lemma LiftCentred(a: real, b: real, m: real, d: real)
    requires m == a + b - 1.0 && d == b - a
    ensures 16.0 * (Fade(a) + Fade(b) - 1.0) == m * Lift(1.0 - m * m, d * d)
  {
    FadeCentred(a, m - d);
    FadeCentred(b, m + d);
    OddPowers(m, d);
    LiftExpanded(m, d);
  }

  lemma ChordCentred(a: real, b: real, m: real, d: real, r: real, l: real)
    requires m == a + b - 1.0 && d == b - a && r == Rise(1.0 - m * m, d * d) && l == Lift(1.0 - m * m, d * d)
    ensures 16.0 * (Fade(b) - Fade(a)) == d * r && 16.0 * (Fade(a) + Fade(b) - 1.0) == m * l
  {
    FadeDifference(a, b);
    RiseCentred(a, b, m, d);
    LiftCentred(a, b, m, d);
  }

  // ---------------------------------------------------------- the chord bound

  lemma RiseBounds(r: real, q: real)
    requires 0.0 <= r <= 1.0 && 0.0 <= q <= r * r
    ensures 0.0 <= Rise(r, q)
  {
    Product(r * r - q, 30.0);
    Product(q, 70.0 - 60.0 * r + 6.0 * q);
  }

  lemma LiftEnd(r: real)
    requires 0.0 <= r <= 1.0
    ensures 30.0 * ((r * r) * (2.0 * r - r * r)) <= 16.0 + 8.0 * r + 6.0 * (r * r)
  {
    var c := 8.0 + 12.0 * r + 15.0 * (r * r) * (1.0 - r);
    Product(r * r, 1.0 - r);
    Product(1.0 - r, c);
    assert (1.0 - r) * c * 2.0 == 16.0 + 8.0 * r + 6.0 * (r * r) - 30.0 * ((r * r) * (2.0 * r - r * r));
  }

  /** For r in [0, 1] and q at most r * r the lift is not negative. */
  lemma LiftBounds(r: real, q: real)
    requires 0.0 <= r <= 1.0 && 0.0 <= q <= r * r
    ensures 0.0 <= Lift(r, q)
  {
    Product(r, 1.0 - r);
    Parabola(r, r * r, q);
    LiftEnd(r);
  }

  lemma Parabola(r: real, s: real, q: real)
    requires 0.0 <= q <= s <= r
    ensures q * (2.0 * r - q) <= s * (2.0 * r - s)
  {
    Product(s - q, 2.0 * r - s - q);
    assert (s - q) * (2.0 * r - s - q) == s * (2.0 * r - s) - q * (2.0 * r - q);
  }

  /** The bound for a chord of no length, that is at a point. */
  lemma ChordAtPoint(r: real, s: real, n: real, m: real)
    requires 0.0 <= r <= 1.0 && s == 1.0 - r && n == 30.0 * (r * r) && m == 16.0 + 8.0 * r + 6.0 * (r * r)
    ensures 256.0 * (n * n) + 900.0 * (s * (m * m)) <= 230400.0
  {
    Product(r * r, r);
    Product(r * r * r, 1.0 - r);
    Product(r * r * r * (1.0 - r), 40.0 - 9.0 * r);
    assert 256.0 * (n * n) + 900.0 * (s * (m * m))
        == 230400.0 - 3600.0 * (r * r * r * (1.0 - r) * (40.0 - 9.0 * r));
  }

  lemma Flat(r: real, q: real)
    requires 0.0 <= r <= 1.0 && 0.0 <= q <= r * r && 40.0 - 60.0 * r + 6.0 * q <= 0.0
    ensures Rise(r, q) <= Rise(r, 0.0)
  {
    Product(q, -(40.0 - 60.0 * r + 6.0 * q));
  }

  lemma Lower(r: real, q: real)
    requires 0.0 <= r <= 1.0 && 0.0 <= q <= r * r
    ensures Lift(r, q) <= Lift(r, 0.0) && r * r <= r
  {
    Product(r, 1.0 - r);
    Product(q, 2.0 * r - q);
  }

  lemma Monotone(n0: real, n: real, m0: real, m: real, s: real)
    requires 0.0 <= n <= n0 && 0.0 <= m <= m0 && s >= 0.0
    requires 256.0 * (n0 * n0) + 900.0 * (s * (m0 * m0)) <= 230400.0
    ensures 256.0 * (n * n) + 900.0 * (s * (m * m)) <= 230400.0
  {
    SquaresInOrder(n, n0);
    SquaresInOrder(m, m0);
    Product(s, m0 * m0 - m * m);
  }

  lemma Room(r: real)
    requires 0.0 <= r <= 1.0
    ensures 10240.0 * (r * (100.0 - 54.0 * r)) <= 27000.0 * (16.0 + 8.0 * r)
  {
    SquareNotNegative(r - 0.73);
    assert (r - 0.73) * (r - 0.73) == r * r - 1.46 * r + 0.5329;
  }

  /** While k is positive the rise can grow with q; the lift then falls by more. */
  lemma SteepPart(r: real, k: real, total: real)
    requires 0.0 <= r <= 1.0 && 0.0 <= k <= 40.0 * (1.0 - r) && 0.0 <= total <= r * (r * (100.0 - 54.0 * r))
    ensures 256.0 * (k * total) <= 27000.0 * ((1.0 - r) * (r * (16.0 + 8.0 * r)))
  {
    var steep := r * (100.0 - 54.0 * r);
    Factors(k, total, 40.0 * (1.0 - r), r * steep);
    Room(r);
    Product(1.0 - r, r);
    Product((1.0 - r) * r, 27000.0 * (16.0 + 8.0 * r) - 10240.0 * steep);
  }

  lemma Capped(r: real, s: real, q: real, k: real)
    requires 0.0 <= q <= s <= r <= 1.0 && k == 40.0 - 60.0 * r + 6.0 * q
    ensures k <= 40.0 - 54.0 * r <= 40.0 * (1.0 - r)
  {
  }

  lemma Total(r: real, q: real, k: real, dn: real, n0: real, total: real)
    requires 0.0 <= r <= 1.0 && 0.0 <= q <= r * r <= r && k == 40.0 - 60.0 * r + 6.0 * q >= 0.0
    requires dn == q * k && n0 == 30.0 * (r * r) && total == n0 + n0 + dn
    ensures 0.0 <= total <= r * (r * (100.0 - 54.0 * r)) && k <= 40.0 * (1.0 - r)
  {
    Product(q, k);
    Capped(r, r * r, q, k);
    Factors(q, k, r * r, 40.0 - 54.0 * r);
    assert r * (r * (100.0 - 54.0 * r)) == 60.0 * (r * r) + (r * r) * (40.0 - 54.0 * r);
  }

  lemma ChordSteep(r: real, q: real, k: real, e: real, s: real, total: real, both: real)
    requires 0.0 <= r <= 1.0 && 0.0 <= k <= 40.0 * (1.0 - r) && e >= r && s == 1.0 - r
    requires 0.0 <= total <= r * (r * (100.0 - 54.0 * r)) && both >= 16.0 + 8.0 * r
    ensures 256.0 * (k * total) <= 27000.0 * (s * (e * both))
  {
    SteepPart(r, k, total);
    Factors(r, 16.0 + 8.0 * r, e, both);
    Product(s, e * both - r * (16.0 + 8.0 * r));
  }

  /** Both differences have the factor q. */
  lemma Scaled(q: real, k: real, dn: real, total: real, s: real, e: real, dm: real, both: real)
    requires q >= 0.0 && 256.0 * (k * total) <= 27000.0 * (s * (e * both)) && dn == q * k && dm == 30.0 * (q * e)
    ensures 256.0 * (dn * total) <= 900.0 * (s * (dm * both))
  {
    var low, high := 256.0 * (k * total), 27000.0 * (s * (e * both));
    Product(q, high - low);
    assert q * low == 256.0 * (dn * total);
    assert dm * both == 30.0 * (q * (e * both));
    assert q * high == 900.0 * (s * (dm * both));
  }

  lemma SteepTerms(r: real, s: real, q: real, k: real, e: real, n0: real, dn: real, total: real, dm: real, both: real)
    requires 0.0 <= r <= 1.0 && 0.0 <= q <= r * r <= r && q <= r && s == 1.0 - r && e == 2.0 * r - q
    requires k == 40.0 - 60.0 * r + 6.0 * q >= 0.0 && n0 == 30.0 * (r * r) && dn == q * k && total == n0 + n0 + dn
    requires both >= 16.0 + 8.0 * r && dm == 30.0 * (q * e)
    ensures 256.0 * (dn * total) <= 900.0 * (s * (dm * both))
  {
    Total(r, q, k, dn, n0, total);
    ChordSteep(r, q, k, e, s, total, both);
    Scaled(q, k, dn, total, s, e, dm, both);
  }

  /** From a bound at q = 0 and the differences to there. */
  lemma Difference(n0: real, n: real, dn: real, total: real, m0: real, m: real, dm: real, both: real, s: real)
    requires dn == n - n0 && total == n + n0 && dm == m0 - m && both == m0 + m
    requires 256.0 * (dn * total) <= 900.0 * (s * (dm * both))
    requires 256.0 * (n0 * n0) + 900.0 * (s * (m0 * m0)) <= 230400.0
    ensures 256.0 * (n * n) + 900.0 * (s * (m * m)) <= 230400.0
  {
    assert dn * total == n * n - n0 * n0;
    assert dm * both == m0 * m0 - m * m;
  }

  lemma Steep(r: real, s: real, q: real, k: real, e: real, n0: real, n: real, dn: real, total: real,
              m0: real, m: real, dm: real, both: real)
    requires 0.0 <= r <= 1.0 && 0.0 <= q <= r * r <= r && q <= r && s == 1.0 - r && e == 2.0 * r - q
    requires k == 40.0 - 60.0 * r + 6.0 * q >= 0.0 && n0 == 30.0 * (r * r) && dn == q * k && dm == 30.0 * (q * e)
    requires m >= 0.0 && m0 >= 16.0 + 8.0 * r
    requires dn == n - n0 && total == n + n0 && dm == m0 - m && both == m0 + m
    requires 256.0 * (n0 * n0) + 900.0 * (s * (m0 * m0)) <= 230400.0
    ensures 256.0 * (n * n) + 900.0 * (s * (m * m)) <= 230400.0
  {
    SteepTerms(r, s, q, k, e, n0, dn, total, dm, both);
    Difference(n0, n, dn, total, m0, m, dm, both, s);
  }

  lemma SteepChord(r: real, s: real, q: real, k: real, e: real, n0: real, n: real, m0: real, m: real)
    requires 0.0 <= r <= 1.0 && 0.0 <= q <= r * r <= r && q <= r && s == 1.0 - r && e == 2.0 * r - q
    requires k == 40.0 - 60.0 * r + 6.0 * q >= 0.0 && n0 == 30.0 * (r * r) && n - n0 == q * k && m0 - m == 30.0 * (q * e)
    requires m >= 0.0 && m0 >= 16.0 + 8.0 * r
    requires 256.0 * (n0 * n0) + 900.0 * (s * (m0 * m0)) <= 230400.0
    ensures 256.0 * (n * n) + 900.0 * (s * (m * m)) <= 230400.0
  {
    Steep(r, s, q, k, e, n0, n, n - n0, n + n0, m0, m, m0 - m, m0 + m);
  }

  lemma Split(r: real, q: real)
    ensures Rise(r, q) == Rise(r, 0.0) + q * (40.0 - 60.0 * r + 6.0 * q)
    ensures Lift(r, q) == Lift(r, 0.0) - 30.0 * (q * (2.0 * r - q))
  {
  }

  /** The steeper a chord of the fade, the nearer its ends are to summing to 1. */
  lemma ChordBound(r: real, s: real, q: real, n: real, m: real)
    requires 0.0 <= r <= 1.0 && 0.0 <= q <= r * r && s == 1.0 - r && n == Rise(r, q) && m == Lift(r, q)
    ensures 256.0 * (n * n) + 900.0 * (s * (m * m)) <= 230400.0
  {
    var n0, m0 := Rise(r, 0.0), Lift(r, 0.0);
    ChordAtPoint(r, s, n0, m0);
    RiseBounds(r, q);
    LiftBounds(r, q);
    Lower(r, q);
    if 40.0 - 60.0 * r + 6.0 * q <= 0.0 {
      Flat(r, q);
      Monotone(n0, n, m0, m, s);
    } else {
      Split(r, q);
      SteepChord(r, s, q, 40.0 - 60.0 * r + 6.0 * q, 2.0 * r - q, n0, n, m0, m);
    }
  }

  /** Both ends are in [0, 1], so a long chord is centred. */
  lemma InSquare(a: real, b: real, m: real, d: real)
    requires 0.0 <= a <= 1.0 && 0.0 <= b <= 1.0 && m == a + b - 1.0 && d == b - a
    ensures 0.0 <= 1.0 - m * m <= 1.0 && 0.0 <= d * d <= (1.0 - m * m) * (1.0 - m * m)
  {
    var c, e := if m < 0.0 then -m else m, if d < 0.0 then -d else d;
    Product(c, 1.0 - c);
    SquareNotNegative(d);
    SquareNotNegative(m);
    SquaresInOrder(e, 1.0 - c);
    SquaresInOrder(1.0 - c, 1.0 - m * m);
  }

  lemma ChordWithin(a: real, b: real, m: real, d: real, r: real, l: real)
    requires 0.0 <= a <= 1.0 && 0.0 <= b <= 1.0 && m == a + b - 1.0 && d == b - a
    requires r == Rise(1.0 - m * m, d * d) && l == Lift(1.0 - m * m, d * d)
    ensures 256.0 * (r * r) + 900.0 * ((m * m) * (l * l)) <= 230400.0
  {
    InSquare(a, b, m, d);
    ChordBound(1.0 - m * m, m * m, d * d, r, l);
  }

  lemma ChordSquares(d: real, d2: real, m: real, r: real, l: real, u: real, s: real, rise: real)
    requires 256.0 * (r * r) + 900.0 * ((m * m) * (l * l)) <= 230400.0
    requires 16.0 * rise == d * r && 16.0 * (2.0 * u - 1.0) == m * l && d2 == d * d && s == u * (1.0 - u)
    ensures rise * rise <= 225.0 / 16.0 * (d2 * s)
  {
    assert (m * m) * (l * l) == 256.0 - 1024.0 * s by {
      assert (m * m) * (l * l) == (m * l) * (m * l);
    }
    assert 256.0 * (rise * rise) == d2 * (r * r) by {
      assert (16.0 * rise) * (16.0 * rise) == (d * r) * (d * r);
    }
    SquareNotNegative(d);
    Product(d2, 3600.0 * s - r * r);
  }

  /** How much a chord rises, by its length d and the mean u of its ends: not more than the
      sine wave would that has slope 15/8 at 1/2. */
  lemma FadeChord(a: real, b: real, d: real, d2: real, u: real, s: real, rise: real)
    requires 0.0 <= a <= 1.0 && 0.0 <= b <= 1.0 && d == b - a && d2 == d * d
    requires u == (Fade(a) + Fade(b)) / 2.0 && s == u * (1.0 - u) && rise == Fade(b) - Fade(a)
    ensures rise * rise <= 225.0 / 16.0 * (d2 * s)
  {
    var m := a + b - 1.0;
    var r, l := Rise(1.0 - m * m, d * d), Lift(1.0 - m * m, d * d);
    ChordWithin(a, b, m, d, r, l);
    ChordCentred(a, b, m, d, r, l);
    ChordSquares(d, d2, m, r, l, u, s, rise);
  }

  // ------------------------------------------------------------------- spread

  ghost predicate InUnit(x: real) { 0.0 <= x <= 1.0 }

  function Lerp(a: real, b: real, f: real): real { a + (b - a) * f }

  /** Between the values at the four corners of a cell. */
  function Bilerp(a: real, b: real, c: real, d: real, u: real, v: real): real { Lerp(Lerp(a, b, u), Lerp(c, d, u), v) }

  /** What a mixture loses in square: its spread. */
  lemma Spread(x: real, y: real, f: real, mean: real, gap: real, s: real)
    requires mean == Lerp(x, y, f) && gap == y - x && s == f * (1.0 - f)
    ensures Lerp(x * x, y * y, f) == mean * mean + s * (gap * gap)
  {
    assert mean == x + gap * f;
    assert mean * mean == x * x + 2.0 * x * gap * f + gap * gap * f * f;
  }

  lemma LerpOrder(a: real, b: real, a2: real, b2: real, f: real)
    requires a <= a2 && b <= b2 && 0.0 <= f <= 1.0
    ensures Lerp(a, b, f) <= Lerp(a2, b2, f)
  {
    Product(a2 - a, 1.0 - f);
    Product(b2 - b, f);
  }

  lemma UnitSquare(x: real)
    requires 0.0 <= x <= 1.0
    ensures x * x <= x
  {
    Product(x, 1.0 - x);
  }

  lemma LerpSum(z: real, w: real, x: real, y: real, k: real, p: real, q: real, f: real) returns (mean: real)
    requires z == x + k * p && w == y + k * q
    ensures mean == Lerp(z, w, f) && mean == Lerp(x, y, f) + k * Lerp(p, q, f)
  {
    mean := Lerp(z, w, f);
  }

  /** The mean of squares in [0, 1] is at most the mean. */
  lemma SquaresMean(a: real, b: real, c: real, d: real, u: real, v: real, squares: real, mean: real)
    requires InUnit(a) && InUnit(b) && InUnit(c) && InUnit(d) && InUnit(u) && InUnit(v)
    requires squares == Bilerp(a * a, b * b, c * c, d * d, u, v) && mean == Bilerp(a, b, c, d, u, v)
    ensures squares <= mean
  {
    UnitSquare(a);
    UnitSquare(b);
    UnitSquare(c);
    UnitSquare(d);
    LerpOrder(a * a, b * b, a, b, u);
    LerpOrder(c * c, d * d, c, d, u);
    LerpOrder(Lerp(a * a, b * b, u), Lerp(c * c, d * d, u), Lerp(a, b, u), Lerp(c, d, u), v);
  }

  /** A mixture of mixtures loses the spreads within the rows ... */
  lemma SpreadAcross(a: real, b: real, c: real, d: real, u: real, v: real, us: real, top: real, bottom: real, p: real, q: real)
    returns (squares: real)
    requires us == u * (1.0 - u) && top == Lerp(a, b, u) && bottom == Lerp(c, d, u) && p == b - a && q == d - c
    ensures squares == Bilerp(a * a, b * b, c * c, d * d, u, v)
    ensures squares == Lerp(top * top, bottom * bottom, v) + us * Lerp(p * p, q * q, v)
  {
    var above, below := Lerp(a * a, b * b, u), Lerp(c * c, d * d, u);
    Spread(a, b, u, top, p, us);
    Spread(c, d, u, bottom, q, us);
    squares := LerpSum(above, below, top * top, bottom * bottom, us, p * p, q * q, v);
  }

  lemma Scale(k: real, x: real, y: real)
    requires k >= 0.0 && x <= y
    ensures k * x <= k * y
  {
    Product(k, y - x);
  }

  /** ... and the spread between them; both are no less than those halfway. */
  lemma SpreadAlong(v: real, us: real, vs: real, top: real, bottom: real, mean: real, p: real, q: real, lx: real, ly: real,
                    squares: real)
    requires squares == Lerp(top * top, bottom * bottom, v) + us * Lerp(p * p, q * q, v)
    requires us >= 0.0 && vs == v * (1.0 - v) >= 0.0
    requires mean == Lerp(top, bottom, v) && lx == Lerp(p, q, v) && ly == bottom - top
    ensures mean * mean + us * (lx * lx) + vs * (ly * ly) <= squares
  {
    Spread(top, bottom, v, mean, ly, vs);
    Spread(p, q, v, lx, q - p, vs);
    SquareNotNegative(q - p);
    Product(vs, (q - p) * (q - p));
    Scale(us, lx * lx, Lerp(p * p, q * q, v));
  }

  lemma HalfAtMost(mean: real)
    ensures mean - mean * mean <= 0.25
  {
    SquareNotNegative(mean - 0.5);
    assert (mean - 0.5) * (mean - 0.5) == mean * mean - mean + 0.25;
  }

  lemma SpreadAtMost(sq: real, mean: real, x: real, y: real)
    requires mean * mean + x + y <= sq <= mean
    ensures x + y <= 0.25
  {
    HalfAtMost(mean);
  }

  /** The square of the mean and both spreads add up to at most the mean of the squares. */
  lemma SpreadBelow(a: real, b: real, c: real, d: real, u: real, v: real, us: real, vs: real,
                    top: real, bottom: real, mean: real, lx: real, ly: real) returns (squares: real, x: real, y: real)
    requires us == u * (1.0 - u) >= 0.0 && vs == v * (1.0 - v) >= 0.0
    requires top == Lerp(a, b, u) && bottom == Lerp(c, d, u) && mean == Lerp(top, bottom, v)
    requires lx == Lerp(b - a, d - c, v) && ly == bottom - top
    ensures squares == Bilerp(a * a, b * b, c * c, d * d, u, v) && x == us * (lx * lx) && y == vs * (ly * ly)
    ensures mean * mean + x + y <= squares
  {
    squares := SpreadAcross(a, b, c, d, u, v, us, top, bottom, b - a, d - c);
    x, y := us * (lx * lx), vs * (ly * ly);
    SpreadAlong(v, us, vs, top, bottom, mean, b - a, d - c, lx, ly, squares);
  }

  lemma SpreadTotal(a: real, b: real, c: real, d: real, u: real, v: real, us: real, vs: real,
                    top: real, bottom: real, mean: real, lx: real, ly: real)
    requires InUnit(a) && InUnit(b) && InUnit(c) && InUnit(d) && InUnit(u) && InUnit(v)
    requires us == u * (1.0 - u) >= 0.0 && vs == v * (1.0 - v) >= 0.0
    requires top == Lerp(a, b, u) && bottom == Lerp(c, d, u) && mean == Lerp(top, bottom, v)
    requires lx == Lerp(b - a, d - c, v) && ly == bottom - top
    ensures us * (lx * lx) + vs * (ly * ly) <= 0.25
  {
    var squares, x, y := SpreadBelow(a, b, c, d, u, v, us, vs, top, bottom, mean, lx, ly);
    SquaresMean(a, b, c, d, u, v, squares, mean);
    SpreadAtMost(squares, mean, x, y);
  }

  /** The spreads along the two axes together are at most that of a coin: a cell's values lie
      in [0, 1], so their variance is at most 1/4. */
  lemma SpreadBound(a: real, b: real, c: real, d: real, u: real, v: real, us: real, vs: real, lx: real, ly: real)
    requires InUnit(a) && InUnit(b) && InUnit(c) && InUnit(d) && InUnit(u) && InUnit(v)
    requires us == u * (1.0 - u) && vs == v * (1.0 - v)
    requires lx == Lerp(b - a, d - c, v) && ly == Lerp(c - a, d - b, u)
    ensures us >= 0.0 && vs >= 0.0 && us * (lx * lx) + vs * (ly * ly) <= 0.25
  {
    Product(u, 1.0 - u);
    Product(v, 1.0 - v);
    var top, bottom := Lerp(a, b, u), Lerp(c, d, u);
    assert ly == bottom - top;
    SpreadTotal(a, b, c, d, u, v, us, vs, top, bottom, Lerp(top, bottom, v), lx, ly);
  }

  lemma LerpRange(a: real, b: real, f: real)
    requires 0.0 <= a <= 1.0 && 0.0 <= b <= 1.0 && 0.0 <= f <= 1.0
    ensures 0.0 <= Lerp(a, b, f) <= 1.0
  {
    Product(a, 1.0 - f);
    Product(b, f);
    Product(1.0 - a, 1.0 - f);
    Product(1.0 - b, f);
  }

  // ------------------------------------------------------ steps within a cell

  /** The values at a cell's corners, and their differences along x, along y and across. */
  datatype Corners = Corners(a: real, b: real, c: real, d: real, p: real, q: real, e: real)

  ghost predicate Unit(k: Corners) {
    && InUnit(k.a) && InUnit(k.b) && InUnit(k.c) && InUnit(k.d)
    && k.p == k.b - k.a && k.q == k.c - k.a && k.e == k.d - k.c - k.p
  }

  /** A way along one axis of a cell, squared, and what it does to the fade there: from u1 to
      u2, by du, halfway at um, where a coin's spread is us. */
  datatype Way = Way(squared: real, u1: real, u2: real, um: real, us: real, du: real)

  ghost predicate Faded(w: Way) {
    && InUnit(w.um) && w.um == (w.u1 + w.u2) / 2.0 && w.us == w.um * (1.0 - w.um) && w.du == w.u2 - w.u1
    && w.squared >= 0.0 && w.du * w.du <= 225.0 / 16.0 * (w.squared * w.us)
  }

  lemma FadeStepAt(a: real, b: real, way: real, way2: real, u1: real, u2: real, um: real, us: real, du: real)
    requires 0.0 <= a <= 1.0 && 0.0 <= b <= 1.0 && way == b - a && way2 == way * way
    requires u1 == Fade(a) && u2 == Fade(b) && um == (u1 + u2) / 2.0 && us == um * (1.0 - um) && du == u2 - u1
    ensures du * du <= 225.0 / 16.0 * (way2 * us) && way2 >= 0.0 && InUnit(um)
  {
    FadeRange(a);
    FadeRange(b);
    SquareNotNegative(way);
    FadeChord(a, b, way, way2, um, us, du);
  }

  lemma FadedWay(way2: real, u1: real, u2: real, um: real, us: real, du: real)
    requires um == (u1 + u2) / 2.0 && us == um * (1.0 - um) && du == u2 - u1
    requires du * du <= 225.0 / 16.0 * (way2 * us) && way2 >= 0.0 && InUnit(um)
    ensures Faded(Way(way2, u1, u2, um, us, du))
  {
  }

  lemma FadeNumbers(a: real, b: real, way: real) returns (way2: real, u1: real, u2: real, um: real, us: real, du: real)
    ensures way2 == way * way && u1 == Fade(a) && u2 == Fade(b)
    ensures um == (u1 + u2) / 2.0 && us == um * (1.0 - um) && du == u2 - u1
  {
    way2, u1, u2, du := way * way, Fade(a), Fade(b), Fade(b) - Fade(a);
    um := (u1 + u2) / 2.0;
    us := um * (1.0 - um);
  }

  lemma FadeStep(a: real, b: real, way: real) returns (w: Way)
    requires 0.0 <= a <= 1.0 && 0.0 <= b <= 1.0 && way == b - a
    ensures Faded(w) && w.squared == way * way && w.u1 == Fade(a) && w.u2 == Fade(b)
  {
    var way2, u1, u2, um, us, du := FadeNumbers(a, b, way);
    FadeStepAt(a, b, way, way2, u1, u2, um, us, du);
    FadedWay(way2, u1, u2, um, us, du);
    w := Way(way2, u1, u2, um, us, du);
  }

  lemma LerpIs(x: real, y: real, f: real, gap: real)
    requires gap == y - x
    ensures Lerp(x, y, f) == x + gap * f
  {
  }

  lemma ProductDifference(u1: real, v1: real, u2: real, v2: real, um: real, vm: real)
    requires um == (u1 + u2) / 2.0 && vm == (v1 + v2) / 2.0
    ensures u2 * v2 - u1 * v1 == (u2 - u1) * vm + (v2 - v1) * um
  {
  }

  lemma Gather(a: real, p: real, q: real, e: real, u1: real, v1: real, w1: real, u2: real, v2: real, w2: real,
               um: real, vm: real, lx: real, ly: real, b1: real, b2: real)
    requires w2 - w1 == (u2 - u1) * vm + (v2 - v1) * um && lx == p + e * vm && ly == q + e * um
    requires b1 == a + p * u1 + q * v1 + e * w1 && b2 == a + p * u2 + q * v2 + e * w2
    ensures b2 - b1 == (u2 - u1) * lx + (v2 - v1) * ly
  {
    assert e * w2 - e * w1 == e * ((u2 - u1) * vm + (v2 - v1) * um);
  }

  /** How a cell's values come to differ between two places: exactly, by the slopes halfway. */
  lemma CellDifference(a: real, p: real, q: real, e: real, u1: real, v1: real, n1: real, u2: real, v2: real, n2: real,
                       um: real, vm: real, lx: real, ly: real, du: real, dv: real, step: real)
    requires um == (u1 + u2) / 2.0 && vm == (v1 + v2) / 2.0 && lx == p + e * vm && ly == q + e * um
    requires n1 == a + p * u1 + q * v1 + e * (u1 * v1) && n2 == a + p * u2 + q * v2 + e * (u2 * v2)
    requires du == u2 - u1 && dv == v2 - v1 && step == n2 - n1
    ensures step == du * lx + dv * ly
  {
    ProductDifference(u1, v1, u2, v2, um, vm);
    Gather(a, p, q, e, u1, v1, u1 * v1, u2, v2, u2 * v2, um, vm, lx, ly, n1, n2);
  }

  lemma Cross(x: real, y: real, gp: real, hq: real, gq: real, hp: real)
    requires gp >= 0.0 && hq >= 0.0 && gq >= 0.0 && hp >= 0.0 && gp * hq == gq * hp && x * x <= gp && y * y <= hq
    ensures 2.0 * (x * y) <= gq + hp
  {
    SquareNotNegative(x);
    SquareNotNegative(y);
    Factors(x * x, y * y, gp, hq);
    SquareNotNegative(gq - hp);
    var cross, both := 2.0 * (x * y), gq + hp;
    assert cross * cross == 4.0 * ((x * x) * (y * y));
    assert both * both == 4.0 * (gq * hp) + (gq - hp) * (gq - hp);
    AtMost(cross, both);
  }

  /** The square of a sum of two products. */
  lemma SquareOfSum(x: real, y: real, g: real, h: real, p: real, q: real)
    requires g >= 0.0 && h >= 0.0 && p >= 0.0 && q >= 0.0 && x * x <= g * p && y * y <= h * q
    ensures (x + y) * (x + y) <= (g + h) * (p + q)
  {
    Product(g, q);
    Product(h, p);
    Product(g, p);
    Product(h, q);
    assert (g * p) * (h * q) == (g * q) * (h * p);
    Cross(x, y, g * p, h * q, g * q, h * p);
  }

  lemma OneProduct(r: real, l: real, x2: real, s: real)
    requires r * r <= 225.0 / 16.0 * (x2 * s)
    ensures (r * l) * (r * l) <= (225.0 / 16.0 * x2) * (s * (l * l))
  {
    SquareNotNegative(l);
    Product(l * l, 225.0 / 16.0 * (x2 * s) - r * r);
    assert (l * l) * (225.0 / 16.0 * (x2 * s) - r * r) == (225.0 / 16.0 * x2) * (s * (l * l)) - (r * l) * (r * l);
  }

  /** A step made of two, by the squares of the ways along the axes. */
  lemma StepSquared(ru: real, rv: real, lx: real, ly: real, x2: real, y2: real, us: real, vs: real, step: real)
    requires us >= 0.0 && vs >= 0.0 && x2 >= 0.0 && y2 >= 0.0 && us * (lx * lx) + vs * (ly * ly) <= 0.25
    requires ru * ru <= 225.0 / 16.0 * (x2 * us) && rv * rv <= 225.0 / 16.0 * (y2 * vs)
    requires step == ru * lx + rv * ly
    ensures step * step <= 225.0 / 64.0 * (x2 + y2)
  {
    var p, q, g, h := us * (lx * lx), vs * (ly * ly), 225.0 / 16.0 * x2, 225.0 / 16.0 * y2;
    SquareNotNegative(lx);
    SquareNotNegative(ly);
    Product(us, lx * lx);
    Product(vs, ly * ly);
    OneProduct(ru, lx, x2, us);
    OneProduct(rv, ly, y2, vs);
    SquareOfSum(ru * lx, rv * ly, g, h, p, q);
    Product(g + h, 0.25 - (p + q));
  }

  lemma Spreads(a: real, b: real, c: real, d: real, um: real, vm: real, us: real, vs: real,
                p: real, q: real, e: real, lx: real, ly: real)
    requires InUnit(a) && InUnit(b) && InUnit(c) && InUnit(d) && InUnit(um) && InUnit(vm)
    requires us == um * (1.0 - um) && vs == vm * (1.0 - vm)
    requires p == b - a && q == c - a && e == d - c - p && lx == p + e * vm && ly == q + e * um
    ensures us >= 0.0 && vs >= 0.0 && us * (lx * lx) + vs * (ly * ly) <= 0.25
  {
    LerpIs(p, d - c, vm, e);
    LerpIs(q, d - b, um, e);
    SpreadBound(a, b, c, d, um, vm, us, vs, lx, ly);
  }

  lemma CellSpreads(k: Corners, x: Way, y: Way, lx: real, ly: real)
    requires Unit(k) && Faded(x) && Faded(y) && lx == k.p + k.e * y.um && ly == k.q + k.e * x.um
    ensures x.us >= 0.0 && y.us >= 0.0 && x.us * (lx * lx) + y.us * (ly * ly) <= 0.25
  {
    Spreads(k.a, k.b, k.c, k.d, x.um, y.um, x.us, y.us, k.p, k.q, k.e, lx, ly);
  }

  lemma CellSteps(x: Way, y: Way, lx: real, ly: real, step: real)
    requires Faded(x) && Faded(y) && step == x.du * lx + y.du * ly
    requires x.us >= 0.0 && y.us >= 0.0 && x.us * (lx * lx) + y.us * (ly * ly) <= 0.25
    ensures step * step <= 225.0 / 64.0 * (x.squared + y.squared)
  {
    StepSquared(x.du, y.du, lx, ly, x.squared, y.squared, x.us, y.us, step);
  }

  ghost function Expansion(k: Corners, u: real, v: real): real { k.a + k.p * u + k.q * v + k.e * (u * v) }

  lemma BilerpExpanded(k: Corners, u: real, v: real)
    requires Unit(k)
    ensures Bilerp(k.a, k.b, k.c, k.d, u, v) == Expansion(k, u, v)
  {
  }

  lemma CellGaps(k: Corners, x: Way, y: Way, lx: real, ly: real, n1: real, n2: real, step: real)
    requires x.um == (x.u1 + x.u2) / 2.0 && x.du == x.u2 - x.u1 && y.um == (y.u1 + y.u2) / 2.0 && y.du == y.u2 - y.u1
    requires lx == k.p + k.e * y.um && ly == k.q + k.e * x.um && step == n2 - n1
    requires n1 == Expansion(k, x.u1, y.u1) && n2 == Expansion(k, x.u2, y.u2)
    ensures step == x.du * lx + y.du * ly
  {
    CellDifference(k.a, k.p, k.q, k.e, x.u1, y.u1, n1, x.u2, y.u2, n2, x.um, y.um, lx, ly, x.du, y.du, step);
  }

  /** The slopes along the axes, each halfway along the other. */
  lemma Halfway(k: Corners, x: Way, y: Way, n1: real, n2: real) returns (lx: real, ly: real, step: real)
    ensures lx == k.p + k.e * y.um && ly == k.q + k.e * x.um && step == n2 - n1
  {
    lx, ly, step := k.p + k.e * y.um, k.q + k.e * x.um, n2 - n1;
  }

  lemma ExpandedStep(k: Corners, x: Way, y: Way, n1: real, n2: real) returns (step: real)
    requires Unit(k) && Faded(x) && Faded(y)
    requires n1 == Expansion(k, x.u1, y.u1) && n2 == Expansion(k, x.u2, y.u2)
    ensures step == n2 - n1 && step * step <= 225.0 / 64.0 * (x.squared + y.squared)
  {
    var lx, ly;
    lx, ly, step := Halfway(k, x, y, n1, n2);
    CellGaps(k, x, y, lx, ly, n1, n2, step);
    CellSpreads(k, x, y, lx, ly);
    CellSteps(x, y, lx, ly, step);
  }

  /** Between two places of one cell its values change by at most 15/8 of the distance. */
  lemma CellStep(k: Corners, x: Way, y: Way, n1: real, n2: real) returns (step: real)
    requires Unit(k) && Faded(x) && Faded(y)
    requires n1 == Bilerp(k.a, k.b, k.c, k.d, x.u1, y.u1) && n2 == Bilerp(k.a, k.b, k.c, k.d, x.u2, y.u2)
    ensures step == n2 - n1 && step * step <= 225.0 / 64.0 * (x.squared + y.squared)
  {
    BilerpExpanded(k, x.u1, y.u1);
    BilerpExpanded(k, x.u2, y.u2);
    step := ExpandedStep(k, x, y, n1, n2);
  }
}
