/** The procedural terrain (`terrain::heightAt`), over the reals: how high and how
    steep it can be. */
module Terrain {
  import opened Common
  import opened Slopes

  const OCTAVES := 5

  // The other tuning constants are written out where they are used, so that every
  // product with one of them is linear: a base wavelength of 340, a lacunarity of
  // 2.03, a gain of 0.5, an amplitude of 110, and a smoothing radius of half the
  // mesh spacing, 1024 / 512 * 0.5 = 1.

  /** The mixing of a place's two coordinates, in 32 bits. */
  function Mixed(x: bv32, y: bv32): bv32 {
    var h: bv32 := 0x9E3779B9;
    var h := h ^ (x * 0x85EBCA6B);
    var h := h ^ (y * 0xC2B2AE35);
    var h := (h ^ (h >> 15)) * 0x2545F491;
    var h := (h ^ (h >> 13)) * 0x3B9ACB93;
    h ^ (h >> 16)
  }

  /** An integer as the cast to `uint32_t` leaves it. */
  function Unsigned(v: int): bv32 { (v % 0x1_0000_0000) as bv32 }

  function Low24(h: bv32): bv24 { (h & 0x00FF_FFFF) as bv24 }

  function Fraction(h: bv24): (r: real)
    ensures 0.0 <= r < 1.0
  {
    h as int as real / 16777216.0
  }

  /** The lattice value at (x, y), in [0, 1). */
  function Hash(x: int, y: int): (r: real)
    ensures 0.0 <= r < 1.0
  {
    Fraction(Low24(Mixed(Unsigned(x), Unsigned(y))))
  }

  /** The mixing worked out by hand: at (5, 7), and at (-3, 7). */
  lemma MixedExamples()
    ensures Low24(Mixed(5, 7)) == 15533127 && Low24(Mixed(0xFFFF_FFFD, 7)) == 2135695
  {
  }

  lemma HashExample()
    ensures Hash(5, 7) == 15533127.0 / 16777216.0
  {
    MixedExamples();
    assert Unsigned(5) == 5 && Unsigned(7) == 7;
    assert Fraction(15533127) == 15533127.0 / 16777216.0;
  }

  type Lattice = (int, int) -> real

  /** A height, or a noise, at every place. */
  type Field = (real, real) -> real

  /** `valueNoise` over a lattice of values, `Hash` in the code. */
  function Noise(h: Lattice, x: real, y: real): real {
    var cellX, cellY := x.Floor, y.Floor;
    var fx, fy := Fade(x - cellX as real), Fade(y - cellY as real);
    var topLeft, topRight := h(cellX, cellY), h(cellX + 1, cellY);
    var bottomLeft, bottomRight := h(cellX, cellY + 1), h(cellX + 1, cellY + 1);
    var top := topLeft + (topRight - topLeft) * fx;
    var bottom := bottomLeft + (bottomRight - bottomLeft) * fx;
    top + (bottom - top) * fy
  }

  // ------------------------------------------------------------ value noise

  ghost predicate UnitLattice(h: Lattice) {
    forall i, j :: InUnit(h(i, j))
  }

  lemma NoiseRange(h: Lattice, x: real, y: real)
    requires UnitLattice(h)
    ensures 0.0 <= Noise(h, x, y) <= 1.0
  {
    var i, j := x.Floor, y.Floor;
    var u, v := Fade(x - i as real), Fade(y - j as real);
    FadeRange(x - i as real);
    FadeRange(y - j as real);
    ClosedCell(h, i, j, x, y);
    assert InUnit(h(i, j)) && InUnit(h(i + 1, j)) && InUnit(h(i, j + 1)) && InUnit(h(i + 1, j + 1));
    LerpRange(h(i, j), h(i + 1, j), u);
    LerpRange(h(i, j + 1), h(i + 1, j + 1), u);
    LerpRange(Lerp(h(i, j), h(i + 1, j), u), Lerp(h(i, j + 1), h(i + 1, j + 1), u), v);
  }

  ghost predicate InCell(i: int, x: real) { i as real <= x <= (i + 1) as real }

  /** On a closed cell's far side the floor is that of the next cell. */
  lemma CellEnd(i: int, x: real)
    requires InCell(i, x)
    ensures x.Floor == i || (x.Floor == i + 1 && Fade(x - i as real) == 1.0 && Fade(x - x.Floor as real) == 0.0)
  {
    FadeEnds();
    if x == (i + 1) as real {
      assert x.Floor == i + 1 && x - i as real == 1.0 && x - x.Floor as real == 0.0;
    }
  }

  /** The formula of cell (i, j) holds on the whole closed cell: the noise has no seams. */
  lemma ClosedCell(h: Lattice, i: int, j: int, x: real, y: real)
    requires InCell(i, x) && InCell(j, y)
    ensures Noise(h, x, y) == Bilerp(h(i, j), h(i + 1, j), h(i, j + 1), h(i + 1, j + 1),
                                     Fade(x - i as real), Fade(y - j as real))
  {
    CellEnd(i, x);
    CellEnd(j, y);
  }

  /** At a lattice point the noise has the lattice value. */
  lemma NoiseAtLattice(h: Lattice, i: int, j: int)
    ensures Noise(h, i as real, j as real) == h(i, j)
  {
    FadeEnds();
    assert (i as real).Floor == i && (j as real).Floor == j;
  }

  /** d is no less than the distance between two places. */
  predicate Near(x1: real, y1: real, x2: real, y2: real, d: real) {
    d >= 0.0 && (x2 - x1) * (x2 - x1) + (y2 - y1) * (y2 - y1) <= d * d
  }

  lemma CellCorners(h: Lattice, i: int, j: int) returns (k: Corners)
    requires UnitLattice(h)
    ensures Unit(k) && k.a == h(i, j) && k.b == h(i + 1, j) && k.c == h(i, j + 1) && k.d == h(i + 1, j + 1)
  {
    var a, b, c, d := h(i, j), h(i + 1, j), h(i, j + 1), h(i + 1, j + 1);
    k := Corners(a, b, c, d, b - a, c - a, d - c - (b - a));
  }

  lemma CellNoise(h: Lattice, i: int, j: int, k: Corners, x: real, y: real, u: real, v: real) returns (n: real)
    requires Unit(k) && k.a == h(i, j) && k.b == h(i + 1, j) && k.c == h(i, j + 1) && k.d == h(i + 1, j + 1)
    requires InCell(i, x) && InCell(j, y) && u == Fade(x - i as real) && v == Fade(y - j as real)
    ensures n == Noise(h, x, y) && n == Bilerp(k.a, k.b, k.c, k.d, u, v)
  {
    n := Noise(h, x, y);
    ClosedCell(h, i, j, x, y);
  }

  lemma CellWay(i: int, x1: real, x2: real, way: real) returns (w: Way)
    requires InCell(i, x1) && InCell(i, x2) && way == x2 - x1
    ensures Faded(w) && w.squared == way * way && w.u1 == Fade(x1 - i as real) && w.u2 == Fade(x2 - i as real)
  {
    w := FadeStep(x1 - i as real, x2 - i as real, way);
  }

  lemma CellSlope(h: Lattice, i: int, j: int, x1: real, y1: real, x2: real, y2: real, d: real)
    requires UnitLattice(h) && Near(x1, y1, x2, y2, d)
    requires InCell(i, x1) && InCell(i, x2) && InCell(j, y1) && InCell(j, y2)
    ensures Abs(Noise(h, x2, y2) - Noise(h, x1, y1)) <= 1.875 * d
  {
    var wx, wy := Ways(x1, y1, x2, y2, d);
    var k := CellCorners(h, i, j);
    var x := CellWay(i, x1, x2, wx);
    var y := CellWay(j, y1, y2, wy);
    var n1 := CellNoise(h, i, j, k, x1, y1, x.u1, y.u1);
    var n2 := CellNoise(h, i, j, k, x2, y2, x.u2, y.u2);
    PlacesSlope(k, x, y, n1, n2, wx * wx + wy * wy, d);
  }

  lemma Ways(x1: real, y1: real, x2: real, y2: real, d: real) returns (wx: real, wy: real)
    requires Near(x1, y1, x2, y2, d)
    ensures wx == x2 - x1 && wy == y2 - y1 && d >= 0.0 && wx * wx + wy * wy <= d * d
  {
    wx, wy := x2 - x1, y2 - y1;
  }

  lemma PlacesSlope(k: Corners, x: Way, y: Way, n1: real, n2: real, squared: real, d: real)
    requires Unit(k) && Faded(x) && Faded(y) && squared == x.squared + y.squared
    requires n1 == Bilerp(k.a, k.b, k.c, k.d, x.u1, y.u1) && n2 == Bilerp(k.a, k.b, k.c, k.d, x.u2, y.u2)
    requires d >= 0.0 && squared <= d * d
    ensures Abs(n2 - n1) <= 1.875 * d
  {
    var step := CellStep(k, x, y, n1, n2);
    SlopeOfSquare(step, squared, d);
  }

  lemma SlopeOfSquare(step: real, squared: real, d: real)
    requires d >= 0.0 && squared <= d * d && step * step <= 225.0 / 64.0 * squared
    ensures Abs(step) <= 1.875 * d
  {
    assert (1.875 * d) * (1.875 * d) == 225.0 / 64.0 * (d * d);
    AtMost(step, 1.875 * d);
  }

  lemma PartSquared(x: real, y: real, d: real, t: real, px: real, py: real, near: real)
    requires x * x + y * y <= d * d && px == t * x && py == t * y && near == t * d
    ensures px * px + py * py <= near * near
  {
    SquareNotNegative(t);
    Product(t * t, d * d - (x * x + y * y));
    assert px * px == (t * t) * (x * x) && py * py == (t * t) * (y * y) && near * near == (t * t) * (d * d);
  }

  /** A part t of the way between a and b. */
  lemma Part(a: real, b: real, t: real, way: real) returns (m: real, there: real, on: real)
    requires way == b - a
    ensures m == a + t * (b - a) && there == m - a && there == t * way && on == b - m && on == (1.0 - t) * way
  {
    m := a + t * (b - a);
    there, on := m - a, b - m;
  }

  /** The place a part t of the way from one to another, and how near it is to both. */
  lemma PartWay(x1: real, y1: real, x2: real, y2: real, d: real, t: real) returns (x: real, y: real, near: real, far: real)
    requires Near(x1, y1, x2, y2, d) && 0.0 <= t <= 1.0
    ensures x == x1 + t * (x2 - x1) && y == y1 + t * (y2 - y1) && near + far == d
    ensures Near(x1, y1, x, y, near) && Near(x, y, x2, y2, far)
  {
    var wx, wy := Ways(x1, y1, x2, y2, d);
    var px, qx, py, qy;
    x, px, qx := Part(x1, x2, t, wx);
    y, py, qy := Part(y1, y2, t, wy);
    near, far := t * d, (1.0 - t) * d;
    Product(t, d);
    Product(1.0 - t, d);
    PartSquared(wx, wy, d, t, px, py, near);
    PartSquared(wx, wy, d, 1.0 - t, qx, qy, far);
  }

  lemma NearBack(x1: real, y1: real, x2: real, y2: real, d: real)
    ensures Near(x1, y1, x2, y2, d) <==> Near(x2, y2, x1, y1, d)
  {
    assert (x2 - x1) * (x2 - x1) == (x1 - x2) * (x1 - x2) && (y2 - y1) * (y2 - y1) == (y1 - y2) * (y1 - y2);
  }

  /** Where a way from a to b crosses a line between them. */
  lemma Crossing(a: real, b: real, line: real) returns (t: real)
    requires a <= line <= b && a < b
    ensures 0.0 <= t <= 1.0 && a + t * (b - a) == line
  {
    t := (line - a) / (b - a);
  }

  lemma Mixture(a: real, b: real, t: real, low: real, high: real)
    requires low <= a <= high && low <= b <= high && 0.0 <= t <= 1.0
    ensures low <= a + t * (b - a) <= high
  {
    var s := 1.0 - t;
    var m := s * a + t * b;
    assert m == a + t * (b - a);
    Product(s, a - low);
    Product(t, b - low);
    assert m - low == s * (a - low) + t * (b - low);
    Product(s, high - a);
    Product(t, high - b);
    assert high - m == s * (high - a) + t * (high - b);
  }

  lemma Between(a: real, b: real, t: real, i: int)
    requires InCell(i, a) && InCell(i, b) && 0.0 <= t <= 1.0
    ensures InCell(i, a + t * (b - a))
  {
    Mixture(a, b, t, i as real, (i + 1) as real);
  }

  /** Within a column of cells, a way going up: cut where it crosses the rows. */
  lemma {:induction false} ClimbSlope(h: Lattice, i: int, x1: real, y1: real, x2: real, y2: real, d: real)
    requires UnitLattice(h) && Near(x1, y1, x2, y2, d) && InCell(i, x1) && InCell(i, x2) && y1 <= y2
    ensures Abs(Noise(h, x2, y2) - Noise(h, x1, y1)) <= 1.875 * d
    decreases y2.Floor - y1.Floor
  {
    if y1.Floor == y2.Floor {
      CellSlope(h, i, y1.Floor, x1, y1, x2, y2, d);
    } else {
      var line := (y1.Floor + 1) as real;
      var t := Crossing(y1, y2, line);
      var x, y, near, far := PartWay(x1, y1, x2, y2, d, t);
      Between(x1, x2, t, i);
      CellSlope(h, i, y1.Floor, x1, y1, x, y, near);
      ClimbSlope(h, i, x, y, x2, y2, far);
    }
  }

  lemma ColumnSlope(h: Lattice, i: int, x1: real, y1: real, x2: real, y2: real, d: real)
    requires UnitLattice(h) && Near(x1, y1, x2, y2, d) && InCell(i, x1) && InCell(i, x2)
    ensures Abs(Noise(h, x2, y2) - Noise(h, x1, y1)) <= 1.875 * d
  {
    NearBack(x1, y1, x2, y2, d);
    if y1 <= y2 { ClimbSlope(h, i, x1, y1, x2, y2, d); } else { ClimbSlope(h, i, x2, y2, x1, y1, d); }
  }

  /** Any way to the right: cut where it crosses the columns. */
  lemma {:induction false} RightSlope(h: Lattice, x1: real, y1: real, x2: real, y2: real, d: real)
    requires UnitLattice(h) && Near(x1, y1, x2, y2, d) && x1 <= x2
    ensures Abs(Noise(h, x2, y2) - Noise(h, x1, y1)) <= 1.875 * d
    decreases x2.Floor - x1.Floor
  {
    if x1.Floor == x2.Floor {
      ColumnSlope(h, x1.Floor, x1, y1, x2, y2, d);
    } else {
      var line := (x1.Floor + 1) as real;
      var t := Crossing(x1, x2, line);
      var x, y, near, far := PartWay(x1, y1, x2, y2, d, t);
      ColumnSlope(h, x1.Floor, x1, y1, x, y, near);
      RightSlope(h, x, y, x2, y2, far);
    }
  }

  /** Between any two places the noise changes by at most 15/8 of their distance. */
  lemma NoiseSlope(h: Lattice, x1: real, y1: real, x2: real, y2: real, d: real)
    requires UnitLattice(h) && Near(x1, y1, x2, y2, d)
    ensures Abs(Noise(h, x2, y2) - Noise(h, x1, y1)) <= 1.875 * d
  {
    NearBack(x1, y1, x2, y2, d);
    if x1 <= x2 { RightSlope(h, x1, y1, x2, y2, d); } else { RightSlope(h, x2, y2, x1, y1, d); }
  }

  // ------------------------------------------------------------- the height

  datatype Octave = Octave(frequency: real, amplitude: real)

  const COARSEST := Octave(1.0 / 340.0, 1.0)

  function Finer(o: Octave): Octave { Octave(o.frequency * 2.03, o.amplitude * 0.5) }

  ghost function Octaves(n: nat): (o: seq<Octave>)
    ensures |o| == n
    ensures n > 0 ==> o[0] == COARSEST
    ensures forall k :: 0 < k < n ==> o[k] == Finer(o[k - 1])
  {
    if n <= 1 then seq(n, _ => COARSEST)
    else
      var rest := Octaves(n - 1);
      rest + [Finer(rest[n - 2])]
  }

  ghost function Sum(s: seq<real>): real {
    if s == [] then 0.0 else Sum(s[..|s| - 1]) + s[|s| - 1]
  }

  /** A product by name, so that places are compared by their factors. */
  function Times(a: real, b: real): real { a * b }

  function Sample(noise: Field, x: real, z: real, o: Octave): real {
    Times(noise(Times(x, o.frequency), Times(z, o.frequency)), o.amplitude)
  }

  ghost function Samples(noise: Field, x: real, z: real): (s: seq<real>)
    ensures |s| == OCTAVES
  {
    var o := Octaves(OCTAVES);
    seq(OCTAVES, k requires 0 <= k < OCTAVES => Sample(noise, x, z, o[k]))
  }

  ghost function Amplitudes(): (s: seq<real>)
    ensures |s| == OCTAVES
  {
    seq(OCTAVES, k requires 0 <= k < OCTAVES => Octaves(OCTAVES)[k].amplitude)
  }

  lemma SumOfFive(s: seq<real>)
    requires |s| == 5
    ensures Sum(s) == s[0] + s[1] + s[2] + s[3] + s[4]
  {
    assert s[..4][..3] == s[..3] && s[..3][..2] == s[..2] && s[..2][..1] == s[..1] && s[..1][..0] == [];
    assert Sum(s[..1]) == s[0];
    assert Sum(s[..2]) == s[0] + s[1];
    assert Sum(s[..3]) == s[0] + s[1] + s[2];
    assert Sum(s[..4]) == s[0] + s[1] + s[2] + s[3];
  }

  lemma FiveOctaves()
    ensures Octaves(OCTAVES) == [Octave(1.0 / 340.0, 1.0), Octave(2.03 / 340.0, 0.5), Octave(4.1209 / 340.0, 0.25),
                                 Octave(8.365427 / 340.0, 0.125), Octave(16.98181681 / 340.0, 0.0625)]
    ensures Sum(Amplitudes()) == 1.9375
  {
    var o := Octaves(OCTAVES);
    assert o[1] == Finer(o[0]) && o[2] == Finer(o[1]) && o[3] == Finer(o[2]) && o[4] == Finer(o[3]);
    SumOfFive(Amplitudes());
  }

  function Combined(s0: real, s1: real, s2: real, s3: real, s4: real): real {
    ((s0 + s1 * 0.5 + s2 * 0.25 + s3 * 0.125 + s4 * 0.0625) / 1.9375 * 2.0 - 1.0) * 110.0 * 0.5
  }

  ghost function Stretched(noise: Field, x: real, z: real, f: real): real { noise(Times(x, f), Times(z, f)) }

  /** The raw height in closed form. */
  ghost function RawHeight(noise: Field, x: real, z: real): real {
    Combined(Stretched(noise, x, z, 1.0 / 340.0), Stretched(noise, x, z, 2.03 / 340.0), Stretched(noise, x, z, 4.1209 / 340.0),
             Stretched(noise, x, z, 8.365427 / 340.0), Stretched(noise, x, z, 16.98181681 / 340.0))
  }

  lemma RawHeightIsTheSum(noise: Field, x: real, z: real)
    ensures Sum(Amplitudes()) != 0.0
    ensures RawHeight(noise, x, z)
         == (Sum(Samples(noise, x, z)) / Sum(Amplitudes()) * 2.0 - 1.0) * 110.0 * 0.5
  {
    FiveOctaves();
    SumOfFive(Samples(noise, x, z));
  }

  /** The noise is 1 at one place only. */
  ghost predicate Spike(noise: Field, x: real, z: real) {
    forall u, v :: noise(u, v) == if u == x && v == z then 1.0 else 0.0
  }

  /** What each octave adds: over a noise that is 1 just where it is sampled for one octave,
      the height is that octave's share of the range. */
  lemma OctaveAlone(noise: Field, x: real, z: real, k: nat)
    requires k < 5 && x != 0.0
    requires var scale := [1.0, 2.03, 4.1209, 8.365427, 16.98181681][k]; Spike(noise, Times(x / 340.0, scale), Times(z / 340.0, scale))
    ensures var share := [16.0, 8.0, 4.0, 2.0, 1.0][k]; RawHeight(noise, x, z) == -55.0 + 110.0 * share / 31.0
  {
  }

  /** The octave loop. */
  method ComputeRawHeight(noise: Field, x: real, z: real) returns (h: real)
    ensures h == RawHeight(noise, x, z)
  {
    ghost var o, s, a := Octaves(OCTAVES), Samples(noise, x, z), Amplitudes();
    var frequency, amplitude, total, normalisation := 1.0 / 340.0, 1.0, 0.0, 0.0;
    for octave := 0 to OCTAVES
      invariant octave < OCTAVES ==> o[octave] == Octave(frequency, amplitude)
      invariant total == Sum(s[..octave]) && normalisation == Sum(a[..octave])
    {
      assert s[..octave + 1][..octave] == s[..octave] && a[..octave + 1][..octave] == a[..octave];
      assert s[octave] == Sample(noise, x, z, Octave(frequency, amplitude));
      assert Sum(s[..octave + 1]) == Sum(s[..octave]) + s[octave];
      assert Sum(a[..octave + 1]) == Sum(a[..octave]) + a[octave];
      total := total + Times(noise(Times(x, frequency), Times(z, frequency)), amplitude);
      normalisation := normalisation + amplitude;
      frequency := frequency * 2.03;
      amplitude := amplitude * 0.5;
    }
    assert s[..OCTAVES] == s && a[..OCTAVES] == a;
    RawHeightIsTheSum(noise, x, z);
    var unit := total / normalisation * 2.0 - 1.0;
    h := unit * 110.0 * 0.5;
  }

  /** The smoothing kernel's weights. */
  function Kernel(c: real, l: real, r: real, b: real, f: real): real { c * 0.5 + (l + r + b + f) * 0.125 }

  /** A field under the code's smoothing kernel. */
  ghost function Smoothed(raw: Field, x: real, z: real): real {
    Kernel(raw(x, z), raw(x - 1.0, z), raw(x + 1.0, z),
           raw(x, z - 1.0), raw(x, z + 1.0))
  }

  ghost function NoiseField(h: Lattice): Field { (x, y) => Noise(h, x, y) }

  ghost function RawField(noise: Field): Field { (x, z) => RawHeight(noise, x, z) }

  ghost function SmoothField(raw: Field): Field { (x, z) => Smoothed(raw, x, z) }

  /** `heightAt` over a lattice of values. */
  ghost function Height(h: Lattice): Field { SmoothField(RawField(NoiseField(h))) }

  /** `heightAt`, over any noise. */
  method HeightAt(noise: Field, x: real, z: real) returns (y: real)
    ensures y == Kernel(RawHeight(noise, x, z),
                        RawHeight(noise, x - 1.0, z), RawHeight(noise, x + 1.0, z),
                        RawHeight(noise, x, z - 1.0), RawHeight(noise, x, z + 1.0))
  {
    var centre := ComputeRawHeight(noise, x, z);
    var left := ComputeRawHeight(noise, x - 1.0, z);
    var right := ComputeRawHeight(noise, x + 1.0, z);
    var back := ComputeRawHeight(noise, x, z - 1.0);
    var front := ComputeRawHeight(noise, x, z + 1.0);
    y := centre * 0.5 + (left + right + back + front) * 0.125;
  }

  /** On a plane the kernel changes nothing; curvature it flattens by what it should. This
      fixes all five weights and the distance of the samples. */
  lemma KernelOnCurves(raw: Field, a: real, b: real, c: real, d: real, e: real, x: real, z: real)
    requires forall u, v :: raw(u, v) == a + b * u + c * v + d * (u * u) + e * (v * v)
    ensures Smoothed(raw, x, z) == raw(x, z) + (d + e) / 4.0
  {
    assert (x - 1.0) * (x - 1.0) + (x + 1.0) * (x + 1.0) == 2.0 * (x * x) + 2.0;
    assert (z - 1.0) * (z - 1.0) + (z + 1.0) * (z + 1.0) == 2.0 * (z * z) + 2.0;
  }

  lemma HeightIs(h: Lattice, x: real, z: real)
    ensures Height(h)(x, z)
         == Kernel(RawHeight(NoiseField(h), x, z),
                   RawHeight(NoiseField(h), x - 1.0, z), RawHeight(NoiseField(h), x + 1.0, z),
                   RawHeight(NoiseField(h), x, z - 1.0), RawHeight(NoiseField(h), x, z + 1.0))
  {
  }

  // ------------------------------------------------- its bounds and its slope

  predicate Gentle(f: Field, x1: real, z1: real, x2: real, z2: real, slope: real, d: real) {
    Abs(f(x2, z2) - f(x1, z1)) <= slope * d
  }

  /** A field in [lo, hi] that in no direction changes by more than `slope` per unit. */
  ghost predicate Tame(f: Field, lo: real, hi: real, slope: real) {
    && (forall x, z :: lo <= f(x, z) <= hi)
    && (forall x1, z1, x2, z2, d :: Near(x1, z1, x2, z2, d) ==> Gentle(f, x1, z1, x2, z2, slope, d))
  }

  /** A noise stretched to frequency f is f times as steep. */
  lemma StretchedSlope(noise: Field, f: real, x1: real, z1: real, x2: real, z2: real, d: real)
    requires Tame(noise, 0.0, 1.0, 1.875) && f > 0.0 && Near(x1, z1, x2, z2, d)
    ensures Abs(Stretched(noise, x2, z2, f) - Stretched(noise, x1, z1, f)) <= 1.875 * (d * f)
  {
    StretchedNear(x1, z1, x2, z2, d, f);
    assert Gentle(noise, Times(x1, f), Times(z1, f), Times(x2, f), Times(z2, f), 1.875, d * f);
  }

  lemma StretchedNear(x1: real, z1: real, x2: real, z2: real, d: real, f: real)
    requires Near(x1, z1, x2, z2, d) && f > 0.0
    ensures Near(Times(x1, f), Times(z1, f), Times(x2, f), Times(z2, f), d * f)
  {
    Product(d, f);
    PartSquared(x2 - x1, z2 - z1, d, f, x2 * f - x1 * f, z2 * f - z1 * f, d * f);
  }

  /** Sums of the octaves' changes. */
  lemma CombinedSlope(a0: real, a1: real, a2: real, a3: real, a4: real,
                      b0: real, b1: real, b2: real, b3: real, b4: real, d: real)
    requires Abs(b0 - a0) <= 1.875 * (d * (1.0 / 340.0)) && Abs(b1 - a1) <= 1.875 * (d * (2.03 / 340.0))
    requires Abs(b2 - a2) <= 1.875 * (d * (4.1209 / 340.0)) && Abs(b3 - a3) <= 1.875 * (d * (8.365427 / 340.0))
    requires Abs(b4 - a4) <= 1.875 * (d * (16.98181681 / 340.0)) && d >= 0.0
    ensures Abs(Combined(b0, b1, b2, b3, b4) - Combined(a0, a1, a2, a3, a4)) <= 1.6132 * d
  {
  }

  lemma OctaveSlopes(noise: Field, x1: real, z1: real, x2: real, z2: real, d: real, frequency: real)
    returns (a: real, b: real)
    requires Tame(noise, 0.0, 1.0, 1.875) && Near(x1, z1, x2, z2, d) && frequency > 0.0
    ensures a == Stretched(noise, x1, z1, frequency) && b == Stretched(noise, x2, z2, frequency)
    ensures Abs(b - a) <= 1.875 * (d * frequency)
  {
    StretchedSlope(noise, frequency, x1, z1, x2, z2, d);
    a, b := Stretched(noise, x1, z1, frequency), Stretched(noise, x2, z2, frequency);
  }

  lemma RawHeightSlope(noise: Field, x1: real, z1: real, x2: real, z2: real, d: real)
    requires Tame(noise, 0.0, 1.0, 1.875) && Near(x1, z1, x2, z2, d)
    ensures Abs(RawHeight(noise, x2, z2) - RawHeight(noise, x1, z1)) <= 1.6132 * d
  {
    var a0, b0 := OctaveSlopes(noise, x1, z1, x2, z2, d, 1.0 / 340.0);
    var a1, b1 := OctaveSlopes(noise, x1, z1, x2, z2, d, 2.03 / 340.0);
    var a2, b2 := OctaveSlopes(noise, x1, z1, x2, z2, d, 4.1209 / 340.0);
    var a3, b3 := OctaveSlopes(noise, x1, z1, x2, z2, d, 8.365427 / 340.0);
    var a4, b4 := OctaveSlopes(noise, x1, z1, x2, z2, d, 16.98181681 / 340.0);
    CombinedSlope(a0, a1, a2, a3, a4, b0, b1, b2, b3, b4, d);
  }

  lemma RawFieldTame(noise: Field)
    requires Tame(noise, 0.0, 1.0, 1.875)
    ensures Tame(RawField(noise), -55.0, 55.0, 1.6132)
  {
    forall x, z ensures -55.0 <= RawField(noise)(x, z) <= 55.0 {
    }
    forall x1, z1, x2, z2, d | Near(x1, z1, x2, z2, d) ensures Gentle(RawField(noise), x1, z1, x2, z2, 1.6132, d) {
      RawHeightSlope(noise, x1, z1, x2, z2, d);
    }
  }

  /** One of the kernel's samples, both places shifted alike. */
  lemma ShiftedSlope(f: Field, x1: real, z1: real, x2: real, z2: real, d: real, u1: real, v1: real, u2: real, v2: real)
    returns (a: real, b: real)
    requires Tame(f, -55.0, 55.0, 1.6132) && Near(x1, z1, x2, z2, d) && u2 - u1 == x2 - x1 && v2 - v1 == z2 - z1
    ensures a == f(u1, v1) && b == f(u2, v2) && Abs(b - a) <= 1.6132 * d
  {
    assert Near(u1, v1, u2, v2, d);
    assert Gentle(f, u1, v1, u2, v2, 1.6132, d);
    a, b := f(u1, v1), f(u2, v2);
  }

  lemma SmoothedSlope(raw: Field, x1: real, z1: real, x2: real, z2: real, d: real)
    requires Tame(raw, -55.0, 55.0, 1.6132) && Near(x1, z1, x2, z2, d)
    ensures Abs(Smoothed(raw, x2, z2) - Smoothed(raw, x1, z1)) <= 1.6132 * d
  {
    var c1, c2 := ShiftedSlope(raw, x1, z1, x2, z2, d, x1, z1, x2, z2);
    var l1, l2 := ShiftedSlope(raw, x1, z1, x2, z2, d, x1 - 1.0, z1, x2 - 1.0, z2);
    var r1, r2 := ShiftedSlope(raw, x1, z1, x2, z2, d, x1 + 1.0, z1, x2 + 1.0, z2);
    var b1, b2 := ShiftedSlope(raw, x1, z1, x2, z2, d, x1, z1 - 1.0, x2, z2 - 1.0);
    var f1, f2 := ShiftedSlope(raw, x1, z1, x2, z2, d, x1, z1 + 1.0, x2, z2 + 1.0);
    KernelSlope(c1, l1, r1, b1, f1, c2, l2, r2, b2, f2, 1.6132 * d);
  }

  lemma KernelSlope(c1: real, l1: real, r1: real, b1: real, f1: real,
                    c2: real, l2: real, r2: real, b2: real, f2: real, most: real)
    requires Abs(c2 - c1) <= most && Abs(l2 - l1) <= most && Abs(r2 - r1) <= most
    requires Abs(b2 - b1) <= most && Abs(f2 - f1) <= most
    ensures Abs(Kernel(c2, l2, r2, b2, f2) - Kernel(c1, l1, r1, b1, f1)) <= most
  {
  }

  /** The kernel's weights add up to one. */
  lemma Weighted(c: real, l: real, r: real, b: real, f: real, most: real)
    requires Abs(c) <= most && Abs(l) <= most && Abs(r) <= most && Abs(b) <= most && Abs(f) <= most
    ensures Abs(Kernel(c, l, r, b, f)) <= most
  {
  }

  lemma SmoothFieldTame(raw: Field)
    requires Tame(raw, -55.0, 55.0, 1.6132)
    ensures Tame(SmoothField(raw), -55.0, 55.0, 1.6132)
  {
    forall x, z ensures -55.0 <= SmoothField(raw)(x, z) <= 55.0 {
      Weighted(raw(x, z), raw(x - 1.0, z), raw(x + 1.0, z), raw(x, z - 1.0),
               raw(x, z + 1.0), 55.0);
    }
    forall x1, z1, x2, z2, d | Near(x1, z1, x2, z2, d) ensures Gentle(SmoothField(raw), x1, z1, x2, z2, 1.6132, d) {
      SmoothedSlope(raw, x1, z1, x2, z2, d);
    }
  }

  /** `valueNoise` lies in [0, 1] and changes by at most 15/8 per unit in any direction. */
  lemma NoiseTame(h: Lattice)
    requires UnitLattice(h)
    ensures Tame(NoiseField(h), 0.0, 1.0, 1.875)
  {
    forall x, z ensures 0.0 <= NoiseField(h)(x, z) <= 1.0 { NoiseRange(h, x, z); }
    forall x1, z1, x2, z2, d | Near(x1, z1, x2, z2, d) ensures Gentle(NoiseField(h), x1, z1, x2, z2, 1.875, d) {
      NoiseSlope(h, x1, z1, x2, z2, d);
    }
  }

  lemma HeightTame(h: Lattice)
    requires UnitLattice(h)
    ensures Tame(Height(h), -55.0, 55.0, 1.6132)
  {
    NoiseTame(h);
    RawFieldTame(NoiseField(h));
    SmoothFieldTame(RawField(NoiseField(h)));
  }

  /** The terrain lies in [-55, 55] and is nowhere steeper than 1.6132, in any direction. */
  lemma TerrainTame()
    ensures Tame(Height(Hash), -55.0, 55.0, 1.6132)
  {
    assert UnitLattice(Hash);
    HeightTame(Hash);
  }
}
