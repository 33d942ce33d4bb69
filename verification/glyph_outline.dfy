/** Decoding of a simple TrueType glyph (`stbtt__GetGlyphShapeTT`): the glyph's
    points are loaded into the tail of one array and rewritten, from the front of
    the same array, as an explicit path of moves, lines and quadratic curves. */
module GlyphOutline {

  import opened Common
  import opened FontBytes

  const MOVE: byte := 1
  const LINE: byte := 2
  const CURVE: byte := 3

  /** One array slot. While a slot still holds a raw point, `kind` carries the
      point's flag byte; afterwards it carries MOVE, LINE or CURVE. */
  datatype Vertex = Vertex(kind: byte, x: int16, y: int16, cx: int16, cy: int16)

  datatype Point = Point(on: bool, x: int16, y: int16)

  // ------------------------------------------ the simple glyph description

  function Repeat<T>(v: T, k: nat): (r: seq<T>)
    ensures |r| == k && forall t :: 0 <= t < k ==> r[t] == v
  {
    seq(k, _ => v)
  }

  /** The flags of `n` points, read from position p: a flag byte with bit 3 set is
      followed by the number of extra copies. Returns them and the position after. */
  function Flags(d: seq<byte>, p: nat, n: nat): (r: Option<(seq<byte>, nat)>)
    ensures r.Some? ==> |r.value.0| == n
    decreases n
  {
    if n == 0 then Some(([], p))
    else if p >= |d| then None
    else if Bit(d[p], 8) then
      if p + 1 >= |d| then None
      else
        var k := Min(1 + d[p + 1] as int, n);
        var rest := Flags(d, p + 2, n - k);
        if rest.None? then None else Some((Repeat(d[p], k) + rest.value.0, rest.value.1))
    else
      var rest := Flags(d, p + 1, n - 1);
      if rest.None? then None else Some(([d[p]] + rest.value.0, rest.value.1))
  }

  /** Which coordinate is being read, and the flag bits that describe its encoding. */
  datatype Axis = X | Y

  function Located(v: Vertex, axis: Axis, c: int16): Vertex {
    if axis.X? then v.(x := c) else v.(y := c)
  }

  function ShortMask(axis: Axis): nat { if axis.X? then 2 else 4 }
  function SameMask(axis: Axis): nat { if axis.X? then 16 else 32 }

  /** The coordinate changes from point to point, one per flag byte. */
  function Deltas(d: seq<byte>, p: nat, flags: seq<byte>, axis: Axis): (r: Option<(seq<int>, nat)>)
    ensures r.Some? ==> |r.value.0| == |flags|
    decreases |flags|
  {
    if flags == [] then Some(([], p))
    else
      var short := Bit(flags[0], ShortMask(axis));
      var same := Bit(flags[0], SameMask(axis));
      var width := if short then 1 else if same then 0 else 2;
      if p + width > |d| then None
      else
        var delta := if short then (if same then d[p] as int else -(d[p] as int)) else if same then 0 else Int16(U16(d, p));
        var rest := Deltas(d, p + width, flags[1..], axis);
        if rest.None? then None else Some(([delta] + rest.value.0, rest.value.1))
  }

  ghost function Sum(s: seq<int>): int {
    if s == [] then 0 else Sum(s[..|s| - 1]) + s[|s| - 1]
  }

  ghost predicate Short(s: seq<int>) { forall k :: 0 <= k < |s| ==> -0x8000 <= s[k] < 0x8000 }

  lemma {:induction false} DeltasShort(d: seq<byte>, p: nat, flags: seq<byte>, axis: Axis)
    requires Deltas(d, p, flags, axis).Some?
    ensures Short(Deltas(d, p, flags, axis).value.0)
    decreases |flags|
  {
    if flags != [] {
      var width := if Bit(flags[0], ShortMask(axis)) then 1 else if Bit(flags[0], SameMask(axis)) then 0 else 2;
      DeltasShort(d, p + width, flags[1..], axis);
    }
  }

  lemma {:induction false} ShortSum(s: seq<int>)
    requires Short(s)
    ensures -0x8000 * |s| <= Sum(s) <= 0x7FFF * |s|
    decreases |s|
  {
    if s != [] { ShortSum(s[..|s| - 1]); }
  }

  /** A glyph has at most 65536 points, so a running coordinate never leaves 32 bits. */
  lemma CoordinatesFit(d: seq<byte>, p: nat, flags: seq<byte>, axis: Axis, t: nat)
    requires Deltas(d, p, flags, axis).Some? && t <= |flags| <= 0x1_0000
    ensures -0x8000_0000 <= Sum(Deltas(d, p, flags, axis).value.0[..t]) < 0x8000_0000
  {
    DeltasShort(d, p, flags, axis);
    ShortSum(Deltas(d, p, flags, axis).value.0[..t]);
  }

  /** Coordinates are relative to the point before; the first is relative to 0. */
  ghost function Coordinate(deltas: seq<int>, t: nat): int16
    requires t < |deltas|
  {
    Int16(Sum(deltas[..t + 1]))
  }

  datatype Raw = Raw(flags: seq<byte>, dx: seq<int>, dy: seq<int>)

  /** The three point arrays stored one after the other from position p. */
  ghost function ReadPoints(d: seq<byte>, p: nat, n: nat): (r: Option<Raw>)
    ensures r.Some? ==> |r.value.flags| == |r.value.dx| == |r.value.dy| == n
  {
    var f := Flags(d, p, n);
    if f.None? then None
    else
      var xs := Deltas(d, f.value.1, f.value.0, X);
      if xs.None? then None
      else
        var ys := Deltas(d, xs.value.1, f.value.0, Y);
        if ys.None? then None else Some(Raw(f.value.0, xs.value.0, ys.value.0))
  }

  ghost function Points(raw: Raw): (pts: seq<Point>)
    requires |raw.flags| == |raw.dx| == |raw.dy|
    ensures |pts| == |raw.flags|
  {
    seq(|raw.flags|, t requires 0 <= t < |raw.flags| =>
      Point(Bit(raw.flags[t], 1), Coordinate(raw.dx, t), Coordinate(raw.dy, t)))
  }

  // ------------------------------------------------ what a contour means

  function Mid(a: Point, b: Point): Point {
    Point(true, (a.x + b.x) / 2, (a.y + b.y) / 2)
  }

  ghost function Gap(c: seq<Point>, i: nat): seq<Point>
    requires i < |c|
  {
    var next := if i + 1 == |c| then c[0] else c[i + 1];
    if !c[i].on && !next.on then [Mid(c[i], next)] else []
  }

  /** The points from index i on, with the on-curve midpoint that two neighbouring
      off-curve points imply written out; the last point's neighbour is the first. */
  ghost function Explicit(c: seq<Point>, i: nat): seq<Point>
    requires i <= |c|
    decreases |c| - i
  {
    if i == |c| then [] else [c[i]] + Gap(c, i) + Explicit(c, i + 1)
  }

  function To(p: Point): Vertex { Vertex(LINE, p.x, p.y, 0, 0) }
  function Bend(p: Point, control: Point): Vertex { Vertex(CURVE, p.x, p.y, control.x, control.y) }

  /** Segments from a current on-curve point through the given points. */
  ghost function Draw(path: seq<Point>): seq<Vertex> {
    if path == [] then []
    else if path[0].on then [To(path[0])] + Draw(path[1..])
    else if |path| == 1 then []
    else [Bend(path[1], path[0])] + Draw(path[2..])
  }

  ghost predicate Startable(c: seq<Point>) {
    |c| >= 1 && (c[0].on || |c| >= 2)
  }

  /** The contour as a closed path: make the implied points explicit, rotate the
      cycle to its first on-curve point, go round once and end where it began. */
  ghost function ContourPath(c: seq<Point>): seq<Vertex>
    requires Startable(c)
  {
    var e := Explicit(c, 0);
    var s := if c[0].on then 0 else 1;
    assert Explicit(c, 0) == [c[0]] + Gap(c, 0) + Explicit(c, 1);
    assert |c| >= 2 ==> Explicit(c, 1) == [c[1]] + Gap(c, 1) + Explicit(c, 2);
    [Vertex(MOVE, e[s].x, e[s].y, 0, 0)] + Draw(e[s + 1..] + e[..s] + [e[s]])
  }

  ghost function First(ends: seq<nat>, j: nat): nat
    requires j <= |ends|
  {
    if j == 0 then 0 else ends[j - 1] + 1
  }

  /** Contour j is a run of points, and if it begins off the curve it has a second one. */
  ghost predicate Begins(pts: seq<Point>, ends: seq<nat>, j: nat)
    requires j < |ends|
  {
    First(ends, j) <= ends[j] < |pts| && Startable(pts[First(ends, j)..ends[j] + 1])
  }

  /** Contours are consecutive runs of points that cover them all. */
  ghost predicate WellFormed(pts: seq<Point>, ends: seq<nat>) {
    && |ends| > 0 && ends[|ends| - 1] + 1 == |pts|
    && (forall i, j :: 0 <= i < j < |ends| ==> ends[i] < ends[j])
    && forall j :: 0 <= j < |ends| ==> Begins(pts, ends, j)
  }

  ghost function Contour(pts: seq<Point>, ends: seq<nat>, j: nat): (c: seq<Point>)
    requires j < |ends| && Begins(pts, ends, j)
  {
    pts[First(ends, j)..ends[j] + 1]
  }

  ghost function Outline(pts: seq<Point>, ends: seq<nat>, j: nat): seq<Vertex>
    requires WellFormed(pts, ends) && j <= |ends|
    decreases |ends| - j
  {
    if j == |ends| then [] else ContourPath(Contour(pts, ends, j)) + Outline(pts, ends, j + 1)
  }

  // ------------------------- one pass over a contour, as the decoder makes it

  ghost function Close(c: seq<Point>, wasOff: bool, start: Point): seq<Vertex>
    requires |c| > 0
  {
    var last := c[|c| - 1];
    if !c[0].on then
      (if wasOff then [Bend(Mid(last, c[0]), last)] else []) + [Bend(start, c[0])]
    else if wasOff then [Bend(start, last)] else [To(start)]
  }

  /** What passing a point writes, given the one before and whether that one is
      still waiting for the on-curve point it bends towards. */
  ghost function Step(previous: Point, p: Point, wasOff: bool): seq<Vertex> {
    if p.on then [if wasOff then Bend(p, previous) else To(p)]
    else if wasOff then [Bend(Mid(previous, p), previous)] else []
  }

  ghost function Passing(c: seq<Point>, i: nat, wasOff: bool): seq<Vertex>
    requires 1 <= i < |c|
  {
    Step(c[i - 1], c[i], wasOff)
  }

  /** What a pass still has to write from point i on. */
  ghost function Tail(c: seq<Point>, i: nat, wasOff: bool, start: Point): seq<Vertex>
    requires 1 <= i <= |c|
    decreases |c| - i
  {
    if i == |c| then Close(c, wasOff, start)
    else Passing(c, i, wasOff) + Tail(c, i + 1, !c[i].on, start)
  }

  ghost function Closing(c: seq<Point>, start: Point): seq<Point>
    requires |c| > 0
  {
    if c[0].on then [start] else [c[0], start]
  }

  lemma DrawOn(p: Point, rest: seq<Point>)
    requires p.on
    ensures Draw([p] + rest) == [To(p)] + Draw(rest)
  {
  }

  lemma DrawOff(q: Point, p: Point, rest: seq<Point>)
    requires !q.on
    ensures Draw([q, p] + rest) == [Bend(p, q)] + Draw(rest)
  {
  }

  /** The way still to go once point i - 1 has been passed: if it lies off the
      curve it is still waiting for the on-curve point it bends towards. */
  ghost function Ahead(c: seq<Point>, i: nat, wasOff: bool, start: Point): seq<Point>
    requires 1 <= i <= |c|
  {
    (if wasOff then [c[i - 1]] + Gap(c, i - 1) else []) + (Explicit(c, i) + Closing(c, start))
  }

  lemma TailIsDrawAtEnd(c: seq<Point>, wasOff: bool, start: Point)
    requires 1 <= |c| && start.on && (wasOff ==> !c[|c| - 1].on)
    ensures Close(c, wasOff, start) == Draw(Ahead(c, |c|, wasOff, start))
  {
    var last := c[|c| - 1];
    assert Explicit(c, |c|) + Closing(c, start) == Closing(c, start);
    assert Draw([]) == [];
    DrawOn(start, []);
    assert [start] + [] == [start];
    if c[0].on {
      if wasOff {
        DrawOff(last, start, []);
        assert Ahead(c, |c|, true, start) == [last, start] + [];
      } else {
        assert Ahead(c, |c|, false, start) == [start];
      }
    } else {
      DrawOff(c[0], start, []);
      assert [c[0], start] + [] == [c[0], start];
      if wasOff {
        DrawOff(last, Mid(last, c[0]), [c[0], start]);
        assert Ahead(c, |c|, true, start) == [last, Mid(last, c[0])] + [c[0], start];
      } else {
        assert Ahead(c, |c|, false, start) == [c[0], start];
      }
    }
  }

  lemma Flatten<T>(a: seq<T>, b: T, none: seq<T>, e: seq<T>, z: seq<T>)
    requires none == []
    ensures a + none + ([b] + none + e + z) == a + [b] + (e + z)
  {
  }

  lemma PassOnPoint(c: seq<Point>, i: nat, wasOff: bool, start: Point)
    requires 1 <= i < |c| && c[i].on && (wasOff ==> !c[i - 1].on)
    ensures Draw(Ahead(c, i, wasOff, start)) == Passing(c, i, wasOff) + Draw(Ahead(c, i + 1, false, start))
  {
    var e, z := Explicit(c, i + 1), Closing(c, start);
    assert Ahead(c, i + 1, false, start) == e + z;
    if wasOff {
      DrawOff(c[i - 1], c[i], e + z);
      Flatten([c[i - 1]], c[i], [], e, z);
      assert [c[i - 1]] + [c[i]] == [c[i - 1], c[i]];
    } else {
      DrawOn(c[i], e + z);
      Flatten([], c[i], [], e, z);
    }
  }

  lemma PassOffPoint(c: seq<Point>, i: nat, wasOff: bool, start: Point)
    requires 1 <= i < |c| && !c[i].on && (wasOff ==> !c[i - 1].on)
    ensures Draw(Ahead(c, i, wasOff, start)) == Passing(c, i, wasOff) + Draw(Ahead(c, i + 1, true, start))
  {
    var after := Ahead(c, i + 1, true, start);
    assert Explicit(c, i) + Closing(c, start) == after;
    if wasOff {
      DrawOff(c[i - 1], Mid(c[i - 1], c[i]), after);
      assert Ahead(c, i, true, start) == [c[i - 1], Mid(c[i - 1], c[i])] + after;
    } else {
      assert Ahead(c, i, false, start) == after;
    }
  }

  /** A pass from point i writes exactly the segments of the way still to go. */
  lemma {:induction false} TailIsDraw(c: seq<Point>, i: nat, wasOff: bool, start: Point)
    requires 1 <= i <= |c| && start.on && (wasOff ==> !c[i - 1].on)
    ensures Tail(c, i, wasOff, start) == Draw(Ahead(c, i, wasOff, start))
    decreases |c| - i
  {
    if i == |c| {
      TailIsDrawAtEnd(c, wasOff, start);
    } else {
      TailIsDraw(c, i + 1, !c[i].on, start);
      if c[i].on { PassOnPoint(c, i, wasOff, start); } else { PassOffPoint(c, i, wasOff, start); }
    }
  }

  /** Where the decoder starts a contour, and the first point it then visits. */
  ghost function StartPoint(c: seq<Point>): Point
    requires Startable(c)
  {
    if c[0].on then c[0] else if c[1].on then c[1] else Mid(c[0], c[1])
  }

  ghost function StartNext(c: seq<Point>): (i: nat)
    requires Startable(c)
    ensures 1 <= i <= |c|
  {
    if !c[0].on && c[1].on then 2 else 1
  }

  lemma PassIsContourPath(c: seq<Point>)
    requires Startable(c)
    ensures [Vertex(MOVE, StartPoint(c).x, StartPoint(c).y, 0, 0)] + Tail(c, StartNext(c), false, StartPoint(c))
         == ContourPath(c)
  {
    var start := StartPoint(c);
    var e := Explicit(c, 0);
    TailIsDraw(c, StartNext(c), false, start);
    assert e == [c[0]] + Gap(c, 0) + Explicit(c, 1);
    if c[0].on {
      assert e[1..] + e[..0] + [e[0]] == Ahead(c, 1, false, start);
    } else {
      assert Explicit(c, 1) == [c[1]] + Gap(c, 1) + Explicit(c, 2);
      assert e[1] == start;
      assert e[2..] + e[..1] + [e[1]] == Ahead(c, StartNext(c), false, start);
    }
  }

  // ------------------------------------------------------------- loading

  /** The flags of the next n points when `copies` more of `flags` are still due. */
  ghost function Due(d: seq<byte>, q: nat, n: nat, flags: byte, copies: nat): (r: Option<(seq<byte>, nat)>)
    ensures r.Some? ==> |r.value.0| == n
  {
    var k := Min(copies, n);
    var rest := Flags(d, q, n - k);
    if rest.None? then None else Some((Repeat(flags, k) + rest.value.0, rest.value.1))
  }

  lemma DueCopy(d: seq<byte>, q: nat, n: nat, flags: byte, copies: nat)
    requires n > 0 && copies > 0 && Due(d, q, n, flags, copies).Some?
    ensures var now, later := Due(d, q, n, flags, copies), Due(d, q, n - 1, flags, copies - 1);
            later.Some? && now.value.1 == later.value.1
            && now.value.0[0] == flags && now.value.0[1..] == later.value.0
  {
  }

  lemma DueReadRun(d: seq<byte>, q: nat, n: nat)
    requires n > 0 && q < |d| && Bit(d[q], 8) && Flags(d, q, n).Some?
    ensures q + 1 < |d|
    ensures var now, later := Flags(d, q, n), Due(d, q + 2, n - 1, d[q], d[q + 1]);
            later.Some? && now.value.1 == later.value.1
            && now.value.0[0] == d[q] && now.value.0[1..] == later.value.0
  {
  }

  lemma DueReadOne(d: seq<byte>, q: nat, n: nat)
    requires n > 0 && q < |d| && !Bit(d[q], 8) && Flags(d, q, n).Some?
    ensures var now, later := Flags(d, q, n), Due(d, q + 1, n - 1, d[q], 0);
            later.Some? && now.value.1 == later.value.1
            && now.value.0[0] == d[q] && now.value.0[1..] == later.value.0
  {
  }

  /** `due` are the flags still to come, the last of them ending at `end`. */
  ghost predicate Yields(d: seq<byte>, q: nat, flags: byte, copies: nat, due: seq<byte>, end: nat) {
    Due(d, q, |due|, flags, copies) == Some((due, end))
  }

  /** The body of the flag loop: repeat the current flags, or read the next ones. */
  method NextFlags(d: seq<byte>, q: nat, flags: byte, flagcount: nat, ghost due: seq<byte>, ghost end: nat)
    returns (q': nat, flags': byte, flagcount': nat)
    requires due != [] && Yields(d, q, flags, flagcount, due, end)
    ensures flags' == due[0] && Yields(d, q', flags', flagcount', due[1..], end)
  {
    q', flags', flagcount' := q, flags, flagcount;
    if flagcount == 0 {
      assert Repeat(flags, 0) + Flags(d, q, |due|).value.0 == Flags(d, q, |due|).value.0;
      if Bit(d[q], 8) { DueReadRun(d, q, |due|); } else { DueReadOne(d, q, |due|); }
      flags' := d[q];
      q' := q + 1;
      if Bit(flags', 8) {
        flagcount' := d[q'];
        q' := q' + 1;
      }
    } else {
      DueCopy(d, q, |due|, flags, flagcount);
      flagcount' := flagcount - 1;
    }
  }

  lemma NoneDue(d: seq<byte>, p: nat, n: nat, flags: byte)
    requires Flags(d, p, n).Some?
    ensures Yields(d, p, flags, 0, Flags(d, p, n).value.0, Flags(d, p, n).value.1)
  {
    var all := Flags(d, p, n).value.0;
    assert Repeat(flags, 0) + all == all;
  }

  lemma Advance<T>(a: seq<T>, i: nat)
    requires i < |a|
    ensures a[i..][0] == a[i] && a[i..][1..] == a[i + 1..]
  {
  }

  lemma NothingDue(d: seq<byte>, q: nat, flags: byte, copies: nat, end: nat)
    requires Yields(d, q, flags, copies, [], end)
    ensures q == end
  {
  }

  /** The flag loop: the n flags due go into the slots from off on. */
  method StoreFlags(vertices: array<Vertex>, off: nat, n: nat, d: seq<byte>, p: nat, ghost all: seq<byte>, ghost end: nat)
    returns (q: nat)
    requires off + n <= vertices.Length && |all| == n && Yields(d, p, 0, 0, all, end)
    modifies vertices
    ensures q == end && forall s :: off <= s < off + n ==> vertices[s].kind == all[s - off]
  {
    q := p;
    var flags: byte, flagcount: nat := 0, 0;
    var i := 0;
    assert all[0..] == all;
    while i < n
      invariant i <= n && Yields(d, q, flags, flagcount, all[i..], end)
      invariant forall s :: off <= s < off + i ==> vertices[s].kind == all[s - off]
    {
      Advance(all, i);
      q, flags, flagcount := NextFlags(d, q, flags, flagcount, all[i..], end);
      vertices[off + i] := vertices[off + i].(kind := flags);
      i := i + 1;
    }
    NothingDue(d, q, flags, flagcount, end);
  }

  method LoadFlags(vertices: array<Vertex>, off: nat, n: nat, d: seq<byte>, p: nat) returns (q: nat)
    requires off + n <= vertices.Length && Flags(d, p, n).Some?
    modifies vertices
    ensures q == Flags(d, p, n).value.1
    ensures forall s :: off <= s < off + n ==> vertices[s].kind == Flags(d, p, n).value.0[s - off]
  {
    NoneDue(d, p, n, 0);
    q := StoreFlags(vertices, off, n, d, p, Flags(d, p, n).value.0, Flags(d, p, n).value.1);
  }

  /** The body of the coordinate loops: how far point t lies from the one before. */
  method NextDelta(d: seq<byte>, q: nat, f: byte, axis: Axis, ghost flags: seq<byte>)
    returns (q': nat, delta: int)
    requires flags != [] && flags[0] == f && Deltas(d, q, flags, axis).Some?
    ensures var now, later := Deltas(d, q, flags, axis).value, Deltas(d, q', flags[1..], axis);
            later.Some? && delta == now.0[0] && later.value == (now.0[1..], now.1)
  {
    q', delta := q, 0;
    if Bit(f, ShortMask(axis)) {
      delta := if Bit(f, SameMask(axis)) then d[q] as int else -(d[q] as int);
      q' := q + 1;
    } else if !Bit(f, SameMask(axis)) {
      delta := Int16(U16(d, q));
      q' := q + 2;
    }
  }

  lemma SumNext(deltas: seq<int>, i: nat)
    requires i < |deltas|
    ensures Sum(deltas[..i + 1]) == Sum(deltas[..i]) + deltas[i]
  {
    assert deltas[..i + 1][..i] == deltas[..i];
  }

  /** The x loop and the y loop of the source, which differ only in their flag bits and
      in the coordinate they store: the points' deltas `all`, the last of them ending at
      `end`, are added up into the slots from off on. */
  method StoreCoordinates(vertices: array<Vertex>, off: nat, n: nat, d: seq<byte>, p: nat, axis: Axis,
                          ghost flags: seq<byte>, ghost all: seq<int>, ghost end: nat)
    returns (q: nat)
    requires off + n <= vertices.Length && |flags| == |all| == n && Deltas(d, p, flags, axis) == Some((all, end))
    requires forall s :: off <= s < off + n ==> vertices[s].kind == flags[s - off]
    modifies vertices
    ensures q == end
    ensures forall s :: off <= s < off + n ==> vertices[s] == Located(old(vertices[s]), axis, Coordinate(all, s - off))
  {
    q := p;
    var c: int := 0;
    var i := 0;
    assert flags[0..] == flags && all[0..] == all;
    while i < n
      invariant i <= n && c == Sum(all[..i])
      invariant Deltas(d, q, flags[i..], axis) == Some((all[i..], end))
      invariant forall s :: off + i <= s < off + n ==> vertices[s] == old(vertices[s])
      invariant forall s :: off <= s < off + i ==>
                  vertices[s] == Located(old(vertices[s]), axis, Coordinate(all, s - off))
    {
      var delta;
      q, delta := OneDelta(d, q, vertices[off + i].kind, axis, flags, all, end, i);
      c := c + delta;
      vertices[off + i] := Located(vertices[off + i], axis, Int16(c));
      i := i + 1;
    }
  }

  /** The delta of point i of those that `flags` and `all` list. */
  method OneDelta(d: seq<byte>, q: nat, f: byte, axis: Axis, ghost flags: seq<byte>, ghost all: seq<int>, ghost end: nat,
                  ghost i: nat)
    returns (q': nat, delta: int)
    requires i < |flags| == |all| && flags[i] == f && Deltas(d, q, flags[i..], axis) == Some((all[i..], end))
    ensures Deltas(d, q', flags[i + 1..], axis) == Some((all[i + 1..], end))
    ensures Sum(all[..i]) + delta == Sum(all[..i + 1])
  {
    Advance(flags, i);
    Advance(all, i);
    SumNext(all, i);
    q', delta := NextDelta(d, q, f, axis, flags[i..]);
  }

  method LoadCoordinates(vertices: array<Vertex>, off: nat, n: nat, d: seq<byte>, p: nat, axis: Axis,
                         ghost flags: seq<byte>)
    returns (q: nat)
    requires off + n <= vertices.Length && |flags| == n && Deltas(d, p, flags, axis).Some?
    requires forall s :: off <= s < off + n ==> vertices[s].kind == flags[s - off]
    modifies vertices
    ensures q == Deltas(d, p, flags, axis).value.1
    ensures forall s :: off <= s < off + n ==>
              vertices[s] == Located(old(vertices[s]), axis, Coordinate(Deltas(d, p, flags, axis).value.0, s - off))
  {
    ghost var all := Deltas(d, p, flags, axis).value;
    q := StoreCoordinates(vertices, off, n, d, p, axis, flags, all.0, all.1);
  }

  // ---------------------------------------------------------- converting

  ghost predicate Holds(v: Vertex, p: Point) {
    Bit(v.kind, 1) == p.on && v.x == p.x && v.y == p.y
  }

  /** `text` has been written at the front, from slot num to slot num'. */
  ghost predicate Extends(v: seq<Vertex>, num: nat, v': seq<Vertex>, num': nat, text: seq<Vertex>) {
    && |v'| == |v| && num' == num + |text| && num' <= |v|
    && v'[..num'] == v[..num] + text && v'[num'..] == v[num'..]
  }

  /** `stbtt__close_shape`, with the contour's points standing in for the scalars. */
  method CloseShape(vertices: array<Vertex>, num: nat, wasOff: bool, startOff: bool,
                    s: Point, sc: Point, c: Point, ghost contour: seq<Point>)
    returns (num': nat)
    requires |contour| > 0 && startOff == !contour[0].on
    requires startOff ==> sc.x == contour[0].x && sc.y == contour[0].y
    requires wasOff ==> c.x == contour[|contour| - 1].x && c.y == contour[|contour| - 1].y
    requires num + |Close(contour, wasOff, s)| <= vertices.Length
    modifies vertices
    ensures Extends(old(vertices[..]), num, vertices[..], num', Close(contour, wasOff, s))
  {
    num' := num;
    if startOff {
      if wasOff {
        vertices[num'] := Vertex(CURVE, (c.x + sc.x) / 2, (c.y + sc.y) / 2, c.x, c.y);
        num' := num' + 1;
      }
      vertices[num'] := Vertex(CURVE, s.x, s.y, sc.x, sc.y);
    } else if wasOff {
      vertices[num'] := Vertex(CURVE, s.x, s.y, c.x, c.y);
    } else {
      vertices[num'] := Vertex(LINE, s.x, s.y, 0, 0);
    }
    num' := num' + 1;
  }

  /** What is left to write with point i next, in the middle of contour j. */
  ghost function Remaining(pts: seq<Point>, ends: seq<nat>, j: nat, i: nat, wasOff: bool): seq<Vertex>
    requires WellFormed(pts, ends) && j < |ends| && First(ends, j) < i <= ends[j] + 1
  {
    var c := Contour(pts, ends, j);
    Tail(c, i - First(ends, j), wasOff, StartPoint(c)) + Outline(pts, ends, j + 1)
  }

  /** The decoder's scalars: the next free slot, whether the point before lies off
      the curve (and then where, `c`), where the contour starts and, if its first
      point lies off the curve, that point (`sc`), the next contour's first point
      and the number of contours begun. */
  datatype Scalars = Scalars(num: nat, wasOff: bool, startOff: bool, s: Point, sc: Point, c: Point,
                             nextMove: nat, j: nat)

  /** The raw points from i on are still where loading put them. */
  ghost predicate Unread(v: seq<Vertex>, pts: seq<Point>, off: nat, i: nat) {
    |v| == off + |pts| && forall t :: i <= t < |pts| ==> Holds(v[off + t], pts[t])
  }

  ghost predicate Between(v: seq<Vertex>, num: nat, pts: seq<Point>, ends: seq<nat>, j: nat, i: nat)
    requires WellFormed(pts, ends)
  {
    && j <= |ends| && i == First(ends, j)
    && num <= i + j && num <= |v|
    && Unread(v, pts, 2 * |ends|, i)
    && v[..num] + Outline(pts, ends, j) == Outline(pts, ends, 0)
  }

  /** The scalars say what they should about contour j - 1, of which point i is next. */
  ghost predicate Tracks(k: Scalars, pts: seq<Point>, ends: seq<nat>, i: nat)
    requires WellFormed(pts, ends)
  {
    && 0 < k.j <= |ends| && k.nextMove == First(ends, k.j) && First(ends, k.j - 1) < i <= k.nextMove <= |pts|
    && (var c := Contour(pts, ends, k.j - 1);
        && k.startOff == !c[0].on
        && k.s == StartPoint(c)
        && (k.startOff ==> k.sc.x == c[0].x && k.sc.y == c[0].y)
        && k.num + |Close(c, k.wasOff, k.s)| <= i + k.j)
    && (k.wasOff ==> !pts[i - 1].on && k.c.x == pts[i - 1].x && k.c.y == pts[i - 1].y)
  }

  /** The front of the array and what is still to come make up the whole outline. */
  ghost predicate Written(v: seq<Vertex>, k: Scalars, pts: seq<Point>, ends: seq<nat>, i: nat)
    requires WellFormed(pts, ends) && 0 < k.j <= |ends| && First(ends, k.j - 1) < i <= ends[k.j - 1] + 1
  {
    k.num <= |v| && v[..k.num] + Remaining(pts, ends, k.j - 1, i, k.wasOff) == Outline(pts, ends, 0)
  }

  ghost predicate Inside(v: seq<Vertex>, k: Scalars, pts: seq<Point>, ends: seq<nat>, i: nat)
    requires WellFormed(pts, ends)
  {
    Tracks(k, pts, ends, i) && Unread(v, pts, 2 * |ends|, i) && Written(v, k, pts, ends, i)
  }

  lemma RawPoint(v: seq<Vertex>, pts: seq<Point>, off: nat, i: nat, t: nat)
    requires Unread(v, pts, off, i) && i <= t < |pts|
    ensures Holds(v[off + t], pts[t])
  {
  }

  lemma ContourPoints(pts: seq<Point>, ends: seq<nat>, j: nat)
    requires WellFormed(pts, ends) && j < |ends|
    ensures var c, i := Contour(pts, ends, j), First(ends, j);
            Startable(c) && i + |c| == ends[j] + 1 <= |pts| && c[0] == pts[i] && (|c| >= 2 ==> c[1] == pts[i + 1])
            && c[|c| - 1] == pts[ends[j]]
  {
    assert Begins(pts, ends, j);
  }

  /** Writing at the front does not touch a raw point still to be read. */
  lemma RestKept(v: seq<Vertex>, num: nat, v': seq<Vertex>, num': nat, text: seq<Vertex>,
                 pts: seq<Point>, off: nat, i: nat, i': nat)
    requires Unread(v, pts, off, i) && i <= i' && Extends(v, num, v', num', text) && num' <= off + i'
    ensures Unread(v', pts, off, i')
  {
  }

  /** What has been written and what is still to come make up the same whole after
      `text` has moved from one to the other. */
  lemma Carried<T>(front: seq<T>, text: seq<T>, front': seq<T>, rest': seq<T>, rest: seq<T>)
    requires front' == front + text && rest == text + rest'
    ensures front' + rest' == front + rest
  {
  }

  lemma Extended(v: seq<Vertex>, num: nat, v': seq<Vertex>, num': nat, text: seq<Vertex>,
                 rest: seq<Vertex>, rest': seq<Vertex>, whole: seq<Vertex>)
    requires Extends(v, num, v', num', text) && rest == text + rest' && v[..num] + rest == whole
    ensures num' <= |v'| && v'[..num'] + rest' == whole
  {
  }

  function MoveTo(p: Point): Vertex { Vertex(MOVE, p.x, p.y, 0, 0) }

  /** Entering contour j at its first point i: what the move leaves to be written. */
  lemma MoveWritten(pts: seq<Point>, ends: seq<nat>, j: nat)
    requires WellFormed(pts, ends) && j < |ends|
    ensures var c, i := Contour(pts, ends, j), First(ends, j);
            && i < i + StartNext(c) <= ends[j] + 1
            && Outline(pts, ends, j) == [MoveTo(StartPoint(c))] + Remaining(pts, ends, j, i + StartNext(c), false)
  {
    var c := Contour(pts, ends, j);
    ContourPoints(pts, ends, j);
    PassIsContourPath(c);
    Associate([MoveTo(StartPoint(c))], Tail(c, StartNext(c), false, StartPoint(c)), Outline(pts, ends, j + 1));
  }

  /** Where the contour whose first raw point is in slot `first` starts, and how
      many of its points that takes. */
  method ReadStart(vertices: array<Vertex>, first: nat, ghost c: seq<Point>)
    returns (startOff: bool, s: Point, sc: Point, used: nat)
    requires Startable(c) && first + |c| <= vertices.Length
    requires Holds(vertices[first], c[0])
    requires |c| >= 2 ==> Holds(vertices[first + 1], c[1])
    ensures startOff == !c[0].on && s == StartPoint(c) && used == StartNext(c)
    ensures sc.x == c[0].x && sc.y == c[0].y
  {
    var v := vertices[first];
    startOff := !Bit(v.kind, 1);
    sc := Point(!startOff, v.x, v.y);
    s := sc;
    used := 1;
    if startOff {
      var next := vertices[first + 1];
      if !Bit(next.kind, 1) {
        s := Point(true, (v.x + next.x) / 2, (v.y + next.y) / 2);
      } else {
        s := Point(true, next.x, next.y);
        used := 2;
      }
    }
  }

  method SetVertex(vertices: array<Vertex>, num: nat, v: Vertex)
    requires num < vertices.Length
    modifies vertices
    ensures Extends(old(vertices[..]), num, vertices[..], num + 1, [v])
  {
    vertices[num] := v;
  }

  /** The scalars on entering contour k.j with its move written. */
  ghost predicate Enters(k: Scalars, k': Scalars, pts: seq<Point>, ends: seq<nat>)
    requires WellFormed(pts, ends) && k.j < |ends|
  {
    var c := Contour(pts, ends, k.j);
    && k' == Scalars(k.num + 1, false, !c[0].on, StartPoint(c), k'.sc, k.c, 1 + ends[k.j], k.j + 1)
    && k'.sc.x == c[0].x && k'.sc.y == c[0].y
  }

  lemma TracksBegun(k: Scalars, k': Scalars, pts: seq<Point>, ends: seq<nat>)
    requires WellFormed(pts, ends) && k.j < |ends| && Enters(k, k', pts, ends) && k.num <= First(ends, k.j) + k.j
    ensures Tracks(k', pts, ends, First(ends, k.j) + StartNext(Contour(pts, ends, k.j)))
  {
  }

  lemma WrittenBegun(v: seq<Vertex>, v': seq<Vertex>, k: Scalars, k': Scalars, pts: seq<Point>, ends: seq<nat>)
    requires WellFormed(pts, ends) && k.j < |ends| && Enters(k, k', pts, ends)
    requires k.num <= |v| && v[..k.num] + Outline(pts, ends, k.j) == Outline(pts, ends, 0)
    requires Extends(v, k.num, v', k'.num, [MoveTo(k'.s)])
    requires First(ends, k.j) + StartNext(Contour(pts, ends, k.j)) <= ends[k.j] + 1
    ensures Written(v', k', pts, ends, First(ends, k.j) + StartNext(Contour(pts, ends, k.j)))
  {
    MoveWritten(pts, ends, k.j);
    Extended(v, k.num, v', k'.num, [MoveTo(k'.s)], Outline(pts, ends, k.j),
             Remaining(pts, ends, k.j, First(ends, k.j) + StartNext(Contour(pts, ends, k.j)), false), Outline(pts, ends, 0));
  }

  lemma ContourBegun(v: seq<Vertex>, v': seq<Vertex>, k: Scalars, k': Scalars, pts: seq<Point>, ends: seq<nat>, i: nat)
    requires WellFormed(pts, ends) && k.j < |ends| && Between(v, k.num, pts, ends, k.j, i)
    requires Enters(k, k', pts, ends) && Extends(v, k.num, v', k'.num, [MoveTo(k'.s)])
    ensures Inside(v', k', pts, ends, i + StartNext(Contour(pts, ends, k.j)))
  {
    TracksBegun(k, k', pts, ends);
    WrittenBegun(v, v', k, k', pts, ends);
    RestKept(v, k.num, v', k'.num, [MoveTo(k'.s)], pts, 2 * |ends|, i, i + StartNext(Contour(pts, ends, k.j)));
  }

  /** How contour j, whose first point i is still raw, starts. */
  method StartAt(vertices: array<Vertex>, off: nat, i: nat, ghost pts: seq<Point>, ghost ends: seq<nat>, ghost j: nat)
    returns (startOff: bool, s: Point, sc: Point, used: nat)
    requires WellFormed(pts, ends) && j < |ends| && i == First(ends, j) && Unread(vertices[..], pts, off, i)
    ensures var c := Contour(pts, ends, j);
            startOff == !c[0].on && s == StartPoint(c) && used == StartNext(c) && sc.x == c[0].x && sc.y == c[0].y
  {
    ghost var c := Contour(pts, ends, j);
    ContourPoints(pts, ends, j);
    RawPoint(vertices[..], pts, off, i, i);
    if |c| >= 2 { RawPoint(vertices[..], pts, off, i, i + 1); }
    startOff, s, sc, used := ReadStart(vertices, off + i, c);
  }

  method StartContour(vertices: array<Vertex>, k: Scalars, ends: seq<nat>, i: nat, ghost pts: seq<Point>)
    returns (k': Scalars, i': nat)
    requires WellFormed(pts, ends) && k.j < |ends|
    requires Between(vertices[..], k.num, pts, ends, k.j, i)
    modifies vertices
    ensures i < i' && Inside(vertices[..], k', pts, ends, i')
  {
    ghost var before := vertices[..];
    var startOff, s, sc, used := StartAt(vertices, 2 * |ends|, i, pts, ends, k.j);
    ContourPoints(pts, ends, k.j);
    SetVertex(vertices, k.num, MoveTo(s));
    k' := Scalars(k.num + 1, false, startOff, s, sc, k.c, 1 + ends[k.j], k.j + 1);
    i' := i + used;
    ContourBegun(before, vertices[..], k, k', pts, ends, i);
  }

  lemma PointPassed(pts: seq<Point>, ends: seq<nat>, j: nat, i: nat, wasOff: bool)
    requires WellFormed(pts, ends) && j < |ends| && First(ends, j) < i <= ends[j]
    ensures i < |pts|
    ensures Remaining(pts, ends, j, i, wasOff)
         == Step(pts[i - 1], pts[i], wasOff) + Remaining(pts, ends, j, i + 1, !pts[i].on)
  {
    var c, p := Contour(pts, ends, j), i - First(ends, j);
    ContourPoints(pts, ends, j);
    assert c[p] == pts[i] && c[p - 1] == pts[i - 1];
  }

  method WritePoint(vertices: array<Vertex>, num: nat, wasOff: bool, c: Point, p: Point, ghost previous: Point)
    returns (num': nat)
    requires num < vertices.Length && (wasOff ==> c.x == previous.x && c.y == previous.y)
    modifies vertices
    ensures Extends(old(vertices[..]), num, vertices[..], num', Step(previous, p, wasOff))
  {
    num' := num;
    if !p.on {
      if wasOff {
        vertices[num] := Vertex(CURVE, (c.x + p.x) / 2, (c.y + p.y) / 2, c.x, c.y);
        num' := num + 1;
      }
    } else {
      vertices[num] := if wasOff then Vertex(CURVE, p.x, p.y, c.x, c.y) else Vertex(LINE, p.x, p.y, 0, 0);
      num' := num + 1;
    }
  }

  function Passed(k: Scalars, p: Point, num: nat): Scalars {
    if p.on then k.(num := num, wasOff := false) else k.(num := num, c := p, wasOff := true)
  }

  lemma TracksPassed(k: Scalars, pts: seq<Point>, ends: seq<nat>, i: nat)
    requires WellFormed(pts, ends) && Tracks(k, pts, ends, i) && i < k.nextMove
    ensures Tracks(Passed(k, pts[i], k.num + |Step(pts[i - 1], pts[i], k.wasOff)|), pts, ends, i + 1)
    ensures k.num + 1 < 2 * |ends| + i
  {
  }

  lemma WrittenPassed(v: seq<Vertex>, v': seq<Vertex>, k: Scalars, k': Scalars, pts: seq<Point>, ends: seq<nat>, i: nat)
    requires WellFormed(pts, ends) && 0 < k.j <= |ends| && First(ends, k.j - 1) < i <= ends[k.j - 1]
    requires Written(v, k, pts, ends, i) && k'.j == k.j && i < |pts| && k'.wasOff == !pts[i].on
    requires Extends(v, k.num, v', k'.num, Step(pts[i - 1], pts[i], k.wasOff))
    ensures Written(v', k', pts, ends, i + 1)
  {
    PointPassed(pts, ends, k.j - 1, i, k.wasOff);
    Extended(v, k.num, v', k'.num, Step(pts[i - 1], pts[i], k.wasOff), Remaining(pts, ends, k.j - 1, i, k.wasOff),
             Remaining(pts, ends, k.j - 1, i + 1, !pts[i].on), Outline(pts, ends, 0));
  }

  lemma PointWritten(v: seq<Vertex>, v': seq<Vertex>, k: Scalars, num': nat, pts: seq<Point>, ends: seq<nat>, i: nat)
    requires WellFormed(pts, ends) && Inside(v, k, pts, ends, i) && i < k.nextMove
    requires Extends(v, k.num, v', num', Step(pts[i - 1], pts[i], k.wasOff))
    ensures Inside(v', Passed(k, pts[i], num'), pts, ends, i + 1)
  {
    TracksPassed(k, pts, ends, i);
    WrittenPassed(v, v', k, Passed(k, pts[i], num'), pts, ends, i);
    RestKept(v, k.num, v', num', Step(pts[i - 1], pts[i], k.wasOff), pts, 2 * |ends|, i, i + 1);
  }

  method NextPoint(vertices: array<Vertex>, k: Scalars, ends: seq<nat>, i: nat, ghost pts: seq<Point>)
    returns (k': Scalars)
    requires WellFormed(pts, ends) && i < k.nextMove
    requires Inside(vertices[..], k, pts, ends, i)
    modifies vertices
    ensures Inside(vertices[..], k', pts, ends, i + 1)
  {
    ghost var before := vertices[..];
    TracksPassed(k, pts, ends, i);
    RawPoint(before, pts, 2 * |ends|, i, i);
    var v := vertices[2 * |ends| + i];
    var p := Point(Bit(v.kind, 1), v.x, v.y);
    assert p == pts[i];
    var num := WritePoint(vertices, k.num, k.wasOff, k.c, p, pts[i - 1]);
    k' := Passed(k, p, num);
    PointWritten(before, vertices[..], k, num, pts, ends, i);
  }

  lemma ContourFinished(v: seq<Vertex>, v': seq<Vertex>, k: Scalars, num': nat, pts: seq<Point>, ends: seq<nat>)
    requires WellFormed(pts, ends) && Inside(v, k, pts, ends, k.nextMove)
    requires Extends(v, k.num, v', num', Close(Contour(pts, ends, k.j - 1), k.wasOff, k.s))
    ensures Between(v', num', pts, ends, k.j, k.nextMove)
  {
    var c := Contour(pts, ends, k.j - 1);
    ContourPoints(pts, ends, k.j - 1);
    RestKept(v, k.num, v', num', Close(c, k.wasOff, k.s), pts, 2 * |ends|, k.nextMove, k.nextMove);
    Carried(v[..k.num], Close(c, k.wasOff, k.s), v'[..num'], Outline(pts, ends, k.j),
            Remaining(pts, ends, k.j - 1, k.nextMove, k.wasOff));
  }

  method Finish(vertices: array<Vertex>, k: Scalars, ends: seq<nat>, ghost pts: seq<Point>) returns (k': Scalars)
    requires WellFormed(pts, ends) && Inside(vertices[..], k, pts, ends, k.nextMove)
    modifies vertices
    ensures k' == k.(num := k'.num) && Between(vertices[..], k'.num, pts, ends, k.j, k.nextMove)
  {
    ghost var before, c := vertices[..], Contour(pts, ends, k.j - 1);
    ContourPoints(pts, ends, k.j - 1);
    var num := CloseShape(vertices, k.num, k.wasOff, k.startOff, k.s, k.sc, k.c, c);
    k' := k.(num := num);
    ContourFinished(before, vertices[..], k, num, pts, ends);
  }

  /** The conversion loop: the raw points in the last n slots become the outline in
      the first ones. */
  method Convert(vertices: array<Vertex>, n: nat, ends: seq<nat>, ghost pts: seq<Point>) returns (num: nat)
    requires WellFormed(pts, ends) && n == |pts| && Unread(vertices[..], pts, 2 * |ends|, 0)
    modifies vertices
    ensures num <= n + |ends| && vertices[..num] == Outline(pts, ends, 0)
  {
    var k := Scalars(0, false, false, Point(true, 0, 0), Point(true, 0, 0), Point(true, 0, 0), 0, 0);
    var i := 0;
    while i < n
      invariant if i == 0 then k.j == 0 && k.nextMove == 0 && Between(vertices[..], k.num, pts, ends, 0, 0)
                else Inside(vertices[..], k, pts, ends, i)
      decreases n - i
    {
      if k.nextMove == i {
        if i != 0 {
          k := Finish(vertices, k, ends, pts);
        }
        k, i := StartContour(vertices, k, ends, i, pts);
      } else {
        k := NextPoint(vertices, k, ends, i, pts);
        i := i + 1;
      }
    }
    k := Finish(vertices, k, ends, pts);
    num := k.num;
  }

  // ------------------------------------------------------- the whole glyph

  /** The number of contours, as the signed 16-bit field says it. */
  function Contours(glyph: seq<byte>): int
    requires |glyph| >= 10
  {
    Int16(U16(glyph, 0))
  }

  function Ends(glyph: seq<byte>): (ends: seq<nat>)
    requires |glyph| >= 10 && Contours(glyph) > 0 && 12 + 2 * Contours(glyph) <= |glyph|
    ensures |ends| == Contours(glyph)
  {
    seq(Contours(glyph), j requires 0 <= j < Contours(glyph) => U16(glyph, 10 + 2 * j))
  }

  /** The point data follow the end points and the instructions. */
  function PointData(glyph: seq<byte>): (p: nat)
    requires |glyph| >= 10 && Contours(glyph) > 0 && 12 + 2 * Contours(glyph) <= |glyph|
  {
    10 + 2 * Contours(glyph) + 2 + U16(glyph, 10 + 2 * Contours(glyph))
  }

  function PointCount(glyph: seq<byte>): (n: nat)
    requires |glyph| >= 10 && Contours(glyph) > 0 && 12 + 2 * Contours(glyph) <= |glyph|
  {
    1 + U16(glyph, 8 + 2 * Contours(glyph))
  }

  /** A simple glyph description that is all there and describes proper contours. */
  ghost predicate SimpleGlyph(glyph: seq<byte>) {
    && |glyph| >= 10 && Contours(glyph) > 0 && 12 + 2 * Contours(glyph) <= |glyph|
    && ReadPoints(glyph, PointData(glyph), PointCount(glyph)).Some?
    && WellFormed(Points(ReadPoints(glyph, PointData(glyph), PointCount(glyph)).value), Ends(glyph))
  }

  ghost function OutlineOf(glyph: seq<byte>): seq<Vertex>
    requires SimpleGlyph(glyph)
  {
    Outline(Points(ReadPoints(glyph, PointData(glyph), PointCount(glyph)).value), Ends(glyph), 0)
  }

  method GlyphShape(glyph: seq<byte>) returns (vertices: array<Vertex>, num: nat)
    requires SimpleGlyph(glyph)
    ensures vertices.Length == PointCount(glyph) + 2 * Contours(glyph)
    ensures num <= PointCount(glyph) + Contours(glyph)
    ensures vertices[..num] == OutlineOf(glyph)
  {
    var contours := Contours(glyph);
    var n := PointCount(glyph);
    var m := n + 2 * contours;
    vertices := new Vertex[m];
    var off := m - n;
    ghost var raw := ReadPoints(glyph, PointData(glyph), n).value;
    var points := LoadFlags(vertices, off, n, glyph, PointData(glyph));
    points := LoadCoordinates(vertices, off, n, glyph, points, X, raw.flags);
    points := LoadCoordinates(vertices, off, n, glyph, points, Y, raw.flags);
    assert Unread(vertices[..], Points(raw), 2 * |Ends(glyph)|, 0);
    num := Convert(vertices, n, Ends(glyph), Points(raw));
  }
}
