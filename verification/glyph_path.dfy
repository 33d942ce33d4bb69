/** What the vertices of a simple glyph say, by their fields alone: the closed path through
    the points, with the points between two that lie off the curve put in halfway. */
module GlyphPath {
  import opened Common
  import opened FontBytes
  import opened GlyphOutline

  /** The points that vertices visit: a move or a line goes to (x, y), a curve bends
      towards (cx, cy) on the way. */
  ghost function Visited(path: seq<Vertex>): seq<Point> {
    if path == [] then []
    else
      var v := path[0];
      (if v.kind == 3 then [Point(false, v.cx, v.cy), Point(true, v.x, v.y)] else [Point(true, v.x, v.y)]) + Visited(path[1..])
  }

  /** A move, and then lines and curves. */
  ghost predicate OnePath(path: seq<Vertex>) {
    path != [] && path[0].kind == 1 && forall k :: 0 < k < |path| ==> path[k].kind == 2 || path[k].kind == 3
  }

  /** No two neighbours off the curve, and the last on it. */
  ghost predicate Drawable(path: seq<Point>) {
    && (path != [] ==> path[|path| - 1].on)
    && forall k :: 0 <= k < |path| - 1 ==> path[k].on || path[k + 1].on
  }

  lemma {:induction false} DrawVisits(path: seq<Point>)
    requires Drawable(path)
    ensures Visited(Draw(path)) == path
    ensures forall k :: 0 <= k < |Draw(path)| ==> Draw(path)[k].kind == 2 || Draw(path)[k].kind == 3
    decreases |path|
  {
    if path != [] {
      if path[0].on {
        DrawVisits(path[1..]);
        assert Draw(path)[1..] == Draw(path[1..]);
        assert [path[0]] + path[1..] == path;
      } else {
        DrawVisits(path[2..]);
        assert Draw(path)[1..] == Draw(path[2..]);
        assert [path[0], path[1]] + path[2..] == path;
      }
    }
  }

  // ---------------------------------------------------- the points in between

  /** m lies on the curve halfway between a and b, rounded down. */
  ghost predicate Halfway(m: Point, a: Point, b: Point) {
    && m.on
    && a.x as int + b.x as int - 1 <= 2 * m.x as int <= a.x as int + b.x as int
    && a.y as int + b.y as int - 1 <= 2 * m.y as int <= a.y as int + b.y as int
  }

  ghost function Follower(c: seq<Point>, i: nat): Point
    requires i < |c|
  {
    if i + 1 < |c| then c[i + 1] else c[0]
  }

  ghost predicate HasGap(c: seq<Point>, i: nat)
    requires i < |c|
  {
    !c[i].on && !Follower(c, i).on
  }

  /** Where point i of the contour comes in the path: one place on from the point before,
      or two if a point in between is implied. */
  ghost function Place(c: seq<Point>, i: nat): nat
    requires i <= |c|
  {
    if i == 0 then 0 else Place(c, i - 1) + (if HasGap(c, i - 1) then 2 else 1)
  }

  lemma MidIsHalfway(a: Point, b: Point)
    ensures Halfway(Mid(a, b), a, b)
  {
  }

  lemma DropTwice<T>(a: seq<T>, p: nat, k: nat, x: T, gap: seq<T>, rest: seq<T>)
    requires p <= |a| && a[p..] == [x] + gap + rest && k == 1 + |gap|
    ensures p + k <= |a| && a[p + k..] == rest
  {
    assert a[p + k..] == a[p..][k..];
  }

  lemma {:induction false} ExplicitFrom(c: seq<Point>, i: nat)
    requires i <= |c|
    ensures Place(c, i) <= |Explicit(c, 0)| && Explicit(c, 0)[Place(c, i)..] == Explicit(c, i)
    decreases i
  {
    if i > 0 {
      ExplicitFrom(c, i - 1);
      DropTwice(Explicit(c, 0), Place(c, i - 1), 1 + |Gap(c, i - 1)|, c[i - 1], Gap(c, i - 1), Explicit(c, i));
    }
  }

  /** The path has every point of the contour at its place, halfway points where they are
      implied, and nothing else. */
  lemma ExplicitPlaces(c: seq<Point>, i: nat)
    requires i < |c|
    ensures var e, k := Explicit(c, 0), Place(c, i);
            && k < |e| && e[k] == c[i]
            && (HasGap(c, i) ==> k + 1 < |e| && Halfway(e[k + 1], c[i], Follower(c, i)))
            && |e| == Place(c, |c|)
  {
    ExplicitFrom(c, i);
    ExplicitFrom(c, |c|);
    var e := Explicit(c, 0);
    assert Explicit(c, i) == [c[i]] + Gap(c, i) + Explicit(c, i + 1);
    assert e[Place(c, i)] == e[Place(c, i)..][0];
    if HasGap(c, i) {
      MidIsHalfway(c[i], Follower(c, i));
      assert e[Place(c, i) + 1] == e[Place(c, i)..][1];
    }
  }

  // ------------------------------------------------------------ closed contours

  ghost predicate Alternate(path: seq<Point>) {
    forall k :: 0 <= k < |path| - 1 ==> path[k].on || path[k + 1].on
  }

  lemma AlternateOn(p: Point, gap: seq<Point>, rest: seq<Point>)
    requires Alternate(rest) && |gap| <= 1 && (gap != [] ==> gap[0].on)
    requires gap == [] && rest != [] ==> p.on || rest[0].on
    ensures Alternate([p] + gap + rest)
  {
  }

  /** Of two neighbours in the completed cycle one lies on the curve. */
  lemma {:induction false} ExplicitAlternates(c: seq<Point>, i: nat)
    requires i < |c|
    ensures var e := Explicit(c, i); Alternate(e) && e != [] && e[0] == c[i] && (e[|e| - 1].on || c[0].on)
    decreases |c| - i
  {
    if i + 1 < |c| {
      ExplicitAlternates(c, i + 1);
      AlternateOn(c[i], Gap(c, i), Explicit(c, i + 1));
    } else {
      assert Explicit(c, |c|) == [];
      AlternateOn(c[i], Gap(c, i), []);
    }
  }

  /** From the point at place s on, round the cycle and back to it. */
  ghost function Round(e: seq<Point>, s: nat): seq<Point>
    requires s < |e|
  {
    [e[s]] + (e[s + 1..] + e[..s] + [e[s]])
  }

  lemma RoundDrawable(e: seq<Point>, s: nat)
    requires s < |e| && e[s].on && Alternate(e) && (e[|e| - 1].on || e[0].on)
    ensures Drawable(e[s + 1..] + e[..s] + [e[s]])
  {
  }

  lemma PathVisits(e: seq<Point>, s: nat, path: seq<Vertex>, way: seq<Point>)
    requires s < |e| && e[s].on && way == e[s + 1..] + e[..s] + [e[s]] && Drawable(way)
    requires path == [Vertex(1, e[s].x, e[s].y, 0, 0)] + Draw(way)
    ensures OnePath(path) && Visited(path) == Round(e, s)
  {
    DrawVisits(way);
    assert path[1..] == Draw(way);
    assert Point(true, e[s].x, e[s].y) == e[s];
  }

  ghost function StartOf(c: seq<Point>): nat
    requires c != []
  {
    if c[0].on then 0 else 1
  }

  lemma StartsOnCurve(c: seq<Point>)
    requires Startable(c)
    ensures StartOf(c) < |Explicit(c, 0)| && Explicit(c, 0)[StartOf(c)].on
  {
    ExplicitAlternates(c, 0);
    assert Explicit(c, 0) == [c[0]] + Gap(c, 0) + Explicit(c, 1);
    if !c[0].on { ExplicitAlternates(c, 1); }
  }

  /** The vertices of a contour are one path: it visits the completed cycle once round,
      from the first point on the curve back to it, and nothing else. */
  lemma ContourVisits(c: seq<Point>)
    requires Startable(c)
    ensures StartOf(c) < |Explicit(c, 0)| && OnePath(ContourPath(c))
    ensures Visited(ContourPath(c)) == Round(Explicit(c, 0), StartOf(c))
  {
    var e, s := Explicit(c, 0), StartOf(c);
    StartsOnCurve(c);
    ExplicitAlternates(c, 0);
    RoundDrawable(e, s);
    PathVisits(e, s, ContourPath(c), e[s + 1..] + e[..s] + [e[s]]);
  }

  lemma VisitedFirst(v: Vertex, rest: seq<Vertex>)
    ensures Visited([v] + rest)
         == (if v.kind == 3 then [Point(false, v.cx, v.cy), Point(true, v.x, v.y)] else [Point(true, v.x, v.y)]) + Visited(rest)
  {
  }

  lemma {:induction false} VisitedOn(a: seq<Vertex>, b: seq<Vertex>)
    ensures Visited(a + b) == Visited(a) + Visited(b)
    decreases |a|
  {
    if a == [] {
      assert a + b == b;
    } else {
      VisitedOn(a[1..], b);
      VisitedFirst(a[0], a[1..] + b);
      VisitedFirst(a[0], a[1..]);
      assert a + b == [a[0]] + (a[1..] + b) && a == [a[0]] + a[1..];
    }
  }

  /** All contours, each its own round. */
  ghost function Rounds(pts: seq<Point>, ends: seq<nat>, j: nat): seq<Point>
    requires WellFormed(pts, ends) && j <= |ends|
    decreases |ends| - j
  {
    if j == |ends| then []
    else
      StartsOnCurve(Contour(pts, ends, j));
      var c := Contour(pts, ends, j);
      Round(Explicit(c, 0), StartOf(c)) + Rounds(pts, ends, j + 1)
  }

  lemma {:induction false} OutlineVisits(pts: seq<Point>, ends: seq<nat>, j: nat)
    requires WellFormed(pts, ends) && j <= |ends|
    ensures Visited(Outline(pts, ends, j)) == Rounds(pts, ends, j)
    decreases |ends| - j
  {
    if j < |ends| {
      ContourVisits(Contour(pts, ends, j));
      OutlineVisits(pts, ends, j + 1);
      VisitedOn(ContourPath(Contour(pts, ends, j)), Outline(pts, ends, j + 1));
    }
  }
}
