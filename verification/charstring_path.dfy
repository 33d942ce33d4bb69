/** Glyphs written as Type 2 charstrings (Adobe Technical Note 5177), and what the
    interpreter makes of them. */
module CharstringPath {
  import opened Common
  import opened FontBytes
  import opened Charstring

  /** A contour as a designer has it, in absolute coordinates. */
  datatype Piece = LineTo(x: int, y: int) | CurveTo(x1: int, y1: int, x2: int, y2: int, x: int, y: int)

  datatype Contour = Contour(x: int, y: int, pieces: seq<Piece>)

  // -------------------------------------------------------------- as vertices

  function VertexOf(p: Piece): Vertex {
    match p
    case LineTo(x, y) => Vertex(2, x, y, 0, 0, 0, 0)
    case CurveTo(x1, y1, x2, y2, x, y) => Vertex(4, x, y, x1, y1, x2, y2)
  }

  function Vertices(pieces: seq<Piece>): (vs: seq<Vertex>)
    ensures |vs| == |pieces|
  {
    if pieces == [] then [] else [VertexOf(pieces[0])] + Vertices(pieces[1..])
  }

  function End(pieces: seq<Piece>, x: int, y: int): (int, int) {
    if pieces == [] then (x, y) else (pieces[|pieces| - 1].x, pieces[|pieces| - 1].y)
  }

  function ClosingLine(x: int, y: int, firstX: int, firstY: int): seq<Vertex> {
    if x == firstX && y == firstY then [] else [Vertex(2, firstX, firstY, 0, 0, 0, 0)]
  }

  /** A contour that does not end where it began is closed by a line. */
  function ContourVertices(c: Contour): seq<Vertex> {
    var last := End(c.pieces, c.x, c.y);
    [Vertex(1, c.x, c.y, 0, 0, 0, 0)] + Vertices(c.pieces) + ClosingLine(last.0, last.1, c.x, c.y)
  }

  function AllVertices(contours: seq<Contour>): seq<Vertex> {
    if contours == [] then [] else ContourVertices(contours[0]) + AllVertices(contours[1..])
  }

  // ------------------------------------------------------------ as a charstring

  ghost function Numbers(vs: seq<int16>): seq<byte> {
    if vs == [] then [] else EncodedInteger(vs[0]) + Numbers(vs[1..])
  }

  ghost predicate Short(v: int) { -0x8000 <= v < 0x8000 }

  ghost predicate ShortStep(x0: int, y0: int, x1: int, y1: int) { Short(x1 - x0) && Short(y1 - y0) }

  /** Every step of the piece can be said in 16 bits. */
  ghost predicate Sayable(p: Piece, x: int, y: int) {
    match p
    case LineTo(x1, y1) => ShortStep(x, y, x1, y1)
    case CurveTo(x1, y1, x2, y2, x3, y3) => ShortStep(x, y, x1, y1) && ShortStep(x1, y1, x2, y2) && ShortStep(x2, y2, x3, y3)
  }

  ghost predicate AllSayable(pieces: seq<Piece>, x: int, y: int) {
    pieces == [] || (Sayable(pieces[0], x, y) && AllSayable(pieces[1..], pieces[0].x, pieces[0].y))
  }

  ghost predicate PathSayable(contours: seq<Contour>, x: int, y: int)
    decreases |contours|
  {
    contours == []
    || (var c := contours[0]; var last := End(c.pieces, c.x, c.y);
        ShortStep(x, y, c.x, c.y) && AllSayable(c.pieces, c.x, c.y) && PathSayable(contours[1..], last.0, last.1))
  }

  /** rlineto or rrcurveto, with the steps in front. */
  ghost function PieceText(p: Piece, x: int, y: int): seq<byte>
    requires Sayable(p, x, y)
  {
    match p
    case LineTo(x1, y1) => Numbers([x1 - x, y1 - y]) + [5]
    case CurveTo(x1, y1, x2, y2, x3, y3) => Numbers([x1 - x, y1 - y, x2 - x1, y2 - y1, x3 - x2, y3 - y2]) + [8]
  }

  ghost function PiecesText(pieces: seq<Piece>, x: int, y: int): seq<byte>
    requires AllSayable(pieces, x, y)
  {
    if pieces == [] then [] else PieceText(pieces[0], x, y) + PiecesText(pieces[1..], pieces[0].x, pieces[0].y)
  }

  /** An rmoveto and the pieces, in front of what follows. */
  ghost function ContourText(c: Contour, x: int, y: int, rest: seq<byte>): seq<byte>
    requires ShortStep(x, y, c.x, c.y) && AllSayable(c.pieces, c.x, c.y)
  {
    Numbers([c.x - x, c.y - y]) + ([21] + (PiecesText(c.pieces, c.x, c.y) + rest))
  }

  /** The contours, and endchar. */
  ghost function PathText(contours: seq<Contour>, x: int, y: int): seq<byte>
    requires PathSayable(contours, x, y)
    decreases |contours|
  {
    if contours == [] then [14]
    else
      var c := contours[0];
      var last := End(c.pieces, c.x, c.y);
      ContourText(c, x, y, PathText(contours[1..], last.0, last.1))
  }

  // --------------------------------------------------------------- one by one

  /** What the machine reads next. */
  ghost predicate Coming(m: Machine, text: seq<byte>) { m.Valid() && Stands(m.b.data, m.b.cursor, text) }

  lemma Split(m: Machine, a: seq<byte>, b: seq<byte>)
    requires Coming(m, a + b)
    ensures Coming(m, a) && Stands(m.b.data, m.b.cursor + |a|, b)
  {
    StandsSplit(m.b.data, m.b.cursor, a, b);
  }

  lemma NumberComing(b: Buf, text: seq<byte>)
    requires b.Valid() && |text| > 0 && Stands(b.data, b.cursor, text)
    ensures b.cursor < |b.data| && b.Get8() == (text[0], b.(cursor := b.cursor + 1)) && Follows(b.Get8().1, text)
  {
    assert b.data[b.cursor..b.cursor + |text|][0] == text[0];
    assert b.data[b.cursor + 1..b.cursor + |text|] == b.data[b.cursor..b.cursor + |text|][1..];
  }

  lemma NumberIsPushed(font: Font, m: Machine, v: int16) returns (m': Machine)
    requires Coming(m, EncodedInteger(v)) && |m.s| < 48
    ensures m' == m.(b := m.b.(cursor := m.b.cursor + |EncodedInteger(v)|), s := m.s + [v as real])
    ensures m'.Valid() && Run(font, m) == Run(font, m')
  {
    var text := EncodedInteger(v);
    NumberComing(m.b, text);
    var b := m.b.Get8().1;
    IntegerReadsBack(v, b);
    m' := m.(b := m.b.(cursor := m.b.cursor + |text|), s := m.s + [v as real]);
    PushNext(font, m, text[0], b, v as real, m'.b);
    RunNext(font, m);
  }

  lemma PushNext(font: Font, m: Machine, b0: byte, b: Buf, v: real, after: Buf)
    requires m.Valid() && m.b.cursor < |m.b.data| && m.b.Get8() == (b0, b) && IsNumber(b0) && |m.s| < 48
    requires Charstring.Number(b0, b) == (v, after)
    ensures Next(font, m) == Running(m.(b := after, s := m.s + [v]))
  {
  }

  ghost function Reals(vs: seq<int16>): (rs: seq<real>)
    ensures |rs| == |vs| && forall k :: 0 <= k < |vs| ==> rs[k] == vs[k] as real
  {
    if vs == [] then [] else [vs[0] as real] + Reals(vs[1..])
  }

  lemma {:induction false} NumbersArePushed(font: Font, m: Machine, vs: seq<int16>, rest: seq<byte>) returns (m': Machine)
    requires Coming(m, Numbers(vs) + rest) && |m.s| + |vs| <= 48
    ensures m' == m.(b := m'.b, s := m.s + Reals(vs)) && m'.b.data == m.b.data
    ensures Coming(m', rest) && Run(font, m) == Run(font, m')
    decreases |vs|
  {
    if vs == [] {
      assert Numbers(vs) + rest == rest;
      return m;
    }
    Associate(EncodedInteger(vs[0]), Numbers(vs[1..]), rest);
    Split(m, EncodedInteger(vs[0]), Numbers(vs[1..]) + rest);
    m' := NumberIsPushed(font, m, vs[0]);
    Associate(m.s, [vs[0] as real], Reals(vs[1..]));
    m' := NumbersArePushed(font, m', vs[1..], rest);
  }

  /** A drawing operator of one byte. */
  lemma OperatorDraws(font: Font, m: Machine, op: byte, rest: seq<byte>, commands: seq<Command>, pen: Pen, more: seq<Vertex>)
    returns (m': Machine)
    requires Coming(m, [op] + rest) && (op == 5 || op == 8 || op == 21)
    requires Commands(op, 0, m.s) == Some(commands) && Draw(m.pen, commands) == (pen, more)
    ensures m' == m.(b := m'.b, s := [], pen := pen, out := m.out + more, inHeader := m'.inHeader) && m'.b.data == m.b.data
    ensures Coming(m', rest) && Run(font, m) == Run(font, m')
  {
    Split(m, [op], rest);
    NumberComing(m.b, [op]);
    var b := m.b.(cursor := m.b.cursor + 1);
    m' := m.(b := b, s := [], pen := pen, out := m.out + more, inHeader := m.inHeader && op != 21);
    assert Next(font, m) == Running(m');
    RunNext(font, m);
  }

  lemma EndDraws(font: Font, m: Machine)
    requires Coming(m, [14])
    ensures Run(font, m) == Finished(m.out + Closing(m.pen))
  {
    NumberComing(m.b, [14]);
    assert Next(font, m) == Finished(m.out + Closing(m.pen));
    RunNext(font, m);
  }

  // ------------------------------------------------------------ piece by piece

  /** The pen is at (x, y) and the contour began at (firstX, firstY). */
  ghost predicate At(p: Pen, x: int, y: int, firstX: int, firstY: int) {
    p == Pen(x as real, y as real, firstX as real, firstY as real)
  }

  /** Steps between whole places are exact, and whole places are kept whole. */
  lemma WholeStep(a: int, b: int)
    ensures a as real + (b - a) as real == b as real && Trunc(b as real) == b
  {
  }

  lemma LineDraws(pen: Pen, x: int, y: int, firstX: int, firstY: int, x1: int, y1: int) returns (pen': Pen)
    requires At(pen, x, y, firstX, firstY)
    ensures var c := Line((x1 - x) as real, (y1 - y) as real);
            At(pen', x1, y1, firstX, firstY) && Draw(pen, [c]) == (pen', [Vertex(2, x1, y1, 0, 0, 0, 0)])
  {
    var c := Line((x1 - x) as real, (y1 - y) as real);
    pen' := Pen(x1 as real, y1 as real, firstX as real, firstY as real);
    WholeStep(x, x1);
    WholeStep(y, y1);
    assert Apply(pen, c) == (pen', [Vertex(2, x1, y1, 0, 0, 0, 0)]);
    OneDraws(pen, c);
  }

  lemma OneDraws(pen: Pen, c: Command)
    ensures Draw(pen, [c]) == Apply(pen, c)
  {
    assert [c][1..] == [];
    assert Draw(Apply(pen, c).0, []) == (Apply(pen, c).0, []) && Apply(pen, c).1 + [] == Apply(pen, c).1;
  }

  /** The steps of a curve piece from (x, y). */
  ghost predicate StepsOf(p: Piece, x: int, y: int, d: seq<real>) {
    && p.CurveTo? && |d| == 6 && d[0] == (p.x1 - x) as real && d[1] == (p.y1 - y) as real
    && d[2] == (p.x2 - p.x1) as real && d[3] == (p.y2 - p.y1) as real
    && d[4] == (p.x - p.x2) as real && d[5] == (p.y - p.y2) as real
  }

  lemma CurveDraws(pen: Pen, x: int, y: int, firstX: int, firstY: int, p: Piece, d: seq<real>) returns (pen': Pen, c: Command)
    requires At(pen, x, y, firstX, firstY) && StepsOf(p, x, y, d)
    ensures c == Curve(d[0], d[1], d[2], d[3], d[4], d[5])
    ensures At(pen', p.x, p.y, firstX, firstY) && Draw(pen, [c]) == (pen', [VertexOf(p)])
  {
    c := Curve(d[0], d[1], d[2], d[3], d[4], d[5]);
    pen' := Pen(p.x as real, p.y as real, firstX as real, firstY as real);
    WholeStep(x, p.x1);
    WholeStep(y, p.y1);
    WholeStep(p.x1, p.x2);
    WholeStep(p.y1, p.y2);
    WholeStep(p.x2, p.x);
    WholeStep(p.y2, p.y);
    assert Apply(pen, c) == (pen', [VertexOf(p)]);
    OneDraws(pen, c);
  }

  lemma ClosingIs(pen: Pen, x: int, y: int, firstX: int, firstY: int)
    requires At(pen, x, y, firstX, firstY)
    ensures Closing(pen) == ClosingLine(x, y, firstX, firstY)
  {
    WholeStep(x, firstX);
    WholeStep(y, firstY);
  }

  lemma MoveDraws(pen: Pen, x: int, y: int, firstX: int, firstY: int, x1: int, y1: int) returns (pen': Pen)
    requires At(pen, x, y, firstX, firstY)
    ensures var c := Move((x1 - x) as real, (y1 - y) as real);
            At(pen', x1, y1, x1, y1)
            && Draw(pen, [c]) == (pen', ClosingLine(x, y, firstX, firstY) + [Vertex(1, x1, y1, 0, 0, 0, 0)])
  {
    var c := Move((x1 - x) as real, (y1 - y) as real);
    pen' := Pen(x1 as real, y1 as real, x1 as real, y1 as real);
    WholeStep(x, x1);
    WholeStep(y, y1);
    ClosingIs(pen, x, y, firstX, firstY);
    assert Apply(pen, c) == (pen', Closing(pen) + [Vertex(1, x1, y1, 0, 0, 0, 0)]);
    OneDraws(pen, c);
  }

  lemma OneLine(dx: real, dy: real)
    ensures Commands(5, 0, [dx, dy]) == Some([Line(dx, dy)])
  {
    assert [dx, dy][2..] == [] && Lines([dx, dy]) == [Line(dx, dy)] + Lines([]) == [Line(dx, dy)];
  }

  lemma OneCurve(s: seq<real>)
    requires |s| == 6
    ensures Commands(8, 0, s) == Some([Curve(s[0], s[1], s[2], s[3], s[4], s[5])])
  {
    assert s[6..] == [] && Curves(s) == [CurveAt(s)] + Curves([]) == [CurveAt(s)];
  }

  lemma TwoPushed(font: Font, m: Machine, dx: int16, dy: int16, rest: seq<byte>) returns (m': Machine)
    requires Coming(m, Numbers([dx, dy]) + rest) && m.s == []
    ensures m' == m.(b := m'.b, s := [dx as real, dy as real]) && m'.b.data == m.b.data
    ensures Coming(m', rest) && Run(font, m) == Run(font, m')
  {
    m' := NumbersArePushed(font, m, [dx, dy], rest);
    assert m'.s == [dx as real, dy as real];
  }

  lemma LineRuns(font: Font, m: Machine, x: int, y: int, firstX: int, firstY: int, x1: int, y1: int, rest: seq<byte>)
    returns (m': Machine)
    requires Coming(m, [5] + rest) && m.s == [(x1 - x) as real, (y1 - y) as real] && At(m.pen, x, y, firstX, firstY)
    ensures Coming(m', rest) && m'.s == [] && At(m'.pen, x1, y1, firstX, firstY)
    ensures m'.out == m.out + [Vertex(2, x1, y1, 0, 0, 0, 0)] && Run(font, m) == Run(font, m')
  {
    var dx, dy := (x1 - x) as real, (y1 - y) as real;
    OneLine(dx, dy);
    var pen := LineDraws(m.pen, x, y, firstX, firstY, x1, y1);
    m' := OperatorDraws(font, m, 5, rest, [Line(dx, dy)], pen, [Vertex(2, x1, y1, 0, 0, 0, 0)]);
  }

  lemma MoveRuns(font: Font, m: Machine, x: int, y: int, firstX: int, firstY: int, x1: int, y1: int, rest: seq<byte>)
    returns (m': Machine)
    requires Coming(m, [21] + rest) && m.s == [(x1 - x) as real, (y1 - y) as real] && At(m.pen, x, y, firstX, firstY)
    ensures Coming(m', rest) && m'.s == [] && At(m'.pen, x1, y1, x1, y1)
    ensures m'.out == m.out + (ClosingLine(x, y, firstX, firstY) + [Vertex(1, x1, y1, 0, 0, 0, 0)])
    ensures Run(font, m) == Run(font, m')
  {
    var dx, dy := (x1 - x) as real, (y1 - y) as real;
    var pen := MoveDraws(m.pen, x, y, firstX, firstY, x1, y1);
    m' := OperatorDraws(font, m, 21, rest, [Move(dx, dy)], pen, ClosingLine(x, y, firstX, firstY) + [Vertex(1, x1, y1, 0, 0, 0, 0)]);
  }

  lemma CurveReadsBack(font: Font, m: Machine, p: Piece, x: int, y: int, firstX: int, firstY: int, d: seq<int16>, rest: seq<byte>)
    returns (m': Machine)
    requires StepsOf(p, x, y, Reals(d))
    requires Coming(m, Numbers(d) + ([8] + rest)) && m.s == [] && At(m.pen, x, y, firstX, firstY)
    ensures Coming(m', rest) && m'.s == [] && At(m'.pen, p.x, p.y, firstX, firstY)
    ensures m'.out == m.out + [VertexOf(p)] && Run(font, m) == Run(font, m')
  {
    var n := NumbersArePushed(font, m, d, [8] + rest);
    assert n.s == Reals(d);
    OneCurve(n.s);
    var pen, c := CurveDraws(m.pen, x, y, firstX, firstY, p, n.s);
    m' := OperatorDraws(font, n, 8, rest, [c], pen, [VertexOf(p)]);
  }

  lemma PieceReadsBack(font: Font, m: Machine, p: Piece, x: int, y: int, firstX: int, firstY: int, rest: seq<byte>)
    returns (m': Machine)
    requires Sayable(p, x, y) && Coming(m, PieceText(p, x, y) + rest) && m.s == [] && At(m.pen, x, y, firstX, firstY)
    ensures Coming(m', rest) && m'.s == [] && At(m'.pen, p.x, p.y, firstX, firstY) && m'.out == m.out + [VertexOf(p)]
    ensures Run(font, m) == Run(font, m')
  {
    match p
    case LineTo(x1, y1) => {
      Associate(Numbers([x1 - x, y1 - y]), [5], rest);
      var n := TwoPushed(font, m, x1 - x, y1 - y, [5] + rest);
      m' := LineRuns(font, n, x, y, firstX, firstY, x1, y1, rest);
    }
    case CurveTo(x1, y1, x2, y2, x3, y3) => {
      var d: seq<int16> := [x1 - x, y1 - y, x2 - x1, y2 - y1, x3 - x2, y3 - y2];
      Associate(Numbers(d), [8], rest);
      m' := CurveReadsBack(font, m, p, x, y, firstX, firstY, d, rest);
    }
  }

  lemma {:induction false} PiecesReadBack(font: Font, m: Machine, pieces: seq<Piece>, x: int, y: int, firstX: int, firstY: int,
                                          rest: seq<byte>)
    returns (m': Machine)
    requires AllSayable(pieces, x, y) && Coming(m, PiecesText(pieces, x, y) + rest)
    requires m.s == [] && At(m.pen, x, y, firstX, firstY)
    ensures var last := End(pieces, x, y);
            Coming(m', rest) && m'.s == [] && At(m'.pen, last.0, last.1, firstX, firstY) && m'.out == m.out + Vertices(pieces)
    ensures Run(font, m) == Run(font, m')
    decreases |pieces|
  {
    if pieces == [] {
      assert PiecesText(pieces, x, y) + rest == rest;
      return m;
    }
    var p := pieces[0];
    Associate(PieceText(p, x, y), PiecesText(pieces[1..], p.x, p.y), rest);
    m' := PieceReadsBack(font, m, p, x, y, firstX, firstY, PiecesText(pieces[1..], p.x, p.y) + rest);
    Associate(m.out, [VertexOf(p)], Vertices(pieces[1..]));
    m' := PiecesReadBack(font, m', pieces[1..], p.x, p.y, firstX, firstY, rest);
  }

  lemma Regrouped<T>(out: seq<T>, a: seq<T>, move: seq<T>, b: seq<T>, c: seq<T>, d: seq<T>)
    ensures ((out + (a + move)) + b) + (c + d) == out + (a + ((move + b + c) + d))
  {
  }

  lemma MoveReadsBack(font: Font, m: Machine, x: int, y: int, firstX: int, firstY: int, x1: int, y1: int, rest: seq<byte>)
    returns (m': Machine)
    requires ShortStep(x, y, x1, y1) && Coming(m, Numbers([x1 - x, y1 - y]) + ([21] + rest))
    requires m.s == [] && At(m.pen, x, y, firstX, firstY)
    ensures Coming(m', rest) && m'.s == [] && At(m'.pen, x1, y1, x1, y1) && Run(font, m) == Run(font, m')
    ensures m'.out == m.out + (ClosingLine(x, y, firstX, firstY) + [Vertex(1, x1, y1, 0, 0, 0, 0)])
  {
    m' := TwoPushed(font, m, x1 - x, y1 - y, [21] + rest);
    m' := MoveRuns(font, m', x, y, firstX, firstY, x1, y1, rest);
  }

  lemma ContourReadsBack(font: Font, m: Machine, c: Contour, x: int, y: int, firstX: int, firstY: int, rest: seq<byte>)
    returns (m': Machine)
    requires ShortStep(x, y, c.x, c.y) && AllSayable(c.pieces, c.x, c.y) && Coming(m, ContourText(c, x, y, rest))
    requires m.s == [] && At(m.pen, x, y, firstX, firstY)
    ensures var last := End(c.pieces, c.x, c.y); Coming(m', rest) && m'.s == [] && At(m'.pen, last.0, last.1, c.x, c.y)
    ensures m'.out == (m.out + (ClosingLine(x, y, firstX, firstY) + [Vertex(1, c.x, c.y, 0, 0, 0, 0)])) + Vertices(c.pieces)
    ensures Run(font, m) == Run(font, m')
  {
    var pieces := PiecesText(c.pieces, c.x, c.y);
    m' := MoveReadsBack(font, m, x, y, firstX, firstY, c.x, c.y, pieces + rest);
    m' := PiecesReadBack(font, m', c.pieces, c.x, c.y, c.x, c.y, rest);
  }

  /** From the middle of a glyph: the contour at hand is closed, and the others follow. */
  lemma {:induction false} RestReadsBack(font: Font, m: Machine, contours: seq<Contour>, x: int, y: int, firstX: int, firstY: int)
    requires PathSayable(contours, x, y) && Coming(m, PathText(contours, x, y))
    requires m.s == [] && At(m.pen, x, y, firstX, firstY)
    ensures Run(font, m) == Finished(m.out + (ClosingLine(x, y, firstX, firstY) + AllVertices(contours)))
    decreases |contours|
  {
    var a := ClosingLine(x, y, firstX, firstY);
    if contours == [] {
      EndDraws(font, m);
      ClosingIs(m.pen, x, y, firstX, firstY);
      assert a + [] == a;
    } else {
      var c := contours[0];
      var last := End(c.pieces, c.x, c.y);
      var rest := PathText(contours[1..], last.0, last.1);
      var n := ContourReadsBack(font, m, c, x, y, firstX, firstY, rest);
      RestReadsBack(font, n, contours[1..], last.0, last.1, c.x, c.y);
      Regrouped(m.out, a, [Vertex(1, c.x, c.y, 0, 0, 0, 0)], Vertices(c.pieces), ClosingLine(last.0, last.1, c.x, c.y),
                AllVertices(contours[1..]));
    }
  }

  /** Any glyph of contours of lines and curves, written step by step, is drawn as just those
      contours, each closed. */
  lemma PathReadsBack(font: Font, contours: seq<Contour>, data: seq<byte>)
    requires PathSayable(contours, 0, 0) && Stands(data, 0, PathText(contours, 0, 0))
    ensures Glyph(font, data) == Finished(AllVertices(contours))
  {
    var m := Charstring.Start(data);
    RestReadsBack(font, m, contours, 0, 0, 0, 0);
    assert [] + AllVertices(contours) == AllVertices(contours);
  }
}
