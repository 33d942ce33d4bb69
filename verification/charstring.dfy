/** The Type 2 charstring interpreter (`stbtt__run_charstring`) and its two-pass use
    (`stbtt__GetGlyphShapeT2`): run once to count, allocate, run again to fill. */
module Charstring {
  import opened Common
  import opened FontBytes

  const MOVE: byte := 1
  const LINE: byte := 2
  const CUBIC: byte := 4

  // ------------------------------------------------------------- buffers

  /** A window on the font with a read position (`stbtt__buf`). */
  datatype Buf = Buf(data: seq<byte>, cursor: nat) {
    predicate Valid() { cursor <= |data| }

    function Left(): nat
      requires Valid()
    {
      |data| - cursor
    }

    function Get8(): (r: (byte, Buf))
      requires Valid()
      ensures r.1.Valid() && r.1.data == data
      ensures if cursor < |data| then r.1.cursor == cursor + 1 else r.1 == this
    {
      if cursor >= |data| then (0, this) else (data[cursor], this.(cursor := cursor + 1))
    }

    function Skip(n: int): (r: Buf)
      requires Valid()
      ensures r.Valid() && r.data == data && (n >= 0 ==> r.cursor >= cursor)
    {
      var o := cursor + n;
      this.(cursor := if o > |data| || o < 0 then |data| else o)
    }

    /** After n more bytes. */
    function Passed(n: nat): (r: Buf)
      requires Valid()
      ensures r.Valid() && r.data == data && r.cursor >= cursor
    {
      this.(cursor := if cursor + n > |data| then |data| else cursor + n)
    }

    /** n bytes as a big-endian number, in 32 bits. */
    function Got(n: nat): nat
      requires Valid()
    {
      if n == 0 then 0 else (Got(n - 1) * 256 + Passed(n - 1).Get8().0 as int) % 0x1_0000_0000
    }

    function Get(n: nat): (r: (nat, Buf))
      requires Valid()
      ensures r.1.Valid() && r.1.data == data && r.1.cursor >= cursor
    {
      (Got(n), Passed(n))
    }
  }

  function Range(data: seq<byte>, o: int, s: int): seq<byte> {
    if o < 0 || s < 0 || o > |data| || s > |data| - o then [] else data[o..o + s]
  }

  /** The bytes that n fields of a size take, n * size (SpanIsProduct). */
  function Span(n: nat, size: nat): nat { if n == 0 then 0 else Span(n - 1, size) + size }

  lemma {:induction false} SpanIsProduct(n: nat, size: nat)
    ensures Span(n, size) == n * size
  {
    if n > 0 {
      SpanIsProduct(n - 1, size);
      assert n * size == (n - 1) * size + size;
    }
  }

  /** Where entry i of an index starts, and its size. */
  function IndexSlot(index: seq<byte>, i: nat): (int, int) {
    var (count, b1) := Buf(index, 0).Get(2);
    var (offsize, b2) := b1.Get8();
    var (start, b3) := b2.Skip(Span(i, offsize)).Get(offsize);
    var (end, b4) := b3.Get(offsize);
    (2 + Span(count + 1, offsize) + Int32(start), Int32(end) - Int32(start))
  }

  /** Entry i of an index (`stbtt__cff_index_get`). */
  function IndexGet(index: seq<byte>, i: nat): seq<byte> {
    var (start, size) := IndexSlot(index, i);
    Range(index, start, size)
  }

  /** Subroutine n of an index, numbered from a bias; none if there is no such one. */
  function Subr(index: seq<byte>, n: int): seq<byte> {
    var count := Buf(index, 0).Get(2).0;
    var bias := if count >= 33900 then 32768 else if count >= 1240 then 1131 else 107;
    if n + bias < 0 || n + bias >= count then [] else IndexGet(index, n + bias)
  }

  // ------------------------------------------------------------- drawing

  datatype Vertex = Vertex(kind: byte, x: int, y: int, cx: int, cy: int, cx1: int, cy1: int)

  /** A vertex as the allocated array holds it, every coordinate in 16 bits. */
  function Stored(v: Vertex): Vertex {
    Vertex(v.kind, Int16(v.x), Int16(v.y), Int16(v.cx), Int16(v.cy), Int16(v.cx1), Int16(v.cy1))
  }

  /** C's conversion of a float to an int. */
  function Trunc(r: real): int {
    if r >= 0.0 then r.Floor else -(-r).Floor
  }

  datatype Command =
    | Move(dx: real, dy: real)
    | Line(dx: real, dy: real)
    | Curve(dx1: real, dy1: real, dx2: real, dy2: real, dx3: real, dy3: real)
    | Close

  /** The pen and the point where the current contour began. */
  datatype Pen = Pen(x: real, y: real, firstX: real, firstY: real)

  function Closing(p: Pen): seq<Vertex> {
    if p.firstX != p.x || p.firstY != p.y then [Vertex(LINE, Trunc(p.firstX), Trunc(p.firstY), 0, 0, 0, 0)] else []
  }

  function Apply(p: Pen, c: Command): (Pen, seq<Vertex>) {
    match c
    case Move(dx, dy) =>
      var q := Pen(p.x + dx, p.y + dy, p.x + dx, p.y + dy);
      (q, Closing(p) + [Vertex(MOVE, Trunc(q.x), Trunc(q.y), 0, 0, 0, 0)])
    case Line(dx, dy) =>
      var q := p.(x := p.x + dx, y := p.y + dy);
      (q, [Vertex(LINE, Trunc(q.x), Trunc(q.y), 0, 0, 0, 0)])
    case Curve(dx1, dy1, dx2, dy2, dx3, dy3) =>
      var cx1, cy1 := p.x + dx1, p.y + dy1;
      var cx2, cy2 := cx1 + dx2, cy1 + dy2;
      var q := p.(x := cx2 + dx3, y := cy2 + dy3);
      (q, [Vertex(CUBIC, Trunc(q.x), Trunc(q.y), Trunc(cx1), Trunc(cy1), Trunc(cx2), Trunc(cy2))])
    case Close => (p, Closing(p))
  }

  ghost function Draw(p: Pen, commands: seq<Command>): (Pen, seq<Vertex>)
    decreases |commands|
  {
    if commands == [] then (p, [])
    else
      var (q, out) := Apply(p, commands[0]);
      var (q', more) := Draw(q, commands[1..]);
      (q', out + more)
  }

  // ----------------------------- what each operator draws from its operands

  ghost function LineAt(s: seq<real>): Command
    requires |s| >= 2
  {
    Line(s[0], s[1])
  }

  ghost function CurveAt(s: seq<real>): Command
    requires |s| >= 6
  {
    Curve(s[0], s[1], s[2], s[3], s[4], s[5])
  }

  ghost function Lines(s: seq<real>): seq<Command> {
    if |s| < 2 then [] else [LineAt(s)] + Lines(s[2..])
  }

  ghost function Curves(s: seq<real>): seq<Command> {
    if |s| < 6 then [] else [CurveAt(s)] + Curves(s[6..])
  }

  /** Curves for as long as a line's operands are left after them, then that line. */
  ghost function CurvesThenLine(s: seq<real>): seq<Command>
    requires |s| >= 2
  {
    if |s| >= 8 then [CurveAt(s)] + CurvesThenLine(s[6..]) else [LineAt(s)]
  }

  ghost function LinesThenCurve(s: seq<real>): seq<Command>
    requires |s| >= 6
  {
    if |s| >= 8 then [LineAt(s)] + LinesThenCurve(s[2..]) else [CurveAt(s)]
  }

  /** Lines that are horizontal and vertical in turn. */
  ghost function AlternatingLines(s: seq<real>, horizontal: bool): seq<Command> {
    if s == [] then []
    else [if horizontal then Line(s[0], 0.0) else Line(0.0, s[0])] + AlternatingLines(s[1..], !horizontal)
  }

  /** A curve that leaves along one axis and arrives along the other, except that a
      fifth operand left over at the end bends the arrival. */
  ghost function QuarterTurn(s: seq<real>, horizontal: bool): Command
    requires |s| >= 4
  {
    var extra := if |s| == 5 then s[4] else 0.0;
    if horizontal then Curve(s[0], 0.0, s[1], s[2], extra, s[3]) else Curve(0.0, s[0], s[1], s[2], s[3], extra)
  }

  ghost function AlternatingCurves(s: seq<real>, horizontal: bool): seq<Command> {
    if |s| < 4 then [] else [QuarterTurn(s, horizontal)] + AlternatingCurves(s[4..], !horizontal)
  }

  /** Curves that leave and arrive along the same axis; f bends the first one's
      departure. */
  ghost function ParallelCurves(s: seq<real>, f: real, horizontal: bool): seq<Command> {
    if |s| < 4 then []
    else [if horizontal then Curve(s[0], f, s[1], s[2], s[3], 0.0) else Curve(f, s[0], s[1], s[2], 0.0, s[3])]
         + ParallelCurves(s[4..], 0.0, horizontal)
  }

  ghost function Flex(b1: byte, s: seq<real>): Option<seq<Command>> {
    if b1 == 0x22 && |s| >= 7 then
      Some([Curve(s[0], 0.0, s[1], s[2], s[3], 0.0), Curve(s[4], 0.0, s[5], -s[2], s[6], 0.0)])
    else if b1 == 0x23 && |s| >= 13 then
      Some([CurveAt(s), CurveAt(s[6..])])
    else if b1 == 0x24 && |s| >= 9 then
      Some([Curve(s[0], s[1], s[2], s[3], s[4], 0.0), Curve(s[5], 0.0, s[6], s[7], s[8], -(s[1] + s[3] + s[7]))])
    else if b1 == 0x25 && |s| >= 11 then
      var dx := s[0] + s[2] + s[4] + s[6] + s[8];
      var dy := s[1] + s[3] + s[5] + s[7] + s[9];
      var last := if Abs(dx) > Abs(dy) then (s[10], -dy) else (-dx, s[10]);
      Some([CurveAt(s), Curve(s[6], s[7], s[8], s[9], last.0, last.1)])
    else None
  }

  /** The path operators of Adobe Technical Note 5177; None for too few operands or
      an operator that draws nothing. */
  ghost function Commands(op: byte, b1: byte, s: seq<real>): Option<seq<Command>> {
    var n := |s|;
    if op == 0x15 && n >= 2 then Some([Move(s[n - 2], s[n - 1])])
    else if op == 0x04 && n >= 1 then Some([Move(0.0, s[n - 1])])
    else if op == 0x16 && n >= 1 then Some([Move(s[n - 1], 0.0)])
    else if op == 0x05 && n >= 2 then Some(Lines(s))
    else if (op == 0x06 || op == 0x07) && n >= 1 then Some(AlternatingLines(s, op == 0x06))
    else if (op == 0x1E || op == 0x1F) && n >= 4 then Some(AlternatingCurves(s, op == 0x1F))
    else if op == 0x08 && n >= 6 then Some(Curves(s))
    else if op == 0x18 && n >= 8 then Some(CurvesThenLine(s))
    else if op == 0x19 && n >= 8 then Some(LinesThenCurve(s))
    else if (op == 0x1A || op == 0x1B) && n >= 4 then
      Some(if n % 2 == 1 then ParallelCurves(s[1..], s[0], op == 0x1B) else ParallelCurves(s, 0.0, op == 0x1B))
    else if op == 0x0C then Flex(b1, s)
    else None
  }

  // ---------------------------------------------------------- the machine

  const OPERANDS := 48
  const RETURNS := 10

  /** The subroutine indexes a charstring may call into: the font's local ones (or,
      for a font with an fdselect table, the glyph's own) and the global ones. */
  datatype Font = Font(local: seq<byte>, global: seq<byte>)

  /** `frames` are the callers' buffers, innermost last. */
  datatype Machine = Machine(b: Buf, frames: seq<Buf>, s: seq<real>, maskbits: nat, inHeader: bool, pen: Pen,
                             out: seq<Vertex>)
  {
    ghost predicate Valid() {
      && b.Valid() && (forall f :: 0 <= f < |frames| ==> frames[f].Valid())
      && |frames| <= RETURNS && |s| <= OPERANDS
    }

    /** One more than the bytes left in the buffer of call depth d, 0 if not that deep. */
    ghost function Left(d: nat): nat
      requires Valid()
    {
      if d < |frames| then frames[d].Left() + 1 else if d == |frames| then b.Left() + 1 else 0
    }
  }

  datatype Outcome = Failed | Finished(out: seq<Vertex>) | Running(m: Machine)

  /** A number operand, its first byte b0 already read: its value and what follows. */
  function Number(b0: byte, b: Buf): (r: (real, Buf))
    requires b.Valid()
    ensures r.1.Valid() && r.1.data == b.data && r.1.cursor >= b.cursor
  {
    if b0 == 255 then
      var (v, b') := b.Get(4);
      (Int32(v) as real / 65536.0, b')
    else if b0 == 28 then
      var (v, b') := b.Get(2);
      (Int16(v) as real, b')
    else if b0 >= 251 then
      var (v, b') := b.Get8();
      (Int16(-(b0 as int - 251) * 256 - v as int - 108) as real, b')
    else if b0 >= 247 then
      var (v, b') := b.Get8();
      (Int16((b0 as int - 247) * 256 + v as int + 108) as real, b')
    else
      (Int16(b0 as int - 139) as real, b)
  }

  predicate IsNumber(b0: byte) {
    b0 == 28 || b0 >= 32
  }

  /** Operators and operands that draw nothing and do not end the glyph. */
  predicate IsControl(b0: byte) {
    || b0 == 0x13 || b0 == 0x14 || b0 == 0x01 || b0 == 0x03 || b0 == 0x12 || b0 == 0x17
    || b0 == 0x0A || b0 == 0x1D || b0 == 0x0B || IsNumber(b0)
  }

  /** The shortest encoding of a whole operand (table 1 of Adobe Technical Note 5177). */
  ghost function EncodedInteger(v: int16): seq<byte> {
    if -107 <= v <= 107 then [v + 139]
    else if 108 <= v <= 1131 then [(v - 108) / 256 + 247, (v - 108) % 256]
    else if -1131 <= v <= -108 then [(-v - 108) / 256 + 251, (-v - 108) % 256]
    else [28, v % 0x10000 / 256, v % 256]
  }

  /** A fraction of 65536ths. */
  ghost function EncodedFixed(n: int): seq<byte>
    requires -0x8000_0000 <= n < 0x8000_0000
  {
    var u := n % 0x1_0000_0000;
    [255, u / 0x100_0000, u / 0x1_0000 % 256, u / 0x100 % 256, u % 256]
  }

  /** `text` is what comes next, its first byte already read. */
  ghost predicate Follows(b: Buf, text: seq<byte>)
    requires b.Valid()
  {
    |text| > 0 && b.cursor + |text| - 1 <= |b.data| && b.data[b.cursor..b.cursor + |text| - 1] == text[1..]
  }

  lemma GetTwo(b: Buf)
    requires b.Valid() && b.cursor + 2 <= |b.data|
    ensures b.Get(2) == (b.data[b.cursor] as int * 256 + b.data[b.cursor + 1] as int, b.(cursor := b.cursor + 2))
  {
    assert b.Get(1) == (b.data[b.cursor] as int, b.(cursor := b.cursor + 1)) by { assert b.Get(0) == (0, b); }
  }

  lemma GetFour(b: Buf)
    requires b.Valid() && b.cursor + 4 <= |b.data|
    ensures var d, k := b.data, b.cursor;
            b.Get(4) == (d[k] as int * 0x100_0000 + d[k + 1] as int * 0x1_0000 + d[k + 2] as int * 0x100 + d[k + 3] as int,
                         b.(cursor := k + 4))
  {
    GetTwo(b);
    var d, k := b.data, b.cursor;
    var high := d[k] as int * 256 + d[k + 1] as int;
    assert b.Get(3) == (high * 256 + d[k + 2] as int, b.(cursor := k + 3));
    assert b.Get(4) == ((high * 256 + d[k + 2] as int) * 256 + d[k + 3] as int, b.(cursor := k + 4));
  }

  lemma FollowsAt(b: Buf, text: seq<byte>, k: nat)
    requires b.Valid() && Follows(b, text) && 1 <= k < |text|
    ensures b.data[b.cursor + k - 1] == text[k]
  {
    assert b.data[b.cursor..b.cursor + |text| - 1][k - 1] == text[1..][k - 1];
  }

  lemma Int16Keeps(v: int16)
    ensures Int16(v) == v && Int16(v % 0x10000) == v && v % 0x10000 / 256 * 256 + v % 256 == v % 0x10000
  {
  }

  /** Every whole operand reads back as its value, and takes exactly its encoding. */
  lemma IntegerReadsBack(v: int16, b: Buf)
    requires b.Valid() && Follows(b, EncodedInteger(v))
    ensures var text := EncodedInteger(v);
            IsNumber(text[0]) && Number(text[0], b) == (v as real, b.(cursor := b.cursor + |text| - 1))
  {
    Int16Keeps(v);
    if -107 <= v <= 107 {
    } else if -1131 <= v <= 1131 {
      TwoByteReadsBack(v, b);
    } else {
      FollowsAt(b, EncodedInteger(v), 1);
      FollowsAt(b, EncodedInteger(v), 2);
      GetTwo(b);
    }
  }

  lemma TwoByteReadsBack(v: int16, b: Buf)
    requires 108 <= v <= 1131 || -1131 <= v <= -108
    requires b.Valid() && Follows(b, EncodedInteger(v))
    ensures var b0 := EncodedInteger(v)[0]; IsNumber(b0) && Number(b0, b) == (v as real, b.(cursor := b.cursor + 1))
  {
    var text := EncodedInteger(v);
    FollowsAt(b, text, 1);
    TwoByteValue(v, text[0], text[1], b);
  }

  lemma TwoByteValue(v: int16, b0: byte, b1: byte, b: Buf)
    requires b.Valid() && b.cursor < |b.data| && b.data[b.cursor] == b1
    requires if v > 0 then 247 <= b0 <= 250 && (b0 - 247) as int * 256 + b1 as int + 108 == v as int
             else 251 <= b0 <= 254 && -((b0 - 251) as int * 256) - b1 as int - 108 == v as int
    ensures IsNumber(b0) && Number(b0, b) == (v as real, b.(cursor := b.cursor + 1))
  {
    Int16Keeps(v);
  }

  /** So does every fraction. */
  lemma FixedReadsBack(n: int, b: Buf)
    requires -0x8000_0000 <= n < 0x8000_0000 && b.Valid() && Follows(b, EncodedFixed(n))
    ensures IsNumber(255) && Number(255, b) == (n as real / 65536.0, b.(cursor := b.cursor + 4))
  {
    var text := EncodedFixed(n);
    FollowsAt(b, text, 1);
    FollowsAt(b, text, 2);
    FollowsAt(b, text, 3);
    FollowsAt(b, text, 4);
    GetFour(b);
    FourBytes(n % 0x1_0000_0000);
    assert b.Get(4) == (n % 0x1_0000_0000, b.(cursor := b.cursor + 4));
    Int32Keeps(n);
  }

  lemma Int32Keeps(n: int)
    requires -0x8000_0000 <= n < 0x8000_0000
    ensures Int32(n % 0x1_0000_0000) == n
  {
  }

  lemma FourBytes(u: nat)
    requires u < 0x1_0000_0000
    ensures u == u / 0x100_0000 * 0x100_0000 + u / 0x1_0000 % 256 * 0x1_0000 + u / 0x100 % 256 * 0x100 + u % 256
  {
  }

  /** One operator or operand. */
  ghost function Next(font: Font, m: Machine): (r: Outcome)
    requires m.Valid()
    ensures r.Running? ==> r.m.Valid() && m.out <= r.m.out
    ensures r.Finished? ==> m.out <= r.out
  {
    if m.b.cursor >= |m.b.data| then Failed
    else
      var (b0, b) := m.b.Get8();
      if b0 == 0x13 || b0 == 0x14 then
        var bits := m.maskbits + if m.inHeader then |m.s| / 2 else 0;
        Running(m.(b := b.Skip((bits + 7) / 8), maskbits := bits, inHeader := false, s := []))
      else if b0 == 0x01 || b0 == 0x03 || b0 == 0x12 || b0 == 0x17 then
        Running(m.(b := b, maskbits := m.maskbits + |m.s| / 2, s := []))
      else if b0 == 0x0A || b0 == 0x1D then
        if |m.s| == 0 || |m.frames| >= RETURNS then Failed
        else
          var v := Trunc(m.s[|m.s| - 1]);
          var subr := Subr(if b0 == 0x0A then font.local else font.global, v);
          if subr == [] then Failed
          else Running(m.(b := Buf(subr, 0), frames := m.frames + [b], s := m.s[..|m.s| - 1]))
      else if b0 == 0x0B then
        if m.frames == [] then Failed
        else Running(m.(b := m.frames[|m.frames| - 1], frames := m.frames[..|m.frames| - 1]))
      else if b0 == 0x0E then
        Finished(m.out + Closing(m.pen))
      else if IsNumber(b0) then
        if |m.s| >= OPERANDS then Failed
        else
          var (v, b') := Number(b0, b);
          Running(m.(b := b', s := m.s + [v]))
      else
        var (b1, b') := if b0 == 0x0C then b.Get8() else (0, b);
        var drawn := Commands(b0, b1, m.s);
        if drawn.None? then Failed
        else
          var (pen, more) := Draw(m.pen, drawn.value);
          var moved := b0 == 0x15 || b0 == 0x04 || b0 == 0x16;
          Running(m.(b := b', s := [], pen := pen, out := m.out + more, inHeader := m.inHeader && !moved))
  }

  /** A step within a call uses up bytes of that call's buffer; entering a call
      spends the call operator's byte first, and returning gives the callee's rest up. */
  lemma NextDecreases(font: Font, m: Machine)
    requires m.Valid()
    ensures Next(font, m).Running? ==>
            var m' := Next(font, m).m;
            exists d: nat :: d <= RETURNS && m'.Left(d) < m.Left(d) && forall e: nat :: e < d ==> m'.Left(e) == m.Left(e)
  {
    if !Next(font, m).Running? { return; }
    var m', h := Next(font, m).m, |m.frames|;
    if |m'.frames| < h {
      assert m'.Left(h) == 0;
      assert forall e: nat :: e < h ==> m'.Left(e) == m.Left(e);
    } else {
      assert m'.Left(h) < m.Left(h);
      assert forall e: nat :: e < h ==> m'.Left(e) == m.Left(e);
    }
  }

  /** How many operators and operands are read until the interpretation ends. That
      it is defined for every machine is the proof that every charstring, however it
      calls, ends. */
  ghost function Steps(font: Font, m: Machine): nat
    requires m.Valid()
    decreases m.Left(0), m.Left(1), m.Left(2), m.Left(3), m.Left(4), m.Left(5), m.Left(6), m.Left(7), m.Left(8),
              m.Left(9), m.Left(10)
  {
    NextDecreases(font, m);
    match Next(font, m)
    case Running(m') => 1 + Steps(font, m')
    case _ => 0
  }

  /** The whole interpretation. */
  ghost function Run(font: Font, m: Machine): (r: Outcome)
    requires m.Valid()
    ensures !r.Running?
    ensures r.Finished? ==> m.out <= r.out
    decreases Steps(font, m)
  {
    var r := Next(font, m);
    if r.Running? then Run(font, r.m) else r
  }

  // ------------------------------------------------------- the two contexts

  datatype Box = Box(minX: int, maxX: int, minY: int, maxY: int)

  ghost predicate Within(p: (int, int), b: Box) {
    b.minX <= p.0 <= b.maxX && b.minY <= p.1 <= b.maxY
  }

  /** The points a vertex puts into the bounding box: a cubic's control points too. */
  ghost function Tracked(v: Vertex): seq<(int, int)> {
    if v.kind == CUBIC then [(v.x, v.y), (v.cx, v.cy), (v.cx1, v.cy1)] else [(v.x, v.y)]
  }

  ghost predicate Touches(pts: seq<(int, int)>, b: Box) {
    && (exists t :: 0 <= t < |pts| && pts[t].0 == b.minX) && (exists t :: 0 <= t < |pts| && pts[t].0 == b.maxX)
    && (exists t :: 0 <= t < |pts| && pts[t].1 == b.minY) && (exists t :: 0 <= t < |pts| && pts[t].1 == b.maxY)
  }

  /** b is the least box that holds all the points. */
  ghost predicate LeastBox(pts: seq<(int, int)>, b: Box) {
    Touches(pts, b) && forall t :: 0 <= t < |pts| ==> Within(pts[t], b)
  }

  function Widened(b: Box, p: (int, int)): Box {
    Box(Min(p.0, b.minX), Max(p.0, b.maxX), Min(p.1, b.minY), Max(p.1, b.maxY))
  }

  lemma LeastBoxWidened(pts: seq<(int, int)>, b: Box, p: (int, int))
    requires LeastBox(pts, b)
    ensures LeastBox(pts + [p], Widened(b, p))
  {
    var more, w := pts + [p], Widened(b, p);
    assert forall t :: 0 <= t < |pts| ==> more[t] == pts[t];
    assert more[|pts|] == p;
    var t :| 0 <= t < |pts| && pts[t].0 == b.minX;
    assert more[t].0 == w.minX || more[|pts|].0 == w.minX;
    t :| 0 <= t < |pts| && pts[t].0 == b.maxX;
    assert more[t].0 == w.maxX || more[|pts|].0 == w.maxX;
    t :| 0 <= t < |pts| && pts[t].1 == b.minY;
    assert more[t].1 == w.minY || more[|pts|].1 == w.minY;
    t :| 0 <= t < |pts| && pts[t].1 == b.maxY;
    assert more[t].1 == w.maxY || more[|pts|].1 == w.maxY;
  }

  ghost function AllTracked(out: seq<Vertex>): seq<(int, int)> {
    if out == [] then [] else AllTracked(out[..|out| - 1]) + Tracked(out[|out| - 1])
  }

  /** The drawing context of one pass (`stbtt__csctx`): with `bounds` set it counts
      and measures, otherwise it fills the array it was given. */
  class Context {
    const bounds: bool
    var started: bool
    var firstX: real
    var firstY: real
    var x: real
    var y: real
    var minX: int
    var maxX: int
    var minY: int
    var maxY: int
    const pvertices: array<Vertex>
    var num: nat
    ghost var emitted: seq<Vertex>
    /** The commands an operator still has to perform and what that will have led to. */
    ghost var plan: seq<Command>
    ghost var promise: (Pen, seq<Vertex>)

    constructor (bounds: bool, pvertices: array<Vertex>)
      ensures OnPlan() && plan == [] && this.bounds == bounds && this.pvertices == pvertices
      ensures PenNow() == Pen(0.0, 0.0, 0.0, 0.0) && emitted == []
    {
      this.bounds := bounds;
      this.pvertices := pvertices;
      started, num, emitted := false, 0, [];
      firstX, firstY, x, y := 0.0, 0.0, 0.0, 0.0;
      minX, maxX, minY, maxY := 0, 0, 0, 0;
      plan, promise := [], (Pen(0.0, 0.0, 0.0, 0.0), []);
    }

    ghost predicate Valid()
      reads `num, `emitted, `started, `minX, `maxX, `minY, `maxY, pvertices
    {
      && num == |emitted|
      && (bounds ==> Boxed(AllTracked(emitted)))
      && (!bounds ==> num <= pvertices.Length && forall k :: 0 <= k < num ==> pvertices[k] == Stored(emitted[k]))
    }

    /** Nothing tracked yet, or the box is the least one that holds all of it. */
    ghost predicate Boxed(pts: seq<(int, int)>)
      reads `started, `minX, `maxX, `minY, `maxY
    {
      started == (pts != []) && (started ==> LeastBox(pts, Box(minX, maxX, minY, maxY)))
    }

    ghost function PenNow(): Pen
      reads `x, `y, `firstX, `firstY
    {
      Pen(x, y, firstX, firstY)
    }

    /** There is room for n more vertices; counting needs none. */
    ghost predicate Room(n: nat)
      reads `emitted
    {
      bounds || |emitted| + n <= pvertices.Length
    }

    method TrackVertex(px: int, py: int, ghost pts: seq<(int, int)>)
      requires Boxed(pts)
      modifies this`started, this`minX, this`maxX, this`minY, this`maxY
      ensures Boxed(pts + [(px, py)])
    {
      ghost var box := Box(minX, maxX, minY, maxY);
      if started { LeastBoxWidened(pts, box, (px, py)); }
      if px > maxX || !started { maxX := px; }
      if py > maxY || !started { maxY := py; }
      if px < minX || !started { minX := px; }
      if py < minY || !started { minY := py; }
      assert started ==> Box(minX, maxX, minY, maxY) == Widened(box, (px, py));
      assert (pts + [(px, py)])[|pts|] == (px, py);
      started := true;
    }

    method Measure(v: Vertex, ghost pts: seq<(int, int)>)
      requires Boxed(pts)
      modifies this`started, this`minX, this`maxX, this`minY, this`maxY
      ensures Boxed(pts + Tracked(v))
    {
      TrackVertex(v.x, v.y, pts);
      if v.kind == CUBIC {
        TrackVertex(v.cx, v.cy, pts + [(v.x, v.y)]);
        TrackVertex(v.cx1, v.cy1, pts + [(v.x, v.y)] + [(v.cx, v.cy)]);
        assert pts + [(v.x, v.y)] + [(v.cx, v.cy)] + [(v.cx1, v.cy1)] == pts + Tracked(v);
      }
    }

    method V(kind: byte, vx: int, vy: int, cx: int, cy: int, cx1: int, cy1: int)
      requires Valid() && Room(1)
      modifies this`num, this`emitted, this`started, this`minX, this`maxX, this`minY, this`maxY, pvertices
      ensures Valid() && emitted == old(emitted) + [Vertex(kind, vx, vy, cx, cy, cx1, cy1)]
    {
      var v := Vertex(kind, vx, vy, cx, cy, cx1, cy1);
      assert AllTracked(emitted + [v]) == AllTracked(emitted) + Tracked(v) by {
        assert (emitted + [v])[..|emitted|] == emitted;
      }
      if bounds {
        Measure(v, AllTracked(emitted));
      } else {
        pvertices[num] := Stored(v);
      }
      num := num + 1;
      emitted := emitted + [v];
    }

    /** The effect every drawing method below promises: that of its command. */
    twostate predicate Did(c: Command)
      reads this, pvertices
    {
      && Valid() && plan == old(plan) && promise == old(promise)
      && PenNow() == Apply(old(PenNow()), c).0 && emitted == old(emitted) + Apply(old(PenNow()), c).1
    }

    method CloseShape()
      requires Valid() && Room(|Apply(PenNow(), Close).1|)
      modifies this, pvertices
      ensures Did(Close)
    {
      if firstX != x || firstY != y {
        V(LINE, Trunc(firstX), Trunc(firstY), 0, 0, 0, 0);
      }
    }

    method RMoveTo(dx: real, dy: real)
      requires Valid() && Room(|Apply(PenNow(), Move(dx, dy)).1|)
      modifies this, pvertices
      ensures Did(Move(dx, dy))
    {
      ghost var p, out := PenNow(), emitted;
      CloseShape();
      assert PenNow() == p && emitted == out + Closing(p);
      x := x + dx;
      firstX := x;
      y := y + dy;
      firstY := y;
      V(MOVE, Trunc(x), Trunc(y), 0, 0, 0, 0);
      assert emitted == out + (Closing(p) + [Vertex(MOVE, Trunc(x), Trunc(y), 0, 0, 0, 0)]);
    }

    method RLineTo(dx: real, dy: real)
      requires Valid() && Room(1)
      modifies this, pvertices
      ensures Did(Line(dx, dy))
    {
      x := x + dx;
      y := y + dy;
      V(LINE, Trunc(x), Trunc(y), 0, 0, 0, 0);
    }

    method RCurveTo(dx1: real, dy1: real, dx2: real, dy2: real, dx3: real, dy3: real)
      requires Valid() && Room(1)
      modifies this, pvertices
      ensures Did(Curve(dx1, dy1, dx2, dy2, dx3, dy3))
    {
      var cx1 := x + dx1;
      var cy1 := y + dy1;
      var cx2 := cx1 + dx2;
      var cy2 := cy1 + dy2;
      x := cx2 + dx3;
      y := cy2 + dy3;
      V(CUBIC, Trunc(x), Trunc(y), Trunc(cx1), Trunc(cy1), Trunc(cx2), Trunc(cy2));
    }

    /** Performing the rest of the plan leads to what was promised, and there is room. */
    ghost predicate OnPlan()
      reads this, pvertices
    {
      && Valid()
      && (var (pen, more) := Draw(PenNow(), plan); pen == promise.0 && emitted + more == promise.1)
      && (bounds || |promise.1| <= pvertices.Length)
    }

    ghost method Begin(commands: seq<Command>)
      requires OnPlan() && plan == [] && Room(|Draw(PenNow(), commands).1|)
      modifies `plan, `promise
      ensures OnPlan() && plan == commands
      ensures promise == (Draw(PenNow(), commands).0, emitted + Draw(PenNow(), commands).1)
    {
      plan := commands;
      promise := (Draw(PenNow(), commands).0, emitted + Draw(PenNow(), commands).1);
    }

    method Do(c: Command)
      requires Valid() && Room(|Apply(PenNow(), c).1|)
      modifies this, pvertices
      ensures Did(c)
    {
      match c {
        case Move(dx, dy) => RMoveTo(dx, dy);
        case Line(dx, dy) => RLineTo(dx, dy);
        case Curve(dx1, dy1, dx2, dy2, dx3, dy3) => RCurveTo(dx1, dy1, dx2, dy2, dx3, dy3);
        case Close => CloseShape();
      }
    }

    /** The next command of the plan. */
    method Perform(c: Command)
      requires OnPlan() && plan != [] && c == plan[0]
      modifies this, pvertices
      ensures OnPlan() && plan == old(plan)[1..] && promise == old(promise)
    {
      ghost var out, now := emitted, Apply(PenNow(), c).1;
      ghost var rest := Draw(Apply(PenNow(), c).0, plan[1..]).1;
      assert out + (now + rest) == out + now + rest;
      Do(c);
      plan := plan[1..];
    }
  }

  // ----------------------------------------------------------- operators

  /** rlineto. */
  method LineLoop(c: Context, s: seq<real>)
    requires c.OnPlan() && c.plan == Lines(s)
    modifies c, c.pvertices
    ensures c.OnPlan() && c.plan == [] && c.promise == old(c.promise)
  {
    var i := 0;
    while i + 1 < |s|
      invariant i <= |s| && c.OnPlan() && c.plan == Lines(s[i..]) && c.promise == old(c.promise)
    {
      assert s[i..][2..] == s[i + 2..];
      c.Perform(Line(s[i], s[i + 1]));
      i := i + 2;
    }
  }

  /** rrcurveto. */
  method CurveLoop(c: Context, s: seq<real>)
    requires c.OnPlan() && c.plan == Curves(s)
    modifies c, c.pvertices
    ensures c.OnPlan() && c.plan == [] && c.promise == old(c.promise)
  {
    var i := 0;
    while i + 5 < |s|
      invariant i <= |s| && c.OnPlan() && c.plan == Curves(s[i..]) && c.promise == old(c.promise)
    {
      assert s[i..][6..] == s[i + 6..];
      c.Perform(Curve(s[i], s[i + 1], s[i + 2], s[i + 3], s[i + 4], s[i + 5]));
      i := i + 6;
    }
  }

  /** rcurveline. */
  method CurveLineLoop(c: Context, s: seq<real>)
    requires |s| >= 8 && c.OnPlan() && c.plan == CurvesThenLine(s)
    modifies c, c.pvertices
    ensures c.OnPlan() && c.plan == [] && c.promise == old(c.promise)
  {
    var i := 0;
    while i + 5 < |s| - 2
      invariant i + 2 <= |s| && c.OnPlan() && c.plan == CurvesThenLine(s[i..]) && c.promise == old(c.promise)
    {
      assert s[i..][6..] == s[i + 6..];
      c.Perform(Curve(s[i], s[i + 1], s[i + 2], s[i + 3], s[i + 4], s[i + 5]));
      i := i + 6;
    }
    c.Perform(Line(s[i], s[i + 1]));
  }

  /** rlinecurve. */
  method LineCurveLoop(c: Context, s: seq<real>)
    requires |s| >= 8 && c.OnPlan() && c.plan == LinesThenCurve(s)
    modifies c, c.pvertices
    ensures c.OnPlan() && c.plan == [] && c.promise == old(c.promise)
  {
    var i := 0;
    while i + 1 < |s| - 6
      invariant i + 6 <= |s| && c.OnPlan() && c.plan == LinesThenCurve(s[i..]) && c.promise == old(c.promise)
    {
      assert s[i..][2..] == s[i + 2..];
      c.Perform(Line(s[i], s[i + 1]));
      i := i + 2;
    }
    c.Perform(Curve(s[i], s[i + 1], s[i + 2], s[i + 3], s[i + 4], s[i + 5]));
  }

  /** hlineto and vlineto: one loop, entered at its top or at its middle. */
  method AlternatingLineLoop(c: Context, s: seq<real>, horizontal: bool)
    requires c.OnPlan() && c.plan == AlternatingLines(s, horizontal)
    modifies c, c.pvertices
    ensures c.OnPlan() && c.plan == [] && c.promise == old(c.promise)
  {
    var i := 0;
    var enterMiddle := !horizontal;
    while true
      invariant i <= |s| && c.OnPlan() && c.plan == AlternatingLines(s[i..], !enterMiddle)
      invariant c.promise == old(c.promise)
      decreases |s| - i, enterMiddle
    {
      if !enterMiddle {
        if i >= |s| { break; }
        assert s[i..][1..] == s[i + 1..];
        c.Perform(Line(s[i], 0.0));
        i := i + 1;
      }
      enterMiddle := false;
      if i >= |s| { break; }
      assert s[i..][1..] == s[i + 1..];
      c.Perform(Line(0.0, s[i]));
      i := i + 1;
    }
  }

  /** hvcurveto and vhcurveto: likewise. */
  method AlternatingCurveLoop(c: Context, s: seq<real>, horizontal: bool)
    requires c.OnPlan() && c.plan == AlternatingCurves(s, horizontal)
    modifies c, c.pvertices
    ensures c.OnPlan() && c.plan == [] && c.promise == old(c.promise)
  {
    var i := 0;
    var enterMiddle := horizontal;
    while true
      invariant i <= |s| && c.OnPlan() && c.plan == AlternatingCurves(s[i..], enterMiddle)
      invariant c.promise == old(c.promise)
      decreases |s| - i, enterMiddle
    {
      if !enterMiddle {
        if i + 3 >= |s| { break; }
        assert s[i..][4..] == s[i + 4..];
        c.Perform(Curve(0.0, s[i], s[i + 1], s[i + 2], s[i + 3], if |s| - i == 5 then s[i + 4] else 0.0));
        i := i + 4;
      }
      enterMiddle := false;
      if i + 3 >= |s| { break; }
      assert s[i..][4..] == s[i + 4..];
      c.Perform(Curve(s[i], 0.0, s[i + 1], s[i + 2], if |s| - i == 5 then s[i + 4] else 0.0, s[i + 3]));
      i := i + 4;
    }
  }

  /** hhcurveto and vvcurveto. */
  method ParallelCurveLoop(c: Context, s: seq<real>, horizontal: bool)
    requires |s| >= 4 && c.OnPlan()
    requires c.plan == if |s| % 2 == 1 then ParallelCurves(s[1..], s[0], horizontal) else ParallelCurves(s, 0.0, horizontal)
    modifies c, c.pvertices
    ensures c.OnPlan() && c.plan == [] && c.promise == old(c.promise)
  {
    var i, f := 0, 0.0;
    if |s| % 2 == 1 {
      f := s[i];
      i := i + 1;
    }
    assert s[0..] == s;
    while i + 3 < |s|
      invariant i <= |s| && c.OnPlan() && c.plan == ParallelCurves(s[i..], f, horizontal) && c.promise == old(c.promise)
    {
      assert s[i..][4..] == s[i + 4..];
      if horizontal {
        c.Perform(Curve(s[i], f, s[i + 1], s[i + 2], s[i + 3], 0.0));
      } else {
        c.Perform(Curve(f, s[i], s[i + 1], s[i + 2], 0.0, s[i + 3]));
      }
      f := 0.0;
      i := i + 4;
    }
  }

  /** The two-byte flex operators. */
  method FlexOperator(c: Context, b1: byte, s: seq<real>) returns (ok: bool)
    requires c.OnPlan()
    requires Flex(b1, s).Some? ==> c.plan == Flex(b1, s).value
    modifies c, c.pvertices
    ensures ok == Flex(b1, s).Some?
    ensures ok ==> c.OnPlan() && c.plan == [] && c.promise == old(c.promise)
  {
    if b1 == 0x22 {
      if |s| < 7 { return false; }
      c.Perform(Curve(s[0], 0.0, s[1], s[2], s[3], 0.0));
      c.Perform(Curve(s[4], 0.0, s[5], -s[2], s[6], 0.0));
    } else if b1 == 0x23 {
      if |s| < 13 { return false; }
      c.Perform(Curve(s[0], s[1], s[2], s[3], s[4], s[5]));
      c.Perform(Curve(s[6], s[7], s[8], s[9], s[10], s[11]));
    } else if b1 == 0x24 {
      if |s| < 9 { return false; }
      c.Perform(Curve(s[0], s[1], s[2], s[3], s[4], 0.0));
      c.Perform(Curve(s[5], 0.0, s[6], s[7], s[8], -(s[1] + s[3] + s[7])));
    } else if b1 == 0x25 {
      if |s| < 11 { return false; }
      var dx6, dy6 := s[10], s[10];
      var dx := s[0] + s[2] + s[4] + s[6] + s[8];
      var dy := s[1] + s[3] + s[5] + s[7] + s[9];
      if Abs(dx) > Abs(dy) {
        dy6 := -dy;
      } else {
        dx6 := -dx;
      }
      c.Perform(Curve(s[0], s[1], s[2], s[3], s[4], s[5]));
      c.Perform(Curve(s[6], s[7], s[8], s[9], dx6, dy6));
    } else {
      return false;
    }
    ok := true;
  }

  /** The operators that draw, carried out on the operand stack s. */
  method Operator(c: Context, op: byte, b1: byte, s: seq<real>) returns (ok: bool)
    requires c.OnPlan()
    requires Commands(op, b1, s).Some? ==> c.plan == Commands(op, b1, s).value
    modifies c, c.pvertices
    ensures ok == Commands(op, b1, s).Some?
    ensures ok ==> c.OnPlan() && c.plan == [] && c.promise == old(c.promise)
  {
    var n := |s|;
    if op == 0x15 {
      if n < 2 { return false; }
      c.Perform(Move(s[n - 2], s[n - 1]));
    } else if op == 0x04 {
      if n < 1 { return false; }
      c.Perform(Move(0.0, s[n - 1]));
    } else if op == 0x16 {
      if n < 1 { return false; }
      c.Perform(Move(s[n - 1], 0.0));
    } else if op == 0x05 {
      if n < 2 { return false; }
      LineLoop(c, s);
    } else if op == 0x06 || op == 0x07 {
      if n < 1 { return false; }
      AlternatingLineLoop(c, s, op == 0x06);
    } else if op == 0x1E || op == 0x1F {
      if n < 4 { return false; }
      AlternatingCurveLoop(c, s, op == 0x1F);
    } else if op == 0x08 {
      if n < 6 { return false; }
      CurveLoop(c, s);
    } else if op == 0x18 {
      if n < 8 { return false; }
      CurveLineLoop(c, s);
    } else if op == 0x19 {
      if n < 8 { return false; }
      LineCurveLoop(c, s);
    } else if op == 0x1A || op == 0x1B {
      if n < 4 { return false; }
      ParallelCurveLoop(c, s, op == 0x1B);
    } else if op == 0x0C {
      ok := FlexOperator(c, b1, s);
      return;
    } else {
      return false;
    }
    ok := true;
  }

  // ------------------------------------------------------------ the passes

  ghost function Start(data: seq<byte>): Machine {
    Machine(Buf(data, 0), [], [], 0, true, Pen(0.0, 0.0, 0.0, 0.0), [])
  }

  /** What a glyph's charstring draws, if it is well formed. */
  ghost function Glyph(font: Font, data: seq<byte>): Outcome {
    Run(font, Start(data))
  }

  lemma RunNext(font: Font, m: Machine)
    requires m.Valid()
    ensures Run(font, m) == if Next(font, m).Running? then Run(font, Next(font, m).m) else Next(font, m)
    ensures Next(font, m).Running? ==> Steps(font, Next(font, m).m) < Steps(font, m)
    ensures m.b.cursor >= |m.b.data| ==> Run(font, m) == Failed
  {
  }

  /** A filling pass runs a charstring known to end well in an array that holds all of it. */
  ghost predicate Fits(font: Font, m: Machine, c: Context)
    requires m.Valid()
  {
    !c.bounds ==> Run(font, m).Finished? && |Run(font, m).out| <= c.pvertices.Length
  }

  /** A drawing operator: b0 has been read and b follows. */
  method Operate(font: Font, ghost m: Machine, c: Context, b0: byte, b: Buf, s: seq<real>, inHeader: bool)
    returns (ok: bool, b': Buf, inHeader': bool)
    requires m.Valid() && m.b.cursor < |m.b.data| && (b0, b) == m.b.Get8() && m.s == s && m.inHeader == inHeader
    requires !IsControl(b0) && b0 != 0x0E
    requires c.OnPlan() && c.plan == [] && c.PenNow() == m.pen && c.emitted == m.out && Fits(font, m, c)
    modifies c, c.pvertices
    ensures ok == Next(font, m).Running?
    ensures ok ==> c.OnPlan() && c.plan == []
    ensures ok ==> Next(font, m).m == m.(b := b', s := [], inHeader := inHeader', pen := c.PenNow(), out := c.emitted)
  {
    RunNext(font, m);
    var b1: byte := 0;
    b' := b;
    if b0 == 0x0C {
      var (second, after) := b.Get8();
      b1, b' := second, after;
    }
    inHeader' := inHeader && !(b0 == 0x15 || b0 == 0x04 || b0 == 0x16);
    if Commands(b0, b1, s).Some? {
      c.Begin(Commands(b0, b1, s).value);
    }
    ok := Operator(c, b0, b1, s);
  }

  /** The interpreter's variables hold machine m, whose first byte is b0, then b. */
  ghost predicate Read(m: Machine, b0: byte, b: Buf, s: array<real>, sp: nat, subrStack: array<Buf>, height: nat)
    reads s, subrStack
  {
    && m.Valid() && m.b.cursor < |m.b.data| && (b0, b) == m.b.Get8()
    && sp <= s.Length == OPERANDS && height <= subrStack.Length == RETURNS
    && m.s == s[..sp] && m.frames == subrStack[..height]
  }

  method CallSubr(font: Font, ghost m: Machine, b0: byte, b: Buf, s: array<real>, sp: nat,
                  subrStack: array<Buf>, height: nat)
    returns (ok: bool, b': Buf, sp': nat, height': nat)
    requires Read(m, b0, b, s, sp, subrStack, height) && (b0 == 0x0A || b0 == 0x1D)
    modifies subrStack
    ensures ok == Next(font, m).Running?
    ensures ok ==> sp' <= s.Length && height' <= subrStack.Length
                   && Next(font, m).m == m.(b := b', s := s[..sp'], frames := subrStack[..height'])
  {
    ok, b', sp', height' := false, b, sp, height;
    if sp < 1 { return; }
    sp' := sp - 1;
    var v := Trunc(s[sp']);
    if height >= RETURNS { return; }
    subrStack[height] := b;
    height' := height + 1;
    b' := Buf(Subr(if b0 == 0x0A then font.local else font.global, v), 0);
    ok := b'.data != [];
    assert s[..sp] == s[..sp'] + [s[sp']];
    assert subrStack[..height'] == m.frames + [b];
  }

  method PushNumber(font: Font, ghost m: Machine, b0: byte, b: Buf, s: array<real>, sp: nat,
                    ghost subrStack: array<Buf>, ghost height: nat)
    returns (ok: bool, b': Buf, sp': nat)
    requires Read(m, b0, b, s, sp, subrStack, height)
    requires IsNumber(b0)
    modifies s
    ensures ok == Next(font, m).Running?
    ensures ok ==> sp' <= s.Length && Next(font, m).m == m.(b := b', s := s[..sp'])
  {
    var (f, after) := Number(b0, b);
    b', sp' := after, sp;
    ok := sp < OPERANDS;
    if ok {
      s[sp] := f;
      sp' := sp + 1;
      assert s[..sp'] == m.s + [f];
    }
  }

  /** The interpreter's scalars: the current buffer, the heights of the operand and
      the return stack, the hint count and whether the hints are still to come. */
  datatype Registers = Registers(b: Buf, sp: nat, height: nat, maskbits: nat, inHeader: bool)

  /** Hints, subroutine calls and returns, and operands: everything that does not draw. */
  method Control(font: Font, ghost m: Machine, b0: byte, r: Registers, s: array<real>, subrStack: array<Buf>)
    returns (ok: bool, r': Registers)
    requires Read(m, b0, r.b, s, r.sp, subrStack, r.height) && m.maskbits == r.maskbits && m.inHeader == r.inHeader
    requires IsControl(b0)
    modifies s, subrStack
    ensures ok == Next(font, m).Running?
    ensures ok ==> r'.sp <= s.Length && r'.height <= subrStack.Length
    ensures ok ==> Next(font, m).m == m.(b := r'.b, s := s[..r'.sp], frames := subrStack[..r'.height],
                                         maskbits := r'.maskbits, inHeader := r'.inHeader)
  {
    ok, r' := true, r;
    if b0 == 0x13 || b0 == 0x14 {
      var bits := r.maskbits + if r.inHeader then r.sp / 2 else 0;
      r' := r.(maskbits := bits, inHeader := false, b := r.b.Skip((bits + 7) / 8), sp := 0);
    } else if b0 == 0x01 || b0 == 0x03 || b0 == 0x12 || b0 == 0x17 {
      r' := r.(maskbits := r.maskbits + r.sp / 2, sp := 0);
    } else if b0 == 0x0A || b0 == 0x1D {
      var b, sp, height;
      ok, b, sp, height := CallSubr(font, m, b0, r.b, s, r.sp, subrStack, r.height);
      r' := r.(b := b, sp := sp, height := height);
    } else if b0 == 0x0B {
      ok := r.height > 0;
      if ok {
        r' := r.(b := subrStack[r.height - 1], height := r.height - 1);
      }
    } else {
      var b, sp;
      ok, b, sp := PushNumber(font, m, b0, r.b, s, r.sp, subrStack, r.height);
      r' := r.(b := b, sp := sp);
    }
  }

  /** The interpreter's variables, its two stacks and the context hold machine m. */
  ghost predicate At(m: Machine, r: Registers, s: array<real>, subrStack: array<Buf>, c: Context)
    reads s, subrStack, c, c.pvertices
  {
    && m.Valid() && r.sp <= s.Length == OPERANDS && r.height <= subrStack.Length == RETURNS
    && m.b == r.b && m.s == s[..r.sp] && m.frames == subrStack[..r.height]
    && m.maskbits == r.maskbits && m.inHeader == r.inHeader && m.pen == c.PenNow() && m.out == c.emitted
    && c.OnPlan() && c.plan == []
  }

  method ControlStep(font: Font, ghost m: Machine, b0: byte, r: Registers, s: array<real>, subrStack: array<Buf>,
                     ghost c: Context)
    returns (ok: bool, r': Registers, ghost m': Machine)
    requires At(m, r, s, subrStack, c) && r.b.cursor < |r.b.data| && b0 == r.b.Get8().0 && IsControl(b0)
    modifies s, subrStack
    ensures ok ==> At(m', r', s, subrStack, c) && Run(font, m') == Run(font, m) && Steps(font, m') < Steps(font, m)
    ensures !ok ==> Run(font, m) == Failed
  {
    RunNext(font, m);
    ok, r' := Control(font, m, b0, r.(b := r.b.Get8().1), s, subrStack);
    m' := if ok then Next(font, m).m else m;
    assert c.OnPlan();
  }

  method DrawStep(font: Font, ghost m: Machine, b0: byte, r: Registers, s: array<real>, ghost subrStack: array<Buf>,
                  c: Context)
    returns (ok: bool, r': Registers, ghost m': Machine)
    requires At(m, r, s, subrStack, c) && r.b.cursor < |r.b.data| && b0 == r.b.Get8().0
    requires !IsControl(b0) && b0 != 0x0E && Fits(font, m, c)
    modifies c, c.pvertices
    ensures ok ==> At(m', r', s, subrStack, c) && Run(font, m') == Run(font, m) && Steps(font, m') < Steps(font, m)
    ensures !ok ==> Run(font, m) == Failed
  {
    var b, inHeader;
    ok, b, inHeader := Operate(font, m, c, b0, r.b.Get8().1, s[..r.sp], r.inHeader);
    r' := r.(b := b, sp := 0, inHeader := inHeader);
    RunNext(font, m);
    m' := if ok then Next(font, m).m else m;
  }

  method EndStep(font: Font, ghost m: Machine, ghost r: Registers, ghost s: array<real>, ghost subrStack: array<Buf>,
                 c: Context)
    returns (ok: bool)
    requires At(m, r, s, subrStack, c) && r.b.cursor < |r.b.data| && r.b.Get8().0 == 0x0E && Fits(font, m, c)
    modifies c, c.pvertices
    ensures ok && c.Valid() && Run(font, m) == Finished(c.emitted)
  {
    RunNext(font, m);
    c.CloseShape();
    ok := true;
  }

  /** One pass over a charstring. The operand and return stacks are fixed arrays. */
  method RunCharstring(font: Font, data: seq<byte>, c: Context) returns (ok: bool)
    requires c.OnPlan() && c.plan == [] && c.PenNow() == Pen(0.0, 0.0, 0.0, 0.0) && c.emitted == []
    requires Fits(font, Start(data), c)
    modifies c, c.pvertices
    ensures ok == Glyph(font, data).Finished?
    ensures ok ==> c.Valid() && c.emitted == Glyph(font, data).out
  {
    var s := new real[OPERANDS];
    var subrStack := new Buf[RETURNS];
    var r := Registers(Buf(data, 0), 0, 0, 0, true);
    ghost var m := Start(data);
    while r.b.cursor < |r.b.data|
      invariant At(m, r, s, subrStack, c)
      invariant Run(font, m) == Glyph(font, data)
      decreases Steps(font, m)
    {
      var b0 := r.b.Get8().0;
      if b0 == 0x0E {
        ok := EndStep(font, m, r, s, subrStack, c);
        return;
      }
      if IsControl(b0) {
        ok, r, m := ControlStep(font, m, b0, r, s, subrStack, c);
      } else {
        ok, r, m := DrawStep(font, m, b0, r, s, subrStack, c);
      }
      if !ok { return; }
    }
    RunNext(font, m);
    ok := false;
  }

  /** Counting, allocating what was counted, and filling. A glyph whose charstring
      does not end well has no vertices. */
  method GlyphShapeT2(font: Font, data: seq<byte>) returns (pvertices: array?<Vertex>, num: nat)
    ensures (pvertices != null) == Glyph(font, data).Finished?
    ensures pvertices == null ==> num == 0
    ensures pvertices != null ==>
              pvertices.Length == num == |Glyph(font, data).out|
              && forall k :: 0 <= k < num ==> pvertices[k] == Stored(Glyph(font, data).out[k])
  {
    var none := new Vertex[0];
    var count := new Context(true, none);
    var ok := RunCharstring(font, data, count);
    if ok {
      var vertices := new Vertex[count.num];
      var output := new Context(false, vertices);
      ok := RunCharstring(font, data, output);
      if ok {
        assert output.num == count.num;
        return vertices, output.num;
      }
    }
    return null, 0;
  }
}
