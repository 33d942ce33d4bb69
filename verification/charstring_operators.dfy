/** What each operator of a Type 2 charstring stands for, one command at a time, by the places
    of its operands (sections 4.1 to 4.3 and 4.7 of Adobe Technical Note 5177). */
module CharstringOperators {
  import opened Common
  import opened FontBytes
  import opened Charstring
  import opened CharstringPath
  import opened CffIndex

  // ------------------------------------------------------------ moves and lines

  /** The moves take the operands on top of the stack, whatever lies under them. */
  lemma Moves(b1: byte, s: seq<real>)
    ensures |s| >= 2 ==> Commands(21, b1, s) == Some([Command.Move(s[|s| - 2], s[|s| - 1])])
    ensures |s| >= 1 ==> Commands(22, b1, s) == Some([Command.Move(s[|s| - 1], 0.0)])
    ensures |s| >= 1 ==> Commands(4, b1, s) == Some([Command.Move(0.0, s[|s| - 1])])
  {
  }

  lemma {:induction false} LinesAt(s: seq<real>, k: nat)
    ensures |Lines(s)| == |s| / 2
    ensures k < |s| / 2 ==> Lines(s)[k] == Line(s[2 * k], s[2 * k + 1])
  {
    if |s| >= 2 { LinesAt(s[2..], if k > 0 then k - 1 else 0); }
  }

  lemma {:induction false} CurvesAt(s: seq<real>, k: nat)
    ensures |Curves(s)| == |s| / 6
    ensures k < |s| / 6 ==>
              Curves(s)[k] == Curve(s[6 * k], s[6 * k + 1], s[6 * k + 2], s[6 * k + 3], s[6 * k + 4], s[6 * k + 5])
  {
    if |s| >= 6 { CurvesAt(s[6..], if k > 0 then k - 1 else 0); }
  }

  /** rlineto and rrcurveto: as many as there are operands for. */
  lemma LinesAndCurves(b1: byte, s: seq<real>, k: nat)
    ensures |s| >= 2 ==> Commands(5, b1, s).Some? && |Commands(5, b1, s).value| == |s| / 2
    ensures k < |s| / 2 ==> Commands(5, b1, s).value[k] == Line(s[2 * k], s[2 * k + 1])
    ensures |s| >= 6 ==> Commands(8, b1, s).Some? && |Commands(8, b1, s).value| == |s| / 6
    ensures k < |s| / 6 ==>
              Commands(8, b1, s).value[k]
              == Curve(s[6 * k], s[6 * k + 1], s[6 * k + 2], s[6 * k + 3], s[6 * k + 4], s[6 * k + 5])
  {
    LinesAt(s, k);
    CurvesAt(s, k);
  }

  lemma {:induction false} AlternatingAt(s: seq<real>, horizontal: bool, k: nat)
    ensures |AlternatingLines(s, horizontal)| == |s|
    ensures k < |s| ==> AlternatingLines(s, horizontal)[k] == if horizontal == (k % 2 == 0) then Line(s[k], 0.0) else Line(0.0, s[k])
  {
    if s != [] {
      var rest := AlternatingLines(s[1..], !horizontal);
      AlternatingAt(s[1..], !horizontal, if k > 0 then k - 1 else 0);
      if 0 < k < |s| {
        assert AlternatingLines(s, horizontal)[k] == rest[k - 1] && s[1..][k - 1] == s[k];
        assert (k - 1) % 2 == 0 <==> k % 2 != 0;
      }
    }
  }

  /** hlineto begins along x and vlineto along y, and then they turn at every operand. */
  lemma TurningLines(b1: byte, s: seq<real>, k: nat)
    requires k < |s|
    ensures Commands(6, b1, s).Some? && |Commands(6, b1, s).value| == |s| == |Commands(7, b1, s).value|
    ensures Commands(6, b1, s).value[k] == if k % 2 == 0 then Line(s[k], 0.0) else Line(0.0, s[k])
    ensures Commands(7, b1, s).value[k] == if k % 2 == 0 then Line(0.0, s[k]) else Line(s[k], 0.0)
  {
    AlternatingAt(s, true, k);
    AlternatingAt(s, false, k);
  }

  // ------------------------------------------------------------------- curves

  lemma {:induction false} CurvesThenLineAt(s: seq<real>, k: nat)
    requires |s| >= 2
    ensures var n := (|s| - 2) / 6;
            && |CurvesThenLine(s)| == n + 1 && CurvesThenLine(s)[n] == Line(s[6 * n], s[6 * n + 1])
            && (k < n ==> CurvesThenLine(s)[k]
                          == Curve(s[6 * k], s[6 * k + 1], s[6 * k + 2], s[6 * k + 3], s[6 * k + 4], s[6 * k + 5]))
    decreases |s|
  {
    if |s| >= 8 {
      CurvesThenLineAt(s[6..], if k > 0 then k - 1 else 0);
      CurvesBehind(s, CurvesThenLine(s[6..]), (|s| - 8) / 6, k);
    }
  }

  /** A curve in front moves the others up by one and their operands by six. */
  lemma CurvesBehind(s: seq<real>, rest: seq<Command>, n: nat, k: nat)
    requires |s| >= 8 && |rest| == n + 1 == (|s| - 2) / 6 && rest[n] == Line(s[6..][6 * n], s[6..][6 * n + 1])
    requires var t, j := s[6..], if k > 0 then k - 1 else 0;
             j < n ==> rest[j] == Curve(t[6 * j], t[6 * j + 1], t[6 * j + 2], t[6 * j + 3], t[6 * j + 4], t[6 * j + 5])
    ensures var all := [CurveAt(s)] + rest;
            && all[n + 1] == Line(s[6 * (n + 1)], s[6 * (n + 1) + 1])
            && (k < n + 1 ==> all[k] == Curve(s[6 * k], s[6 * k + 1], s[6 * k + 2], s[6 * k + 3], s[6 * k + 4], s[6 * k + 5]))
  {
  }

  lemma {:induction false} LinesThenCurveAt(s: seq<real>, k: nat)
    requires |s| >= 6
    ensures var n := (|s| - 6) / 2; var j := 2 * n;
            && |LinesThenCurve(s)| == n + 1
            && LinesThenCurve(s)[n] == Curve(s[j], s[j + 1], s[j + 2], s[j + 3], s[j + 4], s[j + 5])
            && (k < n ==> LinesThenCurve(s)[k] == Line(s[2 * k], s[2 * k + 1]))
    decreases |s|
  {
    if |s| >= 8 { LinesThenCurveAt(s[2..], if k > 0 then k - 1 else 0); }
  }

  /** rcurveline ends with a line, and rlinecurve with a curve. */
  lemma MixedEnds(b1: byte, s: seq<real>, k: nat)
    requires |s| >= 8
    ensures var drawn := Commands(0x18, b1, s); var n := (|s| - 2) / 6;
            && drawn.Some? && |drawn.value| == n + 1 && drawn.value[n] == Line(s[6 * n], s[6 * n + 1])
            && (k < n ==> drawn.value[k] == Curve(s[6 * k], s[6 * k + 1], s[6 * k + 2], s[6 * k + 3], s[6 * k + 4], s[6 * k + 5]))
    ensures var drawn := Commands(0x19, b1, s); var n := (|s| - 6) / 2; var j := 2 * n;
            && drawn.Some? && |drawn.value| == n + 1
            && drawn.value[n] == Curve(s[j], s[j + 1], s[j + 2], s[j + 3], s[j + 4], s[j + 5])
            && (k < n ==> drawn.value[k] == Line(s[2 * k], s[2 * k + 1]))
  {
    CurvesThenLineAt(s, k);
    LinesThenCurveAt(s, k);
  }

  lemma {:induction false} QuartersAt(s: seq<real>, horizontal: bool, k: nat)
    requires k < |s| / 4
    ensures var j := 4 * k; var extra := if |s| == j + 5 then s[j + 4] else 0.0;
            && |AlternatingCurves(s, horizontal)| == |s| / 4
            && AlternatingCurves(s, horizontal)[k] == if horizontal == (k % 2 == 0)
                                                     then Curve(s[j], 0.0, s[j + 1], s[j + 2], extra, s[j + 3])
                                                     else Curve(0.0, s[j], s[j + 1], s[j + 2], s[j + 3], extra)
    decreases |s|
  {
    if |s| >= 8 {
      QuartersAt(s[4..], !horizontal, if k > 0 then k - 1 else 0);
    } else {
      assert AlternatingCurves(s[4..], !horizontal) == [];
    }
  }

  /** hvcurveto leaves along x and arrives along y, vhcurveto the other way, and they take
      turns; only a fifth operand left at the very end bends the last arrival. */
  lemma TurningCurves(b1: byte, s: seq<real>, k: nat)
    requires k < |s| / 4
    ensures Commands(0x1F, b1, s).Some? && Commands(0x1E, b1, s).Some?
    ensures |Commands(0x1F, b1, s).value| == |s| / 4 == |Commands(0x1E, b1, s).value|
    ensures var j := 4 * k; var extra := if |s| == j + 5 then s[j + 4] else 0.0;
            var alongX := Curve(s[j], 0.0, s[j + 1], s[j + 2], extra, s[j + 3]);
            var alongY := Curve(0.0, s[j], s[j + 1], s[j + 2], s[j + 3], extra);
            && Commands(0x1F, b1, s).value[k] == (if k % 2 == 0 then alongX else alongY)
            && Commands(0x1E, b1, s).value[k] == (if k % 2 == 0 then alongY else alongX)
  {
    QuartersAt(s, true, k);
    QuartersAt(s, false, k);
  }

  lemma {:induction false} ParallelsAt(s: seq<real>, f: real, horizontal: bool, k: nat)
    requires k < |s| / 4
    ensures var j := 4 * k; var bend := if k == 0 then f else 0.0;
            && |ParallelCurves(s, f, horizontal)| == |s| / 4
            && ParallelCurves(s, f, horizontal)[k] == if horizontal then Curve(s[j], bend, s[j + 1], s[j + 2], s[j + 3], 0.0)
                                                      else Curve(bend, s[j], s[j + 1], s[j + 2], 0.0, s[j + 3])
    decreases |s|
  {
    if |s| >= 8 {
      ParallelsAt(s[4..], 0.0, horizontal, if k > 0 then k - 1 else 0);
    } else {
      assert ParallelCurves(s[4..], 0.0, horizontal) == [];
    }
  }

  /** hhcurveto and vvcurveto leave and arrive along one axis; with an odd number of operands
      the first of them bends the first departure. */
  lemma ParallelStrokes(b1: byte, s: seq<real>, k: nat)
    requires |s| >= 4 && k < (|s| - |s| % 2) / 4
    ensures Commands(0x1B, b1, s).Some? && Commands(0x1A, b1, s).Some?
    ensures |Commands(0x1B, b1, s).value| == (|s| - |s| % 2) / 4 == |Commands(0x1A, b1, s).value|
    ensures var j := |s| % 2 + 4 * k; var bend := if k == 0 && |s| % 2 == 1 then s[0] else 0.0;
            && Commands(0x1B, b1, s).value[k] == Curve(s[j], bend, s[j + 1], s[j + 2], s[j + 3], 0.0)
            && Commands(0x1A, b1, s).value[k] == Curve(bend, s[j], s[j + 1], s[j + 2], 0.0, s[j + 3])
  {
    var t, f := if |s| % 2 == 1 then s[1..] else s, if |s| % 2 == 1 then s[0] else 0.0;
    ParallelsAt(t, f, true, k);
    ParallelsAt(t, f, false, k);
  }

  // --------------------------------------------------------------------- flex

  /** How far two curves go together. */
  ghost function Travel(a: Command, b: Command): (real, real)
    requires a.Curve? && b.Curve?
  {
    (a.dx1 + a.dx2 + a.dx3 + b.dx1 + b.dx2 + b.dx3, a.dy1 + a.dy2 + a.dy3 + b.dy1 + b.dy2 + b.dy3)
  }

  /** Every flex is two curves. hflex and hflex1 end at the height they begin at; flex1 ends on
      the axis it strays from least, its last operand being how far it goes along the other;
      flex is two rrcurvetos. */
  lemma Flexes(s: seq<real>)
    requires |s| >= 13
    ensures forall b1: byte :: 0x22 <= b1 <= 0x25 ==>
              var drawn := Commands(12, b1, s);
              drawn.Some? && |drawn.value| == 2 && drawn.value[0].Curve? && drawn.value[1].Curve?
    ensures var d := Commands(12, 0x22, s).value; Travel(d[0], d[1]) == (s[0] + s[1] + s[3] + s[4] + s[5] + s[6], 0.0)
    ensures Commands(12, 0x23, s).value
         == [Curve(s[0], s[1], s[2], s[3], s[4], s[5]), Curve(s[6], s[7], s[8], s[9], s[10], s[11])]
    ensures var d := Commands(12, 0x24, s).value; Travel(d[0], d[1]) == (s[0] + s[2] + s[4] + s[5] + s[6] + s[8], 0.0)
    ensures var d := Commands(12, 0x25, s).value;
            var dx, dy := s[0] + s[2] + s[4] + s[6] + s[8], s[1] + s[3] + s[5] + s[7] + s[9];
            Travel(d[0], d[1]) == if Abs(dx) > Abs(dy) then (dx + s[10], 0.0) else (0.0, dy + s[10])
  {
  }

  // ------------------------------------------------- hints, calls and returns

  /** The stem hints count by pairs; the operands in front of the first mask are stems too, and
      the mask takes a bit for every stem, in whole bytes. */
  lemma MaskIsSkipped(font: Font, m: Machine, mask: seq<byte>, rest: seq<byte>) returns (m': Machine)
    requires m.inHeader && |m.s| % 2 == 0 && Coming(m, [19] + (mask + rest))
    requires 8 * |mask| >= m.maskbits + |m.s| / 2 > 8 * |mask| - 8
    ensures m' == m.(b := m.b.(cursor := m.b.cursor + 1 + |mask|), s := [], maskbits := m'.maskbits, inHeader := false)
    ensures m'.maskbits == m.maskbits + |m.s| / 2 && Coming(m', rest) && Run(font, m) == Run(font, m')
  {
    var p, q := StandsThree(m.b.data, m.b.cursor, [19], mask, rest);
    NumberComing(m.b, [19]);
    m' := m.(b := m.b.(cursor := m.b.cursor + 1 + |mask|), s := [], maskbits := m.maskbits + |m.s| / 2, inHeader := false);
    assert Next(font, m) == Running(m');
    RunNext(font, m);
  }

  lemma StemsAreCounted(font: Font, m: Machine, op: byte, rest: seq<byte>) returns (m': Machine)
    requires (op == 1 || op == 3 || op == 18 || op == 23) && Coming(m, [op] + rest)
    ensures m' == m.(b := m.b.(cursor := m.b.cursor + 1), s := [], maskbits := m.maskbits + |m.s| / 2)
    ensures Coming(m', rest) && Run(font, m) == Run(font, m')
  {
    Split(m, [op], rest);
    NumberComing(m.b, [op]);
    m' := m.(b := m.b.(cursor := m.b.cursor + 1), s := [], maskbits := m.maskbits + |m.s| / 2);
    assert Next(font, m) == Running(m');
    RunNext(font, m);
  }

  /** Calling a subroutine by its number, which is its place in the index less the bias, goes on
      with that subroutine; the caller is kept for the return. */
  lemma CallEnters(font: Font, m: Machine, x: Index, i: nat, rest: seq<byte>) returns (m': Machine)
    requires x.WellMade() && Stands(font.local, 0, x.Text()) && i < |x.entries| && x.entries[i] != []
    requires Coming(m, [10] + rest) && |m.frames| < 10
    requires |m.s| > 0 && m.s[|m.s| - 1] == (i - Bias(|x.entries|)) as real
    ensures m' == m.(b := Buf(x.entries[i], 0), s := m.s[..|m.s| - 1],
                     frames := m.frames + [m.b.(cursor := m.b.cursor + 1)])
    ensures m'.Valid() && Run(font, m) == Run(font, m')
  {
    var n := i - Bias(|x.entries|);
    SubrReadsBack(font.local, x, n);
    Split(m, [10], rest);
    NumberComing(m.b, [10]);
    assert Trunc(n as real) == n;
    m' := m.(b := Buf(x.entries[i], 0), s := m.s[..|m.s| - 1], frames := m.frames + [m.b.(cursor := m.b.cursor + 1)]);
    CallNext(font, m, n, x.entries[i], m');
    RunNext(font, m);
  }

  lemma CallNext(font: Font, m: Machine, n: int, subr: seq<byte>, m': Machine)
    requires m.Valid() && m.b.cursor < |m.b.data| && m.b.Get8() == (10, m.b.(cursor := m.b.cursor + 1)) && |m.frames| < 10
    requires |m.s| > 0 && Trunc(m.s[|m.s| - 1]) == n && Subr(font.local, n) == subr != []
    requires m' == m.(b := Buf(subr, 0), s := m.s[..|m.s| - 1], frames := m.frames + [m.b.(cursor := m.b.cursor + 1)])
    ensures Next(font, m) == Running(m')
  {
  }

  /** ... and a return goes on where the latest call was left. */
  lemma ReturnResumes(font: Font, m: Machine, rest: seq<byte>) returns (m': Machine)
    requires Coming(m, [11] + rest) && |m.frames| > 0
    ensures m' == m.(b := m.frames[|m.frames| - 1], frames := m.frames[..|m.frames| - 1])
    ensures m'.Valid() && Run(font, m) == Run(font, m')
  {
    Split(m, [11], rest);
    NumberComing(m.b, [11]);
    m' := m.(b := m.frames[|m.frames| - 1], frames := m.frames[..|m.frames| - 1]);
    assert Next(font, m) == Running(m');
    RunNext(font, m);
  }

  /** An operator with too few operands is an error, and so is any that draws nothing. */
  lemma EnoughOperands(op: byte, b1: byte, s: seq<real>)
    ensures var n := |s|;
            Commands(op, b1, s).Some? <==>
              match op
              case 4 | 6 | 7 | 22 => n >= 1
              case 5 | 21 => n >= 2
              case 26 | 27 | 30 | 31 => n >= 4
              case 8 => n >= 6
              case 24 | 25 => n >= 8
              case 12 => (b1 == 34 && n >= 7) || (b1 == 35 && n >= 13) || (b1 == 36 && n >= 9) || (b1 == 37 && n >= 11)
              case _ => false
  {
  }

  /** There is room for 48 operands and ten callers, and for no more. */
  lemma StacksAreFull(font: Font, m: Machine, b0: byte)
    requires m.Valid() && m.b.cursor < |m.b.data| && m.b.data[m.b.cursor] == b0
    ensures (b0 == 28 || b0 >= 32) && |m.s| == 48 ==> Run(font, m) == Failed
    ensures (b0 == 10 || b0 == 29) && (|m.frames| == 10 || m.s == []) ==> Run(font, m) == Failed
    ensures b0 == 11 && m.frames == [] ==> Run(font, m) == Failed
  {
    RunNext(font, m);
  }

  // -------------------------------------------------------- whole coordinates

  /** C's cast drops the fraction: the nearest whole number towards zero. */
  lemma TruncDropsFraction(r: real)
    ensures Abs(Trunc(r) as real) <= Abs(r) < Abs(Trunc(r) as real) + 1.0
    ensures Trunc(r) != 0 ==> (Trunc(r) > 0 <==> r > 0.0)
  {
  }

  /** What fits in 16 bits is stored as it is. */
  lemma StoredAsItIs(v: Vertex)
    requires Short(v.x) && Short(v.y) && Short(v.cx) && Short(v.cy) && Short(v.cx1) && Short(v.cy1)
    ensures Stored(v) == v
  {
    Int16Keeps(v.x);
    Int16Keeps(v.y);
    Int16Keeps(v.cx);
    Int16Keeps(v.cy);
    Int16Keeps(v.cx1);
    Int16Keeps(v.cy1);
  }
}
