/** Simple glyphs written by the table of the OpenType 'glyf' chapter, in every way it
    allows, and read back by the decoder. */
module GlyphEncoding {
  import opened Common
  import opened FontBytes
  import opened GlyphOutline

  /** How a coordinate's change is written: not at all, as one byte up or down, or in two. */
  datatype Form = Same | Up | Down | Long

  /** What a point's flag byte says of it. */
  datatype Mark = Mark(on: bool, x: Form, y: Form)

  /** A flag byte, and the number of further points that share it, if that is written. */
  datatype Run = Run(mark: Mark, copies: Option<byte>)

  // ------------------------------------------------------------------ flags

  function XBits(f: Form): nat { if f.Same? then 16 else if f.Up? then 2 + 16 else if f.Down? then 2 else 0 }

  function YBits(f: Form): nat { if f.Same? then 32 else if f.Up? then 4 + 32 else if f.Down? then 4 else 0 }

  function FlagByte(m: Mark, repeated: bool): byte {
    (if m.on then 1 else 0) + XBits(m.x) + YBits(m.y) + (if repeated then 8 else 0)
  }

  function RunBytes(r: Run): seq<byte> {
    [FlagByte(r.mark, r.copies.Some?)] + (if r.copies.Some? then [r.copies.value] else [])
  }

  function FlagBytes(runs: seq<Run>): seq<byte> {
    if runs == [] then [] else RunBytes(runs[0]) + FlagBytes(runs[1..])
  }

  function Length(r: Run): nat { if r.copies.Some? then 1 + r.copies.value as int else 1 }

  /** One mark for each point. */
  function Marks(runs: seq<Run>): seq<Mark> {
    if runs == [] then [] else Repeat(runs[0].mark, Length(runs[0])) + Marks(runs[1..])
  }

  function Expanded(runs: seq<Run>): (flags: seq<byte>)
    ensures |flags| == |Marks(runs)|
  {
    if runs == [] then []
    else Repeat(FlagByte(runs[0].mark, runs[0].copies.Some?), Length(runs[0])) + Expanded(runs[1..])
  }

  ghost predicate Bears(f: byte, m: Mark) { f == FlagByte(m, false) || f == FlagByte(m, true) }

  ghost predicate AllBear(flags: seq<byte>, marks: seq<Mark>) {
    |flags| == |marks| && forall t :: 0 <= t < |flags| ==> Bears(flags[t], marks[t])
  }

  lemma FlagBits(m: Mark, repeated: bool)
    ensures var f := FlagByte(m, repeated);
            && (Bit(f, 1) <==> m.on) && (Bit(f, 8) <==> repeated)
            && (Bit(f, 2) <==> m.x.Up? || m.x.Down?) && (Bit(f, 16) <==> m.x.Up? || m.x.Same?)
            && (Bit(f, 4) <==> m.y.Up? || m.y.Down?) && (Bit(f, 32) <==> m.y.Up? || m.y.Same?)
  {
  }

  lemma {:induction false} ExpandedBears(runs: seq<Run>)
    ensures AllBear(Expanded(runs), Marks(runs))
  {
    if runs != [] { ExpandedBears(runs[1..]); }
  }

  lemma RunReadsBack(d: seq<byte>, p: nat, r: Run)
    requires Stands(d, p, RunBytes(r))
    ensures p < |d| && d[p] == FlagByte(r.mark, r.copies.Some?) && (Bit(d[p], 8) <==> r.copies.Some?)
    ensures r.copies.Some? ==> p + 1 < |d| && d[p + 1] == r.copies.value
  {
    FlagBits(r.mark, r.copies.Some?);
    assert d[p] == d[p..p + |RunBytes(r)|][0];
    if r.copies.Some? { assert d[p + 1] == d[p..p + |RunBytes(r)|][1]; }
  }

  lemma FlagsNext(d: seq<byte>, p: nat, n: nat, k: nat, width: nat, rest: seq<byte>, end: nat)
    requires p < |d| && Flags(d, p + width, n) == Some((rest, end))
    requires if Bit(d[p], 8) then width == 2 && p + 1 < |d| && k == 1 + d[p + 1] as int else width == 1 && k == 1
    ensures Flags(d, p, k + n) == Some((Repeat(d[p], k) + rest, end))
  {
    if !Bit(d[p], 8) { assert Repeat(d[p], 1) == [d[p]]; }
  }

  lemma {:induction false} FlagsReadBack(d: seq<byte>, p: nat, runs: seq<Run>)
    requires Stands(d, p, FlagBytes(runs))
    ensures Flags(d, p, |Marks(runs)|) == Some((Expanded(runs), p + |FlagBytes(runs)|))
    decreases |runs|
  {
    if runs != [] {
      var r := runs[0];
      StandsSplit(d, p, RunBytes(r), FlagBytes(runs[1..]));
      FlagsReadBack(d, p + |RunBytes(r)|, runs[1..]);
      RunReadsBack(d, p, r);
      FlagsNext(d, p, |Marks(runs[1..])|, Length(r), |RunBytes(r)|, Expanded(runs[1..]), p + |FlagBytes(runs)|);
    }
  }

  // ------------------------------------------------------------- coordinates

  /** A form a change can be written in. */
  predicate Suits(f: Form, d: int) {
    match f
    case Same => d == 0
    case Up => 0 <= d < 256
    case Down => -256 < d <= 0
    case Long => -0x8000 <= d < 0x8000
  }

  function ChangeBytes(f: Form, d: int): seq<byte>
    requires Suits(f, d)
  {
    match f
    case Same => []
    case Up => [d]
    case Down => [-d]
    case Long => [d % 0x10000 / 256, d % 256]
  }

  function FormOf(m: Mark, axis: Axis): Form { if axis.X? then m.x else m.y }

  ghost predicate AllSuit(marks: seq<Mark>, changes: seq<int>, axis: Axis) {
    |marks| == |changes| && forall t :: 0 <= t < |marks| ==> Suits(FormOf(marks[t], axis), changes[t])
  }

  ghost function ChangesBytes(marks: seq<Mark>, changes: seq<int>, axis: Axis): seq<byte>
    requires AllSuit(marks, changes, axis)
    decreases |marks|
  {
    if marks == [] then []
    else ChangeBytes(FormOf(marks[0], axis), changes[0]) + ChangesBytes(marks[1..], changes[1..], axis)
  }

  lemma LongReadsBack(d: int, high: byte, low: byte)
    requires -0x8000 <= d < 0x8000 && high == d % 0x10000 / 256 && low == d % 256
    ensures Int16(high * 256 + low) == d
  {
  }

  /** What is read first of what flags f announce. */
  lemma DeltaReadsBack(d: seq<byte>, p: nat, f: byte, m: Mark, change: int, axis: Axis)
    requires Bears(f, m) && Suits(FormOf(m, axis), change) && Stands(d, p, ChangeBytes(FormOf(m, axis), change))
    ensures var text := ChangeBytes(FormOf(m, axis), change);
            var short, same := Bit(f, ShortMask(axis)), Bit(f, SameMask(axis));
            && |text| == (if short then 1 else if same then 0 else 2) && p + |text| <= |d|
            && change == if short then (if same then d[p] as int else -(d[p] as int)) else if same then 0 else Int16(U16(d, p))
  {
    var text := ChangeBytes(FormOf(m, axis), change);
    FlagBits(m, false);
    FlagBits(m, true);
    assert text != [] ==> d[p] == d[p..p + |text|][0] == text[0];
    assert |text| == 2 ==> d[p + 1] == d[p..p + |text|][1] == text[1];
    if |text| == 2 { LongReadsBack(change, d[p], d[p + 1]); }
  }

  lemma DeltasNext(d: seq<byte>, p: nat, flags: seq<byte>, axis: Axis, change: int, width: nat, rest: seq<int>, end: nat)
    requires flags != [] && Deltas(d, p + width, flags[1..], axis) == Some((rest, end)) && p + width <= |d|
    requires var short, same := Bit(flags[0], ShortMask(axis)), Bit(flags[0], SameMask(axis));
             && width == (if short then 1 else if same then 0 else 2)
             && change == if short then (if same then d[p] as int else -(d[p] as int)) else if same then 0 else Int16(U16(d, p))
    ensures Deltas(d, p, flags, axis) == Some(([change] + rest, end))
  {
  }

  lemma Later(flags: seq<byte>, marks: seq<Mark>, changes: seq<int>, axis: Axis)
    requires flags != [] && AllBear(flags, marks) && AllSuit(marks, changes, axis)
    ensures Bears(flags[0], marks[0]) && Suits(FormOf(marks[0], axis), changes[0])
    ensures AllBear(flags[1..], marks[1..]) && AllSuit(marks[1..], changes[1..], axis)
    ensures [changes[0]] + changes[1..] == changes
    ensures ChangesBytes(marks, changes, axis)
         == ChangeBytes(FormOf(marks[0], axis), changes[0]) + ChangesBytes(marks[1..], changes[1..], axis)
  {
  }

  lemma {:induction false} DeltasReadBack(d: seq<byte>, p: nat, flags: seq<byte>, marks: seq<Mark>, changes: seq<int>, axis: Axis)
    returns (end: nat)
    requires AllBear(flags, marks) && AllSuit(marks, changes, axis) && Stands(d, p, ChangesBytes(marks, changes, axis))
    ensures end == p + |ChangesBytes(marks, changes, axis)| && Deltas(d, p, flags, axis) == Some((changes, end))
    decreases |flags|
  {
    if flags == [] {
      end := p;
    } else {
      Later(flags, marks, changes, axis);
      var text, rest := ChangeBytes(FormOf(marks[0], axis), changes[0]), ChangesBytes(marks[1..], changes[1..], axis);
      StandsSplit(d, p, text, rest);
      end := DeltasReadBack(d, p + |text|, flags[1..], marks[1..], changes[1..], axis);
      DeltaReadsBack(d, p, flags[0], marks[0], changes[0], axis);
      DeltasNext(d, p, flags, axis, changes[0], |text|, changes[1..], end);
    }
  }

  /** The changes from each value to the next, the first from 0, in 16 bits. */
  ghost function Changes(values: seq<int16>): (changes: seq<int>)
    ensures |changes| == |values|
  {
    seq(|values|, t requires 0 <= t < |values| => Int16(values[t] as int - if t == 0 then 0 else values[t - 1] as int))
  }

  lemma SumOfChanges(values: seq<int16>, t: nat, changes: seq<int>)
    requires t < |values| && changes == Changes(values)
    ensures Sum(changes[..t + 1]) == Sum(changes[..t]) + Int16(values[t] as int - if t == 0 then 0 else values[t - 1] as int)
  {
    SumNext(changes, t);
  }

  lemma {:induction false} ChangesAddUp(values: seq<int16>, t: nat)
    requires t < |values|
    ensures Int16(Sum(Changes(values)[..t + 1])) == values[t]
    decreases t
  {
    SumOfChanges(values, t, Changes(values));
    if t > 0 {
      ChangesAddUp(values, t - 1);
      Congruent(Sum(Changes(values)[..t]), values[t - 1], values[t]);
    } else {
      assert Changes(values)[..0] == [];
      Congruent(0, 0, values[0]);
    }
  }

  lemma Congruent(sum: int, before: int16, value: int16)
    requires Int16(sum) == before
    ensures Int16(sum + Int16(value as int - before as int)) == value
  {
  }

  // ------------------------------------------------------------------ points

  ghost function Xs(pts: seq<Point>): (xs: seq<int16>)
    ensures |xs| == |pts|
  {
    seq(|pts|, t requires 0 <= t < |pts| => pts[t].x)
  }

  ghost function Ys(pts: seq<Point>): (ys: seq<int16>)
    ensures |ys| == |pts|
  {
    seq(|pts|, t requires 0 <= t < |pts| => pts[t].y)
  }

  /** The runs describe the points, each coordinate in a form that suits its change. */
  ghost predicate Describes(runs: seq<Run>, pts: seq<Point>) {
    && |Marks(runs)| == |pts| && (forall t :: 0 <= t < |pts| ==> Marks(runs)[t].on == pts[t].on)
    && AllSuit(Marks(runs), Changes(Xs(pts)), X) && AllSuit(Marks(runs), Changes(Ys(pts)), Y)
  }

  /** Flags, then all the x changes, then all the y changes. */
  ghost function PointBytes(runs: seq<Run>, pts: seq<Point>): seq<byte>
    requires Describes(runs, pts)
  {
    FlagBytes(runs) + (ChangesBytes(Marks(runs), Changes(Xs(pts)), X) + ChangesBytes(Marks(runs), Changes(Ys(pts)), Y))
  }

  lemma PointReadsBack(runs: seq<Run>, pts: seq<Point>, t: nat)
    requires Describes(runs, pts) && t < |pts|
    ensures Point(Bit(Expanded(runs)[t], 1), Coordinate(Changes(Xs(pts)), t), Coordinate(Changes(Ys(pts)), t)) == pts[t]
  {
    ExpandedBears(runs);
    assert Bears(Expanded(runs)[t], Marks(runs)[t]);
    FlagBits(Marks(runs)[t], false);
    FlagBits(Marks(runs)[t], true);
    ChangesAddUp(Xs(pts), t);
    ChangesAddUp(Ys(pts), t);
  }

  lemma ThreeLists(d: seq<byte>, p: nat, flags: seq<byte>, q: nat, xs: seq<int>, r: nat, ys: seq<int>, end: nat)
    requires Flags(d, p, |flags|) == Some((flags, q))
    requires Deltas(d, q, flags, X) == Some((xs, r)) && Deltas(d, r, flags, Y) == Some((ys, end))
    ensures ReadPoints(d, p, |flags|) == Some(Raw(flags, xs, ys))
  {
  }

  lemma FlagsRead(d: seq<byte>, p: nat, runs: seq<Run>, q: nat, n: nat) returns (flags: seq<byte>)
    requires Stands(d, p, FlagBytes(runs)) && q == p + |FlagBytes(runs)| && n == |Marks(runs)|
    ensures flags == Expanded(runs) && |flags| == n && AllBear(flags, Marks(runs)) && Flags(d, p, n) == Some((flags, q))
  {
    flags := Expanded(runs);
    ExpandedBears(runs);
    FlagsReadBack(d, p, runs);
  }

  lemma CoordinatesReadBack(d: seq<byte>, q: nat, flags: seq<byte>, marks: seq<Mark>, xs: seq<int>, ys: seq<int>,
                            xBytes: seq<byte>, yBytes: seq<byte>)
    returns (r: nat, end: nat)
    requires AllBear(flags, marks) && AllSuit(marks, xs, X) && AllSuit(marks, ys, Y)
    requires xBytes == ChangesBytes(marks, xs, X) && yBytes == ChangesBytes(marks, ys, Y)
    requires Stands(d, q, xBytes) && Stands(d, q + |xBytes|, yBytes)
    ensures Deltas(d, q, flags, X) == Some((xs, r)) && Deltas(d, r, flags, Y) == Some((ys, end))
    ensures end == q + |xBytes| + |yBytes|
  {
    r := DeltasReadBack(d, q, flags, marks, xs, X);
    end := DeltasReadBack(d, r, flags, marks, ys, Y);
  }

  /** The three lists read back, and end where they were written to end. */
  lemma ListsReadBack(d: seq<byte>, p: nat, runs: seq<Run>, marks: seq<Mark>, xs: seq<int>, ys: seq<int>,
                      flagBytes: seq<byte>, xBytes: seq<byte>, yBytes: seq<byte>)
    returns (end: nat)
    requires marks == Marks(runs) && AllSuit(marks, xs, X) && AllSuit(marks, ys, Y) && flagBytes == FlagBytes(runs)
    requires xBytes == ChangesBytes(marks, xs, X) && yBytes == ChangesBytes(marks, ys, Y)
    requires Stands(d, p, flagBytes + (xBytes + yBytes))
    ensures ReadPoints(d, p, |marks|) == Some(Raw(Expanded(runs), xs, ys))
    ensures end == p + |flagBytes + (xBytes + yBytes)|
  {
    var q, r := StandsThree(d, p, flagBytes, xBytes, yBytes);
    var flags := FlagsRead(d, p, runs, q, |marks|);
    var r';
    r', end := CoordinatesReadBack(d, q, flags, marks, xs, ys, xBytes, yBytes);
    ThreeLists(d, p, flags, q, xs, r', ys, end);
  }

  lemma RawReadsBack(d: seq<byte>, p: nat, runs: seq<Run>, pts: seq<Point>) returns (end: nat)
    requires Describes(runs, pts) && Stands(d, p, PointBytes(runs, pts))
    ensures ReadPoints(d, p, |pts|) == Some(Raw(Expanded(runs), Changes(Xs(pts)), Changes(Ys(pts))))
    ensures end == p + |PointBytes(runs, pts)|
  {
    var marks, xs, ys := Marks(runs), Changes(Xs(pts)), Changes(Ys(pts));
    end := ListsReadBack(d, p, runs, marks, xs, ys, FlagBytes(runs), ChangesBytes(marks, xs, X), ChangesBytes(marks, ys, Y));
  }

  /** Every way of writing the points reads back as them. */
  lemma PointsReadBack(d: seq<byte>, p: nat, runs: seq<Run>, pts: seq<Point>)
    requires Describes(runs, pts) && Stands(d, p, PointBytes(runs, pts))
    ensures ReadPoints(d, p, |pts|).Some? && Points(ReadPoints(d, p, |pts|).value) == pts
  {
    var end := RawReadsBack(d, p, runs, pts);
    var raw := Raw(Expanded(runs), Changes(Xs(pts)), Changes(Ys(pts)));
    forall t | 0 <= t < |pts| ensures Points(raw)[t] == pts[t] { PointReadsBack(runs, pts, t); }
  }

  // ------------------------------------------------------------- whole glyphs

  /** A glyph description: number of contours, bounding box, end points, instructions. */
  ghost function GlyphBytes(box: seq<byte>, ends: seq<nat>, instructions: seq<byte>, points: seq<byte>): seq<byte>
    requires |box| == 8 && |ends| < 0x8000 && |instructions| < 0x10000 && AreWords(ends)
  {
    WordBytes(|ends|) + (box + (Words(ends) + (WordBytes(|instructions|) + (instructions + points))))
  }

  lemma CountReadsBack(glyph: seq<byte>, n: nat)
    requires n < 0x8000 && |glyph| >= 10 && U16(glyph, 0) == n
    ensures Contours(glyph) == n
  {
  }

  lemma EndsReadBack(glyph: seq<byte>, ends: seq<nat>)
    requires |glyph| >= 10 && Contours(glyph) == |ends| > 0 && 12 + 2 * |ends| <= |glyph|
    requires HasWords(glyph, 10, ends)
    ensures Ends(glyph) == ends
  {
    var read := Ends(glyph);
    forall j | 0 <= j < |ends| ensures read[j] == ends[j] { ReadWord(glyph, 10, ends, j, 10 + 2 * j); }
  }

  lemma LastEndReadsBack(glyph: seq<byte>, ends: seq<nat>, last: nat)
    requires |glyph| >= 10 && Contours(glyph) == |ends| > 0 && 12 + 2 * |ends| <= |glyph|
    requires HasWords(glyph, 10, ends) && last == |ends| - 1
    ensures PointCount(glyph) == 1 + ends[last]
  {
    ReadWord(glyph, 10, ends, last, 8 + 2 * Contours(glyph));
  }

  /** The fields in front of the points, read back. */
  lemma FieldsReadBack(glyph: seq<byte>, ends: seq<nat>, instructions: nat)
    requires 0 < |ends| < 0x8000 && AreWords(ends) && instructions < 0x10000
    requires Stands(glyph, 0, WordBytes(|ends|)) && Stands(glyph, 10, Words(ends))
    requires Stands(glyph, 10 + 2 * |ends|, WordBytes(instructions))
    ensures |glyph| >= 10 && Contours(glyph) == |ends| && 12 + 2 * |ends| <= |glyph|
    ensures PointData(glyph) == 12 + 2 * |ends| + instructions
  {
    OneWord(glyph, 0, |ends|);
    CountReadsBack(glyph, |ends|);
    OneWord(glyph, 10 + 2 * |ends|, instructions);
  }

  /** Six parts of these lengths, one after the other. */
  lemma PartsStand(d: seq<byte>, a: seq<byte>, b: seq<byte>, c: seq<byte>, e: seq<byte>, f: seq<byte>, g: seq<byte>, n: nat, m: nat)
    requires |a| == 2 && |b| == 8 && |c| == 2 * n && |e| == 2 && |f| == m && Stands(d, 0, a + (b + (c + (e + (f + g)))))
    ensures Stands(d, 0, a) && Stands(d, 10, c) && Stands(d, 10 + 2 * n, e) && Stands(d, 12 + 2 * n + m, g)
  {
    StandsSix(d, 0, a, b, c, e, f, g);
  }

  lemma SimpleIs(glyph: seq<byte>, p: nat, ends: seq<nat>, pts: seq<Point>)
    requires |glyph| >= 10 && Contours(glyph) > 0 && 12 + 2 * Contours(glyph) <= |glyph|
    requires PointData(glyph) == p && PointCount(glyph) == |pts| && Ends(glyph) == ends && WellFormed(pts, ends)
    requires ReadPoints(glyph, p, |pts|).Some? && Points(ReadPoints(glyph, p, |pts|).value) == pts
    ensures SimpleGlyph(glyph) && OutlineOf(glyph) == Outline(pts, ends, 0)
  {
  }

  /** However the points are written and whatever follows, the glyph is one the decoder
      takes, and its outline that of the points. */
  lemma GlyphReadsBack(glyph: seq<byte>, box: seq<byte>, ends: seq<nat>, instructions: seq<byte>, runs: seq<Run>, pts: seq<Point>)
    requires |box| == 8 && |ends| < 0x8000 && |instructions| < 0x10000 && AreWords(ends)
    requires Describes(runs, pts) && WellFormed(pts, ends)
    requires Stands(glyph, 0, GlyphBytes(box, ends, instructions, PointBytes(runs, pts)))
    ensures SimpleGlyph(glyph) && OutlineOf(glyph) == Outline(pts, ends, 0)
  {
    var p := 12 + 2 * |ends| + |instructions|;
    PartsStand(glyph, WordBytes(|ends|), box, Words(ends), WordBytes(|instructions|), instructions, PointBytes(runs, pts),
               |ends|, |instructions|);
    FieldsReadBack(glyph, ends, |instructions|);
    WordsAreThere(glyph, 10, ends);
    EndsReadBack(glyph, ends);
    LastEndReadsBack(glyph, ends, |ends| - 1);
    PointsReadBack(glyph, p, runs, pts);
    SimpleIs(glyph, p, ends, pts);
  }
}
