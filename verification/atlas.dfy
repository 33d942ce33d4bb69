/** The glyph atlas (`ui::Font::build`): shelf packing, and the texels painted. The
    glyphs of all sizes come in the order they are baked. */
module Atlas {
  import opened Common

  const WIDTH := 1024
  const HEIGHT := 1024

  datatype Texel = Texel(r: byte, g: byte, b: byte, a: byte)

  /** A rasterised glyph, its coverage row by row. */
  datatype Image = Image(width: int, height: int, rows: seq<seq<byte>>)

  predicate Blank(g: Image) { g.width <= 0 || g.height <= 0 }

  ghost predicate Rasterised(g: Image) {
    Blank(g) || (|g.rows| == g.height && forall y :: 0 <= y < g.height ==> |g.rows[y]| == g.width)
  }

  /** Where a glyph is; a blank one is nowhere. */
  datatype Rect = Rect(x: int, y: int, w: int, h: int)

  const NOWHERE := Rect(0, 0, 0, 0)

  /** The opaque texel for solid rectangles. */
  const WHITE := Rect(1, 1, 1, 1)

  // ------------------------------------------------------------------ packing

  datatype Pen = Pen(x: int, y: int, rowHeight: int)

  const START := Pen(4, 1, 1)

  /** On a new row, if the row is full. */
  function Turned(p: Pen, width: int): Pen {
    if p.x + width + 1 > WIDTH then Pen(1, p.y + p.rowHeight + 2, 0) else p
  }

  predicate Room(p: Pen, height: int) { p.y + height + 1 <= HEIGHT }

  function RectOf(p: Pen, g: Image): Rect {
    if Blank(g) then NOWHERE else Rect(Turned(p, g.width).x, Turned(p, g.width).y, g.width, g.height)
  }

  function After(p: Pen, g: Image): Pen {
    if Blank(g) then p
    else
      var q := Turned(p, g.width);
      Pen(q.x + g.width + 2, q.y, Max(q.rowHeight, g.height))
  }

  predicate Fits(p: Pen, g: Image) { Blank(g) || Room(Turned(p, g.width), g.height) }

  /** Where the glyphs go, up to the first that there is no room for. */
  function Layout(p: Pen, glyphs: seq<Image>): (rects: seq<Rect>)
    ensures |rects| <= |glyphs|
    decreases |glyphs|
  {
    if glyphs == [] || !Fits(p, glyphs[0]) then []
    else [RectOf(p, glyphs[0])] + Layout(After(p, glyphs[0]), glyphs[1..])
  }

  /** Two clear texels between them, one for each one's padding. */
  ghost predicate Apart(a: Rect, b: Rect) {
    a.x + a.w + 2 <= b.x || b.x + b.w + 2 <= a.x || a.y + a.h + 2 <= b.y || b.y + b.h + 2 <= a.y
  }

  /** Within the atlas, and off its border. */
  ghost predicate Inside(r: Rect) { 1 <= r.x && 1 <= r.y && r.x + r.w + 1 <= WIDTH && r.y + r.h + 1 <= HEIGHT }

  /** A rectangle of an earlier row, or to the left in this one. */
  ghost predicate Behind(r: Rect, p: Pen) {
    r.y + r.h + 2 <= p.y || (r.y == p.y && r.x + r.w + 2 <= p.x && r.h <= p.rowHeight)
  }

  ghost predicate OnPage(p: Pen) { p.x >= 1 && p.y >= 1 && p.rowHeight >= 0 }

  lemma PenAdvances(r: Rect, p: Pen, g: Image)
    requires Behind(r, p) && OnPage(p)
    ensures Behind(r, After(p, g)) && (!Blank(g) ==> Apart(r, RectOf(p, g)))
  {
  }

  lemma PenPasses(p: Pen, g: Image)
    requires OnPage(p)
    ensures OnPage(After(p, g)) && (!Blank(g) ==> Behind(RectOf(p, g), After(p, g)))
  {
  }

  /** The width is not checked: a glyph is put inside the border just when it is at most
      1022 wide. */
  lemma InsideIfNarrow(p: Pen, g: Image)
    requires OnPage(p) && !Blank(g) && Fits(p, g)
    ensures Inside(RectOf(p, g)) <==> g.width <= 1022
  {
  }

  /** Everything placed from here on is apart from what is behind the pen. */
  lemma {:induction false} LayoutAhead(r: Rect, p: Pen, glyphs: seq<Image>, k: nat)
    requires Behind(r, p) && OnPage(p) && k < |Layout(p, glyphs)| && !Blank(glyphs[k])
    ensures Apart(r, Layout(p, glyphs)[k])
    decreases k
  {
    PenAdvances(r, p, glyphs[0]);
    PenPasses(p, glyphs[0]);
    if k > 0 { LayoutAhead(r, After(p, glyphs[0]), glyphs[1..], k - 1); }
  }

  /** All the glyphs of all sizes are pairwise apart ... */
  lemma {:induction false} AllApart(p: Pen, glyphs: seq<Image>, j: nat, k: nat)
    requires OnPage(p) && j < k < |Layout(p, glyphs)| && !Blank(glyphs[j]) && !Blank(glyphs[k])
    ensures Apart(Layout(p, glyphs)[j], Layout(p, glyphs)[k])
    decreases j
  {
    PenPasses(p, glyphs[0]);
    if j == 0 {
      LayoutAhead(RectOf(p, glyphs[0]), After(p, glyphs[0]), glyphs[1..], k - 1);
    } else {
      AllApart(After(p, glyphs[0]), glyphs[1..], j - 1, k - 1);
    }
  }

  /** ... and inside the border, of their own sizes. */
  lemma {:induction false} AllInside(p: Pen, glyphs: seq<Image>, k: nat)
    requires OnPage(p) && k < |Layout(p, glyphs)| && !Blank(glyphs[k])
    ensures Inside(Layout(p, glyphs)[k]) <==> glyphs[k].width <= 1022
    ensures Layout(p, glyphs)[k].w == glyphs[k].width && Layout(p, glyphs)[k].h == glyphs[k].height
    decreases k
  {
    PenPasses(p, glyphs[0]);
    if k == 0 {
      InsideIfNarrow(p, glyphs[0]);
    } else {
      AllInside(After(p, glyphs[0]), glyphs[1..], k - 1);
    }
  }

  // ---------------------------------------------------------- exactly where

  /** The pen once the first k glyphs are placed. */
  ghost function PenAt(p: Pen, glyphs: seq<Image>, k: nat): Pen
    requires k <= |glyphs|
  {
    if k == 0 then p else After(PenAt(p, glyphs, k - 1), glyphs[k - 1])
  }

  lemma {:induction false} PenMoves(p: Pen, glyphs: seq<Image>, k: nat)
    requires 0 < k <= |glyphs|
    ensures PenAt(p, glyphs, k) == PenAt(After(p, glyphs[0]), glyphs[1..], k - 1)
  {
    if k > 1 { PenMoves(p, glyphs, k - 1); }
  }

  /** The layout from the pen alone: it stops at the first glyph there is no room for. */
  lemma {:induction false} LayoutByPen(p: Pen, glyphs: seq<Image>, k: nat)
    requires k <= |Layout(p, glyphs)| && k < |glyphs|
    ensures k < |Layout(p, glyphs)| <==> Fits(PenAt(p, glyphs, k), glyphs[k])
    ensures k < |Layout(p, glyphs)| ==> Layout(p, glyphs)[k] == RectOf(PenAt(p, glyphs, k), glyphs[k])
    decreases k
  {
    if k > 0 {
      PenMoves(p, glyphs, k);
      LayoutByPen(After(p, glyphs[0]), glyphs[1..], k - 1);
    }
  }

  lemma {:induction false} BlanksPass(p: Pen, glyphs: seq<Image>, j: nat, k: nat)
    requires j <= k <= |glyphs| && forall i :: j <= i < k ==> Blank(glyphs[i])
    ensures PenAt(p, glyphs, k) == PenAt(p, glyphs, j)
  {
    if j < k { BlanksPass(p, glyphs, j, k - 1); }
  }

  /** The pen's row is as high as one of its rectangles, or as the white texel in the first. */
  lemma {:induction false} RowTop(glyphs: seq<Image>, k: nat) returns (top: Rect)
    requires k <= |Layout(START, glyphs)|
    ensures top == Rect(1, 1, 1, 1) || top in Layout(START, glyphs)[..k]
    ensures top.y == PenAt(START, glyphs, k).y && top.h == PenAt(START, glyphs, k).rowHeight
  {
    if k == 0 { return WHITE; }
    LayoutByPen(START, glyphs, k - 1);
    var rects := Layout(START, glyphs);
    var p, g := PenAt(START, glyphs, k - 1), glyphs[k - 1];
    top := RowTop(glyphs, k - 1);
    assert rects[..k] == rects[..k - 1] + [rects[k - 1]];
    if !Blank(g) && (p != Turned(p, g.width) || g.height > top.h) { top := rects[k - 1]; }
  }

  /** The first glyph that is not blank goes beside the white texel, or under it when it is
      too wide for that. */
  lemma FirstPlace(glyphs: seq<Image>, k: nat)
    requires k < |Layout(START, glyphs)| && !Blank(glyphs[k]) && forall i :: 0 <= i < k ==> Blank(glyphs[i])
    ensures var g := glyphs[k];
            Layout(START, glyphs)[k] == if g.width <= 1019 then Rect(4, 1, g.width, g.height) else Rect(1, 4, g.width, g.height)
  {
    BlanksPass(START, glyphs, 0, k);
    LayoutByPen(START, glyphs, k);
  }

  /** Nothing is wasted: the next one, with only blanks between, goes two texels to the right
      of the one before if it fits the row, and else to the left border, two texels under the
      lowest of that row. It is placed just when it ends above the last line. */
  lemma NextPlace(glyphs: seq<Image>, j: nat, k: nat) returns (x: int, y: int, top: Rect)
    requires j < k < |glyphs| && k <= |Layout(START, glyphs)|
    requires !Blank(glyphs[j]) && !Blank(glyphs[k]) && forall i :: j < i < k ==> Blank(glyphs[i])
    ensures top == Rect(1, 1, 1, 1) || top in Layout(START, glyphs)[..k]
    ensures var before, g := Layout(START, glyphs)[j], glyphs[k];
            && (if before.x + before.w + 2 + g.width < 1024 then x == before.x + before.w + 2 && y == before.y
                else x == 1 && top.y == before.y && y == top.y + top.h + 2)
            && (k < |Layout(START, glyphs)| <==> y + g.height < 1024)
            && (k < |Layout(START, glyphs)| ==> Layout(START, glyphs)[k] == Rect(x, y, g.width, g.height))
  {
    LayoutByPen(START, glyphs, j);
    LayoutByPen(START, glyphs, k);
    BlanksPass(START, glyphs, j + 1, k);
    top := RowTop(glyphs, k);
    var p := PenAt(START, glyphs, k);
    assert p == After(PenAt(START, glyphs, j), glyphs[j]);
    x, y := Turned(p, glyphs[k].width).x, Turned(p, glyphs[k].width).y;
  }

  // ----------------------------------------------------------------- painting

  function Column(i: nat): nat { i % WIDTH }

  function Row(i: nat): nat { i / WIDTH }

  predicate Covers(r: Rect, i: nat) { r.x <= Column(i) < r.x + r.w && r.y <= Row(i) < r.y + r.h }

  function Shade(coverage: byte): Texel { Texel(255, 255, 255, coverage) }

  /** The coverage of glyph g, placed at r, at texel i. */
  ghost function Coverage(g: Image, r: Rect, i: nat): byte
    requires Rasterised(g) && r.w == g.width && r.h == g.height && Covers(r, i)
  {
    g.rows[Row(i) - r.y][Column(i) - r.x]
  }

  ghost predicate AllRasterised(glyphs: seq<Image>) {
    forall k :: 0 <= k < |glyphs| ==> Rasterised(glyphs[k]) && (Blank(glyphs[k]) || glyphs[k].width <= WIDTH - 2)
  }

  /** Texel i is untouched by the first n glyphs and the white texel. */
  ghost predicate Clear(rects: seq<Rect>, n: nat, i: nat)
    requires n <= |rects|
  {
    !Covers(WHITE, i) && forall k :: 0 <= k < n ==> !Covers(rects[k], i)
  }

  /** The first n glyphs are all there, the white texel is, and nothing else. */
  ghost predicate Painted(texels: seq<Texel>, glyphs: seq<Image>, rects: seq<Rect>, n: nat)
    requires |texels| == WIDTH * HEIGHT && n <= |rects| <= |glyphs| && Matching(glyphs, rects)
  {
    && (forall i :: 0 <= i < |texels| && Covers(WHITE, i) ==> texels[i] == Shade(255))
    && (forall k, i :: 0 <= k < n && 0 <= i < |texels| && Covers(rects[k], i) ==>
          texels[i] == Shade(Coverage(glyphs[k], rects[k], i)))
    && (forall i :: 0 <= i < |texels| && Clear(rects, n, i) ==> texels[i] == Texel(0, 0, 0, 0))
  }

  /** Each rectangle is of its glyph's size, or nowhere. */
  ghost predicate Matching(glyphs: seq<Image>, rects: seq<Rect>) {
    && |rects| <= |glyphs|
    && (forall k :: 0 <= k < |rects| ==> Rasterised(glyphs[k]))
    && (forall k :: 0 <= k < |rects| ==>
          if Blank(glyphs[k]) then rects[k] == NOWHERE
          else rects[k].w == glyphs[k].width && rects[k].h == glyphs[k].height)
  }

  lemma TexelAt(r: Rect, x: nat, y: nat) returns (i: nat)
    requires Inside(r) && x < r.w && y < r.h
    ensures i == (r.y + y) * 1024 + (r.x + x) < 1024 * 1024 && Covers(r, i) && Column(i) == r.x + x && Row(i) == r.y + y
  {
    i := (r.y + y) * 1024 + (r.x + x);
  }

  /** In numbers: in an atlas of 1024 rows of 1024, texel (x, y) of a glyph is white with the
      glyph's coverage as its alpha, and texel (1, 1) is opaque white. */
  lemma PaintedTexel(texels: seq<Texel>, glyphs: seq<Image>, rects: seq<Rect>, k: nat, x: nat, y: nat)
    requires |texels| == 1024 * 1024 && Matching(glyphs, rects) && Painted(texels, glyphs, rects, |rects|)
    requires k < |rects| && !Blank(glyphs[k]) && Inside(rects[k]) && x < glyphs[k].width && y < glyphs[k].height
    ensures var i := (rects[k].y + y) * 1024 + (rects[k].x + x);
            0 <= i < |texels| && texels[i] == Texel(255, 255, 255, glyphs[k].rows[y][x])
    ensures texels[1025] == Texel(255, 255, 255, 255)
  {
    var i := TexelAt(rects[k], x, y);
    assert Covers(WHITE, 1025);
  }

  method PaintRow(texels: array<Texel>, start: nat, coverage: seq<byte>)
    requires start + |coverage| <= texels.Length
    modifies texels
    ensures forall i :: 0 <= i < texels.Length ==>
              texels[i] == if start <= i < start + |coverage| then Shade(coverage[i - start]) else old(texels[i])
  {
    for x := 0 to |coverage|
      invariant forall i :: 0 <= i < texels.Length ==>
                  texels[i] == if start <= i < start + x then Shade(coverage[i - start]) else old(texels[i])
    {
      texels[start + x] := Shade(coverage[x]);
    }
  }

  /** The texels of row y of a rectangle. */
  lemma RowTexels(r: Rect, y: nat, i: nat)
    requires Inside(r) && y < r.h
    ensures var start := (r.y + y) * WIDTH + r.x;
            && (start <= i < start + r.w <==> Row(i) == r.y + y && r.x <= Column(i) < r.x + r.w)
            && (start <= i < start + r.w ==> i - start == Column(i) - r.x)
  {
  }

  method PaintGlyph(texels: array<Texel>, r: Rect, g: Image)
    requires texels.Length == WIDTH * HEIGHT && Inside(r)
    requires !Blank(g) && Rasterised(g) && r.w == g.width && r.h == g.height
    modifies texels
    ensures forall i :: 0 <= i < texels.Length ==>
              texels[i] == if Covers(r, i) then Shade(Coverage(g, r, i)) else old(texels[i])
  {
    for y := 0 to g.height
      invariant forall i :: 0 <= i < texels.Length ==>
                  texels[i] == if Covers(r, i) && Row(i) < r.y + y then Shade(Coverage(g, r, i)) else old(texels[i])
    {
      forall i | 0 <= i < texels.Length { RowTexels(r, y, i); }
      PaintRow(texels, (r.y + y) * WIDTH + r.x, g.rows[y]);
    }
  }

  /** Painting one more glyph, apart from all before it, leaves those as they are. */
  lemma OneMore(before: seq<Texel>, after: seq<Texel>, glyphs: seq<Image>, rects: seq<Rect>, r: Rect)
    requires |before| == |after| == WIDTH * HEIGHT && |rects| < |glyphs| && Matching(glyphs, rects + [r])
    requires Matching(glyphs, rects) && Painted(before, glyphs, rects, |rects|)
    requires !Blank(glyphs[|rects|]) && Apart(WHITE, r)
    requires forall k :: 0 <= k < |rects| ==> Blank(glyphs[k]) || Apart(rects[k], r)
    requires forall i :: 0 <= i < |after| ==>
               after[i] == if Covers(r, i) then Shade(Coverage(glyphs[|rects|], r, i)) else before[i]
    ensures Painted(after, glyphs, rects + [r], |rects| + 1)
  {
  }

  lemma OneBlank(texels: seq<Texel>, glyphs: seq<Image>, rects: seq<Rect>)
    requires |texels| == WIDTH * HEIGHT && |rects| < |glyphs|
    requires Matching(glyphs, rects) && Painted(texels, glyphs, rects, |rects|)
    requires Blank(glyphs[|rects|]) && Rasterised(glyphs[|rects|])
    ensures Matching(glyphs, rects + [NOWHERE]) && Painted(texels, glyphs, rects + [NOWHERE], |rects| + 1)
  {
  }

  /** The white texel alone. */
  method Blanked() returns (texels: array<Texel>)
    ensures fresh(texels) && texels.Length == WIDTH * HEIGHT
    ensures forall i :: 0 <= i < texels.Length ==> texels[i] == if Covers(WHITE, i) then Shade(255) else Texel(0, 0, 0, 0)
  {
    texels := new Texel[WIDTH * HEIGHT](_ => Texel(0, 0, 0, 0));
    texels[1 * WIDTH + 1] := Shade(255);
  }

  /** What is behind the pen when the first glyphs have been placed. */
  ghost predicate Progress(glyphs: seq<Image>, rects: seq<Rect>, p: Pen) {
    && |rects| <= |glyphs| && OnPage(p) && Behind(WHITE, p)
    && (forall k :: 0 <= k < |rects| ==> Blank(glyphs[k]) || Behind(rects[k], p))
    && rects + Layout(p, glyphs[|rects|..]) == Layout(START, glyphs)
  }

  lemma Placed(glyphs: seq<Image>, rects: seq<Rect>, p: Pen)
    requires Progress(glyphs, rects, p) && |rects| < |glyphs| && Fits(p, glyphs[|rects|])
    ensures var g := glyphs[|rects|]; var r := RectOf(p, g);
            Progress(glyphs, rects + [r], After(p, g))
            && (!Blank(g) ==> Apart(WHITE, r) && forall k :: 0 <= k < |rects| ==> Blank(glyphs[k]) || Apart(rects[k], r))
  {
    var g := glyphs[|rects|];
    PenPasses(p, g);
    PenAdvances(WHITE, p, g);
    forall k | 0 <= k < |rects| && !Blank(glyphs[k])
      ensures Behind(rects[k], After(p, g)) && (!Blank(g) ==> Apart(rects[k], RectOf(p, g)))
    {
      PenAdvances(rects[k], p, g);
    }
    assert glyphs[|rects|..][1..] == glyphs[|rects| + 1..];
    assert rects + ([RectOf(p, g)] + Layout(After(p, g), glyphs[|rects| + 1..]))
        == (rects + [RectOf(p, g)]) + Layout(After(p, g), glyphs[|rects| + 1..]);
  }

  /** Paints the next glyph where the pen says. */
  method Place(texels: array<Texel>, glyphs: seq<Image>, rects: seq<Rect>, ghost pen: Pen, r: Rect)
    requires AllRasterised(glyphs) && |rects| < |glyphs| && !Blank(glyphs[|rects|])
    requires Progress(glyphs, rects, pen) && Fits(pen, glyphs[|rects|]) && r == RectOf(pen, glyphs[|rects|])
    requires texels.Length == WIDTH * HEIGHT && Matching(glyphs, rects) && Painted(texels[..], glyphs, rects, |rects|)
    modifies texels
    ensures Progress(glyphs, rects + [r], After(pen, glyphs[|rects|]))
    ensures Matching(glyphs, rects + [r]) && Painted(texels[..], glyphs, rects + [r], |rects| + 1)
  {
    Placed(glyphs, rects, pen);
    InsideIfNarrow(pen, glyphs[|rects|]);
    ghost var before := texels[..];
    PaintGlyph(texels, r, glyphs[|rects|]);
    OneMore(before, texels[..], glyphs, rects, r);
  }

  /** Bakes the glyphs; fails at the first there is no room for. In the atlas every glyph
      placed is intact, and so is the white texel; all else is transparent. */
  method Build(glyphs: seq<Image>) returns (ok: bool, rects: seq<Rect>, texels: array<Texel>)
    requires AllRasterised(glyphs)
    ensures rects == Layout(START, glyphs) && ok == (|rects| == |glyphs|)
    ensures fresh(texels) && texels.Length == WIDTH * HEIGHT
    ensures Matching(glyphs, rects) && Painted(texels[..], glyphs, rects, |rects|)
  {
    texels := Blanked();
    rects := [];
    var penX, penY, rowHeight := 4, 1, 1;
    while |rects| < |glyphs|
      invariant Progress(glyphs, rects, Pen(penX, penY, rowHeight))
      invariant Matching(glyphs, rects) && Painted(texels[..], glyphs, rects, |rects|)
      decreases |glyphs| - |rects|
    {
      var g := glyphs[|rects|];
      ghost var pen := Pen(penX, penY, rowHeight);
      if Blank(g) {
        OneBlank(texels[..], glyphs, rects);
        Placed(glyphs, rects, pen);
        rects := rects + [NOWHERE];
      } else {
        if penX + g.width + 1 > WIDTH {
          penX := 1;
          penY := penY + rowHeight + 2;
          rowHeight := 0;
        }
        assert Pen(penX, penY, rowHeight) == Turned(pen, g.width);
        if penY + g.height + 1 > HEIGHT { return false, rects, texels; }
        var r := Rect(penX, penY, g.width, g.height);
        Place(texels, glyphs, rects, pen, r);
        rects := rects + [r];
        penX := penX + g.width + 2;
        rowHeight := Max(rowHeight, g.height);
      }
    }
    ok := true;
  }
}
