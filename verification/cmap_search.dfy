/** Mapping code points to glyphs (`stbtt_FindGlyphIndex`, formats 4, 12 and 13).
    `map` is the character map subtable and whatever follows it in the font. */
module CmapSearch {
  import opened Common
  import opened FontBytes

  // ------------------------------------------------------------- format 4

  function SegCount(map4: seq<byte>): nat
    requires |map4| >= 14
  {
    U16(map4, 6) / 2
  }

  ghost function EndCodes(map4: seq<byte>): (ends: seq<nat>)
    requires |map4| >= 14 && 14 + 2 * SegCount(map4) <= |map4|
    ensures |ends| == SegCount(map4)
  {
    seq(SegCount(map4), i requires 0 <= i < SegCount(map4) => U16(map4, 14 + 2 * i))
  }

  function StartCode(map4: seq<byte>, i: nat): nat
    requires |map4| >= 14 && 18 + 2 * SegCount(map4) + 2 * i <= |map4|
  {
    U16(map4, 14 + SegCount(map4) * 2 + 2 + 2 * i)
  }

  function Delta(map4: seq<byte>, i: nat): int
    requires |map4| >= 14 && 18 + 4 * SegCount(map4) + 2 * i <= |map4|
  {
    Int16(U16(map4, 14 + SegCount(map4) * 4 + 2 + 2 * i))
  }

  function RangeOffset(map4: seq<byte>, i: nat): nat
    requires |map4| >= 14 && 18 + 6 * SegCount(map4) + 2 * i <= |map4|
  {
    U16(map4, 14 + SegCount(map4) * 6 + 2 + 2 * i)
  }

  /** Where a segment with a range offset keeps the glyph of code point c. */
  function GlyphSlot(map4: seq<byte>, i: nat, c: nat): int
    requires |map4| >= 14 && 18 + 6 * SegCount(map4) + 2 * i <= |map4|
  {
    RangeOffset(map4, i) + (c - StartCode(map4, i)) * 2 + 14 + SegCount(map4) * 6 + 2 + 2 * i
  }

  /** End codes ascend up to 0xFFFF. */
  ghost predicate Ascending(ends: seq<nat>) {
    && (forall i, j :: 0 <= i < j < |ends| ==> ends[i] < ends[j])
    && |ends| > 0 && ends[|ends| - 1] == 0xFFFF
  }

  /** The search fields and end codes of a format 4 subtable as the OpenType 'cmap'
      chapter prescribes them, the fields derived from the segment count. */
  ghost predicate Searchable(map4: seq<byte>) {
    && |map4| >= 14
    && (var n := SegCount(map4);
        && n > 0 && 16 + 8 * n <= |map4|
        && (var entrySelector, searchRange, rangeShift := U16(map4, 10), U16(map4, 8) / 2, U16(map4, 12) / 2;
            searchRange == Pow2(entrySelector) <= n < 2 * searchRange && rangeShift == n - searchRange)
        && Ascending(EndCodes(map4)))
  }

  /** ... and every glyph slot lies in the file. */
  ghost predicate Format4(map4: seq<byte>) {
    && Searchable(map4)
    && forall i, c: nat | 0 <= i < SegCount(map4) && StartCode(map4, i) <= c <= EndCodes(map4)[i] ::
         RangeOffset(map4, i) != 0 ==> GlyphSlot(map4, i, c) + 2 <= |map4|
  }

  /** The linear scan: the first segment from i on that ends at or after c. */
  ghost function FirstSegment(ends: seq<nat>, i: nat, c: int): (k: nat)
    requires Ascending(ends) && i < |ends| && c <= 0xFFFF
    ensures i <= k < |ends| && c <= ends[k]
    ensures forall t :: i <= t < k ==> ends[t] < c
    decreases |ends| - i
  {
    if c <= ends[i] then i else FirstSegment(ends, i + 1, c)
  }

  /** The answer lies in the `width` segments after s. */
  ghost predicate Bracketed(ends: seq<nat>, c: int, s: int, width: nat) {
    && -1 <= s && s + width < |ends| && width > 0
    && (s >= 0 ==> ends[s] < c) && c <= ends[s + width]
  }

  lemma Halve(ends: seq<nat>, c: int, s: int, width: nat, half: nat)
    requires Bracketed(ends, c, s, width) && width == 2 * half
    ensures if c > ends[s + half] then Bracketed(ends, c, s + half, half) else Bracketed(ends, c, s, half)
  {
  }

  lemma BracketOfOne(ends: seq<nat>, c: int, s: int)
    requires Ascending(ends) && c <= 0xFFFF && Bracketed(ends, c, s, 1)
    ensures s + 1 == FirstSegment(ends, 0, c)
  {
  }

  /** The search loop: it halves the bracket until one segment is left. */
  method Narrow(map4: seq<byte>, search0: nat, entrySelector0: nat, searchRange0: nat, c: int,
                ghost ends: seq<nat>, ghost s0: int)
    returns (search: nat)
    requires 14 + 2 * |ends| <= |map4| && forall i :: 0 <= i < |ends| ==> ends[i] == U16(map4, 14 + 2 * i)
    requires search0 == 14 + 2 * s0 && searchRange0 == Pow2(entrySelector0)
    requires Bracketed(ends, c, s0, searchRange0)
    ensures search >= 12 && search % 2 == 0 && Bracketed(ends, c, (search - 14) / 2, 1)
  {
    var entrySelector, searchRange := entrySelector0, searchRange0;
    search := search0;
    ghost var s := s0;
    while entrySelector > 0
      invariant search == 14 + 2 * s
      invariant searchRange == Pow2(entrySelector)
      invariant Bracketed(ends, c, s, searchRange)
    {
      Halve(ends, c, s, searchRange, Pow2(entrySelector - 1));
      searchRange := searchRange / 2;
      var end := U16(map4, search + searchRange * 2);
      assert end == ends[s + searchRange];
      if c > end {
        search := search + searchRange * 2;
        s := s + searchRange;
      }
      entrySelector := entrySelector - 1;
    }
  }

  /** The biased power-of-two search stops where the linear scan would. */
  method FindSegment(map4: seq<byte>, c: int) returns (item: nat)
    requires Searchable(map4) && c <= 0xFFFF
    ensures item == FirstSegment(EndCodes(map4), 0, c)
  {
    ghost var ends := EndCodes(map4);
    var searchRange := U16(map4, 8) / 2;
    var entrySelector := U16(map4, 10);
    var rangeShift := U16(map4, 12) / 2;
    var endCount := 14;
    var search := endCount;
    ghost var s: int := -1;
    assert U16(map4, search + rangeShift * 2) == ends[rangeShift];
    if c >= U16(map4, search + rangeShift * 2) {
      search := search + rangeShift * 2;
      s := rangeShift - 1;
    }
    search := search - 2;
    search := Narrow(map4, search, entrySelector, searchRange, c, ends, s);
    BracketOfOne(ends, c, (search - 14) / 2);
    search := search + 2;
    item := (search - endCount) / 2;
  }

  /** What the table says about c, read off the first segment that ends at or after
      it: nothing before the segment's start, else the code point plus the delta, or
      the glyph in the segment's own list. */
  ghost function Mapped4(map4: seq<byte>, c: int): nat
    requires Format4(map4)
  {
    if c > 0xFFFF then 0
    else
      var i := FirstSegment(EndCodes(map4), 0, c);
      if c < StartCode(map4, i) then 0
      else if RangeOffset(map4, i) == 0 then (c + Delta(map4, i)) % 0x10000
      else U16(map4, GlyphSlot(map4, i, c))
  }

  /** The OpenType rule: a glyph taken from the list, unless it is 0, has the delta
      added as well. */
  ghost function OpenType4(map4: seq<byte>, c: int): nat
    requires Format4(map4)
  {
    if c > 0xFFFF then 0
    else
      var i := FirstSegment(EndCodes(map4), 0, c);
      if c < StartCode(map4, i) then 0
      else if RangeOffset(map4, i) == 0 then (c + Delta(map4, i)) % 0x10000
      else
        var g := U16(map4, GlyphSlot(map4, i, c));
        if g == 0 then 0 else (g + Delta(map4, i)) % 0x10000
  }

  method FindGlyph4(map4: seq<byte>, c: int) returns (glyph: nat)
    requires Format4(map4)
    ensures glyph == Mapped4(map4, c)
  {
    if c > 0xFFFF { return 0; }
    var segcount := U16(map4, 6) / 2;
    var item := FindSegment(map4, c);
    var start := U16(map4, 14 + segcount * 2 + 2 + 2 * item);
    if c < start { return 0; }
    var offset := U16(map4, 14 + segcount * 6 + 2 + 2 * item);
    if offset == 0 {
      return (c + Int16(U16(map4, 14 + segcount * 4 + 2 + 2 * item))) % 0x10000;
    }
    assert GlyphSlot(map4, item, c) + 2 <= |map4|;
    glyph := U16(map4, offset + (c - start) * 2 + 14 + segcount * 6 + 2 + 2 * item);
  }

  /** The decoder never adds the delta to a listed glyph, so it agrees with the
      OpenType rule exactly when no listed glyph is found or its delta is 0. */
  lemma AgreesWithOpenType(map4: seq<byte>, c: int)
    requires Format4(map4)
    ensures Mapped4(map4, c) == OpenType4(map4, c)
       <==> (c > 0xFFFF
             || (var i := FirstSegment(EndCodes(map4), 0, c);
                 c < StartCode(map4, i) || RangeOffset(map4, i) == 0 || U16(map4, GlyphSlot(map4, i, c)) == 0
                 || Delta(map4, i) == 0))
  {
  }

  /** One segment, [0xFFFF, 0xFFFF], with delta 1 and glyph 5 in its list. */
  const LISTED: seq<byte> :=
    [0, 4, 0, 26, 0, 0, 0, 2, 0, 2, 0, 0, 0, 0, 0xFF, 0xFF, 0, 0, 0xFF, 0xFF, 0, 1, 0, 2, 0, 5]

  lemma ListedFields()
    ensures |LISTED| == 26 && SegCount(LISTED) == 1
    ensures U16(LISTED, 8) == 2 && U16(LISTED, 10) == 0 && U16(LISTED, 12) == 0
    ensures U16(LISTED, 14) == U16(LISTED, 18) == 0xFFFF
    ensures U16(LISTED, 20) == 1 && U16(LISTED, 22) == 2 && U16(LISTED, 24) == 5
  {
  }

  lemma ListedIsFormat4()
    ensures Format4(LISTED)
  {
    ListedFields();
    assert EndCodes(LISTED) == [0xFFFF];
    assert Pow2(0) == 1;
    assert Searchable(LISTED);
    assert StartCode(LISTED, 0) == 0xFFFF && RangeOffset(LISTED, 0) == 2;
  }

  lemma ListedMapped()
    ensures Format4(LISTED) && Mapped4(LISTED, 0xFFFF) == 5
  {
    ListedIsFormat4();
    ListedFields();
    assert StartCode(LISTED, 0) == 0xFFFF && GlyphSlot(LISTED, 0, 0xFFFF) == 24;
  }

  lemma DeltaOfListedGlyphIgnored()
    ensures Format4(LISTED) && Mapped4(LISTED, 0xFFFF) == 5 && OpenType4(LISTED, 0xFFFF) == 6
  {
    ListedMapped();
    ListedFields();
  }

  // ------------------------------------------------------ formats 12 and 13

  datatype Group = Group(start: nat, end: nat, glyph: nat)

  function GroupAt(map12: seq<byte>, k: nat): Group
    requires 28 + 12 * k <= |map12|
  {
    Group(U32(map12, 16 + k * 12), U32(map12, 16 + k * 12 + 4), U32(map12, 16 + k * 12 + 8))
  }

  /** Groups in ascending order and apart, as the OpenType 'cmap' chapter prescribes. */
  ghost predicate Format12(map12: seq<byte>) {
    && |map12| >= 16 && U32(map12, 12) < 0x8000_0000 && 16 + 12 * U32(map12, 12) <= |map12|
    && (forall i :: 0 <= i < U32(map12, 12) ==> GroupAt(map12, i).start <= GroupAt(map12, i).end)
    && forall i, j :: 0 <= i < j < U32(map12, 12) ==> GroupAt(map12, i).end < GroupAt(map12, j).start
  }

  /** The glyph of c in a group; format 13 gives a whole group one glyph. */
  function GlyphIn(g: Group, c: nat, format: nat): int {
    if format == 12 then Int32((g.glyph + c - g.start) % 0x1_0000_0000) else Int32(g.glyph)
  }

  /** The linear scan over the groups from k on. */
  ghost function Scan12(map12: seq<byte>, k: nat, c: nat, format: nat): int
    requires Format12(map12) && k <= U32(map12, 12)
    decreases U32(map12, 12) - k
  {
    if k == U32(map12, 12) then 0
    else
      var g := GroupAt(map12, k);
      if g.start <= c <= g.end then GlyphIn(g, c, format) else Scan12(map12, k + 1, c, format)
  }

  /** The scan finds group `hit`, or none if no group holds c. */
  lemma {:induction false} ScanFinds(map12: seq<byte>, k: nat, c: nat, format: nat, hit: nat)
    requires Format12(map12) && k <= hit <= U32(map12, 12)
    requires hit < U32(map12, 12) ==> var g := GroupAt(map12, hit); g.start <= c <= g.end
    requires forall t :: k <= t < U32(map12, 12) && t != hit ==> var g := GroupAt(map12, t); !(g.start <= c <= g.end)
    ensures Scan12(map12, k, c, format)
         == if hit < U32(map12, 12) then GlyphIn(GroupAt(map12, hit), c, format) else 0
    decreases U32(map12, 12) - k
  {
    if k < U32(map12, 12) && k != hit { ScanFinds(map12, k + 1, c, format, hit); }
  }

  ghost predicate InGroup(map12: seq<byte>, k: nat, c: nat)
    requires 28 + 12 * k <= |map12|
  {
    GroupAt(map12, k).start <= c <= GroupAt(map12, k).end
  }

  /** Any table that is all there is searched to an end, for a group that holds the code
      point or in vain; with the groups in order that is what the linear scan finds. */
  method FindGlyph12(map12: seq<byte>, codepoint: int, format: nat) returns (glyph: int)
    requires |map12| >= 16 && 16 + 12 * U32(map12, 12) <= |map12|
    ensures Format12(map12) ==> glyph == Scan12(map12, 0, codepoint % 0x1_0000_0000, format)
    ensures glyph != 0 ==>
              exists k :: 0 <= k < U32(map12, 12) && InGroup(map12, k, codepoint % 0x1_0000_0000)
                          && glyph == GlyphIn(GroupAt(map12, k), codepoint % 0x1_0000_0000, format)
  {
    var c := codepoint % 0x1_0000_0000;
    var ngroups := U32(map12, 12);
    var low, high := 0, Int32(ngroups);
    while low < high
      invariant 0 <= low && (low == 0 || low <= high) && high <= ngroups
      invariant Format12(map12) ==> low <= high && forall t :: 0 <= t < low ==> GroupAt(map12, t).end < c
      invariant Format12(map12) ==> forall t :: high <= t < ngroups ==> c < GroupAt(map12, t).start
      decreases high - low
    {
      var mid := low + (high - low) / 2;
      var g := GroupAt(map12, mid);
      if c < g.start {
        high := mid;
      } else if c > g.end {
        low := mid + 1;
      } else {
        assert InGroup(map12, mid, c);
        if Format12(map12) { ScanFinds(map12, 0, c, format, mid); }
        return GlyphIn(g, c, format);
      }
    }
    if Format12(map12) { ScanFinds(map12, 0, c, format, ngroups); }
    return 0;
  }
}
