/** Character maps as a font maker lays them out (formats 4, 12 and 13 of the OpenType
    'cmap' chapter), and what the look-ups make of them. */
module CmapTables {
  import opened Common
  import opened FontBytes
  import opened CmapSearch

  // ------------------------------------------------------------- format 4

  /** The columns of a format 4 table, `selector` the logarithm of the number of segments,
      rounded down. */
  datatype Table = Table(length: nat, language: nat, selector: nat, ends: seq<nat>, starts: seq<nat>, deltas: seq<int16>,
                         offsets: seq<nat>, glyphs: seq<nat>)

  ghost function Unsigned(deltas: seq<int16>): seq<nat> {
    seq(|deltas|, k requires 0 <= k < |deltas| => deltas[k] as int % 0x10000)
  }

  /** The table word by word: format, length, language, the doubled count, the three search
      fields, and the columns, with one word between the first two. */
  ghost function TableWords(t: Table): (ws: seq<nat>)
    requires 2 * Pow2(t.selector) <= 2 * |t.ends|
  {
    [4, t.length, t.language, 2 * |t.ends|, 2 * Pow2(t.selector), t.selector, 2 * |t.ends| - 2 * Pow2(t.selector)]
    + t.ends + [0] + t.starts + Unsigned(t.deltas) + t.offsets + t.glyphs
  }

  /** The index in `glyphs` that offset i means for code point c: the offset counts bytes from
      its own word. */
  function Listed(t: Table, i: nat, c: int): int
    requires i < |t.offsets| && i < |t.starts|
  {
    t.offsets[i] / 2 + (c - t.starts[i]) - (|t.offsets| - i)
  }

  /** As the chapter asks: as many entries in every column, end codes ascending to 0xFFFF, and
      the glyphs of a segment with an offset all in the list. */
  ghost predicate WellMade(t: Table) {
    && |t.ends| == |t.starts| == |t.deltas| == |t.offsets| && 0 < |t.ends| < 0x8000
    && Pow2(t.selector) <= |t.ends| < 2 * Pow2(t.selector)
    && Ascending(t.ends)
    && (forall i :: 0 <= i < |t.offsets| ==> t.offsets[i] % 2 == 0)
    && (forall i :: 0 <= i < |t.offsets| && t.offsets[i] != 0 && t.starts[i] <= t.ends[i] ==>
          Listed(t, i, t.starts[i]) >= 0 && Listed(t, i, t.ends[i]) < |t.glyphs|)
    && AreWords(TableWords(t))
  }

  /** Where each column is, in words. */
  lemma WordOf(t: Table, i: nat)
    requires |t.ends| == |t.starts| == |t.deltas| == |t.offsets| && Pow2(t.selector) <= |t.ends|
    ensures var ws := TableWords(t); var n := |t.ends|;
            && |ws| == 8 + 4 * n + |t.glyphs|
            && ws[3] == 2 * n && ws[4] == 2 * Pow2(t.selector) && ws[5] == t.selector && ws[6] == 2 * n - 2 * Pow2(t.selector)
            && (i < n ==> ws[7 + i] == t.ends[i] && ws[8 + n + i] == t.starts[i]
                          && ws[8 + 2 * n + i] == t.deltas[i] as int % 0x10000 && ws[8 + 3 * n + i] == t.offsets[i])
            && (i < |t.glyphs| ==> ws[8 + 4 * n + i] == t.glyphs[i])
  {
  }

  lemma ColumnsOf(map4: seq<byte>, ws: seq<nat>, n: nat, i: nat)
    requires HasWords(map4, 0, ws) && |ws| >= 8 + 4 * n && ws[3] == 2 * n && i < n
    ensures |map4| >= 2 * |ws| && SegCount(map4) == n
    ensures EndCodes(map4)[i] == ws[7 + i] && StartCode(map4, i) == ws[8 + n + i]
    ensures Delta(map4, i) == Int16(ws[8 + 2 * n + i]) && RangeOffset(map4, i) == ws[8 + 3 * n + i]
  {
    ReadWord(map4, 0, ws, 3, 6);
    ReadWord(map4, 0, ws, 7 + i, 14 + 2 * i);
    ReadWord(map4, 0, ws, 8 + n + i, 16 + 2 * n + 2 * i);
    ReadWord(map4, 0, ws, 8 + 2 * n + i, 16 + 4 * n + 2 * i);
    ReadWord(map4, 0, ws, 8 + 3 * n + i, 16 + 6 * n + 2 * i);
  }

  /** Every column reads back. */
  lemma ColumnsReadBack(map4: seq<byte>, t: Table, i: nat)
    requires WellMade(t) && HasWords(map4, 0, TableWords(t)) && i < |t.ends|
    ensures |map4| >= 16 + 8 * |t.ends| + 2 * |t.glyphs| && SegCount(map4) == |t.ends|
    ensures EndCodes(map4)[i] == t.ends[i] && StartCode(map4, i) == t.starts[i]
    ensures Delta(map4, i) == t.deltas[i] && RangeOffset(map4, i) == t.offsets[i]
  {
    WordOf(t, i);
    ColumnsOf(map4, TableWords(t), |t.ends|, i);
    SignedBack(t.deltas[i]);
  }

  lemma SignedBack(d: int16)
    ensures Int16(d % 0x10000) == d
  {
  }

  lemma SearchFields(map4: seq<byte>, t: Table)
    requires WellMade(t) && HasWords(map4, 0, TableWords(t))
    ensures |map4| >= 16 && U16(map4, 8) == 2 * Pow2(t.selector) && U16(map4, 10) == t.selector
    ensures U16(map4, 12) == 2 * |t.ends| - 2 * Pow2(t.selector)
  {
    WordOf(t, 0);
    ReadWord(map4, 0, TableWords(t), 4, 8);
    ReadWord(map4, 0, TableWords(t), 5, 10);
    ReadWord(map4, 0, TableWords(t), 6, 12);
  }

  lemma SlotReadsBack(map4: seq<byte>, t: Table, i: nat, c: nat) returns (slot: nat, k: nat)
    requires WellMade(t) && HasWords(map4, 0, TableWords(t)) && i < |t.ends|
    requires t.offsets[i] != 0 && t.starts[i] <= c <= t.ends[i]
    ensures k == Listed(t, i, c) < |t.glyphs|
    ensures |map4| >= 16 + 8 * |t.ends| + 2 * |t.glyphs| && SegCount(map4) == |t.ends|
    ensures slot == GlyphSlot(map4, i, c) && slot + 2 <= |map4| && U16(map4, slot) == t.glyphs[k]
  {
    ColumnsReadBack(map4, t, i);
    k := Listed(t, i, c);
    slot := 2 * (8 + 4 * |t.ends| + k);
    WordOf(t, k);
    ReadWord(map4, 0, TableWords(t), 8 + 4 * |t.ends| + k, slot);
  }

  lemma SlotFits(map4: seq<byte>, t: Table, i: nat, c: nat)
    requires WellMade(t) && HasWords(map4, 0, TableWords(t)) && i < |t.ends| && t.starts[i] <= c <= t.ends[i]
    ensures |map4| >= 16 + 8 * |t.ends| && SegCount(map4) == |t.ends|
    ensures RangeOffset(map4, i) != 0 ==> GlyphSlot(map4, i, c) + 2 <= |map4|
  {
    ColumnsReadBack(map4, t, i);
    if t.offsets[i] != 0 { var slot, k := SlotReadsBack(map4, t, i, c); }
  }

  /** A well-made table is one that the search was proved for. */
  lemma MadeIsFormat4(map4: seq<byte>, t: Table)
    requires WellMade(t) && HasWords(map4, 0, TableWords(t))
    ensures Format4(map4) && EndCodes(map4) == t.ends
  {
    ColumnsReadBack(map4, t, 0);
    SearchFields(map4, t);
    forall i | 0 <= i < |t.ends| ensures EndCodes(map4)[i] == t.ends[i] { ColumnsReadBack(map4, t, i); }
    forall i, c: nat | 0 <= i < SegCount(map4) && StartCode(map4, i) <= c <= EndCodes(map4)[i]
      ensures RangeOffset(map4, i) != 0 ==> GlyphSlot(map4, i, c) + 2 <= |map4|
    {
      ColumnsReadBack(map4, t, i);
      SlotFits(map4, t, i, c);
    }
  }

  lemma MappedBySegment(map4: seq<byte>, c: nat, i: nat)
    requires Format4(map4) && i < SegCount(map4) && c <= EndCodes(map4)[i] && (i > 0 ==> EndCodes(map4)[i - 1] < c)
    ensures Mapped4(map4, c) == if c < StartCode(map4, i) then 0
                                else if RangeOffset(map4, i) == 0 then (c + Delta(map4, i)) % 0x10000
                                else U16(map4, GlyphSlot(map4, i, c))
  {
    SegmentOf(EndCodes(map4), c, i);
  }

  /** The look-up, told by the maker's columns: none before a segment's start ... */
  lemma BeforeStart(map4: seq<byte>, t: Table, c: nat, i: nat)
    requires WellMade(t) && Stands(map4, 0, Words(TableWords(t)))
    requires i < |t.ends| && c <= t.ends[i] && (i > 0 ==> t.ends[i - 1] < c) && c < t.starts[i]
    ensures Format4(map4) && Mapped4(map4, c) == 0
  {
    WordsAreThere(map4, 0, TableWords(t));
    MadeIsFormat4(map4, t);
    ColumnsReadBack(map4, t, i);
    MappedBySegment(map4, c, i);
  }

  /** ... with no offset, the code point and the segment's delta ... */
  lemma ByDelta(map4: seq<byte>, t: Table, c: nat, i: nat)
    requires WellMade(t) && Stands(map4, 0, Words(TableWords(t)))
    requires i < |t.ends| && c <= t.ends[i] && (i > 0 ==> t.ends[i - 1] < c) && t.starts[i] <= c && t.offsets[i] == 0
    ensures Format4(map4) && Mapped4(map4, c) == (c + t.deltas[i]) % 0x10000
  {
    WordsAreThere(map4, 0, TableWords(t));
    MadeIsFormat4(map4, t);
    ColumnsReadBack(map4, t, i);
    MappedBySegment(map4, c, i);
  }

  /** ... and else the glyph listed. */
  lemma ByList(map4: seq<byte>, t: Table, c: nat, i: nat)
    requires WellMade(t) && Stands(map4, 0, Words(TableWords(t)))
    requires i < |t.ends| && c <= t.ends[i] && (i > 0 ==> t.ends[i - 1] < c) && t.starts[i] <= c && t.offsets[i] != 0
    ensures 0 <= t.offsets[i] / 2 + (c - t.starts[i]) - (|t.ends| - i) < |t.glyphs|
    ensures Format4(map4) && Mapped4(map4, c) == t.glyphs[t.offsets[i] / 2 + (c - t.starts[i]) - (|t.ends| - i)]
  {
    WordsAreThere(map4, 0, TableWords(t));
    MadeIsFormat4(map4, t);
    var slot, k := SlotReadsBack(map4, t, i, c);
    SlotMapped(map4, t, c, i, slot);
  }

  lemma SlotMapped(map4: seq<byte>, t: Table, c: nat, i: nat, slot: nat)
    requires WellMade(t) && HasWords(map4, 0, TableWords(t)) && Format4(map4) && EndCodes(map4) == t.ends
    requires i < |t.ends| && c <= t.ends[i] && (i > 0 ==> t.ends[i - 1] < c) && t.starts[i] <= c && t.offsets[i] != 0
    requires slot == GlyphSlot(map4, i, c) && slot + 2 <= |map4|
    ensures Mapped4(map4, c) == U16(map4, slot)
  {
    ColumnsReadBack(map4, t, i);
    MappedBySegment(map4, c, i);
  }

  lemma SegmentOf(ends: seq<nat>, c: nat, i: nat)
    requires Ascending(ends) && i < |ends| && c <= ends[i] && (i > 0 ==> ends[i - 1] < c)
    ensures c <= 0xFFFF && FirstSegment(ends, 0, c) == i
  {
    var k := FirstSegment(ends, 0, c);
    assert c <= ends[k];
  }

  // ------------------------------------------------------ formats 12 and 13

  ghost predicate InLongs(g: Group) { g.start < 0x1_0000_0000 && g.end < 0x1_0000_0000 && g.glyph < 0x1_0000_0000 }

  ghost function GroupWords(g: Group): seq<nat> {
    [g.start / 0x10000, g.start % 0x10000, g.end / 0x10000, g.end % 0x10000, g.glyph / 0x10000, g.glyph % 0x10000]
  }

  ghost function AllGroupWords(groups: seq<Group>): (ws: seq<nat>)
    ensures |ws| == 6 * |groups|
  {
    if groups == [] then [] else GroupWords(groups[0]) + AllGroupWords(groups[1..])
  }

  /** Format, a reserved word, length, language, and the groups with their number. */
  ghost function GroupTable(format: nat, length: nat, language: nat, groups: seq<Group>): seq<nat> {
    [format, 0, length / 0x10000, length % 0x10000, language / 0x10000, language % 0x10000,
     |groups| / 0x10000, |groups| % 0x10000] + AllGroupWords(groups)
  }

  lemma {:induction false} GroupWordAt(groups: seq<Group>, k: nat, j: nat)
    requires k < |groups| && j < 6
    ensures AllGroupWords(groups)[6 * k + j] == GroupWords(groups[k])[j]
    decreases k
  {
    if k > 0 { GroupWordAt(groups[1..], k - 1, j); }
  }

  lemma LongAt(d: seq<byte>, ws: seq<nat>, k: nat) returns (p: nat, v: nat)
    requires HasWords(d, 0, ws) && k + 1 < |ws|
    ensures p == 2 * k && p + 4 <= |d| && v == U32(d, p) == ws[k] * 0x10000 + ws[k + 1]
  {
    p := 2 * k;
    ReadWord(d, 0, ws, k, p);
    ReadWord(d, 0, ws, k + 1, p + 2);
    v := ws[k] * 0x10000 + ws[k + 1];
  }

  /** The words of group k. */
  lemma WordsOfGroup(ws: seq<nat>, groups: seq<Group>, k: nat, j: nat) returns (at: nat)
    requires |ws| == 8 + 6 * |groups| && ws[8..] == AllGroupWords(groups) && k < |groups| && j < 6
    ensures at == 8 + 6 * k && at + 6 <= |ws| && ws[at + j] == GroupWords(groups[k])[j]
  {
    at := 8 + 6 * k;
    GroupWordAt(groups, k, j);
    assert ws[at + j] == ws[8..][6 * k + j];
  }

  /** One of the three longs of group k. */
  lemma GroupLong(d: seq<byte>, ws: seq<nat>, groups: seq<Group>, k: nat, j: nat, v: nat) returns (p: nat)
    requires HasWords(d, 0, ws) && |ws| == 8 + 6 * |groups| && ws[8..] == AllGroupWords(groups) && k < |groups| && j < 3
    requires v == [groups[k].start, groups[k].end, groups[k].glyph][j]
    ensures p == 16 + 12 * k + 4 * j && p + 4 <= |d| && U32(d, p) == v
  {
    var at := WordsOfGroup(ws, groups, k, 2 * j);
    at := WordsOfGroup(ws, groups, k, 2 * j + 1);
    var w;
    p, w := LongAt(d, ws, at + 2 * j);
  }

  /** Every group reads back, and how many there are. */
  lemma GroupsReadBack(map12: seq<byte>, format: nat, length: nat, language: nat, groups: seq<Group>, k: nat)
    requires HasWords(map12, 0, GroupTable(format, length, language, groups))
    ensures |map12| >= 16 + 12 * |groups| && U32(map12, 12) == |groups|
    ensures k < |groups| ==> GroupAt(map12, k) == groups[k]
  {
    var ws := GroupTable(format, length, language, groups);
    var p, count := LongAt(map12, ws, 6);
    if k < |groups| {
      p := GroupLong(map12, ws, groups, k, 0, groups[k].start);
      p := GroupLong(map12, ws, groups, k, 1, groups[k].end);
      p := GroupLong(map12, ws, groups, k, 2, groups[k].glyph);
    }
  }

  /** Groups of at least one code point each, ascending and apart. */
  ghost predicate InOrder(groups: seq<Group>) {
    && |groups| < 0x8000_0000
    && (forall i :: 0 <= i < |groups| ==> groups[i].start <= groups[i].end && InLongs(groups[i]))
    && (forall i, j :: 0 <= i < j < |groups| ==> groups[i].end < groups[j].start)
  }

  lemma MadeIsFormat12(map12: seq<byte>, format: nat, length: nat, language: nat, groups: seq<Group>)
    requires InOrder(groups) && HasWords(map12, 0, GroupTable(format, length, language, groups))
    ensures Format12(map12) && U32(map12, 12) == |groups|
    ensures forall k :: 0 <= k < |groups| ==> GroupAt(map12, k) == groups[k]
  {
    GroupsReadBack(map12, format, length, language, groups, |groups|);
    forall k | 0 <= k < |groups| ensures GroupAt(map12, k) == groups[k] {
      GroupsReadBack(map12, format, length, language, groups, k);
    }
  }

  /** The look-up, told by the maker's groups: in group k the glyphs go up with the code points
      from the first, or in format 13 are all the same; outside of all groups there is none. */
  lemma GroupsMap(map12: seq<byte>, format: nat, length: nat, language: nat, groups: seq<Group>, c: nat, k: nat)
    requires InOrder(groups) && AreWords(GroupTable(format, length, language, groups))
    requires Stands(map12, 0, Words(GroupTable(format, length, language, groups)))
    requires k <= |groups| && (if k < |groups| then groups[k].start <= c <= groups[k].end
                               else forall j :: 0 <= j < |groups| ==> !(groups[j].start <= c <= groups[j].end))
    requires k < |groups| ==> groups[k].glyph + (if format == 12 then c - groups[k].start else 0) < 0x8000_0000
    ensures Format12(map12)
    ensures Scan12(map12, 0, c, format) == if k == |groups| then 0
                                           else if format == 12 then groups[k].glyph + (c - groups[k].start)
                                           else groups[k].glyph
  {
    WordsAreThere(map12, 0, GroupTable(format, length, language, groups));
    MadeIsFormat12(map12, format, length, language, groups);
    forall t | 0 <= t < U32(map12, 12) && t != k ensures var g := GroupAt(map12, t); !(g.start <= c <= g.end) {
      assert GroupAt(map12, t) == groups[t];
    }
    ScanFinds(map12, 0, c, format, k);
    if k < |groups| { GlyphOfGroup(groups[k], c, format); }
  }

  lemma GlyphOfGroup(g: Group, c: nat, format: nat)
    requires g.start <= c && g.glyph + (if format == 12 then c - g.start else 0) < 0x8000_0000
    ensures GlyphIn(g, c, format) == if format == 12 then g.glyph + (c - g.start) else g.glyph
  {
  }
}
