/** The INDEX structure of a compact font (Adobe Technical Note 5176, section 5), as a font
    maker writes it, and the subroutines that charstrings call out of one. */
module CffIndex {
  import opened Common
  import opened FontBytes
  import opened Charstring

  /** The number that bytes say, high byte first. */
  ghost function Value(bs: seq<byte>): nat {
    if bs == [] then 0 else Value(bs[..|bs| - 1]) * 256 + bs[|bs| - 1] as int
  }

  /** How much the first k texts take. */
  ghost function Size(texts: seq<seq<byte>>, k: nat): nat
    requires k <= |texts|
  {
    if k == 0 then 0 else Size(texts, k - 1) + |texts[k - 1]|
  }

  /** The first k texts, one after the other. */
  ghost function Joined(texts: seq<seq<byte>>, k: nat): (d: seq<byte>)
    requires k <= |texts|
    ensures |d| == Size(texts, k)
  {
    if k == 0 then [] else Joined(texts, k - 1) + texts[k - 1]
  }

  /** An index: its count, the width of the offsets, the offsets and the entries. */
  datatype Index = Index(count: seq<byte>, offsize: byte, offsets: seq<seq<byte>>, entries: seq<seq<byte>>) {
    ghost function Text(): seq<byte> {
      count + ([offsize] + (Joined(offsets, |offsets|) + Joined(entries, |entries|)))
    }

    /** Two bytes of count; every offset of the same width, from 1, and one more than entries,
        so that each entry ends where the next begins. */
    ghost predicate WellMade() {
      && |count| == 2 && Value(count) == |entries| > 0 && |offsets| == |entries| + 1 && Size(entries, |entries|) < 0x7FFF_FFFF
      && forall k :: 0 <= k < |offsets| ==> |offsets[k]| == offsize && Value(offsets[k]) == 1 + Size(entries, k)
    }
  }

  // ------------------------------------------------------------- reading back

  lemma {:induction false} GetReadsBack(b: Buf, text: seq<byte>, n: nat)
    requires b.Valid() && n <= |text| && Stands(b.data, b.cursor, text) && Value(text[..n]) < 0x1_0000_0000
    ensures b.cursor + n <= |b.data| && b.Get(n) == (Value(text[..n]), b.(cursor := b.cursor + n))
    decreases n
  {
    if n > 0 {
      assert text[..n][..n - 1] == text[..n - 1];
      GetReadsBack(b, text, n - 1);
      assert b.data[b.cursor + n - 1] == b.data[b.cursor..b.cursor + |text|][n - 1];
    }
  }

  lemma NumberReadsBack(data: seq<byte>, p: nat, text: seq<byte>) returns (b: Buf, after: Buf)
    requires Stands(data, p, text) && Value(text) < 0x1_0000_0000
    ensures b == Buf(data, p) && after == Buf(data, p + |text|) && b.Valid() && after.Valid()
    ensures b.Get(|text|) == (Value(text), after)
  {
    b, after := Buf(data, p), Buf(data, p + |text|);
    assert text[..|text|] == text;
    GetReadsBack(b, text, |text|);
  }

  lemma ByteReadsBack(d: seq<byte>, p: nat, x: byte)
    requires Stands(d, p, [x])
    ensures Buf(d, p).Valid() && Buf(d, p).Get8() == (x, Buf(d, p + 1)) && Buf(d, p + 1).Valid()
  {
    assert d[p] == d[p..p + 1][0];
  }

  /** Text i stands where the ones before it end. */
  lemma {:induction false} PartStands(d: seq<byte>, p: nat, texts: seq<seq<byte>>, k: nat, i: nat)
    requires i < k <= |texts| && Stands(d, p, Joined(texts, k))
    ensures Stands(d, p + Size(texts, i), texts[i])
    decreases k
  {
    StandsSplit(d, p, Joined(texts, k - 1), texts[k - 1]);
    if i < k - 1 { PartStands(d, p, texts, k - 1, i); }
  }

  lemma {:induction false} SizesGrow(texts: seq<seq<byte>>, i: nat, k: nat)
    requires i <= k <= |texts|
    ensures Size(texts, i) <= Size(texts, k)
    decreases k
  {
    if i < k { SizesGrow(texts, i, k - 1); }
  }

  lemma {:induction false} EvenSize(texts: seq<seq<byte>>, size: nat, k: nat)
    requires k <= |texts| && forall j :: 0 <= j < |texts| ==> |texts[j]| == size
    ensures Size(texts, k) == Span(k, size)
  {
    if k > 0 { EvenSize(texts, size, k - 1); }
  }

  /** An offset of a well-made index. */
  lemma OffsetIs(x: Index, k: nat) returns (offset: nat)
    requires x.WellMade() && k < |x.offsets|
    ensures offset == Value(x.offsets[k]) == 1 + Size(x.entries, k) && offset < 0x8000_0000
    ensures |x.offsets[k]| == x.offsize && Size(x.offsets, k) == Span(k, x.offsize)
  {
    offset := 1 + Size(x.entries, k);
    SizesGrow(x.entries, k, |x.entries|);
    EvenSize(x.offsets, x.offsize, k);
  }

  /** The four parts, behind one another. */
  lemma PartsStand(index: seq<byte>, x: Index) returns (entries: nat)
    requires x.WellMade() && Stands(index, 0, x.Text())
    ensures Stands(index, 0, x.count) && Stands(index, 2, [x.offsize]) && Stands(index, 3, Joined(x.offsets, |x.offsets|))
    ensures entries == 3 + Span(|x.entries| + 1, x.offsize) && Stands(index, entries, Joined(x.entries, |x.entries|))
  {
    var offsets, texts := Joined(x.offsets, |x.offsets|), Joined(x.entries, |x.entries|);
    var p, q := StandsThree(index, 0, x.count, [x.offsize], offsets + texts);
    StandsSplit(index, 3, offsets, texts);
    EvenSize(x.offsets, x.offsize, |x.offsets|);
    entries := 3 + |offsets|;
  }

  lemma OffsetReadsBack(index: seq<byte>, x: Index, k: nat) returns (offset: nat, b: Buf, after: Buf)
    requires x.WellMade() && k < |x.offsets| && Stands(index, 3, Joined(x.offsets, |x.offsets|))
    ensures offset == 1 + Size(x.entries, k) && offset < 0x8000_0000
    ensures b == Buf(index, 3 + Span(k, x.offsize)) && after == Buf(index, 3 + Span(k, x.offsize) + x.offsize)
    ensures b.Valid() && after.Valid() && b.Get(x.offsize) == (offset, after)
  {
    offset := OffsetIs(x, k);
    PartStands(index, 3, x.offsets, |x.offsets|, k);
    b, after := NumberReadsBack(index, 3 + Span(k, x.offsize), x.offsets[k]);
  }

  /** What the look-up amounts to, given what it reads on the way. */
  lemma IndexSlotIs(index: seq<byte>, i: nat, count: nat, offsize: byte, start: nat, end: nat,
                    b1: Buf, b2: Buf, b3: Buf, b4: Buf, b5: Buf)
    requires b1.Valid() && b2.Valid() && b3.Valid() && b4.Valid()
    requires Buf(index, 0).Get(2) == (count, b1) && b1.Get8() == (offsize, b2) && b2.Skip(Span(i, offsize)) == b3
    requires b3.Get(offsize) == (start, b4) && b4.Get(offsize) == (end, b5)
    requires start < 0x8000_0000 && end < 0x8000_0000
    ensures IndexSlot(index, i) == (2 + Span(count + 1, offsize) + start, end - start)
  {
    Small(start);
    Small(end);
  }

  lemma Small(v: nat)
    requires v < 0x8000_0000
    ensures Int32(v) == v
  {
  }

  lemma SkipTo(index: seq<byte>, n: nat, b: Buf) returns (b2: Buf)
    requires b == Buf(index, 3 + n) && b.Valid()
    ensures b2 == Buf(index, 3) && b2.Valid() && b2.Skip(n) == b
  {
    b2 := Buf(index, 3);
  }

  lemma CountReadsBack(index: seq<byte>, x: Index) returns (after: Buf)
    requires x.WellMade() && Stands(index, 0, x.count)
    ensures after == Buf(index, 2) && after.Valid() && Buf(index, 0).Get(2) == (|x.entries|, after)
  {
    assert Value(x.count[..1]) == x.count[0] && x.count[..1][..0] == [];
    var b;
    b, after := NumberReadsBack(index, 0, x.count);
  }

  /** All that is read on the way to entry i. */
  lemma PartsRead(index: seq<byte>, x: Index, i: nat)
    returns (first: nat, end: nat, b1: Buf, b2: Buf, b3: Buf, b4: Buf, b5: Buf)
    requires x.WellMade() && i < |x.entries|
    requires Stands(index, 0, x.count) && Stands(index, 2, [x.offsize]) && Stands(index, 3, Joined(x.offsets, |x.offsets|))
    ensures first == 1 + Size(x.entries, i) && end == first + |x.entries[i]| < 0x8000_0000
    ensures b1.Valid() && b2.Valid() && b3.Valid() && b4.Valid()
    ensures Buf(index, 0).Get(2) == (|x.entries|, b1) && b1.Get8() == (x.offsize, b2) && b2.Skip(Span(i, x.offsize)) == b3
    ensures b3.Get(x.offsize) == (first, b4) && b4.Get(x.offsize) == (end, b5)
  {
    b1 := CountReadsBack(index, x);
    ByteReadsBack(index, 2, x.offsize);
    first, b3, b4 := OffsetReadsBack(index, x, i);
    end, b4, b5 := OffsetReadsBack(index, x, i + 1);
    b2 := SkipTo(index, Span(i, x.offsize), b3);
  }

  lemma SlotOf(index: seq<byte>, x: Index, i: nat) returns (start: nat, size: nat)
    requires x.WellMade() && i < |x.entries|
    requires Stands(index, 0, x.count) && Stands(index, 2, [x.offsize]) && Stands(index, 3, Joined(x.offsets, |x.offsets|))
    ensures start == 3 + Span(|x.entries| + 1, x.offsize) + Size(x.entries, i) && size == |x.entries[i]|
    ensures IndexSlot(index, i) == (start, size)
  {
    var first, end, b1, b2, b3, b4, b5 := PartsRead(index, x, i);
    IndexSlotIs(index, i, |x.entries|, x.offsize, first, end, b1, b2, b3, b4, b5);
    start, size := 2 + Span(|x.entries| + 1, x.offsize) + first, end - first;
  }

  lemma EntryInSlot(index: seq<byte>, i: nat, start: nat, size: nat, entry: seq<byte>)
    requires IndexSlot(index, i) == (start, size) && Stands(index, start, entry) && size == |entry|
    ensures IndexGet(index, i) == entry
  {
  }

  /** Every entry of an index is found as it was written. */
  lemma EntryReadsBack(index: seq<byte>, x: Index, i: nat)
    requires x.WellMade() && Stands(index, 0, x.Text()) && i < |x.entries|
    ensures IndexGet(index, i) == x.entries[i]
  {
    var entries := PartsStand(index, x);
    PartStands(index, entries, x.entries, |x.entries|, i);
    var start, size := SlotOf(index, x, i);
    EntryInSlot(index, i, start, size, x.entries[i]);
  }

  lemma CountOf(index: seq<byte>, x: Index)
    requires x.WellMade() && Stands(index, 0, x.Text())
    ensures Buf(index, 0).Get(2).0 == |x.entries|
  {
    var entries := PartsStand(index, x);
    var after := CountReadsBack(index, x);
  }

  // -------------------------------------------------------------- subroutines

  /** Subroutines are numbered from the negative of a bias, which goes by how many there are. */
  function Bias(count: nat): nat { if count < 1240 then 107 else if count < 33900 then 1131 else 32768 }

  lemma SubrIs(index: seq<byte>, count: nat, n: int, k: nat, text: seq<byte>)
    requires Buf(index, 0).Get(2).0 == count && k < count && k == n + Bias(count) && IndexGet(index, k) == text
    ensures Subr(index, n) == text
  {
  }

  lemma NoSubr(index: seq<byte>, count: nat, n: int)
    requires Buf(index, 0).Get(2).0 == count && !(0 <= n + Bias(count) < count)
    ensures Subr(index, n) == []
  {
  }

  /** The subroutine of each number is the entry that the bias puts there; there are no others. */
  lemma SubrReadsBack(index: seq<byte>, x: Index, n: int)
    requires x.WellMade() && Stands(index, 0, x.Text())
    ensures Subr(index, n) == if 0 <= n + Bias(|x.entries|) < |x.entries| then x.entries[n + Bias(|x.entries|)] else []
  {
    var count, k := |x.entries|, n + Bias(|x.entries|);
    if 0 <= k < count {
      SubrFound(index, x, n, k);
    } else {
      CountOf(index, x);
      NoSubr(index, count, n);
    }
  }

  lemma SubrFound(index: seq<byte>, x: Index, n: int, k: nat)
    requires x.WellMade() && Stands(index, 0, x.Text())
    requires k < |x.entries| && k == n + Bias(|x.entries|)
    ensures Subr(index, n) == x.entries[k]
  {
    EntryReadsBack(index, x, k);
    CountOf(index, x);
    SubrIs(index, |x.entries|, n, k, x.entries[k]);
  }
}
