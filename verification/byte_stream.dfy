/** The little-endian wire encoding (`net::ByteWriter`, `net::ByteReader`). */
module ByteStream {
  import opened Common

  const MAX_STRING := 1024

  /** A field on the wire: an unsigned number of some width in bytes, or a string. A
      float is the number with the same bits. */
  datatype Field = Word(width: nat, value: nat) | Text(bytes: seq<byte>)

  datatype Kind = WordKind(width: nat) | TextKind

  function KindOf(f: Field): Kind { if f.Word? then WordKind(f.width) else TextKind }

  predicate HasKinds(fs: seq<Field>, kinds: seq<Kind>) {
    |fs| == |kinds| && forall k :: 0 <= k < |fs| ==> KindOf(fs[k]) == kinds[k]
  }

  predicate IsWidth(n: nat) { n == 1 || n == 2 || n == 4 || n == 8 }

  ghost predicate Proper(f: Field) {
    if f.Word? then IsWidth(f.width) && f.value < Pow256(f.width) else |f.bytes| <= MAX_STRING
  }

  ghost predicate AllProper(fs: seq<Field>) { forall k :: 0 <= k < |fs| ==> Proper(fs[k]) }

  // ------------------------------------------------------------ little-endian

  function Pow256(n: nat): (p: nat)
    ensures p > 0
  {
    if n == 0 then 1 else 256 * Pow256(n - 1)
  }

  lemma Powers()
    ensures Pow256(1) == 0x100 && Pow256(2) == 0x1_0000 && Pow256(4) == 0x1_0000_0000
    ensures Pow256(8) == 0x1_0000_0000_0000_0000
  {
  }

  function Little(v: nat, n: nat): (bs: seq<byte>)
    ensures |bs| == n
  {
    if n == 0 then [] else [v % 256] + Little(v / 256, n - 1)
  }

  function Number(bs: seq<byte>): nat {
    if bs == [] then 0 else bs[0] + 256 * Number(bs[1..])
  }

  lemma {:induction false} NumberOfLittle(v: nat, n: nat)
    requires v < Pow256(n)
    ensures Number(Little(v, n)) == v
  {
    if n > 0 {
      NumberOfLittle(v / 256, n - 1);
      assert Little(v, n)[1..] == Little(v / 256, n - 1);
    }
  }

  lemma LowByte(b: byte, n: nat)
    ensures (b + 256 * n) % 256 == b && (b + 256 * n) / 256 == n
  {
  }

  lemma {:induction false} LittleOfNumber(bs: seq<byte>)
    ensures Number(bs) < Pow256(|bs|) && Little(Number(bs), |bs|) == bs
  {
    if bs != [] {
      LittleOfNumber(bs[1..]);
      LowByte(bs[0], Number(bs[1..]));
    }
  }

  lemma Scaled(b: nat, p: nat)
    ensures 256 * (b * p) == b * (256 * p)
  {
  }

  lemma {:induction false} NumberSnoc(bs: seq<byte>, b: byte)
    ensures Number(bs + [b]) == Number(bs) + b * Pow256(|bs|)
  {
    if bs == [] {
      assert Number([b]) == b + 256 * Number([b][1..]);
    } else {
      NumberSnoc(bs[1..], b);
      assert (bs + [b])[1..] == bs[1..] + [b];
      Scaled(b, Pow256(|bs| - 1));
    }
  }

  // ---------------------------------------------------------------- encoding

  ghost function Encode(f: Field): seq<byte> {
    if f.Word? then Little(f.value, f.width) else Little(|f.bytes|, 2) + f.bytes
  }

  ghost function EncodeAll(fs: seq<Field>): seq<byte> {
    if fs == [] then [] else EncodeAll(fs[..|fs| - 1]) + Encode(fs[|fs| - 1])
  }

  ghost predicate Starts(bs: seq<byte>, data: seq<byte>) { |bs| <= |data| && data[..|bs|] == bs }

  lemma StartsConcat(a: seq<byte>, b: seq<byte>, data: seq<byte>)
    ensures Starts(a + b, data) <==> Starts(a, data) && Starts(b, data[|a|..])
  {
    if |a + b| <= |data| {
      assert data[..|a + b|] == data[..|a|] + data[|a|..][..|b|];
      if Starts(a + b, data) {
        assert data[..|a|] == data[..|a + b|][..|a|] == a;
        assert data[|a|..][..|b|] == data[..|a + b|][|a|..] == b;
      }
    }
  }

  /** The bytes of a number, lowest first. */
  lemma LowByteFirst(width: nat, v: nat)
    requires IsWidth(width) && v < Pow256(width)
    ensures var bs := Encode(Word(width, v));
            && |bs| == width
            && (width == 1 ==> v == bs[0])
            && (width == 2 ==> v == bs[0] + 0x100 * bs[1] as int)
            && (width == 4 ==> v == bs[0] + 0x100 * bs[1] as int + 0x1_0000 * bs[2] as int + 0x100_0000 * bs[3] as int)
            && (width == 8 ==> v == bs[0] + 0x100 * bs[1] as int + 0x1_0000 * bs[2] as int + 0x100_0000 * bs[3] as int
                                    + 0x1_0000_0000 * (bs[4] + 0x100 * bs[5] as int + 0x1_0000 * bs[6] as int + 0x100_0000 * bs[7] as int))
  {
    NumberOfLittle(v, width);
    var bs := Little(v, width);
    NumberUnfolds(bs);
  }

  lemma NumberUnfolds(bs: seq<byte>)
    ensures |bs| == 1 ==> Number(bs) == bs[0]
    ensures |bs| == 2 ==> Number(bs) == bs[0] + 0x100 * bs[1] as int
    ensures |bs| == 4 ==> Number(bs) == bs[0] + 0x100 * bs[1] as int + 0x1_0000 * bs[2] as int + 0x100_0000 * bs[3] as int
    ensures |bs| == 8 ==> Number(bs) == bs[0] + 0x100 * bs[1] as int + 0x1_0000 * bs[2] as int + 0x100_0000 * bs[3] as int
                                        + 0x1_0000_0000 * (bs[4] + 0x100 * bs[5] as int + 0x1_0000 * bs[6] as int + 0x100_0000 * bs[7] as int)
  {
    if |bs| >= 4 {
      FourBytes(bs);
      if |bs| == 8 { FourBytes(bs[4..]); }
    }
  }

  lemma FourBytes(bs: seq<byte>)
    requires |bs| >= 4
    ensures Number(bs) == bs[0] + 0x100 * bs[1] as int + 0x1_0000 * bs[2] as int + 0x100_0000 * bs[3] as int + 0x1_0000_0000 * Number(bs[4..])
  {
    assert bs[1..][1..] == bs[2..] && bs[2..][1..] == bs[3..] && bs[3..][1..] == bs[4..];
  }

  /** A string on the wire: its length in two bytes, lowest first, and its bytes. Only the
      first 1024 of a longer one go out. */
  lemma StringBytes(s: seq<byte>)
    ensures var bs := Encode(Text(Cut(s))); var sent := bs[2..];
            && Proper(Text(Cut(s))) && |sent| == bs[0] + 0x100 * bs[1] as int
            && |sent| <= 1024 && sent <= s && (|s| <= 1024 ==> sent == s) && (|s| > 1024 ==> |sent| == 1024)
  {
    Powers();
    var prefix := Little(|Cut(s)|, 2);
    LowByteFirst(2, |Cut(s)|);
    assert Encode(Text(Cut(s)))[2..] == Cut(s) && Encode(Text(Cut(s)))[..2] == prefix;
  }

  lemma EncodeSnoc(fs: seq<Field>, f: Field)
    ensures EncodeAll(fs + [f]) == EncodeAll(fs) + Encode(f)
  {
  }

  lemma {:induction false} EncodeAppend(fs: seq<Field>, gs: seq<Field>)
    ensures EncodeAll(fs + gs) == EncodeAll(fs) + EncodeAll(gs)
    decreases |gs|
  {
    if gs == [] {
      assert fs + gs == fs;
    } else {
      var r, g := gs[..|gs| - 1], gs[|gs| - 1];
      assert gs == r + [g] && fs + gs == (fs + r) + [g];
      EncodeAppend(fs, r);
      EncodeSnoc(fs + r, g);
      EncodeSnoc(r, g);
      Associate(EncodeAll(fs), EncodeAll(r), Encode(g));
    }
  }

  /** Two fields of a kind that both start what follows are the same. */
  lemma EncodeUnique(f: Field, g: Field, data: seq<byte>)
    requires Proper(f) && Proper(g) && KindOf(f) == KindOf(g) && Starts(Encode(f), data) && Starts(Encode(g), data)
    ensures f == g
  {
    if f.Word? {
      NumberOfLittle(f.value, f.width);
      NumberOfLittle(g.value, g.width);
    } else {
      Powers();
      assert Encode(f)[..2] == data[..2] == Encode(g)[..2];
      NumberOfLittle(|f.bytes|, 2);
      NumberOfLittle(|g.bytes|, 2);
      assert f.bytes == data[2..2 + |f.bytes|] == g.bytes;
    }
  }

  /** Without the last field the others start the data too. */
  lemma Fewer(fs: seq<Field>, data: seq<byte>)
    requires fs != [] && Starts(EncodeAll(fs), data)
    ensures var r := EncodeAll(fs[..|fs| - 1]); Starts(r, data) && Starts(Encode(fs[|fs| - 1]), data[|r|..])
  {
    StartsConcat(EncodeAll(fs[..|fs| - 1]), Encode(fs[|fs| - 1]), data);
  }

  lemma SameLists(fs: seq<Field>, gs: seq<Field>)
    requires |fs| == |gs| > 0 && fs[..|fs| - 1] == gs[..|gs| - 1] && fs[|fs| - 1] == gs[|gs| - 1]
    ensures fs == gs
  {
  }

  /** Bytes are the encoding of at most one sequence of fields of given kinds, also when
      something else follows them. */
  lemma {:induction false} DecodingUnique(fs: seq<Field>, gs: seq<Field>, kinds: seq<Kind>, data: seq<byte>)
    requires AllProper(fs) && AllProper(gs) && HasKinds(fs, kinds) && HasKinds(gs, kinds)
    requires Starts(EncodeAll(fs), data) && Starts(EncodeAll(gs), data)
    ensures fs == gs
    decreases |fs|
  {
    if fs != [] {
      var n := |fs| - 1;
      Fewer(fs, data);
      Fewer(gs, data);
      DecodingUnique(fs[..n], gs[..n], kinds[..n], data);
      EncodeUnique(fs[n], gs[n], data[|EncodeAll(fs[..n])|..]);
      SameLists(fs, gs);
    }
  }

  // ------------------------------------------------------------------ reading

  /** What a reader has done: either every field so far was there, and they are the
      bytes consumed; or the data does not start with fields of these kinds. */
  ghost predicate Reading(data: seq<byte>, kinds: seq<Kind>, fields: seq<Field>, offset: nat, failed: bool) {
    if failed then forall fs :: AllProper(fs) && HasKinds(fs, kinds) ==> !Starts(EncodeAll(fs), data)
    else offset <= |data| && AllProper(fields) && HasKinds(fields, kinds) && EncodeAll(fields) == data[..offset]
  }

  /** Reading back fields that were written gives them, and consumes their bytes only. */
  lemma ReadBack(written: seq<Field>, rest: seq<byte>, kinds: seq<Kind>, fields: seq<Field>, offset: nat, failed: bool)
    requires AllProper(written) && HasKinds(written, kinds)
    requires Reading(EncodeAll(written) + rest, kinds, fields, offset, failed)
    ensures !failed && fields == written && offset == |EncodeAll(written)|
  {
    var data := EncodeAll(written) + rest;
    assert data[..|EncodeAll(written)|] == EncodeAll(written);
    DecodingUnique(written, fields, kinds, data);
  }

  /** Every proper prefix of what was written fails. */
  lemma TruncationFails(written: seq<Field>, n: nat, kinds: seq<Kind>, fields: seq<Field>, offset: nat, failed: bool)
    requires AllProper(written) && HasKinds(written, kinds) && n < |EncodeAll(written)|
    requires Reading(EncodeAll(written)[..n], kinds, fields, offset, failed)
    ensures failed
  {
    if !failed { DecodingUnique(written, fields, kinds, EncodeAll(written)); }
  }

  lemma Succeeds(data: seq<byte>, kinds: seq<Kind>, fields: seq<Field>, offset: nat, f: Field)
    requires Reading(data, kinds, fields, offset, false) && Proper(f) && Starts(Encode(f), data[offset..])
    ensures Reading(data, kinds + [KindOf(f)], fields + [f], offset + |Encode(f)|, false)
  {
  }

  /** A read fails for good: because an earlier one did, or because no field of its kind
      is next. */
  lemma Fails(data: seq<byte>, kinds: seq<Kind>, fields: seq<Field>, offset: nat, failed: bool, kind: Kind)
    requires Reading(data, kinds, fields, offset, failed)
    requires failed || forall f :: Proper(f) && KindOf(f) == kind ==> !Starts(Encode(f), data[offset..])
    ensures Reading(data, kinds + [kind], fields, offset, true)
  {
    forall fs | AllProper(fs) && HasKinds(fs, kinds + [kind]) ensures !Starts(EncodeAll(fs), data) {
      NoEncoding(data, kinds, fields, offset, failed, kind, fs);
    }
  }

  lemma NoEncoding(data: seq<byte>, kinds: seq<Kind>, fields: seq<Field>, offset: nat, failed: bool, kind: Kind, fs: seq<Field>)
    requires Reading(data, kinds, fields, offset, failed)
    requires failed || forall f :: Proper(f) && KindOf(f) == kind ==> !Starts(Encode(f), data[offset..])
    requires AllProper(fs) && HasKinds(fs, kinds + [kind])
    ensures !Starts(EncodeAll(fs), data)
  {
    if Starts(EncodeAll(fs), data) {
      Fewer(fs, data);
      var r := fs[..|kinds|];
      assert AllProper(r) && HasKinds(r, kinds) && KindOf(fs[|kinds|]) == kind;
      if !failed { DecodingUnique(r, fields, kinds, data); }
    }
  }

  class ByteReader {
    const data: seq<byte>
    var offset: nat
    var failed: bool
    ghost var kinds: seq<Kind>
    ghost var fields: seq<Field>

    ghost predicate Valid()
      reads this
    {
      offset <= |data| && Reading(data, kinds, fields, offset, failed)
    }

    constructor (data: seq<byte>)
      ensures Valid() && this.data == data && offset == 0 && !failed && kinds == [] && fields == []
    {
      this.data, offset, failed := data, 0, false;
      kinds, fields := [], [];
    }

    function Remaining(): nat
      reads this
      requires offset <= |data|
    {
      if failed then 0 else |data| - offset
    }

    /** The number in the next `width` bytes; 0 when they are not there. */
    method Take(width: nat) returns (v: nat)
      requires offset <= |data| && IsWidth(width)
      modifies this`offset, this`failed
      ensures failed == (old(failed) || |data| - old(offset) < width)
      ensures if failed then v == 0 && offset == old(offset)
              else offset == old(offset) + width <= |data| && v == Number(data[old(offset)..][..width])
    {
      if Remaining() < width {
        failed := true;
        return 0;
      }
      v := 0;
      var shift: nat := 1;
      ghost var rest := data[offset..];
      for i := 0 to width
        invariant offset == old(offset) && !failed
        invariant shift == Pow256(i) && v == Number(rest[..i])
      {
        NumberSnoc(rest[..i], rest[i]);
        assert rest[..i] + [rest[i]] == rest[..i + 1];
        v := v + data[offset + i] * shift;
        shift := 256 * shift;
      }
      offset := offset + width;
    }

    /** `u8`, `u16`, `u32` and `u64`, and `f32` for its bits. */
    method Word(width: nat) returns (v: nat)
      requires Valid() && IsWidth(width)
      modifies this
      ensures Valid() && kinds == old(kinds) + [WordKind(width)] && (old(failed) ==> failed)
      ensures if failed then v == 0 else v < Pow256(width) && fields == old(fields) + [Field.Word(width, v)]
    {
      v := Take(width);
      if failed {
        Fails(data, old(kinds), fields, old(offset), old(failed), WordKind(width));
      } else {
        LittleOfNumber(data[old(offset)..][..width]);
        Succeeds(data, old(kinds), fields, old(offset), Field.Word(width, v));
        fields := fields + [Field.Word(width, v)];
      }
      kinds := kinds + [WordKind(width)];
    }

    /** The bytes of the next string; none when it is not there or claims too much. */
    method TakeString() returns (s: seq<byte>)
      requires offset <= |data|
      modifies this`offset, this`failed
      ensures failed == (old(failed) || !HasString(data[old(offset)..]))
      ensures if failed then s == [] && offset <= |data|
              else s == StringOf(data[old(offset)..]) && offset == old(offset) + 2 + |s|
    {
      var length := Take(2);
      if failed || length > MAX_STRING || Remaining() < length {
        failed := true;
        return [];
      }
      s := data[offset..offset + length];
      assert s == data[old(offset)..][2..2 + length];
      offset := offset + length;
    }

    method String() returns (s: seq<byte>)
      requires Valid()
      modifies this
      ensures Valid() && kinds == old(kinds) + [TextKind] && (old(failed) ==> failed)
      ensures if failed then s == [] else |s| <= MAX_STRING && fields == old(fields) + [Text(s)]
    {
      s := TakeString();
      if failed {
        if !old(failed) { NoString(data[old(offset)..]); }
        Fails(data, old(kinds), fields, old(offset), old(failed), TextKind);
      } else {
        StringStarts(data[old(offset)..]);
        Succeeds(data, old(kinds), fields, old(offset), Text(s));
        fields := fields + [Text(s)];
      }
      kinds := kinds + [TextKind];
    }
  }

  predicate HasString(data: seq<byte>) {
    |data| >= 2 && Number(data[..2]) <= MAX_STRING && |data| - 2 >= Number(data[..2])
  }

  function StringOf(data: seq<byte>): seq<byte>
    requires HasString(data)
  {
    data[2..2 + Number(data[..2])]
  }

  lemma StringStarts(data: seq<byte>)
    requires HasString(data)
    ensures var e := Encode(Text(StringOf(data))); Starts(e, data) && |e| == 2 + |StringOf(data)|
  {
    LittleOfNumber(data[..2]);
    StartsConcat(data[..2], StringOf(data), data);
  }

  /** A string needs two bytes that count it, up to the cap, and then that many. */
  lemma NoString(data: seq<byte>)
    requires !HasString(data)
    ensures forall f :: Proper(f) && KindOf(f) == TextKind ==> !Starts(Encode(f), data)
  {
    forall f | Proper(f) && KindOf(f) == TextKind ensures !Starts(Encode(f), data) {
      if Starts(Encode(f), data) {
        Powers();
        NumberOfLittle(|f.bytes|, 2);
        StartsConcat(Little(|f.bytes|, 2), f.bytes, data);
      }
    }
  }

  // ------------------------------------------------------------------ writing

  /** What is left of a string on the wire. */
  function Cut(s: seq<byte>): seq<byte> { if |s| > MAX_STRING then s[..MAX_STRING] else s }

  /** v shifted right by i bytes. */
  function Shifted(v: nat, i: nat): nat { if i == 0 then v else Shifted(v, i - 1) / 256 }

  method LittleBytes(v: nat, width: nat) returns (bytes: seq<byte>)
    ensures bytes == Little(v, width)
  {
    bytes := [];
    for i := 0 to width
      invariant bytes + Little(Shifted(v, i), width - i) == Little(v, width)
    {
      var b: byte := Shifted(v, i) % 256;
      var rest := Little(Shifted(v, i + 1), width - i - 1);
      assert Little(Shifted(v, i), width - i) == [b] + rest;
      assert bytes + ([b] + rest) == (bytes + [b]) + rest;
      bytes := bytes + [b];
    }
  }

  lemma Written(before: seq<byte>, written: seq<Field>, f: Field)
    ensures (before + EncodeAll(written)) + Encode(f) == before + EncodeAll(written + [f])
  {
  }

  class ByteWriter {
    var buffer: seq<byte>
    ghost var before: seq<byte>
    ghost var written: seq<Field>

    ghost predicate Valid()
      reads this
    {
      AllProper(written) && buffer == before + EncodeAll(written)
    }

    constructor (buffer: seq<byte>)
      ensures Valid() && before == buffer && written == []
    {
      this.buffer, before, written := buffer, buffer, [];
    }

    method Word(width: nat, v: nat)
      requires Valid() && IsWidth(width) && v < Pow256(width)
      modifies this
      ensures Valid() && before == old(before) && written == old(written) + [Field.Word(width, v)]
    {
      var bytes := LittleBytes(v, width);
      Written(before, written, Field.Word(width, v));
      buffer := buffer + bytes;
      written := written + [Field.Word(width, v)];
    }

    /** At most 1024 bytes, with their count in front. */
    method String(v: seq<byte>)
      requires Valid()
      modifies this
      ensures Valid() && before == old(before) && written == old(written) + [Text(Cut(v))]
    {
      var length := if |v| > MAX_STRING then MAX_STRING else |v|;
      Written(before, written, Text(Cut(v)));
      Associate(buffer, Little(length, 2), v[..length]);
      var prefix := LittleBytes(length, 2);
      buffer := buffer + prefix + v[..length];
      written := written + [Text(Cut(v))];
    }
  }
}
