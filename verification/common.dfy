/** Types shared by several models. */
module Common {

  type byte = b: int | 0 <= b < 256

  datatype Option<+T> = None | Some(value: T)

  function Min(a: int, b: int): int {
    if a < b then a else b
  }

  lemma Product(x: real, y: real)
    requires x >= 0.0 && y >= 0.0
    ensures x * y >= 0.0
  {
  }

  lemma PositiveProduct(x: real, y: real)
    requires x > 0.0 && y > 0.0
    ensures x * y > 0.0
  {
  }

  lemma SquareNotNegative(x: real)
    ensures x * x >= 0.0
  {
  }

  lemma SquaresInOrder(n: real, m: real)
    requires 0.0 <= n <= m
    ensures n * n <= m * m
  {
    Product(m - n, m + n);
  }

  lemma Factors(a: real, b: real, c: real, d: real)
    requires 0.0 <= a <= c && 0.0 <= b <= d
    ensures a * b <= c * d
  {
    Product(a, d - b);
    Product(c - a, d);
  }

  lemma Exceeds(t: real, most: real)
    requires t > most >= 0.0
    ensures t * t > most * most
  {
    PositiveProduct(t - most, t + most);
    assert (t - most) * (t + most) == t * t - most * most;
  }

  lemma AtMost(t: real, most: real)
    requires most >= 0.0
    ensures t * t <= most * most ==> -most <= t <= most
  {
    if t > most { Exceeds(t, most); }
    if -t > most { Exceeds(-t, most); }
  }

  function Max(a: int, b: int): int {
    if a > b then a else b
  }

  function Abs(r: real): real { if r < 0.0 then -r else r }

  ghost function Pow2(k: nat): (r: nat)
    ensures r >= 1
  {
    if k == 0 then 1 else 2 * Pow2(k - 1)
  }

  lemma Associate<T>(a: seq<T>, b: seq<T>, c: seq<T>)
    ensures (a + b) + c == a + (b + c)
  {
  }
}

/** Big-endian fields of a font file (the `tt...` accessors). */
module FontBytes {
  import opened Common

  type int16 = x: int | -0x8000 <= x < 0x8000

  predicate Bit(flags: byte, mask: nat)
    requires mask > 0
  {
    flags / mask % 2 == 1
  }

  function U16(d: seq<byte>, p: nat): (r: nat)
    requires p + 2 <= |d|
    ensures r < 0x10000
  {
    d[p] as int * 256 + d[p + 1] as int
  }

  function U32(d: seq<byte>, p: nat): (r: nat)
    requires p + 4 <= |d|
    ensures r < 0x1_0000_0000
  {
    U16(d, p) * 0x10000 + U16(d, p + 2)
  }

  /** The text stands at position p. */
  ghost predicate Stands(d: seq<byte>, p: nat, text: seq<byte>) {
    p + |text| <= |d| && d[p..p + |text|] == text
  }

  lemma StandsSplit(d: seq<byte>, p: nat, a: seq<byte>, b: seq<byte>)
    requires Stands(d, p, a + b)
    ensures Stands(d, p, a) && Stands(d, p + |a|, b)
  {
    assert d[p..p + |a + b|][..|a|] == a && d[p..p + |a + b|][|a|..] == b;
  }

  /** A number of 16 bits, high byte first. */
  function WordBytes(w: nat): seq<byte>
    requires w < 0x10000
  {
    [w / 256, w % 256]
  }

  predicate AreWords(ws: seq<nat>) { forall k :: 0 <= k < |ws| ==> ws[k] < 0x10000 }

  function Words(ws: seq<nat>): (d: seq<byte>)
    requires AreWords(ws)
    ensures |d| == 2 * |ws|
  {
    if ws == [] then [] else WordBytes(ws[0]) + Words(ws[1..])
  }

  lemma OneWord(d: seq<byte>, p: nat, w: nat)
    requires w < 0x10000 && Stands(d, p, WordBytes(w))
    ensures U16(d, p) == w
  {
    assert d[p] == d[p..p + 2][0] && d[p + 1] == d[p..p + 2][1];
  }

  lemma {:induction false} WordAt(d: seq<byte>, p: nat, ws: seq<nat>, k: nat)
    requires AreWords(ws) && Stands(d, p, Words(ws)) && k < |ws|
    ensures p + 2 * k + 2 <= |d| && U16(d, p + 2 * k) == ws[k]
    decreases k
  {
    StandsSplit(d, p, WordBytes(ws[0]), Words(ws[1..]));
    if k == 0 { OneWord(d, p, ws[0]); } else { WordAt(d, p + 2, ws[1..], k - 1); }
  }

  /** The words from position p on, read one by one. */
  ghost predicate HasWords(d: seq<byte>, p: nat, ws: seq<nat>) {
    p + 2 * |ws| <= |d| && forall k :: 0 <= k < |ws| ==> WordIs(d, p, k, ws[k])
  }

  ghost predicate WordIs(d: seq<byte>, p: nat, k: nat, w: nat) { p + 2 * k + 2 <= |d| && U16(d, p + 2 * k) == w }

  lemma WordsAreThere(d: seq<byte>, p: nat, ws: seq<nat>)
    requires AreWords(ws) && Stands(d, p, Words(ws))
    ensures HasWords(d, p, ws)
  {
    forall k | 0 <= k < |ws| ensures WordIs(d, p, k, ws[k]) { WordAt(d, p, ws, k); }
  }

  lemma ReadWord(d: seq<byte>, p: nat, ws: seq<nat>, k: nat, q: nat)
    requires HasWords(d, p, ws) && k < |ws| && q == p + 2 * k
    ensures q + 2 <= |d| && U16(d, q) == ws[k]
  {
    assert WordIs(d, p, k, ws[k]);
  }

  lemma StandsThree(d: seq<byte>, p: nat, a: seq<byte>, b: seq<byte>, c: seq<byte>) returns (q: nat, r: nat)
    requires Stands(d, p, a + (b + c))
    ensures q == p + |a| && r == q + |b| && Stands(d, p, a) && Stands(d, q, b) && Stands(d, r, c)
  {
    q, r := p + |a|, p + |a| + |b|;
    StandsSplit(d, p, a, b + c);
    StandsSplit(d, q, b, c);
  }

  lemma StandsSix(d: seq<byte>, p: nat, a: seq<byte>, b: seq<byte>, c: seq<byte>, e: seq<byte>, f: seq<byte>, g: seq<byte>)
    requires Stands(d, p, a + (b + (c + (e + (f + g)))))
    ensures Stands(d, p, a) && Stands(d, p + |a|, b) && Stands(d, p + |a| + |b|, c)
    ensures Stands(d, p + |a| + |b| + |c|, e) && Stands(d, p + |a| + |b| + |c| + |e|, f)
    ensures Stands(d, p + |a| + |b| + |c| + |e| + |f|, g)
  {
    StandsSplit(d, p, a, b + (c + (e + (f + g))));
    StandsSplit(d, p + |a|, b, c + (e + (f + g)));
    StandsSplit(d, p + |a| + |b|, c, e + (f + g));
    StandsSplit(d, p + |a| + |b| + |c|, e, f + g);
    StandsSplit(d, p + |a| + |b| + |c| + |e|, f, g);
  }

  /** Two's-complement truncation to 16 bits, as the `(stbtt_int16)` casts do. */
  function Int16(v: int): int16 {
    (v + 0x8000) % 0x10000 - 0x8000
  }

  function Int32(v: int): int {
    (v + 0x8000_0000) % 0x1_0000_0000 - 0x8000_0000
  }
}
