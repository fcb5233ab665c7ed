/**
 Character encodings: UTF-8 (sections 3 and 4 of RFC 3629), UTF-16 (sections 2.1,
 2.2 and 3.2 of RFC 2781), Latin-1, windows-1252 and US-ASCII, with byte-order marks
 and replacement of undecodable input, and the texts each one round-trips.
 */
module Charset {
  import opened Names

  type Byte = b: int | 0 <= b < 256

  predicate IsScalar(c: int) {
    0 <= c < 0xD800 || 0xE000 <= c < 0x11_0000
  }

  /** A Unicode scalar value. */
  type Char = c: int | 0 <= c < 0xD800 || 0xE000 <= c < 0x11_0000

  type Text = seq<Char>

  const REPLACEMENT: Char := 0xFFFD

  datatype Encoding = Utf8 | Utf16Bom | Utf16Be | Utf16Le | Latin1 | Cp1252 | UsAscii

  // ---- UTF-8 ----

  predicate Cont(b: Byte) { 0x80 <= b <= 0xBF }

  /** Whether `b` may follow the lead byte `lead` of a longer sequence. */
  predicate Second(lead: Byte, b: Byte) {
    if lead == 0xE0 then 0xA0 <= b <= 0xBF
    else if lead == 0xED then 0x80 <= b <= 0x9F
    else if lead == 0xF0 then 0x90 <= b <= 0xBF
    else if lead == 0xF4 then 0x80 <= b <= 0x8F
    else Cont(b)
  }

  /** The length a lead byte announces, or 0. */
  function Width(lead: Byte): nat {
    if lead < 0x80 then 1
    else if 0xC2 <= lead <= 0xDF then 2
    else if 0xE0 <= lead <= 0xEF then 3
    else if 0xF0 <= lead <= 0xF4 then 4
    else 0
  }

  /** The first piece of a byte string: a character, a malformed subpart, or a cut-off character. */
  datatype Piece = Whole(c: Char, n: nat) | Malformed(n: nat) | CutOff

  /** The code point of a two-, three- or four-byte sequence. */
  function Join2(a: int, b: int): int { (a - 0xC0) * 64 + (b - 0x80) }

  function Join3(a: int, b: int, c: int): int { (a - 0xE0) * 4096 + (b - 0x80) * 64 + (c - 0x80) }

  function Join4(a: int, b: int, c: int, d: int): int {
    (a - 0xF0) * 262144 + (b - 0x80) * 4096 + (c - 0x80) * 64 + (d - 0x80)
  }

  function Scan(s: seq<Byte>): (p: Piece)
    requires s != []
    ensures p.Whole? ==> 1 <= p.n <= |s| && p.n <= 4
    ensures p.Malformed? ==> 1 <= p.n <= |s| && p.n <= 3
    ensures p.CutOff? ==> |s| <= 3
  {
    var w := Width(s[0]);
    if w == 0 then Malformed(1)
    else if w == 1 then Whole(s[0], 1)
    else if |s| == 1 then CutOff
    else if !Second(s[0], s[1]) then Malformed(1)
    else if w == 2 then Whole(Join2(s[0], s[1]), 2)
    else if |s| == 2 then CutOff
    else if !Cont(s[2]) then Malformed(2)
    else if w == 3 then Whole(Join3(s[0], s[1], s[2]), 3)
    else if |s| == 3 then CutOff
    else if !Cont(s[3]) then Malformed(3)
    else Whole(Join4(s[0], s[1], s[2], s[3]), 4)
  }

  /** `from_utf8_lossy`: one replacement character per malformed subpart. */
  function Lossy(s: seq<Byte>): Text {
    if s == [] then [] else
    match Scan(s)
    case Whole(c, n) => [c] + Lossy(s[n..])
    case Malformed(n) => [REPLACEMENT] + Lossy(s[n..])
    case CutOff => [REPLACEMENT]
  }

  function Utf8Char(c: Char): (r: seq<Byte>)
    ensures 1 <= |r| <= 4
  {
    var n: int := c;
    var x: Byte := 0x80 + n % 64;
    var y: Byte := 0x80 + n / 64 % 64;
    var z: Byte := 0x80 + n / 4096 % 64;
    if n < 0x80 then [n]
    else if n < 0x800 then var a: Byte := 0xC0 + n / 64; [a, x]
    else if n < 0x10000 then var a: Byte := 0xE0 + n / 4096; [a, y, x]
    else var a: Byte := 0xF0 + n / 262144; [a, z, y, x]
  }

  function Utf8Bytes(t: Text): seq<Byte> {
    if t == [] then [] else Utf8Char(t[0]) + Utf8Bytes(t[1..])
  }

  lemma {:induction false} ScanShort(c: Char, rest: seq<Byte>)
    requires c < 0x800
    ensures Scan(Utf8Char(c) + rest) == Whole(c, |Utf8Char(c)|)
  {
  }

  lemma {:induction false} ScanThree(c: Char, rest: seq<Byte>)
    requires 0x800 <= c < 0x10000
    ensures Scan(Utf8Char(c) + rest) == Whole(c, 3)
  {
    var n: int := c;
    var a, b, d := n / 4096, n / 64 % 64, n % 64;
    assert n == a * 4096 + b * 64 + d;
    assert a == 0 ==> b >= 32;
    assert a == 13 ==> b < 32;
    var s := Utf8Char(c) + rest;
    assert s[0] == 0xE0 + a && s[1] == 0x80 + b && s[2] == 0x80 + d;
  }

  /** The four groups of bits of a large code point. */
  lemma {:induction false} FourParts(n: int)
    requires 0x10000 <= n < 0x11_0000
    ensures var a, b, d, e := n / 262144, n / 4096 % 64, n / 64 % 64, n % 64;
            && n == a * 262144 + b * 4096 + d * 64 + e
            && 0 <= a <= 4 && (a == 0 ==> b >= 16) && (a == 4 ==> b < 16)
  {
  }

  lemma {:induction false} ScanFour(c: Char, rest: seq<Byte>)
    requires 0x10000 <= c
    ensures Scan(Utf8Char(c) + rest) == Whole(c, 4)
  {
    var n: int := c;
    FourParts(n);
    var a, b, d, e := n / 262144, n / 4096 % 64, n / 64 % 64, n % 64;
    var s := Utf8Char(c) + rest;
    assert s[0] == 0xF0 + a && s[1] == 0x80 + b && s[2] == 0x80 + d && s[3] == 0x80 + e;
  }

  lemma {:induction false} ScanEncoded(c: Char, rest: seq<Byte>)
    ensures Scan(Utf8Char(c) + rest) == Whole(c, |Utf8Char(c)|)
  {
    if c < 0x800 {
      ScanShort(c, rest);
    } else if c < 0x10000 {
      ScanThree(c, rest);
    } else {
      ScanFour(c, rest);
    }
  }

  lemma {:induction false} Utf8RoundTrip(t: Text)
    ensures Lossy(Utf8Bytes(t)) == t
    decreases |t|
  {
    hide Scan;
    if t != [] {
      var s := Utf8Bytes(t);
      ScanEncoded(t[0], Utf8Bytes(t[1..]));
      assert s[|Utf8Char(t[0])|..] == Utf8Bytes(t[1..]);
      Utf8RoundTrip(t[1..]);
    }
  }

  // ---- UTF-16 ----

  predicate High(u: int) { 0xD800 <= u < 0xDC00 }
  predicate Low(u: int) { 0xDC00 <= u < 0xE000 }

  type Unit = u: int | 0 <= u < 0x10000

  function UnitsOf(c: Char): (r: seq<Unit>)
    ensures r != []
  {
    var n: int := c;
    if n < 0x10000 then [n]
    else
      var hi: Unit := 0xD800 + (n - 0x10000) / 1024;
      var lo: Unit := 0xDC00 + (n - 0x10000) % 1024;
      [hi, lo]
  }

  function Units(t: Text): seq<Unit> {
    if t == [] then [] else UnitsOf(t[0]) + Units(t[1..])
  }

  function Pair(hi: int, lo: int): (c: int)
    ensures High(hi) && Low(lo) ==> 0x10000 <= c < 0x11_0000
  {
    0x10000 + (hi - 0xD800) * 1024 + (lo - 0xDC00)
  }

  /** `from_utf16_lossy`: an unpaired surrogate becomes a replacement character. */
  function FromUnits(us: seq<Unit>): Text {
    if us == [] then []
    else if High(us[0]) && |us| > 1 && Low(us[1]) then
      [Pair(us[0], us[1])] + FromUnits(us[2..])
    else [if IsScalar(us[0]) then us[0] else REPLACEMENT] + FromUnits(us[1..])
  }

  lemma {:induction false} UnitsRoundTrip(t: Text)
    ensures FromUnits(Units(t)) == t
    decreases |t|
  {
    if t != [] {
      var us := Units(t);
      UnitsRoundTrip(t[1..]);
      assert us[|UnitsOf(t[0])|..] == Units(t[1..]);
      if t[0] >= 0x10000 {
        var d: int := t[0] as int - 0x10000;
        assert d == d / 1024 * 1024 + d % 1024;
      }
    }
  }

  function UnitBytes(u: Unit, big: bool): seq<Byte> {
    var n: int := u;
    var hi: Byte, lo: Byte := n / 256, n % 256;
    if big then [hi, lo] else [lo, hi]
  }

  function PackUnits(us: seq<Unit>, big: bool): seq<Byte> {
    if us == [] then [] else UnitBytes(us[0], big) + PackUnits(us[1..], big)
  }

  function UnitFrom(hi: int, lo: int): int { hi * 256 + lo }

  /** Two bytes to a unit; a trailing odd byte becomes the unit of a replacement character. */
  function UnpackUnits(s: seq<Byte>, big: bool): seq<Unit> {
    if s == [] then []
    else if |s| == 1 then [0xFFFD]
    else [if big then UnitFrom(s[0], s[1]) else UnitFrom(s[1], s[0])] + UnpackUnits(s[2..], big)
  }

  lemma {:induction false} PackRoundTrip(us: seq<Unit>, big: bool)
    ensures UnpackUnits(PackUnits(us, big), big) == us
    decreases |us|
  {
    if us != [] {
      var s := PackUnits(us, big);
      assert s[2..] == PackUnits(us[1..], big);
      assert us[0] == us[0] / 256 * 256 + us[0] % 256;
      PackRoundTrip(us[1..], big);
    }
  }

  function DecodeUtf16(s: seq<Byte>, big: bool): Text {
    FromUnits(UnpackUnits(s, big))
  }

  /** `encode_utf16`. */
  method EncodeUtf16(t: Text, big: bool) returns (out: seq<Byte>)
    ensures out == PackUnits(Units(t), big)
    ensures DecodeUtf16(out, big) == t
  {
    out := [];
    var us := Units(t);
    var i := 0;
    assert us[0..] == us;
    while i < |us|
      invariant 0 <= i <= |us|
      invariant out + PackUnits(us[i..], big) == PackUnits(us, big)
    {
      var u: int := us[i];
      var hi: Byte, lo: Byte := u / 256, u % 256;
      assert us[i..][1..] == us[i + 1..];
      ghost var was := out;
      if big {
        out := out + [hi];
        out := out + [lo];
      } else {
        out := out + [lo];
        out := out + [hi];
      }
      assert was + PackUnits(us[i..], big) == was + UnitBytes(us[i], big) + PackUnits(us[i + 1..], big);
      assert out == was + UnitBytes(us[i], big);
      i := i + 1;
    }
    assert us[i..] == [];
    PackRoundTrip(us, big);
    UnitsRoundTrip(t);
  }

  // ---- Single-byte encodings ----

  const CP1252_HIGH: seq<Char> := [
    0x20AC, 0xFFFD, 0x201A, 0x0192, 0x201E, 0x2026, 0x2020, 0x2021, 0x02C6, 0x2030, 0x0160, 0x2039, 0x0152, 0xFFFD, 0x017D, 0xFFFD,
    0xFFFD, 0x2018, 0x2019, 0x201C, 0x201D, 0x2022, 0x2013, 0x2014, 0x02DC, 0x2122, 0x0161, 0x203A, 0x0153, 0xFFFD, 0x017E, 0x0178]

  function Position(table: seq<Char>, c: Char): (r: Option<nat>)
    ensures r.Some? ==> r.value < |table| && table[r.value] == c
    ensures r.None? ==> c !in table
  {
    if table == [] then None
    else if table[0] == c then Some(0)
    else match Position(table[1..], c)
      case Some(i) => Some(i + 1)
      case None => None
  }

  const QUESTION: Byte := 0x3F

  function SingleByte(c: Char, cs: Encoding): Byte {
    match cs
    case Latin1 => if c <= 0xFF then c else QUESTION
    case UsAscii => if c <= 0x7F then c else QUESTION
    case _ => TableByte(CP1252_HIGH, c)
  }

  /** windows-1252: Latin-1 except for the block 0x80 to 0x9F, which a table of 32 characters gives. */
  function TableByte(high: seq<Char>, c: Char): Byte
    requires |high| == 32
  {
    if c <= 0x7F || 0xA0 <= c <= 0xFF then c
    else if c == REPLACEMENT then QUESTION
    else match Position(high, c)
      case Some(i) => var b: int := 0x80 + i; b
      case None => QUESTION
  }

  function TableChar(high: seq<Char>, b: Byte): Char
    requires |high| == 32
  {
    if 0x80 <= b <= 0x9F then high[b as int - 0x80] else b
  }

  lemma {:induction false} TableRoundTrip(high: seq<Char>, c: Char)
    requires |high| == 32
    ensures TableChar(high, TableByte(high, c)) == c <==>
            c <= 0x7F || 0xA0 <= c <= 0xFF || (c in high && c != REPLACEMENT)
  {
  }

  function SingleChar(b: Byte, cs: Encoding): Char {
    match cs
    case Latin1 => b
    case UsAscii => if b <= 0x7F then b else REPLACEMENT
    case _ => TableChar(CP1252_HIGH, b)
  }

  predicate Single(cs: Encoding) { cs.Latin1? || cs.Cp1252? || cs.UsAscii? }

  /** The characters a single-byte encoding has a code for. */
  predicate Representable(c: Char, cs: Encoding) {
    match cs
    case Latin1 => c <= 0xFF
    case UsAscii => c <= 0x7F
    case _ => c <= 0x7F || 0xA0 <= c <= 0xFF || (c in CP1252_HIGH && c != REPLACEMENT)
  }

  lemma {:induction false} SingleRoundTrip(c: Char, cs: Encoding)
    requires Single(cs)
    ensures SingleChar(SingleByte(c, cs), cs) == c <==> Representable(c, cs)
  {
    hide TableByte, TableChar;
    if cs.Cp1252? {
      TableRoundTrip(CP1252_HIGH, c);
    }
  }

  // ---- Encoding and decoding ----

  function MapBytes(t: Text, cs: Encoding): (r: seq<Byte>)
    ensures |r| == |t|
  {
    seq(|t|, i requires 0 <= i < |t| => SingleByte(t[i], cs))
  }

  function MapChars(s: seq<Byte>, cs: Encoding): (r: Text)
    ensures |r| == |s|
  {
    seq(|s|, i requires 0 <= i < |s| => SingleChar(s[i], cs))
  }

  function Encode(t: Text, cs: Encoding): seq<Byte> {
    match cs
    case Utf8 => Utf8Bytes(t)
    case Utf16Bom => [0xFE, 0xFF] + PackUnits(Units(t), true)
    case Utf16Be => PackUnits(Units(t), true)
    case Utf16Le => PackUnits(Units(t), false)
    case _ => MapBytes(t, cs)
  }

  datatype Mark = Mark(cs: Encoding, skip: nat) | NoMark

  /** The encoding a leading byte-order mark declares, and its length. */
  function SniffBom(s: seq<Byte>): (m: Mark)
    ensures m.Mark? ==> m.skip <= |s| && (m.cs.Utf8? || m.cs.Utf16Be? || m.cs.Utf16Le?)
  {
    if |s| >= 3 && s[0] == 0xEF && s[1] == 0xBB && s[2] == 0xBF then Mark(Utf8, 3)
    else if |s| >= 2 && s[0] == 0xFE && s[1] == 0xFF then Mark(Utf16Be, 2)
    else if |s| >= 2 && s[0] == 0xFF && s[1] == 0xFE then Mark(Utf16Le, 2)
    else NoMark
  }

  /** `decode` without the search for a mark. */
  function DecodeAs(s: seq<Byte>, cs: Encoding): Text {
    match cs
    case Utf8 => Lossy(s)
    case Utf16Bom => DecodeUtf16(s, true)
    case Utf16Be => DecodeUtf16(s, true)
    case Utf16Le => DecodeUtf16(s, false)
    case _ => MapChars(s, cs)
  }

  /** A byte-order mark wins over the requested encoding, except for the single-byte ones. */
  function Decode(s: seq<Byte>, cs: Encoding): Text {
    if Single(cs) then DecodeAs(s, cs)
    else match SniffBom(s)
      case Mark(cs', skip) => DecodeAs(s[skip..], cs')
      case NoMark => DecodeAs(s, cs)
  }

  // ---- Round trips ----

  lemma {:induction false} DecodeAsEncode(t: Text, cs: Encoding)
    requires !Single(cs) && !cs.Utf16Bom?
    ensures DecodeAs(Encode(t, cs), cs) == t
  {
    hide Lossy, Utf8Bytes, PackUnits, UnpackUnits, Units, FromUnits;
    match cs {
      case Utf8 => Utf8RoundTrip(t);
      case Utf16Be =>
        PackRoundTrip(Units(t), true);
        UnitsRoundTrip(t);
      case Utf16Le =>
        PackRoundTrip(Units(t), false);
        UnitsRoundTrip(t);
    }
  }

  /** Every text survives UTF-16 with a mark. */
  lemma {:induction false} MarkedRoundTrip(t: Text)
    ensures Decode(Encode(t, Utf16Bom), Utf16Bom) == t
  {
    hide PackUnits, UnpackUnits, Units, FromUnits;
    var s := Encode(t, Utf16Bom);
    assert SniffBom(s) == Mark(Utf16Be, 2);
    assert s[2..] == Encode(t, Utf16Be);
    DecodeAsEncode(t, Utf16Be);
  }

  /** Whether the first units come out as the bytes of one of the three marks. */
  predicate LooksMarked(us: seq<Unit>, big: bool) {
    us != [] && (|| us[0] == 0xFEFF || us[0] == 0xFFFE
                 || (us[0] == (if big then 0xEFBB else 0xBBEF)
                     && |us| > 1 && (if big then us[1] as int / 256 else us[1] as int % 256) == 0xBF))
  }

  lemma {:induction false} FirstUnits(us: seq<Unit>, big: bool)
    ensures |PackUnits(us, big)| == 2 * |us|
    ensures us != [] ==> PackUnits(us, big)[..2] == UnitBytes(us[0], big) && PackUnits(us, big)[2..] == PackUnits(us[1..], big)
  {
    if us != [] {
      FirstUnits(us[1..], big);
    }
  }

  lemma {:induction false} MarkSeen(us: seq<Unit>, big: bool)
    ensures SniffBom(PackUnits(us, big)).Mark? <==> LooksMarked(us, big)
  {
    hide PackUnits;
    FirstUnits(us, big);
    var s := PackUnits(us, big);
    if us != [] {
      var n: int := us[0];
      assert n == n / 256 * 256 + n % 256;
      assert s[0] == s[..2][0] && s[1] == s[..2][1];
      if |us| > 1 {
        FirstUnits(us[1..], big);
        assert s[2] == s[2..][..2][0];
      }
    }
  }

  lemma {:induction false} UnfoldFromUnits(us: seq<Unit>)
    requires us != []
    ensures var n := if High(us[0]) && |us| > 1 && Low(us[1]) then 2 else 1;
            FromUnits(us) != [] && FromUnits(us)[1..] == FromUnits(us[n..]) && |UnitsOf(FromUnits(us)[0])| == n
  {
  }

  /** Replacement keeps the number of units. */
  lemma {:induction false} UnitsKept(us: seq<Unit>)
    ensures |Units(FromUnits(us))| == |us|
    decreases |us|
  {
    hide FromUnits, UnitsOf, High, Low;
    if us == [] {
      assert FromUnits(us) == [] by { NoFromUnits(); }
    } else {
      UnfoldFromUnits(us);
      var n := if High(us[0]) && |us| > 1 && Low(us[1]) then 2 else 1;
      UnitsKept(us[n..]);
    }
  }

  lemma {:induction false} NoFromUnits()
    ensures FromUnits([]) == []
  {
  }

  lemma {:induction false} UnpackLength(s: seq<Byte>, big: bool)
    ensures |UnpackUnits(s, big)| == (|s| + 1) / 2
    decreases |s|
  {
    if |s| > 1 {
      UnpackLength(s[2..], big);
    }
  }

  /** Bytes that three-byte sequences from U+8000 up are made of. */
  predicate Heavy(b: Byte) { 0x80 <= b <= 0xBF || 0xE8 <= b <= 0xEF }

  lemma {:induction false} HeavyChar(c: Char)
    requires 0x8000 <= c < 0x10000
    ensures |Utf8Char(c)| == 3 && forall b :: b in Utf8Char(c) ==> Heavy(b)
  {
  }

  /** The digits of a number in base 64. */
  lemma {:induction false} Digits(p: int, q: int, r: int)
    requires 0 <= q < 64 && 0 <= r < 64
    ensures var n := p * 4096 + q * 64 + r; n / 4096 == p && n / 64 % 64 == q && n % 64 == r
  {
    var n := p * 4096 + q * 64 + r;
    var m := p * 64 + q;
    assert n == m * 64 + r;
    assert n / 64 == m && n % 64 == r;
    assert m / 64 == p && m % 64 == q;
    assert n == p * 4096 + (q * 64 + r) && 0 <= q * 64 + r < 4096;
  }

  lemma {:induction false} JoinThree(a: Byte, b: Byte, d: Byte)
    requires 0xE0 <= a <= 0xEF && Cont(b) && Cont(d) && IsScalar(Join3(a, b, d)) && Join3(a, b, d) >= 0x8000
    ensures Utf8Char(Join3(a, b, d)) == [a, b, d]
  {
    var p: int, q: int, r: int := a as int - 0xE0, b as int - 0x80, d as int - 0x80;
    var n: Char := Join3(a, b, d);
    assert n == p * 4096 + q * 64 + r && n < 0x10000;
    hide Join3;
    Digits(p, q, r);
    ThreeBytes(n);
  }

  lemma {:induction false} ThreeBytes(c: Char)
    requires 0x800 <= c < 0x10000
    ensures Utf8Char(c) == [0xE0 + c / 4096, 0x80 + c / 64 % 64, 0x80 + c % 64]
  {
  }

  lemma {:induction false} UnfoldLossy(s: seq<Byte>)
    ensures s == [] ==> Lossy(s) == []
    ensures s != [] && Scan(s).Whole? ==> Lossy(s) == [Scan(s).c] + Lossy(s[Scan(s).n..])
    ensures s != [] && !Scan(s).Whole? ==> Lossy(s) != [] && Lossy(s)[0] == REPLACEMENT
  {
    hide Scan;
  }

  /** A large character in lossily decoded text stands for its own three bytes. */
  lemma {:induction false} LossyFirst(s: seq<Byte>)
    requires Lossy(s) != [] && 0x8000 <= Lossy(s)[0] < 0xFFFD
    ensures |s| >= 3 && s[..3] == Utf8Char(Lossy(s)[0]) && Lossy(s)[1..] == Lossy(s[3..])
  {
    hide Scan, Lossy, Utf8Char, Join3, Cont;
    UnfoldLossy(s);
    LargeIsThree(s);
    JoinThree(s[0], s[1], s[2]);
  }

  lemma {:induction false} LargeIsThree(s: seq<Byte>)
    requires s != [] && Scan(s).Whole? && 0x8000 <= Scan(s).c < 0x10000
    ensures |s| >= 3 && 0xE0 <= s[0] <= 0xEF && Cont(s[1]) && Cont(s[2])
    ensures Scan(s) == Whole(Join3(s[0], s[1], s[2]), 3)
  {
  }

  lemma {:induction false} HeavyUnit(t: Text, big: bool)
    requires t != [] && PackUnits(Units(t), big) != []
    requires |PackUnits(Units(t), big)| >= 2 && Heavy(PackUnits(Units(t), big)[0]) && Heavy(PackUnits(Units(t), big)[1])
    ensures 0x8000 <= t[0] < 0xFFFD && PackUnits(Units(t), big)[2..] == PackUnits(Units(t[1..]), big)
  {
    hide PackUnits;
    var us := Units(t);
    FirstUnits(us, big);
    var s := PackUnits(us, big);
    assert s[0] == s[..2][0] && s[1] == s[..2][1];
    var u: int := us[0];
    assert u == u / 256 * 256 + u % 256;
    assert us == UnitsOf(t[0]) + Units(t[1..]);
    assert us[1..] == Units(t[1..]);
  }

  /**
   UTF-16 bytes that begin with three heavy bytes are never the UTF-8 form of the same
   text after them: every character they spell needs three bytes of the one for two of
   the other, and those bytes are heavy again.
   */
  lemma {:induction false} NeverBoth(t: Text, big: bool, pre: seq<Byte>, rest: seq<Byte>)
    requires |pre| >= 3 && (forall b :: b in pre ==> Heavy(b)) && PackUnits(Units(t), big) == pre + rest
    ensures Lossy(rest) != t
    decreases |rest|
  {
    hide PackUnits, Units, Lossy, Utf8Char, Heavy;
    var s := pre + rest;
    assert t != [] by { NothingPacked(big); }
    assert s[0] == pre[0] && s[1] == pre[1];
    HeavyUnit(t, big);
    if Lossy(rest) == t {
      LossyFirst(rest);
      HeavyChar(t[0]);
      var pre', rest' := pre[2..] + rest[..3], rest[3..];
      assert s[2..] == pre' + rest';
      NeverBoth(t[1..], big, pre', rest');
      assert false;
    }
  }

  lemma {:induction false} NothingPacked(big: bool)
    ensures PackUnits(Units([]), big) == []
  {
  }

  lemma {:induction false} MarkedIsShorter(t: Text, s: seq<Byte>, big: bool)
    requires |s| == 2 * |Units(t)| && |s| >= 2
    ensures DecodeUtf16(s[2..], big) != t
  {
    hide Units, FromUnits, UnpackUnits;
    UnpackLength(s[2..], big);
    UnitsKept(UnpackUnits(s[2..], big));
  }

  /** Unmarked UTF-16 returns exactly the texts whose first units do not come out as a mark. */
  lemma {:induction false} Utf16RoundTripExact(t: Text, big: bool)
    ensures var cs := if big then Utf16Be else Utf16Le;
            Decode(Encode(t, cs), cs) == t <==> !LooksMarked(Units(t), big)
  {
    hide PackUnits, Units, Lossy, DecodeUtf16, LooksMarked;
    var cs := if big then Utf16Be else Utf16Le;
    DecodeAsEncode(t, cs);
    MarkSeen(Units(t), big);
    FirstUnits(Units(t), big);
    var s := Encode(t, cs);
    match SniffBom(s) {
      case NoMark =>
      case Mark(cs', skip) =>
        if cs'.Utf8? {
          assert s == s[..3] + s[3..];
          NeverBoth(t, big, s[..3], s[3..]);
        } else {
          MarkedIsShorter(t, s, cs'.Utf16Be?);
        }
    }
  }

  /** For UTF-8 that is exactly every text that does not begin with U+FEFF. */
  lemma {:induction false} Utf8RoundTripExact(t: Text)
    ensures Decode(Encode(t, Utf8), Utf8) == t <==> !(t != [] && t[0] == 0xFEFF)
  {
    hide Lossy, Scan;
    var s := Utf8Bytes(t);
    Utf8RoundTrip(t);
    if t != [] {
      assert s[..|Utf8Char(t[0])|] == Utf8Char(t[0]);
      FirstBytes(t[0], Utf8Bytes(t[1..]));
      if t[0] == 0xFEFF {
        assert s[3..] == Utf8Bytes(t[1..]);
        Utf8RoundTrip(t[1..]);
        assert Decode(s, Utf8) == t[1..] && |t[1..]| != |t|;
      }
    }
  }

  lemma {:induction false} FirstBytes(c: Char, rest: seq<Byte>)
    ensures SniffBom(Utf8Char(c) + rest) == if c == 0xFEFF then Mark(Utf8, 3) else NoMark
  {
    var s := Utf8Char(c) + rest;
    if 0x800 <= c < 0x10000 {
      assert c == c / 4096 * 4096 + c / 64 % 64 * 64 + c % 64;
    }
  }

  /** Single-byte encodings return exactly the texts made of characters they have. */
  lemma {:induction false} SingleByteRoundTrip(t: Text, cs: Encoding)
    requires Single(cs)
    ensures Decode(Encode(t, cs), cs) == t <==> forall i :: 0 <= i < |t| ==> Representable(t[i], cs)
  {
    hide SingleByte, SingleChar, Representable;
    var r := Decode(Encode(t, cs), cs);
    forall i | 0 <= i < |t|
      ensures r[i] == t[i] <==> Representable(t[i], cs)
    {
      SingleRoundTrip(t[i], cs);
    }
  }
}
