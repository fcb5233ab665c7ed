/**
 The encodings byte by byte: what each character becomes, which byte strings begin a
 character, and what undecodable input is replaced by. The tables of RFC 3629 (section 3),
 RFC 2781 (section 2.1) and windows-1252, stated without the functions that compute them.
 */
module CharsetBytes {
  import opened Charset

  // ---- UTF-16 ----

  /** A character is one unit, its own number, or two that carry ten bits each of what is above 0xFFFF. */
  lemma {:induction false} UnitsAre(c: Char)
    ensures c < 0x10000 ==> Units([c]) == [c]
    ensures c >= 0x10000 ==>
            exists hi, lo :: Units([c]) == [hi, lo] && 0xD800 <= hi <= 0xDBFF && 0xDC00 <= lo <= 0xDFFF
                             && c as int - 0x10000 == (hi as int - 0xD800) * 0x400 + (lo as int - 0xDC00)
  {
    assert [c][1..] == [] && Units([]) == [];
    assert Units([c]) == UnitsOf(c);
    if c >= 0x10000 {
      var d: int := c as int - 0x10000;
      assert d == d / 1024 * 1024 + d % 1024;
      var hi: Unit, lo: Unit := 0xD800 + d / 1024, 0xDC00 + d % 1024;
      assert Units([c]) == [hi, lo];
    }
  }

  lemma {:induction false} UnitsAppend(a: Text, b: Text)
    ensures Units(a + b) == Units(a) + Units(b)
    decreases |a|
  {
    hide UnitsOf;
    if a == [] {
      assert a + b == b;
    } else {
      assert (a + b)[1..] == a[1..] + b && (a + b)[0] == a[0];
      UnitsAppend(a[1..], b);
    }
  }

  lemma {:induction false} PackedAt(us: seq<Unit>, big: bool, k: nat)
    requires k < |us|
    ensures |PackUnits(us, big)| == 2 * |us|
    ensures var s := PackUnits(us, big);
            if big then s[2 * k] == us[k] as int / 256 && s[2 * k + 1] == us[k] as int % 256
            else s[2 * k] == us[k] as int % 256 && s[2 * k + 1] == us[k] as int / 256
    decreases |us|
  {
    FirstUnits(us, big);
    var s := PackUnits(us, big);
    if k == 0 {
      assert s[0] == s[..2][0] && s[1] == s[..2][1];
    } else {
      PackedAt(us[1..], big, k - 1);
      assert s[2..][2 * (k - 1)] == s[2 * k] && s[2..][2 * (k - 1) + 1] == s[2 * k + 1];
    }
  }

  /** `utf-16` is FE FF and then every unit, high byte first; the unmarked forms are the units in their order. */
  lemma {:induction false} Utf16Bytes(t: Text)
    ensures var us := Units(t);
            var s := Encode(t, Utf16Bom);
            && |s| == 2 + 2 * |us| && s[0] == 0xFE && s[1] == 0xFF
            && forall k :: 0 <= k < |us| ==> s[2 + 2 * k] == us[k] as int / 256 && s[3 + 2 * k] == us[k] as int % 256
    ensures var us := Units(t);
            var s := Encode(t, Utf16Be);
            && |s| == 2 * |us|
            && forall k :: 0 <= k < |us| ==> s[2 * k] == us[k] as int / 256 && s[1 + 2 * k] == us[k] as int % 256
    ensures var us := Units(t);
            var s := Encode(t, Utf16Le);
            && |s| == 2 * |us|
            && forall k :: 0 <= k < |us| ==> s[2 * k] == us[k] as int % 256 && s[1 + 2 * k] == us[k] as int / 256
  {
    hide Units, PackUnits;
    var us := Units(t);
    FirstUnits(us, true);
    FirstUnits(us, false);
    forall k | 0 <= k < |us|
      ensures var s := PackUnits(us, true); s[2 * k] == us[k] as int / 256 && s[1 + 2 * k] == us[k] as int % 256
      ensures var s := PackUnits(us, false); s[2 * k] == us[k] as int % 256 && s[1 + 2 * k] == us[k] as int / 256
    {
      PackedAt(us, true, k);
      PackedAt(us, false, k);
    }
    var s := Encode(t, Utf16Bom);
    forall k | 0 <= k < |us|
      ensures s[2 + 2 * k] == us[k] as int / 256 && s[3 + 2 * k] == us[k] as int % 256
    {
      assert s[2 + 2 * k] == PackUnits(us, true)[2 * k] && s[3 + 2 * k] == PackUnits(us, true)[1 + 2 * k];
    }
  }

  /** Whatever precedes it, a surrogate without its partner becomes one replacement character. */
  lemma {:induction false} UnpairedReplaced(t: Text, u: Unit, rest: seq<Unit>)
    requires 0xD800 <= u <= 0xDFFF
    requires u <= 0xDBFF ==> rest == [] || !(0xDC00 <= rest[0] <= 0xDFFF)
    ensures FromUnits(Units(t) + [u] + rest) == t + [REPLACEMENT] + FromUnits(rest)
    decreases |t|
  {
    hide FromUnits, UnitsOf;
    var us := Units(t) + [u] + rest;
    if t == [] {
      LoneSurrogate(u, rest);
      assert us == [u] + rest;
    } else {
      UnpairedReplaced(t[1..], u, rest);
      var tail := Units(t[1..]) + [u] + rest;
      FirstCharacter(t[0], tail);
      assert us == UnitsOf(t[0]) + tail;
      assert [t[0]] + (t[1..] + [REPLACEMENT] + FromUnits(rest)) == t + [REPLACEMENT] + FromUnits(rest);
    }
  }

  lemma {:induction false} LoneSurrogate(u: Unit, rest: seq<Unit>)
    requires 0xD800 <= u <= 0xDFFF
    requires u <= 0xDBFF ==> rest == [] || !(0xDC00 <= rest[0] <= 0xDFFF)
    ensures FromUnits([u] + rest) == [REPLACEMENT] + FromUnits(rest)
  {
    assert ([u] + rest)[1..] == rest;
  }

  lemma {:induction false} FirstCharacter(c: Char, rest: seq<Unit>)
    ensures FromUnits(UnitsOf(c) + rest) == [c] + FromUnits(rest)
  {
    var us := UnitsOf(c) + rest;
    assert us[|UnitsOf(c)|..] == rest;
    if c >= 0x10000 {
      var d: int := c as int - 0x10000;
      assert d == d / 1024 * 1024 + d % 1024;
    }
  }

  /** An odd byte at the end becomes a replacement character. */
  lemma {:induction false} OddByteReplaced(t: Text, b: Byte, big: bool)
    ensures DecodeUtf16(PackUnits(Units(t), big) + [b], big) == t + [REPLACEMENT]
  {
    hide Units, PackUnits, UnpackUnits, FromUnits;
    OddUnit(Units(t), b, big);
    UnitsAppend(t, [REPLACEMENT]);
    UnitsAre(REPLACEMENT);
    UnitsRoundTrip(t + [REPLACEMENT]);
  }

  lemma {:induction false} OddUnit(us: seq<Unit>, b: Byte, big: bool)
    ensures UnpackUnits(PackUnits(us, big) + [b], big) == us + [0xFFFD]
    decreases |us|
  {
    var s := PackUnits(us, big) + [b];
    if us == [] {
      assert s == [b];
    } else {
      assert s[2..] == PackUnits(us[1..], big) + [b];
      var u: int := us[0];
      assert u == u / 256 * 256 + u % 256;
      OddUnit(us[1..], b, big);
    }
  }

  // ---- UTF-8 ----

  /** The shape of each row of the table: how many bytes, their ranges, and the bits they carry. */
  lemma {:induction false} Utf8Are(c: Char)
    ensures c <= 0x7F ==> Utf8Bytes([c]) == [c]
    ensures 0x80 <= c <= 0x7FF ==>
            exists a, b :: Utf8Bytes([c]) == [a, b] && 0xC2 <= a <= 0xDF && 0x80 <= b <= 0xBF && c == (a - 0xC0) * 64 + (b - 0x80)
    ensures 0x800 <= c <= 0xFFFF ==>
            exists a, b, d :: Utf8Bytes([c]) == [a, b, d] && 0xE0 <= a <= 0xEF && 0x80 <= b <= 0xBF && 0x80 <= d <= 0xBF
                              && c == (a - 0xE0) * 4096 + (b - 0x80) * 64 + (d - 0x80)
    ensures 0x10000 <= c ==>
            exists a, b, d, e :: Utf8Bytes([c]) == [a, b, d, e] && 0xF0 <= a <= 0xF4 && 0x80 <= b <= 0xBF && 0x80 <= d <= 0xBF && 0x80 <= e <= 0xBF
                                 && c == (a - 0xF0) * 262144 + (b - 0x80) * 4096 + (d - 0x80) * 64 + (e - 0x80)
  {
    hide Utf8Char;
    OneCharacter(c);
    if c <= 0x7F {
      OneByte(c);
    } else if c <= 0x7FF {
      TwoBytes(c);
      var n: int := c;
      var a: Byte, b: Byte := 0xC0 + n / 64, 0x80 + n % 64;
      assert Utf8Bytes([c]) == [a, b];
    } else if c <= 0xFFFF {
      ThreeBytes(c);
      var n: int := c;
      ThreeAre(n);
      var a: Byte, b: Byte, d: Byte := 0xE0 + n / 4096, 0x80 + n / 64 % 64, 0x80 + n % 64;
      assert Utf8Bytes([c]) == [a, b, d];
    } else {
      FourBytes(c);
      var n: int := c;
      FourParts(n);
      var a: Byte, b: Byte, d: Byte, e: Byte := 0xF0 + n / 262144, 0x80 + n / 4096 % 64, 0x80 + n / 64 % 64, 0x80 + n % 64;
      assert Utf8Bytes([c]) == [a, b, d, e];
    }
  }

  lemma {:induction false} OneCharacter(c: Char)
    ensures Utf8Bytes([c]) == Utf8Char(c)
  {
    hide Utf8Char;
    assert [c][1..] == [] && Utf8Bytes([]) == [];
    assert Utf8Char(c) + [] == Utf8Char(c);
  }

  lemma {:induction false} OneByte(c: Char)
    requires c <= 0x7F
    ensures Utf8Char(c) == [c]
  {
  }

  lemma {:induction false} TwoBytes(c: Char)
    requires 0x80 <= c <= 0x7FF
    ensures Utf8Char(c) == [0xC0 + c / 64, 0x80 + c % 64]
  {
  }

  lemma {:induction false} ThreeAre(n: int)
    requires 0 <= n <= 0xFFFF
    ensures n == n / 4096 * 4096 + n / 64 % 64 * 64 + n % 64
  {
    assert n / 64 == n / 4096 * 64 + n / 64 % 64;
  }

  lemma {:induction false} Utf8Append(a: Text, b: Text)
    ensures Utf8Bytes(a + b) == Utf8Bytes(a) + Utf8Bytes(b)
    decreases |a|
  {
    hide Utf8Char;
    if a == [] {
      assert a + b == b;
    } else {
      assert (a + b)[1..] == a[1..] + b && (a + b)[0] == a[0];
      Utf8Append(a[1..], b);
    }
  }

  /** Some character's bytes begin with these. */
  ghost predicate Begins(p: seq<Byte>) { exists c: Char :: p <= Utf8Char(c) }

  /** What is looked at decides: bytes that agree up to there give the same piece. */
  lemma {:induction false} SamePiece(s: seq<Byte>, s': seq<Byte>)
    requires s != [] && Scan(s).Malformed? && s[..Scan(s).n] <= s'
    requires (Width(s[0]) == 0 && s' != []) || (Scan(s).n < |s| && s[..Scan(s).n + 1] <= s')
    ensures s' != [] && Scan(s') == Scan(s)
  {
    var n := Scan(s).n;
    assert forall i :: 0 <= i < n ==> s'[i] == s[..n][i] == s[i];
    if Width(s[0]) != 0 {
      assert s'[n] == s[..n + 1][n] == s[n];
    }
  }

  lemma {:induction false} NotMalformed(c: Char)
    ensures Scan(Utf8Char(c)) == Whole(c, |Utf8Char(c)|)
  {
    hide Scan, Utf8Char;
    ScanEncoded(c, []);
    assert Utf8Char(c) + [] == Utf8Char(c);
  }

  lemma {:induction false} TwoAre(s: seq<Byte>)
    requires |s| == 2 && 0xC2 <= s[0] <= 0xDF && 0x80 <= s[1] <= 0xBF
    ensures IsScalar(Join2(s[0], s[1])) && Utf8Char(Join2(s[0], s[1])) == s
  {
    var p: int, q: int := s[0] - 0xC0, s[1] - 0x80;
    var n := p * 64 + q;
    assert n / 64 == p && n % 64 == q;
  }

  lemma {:induction false} ThreeBytesAre(s: seq<Byte>)
    requires |s| == 3 && 0xE0 <= s[0] <= 0xEF && Second(s[0], s[1]) && 0x80 <= s[2] <= 0xBF
    ensures IsScalar(Join3(s[0], s[1], s[2])) && Utf8Char(Join3(s[0], s[1], s[2])) == s
  {
    var p: int, q: int, r: int := s[0] - 0xE0, s[1] - 0x80, s[2] - 0x80;
    var n := Join3(s[0], s[1], s[2]);
    assert n == p * 4096 + q * 64 + r && 0x800 <= n < 0x10000 && IsScalar(n);
    hide Join3;
    Digits(p, q, r);
    ThreeBytes(n);
  }

  lemma {:induction false} Digits4(p: int, q: int, r: int, u: int)
    requires 0 <= q < 64 && 0 <= r < 64 && 0 <= u < 64
    ensures var n := p * 262144 + q * 4096 + r * 64 + u; n / 262144 == p && n / 4096 % 64 == q && n / 64 % 64 == r && n % 64 == u
  {
    var n := p * 262144 + q * 4096 + r * 64 + u;
    var m := p * 64 + q;
    Digits(m, r, u);
    assert n == m * 4096 + r * 64 + u;
    assert n / 4096 == m && m / 64 == p && m % 64 == q;
    assert n == p * 262144 + (q * 4096 + r * 64 + u) && 0 <= q * 4096 + r * 64 + u < 262144;
  }

  lemma {:induction false} FourBytesAre(s: seq<Byte>)
    requires |s| == 4 && 0xF0 <= s[0] <= 0xF4 && Second(s[0], s[1]) && 0x80 <= s[2] <= 0xBF && 0x80 <= s[3] <= 0xBF
    ensures IsScalar(Join4(s[0], s[1], s[2], s[3])) && Utf8Char(Join4(s[0], s[1], s[2], s[3])) == s
  {
    FourRange(s[0], s[1], s[2], s[3]);
    hide Join4, Utf8Char, Second;
    FourFrom(Join4(s[0], s[1], s[2], s[3]), s[0] - 0xF0, s[1] - 0x80, s[2] - 0x80, s[3] - 0x80);
  }

  lemma {:induction false} FourRange(a: Byte, b: Byte, c: Byte, d: Byte)
    requires 0xF0 <= a <= 0xF4 && Second(a, b) && 0x80 <= c <= 0xBF && 0x80 <= d <= 0xBF
    ensures 0x80 <= b <= 0xBF && 0x10000 <= Join4(a, b, c, d) < 0x11_0000
    ensures Join4(a, b, c, d) == (a - 0xF0) * 262144 + (b - 0x80) * 4096 + (c - 0x80) * 64 + (d - 0x80)
  {
  }

  lemma {:induction false} FourFrom(n: Char, p: int, q: int, r: int, u: int)
    requires n >= 0x10000 && n == p * 262144 + q * 4096 + r * 64 + u && 0 <= p <= 4 && 0 <= q < 64 && 0 <= r < 64 && 0 <= u < 64
    ensures Utf8Char(n) == [0xF0 + p, 0x80 + q, 0x80 + r, 0x80 + u]
  {
    hide Utf8Char;
    Digits4(p, q, r, u);
    FourBytes(n);
  }

  lemma {:induction false} FourBytes(c: Char)
    requires 0x10000 <= c
    ensures Utf8Char(c) == [0xF0 + c / 262144, 0x80 + c / 4096 % 64, 0x80 + c / 64 % 64, 0x80 + c % 64]
  {
  }

  /** A whole piece is its character's bytes. */
  lemma {:induction false} WholeIs(s: seq<Byte>)
    requires s != [] && Scan(s).Whole?
    ensures s[..Scan(s).n] == Utf8Char(Scan(s).c)
  {
    var n := Scan(s).n;
    var p := s[..n];
    if n == 2 {
      TwoAre(p);
    } else if n == 3 {
      ThreeBytesAre(p);
    } else if n == 4 {
      FourBytesAre(p);
    }
  }

  lemma {:induction false} BeginsWhole(p: seq<Byte>, q: seq<Byte>)
    requires p <= q && q != [] && Scan(q).Whole? && Scan(q).n == |q|
    ensures Begins(p)
  {
    hide Scan, Utf8Char;
    WholeIs(q);
    assert q[..|q|] == q;
    assert p <= Utf8Char(Scan(q).c);
  }

  /** A byte that may come second after `lead`. */
  function Follower(lead: Byte): (b: Byte)
    ensures Second(lead, b)
  {
    if lead == 0xE0 then 0xA0 else if lead == 0xF0 then 0x90 else 0x80
  }

  lemma {:induction false} PrefixBegins(s: seq<Byte>)
    requires 1 <= |s| <= 3 && |s| < Width(s[0])
    requires |s| >= 2 ==> Second(s[0], s[1])
    requires |s| == 3 ==> 0x80 <= s[2] <= 0xBF
    ensures Begins(s)
  {
    hide Begins;
    var w := Width(s[0]);
    var q := s + (if |s| == 1 then [Follower(s[0]), 0x80, 0x80] else if |s| == 2 then [0x80, 0x80] else [0x80]);
    assert |q| == 4 && q[0] == s[0] && Second(q[0], q[1]) && Cont(q[2]) && Cont(q[3]);
    var r := q[..w];
    assert Scan(r).Whole? && Scan(r).n == w;
    assert s <= r;
    BeginsWhole(s, r);
  }

  /** Bytes the scan stops before begin no character. */
  lemma {:induction false} StopsBefore(s: seq<Byte>, p: seq<Byte>)
    requires s != [] && Scan(s).Malformed? && p <= s && p != []
    requires (Width(s[0]) == 0 && |p| == 1) || (Width(s[0]) != 0 && |p| == Scan(s).n + 1)
    ensures !Begins(p)
  {
    hide Scan, Utf8Char;
    forall c: Char
      ensures !(p <= Utf8Char(c))
    {
      if p <= Utf8Char(c) {
        var s' := Utf8Char(c);
        NotMalformed(c);
        MalformedLength(s);
        assert s[..Scan(s).n] <= s' by { assert p[..Scan(s).n] == s[..Scan(s).n]; }
        assert Width(s[0]) != 0 ==> s[..Scan(s).n + 1] == p;
        SamePiece(s, s');
      }
    }
  }

  lemma {:induction false} MalformedLength(s: seq<Byte>)
    requires s != [] && Scan(s).Malformed?
    ensures Width(s[0]) == 0 ==> Scan(s).n == 1
    ensures Width(s[0]) != 0 ==> Scan(s).n < |s| && Scan(s).n < Width(s[0])
    ensures Width(s[0]) != 0 && Scan(s).n >= 2 ==> Second(s[0], s[1])
    ensures Width(s[0]) != 0 && Scan(s).n == 3 ==> 0x80 <= s[2] <= 0xBF
  {
  }

  /**
   What is replaced, in terms of the characters' bytes alone: a piece that is no character is one byte
   that begins none, or the longest run that begins one, and input that ends too soon begins one.
   */
  lemma {:induction false} PiecesExact(s: seq<Byte>)
    requires s != []
    ensures Scan(s).Whole? ==> s[..Scan(s).n] == Utf8Char(Scan(s).c)
    ensures Scan(s).Malformed? ==>
            var n := Scan(s).n;
            || (n == 1 && !Begins(s[..1]))
            || (n < |s| && Begins(s[..n]) && !Begins(s[..n + 1]))
    ensures Scan(s).CutOff? ==> Begins(s) && forall c: Char :: !(Utf8Char(c) <= s)
  {
    hide Begins, Utf8Char;
    if Scan(s).Whole? {
      WholeIs(s);
    } else if Scan(s).Malformed? {
      MalformedLength(s);
      var n := Scan(s).n;
      if Width(s[0]) == 0 {
        StopsBefore(s, s[..1]);
      } else {
        StopsBefore(s, s[..n + 1]);
        assert s[..n][0] == s[0];
        PrefixBegins(s[..n]);
      }
    } else {
      PrefixBegins(s);
      forall c: Char
        ensures !(Utf8Char(c) <= s)
      {
        if Utf8Char(c) <= s {
          var n := |Utf8Char(c)|;
          assert s == Utf8Char(c) + s[n..];
          ScanEncoded(c, s[n..]);
        }
      }
    }
  }

  /** After any text, a malformed piece becomes one replacement character, and decoding goes on behind it. */
  lemma {:induction false} PieceReplaced(t: Text, bad: seq<Byte>, rest: seq<Byte>)
    requires bad != [] && (Scan(bad + rest) == Malformed(|bad|) || (rest == [] && Scan(bad).CutOff?))
    ensures Lossy(Utf8Bytes(t) + bad + rest) == t + [REPLACEMENT] + Lossy(rest)
    decreases |t|
  {
    hide Scan, Utf8Char, Lossy;
    var s := Utf8Bytes(t) + bad + rest;
    if t == [] {
      assert s == bad + rest;
      FirstReplaced(bad, rest);
    } else {
      PieceReplaced(t[1..], bad, rest);
      var tail := Utf8Bytes(t[1..]) + bad + rest;
      assert s == Utf8Char(t[0]) + tail;
      FirstKept(t[0], tail);
      assert [t[0]] + (t[1..] + [REPLACEMENT] + Lossy(rest)) == t + [REPLACEMENT] + Lossy(rest);
    }
  }

  lemma {:induction false} FirstReplaced(bad: seq<Byte>, rest: seq<Byte>)
    requires bad != [] && (Scan(bad + rest) == Malformed(|bad|) || (rest == [] && Scan(bad).CutOff?))
    ensures Lossy(bad + rest) == [REPLACEMENT] + Lossy(rest)
  {
    hide Scan;
    assert (bad + rest)[|bad|..] == rest;
    assert rest == [] ==> bad + rest == bad;
  }

  lemma {:induction false} FirstKept(c: Char, rest: seq<Byte>)
    ensures Lossy(Utf8Char(c) + rest) == [c] + Lossy(rest)
  {
    hide Scan, Utf8Char;
    ScanEncoded(c, rest);
    assert (Utf8Char(c) + rest)[|Utf8Char(c)|..] == rest;
  }

  // ---- Byte-order marks ----

  /** Each of the three marks is dropped and decides the encoding, whichever of the Unicode ones was asked for. */
  lemma {:induction false} MarkDecides(t: Text, cs: Encoding)
    requires cs.Utf8? || cs.Utf16Bom? || cs.Utf16Be? || cs.Utf16Le?
    ensures Decode([0xEF, 0xBB, 0xBF] + Encode(t, Utf8), cs) == t
    ensures Decode([0xFE, 0xFF] + Encode(t, Utf16Be), cs) == t
    ensures Decode([0xFF, 0xFE] + Encode(t, Utf16Le), cs) == t
  {
    hide Encode, Lossy, DecodeUtf16;
    DecodeAsEncode(t, Utf8);
    DecodeAsEncode(t, Utf16Be);
    DecodeAsEncode(t, Utf16Le);
    var a, b, c := [0xEF, 0xBB, 0xBF] + Encode(t, Utf8), [0xFE, 0xFF] + Encode(t, Utf16Be), [0xFF, 0xFE] + Encode(t, Utf16Le);
    assert a[3..] == Encode(t, Utf8) && b[2..] == Encode(t, Utf16Be) && c[2..] == Encode(t, Utf16Le);
  }

  /** Without one the encoding asked for is used; `utf-16` is then big-endian. */
  lemma {:induction false} UnmarkedDecides(s: seq<Byte>)
    requires !(|s| >= 3 && s[..3] == [0xEF, 0xBB, 0xBF]) && !(|s| >= 2 && (s[..2] == [0xFE, 0xFF] || s[..2] == [0xFF, 0xFE]))
    ensures Decode(s, Utf8) == Lossy(s) && Decode(s, Utf16Bom) == Decode(s, Utf16Be) == DecodeUtf16(s, true)
    ensures Decode(s, Utf16Le) == DecodeUtf16(s, false)
  {
    hide Lossy, DecodeUtf16;
    if |s| >= 2 {
      assert s[..2] == [s[0], s[1]];
    }
    if |s| >= 3 {
      assert s[..3] == [s[0], s[1], s[2]];
    }
  }

  // ---- Single bytes ----

  /** The block in which windows-1252 is not Latin-1; five of its bytes are no character. */
  const BLOCK: seq<(int, int)> := [
    (0x80, 0x20AC), (0x82, 0x201A), (0x83, 0x0192), (0x84, 0x201E), (0x85, 0x2026), (0x86, 0x2020), (0x87, 0x2021), (0x88, 0x02C6),
    (0x89, 0x2030), (0x8A, 0x0160), (0x8B, 0x2039), (0x8C, 0x0152), (0x8E, 0x017D), (0x91, 0x2018), (0x92, 0x2019), (0x93, 0x201C),
    (0x94, 0x201D), (0x95, 0x2022), (0x96, 0x2013), (0x97, 0x2014), (0x98, 0x02DC), (0x99, 0x2122), (0x9A, 0x0161), (0x9B, 0x203A),
    (0x9C, 0x0153), (0x9E, 0x017E), (0x9F, 0x0178)]

  lemma {:induction false} BlockIs(k: nat)
    requires k < |BLOCK|
    ensures 0x80 <= BLOCK[k].0 <= 0x9F && CP1252_HIGH[BLOCK[k].0 - 0x80] == BLOCK[k].1
  {
  }

  lemma {:induction false} Holes(b: Byte)
    requires b == 0x81 || b == 0x8D || b == 0x8F || b == 0x90 || b == 0x9D
    ensures SingleChar(b, Cp1252) == REPLACEMENT
  {
  }

  /** Decoding one byte. */
  lemma {:induction false} BytesMean(b: Byte)
    ensures Decode([b], Latin1) == [b]
    ensures Decode([b], UsAscii) == [if b <= 0x7F then b else 0xFFFD]
    ensures !(0x80 <= b <= 0x9F) ==> Decode([b], Cp1252) == [b]
    ensures b == 0x81 || b == 0x8D || b == 0x8F || b == 0x90 || b == 0x9D ==> Decode([b], Cp1252) == [0xFFFD]
    ensures forall k :: 0 <= k < |BLOCK| && BLOCK[k].0 == b ==> Decode([b], Cp1252) == [BLOCK[k].1]
  {
    hide CP1252_HIGH, BLOCK;
    assert Decode([b], Cp1252) == [SingleChar(b, Cp1252)];
    if b == 0x81 || b == 0x8D || b == 0x8F || b == 0x90 || b == 0x9D {
      Holes(b);
    }
    forall k | 0 <= k < |BLOCK| && BLOCK[k].0 == b
      ensures Decode([b], Cp1252) == [BLOCK[k].1]
    {
      BlockIs(k);
    }
  }

  lemma {:induction false} Meant(b: Byte, cs: Encoding)
    requires cs.Latin1? || cs.Cp1252? || cs.UsAscii?
    ensures Representable(SingleChar(b, cs), cs) || SingleChar(b, cs) == REPLACEMENT
  {
  }

  /** Encoding one character: the byte that means it, and `?` when there is none. */
  lemma {:induction false} CharactersBecome(c: Char, cs: Encoding)
    requires cs.Latin1? || cs.Cp1252? || cs.UsAscii?
    ensures |Encode([c], cs)| == 1
    ensures Decode(Encode([c], cs), cs) == [c] || (Encode([c], cs) == [0x3F] && forall b: Byte :: Decode([b], cs) != [c] || c == 0xFFFD)
  {
    hide CP1252_HIGH;
    var b := SingleByte(c, cs);
    assert Encode([c], cs) == [b] && Decode([b], cs) == [SingleChar(b, cs)];
    SingleRoundTrip(c, cs);
    if !Representable(c, cs) && c != 0xFFFD {
      forall b': Byte
        ensures Decode([b'], cs) != [c]
      {
        assert Decode([b'], cs)[0] == SingleChar(b', cs);
        Meant(b', cs);
      }
    }
  }

  /** A text is encoded and a byte string decoded one by one. */
  lemma {:induction false} OneByOne(a: Text, b: Text, s: seq<Byte>, r: seq<Byte>, cs: Encoding)
    requires cs.Latin1? || cs.Cp1252? || cs.UsAscii?
    ensures Encode(a + b, cs) == Encode(a, cs) + Encode(b, cs) && Decode(s + r, cs) == Decode(s, cs) + Decode(r, cs)
  {
    hide MapBytes, MapChars;
    MapAppends(a, b, s, r, cs);
  }

  lemma {:induction false} MapAppends(a: Text, b: Text, s: seq<Byte>, r: seq<Byte>, cs: Encoding)
    ensures MapBytes(a + b, cs) == MapBytes(a, cs) + MapBytes(b, cs) && MapChars(s + r, cs) == MapChars(s, cs) + MapChars(r, cs)
  {
    hide SingleByte, SingleChar;
    forall i | 0 <= i < |a + b|
      ensures MapBytes(a + b, cs)[i] == (MapBytes(a, cs) + MapBytes(b, cs))[i]
    {
      assert i >= |a| ==> (a + b)[i] == b[i - |a|];
    }
    forall i | 0 <= i < |s + r|
      ensures MapChars(s + r, cs)[i] == (MapChars(s, cs) + MapChars(r, cs))[i]
    {
      assert i >= |s| ==> (s + r)[i] == r[i - |s|];
    }
  }
}
