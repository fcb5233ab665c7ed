/**
 The incremental decoder: bytes arrive in blocks, text comes out, an incomplete
 character is held back. For every way of cutting the input into blocks the text
 is compared with `decode` of the whole: always equal for the encodings other than
 UTF-8, and for UTF-8 equal exactly when no block ends badly (`BadCut`).
 */
module StreamDecode {
  import opened Charset

  // ---- Checking UTF-8 ----

  /** The result of `from_utf8`: the kind of the first error, if any. */
  datatype Verdict = Valid | Broken | Truncated(at: nat)

  function Check(s: seq<Byte>): (v: Verdict)
    ensures v.Truncated? ==> v.at < |s|
  {
    if s == [] then Valid else
    match Scan(s)
    case Whole(_, n) =>
      (match Check(s[n..])
       case Valid => Valid
       case Broken => Broken
       case Truncated(k) => Truncated(n + k))
    case Malformed(_) => Broken
    case CutOff => Truncated(0)
  }

  /** What the complete pieces of `s` decode to. */
  function Pieces(s: seq<Byte>): Text {
    if s == [] then [] else
    match Scan(s)
    case Whole(c, n) => [c] + Pieces(s[n..])
    case Malformed(n) => [REPLACEMENT] + Pieces(s[n..])
    case CutOff => []
  }

  /** The cut-off character `s` ends with, if any. */
  function CutTail(s: seq<Byte>): (q: seq<Byte>)
    ensures q != [] ==> Scan(q).CutOff?
  {
    if s == [] then [] else
    match Scan(s)
    case Whole(_, n) => CutTail(s[n..])
    case Malformed(n) => CutTail(s[n..])
    case CutOff => s
  }

  /** Bytes that come later do not change a piece already complete. */
  lemma {:induction false} ScanStable(s: seq<Byte>, rest: seq<Byte>)
    requires s != [] && !Scan(s).CutOff?
    ensures Scan(s + rest) == Scan(s)
  {
  }

  lemma {:induction false} LossyPieces(s: seq<Byte>, rest: seq<Byte>)
    ensures Lossy(s + rest) == Pieces(s) + Lossy(CutTail(s) + rest)
    decreases |s|
  {
    hide Scan;
    if s == [] {
      assert s + rest == rest;
    } else {
      var p := Scan(s);
      if !p.CutOff? {
        ScanStable(s, rest);
        ScanBounds(s);
        assert (s + rest)[p.n..] == s[p.n..] + rest;
        LossyPieces(s[p.n..], rest);
      }
    }
  }

  lemma {:induction false} ScanBounds(s: seq<Byte>)
    requires s != []
    ensures var p := Scan(s); !p.CutOff? ==> 1 <= p.n <= |s|
  {
  }

  lemma {:induction false} LossyAlone(s: seq<Byte>)
    ensures Lossy(s) == Pieces(s) + (if CutTail(s) == [] then [] else [REPLACEMENT])
  {
    hide Scan, Pieces;
    LossyPieces(s, []);
    assert s + [] == s && CutTail(s) + [] == CutTail(s);
    assert CutTail(s) != [] ==> Lossy(CutTail(s)) == [REPLACEMENT];
  }

  /** One level of the scans, at a complete character. */
  lemma {:induction false} UnfoldWhole(s: seq<Byte>)
    requires s != [] && Scan(s).Whole?
    ensures var n := Scan(s).n;
            && 1 <= n <= |s|
            && Check(s) == (match Check(s[n..]) case Valid => Valid case Broken => Broken case Truncated(k) => Truncated(n + k))
            && Pieces(s) == [Scan(s).c] + Pieces(s[n..]) && CutTail(s) == CutTail(s[n..])
            && Lossy(s) == [Scan(s).c] + Lossy(s[n..])
  {
    hide Scan;
    ScanBounds(s);
  }

  lemma {:induction false} UnfoldCut(s: seq<Byte>)
    requires s != [] && !Scan(s).Whole?
    ensures Scan(s).Malformed? ==> Check(s).Broken?
    ensures Scan(s).CutOff? ==> Check(s) == Truncated(0) && Pieces(s) == [] && CutTail(s) == s
  {
    hide Scan;
  }

  lemma {:induction false} NoPieces()
    ensures Check([]).Valid? && CutTail([]) == [] && Lossy([]) == [] && Pieces([]) == []
  {
  }

  lemma {:induction false} CheckedPieces(s: seq<Byte>)
    ensures Check(s).Valid? ==> CutTail(s) == []
    ensures Check(s).Truncated? ==>
              CutTail(s) == s[Check(s).at..] && CutTail(s) != [] && Lossy(s[..Check(s).at]) == Pieces(s)
    decreases |s|
  {
    hide Scan, Check, Pieces, CutTail, Lossy;
    NoPieces();
    if s != [] {
      if Scan(s).Whole? {
        var n := Scan(s).n;
        UnfoldWhole(s);
        CheckedPieces(s[n..]);
        if Check(s).Truncated? {
          var k := Check(s[n..]).at;
          CheckInside(s[n..]);
          assert s[n + k..] == s[n..][k..];
          var front := s[..n + k];
          FrontScan(s, n, n + k);
          UnfoldWhole(front);
          assert front[n..] == s[n..][..k];
        }
      } else {
        UnfoldCut(s);
        assert s[0..] == s && s[..0] == [];
      }
    }
  }

  lemma {:induction false} CheckInside(s: seq<Byte>)
    ensures Check(s).Truncated? ==> Check(s).at < |s|
  {
  }

  /** A complete character is found in any prefix that contains it. */
  lemma {:induction false} FrontScan(s: seq<Byte>, n: nat, m: nat)
    requires s != [] && Scan(s).Whole? && Scan(s).n == n <= m <= |s|
    ensures Scan(s[..m]) == Scan(s)
  {
  }

  // ---- A character cut off by the end of a block ----

  predicate Continues(q: seq<Byte>, b: Byte)
    requires q != []
  {
    !Scan(q + [b]).Malformed?
  }

  lemma {:induction false} CutThenOther(q: seq<Byte>, rest: seq<Byte>)
    requires q != [] && Scan(q).CutOff? && rest != [] && !Continues(q, rest[0])
    ensures Lossy(q + rest) == [REPLACEMENT] + Lossy(rest)
  {
    assert Scan(q + [rest[0]]) == Malformed(|q|);
    assert q + [rest[0]] + rest[1..] == q + rest;
    ScanStable(q + [rest[0]], rest[1..]);
    assert (q + rest)[|q|..] == rest;
  }

  /** Continuation bytes on their own are one replacement each. */
  lemma {:induction false} LoneContinuations(rest: seq<Byte>, k: nat)
    requires k <= |rest| && forall i :: 0 <= i < k ==> Cont(rest[i])
    ensures |Lossy(rest)| == k + |Lossy(rest[k..])|
    decreases k
  {
    if k == 0 {
      assert rest[0..] == rest;
    } else {
      assert Scan(rest) == Malformed(1);
      LoneContinuations(rest[1..], k - 1);
      assert rest[1..][k - 1..] == rest[k..];
    }
  }

  /** How many bytes of `rest` the character cut off in `q` takes with it. */
  lemma {:induction false} TakenWith(q: seq<Byte>, rest: seq<Byte>) returns (k: nat)
    requires q != [] && Scan(q).CutOff? && rest != [] && Continues(q, rest[0])
    ensures 1 <= k <= |rest| && forall i :: 0 <= i < k ==> Cont(rest[i])
    ensures Scan(q + rest).CutOff? ==> k == |rest|
    ensures !Scan(q + rest).CutOff? ==> Scan(q + rest).n == |q| + k
  {
    var s := q + rest;
    assert (q + [rest[0]])[|q|] == s[|q|] == rest[0];
    assert forall i :: 0 <= i < |q| ==> (q + [rest[0]])[i] == s[i] == q[i];
    var p := Scan(s);
    k := if p.CutOff? then |rest| else p.n - |q|;
    forall i | 0 <= i < k
      ensures Cont(rest[i])
    {
      assert rest[i] == s[|q| + i];
    }
  }

  /** A continued cut: decoded together, at least one character fewer than decoded apart. */
  lemma {:induction false} CutThenContinued(q: seq<Byte>, rest: seq<Byte>)
    requires q != [] && Scan(q).CutOff? && rest != [] && Continues(q, rest[0])
    ensures |Lossy(q + rest)| <= |Lossy(rest)|
  {
    hide Scan, Continues, Lossy;
    var k := TakenWith(q, rest);
    LoneContinuations(rest, k);
    OnePiece(q + rest);
    if !Scan(q + rest).CutOff? {
      assert (q + rest)[|q| + k..] == rest[k..];
    }
  }

  lemma {:induction false} OnePiece(s: seq<Byte>)
    requires s != []
    ensures Scan(s).CutOff? ==> |Lossy(s)| == 1
    ensures !Scan(s).CutOff? ==> Scan(s).n <= |s| && |Lossy(s)| == 1 + |Lossy(s[Scan(s).n..])|
  {
  }

  // ---- What one push emits and holds back ----

  function UnitAt(s: seq<Byte>, i: nat, big: bool): int
    requires i + 1 < |s|
  {
    if big then UnitFrom(s[i], s[i + 1]) else UnitFrom(s[i + 1], s[i])
  }

  /** `decodable_prefix_len`. */
  function ReadyLen(s: seq<Byte>, cs: Encoding): (n: nat)
    ensures n <= |s|
  {
    if Single(cs) then |s|
    else if cs.Utf8? then (match Check(s) case Truncated(k) => k case _ => |s|)
    else
      var whole := |s| - |s| % 2;
      if whole >= 2 && High(UnitAt(s, whole - 2, !cs.Utf16Le?)) then whole - 2 else whole
  }

  function Emitted(s: seq<Byte>, cs: Encoding): Text { DecodeAs(s[..ReadyLen(s, cs)], cs) }

  function Held(s: seq<Byte>, cs: Encoding): seq<Byte> { s[ReadyLen(s, cs)..] }

  /** The push decodes through a malformed byte up to a cut-off character that the next byte continues. */
  ghost predicate BadCut(s: seq<Byte>, rest: seq<Byte>) {
    Check(s).Broken? && CutTail(s) != [] && rest != [] && Continues(CutTail(s), rest[0])
  }

  lemma {:induction false} Utf8Push(s: seq<Byte>)
    ensures !Check(s).Broken? ==> Emitted(s, Utf8) == Pieces(s) && Held(s, Utf8) == CutTail(s)
    ensures Check(s).Broken? ==> Emitted(s, Utf8) == Lossy(s) && Held(s, Utf8) == []
  {
    hide Lossy, Pieces, Scan, Check;
    CheckedPieces(s);
    LossyAlone(s);
    assert s[..|s|] == s && s[|s|..] == [];
    assert Pieces(s) + [] == Pieces(s);
  }

  /** A push that is not a bad cut loses nothing. */
  lemma {:induction false} Utf8Split(s: seq<Byte>, rest: seq<Byte>)
    requires !BadCut(s, rest)
    ensures Lossy(s + rest) == Emitted(s, Utf8) + Lossy(Held(s, Utf8) + rest)
  {
    hide Lossy, Pieces, Scan, Check, Emitted, Held, CutTail, Continues;
    Utf8Push(s);
    LossyPieces(s, rest);
    LossyAlone(s);
    CutTailScan(s);
    var q := CutTail(s);
    assert [] + rest == rest;
    if Check(s).Broken? && q != [] {
      if rest == [] {
        assert s + rest == s;
        EmptyLossy();
      } else {
        CutThenOther(q, rest);
        assert Pieces(s) + ([REPLACEMENT] + Lossy(rest)) == Pieces(s) + [REPLACEMENT] + Lossy(rest);
      }
    } else {
      assert Pieces(s) + [] == Pieces(s);
    }
  }

  lemma {:induction false} CutTailScan(s: seq<Byte>)
    ensures CutTail(s) != [] ==> Scan(CutTail(s)).CutOff?
  {
  }

  lemma {:induction false} EmptyLossy()
    ensures Lossy([]) == []
  {
  }

  /** A bad cut yields more characters than the whole does. */
  lemma {:induction false} Utf8BadSplit(s: seq<Byte>, rest: seq<Byte>)
    requires BadCut(s, rest)
    ensures |Lossy(s + rest)| < |Emitted(s, Utf8)| + |Lossy(Held(s, Utf8) + rest)|
  {
    hide Lossy, Pieces, Scan, Check, Emitted, Held, CutTail, Continues;
    Utf8Push(s);
    LossyPieces(s, rest);
    LossyAlone(s);
    CutTailScan(s);
    CutThenContinued(CutTail(s), rest);
    assert [] + rest == rest;
  }

  // ---- UTF-16 and single-byte pushes lose nothing ----

  /** The character the first unit, or pair of units, stands for. */
  function FirstChar(us: seq<Unit>): (Char, nat)
    requires us != []
  {
    if High(us[0]) && |us| > 1 && Low(us[1]) then (Pair(us[0], us[1]), 2)
    else (if IsScalar(us[0]) then us[0] else REPLACEMENT, 1)
  }

  lemma {:induction false} NoUnits()
    ensures FromUnits([]) == []
  {
  }

  lemma {:induction false} UnfoldUnits(us: seq<Unit>)
    requires us != []
    ensures FirstChar(us).1 <= |us| && FromUnits(us) == [FirstChar(us).0] + FromUnits(us[FirstChar(us).1..])
  {
  }

  lemma {:induction false} FromUnitsSplit(us: seq<Unit>, vs: seq<Unit>)
    requires us != [] && vs != [] ==> !(High(us[|us| - 1]) && Low(vs[0]))
    ensures FromUnits(us + vs) == FromUnits(us) + FromUnits(vs)
    decreases |us|
  {
    hide FromUnits, Pair;
    if us == [] {
      assert us + vs == vs;
      NoUnits();
    } else {
      var n := if High(us[0]) && |us| > 1 && Low(us[1]) then 2 else 1;
      var all := us + vs;
      assert all[n..] == us[n..] + vs && all[0] == us[0];
      assert |us| > 1 ==> all[1] == us[1];
      assert |us| == 1 && vs != [] ==> all[1] == vs[0];
      FromUnitsSplit(us[n..], vs);
      UnfoldUnits(us);
      UnfoldUnits(all);
    }
  }

  lemma {:induction false} UnpackSplit(a: seq<Byte>, b: seq<Byte>, big: bool)
    requires |a| % 2 == 0
    ensures UnpackUnits(a + b, big) == UnpackUnits(a, big) + UnpackUnits(b, big)
    decreases |a|
  {
    if a == [] {
      assert a + b == b;
    } else {
      assert (a + b)[2..] == a[2..] + b;
      UnpackSplit(a[2..], b, big);
    }
  }

  lemma {:induction false} LastUnit(a: seq<Byte>, big: bool)
    requires a != [] && |a| % 2 == 0
    ensures var us := UnpackUnits(a, big); us != [] && us[|us| - 1] == UnitAt(a, |a| - 2, big)
    decreases |a|
  {
    if |a| == 2 {
      assert a[2..] == [];
    } else {
      LastUnit(a[2..], big);
      assert UnitAt(a[2..], |a| - 4, big) == UnitAt(a, |a| - 2, big);
    }
  }

  lemma {:induction false} Utf16Split(s: seq<Byte>, rest: seq<Byte>, cs: Encoding)
    requires !Single(cs) && !cs.Utf8?
    ensures DecodeAs(s + rest, cs) == Emitted(s, cs) + DecodeAs(Held(s, cs) + rest, cs)
  {
    hide FromUnits, UnpackUnits;
    var big := !cs.Utf16Le?;
    var n := ReadyLen(s, cs);
    var whole := |s| - |s| % 2;
    var a, b := s[..n], s[n..] + rest;
    assert s + rest == a + b;
    assert n % 2 == 0;
    UnpackSplit(a, b, big);
    var us, vs := UnpackUnits(a, big), UnpackUnits(b, big);
    if a != [] {
      LastUnit(a, big);
      if n == whole {
        assert UnitAt(a, n - 2, big) == UnitAt(s, n - 2, big);
      } else {
        HeldHigh(b, big);
        assert UnitAt(b, 0, big) == UnitAt(s, n, big);
      }
    } else {
      EmptyUnits(big);
    }
    FromUnitsSplit(us, vs);
  }

  lemma {:induction false} HeldHigh(b: seq<Byte>, big: bool)
    requires |b| >= 2
    ensures var vs := UnpackUnits(b, big); vs != [] && vs[0] == UnitAt(b, 0, big)
  {
  }

  lemma {:induction false} EmptyUnits(big: bool)
    ensures UnpackUnits([], big) == []
  {
  }

  lemma {:induction false} SingleSplit(s: seq<Byte>, rest: seq<Byte>, cs: Encoding)
    requires Single(cs)
    ensures DecodeAs(s + rest, cs) == Emitted(s, cs) + DecodeAs(Held(s, cs) + rest, cs)
  {
    hide SingleChar, Lossy, DecodeUtf16;
    assert s[..|s|] == s && s[|s|..] + rest == rest;
    assert MapChars(s + rest, cs) == MapChars(s, cs) + MapChars(rest, cs);
  }

  lemma {:induction false} PushSplit(s: seq<Byte>, rest: seq<Byte>, cs: Encoding)
    requires cs.Utf8? ==> !BadCut(s, rest)
    ensures DecodeAs(s + rest, cs) == Emitted(s, cs) + DecodeAs(Held(s, cs) + rest, cs)
  {
    hide Emitted, Held, Lossy, DecodeUtf16, BadCut;
    if cs.Utf8? {
      Utf8Split(s, rest);
    } else if Single(cs) {
      SingleSplit(s, rest, cs);
    } else {
      Utf16Split(s, rest, cs);
    }
  }

  // ---- Runs after the search for a mark ----

  function Concat(blocks: seq<seq<Byte>>): seq<Byte> {
    if blocks == [] then [] else blocks[0] + Concat(blocks[1..])
  }

  /** All the text emitted from the moment `buf` is in hand and `blocks` are still to come. */
  function RunFrom(cs: Encoding, buf: seq<Byte>, blocks: seq<seq<Byte>>): Text
    decreases |blocks|
  {
    if blocks == [] then Emitted(buf, cs) + DecodeAs(Held(buf, cs), cs)
    else Emitted(buf, cs) + RunFrom(cs, Held(buf, cs) + blocks[0], blocks[1..])
  }

  ghost predicate NoBadCuts(buf: seq<Byte>, blocks: seq<seq<Byte>>)
    decreases |blocks|
  {
    && !BadCut(buf, Concat(blocks))
    && (blocks != [] ==> NoBadCuts(Held(buf, Utf8) + blocks[0], blocks[1..]))
  }

  lemma {:induction false} RunOther(cs: Encoding, buf: seq<Byte>, blocks: seq<seq<Byte>>)
    requires !cs.Utf8?
    ensures RunFrom(cs, buf, blocks) == DecodeAs(buf + Concat(blocks), cs)
    decreases |blocks|
  {
    hide Emitted, Held, DecodeAs;
    PushSplit(buf, Concat(blocks), cs);
    if blocks == [] {
      assert Held(buf, cs) + [] == Held(buf, cs);
    } else {
      RunOther(cs, Held(buf, cs) + blocks[0], blocks[1..]);
      assert Held(buf, cs) + blocks[0] + Concat(blocks[1..]) == Held(buf, cs) + Concat(blocks);
    }
  }

  /** UTF-8: never fewer characters than the whole, and the same text exactly when no cut is bad. */
  lemma {:induction false} RunUtf8(buf: seq<Byte>, blocks: seq<seq<Byte>>)
    ensures |RunFrom(Utf8, buf, blocks)| >= |Lossy(buf + Concat(blocks))|
    ensures NoBadCuts(buf, blocks) ==> RunFrom(Utf8, buf, blocks) == Lossy(buf + Concat(blocks))
    ensures !NoBadCuts(buf, blocks) ==> |RunFrom(Utf8, buf, blocks)| > |Lossy(buf + Concat(blocks))|
    decreases |blocks|
  {
    hide Emitted, Held, BadCut, Lossy;
    var rest := Concat(blocks);
    if BadCut(buf, rest) {
      Utf8BadSplit(buf, rest);
    } else {
      Utf8Split(buf, rest);
    }
    if blocks == [] {
      NoCutAtEnd(buf);
      assert Held(buf, Utf8) + [] == Held(buf, Utf8);
    } else {
      RunUtf8(Held(buf, Utf8) + blocks[0], blocks[1..]);
      assert Held(buf, Utf8) + blocks[0] + Concat(blocks[1..]) == Held(buf, Utf8) + rest;
    }
  }

  lemma {:induction false} NoCutAtEnd(buf: seq<Byte>)
    ensures !BadCut(buf, [])
  {
  }

  // ---- Input that is well-formed but for a cut-off last character ----

  lemma {:induction false} CheckPrefix(s: seq<Byte>, rest: seq<Byte>)
    requires !Check(s + rest).Broken?
    ensures !Check(s).Broken? && !Check(CutTail(s) + rest).Broken?
    decreases |s|
  {
    hide Scan;
    if s == [] {
      assert s + rest == rest;
    } else if !Scan(s).CutOff? {
      ScanStable(s, rest);
      ScanBounds(s);
      var n := Scan(s).n;
      assert (s + rest)[n..] == s[n..] + rest;
      CheckPrefix(s[n..], rest);
    }
  }

  lemma {:induction false} WellFormedNeverCut(buf: seq<Byte>, blocks: seq<seq<Byte>>)
    requires !Check(buf + Concat(blocks)).Broken?
    ensures NoBadCuts(buf, blocks)
    decreases |blocks|
  {
    hide Check, CutTail, Held;
    CheckPrefix(buf, Concat(blocks));
    if blocks != [] {
      Utf8Push(buf);
      assert CutTail(buf) + blocks[0] + Concat(blocks[1..]) == CutTail(buf) + Concat(blocks);
      WellFormedNeverCut(Held(buf, Utf8) + blocks[0], blocks[1..]);
    }
  }

  // ---- The search for a byte-order mark ----

  /** The decoder's state; `sniffed` once the start of the stream has been searched for a mark. */
  datatype Dec = Dec(cs: Encoding, tail: seq<Byte>, sniffed: bool)

  predicate CouldStartBom(s: seq<Byte>) {
    s == [] || s == [0xEF] || s == [0xEF, 0xBB] || s == [0xFE] || s == [0xFF]
  }

  /** After the bytes are buffered: settle the encoding if it can be settled yet. */
  function Settle(d: Dec): Dec {
    if d.sniffed then d
    else if Single(d.cs) then d.(sniffed := true)
    else match SniffBom(d.tail)
      case Mark(cs, skip) => Dec(cs, d.tail[skip..], true)
      case NoMark => d.(sniffed := |d.tail| >= 3 || !CouldStartBom(d.tail))
  }

  function Buffered(d: Dec, bytes: seq<Byte>): Dec { Settle(d.(tail := d.tail + bytes)) }

  /** The state after a push, and the text it appends. */
  function After(d: Dec, bytes: seq<Byte>): Dec {
    var e := Buffered(d, bytes);
    if e.sniffed then e.(tail := Held(e.tail, e.cs)) else e
  }

  function Appended(d: Dec, bytes: seq<Byte>): Text {
    var e := Buffered(d, bytes);
    if e.sniffed then Emitted(e.tail, e.cs) else []
  }

  /** Every push and then `finish`. */
  function Run(d: Dec, blocks: seq<seq<Byte>>): Text
    decreases |blocks|
  {
    if blocks == [] then DecodeAs(d.tail, d.cs)
    else Appended(d, blocks[0]) + Run(After(d, blocks[0]), blocks[1..])
  }

  function New(cs: Encoding): Dec { Dec(cs, [], false) }

  lemma {:induction false} RunSniffed(d: Dec, bytes: seq<Byte>, blocks: seq<seq<Byte>>)
    requires Buffered(d, bytes).sniffed
    ensures var e := Buffered(d, bytes);
            Appended(d, bytes) + Run(After(d, bytes), blocks) == RunFrom(e.cs, e.tail, blocks)
    decreases |blocks|
  {
    hide Emitted, Held, DecodeAs, SniffBom;
    if blocks != [] {
      RunSniffed(After(d, bytes), blocks[0], blocks[1..]);
    }
  }

  /** What the rest of the stream cannot change. */
  lemma {:induction false} MarkStable(s: seq<Byte>, rest: seq<Byte>)
    ensures SniffBom(s).Mark? ==> SniffBom(s + rest) == SniffBom(s)
    ensures SniffBom(s).NoMark? && (|s| >= 3 || !CouldStartBom(s)) ==> SniffBom(s + rest).NoMark?
  {
  }

  /** The stream's cuts, from the point where the encoding turns out to be UTF-8. */
  ghost predicate CutsOk(d: Dec, blocks: seq<seq<Byte>>)
    decreases |blocks|
  {
    blocks == [] ||
    var e := Buffered(d, blocks[0]);
    if e.sniffed then e.cs.Utf8? ==> NoBadCuts(e.tail, blocks[1..])
    else CutsOk(e, blocks[1..])
  }

  lemma {:induction false} RunFromExact(cs: Encoding, buf: seq<Byte>, blocks: seq<seq<Byte>>)
    ensures RunFrom(cs, buf, blocks) == DecodeAs(buf + Concat(blocks), cs) <==> (cs.Utf8? ==> NoBadCuts(buf, blocks))
  {
    hide RunFrom, NoBadCuts, Lossy, DecodeUtf16;
    if cs.Utf8? {
      RunUtf8(buf, blocks);
    } else {
      RunOther(cs, buf, blocks);
    }
  }

  lemma {:induction false} DecodeSettled(d: Dec, rest: seq<Byte>)
    requires !d.sniffed && Settle(d).sniffed
    ensures var e := Settle(d); Decode(d.tail + rest, d.cs) == DecodeAs(e.tail + rest, e.cs)
  {
    hide DecodeAs, CouldStartBom;
    MarkStable(d.tail, rest);
    var m := SniffBom(d.tail);
    if !Single(d.cs) && m.Mark? {
      assert (d.tail + rest)[m.skip..] == d.tail[m.skip..] + rest;
    }
  }

  lemma {:induction false} DecodeUnmarked(d: Dec)
    requires !d.sniffed && (d.tail == [] || !Settle(d).sniffed)
    ensures Decode(d.tail, d.cs) == DecodeAs(d.tail, d.cs)
  {
    hide DecodeAs;
  }

  lemma {:induction false} RunExact(d: Dec, blocks: seq<seq<Byte>>)
    requires !d.sniffed && (d.tail == [] || !Settle(d).sniffed)
    ensures Run(d, blocks) == Decode(d.tail + Concat(blocks), d.cs) <==> CutsOk(d, blocks)
    decreases |blocks|
  {
    hide Decode, DecodeAs, RunFrom, NoBadCuts, Settle, Emitted, Held;
    if blocks == [] {
      DecodeUnmarked(d);
      assert d.tail + [] == d.tail;
    } else {
      var d1 := d.(tail := d.tail + blocks[0]);
      var e := Settle(d1);
      var rest := Concat(blocks[1..]);
      assert d.tail + Concat(blocks) == d1.tail + rest;
      if e.sniffed {
        RunSniffed(d, blocks[0], blocks[1..]);
        RunFromExact(e.cs, e.tail, blocks[1..]);
        DecodeSettled(d1, rest);
      } else {
        NotYet(d1);
        RunExact(d1, blocks[1..]);
        assert [] + Run(d1, blocks[1..]) == Run(d1, blocks[1..]);
      }
    }
  }

  lemma {:induction false} NotYet(d: Dec)
    requires !d.sniffed && !Settle(d).sniffed
    ensures Settle(d) == d
  {
  }

  /**
   The decoder's contract. However the input is cut, the text of all pushes and
   `finish` is `decode` of the whole exactly when no cut of UTF-8 is bad.
   */
  lemma {:induction false} StreamExact(cs: Encoding, blocks: seq<seq<Byte>>)
    ensures Run(New(cs), blocks) == Decode(Concat(blocks), cs) <==> CutsOk(New(cs), blocks)
  {
    hide Run, Decode, CutsOk, Concat;
    RunExact(New(cs), blocks);
    assert [] + Concat(blocks) == Concat(blocks);
  }

  /** The encoding `decode` settles on, and the bytes it decodes. */
  function Effective(s: seq<Byte>, cs: Encoding): (Encoding, seq<Byte>) {
    if Single(cs) then (cs, s)
    else match SniffBom(s)
      case Mark(cs', skip) => (cs', s[skip..])
      case NoMark => (cs, s)
  }

  lemma {:induction false} CutsFine(d: Dec, blocks: seq<seq<Byte>>)
    requires !d.sniffed && (d.tail == [] || !Settle(d).sniffed)
    requires var (cs, s) := Effective(d.tail + Concat(blocks), d.cs); cs.Utf8? ==> !Check(s).Broken?
    ensures CutsOk(d, blocks)
    decreases |blocks|
  {
    hide Check, NoBadCuts, CouldStartBom, Settle;
    if blocks != [] {
      var d1 := d.(tail := d.tail + blocks[0]);
      var e := Settle(d1);
      var rest := Concat(blocks[1..]);
      assert d.tail + Concat(blocks) == d1.tail + rest;
      if e.sniffed {
        EffectiveSettled(d1, rest);
        if e.cs.Utf8? {
          WellFormedNeverCut(e.tail, blocks[1..]);
        }
      } else {
        NotYet(d1);
        CutsFine(d1, blocks[1..]);
      }
    }
  }

  lemma {:induction false} EffectiveSettled(d: Dec, rest: seq<Byte>)
    requires !d.sniffed && Settle(d).sniffed
    ensures Effective(d.tail + rest, d.cs) == (Settle(d).cs, Settle(d).tail + rest)
  {
    hide CouldStartBom;
    MarkStable(d.tail, rest);
    var m := SniffBom(d.tail);
    if !Single(d.cs) && m.Mark? {
      assert (d.tail + rest)[m.skip..] == d.tail[m.skip..] + rest;
    }
  }

  /** Every cutting of every input in the other encodings, and of UTF-8 that is well-formed up to its last character. */
  lemma {:induction false} StreamEqualsDecode(cs: Encoding, blocks: seq<seq<Byte>>)
    requires var (cs', s) := Effective(Concat(blocks), cs); cs'.Utf8? ==> !Check(s).Broken?
    ensures Run(New(cs), blocks) == Decode(Concat(blocks), cs)
  {
    hide Run, Decode, CutsOk, Concat, Check, Effective;
    assert [] + Concat(blocks) == Concat(blocks);
    CutsFine(New(cs), blocks);
    StreamExact(cs, blocks);
  }

  lemma {:induction false} EuroCut(a: seq<Byte>, b: seq<Byte>)
    requires a == [0xFF, 0xE2, 0x82] && b == [0xAC]
    ensures BadCut(a, b)
  {
    var q := a[1..];
    assert Scan(a) == Malformed(1);
    assert q == [0xE2, 0x82] && Scan(q) == CutOff;
    assert CutTail(q) == q;
    assert CutTail(a) == q;
    var c := q + [b[0]];
    assert c == [0xE2, 0x82, 0xAC];
    assert Scan(c).Whole?;
  }

  /** A bad cut: the euro sign split after a malformed byte is not put together again. */
  lemma {:induction false} MalformedThenCut()
    ensures var blocks: seq<seq<Byte>> := [[0xFF, 0xE2, 0x82], [0xAC]];
            Run(New(Utf8), blocks) != Decode(Concat(blocks), Utf8)
  {
    hide Run, Decode, Scan, BadCut, Held, Check;
    var a: seq<Byte>, b: seq<Byte> := [0xFF, 0xE2, 0x82], [0xAC];
    var blocks := [a, b];
    EuroCut(a, b);
    assert [b][1..] == [] && b + [] == b;
    assert Concat([b]) == b;
    assert !NoBadCuts(a, [b]);
    assert blocks[1..] == [b] && [] + a == a;
    assert Buffered(New(Utf8), a) == Dec(Utf8, a, true);
    StreamExact(Utf8, blocks);
  }

  /** However long the stream, no more than three bytes are ever held back. */
  lemma {:induction false} TailBounded(d: Dec, bytes: seq<Byte>)
    ensures |After(d, bytes).tail| <= 3
  {
    hide Scan, Check, DecodeAs, CutTail;
    var e := Buffered(d, bytes);
    if e.sniffed && e.cs.Utf8? {
      Utf8Push(e.tail);
      CutTailShort(e.tail);
    }
  }

  lemma {:induction false} CutTailShort(s: seq<Byte>)
    ensures |CutTail(s)| <= 3
  {
    CutTailScan(s);
    if CutTail(s) != [] {
      assert |CutTail(s)| <= 3 by { ScanShortCut(CutTail(s)); }
    }
  }

  lemma {:induction false} ScanShortCut(q: seq<Byte>)
    requires q != [] && Scan(q).CutOff?
    ensures |q| <= 3
  {
  }

  // ---- The decoder ----

  class StreamDecoder {
    var cs: Encoding
    var tail: seq<Byte>
    var sniffed: bool

    function State(): Dec
      reads this
    {
      Dec(cs, tail, sniffed)
    }

    constructor (cs: Encoding)
      ensures State() == New(cs)
    {
      this.cs, tail, sniffed := cs, [], false;
    }

    /** `push_into`: a valid UTF-8 block skips the buffer. */
    method Push(bytes: seq<Byte>) returns (out: Text)
      modifies this
      ensures State() == After(old(State()), bytes)
      ensures out == Appended(old(State()), bytes)
    {
      hide Lossy, Scan, CutTail;
      if sniffed && tail == [] && cs.Utf8? {
        assert [] + bytes == bytes;
        match Check(bytes) {
          case Valid =>
            assert bytes[..|bytes|] == bytes && bytes[|bytes|..] == [];
            out := Lossy(bytes);
            return;
          case Truncated(at) =>
            out := Lossy(bytes[..at]);
            tail := tail + bytes[at..];
            return;
          case Broken =>
        }
      }
      out := PushSlow(bytes);
    }

    method PushSlow(bytes: seq<Byte>) returns (out: Text)
      modifies this
      ensures State() == After(old(State()), bytes)
      ensures out == Appended(old(State()), bytes)
    {
      hide Lossy, Check, DecodeAs, ReadyLen;
      out := [];
      tail := tail + bytes;
      if !sniffed && Single(cs) {
        sniffed := true;
      }
      if !sniffed {
        var mark := SniffBom(tail);
        if mark.Mark? {
          cs := mark.cs;
          tail := tail[mark.skip..];
          sniffed := true;
        } else if |tail| >= 3 || !CouldStartBom(tail) {
          sniffed := true;
        } else {
          return;
        }
      }
      var split := ReadyLen(tail, cs);
      out := DecodeAs(tail[..split], cs);
      tail := tail[split..];
    }

    /** Decode whatever is left. */
    method Finish() returns (out: Text)
      modifies this
      ensures out == Run(old(State()), [])
      ensures State() == old(State()).(tail := [])
    {
      var rest := tail;
      tail := [];
      if rest == [] {
        out := [];
      } else {
        out := DecodeAs(rest, cs);
      }
    }
  }
}
