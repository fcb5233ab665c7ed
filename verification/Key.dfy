/**
 Case-insensitive keys: the word-at-a-time hash that folds ASCII case, equality
 guarded by that hash, and the ordering.
 */
module Key {

  type Name = seq<bv8>

  const FX_SEED: bv64 := 0x517c_c1b7_2722_0a95
  const CASE_BIT: bv64 := 0x2020_2020_2020_2020

  // ---- ASCII case ----

  /** `to_ascii_lowercase`. */
  function Lower(b: bv8): bv8 {
    if 0x41 <= b <= 0x5A then b | 0x20 else b
  }

  /** `eq_ignore_ascii_case`. */
  predicate SameFold(a: Name, b: Name) {
    |a| == |b| && forall i :: 0 <= i < |a| ==> Lower(a[i]) == Lower(b[i])
  }

  lemma {:induction false} SameCaseBit(x: bv8, y: bv8)
    requires Lower(x) == Lower(y)
    ensures Or(x, 0x20) == Or(y, 0x20)
  {
  }

  // ---- The hash ----

  /** `u64::from_le_bytes`. */
  function Word(b: Name): bv64
    requires |b| == 8
  {
    WordOf(b[0], b[1], b[2], b[3], b[4], b[5], b[6], b[7])
  }

  function WordOf(a: bv8, b: bv8, c: bv8, d: bv8, e: bv8, f: bv8, g: bv8, h: bv8): bv64 {
    (a as bv64) | ((b as bv64) << 8) | ((c as bv64) << 16) | ((d as bv64) << 24)
    | ((e as bv64) << 32) | ((f as bv64) << 40) | ((g as bv64) << 48) | ((h as bv64) << 56)
  }

  function Mix(h: bv64, w: bv64): bv64 {
    (h.RotateLeft(5) ^ w) * FX_SEED
  }

  function Padded(rest: Name): (r: Name)
    requires |rest| <= 8
    ensures |r| == 8
  {
    rest + seq(8 - |rest|, i => 0)
  }

  /** The case bits of the bytes that are really there. */
  function TailBits(n: nat): bv64
    requires n < 8
  {
    CASE_BIT & ((1 << (n * 8)) - 1)
  }

  function HashFrom(h: bv64, b: Name): bv64
    decreases |b|
  {
    if |b| >= 8 then HashFrom(Mix(h, Word(b[..8]) | CASE_BIT), b[8..])
    else if b == [] then h
    else Mix(h, Word(Padded(b)) | TailBits(|b|))
  }

  /** The length, as the 64-bit word it is held in, and then the bytes. */
  function FoldHash(b: Name): bv64 { HashFrom((|b| % 0x1_0000_0000_0000_0000) as bv64, b) }

  /** `fold_hash`: eight bytes at a time, then the remainder. */
  method ComputeFoldHash(key: Name) returns (h: bv64)
    ensures h == FoldHash(key)
  {
    hide Mix, Word, Padded, TailBits;
    h := (|key| % 0x1_0000_0000_0000_0000) as bv64;
    var i := 0;
    assert key[0..] == key;
    while i + 8 <= |key|
      invariant 0 <= i <= |key|
      invariant HashFrom(h, key[i..]) == FoldHash(key)
    {
      var w := Word(key[i..i + 8]) | CASE_BIT;
      assert key[i..][..8] == key[i..i + 8] && key[i..][8..] == key[i + 8..];
      h := Mix(h, w);
      i := i + 8;
    }
    var rest := key[i..];
    if rest != [] {
      h := Mix(h, Word(Padded(rest)) | TailBits(|rest|));
    }
  }

  // ---- Equal up to case, equal hash ----

  lemma {:induction false} WordOr(a: bv8, b: bv8, c: bv8, d: bv8, e: bv8, f: bv8, g: bv8, h: bv8,
               a': bv8, b': bv8, c': bv8, d': bv8, e': bv8, f': bv8, g': bv8, h': bv8)
    ensures WordOf(a, b, c, d, e, f, g, h) | WordOf(a', b', c', d', e', f', g', h')
         == WordOf(Or(a, a'), Or(b, b'), Or(c, c'), Or(d, d'), Or(e, e'), Or(f, f'), Or(g, g'), Or(h, h'))
  {
  }

  function Or(x: bv8, y: bv8): bv8 { x | y }

  /** The case bit for each of the first `n` bytes. */
  function CaseBit(i: nat, n: nat): bv8 { if i < n then 0x20 else 0 }

  function CaseWord(n: nat): bv64 {
    WordOf(CaseBit(0, n), CaseBit(1, n), CaseBit(2, n), CaseBit(3, n), CaseBit(4, n), CaseBit(5, n), CaseBit(6, n), CaseBit(7, n))
  }

  lemma {:induction false} CaseWords()
    ensures CaseWord(8) == CASE_BIT
    ensures CaseWord(1) == 0x20 && CaseWord(2) == 0x2020 && CaseWord(3) == 0x20_2020 && CaseWord(4) == 0x2020_2020
    ensures CaseWord(5) == 0x20_2020_2020 && CaseWord(6) == 0x2020_2020_2020 && CaseWord(7) == 0x20_2020_2020_2020
  {
  }

  lemma {:induction false} TailBitsLow(n: nat)
    requires 1 <= n <= 4
    ensures TailBits(n) == CaseWord(n)
  {
    hide CaseWord;
    CaseWords();
    if n == 1 {
      assert TailBits(1) == 0x20;
    } else if n == 2 {
      assert TailBits(2) == 0x2020;
    } else if n == 3 {
      assert TailBits(3) == 0x20_2020;
    } else {
      assert TailBits(4) == 0x2020_2020;
    }
  }

  lemma {:induction false} TailBitsHigh(n: nat)
    requires 5 <= n < 8
    ensures TailBits(n) == CaseWord(n)
  {
    hide CaseWord;
    CaseWords();
    if n == 5 {
      assert TailBits(5) == 0x20_2020_2020;
    } else if n == 6 {
      assert TailBits(6) == 0x2020_2020_2020;
    } else {
      assert TailBits(7) == 0x20_2020_2020_2020;
    }
  }

  /** The bytes of `p` and `q` agree once the case bits of the first `n` are set. */
  predicate Agree(p: Name, q: Name, n: nat) {
    |p| == |q| == 8 && forall i :: 0 <= i < 8 ==> Or(p[i], CaseBit(i, n)) == Or(q[i], CaseBit(i, n))
  }

  lemma {:induction false} WordFolds(p: Name, q: Name, n: nat)
    requires Agree(p, q, n)
    ensures Word(p) | CaseWord(n) == Word(q) | CaseWord(n)
  {
    hide WordOf, CaseBit, Or;
    WordWithCase(p, n);
    WordWithCase(q, n);
    assert Or(p[0], CaseBit(0, n)) == Or(q[0], CaseBit(0, n)) && Or(p[1], CaseBit(1, n)) == Or(q[1], CaseBit(1, n));
    assert Or(p[2], CaseBit(2, n)) == Or(q[2], CaseBit(2, n)) && Or(p[3], CaseBit(3, n)) == Or(q[3], CaseBit(3, n));
    assert Or(p[4], CaseBit(4, n)) == Or(q[4], CaseBit(4, n)) && Or(p[5], CaseBit(5, n)) == Or(q[5], CaseBit(5, n));
    assert Or(p[6], CaseBit(6, n)) == Or(q[6], CaseBit(6, n)) && Or(p[7], CaseBit(7, n)) == Or(q[7], CaseBit(7, n));
  }

  lemma {:induction false} WordWithCase(p: Name, n: nat)
    requires |p| == 8
    ensures Word(p) | CaseWord(n) ==
            WordOf(Or(p[0], CaseBit(0, n)), Or(p[1], CaseBit(1, n)), Or(p[2], CaseBit(2, n)), Or(p[3], CaseBit(3, n)),
                   Or(p[4], CaseBit(4, n)), Or(p[5], CaseBit(5, n)), Or(p[6], CaseBit(6, n)), Or(p[7], CaseBit(7, n)))
  {
    hide WordOf, CaseBit, Or;
    WordOr(p[0], p[1], p[2], p[3], p[4], p[5], p[6], p[7], CaseBit(0, n), CaseBit(1, n), CaseBit(2, n), CaseBit(3, n),
           CaseBit(4, n), CaseBit(5, n), CaseBit(6, n), CaseBit(7, n));
  }

  lemma {:induction false} WholeFolds(a: Name, b: Name)
    requires |a| == |b| == 8 && forall i :: 0 <= i < 8 ==> Or(a[i], 0x20) == Or(b[i], 0x20)
    ensures Word(a) | CASE_BIT == Word(b) | CASE_BIT
  {
    hide Word, CaseWord, Or;
    CaseWords();
    WordFolds(a, b, 8);
  }

  lemma {:induction false} PaddedAgree(a: Name, b: Name)
    requires 1 <= |a| == |b| < 8 && forall i :: 0 <= i < |a| ==> Or(a[i], 0x20) == Or(b[i], 0x20)
    ensures Agree(Padded(a), Padded(b), |a|)
  {
    hide Or;
    var p, q, n := Padded(a), Padded(b), |a|;
    forall i | 0 <= i < 8
      ensures Or(p[i], CaseBit(i, n)) == Or(q[i], CaseBit(i, n))
    {
      assert i < n ==> p[i] == a[i] && q[i] == b[i];
      assert i >= n ==> p[i] == q[i];
    }
  }

  lemma {:induction false} TailFolds(a: Name, b: Name)
    requires 1 <= |a| == |b| < 8 && forall i :: 0 <= i < |a| ==> Or(a[i], 0x20) == Or(b[i], 0x20)
    ensures Word(Padded(a)) | TailBits(|a|) == Word(Padded(b)) | TailBits(|b|)
  {
    hide Word, TailBits, CaseWord, Or, Agree, Padded;
    if |a| <= 4 {
      TailBitsLow(|a|);
    } else {
      TailBitsHigh(|a|);
    }
    PaddedAgree(a, b);
    WordFolds(Padded(a), Padded(b), |a|);
  }

  lemma {:induction false} HashFolds(h: bv64, a: Name, b: Name)
    requires SameFold(a, b)
    ensures HashFrom(h, a) == HashFrom(h, b)
    decreases |a|
  {
    hide Mix, Word, Padded, TailBits, Lower, Or;
    forall i | 0 <= i < |a|
      ensures Or(a[i], 0x20) == Or(b[i], 0x20)
    {
      SameCaseBit(a[i], b[i]);
    }
    if |a| >= 8 {
      WholeFolds(a[..8], b[..8]);
      HashFolds(Mix(h, Word(a[..8]) | CASE_BIT), a[8..], b[8..]);
    } else if a != [] {
      TailFolds(a, b);
    }
  }

  /** Strings equal up to ASCII case hash alike, whatever their length and alignment. */
  lemma {:induction false} EqualNamesHashAlike(a: Name, b: Name)
    requires SameFold(a, b)
    ensures FoldHash(a) == FoldHash(b)
  {
    HashFolds((|a| % 0x1_0000_0000_0000_0000) as bv64, a, b);
  }

  // ---- Keys ----

  datatype Key = Key(hash: bv64, name: Name)

  /** What every constructor establishes. */
  predicate KeyOk(k: Key) { k.hash == FoldHash(k.name) }

  /** `Key::eq`; `shared` says that the two names are the same allocation. */
  predicate KeyEq(a: Key, b: Key, shared: bool) {
    a.hash == b.hash && (shared || SameFold(a.name, b.name))
  }

  /** The hash guard and the pointer test never change the answer. */
  lemma {:induction false} KeyEqIsSameFold(a: Key, b: Key, shared: bool)
    requires KeyOk(a) && KeyOk(b) && (shared ==> a.name == b.name)
    ensures KeyEq(a, b, shared) <==> SameFold(a.name, b.name)
  {
    hide FoldHash;
    if SameFold(a.name, b.name) {
      EqualNamesHashAlike(a.name, b.name);
    }
  }

  lemma {:induction false} KeyEqEquivalence(a: Key, b: Key, c: Key)
    requires KeyOk(a) && KeyOk(b) && KeyOk(c)
    ensures KeyEq(a, a, false)
    ensures KeyEq(a, b, false) ==> KeyEq(b, a, false)
    ensures KeyEq(a, b, false) && KeyEq(b, c, false) ==> KeyEq(a, c, false)
  {
    hide FoldHash, KeyOk, Lower;
    KeyEqIsSameFold(a, a, false);
    KeyEqIsSameFold(a, b, false);
    KeyEqIsSameFold(b, a, false);
    KeyEqIsSameFold(b, c, false);
    KeyEqIsSameFold(a, c, false);
  }

  // ---- Ordering ----

  datatype Order = Less | Equal | Greater

  function Flipped(o: Order): Order {
    match o case Less => Greater case Equal => Equal case Greater => Less
  }

  function CompareBytes(x: bv8, y: bv8): Order {
    if x < y then Less else if x == y then Equal else Greater
  }

  /** Lexicographic on the lower-cased bytes, shorter first. */
  function Compare(a: Name, b: Name): Order {
    if a == [] then (if b == [] then Equal else Less)
    else if b == [] then Greater
    else if Lower(a[0]) != Lower(b[0]) then CompareBytes(Lower(a[0]), Lower(b[0]))
    else Compare(a[1..], b[1..])
  }

  /** `Key::cmp`. */
  method ComputeCompare(a: Name, b: Name) returns (o: Order)
    ensures o == Compare(a, b)
  {
    hide Lower;
    var n := if |a| < |b| then |a| else |b|;
    var i := 0;
    assert a[0..] == a && b[0..] == b;
    while i < n
      invariant 0 <= i <= n
      invariant Compare(a[i..], b[i..]) == Compare(a, b)
    {
      var x, y := Lower(a[i]), Lower(b[i]);
      if x != y {
        return CompareBytes(x, y);
      }
      assert a[i..][1..] == a[i + 1..] && b[i..][1..] == b[i + 1..];
      i := i + 1;
    }
    o := if |a| < |b| then Less else if |a| == |b| then Equal else Greater;
  }

  /** `Equal` exactly for names equal up to case, so ordering agrees with `Key` equality. */
  lemma {:induction false} CompareEqual(a: Name, b: Name)
    ensures Compare(a, b) == Equal <==> SameFold(a, b)
    decreases |a|
  {
    hide Lower;
    if a != [] && b != [] && Lower(a[0]) == Lower(b[0]) {
      CompareEqual(a[1..], b[1..]);
      if SameFold(a[1..], b[1..]) {
        assert forall i :: 1 <= i < |a| ==> a[i] == a[1..][i - 1] && b[i] == b[1..][i - 1];
      }
    }
  }

  lemma {:induction false} CompareFlips(a: Name, b: Name)
    ensures Compare(b, a) == Flipped(Compare(a, b))
    decreases |a|
  {
    hide Lower;
    if a != [] && b != [] && Lower(a[0]) == Lower(b[0]) {
      CompareFlips(a[1..], b[1..]);
    }
  }

  /** With `CompareFlips` and `CompareEqual`: a total order up to case. */
  lemma {:induction false} CompareTransitive(a: Name, b: Name, c: Name)
    requires !Compare(a, b).Greater? && !Compare(b, c).Greater?
    ensures !Compare(a, c).Greater?
    ensures Compare(a, b).Less? || Compare(b, c).Less? ==> Compare(a, c).Less?
    decreases |a|
  {
    hide Lower;
    if a != [] && b != [] && c != [] && Lower(a[0]) == Lower(b[0]) == Lower(c[0]) {
      CompareTransitive(a[1..], b[1..], c[1..]);
    }
  }

  /** Where the order comes from: the first byte in which the lower-cased names differ, or their lengths. */
  lemma {:induction false} FirstDifference(a: Name, b: Name, i: nat)
    requires i <= |a| && i <= |b| && forall k :: 0 <= k < i ==> Lower(a[k]) == Lower(b[k])
    ensures i < |a| && i < |b| && Lower(a[i]) < Lower(b[i]) ==> Compare(a, b) == Less
    ensures i < |a| && i < |b| && Lower(a[i]) > Lower(b[i]) ==> Compare(a, b) == Greater
    ensures i == |a| && i < |b| ==> Compare(a, b) == Less
    ensures i < |a| && i == |b| ==> Compare(a, b) == Greater
    ensures i == |a| == |b| ==> Compare(a, b) == Equal
    decreases i
  {
    hide Lower;
    if i > 0 {
      assert Lower(a[0]) == Lower(b[0]);
      FirstDifference(a[1..], b[1..], i - 1);
    }
  }

  /** Lower-casing turns 0x41 to 0x5A, the letters A to Z, into 0x61 to 0x7A, and leaves every other byte. */
  lemma {:induction false} LowerIs(b: bv8)
    ensures Lower(b) as int == if 0x41 <= b as int <= 0x5A then b as int + 0x20 else b as int
  {
    if 0x41 <= b <= 0x5A {
      LetterBit(b);
    }
  }

  lemma {:induction false} LetterBit(b: bv8)
    requires 0x41 <= b <= 0x5A
    ensures b | 0x20 == b + 0x20
  {
  }

  lemma {:induction false} MixOne()
    ensures Mix(1, 0x61) == 0xb0ad_2f80_efa4_afd5
  {
  }

  lemma {:induction false} MixEight()
    ensures Mix(8, 0x6867_6665_6463_6261) == 0x5ee5_339d_499c_a175
  {
  }

  lemma {:induction false} MixNine()
    ensures Mix(9, 0x6867_6665_6463_6261) == 0x2f4c_fcb8_655b_4ed5
  {
  }

  lemma {:induction false} MixLast()
    ensures Mix(0x2f4c_fcb8_655b_4ed5, 0x69) == 0x1104_814a_0a40_50bc
  {
  }

  lemma {:induction false} WordsAre()
    ensures WordOf(0x41, 0, 0, 0, 0, 0, 0, 0) == 0x41 && WordOf(0x69, 0, 0, 0, 0, 0, 0, 0) == 0x69
    ensures WordOf(0x41, 0x62, 0x63, 0x64, 0x65, 0x66, 0x67, 0x68) | CASE_BIT == 0x6867_6665_6463_6261
    ensures TailBits(1) == 0x20
    ensures (0x41 as bv64) | 0x20 == 0x61 && (0x69 as bv64) | 0x20 == 0x69
  {
  }

  lemma {:induction false} ShortHash(h: bv64, b: bv8)
    ensures HashFrom(h, [b]) == Mix(h, WordOf(b, 0, 0, 0, 0, 0, 0, 0) | TailBits(1))
  {
    hide Mix, WordOf, TailBits;
    assert Padded([b]) == [b, 0, 0, 0, 0, 0, 0, 0];
  }

  lemma {:induction false} WordHash(h: bv64, b: Name, rest: Name)
    requires |b| == 8
    ensures HashFrom(h, b + rest) == HashFrom(Mix(h, Word(b) | CASE_BIT), rest)
  {
    hide Mix, Word;
    assert (b + rest)[..8] == b && (b + rest)[8..] == rest;
  }

  /** "Abcdefgh". */
  const EIGHT: Name := [0x41, 0x62, 0x63, 0x64, 0x65, 0x66, 0x67, 0x68]

  /** The hash of the empty name, of part of a word, of a whole word, and of both. */
  lemma {:induction false} HashesAre()
    ensures FoldHash([]) == 0
    ensures FoldHash([0x41]) == 0xb0ad_2f80_efa4_afd5
    ensures FoldHash(EIGHT) == 0x5ee5_339d_499c_a175
    ensures FoldHash(EIGHT + [0x69]) == 0x1104_814a_0a40_50bc
  {
    hide FoldHash;
    EmptyHash();
    OneByteHash();
    EightByteHash();
    NineByteHash();
  }

  lemma {:induction false} EmptyHash()
    ensures FoldHash([]) == 0
  {
    hide HashFrom;
    NoHash(0);
  }

  lemma {:induction false} OneByteHash()
    ensures FoldHash([0x41]) == 0xb0ad_2f80_efa4_afd5
  {
    hide Mix, WordOf, TailBits, HashFrom, Word, FoldHash;
    MixOne();
    LettersAre();
    ShortHash(1, 0x41);
    Starts([0x41]);
    assert WordOf(0x41, 0, 0, 0, 0, 0, 0, 0) | TailBits(1) == 0x61;
  }

  /** The length goes in first. */
  lemma {:induction false} Starts(b: Name)
    ensures |b| == 1 ==> FoldHash(b) == HashFrom(1, b)
    ensures |b| == 8 ==> FoldHash(b) == HashFrom(8, b)
    ensures |b| == 9 ==> FoldHash(b) == HashFrom(9, b)
  {
    hide HashFrom;
    var n := |b| % 0x1_0000_0000_0000_0000;
    assert |b| <= 9 ==> n == |b|;
  }

  lemma {:induction false} LettersAre()
    ensures WordOf(0x41, 0, 0, 0, 0, 0, 0, 0) | TailBits(1) == 0x61 && WordOf(0x69, 0, 0, 0, 0, 0, 0, 0) | TailBits(1) == 0x69
  {
    WordsAre();
  }

  lemma {:induction false} EightIs()
    ensures Word(EIGHT) | CASE_BIT == 0x6867_6665_6463_6261
  {
    hide WordOf;
    WordsAre();
  }

  lemma {:induction false} EightLong()
    ensures |EIGHT| == 8
  {
  }

  lemma {:induction false} EightByteHash()
    ensures FoldHash(EIGHT) == 0x5ee5_339d_499c_a175
  {
    hide Mix, Word, HashFrom, CASE_BIT, EIGHT, FoldHash;
    MixEight();
    EightIs();
    EightLong();
    WordHash(8, EIGHT, []);
    assert EIGHT + [] == EIGHT;
    NoHash(Mix(8, Word(EIGHT) | CASE_BIT));
    Starts(EIGHT);
  }

  lemma {:induction false} NineByteHash()
    ensures FoldHash(EIGHT + [0x69]) == 0x1104_814a_0a40_50bc
  {
    hide Mix, Word, HashFrom, WordOf, TailBits, CASE_BIT, EIGHT, FoldHash;
    MixNine();
    MixLast();
    EightIs();
    EightLong();
    LettersAre();
    Starts(EIGHT + [0x69]);
    WordHash(9, EIGHT, [0x69]);
    ShortHash(0x2f4c_fcb8_655b_4ed5, 0x69);
  }

  lemma {:induction false} NoHash(h: bv64)
    ensures HashFrom(h, []) == h
  {
  }
}
