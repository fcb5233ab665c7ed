/**
 ASCII case folding, the notion of "same name" used by CFML variables, struct
 keys and method tables.
 */
module Names {

  function FoldChar(c: char): (r: char)
  {
    if 'A' <= c <= 'Z' then (c as int + 32) as char else c
  }

  /** `to_ascii_lowercase`. */
  function Fold(s: string): (r: string)
    ensures |r| == |s|
    ensures forall i :: 0 <= i < |s| ==> r[i] == FoldChar(s[i])
  {
    seq(|s|, i requires 0 <= i < |s| => FoldChar(s[i]))
  }

  /** `eq_ignore_ascii_case`. */
  predicate SameName(a: string, b: string) {
    Fold(a) == Fold(b)
  }

  /** A letter in its two cases. */
  predicate CasePair(upper: char, lower: char) {
    'A' <= upper <= 'Z' && 'a' <= lower <= 'z' && lower as int - 'a' as int == upper as int - 'A' as int
  }

  /** The same name: as long, and letter for letter the same up to the case of A to Z. */
  lemma {:induction false} SameNameExact(a: string, b: string)
    ensures SameName(a, b) <==>
            |a| == |b| && forall i :: 0 <= i < |a| ==> a[i] == b[i] || CasePair(a[i], b[i]) || CasePair(b[i], a[i])
  {
    if SameName(a, b) {
      forall i | 0 <= i < |a|
        ensures a[i] == b[i] || CasePair(a[i], b[i]) || CasePair(b[i], a[i])
      {
        assert Fold(a)[i] == Fold(b)[i];
      }
    }
  }

  datatype Option<+T> = None | Some(value: T)
}
