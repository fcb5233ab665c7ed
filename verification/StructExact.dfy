/**
 Whole struct literals: exactly when the tree means the assignments. Beside the tree
 the generator builds, one is kept that remembers, at every branch, the struct the
 branch was grown over. The literal means its assignments exactly when each of these
 structs has been grown over again, key for key.
 */
module StructExact {
  import opened Names
  import opened StructLiteral

  /** A branch with the fields that were there before it. */
  datatype Grown = Value(v: SVal) | Over(base: seq<Field>, kids: seq<Kid>)
  datatype Kid = Kid(key: string, node: Grown)

  function KidKeys(ks: seq<Kid>): (r: seq<string>)
    ensures |r| == |ks| && forall i :: 0 <= i < |ks| ==> r[i] == ks[i].key
  {
    seq(|ks|, i requires 0 <= i < |ks| => ks[i].key)
  }

  function PutKid(ks: seq<Kid>, key: string, n: Grown): seq<Kid> {
    match FindKey(KidKeys(ks), key)
    case Some(i) => ks[i := Kid(ks[i].key, n)]
    case None => ks + [Kid(key, n)]
  }

  /** What a path goes through at `key`: the branch there, or one over the struct there. */
  function Through(base: seq<Field>, ks: seq<Kid>, key: string): (r: Grown)
    ensures r.Over?
  {
    match FindKey(KidKeys(ks), key)
    case Some(i) => (match ks[i].node case Over(_, _) => ks[i].node case Value(v) => Over(Inner(v), []))
    case None => Over(Sub(base, key), [])
  }

  function Grow(base: seq<Field>, ks: seq<Kid>, path: seq<string>, v: SVal): seq<Kid>
    requires path != []
    decreases |path|
  {
    if |path| == 1 then PutKid(ks, path[0], Value(v))
    else
      var b := Through(base, ks, path[0]);
      PutKid(ks, path[0], Over(b.base, Grow(b.base, b.kids, path[1..], v)))
  }

  function GrowAll(pairs: seq<Pair>): seq<Kid>
    requires forall i :: 0 <= i < |pairs| ==> pairs[i].path != []
  {
    if pairs == [] then [] else
    var last := pairs[|pairs| - 1];
    Grow([], GrowAll(pairs[..|pairs| - 1]), last.path, last.value)
  }

  // ---- The tree the generator builds is this one without its memory ----

  function Plain(n: Grown): Node
    decreases n
  {
    match n case Value(v) => Leaf(v) case Over(_, ks) => Branch(PlainKids(ks))
  }

  function PlainKids(ks: seq<Kid>): (r: seq<Child>)
    ensures |r| == |ks|
    decreases ks
  {
    if ks == [] then [] else PlainKids(ks[..|ks| - 1]) + [Child(ks[|ks| - 1].key, Plain(ks[|ks| - 1].node))]
  }

  lemma {:induction false} PlainAt(ks: seq<Kid>, i: nat)
    requires i < |ks|
    ensures PlainKids(ks)[i] == Child(ks[i].key, Plain(ks[i].node))
    decreases |ks|
  {
    if i < |ks| - 1 {
      PlainAt(ks[..|ks| - 1], i);
    }
  }

  lemma {:induction false} PlainKeys(ks: seq<Kid>)
    ensures ChildKeys(PlainKids(ks)) == KidKeys(ks)
  {
    hide PlainKids;
    forall i | 0 <= i < |ks|
      ensures ChildKeys(PlainKids(ks))[i] == KidKeys(ks)[i]
    {
      PlainAt(ks, i);
    }
    PlainLength(ks);
  }

  lemma {:induction false} PlainLength(ks: seq<Kid>)
    ensures |PlainKids(ks)| == |ks|
  {
  }

  lemma {:induction false} PlainPut(ks: seq<Kid>, key: string, n: Grown)
    ensures PlainKids(PutKid(ks, key, n)) == PutChild(PlainKids(ks), key, Plain(n))
  {
    hide PlainKids, Plain, FindKey;
    PlainKeys(ks);
    PlainLength(ks);
    var r := PutKid(ks, key, n);
    PlainLength(r);
    forall i | 0 <= i < |r|
      ensures PlainKids(r)[i] == PutChild(PlainKids(ks), key, Plain(n))[i]
    {
      PlainAt(r, i);
      if i < |ks| {
        PlainAt(ks, i);
      }
    }
  }

  lemma {:induction false} PlainThrough(base: seq<Field>, ks: seq<Kid>, key: string)
    ensures PlainKids(Through(base, ks, key).kids) == Below(PlainKids(ks), key)
  {
    hide FindKey;
    PlainKeys(ks);
    FoundInside(KidKeys(ks), key);
    var r := FindKey(KidKeys(ks), key);
    if r.Some? {
      PlainAt(ks, r.value);
    }
  }

  lemma {:induction false} PlainGrow(base: seq<Field>, ks: seq<Kid>, path: seq<string>, v: SVal)
    requires path != []
    ensures PlainKids(Grow(base, ks, path, v)) == Insert(PlainKids(ks), path, v)
    decreases |path|
  {
    hide PlainKids, PutKid, PutChild, Below, Through;
    if |path| == 1 {
      PlainPut(ks, path[0], Value(v));
    } else {
      var b := Through(base, ks, path[0]);
      PlainThrough(base, ks, path[0]);
      PlainGrow(b.base, b.kids, path[1..], v);
      PlainPut(ks, path[0], Over(b.base, Grow(b.base, b.kids, path[1..], v)));
      PlainOver(b.base, Grow(b.base, b.kids, path[1..], v));
    }
  }

  lemma {:induction false} PlainOver(base: seq<Field>, ks: seq<Kid>)
    ensures Plain(Over(base, ks)) == Branch(PlainKids(ks))
  {
  }

  lemma {:induction false} PlainTree(pairs: seq<Pair>)
    requires forall i :: 0 <= i < |pairs| ==> pairs[i].path != []
    ensures PlainKids(GrowAll(pairs)) == InsertAll(pairs)
    decreases |pairs|
  {
    hide PlainKids, Grow, Insert;
    if pairs == [] {
      PlainLength([]);
    } else {
      var n := |pairs| - 1;
      PlainTree(pairs[..n]);
      PlainGrow([], GrowAll(pairs[..n]), pairs[n].path, pairs[n].value);
    }
  }

  // ---- With its memory it means the assignments ----

  function Meaning(n: Grown): SVal
    decreases n
  {
    match n case Value(v) => v case Over(base, ks) => Struct(Overlaid(base, ks))
  }

  /** The fields with every kid assigned, in order. */
  function Overlaid(base: seq<Field>, ks: seq<Kid>): seq<Field>
    decreases ks
  {
    if ks == [] then base
    else Put(Overlaid(base, ks[..|ks| - 1]), ks[|ks| - 1].key, Meaning(ks[|ks| - 1].node))
  }

  lemma {:induction false} UnfoldOverlaid(base: seq<Field>, ks: seq<Kid>, k: Kid)
    ensures Overlaid(base, []) == base
    ensures Overlaid(base, ks + [k]) == Put(Overlaid(base, ks), k.key, Meaning(k.node))
  {
    assert (ks + [k])[..|ks|] == ks;
  }

  lemma {:induction false} FoundPut(fs: seq<Field>, key: string, v: SVal)
    ensures var r := FindKey(FieldKeys(Put(fs, key, v)), key);
            && r.Some? && Put(fs, key, v)[r.value].value == v
            && r == (match FindKey(FieldKeys(fs), key) case Some(i) => Some(i) case None => Some(|fs|))
  {
    hide FindKey;
    var p := Put(fs, key, v);
    var at := match FindKey(FieldKeys(fs), key) case Some(i) => i case None => |fs|;
    FoundFirst(FieldKeys(fs), key);
    FirstFound(FieldKeys(p), key, at);
  }

  lemma {:induction false} FoundFirst(keys: seq<string>, key: string)
    ensures var r := FindKey(keys, key);
            && (r.Some? ==> r.value < |keys| && SameName(keys[r.value], key) && forall i :: 0 <= i < r.value ==> !SameName(keys[i], key))
            && (r.None? ==> forall i :: 0 <= i < |keys| ==> !SameName(keys[i], key))
  {
  }

  lemma {:induction false} FirstFound(keys: seq<string>, key: string, at: nat)
    requires at < |keys| && SameName(keys[at], key) && forall i :: 0 <= i < at ==> !SameName(keys[i], key)
    ensures FindKey(keys, key) == Some(at)
  {
    FoundFirst(keys, key);
    var r := FindKey(keys, key);
    assert r.Some?;
    assert !(r.value < at) && !(at < r.value);
  }

  /** Looking up another key is not disturbed. */
  lemma {:induction false} SubOther(fs: seq<Field>, key: string, v: SVal, other: string)
    requires !SameName(key, other)
    ensures Sub(Put(fs, key, v), other) == Sub(fs, other)
  {
    hide FindKey, Fold;
    var p := Put(fs, key, v);
    FoundFirst(FieldKeys(fs), key);
    FoundFirst(FieldKeys(fs), other);
    FoundFirst(FieldKeys(p), other);
    var r := FindKey(FieldKeys(fs), other);
    if r.Some? {
      FirstFound(FieldKeys(p), other, r.value);
    }
  }

  lemma {:induction false} SubPut(fs: seq<Field>, key: string, v: SVal, other: string)
    requires SameName(key, other)
    ensures Sub(Put(fs, key, v), other) == Inner(v)
  {
    hide FindKey;
    FoundPut(fs, key, v);
    SameFind(FieldKeys(Put(fs, key, v)), key, other);
  }

  lemma {:induction false} SameFind(keys: seq<string>, key: string, other: string)
    requires SameName(key, other)
    ensures FindKey(keys, key) == FindKey(keys, other)
    decreases |keys|
  {
    hide Fold;
    if keys != [] {
      SameFind(keys[1..], key, other);
    }
  }

  /** Assigning a key again replaces it where it is. */
  lemma {:induction false} PutTwice(fs: seq<Field>, key: string, x: SVal, again: string, z: SVal)
    requires SameName(key, again)
    ensures Put(Put(fs, key, x), again, z) == Put(fs, key, z)
  {
    hide FindKey, Fold;
    FoundPut(fs, key, x);
    SameFind(FieldKeys(Put(fs, key, x)), key, again);
  }

  /** What is under a key: the kid there, or what was there before. */
  lemma {:induction false} SubOverlaid(base: seq<Field>, ks: seq<Kid>, key: string)
    requires Distinct(KidKeys(ks))
    ensures Sub(Overlaid(base, ks), key) ==
            match FindKey(KidKeys(ks), key) case Some(i) => Inner(Meaning(ks[i].node)) case None => Sub(base, key)
    decreases |ks|
  {
    hide Meaning, Overlaid, Put, Sub, FindKey;
    if ks == [] {
      UnfoldOverlaid(base, [], Kid("", Value(Atom(0))));
      FoundFirst(KidKeys(ks), key);
    } else {
      var n := |ks| - 1;
      var front, k := ks[..n], ks[n];
      assert ks == front + [k];
      DistinctFront(ks);
      SubOverlaid(base, front, key);
      UnfoldOverlaid(base, front, k);
      FoundFirst(KidKeys(ks), key);
      FoundFirst(KidKeys(front), key);
      var fs := Overlaid(base, front);
      if SameName(k.key, key) {
        SubPut(fs, k.key, Meaning(k.node), key);
        forall i | 0 <= i < n
          ensures !SameName(KidKeys(ks)[i], key)
        {
          assert !SameName(KidKeys(ks)[i], KidKeys(ks)[n]);
        }
        FirstFound(KidKeys(ks), key, n);
      } else {
        SubOther(fs, k.key, Meaning(k.node), key);
        var r := FindKey(KidKeys(front), key);
        if r.Some? {
          FirstFound(KidKeys(ks), key, r.value);
        }
      }
    }
  }

  lemma {:induction false} DistinctFront(ks: seq<Kid>)
    requires ks != [] && Distinct(KidKeys(ks))
    ensures Distinct(KidKeys(ks[..|ks| - 1]))
    ensures forall i :: 0 <= i < |ks| - 1 ==> !SameName(ks[i].key, ks[|ks| - 1].key)
  {
    hide Fold;
    var keys := KidKeys(ks);
    assert forall i :: 0 <= i < |ks| - 1 ==> KidKeys(ks[..|ks| - 1])[i] == keys[i];
    forall i | 0 <= i < |ks| - 1
      ensures !SameName(ks[i].key, ks[|ks| - 1].key)
    {
      assert !SameName(keys[i], keys[|ks| - 1]);
    }
  }

  /** Replacing or adding a kid assigns its key. */
  lemma {:induction false} OverlaidPut(base: seq<Field>, ks: seq<Kid>, key: string, n: Grown)
    requires Distinct(KidKeys(ks))
    ensures Overlaid(base, PutKid(ks, key, n)) == Put(Overlaid(base, ks), key, Meaning(n))
    decreases |ks|
  {
    hide Meaning, Overlaid, Put, FindKey;
    var r := FindKey(KidKeys(ks), key);
    FoundFirst(KidKeys(ks), key);
    if r.None? {
      UnfoldOverlaid(base, ks, Kid(key, n));
    } else {
      var m := |ks| - 1;
      var front, k := ks[..m], ks[m];
      assert ks == front + [k];
      DistinctFront(ks);
      UnfoldOverlaid(base, front, k);
      FoundFirst(KidKeys(front), key);
      if r.value == m {
        assert PutKid(ks, key, n) == front + [Kid(k.key, n)];
        UnfoldOverlaid(base, front, Kid(k.key, n));
        PutTwice(Overlaid(base, front), k.key, Meaning(k.node), key, Meaning(n));
      } else {
        FirstFound(KidKeys(front), key, r.value);
        OverlaidPut(base, front, key, n);
        assert PutKid(ks, key, n) == PutKid(front, key, n) + [k];
        UnfoldOverlaid(base, PutKid(front, key, n), k);
        PutAcross(Overlaid(base, front), ks[r.value].key, key, k, Meaning(n), front, base, r.value);
      }
    }
  }

  /** Assigning a key that is already there, before or after another key's assignment. */
  lemma {:induction false} PutAcross(fs: seq<Field>, was: string, key: string, k: Kid, z: SVal, front: seq<Kid>, base: seq<Field>, i: nat)
    requires fs == Overlaid(base, front) && i < |front| && front[i].key == was && SameName(was, key) && !SameName(was, k.key)
    requires Distinct(KidKeys(front)) && FindKey(KidKeys(front), key) == Some(i)
    ensures Put(Put(fs, k.key, Meaning(k.node)), key, z) == Put(Put(fs, key, z), k.key, Meaning(k.node))
  {
    hide Meaning, Overlaid, Put, FindKey, Fold;
    KeyIsThere(base, front, i);
    SameKey(FieldKeys(fs), was, key);
    PutSwap(fs, key, z, k.key, Meaning(k.node));
  }

  lemma {:induction false} SameKey(keys: seq<string>, was: string, key: string)
    requires SameName(was, key) && FindKey(keys, was).Some?
    ensures FindKey(keys, key).Some?
  {
    SameFind(keys, was, key);
  }

  /** Two different keys, one of them present: the order of assigning them does not matter. */
  lemma {:induction false} PutSwap(fs: seq<Field>, key: string, x: SVal, other: string, y: SVal)
    requires FindKey(FieldKeys(fs), key).Some? && !SameName(key, other)
    ensures Put(Put(fs, other, y), key, x) == Put(Put(fs, key, x), other, y)
  {
    hide FindKey, Fold;
    FoundFirst(FieldKeys(fs), key);
    FoundFirst(FieldKeys(fs), other);
    var at := FindKey(FieldKeys(fs), key).value;
    var p, q := Put(fs, other, y), Put(fs, key, x);
    assert FieldKeys(q) == FieldKeys(fs);
    forall i | 0 <= i < at
      ensures !SameName(FieldKeys(p)[i], key)
    {
      assert FieldKeys(p)[i] == FieldKeys(fs)[i];
    }
    assert FieldKeys(p)[at] == FieldKeys(fs)[at];
    FirstFound(FieldKeys(p), key, at);
  }

  /** Every kid's key is among the fields. */
  lemma {:induction false} KeyIsThere(base: seq<Field>, ks: seq<Kid>, i: nat)
    requires i < |ks|
    ensures FindKey(FieldKeys(Overlaid(base, ks)), ks[i].key).Some?
    decreases |ks|
  {
    hide Meaning, Overlaid, Put, FindKey, Fold;
    var n := |ks| - 1;
    var front, k := ks[..n], ks[n];
    assert ks == front + [k];
    UnfoldOverlaid(base, front, k);
    if i == n {
      FoundPut(Overlaid(base, front), k.key, Meaning(k.node));
    } else {
      KeyIsThere(base, front, i);
      StillThere(Overlaid(base, front), k.key, Meaning(k.node), ks[i].key);
    }
  }

  lemma {:induction false} StillThere(fs: seq<Field>, key: string, v: SVal, other: string)
    requires FindKey(FieldKeys(fs), other).Some?
    ensures FindKey(FieldKeys(Put(fs, key, v)), other).Some?
  {
    hide FindKey, Fold;
    FoundFirst(FieldKeys(fs), other);
    var i := FindKey(FieldKeys(fs), other).value;
    FoundFirst(FieldKeys(fs), key);
    FoundFirst(FieldKeys(Put(fs, key, v)), other);
    assert FieldKeys(Put(fs, key, v))[i] == FieldKeys(fs)[i];
  }

  // ---- Trees as they grow ----

  /** At every branch, the kids are distinct and so are the fields it was grown over. */
  predicate Sound(n: Grown)
    decreases n
  {
    match n
    case Value(v) => Keyed(v)
    case Over(base, ks) => KeyedFields(base) && Distinct(KidKeys(ks)) && forall i :: 0 <= i < |ks| ==> Sound(ks[i].node)
  }

  /** A struct's keys are distinct up to case, at every level. */
  predicate Keyed(v: SVal)
    decreases v
  {
    match v case Atom(_) => true case Struct(fs) => KeyedFields(fs)
  }

  predicate KeyedFields(fs: seq<Field>)
    decreases fs
  {
    Distinct(FieldKeys(fs)) && forall i :: 0 <= i < |fs| ==> Keyed(fs[i].value)
  }

  lemma {:induction false} SoundSub(base: seq<Field>, key: string)
    requires KeyedFields(base)
    ensures KeyedFields(Sub(base, key))
  {
    hide FindKey, Fold;
    FoundFirst(FieldKeys(base), key);
    var r := FindKey(FieldKeys(base), key);
    if r.Some? {
      assert Keyed(base[r.value].value);
    }
  }

  lemma {:induction false} SoundThrough(base: seq<Field>, ks: seq<Kid>, key: string)
    requires Sound(Over(base, ks))
    ensures Sound(Through(base, ks, key))
  {
    hide FindKey, Fold;
    FoundFirst(KidKeys(ks), key);
    var r := FindKey(KidKeys(ks), key);
    if r.Some? {
      assert Sound(ks[r.value].node);
    } else {
      SoundSub(base, key);
    }
  }

  lemma {:induction false} SoundPut(base: seq<Field>, ks: seq<Kid>, key: string, n: Grown)
    requires Sound(Over(base, ks)) && Sound(n)
    ensures Sound(Over(base, PutKid(ks, key, n)))
  {
    hide FindKey, Fold, KeyedFields;
    FoundFirst(KidKeys(ks), key);
    var r := PutKid(ks, key, n);
    forall i, j | 0 <= i < j < |r|
      ensures !SameName(KidKeys(r)[i], KidKeys(r)[j])
    {
      assert j < |ks| ==> !SameName(KidKeys(ks)[i], KidKeys(ks)[j]);
    }
    forall i | 0 <= i < |r|
      ensures Sound(r[i].node)
    {
      assert i < |ks| ==> Sound(ks[i].node);
    }
  }

  lemma {:induction false} GrowSound(base: seq<Field>, ks: seq<Kid>, path: seq<string>, v: SVal)
    requires path != [] && Sound(Over(base, ks)) && Keyed(v)
    ensures Sound(Over(base, Grow(base, ks, path, v)))
    decreases |path|
  {
    hide PutKid, Through, KeyedFields;
    if |path| == 1 {
      hide Sound;
      SoundValue(v);
      SoundPut(base, ks, path[0], Value(v));
    } else {
      hide Sound;
      var b := Through(base, ks, path[0]);
      SoundThrough(base, ks, path[0]);
      assert b == Over(b.base, b.kids);
      GrowSound(b.base, b.kids, path[1..], v);
      SoundPut(base, ks, path[0], Over(b.base, Grow(b.base, b.kids, path[1..], v)));
    }
  }

  lemma {:induction false} SoundValue(v: SVal)
    requires Keyed(v)
    ensures Sound(Value(v))
  {
  }

  lemma {:induction false} SoundParts(base: seq<Field>, ks: seq<Kid>)
    requires Sound(Over(base, ks))
    ensures KeyedFields(base) && Distinct(KidKeys(ks)) && forall i :: 0 <= i < |ks| ==> Sound(ks[i].node)
  {
  }

  /** Growing along a path assigns it. */
  lemma {:induction false} GrowAssigns(base: seq<Field>, ks: seq<Kid>, path: seq<string>, v: SVal)
    requires path != [] && Sound(Over(base, ks))
    ensures Overlaid(base, Grow(base, ks, path, v)) == SetPath(Overlaid(base, ks), path, v)
    decreases |path|
  {
    hide PutKid, Through, KeyedFields, Overlaid, Put, Sub, Sound, Meaning;
    SoundParts(base, ks);
    if |path| == 1 {
      OverlaidPut(base, ks, path[0], Value(v));
      MeaningOf(Value(v));
    } else {
      var b := Through(base, ks, path[0]);
      SoundThrough(base, ks, path[0]);
      assert b == Over(b.base, b.kids);
      GrowAssigns(b.base, b.kids, path[1..], v);
      ThroughMeans(base, ks, path[0]);
      var n := Over(b.base, Grow(b.base, b.kids, path[1..], v));
      OverlaidPut(base, ks, path[0], n);
      MeaningOf(n);
    }
  }

  lemma {:induction false} MeaningOf(n: Grown)
    ensures Meaning(n) == match n case Value(v) => v case Over(base, ks) => Struct(Overlaid(base, ks))
  {
  }

  lemma {:induction false} ThroughMeans(base: seq<Field>, ks: seq<Kid>, key: string)
    requires Distinct(KidKeys(ks))
    ensures var b := Through(base, ks, key); Overlaid(b.base, b.kids) == Sub(Overlaid(base, ks), key)
  {
    hide FindKey, Sub, Overlaid, Meaning;
    SubOverlaid(base, ks, key);
    FoundFirst(KidKeys(ks), key);
    var r := FindKey(KidKeys(ks), key);
    if r.Some? {
      MeaningOf(ks[r.value].node);
      UnfoldOverlaid(Inner(if ks[r.value].node.Value? then ks[r.value].node.v else Atom(0)), [], Kid("", Value(Atom(0))));
    } else {
      UnfoldOverlaid(Sub(base, key), [], Kid("", Value(Atom(0))));
    }
  }

  lemma {:induction false} TreeAssigns(pairs: seq<Pair>)
    requires forall i :: 0 <= i < |pairs| ==> pairs[i].path != [] && Keyed(pairs[i].value)
    ensures Overlaid([], GrowAll(pairs)) == SetAll(pairs) && Sound(Over([], GrowAll(pairs)))
    decreases |pairs|
  {
    hide Overlaid, Grow, SetPath, Sound, Keyed;
    if pairs == [] {
      UnfoldOverlaid([], [], Kid("", Value(Atom(0))));
      NothingSound();
    } else {
      var n := |pairs| - 1;
      TreeAssigns(pairs[..n]);
      GrowAssigns([], GrowAll(pairs[..n]), pairs[n].path, pairs[n].value);
      GrowSound([], GrowAll(pairs[..n]), pairs[n].path, pairs[n].value);
    }
  }

  lemma {:induction false} NothingSound()
    ensures Sound(Over([], []))
  {
  }

  // ---- When the memory does not matter ----

  /** Each branch spells again, first and in order, the keys of the struct it was grown over. */
  predicate Regrown(n: Grown)
    decreases n
  {
    n.Over? ==> FieldKeys(n.base) <= KidKeys(n.kids) && forall i :: 0 <= i < |n.kids| ==> Regrown(n.kids[i].node)
  }

  /** The keys after overlaying: those there before, then the kids that are new. */
  lemma {:induction false} OverlaidKeys(base: seq<Field>, ks: seq<Kid>)
    requires Distinct(KidKeys(ks)) && Distinct(FieldKeys(base))
    ensures |Overlaid(base, ks)| >= |base|
    ensures FieldKeys(Overlaid(base, ks))[..|base|] == FieldKeys(base)
    ensures FieldKeys(base) <= KidKeys(ks) ==> FieldKeys(Overlaid(base, ks)) == KidKeys(ks)
    ensures KidKeys(ks) <= FieldKeys(base) ==> FieldKeys(Overlaid(base, ks)) == FieldKeys(base)
    decreases |ks|
  {
    hide Meaning, Overlaid, Put, FindKey, Fold;
    if ks == [] {
      UnfoldOverlaid(base, [], Kid("", Value(Atom(0))));
    } else {
      var n := |ks| - 1;
      var front, k := ks[..n], ks[n];
      assert ks == front + [k];
      DistinctFront(ks);
      OverlaidKeys(base, front);
      UnfoldOverlaid(base, front, k);
      var fs := Overlaid(base, front);
      PutKeys(fs, k.key, Meaning(k.node));
      assert KidKeys(ks) == KidKeys(front) + [k.key];
      if KidKeys(ks) <= FieldKeys(base) {
        assert FieldKeys(base)[n] == k.key;
        ThereAlready(FieldKeys(fs), n, k.key);
      } else if FieldKeys(base) <= KidKeys(ks) {
        assert FieldKeys(base) == KidKeys(ks)[..|base|];
        assert |base| <= n;
        assert FieldKeys(base) <= KidKeys(front);
        NotThere(KidKeys(front), k.key);
      }
    }
  }

  lemma {:induction false} PutKeys(fs: seq<Field>, key: string, v: SVal)
    ensures FieldKeys(Put(fs, key, v)) == if FindKey(FieldKeys(fs), key).Some? then FieldKeys(fs) else FieldKeys(fs) + [key]
  {
    hide FindKey;
    FoundFirst(FieldKeys(fs), key);
  }

  lemma {:induction false} ThereAlready(keys: seq<string>, n: nat, key: string)
    requires n < |keys| && keys[n] == key
    ensures FindKey(keys, key).Some?
  {
    FoundFirst(keys, key);
  }

  lemma {:induction false} NotThere(keys: seq<string>, key: string)
    requires forall i :: 0 <= i < |keys| ==> !SameName(keys[i], key)
    ensures FindKey(keys, key).None?
  {
    FoundFirst(keys, key);
  }

  /** Each kid's value is what it means. */
  lemma {:induction false} OverlaidValue(base: seq<Field>, ks: seq<Kid>, i: nat)
    requires Distinct(KidKeys(ks)) && Distinct(FieldKeys(base)) && FieldKeys(base) <= KidKeys(ks) && i < |ks|
    ensures |Overlaid(base, ks)| == |ks| && Overlaid(base, ks)[i] == Field(ks[i].key, Meaning(ks[i].node))
  {
    hide Meaning, Overlaid, Put, FindKey, Fold;
    OverlaidKeys(base, ks);
    var fs := Overlaid(base, ks);
    assert FieldKeys(fs)[i] == KidKeys(ks)[i];
    KidValue(base, ks, i);
    FirstOfDistinct(KidKeys(ks), i);
  }

  lemma {:induction false} FirstOfDistinct(keys: seq<string>, i: nat)
    requires Distinct(keys) && i < |keys|
    ensures FindKey(keys, keys[i]) == Some(i)
  {
    FirstFound(keys, keys[i], i);
  }

  lemma {:induction false} KidValue(base: seq<Field>, ks: seq<Kid>, i: nat)
    requires Distinct(KidKeys(ks)) && i < |ks|
    ensures var fs := Overlaid(base, ks);
            var r := FindKey(FieldKeys(fs), ks[i].key);
            r.Some? && r.value < |fs| && fs[r.value].value == Meaning(ks[i].node)
    decreases |ks|
  {
    hide Meaning, Overlaid, FindKey, Fold;
    var n := |ks| - 1;
    var front, k := ks[..n], ks[n];
    assert ks == front + [k];
    DistinctFront(ks);
    UnfoldOverlaid(base, front, k);
    var fs := Overlaid(base, front);
    FoundPut(fs, k.key, Meaning(k.node));
    FoundFirst(FieldKeys(Put(fs, k.key, Meaning(k.node))), k.key);
    if i < n {
      KidValue(base, front, i);
      FoundFirst(FieldKeys(fs), ks[i].key);
      FoundFirst(FieldKeys(fs), k.key);
      FirstFound(FieldKeys(Put(fs, k.key, Meaning(k.node))), ks[i].key, FindKey(FieldKeys(fs), ks[i].key).value);
    }
  }

  /** A grown tree means what it stands for without its memory exactly when everything was grown over again. */
  lemma {:induction false} MemoryExact(n: Grown)
    requires Sound(n)
    ensures Meaning(n) == ValueOf(Plain(n)) <==> Regrown(n)
    decreases n, 1
  {
    match n {
      case Value(v) =>
      case Over(base, ks) =>
        hide Meaning, Plain, ValueOf, Overlaid, Build, Sound, Regrown;
        SoundParts(base, ks);
        MeaningOf(n);
        PlainOver(base, ks);
        BuildOf(PlainKids(ks));
        RegrownOf(base, ks);
        OverExact(base, ks);
    }
  }

  lemma {:induction false} BuildOf(cs: seq<Child>)
    ensures ValueOf(Branch(cs)) == Struct(Build(cs))
  {
  }

  lemma {:induction false} RegrownOf(base: seq<Field>, ks: seq<Kid>)
    ensures Regrown(Over(base, ks)) <==> FieldKeys(base) <= KidKeys(ks) && forall i :: 0 <= i < |ks| ==> Regrown(ks[i].node)
  {
  }

  lemma {:induction false} OverExact(base: seq<Field>, ks: seq<Kid>)
    requires KeyedFields(base) && Distinct(KidKeys(ks)) && forall i :: 0 <= i < |ks| ==> Sound(ks[i].node)
    ensures Overlaid(base, ks) == Build(PlainKids(ks)) <==>
            FieldKeys(base) <= KidKeys(ks) && forall i :: 0 <= i < |ks| ==> Regrown(ks[i].node)
    decreases ks, 0
  {
    hide Meaning, Plain, ValueOf, Overlaid, Build, Sound, Regrown, PlainKids, Fold;
    OverlaidKeys(base, ks);
    BuildKeys(PlainKids(ks));
    PlainKeys(ks);
    BuildLength(PlainKids(ks));
    PlainLength(ks);
    if Overlaid(base, ks) == Build(PlainKids(ks)) {
      assert FieldKeys(base) == KidKeys(ks)[..|base|];
    }
    if FieldKeys(base) <= KidKeys(ks) {
      forall i | 0 <= i < |ks|
        ensures |Overlaid(base, ks)| == |ks|
        ensures Overlaid(base, ks)[i] == Build(PlainKids(ks))[i] <==> Regrown(ks[i].node)
      {
        OverlaidValue(base, ks, i);
        PlainAt(ks, i);
        BuildAt(PlainKids(ks), i);
        MemoryExact(ks[i].node);
      }
      SameFields(base, ks);
    }
  }

  lemma {:induction false} SameFields(base: seq<Field>, ks: seq<Kid>)
    requires |Build(PlainKids(ks))| == |ks| && (ks != [] ==> |Overlaid(base, ks)| == |ks|)
    requires FieldKeys(base) <= KidKeys(ks)
    requires forall i :: 0 <= i < |ks| ==> |Overlaid(base, ks)| == |ks| && (Overlaid(base, ks)[i] == Build(PlainKids(ks))[i] <==> Regrown(ks[i].node))
    ensures Overlaid(base, ks) == Build(PlainKids(ks)) <==> forall i :: 0 <= i < |ks| ==> Regrown(ks[i].node)
  {
    hide Overlaid, Build, Regrown, PlainKids;
    if ks == [] {
      UnfoldOverlaid(base, [], Kid("", Value(Atom(0))));
    }
  }

  /**
   A whole literal builds what assigning its pairs left to right builds exactly when every
   struct that was grown over has been grown over again, key for key.
   */
  lemma {:induction false} LiteralExact(pairs: seq<Pair>)
    requires forall i :: 0 <= i < |pairs| ==> pairs[i].path != [] && Keyed(pairs[i].value)
    ensures Build(InsertAll(pairs)) == SetAll(pairs) <==> Regrown(Over([], GrowAll(pairs)))
  {
    hide Keyed, Build, Overlaid, Sound, Regrown, PlainKids, Meaning, Plain, ValueOf;
    PlainTree(pairs);
    TreeAssigns(pairs);
    var n := Over([], GrowAll(pairs));
    MemoryExact(n);
    MeaningOf(n);
    PlainOver([], GrowAll(pairs));
    BuildOf(PlainKids(GrowAll(pairs)));
  }

  /** So the literal's code leaves what its assignments build exactly then. */
  lemma {:induction false} LiteralCodeExact(pairs: seq<Pair>, stack: seq<SVal>)
    requires forall i :: 0 <= i < |pairs| ==> pairs[i].path != [] && Keyed(pairs[i].value)
    ensures RunOps(EmitTree(InsertAll(pairs)), stack) == stack + [Struct(SetAll(pairs))] <==> Regrown(Over([], GrowAll(pairs)))
  {
    hide RunOps, EmitTree, Build, WellKeyed, SetAll, InsertAll, GrowAll, Regrown, Keyed;
    TreeKeyed(pairs);
    TreeEmitted(InsertAll(pairs), stack);
    LiteralExact(pairs);
    var a, b := stack + [Struct(Build(InsertAll(pairs)))], stack + [Struct(SetAll(pairs))];
    assert a[|stack|] == Struct(Build(InsertAll(pairs))) && b[|stack|] == Struct(SetAll(pairs));
  }

  // ---- What an assignment leaves ----

  function Get(fs: seq<Field>, path: seq<string>): Option<SVal>
    requires path != []
    decreases |path|
  {
    match FindKey(FieldKeys(fs), path[0])
    case None => None
    case Some(i) =>
      if |path| == 1 then Some(fs[i].value)
      else match fs[i].value case Struct(inner) => Get(inner, path[1..]) case Atom(_) => None
  }

  /** The value is read back along its path; paths that begin with another key, and all spellings and places, are left alone. */
  lemma {:induction false} ReadBack(fs: seq<Field>, path: seq<string>, v: SVal, other: seq<string>)
    requires path != [] && other != []
    ensures Get(SetPath(fs, path, v), path) == Some(v)
    ensures !SameName(path[0], other[0]) ==> Get(SetPath(fs, path, v), other) == Get(fs, other)
    ensures var keys := FieldKeys(fs);
            FieldKeys(SetPath(fs, path, v)) == if FindKey(keys, path[0]).Some? then keys else keys + [path[0]]
    decreases |path|
  {
    hide FindKey, Fold, Put;
    var x := if |path| == 1 then v else Struct(SetPath(Sub(fs, path[0]), path[1..], v));
    assert SetPath(fs, path, v) == Put(fs, path[0], x);
    FoundPut(fs, path[0], x);
    PutKeys(fs, path[0], x);
    if |path| > 1 {
      ReadBack(Sub(fs, path[0]), path[1..], v, path[1..]);
    }
    if !SameName(path[0], other[0]) {
      GetOther(fs, path[0], x, other);
    }
  }

  lemma {:induction false} GetOther(fs: seq<Field>, key: string, v: SVal, other: seq<string>)
    requires other != [] && !SameName(key, other[0])
    ensures Get(Put(fs, key, v), other) == Get(fs, other)
  {
    hide FindKey, Fold;
    var p := Put(fs, key, v);
    FoundFirst(FieldKeys(fs), key);
    FoundFirst(FieldKeys(fs), other[0]);
    FoundFirst(FieldKeys(p), other[0]);
    var r := FindKey(FieldKeys(fs), other[0]);
    if r.Some? {
      FirstFound(FieldKeys(p), other[0], r.value);
    }
  }
}
