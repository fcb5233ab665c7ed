/**
 Structural equality of two values on a heap of possibly cyclic containers. The
 walk keeps the set of container pairs it has met; it is proved to answer
 "equal" exactly when the values are bisimilar, and bisimilarity is proved to be
 an equivalence relation.
 */
module DeepEqual {
  import opened Names

  type Handle = nat

  /** A value: a container or component instance by handle, anything else by its string form. */
  datatype Val =
    | Scalar(text: string)
    | Instance(id: Handle)
    | StructRef(h: Handle)
    | ArrayRef(h: Handle)
    | QueryRef(h: Handle)

  datatype Entry = Entry(key: string, value: Val)

  datatype Node =
    | StructNode(entries: seq<Entry>)
    | ArrayNode(items: seq<Val>)
    | QueryNode(columns: seq<string>, rows: nat, data: seq<seq<Val>>)

  type Heap = map<Handle, Node>
  type Pairs = set<(Handle, Handle)>

  // ---- Well-formed heaps ----

  predicate ValOk(heap: Heap, v: Val) {
    match v
    case StructRef(h) => h in heap && heap[h].StructNode?
    case ArrayRef(h) => h in heap && heap[h].ArrayNode?
    case QueryRef(h) => h in heap && heap[h].QueryNode?
    case _ => true
  }

  predicate DistinctKeys(es: seq<Entry>) {
    forall i, j :: 0 <= i < j < |es| ==> !SameName(es[i].key, es[j].key)
  }

  predicate NodeOk(heap: Heap, n: Node) {
    match n
    case StructNode(es) => DistinctKeys(es) && forall i :: 0 <= i < |es| ==> ValOk(heap, es[i].value)
    case ArrayNode(xs) => forall i :: 0 <= i < |xs| ==> ValOk(heap, xs[i])
    case QueryNode(cols, rows, data) =>
      && |data| == |cols|
      && (forall c :: 0 <= c < |data| ==> |data[c]| == rows)
      && (forall c, r :: 0 <= c < |data| && 0 <= r < rows ==> ValOk(heap, data[c][r]))
  }

  predicate WellFormed(heap: Heap) {
    forall h :: h in heap ==> NodeOk(heap, heap[h])
  }

  // ---- Bisimilarity ----

  predicate SameText(nocase: bool, a: string, b: string) {
    if nocase then SameName(a, b) else a == b
  }

  ghost predicate Related(R: Pairs, nocase: bool, a: Val, b: Val) {
    match (a, b)
    case (Scalar(s), Scalar(t)) => SameText(nocase, s, t)
    case (Instance(i), Instance(j)) => i == j
    case (StructRef(h), StructRef(g)) => (h, g) in R
    case (ArrayRef(h), ArrayRef(g)) => (h, g) in R
    case (QueryRef(h), QueryRef(g)) => (h, g) in R
    case _ => false
  }

  ghost function Keys(es: seq<Entry>): set<string> {
    set i | 0 <= i < |es| :: Fold(es[i].key)
  }

  /** Structs have the same keys up to case, with related values under each. */
  ghost predicate StructsMatch(R: Pairs, nocase: bool, a: seq<Entry>, b: seq<Entry>) {
    && Keys(a) == Keys(b)
    && forall i, j :: 0 <= i < |a| && 0 <= j < |b| && SameName(a[i].key, b[j].key) ==>
                      Related(R, nocase, a[i].value, b[j].value)
  }

  ghost predicate ItemsMatch(R: Pairs, nocase: bool, a: seq<Val>, b: seq<Val>) {
    |a| == |b| && forall i :: 0 <= i < |a| ==> Related(R, nocase, a[i], b[i])
  }

  ghost predicate NodesMatch(R: Pairs, nocase: bool, m: Node, n: Node) {
    match (m, n)
    case (StructNode(a), StructNode(b)) => StructsMatch(R, nocase, a, b)
    case (ArrayNode(a), ArrayNode(b)) => ItemsMatch(R, nocase, a, b)
    case (QueryNode(c, r, a), QueryNode(d, s, b)) =>
      && |c| == |d| && r == s && |a| == |b|
      && (forall i :: 0 <= i < |c| ==> SameName(c[i], d[i]))
      && (forall i :: 0 <= i < |a| ==> ItemsMatch(R, nocase, a[i], b[i]))
    case _ => false
  }

  /** Every related pair of containers matches, children related again. */
  ghost predicate IsBisimulation(heap: Heap, R: Pairs, nocase: bool) {
    forall p :: p in R ==> p.0 in heap && p.1 in heap && NodesMatch(R, nocase, heap[p.0], heap[p.1])
  }

  ghost predicate Bisimilar(heap: Heap, nocase: bool, a: Val, b: Val) {
    exists R :: IsBisimulation(heap, R, nocase) && Related(R, nocase, a, b)
  }

  // ---- Bisimilarity is an equivalence ----

  ghost function Identity(heap: Heap): Pairs {
    set h | h in heap :: (h, h)
  }

  lemma {:induction false} RelatedToItself(heap: Heap, nocase: bool, v: Val)
    requires ValOk(heap, v)
    ensures Related(Identity(heap), nocase, v, v)
  {
  }

  lemma {:induction false} MatchesItself(heap: Heap, nocase: bool, n: Node)
    requires NodeOk(heap, n)
    ensures NodesMatch(Identity(heap), nocase, n, n)
  {
    hide Related, ValOk;
    match n {
      case StructNode(es) =>
        forall i, j | 0 <= i < |es| && 0 <= j < |es| && SameName(es[i].key, es[j].key)
          ensures Related(Identity(heap), nocase, es[i].value, es[j].value)
        {
          assert i == j;
          RelatedToItself(heap, nocase, es[i].value);
        }
      case ArrayNode(xs) =>
        forall i | 0 <= i < |xs|
          ensures Related(Identity(heap), nocase, xs[i], xs[i])
        {
          RelatedToItself(heap, nocase, xs[i]);
        }
      case QueryNode(cols, rows, data) =>
        forall c, r | 0 <= c < |data| && 0 <= r < |data[c]|
          ensures Related(Identity(heap), nocase, data[c][r], data[c][r])
        {
          RelatedToItself(heap, nocase, data[c][r]);
        }
    }
  }

  lemma {:induction false} Reflexive(heap: Heap, nocase: bool, v: Val)
    requires WellFormed(heap) && ValOk(heap, v)
    ensures Bisimilar(heap, nocase, v, v)
  {
    hide NodesMatch, NodeOk;
    var R := Identity(heap);
    forall p | p in R
      ensures p.0 in heap && p.1 in heap && NodesMatch(R, nocase, heap[p.0], heap[p.1])
    {
      MatchesItself(heap, nocase, heap[p.0]);
    }
    RelatedToItself(heap, nocase, v);
    assert IsBisimulation(heap, R, nocase);
  }

  ghost function Inverse(R: Pairs): Pairs {
    set p | p in R :: (p.1, p.0)
  }

  lemma {:induction false} RelatedInverse(R: Pairs, nocase: bool, a: Val, b: Val)
    requires Related(R, nocase, a, b)
    ensures Related(Inverse(R), nocase, b, a)
  {
    match (a, b) {
      case (StructRef(h), StructRef(g)) => assert (h, g) in R;
      case (ArrayRef(h), ArrayRef(g)) => assert (h, g) in R;
      case (QueryRef(h), QueryRef(g)) => assert (h, g) in R;
      case _ =>
    }
  }

  lemma {:induction false} ItemsInverse(R: Pairs, nocase: bool, a: seq<Val>, b: seq<Val>)
    requires ItemsMatch(R, nocase, a, b)
    ensures ItemsMatch(Inverse(R), nocase, b, a)
  {
    hide Related;
    forall i | 0 <= i < |a|
      ensures Related(Inverse(R), nocase, b[i], a[i])
    {
      RelatedInverse(R, nocase, a[i], b[i]);
    }
  }

  lemma {:induction false} MatchInverse(R: Pairs, nocase: bool, m: Node, n: Node)
    requires NodesMatch(R, nocase, m, n)
    ensures NodesMatch(Inverse(R), nocase, n, m)
  {
    hide Related, ItemsMatch, Inverse;
    match (m, n) {
      case (StructNode(a), StructNode(b)) =>
        forall i, j | 0 <= i < |b| && 0 <= j < |a| && SameName(b[i].key, a[j].key)
          ensures Related(Inverse(R), nocase, b[i].value, a[j].value)
        {
          RelatedInverse(R, nocase, a[j].value, b[i].value);
        }
      case (ArrayNode(a), ArrayNode(b)) => ItemsInverse(R, nocase, a, b);
      case (QueryNode(c, r, a), QueryNode(d, s, b)) =>
        forall i | 0 <= i < |a|
          ensures ItemsMatch(Inverse(R), nocase, b[i], a[i])
        {
          ItemsInverse(R, nocase, a[i], b[i]);
        }
      case _ =>
    }
  }

  lemma {:induction false} Symmetric(heap: Heap, nocase: bool, a: Val, b: Val)
    requires Bisimilar(heap, nocase, a, b)
    ensures Bisimilar(heap, nocase, b, a)
  {
    hide NodesMatch, Related;
    var R :| IsBisimulation(heap, R, nocase) && Related(R, nocase, a, b);
    var S := Inverse(R);
    forall p | p in S
      ensures p.0 in heap && p.1 in heap && NodesMatch(S, nocase, heap[p.0], heap[p.1])
    {
      assert (p.1, p.0) in R;
      MatchInverse(R, nocase, heap[p.1], heap[p.0]);
    }
    RelatedInverse(R, nocase, a, b);
    assert IsBisimulation(heap, S, nocase);
  }

  ghost function Composed(R: Pairs, S: Pairs): Pairs {
    set p, q | p in R && q in S && p.1 == q.0 :: (p.0, q.1)
  }

  lemma {:induction false} InComposed(R: Pairs, S: Pairs, x: Handle, y: Handle, z: Handle)
    requires (x, y) in R && (y, z) in S
    ensures (x, z) in Composed(R, S)
  {
    var p, q := (x, y), (y, z);
    assert p in R && q in S && p.1 == q.0;
  }

  lemma {:induction false} RelatedComposed(R: Pairs, S: Pairs, nocase: bool, a: Val, b: Val, c: Val)
    requires Related(R, nocase, a, b) && Related(S, nocase, b, c)
    ensures Related(Composed(R, S), nocase, a, c)
  {
    if a.StructRef? || a.ArrayRef? || a.QueryRef? {
      InComposed(R, S, a.h, b.h, c.h);
    }
  }

  lemma {:induction false} ItemsComposed(R: Pairs, S: Pairs, nocase: bool, a: seq<Val>, b: seq<Val>, c: seq<Val>)
    requires ItemsMatch(R, nocase, a, b) && ItemsMatch(S, nocase, b, c)
    ensures ItemsMatch(Composed(R, S), nocase, a, c)
  {
    hide Related;
    forall i | 0 <= i < |a|
      ensures Related(Composed(R, S), nocase, a[i], c[i])
    {
      RelatedComposed(R, S, nocase, a[i], b[i], c[i]);
    }
  }

  lemma {:induction false} StructsComposed(R: Pairs, S: Pairs, nocase: bool, a: seq<Entry>, b: seq<Entry>, c: seq<Entry>)
    requires StructsMatch(R, nocase, a, b) && StructsMatch(S, nocase, b, c)
    ensures StructsMatch(Composed(R, S), nocase, a, c)
  {
    hide Related;
    forall i, j | 0 <= i < |a| && 0 <= j < |c| && SameName(a[i].key, c[j].key)
      ensures Related(Composed(R, S), nocase, a[i].value, c[j].value)
    {
      assert Fold(a[i].key) in Keys(a);
      var k :| 0 <= k < |b| && Fold(b[k].key) == Fold(a[i].key);
      RelatedComposed(R, S, nocase, a[i].value, b[k].value, c[j].value);
    }
  }

  lemma {:induction false} MatchComposed(R: Pairs, S: Pairs, nocase: bool, l: Node, m: Node, n: Node)
    requires NodesMatch(R, nocase, l, m) && NodesMatch(S, nocase, m, n)
    ensures NodesMatch(Composed(R, S), nocase, l, n)
  {
    hide Related, ItemsMatch, StructsMatch, Composed;
    match l {
      case StructNode(a) => StructsComposed(R, S, nocase, a, m.entries, n.entries);
      case ArrayNode(a) => ItemsComposed(R, S, nocase, a, m.items, n.items);
      case QueryNode(c, r, a) =>
        forall i | 0 <= i < |a|
          ensures ItemsMatch(Composed(R, S), nocase, a[i], n.data[i])
        {
          ItemsComposed(R, S, nocase, a[i], m.data[i], n.data[i]);
        }
    }
  }

  lemma {:induction false} Transitive(heap: Heap, nocase: bool, a: Val, b: Val, c: Val)
    requires Bisimilar(heap, nocase, a, b) && Bisimilar(heap, nocase, b, c)
    ensures Bisimilar(heap, nocase, a, c)
  {
    hide NodesMatch, Related;
    var R :| IsBisimulation(heap, R, nocase) && Related(R, nocase, a, b);
    var S :| IsBisimulation(heap, S, nocase) && Related(S, nocase, b, c);
    var T := Composed(R, S);
    forall p | p in T
      ensures p.0 in heap && p.1 in heap && NodesMatch(T, nocase, heap[p.0], heap[p.1])
    {
      var q: (Handle, Handle), r: (Handle, Handle) :| q in R && r in S && q.1 == r.0 && p == (q.0, r.1);
      MatchComposed(R, S, nocase, heap[q.0], heap[q.1], heap[r.1]);
    }
    RelatedComposed(R, S, nocase, a, b, c);
    assert IsBisimulation(heap, T, nocase);
  }

  // ---- Growing relations ----

  lemma {:induction false} RelatedMore(R: Pairs, S: Pairs, nocase: bool, a: Val, b: Val)
    requires R <= S && Related(R, nocase, a, b)
    ensures Related(S, nocase, a, b)
  {
  }

  lemma {:induction false} MatchMore(R: Pairs, S: Pairs, nocase: bool, m: Node, n: Node)
    requires R <= S && NodesMatch(R, nocase, m, n)
    ensures NodesMatch(S, nocase, m, n)
  {
    hide Related;
    forall a, b | Related(R, nocase, a, b)
      ensures Related(S, nocase, a, b)
    {
      RelatedMore(R, S, nocase, a, b);
    }
  }

  ghost function AllPairs(heap: Heap): Pairs {
    set g, h | g in heap && h in heap :: (g, h)
  }

  /** From `s0` to `s1` the walk settled every pair it added. */
  ghost predicate Walked(heap: Heap, nocase: bool, s0: Pairs, s1: Pairs) {
    && s0 <= s1 <= AllPairs(heap)
    && forall p :: p in s1 && p !in s0 ==> NodesMatch(s1 + Identity(heap), nocase, heap[p.0], heap[p.1])
  }

  lemma {:induction false} WalkedTwice(heap: Heap, nocase: bool, s0: Pairs, s1: Pairs, s2: Pairs)
    requires Walked(heap, nocase, s0, s1) && Walked(heap, nocase, s1, s2)
    ensures Walked(heap, nocase, s0, s2)
  {
    hide NodesMatch;
    forall p | p in s2 && p !in s0
      ensures NodesMatch(s2 + Identity(heap), nocase, heap[p.0], heap[p.1])
    {
      if p in s1 {
        MatchMore(s1 + Identity(heap), s2 + Identity(heap), nocase, heap[p.0], heap[p.1]);
      }
    }
  }

  lemma {:induction false} WalkedInside(heap: Heap, nocase: bool, s0: Pairs, p: (Handle, Handle), s1: Pairs)
    requires Walked(heap, nocase, s0 + {p}, s1) && NodesMatch(s1 + Identity(heap), nocase, heap[p.0], heap[p.1])
    ensures Walked(heap, nocase, s0, s1)
  {
    hide NodesMatch;
  }

  /** A complete walk yields a bisimulation. */
  lemma {:induction false} WalkIsBisimulation(heap: Heap, nocase: bool, seen: Pairs)
    requires WellFormed(heap) && Walked(heap, nocase, {}, seen)
    ensures IsBisimulation(heap, seen + Identity(heap), nocase)
  {
    hide NodesMatch, NodeOk;
    forall p | p in seen + Identity(heap)
      ensures p.0 in heap && p.1 in heap && NodesMatch(seen + Identity(heap), nocase, heap[p.0], heap[p.1])
    {
      if p !in seen {
        MatchesItself(heap, nocase, heap[p.0]);
        MatchMore(Identity(heap), seen + Identity(heap), nocase, heap[p.0], heap[p.1]);
      }
    }
  }

  // ---- Struct keys ----

  /** `get_ci`. */
  function Find(es: seq<Entry>, key: string): (r: Option<nat>)
    ensures r.Some? ==> r.value < |es| && SameName(es[r.value].key, key)
    ensures r.None? <==> Fold(key) !in Keys(es)
  {
    FoundKeys(es, key);
    if es == [] then None
    else if SameName(es[|es| - 1].key, key) then Some(|es| - 1)
    else Find(es[..|es| - 1], key)
  }

  lemma {:induction false} FoundKeys(es: seq<Entry>, key: string)
    ensures es != [] ==> (Fold(key) in Keys(es) <==> SameName(es[|es| - 1].key, key) || Fold(key) in Keys(es[..|es| - 1]))
  {
    if es != [] && Fold(key) in Keys(es) {
      var i :| 0 <= i < |es| && Fold(es[i].key) == Fold(key);
      if i < |es| - 1 {
        assert es[..|es| - 1][i] == es[i];
      }
    }
    if es != [] && Fold(key) in Keys(es[..|es| - 1]) {
      var i :| 0 <= i < |es| - 1 && Fold(es[..|es| - 1][i].key) == Fold(key);
      assert es[i] == es[..|es| - 1][i];
    }
  }

  lemma {:induction false} CountKeys(es: seq<Entry>)
    requires DistinctKeys(es)
    ensures |Keys(es)| == |es|
    decreases |es|
  {
    if es == [] {
      assert Keys(es) == {};
    } else {
      var front := es[..|es| - 1];
      var last := Fold(es[|es| - 1].key);
      CountKeys(front);
      assert last !in Keys(front) by {
        forall i | 0 <= i < |front|
          ensures Fold(front[i].key) != last
        {
          assert !SameName(es[i].key, es[|es| - 1].key);
        }
      }
      assert Keys(es) == Keys(front) + {last} by {
        forall k
          ensures k in Keys(es) <==> k in Keys(front) + {last}
        {
          if k in Keys(es) {
            var i :| 0 <= i < |es| && Fold(es[i].key) == k;
            assert i < |es| - 1 ==> front[i] == es[i];
          }
          if k in Keys(front) {
            var i :| 0 <= i < |front| && Fold(front[i].key) == k;
            assert es[i] == front[i];
          }
        }
      }
    }
  }

  /** Equal sizes and every key of one in the other: the same keys. */
  lemma {:induction false} SameKeys(a: seq<Entry>, b: seq<Entry>)
    requires DistinctKeys(a) && DistinctKeys(b) && |a| == |b| && Keys(a) <= Keys(b)
    ensures Keys(a) == Keys(b)
  {
    CountKeys(a);
    CountKeys(b);
    SubsetOfSameSize(Keys(a), Keys(b));
  }

  lemma {:induction false} SubsetOfSameSize(a: set<string>, b: set<string>)
    requires a <= b && |a| == |b|
    ensures a == b
  {
    assert b == a + (b - a) && |b| == |a| + |b - a|;
    assert b - a == {};
  }

  // ---- The walk ----

  datatype Entered = Settled | Descend | NoHeadroom

  /** The answer of a walk, or the error raised when the native stack runs out. */
  datatype Walk = Answer(equal: bool) | TooDeep

  class DeepEqGuard {
    var seen: Pairs
    const headroom: nat

    /** `headroom` is the number of nested containers the native stack has room for. */
    constructor (headroom: nat)
      ensures seen == {} && this.headroom == headroom
    {
      seen := {};
      this.headroom := headroom;
    }

    method Enter(a: Handle, b: Handle, depth: nat) returns (r: Entered)
      modifies this
      ensures r.Settled? <==> a == b || (depth < headroom && (a, b) in old(seen))
      ensures r.NoHeadroom? <==> a != b && depth >= headroom
      ensures seen == if r.Descend? then old(seen) + {(a, b)} else old(seen)
    {
      if a == b {
        return Settled;
      }
      if depth >= headroom {
        return NoHeadroom;
      }
      var isNew := (a, b) !in seen;
      seen := seen + {(a, b)};
      r := if isNew then Descend else Settled;
    }

    /** The fragments of the contract shared by every step of the walk. */
    ghost predicate Ready(heap: Heap)
      reads this
    {
      WellFormed(heap) && seen <= AllPairs(heap)
    }

    method DeepEqualWith(heap: Heap, a: Val, b: Val, nocase: bool, depth: nat) returns (r: Walk)
      requires Ready(heap) && ValOk(heap, a) && ValOk(heap, b)
      modifies this
      ensures Ready(heap) && old(seen) <= seen
      ensures r == Answer(true) ==> Walked(heap, nocase, old(seen), seen) && Related(seen + Identity(heap), nocase, a, b)
      ensures r == Answer(false) ==> !Bisimilar(heap, nocase, a, b)
      ensures depth <= |old(seen)| && |AllPairs(heap)| < headroom ==> r.Answer?
      decreases AllPairs(heap) - seen, 0
    {
      if SameKind(a, b) {
        r := Containers(heap, a, b, nocase, depth);
      } else if a.Scalar? && b.Scalar? {
        NothingWalked(heap, nocase, seen);
        r := Answer(SameText(nocase, a.text, b.text));
      } else if a.Instance? && b.Instance? {
        NothingWalked(heap, nocase, seen);
        r := Answer(a.id == b.id);
      } else {
        r := Answer(false);
      }
    }

    method Containers(heap: Heap, a: Val, b: Val, nocase: bool, depth: nat) returns (r: Walk)
      requires Ready(heap) && ValOk(heap, a) && ValOk(heap, b) && SameKind(a, b)
      modifies this
      ensures Ready(heap) && old(seen) <= seen
      ensures r == Answer(true) ==> Walked(heap, nocase, old(seen), seen) && (a.h, b.h) in seen + Identity(heap)
      ensures r == Answer(false) ==> !Bisimilar(heap, nocase, a, b)
      ensures depth <= |old(seen)| && |AllPairs(heap)| < headroom ==> r.Answer?
      decreases AllPairs(heap) - seen, 0, 1
    {
      hide NodesMatch, Bisimilar, NodeOk, Related, ValOk;
      ghost var s0 := seen;
      HandlesInHeap(heap, a, b);
      FewerSeen(seen, AllPairs(heap));
      var entered := Enter(a.h, b.h, depth);
      if entered.NoHeadroom? {
        return TooDeep;
      }
      if entered.Settled? {
        NothingWalked(heap, nocase, seen);
        return Answer(true);
      }
      OneMore(s0, (a.h, b.h));
      KindOfNode(heap, a, b);
      r := CompareNodes(heap, a.h, b.h, nocase, depth + 1);
      if r == Answer(true) {
        WalkedInside(heap, nocase, s0, (a.h, b.h), seen);
      } else if r == Answer(false) {
        NotBisimilar(heap, nocase, a, b);
      }
    }

    method CompareNodes(heap: Heap, g: Handle, h: Handle, nocase: bool, depth: nat) returns (r: Walk)
      requires Ready(heap) && g in heap && h in heap && SameNodeKind(heap[g], heap[h])
      modifies this
      ensures Ready(heap) && old(seen) <= seen
      ensures r == Answer(true) ==>
                Walked(heap, nocase, old(seen), seen) && NodesMatch(seen + Identity(heap), nocase, heap[g], heap[h])
      ensures r == Answer(false) ==> forall R :: IsBisimulation(heap, R, nocase) ==> !NodesMatch(R, nocase, heap[g], heap[h])
      ensures depth <= |old(seen)| && |AllPairs(heap)| < headroom ==> r.Answer?
      decreases AllPairs(heap) - seen, 3
    {
      hide IsBisimulation, Walked, ValOk, StructsMatch, ItemsMatch;
      assert NodeOk(heap, heap[g]) && NodeOk(heap, heap[h]);
      match heap[g] {
        case StructNode(_) => r := CompareStructs(heap, g, h, nocase, depth);
        case ArrayNode(xs) => r := CompareItems(heap, xs, heap[h].items, nocase, depth);
        case QueryNode(_, _, _) => r := CompareQueries(heap, g, h, nocase, depth);
      }
    }

    /** Arrays element by element; also the columns of a query. */
    method CompareItems(heap: Heap, xs: seq<Val>, ys: seq<Val>, nocase: bool, depth: nat) returns (r: Walk)
      requires Ready(heap)
      requires forall i :: 0 <= i < |xs| ==> ValOk(heap, xs[i])
      requires forall i :: 0 <= i < |ys| ==> ValOk(heap, ys[i])
      modifies this
      ensures Ready(heap) && old(seen) <= seen
      ensures r == Answer(true) ==> Walked(heap, nocase, old(seen), seen) && ItemsMatch(seen + Identity(heap), nocase, xs, ys)
      ensures r == Answer(false) ==> forall R :: IsBisimulation(heap, R, nocase) ==> !ItemsMatch(R, nocase, xs, ys)
      ensures depth <= |old(seen)| && |AllPairs(heap)| < headroom ==> r.Answer?
      decreases AllPairs(heap) - seen, 1
    {
      hide NodesMatch, Related, ValOk, NodeOk, IsBisimulation;
      if |xs| != |ys| {
        return Answer(false);
      }
      ghost var s0 := seen;
      NothingWalked(heap, nocase, s0);
      var i := 0;
      while i < |xs|
        invariant 0 <= i <= |xs| && Ready(heap) && s0 <= seen
        invariant Walked(heap, nocase, s0, seen)
        invariant forall j :: 0 <= j < i ==> Related(seen + Identity(heap), nocase, xs[j], ys[j])
      {
        ghost var s1 := seen;
        FewerSeen(s0, s1);
        r := DeepEqualWith(heap, xs[i], ys[i], nocase, depth);
        if r != Answer(true) {
          if r == Answer(false) {
            ChildDiffers(heap, nocase, xs, ys, i);
          }
          return;
        }
        WalkedTwice(heap, nocase, s0, s1, seen);
        StillRelated(heap, nocase, s1, seen, xs, ys, i);
        i := i + 1;
      }
      r := Answer(true);
    }

    method CompareStructs(heap: Heap, g: Handle, h: Handle, nocase: bool, depth: nat) returns (r: Walk)
      requires Ready(heap) && g in heap && h in heap && heap[g].StructNode? && heap[h].StructNode?
      modifies this
      ensures Ready(heap) && old(seen) <= seen
      ensures r == Answer(true) ==>
                Walked(heap, nocase, old(seen), seen) && NodesMatch(seen + Identity(heap), nocase, heap[g], heap[h])
      ensures r == Answer(false) ==> forall R :: IsBisimulation(heap, R, nocase) ==> !NodesMatch(R, nocase, heap[g], heap[h])
      ensures depth <= |old(seen)| && |AllPairs(heap)| < headroom ==> r.Answer?
      decreases AllPairs(heap) - seen, 1
    {
      hide Related, ValOk, IsBisimulation, DistinctKeys;
      var a, b := heap[g].entries, heap[h].entries;
      assert NodeOk(heap, heap[g]) && NodeOk(heap, heap[h]);
      if |a| != |b| {
        DifferentSizes(a, b);
        return Answer(false);
      }
      ghost var s0 := seen;
      NothingWalked(heap, nocase, s0);
      var i := 0;
      while i < |a|
        invariant 0 <= i <= |a| && Ready(heap) && s0 <= seen
        invariant Walked(heap, nocase, s0, seen)
        invariant forall j :: 0 <= j < i ==> Fold(a[j].key) in Keys(b)
        invariant forall j, k :: 0 <= j < i && 0 <= k < |b| && SameName(a[j].key, b[k].key) ==>
                                 Related(seen + Identity(heap), nocase, a[j].value, b[k].value)
      {
        ghost var s1 := seen;
        FewerSeen(s0, s1);
        var found := Find(b, a[i].key);
        if found.None? {
          assert Fold(a[i].key) in Keys(a);
          return Answer(false);
        }
        r := DeepEqualWith(heap, a[i].value, b[found.value].value, nocase, depth);
        if r != Answer(true) {
          if r == Answer(false) {
            MemberDiffers(heap, nocase, a, b, i, found.value);
          }
          return;
        }
        WalkedTwice(heap, nocase, s0, s1, seen);
        OnlyOne(b, found.value);
        StillRelatedMembers(heap, nocase, s1, seen, a, b, i);
        i := i + 1;
      }
      AllKeysFound(a, b);
      r := Answer(true);
    }

    method CompareQueries(heap: Heap, g: Handle, h: Handle, nocase: bool, depth: nat) returns (r: Walk)
      requires Ready(heap) && g in heap && h in heap && heap[g].QueryNode? && heap[h].QueryNode?
      modifies this
      ensures Ready(heap) && old(seen) <= seen
      ensures r == Answer(true) ==>
                Walked(heap, nocase, old(seen), seen) && NodesMatch(seen + Identity(heap), nocase, heap[g], heap[h])
      ensures r == Answer(false) ==> forall R :: IsBisimulation(heap, R, nocase) ==> !NodesMatch(R, nocase, heap[g], heap[h])
      ensures depth <= |old(seen)| && |AllPairs(heap)| < headroom ==> r.Answer?
      decreases AllPairs(heap) - seen, 2
    {
      hide Related, ValOk, IsBisimulation, ItemsMatch, NodesMatch, Walked;
      var m, n := heap[g], heap[h];
      QueryShape(heap, g);
      QueryShape(heap, h);
      if |m.columns| != |n.columns| || m.rows != n.rows {
        QueriesDiffer(nocase, m, n);
        return Answer(false);
      }
      var same := SameColumns(m.columns, n.columns);
      if !same {
        QueriesDiffer(nocase, m, n);
        return Answer(false);
      }
      ghost var s0 := seen;
      NothingWalked(heap, nocase, s0);
      var c := 0;
      while c < |m.columns|
        invariant 0 <= c <= |m.columns| && Ready(heap) && s0 <= seen
        invariant Walked(heap, nocase, s0, seen)
        invariant forall j :: 0 <= j < c ==> ItemsMatch(seen + Identity(heap), nocase, m.data[j], n.data[j])
      {
        ghost var s1 := seen;
        FewerSeen(s0, s1);
        r := CompareItems(heap, m.data[c], n.data[c], nocase, depth);
        if r != Answer(true) {
          if r == Answer(false) {
            ColumnDiffers(heap, nocase, m, n, c);
          }
          return;
        }
        WalkedTwice(heap, nocase, s0, s1, seen);
        StillMatching(heap, nocase, s1, seen, m.data, n.data, c);
        c := c + 1;
      }
      QueriesMatch(seen + Identity(heap), nocase, m, n);
      r := Answer(true);
    }

    /** The answer for two values on their own, with a fresh walk. */
    method DeepEqual(heap: Heap, a: Val, b: Val, nocase: bool) returns (r: Walk)
      requires WellFormed(heap) && ValOk(heap, a) && ValOk(heap, b) && seen == {}
      modifies this
      ensures r.Answer? ==> (r.equal <==> Bisimilar(heap, nocase, a, b))
      ensures |AllPairs(heap)| < headroom ==> r.Answer?
    {
      hide NodesMatch, NodeOk, Related, ValOk, IsBisimulation, Walked;
      assert seen <= AllPairs(heap);
      r := DeepEqualWith(heap, a, b, nocase, 0);
      if r == Answer(true) {
        WalkIsBisimulation(heap, nocase, seen);
      }
    }
  }

  method SameColumns(c: seq<string>, d: seq<string>) returns (same: bool)
    requires |c| == |d|
    ensures same <==> forall i :: 0 <= i < |c| ==> SameName(c[i], d[i])
  {
    var i := 0;
    while i < |c|
      invariant 0 <= i <= |c|
      invariant forall j :: 0 <= j < i ==> SameName(c[j], d[j])
    {
      if !SameName(c[i], d[i]) {
        return false;
      }
      i := i + 1;
    }
    return true;
  }

  // ---- What the walk's steps need ----

  lemma {:induction false} QueryShape(heap: Heap, h: Handle)
    requires WellFormed(heap) && h in heap && heap[h].QueryNode?
    ensures var q := heap[h];
            && |q.data| == |q.columns| && (forall c :: 0 <= c < |q.data| ==> |q.data[c]| == q.rows)
            && (forall c, r :: 0 <= c < |q.data| && 0 <= r < |q.data[c]| ==> ValOk(heap, q.data[c][r]))
  {
    hide ValOk;
    assert NodeOk(heap, heap[h]);
  }

  lemma {:induction false} QueriesDiffer(nocase: bool, m: Node, n: Node)
    requires m.QueryNode? && n.QueryNode?
    requires |m.columns| != |n.columns| || m.rows != n.rows
             || exists i :: 0 <= i < |m.columns| && !SameName(m.columns[i], n.columns[i])
    ensures forall R :: !NodesMatch(R, nocase, m, n)
  {
    hide ItemsMatch;
  }

  lemma {:induction false} ColumnDiffers(heap: Heap, nocase: bool, m: Node, n: Node, c: nat)
    requires m.QueryNode? && n.QueryNode? && c < |m.data| == |n.data|
    requires forall R :: IsBisimulation(heap, R, nocase) ==> !ItemsMatch(R, nocase, m.data[c], n.data[c])
    ensures forall R :: IsBisimulation(heap, R, nocase) ==> !NodesMatch(R, nocase, m, n)
  {
    hide ItemsMatch, IsBisimulation;
  }

  lemma {:induction false} QueriesMatch(R: Pairs, nocase: bool, m: Node, n: Node)
    requires m.QueryNode? && n.QueryNode? && |m.columns| == |n.columns| && m.rows == n.rows && |m.data| == |n.data|
    requires forall i :: 0 <= i < |m.columns| ==> SameName(m.columns[i], n.columns[i])
    requires forall i :: 0 <= i < |m.data| ==> ItemsMatch(R, nocase, m.data[i], n.data[i])
    ensures NodesMatch(R, nocase, m, n)
  {
    hide ItemsMatch;
  }

  predicate SameKind(a: Val, b: Val) {
    || (a.StructRef? && b.StructRef?)
    || (a.ArrayRef? && b.ArrayRef?)
    || (a.QueryRef? && b.QueryRef?)
  }

  lemma {:induction false} HandlesInHeap(heap: Heap, a: Val, b: Val)
    requires ValOk(heap, a) && ValOk(heap, b) && SameKind(a, b)
    ensures a.h in heap && b.h in heap && (a.h, b.h) in AllPairs(heap) && (a.h == b.h ==> (a.h, b.h) in Identity(heap))
  {
  }

  predicate SameNodeKind(m: Node, n: Node) {
    (m.StructNode? <==> n.StructNode?) && (m.ArrayNode? <==> n.ArrayNode?)
  }

  lemma {:induction false} KindOfNode(heap: Heap, a: Val, b: Val)
    requires ValOk(heap, a) && ValOk(heap, b) && SameKind(a, b)
    ensures SameNodeKind(heap[a.h], heap[b.h])
  {
  }

  lemma {:induction false} NothingWalked(heap: Heap, nocase: bool, s: Pairs)
    requires s <= AllPairs(heap)
    ensures Walked(heap, nocase, s, s)
  {
  }

  lemma {:induction false} FewerSeen(s: Pairs, t: Pairs)
    requires s <= t
    ensures |s| <= |t|
  {
    assert t == s + (t - s);
  }

  lemma {:induction false} OneMore(s: Pairs, p: (Handle, Handle))
    requires p !in s
    ensures |s + {p}| == |s| + 1
  {
  }

  lemma {:induction false} NotBisimilar(heap: Heap, nocase: bool, a: Val, b: Val)
    requires ValOk(heap, a) && ValOk(heap, b) && SameKind(a, b)
    requires forall R :: IsBisimulation(heap, R, nocase) ==> !NodesMatch(R, nocase, heap[a.h], heap[b.h])
    ensures !Bisimilar(heap, nocase, a, b)
  {
    hide NodesMatch;
    forall R | IsBisimulation(heap, R, nocase)
      ensures !Related(R, nocase, a, b)
    {
      assert Related(R, nocase, a, b) <==> (a.h, b.h) in R;
    }
  }

  lemma {:induction false} ChildDiffers(heap: Heap, nocase: bool, xs: seq<Val>, ys: seq<Val>, i: nat)
    requires i < |xs| == |ys| && !Bisimilar(heap, nocase, xs[i], ys[i])
    ensures forall R :: IsBisimulation(heap, R, nocase) ==> !ItemsMatch(R, nocase, xs, ys)
  {
    hide IsBisimulation, Related;
  }

  lemma {:induction false} MemberDiffers(heap: Heap, nocase: bool, a: seq<Entry>, b: seq<Entry>, i: nat, j: nat)
    requires i < |a| && j < |b| && SameName(a[i].key, b[j].key) && !Bisimilar(heap, nocase, a[i].value, b[j].value)
    ensures forall R :: IsBisimulation(heap, R, nocase) ==> !StructsMatch(R, nocase, a, b)
  {
    hide IsBisimulation, Related;
  }

  lemma {:induction false} StillRelated(heap: Heap, nocase: bool, s1: Pairs, s2: Pairs, xs: seq<Val>, ys: seq<Val>, i: nat)
    requires s1 <= s2 && i <= |xs| == |ys|
    requires forall j :: 0 <= j < i ==> Related(s1 + Identity(heap), nocase, xs[j], ys[j])
    ensures forall j :: 0 <= j < i ==> Related(s2 + Identity(heap), nocase, xs[j], ys[j])
  {
    hide Related;
    forall j | 0 <= j < i
      ensures Related(s2 + Identity(heap), nocase, xs[j], ys[j])
    {
      RelatedMore(s1 + Identity(heap), s2 + Identity(heap), nocase, xs[j], ys[j]);
    }
  }

  lemma {:induction false} StillRelatedMembers(heap: Heap, nocase: bool, s1: Pairs, s2: Pairs, a: seq<Entry>, b: seq<Entry>, i: nat)
    requires s1 <= s2 && i <= |a|
    requires forall j, k :: 0 <= j < i && 0 <= k < |b| && SameName(a[j].key, b[k].key) ==>
                            Related(s1 + Identity(heap), nocase, a[j].value, b[k].value)
    ensures forall j, k :: 0 <= j < i && 0 <= k < |b| && SameName(a[j].key, b[k].key) ==>
                           Related(s2 + Identity(heap), nocase, a[j].value, b[k].value)
  {
    hide Related;
    forall j, k | 0 <= j < i && 0 <= k < |b| && SameName(a[j].key, b[k].key)
      ensures Related(s2 + Identity(heap), nocase, a[j].value, b[k].value)
    {
      RelatedMore(s1 + Identity(heap), s2 + Identity(heap), nocase, a[j].value, b[k].value);
    }
  }

  lemma {:induction false} StillMatching(heap: Heap, nocase: bool, s1: Pairs, s2: Pairs, a: seq<seq<Val>>, b: seq<seq<Val>>, c: nat)
    requires s1 <= s2 && c <= |a| == |b|
    requires forall j :: 0 <= j < c ==> ItemsMatch(s1 + Identity(heap), nocase, a[j], b[j])
    ensures forall j :: 0 <= j < c ==> ItemsMatch(s2 + Identity(heap), nocase, a[j], b[j])
  {
    hide Related;
    forall j | 0 <= j < c
      ensures ItemsMatch(s2 + Identity(heap), nocase, a[j], b[j])
    {
      StillRelated(heap, nocase, s1, s2, a[j], b[j], |a[j]|);
    }
  }

  /** A key names one entry. */
  lemma {:induction false} OnlyOne(es: seq<Entry>, i: nat)
    requires DistinctKeys(es) && i < |es|
    ensures forall k :: 0 <= k < |es| && SameName(es[i].key, es[k].key) ==> k == i
  {
  }

  lemma {:induction false} DifferentSizes(a: seq<Entry>, b: seq<Entry>)
    requires DistinctKeys(a) && DistinctKeys(b) && |a| != |b|
    ensures Keys(a) != Keys(b)
  {
    CountKeys(a);
    CountKeys(b);
  }

  lemma {:induction false} AllKeysFound(a: seq<Entry>, b: seq<Entry>)
    requires DistinctKeys(a) && DistinctKeys(b) && |a| == |b|
    requires forall j :: 0 <= j < |a| ==> Fold(a[j].key) in Keys(b)
    ensures Keys(a) == Keys(b)
  {
    SameKeys(a, b);
  }
}
