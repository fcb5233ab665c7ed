/**
 What bisimilarity comes to, kind by kind: scalars by their text, instances by identity,
 and containers exactly when they have the same shape and their parts are bisimilar
 again, however they are linked.
 */
module Bisimilarity {
  import opened Names
  import opened DeepEqual

  /** Texts: letter for letter, or up to the case of A to Z. */
  lemma {:induction false} Scalars(heap: Heap, nocase: bool, s: string, t: string)
    ensures Bisimilar(heap, false, Scalar(s), Scalar(t)) <==> s == t
    ensures Bisimilar(heap, true, Scalar(s), Scalar(t)) <==>
            |s| == |t| && forall i :: 0 <= i < |s| ==> s[i] == t[i] || CasePair(s[i], t[i]) || CasePair(t[i], s[i])
  {
    SameNameExact(s, t);
    var none: Pairs := {};
    assert IsBisimulation(heap, none, false) && IsBisimulation(heap, none, true);
    assert Related(none, false, Scalar(s), Scalar(t)) <==> s == t;
    assert Related(none, true, Scalar(s), Scalar(t)) <==> SameName(s, t);
  }

  lemma {:induction false} Instances(heap: Heap, nocase: bool, i: Handle, j: Handle)
    ensures Bisimilar(heap, nocase, Instance(i), Instance(j)) <==> i == j
  {
    var none: Pairs := {};
    assert IsBisimulation(heap, none, nocase);
    assert Related(none, nocase, Instance(i), Instance(j)) <==> i == j;
  }

  /** Values of different kinds are never equal. */
  lemma {:induction false} Kinds(heap: Heap, nocase: bool, a: Val, b: Val)
    requires Bisimilar(heap, nocase, a, b)
    ensures (a.Scalar? <==> b.Scalar?) && (a.Instance? <==> b.Instance?)
    ensures (a.StructRef? <==> b.StructRef?) && (a.ArrayRef? <==> b.ArrayRef?) && (a.QueryRef? <==> b.QueryRef?)
  {
  }

  // ---- The largest bisimulation ----

  ghost predicate PairBisimilar(heap: Heap, nocase: bool, p: (Handle, Handle)) {
    exists R :: IsBisimulation(heap, R, nocase) && p in R
  }

  ghost function Largest(heap: Heap, nocase: bool): Pairs {
    set h, g | h in heap && g in heap && PairBisimilar(heap, nocase, (h, g)) :: (h, g)
  }

  lemma {:induction false} InLargest(heap: Heap, nocase: bool, R: Pairs)
    requires IsBisimulation(heap, R, nocase)
    ensures R <= Largest(heap, nocase)
  {
    hide NodesMatch;
    forall p | p in R
      ensures p in Largest(heap, nocase)
    {
      assert PairBisimilar(heap, nocase, (p.0, p.1));
    }
  }

  lemma {:induction false} LargestIs(heap: Heap, nocase: bool)
    ensures IsBisimulation(heap, Largest(heap, nocase), nocase)
  {
    hide NodesMatch;
    var L := Largest(heap, nocase);
    forall p | p in L
      ensures p.0 in heap && p.1 in heap && NodesMatch(L, nocase, heap[p.0], heap[p.1])
    {
      var R :| IsBisimulation(heap, R, nocase) && p in R;
      InLargest(heap, nocase, R);
      MatchMore(R, L, nocase, heap[p.0], heap[p.1]);
    }
  }

  lemma {:induction false} RelatedByLargest(heap: Heap, nocase: bool, a: Val, b: Val)
    ensures Bisimilar(heap, nocase, a, b) <==> Related(Largest(heap, nocase), nocase, a, b)
  {
    hide Related, IsBisimulation;
    LargestIs(heap, nocase);
    if Bisimilar(heap, nocase, a, b) {
      var R :| IsBisimulation(heap, R, nocase) && Related(R, nocase, a, b);
      InLargest(heap, nocase, R);
      RelatedMore(R, Largest(heap, nocase), nocase, a, b);
    }
  }

  /** Containers are bisimilar exactly when they match, their parts being bisimilar. */
  lemma {:induction false} Unfolds(heap: Heap, nocase: bool, h: Handle, g: Handle)
    requires h in heap && g in heap
    ensures (h, g) in Largest(heap, nocase) <==> NodesMatch(Largest(heap, nocase), nocase, heap[h], heap[g])
  {
    hide NodesMatch;
    var L := Largest(heap, nocase);
    LargestIs(heap, nocase);
    if NodesMatch(L, nocase, heap[h], heap[g]) {
      var M := L + {(h, g)};
      forall p | p in M
        ensures p.0 in heap && p.1 in heap && NodesMatch(M, nocase, heap[p.0], heap[p.1])
      {
        MatchMore(L, M, nocase, heap[p.0], heap[p.1]);
      }
      assert IsBisimulation(heap, M, nocase);
      InLargest(heap, nocase, M);
    }
  }

  // ---- Containers ----

  /** Arrays: as long, and item by item. */
  lemma {:induction false} Arrays(heap: Heap, nocase: bool, h: Handle, g: Handle)
    requires h in heap && g in heap && heap[h].ArrayNode? && heap[g].ArrayNode?
    ensures Bisimilar(heap, nocase, ArrayRef(h), ArrayRef(g)) <==>
            var xs, ys := heap[h].items, heap[g].items;
            |xs| == |ys| && forall i :: 0 <= i < |xs| ==> Bisimilar(heap, nocase, xs[i], ys[i])
  {
    hide Bisimilar, Largest;
    RelatedByLargest(heap, nocase, ArrayRef(h), ArrayRef(g));
    Unfolds(heap, nocase, h, g);
    var xs, ys := heap[h].items, heap[g].items;
    if |xs| == |ys| {
      forall i | 0 <= i < |xs|
        ensures Bisimilar(heap, nocase, xs[i], ys[i]) <==> Related(Largest(heap, nocase), nocase, xs[i], ys[i])
      {
        RelatedByLargest(heap, nocase, xs[i], ys[i]);
      }
    }
  }

  /** Structs: each key of either is one of the other's up to case, with bisimilar values under it. */
  lemma {:induction false} Structs(heap: Heap, nocase: bool, h: Handle, g: Handle)
    requires h in heap && g in heap && heap[h].StructNode? && heap[g].StructNode?
    ensures Bisimilar(heap, nocase, StructRef(h), StructRef(g)) <==>
            var a, b := heap[h].entries, heap[g].entries;
            && Covered(a, b) && Covered(b, a)
            && (forall i, j :: 0 <= i < |a| && 0 <= j < |b| && SameName(a[i].key, b[j].key) ==> Bisimilar(heap, nocase, a[i].value, b[j].value))
  {
    hide Bisimilar, Largest, Fold, Related, Keys, NodesMatch, Covered;
    var L := Largest(heap, nocase);
    RelatedByLargest(heap, nocase, StructRef(h), StructRef(g));
    RefRelated(L, nocase, h, g);
    Unfolds(heap, nocase, h, g);
    var a, b := heap[h].entries, heap[g].entries;
    StructsAre(L, nocase, heap[h], heap[g]);
    KeysCover(a, b);
    forall i, j | 0 <= i < |a| && 0 <= j < |b|
      ensures Bisimilar(heap, nocase, a[i].value, b[j].value) <==> Related(L, nocase, a[i].value, b[j].value)
    {
      RelatedByLargest(heap, nocase, a[i].value, b[j].value);
    }
  }

  lemma {:induction false} StructsAre(R: Pairs, nocase: bool, m: Node, n: Node)
    requires m.StructNode? && n.StructNode?
    ensures NodesMatch(R, nocase, m, n) <==>
            && Keys(m.entries) == Keys(n.entries)
            && forall i, j :: 0 <= i < |m.entries| && 0 <= j < |n.entries| && SameName(m.entries[i].key, n.entries[j].key) ==>
                              Related(R, nocase, m.entries[i].value, n.entries[j].value)
  {
    hide Related, Keys, Fold;
  }

  ghost predicate Has(es: seq<Entry>, key: string) {
    exists j :: 0 <= j < |es| && SameName(key, es[j].key)
  }

  /** Every key of `a` is one of `b`'s. */
  ghost predicate Covered(a: seq<Entry>, b: seq<Entry>) {
    forall i :: 0 <= i < |a| ==> Has(b, a[i].key)
  }

  lemma {:induction false} HasKey(es: seq<Entry>, key: string)
    ensures Has(es, key) <==> Fold(key) in Keys(es)
  {
    hide Fold;
    if Has(es, key) {
      var j :| 0 <= j < |es| && SameName(key, es[j].key);
      assert Fold(es[j].key) in Keys(es);
    }
    if Fold(key) in Keys(es) {
      var j :| 0 <= j < |es| && Fold(es[j].key) == Fold(key);
      assert SameName(key, es[j].key);
    }
  }

  lemma {:induction false} CoveredKeys(a: seq<Entry>, b: seq<Entry>)
    ensures Covered(a, b) <==> Keys(a) <= Keys(b)
  {
    hide Fold, Has;
    forall i | 0 <= i < |a|
      ensures Has(b, a[i].key) <==> Fold(a[i].key) in Keys(b)
    {
      HasKey(b, a[i].key);
    }
  }

  lemma {:induction false} KeysCover(a: seq<Entry>, b: seq<Entry>)
    ensures Keys(a) == Keys(b) <==> Covered(a, b) && Covered(b, a)
  {
    hide Keys, Covered;
    CoveredKeys(a, b);
    CoveredKeys(b, a);
  }

  /** Queries: the same columns up to case in the same order, as many rows, and cell by cell. */
  lemma {:induction false} Queries(heap: Heap, nocase: bool, h: Handle, g: Handle)
    requires WellFormed(heap) && h in heap && g in heap && heap[h].QueryNode? && heap[g].QueryNode?
    ensures Bisimilar(heap, nocase, QueryRef(h), QueryRef(g)) <==>
            var m, n := heap[h], heap[g];
            && |m.columns| == |n.columns| && m.rows == n.rows
            && (forall c :: 0 <= c < |m.columns| ==> SameName(m.columns[c], n.columns[c]))
            && (forall c, r :: 0 <= c < |m.columns| && 0 <= r < m.rows ==> Bisimilar(heap, nocase, m.data[c][r], n.data[c][r]))
  {
    hide Bisimilar, Largest, Fold, Related;
    RelatedByLargest(heap, nocase, QueryRef(h), QueryRef(g));
    RefRelated(Largest(heap, nocase), nocase, h, g);
    Unfolds(heap, nocase, h, g);
    var m, n := heap[h], heap[g];
    assert NodeOk(heap, m) && NodeOk(heap, n);
    if |m.columns| == |n.columns| && m.rows == n.rows {
      forall c, r | 0 <= c < |m.columns| && 0 <= r < m.rows
        ensures Bisimilar(heap, nocase, m.data[c][r], n.data[c][r]) <==> Related(Largest(heap, nocase), nocase, m.data[c][r], n.data[c][r])
      {
        RelatedByLargest(heap, nocase, m.data[c][r], n.data[c][r]);
      }
    }
  }

  lemma {:induction false} RefRelated(R: Pairs, nocase: bool, h: Handle, g: Handle)
    ensures Related(R, nocase, QueryRef(h), QueryRef(g)) <==> (h, g) in R
    ensures Related(R, nocase, StructRef(h), StructRef(g)) <==> (h, g) in R
  {
  }
}
