/**
 The shapes that are fused, written out: which conditions are taken for a bound and which
 statements for a stride, and where such a stride departs.
 */
module Recognised {
  import opened Names
  import opened Ast
  import opened Shapes
  import opened Values
  import opened Semantics
  import opened Limits
  import opened Rounding

  // ---- Bounds ----

  /** `n CMP c` with a 32-bit constant. */
  lemma {:induction false} NameFirst(n: string, c: int)
    requires -0x8000_0000 <= c <= 0x7FFF_FFFF
    ensures MatchCmp(Bin(Lt, Var(n), Lit(Int(c)))) == Some(Bound(n, c, CLt)) && MatchCmp(Bin(Lte, Var(n), Lit(Int(c)))) == Some(Bound(n, c, CLte))
    ensures MatchCmp(Bin(Gt, Var(n), Lit(Int(c)))) == Some(Bound(n, c, CGt)) && MatchCmp(Bin(Gte, Var(n), Lit(Int(c)))) == Some(Bound(n, c, CGte))
    ensures MatchCmp(Bin(Eq, Var(n), Lit(Int(c)))) == Some(Bound(n, c, CEq)) && MatchCmp(Bin(Neq, Var(n), Lit(Int(c)))) == Some(Bound(n, c, CNeq))
  {
  }

  /** `c CMP n` with any constant: the comparison is turned round. */
  lemma {:induction false} ConstantFirst(n: string, c: int)
    ensures MatchCmp(Bin(Lt, Lit(Int(c)), Var(n))) == Some(Bound(n, c, CGt)) && MatchCmp(Bin(Lte, Lit(Int(c)), Var(n))) == Some(Bound(n, c, CGte))
    ensures MatchCmp(Bin(Gt, Lit(Int(c)), Var(n))) == Some(Bound(n, c, CLt)) && MatchCmp(Bin(Gte, Lit(Int(c)), Var(n))) == Some(Bound(n, c, CLte))
    ensures MatchCmp(Bin(Eq, Lit(Int(c)), Var(n))) == Some(Bound(n, c, CEq)) && MatchCmp(Bin(Neq, Lit(Int(c)), Var(n))) == Some(Bound(n, c, CNeq))
  {
  }

  /** Nothing else is a bound. */
  lemma {:induction false} OnlyBounds(e: Expr)
    requires MatchCmp(e).Some?
    ensures e.Bin? && e.op in {Lt, Lte, Gt, Gte, Eq, Neq}
    ensures (e.l.Var? && e.r.Lit? && e.r.v.Int? && -0x8000_0000 <= e.r.v.n <= 0x7FFF_FFFF) || (e.l.Lit? && e.l.v.Int? && e.r.Var?)
  {
  }

  // ---- Strides ----

  /** The statements that advance a variable by a constant, and by how much. */
  lemma {:induction false} Strides(x: string, y: string, k: int)
    requires SameName(x, y)
    ensures StrideOf(Do1(IncDec(x, true))) == Some(Stride(x, 1)) && StrideOf(Do1(IncDec(x, false))) == Some(Stride(x, -1))
    ensures StrideOf(Assign(x, PlusEq, Lit(Int(k)))) == Some(Stride(x, k)) && StrideOf(Assign(x, MinusEq, Lit(Int(k)))) == Some(Stride(x, -k))
    ensures StrideOf(Assign(x, Set, Bin(Add, Var(y), Lit(Int(k))))) == Some(Stride(x, k))
    ensures StrideOf(Assign(x, Set, Bin(Add, Lit(Int(k)), Var(y)))) == Some(Stride(x, k))
    ensures StrideOf(Assign(x, Set, Bin(Sub, Var(y), Lit(Int(k))))) == Some(Stride(x, -k))
    ensures StrideOf(Do1(SetTo(x, Bin(Add, Var(x), Lit(Int(k)))))) == Some(Stride(x, k))
    ensures StrideOf(Do1(SetTo(x, Bin(Add, Lit(Int(k)), Var(x))))) == Some(Stride(x, k))
    ensures StrideOf(Do1(SetTo(x, Bin(Sub, Var(x), Lit(Int(k)))))) == Some(Stride(x, -k))
  {
  }

  /** Taking a constant away is no stride the other way round, and neither is a factor. */
  lemma {:induction false} NoStrides(x: string, y: string, k: int)
    ensures StrideOf(Assign(x, Set, Bin(Sub, Lit(Int(k)), Var(y)))) == None && StrideOf(Assign(x, StarEq, Lit(Int(k)))) == None
    ensures StrideOf(Assign(x, SlashEq, Lit(Int(k)))) == None && StrideOf(Assign(x, Set, Bin(Mul, Var(y), Lit(Int(k))))) == None
    ensures !SameName(x, y) ==> StrideOf(Assign(x, Set, Bin(Add, Var(y), Lit(Int(k))))) == None
    ensures x != y ==> StrideOf(Do1(SetTo(x, Bin(Add, Var(y), Lit(Int(k)))))) == None
  {
  }

  /** So the stride `x += K` of a counted loop departs exactly where its fused step does. */
  lemma {:induction false} PlusStrideExact(w: World, c: Counted, st: State, catching: bool)
    requires !w.watch
    ensures StepDeparts(w, c, st, Exec(w, Assign(c.name, PlusEq, Lit(Int(c.amount))), st, catching))
            <==> !Steppable(Lookup(st.vars, c.name), c.amount)
  {
    hide ExecStep, ExecAssign, StepDeparts;
    var step := SetTo(c.name, Bin(Add, Var(c.name), Lit(Int(c.amount))));
    StrideAsStep(w, c.name, PlusEq, c.amount, st);
    PlusIs();
    CountedStepExact(w, c, step, st);
  }

  lemma {:induction false} PlusIs()
    ensures BinOf(PlusEq) == Add && BinOf(MinusEq) == Sub
  {
  }

  lemma {:induction false} MinusStrideExact(w: World, c: Counted, st: State, catching: bool)
    requires !w.watch && Ieee(w.fp) && InI64(-c.amount)
    requires var v := Lookup(st.vars, c.name); v.Some? && v.value.Int? ==> InI64(v.value.n)
    ensures var v := Lookup(st.vars, c.name);
            StepDeparts(w, c, st, Exec(w, Assign(c.name, MinusEq, Lit(Int(-c.amount))), st, catching)) <==>
            !(v.Some? && ((v.value.Dbl? && !(c.amount == 0 && v.value.d == MINUS_ZERO)) ||
                          (v.value.Int? && Below(Rounded(Rounded(v.value.n) - Rounded(-c.amount))) == Some(Wrap64(v.value.n + c.amount)))))
  {
    hide ExecStep, ExecAssign, StepDeparts, Rounded, Below, Ieee;
    var step := SetTo(c.name, Bin(Sub, Var(c.name), Lit(Int(-c.amount))));
    StrideAsStep(w, c.name, MinusEq, -c.amount, st);
    PlusIs();
    MinusStepExact(w, c, step, st);
  }
}
