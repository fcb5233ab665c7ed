/**
 `-` and `*` on integers go through doubles, the constant-operand and fused
 instructions do not: exactly which operands tell them apart. Rounding is that of a
 double's 53-bit significand, ties to even (IEEE 754-2019, section 4.3.1).
 */
module Rounding {
  import opened Names
  import opened Ast
  import opened Shapes
  import opened Values
  import opened Semantics
  import opened Limits

  const EXACT: int := 0x20_0000_0000_0000  // 2^53

  /** The distance between neighbouring doubles of the size of `n`. */
  function Spacing(n: nat): (u: nat)
    ensures u >= 1
  {
    if n < EXACT then 1 else 2 * Spacing(n / 2)
  }

  /** The nearest double, as an integer. */
  function RoundedNat(n: nat): nat {
    var u := Spacing(n);
    var q, r := n / u, n % u;
    if 2 * r < u || (2 * r == u && q % 2 == 0) then q * u else (q + 1) * u
  }

  function Rounded(n: int): int {
    if n < 0 then 0 - RoundedNat(-n) else RoundedNat(n)
  }

  /** The integer a whole double becomes again: only below 2^63 in size. */
  function Below(n: int): Option<int> {
    if -0x8000_0000_0000_0000 < n < 0x8000_0000_0000_0000 then Some(n) else None
  }

  const MINUS_ZERO: Float := Float(0x8000_0000_0000_0000)

  /** What is used of double arithmetic. */
  ghost predicate Ieee(fp: Floats) {
    && (forall a, b :: InI64(a) && InI64(b) ==> fp.whole(fp.sub(fp.ofInt(a), fp.ofInt(b))) == Below(Rounded(Rounded(a) - Rounded(b))))
    && (forall a, b :: InI64(a) && InI64(b) ==> fp.whole(fp.mul(fp.ofInt(a), fp.ofInt(b))) == Below(Rounded(Rounded(a) * Rounded(b))))
    && (forall d: Float, k: int :: k != 0 ==> fp.sub(d, fp.ofInt(k)) == fp.add(d, fp.ofInt(-k)))
    && (forall x, y :: fp.add(x, y) == fp.add(y, x))
    && (forall d :: fp.sub(d, fp.ofInt(0)) == d && fp.add(d, fp.ofInt(0)) == if d == MINUS_ZERO then fp.ofInt(0) else d)
    && fp.ofInt(0) != MINUS_ZERO
  }

  lemma {:induction false} WholeSub(fp: Floats, a: int, b: int)
    requires Ieee(fp) && InI64(a) && InI64(b)
    ensures fp.whole(fp.sub(fp.ofInt(a), fp.ofInt(b))) == Below(Rounded(Rounded(a) - Rounded(b)))
  {
    hide Rounded, Below;
  }

  lemma {:induction false} WholeMul(fp: Floats, a: int, b: int)
    requires Ieee(fp) && InI64(a) && InI64(b)
    ensures fp.whole(fp.mul(fp.ofInt(a), fp.ofInt(b))) == Below(Rounded(Rounded(a) * Rounded(b)))
  {
    hide Rounded, Below;
  }

  lemma {:induction false} SubIsAdd(fp: Floats, d: Float, k: int)
    requires Ieee(fp) && k != 0
    ensures fp.sub(d, fp.ofInt(k)) == fp.add(d, fp.ofInt(-k))
  {
    hide Rounded, Below;
  }

  /** Taking away 0 and adding 0 differ on the negative zero, and only there. */
  lemma {:induction false} ZeroExact(fp: Floats, d: Float)
    requires Ieee(fp)
    ensures fp.sub(d, fp.ofInt(0)) == fp.add(d, fp.ofInt(0)) <==> d != MINUS_ZERO
  {
  }

  lemma {:induction false} AddSwaps(fp: Floats, x: Float, y: Float)
    requires Ieee(fp)
    ensures fp.add(x, y) == fp.add(y, x)
  {
    hide Rounded, Below;
  }

  /** The exact result, when it is a 64-bit integer. */
  function Exactly(n: int): Option<int> {
    if InI64(n) then Some(n) else None
  }

  /** `x -= k` in one instruction is `x = x - k` exactly when no rounding shows. */
  lemma {:induction false} MinusExact(w: World, n: int, k: int)
    requires Ieee(w.fp) && InI64(n) && InI64(k)
    ensures StepValue(w, Int(n), -k) == Apply(w, Sub, Int(n), Int(k)) <==>
            Below(Rounded(Rounded(n) - Rounded(k))) == Exactly(n - k)
  {
    hide Rounded, Below, Ieee;
    WholeSub(w.fp, n, k);
    if !InI64(n - k) {
      SubIsAdd(w.fp, w.fp.ofInt(n), k);
    }
  }

  lemma {:induction false} TimesExact(w: World, n: int, k: int)
    requires Ieee(w.fp) && InI64(n) && InI64(k)
    ensures MulValue(w, Int(n), k) == Apply(w, Mul, Int(n), Int(k)) <==>
            Below(Rounded(Rounded(n) * Rounded(k))) == Exactly(n * k)
  {
    hide Rounded, Below, Ieee;
    WholeMul(w.fp, n, k);
  }

  /** On anything but an integer the two agree, except for `x -= 0` on the negative zero. */
  lemma {:induction false} OtherOperands(w: World, v: Value, k: int)
    requires Ieee(w.fp) && !v.Int?
    ensures StepValue(w, v, -k) == Apply(w, Sub, v, Int(k)) <==> !(k == 0 && FloatOf(w, v) == Num(MINUS_ZERO))
    ensures MulValue(w, v, k) == Apply(w, Mul, v, Int(k))
  {
    hide Ieee;
    if FloatOf(w, v).Num? {
      if k == 0 {
        ZeroExact(w.fp, FloatOf(w, v).d);
      } else {
        SubIsAdd(w.fp, FloatOf(w, v).d, k);
      }
    }
  }

  /** Whether rounding tells the two forms of `x OP= k` apart. */
  predicate RoundingShows(aop: AssignOp, n: int, k: int) {
    || (aop == MinusEq && Below(Rounded(Rounded(n) - Rounded(k))) != Exactly(n - k))
    || (aop == StarEq && Below(Rounded(Rounded(n) * Rounded(k))) != Exactly(n * k))
  }

  /**
   `x OP= k` with a constant departs exactly when it has an instruction of its own and the
   variable is undefined, an integer on which rounding shows, or the negative zero in `x -= 0`.
   */
  lemma {:induction false} ConstDepartsExact(w: World, aop: AssignOp, k: int, v: Option<Value>)
    requires Ieee(w.fp) && InI64(k) && (v.Some? && v.value.Int? ==> InI64(v.value.n))
    ensures ConstDeparts(w, aop, Lit(Int(k)), v) <==>
            (aop == PlusEq || aop == MinusEq || aop == StarEq)
            && (v.None? || (v.value.Int? && RoundingShows(aop, v.value.n, k))
                || (aop == MinusEq && k == 0 && !v.value.Int? && FloatOf(w, v.value) == Num(MINUS_ZERO)))
  {
    hide Rounded, Below, StepValue, MulValue, Apply, Exactly, Ieee;
    if v.Some? {
      StepIsAdd(w, v.value, k);
      if v.value.Int? {
        MinusExact(w, v.value.n, k);
        TimesExact(w, v.value.n, k);
      } else {
        OtherOperands(w, v.value, k);
      }
    }
  }

  lemma {:induction false} SmallIsExact(n: int)
    requires -EXACT <= n <= EXACT
    ensures Rounded(n) == n
  {
    if n == EXACT || n == -EXACT {
      assert Spacing(EXACT) == 2 * Spacing(EXACT / 2) == 2;
    }
  }

  /** Nothing shows while the operands and the result stay within 2^53. */
  lemma {:induction false} SmallNeverShows(aop: AssignOp, n: int, k: int)
    requires -EXACT <= n <= EXACT && -EXACT <= k <= EXACT
    requires aop == MinusEq ==> -EXACT <= n - k <= EXACT
    requires aop == StarEq ==> -EXACT <= n * k <= EXACT
    ensures !RoundingShows(aop, n, k)
  {
    hide Rounded;
    SmallIsExact(n);
    SmallIsExact(k);
    if aop == MinusEq {
      SmallIsExact(n - k);
    } else if aop == StarEq {
      SmallIsExact(n * k);
    }
  }

  /** An input: with `x` one above 2^53, `x = x - 1` goes down by two, `x -= 1` by one. */
  lemma {:induction false} MinusOneRounds(w: World)
    requires Ieee(w.fp)
    ensures Apply(w, Sub, Int(EXACT + 1), Int(1)) == Val(Int(EXACT - 1))
    ensures StepValue(w, Int(EXACT + 1), -1) == Val(Int(EXACT))
  {
    hide Ieee, Rounded;
    FirstRounded();
    SmallIsExact(1);
    SmallIsExact(EXACT - 1);
    WholeSub(w.fp, EXACT + 1, 1);
  }

  /** The first integer that is no double rounds down. */
  lemma {:induction false} FirstRounded()
    ensures Rounded(EXACT + 1) == EXACT
  {
    assert Spacing(EXACT + 1) == 2 * Spacing((EXACT + 1) / 2) == 2;
    assert (EXACT + 1) / 2 == 0x10_0000_0000_0000 && (EXACT + 1) % 2 == 1;
  }

  // ---- The other shapes of a counted loop's step ----

  /** `i = K + i`: as `i = i + K`. */
  lemma {:induction false} FlippedStepExact(w: World, k: Counted, step: Step, st: State)
    requires Ieee(w.fp) && step.SetTo? && MatchStep(step) == Some(Stride(k.name, k.amount)) && step.e.op == Add && step.e.l.Lit?
    ensures StepDeparts(w, k, st, ExecStep(w, step, st)) <==> !Steppable(Lookup(st.vars, k.name), k.amount)
  {
    hide Ieee;
    var e := step.e;
    var v := Lookup(st.vars, k.name);
    FusedStepIsPlain(w, k.name, v, k.amount);
    assert Eval(w, e.l, st.vars) == Val(Int(k.amount));
    if v.Some? {
      assert Eval(w, e.r, st.vars) == Val(v.value);
      AddCommutes(w, Int(k.amount), v.value);
      assert Eval(w, e, st.vars) == Apply(w, Add, v.value, Int(k.amount)) || (FloatOf(w, v.value).NotANumber? && Eval(w, e, st.vars).Exc?);
      assert Advanced(w, k, st).vars[Fold(k.name)] == FusedStep(w, v, k.amount);
    } else {
      assert Eval(w, e.r, st.vars) == Exc(w.missing(k.name));
    }
  }

  lemma {:induction false} AddCommutes(w: World, a: Value, b: Value)
    requires Ieee(w.fp) && a.Int?
    ensures FloatOf(w, b).Num? ==> Apply(w, Add, a, b) == Apply(w, Add, b, a)
    ensures FloatOf(w, b).NotANumber? ==> Apply(w, Add, a, b).Exc?
  {
    var x := w.fp.ofInt(a.n);
    hide Ieee;
    if FloatOf(w, b).Num? {
      AddSwaps(w.fp, x, FloatOf(w, b).d);
    }
  }

  /** `i = i - K`: doubles, the negative zero excepted when K is 0, and integers on which rounding does not show. */
  lemma {:induction false} MinusStepExact(w: World, k: Counted, step: Step, st: State)
    requires Ieee(w.fp) && step.SetTo? && MatchStep(step) == Some(Stride(k.name, k.amount)) && step.e.op == Sub
    requires InI64(-k.amount)
    requires var v := Lookup(st.vars, k.name); v.Some? && v.value.Int? ==> InI64(v.value.n)
    ensures var v := Lookup(st.vars, k.name);
            StepDeparts(w, k, st, ExecStep(w, step, st)) <==>
            !(v.Some? && ((v.value.Dbl? && !(k.amount == 0 && v.value.d == MINUS_ZERO)) ||
                          (v.value.Int? && Below(Rounded(Rounded(v.value.n) - Rounded(-k.amount))) == Some(Wrap64(v.value.n + k.amount)))))
  {
    hide Rounded, Below, Ieee;
    var e := step.e;
    var v := Lookup(st.vars, k.name);
    assert Eval(w, e.r, st.vars) == Val(Int(-k.amount));
    if v.Some? {
      assert Eval(w, e.l, st.vars) == Val(v.value);
      assert Eval(w, e, st.vars) == Apply(w, Sub, v.value, Int(-k.amount));
      assert Advanced(w, k, st).vars[Fold(k.name)] == FusedStep(w, v, k.amount);
      if v.value.Int? {
        WholeSub(w.fp, v.value.n, -k.amount);
      } else {
        OtherOperands(w, v.value, -k.amount);
      }
    } else {
      assert Eval(w, e.l, st.vars) == Exc(w.missing(k.name));
    }
  }
}
