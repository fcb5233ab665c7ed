/**
 Where a fused or constant-operand instruction departs from the meaning of the
 program, and exactly when.
 */
module Limits {
  import opened Names
  import opened Ast
  import opened Shapes
  import opened Values
  import opened Semantics
  import opened Machine
  import opened Codegen
  import opened ExprCorrect
  import opened Fusion
  import opened Steps

  // ---- Constants that do not fit in 32 bits ----

  /**
   The comparison a fused jump makes agrees with the source comparison on every
   64-bit counter exactly when the constant fits: the check that the flipped form lacks.
   */
  lemma {:induction false} FusedBoundExact(cmp: Cmp, c: int)
    requires InI64(c)
    ensures InI32(c) <==> forall n :: InI64(n) ==> (CmpInt(cmp, n, Wrap32(c)) <==> CmpInt(cmp, n, c))
  {
    if !InI32(c) {
      var k := Wrap32(c);
      var n := match cmp
        case CLt => if k < c then k else c
        case CLte => if k < c then c else k
        case CGt => if k < c then c else k
        case CGte => if k < c then k else c
        case CEq => c
        case CNeq => c;
      assert InI64(n) && CmpInt(cmp, n, k) != CmpInt(cmp, n, c);
    }
  }

  /** A concrete loss: `5000000000 > i` with `i` two billion is true, and its fused jump takes the false branch. */
  lemma {:induction false} FlippedBoundWraps(w: World, f: Frame)
    requires f.vars == map["i" := Int(2_000_000_000)]
    ensures var e := Bin(Gt, Lit(Int(5_000_000_000)), Var("i"));
            && Test(w, e, f.vars) == Yes
            && |CodeCond(e, f.pc, 9)| == 1 && Exec1(w, CodeCond(e, f.pc, 9)[0], f) == Goto(f, 9)
  {
    var e := Bin(Gt, Lit(Int(5_000_000_000)), Var("i"));
    assert Fold("i") == "i";
    assert Eval(w, e.l, f.vars) == Val(Int(5_000_000_000)) && Eval(w, e.r, f.vars) == Val(Int(2_000_000_000));
    assert MatchCmp(e) == Some(Bound("i", 5_000_000_000, CLt));
    assert Wrap32(5_000_000_000) == 705_032_704;
  }

  /** The fused step advances every 64-bit counter by the source amount exactly when the amount fits. */
  lemma {:induction false} FusedStepExact(w: World, amount: int)
    requires InI64(amount)
    ensures InI32(amount) <==>
            forall n :: InI64(n) && InI64(n + amount) ==> FusedStep(w, Some(Int(n)), Wrap32(amount)) == Int(n + amount)
  {
    if !InI32(amount) {
      assert FusedStep(w, Some(Int(0)), Wrap32(amount)) == Int(Wrap32(amount)) != Int(0 + amount);
    }
  }

  /** `for (i = 0; i < 10; i = i + 5000000000) {}`. */
  function WideLoop(): seq<Stmt> {
    [For(Some(InitStep(SetTo("i", Lit(Int(0))))), Some(Bin(Lt, Var("i"), Lit(Int(10)))),
         Some(SetTo("i", Bin(Add, Var("i"), Lit(Int(5_000_000_000))))), [])]
  }

  const WIDE_CODE: seq<Op> :=
    [LineInfo, LineInfo, Const(Int(0)), StoreVar("i"), Pop, JumpCmpFalse("i", 10, CLt, 7),
     LoopStep("i", 10, CLt, 705_032_704, 6), Const(Null), Ret]

  lemma {:induction false} WideForCode(env: Env)
    ensures var s := WideLoop()[0];
            CodeFor(s.test, s.inc, [], 5, env) == Fix([JumpCmpFalse("i", 10, CLt, 7), LoopStep("i", 10, CLt, 705_032_704, 6)])
  {
    var s := WideLoop()[0];
    var k := Counted("i", 10, CLt, 5_000_000_000);
    assert MatchCmp(s.test.value) == Some(Bound("i", 10, CLt));
    assert CountedFor(s.test, s.inc) == Some(k);
    assert CodeB([], 6, InLoop(env)) == [];
    assert CodeCounted(k, [], 6, env) == Fix([LoopStep("i", 10, CLt, 705_032_704, 6)]);
  }

  lemma {:induction false} WideLoopCode()
    ensures CodeFunction(WideLoop()) == WIDE_CODE
  {
    hide CodeFor;
    var env := Env([], None, None);
    var s := WideLoop()[0];
    var i := InitStmt(s.start.value);
    assert CodeStore("i", Lit(Int(0)), 2) == [Const(Int(0)), StoreVar("i")];
    assert CodeS(i, 1, env) == Fix([LineInfo, Const(Int(0)), StoreVar("i"), Pop]);
    WideForCode(env);
    assert CodeBody(s, 1, env) == Fix(WIDE_CODE[1..7]);
    assert WideLoop()[1..] == [] && CodeB([], 7, env) == [];
    assert CodeB(WideLoop(), 0, env) == Fix(WIDE_CODE[..7]);
  }

  /** The loop ends with `i` five billion; the emitted code ends with it truncated to 32 bits. */
  lemma {:induction false} WideStepWraps(w: World)
    requires !w.watch
    ensures RunFunction(w, WideLoop(), map[], 1, true) == Finished(Null, map["i" := Int(5_000_000_000)], [])
    ensures RunN(w, CodeFunction(WideLoop()), 9, Run(Frame(0, [], map[], [], [], None, [])))
         == Done(Null, map["i" := Int(705_032_704)], [])
  {
    WideLoopMeans(w);
    WideLoopCode();
    WideRun(w);
  }

  lemma {:induction false} WideLoopMeans(w: World)
    requires !w.watch
    ensures ExecB(w, WideLoop(), State(map[], [], 1), true) == Normal(State(map["i" := Int(5_000_000_000)], [], 0))
  {
    assert Fold("i") == "i";
    var s := WideLoop()[0];
    var st0, st1 := State(map["i" := Int(0)], [], 1), State(map["i" := Int(5_000_000_000)], [], 0);
    assert Exec(w, InitStmt(s.start.value), State(map[], [], 1), true) == Normal(st0);
    WideTests(w);
    hide Decide, ExecInc;
    assert ExecFor(w, s.test, s.inc, [], st1, true) == Normal(st1);
    assert ExecB(w, [], st0, true) == Normal(st0);
    assert ExecFor(w, s.test, s.inc, [], st0, true) == Normal(st1);
    assert WideLoop()[1..] == [] && ExecB(w, [], st1, true) == Normal(st1);
  }

  lemma {:induction false} WideTests(w: World)
    requires !w.watch
    ensures var s, v0, v1 := WideLoop()[0], map["i" := Int(0)], map["i" := Int(5_000_000_000)];
            && Decide(w, s.test.value, v0) == Yes && Decide(w, s.test.value, v1) == No
            && ExecInc(w, CountedFor(s.test, s.inc), s.inc, State(v0, [], 1)) == Normal(State(v1, [], 1))
  {
    assert Fold("i") == "i";
    var s := WideLoop()[0];
    var st0, st1 := State(map["i" := Int(0)], [], 1), State(map["i" := Int(5_000_000_000)], [], 0);
    assert Eval(w, s.test.value.l, st0.vars) == Val(Int(0)) && Eval(w, s.test.value.r, st0.vars) == Val(Int(10));
    assert Eval(w, s.test.value.l, st1.vars) == Val(Int(5_000_000_000)) && Eval(w, s.test.value.r, st1.vars) == Val(Int(10));
    assert Decide(w, s.test.value, st0.vars) == Yes && Decide(w, s.test.value, st1.vars) == No;
    var e := s.inc.value.e;
    assert Eval(w, e.l, st0.vars) == Val(Int(0)) && Eval(w, e.r, st0.vars) == Val(Int(5_000_000_000));
    assert Eval(w, e, st0.vars) == Val(Int(5_000_000_000));
    assert ExecInc(w, CountedFor(s.test, s.inc), s.inc, st0) == Normal(st1.(budget := 1));
  }

  lemma {:induction false} WideRun(w: World)
    ensures RunN(w, WIDE_CODE, 9, Run(Frame(0, [], map[], [], [], None, []))) == Done(Null, map["i" := Int(705_032_704)], [])
  {
    hide RunN;
    WideStart(w, WIDE_CODE);
    WideEnd(w, WIDE_CODE);
    RunAdd(w, WIDE_CODE, 5, 4, Run(Frame(0, [], map[], [], [], None, [])));
  }

  lemma {:induction false} WideStart(w: World, code: seq<Op>)
    requires |code| == 9 && code[0] == code[1] == LineInfo && code[2] == Const(Int(0)) && code[3] == StoreVar("i") && code[4] == Pop
    ensures RunN(w, code, 5, Run(Frame(0, [], map[], [], [], None, []))) == Run(Frame(5, [], map["i" := Int(0)], [], [], None, []))
  {
    hide RunN, Exec1;
    assert Fold("i") == "i";
    var f := Frame(0, [], map[], [], [], None, []);
    StepSkip(w, code, f, LineInfo);
    StepSkip(w, code, f.(pc := 1), LineInfo);
    RunAdd(w, code, 1, 1, Run(f));
    StepConst(w, code, f.(pc := 2), Int(0));
    RunAdd(w, code, 2, 1, Run(f));
    StepStore(w, code, f.(pc := 3, stack := [] + [Int(0)]), "i", [], Int(0));
    RunAdd(w, code, 3, 1, Run(f));
    StepPop(w, code, f.(pc := 4, vars := map["i" := Int(0)]));
    RunAdd(w, code, 4, 1, Run(f));
  }

  lemma {:induction false} WideEnd(w: World, code: seq<Op>)
    requires |code| == 9 && code[5] == JumpCmpFalse("i", 10, CLt, 7) && code[6] == LoopStep("i", 10, CLt, 705_032_704, 6)
    requires code[7] == Const(Null) && code[8] == Ret
    ensures RunN(w, code, 4, Run(Frame(5, [], map["i" := Int(0)], [], [], None, []))) == Done(Null, map["i" := Int(705_032_704)], [])
  {
    hide RunN, Exec1;
    assert Fold("i") == "i";
    var g := Frame(5, [], map["i" := Int(0)], [], [], None, []);
    StepCmp(w, code, g, "i", 10, CLt, 7);
    StepLoop(w, code, g.(pc := 6), "i", 10, CLt, 705_032_704, 6);
    assert map["i" := Int(0)]["i" := Int(705_032_704)] == map["i" := Int(705_032_704)];
    assert FusedStep(w, Some(Int(0)), 705_032_704) == Int(705_032_704);
    RunAdd(w, code, 1, 1, Run(g));
    var h := Frame(7, [], map["i" := Int(705_032_704)], [], [], None, []);
    StepConst(w, code, h, Null);
    RunAdd(w, code, 2, 1, Run(g));
    StepRet(w, code, h.(pc := 8, stack := [] + [Null]), [], Null);
    RunAdd(w, code, 3, 1, Run(g));
  }

  // ---- Fused steps ----

  /** What the statement a fused step replaces does to its counter. */
  function PlainStep(w: World, name: string, v: Option<Value>, amount: int): Res {
    match v
    case None => Exc(w.missing(name))
    case Some(v) => StepValue(w, v, amount)
  }

  /** Doubles, and integers whose step stays within 64 bits. */
  predicate Steppable(v: Option<Value>, amount: int) {
    v.Some? && (v.value.Dbl? || (v.value.Int? && InI64(v.value.n + amount)))
  }

  /** The fused step is the plain step exactly on these counters. */
  lemma {:induction false} FusedStepIsPlain(w: World, name: string, v: Option<Value>, amount: int)
    ensures Val(FusedStep(w, v, amount)) == PlainStep(w, name, v, amount) <==> Steppable(v, amount)
  {
  }

  /** At the largest integer the plain step promotes to a double; the fused one wraps to the smallest. */
  lemma {:induction false} FusedStepOverflows(w: World)
    ensures var max := 0x7FFF_FFFF_FFFF_FFFF;
            && FusedStep(w, Some(Int(max)), 1) == Int(-0x8000_0000_0000_0000)
            && StepValue(w, Int(max), 1) == Val(Dbl(w.fp.add(w.fp.ofInt(max), w.fp.ofInt(1))))
  {
  }

  /** So a loop whose counter goes up by `i++`, `i--` or `i = i + K` departs exactly where the step does. */
  lemma {:induction false} CountedStepExact(w: World, k: Counted, step: Step, st: State)
    requires MatchStep(step) == Some(Stride(k.name, k.amount))
    requires step.SetTo? ==> step.e.op == Add && step.e.l.Var?
    ensures StepDeparts(w, k, st, ExecStep(w, step, st)) <==> !Steppable(Lookup(st.vars, k.name), k.amount)
  {
    hide FusedStep, StepValue;
    var v := Lookup(st.vars, k.name);
    FusedStepIsPlain(w, k.name, v, k.amount);
    if step.SetTo? {
      SetToStep(w, k, step, st);
    }
    if v.Some? {
      assert Advanced(w, k, st).vars[Fold(k.name)] == FusedStep(w, v, k.amount);
    }
  }

  lemma {:induction false} SetToStep(w: World, k: Counted, step: Step, st: State)
    requires step.SetTo? && MatchStep(step) == Some(Stride(k.name, k.amount)) && step.e.op == Add && step.e.l.Var?
    ensures ExecStep(w, step, st) == Updated(k.name, PlainStep(w, k.name, Lookup(st.vars, k.name), k.amount), st)
  {
    hide Apply, StepValue;
    var e := step.e;
    assert e != Lit(Null);
    assert Eval(w, e.r, st.vars) == Val(Int(k.amount));
    if Lookup(st.vars, k.name).Some? {
      var v := Lookup(st.vars, k.name).value;
      assert Eval(w, e.l, st.vars) == Val(v);
      StepIsAdd(w, v, k.amount);
      assert Eval(w, e, st.vars) == StepValue(w, v, k.amount);
    } else {
      assert Eval(w, e.l, st.vars) == Exc(w.missing(k.name));
    }
  }

  /** `x += K` and `x -= K` mean `x = x + K` and `x = x - K`, so as strides they depart where those do. */
  lemma {:induction false} StrideAsStep(w: World, x: string, aop: AssignOp, amount: int, st: State)
    requires !w.watch && (aop == PlusEq || aop == MinusEq)
    ensures ExecAssign(w, x, aop, Lit(Int(amount)), st) == ExecStep(w, SetTo(x, Bin(BinOf(aop), Var(x), Lit(Int(amount)))), st)
  {
    hide Apply;
    var e := Bin(BinOf(aop), Var(x), Lit(Int(amount)));
    assert Eval(w, e.r, st.vars) == Val(Int(amount));
    if Lookup(st.vars, x).Some? {
      assert Eval(w, e.l, st.vars) == Val(Lookup(st.vars, x).value);
    } else {
      assert Eval(w, e.l, st.vars) == Exc(w.missing(x));
    }
  }

  // ---- Undefined counters ----

  /** A constant-operand instruction does what its statement means exactly when the variable is defined. */
  lemma {:induction false} ConstOpExact(w: World, op: Op, f: Frame)
    requires op.Incr? || op.AddConst?
    ensures UpdatedIn(PlainStep(w, op.name, Lookup(f.vars, op.name), op.amount), f, op.name, Exec1(w, op, f))
            <==> Lookup(f.vars, op.name).Some?
  {
    hide StepValue;
  }

  // ---- Fused tests ----

  /** A double and the bound do not compare, as with NaN; only `<=` and `>=` tell. */
  predicate Unordered(fp: Floats, cmp: Cmp, v: Value, limit: int) {
    && v.Dbl? && (cmp == CLte || cmp == CGte)
    && !fp.less(v.d, fp.ofInt(limit)) && !fp.less(fp.ofInt(limit), v.d) && !fp.same(v.d, fp.ofInt(limit))
  }

  /** Equal doubles are neither below nor above each other. */
  ghost predicate Ordered(fp: Floats) {
    forall x, y :: (fp.less(x, y) ==> !fp.less(y, x) && !fp.same(x, y)) && (fp.same(x, y) <==> fp.same(y, x))
  }

  lemma {:induction false} FusedFloatsExact(fp: Floats, cmp: Cmp, a: Float, b: Float)
    requires Ordered(fp)
    ensures FusedFloats(fp, cmp, a, b) == CompareFloats(fp, cmp, a, b) <==>
            !((cmp == CLte || cmp == CGte) && !fp.less(a, b) && !fp.less(b, a) && !fp.same(a, b))
  {
    assert fp.less(a, b) ==> !fp.less(b, a) && !fp.same(a, b);
    assert fp.less(b, a) ==> !fp.less(a, b) && !fp.same(b, a);
    assert fp.same(a, b) <==> fp.same(b, a);
  }

  lemma {:induction false} FusedTestValue(w: World, cmp: Cmp, v: Value, limit: int)
    requires Ordered(w.fp)
    ensures FusedTest(w, cmp, v, limit) == Compare(w, cmp, v, Int(limit)) <==> !Unordered(w.fp, cmp, v, limit)
  {
    if v.Dbl? {
      FusedFloatsExact(w.fp, cmp, v.d, w.fp.ofInt(limit));
    }
  }

  /** A recognised condition departs exactly when its variable is undefined or does not compare. */
  lemma {:induction false} TestDepartsExact(w: World, e: Expr, vars: Vars)
    requires Ordered(w.fp) && MatchCmp(e).Some?
    ensures var b := MatchCmp(e).value;
            var v := Lookup(vars, b.name);
            TestDeparts(w, e, vars) <==> v.None? || Unordered(w.fp, b.cmp, v.value, b.limit)
  {
    hide FusedTest, Compare, Unordered;
    var b := MatchCmp(e).value;
    if Lookup(vars, b.name).Some? {
      FusedTestValue(w, b.cmp, Lookup(vars, b.name).value, b.limit);
    }
  }

  /** Both runs fall through, or both jump, and neither raises. */
  ghost predicate SameWay(f: Frame, t: nat, len: nat, c: Config, d: Config) {
    || (c == Run(f.(pc := f.pc + len)) && d == Run(f.(pc := f.pc + 1)))
    || (c == Run(f.(pc := t)) && d == Run(f.(pc := t)))
  }

  /**
   Every recognised condition with a 32-bit limit: its fused jump and the plain code of the
   condition followed by a jump go the same way exactly when the variable is defined and compares.
   */
  lemma {:induction false} FusedTestExact(w: World, plain: seq<Op>, fused: seq<Op>, e: Expr, f: Frame, t: nat) returns (n: nat, c: Config)
    requires Lawful(w) && Ordered(w.fp) && MatchCmp(e).Some? && InI32(MatchCmp(e).value.limit)
    requires At(plain, f.pc, CodeE(e, f.pc) + [JumpIfFalse(t)]) && At(fused, f.pc, CodeCond(e, f.pc, t))
    requires t != f.pc + 1 && t != f.pc + |CodeE(e, f.pc)| + 1
    ensures RunN(w, plain, n, Run(f)) == c
    ensures var b := MatchCmp(e).value;
            var v := Lookup(f.vars, b.name);
            SameWay(f, t, |CodeE(e, f.pc)| + 1, c, RunN(w, fused, 1, Run(f)))
            <==> v.Some? && !Unordered(w.fp, b.cmp, v.value, b.limit)
  {
    hide RunN, At, CodeE, Eval, Test, Compare, FusedTest, MatchCmp, Unordered;
    var b := MatchCmp(e).value;
    n, c := RunPlainCond(w, plain, e, f, false, t);
    MatchedTest(w, e, f.vars);
    AtOne(fused, f.pc, CodeCond(e, f.pc, t), 0);
    StepCmp(w, fused, f, b.name, b.limit, b.cmp, t);
    var v := Lookup(f.vars, b.name);
    if v.Some? {
      FusedTestValue(w, b.cmp, v.value, b.limit);
    } else {
      RaisedElsewhere(f, w.missing(b.name), c);
    }
  }

  /** Raising an exception changes more than the program counter. */
  lemma {:induction false} RaisedElsewhere(f: Frame, x: Value, c: Config)
    requires RaisedIn(f, x, c)
    ensures forall pc: nat :: c != Run(f.(pc := pc))
  {
  }

  /** An input: `i < K` with `i` undefined compares null in fused form, and throws in plain form. */
  lemma {:induction false} UndefinedReadsNull(w: World, f: Frame, k: int)
    requires Fold("i") !in f.vars && InI32(k)
    ensures var e := Bin(Lt, Var("i"), Lit(Int(k)));
            && CodeCond(e, f.pc, 9) == [JumpCmpFalse("i", k, CLt, 9)]
            && Exec1(w, CodeCond(e, f.pc, 9)[0], f) == (if w.order(Null, Int(k)) < 0 then Next(f) else Goto(f, 9))
            && Exec1(w, CodeE(e, f.pc)[0], f) == RaiseAt(f, w.missing("i"))
  {
    var e := Bin(Lt, Var("i"), Lit(Int(k)));
    assert CodeE(e.l, f.pc) == [Load("i")];
    assert Exec1(w, Load("i"), f) == RaiseAt(f, w.missing("i"));
  }
}
