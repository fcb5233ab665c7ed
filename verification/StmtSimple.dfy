/** Conditions and statements without control flow of their own. */
module StmtSimple {
  import opened Names
  import opened Ast
  import opened Shapes
  import opened Values
  import opened Semantics
  import opened Machine
  import opened Codegen
  import opened ExprCorrect
  import opened Fusion
  import opened Steps
  import opened Simulation

  /** Temporaries are invisible to fused tests on user variables. */
  lemma {:induction false} BoundUser(w: World, name: string, limit: int, cmp: Cmp, vars: Vars)
    requires UserName(name)
    ensures FusedBound(w, name, limit, cmp, vars) == FusedBound(w, name, limit, cmp, UserVars(vars))
  {
  }

  lemma {:induction false} MatchedName(e: Expr)
    requires CondOk(e) && MatchCmp(e).Some?
    ensures UserName(MatchCmp(e).value.name) && InI32(MatchCmp(e).value.limit)
  {
    assert ExprOk(e.l) && ExprOk(e.r);
  }

  /** A condition, fused or not, decides as the interpreter does. */
  lemma {:induction false} RunCond(k: Ctx, e: Expr, f: Frame, st: State, t: nat) returns (n: nat, c: Config)
    requires Ready(k, f, st) && CondOk(e)
    requires At(k.code, f.pc, CodeCond(e, f.pc, t))
    ensures RunN(k.w, k.code, n, Run(f)) == c && n >= 1
    ensures Decided(Decide(k.w, e, st.vars), f, CondLen(e, f.pc), t, c)
  {
    hide RunN, Exec1, At, CodeE, Eval, Test, TestDeparts, RaisedIn, TruthOf, MatchCmp, FusedBound, Fold, UserVars;
    match MatchCmp(e) {
      case Some(b) =>
        MatchedName(e);
        FusedDecides(k.w, e, st.vars);
        BoundUser(k.w, b.name, b.limit, b.cmp, f.vars);
        AtOne(k.code, f.pc, CodeCond(e, f.pc, t), 0);
        StepCmp(k.w, k.code, f, b.name, b.limit, b.cmp, t);
        n, c := 1, RunN(k.w, k.code, 1, Run(f));
      case None =>
        EvalUser(k.w, e, f.vars);
        PlainDecides(k.w, e, st.vars);
        n, c := RunPlainCond(k.w, k.code, e, f, false, t);
    }
  }

  lemma {:induction false} PlainDecides(w: World, e: Expr, vars: Vars)
    requires MatchCmp(e).None?
    ensures Decide(w, e, vars) == Test(w, e, vars)
  {
  }

  /** A run that only moved the program counter and the stack keeps the frame. */
  lemma {:induction false} SameKept(k: Ctx, f: Frame, g: Frame)
    requires g == f.(pc := g.pc, stack := g.stack)
    ensures Kept(k, f, g)
  {
  }

  lemma {:induction false} MatchSet(f: Frame, st: State, name: string, v: Value)
    requires Match(f, st) && UserName(name)
    ensures Match(SetVar(f, name, v), st.(vars := st.vars[Fold(name) := v]))
    ensures RetSlot(SetVar(f, name, v).vars) == RetSlot(f.vars)
  {
    hide Fold;
    assert IsTemp(Fold(RETVAL));
    UserVarsSet(f.vars, Fold(name), v);
  }

  /** Landing after a store to a user variable. */
  lemma {:induction false} StoredLands(k: Ctx, f: Frame, g: Frame, st: State, name: string, v: Value, n: nat)
    requires Match(f, st) && UserName(name)
    requires g == SetVar(f, name, v).(pc := g.pc, stack := g.stack)
    ensures Lands(k, f, st.budget, st.(vars := st.vars[Fold(name) := v]), g.pc, n, Run(g))
  {
    hide Fold, UserVars, RetSlot;
    MatchSet(f, st, name, v);
  }

  /** An expression's code has pushed its value or raised its exception. */
  ghost predicate Evaluated(k: Ctx, r: Res, f: Frame, st: State, len: nat, n: nat, c: Config) {
    match r
    case Val(v) => c == Run(f.(pc := f.pc + len, stack := f.stack + [v]))
    case Exc(x) => Raises(k, f, st.budget, st, x, n, c)
  }

  /** Evaluating a user expression in a matching frame. */
  lemma {:induction false} RunUserExpr(k: Ctx, e: Expr, f: Frame, st: State) returns (n: nat, c: Config)
    requires Match(f, st) && ExprOk(e) && At(k.code, f.pc, CodeE(e, f.pc))
    ensures RunN(k.w, k.code, n, Run(f)) == c && n >= 1
    ensures Evaluated(k, Eval(k.w, e, st.vars), f, st, |CodeE(e, f.pc)|, n, c)
  {
    hide RunN, At, CodeE, Eval, RaisedIn, UserVars, Raises;
    EvalUser(k.w, e, f.vars);
    n, c := RunExpr(k.w, k.code, e, f);
    var r := Eval(k.w, e, f.vars);
    if r.Exc? {
      RaisedFromExpr(k, f, st, r.x, n, c);
    }
  }

  lemma {:induction false} RunStore(k: Ctx, name: string, e: Expr, f: Frame, st: State) returns (n: nat, c: Config)
    requires Match(f, st) && UserName(name) && ExprOk(e)
    requires At(k.code, f.pc, CodeStore(name, e, f.pc))
    ensures RunN(k.w, k.code, n, Run(f)) == c
    ensures Ends(k, f, st.budget, ExecSet(k.w, name, e, st), f.pc + |CodeStore(name, e, f.pc)|, n, c)
  {
    if e == Lit(Null) {
      n, c := RunStoreNull(k, name, f, st);
    } else {
      n, c := RunStoreValue(k, name, e, f, st);
    }
  }

  lemma {:induction false} RunStoreValue(k: Ctx, name: string, e: Expr, f: Frame, st: State) returns (n: nat, c: Config)
    requires Match(f, st) && UserName(name) && ExprOk(e) && e != Lit(Null)
    requires At(k.code, f.pc, CodeStore(name, e, f.pc))
    ensures RunN(k.w, k.code, n, Run(f)) == c
    ensures Ends(k, f, st.budget, ExecSet(k.w, name, e, st), f.pc + |CodeStore(name, e, f.pc)|, n, c)
  {
    hide RunN, At, CodeE, Eval, Raises, Match, Fold, Lands, Exec1, Jumps, Returns, Unwind;
    var a := CodeE(e, f.pc);
    AtSplit(k.code, f.pc, a, [StoreVar(name)]);
    n, c := RunUserExpr(k, e, f, st);
    var r := Eval(k.w, e, st.vars);
    if r.Val? {
      var f1 := f.(pc := f.pc + |a|, stack := f.stack + [r.v]);
      AtOne(k.code, f.pc + |a|, [StoreVar(name)], 0);
      StepStore(k.w, k.code, f1, name, f.stack, r.v);
      RunAdd(k.w, k.code, n, 1, Run(f));
      n, c := n + 1, RunN(k.w, k.code, 1, Run(f1));
      StoredLands(k, f, c.f, st, name, r.v, n);
    }
  }

  /** The guarded form on null: pop it, delete the variable, jump past the store. */
  lemma {:induction false} RunNullGuard(k: Ctx, name: string, f: Frame)
    requires At(k.code, f.pc, NullStore(name, f.pc))
    ensures RunN(k.w, k.code, 5, Run(f)) == Run(f.(pc := f.pc + 6, vars := f.vars - {Fold(name)}))
  {
    hide RunN, At, Fold, Exec1;
    var at := f.pc;
    var ops := NullStore(name, at);
    AtOne(k.code, at, ops, 0);
    AtOne(k.code, at, ops, 1);
    AtOne(k.code, at, ops, 2);
    AtOne(k.code, at, ops, 3);
    AtOne(k.code, at, ops, 4);
    StepConst(k.w, k.code, f, Null);
    var f1 := Push(f, Null).f;
    StepNotNull(k.w, k.code, f1, at + 5, f.stack);
    RunAdd(k.w, k.code, 1, 1, Run(f));
    var f2 := Next(f1).f;
    StepPop(k.w, k.code, f2);
    RunAdd(k.w, k.code, 2, 1, Run(f));
    assert Front(f2.stack) == f.stack;
    var f3 := f.(pc := at + 3);
    StepUnset(k.w, k.code, f3, name);
    RunAdd(k.w, k.code, 3, 1, Run(f));
    var f4 := f.(pc := at + 4, vars := f.vars - {Fold(name)});
    StepJump(k.w, k.code, f4, at + 6);
    RunAdd(k.w, k.code, 4, 1, Run(f));
  }

  function NullStore(name: string, at: nat): seq<Op> {
    [Const(Null), JumpIfNotNull(at + 5), Pop, Unset(name), Jump(at + 6), StoreVar(name)]
  }

  lemma {:induction false} RunStoreNull(k: Ctx, name: string, f: Frame, st: State) returns (n: nat, c: Config)
    requires Match(f, st) && UserName(name)
    requires At(k.code, f.pc, CodeStore(name, Lit(Null), f.pc))
    ensures RunN(k.w, k.code, n, Run(f)) == c
    ensures Ends(k, f, st.budget, ExecSet(k.w, name, Lit(Null), st),
                 f.pc + |CodeStore(name, Lit(Null), f.pc)|, n, c)
  {
    hide RunN, At, Fold, UserVars, RetSlot, IsTemp, Jumps, Raises, Returns, Unwind;
    assert CodeStore(name, Lit(Null), f.pc) == NullStore(name, f.pc);
    RunNullGuard(k, name, f);
    n, c := 5, Run(f.(pc := f.pc + 6, vars := f.vars - {Fold(name)}));
    UserVarsUnset(f.vars, Fold(name));
  }

  /** An instruction that updates a user variable in place has run. */
  lemma {:induction false} UpdatedEnds(k: Ctx, r: Res, name: string, f: Frame, st: State, c: Config)
    requires Match(f, st) && UserName(name) && UpdatedIn(r, f, name, c)
    ensures Ends(k, f, st.budget, Updated(name, r, st), f.pc + 1, 1, c)
  {
    hide Fold, UserVars, RaisedIn, Raises, Lands;
    match r {
      case Val(v) => StoredLands(k, f, c.f, st, name, v, 1);
      case Exc(x) => RaisedFromExpr(k, f, st, x, 1, c);
    }
  }

  /** Stepping a counter in the machine. */
  lemma {:induction false} RunIncr(k: Ctx, op: Op, f: Frame, st: State)
    requires Match(f, st) && (op.Incr? || op.AddConst?) && UserName(op.name)
    requires At(k.code, f.pc, [op]) && Lookup(st.vars, op.name).Some?
    ensures Ends(k, f, st.budget, Updated(op.name, StepValue(k.w, Lookup(st.vars, op.name).value, op.amount), st),
                 f.pc + 1, 1, RunN(k.w, k.code, 1, Run(f)))
  {
    hide RunN, At, Fold, Ends, Updated, StepValue, Lookup, Match, UserName, UpdatedIn;
    AtOne(k.code, f.pc, [op], 0);
    LookupUser(f, st, op.name);
    var v := Lookup(st.vars, op.name).value;
    StepIncr(k.w, k.code, f, op, v);
    UpdatedEnds(k, StepValue(k.w, v, op.amount), op.name, f, st, RunN(k.w, k.code, 1, Run(f)));
  }

  /** One more instruction that touches only the stack. */
  lemma {:induction false} LandsNext(k: Ctx, f0: Frame, b0: nat, st: State, pc: nat, n: nat, c: Config, g: Frame)
    requires Lands(k, f0, b0, st, pc, n, c)
    requires g == c.f.(pc := g.pc, stack := g.stack)
    ensures Lands(k, f0, b0, st, g.pc, n + 1, Run(g))
  {
    SameKept(k, c.f, g);
    KeptTrans(k, f0, c.f, g);
  }

  lemma {:induction false} RunStepCode(k: Ctx, step: Step, f: Frame, st: State) returns (n: nat, c: Config)
    requires Match(f, st) && StepOk(step) && k.w.watch
    requires At(k.code, f.pc, CodeStep(step, f.pc))
    ensures RunN(k.w, k.code, n, Run(f)) == c
    ensures Ends(k, f, st.budget, ExecStep(k.w, step, st), f.pc + |CodeStep(step, f.pc)|, n, c)
  {
    hide RunN, At, CodeStore, Match, Lands, Fold, ExecSet, Raises, Updated, StepValue, Lookup;
    match step {
      case IncDec(name, up) =>
        n, c := 1, RunN(k.w, k.code, 1, Run(f));
        if Lookup(st.vars, name).Some? {
          RunIncr(k, Incr(name, if up then 1 else -1), f, st);
        }
      case SetTo(name, e) => n, c := RunStorePop(k, name, e, f, st);
    }
  }

  lemma {:induction false} RunStorePop(k: Ctx, name: string, e: Expr, f: Frame, st: State) returns (n: nat, c: Config)
    requires Match(f, st) && UserName(name) && ExprOk(e)
    requires At(k.code, f.pc, CodeStore(name, e, f.pc) + [Pop])
    ensures RunN(k.w, k.code, n, Run(f)) == c
    ensures Ends(k, f, st.budget, ExecSet(k.w, name, e, st), f.pc + |CodeStore(name, e, f.pc)| + 1, n, c)
  {
    hide RunN, At, CodeStore, Match, Lands, Fold, Raises;
    var a := CodeStore(name, e, f.pc);
    AtSplit(k.code, f.pc, a, [Pop]);
    n, c := RunStore(k, name, e, f, st);
    var o := ExecSet(k.w, name, e, st);
    if o.Normal? {
      LandsRuns(k, f, st.budget, o.st, f.pc + |a|, n, c);
      AtOne(k.code, f.pc + |a|, [Pop], 0);
      StepPop(k.w, k.code, c.f);
      RunAdd(k.w, k.code, n, 1, Run(f));
      var g := Next(c.f.(stack := Front(c.f.stack))).f;
      LandsNext(k, f, st.budget, o.st, f.pc + |a|, n, c, g);
      n, c := n + 1, Run(g);
    }
  }

  lemma {:induction false} LandsRuns(k: Ctx, f0: Frame, b0: nat, st: State, pc: nat, n: nat, c: Config)
    requires Lands(k, f0, b0, st, pc, n, c)
    ensures c.Run? && c.f.pc == pc && Match(c.f, st)
  {
  }

  function ConstOp(x: string, aop: AssignOp, amount: int): Op {
    match aop
    case StarEq => MulConst(x, amount)
    case MinusEq => AddConst(x, -amount)
    case _ => AddConst(x, amount)
  }

  /** `x += K`, `x -= K` and `x *= K` in one instruction. */
  lemma {:induction false} RunConst(k: Ctx, x: string, aop: AssignOp, amount: int, f: Frame, st: State)
    requires Match(f, st) && UserName(x) && k.w.watch && (aop == PlusEq || aop == MinusEq || aop == StarEq)
    requires At(k.code, f.pc, [ConstOp(x, aop, amount)])
    ensures Ends(k, f, st.budget, ExecAssign(k.w, x, aop, Lit(Int(amount)), st), f.pc + 1, 1, RunN(k.w, k.code, 1, Run(f)))
  {
    hide RunN, At, Fold, Apply, Updated, StepValue, MulValue, Lookup, Match, UserName, UpdatedIn, Ends;
    UnfoldLit(k.w, Int(amount), 0, st.vars);
    var o := ExecAssign(k.w, x, aop, Lit(Int(amount)), st);
    var c := RunN(k.w, k.code, 1, Run(f));
    if o.Stuck? {
      EndsStuck(k, f, st.budget, f.pc + 1, 1, c);
    } else if aop == StarEq {
      AtOne(k.code, f.pc, [ConstOp(x, aop, amount)], 0);
      LookupUser(f, st, x);
      var v := Lookup(st.vars, x).value;
      StepMul(k.w, k.code, f, x, amount, v);
      UpdatedEnds(k, MulValue(k.w, v, amount), x, f, st, c);
    } else {
      RunIncr(k, ConstOp(x, aop, amount), f, st);
    }
  }

  lemma {:induction false} LookupUser(f: Frame, st: State, name: string)
    requires Match(f, st) && UserName(name)
    ensures Lookup(f.vars, name) == Lookup(st.vars, name)
  {
    hide Fold;
  }

  /** `x OP= e`: the right side, the current value, swap, operate, store. */
  lemma {:induction false} RunCompound(k: Ctx, x: string, aop: AssignOp, e: Expr, f: Frame, st: State) returns (n: nat, c: Config)
    requires Match(f, st) && UserName(x) && ExprOk(e) && aop != Set && ConstResult(k.w, aop, e, Null).None?
    requires At(k.code, f.pc, CodeE(e, f.pc) + [Load(x), Swap, Binary(BinOf(aop)), StoreVar(x)])
    ensures RunN(k.w, k.code, n, Run(f)) == c
    ensures Ends(k, f, st.budget, ExecAssign(k.w, x, aop, e, st), f.pc + |CodeE(e, f.pc)| + 4, n, c)
  {
    hide RunN, At, Fold, Apply, RaisedIn, UserVars, Lands, Raises, CodeE, Eval, Match, Lookup, ExecAssign, ConstResult;
    CompoundMeans(k.w, x, aop, e, st);
    var a := CodeE(e, f.pc);
    var tail := [Load(x), Swap, Binary(BinOf(aop)), StoreVar(x)];
    AtSplit(k.code, f.pc, a, tail);
    n, c := RunUserExpr(k, e, f, st);
    var r := Eval(k.w, e, st.vars);
    if r.Val? {
      LookupUser(f, st, x);
      var f1 := f.(pc := f.pc + |a|);
      var y := Operated(k.w, aop, x, Lookup(st.vars, x), r.v);
      var m, d := RunCompoundTail(k, x, aop, f1, r.v);
      RunAdd(k.w, k.code, n, m, Run(f));
      n, c := n + m, d;
      if y.Val? {
        StoredLands(k, f, c.f, st, x, y.v, n);
      } else {
        RaisedSame(f, f1, y.x, c);
        RaisedFromExpr(k, f, st, y.x, n, c);
      }
    }
  }

  lemma {:induction false} CompoundMeans(w: World, x: string, aop: AssignOp, e: Expr, st: State)
    requires aop != Set && ConstResult(w, aop, e, Null).None?
    ensures ExecAssign(w, x, aop, e, st) ==
            match Eval(w, e, st.vars)
            case Exc(y) => Thrown(st, y)
            case Val(b) => Updated(x, Operated(w, aop, x, Lookup(st.vars, x), b), st)
  {
    hide Fold, Apply, Eval, Lookup, StepValue, MulValue;
  }

  function Operated(w: World, aop: AssignOp, x: string, a: Option<Value>, b: Value): Res {
    match a
    case None => Exc(w.missing(x))
    case Some(a) => Apply(w, BinOf(aop), a, b)
  }

  /** The operator's result has been stored, or its exception raised. */
  ghost predicate Combined(r: Res, f: Frame, x: string, c: Config) {
    match r
    case Val(v) => c == Run(SetVar(f.(pc := f.pc + 4), x, v))
    case Exc(y) => RaisedIn(f, y, c)
  }

  lemma {:induction false} RunCompoundTail(k: Ctx, x: string, aop: AssignOp, f: Frame, b: Value) returns (n: nat, c: Config)
    requires At(k.code, f.pc, [Load(x), Swap, Binary(BinOf(aop)), StoreVar(x)])
    ensures RunN(k.w, k.code, n, Run(f.(stack := f.stack + [b]))) == c
    ensures Combined(Operated(k.w, aop, x, Lookup(f.vars, x), b), f, x, c)
  {
    hide RunN, At, Fold, Apply, RaisedIn, Lookup;
    var tail := [Load(x), Swap, Binary(BinOf(aop)), StoreVar(x)];
    AtOne(k.code, f.pc, tail, 0);
    var f0 := f.(stack := f.stack + [b]);
    StepLoad(k.w, k.code, f0, x);
    if Lookup(f.vars, x).None? {
      n, c := 1, RunN(k.w, k.code, 1, Run(f0));
      RaisedSame(f, f0, k.w.missing(x), c);
    } else {
      n, c := RunOperate(k, x, aop, f, Lookup(f.vars, x).value, b);
    }
  }

  lemma {:induction false} RunLoadSwap(k: Ctx, x: string, f: Frame, a: Value, b: Value)
    requires f.pc + 1 < |k.code| && k.code[f.pc] == Load(x) && k.code[f.pc + 1] == Swap && Lookup(f.vars, x) == Some(a)
    ensures RunN(k.w, k.code, 2, Run(f.(stack := f.stack + [b]))) == Run(f.(pc := f.pc + 2, stack := f.stack + [a] + [b]))
  {
    hide RunN, Fold, Lookup;
    var f0 := f.(stack := f.stack + [b]);
    StepLoad(k.w, k.code, f0, x);
    var f1 := f.(pc := f.pc + 1, stack := f.stack + [b] + [a]);
    StepSwap(k.w, k.code, f1, f.stack, b, a);
    RunAdd(k.w, k.code, 1, 1, Run(f0));
  }

  lemma {:induction false} RunOperate(k: Ctx, x: string, aop: AssignOp, f: Frame, a: Value, b: Value) returns (n: nat, c: Config)
    requires At(k.code, f.pc, [Load(x), Swap, Binary(BinOf(aop)), StoreVar(x)]) && Lookup(f.vars, x) == Some(a)
    ensures RunN(k.w, k.code, n, Run(f.(stack := f.stack + [b]))) == c
    ensures Combined(Apply(k.w, BinOf(aop), a, b), f, x, c)
  {
    hide RunN, At, Fold, Apply, RaisedIn, Lookup;
    var tail := [Load(x), Swap, Binary(BinOf(aop)), StoreVar(x)];
    AtOne(k.code, f.pc, tail, 0);
    AtOne(k.code, f.pc, tail, 1);
    AtOne(k.code, f.pc, tail, 2);
    AtOne(k.code, f.pc, tail, 3);
    var f0 := f.(stack := f.stack + [b]);
    var f2 := f.(pc := f.pc + 2, stack := f.stack + [a] + [b]);
    RunLoadSwap(k, x, f, a, b);
    StepBinary(k.w, k.code, f2, BinOf(aop), f.stack, a, b);
    RunAdd(k.w, k.code, 2, 1, Run(f0));
    n, c := 3, RunN(k.w, k.code, 1, Run(f2));
    match Apply(k.w, BinOf(aop), a, b) {
      case Val(v) =>
        var f3 := f.(pc := f.pc + 3, stack := f.stack + [v]);
        StepStore(k.w, k.code, f3, x, f.stack, v);
        RunAdd(k.w, k.code, 3, 1, Run(f0));
        n, c := 4, Run(SetVar(f.(pc := f.pc + 4), x, v));
      case Exc(y) => RaisedSame(f, f2.(stack := f.stack), y, c);
    }
  }

  lemma {:induction false} RunAssign(k: Ctx, x: string, aop: AssignOp, e: Expr, f: Frame, st: State) returns (n: nat, c: Config)
    requires Match(f, st) && UserName(x) && ExprOk(e) && k.w.watch
    requires At(k.code, f.pc, CodeAssign(x, aop, e, f.pc))
    ensures RunN(k.w, k.code, n, Run(f)) == c
    ensures Ends(k, f, st.budget, ExecAssign(k.w, x, aop, e, st), f.pc + |CodeAssign(x, aop, e, f.pc)|, n, c)
  {
    hide RunN, At, Match, Ends, Fold, Eval, CodeE, CodeStore, ExecSet, Apply, StepValue, MulValue, Lookup, Updated;
    if (aop == PlusEq || aop == MinusEq || aop == StarEq) && e.Lit? && e.v.Int? {
      n, c := 1, RunN(k.w, k.code, 1, Run(f));
      RunConst(k, x, aop, e.v.n, f, st);
    } else if aop == Set {
      n, c := RunStore(k, x, e, f, st);
    } else {
      n, c := RunCompound(k, x, aop, e, f, st);
    }
  }

  lemma {:induction false} EndsStuck(k: Ctx, f: Frame, b0: nat, end: nat, n: nat, c: Config)
    ensures Ends(k, f, b0, Stuck, end, n, c)
  {
  }

  lemma {:induction false} RunText(k: Ctx, text: string, f: Frame, st: State) returns (n: nat, c: Config)
    requires Match(f, st) && At(k.code, f.pc, [WriteText(text)])
    ensures RunN(k.w, k.code, n, Run(f)) == c
    ensures Ends(k, f, st.budget, Normal(st.(out := st.out + [text])), f.pc + 1, n, c)
  {
    hide RunN, At, UserVars, RetSlot;
    AtOne(k.code, f.pc, [WriteText(text)], 0);
    StepText(k.w, k.code, f, text);
    n, c := 1, RunN(k.w, k.code, 1, Run(f));
  }

  lemma {:induction false} RunVarNull(k: Ctx, x: string, f: Frame, st: State) returns (n: nat, c: Config)
    requires Match(f, st) && UserName(x) && At(k.code, f.pc, [Declare(x), Const(Null), StoreVar(x)])
    ensures RunN(k.w, k.code, n, Run(f)) == c
    ensures Ends(k, f, st.budget, Normal(st.(vars := st.vars[Fold(x) := Null])), f.pc + 3, n, c)
  {
    hide RunN, At, Fold, Lands, Match, Exec1, Jumps, Raises, Returns, Unwind, UserName;
    var ops := [Declare(x), Const(Null), StoreVar(x)];
    AtOne(k.code, f.pc, ops, 0);
    AtOne(k.code, f.pc, ops, 1);
    AtOne(k.code, f.pc, ops, 2);
    StepSkip(k.w, k.code, f, Declare(x));
    StepConst(k.w, k.code, Next(f).f, Null);
    RunAdd(k.w, k.code, 1, 1, Run(f));
    var f2 := f.(pc := f.pc + 2, stack := f.stack + [Null]);
    StepStore(k.w, k.code, f2, x, f.stack, Null);
    RunAdd(k.w, k.code, 2, 1, Run(f));
    n, c := 3, RunN(k.w, k.code, 1, Run(f2));
    StoredLands(k, f, c.f, st, x, Null, n);
  }

  /** An instruction without effect in front of a run. */
  lemma {:induction false} SkipFirst(k: Ctx, op: Op, f: Frame, st: State, o: Outcome, end: nat, n: nat, c: Config)
    requires Here(k.code, f, op) && (op.LineInfo? || op.Declare?)
    requires RunN(k.w, k.code, n, Next(f)) == c
    requires Ends(k, Next(f).f, st.budget, o, end, n, c)
    ensures RunN(k.w, k.code, 1 + n, Run(f)) == c
    ensures Ends(k, f, st.budget, o, end, 1 + n, c)
  {
    hide RunN, Ends, Kept;
    StepSkip(k.w, k.code, f, op);
    SameKept(k, f, Next(f).f);
    Chain(k, f, st.budget, Next(f).f, st.budget, 1, o, end, n, c);
  }

  lemma {:induction false} RunVarSet(k: Ctx, x: string, e: Expr, f: Frame, st: State) returns (n: nat, c: Config)
    requires Match(f, st) && UserName(x) && ExprOk(e)
    requires At(k.code, f.pc, [Declare(x)] + CodeStore(x, e, f.pc + 1))
    ensures RunN(k.w, k.code, n, Run(f)) == c
    ensures Ends(k, f, st.budget, ExecSet(k.w, x, e, st), f.pc + 1 + |CodeStore(x, e, f.pc + 1)|, n, c)
  {
    hide RunN, At, Ends, CodeStore, ExecSet, Fold;
    AtSplit(k.code, f.pc, [Declare(x)], CodeStore(x, e, f.pc + 1));
    AtOne(k.code, f.pc, [Declare(x)], 0);
    n, c := RunStore(k, x, e, Next(f).f, st);
    SkipFirst(k, Declare(x), f, st, ExecSet(k.w, x, e, st), f.pc + 1 + |CodeStore(x, e, f.pc + 1)|, n, c);
    n := 1 + n;
  }

  lemma {:induction false} RunThrow(k: Ctx, e: Expr, f: Frame, st: State) returns (n: nat, c: Config)
    requires Match(f, st) && ExprOk(e) && At(k.code, f.pc, CodeE(e, f.pc) + [ThrowOp])
    ensures RunN(k.w, k.code, n, Run(f)) == c
    ensures Ends(k, f, st.budget, Exec(k.w, Throw(Some(e)), st, k.catching), f.pc + |CodeE(e, f.pc)| + 1, n, c)
  {
    hide RunN, At, CodeE, Eval, RaisedIn, Raises, Match, Exec1, Jumps, Returns, Unwind, Lands, ExecB, ExecFor, ExecWhile, ExecDo, ExecSwitch, ExecTry, ExecArms,
      ExecAssign, ExecSet, ExecStep;
    var a := CodeE(e, f.pc);
    AtSplit(k.code, f.pc, a, [ThrowOp]);
    n, c := RunUserExpr(k, e, f, st);
    var r := Eval(k.w, e, st.vars);
    if r.Val? {
      var f1 := f.(pc := f.pc + |a|, stack := f.stack + [r.v]);
      AtOne(k.code, f.pc + |a|, [ThrowOp], 0);
      StepThrow(k.w, k.code, f1, f.stack, r.v);
      RunAdd(k.w, k.code, n, 1, Run(f));
      n, c := n + 1, RunN(k.w, k.code, 1, Run(f1));
      RaisedSame(f, f1, k.w.wrap(r.v), c);
      RaisedFromExpr(k, f, st, k.w.wrap(r.v), n, c);
    }
  }
}
