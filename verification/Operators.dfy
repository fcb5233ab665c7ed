/**
 What the operators and the assignment forms do, operator by operator: integers, doubles,
 conditions, short-circuit evaluation, and each compound assignment as the plain one it
 stands for, in the interpreter and in the emitted code.
 */
module Operators {
  import opened Names
  import opened Ast
  import opened Shapes
  import opened Values
  import opened Semantics
  import opened Machine
  import opened Codegen
  import opened ExprCorrect
  import opened Simulation
  import opened StmtSimple

  // ---- Values ----

  /** On integers the comparisons are those of the numbers, and `+` is the sum while it fits. */
  lemma {:induction false} OnIntegers(w: World, a: int, b: int)
    ensures Apply(w, Lt, Int(a), Int(b)) == Val(Bool(a < b)) && Apply(w, Lte, Int(a), Int(b)) == Val(Bool(a <= b))
    ensures Apply(w, Gt, Int(a), Int(b)) == Val(Bool(b < a)) && Apply(w, Gte, Int(a), Int(b)) == Val(Bool(b <= a))
    ensures Apply(w, Eq, Int(a), Int(b)) == Val(Bool(a == b)) && Apply(w, Neq, Int(a), Int(b)) == Val(Bool(a != b))
    ensures -0x8000_0000_0000_0000 <= a + b <= 0x7FFF_FFFF_FFFF_FFFF ==> Apply(w, Add, Int(a), Int(b)) == Val(Int(a + b))
    ensures !(-0x8000_0000_0000_0000 <= a + b <= 0x7FFF_FFFF_FFFF_FFFF) ==>
            Apply(w, Add, Int(a), Int(b)) == Val(Dbl(w.fp.add(w.fp.ofInt(a), w.fp.ofInt(b))))
  {
  }

  /** With a double on either side both are doubles; unordered ones count as equal for `<=` and `>=`. */
  lemma {:induction false} OnDoubles(w: World, a: Value, b: Value)
    requires (a.Dbl? && (b.Dbl? || b.Int?)) || (a.Int? && b.Dbl?)
    ensures var x := if a.Dbl? then a.d else w.fp.ofInt(a.n);
            var y := if b.Dbl? then b.d else w.fp.ofInt(b.n);
            && Apply(w, Lt, a, b) == Val(Bool(w.fp.less(x, y)))
            && Apply(w, Gt, a, b) == Val(Bool(!w.fp.less(x, y) && w.fp.less(y, x)))
            && Apply(w, Lte, a, b) == Val(Bool(w.fp.less(x, y) || !w.fp.less(y, x)))
            && Apply(w, Gte, a, b) == Val(Bool(!w.fp.less(x, y)))
            && Apply(w, Eq, a, b) == Val(Bool(w.fp.same(x, y))) && Apply(w, Neq, a, b) == Val(Bool(!w.fp.same(x, y)))
            && Apply(w, Add, a, b) == Val(Dbl(w.fp.add(x, y))) && Apply(w, Sub, a, b) == Val(Dbl(w.fp.sub(x, y)))
            && Apply(w, Mul, a, b) == Val(Dbl(w.fp.mul(x, y)))
  {
  }

  /** Anything else is compared by the language's own order; arithmetic coerces the left operand first. */
  lemma {:induction false} OnOthers(w: World, a: Value, b: Value)
    requires !(a.Int? || a.Dbl?) || !(b.Int? || b.Dbl?)
    ensures Apply(w, Lt, a, b) == Val(Bool(w.order(a, b) < 0)) && Apply(w, Lte, a, b) == Val(Bool(w.order(a, b) <= 0))
    ensures Apply(w, Gt, a, b) == Val(Bool(w.order(a, b) > 0)) && Apply(w, Gte, a, b) == Val(Bool(w.order(a, b) >= 0))
    ensures Apply(w, Eq, a, b) == Val(Bool(w.eq(a, b))) && Apply(w, Neq, a, b) == Val(Bool(!w.eq(a, b)))
    ensures !(a.Int? || a.Dbl?) && w.num(a).NotANumber? ==> Apply(w, Add, a, b) == Apply(w, Sub, a, b) == Apply(w, Mul, a, b) == Exc(w.num(a).x)
  {
  }

  /** Division, remainder and the rest are the parameter's. */
  lemma {:induction false} OnParameters(w: World, op: BinOp, a: Value, b: Value)
    requires op == Div || op == Mod || op == Pow || op == IntDiv || op == Concat
    ensures Apply(w, op, a, b) == match w.bin(op, a, b) case Ok(v) => Val(v) case Err(x) => Exc(x)
  {
  }

  /** Conditions: booleans are themselves, of the integers only 0 is false, and null is false. */
  lemma {:induction false} Conditions(w: World, b: bool, n: int)
    ensures TruthOf(w, Bool(b)) == (if b then Yes else No)
    ensures TruthOf(w, Int(n)) == (if n == 0 then No else Yes)
    ensures TruthOf(w, Null) == No
  {
  }

  /** `and` stops at the first operand that is false, `or` at the first that is true; the result is a boolean. */
  lemma {:induction false} ShortCircuit(w: World, l: Expr, r: Expr, vars: Vars)
    ensures Test(w, l, vars) == No ==> Eval(w, Logic(false, l, r), vars) == Val(Bool(false))
    ensures Test(w, l, vars) == Yes ==> Eval(w, Logic(true, l, r), vars) == Val(Bool(true))
    ensures Test(w, l, vars) == Yes && Test(w, r, vars) == Yes ==> Eval(w, Logic(false, l, r), vars) == Val(Bool(true))
    ensures Test(w, l, vars) == Yes && Test(w, r, vars) == No ==> Eval(w, Logic(false, l, r), vars) == Val(Bool(false))
    ensures Test(w, l, vars) == No && Test(w, r, vars) == Yes ==> Eval(w, Logic(true, l, r), vars) == Val(Bool(true))
    ensures Test(w, l, vars) == No && Test(w, r, vars) == No ==> Eval(w, Logic(true, l, r), vars) == Val(Bool(false))
    ensures Test(w, l, vars).Bad? ==>
            Eval(w, Logic(true, l, r), vars) == Eval(w, Logic(false, l, r), vars) == Exc(Test(w, l, vars).x)
  {
    hide Apply;
  }

  // ---- Assignment ----

  /** With `x` defined or `e` evaluating, `x OP= e` leaves what `x = x OP e` leaves. */
  lemma {:induction false} CompoundIsPlain(w: World, x: string, e: Expr, st: State)
    requires !w.watch && (Lookup(st.vars, x).Some? || Eval(w, e, st.vars).Val?)
    ensures ExecAssign(w, x, PlusEq, e, st) == ExecSet(w, x, Bin(Add, Var(x), e), st)
    ensures ExecAssign(w, x, MinusEq, e, st) == ExecSet(w, x, Bin(Sub, Var(x), e), st)
    ensures ExecAssign(w, x, StarEq, e, st) == ExecSet(w, x, Bin(Mul, Var(x), e), st)
    ensures ExecAssign(w, x, SlashEq, e, st) == ExecSet(w, x, Bin(Div, Var(x), e), st)
    ensures ExecAssign(w, x, PercentEq, e, st) == ExecSet(w, x, Bin(Mod, Var(x), e), st)
  {
    hide Apply;
    PlainValue(w, x, Add, e, st.vars);
    PlainValue(w, x, Sub, e, st.vars);
    PlainValue(w, x, Mul, e, st.vars);
    PlainValue(w, x, Div, e, st.vars);
    PlainValue(w, x, Mod, e, st.vars);
  }

  lemma {:induction false} PlainValue(w: World, x: string, op: BinOp, e: Expr, vars: Vars)
    ensures Eval(w, Bin(op, Var(x), e), vars) ==
            match Lookup(vars, x)
            case None => Exc(w.missing(x))
            case Some(a) => match Eval(w, e, vars) case Exc(y) => Exc(y) case Val(b) => Apply(w, op, a, b)
  {
    hide Apply;
    assert Eval(w, Var(x), vars) == match Lookup(vars, x) case None => Exc(w.missing(x)) case Some(a) => Val(a);
  }

  /** When neither holds the two raise different exceptions: the right side is evaluated before the variable is read. */
  lemma {:induction false} CompoundOrder(w: World, x: string, aop: AssignOp, op: BinOp, e: Expr, st: State)
    requires !w.watch && aop != Set && Lookup(st.vars, x).None? && Eval(w, e, st.vars).Exc?
    ensures ExecAssign(w, x, aop, e, st) == Thrown(st, Eval(w, e, st.vars).x)
    ensures ExecSet(w, x, Bin(op, Var(x), e), st) == Thrown(st, w.missing(x))
  {
    hide Apply;
    PlainValue(w, x, op, e, st.vars);
  }

  /** The operator of a compound assignment that is not one of the constant steps. */
  predicate Spelled(aop: AssignOp, op: BinOp, e: Expr) {
    || (aop == SlashEq && op == Div) || (aop == PercentEq && op == Mod)
    || (!(e.Lit? && e.v.Int?) && ((aop == PlusEq && op == Add) || (aop == MinusEq && op == Sub) || (aop == StarEq && op == Mul)))
  }

  /** The emitted code stores the operator applied to the variable's value and the right side's, in that order. */
  lemma {:induction false} CompoundStores(k: Ctx, x: string, aop: AssignOp, op: BinOp, e: Expr, f: Frame, st: State, a: Value, b: Value)
    returns (n: nat, c: Config)
    requires Match(f, st) && UserName(x) && ExprOk(e) && Spelled(aop, op, e)
    requires At(k.code, f.pc, CodeAssign(x, aop, e, f.pc))
    requires Lookup(st.vars, x) == Some(a) && Eval(k.w, e, st.vars) == Val(b)
    ensures RunN(k.w, k.code, n, Run(f)) == c
    ensures Combined(Apply(k.w, op, a, b), f.(pc := f.pc + |CodeE(e, f.pc)|), x, c)
  {
    hide RunN, At, Fold, Apply, RaisedIn, UserVars, CodeE, Eval, Match, Lookup, ExprOk;
    var code := CodeE(e, f.pc);
    assert BinOf(aop) == op && CodeAssign(x, aop, e, f.pc) == code + [Load(x), Swap, Binary(op), StoreVar(x)];
    AtSplit(k.code, f.pc, code, [Load(x), Swap, Binary(op), StoreVar(x)]);
    n, c := RunUserExpr(k, e, f, st);
    LookupUser(f, st, x);
    var m, d := RunCompoundTail(k, x, aop, f.(pc := f.pc + |code|), b);
    RunAdd(k.w, k.code, n, m, Run(f));
    n, c := n + m, d;
  }

  /** `i++` and `i--` on an integer that stays in range. */
  lemma {:induction false} Stepped(w: World, i: string, n: int, st: State)
    requires Lookup(st.vars, i) == Some(Int(n)) && -0x8000_0000_0000_0000 < n < 0x7FFF_FFFF_FFFF_FFFF
    ensures ExecStep(w, IncDec(i, true), st) == Normal(st.(vars := st.vars[Fold(i) := Int(n + 1)]))
    ensures ExecStep(w, IncDec(i, false), st) == Normal(st.(vars := st.vars[Fold(i) := Int(n - 1)]))
  {
  }

  // ---- Smaller forms ----

  /** A `for` runs its initialiser first, as a declaration or a step. */
  lemma {:induction false} StartsWith(w: World, start: Init, test: Option<Expr>, inc: Option<Step>, body: seq<Stmt>, st: State, catching: bool)
    ensures var o := match start
                     case InitVar(x, e) => Exec(w, VarDecl(x, e), st, catching)
                     case InitStep(step) => ExecStep(w, step, st);
            Exec(w, For(Some(start), test, inc, body), st, catching)
            == if o.Normal? then Exec(w, For(None, test, inc, body), o.st, catching) else o
  {
  }

  /** A declaration without a value leaves null, `throw` without one its default message. */
  lemma {:induction false} Defaults(w: World, x: string, st: State, catching: bool)
    ensures Exec(w, VarDecl(x, None), st, catching) == Normal(st.(vars := st.vars[Fold(x) := Null]))
    ensures Exec(w, Throw(None), st, catching) == Thrown(st, w.wrap(Str("An error occurred")))
    ensures Exec(w, Return(None), st, catching) == Returned(st, Null)
  {
  }

  /** Assigning the literal null deletes the variable; assigning anything else stores it. */
  lemma {:induction false} Stores(w: World, x: string, e: Expr, st: State)
    ensures ExecSet(w, x, Lit(Null), st) == Normal(st.(vars := st.vars - {Fold(x)}))
    ensures e != Lit(Null) && Eval(w, e, st.vars).Val? ==>
            ExecSet(w, x, e, st) == Normal(st.(vars := st.vars[Fold(x) := Eval(w, e, st.vars).v]))
    ensures Eval(w, e, st.vars).Exc? ==> ExecSet(w, x, e, st) == Thrown(st, Eval(w, e, st.vars).x)
  {
  }

  // ---- Branches and loops ----

  /** The first true condition decides, then `else`. */
  lemma {:induction false} Branches(w: World, cond: Expr, thn: seq<Stmt>, elifs: seq<Arm>, els: OptBlock, st: State, catching: bool)
    requires !w.watch
    ensures var s := If(cond, thn, elifs, els);
            && (Test(w, cond, st.vars) == Yes ==> Exec(w, s, st, catching) == ExecB(w, thn, st, catching))
            && (Test(w, cond, st.vars) == No && elifs != [] ==>
                  Exec(w, s, st, catching) == Exec(w, If(elifs[0].cond, elifs[0].body, elifs[1..], els), st, catching))
            && (Test(w, cond, st.vars) == No && elifs == [] && els.Block? ==> Exec(w, s, st, catching) == ExecB(w, els.ss, st, catching))
            && (Test(w, cond, st.vars) == No && elifs == [] && els.Absent? ==> Exec(w, s, st, catching) == Normal(st))
            && (Test(w, cond, st.vars).Bad? ==> Exec(w, s, st, catching) == Thrown(st, Test(w, cond, st.vars).x))
  {
    var s := If(cond, thn, elifs, els);
    assert Exec(w, s, st, catching) == match Decide(w, cond, st.vars)
      case Yes => ExecB(w, thn, st, catching)
      case No => ExecArms(w, elifs, els, st, catching)
      case Bad(x) => Thrown(st, x)
      case Unknown => Stuck;
    if elifs != [] {
      var a := elifs[0];
      assert ExecArms(w, elifs, els, st, catching) == match Decide(w, a.cond, st.vars)
        case Yes => ExecB(w, a.body, st, catching)
        case No => ExecArms(w, elifs[1..], els, st, catching)
        case Bad(x) => Thrown(st, x)
        case Unknown => Stuck;
      assert Exec(w, If(a.cond, a.body, elifs[1..], els), st, catching) == ExecArms(w, elifs, els, st, catching);
    } else {
      assert ExecArms(w, elifs, els, st, catching) == ExecB(w, BodyOf(els), st, catching);
      assert ExecB(w, [], st, catching) == Normal(st);
    }
  }

  lemma {:induction false} PlainTest(w: World, e: Expr, vars: Vars)
    requires !w.watch
    ensures Decide(w, e, vars) == Test(w, e, vars)
  {
  }

  /** One turn of a `while`: it ends when the condition is false or the body breaks, and otherwise goes round. */
  lemma {:induction false} Turns(w: World, cond: Expr, body: seq<Stmt>, st: State, catching: bool)
    requires !w.watch
    ensures var s := While(cond, body);
            var o := ExecB(w, body, st, catching);
            && (Test(w, cond, st.vars) == No ==> Exec(w, s, st, catching) == Normal(st))
            && (Test(w, cond, st.vars) == Yes && o.Broke? ==> Exec(w, s, st, catching) == Normal(o.st))
            && (Test(w, cond, st.vars) == Yes && (o.Normal? || o.Continued?) && o.st.budget > 0 ==>
                  Exec(w, s, st, catching) == Exec(w, s, o.st.(budget := o.st.budget - 1), catching))
            && (Test(w, cond, st.vars) == Yes && (o.Returned? || o.Thrown?) ==> Exec(w, s, st, catching) == o)
  {
    hide Test, Decide;
    assert Decide(w, cond, st.vars) == Test(w, cond, st.vars) by { PlainTest(w, cond, st.vars); }
    var s := While(cond, body);
    assert forall st1 :: Exec(w, s, st1, catching) == ExecWhile(w, cond, body, st1, catching);
    var o := ExecBody(w, CountedBody(cond, body), body, st, catching);
    assert o == ExecB(w, body, st, catching);
  }

  /** A `do` runs its body and then goes on as the `while` does. */
  lemma {:induction false} TurnsFirst(w: World, cond: Expr, body: seq<Stmt>, st: State, catching: bool)
    requires !w.watch
    ensures var s := DoWhile(body, cond);
            var o := ExecB(w, body, st, catching);
            && (o.Broke? ==> Exec(w, s, st, catching) == Normal(o.st))
            && ((o.Normal? || o.Continued?) && o.st.budget > 0 ==>
                  var st1 := o.st.(budget := o.st.budget - 1);
                  && (Test(w, cond, st1.vars) == No ==> Exec(w, s, st, catching) == Normal(st1))
                  && (Test(w, cond, st1.vars) == Yes ==> Exec(w, s, st, catching) == Exec(w, s, st1, catching)))
            && (o.Returned? || o.Thrown? ==> Exec(w, s, st, catching) == o)
  {
    hide Test;
    var s := DoWhile(body, cond);
    assert forall st1 :: Exec(w, s, st1, catching) == ExecDo(w, cond, body, st1, catching);
    var o := ExecBody(w, CountedBody(cond, body), body, st, catching);
    assert o == ExecB(w, body, st, catching);
  }

  /** A `switch` enters at the first case one of whose values equals, and runs on through the cases after it. */
  lemma {:induction false} Enters(w: World, v: Value, cs: seq<Case>, vars: Vars, i: nat)
    requires i < |cs|
    requires forall k :: 0 <= k <= i ==> EvalAll(w, [cs[k].value] + cs[k].more, vars).Vals?
    requires forall k :: 0 <= k < i ==> !CaseMatches(w, v, EvalAll(w, [cs[k].value] + cs[k].more, vars).vs)
    requires CaseMatches(w, v, EvalAll(w, [cs[i].value] + cs[i].more, vars).vs)
    ensures Choose(w, v, cs, vars) == Chosen(i)
    decreases i
  {
    hide EvalAll, CaseMatches;
    if i > 0 {
      assert forall k :: 0 <= k < i ==> cs[1..][k] == cs[k + 1];
      Enters(w, v, cs[1..], vars, i - 1);
    }
  }

  /** The bodies from a case on, the default's last. */
  function BodiesFrom(cs: seq<Case>, i: nat, def: OptBlock): seq<Stmt>
    requires i <= |cs|
    decreases |cs| - i
  {
    if i == |cs| then (match def case Block(ss) => ss case Absent => []) else cs[i].body + BodiesFrom(cs, i + 1, def)
  }

  lemma {:induction false} RunsOn(w: World, on: Expr, cs: seq<Case>, def: OptBlock, st: State, catching: bool, v: Value)
    requires Eval(w, on, st.vars) == Val(v) && !Choose(w, v, cs, st.vars).Raised?
    ensures var i := match Choose(w, v, cs, st.vars) case Chosen(i) => i case _ => |cs|;
            var o := ExecB(w, BodiesFrom(cs, i, def), st, catching);
            Exec(w, Switch(on, cs, def), st, catching) == if o.Broke? then Normal(o.st) else o
  {
    hide Choose, ExecB, Eval;
    var i := match Choose(w, v, cs, st.vars) case Chosen(i) => i case _ => |cs|;
    BodiesAre(cs, i, def);
    assert cs[|cs|..] == [];
    assert Exec(w, Switch(on, cs, def), st, catching) == ExecSwitch(w, on, cs, def, st, catching);
  }

  lemma {:induction false} BodiesAre(cs: seq<Case>, i: nat, def: OptBlock)
    requires i <= |cs|
    ensures BodiesFrom(cs, i, def) == FallThrough(cs[i..], def)
    decreases |cs| - i
  {
    if i < |cs| {
      BodiesAre(cs, i + 1, def);
      assert cs[i..][1..] == cs[i + 1..];
    }
  }
}
