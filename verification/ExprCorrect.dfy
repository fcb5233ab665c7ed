/**
 The code emitted for an expression computes its value, including the
 flattened short-circuit form of `and`/`or` chains.
 */
module ExprCorrect {
  import opened Names
  import opened Ast
  import opened Values
  import opened Semantics
  import opened Machine
  import opened Codegen

  /** `ops` sits in `code` at position `at`. */
  ghost predicate At(code: seq<Op>, at: nat, ops: seq<Op>) {
    at + |ops| <= |code| && code[at..at + |ops|] == ops
  }

  lemma {:induction false} AtSplit(code: seq<Op>, at: nat, a: seq<Op>, b: seq<Op>)
    requires At(code, at, a + b)
    ensures At(code, at, a) && At(code, at + |a|, b)
  {
    var s := code[at..at + |a + b|];
    assert code[at..at + |a|] == s[..|a|] == a;
    assert code[at + |a|..at + |a| + |b|] == s[|a|..] == b;
  }

  lemma {:induction false} AtOne(code: seq<Op>, at: nat, ops: seq<Op>, i: nat)
    requires At(code, at, ops) && i < |ops|
    ensures at + i < |code| && code[at + i] == ops[i]
  {
    assert code[at..at + |ops|][i] == ops[i];
  }

  /** The machine right after exception `x` was raised in frame `f`. */
  ghost predicate RaisedIn(f: Frame, x: Value, c: Config) {
    if f.handlers == [] then c == Dead(x, f.vars, f.out)
    else
      && c.Run? && c.f.stack != [] && Top(c.f.stack) == x
      && c.f == f.(pc := f.handlers[|f.handlers| - 1].pc, stack := c.f.stack,
                   handlers := Front(f.handlers), last := Some(x))
  }

  /** One machine step from a frame whose instruction is known. */
  lemma {:induction false} Advance(w: World, code: seq<Op>, f: Frame, op: Op)
    requires f.pc < |code| && code[f.pc] == op
    ensures RunN(w, code, 1, Run(f)) == Exec1(w, op, f)
  {
    assert RunN(w, code, 0, Step1(w, code, Run(f))) == Step1(w, code, Run(f));
  }

  ghost predicate Here(code: seq<Op>, f: Frame, op: Op) {
    f.pc < |code| && code[f.pc] == op
  }

  lemma {:induction false} StepConst(w: World, code: seq<Op>, f: Frame, v: Value)
    requires Here(code, f, Const(v))
    ensures RunN(w, code, 1, Run(f)) == Push(f, v)
  {
    Advance(w, code, f, Const(v));
  }

  lemma {:induction false} StepLoad(w: World, code: seq<Op>, f: Frame, name: string)
    requires Here(code, f, Load(name))
    ensures Lookup(f.vars, name).Some? ==> RunN(w, code, 1, Run(f)) == Push(f, Lookup(f.vars, name).value)
    ensures Lookup(f.vars, name).None? ==> RaisedIn(f, w.missing(name), RunN(w, code, 1, Run(f)))
  {
    Advance(w, code, f, Load(name));
  }

  lemma {:induction false} StepJump(w: World, code: seq<Op>, f: Frame, t: nat)
    requires Here(code, f, Jump(t))
    ensures RunN(w, code, 1, Run(f)) == Goto(f, t)
  {
    Advance(w, code, f, Jump(t));
  }

  lemma {:induction false} StepBinary(w: World, code: seq<Op>, f: Frame, op: BinOp, stack: seq<Value>, a: Value, b: Value)
    requires Here(code, f, Binary(op)) && f.stack == stack + [a] + [b]
    ensures var c := RunN(w, code, 1, Run(f));
            match Apply(w, op, a, b)
            case Val(v) => c == Push(f.(stack := stack), v)
            case Exc(x) => RaisedIn(f.(stack := stack), x, c)
  {
    Advance(w, code, f, Binary(op));
    assert f.stack[..|f.stack| - 2] == stack;
  }

  /** Where an exception is caught does not depend on the position or the stack it left. */
  lemma {:induction false} RaisedSame(f: Frame, g: Frame, x: Value, c: Config)
    requires RaisedIn(g, x, c) && g == f.(pc := g.pc, stack := g.stack)
    ensures RaisedIn(f, x, c)
  {
  }

  /** A conditional jump pops the value just computed. */
  lemma {:induction false} StepBranch(w: World, code: seq<Op>, f: Frame, when: bool, t: nat, stack: seq<Value>, v: Value)
    requires Here(code, f, if when then JumpIfTrue(t) else JumpIfFalse(t)) && f.stack == stack + [v]
    ensures var g := f.(stack := stack);
            var c := RunN(w, code, 1, Run(f));
            match TruthOf(w, v)
            case Bad(x) => RaisedIn(g, x, c)
            case Yes => c == (if when then Goto(g, t) else Next(g))
            case _ => c == (if when then Next(g) else Goto(g, t))
  {
    Advance(w, code, f, if when then JumpIfTrue(t) else JumpIfFalse(t));
    assert Front(f.stack) == stack;
  }

  // ---- Short-circuit chains ----

  /** Test operands left to right, stopping at the first that decides. */
  function TestAll(w: World, isOr: bool, es: seq<Expr>, vars: Vars): (t: Truth)
    ensures !t.Unknown?
  {
    if es == [] then (if isOr then No else Yes) else
    var t := Test(w, es[0], vars);
    if t.Bad? || t == (if isOr then Yes else No) then t
    else TestAll(w, isOr, es[1..], vars)
  }

  lemma {:induction false} TestAllSnoc(w: World, isOr: bool, es: seq<Expr>, e: Expr, vars: Vars)
    ensures TestAll(w, isOr, es + [e], vars) ==
            (var t := TestAll(w, isOr, es, vars);
             if t == (if isOr then No else Yes) then Test(w, e, vars) else t)
  {
    if es == [] {
      assert (es + [e])[1..] == [];
    } else {
      assert (es + [e])[1..] == es[1..] + [e];
      TestAllSnoc(w, isOr, es[1..], e, vars);
    }
  }

  function OfTruth(t: Truth): Res
    requires !t.Unknown?
  {
    match t
    case Yes => Val(Bool(true))
    case No => Val(Bool(false))
    case Bad(x) => Exc(x)
  }

  /** Testing the flattened operands in order is nested short-circuit evaluation. */
  lemma {:induction false} SpineMeaning(w: World, isOr: bool, e: Expr, vars: Vars)
    ensures TestAll(w, isOr, Operands(isOr, e), vars) == Test(w, e, vars)
    ensures e.Logic? && e.isOr == isOr ==> Eval(w, e, vars) == OfTruth(TestAll(w, isOr, Operands(isOr, e), vars))
  {
    hide Apply, Lookup, Fold;
    if e.Logic? && e.isOr == isOr {
      SpineMeaning(w, isOr, e.l, vars);
      TestAllSnoc(w, isOr, Operands(isOr, e.l), e.r, vars);
    } else {
      assert Operands(isOr, e)[1..] == [];
    }
  }

  // ---- Simulation ----

  /** What running the code of `e` from `f` must lead to. */
  ghost predicate Computes(w: World, e: Expr, f: Frame, len: nat, c: Config) {
    match Eval(w, e, f.vars)
    case Val(v) => c == Run(f.(pc := f.pc + len, stack := f.stack + [v]))
    case Exc(x) => RaisedIn(f, x, c)
  }

  /** Running the code of an expression pushes its value or raises its exception. */
  lemma {:induction false} RunExpr(w: World, code: seq<Op>, e: Expr, f: Frame) returns (n: nat, c: Config)
    requires At(code, f.pc, CodeE(e, f.pc))
    ensures RunN(w, code, n, Run(f)) == c && n >= 1
    ensures Computes(w, e, f, |CodeE(e, f.pc)|, c)
    decreases SizeE(e), 0
  {
    hide RunN, Exec1, At, CodeE, Eval, SizeE, RaisedIn;
    match e {
      case Lit(v) =>
        UnfoldLit(w, v, f.pc, f.vars);
        AtOne(code, f.pc, CodeE(e, f.pc), 0);
        StepConst(w, code, f, v);
        n, c := 1, RunN(w, code, 1, Run(f));
      case Var(name) =>
        UnfoldVar(w, name, f.pc, f.vars);
        AtOne(code, f.pc, CodeE(e, f.pc), 0);
        StepLoad(w, code, f, name);
        n, c := 1, RunN(w, code, 1, Run(f));
      case Bin(op, l, r) =>
        n, c := RunBin(w, code, e, f);
      case Logic(isOr, _, _) =>
        n, c := RunLogic(w, code, e, f);
    }
  }

  lemma {:induction false} UnfoldLit(w: World, v: Value, at: nat, vars: Vars)
    ensures CodeE(Lit(v), at) == [Const(v)]
    ensures Eval(w, Lit(v), vars) == Val(v)
  {
  }

  lemma {:induction false} UnfoldVar(w: World, name: string, at: nat, vars: Vars)
    ensures CodeE(Var(name), at) == [Load(name)]
    ensures Eval(w, Var(name), vars) == (match Lookup(vars, name) case Some(v) => Val(v) case None => Exc(w.missing(name)))
  {
  }

  lemma {:induction false} UnfoldBin(w: World, e: Expr, at: nat, vars: Vars)
    requires e.Bin?
    ensures CodeE(e, at) == CodeE(e.l, at) + CodeE(e.r, at + |CodeE(e.l, at)|) + [Binary(e.op)]
    ensures Eval(w, e, vars) ==
            (var a := Eval(w, e.l, vars);
             var b := Eval(w, e.r, vars);
             if !a.Val? then a else if !b.Val? then b else Apply(w, e.op, a.v, b.v))
    ensures SizeE(e) == 1 + SizeE(e.l) + SizeE(e.r)
  {
  }

  lemma {:induction false} RunBin(w: World, code: seq<Op>, e: Expr, f: Frame) returns (n: nat, c: Config)
    requires e.Bin? && At(code, f.pc, CodeE(e, f.pc))
    ensures RunN(w, code, n, Run(f)) == c && n >= 1
    ensures Computes(w, e, f, |CodeE(e, f.pc)|, c)
    decreases SizeE(e) - 1, 3
  {
    hide RunN, Exec1, At, CodeE, Eval, SizeE, Apply, RaisedIn;
    UnfoldBin(w, e, f.pc, f.vars);
    var a := CodeE(e.l, f.pc);
    var b := CodeE(e.r, f.pc + |a|);
    AtSplit(code, f.pc, a + b, [Binary(e.op)]);
    AtSplit(code, f.pc, a, b);
    n, c := RunExpr(w, code, e.l, f);
    if Eval(w, e.l, f.vars).Val? {
      var va := Eval(w, e.l, f.vars).v;
      var f1 := f.(pc := f.pc + |a|, stack := f.stack + [va]);
      var m, d := RunExpr(w, code, e.r, f1);
      RunAdd(w, code, n, m, Run(f));
      n, c := n + m, d;
      match Eval(w, e.r, f.vars) {
        case Val(vb) =>
          var f2 := f1.(pc := f.pc + |a| + |b|, stack := f.stack + [va] + [vb]);
          AtOne(code, f.pc + |a + b|, [Binary(e.op)], 0);
          StepBinary(w, code, f2, e.op, f.stack, va, vb);
          RunAdd(w, code, n, 1, Run(f));
          n, c := n + 1, RunN(w, code, 1, Run(f2));
          if Apply(w, e.op, va, vb).Exc? {
            RaisedSame(f, f2.(stack := f.stack), Apply(w, e.op, va, vb).x, c);
          }
        case Exc(x) => RaisedSame(f, f1, x, c);
      }
    }
  }

  lemma {:induction false} UnfoldLogic(w: World, e: Expr, at: nat, vars: Vars)
    requires e.Logic?
    ensures var es := Operands(e.isOr, e);
            var a := CodeOperands(e.isOr, es, at);
            && CodeE(e, at) == a + [Const(Bool(!e.isOr)), Jump(at + |a| + 3), Const(Bool(e.isOr))]
            && Eval(w, e, vars) == OfTruth(TestAll(w, e.isOr, es, vars))
            && SizeEs(es) < SizeE(e)
  {
    SpineMeaning(w, e.isOr, e, vars);
  }

  lemma {:induction false} RunLogic(w: World, code: seq<Op>, e: Expr, f: Frame) returns (n: nat, c: Config)
    requires e.Logic? && At(code, f.pc, CodeE(e, f.pc))
    ensures RunN(w, code, n, Run(f)) == c && n >= 1
    ensures Computes(w, e, f, |CodeE(e, f.pc)|, c)
    decreases SizeE(e) - 1, 3
  {
    hide RunN, Exec1, At, CodeE, Eval, SizeE, SizeEs, CodeOperands, Operands, TestAll, RaisedIn;
    UnfoldLogic(w, e, f.pc, f.vars);
    var isOr := e.isOr;
    var es := Operands(isOr, e);
    var a := CodeOperands(isOr, es, f.pc);
    var tail := [Const(Bool(!isOr)), Jump(f.pc + |a| + 3), Const(Bool(isOr))];
    AtSplit(code, f.pc, a, tail);
    n, c := RunOperands(w, code, isOr, es, f);
    var t := TestAll(w, isOr, es, f.vars);
    if t.Yes? || t.No? {
      var m, d := RunLanding(w, code, isOr, t, f.(pc := f.pc + |a|));
      RunAdd(w, code, n, m, Run(f));
      n, c := n + m, d;
    }
  }

  /** The two constants at the end of a chain turn the way it was left into a boolean. */
  lemma {:induction false} RunLanding(w: World, code: seq<Op>, isOr: bool, t: Truth, f: Frame) returns (n: nat, c: Config)
    requires t.Yes? || t.No?
    requires At(code, f.pc, [Const(Bool(!isOr)), Jump(f.pc + 3), Const(Bool(isOr))])
    ensures RunN(w, code, n, Run(if t == Decides(isOr) then f.(pc := f.pc + 2) else f)) == c
    ensures c == Run(f.(pc := f.pc + 3, stack := f.stack + [Bool(t.Yes?)]))
  {
    hide RunN, Exec1, At;
    var tail := [Const(Bool(!isOr)), Jump(f.pc + 3), Const(Bool(isOr))];
    if t == Decides(isOr) {
      AtOne(code, f.pc, tail, 2);
      StepConst(w, code, f.(pc := f.pc + 2), Bool(isOr));
      n := 1;
    } else {
      AtOne(code, f.pc, tail, 0);
      AtOne(code, f.pc, tail, 1);
      StepConst(w, code, f, Bool(!isOr));
      var f2 := Push(f, Bool(!isOr)).f;
      StepJump(w, code, f2, f.pc + 3);
      RunAdd(w, code, 1, 1, Run(f));
      n := 2;
    }
    c := Run(f.(pc := f.pc + 3, stack := f.stack + [Bool(t.Yes?)]));
  }

  /** The truth value that ends a chain early. */
  function Decides(isOr: bool): Truth { if isOr then Yes else No }

  /** Where the operands of a chain leave the machine. */
  ghost predicate LeavesChain(isOr: bool, t: Truth, f: Frame, len: nat, c: Config) {
    if t.Bad? then RaisedIn(f, t.x, c)
    else c == Run(f.(pc := if t == Decides(isOr) then f.pc + len + 2 else f.pc + len))
  }

  lemma {:induction false} UnfoldOperands(w: World, isOr: bool, es: seq<Expr>, at: nat, vars: Vars)
    requires es != []
    ensures var a := CodeE(es[0], at);
            var rest := CodeOperands(isOr, es[1..], at + |a| + 1);
            CodeOperands(isOr, es, at) == a + [ShortJump(isOr, at + |a| + 1 + |rest| + 2)] + rest
    ensures var t := Test(w, es[0], vars);
            TestAll(w, isOr, es, vars) ==
            (if t.Bad? || t == Decides(isOr) then t else TestAll(w, isOr, es[1..], vars))
    ensures SizeEs(es) == SizeE(es[0]) + SizeEs(es[1..])
  {
  }

  /** The operands fall through to just past their code, or jump to the landing pad. */
  lemma {:induction false} RunOperands(w: World, code: seq<Op>, isOr: bool, es: seq<Expr>, f: Frame)
    returns (n: nat, c: Config)
    requires At(code, f.pc, CodeOperands(isOr, es, f.pc))
    ensures RunN(w, code, n, Run(f)) == c && (es != [] ==> n >= 1)
    ensures LeavesChain(isOr, TestAll(w, isOr, es, f.vars), f, |CodeOperands(isOr, es, f.pc)|, c)
    decreases SizeEs(es), 2
  {
    if es == [] {
      n, c := 0, Run(f);
    } else {
      n, c := RunOperandsCons(w, code, isOr, es, f);
    }
  }

  lemma {:induction false} RunOperandsCons(w: World, code: seq<Op>, isOr: bool, es: seq<Expr>, f: Frame)
    returns (n: nat, c: Config)
    requires es != [] && At(code, f.pc, CodeOperands(isOr, es, f.pc))
    ensures RunN(w, code, n, Run(f)) == c && n >= 1
    ensures LeavesChain(isOr, TestAll(w, isOr, es, f.vars), f, |CodeOperands(isOr, es, f.pc)|, c)
    decreases SizeEs(es), 1
  {
    hide RunN, Exec1, At, CodeE, Eval, SizeE, SizeEs, CodeOperands, TestAll, RaisedIn, TruthOf;
    UnfoldOperands(w, isOr, es, f.pc, f.vars);
    var a := CodeE(es[0], f.pc);
    var rest := CodeOperands(isOr, es[1..], f.pc + |a| + 1);
    var pad := f.pc + |a| + 1 + |rest| + 2;
    AtSplit(code, f.pc, a + [ShortJump(isOr, pad)], rest);
    AtSplit(code, f.pc, a, [ShortJump(isOr, pad)]);
    n, c := RunExpr(w, code, es[0], f);
    if Eval(w, es[0], f.vars).Val? {
      var v := Eval(w, es[0], f.vars).v;
      var f1 := f.(pc := f.pc + |a|, stack := f.stack + [v]);
      AtOne(code, f.pc + |a|, [ShortJump(isOr, pad)], 0);
      StepBranch(w, code, f1, isOr, pad, f.stack, v);
      RunAdd(w, code, n, 1, Run(f));
      n, c := n + 1, RunN(w, code, 1, Run(f1));
      var t := TruthOf(w, v);
      assert t == Test(w, es[0], f.vars);
      if t.Bad? {
        RaisedSame(f, f.(pc := f1.pc), t.x, c);
      } else if t != Decides(isOr) {
        var m, d := RunOperands(w, code, isOr, es[1..], f.(pc := f.pc + |a| + 1));
        RunAdd(w, code, n, m, Run(f));
        n, c := n + m, d;
        if TestAll(w, isOr, es[1..], f.vars).Bad? {
          RaisedSame(f, f.(pc := f.pc + |a| + 1), TestAll(w, isOr, es[1..], f.vars).x, c);
        }
      }
    }
  }
}
