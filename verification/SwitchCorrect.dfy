/** The dispatch section of a `switch` jumps to the first case that matches. */
module SwitchCorrect {
  import opened Names
  import opened Ast
  import opened Shapes
  import opened Values
  import opened Semantics
  import opened Machine
  import opened Codegen
  import opened ExprCorrect
  import opened Simulation
  import opened StmtSimple

  lemma {:induction false} StepOr(w: World, code: seq<Op>, f: Frame, stack: seq<Value>, a: bool, b: bool)
    requires Here(code, f, OrOp) && f.stack == stack + [Bool(a)] + [Bool(b)]
    ensures RunN(w, code, 1, Run(f)) == Push(f.(stack := stack), Bool(a || b))
  {
    Advance(w, code, f, OrOp);
    assert f.stack[..|f.stack| - 2] == stack;
  }

  lemma {:induction false} RaisesSame(k: Ctx, f: Frame, g: Frame, b0: nat, st: State, x: Value, n: nat, m: nat, c: Config)
    requires Raises(k, g, b0, st, x, n, c) && g == f.(pc := g.pc, stack := g.stack) && m >= n
    ensures Raises(k, f, b0, st, x, m, c)
  {
  }

  function TestCode(v: string, e: Expr, at: nat): seq<Op> {
    [Load(v)] + CodeE(e, at + 1) + [Binary(Eq)]
  }

  function Equated(w: World, val: Value, r: Res): Res {
    match r
    case Val(a) => Val(Bool(Compare(w, CEq, val, a)))
    case _ => r
  }

  /** Compare the switch value with one case value. */
  lemma {:induction false} RunOneTest(k: Ctx, v: string, e: Expr, f: Frame, st: State, val: Value) returns (n: nat, c: Config)
    requires Match(f, st) && ExprOk(e) && Lookup(f.vars, v) == Some(val)
    requires At(k.code, f.pc, TestCode(v, e, f.pc))
    ensures RunN(k.w, k.code, n, Run(f)) == c
    ensures Evaluated(k, Equated(k.w, val, Eval(k.w, e, st.vars)), f, st, |TestCode(v, e, f.pc)|, n, c)
  {
    hide RunN, At, CodeE, Eval, Raises, UserVars, Compare, Lookup;
    var a := CodeE(e, f.pc + 1);
    AtSplit(k.code, f.pc, [Load(v)] + a, [Binary(Eq)]);
    AtSplit(k.code, f.pc, [Load(v)], a);
    AtOne(k.code, f.pc, [Load(v)], 0);
    StepLoad(k.w, k.code, f, v);
    var f1 := f.(pc := f.pc + 1, stack := f.stack + [val]);
    var m, d := RunUserExpr(k, e, f1, st);
    RunAdd(k.w, k.code, 1, m, Run(f));
    n, c := 1 + m, d;
    match Eval(k.w, e, st.vars) {
      case Val(y) =>
        var f2 := f.(pc := f.pc + 1 + |a|, stack := f.stack + [val] + [y]);
        AtOne(k.code, f.pc + 1 + |a|, [Binary(Eq)], 0);
        StepBinary(k.w, k.code, f2, Eq, f.stack, val, y);
        RunAdd(k.w, k.code, n, 1, Run(f));
        n, c := n + 1, RunN(k.w, k.code, 1, Run(f2));
      case Exc(x) => RaisesSame(k, f, f1, st.budget, st, x, m, n, c);
    }
  }

  lemma {:induction false} CaseMatchesCons(w: World, v: Value, a: Value, vs: seq<Value>)
    ensures CaseMatches(w, v, [a] + vs) == (Compare(w, CEq, v, a) || CaseMatches(w, v, vs))
  {
    hide Compare;
    var all := [a] + vs;
    if Compare(w, CEq, v, a) {
      assert Compare(w, CEq, v, all[0]);
    }
    if CaseMatches(w, v, vs) {
      var i :| 0 <= i < |vs| && Compare(w, CEq, v, vs[i]);
      assert Compare(w, CEq, v, all[i + 1]);
    }
  }

  /** The state after testing values `vs` with `acc` already on the stack. */
  ghost predicate Tested(k: Ctx, f: Frame, st: State, r: Either, stack: seq<Value>, acc: bool, val: Value,
                         len: nat, n: nat, c: Config)
  {
    match r
    case Vals(vs) => c == Run(f.(pc := f.pc + len, stack := stack + [Bool(acc || CaseMatches(k.w, val, vs))]))
    case Fails(x) => Raises(k, f, st.budget, st, x, n, c)
  }

  lemma {:induction false} RunMoreTests(
      k: Ctx, v: string, more: seq<Expr>, f: Frame, st: State, val: Value, stack: seq<Value>, acc: bool)
    returns (n: nat, c: Config)
    requires Match(f, st) && ExprsOk(more) && Lookup(f.vars, v) == Some(val) && f.stack == stack + [Bool(acc)]
    requires At(k.code, f.pc, CodeMoreTests(v, more, f.pc))
    ensures RunN(k.w, k.code, n, Run(f)) == c
    ensures Tested(k, f, st, EvalAll(k.w, more, st.vars), stack, acc, val, |CodeMoreTests(v, more, f.pc)|, n, c)
    decreases |more|
  {
    if more == [] {
      assert !CaseMatches(k.w, val, []);
      n, c := 0, Run(f);
    } else {
      n, c := RunMoreTestsCons(k, v, more, f, st, val, stack, acc);
    }
  }

  lemma {:induction false} UnfoldMore(w: World, v: string, more: seq<Expr>, at: nat, vars: Vars)
    requires more != []
    ensures CodeMoreTests(v, more, at) ==
            TestCode(v, more[0], at) + [OrOp] + CodeMoreTests(v, more[1..], at + |TestCode(v, more[0], at)| + 1)
    ensures EvalAll(w, more, vars) ==
            (match Eval(w, more[0], vars)
             case Exc(x) => Fails(x)
             case Val(a) => match EvalAll(w, more[1..], vars) case Vals(vs) => Vals([a] + vs) case r => r)
  {
    hide CodeE, Eval;
    var a := [Load(v)] + CodeE(more[0], at + 1) + [Binary(Eq), OrOp];
    assert a == TestCode(v, more[0], at) + [OrOp];
  }

  lemma {:induction false} RunMoreTestsCons(
      k: Ctx, v: string, more: seq<Expr>, f: Frame, st: State, val: Value, stack: seq<Value>, acc: bool)
    returns (n: nat, c: Config)
    requires Match(f, st) && ExprsOk(more) && Lookup(f.vars, v) == Some(val) && f.stack == stack + [Bool(acc)]
    requires more != [] && At(k.code, f.pc, CodeMoreTests(v, more, f.pc))
    ensures RunN(k.w, k.code, n, Run(f)) == c
    ensures Tested(k, f, st, EvalAll(k.w, more, st.vars), stack, acc, val, |CodeMoreTests(v, more, f.pc)|, n, c)
    decreases |more|, 0
  {
    hide RunN, At, CodeE, Eval, Raises, UserVars, Compare, Lookup, CodeMoreTests, EvalAll, TestCode, CaseMatches;
    UnfoldMore(k.w, v, more, f.pc, st.vars);
    var a := TestCode(v, more[0], f.pc);
    var rest := CodeMoreTests(v, more[1..], f.pc + |a| + 1);
    AtSplit(k.code, f.pc, a + [OrOp], rest);
    AtSplit(k.code, f.pc, a, [OrOp]);
    n, c := RunOneTest(k, v, more[0], f, st, val);
    var r := Eval(k.w, more[0], st.vars);
    if r.Val? {
      var hit := Compare(k.w, CEq, val, r.v);
      var f1 := f.(pc := f.pc + |a|, stack := stack + [Bool(acc)] + [Bool(hit)]);
      AtOne(k.code, f.pc + |a|, [OrOp], 0);
      StepOr(k.w, k.code, f1, stack, acc, hit);
      RunAdd(k.w, k.code, n, 1, Run(f));
      var f2 := f.(pc := f.pc + |a| + 1, stack := stack + [Bool(acc || hit)]);
      var m, d := RunMoreTests(k, v, more[1..], f2, st, val, stack, acc || hit);
      RunAdd(k.w, k.code, n + 1, m, Run(f));
      n, c := n + 1 + m, d;
      match EvalAll(k.w, more[1..], st.vars) {
        case Vals(vs) => CaseMatchesCons(k.w, val, r.v, vs);
        case Fails(x) => RaisesSame(k, f, f2, st.budget, st, x, m, n, c);
      }
    }
  }

  lemma {:induction false} RunCaseTest(k: Ctx, v: string, cs: Case, f: Frame, st: State, val: Value)
    returns (n: nat, c: Config)
    requires Match(f, st) && ExprOk(cs.value) && ExprsOk(cs.more) && Lookup(f.vars, v) == Some(val)
    requires At(k.code, f.pc, CodeCaseTest(v, cs.value, cs.more, f.pc))
    ensures RunN(k.w, k.code, n, Run(f)) == c
    ensures Tested(k, f, st, EvalAll(k.w, [cs.value] + cs.more, st.vars), f.stack, false, val,
                   |CodeCaseTest(v, cs.value, cs.more, f.pc)|, n, c)
  {
    hide RunN, At, CodeE, Eval, Raises, UserVars, Compare, Lookup, CodeMoreTests, EvalAll, CaseMatches;
    var a := TestCode(v, cs.value, f.pc);
    var rest := CodeMoreTests(v, cs.more, f.pc + |a|);
    AtSplit(k.code, f.pc, a, rest);
    UnfoldAll(k.w, cs.value, cs.more, st.vars);
    n, c := RunOneTest(k, v, cs.value, f, st, val);
    var r := Eval(k.w, cs.value, st.vars);
    if r.Val? {
      var hit := Compare(k.w, CEq, val, r.v);
      var f1 := f.(pc := f.pc + |a|, stack := f.stack + [Bool(hit)]);
      var m, d := RunMoreTests(k, v, cs.more, f1, st, val, f.stack, hit);
      RunAdd(k.w, k.code, n, m, Run(f));
      n, c := n + m, d;
      match EvalAll(k.w, cs.more, st.vars) {
        case Vals(vs) => CaseMatchesCons(k.w, val, r.v, vs);
        case Fails(x) => RaisesSame(k, f, f1, st.budget, st, x, m, n, c);
      }
    }
  }

  lemma {:induction false} UnfoldAll(w: World, e: Expr, es: seq<Expr>, vars: Vars)
    ensures EvalAll(w, [e] + es, vars) ==
            (match Eval(w, e, vars)
             case Exc(x) => Fails(x)
             case Val(a) => match EvalAll(w, es, vars) case Vals(vs) => Vals([a] + vs) case r => r)
  {
    hide Eval;
    assert ([e] + es)[1..] == es;
  }

  /** Where the dispatch section leaves the machine. */
  ghost predicate Dispatched(k: Ctx, f: Frame, st: State, ch: Chosen, starts: seq<nat>, len: nat, n: nat, c: Config) {
    match ch
    case Chosen(i) => i < |starts| && c == Run(f.(pc := starts[i]))
    case NoCase => c == Run(f.(pc := f.pc + len))
    case Raised(x) => Raises(k, f, st.budget, st, x, n, c)
  }

  lemma {:induction false} RunDispatch(
      k: Ctx, v: string, cs: seq<Case>, starts: seq<nat>, f: Frame, st: State, val: Value)
    returns (n: nat, c: Config)
    requires Match(f, st) && OkCases(cs, k.catching) && Lookup(f.vars, v) == Some(val) && |starts| == |cs|
    requires At(k.code, f.pc, CodeDispatch(v, cs, starts, f.pc))
    ensures RunN(k.w, k.code, n, Run(f)) == c
    ensures Dispatched(k, f, st, Choose(k.w, val, cs, st.vars), starts, DispatchLen(v, cs, f.pc), n, c)
    decreases |cs|
  {
    if cs == [] {
      n, c := 0, Run(f);
    } else {
      n, c := RunDispatchCons(k, v, cs, starts, f, st, val);
    }
  }

  lemma {:induction false} UnfoldDispatch(k: Ctx, v: string, cs: seq<Case>, starts: seq<nat>, at: nat, val: Value, vars: Vars)
    requires cs != [] && |starts| == |cs|
    ensures var a := CodeCaseTest(v, cs[0].value, cs[0].more, at);
            && CodeDispatch(v, cs, starts, at)
               == a + [JumpIfTrue(starts[0])] + CodeDispatch(v, cs[1..], starts[1..], at + |a| + 1)
            && DispatchLen(v, cs, at) == |a| + 1 + DispatchLen(v, cs[1..], at + |a| + 1)
    ensures OkCases(cs, k.catching) ==>
            ExprOk(cs[0].value) && ExprsOk(cs[0].more) && OkCases(cs[1..], k.catching)
    ensures Choose(k.w, val, cs, vars) ==
            (match EvalAll(k.w, [cs[0].value] + cs[0].more, vars)
             case Fails(x) => Raised(x)
             case Vals(vs) =>
               if CaseMatches(k.w, val, vs) then Chosen(0)
               else match Choose(k.w, val, cs[1..], vars)
                 case Chosen(i) => Chosen(i + 1)
                 case other => other)
  {
    hide EvalAll, CaseMatches, CodeCaseTest, ExprOk, OkB;
  }

  lemma {:induction false} RunDispatchCons(
      k: Ctx, v: string, cs: seq<Case>, starts: seq<nat>, f: Frame, st: State, val: Value)
    returns (n: nat, c: Config)
    requires Match(f, st) && OkCases(cs, k.catching) && Lookup(f.vars, v) == Some(val) && |starts| == |cs|
    requires cs != [] && At(k.code, f.pc, CodeDispatch(v, cs, starts, f.pc))
    ensures RunN(k.w, k.code, n, Run(f)) == c
    ensures Dispatched(k, f, st, Choose(k.w, val, cs, st.vars), starts, DispatchLen(v, cs, f.pc), n, c)
    decreases |cs|, 0
  {
    hide RunN, At, Eval, Raises, UserVars, Lookup, EvalAll, CaseMatches, CodeCaseTest, CodeDispatch, DispatchLen,
      Choose, OkCases, ExprOk, ExprsOk;
    UnfoldDispatch(k, v, cs, starts, f.pc, val, st.vars);
    var a := CodeCaseTest(v, cs[0].value, cs[0].more, f.pc);
    var rest := CodeDispatch(v, cs[1..], starts[1..], f.pc + |a| + 1);
    AtSplit(k.code, f.pc, a + [JumpIfTrue(starts[0])], rest);
    AtSplit(k.code, f.pc, a, [JumpIfTrue(starts[0])]);
    n, c := RunCaseTest(k, v, cs[0], f, st, val);
    var r := EvalAll(k.w, [cs[0].value] + cs[0].more, st.vars);
    if r.Vals? {
      var hit := CaseMatches(k.w, val, r.vs);
      var f1 := f.(pc := f.pc + |a|, stack := f.stack + [Bool(hit)]);
      AtOne(k.code, f.pc + |a|, [JumpIfTrue(starts[0])], 0);
      StepBranch(k.w, k.code, f1, true, starts[0], f.stack, Bool(hit));
      RunAdd(k.w, k.code, n, 1, Run(f));
      n, c := n + 1, RunN(k.w, k.code, 1, Run(f1));
      if !hit {
        var f2 := f.(pc := f.pc + |a| + 1);
        var m, d := RunDispatch(k, v, cs[1..], starts[1..], f2, st, val);
        RunAdd(k.w, k.code, n, m, Run(f));
        n, c := n + m, d;
        var ch := Choose(k.w, val, cs[1..], st.vars);
        if ch.Raised? {
          RaisesSame(k, f, f2, st.budget, st, ch.x, m, n, c);
        }
      }
    }
  }

  // ---- The case bodies ----

  /** Each case body starts where the fall-through code from that case on starts. */
  lemma {:induction false} StartsAt(k: Ctx, cs: seq<Case>, def: OptBlock, i: nat, at: nat)
    requires i <= |cs| && AtCode(k, at, CodeB(FallThrough(cs, def), at, k.env))
    ensures var s := Starts(cs, at, k.env)[i];
            var a := CodeB(FallThrough(cs[i..], def), s, k.env);
            AtCode(k, s, a) && s + |a| == at + |CodeB(FallThrough(cs, def), at, k.env)|
    decreases |cs|
  {
    hide AtCode, CodeB, Starts, FallThrough, SizeB, SizeCases, SizeOpt, SizeFins;
    UnfoldStarts(cs, def, i, at, k.env);
    if i == 0 {
      assert cs[i..] == cs;
    } else {
      var b := cs[0].body;
      CodeAppend(b, FallThrough(cs[1..], def), at, k.env);
      var next := at + |CodeB(b, at, k.env)|;
      AtCodeSplit(k, at, CodeB(b, at, k.env), CodeB(FallThrough(cs[1..], def), next, k.env));
      StartsAt(k, cs[1..], def, i - 1, next);
      assert cs[1..][i - 1..] == cs[i..];
    }
  }

  lemma {:induction false} UnfoldStarts(cs: seq<Case>, def: OptBlock, i: nat, at: nat, env: Env)
    requires i <= |cs|
    ensures |Starts(cs, at, env)| == |cs| + 1 && Starts(cs, at, env)[0] == at
    ensures i > 0 ==>
            && FallThrough(cs, def) == cs[0].body + FallThrough(cs[1..], def)
            && Starts(cs, at, env)[i] == Starts(cs[1..], at + |CodeB(cs[0].body, at, env)|, env)[i - 1]
  {
    hide CodeB;
  }

  lemma {:induction false} OkAppend(a: seq<Stmt>, b: seq<Stmt>, catching: bool)
    requires OkB(a, catching) && OkB(b, catching)
    ensures OkB(a + b, catching)
  {
    if a == [] {
      assert a + b == b;
    } else {
      assert (a + b)[1..] == a[1..] + b;
      OkAppend(a[1..], b, catching);
    }
  }

  lemma {:induction false} OkFallThrough(cs: seq<Case>, def: OptBlock, i: nat, catching: bool)
    requires OkCases(cs, catching) && OkOpt(def, catching) && i <= |cs|
    ensures OkB(FallThrough(cs[i..], def), catching)
    decreases |cs|, i
  {
    if cs == [] {
      assert cs[i..] == [];
    } else if i > 0 {
      assert cs[i..] == cs[1..][i - 1..];
      OkFallThrough(cs[1..], def, i - 1, catching);
    } else {
      assert cs[i..] == cs && cs[1..][0..] == cs[1..];
      OkFallThrough(cs[1..], def, 0, catching);
      OkAppend(cs[0].body, FallThrough(cs[1..], def), catching);
    }
  }
}
