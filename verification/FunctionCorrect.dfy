/**
 The correctness theorems for whole compiled functions: the interpreter's
 result is what the machine shows when it halts, and the machine halts exactly
 when the interpreter finishes within some budget. Nothing is claimed of the runs
 in which the watched interpreter stops.
 */
module FunctionCorrect {
  import opened Names
  import opened Ast
  import opened Shapes
  import opened Values
  import opened Semantics
  import opened Machine
  import opened Codegen
  import opened ExprCorrect
  import opened Fusion
  import opened Simulation
  import opened Steps
  import opened StmtCorrect
  import opened Watch

  const NO_FRAMES := Env([], None, None)

  /** The first configuration of a call with the given arguments. */
  function Start(vars: Vars): Config {
    Run(Frame(0, [], vars, [], [], None, []))
  }

  /** Arguments do not collide with the generator's temporaries. */
  ghost predicate UserArgs(vars: Vars) {
    forall key :: key in vars ==> !IsTemp(key)
  }

  /** How a halted machine shows the interpreter's result. */
  ghost predicate Shows(r: Result, c: Config) {
    match r
    case Finished(v, vars, out) => c.Done? && c.v == v && UserVars(c.vars) == vars && c.out == out
    case Failed(x, vars, out) => c.Dead? && c.x == x && UserVars(c.vars) == vars && c.out == out
    case _ => true
  }

  /** Unless the watched run stops, the machine shows the meaning of the function. */
  ghost predicate Agrees(w: World, body: seq<Stmt>, vars: Vars, budget: nat, catching: bool, c: Config) {
    var r := RunFunction(w, body, vars, budget, catching);
    r.NoClaim? || (r == RunFunction(Off(w), body, vars, budget, catching) && Shows(r, c))
  }

  lemma {:induction false} PlainAgrees(w: World, body: seq<Stmt>, vars: Vars, budget: nat, catching: bool, c: Config)
    requires Shows(RunFunction(w, body, vars, budget, catching), c)
    ensures Agrees(w, body, vars, budget, catching, c)
  {
    hide ExecB, Shows;
    if !RunFunction(w, body, vars, budget, catching).NoClaim? {
      WatchedIsPlain(w, body, vars, budget, catching);
    }
  }

  lemma {:induction false} EndShows(k: Ctx, body: seq<Stmt>, f: Frame, vars: Vars, budget: nat, end: nat, n: nat, c: Config)
    requires k.env == NO_FRAMES && k.base == 0 && k.w.watch
    requires var o := ExecB(k.w, body, State(vars, [], budget), k.catching);
             !o.Normal? && Ends(k, f, budget, o, end, n, c)
    ensures Shows(RunFunction(k.w, body, vars, budget, k.catching), c)
    ensures RunFunction(k.w, body, vars, budget, k.catching) == OutOfBudget ==> c.Run? && n >= budget
  {
    hide ExecB, UserVars;
  }

  /**
   Running the emitted code gives the interpreter's result; a run that exhausts
   the interpreter's budget keeps the machine running at least that long.
   */
  lemma {:induction false} CompiledRun(w: World, body: seq<Stmt>, vars: Vars, budget: nat, catching: bool)
    returns (n: nat, c: Config)
    requires Lawful(w) && w.watch && OkB(body, catching) && UserArgs(vars)
    ensures c == RunN(w, CodeFunction(body), n, Start(vars))
    ensures Agrees(w, body, vars, budget, catching, c)
    ensures RunFunction(w, body, vars, budget, catching) == OutOfBudget ==> c.Run? && n >= budget
  {
    hide RunN, At, Ends, Lands, CodeB, ExecB, OkB, HasBreak, HasContinue;
    var k := Ctx(w, CodeFunction(body), NO_FRAMES, 0, 0, catching);
    var f := Start(vars).f;
    var st := State(vars, [], budget);
    assert UserVars(vars) == vars;
    var code := CodeB(body, 0, NO_FRAMES);
    WholeCode(k.code, Ops(code, 0, 0));
    n, c := RunB(k, body, f, st);
    var o := ExecB(w, body, st, catching);
    if o.Normal? {
      EndsNormal(k, f, budget, o.st, |code|, n, c);
      n, c := FallOff(k, f, budget, o.st, |code|, n, c);
    } else {
      EndShows(k, body, f, vars, budget, |code|, n, c);
    }
    PlainAgrees(w, body, vars, budget, catching, c);
  }

  lemma {:induction false} WholeCode(code: seq<Op>, a: seq<Op>)
    requires code == a + [Const(Null), Ret]
    ensures At(code, 0, a) && At(code, |a|, [Const(Null), Ret])
  {
    assert code[0..|a|] == a;
    assert code[|a|..|a| + 2] == [Const(Null), Ret];
  }

  /** Off the end of the body: the implicit `return null`. */
  lemma {:induction false} FallOff(k: Ctx, f: Frame, b: nat, st: State, pc: nat, n: nat, c: Config) returns (n': nat, c': Config)
    requires Lands(k, f, b, st, pc, n, c) && RunN(k.w, k.code, n, Run(f)) == c
    requires At(k.code, pc, [Const(Null), Ret])
    ensures RunN(k.w, k.code, n', Run(f)) == c'
    ensures c'.Done? && c'.v == Null && UserVars(c'.vars) == st.vars && c'.out == st.out
  {
    hide RunN, At, UserVars;
    AtOne(k.code, pc, [Const(Null), Ret], 0);
    AtOne(k.code, pc, [Const(Null), Ret], 1);
    n', c' := n + 2, Done(Null, c.f.vars, c.f.out);
    var g := Push(c.f, Null).f;
    StepConst(k.w, k.code, c.f, Null);
    StepRet(k.w, k.code, g, c.f.stack, Null);
    RunAdd(k.w, k.code, n, 1, Run(f));
    RunAdd(k.w, k.code, n + 1, 1, Run(f));
  }

  /** Two halted points of one run are the same point. */
  lemma {:induction false} HaltedOnce(w: World, code: seq<Op>, m: nat, n: nat, c: Config)
    requires !RunN(w, code, m, c).Run? && m <= n
    ensures RunN(w, code, n, c) == RunN(w, code, m, c)
  {
    hide RunN;
    RunAdd(w, code, m, n - m, c);
    RunHalted(w, code, n - m, RunN(w, code, m, c));
  }

  /**
   The converse: when the machine has halted after `n` steps, the interpreter
   needs no more than `n` iterations to reach its result, and the halted machine
   shows that result.
   */
  lemma {:induction false} HaltedAgrees(w: World, body: seq<Stmt>, vars: Vars, n: nat, catching: bool)
    requires Lawful(w) && w.watch && OkB(body, catching) && UserArgs(vars)
    requires !RunN(w, CodeFunction(body), n, Start(vars)).Run?
    ensures RunFunction(w, body, vars, n + 1, catching) != OutOfBudget
    ensures Agrees(w, body, vars, n + 1, catching, RunN(w, CodeFunction(body), n, Start(vars)))
  {
    hide RunN, OkB, UserVars, RunFunction, CodeFunction;
    var m, c := CompiledRun(w, body, vars, n + 1, catching);
    if n <= m {
      HaltedOnce(w, CodeFunction(body), n, m, Start(vars));
    } else if !c.Run? {
      HaltedOnce(w, CodeFunction(body), m, n, Start(vars));
    }
  }

  /** Two results the interpreter reaches with different budgets are shown by the same machine state. */
  lemma {:induction false} BudgetIrrelevant(w: World, body: seq<Stmt>, vars: Vars, a: nat, b: nat, catching: bool)
    requires Lawful(w) && w.watch && OkB(body, catching) && UserArgs(vars)
    requires var r := RunFunction(w, body, vars, a, catching); r.Finished? || r.Failed?
    requires var r := RunFunction(w, body, vars, b, catching); r.Finished? || r.Failed?
    ensures RunFunction(w, body, vars, a, catching) == RunFunction(w, body, vars, b, catching)
  {
    hide RunN, OkB, UserVars, RunFunction, CodeFunction;
    var m, c := CompiledRun(w, body, vars, a, catching);
    var n, d := CompiledRun(w, body, vars, b, catching);
    if m <= n {
      HaltedOnce(w, CodeFunction(body), m, n, Start(vars));
    } else {
      HaltedOnce(w, CodeFunction(body), n, m, Start(vars));
    }
  }
}
