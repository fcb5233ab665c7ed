/**
 `finally` bodies: however control leaves a nest of `try`/`finally` without an
 exception, each body runs exactly once, innermost first, and a returned value is
 the one computed before they ran. Stated for the interpreter and, through the
 compiler theorem, for the emitted code.
 */
module Finally {
  import opened Names
  import opened Ast
  import opened Shapes
  import opened Values
  import opened Semantics
  import opened Machine
  import opened Codegen
  import opened Fusion
  import opened Simulation
  import opened StmtCorrect
  import opened Watch
  import opened FunctionCorrect

  /** `body` inside one `try`/`finally` per element of `fins`, outermost first. */
  function Nest(fins: seq<seq<Stmt>>, body: seq<Stmt>): seq<Stmt> {
    if fins == [] then body else [Try(Nest(fins[1..], body), [], Block(fins[0]))]
  }

  /** The outermost body runs last. */
  lemma {:induction false} UnwindOuter(w: World, f: seq<Stmt>, fins: seq<seq<Stmt>>, st: State, catching: bool)
    ensures var u := Unwind(w, fins, st, catching);
            Unwind(w, [f] + fins, st, catching) ==
            if u.Normal? then ThenUnwind(w, [], ExecB(w, f, u.st, catching), catching) else u
    decreases |fins|
  {
    hide ExecB;
    if fins == [] {
      assert [f] + fins == [f] && [f][..0] == [];
    } else {
      var last := fins[|fins| - 1];
      var all := [f] + fins;
      assert all[..|all| - 1] == [f] + fins[..|fins| - 1] && all[|all| - 1] == last;
      var o := ExecB(w, last, st, catching);
      if o.Normal? {
        UnwindOuter(w, f, fins[..|fins| - 1], o.st, catching);
      }
    }
  }

  predicate LeavesQuietly(o: Outcome) { o.Normal? || o.Broke? || o.Continued? || o.Returned? }

  /** The state inside `n` nested `try` bodies. */
  function Deep(st: State, n: nat): State { st.(held := st.held + n) }

  function Popped(st: State): State { if st.held > 0 then st.(held := st.held - 1) else st }

  /** Completing a nest: innermost first, each handler is removed and then its body run. */
  function Completing(w: World, fins: seq<seq<Stmt>>, st: State, catching: bool): (o: Outcome)
    ensures o.Normal? || o.Stuck? || o.Timeout?
    decreases |fins|
  {
    if fins == [] then Normal(st) else
    match ExecB(w, fins[|fins| - 1], Popped(st), catching)
    case Normal(st1) => Completing(w, fins[..|fins| - 1], st1, catching)
    case Timeout => Timeout
    case _ => Stuck
  }

  lemma {:induction false} CompletingOuter(w: World, f: seq<Stmt>, fins: seq<seq<Stmt>>, st: State, catching: bool)
    ensures var u := Completing(w, fins, st, catching);
            Completing(w, [f] + fins, st, catching) ==
            if u.Normal? then ThenUnwind(w, [], ExecB(w, f, Popped(u.st), catching), catching) else u
    decreases |fins|
  {
    hide ExecB;
    if fins == [] {
      assert [f] + fins == [f] && [f][..0] == [];
    } else {
      var last := fins[|fins| - 1];
      var all := [f] + fins;
      assert all[..|all| - 1] == [f] + fins[..|fins| - 1] && all[|all| - 1] == last;
      var o := ExecB(w, last, Popped(st), catching);
      if o.Normal? {
        CompletingOuter(w, f, fins[..|fins| - 1], o.st, catching);
      }
    }
  }

  lemma {:induction false} UnfoldNest(w: World, fins: seq<seq<Stmt>>, body: seq<Stmt>, st: State, catching: bool)
    requires fins != []
    requires !ExecB(w, Nest(fins[1..], body), Inside(st), catching).Thrown?
    ensures var o := ExecB(w, Nest(fins[1..], body), Inside(st), catching);
            && (o.Normal? ==> o.st.held > 0)
            && ExecB(w, Nest(fins, body), st, catching) ==
               if !o.Ended() then o
               else AfterFinally(w, Completed(o), ExecB(w, fins[0], Completed(o).st, catching))
  {
    var s := Try(Nest(fins[1..], body), [], Block(fins[0]));
    assert Nest(fins, body) == [s];
    UnfoldB(w, [s], st, catching);
    assert [s][1..] == [];
    var o := Exec(w, s, st, catching);
    assert o == ExecTry(w, s.body, [], Block(fins[0]), st, catching);
    if o.Normal? {
      assert ExecB(w, [], o.st, catching) == Normal(o.st);
    }
  }

  /** The pending bodies after the nest's body ended in `o`. */
  function Pended(w: World, fins: seq<seq<Stmt>>, o: Outcome, catching: bool): Outcome
    requires LeavesQuietly(o)
  {
    if o.Normal? then Completing(w, fins, o.st, catching) else Unwind(w, fins, o.st, catching)
  }

  /**
   Leaving the nest runs every pending body, innermost first, each once, and then
   completes exactly as the body did: same kind of exit, same returned value.
   */
  lemma {:induction false} NestLeaves(w: World, fins: seq<seq<Stmt>>, body: seq<Stmt>, st: State, catching: bool)
    requires LeavesQuietly(ExecB(w, body, Deep(st, |fins|), catching))
    requires !Pended(w, fins, ExecB(w, body, Deep(st, |fins|), catching), catching).Stuck?
    ensures var o := ExecB(w, body, Deep(st, |fins|), catching);
            ExecB(w, Nest(fins, body), st, catching) == AfterFinally(w, o, Pended(w, fins, o, catching))
    decreases |fins|
  {
    hide ExecB, AfterFinally, Unwind, Completing, Nest, ThenUnwind;
    var o := ExecB(w, body, Deep(st, |fins|), catching);
    if fins == [] {
      EmptyNest(w, body, st, catching);
    } else {
      var inner := fins[1..];
      assert Deep(Inside(st), |inner|) == Deep(st, |fins|);
      UnwindOuter(w, fins[0], inner, o.st, catching);
      CompletingOuter(w, fins[0], inner, o.st, catching);
      assert [fins[0]] + inner == fins;
      var u := Pended(w, inner, o, catching);
      QuietEnd(w, o, Pended(w, fins, o, catching));
      if u.Normal? {
        OneLeft(w, ExecB(w, fins[0], if o.Normal? then Popped(u.st) else u.st, catching), catching);
      }
      NestLeaves(w, inner, body, Inside(st), catching);
      QuietEnd(w, o, u);
      UnfoldNest(w, fins, body, st, catching);
      if u.Normal? {
        var o1 := Completed(WithState(o, u.st));
        QuietEnd(w, o1, ExecB(w, fins[0], o1.st, catching));
      }
    }
  }

  lemma {:induction false} EmptyNest(w: World, body: seq<Stmt>, st: State, catching: bool)
    requires LeavesQuietly(ExecB(w, body, Deep(st, 0), catching))
    ensures var o := ExecB(w, body, Deep(st, 0), catching);
            ExecB(w, Nest([], body), st, catching) == o == AfterFinally(w, o, Pended(w, [], o, catching))
  {
    hide ExecB;
    assert Deep(st, 0) == st;
  }

  /** One body left to run. */
  lemma {:induction false} OneLeft(w: World, o: Outcome, catching: bool)
    ensures ThenUnwind(w, [], o, catching) == if o.Normal? || o.Timeout? then o else Stuck
  {
  }

  lemma {:induction false} QuietEnd(w: World, o: Outcome, u: Outcome)
    requires LeavesQuietly(o) && (u.Normal? || u.Timeout?)
    ensures AfterFinally(w, o, u) == if u.Normal? then WithState(o, u.st) else Timeout
  {
  }

  // ---- Counting runs: bodies that leave a trace ----

  /** One `finally` body per mark, each writing its mark. */
  function Marking(marks: seq<string>): (r: seq<seq<Stmt>>)
    ensures |r| == |marks|
  {
    seq(|marks|, i requires 0 <= i < |marks| => [Text(marks[i])])
  }

  function Reversed(s: seq<string>): seq<string> {
    if s == [] then [] else [s[|s| - 1]] + Reversed(s[..|s| - 1])
  }

  /** Unwinding writes every mark once, innermost first. */
  lemma {:induction false} UnwindMarks(w: World, marks: seq<string>, st: State, catching: bool)
    ensures Unwind(w, Marking(marks), st, catching) == Normal(st.(out := st.out + Reversed(marks)))
    decreases |marks|
  {
    if marks == [] {
      assert st.out + [] == st.out;
    } else {
      var n := |marks| - 1;
      var st1 := st.(out := st.out + [marks[n]]);
      assert [Text(marks[n])][1..] == [];
      assert Marking(marks)[n] == [Text(marks[n])];
      assert ExecB(w, [Text(marks[n])], st, catching) == ExecB(w, [], st1, catching);
      assert Marking(marks)[..n] == Marking(marks[..n]);
      UnwindMarks(w, marks[..n], st1, catching);
      assert st.out + [marks[n]] + Reversed(marks[..n]) == st.out + ([marks[n]] + Reversed(marks[..n]));
    }
  }

  // ---- Compiled nests ----

  lemma {:induction false} NestOk(fins: seq<seq<Stmt>>, body: seq<Stmt>, catching: bool)
    requires OkFins(fins, catching) && OkB(body, catching)
    ensures OkB(Nest(fins, body), catching)
    ensures HasBreak(Nest(fins, body)) == HasBreak(body) && HasContinue(Nest(fins, body)) == HasContinue(body)
    decreases |fins|
  {
    hide OkB, HasBreak, HasContinue;
    if fins != [] {
      NestOk(fins[1..], body, catching);
      TryOk(Nest(fins[1..], body), fins[0], catching);
    }
  }

  lemma {:induction false} TryOk(body: seq<Stmt>, fin: seq<Stmt>, catching: bool)
    requires OkB(body, catching)
    requires OkB(fin, catching) && !HasBreak(fin) && !HasContinue(fin)
    ensures var ss := [Try(body, [], Block(fin))];
            OkB(ss, catching) && HasBreak(ss) == HasBreak(body) && HasContinue(ss) == HasContinue(body)
  {
    var s := Try(body, [], Block(fin));
    assert [s][1..] == [];
    assert OkB([], catching) && OkCatches([], catching);
    assert !OptHasBreak(Block(fin)) && !OptHasContinue(Block(fin)) && OkOpt(Block(fin), catching);
    assert OkS(s, catching);
    assert !CatchesHaveBreak([]) && !CatchesHaveContinue([]);
    assert StmtHasBreak(s) == HasBreak(body) && StmtHasContinue(s) == HasContinue(body);
    assert !HasBreak([s][1..]) && !HasContinue([s][1..]);
  }

  /** The machine has returned `v` in the state `st`. */
  ghost predicate DoneWith(c: Config, v: Value, st: State) {
    c.Done? && c.v == v && c.out == st.out && UserVars(c.vars) == st.vars
  }

  /**
   `return e` from inside a nest: the machine runs every pending body once, innermost
   first, and returns the value `e` had before they ran.
   */
  lemma {:induction false} ReturnRunsEachOnce(w: World, fins: seq<seq<Stmt>>, e: Expr, vars: Vars, v: Value, budget: nat, catching: bool)
    returns (n: nat)
    requires Lawful(w) && w.watch && UserArgs(vars) && OkFins(fins, catching)
    requires ExprOk(e) && Eval(w, e, vars) == Val(v) && Unwind(w, fins, Deep(State(vars, [], budget), |fins|), catching).Normal?
    ensures DoneWith(RunN(w, CodeFunction(Nest(fins, [Return(Some(e))])), n, Start(vars)), v,
                     Unwind(w, fins, Deep(State(vars, [], budget), |fins|), catching).st)
  {
    hide RunN, CodeFunction, Nest, Unwind, UserVars, UserName, OkFins;
    var body := [Return(Some(e))];
    var st := State(vars, [], budget);
    ReturnBody(w, e, Deep(st, |fins|), v, catching);
    NestOk(fins, body, catching);
    NestLeaves(w, fins, body, st, catching);
    var c;
    n, c := CompiledRun(w, Nest(fins, body), vars, budget, catching);
  }

  lemma {:induction false} ReturnBody(w: World, e: Expr, st: State, v: Value, catching: bool)
    requires ExprOk(e) && Eval(w, e, st.vars) == Val(v)
    ensures var body := [Return(Some(e))];
            && ExecB(w, body, st, catching) == Returned(st, v)
            && OkB(body, catching) && !HasBreak(body) && !HasContinue(body)
  {
    hide ExprOk, Eval;
    var s := Return(Some(e));
    assert [s][1..] == [];
    assert Exec(w, s, st, catching) == Returned(st, v);
    assert OkS(s, catching) && OkB([], catching);
  }

  /**
   `break` or `continue` from inside a nest, wherever its code stands: the machine runs the
   nest's bodies, then those further out, and is at the jump's target.
   */
  lemma {:induction false} JumpRunsEachOnce(k: Ctx, fins: seq<seq<Stmt>>, s: Stmt, f: Frame, st: State) returns (n: nat, c: Config)
    requires Ready(k, f, st) && OkFins(fins, k.catching) && (s == Break || s == Continue) && Aims(k.env, s == Break, s == Continue)
    requires AtCode(k, f.pc, CodeB(Nest(fins, [s]), f.pc, k.env))
    requires Unwind(k.w, fins, Deep(st, |fins|), k.catching).Normal?
    ensures RunN(k.w, k.code, n, Run(f)) == c
    ensures var u := Unwind(k.w, fins, Deep(st, |fins|), k.catching).st;
            if s == Break then Jumps(k, f, st.budget, u, k.env.brk, k.brkT, n, c)
            else Jumps(k, f, st.budget, u, k.env.cont, k.contT, n, c)
  {
    hide RunN, AtCode, Ready, CodeB, Nest, Unwind, OkFins, ExecB, OkB, HasBreak, HasContinue, Aims, Jumps, Ends;
    JumpBody(k.w, s, Deep(st, |fins|), k.catching);
    NestOk(fins, [s], k.catching);
    NestLeaves(k.w, fins, [s], st, k.catching);
    n, c := RunB(k, Nest(fins, [s]), f, st);
    var u := Unwind(k.w, fins, Deep(st, |fins|), k.catching).st;
    EndsJump(k, f, st.budget, u, f.pc + |CodeB(Nest(fins, [s]), f.pc, k.env)|, n, c);
  }

  /** `break` from inside a nest inside a loop: likewise, and the loop is left. */
  lemma {:induction false} BreakRunsEachOnce(w: World, fins: seq<seq<Stmt>>, vars: Vars, budget: nat, catching: bool) returns (n: nat)
    requires Lawful(w) && w.watch && UserArgs(vars) && OkFins(fins, catching)
    requires Unwind(w, fins, Deep(State(vars, [], budget), |fins|), catching).Normal?
    ensures var loop := While(Lit(Bool(true)), Nest(fins, [Break]));
            DoneWith(RunN(w, CodeFunction([loop]), n, Start(vars)), Null, Unwind(w, fins, Deep(State(vars, [], budget), |fins|), catching).st)
  {
    hide RunN, CodeFunction, Nest, Unwind, UserVars, UserName, OkFins;
    var st := State(vars, [], budget);
    var body := Nest(fins, [Break]);
    JumpBody(w, Break, Deep(st, |fins|), catching);
    NestOk(fins, [Break], catching);
    NestLeaves(w, fins, [Break], st, catching);
    LoopOnce(w, body, st, catching);
    var c;
    n, c := CompiledRun(w, [While(Lit(Bool(true)), body)], vars, budget, catching);
  }

  /** `continue` from inside a nest: the bodies run before the loop tests again. */
  lemma {:induction false} ContinueRunsEachOnce(w: World, fins: seq<seq<Stmt>>, vars: Vars, budget: nat, catching: bool) returns (n: nat)
    requires Lawful(w) && w.watch && UserArgs(vars) && OkFins(fins, catching)
    requires var u := Unwind(w, fins, Deep(State(vars, [], budget), |fins|), catching); u.Normal? && u.st.budget > 0
    ensures var loop := DoWhile(Nest(fins, [Continue]), Lit(Bool(false)));
            DoneWith(RunN(w, CodeFunction([loop]), n, Start(vars)), Null, Unwind(w, fins, Deep(State(vars, [], budget), |fins|), catching).st)
  {
    hide RunN, CodeFunction, Nest, Unwind, UserVars, UserName, OkFins;
    var st := State(vars, [], budget);
    var body := Nest(fins, [Continue]);
    JumpBody(w, Continue, Deep(st, |fins|), catching);
    NestOk(fins, [Continue], catching);
    NestLeaves(w, fins, [Continue], st, catching);
    DoOnce(w, body, st, catching);
    var c;
    n, c := CompiledRun(w, [DoWhile(body, Lit(Bool(false)))], vars, budget, catching);
  }

  lemma {:induction false} JumpBody(w: World, s: Stmt, st: State, catching: bool)
    requires s == Break || s == Continue
    ensures ExecB(w, [s], st, catching) == (if s == Break then Broke(st) else Continued(st)) && OkB([s], catching)
    ensures HasBreak([s]) == (s == Break) && HasContinue([s]) == (s == Continue)
  {
    assert [s][1..] == [];
    assert OkS(s, catching) && OkB([], catching);
    assert Exec(w, s, st, catching) == if s == Break then Broke(st) else Continued(st);
  }

  lemma {:induction false} LoopOnce(w: World, body: seq<Stmt>, st: State, catching: bool)
    requires OkB(body, catching) && ExecB(w, body, st, catching).Broke?
    ensures var s := While(Lit(Bool(true)), body);
            && OkB([s], catching)
            && ExecB(w, [s], st, catching) == Normal(ExecB(w, body, st, catching).st)
  {
    hide OkB, ExecB;
    var s := While(Lit(Bool(true)), body);
    NothingOk([s], catching);
    assert Eval(w, s.cond, st.vars) == Val(Bool(true));
    assert Decide(w, s.cond, st.vars) == Yes;
    assert OkS(s, catching);
    UnfoldExecWhile(w, s.cond, body, st, catching);
    assert Exec(w, s, st, catching) == Normal(ExecB(w, body, st, catching).st);
    OneOff(w, s, st, catching);
  }

  lemma {:induction false} DoOnce(w: World, body: seq<Stmt>, st: State, catching: bool)
    requires OkB(body, catching) && ExecB(w, body, st, catching).Continued? && ExecB(w, body, st, catching).st.budget > 0
    ensures var s := DoWhile(body, Lit(Bool(false)));
            && OkB([s], catching)
            && ExecB(w, [s], st, catching) == Normal(Spend(ExecB(w, body, st, catching).st))
  {
    hide OkB, ExecB;
    var s := DoWhile(body, Lit(Bool(false)));
    NothingOk([s], catching);
    var o := ExecB(w, body, st, catching);
    assert Eval(w, s.cond, o.st.vars) == Val(Bool(false));
    assert Test(w, s.cond, o.st.vars) == No;
    assert OkS(s, catching);
    UnfoldExecDo(w, s.cond, body, st, catching);
    assert Exec(w, s, st, catching) == Normal(Spend(o.st));
    OneOff(w, s, st, catching);
  }

  lemma {:induction false} NothingOk(ss: seq<Stmt>, catching: bool)
    requires |ss| == 1
    ensures OkB(ss, catching) == OkS(ss[0], catching)
  {
    hide OkS;
    assert ss[1..] == [];
  }
}
