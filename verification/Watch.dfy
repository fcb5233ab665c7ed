/**
 Watching changes nothing: a watched run that is not stopped is the unwatched
 run, and an unwatched run is never stopped.
 */
module Watch {
  import opened Names
  import opened Ast
  import opened Shapes
  import opened Values
  import opened Semantics
  import opened Fusion

  /** The same world, for the interpreter that never stops. */
  function Off(w: World): World { w.(watch := false) }

  lemma {:induction false} ApplyOff(w: World, op: BinOp, a: Value, b: Value)
    ensures Apply(Off(w), op, a, b) == Apply(w, op, a, b)
  {
  }

  lemma {:induction false} EvalOff(w: World, e: Expr, vars: Vars)
    ensures Eval(Off(w), e, vars) == Eval(w, e, vars)
    ensures Test(Off(w), e, vars) == Test(w, e, vars)
  {
    hide Apply;
    match e {
      case Bin(op, l, r) =>
        EvalOff(w, l, vars);
        EvalOff(w, r, vars);
        var a, b := Eval(w, l, vars), Eval(w, r, vars);
        if a.Val? && b.Val? {
          ApplyOff(w, op, a.v, b.v);
        }
      case Logic(_, l, r) =>
        EvalOff(w, l, vars);
        EvalOff(w, r, vars);
      case _ =>
    }
  }

  lemma {:induction false} EvalAllOff(w: World, es: seq<Expr>, vars: Vars)
    ensures EvalAll(Off(w), es, vars) == EvalAll(w, es, vars)
    decreases |es|
  {
    hide Eval;
    if es != [] {
      EvalOff(w, es[0], vars);
      EvalAllOff(w, es[1..], vars);
    }
  }

  lemma {:induction false} CaseMatchesOff(w: World, v: Value, vals: seq<Value>)
    ensures CaseMatches(Off(w), v, vals) == CaseMatches(w, v, vals)
  {
    hide Compare;
    forall i | 0 <= i < |vals|
      ensures Compare(Off(w), CEq, v, vals[i]) == Compare(w, CEq, v, vals[i])
    {
      CompareOff(w, v, vals[i]);
    }
  }

  lemma {:induction false} CompareOff(w: World, a: Value, b: Value)
    ensures Compare(Off(w), CEq, a, b) == Compare(w, CEq, a, b)
  {
  }

  lemma {:induction false} ChooseOff(w: World, v: Value, cs: seq<Case>, vars: Vars)
    ensures Choose(Off(w), v, cs, vars) == Choose(w, v, cs, vars)
    decreases |cs|
  {
    hide EvalAll, CaseMatches;
    if cs != [] {
      var es := [cs[0].value] + cs[0].more;
      EvalAllOff(w, es, vars);
      if EvalAll(w, es, vars).Vals? {
        CaseMatchesOff(w, v, EvalAll(w, es, vars).vs);
      }
      ChooseOff(w, v, cs[1..], vars);
    }
  }

  // ---- Simple statements ----

  lemma {:induction false} SetOff(w: World, name: string, e: Expr, st: State)
    ensures ExecSet(Off(w), name, e, st) == ExecSet(w, name, e, st)
  {
    hide Eval;
    EvalOff(w, e, st.vars);
  }

  lemma {:induction false} StepOff(w: World, step: Step, st: State)
    ensures Follows(ExecStep(w, step, st), ExecStep(Off(w), step, st))
  {
    hide ExecSet;
    if step.SetTo? {
      SetOff(w, step.name, step.e, st);
    }
  }

  lemma {:induction false} AssignOff(w: World, x: string, aop: AssignOp, e: Expr, st: State)
    ensures Follows(ExecAssign(w, x, aop, e, st), ExecAssign(Off(w), x, aop, e, st))
  {
    hide ExecSet, Eval, Apply, ConstDeparts, Lookup;
    SetOff(w, x, e, st);
    EvalOff(w, e, st.vars);
    var r := Eval(w, e, st.vars);
    if r.Val? && Lookup(st.vars, x).Some? {
      ApplyOff(w, BinOf(aop), Lookup(st.vars, x).value, r.v);
    }
  }

  lemma {:induction false} IncOff(w: World, k: Option<Counted>, inc: Option<Step>, st: State)
    ensures Follows(ExecInc(w, k, inc, st), ExecInc(Off(w), k, inc, st))
  {
    hide ExecStep, StepDeparts;
    if inc.Some? {
      StepOff(w, inc.value, st);
    }
  }

  lemma {:induction false} DecideOff(w: World, e: Expr, vars: Vars)
    ensures Decide(w, e, vars).Unknown? || Decide(Off(w), e, vars) == Decide(w, e, vars)
    ensures !Decide(Off(w), e, vars).Unknown?
  {
    hide Test, TestDeparts;
    EvalOff(w, e, vars);
  }

  // ---- Structured statements ----

  lemma {:induction false} BlockOff(w: World, ss: seq<Stmt>, st: State, catching: bool)
    ensures Follows(ExecB(w, ss, st, catching), ExecB(Off(w), ss, st, catching))
    decreases st.budget, SizeB(ss), 2
  {
    hide Exec;
    if ss != [] {
      StmtOff(w, ss[0], st, catching);
      var o := Exec(w, ss[0], st, catching);
      if o.Normal? {
        BlockOff(w, ss[1..], o.st, catching);
      }
    }
  }

  lemma {:induction false} BodyOff(w: World, k: Option<Counted>, body: seq<Stmt>, st: State, catching: bool)
    requires k.Some? ==> body != []
    ensures Follows(ExecBody(w, k, body, st, catching), ExecB(Off(w), body, st, catching))
    decreases st.budget, SizeB(body), 3
  {
    hide Exec, ExecB, StepDeparts;
    if !w.watch || k.None? {
      BlockOff(w, body, st, catching);
    } else {
      var front, last := body[..|body| - 1], body[|body| - 1];
      SizeSnoc(body);
      assert body == front + [last];
      BlockOff(w, front, st, catching);
      ExecAppend(Off(w), front, [last], st, catching);
      var a := ExecB(w, front, st, catching);
      if a.Normal? {
        StmtOff(w, last, a.st, catching);
        OneOff(Off(w), last, a.st, catching);
      }
    }
  }

  lemma {:induction false} OneOff(w: World, s: Stmt, st: State, catching: bool)
    ensures ExecB(w, [s], st, catching) == Exec(w, s, st, catching)
  {
    hide Exec;
    assert [s][1..] == [];
    var o := Exec(w, s, st, catching);
    if o.Normal? {
      assert ExecB(w, [], o.st, catching) == o;
    }
  }

  lemma {:induction false} ArmsOff(w: World, arms: seq<Arm>, els: OptBlock, st: State, catching: bool)
    ensures Follows(ExecArms(w, arms, els, st, catching), ExecArms(Off(w), arms, els, st, catching))
    decreases st.budget, SizeArms(arms) + SizeOpt(els), 3
  {
    hide ExecB, Decide;
    if arms == [] {
      BlockOff(w, BodyOf(els), st, catching);
    } else {
      DecideOff(w, arms[0].cond, st.vars);
      BlockOff(w, arms[0].body, st, catching);
      ArmsOff(w, arms[1..], els, st, catching);
    }
  }

  lemma {:induction false} WhileOff(w: World, cond: Expr, body: seq<Stmt>, st: State, catching: bool)
    ensures Follows(ExecWhile(w, cond, body, st, catching), ExecWhile(Off(w), cond, body, st, catching))
    decreases st.budget, SizeB(body), 4
  {
    hide ExecB, Decide, CountedBody;
    DecideOff(w, cond, st.vars);
    var k := CountedBody(cond, body);
    BodyOff(w, k, body, st, catching);
    var o := ExecBody(w, k, body, st, catching);
    if (o.Normal? || o.Continued?) && o.st.budget > 0 {
      WhileOff(w, cond, body, Spend(o.st), catching);
    }
  }

  lemma {:induction false} DoOff(w: World, cond: Expr, body: seq<Stmt>, st: State, catching: bool)
    ensures Follows(ExecDo(w, cond, body, st, catching), ExecDo(Off(w), cond, body, st, catching))
    decreases st.budget, SizeB(body), 4
  {
    hide ExecB, Decide, Test, CountedBody;
    var k := CountedBody(cond, body);
    BodyOff(w, k, body, st, catching);
    var o := ExecBody(w, k, body, st, catching);
    if (o.Normal? || o.Continued?) && o.st.budget > 0 {
      DecideOff(w, cond, o.st.vars);
      EvalOff(w, cond, o.st.vars);
      DoOff(w, cond, body, Spend(o.st), catching);
    }
  }

  lemma {:induction false} ForOff(
      w: World, test: Option<Expr>, inc: Option<Step>, body: seq<Stmt>, st: State, catching: bool)
    ensures Follows(ExecFor(w, test, inc, body, st, catching), ExecFor(Off(w), test, inc, body, st, catching))
    decreases st.budget, SizeB(body), 4
  {
    hide ExecB, Decide, ExecInc, CountedFor;
    if test.Some? {
      DecideOff(w, test.value, st.vars);
    }
    BlockOff(w, body, st, catching);
    var o := ExecB(w, body, st, catching);
    if o.Normal? || o.Continued? {
      var k := CountedFor(test, inc);
      IncOff(w, k, inc, o.st);
      var i := ExecInc(w, k, inc, o.st);
      if i.Normal? && i.st.budget > 0 {
        ForOff(w, test, inc, body, Spend(i.st), catching);
      }
    }
  }

  lemma {:induction false} SwitchOff(w: World, on: Expr, cases: seq<Case>, def: OptBlock, st: State, catching: bool)
    ensures Follows(ExecSwitch(w, on, cases, def, st, catching), ExecSwitch(Off(w), on, cases, def, st, catching))
    decreases st.budget, SizeCases(cases) + SizeOpt(def), 3
  {
    hide ExecB, Eval, Choose;
    EvalOff(w, on, st.vars);
    var v := Eval(w, on, st.vars);
    if v.Val? {
      ChooseOff(w, v.v, cases, st.vars);
      var ch := Choose(w, v.v, cases, st.vars);
      if ch.Chosen? {
        SizeCasesSuffix(cases, ch.i);
        BlockOff(w, FallThrough(cases[ch.i..], def), st, catching);
      } else {
        BlockOff(w, BodyOf(def), st, catching);
      }
    }
  }

  lemma {:induction false} CatchOff(w: World, cs: seq<Catch>, hasFinally: bool, x: Value, st: State)
    ensures Follows(ExecCatch(w, cs, hasFinally, x, st), ExecCatch(Off(w), cs, hasFinally, x, st))
    decreases st.budget, SizeCatches(cs), 0
  {
    hide ExecB;
    if cs != [] {
      BlockOff(w, cs[0].body, st.(vars := st.vars[Fold(cs[0].name) := x]), true);
      CatchOff(w, cs[1..], hasFinally, x, st);
    }
  }

  lemma {:induction false} TryOff(
      w: World, body: seq<Stmt>, catches: seq<Catch>, fin: OptBlock, st: State, catching: bool)
    ensures Follows(ExecTry(w, body, catches, fin, st, catching), ExecTry(Off(w), body, catches, fin, st, catching))
    decreases st.budget, SizeB(body) + SizeCatches(catches) + SizeOpt(fin), 3
  {
    hide ExecB, ExecCatch;
    BlockOff(w, body, Inside(st), catching);
    var o := ExecB(w, body, Inside(st), catching);
    if o.Thrown? && catching {
      var st1 := o.st.(held := st.held);
      CatchOff(w, catches, fin.Block?, o.x, st1);
      o := ExecCatch(w, catches, fin.Block?, o.x, st1);
    } else {
      o := Completed(o);
    }
    if o.Ended() && fin.Block? {
      BlockOff(w, fin.ss, Pending(o), catching);
    }
  }

  lemma {:induction false} StmtOff(w: World, s: Stmt, st: State, catching: bool)
    ensures Follows(Exec(w, s, st, catching), Exec(Off(w), s, st, catching))
    decreases st.budget, SizeS(s), 1
  {
    hide ExecB, ExecArms, ExecWhile, ExecDo, ExecFor, ExecSwitch, ExecTry, ExecStep, ExecAssign, ExecSet, Eval, Decide;
    match s {
      case Do1(step) => StepOff(w, step, st);
      case Assign(x, aop, e) => AssignOff(w, x, aop, e, st);
      case VarDecl(x, Some(e)) => SetOff(w, x, e, st);
      case If(cond, thn, elifs, els) =>
        DecideOff(w, cond, st.vars);
        BlockOff(w, thn, st, catching);
        ArmsOff(w, elifs, els, st, catching);
      case While(cond, body) => WhileOff(w, cond, body, st, catching);
      case DoWhile(body, cond) => DoOff(w, cond, body, st, catching);
      case For(start, test, inc, body) =>
        if start.Some? {
          StmtOff(w, InitStmt(start.value), st, catching);
        }
        var o := if start.None? then Normal(st) else Exec(w, InitStmt(start.value), st, catching);
        if o.Normal? {
          ForOff(w, test, inc, body, o.st, catching);
        }
      case Switch(on, cases, def) => SwitchOff(w, on, cases, def, st, catching);
      case Return(Some(e)) => EvalOff(w, e, st.vars);
      case Throw(Some(e)) => EvalOff(w, e, st.vars);
      case Try(body, catches, fin) => TryOff(w, body, catches, fin, st, catching);
      case _ =>
    }
  }

  /** Unless it stops, a watched run of a function is the unwatched run. */
  lemma {:induction false} WatchedIsPlain(w: World, body: seq<Stmt>, vars: Vars, budget: nat, catching: bool)
    requires !RunFunction(w, body, vars, budget, catching).NoClaim?
    ensures RunFunction(Off(w), body, vars, budget, catching) == RunFunction(w, body, vars, budget, catching)
  {
    hide ExecB;
    BlockOff(w, body, State(vars, [], budget), catching);
  }
}
