/**
 The compiler theorem: the emitted code of a block follows the interpreter
 through loops, switches, jumps, returns, `finally` bodies and exceptions.
 */
module StmtCorrect {
  import opened Names
  import opened Ast
  import opened Shapes
  import opened Values
  import opened Semantics
  import opened Machine
  import opened Codegen
  import opened ExprCorrect
  import opened Fusion
  import opened Steps
  import opened Simulation
  import opened StmtSimple
  import opened Placement
  import opened SwitchCorrect

  // ---- Composition with a context ----

  lemma {:induction false} ChainLands(k: Ctx, f0: Frame, b0: nat, st1: State, pc: nat, n1: nat, c1: Config,
                   o: Outcome, end: nat, n2: nat, c2: Config)
    requires RunN(k.w, k.code, n1, Run(f0)) == c1 && Lands(k, f0, b0, st1, pc, n1, c1)
    requires RunN(k.w, k.code, n2, c1) == c2 && Ends(k, c1.f, st1.budget, o, end, n2, c2)
    ensures RunN(k.w, k.code, n1 + n2, Run(f0)) == c2
    ensures Ends(k, f0, b0, o, end, n1 + n2, c2)
  {
    hide RunN, Ends, Kept, Match;
    Chain(k, f0, b0, c1.f, st1.budget, n1, o, end, n2, c2);
  }

  /** Only a normal ending mentions the end position. */
  lemma {:induction false} EndsElsewhere(k: Ctx, f0: Frame, b0: nat, o: Outcome, end: nat, end': nat, n: nat, c: Config)
    requires Ends(k, f0, b0, o, end, n, c) && !o.Normal?
    ensures Ends(k, f0, b0, o, end', n, c)
  {
    hide Jumps, Raises, Returns, Unwind;
  }

  lemma {:induction false} LandsReady(k: Ctx, f0: Frame, b0: nat, f: Frame, st: State, st1: State, pc: nat, n: nat, c: Config)
    requires Ready(k, f, st) && Lands(k, f0, b0, st1, pc, n, c)
    ensures c.Run? && c.f.pc == pc && Ready(k, c.f, st1)
  {
    hide Lawful, OkFins, UserVars;
  }

  /** Jumping after landing. */
  lemma {:induction false} LandsThenJump(k: Ctx, f0: Frame, b0: nat, st1: State, pc: nat, n: nat, c: Config, t: nat)
    requires RunN(k.w, k.code, n, Run(f0)) == c && Lands(k, f0, b0, st1, pc, n, c)
    requires At(k.code, pc, [Jump(t)])
    ensures RunN(k.w, k.code, n + 1, Run(f0)) == Run(c.f.(pc := t))
    ensures Lands(k, f0, b0, st1, t, n + 1, Run(c.f.(pc := t)))
  {
    hide RunN, At, Match, Kept;
    AtOne(k.code, pc, [Jump(t)], 0);
    StepJump(k.w, k.code, c.f, t);
    RunAdd(k.w, k.code, n, 1, Run(f0));
    LandsNext(k, f0, b0, st1, pc, n, c, c.f.(pc := t));
  }

  lemma {:induction false} NoneAbove(fins: seq<seq<Stmt>>, w: World, st: State, catching: bool)
    ensures Unwind(w, FinsAbove(fins, |fins|), st, catching) == Normal(st)
  {
  }

  /** A loop body's endings, seen from outside the loop. */
  lemma {:induction false} LeaveLoop(k: Ctx, brk: nat, cont: nat, f: Frame, b: nat, o: Outcome, end: nat, end': nat, n: nat, c: Config)
    requires Ends(LoopCtx(k, brk, cont), f, b, o, end, n, c)
    ensures o.Normal? ==> Lands(k, f, b, o.st, end, n, c)
    ensures o.Broke? ==> Lands(k, f, b, o.st, brk, n, c)
    ensures o.Continued? ==> Lands(k, f, b, o.st, cont, n, c)
    ensures !o.Normal? && !o.Broke? && !o.Continued? ==> Ends(k, f, b, o, end', n, c)
  {
    hide Match, Raises, Returns, Unwind, FinsAbove;
    if o.Broke? || o.Continued? {
      NoneAbove(k.env.fins, k.w, o.st, k.catching);
    } else if o.Thrown? {
      SameRaises(k, LoopCtx(k, brk, cont), f, b, o.st, o.x, n, c);
    }
  }

  /** A condition that did not decide, as an ending. */
  lemma {:induction false} CondEnds(k: Ctx, f: Frame, st: State, t: Truth, len: nat, target: nat, end: nat, n: nat, c: Config)
    requires Ready(k, f, st) && Decided(t, f, len, target, c)
    ensures t.Bad? ==> Ends(k, f, st.budget, Thrown(st, t.x), end, n, c)
    ensures t.No? ==> c == Run(f.(pc := target)) && Lands(k, f, st.budget, st, target, n, c)
    ensures t.Yes? ==> c == Run(f.(pc := f.pc + len)) && Lands(k, f, st.budget, st, f.pc + len, n, c)
  {
    hide RaisedIn, Raises, UserVars, Lawful, RetSlot;
    if t.Bad? {
      RaisedFromExpr(k, f, st, t.x, n, c);
    }
  }

  lemma {:induction false} EndsNormal(k: Ctx, f: Frame, b: nat, st: State, end: nat, n: nat, c: Config)
    ensures Ends(k, f, b, Normal(st), end, n, c) <==> Lands(k, f, b, st, end, n, c)
  {
  }

  lemma {:induction false} EndsTimeout(k: Ctx, f: Frame, b: nat, end: nat, n: nat, c: Config)
    ensures Ends(k, f, b, Timeout, end, n, c) <==> c.Run? && n >= b
  {
  }

  lemma {:induction false} EndsThrown(k: Ctx, f: Frame, b: nat, st: State, x: Value, end: nat, n: nat, c: Config)
    ensures Ends(k, f, b, Thrown(st, x), end, n, c) <==> (k.catching ==> Raises(k, f, b, st, x, n, c))
  {
  }

  // ---- Blocks and statements ----

  lemma {:induction false} RunB(k: Ctx, ss: seq<Stmt>, f: Frame, st: State) returns (n: nat, c: Config)
    requires Ready(k, f, st) && OkB(ss, k.catching) && Aims(k.env, HasBreak(ss), HasContinue(ss))
    requires AtCode(k, f.pc, CodeB(ss, f.pc, k.env))
    ensures RunN(k.w, k.code, n, Run(f)) == c
    ensures Ends(k, f, st.budget, ExecB(k.w, ss, st, k.catching), f.pc + |CodeB(ss, f.pc, k.env)|, n, c)
    decreases st.budget, SizeB(ss) + SizeFins(k.env.fins), 3
  {
    hide RunN, AtCode, Ends, CodeB, ExecB, OkB, SizeB, SizeFins, Ready, HasBreak, HasContinue, Aims;
    if ss == [] {
      n, c := RunEmpty(k, f, st);
    } else {
      n, c := RunBCons(k, ss, f, st);
    }
  }

  lemma {:induction false} RunEmpty(k: Ctx, f: Frame, st: State) returns (n: nat, c: Config)
    requires Ready(k, f, st)
    ensures RunN(k.w, k.code, n, Run(f)) == c
    ensures Ends(k, f, st.budget, ExecB(k.w, [], st, k.catching), f.pc + |CodeB([], f.pc, k.env)|, n, c)
  {
    hide Match;
    SameKept(k, f, f);
    n, c := 0, Run(f);
  }

  lemma {:induction false} UnfoldB(w: World, ss: seq<Stmt>, st: State, catching: bool)
    requires ss != []
    ensures SizeB(ss) == SizeS(ss[0]) + SizeB(ss[1..])
    ensures OkB(ss, catching) == (OkS(ss[0], catching) && OkB(ss[1..], catching))
    ensures HasBreak(ss) == (StmtHasBreak(ss[0]) || HasBreak(ss[1..]))
    ensures HasContinue(ss) == (StmtHasContinue(ss[0]) || HasContinue(ss[1..]))
    ensures ExecB(w, ss, st, catching) ==
            (var o := Exec(w, ss[0], st, catching);
             if o.Normal? then ExecB(w, ss[1..], o.st, catching) else o)
    ensures Within(Exec(w, ss[0], st, catching), st)
  {
    hide Exec, SizeS, OkS, StmtHasBreak, StmtHasContinue;
  }

  lemma {:induction false} RunBCons(k: Ctx, ss: seq<Stmt>, f: Frame, st: State) returns (n: nat, c: Config)
    requires Ready(k, f, st) && OkB(ss, k.catching) && Aims(k.env, HasBreak(ss), HasContinue(ss))
    requires ss != [] && AtCode(k, f.pc, CodeB(ss, f.pc, k.env))
    ensures RunN(k.w, k.code, n, Run(f)) == c
    ensures Ends(k, f, st.budget, ExecB(k.w, ss, st, k.catching), f.pc + |CodeB(ss, f.pc, k.env)|, n, c)
    decreases st.budget, SizeB(ss) + SizeFins(k.env.fins), 2
  {
    hide RunN, AtCode, Ready, Ends, Lands, CodeB, CodeS, Exec, ExecB, SizeB, SizeS, SizeFins, OkS, OkB,
      HasBreak, HasContinue, StmtHasBreak, StmtHasContinue;
    UnfoldB(k.w, ss, st, k.catching);
    PlaceB(k, ss, f.pc);
    var end := f.pc + |CodeB(ss, f.pc, k.env)|;
    var mid := f.pc + |CodeS(ss[0], f.pc, k.env)|;
    n, c := RunS(k, ss[0], f, st);
    var o := Exec(k.w, ss[0], st, k.catching);
    if o.Normal? {
      EndsNormal(k, f, st.budget, o.st, mid, n, c);
      LandsReady(k, f, st.budget, f, st, o.st, mid, n, c);
      var m, d := RunB(k, ss[1..], c.f, o.st);
      ChainLands(k, f, st.budget, o.st, mid, n, c, ExecB(k.w, ss[1..], o.st, k.catching), end, m, d);
      n, c := n + m, d;
    } else {
      EndsElsewhere(k, f, st.budget, o, mid, end, n, c);
    }
  }

  lemma {:induction false} RunS(k: Ctx, s: Stmt, f: Frame, st: State) returns (n: nat, c: Config)
    requires Ready(k, f, st) && OkS(s, k.catching) && Aims(k.env, StmtHasBreak(s), StmtHasContinue(s))
    requires AtCode(k, f.pc, CodeS(s, f.pc, k.env))
    ensures RunN(k.w, k.code, n, Run(f)) == c
    ensures Ends(k, f, st.budget, Exec(k.w, s, st, k.catching), f.pc + |CodeS(s, f.pc, k.env)|, n, c)
    decreases st.budget, SizeS(s) + SizeFins(k.env.fins), 1
  {
    hide RunN, At, AtCode, Ends, CodeBody, CodeS, Exec, SizeS, SizeFins, OkS, Lawful, OkFins, UserVars;
    PlaceS(k, s, f.pc);
    AtOne(k.code, f.pc, [LineInfo], 0);
    var g := Next(f).f;
    n, c := RunBody(k, s, g, st);
    SkipFirst(k, LineInfo, f, st, Exec(k.w, s, st, k.catching), f.pc + |CodeS(s, f.pc, k.env)|, n, c);
    n := 1 + n;
  }

  lemma {:induction false} RunBody(k: Ctx, s: Stmt, f: Frame, st: State) returns (n: nat, c: Config)
    requires Ready(k, f, st) && OkS(s, k.catching) && Aims(k.env, StmtHasBreak(s), StmtHasContinue(s))
    requires AtCode(k, f.pc, CodeBody(s, f.pc, k.env))
    ensures RunN(k.w, k.code, n, Run(f)) == c
    ensures Ends(k, f, st.budget, Exec(k.w, s, st, k.catching), f.pc + |CodeBody(s, f.pc, k.env)|, n, c)
    decreases st.budget, SizeS(s) + SizeFins(k.env.fins), 0
  {
    hide RunN, AtCode, Ends, CodeBody, Exec, OkS, SizeFins, SizeB, Ready, Aims, StmtHasBreak, StmtHasContinue;
    if s.If? {
      n, c := RunIf(k, s, f, st);
    } else if s.While? {
      n, c := RunWhile(k, s, f, st);
    } else if s.DoWhile? {
      n, c := RunDo(k, s, f, st);
    } else if s.For? {
      n, c := RunFor(k, s, f, st);
    } else if s.Switch? {
      n, c := RunSwitch(k, s, f, st);
    } else if s.Try? {
      n, c := RunTry(k, s, f, st);
    } else if s.Break? {
      n, c := RunBreak(k, f, st);
    } else if s.Continue? {
      n, c := RunContinue(k, f, st);
    } else if s.Return? {
      n, c := RunReturn(k, s.ret, f, st);
    } else {
      n, c := RunPlain(k, s, f, st);
    }
  }

  /** Statements without parts. */
  lemma {:induction false} RunPlain(k: Ctx, s: Stmt, f: Frame, st: State) returns (n: nat, c: Config)
    requires Ready(k, f, st) && OkS(s, k.catching)
    requires s.Text? || s.Do1? || s.Assign? || s.VarDecl? || s.Throw?
    requires AtCode(k, f.pc, CodeBody(s, f.pc, k.env))
    ensures RunN(k.w, k.code, n, Run(f)) == c
    ensures Ends(k, f, st.budget, Exec(k.w, s, st, k.catching), f.pc + |CodeBody(s, f.pc, k.env)|, n, c)
  {
    hide RunN, At, AtCode, Ends, CodeE, Eval, CodeStore, CodeStep, CodeAssign, ExecStep, ExecAssign, ExecSet, Fold, UserVars;
    match s {
      case Text(text) =>
        AtFix(k, f.pc, [WriteText(text)]);
        n, c := RunText(k, text, f, st);
      case Do1(step) =>
        AtFix(k, f.pc, CodeStep(step, f.pc));
        n, c := RunStepCode(k, step, f, st);
      case Assign(x, aop, e) =>
        AtFix(k, f.pc, CodeAssign(x, aop, e, f.pc));
        n, c := RunAssign(k, x, aop, e, f, st);
      case VarDecl(x, None) =>
        AtFix(k, f.pc, [Declare(x), Const(Null), StoreVar(x)]);
        n, c := RunVarNull(k, x, f, st);
      case VarDecl(x, Some(e)) =>
        AtFix(k, f.pc, [Declare(x)] + CodeStore(x, e, f.pc + 1));
        n, c := RunVarSet(k, x, e, f, st);
      case Throw(None) =>
        AtFix(k, f.pc, [Const(DEFAULT_MESSAGE), ThrowOp]);
        UnfoldLit(k.w, DEFAULT_MESSAGE, f.pc, st.vars);
        assert CodeE(Lit(DEFAULT_MESSAGE), f.pc) + [ThrowOp] == [Const(DEFAULT_MESSAGE), ThrowOp];
        n, c := RunThrow(k, Lit(DEFAULT_MESSAGE), f, st);
      case Throw(Some(e)) =>
        AtFix(k, f.pc, CodeE(e, f.pc) + [ThrowOp]);
        n, c := RunThrow(k, e, f, st);
    }
  }

  // ---- if ----

  /** An arm: its body if the condition holds, otherwise straight to the next arm. */
  ghost predicate ArmRun(k: Ctx, cond: Expr, body: seq<Stmt>, f: Frame, st: State, next: nat, end: nat,
                         n: nat, c: Config)
  {
    match Decide(k.w, cond, st.vars)
    case Yes => Ends(k, f, st.budget, ExecB(k.w, body, st, k.catching), end, n, c)
    case No => c == Run(f.(pc := next)) && Lands(k, f, st.budget, st, next, n, c)
    case Bad(x) => Ends(k, f, st.budget, Thrown(st, x), end, n, c)
    case Unknown => true
  }

  lemma {:induction false} RunThen(k: Ctx, cond: Expr, body: seq<Stmt>, next: nat, f: Frame, st: State)
    returns (n: nat, c: Config)
    requires Ready(k, f, st) && CondOk(cond) && OkB(body, k.catching) && Aims(k.env, HasBreak(body), HasContinue(body))
    requires At(k.code, f.pc, CodeCond(cond, f.pc, next))
    requires AtCode(k, f.pc + CondLen(cond, f.pc), CodeB(body, f.pc + CondLen(cond, f.pc), k.env))
    ensures RunN(k.w, k.code, n, Run(f)) == c
    ensures ArmRun(k, cond, body, f, st, next,
                   f.pc + CondLen(cond, f.pc) + |CodeB(body, f.pc + CondLen(cond, f.pc), k.env)|, n, c)
    decreases st.budget, SizeB(body) + SizeFins(k.env.fins), 4
  {
    hide RunN, At, AtCode, Ends, Lands, CodeB, CodeCond, CondLen, ExecB, Test, Decide, OkB, SizeB, SizeFins,
      Lawful, OkFins, UserVars, Decided, HasBreak, HasContinue, CondOk;
    var len := CondLen(cond, f.pc);
    var end := f.pc + len + |CodeB(body, f.pc + len, k.env)|;
    var t := Decide(k.w, cond, st.vars);
    n, c := RunCond(k, cond, f, st, next);
    CondEnds(k, f, st, t, len, next, end, n, c);
    if t.Yes? {
      LandsReady(k, f, st.budget, f, st, st, f.pc + len, n, c);
      var m, d := RunB(k, body, c.f, st);
      ChainLands(k, f, st.budget, st, f.pc + len, n, c, ExecB(k.w, body, st, k.catching), end, m, d);
      n, c := n + m, d;
    }
  }

  lemma {:induction false} RunArm(k: Ctx, cond: Expr, body: seq<Stmt>, rest: seq<Emit>, f: Frame, st: State)
    returns (n: nat, c: Config)
    requires Ready(k, f, st) && CondOk(cond) && OkB(body, k.catching) && Aims(k.env, HasBreak(body), HasContinue(body))
    requires var n := CondLen(cond, f.pc);
             var a := CodeB(body, f.pc + n, k.env);
             var next := f.pc + n + |a| + 1;
             AtCode(k, f.pc, Fix(CodeCond(cond, f.pc, next)) + a + Fix([Jump(next + |rest|)]) + rest)
    ensures RunN(k.w, k.code, n, Run(f)) == c
    ensures var n0 := CondLen(cond, f.pc);
            var next := f.pc + n0 + |CodeB(body, f.pc + n0, k.env)| + 1;
            ArmRun(k, cond, body, f, st, next, next + |rest|, n, c) && AtCode(k, next, rest)
    decreases st.budget, SizeB(body) + SizeFins(k.env.fins), 5
  {
    hide RunN, At, AtCode, Ends, Lands, CodeB, CodeCond, CondLen, ExecB, Test, Decide, OkB, SizeB, SizeFins,
      Ready, Decided, HasBreak, HasContinue, CondOk;
    PlaceArm(k, cond, body, rest, f.pc);
    var n0 := CondLen(cond, f.pc);
    var mid := f.pc + n0 + |CodeB(body, f.pc + n0, k.env)|;
    var end := mid + 1 + |rest|;
    n, c := RunThen(k, cond, body, mid + 1, f, st);
    var t := Decide(k.w, cond, st.vars);
    if t.Yes? {
      var o := ExecB(k.w, body, st, k.catching);
      if o.Normal? {
        EndsNormal(k, f, st.budget, o.st, mid, n, c);
        LandsThenJump(k, f, st.budget, o.st, mid, n, c, end);
        LandsRuns(k, f, st.budget, o.st, mid, n, c);
        n, c := n + 1, Run(c.f.(pc := end));
        EndsNormal(k, f, st.budget, o.st, end, n, c);
      } else {
        EndsElsewhere(k, f, st.budget, o, mid, end, n, c);
      }
    } else if t.Bad? {
      EndsElsewhere(k, f, st.budget, Thrown(st, t.x), mid, end, n, c);
    }
  }

  lemma {:induction false} RunArms(k: Ctx, arms: seq<Arm>, els: OptBlock, f: Frame, st: State)
    returns (n: nat, c: Config)
    requires Ready(k, f, st) && OkArms(arms, k.catching) && OkOpt(els, k.catching)
    requires Aims(k.env, ArmsHaveBreak(arms) || OptHasBreak(els), ArmsHaveContinue(arms) || OptHasContinue(els))
    requires AtCode(k, f.pc, CodeArms(arms, els, f.pc, k.env))
    ensures RunN(k.w, k.code, n, Run(f)) == c
    ensures Ends(k, f, st.budget, ExecArms(k.w, arms, els, st, k.catching), f.pc + |CodeArms(arms, els, f.pc, k.env)|, n, c)
    decreases st.budget, SizeArms(arms) + SizeOpt(els) + SizeFins(k.env.fins), 6
  {
    hide RunN, AtCode, Ends, CodeB, CodeArms, ExecB, ExecArms, OkB, OkArms, OkOpt, SizeB, SizeArms, SizeOpt, SizeFins,
      Ready, HasBreak, HasContinue, ArmsHaveBreak, ArmsHaveContinue, OptHasBreak, OptHasContinue;
    if arms == [] {
      UnfoldNoArms(k, els, f.pc, st);
      n, c := RunB(k, BodyOf(els), f, st);
    } else {
      n, c := RunArmsCons(k, arms, els, f, st);
    }
  }

  lemma {:induction false} UnfoldNoArms(k: Ctx, els: OptBlock, at: nat, st: State)
    ensures CodeArms([], els, at, k.env) == CodeB(BodyOf(els), at, k.env)
    ensures ExecArms(k.w, [], els, st, k.catching) == ExecB(k.w, BodyOf(els), st, k.catching)
    ensures SizeB(BodyOf(els)) <= SizeOpt(els) && SizeArms([]) == 0
    ensures OkOpt(els, k.catching) ==> OkB(BodyOf(els), k.catching)
    ensures HasBreak(BodyOf(els)) == OptHasBreak(els) && HasContinue(BodyOf(els)) == OptHasContinue(els)
  {
    hide CodeB, ExecB;
  }

  lemma {:induction false} UnfoldArms(k: Ctx, arms: seq<Arm>, els: OptBlock, at: nat, st: State)
    requires arms != []
    ensures var n := CondLen(arms[0].cond, at);
            var a := CodeB(arms[0].body, at + n, k.env);
            var next := at + n + |a| + 1;
            var rest := CodeArms(arms[1..], els, next, k.env);
            CodeArms(arms, els, at, k.env)
            == Fix(CodeCond(arms[0].cond, at, next)) + a + Fix([Jump(next + |rest|)]) + rest
    ensures ExecArms(k.w, arms, els, st, k.catching) ==
            (match Decide(k.w, arms[0].cond, st.vars)
             case Yes => ExecB(k.w, arms[0].body, st, k.catching)
             case No => ExecArms(k.w, arms[1..], els, st, k.catching)
             case Bad(x) => Thrown(st, x)
             case Unknown => Stuck)
    ensures SizeArms(arms) == 1 + SizeB(arms[0].body) + SizeArms(arms[1..])
    ensures OkArms(arms, k.catching) ==
            (CondOk(arms[0].cond) && OkB(arms[0].body, k.catching) && OkArms(arms[1..], k.catching))
    ensures ArmsHaveBreak(arms) == (HasBreak(arms[0].body) || ArmsHaveBreak(arms[1..]))
    ensures ArmsHaveContinue(arms) == (HasContinue(arms[0].body) || ArmsHaveContinue(arms[1..]))
  {
    hide CodeB, CodeCond, CondLen, ExecB, Test, Decide, OkB, SizeB, HasBreak, HasContinue, CondOk;
  }

  lemma {:induction false} RunArmsCons(k: Ctx, arms: seq<Arm>, els: OptBlock, f: Frame, st: State)
    returns (n: nat, c: Config)
    requires Ready(k, f, st) && OkArms(arms, k.catching) && OkOpt(els, k.catching)
    requires Aims(k.env, ArmsHaveBreak(arms) || OptHasBreak(els), ArmsHaveContinue(arms) || OptHasContinue(els))
    requires arms != [] && AtCode(k, f.pc, CodeArms(arms, els, f.pc, k.env))
    ensures RunN(k.w, k.code, n, Run(f)) == c
    ensures Ends(k, f, st.budget, ExecArms(k.w, arms, els, st, k.catching), f.pc + |CodeArms(arms, els, f.pc, k.env)|, n, c)
    decreases st.budget, SizeArms(arms) + SizeOpt(els) + SizeFins(k.env.fins), 5
  {
    hide RunN, At, AtCode, Ends, Lands, CodeB, CodeCond, CondLen, CodeArms, ExecB, ExecArms, Test, Decide, OkB, OkArms, OkOpt,
      SizeB, SizeArms, SizeOpt, SizeFins, Ready, HasBreak, HasContinue, ArmsHaveBreak, ArmsHaveContinue,
      OptHasBreak, OptHasContinue, CondOk;
    UnfoldArms(k, arms, els, f.pc, st);
    var n0 := CondLen(arms[0].cond, f.pc);
    var next := f.pc + n0 + |CodeB(arms[0].body, f.pc + n0, k.env)| + 1;
    var rest := CodeArms(arms[1..], els, next, k.env);
    n, c := RunArm(k, arms[0].cond, arms[0].body, rest, f, st);
    if Decide(k.w, arms[0].cond, st.vars).No? {
      n, c := NextArm(k, arms[1..], els, f, st, next, n, c);
    }
    if Decide(k.w, arms[0].cond, st.vars).Unknown? {
      EndsStuck(k, f, st.budget, f.pc + |CodeArms(arms, els, f.pc, k.env)|, n, c);
    }
  }

  /** Going on with the remaining arms after a condition that failed. */
  lemma {:induction false} NextArm(k: Ctx, arms: seq<Arm>, els: OptBlock, f: Frame, st: State, next: nat, n0: nat, c0: Config)
    returns (n: nat, c: Config)
    requires Ready(k, f, st) && OkArms(arms, k.catching) && OkOpt(els, k.catching)
    requires Aims(k.env, ArmsHaveBreak(arms) || OptHasBreak(els), ArmsHaveContinue(arms) || OptHasContinue(els))
    requires AtCode(k, next, CodeArms(arms, els, next, k.env))
    requires RunN(k.w, k.code, n0, Run(f)) == c0 == Run(f.(pc := next)) && Lands(k, f, st.budget, st, next, n0, c0)
    ensures RunN(k.w, k.code, n, Run(f)) == c
    ensures Ends(k, f, st.budget, ExecArms(k.w, arms, els, st, k.catching), next + |CodeArms(arms, els, next, k.env)|, n, c)
    decreases st.budget, SizeArms(arms) + SizeOpt(els) + SizeFins(k.env.fins), 7
  {
    hide RunN, At, AtCode, Ends, Lands, CodeArms, ExecArms, OkArms, OkOpt, SizeArms, SizeOpt, SizeFins, Ready,
      ArmsHaveBreak, ArmsHaveContinue, OptHasBreak, OptHasContinue;
    LandsReady(k, f, st.budget, f, st, st, next, n0, c0);
    var m, d := RunArms(k, arms, els, c0.f, st);
    ChainLands(k, f, st.budget, st, next, n0, c0, ExecArms(k.w, arms, els, st, k.catching),
               next + |CodeArms(arms, els, next, k.env)|, m, d);
    n, c := n0 + m, d;
  }

  lemma {:induction false} UnfoldIf(k: Ctx, s: Stmt, at: nat, st: State)
    requires s.If?
    ensures CodeBody(s, at, k.env) == CodeIf(s.cond, s.thn, s.elifs, s.els, at, k.env)
    ensures Exec(k.w, s, st, k.catching) ==
            (match Decide(k.w, s.cond, st.vars)
             case Yes => ExecB(k.w, s.thn, st, k.catching)
             case No => ExecArms(k.w, s.elifs, s.els, st, k.catching)
             case Bad(x) => Thrown(st, x)
             case Unknown => Stuck)
    ensures SizeS(s) == 1 + SizeB(s.thn) + SizeArms(s.elifs) + SizeOpt(s.els)
    ensures OkS(s, k.catching) ==
            (CondOk(s.cond) && OkB(s.thn, k.catching) && OkArms(s.elifs, k.catching) && OkOpt(s.els, k.catching))
    ensures StmtHasBreak(s) == (HasBreak(s.thn) || ArmsHaveBreak(s.elifs) || OptHasBreak(s.els))
    ensures StmtHasContinue(s) == (HasContinue(s.thn) || ArmsHaveContinue(s.elifs) || OptHasContinue(s.els))
  {
    hide CodeIf, ExecB, ExecArms, Test, Decide, OkB, OkArms, OkOpt, SizeB, SizeArms, SizeOpt, HasBreak, HasContinue,
      ArmsHaveBreak, ArmsHaveContinue, OptHasBreak, OptHasContinue, CondOk;
  }

  lemma {:induction false} RunIf(k: Ctx, s: Stmt, f: Frame, st: State) returns (n: nat, c: Config)
    requires Ready(k, f, st) && OkS(s, k.catching) && Aims(k.env, StmtHasBreak(s), StmtHasContinue(s))
    requires s.If? && AtCode(k, f.pc, CodeBody(s, f.pc, k.env))
    ensures RunN(k.w, k.code, n, Run(f)) == c
    ensures Ends(k, f, st.budget, Exec(k.w, s, st, k.catching), f.pc + |CodeBody(s, f.pc, k.env)|, n, c)
    decreases st.budget, SizeS(s) - 1 + SizeFins(k.env.fins), 8
  {
    hide RunN, At, AtCode, Ends, Lands, CodeBody, CodeB, CodeCond, CondLen, CodeArms, Exec, ExecB, ExecArms, Test, Decide,
      OkS, OkB, OkArms, OkOpt, SizeS, SizeB, SizeArms, SizeOpt, SizeFins, Ready, HasBreak, HasContinue, ArmsHaveBreak,
      ArmsHaveContinue, OptHasBreak, OptHasContinue, StmtHasBreak, StmtHasContinue, CondOk;
    UnfoldIf(k, s, f.pc, st);
    var n0 := CondLen(s.cond, f.pc);
    var a := CodeB(s.thn, f.pc + n0, k.env);
    var end := f.pc + |CodeBody(s, f.pc, k.env)|;
    if s.elifs == [] && s.els.Absent? {
      PlaceThen(k, s.cond, s.thn, f.pc);
      n, c := RunThen(k, s.cond, s.thn, f.pc + n0 + |a|, f, st);
      NoArms(k, s.els, st);
      EndsNormal(k, f, st.budget, st, end, n, c);
    } else {
      var next := f.pc + n0 + |a| + 1;
      var rest := CodeArms(s.elifs, s.els, next, k.env);
      n, c := RunArm(k, s.cond, s.thn, rest, f, st);
      if Decide(k.w, s.cond, st.vars).No? {
        n, c := NextArm(k, s.elifs, s.els, f, st, next, n, c);
      }
    }
    EndsStuck(k, f, st.budget, end, n, c);
  }

  lemma {:induction false} NoArms(k: Ctx, els: OptBlock, st: State)
    requires els.Absent?
    ensures ExecArms(k.w, [], els, st, k.catching) == Normal(st)
  {
  }

  // ---- while ----

  lemma {:induction false} UnfoldWhile(k: Ctx, s: Stmt, at: nat, st: State)
    requires s.While?
    ensures CodeBody(s, at, k.env) == CodeWhile(s.cond, s.body, at, k.env)
    ensures Exec(k.w, s, st, k.catching) == ExecWhile(k.w, s.cond, s.body, st, k.catching)
    ensures SizeS(s) == 1 + SizeB(s.body)
    ensures OkS(s, k.catching) ==
            (CondOk(s.cond) && OkB(s.body, k.catching) && CountedOk(CountedBody(s.cond, s.body)))
  {
    hide CodeWhile, ExecWhile, OkB, SizeB, CondOk, CountedBody;
  }

  lemma {:induction false} RunWhile(k: Ctx, s: Stmt, f: Frame, st: State) returns (n: nat, c: Config)
    requires Ready(k, f, st) && OkS(s, k.catching)
    requires s.While? && AtCode(k, f.pc, CodeBody(s, f.pc, k.env))
    ensures RunN(k.w, k.code, n, Run(f)) == c
    ensures Ends(k, f, st.budget, Exec(k.w, s, st, k.catching), f.pc + |CodeBody(s, f.pc, k.env)|, n, c)
    decreases st.budget, SizeS(s) - 1 + SizeFins(k.env.fins), 8
  {
    hide RunN, AtCode, Ends, CodeBody, CodeWhile, CodeCountedTop, Exec, ExecWhile, OkS, OkB, SizeS, SizeB, SizeFins,
      CountedBody, ExprOk, Entered, Lawful, OkFins, UserVars;
    UnfoldWhile(k, s, f.pc, st);
    var q := CountedBody(s.cond, s.body);
    if q.Some? {
      var front := s.body[..|s.body| - 1];
      WhileFusion(k.w, s.cond, s.body, st, k.catching);
      CountedParts(k, s.cond, s.body, f.pc);
      n, c := RunCountedTop(k, q.value, front, f, st);
      EndsStuck(k, f, st.budget, f.pc + |CodeBody(s, f.pc, k.env)|, n, c);
    } else {
      n, c := RunPlainWhile(k, s.cond, s.body, f, st);
    }
  }

  /** The body of a fused loop without its step is still covered. */
  lemma {:induction false} CountedParts(k: Ctx, cond: Expr, body: seq<Stmt>, at: nat)
    requires CountedBody(cond, body).Some? && OkB(body, k.catching) && ExprOk(cond)
    ensures var q := CountedBody(cond, body).value;
            var front := body[..|body| - 1];
            && OkB(front, k.catching) && SizeB(front) < SizeB(body) && UserName(q.name)
            && CodeWhile(cond, body, at, k.env) == CodeCountedTop(q, front, at, k.env)
            && CodeDo(cond, body, at, k.env) == CodeCounted(q, front, at, k.env)
  {
    hide CodeCounted, CodeCountedTop, HasContinue;
    var front := body[..|body| - 1];
    assert body == front + body[|body| - 1..];
    OkFront(front, body[|body| - 1..], k.catching);
    SizeFront(body);
    assert ExprOk(cond.l) && ExprOk(cond.r);
  }

  lemma {:induction false} OkFront(a: seq<Stmt>, b: seq<Stmt>, catching: bool)
    requires OkB(a + b, catching)
    ensures OkB(a, catching)
    decreases |a|
  {
    hide OkS;
    if a != [] {
      assert (a + b)[1..] == a[1..] + b;
      OkFront(a[1..], b, catching);
    }
  }

  /** The same position reached one unit of budget and at least one step later. */
  lemma {:induction false} SpentLands(k: Ctx, f: Frame, st: State, st1: State, f1: Frame, pc: nat, n0: nat, n: nat, c: Config)
    requires Lands(k, f1, st.budget, st1, pc, n, c) && st1.budget > 0
    requires n0 >= 1 && f1 == f.(pc := f1.pc)
    ensures Lands(k, f, st.budget, Spend(st1), pc, n0 + n, c)
  {
    hide UserVars, Kept;
    SameKept(k, f, f1);
    KeptTrans(k, f, f1, c.f);
  }

  lemma {:induction false} UnfoldExecWhile(w: World, cond: Expr, body: seq<Stmt>, st: State, catching: bool)
    requires CountedBody(cond, body).None?
    ensures ExecWhile(w, cond, body, st, catching) ==
            (match Decide(w, cond, st.vars)
             case No => Normal(st)
             case Bad(x) => Thrown(st, x)
             case Unknown => Stuck
             case Yes =>
               var o := ExecB(w, body, st, catching);
               if o.Normal? || o.Continued? then
                 if o.st.budget == 0 then Timeout else ExecWhile(w, cond, body, Spend(o.st), catching)
               else if o.Broke? then Normal(o.st)
               else o)
    ensures Within(ExecB(w, body, st, catching), st)
  {
    hide ExecB, Test, Decide;
  }

  lemma {:induction false} LoopAims(env: Env, hasBreak: bool, hasContinue: bool)
    ensures Aims(InLoop(env), hasBreak, hasContinue)
  {
  }

  lemma {:induction false} LoopReady(k: Ctx, f: Frame, st: State, brk: nat, cont: nat)
    ensures Ready(LoopCtx(k, brk, cont), f, st) == Ready(k, f, st)
  {
    hide Lawful, OkFins, Match;
  }

  lemma {:induction false} RunPlainWhile(k: Ctx, cond: Expr, body: seq<Stmt>, f: Frame, st: State)
    returns (n: nat, c: Config)
    requires Ready(k, f, st) && CondOk(cond) && OkB(body, k.catching) && CountedBody(cond, body).None?
    requires AtCode(k, f.pc, CodeWhile(cond, body, f.pc, k.env))
    ensures RunN(k.w, k.code, n, Run(f)) == c
    ensures Ends(k, f, st.budget, ExecWhile(k.w, cond, body, st, k.catching),
                 f.pc + |CodeWhile(cond, body, f.pc, k.env)|, n, c)
    decreases st.budget, SizeB(body) + SizeFins(k.env.fins), 7
  {
    hide RunN, At, AtCode, Ends, Lands, CodeWhile, CodeB, CodeCond, CondLen, ExecWhile, ExecB, Test, Decide, OkB, SizeB,
      SizeFins, CountedBody, CondOk, Ready, Decided, Aims, HasBreak, HasContinue;
    PlaceWhile(k, cond, body, f.pc);
    UnfoldExecWhile(k.w, cond, body, st, k.catching);
    var len := CondLen(cond, f.pc);
    var a := CodeB(body, f.pc + len, InLoop(k.env));
    var end := f.pc + len + |a| + 1;
    var t := Decide(k.w, cond, st.vars);
    n, c := RunCond(k, cond, f, st, end);
    CondEnds(k, f, st, t, len, end, end, n, c);
    if t.No? {
      EndsNormal(k, f, st.budget, st, end, n, c);
    } else if t.Unknown? {
      EndsStuck(k, f, st.budget, end, n, c);
    } else if t.Yes? {
      var f1 := c.f;
      LandsReady(k, f, st.budget, f, st, st, f.pc + len, n, c);
      LoopReady(k, f1, st, end, f.pc);
      LoopAims(k.env, HasBreak(body), HasContinue(body));
      var m, d := RunB(LoopCtx(k, end, f.pc), body, f1, st);
      RunAdd(k.w, k.code, n, m, Run(f));
      n, c := AfterBody(k, cond, body, f, st, n, f1, m, d);
    }
  }

  /** After one pass through a `while` body. */
  lemma {:induction false} AfterBody(
      k: Ctx, cond: Expr, body: seq<Stmt>, f: Frame, st: State, n0: nat, f1: Frame, m: nat, d: Config)
    returns (n: nat, c: Config)
    requires Ready(k, f, st) && CondOk(cond) && OkB(body, k.catching) && CountedBody(cond, body).None?
    requires AtCode(k, f.pc, CodeWhile(cond, body, f.pc, k.env))
    requires Decide(k.w, cond, st.vars).Yes? && n0 >= 1
    requires f1 == f.(pc := f.pc + CondLen(cond, f.pc))
    requires RunN(k.w, k.code, n0 + m, Run(f)) == d
    requires var end := f.pc + |CodeWhile(cond, body, f.pc, k.env)|;
             Ends(LoopCtx(k, end, f.pc), f1, st.budget, ExecB(k.w, body, st, k.catching), end - 1, m, d)
    ensures RunN(k.w, k.code, n, Run(f)) == c
    ensures Ends(k, f, st.budget, ExecWhile(k.w, cond, body, st, k.catching),
                 f.pc + |CodeWhile(cond, body, f.pc, k.env)|, n, c)
    decreases st.budget, SizeB(body) + SizeFins(k.env.fins), 6
  {
    hide RunN, At, AtCode, Ends, Lands, CodeWhile, CodeB, CodeCond, CondLen, ExecWhile, ExecB, Test, Decide, OkB, SizeB,
      SizeFins, CountedBody, CondOk, Ready;
    PlaceWhile(k, cond, body, f.pc);
    UnfoldExecWhile(k.w, cond, body, st, k.catching);
    var end := f.pc + |CodeWhile(cond, body, f.pc, k.env)|;
    var o := ExecB(k.w, body, st, k.catching);
    LeaveLoop(k, end, f.pc, f1, st.budget, o, end - 1, end, m, d);
    if o.Normal? || o.Continued? {
      var pc := if o.Normal? then end - 1 else f.pc;
      LandsRuns(k, f1, st.budget, o.st, pc, m, d);
      if o.st.budget == 0 {
        n, c := n0 + m, d;
        LandsCount(k, f1, st.budget, o.st, pc, m, d);
        EndsTimeout(k, f, st.budget, end, n, c);
      } else {
        SpentLands(k, f, st, o.st, f1, pc, n0, m, d);
        n, c := n0 + m, d;
        if o.Normal? {
          LandsThenJump(k, f, st.budget, Spend(o.st), pc, n, c, f.pc);
          n, c := n + 1, Run(c.f.(pc := f.pc));
        }
        LandsReady(k, f, st.budget, f, st, Spend(o.st), f.pc, n, c);
        var m2, d2 := RunPlainWhile(k, cond, body, c.f, Spend(o.st));
        ChainLands(k, f, st.budget, Spend(o.st), f.pc, n, c,
                   ExecWhile(k.w, cond, body, Spend(o.st), k.catching), end, m2, d2);
        n, c := n + m2, d2;
      }
    } else {
      SameKept(k, f, f1);
      n, c := n0 + m, d;
      if o.Broke? {
        LandsAfter(k, f, st.budget, f1, st.budget, n0, o.st, end, m, d);
        EndsNormal(k, f, st.budget, o.st, end, n, c);
      } else {
        EndsAfter(k, f, st.budget, f1, st.budget, n0, o, end, m, d);
      }
    }
  }

  lemma {:induction false} LandsCount(k: Ctx, f: Frame, b0: nat, st: State, pc: nat, n: nat, c: Config)
    requires Lands(k, f, b0, st, pc, n, c)
    ensures c.Run? && n + st.budget >= b0
  {
  }

  // ---- Counted loops ----

  lemma {:induction false} UnfoldEntered(w: World, q: Counted, body: seq<Stmt>, st: State, catching: bool)
    ensures Entered(w, q, body, st, catching) ==
            if FusedBound(w, q.name, q.limit, q.cmp, st.vars) then ExecCounted(w, q, body, st, catching) else Normal(st)
  {
  }

  lemma {:induction false} RunCountedTop(k: Ctx, q: Counted, body: seq<Stmt>, f: Frame, st: State)
    returns (n: nat, c: Config)
    requires Ready(k, f, st) && OkB(body, k.catching) && InI32(q.limit) && InI32(q.amount) && UserName(q.name)
    requires AtCode(k, f.pc, CodeCountedTop(q, body, f.pc, k.env))
    ensures RunN(k.w, k.code, n, Run(f)) == c
    ensures Ends(k, f, st.budget, Entered(k.w, q, body, st, k.catching),
                 f.pc + |CodeCountedTop(q, body, f.pc, k.env)|, n, c)
    decreases st.budget, SizeB(body) + SizeFins(k.env.fins), 7
  {
    hide RunN, At, AtCode, Ends, Lands, CodeCountedTop, CodeCounted, ExecCounted, Entered, FusedBound, OkB, SizeB,
      SizeFins, Lawful, OkFins, UserVars, UserName, Kept;
    PlaceCountedTop(k, q, body, f.pc);
    UnfoldEntered(k.w, q, body, st, k.catching);
    var a := CodeCounted(q, body, f.pc + 1, k.env);
    var end := f.pc + 1 + |a|;
    var op := JumpCmpFalse(q.name, q.limit, q.cmp, end);
    AtOne(k.code, f.pc, [op], 0);
    BoundUser(k.w, q.name, q.limit, q.cmp, f.vars);
    StepCmp(k.w, k.code, f, q.name, q.limit, q.cmp, end);
    n, c := 1, RunN(k.w, k.code, 1, Run(f));
    if FusedBound(k.w, q.name, q.limit, q.cmp, st.vars) {
      var f1 := Next(f).f;
      var m, d := RunCounted(k, q, body, f1, st);
      SameKept(k, f, f1);
      Chain(k, f, st.budget, f1, st.budget, 1, ExecCounted(k.w, q, body, st, k.catching), end, m, d);
      n, c := 1 + m, d;
    } else {
      MovedLands(k, f, st, end, 1);
      EndsNormal(k, f, st.budget, st, end, n, c);
    }
  }

  lemma {:induction false} MovedLands(k: Ctx, f: Frame, st: State, pc: nat, n: nat)
    requires Ready(k, f, st)
    ensures Lands(k, f, st.budget, st, pc, n, Run(f.(pc := pc)))
  {
    hide UserVars, Lawful, OkFins, Kept;
    SameKept(k, f, f.(pc := pc));
  }

  lemma {:induction false} UnfoldCounted(w: World, q: Counted, body: seq<Stmt>, st: State, catching: bool)
    ensures ExecCounted(w, q, body, st, catching) ==
            (var o := ExecB(w, body, st, catching);
             if o.Normal? || o.Continued? then
               var st1 := Advanced(w, q, o.st);
               if st1.budget == 0 then Timeout
               else if FusedBound(w, q.name, q.limit, q.cmp, st1.vars) then
                 ExecCounted(w, q, body, Spend(st1), catching)
               else Normal(Spend(st1))
             else if o.Broke? then Normal(o.st)
             else o)
    ensures Within(ExecB(w, body, st, catching), st)
  {
    hide ExecB, Advanced, FusedBound;
  }

  lemma {:induction false} RunCounted(k: Ctx, q: Counted, body: seq<Stmt>, f: Frame, st: State)
    returns (n: nat, c: Config)
    requires Ready(k, f, st) && OkB(body, k.catching) && InI32(q.limit) && InI32(q.amount) && UserName(q.name)
    requires AtCode(k, f.pc, CodeCounted(q, body, f.pc, k.env))
    ensures RunN(k.w, k.code, n, Run(f)) == c
    ensures Ends(k, f, st.budget, ExecCounted(k.w, q, body, st, k.catching),
                 f.pc + |CodeCounted(q, body, f.pc, k.env)|, n, c)
    decreases st.budget, SizeB(body) + SizeFins(k.env.fins), 6
  {
    hide RunN, At, AtCode, Ends, Lands, CodeCounted, CodeB, ExecCounted, ExecB, OkB, SizeB, SizeFins, Ready, UserName,
      Advanced, FusedBound, Aims, HasBreak, HasContinue, Fold;
    PlaceCounted(k, q, body, f.pc);
    UnfoldCounted(k.w, q, body, st, k.catching);
    var mid := f.pc + |CodeB(body, f.pc, InLoop(k.env))|;
    var end := mid + 1;
    LoopReady(k, f, st, end, mid);
    LoopAims(k.env, HasBreak(body), HasContinue(body));
    n, c := RunB(LoopCtx(k, end, mid), body, f, st);
    var o := ExecB(k.w, body, st, k.catching);
    LeaveLoop(k, end, mid, f, st.budget, o, mid, end, n, c);
    if o.Normal? || o.Continued? {
      n, c := CountedStep(k, q, body, f, st, mid, n, c);
    } else if o.Broke? {
      EndsNormal(k, f, st.budget, o.st, end, n, c);
    }
  }

  /** The bottom of a counted loop: step, test, and go round or stop. */
  lemma {:induction false} CountedStep(
      k: Ctx, q: Counted, body: seq<Stmt>, f: Frame, st: State, mid: nat, n0: nat, c0: Config)
    returns (n: nat, c: Config)
    requires Ready(k, f, st) && OkB(body, k.catching) && InI32(q.limit) && InI32(q.amount) && UserName(q.name)
    requires AtCode(k, f.pc, CodeCounted(q, body, f.pc, k.env))
    requires mid == f.pc + |CodeB(body, f.pc, InLoop(k.env))|
    requires var o := ExecB(k.w, body, st, k.catching);
             && (o.Normal? || o.Continued?)
             && RunN(k.w, k.code, n0, Run(f)) == c0 && Lands(k, f, st.budget, o.st, mid, n0, c0)
    ensures RunN(k.w, k.code, n, Run(f)) == c
    ensures Ends(k, f, st.budget, ExecCounted(k.w, q, body, st, k.catching), mid + 1, n, c)
    decreases st.budget, SizeB(body) + SizeFins(k.env.fins), 5
  {
    hide RunN, At, AtCode, Ends, Lands, CodeCounted, CodeB, ExecCounted, ExecB, OkB, SizeB, SizeFins, Ready, UserName,
      Fold, Advanced, FusedBound;
    PlaceCounted(k, q, body, f.pc);
    UnfoldCounted(k.w, q, body, st, k.catching);
    var st1 := ExecB(k.w, body, st, k.catching).st;
    var st2 := Advanced(k.w, q, st1);
    var end := mid + 1;
    AdvancedBudget(k.w, q, st1);
    LandsCount(k, f, st.budget, st1, mid, n0, c0);
    if st2.budget == 0 {
      n, c := n0, c0;
      EndsTimeout(k, f, st.budget, end, n, c);
    } else {
      n, c := StepCounter(k, q, f, st.budget, st1, mid, n0, c0, f.pc);
      if FusedBound(k.w, q.name, q.limit, q.cmp, st2.vars) {
        LandsReady(k, f, st.budget, f, st, Spend(st2), f.pc, n, c);
        var m, d := RunCounted(k, q, body, c.f, Spend(st2));
        ChainLands(k, f, st.budget, Spend(st2), f.pc, n, c,
                   ExecCounted(k.w, q, body, Spend(st2), k.catching), end, m, d);
        n, c := n + m, d;
      } else {
        EndsNormal(k, f, st.budget, Spend(st2), end, n, c);
      }
    }
  }

  lemma {:induction false} AdvancedBudget(w: World, q: Counted, st: State)
    ensures Advanced(w, q, st).budget == st.budget
  {
  }

  /** Executing `ForLoopStep` where the interpreter steps and tests. */
  lemma {:induction false} StepCounter(k: Ctx, q: Counted, f: Frame, b0: nat, st: State, mid: nat, n0: nat, c0: Config, top: nat)
    returns (n: nat, c: Config)
    requires InI32(q.limit) && InI32(q.amount) && UserName(q.name) && st.budget > 0
    requires At(k.code, mid, [LoopStep(q.name, Wrap32(q.limit), q.cmp, Wrap32(q.amount), top)])
    requires RunN(k.w, k.code, n0, Run(f)) == c0 && Lands(k, f, b0, st, mid, n0, c0)
    ensures RunN(k.w, k.code, n, Run(f)) == c
    ensures var st1 := Advanced(k.w, q, st);
            && st1.budget == st.budget
            && Lands(k, f, b0, Spend(st1),
                     if FusedBound(k.w, q.name, q.limit, q.cmp, st1.vars) then top else mid + 1, n, c)
  {
    hide RunN, At, Fold, FusedTest, FusedStep, UserName, UserVars, RetSlot, Kept;
    var v := FusedStep(k.w, Lookup(st.vars, q.name), q.amount);
    var op := LoopStep(q.name, q.limit, q.cmp, q.amount, top);
    AtOne(k.code, mid, [op], 0);
    LookupUser(c0.f, st, q.name);
    StepLoop(k.w, k.code, c0.f, q.name, q.limit, q.cmp, q.amount, top);
    RunAdd(k.w, k.code, n0, 1, Run(f));
    n, c := n0 + 1, RunN(k.w, k.code, 1, c0);
    StoredLands(k, c0.f, c.f, st, q.name, v, 1);
    KeptTrans(k, f, c0.f, c.f);
    SpendMatch(c.f, Advanced(k.w, q, st));
  }

  lemma {:induction false} SpendMatch(f: Frame, st: State)
    requires st.budget > 0
    ensures Match(f, Spend(st)) == Match(f, st)
  {
  }

  // ---- do ----

  lemma {:induction false} UnfoldDo(k: Ctx, s: Stmt, at: nat, st: State)
    requires s.DoWhile?
    ensures CodeBody(s, at, k.env) == CodeDo(s.cond, s.body, at, k.env)
    ensures Exec(k.w, s, st, k.catching) == ExecDo(k.w, s.cond, s.body, st, k.catching)
    ensures SizeS(s) == 1 + SizeB(s.body)
    ensures OkS(s, k.catching) ==
            (ExprOk(s.cond) && OkB(s.body, k.catching) && CountedOk(CountedBody(s.cond, s.body)))
  {
    hide CodeDo, ExecDo, OkB, SizeB, ExprOk, CountedBody;
  }

  lemma {:induction false} RunDo(k: Ctx, s: Stmt, f: Frame, st: State) returns (n: nat, c: Config)
    requires Ready(k, f, st) && OkS(s, k.catching)
    requires s.DoWhile? && AtCode(k, f.pc, CodeBody(s, f.pc, k.env))
    ensures RunN(k.w, k.code, n, Run(f)) == c
    ensures Ends(k, f, st.budget, Exec(k.w, s, st, k.catching), f.pc + |CodeBody(s, f.pc, k.env)|, n, c)
    decreases st.budget, SizeS(s) - 1 + SizeFins(k.env.fins), 8
  {
    hide RunN, AtCode, Ends, CodeBody, CodeDo, CodeCounted, Exec, ExecDo, ExecCounted, OkS, OkB, SizeS, SizeB, SizeFins,
      CountedBody, ExprOk, Lawful, OkFins, UserVars;
    UnfoldDo(k, s, f.pc, st);
    var q := CountedBody(s.cond, s.body);
    if q.Some? {
      var front := s.body[..|s.body| - 1];
      DoFusion(k.w, s.cond, s.body, st, k.catching);
      CountedParts(k, s.cond, s.body, f.pc);
      n, c := RunCounted(k, q.value, front, f, st);
      EndsStuck(k, f, st.budget, f.pc + |CodeBody(s, f.pc, k.env)|, n, c);
    } else {
      n, c := RunPlainDo(k, s.cond, s.body, f, st);
    }
  }

  lemma {:induction false} UnfoldExecDo(w: World, cond: Expr, body: seq<Stmt>, st: State, catching: bool)
    requires CountedBody(cond, body).None?
    ensures ExecDo(w, cond, body, st, catching) ==
            (var o := ExecB(w, body, st, catching);
             if o.Normal? || o.Continued? then
               if o.st.budget == 0 then Timeout else
               match Test(w, cond, o.st.vars)
               case No => Normal(Spend(o.st))
               case Bad(x) => Thrown(Spend(o.st), x)
               case Yes => ExecDo(w, cond, body, Spend(o.st), catching)
             else if o.Broke? then Normal(o.st)
             else o)
    ensures Within(ExecB(w, body, st, catching), st)
  {
    hide ExecB, Test;
  }

  lemma {:induction false} RunPlainDo(k: Ctx, cond: Expr, body: seq<Stmt>, f: Frame, st: State)
    returns (n: nat, c: Config)
    requires Ready(k, f, st) && ExprOk(cond) && OkB(body, k.catching) && CountedBody(cond, body).None?
    requires AtCode(k, f.pc, CodeDo(cond, body, f.pc, k.env))
    ensures RunN(k.w, k.code, n, Run(f)) == c
    ensures Ends(k, f, st.budget, ExecDo(k.w, cond, body, st, k.catching),
                 f.pc + |CodeDo(cond, body, f.pc, k.env)|, n, c)
    decreases st.budget, SizeB(body) + SizeFins(k.env.fins), 7
  {
    hide RunN, At, AtCode, Ends, Lands, CodeDo, CodeB, CodeE, ExecDo, ExecB, Test, OkB, SizeB, SizeFins, CountedBody,
      ExprOk, Ready, Aims, HasBreak, HasContinue;
    PlaceDo(k, cond, body, f.pc);
    UnfoldExecDo(k.w, cond, body, st, k.catching);
    var mid := f.pc + |CodeB(body, f.pc, InLoop(k.env))|;
    var end := mid + |CodeE(cond, mid)| + 1;
    LoopReady(k, f, st, end, mid);
    LoopAims(k.env, HasBreak(body), HasContinue(body));
    n, c := RunB(LoopCtx(k, end, mid), body, f, st);
    var o := ExecB(k.w, body, st, k.catching);
    LeaveLoop(k, end, mid, f, st.budget, o, mid, end, n, c);
    if o.Normal? || o.Continued? {
      LandsCount(k, f, st.budget, o.st, mid, n, c);
      if o.st.budget == 0 {
        EndsTimeout(k, f, st.budget, end, n, c);
      } else {
        n, c := DoTest(k, cond, body, f, st, mid, n, c);
      }
    } else if o.Broke? {
      EndsNormal(k, f, st.budget, o.st, end, n, c);
    }
  }

  /** The bottom of a plain `do` loop. */
  lemma {:induction false} DoTest(
      k: Ctx, cond: Expr, body: seq<Stmt>, f: Frame, st: State, mid: nat, n0: nat, c0: Config)
    returns (n: nat, c: Config)
    requires Ready(k, f, st) && ExprOk(cond) && OkB(body, k.catching) && CountedBody(cond, body).None?
    requires AtCode(k, f.pc, CodeDo(cond, body, f.pc, k.env))
    requires mid == f.pc + |CodeB(body, f.pc, InLoop(k.env))|
    requires var o := ExecB(k.w, body, st, k.catching);
             && (o.Normal? || o.Continued?) && o.st.budget > 0
             && RunN(k.w, k.code, n0, Run(f)) == c0 && Lands(k, f, st.budget, o.st, mid, n0, c0)
    ensures RunN(k.w, k.code, n, Run(f)) == c
    ensures Ends(k, f, st.budget, ExecDo(k.w, cond, body, st, k.catching),
                 f.pc + |CodeDo(cond, body, f.pc, k.env)|, n, c)
    decreases st.budget, SizeB(body) + SizeFins(k.env.fins), 6
  {
    hide RunN, At, AtCode, Ends, Lands, CodeDo, CodeB, CodeE, ExecDo, ExecB, Test, OkB, SizeB, SizeFins, CountedBody,
      ExprOk, Ready, RaisedIn, UserVars;
    PlaceDo(k, cond, body, f.pc);
    UnfoldExecDo(k.w, cond, body, st, k.catching);
    var st1 := ExecB(k.w, body, st, k.catching).st;
    var end := mid + |CodeE(cond, mid)| + 1;
    LandsRuns(k, f, st.budget, st1, mid, n0, c0);
    EvalUser(k.w, cond, c0.f.vars);
    var m, d := RunPlainCond(k.w, k.code, cond, c0.f, true, f.pc);
    RunAdd(k.w, k.code, n0, m, Run(f));
    n, c := n0 + m, d;
    var t := Test(k.w, cond, st1.vars);
    if t.Yes? || t.No? {
      var pc := if t.Yes? then f.pc else end;
      MovedOn(k, f, st.budget, st1, mid, n0, c0, pc, m);
      if t.Yes? {
        LandsReady(k, f, st.budget, f, st, Spend(st1), f.pc, n, c);
        var m2, d2 := RunPlainDo(k, cond, body, c.f, Spend(st1));
        ChainLands(k, f, st.budget, Spend(st1), f.pc, n, c,
                   ExecDo(k.w, cond, body, Spend(st1), k.catching), end, m2, d2);
        n, c := n + m2, d2;
      } else {
        EndsNormal(k, f, st.budget, Spend(st1), end, n, c);
      }
    } else {
      RaisedOn(k, f, st.budget, st1, mid, n0, c0, t.x, m, d);
      EndsThrown(k, f, st.budget, Spend(st1), t.x, end, n, c);
    }
  }

  /** After landing, at least one step that only moved the program counter. */
  lemma {:induction false} MovedOn(k: Ctx, f: Frame, b0: nat, st: State, mid: nat, n0: nat, c0: Config, pc: nat, m: nat)
    requires Lands(k, f, b0, st, mid, n0, c0) && st.budget > 0 && m >= 1
    ensures Lands(k, f, b0, Spend(st), pc, n0 + m, Run(c0.f.(pc := pc)))
  {
    hide UserVars, Kept;
    SameKept(k, c0.f, c0.f.(pc := pc));
    KeptTrans(k, f, c0.f, c0.f.(pc := pc));
  }

  /** After landing, at least one step that ended in an exception. */
  lemma {:induction false} RaisedOn(k: Ctx, f: Frame, b0: nat, st: State, mid: nat, n0: nat, c0: Config, x: Value, m: nat, d: Config)
    requires Lands(k, f, b0, st, mid, n0, c0) && st.budget > 0 && m >= 1 && RaisedIn(c0.f, x, d)
    ensures k.catching ==> Raises(k, f, b0, Spend(st), x, n0 + m, d)
  {
    hide UserVars;
    if k.catching {
      RaisedFromExpr(k, c0.f, Spend(st), x, m, d);
      RaisesAfter(k, f, b0, c0.f, Spend(st).budget, n0 + 1, Spend(st), x, m, d);
    }
  }

  // ---- for ----

  lemma {:induction false} UnfoldFor(k: Ctx, s: Stmt, at: nat, st: State)
    requires s.For? && OkS(s, k.catching)
    ensures CodeBody(s, at, k.env) ==
            (if s.start.None? then CodeFor(s.test, s.inc, s.body, at, k.env)
             else
               var i := CodeS(InitStmt(s.start.value), at, k.env);
               i + CodeFor(s.test, s.inc, s.body, at + |i|, k.env))
    ensures Exec(k.w, s, st, k.catching) ==
            (var o := if s.start.None? then Normal(st) else Exec(k.w, InitStmt(s.start.value), st, k.catching);
             if o.Normal? then ExecFor(k.w, s.test, s.inc, s.body, o.st, k.catching) else o)
    ensures s.start.Some? ==>
            && OkS(InitStmt(s.start.value), k.catching)
            && !StmtHasBreak(InitStmt(s.start.value)) && !StmtHasContinue(InitStmt(s.start.value))
            && Within(Exec(k.w, InitStmt(s.start.value), st, k.catching), st)
    ensures SizeS(s) == 2 + SizeB(s.body)
    ensures s.test.Some? && CondOk(s.test.value) && (s.inc.Some? ==> StepOk(s.inc.value))
    ensures OkB(s.body, k.catching) && CountedOk(CountedFor(s.test, s.inc))
  {
    hide CodeFor, CodeS, ExecFor, OkB, SizeB, CondOk, CountedFor, StepOk;
    assert [] + CodeFor(s.test, s.inc, s.body, at, k.env) == CodeFor(s.test, s.inc, s.body, at, k.env);
  }

  lemma {:induction false} RunFor(k: Ctx, s: Stmt, f: Frame, st: State) returns (n: nat, c: Config)
    requires Ready(k, f, st) && OkS(s, k.catching)
    requires s.For? && AtCode(k, f.pc, CodeBody(s, f.pc, k.env))
    ensures RunN(k.w, k.code, n, Run(f)) == c
    ensures Ends(k, f, st.budget, Exec(k.w, s, st, k.catching), f.pc + |CodeBody(s, f.pc, k.env)|, n, c)
    decreases st.budget, SizeS(s) - 1 + SizeFins(k.env.fins), 9
  {
    hide RunN, AtCode, Ends, Lands, CodeBody, CodeFor, CodeS, Exec, ExecFor, OkS, OkB, SizeS, SizeB, SizeFins,
      CountedFor, CondOk, StepOk, Ready, StmtHasBreak, StmtHasContinue;
    UnfoldFor(k, s, f.pc, st);
    if s.start.None? {
      n, c := RunForLoop(k, s.test.value, s.inc, s.body, f, st);
    } else {
      var i := InitStmt(s.start.value);
      var a := CodeS(i, f.pc, k.env);
      var mid := f.pc + |a|;
      var end := f.pc + |CodeBody(s, f.pc, k.env)|;
      AtCodeSplit(k, f.pc, a, CodeFor(s.test, s.inc, s.body, mid, k.env));
      n, c := RunS(k, i, f, st);
      var o := Exec(k.w, i, st, k.catching);
      if o.Normal? {
        EndsNormal(k, f, st.budget, o.st, mid, n, c);
        LandsReady(k, f, st.budget, f, st, o.st, mid, n, c);
        var m, d := RunForLoop(k, s.test.value, s.inc, s.body, c.f, o.st);
        ChainLands(k, f, st.budget, o.st, mid, n, c, ExecFor(k.w, s.test, s.inc, s.body, o.st, k.catching), end, m, d);
        n, c := n + m, d;
      } else {
        EndsElsewhere(k, f, st.budget, o, mid, end, n, c);
      }
    }
  }

  lemma {:induction false} RunForLoop(k: Ctx, test: Expr, inc: Option<Step>, body: seq<Stmt>, f: Frame, st: State)
    returns (n: nat, c: Config)
    requires Ready(k, f, st) && CondOk(test) && (inc.Some? ==> StepOk(inc.value)) && OkB(body, k.catching)
    requires CountedOk(CountedFor(Some(test), inc))
    requires AtCode(k, f.pc, CodeFor(Some(test), inc, body, f.pc, k.env))
    ensures RunN(k.w, k.code, n, Run(f)) == c
    ensures Ends(k, f, st.budget, ExecFor(k.w, Some(test), inc, body, st, k.catching),
                 f.pc + |CodeFor(Some(test), inc, body, f.pc, k.env)|, n, c)
    decreases st.budget, SizeB(body) + SizeFins(k.env.fins), 8
  {
    hide RunN, AtCode, Ends, CodeFor, CodeCountedTop, ExecFor, OkB, SizeB, SizeFins, CountedFor, Entered,
      Lawful, OkFins, UserVars;
    var q := CountedFor(Some(test), inc);
    if q.Some? {
      CountedForParts(k, test, inc, body, f.pc);
      ForFusion(k.w, test, inc.value, body, st, k.catching);
      n, c := RunCountedTop(k, q.value, body, f, st);
      EndsStuck(k, f, st.budget, f.pc + |CodeFor(Some(test), inc, body, f.pc, k.env)|, n, c);
    } else {
      n, c := RunPlainFor(k, test, inc, body, f, st);
    }
  }

  lemma {:induction false} CountedForParts(k: Ctx, test: Expr, inc: Option<Step>, body: seq<Stmt>, at: nat)
    requires CountedFor(Some(test), inc).Some? && ExprOk(test)
    ensures var q := CountedFor(Some(test), inc).value;
            && inc.Some? && UserName(q.name)
            && CodeFor(Some(test), inc, body, at, k.env) == CodeCountedTop(q, body, at, k.env)
  {
    hide CodeCountedTop, CodeB;
    assert ExprOk(test.l) && ExprOk(test.r);
  }

  lemma {:induction false} UnfoldExecFor(w: World, test: Expr, inc: Option<Step>, body: seq<Stmt>, st: State, catching: bool)
    requires CountedFor(Some(test), inc).None?
    ensures ExecFor(w, Some(test), inc, body, st, catching) ==
            (match Decide(w, test, st.vars)
             case No => Normal(st)
             case Bad(x) => Thrown(st, x)
             case Unknown => Stuck
             case Yes =>
               var o := ExecB(w, body, st, catching);
               if o.Normal? || o.Continued? then
                 var i := ExecInc(w, None, inc, o.st);
                 if !i.Normal? then i
                 else if i.st.budget == 0 then Timeout
                 else ExecFor(w, Some(test), inc, body, Spend(i.st), catching)
               else if o.Broke? then Normal(o.st)
               else o)
    ensures Within(ExecB(w, body, st, catching), st)
  {
    hide ExecB, Test, Decide, ExecInc;
  }

  lemma {:induction false} RunPlainFor(k: Ctx, test: Expr, inc: Option<Step>, body: seq<Stmt>, f: Frame, st: State)
    returns (n: nat, c: Config)
    requires Ready(k, f, st) && CondOk(test) && (inc.Some? ==> StepOk(inc.value)) && OkB(body, k.catching)
    requires CountedFor(Some(test), inc).None?
    requires AtCode(k, f.pc, CodeFor(Some(test), inc, body, f.pc, k.env))
    ensures RunN(k.w, k.code, n, Run(f)) == c
    ensures Ends(k, f, st.budget, ExecFor(k.w, Some(test), inc, body, st, k.catching),
                 f.pc + |CodeFor(Some(test), inc, body, f.pc, k.env)|, n, c)
    decreases st.budget, SizeB(body) + SizeFins(k.env.fins), 7
  {
    hide RunN, At, AtCode, Ends, Lands, CodeFor, CodeB, CodeCond, CondLen, IncCode, ExecFor, ExecB, ExecInc, Test, Decide, OkB,
      SizeB, SizeFins, CountedFor, CondOk, StepOk, Ready, Decided, Aims, HasBreak, HasContinue;
    PlaceFor(k, test, inc, body, f.pc);
    UnfoldExecFor(k.w, test, inc, body, st, k.catching);
    var len := CondLen(test, f.pc);
    var mid := f.pc + len + |CodeB(body, f.pc + len, InLoop(k.env))|;
    var end := mid + |IncCode(inc, mid)| + 1;
    var t := Decide(k.w, test, st.vars);
    n, c := RunCond(k, test, f, st, end);
    CondEnds(k, f, st, t, len, end, end, n, c);
    if t.No? {
      EndsNormal(k, f, st.budget, st, end, n, c);
    } else if t.Unknown? {
      EndsStuck(k, f, st.budget, end, n, c);
    } else if t.Yes? {
      var f1 := c.f;
      LandsReady(k, f, st.budget, f, st, st, f.pc + len, n, c);
      LoopReady(k, f1, st, end, mid);
      LoopAims(k.env, HasBreak(body), HasContinue(body));
      var m, d := RunB(LoopCtx(k, end, mid), body, f1, st);
      RunAdd(k.w, k.code, n, m, Run(f));
      var o := ExecB(k.w, body, st, k.catching);
      LeaveLoop(k, end, mid, f1, st.budget, o, mid, end, m, d);
      SameKept(k, f, f1);
      n, c := n + m, d;
      if o.Normal? || o.Continued? {
        LandsAfter(k, f, st.budget, f1, st.budget, n - m, o.st, mid, m, d);
        n, c := ForStep(k, test, inc, body, f, st, mid, n, c);
      } else if o.Broke? {
        LandsAfter(k, f, st.budget, f1, st.budget, n - m, o.st, end, m, d);
        EndsNormal(k, f, st.budget, o.st, end, n, c);
      } else {
        EndsAfter(k, f, st.budget, f1, st.budget, n - m, o, end, m, d);
      }
    }
  }

  /** The increment of a plain `for` and the jump back to its test. */
  lemma {:induction false} ForStep(
      k: Ctx, test: Expr, inc: Option<Step>, body: seq<Stmt>, f: Frame, st: State, mid: nat, n0: nat, c0: Config)
    returns (n: nat, c: Config)
    requires Ready(k, f, st) && CondOk(test) && (inc.Some? ==> StepOk(inc.value)) && OkB(body, k.catching)
    requires CountedFor(Some(test), inc).None? && Decide(k.w, test, st.vars).Yes?
    requires AtCode(k, f.pc, CodeFor(Some(test), inc, body, f.pc, k.env))
    requires var len := CondLen(test, f.pc); mid == f.pc + len + |CodeB(body, f.pc + len, InLoop(k.env))|
    requires var o := ExecB(k.w, body, st, k.catching);
             && (o.Normal? || o.Continued?)
             && RunN(k.w, k.code, n0, Run(f)) == c0 && Lands(k, f, st.budget, o.st, mid, n0, c0)
    ensures RunN(k.w, k.code, n, Run(f)) == c
    ensures Ends(k, f, st.budget, ExecFor(k.w, Some(test), inc, body, st, k.catching),
                 f.pc + |CodeFor(Some(test), inc, body, f.pc, k.env)|, n, c)
    decreases st.budget, SizeB(body) + SizeFins(k.env.fins), 6
  {
    hide RunN, At, AtCode, Ends, Lands, CodeFor, CodeB, CodeCond, CondLen, IncCode, ExecFor, ExecB, ExecInc, Test, Decide, OkB,
      SizeB, SizeFins, CountedFor, CondOk, StepOk, Ready;
    PlaceFor(k, test, inc, body, f.pc);
    UnfoldExecFor(k.w, test, inc, body, st, k.catching);
    var st1 := ExecB(k.w, body, st, k.catching).st;
    var jump := mid + |IncCode(inc, mid)|;
    var end := jump + 1;
    LandsReady(k, f, st.budget, f, st, st1, mid, n0, c0);
    var m, d := RunInc(k, inc, c0.f, st1);
    var i := ExecInc(k.w, None, inc, st1);
    ChainLands(k, f, st.budget, st1, mid, n0, c0, i, jump, m, d);
    n, c := n0 + m, d;
    if !i.Normal? {
      EndsElsewhere(k, f, st.budget, i, jump, end, n, c);
    } else {
      EndsNormal(k, f, st.budget, i.st, jump, n, c);
      LandsCount(k, f, st.budget, i.st, jump, n, c);
      if i.st.budget == 0 {
        EndsTimeout(k, f, st.budget, end, n, c);
      } else {
        LandsThenJumpSpend(k, f, st.budget, i.st, jump, n, c, f.pc);
        n, c := n + 1, Run(c.f.(pc := f.pc));
        LandsReady(k, f, st.budget, f, st, Spend(i.st), f.pc, n, c);
        var m2, d2 := RunPlainFor(k, test, inc, body, c.f, Spend(i.st));
        ChainLands(k, f, st.budget, Spend(i.st), f.pc, n, c,
                   ExecFor(k.w, Some(test), inc, body, Spend(i.st), k.catching), end, m2, d2);
        n, c := n + m2, d2;
      }
    }
  }

  lemma {:induction false} LandsThenJumpSpend(k: Ctx, f0: Frame, b0: nat, st1: State, pc: nat, n: nat, c: Config, t: nat)
    requires RunN(k.w, k.code, n, Run(f0)) == c && Lands(k, f0, b0, st1, pc, n, c) && st1.budget > 0
    requires At(k.code, pc, [Jump(t)])
    ensures RunN(k.w, k.code, n + 1, Run(f0)) == Run(c.f.(pc := t))
    ensures Lands(k, f0, b0, Spend(st1), t, n + 1, Run(c.f.(pc := t)))
  {
    hide RunN, At, Lands;
    LandsThenJump(k, f0, b0, st1, pc, n, c, t);
    MovedOn(k, f0, b0, st1, pc, n, c, t, 1);
  }

  lemma {:induction false} RunInc(k: Ctx, inc: Option<Step>, f: Frame, st: State) returns (n: nat, c: Config)
    requires Ready(k, f, st) && (inc.Some? ==> StepOk(inc.value)) && At(k.code, f.pc, IncCode(inc, f.pc))
    ensures RunN(k.w, k.code, n, Run(f)) == c
    ensures Ends(k, f, st.budget, ExecInc(k.w, None, inc, st), f.pc + |IncCode(inc, f.pc)|, n, c)
  {
    if inc.None? {
      hide UserVars, Lawful, OkFins, Kept;
      SameKept(k, f, f);
      n, c := 0, Run(f);
    } else {
      n, c := RunStepCode(k, inc.value, f, st);
    }
  }

  // ---- Jumps and returns ----

  ghost predicate Unwound(k: Ctx, f: Frame, b: nat, o: Outcome, end: nat, n: nat, c: Config) {
    && (o.Normal? ==> Lands(k, f, b, o.st, end, n, c))
    && (o.Timeout? ==> c.Run? && n >= b)
  }

  lemma {:induction false} UnfoldUnwind(k: Ctx, fins: seq<seq<Stmt>>, st: State)
    requires fins != []
    ensures var last, rest := fins[|fins| - 1], fins[..|fins| - 1];
            && SizeFins(fins) == SizeFins(rest) + SizeB(last) + 1
            && Unwind(k.w, fins, st, k.catching) ==
               (match ExecB(k.w, last, st, k.catching)
                case Normal(st1) => Unwind(k.w, rest, st1, k.catching)
                case Timeout => Timeout
                case _ => Stuck)
            && (OkFins(fins, k.catching) ==>
                  && OkFins(rest, k.catching) && OkB(last, k.catching) && !HasBreak(last) && !HasContinue(last))
            && Within(ExecB(k.w, last, st, k.catching), st)
  {
    hide ExecB, OkB, SizeB, HasBreak, HasContinue;
  }

  lemma {:induction false} DetachedSize(env: Env)
    requires env.fins == []
    ensures SizeFins(env.fins) == 0
  {
  }

  lemma {:induction false} RunUnwind(k: Ctx, fins: seq<seq<Stmt>>, f: Frame, st: State) returns (n: nat, c: Config)
    requires Ready(k, f, st) && k.env.fins == [] && OkFins(fins, k.catching)
    requires AtCode(k, f.pc, CodeUnwind(fins, f.pc, k.env))
    ensures RunN(k.w, k.code, n, Run(f)) == c
    ensures Unwound(k, f, st.budget, Unwind(k.w, fins, st, k.catching), f.pc + |CodeUnwind(fins, f.pc, k.env)|, n, c)
    decreases st.budget, SizeFins(fins), 4
  {
    if fins == [] {
      hide UserVars, Lawful, OkFins, Kept;
      SameKept(k, f, f);
      n, c := 0, Run(f);
    } else {
      n, c := RunUnwindSnoc(k, fins, f, st);
    }
  }

  lemma {:induction false} RunUnwindSnoc(k: Ctx, fins: seq<seq<Stmt>>, f: Frame, st: State) returns (n: nat, c: Config)
    requires Ready(k, f, st) && k.env.fins == [] && OkFins(fins, k.catching)
    requires fins != [] && AtCode(k, f.pc, CodeUnwind(fins, f.pc, k.env))
    ensures RunN(k.w, k.code, n, Run(f)) == c
    ensures Unwound(k, f, st.budget, Unwind(k.w, fins, st, k.catching), f.pc + |CodeUnwind(fins, f.pc, k.env)|, n, c)
    decreases st.budget, SizeFins(fins), 3
  {
    hide RunN, AtCode, Ends, Lands, CodeB, CodeUnwind, ExecB, Unwind, OkB, OkFins, SizeB, SizeFins, Ready,
      HasBreak, HasContinue;
    UnfoldUnwind(k, fins, st);
    PlaceUnwind(k, fins, f.pc);
    DetachedSize(k.env);
    var last, rest := fins[|fins| - 1], fins[..|fins| - 1];
    var mid := f.pc + |CodeB(last, f.pc, k.env)|;
    n, c := RunB(k, last, f, st);
    var o := ExecB(k.w, last, st, k.catching);
    if o.Normal? {
      EndsNormal(k, f, st.budget, o.st, mid, n, c);
      LandsReady(k, f, st.budget, f, st, o.st, mid, n, c);
      LandsCount(k, f, st.budget, o.st, mid, n, c);
      var m, d := RunUnwind(k, rest, c.f, o.st);
      RunAdd(k.w, k.code, n, m, Run(f));
      LandsKept(k, f, st.budget, o.st, mid, n, c);
      var u := Unwind(k.w, rest, o.st, k.catching);
      if u.Normal? {
        LandsAfter(k, f, st.budget, c.f, o.st.budget, n, u.st, f.pc + |CodeUnwind(fins, f.pc, k.env)|, m, d);
      }
      n, c := n + m, d;
    } else if o.Timeout? {
      EndsTimeout(k, f, st.budget, mid, n, c);
    }
  }

  lemma {:induction false} LandsKept(k: Ctx, f: Frame, b0: nat, st: State, pc: nat, n: nat, c: Config)
    requires Lands(k, f, b0, st, pc, n, c)
    ensures c.Run? && Kept(k, f, c.f)
  {
  }

  lemma {:induction false} OkFinsAbove(fins: seq<seq<Stmt>>, depth: nat, catching: bool)
    requires OkFins(fins, catching)
    ensures OkFins(FinsAbove(fins, depth), catching)
  {
    hide OkB, HasBreak, HasContinue;
  }

  lemma {:induction false} UnwindReady(k: Ctx, f: Frame, st: State)
    requires Ready(k, f, st)
    ensures Ready(UnwindCtx(k), f, st)
  {
    hide Lawful, Match;
  }

  /** `finally` bodies and then a jump. */
  lemma {:induction false} RunJump(k: Ctx, depth: nat, hole: Emit, f: Frame, st: State) returns (n: nat, c: Config)
    requires Ready(k, f, st) && (hole.ToBreak? || hole.ToContinue?)
    requires AtCode(k, f.pc, CodeUnwind(FinsAbove(k.env.fins, depth), f.pc, Detached(k.env)) + [hole])
    ensures RunN(k.w, k.code, n, Run(f)) == c
    ensures Jumps(k, f, st.budget, st, Some(depth), if hole.ToBreak? then k.brkT else k.contT, n, c)
    decreases st.budget, SizeFins(k.env.fins), 5
  {
    hide RunN, At, AtCode, Lands, CodeUnwind, Unwind, OkFins, SizeFins, Lawful, UserVars, FinsAbove;
    var fins := FinsAbove(k.env.fins, depth);
    var a := CodeUnwind(fins, f.pc, Detached(k.env));
    var target := if hole.ToBreak? then k.brkT else k.contT;
    PlaceHole(k, a, hole, f.pc);
    AtUnwindCtx(k, f.pc, a);
    OkFinsAbove(k.env.fins, depth, k.catching);
    UnwindReady(k, f, st);
    n, c := RunUnwind(UnwindCtx(k), fins, f, st);
    var u := Unwind(k.w, fins, st, k.catching);
    if u.Normal? {
      SameLands(k, UnwindCtx(k), f, st.budget, u.st, f.pc + |a|, n, c);
      LandsRuns(k, f, st.budget, u.st, f.pc + |a|, n, c);
      LandsThenJump(k, f, st.budget, u.st, f.pc + |a|, n, c, target);
      n, c := n + 1, Run(c.f.(pc := target));
    }
  }

  lemma {:induction false} SameLands(k: Ctx, k1: Ctx, f: Frame, b: nat, st: State, pc: nat, n: nat, c: Config)
    requires Lands(k1, f, b, st, pc, n, c) && k1.catching == k.catching
    ensures Lands(k, f, b, st, pc, n, c)
  {
    hide Match;
  }

  /** All pending `finally` bodies and then `return null`. */
  lemma {:induction false} RunLeave(k: Ctx, f: Frame, st: State) returns (n: nat, c: Config)
    requires Ready(k, f, st)
    requires AtCode(k, f.pc, CodeUnwind(k.env.fins, f.pc, Detached(k.env)) + Fix([Const(Null), Ret]))
    ensures RunN(k.w, k.code, n, Run(f)) == c
    ensures Jumps(k, f, st.budget, st, None, k.brkT, n, c) && Jumps(k, f, st.budget, st, None, k.contT, n, c)
    decreases st.budget, SizeFins(k.env.fins), 5
  {
    hide RunN, At, AtCode, CodeUnwind, Unwind, OkFins, SizeFins, Lawful, UserVars, Kept;
    var a := CodeUnwind(k.env.fins, f.pc, Detached(k.env));
    PlaceTail(k, a, [Const(Null), Ret], f.pc);
    AtUnwindCtx(k, f.pc, a);
    UnwindReady(k, f, st);
    n, c := RunUnwind(UnwindCtx(k), k.env.fins, f, st);
    var u := Unwind(k.w, k.env.fins, st, k.catching);
    if u.Normal? {
      var g := c.f;
      AtOne(k.code, f.pc + |a|, [Const(Null), Ret], 0);
      AtOne(k.code, f.pc + |a|, [Const(Null), Ret], 1);
      StepConst(k.w, k.code, g, Null);
      StepRet(k.w, k.code, Push(g, Null).f, g.stack, Null);
      RunAdd(k.w, k.code, 1, 1, Run(g));
      RunAdd(k.w, k.code, n, 2, Run(f));
      n, c := n + 2, Done(Null, g.vars, g.out);
    }
  }

  lemma {:induction false} RunBreak(k: Ctx, f: Frame, st: State) returns (n: nat, c: Config)
    requires Ready(k, f, st) && AtCode(k, f.pc, CodeBody(Break, f.pc, k.env))
    ensures RunN(k.w, k.code, n, Run(f)) == c
    ensures Ends(k, f, st.budget, Exec(k.w, Break, st, k.catching), f.pc + |CodeBody(Break, f.pc, k.env)|, n, c)
    decreases st.budget, SizeFins(k.env.fins), 6
  {
    hide RunN, AtCode, CodeUnwind, Jumps, SizeFins, Ready;
    match k.env.brk {
      case Some(d) => n, c := RunJump(k, d, ToBreak, f, st);
      case None => n, c := RunLeave(k, f, st);
    }
  }

  lemma {:induction false} RunContinue(k: Ctx, f: Frame, st: State) returns (n: nat, c: Config)
    requires Ready(k, f, st) && AtCode(k, f.pc, CodeBody(Continue, f.pc, k.env))
    ensures RunN(k.w, k.code, n, Run(f)) == c
    ensures Ends(k, f, st.budget, Exec(k.w, Continue, st, k.catching), f.pc + |CodeBody(Continue, f.pc, k.env)|, n, c)
    decreases st.budget, SizeFins(k.env.fins), 6
  {
    hide RunN, AtCode, CodeUnwind, Jumps, SizeFins, Ready;
    match k.env.cont {
      case Some(d) => n, c := RunJump(k, d, ToContinue, f, st);
      case None => n, c := RunLeave(k, f, st);
    }
  }

  /** The returned expression; `return;` returns null. */
  function RetExpr(ret: Option<Expr>): Expr {
    match ret case None => Lit(Null) case Some(e) => e
  }

  function Returning(st: State, r: Res): Outcome {
    match r
    case Val(v) => Returned(st, v)
    case Exc(x) => Thrown(st, x)
  }

  lemma {:induction false} UnfoldReturn(k: Ctx, ret: Option<Expr>, at: nat, st: State)
    ensures var e := CodeE(RetExpr(ret), at);
            CodeBody(Return(ret), at, k.env) ==
            (if k.env.fins == [] then Fix(e + [Ret])
             else Fix(e + [Declare(RETVAL), StoreVar(RETVAL)])
                  + CodeUnwind(k.env.fins, at + |e| + 2, Detached(k.env)) + Fix([Load(RETVAL), Ret]))
    ensures Exec(k.w, Return(ret), st, k.catching) == Returning(st, Eval(k.w, RetExpr(ret), st.vars))
    ensures OkS(Return(ret), k.catching) ==> ExprOk(RetExpr(ret))
  {
    hide CodeUnwind;
    UnfoldLit(k.w, Null, at, st.vars);
  }

  lemma {:induction false} EndsReturned(k: Ctx, f: Frame, b: nat, st: State, v: Value, end: nat, n: nat, c: Config)
    requires var u := Unwind(k.w, k.env.fins, st, k.catching);
             (u.Normal? ==> Returns(b, u.st, v, n, c)) && (u.Timeout? ==> c.Run? && n >= b)
    ensures Ends(k, f, b, Returned(st, v), end, n, c)
  {
  }

  lemma {:induction false} RunReturn(k: Ctx, ret: Option<Expr>, f: Frame, st: State) returns (n: nat, c: Config)
    requires Ready(k, f, st) && OkS(Return(ret), k.catching)
    requires AtCode(k, f.pc, CodeBody(Return(ret), f.pc, k.env))
    ensures RunN(k.w, k.code, n, Run(f)) == c
    ensures Ends(k, f, st.budget, Exec(k.w, Return(ret), st, k.catching),
                 f.pc + |CodeBody(Return(ret), f.pc, k.env)|, n, c)
    decreases st.budget, SizeFins(k.env.fins), 7
  {
    hide RunN, At, AtCode, Ends, CodeBody, CodeE, CodeUnwind, Exec, Eval, Unwind, OkS, ExprOk, OkFins, SizeFins, Lawful,
      UserVars, Raises, Returns;
    UnfoldReturn(k, ret, f.pc, st);
    var re := RetExpr(ret);
    var e := CodeE(re, f.pc);
    var end := f.pc + |CodeBody(Return(ret), f.pc, k.env)|;
    ReturnCodeHead(k, e, f.pc);
    n, c := RunUserExpr(k, re, f, st);
    var r := Eval(k.w, re, st.vars);
    if r.Exc? {
      EndsThrown(k, f, st.budget, st, r.x, end, n, c);
    } else {
      var m, d := ReturnValue(k, e, f, st, r.v);
      RunAdd(k.w, k.code, n, m, Run(f));
      n, c := n + m, d;
      MoreSteps(k, st, r.v, m, n, d);
      EndsReturned(k, f, st.budget, st, r.v, end, n, c);
    }
  }

  lemma {:induction false} ReturnValue(k: Ctx, e: seq<Op>, f: Frame, st: State, v: Value) returns (n: nat, c: Config)
    requires Ready(k, f, st)
    requires AtCode(k, f.pc, if k.env.fins == [] then Fix(e + [Ret])
                             else Fix(e + [Declare(RETVAL), StoreVar(RETVAL)])
                                  + CodeUnwind(k.env.fins, f.pc + |e| + 2, Detached(k.env)) + Fix([Load(RETVAL), Ret]))
    ensures RunN(k.w, k.code, n, Run(f.(pc := f.pc + |e|, stack := f.stack + [v]))) == c
    ensures ReturnsAfterUnwind(k, st, v, n, c)
    decreases st.budget, SizeFins(k.env.fins), 6
  {
    hide RunN, At, AtCode, CodeUnwind, SizeFins, ReturnsAfterUnwind, Lawful, OkFins, UserVars;
    ReturnCodeHead(k, e, f.pc);
    if k.env.fins == [] {
      n, c := ReturnNow(k, e, f, st, v);
    } else {
      n, c := ReturnLater(k, e, f, st, v);
    }
  }

  /** An ending by return, seen some steps later. */
  ghost predicate ReturnsAfterUnwind(k: Ctx, st: State, v: Value, n: nat, c: Config) {
    match Unwind(k.w, k.env.fins, st, k.catching)
    case Normal(st1) => Returns(st.budget, st1, v, n, c)
    case Timeout => c.Run? && n >= st.budget
    case _ => true
  }

  lemma {:induction false} MoreSteps(k: Ctx, st: State, v: Value, m: nat, n: nat, c: Config)
    requires ReturnsAfterUnwind(k, st, v, m, c) && m <= n
    ensures ReturnsAfterUnwind(k, st, v, n, c)
  {
    hide Unwind;
  }

  lemma {:induction false} ReturnCodeHead(k: Ctx, e: seq<Op>, at: nat)
    requires AtCode(k, at, if k.env.fins == [] then Fix(e + [Ret])
                           else Fix(e + [Declare(RETVAL), StoreVar(RETVAL)])
                                + CodeUnwind(k.env.fins, at + |e| + 2, Detached(k.env)) + Fix([Load(RETVAL), Ret]))
    ensures At(k.code, at, e)
    ensures k.env.fins == [] ==> At(k.code, at + |e|, [Ret])
  {
    hide At, AtCode, CodeUnwind;
    if k.env.fins == [] {
      AtFix(k, at, e + [Ret]);
      AtSplit(k.code, at, e, [Ret]);
    } else {
      PlaceReturn(k, e, at);
    }
  }

  lemma {:induction false} ReturnNow(k: Ctx, e: seq<Op>, f: Frame, st: State, v: Value) returns (n: nat, c: Config)
    requires Match(f, st) && k.env.fins == [] && At(k.code, f.pc + |e|, [Ret])
    ensures RunN(k.w, k.code, n, Run(f.(pc := f.pc + |e|, stack := f.stack + [v]))) == c
    ensures ReturnsAfterUnwind(k, st, v, n, c)
  {
    hide RunN, At, UserVars;
    var f1 := f.(pc := f.pc + |e|, stack := f.stack + [v]);
    AtOne(k.code, f.pc + |e|, [Ret], 0);
    StepRet(k.w, k.code, f1, f.stack, v);
    n, c := 1, RunN(k.w, k.code, 1, Run(f1));
  }

  /** Set the value aside, run the `finally` bodies, fetch it back and return it. */
  lemma {:induction false} ReturnLater(k: Ctx, e: seq<Op>, f: Frame, st: State, v: Value) returns (n: nat, c: Config)
    requires Ready(k, f, st)
    requires AtCode(k, f.pc, Fix(e + [Declare(RETVAL), StoreVar(RETVAL)])
                             + CodeUnwind(k.env.fins, f.pc + |e| + 2, Detached(k.env)) + Fix([Load(RETVAL), Ret]))
    ensures RunN(k.w, k.code, n, Run(f.(pc := f.pc + |e|, stack := f.stack + [v]))) == c
    ensures ReturnsAfterUnwind(k, st, v, n, c)
    decreases st.budget, SizeFins(k.env.fins), 5
  {
    hide RunN, At, AtCode, CodeUnwind, Unwind, OkFins, SizeFins, Lawful, UserVars, RetSlot, Fold, Lands;
    PlaceReturn(k, e, f.pc);
    var at := f.pc + |e|;
    var store := [Declare(RETVAL), StoreVar(RETVAL)];
    var u := CodeUnwind(k.env.fins, at + 2, Detached(k.env));
    AtOne(k.code, at, store, 0);
    AtOne(k.code, at, store, 1);
    var f1 := f.(pc := at, stack := f.stack + [v]);
    StepSkip(k.w, k.code, f1, Declare(RETVAL));
    StepStore(k.w, k.code, Next(f1).f, RETVAL, f.stack, v);
    RunAdd(k.w, k.code, 1, 1, Run(f1));
    var f2 := SetVar(f.(pc := at + 2), RETVAL, v);
    RetStored(f, st, at + 2, v);
    UnwindReady(k, f2, st);
    var m, d := RunUnwind(UnwindCtx(k), k.env.fins, f2, st);
    RunAdd(k.w, k.code, 2, m, Run(f1));
    n, c := 2 + m, d;
    var w := Unwind(k.w, k.env.fins, st, k.catching);
    if w.Normal? {
      var m2, d2 := FetchAndReturn(k, f2, st, w.st, v, at + 2 + |u|, m, d);
      RunAdd(k.w, k.code, n, m2, Run(f1));
      n, c := n + m2, d2;
    }
  }

  lemma {:induction false} RetStored(f: Frame, st: State, pc: nat, v: Value)
    requires Match(f, st)
    ensures var f2 := SetVar(f.(pc := pc), RETVAL, v); Match(f2, st) && RetSlot(f2.vars) == Some(v)
  {
    hide Fold;
    UserVarsSet(f.vars, Fold(RETVAL), v);
  }

  lemma {:induction false} FetchAndReturn(k: Ctx, f2: Frame, st: State, st1: State, v: Value, pc: nat, m: nat, d: Config)
    returns (n: nat, c: Config)
    requires RetSlot(f2.vars) == Some(v) && At(k.code, pc, [Load(RETVAL), Ret])
    requires Lands(UnwindCtx(k), f2, st.budget, st1, pc, m, d)
    ensures RunN(k.w, k.code, n, d) == c && Returns(st.budget, st1, v, 2 + m + n, c)
  {
    hide RunN, At, UserVars, Fold;
    var g := d.f;
    AtOne(k.code, pc, [Load(RETVAL), Ret], 0);
    AtOne(k.code, pc, [Load(RETVAL), Ret], 1);
    assert Lookup(g.vars, RETVAL) == Some(v);
    StepLoad(k.w, k.code, g, RETVAL);
    StepRet(k.w, k.code, Push(g, v).f, g.stack, v);
    RunAdd(k.w, k.code, 1, 1, d);
    n, c := 2, Done(v, g.vars, g.out);
  }

  // ---- switch ----

  lemma {:induction false} UnfoldSwitch(k: Ctx, s: Stmt, at: nat, st: State)
    requires s.Switch?
    ensures CodeBody(s, at, k.env) == CodeSwitch(s.on, s.cases, s.def, at, k.env)
    ensures Exec(k.w, s, st, k.catching) == ExecSwitch(k.w, s.on, s.cases, s.def, st, k.catching)
    ensures SizeS(s) == 1 + SizeCases(s.cases) + SizeOpt(s.def)
    ensures OkS(s, k.catching) ==
            (ExprOk(s.on) && OkCases(s.cases, k.catching) && OkOpt(s.def, k.catching))
    ensures StmtHasContinue(s) == (CasesHaveContinue(s.cases) || OptHasContinue(s.def))
  {
    hide CodeSwitch, ExecSwitch, ExprOk, OkCases, OkOpt, SizeCases, SizeOpt, CasesHaveContinue, OptHasContinue;
  }

  /** The case a switch on `v` enters; the number of cases stands for the default. */
  function Entry(w: World, v: Value, cases: seq<Case>, vars: Vars): Option<nat> {
    match Choose(w, v, cases, vars)
    case Chosen(i) => Some(i)
    case NoCase => Some(|cases|)
    case _ => None
  }

  lemma {:induction false} UnfoldExecSwitch(w: World, on: Expr, cases: seq<Case>, def: OptBlock, st: State, catching: bool)
    ensures var r := Eval(w, on, st.vars);
            var o := ExecSwitch(w, on, cases, def, st, catching);
            && (r.Exc? ==> o == Thrown(st, r.x))
            && (r.Val? ==>
                  var ch := Choose(w, r.v, cases, st.vars);
                  && (ch.Raised? ==> o == Thrown(st, ch.x))
                  && (ch.Chosen? || ch.NoCase? ==>
                        var i := Entry(w, r.v, cases, st.vars).value;
                        && i <= |cases|
                        && o == LeaveSwitch(ExecB(w, FallThrough(cases[i..], def), st, catching))))
  {
    hide ExecB, Choose, Eval, SizeCases, SizeOpt;
    assert cases[|cases|..] == [];
  }

  lemma {:induction false} RunSwitch(k: Ctx, s: Stmt, f: Frame, st: State) returns (n: nat, c: Config)
    requires Ready(k, f, st) && OkS(s, k.catching) && Aims(k.env, StmtHasBreak(s), StmtHasContinue(s))
    requires s.Switch? && AtCode(k, f.pc, CodeBody(s, f.pc, k.env))
    ensures RunN(k.w, k.code, n, Run(f)) == c
    ensures Ends(k, f, st.budget, Exec(k.w, s, st, k.catching), f.pc + |CodeBody(s, f.pc, k.env)|, n, c)
    decreases st.budget, SizeS(s) - 1 + SizeFins(k.env.fins), 8
  {
    hide RunN, At, AtCode, Ends, CodeBody, CodeSwitch, CodeE, CodeB, CodeDispatch, DispatchLen, Starts, FallThrough, Exec, ExecSwitch, Eval,
      OkS, ExprOk, OkCases, OkOpt, SizeS, SizeB, SizeCases, SizeOpt, SizeFins, CasesHaveContinue, OptHasContinue, SwitchVar,
      StmtHasBreak, StmtHasContinue, Lawful, OkFins, UserVars, Raises;
    UnfoldSwitch(k, s, f.pc, st);
    PlaceSwitch(k, s.on, s.cases, s.def, f.pc);
    UnfoldExecSwitch(k.w, s.on, s.cases, s.def, st, k.catching);
    var end := f.pc + |CodeBody(s, f.pc, k.env)|;
    n, c := RunUserExpr(k, s.on, f, st);
    var r := Eval(k.w, s.on, st.vars);
    if r.Exc? {
      EndsThrown(k, f, st.budget, st, r.x, end, n, c);
    } else {
      var at := f.pc + |CodeE(s.on, f.pc)|;
      var m, d := RunCases(k, s, f, st, r.v, at);
      RunAdd(k.w, k.code, n, m, Run(f));
      var f1 := f.(pc := at, stack := f.stack + [r.v]);
      SameKept(k, f, f1);
      EndsAfter(k, f, st.budget, f1, st.budget, n, Exec(k.w, s, st, k.catching), end, m, d);
      n, c := n + m, d;
    }
  }

  lemma {:induction false} StoredTemp(k: Ctx, f: Frame, st: State, at: nat, pc: nat, v: Value)
    requires Ready(k, f, st)
    ensures var g := SetVar(f.(pc := pc), SwitchVar(at), v);
            Ready(k, g, st) && Kept(k, f, g) && Lookup(g.vars, SwitchVar(at)) == Some(v)
  {
    hide Lawful, OkFins, SwitchVar, Fold, IsTemp, UserVars, RetSlot;
    SwitchVarIsTemp(at);
    UserVarsSet(f.vars, Fold(SwitchVar(at)), v);
  }

  lemma {:induction false} SwitchStored(k: Ctx, f: Frame, x: string, below: seq<Value>, v: Value)
    requires At(k.code, f.pc, [Declare(x), StoreVar(x)]) && f.stack == below + [v]
    ensures RunN(k.w, k.code, 2, Run(f)) == Run(SetVar(f.(pc := f.pc + 2, stack := below), x, v))
  {
    hide RunN, At, Fold;
    AtOne(k.code, f.pc, [Declare(x), StoreVar(x)], 0);
    AtOne(k.code, f.pc, [Declare(x), StoreVar(x)], 1);
    StepSkip(k.w, k.code, f, Declare(x));
    StepStore(k.w, k.code, Next(f).f, x, below, v);
    RunAdd(k.w, k.code, 1, 1, Run(f));
  }

  /** Store the value, dispatch, run the bodies from the chosen case on. */
  lemma {:induction false} RunCases(k: Ctx, s: Stmt, f: Frame, st: State, v: Value, at: nat) returns (n: nat, c: Config)
    requires Ready(k, f, st) && OkS(s, k.catching) && Aims(k.env, StmtHasBreak(s), StmtHasContinue(s))
    requires s.Switch? && AtCode(k, f.pc, CodeBody(s, f.pc, k.env))
    requires Eval(k.w, s.on, st.vars) == Val(v) && at == f.pc + |CodeE(s.on, f.pc)|
    ensures RunN(k.w, k.code, n, Run(f.(pc := at, stack := f.stack + [v]))) == c
    ensures Ends(k, f.(pc := at, stack := f.stack + [v]), st.budget, Exec(k.w, s, st, k.catching),
                 f.pc + |CodeBody(s, f.pc, k.env)|, n, c)
    decreases st.budget, SizeS(s) - 1 + SizeFins(k.env.fins), 7
  {
    hide RunN, At, AtCode, Ends, CodeBody, CodeSwitch, CodeE, CodeB, CodeDispatch, DispatchLen, Starts, FallThrough, Exec, ExecSwitch, Eval,
      OkS, ExprOk, OkCases, OkOpt, SizeS, SizeB, SizeCases, SizeOpt, SizeFins, CasesHaveContinue, OptHasContinue, SwitchVar,
      StmtHasBreak, StmtHasContinue, Lawful, OkFins, UserVars, Choose, Raises, Kept, Fold;
    UnfoldSwitch(k, s, f.pc, st);
    PlaceSwitch(k, s.on, s.cases, s.def, f.pc);
    UnfoldExecSwitch(k.w, s.on, s.cases, s.def, st, k.catching);
    var sv := SwitchVar(at);
    var f1 := f.(pc := at, stack := f.stack + [v]);
    var d := at + 2;
    var b := d + DispatchLen(sv, s.cases, d) + 1;
    var starts := Starts(s.cases, b, InSwitch(k.env));
    var end := f.pc + |CodeBody(s, f.pc, k.env)|;
    SwitchStored(k, f1, sv, f.stack, v);
    var f2 := SetVar(f.(pc := d), sv, v);
    StoredTemp(k, f, st, at, d, v);
    KeptFrom(k, f, f1, f2);
    var m, e := RunDispatch(k, sv, s.cases, starts[..|s.cases|], f2, st, v);
    RunAdd(k.w, k.code, 2, m, Run(f1));
    n, c := 2 + m, e;
    var ch := Choose(k.w, v, s.cases, st.vars);
    if ch.Raised? {
      EndsThrown(k, f2, st.budget, st, ch.x, end, m, e);
      EndsAfter(k, f1, st.budget, f2, st.budget, 2, Thrown(st, ch.x), end, m, e);
    } else {
      var i := Entry(k.w, v, s.cases, st.vars).value;
      if ch.NoCase? {
        AtOne(k.code, b - 1, [Jump(starts[|s.cases|])], 0);
        StepJump(k.w, k.code, e.f, starts[|s.cases|]);
        RunAdd(k.w, k.code, n, 1, Run(f1));
        n, c := n + 1, Goto(e.f, starts[|s.cases|]);
      }
      var g := f2.(pc := starts[i]);
      assert c == Run(g);
      SameKept(k, f2, g);
      KeptTrans(k, f1, f2, g);
      var m2, c2 := RunCaseBodies(k, s, f2, st, i, b);
      Chain(k, f1, st.budget, g, st.budget, n, Exec(k.w, s, st, k.catching), end, m2, c2);
      n, c := n + m2, c2;
    }
  }

  lemma {:induction false} KeptFrom(k: Ctx, f: Frame, f1: Frame, g: Frame)
    requires f1 == f.(pc := f1.pc, stack := f1.stack) && Kept(k, f, g)
    ensures Kept(k, f1, g)
  {
  }

  lemma {:induction false} SwitchReady(k: Ctx, f: Frame, st: State, brk: nat, pc: nat)
    requires Ready(k, f, st)
    ensures Ready(SwitchCtx(k, brk), f.(pc := pc), st)
  {
    hide Lawful, OkFins, UserVars;
  }

  lemma {:induction false} SwitchAims(env: Env, hasBreak: bool, hasContinue: bool, more: bool)
    requires Aims(env, hasBreak, more) && (hasContinue ==> more)
    ensures Aims(InSwitch(env), true, hasContinue)
  {
  }

  /** A switch body's endings, seen from outside the switch. */
  lemma {:induction false} LeaveSwitchEnds(k: Ctx, brk: nat, f: Frame, b: nat, o: Outcome, n: nat, c: Config)
    requires Ends(SwitchCtx(k, brk), f, b, o, brk, n, c)
    ensures Ends(k, f, b, LeaveSwitch(o), brk, n, c)
  {
    hide Match, Raises, Returns, Unwind, FinsAbove;
    if o.Broke? {
      NoneAbove(k.env.fins, k.w, o.st, k.catching);
    } else if o.Thrown? {
      SameRaises(k, SwitchCtx(k, brk), f, b, o.st, o.x, n, c);
    }
  }

  lemma {:induction false} RunCaseBodies(k: Ctx, s: Stmt, f: Frame, st: State, i: nat, b: nat) returns (n: nat, c: Config)
    requires Ready(k, f, st) && OkS(s, k.catching) && Aims(k.env, StmtHasBreak(s), StmtHasContinue(s))
    requires s.Switch? && i <= |s.cases|
    requires var a := CodeB(FallThrough(s.cases, s.def), b, InSwitch(k.env)); AtCode(SwitchCtx(k, b + |a|), b, a)
    ensures var pc := Starts(s.cases, b, InSwitch(k.env))[i];
            && RunN(k.w, k.code, n, Run(f.(pc := pc))) == c
            && Ends(k, f.(pc := pc), st.budget,
                    LeaveSwitch(ExecB(k.w, FallThrough(s.cases[i..], s.def), st, k.catching)),
                    b + |CodeB(FallThrough(s.cases, s.def), b, InSwitch(k.env))|, n, c)
    decreases st.budget, SizeS(s) - 1 + SizeFins(k.env.fins), 6
  {
    hide RunN, AtCode, Ends, CodeB, Starts, FallThrough, ExecB, OkS, OkB, OkCases, OkOpt, SizeS, SizeB, SizeCases, SizeOpt, SizeFins,
      HasBreak, HasContinue, CasesHaveContinue, OptHasContinue, StmtHasBreak, StmtHasContinue, Ready, Aims, Exec, CodeBody, CodeSwitch, ExecSwitch,
      LeaveSwitch, Jumps, Unwind;
    UnfoldSwitch(k, s, 0, st);
    var all := CodeB(FallThrough(s.cases, s.def), b, InSwitch(k.env));
    var ks := SwitchCtx(k, b + |all|);
    var body := FallThrough(s.cases[i..], s.def);
    var pc := Starts(s.cases, b, InSwitch(k.env))[i];
    StartsAt(ks, s.cases, s.def, i, b);
    OkFallThrough(s.cases, s.def, i, k.catching);
    HasContinueFallThrough(s.cases, i, s.def);
    SizeCasesSuffix(s.cases, i);
    SwitchReady(k, f, st, b + |all|, pc);
    SwitchAims(k.env, StmtHasBreak(s), HasContinue(body), StmtHasContinue(s));
    AimsLess(InSwitch(k.env), HasBreak(body), HasContinue(body));
    n, c := RunB(ks, body, f.(pc := pc), st);
    LeaveSwitchEnds(k, b + |all|, f.(pc := pc), st.budget, ExecB(k.w, body, st, k.catching), n, c);
  }

  lemma {:induction false} AimsLess(env: Env, hasBreak: bool, hasContinue: bool)
    requires Aims(env, true, hasContinue)
    ensures Aims(env, hasBreak, hasContinue)
  {
  }

  // ---- try ----

  /** Complete `o` by running the `finally` body, if there is one. */
  function Finish(w: World, fin: OptBlock, o: Outcome, catching: bool): Outcome {
    if !o.Ended() || fin.Absent? then o
    else AfterFinally(w, o, ExecB(w, fin.ss, Pending(o), catching))
  }

  lemma {:induction false} UnfoldTry(k: Ctx, s: Stmt, at: nat, st: State)
    requires s.Try?
    ensures CodeBody(s, at, k.env) == CodeTry(s.body, s.catches, s.fin, at, k.env)
    ensures var o := ExecB(k.w, s.body, Inside(st), k.catching);
            && Within(o, Inside(st))
            && (o.Thrown? && !k.catching ==> Exec(k.w, s, st, k.catching) == o)
            && (o.Thrown? && k.catching && o.st.held == st.held + 1 ==>
                  var st1 := o.st.(held := st.held);
                  && Within(ExecCatch(k.w, s.catches, s.fin.Block?, o.x, st1), st1)
                  && Exec(k.w, s, st, k.catching)
                     == Finish(k.w, s.fin, ExecCatch(k.w, s.catches, s.fin.Block?, o.x, st1), k.catching))
            && (o.Thrown? && k.catching && o.st.held != st.held + 1 && k.w.watch ==> Exec(k.w, s, st, k.catching) == Stuck)
            && (!o.Thrown? ==> Exec(k.w, s, st, k.catching) == Finish(k.w, s.fin, Completed(o), k.catching))
    ensures SizeS(s) == 1 + SizeB(s.body) + SizeCatches(s.catches) + SizeOpt(s.fin)
    ensures OkS(s, k.catching) ==>
            && OkB(s.body, k.catching) && OkCatches(s.catches, k.catching) && OkOpt(s.fin, k.catching)
            && !OptHasBreak(s.fin) && !OptHasContinue(s.fin)
    ensures StmtHasBreak(s) == (HasBreak(s.body) || CatchesHaveBreak(s.catches) || OptHasBreak(s.fin))
    ensures StmtHasContinue(s) == (HasContinue(s.body) || CatchesHaveContinue(s.catches) || OptHasContinue(s.fin))
  {
    hide CodeTry, ExecB, ExecCatch, OkB, OkCatches, OkOpt, SizeB, SizeCatches, SizeOpt, HasBreak, HasContinue,
      CatchesHaveBreak, CatchesHaveContinue, OptHasBreak, OptHasContinue;
  }

  /** The frame inside a `try` body: one more handler, nothing else changed. */
  ghost predicate Guarded(f: Frame, f1: Frame) {
    RetSlot(f1.vars) == RetSlot(f.vars) && f.handlers <= f1.handlers
  }

  function ThenUnwind(w: World, fins: seq<seq<Stmt>>, o: Outcome, catching: bool): Outcome {
    match o
    case Normal(st) => Unwind(w, fins, st, catching)
    case Timeout => Timeout
    case _ => Stuck
  }

  lemma {:induction false} UnwindSnoc(w: World, fins: seq<seq<Stmt>>, f: seq<Stmt>, st: State, catching: bool)
    ensures Unwind(w, fins + [f], st, catching) == ThenUnwind(w, fins, ExecB(w, f, st, catching), catching)
  {
    hide ExecB;
    assert (fins + [f])[..|fins|] == fins;
  }

  lemma {:induction false} FinsAboveSnoc(fins: seq<seq<Stmt>>, f: seq<Stmt>, depth: nat)
    requires depth <= |fins|
    ensures FinsAbove(fins + [f], depth) == FinsAbove(fins, depth) + [f]
  {
  }

  /** What is left to a jump once the bodies it leaves have run with outcome `u`. */
  ghost predicate JumpsAs(k: Ctx, f0: Frame, b0: nat, u: Outcome, lands: bool, target: nat, n: nat, c: Config) {
    && (u.Normal? ==> if lands then Lands(k, f0, b0, u.st, target, n, c) else Returns(b0, u.st, Null, n, c))
    && (u.Timeout? ==> c.Run? && n >= b0)
  }

  lemma {:induction false} UnfoldJumps(k: Ctx, f0: Frame, b0: nat, st: State, depth: Option<nat>, target: nat, n: nat, c: Config)
    ensures var fins := if depth.Some? then FinsAbove(k.env.fins, depth.value) else k.env.fins;
            Jumps(k, f0, b0, st, depth, target, n, c)
            == JumpsAs(k, f0, b0, Unwind(k.w, fins, st, k.catching), depth.Some?, target, n, c)
  {
    hide Unwind, FinsAbove, Lands, Returns;
  }

  lemma {:induction false} GuardedJumps(k: Ctx, fin: OptBlock, f0: Frame, f1: Frame, b: nat, u: Outcome, lands: bool, target: nat, n: nat, c: Config)
    requires JumpsAs(TryCtx(k, fin), f1, b, u, lands, target, n, c)
    requires Guarded(f0, f1)
    ensures JumpsAs(k, f0, b, u, lands, target, n, c)
  {
    hide Match, RetSlot, Returns;
  }

  /** A jump out of a `try` body runs its `finally` body, then those further out. */
  lemma {:induction false} FinallyFirst(k: Ctx, f: seq<Stmt>, f1: Frame, b: nat, st: State, depth: Option<nat>, target: nat, n: nat, c: Config)
    requires Jumps(TryCtx(k, Block(f)), f1, b, st, depth, target, n, c)
    requires depth.Some? ==> depth.value <= |k.env.fins|
    ensures var fins := if depth.Some? then FinsAbove(k.env.fins, depth.value) else k.env.fins;
            JumpsAs(TryCtx(k, Block(f)), f1, b, ThenUnwind(k.w, fins, ExecB(k.w, f, st, k.catching), k.catching),
                    depth.Some?, target, n, c)
  {
    hide ExecB, Unwind, FinsAbove, Jumps, JumpsAs, ThenUnwind;
    UnfoldJumps(TryCtx(k, Block(f)), f1, b, st, depth, target, n, c);
    if depth.Some? {
      FinsAboveSnoc(k.env.fins, f, depth.value);
      UnwindSnoc(k.w, FinsAbove(k.env.fins, depth.value), f, st, k.catching);
    } else {
      UnwindSnoc(k.w, k.env.fins, f, st, k.catching);
    }
  }

  /** A jump out of a `try` body has run its `finally` body first. */
  lemma {:induction false} JumpLeavesTry(k: Ctx, f: seq<Stmt>, f0: Frame, f1: Frame, b: nat, st: State, depth: Option<nat>, target: nat,
                      n: nat, c: Config)
    requires Jumps(TryCtx(k, Block(f)), f1, b, st, depth, target, n, c)
    requires Guarded(f0, f1)
    requires depth.Some? ==> depth.value <= |k.env.fins|
    ensures var o := ExecB(k.w, f, st, k.catching);
            && (o.Normal? ==> Jumps(k, f0, b, o.st, depth, target, n, c))
            && (o.Timeout? ==> c.Run? && n >= b)
  {
    hide ExecB, Unwind, FinsAbove, Jumps, Lands, Returns, Guarded, JumpsAs, TryCtx;
    var fins := if depth.Some? then FinsAbove(k.env.fins, depth.value) else k.env.fins;
    FinallyFirst(k, f, f1, b, st, depth, target, n, c);
    var o := ExecB(k.w, f, st, k.catching);
    var u := ThenUnwind(k.w, fins, o, k.catching);
    GuardedJumps(k, Block(f), f0, f1, b, u, depth.Some?, target, n, c);
    if o.Normal? {
      UnfoldJumps(k, f0, b, o.st, depth, target, n, c);
    } else if o.Timeout? {
      JumpsTimeout(k, f0, b, depth.Some?, target, n, c);
    }
  }

  lemma {:induction false} JumpsTimeout(k: Ctx, f0: Frame, b: nat, lands: bool, target: nat, n: nat, c: Config)
    requires JumpsAs(k, f0, b, Timeout, lands, target, n, c)
    ensures c.Run? && n >= b
  {
  }

  lemma {:induction false} ReadyWatch(k: Ctx, f: Frame, st: State)
    requires Ready(k, f, st)
    ensures k.w.watch
  {
    hide Lawful, OkFins, Match;
  }

  /** A pending outcome is completed by a `finally` body that ends normally; otherwise nothing is claimed. */
  lemma {:induction false} UnfoldFinish(w: World, fin: OptBlock, o: Outcome, catching: bool)
    requires w.watch && o.Ended() && !o.Normal? && !o.Thrown? && fin.Block?
    ensures var f := ExecB(w, fin.ss, o.st, catching);
            Finish(w, fin, o, catching)
            == if f.Normal? then WithState(o, f.st) else if f.Timeout? then Timeout else Stuck
  {
    hide ExecB;
  }

  lemma {:induction false} EndsJump(k: Ctx, f: Frame, b: nat, st: State, end: nat, n: nat, c: Config)
    ensures Ends(k, f, b, Broke(st), end, n, c) <==> Jumps(k, f, b, st, k.env.brk, k.brkT, n, c)
    ensures Ends(k, f, b, Continued(st), end, n, c) <==> Jumps(k, f, b, st, k.env.cont, k.contT, n, c)
  {
    hide Jumps;
  }

  lemma {:induction false} LeaveByJump(k: Ctx, fin: OptBlock, f0: Frame, f1: Frame, b: nat, o: Outcome, end: nat, end': nat, n: nat, c: Config)
    requires k.w.watch && fin.Block? && (o.Broke? || o.Continued?)
    requires Ends(TryCtx(k, fin), f1, b, o, end, n, c)
    requires Guarded(f0, f1) && Aims(k.env, o.Broke?, o.Continued?)
    ensures Ends(k, f0, b, Finish(k.w, fin, o, k.catching), end', n, c)
  {
    hide ExecB, Ends, Jumps, Finish, Guarded;
    UnfoldFinish(k.w, fin, o, k.catching);
    EndsJump(TryCtx(k, fin), f1, b, o.st, end, n, c);
    var f := ExecB(k.w, fin.ss, o.st, k.catching);
    if o.Broke? {
      JumpLeavesTry(k, fin.ss, f0, f1, b, o.st, k.env.brk, k.brkT, n, c);
    } else {
      JumpLeavesTry(k, fin.ss, f0, f1, b, o.st, k.env.cont, k.contT, n, c);
    }
    if f.Normal? {
      EndsJump(k, f0, b, f.st, end', n, c);
    } else if f.Timeout? {
      EndsTimeout(k, f0, b, end', n, c);
    } else {
      EndsStuck(k, f0, b, end', n, c);
    }
  }

  /** An ending by return, in terms of how the pending bodies ran. */
  ghost predicate ReturnsAs(b: nat, u: Outcome, v: Value, n: nat, c: Config) {
    (u.Normal? ==> Returns(b, u.st, v, n, c)) && (u.Timeout? ==> c.Run? && n >= b)
  }

  lemma {:induction false} UnfoldReturned(k: Ctx, f: Frame, b: nat, st: State, v: Value, end: nat, n: nat, c: Config)
    ensures Ends(k, f, b, Returned(st, v), end, n, c) <==> ReturnsAs(b, Unwind(k.w, k.env.fins, st, k.catching), v, n, c)
  {
    hide Unwind, Returns;
  }

  lemma {:induction false} LeaveByReturn(k: Ctx, fin: OptBlock, f0: Frame, f1: Frame, b: nat, o: Outcome, end: nat, end': nat, n: nat, c: Config)
    requires k.w.watch && fin.Block? && o.Returned? && Ends(TryCtx(k, fin), f1, b, o, end, n, c)
    ensures Ends(k, f0, b, Finish(k.w, fin, o, k.catching), end', n, c)
  {
    hide ExecB, Ends, Finish, Unwind, Returns;
    UnfoldFinish(k.w, fin, o, k.catching);
    UnfoldReturned(TryCtx(k, fin), f1, b, o.st, o.v, end, n, c);
    UnwindSnoc(k.w, k.env.fins, fin.ss, o.st, k.catching);
    var f := ExecB(k.w, fin.ss, o.st, k.catching);
    if f.Normal? {
      UnfoldReturned(k, f0, b, f.st, o.v, end', n, c);
    } else if f.Timeout? {
      EndsTimeout(k, f0, b, end', n, c);
    } else {
      EndsStuck(k, f0, b, end', n, c);
    }
  }

  /** The endings of a guarded body other than completing and throwing. */
  lemma {:induction false} LeaveTry(k: Ctx, fin: OptBlock, f0: Frame, f1: Frame, b: nat, o: Outcome, end: nat, end': nat, n: nat, c: Config)
    requires Ends(TryCtx(k, fin), f1, b, o, end, n, c) && !o.Normal? && !o.Thrown? && k.w.watch
    requires Guarded(f0, f1) && Aims(k.env, o.Broke?, o.Continued?)
    ensures Ends(k, f0, b, Finish(k.w, fin, o, k.catching), end', n, c)
  {
    hide Ends, Guarded, Aims, ExecB;
    if fin.Absent? {
      LeaveBareTry(k, f0, f1, b, o, end, end', n, c);
    } else if o.Broke? || o.Continued? {
      LeaveByJump(k, fin, f0, f1, b, o, end, end', n, c);
    } else if o.Returned? {
      LeaveByReturn(k, fin, f0, f1, b, o, end, end', n, c);
    } else if o.Timeout? {
      EndsTimeout(k, f0, b, end', n, c);
      EndsTimeout(TryCtx(k, fin), f1, b, end, n, c);
    } else {
      EndsStuck(k, f0, b, end', n, c);
    }
  }

  lemma {:induction false} LeaveBareTry(k: Ctx, f0: Frame, f1: Frame, b: nat, o: Outcome, end: nat, end': nat, n: nat, c: Config)
    requires Ends(k, f1, b, o, end, n, c) && !o.Normal? && !o.Thrown? && Guarded(f0, f1)
    ensures Ends(k, f0, b, o, end', n, c)
  {
    hide Unwind, Match, RetSlot, Returns, Raises, FinsAbove;
  }

  lemma {:induction false} TryReady(k: Ctx, fin: OptBlock, f: Frame, st: State)
    requires Ready(k, f, st) && OkOpt(fin, k.catching) && !OptHasBreak(fin) && !OptHasContinue(fin)
    ensures Ready(TryCtx(k, fin), f, st)
  {
    hide Lawful, Match, OkB, HasBreak, HasContinue;
  }

  lemma {:induction false} BaseReady(k: Ctx, f: Frame, st: State, base: nat)
    requires Ready(k, f, st)
    ensures Ready(k.(base := base), f, st)
  {
    hide Lawful, Match, OkFins;
  }

  lemma {:induction false} AtBodyCtx(k: Ctx, fin: OptBlock, base: nat, at: nat, es: seq<Emit>)
    ensures AtCode(BodyCtx(k, fin, base), at, es) == AtCode(TryCtx(k, fin), at, es)
  {
  }

  /** Only exceptions depend on the handlers around the code. */
  lemma {:induction false} EndsRebased(k: Ctx, base: nat, f: Frame, b: nat, o: Outcome, end: nat, n: nat, c: Config)
    requires Ends(k.(base := base), f, b, o, end, n, c) && !o.Thrown?
    ensures Ends(k, f, b, o, end, n, c)
  {
    hide Unwind, Match, Returns, FinsAbove, Kept;
    assert forall f1 :: Kept(k.(base := base), f, f1) == Kept(k, f, f1) by { SameKeptAt(k, base, f); }
  }

  lemma {:induction false} SameKeptAt(k: Ctx, base: nat, f: Frame)
    ensures forall f1 :: Kept(k.(base := base), f, f1) == Kept(k, f, f1)
  {
  }

  lemma {:induction false} TryAims(env: Env, fin: OptBlock, hasBreak: bool, hasContinue: bool)
    requires Aims(env, hasBreak, hasContinue)
    ensures Aims(Within1(env, fin), hasBreak, hasContinue)
  {
  }

  lemma {:induction false} TrySize(env: Env, fin: OptBlock)
    ensures SizeFins(Within1(env, fin).fins) == SizeFins(env.fins) + SizeOpt(fin)
  {
  }

  lemma {:induction false} EnterTry(k: Ctx, f: Frame, st: State, t: nat)
    requires Ready(k, f, st) && At(k.code, f.pc, [TryStart(t)])
    ensures var f1 := f.(pc := f.pc + 1, handlers := f.handlers + [Handler(t, |f.stack|)]);
            && RunN(k.w, k.code, 1, Run(f)) == Run(f1)
            && Ready(k, f1, Inside(st)) && Guarded(f, f1)
  {
    hide RunN, At, Lawful, OkFins, UserVars;
    AtOne(k.code, f.pc, [TryStart(t)], 0);
    StepTryStart(k.w, k.code, f, t);
  }

  lemma {:induction false} RunTry(k: Ctx, s: Stmt, f: Frame, st: State) returns (n: nat, c: Config)
    requires Ready(k, f, st) && OkS(s, k.catching) && Aims(k.env, StmtHasBreak(s), StmtHasContinue(s))
    requires s.Try? && AtCode(k, f.pc, CodeBody(s, f.pc, k.env))
    ensures RunN(k.w, k.code, n, Run(f)) == c
    ensures Ends(k, f, st.budget, Exec(k.w, s, st, k.catching), f.pc + |CodeBody(s, f.pc, k.env)|, n, c)
    decreases st.budget, SizeS(s) - 1 + SizeFins(k.env.fins), 9
  {
    hide RunN, At, AtCode, Ends, CodeBody, CodeTry, CodeB, CodeClauses, CodeRethrow, Exec, ExecB, ExecCatch, Finish, OkS, OkB, OkCatches, OkOpt,
      SizeS, SizeB, SizeCatches, SizeOpt, SizeFins, Ready, Guarded, Aims, HasBreak, HasContinue, CatchesHaveBreak,
      CatchesHaveContinue, OptHasBreak, OptHasContinue, StmtHasBreak, StmtHasContinue, Within1, BodyOf;
    UnfoldTry(k, s, f.pc, st);
    var fa := f.pc + 1 + |CodeB(s.body, f.pc + 1, Within1(k.env, s.fin))| + 1;
    var handler;
    if s.catches == [] && s.fin.Block? {
      PlaceTryFinally(k, s.body, s.fin, f.pc);
      handler := fa + |CodeB(s.fin.ss, fa, k.env)| + 1;
    } else {
      PlaceTryCatch(k, s.body, s.catches, s.fin, f.pc);
      handler := fa + 1;
    }
    EnterTry(k, f, st, handler);
    var f1 := f.(pc := f.pc + 1, handlers := f.handlers + [Handler(handler, |f.stack|)]);
    TryReady(k, s.fin, f1, Inside(st));
    BaseReady(TryCtx(k, s.fin), f1, Inside(st), |f1.handlers|);
    TrySize(k.env, s.fin);
    AimsPart(k.env, StmtHasBreak(s), StmtHasContinue(s), HasBreak(s.body), HasContinue(s.body));
    TryAims(k.env, s.fin, HasBreak(s.body), HasContinue(s.body));
    AtBodyCtx(k, s.fin, |f1.handlers|, f.pc + 1, CodeB(s.body, f.pc + 1, Within1(k.env, s.fin)));
    var m, d := RunB(BodyCtx(k, s.fin, |f1.handlers|), s.body, f1, Inside(st));
    RunAdd(k.w, k.code, 1, m, Run(f));
    n, c := AfterTryBody(k, s, f, st, f1, handler, m, d);
  }

  lemma {:induction false} AimsPart(env: Env, b: bool, c: bool, b': bool, c': bool)
    requires Aims(env, b, c) && (b' ==> b) && (c' ==> c)
    ensures Aims(env, b', c')
  {
  }

  /** Where `try` code keeps its handler. */
  ghost function HandlerOf(k: Ctx, s: Stmt, at: nat): nat
    requires s.Try?
  {
    var fa := at + 1 + |CodeB(s.body, at + 1, Within1(k.env, s.fin))| + 1;
    if s.catches == [] && s.fin.Block? then fa + |CodeB(s.fin.ss, fa, k.env)| + 1 else fa + 1
  }

  lemma {:induction false} AfterTryBody(k: Ctx, s: Stmt, f: Frame, st: State, f1: Frame, handler: nat, m: nat, d: Config)
    returns (n: nat, c: Config)
    requires Ready(k, f, st) && OkS(s, k.catching) && Aims(k.env, StmtHasBreak(s), StmtHasContinue(s))
    requires s.Try? && AtCode(k, f.pc, CodeBody(s, f.pc, k.env)) && handler == HandlerOf(k, s, f.pc)
    requires f1 == f.(pc := f.pc + 1, handlers := f.handlers + [Handler(handler, |f.stack|)])
    requires RunN(k.w, k.code, 1 + m, Run(f)) == d
    requires var mid := f.pc + 1 + |CodeB(s.body, f.pc + 1, Within1(k.env, s.fin))|;
             Ends(BodyCtx(k, s.fin, |f1.handlers|), f1, st.budget, ExecB(k.w, s.body, Inside(st), k.catching), mid, m, d)
    ensures RunN(k.w, k.code, n, Run(f)) == c
    ensures Ends(k, f, st.budget, Exec(k.w, s, st, k.catching), f.pc + |CodeBody(s, f.pc, k.env)|, n, c)
    decreases st.budget, SizeS(s) - 1 + SizeFins(k.env.fins), 8
  {
    hide RunN, At, AtCode, Ends, Lands, Raises, CodeBody, CodeB, Exec, ExecB, ExecCatch, Finish, OkS, OkB, OkCatches, OkOpt,
      SizeS, SizeB, SizeCatches, SizeOpt, SizeFins, Ready, Aims, HasBreak, HasContinue, CatchesHaveBreak, HandlerOf,
      CatchesHaveContinue, OptHasBreak, OptHasContinue, StmtHasBreak, StmtHasContinue, Within1, RetSlot;
    UnfoldTry(k, s, f.pc, st);
    var mid := f.pc + 1 + |CodeB(s.body, f.pc + 1, Within1(k.env, s.fin))|;
    var end := f.pc + |CodeBody(s, f.pc, k.env)|;
    var o := ExecB(k.w, s.body, Inside(st), k.catching);
    var kb := BodyCtx(k, s.fin, |f1.handlers|);
    ReadyWatch(k, f, st);
    if o.Thrown? {
      if !k.catching {
        n, c := 1 + m, d;
        EndsThrown(k, f, st.budget, o.st, o.x, end, n, c);
      } else if o.st.held == st.held + 1 {
        EndsThrown(kb, f1, st.budget, o.st, o.x, mid, m, d);
        n, c := TryThrows(k, s, f, st, f1, handler, m, d);
      } else {
        n, c := 1 + m, d;
        EndsStuck(k, f, st.budget, end, n, c);
      }
    } else {
      EndsRebased(TryCtx(k, s.fin), |f1.handlers|, f1, st.budget, o, mid, m, d);
      if o.Normal? {
        EndsNormal(TryCtx(k, s.fin), f1, st.budget, o.st, mid, m, d);
        n, c := TryCompletes(k, s, f, st, f1, handler, m, d);
      } else {
        BlockJumps(k.w, s.body, Inside(st), k.catching);
        AimsPart(k.env, StmtHasBreak(s), StmtHasContinue(s), o.Broke?, o.Continued?);
        LeaveTry(k, s.fin, f, f1, st.budget, o, mid, end, m, d);
        n, c := 1 + m, d;
        SameKept(k, f, f);
        EndsAfter(k, f, st.budget, f, st.budget, 1, Exec(k.w, s, st, k.catching), end, m, d);
      }
    }
  }

  /** `TryEnd` removes the handler the `try` installed. */
  lemma {:induction false} TryEndKept(k: Ctx, fin: OptBlock, f: Frame, f1: Frame, b: nat, st: State, pc: nat, n: nat, c: Config, h: Handler)
    requires f1 == f.(pc := f1.pc, handlers := f.handlers + [h])
    requires Lands(TryCtx(k, fin), f1, b, st, pc, n, c)
    ensures st.held > 0
    ensures Lands(k, f, b, Completed(Normal(st)).st, pc + 1, n + 1, Run(c.f.(pc := pc + 1, handlers := Front(c.f.handlers))))
  {
    hide UserVars, RetSlot;
    assert |f1.handlers| <= |c.f.handlers| && c.f.handlers[..|f1.handlers|] == f1.handlers;
    assert Front(c.f.handlers)[..|f.handlers|] == f1.handlers[..|f.handlers|] == f.handlers;
  }

  /** The body completed: remove the handler, run the `finally` body, go on. */
  lemma {:induction false} TryCompletes(k: Ctx, s: Stmt, f: Frame, st: State, f1: Frame, handler: nat, m: nat, d: Config)
    returns (n: nat, c: Config)
    requires Ready(k, f, st) && OkS(s, k.catching)
    requires s.Try? && AtCode(k, f.pc, CodeBody(s, f.pc, k.env)) && handler == HandlerOf(k, s, f.pc)
    requires f1 == f.(pc := f.pc + 1, handlers := f.handlers + [Handler(handler, |f.stack|)])
    requires RunN(k.w, k.code, 1 + m, Run(f)) == d && ExecB(k.w, s.body, Inside(st), k.catching).Normal?
    requires var mid := f.pc + 1 + |CodeB(s.body, f.pc + 1, Within1(k.env, s.fin))|;
             Lands(TryCtx(k, s.fin), f1, st.budget, ExecB(k.w, s.body, Inside(st), k.catching).st, mid, m, d)
    ensures RunN(k.w, k.code, n, Run(f)) == c
    ensures Ends(k, f, st.budget, Exec(k.w, s, st, k.catching), f.pc + |CodeBody(s, f.pc, k.env)|, n, c)
    decreases st.budget, SizeS(s) - 1 + SizeFins(k.env.fins), 7
  {
    hide RunN, At, AtCode, Ends, Lands, CodeBody, CodeTry, CodeB, CodeClauses, CodeRethrow, Exec, ExecB, ExecCatch, OkS, OkB, OkCatches, OkOpt,
      SizeS, SizeB, SizeCatches, SizeOpt, SizeFins, Ready, HasBreak, HasContinue, CatchesHaveBreak, CatchesHaveContinue,
      OptHasBreak, OptHasContinue, StmtHasBreak, StmtHasContinue, Within1, HandlerOf;
    UnfoldTry(k, s, f.pc, st);
    var st0 := ExecB(k.w, s.body, Inside(st), k.catching).st;
    var st1 := Completed(Normal(st0)).st;
    var mid := f.pc + 1 + |CodeB(s.body, f.pc + 1, Within1(k.env, s.fin))|;
    var end := f.pc + |CodeBody(s, f.pc, k.env)|;
    LandsRuns(TryCtx(k, s.fin), f1, st.budget, st0, mid, m, d);
    TryEndKept(k, s.fin, f, f1, st.budget, st0, mid, m, d, Handler(handler, |f.stack|));
    var g := d.f.(pc := mid + 1, handlers := Front(d.f.handlers));
    MoreLands(k, f, st.budget, st1, mid + 1, m + 1, 1 + m + 1, Run(g));
    if s.catches == [] && s.fin.Block? {
      PlaceTryFinally(k, s.body, s.fin, f.pc);
      FinBlock(k, s.fin);
      AtOne(k.code, mid, [TryEnd], 0);
      StepTryEnd(k.w, k.code, d.f);
      RunAdd(k.w, k.code, 1 + m, 1, Run(f));
      var after := mid + 1 + |CodeB(s.fin.ss, mid + 1, k.env)|;
      n, c := RunFinally(k, s.fin.ss, f, st, st1, mid + 1, 1 + m + 1, Run(g), after);
      var o := ExecB(k.w, s.fin.ss, st1, k.catching);
      if o.Normal? {
        EndsNormal(k, f, st.budget, o.st, after, n, c);
        LandsThenJump(k, f, st.budget, o.st, after, n, c, end);
        LandsRuns(k, f, st.budget, o.st, after, n, c);
        n, c := n + 1, Run(c.f.(pc := end));
        EndsNormal(k, f, st.budget, o.st, end, n, c);
      } else {
        EndsElsewhere(k, f, st.budget, o, after, end, n, c);
      }
    } else {
      n, c := TryCatchCompletes(k, s, f, st, g, m, d);
    }
  }

  lemma {:induction false} MoreLands(k: Ctx, f: Frame, b: nat, st: State, pc: nat, n: nat, n': nat, c: Config)
    requires Lands(k, f, b, st, pc, n, c) && n <= n'
    ensures Lands(k, f, b, st, pc, n', c)
  {
  }

  /** Run a `finally` body from a position the machine has landed on. */
  lemma {:induction false} RunFinally(
      k: Ctx, fb: seq<Stmt>, f: Frame, st: State, st1: State, pc: nat, n0: nat, c0: Config, after: nat)
    returns (n: nat, c: Config)
    requires Ready(k, f, st) && OkB(fb, k.catching) && !HasBreak(fb) && !HasContinue(fb)
    requires RunN(k.w, k.code, n0, Run(f)) == c0 && Lands(k, f, st.budget, st1, pc, n0, c0)
    requires AtCode(k, pc, CodeB(fb, pc, k.env)) && after == pc + |CodeB(fb, pc, k.env)| && st1.budget <= st.budget
    ensures RunN(k.w, k.code, n, Run(f)) == c
    ensures Ends(k, f, st.budget, ExecB(k.w, fb, st1, k.catching), after, n, c)
    decreases st1.budget, SizeB(fb) + SizeFins(k.env.fins), 4
  {
    hide RunN, AtCode, Ends, Lands, CodeB, ExecB, SizeB, SizeFins, Ready, HasBreak, HasContinue;
    LandsReady(k, f, st.budget, f, st, st1, pc, n0, c0);
    var m, d := RunB(k, fb, c0.f, st1);
    ChainLands(k, f, st.budget, st1, pc, n0, c0, ExecB(k.w, fb, st1, k.catching), after, m, d);
    n, c := n0 + m, d;
  }

  lemma {:induction false} FinBlock(k: Ctx, fin: OptBlock)
    ensures OkOpt(fin, k.catching) ==> OkB(BodyOf(fin), k.catching)
    ensures HasBreak(BodyOf(fin)) == OptHasBreak(fin) && HasContinue(BodyOf(fin)) == OptHasContinue(fin)
    ensures SizeB(BodyOf(fin)) <= SizeOpt(fin)
    ensures fin.Block? ==> BodyOf(fin) == fin.ss
  {
  }

  /** After a body that completed, the `finally` body decides. */
  lemma {:induction false} FinishBody(w: World, fin: OptBlock, st: State, catching: bool)
    ensures Finish(w, fin, Normal(st), catching) == ExecB(w, BodyOf(fin), st, catching)
  {
    if fin.Absent? {
      assert ExecB(w, [], st, catching) == Normal(st);
    }
  }

  lemma {:induction false} TryCatchCompletes(k: Ctx, s: Stmt, f: Frame, st: State, g: Frame, m: nat, d: Config)
    returns (n: nat, c: Config)
    requires Ready(k, f, st) && OkS(s, k.catching) && s.Try? && (s.catches != [] || s.fin.Absent?)
    requires AtCode(k, f.pc, CodeBody(s, f.pc, k.env)) && ExecB(k.w, s.body, Inside(st), k.catching).Normal?
    requires var mid := f.pc + 1 + |CodeB(s.body, f.pc + 1, Within1(k.env, s.fin))|;
             && RunN(k.w, k.code, 1 + m, Run(f)) == d && d.Run? && d.f.pc == mid
             && g == d.f.(pc := mid + 1, handlers := Front(d.f.handlers))
             && Lands(k, f, st.budget, Completed(ExecB(k.w, s.body, Inside(st), k.catching)).st, mid + 1, 1 + m + 1, Run(g))
    ensures RunN(k.w, k.code, n, Run(f)) == c
    ensures Ends(k, f, st.budget, Exec(k.w, s, st, k.catching), f.pc + |CodeBody(s, f.pc, k.env)|, n, c)
    decreases st.budget, SizeS(s) - 1 + SizeFins(k.env.fins), 6
  {
    hide RunN, At, AtCode, Ends, Lands, CodeBody, CodeTry, CodeB, CodeClauses, Exec, ExecB, ExecCatch, OkS, OkB, OkCatches, OkOpt,
      SizeS, SizeB, SizeCatches, SizeOpt, SizeFins, Ready, HasBreak, HasContinue, CatchesHaveBreak, CatchesHaveContinue,
      OptHasBreak, OptHasContinue, StmtHasBreak, StmtHasContinue, Within1, BodyOf, Finish;
    UnfoldTry(k, s, f.pc, st);
    PlaceTryCatch(k, s.body, s.catches, s.fin, f.pc);
    FinBlock(k, s.fin);
    var st1 := Completed(ExecB(k.w, s.body, Inside(st), k.catching)).st;
    var mid := f.pc + 1 + |CodeB(s.body, f.pc + 1, Within1(k.env, s.fin))|;
    var tail := mid + 2 + |CodeClauses(s.catches, s.fin, mid + 2, k.env)|;
    var end := f.pc + |CodeBody(s, f.pc, k.env)|;
    var ops := [TryEnd, Jump(tail)];
    AtOne(k.code, mid, ops, 0);
    AtOne(k.code, mid, ops, 1);
    StepTryEnd(k.w, k.code, d.f);
    RunAdd(k.w, k.code, 1 + m, 1, Run(f));
    StepJump(k.w, k.code, g, tail);
    RunAdd(k.w, k.code, 1 + m + 1, 1, Run(f));
    LandsNext(k, f, st.budget, st1, mid + 1, 1 + m + 1, Run(g), g.(pc := tail));
    n, c := FinishNormally(k, s.fin, f, st, st1, tail, 1 + m + 2, Run(g.(pc := tail)), end);
  }

  /** The shared `finally` at the end of a `try` with clauses. */
  lemma {:induction false} FinishNormally(
      k: Ctx, fin: OptBlock, f: Frame, st: State, st1: State, pc: nat, n0: nat, c0: Config, end: nat)
    returns (n: nat, c: Config)
    requires Ready(k, f, st) && OkOpt(fin, k.catching) && !OptHasBreak(fin) && !OptHasContinue(fin)
    requires RunN(k.w, k.code, n0, Run(f)) == c0 && Lands(k, f, st.budget, st1, pc, n0, c0)
    requires AtCode(k, pc, CodeB(BodyOf(fin), pc, k.env)) && end == pc + |CodeB(BodyOf(fin), pc, k.env)|
    requires st1.budget <= st.budget
    ensures RunN(k.w, k.code, n, Run(f)) == c
    ensures Ends(k, f, st.budget, Finish(k.w, fin, Normal(st1), k.catching), end, n, c)
    decreases st1.budget, SizeOpt(fin) + SizeFins(k.env.fins), 5
  {
    hide RunN, AtCode, Ends, Lands, CodeB, ExecB, OkB, OkOpt, SizeB, SizeOpt, SizeFins, Ready, HasBreak, HasContinue,
      OptHasBreak, OptHasContinue, BodyOf, Finish;
    FinBlock(k, fin);
    FinishBody(k.w, fin, st1, k.catching);
    n, c := RunFinally(k, BodyOf(fin), f, st, st1, pc, n0, c0, end);
  }

  // ---- Exceptions ----

  /** The handler has been entered with exception `x`. */
  ghost predicate Caught(f: Frame, x: Value) {
    f.stack != [] && Top(f.stack) == x && f.last == Some(x)
  }

  /** An exception raised in a guarded body arrives at the handler in the frame outside the `try`. */
  lemma {:induction false} ArriveAtHandler(k: Ctx, fin: OptBlock, f: Frame, f1: Frame, b: nat, st0: State, st: State, x: Value, m: nat, d: Config, h: Handler)
    requires f1 == f.(pc := f1.pc, handlers := f.handlers + [h]) && Ready(k, f, st0) && k.catching
    requires st.held == |f1.handlers| && Raises(BodyCtx(k, fin, |f1.handlers|), f1, b, st, x, m, d)
    ensures d.Run? && d.f.pc == h.pc && Ready(k, d.f, st.(held := |f.handlers|)) && Kept(k, f, d.f) && Caught(d.f, x)
    ensures m + st.budget >= b
  {
    hide Lawful, OkFins, UserVars, RetSlot;
    assert f1.handlers[..|f.handlers|] == f.handlers;
  }

  lemma {:induction false} TryThrows(k: Ctx, s: Stmt, f: Frame, st: State, f1: Frame, handler: nat, m: nat, d: Config)
    returns (n: nat, c: Config)
    requires k.catching && Ready(k, f, st) && OkS(s, k.catching) && Aims(k.env, StmtHasBreak(s), StmtHasContinue(s))
    requires s.Try? && AtCode(k, f.pc, CodeBody(s, f.pc, k.env)) && handler == HandlerOf(k, s, f.pc)
    requires f1 == f.(pc := f.pc + 1, handlers := f.handlers + [Handler(handler, |f.stack|)])
    requires RunN(k.w, k.code, 1 + m, Run(f)) == d && ExecB(k.w, s.body, Inside(st), k.catching).Thrown?
    requires var o := ExecB(k.w, s.body, Inside(st), k.catching);
             o.st.held == st.held + 1 && Raises(BodyCtx(k, s.fin, |f1.handlers|), f1, st.budget, o.st, o.x, m, d)
    ensures RunN(k.w, k.code, n, Run(f)) == c
    ensures Ends(k, f, st.budget, Exec(k.w, s, st, k.catching), f.pc + |CodeBody(s, f.pc, k.env)|, n, c)
    decreases st.budget, SizeS(s) - 1 + SizeFins(k.env.fins), 7
  {
    hide RunN, At, AtCode, Ends, Raises, CodeBody, CodeTry, CodeB, CodeClauses, CodeRethrow, Exec, ExecB, ExecCatch, OkS, OkB, OkCatches, OkOpt,
      SizeS, SizeB, SizeCatches, SizeOpt, SizeFins, Ready, HasBreak, HasContinue, CatchesHaveBreak, CatchesHaveContinue,
      OptHasBreak, OptHasContinue, StmtHasBreak, StmtHasContinue, Within1, Finish, Aims, Kept, BodyOf;
    UnfoldTry(k, s, f.pc, st);
    var o := ExecB(k.w, s.body, Inside(st), k.catching);
    var st1 := o.st.(held := st.held);
    var end := f.pc + |CodeBody(s, f.pc, k.env)|;
    ReadyMatch(k, f, st);
    ArriveAtHandler(k, s.fin, f, f1, st.budget, st, o.st, o.x, m, d, Handler(handler, |f.stack|));
    var m2, d2;
    if s.catches == [] && s.fin.Block? {
      PlaceTryFinally(k, s.body, s.fin, f.pc);
      NoCatch(k.w, s.fin.Block?, o.x, st1);
      m2, d2 := RunRethrow(k, s.fin, d.f, st1, o.x, end);
    } else {
      PlaceTryCatch(k, s.body, s.catches, s.fin, f.pc);
      AimsPart(k.env, StmtHasBreak(s), StmtHasContinue(s), CatchesHaveBreak(s.catches), CatchesHaveContinue(s.catches));
      m2, d2 := RunHandler(k, s, d.f, st1, o.x, end);
    }
    RunAdd(k.w, k.code, 1 + m, m2, Run(f));
    n, c := 1 + m + m2, d2;
    EndsAfter(k, f, st.budget, d.f, o.st.budget, 1 + m, Exec(k.w, s, st, k.catching), end, m2, d2);
  }

  lemma {:induction false} NoCatch(w: World, hasFinally: bool, x: Value, st: State)
    ensures ExecCatch(w, [], hasFinally, x, st) == Thrown(st, x)
  {
  }

  /** `finally` with the exception set aside, then raise it again. */
  lemma {:induction false} RunRethrow(k: Ctx, fin: OptBlock, f: Frame, st: State, x: Value, end: nat)
    returns (n: nat, c: Config)
    requires k.catching && Ready(k, f, st) && f.last == Some(x)
    requires OkOpt(fin, k.catching) && !OptHasBreak(fin) && !OptHasContinue(fin)
    requires AtCode(k, f.pc, CodeRethrow(fin, f.pc, k.env))
    ensures RunN(k.w, k.code, n, Run(f)) == c
    ensures Ends(k, f, st.budget, Finish(k.w, fin, Thrown(st, x), k.catching), end, n, c)
    decreases st.budget, SizeOpt(fin) + SizeFins(k.env.fins), 3
  {
    hide RunN, At, AtCode, Ends, Raises, CodeB, ExecB, OkB, SizeB, SizeFins, Ready, HasBreak, HasContinue, RaisedIn;
    if fin.Absent? {
      AtFix(k, f.pc, [Rethrow]);
      AtOne(k.code, f.pc, [Rethrow], 0);
      StepRethrow(k.w, k.code, f, x);
      n, c := 1, RunN(k.w, k.code, 1, Run(f));
      ReadyMatch(k, f, st);
      RaisedFromExpr(k, f, st, x, n, c);
      EndsThrown(k, f, st.budget, st, x, end, n, c);
    } else {
      n, c := RunSavedRethrow(k, fin.ss, f, st, x, end);
    }
  }

  lemma {:induction false} ReadyMatch(k: Ctx, f: Frame, st: State)
    requires Ready(k, f, st)
    ensures Match(f, st) && |f.handlers| == st.held
  {
  }

  lemma {:induction false} SavedReady(k: Ctx, f: Frame, f1: Frame, st: State, x: Value)
    requires Ready(k, f, st) && f1 == f.(pc := f1.pc, saves := f.saves + [Some(x)])
    ensures Ready(k, f1, Pending(Thrown(st, x))) && Kept(k, f, f1)
  {
    hide Lawful, OkFins, UserVars;
  }

  /** An exception is completed by a `finally` body that ends normally with it the last set aside. */
  lemma {:induction false} UnfoldThrown(w: World, fb: seq<Stmt>, st: State, x: Value, catching: bool)
    requires w.watch
    ensures var f := ExecB(w, fb, Pending(Thrown(st, x)), catching);
            Finish(w, Block(fb), Thrown(st, x), catching)
            == if !f.Normal? then f else if LastAside(f.st) == Some(x) then Thrown(TakenBack(f.st), x) else Stuck
  {
    hide ExecB;
  }

  lemma {:induction false} RunSavedRethrow(k: Ctx, fb: seq<Stmt>, f: Frame, st: State, x: Value, end: nat)
    returns (n: nat, c: Config)
    requires k.catching && Ready(k, f, st) && f.last == Some(x)
    requires OkB(fb, k.catching) && !HasBreak(fb) && !HasContinue(fb)
    requires AtCode(k, f.pc, CodeRethrow(Block(fb), f.pc, k.env))
    ensures RunN(k.w, k.code, n, Run(f)) == c
    ensures Ends(k, f, st.budget, Finish(k.w, Block(fb), Thrown(st, x), k.catching), end, n, c)
    decreases st.budget, SizeB(fb) + SizeFins(k.env.fins), 5
  {
    hide RunN, At, AtCode, Ends, Lands, CodeB, CodeRethrow, ExecB, OkB, SizeB, SizeFins, Ready, HasBreak, HasContinue, Raises, Finish, Kept;
    ReadyWatch(k, f, st);
    UnfoldThrown(k.w, fb, st, x, k.catching);
    PlaceRethrow(k, fb, f.pc);
    AtOne(k.code, f.pc, [SaveExc], 0);
    StepSave(k.w, k.code, f);
    var f1 := f.(pc := f.pc + 1, saves := f.saves + [Some(x)]);
    SavedReady(k, f, f1, st, x);
    var mid := f.pc + 1 + |CodeB(fb, f.pc + 1, k.env)|;
    var st1 := Pending(Thrown(st, x));
    var m, d := RunB(k, fb, f1, st1);
    RunAdd(k.w, k.code, 1, m, Run(f));
    n, c := 1 + m, d;
    var o := ExecB(k.w, fb, st1, k.catching);
    if o.Normal? {
      EndsNormal(k, f1, st.budget, o.st, mid, m, d);
      if LastAside(o.st) == Some(x) {
        var m2, d2 := RestoreAndRaise(k, f, f1, st.budget, o.st, x, mid, m, d);
        RunAdd(k.w, k.code, 1 + m, m2, Run(f));
        n, c := 1 + m + m2, d2;
        EndsThrown(k, f, st.budget, TakenBack(o.st), x, end, n, c);
      } else {
        EndsStuck(k, f, st.budget, end, n, c);
      }
    } else {
      BlockJumps(k.w, fb, st1, k.catching);
      EndsElsewhere(k, f1, st.budget, o, mid, end, m, d);
      EndsAfter(k, f, st.budget, f1, st.budget, 1, o, end, m, d);
    }
  }

  /** The last exception set aside is raised. */
  lemma {:induction false} RestoreAndRaise(k: Ctx, f: Frame, f1: Frame, b: nat, st: State, x: Value, mid: nat, m: nat, d: Config)
    returns (n: nat, c: Config)
    requires k.catching && f1 == f.(pc := f1.pc, saves := f1.saves) && LastAside(st) == Some(x)
    requires At(k.code, mid, [RestoreExc, Rethrow]) && Lands(k, f1, b, st, mid, m, d)
    ensures RunN(k.w, k.code, n, d) == c && Raises(k, f, b, TakenBack(st), x, 1 + m + n, c)
  {
    hide RunN, At, UserVars, RetSlot;
    AtOne(k.code, mid, [RestoreExc, Rethrow], 0);
    AtOne(k.code, mid, [RestoreExc, Rethrow], 1);
    var left := Saved(TakenBack(st).aside);
    assert d.f.saves == left + [Some(x)];
    StepRestore(k.w, k.code, d.f, left, Some(x));
    var g := d.f.(pc := mid + 1, last := Some(x), saves := left);
    StepRethrow(k.w, k.code, g, x);
    RunAdd(k.w, k.code, 1, 1, d);
    n, c := 2, RunN(k.w, k.code, 1, Run(g));
  }

  // ---- catch ----

  lemma {:induction false} RunHandler(k: Ctx, s: Stmt, f: Frame, st: State, x: Value, end: nat)
    returns (n: nat, c: Config)
    requires s.Try? && k.catching && Ready(k, f, st) && OkS(s, k.catching) && Caught(f, x)
    requires Aims(k.env, CatchesHaveBreak(s.catches), CatchesHaveContinue(s.catches))
    requires AtCode(k, f.pc, CodeClauses(s.catches, s.fin, f.pc, k.env))
    requires var tail := f.pc + |CodeClauses(s.catches, s.fin, f.pc, k.env)|;
             AtCode(k, tail, CodeB(BodyOf(s.fin), tail, k.env)) && end == tail + |CodeB(BodyOf(s.fin), tail, k.env)|
    ensures RunN(k.w, k.code, n, Run(f)) == c
    ensures Ends(k, f, st.budget,
                 Finish(k.w, s.fin, ExecCatch(k.w, s.catches, s.fin.Block?, x, st), k.catching), end, n, c)
    decreases st.budget, SizeCatches(s.catches) + SizeOpt(s.fin) + SizeFins(k.env.fins), 6
  {
    hide RunN, At, AtCode, Ends, Lands, CodeB, CodeClauses, ExecB, ExecCatch, OkS, OkB, OkCatches, OkOpt, SizeS, SizeB, SizeCatches, SizeOpt, SizeFins,
      Ready, HasBreak, HasContinue, CatchesHaveBreak, CatchesHaveContinue, OptHasBreak, OptHasContinue, Finish, Aims, Caught,
      BodyOf, CodeBody, Exec, StmtHasBreak, StmtHasContinue;
    UnfoldTry(k, s, 0, st);
    n, c := RunClauses(k, s.catches, s.fin, f, st, x, end);
    var o := ExecCatch(k.w, s.catches, s.fin.Block?, x, st);
    if o.Normal? {
      var tail := f.pc + |CodeClauses(s.catches, s.fin, f.pc, k.env)|;
      n, c := FinishNormally(k, s.fin, f, st, o.st, tail, n, c, end);
    }
  }

  /** Clauses either complete, landing on the shared tail, or leave the whole `try`. */
  ghost predicate ClausesRun(k: Ctx, fin: OptBlock, f: Frame, st: State, o: Outcome, tail: nat, end: nat, n: nat, c: Config) {
    if o.Normal? then Lands(k, f, st.budget, o.st, tail, n, c)
    else Ends(k, f, st.budget, Finish(k.w, fin, o, k.catching), end, n, c)
  }

  lemma {:induction false} RunClauses(k: Ctx, cs: seq<Catch>, fin: OptBlock, f: Frame, st: State, x: Value, end: nat)
    returns (n: nat, c: Config)
    requires k.catching && Ready(k, f, st) && Caught(f, x)
    requires OkCatches(cs, k.catching) && OkOpt(fin, k.catching) && !OptHasBreak(fin) && !OptHasContinue(fin)
    requires Aims(k.env, CatchesHaveBreak(cs), CatchesHaveContinue(cs))
    requires AtCode(k, f.pc, CodeClauses(cs, fin, f.pc, k.env))
    ensures RunN(k.w, k.code, n, Run(f)) == c
    ensures ClausesRun(k, fin, f, st, ExecCatch(k.w, cs, fin.Block?, x, st),
                       f.pc + |CodeClauses(cs, fin, f.pc, k.env)|, end, n, c)
    decreases st.budget, SizeCatches(cs) + SizeOpt(fin) + SizeFins(k.env.fins), 5
  {
    hide RunN, At, AtCode, Ends, Lands, CodeClauses, ExecCatch, OkCatches, OkOpt, SizeCatches, SizeOpt, SizeFins,
      Ready, CatchesHaveBreak, CatchesHaveContinue, OptHasBreak, OptHasContinue, Finish, Aims;
    if cs == [] {
      n, c := RunNoClause(k, fin, f, st, x, end);
      NoCatch(k.w, fin.Block?, x, st);
    } else {
      n, c := RunClause(k, cs, fin, f, st, x, end);
    }
  }

  /** No clause matched. */
  lemma {:induction false} RunNoClause(k: Ctx, fin: OptBlock, f: Frame, st: State, x: Value, end: nat)
    returns (n: nat, c: Config)
    requires k.catching && Ready(k, f, st) && Caught(f, x)
    requires OkOpt(fin, k.catching) && !OptHasBreak(fin) && !OptHasContinue(fin)
    requires AtCode(k, f.pc, CodeClauses([], fin, f.pc, k.env))
    ensures RunN(k.w, k.code, n, Run(f)) == c
    ensures Ends(k, f, st.budget, Finish(k.w, fin, Thrown(st, x), k.catching), end, n, c)
    decreases st.budget, SizeOpt(fin) + SizeFins(k.env.fins), 4
  {
    hide RunN, At, AtCode, Ends, CodeClauses, CodeRethrow, OkOpt, SizeOpt, SizeFins, Lawful, OkFins, UserVars, OptHasBreak,
      OptHasContinue, Finish, Kept;
    PlaceNoClause(k, fin, f.pc);
    AtOne(k.code, f.pc, [Pop], 0);
    StepPop(k.w, k.code, f);
    var g := f.(pc := f.pc + 1, stack := Front(f.stack));
    var m, d := RunRethrow(k, fin, g, st, x, end);
    SameKept(k, f, g);
    Chain(k, f, st.budget, g, st.budget, 1, Finish(k.w, fin, Thrown(st, x), k.catching), end, m, d);
    n, c := 1 + m, d;
  }

  lemma {:induction false} UnfoldCatch(k: Ctx, cs: seq<Catch>, hasFinally: bool, x: Value, st: State)
    requires cs != []
    ensures var st1 := st.(vars := st.vars[Fold(cs[0].name) := x]);
            var o := ExecB(k.w, cs[0].body, st1, true);
            && Within(o, st1)
            && ExecCatch(k.w, cs, hasFinally, x, st) ==
               (if !k.w.matches(ClauseType(cs[0]), x) then ExecCatch(k.w, cs[1..], hasFinally, x, st)
                else if o.Thrown? && hasFinally && k.w.watch then Stuck else o)
    ensures SizeCatches(cs) == 1 + SizeB(cs[0].body) + SizeCatches(cs[1..])
    ensures OkCatches(cs, k.catching) ==
            (UserName(cs[0].name) && OkB(cs[0].body, k.catching) && OkCatches(cs[1..], k.catching))
    ensures CatchesHaveBreak(cs) == (HasBreak(cs[0].body) || CatchesHaveBreak(cs[1..]))
    ensures CatchesHaveContinue(cs) == (HasContinue(cs[0].body) || CatchesHaveContinue(cs[1..]))
  {
    hide ExecB, OkB, SizeB, HasBreak, HasContinue, UserName, Fold;
  }

  /** Test a clause's type and fall into its binding or go to the next clause. */
  lemma {:induction false} TestClauseType(k: Ctx, cl: Catch, next: nat, f: Frame, x: Value)
    requires Caught(f, x) && At(k.code, f.pc, ClauseHead(cl, next))
    ensures RunN(k.w, k.code, 2, Run(f)) == Run(f.(pc := if k.w.matches(ClauseType(cl), x) then f.pc + 2 else next))
  {
    hide RunN, At, Fold, Exec1, ClauseType;
    var ops := ClauseHead(cl, next);
    AtOne(k.code, f.pc, ops, 0);
    AtOne(k.code, f.pc, ops, 1);
    StepCatchMatch(k.w, k.code, f, ClauseType(cl));
    var hit := k.w.matches(ClauseType(cl), x);
    var f1 := Push(f, Bool(hit)).f;
    StepBranch(k.w, k.code, f1, false, next, f.stack, Bool(hit));
    RunAdd(k.w, k.code, 1, 1, Run(f));
  }

  lemma {:induction false} BindClause(k: Ctx, cl: Catch, next: nat, f: Frame, x: Value)
    requires Caught(f, x) && At(k.code, f.pc, ClauseHead(cl, next))
    ensures RunN(k.w, k.code, 2, Run(f.(pc := f.pc + 2))) == Run(SetVar(f.(pc := f.pc + 4, stack := Front(f.stack)), cl.name, x))
  {
    hide RunN, At, Fold, Exec1, ClauseType;
    var ops := ClauseHead(cl, next);
    AtOne(k.code, f.pc, ops, 2);
    AtOne(k.code, f.pc, ops, 3);
    var f2, f3 := f.(pc := f.pc + 2), f.(pc := f.pc + 3);
    StepSkip(k.w, k.code, f2, Declare(cl.name));
    assert f.stack == Front(f.stack) + [x];
    StepStore(k.w, k.code, f3, cl.name, Front(f.stack), x);
    RunAdd(k.w, k.code, 1, 1, Run(f2));
  }

  lemma {:induction false} TestClause(k: Ctx, cl: Catch, next: nat, f: Frame, x: Value) returns (n: nat, c: Config)
    requires Caught(f, x) && At(k.code, f.pc, ClauseHead(cl, next))
    ensures RunN(k.w, k.code, n, Run(f)) == c
    ensures c == Run(if k.w.matches(ClauseType(cl), x)
                     then SetVar(f.(pc := f.pc + 4, stack := Front(f.stack)), cl.name, x)
                     else f.(pc := next))
  {
    hide RunN, At, Fold, ClauseType, ClauseHead;
    TestClauseType(k, cl, next, f, x);
    if k.w.matches(ClauseType(cl), x) {
      BindClause(k, cl, next, f, x);
      RunAdd(k.w, k.code, 2, 2, Run(f));
      n, c := 4, RunN(k.w, k.code, 2, Run(f.(pc := f.pc + 2)));
    } else {
      n, c := 2, Run(f.(pc := next));
    }
  }

  lemma {:induction false} BoundReady(k: Ctx, f: Frame, st: State, pc: nat, name: string, x: Value)
    requires Ready(k, f, st) && UserName(name)
    ensures var g := SetVar(f.(pc := pc, stack := Front(f.stack)), name, x);
            Ready(k, g, st.(vars := st.vars[Fold(name) := x])) && Kept(k, f, g)
  {
    hide Lawful, OkFins, UserVars, RetSlot, UserName, Fold;
    MatchSet(f.(pc := pc, stack := Front(f.stack)), st, name, x);
  }

  lemma {:induction false} RunClause(k: Ctx, cs: seq<Catch>, fin: OptBlock, f: Frame, st: State, x: Value, end: nat)
    returns (n: nat, c: Config)
    requires k.catching && Ready(k, f, st) && Caught(f, x)
    requires OkCatches(cs, k.catching) && OkOpt(fin, k.catching) && !OptHasBreak(fin) && !OptHasContinue(fin)
    requires Aims(k.env, CatchesHaveBreak(cs), CatchesHaveContinue(cs))
    requires cs != [] && AtCode(k, f.pc, CodeClauses(cs, fin, f.pc, k.env))
    ensures RunN(k.w, k.code, n, Run(f)) == c
    ensures ClausesRun(k, fin, f, st, ExecCatch(k.w, cs, fin.Block?, x, st),
                       f.pc + |CodeClauses(cs, fin, f.pc, k.env)|, end, n, c)
    decreases st.budget, SizeCatches(cs) + SizeOpt(fin) + SizeFins(k.env.fins), 4
  {
    hide RunN, At, AtCode, Ends, Lands, CodeB, CodeClauses, ExecB, ExecCatch, OkB, OkCatches, OkOpt, SizeB, SizeCatches, SizeOpt, SizeFins,
      Ready, HasBreak, HasContinue, CatchesHaveBreak, CatchesHaveContinue, OptHasBreak, OptHasContinue, Finish, Aims,
      UserName, Fold, Within1, Kept, ClausesRun, ClauseHead;
    UnfoldCatch(k, cs, fin.Block?, x, st);
    PlaceClause(k, cs, fin, f.pc);
    var next := f.pc + 4 + |CodeB(cs[0].body, f.pc + 4, Within1(k.env, fin))| + 1;
    var tail := f.pc + |CodeClauses(cs, fin, f.pc, k.env)|;
    n, c := TestClause(k, cs[0], next, f, x);
    if k.w.matches(ClauseType(cs[0]), x) {
      BoundReady(k, f, st, f.pc + 4, cs[0].name, x);
      var m, d := RunClauseBody(k, cs, fin, f, c.f, st, x, end);
      RunAdd(k.w, k.code, n, m, Run(f));
      MoreClauses(k, fin, f, st, ExecCatch(k.w, cs, fin.Block?, x, st), tail, end, m, n + m, d);
      n, c := n + m, d;
    } else {
      MovedReady(k, f, st, next, x);
      AimsPart(k.env, CatchesHaveBreak(cs), CatchesHaveContinue(cs), CatchesHaveBreak(cs[1..]), CatchesHaveContinue(cs[1..]));
      var m, d := RunClauses(k, cs[1..], fin, c.f, st, x, end);
      RunAdd(k.w, k.code, n, m, Run(f));
      SameKept(k, f, c.f);
      ClausesAfter(k, fin, f, c.f, st, ExecCatch(k.w, cs, fin.Block?, x, st), tail, end, n, m, d);
      n, c := n + m, d;
    }
  }

  lemma {:induction false} MovedReady(k: Ctx, f: Frame, st: State, pc: nat, x: Value)
    requires Ready(k, f, st) && Caught(f, x)
    ensures Ready(k, f.(pc := pc), st) && Caught(f.(pc := pc), x)
  {
    hide Lawful, OkFins, UserVars;
  }

  lemma {:induction false} ClausesAfter(k: Ctx, fin: OptBlock, f: Frame, g: Frame, st: State, o: Outcome, tail: nat, end: nat, n0: nat, n: nat, c: Config)
    requires Kept(k, f, g) && ClausesRun(k, fin, g, st, o, tail, end, n, c)
    ensures ClausesRun(k, fin, f, st, o, tail, end, n0 + n, c)
  {
    hide Kept, Ends, Lands, Finish;
    if o.Normal? {
      LandsAfter(k, f, st.budget, g, st.budget, n0, o.st, tail, n, c);
    } else {
      EndsAfter(k, f, st.budget, g, st.budget, n0, Finish(k.w, fin, o, k.catching), end, n, c);
    }
  }

  lemma {:induction false} MoreClauses(k: Ctx, fin: OptBlock, f: Frame, st: State, o: Outcome, tail: nat, end: nat, n: nat, n': nat, c: Config)
    requires ClausesRun(k, fin, f, st, o, tail, end, n, c) && n <= n'
    ensures ClausesRun(k, fin, f, st, o, tail, end, n', c)
  {
    hide Kept, ClausesRun;
    SameKept(k, f, f);
    ClausesAfter(k, fin, f, f, st, o, tail, end, n' - n, n, c);
  }

  /** The body of the clause that matched, entered in frame `g` with the exception bound. */
  lemma {:induction false} RunClauseBody(
      k: Ctx, cs: seq<Catch>, fin: OptBlock, f: Frame, g: Frame, st: State, x: Value, end: nat)
    returns (n: nat, c: Config)
    requires k.catching && cs != [] && k.w.matches(ClauseType(cs[0]), x)
    requires OkCatches(cs, k.catching) && OkOpt(fin, k.catching) && !OptHasBreak(fin) && !OptHasContinue(fin)
    requires Aims(k.env, CatchesHaveBreak(cs), CatchesHaveContinue(cs))
    requires AtCode(k, f.pc, CodeClauses(cs, fin, f.pc, k.env)) && g.pc == f.pc + 4
    requires Ready(k, g, st.(vars := st.vars[Fold(cs[0].name) := x])) && Kept(k, f, g)
    ensures RunN(k.w, k.code, n, Run(g)) == c
    ensures ClausesRun(k, fin, f, st, ExecCatch(k.w, cs, fin.Block?, x, st),
                       f.pc + |CodeClauses(cs, fin, f.pc, k.env)|, end, n, c)
    decreases st.budget, SizeCatches(cs) + SizeOpt(fin) + SizeFins(k.env.fins), 3
  {
    hide RunN, At, AtCode, Ends, Lands, CodeB, CodeClauses, ExecB, ExecCatch, OkB, OkCatches, OkOpt, SizeB, SizeCatches, SizeOpt, SizeFins,
      Ready, HasBreak, HasContinue, CatchesHaveBreak, CatchesHaveContinue, OptHasBreak, OptHasContinue, Aims,
      UserName, Fold, Within1, Kept;
    UnfoldCatch(k, cs, fin.Block?, x, st);
    ReadyWatch(k, g, st.(vars := st.vars[Fold(cs[0].name) := x]));
    PlaceClause(k, cs, fin, f.pc);
    var body := cs[0].body;
    var st1 := st.(vars := st.vars[Fold(cs[0].name) := x]);
    var kt := TryCtx(k, fin);
    var mid := f.pc + 4 + |CodeB(body, f.pc + 4, Within1(k.env, fin))|;
    var tail := f.pc + |CodeClauses(cs, fin, f.pc, k.env)|;
    TryReady(k, fin, g, st1);
    TrySize(k.env, fin);
    AimsPart(k.env, CatchesHaveBreak(cs), CatchesHaveContinue(cs), HasBreak(body), HasContinue(body));
    TryAims(k.env, fin, HasBreak(body), HasContinue(body));
    n, c := RunB(kt, body, g, st1);
    var o := ExecB(k.w, body, st1, k.catching);
    if o.Normal? {
      EndsNormal(kt, g, st.budget, o.st, mid, n, c);
      SameLands(k, kt, g, st.budget, o.st, mid, n, c);
      LandsThenJump(k, g, st.budget, o.st, mid, n, c, tail);
      LandsRuns(k, g, st.budget, o.st, mid, n, c);
      n, c := n + 1, Run(c.f.(pc := tail));
      LandsAfter(k, f, st.budget, g, st.budget, 0, o.st, tail, n, c);
    } else if o.Thrown? {
      if fin.Block? {
        EndsStuck(k, f, st.budget, end, n, c);
      } else {
        SameEnds(k, kt, g, st.budget, o, mid, end, n, c);
        EndsAfter(k, f, st.budget, g, st.budget, 0, o, end, n, c);
      }
    } else {
      BlockJumps(k.w, body, st1, k.catching);
      AimsPart(k.env, CatchesHaveBreak(cs), CatchesHaveContinue(cs), o.Broke?, o.Continued?);
      KeptGuarded(k, f, g);
      LeaveTry(k, fin, f, g, st.budget, o, mid, end, n, c);
    }
  }

  lemma {:induction false} SameEnds(k: Ctx, kt: Ctx, f: Frame, b: nat, o: Outcome, end: nat, end': nat, n: nat, c: Config)
    requires kt == TryCtx(k, Absent) && o.Thrown? && Ends(kt, f, b, o, end, n, c)
    ensures Ends(k, f, b, o, end', n, c)
  {
    hide Raises;
    SameRaises(k, kt, f, b, o.st, o.x, n, c);
  }

  lemma {:induction false} KeptGuarded(k: Ctx, f: Frame, g: Frame)
    requires k.catching && Kept(k, f, g)
    ensures Guarded(f, g)
  {
    hide RetSlot;
  }
}
