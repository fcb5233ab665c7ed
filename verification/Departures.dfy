/**
 Where the emitted control flow departs from the meaning of the program: loops
 without a test, clauses that throw, jumps out of a `try`.
 */
module Departures {
  import opened Names
  import opened Ast
  import opened Shapes
  import opened Values
  import opened Semantics
  import opened Machine
  import opened Codegen
  import opened ExprCorrect
  import opened Fusion
  import opened Steps
  import opened Simulation
  import opened StmtSimple
  import opened Placement
  import opened StmtCorrect
  import opened Watch
  import opened FunctionCorrect

  // ---- `for` without a test ----

  /** What is left of the statement: its initialiser. */
  function OnlyStart(start: Option<Init>): seq<Stmt> {
    if start.None? then [] else [InitStmt(start.value)]
  }

  lemma {:induction false} NoTestCode(start: Option<Init>, inc: Option<Step>, body: seq<Stmt>, at: nat, env: Env)
    ensures CodeB([For(start, None, inc, body)], at, env) == Fix([LineInfo]) + CodeB(OnlyStart(start), at + 1, env)
  {
    hide CodeStep;
    var s := For(start, None, inc, body);
    assert [s][1..] == [];
    if start.None? {
      assert CodeFor(None, inc, body, at + 1, env) == [];
      assert CodeBody(s, at + 1, env) == [];
    } else {
      var i := InitStmt(start.value);
      var a := CodeS(i, at + 1, env);
      assert CodeFor(None, inc, body, at + 1 + |a|, env) == [];
      assert CodeBody(s, at + 1, env) == a;
      assert [i][1..] == [] && CodeB([i], at + 1, env) == a;
    }
  }

  /** Where the parts of a block with such a loop in it stand. */
  lemma {:induction false} PlaceNoTest(k: Ctx, before: seq<Stmt>, start: Option<Init>, inc: Option<Step>, body: seq<Stmt>, rest: seq<Stmt>, at: nat)
    requires AtCode(k, at, CodeB(before + [For(start, None, inc, body)] + rest, at, k.env))
    ensures var a := CodeB(before, at, k.env);
            var b := CodeB(OnlyStart(start) + rest, at + |a| + 1, k.env);
            && AtCode(k, at, a) && At(k.code, at + |a|, [LineInfo]) && AtCode(k, at + |a| + 1, b)
            && |CodeB(before + [For(start, None, inc, body)] + rest, at, k.env)| == |a| + 1 + |b|
  {
    hide CodeB, AtCode, At;
    var s := [For(start, None, inc, body)];
    var a := CodeB(before, at, k.env);
    CodeAppend(before + s, rest, at, k.env);
    CodeAppend(before, s, at, k.env);
    NoTestCode(start, inc, body, at + |a|, k.env);
    CodeAppend(OnlyStart(start), rest, at + |a| + 1, k.env);
    var i := CodeB(OnlyStart(start), at + |a| + 1, k.env);
    var r := CodeB(rest, at + |a| + 1 + |i|, k.env);
    assert CodeB(before + s + rest, at, k.env) == a + (Fix([LineInfo]) + (i + r));
    AtCodeSplit(k, at, a, Fix([LineInfo]) + (i + r));
    AtCodeSplit(k, at + |a|, Fix([LineInfo]), i + r);
    AtFix(k, at + |a|, [LineInfo]);
  }

  /**
   The loop is dropped, whatever its increment and body: wherever it stands in a block, the
   emitted code does what the block does with only the initialiser in its place, although a
   loop without a test does not end by itself.
   */
  lemma {:induction false} DroppedLoop(k: Ctx, before: seq<Stmt>, start: Option<Init>, inc: Option<Step>, body: seq<Stmt>, rest: seq<Stmt>, f: Frame, st: State)
    returns (n: nat, c: Config)
    requires Ready(k, f, st) && AtCode(k, f.pc, CodeB(before + [For(start, None, inc, body)] + rest, f.pc, k.env))
    requires OkB(before, k.catching) && Aims(k.env, HasBreak(before), HasContinue(before))
    requires var rest' := OnlyStart(start) + rest; OkB(rest', k.catching) && Aims(k.env, HasBreak(rest'), HasContinue(rest'))
    ensures RunN(k.w, k.code, n, Run(f)) == c
    ensures Ends(k, f, st.budget, ExecB(k.w, before + (OnlyStart(start) + rest), st, k.catching),
                 f.pc + |CodeB(before + [For(start, None, inc, body)] + rest, f.pc, k.env)|, n, c)
  {
    hide RunN, AtCode, At, Ends, Lands, CodeB, ExecB, OkB, HasBreak, HasContinue, Ready, Aims, OnlyStart, SizeB;
    var rest' := OnlyStart(start) + rest;
    var end := f.pc + |CodeB(before + [For(start, None, inc, body)] + rest, f.pc, k.env)|;
    PlaceNoTest(k, before, start, inc, body, rest, f.pc);
    ExecAppend(k.w, before, rest', st, k.catching);
    var a := CodeB(before, f.pc, k.env);
    n, c := RunB(k, before, f, st);
    var o := ExecB(k.w, before, st, k.catching);
    if o.Normal? {
      EndsNormal(k, f, st.budget, o.st, f.pc + |a|, n, c);
      LandsReady(k, f, st.budget, f, st, o.st, f.pc + |a|, n, c);
      AtOne(k.code, f.pc + |a|, [LineInfo], 0);
      StepSkip(k.w, k.code, c.f, LineInfo);
      RunAdd(k.w, k.code, n, 1, Run(f));
      var g := c.f.(pc := c.f.pc + 1);
      LandsNext(k, f, st.budget, o.st, f.pc + |a|, n, c, g);
      LandsReady(k, f, st.budget, f, st, o.st, f.pc + |a| + 1, n + 1, Run(g));
      var m, d := RunB(k, rest', g, o.st);
      ChainLands(k, f, st.budget, o.st, f.pc + |a| + 1, n + 1, Run(g), ExecB(k.w, rest', o.st, k.catching), end, m, d);
      n, c := n + 1 + m, d;
    } else {
      EndsElsewhere(k, f, st.budget, o, f.pc + |a|, end, n, c);
    }
  }

  /** So a function with such a loop among its statements runs as if only the initialiser were there. */
  lemma {:induction false} DroppedFromFunction(
      w: World, before: seq<Stmt>, start: Option<Init>, inc: Option<Step>, body: seq<Stmt>, rest: seq<Stmt>, vars: Vars, budget: nat, catching: bool)
    returns (n: nat, c: Config)
    requires Lawful(w) && w.watch && OkB(before, catching) && OkB(OnlyStart(start) + rest, catching) && UserArgs(vars)
    ensures c == RunN(w, CodeFunction(before + [For(start, None, inc, body)] + rest), n, Start(vars))
    ensures Agrees(w, before + (OnlyStart(start) + rest), vars, budget, catching, c)
  {
    hide RunN, At, Ends, Lands, CodeB, ExecB, OkB, HasBreak, HasContinue, Shows, OnlyStart;
    var all := before + [For(start, None, inc, body)] + rest;
    var left := before + (OnlyStart(start) + rest);
    var k := Ctx(w, CodeFunction(all), NO_FRAMES, 0, 0, catching);
    var f := Start(vars).f;
    var st := State(vars, [], budget);
    assert UserVars(vars) == vars;
    var code := CodeB(all, 0, NO_FRAMES);
    WholeCode(k.code, Ops(code, 0, 0));
    n, c := DroppedLoop(k, before, start, inc, body, rest, f, st);
    var o := ExecB(w, left, st, catching);
    if o.Normal? {
      EndsNormal(k, f, budget, o.st, |code|, n, c);
      n, c := FallOff(k, f, budget, o.st, |code|, n, c);
      DoneShows(w, left, vars, budget, catching, o.st, c);
    } else {
      EndShows(k, left, f, vars, budget, |code|, n, c);
    }
    PlainAgrees(w, left, vars, budget, catching, c);
  }

  lemma {:induction false} AfterLineInfo(code: seq<Op>, a: seq<Op>)
    requires code == [LineInfo] + a + [Const(Null), Ret]
    ensures At(code, 1, a) && At(code, 1 + |a|, [Const(Null), Ret]) && code[0] == LineInfo
  {
    assert code[1..1 + |a|] == a;
    assert code[1 + |a|..1 + |a| + 2] == [Const(Null), Ret];
  }

  lemma {:induction false} DoneShows(w: World, body: seq<Stmt>, vars: Vars, budget: nat, catching: bool, st: State, c: Config)
    requires ExecB(w, body, State(vars, [], budget), catching) == Normal(st)
    requires c.Done? && c.v == Null && UserVars(c.vars) == st.vars && c.out == st.out
    ensures Shows(RunFunction(w, body, vars, budget, catching), c)
  {
    hide ExecB;
  }

  /** So `for (;;) return 1` returns null. */
  lemma {:induction false} NoTestReturnsNull(w: World, vars: Vars, budget: nat) returns (n: nat, c: Config)
    requires Lawful(w) && w.watch && UserArgs(vars)
    ensures var loop := For(None, None, None, [Return(Some(Lit(Int(1))))]);
            && RunFunction(Off(w), [loop], vars, budget, true) == Finished(Int(1), vars, [])
            && c == RunN(w, CodeFunction([loop]), n, Start(vars))
            && c.Done? && c.v == Null && UserVars(c.vars) == vars && c.out == []
  {
    hide RunN;
    var r := [Return(Some(Lit(Int(1))))];
    ForReturns(Off(w), r, State(vars, [], budget));
    assert OnlyStart(None) + [] == [] && OkB([], true);
    n, c := DroppedFromFunction(w, [], None, None, r, [], vars, budget, true);
    assert [] + [For(None, None, None, r)] + [] == [For(None, None, None, r)];
    assert [] + (OnlyStart(None) + []) == [];
    assert ExecB(w, [], State(vars, [], budget), true) == Normal(State(vars, [], budget));
  }

  lemma {:induction false} ForReturns(w: World, r: seq<Stmt>, st: State)
    requires r == [Return(Some(Lit(Int(1))))]
    ensures ExecB(w, [For(None, None, None, r)], st, true) == Returned(st, Int(1))
  {
    var s := For(None, None, None, r);
    OneOff(w, r[0], st, true);
    assert Exec(w, r[0], st, true) == Returned(st, Int(1));
    assert ExecFor(w, None, None, r, st, true) == Returned(st, Int(1));
    OneOff(w, s, st, true);
    assert Exec(w, s, st, true) == Returned(st, Int(1));
  }

  // ---- A throw from a catch body skips that try's `finally` ----

  /** Some clause takes the exception. */
  predicate Taken(w: World, cs: seq<Catch>, x: Value) {
    cs != [] && (w.matches(ClauseType(cs[0]), x) || Taken(w, cs[1..], x))
  }

  /** How the chosen clause ends, with nothing watched at its end. */
  function ClauseEnds(w: World, cs: seq<Catch>, x: Value, st: State): Outcome {
    ExecCatch(w, cs, false, x, st)
  }

  lemma {:induction false} WatchedCatch(w: World, cs: seq<Catch>, x: Value, st: State)
    ensures var o := ClauseEnds(w, cs, x, st);
            ExecCatch(w, cs, true, x, st) == if Taken(w, cs, x) && o.Thrown? && w.watch then Stuck else o
    decreases |cs|
  {
    hide ExecB;
    if cs != [] {
      WatchedCatch(w, cs[1..], x, st);
    }
  }

  /** A clause body that throws leaves the `try` in the very state it ended in. */
  lemma {:induction false} ThrowingClause(
      k: Ctx, cs: seq<Catch>, fin: OptBlock, f: Frame, g: Frame, st: State, x: Value, o: Outcome)
    returns (n: nat, c: Config)
    requires k.catching && cs != [] && fin.Block? && k.w.matches(ClauseType(cs[0]), x)
    requires OkCatches(cs, k.catching) && OkOpt(fin, k.catching) && !OptHasBreak(fin) && !OptHasContinue(fin)
    requires Aims(k.env, CatchesHaveBreak(cs), CatchesHaveContinue(cs))
    requires AtCode(k, f.pc, CodeClauses(cs, fin, f.pc, k.env)) && g.pc == f.pc + 4
    requires Ready(k, g, st.(vars := st.vars[Fold(cs[0].name) := x])) && Kept(k, f, g)
    requires o == ExecB(k.w, cs[0].body, st.(vars := st.vars[Fold(cs[0].name) := x]), true) && o.Thrown?
    ensures RunN(k.w, k.code, n, Run(g)) == c
    ensures Raises(k, f, st.budget, o.st, o.x, n, c)
  {
    hide RunN, At, AtCode, CodeB, CodeClauses, ExecB, ExecCatch, OkB, OkCatches, OkOpt, SizeB, SizeCatches, SizeOpt, SizeFins, Raises,
      Ready, HasBreak, HasContinue, CatchesHaveBreak, CatchesHaveContinue, OptHasBreak, OptHasContinue, Aims, UserName, Fold, Within1, Kept, Ends;
    UnfoldCatch(k, cs, fin.Block?, x, st);
    PlaceClause(k, cs, fin, f.pc);
    var body := cs[0].body;
    TryReady(k, fin, g, st.(vars := st.vars[Fold(cs[0].name) := x]));
    AimsPart(k.env, CatchesHaveBreak(cs), CatchesHaveContinue(cs), HasBreak(body), HasContinue(body));
    TryAims(k.env, fin, HasBreak(body), HasContinue(body));
    n, c := RunB(TryCtx(k, fin), body, g, st.(vars := st.vars[Fold(cs[0].name) := x]));
    EndsThrown(TryCtx(k, fin), g, st.budget, o.st, o.x, f.pc + 4 + |CodeB(body, f.pc + 4, Within1(k.env, fin))|, n, c);
    SameRaises(k, TryCtx(k, fin), g, st.budget, o.st, o.x, n, c);
    RaisesAfter(k, f, st.budget, g, st.budget, 0, o.st, o.x, n, c);
  }

  /** Whichever clause it is: the machine raises its exception, and the `finally` body has not run. */
  lemma {:induction false} ThrowFromCatchSkipsFinally(k: Ctx, cs: seq<Catch>, fin: OptBlock, f: Frame, st: State, x: Value)
    returns (n: nat, c: Config)
    requires k.catching && Ready(k, f, st) && Caught(f, x) && fin.Block?
    requires OkCatches(cs, k.catching) && OkOpt(fin, k.catching) && !OptHasBreak(fin) && !OptHasContinue(fin)
    requires Aims(k.env, CatchesHaveBreak(cs), CatchesHaveContinue(cs))
    requires AtCode(k, f.pc, CodeClauses(cs, fin, f.pc, k.env))
    requires Taken(k.w, cs, x) && ClauseEnds(k.w, cs, x, st).Thrown?
    ensures RunN(k.w, k.code, n, Run(f)) == c
    ensures var o := ClauseEnds(k.w, cs, x, st); Raises(k, f, st.budget, o.st, o.x, n, c)
    decreases |cs|
  {
    hide RunN, At, AtCode, CodeB, CodeClauses, ExecB, ExecCatch, OkB, OkCatches, OkOpt, SizeB, SizeCatches, SizeOpt, SizeFins, Raises, Caught,
      Ready, HasBreak, HasContinue, CatchesHaveBreak, CatchesHaveContinue, OptHasBreak, OptHasContinue, Aims, UserName, Fold, Within1, Kept, ClauseHead;
    UnfoldCatch(k, cs, false, x, st);
    PlaceClause(k, cs, fin, f.pc);
    var next := f.pc + 4 + |CodeB(cs[0].body, f.pc + 4, Within1(k.env, fin))| + 1;
    var o := ClauseEnds(k.w, cs, x, st);
    n, c := TestClause(k, cs[0], next, f, x);
    var m, d;
    if k.w.matches(ClauseType(cs[0]), x) {
      BoundReady(k, f, st, f.pc + 4, cs[0].name, x);
      m, d := ThrowingClause(k, cs, fin, f, c.f, st, x, o);
    } else {
      MovedReady(k, f, st, next, x);
      AimsPart(k.env, CatchesHaveBreak(cs), CatchesHaveContinue(cs), CatchesHaveBreak(cs[1..]), CatchesHaveContinue(cs[1..]));
      m, d := ThrowFromCatchSkipsFinally(k, cs[1..], fin, c.f, st, x);
      SameKept(k, f, c.f);
      RaisesAfter(k, f, st.budget, c.f, st.budget, 0, o.st, o.x, m, d);
    }
    RunAdd(k.w, k.code, n, m, Run(f));
    MoreRaises(k, f, st.budget, o.st, o.x, m, n + m, d);
    n, c := n + m, d;
  }

  lemma {:induction false} MoreRaises(k: Ctx, f: Frame, b: nat, st: State, x: Value, n: nat, m: nat, c: Config)
    requires Raises(k, f, b, st, x, n, c) && n <= m
    ensures Raises(k, f, b, st, x, m, c)
  {
  }

  /**
   A `try` with clauses and a `finally` body, whose own body threw: the machine runs the
   `finally` body and goes on as the `try` means exactly when the clause taken, if any, does
   not throw. When it throws, the `finally` body is skipped.
   */
  lemma {:induction false} FinallyAfterCatchExact(k: Ctx, s: Stmt, f: Frame, st: State) returns (n: nat, c: Config)
    requires k.catching && Ready(k, f, st) && OkS(s, true) && Aims(k.env, StmtHasBreak(s), StmtHasContinue(s))
    requires s.Try? && s.catches != [] && s.fin.Block? && AtCode(k, f.pc, CodeBody(s, f.pc, k.env))
    requires var t := ExecB(k.w, s.body, Inside(st), true); t.Thrown? && t.st.held == st.held + 1
    ensures RunN(k.w, k.code, n, Run(f)) == c
    ensures var t := ExecB(k.w, s.body, Inside(st), true);
            var o := ClauseEnds(k.w, s.catches, t.x, t.st.(held := st.held));
            if Taken(k.w, s.catches, t.x) && o.Thrown? then Raises(k, f, st.budget, o.st, o.x, n, c)
            else Ends(k, f, st.budget, Finish(k.w, s.fin, o, true), f.pc + |CodeBody(s, f.pc, k.env)|, n, c)
  {
    hide RunN, At, AtCode, Ends, Raises, CodeBody, CodeTry, CodeB, CodeClauses, Exec, ExecB, ExecCatch, OkS, OkB, OkCatches, OkOpt, Kept, Caught,
      SizeS, SizeB, SizeCatches, SizeOpt, SizeFins, Ready, HasBreak, HasContinue, CatchesHaveBreak, CatchesHaveContinue, Guarded,
      OptHasBreak, OptHasContinue, StmtHasBreak, StmtHasContinue, Within1, Finish, Aims, BodyOf, Taken;
    var t := ExecB(k.w, s.body, Inside(st), true);
    var st1 := t.st.(held := st.held);
    var o := ClauseEnds(k.w, s.catches, t.x, st1);
    UnfoldTry(k, s, f.pc, st);
    WatchedCatch(k.w, s.catches, t.x, st1);
    if Taken(k.w, s.catches, t.x) && o.Thrown? {
      var m, d := ReachHandler(k, s, f, st);
      PlaceTryCatch(k, s.body, s.catches, s.fin, f.pc);
      AimsPart(k.env, StmtHasBreak(s), StmtHasContinue(s), CatchesHaveBreak(s.catches), CatchesHaveContinue(s.catches));
      var m2, d2 := ThrowFromCatchSkipsFinally(k, s.catches, s.fin, d.f, st1, t.x);
      RunAdd(k.w, k.code, m, m2, Run(f));
      RaisesAfter(k, f, st.budget, d.f, t.st.budget, m, o.st, o.x, m2, d2);
      n, c := m + m2, d2;
    } else {
      n, c := RunTry(k, s, f, st);
    }
  }

  /** The body's exception arrives at the handler. */
  lemma {:induction false} ReachHandler(k: Ctx, s: Stmt, f: Frame, st: State) returns (n: nat, c: Config)
    requires k.catching && Ready(k, f, st) && OkS(s, true) && Aims(k.env, StmtHasBreak(s), StmtHasContinue(s))
    requires s.Try? && AtCode(k, f.pc, CodeBody(s, f.pc, k.env))
    requires var t := ExecB(k.w, s.body, Inside(st), true); t.Thrown? && t.st.held == st.held + 1
    ensures RunN(k.w, k.code, n, Run(f)) == c
    ensures var t := ExecB(k.w, s.body, Inside(st), true);
            && c.Run? && c.f.pc == HandlerOf(k, s, f.pc) && Ready(k, c.f, t.st.(held := st.held)) && Kept(k, f, c.f)
            && Caught(c.f, t.x) && n + t.st.budget >= st.budget
  {
    hide RunN, At, AtCode, Ends, Raises, CodeBody, CodeTry, CodeB, CodeClauses, Exec, ExecB, ExecCatch, OkS, OkB, OkCatches, OkOpt, Kept, Caught,
      SizeS, SizeB, SizeCatches, SizeOpt, SizeFins, Ready, HasBreak, HasContinue, CatchesHaveBreak, CatchesHaveContinue, Guarded,
      OptHasBreak, OptHasContinue, StmtHasBreak, StmtHasContinue, Within1, Finish, Aims, BodyOf, HandlerOf;
    var t := ExecB(k.w, s.body, Inside(st), true);
    UnfoldTry(k, s, f.pc, st);
    AimsPart(k.env, StmtHasBreak(s), StmtHasContinue(s), HasBreak(s.body), HasContinue(s.body));
    var h := Handler(HandlerOf(k, s, f.pc), |f.stack|);
    var f1 := f.(pc := f.pc + 1, handlers := f.handlers + [h]);
    var m, d := RunTryBody(k, s, f, st);
    ReadyMatch(k, f, st);
    EndsThrown(BodyCtx(k, s.fin, |f1.handlers|), f1, st.budget, t.st, t.x, f.pc + 1 + |CodeB(s.body, f.pc + 1, Within1(k.env, s.fin))|, m, d);
    ArriveAtHandler(k, s.fin, f, f1, st.budget, st, t.st, t.x, m, d, h);
    n, c := 1 + m, d;
  }

  /** The body of a `try` runs with the handler installed. */
  lemma {:induction false} RunTryBody(k: Ctx, s: Stmt, f: Frame, st: State) returns (m: nat, d: Config)
    requires Ready(k, f, st) && s.Try? && AtCode(k, f.pc, CodeBody(s, f.pc, k.env))
    requires OkB(s.body, k.catching) && OkOpt(s.fin, k.catching) && !OptHasBreak(s.fin) && !OptHasContinue(s.fin)
    requires Aims(k.env, HasBreak(s.body), HasContinue(s.body))
    ensures RunN(k.w, k.code, 1 + m, Run(f)) == d
    ensures var f1 := f.(pc := f.pc + 1, handlers := f.handlers + [Handler(HandlerOf(k, s, f.pc), |f.stack|)]);
            Ends(BodyCtx(k, s.fin, |f1.handlers|), f1, st.budget, ExecB(k.w, s.body, Inside(st), k.catching),
                 f.pc + 1 + |CodeB(s.body, f.pc + 1, Within1(k.env, s.fin))|, m, d)
  {
    hide RunN, At, AtCode, Ends, CodeBody, CodeTry, CodeB, CodeClauses, CodeRethrow, Exec, ExecB, ExecCatch, Finish, OkS, OkB, OkCatches, OkOpt,
      SizeS, SizeB, SizeCatches, SizeOpt, SizeFins, Ready, Guarded, Aims, HasBreak, HasContinue, CatchesHaveBreak,
      CatchesHaveContinue, OptHasBreak, OptHasContinue, StmtHasBreak, StmtHasContinue, BodyOf;
    UnfoldTry(k, s, f.pc, st);
    if s.catches == [] && s.fin.Block? {
      PlaceTryFinally(k, s.body, s.fin, f.pc);
    } else {
      PlaceTryCatch(k, s.body, s.catches, s.fin, f.pc);
    }
    var handler := HandlerOf(k, s, f.pc);
    EnterTry(k, f, st, handler);
    var f1 := f.(pc := f.pc + 1, handlers := f.handlers + [Handler(handler, |f.stack|)]);
    TryReady(k, s.fin, f1, Inside(st));
    BaseReady(TryCtx(k, s.fin), f1, Inside(st), |f1.handlers|);
    TryAims(k.env, s.fin, HasBreak(s.body), HasContinue(s.body));
    AtBodyCtx(k, s.fin, |f1.handlers|, f.pc + 1, CodeB(s.body, f.pc + 1, Within1(k.env, s.fin)));
    m, d := RunB(BodyCtx(k, s.fin, |f1.handlers|), s.body, f1, Inside(st));
    RunAdd(k.w, k.code, 1, m, Run(f));
  }

  /** `try { throw 1 } catch (any e) { throw 2 } finally { write "f" }`. */
  function SkippedFinally(): Stmt {
    Try([Throw(Some(Lit(Int(1))))], [Catch(None, "e", [Throw(Some(Lit(Int(2))))])], Block([Text("f")]))
  }

  lemma {:induction false} SkippedMeans(w: World, st: State)
    requires w.matches("any", w.wrap(Int(1)))
    ensures var s := SkippedFinally();
            var st1 := st.(vars := st.vars[Fold("e") := w.wrap(Int(1))]);
            && ExecB(w, s.body, Inside(st), true) == Thrown(Inside(st), w.wrap(Int(1)))
            && Taken(w, s.catches, w.wrap(Int(1)))
            && ClauseEnds(w, s.catches, w.wrap(Int(1)), st) == Thrown(st1, w.wrap(Int(2)))
            && (!w.watch ==> Exec(w, s, st, true) == Thrown(st1.(out := st.out + ["f"]), w.wrap(Int(2))))
  {
    var s := SkippedFinally();
    var st1 := st.(vars := st.vars[Fold("e") := w.wrap(Int(1))]);
    ThrowMeans(w, 1, Inside(st));
    ThrowMeans(w, 2, st1);
    assert ClauseType(s.catches[0]) == "any";
    var st2 := st1.(aside := st.aside + [w.wrap(Int(2))]);
    OneOff(w, Text("f"), st2, true);
    assert ExecB(w, [Text("f")], st2, true) == Normal(st2.(out := st.out + ["f"]));
    WatchedCatch(w, s.catches, w.wrap(Int(1)), st);
    if !w.watch {
      assert ExecTry(w, s.body, s.catches, s.fin, st, true) == Thrown(st1.(out := st.out + ["f"]), w.wrap(Int(2)));
    }
  }

  lemma {:induction false} ThrowMeans(w: World, n: int, st: State)
    ensures ExecB(w, [Throw(Some(Lit(Int(n))))], st, true) == Thrown(st, w.wrap(Int(n)))
  {
    var s := Throw(Some(Lit(Int(n))));
    OneOff(w, s, st, true);
    assert Eval(w, Lit(Int(n)), st.vars) == Val(Int(n));
    assert Exec(w, s, st, true) == Thrown(st, w.wrap(Int(n)));
  }

  lemma {:induction false} SkippedOk()
    ensures OkB([SkippedFinally()], true) && !StmtHasBreak(SkippedFinally()) && !StmtHasContinue(SkippedFinally())
  {
    var s := SkippedFinally();
    assert UserName("e") by { assert Fold("e") == "e" && |Fold(RETVAL)| > 1 && |Fold(SWITCH_PREFIX)| > 1; }
    OneOk(Throw(Some(Lit(Int(1)))));
    OneOk(Throw(Some(Lit(Int(2)))));
    OneOk(Text("f"));
    assert s.catches[1..] == [] && OkCatches([], true) && !CatchesHaveBreak([]) && !CatchesHaveContinue([]);
    assert OkCatches(s.catches, true) && !CatchesHaveBreak(s.catches) && !CatchesHaveContinue(s.catches);
    assert OkOpt(s.fin, true) && !OptHasBreak(s.fin) && !OptHasContinue(s.fin);
    assert OkS(s, true);
    assert [s][1..] == [] && OkB([], true);
  }

  lemma {:induction false} OneOk(s: Stmt)
    requires s.Text? || (s.Throw? && s.msg.Some? && s.msg.value.Lit?)
    ensures OkB([s], true) && !HasBreak([s]) && !HasContinue([s])
  {
    assert [s][1..] == [] && OkB([], true) && !HasBreak([]) && !HasContinue([]);
    assert OkS(s, true) && !StmtHasBreak(s) && !StmtHasContinue(s);
  }

  /** A whole program: its meaning writes "f" before it fails, the emitted code fails without. */
  lemma {:induction false} SkippedFinallyFails(w: World) returns (n: nat, c: Config)
    requires Lawful(w) && w.watch && w.matches("any", w.wrap(Int(1)))
    ensures RunFunction(Off(w), [SkippedFinally()], map[], 0, true)
         == Failed(w.wrap(Int(2)), map[Fold("e") := w.wrap(Int(1))], ["f"])
    ensures c == RunN(w, CodeFunction([SkippedFinally()]), n, Start(map[])) && c.Dead? && c.x == w.wrap(Int(2)) && c.out == []
  {
    hide RunN, At, Exec, ExecB, ExecCatch, CodeBody, SkippedFinally, OkS, OkB, StmtHasBreak, StmtHasContinue, Taken, ClauseEnds;
    var s := SkippedFinally();
    SkippedShape();
    var st := State(map[], [], 0);
    SkippedMeans(Off(w), st);
    SkippedMeans(w, st);
    SkippedOk();
    OneOff(Off(w), s, st, true);
    assert map[][Fold("e") := w.wrap(Int(1))] == map[Fold("e") := w.wrap(Int(1))];
    var code := CodeFunction([s]);
    var a := CodeBody(s, 1, NO_FRAMES);
    OneStatementCode(s);
    AfterLineInfo(code, Ops(a, 0, 0));
    var k := Ctx(w, code, NO_FRAMES, 0, 0, true);
    var f := Start(map[]).f;
    assert UserVars(map[]) == map[];
    UnfoldOk(s);
    n, c := FinallyAfterCatchExact(k, s, f.(pc := 1), st);
    StepSkip(w, code, f, LineInfo);
    RunAdd(w, code, 1, n, Run(f));
    n := 1 + n;
  }

  lemma {:induction false} SkippedShape()
    ensures SkippedFinally().Try? && SkippedFinally().catches != [] && SkippedFinally().fin.Block?
  {
  }

  lemma {:induction false} UnfoldOk(s: Stmt)
    requires OkB([s], true)
    ensures OkS(s, true)
  {
    hide OkS;
  }

  lemma {:induction false} OneStatementCode(s: Stmt)
    ensures CodeFunction([s]) == [LineInfo] + Ops(CodeBody(s, 1, NO_FRAMES), 0, 0) + [Const(Null), Ret]
  {
    hide CodeBody, SizeS;
    var a := CodeBody(s, 1, NO_FRAMES);
    assert [s][1..] == [];
    assert CodeB([s], 0, NO_FRAMES) == Fix([LineInfo]) + a;
    assert Ops(Fix([LineInfo]) + a, 0, 0) == [LineInfo] + Ops(a, 0, 0);
  }

  // ---- A jump out of a `try` leaves its handler behind ----

  /**
   However a `break` or `continue` leaves a `try` body, with or without clauses and a
   `finally` body: at the jump's target the handler of that `try` is still the innermost
   one, so the next exception, raised by code outside the `try`, goes to its clauses.
   */
  lemma {:induction false} JumpKeepsHandler(k: Ctx, s: Stmt, f: Frame, st: State) returns (n: nat, c: Config)
    requires k.catching && Ready(k, f, st) && s.Try? && AtCode(k, f.pc, CodeBody(s, f.pc, k.env))
    requires OkB(s.body, true) && OkOpt(s.fin, true) && !OptHasBreak(s.fin) && !OptHasContinue(s.fin)
    requires Aims(k.env, HasBreak(s.body), HasContinue(s.body)) && k.env.brk.Some? && k.env.cont.Some?
    requires var o := ExecB(k.w, s.body, Inside(st), true); (o.Broke? || o.Continued?) && Left(k, s.fin, o).Normal?
    ensures RunN(k.w, k.code, n, Run(f)) == c && c.Run?
    ensures var o := ExecB(k.w, s.body, Inside(st), true);
            && c.f.pc == (if o.Broke? then k.brkT else k.contT) && Match(c.f, Left(k, s.fin, o).st)
            && f.handlers + [Handler(HandlerOf(k, s, f.pc), |f.stack|)] <= c.f.handlers
            && (Left(k, s.fin, o).st.held == st.held + 1 ==>
                  && c.f.handlers == f.handlers + [Handler(HandlerOf(k, s, f.pc), |f.stack|)]
                  && forall x :: RaiseAt(c.f, x).Run? && RaiseAt(c.f, x).f.pc == HandlerOf(k, s, f.pc))
  {
    hide RunN, At, AtCode, CodeBody, CodeTry, CodeB, CodeClauses, CodeRethrow, Exec, ExecB, ExecCatch, Finish, OkS, OkB, OkCatches, OkOpt,
      SizeS, SizeB, SizeCatches, SizeOpt, SizeFins, Ready, Guarded, Aims, HasBreak, HasContinue, CatchesHaveBreak, Match, RetSlot,
      CatchesHaveContinue, OptHasBreak, OptHasContinue, StmtHasBreak, StmtHasContinue, BodyOf, Unwind, FinsAbove;
    var f1 := f.(pc := f.pc + 1, handlers := f.handlers + [Handler(HandlerOf(k, s, f.pc), |f.stack|)]);
    var m, d := RunTryBody(k, s, f, st);
    n, c := 1 + m, d;
    var o := ExecB(k.w, s.body, Inside(st), true);
    ReadyMatch(k, f, st);
    JumpLands(BodyCtx(k, s.fin, |f1.handlers|), f1, st.budget, o, f.pc + 1 + |CodeB(s.body, f.pc + 1, Within1(k.env, s.fin))|, m, d);
    LeftIsUnwound(k, s.fin, |f1.handlers|, o);
    if Left(k, s.fin, o).st.held == st.held + 1 {
      assert c.f.handlers == f1.handlers;
    }
  }

  lemma {:induction false} LeftIsUnwound(k: Ctx, fin: OptBlock, base: nat, o: Outcome)
    requires (o.Broke? || o.Continued?) && k.env.brk.Some? && k.env.cont.Some? && k.catching
    ensures var kb := BodyCtx(k, fin, base);
            && kb.env.brk == k.env.brk && kb.env.cont == k.env.cont && kb.brkT == k.brkT && kb.contT == k.contT
            && Left(k, fin, o)
               == Unwind(kb.w, FinsAbove(kb.env.fins, if o.Broke? then kb.env.brk.value else kb.env.cont.value), o.st, kb.catching)
  {
    hide Unwind, FinsAbove;
  }

  /** A jump whose pending bodies completed is at its target, with at least the handlers it had. */
  lemma {:induction false} JumpLands(k: Ctx, f: Frame, b: nat, o: Outcome, end: nat, n: nat, c: Config)
    requires (o.Broke? || o.Continued?) && k.env.brk.Some? && k.env.cont.Some? && Ends(k, f, b, o, end, n, c)
    requires Unwind(k.w, FinsAbove(k.env.fins, if o.Broke? then k.env.brk.value else k.env.cont.value), o.st, k.catching).Normal?
    ensures var u := Unwind(k.w, FinsAbove(k.env.fins, if o.Broke? then k.env.brk.value else k.env.cont.value), o.st, k.catching);
            && c.Run? && c.f.pc == (if o.Broke? then k.brkT else k.contT) && Match(c.f, u.st) && f.handlers <= c.f.handlers
            && |c.f.handlers| == u.st.held
  {
    hide Unwind, FinsAbove, UserVars, RetSlot;
  }

  /** The state after the `finally` bodies between a jump and its target, this `try`'s included. */
  ghost function Left(k: Ctx, fin: OptBlock, o: Outcome): Outcome
    requires o.Broke? || o.Continued?
    requires k.env.brk.Some? && k.env.cont.Some?
  {
    Unwind(k.w, FinsAbove(Within1(k.env, fin).fins, if o.Broke? then k.env.brk.value else k.env.cont.value), o.st, true)
  }
}
