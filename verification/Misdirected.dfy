/**
 Exceptions that end up elsewhere: one taken back from those set aside that was not the
 pending one, and one that goes to a handler left installed by a jump.
 */
module Misdirected {
  import opened Names
  import opened Ast
  import opened Shapes
  import opened Values
  import opened Semantics
  import opened Machine
  import opened Codegen
  import opened ExprCorrect
  import opened Fusion
  import opened Steps
  import opened Simulation
  import opened Placement
  import opened StmtCorrect
  import opened Watch
  import opened FunctionCorrect
  import opened Departures

  // ---- The exception taken back ----

  /**
   After a `finally` body on the path of an exception has completed, the machine raises the
   exception last set aside. That is the pending one exactly when the body left none of its own.
   */
  lemma {:induction false} RaisesLastAside(k: Ctx, fb: seq<Stmt>, f: Frame, st: State, x: Value) returns (n: nat, c: Config)
    requires k.catching && Ready(k, f, st) && f.last == Some(x)
    requires OkB(fb, k.catching) && !HasBreak(fb) && !HasContinue(fb)
    requires AtCode(k, f.pc, CodeRethrow(Block(fb), f.pc, k.env))
    requires ExecB(k.w, fb, Pending(Thrown(st, x)), k.catching).Normal?
    ensures RunN(k.w, k.code, n, Run(f)) == c
    ensures var o := ExecB(k.w, fb, Pending(Thrown(st, x)), k.catching);
            && st.aside + [x] <= o.st.aside
            && Raises(k, f, st.budget, TakenBack(o.st), LastAside(o.st).value, n, c)
            && (LastAside(o.st) == Some(x) <==> Finish(k.w, Block(fb), Thrown(st, x), k.catching) == Thrown(TakenBack(o.st), x))
  {
    hide RunN, At, AtCode, Ends, Lands, CodeB, CodeRethrow, ExecB, OkB, SizeB, SizeFins, Ready, HasBreak, HasContinue, Raises, Finish, Kept, Aims;
    ReadyWatch(k, f, st);
    UnfoldThrown(k.w, fb, st, x, k.catching);
    PlaceRethrow(k, fb, f.pc);
    AtOne(k.code, f.pc, [SaveExc], 0);
    StepSave(k.w, k.code, f);
    var f1 := f.(pc := f.pc + 1, saves := f.saves + [Some(x)]);
    SavedReady(k, f, f1, st, x);
    var mid := f.pc + 1 + |CodeB(fb, f.pc + 1, k.env)|;
    var st1 := Pending(Thrown(st, x));
    NoAims(k.env);
    var m, d := RunB(k, fb, f1, st1);
    RunAdd(k.w, k.code, 1, m, Run(f));
    var o := ExecB(k.w, fb, st1, k.catching);
    assert Within(o, st1);
    EndsNormal(k, f1, st.budget, o.st, mid, m, d);
    var m2, d2 := RestoreAndRaise(k, f, f1, st.budget, o.st, LastAside(o.st).value, mid, m, d);
    RunAdd(k.w, k.code, 1 + m, m2, Run(f));
    n, c := 1 + m + m2, d2;
  }

  lemma {:induction false} NoAims(env: Env)
    ensures Aims(env, false, false)
  {
  }

  /** `try { throw 2 } finally { throw 3 }`. */
  function Replaced(): Stmt { Try([Thrower(2)], [], Block([Thrower(3)])) }

  function Thrower(n: int): Stmt { Throw(Some(Lit(Int(n)))) }

  /** `try { try { throw 2 } finally { throw 3 } } catch (any e) {}`. */
  function Swallowed(): Stmt { Try([Replaced()], [Catch(None, "e", [])], Absent) }

  /** `try { throw 1 } finally { … }` around it. */
  function Lost(): Stmt { Try([Thrower(1)], [], Block([Swallowed()])) }

  lemma {:induction false} ReplacedMeans(w: World, st: State)
    ensures Exec(w, Replaced(), st, true) == Thrown(st.(aside := st.aside + [w.wrap(Int(2))]), w.wrap(Int(3)))
  {
    hide ExecB;
    var s := Replaced();
    ThrowMeans(w, 2, Inside(st));
    ThrowMeans(w, 3, st.(aside := st.aside + [w.wrap(Int(2))]));
    assert ExecCatch(w, [], true, w.wrap(Int(2)), st) == Thrown(st, w.wrap(Int(2)));
    assert ExecTry(w, s.body, [], s.fin, st, true) == Thrown(st.(aside := st.aside + [w.wrap(Int(2))]), w.wrap(Int(3)));
  }

  function Swallows(w: World, st: State): State {
    st.(aside := st.aside + [w.wrap(Int(2))], vars := st.vars[Fold("e") := w.wrap(Int(3))])
  }

  lemma {:induction false} SwallowedMeans(w: World, st: State)
    requires w.matches("any", w.wrap(Int(3)))
    ensures ExecB(w, [Swallowed()], st, true) == Normal(Swallows(w, st))
  {
    hide Replaced;
    var s := Swallowed();
    ReplacedMeans(w, Inside(st));
    OneOff(w, Replaced(), Inside(st), true);
    var st1 := st.(aside := st.aside + [w.wrap(Int(2))]);
    var st2 := Swallows(w, st);
    assert ExecB(w, [], st2, true) == Normal(st2);
    assert ClauseType(s.catches[0]) == "any";
    assert ExecCatch(w, s.catches, false, w.wrap(Int(3)), st1) == Normal(st2);
    assert ExecTry(w, s.body, s.catches, s.fin, st, true) == Normal(st2);
    OneOff(w, s, st, true);
  }

  lemma {:induction false} LostMeans(w: World, st: State)
    requires w.matches("any", w.wrap(Int(3))) && !w.watch
    ensures var st1 := Swallows(w, st.(aside := st.aside + [w.wrap(Int(1))]));
            Exec(w, Lost(), st, true) == Thrown(TakenBack(st1), w.wrap(Int(1)))
  {
    hide ExecB, Swallowed;
    var s := Lost();
    ThrowMeans(w, 1, Inside(st));
    assert ExecCatch(w, [], true, w.wrap(Int(1)), st) == Thrown(st, w.wrap(Int(1)));
    SwallowedMeans(w, st.(aside := st.aside + [w.wrap(Int(1))]));
    assert Exec(w, s, st, true) == ExecTry(w, s.body, s.catches, s.fin, st, true);
  }

  lemma {:induction false} TryOkay(body: seq<Stmt>, cs: seq<Catch>, fin: OptBlock)
    requires OkB(body, true) && !HasBreak(body) && !HasContinue(body)
    requires cs == [] || (|cs| == 1 && cs[0].body == [] && UserName(cs[0].name))
    requires fin.Block? ==> OkB(fin.ss, true) && !HasBreak(fin.ss) && !HasContinue(fin.ss)
    ensures var s := Try(body, cs, fin); OkS(s, true) && OkB([s], true) && !HasBreak([s]) && !HasContinue([s])
    ensures var s := Try(body, cs, fin); !StmtHasBreak(s) && !StmtHasContinue(s)
  {
    hide UserName;
    var s := Try(body, cs, fin);
    assert [s][1..] == [] && OkB([], true) && !HasBreak([]) && !HasContinue([]);
    assert OkCatches([], true) && !CatchesHaveBreak([]) && !CatchesHaveContinue([]);
    if cs != [] {
      assert cs[1..] == [];
    }
    assert OkCatches(cs, true) && !CatchesHaveBreak(cs) && !CatchesHaveContinue(cs);
    assert OkOpt(fin, true) && !OptHasBreak(fin) && !OptHasContinue(fin);
    assert OkS(s, true);
  }

  lemma {:induction false} UserE()
    ensures UserName("e")
  {
    assert Fold("e") == "e" && |Fold(RETVAL)| > 1 && |Fold(SWITCH_PREFIX)| > 1;
  }

  lemma {:induction false} LostOk()
    ensures OkB([Swallowed()], true) && !HasBreak([Swallowed()]) && !HasContinue([Swallowed()])
    ensures OkS(Lost(), true) && !StmtHasBreak(Lost()) && !StmtHasContinue(Lost())
  {
    hide OkB, OkS, HasBreak, HasContinue, UserName, StmtHasBreak, StmtHasContinue;
    UserE();
    OneOk(Thrower(1));
    OneOk(Thrower(2));
    OneOk(Thrower(3));
    TryOkay([Thrower(2)], [], Block([Thrower(3)]));
    TryOkay([Replaced()], [Catch(None, "e", [])], Absent);
    TryOkay([Thrower(1)], [], Block([Swallowed()]));
  }

  /**
   A whole program: it means failing with 1, the pending exception; the emitted code fails with
   2, which the inner `finally` had replaced and left aside.
   */
  lemma {:induction false} LostException(w: World) returns (n: nat, c: Config)
    requires Lawful(w) && w.watch && w.matches("any", w.wrap(Int(3)))
    ensures RunFunction(Off(w), [Lost()], map[], 0, true) == Failed(w.wrap(Int(1)), map[Fold("e") := w.wrap(Int(3))], [])
    ensures c == RunN(w, CodeFunction([Lost()]), n, Start(map[])) && c.Dead? && c.x == w.wrap(Int(2)) && c.out == []
  {
    hide RunN, At, AtCode, Exec, ExecB, ExecCatch, CodeBody, CodeB, Lost, OkS, OkB, StmtHasBreak, StmtHasContinue, Ready, Kept, CodeFunction;
    var s := Lost();
    var st := State(map[], [], 0);
    LostFails(Off(w));
    var code := CodeFunction([s]);
    OneStatementCode(s);
    AfterLineInfo(code, Ops(CodeBody(s, 1, NO_FRAMES), 0, 0));
    var k := Ctx(w, code, NO_FRAMES, 0, 0, true);
    var f := Start(map[]).f;
    StartReady(k, f.(pc := 1), st);
    OneAt(k, CodeBody(s, 1, NO_FRAMES));
    var m, d := LostRun(k, f.(pc := 1), st);
    StepSkip(w, code, f, LineInfo);
    RunAdd(w, code, 1, m, Run(f));
    n, c := 1 + m, d;
  }

  lemma {:induction false} LostFails(w: World)
    requires w.matches("any", w.wrap(Int(3))) && !w.watch
    ensures RunFunction(w, [Lost()], map[], 0, true) == Failed(w.wrap(Int(1)), map[Fold("e") := w.wrap(Int(3))], [])
  {
    hide Exec, ExecB, Lost, Fold;
    var st := State(map[], [], 0);
    LostMeans(w, st);
    OneOff(w, Lost(), st, true);
    assert map[][Fold("e") := w.wrap(Int(3))] == map[Fold("e") := w.wrap(Int(3))];
  }

  /** The emitted code, from the `try` on. */
  lemma {:induction false} LostRun(k: Ctx, f: Frame, st: State) returns (n: nat, c: Config)
    requires Ready(k, f, st) && k.env == NO_FRAMES && k.catching && k.base == 0 && st.held == 0 && st.aside == [] && st.out == []
    requires AtCode(k, f.pc, CodeBody(Lost(), f.pc, k.env)) && k.w.matches("any", k.w.wrap(Int(3)))
    ensures RunN(k.w, k.code, n, Run(f)) == c && c.Dead? && c.x == k.w.wrap(Int(2)) && c.out == []
  {
    hide RunN, At, AtCode, Exec, ExecB, ExecCatch, CodeBody, CodeB, CodeRethrow, Swallowed, OkS, OkB, StmtHasBreak, StmtHasContinue, HasBreak,
      HasContinue, CodeTry, Ready, Kept, Caught, Aims, Raises, Within1, Finish;
    var s := Lost();
    var x := k.w.wrap(Int(1));
    LostOk();
    ThrowMeans(k.w, 1, Inside(st));
    NoAims(k.env);
    var m, d := ReachHandler(k, s, f, st);
    LostHandler(k, f.pc);
    SwallowedMeans(k.w, Pending(Thrown(st, x)));
    CaughtLast(d.f, x);
    var m2, d2 := RaisesLastAside(k, [Swallowed()], d.f, st, x);
    RunAdd(k.w, k.code, m, m2, Run(f));
    n, c := m + m2, d2;
    var st1 := Swallows(k.w, Pending(Thrown(st, x)));
    assert LastAside(st1) == Some(k.w.wrap(Int(2)));
    DeadShows(k, d.f, st.budget, TakenBack(st1), k.w.wrap(Int(2)), m2, d2);
  }

  lemma {:induction false} LostHandler(k: Ctx, at: nat)
    requires AtCode(k, at, CodeBody(Lost(), at, k.env))
    ensures AtCode(k, HandlerOf(k, Lost(), at), CodeRethrow(Block([Swallowed()]), HandlerOf(k, Lost(), at), k.env))
  {
    hide At, AtCode, CodeB, CodeRethrow, Swallowed, CodeTry;
    var s := Lost();
    assert CodeBody(s, at, k.env) == CodeTry(s.body, s.catches, s.fin, at, k.env);
    PlaceTryFinally(k, s.body, s.fin, at);
  }

  lemma {:induction false} DeadShows(k: Ctx, f: Frame, b: nat, st: State, x: Value, n: nat, c: Config)
    requires Raises(k, f, b, st, x, n, c) && k.base == 0 && st.held == 0
    ensures c.Dead? && c.x == x && c.out == st.out
  {
  }

  lemma {:induction false} StartReady(k: Ctx, f: Frame, st: State)
    requires Lawful(k.w) && k.w.watch && k.env == NO_FRAMES
    requires f.vars == st.vars == map[] && f.out == st.out && f.saves == [] && st.aside == [] && f.handlers == [] && st.held == 0
    ensures Ready(k, f, st)
  {
    assert UserVars(map[]) == map[];
  }

  lemma {:induction false} OneAt(k: Ctx, es: seq<Emit>)
    requires At(k.code, 1, Ops(es, 0, 0)) && k.brkT == 0 && k.contT == 0
    ensures AtCode(k, 1, es)
  {
  }

  lemma {:induction false} CaughtLast(f: Frame, x: Value)
    requires Caught(f, x)
    ensures f.last == Some(x)
  {
  }

  // ---- The handler left installed ----

  /** `do { try { break } catch (any e) { write "c" } } while (false); throw 1`. */
  function Leaver(): seq<Stmt> {
    [DoWhile([Try([Break], [Catch(None, "e", [Text("c")])], Absent)], Lit(Bool(false))), Thrower(1)]
  }

  const CLAUSE_CODE: seq<Op> :=
    [CatchMatch("any"), JumpIfFalse(14), Declare("e"), StoreVar("e"), LineInfo, WriteText("c"), Jump(16), Pop, Rethrow]

  const GUARD_CODE: seq<Op> := [LineInfo, TryStart(7), LineInfo, Jump(18), TryEnd, Jump(16)] + CLAUSE_CODE

  const LOOP_CODE: seq<Op> := [LineInfo] + GUARD_CODE + [Const(Bool(false)), JumpIfTrue(1)]

  const LEAVER_CODE: seq<Op> := LOOP_CODE + [LineInfo, Const(Int(1)), ThrowOp, Const(Null), Ret]

  /** The instructions that are run. */
  predicate IsLeaver(code: seq<Op>) {
    && |code| == 23 && code[0] == code[1] == code[3] == LineInfo && code[2] == TryStart(7) && code[4] == Jump(18)
    && code[7] == CatchMatch("any") && code[8] == JumpIfFalse(14) && code[9] == Declare("e") && code[10] == StoreVar("e")
    && code[11] == LineInfo && code[12] == WriteText("c") && code[13] == Jump(16)
    && code[16] == Const(Bool(false)) && code[17] == JumpIfTrue(1)
    && code[18] == LineInfo && code[19] == Const(Int(1)) && code[20] == ThrowOp
  }

  lemma {:induction false} LeaverIs()
    ensures IsLeaver(LEAVER_CODE)
  {
    var head := [LineInfo, TryStart(7), LineInfo, Jump(18), TryEnd, Jump(16)];
    var tail, last := [Const(Bool(false)), JumpIfTrue(1)], [LineInfo, Const(Int(1)), ThrowOp, Const(Null), Ret];
    Parts(LEAVER_CODE, head, CLAUSE_CODE, tail, last);
    IsParts(LEAVER_CODE, head, CLAUSE_CODE, tail, last);
  }

  lemma {:induction false} Parts(code: seq<Op>, head: seq<Op>, clause: seq<Op>, tail: seq<Op>, last: seq<Op>)
    requires code == [LineInfo] + (head + clause) + tail + last && |head| == 6 && |clause| == 9 && |tail| == 2 && |last| == 5
    ensures |code| == 23 && code[0] == LineInfo
    ensures code[1..7] == head && code[7..16] == clause && code[16..18] == tail && code[18..] == last
  {
  }

  lemma {:induction false} IsParts(code: seq<Op>, head: seq<Op>, clause: seq<Op>, tail: seq<Op>, last: seq<Op>)
    requires |code| == 23 && code[0] == LineInfo
    requires code[1..7] == head && code[7..16] == clause && code[16..18] == tail && code[18..] == last
    requires head[0] == head[2] == LineInfo && head[1] == TryStart(7) && head[3] == Jump(18)
    requires clause[0] == CatchMatch("any") && clause[1] == JumpIfFalse(14) && clause[2] == Declare("e") && clause[3] == StoreVar("e")
    requires clause[4] == LineInfo && clause[5] == WriteText("c") && clause[6] == Jump(16)
    requires tail[0] == Const(Bool(false)) && tail[1] == JumpIfTrue(1)
    requires last[0] == LineInfo && last[1] == Const(Int(1)) && last[2] == ThrowOp
    ensures IsLeaver(code)
  {
  }

  lemma {:induction false} Joined(a: seq<Op>, b: seq<Op>)
    ensures Fix(a + b) == Fix(a) + Fix(b)
  {
  }

  lemma {:induction false} ClauseCode(env: Env)
    requires env.fins == []
    ensures CodeClauses([Catch(None, "e", [Text("c")])], Absent, 7, env)
         == Fix(CLAUSE_CODE)
  {
    var cs := [Catch(None, "e", [Text("c")])];
    assert [Text("c")][1..] == [] && CodeB([], 13, env) == [];
    assert CodeS(Text("c"), 11, env) == Fix([LineInfo, WriteText("c")]);
    assert CodeB([Text("c")], 11, env) == Fix([LineInfo, WriteText("c")]);
    assert cs[1..] == [] && CodeClauses([], Absent, 14, env) == Fix([Pop, Rethrow]);
    assert ClauseHead(cs[0], 14) == [CatchMatch("any"), JumpIfFalse(14), Declare("e"), StoreVar("e")];
  }

  lemma {:induction false} BreakCode(env: Env)
    requires env.fins == [] && env.brk == Some(0)
    ensures CodeB([Break], 3, env) == [Fixed(LineInfo), ToBreak]
  {
    assert FinsAbove(env.fins, 0) == [] && CodeUnwind([], 4, Detached(env)) == [];
    assert CodeBody(Break, 4, env) == CodeBreak(env, 4) == [ToBreak];
    assert CodeS(Break, 3, env) == [Fixed(LineInfo), ToBreak];
    assert [Break][1..] == [] && CodeB([], 5, env) == [];
  }

  lemma {:induction false} GuardCode(env: Env)
    requires env.fins == [] && env.brk == Some(0)
    ensures CodeB(Leaver()[0].body, 1, env)
         == [Fixed(LineInfo), Fixed(TryStart(7)), Fixed(LineInfo), ToBreak, Fixed(TryEnd), Fixed(Jump(16))]
            + CodeClauses([Catch(None, "e", [Text("c")])], Absent, 7, env)
    ensures |CodeClauses([Catch(None, "e", [Text("c")])], Absent, 7, env)| == 9
  {
    hide CodeClauses;
    var s := Leaver()[0].body[0];
    BreakCode(env);
    ClauseCode(env);
    var h := CodeClauses(s.catches, Absent, 7, env);
    assert CodeB([], 16, env) == [];
    assert CodeTry(s.body, s.catches, Absent, 2, env)
        == [Fixed(TryStart(7)), Fixed(LineInfo), ToBreak, Fixed(TryEnd), Fixed(Jump(16))] + h;
    assert CodeS(s, 1, env) == [Fixed(LineInfo)] + CodeTry(s.body, s.catches, Absent, 2, env);
    assert [s][1..] == [];
  }

  lemma {:induction false} FillParts(a: seq<Emit>)
    requires a == [Fixed(LineInfo), Fixed(TryStart(7)), Fixed(LineInfo), ToBreak, Fixed(TryEnd), Fixed(Jump(16))] + Fix(CLAUSE_CODE)
    ensures Fill(a, 18, 16) == Fix(GUARD_CODE)
  {
    var head := [LineInfo, TryStart(7), LineInfo, Jump(18), TryEnd, Jump(16)];
    Joined(head, CLAUSE_CODE);
    var b := FillBreak(a, 18);
    forall i | 0 <= i < 15
      ensures Fill(a, 18, 16)[i] == Fix(GUARD_CODE)[i]
    {
      if i >= 6 {
        assert a[i] == Fix(CLAUSE_CODE)[i - 6];
      } else {
        assert Fix(GUARD_CODE)[i] == Fixed(head[i]);
      }
      assert b[i] == Fix(GUARD_CODE)[i];
    }
  }

  lemma {:induction false} LoopCode(env: Env)
    requires env.fins == []
    ensures CodeS(Leaver()[0], 0, env) == Fix(LOOP_CODE)
  {
    hide CodeB, CodeClauses, Fill, CountedBody;
    var s := Leaver()[0];
    GuardCode(InLoop(env));
    ClauseCode(InLoop(env));
    var a := CodeB(s.body, 1, InLoop(env));
    FillParts(a);
    assert CodeE(s.cond, 16) == [Const(Bool(false))];
    hide CodeE, GUARD_CODE;
    NotCounted(s.body);
    DoCode(s.cond, s.body, 1, env);
    Joined([LineInfo] + GUARD_CODE, [Const(Bool(false)), JumpIfTrue(1)]);
    Joined([LineInfo], GUARD_CODE);
    assert CodeBody(s, 1, env) == CodeDo(s.cond, s.body, 1, env) == Fix(GUARD_CODE) + Fix([Const(Bool(false)), JumpIfTrue(1)]);
    assert CodeS(s, 0, env) == Fix([LineInfo]) + CodeBody(s, 1, env);
  }

  lemma {:induction false} NotCounted(body: seq<Stmt>)
    ensures CountedBody(Lit(Bool(false)), body).None?
  {
  }

  lemma {:induction false} DoCode(cond: Expr, body: seq<Stmt>, at: nat, env: Env)
    requires CountedBody(cond, body).None?
    ensures var a := CodeB(body, at, InLoop(env));
            var t := CodeE(cond, at + |a|);
            CodeDo(cond, body, at, env) == Fill(a, at + |a| + |t| + 1, at + |a|) + Fix(t + [JumpIfTrue(at)])
  {
    hide CodeB, CodeE, CountedBody, Fill;
  }

  lemma {:induction false} LeaverCode()
    ensures CodeFunction(Leaver()) == LEAVER_CODE
  {
    var env := NO_FRAMES;
    var loop, rest := Leaver()[0], [Thrower(1)];
    LoopCode(env);
    assert Leaver() == [loop] + rest;
    ThrowerCode(env);
    hide CodeS, LOOP_CODE;
    CodeAppend([loop], rest, 0, env);
    assert [loop][1..] == [] && CodeB([loop], 0, env) == CodeS(loop, 0, env) + CodeB([], |LOOP_CODE|, env);
    assert CodeB(Leaver(), 0, env) == Fix(LOOP_CODE) + Fix([LineInfo, Const(Int(1)), ThrowOp]);
    OpsOf(LOOP_CODE, [LineInfo, Const(Int(1)), ThrowOp]);
  }

  lemma {:induction false} ThrowerCode(env: Env)
    ensures CodeB([Thrower(1)], |LOOP_CODE|, env) == Fix([LineInfo, Const(Int(1)), ThrowOp])
  {
    var at := |LOOP_CODE|;
    assert CodeE(Lit(Int(1)), at + 1) == [Const(Int(1))];
    assert CodeS(Thrower(1), at, env) == Fix([LineInfo, Const(Int(1)), ThrowOp]);
    assert [Thrower(1)][1..] == [] && CodeB([], at + 3, env) == [];
  }

  lemma {:induction false} OpsOf(a: seq<Op>, b: seq<Op>)
    ensures Ops(Fix(a) + Fix(b), 0, 0) == a + b
  {
  }

  lemma {:induction false} GuardMeans(w: World, st: State)
    ensures ExecB(w, Leaver()[0].body, st, true) == Broke(Inside(st))
  {
    hide ExecB;
    var s := Leaver()[0].body[0];
    OneOff(w, Break, Inside(st), true);
    assert Exec(w, Break, Inside(st), true) == Broke(Inside(st));
    assert ExecTry(w, s.body, s.catches, Absent, st, true) == Broke(Inside(st));
    assert Exec(w, s, st, true) == ExecTry(w, s.body, s.catches, Absent, st, true);
    OneOff(w, s, st, true);
  }

  lemma {:induction false} LeaverMeans(w: World, st: State)
    requires st.budget > 0 && !w.watch
    ensures ExecB(w, Leaver(), st, true) == Thrown(Inside(st), w.wrap(Int(1)))
  {
    hide ExecB, Exec, ExecDo;
    var s := Leaver()[0];
    GuardMeans(w, st);
    NotCounted(s.body);
    UnfoldDoMeans(w, s.cond, s.body, st);
    UnfoldB(w, Leaver(), st, true);
    assert Leaver()[1..] == [Thrower(1)];
    ThrowMeans(w, 1, Inside(st));
  }

  lemma {:induction false} UnfoldDoMeans(w: World, cond: Expr, body: seq<Stmt>, st: State)
    requires ExecB(w, body, st, true).Broke? && !w.watch && CountedBody(cond, body).None?
    ensures Exec(w, DoWhile(body, cond), st, true) == Normal(ExecB(w, body, st, true).st)
  {
    hide ExecB;
    UnfoldExecDo(w, cond, body, st, true);
  }

  /** From the start to the exception, which goes to the handler. */
  lemma {:induction false} LeaverThrows(w: World, code: seq<Op>, f: Frame)
    requires IsLeaver(code) && f == Frame(0, [], map[], [], [], None, [])
    ensures RunN(w, code, 8, Run(f)) == Run(f.(pc := 7, stack := [w.wrap(Int(1))], last := Some(w.wrap(Int(1)))))
  {
    hide RunN, Exec1, RaiseAt;
    var g := f.(handlers := [Handler(7, 0)]);
    assert [] + [Handler(7, 0)] == g.handlers;
    StepSkip(w, code, f, LineInfo);
    StepSkip(w, code, f.(pc := 1), LineInfo);
    RunAdd(w, code, 1, 1, Run(f));
    StepTryStart(w, code, f.(pc := 2), 7);
    RunAdd(w, code, 2, 1, Run(f));
    StepSkip(w, code, g.(pc := 3), LineInfo);
    RunAdd(w, code, 3, 1, Run(f));
    StepJump(w, code, g.(pc := 4), 18);
    RunAdd(w, code, 4, 1, Run(f));
    ThrowsOne(w, code, g.(pc := 18));
    RunAdd(w, code, 5, 3, Run(f));
    OneHandler(g.(pc := 20), Handler(7, 0), w.wrap(Int(1)));
    assert g.(pc := 20).(pc := 7, stack := [w.wrap(Int(1))], handlers := [], last := Some(w.wrap(Int(1))))
        == f.(pc := 7, stack := [w.wrap(Int(1))], last := Some(w.wrap(Int(1))));
  }

  lemma {:induction false} OneHandler(f: Frame, h: Handler, x: Value)
    requires f.handlers == [h] && f.stack == []
    ensures RaiseAt(f, x) == Run(f.(pc := h.pc, stack := [x], handlers := [], last := Some(x)))
  {
    assert [] + [x] == [x];
  }

  /** `throw 1`, at the end of the program. */
  lemma {:induction false} ThrowsOne(w: World, code: seq<Op>, f: Frame)
    requires IsLeaver(code) && f.pc == 18 && f.stack == []
    ensures RunN(w, code, 3, Run(f)) == RaiseAt(f.(pc := 20), w.wrap(Int(1)))
  {
    hide RunN, Exec1, RaiseAt;
    StepSkip(w, code, f, LineInfo);
    StepConst(w, code, f.(pc := 19), Int(1));
    RunAdd(w, code, 1, 1, Run(f));
    var g := f.(pc := 20, stack := [] + [Int(1)]);
    ThrowRaises(w, code, g, [], Int(1));
    RunAdd(w, code, 2, 1, Run(f));
  }

  lemma {:induction false} ThrowRaises(w: World, code: seq<Op>, f: Frame, stack: seq<Value>, v: Value)
    requires f.pc < |code| && code[f.pc] == ThrowOp && f.stack == stack + [v]
    ensures RunN(w, code, 1, Run(f)) == RaiseAt(f.(stack := stack), w.wrap(v))
  {
    Advance(w, code, f, ThrowOp);
    assert Front(f.stack) == stack;
  }

  /** The clause runs, the loop ends, and the exception is thrown again, now with no handler left. */
  lemma {:induction false} LeaverCatches(w: World, code: seq<Op>, f: Frame, x: Value)
    requires IsLeaver(code) && w.matches("any", x)
    requires f == Frame(7, [x], map[], [], [], Some(x), [])
    ensures RunN(w, code, 12, Run(f)) == Dead(w.wrap(Int(1)), map[Fold("e") := x], ["c"])
  {
    hide RunN, RaiseAt, Fold;
    var h := Frame(16, [], map[Fold("e") := x], ["c"], [], Some(x), []);
    ClauseEntered(w, code, f, x);
    assert map[][Fold("e") := x] == map[Fold("e") := x];
    ClauseWrites(w, code, Frame(11, [], map[Fold("e") := x], [], [], Some(x), []));
    RunAdd(w, code, 4, 3, Run(f));
    LoopEnds(w, code, h);
    RunAdd(w, code, 7, 2, Run(f));
    ThrowsOne(w, code, h.(pc := 18));
    RunAdd(w, code, 9, 3, Run(f));
    NoHandler(h.(pc := 20), w.wrap(Int(1)));
  }

  lemma {:induction false} ClauseWrites(w: World, code: seq<Op>, g: Frame)
    requires IsLeaver(code) && g.pc == 11 && g.out == []
    ensures RunN(w, code, 3, Run(g)) == Run(g.(pc := 16, out := ["c"]))
  {
    hide RunN, Exec1;
    assert code[11] == LineInfo && code[12] == WriteText("c") && code[13] == Jump(16);
    hide IsLeaver;
    StepSkip(w, code, g, LineInfo);
    StepText(w, code, g.(pc := 12), "c");
    RunAdd(w, code, 1, 1, Run(g));
    assert g.out + ["c"] == ["c"];
    StepJump(w, code, g.(pc := 13, out := ["c"]), 16);
    RunAdd(w, code, 2, 1, Run(g));
  }

  lemma {:induction false} LoopEnds(w: World, code: seq<Op>, h: Frame)
    requires IsLeaver(code) && h.pc == 16 && h.stack == []
    ensures RunN(w, code, 2, Run(h)) == Run(h.(pc := 18))
  {
    hide RunN, Exec1;
    StepConst(w, code, h, Bool(false));
    StepBranch(w, code, h.(pc := 17, stack := [] + [Bool(false)]), true, 1, [], Bool(false));
    RunAdd(w, code, 1, 1, Run(h));
  }

  lemma {:induction false} NoHandler(f: Frame, x: Value)
    requires f.handlers == []
    ensures RaiseAt(f, x) == Dead(x, f.vars, f.out)
  {
  }

  lemma {:induction false} ClauseEntered(w: World, code: seq<Op>, f: Frame, x: Value)
    requires IsLeaver(code) && w.matches("any", x) && f.pc == 7 && f.stack == [x]
    ensures RunN(w, code, 4, Run(f)) == Run(f.(pc := 11, stack := [], vars := f.vars[Fold("e") := x]))
  {
    hide RunN, Exec1, Fold;
    assert code[7] == CatchMatch("any") && code[8] == JumpIfFalse(14) && code[9] == Declare("e") && code[10] == StoreVar("e");
    hide IsLeaver;
    ClauseTested(w, code, f, x);
    StepSkip(w, code, f.(pc := 9), Declare("e"));
    RunAdd(w, code, 2, 1, Run(f));
    StepStore(w, code, f.(pc := 10), "e", [], x);
    RunAdd(w, code, 3, 1, Run(f));
  }

  lemma {:induction false} ClauseTested(w: World, code: seq<Op>, f: Frame, x: Value)
    requires |code| > 8 && code[7] == CatchMatch("any") && code[8] == JumpIfFalse(14)
    requires w.matches("any", x) && f.pc == 7 && f.stack == [x]
    ensures RunN(w, code, 2, Run(f)) == Run(f.(pc := 9))
  {
    hide RunN, Exec1;
    StepCatchMatch(w, code, f, "any");
    StepBranch(w, code, f.(pc := 8, stack := [x] + [Bool(true)]), false, 14, [x], Bool(true));
    RunAdd(w, code, 1, 1, Run(f));
  }

  /**
   A whole program: it means failing with nothing written; in the emitted code the exception is
   thrown to the clause of the `try` that was left before, which writes, and is then thrown again.
   */
  lemma {:induction false} HandlerLeft(w: World)
    requires !w.watch && w.matches("any", w.wrap(Int(1)))
    ensures RunFunction(w, Leaver(), map[], 1, true) == Failed(w.wrap(Int(1)), map[], [])
    ensures RunN(w, CodeFunction(Leaver()), 20, Start(map[]))
         == Dead(w.wrap(Int(1)), map[Fold("e") := w.wrap(Int(1))], ["c"])
  {
    hide RunN, ExecB, Leaver, CodeFunction, Fold, IsLeaver, LEAVER_CODE;
    LeaverMeans(w, State(map[], [], 1));
    LeaverCode();
    LeaverIs();
    var f := Start(map[]).f;
    LeaverThrows(w, LEAVER_CODE, f);
    LeaverCatches(w, LEAVER_CODE, f.(pc := 7, stack := [w.wrap(Int(1))], last := Some(w.wrap(Int(1)))), w.wrap(Int(1)));
    RunAdd(w, LEAVER_CODE, 8, 12, Run(f));
  }
}
