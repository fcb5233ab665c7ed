/**
 A program followed from its text to the machine's last state, for every bound: the
 numbers below it added up by a counted loop.
 */
module Summing {
  import opened Names
  import opened Ast
  import opened Shapes
  import opened Values
  import opened Semantics
  import opened Machine
  import opened Codegen
  import opened Fusion
  import opened Simulation
  import opened Watch
  import opened FunctionCorrect

  const COUNT_UP: Step := IncDec("i", true)

  const ADD: seq<Stmt> := [Assign("s", PlusEq, Var("i"))]

  function Below(k: int): Expr { Bin(Lt, Var("i"), Lit(Int(k))) }

  /** `s = 0; for (i = 0; i < k; i++) { s += i }`. */
  function Program(k: int): seq<Stmt> {
    [Assign("s", Set, Lit(Int(0))), For(Some(InitStep(SetTo("i", Lit(Int(0))))), Some(Below(k)), Some(COUNT_UP), ADD)]
  }

  function Counting(i: int, sum: int, budget: nat): State { State(map["i" := Int(i), "s" := Int(sum)], [], budget) }

  lemma {:induction false} FoldIs()
    ensures Fold("i") == "i" && Fold("s") == "s"
  {
  }

  lemma {:induction false} TestIs(w: World, k: int, i: int, sum: int)
    ensures Decide(w, Below(k), Counting(i, sum, 0).vars) == if i < k then Yes else No
  {
    FoldIs();
    hide Fold;
    var vars := Counting(i, sum, 0).vars;
    assert Eval(w, Var("i"), vars) == Val(Int(i)) && Eval(w, Lit(Int(k)), vars) == Val(Int(k));
    assert Eval(w, Below(k), vars) == Val(Bool(i < k));
  }

  lemma {:induction false} BodyIs(w: World, i: int, sum: int, budget: nat)
    requires 0 <= i && 0 <= sum && sum + i < 0x8000_0000_0000_0000
    ensures ExecB(w, ADD, Counting(i, sum, budget), true) == Normal(Counting(i, sum + i, budget))
  {
    FoldIs();
    hide Fold;
    var s, st := ADD[0], Counting(i, sum, budget);
    assert Eval(w, Var("i"), st.vars) == Val(Int(i));
    assert st.vars["s" := Int(sum + i)] == Counting(i, sum + i, budget).vars;
    assert Exec(w, s, st, true) == ExecAssign(w, "s", PlusEq, Var("i"), st) == Normal(Counting(i, sum + i, budget));
    OneOff(w, s, st, true);
  }

  lemma {:induction false} StepIs(w: World, k: int, i: int, sum: int, budget: nat)
    requires 0 <= i < 0x7FFF_FFFF
    ensures ExecInc(w, CountedFor(Some(Below(k)), Some(COUNT_UP)), Some(COUNT_UP), Counting(i, sum, budget)) == Normal(Counting(i + 1, sum, budget))
  {
    FoldIs();
    hide Fold;
    var st := Counting(i, sum, budget);
    assert st.vars["i" := Int(i + 1)] == Counting(i + 1, sum, budget).vars;
    assert ExecStep(w, COUNT_UP, st) == Normal(Counting(i + 1, sum, budget));
  }

  /** The loop from any point on, watched or not. */
  lemma {:induction false} LoopSums(w: World, k: int, i: int)
    requires 0 <= i <= k <= 0x7FFF_FFFF
    ensures ExecFor(w, Some(Below(k)), Some(COUNT_UP), ADD, Counting(i, i * (i - 1) / 2, k - i), true) == Normal(Counting(k, k * (k - 1) / 2, 0))
    decreases k - i
  {
    hide ExecB, Decide, ExecInc, Fold, CountedFor;
    var sum := i * (i - 1) / 2;
    TestIs(w, k, i, sum);
    if i < k {
      Triangle(i);
      BodyIs(w, i, sum, k - i);
      StepIs(w, k, i, sum + i, k - i);
      LoopSums(w, k, i + 1);
    }
  }

  lemma {:induction false} Triangle(i: int)
    requires 0 <= i < 0x7FFF_FFFF
    ensures var sum := i * (i - 1) / 2; sum + i == (i + 1) * i / 2 && 0 <= sum && sum + i < 0x8000_0000_0000_0000
  {
    assert i * (i - 1) + 2 * i == (i + 1) * i;
    assert 0 <= i * (i - 1) <= 0x7FFF_FFFF * 0x7FFF_FFFF by {
      if i > 0 {
        Bounded(i, i - 1, 0x7FFF_FFFF);
      }
    }
  }

  lemma {:induction false} Bounded(a: int, b: int, m: int)
    requires 0 <= a <= m && 0 <= b <= m
    ensures 0 <= a * b <= m * m
  {
    assert a * b <= a * m by { assert a * (m - b) >= 0; }
    assert a * m <= m * m by { assert (m - a) * m >= 0; }
  }

  /** What the program means: the numbers below `k` add up to k(k - 1)/2. */
  lemma {:induction false} ProgramSums(w: World, k: int)
    requires 0 <= k <= 0x7FFF_FFFF
    ensures RunFunction(w, Program(k), map[], k, true) == Finished(Null, map["i" := Int(k), "s" := Int(k * (k - 1) / 2)], [])
  {
    FoldIs();
    hide Fold, ExecFor;
    var st, st1 := State(map[], [], k), State(map["s" := Int(0)], [], k);
    var p := Program(k);
    assert Eval(w, Lit(Int(0)), st.vars) == Eval(w, Lit(Int(0)), st1.vars) == Val(Int(0));
    assert map[]["s" := Int(0)] == st1.vars;
    assert Exec(w, p[0], st, true) == Normal(st1);
    var s := p[1];
    assert st1.vars["i" := Int(0)] == Counting(0, 0, k).vars;
    assert Exec(w, InitStmt(s.start.value), st1, true) == Normal(Counting(0, 0, k));
    LoopSums(w, k, 0);
    assert Exec(w, s, st1, true) == Normal(Counting(k, k * (k - 1) / 2, 0));
    assert p[1..] == [s];
    OneOff(w, s, st1, true);
    assert ExecB(w, p, st, true) == ExecB(w, [s], st1, true);
  }

  lemma {:induction false} ProgramOk(k: int)
    requires 0 <= k <= 0x7FFF_FFFF
    ensures OkB(Program(k), true)
  {
    FoldIs();
    assert UserName("i") && UserName("s") by { assert |Fold(RETVAL)| > 1 && |Fold(SWITCH_PREFIX)| > 1; }
    hide UserName, Fold;
    var p := Program(k);
    assert p[1..] == [p[1]] && [p[1]][1..] == [] && OkB([], true);
    assert ADD[1..] == [] && OkS(ADD[0], true) && OkB(ADD, true);
    assert ExprOk(Var("i")) && ExprOk(Lit(Int(k))) && ExprOk(Below(k)) && CondOk(Below(k));
    assert OkS(p[0], true) && OkS(p[1], true);
  }

  /** And what the emitted code leaves in the machine. */
  lemma {:induction false} MachineSums(w: World, k: int) returns (n: nat, c: Config)
    requires Lawful(w) && w.watch && 0 <= k <= 0x7FFF_FFFF
    ensures c == RunN(w, CodeFunction(Program(k)), n, Start(map[]))
    ensures c.Done? && c.v == Null && c.out == [] && UserVars(c.vars) == map["i" := Int(k), "s" := Int(k * (k - 1) / 2)]
  {
    hide RunN, CodeFunction, Program, OkB, UserVars, RunFunction;
    ProgramSums(w, k);
    ProgramOk(k);
    assert UserArgs(map[]);
    n, c := CompiledRun(w, Program(k), map[], k, true);
  }
}
