/**
 Counted loops: running the body, then stepping and testing the counter at the
 bottom, means the same as the `for`, `while` or `do` loop it replaces.
 */
module Fusion {
  import opened Names
  import opened Ast
  import opened Shapes
  import opened Values
  import opened Semantics

  /** The comparison functions agree with themselves when their arguments are swapped. */
  ghost predicate Lawful(w: World) {
    && (forall a, b :: (w.order(a, b) > 0 <==> w.order(b, a) < 0) && (w.eq(a, b) <==> w.eq(b, a)))
    && (forall x, y :: !(w.fp.less(x, y) && w.fp.less(y, x)) && (w.fp.same(x, y) <==> w.fp.same(y, x)))
  }

  lemma {:induction false} CompareFlips(w: World, cmp: Cmp, a: Value, b: Value)
    requires Lawful(w)
    ensures Compare(w, cmp, a, b) == Compare(w, Flip(cmp), b, a)
  {
    if IsNumber(a) && IsNumber(b) {
      var x, y := FloatOf(w, a).d, FloatOf(w, b).d;
      assert !(w.fp.less(x, y) && w.fp.less(y, x)) && (w.fp.same(x, y) <==> w.fp.same(y, x));
    } else {
      assert w.order(a, b) > 0 <==> w.order(b, a) < 0;
      assert w.order(b, a) > 0 <==> w.order(a, b) < 0;
      assert w.eq(a, b) <==> w.eq(b, a);
    }
  }

  /** A recognised condition, flipped or not, tests exactly the bound it was matched to. */
  lemma {:induction false} MatchedTest(w: World, e: Expr, vars: Vars)
    requires Lawful(w) && MatchCmp(e).Some?
    ensures var b := MatchCmp(e).value;
            Test(w, e, vars) ==
            match Lookup(vars, b.name)
            case None => Bad(w.missing(b.name))
            case Some(v) => if Compare(w, b.cmp, v, Int(b.limit)) then Yes else No
  {
    hide Compare;
    var cmp := CmpOf(e.op).value;
    var b := MatchCmp(e).value;
    if e.l.Lit? {
      assert Eval(w, e.l, vars) == Val(Int(e.l.v.n));
      if Lookup(vars, b.name).Some? {
        var v := Lookup(vars, b.name).value;
        assert Eval(w, e.r, vars) == Val(v);
        CompareFlips(w, cmp, e.l.v, v);
        assert Eval(w, e, vars) == Val(Bool(Compare(w, cmp, e.l.v, v)));
      } else {
        assert Eval(w, e.r, vars) == Exc(w.missing(b.name));
        assert Eval(w, e, vars) == Exc(w.missing(b.name));
      }
    } else {
      assert Eval(w, e.r, vars) == Val(Int(e.r.v.n));
      if Lookup(vars, b.name).Some? {
        assert Eval(w, e.l, vars) == Val(Lookup(vars, b.name).value);
        assert Eval(w, e, vars) == Val(Bool(Compare(w, cmp, Lookup(vars, b.name).value, e.r.v)));
      } else {
        assert Eval(w, e.l, vars) == Exc(w.missing(b.name));
      }
    }
  }

  /** Where it does not depart, the fused test decides the condition. */
  lemma {:induction false} FusedDecides(w: World, e: Expr, vars: Vars)
    requires Lawful(w) && w.watch && MatchCmp(e).Some?
    ensures var b := MatchCmp(e).value;
            Decide(w, e, vars).Unknown?
            || Decide(w, e, vars) == (if FusedBound(w, b.name, b.limit, b.cmp, vars) then Yes else No)
  {
    hide Compare, FusedBound, Test;
    MatchedTest(w, e, vars);
  }

  /** Body, step, test, repeat: what the bottom-tested code does. */
  function ExecCounted(w: World, k: Counted, body: seq<Stmt>, st: State, catching: bool): (o: Outcome)
    ensures Within(o, st)
    decreases st.budget
  {
    var o := ExecB(w, body, st, catching);
    if o.Normal? || o.Continued? then
      var st1 := Advanced(w, k, o.st);
      if st1.budget == 0 then Timeout
      else if FusedBound(w, k.name, k.limit, k.cmp, st1.vars) then ExecCounted(w, k, body, Spend(st1), catching)
      else Normal(Spend(st1))
    else if o.Broke? then Normal(o.st)
    else o
  }

  function Entered(w: World, k: Counted, body: seq<Stmt>, st: State, catching: bool): Outcome {
    if FusedBound(w, k.name, k.limit, k.cmp, st.vars) then ExecCounted(w, k, body, st, catching) else Normal(st)
  }

  /** Equal wherever no emitted instruction departs. */
  ghost predicate Follows(o: Outcome, o': Outcome) { o.Stuck? || o == o' }

  lemma {:induction false} ForFusion(
      w: World, test: Expr, inc: Step, body: seq<Stmt>, st: State, catching: bool)
    requires Lawful(w) && w.watch && CountedFor(Some(test), Some(inc)).Some?
    ensures Follows(ExecFor(w, Some(test), Some(inc), body, st, catching),
                    Entered(w, CountedFor(Some(test), Some(inc)).value, body, st, catching))
    decreases st.budget
  {
    hide ExecB, ExecStep, Decide, FusedBound, Advanced, MatchCmp, MatchStep;
    FusedDecides(w, test, st.vars);
    var o := ExecB(w, body, st, catching);
    if o.Normal? || o.Continued? {
      var i := ExecInc(w, CountedFor(Some(test), Some(inc)), Some(inc), o.st);
      if i.Normal? && i.st.budget > 0 {
        ForFusion(w, test, inc, body, Spend(i.st), catching);
      }
    }
  }

  lemma {:induction false} ExecAppend(w: World, a: seq<Stmt>, b: seq<Stmt>, st: State, catching: bool)
    ensures ExecB(w, a + b, st, catching) ==
            (var o := ExecB(w, a, st, catching);
             if o.Normal? then ExecB(w, b, o.st, catching) else o)
    decreases |a|
  {
    if a == [] {
      assert a + b == b;
    } else {
      assert (a + b)[1..] == a[1..] + b;
      var o := Exec(w, a[0], st, catching);
      if o.Normal? {
        ExecAppend(w, a[1..], b, o.st, catching);
      }
    }
  }

  lemma {:induction false} HasContinueAppend(a: seq<Stmt>, b: seq<Stmt>)
    ensures HasContinue(a + b) == (HasContinue(a) || HasContinue(b))
  {
    if a == [] {
      assert a + b == b;
    } else {
      assert (a + b)[1..] == a[1..] + b;
      HasContinueAppend(a[1..], b);
    }
  }

  lemma {:induction false} HasContinueFallThrough(cs: seq<Case>, i: nat, def: OptBlock)
    requires i <= |cs|
    ensures HasContinue(FallThrough(cs[i..], def)) ==> CasesHaveContinue(cs) || OptHasContinue(def)
  {
    if cs == [] {
      assert cs[i..] == [];
    } else if i > 0 {
      assert cs[i..] == cs[1..][i - 1..];
      HasContinueFallThrough(cs[1..], i - 1, def);
    } else {
      assert cs[i..] == cs;
      HasContinueAppend(cs[0].body, FallThrough(cs[1..], def));
      HasContinueFallThrough(cs[1..], 0, def);
      assert cs[1..][0..] == cs[1..];
    }
  }

  // ---- A statement jumps only if it contains the jump ----

  ghost predicate JumpsFrom(o: Outcome, hasBreak: bool, hasContinue: bool) {
    (o.Broke? ==> hasBreak) && (o.Continued? ==> hasContinue)
  }

  lemma {:induction false} BlockJumps(w: World, ss: seq<Stmt>, st: State, catching: bool)
    ensures JumpsFrom(ExecB(w, ss, st, catching), HasBreak(ss), HasContinue(ss))
    decreases st.budget, SizeB(ss), 2
  {
    if ss != [] {
      StmtJumps(w, ss[0], st, catching);
      var o := Exec(w, ss[0], st, catching);
      if o.Normal? {
        BlockJumps(w, ss[1..], o.st, catching);
      }
    }
  }

  lemma {:induction false} ArmsJump(w: World, arms: seq<Arm>, els: OptBlock, st: State, catching: bool)
    ensures JumpsFrom(ExecArms(w, arms, els, st, catching),
                      ArmsHaveBreak(arms) || OptHasBreak(els),
                      ArmsHaveContinue(arms) || OptHasContinue(els))
    decreases st.budget, SizeArms(arms) + SizeOpt(els), 3
  {
    if arms == [] {
      BlockJumps(w, BodyOf(els), st, catching);
    } else {
      BlockJumps(w, arms[0].body, st, catching);
      ArmsJump(w, arms[1..], els, st, catching);
    }
  }

  lemma {:induction false} CatchJumps(w: World, cs: seq<Catch>, hasFinally: bool, x: Value, st: State)
    ensures JumpsFrom(ExecCatch(w, cs, hasFinally, x, st), CatchesHaveBreak(cs), CatchesHaveContinue(cs))
    decreases st.budget, SizeCatches(cs), 0
  {
    if cs != [] {
      BlockJumps(w, cs[0].body, st.(vars := st.vars[Fold(cs[0].name) := x]), true);
      CatchJumps(w, cs[1..], hasFinally, x, st);
    }
  }

  lemma {:induction false} SwitchJumps(w: World, on: Expr, cases: seq<Case>, def: OptBlock, st: State, catching: bool)
    ensures JumpsFrom(ExecSwitch(w, on, cases, def, st, catching), false,
                      CasesHaveContinue(cases) || OptHasContinue(def))
    decreases st.budget, SizeCases(cases) + SizeOpt(def), 3
  {
    var v := Eval(w, on, st.vars);
    if v.Val? {
      var ch := Choose(w, v.v, cases, st.vars);
      if ch.Chosen? {
        SizeCasesSuffix(cases, ch.i);
        BlockJumps(w, FallThrough(cases[ch.i..], def), st, catching);
        HasContinueFallThrough(cases, ch.i, def);
      } else {
        BlockJumps(w, BodyOf(def), st, catching);
      }
    }
  }

  /** How a `try` stands before its `finally` body. */
  ghost function Tried(w: World, body: seq<Stmt>, catches: seq<Catch>, hasFinally: bool, st: State, catching: bool): Outcome {
    var o := ExecB(w, body, Inside(st), catching);
    if o.Thrown? && catching then
      if w.watch && o.st.held != st.held + 1 then Stuck
      else ExecCatch(w, catches, hasFinally, o.x, o.st.(held := st.held))
    else Completed(o)
  }

  lemma {:induction false} UnfoldTried(w: World, body: seq<Stmt>, catches: seq<Catch>, fin: OptBlock, st: State, catching: bool)
    ensures var o := Tried(w, body, catches, fin.Block?, st, catching);
            && (o.Stuck? ==> w.watch) && Within(o, st)
            && ExecTry(w, body, catches, fin, st, catching) ==
               if !o.Ended() || (o.Thrown? && !catching) || fin.Absent? then o
               else AfterFinally(w, o, ExecB(w, fin.ss, Pending(o), catching))
  {
    hide ExecB, ExecCatch, AfterFinally;
  }

  lemma {:induction false} TriedJumps(w: World, body: seq<Stmt>, catches: seq<Catch>, hasFinally: bool, st: State, catching: bool)
    ensures JumpsFrom(Tried(w, body, catches, hasFinally, st, catching),
                      HasBreak(body) || CatchesHaveBreak(catches), HasContinue(body) || CatchesHaveContinue(catches))
    decreases st.budget, SizeB(body) + SizeCatches(catches), 3
  {
    hide ExecB, ExecCatch, HasBreak, HasContinue, CatchesHaveBreak, CatchesHaveContinue;
    BlockJumps(w, body, Inside(st), catching);
    var o := ExecB(w, body, Inside(st), catching);
    if o.Thrown? && catching {
      CatchJumps(w, catches, hasFinally, o.x, o.st.(held := st.held));
    }
  }

  lemma {:induction false} FinallyJumps(w: World, o: Outcome, f: Outcome, b: bool, c: bool)
    requires o.Ended() && (f.Stuck? ==> w.watch) && JumpsFrom(o, b, c) && JumpsFrom(f, b, c)
    ensures JumpsFrom(AfterFinally(w, o, f), b, c)
  {
  }

  lemma {:induction false} TryJumps(
      w: World, body: seq<Stmt>, catches: seq<Catch>, fin: OptBlock, st: State, catching: bool)
    ensures JumpsFrom(ExecTry(w, body, catches, fin, st, catching),
                      HasBreak(body) || CatchesHaveBreak(catches) || OptHasBreak(fin),
                      HasContinue(body) || CatchesHaveContinue(catches) || OptHasContinue(fin))
    decreases st.budget, SizeB(body) + SizeCatches(catches) + SizeOpt(fin), 4
  {
    hide ExecTry, ExecB, Tried, AfterFinally, HasBreak, HasContinue, CatchesHaveBreak, CatchesHaveContinue;
    UnfoldTried(w, body, catches, fin, st, catching);
    TriedJumps(w, body, catches, fin.Block?, st, catching);
    var o := Tried(w, body, catches, fin.Block?, st, catching);
    if o.Ended() && !(o.Thrown? && !catching) && fin.Block? {
      BlockJumps(w, fin.ss, Pending(o), catching);
      FinallyJumps(w, o, ExecB(w, fin.ss, Pending(o), catching),
                   HasBreak(body) || CatchesHaveBreak(catches) || OptHasBreak(fin),
                   HasContinue(body) || CatchesHaveContinue(catches) || OptHasContinue(fin));
    }
  }

  lemma {:induction false} StmtJumps(w: World, s: Stmt, st: State, catching: bool)
    ensures JumpsFrom(Exec(w, s, st, catching), StmtHasBreak(s), StmtHasContinue(s))
    decreases st.budget, SizeS(s), 1
  {
    match s {
      case If(_, thn, elifs, els) =>
        BlockJumps(w, thn, st, catching);
        ArmsJump(w, elifs, els, st, catching);
      case For(start, _, _, body) =>
        if start.Some? {
          StmtJumps(w, InitStmt(start.value), st, catching);
        }
      case Switch(on, cases, def) => SwitchJumps(w, on, cases, def, st, catching);
      case Try(body, catches, fin) => TryJumps(w, body, catches, fin, st, catching);
      case _ =>
    }
  }

  // ---- while and do ----

  /** The last statement of a matched body is the step. */
  lemma {:induction false} BodyAsStep(w: World, cond: Expr, body: seq<Stmt>, st: State, catching: bool)
    requires w.watch && CountedBody(cond, body).Some?
    ensures var k := CountedBody(cond, body);
            var a := ExecB(w, body[..|body| - 1], st, catching);
            var o := ExecBody(w, k, body, st, catching);
            && !a.Continued?
            && Follows(o, if a.Normal? then Normal(Advanced(w, k.value, a.st)) else a)
  {
    hide ExecB, Advanced;
    var front, last := body[..|body| - 1], body[|body| - 1];
    assert body == front + [last];
    HasContinueAppend(front, [last]);
    BlockJumps(w, front, st, catching);
  }

  lemma {:induction false} WhileFusion(w: World, cond: Expr, body: seq<Stmt>, st: State, catching: bool)
    requires Lawful(w) && w.watch && CountedBody(cond, body).Some?
    ensures Follows(ExecWhile(w, cond, body, st, catching),
                    Entered(w, CountedBody(cond, body).value, body[..|body| - 1], st, catching))
    decreases st.budget
  {
    hide ExecB, ExecBody, Decide, FusedBound, Advanced, MatchCmp, MatchStride, HasContinue;
    FusedDecides(w, cond, st.vars);
    BodyAsStep(w, cond, body, st, catching);
    var o := ExecBody(w, CountedBody(cond, body), body, st, catching);
    if o.Normal? && o.st.budget > 0 {
      WhileFusion(w, cond, body, Spend(o.st), catching);
    }
  }

  lemma {:induction false} DoFusion(w: World, cond: Expr, body: seq<Stmt>, st: State, catching: bool)
    requires Lawful(w) && w.watch && CountedBody(cond, body).Some?
    ensures Follows(ExecDo(w, cond, body, st, catching),
                    ExecCounted(w, CountedBody(cond, body).value, body[..|body| - 1], st, catching))
    decreases st.budget
  {
    hide ExecB, ExecBody, Decide, FusedBound, Advanced, MatchCmp, MatchStride, HasContinue;
    BodyAsStep(w, cond, body, st, catching);
    var o := ExecBody(w, CountedBody(cond, body), body, st, catching);
    if o.Normal? && o.st.budget > 0 {
      FusedDecides(w, cond, o.st.vars);
      DoFusion(w, cond, body, Spend(o.st), catching);
    }
  }
}
