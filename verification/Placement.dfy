/**
 Where the pieces of a compiled statement sit: for each statement form, the
 code of its parts is found at the expected positions, with the holes a loop or
 switch owns already pointing at its targets.
 */
module Placement {
  import opened Names
  import opened Ast
  import opened Shapes
  import opened Semantics
  import opened Machine
  import opened Codegen
  import opened ExprCorrect
  import opened Simulation

  /** The context of a loop body. */
  ghost function LoopCtx(k: Ctx, brk: nat, cont: nat): Ctx {
    k.(env := InLoop(k.env), brkT := brk, contT := cont)
  }

  ghost function SwitchCtx(k: Ctx, brk: nat): Ctx {
    k.(env := InSwitch(k.env), brkT := brk)
  }

  ghost function TryCtx(k: Ctx, fin: OptBlock): Ctx {
    k.(env := Within1(k.env, fin))
  }

  /** The context of the body of a `try`, with its handler installed. */
  ghost function BodyCtx(k: Ctx, fin: OptBlock, base: nat): Ctx {
    TryCtx(k, fin).(base := base)
  }

  ghost function UnwindCtx(k: Ctx): Ctx {
    k.(env := Detached(k.env))
  }

  lemma {:induction false} PlaceB(k: Ctx, ss: seq<Stmt>, at: nat)
    requires ss != [] && AtCode(k, at, CodeB(ss, at, k.env))
    ensures var a := CodeS(ss[0], at, k.env);
            && AtCode(k, at, a)
            && AtCode(k, at + |a|, CodeB(ss[1..], at + |a|, k.env))
            && |CodeB(ss, at, k.env)| == |a| + |CodeB(ss[1..], at + |a|, k.env)|
  {
    hide AtCode, CodeS;
    var a := CodeS(ss[0], at, k.env);
    AtCodeSplit(k, at, a, CodeB(ss[1..], at + |a|, k.env));
  }

  lemma {:induction false} PlaceS(k: Ctx, s: Stmt, at: nat)
    requires AtCode(k, at, CodeS(s, at, k.env))
    ensures At(k.code, at, [LineInfo]) && AtCode(k, at + 1, CodeBody(s, at + 1, k.env))
    ensures |CodeS(s, at, k.env)| == 1 + |CodeBody(s, at + 1, k.env)|
  {
    hide AtCode, CodeBody;
    AtCodeSplit(k, at, Fix([LineInfo]), CodeBody(s, at + 1, k.env));
    AtFix(k, at, [LineInfo]);
  }

  lemma {:induction false} PlaceArm(k: Ctx, cond: Expr, body: seq<Stmt>, rest: seq<Emit>, at: nat)
    requires var n := CondLen(cond, at);
             var a := CodeB(body, at + n, k.env);
             var next := at + n + |a| + 1;
             AtCode(k, at, Fix(CodeCond(cond, at, next)) + a + Fix([Jump(next + |rest|)]) + rest)
    ensures var n := CondLen(cond, at);
            var a := CodeB(body, at + n, k.env);
            var next := at + n + |a| + 1;
            && At(k.code, at, CodeCond(cond, at, next))
            && AtCode(k, at + n, a)
            && At(k.code, at + n + |a|, [Jump(next + |rest|)])
            && AtCode(k, next, rest)
  {
    hide AtCode, CodeB, CodeCond, CondLen;
    var n := CondLen(cond, at);
    var a := CodeB(body, at + n, k.env);
    var next := at + n + |a| + 1;
    var c := Fix(CodeCond(cond, at, next));
    var j := Fix([Jump(next + |rest|)]);
    AtCodeSplit(k, at, c + a + j, rest);
    AtCodeSplit(k, at, c + a, j);
    AtCodeSplit(k, at, c, a);
    AtFix(k, at, CodeCond(cond, at, next));
    AtFix(k, at + n + |a|, [Jump(next + |rest|)]);
  }

  lemma {:induction false} PlaceThen(k: Ctx, cond: Expr, body: seq<Stmt>, at: nat)
    requires var n := CondLen(cond, at);
             var a := CodeB(body, at + n, k.env);
             AtCode(k, at, Fix(CodeCond(cond, at, at + n + |a|)) + a)
    ensures var n := CondLen(cond, at);
            var a := CodeB(body, at + n, k.env);
            At(k.code, at, CodeCond(cond, at, at + n + |a|)) && AtCode(k, at + n, a)
  {
    hide AtCode, CodeB, CodeCond, CondLen;
    var n := CondLen(cond, at);
    var a := CodeB(body, at + n, k.env);
    AtCodeSplit(k, at, Fix(CodeCond(cond, at, at + n + |a|)), a);
    AtFix(k, at, CodeCond(cond, at, at + n + |a|));
  }

  /** A loop body with its holes filled, followed by fixed instructions. */
  lemma {:induction false} PlaceLoop(k: Ctx, head: seq<Op>, a: seq<Emit>, brk: nat, cont: nat, tail: seq<Op>, at: nat)
    requires AtCode(k, at, Fix(head) + Fill(a, brk, cont) + Fix(tail))
    ensures At(k.code, at, head)
    ensures AtCode(LoopCtx(k, brk, cont), at + |head|, a)
    ensures At(k.code, at + |head| + |a|, tail)
  {
    hide At;
    AtCodeSplit(k, at, Fix(head) + Fill(a, brk, cont), Fix(tail));
    AtCodeSplit(k, at, Fix(head), Fill(a, brk, cont));
    AtFix(k, at, head);
    AtFill(k, at + |head|, a, brk, cont);
    AtFix(k, at + |head| + |a|, tail);
  }

  lemma {:induction false} WhileCode(cond: Expr, body: seq<Stmt>, at: nat, env: Env)
    requires CountedBody(cond, body).None?
    ensures var n := CondLen(cond, at);
            var a := CodeB(body, at + n, InLoop(env));
            var end := at + n + |a| + 1;
            && CodeWhile(cond, body, at, env) == Fix(CodeCond(cond, at, end)) + Fill(a, end, at) + Fix([Jump(at)])
            && |CodeCond(cond, at, end)| == n
  {
    hide CodeB, CodeCond, CountedBody;
  }

  /** The parts of a plain `while`. */
  lemma {:induction false} PlaceWhile(k: Ctx, cond: Expr, body: seq<Stmt>, at: nat)
    requires CountedBody(cond, body).None? && AtCode(k, at, CodeWhile(cond, body, at, k.env))
    ensures var n := CondLen(cond, at);
            var a := CodeB(body, at + n, InLoop(k.env));
            var end := at + n + |a| + 1;
            && At(k.code, at, CodeCond(cond, at, end))
            && AtCode(LoopCtx(k, end, at), at + n, a)
            && At(k.code, at + n + |a|, [Jump(at)])
            && at + |CodeWhile(cond, body, at, k.env)| == end
  {
    hide AtCode, At, CodeB, CodeCond, CondLen, CountedBody, CodeWhile;
    WhileCode(cond, body, at, k.env);
    var n := CondLen(cond, at);
    var a := CodeB(body, at + n, InLoop(k.env));
    var end := at + n + |a| + 1;
    PlaceLoop(k, CodeCond(cond, at, end), a, end, at, [Jump(at)], at);
  }

  lemma {:induction false} PlaceDo(k: Ctx, cond: Expr, body: seq<Stmt>, at: nat)
    requires CountedBody(cond, body).None? && AtCode(k, at, CodeDo(cond, body, at, k.env))
    ensures var a := CodeB(body, at, InLoop(k.env));
            var t := CodeE(cond, at + |a|);
            var end := at + |a| + |t| + 1;
            && AtCode(LoopCtx(k, end, at + |a|), at, a)
            && At(k.code, at + |a|, t + [JumpIfTrue(at)])
            && at + |CodeDo(cond, body, at, k.env)| == end
  {
    hide AtCode, At, CodeB, CodeE, CountedBody;
    var a := CodeB(body, at, InLoop(k.env));
    var t := CodeE(cond, at + |a|);
    var end := at + |a| + |t| + 1;
    assert Fix([]) + Fill(a, end, at + |a|) == Fill(a, end, at + |a|);
    PlaceLoop(k, [], a, end, at + |a|, t + [JumpIfTrue(at)], at);
  }

  lemma {:induction false} PlaceCounted(k: Ctx, q: Counted, body: seq<Stmt>, at: nat)
    requires AtCode(k, at, CodeCounted(q, body, at, k.env))
    ensures var a := CodeB(body, at, InLoop(k.env));
            && AtCode(LoopCtx(k, at + |a| + 1, at + |a|), at, a)
            && At(k.code, at + |a|, [LoopStep(q.name, Wrap32(q.limit), q.cmp, Wrap32(q.amount), at)])
            && |CodeCounted(q, body, at, k.env)| == |a| + 1
  {
    hide AtCode, At, CodeB;
    var a := CodeB(body, at, InLoop(k.env));
    var ops := [LoopStep(q.name, Wrap32(q.limit), q.cmp, Wrap32(q.amount), at)];
    assert Fix([]) + Fill(a, at + |a| + 1, at + |a|) == Fill(a, at + |a| + 1, at + |a|);
    PlaceLoop(k, [], a, at + |a| + 1, at + |a|, ops, at);
  }

  lemma {:induction false} PlaceCountedTop(k: Ctx, q: Counted, body: seq<Stmt>, at: nat)
    requires AtCode(k, at, CodeCountedTop(q, body, at, k.env))
    ensures var a := CodeCounted(q, body, at + 1, k.env);
            && At(k.code, at, [JumpCmpFalse(q.name, Wrap32(q.limit), q.cmp, at + 1 + |a|)])
            && AtCode(k, at + 1, a)
            && |CodeCountedTop(q, body, at, k.env)| == 1 + |a|
  {
    hide AtCode, At, CodeCounted;
    var a := CodeCounted(q, body, at + 1, k.env);
    var ops := [JumpCmpFalse(q.name, Wrap32(q.limit), q.cmp, at + 1 + |a|)];
    AtCodeSplit(k, at, Fix(ops), a);
    AtFix(k, at, ops);
  }

  function IncCode(inc: Option<Step>, at: nat): seq<Op> {
    if inc.None? then [] else CodeStep(inc.value, at)
  }

  lemma {:induction false} PlaceFor(k: Ctx, test: Expr, inc: Option<Step>, body: seq<Stmt>, at: nat)
    requires CountedFor(Some(test), inc).None? && AtCode(k, at, CodeFor(Some(test), inc, body, at, k.env))
    ensures var n := CondLen(test, at);
            var a := CodeB(body, at + n, InLoop(k.env));
            var i := IncCode(inc, at + n + |a|);
            var end := at + n + |a| + |i| + 1;
            && At(k.code, at, CodeCond(test, at, end))
            && AtCode(LoopCtx(k, end, at + n + |a|), at + n, a)
            && At(k.code, at + n + |a|, i)
            && At(k.code, at + n + |a| + |i|, [Jump(at)])
            && at + |CodeFor(Some(test), inc, body, at, k.env)| == end
  {
    hide AtCode, At, CodeB, CodeCond, CondLen, CountedFor, CodeStep;
    var n := CondLen(test, at);
    var a := CodeB(body, at + n, InLoop(k.env));
    var i := IncCode(inc, at + n + |a|);
    var end := at + n + |a| + |i| + 1;
    PlaceLoop(k, CodeCond(test, at, end), a, end, at + n + |a|, i + [Jump(at)], at);
    AtSplit(k.code, at + n + |a|, i, [Jump(at)]);
  }

  lemma {:induction false} PlaceUnwind(k: Ctx, fins: seq<seq<Stmt>>, at: nat)
    requires k.env.fins == [] && fins != [] && AtCode(k, at, CodeUnwind(fins, at, k.env))
    ensures var f, rest := fins[|fins| - 1], fins[..|fins| - 1];
            var a := CodeB(f, at, k.env);
            && AtCode(k, at, a)
            && AtCode(k, at + |a|, CodeUnwind(rest, at + |a|, k.env))
            && |CodeUnwind(fins, at, k.env)| == |a| + |CodeUnwind(rest, at + |a|, k.env)|
  {
    hide AtCode, CodeB;
    var a := CodeB(fins[|fins| - 1], at, k.env);
    AtCodeSplit(k, at, a, CodeUnwind(fins[..|fins| - 1], at + |a|, k.env));
  }

  lemma {:induction false} PlaceSwitch(k: Ctx, on: Expr, cases: seq<Case>, def: OptBlock, at: nat)
    requires AtCode(k, at, CodeSwitch(on, cases, def, at, k.env))
    ensures var e := CodeE(on, at);
            var v := SwitchVar(at + |e|);
            var d := at + |e| + 2;
            var b := d + DispatchLen(v, cases, d) + 1;
            var starts := Starts(cases, b, InSwitch(k.env));
            var a := CodeB(FallThrough(cases, def), b, InSwitch(k.env));
            && At(k.code, at, e)
            && At(k.code, at + |e|, [Declare(v), StoreVar(v)])
            && At(k.code, d, CodeDispatch(v, cases, starts[..|cases|], d))
            && At(k.code, b - 1, [Jump(starts[|cases|])])
            && AtCode(SwitchCtx(k, b + |a|), b, a)
            && at + |CodeSwitch(on, cases, def, at, k.env)| == b + |a|
  {
    hide At, CodeE, CodeB, CodeDispatch, DispatchLen, Starts, FallThrough, SwitchVar, SizeB, SizeCases, SizeOpt, SizeFins;
    var e := CodeE(on, at);
    var v := SwitchVar(at + |e|);
    var d := at + |e| + 2;
    var b := d + DispatchLen(v, cases, d) + 1;
    var starts := Starts(cases, b, InSwitch(k.env));
    var a := CodeB(FallThrough(cases, def), b, InSwitch(k.env));
    var store := [Declare(v), StoreVar(v)];
    var disp := CodeDispatch(v, cases, starts[..|cases|], d);
    var jump := [Jump(starts[|cases|])];
    AtCodeSplit(k, at, Fix(e + store + disp + jump), FillBreak(a, b + |a|));
    AtFix(k, at, e + store + disp + jump);
    AtSplit(k.code, at, e + store + disp, jump);
    AtSplit(k.code, at, e + store, disp);
    AtSplit(k.code, at, e, store);
    AtFillBreak(k, b, a, b + |a|);
  }

  lemma {:induction false} PlaceHole(k: Ctx, a: seq<Emit>, hole: Emit, at: nat)
    requires AtCode(k, at, a + [hole])
    ensures AtCode(k, at, a) && At(k.code, at + |a|, [OpOf(hole, k.brkT, k.contT)])
  {
    hide At;
    AtCodeSplit(k, at, a, [hole]);
    assert Ops([hole], k.brkT, k.contT) == [OpOf(hole, k.brkT, k.contT)];
  }

  lemma {:induction false} PlaceTail(k: Ctx, a: seq<Emit>, ops: seq<Op>, at: nat)
    requires AtCode(k, at, a + Fix(ops))
    ensures AtCode(k, at, a) && At(k.code, at + |a|, ops)
  {
    hide At, AtCode;
    AtCodeSplit(k, at, a, Fix(ops));
    AtFix(k, at + |a|, ops);
  }

  /** The `finally` bodies of a jump are compiled for the detached context. */
  lemma {:induction false} AtUnwindCtx(k: Ctx, at: nat, es: seq<Emit>)
    ensures AtCode(UnwindCtx(k), at, es) == AtCode(k, at, es)
  {
  }

  lemma {:induction false} PlaceReturn(k: Ctx, e: seq<Op>, at: nat)
    requires AtCode(k, at, Fix(e + [Declare(RETVAL), StoreVar(RETVAL)])
                           + CodeUnwind(k.env.fins, at + |e| + 2, Detached(k.env)) + Fix([Load(RETVAL), Ret]))
    ensures var u := CodeUnwind(k.env.fins, at + |e| + 2, Detached(k.env));
            && At(k.code, at, e) && At(k.code, at + |e|, [Declare(RETVAL), StoreVar(RETVAL)])
            && AtCode(UnwindCtx(k), at + |e| + 2, u)
            && At(k.code, at + |e| + 2 + |u|, [Load(RETVAL), Ret])
  {
    hide At, AtCode, CodeUnwind;
    var u := CodeUnwind(k.env.fins, at + |e| + 2, Detached(k.env));
    var store := [Declare(RETVAL), StoreVar(RETVAL)];
    PlaceTail(k, Fix(e + store) + u, [Load(RETVAL), Ret], at);
    AtCodeSplit(k, at, Fix(e + store), u);
    AtFix(k, at, e + store);
    AtSplit(k.code, at, e, store);
    AtUnwindCtx(k, at + |e| + 2, u);
  }

  lemma {:induction false} AtTryCtx(k: Ctx, fin: OptBlock, at: nat, es: seq<Emit>)
    ensures AtCode(TryCtx(k, fin), at, es) == AtCode(k, at, es)
  {
  }

  /** `try`/`finally` without clauses. */
  lemma {:induction false} PlaceTryFinally(k: Ctx, body: seq<Stmt>, fin: OptBlock, at: nat)
    requires fin.Block? && AtCode(k, at, CodeTry(body, [], fin, at, k.env))
    ensures var a := CodeB(body, at + 1, Within1(k.env, fin));
            var fa := at + 1 + |a| + 1;
            var f := CodeB(fin.ss, fa, k.env);
            var handler := fa + |f| + 1;
            var h := CodeRethrow(fin, handler, k.env);
            && At(k.code, at, [TryStart(handler)])
            && AtCode(TryCtx(k, fin), at + 1, a)
            && At(k.code, at + 1 + |a|, [TryEnd])
            && AtCode(k, fa, f)
            && At(k.code, fa + |f|, [Jump(handler + |h|)])
            && AtCode(k, handler, h)
            && at + |CodeTry(body, [], fin, at, k.env)| == handler + |h|
  {
    hide At, AtCode, CodeB, CodeRethrow, Within1, SizeB, SizeCatches, SizeOpt, SizeFins;
    var a := CodeB(body, at + 1, Within1(k.env, fin));
    var fa := at + 1 + |a| + 1;
    var f := CodeB(fin.ss, fa, k.env);
    var handler := fa + |f| + 1;
    var h := CodeRethrow(fin, handler, k.env);
    var p0, p1, p2 := Fix([TryStart(handler)]), Fix([TryEnd]), Fix([Jump(handler + |h|)]);
    AtCodeSplit(k, at, p0 + a + p1 + f + p2, h);
    AtCodeSplit(k, at, p0 + a + p1 + f, p2);
    AtCodeSplit(k, at, p0 + a + p1, f);
    AtCodeSplit(k, at, p0 + a, p1);
    AtCodeSplit(k, at, p0, a);
    AtFix(k, at, [TryStart(handler)]);
    AtFix(k, at + 1 + |a|, [TryEnd]);
    AtFix(k, fa + |f|, [Jump(handler + |h|)]);
    AtTryCtx(k, fin, at + 1, a);
  }

  /** Every other `try`. */
  lemma {:induction false} PlaceTryCatch(k: Ctx, body: seq<Stmt>, catches: seq<Catch>, fin: OptBlock, at: nat)
    requires (catches != [] || fin.Absent?) && AtCode(k, at, CodeTry(body, catches, fin, at, k.env))
    ensures var a := CodeB(body, at + 1, Within1(k.env, fin));
            var fa := at + 1 + |a| + 1;
            var h := CodeClauses(catches, fin, fa + 1, k.env);
            var end := fa + 1 + |h|;
            && At(k.code, at, [TryStart(fa + 1)])
            && AtCode(TryCtx(k, fin), at + 1, a)
            && At(k.code, at + 1 + |a|, [TryEnd, Jump(end)])
            && AtCode(k, fa + 1, h)
            && AtCode(k, end, CodeB(BodyOf(fin), end, k.env))
            && at + |CodeTry(body, catches, fin, at, k.env)| == end + |CodeB(BodyOf(fin), end, k.env)|
  {
    hide At, AtCode, CodeB, CodeClauses, Within1, BodyOf, SizeB, SizeCatches, SizeOpt, SizeFins;
    var a := CodeB(body, at + 1, Within1(k.env, fin));
    var fa := at + 1 + |a| + 1;
    var h := CodeClauses(catches, fin, fa + 1, k.env);
    var end := fa + 1 + |h|;
    var f := CodeB(BodyOf(fin), end, k.env);
    var p0, p1 := Fix([TryStart(fa + 1)]), Fix([TryEnd, Jump(end)]);
    AtCodeSplit(k, at, p0 + a + p1 + h, f);
    AtCodeSplit(k, at, p0 + a + p1, h);
    AtCodeSplit(k, at, p0 + a, p1);
    AtCodeSplit(k, at, p0, a);
    AtFix(k, at, [TryStart(fa + 1)]);
    AtFix(k, at + 1 + |a|, [TryEnd, Jump(end)]);
    AtTryCtx(k, fin, at + 1, a);
  }

  lemma {:induction false} PlaceClause(k: Ctx, cs: seq<Catch>, fin: OptBlock, at: nat)
    requires cs != [] && AtCode(k, at, CodeClauses(cs, fin, at, k.env))
    ensures var a := CodeB(cs[0].body, at + 4, Within1(k.env, fin));
            var next := at + 4 + |a| + 1;
            var rest := CodeClauses(cs[1..], fin, next, k.env);
            && At(k.code, at, ClauseHead(cs[0], next))
            && AtCode(TryCtx(k, fin), at + 4, a)
            && At(k.code, at + 4 + |a|, [Jump(next + |rest|)])
            && AtCode(k, next, rest)
            && at + |CodeClauses(cs, fin, at, k.env)| == next + |rest|
  {
    hide At, AtCode, CodeB, Within1, CodeRethrow, SizeB, SizeCatches, SizeOpt, SizeFins;
    var a := CodeB(cs[0].body, at + 4, Within1(k.env, fin));
    var next := at + 4 + |a| + 1;
    var rest := CodeClauses(cs[1..], fin, next, k.env);
    var p0, p1 := Fix(ClauseHead(cs[0], next)), Fix([Jump(next + |rest|)]);
    AtCodeSplit(k, at, p0 + a + p1, rest);
    AtCodeSplit(k, at, p0 + a, p1);
    AtCodeSplit(k, at, p0, a);
    AtFix(k, at, ClauseHead(cs[0], next));
    AtFix(k, at + 4 + |a|, [Jump(next + |rest|)]);
    AtTryCtx(k, fin, at + 4, a);
  }

  lemma {:induction false} PlaceNoClause(k: Ctx, fin: OptBlock, at: nat)
    requires AtCode(k, at, CodeClauses([], fin, at, k.env))
    ensures At(k.code, at, [Pop]) && AtCode(k, at + 1, CodeRethrow(fin, at + 1, k.env))
    ensures |CodeClauses([], fin, at, k.env)| == 1 + |CodeRethrow(fin, at + 1, k.env)|
  {
    hide At, AtCode, CodeRethrow;
    AtCodeSplit(k, at, Fix([Pop]), CodeRethrow(fin, at + 1, k.env));
    AtFix(k, at, [Pop]);
  }

  lemma {:induction false} PlaceRethrow(k: Ctx, f: seq<Stmt>, at: nat)
    requires AtCode(k, at, CodeRethrow(Block(f), at, k.env))
    ensures var a := CodeB(f, at + 1, k.env);
            && At(k.code, at, [SaveExc])
            && AtCode(k, at + 1, a)
            && At(k.code, at + 1 + |a|, [RestoreExc, Rethrow])
            && |CodeRethrow(Block(f), at, k.env)| == |a| + 3
  {
    hide At, AtCode, CodeB;
    var a := CodeB(f, at + 1, k.env);
    PlaceTail(k, Fix([SaveExc]) + a, [RestoreExc, Rethrow], at);
    AtCodeSplit(k, at, Fix([SaveExc]), a);
    AtFix(k, at, [SaveExc]);
  }
}
