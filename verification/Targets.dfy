/**
 Where the emitted jumps go: every jump the generator fixes lands inside the
 code of the construct that emitted it, and a hole is left open only for a frame
 that exists to fill it. A whole function therefore has no open hole.
 */
module Targets {
  import opened Names
  import opened Ast
  import opened Shapes
  import opened Semantics
  import opened Machine
  import opened Codegen

  function Target(op: Op): Option<nat> {
    match op
    case Jump(t) => Some(t)
    case JumpIfFalse(t) => Some(t)
    case JumpIfTrue(t) => Some(t)
    case JumpIfNotNull(t) => Some(t)
    case JumpCmpFalse(_, _, _, t) => Some(t)
    case LoopStep(_, _, _, _, t) => Some(t)
    case TryStart(t) => Some(t)
    case _ => None
  }

  predicate Lands(op: Op, lo: nat, hi: nat) {
    Target(op).Some? ==> lo <= Target(op).value <= hi
  }

  predicate AllLand(ops: seq<Op>, lo: nat, hi: nat) {
    forall i :: 0 <= i < |ops| ==> Lands(ops[i], lo, hi)
  }

  /** Fixed jumps land in `lo..hi`; holes have an owner. */
  predicate Tidy(es: seq<Emit>, env: Env, lo: nat, hi: nat) {
    && (forall i :: 0 <= i < |es| && es[i].Fixed? ==> Lands(es[i].op, lo, hi))
    && (ToBreak in es ==> env.brk.Some?)
    && (ToContinue in es ==> env.cont.Some?)
  }

  // ---- Composition ----

  lemma {:induction false} TidyAppend(a: seq<Emit>, b: seq<Emit>, env: Env, lo: nat, hi: nat)
    requires Tidy(a, env, lo, hi) && Tidy(b, env, lo, hi)
    ensures Tidy(a + b, env, lo, hi)
  {
  }

  lemma {:induction false} TidyFix(ops: seq<Op>, env: Env, lo: nat, hi: nat)
    requires AllLand(ops, lo, hi)
    ensures Tidy(Fix(ops), env, lo, hi)
  {
  }

  lemma {:induction false} TidyWiden(a: seq<Emit>, env: Env, lo: nat, hi: nat, lo': nat, hi': nat)
    requires Tidy(a, env, lo, hi) && lo' <= lo && hi <= hi'
    ensures Tidy(a, env, lo', hi')
  {
  }

  lemma {:induction false} LandWiden(a: seq<Op>, lo: nat, hi: nat, lo': nat, hi': nat)
    requires AllLand(a, lo, hi) && lo' <= lo && hi <= hi'
    ensures AllLand(a, lo', hi')
  {
  }

  lemma {:induction false} TidyFill(a: seq<Emit>, env: Env, outer: Env, lo: nat, hi: nat, brk: nat, cont: nat)
    requires Tidy(a, env, lo, hi) && lo <= brk <= hi && lo <= cont <= hi
    ensures Tidy(Fill(a, brk, cont), outer, lo, hi)
  {
  }

  lemma {:induction false} TidyFillBreak(a: seq<Emit>, env: Env, lo: nat, hi: nat, brk: nat)
    requires Tidy(a, InSwitch(env), lo, hi) && lo <= brk <= hi
    ensures Tidy(FillBreak(a, brk), env, lo, hi)
  {
    var r := FillBreak(a, brk);
    if ToContinue in r {
      var i :| 0 <= i < |r| && r[i] == ToContinue;
      assert a[i] == ToContinue;
    }
  }

  // ---- Expressions ----

  lemma {:induction false} ExprLands(e: Expr, at: nat)
    ensures AllLand(CodeE(e, at), at, at + |CodeE(e, at)|)
    decreases SizeE(e), 0
  {
    match e {
      case Bin(_, l, r) =>
        ExprLands(l, at);
        ExprLands(r, at + |CodeE(l, at)|);
      case Logic(isOr, _, _) =>
        OperandsLand(isOr, Operands(isOr, e), at);
      case _ =>
    }
  }

  lemma {:induction false} OperandsLand(isOr: bool, es: seq<Expr>, at: nat)
    ensures AllLand(CodeOperands(isOr, es, at), at, at + |CodeOperands(isOr, es, at)| + 2)
    decreases SizeEs(es), 1
  {
    if es != [] {
      ExprLands(es[0], at);
      OperandsLand(isOr, es[1..], at + |CodeE(es[0], at)| + 1);
    }
  }

  lemma {:induction false} CondLands(e: Expr, at: nat, t: nat, lo: nat, hi: nat)
    requires lo <= at && at + CondLen(e, at) <= hi && lo <= t <= hi
    ensures AllLand(CodeCond(e, at, t), lo, hi)
  {
    hide CodeE;
    ExprLands(e, at);
  }

  lemma {:induction false} StoreLands(name: string, e: Expr, at: nat)
    ensures AllLand(CodeStore(name, e, at), at, at + |CodeStore(name, e, at)|)
  {
    hide CodeE;
    ExprLands(e, at);
  }

  lemma {:induction false} StepLands(step: Step, at: nat)
    ensures AllLand(CodeStep(step, at), at, at + |CodeStep(step, at)|)
  {
    hide CodeStore;
    if step.SetTo? {
      StoreLands(step.name, step.e, at);
    }
  }

  lemma {:induction false} AssignLands(x: string, aop: AssignOp, e: Expr, at: nat)
    ensures AllLand(CodeAssign(x, aop, e, at), at, at + |CodeAssign(x, aop, e, at)|)
  {
    hide CodeE, CodeStore;
    StoreLands(x, e, at);
    ExprLands(e, at);
  }

  lemma {:induction false} MoreTestsLand(v: string, more: seq<Expr>, at: nat)
    ensures AllLand(CodeMoreTests(v, more, at), at, at + |CodeMoreTests(v, more, at)|)
    decreases |more|
  {
    hide CodeE;
    if more != [] {
      ExprLands(more[0], at + 1);
      var a := [Load(v)] + CodeE(more[0], at + 1) + [Binary(Eq), OrOp];
      MoreTestsLand(v, more[1..], at + |a|);
    }
  }

  lemma {:induction false} CaseTestLands(v: string, value: Expr, more: seq<Expr>, at: nat)
    ensures AllLand(CodeCaseTest(v, value, more, at), at, at + |CodeCaseTest(v, value, more, at)|)
  {
    hide CodeE, CodeMoreTests;
    ExprLands(value, at + 1);
    MoreTestsLand(v, more, at + 1 + |CodeE(value, at + 1)| + 1);
  }

  lemma {:induction false} DispatchLands(v: string, cs: seq<Case>, starts: seq<nat>, at: nat, lo: nat, hi: nat)
    requires |starts| == |cs| && lo <= at && at + DispatchLen(v, cs, at) <= hi
    requires forall i :: 0 <= i < |starts| ==> lo <= starts[i] <= hi
    ensures AllLand(CodeDispatch(v, cs, starts, at), lo, hi)
    decreases |cs|
  {
    hide CodeCaseTest;
    if cs != [] {
      var a := CodeCaseTest(v, cs[0].value, cs[0].more, at);
      CaseTestLands(v, cs[0].value, cs[0].more, at);
      LandWiden(a, at, at + |a|, lo, hi);
      DispatchLands(v, cs[1..], starts[1..], at + |a| + 1, lo, hi);
    }
  }

  // ---- Statements ----

  lemma {:induction false} TidyB(ss: seq<Stmt>, at: nat, env: Env)
    ensures Tidy(CodeB(ss, at, env), env, at, at + |CodeB(ss, at, env)|)
    decreases SizeB(ss) + SizeFins(env.fins), 2
  {
    hide CodeS, Tidy, SizeS, SizeFins;
    if ss == [] {
      TidyNothing(env, at);
    } else {
      var a := CodeS(ss[0], at, env);
      var b := CodeB(ss[1..], at + |a|, env);
      TidyS(ss[0], at, env);
      TidyB(ss[1..], at + |a|, env);
      TidyTwo(a, b, env, at);
    }
  }

  lemma {:induction false} TidyNothing(env: Env, at: nat)
    ensures Tidy([], env, at, at)
  {
  }

  /** Two pieces, each landing inside itself, placed one after the other. */
  lemma {:induction false} TidyTwo(a: seq<Emit>, b: seq<Emit>, env: Env, at: nat)
    requires Tidy(a, env, at, at + |a|) && Tidy(b, env, at + |a|, at + |a| + |b|)
    ensures Tidy(a + b, env, at, at + |a + b|)
  {
    hide Tidy;
    TidyWiden(a, env, at, at + |a|, at, at + |a| + |b|);
    TidyWiden(b, env, at + |a|, at + |a| + |b|, at, at + |a| + |b|);
    TidyAppend(a, b, env, at, at + |a| + |b|);
  }

  lemma {:induction false} TidyS(s: Stmt, at: nat, env: Env)
    ensures Tidy(CodeS(s, at, env), env, at, at + |CodeS(s, at, env)|)
    decreases SizeS(s) + SizeFins(env.fins), 1
  {
    hide CodeBody, Tidy, SizeS, SizeFins;
    TidyBody(s, at + 1, env);
    TidyFix([LineInfo], env, at, at + 1);
    TidyTwo(Fix([LineInfo]), CodeBody(s, at + 1, env), env, at);
  }

  predicate Compound(s: Stmt) {
    !s.Text? && !s.Do1? && !s.Assign? && !s.VarDecl? && !s.Throw?
  }

  lemma {:induction false} TidyPlain(s: Stmt, at: nat, env: Env)
    requires !Compound(s)
    ensures Tidy(CodeBody(s, at, env), env, at, at + |CodeBody(s, at, env)|)
  {
    hide CodeE, CodeStore, CodeStep, CodeAssign, Tidy;
    match s {
      case Text(text) => TidyFix([WriteText(text)], env, at, at + 1);
      case Do1(step) =>
        StepLands(step, at);
        TidyFix(CodeStep(step, at), env, at, at + |CodeStep(step, at)|);
      case Assign(x, aop, e) =>
        AssignLands(x, aop, e, at);
        TidyFix(CodeAssign(x, aop, e, at), env, at, at + |CodeAssign(x, aop, e, at)|);
      case VarDecl(x, None) => TidyFix([Declare(x), Const(Null), StoreVar(x)], env, at, at + 3);
      case VarDecl(x, Some(e)) =>
        StoreLands(x, e, at + 1);
        TidyFix([Declare(x)] + CodeStore(x, e, at + 1), env, at, at + 1 + |CodeStore(x, e, at + 1)|);
      case Throw(None) => TidyFix([Const(DEFAULT_MESSAGE), ThrowOp], env, at, at + 2);
      case Throw(Some(e)) =>
        ExprLands(e, at);
        TidyFix(CodeE(e, at) + [ThrowOp], env, at, at + |CodeE(e, at)| + 1);
    }
  }

  lemma {:induction false} TidyBody(s: Stmt, at: nat, env: Env)
    ensures Tidy(CodeBody(s, at, env), env, at, at + |CodeBody(s, at, env)|)
    decreases SizeS(s) + SizeFins(env.fins), 0
  {
    hide Tidy, CodeS, CodeStep, CodeAssign, CodeStore, CodeE, CodeIf, CodeWhile, CodeDo, CodeFor, CodeSwitch, CodeBreak, CodeContinue,
      CodeReturn, CodeTry, SizeB, SizeArms, SizeCases, SizeCatches, SizeOpt, SizeFins;
    if !Compound(s) {
      TidyPlain(s, at, env);
    } else {
      match s {
        case If(cond, thn, elifs, els) => TidyIf(cond, thn, elifs, els, at, env);
        case While(cond, body) => TidyWhile(cond, body, at, env);
        case DoWhile(body, cond) => TidyDo(cond, body, at, env);
        case For(start, test, inc, body) =>
          var i := if start.None? then [] else CodeS(InitStmt(start.value), at, env);
          if start.None? {
            TidyNothing(env, at);
          } else {
            TidyS(InitStmt(start.value), at, env);
          }
          TidyFor(test, inc, body, at + |i|, env);
          TidyTwo(i, CodeFor(test, inc, body, at + |i|, env), env, at);
        case Switch(on, cases, def) => TidySwitch(on, cases, def, at, env);
        case Break => TidyBreak(env, at);
        case Continue => TidyContinue(env, at);
        case Return(ret) => TidyReturn(ret, env, at);
        case Try(body, catches, fin) => TidyTry(body, catches, fin, at, env);
      }
    }
  }

  // ---- Conditionals ----

  lemma {:induction false} TidyArms(arms: seq<Arm>, els: OptBlock, at: nat, env: Env)
    ensures Tidy(CodeArms(arms, els, at, env), env, at, at + |CodeArms(arms, els, at, env)|)
    decreases SizeArms(arms) + SizeOpt(els) + SizeFins(env.fins), 3
  {
    hide Tidy, CodeB, CodeCond, CondLen, BodyOf, SizeB, SizeOpt, SizeFins;
    if arms == [] {
      SizeElse(els);
      TidyB(BodyOf(els), at, env);
    } else {
      var n := CondLen(arms[0].cond, at);
      var a := CodeB(arms[0].body, at + n, env);
      var next := at + n + |a| + 1;
      var rest := CodeArms(arms[1..], els, next, env);
      TidyB(arms[0].body, at + n, env);
      TidyArms(arms[1..], els, next, env);
      TidyArm(arms[0].cond, a, at, next, rest, env);
    }
  }

  lemma {:induction false} SizeElse(els: OptBlock)
    ensures SizeB(BodyOf(els)) <= SizeOpt(els)
  {
  }

  lemma {:induction false} TidyArm(cond: Expr, a: seq<Emit>, at: nat, next: nat, rest: seq<Emit>, env: Env)
    requires next == at + CondLen(cond, at) + |a| + 1
    requires Tidy(a, env, at + CondLen(cond, at), at + CondLen(cond, at) + |a|) && Tidy(rest, env, next, next + |rest|)
    ensures var es := Fix(CodeCond(cond, at, next)) + a + Fix([Jump(next + |rest|)]) + rest;
            Tidy(es, env, at, at + |es|)
  {
    hide Tidy, CodeCond, CondLen;
    var hi := next + |rest|;
    var n := CondLen(cond, at);
    CondLands(cond, at, next, at, hi);
    TidyFix(CodeCond(cond, at, next), env, at, hi);
    TidyWiden(a, env, at + n, at + n + |a|, at, hi);
    TidyFix([Jump(hi)], env, at, hi);
    TidyWiden(rest, env, next, hi, at, hi);
    TidyAppend(Fix(CodeCond(cond, at, next)), a, env, at, hi);
    TidyAppend(Fix(CodeCond(cond, at, next)) + a, Fix([Jump(hi)]), env, at, hi);
    TidyAppend(Fix(CodeCond(cond, at, next)) + a + Fix([Jump(hi)]), rest, env, at, hi);
  }

  lemma {:induction false} TidyIf(cond: Expr, thn: seq<Stmt>, elifs: seq<Arm>, els: OptBlock, at: nat, env: Env)
    ensures Tidy(CodeIf(cond, thn, elifs, els, at, env), env, at, at + |CodeIf(cond, thn, elifs, els, at, env)|)
    decreases SizeB(thn) + SizeArms(elifs) + SizeOpt(els) + SizeFins(env.fins), 4
  {
    hide Tidy, CodeB, CodeArms, CodeCond, CondLen, SizeB, SizeArms, SizeOpt, SizeFins;
    var n := CondLen(cond, at);
    var a := CodeB(thn, at + n, env);
    TidyB(thn, at + n, env);
    if elifs == [] && els.Absent? {
      var hi := at + n + |a|;
      CondLands(cond, at, hi, at, hi);
      TidyFix(CodeCond(cond, at, hi), env, at, hi);
      TidyWiden(a, env, at + n, hi, at, hi);
      TidyAppend(Fix(CodeCond(cond, at, hi)), a, env, at, hi);
    } else {
      var next := at + n + |a| + 1;
      TidyArms(elifs, els, next, env);
      TidyArm(cond, a, at, next, CodeArms(elifs, els, next, env), env);
    }
  }

  // ---- Loops ----

  lemma {:induction false} TidyLoop(x: seq<Op>, a: seq<Emit>, y: seq<Op>, at: nat, brk: nat, cont: nat, env: Env)
    requires var end := at + |x| + |a| + |y|;
             && AllLand(x, at, end) && AllLand(y, at, end) && at <= brk <= end && at <= cont <= end
             && Tidy(a, InLoop(env), at + |x|, at + |x| + |a|)
    ensures var es := Fix(x) + Fill(a, brk, cont) + Fix(y);
            Tidy(es, env, at, at + |es|)
  {
    hide Tidy, AllLand;
    var hi := at + |x| + |a| + |y|;
    TidyWiden(a, InLoop(env), at + |x|, at + |x| + |a|, at, hi);
    TidyFill(a, InLoop(env), env, at, hi, brk, cont);
    TidyFix(x, env, at, hi);
    TidyFix(y, env, at, hi);
    TidyAppend(Fix(x), Fill(a, brk, cont), env, at, hi);
    TidyAppend(Fix(x) + Fill(a, brk, cont), Fix(y), env, at, hi);
  }

  lemma {:induction false} TidyCounted(k: Counted, body: seq<Stmt>, at: nat, env: Env)
    ensures Tidy(CodeCounted(k, body, at, env), env, at, at + |CodeCounted(k, body, at, env)|)
    decreases SizeB(body) + SizeFins(env.fins), 3
  {
    hide Tidy, CodeB, SizeB, SizeFins, Wrap32;
    var a := CodeB(body, at, InLoop(env));
    TidyB(body, at, InLoop(env));
    var y := [LoopStep(k.name, Wrap32(k.limit), k.cmp, Wrap32(k.amount), at)];
    TidyLoop([], a, y, at, at + |a| + 1, at + |a|, env);
    assert Fix([]) + Fill(a, at + |a| + 1, at + |a|) == Fill(a, at + |a| + 1, at + |a|);
  }

  lemma {:induction false} TidyCountedTop(k: Counted, body: seq<Stmt>, at: nat, env: Env)
    ensures Tidy(CodeCountedTop(k, body, at, env), env, at, at + |CodeCountedTop(k, body, at, env)|)
    decreases SizeB(body) + SizeFins(env.fins), 4
  {
    hide Tidy, CodeCounted, SizeB, SizeFins, Wrap32;
    var a := CodeCounted(k, body, at + 1, env);
    var hi := at + 1 + |a|;
    TidyCounted(k, body, at + 1, env);
    TidyWiden(a, env, at + 1, hi, at, hi);
    var check := [JumpCmpFalse(k.name, Wrap32(k.limit), k.cmp, hi)];
    TidyFix(check, env, at, hi);
    TidyAppend(Fix(check), a, env, at, hi);
  }

  lemma {:induction false} TidyWhile(cond: Expr, body: seq<Stmt>, at: nat, env: Env)
    ensures Tidy(CodeWhile(cond, body, at, env), env, at, at + |CodeWhile(cond, body, at, env)|)
    decreases SizeB(body) + SizeFins(env.fins), 5
  {
    hide Tidy, CodeB, CodeCountedTop, CodeCond, CondLen, SizeB, SizeFins, CountedBody, AllLand;
    var k := CountedBody(cond, body);
    if k.Some? {
      SizeFront(body);
      TidyCountedTop(k.value, body[..|body| - 1], at, env);
    } else {
      var n := CondLen(cond, at);
      var a := CodeB(body, at + n, InLoop(env));
      var end := at + n + |a| + 1;
      TidyB(body, at + n, InLoop(env));
      CondLands(cond, at, end, at, end);
      JumpLands(at, at, end);
      TidyLoop(CodeCond(cond, at, end), a, [Jump(at)], at, end, at, env);
    }
  }

  lemma {:induction false} JumpLands(t: nat, lo: nat, hi: nat)
    requires lo <= t <= hi
    ensures AllLand([Jump(t)], lo, hi)
  {
  }

  lemma {:induction false} TidyDo(cond: Expr, body: seq<Stmt>, at: nat, env: Env)
    ensures Tidy(CodeDo(cond, body, at, env), env, at, at + |CodeDo(cond, body, at, env)|)
    decreases SizeB(body) + SizeFins(env.fins), 5
  {
    hide Tidy, CodeB, CodeE, CodeCounted, SizeB, SizeFins, CountedBody;
    var k := CountedBody(cond, body);
    if k.Some? {
      SizeFront(body);
      TidyCounted(k.value, body[..|body| - 1], at, env);
    } else {
      var a := CodeB(body, at, InLoop(env));
      var t := CodeE(cond, at + |a|);
      TidyB(body, at, InLoop(env));
      ExprLands(cond, at + |a|);
      TidyLoop([], a, t + [JumpIfTrue(at)], at, at + |a| + |t| + 1, at + |a|, env);
      assert Fix([]) + Fill(a, at + |a| + |t| + 1, at + |a|) == Fill(a, at + |a| + |t| + 1, at + |a|);
    }
  }

  lemma {:induction false} TidyFor(test: Option<Expr>, inc: Option<Step>, body: seq<Stmt>, at: nat, env: Env)
    ensures Tidy(CodeFor(test, inc, body, at, env), env, at, at + |CodeFor(test, inc, body, at, env)|)
    decreases SizeB(body) + SizeFins(env.fins), 5
  {
    hide Tidy, CodeB, CodeStep, CodeCountedTop, CodeCond, CondLen, SizeB, SizeFins, CountedFor;
    var k := CountedFor(test, inc);
    if k.Some? {
      TidyCountedTop(k.value, body, at, env);
    } else if test.None? {
      TidyNothing(env, at);
    } else {
      var n := CondLen(test.value, at);
      var a := CodeB(body, at + n, InLoop(env));
      var i := if inc.None? then [] else CodeStep(inc.value, at + n + |a|);
      var end := at + n + |a| + |i| + 1;
      TidyB(body, at + n, InLoop(env));
      if inc.Some? {
        StepLands(inc.value, at + n + |a|);
      }
      CondLands(test.value, at, end, at, end);
      TidyLoop(CodeCond(test.value, at, end), a, i + [Jump(at)], at, end, at + n + |a|, env);
    }
  }

  // ---- Switch ----

  lemma {:induction false} StartsInside(cs: seq<Case>, def: OptBlock, at: nat, env: Env, i: nat)
    requires i <= |cs|
    ensures at <= Starts(cs, at, env)[i] <= at + |CodeB(FallThrough(cs, def), at, env)|
    decreases |cs|
  {
    hide CodeB;
    if cs != [] {
      var a := CodeB(cs[0].body, at, env);
      CodeAppend(cs[0].body, FallThrough(cs[1..], def), at, env);
      if i > 0 {
        StartsInside(cs[1..], def, at + |a|, env, i - 1);
      }
    }
  }

  lemma {:induction false} TidySwitch(on: Expr, cases: seq<Case>, def: OptBlock, at: nat, env: Env)
    ensures Tidy(CodeSwitch(on, cases, def, at, env), env, at, at + |CodeSwitch(on, cases, def, at, env)|)
    decreases SizeCases(cases) + SizeOpt(def) + SizeFins(env.fins), 6
  {
    hide Tidy, CodeB, CodeE, CodeDispatch, DispatchLen, Starts, FallThrough, SizeCases, SizeOpt, SizeFins, SizeB, SwitchVar;
    var e := CodeE(on, at);
    var v := SwitchVar(at + |e|);
    var d := at + |e| + 2;
    var b := d + DispatchLen(v, cases, d) + 1;
    var starts := Starts(cases, b, InSwitch(env));
    FallThroughSize(cases, def);
    TidyB(FallThrough(cases, def), b, InSwitch(env));
    var a := CodeB(FallThrough(cases, def), b, InSwitch(env));
    var hi := b + |a|;
    forall i | 0 <= i <= |cases|
      ensures at <= starts[i] <= hi
    {
      StartsInside(cases, def, b, InSwitch(env), i);
    }
    ExprLands(on, at);
    DispatchLands(v, cases, starts[..|cases|], d, at, hi);
    var x := e + [Declare(v), StoreVar(v)] + CodeDispatch(v, cases, starts[..|cases|], d) + [Jump(starts[|cases|])];
    TidyFix(x, env, at, hi);
    TidyWiden(a, InSwitch(env), b, hi, at, hi);
    TidyFillBreak(a, env, at, hi, hi);
    TidyAppend(Fix(x), FillBreak(a, hi), env, at, hi);
  }

  lemma {:induction false} FallThroughSize(cs: seq<Case>, def: OptBlock)
    ensures SizeB(FallThrough(cs, def)) <= SizeCases(cs) + SizeOpt(def)
  {
  }

  // ---- Jumps ----

  lemma {:induction false} TidyUnwind(fins: seq<seq<Stmt>>, at: nat, env: Env)
    requires env.fins == []
    ensures Tidy(CodeUnwind(fins, at, env), env, at, at + |CodeUnwind(fins, at, env)|)
    decreases SizeFins(fins), 3
  {
    hide Tidy, CodeB, SizeB;
    if fins == [] {
      TidyNothing(env, at);
    } else {
      var a := CodeB(fins[|fins| - 1], at, env);
      TidyB(fins[|fins| - 1], at, env);
      TidyUnwind(fins[..|fins| - 1], at + |a|, env);
      TidyTwo(a, CodeUnwind(fins[..|fins| - 1], at + |a|, env), env, at);
    }
  }

  lemma {:induction false} TidyDetached(es: seq<Emit>, env: Env, lo: nat, hi: nat)
    requires Tidy(es, Detached(env), lo, hi)
    ensures Tidy(es, env, lo, hi)
  {
  }

  lemma {:induction false} TidyLeave(env: Env, at: nat)
    ensures var es := CodeUnwind(env.fins, at, Detached(env)) + Fix([Const(Null), Ret]);
            Tidy(es, env, at, at + |es|)
    decreases SizeFins(env.fins), 4
  {
    hide Tidy, CodeUnwind, SizeFins;
    var a := CodeUnwind(env.fins, at, Detached(env));
    TidyUnwind(env.fins, at, Detached(env));
    TidyDetached(a, env, at, at + |a|);
    TidyFix([Const(Null), Ret], env, at + |a|, at + |a| + 2);
    TidyTwo(a, Fix([Const(Null), Ret]), env, at);
  }

  lemma {:induction false} TidyJump(env: Env, depth: nat, hole: Emit, at: nat)
    requires (hole == ToBreak && env.brk.Some?) || (hole == ToContinue && env.cont.Some?)
    ensures var es := CodeUnwind(FinsAbove(env.fins, depth), at, Detached(env)) + [hole];
            Tidy(es, env, at, at + |es|)
    decreases SizeFins(env.fins), 4
  {
    hide CodeUnwind, SizeFins;
    var fins := FinsAbove(env.fins, depth);
    TidyUnwind(fins, at, Detached(env));
  }

  lemma {:induction false} TidyBreak(env: Env, at: nat)
    ensures Tidy(CodeBreak(env, at), env, at, at + |CodeBreak(env, at)|)
    decreases SizeFins(env.fins), 5
  {
    hide Tidy, CodeUnwind, SizeFins, FinsAbove;
    if env.brk.Some? {
      TidyJump(env, env.brk.value, ToBreak, at);
    } else {
      TidyLeave(env, at);
    }
  }

  lemma {:induction false} TidyContinue(env: Env, at: nat)
    ensures Tidy(CodeContinue(env, at), env, at, at + |CodeContinue(env, at)|)
    decreases SizeFins(env.fins), 5
  {
    hide Tidy, CodeUnwind, SizeFins, FinsAbove;
    if env.cont.Some? {
      TidyJump(env, env.cont.value, ToContinue, at);
    } else {
      TidyLeave(env, at);
    }
  }

  lemma {:induction false} TidyReturn(ret: Option<Expr>, env: Env, at: nat)
    ensures Tidy(CodeReturn(ret, env, at), env, at, at + |CodeReturn(ret, env, at)|)
    decreases SizeFins(env.fins), 5
  {
    hide Tidy, CodeE, CodeUnwind, SizeFins;
    var e := match ret case None => [Const(Null)] case Some(e) => CodeE(e, at);
    if ret.Some? {
      ExprLands(ret.value, at);
    }
    if env.fins == [] {
      TidyFix(e + [Ret], env, at, at + |e| + 1);
    } else {
      var head := e + [Declare(RETVAL), StoreVar(RETVAL)];
      var mid := at + |e| + 2;
      var a := CodeUnwind(env.fins, mid, Detached(env));
      TidyFix(head, env, at, mid);
      TidyUnwind(env.fins, mid, Detached(env));
      TidyDetached(a, env, mid, mid + |a|);
      TidyTwo(Fix(head), a, env, at);
      TidyFix([Load(RETVAL), Ret], env, mid + |a|, mid + |a| + 2);
      TidyTwo(Fix(head) + a, Fix([Load(RETVAL), Ret]), env, at);
    }
  }

  // ---- Try ----

  lemma {:induction false} TidyWithin(es: seq<Emit>, env: Env, fin: OptBlock, lo: nat, hi: nat)
    requires Tidy(es, Within1(env, fin), lo, hi)
    ensures Tidy(es, env, lo, hi)
  {
  }

  lemma {:induction false} TidyRethrow(fin: OptBlock, at: nat, env: Env)
    ensures Tidy(CodeRethrow(fin, at, env), env, at, at + |CodeRethrow(fin, at, env)|)
    decreases SizeOpt(fin) + SizeFins(env.fins), 4
  {
    hide Tidy, CodeB, SizeB, SizeFins;
    match fin {
      case Absent => TidyFix([Rethrow], env, at, at + 1);
      case Block(f) =>
        var a := CodeB(f, at + 1, env);
        TidyB(f, at + 1, env);
        TidyFix([SaveExc], env, at, at + 1);
        TidyTwo(Fix([SaveExc]), a, env, at);
        TidyFix([RestoreExc, Rethrow], env, at + 1 + |a|, at + 3 + |a|);
        TidyTwo(Fix([SaveExc]) + a, Fix([RestoreExc, Rethrow]), env, at);
    }
  }

  lemma {:induction false} TidyClauses(cs: seq<Catch>, fin: OptBlock, at: nat, env: Env)
    ensures Tidy(CodeClauses(cs, fin, at, env), env, at, at + |CodeClauses(cs, fin, at, env)|)
    decreases SizeCatches(cs) + SizeOpt(fin) + SizeFins(env.fins), 5
  {
    hide Tidy, CodeB, CodeRethrow, SizeB, SizeOpt, SizeFins, Within1;
    if cs == [] {
      TidyFix([Pop], env, at, at + 1);
      TidyRethrow(fin, at + 1, env);
      TidyTwo(Fix([Pop]), CodeRethrow(fin, at + 1, env), env, at);
    } else {
      var a := CodeB(cs[0].body, at + 4, Within1(env, fin));
      var next := at + 4 + |a| + 1;
      var rest := CodeClauses(cs[1..], fin, next, env);
      var hi := next + |rest|;
      TidyB(cs[0].body, at + 4, Within1(env, fin));
      TidyWithin(a, env, fin, at + 4, at + 4 + |a|);
      TidyWiden(a, env, at + 4, at + 4 + |a|, at, hi);
      TidyClauses(cs[1..], fin, next, env);
      TidyWiden(rest, env, next, hi, at, hi);
      TidyFix(ClauseHead(cs[0], next), env, at, hi);
      TidyFix([Jump(hi)], env, at, hi);
      TidyAppend(Fix(ClauseHead(cs[0], next)), a, env, at, hi);
      TidyAppend(Fix(ClauseHead(cs[0], next)) + a, Fix([Jump(hi)]), env, at, hi);
      TidyAppend(Fix(ClauseHead(cs[0], next)) + a + Fix([Jump(hi)]), rest, env, at, hi);
    }
  }

  lemma {:induction false} TidyTry(body: seq<Stmt>, catches: seq<Catch>, fin: OptBlock, at: nat, env: Env)
    ensures Tidy(CodeTry(body, catches, fin, at, env), env, at, at + |CodeTry(body, catches, fin, at, env)|)
    decreases SizeB(body) + SizeCatches(catches) + SizeOpt(fin) + SizeFins(env.fins), 8
  {
    hide Tidy, CodeB, CodeTry, SizeB, SizeOpt, SizeFins, Within1;
    var a := CodeB(body, at + 1, Within1(env, fin));
    TidyB(body, at + 1, Within1(env, fin));
    TidyWithin(a, env, fin, at + 1, at + 1 + |a|);
    if catches == [] && fin.Block? {
      TidyTryFinally(body, fin, at, env, a);
    } else {
      TidyTryCatch(body, catches, fin, at, env, a);
    }
  }

  lemma {:induction false} TidyTryFinally(body: seq<Stmt>, fin: OptBlock, at: nat, env: Env, a: seq<Emit>)
    requires fin.Block? && a == CodeB(body, at + 1, Within1(env, fin)) && Tidy(a, env, at + 1, at + 1 + |a|)
    ensures Tidy(CodeTry(body, [], fin, at, env), env, at, at + |CodeTry(body, [], fin, at, env)|)
    decreases SizeB(body) + SizeOpt(fin) + SizeFins(env.fins), 5
  {
    hide Tidy, CodeB, CodeRethrow, SizeB, SizeFins, Within1;
    var fa := at + 1 + |a| + 1;
    var f := CodeB(fin.ss, fa, env);
    var handler := fa + |f| + 1;
    var h := CodeRethrow(fin, handler, env);
    var hi := handler + |h|;
    TidyB(fin.ss, fa, env);
    TidyRethrow(fin, handler, env);
    TidyWiden(a, env, at + 1, at + 1 + |a|, at, hi);
    TidyWiden(f, env, fa, fa + |f|, at, hi);
    TidyWiden(h, env, handler, hi, at, hi);
    TidyFix([TryStart(handler)], env, at, hi);
    TidyFix([TryEnd], env, at, hi);
    TidyFix([Jump(hi)], env, at, hi);
    var s1 := Fix([TryStart(handler)]) + a;
    TidyAppend(Fix([TryStart(handler)]), a, env, at, hi);
    TidyAppend(s1, Fix([TryEnd]), env, at, hi);
    TidyAppend(s1 + Fix([TryEnd]), f, env, at, hi);
    TidyAppend(s1 + Fix([TryEnd]) + f, Fix([Jump(hi)]), env, at, hi);
    TidyAppend(s1 + Fix([TryEnd]) + f + Fix([Jump(hi)]), h, env, at, hi);
  }

  lemma {:induction false} TidyTryCatch(body: seq<Stmt>, catches: seq<Catch>, fin: OptBlock, at: nat, env: Env, a: seq<Emit>)
    requires catches != [] || fin.Absent?
    requires a == CodeB(body, at + 1, Within1(env, fin)) && Tidy(a, env, at + 1, at + 1 + |a|)
    ensures Tidy(CodeTry(body, catches, fin, at, env), env, at, at + |CodeTry(body, catches, fin, at, env)|)
    decreases SizeB(body) + SizeCatches(catches) + SizeOpt(fin) + SizeFins(env.fins), 7
  {
    hide Tidy, CodeB, CodeClauses, SizeB, SizeFins, SizeCatches, SizeOpt, Within1, BodyOf;
    var fa := at + 1 + |a| + 1;
    var h := CodeClauses(catches, fin, fa + 1, env);
    var end := fa + 1 + |h|;
    var f := CodeB(BodyOf(fin), end, env);
    var hi := end + |f|;
    SizeElse(fin);
    TidyClauses(catches, fin, fa + 1, env);
    TidyB(BodyOf(fin), end, env);
    TidyWiden(a, env, at + 1, at + 1 + |a|, at, hi);
    TidyWiden(h, env, fa + 1, end, at, hi);
    TidyWiden(f, env, end, hi, at, hi);
    TidyFix([TryStart(fa + 1)], env, at, hi);
    TidyFix([TryEnd, Jump(end)], env, at, hi);
    var s1 := Fix([TryStart(fa + 1)]) + a;
    TidyAppend(Fix([TryStart(fa + 1)]), a, env, at, hi);
    TidyAppend(s1, Fix([TryEnd, Jump(end)]), env, at, hi);
    TidyAppend(s1 + Fix([TryEnd, Jump(end)]), h, env, at, hi);
    TidyAppend(s1 + Fix([TryEnd, Jump(end)]) + h, f, env, at, hi);
  }

  // ---- Whole functions ----

  /** No placeholder is left unpatched, whatever it would have been patched to, and no jump leaves the function. */
  lemma {:induction false} FunctionIsClosed(body: seq<Stmt>)
    ensures AllLand(CodeFunction(body), 0, |CodeFunction(body)|)
    ensures forall brk, cont: nat :: Ops(CodeB(body, 0, Env([], None, None)), brk, cont) + [Const(Null), Ret] == CodeFunction(body)
  {
    hide CodeB;
    var env := Env([], None, None);
    TidyB(body, 0, env);
    var es := CodeB(body, 0, env);
    forall i | 0 <= i < |es|
      ensures es[i].Fixed? && Lands(es[i].op, 0, |es|)
    {
      assert es[i] in es;
    }
    forall brk, cont: nat
      ensures Ops(es, brk, cont) == Ops(es, 0, 0)
    {
    }
  }
}
