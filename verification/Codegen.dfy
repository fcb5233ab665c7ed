/**
 The instruction sequences the code generator emits, as functions of the
 syntax tree, the position they start at and the enclosing context.

 A `break` or `continue` jump whose target is not known yet is a hole. The
 frame that owns the hole fills it (`Fill`) when its code is complete, which is
 what the generator's patch lists do in place.
 */
module Codegen {
  import opened Names
  import opened Ast
  import opened Shapes
  import opened Semantics
  import opened Machine

  datatype Emit = Fixed(op: Op) | ToBreak | ToContinue

  /** The generator's context: pending `finally` bodies, outermost first, and for the
      nearest breakable frame and the nearest loop, how many of them it lies inside. */
  datatype Env = Env(fins: seq<seq<Stmt>>, brk: Option<nat>, cont: Option<nat>)

  const RETVAL := "__cf_finally_retval"

  // ---- Holes ----

  function Fix(ops: seq<Op>): (r: seq<Emit>)
    ensures |r| == |ops|
    ensures forall i :: 0 <= i < |r| ==> r[i] == Fixed(ops[i])
  {
    seq(|ops|, i requires 0 <= i < |ops| => Fixed(ops[i]))
  }

  function FillBreak(es: seq<Emit>, t: nat): (r: seq<Emit>)
    ensures |r| == |es|
    ensures forall i :: 0 <= i < |r| ==> r[i] == (if es[i] == ToBreak then Fixed(Jump(t)) else es[i])
  {
    seq(|es|, i requires 0 <= i < |es| => if es[i] == ToBreak then Fixed(Jump(t)) else es[i])
  }

  function FillContinue(es: seq<Emit>, t: nat): (r: seq<Emit>)
    ensures |r| == |es|
    ensures forall i :: 0 <= i < |r| ==> r[i] == (if es[i] == ToContinue then Fixed(Jump(t)) else es[i])
  {
    seq(|es|, i requires 0 <= i < |es| => if es[i] == ToContinue then Fixed(Jump(t)) else es[i])
  }

  function Fill(es: seq<Emit>, brk: nat, cont: nat): (r: seq<Emit>)
    ensures |r| == |es|
  {
    FillContinue(FillBreak(es, brk), cont)
  }

  function OpOf(e: Emit, brk: nat, cont: nat): Op {
    match e
    case Fixed(op) => op
    case ToBreak => Jump(brk)
    case ToContinue => Jump(cont)
  }

  /** The instructions, with the open holes pointing at the given targets. */
  function Ops(es: seq<Emit>, brk: nat, cont: nat): (r: seq<Op>)
    ensures |r| == |es|
    ensures forall i :: 0 <= i < |r| ==> r[i] == OpOf(es[i], brk, cont)
  {
    seq(|es|, i requires 0 <= i < |es| => OpOf(es[i], brk, cont))
  }

  // ---- Expressions ----

  function SizeE(e: Expr): (n: nat)
    ensures n >= 1
  {
    match e
    case Bin(_, l, r) => 1 + SizeE(l) + SizeE(r)
    case Logic(_, l, r) => 1 + SizeE(l) + SizeE(r)
    case _ => 1
  }

  function SizeEs(es: seq<Expr>): nat {
    if es == [] then 0 else SizeE(es[0]) + SizeEs(es[1..])
  }

  lemma {:induction false} SizeEsSnoc(es: seq<Expr>, e: Expr)
    ensures SizeEs(es + [e]) == SizeEs(es) + SizeE(e)
  {
    if es == [] {
    } else {
      assert (es + [e])[1..] == es[1..] + [e];
      SizeEsSnoc(es[1..], e);
    }
  }

  /** The operands of the same-operator spine, in source order. */
  function Operands(isOr: bool, e: Expr): (r: seq<Expr>)
    ensures r != []
    ensures SizeEs(r) <= SizeE(e)
    ensures e.Logic? && e.isOr == isOr ==> SizeEs(r) < SizeE(e)
  {
    if e.Logic? && e.isOr == isOr then
      SizeEsSnoc(Operands(isOr, e.l), e.r);
      Operands(isOr, e.l) + [e.r]
    else [e]
  }

  function ShortJump(isOr: bool, t: nat): Op {
    if isOr then JumpIfTrue(t) else JumpIfFalse(t)
  }

  /** Each operand, then a jump to the shared landing pad two past the last of them. */
  function CodeOperands(isOr: bool, es: seq<Expr>, at: nat): seq<Op>
    decreases SizeEs(es), 1
  {
    if es == [] then [] else
    var a := CodeE(es[0], at);
    var rest := CodeOperands(isOr, es[1..], at + |a| + 1);
    a + [ShortJump(isOr, at + |a| + 1 + |rest| + 2)] + rest
  }

  /** Plain operators are emitted as by recursion on the tree; `and`/`or` spines are flattened. */
  function CodeE(e: Expr, at: nat): seq<Op>
    decreases SizeE(e), 0
  {
    match e
    case Lit(v) => [Const(v)]
    case Var(name) => [Load(name)]
    case Bin(op, l, r) =>
      var a := CodeE(l, at);
      a + CodeE(r, at + |a|) + [Binary(op)]
    case Logic(isOr, _, _) =>
      var a := CodeOperands(isOr, Operands(isOr, e), at);
      a + [Const(Bool(!isOr)), Jump(at + |a| + 3), Const(Bool(isOr))]
  }

  /** A condition and the jump taken when it is false, fused when its shape allows. */
  function CodeCond(e: Expr, at: nat, t: nat): (r: seq<Op>)
    ensures |r| == CondLen(e, at)
  {
    match MatchCmp(e)
    case Some(b) => [JumpCmpFalse(b.name, Wrap32(b.limit), b.cmp, t)]
    case None => CodeE(e, at) + [JumpIfFalse(t)]
  }

  function CondLen(e: Expr, at: nat): nat {
    if MatchCmp(e).Some? then 1 else |CodeE(e, at)| + 1
  }

  /** Evaluate and store; a literal `null` takes the guarded form that deletes instead. */
  function CodeStore(name: string, e: Expr, at: nat): seq<Op> {
    var a := CodeE(e, at);
    if e == Lit(Null) then
      a + [JumpIfNotNull(at + |a| + 4), Pop, Unset(name), Jump(at + |a| + 5), StoreVar(name)]
    else a + [StoreVar(name)]
  }

  function CodeStep(step: Step, at: nat): seq<Op> {
    match step
    case IncDec(name, up) => [Incr(name, if up then 1 else -1)]
    case SetTo(name, e) => CodeStore(name, e, at) + [Pop]
  }

  function CodeAssign(x: string, aop: AssignOp, e: Expr, at: nat): seq<Op> {
    if aop == PlusEq && e.Lit? && e.v.Int? then [AddConst(x, e.v.n)]
    else if aop == MinusEq && e.Lit? && e.v.Int? then [AddConst(x, -e.v.n)]
    else if aop == StarEq && e.Lit? && e.v.Int? then [MulConst(x, e.v.n)]
    else if aop == Set then CodeStore(x, e, at)
    else CodeE(e, at) + [Load(x), Swap, Binary(BinOf(aop)), StoreVar(x)]
  }

  // ---- Statements ----

  function Digits(n: nat): string {
    if n < 10 then [(n + '0' as int) as char] else Digits(n / 10) + Digits(n % 10)
  }

  function SwitchVar(at: nat): string { "__switch_" + Digits(at) }

  function SizeFins(fins: seq<seq<Stmt>>): nat {
    if fins == [] then 0 else SizeFins(fins[..|fins| - 1]) + SizeB(fins[|fins| - 1]) + 1
  }

  lemma {:induction false} SizeFinsSnoc(fins: seq<seq<Stmt>>, f: seq<Stmt>)
    ensures SizeFins(fins + [f]) == SizeFins(fins) + SizeB(f) + 1
  {
    assert (fins + [f])[..|fins|] == fins;
  }

  /** The bodies a jump runs: those opened since the target frame was entered. */
  function FinsAbove(fins: seq<seq<Stmt>>, depth: nat): (r: seq<seq<Stmt>>)
    ensures SizeFins(r) <= SizeFins(fins)
  {
    SizeFinsDrop(fins, depth);
    if |fins| <= depth then [] else fins[depth..]
  }

  lemma {:induction false} SizeFinsDrop(fins: seq<seq<Stmt>>, depth: nat)
    ensures depth <= |fins| ==> SizeFins(fins[depth..]) <= SizeFins(fins)
  {
    if depth < |fins| {
      SizeFinsDrop(fins[..|fins| - 1], depth);
      assert fins[depth..][..|fins| - depth - 1] == fins[..|fins| - 1][depth..];
    }
  }

  /** While `finally` bodies are emitted inline the pending list is detached. */
  function Detached(env: Env): Env { env.(fins := []) }

  function Within1(env: Env, fin: OptBlock): (r: Env)
    ensures SizeFins(r.fins) == SizeFins(env.fins) + SizeOpt(fin)
  {
    match fin
    case Absent => env
    case Block(f) => SizeFinsSnoc(env.fins, f); env.(fins := env.fins + [f])
  }

  function InLoop(env: Env): Env { env.(brk := Some(|env.fins|), cont := Some(|env.fins|)) }

  function InSwitch(env: Env): Env { env.(brk := Some(|env.fins|)) }

  /** Inline copies of `fins`, innermost first. */
  function CodeUnwind(fins: seq<seq<Stmt>>, at: nat, env: Env): seq<Emit>
    requires env.fins == []
    decreases SizeFins(fins), 3
  {
    if fins == [] then [] else
    var a := CodeB(fins[|fins| - 1], at, env);
    a + CodeUnwind(fins[..|fins| - 1], at + |a|, env)
  }

  function CodeB(ss: seq<Stmt>, at: nat, env: Env): seq<Emit>
    decreases SizeB(ss) + SizeFins(env.fins), 2
  {
    if ss == [] then [] else
    var a := CodeS(ss[0], at, env);
    a + CodeB(ss[1..], at + |a|, env)
  }

  /** The `else if` arms and the `else` branch; every arm ends with a jump to the end. */
  function CodeArms(arms: seq<Arm>, els: OptBlock, at: nat, env: Env): seq<Emit>
    decreases SizeArms(arms) + SizeOpt(els) + SizeFins(env.fins), 3
  {
    if arms == [] then CodeB(BodyOf(els), at, env) else
    var n := CondLen(arms[0].cond, at);
    var a := CodeB(arms[0].body, at + n, env);
    var next := at + n + |a| + 1;
    var rest := CodeArms(arms[1..], els, next, env);
    Fix(CodeCond(arms[0].cond, at, next)) + a + Fix([Jump(next + |rest|)]) + rest
  }

  /** Load the switch value, compare with each case value, combine with `Or`. */
  function CodeCaseTest(v: string, value: Expr, more: seq<Expr>, at: nat): seq<Op> {
    var a := [Load(v)] + CodeE(value, at + 1) + [Binary(Eq)];
    a + CodeMoreTests(v, more, at + |a|)
  }

  function CodeMoreTests(v: string, more: seq<Expr>, at: nat): seq<Op> {
    if more == [] then [] else
    var a := [Load(v)] + CodeE(more[0], at + 1) + [Binary(Eq), OrOp];
    a + CodeMoreTests(v, more[1..], at + |a|)
  }

  /** The dispatch section, jumping to `starts`. */
  function CodeDispatch(v: string, cs: seq<Case>, starts: seq<nat>, at: nat): (r: seq<Op>)
    requires |starts| == |cs|
    ensures |r| == DispatchLen(v, cs, at)
  {
    if cs == [] then [] else
    var a := CodeCaseTest(v, cs[0].value, cs[0].more, at);
    a + [JumpIfTrue(starts[0])] + CodeDispatch(v, cs[1..], starts[1..], at + |a| + 1)
  }

  function DispatchLen(v: string, cs: seq<Case>, at: nat): nat {
    if cs == [] then 0 else
    var a := CodeCaseTest(v, cs[0].value, cs[0].more, at);
    |a| + 1 + DispatchLen(v, cs[1..], at + |a| + 1)
  }

  /** Where each case body starts, and last where the default body starts. */
  function Starts(cs: seq<Case>, at: nat, env: Env): (r: seq<nat>)
    ensures |r| == |cs| + 1
    decreases SizeCases(cs) + SizeFins(env.fins), 3
  {
    if cs == [] then [at]
    else [at] + Starts(cs[1..], at + |CodeB(cs[0].body, at, env)|, env)
  }

  /** Test a clause's type and, on a match, bind the exception. */
  function ClauseHead(c: Catch, next: nat): seq<Op> {
    [CatchMatch(ClauseType(c)), JumpIfFalse(next), Declare(c.name), StoreVar(c.name)]
  }

  /** The clause tests and bodies, then what happens when no clause matches. */
  function CodeClauses(cs: seq<Catch>, fin: OptBlock, at: nat, env: Env): seq<Emit>
    decreases SizeCatches(cs) + SizeOpt(fin) + SizeFins(env.fins), 5
  {
    if cs == [] then Fix([Pop]) + CodeRethrow(fin, at + 1, env) else
    var a := CodeB(cs[0].body, at + 4, Within1(env, fin));
    var next := at + 4 + |a| + 1;
    var rest := CodeClauses(cs[1..], fin, next, env);
    Fix(ClauseHead(cs[0], next)) + a + Fix([Jump(next + |rest|)]) + rest
  }

  /** Run the `finally` body with the exception set aside, then raise it again. */
  function CodeRethrow(fin: OptBlock, at: nat, env: Env): seq<Emit>
    decreases SizeOpt(fin) + SizeFins(env.fins), 4
  {
    match fin
    case Absent => Fix([Rethrow])
    case Block(f) => Fix([SaveExc]) + CodeB(f, at + 1, env) + Fix([RestoreExc, Rethrow])
  }

  function CodeTry(body: seq<Stmt>, catches: seq<Catch>, fin: OptBlock, at: nat, env: Env): seq<Emit>
    decreases SizeB(body) + SizeCatches(catches) + SizeOpt(fin) + SizeFins(env.fins), 6
  {
    var a := CodeB(body, at + 1, Within1(env, fin));
    var fa := at + 1 + |a| + 1;
    if catches == [] && fin.Block? then
      var f := CodeB(fin.ss, fa, env);
      var handler := fa + |f| + 1;
      var h := CodeRethrow(fin, handler, env);
      Fix([TryStart(handler)]) + a + Fix([TryEnd]) + f + Fix([Jump(handler + |h|)]) + h
    else
      var h := CodeClauses(catches, fin, fa + 1, env);
      Fix([TryStart(fa + 1)]) + a + Fix([TryEnd, Jump(fa + 1 + |h|)]) + h
      + CodeB(BodyOf(fin), fa + 1 + |h|, env)
  }

  function CodeIf(cond: Expr, thn: seq<Stmt>, elifs: seq<Arm>, els: OptBlock, at: nat, env: Env): seq<Emit>
    decreases SizeB(thn) + SizeArms(elifs) + SizeOpt(els) + SizeFins(env.fins), 4
  {
    var n := CondLen(cond, at);
    var a := CodeB(thn, at + n, env);
    if elifs == [] && els.Absent? then Fix(CodeCond(cond, at, at + n + |a|)) + a
    else
      var next := at + n + |a| + 1;
      var rest := CodeArms(elifs, els, next, env);
      Fix(CodeCond(cond, at, next)) + a + Fix([Jump(next + |rest|)]) + rest
  }

  /** The fused bottom-tested loop: body, then step and test in one instruction. */
  function CodeCounted(k: Counted, body: seq<Stmt>, at: nat, env: Env): seq<Emit>
    decreases SizeB(body) + SizeFins(env.fins), 3
  {
    var a := CodeB(body, at, InLoop(env));
    Fill(a, at + |a| + 1, at + |a|) + Fix([LoopStep(k.name, Wrap32(k.limit), k.cmp, Wrap32(k.amount), at)])
  }

  function CodeCountedTop(k: Counted, body: seq<Stmt>, at: nat, env: Env): seq<Emit>
    decreases SizeB(body) + SizeFins(env.fins), 4
  {
    var a := CodeCounted(k, body, at + 1, env);
    Fix([JumpCmpFalse(k.name, Wrap32(k.limit), k.cmp, at + 1 + |a|)]) + a
  }

  function CodeWhile(cond: Expr, body: seq<Stmt>, at: nat, env: Env): seq<Emit>
    decreases SizeB(body) + SizeFins(env.fins), 5
  {
    match CountedBody(cond, body)
    case Some(k) => SizeFront(body); CodeCountedTop(k, body[..|body| - 1], at, env)
    case None =>
      var n := CondLen(cond, at);
      var a := CodeB(body, at + n, InLoop(env));
      var end := at + n + |a| + 1;
      Fix(CodeCond(cond, at, end)) + Fill(a, end, at) + Fix([Jump(at)])
  }

  lemma {:induction false} SizeFront(ss: seq<Stmt>)
    requires ss != []
    ensures SizeB(ss[..|ss| - 1]) < SizeB(ss)
  {
    SizeAppend(ss[..|ss| - 1], ss[|ss| - 1..]);
    assert ss[..|ss| - 1] + ss[|ss| - 1..] == ss;
  }

  function CodeDo(cond: Expr, body: seq<Stmt>, at: nat, env: Env): seq<Emit>
    decreases SizeB(body) + SizeFins(env.fins), 5
  {
    match CountedBody(cond, body)
    case Some(k) => SizeFront(body); CodeCounted(k, body[..|body| - 1], at, env)
    case None =>
      var a := CodeB(body, at, InLoop(env));
      var t := CodeE(cond, at + |a|);
      Fill(a, at + |a| + |t| + 1, at + |a|) + Fix(t + [JumpIfTrue(at)])
  }

  /** A `for` without a test emits no loop at all. */
  function CodeFor(test: Option<Expr>, inc: Option<Step>, body: seq<Stmt>, at: nat, env: Env): seq<Emit>
    decreases SizeB(body) + SizeFins(env.fins), 5
  {
    match CountedFor(test, inc)
    case Some(k) => CodeCountedTop(k, body, at, env)
    case None =>
      if test.None? then [] else
      var n := CondLen(test.value, at);
      var a := CodeB(body, at + n, InLoop(env));
      var i := if inc.None? then [] else CodeStep(inc.value, at + n + |a|);
      var end := at + n + |a| + |i| + 1;
      Fix(CodeCond(test.value, at, end)) + Fill(a, end, at + n + |a|) + Fix(i + [Jump(at)])
  }

  function CodeSwitch(on: Expr, cases: seq<Case>, def: OptBlock, at: nat, env: Env): seq<Emit>
    decreases SizeCases(cases) + SizeOpt(def) + SizeFins(env.fins), 6
  {
    var e := CodeE(on, at);
    var v := SwitchVar(at + |e|);
    var d := at + |e| + 2;
    var b := d + DispatchLen(v, cases, d) + 1;
    var starts := Starts(cases, b, InSwitch(env));
    var a := CodeB(FallThrough(cases, def), b, InSwitch(env));
    Fix(e + [Declare(v), StoreVar(v)] + CodeDispatch(v, cases, starts[..|cases|], d) + [Jump(starts[|cases|])])
    + FillBreak(a, b + |a|)
  }

  /** `break` runs the `finally` bodies it leaves and jumps; with no frame to leave it returns null. */
  function CodeBreak(env: Env, at: nat): seq<Emit>
    decreases SizeFins(env.fins), 4
  {
    match env.brk
    case Some(depth) => CodeUnwind(FinsAbove(env.fins, depth), at, Detached(env)) + [ToBreak]
    case None => CodeUnwind(env.fins, at, Detached(env)) + Fix([Const(Null), Ret])
  }

  function CodeContinue(env: Env, at: nat): seq<Emit>
    decreases SizeFins(env.fins), 4
  {
    match env.cont
    case Some(depth) => CodeUnwind(FinsAbove(env.fins, depth), at, Detached(env)) + [ToContinue]
    case None => CodeUnwind(env.fins, at, Detached(env)) + Fix([Const(Null), Ret])
  }

  function CodeReturn(ret: Option<Expr>, env: Env, at: nat): seq<Emit>
    decreases SizeFins(env.fins), 4
  {
    var e := match ret case None => [Const(Null)] case Some(e) => CodeE(e, at);
    if env.fins == [] then Fix(e + [Ret])
    else
      Fix(e + [Declare(RETVAL), StoreVar(RETVAL)])
      + CodeUnwind(env.fins, at + |e| + 2, Detached(env))
      + Fix([Load(RETVAL), Ret])
  }

  function CodeS(s: Stmt, at: nat, env: Env): seq<Emit>
    decreases SizeS(s) + SizeFins(env.fins), 1
  {
    Fix([LineInfo]) + CodeBody(s, at + 1, env)
  }

  function CodeBody(s: Stmt, at: nat, env: Env): seq<Emit>
    decreases SizeS(s) + SizeFins(env.fins), 0
  {
    match s
    case Text(text) => Fix([WriteText(text)])
    case Do1(step) => Fix(CodeStep(step, at))
    case Assign(x, aop, e) => Fix(CodeAssign(x, aop, e, at))
    case VarDecl(x, None) => Fix([Declare(x), Const(Null), StoreVar(x)])
    case VarDecl(x, Some(e)) => Fix([Declare(x)] + CodeStore(x, e, at + 1))
    case If(cond, thn, elifs, els) => CodeIf(cond, thn, elifs, els, at, env)
    case While(cond, body) => CodeWhile(cond, body, at, env)
    case DoWhile(body, cond) => CodeDo(cond, body, at, env)
    case For(start, test, inc, body) =>
      var i := if start.None? then [] else CodeS(InitStmt(start.value), at, env);
      i + CodeFor(test, inc, body, at + |i|, env)
    case Switch(on, cases, def) => CodeSwitch(on, cases, def, at, env)
    case Break => CodeBreak(env, at)
    case Continue => CodeContinue(env, at)
    case Return(ret) => CodeReturn(ret, env, at)
    case Throw(None) => Fix([Const(DEFAULT_MESSAGE), ThrowOp])
    case Throw(Some(e)) => Fix(CodeE(e, at) + [ThrowOp])
    case Try(body, catches, fin) => CodeTry(body, catches, fin, at, env)
  }

  lemma {:induction false} CodeAppend(a: seq<Stmt>, b: seq<Stmt>, at: nat, env: Env)
    ensures CodeB(a + b, at, env) == CodeB(a, at, env) + CodeB(b, at + |CodeB(a, at, env)|, env)
    decreases |a|
  {
    hide CodeS, SizeS;
    if a == [] {
      assert a + b == b;
    } else {
      assert (a + b)[1..] == a[1..] + b && (a + b)[0] == a[0];
      CodeAppend(a[1..], b, at + |CodeS(a[0], at, env)|, env);
    }
  }

  /** A whole function body, closed by an implicit `return null`. */
  function CodeFunction(body: seq<Stmt>): seq<Op> {
    Ops(CodeB(body, 0, Env([], None, None)), 0, 0) + [Const(Null), Ret]
  }
}
