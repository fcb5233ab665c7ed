/**
 What it means for the machine to follow the interpreter through a piece of
 code: the relation between their states, the ways a run can leave the code,
 and how such runs compose.
 */
module Simulation {
  import opened Names
  import opened Ast
  import opened Shapes
  import opened Values
  import opened Semantics
  import opened Machine
  import opened Codegen
  import opened ExprCorrect
  import opened Fusion

  // ---- Names the generator keeps for itself ----

  const SWITCH_PREFIX := "__switch_"

  ghost predicate IsTemp(key: string) {
    key == Fold(RETVAL) || Fold(SWITCH_PREFIX) <= key
  }

  ghost predicate UserName(name: string) { !IsTemp(Fold(name)) }

  ghost function UserVars(vars: Vars): (r: Vars) {
    map key | key in vars && !IsTemp(key) :: vars[key]
  }

  ghost function RetSlot(vars: Vars): Option<Value> {
    if Fold(RETVAL) in vars then Some(vars[Fold(RETVAL)]) else None
  }

  lemma {:induction false} SwitchVarIsTemp(at: nat)
    ensures IsTemp(Fold(SwitchVar(at))) && Fold(SwitchVar(at)) != Fold(RETVAL)
  {
    var key := Fold(SwitchVar(at));
    assert key[..|SWITCH_PREFIX|] == Fold(SWITCH_PREFIX);
    assert key[2] == FoldChar('s') && Fold(RETVAL)[2] == FoldChar('c');
  }

  lemma {:induction false} UserVarsSet(vars: Vars, key: string, v: Value)
    ensures !IsTemp(key) ==> UserVars(vars[key := v]) == UserVars(vars)[key := v]
    ensures IsTemp(key) ==> UserVars(vars[key := v]) == UserVars(vars)
    ensures key != Fold(RETVAL) ==> RetSlot(vars[key := v]) == RetSlot(vars)
  {
    assert IsTemp(Fold(RETVAL));
  }

  lemma {:induction false} UserVarsUnset(vars: Vars, key: string)
    requires !IsTemp(key)
    ensures UserVars(vars - {key}) == UserVars(vars) - {key}
    ensures RetSlot(vars - {key}) == RetSlot(vars)
  {
    assert IsTemp(Fold(RETVAL));
  }

  // ---- The programs covered ----

  ghost predicate ExprOk(e: Expr) {
    match e
    case Lit(_) => true
    case Var(name) => UserName(name)
    case Bin(_, l, r) => ExprOk(l) && ExprOk(r)
    case Logic(_, l, r) => ExprOk(l) && ExprOk(r)
  }

  /** A fused comparison carries its constant in 32 bits. */
  ghost predicate CondOk(e: Expr) {
    ExprOk(e) && (MatchCmp(e).Some? ==> InI32(MatchCmp(e).value.limit))
  }

  ghost predicate StepOk(step: Step) {
    UserName(step.name) && (step.SetTo? ==> ExprOk(step.e))
  }

  /** A fused loop carries its limit and its step in 32 bits. */
  ghost predicate CountedOk(k: Option<Counted>) {
    k.Some? ==> InI32(k.value.limit) && InI32(k.value.amount)
  }

  ghost predicate ExprsOk(es: seq<Expr>) {
    forall i :: 0 <= i < |es| ==> ExprOk(es[i])
  }

  /**
   The programs the theorems are about: user names do not collide with the
   generator's, fused constants fit, every `for` has a test, and no `break` or `continue`
   leaves a `finally` body (`Limits` and `Departures` show what goes wrong otherwise).
   */
  ghost predicate OkS(s: Stmt, catching: bool)
    decreases SizeS(s), 1
  {
    match s
    case Text(_) => true
    case Do1(step) => StepOk(step)
    case Assign(x, _, e) => UserName(x) && ExprOk(e)
    case VarDecl(x, init) => UserName(x) && (init.Some? ==> ExprOk(init.value))
    case If(cond, thn, elifs, els) =>
      CondOk(cond) && OkB(thn, catching) && OkArms(elifs, catching) && OkOpt(els, catching)
    case While(cond, body) => CondOk(cond) && OkB(body, catching) && CountedOk(CountedBody(cond, body))
    case DoWhile(body, cond) => ExprOk(cond) && OkB(body, catching) && CountedOk(CountedBody(cond, body))
    case For(start, test, inc, body) =>
      && (start.Some? ==> match start.value
                          case InitVar(x, e) => UserName(x) && (e.Some? ==> ExprOk(e.value))
                          case InitStep(step) => StepOk(step))
      && test.Some? && CondOk(test.value)
      && (inc.Some? ==> StepOk(inc.value))
      && OkB(body, catching) && CountedOk(CountedFor(test, inc))
    case Switch(on, cases, def) => ExprOk(on) && OkCases(cases, catching) && OkOpt(def, catching)
    case Break => true
    case Continue => true
    case Return(ret) => ret.Some? ==> ExprOk(ret.value)
    case Throw(msg) => msg.Some? ==> ExprOk(msg.value)
    case Try(body, catches, fin) =>
      && OkB(body, catching) && OkCatches(catches, catching) && OkOpt(fin, catching)
      && !OptHasBreak(fin) && !OptHasContinue(fin)
  }

  ghost predicate OkB(ss: seq<Stmt>, catching: bool)
    decreases SizeB(ss), 2
  {
    ss == [] || (OkS(ss[0], catching) && OkB(ss[1..], catching))
  }

  ghost predicate OkOpt(o: OptBlock, catching: bool)
    decreases SizeOpt(o), 3
  {
    o.Block? ==> OkB(o.ss, catching)
  }

  ghost predicate OkArms(arms: seq<Arm>, catching: bool)
    decreases SizeArms(arms), 0
  {
    arms == [] || (CondOk(arms[0].cond) && OkB(arms[0].body, catching) && OkArms(arms[1..], catching))
  }

  ghost predicate OkCases(cs: seq<Case>, catching: bool)
    decreases SizeCases(cs), 0
  {
    cs == [] || (ExprOk(cs[0].value) && ExprsOk(cs[0].more) && OkB(cs[0].body, catching) && OkCases(cs[1..], catching))
  }

  ghost predicate OkCatches(cs: seq<Catch>, catching: bool)
    decreases SizeCatches(cs), 0
  {
    cs == [] || (UserName(cs[0].name) && OkB(cs[0].body, catching) && OkCatches(cs[1..], catching))
  }

  ghost predicate OkFins(fins: seq<seq<Stmt>>, catching: bool) {
    forall i :: 0 <= i < |fins| ==> OkB(fins[i], catching) && !HasBreak(fins[i]) && !HasContinue(fins[i])
  }

  /** A jump out of code compiled in `env` is emitted with the target's true `finally` depth. */
  ghost predicate Aims(env: Env, hasBreak: bool, hasContinue: bool) {
    && (hasBreak && env.brk.Some? ==> env.brk.value <= |env.fins|)
    && (hasContinue && env.cont.Some? ==> env.cont.value <= |env.fins|)
  }

  /** Temporaries are invisible to user expressions. */
  lemma {:induction false} EvalUser(w: World, e: Expr, vars: Vars)
    requires ExprOk(e)
    ensures Eval(w, e, vars) == Eval(w, e, UserVars(vars))
    ensures Test(w, e, vars) == Test(w, e, UserVars(vars))
  {
    match e {
      case Bin(_, l, r) =>
        EvalUser(w, l, vars);
        EvalUser(w, r, vars);
      case Logic(_, l, r) =>
        EvalUser(w, l, vars);
        EvalUser(w, r, vars);
      case _ =>
    }
  }

  // ---- Following a run ----

  /** Everything fixed while a piece of code runs. */
  /** `base` is the number of handlers around the code, the innermost enclosing `try`'s being the last. */
  datatype Ctx = Ctx(w: World, code: seq<Op>, env: Env, brkT: nat, contT: nat, catching: bool, base: nat := 0)

  ghost predicate AtCode(k: Ctx, at: nat, es: seq<Emit>) {
    At(k.code, at, Ops(es, k.brkT, k.contT))
  }

  function Saved(xs: seq<Value>): (r: seq<Option<Value>>)
    ensures |r| == |xs|
  {
    seq(|xs|, i requires 0 <= i < |xs| => Some(xs[i]))
  }

  ghost predicate Match(f: Frame, st: State) {
    UserVars(f.vars) == st.vars && f.out == st.out && f.saves == Saved(st.aside) && |f.handlers| == st.held
  }

  ghost predicate Ready(k: Ctx, f: Frame, st: State) {
    Match(f, st) && Lawful(k.w) && k.w.watch && OkFins(k.env.fins, k.catching)
  }

  /**
   What statements leave alone. A jump out of a `try` body leaves its handler
   installed.
   */
  ghost predicate Kept(k: Ctx, f0: Frame, f: Frame) {
    && RetSlot(f.vars) == RetSlot(f0.vars)
    && f0.handlers <= f.handlers
  }

  /** The machine is at `pc`, in a state that matches `st`. */
  ghost predicate Lands(k: Ctx, f0: Frame, b0: nat, st: State, pc: nat, n: nat, c: Config) {
    && c.Run? && c.f.pc == pc && Match(c.f, st) && Kept(k, f0, c.f)
    && n + st.budget >= b0
  }

  ghost predicate Returns(b0: nat, st: State, v: Value, n: nat, c: Config) {
    && c.Done? && c.v == v && UserVars(c.vars) == st.vars && c.out == st.out
    && n + st.budget >= b0
  }

  /** Unless jumps have left other handlers installed, the exception is at the handler of the enclosing `try`. */
  ghost predicate Raises(k: Ctx, f0: Frame, b0: nat, st: State, x: Value, n: nat, c: Config) {
    st.held == k.base <= |f0.handlers| ==>
    && n + st.budget >= b0
    && if k.base == 0 then
         c.Dead? && c.x == x && UserVars(c.vars) == st.vars && c.out == st.out
       else
         && c.Run? && UserVars(c.f.vars) == st.vars && c.f.out == st.out && c.f.saves == Saved(st.aside)
         && c.f.pc == f0.handlers[k.base - 1].pc
         && c.f.stack != [] && Top(c.f.stack) == x
         && c.f.handlers == f0.handlers[..k.base - 1]
         && c.f.last == Some(x)
         && RetSlot(c.f.vars) == RetSlot(f0.vars)
  }

  /** Run pending `finally` bodies, innermost first. */
  function Unwind(w: World, fins: seq<seq<Stmt>>, st: State, catching: bool): (o: Outcome)
    ensures Within(o, st)
    ensures o.Normal? || o.Stuck? || o.Timeout?
    decreases |fins|
  {
    if fins == [] then Normal(st) else
    match ExecB(w, fins[|fins| - 1], st, catching)
    case Normal(st1) => Unwind(w, fins[..|fins| - 1], st1, catching)
    case Timeout => Timeout
    case _ => Stuck
  }

  /** A jump to `target` once the bodies it leaves have run; no target means return null. */
  ghost predicate Jumps(k: Ctx, f0: Frame, b0: nat, st: State, depth: Option<nat>, target: nat, n: nat, c: Config) {
    var fins := if depth.Some? then FinsAbove(k.env.fins, depth.value) else k.env.fins;
    match Unwind(k.w, fins, st, k.catching)
    case Normal(st1) =>
      if depth.Some? then Lands(k, f0, b0, st1, target, n, c) else Returns(b0, st1, Null, n, c)
    case Timeout => c.Run? && n >= b0
    case _ => true
  }

  /** The ways code that started in `f0` with budget `b0` can be left, by outcome. */
  ghost predicate Ends(k: Ctx, f0: Frame, b0: nat, o: Outcome, end: nat, n: nat, c: Config) {
    match o
    case Normal(st) => Lands(k, f0, b0, st, end, n, c)
    case Broke(st) => Jumps(k, f0, b0, st, k.env.brk, k.brkT, n, c)
    case Continued(st) => Jumps(k, f0, b0, st, k.env.cont, k.contT, n, c)
    case Returned(st, v) =>
      (match Unwind(k.w, k.env.fins, st, k.catching)
       case Normal(st1) => Returns(b0, st1, v, n, c)
       case Timeout => c.Run? && n >= b0
       case _ => true)
    case Thrown(st, x) => k.catching ==> Raises(k, f0, b0, st, x, n, c)
    case Timeout => c.Run? && n >= b0
    case Stuck => true
  }

  // ---- Composition ----

  lemma {:induction false} KeptTrans(k: Ctx, f0: Frame, f1: Frame, f2: Frame)
    requires Kept(k, f0, f1) && Kept(k, f1, f2)
    ensures Kept(k, f0, f2)
  {
  }

  lemma {:induction false} SameRaises(k: Ctx, k1: Ctx, f: Frame, b: nat, st: State, x: Value, n: nat, c: Config)
    requires k.base == k1.base
    ensures Raises(k, f, b, st, x, n, c) == Raises(k1, f, b, st, x, n, c)
  {
    hide UserVars, RetSlot;
  }

  lemma {:induction false} RaisesAfter(k: Ctx, f0: Frame, b0: nat, f1: Frame, b1: nat, n1: nat, st: State, x: Value, n: nat, c: Config)
    requires k.catching && Kept(k, f0, f1) && n1 + b1 >= b0
    requires Raises(k, f1, b1, st, x, n, c)
    ensures Raises(k, f0, b0, st, x, n1 + n, c)
  {
  }

  lemma {:induction false} LandsAfter(k: Ctx, f0: Frame, b0: nat, f1: Frame, b1: nat, n1: nat, st: State, pc: nat, n: nat, c: Config)
    requires Kept(k, f0, f1) && n1 + b1 >= b0
    requires Lands(k, f1, b1, st, pc, n, c)
    ensures Lands(k, f0, b0, st, pc, n1 + n, c)
  {
    KeptTrans(k, f0, f1, c.f);
  }

  lemma {:induction false} JumpsAfter(k: Ctx, f0: Frame, b0: nat, f1: Frame, b1: nat, n1: nat,
                   st: State, depth: Option<nat>, target: nat, n: nat, c: Config)
    requires Kept(k, f0, f1) && n1 + b1 >= b0
    requires Jumps(k, f1, b1, st, depth, target, n, c)
    ensures Jumps(k, f0, b0, st, depth, target, n1 + n, c)
  {
    hide Kept;
    var fins := if depth.Some? then FinsAbove(k.env.fins, depth.value) else k.env.fins;
    var u := Unwind(k.w, fins, st, k.catching);
    if u.Normal? && depth.Some? {
      LandsAfter(k, f0, b0, f1, b1, n1, u.st, target, n, c);
    }
  }

  /** What follows a run that kept the frame is, seen from its start, the same ending. */
  lemma {:induction false} EndsAfter(k: Ctx, f0: Frame, b0: nat, f1: Frame, b1: nat, n1: nat, o: Outcome, end: nat, n: nat, c: Config)
    requires Kept(k, f0, f1) && n1 + b1 >= b0
    requires Ends(k, f1, b1, o, end, n, c)
    ensures Ends(k, f0, b0, o, end, n1 + n, c)
  {
    hide Kept, Jumps, Lands, Raises;
    match o {
      case Normal(st) => LandsAfter(k, f0, b0, f1, b1, n1, st, end, n, c);
      case Broke(st) => JumpsAfter(k, f0, b0, f1, b1, n1, st, k.env.brk, k.brkT, n, c);
      case Continued(st) => JumpsAfter(k, f0, b0, f1, b1, n1, st, k.env.cont, k.contT, n, c);
      case Thrown(st, x) =>
        if k.catching {
          RaisesAfter(k, f0, b0, f1, b1, n1, st, x, n, c);
        }
      case _ =>
    }
  }

  /** Chaining two runs. */
  lemma {:induction false} Chain(k: Ctx, f0: Frame, b0: nat, f1: Frame, b1: nat, n1: nat, o: Outcome, end: nat, n2: nat, c: Config)
    requires RunN(k.w, k.code, n1, Run(f0)) == Run(f1)
    requires RunN(k.w, k.code, n2, Run(f1)) == c
    requires Kept(k, f0, f1) && n1 + b1 >= b0
    requires Ends(k, f1, b1, o, end, n2, c)
    ensures RunN(k.w, k.code, n1 + n2, Run(f0)) == c
    ensures Ends(k, f0, b0, o, end, n1 + n2, c)
  {
    hide RunN, Kept, Ends;
    RunAdd(k.w, k.code, n1, n2, Run(f0));
    EndsAfter(k, f0, b0, f1, b1, n1, o, end, n2, c);
  }

  /** An exception out of an expression evaluated in a frame that matches `st`. */
  lemma {:induction false} RaisedFromExpr(k: Ctx, f: Frame, st: State, x: Value, n: nat, c: Config)
    requires Match(f, st) && RaisedIn(f, x, c)
    ensures Raises(k, f, st.budget, st, x, n, c)
  {
  }

  // ---- Code placement ----

  lemma {:induction false} AtCodeSplit(k: Ctx, at: nat, a: seq<Emit>, b: seq<Emit>)
    requires AtCode(k, at, a + b)
    ensures AtCode(k, at, a) && AtCode(k, at + |a|, b)
  {
    hide At;
    assert Ops(a + b, k.brkT, k.contT) == Ops(a, k.brkT, k.contT) + Ops(b, k.brkT, k.contT);
    AtSplit(k.code, at, Ops(a, k.brkT, k.contT), Ops(b, k.brkT, k.contT));
  }

  lemma {:induction false} AtFix(k: Ctx, at: nat, ops: seq<Op>)
    requires AtCode(k, at, Fix(ops))
    ensures At(k.code, at, ops)
  {
    hide At;
    assert Ops(Fix(ops), k.brkT, k.contT) == ops;
  }

  lemma {:induction false} AtFill(k: Ctx, at: nat, es: seq<Emit>, brk: nat, cont: nat)
    requires AtCode(k, at, Fill(es, brk, cont))
    ensures At(k.code, at, Ops(es, brk, cont))
  {
    hide At;
    assert Ops(Fill(es, brk, cont), k.brkT, k.contT) == Ops(es, brk, cont);
  }

  lemma {:induction false} AtFillBreak(k: Ctx, at: nat, es: seq<Emit>, brk: nat)
    requires AtCode(k, at, FillBreak(es, brk))
    ensures At(k.code, at, Ops(es, brk, k.contT))
  {
    hide At;
    assert Ops(FillBreak(es, brk), k.brkT, k.contT) == Ops(es, brk, k.contT);
  }
}
