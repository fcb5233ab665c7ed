/**
 The meaning of the modelled statements: a big-step interpreter written from
 the language's own rules. With `watch` off it is total and does not ask how a
 statement is compiled. With it on it stops, `Stuck`, at the first point where an
 emitted instruction is known to depart from that meaning, and is otherwise the same
 (`Watch`); `Limits`, `Rounding` and `Departures` say exactly when that happens.
 */
module Semantics {
  import opened Names
  import opened Ast
  import opened Shapes
  import opened Values

  function Eval(w: World, e: Expr, vars: Vars): Res
    decreases e, 0
  {
    match e
    case Lit(v) => Val(v)
    case Var(name) => if Fold(name) in vars then Val(vars[Fold(name)]) else Exc(w.missing(name))
    case Bin(op, l, r) =>
      var a := Eval(w, l, vars);
      if !a.Val? then a else
      var b := Eval(w, r, vars);
      if !b.Val? then b else Apply(w, op, a.v, b.v)
    case Logic(isOr, l, r) =>
      var a := Test(w, l, vars);
      if a == (if isOr then Yes else No) then Val(Bool(isOr))
      else if a.Bad? then Exc(a.x)
      else
        var b := Test(w, r, vars);
        if b.Bad? then Exc(b.x) else Val(Bool(b == Yes))
  }

  /** A condition: the truth of an expression's value. */
  function Test(w: World, e: Expr, vars: Vars): (t: Truth)
    ensures !t.Unknown?
    decreases e, 1
  {
    var a := Eval(w, e, vars);
    match a
    case Val(v) => TruthOf(w, v)
    case Exc(x) => Bad(x)
  }

  // ---- Where emitted instructions depart ----

  /** The fused test of a recognised condition reads no variable, or compares differently. */
  predicate TestDeparts(w: World, e: Expr, vars: Vars) {
    MatchCmp(e).Some? &&
    var b := MatchCmp(e).value;
    (Lookup(vars, b.name).None?
     || FusedBound(w, b.name, b.limit, b.cmp, vars) != Compare(w, b.cmp, Lookup(vars, b.name).value, Int(b.limit)))
  }

  /** The condition of an `if` or at the top of a loop. */
  function Decide(w: World, e: Expr, vars: Vars): (t: Truth)
    ensures t.Unknown? ==> w.watch
  {
    if w.watch && TestDeparts(w, e, vars) then Unknown else Test(w, e, vars)
  }

  /** The result of the instruction that a constant right side gets, if there is one. */
  function ConstResult(w: World, aop: AssignOp, e: Expr, v: Value): Option<Res> {
    if !(e.Lit? && e.v.Int?) then None else
    match aop
    case PlusEq => Some(StepValue(w, v, e.v.n))
    case MinusEq => Some(StepValue(w, v, -e.v.n))
    case StarEq => Some(MulValue(w, v, e.v.n))
    case _ => None
  }

  predicate ConstDeparts(w: World, aop: AssignOp, e: Expr, v: Option<Value>) {
    match v
    case None => ConstResult(w, aop, e, Null).Some?
    case Some(v) => ConstResult(w, aop, e, v).Some? && ConstResult(w, aop, e, v).value != Apply(w, BinOf(aop), v, e.v)
  }

  /** `budget` bounds the loop iterations left before the interpreter gives up. */
  /**
   `aside` holds the exceptions set aside while a `finally` body runs, and `held` counts
   the handlers installed; nothing but the watch looks at them.
   */
  datatype State = State(vars: Vars, out: seq<string>, budget: nat, aside: seq<Value> := [], held: nat := 0)

  /** How a statement ends; only a watched run can be `Stuck`. */
  datatype Outcome =
    | Normal(st: State)
    | Broke(st: State)
    | Continued(st: State)
    | Returned(st: State, v: Value)
    | Thrown(st: State, x: Value)
    | Stuck
    | Timeout
  {
    predicate Ended() { !Stuck? && !Timeout? }
  }

  ghost predicate Within(o: Outcome, st: State) {
    o.Ended() ==> o.st.budget <= st.budget && st.held <= o.st.held && st.aside <= o.st.aside
  }

  /** Storing the literal `null` deletes the variable. */
  function Store(st: State, name: string, e: Expr, v: Value): State {
    if e == Lit(Null) then st.(vars := st.vars - {Fold(name)})
    else st.(vars := st.vars[Fold(name) := v])
  }

  /** The state after the fused step of a counted loop. */
  function Advanced(w: World, k: Counted, st: State): State {
    st.(vars := st.vars[Fold(k.name) := FusedStep(w, Lookup(st.vars, k.name), k.amount)])
  }

  /** The fused step departs from what its statement did. */
  predicate StepDeparts(w: World, k: Counted, before: State, after: Outcome) {
    after != Normal(Advanced(w, k, before))
  }

  function BinOf(aop: AssignOp): BinOp {
    match aop
    case Set => Add
    case PlusEq => Add
    case MinusEq => Sub
    case StarEq => Mul
    case SlashEq => Div
    case PercentEq => Mod
  }

  function ExecSet(w: World, name: string, e: Expr, st: State): (o: Outcome)
    ensures Within(o, st) && !o.Broke? && !o.Continued? && (o.Stuck? ==> w.watch)
  {
    match Eval(w, e, st.vars)
    case Val(v) => Normal(Store(st, name, e, v))
    case Exc(x) => Thrown(st, x)
  }

  function Updated(name: string, r: Res, st: State): (o: Outcome)
    ensures Within(o, st) && !o.Broke? && !o.Continued? && !o.Stuck?
  {
    match r
    case Val(v) => Normal(st.(vars := st.vars[Fold(name) := v]))
    case Exc(x) => Thrown(st, x)
  }

  /** `i++` on an undefined variable throws; the instruction does nothing. */
  function ExecStep(w: World, step: Step, st: State): (o: Outcome)
    ensures Within(o, st) && !o.Broke? && !o.Continued? && (o.Stuck? ==> w.watch)
  {
    match step
    case SetTo(name, e) => ExecSet(w, name, e, st)
    case IncDec(name, up) =>
      match Lookup(st.vars, name)
      case Some(v) => Updated(name, StepValue(w, v, if up then 1 else -1), st)
      case None => if w.watch then Stuck else Thrown(st, w.missing(name))
  }

  /** `x OP= e`: the right side is evaluated before the current value is read. */
  function ExecAssign(w: World, x: string, aop: AssignOp, e: Expr, st: State): (o: Outcome)
    ensures Within(o, st) && !o.Broke? && !o.Continued? && (o.Stuck? ==> w.watch)
  {
    if aop == Set then ExecSet(w, x, e, st)
    else if w.watch && ConstDeparts(w, aop, e, Lookup(st.vars, x)) then Stuck
    else
      match Eval(w, e, st.vars)
      case Exc(y) => Thrown(st, y)
      case Val(b) =>
        match Lookup(st.vars, x)
        case None => Thrown(st, w.missing(x))
        case Some(a) => Updated(x, Apply(w, BinOf(aop), a, b), st)
  }

  const DEFAULT_MESSAGE := Str("An error occurred")

  function WithState(o: Outcome, st: State): Outcome
    requires o.Ended()
  {
    o.(st := st)
  }

  function LastAside(st: State): Option<Value> {
    if st.aside == [] then None else Some(st.aside[|st.aside| - 1])
  }

  function TakenBack(st: State): State {
    if st.aside == [] then st else st.(aside := st.aside[..|st.aside| - 1])
  }

  /** Where the `finally` body starts after `o`: a pending exception is set aside. */
  function Pending(o: Outcome): State
    requires o.Ended()
  {
    if o.Thrown? then o.st.(aside := o.st.aside + [o.x]) else o.st
  }

  /**
   Complete as `o` did after the `finally` body, run from `Pending(o)`, ended in `f`. A body
   that does not complete normally decides how the statement ends. With a `break`, `continue`
   or `return` pending, the emitted code then differs. It also differs when an exception
   left aside on the way is another one: the emitted code takes back the last.
   */
  function AfterFinally(w: World, o: Outcome, f: Outcome): (r: Outcome)
    requires o.Ended() && (f.Stuck? ==> w.watch)
    ensures r.Stuck? ==> w.watch
  {
    match f
    case Normal(st) =>
      if w.watch && o.Thrown? && LastAside(st) != Some(o.x) then Stuck
      else WithState(o, if o.Thrown? then TakenBack(st) else st)
    case Timeout => Timeout
    case _ => if w.watch && !o.Normal? && !o.Thrown? then Stuck else f
  }

  lemma {:induction false} FinallyWithin(w: World, o: Outcome, f: Outcome, st: State)
    requires o.Ended() && (f.Stuck? ==> w.watch) && Within(o, st) && Within(f, Pending(o))
    ensures Within(AfterFinally(w, o, f), st)
  {
  }

  predicate CaseMatches(w: World, v: Value, vals: seq<Value>) {
    exists i :: 0 <= i < |vals| && Compare(w, CEq, v, vals[i])
  }

  datatype Chosen = Chosen(i: nat) | NoCase | Raised(x: Value)

  function EvalAll(w: World, es: seq<Expr>, vars: Vars): (r: Either)
    ensures r.Vals? ==> |r.vs| == |es|
  {
    if es == [] then Vals([]) else
    var a := Eval(w, es[0], vars);
    if a.Exc? then Fails(a.x) else
    var rest := EvalAll(w, es[1..], vars);
    if rest.Vals? then Vals([a.v] + rest.vs) else rest
  }

  datatype Either = Vals(vs: seq<Value>) | Fails(x: Value)

  /** The first case, in source order, one of whose values equals `v`. */
  function Choose(w: World, v: Value, cs: seq<Case>, vars: Vars): (r: Chosen)
    ensures r.Chosen? ==> r.i < |cs|
  {
    if cs == [] then NoCase else
    match EvalAll(w, [cs[0].value] + cs[0].more, vars)
    case Fails(x) => Raised(x)
    case Vals(vs) =>
      if CaseMatches(w, v, vs) then Chosen(0)
      else match Choose(w, v, cs[1..], vars)
        case Chosen(i) => Chosen(i + 1)
        case other => other
  }

  function BodyOf(o: OptBlock): (r: seq<Stmt>)
    ensures SizeB(r) <= SizeOpt(o)
  {
    match o case Absent => [] case Block(b) => b
  }

  /** C-style fall-through: the bodies of `cs` in order, then the default body. */
  function FallThrough(cs: seq<Case>, def: OptBlock): (r: seq<Stmt>)
    ensures SizeB(r) <= SizeCases(cs) + SizeOpt(def)
  {
    if cs == [] then BodyOf(def)
    else
      SizeAppend(cs[0].body, FallThrough(cs[1..], def));
      cs[0].body + FallThrough(cs[1..], def)
  }

  lemma {:induction false} SizeAppend(a: seq<Stmt>, b: seq<Stmt>)
    ensures SizeB(a + b) == SizeB(a) + SizeB(b)
  {
    if a == [] {
      assert a + b == b;
    } else {
      assert (a + b)[1..] == a[1..] + b;
      SizeAppend(a[1..], b);
    }
  }

  lemma {:induction false} SizeCasesSuffix(cs: seq<Case>, i: nat)
    requires i <= |cs|
    ensures SizeCases(cs[i..]) <= SizeCases(cs)
  {
    if i > 0 {
      assert cs[i..] == cs[1..][i - 1..];
      SizeCasesSuffix(cs[1..], i - 1);
    }
  }

  function ClauseType(c: Catch): string {
    match c.ty case None => "any" case Some(t) => t
  }

  /**
   `catching` chooses between two ways of using the interpreter. With it, exceptions
   are routed to `catch` and `finally`. Without it, an exception ends the whole
   run, which describes the runs that raise none.
   */
  function Exec(w: World, s: Stmt, st: State, catching: bool): (o: Outcome)
    ensures Within(o, st) && (o.Stuck? ==> w.watch)
    decreases st.budget, SizeS(s), 1
  {
    match s
    case Text(text) => Normal(st.(out := st.out + [text]))
    case Do1(step) => ExecStep(w, step, st)
    case Assign(x, aop, e) => ExecAssign(w, x, aop, e, st)
    case VarDecl(x, None) => Normal(st.(vars := st.vars[Fold(x) := Null]))
    case VarDecl(x, Some(e)) => ExecSet(w, x, e, st)
    case If(cond, thn, elifs, els) =>
      (match Decide(w, cond, st.vars)
       case Yes => ExecB(w, thn, st, catching)
       case No => ExecArms(w, elifs, els, st, catching)
       case Bad(x) => Thrown(st, x)
       case Unknown => Stuck)
    case While(cond, body) => ExecWhile(w, cond, body, st, catching)
    case DoWhile(body, cond) => ExecDo(w, cond, body, st, catching)
    case For(start, test, inc, body) =>
      var o := if start.None? then Normal(st) else Exec(w, InitStmt(start.value), st, catching);
      if o.Normal? then ExecFor(w, test, inc, body, o.st, catching) else o
    case Switch(on, cases, def) => ExecSwitch(w, on, cases, def, st, catching)
    case Break => Broke(st)
    case Continue => Continued(st)
    case Return(None) => Returned(st, Null)
    case Return(Some(e)) =>
      (match Eval(w, e, st.vars)
       case Val(v) => Returned(st, v)
       case Exc(x) => Thrown(st, x))
    case Throw(None) => Thrown(st, w.wrap(DEFAULT_MESSAGE))
    case Throw(Some(e)) =>
      (match Eval(w, e, st.vars)
       case Val(v) => Thrown(st, w.wrap(v))
       case Exc(x) => Thrown(st, x))
    case Try(body, catches, fin) => ExecTry(w, body, catches, fin, st, catching)
  }

  function ExecSwitch(w: World, on: Expr, cases: seq<Case>, def: OptBlock, st: State, catching: bool)
    : (o: Outcome)
    ensures Within(o, st) && (o.Stuck? ==> w.watch)
    decreases st.budget, SizeCases(cases) + SizeOpt(def), 3
  {
    match Eval(w, on, st.vars)
    case Exc(x) => Thrown(st, x)
    case Val(v) =>
      match Choose(w, v, cases, st.vars)
      case Raised(x) => Thrown(st, x)
      case Chosen(i) =>
        SizeCasesSuffix(cases, i);
        LeaveSwitch(ExecB(w, FallThrough(cases[i..], def), st, catching))
      case NoCase => LeaveSwitch(ExecB(w, BodyOf(def), st, catching))
  }

  /** Inside the body of a `try`. */
  function Inside(st: State): State { st.(held := st.held + 1) }

  /** A body that completes removes a handler; one that is left by a jump does not. */
  function Completed(o: Outcome): Outcome
    requires o.Normal? ==> o.st.held > 0
  {
    if o.Normal? then Normal(o.st.(held := o.st.held - 1)) else o
  }

  /**
   A jump out of the body of a `try` leaves its handler installed. The next exception in the
   same body or function then goes to that handler; the watched run stops there.
   */
  function ExecTry(w: World, body: seq<Stmt>, catches: seq<Catch>, fin: OptBlock, st: State, catching: bool)
    : (o: Outcome)
    ensures Within(o, st) && (o.Stuck? ==> w.watch)
    decreases st.budget, SizeB(body) + SizeCatches(catches) + SizeOpt(fin), 3
  {
    var o := ExecB(w, body, Inside(st), catching);
    var o' :=
      if o.Thrown? && catching then
        if w.watch && o.st.held != st.held + 1 then Stuck
        else ExecCatch(w, catches, fin.Block?, o.x, o.st.(held := st.held))
      else Completed(o);
    if !o'.Ended() || (o'.Thrown? && !catching) then o'
    else if fin.Absent? then o'
    else
      var f := ExecB(w, fin.ss, Pending(o'), catching);
      FinallyWithin(w, o', f, st);
      AfterFinally(w, o', f)
  }

  function LeaveSwitch(o: Outcome): Outcome {
    if o.Broke? then Normal(o.st) else o
  }

  /** The first clause whose type matches. Emitted code skips a `finally` when its clause throws. */
  function ExecCatch(w: World, cs: seq<Catch>, hasFinally: bool, x: Value, st: State): (o: Outcome)
    ensures Within(o, st) && (o.Stuck? ==> w.watch)
    decreases st.budget, SizeCatches(cs), 0
  {
    if cs == [] then Thrown(st, x)
    else if w.matches(ClauseType(cs[0]), x) then
      var o := ExecB(w, cs[0].body, st.(vars := st.vars[Fold(cs[0].name) := x]), true);
      if o.Thrown? && hasFinally && w.watch then Stuck else o
    else ExecCatch(w, cs[1..], hasFinally, x, st)
  }

  function ExecB(w: World, ss: seq<Stmt>, st: State, catching: bool): (o: Outcome)
    ensures Within(o, st) && (o.Stuck? ==> w.watch)
    decreases st.budget, SizeB(ss), 2
  {
    if ss == [] then Normal(st) else
    var o := Exec(w, ss[0], st, catching);
    if o.Normal? then ExecB(w, ss[1..], o.st, catching) else o
  }

  function ExecArms(w: World, arms: seq<Arm>, els: OptBlock, st: State, catching: bool): (o: Outcome)
    ensures Within(o, st) && (o.Stuck? ==> w.watch)
    decreases st.budget, SizeArms(arms) + SizeOpt(els), 3
  {
    if arms == [] then ExecB(w, BodyOf(els), st, catching)
    else match Decide(w, arms[0].cond, st.vars)
      case Yes => ExecB(w, arms[0].body, st, catching)
      case No => ExecArms(w, arms[1..], els, st, catching)
      case Bad(x) => Thrown(st, x)
      case Unknown => Stuck
  }

  /**
   A loop body. When the loop is compiled to the fused shape, a watched run stops if the
   fused step departs from the body's last statement.
   */
  function ExecBody(w: World, k: Option<Counted>, body: seq<Stmt>, st: State, catching: bool): (o: Outcome)
    requires k.Some? ==> body != []
    ensures Within(o, st) && (o.Stuck? ==> w.watch)
    decreases st.budget, SizeB(body), 3
  {
    if !w.watch || k.None? then ExecB(w, body, st, catching)
    else
      var front, last := body[..|body| - 1], body[|body| - 1];
      assert SizeB(front) + SizeS(last) == SizeB(body) by { SizeSnoc(body); }
      var a := ExecB(w, front, st, catching);
      if !a.Normal? then a
      else
        var o := Exec(w, last, a.st, catching);
        if StepDeparts(w, k.value, a.st, o) then Stuck else o
  }

  lemma {:induction false} SizeSnoc(ss: seq<Stmt>)
    requires ss != []
    ensures SizeB(ss) == SizeB(ss[..|ss| - 1]) + SizeS(ss[|ss| - 1])
  {
    var front, last := ss[..|ss| - 1], ss[|ss| - 1];
    assert ss == front + [last] && [last][1..] == [];
    SizeAppend(front, [last]);
  }

  function ExecWhile(w: World, cond: Expr, body: seq<Stmt>, st: State, catching: bool): (o: Outcome)
    ensures Within(o, st) && !o.Broke? && !o.Continued? && (o.Stuck? ==> w.watch)
    decreases st.budget, SizeB(body), 4
  {
    match Decide(w, cond, st.vars)
    case No => Normal(st)
    case Bad(x) => Thrown(st, x)
    case Unknown => Stuck
    case Yes =>
      var o := ExecBody(w, CountedBody(cond, body), body, st, catching);
      if o.Normal? || o.Continued? then
        if o.st.budget == 0 then Timeout else ExecWhile(w, cond, body, Spend(o.st), catching)
      else if o.Broke? then Normal(o.st)
      else o
  }

  /** Every completed iteration costs one unit of budget. */
  function Spend(st: State): State
    requires st.budget > 0
  {
    st.(budget := st.budget - 1)
  }

  function ExecDo(w: World, cond: Expr, body: seq<Stmt>, st: State, catching: bool): (o: Outcome)
    ensures Within(o, st) && !o.Broke? && !o.Continued? && (o.Stuck? ==> w.watch)
    decreases st.budget, SizeB(body), 4
  {
    var o := ExecBody(w, CountedBody(cond, body), body, st, catching);
    if o.Normal? || o.Continued? then
      if o.st.budget == 0 then Timeout else
      match if CountedBody(cond, body).Some? then Decide(w, cond, o.st.vars) else Test(w, cond, o.st.vars)
      case No => Normal(Spend(o.st))
      case Bad(x) => Thrown(Spend(o.st), x)
      case Unknown => Stuck
      case Yes => ExecDo(w, cond, body, Spend(o.st), catching)
    else if o.Broke? then Normal(o.st)
    else o
  }

  /** A missing test is always true. */
  function ExecFor(w: World, test: Option<Expr>, inc: Option<Step>, body: seq<Stmt>, st: State, catching: bool)
    : (o: Outcome)
    ensures Within(o, st) && !o.Broke? && !o.Continued? && (o.Stuck? ==> w.watch)
    decreases st.budget, SizeB(body), 4
  {
    match if test.None? then Yes else Decide(w, test.value, st.vars)
    case No => Normal(st)
    case Bad(x) => Thrown(st, x)
    case Unknown => Stuck
    case Yes =>
      var o := ExecB(w, body, st, catching);
      if o.Normal? || o.Continued? then
        var i := ExecInc(w, CountedFor(test, inc), inc, o.st);
        if !i.Normal? then i
        else if i.st.budget == 0 then Timeout
        else ExecFor(w, test, inc, body, Spend(i.st), catching)
      else if o.Broke? then Normal(o.st)
      else o
  }

  function ExecInc(w: World, k: Option<Counted>, inc: Option<Step>, st: State): (o: Outcome)
    ensures Within(o, st) && !o.Broke? && !o.Continued? && (o.Stuck? ==> w.watch)
  {
    var o := if inc.None? then Normal(st) else ExecStep(w, inc.value, st);
    if w.watch && k.Some? && StepDeparts(w, k.value, st, o) then Stuck else o
  }

  /** A function body: leaving a loop or switch that is not there ends the call with null. */
  datatype Result = Finished(v: Value, vars: Vars, out: seq<string>)
                  | Failed(x: Value, vars: Vars, out: seq<string>)
                  | NoClaim
                  | OutOfBudget

  /** With exceptions in play and nothing watched, every run has a result. */
  function RunFunction(w: World, body: seq<Stmt>, vars: Vars, budget: nat, catching: bool): (r: Result)
    ensures r.NoClaim? ==> w.watch || !catching
  {
    match ExecB(w, body, State(vars, [], budget), catching)
    case Normal(st) => Finished(Null, st.vars, st.out)
    case Broke(st) => Finished(Null, st.vars, st.out)
    case Continued(st) => Finished(Null, st.vars, st.out)
    case Returned(st, v) => Finished(v, st.vars, st.out)
    case Thrown(st, x) => if !catching || (w.watch && st.held > 0) then NoClaim else Failed(x, st.vars, st.out)
    case Stuck => NoClaim
    case Timeout => OutOfBudget
  }
}
