/**
 The syntactic shapes the code generator recognises before it emits a fused
 instruction, and the integer ranges those instructions can carry.
 */
module Shapes {
  import opened Names
  import opened Ast

  datatype Cmp = CLt | CLte | CGt | CGte | CEq | CNeq

  predicate InI32(n: int) { -0x8000_0000 <= n < 0x8000_0000 }

  predicate InI64(n: int) { -0x8000_0000_0000_0000 <= n < 0x8000_0000_0000_0000 }

  /** The cast `n as i32`. */
  function Wrap32(n: int): (r: int)
    ensures InI32(r)
    ensures InI32(n) ==> r == n
  {
    (n + 0x8000_0000) % 0x1_0000_0000 - 0x8000_0000
  }

  /** What `a + b` leaves in a 64-bit integer in a release build. */
  function Wrap64(n: int): (r: int)
    ensures InI64(r)
    ensures InI64(n) ==> r == n
  {
    (n + 0x8000_0000_0000_0000) % 0x1_0000_0000_0000_0000 - 0x8000_0000_0000_0000
  }

  predicate CmpInt(cmp: Cmp, a: int, b: int) {
    match cmp
    case CLt => a < b
    case CLte => a <= b
    case CGt => a > b
    case CGte => a >= b
    case CEq => a == b
    case CNeq => a != b
  }

  function CmpOf(op: BinOp): Option<Cmp> {
    match op
    case Lt => Some(CLt)
    case Lte => Some(CLte)
    case Gt => Some(CGt)
    case Gte => Some(CGte)
    case Eq => Some(CEq)
    case Neq => Some(CNeq)
    case _ => None
  }

  function Flip(cmp: Cmp): Cmp {
    match cmp
    case CLt => CGt
    case CLte => CGte
    case CGt => CLt
    case CGte => CLte
    case CEq => CEq
    case CNeq => CNeq
  }

  /** `ident CMP const`, oriented so that the identifier is on the left. */
  datatype Bound = Bound(name: string, limit: int, cmp: Cmp)

  /** `match_local_cmp_const`: only the unflipped form checks that the constant fits. */
  function MatchCmp(e: Expr): Option<Bound> {
    if e.Bin? && CmpOf(e.op).Some? then
      var cmp := CmpOf(e.op).value;
      if e.l.Var? && e.r.Lit? && e.r.v.Int? then
        if InI32(e.r.v.n) then Some(Bound(e.l.name, e.r.v.n, cmp)) else None
      else if e.l.Lit? && e.l.v.Int? && e.r.Var? then
        Some(Bound(e.r.name, e.l.v.n, Flip(cmp)))
      else None
    else None
  }

  /** A counter and the amount it advances by. */
  datatype Stride = Stride(name: string, amount: int)

  /** The two name comparisons in use: by spelling, and up to case. */
  predicate Alike(exact: bool, a: string, b: string) { if exact then a == b else SameName(a, b) }

  /** `i = i + K`, `i = K + i`, `i = i - K`. */
  function MatchSelfAdd(name: string, e: Expr, exact: bool): Option<Stride> {
    if e.Bin? && e.op == Add && e.l.Var? && e.r.Lit? && e.r.v.Int? && Alike(exact, e.l.name, name) then
      Some(Stride(name, e.r.v.n))
    else if e.Bin? && e.op == Add && e.l.Lit? && e.l.v.Int? && e.r.Var? && Alike(exact, e.r.name, name) then
      Some(Stride(name, e.l.v.n))
    else if e.Bin? && e.op == Sub && e.l.Var? && e.r.Lit? && e.r.v.Int? && Alike(exact, e.l.name, name) then
      Some(Stride(name, -e.r.v.n))
    else None
  }

  /** `match_inc_dec_identifier`. */
  function MatchStep(step: Step): Option<Stride> {
    match step
    case IncDec(name, up) => Some(Stride(name, if up then 1 else -1))
    case SetTo(name, e) => MatchSelfAdd(name, e, true)
  }

  /** The statement shapes that advance one variable by a constant. */
  function StrideOf(s: Stmt): Option<Stride> {
    match s
    case Do1(step) => MatchStep(step)
    case Assign(x, PlusEq, Lit(Int(k))) => Some(Stride(x, k))
    case Assign(x, MinusEq, Lit(Int(k))) => Some(Stride(x, -k))
    case Assign(x, Set, e) => MatchSelfAdd(x, e, false)
    case _ => None
  }

  /** `match_stride_statement`: only the expression form checks that the step fits. */
  function MatchStride(s: Stmt): Option<Stride> {
    if s.Do1? && StrideOf(s).Some? && !InI32(StrideOf(s).value.amount) then None else StrideOf(s)
  }

  /** `body_has_top_level_continue`: a `continue` that would target the enclosing loop. */
  predicate HasContinue(ss: seq<Stmt>)
    decreases SizeB(ss), 2
  {
    ss != [] && (StmtHasContinue(ss[0]) || HasContinue(ss[1..]))
  }

  predicate OptHasContinue(o: OptBlock)
    decreases SizeOpt(o), 3
  {
    o.Block? && HasContinue(o.ss)
  }

  predicate ArmsHaveContinue(arms: seq<Arm>)
    decreases SizeArms(arms), 0
  {
    arms != [] && (HasContinue(arms[0].body) || ArmsHaveContinue(arms[1..]))
  }

  predicate CasesHaveContinue(cs: seq<Case>)
    decreases SizeCases(cs), 0
  {
    cs != [] && (HasContinue(cs[0].body) || CasesHaveContinue(cs[1..]))
  }

  predicate CatchesHaveContinue(cs: seq<Catch>)
    decreases SizeCatches(cs), 0
  {
    cs != [] && (HasContinue(cs[0].body) || CatchesHaveContinue(cs[1..]))
  }

  predicate StmtHasContinue(s: Stmt)
    decreases SizeS(s), 1
  {
    match s
    case Continue => true
    case If(_, thn, elifs, els) => HasContinue(thn) || ArmsHaveContinue(elifs) || OptHasContinue(els)
    case Switch(_, cases, def) => CasesHaveContinue(cases) || OptHasContinue(def)
    case Try(body, catches, fin) =>
      HasContinue(body) || CatchesHaveContinue(catches) || OptHasContinue(fin)
    case _ => false
  }

  /** A `break` that would leave the enclosing loop or switch. */
  predicate HasBreak(ss: seq<Stmt>)
    decreases SizeB(ss), 2
  {
    ss != [] && (StmtHasBreak(ss[0]) || HasBreak(ss[1..]))
  }

  predicate OptHasBreak(o: OptBlock)
    decreases SizeOpt(o), 3
  {
    o.Block? && HasBreak(o.ss)
  }

  predicate ArmsHaveBreak(arms: seq<Arm>)
    decreases SizeArms(arms), 0
  {
    arms != [] && (HasBreak(arms[0].body) || ArmsHaveBreak(arms[1..]))
  }

  predicate CatchesHaveBreak(cs: seq<Catch>)
    decreases SizeCatches(cs), 0
  {
    cs != [] && (HasBreak(cs[0].body) || CatchesHaveBreak(cs[1..]))
  }

  predicate StmtHasBreak(s: Stmt)
    decreases SizeS(s), 1
  {
    match s
    case Break => true
    case If(_, thn, elifs, els) => HasBreak(thn) || ArmsHaveBreak(elifs) || OptHasBreak(els)
    case Try(body, catches, fin) =>
      HasBreak(body) || CatchesHaveBreak(catches) || OptHasBreak(fin)
    case _ => false
  }

  /** A loop the generator turns into the `ForLoopStep` shape. */
  datatype Counted = Counted(name: string, limit: int, cmp: Cmp, amount: int)

  /** `compile_for`'s test: the names must be spelled alike. */
  function CountedFor(test: Option<Expr>, inc: Option<Step>): Option<Counted> {
    if test.Some? && inc.Some? && MatchCmp(test.value).Some? && MatchStep(inc.value).Some?
       && MatchCmp(test.value).value.name == MatchStep(inc.value).value.name
    then
      var b := MatchCmp(test.value).value;
      Some(Counted(b.name, b.limit, b.cmp, MatchStep(inc.value).value.amount))
    else None
  }

  /** `compile_while` and `compile_do`: the last body statement is the stride. */
  function CountedBody(cond: Expr, body: seq<Stmt>): (r: Option<Counted>)
    ensures r.Some? ==> body != []
  {
    if body != [] && MatchCmp(cond).Some? && MatchStride(body[|body| - 1]).Some?
       && SameName(MatchCmp(cond).value.name, MatchStride(body[|body| - 1]).value.name)
       && !HasContinue(body)
    then
      var b := MatchCmp(cond).value;
      Some(Counted(b.name, b.limit, b.cmp, MatchStride(body[|body| - 1]).value.amount))
    else None
  }
}
