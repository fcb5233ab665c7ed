/**
 The part of the CFML syntax tree whose compilation is modelled: expressions
 without side effects, assignments to plain variables, and every structured
 control-flow statement.
 */
module Ast {
  import opened Names

  /** A double, by its bit pattern; what arithmetic does with it is a parameter of the theorems. */
  datatype Float = Float(bits: int)

  datatype Value = Null | Bool(b: bool) | Int(n: int) | Dbl(d: Float) | Str(s: string) | Other(id: int)

  /** The plain binary operators, that is all but `=`, `and`, `or`. */
  datatype BinOp =
    | Add | Sub | Mul | Div | Mod | Pow | IntDiv | Concat
    | Eq | Neq | StrictEq | StrictNeq | Lt | Lte | Gt | Gte
    | Contains | DoesNotContain | Xor | Eqv | Imp

  datatype Expr =
    | Lit(v: Value)
    | Var(name: string)
    | Bin(op: BinOp, l: Expr, r: Expr)
    | Logic(isOr: bool, l: Expr, r: Expr)

  /** Expressions that write: `i++`, `--i`, `x = e` in statement position. */
  datatype Step =
    | IncDec(name: string, up: bool)
    | SetTo(name: string, e: Expr)

  /** The first clause of a `for`: a declaration or an expression statement. */
  datatype Init = InitVar(name: string, e: Option<Expr>) | InitStep(step: Step)

  datatype AssignOp = Set | PlusEq | MinusEq | StarEq | SlashEq | PercentEq

  datatype Arm = Arm(cond: Expr, body: seq<Stmt>)
  datatype Case = Case(value: Expr, more: seq<Expr>, body: seq<Stmt>)
  datatype Catch = Catch(ty: Option<string>, name: string, body: seq<Stmt>)

  /** An optional `else`, `default` or `finally` body. */
  datatype OptBlock = Absent | Block(ss: seq<Stmt>)

  datatype Stmt =
    | Text(text: string)
    | Do1(step: Step)
    | Assign(target: string, aop: AssignOp, e: Expr)
    | VarDecl(vname: string, init: Option<Expr>)
    | If(cond: Expr, thn: seq<Stmt>, elifs: seq<Arm>, els: OptBlock)
    | While(cond: Expr, body: seq<Stmt>)
    | DoWhile(body: seq<Stmt>, cond: Expr)
    | For(start: Option<Init>, test: Option<Expr>, inc: Option<Step>, body: seq<Stmt>)
    | Switch(on: Expr, cases: seq<Case>, def: OptBlock)
    | Break
    | Continue
    | Return(ret: Option<Expr>)
    | Throw(msg: Option<Expr>)
    | Try(body: seq<Stmt>, catches: seq<Catch>, fin: OptBlock)

  // ---- Sizes, used as termination measures ----

  function SizeB(ss: seq<Stmt>): (n: nat)
    decreases ss, 0
  {
    if ss == [] then 0 else SizeS(ss[0]) + SizeB(ss[1..])
  }

  function SizeOpt(o: OptBlock): nat
    decreases o, 1
  {
    match o case Absent => 0 case Block(b) => 1 + SizeB(b)
  }

  function SizeArms(arms: seq<Arm>): nat
    decreases arms, 0
  {
    if arms == [] then 0 else 1 + SizeB(arms[0].body) + SizeArms(arms[1..])
  }

  function SizeCases(cs: seq<Case>): nat
    decreases cs, 0
  {
    if cs == [] then 0 else 1 + SizeB(cs[0].body) + SizeCases(cs[1..])
  }

  function SizeCatches(cs: seq<Catch>): nat
    decreases cs, 0
  {
    if cs == [] then 0 else 1 + SizeB(cs[0].body) + SizeCatches(cs[1..])
  }

  function SizeS(s: Stmt): (n: nat)
    ensures n >= 1
    decreases s, 2
  {
    match s
    case If(_, thn, elifs, els) => 1 + SizeB(thn) + SizeArms(elifs) + SizeOpt(els)
    case While(_, body) => 1 + SizeB(body)
    case DoWhile(body, _) => 1 + SizeB(body)
    case For(_, _, _, body) => 2 + SizeB(body)
    case Switch(_, cases, def) => 1 + SizeCases(cases) + SizeOpt(def)
    case Try(body, catches, fin) => 1 + SizeB(body) + SizeCatches(catches) + SizeOpt(fin)
    case _ => 1
  }

  function InitStmt(i: Init): (s: Stmt)
    ensures SizeS(s) == 1
  {
    match i
    case InitVar(name, e) => VarDecl(name, e)
    case InitStep(step) => Do1(step)
  }
}
