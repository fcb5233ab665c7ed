/**
 Numbers and operators: what the binary operators, the constant-operand
 instructions and the fused loop instructions do with a value.
 */
module Values {
  import opened Names
  import opened Ast
  import opened Shapes

  datatype Res = Val(v: Value) | Exc(x: Value)
  datatype Raw = Ok(v: Value) | Err(x: Value)
  datatype Coerced = Is(b: bool) | NotABoolean(x: Value)
  datatype Operand = Num(d: Float) | NotANumber(x: Value)

  /** `Unknown` marks a condition whose emitted test departs from it. */
  datatype Truth = Yes | No | Bad(x: Value) | Unknown

  type Vars = map<string, Value>

  /** Double arithmetic; `whole` gives the integer a double is, when it is one below 2^63 in size. */
  datatype Floats = Floats(
    ofInt: int -> Float,
    add: (Float, Float) -> Float,
    sub: (Float, Float) -> Float,
    mul: (Float, Float) -> Float,
    less: (Float, Float) -> bool,
    same: (Float, Float) -> bool,
    whole: Float -> Option<int>)

  /**
   Everything about values that the control-flow code does not depend on.
   The theorems hold for every choice of these functions.
   */
  datatype World = World(
    fp: Floats,
    num: Value -> Operand,                   // `arith_operand` of what is no number
    bin: (BinOp, Value, Value) -> Raw,       // operators not fixed below
    eq: (Value, Value) -> bool,              // `cfml_equal` unless both are numbers
    order: (Value, Value) -> int,            // sign of `cfml_compare`, likewise
    cond: Value -> Coerced,                  // `to_condition` of doubles, strings and objects
    matches: (string, Value) -> bool,        // catch type against exception
    wrap: Value -> Value,                    // exception object for a thrown value
    missing: string -> Value,                // exception object for an undefined variable
    watch: bool)                             // see `Semantics.Exec`

  predicate IsNumber(v: Value) { v.Int? || v.Dbl? }

  function FloatOf(w: World, v: Value): Operand {
    match v
    case Int(n) => Num(w.fp.ofInt(n))
    case Dbl(d) => Num(d)
    case _ => w.num(v)
  }

  /** `partial_cmp`, with unordered operands called equal. */
  function FloatOrder(fp: Floats, a: Float, b: Float): int {
    if fp.less(a, b) then -1 else if fp.less(b, a) then 1 else 0
  }

  predicate CompareFloats(fp: Floats, cmp: Cmp, a: Float, b: Float) {
    match cmp
    case CEq => fp.same(a, b)
    case CNeq => !fp.same(a, b)
    case _ => CmpInt(cmp, FloatOrder(fp, a, b), 0)
  }

  /** The comparison operators. */
  predicate Compare(w: World, cmp: Cmp, a: Value, b: Value) {
    if a.Int? && b.Int? then CmpInt(cmp, a.n, b.n)
    else if IsNumber(a) && IsNumber(b) then CompareFloats(w.fp, cmp, FloatOf(w, a).d, FloatOf(w, b).d)
    else match cmp
      case CEq => w.eq(a, b)
      case CNeq => !w.eq(a, b)
      case _ => CmpInt(cmp, w.order(a, b), 0)
  }

  function OfRaw(r: Raw): Res {
    match r case Ok(v) => Val(v) case Err(x) => Exc(x)
  }

  function FloatOp(fp: Floats, op: BinOp, a: Float, b: Float): Float {
    if op == Add then fp.add(a, b) else if op == Sub then fp.sub(a, b) else fp.mul(a, b)
  }

  /** `arith_operand` of both sides, the left one first. */
  function Arith(w: World, op: BinOp, a: Value, b: Value): Res {
    match FloatOf(w, a)
    case NotANumber(x) => Exc(x)
    case Num(x) =>
      match FloatOf(w, b)
      case NotANumber(y) => Exc(y)
      case Num(y) => Val(Dbl(FloatOp(w.fp, op, x, y)))
  }

  /** `checked_add`, promoted to a double past 64 bits. */
  function Sum(fp: Floats, a: int, b: int): Value {
    if InI64(a + b) then Int(a + b) else Dbl(fp.add(fp.ofInt(a), fp.ofInt(b)))
  }

  function Shrink(fp: Floats, d: Float): Value {
    match fp.whole(d) case Some(n) => Int(n) case None => Dbl(d)
  }

  /** A plain binary operator. `+` on integers is exact; `-` and `*` go through doubles. */
  function Apply(w: World, op: BinOp, a: Value, b: Value): Res {
    if CmpOf(op).Some? then Val(Bool(Compare(w, CmpOf(op).value, a, b)))
    else if op == Add && a.Int? && b.Int? then Val(Sum(w.fp, a.n, b.n))
    else if (op == Sub || op == Mul) && a.Int? && b.Int? then
      Val(Shrink(w.fp, FloatOp(w.fp, op, w.fp.ofInt(a.n), w.fp.ofInt(b.n))))
    else if op == Add || op == Sub || op == Mul then Arith(w, op, a, b)
    else OfRaw(w.bin(op, a, b))
  }

  /** `to_condition`. */
  function TruthOf(w: World, v: Value): (t: Truth)
    ensures !t.Unknown?
  {
    match v
    case Bool(b) => if b then Yes else No
    case Int(n) => if n != 0 then Yes else No
    case Null => No
    case _ =>
      match w.cond(v)
      case Is(b) => if b then Yes else No
      case NotABoolean(x) => Bad(x)
  }

  // ---- Instructions with a constant operand ----

  /** `numeric_step` adding. */
  function StepValue(w: World, v: Value, amount: int): Res {
    match v
    case Int(n) => Val(Sum(w.fp, n, amount))
    case Dbl(d) => Val(Dbl(w.fp.add(d, w.fp.ofInt(amount))))
    case _ => Arith(w, Add, v, Int(amount))
  }

  /** `numeric_step` multiplying: `checked_mul`. */
  function MulValue(w: World, v: Value, amount: int): Res {
    match v
    case Int(n) =>
      Val(if InI64(n * amount) then Int(n * amount) else Dbl(w.fp.mul(w.fp.ofInt(n), w.fp.ofInt(amount))))
    case Dbl(d) => Val(Dbl(w.fp.mul(d, w.fp.ofInt(amount))))
    case _ => Arith(w, Mul, v, Int(amount))
  }

  /** Adding a constant in place is the `+` operator, on every value. */
  lemma {:induction false} StepIsAdd(w: World, v: Value, amount: int)
    ensures StepValue(w, v, amount) == Apply(w, Add, v, Int(amount))
  {
  }

  // ---- Fused loop instructions ----

  /** The comparison of a fused jump: doubles are compared directly. */
  predicate FusedTest(w: World, cmp: Cmp, v: Value, limit: int) {
    match v
    case Int(n) => CmpInt(cmp, n, limit)
    case Dbl(d) => FusedFloats(w.fp, cmp, d, w.fp.ofInt(limit))
    case _ => Compare(w, cmp, v, Int(limit))
  }

  predicate FusedFloats(fp: Floats, cmp: Cmp, a: Float, b: Float) {
    match cmp
    case CLt => fp.less(a, b)
    case CLte => fp.less(a, b) || fp.same(a, b)
    case CGt => fp.less(b, a)
    case CGte => fp.less(b, a) || fp.same(a, b)
    case CEq => fp.same(a, b)
    case CNeq => !fp.same(a, b)
  }

  /** The counter after a fused step: unchecked on integers, restarted when it is no number. */
  function FusedStep(w: World, v: Option<Value>, amount: int): Value {
    match v
    case Some(Int(n)) => Int(Wrap64(n + amount))
    case Some(Dbl(d)) => Dbl(w.fp.add(d, w.fp.ofInt(amount)))
    case _ => Int(amount)
  }

  function Lookup(vars: Vars, name: string): Option<Value> {
    if Fold(name) in vars then Some(vars[Fold(name)]) else None
  }

  /** A fused test reads an undefined variable as null. */
  predicate FusedBound(w: World, name: string, limit: int, cmp: Cmp, vars: Vars) {
    FusedTest(w, cmp, match Lookup(vars, name) case Some(v) => v case None => Null, limit)
  }
}
