/**
 The stack machine that runs the emitted code. The meaning of each instruction
 is that of its handler in the virtual machine, restricted to one frame.
 */
module Machine {
  import opened Names
  import opened Ast
  import opened Shapes
  import opened Values

  datatype Op =
    | Const(v: Value)
    | Load(name: string)
    | StoreVar(name: string)
    | Declare(name: string)
    | Pop
    | Swap
    | Binary(op: BinOp)
    | OrOp
    | Jump(t: nat)
    | JumpIfFalse(t: nat)
    | JumpIfTrue(t: nat)
    | JumpIfNotNull(t: nat)
    | JumpCmpFalse(name: string, k: int, cmp: Cmp, t: nat)           // JumpIfLocalCmpConstFalse
    | LoopStep(name: string, k: int, cmp: Cmp, amount: int, t: nat)  // ForLoopStep
    | Incr(name: string, amount: int)                                // Increment, Decrement
    | AddConst(name: string, amount: int)
    | MulConst(name: string, amount: int)
    | Unset(name: string)
    | WriteText(text: string)
    | LineInfo
    | TryStart(t: nat)
    | TryEnd
    | ThrowOp
    | Rethrow
    | SaveExc
    | RestoreExc
    | CatchMatch(ty: string)
    | Ret

  datatype Handler = Handler(pc: nat, depth: nat)

  /** The running frame; `saves` is the stack of exceptions set aside by `SaveException`. */
  datatype Frame = Frame(pc: nat, stack: seq<Value>, vars: Vars, out: seq<string>,
                         handlers: seq<Handler>, last: Option<Value>, saves: seq<Option<Value>>)

  datatype Config =
    | Run(f: Frame)
    | Done(v: Value, vars: Vars, out: seq<string>)
    | Dead(x: Value, vars: Vars, out: seq<string>)

  function Front<T>(s: seq<T>): (r: seq<T>)
    ensures s != [] ==> |r| == |s| - 1
  {
    if s == [] then [] else s[..|s| - 1]
  }

  function Top(stack: seq<Value>): Value {
    if stack == [] then Null else stack[|stack| - 1]
  }

  /** Unwind to the innermost handler, leaving the exception on top of the stack. */
  function RaiseAt(f: Frame, x: Value): Config {
    if f.handlers == [] then Dead(x, f.vars, f.out)
    else
      var h := f.handlers[|f.handlers| - 1];
      var kept := if |f.stack| <= h.depth then f.stack else f.stack[..h.depth];
      Run(f.(pc := h.pc, stack := kept + [x], handlers := Front(f.handlers), last := Some(x)))
  }

  function Next(f: Frame): Config {
    Run(f.(pc := f.pc + 1))
  }

  function Goto(f: Frame, t: nat): Config {
    Run(f.(pc := t))
  }

  function Push(f: Frame, v: Value): Config {
    Run(f.(pc := f.pc + 1, stack := f.stack + [v]))
  }

  function SetVar(f: Frame, name: string, v: Value): Frame {
    f.(vars := f.vars[Fold(name) := v])
  }

  /** A jump that pops a condition; an empty stack is left alone. */
  function Branch(w: World, f: Frame, t: nat, when: bool): Config {
    if f.stack == [] then Next(f) else
    var f' := f.(stack := Front(f.stack));
    match TruthOf(w, Top(f.stack))
    case Bad(x) => RaiseAt(f', x)
    case Yes => if when then Goto(f', t) else Next(f')
    case _ => if when then Next(f') else Goto(f', t)
  }

  function Update(f: Frame, name: string, r: Res): Config {
    match r
    case Val(v) => Next(SetVar(f, name, v))
    case Exc(x) => RaiseAt(f, x)
  }

  /** Two operands off the stack, one result on it. */
  function Combine(f: Frame, r: Res): Config
    requires |f.stack| >= 2
  {
    var f' := f.(stack := f.stack[..|f.stack| - 2]);
    match r
    case Val(v) => Push(f', v)
    case Exc(x) => RaiseAt(f', x)
  }

  function OrResult(w: World, a: Value, b: Value): Res {
    match TruthOf(w, a)
    case Bad(x) => Exc(x)
    case Yes => Val(Bool(true))
    case _ => match TruthOf(w, b) case Bad(x) => Exc(x) case t => Val(Bool(t.Yes?))
  }

  function Exec1(w: World, op: Op, f: Frame): Config {
    match op
    case Const(v) => Push(f, v)
    case Load(name) =>
      (match Lookup(f.vars, name)
       case Some(v) => Push(f, v)
       case None => RaiseAt(f, w.missing(name)))
    case StoreVar(name) =>
      if f.stack == [] then Next(f) else Next(SetVar(f.(stack := Front(f.stack)), name, Top(f.stack)))
    case Declare(_) => Next(f)
    case Pop => Next(f.(stack := Front(f.stack)))
    case Swap =>
      if |f.stack| < 2 then Next(f)
      else
        var n := |f.stack|;
        Next(f.(stack := f.stack[..n - 2] + [f.stack[n - 1], f.stack[n - 2]]))
    case Binary(bop) =>
      if |f.stack| < 2 then Next(f)
      else Combine(f, Apply(w, bop, f.stack[|f.stack| - 2], f.stack[|f.stack| - 1]))
    case OrOp =>
      if |f.stack| < 2 then Next(f)
      else Combine(f, OrResult(w, f.stack[|f.stack| - 2], f.stack[|f.stack| - 1]))
    case Jump(t) => Goto(f, t)
    case JumpIfFalse(t) => Branch(w, f, t, false)
    case JumpIfTrue(t) => Branch(w, f, t, true)
    case JumpIfNotNull(t) => if f.stack != [] && Top(f.stack) != Null then Goto(f, t) else Next(f)
    case JumpCmpFalse(name, k, cmp, t) =>
      if FusedBound(w, name, k, cmp, f.vars) then Next(f) else Goto(f, t)
    case LoopStep(name, k, cmp, amount, t) =>
      var v := FusedStep(w, Lookup(f.vars, name), amount);
      var f' := SetVar(f, name, v);
      if FusedTest(w, cmp, v, k) then Goto(f', t) else Next(f')
    case Incr(name, amount) =>
      (match Lookup(f.vars, name)
       case Some(v) => Update(f, name, StepValue(w, v, amount))
       case None => Next(f))
    case AddConst(name, amount) =>
      (match Lookup(f.vars, name)
       case Some(v) => Update(f, name, StepValue(w, v, amount))
       case None => Next(f))
    case MulConst(name, amount) =>
      (match Lookup(f.vars, name)
       case Some(v) => Update(f, name, MulValue(w, v, amount))
       case None => Next(f))
    case Unset(name) => Next(f.(vars := f.vars - {Fold(name)}))
    case WriteText(text) => Next(f.(out := f.out + [text]))
    case LineInfo => Next(f)
    case TryStart(t) => Next(f.(handlers := f.handlers + [Handler(t, |f.stack|)]))
    case TryEnd => Next(f.(handlers := Front(f.handlers)))
    case ThrowOp => RaiseAt(f.(stack := Front(f.stack)), w.wrap(Top(f.stack)))
    case Rethrow => RaiseAt(f, match f.last case Some(x) => x case None => Str("No exception to rethrow"))
    case SaveExc => Next(f.(saves := f.saves + [f.last]))
    case RestoreExc =>
      if f.saves == [] then Next(f)
      else Next(f.(last := f.saves[|f.saves| - 1], saves := Front(f.saves)))
    case CatchMatch(ty) => Push(f, Bool(w.matches(ty, Top(f.stack))))
    case Ret => Done(Top(f.stack), f.vars, f.out)
  }

  function Step1(w: World, code: seq<Op>, c: Config): Config {
    if !c.Run? then c
    else if c.f.pc >= |code| then Done(Null, c.f.vars, c.f.out)
    else Exec1(w, code[c.f.pc], c.f)
  }

  function RunN(w: World, code: seq<Op>, n: nat, c: Config): Config {
    if n == 0 then c else RunN(w, code, n - 1, Step1(w, code, c))
  }

  lemma {:induction false} RunAdd(w: World, code: seq<Op>, m: nat, n: nat, c: Config)
    ensures RunN(w, code, m + n, c) == RunN(w, code, n, RunN(w, code, m, c))
  {
    if m > 0 {
      RunAdd(w, code, m - 1, n, Step1(w, code, c));
    }
  }

  /** A halted machine stays halted. */
  lemma {:induction false} RunHalted(w: World, code: seq<Op>, n: nat, c: Config)
    requires !c.Run?
    ensures RunN(w, code, n, c) == c
  {
    if n > 0 {
      RunHalted(w, code, n - 1, c);
    }
  }
}
