/**
 Slot-resolved locals: the instructions a frame runs, by name and in their slot
 form, and the pass that rewrites one into the other. A slot that is filled holds
 the variable; an empty one leaves the instruction to its by-name twin.
 */
module Slots {
  import opened Names
  import Ast
  import Shapes
  import Values

  type Value = Ast.Value
  type Vars = map<string, Value>

  datatype Op =
    // instructions with a slot twin
    | Declare(n: string)
    | Load(n: string)
    | TryLoad(n: string)
    | Store(n: string)
    | Step(n: string, k: int)                                          // Increment, Decrement, AddLocalConst
    | Mul(n: string, k: int)
    | JumpCmp(n: string, k: int, cmp: Shapes.Cmp, t: nat)
    | LoopStep(n: string, k: int, cmp: Shapes.Cmp, amount: int, t: nat)
    | LoadKey(n: string)                                               // `local.x`
    | TryLoadKey(n: string)
    | LoadProp(n: string, p: string)
    | TryLoadProp(n: string, p: string)
    | StoreProp(n: string, p: string)                                  // StoreLocalProperty
    | Append(n: string)                                                // ArrayAppendLocal
    | Take(n: string)                                                  // the load of `x &= e`
    // by-name instructions without one
    | CallLoad(n: string)                                              // LoadGlobal
    | StoreGlobal(n: string)
    | VariablesKey(n: string)
    | SetLast(n: string)
    | JumpIfArg(n: string, t: nat)
    | IsDefined(path: seq<string>)
    | WriteBack(path: seq<string>)                                     // CallMethod with a write-back path
    | SetScopePath(path: seq<string>)
    | SetDynamicVar
    | Unset(path: seq<string>)
    // instructions that may reach any local
    | DefineFunction
    | Include
    | DeleteScopeKey(n: string)
    // the rest
    | Const(v: Value)
    | Pop
    | Swap
    | Binary(op: Ast.BinOp)
    | Jump(t: nat)
    | JumpIfFalse(t: nat)
    | Ret

  /** An instruction as it stands in the code: by name, or its twin on a slot. */
  datatype Code = Named(op: Op) | Slotted(i: nat, op: Op)

  /** What the frame does not decide itself. */
  datatype World = World(base: Values.World,
                         prop: (Value, string) -> Option<Value>,
                         member: (Option<Value>, string, Value) -> Values.Res,  // the receiver with a member set
                         append: (Option<Value>, Value) -> Values.Res,
                         method_: Value -> Value,
                         nested: (Option<Value>, Value) -> Value,
                         dropped: (Value, seq<string>) -> Value,                // without the key a path names
                         scopes: (Vars, seq<string>) -> Vars,                   // the outer scopes, likewise
                         reach: (Op, Vars, Value) -> Vars,                      // the locals after something that sees them all
                         direct: bool)                                          // plain names reach `variables` directly

  /** A frame by name; `outer` is everything reached through the scope chain. */
  datatype Frame = Frame(pc: nat, stack: seq<Value>, locals: Vars, outer: Vars, declared: set<string>,
                         inherited: set<string>, last: Option<Value>)

  datatype Conf = Running(f: Frame) | Halted(result: Values.Res, outer: Vars)

  // ---- By-name meaning ----

  function Top(s: seq<Value>): Value { if s == [] then Ast.Null else s[|s| - 1] }

  function Under(s: seq<Value>): seq<Value> { if s == [] then [] else s[..|s| - 1] }

  function Next(f: Frame): Conf { Running(f.(pc := f.pc + 1)) }

  function Goto(f: Frame, t: nat): Conf { Running(f.(pc := t)) }

  function Push(f: Frame, v: Value): Conf { Next(f.(stack := f.stack + [v])) }

  function Raise(f: Frame, x: Value): Conf { Halted(Values.Exc(x), f.outer) }

  function Find(f: Frame, n: string): Option<Value> {
    if Fold(n) in f.locals then Some(f.locals[Fold(n)])
    else if Fold(n) in f.outer then Some(f.outer[Fold(n)])
    else None
  }

  /** A local when declared or already one, otherwise the scope chain's. */
  function Keep(f: Frame, n: string, v: Value): Frame {
    if Fold(n) in f.locals || Fold(n) in f.declared then f.(locals := f.locals[Fold(n) := v])
    else f.(outer := f.outer[Fold(n) := v])
  }

  /** A container changed in place, where it lives; a new one is kept like a stored value. */
  function Alter(f: Frame, n: string, v: Value): Frame {
    if Fold(n) in f.locals then f.(locals := f.locals[Fold(n) := v])
    else if Fold(n) in f.outer then f.(outer := f.outer[Fold(n) := v])
    else Keep(f, n, v)
  }

  /** Keys the `local` view shows: established here, and not a bridge key. */
  predicate Shown(f: Frame, n: string) {
    Fold(n) !in f.inherited && !("__" <= Fold(n))
  }

  function KeyRead(f: Frame, n: string): Option<Value> {
    if Fold(n) in f.locals && Shown(f, n) then Some(f.locals[Fold(n)]) else None
  }

  function OrRaise(w: World, f: Frame, n: string, v: Option<Value>): Conf {
    match v case Some(x) => Push(f, x) case None => Raise(f, w.base.missing(n))
  }

  function OrNull(f: Frame, v: Option<Value>): Conf {
    Push(f, match v case Some(x) => x case None => Ast.Null)
  }

  /** A member of a receiver that may be missing. */
  function PropOf(w: World, v: Option<Value>, p: string): Option<Value> {
    match v case Some(x) => w.prop(x, p) case None => None
  }

  function Stepped(f: Frame, n: string, r: Values.Res): Conf {
    match r
    case Val(v) => Next(Keep(f, n, v))
    case Exc(x) => Raise(f, x)
  }

  function Altered(f: Frame, n: string, r: Values.Res): Conf {
    match r
    case Val(v) => Next(Alter(f, n, v))
    case Exc(x) => Raise(f, x)
  }

  function StepOf(w: World, op: Op, v: Value): Values.Res
    requires op.Step? || op.Mul?
  {
    match op
    case Step(_, k) => Values.StepValue(w.base, v, k)
    case Mul(_, k) => Values.MulValue(w.base, v, k)
  }

  /** What a container instruction makes of the container it finds. */
  function ChangeOf(w: World, op: Op, v: Option<Value>, x: Value): Values.Res
    requires op.StoreProp? || op.Append?
  {
    match op
    case StoreProp(_, p) => w.member(v, p, x)
    case Append(_) => w.append(v, x)
  }

  /** The right operands in front of which a string is moved out of its variable. */
  predicate Simple(stack: seq<Value>) {
    stack != [] && (Top(stack).Str? || Top(stack).Int? || Top(stack).Dbl? || Top(stack).Bool?)
  }

  predicate IsString(vars: Vars, n: string) { Fold(n) in vars && vars[Fold(n)].Str? }

  predicate CmpHolds(w: World, cmp: Shapes.Cmp, v: Option<Value>, k: int) {
    Values.FusedTest(w.base, cmp, match v case Some(x) => x case None => Ast.Null, k)
  }

  /** The path a write-back stores to: the second segment after `local`, else the first. */
  function Target(path: seq<string>): Option<string> {
    if path == [] then None
    else if Fold(path[0]) == "local" then (if |path| > 1 then Some(path[1]) else None)
    else Some(path[0])
  }

  const SCOPE_NAMES: set<string> := {
    "local", "arguments", "variables", "this", "super", "request", "session", "application", "server", "url", "form", "cgi",
    "cookie", "client", "static", "attributes", "caller", "thread"}

  /** A nested write through a variable of this frame; a reserved scope root is not one. */
  function NestedWrite(w: World, f: Frame, root: string, v: Value): Frame {
    if root == "" || Fold(root) in SCOPE_NAMES then f else Keep(f, root, w.nested(Find(f, root), v))
  }

  function Defined(f: Frame, path: seq<string>): bool {
    if path == [] then false
    else if Fold(path[0]) == "local" && |path| > 1 then KeyRead(f, path[1]).Some?
    else Find(f, path[0]).Some?
  }

  /** The text before the first dot. */
  function Root(path: string): string {
    if path == "" || path[0] == '.' then "" else [path[0]] + Root(path[1..])
  }

  function PathRoot(v: Value): string {
    match v case Str(s) => Root(s) case _ => ""
  }

  predicate StackOnly(op: Op) {
    op.Declare? || op.DeleteScopeKey? || op.Const? || op.Pop? || op.Swap? || op.Binary? || op.Jump? || op.JumpIfFalse? || op.Ret?
    || op.DefineFunction? || op.Include?
  }

  predicate ByPath(op: Op) { op.IsDefined? || op.WriteBack? || op.SetScopePath? || op.SetDynamicVar? || op.Unset? }

  predicate Writes(op: Op) {
    op.Store? || op.StoreGlobal? || op.Step? || op.Mul? || op.LoopStep? || op.StoreProp? || op.Append? || op.Take?
  }

  /** The variable a bare or `local.x` target names. */
  function UnsetTarget(path: seq<string>): Option<string> {
    if |path| == 1 then Some(path[0])
    else if |path| == 2 && Fold(path[0]) == "local" then Some(path[1])
    else None
  }

  /** A target below a variable of the `local` scope. */
  predicate DeepLocal(path: seq<string>) { |path| > 2 && Fold(path[0]) == "local" }

  /** `UnsetPath`: a bare name goes everywhere, `local.x` from the frame, a deeper target from its container. */
  function Forget(w: World, f: Frame, path: seq<string>): Frame {
    if path == [] then f else
    var leaf := Fold(path[|path| - 1]);
    var g := f.(inherited := f.inherited - {leaf});
    if |path| == 1 then g.(locals := g.locals - {leaf}, outer := g.outer - {leaf})
    else if UnsetTarget(path).Some? then g.(locals := g.locals - {leaf})
    else if DeepLocal(path) then
      if Fold(path[1]) in g.locals then g.(locals := g.locals[Fold(path[1]) := w.dropped(g.locals[Fold(path[1])], path)]) else g
    else g.(outer := w.scopes(g.outer, path))
  }

  /** Instructions that leave the variables alone. */
  function ExecStack(w: World, op: Op, f: Frame): Conf
    requires StackOnly(op)
  {
    match op
    case Declare(n) => Next(f.(declared := f.declared + {Fold(n)}, inherited := f.inherited - {Fold(n)}))
    case DeleteScopeKey(_) => Next(f.(stack := Under(f.stack)))
    case Const(v) => Push(f, v)
    case Pop => Next(f.(stack := Under(f.stack)))
    case Swap =>
      if |f.stack| < 2 then Next(f)
      else Next(f.(stack := Under(Under(f.stack)) + [Top(f.stack), Top(Under(f.stack))]))
    case Binary(op) =>
      if |f.stack| < 2 then Next(f)
      else
        var f' := f.(stack := Under(Under(f.stack)));
        (match Values.Apply(w.base, op, Top(Under(f.stack)), Top(f.stack))
         case Val(v) => Push(f', v)
         case Exc(x) => Raise(f', x))
    case Jump(t) => Goto(f, t)
    case JumpIfFalse(t) =>
      (match Values.TruthOf(w.base, Top(f.stack))
       case Yes => Next(f.(stack := Under(f.stack)))
       case Bad(x) => Raise(f, x)
       case _ => Goto(f.(stack := Under(f.stack)), t))
    case Ret => Halted(Values.Val(Top(f.stack)), f.outer)
    case DefineFunction => Next(f)
    case Include => Next(f)
  }

  function ExecPath(w: World, op: Op, f: Frame): Conf
    requires ByPath(op)
  {
    match op
    case IsDefined(path) => Push(f, Ast.Bool(Defined(f, path)))
    case WriteBack(path) =>
      (match Target(path)
       case Some(n) => Next(Keep(f, n, w.method_(Top(f.stack))))
       case None => Next(f))
    case SetScopePath(path) =>
      if f.stack == [] || path == [] then Next(f)
      else Next(NestedWrite(w, f.(stack := Under(f.stack)), path[0], Top(f.stack)))
    case SetDynamicVar =>
      if |f.stack| < 2 then Next(f)
      else Next(NestedWrite(w, f.(stack := Under(Under(f.stack))), PathRoot(Top(Under(f.stack))), Top(f.stack)))
    case Unset(path) => Next(Forget(w, f, path))
  }

  function ExecWrite(w: World, op: Op, f: Frame): Conf
    requires Writes(op)
  {
    match op
    case Store(n) => if f.stack == [] then Next(f) else Next(Keep(f.(stack := Under(f.stack)), n, Top(f.stack)))
    case StoreGlobal(n) => if f.stack == [] then Next(f) else Next(Keep(f.(stack := Under(f.stack)), n, Top(f.stack)))
    case Step(n, _) => (match Find(f, n) case Some(v) => Stepped(f, n, StepOf(w, op, v)) case None => Next(f))
    case Mul(n, _) => (match Find(f, n) case Some(v) => Stepped(f, n, StepOf(w, op, v)) case None => Next(f))
    case LoopStep(n, k, cmp, amount, t) =>
      var v := Values.FusedStep(w.base, Find(f, n), amount);
      var f' := Keep(f, n, v);
      if CmpHolds(w, cmp, Some(v), k) then Goto(f', t) else Next(f')
    case StoreProp(n, _) =>
      if f.stack == [] then Next(f) else Altered(f.(stack := Under(f.stack)), n, ChangeOf(w, op, Find(f, n), Top(f.stack)))
    case Append(n) => Altered(f.(stack := Under(f.stack)), n, ChangeOf(w, op, Find(f, n), Top(f.stack)))
    case Take(n) =>
      if Simple(f.stack) && IsString(f.locals, n) then
        Push(f.(locals := f.locals[Fold(n) := Ast.Null]), f.locals[Fold(n)])
      else if Simple(f.stack) && w.direct && IsString(f.outer, n) then
        Push(f.(outer := f.outer[Fold(n) := Ast.Null]), f.outer[Fold(n)])
      else OrRaise(w, f, n, Find(f, n))
  }

  function ExecRead(w: World, op: Op, f: Frame): Conf
    requires !StackOnly(op) && !ByPath(op) && !Writes(op)
  {
    match op
    case Load(n) => OrRaise(w, f, n, Find(f, n))
    case TryLoad(n) => OrNull(f, Find(f, n))
    case JumpCmp(n, k, cmp, t) => if CmpHolds(w, cmp, Find(f, n), k) then Next(f) else Goto(f, t)
    case LoadKey(n) => OrRaise(w, f, n, KeyRead(f, n))
    case TryLoadKey(n) => OrNull(f, KeyRead(f, n))
    case LoadProp(n, p) => OrRaise(w, f, if Find(f, n).None? then n else p, PropOf(w, Find(f, n), p))
    case TryLoadProp(n, p) => OrNull(f, PropOf(w, Find(f, n), p))
    case CallLoad(n) => OrRaise(w, f, n, Find(f, n))
    case VariablesKey(n) => OrNull(f, if Fold(n) in f.outer then Some(f.outer[Fold(n)]) else None)
    case SetLast(n) => Next(f.(last := Find(f, n)))
    case JumpIfArg(n, t) => if Fold(n) in f.locals then Goto(f, t) else Next(f)
  }

  /** Built-in functions that read and write the calling frame's variables by computed names. */
  const REFLECTIVE_BUILTINS: set<string> := {
    "evaluate", "precisionevaluate", "getvariable", "setvariable", "structget", "iif", "de", "structdelete", "structclear"}

  /**
   Instructions that see and may change every local by name: a closure captures the frame, an
   included template shares it, so do the reflective functions, and a write or a deletion
   through the `local` scope goes through a view of all of it.
   */
  predicate Reaches(op: Op, f: Frame) {
    match op
    case DefineFunction => true
    case Include => true
    case DeleteScopeKey(n) => Fold(n) == "local"
    case Load(n) => Fold(n) in REFLECTIVE_BUILTINS
    case TryLoad(n) => Fold(n) in REFLECTIVE_BUILTINS
    case Take(n) => Fold(n) in REFLECTIVE_BUILTINS
    case CallLoad(n) => Fold(n) in REFLECTIVE_BUILTINS
    case SetScopePath(path) => path != [] && Fold(path[0]) == "local"
    case SetDynamicVar => |f.stack| >= 2 && Fold(PathRoot(Top(Under(f.stack)))) == "local"
    case _ => false
  }

  function Exec(w: World, op: Op, f: Frame): Conf {
    Plainly(w, op, if Reaches(op, f) then f.(locals := w.reach(op, f.locals, Top(f.stack))) else f)
  }

  function Plainly(w: World, op: Op, f: Frame): Conf {
    if StackOnly(op) then ExecStack(w, op, f)
    else if ByPath(op) then ExecPath(w, op, f)
    else if Writes(op) then ExecWrite(w, op, f)
    else ExecRead(w, op, f)
  }

  function Step1(w: World, code: seq<Op>, c: Conf): Conf {
    if c.Halted? then c
    else if c.f.pc >= |code| then Halted(Values.Val(Ast.Null), c.f.outer)
    else Exec(w, code[c.f.pc], c.f)
  }

  function RunN(w: World, code: seq<Op>, n: nat, c: Conf): Conf {
    if n == 0 then c else Step1(w, code, RunN(w, code, n - 1, c))
  }

  // ---- Meaning with slots ----

  /** A frame whose `locals` hold only what is not in a filled slot. */
  datatype SFrame = SFrame(f: Frame, slots: seq<Option<Value>>, blocked: set<nat>)

  datatype SConf = SRunning(s: SFrame) | SHalted(result: Values.Res, outer: Vars)

  function Lift(s: SFrame, c: Conf): SConf {
    match c case Running(f) => SRunning(s.(f := f)) case Halted(r, outer) => SHalted(r, outer)
  }

  /** The slot's value takes part instead of a looked-up one. */
  function Filled1(w: World, i: nat, op: Op, s: SFrame, v: Value): SConf
    requires i < |s.slots|
  {
    var f := s.f;
    match op
    case Load(_) => Lift(s, Push(f, v))
    case TryLoad(_) => Lift(s, Push(f, v))
    case LoadKey(_) => Lift(s, Push(f, v))
    case TryLoadKey(_) => Lift(s, Push(f, v))
    case LoadProp(_, p) => Lift(s, OrRaise(w, f, p, w.prop(v, p)))
    case TryLoadProp(_, p) => Lift(s, OrNull(f, w.prop(v, p)))
    case StoreProp(_, _) => if f.stack == [] then Lift(s, Next(f)) else ChangeSlot(w, i, op, s, v)
    case Append(_) => ChangeSlot(w, i, op, s, v)
    case Take(_) =>
      if Simple(f.stack) && v.Str? then Lift(s.(slots := s.slots[i := Some(Ast.Null)]), Push(f, v)) else Lift(s, Push(f, v))
    case Store(_) =>
      if f.stack == [] then Lift(s, Next(f))
      else SRunning(s.(f := f.(pc := f.pc + 1, stack := Under(f.stack)), slots := s.slots[i := Some(Top(f.stack))]))
    case Step(_, _) => StepSlot(w, i, op, s, v)
    case Mul(_, _) => StepSlot(w, i, op, s, v)
    case JumpCmp(_, k, cmp, t) => Lift(s, if CmpHolds(w, cmp, Some(v), k) then Next(f) else Goto(f, t))
    case LoopStep(_, k, cmp, amount, t) =>
      var x := Values.FusedStep(w.base, Some(v), amount);
      Lift(s.(slots := s.slots[i := Some(x)]), if CmpHolds(w, cmp, Some(x), k) then Goto(f, t) else Next(f))
    case _ => Lift(s, Exec(w, op, f))
  }

  function StepSlot(w: World, i: nat, op: Op, s: SFrame, v: Value): SConf
    requires i < |s.slots| && (op.Step? || op.Mul?)
  {
    match StepOf(w, op, v)
    case Val(x) => Lift(s.(slots := s.slots[i := Some(x)]), Next(s.f))
    case Exc(x) => Lift(s, Raise(s.f, x))
  }

  function ChangeSlot(w: World, i: nat, op: Op, s: SFrame, v: Value): SConf
    requires i < |s.slots| && (op.StoreProp? || op.Append?)
  {
    var f := s.f.(stack := Under(s.f.stack));
    match ChangeOf(w, op, Some(v), Top(s.f.stack))
    case Val(x) => Lift(s.(slots := s.slots[i := Some(x)]), Next(f))
    case Exc(x) => Lift(s, Raise(f, x))
  }

  /** An empty slot: a store may fill it, everything else is the by-name instruction. */
  function Empty1(w: World, i: nat, op: Op, s: SFrame): SConf
    requires i < |s.slots|
  {
    var f := s.f;
    if op.Store? && i !in s.blocked && Fold(op.n) in f.declared then
      if Fold(op.n) in f.locals then Lift(s.(blocked := s.blocked + {i}), Exec(w, op, f))
      else if f.stack == [] then Lift(s, Next(f))
      else SRunning(s.(f := f.(pc := f.pc + 1, stack := Under(f.stack)), slots := s.slots[i := Some(Top(f.stack))]))
    else Lift(s, Exec(w, op, f))
  }

  function FindSlot(names: seq<string>, n: string): (r: Option<nat>)
    ensures r.Some? ==> r.value < |names| && SameName(names[r.value], n)
    ensures r.None? ==> forall i :: 0 <= i < |names| ==> !SameName(names[i], n)
  {
    if names == [] then None
    else if SameName(names[|names| - 1], n) then Some(|names| - 1)
    else FindSlot(names[..|names| - 1], n)
  }

  /** The slot that an `UnsetPath` empties. */
  function Cleared(names: seq<string>, op: Op): Option<nat> {
    if op.Unset? && UnsetTarget(op.path).Some? then FindSlot(names, UnsetTarget(op.path).value) else None
  }

  function ExecS(w: World, names: seq<string>, c: Code, s: SFrame): SConf {
    match c
    case Slotted(i, op) =>
      if i >= |s.slots| then Lift(s, Exec(w, op, s.f))
      else if s.slots[i].Some? then Filled1(w, i, op, s, s.slots[i].value)
      else Empty1(w, i, op, s)
    case Named(op) =>
      var s' := match Cleared(names, op)
                case Some(i) => if i < |s.slots| then s.(slots := s.slots[i := None]) else s
                case None => s;
      Lift(s', Exec(w, op, s.f))
  }

  function Step1S(w: World, names: seq<string>, code: seq<Code>, c: SConf): SConf {
    if c.SHalted? then c
    else if c.s.f.pc >= |code| then SHalted(Values.Val(Ast.Null), c.s.f.outer)
    else ExecS(w, names, code[c.s.f.pc], c.s)
  }

  function RunNS(w: World, names: seq<string>, code: seq<Code>, n: nat, c: SConf): SConf {
    if n == 0 then c else Step1S(w, names, code, RunNS(w, names, code, n - 1, c))
  }
}
