/**
 The slot pass preserves meaning, and exactly when: while no step departs, the frame of
 the rewritten body, with its filled slots read as locals, is the frame of the original.
 */
module SlotLockstep {
  import opened Names
  import opened Slots
  import opened SlotPass
  import Ast
  import Values

  // ---- Slots read as locals ----

  function SlotVars(names: seq<string>, slots: seq<Option<Value>>): Vars
    requires |names| == |slots|
  {
    if names == [] then map[]
    else
      var n := |names| - 1;
      var front := SlotVars(names[..n], slots[..n]);
      match slots[n] case Some(v) => front[Fold(names[n]) := v] case None => front
  }

  lemma {:induction false} SlotVarsAt(names: seq<string>, slots: seq<Option<Value>>, i: nat)
    requires |names| == |slots| && DistinctNames(names) && i < |names|
    ensures var m := SlotVars(names, slots);
            if slots[i].Some? then Fold(names[i]) in m && m[Fold(names[i])] == slots[i].value else Fold(names[i]) !in m
    decreases |names|
  {
    hide Fold;
    var n := |names| - 1;
    assert DistinctNames(names[..n]);
    if i == n {
      SlotVarsOther(names[..n], slots[..n], names[n]);
    } else {
      SlotVarsAt(names[..n], slots[..n], i);
      assert !SameName(names[i], names[n]);
    }
  }

  lemma {:induction false} SlotVarsOther(names: seq<string>, slots: seq<Option<Value>>, key: string)
    requires |names| == |slots| && forall i :: 0 <= i < |names| ==> Fold(names[i]) != Fold(key)
    ensures Fold(key) !in SlotVars(names, slots)
    decreases |names|
  {
    hide Fold;
    if names != [] {
      SlotVarsOther(names[..|names| - 1], slots[..|names| - 1], key);
    }
  }

  /** Every key in the slots belongs to a filled one. */
  lemma {:induction false} SlotVarsKey(names: seq<string>, slots: seq<Option<Value>>, k: string) returns (i: nat)
    requires |names| == |slots| && k in SlotVars(names, slots)
    ensures i < |names| && Fold(names[i]) == k && slots[i].Some?
    decreases |names|
  {
    hide Fold;
    var n := |names| - 1;
    if slots[n].Some? && Fold(names[n]) == k {
      i := n;
    } else {
      i := SlotVarsKey(names[..n], slots[..n], k);
    }
  }

  lemma {:induction false} SlotVarsSet(names: seq<string>, slots: seq<Option<Value>>, i: nat, v: Value)
    requires |names| == |slots| && DistinctNames(names) && i < |names|
    ensures SlotVars(names, slots[i := Some(v)]) == SlotVars(names, slots)[Fold(names[i]) := v]
    decreases |names|
  {
    hide Fold;
    var n := |names| - 1;
    assert DistinctNames(names[..n]);
    if i == n {
      assert slots[i := Some(v)][..n] == slots[..n];
    } else {
      assert slots[i := Some(v)][..n] == slots[..n][i := Some(v)];
      SlotVarsSet(names[..n], slots[..n], i, v);
      assert !SameName(names[i], names[n]);
    }
  }

  lemma {:induction false} SlotVarsClear(names: seq<string>, slots: seq<Option<Value>>, i: nat)
    requires |names| == |slots| && DistinctNames(names) && i < |names|
    ensures SlotVars(names, slots[i := None]) == SlotVars(names, slots) - {Fold(names[i])}
    decreases |names|
  {
    hide Fold;
    var n := |names| - 1;
    assert DistinctNames(names[..n]);
    if i == n {
      assert slots[i := None][..n] == slots[..n];
      SlotVarsOther(names[..n], slots[..n], names[n]);
    } else {
      assert slots[i := None][..n] == slots[..n][i := None];
      SlotVarsClear(names[..n], slots[..n], i);
      assert !SameName(names[i], names[n]);
    }
  }

  /** The frame with more locals. */
  function With(f: Frame, m: Vars): Frame { f.(locals := Merged(f.locals, m)) }

  function Merged(a: Vars, b: Vars): Vars { a + b }

  function WithC(c: Conf, m: Vars): Conf {
    match c case Running(f) => Running(With(f, m)) case Halted(_, _) => c
  }

  function View(names: seq<string>, s: SFrame): Frame
    requires |names| == |s.slots|
  {
    With(s.f, SlotVars(names, s.slots))
  }

  /** A filled slot's name is a declared local of this frame that is nowhere else in it. */
  predicate SlotsOk(names: seq<string>, s: SFrame) {
    && |names| == |s.slots|
    && forall i :: 0 <= i < |names| && s.slots[i].Some? ==>
         SlotOnly(s.f, Fold(names[i]))
  }

  // ---- Instructions that do not touch the slots' names ----

  /** The locals an `UnsetPath` reaches. */
  function UnsetNames(path: seq<string>): set<string> {
    if UnsetTarget(path).Some? then {Fold(UnsetTarget(path).value)}
    else if DeepLocal(path) then {Fold(path[1])}
    else {}
  }

  /** The locals an instruction may read or write by name. */
  function Touched(op: Op, f: Frame): set<string> {
    match op
    case IsDefined(path) => PathNames(path)
    case WriteBack(path) => PathNames(path)
    case SetScopePath(path) => if path == [] then {} else RootName(Fold(path[0]))
    case Unset(path) => UnsetNames(path)
    case SetDynamicVar => if |f.stack| < 2 then {} else RootName(Fold(PathRoot(Top(Under(f.stack)))))
    case Declare(_) => {}
    case DeleteScopeKey(_) => {}
    case DefineFunction => {}
    case Include => {}
    case Const(_) => {}
    case Pop => {}
    case Swap => {}
    case Binary(_) => {}
    case Jump(_) => {}
    case JumpIfFalse(_) => {}
    case Ret => {}
    case _ => {Fold(op.n)}
  }

  lemma {:induction false} FindWith(f: Frame, m: Vars, n: string)
    requires Fold(n) !in m
    ensures Find(With(f, m), n) == Find(f, n) && KeyRead(With(f, m), n) == KeyRead(f, n)
    ensures Fold(n) in With(f, m).locals <==> Fold(n) in f.locals
  {
    hide Fold;
  }

  lemma {:induction false} KeepWith(f: Frame, m: Vars, n: string, v: Value)
    requires Fold(n) !in m
    ensures Keep(With(f, m), n, v) == With(Keep(f, n, v), m)
  {
    hide Fold;
    assert (f.locals + m)[Fold(n) := v] == f.locals[Fold(n) := v] + m;
  }

  lemma {:induction false} AlterWith(f: Frame, m: Vars, n: string, v: Value)
    requires Fold(n) !in m
    ensures Alter(With(f, m), n, v) == With(Alter(f, n, v), m)
  {
    hide Fold;
    KeepWith(f, m, n, v);
    assert (f.locals + m)[Fold(n) := v] == f.locals[Fold(n) := v] + m;
  }

  lemma {:induction false} ForgetWith(w: World, f: Frame, m: Vars, path: seq<string>)
    requires UnsetNames(path) !! m.Keys
    ensures Forget(w, With(f, m), path) == With(Forget(w, f, path), m)
  {
    hide Fold;
    if UnsetTarget(path).Some? {
      assert Fold(UnsetTarget(path).value) in UnsetNames(path);
      UnsetWith(f.locals, m, UnsetTarget(path).value);
    } else if DeepLocal(path) {
      assert Fold(path[1]) in UnsetNames(path);
      if Fold(path[1]) in f.locals {
        var v := w.dropped(f.locals[Fold(path[1])], path);
        assert (f.locals + m)[Fold(path[1]) := v] == f.locals[Fold(path[1]) := v] + m;
      }
    }
  }

  lemma {:induction false} NestedWith(w: World, f: Frame, m: Vars, root: string, v: Value)
    requires RootName(Fold(root)) !! m.Keys
    ensures NestedWrite(w, With(f, m), root, v) == With(NestedWrite(w, f, root, v), m)
  {
    hide Fold;
    if !(root == "" || Fold(root) in SCOPE_NAMES) {
      assert Fold(root) in RootName(Fold(root));
      FindWith(f, m, root);
      KeepWith(f, m, root, w.nested(Find(f, root), v));
    }
  }

  lemma {:induction false} ReadOps(w: World, op: Op, f: Frame, m: Vars)
    requires !StackOnly(op) && !ByPath(op) && !Writes(op) && Fold(op.n) !in m
    ensures ExecRead(w, op, With(f, m)) == WithC(ExecRead(w, op, f), m)
  {
    hide Merged, Fold, Find, KeyRead, CmpHolds;
    FindWith(f, m, op.n);
  }

  lemma {:induction false} StepWith(w: World, op: Op, f: Frame, m: Vars)
    requires (op.Step? || op.Mul?) && Fold(op.n) !in m
    ensures ExecWrite(w, op, With(f, m)) == WithC(ExecWrite(w, op, f), m)
  {
    hide Merged, Fold, Find, Keep, StepOf;
    FindWith(f, m, op.n);
    if Find(f, op.n).Some? {
      var r := StepOf(w, op, Find(f, op.n).value);
      if r.Val? {
        KeepWith(f, m, op.n, r.v);
      }
    }
  }

  lemma {:induction false} WriteOps(w: World, op: Op, f: Frame, m: Vars)
    requires Writes(op) && Fold(op.n) !in m
    ensures ExecWrite(w, op, With(f, m)) == WithC(ExecWrite(w, op, f), m)
  {
    hide Merged, Fold, ExecWrite;
    if op.Step? || op.Mul? {
      StepWith(w, op, f, m);
    } else if op.LoopStep? {
      LoopStepWith(w, op, f, m);
    } else if op.StoreProp? || op.Append? {
      ChangeWith(w, op, f, m);
    } else if op.Take? {
      TakeWith(w, op.n, f, m);
    } else {
      StoreWith(w, op, f, m);
    }
  }

  lemma {:induction false} StoreWith(w: World, op: Op, f: Frame, m: Vars)
    requires Writes(op) && Fold(op.n) !in m
    requires !op.Step? && !op.Mul? && !op.LoopStep? && !op.StoreProp? && !op.Append? && !op.Take?
    ensures ExecWrite(w, op, With(f, m)) == WithC(ExecWrite(w, op, f), m)
  {
    hide Merged, Fold, Find, Keep;
    if f.stack != [] {
      KeepWith(f.(stack := Under(f.stack)), m, op.n, Top(f.stack));
    }
  }

  lemma {:induction false} LoopStepWith(w: World, op: Op, f: Frame, m: Vars)
    requires op.LoopStep? && Fold(op.n) !in m
    ensures ExecWrite(w, op, With(f, m)) == WithC(ExecWrite(w, op, f), m)
  {
    hide Merged, Fold, Find, Keep;
    FindWith(f, m, op.n);
    KeepWith(f, m, op.n, Values.FusedStep(w.base, Find(f, op.n), op.amount));
  }

  lemma {:induction false} ChangeWith(w: World, op: Op, f: Frame, m: Vars)
    requires (op.StoreProp? || op.Append?) && Fold(op.n) !in m
    ensures ExecWrite(w, op, With(f, m)) == WithC(ExecWrite(w, op, f), m)
  {
    hide Merged, Fold, Find, Alter, ChangeOf, Top, Under;
    FindWith(f, m, op.n);
    var r := ChangeOf(w, op, Find(f, op.n), Top(f.stack));
    if r.Val? {
      AlterWith(f.(stack := Under(f.stack)), m, op.n, r.v);
    }
  }

  lemma {:induction false} TakeWith(w: World, n: string, f: Frame, m: Vars)
    requires Fold(n) !in m
    ensures ExecWrite(w, Take(n), With(f, m)) == WithC(ExecWrite(w, Take(n), f), m)
  {
    hide Fold, Find, Simple, OrRaise, ExecWrite, Merged;
    FindWith(f, m, n);
    RaiseWith(w, f, m, n, Find(f, n));
    UnfoldTake(w, n, f);
    UnfoldTake(w, n, With(f, m));
    SetWith(f.locals, m, n);
  }

  lemma {:induction false} SetWith(a: Vars, m: Vars, n: string)
    requires Fold(n) !in m
    ensures IsString(Merged(a, m), n) == IsString(a, n)
    ensures Fold(n) in a ==> Merged(a, m)[Fold(n)] == a[Fold(n)]
    ensures Merged(a[Fold(n) := Ast.Null], m) == Merged(a, m)[Fold(n) := Ast.Null]
  {
    hide Fold;
  }

  lemma {:induction false} UnfoldTake(w: World, n: string, f: Frame)
    ensures ExecWrite(w, Take(n), f) ==
            if Simple(f.stack) && IsString(f.locals, n) then
              Push(f.(locals := f.locals[Fold(n) := Ast.Null]), f.locals[Fold(n)])
            else if Simple(f.stack) && w.direct && IsString(f.outer, n) then
              Push(f.(outer := f.outer[Fold(n) := Ast.Null]), f.outer[Fold(n)])
            else OrRaise(w, f, n, Find(f, n))
  {
  }

  lemma {:induction false} RaiseWith(w: World, f: Frame, m: Vars, n: string, v: Option<Value>)
    ensures OrRaise(w, With(f, m), n, v) == WithC(OrRaise(w, f, n, v), m)
  {
    hide Fold;
  }

  lemma {:induction false} UnsetWith(a: Vars, m: Vars, n: string)
    requires Fold(n) !in m
    ensures Merged(a, m) - {Fold(n)} == Merged(a - {Fold(n)}, m)
  {
    hide Fold;
  }

  lemma {:induction false} WriteBackWith(w: World, op: Op, f: Frame, m: Vars)
    requires op.WriteBack? && Touched(op, f) !! m.Keys
    ensures ExecPath(w, op, With(f, m)) == WithC(ExecPath(w, op, f), m)
  {
    hide Merged, Fold, Find, Keep, Top, Target;
    if Target(op.path).Some? {
      TargetNamed(op.path);
      KeepWith(f, m, Target(op.path).value, w.method_(Top(f.stack)));
    }
  }

  lemma {:induction false} NestedOpsWith(w: World, op: Op, f: Frame, m: Vars)
    requires (op.SetScopePath? || op.SetDynamicVar?) && Touched(op, f) !! m.Keys
    ensures ExecPath(w, op, With(f, m)) == WithC(ExecPath(w, op, f), m)
  {
    hide Merged, Fold, Find, NestedWrite, RootName, PathRoot, Top, Under;
    if op.SetScopePath? {
      if f.stack != [] && op.path != [] {
        NestedWith(w, f.(stack := Under(f.stack)), m, op.path[0], Top(f.stack));
      }
    } else if |f.stack| >= 2 {
      NestedWith(w, f.(stack := Under(Under(f.stack))), m, PathRoot(Top(Under(f.stack))), Top(f.stack));
    }
  }

  lemma {:induction false} PathOps(w: World, op: Op, f: Frame, m: Vars)
    requires ByPath(op) && Touched(op, f) !! m.Keys
    ensures ExecPath(w, op, With(f, m)) == WithC(ExecPath(w, op, f), m)
  {
    hide Merged, Fold, Defined;
    if op.IsDefined? {
      DefinedWith(f, m, op.path);
    } else if op.Unset? {
      ForgetWith(w, f, m, op.path);
    } else {
      hide ExecPath;
      if op.WriteBack? {
        WriteBackWith(w, op, f, m);
      } else {
        NestedOpsWith(w, op, f, m);
      }
    }
  }

  lemma {:induction false} TargetNamed(path: seq<string>)
    ensures Target(path).Some? ==> Fold(Target(path).value) in PathNames(path)
  {
  }

  lemma {:induction false} DefinedWith(f: Frame, m: Vars, path: seq<string>)
    requires PathNames(path) !! m.Keys
    ensures Defined(With(f, m), path) == Defined(f, path)
  {
    hide Merged, Fold, Find, KeyRead;
    if path != [] {
      assert Fold(path[0]) in PathNames(path);
      FindWith(f, m, path[0]);
      if Fold(path[0]) == "local" && |path| > 1 {
        assert Fold(path[1]) in PathNames(path);
        FindWith(f, m, path[1]);
      }
    }
  }

  lemma {:induction false} StackOps(w: World, op: Op, f: Frame, m: Vars)
    requires StackOnly(op)
    ensures ExecStack(w, op, With(f, m)) == WithC(ExecStack(w, op, f), m)
  {
    hide Merged, Fold, Top, Under, Values.Apply, Values.TruthOf;
  }

  /** An instruction that touches none of `m` does the same with `m` among the locals. */
  lemma {:induction false} Framed(w: World, op: Op, f: Frame, m: Vars)
    requires Touched(op, f) !! m.Keys && !Reaches(op, f)
    ensures Exec(w, op, With(f, m)) == WithC(Exec(w, op, f), m)
  {
    hide Merged, Fold, ExecRead, ExecWrite, ExecPath, ExecStack;
    if StackOnly(op) {
      StackOps(w, op, f, m);
    } else if ByPath(op) {
      PathOps(w, op, f, m);
    } else {
      assert Fold(op.n) in Touched(op, f);
      if Writes(op) {
        WriteOps(w, op, f, m);
      } else {
        ReadOps(w, op, f, m);
      }
    }
  }

  // ---- By-name execution keeps what the slots rely on ----

  predicate SlotOnly(f: Frame, k: string) { k !in f.locals && k in f.declared && k !in f.inherited }

  lemma {:induction false} KeepKeeps(f: Frame, n: string, v: Value, k: string)
    requires SlotOnly(f, k) && k != Fold(n)
    ensures SlotOnly(Keep(f, n, v), k)
  {
    hide Fold;
  }

  lemma {:induction false} AlterKeeps(f: Frame, n: string, v: Value, k: string)
    requires SlotOnly(f, k) && k != Fold(n)
    ensures SlotOnly(Alter(f, n, v), k)
  {
    hide Fold;
  }

  lemma {:induction false} ForgetKeeps(w: World, f: Frame, path: seq<string>, k: string)
    requires SlotOnly(f, k)
    ensures SlotOnly(Forget(w, f, path), k)
  {
    hide Fold;
  }

  lemma {:induction false} WriteKeeps(w: World, op: Op, f: Frame, k: string)
    requires Writes(op) && SlotOnly(f, k) && k != Fold(op.n)
    ensures var c := ExecWrite(w, op, f); c.Running? ==> SlotOnly(c.f, k)
  {
    hide Fold, Find, Keep, Alter, StepOf, ChangeOf, Top, Under;
    if op.Step? || op.Mul? {
      if Find(f, op.n).Some? {
        var r := StepOf(w, op, Find(f, op.n).value);
        if r.Val? {
          KeepKeeps(f, op.n, r.v, k);
        }
      }
    } else if op.LoopStep? {
      KeepKeeps(f, op.n, Values.FusedStep(w.base, Find(f, op.n), op.amount), k);
    } else if op.StoreProp? || op.Append? {
      var r := ChangeOf(w, op, Find(f, op.n), Top(f.stack));
      if r.Val? {
        AlterKeeps(f.(stack := Under(f.stack)), op.n, r.v, k);
      }
    } else if !op.Take? && f.stack != [] {
      KeepKeeps(f.(stack := Under(f.stack)), op.n, Top(f.stack), k);
    }
  }

  lemma {:induction false} PathKeeps(w: World, op: Op, f: Frame, k: string)
    requires ByPath(op) && SlotOnly(f, k) && k !in Touched(op, f)
    ensures var c := ExecPath(w, op, f); c.Running? ==> SlotOnly(c.f, k)
  {
    hide Fold, Find, KeyRead, Keep, NestedWrite, RootName, PathRoot;
    match op {
      case IsDefined(path) =>
      case Unset(path) => ForgetKeeps(w, f, path, k);
      case WriteBack(path) =>
        if Target(path).Some? {
          assert Fold(Target(path).value) in PathNames(path);
          KeepKeeps(f, Target(path).value, w.method_(Top(f.stack)), k);
        }
      case SetScopePath(path) =>
        if f.stack != [] && path != [] {
          NestedKeeps(w, f.(stack := Under(f.stack)), path[0], Top(f.stack), k);
        }
      case SetDynamicVar =>
        if |f.stack| >= 2 {
          NestedKeeps(w, f.(stack := Under(Under(f.stack))), PathRoot(Top(Under(f.stack))), Top(f.stack), k);
        }
    }
  }

  lemma {:induction false} StackKeeps(w: World, op: Op, f: Frame, k: string)
    requires StackOnly(op) && SlotOnly(f, k)
    ensures var c := ExecStack(w, op, f); c.Running? ==> SlotOnly(c.f, k)
  {
    hide Fold;
  }

  lemma {:induction false} ReadKeeps(w: World, op: Op, f: Frame, k: string)
    requires !StackOnly(op) && !ByPath(op) && !Writes(op) && SlotOnly(f, k)
    ensures var c := ExecRead(w, op, f); c.Running? ==> SlotOnly(c.f, k)
  {
    hide Fold, Find, KeyRead, CmpHolds;
  }

  lemma {:induction false} ExecKeeps(w: World, op: Op, f: Frame, k: string)
    requires SlotOnly(f, k) && k !in Touched(op, f) && !Reaches(op, f)
    ensures var c := Exec(w, op, f); c.Running? ==> SlotOnly(c.f, k)
  {
    hide Fold, ExecRead, ExecWrite, ExecPath, ExecStack;
    if StackOnly(op) {
      StackKeeps(w, op, f, k);
    } else if ByPath(op) {
      PathKeeps(w, op, f, k);
    } else if Writes(op) {
      assert Fold(op.n) in Touched(op, f);
      WriteKeeps(w, op, f, k);
    } else {
      ReadKeeps(w, op, f, k);
    }
  }

  lemma {:induction false} NestedKeeps(w: World, f: Frame, root: string, v: Value, k: string)
    requires SlotOnly(f, k) && k !in RootName(Fold(root))
    ensures SlotOnly(NestedWrite(w, f, root, v), k)
  {
    hide Fold, Find;
  }

  predicate SameScope(c: Conf, f: Frame) {
    c.Running? ==> c.f.declared == f.declared && c.f.inherited == f.inherited
  }

  lemma {:induction false} StackSame(w: World, op: Op, f: Frame)
    requires StackOnly(op) && !op.Declare?
    ensures SameScope(ExecStack(w, op, f), f)
  {
    hide Top, Under;
  }

  lemma {:induction false} PathSame(w: World, op: Op, f: Frame)
    requires ByPath(op) && !op.Unset?
    ensures SameScope(ExecPath(w, op, f), f)
  {
    hide Fold, Find, Top, Under, Defined, Target, PathRoot;
  }

  lemma {:induction false} WriteSame(w: World, op: Op, f: Frame)
    requires Writes(op)
    ensures SameScope(ExecWrite(w, op, f), f)
  {
    hide Fold, Find, Top, Under, StepOf;
  }

  lemma {:induction false} ReadSame(w: World, op: Op, f: Frame)
    requires !StackOnly(op) && !ByPath(op) && !Writes(op)
    ensures SameScope(ExecRead(w, op, f), f)
  {
    hide Fold, Find, KeyRead, CmpHolds;
  }

  /** The frame an instruction works on. */
  function Seen(w: World, op: Op, f: Frame): Frame {
    if Reaches(op, f) then f.(locals := w.reach(op, f.locals, Top(f.stack))) else f
  }

  lemma {:induction false} SameDeclared(w: World, op: Op, f: Frame)
    requires !op.Declare? && !op.Unset?
    ensures SameScope(Exec(w, op, f), f)
  {
    hide ExecStack, ExecPath, ExecWrite, ExecRead, Reaches;
    var g := Seen(w, op, f);
    if StackOnly(op) {
      StackSame(w, op, g);
    } else if ByPath(op) {
      PathSame(w, op, g);
    } else if Writes(op) {
      WriteSame(w, op, g);
    } else {
      ReadSame(w, op, g);
    }
  }

  /** A declared name is not an inherited one. */
  predicate Apart(f: Frame) { f.declared !! f.inherited }

  lemma {:induction false} StaysApart(w: World, op: Op, f: Frame)
    requires Apart(f)
    ensures var c := Exec(w, op, f); c.Running? ==> Apart(c.f)
  {
    hide Fold;
    if !op.Declare? && !op.Unset? {
      hide Exec;
      SameDeclared(w, op, f);
    }
  }

  // ---- One step ----

  function ViewC(names: seq<string>, c: SConf): Conf {
    match c
    case SRunning(s) => Running(if |names| == |s.slots| then View(names, s) else s.f)
    case SHalted(r, outer) => Halted(r, outer)
  }

  predicate GoodC(names: seq<string>, c: SConf) {
    c.SRunning? ==> SlotsOk(names, c.s) && Apart(c.s.f)
  }

  lemma {:induction false} UntouchedSlots(names: seq<string>, s: SFrame, touched: set<string>)
    requires SlotsOk(names, s)
    requires forall i :: 0 <= i < |names| && s.slots[i].Some? ==> Fold(names[i]) !in touched
    ensures touched !! SlotVars(names, s.slots).Keys
  {
    hide Fold;
    forall k | k in SlotVars(names, s.slots)
      ensures k !in touched
    {
      var i := SlotVarsKey(names, s.slots, k);
    }
  }

  /** Without slots the two forms are the same. */
  lemma {:induction false} NoSlotsAgree(w: World, op: Op, s: SFrame)
    requires SlotsOk([], s) && Apart(s.f)
    ensures var c := ExecS(w, [], Named(op), s); ViewC([], c) == Exec(w, op, View([], s)) && GoodC([], c)
  {
    hide Exec;
    StaysApart(w, op, s.f);
    assert SlotVars([], s.slots) == map[] && forall a: Vars :: a + map[] == a;
  }

  /** An instruction run by name that touches no filled slot. */
  lemma {:induction false} NamedAgrees(w: World, names: seq<string>, op: Op, s: SFrame, blocked: set<nat>)
    requires SlotsOk(names, s) && Apart(s.f) && !Reaches(op, s.f)
    requires forall i :: 0 <= i < |names| && s.slots[i].Some? ==> Fold(names[i]) !in Touched(op, s.f)
    ensures var c := Lift(s.(blocked := blocked), Exec(w, op, s.f));
            ViewC(names, c) == Exec(w, op, View(names, s)) && GoodC(names, c)
  {
    hide Fold, Exec, Touched, Merged, SlotVars, SlotOnly;
    UntouchedSlots(names, s, Touched(op, s.f));
    Framed(w, op, s.f, SlotVars(names, s.slots));
    StaysApart(w, op, s.f);
    forall i | 0 <= i < |names| && s.slots[i].Some?
      ensures Exec(w, op, s.f).Running? ==> SlotOnly(Exec(w, op, s.f).f, Fold(names[i]))
    {
      ExecKeeps(w, op, s.f, Fold(names[i]));
    }
  }

  /** `UnsetPath` of a slotted name, bare or as `local.x`, empties the slot first. */
  lemma {:induction false} UnsetAgrees(w: World, names: seq<string>, path: seq<string>, i: nat, s: SFrame)
    requires SlotsOk(names, s) && Apart(s.f) && DistinctNames(names) && i < |names|
    requires UnsetTarget(path).Some? && SameName(names[i], UnsetTarget(path).value)
    ensures var c := Lift(s.(slots := s.slots[i := None]), Exec(w, Unset(path), s.f));
            ViewC(names, c) == Exec(w, Unset(path), View(names, s)) && GoodC(names, c)
  {
    hide Fold, SlotVars, Exec, Merged, UnsetTarget;
    SlotVarsClear(names, s.slots, i);
    var m := SlotVars(names, s.slots);
    var n := UnsetTarget(path).value;
    ExecUnset(w, path, s.f);
    ExecUnset(w, path, View(names, s));
    ClearedWith(s.f.locals, m, Fold(n));
    var g := Dropped(s.f, path, Fold(n));
    forall j | 0 <= j < |names| && s.slots[i := None][j].Some?
      ensures SlotOnly(g.(pc := g.pc + 1), Fold(names[j]))
    {
      assert SlotOnly(s.f, Fold(names[j]));
    }
  }

  /** The frame after the instruction has forgotten a name. */
  function Dropped(f: Frame, path: seq<string>, k: string): Frame {
    f.(locals := f.locals - {k}, inherited := f.inherited - {k}, outer := if |path| == 1 then f.outer - {k} else f.outer)
  }

  lemma {:induction false} ExecUnset(w: World, path: seq<string>, f: Frame)
    requires UnsetTarget(path).Some?
    ensures Exec(w, Unset(path), f) == Next(Dropped(f, path, Fold(UnsetTarget(path).value)))
  {
    hide Fold;
  }

  lemma {:induction false} ClearedWith(a: Vars, m: Vars, k: string)
    ensures Merged(a - {k}, m - {k}) == Merged(a, m) - {k}
  {
  }

  // ---- A filled slot ----

  lemma {:induction false} FilledFind(names: seq<string>, s: SFrame, i: nat, n: string)
    requires SlotsOk(names, s) && DistinctNames(names) && i < |names| && SameName(names[i], n) && s.slots[i].Some?
    ensures Find(View(names, s), n) == Some(s.slots[i].value)
    ensures KeyRead(View(names, s), n) == if "__" <= Fold(n) then None else Some(s.slots[i].value)
  {
    hide Fold, SlotVars;
    SlotVarsAt(names, s.slots, i);
    assert SlotOnly(s.f, Fold(names[i]));
  }

  lemma {:induction false} FilledKeep(names: seq<string>, s: SFrame, i: nat, n: string, v: Value)
    requires SlotsOk(names, s) && DistinctNames(names) && i < |names| && SameName(names[i], n) && s.slots[i].Some?
    ensures Keep(View(names, s), n, v) == View(names, s.(slots := s.slots[i := Some(v)]))
    ensures SlotsOk(names, s.(slots := s.slots[i := Some(v)]))
  {
    hide Fold, SlotVars;
    SlotVarsAt(names, s.slots, i);
    SlotVarsSet(names, s.slots, i, v);
    var m := SlotVars(names, s.slots);
    assert Merged(s.f.locals, m)[Fold(n) := v] == Merged(s.f.locals, m[Fold(n) := v]);
  }

  lemma {:induction false} FilledAlter(names: seq<string>, s: SFrame, i: nat, n: string, v: Value)
    requires SlotsOk(names, s) && DistinctNames(names) && i < |names| && SameName(names[i], n) && s.slots[i].Some?
    ensures Alter(View(names, s), n, v) == View(names, s.(slots := s.slots[i := Some(v)]))
    ensures Fold(n) in View(names, s).locals && View(names, s).locals[Fold(n)] == s.slots[i].value
    ensures SlotsOk(names, s.(slots := s.slots[i := Some(v)]))
  {
    hide Fold, SlotVars;
    SlotVarsAt(names, s.slots, i);
    SlotVarsSet(names, s.slots, i, v);
    var m := SlotVars(names, s.slots);
    assert Merged(s.f.locals, m)[Fold(n) := v] == Merged(s.f.locals, m[Fold(n) := v]);
  }

  lemma {:induction false} ViewMoves(names: seq<string>, s: SFrame, f: Frame)
    requires |names| == |s.slots| && f == s.f.(pc := f.pc, stack := f.stack)
    ensures View(names, s.(f := f)) == View(names, s).(pc := f.pc, stack := f.stack)
    ensures SlotsOk(names, s) ==> SlotsOk(names, s.(f := f))
  {
    hide Fold, SlotVars, Merged;
  }

  predicate ReadsSlot(op: Op) {
    op.Load? || op.TryLoad? || op.LoadProp? || op.TryLoadProp? || op.JumpCmp? || ((op.LoadKey? || op.TryLoadKey?) && !("__" <= Fold(op.n)))
  }

  /** What a read does with the value found. */
  function ReadOf(w: World, op: Op, f: Frame, v: Value): Conf
    requires ReadsSlot(op)
  {
    match op
    case JumpCmp(_, k, cmp, t) => if CmpHolds(w, cmp, Some(v), k) then Next(f) else Goto(f, t)
    case LoadProp(_, p) => OrRaise(w, f, p, w.prop(v, p))
    case TryLoadProp(_, p) => OrNull(f, w.prop(v, p))
    case _ => Push(f, v)
  }

  /** The value a read pushes, when it pushes one. */
  function PushedBy(w: World, op: Op, v: Value): Value {
    if (op.LoadProp? || op.TryLoadProp?) then (match w.prop(v, op.p) case Some(x) => x case None => Ast.Null) else v
  }

  lemma {:induction false} ReadFound(w: World, op: Op, f: Frame, v: Value)
    requires ReadsSlot(op) && Find(f, op.n) == Some(v) && !Reaches(op, f)
    requires op.LoadKey? || op.TryLoadKey? ==> KeyRead(f, op.n) == Some(v)
    ensures Exec(w, op, f) == ReadOf(w, op, f, v)
  {
    hide Fold, Find, KeyRead, CmpHolds;
  }

  lemma {:induction false} ReadSlot(w: World, i: nat, op: Op, s: SFrame)
    requires ReadsSlot(op) && i < |s.slots| && s.slots[i].Some?
    ensures Filled1(w, i, op, s, s.slots[i].value) == Lift(s, ReadOf(w, op, s.f, s.slots[i].value))
  {
    hide Fold, CmpHolds;
  }

  lemma {:induction false} FilledRead(w: World, names: seq<string>, i: nat, op: Op, s: SFrame)
    requires ReadsSlot(op) && !Reaches(op, s.f)
    requires SlotsOk(names, s) && Apart(s.f) && DistinctNames(names) && i < |names| && SameName(names[i], op.n) && s.slots[i].Some?
    ensures var c := Filled1(w, i, op, s, s.slots[i].value);
            ViewC(names, c) == Exec(w, op, View(names, s)) && GoodC(names, c)
  {
    hide Fold, Find, KeyRead, CmpHolds, View, SlotsOk, Exec, Filled1;
    Lengths(names, s);
    var v := s.slots[i].value;
    FilledFind(names, s, i, op.n);
    ReadFound(w, op, View(names, s), v);
    ReadSlot(w, i, op, s);
    ViewParts(names, s);
    var f1 := s.f.(pc := s.f.pc + 1, stack := s.f.stack + [PushedBy(w, op, v)]);
    ViewMoves(names, s, f1);
    ViewMoves(names, s, s.f.(pc := s.f.pc + 1));
    if op.JumpCmp? {
      ViewMoves(names, s, s.f.(pc := op.t));
    }
  }

  lemma {:induction false} Lengths(names: seq<string>, s: SFrame)
    requires SlotsOk(names, s)
    ensures |names| == |s.slots|
  {
  }

  lemma {:induction false} ViewParts(names: seq<string>, s: SFrame)
    requires |names| == |s.slots|
    ensures var v := View(names, s);
            && v.pc == s.f.pc && v.stack == s.f.stack && v.outer == s.f.outer && v.declared == s.f.declared
            && v.inherited == s.f.inherited && v.last == s.f.last
  {
  }

  lemma {:induction false} FilledStore(w: World, names: seq<string>, i: nat, op: Op, s: SFrame)
    requires op.Store?
    requires SlotsOk(names, s) && Apart(s.f) && DistinctNames(names) && i < |names| && SameName(names[i], op.n) && s.slots[i].Some?
    ensures var c := Filled1(w, i, op, s, s.slots[i].value);
            ViewC(names, c) == Exec(w, op, View(names, s)) && GoodC(names, c)
  {
    hide Fold, Find, View, SlotsOk, Keep;
    Lengths(names, s);
    ViewParts(names, s);
    if s.f.stack == [] {
      ViewMoves(names, s, s.f.(pc := s.f.pc + 1));
    } else {
      var s1 := s.(f := s.f.(stack := Under(s.f.stack)));
      var v := Top(s.f.stack);
      ViewMoves(names, s, s1.f);
      FilledKeep(names, s1, i, op.n, v);
      var s2 := s1.(slots := s1.slots[i := Some(v)]);
      ViewParts(names, s2);
      ViewMoves(names, s2, s2.f.(pc := s.f.pc + 1));
    }
  }

  lemma {:induction false} FilledStep(w: World, names: seq<string>, i: nat, op: Op, s: SFrame)
    requires op.Step? || op.Mul?
    requires SlotsOk(names, s) && Apart(s.f) && DistinctNames(names) && i < |names| && SameName(names[i], op.n) && s.slots[i].Some?
    ensures var c := Filled1(w, i, op, s, s.slots[i].value);
            ViewC(names, c) == Exec(w, op, View(names, s)) && GoodC(names, c)
  {
    hide Fold, Find, View, SlotsOk, Keep, StepOf;
    Lengths(names, s);
    ViewParts(names, s);
    FilledFind(names, s, i, op.n);
    var r := StepOf(w, op, s.slots[i].value);
    ViewMoves(names, s, s.f.(pc := s.f.pc + 1));
    if r.Val? {
      FilledKeep(names, s, i, op.n, r.v);
      var s1 := s.(slots := s.slots[i := Some(r.v)]);
      ViewParts(names, s1);
      ViewMoves(names, s1, s.f.(pc := s.f.pc + 1));
    }
  }

  lemma {:induction false} FilledLoop(w: World, names: seq<string>, i: nat, op: Op, s: SFrame)
    requires op.LoopStep?
    requires SlotsOk(names, s) && Apart(s.f) && DistinctNames(names) && i < |names| && SameName(names[i], op.n) && s.slots[i].Some?
    ensures var c := Filled1(w, i, op, s, s.slots[i].value);
            ViewC(names, c) == Exec(w, op, View(names, s)) && GoodC(names, c)
  {
    hide Fold, Find, View, SlotsOk, Keep;
    Lengths(names, s);
    ViewParts(names, s);
    FilledFind(names, s, i, op.n);
    var v := Values.FusedStep(w.base, Some(s.slots[i].value), op.amount);
    FilledKeep(names, s, i, op.n, v);
    var s1 := s.(slots := s.slots[i := Some(v)]);
    ViewParts(names, s1);
    ViewMoves(names, s1, s.f.(pc := s.f.pc + 1));
    ViewMoves(names, s1, s.f.(pc := op.t));
  }

  lemma {:induction false} FilledChange(w: World, names: seq<string>, i: nat, op: Op, s: SFrame)
    requires op.StoreProp? || op.Append?
    requires SlotsOk(names, s) && Apart(s.f) && DistinctNames(names) && i < |names| && SameName(names[i], op.n) && s.slots[i].Some?
    ensures var c := Filled1(w, i, op, s, s.slots[i].value);
            ViewC(names, c) == Exec(w, op, View(names, s)) && GoodC(names, c)
  {
    hide Fold, Find, View, SlotsOk, Alter, ChangeOf, Top, Under;
    Lengths(names, s);
    ViewParts(names, s);
    FilledFind(names, s, i, op.n);
    ViewMoves(names, s, s.f.(pc := s.f.pc + 1));
    var s1 := s.(f := s.f.(stack := Under(s.f.stack)));
    ViewMoves(names, s, s1.f);
    var r := ChangeOf(w, op, Some(s.slots[i].value), Top(s.f.stack));
    if r.Val? {
      FilledAlter(names, s1, i, op.n, r.v);
      var s2 := s1.(slots := s1.slots[i := Some(r.v)]);
      ViewParts(names, s2);
      ViewMoves(names, s2, s2.f.(pc := s.f.pc + 1));
    }
  }

  /** Where the by-name load of `x &= e` would take another variable's string. */
  predicate TakesElsewhere(w: World, n: string, f: Frame, v: Value) {
    Simple(f.stack) && w.direct && !v.Str? && IsString(f.outer, n)
  }

  lemma {:induction false} FilledTake(w: World, names: seq<string>, i: nat, n: string, s: SFrame)
    requires SlotsOk(names, s) && Apart(s.f) && DistinctNames(names) && i < |names| && SameName(names[i], n) && s.slots[i].Some?
    requires !Reaches(Take(n), s.f)
    ensures var c := Filled1(w, i, Take(n), s, s.slots[i].value);
            && GoodC(names, c)
            && (!TakesElsewhere(w, n, s.f, s.slots[i].value) ==> ViewC(names, c) == Exec(w, Take(n), View(names, s)))
            && (TakesElsewhere(w, n, s.f, s.slots[i].value) ==> ViewC(names, c) != Exec(w, Take(n), View(names, s)))
  {
    hide Fold, Find, View, SlotsOk, Alter, Simple;
    Lengths(names, s);
    ViewParts(names, s);
    var v := s.slots[i].value;
    FilledFind(names, s, i, n);
    FilledAlter(names, s, i, n, Ast.Null);
    TakeNull(View(names, s), n);
    var f1 := s.f.(pc := s.f.pc + 1, stack := s.f.stack + [v]);
    ViewMoves(names, s, f1);
    var s1 := s.(slots := s.slots[i := Some(Ast.Null)]);
    ViewParts(names, s1);
    ViewMoves(names, s1, f1);
  }

  lemma {:induction false} TakeNull(f: Frame, n: string)
    requires Fold(n) in f.locals
    ensures Alter(f, n, Ast.Null) == f.(locals := f.locals[Fold(n) := Ast.Null])
  {
    hide Fold;
  }

  /**
   The load of `x &= e` on a filled slot agrees with its by-name twin exactly when the latter
   does not take a string of the same name from the component's variables.
   */
  lemma {:induction false} TakeExact(w: World, names: seq<string>, i: nat, n: string, s: SFrame)
    requires SlotsOk(names, s) && Apart(s.f) && DistinctNames(names) && i < |names| && SameName(names[i], n) && s.slots[i].Some?
    requires !Reaches(Take(n), s.f)
    ensures ViewC(names, Filled1(w, i, Take(n), s, s.slots[i].value)) == Exec(w, Take(n), View(names, s))
            <==> !TakesElsewhere(w, n, s.f, s.slots[i].value)
  {
    hide Fold, View, SlotsOk, Exec, Filled1, TakesElsewhere;
    FilledTake(w, names, i, n, s);
  }

  /** Bridge keys and that load apart, an instruction on a filled slot does what its twin does on the local. */
  lemma {:induction false} FilledAgrees(w: World, names: seq<string>, i: nat, op: Op, s: SFrame)
    requires SlotsOk(names, s) && Apart(s.f) && DistinctNames(names) && i < |names| && s.slots[i].Some?
    requires HasTwin(op) && SameName(names[i], op.n) && (op.LoadKey? || op.TryLoadKey? ==> !("__" <= Fold(op.n)))
    requires op.Take? ==> !TakesElsewhere(w, op.n, s.f, s.slots[i].value)
    requires !Reaches(op, s.f)
    ensures var c := Filled1(w, i, op, s, s.slots[i].value);
            ViewC(names, c) == Exec(w, op, View(names, s)) && GoodC(names, c)
  {
    if op.Declare? {
      hide Exec, Fold, View, SlotsOk;
      NamedAgrees(w, names, op, s, s.blocked);
    } else {
      hide Exec, Filled1, Fold, View, SlotsOk, TakesElsewhere;
      if op.Store? {
        FilledStore(w, names, i, op, s);
      } else if op.Step? || op.Mul? {
        FilledStep(w, names, i, op, s);
      } else if op.LoopStep? {
        FilledLoop(w, names, i, op, s);
      } else if op.StoreProp? || op.Append? {
        FilledChange(w, names, i, op, s);
      } else if op.Take? {
        FilledTake(w, names, i, op.n, s);
      } else {
        FilledRead(w, names, i, op, s);
      }
    }
  }

  /**
   `local.x` on a filled slot agrees with the by-name read exactly when the name is no bridge key;
   the null-tolerant read moreover when the slot holds null.
   */
  lemma {:induction false} KeyReadExact(w: World, names: seq<string>, i: nat, n: string, s: SFrame)
    requires SlotsOk(names, s) && Apart(s.f) && DistinctNames(names) && i < |names| && SameName(names[i], n) && s.slots[i].Some?
    ensures var v := s.slots[i].value;
            && (ViewC(names, Filled1(w, i, LoadKey(n), s, v)) == Exec(w, LoadKey(n), View(names, s)) <==> !("__" <= Fold(n)))
            && (ViewC(names, Filled1(w, i, TryLoadKey(n), s, v)) == Exec(w, TryLoadKey(n), View(names, s))
                <==> !("__" <= Fold(n)) || v == Ast.Null)
            && GoodC(names, Filled1(w, i, LoadKey(n), s, v)) && GoodC(names, Filled1(w, i, TryLoadKey(n), s, v))
  {
    hide Fold, View, SlotsOk, KeyRead, Exec, Filled1;
    if !("__" <= Fold(n)) {
      FilledRead(w, names, i, LoadKey(n), s);
      FilledRead(w, names, i, TryLoadKey(n), s);
    } else {
      Lengths(names, s);
      var v := s.slots[i].value;
      KeyOps(w, n, View(names, s));
      KeyTwins(w, n, i, s, v);
      FilledFind(names, s, i, n);
      ViewParts(names, s);
      ViewMoves(names, s, s.f.(pc := s.f.pc + 1, stack := s.f.stack + [v]));
      var f := View(names, s);
      assert (f.stack + [v])[|f.stack|] == v && (f.stack + [Ast.Null])[|f.stack|] == Ast.Null;
    }
  }

  lemma {:induction false} KeyOps(w: World, n: string, f: Frame)
    ensures Exec(w, LoadKey(n), f) == OrRaise(w, f, n, KeyRead(f, n)) && Exec(w, TryLoadKey(n), f) == OrNull(f, KeyRead(f, n))
  {
    hide KeyRead;
  }

  lemma {:induction false} KeyTwins(w: World, n: string, i: nat, s: SFrame, v: Value)
    requires i < |s.slots|
    ensures Filled1(w, i, LoadKey(n), s, v) == Filled1(w, i, TryLoadKey(n), s, v) == Lift(s, Push(s.f, v))
  {
  }

  // ---- An empty slot ----

  lemma {:induction false} EmptyAgrees(w: World, names: seq<string>, i: nat, op: Op, s: SFrame)
    requires SlotsOk(names, s) && Apart(s.f) && DistinctNames(names) && i < |names| && s.slots[i].None?
    requires HasTwin(op) && SameName(names[i], op.n)
    requires !Reaches(op, s.f)
    ensures var c := Empty1(w, i, op, s);
            ViewC(names, c) == Exec(w, op, View(names, s)) && GoodC(names, c)
  {
    hide Exec, Fold, View;
    forall j | 0 <= j < |names| && s.slots[j].Some?
      ensures Fold(names[j]) !in Touched(op, s.f)
    {
      assert !SameName(names[if i < j then i else j], names[if i < j then j else i]);
      OnlyName(op, s.f);
    }
    if op.Store? && i !in s.blocked && Fold(op.n) in s.f.declared && Fold(op.n) !in s.f.locals && s.f.stack != [] {
      Activates(w, names, i, op, s);
    } else {
      NamedAgrees(w, names, op, s, s.blocked);
      NamedAgrees(w, names, op, s, s.blocked + {i});
      if op.Store? && s.f.stack == [] {
        StoreNothing(w, op, s.f);
      }
    }
  }

  lemma {:induction false} OnlyName(op: Op, f: Frame)
    requires HasTwin(op)
    ensures forall k :: k in Touched(op, f) ==> k == Fold(op.n)
  {
    hide Fold;
  }

  lemma {:induction false} StoreNothing(w: World, op: Op, f: Frame)
    requires op.Store? && f.stack == []
    ensures Exec(w, op, f) == Next(f)
  {
  }

  /** The first store after the declaration moves the variable into its slot. */
  lemma {:induction false} Activates(w: World, names: seq<string>, i: nat, op: Op, s: SFrame)
    requires SlotsOk(names, s) && Apart(s.f) && DistinctNames(names) && i < |names| && s.slots[i].None?
    requires op.Store? && SameName(names[i], op.n) && i !in s.blocked && s.f.stack != []
    requires Fold(op.n) in s.f.declared && Fold(op.n) !in s.f.locals
    ensures var c := Empty1(w, i, op, s);
            ViewC(names, c) == Exec(w, op, View(names, s)) && GoodC(names, c)
  {
    hide Fold, SlotVars;
    var v := Top(s.f.stack);
    SlotVarsSet(names, s.slots, i, v);
    var m := SlotVars(names, s.slots);
    assert Merged(s.f.locals, m)[Fold(op.n) := v] == Merged(s.f.locals, m[Fold(op.n) := v]);
    assert Fold(names[i]) !in s.f.inherited;
  }

  // ---- Dynamic writes ----

  function JumpTarget(op: Op): Option<nat> {
    match op
    case JumpCmp(_, _, _, t) => Some(t)
    case LoopStep(_, _, _, _, t) => Some(t)
    case JumpIfArg(_, t) => Some(t)
    case Jump(t) => Some(t)
    case JumpIfFalse(t) => Some(t)
    case _ => None
  }

  /** No jump lands between a literal path and the dynamic write it is for. */
  predicate Straight(code: seq<Op>) {
    forall i, j :: 2 <= i < |code| && code[i].SetDynamicVar? && 0 <= j < |code| ==>
                   JumpTarget(code[j]) != Some(i) && JumpTarget(code[j]) != Some(i - 1)
  }

  /** A piece of emitted code: one instruction, or a literal path with the dynamic write it is for. */
  datatype Piece = One(op: Op) | PathWrite(path: string)

  function PieceCode(p: Piece): (r: seq<Op>)
    ensures r != []
  {
    match p
    case One(op) => [op]
    case PathWrite(path) => [Const(Ast.Str(path)), Swap, SetDynamicVar]
  }

  function Assembled(ps: seq<Piece>): seq<Op> {
    if ps == [] then [] else Assembled(ps[..|ps| - 1]) + PieceCode(ps[|ps| - 1])
  }

  /** Where the pieces begin. */
  function PieceStarts(ps: seq<Piece>): set<nat> {
    if ps == [] then {} else PieceStarts(ps[..|ps| - 1]) + {|Assembled(ps[..|ps| - 1])|}
  }

  lemma {:induction false} InsideAPiece(ps: seq<Piece>, i: nat)
    requires i < |Assembled(ps)| && Assembled(ps)[i].SetDynamicVar?
    requires forall k :: 0 <= k < |ps| ==> ps[k].One? ==> !ps[k].op.SetDynamicVar?
    ensures i >= 2 && i !in PieceStarts(ps) && i - 1 !in PieceStarts(ps)
    ensures forall s :: s in PieceStarts(ps) ==> s < |Assembled(ps)|
    decreases |ps|
  {
    var front := ps[..|ps| - 1];
    var n := |Assembled(front)|;
    StartsBelow(front);
    if i < n {
      InsideAPiece(front, i);
    } else {
      assert Assembled(ps)[i] == PieceCode(ps[|ps| - 1])[i - n];
    }
  }

  lemma {:induction false} StartsBelow(ps: seq<Piece>)
    ensures forall s :: s in PieceStarts(ps) ==> s < |Assembled(ps)|
    decreases |ps|
  {
    if ps != [] {
      StartsBelow(ps[..|ps| - 1]);
    }
  }

  /** Code put together from whole pieces, with jumps to where pieces begin or past the end, is straight. */
  lemma {:induction false} AssembledIsStraight(ps: seq<Piece>)
    requires forall k :: 0 <= k < |ps| ==> ps[k].One? ==> !ps[k].op.SetDynamicVar?
    requires var code := Assembled(ps);
             forall j :: 0 <= j < |code| && JumpTarget(code[j]).Some? ==>
               JumpTarget(code[j]).value in PieceStarts(ps) || JumpTarget(code[j]).value >= |code|
    ensures Straight(Assembled(ps))
  {
    hide Assembled, PieceStarts;
    var code := Assembled(ps);
    forall i, j | 2 <= i < |code| && code[i].SetDynamicVar? && 0 <= j < |code|
      ensures JumpTarget(code[j]) != Some(i) && JumpTarget(code[j]) != Some(i - 1)
    {
      InsideAPiece(ps, i);
    }
  }

  /** On the way through such a triple the literal is where the write will look for it. */
  predicate PathInPlace(code: seq<Op>, f: Frame, i: nat)
    requires 2 <= i < |code|
  {
    code[i].SetDynamicVar? && LiteralRoot(code, i).Some? ==>
      && (f.pc == i - 1 ==> f.stack != [] && Top(f.stack) == code[i - 2].v)
      && (f.pc == i ==> |f.stack| < 2 || Top(Under(f.stack)) == code[i - 2].v)
  }

  predicate PathsInPlace(code: seq<Op>, c: Conf) {
    c.Running? ==> forall i :: 2 <= i < |code| ==> PathInPlace(code, c.f, i)
  }

  predicate Moves(op: Op, f: Frame, c: Conf) {
    c.Running? ==> c.f.pc == f.pc + 1 || JumpTarget(op) == Some(c.f.pc)
  }

  lemma {:induction false} StackMoves(w: World, op: Op, f: Frame)
    requires StackOnly(op)
    ensures Moves(op, f, ExecStack(w, op, f))
  {
    hide Top, Under;
  }

  lemma {:induction false} PathMoves(w: World, op: Op, f: Frame)
    requires ByPath(op)
    ensures Moves(op, f, ExecPath(w, op, f))
  {
    hide Fold, Find, Top, Under, Defined, Target, PathRoot;
  }

  lemma {:induction false} WriteMoves(w: World, op: Op, f: Frame)
    requires Writes(op)
    ensures Moves(op, f, ExecWrite(w, op, f))
  {
    hide Fold, Find, Top, Under, StepOf;
  }

  lemma {:induction false} ReadMoves(w: World, op: Op, f: Frame)
    requires !StackOnly(op) && !ByPath(op) && !Writes(op)
    ensures Moves(op, f, ExecRead(w, op, f))
  {
    hide Fold, Find, KeyRead, CmpHolds;
  }

  lemma {:induction false} ExecMoves(w: World, op: Op, f: Frame)
    ensures Moves(op, f, Exec(w, op, f))
  {
    hide ExecStack, ExecPath, ExecWrite, ExecRead, Reaches;
    var g := Seen(w, op, f);
    if StackOnly(op) {
      StackMoves(w, op, g);
    } else if ByPath(op) {
      PathMoves(w, op, g);
    } else if Writes(op) {
      WriteMoves(w, op, g);
    } else {
      ReadMoves(w, op, g);
    }
  }

  lemma {:induction false} PathsStay(w: World, code: seq<Op>, f: Frame)
    requires Straight(code) && f.pc < |code| && PathsInPlace(code, Running(f))
    ensures PathsInPlace(code, Exec(w, code[f.pc], f))
  {
    hide Exec, Fold, Root;
    var c := Exec(w, code[f.pc], f);
    ExecMoves(w, code[f.pc], f);
    if c.Running? {
      forall i | 2 <= i < |code|
        ensures PathInPlace(code, c.f, i)
      {
        assert PathInPlace(code, f, i);
        if code[i].SetDynamicVar? && LiteralRoot(code, i).Some? {
          if f.pc == i - 2 {
            PushedLiteral(w, code[i - 2], f);
          } else if f.pc == i - 1 {
            SwappedLiteral(w, f);
          }
        }
      }
    }
  }

  lemma {:induction false} PushedLiteral(w: World, op: Op, f: Frame)
    requires op.Const?
    ensures Exec(w, op, f) == Running(f.(pc := f.pc + 1, stack := f.stack + [op.v]))
  {
  }

  lemma {:induction false} SwappedLiteral(w: World, f: Frame)
    ensures var c := Exec(w, Swap, f);
            c.Running? && c.f.pc == f.pc + 1 && (|c.f.stack| < 2 || Top(Under(c.f.stack)) == Top(f.stack))
  {
  }

  // ---- Whole runs ----

  lemma {:induction false} ExcludedHas(code: seq<Op>, k: nat, i: nat)
    requires i < k <= |code|
    ensures Excludes(code, i) <= Excluded(code, k)
    decreases k
  {
    hide Excludes;
    if i < k - 1 {
      ExcludedHas(code, k - 1, i);
    }
  }

  /** What the pass guarantees about the names it chose. */
  predicate NamesOk(code: seq<Op>, names: seq<string>, narrowing: bool) {
    && DistinctNames(names)
    && (names != [] ==> Accepted(code, narrowing))
    && forall i :: 0 <= i < |names| ==> Fold(names[i]) !in Excluded(code, |code|)
  }

  lemma {:induction false} PassNamesOk(code: seq<Op>, params: seq<string>, narrowing: bool)
    ensures NamesOk(code, SlotNames(code, params, narrowing), narrowing)
  {
    hide Accepted, Excluded, Fold;
    SlotNamesAre(code, params, narrowing);
  }

  /** An instruction left by name touches no slotted name. */
  lemma {:induction false} NotTouched(code: seq<Op>, names: seq<string>, narrowing: bool, f: Frame, j: nat)
    requires NamesOk(code, names, narrowing) && f.pc < |code| && PathsInPlace(code, Running(f)) && j < |names|
    requires Rewritten1(names, code[f.pc]).Named? && !code[f.pc].Unset?
    ensures Fold(names[j]) !in Touched(code[f.pc], f)
  {
    hide Fold, Root;
    var i := f.pc;
    var op := code[i];
    ExcludedHas(code, |code|, i);
    assert !Disqualifies(code, i, narrowing);
    if op.SetDynamicVar? {
      assert LiteralRoot(code, i).Some? && PathInPlace(code, f, i);
      if |f.stack| >= 2 {
        assert PathRoot(Top(Under(f.stack))) == Root(code[i - 2].v.s);
      }
    }
  }

  // ---- Where the two forms part ----

  /** `UnsetPath` below a `local` variable whose slot is filled, and which has the key. */
  predicate DropsBelow(w: World, names: seq<string>, path: seq<string>, s: SFrame) {
    DeepLocal(path) &&
    match FindSlot(names, path[1])
    case Some(i) => i < |s.slots| && s.slots[i].Some? && w.dropped(s.slots[i].value, path) != s.slots[i].value
    case None => false
  }

  /** An instruction on a filled slot that does not do what its by-name twin does. */
  predicate FilledDeparts(w: World, op: Op, s: SFrame, v: Value) {
    match op
    case Take(n) => TakesElsewhere(w, n, s.f, v)
    case LoadKey(n) => "__" <= Fold(n)
    case TryLoadKey(n) => "__" <= Fold(n) && v != Ast.Null
    case _ => false
  }

  predicate Departs(w: World, names: seq<string>, c: Code, s: SFrame) {
    match c
    case Slotted(i, op) => i < |s.slots| && s.slots[i].Some? && FilledDeparts(w, op, s, s.slots[i].value)
    case Named(op) => op.Unset? && DropsBelow(w, names, op.path, s)
  }

  lemma {:induction false} FilledExact(w: World, names: seq<string>, i: nat, op: Op, s: SFrame)
    requires SlotsOk(names, s) && Apart(s.f) && DistinctNames(names) && i < |names| && s.slots[i].Some?
    requires HasTwin(op) && SameName(names[i], op.n)
    requires !Reaches(op, s.f)
    ensures var c := Filled1(w, i, op, s, s.slots[i].value);
            && GoodC(names, c)
            && (ViewC(names, c) == Exec(w, op, View(names, s)) <==> !FilledDeparts(w, op, s, s.slots[i].value))
  {
    hide Exec, Filled1, Fold, View, SlotsOk, TakesElsewhere;
    if op.Take? {
      FilledTake(w, names, i, op.n, s);
    } else if op.LoadKey? || op.TryLoadKey? {
      KeyReadExact(w, names, i, op.n, s);
    } else {
      FilledAgrees(w, names, i, op, s);
    }
  }

  /** The deletion of a key below a filled slot does not reach the slot. */
  lemma {:induction false} DeepExact(w: World, names: seq<string>, path: seq<string>, i: nat, s: SFrame)
    requires SlotsOk(names, s) && Apart(s.f) && DistinctNames(names) && i < |names| && s.slots[i].Some?
    requires DeepLocal(path) && SameName(names[i], path[1])
    ensures var c := Lift(s, Exec(w, Unset(path), s.f));
            && GoodC(names, c)
            && (ViewC(names, c) == Exec(w, Unset(path), View(names, s))
                <==> w.dropped(s.slots[i].value, path) == s.slots[i].value)
  {
    hide Fold, SlotVars, Exec;
    var leaf, k, v := Fold(path[|path| - 1]), Fold(path[1]), s.slots[i].value;
    SlotVarsAt(names, s.slots, i);
    assert SlotOnly(s.f, Fold(names[i]));
    ExecDeep(w, path, s.f);
    ExecDeep(w, path, View(names, s));
    var locals := View(names, s).locals;
    assert k in locals && locals[k] == v;
    var c := Lift(s, Exec(w, Unset(path), s.f));
    assert c.s.f == s.f.(pc := s.f.pc + 1, inherited := s.f.inherited - {leaf});
    assert ViewC(names, c) == Running(View(names, s).(pc := s.f.pc + 1, inherited := s.f.inherited - {leaf}));
    assert locals[k := w.dropped(v, path)] == locals <==> w.dropped(v, path) == v by {
      assert locals[k := w.dropped(v, path)][k] == w.dropped(v, path);
    }
    forall j | 0 <= j < |names| && s.slots[j].Some?
      ensures SlotOnly(c.s.f, Fold(names[j]))
    {
      assert SlotOnly(s.f, Fold(names[j]));
    }
  }

  lemma {:induction false} ExecDeep(w: World, path: seq<string>, f: Frame)
    requires DeepLocal(path)
    ensures var leaf, k := Fold(path[|path| - 1]), Fold(path[1]);
            Exec(w, Unset(path), f)
            == Running(f.(pc := f.pc + 1, inherited := f.inherited - {leaf},
                          locals := if k in f.locals then f.locals[k := w.dropped(f.locals[k], path)] else f.locals))
  {
    hide Fold;
  }

  /** One step: the rewritten instruction does what the original does exactly where it is not said to depart. */
  lemma {:induction false} StepExact(w: World, code: seq<Op>, names: seq<string>, narrowing: bool, s: SFrame)
    requires NamesOk(code, names, narrowing) && SlotsOk(names, s) && Apart(s.f)
    requires s.f.pc < |code| && PathsInPlace(code, Running(s.f))
    ensures var op := Rewritten1(names, code[s.f.pc]);
            var c := ExecS(w, names, op, s);
            && GoodC(names, c)
            && (ViewC(names, c) == Exec(w, code[s.f.pc], View(names, s)) <==> !Departs(w, names, op, s))
  {
    hide Exec, Fold, View, SlotsOk, Touched, Excluded, Accepted, PathsInPlace, Filled1, Empty1, FilledDeparts, DropsBelow, DeepLocal;
    var op := code[s.f.pc];
    var c := Rewritten1(names, op);
    Lengths(names, s);
    if names == [] {
      NoSlotsAgree(w, op, s);
      NothingDeparts(w, op, s);
      return;
    }
    AcceptedReachesNothing(code, narrowing, s.f);
    if c.Slotted? {
      if s.slots[c.i].Some? {
        FilledExact(w, names, c.i, op, s);
      } else {
        EmptyAgrees(w, names, c.i, op, s);
      }
    } else if op.Unset? {
      UnsetExact(w, names, op.path, s);
    } else {
      forall j | 0 <= j < |names|
        ensures Fold(names[j]) !in Touched(op, s.f)
      {
        NotTouched(code, names, narrowing, s.f, j);
      }
      NamedAgrees(w, names, op, s, s.blocked);
    }
  }

  lemma {:induction false} NothingDeparts(w: World, op: Op, s: SFrame)
    ensures Rewritten1([], op) == Named(op) && !Departs(w, [], Named(op), s)
  {
  }

  /** No instruction of an accepted body sees the whole of the locals, in any frame a run brings it to. */
  lemma {:induction false} AcceptedReachesNothing(code: seq<Op>, narrowing: bool, f: Frame)
    requires Accepted(code, narrowing) && f.pc < |code| && PathsInPlace(code, Running(f))
    ensures !Reaches(code[f.pc], f)
  {
    hide Fold, Root;
    var i := f.pc;
    assert !Disqualifies(code, i, narrowing);
    if code[i].SetDynamicVar? && |f.stack| >= 2 {
      assert LiteralRoot(code, i).Some? && PathInPlace(code, f, i);
      assert PathRoot(Top(Under(f.stack))) == Root(code[i - 2].v.s);
    }
  }

  lemma {:induction false} UnsetExact(w: World, names: seq<string>, path: seq<string>, s: SFrame)
    requires SlotsOk(names, s) && Apart(s.f) && DistinctNames(names)
    ensures var c := ExecS(w, names, Named(Unset(path)), s);
            && GoodC(names, c)
            && (ViewC(names, c) == Exec(w, Unset(path), View(names, s)) <==> !DropsBelow(w, names, path, s))
  {
    hide Exec, Fold, View, SlotsOk, Touched;
    Lengths(names, s);
    if Cleared(names, Unset(path)).Some? {
      UnsetAgrees(w, names, path, Cleared(names, Unset(path)).value, s);
    } else if DeepLocal(path) && FindSlot(names, path[1]).Some? && s.slots[FindSlot(names, path[1]).value].Some? {
      DeepExact(w, names, path, FindSlot(names, path[1]).value, s);
    } else {
      forall j | 0 <= j < |names| && s.slots[j].Some?
        ensures Fold(names[j]) !in Touched(Unset(path), s.f)
      {
        UnsetOther(names, path, s, j);
      }
      NamedAgrees(w, names, Unset(path), s, s.blocked);
    }
  }

  lemma {:induction false} UnsetOther(names: seq<string>, path: seq<string>, s: SFrame, j: nat)
    requires |names| == |s.slots| && DistinctNames(names) && j < |names| && s.slots[j].Some?
    requires Cleared(names, Unset(path)).None?
    requires !(DeepLocal(path) && FindSlot(names, path[1]).Some? && s.slots[FindSlot(names, path[1]).value].Some?)
    ensures Fold(names[j]) !in Touched(Unset(path), s.f)
  {
    hide Fold;
    if UnsetTarget(path).Some? {
      assert !SameName(names[j], UnsetTarget(path).value);
    } else if DeepLocal(path) && FindSlot(names, path[1]).Some? {
      var i := FindSlot(names, path[1]).value;
      assert !SameName(names[if i < j then i else j], names[if i < j then j else i]);
    }
  }

  lemma {:induction false} SamePaths(names: seq<string>, code: seq<Op>, s: SFrame)
    requires |names| == |s.slots| && PathsInPlace(code, Running(View(names, s)))
    ensures PathsInPlace(code, Running(s.f))
  {
    hide LiteralRoot, Top, Under, SlotVars;
    forall i | 2 <= i < |code|
      ensures PathInPlace(code, s.f, i)
    {
      assert PathInPlace(code, View(names, s), i);
    }
  }

  function StartS(names: seq<string>, f: Frame): SConf {
    SRunning(SFrame(f, seq(|names|, i => None), {}))
  }

  /** The rewritten run after `m` steps. */
  function SlotRun(w: World, code: seq<Op>, names: seq<string>, f: Frame, m: nat): SConf {
    RunNS(w, names, Rewritten(names, code), m, StartS(names, f))
  }

  /** The two runs are at the same place with the same variables, stack and outer scopes. */
  predicate InStep(w: World, code: seq<Op>, names: seq<string>, f: Frame, m: nat) {
    ViewC(names, SlotRun(w, code, names, f, m)) == RunN(w, code, m, Running(f))
  }

  /** The step after `m` steps is one where the two forms part. */
  predicate DepartsAt(w: World, code: seq<Op>, names: seq<string>, f: Frame, m: nat) {
    var c := SlotRun(w, code, names, f, m);
    c.SRunning? && c.s.f.pc < |code| && Departs(w, names, Rewritten1(names, code[c.s.f.pc]), c.s)
  }

  /** Good in every way, and in step. */
  predicate Together(w: World, code: seq<Op>, names: seq<string>, f: Frame, m: nat) {
    && InStep(w, code, names, f, m) && GoodC(names, SlotRun(w, code, names, f, m))
    && PathsInPlace(code, RunN(w, code, m, Running(f)))
  }

  lemma {:induction false} NextStep(w: World, code: seq<Op>, names: seq<string>, narrowing: bool, f: Frame, n: nat)
    requires Straight(code) && NamesOk(code, names, narrowing) && Together(w, code, names, f, n)
    ensures !DepartsAt(w, code, names, f, n) ==> Together(w, code, names, f, n + 1)
    ensures DepartsAt(w, code, names, f, n) ==> !InStep(w, code, names, f, n + 1)
  {
    hide Exec, Fold, View, SlotsOk, PathsInPlace, Straight, ExecS, Apart, Departs, NamesOk;
    var c := SlotRun(w, code, names, f, n);
    if c.SRunning? {
      Lengths(names, c.s);
      ViewParts(names, c.s);
      SamePaths(names, code, c.s);
      if c.s.f.pc < |code| {
        StepExact(w, code, names, narrowing, c.s);
        PathsStay(w, code, View(names, c.s));
      } else {
        HaltedPaths(code, c.s.f.outer);
      }
    }
  }

  /** While no step departs, the two runs stay in step. */
  lemma {:induction false} LockStep(w: World, code: seq<Op>, params: seq<string>, narrowing: bool, f: Frame, n: nat)
    requires f.pc == 0 && Apart(f) && Straight(code)
    requires var names := SlotNames(code, params, narrowing); forall m :: 0 <= m < n ==> !DepartsAt(w, code, names, f, m)
    ensures Together(w, code, SlotNames(code, params, narrowing), f, n)
    decreases n
  {
    hide Together, Straight, SlotNames, DepartsAt, NamesOk;
    var names := SlotNames(code, params, narrowing);
    if n == 0 {
      StartTogether(w, code, names, f);
    } else {
      LockStep(w, code, params, narrowing, f, n - 1);
      PassNamesOk(code, params, narrowing);
      NextStep(w, code, names, narrowing, f, n - 1);
    }
  }

  /** The two runs are in step throughout exactly when no step on the way departs. */
  lemma {:induction false} LockStepExact(w: World, code: seq<Op>, params: seq<string>, narrowing: bool, f: Frame, n: nat)
    requires f.pc == 0 && Apart(f) && Straight(code)
    ensures var names := SlotNames(code, params, narrowing);
            (forall m :: 0 <= m <= n ==> InStep(w, code, names, f, m)) <==> (forall m :: 0 <= m < n ==> !DepartsAt(w, code, names, f, m))
    decreases n
  {
    hide InStep, DepartsAt, Straight, SlotNames, NamesOk, GoodC, PathsInPlace;
    var names := SlotNames(code, params, narrowing);
    if n == 0 {
      LockStep(w, code, params, narrowing, f, 0);
    } else {
      LockStepExact(w, code, params, narrowing, f, n - 1);
      if forall m :: 0 <= m < n - 1 ==> !DepartsAt(w, code, names, f, m) {
        LockStep(w, code, params, narrowing, f, n - 1);
        PassNamesOk(code, params, narrowing);
        NextStep(w, code, names, narrowing, f, n - 1);
      }
    }
  }

  lemma {:induction false} StartTogether(w: World, code: seq<Op>, names: seq<string>, f: Frame)
    requires f.pc == 0 && Apart(f)
    ensures Together(w, code, names, f, 0)
  {
    hide GoodC, PathsInPlace, ViewC, StartS;
    AtStart(code, names, f);
  }

  // ---- Bodies that cannot depart ----

  /** `local.x` is not used on a slotted name that the `local` view hides. */
  predicate NoBridgeKeys(code: seq<Op>, names: seq<string>) {
    forall i :: 0 <= i < |code| && (code[i].LoadKey? || code[i].TryLoadKey?) && FindSlot(names, code[i].n).Some? ==>
                !("__" <= Fold(code[i].n))
  }

  /** Where plain names reach `variables` directly, no `x &= e` is on a slotted name. */
  predicate NoDirectTakes(w: World, code: seq<Op>, names: seq<string>) {
    w.direct ==> forall i :: 0 <= i < |code| && code[i].Take? ==> FindSlot(names, code[i].n).None?
  }

  /** A deletion below a `local` variable comes with the write it guards. */
  predicate Paired(code: seq<Op>) {
    (exists i :: 0 <= i < |code| && code[i].Unset? && DeepLocal(code[i].path)) ==>
      exists j :: 0 <= j < |code| && code[j].SetScopePath? && FirstLower(code[j].path) == "local"
  }

  lemma {:induction false} NoDeepUnset(code: seq<Op>, names: seq<string>, narrowing: bool, i: nat)
    requires NamesOk(code, names, narrowing) && Paired(code) && names != [] && i < |code| && code[i].Unset?
    ensures !DeepLocal(code[i].path)
  {
    hide Fold, Excluded;
    forall j | 0 <= j < |code|
      ensures !(code[j].SetScopePath? && FirstLower(code[j].path) == "local")
    {
      assert !Disqualifies(code, j, narrowing);
    }
  }

  lemma {:induction false} NeverDeparts(w: World, code: seq<Op>, names: seq<string>, narrowing: bool, s: SFrame)
    requires NamesOk(code, names, narrowing) && NoBridgeKeys(code, names) && NoDirectTakes(w, code, names) && Paired(code)
    requires s.f.pc < |code|
    ensures !Departs(w, names, Rewritten1(names, code[s.f.pc]), s)
  {
    hide Fold, Excluded, Accepted, Paired, DeepLocal, NamesOk;
    var op := code[s.f.pc];
    if op.Unset? && names != [] {
      NoDeepUnset(code, names, narrowing, s.f.pc);
    }
  }

  /** Such a body is in step after every number of steps, from every frame. */
  lemma {:induction false} AlwaysInStep(w: World, code: seq<Op>, params: seq<string>, narrowing: bool, f: Frame, n: nat)
    requires f.pc == 0 && Apart(f) && Straight(code) && Paired(code)
    requires var names := SlotNames(code, params, narrowing); NoBridgeKeys(code, names) && NoDirectTakes(w, code, names)
    ensures InStep(w, code, SlotNames(code, params, narrowing), f, n)
  {
    hide InStep, Straight, SlotNames, NamesOk, GoodC, PathsInPlace, Paired, NoBridgeKeys, NoDirectTakes, Departs, SlotRun;
    var names := SlotNames(code, params, narrowing);
    PassNamesOk(code, params, narrowing);
    forall m | 0 <= m < n
      ensures !DepartsAt(w, code, names, f, m)
    {
      var c := SlotRun(w, code, names, f, m);
      if c.SRunning? && c.s.f.pc < |code| {
        NeverDeparts(w, code, names, narrowing, c.s);
      }
    }
    LockStep(w, code, params, narrowing, f, n);
  }

  lemma {:induction false} HaltedPaths(code: seq<Op>, outer: Vars)
    ensures PathsInPlace(code, Halted(Values.Val(Ast.Null), outer))
  {
  }

  lemma {:induction false} AtStart(code: seq<Op>, names: seq<string>, f: Frame)
    requires f.pc == 0 && Apart(f)
    ensures ViewC(names, StartS(names, f)) == Running(f)
    ensures GoodC(names, StartS(names, f)) && PathsInPlace(code, Running(f))
  {
    hide Fold, LiteralRoot;
    var slots := seq(|names|, i => None);
    EmptySlots(names, slots);
    assert f.locals + map[] == f.locals;
  }

  lemma {:induction false} EmptySlots(names: seq<string>, slots: seq<Option<Value>>)
    requires |names| == |slots| && forall i :: 0 <= i < |slots| ==> slots[i].None?
    ensures SlotVars(names, slots) == map[]
    decreases |names|
  {
    if names != [] {
      EmptySlots(names[..|names| - 1], slots[..|names| - 1]);
    }
  }
}
