/**
 Two bodies on which the slot form and the by-name form part: the pass gives each its slot,
 and both runs are followed to the instruction where they differ.
 */
module SlotInputs {
  import opened Names
  import Ast
  import Values
  import opened Slots
  import opened SlotPass
  import opened SlotLockstep

  /** `var x = 1; x &= "a"`, up to the load. */
  const TAKE_BODY: seq<Op> := [Declare("x"), Const(Ast.Int(1)), Store("x"), Const(Ast.Str("a")), Take("x")]

  /** `var __x = 1; local.__x`. */
  const KEY_BODY: seq<Op> := [Declare("__x"), Const(Ast.Int(1)), Store("__x"), LoadKey("__x")]

  function Fresh(outer: Vars): Frame { Frame(0, [], map[], outer, {}, {}, None) }

  /** A body that declares one name, first, and keeps it. */
  lemma {:induction false} OneSlot(code: seq<Op>, n: string, narrowing: bool)
    requires code != [] && code[0] == Declare(n) && Fold(n) !in SCOPE_NAMES
    requires forall i :: 0 <= i < |code| ==> !Disqualifies(code, i, narrowing) && Excludes(code, i) == {}
    requires forall i :: 0 < i < |code| ==> !code[i].Declare?
    ensures SlotNames(code, [], narrowing) == [n]
  {
    hide Fold, Disqualifies, Excludes;
    DeclaredFirst(code, n, |code|);
    NothingExcluded(code, |code|);
    assert Chosen([], {}, []) == [];
    assert [n][..0] == [];
  }

  lemma {:induction false} DeclaredFirst(code: seq<Op>, n: string, k: nat)
    requires 0 < k <= |code| && code[0] == Declare(n) && forall i :: 0 < i < |code| ==> !code[i].Declare?
    ensures Declared(code, k) == [n]
    decreases k
  {
    hide Fold;
    if k > 1 {
      DeclaredFirst(code, n, k - 1);
    } else {
      assert Declared(code, 0) == [];
    }
  }

  lemma {:induction false} NothingExcluded(code: seq<Op>, k: nat)
    requires k <= |code| && forall i :: 0 <= i < |code| ==> Excludes(code, i) == {}
    ensures Excluded(code, k) == {}
    decreases k
  {
    hide Excludes;
    if k > 0 {
      NothingExcluded(code, k - 1);
    }
  }

  lemma {:induction false} NamedStep(w: World, code: seq<Op>, n: nat, c: Conf, f: Frame)
    requires RunN(w, code, n, c) == Running(f) && f.pc < |code|
    ensures RunN(w, code, n + 1, c) == Exec(w, code[f.pc], f)
  {
    hide Exec;
  }

  lemma {:induction false} SlotStep(w: World, code: seq<Op>, names: seq<string>, f: Frame, n: nat, s: SFrame)
    requires SlotRun(w, code, names, f, n) == SRunning(s) && s.f.pc < |code|
    ensures SlotRun(w, code, names, f, n + 1) == ExecS(w, names, Rewritten1(names, code[s.f.pc]), s)
  {
    hide ExecS;
  }

  predicate StoresOne(code: seq<Op>, n: string) {
    |code| > 3 && code[0] == Declare(n) && code[1] == Const(Ast.Int(1)) && code[2] == Store(n)
  }

  /** `x` declared, and 1 stored in it: by name it is a local. */
  lemma {:induction false} StoredByName(w: World, code: seq<Op>, n: string, outer: Vars)
    requires StoresOne(code, n)
    ensures RunN(w, code, 3, Running(Fresh(outer)))
         == Running(Fresh(outer).(pc := 3, locals := map[Fold(n) := Ast.Int(1)], declared := {Fold(n)}))
  {
    hide Fold, Exec, RunN;
    var f := Fresh(outer);
    var f1 := f.(pc := 1, declared := {Fold(n)});
    var f2 := f1.(pc := 2, stack := [Ast.Int(1)]);
    NoSteps(w, code, n, f);
    NamedStep(w, code, 0, Running(f), f);
    ExecDeclare(w, n, f);
    NamedStep(w, code, 1, Running(f), f1);
    PushedLiteral(w, Const(Ast.Int(1)), f1);
    NamedStep(w, code, 2, Running(f), f2);
    ExecStore(w, n, f2);
  }

  /** In slot form it is in its slot. */
  lemma {:induction false} StoredBySlot(w: World, code: seq<Op>, n: string, outer: Vars)
    requires StoresOne(code, n)
    ensures SlotRun(w, code, [n], Fresh(outer), 3)
         == SRunning(SFrame(Fresh(outer).(pc := 3, declared := {Fold(n)}), [Some(Ast.Int(1))], {}))
  {
    hide Fold, ExecS, SlotRun, Rewritten1;
    var f := Fresh(outer);
    var f1 := f.(pc := 1, declared := {Fold(n)});
    var f2 := f1.(pc := 2, stack := [Ast.Int(1)]);
    NoSteps(w, code, n, f);
    Twins(n);
    FirstStore(w, n, f, f1, f2);
    SlotStep(w, code, [n], f, 0, SFrame(f, [None], {}));
    SlotStep(w, code, [n], f, 1, SFrame(f1, [None], {}));
    SlotStep(w, code, [n], f, 2, SFrame(f2, [None], {}));
  }

  lemma {:induction false} NoSteps(w: World, code: seq<Op>, n: string, f: Frame)
    ensures RunN(w, code, 0, Running(f)) == Running(f) && SlotRun(w, code, [n], f, 0) == SRunning(SFrame(f, [None], {}))
  {
    var s := StartS([n], f).s;
    assert s.slots == [None];
  }

  lemma {:induction false} Twins(n: string)
    ensures FindSlot([n], n) == Some(0)
    ensures forall op :: HasTwin(op) && op.n == n ==> Rewritten1([n], op) == Slotted(0, op)
    ensures forall op :: !HasTwin(op) ==> Rewritten1([n], op) == Named(op)
  {
    hide Fold;
  }

  lemma {:induction false} ExecDeclare(w: World, n: string, f: Frame)
    ensures Exec(w, Declare(n), f) == Next(f.(declared := f.declared + {Fold(n)}, inherited := f.inherited - {Fold(n)}))
  {
  }

  lemma {:induction false} ExecStore(w: World, n: string, f: Frame)
    requires f.stack != []
    ensures Exec(w, Store(n), f) == Next(Keep(f.(stack := Under(f.stack)), n, Top(f.stack)))
  {
  }

  lemma {:induction false} ExecTake(w: World, n: string, f: Frame)
    requires Simple(f.stack) && w.direct && !IsString(f.locals, n) && IsString(f.outer, n) && Fold(n) !in REFLECTIVE_BUILTINS
    ensures Exec(w, Take(n), f) == Push(f.(outer := f.outer[Fold(n) := Ast.Null]), f.outer[Fold(n)])
  {
    hide Simple, Fold;
  }

  /** The slot is empty until the store, which fills it. */
  lemma {:induction false} FirstStore(w: World, n: string, f: Frame, f1: Frame, f2: Frame)
    requires f1 == f.(pc := f.pc + 1, declared := {Fold(n)}) && f2 == f1.(pc := f.pc + 2, stack := [Ast.Int(1)])
    requires f.declared == {} && f.inherited == {} && f.locals == map[] && f.stack == []
    ensures ExecS(w, [n], Slotted(0, Declare(n)), SFrame(f, [None], {})) == SRunning(SFrame(f1, [None], {}))
    ensures ExecS(w, [n], Named(Const(Ast.Int(1))), SFrame(f1, [None], {})) == SRunning(SFrame(f2, [None], {}))
    ensures ExecS(w, [n], Slotted(0, Store(n)), SFrame(f2, [None], {}))
         == SRunning(SFrame(f1.(pc := f.pc + 3), [Some(Ast.Int(1))], {}))
  {
    hide Fold, Exec;
    ExecDeclare(w, n, f);
    PushedLiteral(w, Const(Ast.Int(1)), f1);
    assert [None][0 := Some(Ast.Int(1))] == [Some(Ast.Int(1))];
  }

  lemma {:induction false} TakeNames(narrowing: bool)
    ensures SlotNames(TAKE_BODY, [], narrowing) == ["x"]
  {
    assert Fold("x") == "x";
    hide Fold;
    forall i | 0 <= i < |TAKE_BODY|
      ensures !Disqualifies(TAKE_BODY, i, narrowing) && Excludes(TAKE_BODY, i) == {}
    {
      assert TAKE_BODY[i].Declare? || TAKE_BODY[i].Const? || TAKE_BODY[i].Store? || TAKE_BODY[i].Take?;
    }
    OneSlot(TAKE_BODY, "x", narrowing);
  }

  lemma {:induction false} KeyNames(narrowing: bool)
    ensures SlotNames(KEY_BODY, [], narrowing) == ["__x"]
  {
    assert Fold("__x") == "__x";
    hide Fold;
    forall i | 0 <= i < |KEY_BODY|
      ensures !Disqualifies(KEY_BODY, i, narrowing) && Excludes(KEY_BODY, i) == {}
    {
      assert KEY_BODY[i].Declare? || KEY_BODY[i].Const? || KEY_BODY[i].Store? || KEY_BODY[i].LoadKey?;
    }
    OneSlot(KEY_BODY, "__x", narrowing);
  }

  lemma {:induction false} TakeByName(w: World, code: seq<Op>, n: string, f: Frame, f3: Frame, v: string)
    requires |code| == 5 && code[3] == Const(Ast.Str("a")) && code[4] == Take(n) && Fold(n) !in REFLECTIVE_BUILTINS
    requires w.direct && RunN(w, code, 3, Running(f)) == Running(f3)
    requires f3.pc == 3 && f3.stack == [] && f3.locals == map[Fold(n) := Ast.Int(1)] && f3.outer == map[Fold(n) := Ast.Str(v)]
    ensures RunN(w, code, 5, Running(f))
         == Running(f3.(pc := 5, stack := [Ast.Str("a"), Ast.Str(v)], outer := map[Fold(n) := Ast.Null]))
  {
    hide Fold, RunN, Exec;
    var f4 := f3.(pc := 4, stack := [Ast.Str("a")]);
    NamedStep(w, code, 3, Running(f), f3);
    PushedLiteral(w, Const(Ast.Str("a")), f3);
    NamedStep(w, code, 4, Running(f), f4);
    ExecTake(w, n, f4);
    assert f4.outer[Fold(n) := Ast.Null] == map[Fold(n) := Ast.Null];
    assert f4.stack + [Ast.Str(v)] == [Ast.Str("a"), Ast.Str(v)];
  }

  lemma {:induction false} TakeBySlot(w: World, code: seq<Op>, n: string, f: Frame, f3: Frame)
    requires |code| == 5 && code[3] == Const(Ast.Str("a")) && code[4] == Take(n)
    requires SlotRun(w, code, [n], f, 3) == SRunning(SFrame(f3, [Some(Ast.Int(1))], {})) && f3.pc == 3 && f3.stack == []
    ensures SlotRun(w, code, [n], f, 5)
         == SRunning(SFrame(f3.(pc := 5, stack := [Ast.Str("a"), Ast.Int(1)]), [Some(Ast.Int(1))], {}))
  {
    hide Fold, SlotRun, Exec, Rewritten1;
    PushedLiteral(w, Const(Ast.Str("a")), f3);
    Twins(n);
    var s3 := SFrame(f3, [Some(Ast.Int(1))], {});
    var s4 := s3.(f := f3.(pc := 4, stack := [Ast.Str("a")]));
    SlotStep(w, code, [n], f, 3, s3);
    SlotStep(w, code, [n], f, 4, s4);
    assert s4.f.stack + [Ast.Int(1)] == [Ast.Str("a"), Ast.Int(1)];
  }

  lemma {:induction false} PlainName()
    ensures Fold("x") == "x" && "x" !in REFLECTIVE_BUILTINS
  {
  }

  /** With a string `x` in the component's variables the by-name load takes that one and empties it. */
  lemma {:induction false} TakesVariable(w: World, narrowing: bool)
    requires w.direct
    ensures SlotNames(TAKE_BODY, [], narrowing) == ["x"]
    ensures var f := Fresh(map["x" := Ast.Str("v")]);
            && RunN(w, TAKE_BODY, 5, Running(f))
               == Running(f.(pc := 5, stack := [Ast.Str("a"), Ast.Str("v")], locals := map["x" := Ast.Int(1)],
                             outer := map["x" := Ast.Null], declared := {"x"}))
            && SlotRun(w, TAKE_BODY, ["x"], f, 5)
               == SRunning(SFrame(f.(pc := 5, stack := [Ast.Str("a"), Ast.Int(1)], declared := {"x"}), [Some(Ast.Int(1))], {}))
            && !InStep(w, TAKE_BODY, ["x"], f, 5)
  {
    PlainName();
    hide Fold, RunN, SlotRun, SlotNames, REFLECTIVE_BUILTINS;
    TakeNames(narrowing);
    var f := Fresh(map["x" := Ast.Str("v")]);
    StoredByName(w, TAKE_BODY, "x", f.outer);
    StoredBySlot(w, TAKE_BODY, "x", f.outer);
    TakeByName(w, TAKE_BODY, "x", f, f.(pc := 3, locals := map["x" := Ast.Int(1)], declared := {"x"}), "v");
    TakeBySlot(w, TAKE_BODY, "x", f, f.(pc := 3, declared := {"x"}));
  }

  lemma {:induction false} KeyReads(w: World, code: seq<Op>, n: string, outer: Vars)
    requires |code| == 4 && StoresOne(code, n) && code[3] == LoadKey(n) && "__" <= Fold(n)
    ensures RunN(w, code, 4, Running(Fresh(outer))) == Halted(Values.Exc(w.base.missing(n)), outer)
    ensures SlotRun(w, code, [n], Fresh(outer), 4)
         == SRunning(SFrame(Fresh(outer).(pc := 4, stack := [Ast.Int(1)], declared := {Fold(n)}), [Some(Ast.Int(1))], {}))
  {
    hide Fold, RunN, SlotRun, Exec, Rewritten1;
    Twins(n);
    var f := Fresh(outer);
    StoredByName(w, code, n, outer);
    StoredBySlot(w, code, n, outer);
    var f3 := f.(pc := 3, declared := {Fold(n)});
    NamedStep(w, code, 3, Running(f), f3.(locals := map[Fold(n) := Ast.Int(1)]));
    KeyOps(w, n, f3.(locals := map[Fold(n) := Ast.Int(1)]));
    SlotStep(w, code, [n], f, 3, SFrame(f3, [Some(Ast.Int(1))], {}));
  }

  /** By name the read fails, the `local` view hiding the name; in slot form it gives 1. */
  lemma {:induction false} HiddenKeyRead(w: World, narrowing: bool)
    ensures SlotNames(KEY_BODY, [], narrowing) == ["__x"]
    ensures RunN(w, KEY_BODY, 4, Running(Fresh(map[]))) == Halted(Values.Exc(w.base.missing("__x")), map[])
    ensures SlotRun(w, KEY_BODY, ["__x"], Fresh(map[]), 4)
         == SRunning(SFrame(Fresh(map[]).(pc := 4, stack := [Ast.Int(1)], declared := {"__x"}), [Some(Ast.Int(1))], {}))
  {
    assert Fold("__x") == "__x";
    hide Fold, RunN, SlotRun, SlotNames;
    KeyNames(narrowing);
    assert "__" <= "__x";
    KeyReads(w, KEY_BODY, "__x", map[]);
  }
}
