/**
 Which bodies get slots, and for which names: the rules of the pass, instruction by
 instruction, and that it keeps to nothing but them.
 */
module SlotRules {
  import opened Names
  import opened Slots
  import opened SlotPass

  /** A function of the `evaluate` family, called or passed on. */
  predicate Reflective(n: string) {
    || SameName(n, "evaluate") || SameName(n, "precisionEvaluate") || SameName(n, "getVariable") || SameName(n, "setVariable")
    || SameName(n, "structGet") || SameName(n, "iif") || SameName(n, "de") || SameName(n, "structDelete") || SameName(n, "structClear")
  }

  lemma {:induction false} ReflectiveNames(n: string)
    ensures Reflective(n) <==> Fold(n) in REFLECTIVE_BUILTINS
  {
    assert Fold("evaluate") == "evaluate" && Fold("precisionEvaluate") == "precisionevaluate" && Fold("getVariable") == "getvariable";
    assert Fold("setVariable") == "setvariable" && Fold("structGet") == "structget" && Fold("iif") == "iif" && Fold("de") == "de";
    assert Fold("structDelete") == "structdelete" && Fold("structClear") == "structclear";
  }

  /** A path that names a variable to exclude: its root is there, and is not the `local` scope. */
  predicate Narrow(root: string, narrowing: bool) { narrowing && root != "" && !SameName(root, "local") }

  lemma {:induction false} NarrowIsUsable(root: string, narrowing: bool)
    ensures Narrow(root, narrowing) == Usable(Fold(root), narrowing)
  {
    assert Fold("local") == "local";
  }

  /** The three instructions of a write whose path is a literal. */
  predicate LiteralWrite(code: seq<Op>, i: nat)
    requires i < |code|
  {
    i >= 2 && code[i - 1] == Swap && code[i - 2].Const? && code[i - 2].v.Str?
  }

  /** Instructions that see the frame by name as a whole. */
  predicate SeesAll(code: seq<Op>, i: nat, narrowing: bool)
    requires i < |code|
  {
    var op := code[i];
    || op == DefineFunction
    || op == Include
    || (op.DeleteScopeKey? && SameName(op.n, "local"))
    || ((op.CallLoad? || op.Load? || op.TryLoad? || op.Take?) && Reflective(op.n))
    || (op.SetScopePath? && (op.path == [] || !Narrow(op.path[0], narrowing)))
    || (op == SetDynamicVar && (!LiteralWrite(code, i) || !Narrow(Root(code[i - 2].v.s), narrowing)))
  }

  /** Instructions without a slot form that reach the name `n`. */
  predicate ReachesName(code: seq<Op>, i: nat, n: string)
    requires i < |code|
  {
    var op := code[i];
    || ((op.CallLoad? || op.StoreGlobal? || op.SetLast? || op.JumpIfArg? || op.VariablesKey?) && SameName(op.n, n))
    || ((op.IsDefined? || op.WriteBack?) && op.path != []
        && (SameName(op.path[0], n) || (SameName(op.path[0], "local") && |op.path| > 1 && SameName(op.path[1], n))))
    || (op.SetScopePath? && op.path != [] && SameName(op.path[0], n))
    || (op == SetDynamicVar && LiteralWrite(code, i) && SameName(Root(code[i - 2].v.s), n))
  }

  lemma {:induction false} SeesAllExact(code: seq<Op>, i: nat, narrowing: bool)
    requires i < |code|
    ensures SeesAll(code, i, narrowing) <==> Disqualifies(code, i, narrowing)
  {
    var op := code[i];
    if op.SetScopePath? || op.SetDynamicVar? {
      WritesExact(code, i, narrowing);
    } else {
      hide Fold, Reflective, REFLECTIVE_BUILTINS;
      LocalFolds();
      if op.CallLoad? || op.Load? || op.TryLoad? || op.Take? {
        ReflectiveNames(op.n);
      }
    }
  }

  lemma {:induction false} WritesExact(code: seq<Op>, i: nat, narrowing: bool)
    requires i < |code| && (code[i].SetScopePath? || code[i].SetDynamicVar?)
    ensures SeesAll(code, i, narrowing) <==> Disqualifies(code, i, narrowing)
  {
    hide Fold, Narrow, Usable, Root;
    NothingUsable(narrowing);
    if code[i].SetScopePath? {
      if code[i].path != [] {
        NarrowIsUsable(code[i].path[0], narrowing);
      }
    } else if LiteralWrite(code, i) {
      NarrowIsUsable(Root(code[i - 2].v.s), narrowing);
    }
  }

  lemma {:induction false} LocalFolds()
    ensures Fold("local") == "local"
  {
  }

  lemma {:induction false} NothingUsable(narrowing: bool)
    ensures !Usable("", narrowing)
  {
  }

  /** Any such instruction, anywhere in the body, and nothing gets a slot. */
  lemma {:induction false} SeesAllRefuses(code: seq<Op>, params: seq<string>, narrowing: bool, i: nat)
    requires i < |code| && SeesAll(code, i, narrowing)
    ensures SlotNames(code, params, narrowing) == []
    ensures forall k :: 0 <= k < |code| ==> Rewritten(SlotNames(code, params, narrowing), code)[k] == Named(code[k])
  {
    hide SeesAll, Disqualifies;
    SeesAllExact(code, i, narrowing);
    NoNames(code);
  }

  /** The reserved scopes' names. */
  const RESERVED: seq<string> := [
    "local", "arguments", "variables", "this", "super", "request", "session", "application", "server", "url", "form", "cgi", "cookie",
    "client", "static", "attributes", "caller", "thread"]

  lemma {:induction false} ReservedNames(n: string)
    ensures Fold(n) in RESERVED <==> Fold(n) in SCOPE_NAMES
  {
    hide Fold;
  }

  lemma {:induction false} ReachesNameExact(code: seq<Op>, i: nat, n: string)
    requires i < |code| && Fold(n) !in SCOPE_NAMES && n != ""
    ensures ReachesName(code, i, n) <==> Fold(n) in Excludes(code, i)
  {
    assert Fold("local") == "local" by { LocalFolds(); }
    hide Fold, Root;
    EmptyRoot(n);
  }

  lemma {:induction false} EmptyRoot(n: string)
    ensures n != "" ==> Fold(n) != ""
  {
  }

  lemma {:induction false} ExcludedExact(code: seq<Op>, k: nat, n: string)
    requires k <= |code|
    ensures n in Excluded(code, k) <==> exists i :: 0 <= i < k && n in Excludes(code, i)
    decreases k
  {
    hide Excludes;
    if k > 0 {
      ExcludedExact(code, k - 1, n);
    }
  }

  /** A name that can have a slot: none of the reserved scopes, no parameter, reached only by instructions with a slot form. */
  predicate Private(code: seq<Op>, params: seq<string>, n: string) {
    && Fold(n) !in RESERVED
    && (forall i :: 0 <= i < |params| ==> !SameName(params[i], n))
    && (forall i :: 0 <= i < |code| ==> !ReachesName(code, i, n))
  }

  lemma {:induction false} PrivateExact(code: seq<Op>, params: seq<string>, n: string)
    requires n != ""
    ensures Private(code, params, n) <==> Slottable(n, Excluded(code, |code|), params)
  {
    hide Fold, Excluded, Excludes, ReachesName, RESERVED, SCOPE_NAMES;
    ReservedNames(n);
    ExcludedExact(code, |code|, Fold(n));
    if Fold(n) !in SCOPE_NAMES {
      forall i | 0 <= i < |code|
        ensures ReachesName(code, i, n) <==> Fold(n) in Excludes(code, i)
      {
        ReachesNameExact(code, i, n);
      }
    }
  }

  // ---- Exactly these names ----

  lemma {:induction false} DeclaredExact(code: seq<Op>, k: nat, n: string)
    requires k <= |code|
    ensures Among(Declared(code, k), n) <==> exists i :: 0 <= i < k && code[i].Declare? && SameName(code[i].n, n)
    ensures forall d :: d in Declared(code, k) ==> exists i :: 0 <= i < k && code[i] == Declare(d)
    decreases k
  {
    hide Fold;
    if k > 0 {
      DeclaredExact(code, k - 1, n);
      var before := Declared(code, k - 1);
      if code[k - 1].Declare? {
        DeclaredExact(code, k - 1, code[k - 1].n);
        AmongSnoc(before, code[k - 1].n, n);
        if Among(before, code[k - 1].n) && SameName(code[k - 1].n, n) {
          AmongSame(before, code[k - 1].n, n);
        }
      }
    }
  }

  lemma {:induction false} AmongSnoc(names: seq<string>, last: string, n: string)
    ensures Among(names + [last], n) <==> Among(names, n) || SameName(last, n)
  {
    hide Fold;
    var all := names + [last];
    if Among(names, n) {
      var i :| 0 <= i < |names| && SameName(names[i], n);
      assert SameName(all[i], n);
    }
    if SameName(last, n) {
      assert SameName(all[|names|], n);
    }
    if Among(all, n) {
      var i :| 0 <= i < |all| && SameName(all[i], n);
      assert i < |names| ==> SameName(names[i], n);
    }
  }

  lemma {:induction false} AmongSame(names: seq<string>, a: string, b: string)
    requires SameName(a, b) && Among(names, a)
    ensures Among(names, b)
  {
    hide Fold;
    var i :| 0 <= i < |names| && SameName(names[i], a);
    assert SameName(names[i], b);
  }

  /** Until sixty-four are taken, every slottable name is. */
  lemma {:induction false} ChosenAll(declared: seq<string>, excluded: set<string>, params: seq<string>, n: string)
    requires |Chosen(declared, excluded, params)| < MOST_SLOTS
    ensures n in Chosen(declared, excluded, params) <==> n in declared && Slottable(n, excluded, params)
    decreases |declared|
  {
    hide Slottable;
    if declared != [] {
      ChosenAll(declared[..|declared| - 1], excluded, params, n);
    }
  }

  lemma {:induction false} SlottableSame(excluded: set<string>, params: seq<string>, a: string, b: string)
    requires SameName(a, b)
    ensures Slottable(a, excluded, params) == Slottable(b, excluded, params)
  {
    hide Fold;
    if Among(params, a) {
      AmongSame(params, a, b);
    } else if Among(params, b) {
      AmongSame(params, b, a);
    }
  }

  /**
   Exactly which names get slots. In a body with no instruction that sees the frame as a whole, and
   until sixty-four have one: those it declares that are private.
   */
  lemma {:induction false} SlottedExact(code: seq<Op>, params: seq<string>, narrowing: bool, n: string)
    requires n != "" && forall i :: 0 <= i < |code| ==> !SeesAll(code, i, narrowing)
    requires |SlotNames(code, params, narrowing)| < 64
    ensures Among(SlotNames(code, params, narrowing), n) <==>
            Private(code, params, n) && exists i :: 0 <= i < |code| && code[i].Declare? && SameName(code[i].n, n)
  {
    hide Fold, Excluded, Declared, Chosen, Slottable, Private, SeesAll, Disqualifies, SCOPE_NAMES, RESERVED;
    forall i | 0 <= i < |code|
      ensures !Disqualifies(code, i, narrowing)
    {
      SeesAllExact(code, i, narrowing);
    }
    var declared, excluded := Declared(code, |code|), Excluded(code, |code|);
    assert SlotNames(code, params, narrowing) == Chosen(declared, excluded, params);
    PrivateExact(code, params, n);
    DeclaredExact(code, |code|, n);
    ChosenUpToCase(declared, excluded, params, n);
  }

  lemma {:induction false} ChosenUpToCase(declared: seq<string>, excluded: set<string>, params: seq<string>, n: string)
    requires |Chosen(declared, excluded, params)| < MOST_SLOTS
    ensures Among(Chosen(declared, excluded, params), n) <==> Among(declared, n) && Slottable(n, excluded, params)
  {
    hide Fold, Chosen, Slottable;
    var names := Chosen(declared, excluded, params);
    if Among(names, n) {
      var i :| 0 <= i < |names| && SameName(names[i], n);
      ChosenAll(declared, excluded, params, names[i]);
      SlottableSame(excluded, params, names[i], n);
      var j :| 0 <= j < |declared| && declared[j] == names[i];
      assert SameName(declared[j], n);
    }
    if Among(declared, n) && Slottable(n, excluded, params) {
      var j :| 0 <= j < |declared| && SameName(declared[j], n);
      SlottableSame(excluded, params, declared[j], n);
      ChosenAll(declared, excluded, params, declared[j]);
      var i :| 0 <= i < |names| && names[i] == declared[j];
      assert SameName(names[i], n);
    }
  }
}
