/**
 The pass that assigns slots. It scans a body once for instructions that rule
 slots out, for names other instructions reach by name, and for declarations; gives
 the surviving names slots; and rewrites the instructions that name them.
 */
module SlotPass {
  import opened Names
  import opened Slots

  const MOST_SLOTS: nat := 64

  // ---- What one instruction rules out ----

  function FirstLower(path: seq<string>): string { if path == [] then "" else Fold(path[0]) }

  /** The root of a dynamic write whose path was pushed as a literal just before. */
  function LiteralRoot(code: seq<Op>, i: nat): Option<string>
    requires i < |code|
  {
    if i >= 2 && code[i - 2].Const? && code[i - 2].v.Str? && code[i - 1].Swap? then Some(Fold(Root(code[i - 2].v.s))) else None
  }

  predicate Usable(root: string, narrowing: bool) { narrowing && root != "" && root != "local" }

  /** The whole body keeps its by-name instructions. */
  predicate Disqualifies(code: seq<Op>, i: nat, narrowing: bool)
    requires i < |code|
  {
    match code[i]
    case DefineFunction => true
    case Include => true
    case SetScopePath(path) => !Usable(FirstLower(path), narrowing)
    case SetDynamicVar => LiteralRoot(code, i).None? || !Usable(LiteralRoot(code, i).value, narrowing)
    case DeleteScopeKey(n) => Fold(n) == "local"
    case CallLoad(n) => Fold(n) in REFLECTIVE_BUILTINS
    case Load(n) => Fold(n) in REFLECTIVE_BUILTINS
    case TryLoad(n) => Fold(n) in REFLECTIVE_BUILTINS
    case Take(n) => Fold(n) in REFLECTIVE_BUILTINS
    case _ => false
  }

  function PathNames(path: seq<string>): set<string> {
    if path == [] then {}
    else {Fold(path[0])} + if Fold(path[0]) == "local" && |path| > 1 then {Fold(path[1])} else {}
  }

  function RootName(root: string): set<string> { if root in SCOPE_NAMES then {} else {root} }

  /** The names an instruction without a twin reaches by name. */
  function Excludes(code: seq<Op>, i: nat): set<string>
    requires i < |code|
  {
    match code[i]
    case SetScopePath(path) => RootName(FirstLower(path))
    case SetDynamicVar => (match LiteralRoot(code, i) case Some(r) => RootName(r) case None => {})
    case CallLoad(n) => {Fold(n)}
    case StoreGlobal(n) => {Fold(n)}
    case SetLast(n) => {Fold(n)}
    case JumpIfArg(n, _) => {Fold(n)}
    case VariablesKey(n) => {Fold(n)}
    case IsDefined(path) => PathNames(path)
    case WriteBack(path) => PathNames(path)
    case _ => {}
  }

  // ---- The scan ----

  function Excluded(code: seq<Op>, k: nat): set<string>
    requires k <= |code|
  {
    if k == 0 then {} else Excluded(code, k - 1) + Excludes(code, k - 1)
  }

  predicate Among(names: seq<string>, n: string) {
    exists i :: 0 <= i < |names| && SameName(names[i], n)
  }

  /** Declared names in order of first declaration, one spelling each. */
  function Declared(code: seq<Op>, k: nat): seq<string>
    requires k <= |code|
  {
    if k == 0 then []
    else
      var before := Declared(code, k - 1);
      if code[k - 1].Declare? && !Among(before, code[k - 1].n) then before + [code[k - 1].n] else before
  }

  predicate Accepted(code: seq<Op>, narrowing: bool) {
    forall i :: 0 <= i < |code| ==> !Disqualifies(code, i, narrowing)
  }

  predicate Slottable(n: string, excluded: set<string>, params: seq<string>) {
    Fold(n) !in SCOPE_NAMES && Fold(n) !in excluded && !Among(params, n)
  }

  /** The first sixty-four slottable names. */
  function Chosen(declared: seq<string>, excluded: set<string>, params: seq<string>): seq<string> {
    if declared == [] then []
    else
      var before := Chosen(declared[..|declared| - 1], excluded, params);
      var n := declared[|declared| - 1];
      if Slottable(n, excluded, params) && |before| < MOST_SLOTS then before + [n] else before
  }

  function SlotNames(code: seq<Op>, params: seq<string>, narrowing: bool): seq<string> {
    if Accepted(code, narrowing) then Chosen(Declared(code, |code|), Excluded(code, |code|), params) else []
  }

  // ---- The rewrite ----

  predicate HasTwin(op: Op) {
    op.Declare? || op.Load? || op.TryLoad? || op.Store? || op.Step? || op.Mul? || op.JumpCmp? || op.LoopStep? || op.LoadKey?
    || op.TryLoadKey? || op.LoadProp? || op.TryLoadProp? || op.StoreProp? || op.Append? || op.Take?
  }

  function Rewritten1(names: seq<string>, op: Op): (c: Code)
    ensures c.op == op
  {
    if HasTwin(op) && FindSlot(names, op.n).Some? then Slotted(FindSlot(names, op.n).value, op) else Named(op)
  }

  function Rewritten(names: seq<string>, code: seq<Op>): (r: seq<Code>)
    ensures |r| == |code|
    ensures forall i :: 0 <= i < |code| ==> r[i].op == code[i]
  {
    seq(|code|, i requires 0 <= i < |code| => Rewritten1(names, code[i]))
  }

  /** `assign_local_slots`. */
  method AssignLocalSlots(code: seq<Op>, params: seq<string>, narrowing: bool)
    returns (out: seq<Code>, names: seq<string>)
    ensures names == SlotNames(code, params, narrowing)
    ensures out == Rewritten(names, code)
  {
    hide Disqualifies, Excludes, Fold;
    names := [];
    out := AllNamed(code);
    var declared, excluded, ok := Scan(code, narrowing);
    if !ok {
      NoNames(code);
      return;
    }
    names := Filter(declared, excluded, params);
    if names == [] {
      NoNames(code);
      return;
    }
    out := [];
    var i := 0;
    while i < |code|
      invariant 0 <= i <= |code|
      invariant out == Rewritten(names, code)[..i]
    {
      out := out + [Rewritten1(names, code[i])];
      i := i + 1;
    }
    assert Rewritten(names, code)[..i] == Rewritten(names, code);
  }

  method AllNamed(code: seq<Op>) returns (out: seq<Code>)
    ensures |out| == |code| && forall i :: 0 <= i < |code| ==> out[i] == Named(code[i])
  {
    out := seq(|code|, i requires 0 <= i < |code| => Named(code[i]));
  }

  lemma {:induction false} NoNames(code: seq<Op>)
    ensures forall i :: 0 <= i < |code| ==> Rewritten([], code)[i] == Named(code[i])
  {
  }

  /** Pass one; `ok` is false as soon as an instruction disqualifies the body. */
  method Scan(code: seq<Op>, narrowing: bool) returns (declared: seq<string>, excluded: set<string>, ok: bool)
    ensures ok <==> Accepted(code, narrowing)
    ensures ok ==> declared == Declared(code, |code|) && excluded == Excluded(code, |code|)
  {
    hide Disqualifies, Excludes, Fold;
    declared, excluded := [], {};
    var i := 0;
    while i < |code|
      invariant 0 <= i <= |code|
      invariant declared == Declared(code, i) && excluded == Excluded(code, i)
      invariant forall j :: 0 <= j < i ==> !Disqualifies(code, j, narrowing)
    {
      if Disqualifies(code, i, narrowing) {
        return declared, excluded, false;
      }
      excluded := excluded + Excludes(code, i);
      if code[i].Declare? && !Among(declared, code[i].n) {
        declared := declared + [code[i].n];
      }
      i := i + 1;
    }
    ok := true;
  }

  method Filter(declared: seq<string>, excluded: set<string>, params: seq<string>) returns (names: seq<string>)
    ensures names == Chosen(declared, excluded, params)
  {
    hide Fold;
    names := [];
    var i := 0;
    while i < |declared|
      invariant 0 <= i <= |declared|
      invariant names == Chosen(declared[..i], excluded, params)
    {
      assert declared[..i + 1][..i] == declared[..i];
      if |names| >= MOST_SLOTS {
        FullStays(declared, excluded, params, i);
        break;
      }
      if Slottable(declared[i], excluded, params) {
        names := names + [declared[i]];
      }
      i := i + 1;
    }
    if i == |declared| {
      assert declared[..i] == declared;
    }
  }

  lemma {:induction false} FullStays(declared: seq<string>, excluded: set<string>, params: seq<string>, i: nat)
    requires i <= |declared| && |Chosen(declared[..i], excluded, params)| >= MOST_SLOTS
    ensures Chosen(declared, excluded, params) == Chosen(declared[..i], excluded, params)
    decreases |declared|
  {
    hide Slottable;
    if i == |declared| {
      assert declared[..i] == declared;
    } else {
      var front := declared[..|declared| - 1];
      assert front[..i] == declared[..i];
      FullStays(front, excluded, params, i);
    }
  }

  // ---- Which names get slots ----

  predicate DistinctNames(names: seq<string>) {
    forall i, j :: 0 <= i < j < |names| ==> !SameName(names[i], names[j])
  }

  lemma {:induction false} DeclaredDistinct(code: seq<Op>, k: nat)
    requires k <= |code|
    ensures DistinctNames(Declared(code, k))
    decreases k
  {
    hide Fold;
    if k > 0 {
      DeclaredDistinct(code, k - 1);
    }
  }

  lemma {:induction false} ChosenAre(declared: seq<string>, excluded: set<string>, params: seq<string>)
    requires DistinctNames(declared)
    ensures var names := Chosen(declared, excluded, params);
            && DistinctNames(names) && |names| <= MOST_SLOTS
            && forall i :: 0 <= i < |names| ==> Slottable(names[i], excluded, params) && names[i] in declared
    decreases |declared|
  {
    hide Fold, Slottable;
    if declared != [] {
      var front := declared[..|declared| - 1];
      ChosenAre(front, excluded, params);
      var before := Chosen(front, excluded, params);
      forall i | 0 <= i < |before|
        ensures !SameName(before[i], declared[|declared| - 1])
      {
        var j :| 0 <= j < |front| && front[j] == before[i];
        assert declared[j] == front[j];
      }
    }
  }

  /** Slot names are distinct up to case, at most sixty-four, declared, and never a parameter, scope or excluded name. */
  lemma {:induction false} SlotNamesAre(code: seq<Op>, params: seq<string>, narrowing: bool)
    ensures var names := SlotNames(code, params, narrowing);
            && DistinctNames(names) && |names| <= 64
            && forall i :: 0 <= i < |names| ==>
                 Fold(names[i]) !in SCOPE_NAMES && Fold(names[i]) !in Excluded(code, |code|) && !Among(params, names[i])
  {
    hide Accepted, Declared, Excluded, Fold;
    if Accepted(code, narrowing) {
      DeclaredDistinct(code, |code|);
      ChosenAre(Declared(code, |code|), Excluded(code, |code|), params);
    }
  }
}
