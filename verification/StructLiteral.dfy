/**
 Struct literals with dotted keys. The generator merges the pairs into a tree and
 emits nested struct constructions; the meaning is assigning the pairs left to
 right, creating missing intermediate structs. Keys ignore case, and a key keeps its
 first spelling and position.
 */
module StructLiteral {
  import opened Names

  datatype SVal = Atom(id: int) | Struct(fields: seq<Field>)
  datatype Field = Field(key: string, value: SVal)

  /** The generator's tree: a value, or a branch of keyed children. */
  datatype Node = Leaf(v: SVal) | Branch(children: seq<Child>)
  datatype Child = Child(key: string, node: Node)

  datatype Pair = Pair(path: seq<string>, value: SVal)

  // ---- Finding a key ----

  function FindKey(keys: seq<string>, key: string): (r: Option<nat>)
    ensures r.Some? ==> r.value < |keys| && SameName(keys[r.value], key)
    ensures r.Some? ==> forall i :: 0 <= i < r.value ==> !SameName(keys[i], key)
    ensures r.None? ==> forall i :: 0 <= i < |keys| ==> !SameName(keys[i], key)
  {
    if keys == [] then None
    else if SameName(keys[0], key) then Some(0)
    else match FindKey(keys[1..], key)
      case Some(i) => Some(i + 1)
      case None => None
  }

  function FieldKeys(fs: seq<Field>): (r: seq<string>)
    ensures |r| == |fs| && forall i :: 0 <= i < |fs| ==> r[i] == fs[i].key
  {
    seq(|fs|, i requires 0 <= i < |fs| => fs[i].key)
  }

  function ChildKeys(cs: seq<Child>): (r: seq<string>)
    ensures |r| == |cs| && forall i :: 0 <= i < |cs| ==> r[i] == cs[i].key
  {
    seq(|cs|, i requires 0 <= i < |cs| => cs[i].key)
  }

  // ---- Assigning left to right ----

  function Put(fs: seq<Field>, key: string, v: SVal): seq<Field> {
    match FindKey(FieldKeys(fs), key)
    case Some(i) => fs[i := Field(fs[i].key, v)]
    case None => fs + [Field(key, v)]
  }

  /** The struct under `key`, empty when there is none yet. */
  function Sub(fs: seq<Field>, key: string): seq<Field> {
    match FindKey(FieldKeys(fs), key)
    case Some(i) => Inner(fs[i].value)
    case None => []
  }

  function Inner(v: SVal): seq<Field> {
    match v case Struct(fs) => fs case Atom(_) => []
  }

  function SetPath(fs: seq<Field>, path: seq<string>, v: SVal): seq<Field>
    requires path != []
    decreases |path|
  {
    if |path| == 1 then Put(fs, path[0], v)
    else Put(fs, path[0], Struct(SetPath(Sub(fs, path[0]), path[1..], v)))
  }

  function SetAll(pairs: seq<Pair>): seq<Field>
    requires forall i :: 0 <= i < |pairs| ==> pairs[i].path != []
  {
    if pairs == [] then [] else
    var last := pairs[|pairs| - 1];
    SetPath(SetAll(pairs[..|pairs| - 1]), last.path, last.value)
  }

  // ---- The tree ----

  function PutChild(cs: seq<Child>, key: string, n: Node): seq<Child> {
    match FindKey(ChildKeys(cs), key)
    case Some(i) => cs[i := Child(cs[i].key, n)]
    case None => cs + [Child(key, n)]
  }

  /** The branch under `key`; a leaf there is given up. */
  function Below(cs: seq<Child>, key: string): seq<Child> {
    match FindKey(ChildKeys(cs), key)
    case Some(i) => (match cs[i].node case Branch(c) => c case Leaf(_) => [])
    case None => []
  }

  function Insert(cs: seq<Child>, path: seq<string>, v: SVal): seq<Child>
    requires path != []
    decreases |path|
  {
    if |path| == 1 then PutChild(cs, path[0], Leaf(v))
    else PutChild(cs, path[0], Branch(Insert(Below(cs, path[0]), path[1..], v)))
  }

  function InsertAll(pairs: seq<Pair>): seq<Child>
    requires forall i :: 0 <= i < |pairs| ==> pairs[i].path != []
  {
    if pairs == [] then [] else
    var last := pairs[|pairs| - 1];
    Insert(InsertAll(pairs[..|pairs| - 1]), last.path, last.value)
  }

  method Position(cs: seq<Child>, key: string) returns (r: Option<nat>)
    ensures r == FindKey(ChildKeys(cs), key)
  {
    var i := 0;
    while i < |cs|
      invariant 0 <= i <= |cs|
      invariant forall j :: 0 <= j < i ==> !SameName(cs[j].key, key)
    {
      if SameName(cs[i].key, key) {
        return Some(i);
      }
      i := i + 1;
    }
    return None;
  }

  /** `insert_struct_path`. */
  method InsertStructPath(cs: seq<Child>, path: seq<string>, v: SVal) returns (r: seq<Child>)
    requires path != []
    ensures r == Insert(cs, path, v)
    decreases |path|
  {
    var head, rest := path[0], path[1..];
    var existing := Position(cs, head);
    if rest == [] {
      if existing.Some? {
        return cs[existing.value := Child(cs[existing.value].key, Leaf(v))];
      }
      return cs + [Child(head, Leaf(v))];
    }
    if existing.Some? {
      var at := existing.value;
      var c := [];
      if cs[at].node.Branch? {
        c := InsertStructPath(cs[at].node.children, rest, v);
      } else {
        c := InsertStructPath([], rest, v);
      }
      r := cs[at := Child(cs[at].key, Branch(c))];
    } else {
      var c := InsertStructPath([], rest, v);
      r := cs + [Child(head, Branch(c))];
    }
  }

  method BuildTree(pairs: seq<Pair>) returns (root: seq<Child>)
    requires forall i :: 0 <= i < |pairs| ==> pairs[i].path != []
    ensures root == InsertAll(pairs)
  {
    root := [];
    var i := 0;
    while i < |pairs|
      invariant 0 <= i <= |pairs|
      invariant root == InsertAll(pairs[..i])
    {
      assert pairs[..i + 1][..i] == pairs[..i];
      root := InsertStructPath(root, pairs[i].path, pairs[i].value);
      i := i + 1;
    }
    assert pairs[..i] == pairs;
  }

  // ---- What the tree stands for ----

  function ValueOf(n: Node): SVal
    decreases n
  {
    match n case Leaf(v) => v case Branch(cs) => Struct(Build(cs))
  }

  function Build(cs: seq<Child>): (r: seq<Field>)
    ensures |r| == |cs|
    decreases cs
  {
    if cs == [] then [] else [Field(cs[0].key, ValueOf(cs[0].node))] + Build(cs[1..])
  }

  lemma {:induction false} BuildAt(cs: seq<Child>, i: nat)
    requires i < |cs|
    ensures Build(cs)[i] == Field(cs[i].key, ValueOf(cs[i].node))
    decreases |cs|
  {
    if i > 0 {
      BuildAt(cs[1..], i - 1);
    }
  }

  lemma {:induction false} BuildKeys(cs: seq<Child>)
    ensures FieldKeys(Build(cs)) == ChildKeys(cs)
  {
    forall i | 0 <= i < |cs|
      ensures FieldKeys(Build(cs))[i] == ChildKeys(cs)[i]
    {
      BuildAt(cs, i);
    }
  }

  lemma {:induction false} BuildSame(cs: seq<Child>, fs: seq<Field>)
    requires |fs| == |cs| && forall i :: 0 <= i < |cs| ==> fs[i] == Field(cs[i].key, ValueOf(cs[i].node))
    ensures Build(cs) == fs
  {
    forall i | 0 <= i < |cs|
      ensures Build(cs)[i] == fs[i]
    {
      BuildAt(cs, i);
    }
  }

  lemma {:induction false} BuildPut(cs: seq<Child>, key: string, n: Node)
    ensures Build(PutChild(cs, key, n)) == Put(Build(cs), key, ValueOf(n))
  {
    hide Build, ValueOf, FindKey;
    BuildKeys(cs);
    forall i | 0 <= i < |cs|
      ensures Build(cs)[i] == Field(cs[i].key, ValueOf(cs[i].node))
    {
      BuildAt(cs, i);
    }
    BuildLength(cs);
    BuildSame(PutChild(cs, key, n), Put(Build(cs), key, ValueOf(n)));
  }

  lemma {:induction false} BuildLength(cs: seq<Child>)
    ensures |Build(cs)| == |cs|
  {
  }

  lemma {:induction false} PutInjective(fs: seq<Field>, key: string, x: SVal, y: SVal)
    ensures Put(fs, key, x) == Put(fs, key, y) <==> x == y
  {
    var a, b := Put(fs, key, x), Put(fs, key, y);
    var at := match FindKey(FieldKeys(fs), key) case Some(i) => i case None => |fs|;
    assert a[at].value == x && b[at].value == y;
  }

  // ---- When the tree and the assignments agree ----

  /** The struct holds nothing but a chain along the path, so assigning through it leaves nothing of it behind. */
  predicate Absorbed(fs: seq<Field>, path: seq<string>)
    requires path != []
    decreases |path|
  {
    fs == [] || (|fs| == 1 && fs[0].key == path[0] && (|path| == 1 || Absorbed(Inner(fs[0].value), path[1..])))
  }

  lemma {:induction false} SetOnEmpty(path: seq<string>, v: SVal)
    requires path != []
    ensures SetPath([], path, v) == [Field(path[0], if |path| == 1 then v else Struct(SetPath([], path[1..], v)))]
  {
    assert FieldKeys([]) == [];
  }

  lemma {:induction false} AbsorbedExact(fs: seq<Field>, path: seq<string>, v: SVal)
    requires path != []
    ensures SetPath(fs, path, v) == SetPath([], path, v) <==> Absorbed(fs, path)
    decreases |path|
  {
    SetOnEmpty(path, v);
    if |fs| == 1 && fs[0].key == path[0] {
      assert FieldKeys(fs)[0] == path[0];
      assert FindKey(FieldKeys(fs), path[0]) == Some(0);
      var x := if |path| == 1 then v else Struct(SetPath(Inner(fs[0].value), path[1..], v));
      assert SetPath(fs, path, v) == [Field(path[0], x)];
      if |path| > 1 {
        AbsorbedExact(Inner(fs[0].value), path[1..], v);
      }
    } else {
      PutKeeps(fs, path[0], if |path| == 1 then v else Struct(SetPath(Sub(fs, path[0]), path[1..], v)));
      if fs == [] {
        assert Sub(fs, path[0]) == [];
      }
    }
  }

  lemma {:induction false} PutKeeps(fs: seq<Field>, key: string, v: SVal)
    ensures |Put(fs, key, v)| >= |fs|
    ensures forall i :: 0 <= i < |fs| ==> Put(fs, key, v)[i].key == fs[i].key
  {
  }

  lemma {:induction false} FreshInsert(path: seq<string>, v: SVal)
    requires path != []
    ensures Build(Insert([], path, v)) == SetPath([], path, v)
    decreases |path|
  {
    hide Build, PutChild, Put, FindKey;
    EmptyParts(path[0]);
    if |path| == 1 {
      BuildPut([], path[0], Leaf(v));
    } else {
      FreshInsert(path[1..], v);
      BuildPut([], path[0], Branch(Insert([], path[1..], v)));
    }
  }

  lemma {:induction false} EmptyParts(key: string)
    ensures Build([]) == [] && Below([], key) == [] && Sub([], key) == []
  {
  }

  /** The insertion crosses no leaf holding a struct that would have kept something. */
  predicate Harmless(cs: seq<Child>, path: seq<string>)
    requires path != []
    decreases |path|
  {
    |path| == 1 ||
    match FindKey(ChildKeys(cs), path[0])
    case None => true
    case Some(i) =>
      match cs[i].node
      case Branch(c) => Harmless(c, path[1..])
      case Leaf(v) => Absorbed(Inner(v), path[1..])
  }

  lemma {:induction false} SubOfBuild(cs: seq<Child>, key: string)
    ensures Sub(Build(cs), key) ==
            match FindKey(ChildKeys(cs), key)
            case None => []
            case Some(i) => Inner(ValueOf(cs[i].node))
  {
    hide Build, ValueOf, FindKey;
    BuildKeys(cs);
    BuildLength(cs);
    var r := FindKey(ChildKeys(cs), key);
    if r.Some? {
      FoundInside(ChildKeys(cs), key);
      BuildAt(cs, r.value);
    }
  }

  lemma {:induction false} FoundInside(keys: seq<string>, key: string)
    ensures var r := FindKey(keys, key); r.Some? ==> r.value < |keys|
  {
  }

  /** One pair: the tree and the assignment agree exactly when the insertion is harmless. */
  lemma {:induction false} InsertExact(cs: seq<Child>, path: seq<string>, v: SVal)
    requires path != []
    ensures Build(Insert(cs, path, v)) == SetPath(Build(cs), path, v) <==> Harmless(cs, path)
    decreases |path|
  {
    hide Build, PutChild, Put, FindKey, Absorbed;
    if |path| == 1 {
      BuildPut(cs, path[0], Leaf(v));
    } else {
      var rest := path[1..];
      var below := Below(cs, path[0]);
      BuildPut(cs, path[0], Branch(Insert(below, rest, v)));
      SubOfBuild(cs, path[0]);
      var sub := Sub(Build(cs), path[0]);
      PutInjective(Build(cs), path[0], Struct(Build(Insert(below, rest, v))), Struct(SetPath(sub, rest, v)));
      var r := FindKey(ChildKeys(cs), path[0]);
      FoundInside(ChildKeys(cs), path[0]);
      if r.Some? && cs[r.value].node.Branch? {
        InsertExact(below, rest, v);
      } else {
        FreshInsert(rest, v);
        AbsorbedExact(sub, rest, v);
        assert r.None? ==> Absorbed(sub, rest) by { NothingAbsorbed(rest); }
      }
    }
  }

  lemma {:induction false} NothingAbsorbed(path: seq<string>)
    requires path != []
    ensures Absorbed([], path)
  {
  }

  /** A whole literal all of whose insertions are harmless means its assignments. */
  lemma {:induction false} LiteralMeansAssignments(pairs: seq<Pair>)
    requires forall i :: 0 <= i < |pairs| ==> pairs[i].path != []
    requires forall i :: 0 <= i < |pairs| ==> Harmless(InsertAll(pairs[..i]), pairs[i].path)
    ensures Build(InsertAll(pairs)) == SetAll(pairs)
    decreases |pairs|
  {
    hide Build, Insert, SetPath, Harmless;
    if pairs == [] {
      EmptyParts("");
    } else {
      var n := |pairs| - 1;
      forall i | 0 <= i < n
        ensures Harmless(InsertAll(pairs[..n][..i]), pairs[..n][i].path)
      {
        assert pairs[..n][..i] == pairs[..i];
      }
      LiteralMeansAssignments(pairs[..n]);
      InsertExact(InsertAll(pairs[..n]), pairs[n].path, pairs[n].value);
    }
  }

  // ---- Values that are not structs ----

  predicate NoStructs(cs: seq<Child>)
    decreases cs
  {
    cs == [] || (PlainNode(cs[0].node) && NoStructs(cs[1..]))
  }

  predicate PlainNode(n: Node)
    decreases n
  {
    match n case Leaf(v) => v.Atom? case Branch(cs) => NoStructs(cs)
  }

  lemma {:induction false} NoStructsAt(cs: seq<Child>)
    ensures NoStructs(cs) <==> forall i :: 0 <= i < |cs| ==> PlainNode(cs[i].node)
    decreases |cs|
  {
    if cs != [] {
      NoStructsAt(cs[1..]);
      if forall i :: 0 <= i < |cs| ==> PlainNode(cs[i].node) {
        assert forall i :: 0 <= i < |cs[1..]| ==> PlainNode(cs[1..][i].node);
      }
      if NoStructs(cs) {
        forall i | 0 <= i < |cs|
          ensures PlainNode(cs[i].node)
        {
          assert i > 0 ==> cs[i] == cs[1..][i - 1];
        }
      }
    }
  }

  lemma {:induction false} PlainInsert(cs: seq<Child>, path: seq<string>, v: SVal)
    requires path != [] && NoStructs(cs) && v.Atom?
    ensures NoStructs(Insert(cs, path, v)) && Harmless(cs, path)
    decreases |path|
  {
    hide NoStructs, FindKey, Absorbed;
    NoStructsAt(cs);
    FoundInside(ChildKeys(cs), path[0]);
    var n := if |path| == 1 then Leaf(v) else Branch(Insert(Below(cs, path[0]), path[1..], v));
    if |path| > 1 {
      var r := FindKey(ChildKeys(cs), path[0]);
      assert r.Some? ==> PlainNode(cs[r.value].node);
      NoStructsAt([]);
      PlainInsert(Below(cs, path[0]), path[1..], v);
      NothingAbsorbed(path[1..]);
    }
    assert PlainNode(n);
    NoStructsAt(PutChild(cs, path[0], n));
  }

  /** No condition is needed when no value is itself a struct. */
  lemma {:induction false} PlainLiteral(pairs: seq<Pair>)
    requires forall i :: 0 <= i < |pairs| ==> pairs[i].path != [] && pairs[i].value.Atom?
    ensures Build(InsertAll(pairs)) == SetAll(pairs) && NoStructs(InsertAll(pairs))
    decreases |pairs|
  {
    hide Build, Insert, SetPath, Harmless;
    if pairs == [] {
      EmptyParts("");
    } else {
      var n := |pairs| - 1;
      PlainLiteral(pairs[..n]);
      PlainInsert(InsertAll(pairs[..n]), pairs[n].path, pairs[n].value);
      InsertExact(InsertAll(pairs[..n]), pairs[n].path, pairs[n].value);
    }
  }

  /** `{ a = { x: 1 }, a.b = 2 }` loses `x`. */
  lemma {:induction false} StructValueLost()
    ensures var pairs := [Pair(["a"], Struct([Field("x", Atom(1))])), Pair(["a", "b"], Atom(2))];
            Build(InsertAll(pairs)) != SetAll(pairs)
  {
    var p, q := Pair(["a"], Struct([Field("x", Atom(1))])), Pair(["a", "b"], Atom(2));
    var pairs := [p, q];
    assert pairs[..1] == [p] && [p][..0] == [];
    var cs := InsertAll([p]);
    assert cs == [Child("a", Leaf(p.value))] by {
      assert InsertAll([p][..0]) == [] && ChildKeys([]) == [];
      assert Insert([], ["a"], p.value) == PutChild([], "a", Leaf(p.value));
    }
    assert FindKey(ChildKeys(cs), "a") == Some(0) by { assert ChildKeys(cs)[0] == "a"; }
    assert q.path[1..] == ["b"] && !Absorbed([Field("x", Atom(1))], ["b"]);
    assert !Harmless(cs, q.path);
    InsertExact(cs, q.path, q.value);
    PlainStart(p);
    assert SetAll(pairs) == SetPath(SetAll([p]), q.path, q.value);
  }

  lemma {:induction false} PlainStart(p: Pair)
    requires |p.path| == 1
    ensures Build(InsertAll([p])) == SetAll([p])
  {
    assert [p][..0] == [];
    FreshInsert(p.path, p.value);
  }

  // ---- Sibling keys stay distinct ----

  predicate Distinct(keys: seq<string>) {
    forall i, j :: 0 <= i < j < |keys| ==> !SameName(keys[i], keys[j])
  }

  predicate WellKeyed(cs: seq<Child>)
    decreases cs
  {
    Distinct(ChildKeys(cs)) && forall i :: 0 <= i < |cs| ==> WellKeyedNode(cs[i].node)
  }

  predicate WellKeyedNode(n: Node)
    decreases n
  {
    n.Branch? ==> WellKeyed(n.children)
  }

  lemma {:induction false} PutChildKeyed(cs: seq<Child>, key: string, n: Node)
    requires WellKeyed(cs) && WellKeyedNode(n)
    ensures WellKeyed(PutChild(cs, key, n))
  {
    hide WellKeyedNode;
    var r := PutChild(cs, key, n);
    forall i, j | 0 <= i < j < |r|
      ensures !SameName(ChildKeys(r)[i], ChildKeys(r)[j])
    {
      assert j < |cs| ==> !SameName(ChildKeys(cs)[i], ChildKeys(cs)[j]);
    }
    forall i | 0 <= i < |r|
      ensures WellKeyedNode(r[i].node)
    {
      assert i < |cs| ==> WellKeyedNode(cs[i].node);
    }
  }

  /** At every level, no two siblings are the same key. */
  lemma {:induction false} InsertKeyed(cs: seq<Child>, path: seq<string>, v: SVal)
    requires path != [] && WellKeyed(cs)
    ensures WellKeyed(Insert(cs, path, v))
    decreases |path|
  {
    hide PutChild, FindKey;
    FoundInside(ChildKeys(cs), path[0]);
    if |path| == 1 {
      PutChildKeyed(cs, path[0], Leaf(v));
    } else {
      var r := FindKey(ChildKeys(cs), path[0]);
      assert r.Some? ==> WellKeyedNode(cs[r.value].node);
      InsertKeyed(Below(cs, path[0]), path[1..], v);
      PutChildKeyed(cs, path[0], Branch(Insert(Below(cs, path[0]), path[1..], v)));
    }
  }

  lemma {:induction false} TreeKeyed(pairs: seq<Pair>)
    requires forall i :: 0 <= i < |pairs| ==> pairs[i].path != []
    ensures WellKeyed(InsertAll(pairs))
    decreases |pairs|
  {
    hide Insert;
    if pairs != [] {
      TreeKeyed(pairs[..|pairs| - 1]);
      InsertKeyed(InsertAll(pairs[..|pairs| - 1]), pairs[|pairs| - 1].path, pairs[|pairs| - 1].value);
    }
  }

  // ---- The emitted construction ----

  datatype SOp = PushValue(v: SVal) | BuildStatic(keys: seq<string>)

  /** Each child's value in order, then one construction over all of them. */
  function EmitValues(cs: seq<Child>): seq<SOp>
    decreases cs, 0
  {
    if cs == [] then [] else EmitNode(cs[0].node) + EmitValues(cs[1..])
  }

  function EmitNode(n: Node): seq<SOp>
    decreases n, 1
  {
    match n case Leaf(v) => [PushValue(v)] case Branch(cs) => EmitTree(cs)
  }

  function EmitTree(cs: seq<Child>): seq<SOp>
    decreases cs, 1
  {
    EmitValues(cs) + [BuildStatic(ChildKeys(cs))]
  }

  /** `emit_struct_tree`. */
  method EmitStructTree(cs: seq<Child>, ins: seq<SOp>) returns (out: seq<SOp>)
    ensures out == ins + EmitTree(cs)
    decreases cs
  {
    hide EmitNode;
    out := ins;
    var i := 0;
    assert cs[0..] == cs;
    ghost var done: seq<SOp> := [];
    while i < |cs|
      invariant 0 <= i <= |cs|
      invariant out == ins + done && EmitValues(cs) == done + EmitValues(cs[i..])
    {
      ghost var node := EmitNode(cs[i].node);
      assert cs[i..][1..] == cs[i + 1..];
      UnfoldNode(cs[i].node);
      match cs[i].node {
        case Leaf(v) => out := out + [PushValue(v)];
        case Branch(c) =>
          assert cs[i].node < cs[i];
          out := EmitStructTree(c, out);
      }
      assert out == ins + (done + node);
      assert done + (node + EmitValues(cs[i + 1..])) == done + node + EmitValues(cs[i + 1..]);
      done := done + node;
      i := i + 1;
    }
    assert cs[i..] == [];
    out := out + [BuildStatic(ChildKeys(cs))];
  }

  lemma {:induction false} UnfoldNode(n: Node)
    ensures EmitNode(n) == match n case Leaf(v) => [PushValue(v)] case Branch(cs) => EmitTree(cs)
  {
    hide EmitTree;
  }

  /** `BuildStructStatic`: insert key by key into a fresh struct. */
  function FromValues(keys: seq<string>, vs: seq<SVal>): seq<Field>
    requires |keys| == |vs|
  {
    if keys == [] then []
    else Put(FromValues(keys[..|keys| - 1], vs[..|vs| - 1]), keys[|keys| - 1], vs[|vs| - 1])
  }

  function RunOp(op: SOp, stack: seq<SVal>): seq<SVal> {
    match op
    case PushValue(v) => stack + [v]
    case BuildStatic(keys) =>
      if |keys| > |stack| then stack
      else
        var base := |stack| - |keys|;
        stack[..base] + [Struct(FromValues(keys, stack[base..]))]
  }

  function RunOps(ops: seq<SOp>, stack: seq<SVal>): seq<SVal> {
    if ops == [] then stack else RunOps(ops[1..], RunOp(ops[0], stack))
  }

  lemma {:induction false} RunAppend(a: seq<SOp>, b: seq<SOp>, stack: seq<SVal>)
    ensures RunOps(a + b, stack) == RunOps(b, RunOps(a, stack))
    decreases |a|
  {
    if a == [] {
      assert a + b == b;
    } else {
      assert (a + b)[1..] == a[1..] + b;
      RunAppend(a[1..], b, RunOp(a[0], stack));
    }
  }

  /** Distinct keys are appended in order, nothing overwritten. */
  lemma {:induction false} FromDistinct(keys: seq<string>, vs: seq<SVal>)
    requires |keys| == |vs| && Distinct(keys)
    ensures var r := FromValues(keys, vs);
            |r| == |keys| && forall i :: 0 <= i < |keys| ==> r[i] == Field(keys[i], vs[i])
    decreases |keys|
  {
    if keys != [] {
      var n := |keys| - 1;
      assert Distinct(keys[..n]);
      FromDistinct(keys[..n], vs[..n]);
      var front := FromValues(keys[..n], vs[..n]);
      assert forall i :: 0 <= i < n ==> FieldKeys(front)[i] == keys[i];
      assert FindKey(FieldKeys(front), keys[n]).None?;
    }
  }

  function Values(cs: seq<Child>): (r: seq<SVal>)
    ensures |r| == |cs|
  {
    seq(|cs|, i requires 0 <= i < |cs| => ValueOf(cs[i].node))
  }

  lemma {:induction false} ValuesEmitted(cs: seq<Child>, stack: seq<SVal>)
    requires forall i :: 0 <= i < |cs| ==> WellKeyedNode(cs[i].node)
    ensures RunOps(EmitValues(cs), stack) == stack + Values(cs)
    decreases cs, 0
  {
    hide EmitNode, EmitTree, WellKeyedNode, ValueOf;
    if cs == [] {
      assert stack + [] == stack;
    } else {
      NodeEmitted(cs[0].node, stack);
      var rest := cs[1..];
      forall i | 0 <= i < |rest|
        ensures WellKeyedNode(rest[i].node)
      {
        assert rest[i] == cs[i + 1];
      }
      ValuesEmitted(rest, stack + [ValueOf(cs[0].node)]);
      RunAppend(EmitNode(cs[0].node), EmitValues(rest), stack);
      assert stack + [ValueOf(cs[0].node)] + Values(rest) == stack + Values(cs);
    }
  }

  lemma {:induction false} NodeEmitted(n: Node, stack: seq<SVal>)
    requires WellKeyedNode(n)
    ensures RunOps(EmitNode(n), stack) == stack + [ValueOf(n)]
    decreases n, 1
  {
    hide EmitTree;
    if n.Branch? {
      TreeEmitted(n.children, stack);
    } else {
      assert [PushValue(n.v)][1..] == [];
    }
  }

  /** Running the emitted code pushes exactly the struct the tree stands for. */
  lemma {:induction false} TreeEmitted(cs: seq<Child>, stack: seq<SVal>)
    requires WellKeyed(cs)
    ensures RunOps(EmitTree(cs), stack) == stack + [Struct(Build(cs))]
    decreases cs, 1
  {
    hide EmitValues, WellKeyedNode, Build, ValueOf, FromValues;
    ValuesEmitted(cs, stack);
    var keys, vs := ChildKeys(cs), Values(cs);
    var op := BuildStatic(keys);
    RunAppend(EmitValues(cs), [op], stack);
    var full := stack + vs;
    assert [op][1..] == [] && RunOps([op], full) == RunOp(op, full);
    assert full[..|full| - |keys|] == stack && full[|full| - |keys|..] == vs;
    FromDistinct(keys, vs);
    BuildSame(cs, FromValues(keys, vs));
  }

  /** The whole literal: what its code leaves on the stack is what its assignments build. */
  lemma {:induction false} LiteralCode(pairs: seq<Pair>, stack: seq<SVal>)
    requires forall i :: 0 <= i < |pairs| ==> pairs[i].path != []
    requires forall i :: 0 <= i < |pairs| ==> Harmless(InsertAll(pairs[..i]), pairs[i].path)
    ensures RunOps(EmitTree(InsertAll(pairs)), stack) == stack + [Struct(SetAll(pairs))]
  {
    hide RunOps, EmitTree, Build, WellKeyed, Harmless, SetAll;
    TreeKeyed(pairs);
    TreeEmitted(InsertAll(pairs), stack);
    LiteralMeansAssignments(pairs);
  }
}
