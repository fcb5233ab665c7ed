/**
 Placeholder jumps and their patching, construct by construct: the code with
 the placeholders in it, where they are, and what overwriting them yields.
 */
module Patching {
  import opened Names
  import opened Ast
  import opened Shapes
  import opened Semantics
  import opened Machine
  import opened Codegen
  import opened Emitter

  // ---- Flattened `and`/`or` spines ----

  /** The operands of a spine, each followed by a jump to `t`. */
  function OperandsTo(isOr: bool, es: seq<Expr>, at: nat, t: nat): seq<Op> {
    if es == [] then [] else
    var a := CodeE(es[0], at);
    a + [ShortJump(isOr, t)] + OperandsTo(isOr, es[1..], at + |a| + 1, t)
  }

  /** Where those jumps are. */
  function ShortPositions(es: seq<Expr>, at: nat): seq<nat> {
    if es == [] then [] else
    var a := CodeE(es[0], at);
    [at + |a|] + ShortPositions(es[1..], at + |a| + 1)
  }

  lemma {:induction false} OperandsToLength(isOr: bool, es: seq<Expr>, at: nat, t: nat, u: nat)
    ensures |OperandsTo(isOr, es, at, t)| == |OperandsTo(isOr, es, at, u)|
    decreases |es|
  {
    hide CodeE;
    if es != [] {
      OperandsToLength(isOr, es[1..], at + |CodeE(es[0], at)| + 1, t, u);
    }
  }

  lemma {:induction false} OperandsToEnd(isOr: bool, es: seq<Expr>, at: nat, t: nat)
    requires t == at + |OperandsTo(isOr, es, at, t)| + 2
    ensures CodeOperands(isOr, es, at) == OperandsTo(isOr, es, at, t)
    decreases |es|
  {
    hide CodeE;
    if es != [] {
      OperandsToEnd(isOr, es[1..], at + |CodeE(es[0], at)| + 1, t);
    }
  }

  lemma {:induction false} UnfoldOperandsTo(isOr: bool, es: seq<Expr>, at: nat, t: nat)
    ensures es == [] ==> OperandsTo(isOr, es, at, t) == [] && ShortPositions(es, at) == []
    ensures es != [] ==>
              var a := CodeE(es[0], at);
              && OperandsTo(isOr, es, at, t) == a + [ShortJump(isOr, t)] + OperandsTo(isOr, es[1..], at + |a| + 1, t)
              && ShortPositions(es, at) == [at + |a|] + ShortPositions(es[1..], at + |a| + 1)
  {
    hide CodeE, ShortJump;
  }

  lemma {:induction false} OperandsToSnoc(isOr: bool, es: seq<Expr>, e: Expr, at: nat, t: nat)
    ensures var done := OperandsTo(isOr, es, at, t);
            var a := CodeE(e, at + |done|);
            && OperandsTo(isOr, es + [e], at, t) == done + a + [ShortJump(isOr, t)]
            && ShortPositions(es + [e], at) == ShortPositions(es, at) + [at + |done| + |a|]
    decreases |es|
  {
    hide CodeE, ShortJump, OperandsTo, ShortPositions;
    UnfoldOperandsTo(isOr, es, at, t);
    UnfoldOperandsTo(isOr, es + [e], at, t);
    if es == [] {
      assert es + [e] == [e] && [e][1..] == [];
      UnfoldOperandsTo(isOr, [], at + |CodeE(e, at)| + 1, t);
    } else {
      var rest := at + |CodeE(es[0], at)| + 1;
      assert (es + [e])[1..] == es[1..] + [e];
      OperandsToSnoc(isOr, es[1..], e, rest, t);
    }
  }

  lemma {:induction false} FixAppend(a: seq<Op>, b: seq<Op>)
    ensures Fix(a + b) == Fix(a) + Fix(b)
  {
  }

  lemma {:induction false} OperandsDiffer(isOr: bool, es: seq<Expr>, at: nat, t: nat)
    ensures Differ(Fix(OperandsTo(isOr, es, at, 0)), Fix(OperandsTo(isOr, es, at, t)),
                   ShortPositions(es, at), at, ShortJump(isOr, t))
    decreases |es|
  {
    hide CodeE, Fix, Differ;
    if es == [] {
      DifferNone(Fix([]), at, ShortJump(isOr, t));
    } else {
      var op := ShortJump(isOr, t);
      var a := CodeE(es[0], at);
      var rest := at + |a| + 1;
      var x, y := OperandsTo(isOr, es[1..], rest, 0), OperandsTo(isOr, es[1..], rest, t);
      OperandsDiffer(isOr, es[1..], rest, t);
      DifferNone(Fix(a), at, op);
      DifferOne(ShortJump(isOr, 0), op, at + |a|);
      DifferAppend(Fix(a), Fix(a), [], Fix([ShortJump(isOr, 0)]), Fix([op]), [at + |a|], at, op);
      FixAppend(a, [ShortJump(isOr, 0)]);
      FixAppend(a, [op]);
      assert [] + [at + |a|] == [at + |a|];
      DifferAppend(Fix(a + [ShortJump(isOr, 0)]), Fix(a + [op]), [at + |a|], Fix(x), Fix(y), ShortPositions(es[1..], rest), at, op);
      FixAppend(a + [ShortJump(isOr, 0)], x);
      FixAppend(a + [op], y);
    }
  }

  lemma {:induction false} DifferNone(x: seq<Emit>, base: nat, op: Op)
    ensures Differ(x, x, [], base, op)
  {
  }

  lemma {:induction false} PatchedFix(pre: seq<Op>, x: seq<Op>, y: seq<Op>, idx: seq<nat>, op: Op)
    requires Differ(Fix(x), Fix(y), idx, |pre|, op)
    ensures Patched(pre + x, idx, op) == pre + y
  {
    var ins := Patched(pre + x, idx, op);
    forall i | 0 <= i < |ins|
      ensures ins[i] == (pre + y)[i]
    {
      if i >= |pre| {
        assert Fix(x)[i - |pre|] == Fixed(x[i - |pre|]) && Fix(y)[i - |pre|] == Fixed(y[i - |pre|]);
        assert |pre| + (i - |pre|) == i;
      }
    }
  }

  lemma {:induction false} PatchedInside(pre: seq<Op>, x: seq<Op>, y: seq<Op>, post: seq<Op>, idx: seq<nat>, op: Op)
    requires Differ(Fix(x), Fix(y), idx, |pre|, op)
    ensures Patched(pre + x + post, idx, op) == pre + y + post
  {
    hide Fix, Differ, Patched;
    DifferNone(Fix(post), |pre| + |x|, op);
    SameLength(x, y, idx, |pre|, op);
    DifferAppend(Fix(x), Fix(y), idx, Fix(post), Fix(post), [], |pre|, op);
    FixAppend(x, post);
    FixAppend(y, post);
    assert idx + [] == idx;
    PatchedFix(pre, x + post, y + post, idx, op);
    assert pre + x + post == pre + (x + post);
    assert pre + y + post == pre + (y + post);
  }

  lemma {:induction false} SameLength(x: seq<Op>, y: seq<Op>, idx: seq<nat>, base: nat, op: Op)
    requires Differ(Fix(x), Fix(y), idx, base, op)
    ensures |x| == |y| == |Fix(x)|
  {
  }

  lemma {:induction false} PatchedOne(ins: seq<Op>, i: nat, op: Op)
    requires i < |ins|
    ensures Patched(ins, [i], op) == ins[i := op]
  {
  }

  /** The spine's landing code, once both kinds of jump are patched. */
  lemma {:induction false} SpinePatched(pre: seq<Op>, e: Expr)
    requires e.Logic?
    ensures var es := Operands(e.isOr, e);
            var at := |pre|;
            var x := OperandsTo(e.isOr, es, at, 0);
            var pad := at + |x| + 2;
            var ins := pre + x + [Const(Bool(!e.isOr)), Jump(0), Const(Bool(e.isOr))];
            && (forall i :: i in ShortPositions(es, at) ==> i < |ins|)
            && Patched(ins, ShortPositions(es, at), ShortJump(e.isOr, pad))[pad - 1 := Jump(pad + 1)]
            == pre + CodeE(e, at)
  {
    hide Patched, OperandsTo, ShortPositions, CodeOperands, ShortJump, Operands;
    var isOr := e.isOr;
    var es := Operands(isOr, e);
    var at := |pre|;
    var x := OperandsTo(isOr, es, at, 0);
    var pad := at + |x| + 2;
    var y := OperandsTo(isOr, es, at, pad);
    var post := [Const(Bool(!isOr)), Jump(0), Const(Bool(isOr))];
    OperandsToLength(isOr, es, at, 0, pad);
    OperandsToEnd(isOr, es, at, pad);
    OperandsDiffer(isOr, es, at, pad);
    PatchedInside(pre, x, y, post, ShortPositions(es, at), ShortJump(isOr, pad));
    assert (pre + y + post)[pad - 1 := Jump(pad + 1)] == pre + (y + [Const(Bool(!isOr)), Jump(pad + 1), Const(Bool(isOr))]);
  }

  // ---- Expressions ----

  /** The operators a spine runs through: the plain ones, or one of `and`/`or`. */
  predicate OnSpine(kind: Option<bool>, e: Expr) {
    match kind
    case None => e.Bin?
    case Some(isOr) => e.Logic? && e.isOr == isOr
  }

  /** `spine[0]` is `e`, each node's left operand is the next node, and the last one's is `leftmost`. */
  ghost predicate Spine(kind: Option<bool>, spine: seq<Expr>, e: Expr, leftmost: Expr) {
    && spine != [] && spine[0] == e
    && (forall i :: 0 <= i < |spine| ==> OnSpine(kind, spine[i]))
    && (forall i :: 0 <= i < |spine| - 1 ==> spine[i].l == spine[i + 1])
    && spine[|spine| - 1].l == leftmost
  }

  lemma {:induction false} SpineSize(kind: Option<bool>, spine: seq<Expr>, e: Expr, leftmost: Expr, i: nat)
    requires Spine(kind, spine, e, leftmost) && i < |spine|
    ensures SizeE(spine[i]) <= SizeE(e)
    ensures SizeE(spine[i].r) < SizeE(e) && SizeE(leftmost) < SizeE(e)
    decreases |spine|
  {
    if |spine| > 1 {
      SpineSize(kind, spine[1..], e.l, leftmost, if i == 0 then 0 else i - 1);
    }
  }

  /** The node or operand emitted before node `i`. */
  function Below(spine: seq<Expr>, leftmost: Expr, i: nat): Expr {
    if i < |spine| then spine[i] else leftmost
  }

  /** The operands below node `i`, read off the spine. */
  lemma {:induction false} SpineOperands(isOr: bool, spine: seq<Expr>, e: Expr, leftmost: Expr, i: nat)
    requires Spine(Some(isOr), spine, e, leftmost) && i < |spine| && !OnSpine(Some(isOr), leftmost)
    ensures Operands(isOr, leftmost) == [leftmost]
    ensures Operands(isOr, spine[i]) == Operands(isOr, Below(spine, leftmost, i + 1)) + [spine[i].r]
  {
  }

  lemma {:induction false} SpineNode(spine: seq<Expr>, e: Expr, leftmost: Expr, i: nat, at: nat)
    requires Spine(None, spine, e, leftmost) && i < |spine|
    ensures var a := CodeE(Below(spine, leftmost, i + 1), at);
            CodeE(spine[i], at) == a + CodeE(spine[i].r, at + |a|) + [Binary(spine[i].op)]
  {
  }

  // ---- Loops ----

  lemma {:induction false} LoopEnv(g: Gen)
    ensures EnvAt(g.(loops := g.loops + [LoopFrame([], [], true, |g.fins|)])) == InLoop(EnvAt(g))
  {
    RecordedInLoop(g.loops, |g.fins|, 0, []);
  }

  lemma {:induction false} FixedEnv(g0: Gen, g: Gen)
    requires g == g0.(ins := g.ins)
    ensures EnvAt(g) == EnvAt(g0)
  {
  }

  lemma {:induction false} OpsLength(es: seq<Emit>)
    ensures |Ops(es, 0, 0)| == |es|
  {
  }

  lemma {:induction false} NoOps(es: seq<Emit>)
    ensures Fix([]) + es == es
  {
  }

  lemma {:induction false} HolesBound(a: seq<Emit>, at: nat)
    ensures forall i :: i in Holes(a, ToBreak, at) ==> i < at + |a|
    ensures forall i :: i in Holes(a, ToContinue, at) ==> i < at + |a|
  {
    forall i: nat
      ensures i in Holes(a, ToBreak, at) ==> i < at + |a|
      ensures i in Holes(a, ToContinue, at) ==> i < at + |a|
    {
      HolesExact(a, ToBreak, at, i);
      HolesExact(a, ToContinue, at, i);
    }
  }

  lemma {:induction false} CondPatched(pre: seq<Op>, e: Expr, t: nat, post: seq<Op>)
    ensures var idx := |pre| + CondLen(e, |pre|) - 1;
            var ins := pre + CodeCond(e, |pre|, 0) + post;
            && |CodeCond(e, |pre|, 0)| == |CodeCond(e, |pre|, t)| == CondLen(e, |pre|)
            && |pre| <= idx < |ins|
            && ins[idx := Retarget(ins[idx], t)] == pre + CodeCond(e, |pre|, t) + post
  {
    hide CodeCond, CondLen, Retarget;
    CondParts(e, |pre|, t);
  }

  /** A finished loop leaves no hole for the frames outside it. */
  lemma {:induction false} LoopDone(g0: Gen, g: Gen, x: seq<Op>, a: seq<Emit>, y: seq<Op>, brk: nat, cont: nat)
    requires g == g0.(ins := g0.ins + x + Ops(Fill(a, brk, cont), 0, 0) + y)
    ensures Extends(g0, g, Fix(x) + Fill(a, brk, cont) + Fix(y))
  {
    hide Recorded, Fill;
    var f := Fill(a, brk, cont);
    var es := Fix(x) + f + Fix(y);
    FillTwice(a, brk, cont);
    RecordedNothing(g0.loops, |g0.ins|, es);
    assert Ops(es, 0, 0) == x + Ops(f, 0, 0) + y;
  }

  /** A loop guarded by a condition at its top, once the exit jump and both patch lists are patched. */
  lemma {:induction false} CondLoop(g0: Gen, cond: Expr, a: seq<Emit>, post: seq<Op>, end: nat, cont: nat)
    ensures var pre := g0.ins + CodeCond(cond, |g0.ins|, 0);
            var ins := pre + Ops(a, 0, 0) + post;
            var exit := |pre| - 1;
            && |pre| == |g0.ins| + CondLen(cond, |g0.ins|) > |g0.ins|
            && (forall i :: i in Holes(a, ToBreak, |pre|) ==> i < |ins|)
            && (forall i :: i in Holes(a, ToContinue, |pre|) ==> i < |ins|)
            && Extends(g0,
                       g0.(ins := Patched(Patched(ins[exit := Retarget(ins[exit], end)], Holes(a, ToBreak, |pre|), Jump(end)),
                                          Holes(a, ToContinue, |pre|), Jump(cont))),
                       Fix(CodeCond(cond, |g0.ins|, end)) + Fill(a, end, cont) + Fix(post))
  {
    hide Ops, Holes, Patched, Extends, CodeCond, CondLen, Fix, Fill, Retarget;
    var x := CodeCond(cond, |g0.ins|, 0);
    var pre := g0.ins + x;
    var pre' := g0.ins + CodeCond(cond, |g0.ins|, end);
    CondPatched(g0.ins, cond, end, Ops(a, 0, 0) + post);
    assert pre + Ops(a, 0, 0) + post == pre + (Ops(a, 0, 0) + post);
    assert pre' + (Ops(a, 0, 0) + post) == pre' + Ops(a, 0, 0) + post;
    OpsLength(a);
    HolesBound(a, |pre|);
    PatchLoop(pre', a, post, end, cont);
    LoopDone(g0, g0.(ins := pre' + Ops(Fill(a, end, cont), 0, 0) + post), CodeCond(cond, |g0.ins|, end), a, post, end, cont);
  }

  lemma {:induction false} CountedTopParts(k: Counted, body: seq<Stmt>, at: nat, env: Env)
    ensures var a := CodeB(body, at + 1, InLoop(env));
            var end := at + 1 + |a| + 1;
            CodeCountedTop(k, body, at, env) ==
            Fix([JumpCmpFalse(k.name, Wrap32(k.limit), k.cmp, end)]) + Fill(a, end, end - 1)
            + Fix([LoopStep(k.name, Wrap32(k.limit), k.cmp, Wrap32(k.amount), at + 1)])
  {
    hide CodeB, Wrap32, InLoop;
    var a := CodeB(body, at + 1, InLoop(env));
    FixLength([LoopStep(k.name, Wrap32(k.limit), k.cmp, Wrap32(k.amount), at + 1)]);
  }

  // ---- Switch ----

  function Zeros(n: nat): (r: seq<nat>)
    ensures |r| == n
  {
    seq(n, i => 0)
  }

  /** The positions of the dispatch jumps. */
  function DispatchJumps(v: string, cs: seq<Case>, at: nat): (r: seq<nat>)
    ensures |r| == |cs|
  {
    if cs == [] then [] else
    var a := CodeCaseTest(v, cs[0].value, cs[0].more, at);
    [at + |a|] + DispatchJumps(v, cs[1..], at + |a| + 1)
  }

  lemma {:induction false} MoreHead(v: string, more: seq<Expr>, at: nat)
    requires more != []
    ensures var a := [Load(v)] + CodeE(more[0], at + 1) + [Binary(Eq), OrOp];
            CodeMoreTests(v, more, at) == a + CodeMoreTests(v, more[1..], at + |a|)
  {
    hide CodeE;
  }

  lemma {:induction false} NoMoreTests(v: string, at: nat)
    ensures CodeMoreTests(v, [], at) == []
  {
  }

  lemma {:induction false} DispatchHead(v: string, cs: seq<Case>, at: nat)
    requires cs != []
    ensures var a := CodeCaseTest(v, cs[0].value, cs[0].more, at);
            && CodeDispatch(v, cs, Zeros(|cs|), at)
               == a + [JumpIfTrue(0)] + CodeDispatch(v, cs[1..], Zeros(|cs| - 1), at + |a| + 1)
            && DispatchJumps(v, cs, at) == [at + |a|] + DispatchJumps(v, cs[1..], at + |a| + 1)
  {
    hide CodeCaseTest;
    assert Zeros(|cs|)[1..] == Zeros(|cs| - 1) && Zeros(|cs|)[0] == 0;
  }

  lemma {:induction false} DispatchEmpty(v: string, at: nat)
    ensures CodeDispatch(v, [], [], at) == [] && DispatchJumps(v, [], at) == []
    ensures forall zs: seq<nat> :: |zs| == 0 ==> zs == []
  {
  }

  lemma {:induction false} DispatchLength(v: string, cs: seq<Case>, starts: seq<nat>, at: nat)
    requires |starts| == |cs|
    ensures |CodeDispatch(v, cs, starts, at)| == DispatchLen(v, cs, at)
  {
  }

  lemma {:induction false} DispatchDiffer(v: string, cs: seq<Case>, ts: seq<nat>, at: nat, i: nat, t: nat)
    requires |ts| == |cs| && i < |cs|
    ensures Differ(Fix(CodeDispatch(v, cs, ts, at)), Fix(CodeDispatch(v, cs, ts[i := t], at)),
                   [DispatchJumps(v, cs, at)[i]], at, JumpIfTrue(t))
    decreases |cs|
  {
    hide CodeCaseTest, Differ, Fix, DispatchLen;
    var op := JumpIfTrue(t);
    var a := CodeCaseTest(v, cs[0].value, cs[0].more, at);
    var us := ts[i := t];
    var rest := at + |a| + 1;
    var x, y := CodeDispatch(v, cs[1..], ts[1..], rest), CodeDispatch(v, cs[1..], us[1..], rest);
    assert CodeDispatch(v, cs, ts, at) == a + [JumpIfTrue(ts[0])] + x;
    assert CodeDispatch(v, cs, us, at) == a + [JumpIfTrue(us[0])] + y;
    FixAppend(a, [JumpIfTrue(ts[0])]);
    FixAppend(a, [JumpIfTrue(us[0])]);
    FixAppend(a + [JumpIfTrue(ts[0])], x);
    FixAppend(a + [JumpIfTrue(us[0])], y);
    FixLength(a);
    FixLength([JumpIfTrue(ts[0])]);
    if i == 0 {
      assert us[1..] == ts[1..];
      DifferAt(Fix(a), JumpIfTrue(ts[0]), op, Fix(x), at);
    } else {
      assert us[1..] == ts[1..][i - 1 := t] && us[0] == ts[0];
      DispatchDiffer(v, cs[1..], ts[1..], rest, i - 1, t);
      var head := Fix(a + [JumpIfTrue(ts[0])]);
      DifferNone(head, at, op);
      var j := DispatchJumps(v, cs[1..], rest)[i - 1];
      DifferAppend(head, head, [], Fix(x), Fix(y), [j], at, op);
      assert [] + [j] == [j];
    }
  }

  lemma {:induction false} DispatchPatch(v: string, cs: seq<Case>, ts: seq<nat>, at: nat, i: nat, t: nat)
    requires |ts| == |cs| && i < |cs|
    ensures Differ(Fix(CodeDispatch(v, cs, ts, at) + [Jump(0)]), Fix(CodeDispatch(v, cs, ts[i := t], at) + [Jump(0)]),
                   [DispatchJumps(v, cs, at)[i]], at, JumpIfTrue(t))
  {
    hide CodeDispatch, DispatchLen, Differ, Fix, DispatchJumps;
    DispatchDiffer(v, cs, ts, at, i, t);
    FixAppend(CodeDispatch(v, cs, ts, at), [Jump(0)]);
    FixAppend(CodeDispatch(v, cs, ts[i := t], at), [Jump(0)]);
    DifferTail(Fix(CodeDispatch(v, cs, ts, at)), Fix(CodeDispatch(v, cs, ts[i := t], at)), [DispatchJumps(v, cs, at)[i]],
               Fix([Jump(0)]), at, JumpIfTrue(t));
  }

  lemma {:induction false} NothingAfter(es: seq<Emit>)
    ensures es + [] == es
  {
  }

  lemma {:induction false} StartHead(cs: seq<Case>, at: nat, env: Env)
    requires cs != []
    ensures var s := Starts(cs, at, env);
            s[0] == at && s[1..] == Starts(cs[1..], at + |CodeB(cs[0].body, at, env)|, env)
    ensures SizeCases(cs) == 1 + SizeB(cs[0].body) + SizeCases(cs[1..])
  {
    hide CodeB, SizeB;
  }

  lemma {:induction false} CasesHead(cs: seq<Case>, def: OptBlock, at: nat, env: Env)
    requires cs != []
    ensures var a := CodeB(cs[0].body, at, env);
            CodeB(FallThrough(cs, def), at, env) == a + CodeB(FallThrough(cs[1..], def), at + |a|, env)
  {
    hide CodeB;
    CodeAppend(cs[0].body, FallThrough(cs[1..], def), at, env);
  }

  lemma {:induction false} FallThroughEnd(def: OptBlock, at: nat, env: Env)
    ensures FallThrough([], def) == BodyOf(def) && Starts([], at, env) == [at]
  {
  }

  lemma {:induction false} SwitchEnv(g: Gen)
    ensures EnvAt(g.(loops := g.loops + [LoopFrame([], [], false, |g.fins|)])) == InSwitch(EnvAt(g))
  {
    RecordedInSwitch(g.loops, |g.fins|, 0, []);
  }

  lemma {:induction false} SwitchFrames(ls: seq<LoopFrame>, depth: nat, at: nat, x: seq<Op>, a: seq<Emit>, t: nat)
    ensures var b := at + |x|;
            var inner := Recorded(ls + [LoopFrame([], [], false, depth)], at, Fix(x) + a);
            && |inner| == |ls| + 1
            && inner[|ls|].breaks == Holes(a, ToBreak, b)
            && inner[..|ls|] == Recorded(ls, at, Fix(x) + FillBreak(a, t))
  {
    hide Recorded, AddContinues, Holes, FillBreak;
    var b := at + |x|;
    var frame := LoopFrame([], [], false, depth);
    FixLength(x);
    NoHolesInFix(x);
    RecordedAppend(ls + [frame], at, Fix(x), a);
    RecordedNothing(ls + [frame], at, Fix(x));
    RecordedInSwitch(ls, depth, b, a);
    RecordedAppend(ls, at, Fix(x), FillBreak(a, t));
    RecordedNothing(ls, at, Fix(x));
    RecordedFilled(ls, b, a, t);
    AddedSame(ls, Holes(a, ToContinue, b));
  }

  lemma {:induction false} NoHolesInFix(x: seq<Op>)
    ensures ToBreak !in Fix(x) && ToContinue !in Fix(x)
  {
  }

  lemma {:induction false} AddedSame(ls: seq<LoopFrame>, idx: seq<nat>)
    ensures |AddContinues(ls, idx)| == |ls|
  {
  }

  lemma {:induction false} SwitchOps(pre: seq<Op>, x: seq<Op>, a: seq<Emit>)
    ensures pre + Ops(Fix(x) + a, 0, 0) == pre + x + Ops(a, 0, 0) && |Ops(a, 0, 0)| == |a|
  {
    assert Ops(Fix(x) + a, 0, 0) == x + Ops(a, 0, 0);
  }

  /** What is on the stacks when the last body of a switch has been emitted. */
  lemma {:induction false} SwitchEnded(g1: Gen, depth: nat, g: Gen, x: seq<Op>, a: seq<Emit>)
    requires Extends(g1.(loops := g1.loops + [LoopFrame([], [], false, depth)]), g, Fix(x) + a)
    ensures var b := |g1.ins| + |x|;
            && |g.ins| == b + |a| && |g.loops| == |g1.loops| + 1
            && g.loops[|g.loops| - 1].breaks == Holes(a, ToBreak, b)
            && Extends(g1, Gen(Patched(g.ins, Holes(a, ToBreak, b), Jump(b + |a|)), g.loops[..|g.loops| - 1], g.fins),
                       Fix(x) + FillBreak(a, b + |a|))
  {
    hide Patched, Recorded, Holes, Ops, Fix, FillBreak;
    var b := |g1.ins| + |x|;
    SwitchFrames(g1.loops, depth, |g1.ins|, x, a, b + |a|);
    SwitchOps(g1.ins, x, a);
    SwitchOps(g1.ins, x, FillBreak(a, b + |a|));
    PatchSwitch(g1.ins + x, a, b + |a|);
  }

  lemma {:induction false} SwitchCode(on: Expr, cases: seq<Case>, def: OptBlock, at: nat, env: Env)
    ensures var e := CodeE(on, at);
            var v := SwitchVar(at + |e|);
            var head := e + [Declare(v), StoreVar(v)];
            var d := at + |head|;
            var b := d + DispatchLen(v, cases, d) + 1;
            var starts := Starts(cases, b, InSwitch(env));
            var a := CodeB(FallThrough(cases, def), b, InSwitch(env));
            CodeSwitch(on, cases, def, at, env)
            == Fix(head) + (Fix(CodeDispatch(v, cases, starts[..|cases|], d) + [Jump(starts[|cases|])]) + FillBreak(a, b + |a|))
  {
    hide CodeE, CodeB, CodeDispatch, Starts, FallThrough, DispatchLen, SwitchVar, InSwitch, Fix, FillBreak, SizeCases, SizeOpt, SizeFins;
    var e := CodeE(on, at);
    var v := SwitchVar(at + |e|);
    var head := e + [Declare(v), StoreVar(v)];
    var d := at + |e| + 2;
    var b := d + DispatchLen(v, cases, d) + 1;
    var starts := Starts(cases, b, InSwitch(env));
    var disp := CodeDispatch(v, cases, starts[..|cases|], d) + [Jump(starts[|cases|])];
    assert e + [Declare(v), StoreVar(v)] + CodeDispatch(v, cases, starts[..|cases|], d) + [Jump(starts[|cases|])] == head + disp;
    FixAppend(head, disp);
    var a := CodeB(FallThrough(cases, def), b, InSwitch(env));
    assert Fix(head) + Fix(disp) + FillBreak(a, b + |a|) == Fix(head) + (Fix(disp) + FillBreak(a, b + |a|));
  }

  // ---- Try ----

  lemma {:induction false} BlockSize(fin: OptBlock)
    requires fin.Block?
    ensures SizeOpt(fin) == 1 + SizeB(fin.ss)
  {
  }

  lemma {:induction false} GuardedEnv(g: Gen, fin: OptBlock)
    ensures var fins := if fin.Block? then g.fins + [fin.ss] else g.fins;
            EnvAt(g.(fins := fins)) == Within1(EnvAt(g), fin) && Within1(EnvAt(g), fin).fins == fins
  {
  }

  lemma {:induction false} GuardedFins(g: Gen, fin: OptBlock)
    ensures var fins := Within1(EnvAt(g), fin).fins;
            if fin.Block? then fins != [] && fins[..|fins| - 1] == g.fins else fins == g.fins
  {
  }

  lemma {:induction false} InnerEnv(g0: Gen, g: Gen, fin: OptBlock, inner: seq<seq<Stmt>>)
    requires EnvAt(g) == EnvAt(g0) && inner == Within1(EnvAt(g0), fin).fins
    ensures EnvAt(g.(fins := inner)) == Within1(EnvAt(g0), fin)
  {
  }

  lemma {:induction false} OuterFins(g: Gen, g': Gen, es: seq<Emit>, fins: seq<seq<Stmt>>)
    requires Extends(g, g', es)
    ensures Extends(g.(fins := fins), g'.(fins := fins), es) && g'.fins == g.fins
  {
  }

  lemma {:induction false} WithinSize(g: Gen, fin: OptBlock)
    ensures SizeFins(Within1(EnvAt(g), fin).fins) == SizeFins(g.fins) + SizeOpt(fin)
  {
  }

  function TryHead(body: seq<Stmt>, fin: OptBlock, at: nat, env: Env, handler: nat): seq<Emit> {
    Fix([TryStart(handler)]) + CodeB(body, at + 1, Within1(env, fin)) + Fix([TryEnd])
  }

  lemma {:induction false} TryHeadLength(body: seq<Stmt>, fin: OptBlock, at: nat, env: Env, handler: nat)
    ensures |TryHead(body, fin, at, env, handler)| == |TryHead(body, fin, at, env, 0)|
  {
    hide CodeB, Within1;
  }

  lemma {:induction false} HeadPatch(g0: Gen, g: Gen, body: seq<Stmt>, fin: OptBlock, handler: nat, rest: seq<Emit>)
    requires Extends(g0, g, TryHead(body, fin, |g0.ins|, EnvAt(g0), 0) + rest)
    ensures |g0.ins| < |g.ins|
    ensures |TryHead(body, fin, |g0.ins|, EnvAt(g0), 0)| == |TryHead(body, fin, |g0.ins|, EnvAt(g0), handler)|
    ensures Extends(g0, g.(ins := g.ins[|g0.ins| := TryStart(handler)]),
                    TryHead(body, fin, |g0.ins|, EnvAt(g0), handler) + rest)
  {
    hide CodeB, Within1, EnvAt, Extends, Patched, Differ;
    var at := |g0.ins|;
    var a := CodeB(body, at + 1, Within1(EnvAt(g0), fin)) + Fix([TryEnd]) + rest;
    var x, y := TryHead(body, fin, at, EnvAt(g0), 0) + rest, TryHead(body, fin, at, EnvAt(g0), handler) + rest;
    assert x == [] + Fix([TryStart(0)]) + a;
    assert y == [] + Fix([TryStart(handler)]) + a;
    DifferAt([], TryStart(0), TryStart(handler), a, at);
    ExtendsDiffer(g0, g, x, y, [at], TryStart(handler));
    ExtendsEnv(g0, g, x);
    PatchedOne(g.ins, at, TryStart(handler));
  }

  lemma {:induction false} JumpPatch(g0: Gen, g: Gen, a: seq<Emit>, b: seq<Emit>, t: nat)
    requires Extends(g0, g, a + Fix([Jump(0)]) + b)
    ensures |g0.ins| + |a| < |g.ins|
    ensures Extends(g0, g.(ins := Patched(g.ins, [|g0.ins| + |a|], Jump(t))), a + Fix([Jump(t)]) + b)
  {
    hide Extends, Patched, Differ;
    DifferAt(a, Jump(0), Jump(t), b, |g0.ins|);
    ExtendsDiffer(g0, g, a + Fix([Jump(0)]) + b, a + Fix([Jump(t)]) + b, [|g0.ins| + |a|], Jump(t));
    ExtendsEnv(g0, g, a + Fix([Jump(0)]) + b);
  }

  lemma {:induction false} TryFinallyCode(body: seq<Stmt>, fin: OptBlock, at: nat, env: Env)
    requires fin.Block?
    ensures var a0 := TryHead(body, fin, at, env, 0);
            var f := CodeB(fin.ss, at + |a0|, env);
            var handler := at + |a0| + |f| + 1;
            var h := CodeRethrow(fin, handler, env);
            && |TryHead(body, fin, at, env, handler)| == |a0|
            && CodeTry(body, [], fin, at, env) ==
               TryHead(body, fin, at, env, handler) + f + Fix([Jump(handler + |h|)]) + h
  {
    hide CodeB, CodeRethrow, Within1;
  }

  /** One clause with the target of its final jump given. */
  function ClauseTo(c: Catch, at: nat, env: Env, t: nat): seq<Emit> {
    var a := CodeB(c.body, at + 4, env);
    Fix(ClauseHead(c, at + 4 + |a| + 1)) + a + Fix([Jump(t)])
  }

  function ClausesTo(cs: seq<Catch>, at: nat, env: Env, t: nat): seq<Emit> {
    if cs == [] then [] else
    var a := ClauseTo(cs[0], at, env, t);
    a + ClausesTo(cs[1..], at + |a|, env, t)
  }

  /** The positions of the clauses' final jumps. */
  function ClauseEnds(cs: seq<Catch>, at: nat, env: Env): seq<nat> {
    if cs == [] then [] else
    var a := ClauseTo(cs[0], at, env, 0);
    [at + |a| - 1] + ClauseEnds(cs[1..], at + |a|, env)
  }

  lemma {:induction false} ClausePatch(g0: Gen, g: Gen, c: Catch, tail: seq<Emit>, next: nat)
    requires Extends(g0, g, Fix(ClauseHead(c, 0)) + tail)
    ensures |g0.ins| + 1 < |g.ins|
    ensures Extends(g0, g.(ins := Patched(g.ins, [|g0.ins| + 1], JumpIfFalse(next))), Fix(ClauseHead(c, next)) + tail)
  {
    hide Extends, Patched, Differ, ClauseType;
    var x, y := Fix(ClauseHead(c, 0)) + tail, Fix(ClauseHead(c, next)) + tail;
    var head := Fix([CatchMatch(ClauseType(c))]);
    var rest := Fix([Declare(c.name), StoreVar(c.name)]) + tail;
    assert x == head + Fix([JumpIfFalse(0)]) + rest;
    assert y == head + Fix([JumpIfFalse(next)]) + rest;
    DifferAt(head, JumpIfFalse(0), JumpIfFalse(next), rest, |g0.ins|);
    ExtendsDiffer(g0, g, x, y, [|g0.ins| + 1], JumpIfFalse(next));
    ExtendsEnv(g0, g, x);
  }

  lemma {:induction false} NoClauses(at: nat, env: Env)
    ensures ClausesTo([], at, env, 0) == [] && ClauseEnds([], at, env) == []
  {
  }

  lemma {:induction false} ClauseToDiffer(c: Catch, at: nat, env: Env, t: nat)
    ensures |ClauseTo(c, at, env, t)| == |ClauseTo(c, at, env, 0)| >= 1
    ensures Differ(ClauseTo(c, at, env, 0), ClauseTo(c, at, env, t), [at + |ClauseTo(c, at, env, 0)| - 1], at, Jump(t))
  {
    hide CodeB, Differ, ClauseHead;
    var a := CodeB(c.body, at + 4, env);
    var head := Fix(ClauseHead(c, at + 4 + |a| + 1)) + a;
    DifferAt(head, Jump(0), Jump(t), [], at);
    assert head + Fix([Jump(0)]) + [] == head + Fix([Jump(0)]);
    assert head + Fix([Jump(t)]) + [] == head + Fix([Jump(t)]);
  }

  lemma {:induction false} ClausesToSnoc(cs: seq<Catch>, c: Catch, at: nat, env: Env, t: nat)
    ensures var done := ClausesTo(cs, at, env, t);
            var a := ClauseTo(c, at + |done|, env, t);
            && ClausesTo(cs + [c], at, env, t) == done + a
            && (t == 0 ==> ClauseEnds(cs + [c], at, env) == ClauseEnds(cs, at, env) + [at + |done| + |a| - 1])
    decreases |cs|
  {
    hide ClauseTo;
    if cs == [] {
      assert [c][1..] == [];
    } else {
      assert (cs + [c])[1..] == cs[1..] + [c];
      ClausesToSnoc(cs[1..], c, at + |ClauseTo(cs[0], at, env, t)|, env, t);
    }
  }

  lemma {:induction false} ClausesDiffer(cs: seq<Catch>, at: nat, env: Env, t: nat)
    ensures Differ(ClausesTo(cs, at, env, 0), ClausesTo(cs, at, env, t), ClauseEnds(cs, at, env), at, Jump(t))
    decreases |cs|
  {
    hide ClauseTo, Differ;
    if cs == [] {
      DifferNone([], at, Jump(t));
    } else {
      var a, b := ClauseTo(cs[0], at, env, 0), ClauseTo(cs[0], at, env, t);
      ClauseToDiffer(cs[0], at, env, t);
      ClausesDiffer(cs[1..], at + |a|, env, t);
      DifferAppend(a, b, [at + |a| - 1], ClausesTo(cs[1..], at + |a|, env, 0), ClausesTo(cs[1..], at + |a|, env, t),
                   ClauseEnds(cs[1..], at + |a|, env), at, Jump(t));
    }
  }

  lemma {:induction false} DifferInside(head: seq<Emit>, x: seq<Emit>, y: seq<Emit>, idx: seq<nat>, tail: seq<Emit>, base: nat, op: Op)
    requires Differ(x, y, idx, base + |head|, op)
    ensures Differ(head + x + tail, head + y + tail, idx, base, op)
  {
    hide Differ;
    DifferNone(head, base, op);
    DifferAppend(head, head, [], x, y, idx, base, op);
    assert [] + idx == idx;
    DifferTail(head + x, head + y, idx, tail, base, op);
  }

  lemma {:induction false} CatchSizes(cs: seq<Catch>, i: nat)
    requires i < |cs|
    ensures SizeB(cs[i].body) < SizeCatches(cs)
  {
    hide SizeB;
    if i > 0 {
      CatchSizes(cs[1..], i - 1);
    }
  }

  lemma {:induction false} UnfoldClauses(cs: seq<Catch>, fin: OptBlock, at: nat, env: Env)
    ensures cs == [] ==> CodeClauses(cs, fin, at, env) == Fix([Pop]) + CodeRethrow(fin, at + 1, env)
    ensures cs != [] ==>
              var next := at + |ClauseTo(cs[0], at, Within1(env, fin), 0)|;
              var rest := CodeClauses(cs[1..], fin, next, env);
              CodeClauses(cs, fin, at, env) == ClauseTo(cs[0], at, Within1(env, fin), next + |rest|) + rest
  {
    hide CodeB, CodeRethrow, Within1;
  }

  lemma {:induction false} ClausesToWhole(cs: seq<Catch>, fin: OptBlock, at: nat, env: Env, end: nat)
    requires var cl := ClausesTo(cs, at, Within1(env, fin), end);
             end == at + |cl| + 1 + |CodeRethrow(fin, at + |cl| + 1, env)|
    ensures var cl := ClausesTo(cs, at, Within1(env, fin), end);
            CodeClauses(cs, fin, at, env) == cl + (Fix([Pop]) + CodeRethrow(fin, at + |cl| + 1, env))
    decreases |cs|
  {
    hide CodeB, CodeRethrow, Within1, CodeClauses, ClauseTo, Differ, Fix;
    UnfoldClauses(cs, fin, at, env);
    FixLength([Pop]);
    if cs != [] {
      ClauseToDiffer(cs[0], at, Within1(env, fin), end);
      ClausesToWhole(cs[1..], fin, at + |ClauseTo(cs[0], at, Within1(env, fin), end)|, env, end);
    }
  }

  lemma {:induction false} TryCatchCode(body: seq<Stmt>, catches: seq<Catch>, fin: OptBlock, at: nat, env: Env, end: nat)
    requires catches != [] || fin.Absent?
    requires var handler := at + |TryHead(body, fin, at, env, 0)| + 1;
             var cl := ClausesTo(catches, handler, Within1(env, fin), end);
             end == handler + |cl| + 1 + |CodeRethrow(fin, handler + |cl| + 1, env)|
    ensures var handler := at + |TryHead(body, fin, at, env, 0)| + 1;
            var cl := ClausesTo(catches, handler, Within1(env, fin), end);
            var tail := Fix([Pop]) + CodeRethrow(fin, handler + |cl| + 1, env);
            CodeTry(body, catches, fin, at, env) ==
            TryHead(body, fin, at, env, handler) + Fix([Jump(end)]) + cl + tail + CodeB(BodyOf(fin), end, env)
  {
    hide CodeB, CodeTry, CodeRethrow, Within1, CodeClauses, ClausesTo, BodyOf, TryHead, Fix;
    var handler := at + |TryHead(body, fin, at, env, 0)| + 1;
    var cl := ClausesTo(catches, handler, Within1(env, fin), end);
    var tail := Fix([Pop]) + CodeRethrow(fin, handler + |cl| + 1, env);
    ClausesToWhole(catches, fin, handler, env, end);
    FixLength([Pop]);
    UnfoldTryCatch(body, catches, fin, at, env);
    var a := TryHead(body, fin, at, env, handler) + Fix([Jump(end)]);
    assert a + (cl + tail) == a + cl + tail;
  }

  lemma {:induction false} UnfoldTryCatch(body: seq<Stmt>, catches: seq<Catch>, fin: OptBlock, at: nat, env: Env)
    requires catches != [] || fin.Absent?
    ensures var handler := at + |TryHead(body, fin, at, env, 0)| + 1;
            var h := CodeClauses(catches, fin, handler, env);
            CodeTry(body, catches, fin, at, env) ==
            TryHead(body, fin, at, env, handler) + Fix([Jump(handler + |h|)]) + h + CodeB(BodyOf(fin), handler + |h|, env)
  {
    hide CodeB, Within1, CodeClauses, BodyOf;
    var handler := at + |TryHead(body, fin, at, env, 0)| + 1;
    var h := CodeClauses(catches, fin, handler, env);
    var a := Fix([TryStart(handler)]) + CodeB(body, at + 1, Within1(env, fin));
    assert Fix([TryEnd, Jump(handler + |h|)]) == Fix([TryEnd]) + Fix([Jump(handler + |h|)]);
    assert a + (Fix([TryEnd]) + Fix([Jump(handler + |h|)])) == a + Fix([TryEnd]) + Fix([Jump(handler + |h|)]);
  }

  lemma {:induction false} RecordedNone(at: nat, es: seq<Emit>)
    ensures Recorded([], at, es) == []
  {
  }

  // ---- Conditionals ----

  /** One arm with the target of its final jump given. */
  function ArmTo(cond: Expr, body: seq<Stmt>, at: nat, env: Env, t: nat): seq<Emit> {
    var n := CondLen(cond, at);
    var a := CodeB(body, at + n, env);
    Fix(CodeCond(cond, at, at + n + |a| + 1)) + a + Fix([Jump(t)])
  }

  lemma {:induction false} ArmParts(cond: Expr, body: seq<Stmt>, at: nat, env: Env)
    ensures |Fix(CodeCond(cond, at, 0))| == CondLen(cond, at) && |Fix([Jump(0)])| == 1
  {
    hide CodeCond, CondLen;
  }

  function ArmsTo(arms: seq<Arm>, at: nat, env: Env, t: nat): seq<Emit> {
    if arms == [] then [] else
    var a := ArmTo(arms[0].cond, arms[0].body, at, env, t);
    a + ArmsTo(arms[1..], at + |a|, env, t)
  }

  /** The positions of the arms' final jumps. */
  function ArmEnds(arms: seq<Arm>, at: nat, env: Env): seq<nat> {
    if arms == [] then [] else
    var a := ArmTo(arms[0].cond, arms[0].body, at, env, 0);
    [at + |a| - 1] + ArmEnds(arms[1..], at + |a|, env)
  }

  lemma {:induction false} ArmToLength(cond: Expr, body: seq<Stmt>, at: nat, env: Env, t: nat)
    ensures |ArmTo(cond, body, at, env, t)| == |ArmTo(cond, body, at, env, 0)| >= 1
    ensures Differ(ArmTo(cond, body, at, env, 0), ArmTo(cond, body, at, env, t),
                   [at + |ArmTo(cond, body, at, env, 0)| - 1], at, Jump(t))
  {
    hide CodeB, CodeCond, CondLen, Differ;
    var n := CondLen(cond, at);
    var a := CodeB(body, at + n, env);
    var head := Fix(CodeCond(cond, at, at + n + |a| + 1)) + a;
    DifferAt(head, Jump(0), Jump(t), [], at);
    assert head + Fix([Jump(0)]) + [] == head + Fix([Jump(0)]);
    assert head + Fix([Jump(t)]) + [] == head + Fix([Jump(t)]);
  }

  lemma {:induction false} FirstArm(cond: Expr, body: seq<Stmt>, at: nat, env: Env)
    ensures ArmsTo([Arm(cond, body)], at, env, 0) == ArmTo(cond, body, at, env, 0)
    ensures ArmEnds([Arm(cond, body)], at, env) == [at + |ArmTo(cond, body, at, env, 0)| - 1]
  {
    hide ArmTo;
    assert [Arm(cond, body)][1..] == [];
  }

  lemma {:induction false} ArmsToLength(arms: seq<Arm>, at: nat, env: Env, t: nat, u: nat)
    ensures |ArmsTo(arms, at, env, t)| == |ArmsTo(arms, at, env, u)|
    decreases |arms|
  {
    hide ArmTo;
    if arms != [] {
      ArmToLength(arms[0].cond, arms[0].body, at, env, t);
      ArmToLength(arms[0].cond, arms[0].body, at, env, u);
      ArmsToLength(arms[1..], at + |ArmTo(arms[0].cond, arms[0].body, at, env, t)|, env, t, u);
    }
  }

  lemma {:induction false} ArmsToSnoc(arms: seq<Arm>, arm: Arm, at: nat, env: Env, t: nat)
    ensures var done := ArmsTo(arms, at, env, t);
            var a := ArmTo(arm.cond, arm.body, at + |done|, env, t);
            ArmsTo(arms + [arm], at, env, t) == done + a
    ensures t == 0 ==>
              var done := ArmsTo(arms, at, env, 0);
              var a := ArmTo(arm.cond, arm.body, at + |done|, env, 0);
              ArmEnds(arms + [arm], at, env) == ArmEnds(arms, at, env) + [at + |done| + |a| - 1]
    decreases |arms|
  {
    hide ArmTo;
    if arms == [] {
      assert [arm][1..] == [];
    } else {
      var a := ArmTo(arms[0].cond, arms[0].body, at, env, t);
      assert (arms + [arm])[1..] == arms[1..] + [arm];
      ArmsToSnoc(arms[1..], arm, at + |a|, env, t);
    }
  }

  lemma {:induction false} ArmsDiffer(arms: seq<Arm>, at: nat, env: Env, t: nat)
    ensures Differ(ArmsTo(arms, at, env, 0), ArmsTo(arms, at, env, t), ArmEnds(arms, at, env), at, Jump(t))
    decreases |arms|
  {
    hide ArmTo, Differ;
    if arms == [] {
      DifferNone([], at, Jump(t));
    } else {
      var a := ArmTo(arms[0].cond, arms[0].body, at, env, 0);
      var b := ArmTo(arms[0].cond, arms[0].body, at, env, t);
      ArmToLength(arms[0].cond, arms[0].body, at, env, t);
      ArmsDiffer(arms[1..], at + |a|, env, t);
      DifferAppend(a, b, [at + |a| - 1], ArmsTo(arms[1..], at + |a|, env, 0), ArmsTo(arms[1..], at + |a|, env, t),
                   ArmEnds(arms[1..], at + |a|, env), at, Jump(t));
    }
  }

  lemma {:induction false} UnfoldCodeArms(arms: seq<Arm>, els: OptBlock, at: nat, env: Env)
    ensures arms == [] ==> CodeArms(arms, els, at, env) == CodeB(BodyOf(els), at, env)
    ensures arms != [] ==>
              var next := at + |ArmTo(arms[0].cond, arms[0].body, at, env, 0)|;
              var rest := CodeArms(arms[1..], els, next, env);
              CodeArms(arms, els, at, env) == ArmTo(arms[0].cond, arms[0].body, at, env, next + |rest|) + rest
  {
    hide CodeB, CodeCond, CondLen, BodyOf, SizeB, SizeOpt, SizeFins;
    if arms != [] {
      ArmParts(arms[0].cond, arms[0].body, at, env);
    }
  }

  lemma {:induction false} ArmsToWhole(arms: seq<Arm>, els: OptBlock, at: nat, env: Env, end: nat)
    requires end == at + |ArmsTo(arms, at, env, end)| + |CodeB(BodyOf(els), at + |ArmsTo(arms, at, env, end)|, env)|
    ensures CodeArms(arms, els, at, env)
         == ArmsTo(arms, at, env, end) + CodeB(BodyOf(els), at + |ArmsTo(arms, at, env, end)|, env)
    decreases |arms|
  {
    hide CodeB, CodeArms, ArmTo, BodyOf, Differ;
    UnfoldCodeArms(arms, els, at, env);
    if arms == [] {
      NothingBefore(CodeB(BodyOf(els), at, env));
    } else {
      var a := ArmTo(arms[0].cond, arms[0].body, at, env, end);
      ArmToLength(arms[0].cond, arms[0].body, at, env, end);
      ArmsToWhole(arms[1..], els, at + |a|, env, end);
      var rest := ArmsTo(arms[1..], at + |a|, env, end);
      assert a + (rest + CodeB(BodyOf(els), at + |a + rest|, env)) == a + rest + CodeB(BodyOf(els), at + |a + rest|, env);
    }
  }

  lemma {:induction false} NothingBefore(es: seq<Emit>)
    ensures [] + es == es
  {
  }

  lemma {:induction false} IfIsArms(cond: Expr, thn: seq<Stmt>, elifs: seq<Arm>, els: OptBlock, at: nat, env: Env)
    requires elifs != [] || els.Block?
    ensures CodeIf(cond, thn, elifs, els, at, env) == CodeArms([Arm(cond, thn)] + elifs, els, at, env)
  {
    hide CodeB, CodeCond, CondLen, BodyOf;
    var arms := [Arm(cond, thn)] + elifs;
    assert arms[1..] == elifs && arms[0] == Arm(cond, thn);
  }

  lemma {:induction false} ArmSizes(arms: seq<Arm>, i: nat)
    requires i < |arms|
    ensures SizeB(arms[i].body) < SizeArms(arms)
  {
    hide SizeB;
    if i > 0 {
      ArmSizes(arms[1..], i - 1);
    }
  }

  lemma {:induction false} ElseSize(els: OptBlock)
    ensures SizeB(BodyOf(els)) <= SizeOpt(els)
  {
  }

  lemma {:induction false} DifferTail(x: seq<Emit>, y: seq<Emit>, idx: seq<nat>, b: seq<Emit>, base: nat, op: Op)
    requires Differ(x, y, idx, base, op)
    ensures Differ(x + b, y + b, idx, base, op)
  {
    hide Differ;
    DifferNone(b, base + |x|, op);
    DifferAppend(x, y, idx, b, b, [], base, op);
    assert idx + [] == idx;
  }

  lemma {:induction false} DifferBounds(x: seq<Emit>, y: seq<Emit>, idx: seq<nat>, base: nat, op: Op)
    requires Differ(x, y, idx, base, op)
    ensures |x| == |y| && forall i :: i in idx ==> i < base + |x|
  {
  }

  /** Patching the exit jump of a condition at the start of the emitted code. */
  lemma {:induction false} ExtendsCond(g0: Gen, g: Gen, e: Expr, t: nat, b: seq<Emit>)
    requires Extends(g0, g, Fix(CodeCond(e, |g0.ins|, 0)) + b)
    ensures var idx := |g0.ins| + CondLen(e, |g0.ins|) - 1;
            && |g0.ins| <= idx < |g.ins|
            && Extends(g0, g.(ins := g.ins[idx := Retarget(g.ins[idx], t)]), Fix(CodeCond(e, |g0.ins|, t)) + b)
  {
    hide Extends, Differ, CodeE, Patched;
    var at := |g0.ins|;
    var n := CondLen(e, at) - 1;
    var x, y := CodeCond(e, at, 0), CodeCond(e, at, t);
    CondParts(e, at, t);
    ExtendsEnv(g0, g, Fix(x) + b);
    ExtendsOp(g0, g, Fix(x) + b, n);
    DifferAt(Fix(x[..n]), x[n], y[n], [], at);
    assert Fix(x) == Fix(x[..n]) + Fix([x[n]]) + [];
    assert Fix(y) == Fix(x[..n]) + Fix([y[n]]) + [];
    DifferTail(Fix(x), Fix(y), [at + n], b, at, y[n]);
    ExtendsDiffer(g0, g, Fix(x) + b, Fix(y) + b, [at + n], y[n]);
    PatchedOne(g.ins, at + n, y[n]);
  }

  lemma {:induction false} CondParts(e: Expr, at: nat, t: nat)
    ensures var n := CondLen(e, at) - 1;
            var x, y := CodeCond(e, at, 0), CodeCond(e, at, t);
            && n >= 0 && |x| == |y| == n + 1 && x[..n] == y[..n] && y[n] == Retarget(x[n], t)
  {
    hide CodeE;
  }

  lemma {:induction false} ExtendsOp(g0: Gen, g: Gen, es: seq<Emit>, i: nat)
    requires Extends(g0, g, es) && i < |es|
    ensures |g0.ins| + i < |g.ins| && g.ins[|g0.ins| + i] == OpOf(es[i], 0, 0)
  {
  }

  // ---- Jumps ----

  lemma {:induction false} DetachedEnv(g: Gen)
    ensures EnvAt(g).fins == g.fins && EnvAt(g.(fins := [])) == Detached(EnvAt(g))
    ensures Detached(EnvAt(g)).fins == []
  {
  }

  lemma {:induction false} UnwindHead(fins: seq<seq<Stmt>>, at: nat, env: Env)
    requires env.fins == [] && fins != []
    ensures var a := CodeB(fins[|fins| - 1], at, env);
            CodeUnwind(fins, at, env) == a + CodeUnwind(fins[..|fins| - 1], at + |a|, env)
    ensures SizeFins(fins) == SizeFins(fins[..|fins| - 1]) + SizeB(fins[|fins| - 1]) + 1
  {
    hide CodeB, SizeB;
  }

  lemma {:induction false} EmptyUnwind(at: nat, env: Env)
    requires env.fins == []
    ensures CodeUnwind([], at, env) == []
  {
  }

  lemma {:induction false} NoFins()
    ensures SizeFins([]) == 0
  {
  }

  lemma {:induction false} FixLength(ops: seq<Op>)
    ensures |Fix(ops)| == |ops|
  {
  }

  lemma {:induction false} ExtendsShape(g0: Gen, g: Gen, es: seq<Emit>)
    requires Extends(g0, g, es)
    ensures |g.loops| == |g0.loops| && LoopIndex(g.loops) == LoopIndex(g0.loops)
  {
    hide Recorded, LoopIndex;
    RecordedShape(g0.loops, |g0.ins|, es, g0.fins);
    SameLoopIndex(g0.loops, g.loops);
  }

  lemma {:induction false} NotedBreak(g: Gen, g': Gen)
    requires g.loops != []
    requires g' == g.(ins := g.ins + [Jump(0)], loops := AddBreaks(g.loops, [|g.ins|]))
    ensures Extends(g, g', [ToBreak])
  {
    assert Holes([ToBreak], ToBreak, |g.ins|) == [|g.ins|] + Holes([], ToBreak, |g.ins| + 1);
    NoHoles([ToBreak], ToContinue, |g.ins|);
    assert Ops([ToBreak], 0, 0) == [Jump(0)];
    assert forall s: seq<nat> :: s + [] == s;
  }

  lemma {:induction false} NotedContinue(g: Gen, g': Gen, i: nat)
    requires LoopIndex(g.loops) == Some(i)
    requires g' == g.(ins := g.ins + [Jump(0)],
                      loops := g.loops[i := g.loops[i].(continues := g.loops[i].continues + [|g.ins|])])
    ensures Extends(g, g', [ToContinue])
  {
    hide LoopIndex;
    assert Holes([ToContinue], ToContinue, |g.ins|) == [|g.ins|] + Holes([], ToContinue, |g.ins| + 1);
    NoHoles([ToContinue], ToBreak, |g.ins|);
    assert Ops([ToContinue], 0, 0) == [Jump(0)];
    assert forall s: seq<nat> :: s + [] == s;
    assert AddBreaks(g.loops, []) == g.loops;
  }

  // ---- Plain statements ----

  predicate IsPlain(s: Stmt) { s.Text? || s.Do1? || s.Assign? || s.VarDecl? || s.Throw? }

  function VarOps(x: string, init: Option<Expr>, at: nat): seq<Op> {
    match init
    case None => [Declare(x), Const(Null), StoreVar(x)]
    case Some(e) => [Declare(x)] + CodeStore(x, e, at + 1)
  }

  function ThrowOps(msg: Option<Expr>, at: nat): seq<Op> {
    match msg
    case None => [Const(DEFAULT_MESSAGE), ThrowOp]
    case Some(e) => CodeE(e, at) + [ThrowOp]
  }

  function PlainOps(s: Stmt, at: nat): seq<Op>
    requires IsPlain(s)
  {
    match s
    case Text(text) => [WriteText(text)]
    case Do1(step) => CodeStep(step, at)
    case Assign(x, aop, e) => CodeAssign(x, aop, e, at)
    case VarDecl(x, init) => VarOps(x, init, at)
    case Throw(msg) => ThrowOps(msg, at)
  }

  lemma {:induction false} PlainCode(s: Stmt, at: nat, env: Env)
    requires IsPlain(s)
    ensures CodeBody(s, at, env) == Fix(PlainOps(s, at))
  {
    hide CodeStep, CodeAssign, CodeStore, CodeE, Fix;
  }

  function Retarget(op: Op, t: nat): Op {
    match op
    case JumpIfFalse(_) => JumpIfFalse(t)
    case JumpCmpFalse(name, k, cmp, _) => JumpCmpFalse(name, k, cmp, t)
    case _ => op
  }

  // ---- Blocks ----

  lemma {:induction false} BlockHead(ss: seq<Stmt>, at: nat, env: Env)
    requires ss != []
    ensures var a := CodeS(ss[0], at, env);
            CodeB(ss, at, env) == a + CodeB(ss[1..], at + |a|, env)
    ensures SizeB(ss) == SizeS(ss[0]) + SizeB(ss[1..])
  {
    hide CodeS, SizeS;
  }

  lemma {:induction false} EmptyBlock(at: nat, env: Env)
    ensures CodeB([], at, env) == []
  {
  }

  lemma {:induction false} SameFins(g0: Gen, g: Gen, es: seq<Emit>)
    requires Extends(g0, g, es)
    ensures g.fins == g0.fins
  {
  }

  lemma {:induction false} SpineBounds(kind: Option<bool>, spine: seq<Expr>, e: Expr, leftmost: Expr)
    requires Spine(kind, spine, e, leftmost)
    ensures spine != [] && spine[0] == e && SizeE(leftmost) < SizeE(e)
  {
    SpineSize(kind, spine, e, leftmost, 0);
  }

  lemma {:induction false} SpineAt(kind: Option<bool>, spine: seq<Expr>, e: Expr, leftmost: Expr, i: nat)
    requires Spine(kind, spine, e, leftmost) && i < |spine|
    ensures OnSpine(kind, spine[i])
  {
  }

  lemma {:induction false} FirstOperand(isOr: bool, e: Expr, at: nat)
    ensures OperandsTo(isOr, [e], at, 0) == CodeE(e, at) + [ShortJump(isOr, 0)]
    ensures ShortPositions([e], at) == [at + |CodeE(e, at)|]
  {
    assert [e][1..] == [];
  }
}
