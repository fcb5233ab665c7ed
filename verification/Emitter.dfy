/**
 The code generator as it runs: a growing instruction vector, a stack of loop and
 switch frames holding the positions of unpatched jumps, and a stack of pending
 `finally` bodies. Every method is proved to emit exactly the sequence that
 `Codegen` gives for its argument and to leave on the frames exactly the
 positions of the holes that are still open.
 */
module Emitter {
  import opened Names
  import opened Ast
  import opened Machine
  import opened Codegen

  /** `loop_stack` entry: jumps to patch, whether `continue` may target it, and the `finally` depth outside it. */
  datatype LoopFrame = LoopFrame(breaks: seq<nat>, continues: seq<nat>, isLoop: bool, finallyDepth: nat)

  /** The generator's state as a value. */
  datatype Gen = Gen(ins: seq<Op>, loops: seq<LoopFrame>, fins: seq<seq<Stmt>>)

  // ---- Open holes ----

  /** Positions of one kind of hole in code placed at `at`, in order. */
  function Holes(es: seq<Emit>, hole: Emit, at: nat): seq<nat> {
    if es == [] then []
    else (if es[0] == hole then [at] else []) + Holes(es[1..], hole, at + 1)
  }

  lemma {:induction false} UnfoldHoles(es: seq<Emit>, hole: Emit, at: nat)
    ensures es == [] ==> Holes(es, hole, at) == []
    ensures es != [] ==> Holes(es, hole, at) == (if es[0] == hole then [at] else []) + Holes(es[1..], hole, at + 1)
  {
  }

  lemma {:induction false} HolesAppend(a: seq<Emit>, b: seq<Emit>, hole: Emit, at: nat)
    ensures Holes(a + b, hole, at) == Holes(a, hole, at) + Holes(b, hole, at + |a|)
    decreases |a|
  {
    hide Holes;
    UnfoldHoles(a, hole, at);
    if a == [] {
      assert a + b == b;
    } else {
      UnfoldHoles(a + b, hole, at);
      assert (a + b)[1..] == a[1..] + b;
      HolesAppend(a[1..], b, hole, at + 1);
    }
  }

  lemma {:induction false} HolesExact(es: seq<Emit>, hole: Emit, at: nat, i: nat)
    ensures i in Holes(es, hole, at) <==> at <= i < at + |es| && es[i - at] == hole
    decreases |es|
  {
    if es != [] {
      var here: seq<nat> := if es[0] == hole then [at] else [];
      var rest := Holes(es[1..], hole, at + 1);
      assert Holes(es, hole, at) == here + rest;
      HolesExact(es[1..], hole, at + 1, i);
      assert i in here + rest <==> i in here || i in rest;
      if i > at && i < at + |es| {
        assert es[1..][i - (at + 1)] == es[i - at];
      }
    }
  }

  lemma {:induction false} NoHoles(es: seq<Emit>, hole: Emit, at: nat)
    requires hole !in es
    ensures Holes(es, hole, at) == []
  {
    if es != [] {
      assert es[0] != hole;
      NoHoles(es[1..], hole, at + 1);
    }
  }

  // ---- Frames ----

  /** The innermost frame that is a loop. */
  function LoopIndex(ls: seq<LoopFrame>): (r: Option<nat>)
    ensures r.Some? ==> r.value < |ls|
  {
    if ls == [] then None
    else if ls[|ls| - 1].isLoop then Some(|ls| - 1)
    else LoopIndex(ls[..|ls| - 1])
  }

  function EnvOf(ls: seq<LoopFrame>, fins: seq<seq<Stmt>>): Env {
    Env(fins,
        if ls == [] then None else Some(ls[|ls| - 1].finallyDepth),
        match LoopIndex(ls) case None => None case Some(i) => Some(ls[i].finallyDepth))
  }

  function EnvAt(g: Gen): Env { EnvOf(g.loops, g.fins) }

  function AddBreaks(ls: seq<LoopFrame>, idx: seq<nat>): (r: seq<LoopFrame>)
    ensures |r| == |ls|
  {
    if ls == [] then ls else
    var top := ls[|ls| - 1];
    ls[|ls| - 1 := top.(breaks := top.breaks + idx)]
  }

  function AddContinues(ls: seq<LoopFrame>, idx: seq<nat>): (r: seq<LoopFrame>)
    ensures |r| == |ls|
  {
    match LoopIndex(ls)
    case None => ls
    case Some(i) => ls[i := ls[i].(continues := ls[i].continues + idx)]
  }

  /** The frames after emitting `es` at `at`: each open hole noted where it will be patched. */
  function Recorded(ls: seq<LoopFrame>, at: nat, es: seq<Emit>): seq<LoopFrame> {
    AddContinues(AddBreaks(ls, Holes(es, ToBreak, at)), Holes(es, ToContinue, at))
  }

  /** Same frames but for their patch lists. */
  ghost predicate SameShape(ls: seq<LoopFrame>, ls': seq<LoopFrame>) {
    && |ls| == |ls'|
    && forall i :: 0 <= i < |ls| ==> ls[i].isLoop == ls'[i].isLoop && ls[i].finallyDepth == ls'[i].finallyDepth
  }

  lemma {:induction false} SameLoopIndex(ls: seq<LoopFrame>, ls': seq<LoopFrame>)
    requires SameShape(ls, ls')
    ensures LoopIndex(ls) == LoopIndex(ls')
    decreases |ls|
  {
    if ls != [] {
      SameLoopIndex(ls[..|ls| - 1], ls'[..|ls| - 1]);
    }
  }

  lemma {:induction false} RecordedShape(ls: seq<LoopFrame>, at: nat, es: seq<Emit>, fins: seq<seq<Stmt>>)
    ensures SameShape(ls, Recorded(ls, at, es))
    ensures EnvOf(Recorded(ls, at, es), fins) == EnvOf(ls, fins)
  {
    SameLoopIndex(ls, Recorded(ls, at, es));
  }

  lemma {:induction false} AddBreaksTwice(ls: seq<LoopFrame>, a: seq<nat>, b: seq<nat>)
    ensures AddBreaks(AddBreaks(ls, a), b) == AddBreaks(ls, a + b)
  {
    if ls != [] {
      var top := ls[|ls| - 1];
      assert top.breaks + a + b == top.breaks + (a + b);
    }
  }

  lemma {:induction false} AddContinuesTwice(ls: seq<LoopFrame>, a: seq<nat>, b: seq<nat>)
    ensures AddContinues(AddContinues(ls, a), b) == AddContinues(ls, a + b)
  {
    SameLoopIndex(ls, AddContinues(ls, a));
    var i := LoopIndex(ls);
    if i.Some? {
      assert ls[i.value].continues + a + b == ls[i.value].continues + (a + b);
    }
  }

  lemma {:induction false} AddSwap(ls: seq<LoopFrame>, c: seq<nat>, b: seq<nat>)
    ensures AddBreaks(AddContinues(ls, c), b) == AddContinues(AddBreaks(ls, b), c)
  {
    SameLoopIndex(ls, AddBreaks(ls, b));
  }

  lemma {:induction false} RecordedAppend(ls: seq<LoopFrame>, at: nat, a: seq<Emit>, b: seq<Emit>)
    ensures Recorded(Recorded(ls, at, a), at + |a|, b) == Recorded(ls, at, a + b)
  {
    hide AddBreaks, AddContinues;
    var ab, ac := Holes(a, ToBreak, at), Holes(a, ToContinue, at);
    var bb, bc := Holes(b, ToBreak, at + |a|), Holes(b, ToContinue, at + |a|);
    HolesAppend(a, b, ToBreak, at);
    HolesAppend(a, b, ToContinue, at);
    AddSwap(AddBreaks(ls, ab), ac, bb);
    AddBreaksTwice(ls, ab, bb);
    AddContinuesTwice(AddBreaks(ls, ab + bb), ac, bc);
  }

  lemma {:induction false} RecordedNothing(ls: seq<LoopFrame>, at: nat, es: seq<Emit>)
    requires ToBreak !in es && ToContinue !in es
    ensures Recorded(ls, at, es) == ls
  {
    NoHoles(es, ToBreak, at);
    NoHoles(es, ToContinue, at);
    assert forall s: seq<nat> :: s + [] == s;
  }

  // ---- Emitting ----

  /** From `g0` to `g` exactly `es` was emitted. */
  ghost predicate Extends(g0: Gen, g: Gen, es: seq<Emit>) {
    && g.ins == g0.ins + Ops(es, 0, 0)
    && g.loops == Recorded(g0.loops, |g0.ins|, es)
    && g.fins == g0.fins
  }

  lemma {:induction false} ExtendsThen(g0: Gen, g1: Gen, g2: Gen, a: seq<Emit>, b: seq<Emit>)
    requires Extends(g0, g1, a) && Extends(g1, g2, b)
    ensures Extends(g0, g2, a + b) && |g2.ins| == |g1.ins| + |b|
  {
    hide Recorded;
    RecordedAppend(g0.loops, |g0.ins|, a, b);
    assert Ops(a + b, 0, 0) == Ops(a, 0, 0) + Ops(b, 0, 0);
  }

  lemma {:induction false} ExtendsEnv(g0: Gen, g: Gen, es: seq<Emit>)
    requires Extends(g0, g, es)
    ensures EnvAt(g) == EnvAt(g0) && |g.ins| == |g0.ins| + |es|
  {
    hide Recorded, EnvOf;
    RecordedShape(g0.loops, |g0.ins|, es, g0.fins);
  }

  lemma {:induction false} ExtendsFix(g0: Gen, g: Gen, ops: seq<Op>)
    requires g == g0.(ins := g0.ins + ops)
    ensures Extends(g0, g, Fix(ops))
  {
    hide Recorded;
    RecordedNothing(g0.loops, |g0.ins|, Fix(ops));
    assert Ops(Fix(ops), 0, 0) == ops;
  }

  lemma {:induction false} ExtendsNothing(g: Gen)
    ensures Extends(g, g, [])
  {
    hide Recorded;
    RecordedNothing(g.loops, |g.ins|, []);
    assert g.ins + Ops([], 0, 0) == g.ins;
  }

  // ---- Patching a frame's jumps ----

  /** The instructions at `idx` overwritten. */
  function Patched(ins: seq<Op>, idx: seq<nat>, op: Op): (r: seq<Op>)
    ensures |r| == |ins|
  {
    seq(|ins|, i requires 0 <= i < |ins| => if i in idx then op else ins[i])
  }

  /** `y` is `x` with the fixed instructions at `idx` replaced by `op`. */
  ghost predicate Differ(x: seq<Emit>, y: seq<Emit>, idx: seq<nat>, base: nat, op: Op) {
    && |x| == |y|
    && (forall i :: i in idx ==> base <= i < base + |x|)
    && forall i :: 0 <= i < |x| ==> if base + i in idx then x[i].Fixed? && y[i] == Fixed(op) else y[i] == x[i]
  }

  lemma {:induction false} DifferAppend(x: seq<Emit>, y: seq<Emit>, a: seq<nat>, x': seq<Emit>, y': seq<Emit>, b: seq<nat>, base: nat, op: Op)
    requires Differ(x, y, a, base, op) && Differ(x', y', b, base + |x|, op)
    ensures Differ(x + x', y + y', a + b, base, op)
  {
    forall i | 0 <= i < |x + x'|
      ensures var u, v := (x + x')[i], (y + y')[i];
              if base + i in a + b then u.Fixed? && v == Fixed(op) else v == u
    {
      assert base + i in a + b <==> base + i in a || base + i in b;
    }
  }

  lemma {:induction false} DifferOne(op0: Op, op: Op, base: nat)
    ensures Differ(Fix([op0]), Fix([op]), [base], base, op)
  {
  }

  /** One replaced instruction in the middle of otherwise equal code. */
  lemma {:induction false} DifferAt(a: seq<Emit>, op0: Op, op: Op, b: seq<Emit>, base: nat)
    ensures Differ(a + Fix([op0]) + b, a + Fix([op]) + b, [base + |a|], base, op)
  {
    DifferAppend(a, a, [], Fix([op0]), Fix([op]), [base + |a|], base, op);
    DifferAppend(a + Fix([op0]), a + Fix([op]), [base + |a|], b, b, [], base, op);
  }

  lemma {:induction false} ExtendsDiffer(g0: Gen, g: Gen, es: seq<Emit>, es': seq<Emit>, idx: seq<nat>, op: Op)
    requires Extends(g0, g, es) && Differ(es, es', idx, |g0.ins|, op)
    ensures Extends(g0, g.(ins := Patched(g.ins, idx, op)), es')
  {
    hide AddBreaks, AddContinues, Holes;
    SameHoles(es, es', ToBreak, |g0.ins|);
    SameHoles(es, es', ToContinue, |g0.ins|);
    var ins := Patched(g.ins, idx, op);
    forall i | 0 <= i < |ins|
      ensures ins[i] == (g0.ins + Ops(es', 0, 0))[i]
    {
      if i >= |g0.ins| {
        assert g.ins[i] == OpOf(es[i - |g0.ins|], 0, 0);
        assert (|g0.ins| + (i - |g0.ins|)) == i;
      }
    }
    assert ins == g0.ins + Ops(es', 0, 0);
  }

  lemma {:induction false} PatchHoles(pre: seq<Op>, a: seq<Emit>, post: seq<Op>, idx: seq<nat>, hole: Emit, t: nat)
    requires hole == ToBreak || hole == ToContinue
    requires forall i: nat :: i in idx <==> |pre| <= i < |pre| + |a| && a[i - |pre|] == hole
    ensures hole == ToBreak ==> Patched(pre + Ops(a, 0, 0) + post, idx, Jump(t)) == pre + Ops(FillBreak(a, t), 0, 0) + post
    ensures hole == ToContinue ==> Patched(pre + Ops(a, 0, 0) + post, idx, Jump(t)) == pre + Ops(FillContinue(a, t), 0, 0) + post
  {
    var ins := pre + Ops(a, 0, 0) + post;
    var b := if hole == ToBreak then FillBreak(a, t) else FillContinue(a, t);
    var want := pre + Ops(b, 0, 0) + post;
    forall i: nat | i < |ins|
      ensures Patched(ins, idx, Jump(t))[i] == want[i]
    {
      if |pre| <= i < |pre| + |a| {
        assert ins[i] == OpOf(a[i - |pre|], 0, 0) && want[i] == OpOf(b[i - |pre|], 0, 0);
      }
    }
    assert Patched(ins, idx, Jump(t)) == want;
  }

  /** Both patch lists of a loop frame, applied around its body. */
  lemma {:induction false} PatchLoop(pre: seq<Op>, a: seq<Emit>, post: seq<Op>, brk: nat, cont: nat)
    ensures Patched(Patched(pre + Ops(a, 0, 0) + post, Holes(a, ToBreak, |pre|), Jump(brk)),
                    Holes(a, ToContinue, |pre|), Jump(cont))
         == pre + Ops(Fill(a, brk, cont), 0, 0) + post
  {
    hide Patched, Fill;
    forall i: nat
      ensures i in Holes(a, ToBreak, |pre|) <==> |pre| <= i < |pre| + |a| && a[i - |pre|] == ToBreak
      ensures i in Holes(a, ToContinue, |pre|) <==> |pre| <= i < |pre| + |a| && a[i - |pre|] == ToContinue
    {
      HolesExact(a, ToBreak, |pre|, i);
      HolesExact(a, ToContinue, |pre|, i);
    }
    PatchHoles(pre, a, post, Holes(a, ToBreak, |pre|), ToBreak, brk);
    PatchHoles(pre, FillBreak(a, brk), post, Holes(a, ToContinue, |pre|), ToContinue, cont);
    assert Fill(a, brk, cont) == FillContinue(FillBreak(a, brk), cont) by {
      FillTwice(a, brk, cont);
    }
  }

  lemma {:induction false} FillTwice(a: seq<Emit>, brk: nat, cont: nat)
    ensures Fill(a, brk, cont) == FillContinue(FillBreak(a, brk), cont)
    ensures ToBreak !in Fill(a, brk, cont) && ToContinue !in Fill(a, brk, cont)
  {
  }

  lemma {:induction false} PatchSwitch(pre: seq<Op>, a: seq<Emit>, brk: nat)
    ensures Patched(pre + Ops(a, 0, 0), Holes(a, ToBreak, |pre|), Jump(brk)) == pre + Ops(FillBreak(a, brk), 0, 0)
  {
    hide Patched;
    forall i: nat
      ensures i in Holes(a, ToBreak, |pre|) <==> |pre| <= i < |pre| + |a| && a[i - |pre|] == ToBreak
    {
      HolesExact(a, ToBreak, |pre|, i);
    }
    PatchHoles(pre, a, [], Holes(a, ToBreak, |pre|), ToBreak, brk);
    assert pre + Ops(a, 0, 0) + [] == pre + Ops(a, 0, 0);
    assert pre + Ops(FillBreak(a, brk), 0, 0) + [] == pre + Ops(FillBreak(a, brk), 0, 0);
  }

  // ---- Frames around a body ----

  /** A loop frame collects every hole of its body. */
  lemma {:induction false} RecordedInLoop(ls: seq<LoopFrame>, depth: nat, at: nat, a: seq<Emit>)
    ensures Recorded(ls + [LoopFrame([], [], true, depth)], at, a)
         == ls + [LoopFrame(Holes(a, ToBreak, at), Holes(a, ToContinue, at), true, depth)]
    ensures EnvOf(ls + [LoopFrame([], [], true, depth)], []).brk == Some(depth)
    ensures EnvOf(ls + [LoopFrame([], [], true, depth)], []).cont == Some(depth)
  {
    assert forall s: seq<nat> :: [] + s == s;
  }

  /** A switch frame collects the breaks; the enclosing loop gets the continues. */
  lemma {:induction false} RecordedInSwitch(ls: seq<LoopFrame>, depth: nat, at: nat, a: seq<Emit>)
    ensures Recorded(ls + [LoopFrame([], [], false, depth)], at, a)
         == AddContinues(ls, Holes(a, ToContinue, at)) + [LoopFrame(Holes(a, ToBreak, at), [], false, depth)]
    ensures EnvOf(ls + [LoopFrame([], [], false, depth)], []).brk == Some(depth)
    ensures EnvOf(ls + [LoopFrame([], [], false, depth)], []).cont == EnvOf(ls, []).cont
  {
    assert forall s: seq<nat> :: [] + s == s;
    var fr := LoopFrame(Holes(a, ToBreak, at), [], false, depth);
    assert AddBreaks(ls + [LoopFrame([], [], false, depth)], Holes(a, ToBreak, at)) == ls + [fr];
    assert (ls + [fr])[..|ls|] == ls;
    assert (ls + [LoopFrame([], [], false, depth)])[..|ls|] == ls;
  }

  /** What the enclosing frames see of a switch body. */
  lemma {:induction false} RecordedFilled(ls: seq<LoopFrame>, at: nat, a: seq<Emit>, t: nat)
    ensures Recorded(ls, at, FillBreak(a, t)) == AddContinues(ls, Holes(a, ToContinue, at))
  {
    NoHoles(FillBreak(a, t), ToBreak, at);
    SameHoles(a, FillBreak(a, t), ToContinue, at);
    assert forall s: seq<nat> :: s + [] == s;
    assert AddBreaks(ls, []) == ls;
  }

  lemma {:induction false} SameHoles(a: seq<Emit>, b: seq<Emit>, hole: Emit, at: nat)
    requires |a| == |b| && forall i :: 0 <= i < |a| ==> (a[i] == hole <==> b[i] == hole)
    ensures Holes(a, hole, at) == Holes(b, hole, at)
    decreases |a|
  {
    if a != [] {
      SameHoles(a[1..], b[1..], hole, at + 1);
    }
  }
}
