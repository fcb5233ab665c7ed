/**
 The methods of the code generator. `Compiler` holds the state the source
 threads through its `compile_*` functions; jumps are pushed with a
 placeholder target and patched in place once the target is known.
 */
module Generator {
  import opened Names
  import opened Ast
  import opened Shapes
  import opened Semantics
  import opened Machine
  import opened Codegen
  import opened Emitter
  import opened Patching

  /** Walk down the left spine. */
  method CollectSpine(kind: Option<bool>, e: Expr) returns (spine: seq<Expr>, leftmost: Expr)
    requires OnSpine(kind, e)
    ensures Spine(kind, spine, e, leftmost) && !OnSpine(kind, leftmost)
  {
    spine := [e];
    leftmost := e.l;
    while OnSpine(kind, leftmost)
      invariant Spine(kind, spine, e, leftmost)
      decreases leftmost
    {
      spine := spine + [leftmost];
      leftmost := leftmost.l;
    }
  }

  class Compiler {
    var instructions: seq<Op>
    var loopStack: seq<LoopFrame>
    var finallyStack: seq<seq<Stmt>>

    ghost function Snap(): Gen
      reads this
    {
      Gen(instructions, loopStack, finallyStack)
    }

    constructor ()
      ensures Snap() == Gen([], [], [])
    {
      instructions, loopStack, finallyStack := [], [], [];
    }

    method Push(op: Op)
      modifies this
      ensures Snap() == old(Snap()).(ins := old(instructions) + [op])
    {
      instructions := instructions + [op];
    }

    method PatchAll(idx: seq<nat>, op: Op)
      requires forall i :: i in idx ==> i < |instructions|
      modifies this
      ensures Snap() == old(Snap()).(ins := Patched(old(instructions), idx, op))
    {
      ghost var was := instructions;
      var k := 0;
      assert Patched(was, [], op) == was;
      while k < |idx|
        invariant 0 <= k <= |idx| && |instructions| == |was|
        invariant Snap() == old(Snap()).(ins := Patched(was, idx[..k], op))
      {
        assert idx[k] in idx && idx[..k + 1] == idx[..k] + [idx[k]];
        assert Patched(was, idx[..k], op)[idx[k] := op] == Patched(was, idx[..k + 1], op);
        instructions := instructions[idx[k] := op];
        k := k + 1;
      }
      assert idx[..k] == idx;
    }

    /** `compile_expression` on the modelled expressions. */
    method CompileExpression(e: Expr)
      modifies this
      ensures Snap() == old(Snap()).(ins := old(instructions) + CodeE(e, |old(instructions)|))
      decreases SizeE(e), 1
    {
      match e {
        case Lit(v) => Push(Const(v));
        case Var(name) => Push(Load(name));
        case Bin(_, _, _) => CompilePlainSpine(e);
        case Logic(_, _, _) => CompileLogicSpine(e);
      }
    }

    /** Walk down the left spine, then emit right operands and opcodes from the bottom up. */
    method CompilePlainSpine(e: Expr)
      requires e.Bin?
      modifies this
      ensures Snap() == old(Snap()).(ins := old(instructions) + CodeE(e, |old(instructions)|))
      decreases SizeE(e), 0
    {
      hide CodeE, SizeE, Spine;
      ghost var g0 := Snap();
      var spine, leftmost := CollectSpine(None, e);
      SpineBounds(None, spine, e, leftmost);
      CompileExpression(leftmost);
      var i := |spine|;
      while i > 0
        invariant 0 <= i <= |spine|
        invariant Snap() == g0.(ins := g0.ins + CodeE(Below(spine, leftmost, i), |g0.ins|))
      {
        ghost var a := CodeE(Below(spine, leftmost, i), |g0.ins|);
        i := i - 1;
        SpineNode(spine, e, leftmost, i, |g0.ins|);
        SpineSize(None, spine, e, leftmost, i);
        SpineAt(None, spine, e, leftmost, i);
        CompileExpression(spine[i].r);
        Push(Binary(spine[i].op));
        ghost var b := CodeE(spine[i].r, |g0.ins| + |a|);
        assert g0.ins + a + b + [Binary(spine[i].op)] == g0.ins + (a + b + [Binary(spine[i].op)]);
      }
    }

    /** One operand of a flattened spine: its code and a jump to the landing pad still to come. */
    method EmitOperand(isOr: bool, e: Expr) returns (short: nat)
      modifies this
      ensures short == |old(instructions)| + |CodeE(e, |old(instructions)|)|
      ensures Snap() == old(Snap()).(ins := old(instructions) + CodeE(e, |old(instructions)|) + [ShortJump(isOr, 0)])
      decreases SizeE(e), 2
    {
      CompileExpression(e);
      short := |instructions|;
      Push(ShortJump(isOr, 0));
    }

    method CompileLogicSpine(e: Expr)
      requires e.Logic?
      modifies this
      ensures Snap() == old(Snap()).(ins := old(instructions) + CodeE(e, |old(instructions)|))
      decreases SizeE(e), 0
    {
      hide CodeE, OperandsTo, ShortPositions, ShortJump, Patched, Operands, SizeE, Spine;
      ghost var g0 := Snap();
      var isOr := e.isOr;
      var spine, leftmost := CollectSpine(Some(isOr), e);
      SpineBounds(Some(isOr), spine, e, leftmost);
      var shorts := EmitOperands(e, spine, leftmost);
      Push(Const(Bool(!isOr)));
      var doneJump := |instructions|;
      Push(Jump(0));
      var shortTarget := |instructions|;
      Push(Const(Bool(isOr)));
      SpinePatched(g0.ins, e);
      ghost var x := OperandsTo(isOr, Operands(isOr, e), |g0.ins|, 0);
      assert instructions == g0.ins + x + [Const(Bool(!isOr)), Jump(0), Const(Bool(isOr))];
      PatchAll(shorts, ShortJump(isOr, shortTarget));
      instructions := instructions[doneJump := Jump(|instructions|)];
    }

    method EmitOperands(e: Expr, spine: seq<Expr>, leftmost: Expr) returns (shorts: seq<nat>)
      requires e.Logic? && Spine(Some(e.isOr), spine, e, leftmost) && !OnSpine(Some(e.isOr), leftmost)
      modifies this
      ensures shorts == ShortPositions(Operands(e.isOr, e), |old(instructions)|)
      ensures Snap() == old(Snap()).(ins := old(instructions) + OperandsTo(e.isOr, Operands(e.isOr, e), |old(instructions)|, 0))
      decreases SizeE(e), -1
    {
      hide CodeE, OperandsTo, ShortPositions, ShortJump, Operands, SizeE, Spine;
      ghost var g0 := Snap();
      ghost var at := |g0.ins|;
      var isOr := e.isOr;
      SpineBounds(Some(isOr), spine, e, leftmost);
      var short := EmitOperand(isOr, leftmost);
      shorts := [short];
      SpineOperands(isOr, spine, e, leftmost, 0);
      FirstOperand(isOr, leftmost, at);
      assert g0.ins + CodeE(leftmost, at) + [ShortJump(isOr, 0)] == g0.ins + (CodeE(leftmost, at) + [ShortJump(isOr, 0)]);
      var i := |spine|;
      while i > 0
        invariant 0 <= i <= |spine|
        invariant var done := Operands(isOr, Below(spine, leftmost, i));
                  && shorts == ShortPositions(done, at)
                  && Snap() == g0.(ins := g0.ins + OperandsTo(isOr, done, at, 0))
      {
        ghost var done := Operands(isOr, Below(spine, leftmost, i));
        i := i - 1;
        SpineSize(Some(isOr), spine, e, leftmost, i);
        SpineAt(Some(isOr), spine, e, leftmost, i);
        SpineOperands(isOr, spine, e, leftmost, i);
        OperandsToSnoc(isOr, done, spine[i].r, at, 0);
        ghost var x := OperandsTo(isOr, done, at, 0);
        short := EmitOperand(isOr, spine[i].r);
        shorts := shorts + [short];
        assert g0.ins + x + CodeE(spine[i].r, at + |x|) + [ShortJump(isOr, 0)]
            == g0.ins + (x + CodeE(spine[i].r, at + |x|) + [ShortJump(isOr, 0)]);
      }
    }

    // ---- Straight-line statements ----

    /** Store the value of `e`; a literal null takes the guarded form. */
    method CompileStore(name: string, e: Expr)
      modifies this
      ensures Snap() == old(Snap()).(ins := old(instructions) + CodeStore(name, e, |old(instructions)|))
    {
      hide CodeE;
      CompileExpression(e);
      if e == Lit(Null) {
        ghost var pre := instructions;
        var guard := |instructions|;
        Push(JumpIfNotNull(0));
        Push(Pop);
        Push(Unset(name));
        var end := |instructions|;
        Push(Jump(0));
        instructions := instructions[guard := JumpIfNotNull(|instructions|)];
        Push(StoreVar(name));
        instructions := instructions[end := Jump(|instructions|)];
        assert instructions == pre + [JumpIfNotNull(guard + 4), Pop, Unset(name), Jump(guard + 5), StoreVar(name)];
      } else {
        Push(StoreVar(name));
      }
    }

    method CompileStep(step: Step)
      modifies this
      ensures Snap() == old(Snap()).(ins := old(instructions) + CodeStep(step, |old(instructions)|))
    {
      hide CodeStore;
      match step {
        case IncDec(name, up) => Push(Incr(name, if up then 1 else -1));
        case SetTo(name, e) =>
          CompileStore(name, e);
          Push(Pop);
      }
    }

    method CompileAssign(x: string, aop: AssignOp, e: Expr)
      modifies this
      ensures Snap() == old(Snap()).(ins := old(instructions) + CodeAssign(x, aop, e, |old(instructions)|))
    {
      hide CodeE, CodeStore;
      if aop == PlusEq && e.Lit? && e.v.Int? {
        Push(AddConst(x, e.v.n));
      } else if aop == MinusEq && e.Lit? && e.v.Int? {
        Push(AddConst(x, -e.v.n));
      } else if aop == StarEq && e.Lit? && e.v.Int? {
        Push(MulConst(x, e.v.n));
      } else if aop == Set {
        CompileStore(x, e);
      } else {
        EmitCompound(x, BinOf(aop), e);
      }
    }

    method EmitCompound(x: string, op: BinOp, e: Expr)
      modifies this
      ensures Snap() == old(Snap()).(ins := old(instructions)
                                            + (CodeE(e, |old(instructions)|) + [Load(x), Swap, Binary(op), StoreVar(x)]))
    {
      hide CodeE;
      CompileExpression(e);
      Push(Load(x));
      Push(Swap);
      Push(Binary(op));
      Push(StoreVar(x));
    }

    method CompileVar(x: string, init: Option<Expr>)
      modifies this
      ensures Snap() == old(Snap()).(ins := old(instructions) + VarOps(x, init, |old(instructions)|))
    {
      hide CodeStore;
      Push(Declare(x));
      match init {
        case None =>
          Push(Const(Null));
          Push(StoreVar(x));
        case Some(e) => CompileStore(x, e);
      }
    }

    method CompileThrow(msg: Option<Expr>)
      modifies this
      ensures Snap() == old(Snap()).(ins := old(instructions) + ThrowOps(msg, |old(instructions)|))
    {
      hide CodeE;
      match msg {
        case None => Push(Const(DEFAULT_MESSAGE));
        case Some(e) => CompileExpression(e);
      }
      Push(ThrowOp);
    }

    /** `emit_cond_jump_false`: the condition and a placeholder exit jump, whose position is returned. */
    method EmitCondJumpFalse(e: Expr) returns (idx: nat)
      modifies this
      ensures Snap() == old(Snap()).(ins := old(instructions) + CodeCond(e, |old(instructions)|, 0))
      ensures idx == |old(instructions)| + CondLen(e, |old(instructions)|) - 1
    {
      hide CodeE;
      var m := MatchCmp(e);
      if m.Some? {
        idx := |instructions|;
        Push(JumpCmpFalse(m.value.name, Wrap32(m.value.limit), m.value.cmp, 0));
      } else {
        CompileExpression(e);
        idx := |instructions|;
        Push(JumpIfFalse(0));
      }
    }

    method PatchCondJumpTarget(idx: nat, t: nat)
      requires idx < |instructions|
      modifies this
      ensures Snap() == old(Snap()).(ins := old(instructions)[idx := Retarget(old(instructions)[idx], t)])
    {
      instructions := instructions[idx := Retarget(instructions[idx], t)];
    }

    // ---- Blocks ----

    method CompileBlock(ss: seq<Stmt>)
      modifies this
      ensures Extends(old(Snap()), Snap(), CodeB(ss, |old(instructions)|, EnvAt(old(Snap()))))
      decreases SizeB(ss) + SizeFins(finallyStack), 2
    {
      hide Extends, CodeB, CodeS, SizeB, SizeS, EnvAt, EnvOf;
      ghost var g0 := Snap();
      ghost var at := |g0.ins|;
      ghost var env := EnvAt(g0);
      ghost var done: seq<Emit> := [];
      ExtendsNothing(g0);
      assert ss[0..] == ss;
      var i := 0;
      while i < |ss|
        invariant 0 <= i <= |ss| && finallyStack == g0.fins
        invariant Extends(g0, Snap(), done)
        invariant CodeB(ss, at, env) == done + CodeB(ss[i..], at + |done|, env)
        invariant SizeB(ss[i..]) <= SizeB(ss)
      {
        ghost var g1 := Snap();
        ghost var a := CodeS(ss[i], at + |done|, env);
        ExtendsEnv(g0, g1, done);
        BlockHead(ss[i..], at + |done|, env);
        assert ss[i..][1..] == ss[i + 1..];
        CompileStatement(ss[i]);
        ExtendsThen(g0, g1, Snap(), done, a);
        SameFins(g1, Snap(), a);
        assert CodeB(ss, at, env) == done + a + CodeB(ss[i + 1..], at + |done + a|, env);
        done := done + a;
        i := i + 1;
      }
      assert ss[i..] == [];
      EmptyBlock(at + |done|, env);
      assert done + [] == done;
    }

    method CompileStatement(s: Stmt)
      modifies this
      ensures Extends(old(Snap()), Snap(), CodeS(s, |old(instructions)|, EnvAt(old(Snap()))))
      decreases SizeS(s) + SizeFins(finallyStack), 1
    {
      hide Extends, CodeBody, SizeS, EnvAt, EnvOf;
      ghost var g0 := Snap();
      Push(LineInfo);
      ghost var g1 := Snap();
      ExtendsFix(g0, g1, [LineInfo]);
      ExtendsEnv(g0, g1, Fix([LineInfo]));
      CompileBody(s);
      ExtendsThen(g0, g1, Snap(), Fix([LineInfo]), CodeBody(s, |g1.ins|, EnvAt(g0)));
    }

    method CompileBody(s: Stmt)
      modifies this
      ensures Extends(old(Snap()), Snap(), CodeBody(s, |old(instructions)|, EnvAt(old(Snap()))))
      decreases SizeS(s) + SizeFins(finallyStack), 0
    {
      hide Extends, EnvAt, EnvOf, CodeStep, CodeAssign, CodeStore, CodeE, CodeS, CodeB, CodeIf, CodeWhile, CodeDo, CodeFor, CodeSwitch,
        CodeBreak, CodeContinue, CodeReturn, CodeTry, SizeB, SizeArms, SizeCases, SizeCatches, SizeOpt, SizeFins;
      ghost var g0 := Snap();
      if IsPlain(s) {
        CompilePlain(s);
        ExtendsFix(g0, Snap(), PlainOps(s, |g0.ins|));
        PlainCode(s, |g0.ins|, EnvAt(g0));
      } else {
        match s {
          case If(cond, thn, elifs, els) => CompileIf(cond, thn, elifs, els);
          case While(cond, body) => CompileWhile(cond, body);
          case DoWhile(body, cond) => CompileDo(body, cond);
          case For(start, test, inc, body) => CompileForStatement(start, test, inc, body);
          case Switch(on, cases, def) => CompileSwitch(on, cases, def);
          case Break => CompileBreak();
          case Continue => CompileContinue();
          case Return(ret) => CompileReturn(ret);
          case Try(body, catches, fin) => CompileTry(body, catches, fin);
        }
      }
    }

    method CompilePlain(s: Stmt)
      requires IsPlain(s)
      modifies this
      ensures Snap() == old(Snap()).(ins := old(instructions) + PlainOps(s, |old(instructions)|))
    {
      match s {
        case Text(text) => Push(WriteText(text));
        case Do1(step) => CompileStep(step);
        case Assign(x, aop, e) => CompileAssign(x, aop, e);
        case VarDecl(x, init) => CompileVar(x, init);
        case Throw(msg) => CompileThrow(msg);
      }
    }

    // ---- Loops ----

    /** Push a loop frame and compile the body inside it; the frame stays on the stack. */
    method CompileLoopBody(body: seq<Stmt>)
      modifies this
      ensures var at := |old(instructions)|;
              var a := CodeB(body, at, InLoop(EnvAt(old(Snap()))));
              Snap() == Gen(old(instructions) + Ops(a, 0, 0),
                            old(loopStack) + [LoopFrame(Holes(a, ToBreak, at), Holes(a, ToContinue, at), true, |old(finallyStack)|)],
                            old(finallyStack))
      decreases SizeB(body) + SizeFins(finallyStack), 3
    {
      hide CodeB, SizeB, SizeFins, Ops, Holes, Recorded, LoopIndex;
      ghost var g0 := Snap();
      RecordedInLoop(g0.loops, |g0.fins|, |g0.ins|, CodeB(body, |g0.ins|, InLoop(EnvAt(g0))));
      loopStack := loopStack + [LoopFrame([], [], true, |finallyStack|)];
      LoopEnv(g0);
      CompileBlock(body);
    }

    /** Pop the innermost frame and patch its jumps. */
    method LeaveLoop(brk: nat, cont: nat)
      requires loopStack != []
      requires var top := loopStack[|loopStack| - 1];
               && (forall i :: i in top.breaks ==> i < |instructions|)
               && (forall i :: i in top.continues ==> i < |instructions|)
      modifies this
      ensures var top := old(loopStack[|loopStack| - 1]);
              Snap() == Gen(Patched(Patched(old(instructions), top.breaks, Jump(brk)), top.continues, Jump(cont)),
                            old(loopStack[..|loopStack| - 1]), old(finallyStack))
    {
      var top := loopStack[|loopStack| - 1];
      loopStack := loopStack[..|loopStack| - 1];
      PatchAll(top.breaks, Jump(brk));
      PatchAll(top.continues, Jump(cont));
    }

    method CompileWhile(cond: Expr, body: seq<Stmt>)
      modifies this
      ensures Extends(old(Snap()), Snap(), CodeWhile(cond, body, |old(instructions)|, EnvAt(old(Snap()))))
      decreases SizeB(body) + SizeFins(finallyStack), 5
    {
      var counted := CountedBody(cond, body);
      if counted.Some? {
        SizeFront(body);
        CompileForCounted(counted.value, body[..|body| - 1]);
      } else {
        CompilePlainWhile(cond, body);
      }
    }

    method CompilePlainWhile(cond: Expr, body: seq<Stmt>)
      requires CountedBody(cond, body).None?
      modifies this
      ensures Extends(old(Snap()), Snap(), CodeWhile(cond, body, |old(instructions)|, EnvAt(old(Snap()))))
      decreases SizeB(body) + SizeFins(finallyStack), 4
    {
      hide CodeB, SizeB, SizeFins, Ops, Holes, Patched, Extends, EnvAt, InLoop, CodeCond, Fix, Fill, Retarget, CountedBody;
      ghost var g0 := Snap();
      var loopStart := |instructions|;
      ghost var a := CodeB(body, loopStart + CondLen(cond, loopStart), InLoop(EnvAt(g0)));
      var exit := EmitCondJumpFalse(cond);
      FixedEnv(g0, Snap());
      CompileLoopBody(body);
      Push(Jump(loopStart));
      var loopEnd := |instructions|;
      OpsLength(a);
      CondLoop(g0, cond, a, [Jump(loopStart)], loopEnd, loopStart);
      PatchCondJumpTarget(exit, loopEnd);
      LeaveLoop(loopEnd, loopStart);
      assert loopStack == g0.loops;
    }

    /** The fused shape: entry check, body, and one instruction that steps and re-tests. */
    method CompileForCounted(k: Counted, body: seq<Stmt>)
      modifies this
      ensures Extends(old(Snap()), Snap(), CodeCountedTop(k, body, |old(instructions)|, EnvAt(old(Snap()))))
      decreases SizeB(body) + SizeFins(finallyStack), 4
    {
      hide CodeB, SizeB, SizeFins, Ops, Holes, Patched, Extends, EnvAt, InLoop, Fix, Fill, Wrap32;
      ghost var g0 := Snap();
      var entry := |instructions|;
      Push(JumpCmpFalse(k.name, Wrap32(k.limit), k.cmp, 0));
      FixedEnv(g0, Snap());
      var bodyStart := |instructions|;
      ghost var a := CodeB(body, bodyStart, InLoop(EnvAt(g0)));
      CompileLoopBody(body);
      OpsLength(a);
      var next := |instructions|;
      ghost var last := LoopStep(k.name, Wrap32(k.limit), k.cmp, Wrap32(k.amount), bodyStart);
      Push(LoopStep(k.name, Wrap32(k.limit), k.cmp, Wrap32(k.amount), bodyStart));
      var loopEnd := |instructions|;
      instructions := instructions[entry := JumpCmpFalse(k.name, Wrap32(k.limit), k.cmp, loopEnd)];
      ghost var check := [JumpCmpFalse(k.name, Wrap32(k.limit), k.cmp, loopEnd)];
      ghost var pre := g0.ins + check;
      assert instructions == pre + Ops(a, 0, 0) + [last];
      HolesBound(a, |pre|);
      PatchLoop(pre, a, [last], loopEnd, next);
      LeaveLoop(loopEnd, next);
      assert loopStack == g0.loops;
      LoopDone(g0, Snap(), check, a, [last], loopEnd, next);
      CountedTopParts(k, body, entry, EnvAt(g0));
    }

    method CompileDo(body: seq<Stmt>, cond: Expr)
      modifies this
      ensures Extends(old(Snap()), Snap(), CodeDo(cond, body, |old(instructions)|, EnvAt(old(Snap()))))
      decreases SizeB(body) + SizeFins(finallyStack), 5
    {
      var counted := CountedBody(cond, body);
      if counted.Some? {
        SizeFront(body);
        CompileDoCounted(counted.value, body[..|body| - 1]);
      } else {
        CompilePlainDo(body, cond);
      }
    }

    method CompileDoCounted(k: Counted, body: seq<Stmt>)
      modifies this
      ensures Extends(old(Snap()), Snap(), CodeCounted(k, body, |old(instructions)|, EnvAt(old(Snap()))))
      decreases SizeB(body) + SizeFins(finallyStack), 4
    {
      hide CodeB, SizeB, SizeFins, Ops, Holes, Patched, Extends, EnvAt, InLoop, Fix, Fill, Wrap32;
      ghost var g0 := Snap();
      var bodyStart := |instructions|;
      ghost var a := CodeB(body, bodyStart, InLoop(EnvAt(g0)));
      CompileLoopBody(body);
      OpsLength(a);
      var next := |instructions|;
      ghost var last := LoopStep(k.name, Wrap32(k.limit), k.cmp, Wrap32(k.amount), bodyStart);
      Push(LoopStep(k.name, Wrap32(k.limit), k.cmp, Wrap32(k.amount), bodyStart));
      var loopEnd := |instructions|;
      HolesBound(a, |g0.ins|);
      PatchLoop(g0.ins, a, [last], loopEnd, next);
      LeaveLoop(loopEnd, next);
      assert loopStack == g0.loops;
      assert g0.ins + [] == g0.ins;
      LoopDone(g0, Snap(), [], a, [last], loopEnd, next);
      NoOps(Fill(a, loopEnd, next) + Fix([last]));
      assert Fix([]) + Fill(a, loopEnd, next) + Fix([last]) == Fix([]) + (Fill(a, loopEnd, next) + Fix([last]));
    }

    method CompilePlainDo(body: seq<Stmt>, cond: Expr)
      requires CountedBody(cond, body).None?
      modifies this
      ensures Extends(old(Snap()), Snap(), CodeDo(cond, body, |old(instructions)|, EnvAt(old(Snap()))))
      decreases SizeB(body) + SizeFins(finallyStack), 4
    {
      hide CodeB, CodeE, SizeB, SizeFins, Ops, Holes, Patched, Extends, EnvAt, InLoop, Fix, Fill, CountedBody;
      ghost var g0 := Snap();
      var loopStart := |instructions|;
      ghost var a := CodeB(body, loopStart, InLoop(EnvAt(g0)));
      CompileLoopBody(body);
      OpsLength(a);
      var next := |instructions|;
      ghost var test := CodeE(cond, next) + [JumpIfTrue(loopStart)];
      CompileExpression(cond);
      Push(JumpIfTrue(loopStart));
      var loopEnd := |instructions|;
      assert instructions == g0.ins + Ops(a, 0, 0) + test;
      HolesBound(a, |g0.ins|);
      PatchLoop(g0.ins, a, test, loopEnd, next);
      LeaveLoop(loopEnd, next);
      assert loopStack == g0.loops;
      assert g0.ins + [] == g0.ins;
      LoopDone(g0, Snap(), [], a, test, loopEnd, next);
      NoOps(Fill(a, loopEnd, next) + Fix(test));
      assert Fix([]) + Fill(a, loopEnd, next) + Fix(test) == Fix([]) + (Fill(a, loopEnd, next) + Fix(test));
    }

    method CompileForStatement(start: Option<Init>, test: Option<Expr>, inc: Option<Step>, body: seq<Stmt>)
      modifies this
      ensures Extends(old(Snap()), Snap(), CodeBody(For(start, test, inc, body), |old(instructions)|, EnvAt(old(Snap()))))
      decreases 1 + SizeB(body) + SizeFins(finallyStack), 5
    {
      hide CodeFor, CodeS, SizeB, SizeFins, Extends, EnvAt;
      ghost var g0 := Snap();
      ghost var i: seq<Emit> := [];
      ExtendsNothing(g0);
      if start.Some? {
        CompileStatement(InitStmt(start.value));
        i := CodeS(InitStmt(start.value), |g0.ins|, EnvAt(g0));
        SameFins(g0, Snap(), i);
      }
      ghost var g1 := Snap();
      ExtendsEnv(g0, g1, i);
      CompileFor(test, inc, body);
      ExtendsThen(g0, g1, Snap(), i, CodeFor(test, inc, body, |g1.ins|, EnvAt(g0)));
    }

    method CompileFor(test: Option<Expr>, inc: Option<Step>, body: seq<Stmt>)
      modifies this
      ensures Extends(old(Snap()), Snap(), CodeFor(test, inc, body, |old(instructions)|, EnvAt(old(Snap()))))
      decreases SizeB(body) + SizeFins(finallyStack), 6
    {
      var counted := CountedFor(test, inc);
      if counted.Some? {
        CompileForCounted(counted.value, body);
      } else if test.Some? {
        CompilePlainFor(test.value, inc, body);
      } else {
        ExtendsNothing(Snap());
      }
    }

    method CompilePlainFor(test: Expr, inc: Option<Step>, body: seq<Stmt>)
      requires CountedFor(Some(test), inc).None?
      modifies this
      ensures Extends(old(Snap()), Snap(), CodeFor(Some(test), inc, body, |old(instructions)|, EnvAt(old(Snap()))))
      decreases SizeB(body) + SizeFins(finallyStack), 5
    {
      hide CodeB, CodeStep, SizeB, SizeFins, Ops, Holes, Patched, Extends, EnvAt, InLoop, CodeCond, Fix, Fill, Retarget, CountedFor;
      ghost var g0 := Snap();
      var loopStart := |instructions|;
      ghost var a := CodeB(body, loopStart + CondLen(test, loopStart), InLoop(EnvAt(g0)));
      var exit := EmitCondJumpFalse(test);
      FixedEnv(g0, Snap());
      CompileLoopBody(body);
      OpsLength(a);
      var next := |instructions|;
      ghost var step := if inc.None? then [] else CodeStep(inc.value, next);
      if inc.Some? {
        CompileStep(inc.value);
      }
      Push(Jump(loopStart));
      var loopEnd := |instructions|;
      ghost var post := step + [Jump(loopStart)];
      assert instructions == g0.ins + CodeCond(test, loopStart, 0) + Ops(a, 0, 0) + post;
      CondLoop(g0, test, a, post, loopEnd, next);
      PatchCondJumpTarget(exit, loopEnd);
      LeaveLoop(loopEnd, next);
      assert loopStack == g0.loops;
    }

    // ---- Switch ----

    /** One value compared with the switch value. */
    method EmitEquals(v: string, e: Expr)
      modifies this
      ensures Snap() == old(Snap()).(ins := old(instructions) + ([Load(v)] + CodeE(e, |old(instructions)| + 1) + [Binary(Eq)]))
    {
      hide CodeE;
      Push(Load(v));
      CompileExpression(e);
      Push(Binary(Eq));
    }

    /** The comparisons of one case, combined with `Or`. */
    method EmitCaseTest(v: string, value: Expr, more: seq<Expr>)
      modifies this
      ensures Snap() == old(Snap()).(ins := old(instructions) + CodeCaseTest(v, value, more, |old(instructions)|))
    {
      hide CodeE, CodeMoreTests;
      ghost var g0 := Snap();
      EmitEquals(v, value);
      ghost var head := [Load(v)] + CodeE(value, |g0.ins| + 1) + [Binary(Eq)];
      assert instructions == g0.ins + head;
      ghost var g1 := Snap();
      ghost var at := |g1.ins|;
      ghost var done: seq<Op> := [];
      var i := 0;
      assert more[0..] == more && g1.ins + done == g1.ins;
      while i < |more|
        invariant 0 <= i <= |more|
        invariant Snap() == g1.(ins := g1.ins + done)
        invariant CodeMoreTests(v, more, at) == done + CodeMoreTests(v, more[i..], at + |done|)
      {
        MoreHead(v, more[i..], at + |done|);
        assert more[i..][1..] == more[i + 1..];
        ghost var a := [Load(v)] + CodeE(more[i], at + |done| + 1) + [Binary(Eq), OrOp];
        EmitEquals(v, more[i]);
        Push(OrOp);
        assert instructions == g1.ins + (done + a);
        assert CodeMoreTests(v, more, at) == done + a + CodeMoreTests(v, more[i + 1..], at + |done + a|);
        done := done + a;
        i := i + 1;
      }
      assert more[i..] == [];
      NoMoreTests(v, at + |done|);
      assert g1.ins + done == g0.ins + (head + done);
    }

    /** The dispatch section with placeholder targets; the jumps' positions are returned. */
    method EmitDispatch(v: string, cases: seq<Case>) returns (jumps: seq<nat>)
      modifies this
      ensures Snap() == old(Snap()).(ins := old(instructions) + CodeDispatch(v, cases, Zeros(|cases|), |old(instructions)|))
      ensures jumps == DispatchJumps(v, cases, |old(instructions)|)
    {
      hide CodeCaseTest, CodeDispatch, DispatchJumps, DispatchLen;
      ghost var g0 := Snap();
      ghost var at := |g0.ins|;
      ghost var done: seq<Op> := [];
      jumps := [];
      var i := 0;
      assert cases[0..] == cases && g0.ins + done == g0.ins;
      while i < |cases|
        invariant 0 <= i <= |cases|
        invariant Snap() == g0.(ins := g0.ins + done)
        invariant CodeDispatch(v, cases, Zeros(|cases|), at)
               == done + CodeDispatch(v, cases[i..], Zeros(|cases| - i), at + |done|)
        invariant DispatchJumps(v, cases, at) == jumps + DispatchJumps(v, cases[i..], at + |done|)
      {
        ghost var a := CodeCaseTest(v, cases[i].value, cases[i].more, at + |done|);
        DispatchHead(v, cases[i..], at + |done|);
        assert cases[i..][1..] == cases[i + 1..];
        EmitCaseTest(v, cases[i].value, cases[i].more);
        jumps := jumps + [|instructions|];
        Push(JumpIfTrue(0));
        ghost var b := a + [JumpIfTrue(0)];
        assert instructions == g0.ins + (done + b);
        assert CodeDispatch(v, cases, Zeros(|cases|), at)
            == done + b + CodeDispatch(v, cases[i + 1..], Zeros(|cases| - i - 1), at + |done + b|);
        done := done + b;
        i := i + 1;
      }
      assert cases[i..] == [];
      DispatchEmpty(v, at + |done|);
    }

    method CompileSwitch(on: Expr, cases: seq<Case>, def: OptBlock)
      modifies this
      ensures Extends(old(Snap()), Snap(), CodeSwitch(on, cases, def, |old(instructions)|, EnvAt(old(Snap()))))
      decreases SizeCases(cases) + SizeOpt(def) + SizeFins(finallyStack), 6
    {
      hide CodeB, CodeE, CodeDispatch, DispatchLen, Starts, FallThrough, SizeCases, SizeOpt, SizeFins, Ops, Holes, Extends, EnvOf, InSwitch, Fix,
        SwitchVar, Recorded, AddContinues, Patched, FillBreak, DispatchJumps, Zeros;
      ghost var g0 := Snap();
      CompileExpression(on);
      var v := SwitchVar(|instructions|);
      Push(Declare(v));
      Push(StoreVar(v));
      ghost var g1 := Snap();
      ghost var d := |g1.ins|;
      loopStack := loopStack + [LoopFrame([], [], false, |finallyStack|)];
      SwitchEnv(g0);
      FixedEnv(g0.(loops := loopStack), Snap());
      ghost var g2 := Snap();
      var dispatch := EmitDispatch(v, cases);
      DispatchLength(v, cases, Zeros(|cases|), d);
      var noMatch := |instructions|;
      Push(Jump(0));
      ghost var b := |instructions|;
      ghost var env := InSwitch(EnvAt(g0));
      ghost var a := CodeB(FallThrough(cases, def), b, env);
      CompileCases(v, cases, def, dispatch, noMatch, g2);
      ghost var x := CodeDispatch(v, cases, Starts(cases, b, env)[..|cases|], d) + [Jump(Starts(cases, b, env)[|cases|])];
      DispatchLength(v, cases, Starts(cases, b, env)[..|cases|], d);
      SwitchEnded(g1, |g0.fins|, Snap(), x, a);
      var top := loopStack[|loopStack| - 1];
      loopStack := loopStack[..|loopStack| - 1];
      HolesBound(a, b);
      PatchAll(top.breaks, Jump(|instructions|));
      ghost var head := CodeE(on, |g0.ins|) + [Declare(v), StoreVar(v)];
      assert g1.ins == g0.ins + head;
      ExtendsFix(g0, g1, head);
      ExtendsThen(g0, g1, Snap(), Fix(head), Fix(x) + FillBreak(a, b + |a|));
      SwitchCode(on, cases, def, |g0.ins|, EnvAt(g0));
    }

    /** The case bodies in order, each reached from its dispatch jump, then the default body. */
    method CompileCases(v: string, cases: seq<Case>, def: OptBlock, dispatch: seq<nat>, noMatch: nat, ghost g: Gen)
      requires dispatch == DispatchJumps(v, cases, |g.ins|)
      requires noMatch == |g.ins| + DispatchLen(v, cases, |g.ins|)
      requires Snap() == g.(ins := g.ins + CodeDispatch(v, cases, Zeros(|cases|), |g.ins|) + [Jump(0)])
      modifies this
      ensures var b := noMatch + 1;
              var starts := Starts(cases, b, EnvAt(g));
              Extends(g, Snap(), Fix(CodeDispatch(v, cases, starts[..|cases|], |g.ins|) + [Jump(starts[|cases|])])
                                 + CodeB(FallThrough(cases, def), b, EnvAt(g)))
      decreases SizeCases(cases) + SizeOpt(def) + SizeFins(finallyStack), 5
    {
      hide CodeB, CodeDispatch, DispatchLen, Starts, FallThrough, SizeCases, SizeOpt, SizeFins, Extends, EnvAt, Fix, DispatchJumps, Zeros, SizeB,
        Differ, Patched, BodyOf;
      ghost var at := |g.ins|;
      ghost var b := noMatch + 1;
      ghost var env := EnvAt(g);
      ghost var starts := Starts(cases, b, env);
      ghost var done: seq<Emit> := [];
      ghost var ts: seq<nat> := Zeros(|cases|);
      DispatchLength(v, cases, ts, at);
      ExtendsFix(g, Snap(), CodeDispatch(v, cases, ts, at) + [Jump(0)]);
      NothingAfter(Fix(CodeDispatch(v, cases, ts, at) + [Jump(0)]));
      var i := 0;
      assert cases[0..] == cases && starts[0..] == starts && ts == starts[..0] + Zeros(|cases|);
      assert finallyStack == g.fins;
      while i < |cases|
        invariant 0 <= i <= |cases| && finallyStack == g.fins
        invariant |ts| == |cases| && |starts| == |cases| + 1 && ts[..i] == starts[..i]
        invariant Extends(g, Snap(), Fix(CodeDispatch(v, cases, ts, at) + [Jump(0)]) + done)
        invariant |instructions| == b + |done|
        invariant CodeB(FallThrough(cases, def), b, env) == done + CodeB(FallThrough(cases[i..], def), b + |done|, env)
        invariant starts[i..] == Starts(cases[i..], b + |done|, env)
        invariant SizeCases(cases[i..]) <= SizeCases(cases)
      {
        ghost var start: nat := b + |done|;
        StartHead(cases[i..], start, env);
        CasesHead(cases[i..], def, start, env);
        assert cases[i..][1..] == cases[i + 1..] && cases[i..][0] == cases[i];
        DispatchPatch(v, cases, ts, at, i, start);
        ghost var x, y := CodeDispatch(v, cases, ts, at) + [Jump(0)], CodeDispatch(v, cases, ts[i := start], at) + [Jump(0)];
        DifferTail(Fix(x), Fix(y), [dispatch[i]], done, at, JumpIfTrue(start));
        DifferBounds(Fix(x) + done, Fix(y) + done, [dispatch[i]], at, JumpIfTrue(start));
        ExtendsDiffer(g, Snap(), Fix(x) + done, Fix(y) + done, [dispatch[i]], JumpIfTrue(start));
        ExtendsEnv(g, Snap(), Fix(x) + done);
        assert dispatch[i] in [dispatch[i]];
        PatchedOne(instructions, dispatch[i], JumpIfTrue(start));
        instructions := instructions[dispatch[i] := JumpIfTrue(|instructions|)];
        ts := ts[i := start];
        ghost var g1 := Snap();
        ghost var a := CodeB(cases[i].body, start, env);
        ExtendsEnv(g, g1, Fix(y) + done);
        CompileBlock(cases[i].body);
        ExtendsThen(g, g1, Snap(), Fix(y) + done, a);
        SameFins(g1, Snap(), a);
        assert Fix(y) + done + a == Fix(y) + (done + a);
        assert CodeB(FallThrough(cases, def), b, env)
            == done + a + CodeB(FallThrough(cases[i + 1..], def), b + |done + a|, env);
        assert starts[i + 1..] == starts[i..][1..];
        assert ts[..i + 1] == starts[..i + 1];
        done := done + a;
        i := i + 1;
      }
      assert ts == starts[..|cases|] && cases[i..] == [];
      CompileDefault(v, cases, def, noMatch, g, done);
    }

    method CompileDefault(v: string, cases: seq<Case>, def: OptBlock, noMatch: nat, ghost g: Gen, ghost done: seq<Emit>)
      requires noMatch == |g.ins| + DispatchLen(v, cases, |g.ins|) && finallyStack == g.fins
      requires var b := noMatch + 1;
               var starts := Starts(cases, b, EnvAt(g));
               && Extends(g, Snap(), Fix(CodeDispatch(v, cases, starts[..|cases|], |g.ins|) + [Jump(0)]) + done)
               && CodeB(FallThrough(cases, def), b, EnvAt(g)) == done + CodeB(FallThrough([], def), b + |done|, EnvAt(g))
               && starts[|cases|..] == Starts([], b + |done|, EnvAt(g))
      modifies this
      ensures var b := noMatch + 1;
              var starts := Starts(cases, b, EnvAt(g));
              Extends(g, Snap(), Fix(CodeDispatch(v, cases, starts[..|cases|], |g.ins|) + [Jump(starts[|cases|])])
                                 + CodeB(FallThrough(cases, def), b, EnvAt(g)))
      decreases SizeCases(cases) + SizeOpt(def) + SizeFins(finallyStack), 4
    {
      hide CodeB, CodeDispatch, DispatchLen, FallThrough, SizeCases, SizeOpt, SizeFins, Extends, EnvAt, Fix, SizeB, Differ, Patched, BodyOf, Starts;
      ghost var at := |g.ins|;
      ghost var b := noMatch + 1;
      ghost var env := EnvAt(g);
      ghost var starts := Starts(cases, b, env);
      ghost var disp := CodeDispatch(v, cases, starts[..|cases|], at);
      DispatchLength(v, cases, starts[..|cases|], at);
      FallThroughEnd(def, b + |done|, env);
      ghost var t := b + |done|;
      assert starts[|cases|] == starts[|cases|..][0];
      FixAppend(disp, [Jump(0)]);
      FixAppend(disp, [Jump(t)]);
      FixLength(disp);
      FixLength([Jump(0)]);
      DifferAt(Fix(disp), Jump(0), Jump(t), done, at);
      ExtendsDiffer(g, Snap(), Fix(disp + [Jump(0)]) + done, Fix(disp + [Jump(t)]) + done, [noMatch], Jump(t));
      ExtendsEnv(g, Snap(), Fix(disp + [Jump(0)]) + done);
      PatchedOne(instructions, noMatch, Jump(t));
      instructions := instructions[noMatch := Jump(|instructions|)];
      ghost var g1 := Snap();
      ExtendsEnv(g, g1, Fix(disp + [Jump(t)]) + done);
      ElseSize(def);
      CompileBlock(BodyOf(def));
      ghost var a := CodeB(BodyOf(def), t, env);
      ExtendsThen(g, g1, Snap(), Fix(disp + [Jump(t)]) + done, a);
      assert Fix(disp + [Jump(t)]) + done + a == Fix(disp + [Jump(t)]) + (done + a);
    }

    // ---- Try ----

    /** Compile `body` with `fin`, if there is one, on the pending list; the list is left extended. */
    method CompileGuarded(body: seq<Stmt>, fin: OptBlock)
      modifies this
      ensures finallyStack == Within1(old(EnvAt(Snap())), fin).fins
      ensures Extends(old(Snap()), Snap().(fins := old(finallyStack)),
                      CodeB(body, |old(instructions)|, Within1(old(EnvAt(Snap())), fin)))
      decreases SizeB(body) + SizeOpt(fin) + SizeFins(finallyStack), 3
    {
      hide CodeB, SizeB, SizeOpt, SizeFins, EnvOf, Recorded, Ops;
      ghost var g0 := Snap();
      if fin.Block? {
        SizeFinsSnoc(finallyStack, fin.ss);
        BlockSize(fin);
        finallyStack := finallyStack + [fin.ss];
      }
      GuardedEnv(g0, fin);
      CompileBlock(body);
    }

    method CompileTry(body: seq<Stmt>, catches: seq<Catch>, fin: OptBlock)
      modifies this
      ensures Extends(old(Snap()), Snap(), CodeTry(body, catches, fin, |old(instructions)|, EnvAt(old(Snap()))))
      decreases SizeB(body) + SizeCatches(catches) + SizeOpt(fin) + SizeFins(finallyStack), 8
    {
      if catches == [] && fin.Block? {
        CompileTryFinally(body, fin);
      } else {
        CompileTryCatch(body, catches, fin);
      }
    }

    /** `SaveException`, the `finally` body, `RestoreException`, `Rethrow`. */
    method EmitRethrow(fin: OptBlock)
      modifies this
      ensures Extends(old(Snap()), Snap(), CodeRethrow(fin, |old(instructions)|, EnvAt(old(Snap()))))
      decreases SizeOpt(fin) + SizeFins(finallyStack), 4
    {
      hide CodeB, Extends, EnvAt, Fix, SizeB, SizeFins;
      ghost var g0 := Snap();
      if fin.Absent? {
        Push(Rethrow);
        ExtendsFix(g0, Snap(), [Rethrow]);
      } else {
        Push(SaveExc);
        ghost var g1 := Snap();
        ExtendsFix(g0, g1, [SaveExc]);
        ExtendsEnv(g0, g1, Fix([SaveExc]));
        CompileBlock(fin.ss);
        ghost var g2 := Snap();
        ghost var f := CodeB(fin.ss, |g1.ins|, EnvAt(g0));
        ExtendsThen(g0, g1, g2, Fix([SaveExc]), f);
        Push(RestoreExc);
        Push(Rethrow);
        assert instructions == g2.ins + [RestoreExc, Rethrow];
        ExtendsFix(g2, Snap(), [RestoreExc, Rethrow]);
        ExtendsThen(g0, g2, Snap(), Fix([SaveExc]) + f, Fix([RestoreExc, Rethrow]));
      }
    }

    /** `TryStart`, the guarded body and `TryEnd`; the handler's address is still to be patched. */
    method CompileTryBody(body: seq<Stmt>, fin: OptBlock)
      modifies this
      ensures finallyStack == Within1(old(EnvAt(Snap())), fin).fins
      ensures Extends(old(Snap()), Snap().(fins := old(finallyStack)), TryHead(body, fin, |old(instructions)|, old(EnvAt(Snap())), 0))
      decreases SizeB(body) + SizeOpt(fin) + SizeFins(finallyStack), 4
    {
      hide CodeB, Extends, EnvAt, Fix, SizeB, SizeOpt, SizeFins, Within1;
      ghost var g0 := Snap();
      Push(TryStart(0));
      ghost var g1 := Snap();
      ExtendsFix(g0, g1, [TryStart(0)]);
      ExtendsEnv(g0, g1, Fix([TryStart(0)]));
      CompileGuarded(body, fin);
      ghost var g2 := Snap().(fins := g0.fins);
      ghost var a := CodeB(body, |g1.ins|, Within1(EnvAt(g0), fin));
      ExtendsThen(g0, g1, g2, Fix([TryStart(0)]), a);
      Push(TryEnd);
      ghost var g3 := Snap().(fins := g0.fins);
      ExtendsFix(g2, g3, [TryEnd]);
      ExtendsThen(g0, g2, g3, Fix([TryStart(0)]) + a, Fix([TryEnd]));
    }

    method CompileTryFinally(body: seq<Stmt>, fin: OptBlock)
      requires fin.Block?
      modifies this
      ensures Extends(old(Snap()), Snap(), CodeTry(body, [], fin, |old(instructions)|, EnvAt(old(Snap()))))
      decreases SizeB(body) + SizeOpt(fin) + SizeFins(finallyStack), 7
    {
      hide CodeB, CodeTry, CodeRethrow, Extends, EnvAt, Fix, SizeB, SizeOpt, SizeFins, Within1, TryHead, Patched, Differ;
      ghost var g0 := Snap();
      ghost var at := |g0.ins|;
      ghost var env := EnvAt(g0);
      var start := |instructions|;
      CompileTryBody(body, fin);
      GuardedFins(g0, fin);
      finallyStack := finallyStack[..|finallyStack| - 1];
      ghost var g1 := Snap();
      ghost var a := TryHead(body, fin, at, env, 0);
      ExtendsEnv(g0, g1, a);
      BlockSize(fin);
      CompileBlock(fin.ss);
      ghost var f := CodeB(fin.ss, |g1.ins|, env);
      ghost var g2 := Snap();
      ExtendsThen(g0, g1, g2, a, f);
      var over := |instructions|;
      Push(Jump(0));
      ghost var g3 := Snap();
      ExtendsFix(g2, g3, [Jump(0)]);
      ExtendsThen(g0, g2, g3, a + f, Fix([Jump(0)]));
      var handler := |instructions|;
      ghost var es := a + f + Fix([Jump(0)]);
      ghost var a' := TryHead(body, fin, at, env, handler);
      assert es == a + (f + Fix([Jump(0)])) && a' + f + Fix([Jump(0)]) == a' + (f + Fix([Jump(0)]));
      HeadPatch(g0, g3, body, fin, handler, f + Fix([Jump(0)]));
      instructions := instructions[start := TryStart(handler)];
      ghost var g4 := Snap();
      ExtendsEnv(g0, g4, a' + f + Fix([Jump(0)]));
      SameFins(g0, g4, a' + f + Fix([Jump(0)]));
      EmitRethrow(fin);
      ghost var h := CodeRethrow(fin, handler, env);
      ExtendsThen(g0, g4, Snap(), a' + f + Fix([Jump(0)]), h);
      JumpPatch(g0, Snap(), a' + f, h, |instructions|);
      PatchedOne(instructions, over, Jump(|instructions|));
      instructions := instructions[over := Jump(|instructions|)];
      TryFinallyCode(body, fin, at, env);
    }

    /** Test, bind, run, and jump to the end; the end jump's position is returned. */
    method CompileClause(c: Catch) returns (endJump: nat)
      modifies this
      ensures Extends(old(Snap()), Snap(), ClauseTo(c, |old(instructions)|, EnvAt(old(Snap())), 0))
      ensures endJump == |instructions| - 1
      decreases SizeB(c.body) + SizeFins(finallyStack), 3
    {
      hide CodeB, Extends, EnvAt, Fix, SizeB, SizeFins, Patched, Differ, ClauseType;
      ghost var g0 := Snap();
      ghost var at := |g0.ins|;
      Push(CatchMatch(ClauseType(c)));
      var noMatch := |instructions|;
      Push(JumpIfFalse(0));
      Push(Declare(c.name));
      Push(StoreVar(c.name));
      ghost var g1 := Snap();
      ghost var head := ClauseHead(c, 0);
      assert instructions == g0.ins + head;
      ExtendsFix(g0, g1, head);
      ExtendsEnv(g0, g1, Fix(head));
      CompileBlock(c.body);
      ghost var a := CodeB(c.body, |g1.ins|, EnvAt(g0));
      ghost var g2 := Snap();
      ExtendsThen(g0, g1, g2, Fix(head), a);
      endJump := |instructions|;
      Push(Jump(0));
      ExtendsFix(g2, Snap(), [Jump(0)]);
      ExtendsThen(g0, g2, Snap(), Fix(head) + a, Fix([Jump(0)]));
      ghost var tail := a + Fix([Jump(0)]);
      assert Fix(head) + a + Fix([Jump(0)]) == Fix(head) + tail;
      ClausePatch(g0, Snap(), c, tail, |instructions|);
      PatchedOne(instructions, noMatch, JumpIfFalse(|instructions|));
      instructions := instructions[noMatch := JumpIfFalse(|instructions|)];
      FixLength(head);
      FixLength([Jump(0)]);
      assert Fix(ClauseHead(c, |instructions|)) + tail == Fix(ClauseHead(c, |instructions|)) + a + Fix([Jump(0)]);
    }

    method CompileClauses(cs: seq<Catch>) returns (endJumps: seq<nat>)
      modifies this
      ensures Extends(old(Snap()), Snap(), ClausesTo(cs, |old(instructions)|, EnvAt(old(Snap())), 0))
      ensures endJumps == ClauseEnds(cs, |old(instructions)|, EnvAt(old(Snap())))
      decreases SizeCatches(cs) + SizeFins(finallyStack), 4
    {
      hide Extends, EnvAt, ClauseTo, ClausesTo, ClauseEnds, SizeCatches, SizeB, SizeFins;
      ghost var g0 := Snap();
      ghost var at := |g0.ins|;
      ghost var env := EnvAt(g0);
      endJumps := [];
      ExtendsNothing(g0);
      NoClauses(at, env);
      assert cs[..0] == [];
      var i := 0;
      while i < |cs|
        invariant 0 <= i <= |cs| && finallyStack == g0.fins
        invariant Extends(g0, Snap(), ClausesTo(cs[..i], at, env, 0))
        invariant endJumps == ClauseEnds(cs[..i], at, env)
      {
        ghost var g1 := Snap();
        ghost var done := ClausesTo(cs[..i], at, env, 0);
        ExtendsEnv(g0, g1, done);
        CatchSizes(cs, i);
        var endJump := CompileClause(cs[i]);
        endJumps := endJumps + [endJump];
        ghost var a := ClauseTo(cs[i], at + |done|, env, 0);
        ExtendsThen(g0, g1, Snap(), done, a);
        ExtendsEnv(g0, Snap(), done + a);
        SameFins(g1, Snap(), a);
        ClausesToSnoc(cs[..i], cs[i], at, env, 0);
        assert cs[..i + 1] == cs[..i] + [cs[i]];
        i := i + 1;
      }
      assert cs[..i] == cs;
    }

    method CompileTryCatch(body: seq<Stmt>, catches: seq<Catch>, fin: OptBlock)
      requires catches != [] || fin.Absent?
      modifies this
      ensures Extends(old(Snap()), Snap(), CodeTry(body, catches, fin, |old(instructions)|, EnvAt(old(Snap()))))
      decreases SizeB(body) + SizeCatches(catches) + SizeOpt(fin) + SizeFins(finallyStack), 7
    {
      hide CodeB, CodeTry, CodeRethrow, Extends, EnvAt, Fix, SizeB, SizeOpt, SizeFins, SizeCatches, Within1, TryHead, Patched, Differ, ClausesTo,
        ClauseEnds, BodyOf;
      ghost var g0 := Snap();
      ghost var at := |g0.ins|;
      ghost var env := EnvAt(g0);
      var saved := finallyStack;
      var start := |instructions|;
      CompileTryBody(body, fin);
      ghost var inner := finallyStack;
      ghost var g1 := Snap().(fins := g0.fins);
      ghost var a := TryHead(body, fin, at, env, 0);
      var over := |instructions|;
      Push(Jump(0));
      ghost var g2 := Snap().(fins := g0.fins);
      ExtendsFix(g1, g2, [Jump(0)]);
      ExtendsThen(g0, g1, g2, a, Fix([Jump(0)]));
      var handler := |instructions|;
      ghost var a' := TryHead(body, fin, at, env, handler);
      HeadPatch(g0, g2, body, fin, handler, Fix([Jump(0)]));
      instructions := instructions[start := TryStart(handler)];
      ghost var g3 := Snap().(fins := g0.fins);
      ExtendsEnv(g0, g3, a' + Fix([Jump(0)]));
      InnerEnv(g0, g3, fin, inner);
      WithinSize(g0, fin);
      var ends := CompileClauses(catches);
      ghost var cl := ClausesTo(catches, handler, Within1(env, fin), 0);
      OuterFins(g3.(fins := inner), Snap(), cl, g0.fins);
      if fin.Block? {
        GuardedFins(g0, fin);
        finallyStack := finallyStack[..|finallyStack| - 1];
      } else {
        GuardedFins(g0, fin);
      }
      ghost var g4 := Snap();
      ExtendsThen(g0, g3, g4, a' + Fix([Jump(0)]), cl);
      CompileHandlerEnd(body, catches, fin, g0, handler, over, ends);
    }

    /** No clause matched; then the end, to which every clause and the body jump; then the `finally` body. */
    method CompileHandlerEnd(body: seq<Stmt>, catches: seq<Catch>, fin: OptBlock, ghost g0: Gen, handler: nat, over: nat, ends: seq<nat>)
      requires catches != [] || fin.Absent?
      requires var env := EnvAt(g0);
               var a := TryHead(body, fin, |g0.ins|, env, handler);
               && over == |g0.ins| + |a| && handler == over + 1
               && ends == ClauseEnds(catches, handler, Within1(env, fin))
               && Extends(g0, Snap(), a + Fix([Jump(0)]) + ClausesTo(catches, handler, Within1(env, fin), 0))
      modifies this
      ensures Extends(g0, Snap(), CodeTry(body, catches, fin, |g0.ins|, EnvAt(g0)))
      decreases SizeOpt(fin) + SizeFins(finallyStack), 6
    {
      hide CodeB, CodeTry, CodeRethrow, Extends, EnvAt, Fix, SizeB, SizeOpt, SizeFins, Within1, TryHead, Patched, Differ, ClausesTo, ClauseEnds,
        BodyOf;
      ghost var at := |g0.ins|;
      ghost var env := EnvAt(g0);
      ghost var a := TryHead(body, fin, at, env, handler);
      ghost var cl := ClausesTo(catches, handler, Within1(env, fin), 0);
      ghost var es := a + Fix([Jump(0)]) + cl;
      ghost var g1 := Snap();
      SameFins(g0, g1, es);
      Push(Pop);
      ghost var g2 := Snap();
      ExtendsFix(g1, g2, [Pop]);
      ExtendsThen(g0, g1, g2, es, Fix([Pop]));
      ExtendsEnv(g0, g2, es + Fix([Pop]));
      EmitRethrow(fin);
      ghost var r := CodeRethrow(fin, |g2.ins|, env);
      ghost var g3 := Snap();
      ExtendsThen(g0, g2, g3, es + Fix([Pop]), r);
      var end := |instructions|;
      ghost var tail := Fix([Pop]) + r;
      assert es + Fix([Pop]) + r == a + Fix([Jump(0)]) + (cl + tail);
      JumpPatch(g0, g3, a, cl + tail, end);
      PatchedOne(instructions, over, Jump(end));
      instructions := instructions[over := Jump(end)];
      ghost var g4 := Snap();
      ghost var cl' := ClausesTo(catches, handler, Within1(env, fin), end);
      ghost var head := a + Fix([Jump(end)]);
      FixLength([Jump(end)]);
      ClausesDiffer(catches, handler, Within1(env, fin), end);
      DifferInside(head, cl, cl', ends, tail, at, Jump(end));
      assert a + Fix([Jump(end)]) + (cl + tail) == head + cl + tail;
      ExtendsDiffer(g0, g4, head + cl + tail, head + cl' + tail, ends, Jump(end));
      DifferBounds(head + cl + tail, head + cl' + tail, ends, at, Jump(end));
      ExtendsEnv(g0, g4, head + cl + tail);
      PatchAll(ends, Jump(end));
      ghost var g5 := Snap();
      ExtendsEnv(g0, g5, head + cl' + tail);
      SameFins(g0, g5, head + cl' + tail);
      ElseSize(fin);
      CompileBlock(BodyOf(fin));
      ghost var f := CodeB(BodyOf(fin), end, env);
      ExtendsThen(g0, g5, Snap(), head + cl' + tail, f);
      TryHeadLength(body, fin, at, env, handler);
      FixLength([Pop]);
      TryCatchCode(body, catches, fin, at, env, end);
    }

    // ---- Whole functions ----

    /** The body, closed by an implicit `return null`. */
    method CompileFunction(body: seq<Stmt>) returns (code: seq<Op>)
      requires Snap() == Gen([], [], [])
      modifies this
      ensures code == instructions == CodeFunction(body)
      ensures loopStack == [] && finallyStack == []
    {
      hide CodeB, Recorded;
      CompileBlock(body);
      ghost var a := CodeB(body, 0, Env([], None, None));
      RecordedNone(0, a);
      assert instructions == Ops(a, 0, 0);
      Push(Const(Null));
      Push(Ret);
      code := instructions;
    }

    // ---- Conditionals ----

    /** A condition, its body and a placeholder jump to the end, whose position is returned. */
    method CompileArm(cond: Expr, body: seq<Stmt>) returns (endJump: nat)
      modifies this
      ensures Extends(old(Snap()), Snap(), ArmTo(cond, body, |old(instructions)|, EnvAt(old(Snap())), 0))
      ensures endJump == |instructions| - 1
      decreases SizeB(body) + SizeFins(finallyStack), 3
    {
      hide Extends, CodeB, SizeB, EnvAt, EnvOf, CodeCond, CondLen, Fix, Retarget;
      ghost var g0 := Snap();
      ghost var at := |g0.ins|;
      ghost var env := EnvAt(g0);
      var exit := EmitCondJumpFalse(cond);
      ghost var g1 := Snap();
      ExtendsFix(g0, g1, CodeCond(cond, at, 0));
      ExtendsEnv(g0, g1, Fix(CodeCond(cond, at, 0)));
      CompileBlock(body);
      ghost var g2 := Snap();
      ghost var a := CodeB(body, |g1.ins|, env);
      ExtendsThen(g0, g1, g2, Fix(CodeCond(cond, at, 0)), a);
      endJump := |instructions|;
      Push(Jump(0));
      ExtendsFix(g2, Snap(), [Jump(0)]);
      ExtendsThen(g0, g2, Snap(), Fix(CodeCond(cond, at, 0)) + a, Fix([Jump(0)]));
      ghost var tail := a + Fix([Jump(0)]);
      assert Fix(CodeCond(cond, at, 0)) + a + Fix([Jump(0)]) == Fix(CodeCond(cond, at, 0)) + tail;
      ExtendsCond(g0, Snap(), cond, |instructions|, tail);
      PatchCondJumpTarget(exit, |instructions|);
      ArmParts(cond, body, at, env);
      assert Fix(CodeCond(cond, at, |instructions|)) + tail == Fix(CodeCond(cond, at, |instructions|)) + a + Fix([Jump(0)]);
    }

    method CompileIf(cond: Expr, thn: seq<Stmt>, elifs: seq<Arm>, els: OptBlock)
      modifies this
      ensures Extends(old(Snap()), Snap(), CodeIf(cond, thn, elifs, els, |old(instructions)|, EnvAt(old(Snap()))))
      decreases SizeB(thn) + SizeArms(elifs) + SizeOpt(els) + SizeFins(finallyStack), 5
    {
      if elifs == [] && els.Absent? {
        CompileThen(cond, thn);
      } else {
        CompileArms(cond, thn, elifs, els);
      }
    }

    method CompileThen(cond: Expr, thn: seq<Stmt>)
      modifies this
      ensures Extends(old(Snap()), Snap(), CodeIf(cond, thn, [], Absent, |old(instructions)|, EnvAt(old(Snap()))))
      decreases SizeB(thn) + SizeFins(finallyStack), 3
    {
      hide Extends, CodeB, SizeB, EnvAt, EnvOf, CodeCond, CondLen, Fix, Retarget;
      ghost var g0 := Snap();
      ghost var at := |g0.ins|;
      var exit := EmitCondJumpFalse(cond);
      ghost var g1 := Snap();
      ExtendsFix(g0, g1, CodeCond(cond, at, 0));
      ExtendsEnv(g0, g1, Fix(CodeCond(cond, at, 0)));
      CompileBlock(thn);
      ghost var a := CodeB(thn, |g1.ins|, EnvAt(g0));
      ExtendsThen(g0, g1, Snap(), Fix(CodeCond(cond, at, 0)), a);
      ExtendsCond(g0, Snap(), cond, |instructions|, a);
      PatchCondJumpTarget(exit, |instructions|);
    }

    method CompileArms(cond: Expr, thn: seq<Stmt>, elifs: seq<Arm>, els: OptBlock)
      requires elifs != [] || els.Block?
      modifies this
      ensures Extends(old(Snap()), Snap(), CodeIf(cond, thn, elifs, els, |old(instructions)|, EnvAt(old(Snap()))))
      decreases SizeB(thn) + SizeArms(elifs) + SizeOpt(els) + SizeFins(finallyStack), 4
    {
      hide Extends, CodeB, CodeArms, CodeIf, SizeB, SizeArms, SizeOpt, EnvAt, EnvOf, CodeCond, CondLen, Fix, ArmTo, ArmsTo, ArmEnds, BodyOf,
        Patched, Differ;
      ghost var g0 := Snap();
      ghost var at := |g0.ins|;
      ghost var env := EnvAt(g0);
      ghost var arms := [Arm(cond, thn)] + elifs;
      var endJump := CompileArm(cond, thn);
      var endJumps := [endJump];
      FirstArm(cond, thn, at, env);
      ExtendsEnv(g0, Snap(), ArmTo(cond, thn, at, env, 0));
      assert arms[..1] == [Arm(cond, thn)];
      SameFins(g0, Snap(), ArmTo(cond, thn, at, env, 0));
      var i := 0;
      while i < |elifs|
        invariant 0 <= i <= |elifs| && finallyStack == g0.fins
        invariant Extends(g0, Snap(), ArmsTo(arms[..i + 1], at, env, 0))
        invariant endJumps == ArmEnds(arms[..i + 1], at, env)
      {
        ghost var g1 := Snap();
        ghost var done := ArmsTo(arms[..i + 1], at, env, 0);
        ExtendsEnv(g0, g1, done);
        ArmSizes(elifs, i);
        endJump := CompileArm(elifs[i].cond, elifs[i].body);
        endJumps := endJumps + [endJump];
        ghost var a := ArmTo(elifs[i].cond, elifs[i].body, at + |done|, env, 0);
        ExtendsThen(g0, g1, Snap(), done, a);
        ExtendsEnv(g0, Snap(), done + a);
        SameFins(g1, Snap(), a);
        ArmsToSnoc(arms[..i + 1], elifs[i], at, env, 0);
        assert arms[..i + 2] == arms[..i + 1] + [elifs[i]];
        i := i + 1;
      }
      assert arms[..i + 1] == arms;
      ghost var g1 := Snap();
      ghost var x := ArmsTo(arms, at, env, 0);
      ExtendsEnv(g0, g1, x);
      ElseSize(els);
      CompileBlock(BodyOf(els));
      ghost var b := CodeB(BodyOf(els), at + |x|, env);
      ExtendsThen(g0, g1, Snap(), x, b);
      ExtendsEnv(g0, Snap(), x + b);
      ghost var end := |instructions|;
      ArmsDiffer(arms, at, env, end);
      DifferTail(x, ArmsTo(arms, at, env, end), endJumps, b, at, Jump(end));
      ExtendsDiffer(g0, Snap(), x + b, ArmsTo(arms, at, env, end) + b, endJumps, Jump(end));
      DifferBounds(x + b, ArmsTo(arms, at, env, end) + b, endJumps, at, Jump(end));
      PatchAll(endJumps, Jump(|instructions|));
      IfIsArms(cond, thn, elifs, els, at, env);
      ArmsToLength(arms, at, env, 0, end);
      ArmsToWhole(arms, els, at, env, end);
    }

    // ---- Jumps and the pending `finally` bodies ----

    /** Emit `fins` inline, innermost first, with the pending list detached. */
    method CompileUnwind(fins: seq<seq<Stmt>>)
      requires finallyStack == []
      modifies this
      ensures Extends(old(Snap()), Snap(), CodeUnwind(fins, |old(instructions)|, EnvAt(old(Snap()))))
      decreases SizeFins(fins), 3
    {
      hide Extends, CodeB, CodeUnwind, SizeB, SizeFins, EnvOf;
      ghost var g0 := Snap();
      ghost var at := |g0.ins|;
      ghost var env := EnvAt(g0);
      ghost var done: seq<Emit> := [];
      DetachedEnv(g0);
      ExtendsNothing(g0);
      assert fins[..|fins|] == fins;
      var i := |fins|;
      while i > 0
        invariant 0 <= i <= |fins| && finallyStack == [] && env.fins == []
        invariant Extends(g0, Snap(), done)
        invariant CodeUnwind(fins, at, env) == done + CodeUnwind(fins[..i], at + |done|, env)
        invariant SizeFins(fins[..i]) <= SizeFins(fins)
      {
        ghost var g1 := Snap();
        ghost var a := CodeB(fins[i - 1], at + |done|, env);
        ExtendsEnv(g0, g1, done);
        UnwindHead(fins[..i], at + |done|, env);
        assert fins[..i][..i - 1] == fins[..i - 1];
        NoFins();
        CompileBlock(fins[i - 1]);
        ExtendsThen(g0, g1, Snap(), done, a);
        SameFins(g1, Snap(), a);
        assert CodeUnwind(fins, at, env) == done + a + CodeUnwind(fins[..i - 1], at + |done + a|, env);
        done := done + a;
        i := i - 1;
      }
      assert fins[..i] == [];
      EmptyUnwind(at + |done|, env);
      assert done + [] == done;
    }

    /** `emit_finallys_above`. */
    method EmitFinallysAbove(depth: nat)
      modifies this
      ensures Extends(old(Snap()), Snap(),
                      CodeUnwind(FinsAbove(old(finallyStack), depth), |old(instructions)|, Detached(EnvAt(old(Snap())))))
      decreases SizeFins(finallyStack), 4
    {
      hide CodeUnwind, SizeFins, EnvOf, Recorded, Ops;
      ghost var g0 := Snap();
      DetachedEnv(g0);
      EmptyUnwind(|g0.ins|, Detached(EnvAt(g0)));
      if |finallyStack| <= depth {
        ExtendsNothing(g0);
        return;
      }
      var saved := finallyStack;
      finallyStack := [];
      SizeFinsDrop(saved, depth);
      CompileUnwind(saved[depth..]);
      finallyStack := saved;
    }

    method EmitBreakOutOfClosure()
      modifies this
      ensures Extends(old(Snap()), Snap(),
                      CodeUnwind(old(finallyStack), |old(instructions)|, Detached(EnvAt(old(Snap())))) + Fix([Const(Null), Ret]))
      decreases SizeFins(finallyStack), 5
    {
      hide CodeUnwind, SizeFins, EnvAt, EnvOf, Extends, Fix;
      ghost var g0 := Snap();
      EmitFinallysAbove(0);
      ghost var a := CodeUnwind(FinsAbove(g0.fins, 0), |g0.ins|, Detached(EnvAt(g0)));
      assert FinsAbove(g0.fins, 0) == g0.fins;
      ghost var g1 := Snap();
      Push(Const(Null));
      Push(Ret);
      assert instructions == g1.ins + [Const(Null), Ret];
      ExtendsFix(g1, Snap(), [Const(Null), Ret]);
      ExtendsThen(g0, g1, Snap(), a, Fix([Const(Null), Ret]));
    }

    method CompileBreak()
      modifies this
      ensures Extends(old(Snap()), Snap(), CodeBreak(EnvAt(old(Snap())), |old(instructions)|))
      decreases SizeFins(finallyStack), 6
    {
      hide CodeUnwind, SizeFins, Extends, FinsAbove, Recorded;
      ghost var g0 := Snap();
      if loopStack == [] {
        EmitBreakOutOfClosure();
      } else {
        EmitFinallysAbove(loopStack[|loopStack| - 1].finallyDepth);
        ghost var g1 := Snap();
        ghost var a := CodeUnwind(FinsAbove(g0.fins, g0.loops[|g0.loops| - 1].finallyDepth), |g0.ins|, Detached(EnvAt(g0)));
        ExtendsShape(g0, g1, a);
        var idx := |instructions|;
        Push(Jump(0));
        loopStack := AddBreaks(loopStack, [idx]);
        NotedBreak(g1, Snap());
        ExtendsThen(g0, g1, Snap(), a, [ToBreak]);
      }
    }

    /** The innermost frame that is a loop, skipping `switch` frames. */
    method FindLoop() returns (found: Option<nat>)
      ensures found == LoopIndex(loopStack)
    {
      var i := |loopStack|;
      assert loopStack[..i] == loopStack;
      while i > 0 && !loopStack[i - 1].isLoop
        invariant 0 <= i <= |loopStack|
        invariant LoopIndex(loopStack) == LoopIndex(loopStack[..i])
      {
        assert loopStack[..i][..i - 1] == loopStack[..i - 1];
        i := i - 1;
      }
      found := if i == 0 then None else Some(i - 1);
    }

    method CompileContinue()
      modifies this
      ensures Extends(old(Snap()), Snap(), CodeContinue(EnvAt(old(Snap())), |old(instructions)|))
      decreases SizeFins(finallyStack), 6
    {
      hide CodeUnwind, SizeFins, Extends, FinsAbove, Recorded, LoopIndex;
      ghost var g0 := Snap();
      var loop := FindLoop();
      if loop.None? {
        EmitBreakOutOfClosure();
      } else {
        EmitFinallysAbove(loopStack[loop.value].finallyDepth);
        ghost var g1 := Snap();
        ghost var a := CodeUnwind(FinsAbove(g0.fins, g0.loops[loop.value].finallyDepth), |g0.ins|, Detached(EnvAt(g0)));
        ExtendsShape(g0, g1, a);
        var idx := |instructions|;
        Push(Jump(0));
        var frame := loopStack[loop.value];
        loopStack := loopStack[loop.value := frame.(continues := frame.continues + [idx])];
        NotedContinue(g1, Snap(), loop.value);
        ExtendsThen(g0, g1, Snap(), a, [ToContinue]);
      }
    }

    method CompileReturn(ret: Option<Expr>)
      modifies this
      ensures Extends(old(Snap()), Snap(), CodeReturn(ret, EnvAt(old(Snap())), |old(instructions)|))
      decreases SizeFins(finallyStack), 6
    {
      hide CodeUnwind, SizeFins, Extends, EnvOf, Fix, CodeE;
      ghost var g0 := Snap();
      DetachedEnv(g0);
      match ret {
        case None => Push(Const(Null));
        case Some(e) => CompileExpression(e);
      }
      ghost var v := match ret case None => [Const(Null)] case Some(e) => CodeE(e, |g0.ins|);
      assert instructions == g0.ins + v;
      if finallyStack == [] {
        Push(Ret);
        assert instructions == g0.ins + (v + [Ret]);
        ExtendsFix(g0, Snap(), v + [Ret]);
      } else {
        Push(Declare(RETVAL));
        Push(StoreVar(RETVAL));
        ghost var g1 := Snap();
        ghost var head := v + [Declare(RETVAL), StoreVar(RETVAL)];
        assert instructions == g0.ins + head;
        ExtendsFix(g0, g1, head);
        ExtendsEnv(g0, g1, Fix(head));
        EmitFinallysAbove(0);
        assert FinsAbove(g0.fins, 0) == g0.fins;
        ghost var g2 := Snap();
        ghost var a := CodeUnwind(g0.fins, |g1.ins|, Detached(EnvAt(g0)));
        ExtendsThen(g0, g1, g2, Fix(head), a);
        Push(Load(RETVAL));
        Push(Ret);
        assert instructions == g2.ins + [Load(RETVAL), Ret];
        ExtendsFix(g2, Snap(), [Load(RETVAL), Ret]);
        ExtendsThen(g0, g2, Snap(), Fix(head) + a, Fix([Load(RETVAL), Ret]));
        FixLength(head);
      }
    }
  }
}
