/** One machine step, instruction by instruction, and short straight-line runs. */
module Steps {
  import opened Names
  import opened Ast
  import opened Shapes
  import opened Values
  import opened Semantics
  import opened Machine
  import opened Codegen
  import opened ExprCorrect

  lemma {:induction false} StepSkip(w: World, code: seq<Op>, f: Frame, op: Op)
    requires Here(code, f, op) && (op.LineInfo? || op.Declare?)
    ensures RunN(w, code, 1, Run(f)) == Next(f)
  {
    Advance(w, code, f, op);
  }

  lemma {:induction false} StepStore(w: World, code: seq<Op>, f: Frame, name: string, stack: seq<Value>, v: Value)
    requires Here(code, f, StoreVar(name)) && f.stack == stack + [v]
    ensures RunN(w, code, 1, Run(f)) == Next(SetVar(f.(stack := stack), name, v))
  {
    Advance(w, code, f, StoreVar(name));
    assert Front(f.stack) == stack;
  }

  lemma {:induction false} StepPop(w: World, code: seq<Op>, f: Frame)
    requires Here(code, f, Pop)
    ensures RunN(w, code, 1, Run(f)) == Next(f.(stack := Front(f.stack)))
  {
    Advance(w, code, f, Pop);
  }

  lemma {:induction false} StepSwap(w: World, code: seq<Op>, f: Frame, stack: seq<Value>, a: Value, b: Value)
    requires Here(code, f, Swap) && f.stack == stack + [a] + [b]
    ensures RunN(w, code, 1, Run(f)) == Next(f.(stack := stack + [b] + [a]))
  {
    Advance(w, code, f, Swap);
    assert f.stack[..|f.stack| - 2] + [f.stack[|f.stack| - 1], f.stack[|f.stack| - 2]] == stack + [b] + [a];
  }

  lemma {:induction false} StepNotNull(w: World, code: seq<Op>, f: Frame, t: nat, stack: seq<Value>)
    requires Here(code, f, JumpIfNotNull(t)) && f.stack == stack + [Null]
    ensures RunN(w, code, 1, Run(f)) == Next(f)
  {
    Advance(w, code, f, JumpIfNotNull(t));
  }

  lemma {:induction false} StepUnset(w: World, code: seq<Op>, f: Frame, name: string)
    requires Here(code, f, Unset(name))
    ensures RunN(w, code, 1, Run(f)) == Next(f.(vars := f.vars - {Fold(name)}))
  {
    Advance(w, code, f, Unset(name));
  }

  lemma {:induction false} StepText(w: World, code: seq<Op>, f: Frame, text: string)
    requires Here(code, f, WriteText(text))
    ensures RunN(w, code, 1, Run(f)) == Next(f.(out := f.out + [text]))
  {
    Advance(w, code, f, WriteText(text));
  }

  /** What an instruction that updates a variable in place leaves behind. */
  ghost predicate UpdatedIn(r: Res, f: Frame, name: string, c: Config) {
    match r
    case Val(v) => c == Next(SetVar(f, name, v))
    case Exc(x) => RaisedIn(f, x, c)
  }

  lemma {:induction false} StepIncr(w: World, code: seq<Op>, f: Frame, op: Op, v: Value)
    requires Here(code, f, op) && (op.Incr? || op.AddConst?) && Lookup(f.vars, op.name) == Some(v)
    ensures UpdatedIn(StepValue(w, v, op.amount), f, op.name, RunN(w, code, 1, Run(f)))
  {
    Advance(w, code, f, op);
  }

  lemma {:induction false} StepMul(w: World, code: seq<Op>, f: Frame, name: string, amount: int, v: Value)
    requires Here(code, f, MulConst(name, amount)) && Lookup(f.vars, name) == Some(v)
    ensures UpdatedIn(MulValue(w, v, amount), f, name, RunN(w, code, 1, Run(f)))
  {
    Advance(w, code, f, MulConst(name, amount));
  }

  lemma {:induction false} StepCmp(w: World, code: seq<Op>, f: Frame, name: string, limit: int, cmp: Cmp, t: nat)
    requires Here(code, f, JumpCmpFalse(name, limit, cmp, t))
    ensures RunN(w, code, 1, Run(f)) == if FusedBound(w, name, limit, cmp, f.vars) then Next(f) else Goto(f, t)
  {
    Advance(w, code, f, JumpCmpFalse(name, limit, cmp, t));
  }

  lemma {:induction false} StepLoop(w: World, code: seq<Op>, f: Frame, name: string, limit: int, cmp: Cmp, amount: int, t: nat)
    requires Here(code, f, LoopStep(name, limit, cmp, amount, t))
    ensures var v := FusedStep(w, Lookup(f.vars, name), amount);
            var g := SetVar(f, name, v);
            RunN(w, code, 1, Run(f)) == (if FusedTest(w, cmp, v, limit) then Goto(g, t) else Next(g))
  {
    Advance(w, code, f, LoopStep(name, limit, cmp, amount, t));
  }

  lemma {:induction false} StepTryStart(w: World, code: seq<Op>, f: Frame, t: nat)
    requires Here(code, f, TryStart(t))
    ensures RunN(w, code, 1, Run(f)) == Next(f.(handlers := f.handlers + [Handler(t, |f.stack|)]))
  {
    Advance(w, code, f, TryStart(t));
  }

  lemma {:induction false} StepTryEnd(w: World, code: seq<Op>, f: Frame)
    requires Here(code, f, TryEnd)
    ensures RunN(w, code, 1, Run(f)) == Next(f.(handlers := Front(f.handlers)))
  {
    Advance(w, code, f, TryEnd);
  }

  lemma {:induction false} StepThrow(w: World, code: seq<Op>, f: Frame, stack: seq<Value>, v: Value)
    requires Here(code, f, ThrowOp) && f.stack == stack + [v]
    ensures RaisedIn(f, w.wrap(v), RunN(w, code, 1, Run(f)))
  {
    Advance(w, code, f, ThrowOp);
  }

  lemma {:induction false} StepRethrow(w: World, code: seq<Op>, f: Frame, x: Value)
    requires Here(code, f, Rethrow) && f.last == Some(x)
    ensures RaisedIn(f, x, RunN(w, code, 1, Run(f)))
  {
    Advance(w, code, f, Rethrow);
  }

  lemma {:induction false} StepSave(w: World, code: seq<Op>, f: Frame)
    requires Here(code, f, SaveExc)
    ensures RunN(w, code, 1, Run(f)) == Next(f.(saves := f.saves + [f.last]))
  {
    Advance(w, code, f, SaveExc);
  }

  lemma {:induction false} StepRestore(w: World, code: seq<Op>, f: Frame, saves: seq<Option<Value>>, x: Option<Value>)
    requires Here(code, f, RestoreExc) && f.saves == saves + [x]
    ensures RunN(w, code, 1, Run(f)) == Next(f.(last := x, saves := saves))
  {
    Advance(w, code, f, RestoreExc);
    assert Front(f.saves) == saves;
  }

  lemma {:induction false} StepCatchMatch(w: World, code: seq<Op>, f: Frame, ty: string)
    requires Here(code, f, CatchMatch(ty))
    ensures RunN(w, code, 1, Run(f)) == Push(f, Bool(w.matches(ty, Top(f.stack))))
  {
    Advance(w, code, f, CatchMatch(ty));
  }

  lemma {:induction false} StepRet(w: World, code: seq<Op>, f: Frame, stack: seq<Value>, v: Value)
    requires Here(code, f, Ret) && f.stack == stack + [v]
    ensures RunN(w, code, 1, Run(f)) == Done(v, f.vars, f.out)
  {
    Advance(w, code, f, Ret);
  }

  // ---- Conditions ----

  /** A condition leaves the frame as it was, at the next instruction or at the jump target. */
  ghost predicate Decided(t: Truth, f: Frame, len: nat, target: nat, c: Config) {
    match t
    case Yes => c == Run(f.(pc := f.pc + len))
    case No => c == Run(f.(pc := target))
    case Bad(x) => RaisedIn(f, x, c)
    case Unknown => true
  }

  lemma {:induction false} RunPlainCond(w: World, code: seq<Op>, e: Expr, f: Frame, when: bool, t: nat) returns (n: nat, c: Config)
    requires At(code, f.pc, CodeE(e, f.pc) + [if when then JumpIfTrue(t) else JumpIfFalse(t)])
    ensures RunN(w, code, n, Run(f)) == c && n >= 1
    ensures var len := |CodeE(e, f.pc)| + 1;
            match Test(w, e, f.vars)
            case Yes => c == Run(f.(pc := if when then t else f.pc + len))
            case No => c == Run(f.(pc := if when then f.pc + len else t))
            case Bad(x) => RaisedIn(f, x, c)
  {
    hide RunN, Exec1, At, CodeE, Eval, RaisedIn, TruthOf;
    var a := CodeE(e, f.pc);
    var j := if when then JumpIfTrue(t) else JumpIfFalse(t);
    AtSplit(code, f.pc, a, [j]);
    n, c := RunExpr(w, code, e, f);
    if Eval(w, e, f.vars).Val? {
      var v := Eval(w, e, f.vars).v;
      var f1 := f.(pc := f.pc + |a|, stack := f.stack + [v]);
      AtOne(code, f.pc + |a|, [j], 0);
      StepBranch(w, code, f1, when, t, f.stack, v);
      RunAdd(w, code, n, 1, Run(f));
      n, c := n + 1, RunN(w, code, 1, Run(f1));
      if TruthOf(w, v).Bad? {
        RaisedSame(f, f.(pc := f1.pc), TruthOf(w, v).x, c);
      }
    }
  }
}
