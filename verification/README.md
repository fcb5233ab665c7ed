# RustCFML in Dafny

A model of parts of RustCFML, a CFML engine that compiles a syntax tree to stack bytecode, with proofs about it. It covers
the code generator's control flow, its slot-locals pass and struct literals, cycle-safe equality, character encodings and
the streaming decoder, allocation accounting, case-folding keys and their interner, the log appender and its CSV layout,
and the public keys of a component. `dafny verify dfyconfig.toml` checks everything.

## How it is laid out

| files | what they hold |
|---|---|
| `Names`, `Ast`, `Shapes` | case folding, the modelled syntax, the shapes recognised before fusing |
| `Values` | values and operators: checked integers, doubles, and what the fused instructions do with them |
| `Semantics`, `Watch` | the meaning of statements: a big-step interpreter, plain or watched |
| `Machine`, `Codegen` | the stack machine; the instruction sequence of each construct as a function |
| `ExprCorrect`, `Fusion`, `Simulation`, `Steps`, `StmtSimple`, `Placement`, `SwitchCorrect`, `StmtCorrect`, `FunctionCorrect` | the compiler theorem |
| `Emitter`, `Patching`, `Generator` | the generator as it runs: a growing vector, patch lists, pending `finally` bodies; proved to emit `Codegen`'s sequences |
| `Operators`, `Recognised`, `Summing` | what each operator, assignment and statement does, written out; the fused shapes; a program followed to the machine's last state |
| `Targets`, `Finally` | where jumps land; `finally` bodies |
| `Limits`, `Rounding`, `Departures`, `Misdirected` | where the emitted code departs from the meaning, and exactly when: casts, steps and tests; rounding; control flow; exceptions that end up elsewhere |
| `Slots`, `SlotPass`, `SlotRules`, `SlotLockstep`, `SlotInputs` | slot-resolved locals: both instruction forms, the pass, which names it takes, the lock-step theorem, bodies on which the forms part |
| `StructLiteral`, `StructExact` | dotted struct literals; exactly when one means its assignments |
| `DeepEqual`, `Bisimilarity` | the walk; what bisimilarity comes to, kind by kind |
| `Charset`, `CharsetBytes`, `StreamDecode` | the encodings and their round trips; their bytes; the incremental decoder |
| `Csv`, `CsvLines` | printing and splitting; splitting any line |
| `MemAccount`, `Key`, `Interner`, `Log`, `Component` | one component each |

The plain interpreter gives every statement its meaning with the plain operators and knows nothing of the compiler: `i++`,
`x += 1` and `x = x + 1` add, reading an undefined variable throws. The watched interpreter takes the same steps and stops
where an instruction that replaces them does something else; until then its run is the plain one (`WatchedIsPlain`), and
`TestDepartsExact`, `CountedStepExact`, `FlippedStepExact`, `MinusStepExact`, `ConstDepartsExact`,
`FinallyAfterCatchExact` and `RaisesLastAside` say exactly when it stops. Beyond those it stops only where a `finally` body
breaks off with a `break`, `continue` or `return` pending, and at an exception for which a jump out of a `try` has left a
handler in the way (`JumpKeepsHandler`). Programs with constants that the casts change, and `for` without a condition, have
theorems of their own.

The interpreter spends one unit of budget per loop iteration, so the compiler theorem speaks about terminating and diverging
runs alike: `CompiledRun` follows every finished run and keeps the machine running at least as long as the budget when the
interpreter exhausts it; `HaltedAgrees` is the converse. What control flow does not depend on (the arithmetic of doubles,
coercion of strings, truth of strings, matching of exception types) is a parameter of the theorems; `Rounding` uses the laws
of IEEE doubles. Every induction is written out, so lemmas carry `{:induction false}`.

The virtual machine's dispatch loop, `crates/cfml-vm/src/lib.rs`, is modelled for the instructions used here: the fused step
(lines 13441-13500), the taking load (11494-11540), the slot store (12123-12152) and arithmetic through doubles (47400-47418).
The rows below cite the instructions' definitions instead.

## Where the code departs from its documentation

* Only `ident CMP const` and strides written as expressions check that their constant fits in 32 bits. `const CMP ident`, the
  increment of a `for` and strides written as assignments are cast unchecked (`FusedBoundExact` and `FusedStepExact` give the
  exact condition, `FlippedBoundWraps` and `WideStepWraps` an input each).
* A fused step agrees with the plain step exactly on doubles and on integers that stay within 64 bits (`FusedStepIsPlain`).
  It wraps at the largest integer, where the plain step promotes to a double (`FusedStepOverflows`), and restarts a counter
  that is not a number.
* A fused comparison reads an undefined variable as null where the plain code throws, and lets a NaN pass `<=` or `>=`
  differently; otherwise it goes the same way (`FusedTestExact`, `UndefinedReadsNull`). `i++` and `x += K` do nothing to an
  undefined variable (`ConstOpExact`).
* `-` and `*` on integers go through doubles, `x -= K` and `x *= K` do not: above 2^53 they can differ (`ConstDepartsExact`,
  `MinusOneRounds`). `x -= 0` turns the negative zero into the positive one, `x - 0` does not.
* `for (;;)` emits no loop: wherever it stands in a block, only its initialiser is left (`DroppedLoop`, `NoTestReturnsNull`).
* An exception thrown in a catch body leaves the `try` without running its `finally`; otherwise the `finally` runs
  (`FinallyAfterCatchExact`, `SkippedFinallyFails`).
* `break` and `continue` out of a `try` body leave its handler installed, so the next exception outside the `try` goes to its
  clauses (`JumpKeepsHandler`, `HandlerLeft`); only `return` is repaired, when the frame exits.
* An exception out of a `finally` body leaves the one it replaces set aside. A `finally` further out that completes then
  raises that one instead of its own (`RaisesLastAside`, `LostException`).
* In a page or component frame, `x &= e` takes a string named `x` out of `variables` when the local `x` is not a string; its
  slot form does not (`TakeExact`, `TakesVariable`).
* The streaming decoder differs from `decode` on UTF-8 exactly when a block with a malformed byte ends inside a character that
  the next byte continues (`StreamExact`, `MalformedThenCut`).
* A byte-order mark wins over the requested encoding, so `decode` does not undo `encode` for unmarked encodings of texts that
  happen to begin like one (`Utf16RoundTripExact`, `Utf8RoundTripExact`).
* `local.x` on a filled slot whose name begins with two underscores reads the variable; the by-name instruction hides such
  names (`KeyReadExact`, `HiddenKeyRead`).
* A literal `{ a = { x: 1 }, a.b = 2 }` loses `x` (`LiteralExact`, `StructValueLost`).
* A thread that exits without having been armed takes its unflushed bytes with it (`LostIsUnarmed`, `UnarmedExitLoses`).
* After the number of log generations is lowered, the files left are no longer the last lines logged (`RotationExact`,
  `LoweringLoses`).

## Model

| member | source | states |
|---|---|---|
| ExprCorrect.SpineMeaning | crates/cfml-codegen/src/compiler.rs:6028-6092 | testing the flattened operands of an `and`/`or` spine left to right, stopping at the first that decides, is nested short-circuit evaluation |
| ExprCorrect.RunExpr | crates/cfml-codegen/src/compiler.rs:6028-6120 | running an expression's code pushes its value or raises its exception, that of an undefined variable included, and changes nothing else |
| Fusion.MatchedTest | crates/cfml-codegen/src/compiler.rs:3681-3731 | a recognised condition, either way round, compares its variable, whatever its value, with the bound it was matched to |
| Fusion.ForFusion | crates/cfml-codegen/src/compiler.rs:4088-4100 | a `for` in counted shape means entry test, then body, fused step and fused test at the bottom, for counters of every type, until a step or test departs |
| Fusion.WhileFusion | crates/cfml-codegen/src/compiler.rs:4616-4638 | hoisting the trailing stride of a `while` keeps its meaning when no `continue` targets the loop |
| Fusion.DoFusion | crates/cfml-codegen/src/compiler.rs:4670-4689 | the same for `do` |
| Fusion.BlockJumps | crates/cfml-codegen/src/compiler.rs:3935-3988 | a block without a top-level `continue` (or `break`) never ends in one |
| StmtCorrect.RunB | crates/cfml-codegen/src/compiler.rs:3030-3620 | the code of a block, placed anywhere in any context, leaves the machine where the interpreter's outcome says: next instruction, nearest break or loop target, return, handler, or still running |
| StmtCorrect.RunArms | crates/cfml-codegen/src/compiler.rs:3641-3667 | else-if chains take the first true arm and meet at the end |
| StmtCorrect.RunWhile | crates/cfml-codegen/src/compiler.rs:4616-4668 | `while`, fused or not, follows the interpreter through every iteration |
| StmtCorrect.RunDo | crates/cfml-codegen/src/compiler.rs:4670-4757 | likewise `do` |
| StmtCorrect.RunFor | crates/cfml-codegen/src/compiler.rs:4075-4211 | likewise `for` with a condition |
| StmtCorrect.RunCounted | crates/cfml-codegen/src/compiler.rs:4161-4211 | the bottom-tested code of a counted loop follows body, step and test |
| StmtCorrect.RunSwitch | crates/cfml-codegen/src/compiler.rs:4759-4841 | dispatch enters at the first matching case and falls through; break leaves the switch, continue passes through it |
| StmtCorrect.RunUnwind | crates/cfml-codegen/src/compiler.rs:2983-2997 | the inlined `finally` bodies run innermost first |
| StmtCorrect.RunBreak | crates/cfml-codegen/src/compiler.rs:3492-3516 | break runs the bodies it leaves and reaches its frame's exit, or returns null outside every frame |
| StmtCorrect.RunContinue | crates/cfml-codegen/src/compiler.rs:3517-3540 | continue likewise, to the nearest loop, skipping switch frames |
| StmtCorrect.RunReturn | crates/cfml-codegen/src/compiler.rs:3422-3472 | return evaluates its value first, runs every pending body, and returns that value |
| StmtCorrect.RunTry | crates/cfml-codegen/src/compiler.rs:4843-4988 | `try` with any clauses and `finally` follows the interpreter, through exceptions, jumps out of its body, and exceptions that a `finally` body raises over a pending one |
| StmtCorrect.RunRethrow | crates/cfml-codegen/src/compiler.rs:4872-4887 | on the exception path the `finally` body runs once and the same exception goes on |
| StmtCorrect.RunClauses | crates/cfml-codegen/src/compiler.rs:4913-4977 | the first clause whose type matches runs with the exception bound; with none the exception goes on |
| FunctionCorrect.CompiledRun | crates/cfml-codegen/src/compiler.rs:5057-5064 | unless the watched run stops, running a compiled function body gives the plain interpreter's value, exception, variables and output |
| FunctionCorrect.HaltedAgrees | crates/cfml-codegen/src/compiler.rs:5057-5064 | whenever the machine halts, the interpreter finishes within that many iterations, and unless the watched run stopped, with the result the machine shows |
| FunctionCorrect.BudgetIrrelevant | crates/cfml-codegen/src/compiler.rs:5057-5064 | the interpreter's finished result does not depend on its budget |
| Watch.WatchedIsPlain | crates/cfml-codegen/src/compiler.rs:5057-5064 | a watched run that does not stop is the run of the plain interpreter, in every construct |
| Watch.BlockOff | crates/cfml-codegen/src/compiler.rs:3627-3629 | likewise every block from every state |
| Values.StepIsAdd | crates/cfml-vm/src/ops/locals.rs:355-384 | adding a constant in place is the `+` operator, on every value |
| Names.SameNameExact | crates/cfml-common/src/key.rs:257-266 | two names are the same exactly when they are as long and differ at most in the case of A to Z |
| Operators.OnIntegers | crates/cfml-vm/src/ops/value.rs:89-108 | on integers the six comparisons are those of the numbers, and `+` is the sum, a double only past 64 bits |
| Operators.OnDoubles | crates/cfml-vm/src/ops/value.rs:89-118 | with a double on either side both are doubles; unordered ones pass `<=` and `>=` |
| Operators.OnOthers | crates/cfml-vm/src/ops/value.rs:187-226 | anything else compares by the language's order; arithmetic coerces the left operand first |
| Operators.Conditions | crates/cfml-common/src/dynamic.rs:2504-2540 | what counts as true among booleans, integers and null |
| Operators.ShortCircuit | crates/cfml-codegen/src/compiler.rs:6028-6092 | the table of `and` and `or`, the right side not evaluated when the left decides |
| Operators.CompoundIsPlain | crates/cfml-codegen/src/compiler.rs:3244-3270 | `x += e`, `-=`, `*=`, `/=`, `%=` leave what `x = x + e`, `-`, `*`, `/`, `%` leave, when `x` is defined or `e` evaluates |
| Operators.CompoundOrder | crates/cfml-codegen/src/compiler.rs:3234-3243 | otherwise the compound form raises the right side's exception, the plain one the variable's |
| Operators.CompoundStores | crates/cfml-codegen/src/compiler.rs:3234-3270 | the emitted code of each compound form stores that operator applied to the variable's value and the right side's |
| Operators.Stepped | crates/cfml-vm/src/ops/locals.rs:362-402 | `i++` adds and `i--` takes away one |
| Operators.StartsWith | crates/cfml-codegen/src/compiler.rs:4075-4083 | a `for` begins with its declaration or step |
| Operators.Defaults | crates/cfml-codegen/src/compiler.rs:3544-3550 | what a declaration, a `throw` and a `return` without a value leave |
| Operators.Stores | crates/cfml-codegen/src/compiler.rs:3199-3212 | assigning the literal null deletes, anything else stores |
| Operators.Branches | crates/cfml-codegen/src/compiler.rs:3623-3673 | the first true condition of an `if` chain decides, then `else` |
| Operators.Turns | crates/cfml-codegen/src/compiler.rs:4616-4668 | one turn of a `while` |
| Operators.TurnsFirst | crates/cfml-codegen/src/compiler.rs:4670-4757 | one turn of a `do`, the body before the condition |
| Operators.Enters | crates/cfml-codegen/src/compiler.rs:4793-4810 | a `switch` enters at the first case with an equal value |
| Operators.RunsOn | crates/cfml-codegen/src/compiler.rs:4812-4841 | and runs the bodies from there on, the default's last, until a break |
| Summing.ProgramSums | crates/cfml-codegen/src/compiler.rs:4088-4100 | `s = 0; for (i = 0; i < k; i++) s += i` means s = k(k - 1)/2, for every 32-bit k |
| Summing.MachineSums | crates/cfml-codegen/src/compiler.rs:4161-4211 | and its emitted code leaves exactly that in the machine |
| Targets.FunctionIsClosed | crates/cfml-codegen/src/compiler.rs:3492-3540 | no placeholder of a finished function is unpatched and every jump lands inside it |
| Targets.TidyB | crates/cfml-codegen/src/compiler.rs:4102-4156 | an open placeholder exists only where an enclosing frame will patch it |
| Finally.NestLeaves | crates/cfml-codegen/src/compiler.rs:4852-4887 | leaving a nest of try/finally by any non-throwing exit runs each body once, innermost first, and keeps the exit and its value |
| Finally.UnwindMarks | crates/cfml-codegen/src/compiler.rs:2983-2997 | bodies that each write a mark write them once, innermost first |
| Finally.ReturnRunsEachOnce | crates/cfml-codegen/src/compiler.rs:3422-3472 | compiled `return e` inside any nest of any `finally` bodies leaves what running each once, innermost first, leaves, and returns e's value |
| Finally.JumpRunsEachOnce | crates/cfml-codegen/src/compiler.rs:3492-3540 | `break` or `continue` inside a nest, placed anywhere in any context: the machine runs the nest's bodies, then those further out, and is at the jump's target |
| Finally.BreakRunsEachOnce | crates/cfml-codegen/src/compiler.rs:3492-3516 | so a whole program that leaves its loop by `break` out of a nest ends with what the bodies left |
| Finally.ContinueRunsEachOnce | crates/cfml-codegen/src/compiler.rs:3517-3540 | likewise for `continue`, before the loop tests again |
| Limits.FusedBoundExact | crates/cfml-codegen/src/compiler.rs:3709-3728 | a fused comparison is right for every counter exactly when the constant fits in 32 bits |
| Limits.FlippedBoundWraps | crates/cfml-codegen/src/compiler.rs:3717-3727 | an input on which the flipped form takes the wrong branch |
| Limits.FusedStepExact | crates/cfml-codegen/src/compiler.rs:4191-4193 | a fused step advances every 64-bit counter by the written amount exactly when the amount fits in 32 bits |
| Limits.WideStepWraps | crates/cfml-codegen/src/compiler.rs:4191-4193 | `for (i = 0; i < 10; i = i + 5000000000)`: its emitted code, which ends with the step truncated, and its meaning, which does not |
| Limits.FusedStepIsPlain | crates/cfml-codegen/src/compiler.rs:1118-1122 | on any value the fused step is the plain one exactly when that is a double or an integer whose step stays in 64 bits |
| Limits.FusedStepOverflows | crates/cfml-codegen/src/compiler.rs:1118-1122 | at 2^63 - 1 it wraps to the smallest integer, where the plain step gives a double |
| Limits.CountedStepExact | crates/cfml-codegen/src/compiler.rs:4088-4100 | so a counted loop by `i++`, `i--` or `i = i + K` departs at a step exactly there |
| Rounding.FlippedStepExact | crates/cfml-codegen/src/compiler.rs:3859-3925 | likewise `i = K + i` |
| Rounding.MinusStepExact | crates/cfml-codegen/src/compiler.rs:3859-3925 | `i = i - K` moreover where rounding shows, and for K = 0 on the negative zero |
| Limits.StrideAsStep | crates/cfml-codegen/src/compiler.rs:3883-3886 | the strides `x += K` and `x -= K` mean `x = x + K` and `x = x - K`, and depart where those do |
| Recognised.NameFirst | crates/cfml-codegen/src/compiler.rs:3709-3716 | the six comparisons of a name with a 32-bit constant are bounds, each with its own comparison |
| Recognised.ConstantFirst | crates/cfml-codegen/src/compiler.rs:3717-3727 | turned round, for any constant |
| Recognised.OnlyBounds | crates/cfml-codegen/src/compiler.rs:3681-3731 | nothing else is a bound |
| Recognised.Strides | crates/cfml-codegen/src/compiler.rs:3859-3925 | the statements that are strides and the amount of each |
| Recognised.NoStrides | crates/cfml-codegen/src/compiler.rs:3772-3852 | those that look alike and are not |
| Recognised.PlusStrideExact | crates/cfml-codegen/src/compiler.rs:3884-3884 | the stride `x += K` departs exactly where its fused step does |
| Recognised.MinusStrideExact | crates/cfml-codegen/src/compiler.rs:3885-3885 | likewise `x -= K`, with rounding |
| Limits.ConstOpExact | crates/cfml-vm/src/ops/locals.rs:386-450 | `i++`, `i--` and `x += K` do what their statement means exactly when the variable is defined |
| Rounding.MinusExact | crates/cfml-vm/src/ops/value.rs:110-113 | `x -= K` in one instruction is `x - K` exactly when rounding the operands and the difference to doubles leaves the exact result |
| Rounding.TimesExact | crates/cfml-vm/src/ops/value.rs:115-118 | likewise `x *= K` |
| Rounding.ConstDepartsExact | crates/cfml-vm/src/ops/locals.rs:355-384 | a constant assignment departs exactly on an undefined variable, an integer on which that rounding shows, or the negative zero in `x -= 0` |
| Rounding.SmallNeverShows | crates/cfml-vm/src/ops/value.rs:110-118 | nothing shows while operands and result are within 2^53 |
| Rounding.MinusOneRounds | crates/cfml-vm/src/ops/value.rs:110-113 | an input just above that bound on which it does |
| Limits.TestDepartsExact | crates/cfml-vm/src/ops/locals.rs:473-560 | a recognised condition departs exactly when its variable is undefined or, under `<=` or `>=`, does not compare |
| Limits.FusedTestExact | crates/cfml-codegen/src/compiler.rs:3737-3752 | for every recognised condition with a 32-bit limit, the fused jump and the plain condition with its jump go the same way, neither raising, exactly when it does not |
| Limits.UndefinedReadsNull | crates/cfml-vm/src/ops/locals.rs:473-560 | an input: undefined `i` in `i < K` is compared as null in fused form and throws in plain form |
| Departures.DroppedLoop | crates/cfml-codegen/src/compiler.rs:4105-4156 | a `for` without a condition, anywhere in a block in any context, runs as if only its initialiser were there, whatever its body and increment |
| Departures.DroppedFromFunction | crates/cfml-codegen/src/compiler.rs:4105-4156 | likewise among the statements of a function |
| Departures.NoTestReturnsNull | crates/cfml-codegen/src/compiler.rs:4105-4156 | so `for (;;) return 1` returns null, where it means 1 |
| Departures.ThrowFromCatchSkipsFinally | crates/cfml-codegen/src/compiler.rs:4919-4961 | whichever clause throws, the machine raises its exception in the state the clause left: the `finally` body has not run |
| Departures.FinallyAfterCatchExact | crates/cfml-codegen/src/compiler.rs:4843-4988 | after the body of a `try` threw, the machine runs the `finally` body and goes on as the `try` means exactly when the clause taken, if any, does not throw |
| Departures.SkippedFinallyFails | crates/cfml-codegen/src/compiler.rs:4919-4961 | a whole program that ends failed with nothing written, where it means writing first |
| Departures.JumpKeepsHandler | crates/cfml-codegen/src/compiler.rs:3492-3540 | however break or continue leaves a `try`, its handler is still installed at the jump's target and, unless a jump inside left another, catches the next exception there |
| Misdirected.HandlerLeft | crates/cfml-codegen/src/compiler.rs:3492-3540 | a whole program, with its emitted code: an exception after such a loop is caught by the clause of the `try` that was left, where the program means failing |
| Misdirected.RaisesLastAside | crates/cfml-codegen/src/compiler.rs:4872-4887 | after a `finally` body on the exception path completed, the machine raises the exception last set aside, which is the pending one exactly when the body left none |
| Misdirected.LostException | crates/cfml-vm/src/ops/locals.rs:25-49 | a whole program that means failing with one exception and fails with another, which a `finally` had replaced |
| Emitter.RecordedAppend | crates/cfml-codegen/src/compiler.rs:3503-3507 | emitting two pieces notes the open jumps of both, in order, on the frames that own them |
| Emitter.PatchLoop | crates/cfml-codegen/src/compiler.rs:4149-4155 | applying a frame's two patch lists fills exactly its body's break and continue holes |
| Emitter.RecordedInSwitch | crates/cfml-codegen/src/compiler.rs:4771-4777 | a switch frame collects the breaks of its body; the continues go to the loop outside |
| Generator.CollectSpine | crates/cfml-codegen/src/compiler.rs:6104-6115 | the loop down the left spine visits every node on it and stops at the first other operand |
| Generator.Compiler.CompileExpression | crates/cfml-codegen/src/compiler.rs:5767-6120 | appends exactly the recursive emission of the expression |
| Generator.Compiler.CompilePlainSpine | crates/cfml-codegen/src/compiler.rs:6094-6120 | the iterative walk emits the recursive emission's bytecode for every left-deep tree |
| Generator.Compiler.CompileLogicSpine | crates/cfml-codegen/src/compiler.rs:6028-6092 | every short jump is patched to the shared landing pad |
| Generator.Compiler.CompileStore | crates/cfml-codegen/src/compiler.rs:3199-3212 | the store, guarded when the value is a literal null, with both guard jumps patched |
| Generator.Compiler.CompileAssign | crates/cfml-codegen/src/compiler.rs:3217-3300 | one fused instruction for a constant step or factor, otherwise load, swap, operator, store |
| Generator.Compiler.EmitCondJumpFalse | crates/cfml-codegen/src/compiler.rs:3737-3752 | the condition, fused when its shape allows, and the position of its placeholder exit |
| Generator.Compiler.CompileBlock | crates/cfml-codegen/src/compiler.rs:3627-3629 | appends the block's code and notes its open jumps, leaving the stacks otherwise as they were |
| Generator.Compiler.CompileStatement | crates/cfml-codegen/src/compiler.rs:3030-3033 | likewise one statement |
| Generator.Compiler.CompileIf | crates/cfml-codegen/src/compiler.rs:3623-3673 | all end jumps are patched to the end and each exit to the next arm |
| Generator.Compiler.CompileLoopBody | crates/cfml-codegen/src/compiler.rs:4119-4129 | the loop frame on top holds exactly the positions of the body's break and continue jumps |
| Generator.Compiler.LeaveLoop | crates/cfml-codegen/src/compiler.rs:4149-4155 | pops the frame and overwrites exactly the noted positions |
| Generator.Compiler.CompileWhile | crates/cfml-codegen/src/compiler.rs:4616-4668 | emits the fused or plain loop with nothing left open |
| Generator.Compiler.CompileDo | crates/cfml-codegen/src/compiler.rs:4670-4757 | likewise `do` |
| Generator.Compiler.CompileForStatement | crates/cfml-codegen/src/compiler.rs:4075-4156 | likewise `for` |
| Generator.Compiler.CompileForCounted | crates/cfml-codegen/src/compiler.rs:4161-4211 | likewise the fused shape |
| Generator.Compiler.CompileDoCounted | crates/cfml-codegen/src/compiler.rs:4721-4757 | likewise the fused `do` |
| Generator.Compiler.EmitDispatch | crates/cfml-codegen/src/compiler.rs:4793-4810 | the comparisons of every case in order and the positions of the dispatch jumps |
| Generator.Compiler.CompileSwitch | crates/cfml-codegen/src/compiler.rs:4759-4841 | each dispatch jump reaches its body, the last one the default, breaks the end |
| Generator.Compiler.CompileTry | crates/cfml-codegen/src/compiler.rs:4843-4988 | both shapes of `try`, handler and end jumps patched, the pending list restored |
| Generator.Compiler.EmitFinallysAbove | crates/cfml-codegen/src/compiler.rs:2983-2997 | inlines the bodies above a depth, innermost first, and restores the pending list |
| Generator.Compiler.EmitBreakOutOfClosure | crates/cfml-codegen/src/compiler.rs:2999-3011 | inlines all pending bodies and returns null |
| Generator.Compiler.CompileBreak | crates/cfml-codegen/src/compiler.rs:3492-3516 | notes the placeholder on the innermost frame |
| Generator.Compiler.CompileContinue | crates/cfml-codegen/src/compiler.rs:3517-3540 | notes the placeholder on the innermost loop frame |
| Generator.Compiler.FindLoop | crates/cfml-codegen/src/compiler.rs:3521-3531 | finds the innermost frame that is a loop |
| Generator.Compiler.CompileReturn | crates/cfml-codegen/src/compiler.rs:3422-3472 | saves the value around the inlined bodies |
| Generator.Compiler.CompileFunction | crates/cfml-codegen/src/compiler.rs:5057-5064 | a whole body ends with both stacks empty and the code of the compiler theorem |
| SlotPass.AssignLocalSlots | crates/cfml-codegen/src/compiler.rs:524-779 | computes the chosen slot names and the rewritten body |
| SlotPass.Scan | crates/cfml-codegen/src/compiler.rs:537-686 | one pass finds the declarations and exclusions, or a disqualifying instruction |
| SlotPass.Filter | crates/cfml-codegen/src/compiler.rs:689-713 | the first sixty-four slottable names |
| SlotPass.SlotNamesAre | crates/cfml-codegen/src/compiler.rs:689-713 | slot names are distinct up to case, at most 64, never parameters, scope names or excluded names |
| SlotRules.SeesAllRefuses | crates/cfml-codegen/src/compiler.rs:500-560 | a closure, an include, a reflective function, a deletion or a write through `local`, a path that is no usable literal: any of them anywhere, and the body gets no slots and is left as it is |
| SlotRules.SlottedExact | crates/cfml-codegen/src/compiler.rs:635-713 | in any other body, below sixty-four, exactly the declared names get slots that are no parameter, no reserved scope and reached by no instruction without a slot form |
| SlotLockstep.AcceptedReachesNothing | crates/cfml-codegen/src/compiler.rs:500-516 | no instruction of an accepted body sees the whole of the locals, in any frame a run brings it to |
| SlotLockstep.LockStepExact | crates/cfml-codegen/src/compiler.rs:524-779 | the rewritten body, filled slots read as locals, is where the original is after each of the first n steps exactly when no step on the way is one of the named departures |
| SlotLockstep.LockStep | crates/cfml-codegen/src/compiler.rs:524-779 | the same for one number of steps, with the invariant it needs |
| SlotLockstep.AlwaysInStep | crates/cfml-codegen/src/compiler.rs:524-779 | from every frame and for every number of steps, when the code has none of the instructions that can depart |
| SlotLockstep.StepExact | crates/cfml-codegen/src/compiler.rs:1478-1506 | one rewritten instruction does what its by-name twin does exactly when it is not a taking load that would take elsewhere, a read of a hidden name, or a deletion below a filled slot |
| SlotLockstep.FilledExact | crates/cfml-vm/src/ops/locals.rs:380-470 | likewise on a filled slot |
| SlotLockstep.DeepExact | crates/cfml-vm/src/ops/locals.rs:929-963 | a deletion below a `local` variable in a filled slot agrees exactly when there is nothing to delete |
| SlotLockstep.FilledAgrees | crates/cfml-vm/src/ops/locals.rs:380-470 | on a filled slot: loads, stores, steps, properties, appends and the taking load of `x &= e` |
| SlotLockstep.EmptyAgrees | crates/cfml-codegen/src/compiler.rs:1483-1488 | on an empty one, including the store that fills it |
| SlotLockstep.UnsetAgrees | crates/cfml-vm/src/ops/locals.rs:929-963 | deleting `x` or `local.x` empties its slot |
| SlotLockstep.KeyReadExact | crates/cfml-vm/src/ops/locals.rs:634-700 | `local.x` on a filled slot agrees with the by-name read exactly when the name is not hidden from the `local` view; the tolerant read also when the slot holds null |
| SlotInputs.TakesVariable | crates/cfml-codegen/src/compiler.rs:1510-1519 | a body, its slot, and both runs up to the load where they differ |
| SlotInputs.HiddenKeyRead | crates/cfml-vm/src/ops/locals.rs:634-700 | likewise for the read of a hidden name |
| SlotLockstep.TakeExact | crates/cfml-codegen/src/compiler.rs:1510-1519 | the taking load on a filled slot agrees with the by-name one exactly when that one does not take a string of the same name from `variables` |
| SlotLockstep.AssembledIsStraight | crates/cfml-codegen/src/compiler.rs:555-600 | code put together from whole statements' pieces never jumps between a literal path and its dynamic write |
| StructLiteral.InsertStructPath | crates/cfml-codegen/src/compiler.rs:2392-2424 | the insertion of one path into the tree |
| StructLiteral.BuildTree | crates/cfml-codegen/src/compiler.rs:6665-6685 | the tree of all pairs |
| StructLiteral.InsertExact | crates/cfml-codegen/src/compiler.rs:2392-2424 | one pair means its assignment exactly when it crosses no leaf whose struct would have kept something |
| StructLiteral.LiteralMeansAssignments | crates/cfml-codegen/src/compiler.rs:2383-2391 | a literal of such pairs builds what assigning them left to right builds, spelling and order included |
| StructLiteral.PlainLiteral | crates/cfml-codegen/src/compiler.rs:2383-2391 | always so when no value is itself a struct |
| StructExact.LiteralExact | crates/cfml-codegen/src/compiler.rs:2383-2424 | a whole literal builds what its assignments build exactly when each struct that a dotted key grew over was grown over again, key for key |
| StructExact.TreeAssigns | crates/cfml-codegen/src/compiler.rs:2383-2391 | the tree that remembers those structs always means the assignments |
| StructExact.PlainTree | crates/cfml-codegen/src/compiler.rs:2392-2424 | without its memory it is the generator's tree |
| StructExact.ReadBack | crates/cfml-codegen/src/compiler.rs:2383-2391 | what an assignment leaves: its value under its path, other keys and all spellings and places as they were |
| StructLiteral.StructValueLost | crates/cfml-codegen/src/compiler.rs:2409-2415 | an input where a struct value is dropped |
| StructLiteral.TreeKeyed | crates/cfml-codegen/src/compiler.rs:2397-2405 | sibling keys stay distinct up to case at every level |
| StructLiteral.EmitStructTree | crates/cfml-codegen/src/compiler.rs:2430-2461 | emits the values in order and one construction per level |
| StructLiteral.TreeEmitted | crates/cfml-codegen/src/compiler.rs:2430-2461 | running that code pushes exactly the struct the tree stands for |
| StructLiteral.LiteralCode | crates/cfml-codegen/src/compiler.rs:6665-6686 | the code of a literal of such pairs leaves what its assignments build |
| StructExact.LiteralCodeExact | crates/cfml-codegen/src/compiler.rs:6665-6686 | the code of any literal does so exactly when each struct grown over was grown over again |
| DeepEqual.DeepEqGuard.Enter | crates/cfml-common/src/equality.rs:43-54 | same handle or a pair met before is settled, a new pair is recorded, and the stack limit is an error |
| DeepEqual.DeepEqGuard.DeepEqualWith | crates/cfml-common/src/equality.rs:67-191 | "equal" leaves every pair it added matched, "unequal" means no bisimulation relates the values |
| DeepEqual.DeepEqGuard.CompareStructs | crates/cfml-common/src/equality.rs:97-113 | equal sizes and one-way key lookups decide equality of the key sets up to case |
| DeepEqual.DeepEqGuard.CompareItems | crates/cfml-common/src/equality.rs:115-132 | arrays element by element |
| DeepEqual.DeepEqGuard.CompareQueries | crates/cfml-common/src/equality.rs:139-168 | queries by columns in order and cells |
| DeepEqual.DeepEqGuard.DeepEqual | crates/cfml-common/src/equality.rs:61-64 | on any finite, possibly cyclic heap the answer is true exactly when the values are bisimilar, and there is an answer whenever the stack has room for every pair of containers |
| DeepEqual.WalkIsBisimulation | crates/cfml-common/src/equality.rs:18-25 | the pairs met, with handle identity, are a bisimulation |
| DeepEqual.Reflexive | crates/cfml-common/src/equality.rs:57-60 | bisimilarity is reflexive |
| DeepEqual.Symmetric | crates/cfml-common/src/equality.rs:57-60 | symmetric |
| DeepEqual.Transitive | crates/cfml-common/src/equality.rs:57-60 | and transitive |
| Bisimilarity.Scalars | crates/cfml-common/src/equality.rs:57-64 | scalars are equal exactly letter for letter, or up to the case of A to Z |
| Bisimilarity.Instances | crates/cfml-common/src/equality.rs:67-96 | component instances exactly by identity |
| Bisimilarity.Kinds | crates/cfml-common/src/equality.rs:67-96 | values of different kinds never |
| Bisimilarity.Structs | crates/cfml-common/src/equality.rs:97-113 | structs exactly when each key of either is one of the other's up to case, with equal values under it |
| Bisimilarity.Arrays | crates/cfml-common/src/equality.rs:115-132 | arrays exactly when as long and equal item by item |
| Bisimilarity.Queries | crates/cfml-common/src/equality.rs:139-168 | queries exactly when columns agree in order and up to case, rows in number, and all cells |
| Charset.EncodeUtf16 | crates/cfml-common/src/charset.rs:112-125 | the bytes of every unit in order; decoding them gives the text back |
| Charset.Utf8RoundTrip | crates/cfml-common/src/charset.rs:77-80 | lossy UTF-8 decoding undoes encoding, for every text |
| Charset.UnitsRoundTrip | crates/cfml-common/src/charset.rs:367-378 | surrogate pairs put together again are the text |
| Charset.MarkedRoundTrip | crates/cfml-common/src/charset.rs:80-84 | every text survives UTF-16 with a mark |
| Charset.Utf16RoundTripExact | crates/cfml-common/src/charset.rs:154-184 | unmarked UTF-16 of either order returns exactly the texts whose first units do not come out as the bytes of a mark |
| Charset.NeverBoth | crates/cfml-common/src/charset.rs:172-176 | UTF-16 bytes that read as a UTF-8 mark never decode to the text they encode |
| Charset.Utf8RoundTripExact | crates/cfml-common/src/charset.rs:154-184 | for UTF-8 exactly the texts not beginning with U+FEFF |
| Charset.SingleByteRoundTrip | crates/cfml-common/src/charset.rs:87-109 | Latin-1, windows-1252 and US-ASCII return exactly the texts of characters they have |
| CharsetBytes.Utf16Bytes | crates/cfml-common/src/charset.rs:80-86 | `utf-16` is FE FF and then each unit, high byte first; the unmarked forms are the units in their own order |
| CharsetBytes.UnitsAre | crates/cfml-common/src/charset.rs:112-125 | the units of a character |
| CharsetBytes.UnpairedReplaced | crates/cfml-common/src/charset.rs:367-378 | after any text, a surrogate without its partner becomes one U+FFFD and decoding goes on |
| CharsetBytes.OddByteReplaced | crates/cfml-common/src/charset.rs:367-378 | and so does an odd byte at the end |
| CharsetBytes.Utf8Are | crates/cfml-common/src/charset.rs:79-79 | the bytes of a character in UTF-8: how many, their ranges, their bits |
| CharsetBytes.PiecesExact | crates/cfml-common/src/charset.rs:180-184 | what is decoded or replaced as one piece, in terms of the characters' bytes alone: a whole character, one byte that begins none, the longest run that begins one, or a cut-off character |
| CharsetBytes.PieceReplaced | crates/cfml-common/src/charset.rs:180-184 | after any text such a piece becomes one U+FFFD and decoding goes on behind it |
| CharsetBytes.MarkDecides | crates/cfml-common/src/charset.rs:358-366 | each of the three marks is dropped and decides the encoding, whichever Unicode one was asked for |
| CharsetBytes.UnmarkedDecides | crates/cfml-common/src/charset.rs:170-184 | without one the encoding asked for is used |
| CharsetBytes.BytesMean | crates/cfml-common/src/charset.rs:154-170 | the character of every byte in Latin-1, US-ASCII and windows-1252 |
| CharsetBytes.CharactersBecome | crates/cfml-common/src/charset.rs:87-109 | a character becomes the byte that means it, or `?` when there is none |
| StreamDecode.StreamDecoder.Push | crates/cfml-common/src/charset.rs:227-250 | the fast path and the buffered path emit and hold back the same |
| StreamDecode.StreamDecoder.PushSlow | crates/cfml-common/src/charset.rs:252-279 | settles the mark once, emits the decodable prefix, keeps the rest |
| StreamDecode.StreamDecoder.Finish | crates/cfml-common/src/charset.rs:282-288 | decodes what is left |
| StreamDecode.StreamExact | crates/cfml-common/src/charset.rs:186-199 | for every input and every cutting, the pushes and `finish` give `decode` of the whole exactly when no cut is bad |
| StreamDecode.StreamEqualsDecode | crates/cfml-common/src/charset.rs:186-199 | always so for the other encodings, marks included, and for UTF-8 well-formed up to a truncated last character |
| StreamDecode.RunUtf8 | crates/cfml-common/src/charset.rs:315-329 | a bad cut always yields more characters than the whole |
| StreamDecode.Utf16Split | crates/cfml-common/src/charset.rs:330-347 | holding back an odd byte and a high surrogate loses nothing |
| StreamDecode.MalformedThenCut | crates/cfml-common/src/charset.rs:319-325 | an input with a bad cut |
| StreamDecode.TailBounded | crates/cfml-common/src/charset.rs:199-205 | at most three bytes are held back |
| MemAccount.ThreadCounters.FlushIfDue | crates/cfml-common/src/mem_account.rs:95-109 | total plus pending moves by the change, and pending stays within bounds |
| MemAccount.ThreadCounters.CountAlloc | crates/cfml-common/src/mem_account.rs:136-147 | counts, raises the peak, and accounts |
| MemAccount.ThreadCounters.CountFree | crates/cfml-common/src/mem_account.rs:151-154 | counts and accounts |
| MemAccount.ThreadCounters.ExitFlush | crates/cfml-common/src/mem_account.rs:68-76 | nothing pending is lost |
| MemAccount.ThreadCounters.StartMeter | crates/cfml-common/src/mem_account.rs:223-231 | the peak restarts at what is in use |
| MemAccount.ThreadCounters.ReadMeter | crates/cfml-common/src/mem_account.rs:233-245 | the clamped differences |
| MemAccount.MeterReads | crates/cfml-common/src/mem_account.rs:220-245 | over every run, peak is the maximum over all prefixes, retained the clamped net, and retained never exceeds peak |
| MemAccount.PeakIsHighest | crates/cfml-common/src/mem_account.rs:136-154 | updating the peak on allocation only loses nothing |
| MemAccount.AlwaysAccounted | crates/cfml-common/src/mem_account.rs:66-109 | at every moment of every interleaving, total plus what has not reached it is the true net, and every cell is strictly within bounds |
| MemAccount.LiveIsNearlyExact | crates/cfml-common/src/mem_account.rs:177-184 | between calls, total plus pending is the net exactly when nothing was lost, and losses apart the total is off by less than the flush size per running thread |
| MemAccount.LostIsUnarmed | crates/cfml-common/src/mem_account.rs:60-76 | what was lost is the sum of the pending values of unarmed exits, over every run |
| MemAccount.CountAlone | crates/cfml-common/src/mem_account.rs:95-109 | a call no other interrupts leaves the total alone until the change reaches 65536 bytes, and then adds all of it |
| MemAccount.UnarmedExitLoses | crates/cfml-common/src/mem_account.rs:60-66 | an unarmed exit leaves the total wrong for good |
| Key.ComputeFoldHash | crates/cfml-common/src/key.rs:73-93 | eight bytes at a time and then the remainder |
| Key.EqualNamesHashAlike | crates/cfml-common/src/key.rs:59-72 | strings equal up to ASCII case have equal hashes, whatever their length and alignment |
| Key.HashesAre | crates/cfml-common/src/key.rs:73-93 | the hash of the empty name, of part of a word, of a word and of both |
| Key.LowerIs | crates/cfml-common/src/key.rs:59-72 | which bytes are lower-cased, and to what |
| Key.KeyEqIsSameFold | crates/cfml-common/src/key.rs:257-266 | neither the hash guard nor the pointer test changes equality |
| Key.KeyEqEquivalence | crates/cfml-common/src/key.rs:257-268 | equality is an equivalence |
| Key.ComputeCompare | crates/cfml-common/src/key.rs:282-292 | the loop computes the lexicographic order of the lower-cased names |
| Key.CompareEqual | crates/cfml-common/src/key.rs:277-280 | equal exactly when the keys are equal |
| Key.CompareFlips | crates/cfml-common/src/key.rs:280-292 | swapping the arguments reverses the order |
| Key.CompareTransitive | crates/cfml-common/src/key.rs:280-292 | the order is transitive |
| Key.FirstDifference | crates/cfml-common/src/key.rs:280-292 | the first byte in which the lower-cased names differ decides, as bytes are ordered, and otherwise the shorter name is less |
| Interner.FindExact | crates/cfml-common/src/key.rs:182-188 | finds the spelling exactly |
| Interner.KeyInterner.Intern | crates/cfml-common/src/key.rs:170-196 | returns its argument's text and adds at most that one name, only below the cap |
| Interner.RunKeeps | crates/cfml-common/src/key.rs:140-196 | every interleaving keeps every name in its own shard and bucket, and the count in step |
| Interner.NeverFarOverCap | crates/cfml-common/src/key.rs:189-194 | never more than cap plus fifteen names are stored |
| Interner.StoredOnce | crates/cfml-common/src/key.rs:178-192 | no spelling is stored twice |
| Interner.StoredForGood | crates/cfml-common/src/key.rs:178-192 | nothing stored is changed or dropped, however the run goes on |
| Interner.CallAlone | crates/cfml-common/src/key.rs:170-196 | a call no other interrupts stores a new name exactly below the cap, counts it and lets go of the lock |
| Interner.ShardIs | crates/cfml-common/src/key.rs:140-178 | a name's shard is the low four bits of its hash |
| Log.Logger.Open | crates/cfml-common/src/logging.rs:410-422 | a new file gets the header and the tracked size is the file's |
| Log.Logger.Rotate | crates/cfml-common/src/logging.rs:432-453 | every generation moves up one name, the current file becomes 1, the last is dropped |
| Log.Logger.RemoveAndShift | crates/cfml-common/src/logging.rs:442-453 | the renames, oldest first |
| Log.Logger.Append | crates/cfml-common/src/logging.rs:372-406 | while the line fits it is added to the current file and nothing else changes; otherwise the file becomes generation 1, the others move up one name, and a new one holds the header and the line |
| Log.RunRetainsSuffix | crates/cfml-common/src/logging.rs:372-454 | while the number of generations is never lowered, the remaining files, headers removed and oldest first, hold a suffix of all lines logged |
| Log.RotationExact | crates/cfml-common/src/logging.rs:431-453 | a rotation leaves a suffix exactly when it drops no line or nothing lies beyond the last generation |
| Log.LoweringLoses | crates/cfml-common/src/logging.rs:431-453 | an input where lowering it loses a line from the middle |
| Log.RunStaysSmall | crates/cfml-common/src/logging.rs:384-395 | every file is within the limit or holds one line at most |
| Log.NoFileTooLong | crates/cfml-common/src/logging.rs:384-395 | every file begins with the header and is within the limit or is the header with one logged line |
| Csv.CsvField | crates/cfml-common/src/logging.rs:279-289 | appends the field between quotes with its quotes doubled |
| Csv.FormatLine | crates/cfml-common/src/logging.rs:254-272 | the quoted fields, separated by commas; splitting the line gives them back |
| Csv.SplitLine | crates/cfml-common/src/cfhttp.rs:16-49 | the nested loops compute the fields |
| Csv.ReadQualified | crates/cfml-common/src/cfhttp.rs:26-38 | the inner loop reads to the closing qualifier, undoing doubled ones |
| Csv.SplitUndoesLine | crates/cfml-common/src/logging.rs:277-289 | for every non-empty sequence of fields, splitting undoes printing |
| CsvLines.RowSplits | crates/cfml-common/src/cfhttp.rs:16-49 | any row of cells, bare, qualified with text after, or unclosed at the end, is split into their values, for every delimiter and qualifier |
| CsvLines.LineIs | crates/cfml-common/src/logging.rs:254-289 | the printed line, character by character |
| CsvLines.EveryLine | crates/cfml-common/src/cfhttp.rs:16-49 | and every line is such a row |
| Component.FromMarker | crates/cfml-common/src/component.rs:291-333 | the tables built from the scopes, and the invariant that access keys are the lower-cased method names |
| Component.HarvestEntries | crates/cfml-common/src/component.rs:305-326 | one scope's functions, first one of a name deciding |
| Component.FirstFunctionDecides | crates/cfml-common/src/component.rs:291-333 | across the public and then the private scope, the first function under a name, whatever its spelling, fixes its access |
| Component.MethodsExact | crates/cfml-common/src/component.rs:291-333 | exactly the functions swept are methods, and nothing else has an access |
| Component.MethodsInOrder | crates/cfml-common/src/component.rs:305-326 | in the order in which their spellings first appear |
| Component.ListedExact | crates/cfml-common/src/component.rs:1249-1283 | a key is listed exactly when it is the instance's own, or a public or remote method that no own key shadows |
| Component.ListedInOrder | crates/cfml-common/src/component.rs:1249-1283 | own keys first and in their order, then the methods in theirs |
| Component.InstancePublicKeys | crates/cfml-common/src/component.rs:1249-1283 | own keys in order, then the public methods no own key shadows |
| Component.ProbeAgreesWithEnumeration | crates/cfml-common/src/component.rs:1220-1243 | the probe is true exactly when the enumeration lists the key up to case and it is not a null data member |
| Component.ProbeOnBuiltClass | crates/cfml-common/src/component.rs:1220-1243 | with no assumption left when the class was built from its marker |

## Left out

- StmtCorrect.RunB: a `for` has a condition and fused constants fit in 32 bits (`Limits` and `Departures` have the rest); no claim about what follows the point where the watched run stops; programs where `break` or `continue` leaves a `finally` body are not covered.
- FunctionCorrect.CompiledRun: the same limits, and variable names beginning like the generator's own temporaries are excluded.
- Finally.BreakRunsEachOnce: one loop; any context is in `Finally.JumpRunsEachOnce`. Likewise `Finally.ContinueRunsEachOnce`.
- Finally.NestLeaves: exits by exception are covered by `RunTry` and `RunRethrow`, not by this statement.
- Limits.ConstOpExact: `x *= K` has the same branch; its rounding is in `Rounding.TimesExact`.
- SlotLockstep.LockStep: the slot model has no exception handlers, an exception ends the frame; containers shared between variables are not modelled, nor method calls on a slot.
- SlotLockstep.AssembledIsStraight: that the generator emits whole pieces and patches jumps only to where pieces begin is read off its code, not proved of the whole generator.
- Values.Apply: dates, booleans and strings as operands are coerced by a parameter; comparisons other than of numbers likewise.
- MemAccount.LiveIsNearlyExact: 64-bit wrap-around of the counters and weaker memory orderings are not modelled: each access is one step that every thread sees.
- Interner.NeverFarOverCap: the environment switch that reads the cap is a parameter; a cap of zero is only in `KeyInterner.Intern`.
- CsvLines.RowSplits: a delimiter that is also the qualifier is left out.
- Key.HashesAre: that the hash spreads names is not claimed, only its values on four names and that equal names hash alike.
- Log.RunStaysSmall: sizes count characters, where the appender counts bytes; likewise `Log.NoFileTooLong` and `Log.Logger.Append`.
- Log.RunRetainsSuffix: exact per rotation (`RotationExact`), sufficient for whole runs.
- `for`-`in` loops, custom tags, closures, includes, `rethrow` statements, named and spread arguments, component emission.
- Expressions with side effects other than assignments and steps in statement position; property and array targets.
- The VM beyond one frame and the parser; scope routing is a parameter of the slot model.
- Real files, clocks, thread names, I/O errors and the stderr fallback of the logger.
- Buffering of the log writer: a file's contents include what is still buffered.
