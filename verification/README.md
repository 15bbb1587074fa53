# A verified model of the ExtendedInterpreter stack machine

`ExtendedInterpreter` (solutions/interpret.py) runs the bytecode of one Java
method on a small stack machine. Its state is a program counter `pc`, an
operand stack `stack` whose top is the front of the list, the local slots
`locals` (the method's inputs) and a terminal marker `done`. `interpret(limit)`
fetches `bytecode[pc]`, looks up the `step_<opr>` handler by the instruction's
operation name and runs it. It stops when `done` is truthy. It answers
"can't handle '<opr>'" for an operation without a handler, and "out of time"
when `limit` steps pass without finishing.

The model has four modules:

- `Values` (values.dfy): the values `int` and `boolean`. `AsInt` gives the
  integer a boolean stands for in arithmetic (0 or 1). `FloorDiv` is the
  host language's `//`, which rounds toward negative infinity. It is proved
  to be the unique floor quotient.
- `Bytecode` (bytecode.dfy): the instruction set as a closed datatype.
  `Status` is what `done` can hold. `State` is the machine state. `CanStep`
  says what a handler needs in order not to raise an indexing error. `Step`
  gives the state after one handler has run. The lemmas state each opcode's
  effect and the stack discipline against an independent pops/pushes table.
- `Run` (run.dfy): the loop as a function. `Exec` is the run from a state
  with a step budget, and `Safe` says that no handler or fetch faults before
  the run stops. The halt test is a parameter: `DoneIsTruthy` is the code's
  test, and `DoneIsSet` is the corrected one (see Findings). The lemmas cover
  how a run can end, how budgets compare, single instructions at the head of
  a run, and whole example programs.
- `Interpreter` (interpreter.dfy): the class `ExtendedInterpreter` with the
  same fields, updated in place. Each `step_*` handler is a method whose
  postcondition gives the whole new state. `Dispatch` is proved to move the
  object exactly as `Step` does. `Interpret` is the counted loop, proved to
  return what `Exec` reports and to leave the object in `Exec`'s final
  state. The class follows the code as written: it halts on a truthy `done`.

Behaviour of the code that the model keeps:

- `divide` by zero pops both operands, pushes nothing, and still advances
  `pc` (solutions/interpret.py:153-159).
- `store` writes into an existing slot. An index past the end of `locals`
  raises (solutions/interpret.py:187), so the index must be inside
  `locals`.
- Booleans act as 0 and 1 in arithmetic and comparisons, and every
  arithmetic result is an integer (solutions/interpret.py:134-176).
- An unknown operation name carries the type `UnknownOpr`. That type
  excludes the fifteen names that have a handler, because for those the
  lookup at solutions/interpret.py:97 finds the handler.
- An out-of-range `pc`, an empty-stack pop and an out-of-range local index
  raise exceptions (solutions/interpret.py:91, 119, 181, 187). They are
  preconditions (`CanStep`, `Safe`), not outcomes.

## Model

| member | source | states |
|---|---|---|
| `Values.AsInt` | solutions/interpret.py:134-176 | definition: the integer a value stands for in `+`, `-`, `*`, `//`, `>=` and `!=` (a boolean is 0 or 1); its effect on each handler is stated by `Bytecode.OperandOrder`, `Bytecode.DivideEffect` and `Bytecode.BranchEffect` |
| `Values.FloorDiv` | solutions/interpret.py:158 | definition of `val2 // val1`; `Values.FloorDivIsFloorQuotient` and `Values.FloorQuotientUnique` prove it is exactly the quotient rounded toward negative infinity |
| `Bytecode.Initial` | solutions/interpret.py:73-78 | definition: the inputs as `locals`, an empty stack, `pc` 0 and no `done`; `Interpreter.ExtendedInterpreter.constructor` is proved to build it |
| `Bytecode.Truthy` | solutions/interpret.py:102 | definition of the `if self.done:` test: unset is false, every status text is true, a returned value is true when it is not 0 or false; `Run.NeverReturnsFalsy` and `Run.IReturnFalsyRepeats` state its consequences |
| `Bytecode.CanStep` | solutions/interpret.py:119-197 | definition: the stack holds enough operands for the handler's `pop(0)` and `stack[0]`/`stack[1]` reads, and a `load`/`store` index is inside `locals`; otherwise the handler raises |
| `Bytecode.Step` | solutions/interpret.py:114-197 | definition of all fifteen `step_*` handlers on a state value; `Interpreter.ExtendedInterpreter.Dispatch` is proved to move the object exactly as it does, and the `Bytecode` lemmas above state each handler's effect |
| `Run.Halts` | solutions/interpret.py:102 | definition of the halt test: `DoneIsTruthy` is the code's `if self.done:` (`Truthy`), `DoneIsSet` the corrected test that stops once `done` holds anything; `Run.ExecOutcome` states that every finished run passes it |
| `Run.Budget` | solutions/interpret.py:90 | definition: `range(limit)` runs `limit` iterations, none when `limit` is not positive; `Interpreter.ExtendedInterpreter.Interpret` is proved to run that many steps at most |
| `Run.Safe` | solutions/interpret.py:89-98 | definition: within the budget, every fetch `bytecode[pc]` finds an instruction and every handler that runs satisfies `CanStep`, so no exception is raised; `Run.SafeMonotone` states it is kept under a smaller budget |
| `Values.FloorDivIsFloorQuotient` | solutions/interpret.py:158 | the quotient of `val2 // val1` leaves a remainder with the divisor's sign, smaller in magnitude than the divisor (rounding toward negative infinity) |
| `Values.FloorQuotientUnique` | solutions/interpret.py:158 | any integer with that remainder property equals `FloorDiv`, so `FloorDiv` is exactly the floor division |
| `Values.FloorDivRoundsDown` | solutions/interpret.py:158 | -7 // 2 = -4 and 7 // -2 = -4 (not -3), -7 // -2 = 3, and exact divisions are unaffected |
| `Bytecode.HandlerFoundIffKnown` | solutions/interpret.py:97-100 | a handler is found by operation name exactly when the instruction is not an unknown operation (unknown names exclude the handled ones by type) |
| `Bytecode.StackDiscipline` | solutions/interpret.py:114-197 | every handler (except divide by zero) pops the tabled number of operands, pushes the tabled number of results, and leaves all elements below the operands unchanged |
| `Bytecode.LocalsFrame` | solutions/interpret.py:179-188 | no handler changes the number of local slots; only `store` writes one, the named slot gets the old top, and every other slot is unchanged |
| `Bytecode.ProgramCounter` | solutions/interpret.py:114-197 | every handler except the two branches and the two returns advances `pc` by 1; `return` and `ireturn` leave it alone; `nop` changes nothing but `pc` |
| `Bytecode.DoneFrame` | solutions/interpret.py:152-197 | only divide by zero, `return` and `ireturn` change `done`, to "divide by zero", "ok" and the popped top respectively |
| `Bytecode.PutsOneOnTop` | solutions/interpret.py:114-183 | `push`, `load` and `dup` put exactly one value on top (the literal, `locals[index]`, a copy of the old top), leave the rest of the stack, and advance `pc` by 1 |
| `Bytecode.PopUndoesPush` | solutions/interpret.py:114-131 | `pop` after `push`, `dup` or `load` gives back the original state with `pc` advanced by 2 |
| `Bytecode.SwapInvolution` | solutions/interpret.py:126-128 | `swap` exchanges the top two, keeps the length and the lower elements, and two swaps restore the stack |
| `Bytecode.OperandOrder` | solutions/interpret.py:134-150 | `add` and `multiply` give the same result with the operands swapped; `subtract` pushes val2 - val1, and swapping first negates it |
| `Bytecode.DivideEffect` | solutions/interpret.py:152-159 | a zero top gives "divide by zero", pops both, pushes nothing and advances `pc`; otherwise it pushes the floor quotient of val2 by val1 on the rest of the stack |
| `Bytecode.BranchEffect` | solutions/interpret.py:162-176 | `if_icmpge` and `if_icmpne` pop exactly two values and jump to the target when val2 >= val1 (resp. val1 != val2), else advance `pc` by 1 |
| `Bytecode.StoreThenLoad` | solutions/interpret.py:179-188 | `store i` then `load i` leaves the stack as before the store, with slot i holding the stored value |
| `Bytecode.ReturnEffect` | solutions/interpret.py:191-197 | `return` sets "ok" and pops one value exactly when typed; `ireturn` sets `done` to the popped top; neither moves `pc` |
| `Run.Exec` | solutions/interpret.py:89-111 | a run dispatches at most `limit` handlers, and strictly fewer when it stops at an unknown operation |
| `Run.ExecOutcome` | solutions/interpret.py:97-111 | a run ends at an unknown operation (reported by name, with `pc` on it), or with `done` passing the halt test and equal to what is reported |
| `Run.ExecUsesBudget` | solutions/interpret.py:90-105 | from an unfinished state, "out of time" means the whole budget was dispatched, and any other finish came from a handler |
| `Run.NeverReturnsFalsy` | solutions/interpret.py:102-103 | with the code's truthiness test a run never reports 0 or false as its result |
| `Run.SafeMonotone` | solutions/interpret.py:89-98 | a run that does not fault within `n` steps does not fault within fewer |
| `Run.OutOfTimeMonotone` | solutions/interpret.py:89-105 | "out of time" with limit `n` implies "out of time" with every smaller limit |
| `Run.BudgetExtension` | solutions/interpret.py:89-105 | a run that finishes within `m` steps without a fault does not fault with any larger limit, and finishes identically (state, report, step count) |
| `Run.UnknownStopsAtOnce` | solutions/interpret.py:97-100 | an unknown operation stops the run at once with "can't handle" and its name, executing nothing and changing no state |
| `Run.DivideByZeroStops` | solutions/interpret.py:152-159 | dividing by a zero top ends the run with "divide by zero" whatever the dividend, with both operands popped and `pc` advanced |
| `Run.IReturnTruthyStops` | solutions/interpret.py:196-197 | `ireturn` of a non-zero top ends the run with that value |
| `Run.IReturnFalsyRepeats` | solutions/interpret.py:102 | `ireturn` of 0 or false does not end the run: `pc` stays on the same `ireturn`, which runs again on the rest of the stack |
| `Run.IntendedIReturnYieldsTop` | solutions/interpret.py:196-197 | with the corrected halt test, `ireturn` always ends the run with the top of the stack in one step, 0 and false included |
| `Run.AddProgram` | solutions/interpret.py:134-138 | push 5, push 3, add, ireturn reports 8 after 4 steps |
| `Run.SubtractProgram` | solutions/interpret.py:140-144 | push 10, push 3, subtract, ireturn reports 7 |
| `Run.DivideProgram` | solutions/interpret.py:152-159 | push -7, push 2, divide, ireturn reports -4 |
| `Run.BranchProgram` | solutions/interpret.py:162-168 | a two-input branch falls through for inputs 3, 5 (reports 1) and jumps for 5, 3 (reports 2) |
| `Run.EndlessProgram` | solutions/interpret.py:104-105 | a program that jumps back forever is "out of time" for every limit |
| `Run.IReturnZeroIsSkipped` | solutions/interpret.py:102 | as written, push 7, push 0, ireturn reports 7, and push 0, ireturn faults on an empty stack |
| `Run.IReturnZeroIntended` | solutions/interpret.py:102 | with the corrected halt test both programs report 0 |
| `Interpreter.ExtendedInterpreter.constructor` | solutions/interpret.py:73-78 | a fresh interpreter has the inputs in `locals`, an empty stack, `pc` 0 and no `done` |
| `Interpreter.ExtendedInterpreter.StepPush` | solutions/interpret.py:114-116 | the literal is the new top over the old stack; `pc` + 1; nothing else changes |
| `Interpreter.ExtendedInterpreter.StepPop` | solutions/interpret.py:118-120 | the top is removed; `pc` + 1; nothing else changes |
| `Interpreter.ExtendedInterpreter.StepDup` | solutions/interpret.py:122-124 | a copy of the top is pushed; `pc` + 1; nothing else changes |
| `Interpreter.ExtendedInterpreter.StepSwap` | solutions/interpret.py:126-128 | the top two are exchanged and the rest kept; `pc` + 1 |
| `Interpreter.ExtendedInterpreter.StepNop` | solutions/interpret.py:130-131 | only `pc` + 1 |
| `Interpreter.ExtendedInterpreter.StepAdd` | solutions/interpret.py:134-138 | the top two are replaced by val1 + val2; `pc` + 1 |
| `Interpreter.ExtendedInterpreter.StepSubtract` | solutions/interpret.py:140-144 | the top two are replaced by val2 - val1; `pc` + 1 |
| `Interpreter.ExtendedInterpreter.StepMultiply` | solutions/interpret.py:146-150 | the top two are replaced by val1 * val2; `pc` + 1 |
| `Interpreter.ExtendedInterpreter.StepDivide` | solutions/interpret.py:152-159 | the top two are popped; a zero val1 sets "divide by zero" and pushes nothing; otherwise the floor quotient of val2 by val1 is pushed; `pc` + 1 on both paths |
| `Interpreter.ExtendedInterpreter.StepIfICmpGe` | solutions/interpret.py:162-168 | the top two are popped; `pc` becomes the target when val2 >= val1, else `pc` + 1 |
| `Interpreter.ExtendedInterpreter.StepIfICmpNe` | solutions/interpret.py:170-176 | the top two are popped; `pc` becomes the target when val1 != val2, else `pc` + 1 |
| `Interpreter.ExtendedInterpreter.StepLoad` | solutions/interpret.py:179-183 | `locals[index]` is pushed; `pc` + 1; the slots are unchanged |
| `Interpreter.ExtendedInterpreter.StepStore` | solutions/interpret.py:185-188 | the top is popped into `locals[index]`, all other slots are kept; `pc` + 1 |
| `Interpreter.ExtendedInterpreter.StepReturn` | solutions/interpret.py:191-194 | `done` becomes "ok"; one value is popped exactly when the return is typed; `pc` unchanged |
| `Interpreter.ExtendedInterpreter.StepIReturn` | solutions/interpret.py:196-197 | `done` becomes the popped top; `pc` unchanged |
| `Interpreter.ExtendedInterpreter.Dispatch` | solutions/interpret.py:97-98 | running the handler named by the instruction moves the object's state exactly as `Step` does |
| `Interpreter.ExtendedInterpreter.Interpret` | solutions/interpret.py:89-111 | the loop returns what `Exec` reports for the initial state and `limit` (a non-positive limit is an empty budget), and leaves the object in `Exec`'s final state |
| `Interpreter.RunMethod` | solutions/interpret.py:71-78 | a fresh interpreter on the inputs, run for `limit` steps, reports `Exec` from the initial state |

## Findings

| source | as written | input that shows it | evidently intended | confidence | as-written member | corrected member |
|---|---|---|---|---|---|---|
| solutions/interpret.py:102 | the loop stops only when `done` is truthy, so `ireturn` of 0 or false does not stop it, and the same `ireturn` runs again | `push 0, ireturn`: the second `ireturn` pops an empty stack; `push 7, push 0, ireturn` reports 7 instead of 0 | stop as soon as `done` is set (`is not None`), so `ireturn` reports the popped value whatever it is | high, not executed | `Run.IReturnZeroIsSkipped` | `Run.IntendedIReturnYieldsTop` |

The class `ExtendedInterpreter` keeps the halt test as written (`DoneIsTruthy`),
because the model describes what the code does. The corrected test
(`DoneIsSet`) is the same `Exec` with the other `HaltTest`. Every run-level
lemma stated for an arbitrary `HaltTest` (`ExecOutcome`, `ExecUsesBudget`,
`SafeMonotone`, `OutOfTimeMonotone`, `BudgetExtension`, `UnknownStopsAtOnce`,
`DivideByZeroStops`, `IReturnTruthyStops`) holds for both tests.

## Left out

- `MethodId.parse`, `MethodId.classfile`, `MethodId.load`
  (solutions/interpret.py:26-70) and the `self.load()` call in
  `create_interpreter` (solutions/interpret.py:72): method-name parsing with
  a regular expression, and reading the decompiled class file from disk.
  The interpreter receives the resolved instruction list and the inputs as
  parameters; the construction at solutions/interpret.py:73-78 is modelled.
- The command-line block (solutions/interpret.py:199-209): argument splitting
  and `int()` conversion. `RunMethod` takes the parsed inputs.
- Logging and printing (solutions/interpret.py:8, 13-14, 92-95, 107-109):
  a diagnostic side channel with no effect on the result.
- The JSON dictionary layout of instructions (`bc["value"]["value"]`,
  `bc["target"]`, `bc["index"]`, `bc["type"]`): replaced by the
  `Instruction` datatype. A typed `return` is `Return(true)`.
- The exact text of the "can't handle" message. `CantHandle` carries the
  operation name; the quoting that `repr` applies to it is not modelled.
- Negative indices: `pc`, jump targets and local indices are natural
  numbers. The host language would let a negative index wrap around to the
  end of a list.
- Exceptions on an empty stack, a local index outside `locals` or a `pc`
  past the end of the bytecode: these are preconditions, not outcomes.
- Aliasing: the code stores the caller's input list as `locals`, so a
  `store` also changes the caller's list. `locals` is a value here, and that
  sharing is not modelled.
- The default `limit` of 100 is not modelled. `Interpret` always takes the
  limit as an argument.
