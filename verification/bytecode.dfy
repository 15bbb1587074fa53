/** The instruction set and the effect of dispatching one instruction.
    The machine state is the program counter, the operand stack (its top is
    the FIRST element of the sequence), the local slots and the terminal
    marker `done`. Step gives the state after one handler has run. */
module Bytecode {
  import opened Values

  datatype Instruction =
    | Push(value: Value)
    | Pop
    | Dup
    | Swap
    | Nop
    | Add
    | Subtract
    | Multiply
    | Divide
    | IfICmpGe(target: nat)
    | IfICmpNe(target: nat)
    | Load(index: nat)
    | Store(index: nat)
    | Return(typed: bool)  // `typed` is false for a void return
    | IReturn
    | Unknown(opr: UnknownOpr) // an operation the interpreter has no handler for

  /** A name the handler lookup does not find. */
  type UnknownOpr = o: string | o !in Handled witness ""

  /** What the terminal marker `done` can hold once it is set. */
  datatype Status =
    | Returned(value: Value)  // the value popped by `ireturn`
    | Ok                      // "ok"
    | DivideByZero            // "divide by zero"
    | OutOfTime               // "out of time"

  datatype State = State(locals: seq<Value>, stack: seq<Value>, pc: nat, done: Option<Status>)

  /** The state a run starts from: the inputs in the local slots, an empty
      stack, the first instruction, nothing done. */
  function Initial(inputs: seq<Value>): State
  {
    State(inputs, [], 0, None)
  }

  /** The operation name an instruction carries; the handler is found by it. */
  function Opr(ins: Instruction): string
  {
    match ins
    case Push(_) => "push"
    case Pop => "pop"
    case Dup => "dup"
    case Swap => "swap"
    case Nop => "nop"
    case Add => "add"
    case Subtract => "subtract"
    case Multiply => "multiply"
    case Divide => "divide"
    case IfICmpGe(_) => "if_icmpge"
    case IfICmpNe(_) => "if_icmpne"
    case Load(_) => "load"
    case Store(_) => "store"
    case Return(_) => "return"
    case IReturn => "ireturn"
    case Unknown(o) => o
  }

  /** The operation names that have a handler. */
  const Handled: set<string> :=
    {"push", "pop", "dup", "swap", "nop", "add", "subtract", "multiply", "divide",
     "if_icmpge", "if_icmpne", "load", "store", "return", "ireturn"}

  /** The lookup of a handler by operation name succeeds exactly for the
      instructions the interpreter knows. */
  lemma HandlerFoundIffKnown(ins: Instruction)
    ensures Opr(ins) in Handled <==> !ins.Unknown?
  {
  }

  /** The interpreter treats `done` as finished when it is truthy: any status
      text is, a returned value is when it is not 0 (or false). */
  predicate Truthy(done: Option<Status>)
  {
    match done
    case None => false
    case Some(Returned(v)) => AsInt(v) != 0
    case Some(_) => true
  }

  /** What a handler needs in order to run without an indexing fault: enough
      operands on the stack and a local index inside the slots. No handler
      exists for an Unknown instruction. */
  predicate CanStep(s: State, ins: Instruction)
  {
    match ins
    case Push(_) => true
    case Nop => true
    case Pop => |s.stack| >= 1
    case Dup => |s.stack| >= 1
    case IReturn => |s.stack| >= 1
    case Return(typed) => typed ==> |s.stack| >= 1
    case Swap => |s.stack| >= 2
    case Add => |s.stack| >= 2
    case Subtract => |s.stack| >= 2
    case Multiply => |s.stack| >= 2
    case Divide => |s.stack| >= 2
    case IfICmpGe(_) => |s.stack| >= 2
    case IfICmpNe(_) => |s.stack| >= 2
    case Load(i) => i < |s.locals|
    case Store(i) => |s.stack| >= 1 && i < |s.locals|
    case Unknown(_) => false
  }

  /** The state after the handler for `ins` has run once. `val1` is the old
      top of the stack and `val2` the element below it. */
  function Step(s: State, ins: Instruction): State
    requires CanStep(s, ins)
  {
    match ins
    case Push(v) => s.(stack := [v] + s.stack, pc := s.pc + 1)
    case Pop => s.(stack := s.stack[1..], pc := s.pc + 1)
    case Dup => s.(stack := [s.stack[0]] + s.stack, pc := s.pc + 1)
    case Swap => s.(stack := [s.stack[1], s.stack[0]] + s.stack[2..], pc := s.pc + 1)
    case Nop => s.(pc := s.pc + 1)
    case Add =>
      var val1, val2 := AsInt(s.stack[0]), AsInt(s.stack[1]);
      s.(stack := [IntV(val1 + val2)] + s.stack[2..], pc := s.pc + 1)
    case Subtract =>
      var val1, val2 := AsInt(s.stack[0]), AsInt(s.stack[1]);
      s.(stack := [IntV(val2 - val1)] + s.stack[2..], pc := s.pc + 1)
    case Multiply =>
      var val1, val2 := AsInt(s.stack[0]), AsInt(s.stack[1]);
      s.(stack := [IntV(val1 * val2)] + s.stack[2..], pc := s.pc + 1)
    case Divide =>
      var val1, val2 := AsInt(s.stack[0]), AsInt(s.stack[1]);
      if val1 == 0 then
        s.(stack := s.stack[2..], pc := s.pc + 1, done := Some(DivideByZero))
      else
        s.(stack := [IntV(FloorDiv(val2, val1))] + s.stack[2..], pc := s.pc + 1)
    case IfICmpGe(target) =>
      var val1, val2 := AsInt(s.stack[0]), AsInt(s.stack[1]);
      s.(stack := s.stack[2..], pc := if val2 >= val1 then target else s.pc + 1)
    case IfICmpNe(target) =>
      var val1, val2 := AsInt(s.stack[0]), AsInt(s.stack[1]);
      s.(stack := s.stack[2..], pc := if val1 != val2 then target else s.pc + 1)
    case Load(i) => s.(stack := [s.locals[i]] + s.stack, pc := s.pc + 1)
    case Store(i) => s.(locals := s.locals[i := s.stack[0]], stack := s.stack[1..], pc := s.pc + 1)
    case Return(typed) => s.(stack := if typed then s.stack[1..] else s.stack, done := Some(Ok))
    case IReturn => s.(stack := s.stack[1..], done := Some(Returned(s.stack[0])))
  }

  // ---------------------------------------------------------------------------
  // The stack discipline, stated against an independent table of how many
  // operands each instruction consumes and produces.

  function Pops(ins: Instruction): nat
  {
    match ins
    case Pop | Store(_) | IReturn => 1
    case Swap | Add | Subtract | Multiply | Divide | IfICmpGe(_) | IfICmpNe(_) => 2
    case Return(typed) => if typed then 1 else 0
    case _ => 0
  }

  function Pushes(ins: Instruction): nat
  {
    match ins
    case Push(_) | Dup | Load(_) | Add | Subtract | Multiply | Divide => 1
    case Swap => 2
    case _ => 0
  }

  /** A divide whose divisor (the top) is zero pushes nothing. */
  predicate DividesByZero(s: State, ins: Instruction)
    requires CanStep(s, ins)
  {
    ins.Divide? && AsInt(s.stack[0]) == 0
  }

  /** Every handler takes Pops operands off the top, puts Pushes results on
      top, and leaves everything below the operands as it was. */
  lemma StackDiscipline(s: State, ins: Instruction)
    requires CanStep(s, ins) && !DividesByZero(s, ins)
    ensures Pops(ins) <= |s.stack|
    ensures |Step(s, ins).stack| == |s.stack| - Pops(ins) + Pushes(ins)
    ensures Step(s, ins).stack[Pushes(ins)..] == s.stack[Pops(ins)..]
  {
  }

  /** The local slots keep their number under every handler; only `store`
      writes one, and exactly the slot it names. */
  lemma LocalsFrame(s: State, ins: Instruction)
    requires CanStep(s, ins)
    ensures |Step(s, ins).locals| == |s.locals|
    ensures !ins.Store? ==> Step(s, ins).locals == s.locals
    ensures ins.Store? ==> Step(s, ins).locals[ins.index] == s.stack[0]
    ensures ins.Store? ==>
      forall j :: 0 <= j < |s.locals| && j != ins.index ==> Step(s, ins).locals[j] == s.locals[j]
  {
  }

  /** Every handler except the two branches and the two returns moves to the
      next instruction; the returns stay where they are; `nop` does nothing
      else. */
  lemma ProgramCounter(s: State, ins: Instruction)
    requires CanStep(s, ins)
    ensures !ins.IfICmpGe? && !ins.IfICmpNe? && !ins.Return? && !ins.IReturn? ==>
      Step(s, ins).pc == s.pc + 1
    ensures ins.Return? || ins.IReturn? ==> Step(s, ins).pc == s.pc
    ensures ins.Nop? ==> Step(s, ins) == s.(pc := s.pc + 1)
  {
  }

  /** Only divide by zero, `return` and `ireturn` touch `done`. */
  lemma DoneFrame(s: State, ins: Instruction)
    requires CanStep(s, ins)
    ensures Step(s, ins).done != s.done ==>
      DividesByZero(s, ins) || ins.Return? || ins.IReturn?
    ensures DividesByZero(s, ins) ==> Step(s, ins).done == Some(DivideByZero)
    ensures ins.Return? ==> Step(s, ins).done == Some(Ok)
    ensures ins.IReturn? ==> Step(s, ins).done == Some(Returned(s.stack[0]))
  {
  }

  // ---------------------------------------------------------------------------
  // Per-opcode properties.

  /** `push`, `load` and `dup` put one value on top: the literal, the slot's
      value, a copy of the old top. */
  lemma PutsOneOnTop(s: State, ins: Instruction)
    requires CanStep(s, ins) && (ins.Push? || ins.Load? || ins.Dup?)
    ensures var r := Step(s, ins);
      |r.stack| == |s.stack| + 1 && r.stack[1..] == s.stack &&
      r.stack[0] == (match ins
                     case Push(v) => v
                     case Load(i) => s.locals[i]
                     case _ => s.stack[0]) &&
      r.pc == s.pc + 1 && r.locals == s.locals && r.done == s.done
  {
  }

  /** `pop` undoes `push`, `dup` and `load`: the state comes back with the
      counter two instructions further on. */
  lemma PopUndoesPush(s: State, ins: Instruction)
    requires CanStep(s, ins) && (ins.Push? || ins.Dup? || ins.Load?)
    ensures Step(Step(s, ins), Pop) == s.(pc := s.pc + 2)
  {
  }

  /** `swap` exchanges the top two and is its own inverse. */
  lemma SwapInvolution(s: State)
    requires |s.stack| >= 2
    ensures var r := Step(s, Swap);
      |r.stack| == |s.stack| && r.stack[0] == s.stack[1] && r.stack[1] == s.stack[0] &&
      r.stack[2..] == s.stack[2..]
    ensures Step(Step(s, Swap), Swap) == s.(pc := s.pc + 2)
  {
  }

  /** `add` and `multiply` do not care about operand order; `subtract`
      computes val2 - val1 (the element below minus the top), so swapping the
      operands first negates its result. */
  lemma OperandOrder(s: State)
    requires |s.stack| >= 2
    ensures Step(Step(s, Swap), Add).stack == Step(s, Add).stack
    ensures Step(Step(s, Swap), Multiply).stack == Step(s, Multiply).stack
    ensures AsInt(Step(s, Subtract).stack[0]) == AsInt(s.stack[1]) - AsInt(s.stack[0])
    ensures AsInt(Step(Step(s, Swap), Subtract).stack[0]) == -AsInt(Step(s, Subtract).stack[0])
  {
  }

  /** `divide` by a zero top reports "divide by zero" whatever the dividend,
      pops both operands, pushes nothing and still advances; otherwise it
      pushes the floor quotient of val2 by val1. */
  lemma DivideEffect(s: State)
    requires |s.stack| >= 2
    ensures var r := Step(s, Divide);
      AsInt(s.stack[0]) == 0 ==>
        r.done == Some(DivideByZero) && r.stack == s.stack[2..] && r.pc == s.pc + 1
    ensures var r := Step(s, Divide);
      AsInt(s.stack[0]) != 0 ==>
        r.done == s.done && r.stack[1..] == s.stack[2..] && r.pc == s.pc + 1 &&
        IsFloorQuotient(AsInt(s.stack[1]), AsInt(s.stack[0]), AsInt(r.stack[0]))
  {
    if AsInt(s.stack[0]) != 0 {
      FloorDivIsFloorQuotient(AsInt(s.stack[1]), AsInt(s.stack[0]));
    }
  }

  /** The comparison branches consume both operands and jump to their target
      exactly when the comparison holds, falling through otherwise. */
  lemma BranchEffect(s: State, ins: Instruction)
    requires CanStep(s, ins) && (ins.IfICmpGe? || ins.IfICmpNe?)
    ensures var r := Step(s, ins);
      r.stack == s.stack[2..] && r.locals == s.locals && r.done == s.done
    ensures var val1, val2 := AsInt(s.stack[0]), AsInt(s.stack[1]);
      var taken := if ins.IfICmpGe? then val2 >= val1 else val1 != val2;
      (taken ==> Step(s, ins).pc == ins.target) &&
      (!taken ==> Step(s, ins).pc == s.pc + 1)
  {
  }

  /** `store` followed by `load` of the same slot puts the stored value back
      on top: the stack is as before the store and the slot holds it. */
  lemma StoreThenLoad(s: State, i: nat)
    requires |s.stack| >= 1 && i < |s.locals|
    ensures var r := Step(Step(s, Store(i)), Load(i));
      r.stack == s.stack && r.locals[i] == s.stack[0] && r.pc == s.pc + 2
  {
  }

  /** `return` reports "ok" and drops one value exactly when it is typed;
      `ireturn` reports the popped top. Neither moves the counter. */
  lemma ReturnEffect(s: State, ins: Instruction)
    requires CanStep(s, ins) && (ins.Return? || ins.IReturn?)
    ensures var r := Step(s, ins); r.pc == s.pc && r.locals == s.locals
    ensures ins.Return? ==>
      Step(s, ins).done == Some(Ok) &&
      |Step(s, ins).stack| == (if ins.typed then |s.stack| - 1 else |s.stack|)
    ensures ins.IReturn? ==>
      Step(s, ins).done == Some(Returned(s.stack[0])) && Step(s, ins).stack == s.stack[1..]
  {
  }
}
