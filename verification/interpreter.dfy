/** The interpreter object: it owns the program counter, the operand stack,
    the local slots and the terminal marker, and each handler updates them in
    place. Every handler is proved to move the object's state exactly as
    Bytecode.Step does, and the loop to end as Run.Exec does. */
module Interpreter {
  import opened Values
  import opened Bytecode
  import opened Run

  class ExtendedInterpreter {
    const bytecode: seq<Instruction>
    var locals: seq<Value>
    var stack: seq<Value>   // the top is stack[0]
    var pc: nat
    var done: Option<Status>

    /** The object's state as a value. */
    function Snapshot(): State
      reads this
    {
      State(locals, stack, pc, done)
    }

    /** A fresh interpreter for a method body, its inputs in the local slots. */
    constructor (bytecode: seq<Instruction>, inputs: seq<Value>)
      ensures this.bytecode == bytecode && Snapshot() == Initial(inputs)
    {
      this.bytecode := bytecode;
      locals := inputs;
      stack := [];
      pc := 0;
      done := None;
    }

    // -------------------------------------------------------------------------
    // The stack as a list whose front is the top.

    method PopFront() returns (v: Value)
      requires |stack| >= 1
      modifies this
      ensures v == old(stack[0]) && stack == old(stack[1..])
      ensures locals == old(locals) && pc == old(pc) && done == old(done)
    {
      v := stack[0];
      stack := stack[1..];
    }

    method InsertFront(v: Value)
      modifies this
      ensures stack == [v] + old(stack)
      ensures locals == old(locals) && pc == old(pc) && done == old(done)
    {
      stack := [v] + stack;
    }

    // -------------------------------------------------------------------------
    // Stack manipulation.

    method StepPush(v: Value)
      modifies this
      ensures stack == [v] + old(stack) && pc == old(pc) + 1
      ensures locals == old(locals) && done == old(done)
    {
      InsertFront(v);
      pc := pc + 1;
    }

    method StepPop()
      requires |stack| >= 1
      modifies this
      ensures stack == old(stack[1..]) && pc == old(pc) + 1
      ensures locals == old(locals) && done == old(done)
    {
      var _ := PopFront();
      pc := pc + 1;
    }

    method StepDup()
      requires |stack| >= 1
      modifies this
      ensures stack == [old(stack[0])] + old(stack) && pc == old(pc) + 1
      ensures locals == old(locals) && done == old(done)
    {
      InsertFront(stack[0]);
      pc := pc + 1;
    }

    method StepSwap()
      requires |stack| >= 2
      modifies this
      ensures stack == [old(stack[1]), old(stack[0])] + old(stack[2..]) && pc == old(pc) + 1
      ensures locals == old(locals) && done == old(done)
    {
      stack := stack[0 := stack[1]][1 := stack[0]];
      pc := pc + 1;
    }

    method StepNop()
      modifies this
      ensures pc == old(pc) + 1
      ensures stack == old(stack) && locals == old(locals) && done == old(done)
    {
      pc := pc + 1;
    }

    // -------------------------------------------------------------------------
    // Arithmetic. val1 is the old top, val2 the element below it.

    method StepAdd()
      requires |stack| >= 2
      modifies this
      ensures stack == [IntV(AsInt(old(stack[0])) + AsInt(old(stack[1])))] + old(stack[2..])
      ensures pc == old(pc) + 1 && locals == old(locals) && done == old(done)
    {
      var val1 := PopFront();
      var val2 := PopFront();
      InsertFront(IntV(AsInt(val1) + AsInt(val2)));
      pc := pc + 1;
    }

    method StepSubtract()
      requires |stack| >= 2
      modifies this
      ensures stack == [IntV(AsInt(old(stack[1])) - AsInt(old(stack[0])))] + old(stack[2..])
      ensures pc == old(pc) + 1 && locals == old(locals) && done == old(done)
    {
      var val1 := PopFront();
      var val2 := PopFront();
      InsertFront(IntV(AsInt(val2) - AsInt(val1)));
      pc := pc + 1;
    }

    method StepMultiply()
      requires |stack| >= 2
      modifies this
      ensures stack == [IntV(AsInt(old(stack[0])) * AsInt(old(stack[1])))] + old(stack[2..])
      ensures pc == old(pc) + 1 && locals == old(locals) && done == old(done)
    {
      var val1 := PopFront();
      var val2 := PopFront();
      InsertFront(IntV(AsInt(val1) * AsInt(val2)));
      pc := pc + 1;
    }

    method StepDivide()
      requires |stack| >= 2
      modifies this
      ensures AsInt(old(stack[0])) == 0 ==>
        stack == old(stack[2..]) && done == Some(DivideByZero)
      ensures AsInt(old(stack[0])) != 0 ==>
        stack == [IntV(FloorDiv(AsInt(old(stack[1])), AsInt(old(stack[0]))))] + old(stack[2..]) &&
        IsFloorQuotient(AsInt(old(stack[1])), AsInt(old(stack[0])), AsInt(stack[0])) &&
        done == old(done)
      ensures pc == old(pc) + 1 && locals == old(locals)
    {
      var val1 := PopFront();
      var val2 := PopFront();
      if AsInt(val1) == 0 {
        done := Some(DivideByZero);
      } else {
        FloorDivIsFloorQuotient(AsInt(val2), AsInt(val1));
        InsertFront(IntV(FloorDiv(AsInt(val2), AsInt(val1))));
      }
      pc := pc + 1;
    }

    // -------------------------------------------------------------------------
    // Comparisons.

    method StepIfICmpGe(target: nat)
      requires |stack| >= 2
      modifies this
      ensures AsInt(old(stack[1])) >= AsInt(old(stack[0])) ==> pc == target
      ensures AsInt(old(stack[1])) < AsInt(old(stack[0])) ==> pc == old(pc) + 1
      ensures stack == old(stack[2..]) && locals == old(locals) && done == old(done)
    {
      var val1 := PopFront();
      var val2 := PopFront();
      if AsInt(val2) >= AsInt(val1) {
        pc := target;
      } else {
        pc := pc + 1;
      }
    }

    method StepIfICmpNe(target: nat)
      requires |stack| >= 2
      modifies this
      ensures AsInt(old(stack[0])) != AsInt(old(stack[1])) ==> pc == target
      ensures AsInt(old(stack[0])) == AsInt(old(stack[1])) ==> pc == old(pc) + 1
      ensures stack == old(stack[2..]) && locals == old(locals) && done == old(done)
    {
      var val1 := PopFront();
      var val2 := PopFront();
      if AsInt(val1) != AsInt(val2) {
        pc := target;
      } else {
        pc := pc + 1;
      }
    }

    // -------------------------------------------------------------------------
    // Local slots.

    method StepLoad(index: nat)
      requires index < |locals|
      modifies this
      ensures stack == [old(locals[index])] + old(stack) && pc == old(pc) + 1
      ensures locals == old(locals) && done == old(done)
    {
      var value := locals[index];
      InsertFront(value);
      pc := pc + 1;
    }

    method StepStore(index: nat)
      requires |stack| >= 1 && index < |locals|
      modifies this
      ensures locals == old(locals)[index := old(stack[0])]
      ensures stack == old(stack[1..]) && pc == old(pc) + 1 && done == old(done)
    {
      var v := PopFront();
      locals := locals[index := v];
      pc := pc + 1;
    }

    // -------------------------------------------------------------------------
    // Returns. Neither moves the program counter.

    method StepReturn(typed: bool)
      requires typed ==> |stack| >= 1
      modifies this
      ensures done == Some(Ok)
      ensures stack == if typed then old(stack[1..]) else old(stack)
      ensures pc == old(pc) && locals == old(locals)
    {
      if typed {
        var _ := PopFront();
      }
      done := Some(Ok);
    }

    method StepIReturn()
      requires |stack| >= 1
      modifies this
      ensures done == Some(Returned(old(stack[0]))) && stack == old(stack[1..])
      ensures pc == old(pc) && locals == old(locals)
    {
      var v := PopFront();
      done := Some(Returned(v));
    }

    // -------------------------------------------------------------------------
    // Dispatch and the loop.

    /** Runs the handler named by the instruction's operation. */
    method Dispatch(ins: Instruction)
      requires CanStep(Snapshot(), ins)
      modifies this
      ensures Snapshot() == Step(old(Snapshot()), ins)
    {
      match ins
      case Push(v) => StepPush(v);
      case Pop => StepPop();
      case Dup => StepDup();
      case Swap => StepSwap();
      case Nop => StepNop();
      case Add => StepAdd();
      case Subtract => StepSubtract();
      case Multiply => StepMultiply();
      case Divide => StepDivide();
      case IfICmpGe(target) => StepIfICmpGe(target);
      case IfICmpNe(target) => StepIfICmpNe(target);
      case Load(index) => StepLoad(index);
      case Store(index) => StepStore(index);
      case Return(typed) => StepReturn(typed);
      case IReturn => StepIReturn();
    }

    /** Runs at most `limit` instructions. It reports "can't handle" for an
        instruction without a handler, without running it; stops as soon as
        `done` is truthy and reports it; and otherwise sets and reports "out
        of time". */
    method Interpret(limit: int) returns (r: Outcome)
      requires Safe(DoneIsTruthy, bytecode, Snapshot(), Budget(limit))
      modifies this
      ensures r == Exec(DoneIsTruthy, bytecode, old(Snapshot()), Budget(limit)).outcome
      ensures Snapshot() == Exec(DoneIsTruthy, bytecode, old(Snapshot()), Budget(limit)).final
    {
      ghost var run := Exec(DoneIsTruthy, bytecode, Snapshot(), Budget(limit));
      var i := 0;
      while i < limit
        invariant 0 <= i <= Budget(limit)
        invariant Safe(DoneIsTruthy, bytecode, Snapshot(), Budget(limit) - i)
        invariant var rest := Exec(DoneIsTruthy, bytecode, Snapshot(), Budget(limit) - i);
          run == rest.(dispatched := rest.dispatched + i)
      {
        var ins := bytecode[pc];
        if ins.Unknown? {
          return CantHandle(ins.opr);
        }
        Dispatch(ins);
        if Truthy(done) {
          return Finished(done.value);
        }
        i := i + 1;
      }
      done := Some(OutOfTime);
      r := Finished(done.value);
    }
  }

  /** One run of a method body: a fresh interpreter with the inputs in its
      local slots, run for at most `limit` steps. */
  method RunMethod(bytecode: seq<Instruction>, inputs: seq<Value>, limit: int) returns (r: Outcome)
    requires Safe(DoneIsTruthy, bytecode, Initial(inputs), Budget(limit))
    ensures r == Exec(DoneIsTruthy, bytecode, Initial(inputs), Budget(limit)).outcome
  {
    var m := new ExtendedInterpreter(bytecode, inputs);
    r := m.Interpret(limit);
  }
}
