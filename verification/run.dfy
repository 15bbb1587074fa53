/** The interpreter loop as a function: fetch the instruction at `pc`, stop
    with "can't handle" if it has no handler, run its handler, stop when
    `done` says so, and report "out of time" when the step budget is spent. */
module Run {
  import opened Values
  import opened Bytecode

  /** What a run reports: the value of `done` when the loop ends, or the
      name of an operation it has no handler for ("can't handle '<opr>'"). */
  datatype Outcome = Finished(status: Status) | CantHandle(opr: UnknownOpr)

  /** When the loop considers a run finished. The code tests `done` for
      truthiness; DoneIsSet is the test evidently intended (see
      IReturnZeroIsSkipped below). */
  datatype HaltTest = DoneIsTruthy | DoneIsSet

  predicate Halts(test: HaltTest, done: Option<Status>)
  {
    match test
    case DoneIsTruthy => Truthy(done)
    case DoneIsSet => done.Some?
  }

  /** How a run ends: the final state, what is reported, and how many
      handlers were dispatched. */
  datatype Stop = Stop(final: State, outcome: Outcome, dispatched: nat)

  /** The step budget a (possibly negative) limit gives. */
  function Budget(limit: int): nat
  {
    if limit > 0 then limit else 0
  }

  /** No fault happens before the run stops: every fetch finds an
      instruction and every handler that runs finds its operands. */
  predicate Safe(test: HaltTest, prog: seq<Instruction>, s: State, fuel: nat)
    decreases fuel
  {
    fuel == 0 ||
    (s.pc < |prog| &&
     (prog[s.pc].Unknown? ||
      (CanStep(s, prog[s.pc]) &&
       (Halts(test, Step(s, prog[s.pc]).done) || Safe(test, prog, Step(s, prog[s.pc]), fuel - 1)))))
  }

  /** The run from `s` with `fuel` steps left. */
  function Exec(test: HaltTest, prog: seq<Instruction>, s: State, fuel: nat): (r: Stop)
    requires Safe(test, prog, s, fuel)
    ensures r.dispatched <= fuel
    ensures r.outcome.CantHandle? ==> r.dispatched < fuel
    decreases fuel
  {
    if fuel == 0 then
      Stop(s.(done := Some(OutOfTime)), Finished(OutOfTime), 0)
    else
      var ins := prog[s.pc];
      if ins.Unknown? then
        Stop(s, CantHandle(ins.opr), 0)
      else
        var t := Step(s, ins);
        if Halts(test, t.done) then
          Stop(t, Finished(t.done.value), 1)
        else
          var e := Exec(test, prog, t, fuel - 1);
          e.(dispatched := e.dispatched + 1)
  }

  // ---------------------------------------------------------------------------
  // What a run reports.

  /** A run ends in one of three ways: at an instruction without a handler,
      which is reported by name and not executed; with `done` set by a
      handler and passing the halt test; or with the budget spent and "out of
      time" written into `done`. Whatever is reported as finished is what
      `done` holds at the end. */
  lemma {:induction false} ExecOutcome(test: HaltTest, prog: seq<Instruction>, s: State, fuel: nat)
    requires Safe(test, prog, s, fuel)
    ensures var r := Exec(test, prog, s, fuel);
      match r.outcome
      case CantHandle(o) => r.final.pc < |prog| && prog[r.final.pc] == Unknown(o)
      case Finished(st) => r.final.done == Some(st) && Halts(test, r.final.done)
    decreases fuel
  {
    if fuel > 0 && !prog[s.pc].Unknown? {
      var t := Step(s, prog[s.pc]);
      if !Halts(test, t.done) {
        ExecOutcome(test, prog, t, fuel - 1);
      }
    }
  }

  /** From a state that is not already finished, "out of time" is reported
      exactly when the whole budget was dispatched without finishing; any
      other finish came from a handler within the budget. */
  lemma {:induction false} ExecUsesBudget(test: HaltTest, prog: seq<Instruction>, s: State, fuel: nat)
    requires Safe(test, prog, s, fuel) && !Halts(test, s.done)
    ensures var r := Exec(test, prog, s, fuel);
      (r.outcome == Finished(OutOfTime) ==> r.dispatched == fuel) &&
      (r.outcome.Finished? && r.outcome != Finished(OutOfTime) ==> 1 <= r.dispatched)
    decreases fuel
  {
    if fuel > 0 && !prog[s.pc].Unknown? {
      var t := Step(s, prog[s.pc]);
      if !Halts(test, t.done) {
        ExecUsesBudget(test, prog, t, fuel - 1);
      }
    }
  }

  /** Under the truthiness test a run never reports 0 or false as its
      result. */
  lemma NeverReturnsFalsy(prog: seq<Instruction>, s: State, fuel: nat)
    requires Safe(DoneIsTruthy, prog, s, fuel)
    ensures var r := Exec(DoneIsTruthy, prog, s, fuel);
      r.outcome.Finished? && r.outcome.status.Returned? ==> AsInt(r.outcome.status.value) != 0
  {
    ExecOutcome(DoneIsTruthy, prog, s, fuel);
  }

  // ---------------------------------------------------------------------------
  // Budgets.

  /** A smaller budget faults no sooner. */
  lemma {:induction false} SafeMonotone(test: HaltTest, prog: seq<Instruction>, s: State, n: nat, m: nat)
    requires m <= n && Safe(test, prog, s, n)
    ensures Safe(test, prog, s, m)
    decreases m
  {
    if m > 0 && !prog[s.pc].Unknown? {
      var t := Step(s, prog[s.pc]);
      if !Halts(test, t.done) {
        SafeMonotone(test, prog, t, n - 1, m - 1);
      }
    }
  }

  /** A run that is out of time with budget `n` is out of time with every
      smaller budget too. */
  lemma {:induction false} OutOfTimeMonotone(test: HaltTest, prog: seq<Instruction>, s: State, n: nat, m: nat)
    requires m <= n && Safe(test, prog, s, n)
    requires Exec(test, prog, s, n).outcome == Finished(OutOfTime)
    ensures Safe(test, prog, s, m) && Exec(test, prog, s, m).outcome == Finished(OutOfTime)
    decreases m
  {
    SafeMonotone(test, prog, s, n, m);
    if m > 0 && !prog[s.pc].Unknown? {
      var t := Step(s, prog[s.pc]);
      if !Halts(test, t.done) {
        OutOfTimeMonotone(test, prog, t, n - 1, m - 1);
      }
    }
  }

  /** A run that finishes within budget `m` without a fault does not fault
      with any larger budget either, and finishes the same way, in the same
      state and after the same number of steps. */
  lemma {:induction false} BudgetExtension(test: HaltTest, prog: seq<Instruction>, s: State, m: nat, n: nat)
    requires m <= n && Safe(test, prog, s, m)
    ensures Exec(test, prog, s, m).outcome != Finished(OutOfTime) ==>
      Safe(test, prog, s, n) && Exec(test, prog, s, n) == Exec(test, prog, s, m)
    decreases m
  {
    if m > 0 && !prog[s.pc].Unknown? {
      var t := Step(s, prog[s.pc]);
      if !Halts(test, t.done) {
        BudgetExtension(test, prog, t, m - 1, n - 1);
      }
    }
  }

  // ---------------------------------------------------------------------------
  // Single instructions at the head of a run.

  /** An instruction without a handler stops the run at once: nothing is
      executed and the state is left as it is. */
  lemma UnknownStopsAtOnce(test: HaltTest, prog: seq<Instruction>, s: State, fuel: nat)
    requires fuel > 0 && s.pc < |prog| && prog[s.pc].Unknown?
    ensures Safe(test, prog, s, fuel)
    ensures Exec(test, prog, s, fuel) == Stop(s, CantHandle(prog[s.pc].opr), 0)
  {
  }

  /** Dividing by a zero top ends the run with "divide by zero" whatever the
      dividend. */
  lemma DivideByZeroStops(test: HaltTest, prog: seq<Instruction>, s: State, fuel: nat)
    requires fuel > 0 && s.pc < |prog| && prog[s.pc] == Divide
    requires |s.stack| >= 2 && AsInt(s.stack[0]) == 0
    ensures Safe(test, prog, s, fuel)
    ensures var r := Exec(test, prog, s, fuel);
      r.outcome == Finished(DivideByZero) && r.final.stack == s.stack[2..] && r.final.pc == s.pc + 1
  {
  }

  /** `ireturn` of a truthy top ends the run with that value. */
  lemma IReturnTruthyStops(test: HaltTest, prog: seq<Instruction>, s: State, fuel: nat)
    requires fuel > 0 && s.pc < |prog| && prog[s.pc] == IReturn
    requires |s.stack| >= 1 && AsInt(s.stack[0]) != 0
    ensures Safe(test, prog, s, fuel)
    ensures Exec(test, prog, s, fuel).outcome == Finished(Returned(s.stack[0]))
  {
  }

  /** `ireturn` of 0 or false does not end a run under the truthiness test:
      the counter stays on the same `ireturn`, which runs again on the rest
      of the stack. */
  lemma IReturnFalsyRepeats(prog: seq<Instruction>, s: State, fuel: nat)
    requires fuel > 0 && s.pc < |prog| && prog[s.pc] == IReturn
    requires |s.stack| >= 1 && AsInt(s.stack[0]) == 0
    requires Safe(DoneIsTruthy, prog, s, fuel)
    ensures var t := Step(s, IReturn);
      t.pc == s.pc && t.stack == s.stack[1..] && !Truthy(t.done) &&
      Safe(DoneIsTruthy, prog, t, fuel - 1) &&
      Exec(DoneIsTruthy, prog, s, fuel).outcome == Exec(DoneIsTruthy, prog, t, fuel - 1).outcome
  {
  }

  /** Under the intended halt test `ireturn` always ends the run with the top
      of the stack, 0 and false included. */
  lemma IntendedIReturnYieldsTop(prog: seq<Instruction>, s: State, fuel: nat)
    requires fuel > 0 && s.pc < |prog| && prog[s.pc] == IReturn && |s.stack| >= 1
    ensures Safe(DoneIsSet, prog, s, fuel)
    ensures var r := Exec(DoneIsSet, prog, s, fuel);
      r.outcome == Finished(Returned(s.stack[0])) && r.final.stack == s.stack[1..] && r.dispatched == 1
  {
  }

  // ---------------------------------------------------------------------------
  // Whole programs.

  /** push 5, push 3, add, ireturn: reports 8 after four steps. */
  lemma AddProgram()
    ensures Safe(DoneIsTruthy, [Push(IntV(5)), Push(IntV(3)), Add, IReturn], Initial([]), 100)
    ensures Exec(DoneIsTruthy, [Push(IntV(5)), Push(IntV(3)), Add, IReturn], Initial([]), 100)
      == Stop(State([], [], 3, Some(Returned(IntV(8)))), Finished(Returned(IntV(8))), 4)
  {
  }

  /** push 10, push 3, subtract, ireturn: reports 7 (the earlier operand
      minus the later one). */
  lemma SubtractProgram()
    ensures Safe(DoneIsTruthy, [Push(IntV(10)), Push(IntV(3)), Subtract, IReturn], Initial([]), 100)
    ensures Exec(DoneIsTruthy, [Push(IntV(10)), Push(IntV(3)), Subtract, IReturn], Initial([]), 100).outcome
      == Finished(Returned(IntV(7)))
  {
  }

  /** push -7, push 2, divide, ireturn: reports -4 (rounded down, not toward
      zero). */
  lemma DivideProgram()
    ensures Safe(DoneIsTruthy, [Push(IntV(-7)), Push(IntV(2)), Divide, IReturn], Initial([]), 100)
    ensures Exec(DoneIsTruthy, [Push(IntV(-7)), Push(IntV(2)), Divide, IReturn], Initial([]), 100).outcome
      == Finished(Returned(IntV(-4)))
  {
  }

  const Branch: seq<Instruction> :=
    [Load(0), Load(1), IfICmpGe(5), Push(IntV(1)), IReturn, Push(IntV(2)), IReturn]

  /** A branch on two inputs: load 0, load 1, if_icmpge 5, push 1, ireturn,
      push 2, ireturn. With inputs 3 and 5 the branch falls through; with 5
      and 3 it is taken. */
  lemma BranchProgram()
    ensures Safe(DoneIsTruthy, Branch, Initial([IntV(3), IntV(5)]), 100)
    ensures Exec(DoneIsTruthy, Branch, Initial([IntV(3), IntV(5)]), 100).outcome == Finished(Returned(IntV(1)))
    ensures Safe(DoneIsTruthy, Branch, Initial([IntV(5), IntV(3)]), 100)
    ensures Exec(DoneIsTruthy, Branch, Initial([IntV(5), IntV(3)]), 100).outcome == Finished(Returned(IntV(2)))
  {
    BranchFrom(3, 5, 1);
    BranchFrom(5, 3, 2);
  }

  /** After the comparison on inputs a and b, the run pushes and returns r. */
  lemma BranchFrom(a: int, b: int, r: int)
    requires (a >= b ==> r == 2) && (a < b ==> r == 1)
    ensures Safe(DoneIsTruthy, Branch, Initial([IntV(a), IntV(b)]), 100)
    ensures Exec(DoneIsTruthy, Branch, Initial([IntV(a), IntV(b)]), 100).outcome == Finished(Returned(IntV(r)))
  {
    var s0 := Initial([IntV(a), IntV(b)]);
    var s3 := State([IntV(a), IntV(b)], [], if a >= b then 5 else 3, None);
    assert Step(Step(Step(s0, Load(0)), Load(1)), IfICmpGe(5)) == s3;
    var s4 := Step(s3, Branch[s3.pc]);
    assert Exec(DoneIsTruthy, Branch, s4, 97).outcome == Finished(Returned(IntV(r)));
  }

  const Endless: seq<Instruction> := [Push(IntV(1)), Push(IntV(0)), IfICmpNe(0)]

  /** The state before instruction k of Endless. */
  function EndlessAt(k: nat): State
    requires k < 3
  {
    if k == 0 then Initial([])
    else if k == 1 then State([], [IntV(1)], 1, None)
    else State([], [IntV(0), IntV(1)], 2, None)
  }

  lemma {:induction false} EndlessFrom(k: nat, fuel: nat)
    requires k < 3
    ensures Safe(DoneIsTruthy, Endless, EndlessAt(k), fuel)
    ensures Exec(DoneIsTruthy, Endless, EndlessAt(k), fuel).outcome == Finished(OutOfTime)
    decreases fuel
  {
    if fuel > 0 {
      assert Step(EndlessAt(k), Endless[k]) == EndlessAt((k + 1) % 3);
      EndlessFrom((k + 1) % 3, fuel - 1);
    }
  }

  /** A loop that never returns: push 1, push 0, if_icmpne 0 jumps back to
      the start every time. It is out of time with any budget. */
  lemma EndlessProgram(limit: nat)
    ensures Safe(DoneIsTruthy, Endless, Initial([]), limit)
    ensures Exec(DoneIsTruthy, Endless, Initial([]), limit).outcome == Finished(OutOfTime)
  {
    EndlessFrom(0, limit);
  }

  /** Finding, as written: push 7, push 0, ireturn reports 7, because the
      `ireturn` of 0 leaves `done` falsy and the same `ireturn` runs again;
      push 0, ireturn faults (the second `ireturn` pops an empty stack). */
  lemma IReturnZeroIsSkipped()
    ensures Safe(DoneIsTruthy, [Push(IntV(7)), Push(IntV(0)), IReturn], Initial([]), 100)
    ensures Exec(DoneIsTruthy, [Push(IntV(7)), Push(IntV(0)), IReturn], Initial([]), 100).outcome
      == Finished(Returned(IntV(7)))
    ensures !Safe(DoneIsTruthy, [Push(IntV(0)), IReturn], Initial([]), 100)
  {
  }

  /** Finding, corrected: with the halt test "done is set" the same programs
      report 0. */
  lemma IReturnZeroIntended()
    ensures Safe(DoneIsSet, [Push(IntV(7)), Push(IntV(0)), IReturn], Initial([]), 100)
    ensures Exec(DoneIsSet, [Push(IntV(7)), Push(IntV(0)), IReturn], Initial([]), 100).outcome
      == Finished(Returned(IntV(0)))
    ensures Safe(DoneIsSet, [Push(IntV(0)), IReturn], Initial([]), 100)
    ensures Exec(DoneIsSet, [Push(IntV(0)), IReturn], Initial([]), 100).outcome
      == Finished(Returned(IntV(0)))
  {
  }
}
