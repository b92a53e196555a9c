/**
 * The machine object: its fields are changed in place by loading, stepping,
 * running and resetting, and each method is proved to leave the fields
 * exactly as the matching function of module Automaton describes, so the
 * invariant Automaton.Inv holds between calls.
 */
module Machine {
  import opened Wrappers
  import opened Tape
  import opened Automaton

  class TuringMachine {
    var readTape: string
    var writeTape: string
    var position: nat
    var currentState: State
    var previousState: Option<State>
    var isRunning: bool
    var digitsRead: nat

    /** The fields as one value. */
    function Snapshot(): (c: Config)
      reads this
    {
      Config(readTape, writeTape, position, currentState, previousState, digitsRead, isRunning)
    }

    ghost predicate Valid()
      reads this
    {
      Inv(Snapshot())
    }

    constructor ()
      ensures Valid() && Snapshot() == Initial()
    {
      readTape := [];
      writeTape := [];
      position := 0;
      currentState := Q0;
      previousState := None;
      isRunning := false;
      digitsRead := 0;
    }

    /**
     * Loads a raw input string. A refused input changes no field and the
     * reason is returned; an accepted one rebuilds the tapes as Load says.
     */
    method LoadTape(raw: string) returns (error: Option<LoadError>)
      requires Valid()
      modifies this
      ensures Valid()
      ensures Load(old(Snapshot()), raw).Err? ==>
        error == Some(Load(old(Snapshot()), raw).error) && Snapshot() == old(Snapshot())
      ensures Load(old(Snapshot()), raw).Ok? ==>
        error == None && Snapshot() == Load(old(Snapshot()), raw).value
    {
      var input := Trim(raw);
      if input == [] {
        return Some(EmptyInput);
      }
      if |input| > MaxInput {
        return Some(TooLong);
      }
      readTape := input + [Blank];
      writeTape := [];
      position := 0;
      currentState := Q0;
      previousState := None;
      digitsRead := 0;
      error := None;
    }

    /** Makes one move, or nothing without a tape or after the machine has halted. */
    method Step()
      requires Valid()
      modifies this
      ensures Valid()
      ensures Snapshot() == Automaton.Step(old(Snapshot()))
    {
      if |readTape| == 0 {
        return;
      }
      if currentState == Accept || currentState == Reject {
        return;
      }
      ghost var before := Snapshot();
      var currentSymbol := readTape[position];
      previousState := Some(currentState);
      Transition(currentSymbol);
      assert Snapshot() == Automaton.Step(before);
      StepKeepsInv(before);
    }

    /** The state-by-state switch; for every symbol it agrees with the table Delta. */
    method Transition(symbol: char)
      modifies this
      ensures Snapshot() == Apply(old(Snapshot()), symbol)
    {
      var isDigit := IsDigit(symbol);
      var isBlank := IsBlank(symbol);
      match currentState {
        case Q0 =>
          if isDigit {
            writeTape := writeTape + [symbol];
            currentState := Q1;
            digitsRead := digitsRead + 1;
            position := position + 1;
          } else if isBlank {
            currentState := Reject;
          } else {
            writeTape := writeTape + [symbol];
            currentState := Reject;
            position := position + 1;
          }
        case Q1 =>
          if isDigit {
            writeTape := writeTape + [symbol];
            currentState := Q2;
            digitsRead := digitsRead + 1;
            position := position + 1;
          } else if isBlank {
            currentState := Reject;
          } else {
            writeTape := writeTape + [symbol];
            currentState := Reject;
            position := position + 1;
          }
        case Q2 =>
          if isDigit {
            writeTape := writeTape + [symbol];
            currentState := Q3;
            digitsRead := digitsRead + 1;
            position := position + 1;
          } else if isBlank {
            currentState := Reject;
          } else {
            writeTape := writeTape + [symbol];
            currentState := Reject;
            position := position + 1;
          }
        case Q3 =>
          if isDigit {
            writeTape := writeTape + [symbol];
            currentState := Q4;
            digitsRead := digitsRead + 1;
            position := position + 1;
          } else if isBlank {
            currentState := Reject;
          } else {
            writeTape := writeTape + [symbol];
            currentState := Reject;
            position := position + 1;
          }
        case Q4 =>
          if isDigit {
            writeTape := writeTape + [symbol];
            currentState := Q5;
            digitsRead := digitsRead + 1;
            position := position + 1;
          } else if isBlank {
            currentState := Accept;
          } else {
            writeTape := writeTape + [symbol];
            currentState := Reject;
            position := position + 1;
          }
        case Q5 =>
          if isDigit {
            writeTape := writeTape + [symbol];
            currentState := Q6;
            digitsRead := digitsRead + 1;
            position := position + 1;
          } else if isBlank {
            currentState := Reject;
          } else {
            writeTape := writeTape + [symbol];
            currentState := Reject;
            position := position + 1;
          }
        case Q6 =>
          if isBlank {
            currentState := Accept;
          } else if isDigit {
            writeTape := writeTape + [symbol];
            currentState := Reject;
            digitsRead := digitsRead + 1;
            position := position + 1;
          } else {
            writeTape := writeTape + [symbol];
            currentState := Reject;
            position := position + 1;
          }
        case Accept =>
        case Reject =>
      }
    }

    /**
     * Steps until the machine halts, as one synchronous loop. Ignored while a
     * run is in progress or when no tape is loaded.
     */
    method Run()
      requires Valid()
      modifies this
      ensures Valid()
      ensures Snapshot() == Automaton.Run(old(Snapshot()))
    {
      if isRunning {
        return;
      }
      if |readTape| == 0 {
        return;
      }
      isRunning := true;
      while currentState != Accept && currentState != Reject && position < |readTape| && isRunning
        invariant Valid()
        invariant RunLoop(Snapshot()) == Automaton.Run(old(Snapshot()))
        decreases Rank(currentState)
      {
        Step();
      }
      isRunning := false;
    }

    /** Clears both tapes and returns every field to its initial value. */
    method Reset()
      modifies this
      ensures Valid() && Snapshot() == Initial()
    {
      readTape := [];
      writeTape := [];
      position := 0;
      currentState := Q0;
      previousState := None;
      isRunning := false;
      digitsRead := 0;
    }
  }
}
