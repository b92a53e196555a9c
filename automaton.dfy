/**
 * The PIN-validating Turing machine as values: its states, its transition
 * table, a snapshot of every field the machine keeps, and one function per
 * operation (load, a single step, the automatic run, reset). The class in
 * module Machine is proved to change its fields exactly as these functions say.
 */
module Automaton {
  import opened Wrappers
  import opened Tape

  /** The nine states; Accept and Reject end a run. */
  datatype State = Q0 | Q1 | Q2 | Q3 | Q4 | Q5 | Q6 | Accept | Reject {
    predicate Terminal() {
      this == Accept || this == Reject
    }

    /** n for the state qn: the number of digits read to get there. */
    function Index(): (n: nat)
      requires !Terminal()
      ensures n <= 6
    {
      match this
      case Q0 => 0
      case Q1 => 1
      case Q2 => 2
      case Q3 => 3
      case Q4 => 4
      case Q5 => 5
      case Q6 => 6
    }
  }

  /** q(n+1) for qn, n < 6. */
  function Succ(q: State): (r: State)
    requires !q.Terminal() && q != Q6
    ensures !r.Terminal() && r.Index() == q.Index() + 1
  {
    match q
    case Q0 => Q1
    case Q1 => Q2
    case Q2 => Q3
    case Q3 => Q4
    case Q4 => Q5
    case Q5 => Q6
  }

  /** A decreasing measure for running: the most steps a state can still take. */
  function Rank(q: State): (n: nat) {
    if q.Terminal() then 0 else 7 - q.Index()
  }

  /**
   * One entry of the transition table: the next state, whether the symbol
   * is consumed (echoed to the write tape, head moved right), and whether it
   * is counted as a digit.
   */
  datatype Move = Move(next: State, consumes: bool, countsDigit: bool)

  /**
   * The transition table by symbol class. A digit moves qn to q(n+1) and a
   * seventh digit rejects; the blank accepts in q4 and q6 and rejects
   * elsewhere without moving; any other symbol is consumed and rejects.
   * The terminal states have no entry and stay where they are.
   */
  function Delta(q: State, c: char): (m: Move) {
    if q.Terminal() then Move(q, false, false)
    else if IsDigit(c) then Move(if q == Q6 then Reject else Succ(q), true, true)
    else if IsBlank(c) then Move(if q == Q4 || q == Q6 then Accept else Reject, false, false)
    else Move(Reject, true, false)
  }

  /** Every field of the machine that its operations read or write. */
  datatype Config = Config(
    readTape: string,
    writeTape: string,
    position: nat,
    currentState: State,
    previousState: Option<State>,
    digitsRead: nat,
    isRunning: bool)

  /** The state of a new machine, and of one just reset. */
  function Initial(): (c: Config) {
    Config([], [], 0, Q0, None, 0, false)
  }

  /**
   * What a step needs in order to read the symbol under the head: a loaded
   * tape ends in the blank and the head is on it.
   */
  predicate Wf(c: Config) {
    c.readTape != [] ==>
      c.readTape[|c.readTape| - 1] == Blank && c.position < |c.readTape|
  }

  /**
   * The invariant every reachable machine keeps. With no tape, everything is
   * at its initial value. With a tape: the tape ends in the blank and holds at
   * most MaxInput input symbols, the head is on the tape, the write tape is
   * exactly what the head has passed over, the digit counter counts the
   * digits in it, and in a state qn the head and the counter are both n.
   */
  ghost predicate Inv(c: Config) {
    && Wf(c)
    && if c.readTape == [] then
         c.writeTape == [] && c.position == 0 && c.currentState == Q0 && c.digitsRead == 0
       else
         && |c.readTape| <= MaxInput + 1
         && c.writeTape == c.readTape[..c.position]
         && c.digitsRead == CountDigits(c.writeTape)
         && (!c.currentState.Terminal() ==>
               c.position == c.digitsRead == c.currentState.Index())
  }

  /** Why a load was refused. */
  datatype LoadError = EmptyInput | TooLong

  /**
   * Loading a raw input string: it is trimmed, refused when empty or longer
   * than MaxInput, and otherwise becomes the read tape followed by one blank,
   * with everything else but the run flag back at its initial value.
   */
  function Load(c: Config, raw: string): (r: Result<Config, LoadError>)
    ensures r.Err? <==> Trim(raw) == [] || |Trim(raw)| > MaxInput
    ensures r.Err? ==> r.error == if Trim(raw) == [] then EmptyInput else TooLong
    ensures r.Ok? ==>
      && Inv(r.value)
      && r.value.readTape == Trim(raw) + [Blank]
      && r.value.writeTape == [] && r.value.position == 0 && r.value.currentState == Q0
      && r.value.previousState == None && r.value.digitsRead == 0
      && r.value.isRunning == c.isRunning
  {
    var input := Trim(raw);
    if input == [] then Err(EmptyInput)
    else if |input| > MaxInput then Err(TooLong)
    else Ok(c.(readTape := input + [Blank], writeTape := [], position := 0,
               currentState := Q0, previousState := None, digitsRead := 0))
  }

  /** The effect of the transition table on the fields for one symbol. */
  function Apply(c: Config, symbol: char): (r: Config) {
    var m := Delta(c.currentState, symbol);
    c.(currentState := m.next,
       writeTape := if m.consumes then c.writeTape + [symbol] else c.writeTape,
       position := if m.consumes then c.position + 1 else c.position,
       digitsRead := if m.countsDigit then c.digitsRead + 1 else c.digitsRead)
  }

  /**
   * One step: nothing happens without a tape or in a terminal state;
   * otherwise the symbol under the head goes through the table. The head
   * stays on the tape, and a step that acts brings the machine closer to a
   * terminal state.
   */
  function Step(c: Config): (r: Config)
    requires Wf(c)
    ensures Wf(r)
    ensures r.readTape == c.readTape && r.isRunning == c.isRunning
    ensures c.readTape != [] && !c.currentState.Terminal() ==>
      Rank(r.currentState) < Rank(c.currentState)
  {
    if c.readTape == [] || c.currentState.Terminal() then c
    else Apply(c.(previousState := Some(c.currentState)), c.readTape[c.position])
  }

  /** Every step keeps the invariant. */
  lemma StepKeepsInv(c: Config)
    requires Inv(c)
    ensures Inv(Step(c))
  {
    if c.readTape != [] && !c.currentState.Terminal() {
      var symbol := c.readTape[c.position];
      assert c.readTape[..c.position + 1] == c.writeTape + [symbol];
      assert (c.writeTape + [symbol])[..|c.writeTape|] == c.writeTape;
    }
  }

  /** k steps in a row. */
  function Steps(c: Config, k: nat): (r: Config)
    requires Wf(c)
    ensures Wf(r)
    ensures r.readTape == c.readTape && r.isRunning == c.isRunning
    decreases k
  {
    if k == 0 then c else Steps(Step(c), k - 1)
  }

  /**
   * The automatic run's loop: step while the state is not terminal, the head
   * is on the tape and the run flag is up; then lower the flag. A run over a
   * loaded tape always ends in a terminal state.
   */
  function RunLoop(c: Config): (r: Config)
    requires Wf(c)
    ensures Wf(r) && !r.isRunning && r.readTape == c.readTape
    ensures c.readTape != [] && c.isRunning ==> r.currentState.Terminal()
    decreases Rank(c.currentState)
  {
    if !c.currentState.Terminal() && c.position < |c.readTape| && c.isRunning then
      RunLoop(Step(c))
    else
      c.(isRunning := false)
  }

  /**
   * Starting an automatic run: ignored while one is in progress or when no
   * tape is loaded; otherwise the flag is raised and the loop runs. A run
   * that starts ends in a terminal state with the flag down.
   */
  function Run(c: Config): (r: Config)
    requires Wf(c)
    ensures Wf(r)
    ensures c.readTape != [] && !c.isRunning ==> r.currentState.Terminal() && !r.isRunning
  {
    if c.isRunning || c.readTape == [] then c
    else RunLoop(c.(isRunning := true))
  }
}
