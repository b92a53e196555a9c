# PIN-validating Turing machine

A model of the `TuringMachine` class of a browser-based teaching tool. The
machine decides whether an input string is a PIN of exactly 4 or 6 decimal
digits. The input is trimmed and written onto a read tape followed by one
blank symbol `□`. A head moves right over the tape. Nine states drive it:
seven counting states q0..q6 plus accept and reject. Every symbol the machine
consumes is echoed onto a write tape, and each digit it reads raises a counter.

The project has these modules:

- `Tape` (tape.dfy): the blank symbol, the 10-character input limit, digit
  and blank classification, the whitespace strip done by JavaScript's
  `String.prototype.trim`, and the digit-counting functions the proofs use.
- `Automaton` (automaton.dfy): the machine's fields gathered as a value
  (`Config`), the transition table `Delta`, one function per operation
  (`Load`, `Step`, `RunLoop`/`Run`), and the invariant `Inv` that every
  reachable machine keeps.
- `Machine` (machine.dfy): the class `TuringMachine`. Its fields are
  updated in place, exactly as in the JavaScript class. Each method's
  postcondition ties the new fields (`Snapshot()`) to the matching function
  of `Automaton` applied to the old fields. The nine-case `transition`
  switch is kept literally and proved equal to the table.
- `Properties` (properties.dfy): lemmas about those functions. Three of
  them are the end-to-end results:
  - the verdict after load and run: accept exactly for a 4- or 6-digit PIN;
  - the final digit counter;
  - the exact number of steps a run takes.
- `Scenarios` (scenarios.dfy): concrete loads and runs, derived from the
  general lemmas.
- `Wrappers` (wrappers.dfy): `Option` and `Result`.

Points where the code does something other than a re-initialisation or the
"4 or 6 digits" verdict would suggest; the model follows the code:

- `loadTape` resets the tapes, head, state, previous state and counter
  (turing-machine.js:81-86) but leaves `isRunning` as it was. `Load` keeps
  the flag too.
- The diagram legend promises acceptance for 4 or 6 digits
  (turing-machine.js:508). But the input is split into characters without
  any other check (turing-machine.js:81), and `transition` treats every `□`
  as the blank (turing-machine.js:201). So a `□` typed by the user ends the
  input early: `"1234□9"` is accepted (`Scenarios.TypedBlankEndsInput`).
  "Accept exactly the 4- and 6-digit PINs" holds for inputs without a `□`,
  which is the precondition of `Properties.PinVerdict`.
  `Properties.LoadThenRun` states the verdict for every input, in terms of
  the leading run of digits on the tape.
- The 10-character limit and the emptiness check apply after trimming
  (turing-machine.js:69-79).

## Model

| member | source | states |
|---|---|---|
| Tape.TrimStart | turing-machine.js:69 | the result is a suffix of the input; every dropped character is whitespace; it does not start with whitespace |
| Tape.TrimEnd | turing-machine.js:69 | the result is a prefix of the input; every dropped character is whitespace; it does not end with whitespace |
| Tape.Trim | turing-machine.js:69 | the result is no longer than the input and has no whitespace at either end; it is empty exactly when the input is all whitespace; an already-trimmed input is unchanged |
| Tape.TrimIsSlice | turing-machine.js:69 | the trimmed string is the slice of the input left after removing a run of whitespace from the front and a run from the back |
| Tape.CountDigits | turing-machine.js:200-208 | the count is at most the length, and equals the length exactly when every symbol is a digit |
| Tape.DigitRun | turing-machine.js:200-209 | the leading run of digits: every symbol before it is a digit, and the symbol after it, if there is one, is not |
| Automaton.State.Index | turing-machine.js:204-330 | each counting state qn has a number n of at most 6 |
| Automaton.Succ | turing-machine.js:207-312 | the successor of qn (n < 6) is the counting state q(n+1) |
| Automaton.Load | turing-machine.js:68-86 | refused exactly when the trimmed input is empty (EmptyInput) or longer than 10 characters (TooLong); otherwise the read tape is the trimmed input followed by one blank, the write tape is empty, the head is at 0, the state is q0, the previous state and the counter are cleared, the run flag is kept, and the invariant holds |
| Automaton.Step | turing-machine.js:179-192 | the read tape and the run flag never change and the head stays on the tape; a step that acts strictly lowers the number of steps left before a terminal state |
| Automaton.StepKeepsInv | turing-machine.js:199-350 | every step keeps the invariant: tape ends in one blank and holds at most 10 symbols; the write tape is the part of the read tape already passed; the counter counts its digits; in qn the head and the counter are both n |
| Automaton.Steps | turing-machine.js:179-192 | any number of steps keeps the head on the tape and leaves the tape and the run flag alone |
| Automaton.RunLoop | turing-machine.js:364-377 | the loop always ends with the run flag down and the tape unchanged; a loop started with a tape and the flag up ends in accept or reject |
| Automaton.Run | turing-machine.js:353-380 | a run started on a loaded tape while not already running ends in accept or reject with the flag down |
| Machine.TuringMachine.constructor | turing-machine.js:2-10 | a new machine has empty tapes, head 0, state q0, no previous state, counter 0, not running, and satisfies the invariant |
| Machine.TuringMachine.LoadTape | turing-machine.js:68-86 | a refused input changes no field and returns its reason; an accepted one leaves the fields exactly as Load describes; the invariant is kept |
| Machine.TuringMachine.Step | turing-machine.js:179-192 | the fields afterwards are exactly Automaton.Step of the fields before (no change without a tape or after halting); the invariant is kept |
| Machine.TuringMachine.Transition | turing-machine.js:199-351 | the nine-case switch changes the fields exactly as the table Delta says for the symbol read |
| Machine.TuringMachine.Run | turing-machine.js:353-380 | the stepping loop leaves the fields exactly as Automaton.Run says; the invariant is kept |
| Machine.TuringMachine.Reset | turing-machine.js:382-389 | every field returns to its initial value, including the run flag; the invariant holds |
| Properties.StepIdle | turing-machine.js:179-188 | with no tape, or in accept or reject, a step changes nothing |
| Properties.HaltedStaysHalted | turing-machine.js:185-188 | accept and reject are absorbing: any number of further steps changes nothing |
| Properties.StepMoves | turing-machine.js:190-348 | a step that acts records the state it left; on a non-blank it moves the head by exactly one, appends that symbol to the write tape, and counts it only if it is a digit; on the blank nothing moves, nothing is appended, nothing is counted, and the machine halts |
| Properties.InvalidSymbolRejects | turing-machine.js:216-347 | a symbol that is neither a digit nor the blank sends every state q0..q6 to reject |
| Properties.AcceptOnlyFromQ4OrQ6 | turing-machine.js:296-334 | accept is entered only from q4 or q6, on the blank, with the counter at 4 or 6 |
| Properties.SeventhDigitRejects | turing-machine.js:335-341 | a digit read in q6 rejects, with the counter and the head at 7 |
| Properties.DigitsBeforeHead | turing-machine.js:205-209 | in a counting state every symbol the head has passed is a digit |
| Properties.DigitRunIs | turing-machine.js:200 | k digits followed by a non-digit or the end make a leading run of length exactly k |
| Properties.DigitRunBelow | turing-machine.js:200 | a non-digit at j ends the leading run of digits at or before j |
| Properties.StepFromQ | turing-machine.js:199-350 | one step from qn mid-run: a digit before q6 moves to q(n+1), head one further; a digit in q6 rejects with the counter at 7; any other symbol halts with the counter at n, and it accepts only on the blank in q4 or q6 |
| Properties.RunFrom | turing-machine.js:199-368 | from any counting state, the loop accepts exactly when the tape's leading run of digits has length 4 or 6 and is followed by the blank, and the counter ends at that length capped at 7 |
| Properties.LoopIsSteps | turing-machine.js:364-370 | the loop is a number of single steps followed by lowering the flag |
| Properties.RunLengthFrom | turing-machine.js:364-368 | from qn the loop makes exactly min(run, 6) + 1 - n iterations, where run is the leading run of digits |
| Properties.DigitStep | turing-machine.js:205-209 | a digit read before q6 keeps the machine on digits, one cell further, with the same leading run |
| Properties.HaltingStep | turing-machine.js:212-347 | any other step halts, and it happens where the leading digits run out or at q6 |
| Properties.StepsIgnoreRunFlag | turing-machine.js:179-192 | stepping never reads the run flag |
| Properties.RunFromStart | turing-machine.js:353-380 | a run from the head of a tape in q0 ends in the verdict read off the tape, with the counter at the leading run of digits capped at 7 |
| Properties.RunLengthFromStart | turing-machine.js:353-380 | such a run is exactly min(run, 6) + 1 steps, which is at most min(n, 6) + 1 for n input symbols |
| Properties.LoadedStart | turing-machine.js:81-86 | a successful load leaves the machine in q0 at the head of the trimmed input followed by the blank |
| Properties.LoadThenRun | turing-machine.js:68-380 | load then run: accept exactly when the trimmed input's leading run of digits has length 4 or 6 and is followed by the blank, otherwise reject; the counter ends at that run capped at 7 |
| Properties.LoadRunLength | turing-machine.js:68-380 | load then run takes exactly min(run, 6) + 1 steps, at most min(n, 6) + 1 and so at most min(n, 7) + 1 for an input of n symbols |
| Properties.LongInputRefused | turing-machine.js:76-79 | an input with no surrounding whitespace that is longer than 10 characters is refused as too long |
| Properties.PinOnTapeIffPin | turing-machine.js:199-201 | without a blank in it, an input followed by the blank passes the tape test exactly when the input is 4 or 6 digits |
| Properties.PinVerdict | turing-machine.js:68-380 | for a trimmed input without a blank, load then run accepts exactly when it is a PIN of 4 or 6 decimal digits and rejects exactly when it is not |
| Properties.FreshRunVerdict | turing-machine.js:68-380 | a fresh machine on an input whose first non-digit is at j accepts exactly when j is 4 or 6 and the input ends there or continues with the blank; the counter ends at min(j, 7) |
| Scenarios.FourDigitsAccepted | turing-machine.js:288-299 | "1234" is loaded and accepted with 4 digits counted |
| Scenarios.SixDigitsAccepted | turing-machine.js:330-334 | "123456" is loaded and accepted with 6 digits counted |
| Scenarios.FiveDigitsRejected | turing-machine.js:317-320 | "12345" is rejected on the blank in q5 with 5 digits counted |
| Scenarios.SevenDigitsRejected | turing-machine.js:335-341 | "1234567" is rejected with 7 digits counted |
| Scenarios.LetterRejected | turing-machine.js:258-263 | "12a4" is rejected on the letter, after 2 digits |
| Scenarios.TypedBlankEndsInput | turing-machine.js:296-299 | a typed `□` ends the input: "1234□9" is accepted |
| Scenarios.EmptyInputRefused | turing-machine.js:69-74 | an empty or all-whitespace input is refused as empty |
| Scenarios.ElevenCharactersRefused | turing-machine.js:76-79 | an 11-character input is refused as too long |

## Left out

- The DOM and presentation code is not modelled, because it is rendering and I/O only. This covers `initialize`, `bindEvents`, `renderTapes`, `createCell`, `updateDisplay`, `highlightState`, `animateTransition`, `updateTransitionInfo`, `createStateDiagram`, `addLog` and the page-load and resize handlers.
- `drawTransitions` and `updateHeadPosition` are not modelled. They are floating-point geometry and animation-frame scheduling.
- The `statePositions` table, the speed setting and every log and message string are not modelled. They are cosmetic. The refusal messages of `loadTape` are stood in for by the returned `LoadError`; the other messages have no counterpart.
- Machine.TuringMachine.Run: the timer-driven re-scheduling (`setTimeout` with `speed`) is modelled as one synchronous loop, so no other operation can happen between two ticks. The model does not capture:
  - a `reset` between ticks clearing the run flag and so cancelling the run;
  - a manual `step` between ticks, which takes one of the run's steps;
  - a `loadTape` between ticks. It keeps `isRunning` true, so in the source the pending ticks go on stepping over the new tape. In the model, a `Run` called while the flag is up is the no-op branch of `Automaton.Run`.
- Machine.TuringMachine.LoadTape: takes the raw string as a parameter instead of reading the input element.
- Machine.TuringMachine.Reset: clearing the input element and the log console is not modelled, because those are DOM state.
- Tape.Trim: JavaScript strings are sequences of UTF-16 code units, and `split('')` and `length` count code units. Here a string is a sequence of Dafny characters (Unicode scalar values). So an input outside the Basic Multilingual Plane is split and counted differently. The whitespace set is that of ECMAScript's `trim`.
- `previousState` is kept and updated as in the source. Its only use, the state-change animation, is not modelled.
- animations.js is not part of this model. It is particle effects, scroll and tooltip handling, a float-timer counter, and a string lookup for state descriptions.
