/**
 * What the machine promises, proved about the functions of module Automaton:
 * idle and halted machines stay put, the shape of a single move, how a run
 * reaches accept or reject and in how many steps, and the final verdict on
 * a loaded string.
 */
module Properties {
  import opened Wrappers
  import opened Tape
  import opened Automaton

  /** Without a tape, or once halted, a step changes nothing. */
  lemma StepIdle(c: Config)
    requires Inv(c)
    requires c.readTape == [] || c.currentState.Terminal()
    ensures Step(c) == c
  {
  }

  /** Accept and reject are absorbing: any number of further steps changes nothing. */
  lemma {:induction false} HaltedStaysHalted(c: Config, k: nat)
    requires Inv(c)
    requires c.readTape == [] || c.currentState.Terminal()
    ensures Steps(c, k) == c
    decreases k
  {
    if k > 0 {
      StepIdle(c);
      HaltedStaysHalted(c, k - 1);
    }
  }

  /**
   * A step that acts reads the symbol under the head and records the state it
   * left. A digit or any other non-blank symbol is consumed: the head moves
   * one cell and the symbol is echoed on the write tape, counted only when it
   * is a digit. The blank is not consumed and ends the run.
   */
  lemma StepMoves(c: Config)
    requires Inv(c) && c.readTape != [] && !c.currentState.Terminal()
    ensures var symbol, r := c.readTape[c.position], Step(c);
      && r.previousState == Some(c.currentState)
      && (!IsBlank(symbol) ==>
            && r.position == c.position + 1
            && r.writeTape == c.writeTape + [symbol]
            && r.digitsRead == c.digitsRead + (if IsDigit(symbol) then 1 else 0))
      && (IsBlank(symbol) ==>
            && r.position == c.position
            && r.writeTape == c.writeTape
            && r.digitsRead == c.digitsRead
            && r.currentState.Terminal())
  {
  }

  /** A symbol that is neither a digit nor the blank rejects from every state q0..q6. */
  lemma InvalidSymbolRejects(c: Config)
    requires Inv(c) && c.readTape != [] && !c.currentState.Terminal()
    requires !IsDigit(c.readTape[c.position]) && !IsBlank(c.readTape[c.position])
    ensures Step(c).currentState == Reject
  {
  }

  /** Accept is entered only from q4 or q6, on the blank, after 4 or 6 digits. */
  lemma AcceptOnlyFromQ4OrQ6(c: Config)
    requires Inv(c) && !c.currentState.Terminal()
    requires Step(c).currentState == Accept
    ensures c.currentState == Q4 || c.currentState == Q6
    ensures IsBlank(c.readTape[c.position])
    ensures Step(c).digitsRead == c.digitsRead && (c.digitsRead == 4 || c.digitsRead == 6)
  {
  }

  /** A seventh digit rejects from q6, having counted and consumed it. */
  lemma SeventhDigitRejects(c: Config)
    requires Inv(c) && c.readTape != [] && c.currentState == Q6
    requires IsDigit(c.readTape[c.position])
    ensures Step(c).currentState == Reject
    ensures Step(c).digitsRead == 7 && Step(c).position == 7
  {
  }

  /**
   * A machine mid-run in a state qn: the head and the digit counter are both
   * n and every symbol the head has passed is a digit.
   */
  ghost predicate OnDigits(c: Config) {
    && Wf(c) && c.readTape != [] && !c.currentState.Terminal()
    && c.position == c.digitsRead == c.currentState.Index()
    && forall j :: 0 <= j < c.position ==> IsDigit(c.readTape[j])
  }

  /** In a state qn every symbol the head has passed is a digit. */
  lemma DigitsBeforeHead(c: Config)
    requires Inv(c) && c.readTape != [] && !c.currentState.Terminal()
    ensures OnDigits(c)
  {
    assert forall j :: 0 <= j < c.position ==> c.writeTape[j] == c.readTape[j];
  }

  /** The leading run of digits has length k when k digits are followed by a non-digit or the end. */
  lemma DigitRunIs(s: string, k: nat)
    requires k <= |s|
    requires forall j :: 0 <= j < k ==> IsDigit(s[j])
    requires k < |s| ==> !IsDigit(s[k])
    ensures DigitRun(s) == k
  {
  }

  /** A non-digit at j ends the leading run of digits at or before j. */
  lemma DigitRunBelow(s: string, j: nat)
    requires j < |s| && !IsDigit(s[j])
    ensures DigitRun(s) <= j
  {
  }

  /**
   * One step from qn, in the terms the run needs: a digit before the seventh
   * moves on to q(n+1) still on digits; a seventh digit rejects with the
   * counter at 7; any other symbol halts with the counter at n, accepting only
   * on the blank in q4 or q6.
   */
  lemma StepFromQ(c: Config)
    requires OnDigits(c)
    ensures c.position <= DigitRun(c.readTape)
    ensures var symbol, s := c.readTape[c.position], Step(c);
      && s.readTape == c.readTape && s.isRunning == c.isRunning
      && (IsDigit(symbol) && c.currentState != Q6 ==>
            OnDigits(s) && s.position == c.position + 1)
      && (IsDigit(symbol) && c.currentState == Q6 ==>
            s.currentState == Reject && s.digitsRead == 7)
      && (!IsDigit(symbol) ==>
            && s.digitsRead == c.position
            && s.currentState ==
                 if IsBlank(symbol) && (c.position == 4 || c.position == 6) then Accept else Reject)
  {
  }

  /**
   * From any state qn of a running machine, the loop ends in accept exactly
   * when the tape's leading run of digits has length 4 or 6 and is followed by
   * the blank, and the counter ends at that run's length, capped at 7.
   */
  lemma {:induction false} RunFrom(c: Config)
    requires OnDigits(c) && c.isRunning
    ensures RunLoop(c).currentState == (if PinOnTape(c.readTape) then Accept else Reject)
    ensures RunLoop(c).digitsRead == Min(DigitRun(c.readTape), 7)
    decreases Rank(c.currentState)
  {
    var t, i := c.readTape, c.position;
    StepFromQ(c);
    var s := Step(c);
    assert RunLoop(c) == RunLoop(s);
    if IsDigit(t[i]) {
      if c.currentState == Q6 {
        assert DigitRun(t) > 6;
      } else {
        RunFrom(s);
      }
    } else {
      DigitRunIs(t, i);
    }
  }

  /** The number of iterations the automatic run's loop makes from c. */
  function LoopLength(c: Config): (n: nat)
    requires Wf(c)
    decreases Rank(c.currentState)
  {
    if !c.currentState.Terminal() && c.position < |c.readTape| && c.isRunning then
      1 + LoopLength(Step(c))
    else 0
  }

  /** The loop is LoopLength(c) steps followed by lowering the run flag. */
  lemma {:induction false} LoopIsSteps(c: Config)
    requires Wf(c)
    ensures RunLoop(c) == Steps(c, LoopLength(c)).(isRunning := false)
    decreases Rank(c.currentState)
  {
    if !c.currentState.Terminal() && c.position < |c.readTape| && c.isRunning {
      var s := Step(c);
      LoopIsSteps(s);
      assert RunLoop(c) == RunLoop(s);
      assert Steps(c, LoopLength(c)) == Steps(s, LoopLength(s));
    }
  }

  /**
   * From any state qn of a running machine, the loop takes exactly
   * min(run, 6) + 1 - n steps, where run is the length of the tape's
   * leading run of digits.
   */
  lemma {:induction false} RunLengthFrom(c: Config)
    requires OnDigits(c) && c.isRunning
    ensures LoopLength(c) == Min(DigitRun(c.readTape), 6) + 1 - c.position
    decreases Rank(c.currentState)
  {
    if IsDigit(c.readTape[c.position]) && c.currentState != Q6 {
      DigitStep(c);
      RunLengthFrom(Step(c));
    } else {
      HaltingStep(c);
    }
  }

  /** A digit read before q6 keeps the machine on digits, one cell further. */
  lemma DigitStep(c: Config)
    requires OnDigits(c) && IsDigit(c.readTape[c.position]) && c.currentState != Q6
    ensures OnDigits(Step(c)) && Step(c).position == c.position + 1
    ensures Step(c).isRunning == c.isRunning
    ensures DigitRun(Step(c).readTape) == DigitRun(c.readTape)
    ensures c.position < Min(DigitRun(c.readTape), 6)
  {
    StepFromQ(c);
  }

  /** Any other step halts, and happens where the leading digits run out or at q6. */
  lemma HaltingStep(c: Config)
    requires OnDigits(c) && !(IsDigit(c.readTape[c.position]) && c.currentState != Q6)
    ensures Step(c).currentState.Terminal()
    ensures Min(DigitRun(c.readTape), 6) == c.position
  {
    StepFromQ(c);
    if !IsDigit(c.readTape[c.position]) {
      DigitRunIs(c.readTape, c.position);
    }
  }

  /** Steps never look at the run flag. */
  lemma {:induction false} StepsIgnoreRunFlag(c: Config, b: bool, k: nat)
    requires Wf(c)
    ensures Steps(c.(isRunning := b), k) == Steps(c, k).(isRunning := b)
    decreases k
  {
    if k > 0 {
      assert Step(c.(isRunning := b)) == Step(c).(isRunning := b);
      StepsIgnoreRunFlag(Step(c), b, k - 1);
    }
  }

  /**
   * Starting a run at the head of a tape: the verdict is read off the tape,
   * and the counter ends at the tape's leading run of digits capped at 7.
   */
  lemma RunFromStart(l: Config)
    requires OnDigits(l) && l.position == 0 && !l.isRunning
    ensures Run(l).currentState == (if PinOnTape(l.readTape) then Accept else Reject)
    ensures Run(l).digitsRead == Min(DigitRun(l.readTape), 7)
  {
    var u := l.(isRunning := true);
    assert OnDigits(u);
    RunFrom(u);
  }

  /**
   * Starting a run at the head of a tape, the run is min(run, 6) + 1 steps,
   * where run is the tape's leading run of digits; that is at most
   * min(n, 6) + 1 for a tape of n input symbols and the blank.
   */
  lemma RunLengthFromStart(l: Config, k: nat)
    requires OnDigits(l) && l.position == 0 && !l.isRunning
    requires k == Min(DigitRun(l.readTape), 6) + 1
    ensures Run(l) == Steps(l, k)
    ensures k <= Min(|l.readTape| - 1, 6) + 1
  {
    var u := l.(isRunning := true);
    assert OnDigits(u);
    RunLengthFrom(u);
    LoopIsSteps(u);
    StepsIgnoreRunFlag(l, true, k);
    assert Steps(l, k).(isRunning := true).(isRunning := false) == Steps(l, k);
    DigitRunBelow(l.readTape, |l.readTape| - 1);
  }

  /**
   * Loading a string and running to completion: the verdict is read off the
   * loaded tape, and the counter ends at the input's leading run of digits
   * capped at 7.
   */
  lemma LoadThenRun(c: Config, raw: string)
    requires !c.isRunning && Load(c, raw).Ok?
    ensures var t, r := Trim(raw), Run(Load(c, raw).value);
      && r.currentState == (if PinOnTape(t + [Blank]) then Accept else Reject)
      && r.digitsRead == Min(DigitRun(t + [Blank]), 7)
  {
    LoadedStart(c, raw);
    RunFromStart(Load(c, raw).value);
  }

  /**
   * Loading a string and running to completion takes min(run, 6) + 1 steps,
   * where run is the input's leading run of digits: at most min(n, 6) + 1
   * (so at most min(n, 7) + 1) for an input of n symbols.
   */
  lemma LoadRunLength(c: Config, raw: string)
    requires !c.isRunning && Load(c, raw).Ok?
    ensures var t, l := Trim(raw), Load(c, raw).value;
      var k := Min(DigitRun(t + [Blank]), 6) + 1;
      && Run(l) == Steps(l, k)
      && k <= Min(|t|, 6) + 1 && k <= Min(|t|, 7) + 1
  {
    LoadedStart(c, raw);
    var l, k := Load(c, raw).value, Min(DigitRun(Trim(raw) + [Blank]), 6) + 1;
    RunLengthFromStart(l, k);
  }

  /** A successful load puts the machine in q0 at the head of the trimmed input. */
  lemma LoadedStart(c: Config, raw: string)
    requires Load(c, raw).Ok?
    ensures var l := Load(c, raw).value;
      && OnDigits(l) && l.position == 0 && l.isRunning == c.isRunning
      && l.readTape == Trim(raw) + [Blank]
      && |l.readTape| - 1 == |Trim(raw)|
      && DigitRun(l.readTape) == DigitRun(Trim(raw) + [Blank])
      && PinOnTape(l.readTape) == PinOnTape(Trim(raw) + [Blank])
  {
  }

  /** Input longer than MaxInput without surrounding whitespace is refused as too long. */
  lemma LongInputRefused(c: Config, raw: string)
    requires Trimmed(raw) && |raw| > MaxInput
    ensures Load(c, raw) == Err(TooLong)
  {
  }

  /** Without a blank in it, t followed by the blank passes the tape test exactly when t is a PIN. */
  lemma PinOnTapeIffPin(t: string)
    requires Blank !in t
    ensures PinOnTape(t + [Blank]) <==> IsPin(t)
  {
    var tape := t + [Blank];
    var d := DigitRun(tape);
    assert forall i :: 0 <= i < |t| ==> tape[i] == t[i];
    if forall i :: 0 <= i < |t| ==> IsDigit(t[i]) {
      DigitRunIs(tape, |t|);
    } else {
      var j :| 0 <= j < |t| && !IsDigit(t[j]);
      DigitRunBelow(tape, j);
      assert tape[d] == t[d];
    }
  }

  /**
   * The machine's verdict on an input with no blank symbol in it: after
   * loading and running, it accepts exactly when the trimmed input is a PIN of
   * 4 or 6 decimal digits, and rejects otherwise.
   */
  lemma PinVerdict(c: Config, raw: string)
    requires !c.isRunning && Load(c, raw).Ok?
    requires Blank !in Trim(raw)
    ensures Run(Load(c, raw).value).currentState == Accept <==> IsPin(Trim(raw))
    ensures Run(Load(c, raw).value).currentState == Reject <==> !IsPin(Trim(raw))
  {
    LoadThenRun(c, raw);
    PinOnTapeIffPin(Trim(raw));
  }

  /**
   * A fresh machine on an input (of at most 10 symbols, no surrounding
   * whitespace) whose first non-digit, if any, is at j: accepted exactly when
   * j is 4 or 6 and the input ends there or continues with the blank; the
   * counter ends at min(j, 7).
   */
  lemma FreshRunVerdict(t: string, j: nat)
    requires 0 < |t| <= MaxInput && Trimmed(t)
    requires j <= |t| && (forall i :: 0 <= i < j ==> IsDigit(t[i]))
    requires j < |t| ==> !IsDigit(t[j])
    ensures Load(Initial(), t).Ok?
    ensures Run(Load(Initial(), t).value).currentState ==
      if (j == 4 || j == 6) && (j == |t| || t[j] == Blank) then Accept else Reject
    ensures Run(Load(Initial(), t).value).digitsRead == Min(j, 7)
  {
    LoadThenRun(Initial(), t);
    assert forall i :: 0 <= i < |t| ==> (t + [Blank])[i] == t[i];
    DigitRunIs(t + [Blank], j);
  }
}
