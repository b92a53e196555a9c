/**
 * Concrete runs of a fresh machine, each derived from the general lemmas of
 * module Properties.
 */
module Scenarios {
  import opened Wrappers
  import opened Tape
  import opened Automaton
  import opened Properties

  /** Loading "1234" and running accepts after reading four digits. */
  lemma FourDigitsAccepted()
    ensures Load(Initial(), "1234").Ok?
    ensures Run(Load(Initial(), "1234").value).currentState == Accept
    ensures Run(Load(Initial(), "1234").value).digitsRead == 4
  {
    FreshRunVerdict("1234", 4);
  }

  /** Loading "123456" and running accepts after reading six digits. */
  lemma SixDigitsAccepted()
    ensures Load(Initial(), "123456").Ok?
    ensures Run(Load(Initial(), "123456").value).currentState == Accept
    ensures Run(Load(Initial(), "123456").value).digitsRead == 6
  {
    FreshRunVerdict("123456", 6);
  }

  /** Five digits halt in q5 on the blank, which rejects. */
  lemma FiveDigitsRejected()
    ensures Load(Initial(), "12345").Ok?
    ensures Run(Load(Initial(), "12345").value).currentState == Reject
    ensures Run(Load(Initial(), "12345").value).digitsRead == 5
  {
    FreshRunVerdict("12345", 5);
  }

  /** A seventh digit rejects with the counter at 7. */
  lemma SevenDigitsRejected()
    ensures Load(Initial(), "1234567").Ok?
    ensures Run(Load(Initial(), "1234567").value).currentState == Reject
    ensures Run(Load(Initial(), "1234567").value).digitsRead == 7
  {
    FreshRunVerdict("1234567", 7);
  }

  /** A letter rejects as soon as it is read, after two digits. */
  lemma LetterRejected()
    ensures Load(Initial(), "12a4").Ok?
    ensures Run(Load(Initial(), "12a4").value).currentState == Reject
    ensures Run(Load(Initial(), "12a4").value).digitsRead == 2
  {
    FreshRunVerdict("12a4", 2);
  }

  /** A '□' typed into the input ends the tape early: "1234□9" is accepted. */
  lemma TypedBlankEndsInput()
    ensures Load(Initial(), "1234" + [Blank] + "9").Ok?
    ensures Run(Load(Initial(), "1234" + [Blank] + "9").value).currentState == Accept
  {
    FreshRunVerdict("1234" + [Blank] + "9", 4);
  }

  /** Empty or all-whitespace input is refused without a tape. */
  lemma EmptyInputRefused()
    ensures Load(Initial(), "") == Err(EmptyInput)
    ensures Load(Initial(), "  \t") == Err(EmptyInput)
  {
  }

  /** An eleven-character input is refused as too long. */
  lemma ElevenCharactersRefused()
    ensures Load(Initial(), "12345678901") == Err(TooLong)
  {
    LongInputRefused(Initial(), "12345678901");
  }
}
