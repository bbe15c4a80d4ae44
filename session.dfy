/**
 * The session half of `StepByStepSimulation`: the generated run, a cursor
 * into it, and the lookups the page makes at the cursor.
 *
 * The cursor's two moves are first given as functions on a `Cursor` value
 * (`AdvanceCursor`, `GoBackCursor`), with their laws proved as lemmas; the
 * methods `Advance` and `GoBack` of class `Simulation` are proved to move the
 * object's fields exactly as those functions say.
 */
module Session {
  import opened Wrappers
  import opened Text
  import opened Records
  import opened Matching
  import opened Generator
  import opened GeneratorProps

  /** The two fields the moves change: `currentStep` and `isComplete`. */
  datatype Cursor = Cursor(current: int, complete: bool)

  /** `canAdvance()`: there is a step after the current one. */
  predicate CanAdvanceFrom(c: Cursor, total: int)
  {
    c.current < total - 1
  }

  /** `advance()`: step forward when possible, otherwise mark the walk complete. */
  function AdvanceCursor(c: Cursor, total: int): Cursor
  {
    if CanAdvanceFrom(c, total) then Cursor(c.current + 1, c.complete)
    else Cursor(c.current, true)
  }

  /** `goBack()`: step back unless already at the first step. */
  function GoBackCursor(c: Cursor): Cursor
  {
    if c.current > 0 then Cursor(c.current - 1, c.complete) else c
  }

  predicate InRange(c: Cursor, total: int)
  {
    0 <= c.current < total
  }

  /** Both moves keep the cursor inside the run. */
  lemma MovesKeepRange(c: Cursor, total: int)
    requires InRange(c, total)
    ensures InRange(AdvanceCursor(c, total), total)
    ensures InRange(GoBackCursor(c), total)
  {
  }

  /** A move that fails changes nothing but the completion flag. */
  lemma FailedMoves(c: Cursor, total: int)
    requires InRange(c, total)
    ensures !CanAdvanceFrom(c, total) <==> c.current == total - 1
    ensures !CanAdvanceFrom(c, total) ==> AdvanceCursor(c, total) == Cursor(c.current, true)
    ensures c.current == 0 ==> GoBackCursor(c) == c
  {
  }

  /** The completion flag, once set, is never cleared by either move. */
  lemma CompletionSticks(c: Cursor, total: int)
    requires c.complete
    ensures AdvanceCursor(c, total).complete && GoBackCursor(c).complete
  {
  }

  /** A successful step back followed by a step forward restores the cursor. */
  lemma AdvanceUndoesGoBack(c: Cursor, total: int)
    requires InRange(c, total) && c.current > 0
    ensures AdvanceCursor(GoBackCursor(c), total) == c
  {
  }

  /** A successful step forward followed by a step back restores the cursor. */
  lemma GoBackUndoesAdvance(c: Cursor, total: int)
    requires CanAdvanceFrom(c, total) && c.current >= 0
    ensures GoBackCursor(AdvanceCursor(c, total)) == c
  {
  }

  /** k calls of `advance()` in a row. */
  function AdvanceTimes(c: Cursor, total: int, k: nat): Cursor
    decreases k
  {
    if k == 0 then c else AdvanceTimes(AdvanceCursor(c, total), total, k - 1)
  }

  /** k calls of `goBack()` in a row. */
  function GoBackTimes(c: Cursor, k: nat): Cursor
    decreases k
  {
    if k == 0 then c else GoBackTimes(GoBackCursor(c), k - 1)
  }

  /**
   * Advancing k times from a position in the run reaches position
   * current + k, stopping at the last step; the walk is complete exactly
   * when some call found no step to advance to.
   */
  lemma {:induction false} AdvanceTimesReaches(c: Cursor, total: int, k: nat)
    requires InRange(c, total)
    ensures AdvanceTimes(c, total, k).current == Min(c.current + k, total - 1)
    ensures AdvanceTimes(c, total, k).complete == (c.complete || c.current + k > total - 1)
    decreases k
  {
    if k > 0 {
      MovesKeepRange(c, total);
      AdvanceTimesReaches(AdvanceCursor(c, total), total, k - 1);
    }
  }

  /** Going back k times reaches position current - k, stopping at the first step. */
  lemma {:induction false} GoBackTimesReaches(c: Cursor, k: nat)
    requires c.current >= 0
    ensures GoBackTimes(c, k) == Cursor(Max(c.current - k, 0), c.complete)
    decreases k
  {
    if k > 0 {
      GoBackTimesReaches(GoBackCursor(c), k - 1);
    }
  }

  /** The record `validateChoice` returns: the option's flag, explanation and text. */
  datatype Validation = Validation(correct: bool, explanation: Note, choiceText: Move)

  /** The record `getProgress` returns, without its rounded percentage. */
  datatype Progress = Progress(current: int, total: int)

  /** The choice list of one step under a machine key; any key but "pda" and "dtm" has none. */
  function ChoicesFor(c: Choices, machine: string): Option<seq<Choice>>
  {
    if machine == "pda" then Some(c.pda)
    else if machine == "dtm" then Some(c.dtm)
    else None
  }

  /** The run of an input and the length facts the session relies on. */
  lemma {:induction false} RunOfInput(s: string)
    ensures |Steps(s)| == RunLength(s, IndexOf(s, '#'), CheckIfMatch(s)) >= 4
    ensures '#' in s ==> |Steps(s)| == |s| + 3 + (if CheckIfMatch(s) then 1 else 0)
  {
    var h := IndexOf(s, '#');
    RunLengthIsLength(s, h, CheckIfMatch(s));
    StepCount(s, h, CheckIfMatch(s));
  }

  class Simulation {
    const inputString: string
    const isMatch: bool
    const steps: seq<Step>
    var currentStep: int
    var isComplete: bool

    /** The run is the one generated for the input, and the cursor is inside it. */
    ghost predicate Valid()
      reads this
    {
      && isMatch == CheckIfMatch(inputString)
      && steps == Steps(inputString)
      && 0 <= currentStep < |steps|
    }

    function CursorOf(): Cursor
      reads this
    {
      Cursor(currentStep, isComplete)
    }

    /** `new StepByStepSimulation(inputString)`: the run, at its first step. */
    constructor(s: string)
      ensures Valid()
      ensures inputString == s && isMatch == CheckIfMatch(s)
      ensures currentStep == 0 && !isComplete
    {
      var m := CheckIfMatch(s);
      var generated := GenerateSteps(s, m);
      RunOfInput(s);
      inputString := s;
      isMatch := m;
      currentStep := 0;
      steps := generated;
      isComplete := false;
    }

    /** `getCurrentStep()`: the step at the cursor, or null when the cursor is off the list. */
    function GetCurrentStep(): (r: Option<Step>)
      reads this
      ensures r.Some? <==> 0 <= currentStep < |steps|
      ensures r.Some? ==> r.value == steps[currentStep]
    {
      if 0 <= currentStep < |steps| then Some(steps[currentStep]) else None
    }

    /** `getCurrentChoices()`: the choices of the current step, or null. */
    function GetCurrentChoices(): (r: Option<Choices>)
      reads this
      ensures r.Some? <==> 0 <= currentStep < |steps|
      ensures r.Some? ==> r.value == steps[currentStep].choices
    {
      match GetCurrentStep()
      case None => None
      case Some(step) => Some(step.choices)
    }

    /**
     * `validateChoice(machine, choiceIndex)`: the verdict on one option of
     * the current step, or null when there is no current step, no list
     * under that key, or no option at that index.
     */
    function ValidateChoice(machine: string, choiceIndex: int): (r: Option<Validation>)
      reads this
      ensures r.Some? <==>
        0 <= currentStep < |steps| && (machine == "pda" || machine == "dtm")
        && 0 <= choiceIndex < |ChoicesFor(steps[currentStep].choices, machine).value|
      ensures r.Some? ==>
        var option := ChoicesFor(steps[currentStep].choices, machine).value[choiceIndex];
        r.value == Validation(option.correct, option.explanation, option.text)
    {
      match GetCurrentStep()
      case None => None
      case Some(step) =>
        match ChoicesFor(step.choices, machine)
        case None => None
        case Some(options) =>
          if 0 <= choiceIndex < |options| then
            var option := options[choiceIndex];
            Some(Validation(option.correct, option.explanation, option.text))
          else None
    }

    /**
     * `canAdvance()`: in a valid session, false exactly at the last step;
     * when true, the step after the current one exists.
     */
    function CanAdvance(): (r: bool)
      reads this
      ensures Valid() ==> (!r <==> currentStep == |steps| - 1)
      ensures r && 0 <= currentStep ==> currentStep + 1 < |steps|
    {
      CanAdvanceFrom(CursorOf(), |steps|)
    }

    /** `getProgress()`: the cursor and the length of the run. */
    function GetProgress(): (r: Progress)
      reads this
      ensures r.current == currentStep && r.total == |steps|
    {
      Progress(currentStep, |steps|)
    }

    /** `advance()`: reports whether it moved; when it cannot, it marks the walk complete. */
    method Advance() returns (moved: bool)
      requires Valid()
      modifies this
      ensures Valid()
      ensures moved == old(CanAdvance())
      ensures CursorOf() == AdvanceCursor(old(CursorOf()), |steps|)
    {
      if CanAdvance() {
        currentStep := currentStep + 1;
        return true;
      }
      isComplete := true;
      return false;
    }

    /** `goBack()`: reports whether it moved. */
    method GoBack() returns (moved: bool)
      requires Valid()
      modifies this
      ensures Valid()
      ensures moved == (old(currentStep) > 0)
      ensures CursorOf() == GoBackCursor(old(CursorOf()))
    {
      if currentStep > 0 {
        currentStep := currentStep - 1;
        return true;
      }
      return false;
    }

    /** A simulation in its invariant always has a current step, so no lookup yields null there. */
    lemma CurrentStepExists()
      requires Valid()
      ensures GetCurrentStep().Some? && GetCurrentChoices().Some?
      ensures GetProgress().current < GetProgress().total
    {
    }

    /**
     * The answer key: for either machine, options 0 to 3 all exist and only
     * option 0 is correct; every other index and every other key yields null.
     */
    lemma AnswerKey(machine: string, choiceIndex: int)
      requires Valid()
      ensures (machine == "pda" || machine == "dtm") && 0 <= choiceIndex < 4 <==> ValidateChoice(machine, choiceIndex).Some?
      ensures ValidateChoice(machine, choiceIndex).Some? ==>
        (ValidateChoice(machine, choiceIndex).value.correct <==> choiceIndex == 0)
    {
      var h := IndexOf(inputString, '#');
      ChoicesShape(inputString, h, isMatch);
      var c := steps[currentStep].choices;
      assert |c.pda| == 4 && c.pda[0].correct && CountCorrect(c.pda) == 1;
      assert |c.dtm| == 4 && c.dtm[0].correct && CountCorrect(c.dtm) == 1;
      if machine == "pda" || machine == "dtm" {
        if 0 < choiceIndex < 4 {
          OnlyOneCorrect(ChoicesFor(c, machine).value, choiceIndex);
        }
      }
    }

    /** The progress total is the length of the run: n + 3 steps, one more for a match, with a '#'. */
    lemma ProgressTotal()
      requires Valid()
      ensures '#' in inputString ==>
        GetProgress().total == |inputString| + 3 + (if isMatch then 1 else 0)
      ensures GetProgress().total >= 4
    {
      RunOfInput(inputString);
    }
  }

  /** When the first option is the only correct one, no other option is correct. */
  lemma {:induction false} OnlyOneCorrect(options: seq<Choice>, j: int)
    requires |options| >= 1 && options[0].correct && CountCorrect(options) == 1 && 0 < j < |options|
    ensures !options[j].correct
  {
    if options[j].correct {
      CorrectCounted(options[1..], j - 1);
      assert false;
    }
  }

  /** A correct option at index j counts, so a list holding one has a positive count. */
  lemma {:induction false} CorrectCounted(options: seq<Choice>, j: int)
    requires 0 <= j < |options| && options[j].correct
    ensures CountCorrect(options) >= 1
    decreases |options|
  {
    if j > 0 {
      CorrectCounted(options[1..], j - 1);
    }
  }
}
