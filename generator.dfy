/**
 * `generateSteps`: the whole run of both machines on one input, as a
 * sequence of step records.  The run has these phases, in order:
 *   the initial configuration;
 *   one storage step per character before the first '#';
 *   the separator step and the stack-transfer step;
 *   one comparison step per character after the '#';
 *   the PDA final check, for matching strings only;
 *   the final decision.
 * `Steps` is the specification; `GenerateSteps` builds it with the
 * source's loops.
 */
module Generator {
  import opened Text
  import opened Records
  import opened Matching
  import opened Tape
  import opened ChoiceBuilders

  /** The first part w1 as the left stack holds it: `chars.slice(0, hashIndex)`. */
  function FirstPart(s: string, h: int): string
  {
    Slice0(s, h)
  }

  /** The record of step 0, before anything is read. */
  function InitialStep(s: string): Step
  {
    Step(0, InitialConfiguration,
      PdaConfig(PdaStart, s, [Bottom], [Bottom], PdaStartState),
      DtmConfig(DtmStart, Padded(s), 0, DtmStartState),
      ChoicesStep0(s))
  }

  /**
   * The initial record: nothing read, both stacks holding only the bottom
   * marker, the head on the first cell of the padded input, and the answer
   * key's shape.
   */
  lemma InitialStepRecord(s: string)
    ensures var r := InitialStep(s);
      && r.stepNumber == 0
      && r.pda.remainingInput == s && r.pda.leftStack == [Bottom] && r.pda.rightStack == [Bottom]
      && |r.dtm.tape| == |s| + 4 && r.dtm.tape[..|s|] == s && r.dtm.headPosition == 0
      && WellFormedChoices(r.choices)
  {
  }

  /** Storage step for input position i (i < hashIndex). */
  function StoreStep(s: string, h: int, i: nat, tape: seq<char>): Step
    requires i < |s|
  {
    var c := [s[i]];
    Step(i + 1, StoreInLeftStack(c),
      PdaConfig(PdaStart, Suffix(s, i + 1), [Bottom] + Prefix(s, i + 1), [Bottom], StoringPush(c)),
      DtmConfig(DtmMark, tape, i + 1, MarkedMovedRight(c)),
      ChoicesPhase1(s, i, h))
  }

  /**
   * A storage record: the character at position i is read and pushed, so
   * the left stack holds the input up to it with that character on top,
   * and the DTM head moves to the next cell.
   */
  lemma StoreStepRecord(s: string, h: int, i: nat, tape: seq<char>)
    requires i < |s|
    ensures var r := StoreStep(s, h, i, tape);
      && r.stepNumber == i + 1
      && r.pda.remainingInput == s[i + 1..]
      && r.pda.leftStack == [Bottom] + s[..i + 1] && r.pda.rightStack == [Bottom]
      && r.pda.leftStack[|r.pda.leftStack| - 1] == s[i]
      && r.dtm.tape == tape && r.dtm.headPosition == i + 1
      && WellFormedChoices(r.choices)
  {
    PrefixIsSlice(s, i + 1);
    SuffixIsSlice(s, i + 1);
  }

  /** The record of the step that reads the '#' (at index h, -1 when there is none). */
  function SeparatorStep(s: string, h: int, tape: seq<char>): Step
    requires -1 <= h < |s|
  {
    Step(h + 1, FoundHashSeparator,
      PdaConfig(PdaCompare, Suffix(s, h + 1), [Bottom] + FirstPart(s, h), [Bottom], PdaToComparison),
      DtmConfig(DtmSeparator, tape, h + 1, DtmFoundSeparator),
      ChoicesSeparator(s, h))
  }

  /** The separator record: w1 on the left stack, w2 still unread, the head past the '#'. */
  lemma SeparatorStepRecord(s: string, h: int, tape: seq<char>)
    requires -1 <= h < |s|
    ensures var r := SeparatorStep(s, h, tape);
      && r.stepNumber == h + 1
      && r.pda.remainingInput == s[h + 1..]
      && (0 <= h ==> r.pda.leftStack == [Bottom] + s[..h])
      && r.pda.rightStack == [Bottom]
      && r.dtm.tape == tape && r.dtm.headPosition == h + 1
      && WellFormedChoices(r.choices)
  {
    SuffixIsSlice(s, h + 1);
    if 0 <= h {
      PrefixIsSlice(s, h);
    }
  }

  /** The record of the step that moves the left stack onto the right one. */
  function TransferStep(s: string, h: int, tape: seq<char>): Step
    requires -1 <= h < |s|
  {
    Step(h + 2, TransferForOrdering,
      PdaConfig(PdaTransfer, Suffix(s, h + 1), [Bottom], [Bottom] + Reverse(FirstPart(s, h)), TransferComplete),
      DtmConfig(DtmSeparator, tape, h + 1, DtmReady),
      ChoicesTransfer(s, h))
  }

  /**
   * The transfer record: the left stack is emptied onto the right one, so
   * w1 sits there reversed and its first character is on top.
   */
  lemma TransferStepRecord(s: string, h: int, tape: seq<char>)
    requires -1 <= h < |s|
    ensures var r := TransferStep(s, h, tape);
      && r.stepNumber == h + 2
      && r.pda.remainingInput == s[h + 1..]
      && r.pda.leftStack == [Bottom]
      && (0 <= h ==> r.pda.rightStack == [Bottom] + Reverse(s[..h]))
      && (0 < h ==> r.pda.rightStack[|r.pda.rightStack| - 1] == s[0])
      && r.dtm.tape == tape && r.dtm.headPosition == h + 1
      && WellFormedChoices(r.choices)
  {
    SuffixIsSlice(s, h + 1);
    if 0 <= h {
      PrefixIsSlice(s, h);
    }
  }

  /**
   * Whether the comparison step for input position i (after the '#') sees
   * a match: its partner in w1 exists and holds the same character.
   */
  predicate ShouldMatch(s: string, h: int, i: nat)
    requires h < i < |s|
  {
    var pos := i - h - 1;
    pos < h && s[pos] == s[i]
  }

  /** Position k of w2 is compared with position k of w1, when w1 has one. */
  lemma ShouldMatchMeaning(s: string, h: nat, i: nat)
    requires h < i < |s|
    ensures var k := i - h - 1;
      ShouldMatch(s, h, i) == (k < |s[..h]| && s[..h][k] == s[h + 1..][k])
  {
  }

  /** Comparison step for input position i (hashIndex < i < n). */
  function CompareStep(s: string, h: int, i: nat, tape: seq<char>): Step
    requires -1 <= h < i < |s|
  {
    var pos := i - h - 1;
    var sm := ShouldMatch(s, h, i);
    var c := [s[i]];
    var e := [s[pos]];
    var reversed := Reverse(FirstPart(s, h));
    var remaining := if sm then Suffix(reversed, pos + 1) else reversed;
    Step(h + 3 + pos, CompareWithStack(c, e),
      PdaConfig(if sm then PdaCompare else Reject,
        if i < |s| - 1 then Suffix(s, i + 1) else "",
        [Bottom],
        if |remaining| > 0 then [Bottom] + remaining else [Bottom],
        if sm then PdaMatchPop(c, e) else PdaMismatchReject(c, e)),
      DtmConfig(if sm then DtmCompare else Reject, tape, if sm then i + 1 else i,
        if sm then MatchAtPositions(pos, i) else MismatchAtReject(i)),
      ChoicesPhase2(s, i, h, sm, pos))
  }

  /**
   * A comparison step: its number, its verdict on the pair in both machines
   * (continue on a match, reject otherwise) and where the head goes; the left
   * stack is empty, and the input after position i is unread. On a match
   * the right stack is the reversed w1 without its first i - h symbols, the
   * ones next to the bottom marker (`reversed.slice(positionInSecondPart + 1)`),
   * so its top is still w1's first character; on a mismatch it holds all of
   * the reversed w1.
   */
  lemma CompareStepRecord(s: string, h: int, i: nat, tape: seq<char>)
    requires -1 <= h < i < |s|
    ensures var r := CompareStep(s, h, i, tape);
      && r.stepNumber == i + 2
      && (r.pda.state == PdaCompare <==> ShouldMatch(s, h, i))
      && (r.dtm.state == DtmCompare <==> ShouldMatch(s, h, i))
      && (!ShouldMatch(s, h, i) ==> r.pda.state == Reject && r.dtm.state == Reject)
      && r.dtm.tape == tape && r.dtm.headPosition == (if ShouldMatch(s, h, i) then i + 1 else i)
      && WellFormedChoices(r.choices)
      && r.pda.remainingInput == s[i + 1..] && r.pda.leftStack == [Bottom]
      && |r.pda.rightStack| > 0 && r.pda.rightStack[0] == Bottom
      && (ShouldMatch(s, h, i) ==> |r.pda.rightStack| == |FirstPart(s, h)| - (i - h - 1))
      && (ShouldMatch(s, h, i) ==> r.pda.rightStack == [Bottom] + Suffix(Reverse(FirstPart(s, h)), i - h))
      && (!ShouldMatch(s, h, i) ==> r.pda.rightStack == [Bottom] + Reverse(FirstPart(s, h)))
  {
    SuffixIsSlice(s, i + 1);
  }

  /**
   * As written, a matching comparison removes symbols from the bottom end of
   * the right stack, so whenever symbols remain, the top is w1's first
   * character, whatever pair was compared; it then differs from the stack
   * that pops the compared symbols off the top whenever the two characters
   * involved differ.
   */
  lemma MatchKeepsFirstOnTop(s: string, h: int, i: nat, tape: seq<char>)
    requires 0 < h < i < |s| && ShouldMatch(s, h, i) && i - h < h
    ensures var stack := CompareStep(s, h, i, tape).pda.rightStack;
      && |stack| > 1 && stack[|stack| - 1] == s[0]
      && (s[0] != s[i - h] ==> stack != PoppedRightStack(s, h, i - h))
  {
    var stack := CompareStep(s, h, i, tape).pda.rightStack;
    var reversed := Reverse(FirstPart(s, h));
    var rest := Suffix(reversed, i - h);
    assert |reversed| == h && reversed[h - 1] == s[0];
    assert stack == [Bottom] + rest;
    assert rest[|rest| - 1] == reversed[h - 1];
    PoppedStackPopsTop(s, h, i - h);
    var popped := PoppedRightStack(s, h, i - h);
    if s[0] != s[i - h] {
      assert stack[|stack| - 1] != popped[|popped| - 1];
    }
  }

  /** On "ab#ab", after the first pair the right stack holds 'a' where 'b' is next to compare. */
  lemma PoppedStackExample()
    ensures CompareStep("ab#ab", 2, 3, "").pda.rightStack == ['⊥', 'a']
    ensures PoppedRightStack("ab#ab", 2, 1) == ['⊥', 'b']
  {
    assert Reverse(FirstPart("ab#ab", 2)) == "ba";
    assert Suffix("ba", 1) == "a";
    assert Prefix("ba", 1) == "b";
  }

  /**
   * The right stack after k pairs of w1 and w2 have matched, when each match
   * pops the compared symbol off the top: the reversed w1 without its last
   * k symbols (none left once k reaches its length).
   */
  function PoppedRightStack(s: string, h: int, k: nat): seq<char>
  {
    [Bottom] + Prefix(Reverse(FirstPart(s, h)), Max(|FirstPart(s, h)| - k, 0))
  }

  /**
   * The popping stack starts as the transfer step leaves it, has w1's k-th
   * character on top before pair k is compared, and loses exactly that
   * top symbol when the pair matches.
   */
  lemma PoppedStackPopsTop(s: string, h: int, k: nat)
    requires 0 <= h < |s| && k < h
    ensures PoppedRightStack(s, h, 0) == [Bottom] + Reverse(s[..h])
    ensures var stack := PoppedRightStack(s, h, k);
      && |stack| == h - k + 1 && stack[|stack| - 1] == s[k]
      && PoppedRightStack(s, h, k + 1) == stack[..|stack| - 1]
  {
    PrefixIsSlice(s, h);
    var reversed := Reverse(FirstPart(s, h));
    assert |reversed| == h;
    PrefixIsSlice(reversed, h);
    PrefixIsSlice(reversed, h - k);
    PrefixIsSlice(reversed, h - k - 1);
    assert reversed[h - k - 1] == s[k];
  }

  /** The record of the PDA's final check. */
  function FinalCheckStep(s: string, tape: seq<char>): Step
  {
    Step(|s| + 1, PdaFinalCheckStep,
      PdaConfig(PdaFinalCheck, "", [Bottom], [Bottom], StacksManaged),
      DtmConfig(DtmCompare, tape, |s|, DtmCompleted),
      ChoicesFinalCheck())
  }

  /** The PDA's final check: all input read and both stacks back to the bottom marker. */
  lemma FinalCheckStepRecord(s: string, tape: seq<char>)
    ensures var r := FinalCheckStep(s, tape);
      && r.stepNumber == |s| + 1
      && r.pda.state == PdaFinalCheck && r.pda.remainingInput == ""
      && r.pda.leftStack == [Bottom] && r.pda.rightStack == [Bottom]
      && r.dtm.tape == tape && r.dtm.headPosition == |s|
      && WellFormedChoices(r.choices)
  {
  }

  function FinalState(isMatch: bool): string
  {
    if isMatch then Accept else Reject
  }

  /** The record of the final decision. */
  function FinalStep(s: string, isMatch: bool, tape: seq<char>): Step
  {
    Step(if isMatch then |s| + 2 else |s| + 1, FinalDecision,
      PdaConfig(FinalState(isMatch), "", [Bottom], [Bottom], if isMatch then PdaAccepts else PdaRejects),
      DtmConfig(FinalState(isMatch), tape, 0, if isMatch then DtmAccepts else DtmRejects),
      ChoicesFinal(isMatch))
  }

  /** The final record: both machines in the same halting state, accepting iff the input matched. */
  lemma FinalStepRecord(s: string, isMatch: bool, tape: seq<char>)
    ensures var r := FinalStep(s, isMatch, tape);
      && r.stepNumber == |s| + 1 + (if isMatch then 1 else 0)
      && r.pda.state == r.dtm.state
      && (r.pda.state == Accept <==> isMatch)
      && (r.pda.state == Reject <==> !isMatch)
      && r.pda.remainingInput == "" && r.pda.leftStack == [Bottom] && r.pda.rightStack == [Bottom]
      && r.dtm.tape == tape && r.dtm.headPosition == 0
      && WellFormedChoices(r.choices)
  {
  }

  /** Number of storage steps: one per position before the separator (none without one). */
  function StoreCount(h: int): nat
  {
    if h >= 0 then h else 0
  }

  /** Number of comparison steps: one per position after the separator. */
  function CompareCount(s: string, h: int): nat
    requires h < |s|
  {
    |s| - h - 1
  }

  /** Storage step i with the tape of its step number. */
  function StoringStep(s: string, h: int, isMatch: bool, i: nat): Step
    requires -1 <= h < |s| && i < |s|
  {
    StoreStep(s, h, i, TapeSpec(i + 1, s, h, isMatch))
  }

  /** The comparison step for input position i with the tape of its step number. */
  function ComparingStep(s: string, h: int, isMatch: bool, i: nat): Step
    requires -1 <= h < i < |s|
  {
    CompareStep(s, h, i, TapeSpec(i + 1, s, h, isMatch))
  }

  /** The first c storage steps, each with the tape of its step number. */
  function StoreSteps(s: string, h: int, isMatch: bool, c: nat): (r: seq<Step>)
    requires -1 <= h < |s| && c <= StoreCount(h)
    ensures |r| == c
  {
    seq(c, k requires 0 <= k < c => StoringStep(s, h, isMatch, k))
  }

  /** The comparison steps for input positions h + 1 .. e - 1. */
  function CompareSteps(s: string, h: int, isMatch: bool, e: nat): (r: seq<Step>)
    requires -1 <= h < e <= |s|
    ensures |r| == e - h - 1
  {
    seq(e - h - 1, k requires 0 <= k < e - h - 1 => ComparingStep(s, h, isMatch, h + 1 + k))
  }

  /** The PDA final-check step, present for matching inputs only. */
  function FinalCheckSteps(s: string, h: int, isMatch: bool): seq<Step>
    requires -1 <= h < |s|
  {
    if isMatch then [FinalCheckStep(s, TapeSpec(|s| + 1, s, h, isMatch))] else []
  }

  /** The steps before the comparisons: the initial step, the storage steps, the separator and the transfer. */
  function OpeningSteps(s: string, h: int, isMatch: bool): (r: seq<Step>)
    requires -1 <= h < |s|
    ensures |r| == StoreCount(h) + 3
  {
    [InitialStep(s)]
    + StoreSteps(s, h, isMatch, StoreCount(h))
    + [SeparatorStep(s, h, TapeSpec(h + 1, s, h, isMatch)), TransferStep(s, h, TapeSpec(h + 1, s, h, isMatch))]
  }

  /** The steps after the comparisons: the final check of a matching run, then the decision. */
  function ClosingSteps(s: string, h: int, isMatch: bool): (r: seq<Step>)
    requires -1 <= h < |s|
    ensures |r| == if isMatch then 2 else 1
  {
    FinalCheckSteps(s, h, isMatch)
    + [FinalStep(s, isMatch, TapeSpec(if isMatch then |s| + 2 else |s| + 1, s, h, isMatch))]
  }

  /** The run for separator index h and match verdict isMatch, phase by phase. */
  function StepsFor(s: string, h: int, isMatch: bool): seq<Step>
    requires -1 <= h < |s|
  {
    OpeningSteps(s, h, isMatch) + CompareSteps(s, h, isMatch, |s|) + ClosingSteps(s, h, isMatch)
  }

  /** The steps `generateSteps` produces for the input s. */
  function Steps(s: string): seq<Step>
  {
    StepsFor(s, IndexOf(s, '#'), CheckIfMatch(s))
  }

  /** `generateSteps()` of a simulation whose `isMatch` was computed from its input. */
  method GenerateSteps(s: string, isMatch: bool) returns (steps: seq<Step>)
    requires isMatch == CheckIfMatch(s)
    ensures steps == Steps(s)
  {
    var h := IndexOf(s, '#');
    var storing := StorePhase(s, h, isMatch);
    var separator := SeparatorPhase(s, h, isMatch);
    var transfer := TransferPhase(s, h, isMatch);
    var comparing := ComparePhase(s, h, isMatch);
    var finalCheck := FinalCheckPhase(s, h, isMatch);
    var final := FinalPhase(s, h, isMatch);
    var opening := [InitialStep(s)] + storing + [separator, transfer];
    steps := opening + comparing + (finalCheck + [final]);
  }

  /** The separator step, with the tape of step number h + 1. */
  method SeparatorPhase(s: string, h: int, isMatch: bool) returns (step: Step)
    requires h == IndexOf(s, '#') && isMatch == CheckIfMatch(s)
    ensures step == SeparatorStep(s, h, TapeSpec(h + 1, s, h, isMatch))
  {
    var tape := GenerateDTMTape(h + 1, s, h, isMatch);
    step := SeparatorStep(s, h, tape);
  }

  /** The stack-transfer step; its tape is the separator step's. */
  method TransferPhase(s: string, h: int, isMatch: bool) returns (step: Step)
    requires h == IndexOf(s, '#') && isMatch == CheckIfMatch(s)
    ensures step == TransferStep(s, h, TapeSpec(h + 1, s, h, isMatch))
  {
    var tape := GenerateDTMTape(h + 1, s, h, isMatch);
    step := TransferStep(s, h, tape);
  }

  /** The final decision step. */
  method FinalPhase(s: string, h: int, isMatch: bool) returns (step: Step)
    requires h == IndexOf(s, '#') && isMatch == CheckIfMatch(s)
    ensures step == FinalStep(s, isMatch, TapeSpec(if isMatch then |s| + 2 else |s| + 1, s, h, isMatch))
  {
    var tape := GenerateDTMTape(if isMatch then |s| + 2 else |s| + 1, s, h, isMatch);
    step := FinalStep(s, isMatch, tape);
  }

  /** Phase 1: one storage step for each position before the separator. */
  method StorePhase(s: string, h: int, isMatch: bool) returns (steps: seq<Step>)
    requires h == IndexOf(s, '#') && isMatch == CheckIfMatch(s)
    ensures steps == StoreSteps(s, h, isMatch, StoreCount(h))
  {
    steps := [];
    var i := 0;
    while i < h
      invariant 0 <= i <= StoreCount(h)
      invariant steps == StoreSteps(s, h, isMatch, i)
    {
      var step := BuildStoreStep(s, h, isMatch, i);
      StoreStepsExtend(s, h, isMatch, i, steps, step);
      steps := steps + [step];
      i := i + 1;
    }
  }

  /** Phase 2: one comparison step for each position after the separator. */
  method ComparePhase(s: string, h: int, isMatch: bool) returns (steps: seq<Step>)
    requires h == IndexOf(s, '#') && isMatch == CheckIfMatch(s)
    ensures steps == CompareSteps(s, h, isMatch, |s|)
  {
    steps := [];
    var i := h + 1;
    while i < |s|
      invariant h + 1 <= i <= |s|
      invariant steps == CompareSteps(s, h, isMatch, i)
    {
      var step := BuildCompareStep(s, h, isMatch, i);
      CompareStepsExtend(s, h, isMatch, i, steps, step);
      steps := steps + [step];
      i := i + 1;
    }
  }

  /** The body of the storage loop: the tape of step number i + 1, then the record. */
  method BuildStoreStep(s: string, h: int, isMatch: bool, i: nat) returns (step: Step)
    requires h == IndexOf(s, '#') && isMatch == CheckIfMatch(s) && i < h
    ensures step == StoringStep(s, h, isMatch, i)
  {
    var tape := GenerateDTMTape(i + 1, s, h, isMatch);
    step := StoreStep(s, h, i, tape);
  }

  /** The body of the comparison loop: the tape of step number i + 1, then the record. */
  method BuildCompareStep(s: string, h: int, isMatch: bool, i: nat) returns (step: Step)
    requires h == IndexOf(s, '#') && isMatch == CheckIfMatch(s) && h < i < |s|
    ensures step == ComparingStep(s, h, isMatch, i)
  {
    var tape := GenerateDTMTape(i + 1, s, h, isMatch);
    step := CompareStep(s, h, i, tape);
  }

  /** Appending storage step i to the first i storage steps gives the first i + 1. */
  lemma StoreStepsExtend(s: string, h: int, isMatch: bool, i: nat, steps: seq<Step>, step: Step)
    requires -1 <= h < |s| && i < StoreCount(h)
    requires steps == StoreSteps(s, h, isMatch, i)
    requires step == StoringStep(s, h, isMatch, i)
    ensures steps + [step] == StoreSteps(s, h, isMatch, i + 1)
  {
  }

  /** Appending the comparison step for position i to those before it. */
  lemma CompareStepsExtend(s: string, h: int, isMatch: bool, i: nat, steps: seq<Step>, step: Step)
    requires -1 <= h < i < |s|
    requires steps == CompareSteps(s, h, isMatch, i)
    requires step == ComparingStep(s, h, isMatch, i)
    ensures steps + [step] == CompareSteps(s, h, isMatch, i + 1)
  {
    var r := CompareSteps(s, h, isMatch, i + 1);
    forall k | 0 <= k < |r| ensures (steps + [step])[k] == r[k] {
      if k == |steps| {
        assert h + 1 + k == i;
      }
    }
  }

  method FinalCheckPhase(s: string, h: int, isMatch: bool) returns (steps: seq<Step>)
    requires h == IndexOf(s, '#') && isMatch == CheckIfMatch(s)
    ensures steps == FinalCheckSteps(s, h, isMatch)
  {
    steps := [];
    if isMatch {
      var tape := GenerateDTMTape(|s| + 1, s, h, isMatch);
      steps := [FinalCheckStep(s, tape)];
    }
  }
}
