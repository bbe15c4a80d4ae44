/**
 * What the run built by `generateSteps` looks like: where each phase sits
 * in the list, how many steps there are and how they are numbered, the
 * states, stacks, tapes and heads of the configurations, and the shape of
 * every choice list.
 *
 * The facts are stated over `StepsFor(s, h, m)` for every separator index
 * h (-1 when there is none) and every verdict m; `Steps(s)` is the instance
 * `h = IndexOf(s, '#')`, `m = CheckIfMatch(s)`.
 *
 * `PhaseAt` is an index-by-index description of the list, independent of the
 * phase-by-phase concatenation in `StepsFor`; `StepAt` proves the two agree.
 */
module GeneratorProps {
  import opened Text
  import opened Records
  import opened Tape
  import opened Matching
  import opened Generator

  /** Which builder produced a step, with the input position for the two loops. */
  datatype Phase =
    | Initial
    | Storing(i: nat)
    | Separator
    | Transfer
    | Comparing(i: nat)
    | FinalCheck
    | Final

  /** The phases of the run with separator index h and verdict m. */
  predicate ValidPhase(s: string, h: int, m: bool, p: Phase)
  {
    match p
    case Storing(i) => i < StoreCount(h)
    case Comparing(i) => h < i < |s|
    case FinalCheck => m
    case _ => true
  }

  /** The step a phase contributes, with the tape of its step number. */
  function BuildStep(s: string, h: int, m: bool, p: Phase): Step
    requires -1 <= h < |s| && ValidPhase(s, h, m, p)
  {
    match p
    case Initial => InitialStep(s)
    case Storing(i) => StoringStep(s, h, m, i)
    case Separator => SeparatorStep(s, h, TapeSpec(h + 1, s, h, m))
    case Transfer => TransferStep(s, h, TapeSpec(h + 1, s, h, m))
    case Comparing(i) => ComparingStep(s, h, m, i)
    case FinalCheck => FinalCheckStep(s, TapeSpec(|s| + 1, s, h, m))
    case Final => FinalStep(s, m, TapeSpec(if m then |s| + 2 else |s| + 1, s, h, m))
  }

  /** Number of steps of the run. */
  function RunLength(s: string, h: int, m: bool): nat
    requires h < |s|
  {
    StoreCount(h) + 3 + CompareCount(s, h) + (if m then 1 else 0) + 1
  }

  /** Index of the comparison step for input position i. */
  function CompareIndex(h: int, i: int): int
  {
    StoreCount(h) + 2 + i - h
  }

  /** The phase of the step at index k, counting the steps of each phase in order. */
  function PhaseAt(s: string, h: int, m: bool, k: nat): (p: Phase)
    requires -1 <= h < |s| && k < RunLength(s, h, m)
    ensures ValidPhase(s, h, m, p)
  {
    var store := StoreCount(h);
    if k == 0 then Initial
    else if k <= store then Storing(k - 1)
    else if k == store + 1 then Separator
    else if k == store + 2 then Transfer
    else if k < store + 3 + CompareCount(s, h) then Comparing(k - store - 2 + h)
    else if k == RunLength(s, h, m) - 2 && m then FinalCheck
    else Final
  }

  /** The run has `RunLength` steps. */
  lemma RunLengthIsLength(s: string, h: int, m: bool)
    requires -1 <= h < |s|
    ensures |StepsFor(s, h, m)| == RunLength(s, h, m)
  {
  }

  /** The steps of the opening sit at the start of the run. */
  lemma OpeningAt(s: string, h: int, m: bool, k: nat)
    requires -1 <= h < |s| && k < StoreCount(h) + 3
    ensures k < |StepsFor(s, h, m)| && StepsFor(s, h, m)[k] == OpeningSteps(s, h, m)[k]
  {
    var opening := OpeningSteps(s, h, m);
    assert (opening + CompareSteps(s, h, m, |s|))[k] == opening[k];
  }

  /** The steps of the closing sit at the end of the run. */
  lemma ClosingAt(s: string, h: int, m: bool, k: nat)
    requires -1 <= h < |s| && k < |ClosingSteps(s, h, m)|
    ensures var n := |StepsFor(s, h, m)|; var c := |ClosingSteps(s, h, m)|;
      c <= n && StepsFor(s, h, m)[n - c + k] == ClosingSteps(s, h, m)[k]
  {
  }

  lemma InitialAt(s: string, h: int, m: bool)
    requires -1 <= h < |s|
    ensures |StepsFor(s, h, m)| > 0 && StepsFor(s, h, m)[0] == BuildStep(s, h, m, Initial)
  {
    OpeningAt(s, h, m, 0);
  }

  lemma StoringAt(s: string, h: int, m: bool, i: nat)
    requires -1 <= h < |s| && i < StoreCount(h)
    ensures i + 1 < |StepsFor(s, h, m)| && StepsFor(s, h, m)[i + 1] == BuildStep(s, h, m, Storing(i))
  {
    OpeningAt(s, h, m, i + 1);
    var steps := StoreSteps(s, h, m, StoreCount(h));
    assert ([InitialStep(s)] + steps)[i + 1] == steps[i];
  }

  lemma SeparatorAt(s: string, h: int, m: bool)
    requires -1 <= h < |s|
    ensures var k := StoreCount(h) + 1;
      k < |StepsFor(s, h, m)| && StepsFor(s, h, m)[k] == BuildStep(s, h, m, Separator)
  {
    OpeningAt(s, h, m, StoreCount(h) + 1);
  }

  lemma TransferAt(s: string, h: int, m: bool)
    requires -1 <= h < |s|
    ensures var k := StoreCount(h) + 2;
      k < |StepsFor(s, h, m)| && StepsFor(s, h, m)[k] == BuildStep(s, h, m, Transfer)
  {
    OpeningAt(s, h, m, StoreCount(h) + 2);
  }

  lemma ComparingAt(s: string, h: int, m: bool, i: nat)
    requires -1 <= h < i < |s|
    ensures 0 <= CompareIndex(h, i) < |StepsFor(s, h, m)|
    ensures StepsFor(s, h, m)[CompareIndex(h, i)] == BuildStep(s, h, m, Comparing(i))
  {
    var opening := OpeningSteps(s, h, m);
    var steps := CompareSteps(s, h, m, |s|);
    var j := i - h - 1;
    assert h + 1 + j == i;
    assert CompareIndex(h, i) == |opening| + j;
    assert (opening + steps)[|opening| + j] == steps[j];
  }

  lemma FinalCheckAt(s: string, h: int, m: bool)
    requires -1 <= h < |s| && m
    ensures var n := |StepsFor(s, h, m)|; n >= 2 && StepsFor(s, h, m)[n - 2] == BuildStep(s, h, m, FinalCheck)
  {
    ClosingAt(s, h, m, 0);
  }

  lemma FinalAt(s: string, h: int, m: bool)
    requires -1 <= h < |s|
    ensures var n := |StepsFor(s, h, m)|; n >= 1 && StepsFor(s, h, m)[n - 1] == BuildStep(s, h, m, Final)
  {
    ClosingAt(s, h, m, if m then 1 else 0);
  }

  /** The steps of the opening are the ones their phases build. */
  lemma OpeningStepAt(s: string, h: int, m: bool, k: nat)
    requires -1 <= h < |s| && k < StoreCount(h) + 3
    ensures k < RunLength(s, h, m) && k < |StepsFor(s, h, m)|
    ensures StepsFor(s, h, m)[k] == BuildStep(s, h, m, PhaseAt(s, h, m, k))
  {
    if k == 0 {
      InitialAt(s, h, m);
    } else if k <= StoreCount(h) {
      assert PhaseAt(s, h, m, k) == Storing(k - 1);
      StoringAt(s, h, m, k - 1);
    } else if k == StoreCount(h) + 1 {
      SeparatorAt(s, h, m);
    } else {
      TransferAt(s, h, m);
    }
  }

  /** The comparison steps are the ones their phases build. */
  lemma CompareStepAt(s: string, h: int, m: bool, k: nat)
    requires -1 <= h < |s| && StoreCount(h) + 3 <= k < StoreCount(h) + 3 + CompareCount(s, h)
    ensures k < RunLength(s, h, m) && k < |StepsFor(s, h, m)|
    ensures StepsFor(s, h, m)[k] == BuildStep(s, h, m, PhaseAt(s, h, m, k))
  {
    var i := k - StoreCount(h) - 2 + h;
    assert PhaseAt(s, h, m, k) == Comparing(i);
    ComparingAt(s, h, m, i);
    assert CompareIndex(h, i) == k;
  }

  /** The closing steps are the ones their phases build. */
  lemma ClosingStepAt(s: string, h: int, m: bool, k: nat)
    requires -1 <= h < |s| && StoreCount(h) + 3 + CompareCount(s, h) <= k < RunLength(s, h, m)
    ensures k < |StepsFor(s, h, m)|
    ensures StepsFor(s, h, m)[k] == BuildStep(s, h, m, PhaseAt(s, h, m, k))
  {
    RunLengthIsLength(s, h, m);
    if k == RunLength(s, h, m) - 2 && m {
      FinalCheckAt(s, h, m);
    } else {
      FinalAt(s, h, m);
    }
  }

  /** Step k of the run is the one its phase builds. */
  lemma StepAt(s: string, h: int, m: bool, k: nat)
    requires -1 <= h < |s| && k < RunLength(s, h, m)
    ensures |StepsFor(s, h, m)| == RunLength(s, h, m)
    ensures StepsFor(s, h, m)[k] == BuildStep(s, h, m, PhaseAt(s, h, m, k))
  {
    RunLengthIsLength(s, h, m);
    if k < StoreCount(h) + 3 {
      OpeningStepAt(s, h, m, k);
    } else if k < StoreCount(h) + 3 + CompareCount(s, h) {
      CompareStepAt(s, h, m, k);
    } else {
      ClosingStepAt(s, h, m, k);
    }
  }

  /**
   * The list `GenerateSteps` returns: with a '#' at index h, n + 3 steps and
   * one more for a match; with none (and so no match), n + 4.
   */
  lemma StepCount(s: string, h: int, m: bool)
    requires -1 <= h < |s|
    ensures h >= 0 ==> |StepsFor(s, h, m)| == |s| + 3 + (if m then 1 else 0)
    ensures h < 0 && !m ==> |StepsFor(s, h, m)| == |s| + 4
  {
    RunLengthIsLength(s, h, m);
  }

  /** The step number each phase carries. */
  function PhaseNumber(s: string, h: int, m: bool, p: Phase): int
  {
    match p
    case Initial => 0
    case Storing(i) => i + 1
    case Separator => h + 1
    case Transfer => h + 2
    case Comparing(i) => i + 2
    case FinalCheck => |s| + 1
    case Final => if m then |s| + 2 else |s| + 1
  }

  lemma PhaseNumberIsStepNumber(s: string, h: int, m: bool, p: Phase)
    requires -1 <= h < |s| && ValidPhase(s, h, m, p)
    ensures BuildStep(s, h, m, p).stepNumber == PhaseNumber(s, h, m, p)
  {
  }

  /**
   * With a '#', step k carries number k up to the last comparison and k - 1
   * after it; without one, the separator and transfer steps lag one behind
   * and the final step two.
   */
  lemma {:induction false} StepNumbers(s: string, h: int, m: bool)
    requires -1 <= h < |s|
    ensures h >= 0 ==> forall k :: 0 <= k < |StepsFor(s, h, m)| ==>
      StepsFor(s, h, m)[k].stepNumber == if k <= |s| + 1 then k else k - 1
    ensures h < 0 && !m ==> forall k :: 0 <= k < |StepsFor(s, h, m)| ==>
      StepsFor(s, h, m)[k].stepNumber == if k <= 1 then 0 else if k <= |s| + 2 then k - 1 else |s| + 1
  {
    RunLengthIsLength(s, h, m);
    forall k | 0 <= k < |StepsFor(s, h, m)| && (h >= 0 || !m)
      ensures StepsFor(s, h, m)[k].stepNumber == NumberAt(s, h, k)
    {
      StepAt(s, h, m, k);
      PhaseNumberIsStepNumber(s, h, m, PhaseAt(s, h, m, k));
      PhaseNumberAt(s, h, m, k);
    }
  }

  /** The step number at index k, as `StepNumbers` states it. */
  function NumberAt(s: string, h: int, k: nat): int
  {
    if h >= 0 then (if k <= |s| + 1 then k else k - 1)
    else if k <= 1 then 0
    else if k <= |s| + 2 then k - 1
    else |s| + 1
  }

  lemma PhaseNumberAt(s: string, h: int, m: bool, k: nat)
    requires -1 <= h < |s| && k < RunLength(s, h, m) && (h >= 0 || !m)
    ensures PhaseNumber(s, h, m, PhaseAt(s, h, m, k)) == NumberAt(s, h, k)
  {
  }

  /** Step numbers never decrease along the list. */
  lemma StepNumbersNonDecreasing(s: string, h: int, m: bool)
    requires -1 <= h < |s| && (h < 0 ==> !m)
    ensures forall j, k :: 0 <= j <= k < |StepsFor(s, h, m)| ==>
      StepsFor(s, h, m)[j].stepNumber <= StepsFor(s, h, m)[k].stepNumber
  {
    StepNumbers(s, h, m);
  }

  /** ... but they are not strictly increasing: with a '#', steps n + 1 and n + 2 both carry n + 1. */
  lemma StepNumbersRepeat(s: string, h: int, m: bool)
    requires 0 <= h < |s|
    ensures |s| + 2 < |StepsFor(s, h, m)|
    ensures StepsFor(s, h, m)[|s| + 1].stepNumber == StepsFor(s, h, m)[|s| + 2].stepNumber == |s| + 1
  {
    StepCount(s, h, m);
    StepNumbers(s, h, m);
  }

  /** Every builder's lists: four options per machine, the first and only the first correct. */
  lemma PhaseChoices(s: string, h: int, m: bool, p: Phase)
    requires -1 <= h < |s| && ValidPhase(s, h, m, p)
    ensures WellFormedChoices(BuildStep(s, h, m, p).choices)
  {
  }

  lemma ChoicesShape(s: string, h: int, m: bool)
    requires -1 <= h < |s|
    ensures forall k :: 0 <= k < |StepsFor(s, h, m)| ==>
      var c := StepsFor(s, h, m)[k].choices;
      && |c.pda| == 4 && |c.dtm| == 4
      && c.pda[0].correct && c.dtm[0].correct
      && CountCorrect(c.pda) == 1 && CountCorrect(c.dtm) == 1
  {
    RunLengthIsLength(s, h, m);
    forall k | 0 <= k < |StepsFor(s, h, m)|
      ensures var c := StepsFor(s, h, m)[k].choices;
        && |c.pda| == 4 && |c.dtm| == 4
        && c.pda[0].correct && c.dtm[0].correct
        && CountCorrect(c.pda) == 1 && CountCorrect(c.dtm) == 1
    {
      StepAt(s, h, m, k);
      var c := BuildStep(s, h, m, PhaseAt(s, h, m, k)).choices;
      PhaseChoices(s, h, m, PhaseAt(s, h, m, k));
      FirstOfFourCorrectCountsOne(c.pda);
      FirstOfFourCorrectCountsOne(c.dtm);
    }
  }

  /**
   * The configurations of the comparison step for input position i: a match
   * exactly when the partner of i in w1 exists and holds the same character;
   * on a match the PDA stays in q1, the DTM in q_compare and moves right;
   * otherwise both machines are in q_reject and the head stays.
   */
  lemma PhaseComparison(s: string, h: int, m: bool, i: nat)
    requires -1 <= h < i < |s|
    ensures var st := BuildStep(s, h, m, Comparing(i)); var sm := ShouldMatch(s, h, i);
      && st.stepNumber == i + 2
      && (st.pda.state == PdaCompare <==> sm)
      && (st.dtm.state == DtmCompare <==> sm)
      && (!sm ==> st.pda.state == Reject && st.dtm.state == Reject)
      && st.dtm.headPosition == (if sm then i + 1 else i)
      && |st.choices.pda| == 4 && st.choices.pda[0].text.PdaMove?
      && st.choices.pda[0].text.to == (if sm then Q1 else QReject)
      && |st.choices.dtm| == 4 && st.choices.dtm[0].text.DtmMove?
      && st.choices.dtm[0].text.write == (if sm then "Y" else "N")
  {
  }

  /** The comparison step for input position i sits at `CompareIndex` and is as `PhaseComparison` says. */
  lemma ComparisonStep(s: string, h: int, m: bool, i: nat)
    requires -1 <= h < i < |s|
    ensures 0 <= CompareIndex(h, i) < |StepsFor(s, h, m)|
    ensures var st := StepsFor(s, h, m)[CompareIndex(h, i)]; var sm := ShouldMatch(s, h, i);
      && st.stepNumber == i + 2
      && (st.pda.state == PdaCompare <==> sm)
      && (st.dtm.state == DtmCompare <==> sm)
      && (!sm ==> st.pda.state == Reject && st.dtm.state == Reject)
      && st.dtm.headPosition == (if sm then i + 1 else i)
  {
    ComparingAt(s, h, m, i);
    PhaseComparison(s, h, m, i);
  }

  /** For a w#w string every comparison sees a match. */
  lemma MatchedComparisons(s: string, i: nat)
    requires CheckIfMatch(s) && IndexOf(s, '#') < i < |s|
    ensures ShouldMatch(s, IndexOf(s, '#'), i)
  {
    var h := IndexOf(s, '#');
    MatchShape(s);
    assert PairAgrees(s, h, i - h - 1);
  }

  /**
   * The last step is the decision: both machines accept exactly for a
   * match, otherwise both reject, and the head is back at 0.
   */
  lemma FinalDecisionStep(s: string, h: int, m: bool)
    requires -1 <= h < |s|
    ensures |StepsFor(s, h, m)| > 0
    ensures var st := StepsFor(s, h, m)[|StepsFor(s, h, m)| - 1];
      && st.pda.state == st.dtm.state
      && (st.pda.state == Accept <==> m)
      && (!m ==> st.pda.state == Reject)
      && st.dtm.headPosition == 0
  {
    FinalAt(s, h, m);
  }

  /** Only the final-check phase puts the PDA in `q_final_check`. */
  lemma PhaseFinalCheckState(s: string, h: int, m: bool, p: Phase)
    requires -1 <= h < |s| && ValidPhase(s, h, m, p)
    ensures BuildStep(s, h, m, p).pda.state == PdaFinalCheck <==> p == FinalCheck
  {
  }

  /**
   * The PDA final check (stacks both `[⊥]`) is the step before the decision
   * of a matching run, and no step of any other run is in `q_final_check`.
   */
  lemma FinalCheckPresence(s: string, h: int, m: bool)
    requires -1 <= h < |s|
    ensures (exists k :: 0 <= k < |StepsFor(s, h, m)| && StepsFor(s, h, m)[k].pda.state == PdaFinalCheck) <==> m
    ensures m ==>
      && |StepsFor(s, h, m)| >= 2
      && var st := StepsFor(s, h, m)[|StepsFor(s, h, m)| - 2];
        st.pda.state == PdaFinalCheck && st.pda.leftStack == [Bottom] && st.pda.rightStack == [Bottom]
  {
    RunLengthIsLength(s, h, m);
    if m {
      FinalCheckAt(s, h, m);
    }
    forall k | 0 <= k < |StepsFor(s, h, m)| && StepsFor(s, h, m)[k].pda.state == PdaFinalCheck ensures m {
      StepAt(s, h, m, k);
      PhaseFinalCheckState(s, h, m, PhaseAt(s, h, m, k));
    }
  }

  /** `r` is what `substring` leaves of s from some position on. */
  predicate IsSuffix(r: string, s: string)
  {
    |r| <= |s| && forall j :: 0 <= j < |r| ==> r[j] == s[|s| - |r| + j]
  }

  /** Both stacks sit on `⊥` and the unread input is a suffix of the input. */
  predicate StacksOnBottom(pda: PdaConfig, s: string)
  {
    && |pda.leftStack| >= 1 && pda.leftStack[0] == Bottom
    && |pda.rightStack| >= 1 && pda.rightStack[0] == Bottom
    && IsSuffix(pda.remainingInput, s)
  }

  lemma SuffixIsSuffix(s: string, k: nat)
    requires k <= |s|
    ensures IsSuffix(Suffix(s, k), s)
  {
  }

  lemma StoreStepStacks(s: string, h: int, i: nat, tape: seq<char>)
    requires i < |s|
    ensures StacksOnBottom(StoreStep(s, h, i, tape).pda, s)
  {
    SuffixIsSuffix(s, i + 1);
  }

  lemma SeparatorStepStacks(s: string, h: int, tape: seq<char>)
    requires -1 <= h < |s|
    ensures StacksOnBottom(SeparatorStep(s, h, tape).pda, s)
    ensures StacksOnBottom(TransferStep(s, h, tape).pda, s)
  {
    SuffixIsSuffix(s, h + 1);
  }

  lemma CompareStepStacks(s: string, h: int, i: nat, tape: seq<char>)
    requires -1 <= h < i < |s|
    ensures StacksOnBottom(CompareStep(s, h, i, tape).pda, s)
  {
    SuffixIsSuffix(s, i + 1);
  }

  lemma PhaseStacks(s: string, h: int, m: bool, p: Phase)
    requires -1 <= h < |s| && ValidPhase(s, h, m, p)
    ensures StacksOnBottom(BuildStep(s, h, m, p).pda, s)
  {
    match p
    case Initial => assert Suffix(s, 0) == s; SuffixIsSuffix(s, 0);
    case Storing(i) => StoreStepStacks(s, h, i, TapeSpec(i + 1, s, h, m));
    case Separator => SeparatorStepStacks(s, h, TapeSpec(h + 1, s, h, m));
    case Transfer => SeparatorStepStacks(s, h, TapeSpec(h + 1, s, h, m));
    case Comparing(i) => CompareStepStacks(s, h, i, TapeSpec(i + 1, s, h, m));
    case FinalCheck =>
    case Final =>
  }

  /** Both stacks of every configuration sit on `⊥`, and the unread input is a suffix of the input. */
  lemma Stacks(s: string, h: int, m: bool)
    requires -1 <= h < |s|
    ensures forall k :: 0 <= k < |StepsFor(s, h, m)| ==>
      var pda := StepsFor(s, h, m)[k].pda;
      && |pda.leftStack| >= 1 && pda.leftStack[0] == Bottom
      && |pda.rightStack| >= 1 && pda.rightStack[0] == Bottom
      && IsSuffix(pda.remainingInput, s)
  {
    RunLengthIsLength(s, h, m);
    forall k | 0 <= k < |StepsFor(s, h, m)|
      ensures var pda := StepsFor(s, h, m)[k].pda;
        && |pda.leftStack| >= 1 && pda.leftStack[0] == Bottom
        && |pda.rightStack| >= 1 && pda.rightStack[0] == Bottom
        && IsSuffix(pda.remainingInput, s)
    {
      StepAt(s, h, m, k);
      PhaseStacks(s, h, m, PhaseAt(s, h, m, k));
    }
  }

  /** Storage step i holds `⊥` and the first i + 1 characters on the left stack. */
  lemma StorageStacks(s: string, h: int, m: bool, i: nat)
    requires i < h < |s|
    ensures i + 1 < |StepsFor(s, h, m)|
    ensures StepsFor(s, h, m)[i + 1].pda.leftStack == [Bottom] + s[..i + 1]
    ensures StepsFor(s, h, m)[i + 1].pda.rightStack == [Bottom]
  {
    StoringAt(s, h, m, i);
    PrefixIsSlice(s, i + 1);
  }

  /** After the transfer the left stack is empty and the right stack holds w1 reversed. */
  lemma TransferStacks(s: string, h: int, m: bool)
    requires 0 <= h < |s|
    ensures h + 2 < |StepsFor(s, h, m)|
    ensures StepsFor(s, h, m)[h + 2].pda.leftStack == [Bottom]
    ensures StepsFor(s, h, m)[h + 2].pda.rightStack == [Bottom] + Reverse(s[..h])
  {
    TransferAt(s, h, m);
    PrefixIsSlice(s, h);
  }

  /** The tape is the input plus four blank cells, and the head is on it. */
  predicate TapeFits(dtm: DtmConfig, s: string)
  {
    && |dtm.tape| == |s| + BlankPadding
    && (forall j :: |s| <= j < |dtm.tape| ==> dtm.tape[j] == Blank)
    && 0 <= dtm.headPosition < |dtm.tape|
  }

  lemma StoringStepTape(s: string, h: int, m: bool, i: nat)
    requires -1 <= h < |s| && i < |s|
    ensures TapeFits(StoringStep(s, h, m, i).dtm, s)
  {
    TapeShape(i + 1, s, h, m);
  }

  lemma SeparatorStepTape(s: string, h: int, m: bool)
    requires -1 <= h < |s|
    ensures TapeFits(SeparatorStep(s, h, TapeSpec(h + 1, s, h, m)).dtm, s)
    ensures TapeFits(TransferStep(s, h, TapeSpec(h + 1, s, h, m)).dtm, s)
  {
    TapeShape(h + 1, s, h, m);
  }

  lemma ComparingStepTape(s: string, h: int, m: bool, i: nat)
    requires -1 <= h < i < |s|
    ensures TapeFits(ComparingStep(s, h, m, i).dtm, s)
  {
    TapeShape(i + 1, s, h, m);
  }

  lemma ClosingStepTape(s: string, h: int, m: bool)
    requires -1 <= h < |s|
    ensures TapeFits(FinalCheckStep(s, TapeSpec(|s| + 1, s, h, m)).dtm, s)
    ensures TapeFits(FinalStep(s, m, TapeSpec(if m then |s| + 2 else |s| + 1, s, h, m)).dtm, s)
  {
    TapeShape(|s| + 1, s, h, m);
    TapeShape(if m then |s| + 2 else |s| + 1, s, h, m);
  }

  lemma PhaseTape(s: string, h: int, m: bool, p: Phase)
    requires -1 <= h < |s| && ValidPhase(s, h, m, p)
    ensures TapeFits(BuildStep(s, h, m, p).dtm, s)
  {
    match p
    case Initial =>
    case Storing(i) => StoringStepTape(s, h, m, i);
    case Separator => SeparatorStepTape(s, h, m);
    case Transfer => SeparatorStepTape(s, h, m);
    case Comparing(i) => ComparingStepTape(s, h, m, i);
    case FinalCheck => ClosingStepTape(s, h, m);
    case Final => ClosingStepTape(s, h, m);
  }

  /** Every tape is the input plus four blanks, and every head is on the tape. */
  lemma Tapes(s: string, h: int, m: bool)
    requires -1 <= h < |s|
    ensures forall k :: 0 <= k < |StepsFor(s, h, m)| ==>
      var dtm := StepsFor(s, h, m)[k].dtm;
      && |dtm.tape| == |s| + BlankPadding
      && (forall j :: |s| <= j < |dtm.tape| ==> dtm.tape[j] == Blank)
      && 0 <= dtm.headPosition < |dtm.tape|
  {
    RunLengthIsLength(s, h, m);
    forall k | 0 <= k < |StepsFor(s, h, m)|
      ensures var dtm := StepsFor(s, h, m)[k].dtm;
        && |dtm.tape| == |s| + BlankPadding
        && (forall j :: |s| <= j < |dtm.tape| ==> dtm.tape[j] == Blank)
        && 0 <= dtm.headPosition < |dtm.tape|
    {
      StepAt(s, h, m, k);
      PhaseTape(s, h, m, PhaseAt(s, h, m, k));
    }
  }

  /** The DTM state names the configurations use. */
  const DtmStateNames: seq<string> := [DtmStart, DtmMark, DtmSeparator, DtmCompare, Accept, Reject]

  lemma PhaseDtmState(s: string, h: int, m: bool, p: Phase)
    requires -1 <= h < |s| && ValidPhase(s, h, m, p)
    ensures BuildStep(s, h, m, p).dtm.state in DtmStateNames
  {
  }

  /** Every DTM configuration of the run is in one of the six generated states. */
  lemma DtmStates(s: string, h: int, m: bool)
    requires -1 <= h < |s|
    ensures forall k :: 0 <= k < |StepsFor(s, h, m)| ==> StepsFor(s, h, m)[k].dtm.state in DtmStateNames
  {
    RunLengthIsLength(s, h, m);
    forall k | 0 <= k < |StepsFor(s, h, m)| ensures StepsFor(s, h, m)[k].dtm.state in DtmStateNames {
      StepAt(s, h, m, k);
      PhaseDtmState(s, h, m, PhaseAt(s, h, m, k));
    }
  }

  /** The PDA state names the configurations use. */
  const PdaStateNames: seq<string> := [PdaStart, PdaCompare, PdaTransfer, PdaFinalCheck, Accept, Reject]

  lemma PhasePdaState(s: string, h: int, m: bool, p: Phase)
    requires -1 <= h < |s| && ValidPhase(s, h, m, p)
    ensures BuildStep(s, h, m, p).pda.state in PdaStateNames
  {
  }

  /** Every PDA configuration of the run is in one of the six generated states. */
  lemma PdaStates(s: string, h: int, m: bool)
    requires -1 <= h < |s|
    ensures forall k :: 0 <= k < |StepsFor(s, h, m)| ==> StepsFor(s, h, m)[k].pda.state in PdaStateNames
  {
    RunLengthIsLength(s, h, m);
    forall k | 0 <= k < |StepsFor(s, h, m)| ensures StepsFor(s, h, m)[k].pda.state in PdaStateNames {
      StepAt(s, h, m, k);
      PhasePdaState(s, h, m, PhaseAt(s, h, m, k));
    }
  }
}
