/**
 * The multiple-choice builders (`generateChoicesStep0`, `...Phase1`,
 * `...Separator`, `...Transfer`, `...Phase2`, `...FinalCheck`, `...Final`):
 * for each machine the transition the step performs, marked correct and put
 * first, and three distractors with the reason each is wrong.
 *
 * Characters of the input enter the texts as JavaScript renders them:
 * `CharAt` gives "undefined" outside the input, `CharOr` the fallback of
 * `x || '#'`.
 */
module ChoiceBuilders {
  import opened Text
  import opened Records

  /** Choices of the initial step. */
  function ChoicesStep0(s: string): (r: Choices)
    ensures WellFormedChoices(r)
  {
    var c0 := CharAt(s, 0);
    Choices(
      [ Choice(PdaMove(Q0, c0, BottomSymbol, Q0, c0 + BottomSymbol), true, StoreFirst(c0)),
        Choice(PdaMove(Q0, c0, BottomSymbol, Q0, BottomSymbol + c0), false, LeftGrowsUp),
        Choice(PdaMove(Q0, Epsilon, BottomSymbol, Q1, BottomSymbol), false, CannotSkipInput),
        Choice(PdaMove(Q0, c0, BottomSymbol, QReject, BottomSymbol), false, NoRejectFirst) ],
      [ Choice(DtmMove(QStart, c0, QMark, "X", R), true, MarkFirst(c0)),
        Choice(DtmMove(QStart, c0, QStart, c0, R), false, ShouldMarkCharacter),
        Choice(DtmMove(QStart, c0, QCompare, c0, L), false, TooEarlyToCompare),
        Choice(DtmMove(QStart, c0, QAccept, "X", R), false, CannotAcceptUnprocessed) ])
  }

  /** Choices of the storage step for input position i (h: index of the separator). */
  function ChoicesPhase1(s: string, i: int, h: int): (r: Choices)
    ensures WellFormedChoices(r)
  {
    var ci := CharAt(s, i);
    var next := CharAt(s, i + 1);
    var nextOrHash := CharOr(s, i + 1, "#");
    var lastBeforeHash := i + 1 == h;
    var nextIsHash := 0 <= i + 1 < |s| && s[i + 1] == '#';
    var written := if nextIsHash then "#" else "X";
    Choices(
      [ Choice(if lastBeforeHash then PdaMove(Q0, "#", ci, Q1, ci) else PdaMove(Q0, next, ci, Q0, next + ci), true,
               if lastBeforeHash then SeparatorToComparison else ContinueStoring(next)),
        Choice(PdaMove(Q0, nextOrHash, ci, Q0, ci + nextOrHash), false, StackOpsWrong),
        Choice(if lastBeforeHash then PdaMove(Q0, "#", ci, Q0, "#" + ci) else PdaMove(Q0, next, ci, Q1, next + ci), false,
               if lastBeforeHash then ShouldTransitionAtSeparator else TooEarlyForComparison),
        Choice(PdaMove(Q0, nextOrHash, ci, QReject, ci), false, NoRejectStorage) ],
      [ Choice(DtmMove(QMark, nextOrHash, QMark, written, R), true,
               if nextIsHash then KeepSeparatorVisible else MarkAndScan(next)),
        Choice(DtmMove(QMark, nextOrHash, QMark, nextOrHash, R), false, ShouldMarkCharacters),
        Choice(DtmMove(QMark, nextOrHash, QCompare, nextOrHash, L), false,
               if nextIsHash then SeparatorWrongDirection else NotReadyToCompare),
        Choice(DtmMove(QMark, nextOrHash, QReject, written, R), false, NoRejectMarking) ])
  }

  /** Choices of the separator step. */
  function ChoicesSeparator(s: string, h: int): (r: Choices)
    ensures WellFormedChoices(r)
  {
    var top := CharAt(s, h - 1);
    Choices(
      [ Choice(PdaMove(Q1, "#", top, QTransfer, top), true, SeparatorToTransfer),
        Choice(PdaMove(Q1, "#", top, Q1, "#" + top), false, ShouldTransferNotPush),
        Choice(PdaMove(Q1, "#", top, QReject, top), false, SeparatorExpected),
        Choice(PdaMove(Q1, Epsilon, top, QAccept, top), false, InputAfterSeparator) ],
      [ Choice(DtmMove(QSeparator, "#", QCompare, "#", R), true, SeparatorToCompare),
        Choice(DtmMove(QSeparator, "#", QSeparator, "#", R), false, ShouldEnterComparison),
        Choice(DtmMove(QSeparator, "#", QAccept, "#", R), false, SeparatorNotEnough),
        Choice(DtmMove(QSeparator, "#", QMark, "X", L), false, WrongDirectionAndState) ])
  }

  /** Choices of the transfer step. */
  function ChoicesTransfer(s: string, h: int): (r: Choices)
    ensures WellFormedChoices(r)
  {
    var top := CharAt(s, h - 1);
    var after := CharAt(s, h + 1);
    Choices(
      [ Choice(PdaMove(QTransfer, Epsilon, top, QTransfer, PushToRight), true, TransferAll),
        Choice(PdaMove(QTransfer, Epsilon, top, Q1, top), false, ShouldTransferNotKeep),
        Choice(PdaMove(QTransfer, after, Epsilon, QTransfer, PushAny), false, TransferUsesEpsilon),
        Choice(PdaMove(QTransfer, Epsilon, top, QReject, Pop), false, TransferNeeded) ],
      [ Choice(Action(ContinueComparison), true, DtmIndependent),
        Choice(Action(WaitForTransfer), false, IndependentParallel),
        Choice(Action(ResetHead), false, DtmKeepsPosition),
        Choice(Action(SwitchToTransfer), false, NoDtmTransfer) ])
  }

  /**
   * Choices of the comparison step for input position i; stackIndex is the
   * position in w1 it is compared with (`expectedChar` is null outside w1).
   */
  function ChoicesPhase2(s: string, i: int, h: int, shouldMatch: bool, stackIndex: int): (r: Choices)
    ensures WellFormedChoices(r)
  {
    var cur := CharAt(s, i);
    var inFirst := 0 <= stackIndex < h;
    var expected := if inFirst then CharAt(s, stackIndex) else "null";
    var expectedOr := if inFirst then CharOr(s, stackIndex, Unknown) else Unknown;
    Choices(
      [ Choice(if shouldMatch then PdaMove(Q1, cur, expected, Q1, Pop)
               else PdaMove(Q1, cur, expectedOr, QReject, expectedOr), true,
               if shouldMatch then MatchFound(cur, expected) else MismatchRejectPattern(cur, expected)),
        Choice(if shouldMatch then PdaMove(Q1, cur, expected, Q1, cur + expected)
               else PdaMove(Q1, cur, expectedOr, QAccept, expectedOr), false,
               if shouldMatch then ShouldPopNotPush else MismatchCannotAccept),
        Choice(PdaMove(Q1, Epsilon, expectedOr, Q1, Pop), false, MustConsumeInput),
        Choice(if shouldMatch then PdaMove(Q1, cur, expected, QReject, Pop)
               else PdaMove(Q1, cur, expectedOr, Q1, cur), false,
               if shouldMatch then MatchShouldContinue else MismatchShouldReject) ],
      [ Choice(if shouldMatch then DtmMove(QCompare, cur, QCompare, "Y", R)
               else DtmMove(QCompare, cur, QReject, "N", R), true,
               if shouldMatch then MatchesPosition(cur, stackIndex) else MismatchMarkN(i)),
        Choice(DtmMove(QCompare, cur, QCompare, cur, R), false, ShouldMarkResult),
        Choice(if shouldMatch then DtmMove(QCompare, cur, QReject, "Y", R)
               else DtmMove(QCompare, cur, QAccept, "N", R), false,
               if shouldMatch then MatchContinueComparing else MismatchFoundCannotAccept),
        Choice(DtmMove(QCompare, cur, QMark, "X", L), false, WrongPhase) ])
  }

  /** Choices of the final decision step. */
  function ChoicesFinal(isMatch: bool): (r: Choices)
    ensures WellFormedChoices(r)
  {
    Choices(
      [ Choice(if isMatch then PdaMove(Q1, Epsilon, BottomSymbol, QAccept, BottomSymbol)
               else PdaMove(Q1, MismatchWord, Unknown, QReject, Unknown), true,
               if isMatch then AcceptAllMatched else RejectMismatch),
        Choice(if isMatch then PdaMove(Q1, Epsilon, BottomSymbol, QReject, BottomSymbol)
               else PdaMove(Q1, MismatchWord, Unknown, QAccept, Unknown), false,
               if isMatch then ShouldAcceptVerified else CannotAcceptNoMatch),
        Choice(PdaMove(Q1, Epsilon, Remaining, QAccept, Remaining), false,
               if isMatch then LeftShouldBeEmpty else CannotAcceptRemaining),
        Choice(PdaMove(Q1, Epsilon, BottomSymbol, Q1, BottomSymbol), false, MustDecideSameState) ],
      [ Choice(if isMatch then DtmMove(QCompare, BlankSymbol, QAccept, BlankSymbol, L)
               else DtmMove(QCompare, "N", QReject, "N", L), true,
               if isMatch then AllPairsVerified else NonMatchingPairN),
        Choice(if isMatch then DtmMove(QCompare, BlankSymbol, QReject, BlankSymbol, L)
               else DtmMove(QCompare, "N", QAccept, "N", L), false,
               if isMatch then AllPairsMatchAccept else MismatchNonMatching),
        Choice(DtmMove(QCompare, "Y", QAccept, "Y", R), false,
               if isMatch then ShouldCheckProcessed else MismatchEarlier),
        Choice(DtmMove(QCompare, BlankSymbol, QCompare, BlankSymbol, R), false, MustDecideNotContinue) ])
  }

  /** Choices of the PDA final-check step (present for matching strings only). */
  function ChoicesFinalCheck(): (r: Choices)
    ensures WellFormedChoices(r)
  {
    Choices(
      [ Choice(PdaMove(QFinalCheck, Epsilon, BottomSymbol, QAccept, BottomSymbol), true, LeftEmptyMatched),
        Choice(PdaMove(QFinalCheck, Epsilon, Remaining, QReject, Remaining), false, LeftEmptyAfterMatching),
        Choice(PdaMove(QFinalCheck, Epsilon, BottomSymbol, QFinalCheck, BottomSymbol), false, MustDecideCheckState),
        Choice(PdaMove(QFinalCheck, Epsilon, BottomSymbol, QReject, BottomSymbol), false, ConditionsMet) ],
      [ Choice(DtmMove(QCompare, BlankSymbol, QAccept, BlankSymbol, L), true, EndOfTape),
        Choice(DtmMove(QCompare, BlankSymbol, QReject, BlankSymbol, L), false, PairsMatchedAccept),
        Choice(DtmMove(QCompare, BlankSymbol, QCompare, BlankSymbol, R), false, MustDecideNotContinue),
        Choice(DtmMove(QCompare, "Y", QAccept, "Y", L), false, ShouldCheckEnd) ])
  }
}
