/**
 * The characters of every text a step carries: the template literals of
 * `generateSteps` and of the `generateChoices*` builders, with their
 * `${...}` holes filled from the `Note` or `Move` arguments.
 */
module Wording {
  import opened Text
  import opened Records

  /** A state as the choice texts write it (`q₀` and `q₁` with subscripts). */
  function LabelText(q: Label): string
  {
    match q
    case Q0 => "q₀"
    case Q1 => "q₁"
    case QTransfer => "q_transfer"
    case QFinalCheck => "q_final_check"
    case QStart => "q_start"
    case QMark => "q_mark"
    case QSeparator => "q_separator"
    case QCompare => "q_compare"
    case QAccept => "q_accept"
    case QReject => "q_reject"
  }

  function DirectionText(d: Direction): string
  {
    match d
    case L => "L"
    case R => "R"
  }

  /** `δ(from, read, top) = (to, push)`, `δ(from, read) = (to, write, dir)`, or the action's words. */
  function MoveText(m: Move): (r: string)
    ensures m.PdaMove? || m.DtmMove? ==> |r| >= 2 && r[..2] == "δ("
  {
    match m
    case PdaMove(from, read, top, to, push) =>
      "δ(" + LabelText(from) + ", " + read + ", " + top + ") = (" + LabelText(to) + ", " + push + ")"
    case DtmMove(from, read, to, write, dir) =>
      "δ(" + LabelText(from) + ", " + read + ") = (" + LabelText(to) + ", " + write + ", " + DirectionText(dir) + ")"
    case Action(a) => NoteText(a)
  }

  /** The prose of a step: descriptions, explanations and the DTM actions of the transfer step. */
  function NoteText(n: Note): string
  {
    match n
    case InitialConfiguration => "Initial configuration - both machines start processing"
    case StoreInLeftStack(c) => "Store '" + c + "' in left stack (before # separator)"
    case FoundHashSeparator => "Found # separator - transition to comparison phase"
    case TransferForOrdering => "Transfer left stack to right stack for correct ordering"
    case CompareWithStack(c, e) => "Compare '" + c + "' with '" + e + "' from right stack"
    case PdaFinalCheckStep => "PDA final check - verify both stacks are properly managed"
    case FinalDecision => "Both machines reach final decision"
    case PdaStartState => "Start state - will store first part w before # in left stack"
    case StoringPush(c) => "Storing first part in left stack: push '" + c + "'"
    case PdaToComparison => "Transition to comparison state - will use right stack for matching"
    case TransferComplete => "Transfer complete - right stack now has first part in correct order"
    case PdaMatchPop(c, e) => "'" + c + "' matches '" + e + "' - pop from right stack"
    case PdaMismatchReject(c, e) => "'" + c + "' doesn't match '" + e + "' - reject"
    case StacksManaged => "Both stacks properly managed - all characters matched"
    case PdaAccepts => "ACCEPT: Both stacks empty, all characters matched in w#w pattern"
    case PdaRejects => "REJECT: Mismatch detected during comparison"
    case DtmStartState => "Start state - will mark and compare character by character"
    case MarkedMovedRight(c) => "Marked '" + c + "' and moved right"
    case DtmFoundSeparator => "Found separator, start comparing characters"
    case DtmReady => "Ready to start character-by-character comparison"
    case MatchAtPositions(pos, i) => "Characters match at positions " + IntToString(pos) + " and " + IntToString(i)
    case MismatchAtReject(i) => "Mismatch at position " + IntToString(i) + " - reject"
    case DtmCompleted => "DTM completed character comparisons"
    case DtmAccepts => "ACCEPT: All character pairs verified as matching"
    case DtmRejects => "REJECT: Found non-matching character pair"
    case StoreFirst(c) => "Start by storing first character '" + c + "' in left stack"
    case LeftGrowsUp => "Left stack grows upward - character goes on top"
    case CannotSkipInput => "Cannot skip input - must process all characters before #"
    case NoRejectFirst => "No reason to reject the first character"
    case MarkFirst(c) => "Mark first character '" + c + "' as X and move right"
    case ShouldMarkCharacter => "Should mark character to track comparison progress"
    case TooEarlyToCompare => "Too early to start comparing - need to find separator first"
    case CannotAcceptUnprocessed => "Cannot accept without processing entire input"
    case SeparatorToComparison => "Found separator # - transition to comparison phase"
    case ContinueStoring(c) => "Continue storing characters: push '" + c + "' onto left stack"
    case StackOpsWrong => "Stack operations wrong - new items go on top"
    case ShouldTransitionAtSeparator => "Should transition states when encountering separator"
    case TooEarlyForComparison => "Too early to enter comparison phase"
    case NoRejectStorage => "No reason to reject during storage phase"
    case KeepSeparatorVisible => "Found separator - keep it visible and continue"
    case MarkAndScan(c) => "Mark '" + c + "' as X and continue scanning"
    case ShouldMarkCharacters => "Should mark characters to track progress"
    case SeparatorWrongDirection => "At separator but moving wrong direction"
    case NotReadyToCompare => "Not ready to compare yet - continue marking"
    case NoRejectMarking => "No reason to reject during marking phase"
    case SeparatorToTransfer => "Found separator # - transition to transfer state to reverse left stack for w#w comparison"
    case ShouldTransferNotPush => "Should transition to transfer state, not push separator to stack"
    case SeparatorExpected => "Finding separator is expected in w#w pattern - don't reject"
    case InputAfterSeparator => "Still have input after # to process - cannot accept yet"
    case SeparatorToCompare => "Found separator # - move to comparison state and advance to compare second part"
    case ShouldEnterComparison => "Should transition to comparison state after finding separator"
    case SeparatorNotEnough => "Finding separator alone is not enough - need to verify w#w pattern"
    case WrongDirectionAndState => "Wrong direction and wrong state - should move right to compare second part"
    case TransferAll => "Transfer all characters from left stack to right stack to reverse order for w#w comparison"
    case ShouldTransferNotKeep => "Should transfer to right stack, not keep in left"
    case TransferUsesEpsilon => "Transfer uses epsilon transitions, no input reading"
    case TransferNeeded => "Transfer is needed for comparison - don't reject"
    case ContinueComparison => "Continue with character comparison algorithm"
    case DtmIndependent => "DTM operates independently and continues its comparison process"
    case WaitForTransfer => "Wait for PDA to complete transfer"
    case IndependentParallel => "Both machines operate independently in parallel"
    case ResetHead => "Reset tape head to beginning"
    case DtmKeepsPosition => "DTM maintains its current position and state"
    case SwitchToTransfer => "Switch to transfer mode"
    case NoDtmTransfer => "DTM doesn't have transfer operations - only PDA does"
    case MatchFound(c, e) => "Match found: '" + c + "' = '" + e + "' - pop from right stack and continue"
    case MismatchRejectPattern(c, e) => "Mismatch: '" + c + "' ≠ '" + e + "' - reject w#w pattern"
    case ShouldPopNotPush => "Should pop from right stack, not push during comparison"
    case MismatchCannotAccept => "Mismatched strings cannot be accepted"
    case MustConsumeInput => "Must consume input character - cannot use epsilon transition"
    case MatchShouldContinue => "Characters match - should continue, not reject"
    case MismatchShouldReject => "Mismatch detected - should reject, not continue"
    case MatchesPosition(c, pos) => "Character '" + c + "' matches position " + IntToString(pos) + " - mark as Y and continue"
    case MismatchMarkN(i) => "Mismatch at position " + IntToString(i) + " - mark as N and reject"
    case ShouldMarkResult => "Should mark the result of comparison (Y or N)"
    case MatchContinueComparing => "Characters match - should continue comparing, not reject"
    case MismatchFoundCannotAccept => "Mismatch found - cannot accept"
    case WrongPhase => "Wrong phase - should be comparing, not marking"
    case AcceptAllMatched => "Both stacks properly managed, all chars matched - accept w#w"
    case RejectMismatch => "Mismatch detected during comparison - reject"
    case ShouldAcceptVerified => "Pattern w#w successfully verified - should accept"
    case CannotAcceptNoMatch => "Strings don't match w#w pattern - cannot accept"
    case LeftShouldBeEmpty => "Left stack should be empty after complete match"
    case CannotAcceptRemaining => "Cannot accept with remaining characters"
    case MustDecideSameState => "Must make final decision - cannot stay in same state"
    case AllPairsVerified => "All character pairs verified as matching - accept w#w pattern"
    case NonMatchingPairN => "Found non-matching pair marked as N - reject"
    case AllPairsMatchAccept => "All pairs match perfectly - should accept"
    case MismatchNonMatching => "Mismatch found - cannot accept non-matching pattern"
    case ShouldCheckProcessed => "Should check all characters are processed"
    case MismatchEarlier => "Found mismatch earlier - should reject"
    case MustDecideNotContinue => "Must make final decision - cannot continue comparing"
    case LeftEmptyMatched => "Left stack is empty - all characters from first part were matched"
    case LeftEmptyAfterMatching => "Left stack should be empty after complete matching"
    case MustDecideCheckState => "Must make final decision - cannot stay in check state"
    case ConditionsMet => "All conditions met for acceptance - should accept"
    case EndOfTape => "Reached end of tape - all comparisons successful"
    case PairsMatchedAccept => "All character pairs matched - should accept"
    case ShouldCheckEnd => "Should check if at end of input, not process more Y symbols"
  }
}
