/**
 * The step records the generator produces: one snapshot of the two-stack PDA,
 * one of the DTM, and four multiple-choice options per machine.
 *
 * The prose a record carries (its descriptions, each option's explanation)
 * is kept as a `Note`, and each option's text as the transition it names
 * (`Move`); module `Wording` spells both out character for character.
 */
module Records {

  /** Stack bottom marker. */
  const Bottom: char := '⊥'
  /** Blank tape cell. */
  const Blank: char := '⊔'
  /** Number of blank cells appended to the input on the DTM tape. */
  const BlankPadding: nat := 4

  /** The PDA and DTM state names of the configurations (not of the choice texts). */
  const PdaStart := "q0"
  const PdaCompare := "q1"
  const PdaTransfer := "q_transfer"
  const PdaFinalCheck := "q_final_check"
  const DtmStart := "q_start"
  const DtmMark := "q_mark"
  const DtmSeparator := "q_separator"
  const DtmCompare := "q_compare"
  const Accept := "q_accept"
  const Reject := "q_reject"

  /** The fixed symbols that occur inside transition texts besides input characters. */
  const Epsilon := "ε"
  const BottomSymbol := "⊥"
  const BlankSymbol := "⊔"
  const Unknown := "?"
  const Pop := "pop"
  const PushAny := "push"
  const PushToRight := "push to right stack"
  const Remaining := "remaining"
  const MismatchWord := "mismatch"

  /** The states written in the choice texts: `q₀`, `q₁`, `q_transfer`, ... */
  datatype Label = Q0 | Q1 | QTransfer | QFinalCheck | QStart | QMark | QSeparator | QCompare | QAccept | QReject

  datatype Direction = L | R

  /**
   * The text of an option: a PDA transition `δ(from, read, top) = (to, push)`,
   * a DTM transition `δ(from, read) = (to, write, dir)`, or a plain action
   * (the DTM options of the transfer step).
   */
  datatype Move =
    | PdaMove(from: Label, read: string, top: string, to: Label, push: string)
    | DtmMove(from: Label, read: string, to: Label, write: string, dir: Direction)
    | Action(action: Note)

  /** Every description, explanation and action text of the generator. */
  datatype Note =
    // step descriptions
    | InitialConfiguration
    | StoreInLeftStack(c: string)
    | FoundHashSeparator
    | TransferForOrdering
    | CompareWithStack(c: string, e: string)
    | PdaFinalCheckStep
    | FinalDecision
    // PDA descriptions
    | PdaStartState
    | StoringPush(c: string)
    | PdaToComparison
    | TransferComplete
    | PdaMatchPop(c: string, e: string)
    | PdaMismatchReject(c: string, e: string)
    | StacksManaged
    | PdaAccepts
    | PdaRejects
    // DTM descriptions
    | DtmStartState
    | MarkedMovedRight(c: string)
    | DtmFoundSeparator
    | DtmReady
    | MatchAtPositions(pos: int, i: int)
    | MismatchAtReject(i: int)
    | DtmCompleted
    | DtmAccepts
    | DtmRejects
    // explanations of the initial step
    | StoreFirst(c: string)
    | LeftGrowsUp
    | CannotSkipInput
    | NoRejectFirst
    | MarkFirst(c: string)
    | ShouldMarkCharacter
    | TooEarlyToCompare
    | CannotAcceptUnprocessed
    // explanations of the storage steps
    | SeparatorToComparison
    | ContinueStoring(c: string)
    | StackOpsWrong
    | ShouldTransitionAtSeparator
    | TooEarlyForComparison
    | NoRejectStorage
    | KeepSeparatorVisible
    | MarkAndScan(c: string)
    | ShouldMarkCharacters
    | SeparatorWrongDirection
    | NotReadyToCompare
    | NoRejectMarking
    // explanations of the separator step
    | SeparatorToTransfer
    | ShouldTransferNotPush
    | SeparatorExpected
    | InputAfterSeparator
    | SeparatorToCompare
    | ShouldEnterComparison
    | SeparatorNotEnough
    | WrongDirectionAndState
    // texts and explanations of the transfer step
    | TransferAll
    | ShouldTransferNotKeep
    | TransferUsesEpsilon
    | TransferNeeded
    | ContinueComparison
    | DtmIndependent
    | WaitForTransfer
    | IndependentParallel
    | ResetHead
    | DtmKeepsPosition
    | SwitchToTransfer
    | NoDtmTransfer
    // explanations of the comparison steps
    | MatchFound(c: string, e: string)
    | MismatchRejectPattern(c: string, e: string)
    | ShouldPopNotPush
    | MismatchCannotAccept
    | MustConsumeInput
    | MatchShouldContinue
    | MismatchShouldReject
    | MatchesPosition(c: string, pos: int)
    | MismatchMarkN(i: int)
    | ShouldMarkResult
    | MatchContinueComparing
    | MismatchFoundCannotAccept
    | WrongPhase
    // explanations of the final decision step
    | AcceptAllMatched
    | RejectMismatch
    | ShouldAcceptVerified
    | CannotAcceptNoMatch
    | LeftShouldBeEmpty
    | CannotAcceptRemaining
    | MustDecideSameState
    | AllPairsVerified
    | NonMatchingPairN
    | AllPairsMatchAccept
    | MismatchNonMatching
    | ShouldCheckProcessed
    | MismatchEarlier
    | MustDecideNotContinue
    // explanations of the final-check step
    | LeftEmptyMatched
    | LeftEmptyAfterMatching
    | MustDecideCheckState
    | ConditionsMet
    | EndOfTape
    | PairsMatchedAccept
    | ShouldCheckEnd

  datatype Choice = Choice(text: Move, correct: bool, explanation: Note)

  /** The `choices` object of a step: one list per machine key. */
  datatype Choices = Choices(pda: seq<Choice>, dtm: seq<Choice>)

  datatype PdaConfig = PdaConfig(
    state: string,
    remainingInput: string,
    leftStack: seq<char>,
    rightStack: seq<char>,
    description: Note)

  datatype DtmConfig = DtmConfig(
    state: string,
    tape: seq<char>,
    headPosition: int,
    description: Note)

  datatype Step = Step(
    stepNumber: int,
    description: Note,
    pda: PdaConfig,
    dtm: DtmConfig,
    choices: Choices)

  /** Number of options marked correct in a list. */
  function CountCorrect(options: seq<Choice>): nat
  {
    if options == [] then 0
    else (if options[0].correct then 1 else 0) + CountCorrect(options[1..])
  }

  /** The shape every builder produces: four options, the first and only the first correct. */
  predicate FirstOfFourCorrect(options: seq<Choice>)
  {
    |options| == 4 && options[0].correct && forall i :: 1 <= i < |options| ==> !options[i].correct
  }

  predicate WellFormedChoices(c: Choices)
  {
    FirstOfFourCorrect(c.pda) && FirstOfFourCorrect(c.dtm)
  }

  /** A list whose only correct option is the first has exactly one correct option. */
  lemma {:induction false} FirstOfFourCorrectCountsOne(options: seq<Choice>)
    requires FirstOfFourCorrect(options)
    ensures CountCorrect(options) == 1
  {
    NoneCorrect(options[1..]);
  }

  lemma {:induction false} NoneCorrect(options: seq<Choice>)
    requires forall i :: 0 <= i < |options| ==> !options[i].correct
    ensures CountCorrect(options) == 0
  {
    if options != [] {
      NoneCorrect(options[1..]);
    }
  }
}
