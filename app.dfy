/**
 * The page-level helpers of the application script: the step validator,
 * the state-name labels, and the guarded constructor.
 */
module App {
  import opened Wrappers
  import opened Records
  import opened Generator
  import opened GeneratorProps
  import opened Session

  /**
   * A configuration as the validator sees it: `state` is None when the
   * property is missing or not a string.
   */
  datatype RawConfig = RawConfig(state: Option<string>)

  /**
   * A step record as the validator sees it: `pda` and `dtm` are None when
   * missing or falsy, and `stepNumberIsNumber` is whether `typeof
   * stepNumber` is "number".
   */
  datatype RawStep = RawStep(pda: Option<RawConfig>, dtm: Option<RawConfig>, stepNumberIsNumber: bool)

  const ValidPdaStates: seq<string> := ["q0", "q1", "q2", "q3", "qreject"]
  const ValidDtmStates: seq<string> := ["qstart", "qread", "qreturn", "qcompare", "qaccept", "qreject"]

  /** `list.includes(state)`: a missing or non-string state is never listed. */
  predicate Listed(state: Option<string>, names: seq<string>)
  {
    state.Some? && state.value in names
  }

  /**
   * The guards of `validateSimulationStep`, in the order it tries them, for
   * given lists of PDA and DTM state names; None stands for a null or
   * undefined argument.
   */
  function StepAcceptedBy(stepData: Option<RawStep>, pdaNames: seq<string>, dtmNames: seq<string>): (r: bool)
    ensures stepData.None? ==> !r
    ensures stepData.Some? && (stepData.value.pda.None? || stepData.value.dtm.None?) ==> !r
    ensures stepData.Some? && !stepData.value.stepNumberIsNumber ==> !r
    ensures r <==>
      && stepData.Some? && stepData.value.pda.Some? && stepData.value.dtm.Some?
      && stepData.value.stepNumberIsNumber
      && stepData.value.pda.value.state.Some? && stepData.value.pda.value.state.value in pdaNames
      && stepData.value.dtm.value.state.Some? && stepData.value.dtm.value.state.value in dtmNames
  {
    match stepData
    case None => false
    case Some(step) =>
      if step.pda.None? || step.dtm.None? then false
      else if !step.stepNumberIsNumber then false
      else if !Listed(step.pda.value.state, pdaNames) then false
      else Listed(step.dtm.value.state, dtmNames)
  }

  /**
   * `validateSimulationStep(stepData)`, with the state lists as written:
   * accepted exactly when both configurations are present, the number is a
   * number and both states are in those lists; none of the DTM names listed
   * has the underscore the generated names carry.
   */
  function ValidateSimulationStep(stepData: Option<RawStep>): (r: bool)
    ensures r <==>
      && stepData.Some? && stepData.value.pda.Some? && stepData.value.dtm.Some?
      && stepData.value.stepNumberIsNumber
      && Listed(stepData.value.pda.value.state, ValidPdaStates)
      && Listed(stepData.value.dtm.value.state, ValidDtmStates)
    ensures r ==> '_' !in stepData.value.dtm.value.state.value
  {
    StepAcceptedBy(stepData, ValidPdaStates, ValidDtmStates)
  }

  /**
   * The validator with the state names the generator actually uses: the same
   * guards, with both states among the names the steps use, every DTM one of
   * which has an underscore.
   */
  function ValidateGeneratedStep(stepData: Option<RawStep>): (r: bool)
    ensures r <==>
      && stepData.Some? && stepData.value.pda.Some? && stepData.value.dtm.Some?
      && stepData.value.stepNumberIsNumber
      && Listed(stepData.value.pda.value.state, PdaStateNames)
      && Listed(stepData.value.dtm.value.state, DtmStateNames)
    ensures r ==> '_' in stepData.value.dtm.value.state.value
  {
    StepAcceptedBy(stepData, PdaStateNames, DtmStateNames)
  }

  /** A generated step record as the validator reads it: every field present, the number a number. */
  function AsRaw(step: Step): RawStep
  {
    RawStep(Some(RawConfig(Some(step.pda.state))), Some(RawConfig(Some(step.dtm.state))), true)
  }

  /**
   * Two concrete records, one accepted and one rejected, showing that the
   * validator's guards can go either way.
   */
  lemma ValidatorAcceptsListedStates()
    ensures ValidateSimulationStep(Some(RawStep(Some(RawConfig(Some("q0"))), Some(RawConfig(Some("qstart"))), true)))
    ensures !ValidateSimulationStep(Some(RawStep(Some(RawConfig(Some("q0"))), Some(RawConfig(Some("q_start"))), true)))
  {
  }

  /**
   * The validator rejects every step the generator produces: none of the
   * six DTM state names the steps use is in its list of DTM states.
   */
  lemma GeneratedStepsRejected(s: string, h: int, m: bool)
    requires -1 <= h < |s|
    ensures forall k :: 0 <= k < |StepsFor(s, h, m)| ==> !ValidateSimulationStep(Some(AsRaw(StepsFor(s, h, m)[k])))
  {
    DtmStates(s, h, m);
    assert forall q :: q in DtmStateNames ==> q !in ValidDtmStates;
  }

  /** The same for the run of any input, as `generateSteps` builds it. */
  lemma RunRejected(s: string)
    ensures forall k :: 0 <= k < |Steps(s)| ==> !ValidateSimulationStep(Some(AsRaw(Steps(s)[k])))
  {
    GeneratedStepsRejected(s, Matching.IndexOf(s, '#'), Matching.CheckIfMatch(s));
  }

  /** With the generator's state names the validator accepts every generated step. */
  lemma GeneratedStepsAccepted(s: string, h: int, m: bool)
    requires -1 <= h < |s|
    ensures forall k :: 0 <= k < |StepsFor(s, h, m)| ==> ValidateGeneratedStep(Some(AsRaw(StepsFor(s, h, m)[k])))
  {
    PdaStates(s, h, m);
    DtmStates(s, h, m);
  }

  /** The display labels of `formatStateName`. */
  const StateLabels: map<string, string> := map[
    "q0" := "Initial",
    "q1" := "Scanning",
    "q2" := "Backtrack",
    "q3" := "Accept",
    "qstart" := "Initial",
    "qread" := "Reading",
    "qreturn" := "Returning",
    "qcompare" := "Comparing",
    "qaccept" := "Accept",
    "qreject" := "Reject"
  ]

  /** `formatStateName(state)`: the label of a listed state, otherwise the state itself. */
  function FormatStateName(state: string): (r: string)
    ensures state in StateLabels ==> r == StateLabels[state]
    ensures state !in StateLabels ==> r == state
  {
    if state in StateLabels then StateLabels[state] else state
  }

  /**
   * A sanity fact about the label table rather than a promise of the
   * source: no label is itself a key, so formatting twice is formatting once.
   */
  lemma FormatIdempotent(state: string)
    ensures FormatStateName(FormatStateName(state)) == FormatStateName(state)
  {
    assert forall q :: q in StateLabels ==> StateLabels[q] !in StateLabels;
  }

  /**
   * Of the state names the generated steps use, only the PDA's q0 and q1 have
   * labels (and q1, the comparison state, is labelled "Scanning"); every DTM
   * state is shown as is.
   */
  lemma GeneratedStateLabels()
    ensures FormatStateName(PdaStart) == "Initial" && FormatStateName(PdaCompare) == "Scanning"
    ensures FormatStateName(PdaTransfer) == PdaTransfer && FormatStateName(PdaFinalCheck) == PdaFinalCheck
    ensures forall q :: q in DtmStateNames ==> FormatStateName(q) == q
  {
  }

  /** The argument of `initializeSimulation`: a string, or any other value. */
  datatype JsValue = Str(s: string) | NonString

  /**
   * `initializeSimulation(testString)`: a new simulation, or null when the
   * constructor throws, which it does exactly when the argument is not a
   * string (it lacks the string methods the constructor calls).
   */
  method InitializeSimulation(testString: JsValue) returns (r: Option<Simulation>)
    ensures r.None? <==> testString.NonString?
    ensures r.Some? ==>
      && fresh(r.value) && r.value.Valid()
      && r.value.inputString == testString.s && r.value.currentStep == 0 && !r.value.isComplete
  {
    match testString
    case NonString =>
      r := None;
    case Str(s) =>
      var simulation := new Simulation(s);
      r := Some(simulation);
  }
}
