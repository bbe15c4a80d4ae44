# Two-stack PDA ≡ DTM step engine, in Dafny

This project models the step engine of an interactive lab page. The page shows a two-stack
pushdown automaton and a deterministic Turing machine side by side while both decide
whether an input has the shape `w#w`. The engine is the class `StepByStepSimulation`:

- From one input string it builds the whole run as a list of step records.
- Each record holds a PDA snapshot: state, remaining input, and left and right stacks headed by `⊥`.
- Each record also holds a DTM snapshot: state, tape padded with four `⊔` cells, and head position.
- Each record carries four multiple-choice options per machine.
- A session cursor walks the run, looks up the options at the cursor, and grades the learner's choices.

The page-level helpers `validateSimulationStep`, `formatStateName` and `initializeSimulation`
are modelled too.

Modules, in dependency order:

- `Wrappers`: `Option`.
- `Text`:
  - decimal rendering of numbers;
  - `Reverse`;
  - `Prefix`/`Suffix`, which are the slices `s[..k]`/`s[k..]` (see `PrefixIsSlice` and `SuffixIsSlice`);
  - `Slice0`, which is JavaScript's `slice(0, end)` with a negative `end`.
- `Records`: the step record.
  - The prose a record carries (descriptions, explanations) is a `Note` value.
  - Each option's text is the transition it names (`Move`).
  - `Wording` spells both out as the exact texts.
- `ChoiceBuilders`: the seven `generateChoices*` builders.
- `Matching`: `indexOf`, `checkIfMatch` and the test-string catalogue.
- `Tape`:
  - `generateDTMTape`, as a method over an `array<char>` with the source's loops;
  - `TapeSpec`, the cell-by-cell specification it is proved against.
- `Generator`:
  - `generateSteps`, as a method with the source's two loops;
  - `Steps`, the phase-by-phase specification it is proved against.
- `GeneratorProps`: what the run looks like.
  - The facts are stated over `StepsFor(s, h, m)` for any separator index `h` (`-1` when there is none) and any verdict `m`.
  - `Steps(s)` is the instance `h = IndexOf(s, '#')`, `m = CheckIfMatch(s)`.
  - `PhaseAt` describes the list index by index, and `StepAt` proves that description equals the concatenation.
- `Session`: `Cursor` functions for `advance`/`goBack` with their laws, and class `Simulation`.
  - The class has the source's fields: `inputString`, `isMatch`, `steps`, `currentStep` and `isComplete`.
  - Its methods are proved to move the fields exactly as the `Cursor` functions say.
- `App`: the helpers of `main.js`.

The run is modelled for every string, including strings without `#`. The source handles that
case without throwing:

- `tape[-1] = '#'` writes no cell.
- `slice(0, -1)` drops the last character.

Where the code and its documentation differ, the model follows the code:

- Step numbers are not strictly increasing. With a `#`, the steps at indices n + 1 and n + 2 both carry `n + 1`.
- Comparison steps do not stop at a mismatch. The loop emits one step per character after the `#`. A later matching pair puts both machines back in `q1`/`q_compare` after a `q_reject` step (for `"ab#bb"`, the comparison of input position 3 rejects and that of position 4 continues).
- On a match, the right stack loses symbols at its bottom end, next to `⊥`, not at its top (see "## Findings").
- An input with no `#` gives `n + 4` steps. The separator and transfer steps then carry numbers 0 and 1.

The match check is stated pairwise:

- `|s| == 2h + 1`, and `s[p] == s[h + 1 + p]` for every `p < h`.
- `HalvesAt` proves this equals the source's substring equality `s[..h] == s[h + 1..]`.

## Model

| member | source | states |
|---|---|---|
| Matching.IndexOf | simulation/js/data.js:53 | `-1` exactly when the character is absent; otherwise the position of its first occurrence |
| Matching.CheckIfMatch | simulation/js/data.js:52-59 | a match needs a `#` in the input |
| Matching.MatchMeaning | simulation/js/data.js:52-59 | false without `#`; true iff the parts before and after the first `#` are equal |
| Matching.HalvesAt | simulation/js/data.js:52-59 | with the first `#` at h, the check equals `s[..h] == s[h+1..]` |
| Matching.MatchShape | simulation/js/data.js:52-59 | a matching input has odd length with its first `#` in the middle |
| Matching.Entry | simulation/js/data.js:52-59 | `w1 + "#" + w2`, with no `#` in `w1`, matches iff `w1 == w2` |
| Matching.CatalogConsistent | simulation/js/data.js:5-37 | every test string has a `#`, and its `expected` flag is what the check computes |
| Text.Reverse | simulation/js/data.js:137 | element i of the reversal is element `n-1-i` of the original |
| Text.ReverseInvolutive | simulation/js/data.js:137 | reversing twice gives back the original |
| Text.ReverseMultiset | simulation/js/data.js:137 | the reversal holds the same elements, each as often |
| Text.PrefixIsSlice | simulation/js/data.js:95 | `Prefix(s, k)` is `s[..k]` (`chars.slice(0, k)`) |
| Text.SuffixIsSlice | simulation/js/data.js:94 | `Suffix(s, k)` is `s[k..]` (`substring(k)`) |
| ChoiceBuilders.ChoicesStep0 | simulation/js/data.js:289-336 | four options per machine; the first is correct, no other is |
| ChoiceBuilders.ChoicesPhase1 | simulation/js/data.js:338-400 | four options per machine; the first is correct, no other is |
| ChoiceBuilders.ChoicesSeparator | simulation/js/data.js:402-451 | four options per machine; the first is correct, no other is |
| ChoiceBuilders.ChoicesTransfer | simulation/js/data.js:453-500 | four options per machine; the first is correct, no other is |
| ChoiceBuilders.ChoicesPhase2 | simulation/js/data.js:502-573 | four options per machine; the first is correct, no other is |
| ChoiceBuilders.ChoicesFinal | simulation/js/data.js:575-642 | four options per machine; the first is correct, no other is |
| ChoiceBuilders.ChoicesFinalCheck | simulation/js/data.js:716-763 | four options per machine; the first is correct, no other is |
| Records.FirstOfFourCorrectCountsOne | simulation/js/data.js:289-336 | such a list has exactly one correct option |
| Tape.GenerateDTMTape | simulation/js/data.js:233-287 | the tape the loops write is `TapeSpec(stepNum, s, h, isMatch)` |
| Tape.MarkFirstPart | simulation/js/data.js:243-245 | the first `count` cells become `X`; no other cell changes |
| Tape.ComparePairs | simulation/js/data.js:261-276 | agreeing pairs before the first mismatch in scope become `Y`/`Y`; that mismatch's w2 cell becomes `N`; nothing after it changes |
| Tape.MarkAllMatched | simulation/js/data.js:278-283 | every w1 and w2 cell becomes `Y`; the separator and blanks are kept |
| Tape.FirstMismatch | simulation/js/data.js:261-276 | all pairs before the result agree; the pair at the result (when in scope) differs |
| Tape.FirstMismatchUnique | simulation/js/data.js:261-276 | only one position has both properties |
| Tape.TapeShape | simulation/js/data.js:235 | length n + 4, the last four cells blank; with no `#` the tape is the padded input |
| Tape.TapeAtStart | simulation/js/data.js:241-245 | step 0 shows the untouched padded input |
| Tape.TapeStorePhase | simulation/js/data.js:241-245 | for `stepNum <= h`, exactly the first `stepNum` cells are `X` |
| Tape.TapeAtSeparator | simulation/js/data.js:246-251 | at `h + 1`, w1 is all `X`, cell h is `#`, and w2 is untouched |
| Tape.TapeMarksAgreeingPairs | simulation/js/data.js:261-269 | a pair in scope whose pairs up to it all agree is `Y`/`Y`; the separator stays |
| Tape.TapeMarksFirstMismatch | simulation/js/data.js:270-273 | the first disagreeing pair keeps `X` in w1 and gets `N` in w2 |
| Tape.TapeLeavesLaterPairs | simulation/js/data.js:262-276 | pairs out of scope or after a mismatch are not marked |
| Tape.TapeFinalMatched | simulation/js/data.js:278-283 | at the final steps of a match, every cell but `#` is `Y` |
| Generator.InitialStepRecord | simulation/js/data.js:68-85 | step 0: the whole input unread, both stacks `[⊥]`, the padded input on the tape with the head on cell 0, and the answer-key shape |
| Generator.StoreStepRecord | simulation/js/data.js:89-106 | storage step i: number i + 1, input after i unread, left stack `⊥ :: s[..i+1]` with `s[i]` on top, right stack `[⊥]`, head i + 1 |
| Generator.SeparatorStepRecord | simulation/js/data.js:110-127 | number h + 1, input after `#` unread, left stack `⊥ :: w1`, right stack `[⊥]`, head h + 1 |
| Generator.TransferStepRecord | simulation/js/data.js:130-147 | number h + 2, left stack `[⊥]`, right stack `⊥ :: reverse(w1)` with w1's first character on top, head h + 1 |
| Generator.CompareStepRecord | simulation/js/data.js:150-181 | number i + 2; both machines continue iff the pair matches, else both `q_reject`; head i + 1 or i; input after i unread; left stack `[⊥]`; on a match the right stack is `⊥ ::` the reversed w1 without its first i - h symbols, the ones next to `⊥`; on a mismatch it is `⊥ :: reverse(w1)` |
| Generator.MatchKeepsFirstOnTop | simulation/js/data.js:155-166 | as written, after a match with symbols left, the top of the right stack is still w1's first character, and the stack differs from the popping one whenever that character differs from the next to compare |
| Generator.PoppedStackExample | simulation/js/data.js:155-166 | on `"ab#ab"` after the first pair, the as-written right stack is `⊥a`, the popping one `⊥b` |
| Generator.PoppedStackPopsTop | simulation/js/data.js:166-168 | the corrected stack starts as the transfer step leaves it, has w1's k-th character on top before pair k, and a match removes exactly that top symbol |
| Generator.FinalCheckStepRecord | simulation/js/data.js:185-202 | number n + 1, state `q_final_check`, no input left, both stacks `[⊥]`, head n |
| Generator.FinalStepRecord | simulation/js/data.js:207-228 | number n + 2 for a match and n + 1 otherwise; both machines in the same state, accept iff match, reject iff not; stacks `[⊥]`, head 0 |
| Generator.ShouldMatchMeaning | simulation/js/data.js:151-152 | `shouldMatch` compares cell k of w1 with cell k of w2, and is false when w1 is too short |
| Generator.GenerateSteps | simulation/js/data.js:61-231 | the list built is `Steps(s)` |
| Generator.StorePhase | simulation/js/data.js:88-107 | the first loop builds one storage step per position before `#` |
| Generator.ComparePhase | simulation/js/data.js:150-181 | the second loop builds one comparison step per position after `#` |
| Generator.FinalCheckPhase | simulation/js/data.js:184-203 | the final-check step, only for a match |
| Generator.SeparatorPhase | simulation/js/data.js:110-127 | the separator step with the tape of step h + 1 |
| Generator.TransferPhase | simulation/js/data.js:130-147 | the transfer step with the tape of step h + 1 |
| Generator.FinalPhase | simulation/js/data.js:206-228 | the final step with the tape of its own step number |
| GeneratorProps.StepAt | simulation/js/data.js:61-231 | step k is the one its phase (`PhaseAt`) builds |
| GeneratorProps.StepCount | simulation/js/data.js:61-231 | with a `#`: n + 3 steps, plus one for a match; with none: n + 4 |
| GeneratorProps.StepNumbers | simulation/js/data.js:69-208 | with a `#`, step k carries k up to index n + 1 and k - 1 after it; without one, 0 for the first two steps, k - 1 up to index n + 2, then n + 1 |
| GeneratorProps.StepNumbersNonDecreasing | simulation/js/data.js:69-208 | step numbers never decrease along the list |
| GeneratorProps.StepNumbersRepeat | simulation/js/data.js:160-186 | steps n + 1 and n + 2 both carry n + 1, so numbering is not strict |
| GeneratorProps.ChoicesShape | simulation/js/data.js:289-763 | every step: four options per machine; option 0 is correct and is the only correct one |
| GeneratorProps.PhaseComparison | simulation/js/data.js:150-181 | comparison i: number i + 2; states `q1`/`q_compare` iff match, else both `q_reject`; head i + 1 or i; first options name `q₁`/Y or `q_reject`/N |
| GeneratorProps.ComparisonStep | simulation/js/data.js:150-181 | the same facts for the step at index `CompareIndex(h, i)` of the run |
| GeneratorProps.MatchedComparisons | simulation/js/data.js:150-152 | for a w#w input every comparison sees a match |
| GeneratorProps.FinalDecisionStep | simulation/js/data.js:206-228 | the last step: both machines accept iff match, else both reject; head 0 |
| GeneratorProps.FinalCheckPresence | simulation/js/data.js:184-203 | a `q_final_check` step exists iff match; it is second to last with both stacks `[⊥]` |
| GeneratorProps.Stacks | simulation/js/data.js:73-214 | every stack starts with `⊥`; the remaining input is always a suffix of the input |
| GeneratorProps.StorageStacks | simulation/js/data.js:95-96 | storage step i: left stack `⊥ :: w1[0..i]`, right stack `[⊥]` |
| GeneratorProps.TransferStacks | simulation/js/data.js:136-137 | transfer step: left stack `[⊥]`, right stack `⊥ :: reverse(w1)` |
| GeneratorProps.Tapes | simulation/js/data.js:81-222 | every tape has n + 4 cells, blanks from index n; every head is on the tape |
| GeneratorProps.DtmStates | simulation/js/data.js:79-220 | every DTM state is one of q_start, q_mark, q_separator, q_compare, q_accept, q_reject |
| GeneratorProps.PdaStates | simulation/js/data.js:72-211 | every PDA state is one of q0, q1, q_transfer, q_final_check, q_accept, q_reject |
| Session.Simulation.constructor | simulation/js/data.js:42-50 | the run generated for the input, cursor 0, not complete; the invariant holds |
| Session.Simulation.GetCurrentStep | simulation/js/data.js:765-767 | null exactly when the cursor is off the list; otherwise the step at the cursor |
| Session.Simulation.GetCurrentChoices | simulation/js/data.js:769-772 | null exactly when there is no current step; otherwise its choices |
| Session.Simulation.ValidateChoice | simulation/js/data.js:774-786 | null without a current step, for a key other than pda/dtm, or an index out of range; otherwise that option's flag, explanation and text |
| Session.Simulation.CanAdvance | simulation/js/data.js:788-790 | in a valid session, false exactly at the last step; when true, the next step exists |
| Session.Simulation.GetProgress | simulation/js/data.js:809-815 | current is the cursor, total the run length |
| Session.Simulation.Advance | simulation/js/data.js:788-799 | moves iff a later step exists; otherwise marks complete with the cursor unchanged; the invariant is kept |
| Session.Simulation.GoBack | simulation/js/data.js:801-807 | moves back iff the cursor is past 0; the invariant is kept |
| Session.Simulation.CurrentStepExists | simulation/js/data.js:765-772 | under the invariant the lookups never yield null |
| Session.Simulation.AnswerKey | simulation/js/data.js:774-786 | pda/dtm indices 0 to 3 give a verdict that is correct iff the index is 0; anything else gives null |
| Session.Simulation.ProgressTotal | simulation/js/data.js:809-815 | total is n + 3 (+1 for a match) with a `#`, and at least 4 |
| Session.MovesKeepRange | simulation/js/data.js:788-807 | both moves keep `0 <= currentStep < total` |
| Session.FailedMoves | simulation/js/data.js:792-807 | advance fails only at the last step, and then only sets complete; goBack at 0 changes nothing |
| Session.CompletionSticks | simulation/js/data.js:792-807 | neither move ever clears `isComplete` |
| Session.AdvanceUndoesGoBack | simulation/js/data.js:792-807 | a successful goBack followed by advance restores the cursor |
| Session.GoBackUndoesAdvance | simulation/js/data.js:792-807 | a successful advance followed by goBack restores the cursor |
| Session.AdvanceTimesReaches | simulation/js/data.js:792-799 | k advances reach `min(current + k, total - 1)`; complete iff one of them failed |
| Session.GoBackTimesReaches | simulation/js/data.js:801-807 | k goBacks reach `max(current - k, 0)` and keep the flag |
| App.StepAcceptedBy | simulation/js/main.js:236-257 | false for null, a missing pda/dtm or a non-number stepNumber; true iff both states are listed |
| App.ValidateSimulationStep | simulation/js/main.js:236-257 | with the source's own lists: accepted iff both configurations are present, the number is a number and both states are listed; no accepted DTM state has an underscore |
| App.ValidateGeneratedStep | simulation/js/main.js:236-257 | the same guards with the generator's state names; every accepted DTM state has an underscore |
| App.ValidatorAcceptsListedStates | simulation/js/main.js:244-257 | a record with q0/qstart passes; one with q_start fails |
| App.GeneratedStepsRejected | simulation/js/main.js:245-253 | no step the generator produces passes the validator |
| App.GeneratedStepsAccepted | simulation/js/main.js:236-257 | with the generator's own state names, every generated step passes |
| App.FormatStateName | simulation/js/main.js:12-27 | the table's label for a listed state; otherwise the state itself |
| App.FormatIdempotent | simulation/js/main.js:12-27 | a sanity fact about the label table, not a promise of the source: formatting twice is formatting once |
| App.GeneratedStateLabels | simulation/js/main.js:12-27 | of the generated names only q0 and q1 get labels (q1 as "Scanning"); every DTM name is shown as is |
| App.InitializeSimulation | simulation/js/main.js:226-233 | null iff the argument is not a string; otherwise a fresh session at step 0 |

## Left out

- The DOM and every visual effect: `showMachineState`, `highlightEquivalence`, stack and tape display, animations, timers, debug mode, `console` output, the `DOMContentLoaded` handler, and `helper.js`. None of it has logic beyond rendering.
- The page's rule that moves forward only after both selections were graded correct. It lives in the page script, which is not part of this model.
- The page's direct reset of `currentStep`. It lives in the page script, which is not part of this model.
- `getProgress().percentage`: floating-point `Math.round`; only `current` and `total` are modelled.
- `addComparisonSteps` (simulation/js/data.js:644-714): nothing calls it.
- The global `currentSimulation` with the `initializeSimulation`/`getCurrentSimulation` wrappers in data.js. A session is an explicitly owned object here.
- Which of the duplicate global definitions (`initializeSimulation` in both scripts, `formatStateName` twice) wins depends on script load order. The main.js versions are modelled.
- FormatStateName: does not model keys inherited from `Object.prototype` (such as `"constructor"`), for which the source returns a function.
- Session.Simulation.ValidateChoice: the index is an integer; a non-integer index is not represented. The source answers a fractional index with null, and a numeric string such as `"0"` like the number 0.
- App.InitializeSimulation: any non-string argument is taken to make the constructor throw. Objects that just happen to have string-like methods are not represented.
- Strings are sequences of characters, without UTF-16 surrogate pairs; `split('')` and `substring` agree with sequence indexing only for inputs without astral characters.
- The rendered source texts of notes, moves and explanations come from `Wording`; no property is proved about the wording itself.

## Findings

| source | as written | input that shows it | evidently intended | confidence | as-written member | corrected member |
|---|---|---|---|---|---|---|
| simulation/js/main.js:244-253 | the validator's state lists (q0–q3, qstart, qread, qreturn, …) do not contain the DTM states the generator uses | `"a#a"`: step 0 has DTM state `q_start`, which is not `qstart`, so the step fails | the validator accepts the steps the engine produces | medium, not executed | App.GeneratedStepsRejected | App.GeneratedStepsAccepted |
| simulation/js/data.js:155-157 | a matching comparison keeps `reverse(w1).slice(pos + 1)`, which removes the symbols next to `⊥`; the top, the last element shown (simulation/js/main.js:82-84), stays w1's first character | `"ab#ab"`, comparison of input position 3: right stack `⊥a`, while `b` is the next character to compare | each match pops the compared symbol off the top, as the step's own text says ("pop from right stack", data.js:168, and the `(q₁, pop)` option, data.js:511) | medium, not executed | Generator.MatchKeepsFirstOnTop | Generator.PoppedStackPopsTop |
