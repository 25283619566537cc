# Monadic first-order truth quiz, modelled in Dafny

This project models the engine of a quiz about monadic first-order logic.
The engine picks a small random finite model (a domain of named individuals
and an extension for each predicate letter `P`, `Q`, `R`), samples formula
templates from a fixed catalog arranged in four difficulty stages, binds the
template's placeholders, and grades a student's truth value together with a
witness (for a true existential) or a counterexample (for a false universal).

Modules, one per part of the source:

- `Wrappers`: `Option`, standing for JavaScript's `undefined`.
- `ProblemBank` (`fol_problem_bank.js`): models, substitutions, the 34 catalog
  entries as the enumeration `Template` with their ids, patterns and metadata,
  their truth evaluators (`Truth`), witness checks (`CheckWitness`) and
  counterexample checks (`CheckCounterexample`), and the stage queries.
- `ProblemBankLaws`: what the evaluators promise about each other.
- `ModelGenerator` (`generateRandomModel`, `generateConstants`): loops that
  build the model and the constant assignment, each proved equal to a
  specification function.
- `Instantiator` (`createSubstitutions`, `applySubstitutions`): building the
  substitution and rendering the display formula with a character scan in
  place of the regular expression.
- `QuizAssembler` (`generateQuiz`).
- `Grader` (`checkAnswer`, `gradeQuiz`).
- `Scenarios`: a worked quiz over the domain alice, bob, charlie.

Every random choice of the source (`Math.random`) is a parameter: the domain
size draw, one coin per individual and predicate, one index per constant, and
one catalog index per sampled problem. Each is required to lie in the range
the source's `Math.floor(Math.random() * n)` can produce.

## Model

Rows marked "a definition" name a function that models the cited code directly; the lemmas named in the row state what it promises.

| member | source | states |
|---|---|---|
| ProblemBank.Template.Id | Quiz-Monadic-Truth/fol_problem_bank.js:5-593 | the entry's `id`, one case per catalog entry (a definition; the model reads entries by constructor, so nothing else uses it) |
| ProblemBank.Template.Pattern | Quiz-Monadic-Truth/fol_problem_bank.js:5-593 | the entry's `formula_template`, one case per catalog entry (a definition; `RenderedPatternIsTemplate` states what is displayed) |
| ProblemBank.Template.Info | Quiz-Monadic-Truth/fol_problem_bank.js:5-593 | the entry's `stage`, `predicates`, `constants` and requirement flags, and whether it defines `checkWitness` or `checkCounterexample`, one case per catalog entry (a definition) |
| ProblemBank.Truth | Quiz-Monadic-Truth/fol_problem_bank.js:5-593 | the entry's truth evaluator, one case per catalog entry, reading each placeholder's extension through the substitution (a definition; the ProblemBankLaws lemmas state its properties) |
| ProblemBank.CheckWitness | Quiz-Monadic-Truth/fol_problem_bank.js:145-297 | the `checkWitness` of each existential entry: whether the named individual satisfies the quantified body (a definition; `WitnessCharacterizesTruth` ties it to `Truth`) |
| ProblemBank.CheckCounterexample | Quiz-Monadic-Truth/fol_problem_bank.js:314-462 | the `checkCounterexample` of each universal entry: whether the named individual falsifies the quantified body (a definition; `CounterexampleCharacterizesFalsity` ties it to `Truth`) |
| ProblemBank.ProblemsByStage | Quiz-Monadic-Truth/fol_problem_bank.js:597-599 | the list is non-empty exactly for stages 0 to 3, and every entry of it declares the requested stage |
| ProblemBank.Stage0Homogeneous | Quiz-Monadic-Truth/fol_problem_bank.js:5-130 | every stage-0 entry declares stage 0 |
| ProblemBank.Stage1Homogeneous | Quiz-Monadic-Truth/fol_problem_bank.js:132-299 | every stage-1 entry declares stage 1 |
| ProblemBank.Stage2Homogeneous | Quiz-Monadic-Truth/fol_problem_bank.js:301-465 | every stage-2 entry declares stage 2 |
| ProblemBank.Stage3Homogeneous | Quiz-Monadic-Truth/fol_problem_bank.js:466-593 | every stage-3 entry declares stage 3 |
| ProblemBank.RandomProblemFromStage | Quiz-Monadic-Truth/fol_problem_bank.js:602-605 | an entry comes back exactly for stages 0 to 3 (`undefined` otherwise), and it is an entry of that stage |
| ProblemBank.AllProblems | Quiz-Monadic-Truth/fol_problem_bank.js:608-615 | the 34 entries, with stages in non-decreasing order |
| ProblemBankLaws.Covered | Quiz-Monadic-Truth/fol_problem_bank.js:597-599 | every entry is listed under one of the four stages |
| ProblemBankLaws.ListedUnderItsStage | Quiz-Monadic-Truth/fol_problem_bank.js:597-599 | every entry declares a stage from 0 to 3 and is listed under that stage |
| ProblemBankLaws.StageMembership | Quiz-Monadic-Truth/fol_problem_bank.js:597-615 | an entry is listed under a stage if and only if it declares that stage; every entry declares a stage from 0 to 3 and is listed by `getAllProblems` |
| ProblemBankLaws.ValidExtensionsInDomain | Quiz-Monadic-Truth/quiz_generator.js:37-45 | in a valid model every extension lies inside the domain |
| ProblemBankLaws.TautologiesHold | Quiz-Monadic-Truth/fol_problem_bank.js:120-463 | `P(c) ∨ ¬P(c)` (lines 120-130) and `∀x(P(x) ∨ ¬P(x))` (lines 449-463) are true in every model that binds P, and the universal one has no counterexample |
| ProblemBankLaws.NegatedExistentialIsUniversalNegation | Quiz-Monadic-Truth/fol_problem_bank.js:319-581 | `¬∃xP(x)` (lines 570-581), computed as "P's extension is empty", agrees with `∀x¬P(x)` (lines 319-335) in every model whose P-extension lies in the domain |
| ProblemBankLaws.NegatedExistentialNeedsSubset | Quiz-Monadic-Truth/fol_problem_bank.js:570-581 | without that condition the two can disagree: an empty domain with P = {alice} |
| ProblemBankLaws.NegatedUniversalIsExistentialNegation | Quiz-Monadic-Truth/fol_problem_bank.js:261-593 | `¬∀xP(x)` (lines 582-593) agrees with `∃x¬P(x)` (lines 261-277) in every model |
| ProblemBankLaws.SameWitnessImpliesSeparateWitnesses | Quiz-Monadic-Truth/fol_problem_bank.js:468-497 | `∃x(P(x) ∧ Q(x))` implies `∃xP(x) ∧ ∃xQ(x)` |
| ProblemBankLaws.ExistentialScopeIsStrict | Quiz-Monadic-Truth/fol_problem_bank.js:468-497 | with P = {alice} and Q = {bob}, `∃xP(x) ∧ ∃xQ(x)` is true and `∃x(P(x) ∧ Q(x))` is false |
| ProblemBankLaws.DomainChoiceImpliesPerIndividualChoice | Quiz-Monadic-Truth/fol_problem_bank.js:498-528 | `∀xP(x) ∨ ∀xQ(x)` implies `∀x(P(x) ∨ Q(x))` |
| ProblemBankLaws.UniversalScopeIsStrict | Quiz-Monadic-Truth/fol_problem_bank.js:498-528 | over {alice, bob} with P = {alice} and Q = {bob}, `∀x(P(x) ∨ Q(x))` is true and `∀xP(x) ∨ ∀xQ(x)` is false |
| ProblemBankLaws.DuplicatedFormulasAgree | Quiz-Monadic-Truth/fol_problem_bank.js:151-527 | the catalog's two copies of `∃x(P(x) ∧ Q(x))`, and its two copies of `∀x(P(x) ∨ Q(x))`, evaluate alike |
| ProblemBankLaws.DisjointModel | Quiz-Monadic-Truth/fol_problem_bank.js:468-528 | the two-individual model with disjoint P and Q satisfies the model invariant |
| ProblemBankLaws.IdentityPQ | Quiz-Monadic-Truth/quiz_generator.js:80-85 | a fixture substitution that binds P to P and Q to Q |
| Instantiator.TwoPredicateSubstitution | Quiz-Monadic-Truth/quiz_generator.js:76-94 | for every entry with two predicates and no constants, `createSubstitutions` builds exactly the fixture `IdentityPQ` |
| ProblemBankLaws.DisjointModelBinds | Quiz-Monadic-Truth/fol_problem_bank.js:468-528 | that substitution binds both placeholders in the disjoint model, to {alice} and {bob} |
| ProblemBankLaws.WitnessCharacterizesTruth | Quiz-Monadic-Truth/fol_problem_bank.js:132-299 | each stage-1 entry is true if and only if some domain individual passes its `checkWitness` (for `∃xP(x)`, whose evaluator tests the length of P, given P inside the domain) |
| ProblemBankLaws.CounterexampleCharacterizesFalsity | Quiz-Monadic-Truth/fol_problem_bank.js:301-465 | each stage-2 entry that requires a counterexample is false if and only if some domain individual passes its `checkCounterexample` |
| ModelGenerator.PredicateLetters | Quiz-Monadic-Truth/quiz_generator.js:35 | the predicate letters taken are distinct |
| ModelGenerator.ConstantLetters | Quiz-Monadic-Truth/quiz_generator.js:58 | the constant letters taken are distinct |
| ModelGenerator.Domain | Quiz-Monadic-Truth/quiz_generator.js:26 | the domain has distinct names, and as many as requested up to the five available |
| ModelGenerator.Select | Quiz-Monadic-Truth/quiz_generator.js:39-44 | the individuals whose coin is true, in domain order (a definition; the next four lemmas state its properties) |
| ModelGenerator.SelectIsSubsequence | Quiz-Monadic-Truth/quiz_generator.js:39-44 | an extension keeps the individuals whose coin came up in domain order |
| ModelGenerator.SubsequenceInherits | Quiz-Monadic-Truth/quiz_generator.js:37-45 | a selection from the domain has no duplicates and no element outside the domain |
| ModelGenerator.SelectMembership | Quiz-Monadic-Truth/quiz_generator.js:39-44 | an individual is in an extension if and only if its coin for that predicate came up |
| ModelGenerator.SelectStep | Quiz-Monadic-Truth/quiz_generator.js:40-44 | looking at one more individual appends it to the extension exactly when its coin came up |
| ModelGenerator.Extensions | Quiz-Monadic-Truth/quiz_generator.js:35-45 | the `model[pred]` entries after the first n letters are processed; it has at most n keys |
| ModelGenerator.ExtensionsKeys | Quiz-Monadic-Truth/quiz_generator.js:35-38 | exactly the first `numPredicates` letters get an extension |
| ModelGenerator.ExtensionsValues | Quiz-Monadic-Truth/quiz_generator.js:37-45 | each of those letters holds the selection of the domain by its own coins |
| ModelGenerator.RandomModel | Quiz-Monadic-Truth/quiz_generator.js:19-48 | the model `generateRandomModel` returns for given random draws (a definition; `RandomModelShape` states its properties) |
| ModelGenerator.RandomModelShape | Quiz-Monadic-Truth/quiz_generator.js:19-48 | the generated model is valid; the domain is a prefix of the name pool of the reported size, with 3 to 5 members when no size is given; the extensions are keyed by the letters used, each an order-preserving duplicate-free selection of the domain |
| ModelGenerator.GenerateRandomModel | Quiz-Monadic-Truth/quiz_generator.js:19-48 | the loops build exactly the specified model, which is valid |
| ModelGenerator.Assignment | Quiz-Monadic-Truth/quiz_generator.js:61-64 | every assigned value is a member of the domain |
| ModelGenerator.AssignmentKeys | Quiz-Monadic-Truth/quiz_generator.js:58-64 | exactly the first `n` constant letters are assigned |
| ModelGenerator.AssignmentValues | Quiz-Monadic-Truth/quiz_generator.js:61-64 | each of those letters denotes the domain member its draw indexes |
| ModelGenerator.Constants | Quiz-Monadic-Truth/quiz_generator.js:56-67 | the assignment `generateConstants` returns for given draws (a definition; `ConstantsShape` states its keys and values) |
| ModelGenerator.ConstantsShape | Quiz-Monadic-Truth/quiz_generator.js:56-67 | the assignment's keys are the first `numConstants` constant letters, and letter i denotes the member drawn by index i |
| ModelGenerator.GenerateConstants | Quiz-Monadic-Truth/quiz_generator.js:56-67 | the loop builds the specified assignment: its keys are the constant letters, and each denotes the drawn member of the domain |
| Instantiator.PlaceholderLetter | Quiz-Monadic-Truth/quiz_generator.js:83 | the character with code 80 + i is the i-th placeholder letter, which is also the i-th predicate letter |
| Instantiator.PredicateBindings | Quiz-Monadic-Truth/quiz_generator.js:80-85 | binding i maps placeholder i to predicate letter i |
| Instantiator.ConstantBindings | Quiz-Monadic-Truth/quiz_generator.js:89-94 | every binding is an assigned constant letter with its individual, every assigned letter is bound, and no key repeats |
| Instantiator.SubstitutionFor | Quiz-Monadic-Truth/quiz_generator.js:76-97 | the predicate bindings followed, when there are constants, by the constant bindings (a definition; the lemmas after it state its keys and values) |
| Instantiator.Substitution | Quiz-Monadic-Truth/quiz_generator.js:76-97 | what `createSubstitutions` builds for an entry, from its arity fields (a definition) |
| Instantiator.SubstitutionShape | Quiz-Monadic-Truth/quiz_generator.js:76-97 | the keys are distinct; each placeholder the entry uses is bound to the same letter; `c` is bound to its individual exactly when the entry uses a constant and `c` is assigned; no other key occurs |
| Instantiator.CreateSubstitutions | Quiz-Monadic-Truth/quiz_generator.js:76-97 | the loops build exactly the specified substitution |
| Instantiator.ReplaceCalls | Quiz-Monadic-Truth/quiz_generator.js:112-113 | the global `k(` to `v(` replacement, a left-to-right scan without overlap (a definition; `ReplaceCallsBySelf` and `ReplaceCallsAt` state its properties) |
| Instantiator.Render | Quiz-Monadic-Truth/quiz_generator.js:105-122 | the placeholder keys' replacements applied in key order, other keys skipped (a definition; `RenderIdentity` and `RenderRewritesOnlyCalls` state its properties) |
| Instantiator.ApplySubstitutions | Quiz-Monadic-Truth/quiz_generator.js:105-122 | the loop returns the template rewritten by each predicate key in key order |
| Instantiator.ReplaceCallsBySelf | Quiz-Monadic-Truth/quiz_generator.js:111-113 | replacing a letter's applications by the same letter leaves the formula unchanged |
| Instantiator.ReplaceCallsAt | Quiz-Monadic-Truth/quiz_generator.js:111-113 | with a one-letter replacement the length is kept, and exactly the positions opening an application `k(` change, to the new letter |
| Instantiator.RenderIdentity | Quiz-Monadic-Truth/quiz_generator.js:105-122 | when every predicate key maps to itself the display formula is the template |
| Instantiator.RenderRewritesOnlyCalls | Quiz-Monadic-Truth/quiz_generator.js:105-122 | with one-letter predicate values, only predicate letters opening an application change; constants stay in the display formula |
| Instantiator.SubstitutionForSelfBound | Quiz-Monadic-Truth/quiz_generator.js:76-97 | every predicate key of a built substitution is bound to itself, since constant letters are never predicate keys |
| Instantiator.RenderedPatternIsTemplate | Quiz-Monadic-Truth/quiz_generator.js:76-122 | the display formula of every catalog entry is its own pattern, constants included |
| QuizAssembler.StageCount | Quiz-Monadic-Truth/quiz_generator.js:130-136 | the stage counts default to 1, 2, 2 and 2 |
| QuizAssembler.StageCountChoice | Quiz-Monadic-Truth/quiz_generator.js:130-136 | each stage's count is its own option when given and its own default (1, 2, 2, 2) otherwise, whatever the other stages' options |
| QuizAssembler.StageSampleDraws | Quiz-Monadic-Truth/quiz_generator.js:150-172 | the i-th problem drawn from a stage is that stage's entry at the i-th draw, and declares that stage |
| QuizAssembler.Selection | Quiz-Monadic-Truth/quiz_generator.js:147-172 | the four stage samples in stage order; its length is the sum of the stage counts |
| QuizAssembler.SelectionUpToAt | Quiz-Monadic-Truth/quiz_generator.js:147-172 | after the first m sampling loops, the j-th draw of an earlier stage k sits at the stage counts before k plus j |
| QuizAssembler.SelectionBlock | Quiz-Monadic-Truth/quiz_generator.js:147-172 | the j-th problem of stage k's block is the stage-k entry its j-th pick indexes, and declares stage k |
| QuizAssembler.SelectionStages | Quiz-Monadic-Truth/quiz_generator.js:147-172 | the same for all four stages at once: the selection is the stage 0 block, then stage 1, 2 and 3, each in draw order |
| QuizAssembler.SelectionStageAt | Quiz-Monadic-Truth/quiz_generator.js:147-172 | position i of the selection holds an entry of the stage whose block contains i |
| QuizAssembler.StageAtMonotone | Quiz-Monadic-Truth/quiz_generator.js:147-172 | the block a position falls in never goes down as the position grows |
| QuizAssembler.SelectionStagesAscend | Quiz-Monadic-Truth/quiz_generator.js:147-172 | the stages of the selection never decrease |
| QuizAssembler.PredicatesWithinModel | Quiz-Monadic-Truth/quiz_generator.js:138-139 | no catalog entry uses more than the three predicates the quiz model interprets |
| QuizAssembler.ModelInterpretsThree | Quiz-Monadic-Truth/quiz_generator.js:139-142 | the quiz model interprets exactly `P`, `Q` and `R` |
| QuizAssembler.OneConstant | Quiz-Monadic-Truth/quiz_generator.js:144-145 | the quiz assigns exactly `c`, to the drawn member |
| QuizAssembler.QuizModelShape | Quiz-Monadic-Truth/quiz_generator.js:129-200 | the quiz model is valid, its size is the metadata's, `c` denotes a domain member, and the problem total is the sum of the stage counts |
| QuizAssembler.SubstitutionBinds | Quiz-Monadic-Truth/quiz_generator.js:79-85 | each of the first one to three placeholders is bound to a predicate the generated model interprets |
| QuizAssembler.Instantiate | Quiz-Monadic-Truth/quiz_generator.js:175-188 | the problem record built for template t at position index (a definition; `InstantiateShape` states its fields) |
| QuizAssembler.InstantiateShape | Quiz-Monadic-Truth/quiz_generator.js:175-188 | a problem is numbered by position, shows its entry's pattern, copies its stage and flags, binds the placeholders it uses to model predicates, and binds `c` when it uses a constant |
| QuizAssembler.QuizFor | Quiz-Monadic-Truth/quiz_generator.js:129-200 | the quiz `generateQuiz` returns for given random draws, without the time stamp (a definition; `QuizShape`, `QuizStages` and `QuizModelShape` state its properties) |
| QuizAssembler.QuizProblemAt | Quiz-Monadic-Truth/quiz_generator.js:175-188 | problem i of a generated quiz is the i-th selected entry instantiated at position i |
| QuizAssembler.QuizShape | Quiz-Monadic-Truth/quiz_generator.js:129-200 | the quiz has as many problems as the stage counts add up to; every problem is numbered from 1 and shows its entry's pattern, stage and flags, with its placeholders bound to model predicates and `c` bound to the drawn member when the entry uses a constant |
| QuizAssembler.QuizTemplateAt | Quiz-Monadic-Truth/quiz_generator.js:175-188 | problem i holds the i-th selected entry and that entry's stage |
| QuizAssembler.QuizStages | Quiz-Monadic-Truth/quiz_generator.js:147-188 | the j-th problem drawn from stage k is the stage-k entry its pick indexes, placed after the problems of the earlier stages; the problems' stages never decrease |
| QuizAssembler.DrawFromStage | Quiz-Monadic-Truth/quiz_generator.js:151-154 | one sampling loop returns the specified draws of its stage |
| QuizAssembler.SelectProblems | Quiz-Monadic-Truth/quiz_generator.js:147-172 | the four sampling loops return the specified selection |
| QuizAssembler.InstantiateProblems | Quiz-Monadic-Truth/quiz_generator.js:175-188 | the loop returns each selected entry instantiated at its position |
| QuizAssembler.GenerateQuiz | Quiz-Monadic-Truth/quiz_generator.js:129-200 | the method returns exactly the specified quiz |
| Grader.CheckAnswer | Quiz-Monadic-Truth/quiz_generator.js:210-268 | the correct answer is the entry's evaluator; overall correctness is truth correctness and witness correctness; a witness is required exactly for a true claim requiring one or a false claim requiring a counterexample; otherwise witness correctness holds with no message; a message is given exactly when the witness part fails |
| Grader.JudgeWitness | Quiz-Monadic-Truth/quiz_generator.js:224-251 | the witness or counterexample outcome: absent, not in the domain, or the entry's check, each with its message (a definition; `WitnessRules` and `CounterexampleRules` state the outcomes) |
| Grader.WitnessRules | Quiz-Monadic-Truth/quiz_generator.js:224-237 | for a true claim requiring a witness: absent fails with "required", outside the domain fails with "not in the domain", otherwise the entry's witness check decides, a failed check giving "not a valid witness"; the whole answer is correct exactly when the truth value is right and the witness passes |
| Grader.CounterexampleRules | Quiz-Monadic-Truth/quiz_generator.js:238-251 | the same rules for a false claim requiring a counterexample, a failed check giving "not a valid counterexample" |
| Grader.UnneededWitnessIgnored | Quiz-Monadic-Truth/quiz_generator.js:252-255 | when no witness is required the submitted one has no effect and only the truth value counts |
| Grader.RequirementHasCheck | Quiz-Monadic-Truth/fol_problem_bank.js:132-465 | every entry requiring a witness defines `checkWitness`, and every one requiring a counterexample defines `checkCounterexample` |
| Grader.NamesArePresent | Quiz-Monadic-Truth/quiz_generator.js:5 | no pool name is empty or the not-applicable marker |
| Grader.GeneratedQuizWellFormed | Quiz-Monadic-Truth/quiz_generator.js:129-268 | every problem of a generated quiz can be graded without a type error |
| Grader.CorrectAnswerExists | Quiz-Monadic-Truth/quiz_generator.js:210-268 | every problem of a valid quiz has a fully correct answer |
| Grader.GeneratedQuizIsAnswerable | Quiz-Monadic-Truth/quiz_generator.js:129-268 | every problem of a generated quiz has a fully correct answer |
| Grader.CountCorrect | Quiz-Monadic-Truth/quiz_generator.js:282 | the number of correct results, counted from the end (a definition; `CountCorrectIsFilterSize` and `CountCorrectBounds` state its properties) |
| Grader.CountCorrectIsFilterSize | Quiz-Monadic-Truth/quiz_generator.js:282 | the count of correct results equals the number of positions whose result is correct |
| Grader.CountCorrectBounds | Quiz-Monadic-Truth/quiz_generator.js:282 | the correct count is at most the number of results, equals it exactly when all are correct, and is zero exactly when none is |
| Grader.GradeQuiz | Quiz-Monadic-Truth/quiz_generator.js:276-292 | one result per answer in answer order, answer i graded as problem i + 1; the total is the number of answers; the correct count is the number of results marked correct, so between 0 and the total, with full and zero marks characterised |
| Scenarios.ExampleModel | Quiz-Monadic-Truth/quiz_generator.js:19-48 | the worked model is valid |
| Scenarios.SubstitutionShapeExample | Quiz-Monadic-Truth/quiz_generator.js:76-97 | the conjunction's substitution is P to P, Q to Q, c to alice; the existential's is P to P |
| Scenarios.ConjunctionInstantiated | Quiz-Monadic-Truth/quiz_generator.js:175-188 | the conjunction is instantiated as problem 1 displaying `P(c) ∧ Q(c)` |
| Scenarios.ExistentialInstantiated | Quiz-Monadic-Truth/quiz_generator.js:175-188 | the existential is instantiated as problem 2 displaying `∃xP(x)` |
| Scenarios.ConjunctionIsFalse | Quiz-Monadic-Truth/fol_problem_bank.js:33-46 | `P(c) ∧ Q(c)` with c = alice is false, and the answer false is correct with no witness needed |
| Scenarios.ExampleWellFormed | Quiz-Monadic-Truth/quiz_generator.js:210-213 | both worked problems can be graded |
| Scenarios.ExistentialWitnesses | Quiz-Monadic-Truth/fol_problem_bank.js:134-149 | `∃xP(x)` is true and its valid witnesses are exactly alice |
| Scenarios.WitnessRequirementExample | Quiz-Monadic-Truth/quiz_generator.js:224-237 | answering `∃xP(x)` true fails with no witness or "n/a" ("required"), with zoe ("not in the domain"), with bob ("not a valid witness"), and succeeds with alice |
| Scenarios.FullMarksExample | Quiz-Monadic-Truth/quiz_generator.js:276-292 | the two right answers score two out of two |

## Left out

- Randomness: `Math.random` is replaced by parameters (the size draw, coins, constant draws and catalog picks). The model does not state the 0.5 coin bias or uniform sampling.
- `metadata.generatedAt` (`new Date().toISOString()`) is left out because it reads the clock.
- `score` and `percentage` of `gradeQuiz` are left out because they are floating point. With no answers the source divides 0 by 0.
- Message wording: `Message` names the failure kind and the quoted witness, not the English text.
- Descriptions of catalog entries, `module.exports`, and the Unicode display of patterns beyond string equality are left out.
- Regular expressions: `applySubstitutions` builds `new RegExp(key + '\\(', 'g')` and `subs[key] + '('` as the replacement. The model is a left-to-right scan for `k(`. The `$` specials of a replacement string are not modelled. Every value the generator produces is a single letter, which has no specials.
- Instantiator.ConstantBindings: a constant letter missing from the assignment gets no binding, where the source stores the key with `undefined`. Every reader treats both the same, because evaluators then test `includes(undefined)` and the renderer skips non-predicate keys.
- Options: JavaScript values other than a missing option or a natural number are not modelled. That covers `null` counts, negative or fractional counts and sizes, and strings such as `"0"` for stages. A missing count takes its default. A missing or zero domain size is drawn.
- Grader.CheckAnswer requires the problem number to be in range, the problem's placeholders to be bound in the model, and each requirement flag to be backed by the entry's `checkWitness` or `checkCounterexample`. The source indexes past the end, or fails with a `TypeError` when evaluation reaches an unbound placeholder (its `&&` and `||` short-circuit, so an evaluator may return before that); a missing check fails only when the source reaches the call, that is when a witness or counterexample is submitted that is in the domain. `RequirementHasCheck` shows every catalog entry meets the third condition. `GeneratedQuizWellFormed` shows generated quizzes always meet the second condition.
- ProblemBank.Truth requires every entry's placeholders to be bound, the tautologies' included, though their source evaluators read no extension. So `TautologiesHold` is stated for substitutions that bind P; `createSubstitutions` always binds P for these one-predicate entries.
- Grader.GradeQuiz requires at most as many answers as problems. An extra answer makes the source's `checkAnswer` fail.
- ModelGenerator.GenerateConstants requires one draw below the domain size per constant, so it needs a non-empty domain. Generated domains are never empty, because a zero size is replaced by a random one.
- `gradeQuiz` determinism (the same quiz and answers give the same report) holds because `GradeQuiz` is a function. No separate lemma states it.
- ModelGenerator.GenerateRandomModel: the inner loop collects a predicate's extension in a local list and stores it in the model once it is complete. The source stores an empty array first and pushes into it in place. The final model is the same.
- Stage and problem numbers are Dafny integers, without JavaScript's number coercions.
