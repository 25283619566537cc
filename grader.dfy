/**
 * Grading: one answer against the quiz's model (`checkAnswer`), and a list of
 * answers with the number correct (`gradeQuiz`), in
 * Quiz-Monadic-Truth/quiz_generator.js.
 */
module Grader {
  import opened Wrappers
  import opened ProblemBank
  import opened ProblemBankLaws
  import opened ModelGenerator
  import opened QuizAssembler

  /** The kind of `witnessMessage`; the names carry the submitted witness where the message quotes it. */
  datatype Message =
    | NoMessage
    | WitnessRequired
    | CounterexampleRequired
    | NotInDomain(name: string)
    | NotValidWitness(name: string)
    | NotValidCounterexample(name: string)

  /** The result of `checkAnswer`; `problem` is the graded problem. */
  datatype GradingResult = GradingResult(
    correct: bool,
    truthValueCorrect: bool,
    witnessCorrect: bool,
    witnessRequired: bool,
    correctAnswer: bool,
    message: Message,
    problem: Problem)

  /** One entry of `studentAnswers`. */
  datatype Answer = Answer(truthValue: bool, witnessText: Option<string>)

  /** The result of `gradeQuiz`, without the floating-point `score` and `percentage`. */
  datatype Report = Report(results: seq<GradingResult>, totalProblems: nat, correctProblems: nat)

  /** The witness is absent: `!witness || witness === 'n/a'`. */
  predicate Absent(candidate: Option<string>) {
    candidate.None? || candidate.value == "" || candidate.value == "n/a"
  }

  /**
   * A problem can be graded against model `m`: its evaluators' placeholders
   * are bound to predicates of `m`, and a witness or counterexample is only
   * required of a template that has the check for it.
   */
  predicate ProblemWellFormed(m: Model, p: Problem) {
    && Binds(m, p.substitutions, p.template.Info().predicates)
    && (p.requiresWitness ==> p.template.Info().hasWitnessCheck)
    && (p.requiresCounterexample ==> p.template.Info().hasCounterexampleCheck)
  }

  /** Every problem of the quiz can be graded. */
  predicate QuizWellFormed(q: Quiz) {
    forall i :: 0 <= i < |q.problems| ==> ProblemWellFormed(q.model, q.problems[i])
  }

  /** The outcome of the witness (or counterexample) part of grading: correctness and message. */
  function JudgeWitness(
    isCounterexample: bool, candidate: Option<string>, m: Model, p: Problem): (r: (bool, Message))
    requires ProblemWellFormed(m, p)
    requires if isCounterexample then p.template.Info().hasCounterexampleCheck else p.template.Info().hasWitnessCheck
  {
    if Absent(candidate) then
      (false, if isCounterexample then CounterexampleRequired else WitnessRequired)
    else if candidate.value !in m.domain then
      (false, NotInDomain(candidate.value))
    else if isCounterexample then
      var ok := CheckCounterexample(p.template, candidate.value, m, p.substitutions);
      (ok, if ok then NoMessage else NotValidCounterexample(candidate.value))
    else
      var ok := CheckWitness(p.template, candidate.value, m, p.substitutions);
      (ok, if ok then NoMessage else NotValidWitness(candidate.value))
  }

  /**
   * `checkAnswer(quiz, problemNumber, studentAnswer, witness)`: the truth value
   * is judged against the template's evaluator; a witness is judged only when
   * the problem requires one and the claim is true, a counterexample only when
   * it requires one and the claim is false.
   */
  function CheckAnswer(q: Quiz, problemNumber: int, studentAnswer: bool, candidate: Option<string>): (r: GradingResult)
    requires 1 <= problemNumber <= |q.problems|
    requires ProblemWellFormed(q.model, q.problems[problemNumber - 1])
    ensures var p := q.problems[problemNumber - 1];
      && r.problem == p
      && r.correctAnswer == Truth(p.template, q.model, p.substitutions)
      && (r.truthValueCorrect <==> studentAnswer == r.correctAnswer)
      && (r.correct <==> r.truthValueCorrect && r.witnessCorrect)
      && (r.witnessRequired <==> (p.requiresWitness && r.correctAnswer) || (p.requiresCounterexample && !r.correctAnswer))
      && (!r.witnessRequired ==> r.witnessCorrect && r.message == NoMessage)
      && (r.witnessCorrect <==> r.message == NoMessage)
  {
    var p := q.problems[problemNumber - 1];
    var model := q.model;
    var subs := p.substitutions;
    var correctAnswer := Truth(p.template, model, subs);
    var truthValueCorrect := studentAnswer == correctAnswer;
    var (witnessRequired, (witnessCorrect, message)) :=
      if p.requiresWitness && correctAnswer then (true, JudgeWitness(false, candidate, model, p))
      else if p.requiresCounterexample && !correctAnswer then (true, JudgeWitness(true, candidate, model, p))
      else (false, (true, NoMessage));
    GradingResult(truthValueCorrect && witnessCorrect, truthValueCorrect, witnessCorrect, witnessRequired,
                  correctAnswer, message, p)
  }

  /**
   * When a witness is required for a true claim: an absent one fails with
   * "required", one outside the domain fails with "not in the domain", and
   * otherwise the verdict is the template's witness check, a failed check
   * giving "not a valid witness".
   */
  lemma WitnessRules(q: Quiz, n: int, answer: bool, candidate: Option<string>)
    requires 1 <= n <= |q.problems| && ProblemWellFormed(q.model, q.problems[n - 1])
    requires var p := q.problems[n - 1]; p.requiresWitness && Truth(p.template, q.model, p.substitutions)
    ensures var p := q.problems[n - 1];
      var r := CheckAnswer(q, n, answer, candidate);
      && r.witnessRequired
      && (Absent(candidate) ==> !r.correct && r.message == WitnessRequired)
      && (!Absent(candidate) && candidate.value !in q.model.domain ==> !r.correct && r.message == NotInDomain(candidate.value))
      && (!Absent(candidate) && candidate.value in q.model.domain ==>
            (r.witnessCorrect <==> CheckWitness(p.template, candidate.value, q.model, p.substitutions)))
      && (!Absent(candidate) && candidate.value in q.model.domain &&
          !CheckWitness(p.template, candidate.value, q.model, p.substitutions) ==>
            r.message == NotValidWitness(candidate.value))
      && (r.correct <==>
            (answer && !Absent(candidate) && candidate.value in q.model.domain &&
             CheckWitness(p.template, candidate.value, q.model, p.substitutions)))
  {
  }

  /**
   * When a counterexample is required for a false claim (and no witness is
   * required first): the rules mirror the witness rules, with the template's
   * counterexample check and "not a valid counterexample".
   */
  lemma CounterexampleRules(q: Quiz, n: int, answer: bool, candidate: Option<string>)
    requires 1 <= n <= |q.problems| && ProblemWellFormed(q.model, q.problems[n - 1])
    requires var p := q.problems[n - 1]; p.requiresCounterexample && !Truth(p.template, q.model, p.substitutions)
    ensures var p := q.problems[n - 1];
      var r := CheckAnswer(q, n, answer, candidate);
      && r.witnessRequired
      && (Absent(candidate) ==> !r.correct && r.message == CounterexampleRequired)
      && (!Absent(candidate) && candidate.value !in q.model.domain ==> !r.correct && r.message == NotInDomain(candidate.value))
      && (!Absent(candidate) && candidate.value in q.model.domain ==>
            (r.witnessCorrect <==> CheckCounterexample(p.template, candidate.value, q.model, p.substitutions)))
      && (!Absent(candidate) && candidate.value in q.model.domain &&
          !CheckCounterexample(p.template, candidate.value, q.model, p.substitutions) ==>
            r.message == NotValidCounterexample(candidate.value))
      && (r.correct <==>
            (!answer && !Absent(candidate) && candidate.value in q.model.domain &&
             CheckCounterexample(p.template, candidate.value, q.model, p.substitutions)))
  {
  }

  /** An unneeded witness is never held against the student: only the truth value counts. */
  lemma UnneededWitnessIgnored(q: Quiz, n: int, answer: bool, candidate: Option<string>, other: Option<string>)
    requires 1 <= n <= |q.problems| && ProblemWellFormed(q.model, q.problems[n - 1])
    requires !CheckAnswer(q, n, answer, candidate).witnessRequired
    ensures CheckAnswer(q, n, answer, candidate) == CheckAnswer(q, n, answer, other)
    ensures CheckAnswer(q, n, answer, candidate).correct <==> answer == Truth(q.problems[n - 1].template, q.model, q.problems[n - 1].substitutions)
  {
  }

  /** The problems of a generated quiz can all be graded, and its domain names are real names. */
  lemma GeneratedQuizWellFormed(o: QuizOptions, sizeDraw: nat, coins: seq<seq<bool>>, constantDraws: seq<nat>, picks: seq<seq<nat>>)
    requires QuizRandomnessFits(o, sizeDraw, coins, constantDraws, picks)
    ensures var q := QuizFor(o, sizeDraw, coins, constantDraws, picks);
      && QuizWellFormed(q)
      && Valid(q.model)
      && forall x :: x in q.model.domain ==> !Absent(Some(x))
  {
    var q := QuizFor(o, sizeDraw, coins, constantDraws, picks);
    QuizShape(o, sizeDraw, coins, constantDraws, picks);
    forall i | 0 <= i < |q.problems| ensures ProblemWellFormed(q.model, q.problems[i]) {
      RequirementHasCheck(q.problems[i].template);
    }
    QuizModelShape(o, sizeDraw, coins, constantDraws, picks);
    NamesArePresent(q.domainSize);
  }

  /** No name of the pool is empty or the not-applicable marker. */
  lemma NamesArePresent(size: nat)
    ensures forall x :: x in Domain(size) ==> !Absent(Some(x))
  {
    var d := Domain(size);
    forall x | x in d ensures x in AVAILABLE_NAMES {
      var i :| 0 <= i < |d| && d[i] == x;
      assert AVAILABLE_NAMES[i] == x;
    }
  }

  /** A template that requires a witness has a witness check, and one that requires a counterexample a counterexample check. */
  lemma RequirementHasCheck(t: Template)
    ensures t.Info().requiresWitness ==> t.Info().hasWitnessCheck
    ensures t.Info().requiresCounterexample ==> t.Info().hasCounterexampleCheck
  {
  }

  /**
   * Every problem of a generated quiz can be answered correctly: by its
   * truth value, together with a witness for a true existential claim or a
   * counterexample for a false universal one, taken from the domain.
   */
  lemma {:induction false} CorrectAnswerExists(q: Quiz, n: int)
    requires 1 <= n <= |q.problems| && ProblemWellFormed(q.model, q.problems[n - 1])
    requires Valid(q.model) && forall x :: x in q.model.domain ==> !Absent(Some(x))
    requires var p := q.problems[n - 1];
      && p.requiresWitness == p.template.Info().requiresWitness
      && p.requiresCounterexample == p.template.Info().requiresCounterexample
    ensures exists answer: bool, candidate: Option<string> :: CheckAnswer(q, n, answer, candidate).correct
  {
    var p := q.problems[n - 1];
    var m, s := q.model, p.substitutions;
    var truth := Truth(p.template, m, s);
    if p.requiresWitness && truth {
      if p.template == SimpleExistential {
        ValidExtensionsInDomain(m, s, P);
      }
      WitnessCharacterizesTruth(p.template, m, s);
      var x :| x in m.domain && CheckWitness(p.template, x, m, s);
      assert CheckAnswer(q, n, true, Some(x)).correct;
    } else if p.requiresCounterexample && !truth {
      CounterexampleCharacterizesFalsity(p.template, m, s);
      var x :| x in m.domain && CheckCounterexample(p.template, x, m, s);
      assert CheckAnswer(q, n, false, Some(x)).correct;
    } else {
      assert CheckAnswer(q, n, truth, None).correct;
    }
  }

  /** A generated quiz can be answered with full marks, problem by problem. */
  lemma GeneratedQuizIsAnswerable(o: QuizOptions, sizeDraw: nat, coins: seq<seq<bool>>, constantDraws: seq<nat>, picks: seq<seq<nat>>, n: int)
    requires QuizRandomnessFits(o, sizeDraw, coins, constantDraws, picks)
    requires 1 <= n <= |QuizFor(o, sizeDraw, coins, constantDraws, picks).problems|
    ensures var q := QuizFor(o, sizeDraw, coins, constantDraws, picks);
      QuizWellFormed(q) && exists answer: bool, candidate: Option<string> :: CheckAnswer(q, n, answer, candidate).correct
  {
    GeneratedQuizWellFormed(o, sizeDraw, coins, constantDraws, picks);
    QuizShape(o, sizeDraw, coins, constantDraws, picks);
    CorrectAnswerExists(QuizFor(o, sizeDraw, coins, constantDraws, picks), n);
  }

  /** `results.filter(r => r.correct).length`. */
  function CountCorrect(results: seq<GradingResult>): (r: nat)
    decreases |results|
  {
    if |results| == 0 then 0
    else CountCorrect(results[..|results| - 1]) + (if results[|results| - 1].correct then 1 else 0)
  }

  /** The count of correct results is at most the number of results, all of them exactly when every result is correct, and none exactly when none is. */
  lemma {:induction false} CountCorrectBounds(results: seq<GradingResult>)
    ensures CountCorrect(results) <= |results|
    ensures CountCorrect(results) == |results| <==> forall i :: 0 <= i < |results| ==> results[i].correct
    ensures CountCorrect(results) == 0 <==> forall i :: 0 <= i < |results| ==> !results[i].correct
    decreases |results|
  {
    if |results| > 0 {
      var init := results[..|results| - 1];
      CountCorrectBounds(init);
      assert forall i :: 0 <= i < |init| ==> init[i] == results[i];
    }
  }

  /** The indices of the correct results: the positions `filter(r => r.correct)` keeps. */
  function CorrectIndices(results: seq<GradingResult>): set<nat> {
    set i: nat | i < |results| && results[i].correct
  }

  /** The count of correct results is the number of positions holding a correct result. */
  lemma {:induction false} CountCorrectIsFilterSize(results: seq<GradingResult>)
    ensures CountCorrect(results) == |CorrectIndices(results)|
    decreases |results|
  {
    if |results| > 0 {
      var n := |results| - 1;
      var init := results[..n];
      CountCorrectIsFilterSize(init);
      assert CorrectIndices(results) == CorrectIndices(init) + (if results[n].correct then {n} else {});
    }
  }

  /** `studentAnswers.map(...)`: answer `i` graded as problem `i + 1`. */
  function Results(q: Quiz, answers: seq<Answer>): (r: seq<GradingResult>)
    requires |answers| <= |q.problems|
    requires forall i :: 0 <= i < |answers| ==> ProblemWellFormed(q.model, q.problems[i])
    ensures |r| == |answers|
    ensures forall i :: 0 <= i < |answers| ==> r[i] == CheckAnswer(q, i + 1, answers[i].truthValue, answers[i].witnessText)
  {
    seq(|answers|, i requires 0 <= i < |answers| =>
      CheckAnswer(q, i + 1, answers[i].truthValue, answers[i].witnessText))
  }

  /**
   * `gradeQuiz(quiz, studentAnswers)`: answer `i` graded as problem `i + 1`,
   * then the correct ones counted.
   */
  function GradeQuiz(q: Quiz, answers: seq<Answer>): (r: Report)
    requires |answers| <= |q.problems|
    requires forall i :: 0 <= i < |answers| ==> ProblemWellFormed(q.model, q.problems[i])
    ensures |r.results| == r.totalProblems == |answers|
    ensures forall i :: 0 <= i < |answers| ==>
      r.results[i] == CheckAnswer(q, i + 1, answers[i].truthValue, answers[i].witnessText)
    ensures r.correctProblems <= r.totalProblems
    ensures r.correctProblems == r.totalProblems <==> forall i :: 0 <= i < |answers| ==> r.results[i].correct
    ensures r.correctProblems == 0 <==> forall i :: 0 <= i < |answers| ==> !r.results[i].correct
    ensures r.correctProblems == |CorrectIndices(r.results)|
  {
    var results := Results(q, answers);
    CountCorrectBounds(results);
    CountCorrectIsFilterSize(results);
    Report(results, |results|, CountCorrect(results))
  }
}
