/**
 * A worked quiz: the domain alice, bob, charlie with P = {alice} and
 * Q = {bob, charlie}, the constant c denoting alice, and two problems, the
 * stage-0 conjunction `P(c) ∧ Q(c)` and the stage-1 existential `∃xP(x)`.
 */
module Scenarios {
  import opened Wrappers
  import opened ProblemBank
  import opened ModelGenerator
  import opened Instantiator
  import opened QuizAssembler
  import opened Grader

  function ExampleModel(): (m: Model)
    ensures Valid(m)
  {
    Model(["alice", "bob", "charlie"], 3, map["P" := ["alice"], "Q" := ["bob", "charlie"]])
  }

  function ExampleConstants(): map<string, string> {
    map[CONSTANT := "alice"]
  }

  function ExampleQuiz(): Quiz {
    var problems := [
      Problem(1, "P(c) ∧ Q(c)", Conjunction, [("P", "P"), ("Q", "Q"), (CONSTANT, "alice")], 0, false, false),
      Problem(2, "∃xP(x)", SimpleExistential, [("P", "P")], 1, true, false)];
    Quiz(ExampleModel(), ExampleConstants(), problems, 3, 2)
  }

  /**
   * The example's problems are what instantiating the two templates gives: the
   * conjunction binds P, Q to themselves and c to alice, and displays
   * `P(c) ∧ Q(c)`; the existential binds only P.
   */
  lemma {:induction false} ConjunctionInstantiated()
    ensures ExampleQuiz().problems[0] == Instantiate(Conjunction, 0, ExampleConstants())
  {
    SubstitutionShapeExample();
    RenderedPatternIsTemplate(Conjunction, ExampleConstants());
    var p := Instantiate(Conjunction, 0, ExampleConstants());
    assert p.formula == Conjunction.Pattern() == "P(c) ∧ Q(c)";
  }

  /** The existential of the example binds only P and displays `∃xP(x)`. */
  lemma {:induction false} ExistentialInstantiated()
    ensures ExampleQuiz().problems[1] == Instantiate(SimpleExistential, 1, ExampleConstants())
  {
    SubstitutionShapeExample();
    RenderedPatternIsTemplate(SimpleExistential, ExampleConstants());
    var p := Instantiate(SimpleExistential, 1, ExampleConstants());
    assert p.formula == SimpleExistential.Pattern() == "∃xP(x)";
  }

  /** The substitution of the conjunction under the example's constants. */
  lemma SubstitutionShapeExample()
    ensures Substitution(Conjunction, ExampleConstants()) == [("P", "P"), ("Q", "Q"), (CONSTANT, "alice")]
    ensures Substitution(SimpleExistential, ExampleConstants()) == [("P", "P")]
  {
    assert ConstantLetters(1) == [CONSTANT];
    assert ConstantLetters(1)[..1] == [CONSTANT];
  }

  /** Both problems can be graded; the conjunction is false (alice is in P but not in Q). */
  lemma {:induction false} ConjunctionIsFalse()
    ensures QuizWellFormed(ExampleQuiz())
    ensures !CheckAnswer(ExampleQuiz(), 1, false, None).witnessRequired
    ensures !CheckAnswer(ExampleQuiz(), 1, false, None).correctAnswer
    ensures CheckAnswer(ExampleQuiz(), 1, false, None).correct
    ensures !CheckAnswer(ExampleQuiz(), 1, true, None).correct
  {
    ExampleWellFormed();
    var q := ExampleQuiz();
    var s := q.problems[0].substitutions;
    assert Lookup(s[1..][1..], CONSTANT) == Some("alice");
    assert "Q" != CONSTANT && "P" != CONSTANT;
    assert Lookup(s[1..], CONSTANT) == Some("alice");
    assert s[0].0 != CONSTANT;
    assert |s| > 0;
    assert Lookup(s, CONSTANT) == Lookup(s[1..], CONSTANT);
    assert Lookup(s, "Q") == Some("Q") && Lookup(s, CONSTANT) == Some("alice");
    assert !ConstIn(q.model, s, Q);
  }

  /** Both problems of the example can be graded. */
  lemma {:induction false} ExampleWellFormed()
    ensures QuizWellFormed(ExampleQuiz())
  {
    var q := ExampleQuiz();
    assert Lookup(q.problems[0].substitutions, "P") == Some("P");
    assert Lookup(q.problems[0].substitutions, "Q") == Some("Q");
    assert Lookup(q.problems[1].substitutions, "P") == Some("P");
  }

  /** `∃xP(x)` is true, and alice is its only valid witness. */
  lemma {:induction false} ExistentialWitnesses()
    ensures QuizWellFormed(ExampleQuiz())
    ensures var q := ExampleQuiz(); var p := q.problems[1];
      && Truth(p.template, q.model, p.substitutions)
      && forall x :: CheckWitness(p.template, x, q.model, p.substitutions) <==> x == "alice"
  {
    ExampleWellFormed();
    var q := ExampleQuiz();
    assert Ext(q.model, q.problems[1].substitutions, P) == ["alice"];
  }

  /**
   * Answering `∃xP(x)` true is marked wrong without a witness ("required"),
   * with a name outside the domain ("not in the domain") and with bob ("not a
   * valid witness"), and right with alice.
   */
  lemma {:induction false} WitnessRequirementExample()
    ensures QuizWellFormed(ExampleQuiz())
    ensures var r := CheckAnswer(ExampleQuiz(), 2, true, None); !r.correct && r.message == WitnessRequired
    ensures var r := CheckAnswer(ExampleQuiz(), 2, true, Some("n/a")); !r.correct && r.message == WitnessRequired
    ensures var r := CheckAnswer(ExampleQuiz(), 2, true, Some("zoe")); !r.correct && r.message == NotInDomain("zoe")
    ensures var r := CheckAnswer(ExampleQuiz(), 2, true, Some("bob")); !r.correct && r.message == NotValidWitness("bob")
    ensures var r := CheckAnswer(ExampleQuiz(), 2, true, Some("alice")); r.correct && r.message == NoMessage
  {
    ExistentialWitnesses();
    var q := ExampleQuiz();
    WitnessRules(q, 2, true, None);
    WitnessRules(q, 2, true, Some("n/a"));
    WitnessRules(q, 2, true, Some("zoe"));
    WitnessRules(q, 2, true, Some("bob"));
    WitnessRules(q, 2, true, Some("alice"));
  }

  /** Grading both problems right scores two out of two. */
  lemma {:induction false} FullMarksExample()
    ensures QuizWellFormed(ExampleQuiz())
    ensures var r := GradeQuiz(ExampleQuiz(), [Answer(false, None), Answer(true, Some("alice"))]);
      r.totalProblems == 2 && r.correctProblems == 2
  {
    ConjunctionIsFalse();
    WitnessRequirementExample();
  }
}
