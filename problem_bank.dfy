/**
 * The fixed catalog of monadic first-order formula templates, grouped into
 * difficulty stages 0-3, each paired with its truth evaluator and, for the
 * existential stage, a witness check and, for the universal stage, a
 * counterexample check (Quiz-Monadic-Truth/fol_problem_bank.js).
 */
module ProblemBank {
  import opened Wrappers

  // ---------------------------------------------------------------------------
  // Models and substitutions
  // ---------------------------------------------------------------------------

  /**
   * A finite interpretation: the domain individuals in order, the size the
   * generator was asked for, and the extension of each predicate letter
   * (the source keeps these as properties `P`, `Q`, ... of the model object).
   */
  datatype Model = Model(domain: seq<string>, domainSize: nat, ext: map<string, seq<string>>)

  predicate NoDuplicates<T(==)>(s: seq<T>) {
    forall i, j :: 0 <= i < j < |s| ==> s[i] != s[j]
  }

  /** Every extension is a subset of the domain. */
  predicate ExtensionsInDomain(m: Model) {
    forall k, x :: k in m.ext && x in m.ext[k] ==> x in m.domain
  }

  /** The model invariant: no individual twice, no extension outside the domain. */
  predicate Valid(m: Model) {
    NoDuplicates(m.domain) && ExtensionsInDomain(m)
  }

  /**
   * A substitution: a plain object of the source, kept as its keys in
   * insertion order with their values, since the renderer visits the keys in
   * that order.
   */
  type Subst = seq<(string, string)>

  /** `subs[key]`: the value of the first binding of `key`, `None` for `undefined`. */
  function Lookup(s: Subst, key: string): Option<string> {
    if |s| == 0 then None
    else if s[0].0 == key then Some(s[0].1)
    else Lookup(s[1..], key)
  }

  predicate DistinctKeys(s: Subst) {
    forall i, j :: 0 <= i < j < |s| ==> s[i].0 != s[j].0
  }

  /** The template placeholder letters, in order; a template with `k` predicates uses the first `k`. */
  const PLACEHOLDERS: seq<string> := ["P", "Q", "R", "S", "T"]
  /** Positions of the placeholders the catalog's templates use. */
  const P: nat := 0
  const Q: nat := 1
  const R: nat := 2
  /** The one constant placeholder the catalog's templates use. */
  const CONSTANT: string := "c"

  /** Placeholder `i` is bound by `s` to a predicate letter that has an extension in `m`. */
  predicate Bound(m: Model, s: Subst, i: nat) {
    i < |PLACEHOLDERS| && Lookup(s, PLACEHOLDERS[i]).Some? && Lookup(s, PLACEHOLDERS[i]).value in m.ext
  }

  /**
   * The first `k` placeholders are bound. An evaluator reads `model[subs.P]`
   * and so on; without this the source fails with a type error.
   */
  predicate Binds(m: Model, s: Subst, k: nat) {
    forall i: nat :: i < k && i < |PLACEHOLDERS| ==> Bound(m, s, i)
  }

  /** `model[subs.X]`, the extension placeholder `i` stands for. */
  function Ext(m: Model, s: Subst, i: nat): seq<string>
    requires Bound(m, s, i)
  {
    m.ext[Lookup(s, PLACEHOLDERS[i]).value]
  }

  /** `model[subs.X].includes(x)`. */
  predicate In(m: Model, s: Subst, i: nat, x: string)
    requires Bound(m, s, i)
  {
    x in Ext(m, s, i)
  }

  /** `model[subs.X].includes(subs.c)`; an unbound constant is `undefined` and is never included. */
  predicate ConstIn(m: Model, s: Subst, i: nat)
    requires Bound(m, s, i)
  {
    var c := Lookup(s, CONSTANT);
    c.Some? && c.value in Ext(m, s, i)
  }

  // ---------------------------------------------------------------------------
  // The catalog
  // ---------------------------------------------------------------------------

  /**
   * The arity and requirement metadata of one catalog entry. The two `has...`
   * flags say whether the entry defines `checkWitness` or `checkCounterexample`.
   */
  datatype TemplateInfo = TemplateInfo(
    stage: nat,
    predicates: nat,
    constants: nat,
    requiresWitness: bool,
    requiresCounterexample: bool,
    hasWitnessCheck: bool,
    hasCounterexampleCheck: bool)

  /** One constructor per catalog entry; `Id`, `Pattern` and `Info` are the table of their fields. */
  datatype Template =
    // stage 0: sentences about a constant
    | AtomicPos | AtomicNeg | Conjunction | Disjunction | Conditional
    | ConditionalNegatedConsequent | DisjunctionWithThree | DisjunctionNegFirst | Tautology
    // stage 1: existentials
    | SimpleExistential | ExistentialConjunction2Pred | ExistentialConjunction3Pred
    | ExistentialDisjunction | ExistentialWithNegation | ExistentialNegatedFirst
    | ExistentialNegatedPredicate | ExistentialConditional
    // stage 2: universals
    | SimpleUniversal | UniversalNegation | UniversalConditional2Pred
    | UniversalConditionalDisjunction | UniversalDisjunction | UniversalConjunction
    | UniversalBiconditional | UniversalTautology
    // stage 3: scope distinctions and mixed quantifiers
    | SeparateExistentials | SingleExistentialConjunction | SeparateUniversals
    | UniversalOverDisjunction | ExistentialImpliesUniversal | UniversalImpliesExistential
    | ExistentialAndNegatedExistential | NegatedExistential | NegatedUniversal
  {
    /** The entry's `id`. */
    function Id(): string {
      match this
      case AtomicPos => "stage0_atomic_pos"
      case AtomicNeg => "stage0_atomic_neg"
      case Conjunction => "stage0_conjunction"
      case Disjunction => "stage0_disjunction"
      case Conditional => "stage0_conditional"
      case ConditionalNegatedConsequent => "stage0_conditional_negated_consequent"
      case DisjunctionWithThree => "stage0_disjunction_with_three"
      case DisjunctionNegFirst => "stage0_disjunction_neg_first"
      case Tautology => "stage0_tautology"
      case SimpleExistential => "stage1_simple_existential"
      case ExistentialConjunction2Pred => "stage1_existential_conjunction_2pred"
      case ExistentialConjunction3Pred => "stage1_existential_conjunction_3pred"
      case ExistentialDisjunction => "stage1_existential_disjunction"
      case ExistentialWithNegation => "stage1_existential_with_negation"
      case ExistentialNegatedFirst => "stage1_existential_negated_first"
      case ExistentialNegatedPredicate => "stage1_existential_negated_predicate"
      case ExistentialConditional => "stage1_existential_conditional"
      case SimpleUniversal => "stage2_simple_universal"
      case UniversalNegation => "stage2_universal_negation"
      case UniversalConditional2Pred => "stage2_universal_conditional_2pred"
      case UniversalConditionalDisjunction => "stage2_universal_conditional_disjunction"
      case UniversalDisjunction => "stage2_universal_disjunction"
      case UniversalConjunction => "stage2_universal_conjunction"
      case UniversalBiconditional => "stage2_universal_biconditional"
      case UniversalTautology => "stage2_universal_tautology"
      case SeparateExistentials => "stage3_separate_existentials"
      case SingleExistentialConjunction => "stage3_single_existential_conjunction"
      case SeparateUniversals => "stage3_separate_universals"
      case UniversalOverDisjunction => "stage3_universal_disjunction"
      case ExistentialImpliesUniversal => "stage3_existential_implies_universal"
      case UniversalImpliesExistential => "stage3_universal_implies_existential"
      case ExistentialAndNegatedExistential => "stage3_existential_and_negated_existential"
      case NegatedExistential => "stage3_negated_existential"
      case NegatedUniversal => "stage3_negated_universal"
    }

    /** The entry's `formula_template`: predicate placeholders applied to `c` or `x`. */
    function Pattern(): string {
      match this
      case AtomicPos => "P(c)"
      case AtomicNeg => "¬P(c)"
      case Conjunction => "P(c) ∧ Q(c)"
      case Disjunction => "P(c) ∨ Q(c)"
      case Conditional => "P(c) → Q(c)"
      case ConditionalNegatedConsequent => "P(c) → ¬Q(c)"
      case DisjunctionWithThree => "P(c) ∨ (Q(c) ∨ R(c))"
      case DisjunctionNegFirst => "¬P(c) ∨ Q(c)"
      case Tautology => "P(c) ∨ ¬P(c)"
      case SimpleExistential => "∃xP(x)"
      case ExistentialConjunction2Pred => "∃x(P(x) ∧ Q(x))"
      case ExistentialConjunction3Pred => "∃x(P(x) ∧ Q(x) ∧ R(x))"
      case ExistentialDisjunction => "∃x(P(x) ∨ Q(x))"
      case ExistentialWithNegation => "∃x(P(x) ∧ ¬Q(x))"
      case ExistentialNegatedFirst => "∃x(¬P(x) ∧ Q(x))"
      case ExistentialNegatedPredicate => "∃x¬P(x)"
      case ExistentialConditional => "∃x(P(x) → Q(x))"
      case SimpleUniversal => "∀xP(x)"
      case UniversalNegation => "∀x¬P(x)"
      case UniversalConditional2Pred => "∀x(P(x) → Q(x))"
      case UniversalConditionalDisjunction => "∀x(P(x) → (Q(x) ∨ R(x)))"
      case UniversalDisjunction => "∀x(P(x) ∨ Q(x))"
      case UniversalConjunction => "∀x(P(x) ∧ Q(x))"
      case UniversalBiconditional => "∀x(P(x) ↔ ¬Q(x))"
      case UniversalTautology => "∀x(P(x) ∨ ¬P(x))"
      case SeparateExistentials => "∃xP(x) ∧ ∃xQ(x)"
      case SingleExistentialConjunction => "∃x(P(x) ∧ Q(x))"
      case SeparateUniversals => "∀xP(x) ∨ ∀xQ(x)"
      case UniversalOverDisjunction => "∀x(P(x) ∨ Q(x))"
      case ExistentialImpliesUniversal => "∃xP(x) → ∀xQ(x)"
      case UniversalImpliesExistential => "∀xP(x) → ∃xQ(x)"
      case ExistentialAndNegatedExistential => "∃xP(x) ∧ ∃x¬P(x)"
      case NegatedExistential => "¬∃xP(x)"
      case NegatedUniversal => "¬∀xP(x)"
    }

    function Info(): TemplateInfo {
      match this
      case AtomicPos =>
        TemplateInfo(0, 1, 1, false, false, false, false)
      case AtomicNeg =>
        TemplateInfo(0, 1, 1, false, false, false, false)
      case Conjunction =>
        TemplateInfo(0, 2, 1, false, false, false, false)
      case Disjunction =>
        TemplateInfo(0, 2, 1, false, false, false, false)
      case Conditional =>
        TemplateInfo(0, 2, 1, false, false, false, false)
      case ConditionalNegatedConsequent =>
        TemplateInfo(0, 2, 1, false, false, false, false)
      case DisjunctionWithThree =>
        TemplateInfo(0, 3, 1, false, false, false, false)
      case DisjunctionNegFirst =>
        TemplateInfo(0, 2, 1, false, false, false, false)
      case Tautology =>
        TemplateInfo(0, 1, 1, false, false, false, false)
      case SimpleExistential =>
        TemplateInfo(1, 1, 0, true, false, true, false)
      case ExistentialConjunction2Pred =>
        TemplateInfo(1, 2, 0, true, false, true, false)
      case ExistentialConjunction3Pred =>
        TemplateInfo(1, 3, 0, true, false, true, false)
      case ExistentialDisjunction =>
        TemplateInfo(1, 2, 0, true, false, true, false)
      case ExistentialWithNegation =>
        TemplateInfo(1, 2, 0, true, false, true, false)
      case ExistentialNegatedFirst =>
        TemplateInfo(1, 2, 0, true, false, true, false)
      case ExistentialNegatedPredicate =>
        TemplateInfo(1, 1, 0, true, false, true, false)
      case ExistentialConditional =>
        TemplateInfo(1, 2, 0, true, false, true, false)
      case SimpleUniversal =>
        TemplateInfo(2, 1, 0, false, true, false, true)
      case UniversalNegation =>
        TemplateInfo(2, 1, 0, false, true, false, true)
      case UniversalConditional2Pred =>
        TemplateInfo(2, 2, 0, false, true, false, true)
      case UniversalConditionalDisjunction =>
        TemplateInfo(2, 3, 0, false, true, false, true)
      case UniversalDisjunction =>
        TemplateInfo(2, 2, 0, false, true, false, true)
      case UniversalConjunction =>
        TemplateInfo(2, 2, 0, false, true, false, true)
      case UniversalBiconditional =>
        TemplateInfo(2, 2, 0, false, true, false, true)
      case UniversalTautology =>
        TemplateInfo(2, 1, 0, false, false, false, true)
      case SeparateExistentials =>
        TemplateInfo(3, 2, 0, false, false, false, false)
      case SingleExistentialConjunction =>
        TemplateInfo(3, 2, 0, false, false, false, false)
      case SeparateUniversals =>
        TemplateInfo(3, 2, 0, false, false, false, false)
      case UniversalOverDisjunction =>
        TemplateInfo(3, 2, 0, false, false, false, false)
      case ExistentialImpliesUniversal =>
        TemplateInfo(3, 2, 0, false, false, false, false)
      case UniversalImpliesExistential =>
        TemplateInfo(3, 2, 0, false, false, false, false)
      case ExistentialAndNegatedExistential =>
        TemplateInfo(3, 1, 0, false, false, false, false)
      case NegatedExistential =>
        TemplateInfo(3, 1, 0, false, false, false, false)
      case NegatedUniversal =>
        TemplateInfo(3, 1, 0, false, false, false, false)
    }
  }

  // ---------------------------------------------------------------------------
  // Evaluators
  // ---------------------------------------------------------------------------

  /** The entry's `checkAnswer(model, subs)`: the truth value of the instantiated sentence. */
  predicate Truth(t: Template, m: Model, s: Subst)
    requires Binds(m, s, t.Info().predicates)
  {
    match t
    case AtomicPos => ConstIn(m, s, P)
    case AtomicNeg => !ConstIn(m, s, P)
    case Conjunction => ConstIn(m, s, P) && ConstIn(m, s, Q)
    case Disjunction => ConstIn(m, s, P) || ConstIn(m, s, Q)
    case Conditional => !ConstIn(m, s, P) || ConstIn(m, s, Q)
    case ConditionalNegatedConsequent => !ConstIn(m, s, P) || !ConstIn(m, s, Q)
    case DisjunctionWithThree => ConstIn(m, s, P) || ConstIn(m, s, Q) || ConstIn(m, s, R)
    case DisjunctionNegFirst => !ConstIn(m, s, P) || ConstIn(m, s, Q)
    case Tautology => true

    case SimpleExistential => |Ext(m, s, P)| > 0
    case ExistentialConjunction2Pred =>
      exists x :: x in m.domain && In(m, s, P, x) && In(m, s, Q, x)
    case ExistentialConjunction3Pred =>
      exists x :: x in m.domain && In(m, s, P, x) && In(m, s, Q, x) && In(m, s, R, x)
    case ExistentialDisjunction =>
      exists x :: x in m.domain && (In(m, s, P, x) || In(m, s, Q, x))
    case ExistentialWithNegation =>
      exists x :: x in m.domain && In(m, s, P, x) && !In(m, s, Q, x)
    case ExistentialNegatedFirst =>
      exists x :: x in m.domain && !In(m, s, P, x) && In(m, s, Q, x)
    case ExistentialNegatedPredicate =>
      exists x :: x in m.domain && !In(m, s, P, x)
    case ExistentialConditional =>
      exists x :: x in m.domain && (!In(m, s, P, x) || In(m, s, Q, x))

    case SimpleUniversal =>
      forall x :: x in m.domain ==> In(m, s, P, x)
    case UniversalNegation =>
      forall x :: x in m.domain ==> !In(m, s, P, x)
    case UniversalConditional2Pred =>
      forall x :: x in m.domain ==> !In(m, s, P, x) || In(m, s, Q, x)
    case UniversalConditionalDisjunction =>
      forall x :: x in m.domain ==> !In(m, s, P, x) || In(m, s, Q, x) || In(m, s, R, x)
    case UniversalDisjunction =>
      forall x :: x in m.domain ==> In(m, s, P, x) || In(m, s, Q, x)
    case UniversalConjunction =>
      forall x :: x in m.domain ==> In(m, s, P, x) && In(m, s, Q, x)
    case UniversalBiconditional =>
      forall x :: x in m.domain ==>
        (In(m, s, P, x) && !In(m, s, Q, x)) || (!In(m, s, P, x) && In(m, s, Q, x))
    case UniversalTautology => true

    case SeparateExistentials => |Ext(m, s, P)| > 0 && |Ext(m, s, Q)| > 0
    case SingleExistentialConjunction =>
      exists x :: x in m.domain && In(m, s, P, x) && In(m, s, Q, x)
    case SeparateUniversals =>
      (forall x :: x in m.domain ==> In(m, s, P, x)) || (forall x :: x in m.domain ==> In(m, s, Q, x))
    case UniversalOverDisjunction =>
      forall x :: x in m.domain ==> In(m, s, P, x) || In(m, s, Q, x)
    case ExistentialImpliesUniversal =>
      |Ext(m, s, P)| == 0 || forall x :: x in m.domain ==> In(m, s, Q, x)
    case UniversalImpliesExistential =>
      !(forall x :: x in m.domain ==> In(m, s, P, x)) || |Ext(m, s, Q)| > 0
    case ExistentialAndNegatedExistential =>
      |Ext(m, s, P)| > 0 && exists x :: x in m.domain && !In(m, s, P, x)
    case NegatedExistential => |Ext(m, s, P)| == 0
    case NegatedUniversal => !(forall x :: x in m.domain ==> In(m, s, P, x))
  }

  /**
   * The entry's `checkWitness(person, model, subs)`. Only the existential
   * entries define one; calling it on another entry fails in the source.
   */
  predicate CheckWitness(t: Template, person: string, m: Model, s: Subst)
    requires t.Info().hasWitnessCheck && Binds(m, s, t.Info().predicates)
  {
    match t
    case SimpleExistential => In(m, s, P, person)
    case ExistentialConjunction2Pred => In(m, s, P, person) && In(m, s, Q, person)
    case ExistentialConjunction3Pred => In(m, s, P, person) && In(m, s, Q, person) && In(m, s, R, person)
    case ExistentialDisjunction => In(m, s, P, person) || In(m, s, Q, person)
    case ExistentialWithNegation => In(m, s, P, person) && !In(m, s, Q, person)
    case ExistentialNegatedFirst => !In(m, s, P, person) && In(m, s, Q, person)
    case ExistentialNegatedPredicate => !In(m, s, P, person)
    case ExistentialConditional => !In(m, s, P, person) || In(m, s, Q, person)
    case _ => false
  }

  /**
   * The entry's `checkCounterexample(person, model, subs)`. Only the universal
   * entries define one; calling it on another entry fails in the source.
   */
  predicate CheckCounterexample(t: Template, person: string, m: Model, s: Subst)
    requires t.Info().hasCounterexampleCheck && Binds(m, s, t.Info().predicates)
  {
    match t
    case SimpleUniversal => !In(m, s, P, person)
    case UniversalNegation => In(m, s, P, person)
    case UniversalConditional2Pred => In(m, s, P, person) && !In(m, s, Q, person)
    case UniversalConditionalDisjunction =>
      In(m, s, P, person) && !In(m, s, Q, person) && !In(m, s, R, person)
    case UniversalDisjunction => !In(m, s, P, person) && !In(m, s, Q, person)
    case UniversalConjunction => !In(m, s, P, person) || !In(m, s, Q, person)
    case UniversalBiconditional =>
      (In(m, s, P, person) && In(m, s, Q, person)) || (!In(m, s, P, person) && !In(m, s, Q, person))
    case UniversalTautology => false
    case _ => false
  }

  // ---------------------------------------------------------------------------
  // Stage lists and lookups
  // ---------------------------------------------------------------------------

  const STAGE0: seq<Template> := [AtomicPos, AtomicNeg, Conjunction, Disjunction, Conditional,
    ConditionalNegatedConsequent, DisjunctionWithThree, DisjunctionNegFirst, Tautology]
  const STAGE1: seq<Template> := [SimpleExistential, ExistentialConjunction2Pred,
    ExistentialConjunction3Pred, ExistentialDisjunction, ExistentialWithNegation,
    ExistentialNegatedFirst, ExistentialNegatedPredicate, ExistentialConditional]
  const STAGE2: seq<Template> := [SimpleUniversal, UniversalNegation, UniversalConditional2Pred,
    UniversalConditionalDisjunction, UniversalDisjunction, UniversalConjunction,
    UniversalBiconditional, UniversalTautology]
  const STAGE3: seq<Template> := [SeparateExistentials, SingleExistentialConjunction,
    SeparateUniversals, UniversalOverDisjunction, ExistentialImpliesUniversal,
    UniversalImpliesExistential, ExistentialAndNegatedExistential, NegatedExistential,
    NegatedUniversal]

  // Every entry of a stage list declares that stage.
  lemma Stage0Homogeneous() ensures forall t :: t in STAGE0 ==> t.Info().stage == 0 {}
  lemma Stage1Homogeneous() ensures forall t :: t in STAGE1 ==> t.Info().stage == 1 {}
  lemma Stage2Homogeneous() ensures forall t :: t in STAGE2 ==> t.Info().stage == 2 {}
  lemma Stage3Homogeneous() ensures forall t :: t in STAGE3 ==> t.Info().stage == 3 {}

  /**
   * `getProblemsByStage(stage)`: the entries of stage `stage`, in catalog
   * order, and the empty list for a stage the catalog does not have.
   */
  function ProblemsByStage(stage: int): (r: seq<Template>)
    ensures r != [] <==> 0 <= stage <= 3
    ensures forall t :: t in r ==> t.Info().stage == stage
  {
    if stage == 0 then Stage0Homogeneous(); STAGE0
    else if stage == 1 then Stage1Homogeneous(); STAGE1
    else if stage == 2 then Stage2Homogeneous(); STAGE2
    else if stage == 3 then Stage3Homogeneous(); STAGE3
    else []
  }

  /**
   * `getRandomProblemFromStage(stage)` with the random index `draw` passed in
   * (it lies below the stage's length, and is 0 for an empty stage, where
   * the source yields `undefined`).
   */
  function RandomProblemFromStage(stage: int, draw: nat): (r: Option<Template>)
    requires draw < |ProblemsByStage(stage)| || draw == 0
    ensures r.Some? <==> 0 <= stage <= 3
    ensures r.Some? ==> r.value in ProblemsByStage(stage) && r.value.Info().stage == stage
  {
    var problems := ProblemsByStage(stage);
    if draw < |problems| then Some(problems[draw]) else None
  }

  /** `getAllProblems()`: every stage's entries, stage 0 first. */
  function AllProblems(): (r: seq<Template>)
    ensures |r| == |STAGE0| + |STAGE1| + |STAGE2| + |STAGE3| == 34
    ensures forall i, j :: 0 <= i < j < |r| ==> r[i].Info().stage <= r[j].Info().stage
  {
    ProblemsByStage(0) + ProblemsByStage(1) + ProblemsByStage(2) + ProblemsByStage(3)
  }
}
