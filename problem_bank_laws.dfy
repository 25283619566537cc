/**
 * What the catalog's evaluators promise about each other: the tautologies,
 * the quantifier-negation pairs, the two scope distinctions, and that a
 * witness (counterexample) check agrees with the truth evaluator it belongs to.
 */
module ProblemBankLaws {
  import opened Wrappers
  import opened ProblemBank

  /** Placeholder `i`'s extension lies inside the domain. */
  predicate SubsetOfDomain(m: Model, s: Subst, i: nat)
    requires Bound(m, s, i)
  {
    forall x :: x in Ext(m, s, i) ==> x in m.domain
  }

  lemma ValidExtensionsInDomain(m: Model, s: Subst, i: nat)
    requires Valid(m) && Bound(m, s, i)
    ensures SubsetOfDomain(m, s, i)
  {
  }

  // ---------------------------------------------------------------------------
  // Tautologies
  // ---------------------------------------------------------------------------

  /**
   * Both tautology entries are true in every model, and the universal one has no
   * counterexample. The tautologies' evaluators read no extension, but `Truth` asks every entry's
   * placeholders to be bound; the quiz generator always binds P.
   */
  lemma TautologiesHold(m: Model, s: Subst, person: string)
    requires Binds(m, s, 1)
    ensures Truth(Tautology, m, s)
    ensures Truth(UniversalTautology, m, s)
    ensures !CheckCounterexample(UniversalTautology, person, m, s)
  {
  }

  // ---------------------------------------------------------------------------
  // Negated quantifiers
  // ---------------------------------------------------------------------------

  /**
   * `¬∃xP(x)`, computed as "P's extension is empty", agrees with `∀x¬P(x)`
   * whenever P's extension lies inside the domain.
   */
  lemma {:induction false} NegatedExistentialIsUniversalNegation(m: Model, s: Subst)
    requires Binds(m, s, 1)
    requires SubsetOfDomain(m, s, P)
    ensures Truth(NegatedExistential, m, s) == Truth(UniversalNegation, m, s)
  {
    if |Ext(m, s, P)| > 0 {
      var x := Ext(m, s, P)[0];
      assert x in m.domain && In(m, s, P, x);
    }
  }

  /** Without that, the two can disagree: an empty domain and a non-empty extension. */
  lemma NegatedExistentialNeedsSubset()
    ensures var m := Model([], 0, map["P" := ["alice"]]);
            var s: Subst := [("P", "P")];
            Binds(m, s, 1) && !SubsetOfDomain(m, s, P) &&
            Truth(NegatedExistential, m, s) != Truth(UniversalNegation, m, s)
  {
    var m := Model([], 0, map["P" := ["alice"]]);
    var s: Subst := [("P", "P")];
    assert Lookup(s, PLACEHOLDERS[P]) == Some("P");
    assert Bound(m, s, P);
    assert Ext(m, s, P) == ["alice"];
    assert "alice" in Ext(m, s, P) && "alice" !in m.domain;
  }

  /** `¬∀xP(x)` agrees with `∃x¬P(x)` in every model. */
  lemma NegatedUniversalIsExistentialNegation(m: Model, s: Subst)
    requires Binds(m, s, 1)
    ensures Truth(NegatedUniversal, m, s) == Truth(ExistentialNegatedPredicate, m, s)
  {
  }

  // ---------------------------------------------------------------------------
  // Scope distinctions
  // ---------------------------------------------------------------------------

  /** `∃x(P(x) ∧ Q(x))` implies `∃xP(x) ∧ ∃xQ(x)`. */
  lemma {:induction false} SameWitnessImpliesSeparateWitnesses(m: Model, s: Subst)
    requires Binds(m, s, 2)
    ensures Truth(SingleExistentialConjunction, m, s) ==> Truth(SeparateExistentials, m, s)
  {
    if Truth(SingleExistentialConjunction, m, s) {
      var x :| x in m.domain && In(m, s, P, x) && In(m, s, Q, x);
      assert x in Ext(m, s, P) && x in Ext(m, s, Q);
    }
  }

  /** `∀xP(x) ∨ ∀xQ(x)` implies `∀x(P(x) ∨ Q(x))`. */
  lemma DomainChoiceImpliesPerIndividualChoice(m: Model, s: Subst)
    requires Binds(m, s, 2)
    ensures Truth(SeparateUniversals, m, s) ==> Truth(UniversalOverDisjunction, m, s)
  {
  }

  /** Stage 1's and stage 3's copies of `∃x(P(x) ∧ Q(x))`, and stage 2's and stage 3's copies of `∀x(P(x) ∨ Q(x))`, agree. */
  lemma DuplicatedFormulasAgree(m: Model, s: Subst)
    requires Binds(m, s, 2)
    ensures Truth(ExistentialConjunction2Pred, m, s) == Truth(SingleExistentialConjunction, m, s)
    ensures Truth(UniversalDisjunction, m, s) == Truth(UniversalOverDisjunction, m, s)
  {
  }

  /** Domain {alice, bob} with P = {alice} and Q = {bob}. */
  function DisjointModel(): (m: Model)
    ensures Valid(m)
  {
    Model(["alice", "bob"], 2, map["P" := ["alice"], "Q" := ["bob"]])
  }

  /**
   * The substitution binding P to P and Q to Q; `Instantiator.TwoPredicateSubstitution`
   * shows it is what the quiz generator builds for a two-predicate entry without constants.
   */
  function IdentityPQ(): (s: Subst)
    ensures Lookup(s, "P") == Some("P") && Lookup(s, "Q") == Some("Q")
  {
    [("P", "P"), ("Q", "Q")]
  }

  /** The identity substitution binds both placeholders in the disjoint model. */
  lemma {:induction false} DisjointModelBinds()
    ensures Binds(DisjointModel(), IdentityPQ(), 2)
    ensures Ext(DisjointModel(), IdentityPQ(), P) == ["alice"]
    ensures Ext(DisjointModel(), IdentityPQ(), Q) == ["bob"]
  {
    var m, s := DisjointModel(), IdentityPQ();
    assert Lookup(s, PLACEHOLDERS[P]) == Some("P") && Lookup(s, PLACEHOLDERS[Q]) == Some("Q");
    assert Bound(m, s, P) && Bound(m, s, Q);
  }

  /** The converse of `SameWitnessImpliesSeparateWitnesses` fails in the disjoint model. */
  lemma {:induction false} ExistentialScopeIsStrict()
    ensures Binds(DisjointModel(), IdentityPQ(), 2)
    ensures Truth(SeparateExistentials, DisjointModel(), IdentityPQ())
    ensures !Truth(SingleExistentialConjunction, DisjointModel(), IdentityPQ())
  {
    DisjointModelBinds();
    var m, s := DisjointModel(), IdentityPQ();
    assert forall x :: x in m.domain ==> !(In(m, s, P, x) && In(m, s, Q, x));
  }

  /** The converse of `DomainChoiceImpliesPerIndividualChoice` fails in the disjoint model. */
  lemma {:induction false} UniversalScopeIsStrict()
    ensures Binds(DisjointModel(), IdentityPQ(), 2)
    ensures Truth(UniversalOverDisjunction, DisjointModel(), IdentityPQ())
    ensures !Truth(SeparateUniversals, DisjointModel(), IdentityPQ())
  {
    DisjointModelBinds();
    var m, s := DisjointModel(), IdentityPQ();
    assert "alice" in m.domain && !In(m, s, Q, "alice");
    assert "bob" in m.domain && !In(m, s, P, "bob");
    assert forall x :: x in m.domain ==> x == "alice" || x == "bob";
  }

  // ---------------------------------------------------------------------------
  // Witnesses and counterexamples
  // ---------------------------------------------------------------------------

  /**
   * An existential entry is true exactly when some individual of the domain
   * passes its witness check. `∃xP(x)` is computed from the length of P's
   * extension, so for it the extension must lie inside the domain.
   */
  lemma {:induction false} WitnessCharacterizesTruth(t: Template, m: Model, s: Subst)
    requires t.Info().requiresWitness && Binds(m, s, t.Info().predicates)
    requires t == SimpleExistential ==> SubsetOfDomain(m, s, P)
    ensures Truth(t, m, s) <==> exists x :: x in m.domain && CheckWitness(t, x, m, s)
  {
    if t == SimpleExistential && |Ext(m, s, P)| > 0 {
      var x := Ext(m, s, P)[0];
      assert x in m.domain && CheckWitness(t, x, m, s);
    }
  }

  /** A universal entry that requires a counterexample is false exactly when some individual of the domain is one. */
  lemma CounterexampleCharacterizesFalsity(t: Template, m: Model, s: Subst)
    requires t.Info().requiresCounterexample && Binds(m, s, t.Info().predicates)
    ensures !Truth(t, m, s) <==> exists x :: x in m.domain && CheckCounterexample(t, x, m, s)
  {
  }

  // ---------------------------------------------------------------------------
  // The stage lists
  // ---------------------------------------------------------------------------

  /** Every entry is in one of the four stage lists. */
  lemma {:induction false} Covered(t: Template)
    ensures t in STAGE0 || t in STAGE1 || t in STAGE2 || t in STAGE3
  {
    match t
    case AtomicPos =>
    case AtomicNeg =>
    case Conjunction =>
    case Disjunction =>
    case Conditional =>
    case ConditionalNegatedConsequent =>
    case DisjunctionWithThree =>
    case DisjunctionNegFirst =>
    case Tautology =>
    case SimpleExistential =>
    case ExistentialConjunction2Pred =>
    case ExistentialConjunction3Pred =>
    case ExistentialDisjunction =>
    case ExistentialWithNegation =>
    case ExistentialNegatedFirst =>
    case ExistentialNegatedPredicate =>
    case ExistentialConditional =>
    case SimpleUniversal =>
    case UniversalNegation =>
    case UniversalConditional2Pred =>
    case UniversalConditionalDisjunction =>
    case UniversalDisjunction =>
    case UniversalConjunction =>
    case UniversalBiconditional =>
    case UniversalTautology =>
    case SeparateExistentials =>
    case SingleExistentialConjunction =>
    case SeparateUniversals =>
    case UniversalOverDisjunction =>
    case ExistentialImpliesUniversal =>
    case UniversalImpliesExistential =>
    case ExistentialAndNegatedExistential =>
    case NegatedExistential =>
    case NegatedUniversal =>
  }

  /** Every entry declares a stage from 0 to 3 and is listed under it. */
  lemma ListedUnderItsStage(t: Template)
    ensures 0 <= t.Info().stage <= 3 && t in ProblemsByStage(t.Info().stage)
  {
    Covered(t);
    Stage0Homogeneous();
    Stage1Homogeneous();
    Stage2Homogeneous();
    Stage3Homogeneous();
  }

  /** An entry is listed under a stage exactly when it declares that stage, and every entry is listed by `AllProblems`. */
  lemma StageMembership(t: Template, stage: int)
    ensures t in ProblemsByStage(stage) <==> t.Info().stage == stage
    ensures 0 <= t.Info().stage <= 3 && t in AllProblems()
  {
    ListedUnderItsStage(t);
    var all := AllProblems();
    assert all == ProblemsByStage(0) + ProblemsByStage(1) + ProblemsByStage(2) + ProblemsByStage(3);
  }
}
