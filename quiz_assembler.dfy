/**
 * Assembling a quiz: one random model, one constant, problems sampled stage by
 * stage and instantiated (`generateQuiz` in Quiz-Monadic-Truth/quiz_generator.js).
 */
module QuizAssembler {
  import opened Wrappers
  import opened ProblemBank
  import opened ModelGenerator
  import opened Instantiator

  /** The options of `generateQuiz`; `None` is an option left out, which takes its default. */
  datatype QuizOptions = QuizOptions(
    stage0Count: Option<nat>,
    stage1Count: Option<nat>,
    stage2Count: Option<nat>,
    stage3Count: Option<nat>,
    domainSize: Option<nat>)

  /** One instantiated problem of a quiz. */
  datatype Problem = Problem(
    number: nat,
    formula: string,
    template: Template,
    substitutions: Subst,
    stage: nat,
    requiresWitness: bool,
    requiresCounterexample: bool)

  /** A quiz: its model, the constant assignment, the problems, and the size metadata. */
  datatype Quiz = Quiz(
    model: Model,
    constants: map<string, string>,
    problems: seq<Problem>,
    domainSize: nat,
    totalProblems: nat)

  /** The number of predicates every generated model interprets. */
  const MAX_PREDICATES: nat := 3

  /** The number of constants every generated quiz assigns. */
  const NUM_CONSTANTS: nat := 1

  /** How many problems stage `stage` contributes: the option, or 1, 2, 2, 2 by default. */
  function StageCount(o: QuizOptions, stage: nat): (r: nat)
    requires stage < 4
    ensures stage == 0 && o.stage0Count.None? ==> r == 1
    ensures 1 <= stage && o.stage1Count.None? && o.stage2Count.None? && o.stage3Count.None? ==> r == 2
  {
    match stage
    case 0 => o.stage0Count.GetOr(1)
    case 1 => o.stage1Count.GetOr(2)
    case 2 => o.stage2Count.GetOr(2)
    case 3 => o.stage3Count.GetOr(2)
  }

  /** Each stage takes its own option when it is given and its own default otherwise, independently of the other stages. */
  lemma StageCountChoice(o: QuizOptions)
    ensures StageCount(o, 0) == if o.stage0Count.Some? then o.stage0Count.value else 1
    ensures StageCount(o, 1) == if o.stage1Count.Some? then o.stage1Count.value else 2
    ensures StageCount(o, 2) == if o.stage2Count.Some? then o.stage2Count.value else 2
    ensures StageCount(o, 3) == if o.stage3Count.Some? then o.stage3Count.value else 2
  {
  }

  /** The number of problems taken from the stages before `stage`. */
  function CountBefore(o: QuizOptions, stage: nat): nat
    requires stage <= 4
  {
    match stage
    case 0 => 0
    case 1 => StageCount(o, 0)
    case 2 => StageCount(o, 0) + StageCount(o, 1)
    case 3 => StageCount(o, 0) + StageCount(o, 1) + StageCount(o, 2)
    case 4 => StageCount(o, 0) + StageCount(o, 1) + StageCount(o, 2) + StageCount(o, 3)
  }

  /** The position, counted from 0, of the `j`-th problem drawn from `stage`. */
  function Position(o: QuizOptions, stage: nat, j: nat): nat
    requires stage < 4
  {
    CountBefore(o, stage) + j
  }

  /** The stage of the problem at position `i` of a quiz for options `o`. */
  function StageAt(o: QuizOptions, i: nat): (r: nat)
    ensures r < 4
  {
    if i < CountBefore(o, 1) then 0
    else if i < CountBefore(o, 2) then 1
    else if i < CountBefore(o, 3) then 2
    else 3
  }

  /** `picks[stage][i]` is the random index of the `i`-th problem drawn from `stage`. */
  predicate PicksFit(o: QuizOptions, picks: seq<seq<nat>>) {
    |picks| == 4 &&
    (forall stage :: 0 <= stage < 4 ==> |picks[stage]| >= StageCount(o, stage)) &&
    forall stage, i :: 0 <= stage < 4 && 0 <= i < |picks[stage]| ==> picks[stage][i] < |ProblemsByStage(stage)|
  }

  /** The random choices of one `generateQuiz` call, passed in, are in range. */
  predicate QuizRandomnessFits(o: QuizOptions, sizeDraw: nat, coins: seq<seq<bool>>, constantDraws: seq<nat>, picks: seq<seq<nat>>) {
    && RandomnessFits(o.domainSize, MAX_PREDICATES, sizeDraw, coins)
    && |constantDraws| >= NUM_CONSTANTS
    && (forall i :: 0 <= i < |constantDraws| ==> constantDraws[i] < |Domain(DomainSize(o.domainSize, sizeDraw))|)
    && PicksFit(o, picks)
  }

  /** The first `n` problems drawn from `stage`, the `i`-th by the draw `draws[i]`. */
  function StageSample(stage: nat, draws: seq<nat>, n: nat): (r: seq<Template>)
    requires stage < 4 && n <= |draws|
    requires forall i :: 0 <= i < |draws| ==> draws[i] < |ProblemsByStage(stage)|
    ensures |r| == n
  {
    seq(n, i requires 0 <= i < n => RandomProblemFromStage(stage, draws[i]).value)
  }

  /** The `i`-th problem drawn from a stage is the catalog entry its draw indexes, and belongs to that stage. */
  lemma StageSampleDraws(stage: nat, draws: seq<nat>, n: nat)
    requires stage < 4 && n <= |draws|
    requires forall i :: 0 <= i < |draws| ==> draws[i] < |ProblemsByStage(stage)|
    ensures forall i :: 0 <= i < n ==>
      StageSample(stage, draws, n)[i] == ProblemsByStage(stage)[draws[i]] &&
      StageSample(stage, draws, n)[i].Info().stage == stage
  {
    forall i | 0 <= i < n
      ensures StageSample(stage, draws, n)[i] == ProblemsByStage(stage)[draws[i]]
      ensures StageSample(stage, draws, n)[i].Info().stage == stage
    {
      var problems := ProblemsByStage(stage);
      assert problems[draws[i]] in problems;
    }
  }

  /** The problems drawn for one stage: as many as the stage's count. */
  function Sample(o: QuizOptions, picks: seq<seq<nat>>, stage: nat): (r: seq<Template>)
    requires stage < 4 && PicksFit(o, picks)
    ensures |r| == StageCount(o, stage)
  {
    StageSample(stage, picks[stage], StageCount(o, stage))
  }

  /** The samples of the first `n` stages, in stage order. */
  function SelectionUpTo(o: QuizOptions, picks: seq<seq<nat>>, n: nat): (r: seq<Template>)
    requires PicksFit(o, picks) && n <= 4
    ensures |r| == CountBefore(o, n)
  {
    if n == 0 then [] else SelectionUpTo(o, picks, n - 1) + Sample(o, picks, n - 1)
  }

  /** `selectedProblems`: the samples of stages 0 to 3, in stage order. */
  function Selection(o: QuizOptions, picks: seq<seq<nat>>): (r: seq<Template>)
    requires PicksFit(o, picks)
    ensures |r| == CountBefore(o, 4)
  {
    SelectionUpTo(o, picks, 4)
  }

  /** The problem the `index`-th selected template becomes. */
  function Instantiate(t: Template, index: nat, constants: map<string, string>): Problem {
    var subs := Substitution(t, constants);
    Problem(index + 1, Render(t.Pattern(), subs), t, subs,
            t.Info().stage, t.Info().requiresWitness, t.Info().requiresCounterexample)
  }

  /** `ts.map((t, index) => f(t, index))`. */
  function MapIndexed<A, B>(f: (A, nat) -> B, ts: seq<A>): (r: seq<B>)
    ensures |r| == |ts|
  {
    seq(|ts|, i requires 0 <= i < |ts| => f(ts[i], i))
  }

  /** Mapping one more element appends its image. */
  lemma MapIndexedSnoc<A, B>(f: (A, nat) -> B, ts: seq<A>, n: nat)
    requires n < |ts|
    ensures MapIndexed(f, ts[..n + 1]) == MapIndexed(f, ts[..n]) + [f(ts[n], n)]
  {
    var prefix := ts[..n + 1];
    assert prefix[..n] == ts[..n];
  }

  /** `selectedProblems.map(...)`: each template instantiated at its position. */
  function Instantiations(ts: seq<Template>, constants: map<string, string>): (r: seq<Problem>)
    ensures |r| == |ts|
  {
    MapIndexed((t, i) => Instantiate(t, i, constants), ts)
  }

  /** The quiz `generateQuiz(options)` returns for the given random choices (metadata time stamp left out). */
  function QuizFor(o: QuizOptions, sizeDraw: nat, coins: seq<seq<bool>>, constantDraws: seq<nat>, picks: seq<seq<nat>>): Quiz
    requires QuizRandomnessFits(o, sizeDraw, coins, constantDraws, picks)
  {
    var model := RandomModel(o.domainSize, MAX_PREDICATES, sizeDraw, coins);
    RandomModelShape(o.domainSize, MAX_PREDICATES, sizeDraw, coins);
    var constants := Constants(model, NUM_CONSTANTS, constantDraws);
    var problems := Instantiations(Selection(o, picks), constants);
    Quiz(model, constants, problems, model.domainSize, |problems|)
  }

  /** Among the first `m` stages, the `j`-th draw of stage `k` sits at its position. */
  lemma {:induction false} SelectionUpToAt(o: QuizOptions, picks: seq<seq<nat>>, m: nat, k: nat, j: nat)
    requires PicksFit(o, picks) && k < m <= 4 && j < StageCount(o, k)
    ensures Position(o, k, j) < CountBefore(o, m)
    ensures SelectionUpTo(o, picks, m)[Position(o, k, j)] == Sample(o, picks, k)[j]
    decreases m
  {
    var init := SelectionUpTo(o, picks, m - 1);
    assert SelectionUpTo(o, picks, m) == init + Sample(o, picks, m - 1);
    if k < m - 1 {
      SelectionUpToAt(o, picks, m - 1, k, j);
    }
  }

  /** The block of stage `k`: its `j`-th draw sits at its position and is the stage-`k` entry that `picks[k][j]` indexes. */
  lemma SelectionBlock(o: QuizOptions, picks: seq<seq<nat>>, k: nat)
    requires PicksFit(o, picks) && k < 4
    ensures forall j :: 0 <= j < StageCount(o, k) ==>
      && Position(o, k, j) < |Selection(o, picks)|
      && Selection(o, picks)[Position(o, k, j)] == ProblemsByStage(k)[picks[k][j]]
      && Selection(o, picks)[Position(o, k, j)].Info().stage == k
  {
    StageSampleDraws(k, picks[k], StageCount(o, k));
    forall j | 0 <= j < StageCount(o, k)
      ensures && Position(o, k, j) < |Selection(o, picks)|
              && Selection(o, picks)[Position(o, k, j)] == ProblemsByStage(k)[picks[k][j]]
              && Selection(o, picks)[Position(o, k, j)].Info().stage == k
    {
      SelectionUpToAt(o, picks, 4, k, j);
    }
  }

  /**
   * The `j`-th problem drawn from stage `k` sits at position
   * `Position(o, k, j)` of the selection: it is the entry of stage `k`
   * that the `j`-th pick of that stage indexes.
   */
  lemma SelectionStages(o: QuizOptions, picks: seq<seq<nat>>)
    requires PicksFit(o, picks)
    ensures forall k, j :: 0 <= k < 4 && 0 <= j < StageCount(o, k) ==>
      && Position(o, k, j) < |Selection(o, picks)|
      && Selection(o, picks)[Position(o, k, j)] == ProblemsByStage(k)[picks[k][j]]
      && Selection(o, picks)[Position(o, k, j)].Info().stage == k
  {
    forall k | 0 <= k < 4
      ensures forall j :: 0 <= j < StageCount(o, k) ==>
        && Position(o, k, j) < |Selection(o, picks)|
        && Selection(o, picks)[Position(o, k, j)] == ProblemsByStage(k)[picks[k][j]]
        && Selection(o, picks)[Position(o, k, j)].Info().stage == k
    {
      SelectionBlock(o, picks, k);
    }
  }

  /** Position `i` lies in the block of the stage `StageAt(o, i)` names. */
  lemma StageAtBlock(o: QuizOptions, i: nat)
    requires i < CountBefore(o, 4)
    ensures CountBefore(o, StageAt(o, i)) <= i < CountBefore(o, StageAt(o, i) + 1)
  {
  }

  /** Position `i` of the selection holds a template of stage `StageAt(o, i)`. */
  lemma SelectionStageAt(o: QuizOptions, picks: seq<seq<nat>>, i: nat)
    requires PicksFit(o, picks) && i < |Selection(o, picks)|
    ensures Selection(o, picks)[i].Info().stage == StageAt(o, i)
  {
    StageAtBlock(o, i);
    var k := StageAt(o, i);
    SelectionBlock(o, picks, k);
    var j := i - CountBefore(o, k);
    assert Position(o, k, j) == i;
  }

  /** `StageAt` never decreases along the positions. */
  lemma StageAtMonotone(o: QuizOptions, i: nat, j: nat)
    requires i <= j
    ensures StageAt(o, i) <= StageAt(o, j)
  {
  }

  /** The stages of the selection never decrease: all stage-0 problems come first, then stage 1, 2 and 3. */
  lemma SelectionStagesAscend(o: QuizOptions, picks: seq<seq<nat>>)
    requires PicksFit(o, picks)
    ensures forall i, j :: 0 <= i <= j < |Selection(o, picks)| ==>
      Selection(o, picks)[i].Info().stage <= Selection(o, picks)[j].Info().stage
  {
    forall i, j | 0 <= i <= j < |Selection(o, picks)|
      ensures Selection(o, picks)[i].Info().stage <= Selection(o, picks)[j].Info().stage
    {
      SelectionStageAt(o, picks, i);
      SelectionStageAt(o, picks, j);
      StageAtMonotone(o, i, j);
    }
  }

  /** A template of the catalog never uses more than three predicate placeholders. */
  lemma PredicatesWithinModel(t: Template)
    ensures 1 <= t.Info().predicates <= MAX_PREDICATES
  {
  }

  /** The model of a generated quiz is valid, interprets `P`, `Q`, `R`, and `c` denotes the drawn member. */
  lemma {:induction false} QuizModelShape(o: QuizOptions, sizeDraw: nat, coins: seq<seq<bool>>, constantDraws: seq<nat>, picks: seq<seq<nat>>)
    requires QuizRandomnessFits(o, sizeDraw, coins, constantDraws, picks)
    ensures var q := QuizFor(o, sizeDraw, coins, constantDraws, picks);
      && Valid(q.model)
      && q.domainSize == q.model.domainSize == DomainSize(o.domainSize, sizeDraw)
      && q.model.domain == Domain(q.domainSize)
      && q.model.ext.Keys == {"P", "Q", "R"}
      && q.constants.Keys == {CONSTANT}
      && q.constants[CONSTANT] == q.model.domain[constantDraws[0]]
      && q.totalProblems == |q.problems| == CountBefore(o, 4)
  {
    RandomModelShape(o.domainSize, MAX_PREDICATES, sizeDraw, coins);
    var m := RandomModel(o.domainSize, MAX_PREDICATES, sizeDraw, coins);
    ModelInterpretsThree(o.domainSize, sizeDraw, coins);
    OneConstant(m, constantDraws);
  }

  /** A model generated for three predicates interprets exactly `P`, `Q` and `R`. */
  lemma ModelInterpretsThree(domainSize: Option<nat>, sizeDraw: nat, coins: seq<seq<bool>>)
    requires RandomnessFits(domainSize, MAX_PREDICATES, sizeDraw, coins)
    ensures RandomModel(domainSize, MAX_PREDICATES, sizeDraw, coins).ext.Keys == {"P", "Q", "R"}
  {
    RandomModelShape(domainSize, MAX_PREDICATES, sizeDraw, coins);
    var letters := PredicateLetters(MAX_PREDICATES);
    assert letters == ["P", "Q", "R"];
    assert (set p | 0 <= p < |letters| :: letters[p]) == {"P", "Q", "R"} by {
      assert letters[0] == "P" && letters[1] == "Q" && letters[2] == "R";
    }
  }

  /** An assignment of one constant binds exactly `c`, to the member its draw indexes. */
  lemma OneConstant(m: Model, draws: seq<nat>)
    requires ConstantDrawsFit(m, NUM_CONSTANTS, draws)
    ensures Constants(m, NUM_CONSTANTS, draws).Keys == {CONSTANT}
    ensures Constants(m, NUM_CONSTANTS, draws)[CONSTANT] == m.domain[draws[0]]
  {
    ConstantsShape(m, NUM_CONSTANTS, draws);
    var letters := ConstantLetters(NUM_CONSTANTS);
    assert letters == [CONSTANT];
    assert (set i | 0 <= i < |letters| :: letters[i]) == {CONSTANT} by {
      assert letters[0] == CONSTANT;
    }
  }

  /**
   * Instantiating a template against a model that interprets `P`, `Q`, `R`
   * and an assignment of `c` numbers the problem by its position, displays
   * the template's own pattern, copies its stage and flags, binds every
   * placeholder it uses to a predicate of the model, and binds `c` when it
   * uses a constant.
   */
  lemma InstantiateShape(t: Template, index: nat, m: Model, constants: map<string, string>)
    requires m.ext.Keys == {"P", "Q", "R"} && CONSTANT in constants
    ensures var p := Instantiate(t, index, constants);
      && p.number == index + 1
      && p.template == t
      && p.stage == t.Info().stage
      && p.formula == t.Pattern()
      && p.requiresWitness == t.Info().requiresWitness
      && p.requiresCounterexample == t.Info().requiresCounterexample
      && Binds(m, p.substitutions, t.Info().predicates)
      && (t.Info().constants > 0 ==> Lookup(p.substitutions, CONSTANT) == Some(constants[CONSTANT]))
  {
    var info := t.Info();
    PredicatesWithinModel(t);
    SubstitutionBinds(m, info.predicates, info.constants, constants);
    SubstitutionForConstant(info.predicates, info.constants, constants);
    RenderedPatternIsTemplate(t, constants);
  }

  /** A substitution for one to three placeholders binds them to predicates of a model interpreting `P`, `Q`, `R`. */
  lemma SubstitutionBinds(m: Model, numPredicates: nat, numConstants: nat, constants: map<string, string>)
    requires m.ext.Keys == {"P", "Q", "R"} && 1 <= numPredicates <= MAX_PREDICATES
    ensures Binds(m, SubstitutionFor(numPredicates, numConstants, constants), numPredicates)
  {
    SubstitutionForPredicates(numPredicates, numConstants, constants);
    assert |PredicateLetters(numPredicates)| == numPredicates;
  }

  /** Problem `i` of a generated quiz is the `i`-th selected template, instantiated at position `i`. */
  lemma QuizProblemAt(o: QuizOptions, sizeDraw: nat, coins: seq<seq<bool>>, constantDraws: seq<nat>, picks: seq<seq<nat>>, i: nat)
    requires QuizRandomnessFits(o, sizeDraw, coins, constantDraws, picks)
    requires i < |QuizFor(o, sizeDraw, coins, constantDraws, picks).problems|
    ensures var q := QuizFor(o, sizeDraw, coins, constantDraws, picks);
      q.problems[i] == Instantiate(Selection(o, picks)[i], i, q.constants)
  {
  }

  /**
   * Every problem of a generated quiz is numbered from 1, displays its
   * entry's pattern and carries its stage and flags, with every predicate
   * placeholder bound to a predicate of the model and `c` bound to the
   * drawn individual when the entry uses a constant.
   */
  lemma QuizShape(o: QuizOptions, sizeDraw: nat, coins: seq<seq<bool>>, constantDraws: seq<nat>, picks: seq<seq<nat>>)
    requires QuizRandomnessFits(o, sizeDraw, coins, constantDraws, picks)
    ensures var q := QuizFor(o, sizeDraw, coins, constantDraws, picks);
      && |q.problems| == StageCount(o, 0) + StageCount(o, 1) + StageCount(o, 2) + StageCount(o, 3)
      && forall i :: 0 <= i < |q.problems| ==>
           var p := q.problems[i];
           && p.number == i + 1
           && p.stage == p.template.Info().stage
           && p.formula == p.template.Pattern()
           && p.requiresWitness == p.template.Info().requiresWitness
           && p.requiresCounterexample == p.template.Info().requiresCounterexample
           && Binds(q.model, p.substitutions, p.template.Info().predicates)
           && (p.template.Info().constants > 0 ==> Lookup(p.substitutions, CONSTANT) == Some(q.constants[CONSTANT]))
  {
    var q := QuizFor(o, sizeDraw, coins, constantDraws, picks);
    QuizModelShape(o, sizeDraw, coins, constantDraws, picks);
    forall i | 0 <= i < |q.problems|
      ensures var p := q.problems[i];
        && p.number == i + 1
        && p.stage == p.template.Info().stage
        && p.formula == p.template.Pattern()
        && p.requiresWitness == p.template.Info().requiresWitness
        && p.requiresCounterexample == p.template.Info().requiresCounterexample
        && Binds(q.model, p.substitutions, p.template.Info().predicates)
        && (p.template.Info().constants > 0 ==> Lookup(p.substitutions, CONSTANT) == Some(q.constants[CONSTANT]))
    {
      QuizProblemAt(o, sizeDraw, coins, constantDraws, picks, i);
      InstantiateShape(Selection(o, picks)[i], i, q.model, q.constants);
    }
  }

  /** Problem `i` of a generated quiz holds the `i`-th selected template and its stage. */
  lemma QuizTemplateAt(o: QuizOptions, sizeDraw: nat, coins: seq<seq<bool>>, constantDraws: seq<nat>, picks: seq<seq<nat>>, i: nat)
    requires QuizRandomnessFits(o, sizeDraw, coins, constantDraws, picks)
    requires i < |QuizFor(o, sizeDraw, coins, constantDraws, picks).problems|
    ensures var p := QuizFor(o, sizeDraw, coins, constantDraws, picks).problems[i];
      p.template == Selection(o, picks)[i] && p.stage == p.template.Info().stage
  {
    QuizProblemAt(o, sizeDraw, coins, constantDraws, picks, i);
  }

  /**
   * The stages of a generated quiz come in blocks of the configured sizes:
   * the `j`-th problem drawn from stage `k` is problem `Position(o, k, j)`,
   * the stage-`k` entry its pick indexes; so the stages never decrease.
   */
  lemma QuizStages(o: QuizOptions, sizeDraw: nat, coins: seq<seq<bool>>, constantDraws: seq<nat>, picks: seq<seq<nat>>)
    requires QuizRandomnessFits(o, sizeDraw, coins, constantDraws, picks)
    ensures var q := QuizFor(o, sizeDraw, coins, constantDraws, picks);
      && (forall k, j :: 0 <= k < 4 && 0 <= j < StageCount(o, k) ==>
           && Position(o, k, j) < |q.problems|
           && q.problems[Position(o, k, j)].template == ProblemsByStage(k)[picks[k][j]]
           && q.problems[Position(o, k, j)].stage == k)
      && (forall i, j :: 0 <= i <= j < |q.problems| ==> q.problems[i].stage <= q.problems[j].stage)
  {
    var q := QuizFor(o, sizeDraw, coins, constantDraws, picks);
    var selection := Selection(o, picks);
    assert |q.problems| == |selection|;
    forall i | 0 <= i < |q.problems|
      ensures q.problems[i].template == selection[i] && q.problems[i].stage == selection[i].Info().stage
    {
      QuizTemplateAt(o, sizeDraw, coins, constantDraws, picks, i);
    }
    SelectionStages(o, picks);
    SelectionStagesAscend(o, picks);
  }

  /** One of the four sampling loops: `count` calls of `getRandomProblemFromStage(stage)`. */
  method DrawFromStage(stage: nat, count: nat, draws: seq<nat>) returns (problems: seq<Template>)
    requires stage < 4 && count <= |draws|
    requires forall i :: 0 <= i < |draws| ==> draws[i] < |ProblemsByStage(stage)|
    ensures problems == StageSample(stage, draws, count)
  {
    problems := [];
    for i := 0 to count
      invariant problems == StageSample(stage, draws, i)
    {
      var problem := RandomProblemFromStage(stage, draws[i]);
      problems := problems + [problem.value];
    }
  }

  /** `selectedProblems`: each stage's problems drawn in turn, stage 0 first. */
  method SelectProblems(options: QuizOptions, picks: seq<seq<nat>>) returns (selectedProblems: seq<Template>)
    requires PicksFit(options, picks)
    ensures selectedProblems == Selection(options, picks)
  {
    var stage0Count := options.stage0Count.GetOr(1);
    var stage1Count := options.stage1Count.GetOr(2);
    var stage2Count := options.stage2Count.GetOr(2);
    var stage3Count := options.stage3Count.GetOr(2);
    selectedProblems := [];
    var stage0 := DrawFromStage(0, stage0Count, picks[0]);
    selectedProblems := selectedProblems + stage0;
    assert selectedProblems == SelectionUpTo(options, picks, 1);
    var stage1 := DrawFromStage(1, stage1Count, picks[1]);
    selectedProblems := selectedProblems + stage1;
    assert selectedProblems == SelectionUpTo(options, picks, 2);
    var stage2 := DrawFromStage(2, stage2Count, picks[2]);
    selectedProblems := selectedProblems + stage2;
    assert selectedProblems == SelectionUpTo(options, picks, 3);
    var stage3 := DrawFromStage(3, stage3Count, picks[3]);
    selectedProblems := selectedProblems + stage3;
  }

  /** `selectedProblems.map(...)`: binds and renders each selected template, numbering from 1. */
  method InstantiateProblems(selectedProblems: seq<Template>, model: Model, constants: map<string, string>)
    returns (instantiatedProblems: seq<Problem>)
    ensures instantiatedProblems == Instantiations(selectedProblems, constants)
  {
    instantiatedProblems := [];
    for index := 0 to |selectedProblems|
      invariant instantiatedProblems == Instantiations(selectedProblems[..index], constants)
    {
      var problem := selectedProblems[index];
      var template := problem.Pattern();
      var subs := CreateSubstitutions(problem, model, constants);
      var formula := ApplySubstitutions(template, subs);
      var info := problem.Info();
      var instantiated := Problem(index + 1, formula, problem, subs,
        info.stage, info.requiresWitness, info.requiresCounterexample);
      assert instantiated == Instantiate(problem, index, constants);
      MapIndexedSnoc((t, i) => Instantiate(t, i, constants), selectedProblems, index);
      instantiatedProblems := instantiatedProblems + [instantiated];
    }
    assert selectedProblems[..|selectedProblems|] == selectedProblems;
  }

  /**
   * `generateQuiz(options)`: generates the model with three predicates and
   * one constant, samples each stage's problems in turn, and instantiates them.
   */
  method GenerateQuiz(options: QuizOptions, sizeDraw: nat, coins: seq<seq<bool>>, constantDraws: seq<nat>, picks: seq<seq<nat>>)
    returns (quiz: Quiz)
    requires QuizRandomnessFits(options, sizeDraw, coins, constantDraws, picks)
    ensures quiz == QuizFor(options, sizeDraw, coins, constantDraws, picks)
  {
    var maxPredicates := 3;
    var model := GenerateRandomModel(options.domainSize, maxPredicates, sizeDraw, coins);
    RandomModelShape(options.domainSize, MAX_PREDICATES, sizeDraw, coins);
    var constants := GenerateConstants(model, 1, constantDraws);
    var selectedProblems := SelectProblems(options, picks);
    var instantiatedProblems := InstantiateProblems(selectedProblems, model, constants);
    quiz := Quiz(model, constants, instantiatedProblems, model.domainSize, |instantiatedProblems|);
  }
}
