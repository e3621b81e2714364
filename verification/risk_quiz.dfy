/**
 * The risk questionnaire of src/pages/RiskQuiz.tsx: the five weight tables, the weighted score,
 * the four-band allocation, the goal toggle, the "may proceed" check and the question stepping.
 */
module RiskQuiz {
  import opened Wrappers

  /** An option of a single-choice question; `weight` is its risk weight. */
  datatype QuizOption = QuizOption(value: int, text: string, weight: real)

  /** An option of the multiple-choice goals question. */
  datatype GoalOption = GoalOption(value: string, text: string, weight: real)

  const AgeOptions: seq<QuizOption> := [
    QuizOption(25, "Under 25", 0.8),
    QuizOption(35, "25-35", 0.9),
    QuizOption(45, "36-45", 0.7),
    QuizOption(55, "46-55", 0.5),
    QuizOption(65, "56-65", 0.3),
    QuizOption(70, "Above 65", 0.1)
  ]

  const IncomeOptions: seq<QuizOption> := [
    QuizOption(300000, "Below 3 Lakhs", 0.3),
    QuizOption(600000, "3-6 Lakhs", 0.5),
    QuizOption(1000000, "6-10 Lakhs", 0.7),
    QuizOption(1500000, "10-15 Lakhs", 0.8),
    QuizOption(2000000, "15-20 Lakhs", 0.9),
    QuizOption(3000000, "Above 20 Lakhs", 1.0)
  ]

  const HorizonOptions: seq<QuizOption> := [
    QuizOption(1, "Less than 1 year", 0.1),
    QuizOption(3, "1-3 years", 0.3),
    QuizOption(5, "3-5 years", 0.6),
    QuizOption(10, "5-10 years", 0.8),
    QuizOption(15, "10-15 years", 0.9),
    QuizOption(20, "More than 15 years", 1.0)
  ]

  const RiskToleranceOptions: seq<QuizOption> := [
    QuizOption(1, "I panic and want to sell immediately", 0.1),
    QuizOption(2, "I feel uncomfortable but hold my investments", 0.3),
    QuizOption(3, "I remain neutral and stick to my plan", 0.6),
    QuizOption(4, "I see it as a buying opportunity", 0.8),
    QuizOption(5, "I actively invest more during market downturns", 1.0)
  ]

  const GoalOptions: seq<GoalOption> := [
    GoalOption("retirement", "Retirement Planning", 0.7),
    GoalOption("wealth", "Wealth Creation", 0.9),
    GoalOption("education", "Children's Education", 0.6),
    GoalOption("home", "Home Purchase", 0.5),
    GoalOption("emergency", "Emergency Fund", 0.2),
    GoalOption("tax", "Tax Saving", 0.4)
  ]

  /** The five questions, in the order they are asked. */
  datatype Question = Age | Income | InvestmentHorizon | RiskTolerance | FinancialGoals

  const Questions: seq<Question> := [Age, Income, InvestmentHorizon, RiskTolerance, FinancialGoals]

  /** The answers so far; `None` is an unanswered (`undefined`) field. */
  datatype QuizAnswers = QuizAnswers(
    age: Option<int>,
    income: Option<int>,
    investmentHorizon: Option<int>,
    riskTolerance: Option<int>,
    financialGoals: Option<seq<string>>)

  /** The quiz starts with only an empty goal list. */
  const InitialAnswers: QuizAnswers := QuizAnswers(None, None, None, None, Some([]))

  /** `Math.round`: the nearest integer, halves rounded up. */
  function Round(x: real): (r: int)
    ensures r as real - 0.5 <= x < r as real + 0.5
  {
    (x + 0.5).Floor
  }

  predicate Offered(opts: seq<QuizOption>, v: int) {
    exists k :: 0 <= k < |opts| && opts[k].value == v
  }

  /** `options.find(opt => opt.value === v)?.weight`: the weight of the first option with value `v`. */
  function FindWeight(opts: seq<QuizOption>, v: int): (r: Option<real>)
    ensures r.Some? <==> Offered(opts, v)
    ensures r.Some? ==> exists k :: 0 <= k < |opts| && opts[k].value == v && opts[k].weight == r.value
  {
    if opts == [] then None
    else if opts[0].value == v then Some(opts[0].weight)
    else
      var r := FindWeight(opts[1..], v);
      assert forall k :: 0 <= k < |opts| - 1 ==> opts[1..][k] == opts[k + 1];
      r
  }

  /** `options.find(opt => opt.value === goal)?.weight` over the goal options. */
  function FindGoalWeight(opts: seq<GoalOption>, goal: string): (r: Option<real>)
    ensures r.None? <==> forall k :: 0 <= k < |opts| ==> opts[k].value != goal
    ensures r.Some? ==> exists k :: 0 <= k < |opts| && opts[k].value == goal && opts[k].weight == r.value
  {
    if opts == [] then None
    else if opts[0].value == goal then Some(opts[0].weight)
    else
      var r := FindGoalWeight(opts[1..], goal);
      assert forall k :: 0 <= k < |opts| - 1 ==> opts[1..][k] == opts[k + 1];
      r
  }

  /** The first option carrying a value is the one `find` returns. */
  lemma {:induction false} FindWeightAt(opts: seq<QuizOption>, k: nat)
    requires k < |opts|
    requires forall j :: 0 <= j < k ==> opts[j].value != opts[k].value
    ensures FindWeight(opts, opts[k].value) == Some(opts[k].weight)
  {
    if k > 0 {
      FindWeightAt(opts[1..], k - 1);
    }
  }

  /** The goal-table version of `FindWeightAt`. */
  lemma {:induction false} FindGoalWeightAt(opts: seq<GoalOption>, k: nat)
    requires k < |opts|
    requires forall j :: 0 <= j < k ==> opts[j].value != opts[k].value
    ensures FindGoalWeight(opts, opts[k].value) == Some(opts[k].weight)
  {
    if k > 0 {
      FindGoalWeightAt(opts[1..], k - 1);
    }
  }

  /** A goal's weight: the first matching option's, or 0 for an unknown tag (`?.weight || 0`). */
  function GoalWeight(goal: string): (w: real)
    ensures (forall k :: 0 <= k < |GoalOptions| ==> GoalOptions[k].value != goal) ==> w == 0.0
    ensures KnownGoal(goal) ==> 0.2 <= w <= 0.9
  {
    var found := FindGoalWeight(GoalOptions, goal);
    if found.Some? && found.value != 0.0 then found.value else 0.0
  }

  /** `goalWeights.reduce((sum, weight) => sum + weight, 0)`. */
  function GoalWeightSum(goals: seq<string>): real {
    if goals == [] then 0.0 else GoalWeightSum(goals[..|goals| - 1]) + GoalWeight(goals[|goals| - 1])
  }

  /** The arithmetic mean of the selected goals' weights. */
  function GoalMean(goals: seq<string>): real
    requires |goals| > 0
  {
    GoalWeightSum(goals) / |goals| as real
  }

  predicate KnownGoal(goal: string) {
    exists k :: 0 <= k < |GoalOptions| && GoalOptions[k].value == goal
  }

  /** The weighted contribution of one single-choice answer: nothing unless it is truthy and offered. */
  function SelectContribution(answer: Option<int>, opts: seq<QuizOption>, categoryWeight: real): real {
    if answer.Some? && answer.value != 0 && FindWeight(opts, answer.value).Some?
    then FindWeight(opts, answer.value).value * categoryWeight
    else 0.0
  }

  /** The goals contribution: ten times the mean weight of a non-empty goal list. */
  function GoalsContribution(goals: Option<seq<string>>): real {
    if goals.Some? && |goals.value| > 0 then GoalMean(goals.value) * 10.0 else 0.0
  }

  /** The unnormalised weighted total over the answered categories (weights 25/20/30/15/10). */
  function WeightedTotal(a: QuizAnswers): real {
    SelectContribution(a.age, AgeOptions, 25.0)
    + SelectContribution(a.income, IncomeOptions, 20.0)
    + SelectContribution(a.investmentHorizon, HorizonOptions, 30.0)
    + SelectContribution(a.riskTolerance, RiskToleranceOptions, 15.0)
    + GoalsContribution(a.financialGoals)
  }

  /** True when no category contributes (the source's `totalWeight` stays 0). */
  predicate NothingCounted(a: QuizAnswers) {
    && !(a.age.Some? && a.age.value != 0 && Offered(AgeOptions, a.age.value))
    && !(a.income.Some? && a.income.value != 0 && Offered(IncomeOptions, a.income.value))
    && !(a.investmentHorizon.Some? && a.investmentHorizon.value != 0 && Offered(HorizonOptions, a.investmentHorizon.value))
    && !(a.riskTolerance.Some? && a.riskTolerance.value != 0 && Offered(RiskToleranceOptions, a.riskTolerance.value))
    && !(a.financialGoals.Some? && |a.financialGoals.value| > 0)
  }

  /**
   * `calculateRiskScore`: accumulates the weighted total and the weight counter category by
   * category. The score is the rounded weighted total, never divided by the counter; it is 0
   * when no category counted.
   */
  method CalculateRiskScore(a: QuizAnswers) returns (score: int)
    ensures score == Round(WeightedTotal(a))
  {
    var totalScore := 0.0;
    var totalWeight := 0;

    if a.age.Some? && a.age.value != 0 {
      var ageOption := FindWeight(AgeOptions, a.age.value);
      if ageOption.Some? {
        totalScore := totalScore + ageOption.value * 25.0;
        totalWeight := totalWeight + 25;
      }
    }
    ghost var partial := SelectContribution(a.age, AgeOptions, 25.0);
    assert totalScore == partial;
    if a.income.Some? && a.income.value != 0 {
      var incomeOption := FindWeight(IncomeOptions, a.income.value);
      if incomeOption.Some? {
        totalScore := totalScore + incomeOption.value * 20.0;
        totalWeight := totalWeight + 20;
      }
    }
    partial := partial + SelectContribution(a.income, IncomeOptions, 20.0);
    assert totalScore == partial;
    if a.investmentHorizon.Some? && a.investmentHorizon.value != 0 {
      var horizonOption := FindWeight(HorizonOptions, a.investmentHorizon.value);
      if horizonOption.Some? {
        totalScore := totalScore + horizonOption.value * 30.0;
        totalWeight := totalWeight + 30;
      }
    }
    partial := partial + SelectContribution(a.investmentHorizon, HorizonOptions, 30.0);
    assert totalScore == partial;
    if a.riskTolerance.Some? && a.riskTolerance.value != 0 {
      var riskOption := FindWeight(RiskToleranceOptions, a.riskTolerance.value);
      if riskOption.Some? {
        totalScore := totalScore + riskOption.value * 15.0;
        totalWeight := totalWeight + 15;
      }
    }
    partial := partial + SelectContribution(a.riskTolerance, RiskToleranceOptions, 15.0);
    assert totalScore == partial;
    if a.financialGoals.Some? && |a.financialGoals.value| > 0 {
      var avgGoalWeight := GoalWeightSum(a.financialGoals.value) / |a.financialGoals.value| as real;
      totalScore := totalScore + avgGoalWeight * 10.0;
      totalWeight := totalWeight + 10;
    }
    assert totalScore == WeightedTotal(a);

    assert totalWeight == 0 ==> totalScore == 0.0;
    score := if totalWeight > 0 then Round(totalScore) else 0;
  }

  /** The score the quiz computes for a set of answers. */
  function RiskScore(a: QuizAnswers): int {
    Round(WeightedTotal(a))
  }

  // ---------------------------------------------------------------------------------------------
  // Score properties

  /** Every single-choice answer offered by its table, and a non-empty list of known goals. */
  predicate Complete(a: QuizAnswers) {
    && a.age.Some? && Offered(AgeOptions, a.age.value)
    && a.income.Some? && Offered(IncomeOptions, a.income.value)
    && a.investmentHorizon.Some? && Offered(HorizonOptions, a.investmentHorizon.value)
    && a.riskTolerance.Some? && Offered(RiskToleranceOptions, a.riskTolerance.value)
    && a.financialGoals.Some? && |a.financialGoals.value| > 0
    && forall k :: 0 <= k < |a.financialGoals.value| ==> KnownGoal(a.financialGoals.value[k])
  }

  /** The summed weights of `n` known goals lie between `0.2·n` and `0.9·n`. */
  lemma {:induction false} GoalWeightSumBounds(goals: seq<string>)
    requires forall k :: 0 <= k < |goals| ==> KnownGoal(goals[k])
    ensures 0.2 * |goals| as real <= GoalWeightSum(goals) <= 0.9 * |goals| as real
  {
    if goals != [] {
      var init := goals[..|goals| - 1];
      assert forall k :: 0 <= k < |init| ==> init[k] == goals[k];
      GoalWeightSumBounds(init);
    }
  }

  /** The mean weight of known goals lies between the lightest (0.2) and the heaviest (0.9). */
  lemma GoalMeanBounds(goals: seq<string>)
    requires |goals| > 0
    requires forall k :: 0 <= k < |goals| ==> KnownGoal(goals[k])
    ensures 0.2 <= GoalMean(goals) <= 0.9
  {
    var sum, n := GoalWeightSum(goals), |goals| as real;
    assert 0.2 * n <= sum <= 0.9 * n by {
      GoalWeightSumBounds(goals);
    }
    QuotientBounds(sum, n, 0.2, 0.9);
  }

  /** Dividing bounds `lo·n <= s <= hi·n` by a positive `n`. */
  lemma QuotientBounds(s: real, n: real, lo: real, hi: real)
    requires n > 0.0
    requires lo * n <= s <= hi * n
    ensures lo <= s / n <= hi
  {
    var q := s / n;
    assert q * n == s;
  }

  /** Bounds on a table's weights, as read from the table. */
  lemma TableWeights()
    ensures forall k :: 0 <= k < |AgeOptions| ==> 0.1 <= AgeOptions[k].weight <= 0.9
    ensures forall k :: 0 <= k < |IncomeOptions| ==> 0.3 <= IncomeOptions[k].weight <= 1.0
    ensures forall k :: 0 <= k < |HorizonOptions| ==> 0.1 <= HorizonOptions[k].weight <= 1.0
    ensures forall k :: 0 <= k < |RiskToleranceOptions| ==> 0.1 <= RiskToleranceOptions[k].weight <= 1.0
    ensures forall k :: 0 <= k < |AgeOptions| ==> AgeOptions[k].value != 0
    ensures forall k :: 0 <= k < |IncomeOptions| ==> IncomeOptions[k].value != 0
    ensures forall k :: 0 <= k < |HorizonOptions| ==> HorizonOptions[k].value != 0
    ensures forall k :: 0 <= k < |RiskToleranceOptions| ==> RiskToleranceOptions[k].value != 0
  {
  }

  /** With every question answered from its table, the score lies in 15..97 (inside 0..100). */
  lemma CompleteScoreRange(a: QuizAnswers)
    requires Complete(a)
    ensures 15 <= RiskScore(a) <= 97
  {
    TableWeights();
    GoalMeanBounds(a.financialGoals.value);
    var t := WeightedTotal(a);
    assert 15.0 <= t <= 96.5;
  }

  /** No two options of a table carry the same value, so `find` is unambiguous. */
  predicate DistinctValues(opts: seq<QuizOption>) {
    forall i, j :: 0 <= i < j < |opts| ==> opts[i].value != opts[j].value
  }

  predicate DistinctGoalValues(opts: seq<GoalOption>) {
    forall i, j :: 0 <= i < j < |opts| ==> opts[i].value != opts[j].value
  }

  lemma TablesDistinct()
    ensures DistinctValues(AgeOptions)
    ensures DistinctValues(IncomeOptions)
    ensures DistinctValues(HorizonOptions)
    ensures DistinctValues(RiskToleranceOptions)
    ensures DistinctGoalValues(GoalOptions)
  {
  }

  /** The contribution of an answer that picks the option at `k` of a table. */
  lemma SelectContributionAt(answer: Option<int>, opts: seq<QuizOption>, k: nat, categoryWeight: real)
    requires k < |opts| && answer == Some(opts[k].value) && opts[k].value != 0
    requires DistinctValues(opts)
    ensures SelectContribution(answer, opts, categoryWeight) == opts[k].weight * categoryWeight
  {
    FindWeightAt(opts, k);
  }

  /** The contribution of a single goal, the one at `k` of the goal table. */
  lemma SingleGoalContribution(goals: Option<seq<string>>, k: nat)
    requires k < |GoalOptions| && goals == Some([GoalOptions[k].value])
    ensures GoalsContribution(goals) == GoalOptions[k].weight * 10.0
  {
    var g := GoalOptions[k];
    TablesDistinct();
    FindGoalWeightAt(GoalOptions, k);
    assert g.weight != 0.0;
    assert GoalWeight(g.value) == g.weight;
    assert [g.value][..0] == [];
    assert GoalWeightSum([g.value]) == g.weight;
    assert GoalMean([g.value]) == g.weight;
  }

  /** The lowest answer of every table scores 15. */
  lemma ScoreMinimum(a: QuizAnswers)
    requires a == QuizAnswers(Some(70), Some(300000), Some(1), Some(1), Some(["emergency"]))
    ensures RiskScore(a) == 15
  {
    TablesDistinct();
    SelectContributionAt(a.age, AgeOptions, 5, 25.0);
    SelectContributionAt(a.income, IncomeOptions, 0, 20.0);
    SelectContributionAt(a.investmentHorizon, HorizonOptions, 0, 30.0);
    SelectContributionAt(a.riskTolerance, RiskToleranceOptions, 0, 15.0);
    SingleGoalContribution(a.financialGoals, 4);
  }

  /** The highest answer of every table scores round(96.5) = 97. */
  lemma ScoreMaximum(a: QuizAnswers)
    requires a == QuizAnswers(Some(35), Some(3000000), Some(20), Some(5), Some(["wealth"]))
    ensures RiskScore(a) == 97
  {
    TablesDistinct();
    SelectContributionAt(a.age, AgeOptions, 1, 25.0);
    SelectContributionAt(a.income, IncomeOptions, 5, 20.0);
    SelectContributionAt(a.investmentHorizon, HorizonOptions, 5, 30.0);
    SelectContributionAt(a.riskTolerance, RiskToleranceOptions, 4, 15.0);
    SingleGoalContribution(a.financialGoals, 1);
  }

  /** Nothing answered (or nothing offered) scores 0. */
  lemma UnansweredScoresZero(a: QuizAnswers)
    requires NothingCounted(a)
    ensures RiskScore(a) == 0
  {
  }

  /** The score is not renormalised: answering only the age question "25-35" scores round(22.5) = 23. */
  lemma PartialAnswersNotRenormalised()
    ensures RiskScore(QuizAnswers(Some(35), None, None, None, Some([]))) == 23
  {
  }

  /**
   * An unknown goal tag weighs 0 but still counts in the mean's denominator: appending it keeps
   * the sum and dilutes the mean.
   */
  lemma UnknownGoalDilutes(goals: seq<string>, unknown: string)
    requires forall k :: 0 <= k < |GoalOptions| ==> GoalOptions[k].value != unknown
    ensures GoalWeightSum(goals + [unknown]) == GoalWeightSum(goals)
    ensures GoalMean(goals + [unknown]) == GoalWeightSum(goals) / (|goals| + 1) as real
  {
    assert (goals + [unknown])[..|goals|] == goals;
  }

  // ---------------------------------------------------------------------------------------------
  // Allocation

  datatype Allocation = Allocation(equity: int, debt: int, government: int)

  /** `getAllocation`: a four-band step function with inclusive upper bounds 30, 50 and 70. */
  function GetAllocation(score: int): (r: Allocation)
    ensures r.equity + r.debt + r.government == 100
    ensures r.equity > 0 && r.debt > 0 && r.government > 0
  {
    if score <= 30 then Allocation(20, 50, 30)
    else if score <= 50 then Allocation(40, 40, 20)
    else if score <= 70 then Allocation(60, 25, 15)
    else Allocation(80, 15, 5)
  }

  /** A higher score never lowers the equity share and never raises the other two. */
  lemma AllocationMonotone(s1: int, s2: int)
    requires s1 <= s2
    ensures GetAllocation(s1).equity <= GetAllocation(s2).equity
    ensures GetAllocation(s1).debt >= GetAllocation(s2).debt
    ensures GetAllocation(s1).government >= GetAllocation(s2).government
  {
  }

  /** The two worked examples: 25 is conservative, 71 aggressive; the band edges fall low. */
  lemma AllocationExamples()
    ensures GetAllocation(25) == Allocation(20, 50, 30)
    ensures GetAllocation(71) == Allocation(80, 15, 5)
    ensures GetAllocation(30) == Allocation(20, 50, 30)
    ensures GetAllocation(50) == Allocation(40, 40, 20)
    ensures GetAllocation(70) == Allocation(60, 25, 15)
  {
  }

  // ---------------------------------------------------------------------------------------------
  // Answering, the goal toggle and stepping through the questions

  /** A list without repeated entries. */
  ghost predicate NoDuplicates(goals: seq<string>) {
    forall g :: multiset(goals)[g] <= 1
  }

  /** The goal branch of `handleAnswer`: remove the tag if present, append it otherwise. */
  function ToggleGoal(goals: seq<string>, goal: string): (r: seq<string>)
    ensures goal in r <==> goal !in goals
    ensures forall g :: g != goal ==> (g in r <==> g in goals)
    ensures NoDuplicates(goals) ==> NoDuplicates(r)
  {
    if goal in goals then Filter(goals, (g: string) => g != goal) else goals + [goal]
  }

  lemma {:induction false} FilterDropsAbsent(goals: seq<string>, goal: string)
    requires goal !in goals
    ensures Filter(goals, (g: string) => g != goal) == goals
  {
    if goals != [] {
      FilterDropsAbsent(goals[1..], goal);
    }
  }

  /** Toggling a tag that was not selected, then toggling it again, restores the list exactly. */
  lemma ToggleTwiceRestores(goals: seq<string>, goal: string)
    requires goal !in goals
    ensures ToggleGoal(ToggleGoal(goals, goal), goal) == goals
  {
    FilterAppend(goals, [goal], (g: string) => g != goal);
    FilterDropsAbsent(goals, goal);
  }

  /**
   * Toggling a selected tag off and on again keeps the same tags (without duplicates, the
   * same multiset) but moves the tag to the end.
   */
  lemma ToggleTwiceReorders(goals: seq<string>, goal: string)
    requires goal in goals
    ensures ToggleGoal(ToggleGoal(goals, goal), goal) == Filter(goals, (g: string) => g != goal) + [goal]
    ensures NoDuplicates(goals) ==> multiset(ToggleGoal(ToggleGoal(goals, goal), goal)) == multiset(goals)
  {
    FilterOutCount(goals, goal);
    if NoDuplicates(goals) {
      assert multiset(goals)[goal] == 1;
      assert multiset(goals)[goal := 0] + multiset{goal} == multiset(goals);
    }
  }

  /** Filtering out a tag removes all of its occurrences and nothing else. */
  lemma {:induction false} FilterOutCount(goals: seq<string>, goal: string)
    ensures multiset(Filter(goals, (g: string) => g != goal)) == multiset(goals)[goal := 0]
  {
    if goals != [] {
      var x, tail := goals[0], goals[1..];
      FilterOutCount(tail, goal);
      assert goals == [x] + tail;
      assert multiset(goals) == multiset{x} + multiset(tail);
      if x == goal {
        assert Filter(goals, (g: string) => g != goal) == Filter(tail, (g: string) => g != goal);
        assert multiset(goals)[goal := 0] == multiset(tail)[goal := 0];
      } else {
        assert Filter(goals, (g: string) => g != goal) == [x] + Filter(tail, (g: string) => g != goal);
        assert multiset(goals)[goal := 0] == multiset{x} + multiset(tail)[goal := 0];
      }
    }
  }

  /** The value a single-choice option button passes: an option's `value`. */
  datatype AnswerValue = Choice(n: int) | Goal(tag: string)

  /** `handleAnswer`: sets a single-choice answer, or toggles a goal tag. */
  function HandleAnswer(a: QuizAnswers, q: Question, v: AnswerValue): (r: QuizAnswers)
    requires q == FinancialGoals <==> v.Goal?
    ensures q != FinancialGoals ==> AnswerOf(r, q) == Some(v.n)
    ensures q == FinancialGoals ==> r.financialGoals.Some?
    ensures q == FinancialGoals ==>
      (v.tag in r.financialGoals.value <==> a.financialGoals.None? || v.tag !in a.financialGoals.value)
    ensures q == FinancialGoals ==>
      r.financialGoals == Some(ToggleGoal(if a.financialGoals.Some? then a.financialGoals.value else [], v.tag))
    ensures forall other :: other != q && other != FinancialGoals ==> AnswerOf(r, other) == AnswerOf(a, other)
    ensures q != FinancialGoals ==> r.financialGoals == a.financialGoals
  {
    match q
    case Age => a.(age := Some(v.n))
    case Income => a.(income := Some(v.n))
    case InvestmentHorizon => a.(investmentHorizon := Some(v.n))
    case RiskTolerance => a.(riskTolerance := Some(v.n))
    case FinancialGoals =>
      var current := if a.financialGoals.Some? then a.financialGoals.value else [];
      a.(financialGoals := Some(ToggleGoal(current, v.tag)))
  }

  /** The stored answer to a single-choice question. */
  function AnswerOf(a: QuizAnswers, q: Question): Option<int>
    requires q != FinancialGoals
  {
    match q
    case Age => a.age
    case Income => a.income
    case InvestmentHorizon => a.investmentHorizon
    case RiskTolerance => a.riskTolerance
  }

  /**
   * `canProceed`: on the goals question a non-empty goal list is needed, on every other
   * question a defined answer.
   */
  function CanProceed(a: QuizAnswers, current: nat): (r: bool)
    requires current < |Questions|
    ensures Questions[current] == FinancialGoals ==> (r <==> a.financialGoals.Some? && a.financialGoals.value != [])
    ensures Questions[current] != FinancialGoals ==> (r <==> AnswerOf(a, Questions[current]).Some?)
  {
    var q := Questions[current];
    if q == FinancialGoals then a.financialGoals.Some? && |a.financialGoals.value| > 0
    else AnswerOf(a, q) != None
  }

  /** Being allowed past every question means every category is answered and a goal is chosen. */
  lemma ProceedEverywhereAnswersAll(a: QuizAnswers)
    requires forall i :: 0 <= i < |Questions| ==> CanProceed(a, i)
    ensures a.age.Some? && a.income.Some? && a.investmentHorizon.Some? && a.riskTolerance.Some?
    ensures a.financialGoals.Some? && |a.financialGoals.value| > 0
  {
    assert CanProceed(a, 0) && CanProceed(a, 1) && CanProceed(a, 2) && CanProceed(a, 3) && CanProceed(a, 4);
  }

  /**
   * Answering the current single-choice question enables Next; on the goals question, picking a
   * tag not yet chosen enables it, and deselecting the only chosen tag disables it again.
   */
  lemma AnswerEnablesProceed(a: QuizAnswers, current: nat, v: AnswerValue)
    requires current < |Questions|
    requires Questions[current] == FinancialGoals <==> v.Goal?
    ensures Questions[current] != FinancialGoals ==> CanProceed(HandleAnswer(a, Questions[current], v), current)
    ensures Questions[current] == FinancialGoals && (a.financialGoals.None? || v.tag !in a.financialGoals.value) ==>
      CanProceed(HandleAnswer(a, Questions[current], v), current)
    ensures Questions[current] == FinancialGoals && a.financialGoals == Some([v.tag]) ==>
      !CanProceed(HandleAnswer(a, Questions[current], v), current)
  {
  }

  /** The risk profile saved when the last question is passed. */
  datatype RiskProfile = RiskProfile(
    age: int,
    income: int,
    investmentHorizon: int,
    riskTolerance: int,
    financialGoals: seq<string>,
    score: int,
    allocation: Allocation)

  function OrZero(x: Option<int>): int {
    if x.Some? then x.value else 0
  }

  /** A questionnaire session: the current question index and the answers so far. */
  class QuizSession {
    var current: int
    var answers: QuizAnswers

    ghost predicate Valid()
      reads this
    {
      0 <= current < |Questions|
    }

    constructor ()
      ensures Valid() && current == 0 && answers == InitialAnswers
    {
      current := 0;
      answers := InitialAnswers;
    }

    /** An option button of the current question. */
    method Answer(v: AnswerValue)
      requires Valid()
      requires Questions[current] == FinancialGoals <==> v.Goal?
      modifies this
      ensures Valid() && current == old(current)
      ensures answers == HandleAnswer(old(answers), Questions[current], v)
    {
      answers := HandleAnswer(answers, Questions[current], v);
    }

    /**
     * `handleNext`: advances to the next question, or on the last one computes the score and
     * allocation and returns the profile to save.
     */
    method Next() returns (saved: Option<RiskProfile>)
      requires Valid()
      modifies this
      ensures Valid() && answers == old(answers)
      ensures old(current) < |Questions| - 1 ==> current == old(current) + 1 && saved == None
      ensures old(current) == |Questions| - 1 ==> current == old(current) && saved.Some?
      ensures saved.Some? ==> saved.value.score == RiskScore(answers)
      ensures saved.Some? ==> saved.value.allocation == GetAllocation(saved.value.score)
      ensures saved.Some? ==> saved.value == RiskProfile(
        OrZero(answers.age), OrZero(answers.income), OrZero(answers.investmentHorizon),
        OrZero(answers.riskTolerance),
        if answers.financialGoals.Some? then answers.financialGoals.value else [],
        RiskScore(answers), GetAllocation(RiskScore(answers)))
    {
      if current < |Questions| - 1 {
        current := current + 1;
        saved := None;
      } else {
        var score := CalculateRiskScore(answers);
        var allocation := GetAllocation(score);
        saved := Some(RiskProfile(
          OrZero(answers.age), OrZero(answers.income), OrZero(answers.investmentHorizon),
          OrZero(answers.riskTolerance),
          if answers.financialGoals.Some? then answers.financialGoals.value else [],
          score, allocation));
      }
    }

    /** `handlePrevious`: steps back, never below the first question. */
    method Previous()
      requires Valid()
      modifies this
      ensures Valid() && answers == old(answers)
      ensures current == if old(current) > 0 then old(current) - 1 else 0
    {
      if current > 0 {
        current := current - 1;
      }
    }
  }
}
