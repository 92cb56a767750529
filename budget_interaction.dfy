/**
 * Decision rules between the salary budget and extra income
 * (`src/domain/budgetInteraction.ts`): the balance check, the smart
 * recommendations and the optimization strategies.
 *
 * Amounts are JavaScript numbers, so ratios are `Number`s: a division by a
 * zero salary gives an infinity or `NaN`, and comparisons with `NaN` are false.
 */
module BudgetInteraction {
  import opened JsBuiltins

  /** The emergency-fund part of `BudgetImpact`. */
  datatype EmergencyFund = EmergencyFund(
    currentAmount: Number,
    targetAmount: Number,
    monthsToTarget: Number,
    monthsToTargetWithExtra: Number,
    accelerationMonths: Number)

  /** The medium-term projects part of `BudgetImpact`. */
  datatype Projects = Projects(
    totalSaved: Number,
    monthlyFromSalary: Number,
    monthlyFromExtra: Number,
    accelerationFactor: Number)

  /** The financial-freedom part of `BudgetImpact`. */
  datatype FinancialFreedom = FinancialFreedom(
    monthlyExpenses: Number,
    targetMultiplier: Number,
    yearsToTarget: Number,
    yearsToTargetWithExtra: Number,
    accelerationYears: Number)

  datatype BudgetImpact = BudgetImpact(
    emergencyFund: EmergencyFund,
    projects: Projects,
    financialFreedom: FinancialFreedom)

  datatype Frequency = Rare | Occasional | Regular

  /** An integer in a template literal. */
  function IntToString(n: int): (s: string)
    ensures |s| >= 1
    ensures n >= 0 ==> s == NatToString(n)
    ensures n < 0 ==> s == "-" + NatToString(-n)
  {
    if n >= 0 then NatToString(n) else "-" + NatToString(-n)
  }

  /** `${Math.round(x)}` */
  function RoundedText(x: Number): (s: string)
    ensures |s| >= 1
    ensures x.Finite? && x.value > -0.5 ==> AllDigits(s)
  {
    match x
    case NaN => "NaN"
    case Finite(v) => IntToString(Round(v))
    case Infinity => "Infinity"
    case NegInfinity => "-Infinity"
  }

  function EmergencyTip(months: Number): (s: string)
    ensures |s| > 1
    ensures s[0] == '\U{1F680}'
  {
    ['\U{1F680}'] + " Vos revenus extra acc\U{00E9}l\U{00E8}rent votre coussin d'urgence de " + RoundedText(months) + " mois !"
  }

  function ProjectsTip(percent: Number): (s: string)
    ensures |s| > 1
    ensures s[0] == '\U{1F3AF}'
  {
    ['\U{1F3AF}'] + " Vos projets avancent " + RoundedText(percent) + "% plus vite gr\U{00E2}ce aux revenus extra"
  }

  function FreedomTip(years: Number): (s: string)
    ensures |s| > 1
    ensures s[0] == '\U{1F48E}'
  {
    ['\U{1F48E}'] + " Libert\U{00E9} financi\U{00E8}re atteinte " + RoundedText(years) + " ans plus t\U{00F4}t !"
  }

  /** The emoji that opens the advice for each frequency. */
  function FrequencyMark(frequency: Frequency): char {
    match frequency
    case Regular => '\U{1F4C8}'
    case Occasional => '\U{26A1}'
    case Rare => '\U{1F4A1}'
  }

  const RegularAdvice: string :=
    " Revenus extra r\U{00E9}guliers d\U{00E9}tect\U{00E9}s. Consid\U{00E9}rez augmenter vos objectifs d'\U{00E9}pargne de base."
  const OccasionalAdvice: string :=
    " Bonne fr\U{00E9}quence de revenus extra ! Maintenez cette dynamique pour acc\U{00E9}l\U{00E9}rer vos objectifs."
  const RareAdvice: string :=
    " Cherchez des opportunit\U{00E9}s de revenus compl\U{00E9}mentaires pour booster votre \U{00E9}pargne."

  /** The closing advice for each frequency of extra income. */
  function FrequencyTip(frequency: Frequency): (s: string)
    ensures |s| > 1
    ensures s[0] == FrequencyMark(frequency)
  {
    [FrequencyMark(frequency)] +
    match frequency
    case Regular => RegularAdvice
    case Occasional => OccasionalAdvice
    case Rare => RareAdvice
  }

  /** The frequency advice names its frequency: different frequencies give different advice. */
  lemma FrequencyTipInjective(a: Frequency, b: Frequency)
    requires FrequencyTip(a) == FrequencyTip(b)
    ensures a == b
  {
    assert FrequencyMark(a) == FrequencyTip(a)[0] == FrequencyTip(b)[0] == FrequencyMark(b);
  }

  /** The recommendations for an impact: a tip for each goal that extra income accelerates
      enough (emergency fund by more than 3 months, projects by more than 20 %, financial
      freedom by more than a year), in that order, then the tip on the frequency. */
  function SmartRecommendations(impact: BudgetImpact, frequency: Frequency): seq<string> {
    var months := impact.emergencyFund.accelerationMonths;
    var percent := impact.projects.accelerationFactor;
    var years := impact.financialFreedom.accelerationYears;
    (if Exceeds(months, 3.0) then [EmergencyTip(months)] else [])
      + (if Exceeds(percent, 20.0) then [ProjectsTip(percent)] else [])
      + (if Exceeds(years, 1.0) then [FreedomTip(years)] else [])
      + [FrequencyTip(frequency)]
  }

  /** `generateSmartRecommendations` pushes the goal tips one by one, then the frequency tip. */
  method GenerateSmartRecommendations(impact: BudgetImpact, frequency: Frequency)
    returns (recommendations: seq<string>)
    ensures recommendations == SmartRecommendations(impact, frequency)
  {
    var months := impact.emergencyFund.accelerationMonths;
    var percent := impact.projects.accelerationFactor;
    var years := impact.financialFreedom.accelerationYears;
    recommendations := [];
    if Exceeds(months, 3.0) {
      recommendations := recommendations + [EmergencyTip(months)];
    }
    if Exceeds(percent, 20.0) {
      recommendations := recommendations + [ProjectsTip(percent)];
    }
    if Exceeds(years, 1.0) {
      recommendations := recommendations + [FreedomTip(years)];
    }
    // The `switch` on the frequency is `FrequencyTip`.
    recommendations := recommendations + [FrequencyTip(frequency)];
  }

  /** There are one to four recommendations; the frequency tip is last and only last, and each
      goal tip is present exactly when its goal is accelerated past its threshold. */
  lemma SmartRecommendationsShape(impact: BudgetImpact, frequency: Frequency)
    ensures var r := SmartRecommendations(impact, frequency);
            1 <= |r| <= 4
            && r[|r| - 1] == FrequencyTip(frequency)
            && (forall i :: 0 <= i < |r| - 1 ==> r[i] != FrequencyTip(frequency))
            && (EmergencyTip(impact.emergencyFund.accelerationMonths) in r <==>
                Exceeds(impact.emergencyFund.accelerationMonths, 3.0))
            && (ProjectsTip(impact.projects.accelerationFactor) in r <==>
                Exceeds(impact.projects.accelerationFactor, 20.0))
            && (FreedomTip(impact.financialFreedom.accelerationYears) in r <==>
                Exceeds(impact.financialFreedom.accelerationYears, 1.0))
  {
    var months := impact.emergencyFund.accelerationMonths;
    var percent := impact.projects.accelerationFactor;
    var years := impact.financialFreedom.accelerationYears;
    TipList(EmergencyTip(months), ProjectsTip(percent), FreedomTip(years), FrequencyTip(frequency),
      Exceeds(months, 3.0), Exceeds(percent, 20.0), Exceeds(years, 1.0));
  }

  /** Tips whose first characters differ can be told apart in the list they make. */
  lemma TipList(e: string, p: string, f: string, q: string, withE: bool, withP: bool, withF: bool)
    requires |e| > 0 && |p| > 0 && |f| > 0 && |q| > 0
    requires e[0] != p[0] && e[0] != f[0] && p[0] != f[0]
    requires q[0] != e[0] && q[0] != p[0] && q[0] != f[0]
    ensures var r := (if withE then [e] else []) + (if withP then [p] else []) + (if withF then [f] else []) + [q];
            1 <= |r| <= 4 && r[|r| - 1] == q && (forall i :: 0 <= i < |r| - 1 ==> r[i] != q)
            && (e in r <==> withE) && (p in r <==> withP) && (f in r <==> withF)
  {
    var tips := (if withE then [e] else []) + (if withP then [p] else []) + (if withF then [f] else []);
    assert forall i :: 0 <= i < |tips| ==> tips[i] in {e, p, f};
    assert forall i :: 0 <= i < |tips| ==> tips[i][0] != q[0];
    var r := tips + [q];
    assert forall i :: 0 <= i < |r| - 1 ==> r[i] == tips[i];
  }

  /** `checkBudgetBalance`'s result. */
  datatype BalanceReport = BalanceReport(isBalanced: bool, warnings: seq<string>, suggestions: seq<string>)

  const DependencyWarning: string :=
    ['\U{26A0}'] + "\U{FE0F} Les revenus extra repr\U{00E9}sentent >30% du salaire. Attention \U{00E0} la d\U{00E9}pendance !"
  const RaiseSuggestion: string :=
    ['\U{1F4BC}'] + " Consid\U{00E9}rez n\U{00E9}gocier une augmentation de salaire ou un poste mieux r\U{00E9}mun\U{00E9}r\U{00E9}"
  const LifestyleWarning: string :=
    ['\U{1F4CA}'] + " D\U{00E9}penses >75% du salaire. Les revenus extra ne doivent pas masquer ce d\U{00E9}s\U{00E9}quilibre."
  const SpendingSuggestion: string :=
    ['\U{2702}'] + "\U{FE0F} Optimisez d'abord vos d\U{00E9}penses courantes avant de compter sur les revenus extra"

  /** Extra income above 30 % of the salary makes the budget depend on it. */
  predicate DependsOnExtra(monthlySalary: real, recentExtraIncome: real) {
    Exceeds(Divide(recentExtraIncome, monthlySalary), 0.3)
  }

  /** Expenses above 75 % of the salary. */
  predicate LifestyleInflation(monthlySalary: real, monthlyExpenses: real) {
    Exceeds(Divide(monthlyExpenses, monthlySalary), 0.75)
  }

  /** `checkBudgetBalance`: each imbalance adds a warning and its paired suggestion; the budget
      is balanced exactly when there is no warning. */
  method CheckBudgetBalance(monthlySalary: real, monthlyExpenses: real, recentExtraIncome: real)
    returns (report: BalanceReport)
    ensures var dependent := DependsOnExtra(monthlySalary, recentExtraIncome);
            var inflated := LifestyleInflation(monthlySalary, monthlyExpenses);
            report.warnings
              == (if dependent then [DependencyWarning] else []) + (if inflated then [LifestyleWarning] else [])
            && report.suggestions
              == (if dependent then [RaiseSuggestion] else []) + (if inflated then [SpendingSuggestion] else [])
    ensures report.isBalanced <==> report.warnings == []
    ensures |report.warnings| == |report.suggestions| <= 2
    ensures forall i :: 0 <= i < |report.warnings| ==>
      (report.warnings[i] == DependencyWarning <==> report.suggestions[i] == RaiseSuggestion)
    ensures DependencyWarning in report.warnings <==> DependsOnExtra(monthlySalary, recentExtraIncome)
    ensures LifestyleWarning in report.warnings <==> LifestyleInflation(monthlySalary, monthlyExpenses)
  {
    var warnings: seq<string> := [];
    var suggestions: seq<string> := [];
    var extraToSalaryRatio := Divide(recentExtraIncome, monthlySalary);
    if Exceeds(extraToSalaryRatio, 0.3) {
      warnings := warnings + [DependencyWarning];
      suggestions := suggestions + [RaiseSuggestion];
    }
    var expenseToSalaryRatio := Divide(monthlyExpenses, monthlySalary);
    if Exceeds(expenseToSalaryRatio, 0.75) {
      warnings := warnings + [LifestyleWarning];
      suggestions := suggestions + [SpendingSuggestion];
    }
    assert DependencyWarning[0] != LifestyleWarning[0] && RaiseSuggestion[0] != SpendingSuggestion[0];
    report := BalanceReport(|warnings| == 0, warnings, suggestions);
  }

  /** With a positive salary the two ratios are the thresholds on the amounts themselves. */
  lemma BalanceThresholds(monthlySalary: real, monthlyExpenses: real, recentExtraIncome: real)
    requires monthlySalary > 0.0
    ensures DependsOnExtra(monthlySalary, recentExtraIncome) <==> recentExtraIncome > 0.3 * monthlySalary
    ensures LifestyleInflation(monthlySalary, monthlyExpenses) <==> monthlyExpenses > 0.75 * monthlySalary
  {
    RatioAbove(recentExtraIncome, monthlySalary, 0.3);
    RatioAbove(monthlyExpenses, monthlySalary, 0.75);
  }

  lemma RatioAbove(a: real, b: real, c: real)
    requires b > 0.0
    ensures a / b > c <==> a > c * b
  {
    assert a == (a / b) * b;
    if a / b > c {
      assert (a / b - c) * b > 0.0;
    }
    if a > c * b {
      assert (a / b - c) * b == a - c * b;
    }
  }

  /** With no salary recorded, any positive extra income or expense is an imbalance
      (the ratio is infinite), and zero amounts are not (the ratio is `NaN`). */
  lemma ZeroSalaryBalance(monthlyExpenses: real, recentExtraIncome: real)
    ensures DependsOnExtra(0.0, recentExtraIncome) <==> recentExtraIncome > 0.0
    ensures LifestyleInflation(0.0, monthlyExpenses) <==> monthlyExpenses > 0.0
  {
  }

  datatype Seasonality = Stable | Seasonal | Unpredictable

  datatype RiskLevel = Low | Medium | High

  /** The pattern of past extra income; `frequency` is incomes per month. */
  datatype IncomePattern = IncomePattern(averageAmount: Number, frequency: Number, seasonality: Seasonality)

  datatype Strategy = Strategy(strategy: string, actions: seq<string>, riskLevel: RiskLevel)

  /** `x >= c` on a JavaScript number. */
  predicate AtLeast(x: Number, c: real) {
    Exceeds(x, c) || x == Finite(c)
  }

  /** Frequent and stable extra income: raise the base goals. */
  const ProgressiveIntegration: Strategy := Strategy("Int\U{00E9}gration Progressive",
    [['\U{1F4C8}'] + " Augmentez progressivement vos objectifs d'\U{00E9}pargne de base",
     ['\U{1F3AF}'] + " Planifiez des projets plus ambitieux",
     ['\U{1F4B0}'] + " Consid\U{00E9}rez des investissements \U{00E0} plus long terme"],
    Low)

  /** Seasonal extra income: build a reserve in good periods. */
  const TemporalSmoothing: Strategy := Strategy("Lissage Temporel",
    [['\U{1F4C5}'] + " Constituez une r\U{00E9}serve pendant les bonnes p\U{00E9}riodes",
     ['\U{2696}'] + "\U{FE0F} Lissez vos d\U{00E9}penses sur l'ann\U{00E9}e",
     ['\U{1F3AF}'] + " Planifiez les gros achats pendant les pics de revenus"],
    Medium)

  /** Anything else: treat extra income as a pure bonus. */
  const MaximalPrudence: Strategy := Strategy("Prudence Maximale",
    [['\U{1F6E1}'] + "\U{FE0F} Traitez les revenus extra comme des bonus purs",
     ['\U{1F48E}'] + " Renforcez prioritairement votre coussin d'urgence",
     ['\U{274C}'] + " Ne modifiez jamais votre budget de base"],
    High)

  /** `getOptimizationStrategies`: frequent, stable income is integrated progressively (low risk);
      seasonal income is smoothed (medium risk); anything else calls for maximal prudence
      (high risk). Every strategy has three distinct actions. */
  function GetOptimizationStrategies(pattern: IncomePattern): (r: Strategy)
    ensures |r.actions| == 3
    ensures r.actions[0] != r.actions[1] && r.actions[1] != r.actions[2] && r.actions[0] != r.actions[2]
    ensures r.riskLevel == Low <==> AtLeast(pattern.frequency, 2.0) && pattern.seasonality == Stable
    ensures r.riskLevel == Medium <==> pattern.seasonality == Seasonal
    ensures r.riskLevel == High
      <==> (pattern.seasonality == Unpredictable || (pattern.seasonality == Stable && !AtLeast(pattern.frequency, 2.0)))
  {
    // The stable-and-frequent test comes first in the source, then the seasonal one; only a
    // stable pattern can pass the first, so splitting on the seasonality keeps that order.
    match pattern.seasonality
    case Stable => if AtLeast(pattern.frequency, 2.0) then ProgressiveIntegration else MaximalPrudence
    case Seasonal => TemporalSmoothing
    case Unpredictable => MaximalPrudence
  }

  function RiskRank(level: RiskLevel): nat {
    match level
    case Low => 0
    case Medium => 1
    case High => 2
  }

  /** More frequent extra income of the same seasonality never raises the risk level. */
  lemma MoreFrequentNotRiskier(pattern: IncomePattern, frequency: real)
    requires pattern.frequency.Finite? && pattern.frequency.value <= frequency
    ensures RiskRank(GetOptimizationStrategies(pattern.(frequency := Finite(frequency))).riskLevel)
      <= RiskRank(GetOptimizationStrategies(pattern).riskLevel)
  {
  }
}
