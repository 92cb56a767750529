/**
 * The scientific budget rules: a constant table of thirteen spending categories, each
 * with a recommended and a maximum share of the salary (in percent) and a list of
 * subcategories, plus the helpers that read it and the three-level validator
 * `getBudgetValidation`.
 *
 * Percentages are exact rationals (`real`); JavaScript's division by zero is
 * modelled with `Number` (NaN and the infinities).
 */
module BudgetRules {
  import opened JsBuiltins

  datatype BudgetSubcategory = BudgetSubcategory(id: string, maxPercentage: real, parentCategoryId: string)

  datatype BudgetCategory = BudgetCategory(
    id: string, maxPercentage: real, recommendedPercentage: real,
    subcategories: seq<BudgetSubcategory>, isEssential: bool, priority: int)

  /** `BUDGET_RULES`, in the order of the source. */
  const Rules: seq<BudgetCategory> := [
    BudgetCategory("logement", 20.0, 15.0, [
      BudgetSubcategory("loyer", 13.0, "logement"),
      BudgetSubcategory("charges", 1.2, "logement"),
      BudgetSubcategory("assurance_hab", 0.5, "logement"),
      BudgetSubcategory("parking_gen", 0.3, "logement")],
      true, 1),
    BudgetCategory("alimentation", 10.0, 8.5, [
      BudgetSubcategory("courses", 7.5, "alimentation"),
      BudgetSubcategory("eau_potable", 0.7, "alimentation"),
      BudgetSubcategory("gaz", 0.8, "alimentation"),
      BudgetSubcategory("hygiene", 1.0, "alimentation")],
      true, 2),
    BudgetCategory("transport", 15.0, 13.0, [
      BudgetSubcategory("carburant", 4.5, "transport"),
      BudgetSubcategory("entretien", 1.5, "transport"),
      BudgetSubcategory("assurance_auto", 0.8, "transport"),
      BudgetSubcategory("parking_lavage", 0.2, "transport")],
      true, 3),
    BudgetCategory("factures", 7.0, 6.0, [
      BudgetSubcategory("electricite", 3.0, "factures"),
      BudgetSubcategory("eau_facture", 0.7, "factures"),
      BudgetSubcategory("internet", 2.0, "factures"),
      BudgetSubcategory("telephone", 1.0, "factures"),
      BudgetSubcategory("abonnements", 0.3, "factures")],
      true, 4),
    BudgetCategory("sante", 5.0, 4.0, [
      BudgetSubcategory("mutuelle", 1.8, "sante"),
      BudgetSubcategory("consultations", 1.5, "sante"),
      BudgetSubcategory("pharmacie", 1.2, "sante"),
      BudgetSubcategory("dentaire", 0.5, "sante")],
      true, 5),
    BudgetCategory("vie_courante", 4.0, 3.5, [
      BudgetSubcategory("vetements", 1.5, "vie_courante"),
      BudgetSubcategory("coiffure", 1.0, "vie_courante"),
      BudgetSubcategory("achats_maison", 1.3, "vie_courante"),
      BudgetSubcategory("fournitures", 0.2, "vie_courante")],
      false, 6),
    BudgetCategory("couple", 5.0, 4.0, [
      BudgetSubcategory("sorties_couple", 2.5, "couple"),
      BudgetSubcategory("cadeaux_couple", 1.5, "couple"),
      BudgetSubcategory("surprises", 1.0, "couple")],
      false, 7),
    BudgetCategory("loisirs", 2.0, 1.5, [
      BudgetSubcategory("sorties_solo", 1.2, "loisirs"),
      BudgetSubcategory("livres_jeux", 0.8, "loisirs")],
      false, 8),
    BudgetCategory("famille", 3.0, 2.5, [
      BudgetSubcategory("aide_reguliere", 1.7, "famille"),
      BudgetSubcategory("ceremonies", 0.8, "famille"),
      BudgetSubcategory("cadeaux_famille", 0.5, "famille")],
      false, 9),
    BudgetCategory("education", 3.0, 2.5, [
      BudgetSubcategory("formations", 1.2, "education"),
      BudgetSubcategory("data_etudes", 0.6, "education"),
      BudgetSubcategory("livres_etudes", 1.2, "education")],
      false, 10),
    BudgetCategory("dettes", 7.0, 5.0, [
      BudgetSubcategory("mensualites", 6.0, "dettes"),
      BudgetSubcategory("interets", 1.0, "dettes")],
      true, 11),
    BudgetCategory("imprevus", 4.0, 3.5, [
      BudgetSubcategory("pannes", 2.0, "imprevus"),
      BudgetSubcategory("assurances_annuelles", 2.0, "imprevus")],
      true, 12),
    BudgetCategory("epargne", 25.0, 20.0, [
      BudgetSubcategory("urgence", 12.0, "epargne"),
      BudgetSubcategory("projets_12m", 9.0, "epargne"),
      BudgetSubcategory("long_terme", 7.0, "epargne"),
      BudgetSubcategory("placements", 6.0, "epargne")],
      true, 0)
  ]

  // ---------------------------------------------------------------------------
  // Invariants of the table

  /** Every row recommends no more than it allows, and its subcategories name it as parent. */
  predicate WellFormedRow(c: BudgetCategory) {
    && 0.0 < c.recommendedPercentage <= c.maxPercentage
    && forall j :: 0 <= j < |c.subcategories| ==> c.subcategories[j].parentCategoryId == c.id
  }

  /** The sum of a row's subcategory maxima. */
  function SubcategoryTotal(subs: seq<BudgetSubcategory>): real {
    if subs == [] then 0.0 else subs[0].maxPercentage + SubcategoryTotal(subs[1..])
  }

  lemma RulesWellFormed()
    ensures |Rules| == 13
    ensures forall i :: 0 <= i < |Rules| ==> WellFormedRow(Rules[i])
    ensures forall i, j :: 0 <= i < j < |Rules| ==> Rules[i].id != Rules[j].id
  {
    RowsWellFormed();
    IdsDistinct();
  }

  lemma RowsWellFormed()
    ensures forall i :: 0 <= i < |Rules| ==> WellFormedRow(Rules[i])
  {
  }

  lemma IdsDistinct()
    ensures forall i, j :: 0 <= i < j < |Rules| ==> Rules[i].id != Rules[j].id
  {
  }

  /** The essential and discretionary rows, by priority. */
  lemma RulesPriorities()
    ensures forall i :: 0 <= i < |Rules| ==> Rules[i].priority == (if i == 12 then 0 else i + 1)
  {
  }

  /** Every row's subcategories fit within its maximum, except savings, whose four
      subcategories allow 34 % against a 25 % maximum ("no upper limit" for saving). */
  lemma SubcategoriesFit()
    ensures forall i :: 0 <= i < 12 ==> SubcategoryTotal(Rules[i].subcategories) <= Rules[i].maxPercentage
    ensures SubcategoryTotal(Rules[12].subcategories) == 34.0
  {
    forall i | 0 <= i < 12
      ensures SubcategoryTotal(Rules[i].subcategories) <= Rules[i].maxPercentage
    {
      SubcategoryTotalSmall(Rules[i].subcategories);
    }
    SubcategoryTotalSmall(Rules[12].subcategories);
  }

  /** Unrolls the sum of a list of at most five subcategories. */
  lemma SubcategoryTotalSmall(subs: seq<BudgetSubcategory>)
    requires |subs| <= 5
    ensures SubcategoryTotal(subs) == (if |subs| > 0 then subs[0].maxPercentage else 0.0)
      + (if |subs| > 1 then subs[1].maxPercentage else 0.0) + (if |subs| > 2 then subs[2].maxPercentage else 0.0)
      + (if |subs| > 3 then subs[3].maxPercentage else 0.0) + (if |subs| > 4 then subs[4].maxPercentage else 0.0)
  {
    if |subs| > 0 {
      var s := subs[1..];
      if |s| > 0 {
        var s2 := s[1..];
        if |s2| > 0 {
          var s3 := s2[1..];
          if |s3| > 0 {
            var s4 := s3[1..];
            if |s4| > 0 {
              assert s4[1..] == [];
            }
          }
        }
      }
    }
  }

  // ---------------------------------------------------------------------------
  // Helpers

  /** `calculateBudgetAmount`: the share of a salary, rounded half up. */
  function CalculateBudgetAmount(salary: real, percentage: real): (r: int)
    ensures r as real - 0.5 <= salary * percentage / 100.0 < r as real + 0.5
  {
    Round(salary * percentage / 100.0)
  }

  function SumRecommended(rules: seq<BudgetCategory>): real {
    if rules == [] then 0.0 else rules[0].recommendedPercentage + SumRecommended(rules[1..])
  }

  function SumMaximum(rules: seq<BudgetCategory>): real {
    if rules == [] then 0.0 else rules[0].maxPercentage + SumMaximum(rules[1..])
  }

  /** A table whose rows each recommend at most their maximum recommends at most its
      maximum in total. */
  lemma {:induction false} SumRecommendedAtMostMaximum(rules: seq<BudgetCategory>)
    requires forall i :: 0 <= i < |rules| ==> rules[i].recommendedPercentage <= rules[i].maxPercentage
    ensures SumRecommended(rules) <= SumMaximum(rules)
  {
    if rules != [] {
      SumRecommendedAtMostMaximum(rules[1..]);
    }
  }

  /** Over the table itself, the total recommended never exceeds the total maximum. */
  lemma TotalRecommendedAtMostMaximum()
    ensures SumRecommended(Rules) <= SumMaximum(Rules)
  {
    RulesWellFormed();
    SumRecommendedAtMostMaximum(Rules);
  }

  /** `calculateTotalRecommended`: 89 % of the salary is recommended in all. */
  function CalculateTotalRecommended(): (r: real)
    ensures r == 89.0
  {
    TableTotals();
    SumRecommended(Rules)
  }

  /** `calculateTotalMaximum`: the maxima add up to 110 %, more than the whole salary. */
  function CalculateTotalMaximum(): (r: real)
    ensures r == 110.0
  {
    TableTotals();
    SumMaximum(Rules)
  }

  /** The recommended and the maximum shares of the rows from index `k` on, for `k` from
      0 to 13. */
  const RecommendedFrom: seq<real> :=
    [89.0, 74.0, 65.5, 52.5, 46.5, 42.5, 39.0, 35.0, 33.5, 31.0, 28.5, 23.5, 20.0, 0.0]
  const MaximumFrom: seq<real> :=
    [110.0, 90.0, 80.0, 65.0, 58.0, 53.0, 49.0, 44.0, 42.0, 39.0, 36.0, 29.0, 25.0, 0.0]

  lemma {:induction false} SuffixTotals(k: nat)
    requires k <= 13
    ensures SumRecommended(Rules[k..]) == RecommendedFrom[k] && SumMaximum(Rules[k..]) == MaximumFrom[k]
    decreases 13 - k
  {
    if k == 13 {
      assert Rules[k..] == [];
    } else {
      SuffixTotals(k + 1);
      SumsStep(Rules, k);
      RowShares();
    }
  }

  /** Each row's shares are the steps between consecutive suffix totals. */
  lemma RowShares()
    ensures forall i :: 0 <= i < 13 ==>
      && Rules[i].recommendedPercentage == RecommendedFrom[i] - RecommendedFrom[i + 1]
      && Rules[i].maxPercentage == MaximumFrom[i] - MaximumFrom[i + 1]
  {
  }

  lemma TableTotals()
    ensures SumRecommended(Rules) == 89.0 && SumMaximum(Rules) == 110.0
  {
    SuffixTotals(0);
    assert Rules[0..] == Rules;
  }

  /** Peels one row off a suffix of the table. */
  lemma SumsStep(rules: seq<BudgetCategory>, k: nat)
    requires k < |rules|
    ensures SumRecommended(rules[k..]) == rules[k].recommendedPercentage + SumRecommended(rules[k + 1..])
    ensures SumMaximum(rules[k..]) == rules[k].maxPercentage + SumMaximum(rules[k + 1..])
  {
    assert rules[k..][1..] == rules[k + 1..];
  }

  // ---------------------------------------------------------------------------
  // Validation

  /** `BUDGET_RULES.find(cat => cat.id === categoryId)`. */
  function Find(rules: seq<BudgetCategory>, categoryId: string): (r: Option<BudgetCategory>)
    ensures r.None? <==> forall i :: 0 <= i < |rules| ==> rules[i].id != categoryId
    ensures r.Some? ==> exists i :: (0 <= i < |rules| && rules[i] == r.value && r.value.id == categoryId
                                     && forall j :: 0 <= j < i ==> rules[j].id != categoryId)
  {
    if rules == [] then None
    else if rules[0].id == categoryId then Some(rules[0])
    else
      var r := Find(rules[1..], categoryId);
      assert forall i :: 1 <= i < |rules| ==> rules[i] == rules[1..][i - 1];
      r
  }

  /** Each row is what a lookup of its own id finds. */
  lemma FindRow(i: nat)
    requires i < |Rules|
    ensures Find(Rules, Rules[i].id) == Some(Rules[i])
  {
    RulesWellFormed();
    var r := Find(Rules, Rules[i].id);
    var k :| 0 <= k < |Rules| && Rules[k] == r.value && r.value.id == Rules[i].id
      && forall j :: 0 <= j < k ==> Rules[j].id != Rules[i].id;
    assert k <= i;
  }

  datatype Level = Success | Warning | Error

  /** The validator's message; the percentage is shown with `toFixed(1)`, which is not
      modelled, so the message keeps the values it displays. */
  datatype Message =
    | UnknownCategory
    | Optimal(percentage: Number, recommended: real)
    | High(percentage: Number, recommended: real, maximum: real)
    | Critical(percentage: Number, maximum: real)

  datatype Validation = Validation(isValid: bool, level: Level, message: Message, percentage: Number)

  /** `x * 100` on JavaScript numbers. */
  function Times100(x: Number): (r: Number)
    ensures x.Finite? <==> r.Finite?
    ensures x.Finite? ==> r.value == x.value * 100.0
    ensures !x.Finite? ==> r == x
  {
    match x
    case Finite(v) => Finite(v * 100.0)
    case _ => x
  }

  /** `getBudgetValidation(salary, categoryId, amount)`. */
  function GetBudgetValidation(salary: real, categoryId: string, amount: real): (r: Validation)
    ensures r.isValid <==> r.level != Error
    ensures Find(Rules, categoryId).None? ==> r == Validation(false, Error, UnknownCategory, Finite(0.0))
    ensures Find(Rules, categoryId).Some? ==>
      var c := Find(Rules, categoryId).value;
      && r.percentage == Times100(Divide(amount, salary))
      && (r.level == Success <==> AtMost(r.percentage, c.recommendedPercentage))
      && (r.level == Warning <==> !AtMost(r.percentage, c.recommendedPercentage) && AtMost(r.percentage, c.maxPercentage))
      && (r.level == Error <==> !AtMost(r.percentage, c.maxPercentage))
  {
    match Find(Rules, categoryId)
    case None => Validation(false, Error, UnknownCategory, Finite(0.0))
    case Some(category) =>
      var percentage := Times100(Divide(amount, salary));
      var recommended := category.recommendedPercentage;
      var maximum := category.maxPercentage;
      RulesWellFormed();
      assert category in Rules;
      if AtMost(percentage, recommended) then Validation(true, Success, Optimal(percentage, recommended), percentage)
      else if AtMost(percentage, maximum) then Validation(true, Warning, High(percentage, recommended, maximum), percentage)
      else Validation(false, Error, Critical(percentage, maximum), percentage)
  }

  /** `amount` is at most `percentage` % of `salary`, by cross-multiplication. */
  predicate WithinShare(amount: real, salary: real, percentage: real) {
    amount * 100.0 <= percentage * salary
  }

  /** For a positive salary the level is read off the amount: success up to the
      recommended share, warning above it up to the maximum, error above the maximum. */
  lemma ValidationLevels(salary: real, categoryId: string, amount: real, c: BudgetCategory)
    requires salary > 0.0 && Find(Rules, categoryId) == Some(c)
    ensures var r := GetBudgetValidation(salary, categoryId, amount);
      && r.percentage.Finite?
      && (r.level == Success <==> WithinShare(amount, salary, c.recommendedPercentage))
      && (r.level == Warning <==> !WithinShare(amount, salary, c.recommendedPercentage) && WithinShare(amount, salary, c.maxPercentage))
      && (r.level == Error <==> !WithinShare(amount, salary, c.maxPercentage))
  {
    var p := amount / salary * 100.0;
    ValidationShare(salary, categoryId, amount, c, p);
    ShareAtMost(amount, salary, p, c.recommendedPercentage);
    ShareAtMost(amount, salary, p, c.maxPercentage);
  }

  /** `p = amount / salary * 100` is at most `c` exactly when `amount` is within `c` %. */
  lemma ShareAtMost(amount: real, salary: real, p: real, c: real)
    requires salary > 0.0 && p == amount / salary * 100.0
    ensures p <= c <==> WithinShare(amount, salary, c)
  {
    assert p * salary == amount * 100.0;
    if p <= c {
      assert (c - p) * salary >= 0.0;
    } else {
      assert (p - c) * salary > 0.0;
    }
  }

  /** The levels in terms of the finite share `p` of a positive salary. */
  lemma ValidationShare(salary: real, categoryId: string, amount: real, c: BudgetCategory, p: real)
    requires salary > 0.0 && Find(Rules, categoryId) == Some(c) && p == amount / salary * 100.0
    ensures var r := GetBudgetValidation(salary, categoryId, amount);
      && r.percentage == Finite(p)
      && (r.level == Success <==> p <= c.recommendedPercentage)
      && (r.level == Warning <==> c.recommendedPercentage < p <= c.maxPercentage)
      && (r.level == Error <==> p > c.maxPercentage)
  {
  }

  /** With a zero salary the share is not a finite number: any positive amount, and a zero
      amount (NaN), are errors, while a negative amount passes as optimal. */
  lemma ZeroSalary(categoryId: string, amount: real)
    requires Find(Rules, categoryId).Some?
    ensures var r := GetBudgetValidation(0.0, categoryId, amount);
      && (r.level == Success <==> amount < 0.0)
      && (r.level == Error <==> amount >= 0.0)
  {
  }
}
