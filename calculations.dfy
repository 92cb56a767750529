/**
 * Budget arithmetic: the monthly envelope formulas (rent fund with a safety margin,
 * transport, food, data), sums of transactions per category over an optional date
 * window, the per-category grouping of a month, budget usage and status, and the
 * overall spending statistics.
 *
 * Amounts of transactions are whole XAF (`int`); the inputs of the formulas are
 * JavaScript numbers, taken here as exact reals. Dates are `YYYY-MM-DD` strings,
 * compared as strings.
 */
module Calculations {
  import opened JsBuiltins

  const DefaultMarginPct: real := 10.0
  const DefaultWorkingDays: real := 21.7
  const DefaultFoodDays: real := 30.0
  const DefaultWarningThreshold: real := 80.0
  const DefaultDangerThreshold: real := 100.0

  /** The fields of a transaction that the calculations read. */
  datatype Transaction = Transaction(date: string, amount: int, categoryId: string)

  // ---------------------------------------------------------------------------
  // Envelope formulas

  function Max0(x: real): (r: real)
    ensures r >= 0.0 && r >= x && (x >= 0.0 ==> r == x)
    ensures x < 0.0 ==> r == 0.0
  {
    if x < 0.0 then 0.0 else x
  }

  /** `calculateRentFund`: nothing for a non-positive rent; otherwise the rent plus a
      margin (a negative margin counting as none), rounded. */
  function CalculateRentFund(rentMonthly: real, marginPct: real): (r: int)
    ensures rentMonthly <= 0.0 ==> r == 0
    ensures rentMonthly > 0.0 ==>
      r as real - 0.5 <= rentMonthly * (1.0 + Max0(marginPct) / 100.0) < r as real + 0.5
  {
    if rentMonthly <= 0.0 then 0
    else
      var margin := if marginPct < 0.0 then 0.0 else marginPct;
      Round(rentMonthly * (1.0 + margin / 100.0))
  }

  /** The rent fund never falls below the (rounded) rent, and grows with the margin. */
  lemma RentFundCoversRent(rentMonthly: real, marginPct: real, largerMargin: real)
    requires rentMonthly > 0.0 && marginPct <= largerMargin
    ensures CalculateRentFund(rentMonthly, marginPct) >= Round(rentMonthly)
    ensures CalculateRentFund(rentMonthly, marginPct) <= CalculateRentFund(rentMonthly, largerMargin)
  {
    var m, m2 := Max0(marginPct), Max0(largerMargin);
    RoundedAtLeastRent(rentMonthly, m);
    RoundedGrowsWithMargin(rentMonthly, m, m2);
    RentFundIsRound(rentMonthly, marginPct);
    RentFundIsRound(rentMonthly, largerMargin);
  }

  lemma RoundedAtLeastRent(rent: real, m: real)
    requires rent > 0.0 && m >= 0.0
    ensures Round(rent) <= Round(rent * (1.0 + m / 100.0))
  {
    AtLeastRent(rent, m);
    RoundMonotone(rent, rent * (1.0 + m / 100.0));
  }

  lemma RoundedGrowsWithMargin(rent: real, a: real, b: real)
    requires rent > 0.0 && a <= b
    ensures Round(rent * (1.0 + a / 100.0)) <= Round(rent * (1.0 + b / 100.0))
  {
    GrowsWithMargin(rent, a, b);
    RoundMonotone(rent * (1.0 + a / 100.0), rent * (1.0 + b / 100.0));
  }

  lemma RentFundIsRound(rent: real, marginPct: real)
    requires rent > 0.0
    ensures CalculateRentFund(rent, marginPct) == Round(rent * (1.0 + Max0(marginPct) / 100.0))
  {
  }

  /** A larger margin on a positive rent gives a larger fund before rounding. */
  lemma GrowsWithMargin(rent: real, a: real, b: real)
    requires rent > 0.0 && a <= b
    ensures rent * (1.0 + a / 100.0) <= rent * (1.0 + b / 100.0)
  {
    assert rent * (1.0 + b / 100.0) - rent * (1.0 + a / 100.0) == rent * ((b - a) / 100.0);
  }

  /** A non-negative margin on a positive rent gives at least the rent. */
  lemma AtLeastRent(rent: real, m: real)
    requires rent > 0.0 && m >= 0.0
    ensures rent <= rent * (1.0 + m / 100.0)
  {
    assert rent * (1.0 + m / 100.0) - rent == rent * (m / 100.0);
  }

  /** The daily-cost formulas of `calculateTransportBudget` and `calculateFoodBudget`:
      no budget unless both factors are positive, otherwise the rounded product. */
  function DailyBudget(dailyAmount: real, days: real): (r: int)
    ensures dailyAmount <= 0.0 || days <= 0.0 ==> r == 0
    ensures dailyAmount > 0.0 && days > 0.0 ==> r as real - 0.5 <= dailyAmount * days < r as real + 0.5 && r >= 0
  {
    if dailyAmount <= 0.0 then 0
    else if days <= 0.0 then 0
    else Round(dailyAmount * days)
  }

  function CalculateTransportBudget(dailyAmount: real, workingDaysPerMonth: real): (r: int)
    ensures r == DailyBudget(dailyAmount, workingDaysPerMonth)
  {
    DailyBudget(dailyAmount, workingDaysPerMonth)
  }

  function CalculateFoodBudget(dailyAmount: real, daysPerMonth: real): (r: int)
    ensures r == DailyBudget(dailyAmount, daysPerMonth)
  {
    DailyBudget(dailyAmount, daysPerMonth)
  }

  /** `calculateDataBudget`: negative inputs count as zero; the rounded sum. */
  method CalculateDataBudget(monthlyData: real, extraCommunication: real) returns (r: int)
    ensures r >= 0
    ensures r as real - 0.5 <= Max0(monthlyData) + Max0(extraCommunication) < r as real + 0.5
  {
    var data, extra := monthlyData, extraCommunication;
    if data < 0.0 {
      data := 0.0;
    }
    if extra < 0.0 {
      extra := 0.0;
    }
    r := Round(data + extra);
  }

  /** The values the formulas' tests expect. */
  lemma FormulaExamples()
    ensures CalculateRentFund(100000.0, DefaultMarginPct) == 110000
    ensures CalculateRentFund(100000.0, 20.0) == 120000
    ensures CalculateRentFund(100000.0, -5.0) == 100000
    ensures CalculateRentFund(-1000.0, DefaultMarginPct) == 0
    ensures CalculateRentFund(33333.0, 10.0) == 36666
    ensures CalculateTransportBudget(1500.0, DefaultWorkingDays) == 32550
    ensures CalculateTransportBudget(1500.0, 22.0) == 33000
    ensures CalculateTransportBudget(1500.0, -5.0) == 0
    ensures CalculateFoodBudget(5000.0, DefaultFoodDays) == 150000
    ensures CalculateFoodBudget(5000.0, 31.0) == 155000
  {
    assert 100000.0 * (1.0 + 10.0 / 100.0) == 110000.0;
    assert 100000.0 * (1.0 + 20.0 / 100.0) == 120000.0;
    assert 33333.0 * (1.0 + 10.0 / 100.0) == 36666.3;
    assert 1500.0 * 21.7 == 32550.0;
    RoundInt(110000);
    RoundInt(120000);
    RoundInt(100000);
    RoundInt(32550);
    RoundInt(33000);
    RoundInt(150000);
    RoundInt(155000);
  }

  // ---------------------------------------------------------------------------
  // Per-category sums

  /** The filter of `sumByCategory`: the category matches and the date lies within the
      bounds, each bound being inclusive and an empty bound meaning none. */
  predicate Selected(t: Transaction, categoryId: string, startDate: string, endDate: string) {
    && t.categoryId == categoryId
    && !(startDate != "" && LexLess(t.date, startDate))
    && !(endDate != "" && LexLess(endDate, t.date))
  }

  /** `sumByCategory`: filter, then add the amounts. */
  function SumByCategory(transactions: seq<Transaction>, categoryId: string, startDate: string, endDate: string): (r: int)
    ensures transactions == [] ==> r == 0
    ensures (forall i :: 0 <= i < |transactions| ==> transactions[i].categoryId != categoryId) ==> r == 0
  {
    if transactions == [] then 0
    else
      (if Selected(transactions[0], categoryId, startDate, endDate) then transactions[0].amount else 0)
      + SumByCategory(transactions[1..], categoryId, startDate, endDate)
  }

  /** The amount of one category over a list, accumulated from the end. */
  function CategorySum(transactions: seq<Transaction>, categoryId: string): int {
    if transactions == [] then 0
    else
      var n := |transactions| - 1;
      CategorySum(transactions[..n], categoryId) + (if transactions[n].categoryId == categoryId then transactions[n].amount else 0)
  }

  /** The sum of all amounts. */
  function Total(transactions: seq<Transaction>): int {
    if transactions == [] then 0 else Total(transactions[..|transactions| - 1]) + transactions[|transactions| - 1].amount
  }

  lemma {:induction false} SumByCategoryAppend(a: seq<Transaction>, b: seq<Transaction>, c: string, s: string, e: string)
    ensures SumByCategory(a + b, c, s, e) == SumByCategory(a, c, s, e) + SumByCategory(b, c, s, e)
  {
    if a == [] {
      assert a + b == b;
    } else {
      assert (a + b)[0] == a[0] && (a + b)[1..] == a[1..] + b;
      SumByCategoryAppend(a[1..], b, c, s, e);
    }
  }

  /** Without bounds, `sumByCategory` is the category's total. */
  lemma {:induction false} SumByCategoryUnbounded(transactions: seq<Transaction>, categoryId: string)
    ensures SumByCategory(transactions, categoryId, "", "") == CategorySum(transactions, categoryId)
  {
    if transactions != [] {
      var n := |transactions| - 1;
      SumByCategoryUnbounded(transactions[..n], categoryId);
      assert transactions == transactions[..n] + [transactions[n]];
      SumByCategoryAppend(transactions[..n], [transactions[n]], categoryId, "", "");
    }
  }

  /** With non-negative amounts, a date window never adds to a category's total. */
  lemma {:induction false} SumByCategoryWindowBounded(transactions: seq<Transaction>, categoryId: string, startDate: string, endDate: string)
    requires forall i :: 0 <= i < |transactions| ==> transactions[i].amount >= 0
    ensures 0 <= SumByCategory(transactions, categoryId, startDate, endDate) <= SumByCategory(transactions, categoryId, "", "")
  {
    if transactions != [] {
      SumByCategoryWindowBounded(transactions[1..], categoryId, startDate, endDate);
    }
  }

  // ---------------------------------------------------------------------------
  // Grouping by category

  /** A JavaScript `Record<string, number>`: its keys in insertion order and its values. */
  datatype NumberRecord = NumberRecord(keys: seq<string>, values: map<string, int>)

  /** The categories of a list, in order of first appearance. */
  function CategoriesInOrder(transactions: seq<Transaction>): (order: seq<string>)
    ensures forall i, j :: 0 <= i < j < |order| ==> order[i] != order[j]
  {
    if transactions == [] then []
    else
      var n := |transactions| - 1;
      var rest := CategoriesInOrder(transactions[..n]);
      if transactions[n].categoryId in rest then rest else rest + [transactions[n].categoryId]
  }

  lemma {:induction false} AbsentCategorySum(transactions: seq<Transaction>, c: string)
    requires c !in CategoriesInOrder(transactions)
    ensures CategorySum(transactions, c) == 0
  {
    if transactions != [] {
      AbsentCategorySum(transactions[..|transactions| - 1], c);
    }
  }

  /** `keys` and `values` are the grouping of `transactions` by category. */
  ghost predicate Groups(transactions: seq<Transaction>, keys: seq<string>, values: map<string, int>) {
    && keys == CategoriesInOrder(transactions)
    && (forall c :: c in values <==> c in keys)
    && (forall c :: c in values ==> values[c] == CategorySum(transactions, c))
  }

  /** Groups amounts by category: one key per category, in first-appearance order,
      holding that category's total. */
  method GroupByCategory(transactions: seq<Transaction>) returns (spending: NumberRecord)
    ensures spending.keys == CategoriesInOrder(transactions)
    ensures forall c :: c in spending.values <==> c in spending.keys
    ensures forall c :: c in spending.values ==> spending.values[c] == CategorySum(transactions, c)
  {
    var keys: seq<string> := [];
    var values: map<string, int> := map[];
    var i := 0;
    while i < |transactions|
      invariant 0 <= i <= |transactions|
      invariant Groups(transactions[..i], keys, values)
    {
      var t := transactions[i];
      ghost var keys0, values0 := keys, values;
      if t.categoryId !in values || values[t.categoryId] == 0 {
        if t.categoryId !in values {
          keys := keys + [t.categoryId];
        }
        values := values[t.categoryId := 0];
      }
      values := values[t.categoryId := values[t.categoryId] + t.amount];
      assert values == values0[t.categoryId := (if t.categoryId in values0 then values0[t.categoryId] else 0) + t.amount];
      GroupStep(transactions, i, keys0, values0, keys, values);
      i := i + 1;
    }
    assert transactions[..i] == transactions;
    spending := NumberRecord(keys, values);
  }

  /** Adding one transaction to the grouping of a prefix groups the longer prefix. */
  lemma GroupStep(transactions: seq<Transaction>, i: nat, keys: seq<string>, values: map<string, int>,
                  keys2: seq<string>, values2: map<string, int>)
    requires i < |transactions|
    requires Groups(transactions[..i], keys, values)
    requires var t := transactions[i];
      && keys2 == (if t.categoryId in values then keys else keys + [t.categoryId])
      && values2 == values[t.categoryId := (if t.categoryId in values then values[t.categoryId] else 0) + t.amount]
    ensures Groups(transactions[..i + 1], keys2, values2)
  {
    var t := transactions[i];
    var prefix, longer := transactions[..i], transactions[..i + 1];
    assert longer[..i] == prefix && longer[i] == t;
    if t.categoryId !in keys {
      AbsentCategorySum(prefix, t.categoryId);
    }
    forall c | c in values2
      ensures values2[c] == CategorySum(longer, c)
    {
      assert CategorySum(longer, c) == CategorySum(prefix, c) + (if t.categoryId == c then t.amount else 0);
    }
  }

  /** The transactions whose date starts with the month `YYYY-MM`, in their order. */
  function InMonth(transactions: seq<Transaction>, month: string): (r: seq<Transaction>)
    ensures |r| <= |transactions|
    ensures forall i :: 0 <= i < |r| ==> StartsWith(r[i].date, month)
    ensures forall t :: t in r <==> t in transactions && StartsWith(t.date, month)
  {
    if transactions == [] then []
    else
      var n := |transactions| - 1;
      assert transactions == transactions[..n] + [transactions[n]];
      InMonth(transactions[..n], month) + (if StartsWith(transactions[n].date, month) then [transactions[n]] else [])
  }

  /** Filtering a list with one more transaction at its end. */
  lemma InMonthSnoc(s: seq<Transaction>, t: Transaction, month: string)
    ensures InMonth(s + [t], month) == InMonth(s, month) + (if StartsWith(t.date, month) then [t] else [])
  {
    assert (s + [t])[..|s|] == s;
  }

  /** The month filter keeps the order: filtering a concatenation concatenates the filtered parts. */
  lemma {:induction false} InMonthAppend(a: seq<Transaction>, b: seq<Transaction>, month: string)
    ensures InMonth(a + b, month) == InMonth(a, month) + InMonth(b, month)
  {
    if b == [] {
      assert a + b == a;
    } else {
      var n := |b| - 1;
      var init, t := b[..n], b[n];
      assert b == init + [t];
      assert a + b == (a + init) + [t];
      InMonthSnoc(a + init, t, month);
      InMonthSnoc(init, t, month);
      InMonthAppend(a, init, month);
    }
  }

  /** `getMonthlySpendingByCategory` with the current month `YYYY-MM` (UTC) as a
      parameter, used when `month` is empty or absent. */
  method GetMonthlySpendingByCategory(transactions: seq<Transaction>, month: string, currentMonth: string)
    returns (spending: NumberRecord)
    ensures var inMonth := InMonth(transactions, if month != "" then month else currentMonth);
      && spending.keys == CategoriesInOrder(inMonth)
      && (forall c :: c in spending.values <==> c in spending.keys)
      && (forall c :: c in spending.values ==> spending.values[c] == CategorySum(inMonth, c))
  {
    var targetMonth := if month != "" then month else currentMonth;
    var monthTransactions := InMonth(transactions, targetMonth);
    spending := GroupByCategory(monthTransactions);
  }

  /** The sum of a record's values, in key order. */
  function SumValues(keys: seq<string>, values: map<string, int>): int
    requires forall i :: 0 <= i < |keys| ==> keys[i] in values
  {
    if keys == [] then 0 else values[keys[0]] + SumValues(keys[1..], values)
  }

  /** The sum of the category totals of the given keys. */
  function SumOfCategories(keys: seq<string>, transactions: seq<Transaction>): int {
    if keys == [] then 0 else CategorySum(transactions, keys[0]) + SumOfCategories(keys[1..], transactions)
  }

  lemma {:induction false} SumOfCategoriesAppendKey(keys: seq<string>, c: string, transactions: seq<Transaction>)
    ensures SumOfCategories(keys + [c], transactions) == SumOfCategories(keys, transactions) + CategorySum(transactions, c)
  {
    if keys == [] {
      assert keys + [c] == [c];
    } else {
      assert (keys + [c])[0] == keys[0] && (keys + [c])[1..] == keys[1..] + [c];
      SumOfCategoriesAppendKey(keys[1..], c, transactions);
    }
  }

  lemma {:induction false} SumOfCategoriesAppendTransaction(keys: seq<string>, transactions: seq<Transaction>, t: Transaction)
    requires forall i, j :: 0 <= i < j < |keys| ==> keys[i] != keys[j]
    ensures SumOfCategories(keys, transactions + [t])
      == SumOfCategories(keys, transactions) + (if t.categoryId in keys then t.amount else 0)
  {
    assert (transactions + [t])[..|transactions|] == transactions;
    if keys != [] {
      SumOfCategoriesAppendTransaction(keys[1..], transactions, t);
      assert t.categoryId in keys <==> t.categoryId == keys[0] || t.categoryId in keys[1..];
    }
  }

  /** The category totals of all present categories add up to the grand total. */
  lemma {:induction false} CategoryTotalsAddUp(transactions: seq<Transaction>)
    ensures SumOfCategories(CategoriesInOrder(transactions), transactions) == Total(transactions)
  {
    if transactions != [] {
      var n := |transactions| - 1;
      var init, t := transactions[..n], transactions[n];
      assert transactions == init + [t];
      var rest := CategoriesInOrder(init);
      CategoryTotalsAddUp(init);
      SumOfCategoriesAppendTransaction(rest, init, t);
      if t.categoryId !in rest {
        SumOfCategoriesAppendKey(rest, t.categoryId, transactions);
        AbsentCategorySum(init, t.categoryId);
      }
    }
  }

  lemma {:induction false} SumValuesOfTotals(keys: seq<string>, values: map<string, int>, transactions: seq<Transaction>)
    requires forall i :: 0 <= i < |keys| ==> keys[i] in values && values[keys[i]] == CategorySum(transactions, keys[i])
    ensures SumValues(keys, values) == SumOfCategories(keys, transactions)
  {
    if keys != [] {
      SumValuesOfTotals(keys[1..], values, transactions);
    }
  }

  /** The monthly record's values add up to the month's total spending. */
  lemma MonthlySpendingAddsUp(transactions: seq<Transaction>, month: string, spending: NumberRecord)
    requires spending.keys == CategoriesInOrder(InMonth(transactions, month))
    requires forall c :: c in spending.values <==> c in spending.keys
    requires forall c :: c in spending.values ==> spending.values[c] == CategorySum(InMonth(transactions, month), c)
    ensures forall i :: 0 <= i < |spending.keys| ==> spending.keys[i] in spending.values
    ensures SumValues(spending.keys, spending.values) == Total(InMonth(transactions, month))
  {
    var inMonth := InMonth(transactions, month);
    SumValuesOfTotals(spending.keys, spending.values, inMonth);
    CategoryTotalsAddUp(inMonth);
  }

  // ---------------------------------------------------------------------------
  // Usage and status

  /** `calculateBudgetUsage`: the share of the budget spent, in percent, capped at 100;
      0 for a non-positive budget, negative spending counting as none. */
  function CalculateBudgetUsage(spent: real, budget: real): (r: real)
    ensures 0.0 <= r <= 100.0
    ensures r == 100.0 <==> budget > 0.0 && spent >= budget
    ensures r == 0.0 <==> budget <= 0.0 || spent <= 0.0
    ensures budget > 0.0 && 0.0 <= spent <= budget ==> r * budget == spent * 100.0
  {
    if budget <= 0.0 then 0.0
    else
      var s := if spent < 0.0 then 0.0 else spent;
      var percentage := (s / budget) * 100.0;
      if percentage < 100.0 then percentage else 100.0
  }

  datatype BudgetStatus = Ok | Warning | Danger

  /** `getBudgetStatus`: danger from the danger threshold on, warning from the warning
      threshold on, ok below. */
  function GetBudgetStatus(spent: real, budget: real, warningThreshold: real, dangerThreshold: real): (r: BudgetStatus)
    ensures r == Danger <==> CalculateBudgetUsage(spent, budget) >= dangerThreshold
    ensures r == Warning <==> warningThreshold <= CalculateBudgetUsage(spent, budget) < dangerThreshold
    ensures r == BudgetStatus.Ok <==> CalculateBudgetUsage(spent, budget) < warningThreshold && CalculateBudgetUsage(spent, budget) < dangerThreshold
  {
    var usage := CalculateBudgetUsage(spent, budget);
    if usage >= dangerThreshold then Danger
    else if usage >= warningThreshold then Warning
    else BudgetStatus.Ok
  }

  /** With the default thresholds: danger exactly when the whole budget is spent,
      warning exactly from 80 % of it, and a zero budget is always ok. */
  lemma DefaultStatus(spent: real, budget: real)
    ensures GetBudgetStatus(spent, budget, DefaultWarningThreshold, DefaultDangerThreshold) == Danger
      <==> budget > 0.0 && spent >= budget
    ensures GetBudgetStatus(spent, budget, DefaultWarningThreshold, DefaultDangerThreshold) == Warning
      <==> budget > 0.0 && 0.8 * budget <= spent < budget
  {
    var usage := CalculateBudgetUsage(spent, budget);
    if budget > 0.0 && 0.0 <= spent < budget {
      WarningShare(usage, spent, budget);
    }
  }

  /** A usage of at least 80 % means at least 0.8 of the budget is spent. */
  lemma WarningShare(usage: real, spent: real, budget: real)
    requires budget > 0.0
    requires usage * budget == spent * 100.0
    ensures usage >= 80.0 <==> spent >= 0.8 * budget
  {
    if usage >= 80.0 {
      assert (usage - 80.0) * budget >= 0.0;
    } else {
      assert (80.0 - usage) * budget > 0.0;
    }
  }

  // ---------------------------------------------------------------------------
  // Financial statistics

  datatype CategoryAmount = CategoryAmount(categoryId: string, amount: int)

  datatype FinancialStats = FinancialStats(totalSpent: int, transactionCount: nat, averageTransaction: int,
                                           topCategory: Option<CategoryAmount>, dailyAverage: int)

  /** Position `k` of the grouping of `transactions` holds the first of the largest
      category totals, and that total is positive. */
  predicate IsTopCategoryAt(transactions: seq<Transaction>, k: nat) {
    var keys := CategoriesInOrder(transactions);
    && k < |keys|
    && CategorySum(transactions, keys[k]) > 0
    && (forall j :: 0 <= j < k ==> CategorySum(transactions, keys[j]) < CategorySum(transactions, keys[k]))
    && (forall j :: k < j < |keys| ==> CategorySum(transactions, keys[j]) <= CategorySum(transactions, keys[k]))
  }

  /** What the `reduce` over the grouping of a non-empty list yields: the first
      category with the largest total, when that total is positive; otherwise the
      initial value `('', 0)`. */
  ghost predicate IsTopCategory(transactions: seq<Transaction>, top: CategoryAmount) {
    var keys := CategoriesInOrder(transactions);
    if forall j :: 0 <= j < |keys| ==> CategorySum(transactions, keys[j]) <= 0 then top == CategoryAmount("", 0)
    else exists k: nat :: IsTopCategoryAt(transactions, k) && top == CategoryAmount(keys[k], CategorySum(transactions, keys[k]))
  }

  /** Of two candidate positions, the later one's total is not the largest. */
  lemma TopCategoryAtUnique(transactions: seq<Transaction>, k1: nat, k2: nat)
    requires k1 < k2
    ensures !(IsTopCategoryAt(transactions, k1) && IsTopCategoryAt(transactions, k2))
  {
    var keys := CategoriesInOrder(transactions);
    if IsTopCategoryAt(transactions, k2) {
      assert CategorySum(transactions, keys[k1]) < CategorySum(transactions, keys[k2]);
    }
  }

  /** So the top category is unique. */
  lemma TopCategoryUnique(transactions: seq<Transaction>, a: CategoryAmount, b: CategoryAmount)
    requires IsTopCategory(transactions, a) && IsTopCategory(transactions, b)
    ensures a == b
  {
    var keys := CategoriesInOrder(transactions);
    if !(forall j :: 0 <= j < |keys| ==> CategorySum(transactions, keys[j]) <= 0) {
      var ka: nat :| IsTopCategoryAt(transactions, ka) && a == CategoryAmount(keys[ka], CategorySum(transactions, keys[ka]));
      var kb: nat :| IsTopCategoryAt(transactions, kb) && b == CategoryAmount(keys[kb], CategorySum(transactions, keys[kb]));
      if ka < kb {
        TopCategoryAtUnique(transactions, ka, kb);
      } else if kb < ka {
        TopCategoryAtUnique(transactions, kb, ka);
      }
    }
  }

  /** What the `reduce` over a record yields, with `k` the position of the winning key:
      `('', 0)` (k = -1) when no amount is positive, otherwise the first key with the
      largest amount. */
  predicate RecordTop(spending: NumberRecord, top: CategoryAmount, k: int)
    requires forall i :: 0 <= i < |spending.keys| ==> spending.keys[i] in spending.values
  {
    var keys, values := spending.keys, spending.values;
    && -1 <= k < |keys|
    && (k == -1 ==> top == CategoryAmount("", 0) && forall i :: 0 <= i < |keys| ==> values[keys[i]] <= 0)
    && (k >= 0 ==>
        && top == CategoryAmount(keys[k], values[keys[k]]) && values[keys[k]] > 0
        && (forall i :: 0 <= i < k ==> values[keys[i]] < values[keys[k]])
        && (forall i :: k < i < |keys| ==> values[keys[i]] <= values[keys[k]]))
  }

  /** `Object.entries(spending).reduce((max, [c, a]) => a > max.amount ? {c, a} : max, {'', 0})`. */
  method ReduceTopCategory(spending: NumberRecord) returns (top: CategoryAmount, ghost k: int)
    requires forall i :: 0 <= i < |spending.keys| ==> spending.keys[i] in spending.values
    ensures RecordTop(spending, top, k)
  {
    var keys, values := spending.keys, spending.values;
    top := CategoryAmount("", 0);
    k := -1;
    var j := 0;
    while j < |keys|
      invariant 0 <= j <= |keys| && -1 <= k < j
      invariant k == -1 ==> top == CategoryAmount("", 0) && forall i :: 0 <= i < j ==> values[keys[i]] <= 0
      invariant k >= 0 ==>
        && top == CategoryAmount(keys[k], values[keys[k]]) && values[keys[k]] > 0
        && (forall i :: 0 <= i < k ==> values[keys[i]] < values[keys[k]])
        && (forall i :: k < i < j ==> values[keys[i]] <= values[keys[k]])
    {
      var amount := values[keys[j]];
      if amount > top.amount {
        top := CategoryAmount(keys[j], amount);
        k := j;
      }
      j := j + 1;
    }
  }

  /** On the grouping of a list, the `reduce` finds its top category. */
  lemma TopCategoryOfGrouping(spending: NumberRecord, transactions: seq<Transaction>, top: CategoryAmount, k: int)
    requires spending.keys == CategoriesInOrder(transactions)
    requires forall c :: c in spending.values <==> c in spending.keys
    requires forall c :: c in spending.values ==> spending.values[c] == CategorySum(transactions, c)
    requires forall i :: 0 <= i < |spending.keys| ==> spending.keys[i] in spending.values
    requires RecordTop(spending, top, k)
    ensures IsTopCategory(transactions, top)
  {
    var keys := spending.keys;
    forall i | 0 <= i < |keys|
      ensures spending.values[keys[i]] == CategorySum(transactions, keys[i])
    {
      assert keys[i] in keys;
    }
    if k >= 0 {
      assert IsTopCategoryAt(transactions, k);
    }
  }

  /** The top category of a grouping: `null` for an empty record, else the `reduce`. */
  method TopCategoryOf(spending: NumberRecord, ghost transactions: seq<Transaction>)
    returns (topCategory: Option<CategoryAmount>)
    requires spending.keys == CategoriesInOrder(transactions)
    requires forall c :: c in spending.values <==> c in spending.keys
    requires forall c :: c in spending.values ==> spending.values[c] == CategorySum(transactions, c)
    ensures topCategory.None? <==> transactions == []
    ensures topCategory.Some? ==> IsTopCategory(transactions, topCategory.value)
  {
    GroupedNonEmpty(transactions);
    topCategory := None;
    if |spending.keys| > 0 {
      assert forall i :: 0 <= i < |spending.keys| ==> spending.keys[i] in spending.keys;
      var top, k := ReduceTopCategory(spending);
      TopCategoryOfGrouping(spending, transactions, top, k);
      topCategory := Some(top);
    }
  }

  /** The aggregates the two versions of `calculateFinancialStats` share. */
  predicate StatsTotals(filtered: seq<Transaction>, stats: FinancialStats) {
    && stats.totalSpent == Total(filtered)
    && stats.transactionCount == |filtered|
    && stats.averageTransaction == (if |filtered| > 0 then Round(Total(filtered) as real / |filtered| as real) else 0)
    && stats.dailyAverage == Round(Total(filtered) as real / 30.0)
  }

  /** The transactions the statistics cover: those of `month` when one is given. */
  function StatsScope(transactions: seq<Transaction>, month: string): seq<Transaction> {
    if month != "" then InMonth(transactions, month) else transactions
  }

  lemma GroupedNonEmpty(transactions: seq<Transaction>)
    ensures |CategoriesInOrder(transactions)| > 0 <==> transactions != []
  {
  }

  /** `calculateFinancialStats` as written: the top category is looked for with
      `getMonthlySpendingByCategory(filtered)`, i.e. among the filtered transactions
      of the CURRENT month only. */
  method CalculateFinancialStatsAsWritten(transactions: seq<Transaction>, month: string, currentMonth: string)
    returns (stats: FinancialStats)
    ensures StatsTotals(StatsScope(transactions, month), stats)
    ensures var grouped := InMonth(StatsScope(transactions, month), currentMonth);
      && (stats.topCategory.None? <==> grouped == [])
      && (stats.topCategory.Some? ==> IsTopCategory(grouped, stats.topCategory.value))
  {
    var filtered := StatsScope(transactions, month);
    var totalSpent := Total(filtered);
    var transactionCount := |filtered|;
    var averageTransaction := if transactionCount > 0 then totalSpent as real / transactionCount as real else 0.0;
    var categorySpending := GetMonthlySpendingByCategory(filtered, "", currentMonth);
    ghost var grouped := InMonth(filtered, currentMonth);
    var topCategory := TopCategoryOf(categorySpending, grouped);
    var dailyAverage := totalSpent as real / 30.0;
    RoundInt(totalSpent);
    stats := FinancialStats(Round(totalSpent as real), transactionCount, Round(averageTransaction), topCategory, Round(dailyAverage));
  }

  /** `calculateFinancialStats` with the grouping applied to the filtered transactions
      themselves, as its comment and its test describe. */
  method CalculateFinancialStats(transactions: seq<Transaction>, month: string)
    returns (stats: FinancialStats)
    ensures StatsTotals(StatsScope(transactions, month), stats)
    ensures var filtered := StatsScope(transactions, month);
      && (stats.topCategory.None? <==> filtered == [])
      && (stats.topCategory.Some? ==> IsTopCategory(filtered, stats.topCategory.value))
  {
    var filtered := StatsScope(transactions, month);
    var totalSpent := Total(filtered);
    var transactionCount := |filtered|;
    var averageTransaction := if transactionCount > 0 then totalSpent as real / transactionCount as real else 0.0;
    var categorySpending := GroupByCategory(filtered);
    var topCategory := TopCategoryOf(categorySpending, filtered);
    var dailyAverage := totalSpent as real / 30.0;
    RoundInt(totalSpent);
    stats := FinancialStats(Round(totalSpent as real), transactionCount, Round(averageTransaction), topCategory, Round(dailyAverage));
  }

  /** The four September 2025 transactions of the statistics test. */
  function SeptemberTransactions(): seq<Transaction> {
    [Transaction("2025-09-01", 1500, "cat_transport"),
     Transaction("2025-09-02", 5000, "cat_alimentation"),
     Transaction("2025-09-03", 2500, "cat_data"),
     Transaction("2025-09-04", 1500, "cat_transport")]
  }

  /** None of them is dated October 2025. */
  lemma NoneInOctober()
    ensures InMonth(SeptemberTransactions(), "2025-10") == []
  {
    var txs := SeptemberTransactions();
    forall i | 0 <= i < 4
      ensures !StartsWith(txs[i].date, "2025-10")
    {
      assert txs[i].date[..7][6] == '9';
    }
    assert txs[..1][..0] == [];
    assert InMonth(txs[..1], "2025-10") == [];
    assert txs[..2][..1] == txs[..1];
    assert InMonth(txs[..2], "2025-10") == [];
    assert txs[..3][..2] == txs[..2];
    assert InMonth(txs[..3], "2025-10") == [];
    assert txs[..3] == txs[..|txs| - 1];
  }

  lemma SeptemberGrouping()
    ensures CategoriesInOrder(SeptemberTransactions()) == ["cat_transport", "cat_alimentation", "cat_data"]
    ensures CategorySum(SeptemberTransactions(), "cat_transport") == 3000
    ensures CategorySum(SeptemberTransactions(), "cat_alimentation") == 5000
    ensures CategorySum(SeptemberTransactions(), "cat_data") == 2500
    ensures Total(SeptemberTransactions()) == 10500
  {
    var txs := SeptemberTransactions();
    var p1, p2, p3 := txs[..1], txs[..2], txs[..3];
    assert p1[..0] == [] && p2[..1] == p1 && p3[..2] == p2 && txs[..|txs| - 1] == p3;
    assert CategoriesInOrder(p1) == ["cat_transport"];
    assert CategoriesInOrder(p2) == ["cat_transport", "cat_alimentation"];
    assert CategoriesInOrder(p3) == ["cat_transport", "cat_alimentation", "cat_data"];
    assert "cat_transport" != "cat_alimentation" && "cat_transport" != "cat_data"
      && "cat_alimentation" != "cat_data";
    assert CategorySum(p1, "cat_transport") == 1500 && CategorySum(p1, "cat_alimentation") == 0;
    assert CategorySum(p1, "cat_data") == 0 && Total(p1) == 1500;
    assert CategorySum(p2, "cat_transport") == 1500 && CategorySum(p2, "cat_alimentation") == 5000;
    assert CategorySum(p2, "cat_data") == 0 && Total(p2) == 6500;
    assert CategorySum(p3, "cat_transport") == 1500;
    assert CategorySum(p3, "cat_alimentation") == 5000;
    assert CategorySum(p3, "cat_data") == 2500;
    assert Total(p3) == 9000;
  }

  /** Run in any month but September 2025, the statistics as written report no top
      category for the test's transactions, whose totals they do count. */
  method TopCategoryLostOutsideSeptember() returns (stats: FinancialStats)
    ensures stats.totalSpent == 10500 && stats.transactionCount == 4
    ensures stats.topCategory.None?
  {
    NoneInOctober();
    SeptemberGrouping();
    stats := CalculateFinancialStatsAsWritten(SeptemberTransactions(), "", "2025-10");
  }

  /** The corrected statistics find the test's expected top category in any month. */
  method TopCategoryFound() returns (stats: FinancialStats)
    ensures stats.totalSpent == 10500 && stats.transactionCount == 4 && stats.averageTransaction == 2625
    ensures stats.dailyAverage == 350
    ensures stats.topCategory == Some(CategoryAmount("cat_alimentation", 5000))
  {
    var txs := SeptemberTransactions();
    SeptemberGrouping();
    stats := CalculateFinancialStats(txs, "");
    RoundInt(2625);
    RoundInt(350);
    assert 10500.0 / 4.0 == 2625.0 && 10500.0 / 30.0 == 350.0;
    assert IsTopCategoryAt(txs, 1);
    TopCategoryUnique(txs, stats.topCategory.value, CategoryAmount("cat_alimentation", 5000));
  }
}
