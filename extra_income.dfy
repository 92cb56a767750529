/**
 * Extra income: the 60/30/10 split of a one-off income into the emergency
 * savings, projects and leisure envelopes, the amount validator, the advice bands,
 * the transactions that record a split, and the statistics over a list of extra
 * incomes. Amounts are whole XAF.
 */
module ExtraIncome {
  import opened JsBuiltins

  const SavingsPercent: int := 60
  const ProjectsPercent: int := 30
  const LeisurePercent: int := 10

  const MaxAmount: int := 10000000

  datatype IncomeType = Bonus | Freelance | Gift | Refund | Sale | Investment | Other

  /** The display label of each income type. */
  function TypeLabel(t: IncomeType): string {
    match t
    case Bonus => "Prime/Bonus"
    case Freelance => "Travail freelance"
    case Gift => "Cadeau/Don reçu"
    case Refund => "Remboursement"
    case Sale => "Vente (objet, service)"
    case Investment => "Gain investissement"
    case Other => "Autre revenu"
  }

  datatype Split = Split(totalAmount: int, savings: int, projects: int, leisure: int)

  // ---------------------------------------------------------------------------
  // The split

  /** What is left of the amount once the three floored percentages are taken. */
  function Remainder(amount: int): (r: int)
    requires amount >= 0
    ensures 0 <= r <= 2
  {
    var r := amount - (amount * SavingsPercent / 100 + amount * ProjectsPercent / 100 + amount * LeisurePercent / 100);
    RemainderBounds(amount);
    r
  }

  lemma {:induction false} RemainderBounds(amount: int)
    requires amount >= 0
    ensures 0 <= amount - (amount * SavingsPercent / 100 + amount * ProjectsPercent / 100 + amount * LeisurePercent / 100) <= 2
  {
    var q, d := amount / 10, amount % 10;
    assert amount == 10 * q + d;
    assert amount * 60 / 100 == 6 * q + (6 * d) / 10;
    assert amount * 30 / 100 == 3 * q + (3 * d) / 10;
    assert amount * 10 / 100 == q;
  }

  /** The split in closed form: the floored 60/30/10 shares, with a remainder of 1
      going to savings and a remainder of 2 going one to savings, one to leisure. */
  function ExtraIncomeSplit(amount: int): (r: Split)
    ensures amount <= 0 ==> r == Split(0, 0, 0, 0)
    ensures amount > 0 ==> r.totalAmount == amount && r.savings + r.projects + r.leisure == amount
    ensures amount > 0 ==>
      && amount * SavingsPercent / 100 <= r.savings <= amount * SavingsPercent / 100 + 1
      && r.projects == amount * ProjectsPercent / 100
      && amount * LeisurePercent / 100 <= r.leisure <= amount * LeisurePercent / 100 + 1
    ensures amount > 0 && Remainder(amount) == 0 ==>
      r.savings == amount * SavingsPercent / 100 && r.leisure == amount * LeisurePercent / 100
    ensures amount > 0 && Remainder(amount) == 1 ==>
      r.savings == amount * SavingsPercent / 100 + 1 && r.leisure == amount * LeisurePercent / 100
    ensures amount > 0 && Remainder(amount) == 2 ==>
      r.savings == amount * SavingsPercent / 100 + 1 && r.leisure == amount * LeisurePercent / 100 + 1
    ensures r.savings >= 0 && r.projects >= 0 && r.leisure >= 0
  {
    if amount <= 0 then Split(0, 0, 0, 0)
    else
      var rem := Remainder(amount);
      Split(amount,
            amount * SavingsPercent / 100 + (if rem >= 1 then 1 else 0),
            amount * ProjectsPercent / 100,
            amount * LeisurePercent / 100 + (if rem == 2 then 1 else 0))
  }

  /** `calculateExtraIncomeSplit`: floored shares, then the remainder handed out with
      `Math.floor(remainder * 0.6)` and `Math.floor(remainder * 0.3)`. */
  method CalculateExtraIncomeSplit(amount: int) returns (r: Split)
    ensures r == ExtraIncomeSplit(amount)
  {
    if amount <= 0 {
      return Split(0, 0, 0, 0);
    }
    var savingsBase := amount * SavingsPercent / 100;
    var projectsBase := amount * ProjectsPercent / 100;
    var leisureBase := amount * LeisurePercent / 100;
    var totalCalculated := savingsBase + projectsBase + leisureBase;
    var remainder := amount - totalCalculated;
    RemainderBounds(amount);
    var savings, projects, leisure := savingsBase, projectsBase, leisureBase;
    if remainder > 0 {
      if remainder >= 2 {
        savings := savings + (remainder as real * 0.6).Floor;
        projects := projects + (remainder as real * 0.3).Floor;
        leisure := leisure + remainder - (remainder as real * 0.6).Floor - (remainder as real * 0.3).Floor;
      } else if remainder == 1 {
        savings := savings + 1;
      }
    }
    r := Split(amount, savings, projects, leisure);
  }

  // ---------------------------------------------------------------------------
  // Advice

  datatype AmountBand = Large | Medium | Small | Modest

  /** The four advice bands, by thresholds 100 000, 50 000 and 10 000 XAF. */
  function Band(amount: int): (b: AmountBand)
    ensures b == Large <==> amount >= 100000
    ensures b == Medium <==> 50000 <= amount < 100000
    ensures b == Small <==> 10000 <= amount < 50000
    ensures b == Modest <==> amount < 10000
  {
    if amount >= 100000 then Large
    else if amount >= 50000 then Medium
    else if amount >= 10000 then Small
    else Modest
  }

  /** The advice texts, two per band. */
  const SavingsBoostTip: string := "💰 Gros montant ! Parfait pour renforcer votre épargne d'urgence"
  const InvestProjectsTip: string := "🎯 Considérez investir la partie \"Projets\" dans un placement"
  const AccelerateTip: string := "📈 Montant intéressant pour accélérer vos objectifs"
  const LeisureOutingTip: string := "🎁 La partie \"Loisirs\" peut financer une sortie spéciale"
  const EveryExtraTip: string := "✨ Chaque petit extra compte pour votre liberté financière"
  const SmallSavingsTip: string := "🏦 Même 6 000 XAF en épargne font la différence"
  const VictoryTip: string := "🌟 Tout revenu extra est une victoire !"
  const KeepOptimizingTip: string := "💪 Continuez à optimiser vos finances"

  /** The two tips of each band, in order. */
  function BandTips(b: AmountBand): (tips: seq<string>)
    ensures |tips| == 2
  {
    match b
    case Large => [SavingsBoostTip,
                   InvestProjectsTip]
    case Medium => [AccelerateTip,
                    LeisureOutingTip]
    case Small => [EveryExtraTip,
                   SmallSavingsTip]
    case Modest => [VictoryTip,
                    KeepOptimizingTip]
  }

  /** `generateExtraIncomeAdvice`: two tips pushed according to the amount's band. */
  method GenerateExtraIncomeAdvice(amount: int) returns (advice: seq<string>)
    ensures |advice| == 2
    ensures advice == BandTips(Band(amount))
  {
    advice := [];
    if amount >= 100000 {
      advice := advice + [SavingsBoostTip];
      advice := advice + [InvestProjectsTip];
    } else if amount >= 50000 {
      advice := advice + [AccelerateTip];
      advice := advice + [LeisureOutingTip];
    } else if amount >= 10000 {
      advice := advice + [EveryExtraTip];
      advice := advice + [SmallSavingsTip];
    } else {
      advice := advice + [VictoryTip];
      advice := advice + [KeepOptimizingTip];
    }
  }

  // ---------------------------------------------------------------------------
  // Validation

  /** The validator's argument: typed text, or a number. */
  datatype AmountInput = Text(text: string) | Numeric(number: Number)

  datatype AmountCheck = AmountCheck(isValid: bool, amount: real, error: Option<string>)

  const InvalidAmount: string := "Montant invalide"
  const NotPositive: string := "Le montant doit être positif"
  const TooLarge: string := "Montant trop élevé"

  /** The number the validator works on: text loses its whitespace and goes through
      `parseInt(…, 10)`. */
  function InputNumber(input: AmountInput): (n: Number)
    ensures input.Text? ==> (n.NaN? || n.Finite?)
  {
    match input
    case Text(s) =>
      (match ParseInt(RemoveWhitespace(s), Ten)
       case None => NaN
       case Some(v) => Finite(v as real))
    case Numeric(x) => x
  }

  /** `validateExtraIncomeAmount`: NaN, then not positive, then above 10 000 000 are
      rejected in that order with amount 0; anything else is accepted as is. */
  function ValidateExtraIncomeAmount(input: AmountInput): (r: AmountCheck)
    ensures r.isValid <==> InputNumber(input).Finite? && 0.0 < InputNumber(input).value <= MaxAmount as real
    ensures r.isValid ==> r.amount == InputNumber(input).value && r.error.None?
    ensures !r.isValid ==> r.amount == 0.0 && r.error.Some?
    ensures r.error == Some(InvalidAmount) <==> InputNumber(input).NaN?
    ensures r.error == Some(NotPositive) <==> !InputNumber(input).NaN? && AtMost(InputNumber(input), 0.0)
    ensures r.error == Some(TooLarge) <==> Exceeds(InputNumber(input), MaxAmount as real)
  {
    var n := InputNumber(input);
    if n.NaN? then AmountCheck(false, 0.0, Some(InvalidAmount))
    else if AtMost(n, 0.0) then AmountCheck(false, 0.0, Some(NotPositive))
    else if Exceeds(n, MaxAmount as real) then AmountCheck(false, 0.0, Some(TooLarge))
    else AmountCheck(true, n.value, None)
  }

  /** A whole amount typed as its digits, with whitespace anywhere (such as the
      group separators of a formatted amount), is accepted as that amount. */
  lemma ValidateTypedAmount(s: string, n: nat)
    requires RemoveWhitespace(s) == NatToString(n)
    requires 0 < n <= MaxAmount
    ensures ValidateExtraIncomeAmount(Text(s)) == AmountCheck(true, n as real, None)
  {
    ParseIntOfNatToString(n);
  }

  /** Typed text whose first non-blank character is a minus sign is never accepted. */
  lemma ValidateTextRejectsSign(s: string)
    requires RemoveWhitespace(s) != [] && RemoveWhitespace(s)[0] == '-'
    ensures !ValidateExtraIncomeAmount(Text(s)).isValid
  {
    ParseIntOfMinus(RemoveWhitespace(s), Ten);
  }

  // ---------------------------------------------------------------------------
  // Transactions

  datatype Kind = IncomeEntry | ExpenseEntry

  datatype Entry = Entry(kind: Kind, amount: int, categoryId: string, note: string, date: string)

  const ExtraIncomeCategory: string := "extra_income"
  const SavingsCategory: string := "savings_emergency"
  const ProjectsCategory: string := "savings_projects"
  const LeisureCategory: string := "leisure"

  /** The envelope transfers recorded for a split: one expense per positive share,
      savings first, then projects, then leisure. */
  function Allocation(split: Split, base: string, date: string): seq<Entry> {
    (if split.savings > 0 then [Entry(ExpenseEntry, split.savings, SavingsCategory, base + " - Épargne (60%)", date)] else [])
    + (if split.projects > 0 then [Entry(ExpenseEntry, split.projects, ProjectsCategory, base + " - Projets (30%)", date)] else [])
    + (if split.leisure > 0 then [Entry(ExpenseEntry, split.leisure, LeisureCategory, base + " - Loisirs (10%)", date)] else [])
  }

  function EntryTotal(entries: seq<Entry>): int {
    if entries == [] then 0 else entries[0].amount + EntryTotal(entries[1..])
  }

  lemma {:induction false} EntryTotalAppend(a: seq<Entry>, b: seq<Entry>)
    ensures EntryTotal(a + b) == EntryTotal(a) + EntryTotal(b)
  {
    if a == [] {
      assert a + b == b;
    } else {
      assert (a + b)[0] == a[0] && (a + b)[1..] == a[1..] + b;
      EntryTotalAppend(a[1..], b);
    }
  }

  /** The transfers are all positive expenses to three distinct envelopes, and for a
      split of a positive amount they add up to exactly that income. */
  lemma AllocationBalances(amount: int, base: string, date: string)
    requires amount > 0
    ensures var entries := Allocation(ExtraIncomeSplit(amount), base, date);
      && |entries| <= 3
      && (forall i :: 0 <= i < |entries| ==> entries[i].kind == ExpenseEntry && entries[i].amount > 0)
      && (forall i, j :: 0 <= i < j < |entries| ==> entries[i].categoryId != entries[j].categoryId)
      && EntryTotal(entries) == amount
  {
    var split := ExtraIncomeSplit(amount);
    var s := if split.savings > 0 then [Entry(ExpenseEntry, split.savings, SavingsCategory, base + " - Épargne (60%)", date)] else [];
    var p := if split.projects > 0 then [Entry(ExpenseEntry, split.projects, ProjectsCategory, base + " - Projets (30%)", date)] else [];
    var l := if split.leisure > 0 then [Entry(ExpenseEntry, split.leisure, LeisureCategory, base + " - Loisirs (10%)", date)] else [];
    EntryTotalAppend(s, p);
    EntryTotalAppend(s + p, l);
  }

  /** `createExtraIncomeTransactions` with the current instant as `date`: the income
      entry, then the envelope transfers. */
  method CreateExtraIncomeTransactions(split: Split, incomeType: IncomeType, description: string, date: string)
    returns (transactions: seq<Entry>)
    ensures |transactions| >= 1
    ensures transactions[0] == Entry(IncomeEntry, split.totalAmount, ExtraIncomeCategory,
                                     (if description == "" then TypeLabel(incomeType) else description) + " - Revenu extra", date)
    ensures transactions[1..] == Allocation(split, if description == "" then TypeLabel(incomeType) else description, date)
  {
    var baseDescription := if description != "" then description else TypeLabel(incomeType);
    transactions := [];
    transactions := transactions + [Entry(IncomeEntry, split.totalAmount, ExtraIncomeCategory, baseDescription + " - Revenu extra", date)];
    if split.savings > 0 {
      transactions := transactions + [Entry(ExpenseEntry, split.savings, SavingsCategory, baseDescription + " - Épargne (60%)", date)];
    }
    if split.projects > 0 {
      transactions := transactions + [Entry(ExpenseEntry, split.projects, ProjectsCategory, baseDescription + " - Projets (30%)", date)];
    }
    if split.leisure > 0 {
      transactions := transactions + [Entry(ExpenseEntry, split.leisure, LeisureCategory, baseDescription + " - Loisirs (10%)", date)];
    }
  }

  // ---------------------------------------------------------------------------
  // Statistics

  datatype ExtraIncomeRecord = ExtraIncomeRecord(amount: int, incomeType: IncomeType, date: string)

  datatype Stats = Stats(totalAmount: int, count: nat, averageAmount: int,
                         totalSavings: int, totalProjects: int, totalLeisure: int,
                         topSource: Option<IncomeType>)

  function TotalAmount(incomes: seq<ExtraIncomeRecord>): int {
    if incomes == [] then 0 else TotalAmount(incomes[..|incomes| - 1]) + incomes[|incomes| - 1].amount
  }

  /** The three envelope totals over the recomputed splits. */
  function SplitTotals(incomes: seq<ExtraIncomeRecord>): (t: Split) {
    if incomes == [] then Split(0, 0, 0, 0)
    else
      var rest := SplitTotals(incomes[..|incomes| - 1]);
      var s := ExtraIncomeSplit(incomes[|incomes| - 1].amount);
      Split(rest.totalAmount + s.totalAmount, rest.savings + s.savings, rest.projects + s.projects, rest.leisure + s.leisure)
  }

  /** How many incomes have type `t`. */
  function Occurrences(incomes: seq<ExtraIncomeRecord>, t: IncomeType): nat {
    if incomes == [] then 0
    else Occurrences(incomes[..|incomes| - 1], t) + (if incomes[|incomes| - 1].incomeType == t then 1 else 0)
  }

  /** The types present, in order of first appearance (the key order of the count record). */
  function TypesInOrder(incomes: seq<ExtraIncomeRecord>): (order: seq<IncomeType>)
    ensures forall i, j :: 0 <= i < j < |order| ==> order[i] != order[j]
  {
    if incomes == [] then []
    else
      var rest := TypesInOrder(incomes[..|incomes| - 1]);
      if incomes[|incomes| - 1].incomeType in rest then rest else rest + [incomes[|incomes| - 1].incomeType]
  }

  lemma {:induction false} TypesInOrderAreThePresentTypes(incomes: seq<ExtraIncomeRecord>, t: IncomeType)
    ensures t in TypesInOrder(incomes) <==> Occurrences(incomes, t) > 0
  {
    if incomes != [] {
      TypesInOrderAreThePresentTypes(incomes[..|incomes| - 1], t);
    }
  }

  /** `topSource` is the type at position `k` of the first-appearance order: its count
      is the largest, and every later-listed type has a strictly smaller count (the
      `reduce` keeps its accumulator only when strictly greater, so ties go to the
      later type). */
  predicate IsTopSourceAt(incomes: seq<ExtraIncomeRecord>, k: nat) {
    var order := TypesInOrder(incomes);
    && k < |order|
    && (forall j :: 0 <= j < |order| ==> Occurrences(incomes, order[j]) <= Occurrences(incomes, order[k]))
    && (forall j :: k < j < |order| ==> Occurrences(incomes, order[j]) < Occurrences(incomes, order[k]))
  }

  /** There is at most one top source: of two candidate positions, the later one has
      a strictly smaller count than the earlier one. */
  lemma TopSourceUnique(incomes: seq<ExtraIncomeRecord>, k1: nat, k2: nat)
    requires k1 < k2
    ensures !(IsTopSourceAt(incomes, k1) && IsTopSourceAt(incomes, k2))
  {
    var order := TypesInOrder(incomes);
    if IsTopSourceAt(incomes, k1) && k2 < |order| {
      assert Occurrences(incomes, order[k2]) < Occurrences(incomes, order[k1]);
    }
  }

  /** The top source is present and no present type occurs more often. */
  lemma TopSourceIsMostFrequent(incomes: seq<ExtraIncomeRecord>, k: nat, u: IncomeType)
    requires IsTopSourceAt(incomes, k)
    ensures Occurrences(incomes, TypesInOrder(incomes)[k]) > 0
    ensures Occurrences(incomes, u) <= Occurrences(incomes, TypesInOrder(incomes)[k])
  {
    var order := TypesInOrder(incomes);
    TypesInOrderAreThePresentTypes(incomes, order[k]);
    TypesInOrderAreThePresentTypes(incomes, u);
    if u in order {
      var j :| 0 <= j < |order| && order[j] == u;
    }
  }

  /** For positive amounts the three envelope totals add up to the total amount. */
  lemma {:induction false} SplitTotalsExact(incomes: seq<ExtraIncomeRecord>)
    requires forall i :: 0 <= i < |incomes| ==> incomes[i].amount > 0
    ensures var t := SplitTotals(incomes);
      t.savings + t.projects + t.leisure == TotalAmount(incomes)
  {
    if incomes != [] {
      SplitTotalsExact(incomes[..|incomes| - 1]);
    }
  }

  /** The count record built by `reduce`: one key per present type, in first-appearance
      order, with its number of occurrences. */
  method CountSources(incomes: seq<ExtraIncomeRecord>) returns (order: seq<IncomeType>, counts: map<IncomeType, nat>)
    ensures order == TypesInOrder(incomes)
    ensures forall t :: t in counts <==> t in order
    ensures forall t :: t in counts ==> counts[t] == Occurrences(incomes, t)
  {
    order, counts := [], map[];
    var i := 0;
    while i < |incomes|
      invariant 0 <= i <= |incomes|
      invariant order == TypesInOrder(incomes[..i])
      invariant forall t :: t in counts <==> t in order
      invariant forall t :: t in counts ==> counts[t] == Occurrences(incomes[..i], t)
    {
      assert incomes[..i + 1][..i] == incomes[..i];
      var t := incomes[i].incomeType;
      TypesInOrderAreThePresentTypes(incomes[..i], t);
      counts := counts[t := (if t in counts then counts[t] else 0) + 1];
      if t !in order {
        order := order + [t];
      }
      i := i + 1;
    }
    assert incomes[..i] == incomes;
  }

  /** `Object.entries(sourceCount).reduce((a, b) => count[a] > count[b] ? a : b)`: the
      type with the largest count; on a tie the later key wins, since the accumulator is
      kept only when strictly greater. */
  method ReduceTopSource(order: seq<IncomeType>, counts: map<IncomeType, nat>) returns (top: IncomeType, ghost k: nat)
    requires order != [] && forall i :: 0 <= i < |order| ==> order[i] in counts
    ensures k < |order| && top == order[k]
    ensures forall i :: 0 <= i < |order| ==> counts[order[i]] <= counts[top]
    ensures forall i :: k < i < |order| ==> counts[order[i]] < counts[top]
  {
    top, k := order[0], 0;
    var j := 1;
    while j < |order|
      invariant 1 <= j <= |order| && k < j && top == order[k]
      invariant forall i :: 0 <= i < j ==> counts[order[i]] <= counts[top]
      invariant forall i :: k < i < j ==> counts[order[i]] < counts[top]
    {
      if !(counts[top] > counts[order[j]]) {
        top, k := order[j], j;
      }
      j := j + 1;
    }
  }

  /** A position whose count is the last largest in the count record is the top source. */
  lemma TopSourceFromCounts(incomes: seq<ExtraIncomeRecord>, order: seq<IncomeType>, counts: map<IncomeType, nat>, k: nat)
    requires order == TypesInOrder(incomes) && k < |order|
    requires forall t :: t in counts <==> t in order
    requires forall t :: t in counts ==> counts[t] == Occurrences(incomes, t)
    requires forall i :: 0 <= i < |order| ==> counts[order[i]] <= counts[order[k]]
    requires forall i :: k < i < |order| ==> counts[order[i]] < counts[order[k]]
    ensures IsTopSourceAt(incomes, k)
  {
    forall j | 0 <= j < |order|
      ensures Occurrences(incomes, order[j]) == counts[order[j]]
    {
      assert order[j] in order;
    }
  }

  /** `calculateExtraIncomeStats`. */
  method CalculateExtraIncomeStats(incomes: seq<ExtraIncomeRecord>) returns (stats: Stats)
    ensures incomes == [] ==> stats == Stats(0, 0, 0, 0, 0, 0, None)
    ensures incomes != [] ==>
      && stats.totalAmount == TotalAmount(incomes)
      && stats.count == |incomes|
      && stats.averageAmount == Round(TotalAmount(incomes) as real / |incomes| as real)
      && stats.totalSavings == SplitTotals(incomes).savings
      && stats.totalProjects == SplitTotals(incomes).projects
      && stats.totalLeisure == SplitTotals(incomes).leisure
      && stats.topSource.Some?
      && (exists k: nat :: IsTopSourceAt(incomes, k) && stats.topSource.value == TypesInOrder(incomes)[k])
  {
    if |incomes| == 0 {
      return Stats(0, 0, 0, 0, 0, 0, None);
    }
    var totalAmount := TotalAmount(incomes);
    var count := |incomes|;
    var averageAmount := Round(totalAmount as real / count as real);

    var totalSavings, totalProjects, totalLeisure := 0, 0, 0;
    var i := 0;
    while i < |incomes|
      invariant 0 <= i <= |incomes|
      invariant totalSavings == SplitTotals(incomes[..i]).savings
      invariant totalProjects == SplitTotals(incomes[..i]).projects
      invariant totalLeisure == SplitTotals(incomes[..i]).leisure
    {
      assert incomes[..i + 1][..i] == incomes[..i];
      var split := CalculateExtraIncomeSplit(incomes[i].amount);
      totalSavings := totalSavings + split.savings;
      totalProjects := totalProjects + split.projects;
      totalLeisure := totalLeisure + split.leisure;
      i := i + 1;
    }
    assert incomes[..i] == incomes;

    var order, counts := CountSources(incomes);
    SomeTypePresent(incomes);
    var top, k := ReduceTopSource(order, counts);
    TopSourceFromCounts(incomes, order, counts, k);
    stats := Stats(totalAmount, count, averageAmount, totalSavings, totalProjects, totalLeisure, Some(top));
  }

  /** A non-empty list has a type in its count record. */
  lemma SomeTypePresent(incomes: seq<ExtraIncomeRecord>)
    requires incomes != []
    ensures TypesInOrder(incomes) != []
  {
    TypesInOrderAreThePresentTypes(incomes, incomes[0].incomeType);
    OccurrencesOfMember(incomes, 0);
  }

  lemma {:induction false} OccurrencesOfMember(incomes: seq<ExtraIncomeRecord>, i: nat)
    requires i < |incomes|
    ensures Occurrences(incomes, incomes[i].incomeType) > 0
  {
    var n := |incomes| - 1;
    if i < n {
      OccurrencesOfMember(incomes[..n], i);
    }
  }
}
