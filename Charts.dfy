/**
 * The series `App.tsx` derives for its charts, its monthly table, the month
 * detail modal and the report: one row per month record (`chartData`, the
 * report's `monthlyBody`, the monthly table and the modal's final result all
 * compute the same figures) and one bar per category (`categoryChartData`),
 * with the bar colour looked up by category label.
 */
module Charts {
  import opened Types
  import opened SeqOps
  import opened Utils
  import opened Stats

  /** `calculateTotalExpenses(m.expenses)` on a stored record. */
  function FixedExpenses(e: MonthlyExpense): int
  {
    CalculateTotalExpenses(Some(LoosenExpenses(e)))
  }

  /** `calculateTotalIncome(m.income)` on a stored record. */
  function IncomeTotal(i: MonthlyIncome): int
  {
    CalculateTotalIncome(Some(LoosenIncome(i)))
  }

  /**
   * `categorizedExpenses.filter(c => c.month === name).reduce(...)`: the
   * categorized expenses associated with a month by label equality.
   */
  function CategorizedInMonth(cs: seq<CategorizedExpense>, name: string): int
  {
    SumOf(Matching(cs, CategorizedMonthOf, name), CategorizedValue)
  }

  /** One row of the monthly series: `{ name, gastos, ganhos, balanco }`. */
  datatype MonthPoint = MonthPoint(name: string, gastos: int, ganhos: int, balanco: int)

  function MonthPointOf(m: MonthData, cs: seq<CategorizedExpense>): MonthPoint
  {
    var totalExp := FixedExpenses(m.expenses) + CategorizedInMonth(cs, m.month);
    var incomeTotal := IncomeTotal(m.income);
    MonthPoint(m.month, totalExp, incomeTotal, incomeTotal - totalExp)
  }

  /** `data.months.map(...)`: one row per month record, in the records' order. */
  function ChartData(months: seq<MonthData>, cs: seq<CategorizedExpense>): (r: seq<MonthPoint>)
    ensures |r| == |months|
    ensures months == [] ==> r == []
  {
    seq(|months|, i requires 0 <= i < |months| => MonthPointOf(months[i], cs))
  }

  function MonthLabels(months: seq<MonthData>): seq<string>
  {
    seq(|months|, i requires 0 <= i < |months| => months[i].month)
  }

  function FixedOf(m: MonthData): int { FixedExpenses(m.expenses) }
  function IncomeOf(m: MonthData): int { IncomeTotal(m.income) }
  function PointExpenses(p: MonthPoint): int { p.gastos }
  function PointBalance(p: MonthPoint): int { p.balanco }

  /**
   * Each row carries its month's label, the month's income, its fixed bills
   * plus the categorized expenses dated to that label, and the difference.
   */
  lemma ChartDataRow(months: seq<MonthData>, cs: seq<CategorizedExpense>, i: nat)
    requires i < |months|
    ensures var p := ChartData(months, cs)[i]; var m := months[i];
      && p.name == m.month
      && p.ganhos == m.income.salario + m.income.bonus + m.income.outros + m.income.recargaPay
      && p.gastos == m.expenses.inter + m.expenses.nubank + m.expenses.mPago + m.expenses.agua
                     + m.expenses.energia + m.expenses.outros + m.expenses.pix
                     + SumOf(Matching(cs, CategorizedMonthOf, m.month), CategorizedValue)
      && p.balanco == p.ganhos - p.gastos
  {
    TotalsOfCompleteRecords(months[i].expenses, months[i].income);
  }

  /** A month with no bills and no income shows only its categorized expenses, as a loss. */
  lemma BlankMonthPoint(m: MonthData, cs: seq<CategorizedExpense>, name: string)
    requires FixedExpenses(m.expenses) == 0 && IncomeTotal(m.income) == 0 && m.month == name
    ensures var c := CategorizedInMonth(cs, name);
      MonthPointOf(m, cs) == MonthPoint(name, c, 0, -c)
  {
  }

  lemma ChartDataSingle(m: MonthData, cs: seq<CategorizedExpense>)
    ensures ChartData([m], cs) == [MonthPointOf(m, cs)]
  {
    var row := ChartData([m], cs);
    assert row[0] == MonthPointOf(m, cs);
  }

  /** Appending month records appends their rows and leaves the earlier rows as they were. */
  lemma ChartDataAppend(a: seq<MonthData>, b: seq<MonthData>, cs: seq<CategorizedExpense>)
    ensures ChartData(a + b, cs) == ChartData(a, cs) + ChartData(b, cs)
  {
  }

  /**
   * A new categorized expense raises the expenses, and lowers the balance,
   * of exactly the rows whose label equals its month label; incomes and
   * labels stay. An expense dated to a label no month carries changes no row.
   */
  lemma ChartDataAfterCategorized(months: seq<MonthData>, cs: seq<CategorizedExpense>, c: CategorizedExpense, i: nat)
    requires i < |months|
    ensures var before, after := ChartData(months, cs)[i], ChartData(months, cs + [c])[i];
      var delta := if c.month == months[i].month then c.value else 0;
      && after.name == before.name
      && after.ganhos == before.ganhos
      && after.gastos == before.gastos + delta
      && after.balanco == before.balanco - delta
  {
    MatchingSumSnoc(cs, c, CategorizedMonthOf, months[i].month, CategorizedValue);
  }

  /**
   * Summed over the series, the expenses are the fixed bills of every month
   * plus, for each month label, the categorized expenses dated to it.
   */
  lemma {:induction false} ChartExpensesSplit(months: seq<MonthData>, cs: seq<CategorizedExpense>)
    ensures SumOf(ChartData(months, cs), PointExpenses)
         == SumOf(months, FixedOf) + KeyedSum(MonthLabels(months), cs, CategorizedMonthOf, CategorizedValue)
  {
    if months != [] {
      var n := |months| - 1;
      var m' := months[..n];
      ChartExpensesSplit(m', cs);
      assert ChartData(months, cs)[..n] == ChartData(m', cs);
      assert MonthLabels(months)[..n] == MonthLabels(m');
      assert ChartData(months, cs)[n] == MonthPointOf(months[n], cs);
    }
  }

  /**
   * Conservation: when no two months share a label and every categorized
   * expense is dated to a recorded month, the series' expenses add up to
   * all fixed bills plus the categorized total, and the balances to all
   * income minus that.
   */
  lemma ChartConservation(months: seq<MonthData>, cs: seq<CategorizedExpense>)
    requires Distinct(MonthLabels(months))
    requires forall c :: c in cs ==> c.month in MonthLabels(months)
    ensures SumOf(ChartData(months, cs), PointExpenses) == SumOf(months, FixedOf) + CategorizedTotal(cs)
    ensures SumOf(ChartData(months, cs), PointBalance)
         == SumOf(months, IncomeOf) - SumOf(months, FixedOf) - CategorizedTotal(cs)
  {
    ChartExpensesSplit(months, cs);
    KeyedSumPartition(MonthLabels(months), cs, CategorizedMonthOf, CategorizedValue);
    ChartBalanceSum(months, cs);
  }

  lemma {:induction false} ChartBalanceSum(months: seq<MonthData>, cs: seq<CategorizedExpense>)
    ensures SumOf(ChartData(months, cs), PointBalance)
         == SumOf(months, IncomeOf) - SumOf(ChartData(months, cs), PointExpenses)
  {
    if months != [] {
      var n := |months| - 1;
      ChartBalanceSum(months[..n], cs);
      assert ChartData(months, cs)[..n] == ChartData(months[..n], cs);
    }
  }

  /** A month with one Janeiro record: bills 100 + 50, salary 1000, balance 850. */
  lemma JanuaryScenario(id: string, year: int)
    ensures ChartData([MonthData(id, "Janeiro", year, MonthlyExpense(100, 50, 0, 0, 0, 0, 0),
                                 MonthlyIncome(1000, 0, 0, 0))], [])
         == [MonthPoint("Janeiro", 150, 1000, 850)]
  {
  }

  /**
   * Months are matched by label only, so two records labelled "Janeiro" (of
   * different years, say) each show the same categorized expense: the chart
   * counts 100 twice, which is why `ChartConservation` needs distinct labels.
   */
  lemma RepeatedLabelCountsTwice(a: string, b: string, y1: int, y2: int)
    ensures var zeroBills, zeroIncome := MonthlyExpense(0, 0, 0, 0, 0, 0, 0), MonthlyIncome(0, 0, 0, 0);
      var months := [MonthData(a, "Janeiro", y1, zeroBills, zeroIncome), MonthData(b, "Janeiro", y2, zeroBills, zeroIncome)];
      var cs := [CategorizedExpense("c", "Lazer", 100, "Janeiro", "")];
      && SumOf(ChartData(months, cs), PointExpenses) == 200
      && CategorizedTotal(cs) == 100
  {
    var zeroBills, zeroIncome := MonthlyExpense(0, 0, 0, 0, 0, 0, 0), MonthlyIncome(0, 0, 0, 0);
    var months := [MonthData(a, "Janeiro", y1, zeroBills, zeroIncome), MonthData(b, "Janeiro", y2, zeroBills, zeroIncome)];
    var cs := [CategorizedExpense("c", "Lazer", 100, "Janeiro", "")];
    var c := cs[0];
    SumOfSnoc([], c, CategorizedValue);
    assert [] + [c] == cs;
    MatchingSumSnoc([], c, CategorizedMonthOf, "Janeiro", CategorizedValue);
    assert CategorizedInMonth(cs, "Janeiro") == 100;
    var rows := ChartData(months, cs);
    ChartDataRow(months, cs, 0);
    ChartDataRow(months, cs, 1);
    assert rows == [rows[0]] + [rows[1]];
    assert [rows[0]] == [] + [rows[0]];
    SumOfSnoc([], rows[0], PointExpenses);
    SumOfSnoc([rows[0]], rows[1], PointExpenses);
  }

  // The category bar chart (App.tsx:395-401).

  /** One bar: `{ name, value }`. */
  datatype CategoryPoint = CategoryPoint(name: string, value: int)

  function PointValue(p: CategoryPoint): int { p.value }

  /** The total of the categorized expenses carrying category label `k`. */
  function CategorySum(cs: seq<CategorizedExpense>, k: string): int
  {
    SumOf(Matching(cs, CategoryOf, k), CategorizedValue)
  }

  /** The bars for the labels `ks`, in that order. */
  function CategorySeries(ks: seq<string>, cs: seq<CategorizedExpense>): (r: seq<CategoryPoint>)
    ensures |r| == |ks|
  {
    seq(|ks|, j requires 0 <= j < |ks| => CategoryPoint(ks[j], CategorySum(cs, ks[j])))
  }

  lemma {:induction false} CategorySeriesSum(ks: seq<string>, cs: seq<CategorizedExpense>)
    ensures SumOf(CategorySeries(ks, cs), PointValue) == KeyedSum(ks, cs, CategoryOf, CategorizedValue)
  {
    if ks != [] {
      var n := |ks| - 1;
      CategorySeriesSum(ks[..n], cs);
      assert CategorySeries(ks, cs)[..n] == CategorySeries(ks[..n], cs);
    }
  }

  /**
   * The `totals` object after the expenses `done` went through the
   * `forEach`: each expense adds its value to its category's entry, which
   * starts from `totals[c.category] || 0`.
   */
  function CategoryTotals(done: seq<CategorizedExpense>): map<string, int>
  {
    if done == [] then map[]
    else
      var t := CategoryTotals(done[..|done| - 1]);
      var c := done[|done| - 1];
      t[c.category := (if c.category in t then t[c.category] else 0) + c.value]
  }

  /**
   * `categoryChartData`: a `forEach` fills the `totals` object, then one bar
   * per key. The bars name each category met exactly once, in first-seen
   * order, each with the sum of its expenses, and together they add up to the
   * categorized total.
   */
  method CategoryChartData(cs: seq<CategorizedExpense>) returns (r: seq<CategoryPoint>)
    ensures r == CategorySeries(FirstSeen(cs, CategoryOf), cs)
    ensures forall i :: 0 <= i < |cs| ==> exists j :: 0 <= j < |r| && r[j].name == cs[i].category
    ensures forall j :: 0 <= j < |r| ==> exists i :: 0 <= i < |cs| && cs[i].category == r[j].name
    ensures forall j, k :: 0 <= j < k < |r| ==> r[j].name != r[k].name
    ensures SumOf(r, PointValue) == CategorizedTotal(cs)
    ensures cs == [] ==> r == []
  {
    var keys, totals := TotalsByCategory(cs);
    BarsOfTotals(cs);
    r := seq(|keys|, j requires 0 <= j < |keys| => CategoryPoint(keys[j], totals[keys[j]]));
    CategoryBars(cs);
    CategoryBarsOccur(cs);
  }

  /**
   * The `forEach` that fills `totals` (App.tsx:397-399), with the order in
   * which its keys were first set.
   */
  method TotalsByCategory(cs: seq<CategorizedExpense>) returns (keys: seq<string>, totals: map<string, int>)
    ensures keys == FirstSeen(cs, CategoryOf)
    ensures totals == CategoryTotals(cs)
  {
    totals := map[];
    keys := [];
    for i := 0 to |cs|
      invariant keys == FirstSeen(cs[..i], CategoryOf)
      invariant totals == CategoryTotals(cs[..i])
    {
      var c := cs[i];
      TotalsLoopStep(cs, i);
      if c.category !in totals {
        keys := keys + [c.category];
      }
      totals := totals[c.category := (if c.category in totals then totals[c.category] else 0) + c.value];
    }
    assert cs[..|cs|] == cs;
  }

  /** Reading the bars off the final `totals` object gives the series of the first-seen categories. */
  lemma BarsOfTotals(cs: seq<CategorizedExpense>)
    ensures var keys, totals := FirstSeen(cs, CategoryOf), CategoryTotals(cs);
      && (forall j :: 0 <= j < |keys| ==> keys[j] in totals)
      && seq(|keys|, j requires 0 <= j < |keys| => CategoryPoint(keys[j], totals[keys[j]]))
         == CategorySeries(keys, cs)
  {
    CategoryTotalsKeys(cs);
    CategoryTotalsValues(cs);
  }

  /** The bars of the first-seen categories name each category once and add up to the categorized total. */
  lemma CategoryBars(cs: seq<CategorizedExpense>)
    ensures var r := CategorySeries(FirstSeen(cs, CategoryOf), cs);
      && (forall i :: 0 <= i < |cs| ==> exists j :: 0 <= j < |r| && r[j].name == cs[i].category)
      && (forall j, k :: 0 <= j < k < |r| ==> r[j].name != r[k].name)
      && SumOf(r, PointValue) == CategorizedTotal(cs)
  {
    var keys := FirstSeen(cs, CategoryOf);
    var r := CategorySeries(keys, cs);
    CategoryTotalsPartition(cs);
    forall i | 0 <= i < |cs| ensures exists j :: 0 <= j < |r| && r[j].name == cs[i].category {
      assert CategoryOf(cs[i]) in keys;
      var j :| 0 <= j < |keys| && keys[j] == CategoryOf(cs[i]);
      assert r[j].name == keys[j];
    }
  }

  /** ... and every bar names a category some expense carries. */
  lemma CategoryBarsOccur(cs: seq<CategorizedExpense>)
    ensures var r := CategorySeries(FirstSeen(cs, CategoryOf), cs);
      forall j :: 0 <= j < |r| ==> exists i :: 0 <= i < |cs| && cs[i].category == r[j].name
  {
    var keys := FirstSeen(cs, CategoryOf);
    var r := CategorySeries(keys, cs);
    FirstSeenOccurs(cs, CategoryOf);
    forall j | 0 <= j < |r| ensures exists i :: 0 <= i < |cs| && cs[i].category == r[j].name {
      var i :| 0 <= i < |cs| && CategoryOf(cs[i]) == keys[j];
      assert cs[i].category == r[j].name;
    }
  }

  lemma CategoryTotalsSnoc(p: seq<CategorizedExpense>, c: CategorizedExpense)
    ensures var t := CategoryTotals(p);
      CategoryTotals(p + [c]) == t[c.category := (if c.category in t then t[c.category] else 0) + c.value]
  {
    assert (p + [c])[..|p|] == p;
  }

  /** One turn of the `forEach`, on the prefix of the expenses it has gone through. */
  lemma TotalsLoopStep(cs: seq<CategorizedExpense>, i: nat)
    requires i < |cs|
    ensures var t, c := CategoryTotals(cs[..i]), cs[i];
      && CategoryTotals(cs[..i + 1]) == t[c.category := (if c.category in t then t[c.category] else 0) + c.value]
      && (c.category in t ==> FirstSeen(cs[..i + 1], CategoryOf) == FirstSeen(cs[..i], CategoryOf))
      && (c.category !in t ==> FirstSeen(cs[..i + 1], CategoryOf) == FirstSeen(cs[..i], CategoryOf) + [c.category])
  {
    PrefixSnoc(cs, i);
    CategoryTotalsSnoc(cs[..i], cs[i]);
    FirstSeenSnoc(cs[..i], cs[i], CategoryOf);
    CategoryTotalsKeys(cs[..i]);
  }

  /** The `totals` object has exactly the categories met as keys, ... */
  lemma {:induction false} CategoryTotalsKeys(done: seq<CategorizedExpense>)
    ensures forall k :: k in CategoryTotals(done) <==> k in FirstSeen(done, CategoryOf)
  {
    if done != [] {
      var n := |done| - 1;
      var p, c := done[..n], done[n];
      assert done == p + [c];
      CategoryTotalsKeys(p);
      FirstSeenSnoc(p, c, CategoryOf);
      CategoryTotalsSnoc(p, c);
    }
  }

  /** ... and each category's entry, or 0 when it has none, is the sum of that category's expenses. */
  lemma {:induction false} CategoryTotalsValues(done: seq<CategorizedExpense>)
    ensures forall k :: CategorySum(done, k) == (if k in CategoryTotals(done) then CategoryTotals(done)[k] else 0)
  {
    if done != [] {
      var n := |done| - 1;
      var p, c := done[..n], done[n];
      assert done == p + [c];
      CategoryTotalsValues(p);
      CategoryTotalsSnoc(p, c);
      MatchingSumSnoc(p, c, CategoryOf, c.category, CategorizedValue);
      OtherCategoriesUnchanged(p, c);
    } else {
      forall k ensures CategorySum(done, k) == 0 {
        assert Matching(done, CategoryOf, k) == [];
      }
    }
  }

  /** An expense leaves the sums of the other categories as they were. */
  lemma OtherCategoriesUnchanged(done: seq<CategorizedExpense>, c: CategorizedExpense)
    ensures forall k :: k != c.category ==> CategorySum(done + [c], k) == CategorySum(done, k)
  {
    forall k | k != c.category ensures CategorySum(done + [c], k) == CategorySum(done, k) {
      MatchingSumSnoc(done, c, CategoryOf, k, CategorizedValue);
    }
  }

  /** The bars of every category met add up to the categorized total. */
  lemma CategoryTotalsPartition(cs: seq<CategorizedExpense>)
    ensures SumOf(CategorySeries(FirstSeen(cs, CategoryOf), cs), PointValue) == CategorizedTotal(cs)
  {
    var ks := FirstSeen(cs, CategoryOf);
    CategorySeriesSum(ks, cs);
    forall c | c in cs ensures CategoryOf(c) in ks {
      var i :| 0 <= i < |cs| && cs[i] == c;
    }
    KeyedSumPartition(ks, cs, CategoryOf, CategorizedValue);
  }

  /** The categories the editor offers (App.tsx:60-70). */
  const Categories: seq<string> := [
    "Alimentação", "Saúde", "Lazer", "Educação", "Transporte",
    "Vestuário", "Presentes", "Assinaturas", "Outros"
  ]

  const CategoryColors: map<string, string> := map[
    "Alimentação" := "#fb923c",
    "Saúde" := "#f87171",
    "Lazer" := "#c084fc",
    "Educação" := "#60a5fa",
    "Transporte" := "#4ade80",
    "Vestuário" := "#f472b6",
    "Presentes" := "#fbbf24",
    "Assinaturas" := "#2dd4bf",
    "Outros" := "#94a3b8"
  ]

  const DefaultColor: string := "#6366f1"

  /**
   * `CATEGORY_COLORS[name] || '#6366f1'`: a label in the palette gets its
   * palette colour, and the fallback colour is used exactly for labels
   * outside it.
   */
  function CategoryColor(name: string): (c: string)
    ensures name in CategoryColors ==> c == CategoryColors[name]
    ensures c == DefaultColor <==> name !in CategoryColors
    ensures name in Categories ==> c != DefaultColor
  {
    if name in CategoryColors then CategoryColors[name] else DefaultColor
  }

  /** Two different offered categories are drawn in different colours. */
  lemma CategoryColorsDistinct(a: string, b: string)
    requires a in Categories && b in Categories && a != b
    ensures CategoryColor(a) != CategoryColor(b)
  {
  }

  /** The palette has a colour for exactly the offered categories. */
  lemma CategoryPalette()
    ensures forall k :: k in CategoryColors <==> k in Categories
  {
  }
}
