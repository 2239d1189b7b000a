/**
 * The helpers of `utils.ts`: the twelve month labels, the null-safe totals of
 * a month's fixed bills and income, and the lookup of the following month's
 * salary.
 */
module Utils {
  import opened Types

  /**
   * The canonical month labels, indexed 0 (January) to 11 (December). The
   * third label is kept exactly as the source spells it, with its UTF-8 bytes
   * read as Latin-1; labels are opaque strings compared by equality.
   */
  const MonthsBr: seq<string> := [
    "Janeiro", "Fevereiro", "MarÃ§o", "Abril", "Maio", "Junho",
    "Julho", "Agosto", "Setembro", "Outubro", "Novembro", "Dezembro"
  ]

  lemma MonthsBrDistinct()
    ensures |MonthsBr| == 12
    ensures forall i, j :: 0 <= i < j < 12 ==> MonthsBr[i] != MonthsBr[j]
  {
  }

  /**
   * The expense object as the helper receives it (`exp: any`): any of the
   * seven fields may be absent. A present field that JavaScript would treat
   * as falsy (0, NaN) is 0 either way.
   */
  datatype LooseExpenses = LooseExpenses(
    inter: Option<int>, nubank: Option<int>, mPago: Option<int>, agua: Option<int>,
    energia: Option<int>, outros: Option<int>, pix: Option<int>)

  /** The income object as the helper receives it (`inc: any`). */
  datatype LooseIncome = LooseIncome(
    salario: Option<int>, bonus: Option<int>, outros: Option<int>, recargaPay: Option<int>)

  /** `Number(x || 0)` on a field that may be absent. */
  function OrZero(x: Option<int>): int
  {
    match x
    case Some(v) => v
    case None => 0
  }

  /** A well-typed record seen through the helper's untyped parameter. */
  function LoosenExpenses(e: MonthlyExpense): LooseExpenses
  {
    LooseExpenses(Some(e.inter), Some(e.nubank), Some(e.mPago), Some(e.agua),
                  Some(e.energia), Some(e.outros), Some(e.pix))
  }

  function LoosenIncome(i: MonthlyIncome): LooseIncome
  {
    LooseIncome(Some(i.salario), Some(i.bonus), Some(i.outros), Some(i.recargaPay))
  }

  predicate ExpensesNonNegative(e: LooseExpenses)
  {
    OrZero(e.inter) >= 0 && OrZero(e.nubank) >= 0 && OrZero(e.mPago) >= 0 && OrZero(e.agua) >= 0
    && OrZero(e.energia) >= 0 && OrZero(e.outros) >= 0 && OrZero(e.pix) >= 0
  }

  predicate IncomeNonNegative(i: LooseIncome)
  {
    OrZero(i.salario) >= 0 && OrZero(i.bonus) >= 0 && OrZero(i.outros) >= 0 && OrZero(i.recargaPay) >= 0
  }

  /** `calculateTotalExpenses`: an absent object totals 0 and an absent field counts as 0. */
  function CalculateTotalExpenses(exp: Option<LooseExpenses>): (r: int)
    ensures exp.None? ==> r == 0
    ensures exp.Some? && ExpensesNonNegative(exp.value) ==>
      var e := exp.value;
      && 0 <= r
      && OrZero(e.inter) <= r && OrZero(e.nubank) <= r && OrZero(e.mPago) <= r
      && OrZero(e.agua) <= r && OrZero(e.energia) <= r && OrZero(e.outros) <= r
      && OrZero(e.pix) <= r
  {
    match exp
    case None => 0
    case Some(e) =>
      OrZero(e.inter) + OrZero(e.nubank) + OrZero(e.mPago) + OrZero(e.agua)
      + OrZero(e.energia) + OrZero(e.outros) + OrZero(e.pix)
  }

  /** `calculateTotalIncome`: an absent object totals 0 and an absent field counts as 0. */
  function CalculateTotalIncome(inc: Option<LooseIncome>): (r: int)
    ensures inc.None? ==> r == 0
    ensures inc.Some? && IncomeNonNegative(inc.value) ==>
      var i := inc.value;
      && 0 <= r
      && OrZero(i.salario) <= r && OrZero(i.bonus) <= r && OrZero(i.outros) <= r
      && OrZero(i.recargaPay) <= r
  {
    match inc
    case None => 0
    case Some(i) => OrZero(i.salario) + OrZero(i.bonus) + OrZero(i.outros) + OrZero(i.recargaPay)
  }

  /** An object whose fields are all absent totals 0, like one whose fields are all 0. */
  lemma AbsentFieldsTotalZero()
    ensures CalculateTotalExpenses(Some(LooseExpenses(None, None, None, None, None, None, None))) == 0
    ensures CalculateTotalExpenses(Some(LooseExpenses(Some(0), Some(0), Some(0), Some(0), Some(0), Some(0), Some(0)))) == 0
    ensures CalculateTotalIncome(Some(LooseIncome(None, None, None, None))) == 0
    ensures CalculateTotalIncome(Some(LooseIncome(Some(0), Some(0), Some(0), Some(0)))) == 0
  {
  }

  /** On a complete record the totals are the plain sums of the seven bills and the four incomes. */
  lemma TotalsOfCompleteRecords(e: MonthlyExpense, i: MonthlyIncome)
    ensures CalculateTotalExpenses(Some(LoosenExpenses(e)))
         == e.inter + e.nubank + e.mPago + e.agua + e.energia + e.outros + e.pix
    ensures CalculateTotalIncome(Some(LoosenIncome(i))) == i.salario + i.bonus + i.outros + i.recargaPay
  {
  }

  /** `Array.prototype.indexOf`: the first position holding `x`, or -1. */
  function IndexIn(s: seq<string>, x: string): (i: int)
    ensures -1 <= i < |s|
    ensures 0 <= i ==> s[i] == x && x !in s[..i]
    ensures i == -1 <==> x !in s
  {
    if s == [] then -1
    else if s[0] == x then 0
    else
      var j := IndexIn(s[1..], x);
      assert s == [s[0]] + s[1..];
      if j == -1 then -1
      else
        assert s[..j + 1] == [s[0]] + s[1..][..j];
        j + 1
  }

  /** `MONTHS_BR.indexOf(name)`. */
  function MonthIndex(name: string): (i: int)
    ensures -1 <= i < 12
    ensures 0 <= i ==> MonthsBr[i] == name
    ensures i == -1 <==> name !in MonthsBr
  {
    IndexIn(MonthsBr, name)
  }

  lemma MonthIndexOfLabel(i: nat)
    requires i < 12
    ensures MonthIndex(MonthsBr[i]) == i
  {
    MonthsBrDistinct();
  }

  /** `(i + 1) % 12`; the indices used are at least -1, where JavaScript's `%` agrees with Dafny's. */
  function SuccessorIndex(i: int): (j: int)
    requires -1 <= i
    ensures 0 <= j < 12
    ensures i == 11 ==> j == 0
    ensures i < 11 ==> j == i + 1
  {
    (i + 1) % 12
  }

  /** The label after `name`, when `name` is one of the twelve. */
  function NextMonthName(name: string): (r: Option<string>)
    ensures r.None? <==> name !in MonthsBr
    ensures r.Some? ==> r.value in MonthsBr
  {
    var i := MonthIndex(name);
    if i == -1 then None else Some(MonthsBr[SuccessorIndex(i)])
  }

  /** December is followed by January, and every other month by the next one in the table. */
  lemma NextMonthNameWraps(i: nat)
    requires i < 12
    ensures NextMonthName(MonthsBr[i]) == Some(MonthsBr[if i == 11 then 0 else i + 1])
    ensures NextMonthName("Dezembro") == Some("Janeiro")
  {
    MonthIndexOfLabel(i);
    MonthIndexOfLabel(11);
  }

  /** On the twelve labels the successor is one-to-one ... */
  lemma NextMonthNameInjective(a: string, b: string)
    requires a in MonthsBr && b in MonthsBr
    requires NextMonthName(a) == NextMonthName(b)
    ensures a == b
  {
    MonthsBrDistinct();
    var i, j := MonthIndex(a), MonthIndex(b);
    var si, sj := SuccessorIndex(i), SuccessorIndex(j);
    assert MonthsBr[si] == MonthsBr[sj];
    assert si == sj;
    assert i == j;
  }

  /** ... and onto: every label follows exactly one label. */
  lemma NextMonthNameOnto(b: string)
    requires b in MonthsBr
    ensures exists a :: a in MonthsBr && NextMonthName(a) == Some(b)
  {
    var j := MonthIndex(b);
    var i := if j == 0 then 11 else j - 1;
    NextMonthNameWraps(i);
    assert NextMonthName(MonthsBr[i]) == Some(b);
  }

  /** `allMonths.find(m => m.month === name)`: the first record carrying the label. */
  function FindMonth(all: seq<MonthData>, name: string): (r: Option<MonthData>)
    ensures r.None? <==> forall i :: 0 <= i < |all| ==> all[i].month != name
    ensures r.Some? ==> exists i :: 0 <= i < |all| && all[i] == r.value && all[i].month == name
                                    && forall j :: 0 <= j < i ==> all[j].month != name
  {
    if all == [] then None
    else if all[0].month == name then Some(all[0])
    else
      var r := FindMonth(all[1..], name);
      assert forall i :: 0 < i < |all| ==> all[i] == all[1..][i - 1];
      r
  }

  /**
   * `getNextMonthSalary`: the salary of the first record labelled with the
   * month after `current`, or 0 when `current` is not a canonical label or no
   * record carries the following label.
   */
  function GetNextMonthSalary(current: string, all: seq<MonthData>): (r: int)
    ensures current !in MonthsBr ==> r == 0
    ensures current in MonthsBr ==>
      var next := NextMonthName(current).value;
      && ((forall i :: 0 <= i < |all| ==> all[i].month != next) ==> r == 0)
      && (forall i :: 0 <= i < |all| && all[i].month == next
                      && (forall j :: 0 <= j < i ==> all[j].month != next)
                      ==> r == all[i].income.salario)
  {
    match NextMonthName(current)
    case None => 0
    case Some(next) =>
      match FindMonth(all, next)
      case Some(m) => OrZero(Some(m.income.salario))
      case None => 0
  }

  /** Looking up the salary after December finds the first January record. */
  lemma DecemberSalaryFromJanuary(all: seq<MonthData>)
    ensures GetNextMonthSalary("Dezembro", all)
         == match FindMonth(all, "Janeiro") case Some(m) => m.income.salario case None => 0
  {
    NextMonthNameWraps(11);
  }
}
