/**
 * The `data` store of `App.tsx` (App.tsx:129-136) and the `setData`
 * handlers that replace it: append a new record, rewrite one field of the
 * records carrying an id, remove the records carrying an id, append
 * imported months, restore a backup and clear everything. Identifiers and
 * the current month and year, which the application draws from
 * `Math.random` and `new Date()`, are parameters.
 */
module Store {
  import opened Types
  import opened SeqOps
  import opened Utils
  import opened Stats
  import opened Charts

  // New records (the "add" buttons).

  /** `addMonth` (App.tsx:350-364): a record with every bill and income at 0. */
  function NewMonth(id: string, name: string, year: int): MonthData
  {
    MonthData(id, name, year, MonthlyExpense(0, 0, 0, 0, 0, 0, 0), MonthlyIncome(0, 0, 0, 0))
  }

  /**
   * The label `addMonth` gives the new record: with no months, the current
   * month; otherwise the successor of the last record's label, where a label
   * outside the table has index -1 and so is followed by January.
   */
  function NextMonthLabel(months: seq<MonthData>, currentMonth: nat): (r: string)
    requires currentMonth < 12
    ensures r in MonthsBr
    ensures months == [] ==> r == MonthsBr[currentMonth]
    ensures months != [] && months[|months| - 1].month in MonthsBr ==>
      Some(r) == NextMonthName(months[|months| - 1].month)
    ensures months != [] && months[|months| - 1].month !in MonthsBr ==> r == "Janeiro"
  {
    if months == [] then MonthsBr[currentMonth]
    else MonthsBr[SuccessorIndex(MonthIndex(months[|months| - 1].month))]
  }

  /**
   * The month a new categorized expense is dated to (App.tsx:367): the last
   * record's label, or the current month when there is no record or the
   * last label is empty (`||` treats "" as missing).
   */
  function NewCategorizedMonth(months: seq<MonthData>, currentMonth: nat): string
    requires currentMonth < 12
  {
    if months != [] && months[|months| - 1].month != "" then months[|months| - 1].month
    else MonthsBr[currentMonth]
  }

  /** `addCategorizedExpense` (App.tsx:368-377). */
  function NewCategorized(id: string, month: string): CategorizedExpense
  {
    CategorizedExpense(id, Categories[0], 0, month, "Novo gasto")
  }

  /** The "Novo Empréstimo" button (App.tsx:649): one installment of 0. */
  function NewLoan(id: string): Loan
  {
    Loan(id, "Novo Empréstimo", 0, 1, 0, 0, 0)
  }

  /** The "Nova Viagem" button (App.tsx:669). */
  function NewTrip(id: string, currentMonth: nat): TripExpense
    requires currentMonth < 12
  {
    TripExpense(id, "Nova Viagem", MonthsBr[currentMonth], 0, 0, 0, 0, 0, 0)
  }

  /** The "Gasto Carro" and "Gasto Moto" buttons (App.tsx:704, 707): a fuel expense of 0. */
  function NewVehicleExpense(id: string, kind: VehicleType, currentMonth: nat): VehicleExpense
    requires currentMonth < 12
  {
    VehicleExpense(id, kind, Fuel, if kind == Car then "Novo Gasto Carro" else "Novo Gasto Moto",
                   0, MonthsBr[currentMonth])
  }

  /** The three savings buttons (App.tsx:786, 789, 792). */
  function NewSavings(id: string, kind: SavingsKind, currentMonth: nat): SavingsTransaction
    requires currentMonth < 12
  {
    var description := match kind
      case Entrada => "Depósito"
      case Retirada => "Retirada"
      case Rendimento => "Rendimento";
    SavingsTransaction(id, kind, 0, MonthsBr[currentMonth], description)
  }

  // Field edits (the inputs of each editor).

  /** The keys of a month's `expenses` object, one input each in the month modal. */
  datatype ExpenseField = InterBill | NubankBill | MPagoBill | AguaBill | EnergiaBill | OutrosBill | PixBill

  /** The keys of a month's `income` object. */
  datatype IncomeField = SalarioIncome | BonusIncome | OutrosIncome | RecargaPayIncome

  function ExpenseAmount(e: MonthlyExpense, f: ExpenseField): int
  {
    match f
    case InterBill => e.inter
    case NubankBill => e.nubank
    case MPagoBill => e.mPago
    case AguaBill => e.agua
    case EnergiaBill => e.energia
    case OutrosBill => e.outros
    case PixBill => e.pix
  }

  function IncomeAmount(i: MonthlyIncome, f: IncomeField): int
  {
    match f
    case SalarioIncome => i.salario
    case BonusIncome => i.bonus
    case OutrosIncome => i.outros
    case RecargaPayIncome => i.recargaPay
  }

  /** `{...m.expenses, [key]: v}`: the named bill becomes `v` and the others stay. */
  function SetExpense(e: MonthlyExpense, f: ExpenseField, v: int): (r: MonthlyExpense)
    ensures ExpenseAmount(r, f) == v
    ensures forall g :: g != f ==> ExpenseAmount(r, g) == ExpenseAmount(e, g)
  {
    match f
    case InterBill => e.(inter := v)
    case NubankBill => e.(nubank := v)
    case MPagoBill => e.(mPago := v)
    case AguaBill => e.(agua := v)
    case EnergiaBill => e.(energia := v)
    case OutrosBill => e.(outros := v)
    case PixBill => e.(pix := v)
  }

  /** `{...m.income, [key]: v}`: the named income becomes `v` and the others stay. */
  function SetIncome(i: MonthlyIncome, f: IncomeField, v: int): (r: MonthlyIncome)
    ensures IncomeAmount(r, f) == v
    ensures forall g :: g != f ==> IncomeAmount(r, g) == IncomeAmount(i, g)
  {
    match f
    case SalarioIncome => i.(salario := v)
    case BonusIncome => i.(bonus := v)
    case OutrosIncome => i.(outros := v)
    case RecargaPayIncome => i.(recargaPay := v)
  }

  /** Setting one bill moves the fixed total by the difference between the new and the old amount. */
  lemma SetExpenseTotal(e: MonthlyExpense, f: ExpenseField, v: int)
    ensures FixedExpenses(SetExpense(e, f, v)) == FixedExpenses(e) - ExpenseAmount(e, f) + v
  {
    TotalsOfCompleteRecords(e, MonthlyIncome(0, 0, 0, 0));
    TotalsOfCompleteRecords(SetExpense(e, f, v), MonthlyIncome(0, 0, 0, 0));
  }

  /** Setting one income moves the income total by the difference. */
  lemma SetIncomeTotal(i: MonthlyIncome, f: IncomeField, v: int)
    ensures IncomeTotal(SetIncome(i, f, v)) == IncomeTotal(i) - IncomeAmount(i, f) + v
  {
    TotalsOfCompleteRecords(MonthlyExpense(0, 0, 0, 0, 0, 0, 0), i);
    TotalsOfCompleteRecords(MonthlyExpense(0, 0, 0, 0, 0, 0, 0), SetIncome(i, f, v));
  }

  function MonthExpenseEditor(f: ExpenseField, v: int): MonthData -> MonthData
  {
    (m: MonthData) => m.(expenses := SetExpense(m.expenses, f, v))
  }

  function MonthIncomeEditor(f: IncomeField, v: int): MonthData -> MonthData
  {
    (m: MonthData) => m.(income := SetIncome(m.income, f, v))
  }

  /** The four inputs of a row of the categorized table (App.tsx:549, 559, 569, 578). */
  datatype CategorizedEdit =
    | CategorizedCategory(category: string)
    | CategorizedMonth(month: string)
    | CategorizedDescription(description: string)
    | CategorizedAmount(amount: int)

  function EditCategorized(c: CategorizedExpense, e: CategorizedEdit): CategorizedExpense
  {
    match e
    case CategorizedCategory(x) => c.(category := x)
    case CategorizedMonth(x) => c.(month := x)
    case CategorizedDescription(x) => c.(description := x)
    case CategorizedAmount(x) => c.(value := x)
  }

  function CategorizedEditor(e: CategorizedEdit): CategorizedExpense -> CategorizedExpense
  {
    c => EditCategorized(c, e)
  }

  /** The five inputs of a loan card (App.tsx:654-659); interest has no input. */
  datatype LoanEdit =
    | LoanDescription(description: string)
    | LoanTotalValue(totalValue: int)
    | LoanInstallmentValue(installmentValue: int)
    | LoanInstallments(installments: int)
    | LoanPaidInstallments(paidInstallments: int)

  function EditLoan(l: Loan, e: LoanEdit): Loan
  {
    match e
    case LoanDescription(x) => l.(description := x)
    case LoanTotalValue(x) => l.(totalValue := x)
    case LoanInstallmentValue(x) => l.(installmentValue := x)
    case LoanInstallments(x) => l.(installments := x)
    case LoanPaidInstallments(x) => l.(paidInstallments := x)
  }

  function LoanEditor(e: LoanEdit): Loan -> Loan
  {
    l => EditLoan(l, e)
  }

  /** The six cost inputs of a trip card (App.tsx:680-691). */
  datatype TripField = CarRentalCost | FuelCost | FoodCost | OthersCost | CreditCardCost | PixCost

  function TripCost(t: TripExpense, f: TripField): int
  {
    match f
    case CarRentalCost => t.carRental
    case FuelCost => t.fuel
    case FoodCost => t.food
    case OthersCost => t.others
    case CreditCardCost => t.creditCard
    case PixCost => t.pix
  }

  /** The inputs of a trip card (App.tsx:675-691). */
  datatype TripEdit =
    | TripDestination(destination: string)
    | TripMonth(month: string)
    | TripCostEdit(field: TripField, amount: int)

  function EditTrip(t: TripExpense, e: TripEdit): TripExpense
  {
    match e
    case TripDestination(x) => t.(destination := x)
    case TripMonth(x) => t.(month := x)
    case TripCostEdit(f, x) =>
      match f
      case CarRentalCost => t.(carRental := x)
      case FuelCost => t.(fuel := x)
      case FoodCost => t.(food := x)
      case OthersCost => t.(others := x)
      case CreditCardCost => t.(creditCard := x)
      case PixCost => t.(pix := x)
  }

  function TripEditor(e: TripEdit): TripExpense -> TripExpense
  {
    t => EditTrip(t, e)
  }

  /** The inputs of a vehicle row (App.tsx:735-763); the vehicle type has no input. */
  datatype VehicleEdit =
    | VehicleCategoryEdit(category: VehicleCategory)
    | VehicleMonth(month: string)
    | VehicleDescription(description: string)
    | VehicleAmount(amount: int)

  function EditVehicle(v: VehicleExpense, e: VehicleEdit): VehicleExpense
  {
    match e
    case VehicleCategoryEdit(x) => v.(category := x)
    case VehicleMonth(x) => v.(month := x)
    case VehicleDescription(x) => v.(description := x)
    case VehicleAmount(x) => v.(value := x)
  }

  function VehicleEditor(e: VehicleEdit): VehicleExpense -> VehicleExpense
  {
    v => EditVehicle(v, e)
  }

  /** The inputs of a savings row (App.tsx:819-838); the transaction type has no input. */
  datatype SavingsEdit =
    | SavingsMonth(month: string)
    | SavingsDescription(description: string)
    | SavingsAmount(amount: int)

  function EditSavings(s: SavingsTransaction, e: SavingsEdit): SavingsTransaction
  {
    match e
    case SavingsMonth(x) => s.(month := x)
    case SavingsDescription(x) => s.(description := x)
    case SavingsAmount(x) => s.(value := x)
  }

  function SavingsEditor(e: SavingsEdit): SavingsTransaction -> SavingsTransaction
  {
    s => EditSavings(s, e)
  }

  // What the handlers do to the derived figures.

  /**
   * `addMonth` keeps every earlier row of the monthly series and adds one row
   * for the new label, with no income and only the categorized expenses
   * already dated to that label.
   */
  lemma AddMonthRows(months: seq<MonthData>, cs: seq<CategorizedExpense>, id: string, name: string, year: int)
    ensures var c := CategorizedInMonth(cs, name);
      ChartData(months + [NewMonth(id, name, year)], cs) == ChartData(months, cs) + [MonthPoint(name, c, 0, -c)]
  {
    var m := NewMonth(id, name, year);
    NewMonthBlank(id, name, year);
    BlankMonthPoint(m, cs, name);
    ChartDataSingle(m, cs);
    ChartDataAppend(months, [m], cs);
  }

  lemma NewMonthBlank(id: string, name: string, year: int)
    ensures var m := NewMonth(id, name, year);
      FixedExpenses(m.expenses) == 0 && IncomeTotal(m.income) == 0 && m.month == name
  {
  }

  /** A new categorized expense is worth 0: the total and every row of the monthly series stay. */
  lemma NewCategorizedNeutral(months: seq<MonthData>, cs: seq<CategorizedExpense>, id: string, month: string)
    ensures CategorizedTotal(cs + [NewCategorized(id, month)]) == CategorizedTotal(cs)
    ensures ChartData(months, cs + [NewCategorized(id, month)]) == ChartData(months, cs)
  {
    var c := NewCategorized(id, month);
    SumOfSnoc(cs, c, CategorizedValue);
    forall i | 0 <= i < |months| ensures ChartData(months, cs + [c])[i] == ChartData(months, cs)[i] {
      ChartDataAfterCategorized(months, cs, c, i);
    }
  }

  /** A new loan has an installment value of 0: the paid, remaining and scheduled amounts stay. */
  lemma NewLoanNeutral(ls: seq<Loan>, id: string)
    ensures LoansPosition(ls + [NewLoan(id)]) == LoansPosition(ls)
    ensures SumOf(ls + [NewLoan(id)], ScheduledAmount) == SumOf(ls, ScheduledAmount)
  {
    SumOfSnoc(ls, NewLoan(id), PaidAmount);
    SumOfSnoc(ls, NewLoan(id), RemainingAmount);
    SumOfSnoc(ls, NewLoan(id), ScheduledAmount);
  }

  lemma NewTripNeutral(ts: seq<TripExpense>, id: string, currentMonth: nat)
    requires currentMonth < 12
    ensures TravelTotal(ts + [NewTrip(id, currentMonth)]) == TravelTotal(ts)
  {
    SumOfSnoc(ts, NewTrip(id, currentMonth), TripTotal);
  }

  /** A new vehicle expense is worth 0: none of the four buckets moves. */
  lemma NewVehicleExpenseNeutral(vs: seq<VehicleExpense>, id: string, kind: VehicleType, currentMonth: nat)
    requires currentMonth < 12
    ensures forall b :: BucketSum(vs + [NewVehicleExpense(id, kind, currentMonth)], b) == BucketSum(vs, b)
  {
    forall b ensures BucketSum(vs + [NewVehicleExpense(id, kind, currentMonth)], b) == BucketSum(vs, b) {
      MatchingSumSnoc(vs, NewVehicleExpense(id, kind, currentMonth), BucketOf, b, VehicleValue);
    }
  }

  lemma NewSavingsNeutral(ss: seq<SavingsTransaction>, id: string, kind: SavingsKind, currentMonth: nat)
    requires currentMonth < 12
    ensures SavingsOf(ss + [NewSavings(id, kind, currentMonth)]) == SavingsOf(ss)
  {
    SumOfSnoc(ss, NewSavings(id, kind, currentMonth), SignedValue);
    SumOfSnoc(ss, NewSavings(id, kind, currentMonth), YieldValue);
  }

  /**
   * Editing one bill of the month `id` moves the expenses of that month's
   * row by the difference, and its balance by the opposite; every other row,
   * and the income and label of that row, stay.
   */
  lemma MonthExpenseEditRows(months: seq<MonthData>, cs: seq<CategorizedExpense>, id: string,
                             f: ExpenseField, v: int, i: nat)
    requires i < |months|
    ensures var before := ChartData(months, cs)[i];
      var after := ChartData(UpdateWhere(months, MonthIdOf, id, MonthExpenseEditor(f, v)), cs)[i];
      var delta := if months[i].id == id then v - ExpenseAmount(months[i].expenses, f) else 0;
      && after.name == before.name
      && after.ganhos == before.ganhos
      && after.gastos == before.gastos + delta
      && after.balanco == before.balanco - delta
  {
    SetExpenseTotal(months[i].expenses, f, v);
  }

  /** Editing one income of the month `id` moves that row's income and balance by the difference. */
  lemma MonthIncomeEditRows(months: seq<MonthData>, cs: seq<CategorizedExpense>, id: string,
                            f: IncomeField, v: int, i: nat)
    requires i < |months|
    ensures var before := ChartData(months, cs)[i];
      var after := ChartData(UpdateWhere(months, MonthIdOf, id, MonthIncomeEditor(f, v)), cs)[i];
      var delta := if months[i].id == id then v - IncomeAmount(months[i].income, f) else 0;
      && after.name == before.name
      && after.gastos == before.gastos
      && after.ganhos == before.ganhos + delta
      && after.balanco == before.balanco + delta
  {
    SetIncomeTotal(months[i].income, f, v);
  }

  /**
   * Only a value edit changes the categorized total, and it replaces the
   * values of the expenses carrying the id by the new one.
   */
  lemma CategorizedEditTotal(cs: seq<CategorizedExpense>, id: string, e: CategorizedEdit)
    ensures var after := UpdateWhere(cs, CategorizedIdOf, id, CategorizedEditor(e));
      var hit := Matching(cs, CategorizedIdOf, id);
      && (!e.CategorizedAmount? ==> CategorizedTotal(after) == CategorizedTotal(cs))
      && (e.CategorizedAmount? ==>
            CategorizedTotal(after) == CategorizedTotal(cs) - SumOf(hit, CategorizedValue) + |hit| * e.amount)
  {
    var f := CategorizedEditor(e);
    if e.CategorizedAmount? {
      var hit := Matching(cs, CategorizedIdOf, id);
      UpdateWhereSum(cs, CategorizedIdOf, id, f, CategorizedValue);
      SumOfConstant(UpdateWhere(hit, CategorizedIdOf, id, f), CategorizedValue, e.amount);
    } else {
      UpdateWhereNeutral(cs, CategorizedIdOf, id, f, CategorizedValue);
    }
  }

  /** Neither the description nor the total value of a loan moves the loan position. */
  lemma LoanEditPosition(ls: seq<Loan>, id: string, e: LoanEdit)
    requires e.LoanDescription? || e.LoanTotalValue?
    ensures LoansPosition(UpdateWhere(ls, LoanIdOf, id, LoanEditor(e))) == LoansPosition(ls)
  {
    UpdateWhereNeutral(ls, LoanIdOf, id, LoanEditor(e), PaidAmount);
    UpdateWhereNeutral(ls, LoanIdOf, id, LoanEditor(e), RemainingAmount);
  }

  /** Setting one cost of a trip moves its total by the difference. */
  lemma TripCostEditTotal(t: TripExpense, f: TripField, v: int)
    ensures TripTotal(EditTrip(t, TripCostEdit(f, v))) == TripTotal(t) - TripCost(t, f) + v
  {
  }

  /** One cost column of every trip, as a projection. */
  function TripCostOf(f: TripField): TripExpense -> int
  {
    (t: TripExpense) => TripCost(t, f)
  }

  /**
   * Renaming or re-dating a trip leaves the travel total; setting one cost
   * of the trips carrying the id replaces that cost of each by the new one.
   */
  lemma TripEditTotal(ts: seq<TripExpense>, id: string, e: TripEdit)
    ensures var after, hit := UpdateWhere(ts, TripIdOf, id, TripEditor(e)), Matching(ts, TripIdOf, id);
      && (!e.TripCostEdit? ==> TravelTotal(after) == TravelTotal(ts))
      && (e.TripCostEdit? ==>
            TravelTotal(after) == TravelTotal(ts) - SumOf(hit, TripCostOf(e.field)) + |hit| * e.amount)
  {
    if e.TripCostEdit? {
      var hit := Matching(ts, TripIdOf, id);
      var d := (t: TripExpense) => e.amount - TripCost(t, e.field);
      var v := (t: TripExpense) => e.amount;
      forall t ensures TripTotal(TripEditor(e)(t)) == TripTotal(t) + d(t) {
        TripCostEditTotal(t, e.field, e.amount);
      }
      UpdateWhereShift(ts, TripIdOf, id, TripEditor(e), TripTotal, d);
      SumOfPointwise(hit, TripCostOf(e.field), d, v);
      SumOfConstant(hit, v, e.amount);
    } else {
      UpdateWhereNeutral(ts, TripIdOf, id, TripEditor(e), TripTotal);
    }
  }

  /**
   * Only a value edit moves the vehicle grand total; a month or description
   * edit moves none of the four buckets either.
   */
  lemma VehicleEditTotals(vs: seq<VehicleExpense>, id: string, e: VehicleEdit)
    ensures var after, hit := UpdateWhere(vs, VehicleIdOf, id, VehicleEditor(e)), Matching(vs, VehicleIdOf, id);
      && (!e.VehicleAmount? ==> SumOf(after, VehicleValue) == SumOf(vs, VehicleValue))
      && (e.VehicleAmount? ==>
            SumOf(after, VehicleValue) == SumOf(vs, VehicleValue) - SumOf(hit, VehicleValue) + |hit| * e.amount)
      && (e.VehicleMonth? || e.VehicleDescription? ==> forall b :: BucketSum(after, b) == BucketSum(vs, b))
  {
    var f := VehicleEditor(e);
    if !e.VehicleAmount? {
      UpdateWhereNeutral(vs, VehicleIdOf, id, f, VehicleValue);
    } else {
      var hit := Matching(vs, VehicleIdOf, id);
      UpdateWhereSum(vs, VehicleIdOf, id, f, VehicleValue);
      SumOfConstant(UpdateWhere(hit, VehicleIdOf, id, f), VehicleValue, e.amount);
    }
    if e.VehicleMonth? || e.VehicleDescription? {
      var after := UpdateWhere(vs, VehicleIdOf, id, f);
      forall b ensures BucketSum(after, b) == BucketSum(vs, b) {
        UpdateWhereMatching(vs, VehicleIdOf, id, f, BucketOf, b);
        UpdateWhereNeutral(Matching(vs, BucketOf, b), VehicleIdOf, id, f, VehicleValue);
      }
    }
  }

  /** Re-dating or describing a savings transaction leaves the savings position. */
  lemma SavingsEditPosition(ss: seq<SavingsTransaction>, id: string, e: SavingsEdit)
    requires !e.SavingsAmount?
    ensures SavingsOf(UpdateWhere(ss, SavingsIdOf, id, SavingsEditor(e))) == SavingsOf(ss)
  {
    UpdateWhereNeutral(ss, SavingsIdOf, id, SavingsEditor(e), SignedValue);
    UpdateWhereNeutral(ss, SavingsIdOf, id, SavingsEditor(e), YieldValue);
  }

  /**
   * A delete splits the totals of its sequence into what survives and what
   * was removed: nothing is lost and nothing is counted twice.
   */
  lemma DeleteSplitsTotals(d: AppState, id: string)
    ensures CategorizedTotal(d.categorizedExpenses)
         == CategorizedTotal(Without(d.categorizedExpenses, CategorizedIdOf, id))
          + CategorizedTotal(Matching(d.categorizedExpenses, CategorizedIdOf, id))
    ensures TravelTotal(d.trips)
         == TravelTotal(Without(d.trips, TripIdOf, id)) + TravelTotal(Matching(d.trips, TripIdOf, id))
    ensures SumOf(d.vehicleExpenses, VehicleValue)
         == SumOf(Without(d.vehicleExpenses, VehicleIdOf, id), VehicleValue)
          + SumOf(Matching(d.vehicleExpenses, VehicleIdOf, id), VehicleValue)
  {
    SplitByKey(d.categorizedExpenses, CategorizedIdOf, id, CategorizedValue);
    SplitByKey(d.trips, TripIdOf, id, TripTotal);
    SplitByKey(d.vehicleExpenses, VehicleIdOf, id, VehicleValue);
  }

  /** The same split for the loan and savings positions, component by component. */
  lemma DeleteSplitsPositions(d: AppState, id: string)
    ensures var kept, gone := LoansPosition(Without(d.loans, LoanIdOf, id)), LoansPosition(Matching(d.loans, LoanIdOf, id));
      LoansPosition(d.loans) == LoanPosition(kept.paid + gone.paid, kept.remaining + gone.remaining)
    ensures var kept, gone := SavingsOf(Without(d.savings, SavingsIdOf, id)), SavingsOf(Matching(d.savings, SavingsIdOf, id));
      SavingsOf(d.savings) == SavingsPosition(kept.total + gone.total, kept.earnings + gone.earnings)
  {
    SplitByKey(d.loans, LoanIdOf, id, PaidAmount);
    SplitByKey(d.loans, LoanIdOf, id, RemainingAmount);
    SplitByKey(d.savings, SavingsIdOf, id, SignedValue);
    SplitByKey(d.savings, SavingsIdOf, id, YieldValue);
  }

  /** The store itself: one sequence per record kind, replaced by every handler. */
  class Store {
    var months: seq<MonthData>
    var loans: seq<Loan>
    var trips: seq<TripExpense>
    var vehicleExpenses: seq<VehicleExpense>
    var savings: seq<SavingsTransaction>
    var categorizedExpenses: seq<CategorizedExpense>

    function Snapshot(): AppState
      reads this
    {
      AppState(months, loans, trips, vehicleExpenses, savings, categorizedExpenses)
    }

    /** The initial `useState` value: six empty sequences. */
    constructor ()
      ensures Snapshot() == EmptyState
    {
      months, loans, trips := [], [], [];
      vehicleExpenses, savings, categorizedExpenses := [], [], [];
    }

    /** `addMonth`: appends one zeroed record labelled with the successor of the last label. */
    method AddMonth(id: string, currentMonth: nat, year: int)
      requires currentMonth < 12
      modifies this
      ensures Snapshot() == old(Snapshot()).(months := old(months) + [NewMonth(id, NextMonthLabel(old(months), currentMonth), year)])
    {
      var name := NextMonthLabel(months, currentMonth);
      months := months + [NewMonth(id, name, year)];
    }

    /** `addCategorizedExpense`: appends a zero expense of the first category, dated to the last month's label. */
    method AddCategorizedExpense(id: string, currentMonth: nat)
      requires currentMonth < 12
      modifies this
      ensures Snapshot() == old(Snapshot()).(categorizedExpenses :=
        old(categorizedExpenses) + [NewCategorized(id, NewCategorizedMonth(old(months), currentMonth))])
    {
      var month := NewCategorizedMonth(months, currentMonth);
      categorizedExpenses := categorizedExpenses + [NewCategorized(id, month)];
    }

    method AddLoan(id: string)
      modifies this
      ensures Snapshot() == old(Snapshot()).(loans := old(loans) + [NewLoan(id)])
    {
      loans := loans + [NewLoan(id)];
    }

    method AddTrip(id: string, currentMonth: nat)
      requires currentMonth < 12
      modifies this
      ensures Snapshot() == old(Snapshot()).(trips := old(trips) + [NewTrip(id, currentMonth)])
    {
      trips := trips + [NewTrip(id, currentMonth)];
    }

    method AddVehicleExpense(id: string, kind: VehicleType, currentMonth: nat)
      requires currentMonth < 12
      modifies this
      ensures Snapshot() == old(Snapshot()).(vehicleExpenses :=
        old(vehicleExpenses) + [NewVehicleExpense(id, kind, currentMonth)])
    {
      vehicleExpenses := vehicleExpenses + [NewVehicleExpense(id, kind, currentMonth)];
    }

    method AddSavings(id: string, kind: SavingsKind, currentMonth: nat)
      requires currentMonth < 12
      modifies this
      ensures Snapshot() == old(Snapshot()).(savings := old(savings) + [NewSavings(id, kind, currentMonth)])
    {
      savings := savings + [NewSavings(id, kind, currentMonth)];
    }

    /** The month modal's bill inputs (App.tsx:874): rewrites one bill of the records carrying `id`. */
    method UpdateMonthExpense(id: string, f: ExpenseField, v: int)
      modifies this
      ensures Snapshot() == old(Snapshot()).(months := UpdateWhere(old(months), MonthIdOf, id, MonthExpenseEditor(f, v)))
    {
      months := UpdateWhere(months, MonthIdOf, id, MonthExpenseEditor(f, v));
    }

    /** The month modal's income inputs (App.tsx:892). */
    method UpdateMonthIncome(id: string, f: IncomeField, v: int)
      modifies this
      ensures Snapshot() == old(Snapshot()).(months := UpdateWhere(old(months), MonthIdOf, id, MonthIncomeEditor(f, v)))
    {
      months := UpdateWhere(months, MonthIdOf, id, MonthIncomeEditor(f, v));
    }

    method UpdateCategorized(id: string, e: CategorizedEdit)
      modifies this
      ensures Snapshot() == old(Snapshot()).(categorizedExpenses :=
        UpdateWhere(old(categorizedExpenses), CategorizedIdOf, id, CategorizedEditor(e)))
    {
      categorizedExpenses := UpdateWhere(categorizedExpenses, CategorizedIdOf, id, CategorizedEditor(e));
    }

    method UpdateLoan(id: string, e: LoanEdit)
      modifies this
      ensures Snapshot() == old(Snapshot()).(loans := UpdateWhere(old(loans), LoanIdOf, id, LoanEditor(e)))
    {
      loans := UpdateWhere(loans, LoanIdOf, id, LoanEditor(e));
    }

    method UpdateTrip(id: string, e: TripEdit)
      modifies this
      ensures Snapshot() == old(Snapshot()).(trips := UpdateWhere(old(trips), TripIdOf, id, TripEditor(e)))
    {
      trips := UpdateWhere(trips, TripIdOf, id, TripEditor(e));
    }

    method UpdateVehicleExpense(id: string, e: VehicleEdit)
      modifies this
      ensures Snapshot() == old(Snapshot()).(vehicleExpenses :=
        UpdateWhere(old(vehicleExpenses), VehicleIdOf, id, VehicleEditor(e)))
    {
      vehicleExpenses := UpdateWhere(vehicleExpenses, VehicleIdOf, id, VehicleEditor(e));
    }

    method UpdateSavings(id: string, e: SavingsEdit)
      modifies this
      ensures Snapshot() == old(Snapshot()).(savings := UpdateWhere(old(savings), SavingsIdOf, id, SavingsEditor(e)))
    {
      savings := UpdateWhere(savings, SavingsIdOf, id, SavingsEditor(e));
    }

    method DeleteCategorized(id: string)
      modifies this
      ensures Snapshot() == old(Snapshot()).(categorizedExpenses := Without(old(categorizedExpenses), CategorizedIdOf, id))
    {
      categorizedExpenses := Without(categorizedExpenses, CategorizedIdOf, id);
    }

    method DeleteLoan(id: string)
      modifies this
      ensures Snapshot() == old(Snapshot()).(loans := Without(old(loans), LoanIdOf, id))
    {
      loans := Without(loans, LoanIdOf, id);
    }

    method DeleteTrip(id: string)
      modifies this
      ensures Snapshot() == old(Snapshot()).(trips := Without(old(trips), TripIdOf, id))
    {
      trips := Without(trips, TripIdOf, id);
    }

    method DeleteVehicleExpense(id: string)
      modifies this
      ensures Snapshot() == old(Snapshot()).(vehicleExpenses := Without(old(vehicleExpenses), VehicleIdOf, id))
    {
      vehicleExpenses := Without(vehicleExpenses, VehicleIdOf, id);
    }

    method DeleteSavings(id: string)
      modifies this
      ensures Snapshot() == old(Snapshot()).(savings := Without(old(savings), SavingsIdOf, id))
    {
      savings := Without(savings, SavingsIdOf, id);
    }

    /** The spreadsheet import (App.tsx:327): the mapped rows go after the existing months. */
    method ImportMonths(imported: seq<MonthData>)
      modifies this
      ensures Snapshot() == old(Snapshot()).(months := old(months) + imported)
    {
      months := months + imported;
    }

    /**
     * The backup restore (App.tsx:339-344): a parsed backup replaces the whole
     * store; a file that does not parse leaves it as it was.
     */
    method RestoreBackup(parsed: Option<AppState>)
      modifies this
      ensures parsed.None? ==> Snapshot() == old(Snapshot())
      ensures parsed.Some? ==> Snapshot() == parsed.value
    {
      if parsed.Some? {
        var d := parsed.value;
        months, loans, trips := d.months, d.loans, d.trips;
        vehicleExpenses, savings, categorizedExpenses := d.vehicleExpenses, d.savings, d.categorizedExpenses;
      }
    }

    /**
     * "Limpar Tudo" (App.tsx:445): once the user confirms the dialog, back to
     * six empty sequences; a declined dialog leaves the store as it was.
     */
    method ClearAll(confirmed: bool)
      modifies this
      ensures confirmed ==> Snapshot() == EmptyState
      ensures !confirmed ==> Snapshot() == old(Snapshot())
    {
      if confirmed {
        months, loans, trips := [], [], [];
        vehicleExpenses, savings, categorizedExpenses := [], [], [];
      }
    }
  }
}
