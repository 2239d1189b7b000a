/**
 * The record shapes of the finance tracker's store. Every amount is an
 * integer number of cents; identifiers and month labels are opaque strings
 * compared by equality only.
 */
module Types {

  datatype Option<+T> = None | Some(value: T)

  datatype VehicleType = Car | Motorcycle

  datatype VehicleCategory = Maintenance | Fuel

  /** The three kinds of savings transaction: deposit, withdrawal and yield. */
  datatype SavingsKind = Entrada | Retirada | Rendimento

  /** The seven fixed monthly bills. */
  datatype MonthlyExpense = MonthlyExpense(
    inter: int, nubank: int, mPago: int, agua: int, energia: int, outros: int, pix: int)

  /** The four monthly income sources. */
  datatype MonthlyIncome = MonthlyIncome(salario: int, bonus: int, outros: int, recargaPay: int)

  datatype MonthData = MonthData(
    id: string, month: string, year: int, expenses: MonthlyExpense, income: MonthlyIncome)

  datatype Loan = Loan(
    id: string, description: string, totalValue: int, installments: int,
    paidInstallments: int, installmentValue: int, interestMonthly: int)

  datatype TripExpense = TripExpense(
    id: string, destination: string, month: string,
    carRental: int, fuel: int, food: int, others: int, creditCard: int, pix: int)

  datatype VehicleExpense = VehicleExpense(
    id: string, kind: VehicleType, category: VehicleCategory,
    description: string, value: int, month: string)

  datatype SavingsTransaction = SavingsTransaction(
    id: string, kind: SavingsKind, value: int, month: string, description: string)

  datatype CategorizedExpense = CategorizedExpense(
    id: string, category: string, value: int, month: string, description: string)

  /** The aggregate root: one ordered sequence per record kind. */
  datatype AppState = AppState(
    months: seq<MonthData>,
    loans: seq<Loan>,
    trips: seq<TripExpense>,
    vehicleExpenses: seq<VehicleExpense>,
    savings: seq<SavingsTransaction>,
    categorizedExpenses: seq<CategorizedExpense>)

  const EmptyState: AppState := AppState([], [], [], [], [], [])

  // Key and amount projections, used as first-class functions by the folds.

  function MonthIdOf(m: MonthData): string { m.id }
  function LoanIdOf(l: Loan): string { l.id }
  function TripIdOf(t: TripExpense): string { t.id }
  function VehicleIdOf(v: VehicleExpense): string { v.id }
  function SavingsIdOf(s: SavingsTransaction): string { s.id }
  function CategorizedIdOf(c: CategorizedExpense): string { c.id }

  function CategoryOf(c: CategorizedExpense): string { c.category }
  function CategorizedMonthOf(c: CategorizedExpense): string { c.month }
  function CategorizedValue(c: CategorizedExpense): int { c.value }
  function VehicleValue(v: VehicleExpense): int { v.value }
  function SavingsKindOf(s: SavingsTransaction): SavingsKind { s.kind }
  function SavingsValue(s: SavingsTransaction): int { s.value }
}
