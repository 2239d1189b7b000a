/**
 * The dashboard figures of `App.tsx` (the `stats` memo): the vehicle cost
 * breakdown, the loan position, the savings position, the travel total and
 * the categorized-expense total, each a fold over one sequence of the store.
 */
module Stats {
  import opened Types
  import opened SeqOps

  /** The `{ fuel, maintenance }` pair kept per vehicle type. */
  datatype FuelMaintenance = FuelMaintenance(fuel: int, maintenance: int)

  /** The `vehicle` accumulator: `{ car: {...}, moto: {...} }`. */
  datatype VehicleTotals = VehicleTotals(car: FuelMaintenance, moto: FuelMaintenance)

  /**
   * The bucket an expense is added to: `car` exactly when its type is CAR,
   * `fuel` exactly when its category is FUEL; everything else goes to the
   * other side of each test.
   */
  datatype Bucket = Bucket(car: bool, fuel: bool)

  function BucketOf(v: VehicleExpense): Bucket
  {
    Bucket(v.kind == Car, v.category == Fuel)
  }

  const AllBuckets: seq<Bucket> :=
    [Bucket(true, true), Bucket(true, false), Bucket(false, true), Bucket(false, false)]

  /** The total of the expenses falling in bucket `b`. */
  function BucketSum(vs: seq<VehicleExpense>, b: Bucket): int
  {
    SumOf(Matching(vs, BucketOf, b), VehicleValue)
  }

  /** What the dashboard and the report show as the whole vehicle cost. */
  function VehicleGrandTotal(t: VehicleTotals): int
  {
    t.car.fuel + t.car.maintenance + t.moto.fuel + t.moto.maintenance
  }

  /**
   * The `forEach` over the vehicle expenses (App.tsx:163-171): each value is
   * added to exactly one of the four buckets, so the buckets hold the per
   * bucket sums and together the sum of every vehicle expense.
   */
  method VehicleBreakdown(vs: seq<VehicleExpense>) returns (t: VehicleTotals)
    ensures t.car.fuel == BucketSum(vs, Bucket(true, true))
    ensures t.car.maintenance == BucketSum(vs, Bucket(true, false))
    ensures t.moto.fuel == BucketSum(vs, Bucket(false, true))
    ensures t.moto.maintenance == BucketSum(vs, Bucket(false, false))
    ensures VehicleGrandTotal(t) == SumOf(vs, VehicleValue)
  {
    t := VehicleTotals(FuelMaintenance(0, 0), FuelMaintenance(0, 0));
    for i := 0 to |vs|
      invariant t.car.fuel == BucketSum(vs[..i], Bucket(true, true))
      invariant t.car.maintenance == BucketSum(vs[..i], Bucket(true, false))
      invariant t.moto.fuel == BucketSum(vs[..i], Bucket(false, true))
      invariant t.moto.maintenance == BucketSum(vs[..i], Bucket(false, false))
    {
      var exp := vs[i];
      BucketsStep(vs, i);
      var isCar := exp.kind == Car;
      var isFuel := exp.category == Fuel;
      if isCar && isFuel {
        t := t.(car := t.car.(fuel := t.car.fuel + exp.value));
      } else if isCar {
        t := t.(car := t.car.(maintenance := t.car.maintenance + exp.value));
      } else if isFuel {
        t := t.(moto := t.moto.(fuel := t.moto.fuel + exp.value));
      } else {
        t := t.(moto := t.moto.(maintenance := t.moto.maintenance + exp.value));
      }
    }
    assert vs[..|vs|] == vs;
    BucketsPartition(vs);
  }

  /** Taking one more expense adds its value to its own bucket only. */
  /** `BucketSumStep` read off at the four buckets the loop keeps. */
  lemma BucketsStep(vs: seq<VehicleExpense>, i: nat)
    requires i < |vs|
    ensures var v, b := vs[i].value, BucketOf(vs[i]);
      && BucketSum(vs[..i + 1], Bucket(true, true)) == BucketSum(vs[..i], Bucket(true, true)) + (if b == Bucket(true, true) then v else 0)
      && BucketSum(vs[..i + 1], Bucket(true, false)) == BucketSum(vs[..i], Bucket(true, false)) + (if b == Bucket(true, false) then v else 0)
      && BucketSum(vs[..i + 1], Bucket(false, true)) == BucketSum(vs[..i], Bucket(false, true)) + (if b == Bucket(false, true) then v else 0)
      && BucketSum(vs[..i + 1], Bucket(false, false)) == BucketSum(vs[..i], Bucket(false, false)) + (if b == Bucket(false, false) then v else 0)
  {
    BucketSumStep(vs, i);
  }

  lemma BucketSumStep(vs: seq<VehicleExpense>, i: nat)
    requires i < |vs|
    ensures forall b :: BucketSum(vs[..i + 1], b)
                     == BucketSum(vs[..i], b) + (if BucketOf(vs[i]) == b then vs[i].value else 0)
  {
    assert vs[..i + 1] == vs[..i] + [vs[i]];
    forall b ensures BucketSum(vs[..i + 1], b)
                  == BucketSum(vs[..i], b) + (if BucketOf(vs[i]) == b then vs[i].value else 0)
    {
      MatchingSumSnoc(vs[..i], vs[i], BucketOf, b, VehicleValue);
    }
  }

  /** The four buckets split the vehicle expenses: their sums add up to the whole. */
  lemma {:induction false} BucketsPartition(vs: seq<VehicleExpense>)
    ensures BucketSum(vs, Bucket(true, true)) + BucketSum(vs, Bucket(true, false))
          + BucketSum(vs, Bucket(false, true)) + BucketSum(vs, Bucket(false, false))
         == SumOf(vs, VehicleValue)
  {
    var b0, b1, b2, b3 := Bucket(true, true), Bucket(true, false), Bucket(false, true), Bucket(false, false);
    assert Distinct(AllBuckets);
    forall i | 0 <= i < |vs| ensures BucketOf(vs[i]) in AllBuckets {
      BucketOfFallsThrough(vs[i]);
    }
    KeyedSumPartition(AllBuckets, vs, BucketOf, VehicleValue);
    assert AllBuckets[..3] == [b0, b1, b2];
    assert [b0, b1, b2][..2] == [b0, b1];
    assert [b0, b1][..1] == [b0];
    assert [b0][..0] == [];
    calc {
      KeyedSum(AllBuckets, vs, BucketOf, VehicleValue);
      KeyedSum([b0, b1, b2], vs, BucketOf, VehicleValue) + BucketSum(vs, b3);
      KeyedSum([b0, b1], vs, BucketOf, VehicleValue) + BucketSum(vs, b2) + BucketSum(vs, b3);
      KeyedSum([b0], vs, BucketOf, VehicleValue) + BucketSum(vs, b1) + BucketSum(vs, b2) + BucketSum(vs, b3);
      BucketSum(vs, b0) + BucketSum(vs, b1) + BucketSum(vs, b2) + BucketSum(vs, b3);
    }
  }

  /** A record that is not a car lands in the moto buckets; one that is not fuel, in maintenance. */
  lemma BucketOfFallsThrough(v: VehicleExpense)
    ensures v.kind != Car ==> !BucketOf(v).car
    ensures v.category != Fuel ==> !BucketOf(v).fuel
    ensures BucketOf(v) in AllBuckets
  {
  }

  // Loans (App.tsx:173-176): only installment counts and the installment value matter.

  function PaidAmount(l: Loan): int { l.paidInstallments * l.installmentValue }

  function RemainingAmount(l: Loan): int { (l.installments - l.paidInstallments) * l.installmentValue }

  /** The full installment schedule of a loan. */
  function ScheduledAmount(l: Loan): int { l.installments * l.installmentValue }

  datatype LoanPosition = LoanPosition(paid: int, remaining: int)

  function LoansPosition(ls: seq<Loan>): LoanPosition
  {
    LoanPosition(SumOf(ls, PaidAmount), SumOf(ls, RemainingAmount))
  }

  /** What is paid plus what remains is the whole schedule of every loan. */
  lemma {:induction false} LoanPositionConservation(ls: seq<Loan>)
    ensures LoansPosition(ls).paid + LoansPosition(ls).remaining == SumOf(ls, ScheduledAmount)
  {
    forall l: Loan ensures ScheduledAmount(l) == PaidAmount(l) + RemainingAmount(l) {
      calc {
        PaidAmount(l) + RemainingAmount(l);
        l.paidInstallments * l.installmentValue
          + (l.installments - l.paidInstallments) * l.installmentValue;
        { assert (l.installments - l.paidInstallments) * l.installmentValue
              == l.installments * l.installmentValue - l.paidInstallments * l.installmentValue; }
        ScheduledAmount(l);
      }
    }
    SumOfPointwise(ls, PaidAmount, RemainingAmount, ScheduledAmount);
  }

  /**
   * Neither the total value, the interest nor the description of a loan
   * affects the position: two loan lists agreeing on the installment figures
   * have the same paid and remaining amounts.
   */
  lemma LoanPositionIgnoresTotalAndInterest(a: seq<Loan>, b: seq<Loan>)
    requires |a| == |b|
    requires forall i :: 0 <= i < |a| ==>
      && a[i].installments == b[i].installments
      && a[i].paidInstallments == b[i].paidInstallments
      && a[i].installmentValue == b[i].installmentValue
    ensures LoansPosition(a) == LoansPosition(b)
  {
    SumOfCongruent(a, PaidAmount, b, PaidAmount);
    SumOfCongruent(a, RemainingAmount, b, RemainingAmount);
  }

  // Savings (App.tsx:178-184).

  /** Deposits and yields add, withdrawals subtract. */
  function SignedValue(s: SavingsTransaction): int
  {
    if s.kind == Entrada || s.kind == Rendimento then s.value else -s.value
  }

  function YieldValue(s: SavingsTransaction): int
  {
    if s.kind == Rendimento then s.value else 0
  }

  datatype SavingsPosition = SavingsPosition(total: int, earnings: int)

  function SavingsOf(ss: seq<SavingsTransaction>): SavingsPosition
  {
    SavingsPosition(SumOf(ss, SignedValue), SumOf(ss, YieldValue))
  }

  /** The sum of the values of the transactions of one kind. */
  function KindSum(ss: seq<SavingsTransaction>, k: SavingsKind): int
  {
    SumOf(Matching(ss, SavingsKindOf, k), SavingsValue)
  }

  /** total = deposits + yields - withdrawals, and earnings = yields. */
  lemma {:induction false} SavingsByKind(ss: seq<SavingsTransaction>)
    ensures SavingsOf(ss).total == KindSum(ss, Entrada) + KindSum(ss, Rendimento) - KindSum(ss, Retirada)
    ensures SavingsOf(ss).earnings == KindSum(ss, Rendimento)
  {
    if ss != [] {
      var s', x := ss[..|ss| - 1], ss[|ss| - 1];
      assert ss == s' + [x];
      SavingsByKind(s');
      MatchingSumSnoc(s', x, SavingsKindOf, Entrada, SavingsValue);
      MatchingSumSnoc(s', x, SavingsKindOf, Rendimento, SavingsValue);
      MatchingSumSnoc(s', x, SavingsKindOf, Retirada, SavingsValue);
    }
  }

  /** The savings figures do not depend on the order of the transactions. */
  lemma SavingsOrderIndependent(a: seq<SavingsTransaction>, b: seq<SavingsTransaction>)
    requires multiset(a) == multiset(b)
    ensures SavingsOf(a) == SavingsOf(b)
  {
    SumOfPermutation(a, b, SignedValue);
    SumOfPermutation(a, b, YieldValue);
  }

  // Travel and categorized totals (App.tsx:186-187).

  function TripTotal(t: TripExpense): int
  {
    t.carRental + t.fuel + t.food + t.others + t.creditCard + t.pix
  }

  function TravelTotal(ts: seq<TripExpense>): int
  {
    SumOf(ts, TripTotal)
  }

  function CategorizedTotal(cs: seq<CategorizedExpense>): int
  {
    SumOf(cs, CategorizedValue)
  }

  predicate TripCostsNonNegative(t: TripExpense)
  {
    t.carRental >= 0 && t.fuel >= 0 && t.food >= 0 && t.others >= 0 && t.creditCard >= 0 && t.pix >= 0
  }

  /** With non-negative costs the travel total is non-negative and at least any single trip. */
  lemma TravelTotalBounds(ts: seq<TripExpense>)
    requires forall t :: t in ts ==> TripCostsNonNegative(t)
    ensures TravelTotal(ts) >= 0
    ensures forall t :: t in ts ==> TripTotal(t) <= TravelTotal(ts)
  {
    SumOfNonNegative(ts, TripTotal);
  }

  /** The `stats` memo as a whole. */
  datatype Figures = Figures(
    vehicle: VehicleTotals, loans: LoanPosition, savings: SavingsPosition, travel: int, catExpenses: int)

  const ZeroFigures: Figures := Figures(
    VehicleTotals(FuelMaintenance(0, 0), FuelMaintenance(0, 0)),
    LoanPosition(0, 0), SavingsPosition(0, 0), 0, 0)

  /**
   * Computes every dashboard figure from one snapshot of the store: the four
   * vehicle buckets, whose sum (the vehicle cost shown on the dashboard and in
   * the report's summary) is the sum of every vehicle expense, and the other
   * folds; an empty store gives all zeros.
   */
  method ComputeStats(d: AppState) returns (st: Figures)
    ensures st.loans == LoansPosition(d.loans)
    ensures st.savings == SavingsOf(d.savings)
    ensures st.travel == TravelTotal(d.trips)
    ensures st.catExpenses == CategorizedTotal(d.categorizedExpenses)
    ensures st.vehicle.car.fuel == BucketSum(d.vehicleExpenses, Bucket(true, true))
    ensures st.vehicle.car.maintenance == BucketSum(d.vehicleExpenses, Bucket(true, false))
    ensures st.vehicle.moto.fuel == BucketSum(d.vehicleExpenses, Bucket(false, true))
    ensures st.vehicle.moto.maintenance == BucketSum(d.vehicleExpenses, Bucket(false, false))
    ensures VehicleGrandTotal(st.vehicle) == SumOf(d.vehicleExpenses, VehicleValue)
    ensures st.loans.paid + st.loans.remaining == SumOf(d.loans, ScheduledAmount)
    ensures d == EmptyState ==> st == ZeroFigures
  {
    var vehicle := VehicleBreakdown(d.vehicleExpenses);
    LoanPositionConservation(d.loans);
    st := Figures(vehicle, LoansPosition(d.loans), SavingsOf(d.savings),
                  TravelTotal(d.trips), CategorizedTotal(d.categorizedExpenses));
  }
}
