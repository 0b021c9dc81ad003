/** Payroll rows, the outcome of the per-row calculation, and the duplicate
    employee check. */
module Rows {
  import opened Money
  import opened Deductions
  import opened GrossSolver

  /** One payroll line: the employee, their type, the take-home entered for
      them, whether tax applies, and the nine amounts the payroll computes. */
  datatype Row = Row(
    employee: string,
    employeeType: string,
    takeHome: real,
    applyTax: bool,
    amounts: Amounts)

  /** The amounts of a row exempt from tax: the entered take-home is paid as
      gross, net salary and take-home, and nothing is deducted. */
  function TaxExempt(target: real): (r: Amounts)
    ensures r.grossPay == target && r.netSalary == target && r.takeHome2 == target
    ensures r.(grossPay := 0.0, netSalary := 0.0, takeHome2 := 0.0) == Zero
  {
    Amounts(0.0, 0.0, 0.0, 0.0, 0.0, target, 0.0, target, target)
  }

  /** `after` is `before` with its amounts calculated: nothing but the nine
      amounts changes; no positive take-home gives all zeros; tax off gives
      the exempt amounts; otherwise the amounts are those the solver gives
      with tax on, tolerance 1 and 60 bisection rounds. */
  predicate RowCalculated(before: Row, after: Row)
    ensures RowCalculated(before, after) ==>
      && after.employee == before.employee && after.employeeType == before.employeeType
      && after.takeHome == before.takeHome && after.applyTax == before.applyTax
  {
    && after == before.(amounts := after.amounts)
    && if before.takeHome <= 0.0 then after.amounts == Zero
       else if !before.applyTax then after.amounts == TaxExempt(before.takeHome)
       else after.amounts == GrossForTakeHome(before.takeHome, true, 1.0, 60)
  }

  /** Calculating a row depends only on what was entered on it, so
      calculating it again changes nothing. */
  lemma RecalculationKeepsRow(before: Row, mid: Row, after: Row)
    requires RowCalculated(before, mid) && RowCalculated(mid, after)
    ensures after == mid
  {
  }

  /** A taxed row with a positive take-home gets a whole gross that reaches
      the target, with that gross's amounts rounded; for targets up to 10^17
      one unit of gross less would fall short of the target plus one. */
  lemma CalculatedRowSolved(before: Row, after: Row)
    requires RowCalculated(before, after) && before.takeHome > 0.0 && before.applyTax
    ensures SolvedFor(after.amounts, before.takeHome, true)
    ensures before.takeHome <= 100000000000000000.0 ==> WithinTolerance(after.amounts, before.takeHome, true, 1.0)
  {
    GrossForTakeHomeSolves(before.takeHome, true, 1.0, 60);
    if before.takeHome <= 100000000000000000.0 {
      GrossForTakeHomeNearMinimal(before.takeHome, true, 1.0, 60);
    }
  }

  /** Rounding never takes a value that reaches a whole number below it. */
  lemma RoundKeepsWholeBound(x: real, n: int)
    requires n as real <= x
    ensures n <= RoundHalfEven(x)
  {
  }

  /** A calculated row pays at least the entered take-home as gross, and the
      stored (rounded) take-home falls short of a positive target by less
      than half a unit, and not at all when the target is whole. */
  lemma CalculatedRowCoversTarget(before: Row, after: Row)
    requires RowCalculated(before, after) && before.takeHome > 0.0
    ensures after.amounts.grossPay >= before.takeHome
    ensures after.amounts.takeHome2 >= before.takeHome - 0.5
    ensures IsWhole(before.takeHome) ==> after.amounts.takeHome2 >= before.takeHome
  {
    if before.applyTax {
      CalculatedRowSolved(before, after);
      var g := after.amounts.grossPay;
      var a := CalcAll(g, true);
      CalcAllAccounts(g, true);
      if g < 0.0 {
        TakeHomeIncreasing(g, 0.0, true);
        CalcAllZero(true);
      }
      assert a.takeHome2 >= before.takeHome;
      if IsWhole(before.takeHome) {
        RoundKeepsWholeBound(a.takeHome2, before.takeHome.Floor);
      }
    }
  }

  // ----- Duplicate employees -----

  /** Some non-empty employee appears on two different rows. Equivalently,
      scanning the rows in order, some non-empty employee is met again. */
  predicate HasDuplicateEmployee(rows: seq<Row>)
    ensures HasDuplicateEmployee(rows) <==>
      exists k :: 0 <= k < |rows| && rows[k].employee != "" && rows[k].employee in EmployeesBefore(rows, k)
  {
    exists i, j :: 0 <= i < j < |rows| && rows[i].employee != "" && rows[i].employee == rows[j].employee
  }

  /** The non-empty employees on the first `k` rows. */
  function EmployeesBefore(rows: seq<Row>, k: nat): (seen: set<string>)
    requires k <= |rows|
    ensures forall i :: 0 <= i < k && rows[i].employee != "" ==> rows[i].employee in seen
    ensures "" !in seen
  {
    set i | 0 <= i < k && rows[i].employee != "" :: rows[i].employee
  }

  /** The outcome of the duplicate check. */
  datatype Check = Passed | DuplicateEmployee(employee: string)
}
