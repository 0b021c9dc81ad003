/** The monthly payroll document: its rows, its summary-by-type table and its
    period totals table, and the validation pass that fills them in. */
module Payroll {
  import opened Deductions
  import opened GrossSolver
  import opened Rows
  import opened Aggregation

  class MonthlyPayroll {
    var payrollDetail: seq<Row>
    var summaryByType: seq<SummaryRecord>
    var monthlyPayrollTotals: seq<TotalsRecord>

    constructor (rows: seq<Row>)
      ensures payrollDetail == rows && summaryByType == [] && monthlyPayrollTotals == []
    {
      payrollDetail := rows;
      summaryByType := [];
      monthlyPayrollTotals := [];
    }

    /** The validation pass: calculate every row, then refuse a payroll that
        lists an employee twice, then rebuild the summary and the totals. On
        refusal the rows stay calculated and both tables keep their old
        contents. */
    method Validate() returns (outcome: Check)
      modifies this
      ensures |payrollDetail| == |old(payrollDetail)|
      ensures forall i :: 0 <= i < |payrollDetail| ==> RowCalculated(old(payrollDetail[i]), payrollDetail[i])
      ensures outcome.Passed? <==> !HasDuplicateEmployee(old(payrollDetail))
      ensures outcome.Passed? ==> summaryByType == SummaryOf(payrollDetail)
      ensures outcome.Passed? ==> monthlyPayrollTotals == [TotalsOf(payrollDetail)]
      ensures outcome.DuplicateEmployee? ==>
        summaryByType == old(summaryByType) && monthlyPayrollTotals == old(monthlyPayrollTotals)
    {
      for i := 0 to |payrollDetail|
        invariant |payrollDetail| == |old(payrollDetail)|
        invariant forall j :: 0 <= j < i ==> RowCalculated(old(payrollDetail[j]), payrollDetail[j])
        invariant forall j :: i <= j < |payrollDetail| ==> payrollDetail[j] == old(payrollDetail[j])
        invariant summaryByType == old(summaryByType) && monthlyPayrollTotals == old(monthlyPayrollTotals)
      {
        CalculateRow(i);
      }
      SameEmployees(old(payrollDetail), payrollDetail);
      outcome := ValidateDuplicates();
      if outcome.DuplicateEmployee? {
        return;
      }
      CalculateSummary();
      CalculateTotals();
    }

    /** Calculate the nine amounts of row `i` from its take-home and its tax
        flag; no other row and nothing else on the row changes. */
    method CalculateRow(i: nat)
      requires i < |payrollDetail|
      modifies this
      ensures |payrollDetail| == |old(payrollDetail)|
      ensures payrollDetail == old(payrollDetail)[i := payrollDetail[i]]
      ensures RowCalculated(old(payrollDetail[i]), payrollDetail[i])
      ensures summaryByType == old(summaryByType) && monthlyPayrollTotals == old(monthlyPayrollTotals)
    {
      var row := payrollDetail[i];
      var target := row.takeHome;
      var amounts: Amounts;
      if target <= 0.0 {
        amounts := Zero;
      } else if !row.applyTax {
        amounts := TaxExempt(target);
      } else {
        amounts := RwandaGrossForTakeHome(target, true, 1.0, 60);
      }
      payrollDetail := payrollDetail[i := row.(amounts := amounts)];
    }

    /** Refuse the payroll when a non-empty employee is listed on two rows,
        naming the employee of the first row that repeats an earlier one;
        rows without an employee are not checked. */
    method ValidateDuplicates() returns (outcome: Check)
      ensures outcome.Passed? <==> !HasDuplicateEmployee(payrollDetail)
      ensures outcome.DuplicateEmployee? ==>
        && outcome.employee != ""
        && exists i, j :: 0 <= i < j < |payrollDetail| &&
             payrollDetail[i].employee == outcome.employee && payrollDetail[j].employee == outcome.employee
      ensures outcome.DuplicateEmployee? ==>
        exists j :: 0 <= j < |payrollDetail| && payrollDetail[j].employee == outcome.employee &&
          !HasDuplicateEmployee(payrollDetail[..j]) && HasDuplicateEmployee(payrollDetail[..j + 1])
    {
      var rows := payrollDetail;
      var seen: set<string> := {};
      for k := 0 to |rows|
        invariant seen == EmployeesBefore(rows, k)
        invariant !HasDuplicateEmployee(rows[..k])
      {
        var employee := rows[k].employee;
        if employee != "" {
          if employee in seen {
            ghost var i :| 0 <= i < k && rows[i].employee != "" && rows[i].employee == employee;
            assert rows[..k + 1][i] == rows[i] && rows[..k + 1][k] == rows[k];
            return DuplicateEmployee(employee);
          }
        }
        NoNewDuplicate(rows, k);
        if employee != "" {
          seen := seen + {employee};
        }
      }
      assert rows[..|rows|] == rows;
      return Passed;
    }

    /** Rebuild the summary table: one record per employee type (rows of other
        types are skipped), settled, followed by their Total. */
    method CalculateSummary()
      modifies this
      ensures summaryByType == SummaryOf(payrollDetail)
      ensures payrollDetail == old(payrollDetail) && monthlyPayrollTotals == old(monthlyPayrollTotals)
    {
      var rows := payrollDetail;
      var table := Summarize(rows);
      summaryByType := table;
    }

    /** Rebuild the period totals table: one record folded over all rows. */
    method CalculateTotals()
      modifies this
      ensures monthlyPayrollTotals == [TotalsOf(payrollDetail)]
      ensures payrollDetail == old(payrollDetail) && summaryByType == old(summaryByType)
    {
      var totals := SumTotals(payrollDetail);
      monthlyPayrollTotals := [totals];
    }
  }

  /** One running record per employee type: each row is counted into the
      record of its type, and rows of any other type are skipped. */
  method CountByType(rows: seq<Row>) returns (summary: map<string, SummaryRecord>)
    ensures forall t :: t in summary <==> t in Types
    ensures forall t :: t in summary ==> summary[t] == Accumulate(rows, t)
  {
    summary := map t | t in Types :: Blank(t);
    for k := 0 to |rows|
      invariant forall t :: t in summary <==> t in Types
      invariant forall t :: t in summary ==> summary[t] == Accumulate(rows[..k], t)
    {
      var row := rows[k];
      var t := row.employeeType;
      assert rows[..k + 1][..k] == rows[..k];
      if t in summary {
        summary := summary[t := AddRow(summary[t], row)];
      }
    }
    assert rows[..|rows|] == rows;
  }

  /** The summary table of `rows`: the record of each employee type settled
      and appended in the order of `Types`, while a "Total" record adds up
      their numeric fields, then the settled Total. */
  method Summarize(rows: seq<Row>) returns (table: seq<SummaryRecord>)
    ensures table == SummaryOf(rows)
  {
    var summary := CountByType(rows);
    table := [];
    var total := Blank("Total");
    for j := 0 to |Types|
      invariant table == Categories(rows)[..j]
      invariant total == SumRecords(table)
    {
      var data := Settle(summary[Types[j]]);
      assert Categories(rows)[..j + 1] == table + [data];
      table := table + [data];
      total := AddNumeric(total, data);
      assert table[..|table| - 1] == Categories(rows)[..j];
    }
    assert table == Categories(rows) == [table[0], table[1], table[2]];
    SumOfThreeRecords(table[0], table[1], table[2]);
    total := Settle(total);
    table := table + [total];
  }

  /** The totals record of `rows`: seven running sums over the rows, then
      net minus advance and the sum of all taxes and contributions. */
  method SumTotals(rows: seq<Row>) returns (totals: TotalsRecord)
    ensures totals == TotalsOf(rows)
  {
    var totalCost, advancePay, netSalary := 0.0, 0.0, 0.0;
    var totalPaye, totalRssb, totalMaternity, totalCbhi := 0.0, 0.0, 0.0, 0.0;
    for k := 0 to |rows|
      invariant totalCost == SumOf(rows[..k], GrossOf)
      invariant advancePay == SumOf(rows[..k], AdvanceOf)
      invariant netSalary == SumOf(rows[..k], NetOf)
      invariant totalPaye == SumOf(rows[..k], PayeOf)
      invariant totalRssb == SumOf(rows[..k], RssbOf)
      invariant totalMaternity == SumOf(rows[..k], MaternityOf)
      invariant totalCbhi == SumOf(rows[..k], CbhiOf)
    {
      var row := rows[k];
      assert rows[..k + 1] == rows[..k] + [row];
      SumOfSnoc(rows[..k], row, GrossOf);
      SumOfSnoc(rows[..k], row, AdvanceOf);
      SumOfSnoc(rows[..k], row, NetOf);
      SumOfSnoc(rows[..k], row, PayeOf);
      SumOfSnoc(rows[..k], row, RssbOf);
      SumOfSnoc(rows[..k], row, MaternityOf);
      SumOfSnoc(rows[..k], row, CbhiOf);
      totalCost := totalCost + row.amounts.grossPay;
      advancePay := advancePay + row.takeHome;
      netSalary := netSalary + row.amounts.netSalary;
      totalPaye := totalPaye + row.amounts.paye;
      totalRssb := totalRssb + (row.amounts.rssbEmployee + row.amounts.rssbEmployer);
      totalMaternity := totalMaternity + (row.amounts.maternityEmployee + row.amounts.maternityEmployer);
      totalCbhi := totalCbhi + row.amounts.cbhi;
    }
    assert rows[..|rows|] == rows;
    var netMinusAdvance := netSalary - advancePay;
    var totalTaxes := totalPaye + totalRssb + totalMaternity + totalCbhi;
    totals := TotalsRecord(totalCost, advancePay, netSalary, netMinusAdvance,
                           totalPaye, totalRssb, totalMaternity, totalCbhi, totalTaxes);
  }

  /** Calculating rows keeps every employee name, so the duplicate check sees
      the same rows before and after. */
  lemma SameEmployees(before: seq<Row>, after: seq<Row>)
    requires |before| == |after|
    requires forall i :: 0 <= i < |after| ==> RowCalculated(before[i], after[i])
    ensures HasDuplicateEmployee(before) <==> HasDuplicateEmployee(after)
  {
    assert forall i :: 0 <= i < |after| ==> after[i].employee == before[i].employee;
  }

  /** Adding row `k`, whose employee was not seen before, makes no duplicate. */
  lemma NoNewDuplicate(rows: seq<Row>, k: nat)
    requires k < |rows| && !HasDuplicateEmployee(rows[..k])
    requires rows[k].employee != "" ==> rows[k].employee !in EmployeesBefore(rows, k)
    ensures !HasDuplicateEmployee(rows[..k + 1])
  {
    var next := rows[..k + 1];
    forall i, j | 0 <= i < j < |next| && next[i].employee != ""
      ensures next[i].employee != next[j].employee
    {
      if j < k {
        assert rows[..k][i] == rows[i] && rows[..k][j] == rows[j];
      }
    }
  }
}
