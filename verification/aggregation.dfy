/** What the monthly payroll derives from its rows: the summary by employee
    type and the period totals, and how the two relate. */
module Aggregation {
  import opened Deductions
  import opened Rows

  /** The employee types the summary reports, in its order. */
  const Types: seq<string> := ["Academic", "Administrative", "Support"]

  /** One line of the summary table. */
  datatype SummaryRecord = SummaryRecord(
    employeeType: string,
    employeeCount: int,
    advancePay: real,
    netSalary: real,
    netMinusAdvance: real,
    costToCompany: real)

  function Blank(employeeType: string): SummaryRecord {
    SummaryRecord(employeeType, 0, 0.0, 0.0, 0.0, 0.0)
  }

  /** What a row costs the employer: its gross plus the employer's RSSB and
      maternity contributions. */
  function CostToCompany(r: Row): real {
    r.amounts.grossPay + r.amounts.rssbEmployer + r.amounts.maternityEmployer
  }

  /** A record with one more row of its type counted in. */
  function AddRow(rec: SummaryRecord, r: Row): (next: SummaryRecord)
    ensures next.employeeType == rec.employeeType && next.employeeCount == rec.employeeCount + 1
    ensures next.netMinusAdvance == rec.netMinusAdvance
    ensures next.costToCompany - rec.costToCompany
            == r.amounts.grossPay + r.amounts.rssbEmployer + r.amounts.maternityEmployer
  {
    rec.(employeeCount := rec.employeeCount + 1,
         advancePay := rec.advancePay + r.takeHome,
         netSalary := rec.netSalary + r.amounts.netSalary,
         costToCompany := rec.costToCompany + CostToCompany(r))
  }

  /** The record of type `t` after counting in `rows` in order. */
  function Accumulate(rows: seq<Row>, t: string): (rec: SummaryRecord)
    ensures rec.employeeType == t && rec.netMinusAdvance == 0.0
    decreases |rows|
  {
    if rows == [] then Blank(t)
    else
      var last := rows[|rows| - 1];
      var rec := Accumulate(rows[..|rows| - 1], t);
      if last.employeeType == t then AddRow(rec, last) else rec
  }

  /** What is still owed once the advances are deducted from net salary. */
  function NetMinusAdvance(netSalary: real, advancePay: real): real {
    netSalary - advancePay
  }

  /** A record with its net-minus-advance filled in. */
  function Settle(rec: SummaryRecord): (settled: SummaryRecord)
    ensures settled.netMinusAdvance == NetMinusAdvance(settled.netSalary, settled.advancePay)
    ensures settled.(netMinusAdvance := rec.netMinusAdvance) == rec
  {
    rec.(netMinusAdvance := NetMinusAdvance(rec.netSalary, rec.advancePay))
  }

  /** The three settled per-type records, in the order of `Types`. */
  function Categories(rows: seq<Row>): seq<SummaryRecord> {
    [Settle(Accumulate(rows, Types[0])), Settle(Accumulate(rows, Types[1])), Settle(Accumulate(rows, Types[2]))]
  }

  /** `data`'s numeric fields added into `total`; the type stays. */
  function AddNumeric(total: SummaryRecord, data: SummaryRecord): (sum: SummaryRecord)
    ensures sum.employeeType == total.employeeType
    ensures sum.employeeCount - total.employeeCount == data.employeeCount
  {
    total.(employeeCount := total.employeeCount + data.employeeCount,
           advancePay := total.advancePay + data.advancePay,
           netSalary := total.netSalary + data.netSalary,
           netMinusAdvance := total.netMinusAdvance + data.netMinusAdvance,
           costToCompany := total.costToCompany + data.costToCompany)
  }

  /** The "Total" record before settling: the records added field by field. */
  function SumRecords(recs: seq<SummaryRecord>): (total: SummaryRecord)
    ensures total.employeeType == "Total"
    decreases |recs|
  {
    if recs == [] then Blank("Total")
    else AddNumeric(SumRecords(recs[..|recs| - 1]), recs[|recs| - 1])
  }

  /** The summary table: the three per-type records and a "Total" record
      that adds them up field by field. */
  function SummaryOf(rows: seq<Row>): (table: seq<SummaryRecord>)
    ensures |table| == 4 && table[..3] == Categories(rows) && table[3].employeeType == "Total"
  {
    var cats := Categories(rows);
    cats + [Settle(SumRecords(cats))]
  }

  // ----- Period totals -----

  /** The single record of the period totals table. */
  datatype TotalsRecord = TotalsRecord(
    totalCost: real,
    advancePay: real,
    netSalary: real,
    netMinusAdvance: real,
    totalPaye: real,
    totalRssb: real,
    totalMaternity: real,
    totalCbhi: real,
    totalTaxes: real)

  /** `f` summed over `rows`. */
  function SumOf(rows: seq<Row>, f: Row -> real): real
    decreases |rows|
  {
    if rows == [] then 0.0 else SumOf(rows[..|rows| - 1], f) + f(rows[|rows| - 1])
  }

  function GrossOf(r: Row): real { r.amounts.grossPay }
  function AdvanceOf(r: Row): real { r.takeHome }
  function NetOf(r: Row): real { r.amounts.netSalary }
  function PayeOf(r: Row): real { r.amounts.paye }
  function RssbOf(r: Row): real { r.amounts.rssbEmployee + r.amounts.rssbEmployer }
  function MaternityOf(r: Row): real { r.amounts.maternityEmployee + r.amounts.maternityEmployer }
  function CbhiOf(r: Row): real { r.amounts.cbhi }
  function EmployerShareOf(r: Row): real { r.amounts.rssbEmployer + r.amounts.maternityEmployer }

  /** The period totals over all rows, whatever their type. */
  function TotalsOf(rows: seq<Row>): (t: TotalsRecord)
    ensures t.netMinusAdvance == t.netSalary - t.advancePay
    ensures t.totalTaxes == t.totalPaye + t.totalRssb + t.totalMaternity + t.totalCbhi
  {
    var paye := SumOf(rows, PayeOf);
    var rssb := SumOf(rows, RssbOf);
    var maternity := SumOf(rows, MaternityOf);
    var cbhi := SumOf(rows, CbhiOf);
    var advance := SumOf(rows, AdvanceOf);
    var net := SumOf(rows, NetOf);
    TotalsRecord(SumOf(rows, GrossOf), advance, net, net - advance, paye, rssb, maternity, cbhi,
                 paye + rssb + maternity + cbhi)
  }


  // ----- Filters used to state what the aggregates mean -----

  /** The rows of type `t`, in order. */
  function OfType(rows: seq<Row>, t: string): (r: seq<Row>)
    ensures |r| <= |rows|
    decreases |rows|
  {
    if rows == [] then []
    else
      var last := rows[|rows| - 1];
      OfType(rows[..|rows| - 1], t) + (if last.employeeType == t then [last] else [])
  }

  /** The rows whose type is one of the summary types, in order. */
  function KnownRows(rows: seq<Row>): (r: seq<Row>)
    ensures |r| <= |rows|
    decreases |rows|
  {
    if rows == [] then []
    else
      var last := rows[|rows| - 1];
      KnownRows(rows[..|rows| - 1]) + (if last.employeeType in Types then [last] else [])
  }

  // ----- Sums -----

  lemma SumOfSnoc(rows: seq<Row>, r: Row, f: Row -> real)
    ensures SumOf(rows + [r], f) == SumOf(rows, f) + f(r)
  {
    assert (rows + [r])[..|rows|] == rows;
  }

  lemma {:induction false} SumOfConcat(a: seq<Row>, b: seq<Row>, f: Row -> real)
    ensures SumOf(a + b, f) == SumOf(a, f) + SumOf(b, f)
    decreases |b|
  {
    if b != [] {
      var init := b[..|b| - 1];
      assert a + b == (a + init) + [b[|b| - 1]];
      SumOfSnoc(a + init, b[|b| - 1], f);
      SumOfConcat(a, init, f);
    } else {
      assert a + b == a;
    }
  }

  /** A sum does not depend on the order of the rows. */
  lemma {:induction false} SumOfPermutation(a: seq<Row>, b: seq<Row>, f: Row -> real)
    requires multiset(a) == multiset(b)
    ensures SumOf(a, f) == SumOf(b, f)
    decreases |a|
  {
    if a == [] {
      assert |b| == |multiset(b)| == 0;
    } else {
      var x := a[|a| - 1];
      assert x in multiset(b);
      var i :| 0 <= i < |b| && b[i] == x;
      var rest := b[..i] + b[i + 1..];
      assert b == b[..i] + [x] + b[i + 1..];
      assert a == a[..|a| - 1] + [x];
      assert multiset(rest) == multiset(b) - multiset{x};
      assert multiset(a[..|a| - 1]) == multiset(a) - multiset{x};
      SumOfPermutation(a[..|a| - 1], rest, f);
      SumOfConcat(b[..i] + [x], b[i + 1..], f);
      SumOfSnoc(b[..i], x, f);
      SumOfConcat(b[..i], b[i + 1..], f);
    }
  }

  // ----- The summary table -----

  /** The summary has exactly the rows Academic, Administrative, Support and
      Total, in that order, each with net-minus-advance = net - advance. */
  lemma SummaryLayout(rows: seq<Row>)
    ensures var s := SummaryOf(rows);
      && |s| == 4
      && s[0].employeeType == "Academic" && s[1].employeeType == "Administrative"
      && s[2].employeeType == "Support" && s[3].employeeType == "Total"
      && forall k :: 0 <= k < 4 ==> s[k].netMinusAdvance == s[k].netSalary - s[k].advancePay
  {
  }

  lemma SumOfThreeRecords(x: SummaryRecord, y: SummaryRecord, z: SummaryRecord)
    ensures SumRecords([x, y, z]) == AddNumeric(AddNumeric(AddNumeric(Blank("Total"), x), y), z)
  {
    assert [x][..0] == [];
    assert SumRecords([x]) == AddNumeric(Blank("Total"), x);
    assert [x, y][..1] == [x];
    assert SumRecords([x, y]) == AddNumeric(SumRecords([x]), y);
    assert [x, y, z][..2] == [x, y];
  }

  /** The Total record is the field-wise sum of the three type records, with
      net-minus-advance recomputed from the summed fields. */
  lemma TotalIsFieldwiseSum(rows: seq<Row>)
    ensures var s := SummaryOf(rows);
      && s[3].employeeCount == s[0].employeeCount + s[1].employeeCount + s[2].employeeCount
      && s[3].advancePay == s[0].advancePay + s[1].advancePay + s[2].advancePay
      && s[3].netSalary == s[0].netSalary + s[1].netSalary + s[2].netSalary
      && s[3].costToCompany == s[0].costToCompany + s[1].costToCompany + s[2].costToCompany
      && s[3].netMinusAdvance == s[3].netSalary - s[3].advancePay
  {
    var cats := Categories(rows);
    SumOfThreeRecords(cats[0], cats[1], cats[2]);
    assert cats == [cats[0], cats[1], cats[2]];
  }

  /** A type record counts and sums exactly the rows of its type. */
  lemma {:induction false} AccumulateIsFilteredSum(rows: seq<Row>, t: string)
    ensures var mine := OfType(rows, t);
      Accumulate(rows, t) == SummaryRecord(t, |mine|, SumOf(mine, AdvanceOf), SumOf(mine, NetOf), 0.0,
                                           SumOf(mine, CostToCompany))
    decreases |rows|
  {
    if rows != [] {
      var init, last := rows[..|rows| - 1], rows[|rows| - 1];
      AccumulateIsFilteredSum(init, t);
      if last.employeeType == t {
        SumOfSnoc(OfType(init, t), last, AdvanceOf);
        SumOfSnoc(OfType(init, t), last, NetOf);
        SumOfSnoc(OfType(init, t), last, CostToCompany);
      } else {
        assert OfType(rows, t) == OfType(init, t);
      }
    }
  }

  /** Rows of any other type leave the summary as it is. */
  lemma {:induction false} OtherTypesIgnored(rows: seq<Row>, t: string)
    requires t in Types
    ensures Accumulate(rows, t) == Accumulate(KnownRows(rows), t)
    decreases |rows|
  {
    if rows != [] {
      var init, last := rows[..|rows| - 1], rows[|rows| - 1];
      OtherTypesIgnored(init, t);
      if last.employeeType in Types {
        var k := KnownRows(rows);
        assert k == KnownRows(init) + [last];
        assert k[..|k| - 1] == KnownRows(init);
      } else {
        assert KnownRows(rows) == KnownRows(init);
      }
    }
  }

  /** The summary of all rows is the summary of the rows of known type. */
  lemma SummaryIgnoresOtherTypes(rows: seq<Row>)
    ensures SummaryOf(rows) == SummaryOf(KnownRows(rows))
  {
    OtherTypesIgnored(rows, Types[0]);
    OtherTypesIgnored(rows, Types[1]);
    OtherTypesIgnored(rows, Types[2]);
  }

  /** Together the three type records count and sum exactly the rows of known
      type. */
  lemma {:induction false} CategoriesCoverKnownRows(rows: seq<Row>)
    ensures var a, b, c := Accumulate(rows, Types[0]), Accumulate(rows, Types[1]), Accumulate(rows, Types[2]);
      var k := KnownRows(rows);
      && a.employeeCount + b.employeeCount + c.employeeCount == |k|
      && a.advancePay + b.advancePay + c.advancePay == SumOf(k, AdvanceOf)
      && a.netSalary + b.netSalary + c.netSalary == SumOf(k, NetOf)
      && a.costToCompany + b.costToCompany + c.costToCompany == SumOf(k, GrossOf) + SumOf(k, EmployerShareOf)
    decreases |rows|
  {
    if rows != [] {
      var init, last := rows[..|rows| - 1], rows[|rows| - 1];
      CategoriesCoverKnownRows(init);
      if last.employeeType in Types {
        assert KnownRows(rows) == KnownRows(init) + [last];
        SumOfSnoc(KnownRows(init), last, AdvanceOf);
        SumOfSnoc(KnownRows(init), last, NetOf);
        SumOfSnoc(KnownRows(init), last, GrossOf);
        SumOfSnoc(KnownRows(init), last, EmployerShareOf);
        if last.employeeType == Types[0] {
          assert Accumulate(rows, Types[0]) == AddRow(Accumulate(init, Types[0]), last);
        } else if last.employeeType == Types[1] {
          assert Accumulate(rows, Types[1]) == AddRow(Accumulate(init, Types[1]), last);
        } else {
          assert Accumulate(rows, Types[2]) == AddRow(Accumulate(init, Types[2]), last);
        }
      } else {
        assert KnownRows(rows) == KnownRows(init);
      }
    }
  }

  /** The summary's Total agrees with the period totals taken over the rows
      of known type: same count, advance, net and net-minus-advance, and a
      cost to company that adds the employer contributions to the gross. */
  lemma SummaryTotalMatchesTotals(rows: seq<Row>)
    ensures var total, k := SummaryOf(rows)[3], KnownRows(rows);
      var period := TotalsOf(k);
      && total.employeeCount == |k| <= |rows|
      && total.advancePay == period.advancePay
      && total.netSalary == period.netSalary
      && total.netMinusAdvance == period.netMinusAdvance
      && total.costToCompany == period.totalCost + SumOf(k, EmployerShareOf)
  {
    TotalIsFieldwiseSum(rows);
    CategoriesCoverKnownRows(rows);
  }

  /** Every row has a known type exactly when no row is left out. */
  lemma {:induction false} KnownRowsAll(rows: seq<Row>)
    ensures (forall i :: 0 <= i < |rows| ==> rows[i].employeeType in Types) <==> KnownRows(rows) == rows
    decreases |rows|
  {
    if rows != [] {
      var init, last := rows[..|rows| - 1], rows[|rows| - 1];
      KnownRowsAll(init);
      if last.employeeType in Types {
        assert rows == init + [last];
        if KnownRows(rows) == rows {
          assert KnownRows(init) == init;
        }
      } else {
        assert |KnownRows(rows)| < |rows|;
      }
    }
  }

  // ----- Order of rows -----

  lemma {:induction false} OfTypeCount(rows: seq<Row>, t: string, x: Row)
    ensures multiset(OfType(rows, t))[x] == if x.employeeType == t then multiset(rows)[x] else 0
    decreases |rows|
  {
    if rows != [] {
      var init, last := rows[..|rows| - 1], rows[|rows| - 1];
      OfTypeCount(init, t, x);
      assert rows == init + [last];
    }
  }

  /** Reordering the rows reorders the rows of each type. */
  lemma OfTypePermutation(a: seq<Row>, b: seq<Row>, t: string)
    requires multiset(a) == multiset(b)
    ensures multiset(OfType(a, t)) == multiset(OfType(b, t))
  {
    forall x: Row
      ensures multiset(OfType(a, t))[x] == multiset(OfType(b, t))[x]
    {
      OfTypeCount(a, t, x);
      OfTypeCount(b, t, x);
    }
  }

  /** The period totals do not depend on the order of the rows. */
  lemma TotalsOrderIndependent(a: seq<Row>, b: seq<Row>)
    requires multiset(a) == multiset(b)
    ensures TotalsOf(a) == TotalsOf(b)
  {
    SumOfPermutation(a, b, GrossOf);
    SumOfPermutation(a, b, AdvanceOf);
    SumOfPermutation(a, b, NetOf);
    SumOfPermutation(a, b, PayeOf);
    SumOfPermutation(a, b, RssbOf);
    SumOfPermutation(a, b, MaternityOf);
    SumOfPermutation(a, b, CbhiOf);
  }

  lemma AccumulateOrderIndependent(a: seq<Row>, b: seq<Row>, t: string)
    requires multiset(a) == multiset(b)
    ensures Accumulate(a, t) == Accumulate(b, t)
  {
    AccumulateIsFilteredSum(a, t);
    AccumulateIsFilteredSum(b, t);
    OfTypePermutation(a, b, t);
    var ma, mb := OfType(a, t), OfType(b, t);
    assert |ma| == |multiset(ma)| == |multiset(mb)| == |mb|;
    SumOfPermutation(ma, mb, AdvanceOf);
    SumOfPermutation(ma, mb, NetOf);
    SumOfPermutation(ma, mb, CostToCompany);
  }

  /** The summary does not depend on the order of the rows. */
  lemma SummaryOrderIndependent(a: seq<Row>, b: seq<Row>)
    requires multiset(a) == multiset(b)
    ensures SummaryOf(a) == SummaryOf(b)
  {
    AccumulateOrderIndependent(a, b, Types[0]);
    AccumulateOrderIndependent(a, b, Types[1]);
    AccumulateOrderIndependent(a, b, Types[2]);
  }
}
