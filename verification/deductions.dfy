/** The deduction engine: from a gross amount to PAYE, the RSSB pension and
    maternity contributions, net salary, the CBHI health levy and take-home. */
module Deductions {
  import opened Tax

  /** Every amount the payroll shows for one gross (`_calc_all`'s record). */
  datatype Amounts = Amounts(
    paye: real,
    rssbEmployer: real,
    rssbEmployee: real,
    maternityEmployer: real,
    maternityEmployee: real,
    netSalary: real,
    cbhi: real,
    takeHome2: real,
    grossPay: real)

  const Zero := Amounts(0.0, 0.0, 0.0, 0.0, 0.0, 0.0, 0.0, 0.0, 0.0)

  /** The four RSSB and maternity contributions together. */
  function Contributions(a: Amounts): real {
    a.rssbEmployer + a.rssbEmployee + a.maternityEmployer + a.maternityEmployee
  }

  /** The record's own invariant: net salary is gross less PAYE and the four
      contributions, CBHI is 0.5% of net salary, and take-home is net less CBHI. */
  predicate Balanced(a: Amounts) {
    && a.netSalary == a.grossPay - (a.paye + Contributions(a))
    && a.cbhi == 0.005 * a.netSalary
    && a.takeHome2 == a.netSalary - a.cbhi
  }

  /** All amounts for gross `g`; PAYE only when `applyTax`. */
  function CalcAll(g: real, applyTax: bool): (a: Amounts)
    ensures a.grossPay == g
  {
    var paye := if applyTax then Paye(g) else 0.0;
    var rssbEmpr := 0.08 * g;
    var rssbEmpl := 0.06 * g;
    var matEmpr := 0.006 * g;
    var matEmpl := 0.003 * g;
    var net := g - (paye + rssbEmpr + rssbEmpl + matEmpr + matEmpl);
    var cbhi := 0.005 * net;
    Amounts(paye, rssbEmpr, rssbEmpl, matEmpr, matEmpl, net, cbhi, net - cbhi, g)
  }

  /** Take-home ("Take Home 2") for gross `g`. */
  function TakeHome(g: real, applyTax: bool): real {
    CalcAll(g, applyTax).takeHome2
  }

  /** The record for gross `g` keeps its invariant, carries `g` as gross,
      charges PAYE only when `applyTax`, and takes the contributions at the
      statutory rates: RSSB 8% employer and 6% employee, maternity 0.6%
      employer and 0.3% employee. */
  lemma CalcAllShares(g: real, applyTax: bool)
    ensures var a := CalcAll(g, applyTax);
      && a.grossPay == g && Balanced(a)
      && a.paye == (if applyTax then Paye(g) else 0.0)
      && a.rssbEmployer == 0.08 * g && a.rssbEmployee == 0.06 * g
      && a.maternityEmployer == 0.006 * g && a.maternityEmployee == 0.003 * g
  {
  }

  /** Every unit of gross is accounted for: it goes to PAYE, a contribution,
      CBHI or take-home; and take-home is 99.5% of the 85.1% that the
      contributions leave, less 99.5% of PAYE. */
  lemma CalcAllAccounts(g: real, applyTax: bool)
    ensures var a := CalcAll(g, applyTax);
      && a.paye + Contributions(a) + a.cbhi + a.takeHome2 == g
      && a.takeHome2 == 0.846745 * g - 0.995 * a.paye
  {
  }

  /** With nothing paid there is nothing deducted. */
  lemma CalcAllZero(applyTax: bool)
    ensures CalcAll(0.0, applyTax) == Zero
  {
  }

  /** Take-home is strictly increasing in gross, with slope between
      0.995 * (1 - 0.149 - 0.30) = 0.548245 and 0.995 * (1 - 0.149) = 0.846745:
      the total marginal deduction never reaches the whole extra unit. This is
      what lets a search over gross find any target. */
  lemma TakeHomeSlope(g1: real, g2: real, applyTax: bool)
    requires g1 <= g2
    ensures 0.548245 * (g2 - g1) <= TakeHome(g2, applyTax) - TakeHome(g1, applyTax)
    ensures TakeHome(g2, applyTax) - TakeHome(g1, applyTax) <= 0.846745 * (g2 - g1)
  {
    PayeMarginal(g1, g2);
    CalcAllAccounts(g1, applyTax);
    CalcAllAccounts(g2, applyTax);
  }

  /** Strict monotonicity, the form the solver's loops use. */
  lemma TakeHomeIncreasing(g1: real, g2: real, applyTax: bool)
    requires g1 < g2
    ensures TakeHome(g1, applyTax) < TakeHome(g2, applyTax)
  {
    TakeHomeSlope(g1, g2, applyTax);
  }

  /** From no gross, take-home is at least 54.8245% of the gross. */
  lemma TakeHomeLowerBound(g: real, applyTax: bool)
    requires 0.0 <= g
    ensures 0.548245 * g <= TakeHome(g, applyTax)
  {
    TakeHomeSlope(0.0, g, applyTax);
    CalcAllZero(applyTax);
  }
}
