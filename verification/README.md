# Monthly payroll calculator (Rwanda), modelled in Dafny

This project models the calculator behind the "Monthly Payroll" document of
the school payroll app. An entry clerk types the take-home amount each
employee should receive. The payroll then works backwards to the gross pay
that yields that take-home after Rwandan deductions:

- PAYE income tax, in monthly brackets;
- the RSSB pension contribution (8% employer, 6% employee);
- the maternity contribution (0.6% employer, 0.3% employee);
- the CBHI health levy (0.5% of net salary).

It stores the nine amounts on each row, refuses a payroll that lists an
employee twice, and rebuilds two derived tables: a summary by employee type
(Academic, Administrative, Support, Total) and one record of period totals.

Layout, one module per file:

- `money.dfy` (`Money`): the ceiling and round-half-to-even conversions from
  exact amounts to whole currency units.
- `tax.dfy` (`Tax`): PAYE by brackets, and an independent definition by
  marginal bands.
- `deductions.dfy` (`Deductions`): the deduction engine (`CalcAll`), its
  record of nine amounts, and the properties of take-home as a function of
  gross.
- `solver.dfy` (`GrossSolver`): the gross-for-take-home search. Its three
  loops are separate methods: doubling, bisection and the whole-unit step-up.
  Each method is proved to compute a recursive function that performs the
  same phase, written over any take-home function of the shape `Steady`;
  `GrossForTakeHome` chains the three, and the solver method is proved to
  return exactly its record.
- `rows.dfy` (`Rows`): payroll rows, what calculating a row means, and the
  duplicate-employee predicate.
- `aggregation.dfy` (`Aggregation`): reference definitions of the summary
  table and the totals record as folds, and lemmas about them.
- `monthly_payroll.dfy` (`Payroll`): the document as a class whose methods
  update its three tables in place, plus the loops they run.

Money is exact (`real`). `math.ceil` is `Money.Ceil`. Python's `round(x, 0)`
is `Money.RoundHalfEven`: the nearest whole number, with ties going to the
even neighbour.

## Model

| member | source | states |
|---|---|---|
| Money.Ceil | payroll_sheet/school_payroll/doctype/monthly_payroll/monthly_payroll.py:87 | the result is the least whole number not below its argument (x <= c < x + 1) |
| Money.RoundHalfEven | payroll_sheet/school_payroll/doctype/monthly_payroll/monthly_payroll.py:93-97 | the result is within half a unit of its argument, and is even when the argument lies exactly halfway |
| Money.RoundHalfEvenNearest | payroll_sheet/school_payroll/doctype/monthly_payroll/monthly_payroll.py:93-97 | a whole number strictly within half a unit of x is what rounding returns, so whole amounts are left unchanged |
| Tax.Paye | payroll_sheet/school_payroll/doctype/monthly_payroll/monthly_payroll.py:10-18 | PAYE is never negative and never more than 30% of a positive gross; nothing is due on a gross of zero or less |
| Tax.PayeIsBandTax | payroll_sheet/school_payroll/doctype/monthly_payroll/monthly_payroll.py:10-18 | the bracket formula with bases 4000 and 24000 equals the tax by marginal bands 10% above 60000, 20% above 100000 and 30% above 200000, so the bases are exactly the tax of the lower bands |
| Tax.PayeMarginal | payroll_sheet/school_payroll/doctype/monthly_payroll/monthly_payroll.py:10-18 | PAYE is non-decreasing, and a rise in gross raises it by at most 30% of the rise, so it is continuous at 100000 and 200000 |
| Deductions.CalcAll | payroll_sheet/school_payroll/doctype/monthly_payroll/monthly_payroll.py:22-47 | the record carries the gross it was computed for; its shares and its balance are stated by `CalcAllShares` and `CalcAllAccounts` |
| Deductions.CalcAllShares | payroll_sheet/school_payroll/doctype/monthly_payroll/monthly_payroll.py:22-47 | the record carries the gross; PAYE is charged only when tax applies; RSSB is 8%/6% and maternity 0.6%/0.3% of gross; net salary is gross less PAYE and the four contributions; CBHI is 0.5% of net; take-home is net less CBHI |
| Deductions.CalcAllAccounts | payroll_sheet/school_payroll/doctype/monthly_payroll/monthly_payroll.py:22-47 | every unit of gross goes to PAYE, a contribution, CBHI or take-home, and take-home = 0.846745·gross − 0.995·PAYE |
| Deductions.CalcAllZero | payroll_sheet/school_payroll/doctype/monthly_payroll/monthly_payroll.py:58-60 | a gross of zero gives the all-zero record, with or without tax |
| Deductions.TakeHomeSlope | payroll_sheet/school_payroll/doctype/monthly_payroll/monthly_payroll.py:22-35 | for a fixed tax flag, take-home rises by at least 0.548245 and at most 0.846745 per unit of gross, because the marginal deductions (at most 0.30 + 0.149, then CBHI) stay below one unit |
| Deductions.TakeHomeIncreasing | payroll_sheet/school_payroll/doctype/monthly_payroll/monthly_payroll.py:22-35 | take-home is strictly increasing in gross |
| Deductions.TakeHomeLowerBound | payroll_sheet/school_payroll/doctype/monthly_payroll/monthly_payroll.py:67-72 | for a gross of zero or more, take-home is at least 54.8245% of the gross |
| GrossSolver.Rounded | payroll_sheet/school_payroll/doctype/monthly_payroll/monthly_payroll.py:93-97 | the gross is kept as it is, and each of the other eight amounts becomes a whole number within half a unit of its unrounded value |
| GrossSolver.TakeHomeSteady | payroll_sheet/school_payroll/doctype/monthly_payroll/monthly_payroll.py:22-47 | take-home, with tax or without, is zero for no gross and rises between 0.548245 and 0.846745 per unit of gross: the only shape of take-home the search relies on |
| GrossSolver.StartBound | payroll_sheet/school_payroll/doctype/monthly_payroll/monthly_payroll.py:68 | the first upper bound is max(T/0.55, 200000): at least both, and equal to one of them |
| GrossSolver.Doubled | payroll_sheet/school_payroll/doctype/monthly_payroll/monthly_payroll.py:67-72 | the doubling phase never lowers a bound that is not negative, and keeps a bound whose take-home already reaches T |
| GrossSolver.DoublingStopsEarly | payroll_sheet/school_payroll/doctype/monthly_payroll/monthly_payroll.py:67-72 | for a positive T the doubling phase ends with the start bound when its take-home reaches T, and with twice the start bound otherwise, and that bound reaches T; the 30-step cap never stops it |
| GrossSolver.RaiseUpperBound | payroll_sheet/school_payroll/doctype/monthly_payroll/monthly_payroll.py:67-72 | the loop returns exactly the bound of the doubling phase (`Doubled` from the start bound with 30 rounds), hence the exact value `DoublingStopsEarly` states |
| GrossSolver.Bisection | payroll_sheet/school_payroll/doctype/monthly_payroll/monthly_payroll.py:74-84 | the bisection phase only shrinks the bracket [lo, hi] |
| GrossSolver.BisectionBracket | payroll_sheet/school_payroll/doctype/monthly_payroll/monthly_payroll.py:74-84 | from a bracket whose lower end falls short of T and whose upper end reaches it, lo always falls short; after the early exit take-home(hi) is within the tolerance of T; otherwise take-home(hi) >= T and the bracket was halved once per round |
| GrossSolver.Bisect | payroll_sheet/school_payroll/doctype/monthly_payroll/monthly_payroll.py:74-84 | the loop ends with exactly the bracket, and the early-exit flag, of the bisection phase on [0, top] with max_iter rounds (none when max_iter <= 0); so after the early exit hi is the first midpoint within the tolerance of T |
| GrossSolver.SixtyHalvings | payroll_sheet/school_payroll/doctype/monthly_payroll/monthly_payroll.py:74-84 | sixty or more halvings shrink any bracket narrower than 10^18 to less than one unit |
| GrossSolver.StepBelowTarget | payroll_sheet/school_payroll/doctype/monthly_payroll/monthly_payroll.py:89-91 | a whole gross whose take-home falls short of T lies below T/0.548245, so the step-up loop terminates |
| GrossSolver.StepFrom | payroll_sheet/school_payroll/doctype/monthly_payroll/monthly_payroll.py:86-91 | the whole-unit phase never steps below the gross it starts from |
| GrossSolver.StepFromReaches | payroll_sheet/school_payroll/doctype/monthly_payroll/monthly_payroll.py:86-91 | the whole-unit phase ends at the first whole gross from its start whose take-home reaches T: it reaches T, and the unit below falls short unless it is the start |
| GrossSolver.StepUp | payroll_sheet/school_payroll/doctype/monthly_payroll/monthly_payroll.py:86-91 | the loop returns the gross of the whole-unit phase from ceil(hi), and the record of that gross |
| GrossSolver.SearchGross | payroll_sheet/school_payroll/doctype/monthly_payroll/monthly_payroll.py:67-91 | the whole gross the three phases reach has a take-home that reaches T |
| GrossSolver.GrossForTakeHome | payroll_sheet/school_payroll/doctype/monthly_payroll/monthly_payroll.py:58-98 | T <= 0 gives the all-zero record, gross 0 included, without any search |
| GrossSolver.RwandaGrossForTakeHome | payroll_sheet/school_payroll/doctype/monthly_payroll/monthly_payroll.py:51-98 | the method returns exactly the record of the three phases chained (`GrossForTakeHome`): the all-zero record for T <= 0, and otherwise the rounded record of the whole gross the phases reach; so it is deterministic |
| GrossSolver.GrossForTakeHomeSolves | payroll_sheet/school_payroll/doctype/monthly_payroll/monthly_payroll.py:86-98 | for T > 0 the gross is whole, its unrounded take-home is >= T, and the other eight amounts are those of that gross rounded to 0 decimals |
| GrossSolver.GrossForTakeHomeNearMinimal | payroll_sheet/school_payroll/doctype/monthly_payroll/monthly_payroll.py:53-91 | with tolerance >= 1, at least 60 rounds and 0 < T <= 10^17, one unit less of gross would fall short of T + tolerance |
| GrossSolver.SearchEndsNearTarget | payroll_sheet/school_payroll/doctype/monthly_payroll/monthly_payroll.py:67-91 | for any take-home function of the steady shape, the unit below the whole gross the three phases reach falls short of T + tolerance |
| GrossSolver.CloseToTarget | payroll_sheet/school_payroll/doctype/monthly_payroll/monthly_payroll.py:74-91 | whichever way the bisection ended, the gross below the one the step-up returns has take-home below T + tolerance |
| GrossSolver.EarlyExitOvershoots | payroll_sheet/school_payroll/doctype/monthly_payroll/monthly_payroll.py:53-91 | for T = 80693.5 with tax, tolerance 1 and 60 rounds, the search returns gross 100000 (the first midpoint passes the tolerance test), although 99999 already reaches T: the early exit does not give the smallest gross the docstring promises |
| Rows.TaxExempt | payroll_sheet/school_payroll/doctype/monthly_payroll/monthly_payroll.py:150-164 | tax off pays the take-home as gross, net salary and take-home 2, and every deduction, tax and contribution is zero |
| Rows.RowCalculated | payroll_sheet/school_payroll/doctype/monthly_payroll/monthly_payroll.py:134-183 | calculating a row keeps its employee, type, take-home and tax flag; its amounts are all zeros, the exempt amounts or the solver record (tax on, tolerance 1, 60 rounds), by the three cases in order |
| Rows.RecalculationKeepsRow | payroll_sheet/school_payroll/doctype/monthly_payroll/monthly_payroll.py:134-183 | calculating an already calculated row changes nothing, so validating a payroll a second time leaves its rows as they are |
| Rows.CalculatedRowSolved | payroll_sheet/school_payroll/doctype/monthly_payroll/monthly_payroll.py:166-183 | a taxed row with a positive take-home gets a whole gross that reaches it, with that gross's amounts rounded, and for take-homes up to 10^17 one unit less would fall short of the take-home plus 1 |
| Rows.RoundKeepsWholeBound | payroll_sheet/school_payroll/doctype/monthly_payroll/monthly_payroll.py:93-97 | rounding never moves an amount below a whole number it already reaches |
| Rows.CalculatedRowCoversTarget | payroll_sheet/school_payroll/doctype/monthly_payroll/monthly_payroll.py:134-183 | after calculation, a row with a positive take-home has a gross of at least that take-home. Its stored take-home 2 is at most half a unit short of the target, and not short at all when the target is whole |
| Rows.HasDuplicateEmployee | payroll_sheet/school_payroll/doctype/monthly_payroll/monthly_payroll.py:186-192 | some non-empty employee is on two rows exactly when, scanning the rows in order, some row's non-empty employee is already among those seen |
| Rows.EmployeesBefore | payroll_sheet/school_payroll/doctype/monthly_payroll/monthly_payroll.py:187-192 | the set of employees seen holds every non-empty employee of the rows already scanned, and never the empty employee |
| Aggregation.AddRow | payroll_sheet/school_payroll/doctype/monthly_payroll/monthly_payroll.py:212-218 | counting a row in keeps the type and net-minus-advance, adds one to the count, and adds gross + employer RSSB + employer maternity to the cost to company |
| Aggregation.Settle | payroll_sheet/school_payroll/doctype/monthly_payroll/monthly_payroll.py:233 | a settled record has net-minus-advance = net − advance and differs from the record in no other field |
| Aggregation.AddNumeric | payroll_sheet/school_payroll/doctype/monthly_payroll/monthly_payroll.py:235-237 | adding a record into the Total keeps the Total's type and adds the record's count |
| Aggregation.SummaryOf | payroll_sheet/school_payroll/doctype/monthly_payroll/monthly_payroll.py:194-240 | the summary has four records: the three settled type records in order, then one of type Total |
| Aggregation.TotalsOf | payroll_sheet/school_payroll/doctype/monthly_payroll/monthly_payroll.py:241-278 | the totals record has net-minus-advance = net − advance, and total taxes = PAYE + RSSB + maternity + CBHI |
| Aggregation.Accumulate | payroll_sheet/school_payroll/doctype/monthly_payroll/monthly_payroll.py:209-218 | the running record of a type keeps that type and a zero net-minus-advance until it is settled |
| Aggregation.SumRecords | payroll_sheet/school_payroll/doctype/monthly_payroll/monthly_payroll.py:221-237 | the running Total keeps the type "Total" |
| Aggregation.OfType | payroll_sheet/school_payroll/doctype/monthly_payroll/monthly_payroll.py:210-212 | the rows of one type are never more than all rows |
| Aggregation.KnownRows | payroll_sheet/school_payroll/doctype/monthly_payroll/monthly_payroll.py:210-212 | the rows of a summary type are never more than all rows |
| Aggregation.SumOfConcat | payroll_sheet/school_payroll/doctype/monthly_payroll/monthly_payroll.py:254-261 | a running sum over two runs of rows is the sum of the two sums |
| Aggregation.SumOfPermutation | payroll_sheet/school_payroll/doctype/monthly_payroll/monthly_payroll.py:254-261 | a running sum over the rows does not depend on their order |
| Aggregation.SummaryLayout | payroll_sheet/school_payroll/doctype/monthly_payroll/monthly_payroll.py:194-240 | the summary has exactly four records, Academic, Administrative, Support and Total in that order, each with net-minus-advance = net − advance |
| Aggregation.SumOfThreeRecords | payroll_sheet/school_payroll/doctype/monthly_payroll/monthly_payroll.py:232-237 | adding three records into the blank Total, one after the other, is the field-wise sum |
| Aggregation.TotalIsFieldwiseSum | payroll_sheet/school_payroll/doctype/monthly_payroll/monthly_payroll.py:221-240 | the Total's count, advance, net and cost to company are the sums of the three type records, and its net-minus-advance is recomputed from them |
| Aggregation.AccumulateIsFilteredSum | payroll_sheet/school_payroll/doctype/monthly_payroll/monthly_payroll.py:209-218 | a type record counts the rows of its type and sums their advance (take-home), net salary and cost to company (gross + employer RSSB + employer maternity) |
| Aggregation.OtherTypesIgnored | payroll_sheet/school_payroll/doctype/monthly_payroll/monthly_payroll.py:210-212 | rows of a type outside the three change no type record |
| Aggregation.SummaryIgnoresOtherTypes | payroll_sheet/school_payroll/doctype/monthly_payroll/monthly_payroll.py:194-240 | the summary of all rows equals the summary of the rows of known type |
| Aggregation.CategoriesCoverKnownRows | payroll_sheet/school_payroll/doctype/monthly_payroll/monthly_payroll.py:209-218 | together the three type records count and sum exactly the rows of known type |
| Aggregation.SummaryTotalMatchesTotals | payroll_sheet/school_payroll/doctype/monthly_payroll/monthly_payroll.py:194-278 | the summary's Total agrees with the period totals over the rows of known type on count, advance, net and net-minus-advance. Its cost to company is the total cost plus the employer contributions |
| Aggregation.KnownRowsAll | payroll_sheet/school_payroll/doctype/monthly_payroll/monthly_payroll.py:210-212 | no row is left out of the summary exactly when every row has one of the three types |
| Aggregation.OfTypeCount | payroll_sheet/school_payroll/doctype/monthly_payroll/monthly_payroll.py:210-212 | the rows of a type hold each row of that type as often as the payroll does, and no other row |
| Aggregation.OfTypePermutation | payroll_sheet/school_payroll/doctype/monthly_payroll/monthly_payroll.py:210-212 | reordering the payroll reorders the rows of each type |
| Aggregation.TotalsOrderIndependent | payroll_sheet/school_payroll/doctype/monthly_payroll/monthly_payroll.py:241-278 | the period totals do not depend on the order of the rows |
| Aggregation.AccumulateOrderIndependent | payroll_sheet/school_payroll/doctype/monthly_payroll/monthly_payroll.py:209-218 | a type record does not depend on the order of the rows |
| Aggregation.SummaryOrderIndependent | payroll_sheet/school_payroll/doctype/monthly_payroll/monthly_payroll.py:194-240 | the summary table does not depend on the order of the rows |
| Payroll.MonthlyPayroll.constructor | payroll_sheet/school_payroll/doctype/monthly_payroll/monthly_payroll.py:101 | a new document holds the given rows and empty derived tables |
| Payroll.MonthlyPayroll.Validate | payroll_sheet/school_payroll/doctype/monthly_payroll/monthly_payroll.py:103-115 | every row is calculated. The payroll is refused exactly when the rows as entered list a non-empty employee twice, and then both derived tables keep their old contents. Otherwise the summary and the totals are rebuilt from the calculated rows |
| Payroll.MonthlyPayroll.CalculateRow | payroll_sheet/school_payroll/doctype/monthly_payroll/monthly_payroll.py:134-183 | only row i changes, and only its nine amounts. Take-home <= 0 gives all zeros, even with tax off. Tax off gives gross = net = take-home 2 = take-home and zero deductions. Otherwise the row gets the solver's record (tax on, tolerance 1, 60 rounds) |
| Payroll.MonthlyPayroll.ValidateDuplicates | payroll_sheet/school_payroll/doctype/monthly_payroll/monthly_payroll.py:186-192 | the check passes exactly when no non-empty employee is on two rows. A refusal names a non-empty employee found on two rows, namely the employee of the first row that repeats an earlier one (the rows before it hold no duplicate). Rows without an employee are ignored |
| Payroll.MonthlyPayroll.CalculateSummary | payroll_sheet/school_payroll/doctype/monthly_payroll/monthly_payroll.py:194-240 | the summary table is replaced by the summary of the current rows; nothing else changes |
| Payroll.MonthlyPayroll.CalculateTotals | payroll_sheet/school_payroll/doctype/monthly_payroll/monthly_payroll.py:241-278 | the totals table is replaced by exactly one record, the totals of the current rows; nothing else changes |
| Payroll.CountByType | payroll_sheet/school_payroll/doctype/monthly_payroll/monthly_payroll.py:195-218 | the dictionary built by the loop has exactly the three types as keys, each holding its type record over all rows |
| Payroll.Summarize | payroll_sheet/school_payroll/doctype/monthly_payroll/monthly_payroll.py:194-240 | the table built by the loops is the summary of the rows |
| Payroll.SumTotals | payroll_sheet/school_payroll/doctype/monthly_payroll/monthly_payroll.py:245-264 | the seven running sums give the totals record of the rows, with net-minus-advance and total taxes derived from them |
| Payroll.SameEmployees | payroll_sheet/school_payroll/doctype/monthly_payroll/monthly_payroll.py:107-113 | calculating the rows keeps every employee, so the duplicate check after calculation gives the answer for the rows as entered |
| Payroll.NoNewDuplicate | payroll_sheet/school_payroll/doctype/monthly_payroll/monthly_payroll.py:189-192 | a row whose employee is empty or not yet seen adds no duplicate to the scanned rows |

## Left out

- `check_unique_company_month_year` (the first step of `validate`): it queries the database for another payroll of the same company, month and year. `Validate` starts at the row calculation.
- `payment.py`: its only logic is a database existence lookup.
- Frappe plumbing is not modelled: RPC exposure of the solver, and storage of child tables (`append`). The two derived tables are sequences that are replaced whole.
- `frappe.throw` is modelled as the `DuplicateEmployee` outcome. The transaction rollback that follows in Frappe is not modelled, so on refusal the model keeps the calculated rows.
- Floating point: amounts are exact reals, so binary-float rounding error in the rates, the bisection and `round` is not modelled. Python's `round(x, 0)` is modelled as exact round-half-to-even.
- The `x or 0` coercion of missing values: every input is taken as a present number. A missing take-home, gross or amount is the caller's 0.
- Rows are values inside the document's row sequence. Aliasing between row objects is not modelled.
- GrossSolver.GrossForTakeHomeNearMinimal: does not promise the smallest gross with take-home >= T, which the docstring claims, because the code does not deliver it: the early exit of the bisection can stop above it (`GrossSolver.EarlyExitOvershoots` exhibits one target). It promises near-minimality only, and only for targets up to 10^17 with tolerance >= 1 and at least 60 rounds: the proof needs the bisection bracket, at most twice max(T/0.55, 200000), to be narrower than the 10^18 that sixty halvings bring below one unit (`GrossSolver.SixtyHalvings`), which holds for T up to about 2.7·10^17.
- The tax-exempt branch of the row calculation does not go through the deduction engine: its gross equals its take-home and no deduction is made. The model keeps this as the code does.
- In the summary, cost to company adds the employer contributions to the gross. In the period totals, total cost is the gross alone. `Aggregation.SummaryTotalMatchesTotals` states the difference.
