/** The gross-for-take-home solver: inverts the deduction engine by search.
    Each phase of the search is a loop; each loop is specified by a function
    that performs the same phase by recursion, and the whole search by
    `GrossForTakeHome`, which chains the three phases. */
module GrossSolver {
  import opened Money
  import opened Deductions

  /** Every amount rounded to whole units, except gross, which the solver
      already holds as a whole number. */
  function Rounded(a: Amounts): (r: Amounts)
    ensures r.grossPay == a.grossPay
    ensures && RoundsTo(a.paye, r.paye)
            && RoundsTo(a.rssbEmployer, r.rssbEmployer)
            && RoundsTo(a.rssbEmployee, r.rssbEmployee)
            && RoundsTo(a.maternityEmployer, r.maternityEmployer)
            && RoundsTo(a.maternityEmployee, r.maternityEmployee)
            && RoundsTo(a.netSalary, r.netSalary)
            && RoundsTo(a.cbhi, r.cbhi)
            && RoundsTo(a.takeHome2, r.takeHome2)
  {
    Amounts(
      RoundHalfEven(a.paye) as real,
      RoundHalfEven(a.rssbEmployer) as real,
      RoundHalfEven(a.rssbEmployee) as real,
      RoundHalfEven(a.maternityEmployer) as real,
      RoundHalfEven(a.maternityEmployee) as real,
      RoundHalfEven(a.netSalary) as real,
      RoundHalfEven(a.cbhi) as real,
      RoundHalfEven(a.takeHome2) as real,
      a.grossPay)
  }

  /** What the solver delivers for a positive target: a whole gross whose
      unrounded take-home reaches the target, with the other eight amounts
      those of that gross, rounded. */
  predicate SolvedFor(vals: Amounts, target: real, applyTax: bool) {
    && IsWhole(vals.grossPay)
    && TakeHome(vals.grossPay, applyTax) >= target
    && vals == Rounded(CalcAll(vals.grossPay, applyTax))
  }

  /** One unit of gross less would not reach the target plus the tolerance:
      the solver overshoots the target only within the tolerance band. */
  predicate WithinTolerance(vals: Amounts, target: real, applyTax: bool, tolerance: real) {
    TakeHome(vals.grossPay - 1.0, applyTax) < target + tolerance
  }

  /** `x` halved `n` times. */
  function Halved(x: real, n: nat): real {
    if n == 0 then x else Halved(x, n - 1) / 2.0
  }

  /** The number of bisection rounds for `maxIter`: none when it is not
      positive, as for an empty range. */
  function Rounds(maxIter: int): nat {
    if maxIter > 0 then maxIter else 0
  }

  // ----- The take-home function the search inverts -----

  /** Take-home as a function of gross, for one setting of the tax flag. */
  function TakeHomeOf(applyTax: bool): real -> real {
    g => TakeHome(g, applyTax)
  }

  /** How much `th` rises from `x` to `y`. */
  function Rise(th: real -> real, x: real, y: real): real {
    th(y) - th(x)
  }

  /** The shape of take-home the search relies on: nothing for no gross, and
      a slope between 0.548245 and 0.846745 everywhere. */
  ghost predicate Steady(th: real -> real) {
    && th(0.0) == 0.0
    && forall x: real, y: real :: x <= y ==> 0.548245 * (y - x) <= Rise(th, x, y) <= 0.846745 * (y - x)
  }

  /** Take-home has that shape, with tax and without. */
  lemma TakeHomeSteady(applyTax: bool)
    ensures Steady(TakeHomeOf(applyTax))
  {
    CalcAllZero(applyTax);
    forall x: real, y: real | x <= y
      ensures 0.548245 * (y - x) <= Rise(TakeHomeOf(applyTax), x, y) <= 0.846745 * (y - x)
    {
      TakeHomeSlope(x, y, applyTax);
    }
  }

  // ----- Doubling phase -----

  /** The smallest gross the search looks at first: a heuristic 55% take-home
      rate, and never below 200000. */
  function StartBound(target: real): (b: real)
    ensures b >= 200000.0 && b >= target / 0.55
    ensures b == 200000.0 || b == target / 0.55
  {
    Max(target / 0.55, 200000.0)
  }

  /** The doubling phase from upper bound `hi` with at most `rounds`
      doublings left, for the take-home function `th`: it stops at the first
      bound whose take-home reaches the target. Doubling never lowers a
      bound that is not negative, and a bound that already reaches the
      target is kept. */
  function Doubled(target: real, th: real -> real, hi: real, rounds: nat): (d: real)
    ensures 0.0 <= hi ==> hi <= d
    ensures th(hi) >= target ==> d == hi
    decreases rounds
  {
    if rounds == 0 || th(hi) >= target then hi
    else Doubled(target, th, 2.0 * hi, rounds - 1)
  }

  /** A gross of twice the starting bound always reaches a positive target,
      so the doubling phase stops after at most one doubling: the 30-step cap
      is never what stops it, and the bound it ends with reaches the target. */
  lemma DoublingStopsEarly(target: real, th: real -> real)
    requires target > 0.0 && Steady(th)
    ensures var start := StartBound(target);
      Doubled(target, th, start, 30) == if th(start) >= target then start else 2.0 * start
    ensures th(Doubled(target, th, StartBound(target), 30)) >= target
  {
    var start := StartBound(target);
    assert 0.548245 * (2.0 * start - 0.0) <= Rise(th, 0.0, 2.0 * start);
  }

  /** Doubling phase: from the start bound, double the upper bound at most 30
      times until its take-home reaches the target. */
  method RaiseUpperBound(target: real, applyTax: bool) returns (hi: real)
    ensures hi == Doubled(target, TakeHomeOf(applyTax), StartBound(target), 30)
  {
    ghost var th := TakeHomeOf(applyTax);
    hi := StartBound(target);
    for k := 0 to 30
      invariant Doubled(target, th, hi, 30 - k) == Doubled(target, th, StartBound(target), 30)
    {
      assert th(hi) == TakeHome(hi, applyTax);
      if TakeHome(hi, applyTax) >= target {
        break;
      }
      hi := hi * 2.0;
    }
  }

  // ----- Bisection phase -----

  /** Where the bisection phase ends: the bracket, and whether it stopped at
      the early exit. */
  datatype Bracket = Bracket(lo: real, hi: real, early: bool)

  /** The bisection phase on [lo, hi] with at most `rounds` rounds left, for
      the take-home function `th`: the bracket only shrinks. */
  function Bisection(target: real, th: real -> real, tolerance: real, lo: real, hi: real, rounds: nat)
    : (b: Bracket)
    ensures lo <= hi ==> lo <= b.lo <= b.hi <= hi
    decreases rounds
  {
    if rounds == 0 then Bracket(lo, hi, false)
    else
      var mid := (lo + hi) / 2.0;
      var th2 := th(mid);
      if Abs(th2 - target) <= tolerance then Bracket(lo, mid, true)
      else if th2 < target then Bisection(target, th, tolerance, mid, hi, rounds - 1)
      else Bisection(target, th, tolerance, lo, mid, rounds - 1)
  }

  lemma {:induction false} HalvedShift(x: real, n: nat)
    ensures Halved(x / 2.0, n) == Halved(x, n + 1)
  {
    if n > 0 {
      HalvedShift(x, n - 1);
    }
  }

  /** What the bisection phase keeps of a bracket whose lower end falls
      short of the target and whose upper end reaches it: `lo` only ever
      moves to a gross whose take-home falls short, and `hi` to one that
      reaches it, except at the early exit, which sets `hi` to the first
      midpoint within `tolerance` of the target on either side. Without the
      early exit every round halves the bracket. */
  lemma {:induction false} BisectionBracket(target: real, th: real -> real, tolerance: real,
                                            lo: real, hi: real, rounds: nat)
    requires th(lo) < target && th(hi) >= target
    ensures var b := Bisection(target, th, tolerance, lo, hi, rounds);
      && th(b.lo) < target
      && (b.early ==> Abs(th(b.hi) - target) <= tolerance)
      && (!b.early ==> th(b.hi) >= target && b.hi - b.lo == Halved(hi - lo, rounds))
    decreases rounds
  {
    if rounds > 0 {
      var mid := (lo + hi) / 2.0;
      HalvedShift(hi - lo, rounds - 1);
      if Abs(th(mid) - target) <= tolerance {
      } else if th(mid) < target {
        BisectionBracket(target, th, tolerance, mid, hi, rounds - 1);
      } else {
        BisectionBracket(target, th, tolerance, lo, mid, rounds - 1);
      }
    }
  }

  /** Bisection phase: at most `maxIter` rounds on [0, top]. */
  method Bisect(target: real, applyTax: bool, tolerance: real, maxIter: int, top: real)
    returns (lo: real, hi: real, early: bool)
    ensures Bracket(lo, hi, early) == Bisection(target, TakeHomeOf(applyTax), tolerance, 0.0, top, Rounds(maxIter))
  {
    ghost var th := TakeHomeOf(applyTax);
    lo, hi := 0.0, top;
    early := false;
    var rounds := Rounds(maxIter);
    for k := 0 to rounds
      invariant Bisection(target, th, tolerance, lo, hi, rounds - k)
                == Bisection(target, th, tolerance, 0.0, top, rounds)
      invariant !early
    {
      var mid := (lo + hi) / 2.0;
      var th2 := TakeHome(mid, applyTax);
      assert th2 == th(mid);
      if Abs(th2 - target) <= tolerance {
        hi := mid;
        early := true;
        break;
      }
      if th2 < target {
        lo := mid;
      } else {
        hi := mid;
      }
    }
  }

  lemma {:induction false} HalvedTenTimes(x: real, n: nat)
    ensures Halved(x, n + 10) == Halved(x, n) / 1024.0
  {
    if n > 0 {
      HalvedTenTimes(x, n - 1);
    } else {
      assert Halved(x, 1) == x / 2.0;
      assert Halved(x, 2) == x / 4.0;
      assert Halved(x, 3) == x / 8.0;
      assert Halved(x, 4) == x / 16.0;
      assert Halved(x, 5) == x / 32.0;
      assert Halved(x, 6) == x / 64.0;
      assert Halved(x, 7) == x / 128.0;
      assert Halved(x, 8) == x / 256.0;
      assert Halved(x, 9) == x / 512.0;
    }
  }

  /** Sixty halvings shrink any width below 10^18 to less than one unit. */
  lemma {:induction false} SixtyHalvings(x: real, n: nat)
    requires 0.0 <= x < 1000000000000000000.0 && n >= 60
    ensures Halved(x, n) < 1.0
  {
    if n == 60 {
      HalvedTenTimes(x, 0);
      HalvedTenTimes(x, 10);
      HalvedTenTimes(x, 20);
      HalvedTenTimes(x, 30);
      HalvedTenTimes(x, 40);
      HalvedTenTimes(x, 50);
    } else {
      SixtyHalvings(x, n - 1);
    }
  }

  // ----- Whole-unit phase -----

  /** A whole gross whose take-home falls short of the target lies below
      the target over the smallest slope of take-home, so stepping up one
      unit at a time reaches the target. */
  lemma StepBelowTarget(target: real, th: real -> real, g: int)
    requires Steady(th) && th(g as real) < target
    ensures g < Ceil(Abs(target) / 0.548245)
  {
    if g >= 0 {
      assert 0.548245 * (g as real - 0.0) <= Rise(th, 0.0, g as real);
    }
  }

  /** The whole-unit phase from gross `g`, for the take-home function `th`:
      step up one unit at a time until the take-home reaches the target. It
      never steps down. */
  function StepFrom(target: real, th: real -> real, g: int): (r: int)
    requires Steady(th)
    ensures g <= r
    decreases Ceil(Abs(target) / 0.548245) - g
  {
    if th(g as real) >= target then g
    else
      StepBelowTarget(target, th, g);
      StepFrom(target, th, g + 1)
  }

  /** The whole-unit phase ends at the first whole gross from `g` on whose
      take-home reaches the target: it reaches it, and the unit below it
      falls short unless it is `g` itself. */
  lemma {:induction false} StepFromReaches(target: real, th: real -> real, g: int)
    requires Steady(th)
    ensures var r := StepFrom(target, th, g);
      && th(r as real) >= target
      && (r == g || th(r as real - 1.0) < target)
    decreases Ceil(Abs(target) / 0.548245) - g
  {
    if th(g as real) < target {
      StepBelowTarget(target, th, g);
      assert StepFrom(target, th, g) == StepFrom(target, th, g + 1);
      StepFromReaches(target, th, g + 1);
    }
  }

  /** Whole-unit phase: round `hi` up and add one unit at a time until the
      take-home reaches the target. */
  method StepUp(target: real, applyTax: bool, hi: real) returns (g: int, amounts: Amounts)
    ensures Steady(TakeHomeOf(applyTax)) && g == StepFrom(target, TakeHomeOf(applyTax), Ceil(hi))
    ensures amounts == CalcAll(g as real, applyTax)
  {
    ghost var th := TakeHomeOf(applyTax);
    TakeHomeSteady(applyTax);
    g := Ceil(hi);
    amounts := CalcAll(g as real, applyTax);
    while amounts.takeHome2 < target
      invariant amounts == CalcAll(g as real, applyTax)
      invariant StepFrom(target, th, g) == StepFrom(target, th, Ceil(hi))
      decreases Ceil(Abs(target) / 0.548245) - g
    {
      assert th(g as real) == amounts.takeHome2;
      StepBelowTarget(target, th, g);
      g := g + 1;
      amounts := CalcAll(g as real, applyTax);
    }
    assert th(g as real) == amounts.takeHome2;
  }

  // ----- The whole search -----

  /** The record the search returns for `takeHome`: the all-zero record for
      a target of 0 or less, otherwise the rounded record of the whole gross
      that the three phases reach. */
  function GrossForTakeHome(takeHome: real, applyTax: bool, tolerance: real, maxIter: int)
    : (vals: Amounts)
    ensures takeHome <= 0.0 ==> vals == Zero
  {
    if takeHome <= 0.0 then
      CalcAllZero(applyTax);
      Rounded(CalcAll(0.0, applyTax)).(grossPay := 0.0)
    else
      TakeHomeSteady(applyTax);
      Rounded(CalcAll(SearchGross(takeHome, TakeHomeOf(applyTax), tolerance, Rounds(maxIter)) as real, applyTax))
  }

  /** The whole gross the three phases reach for `target`: raise the bound
      from the start bound, bisect from 0 up to it, then step up from its
      upper end rounded up. */
  function SearchGross(target: real, th: real -> real, tolerance: real, rounds: nat): (g: int)
    requires Steady(th)
    ensures th(g as real) >= target
  {
    var top := Doubled(target, th, StartBound(target), 30);
    var hi := Bisection(target, th, tolerance, 0.0, top, rounds).hi;
    StepFromReaches(target, th, Ceil(hi));
    StepFrom(target, th, Ceil(hi))
  }

  /** The whole gross (with every other amount rounded to 0 decimals) whose
      take-home reaches `takeHome`: raise an upper bound, bisect (stopping
      early once within `tolerance` of the target), round the upper end up
      to a whole unit and step up one unit at a time until the target is
      met. */
  method RwandaGrossForTakeHome(takeHome: real, applyTax: bool, tolerance: real, maxIter: int)
    returns (vals: Amounts)
    ensures vals == GrossForTakeHome(takeHome, applyTax, tolerance, maxIter)
  {
    var target := takeHome;
    if target <= 0.0 {
      vals := Rounded(CalcAll(0.0, applyTax)).(grossPay := 0.0);
      return;
    }
    var top := RaiseUpperBound(target, applyTax);
    var lo, hi, early := Bisect(target, applyTax, tolerance, maxIter, top);
    var g, amounts := StepUp(target, applyTax, hi);
    vals := Rounded(amounts);
  }

  /** For a positive target the search returns a whole gross that reaches
      it, with that gross's amounts rounded. */
  lemma GrossForTakeHomeSolves(takeHome: real, applyTax: bool, tolerance: real, maxIter: int)
    requires takeHome > 0.0
    ensures SolvedFor(GrossForTakeHome(takeHome, applyTax, tolerance, maxIter), takeHome, applyTax)
  {
    TakeHomeSteady(applyTax);
    var g := SearchGross(takeHome, TakeHomeOf(applyTax), tolerance, Rounds(maxIter));
    assert TakeHome(g as real, applyTax) >= takeHome;
    assert GrossForTakeHome(takeHome, applyTax, tolerance, maxIter) == Rounded(CalcAll(g as real, applyTax));
  }

  /** For a target up to 10^17, a tolerance of at least one unit and at
      least 60 rounds, one unit of gross less than the search returns falls
      short of the target plus the tolerance. */
  lemma GrossForTakeHomeNearMinimal(takeHome: real, applyTax: bool, tolerance: real, maxIter: int)
    requires 0.0 < takeHome <= 100000000000000000.0 && tolerance >= 1.0 && maxIter >= 60
    ensures WithinTolerance(GrossForTakeHome(takeHome, applyTax, tolerance, maxIter),
                            takeHome, applyTax, tolerance)
  {
    TakeHomeSteady(applyTax);
    SearchEndsNearTarget(takeHome, TakeHomeOf(applyTax), tolerance, Rounds(maxIter));
    GrossOfSearch(takeHome, applyTax, tolerance, maxIter);
    OneUnitBelow(GrossForTakeHome(takeHome, applyTax, tolerance, maxIter),
                 SearchGross(takeHome, TakeHomeOf(applyTax), tolerance, Rounds(maxIter)),
                 takeHome, applyTax, tolerance);
  }

  /** The gross the search returns for a positive target is the whole gross
      its three phases reach. */
  lemma GrossOfSearch(takeHome: real, applyTax: bool, tolerance: real, maxIter: int)
    requires takeHome > 0.0 && Steady(TakeHomeOf(applyTax))
    ensures GrossForTakeHome(takeHome, applyTax, tolerance, maxIter).grossPay
            == SearchGross(takeHome, TakeHomeOf(applyTax), tolerance, Rounds(maxIter)) as real
  {
  }

  /** A record whose gross is `g` is within the tolerance band when the unit
      below `g` falls short of the target plus the tolerance. */
  lemma OneUnitBelow(vals: Amounts, g: int, target: real, applyTax: bool, tolerance: real)
    requires vals.grossPay == g as real
    requires TakeHomeOf(applyTax)(g as real - 1.0) < target + tolerance
    ensures WithinTolerance(vals, target, applyTax, tolerance)
  {
  }

  /** The three phases chained, for any take-home function of the steady
      shape: one unit below the whole gross they reach falls short of the
      target plus the tolerance. */
  lemma SearchEndsNearTarget(target: real, th: real -> real, tolerance: real, rounds: nat)
    requires 0.0 < target <= 100000000000000000.0 && tolerance >= 1.0 && rounds >= 60 && Steady(th)
    ensures th(SearchGross(target, th, tolerance, rounds) as real - 1.0) < target + tolerance
  {
    DoublingStopsEarly(target, th);
    var top := Doubled(target, th, StartBound(target), 30);
    assert 0.0 <= top < 1000000000000000000.0;
    BisectionBracket(target, th, tolerance, 0.0, top, rounds);
    var b := Bisection(target, th, tolerance, 0.0, top, rounds);
    CloseToTarget(target, th, tolerance, rounds, top, b.lo, b.hi, b.early);
  }

  /** Why the whole gross stays within the tolerance band: either the unit
      below it was stepped over because it fell short, or it lies below `hi`,
      which is within the tolerance of the target after an early exit and
      within one unit of `lo` after sixty halvings otherwise. */
  lemma CloseToTarget(target: real, th: real -> real, tolerance: real, rounds: nat,
                      top: real, lo: real, hi: real, early: bool)
    requires Steady(th)
    requires lo <= hi && th(lo) < target
    requires early ==> Abs(th(hi) - target) <= tolerance
    requires !early ==> hi - lo == Halved(top, rounds)
    requires 0.0 <= top < 1000000000000000000.0 && rounds >= 60 && tolerance >= 1.0
    ensures th(StepFrom(target, th, Ceil(hi)) as real - 1.0) < target + tolerance
  {
    var g := StepFrom(target, th, Ceil(hi));
    StepFromReaches(target, th, Ceil(hi));
    if g == Ceil(hi) {
      var below := g as real - 1.0;
      if early {
        assert 0.548245 * (hi - below) <= Rise(th, below, hi);
      } else {
        SixtyHalvings(top, rounds);
        assert 0.548245 * (lo + 1.0 - below) <= Rise(th, below, lo + 1.0);
        assert Rise(th, lo, lo + 1.0) <= 0.846745 * (lo + 1.0 - lo);
      }
    }
  }

  /** The early exit can stop above the smallest whole gross. For a target of
      80693.5 with PAYE, tolerance 1 and 60 rounds, the doubling phase stops
      at once at 200000, the first midpoint 100000 is within the tolerance,
      and the search returns gross 100000; yet gross 99999 already reaches
      the target. */
  lemma EarlyExitOvershoots()
    ensures GrossForTakeHome(80693.5, true, 1.0, 60).grossPay == 100000.0
    ensures TakeHome(99999.0, true) >= 80693.5
  {
    var th := TakeHomeOf(true);
    assert StartBound(80693.5) == 200000.0;
    assert th(200000.0) == TakeHome(200000.0, true) >= 80693.5;
    assert Doubled(80693.5, th, 200000.0, 30) == 200000.0;
    assert th(100000.0) == TakeHome(100000.0, true) == 80694.5;
    assert Bisection(80693.5, th, 1.0, 0.0, 200000.0, 60) == Bracket(0.0, 100000.0, true);
    assert Ceil(100000.0) == 100000;
    TakeHomeSteady(true);
    assert StepFrom(80693.5, th, 100000) == 100000;
  }
}
