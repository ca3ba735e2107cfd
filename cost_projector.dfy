/** The cost projector: monthly breakdown, first-year total and seven-year projection of the
    living costs of a family scenario. Money is exact `real` arithmetic in HKD. */
module CostProjector {
  import opened Types
  import opened Constants

  /** `Math.round`: the nearest integer, halves rounded up. */
  function Round(x: real): (r: int)
    ensures x - 0.5 < r as real <= x + 0.5
  {
    (x + 0.5).Floor
  }

  /** Rounding commutes with adding a whole number. */
  lemma RoundShift(x: real, n: int)
    ensures Round(x + n as real) == Round(x) + n
  {
    var r, s := Round(x + n as real), Round(x) + n;
    assert x + n as real - 0.5 < r as real <= x + n as real + 0.5;
    assert x + n as real - 0.5 < s as real <= x + n as real + 0.5;
  }

  /** Monthly rent: the representative figure of the area's range. */
  function HousingCost(area: AreaType): (r: real)
    ensures r == HousingCosts(area).avg
    ensures HousingCosts(area).min < r < HousingCosts(area).max
  {
    HousingCosts(area).avg
  }

  /** Monthly food spending: the representative figure of the mode's range. */
  function FoodCost(mode: FoodMode): (r: real)
    ensures r == FoodCosts(mode).avg
    ensures FoodCosts(mode).min < r < FoodCosts(mode).max
  {
    FoodCosts(mode).avg
  }

  /** Sessions a year bought by one weekly slot: 4 weeks a month over 10 months. */
  const SessionWeeksPerYear: int := 40

  /** Sessions a year of an activity, nothing when it is not booked. */
  function AnnualSessions(booked: bool, perWeek: int): int
  {
    if booked then perWeek * SessionWeeksPerYear else 0
  }

  /** The annual education cost of one child: school fees plus the sessions booked at their unit prices. */
  function AnnualEducationCost(child: ChildEducation): real
  {
    SchoolCosts(child.schoolType).tuition + SchoolCosts(child.schoolType).extras
      + AnnualSessions(child.tutoring, child.tutoringCount) as real * OtherCosts().tutoringPerSession
      + AnnualSessions(child.extracurricular, child.extracurricularCount) as real * OtherCosts().extracurricularPerSession
  }

  /** The source's step-by-step computation of one child's annual education cost. */
  method ChildEducationCost(child: ChildEducation) returns (total: real)
    ensures total == AnnualEducationCost(child)
    ensures total == SchoolCosts(child.schoolType).tuition + SchoolCosts(child.schoolType).extras
                     + (if child.tutoring then child.tutoringCount as real * 16000.0 else 0.0)
                     + (if child.extracurricular then child.extracurricularCount as real * 12000.0 else 0.0)
  {
    var schoolCost := SchoolCosts(child.schoolType);
    total := schoolCost.tuition + schoolCost.extras;
    if child.tutoring {
      total := total + child.tutoringCount as real * OtherCosts().tutoringPerSession * 4.0 * 10.0;
    }
    if child.extracurricular {
      total := total + child.extracurricularCount as real * OtherCosts().extracurricularPerSession * 4.0 * 10.0;
    }
  }

  /** A weekly count whose activity is not booked does not change the cost. */
  lemma EducationCostIgnoresUnbookedCounts(child: ChildEducation, n: int)
    ensures !child.tutoring ==> AnnualEducationCost(child.(tutoringCount := n)) == AnnualEducationCost(child)
    ensures !child.extracurricular ==>
              AnnualEducationCost(child.(extracurricularCount := n)) == AnnualEducationCost(child)
  {
  }

  /** With an activity booked, each extra weekly slot adds 40 sessions at its unit price,
      so the cost is non-decreasing in each count, whatever the other count is. */
  lemma EducationCostMonotone(child: ChildEducation, nt: int, ne: int)
    requires child.tutoringCount <= nt && child.extracurricularCount <= ne
    ensures child.tutoring ==>
              AnnualEducationCost(child.(tutoringCount := nt))
              == AnnualEducationCost(child) + (nt - child.tutoringCount) as real * 16000.0
    ensures child.extracurricular ==>
              AnnualEducationCost(child.(extracurricularCount := ne))
              == AnnualEducationCost(child) + (ne - child.extracurricularCount) as real * 12000.0
    ensures AnnualEducationCost(child) <= AnnualEducationCost(child.(tutoringCount := nt))
    ensures AnnualEducationCost(child) <= AnnualEducationCost(child.(extracurricularCount := ne))
  {
  }

  /** Annual medical premiums for the given numbers of adults and children. */
  function InsuranceCost(adults: int, children: int): (r: real)
    ensures r == adults as real * 4000.0 + children as real * 3000.0
    ensures adults >= 0 && children >= 0 ==> r >= 0.0
  {
    adults as real * OtherCosts().insuranceAdult + children as real * OtherCosts().insuranceChild
  }

  /** The monthly cost breakdown over seven components and their total. */
  datatype MonthlyBreakdown = MonthlyBreakdown(
    housing: real,
    food: real,
    transport: real,
    utilities: real,
    education: real,
    insurance: real,
    miscellaneous: real,
    total: real
  )

  /** Counts the scenario could only get wrong at the input boundary are not negative. */
  predicate NonNegativeCounts(selection: UserSelection)
  {
    && selection.child1.tutoringCount >= 0 && selection.child1.extracurricularCount >= 0
    && selection.child2.tutoringCount >= 0 && selection.child2.extracurricularCount >= 0
    && selection.insuranceCount >= 0
  }

  /** The monthly cost of a scenario. Insurance covers the two parents and `insuranceCount` children. */
  function MonthlyCost(selection: UserSelection): (m: MonthlyBreakdown)
    ensures m.total == m.housing + m.food + m.transport + m.utilities + m.education + m.insurance + m.miscellaneous
    ensures m.housing == HousingCosts(selection.area).avg && m.food == FoodCosts(selection.foodMode).avg
    ensures m.transport == 2500.0 && m.utilities == 2000.0 && m.miscellaneous == 4000.0
    ensures 12.0 * m.education == AnnualEducationCost(selection.child1) + AnnualEducationCost(selection.child2)
    ensures !selection.includeInsurance ==> m.insurance == 0.0
    ensures selection.includeInsurance ==> 12.0 * m.insurance == 8000.0 + selection.insuranceCount as real * 3000.0
    ensures NonNegativeCounts(selection) ==> m.total >= 33500.0 && m.education > 0.0 && m.insurance >= 0.0
  {
    var housing := HousingCost(selection.area);
    var food := FoodCost(selection.foodMode);
    var transport := OtherCosts().transport.avg;
    var utilities := OtherCosts().utilities.avg;
    var education := (AnnualEducationCost(selection.child1) + AnnualEducationCost(selection.child2)) / 12.0;
    var insurance := if selection.includeInsurance then InsuranceCost(2, selection.insuranceCount) / 12.0 else 0.0;
    var miscellaneous := OtherCosts().miscellaneous.avg;
    MonthlyBreakdown(housing, food, transport, utilities, education, insurance, miscellaneous,
                     housing + food + transport + utilities + education + insurance + miscellaneous)
  }

  /** The plan whose figures the first-year cost uses: A for 'A', otherwise B (so also for 'mixed'). */
  function CostedPlan(plan: PlanType): (id: PlanId)
    ensures id == A <==> plan == A
  {
    if plan == A then A else B
  }

  /** `x || 0` on an optional amount. */
  function OrZero(x: Option<real>): real
  {
    match x
    case Some(v) => v
    case None => 0.0
  }

  /** The one-time components echoed with the year's living cost. */
  datatype FirstYearDetail = FirstYearDetail(visa: real, relocation: real, tuition: real, exam: real, living: real)

  /** The first-year cost: non-recurring plan costs plus twelve months of living. */
  datatype FirstYearBreakdown = FirstYearBreakdown(
    oneTime: real,
    monthly: real,
    yearly: real,
    total: real,
    breakdown: FirstYearDetail
  )

  /** The first-year cost of a scenario under the plan it selects. */
  function FirstYearCost(selection: UserSelection): (f: FirstYearBreakdown)
    ensures f.monthly == MonthlyCost(selection).total
    ensures f.yearly == 12.0 * f.monthly && f.breakdown.living == f.yearly
    ensures f.total == f.oneTime + 12.0 * f.monthly
    ensures f.oneTime == f.breakdown.visa + f.breakdown.relocation + f.breakdown.tuition + f.breakdown.exam
    ensures f.oneTime == if selection.plan == A then 35000.0 else 156000.0
    ensures selection.plan == A ==> f.breakdown.tuition == 0.0 && f.breakdown.exam == 0.0
  {
    var plan := PlanOptions(CostedPlan(selection.plan));
    var monthly := MonthlyCost(selection).total;
    var oneTime := plan.oneTimeCost.visa + plan.oneTimeCost.relocation
                   + OrZero(plan.oneTimeCost.tuition) + OrZero(plan.oneTimeCost.exam);
    var yearly := monthly * 12.0;
    FirstYearBreakdown(oneTime, monthly, yearly, oneTime + yearly,
      FirstYearDetail(plan.oneTimeCost.visa, plan.oneTimeCost.relocation,
                      OrZero(plan.oneTimeCost.tuition), OrZero(plan.oneTimeCost.exam), yearly))
  }

  /** For the same lifestyle, plan B's first year costs exactly 121000 more than plan A's,
      and 'mixed' is costed as plan B. */
  lemma PlanBFirstYearPremium(selection: UserSelection)
    ensures FirstYearCost(selection.(plan := B)).total == FirstYearCost(selection.(plan := A)).total + 121000.0
    ensures FirstYearCost(selection.(plan := Mixed)) == FirstYearCost(selection.(plan := B))
  {
  }

  /** Annual growth of living costs from year 2 on. */
  const Growth: real := 1.03

  /** `g` to the power `k`. */
  function Pow(g: real, k: nat): real
  {
    if k == 0 then 1.0 else Pow(g, k - 1) * g
  }

  /** The living costs of the years after the first: `base * Growth^k` for k = 1..n. */
  function GrowthSum(base: real, n: nat): real
  {
    if n == 0 then 0.0 else GrowthSum(base, n - 1) + base * Pow(Growth, n)
  }

  /** The seven-year total: the first year, then six years of living costs compounding at 3%,
      with the one-time costs counted once, rounded to the nearest HKD. */
  function SevenYearTotal(selection: UserSelection): int
  {
    Round(FirstYearCost(selection).total + GrowthSum(12.0 * MonthlyCost(selection).total, 6))
  }

  /** The source's loop: year 2 to 7 each grow the previous year's living base by 3% and add it. */
  method SevenYearCost(selection: UserSelection) returns (r: int)
    ensures r == SevenYearTotal(selection)
  {
    var firstYear := FirstYearCost(selection);
    var monthlyCost := MonthlyCost(selection);
    var total := firstYear.total;
    var yearlyBase := monthlyCost.total * 12.0;
    for year := 2 to 8
      invariant yearlyBase == 12.0 * monthlyCost.total * Pow(Growth, year - 2)
      invariant total == firstYear.total + GrowthSum(12.0 * monthlyCost.total, year - 2)
    {
      yearlyBase := yearlyBase * Growth;
      total := total + yearlyBase;
    }
    r := Round(total);
  }

  /** Growth never shrinks a power: `Growth^k >= 1`. */
  lemma {:induction false} PowAtLeastOne(k: nat)
    ensures Pow(Growth, k) >= 1.0
  {
    if k > 0 {
      PowAtLeastOne(k - 1);
    }
  }

  /** Each later year costs at least the first year's living base. */
  lemma {:induction false} GrowthSumAtLeast(base: real, n: nat)
    requires base >= 0.0
    ensures GrowthSum(base, n) >= n as real * base
  {
    if n > 0 {
      GrowthSumAtLeast(base, n - 1);
      PowAtLeastOne(n);
      assert base * Pow(Growth, n) >= base;
    }
  }

  /** The later years' living costs scale with the first year's base: they are the base times
      the sum of the growth factors. */
  lemma {:induction false} GrowthSumLinear(base: real, n: nat)
    ensures GrowthSum(base, n) == base * GrowthSum(1.0, n)
  {
    if n > 0 {
      calc {
        GrowthSum(base, n);
        GrowthSum(base, n - 1) + base * Pow(Growth, n);
        { GrowthSumLinear(base, n - 1); }
        base * GrowthSum(1.0, n - 1) + base * Pow(Growth, n);
        base * (GrowthSum(1.0, n - 1) + 1.0 * Pow(Growth, n));
        base * GrowthSum(1.0, n);
      }
    }
  }

  /** For a scenario with non-negative counts, the seven-year total is at least the first-year total
      plus six uncompounded years of living. */
  lemma SevenYearAtLeastFirstYear(selection: UserSelection)
    requires NonNegativeCounts(selection)
    ensures SevenYearTotal(selection) as real >= FirstYearCost(selection).total + 6.0 * FirstYearCost(selection).yearly - 0.5
    ensures SevenYearTotal(selection) as real >= FirstYearCost(selection).total
  {
    var m := MonthlyCost(selection).total;
    GrowthSumAtLeast(12.0 * m, 6);
  }

  /** One-time costs enter the projection once: choosing plan B instead of A raises the
      seven-year total by exactly the 121000 difference in one-time costs. */
  lemma SevenYearPlanDifference(selection: UserSelection)
    ensures SevenYearTotal(selection.(plan := B)) == SevenYearTotal(selection.(plan := A)) + 121000
  {
    var a := selection.(plan := A);
    var b := selection.(plan := B);
    assert MonthlyCost(a) == MonthlyCost(b);
    PlanBFirstYearPremium(selection);
    var x := FirstYearCost(a).total + GrowthSum(12.0 * MonthlyCost(a).total, 6);
    RoundShift(x, 121000);
  }
}
