/** The static cost and plan tables, keyed by the enumerations of `Types`.
    Only the numeric fields are kept; names, descriptions and timelines feed no calculation. */
module Constants {
  import opened Types

  /** A monthly cost range: the bounds are for display, `avg` is the figure every calculation uses. */
  datatype CostRange = CostRange(min: real, max: real, avg: real)

  /** The representative figure of a range lies strictly inside it, at its midpoint. */
  predicate IsMidpointRange(c: CostRange)
  {
    c.min < c.avg < c.max && c.avg == (c.min + c.max) / 2.0
  }

  /** Monthly rent in HKD by area. */
  function HousingCosts(area: AreaType): (r: CostRange)
    ensures IsMidpointRange(r)
    ensures r.avg >= 15000.0
  {
    match area
    case NewTerritories => CostRange(12000.0, 18000.0, 15000.0)
    case Kowloon => CostRange(20000.0, 30000.0, 25000.0)
    case HongKongIsland => CostRange(25000.0, 40000.0, 32500.0)
  }

  /** Monthly food spending in HKD by food mode. */
  function FoodCosts(mode: FoodMode): (r: CostRange)
    ensures IsMidpointRange(r)
    ensures r.avg >= 10000.0
  {
    match mode
    case Frugal => CostRange(8000.0, 12000.0, 10000.0)
    case Normal => CostRange(12000.0, 18000.0, 15000.0)
    case Comfortable => CostRange(18000.0, 25000.0, 21500.0)
  }

  /** Annual school fees in HKD and whether the school prepares for the local diploma exam. */
  datatype SchoolCost = SchoolCost(tuition: real, extras: real, dseReady: bool)

  /** Annual school fees by school type. */
  function SchoolCosts(school: SchoolType): (r: SchoolCost)
    ensures r.tuition >= 0.0 && r.extras >= 2000.0
    ensures r.dseReady <==> school != International
    ensures school == Government ==> r.tuition == 0.0
  {
    match school
    case Government => SchoolCost(0.0, 2000.0, true)
    case DirectEconomy => SchoolCost(25000.0, 5000.0, true)
    case DirectElite => SchoolCost(45000.0, 8000.0, true)
    case International => SchoolCost(180000.0, 20000.0, false)
  }

  /** The fixed monthly costs and the unit prices of the other-costs table. */
  datatype OtherCostTable = OtherCostTable(
    transport: CostRange,
    utilities: CostRange,
    miscellaneous: CostRange,
    tutoringPerSession: real,
    extracurricularPerSession: real,
    insuranceAdult: real,
    insuranceChild: real
  )

  /** The other-costs table: transport, utilities and sundries per month, the price of one
      tutoring or extracurricular session, and the annual medical premium per adult and per child. */
  function OtherCosts(): (r: OtherCostTable)
    ensures IsMidpointRange(r.transport) && IsMidpointRange(r.utilities) && IsMidpointRange(r.miscellaneous)
    ensures r.tutoringPerSession > 0.0 && r.extracurricularPerSession > 0.0
    ensures r.insuranceAdult > 0.0 && r.insuranceChild > 0.0
  {
    OtherCostTable(
      CostRange(2000.0, 3000.0, 2500.0),
      CostRange(1500.0, 2500.0, 2000.0),
      CostRange(3000.0, 5000.0, 4000.0),
      400.0,
      300.0,
      4000.0,
      3000.0)
  }

  /** Every risk dimension is a score in 1..10. */
  predicate RisksInRange(r: RiskAssessment)
  {
    && 1 <= r.applicationSuccess <= 10
    && 1 <= r.renewalStability <= 10
    && 1 <= r.businessImpact <= 10
    && 1 <= r.familyImpact <= 10
    && 1 <= r.financialPressure <= 10
    && 1 <= r.flexibility <= 10
  }

  /** The plan descriptors. Plan A (talent admission) has no tuition and no exam fee;
      plan B (study immigration) has both. */
  function PlanOptions(id: PlanId): (r: PlanOption)
    ensures r.id == id
    ensures 0.0 <= r.successRate <= 100.0
    ensures RisksInRange(r.risks)
    ensures r.oneTimeCost.tuition.Some? <==> id == B
    ensures r.oneTimeCost.exam.Some? <==> id == B
    ensures r.oneTimeCost.visa > 0.0 && r.oneTimeCost.relocation > 0.0
  {
    match id
    case A =>
      PlanOption(A, 75.0, OneTimeCost(5000.0, 30000.0, None, None), RiskAssessment(7, 5, 4, 6, 5, 4))
    case B =>
      PlanOption(B, 95.0, OneTimeCost(3000.0, 30000.0, Some(120000.0), Some(3000.0)), RiskAssessment(9, 8, 8, 7, 6, 8))
  }

  /** Plan B is the more likely to succeed: 95 against 75 percent. */
  lemma SuccessRatesOrdered()
    ensures PlanOptions(A).successRate == 75.0 && PlanOptions(B).successRate == 95.0
    ensures PlanOptions(A).successRate < PlanOptions(B).successRate
  {
  }
}
