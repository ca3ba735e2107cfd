/** The enumerations and records the planner's two engines read and produce. */
module Types {

  /** A value that may be absent, as an optional field of an object literal is. */
  datatype Option<+T> = None | Some(value: T)

  /** Kind of secondary school a child attends. */
  datatype SchoolType = Government | DirectEconomy | DirectElite | International

  /** Residential area of Hong Kong the family rents in. */
  datatype AreaType = NewTerritories | Kowloon | HongKongIsland

  /** How the family eats: mostly home cooking, mixed, or mostly eating out. */
  datatype FoodMode = Frugal | Normal | Comfortable

  /** The pathway chosen in the cost calculator; `Mixed` is a third value of the selector. */
  datatype PlanType = A | B | Mixed

  /** The two pathways that have plan descriptors and can be recommended: A (talent admission)
      and B (study immigration). */
  type PlanId = p: PlanType | p != Mixed witness A

  /** One child's education configuration. The weekly counts are read only when their flag is set. */
  datatype ChildEducation = ChildEducation(
    schoolType: SchoolType,
    tutoring: bool,
    tutoringCount: int,
    extracurricular: bool,
    extracurricularCount: int
  )

  /** The scenario chosen in the cost calculator. */
  datatype UserSelection = UserSelection(
    plan: PlanType,
    area: AreaType,
    foodMode: FoodMode,
    child1: ChildEducation,
    child2: ChildEducation,
    includeInsurance: bool,
    insuranceCount: int
  )

  /** Language proficiency of the applicant for plan B. */
  datatype EnglishLevel = Basic | Intermediate | Advanced

  /** How much risk the family is prepared to take. */
  datatype RiskTolerance = Low | Medium | High

  /** The questionnaire answers the recommendation engine scores. */
  datatype DecisionInput = DecisionInput(
    annualProfit: real,
    monthlyBudget: real,
    canHusbandLeave: bool,
    hasReliableTeam: bool,
    wifeEnglishLevel: EnglishLevel,
    riskTolerance: RiskTolerance
  )

  /** The six risk dimensions of a plan, each meant to lie in 1..10. */
  datatype RiskAssessment = RiskAssessment(
    applicationSuccess: int,
    renewalStability: int,
    businessImpact: int,
    familyImpact: int,
    financialPressure: int,
    flexibility: int
  )

  /** Non-recurring first-year costs of a plan; tuition and exam fee are optional. */
  datatype OneTimeCost = OneTimeCost(visa: real, relocation: real, tuition: Option<real>, exam: Option<real>)

  /** The numeric part of a plan descriptor. */
  datatype PlanOption = PlanOption(id: PlanId, successRate: real, oneTimeCost: OneTimeCost, risks: RiskAssessment)
}
