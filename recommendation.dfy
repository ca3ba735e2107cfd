/** The recommendation engine: six independent rules score plans A and B, the higher score wins
    (ties go to A), and the result carries a confidence percentage and ordered message lists. */
module Recommendation {
  import opened Types
  import opened CostProjector

  /** The messages the engine can emit; only their presence and order matter. */
  datatype Message =
    // reasons
    | CannotRelocateFavoursB      // the husband cannot leave for long: plan B fits better
    | ReliableTeamFavoursA        // a reliable team can run the business: plan A becomes feasible
    | AdvancedEnglishFavoursB     // strong English: the study route is more likely to succeed
    | LowRiskToleranceFavoursB    // low risk tolerance: plan B's success rate is safer
    | HighProfitFavoursA          // high annual profit: business continuity is worth protecting
    // warnings
    | NoReliableTeam              // without a reliable team plan A is risky
    | BasicEnglish                // English needs work: start exam preparation 3-4 months ahead
    | BudgetShortForA             // the budget may not cover plan A's first year
    | BudgetShortForB             // the budget may not cover plan B's first year
    // per-rule action items
    | PrepareIeltsTarget6         // start IELTS preparation, target band 6.0
    | StartIeltsCourseNow         // start IELTS preparation now, consider a course
    // plan B checklist
    | SitIeltsByMarch2026
    | ApplyToEdUHKApril2026
    | PrepareVisaMayJune2026
    | HouseHuntJulyAugust2026
    // plan A checklist
    | ConfirmEmployment
    | PrepareTalentDocuments
    | PlanTeamDelegation
    | SurveyRentalAreas

  /** What the engine returns. */
  datatype Result = Result(
    recommended: PlanId,
    confidence: int,
    reasons: seq<Message>,
    warnings: seq<Message>,
    actionItems: seq<Message>
  )

  /* ---------- the rule table: an independent, data-driven statement of the engine ---------- */

  /** The effect of one rule: what it adds to each score and the message, if any, it appends to
      each of the three lists. */
  datatype Effect = Effect(addA: int, addB: int, reason: Option<Message>, warning: Option<Message>, action: Option<Message>)

  /** The accumulators the rules update: the two scores and the three message lists. */
  datatype Tally = Tally(scoreA: int, scoreB: int, reasons: seq<Message>, warnings: seq<Message>, actions: seq<Message>)

  /** Rule 1: whether the principal applicant can relocate. */
  function RelocationRule(input: DecisionInput): Effect
  {
    if !input.canHusbandLeave then Effect(0, 30, Some(CannotRelocateFavoursB), None, None)
    else Effect(15, 0, None, None, None)
  }

  /** Rule 2: whether a reliable delegate can run the business. */
  function TeamRule(input: DecisionInput): Effect
  {
    if input.hasReliableTeam then Effect(20, 0, Some(ReliableTeamFavoursA), None, None)
    else Effect(0, 25, None, Some(NoReliableTeam), None)
  }

  /** Rule 3: the plan-B applicant's English; every level scores for B. */
  function EnglishRule(input: DecisionInput): Effect
  {
    if input.wifeEnglishLevel == Advanced then Effect(0, 25, Some(AdvancedEnglishFavoursB), None, None)
    else if input.wifeEnglishLevel == Intermediate then Effect(0, 15, None, None, Some(PrepareIeltsTarget6))
    else Effect(0, 5, None, Some(BasicEnglish), Some(StartIeltsCourseNow))
  }

  /** Rule 4: risk tolerance; medium changes nothing. */
  function RiskRule(input: DecisionInput): Effect
  {
    if input.riskTolerance == Low then Effect(0, 20, Some(LowRiskToleranceFavoursB), None, None)
    else if input.riskTolerance == High then Effect(10, 0, None, None, None)
    else Effect(0, 0, None, None, None)
  }

  /** The two first-year totals the budget rules compare twelve months of budget against:
      the same lifestyle costed under plan A and under plan B. */
  datatype PlanCosts = PlanCosts(firstYearA: real, firstYearB: real)

  /** The first-year totals of a scenario under each plan; B's exceeds A's by 121000. */
  function PlanCostsOf(selection: UserSelection): (c: PlanCosts)
    ensures c.firstYearA == FirstYearCost(selection.(plan := A)).total
    ensures c.firstYearB == FirstYearCost(selection.(plan := B)).total
    ensures c.firstYearB == c.firstYearA + 121000.0
  {
    PlanBFirstYearPremium(selection);
    PlanCosts(FirstYearCost(selection.(plan := A)).total, FirstYearCost(selection.(plan := B)).total)
  }

  /** Rule 5, first half: twelve months of budget short of plan A's first year warn and score 10 for B. */
  function BudgetRuleA(input: DecisionInput, costs: PlanCosts): Effect
  {
    if input.monthlyBudget * 12.0 < costs.firstYearA then Effect(0, 10, None, Some(BudgetShortForA), None)
    else Effect(0, 0, None, None, None)
  }

  /** Rule 5, second half: twelve months of budget short of plan B's first year warn without scoring. */
  function BudgetRuleB(input: DecisionInput, costs: PlanCosts): Effect
  {
    if input.monthlyBudget * 12.0 < costs.firstYearB then Effect(0, 0, None, Some(BudgetShortForB), None)
    else Effect(0, 0, None, None, None)
  }

  /** Rule 6: a business profit above 500000 a year is worth protecting. */
  function ProfitRule(input: DecisionInput): Effect
  {
    if input.annualProfit > 500000.0 then Effect(15, 0, Some(HighProfitFavoursA), None, None)
    else Effect(0, 0, None, None, None)
  }

  /** `s` with the message `m`, if there is one, appended. */
  function Push(s: seq<Message>, m: Option<Message>): seq<Message>
  {
    match m
    case None => s
    case Some(x) => s + [x]
  }

  /** The messages of an optional message: none or one. */
  function Listed(m: Option<Message>): seq<Message>
  {
    match m
    case None => []
    case Some(x) => [x]
  }

  /** Pushing appends the listed message. */
  lemma PushAppends(s: seq<Message>, m: Option<Message>)
    ensures Push(s, m) == s + Listed(m)
  {
    if m.None? {
      assert s + [] == s;
    }
  }

  /** The rules in evaluation order, the budget rule as its two halves: seven effects. */
  function Rules(input: DecisionInput, costs: PlanCosts): seq<Effect>
  {
    [RelocationRule(input), TeamRule(input), EnglishRule(input), RiskRule(input),
     BudgetRuleA(input, costs), BudgetRuleB(input, costs), ProfitRule(input)]
  }

  /** Both scores at zero and every list empty: the state before the first rule. */
  const Start := Tally(0, 0, [], [], [])

  /** Applying one rule's effect: its additions go to the scores, its messages to the ends of the lists. */
  function Apply(t: Tally, e: Effect): Tally
  {
    Tally(t.scoreA + e.addA, t.scoreB + e.addB, Push(t.reasons, e.reason), Push(t.warnings, e.warning),
          Push(t.actions, e.action))
  }

  /** Applying a rule to any tally appends its listed messages. */
  lemma ApplyAppends(t: Tally, e: Effect)
    ensures Apply(t, e).reasons == t.reasons + Listed(e.reason)
    ensures Apply(t, e).warnings == t.warnings + Listed(e.warning)
    ensures Apply(t, e).actions == t.actions + Listed(e.action)
  {
    PushAppends(t.reasons, e.reason);
    PushAppends(t.warnings, e.warning);
    PushAppends(t.actions, e.action);
  }

  /** Applying the rules in order, from the first to the last. */
  function Run(effects: seq<Effect>): Tally
  {
    if effects == [] then Start
    else Apply(Run(effects[..|effects| - 1]), effects[|effects| - 1])
  }

  /** Running one more rule applies it after the others. */
  lemma RunSnoc(effects: seq<Effect>, e: Effect)
    ensures Run(effects + [e]) == Apply(Run(effects), e)
  {
    assert (effects + [e])[..|effects|] == effects;
  }

  /** Running seven rules applies them one after another, in order. */
  lemma RunOfSeven(e1: Effect, e2: Effect, e3: Effect, e4: Effect, e5: Effect, e6: Effect, e7: Effect)
    ensures Run([e1, e2, e3, e4, e5, e6, e7])
            == Apply(Apply(Apply(Apply(Apply(Apply(Apply(Start, e1), e2), e3), e4), e5), e6), e7)
  {
    RunSnoc([], e1);
    assert [] + [e1] == [e1];
    RunSnoc([e1], e2);
    assert [e1] + [e2] == [e1, e2];
    RunSnoc([e1, e2], e3);
    assert [e1, e2] + [e3] == [e1, e2, e3];
    RunSnoc([e1, e2, e3], e4);
    assert [e1, e2, e3] + [e4] == [e1, e2, e3, e4];
    RunSnoc([e1, e2, e3, e4], e5);
    assert [e1, e2, e3, e4] + [e5] == [e1, e2, e3, e4, e5];
    RunSnoc([e1, e2, e3, e4, e5], e6);
    assert [e1, e2, e3, e4, e5] + [e6] == [e1, e2, e3, e4, e5, e6];
    RunSnoc([e1, e2, e3, e4, e5, e6], e7);
    assert [e1, e2, e3, e4, e5, e6] + [e7] == [e1, e2, e3, e4, e5, e6, e7];
  }

  /** All seven rules run in order on zero scores and empty lists: each score is the sum of the
      rules' additions. */
  function AllRules(input: DecisionInput, costs: PlanCosts): (t: Tally)
    ensures var r1, r2, r3, r4 := RelocationRule(input), TeamRule(input), EnglishRule(input), RiskRule(input);
            var r5, r6, r7 := BudgetRuleA(input, costs), BudgetRuleB(input, costs), ProfitRule(input);
            && t.scoreA == r1.addA + r2.addA + r3.addA + r4.addA + r5.addA + r6.addA + r7.addA
            && t.scoreB == r1.addB + r2.addB + r3.addB + r4.addB + r5.addB + r6.addB + r7.addB
  {
    RunOfSeven(RelocationRule(input), TeamRule(input), EnglishRule(input), RiskRule(input),
               BudgetRuleA(input, costs), BudgetRuleB(input, costs), ProfitRule(input));
    Run(Rules(input, costs))
  }

  /** Each list after all seven rules is the concatenation of the rules' messages, in rule order. */
  lemma AllRulesLists(input: DecisionInput, costs: PlanCosts)
    ensures var t := AllRules(input, costs);
            var r1, r2, r3, r4 := RelocationRule(input), TeamRule(input), EnglishRule(input), RiskRule(input);
            var r5, r6, r7 := BudgetRuleA(input, costs), BudgetRuleB(input, costs), ProfitRule(input);
            && t.reasons == Listed(r1.reason) + Listed(r2.reason) + Listed(r3.reason) + Listed(r4.reason)
                            + Listed(r5.reason) + Listed(r6.reason) + Listed(r7.reason)
            && t.warnings == Listed(r1.warning) + Listed(r2.warning) + Listed(r3.warning) + Listed(r4.warning)
                             + Listed(r5.warning) + Listed(r6.warning) + Listed(r7.warning)
            && t.actions == Listed(r1.action) + Listed(r2.action) + Listed(r3.action) + Listed(r4.action)
                            + Listed(r5.action) + Listed(r6.action) + Listed(r7.action)
  {
    var r1, r2, r3, r4 := RelocationRule(input), TeamRule(input), EnglishRule(input), RiskRule(input);
    var r5, r6, r7 := BudgetRuleA(input, costs), BudgetRuleB(input, costs), ProfitRule(input);
    RunOfSeven(r1, r2, r3, r4, r5, r6, r7);
    var t1 := Apply(Start, r1);
    var t2 := Apply(t1, r2);
    var t3 := Apply(t2, r3);
    var t4 := Apply(t3, r4);
    var t5 := Apply(t4, r5);
    var t6 := Apply(t5, r6);
    ApplyAppends(Start, r1);
    ApplyAppends(t1, r2);
    ApplyAppends(t2, r3);
    ApplyAppends(t3, r4);
    ApplyAppends(t4, r5);
    ApplyAppends(t5, r6);
    ApplyAppends(t6, r7);
    assert [] + Listed(r1.reason) == Listed(r1.reason);
    assert [] + Listed(r1.warning) == Listed(r1.warning);
    assert [] + Listed(r1.action) == Listed(r1.action);
  }


  /** The score of plan A after all rules. */
  function ScoreA(input: DecisionInput, costs: PlanCosts): int
  {
    AllRules(input, costs).scoreA
  }

  /** The score of plan B after all rules. */
  function ScoreB(input: DecisionInput, costs: PlanCosts): int
  {
    AllRules(input, costs).scoreB
  }

  /** Scores stay in range whatever the answers: 0..60 for A and 5..110 for B, so their sum is positive. */
  lemma ScoreBounds(input: DecisionInput, costs: PlanCosts)
    ensures 0 <= ScoreA(input, costs) <= 60
    ensures 5 <= ScoreB(input, costs) <= 110
    ensures ScoreA(input, costs) + ScoreB(input, costs) > 0
  {
  }

  /** The fixed four-step checklist appended for the recommended plan. */
  function Checklist(plan: PlanId): (items: seq<Message>)
    ensures |items| == 4
  {
    if plan == B then [SitIeltsByMarch2026, ApplyToEdUHKApril2026, PrepareVisaMayJune2026, HouseHuntJulyAugust2026]
    else [ConfirmEmployment, PrepareTalentDocuments, PlanTeamDelegation, SurveyRentalAreas]
  }

  /** Four pushes append the four items in order. */
  lemma PushFour(s: seq<Message>, a: Message, b: Message, c: Message, d: Message)
    ensures s + [a] + [b] + [c] + [d] == s + [a, b, c, d]
  {
  }

  /** `Math.max` on two integers. */
  function Max(a: int, b: int): (r: int)
    ensures r >= a && r >= b && (r == a || r == b)
  {
    if a >= b then a else b
  }

  /** The winner's share of a positive total lies between one half and one. */
  lemma ShareBounds(top: real, total: real)
    requires 0.0 < total <= 2.0 * top && top <= total
    ensures 0.5 <= top / total <= 1.0
    ensures total == 2.0 * top ==> top / total == 0.5
    ensures total == top ==> top / total == 1.0
  {
    var q := top / total;
    assert q * total == top;
  }

  /** The rounded share of the winning score in the total, as a percentage. */
  function Confidence(scoreA: int, scoreB: int): (c: int)
    requires scoreA >= 0 && scoreB >= 0 && scoreA + scoreB > 0
    ensures 50 <= c <= 100
    ensures scoreA == scoreB ==> c == 50
    ensures scoreA == 0 || scoreB == 0 ==> c == 100
  {
    var top := Max(scoreA, scoreB) as real;
    var total := (scoreA + scoreB) as real;
    ShareBounds(top, total);
    Round(top / total * 100.0)
  }

  /** The engine's result for given first-year totals, stated from the rule table. */
  function Outcome(input: DecisionInput, costs: PlanCosts): Result
  {
    var all := AllRules(input, costs);
    ScoreBounds(input, costs);
    var recommended: PlanId := if all.scoreB > all.scoreA then B else A;
    Result(recommended, Confidence(all.scoreA, all.scoreB), all.reasons, all.warnings, all.actions + Checklist(recommended))
  }

  /** The engine's result for a scenario and a questionnaire. */
  function Recommend(selection: UserSelection, input: DecisionInput): Result
  {
    Outcome(input, PlanCostsOf(selection))
  }

  /* ---------- the engine as the source runs it ---------- */

  /** Rule 1 as the source runs it on the accumulators. */
  method RelocationStep(input: DecisionInput, t: Tally) returns (u: Tally)
    ensures u == Apply(t, RelocationRule(input))
  {
    u := t;
    if !input.canHusbandLeave {
      u := u.(scoreB := u.scoreB + 30, reasons := u.reasons + [CannotRelocateFavoursB]);
    } else {
      u := u.(scoreA := u.scoreA + 15);
    }
  }

  /** Rule 2 as the source runs it on the accumulators. */
  method TeamStep(input: DecisionInput, t: Tally) returns (u: Tally)
    ensures u == Apply(t, TeamRule(input))
  {
    u := t;
    if input.hasReliableTeam {
      u := u.(scoreA := u.scoreA + 20, reasons := u.reasons + [ReliableTeamFavoursA]);
    } else {
      u := u.(scoreB := u.scoreB + 25, warnings := u.warnings + [NoReliableTeam]);
    }
  }

  /** Rule 3 as the source runs it on the accumulators. */
  method EnglishStep(input: DecisionInput, t: Tally) returns (u: Tally)
    ensures u == Apply(t, EnglishRule(input))
  {
    u := t;
    if input.wifeEnglishLevel == Advanced {
      u := u.(scoreB := u.scoreB + 25, reasons := u.reasons + [AdvancedEnglishFavoursB]);
    } else if input.wifeEnglishLevel == Intermediate {
      u := u.(scoreB := u.scoreB + 15, actions := u.actions + [PrepareIeltsTarget6]);
    } else {
      u := u.(scoreB := u.scoreB + 5, warnings := u.warnings + [BasicEnglish]);
      u := u.(actions := u.actions + [StartIeltsCourseNow]);
    }
  }

  /** Rule 4 as the source runs it on the accumulators. */
  method RiskStep(input: DecisionInput, t: Tally) returns (u: Tally)
    ensures u == Apply(t, RiskRule(input))
  {
    u := t;
    if input.riskTolerance == Low {
      u := u.(scoreB := u.scoreB + 20, reasons := u.reasons + [LowRiskToleranceFavoursB]);
    } else if input.riskTolerance == High {
      u := u.(scoreA := u.scoreA + 10);
    }
  }

  /** Rule 5 as the source runs it: twelve months of budget against each plan's first year. */
  method BudgetStep(input: DecisionInput, costs: PlanCosts, t: Tally) returns (u: Tally)
    ensures u == Apply(Apply(t, BudgetRuleA(input, costs)), BudgetRuleB(input, costs))
  {
    u := t;
    if input.monthlyBudget * 12.0 < costs.firstYearA {
      u := u.(warnings := u.warnings + [BudgetShortForA], scoreB := u.scoreB + 10);
    }
    if input.monthlyBudget * 12.0 < costs.firstYearB {
      u := u.(warnings := u.warnings + [BudgetShortForB]);
    }
  }

  /** Rule 6 as the source runs it on the accumulators. */
  method ProfitStep(input: DecisionInput, t: Tally) returns (u: Tally)
    ensures u == Apply(t, ProfitRule(input))
  {
    u := t;
    if input.annualProfit > 500000.0 {
      u := u.(scoreA := u.scoreA + 15, reasons := u.reasons + [HighProfitFavoursA]);
    }
  }

  /** The six rules as the source runs them, in order, on zero scores and empty lists. */
  method ScoreRules(input: DecisionInput, costs: PlanCosts) returns (t: Tally)
    ensures t == AllRules(input, costs)
  {
    t := Start;
    t := RelocationStep(input, t);
    t := TeamStep(input, t);
    t := EnglishStep(input, t);
    t := RiskStep(input, t);
    t := BudgetStep(input, costs, t);
    t := ProfitStep(input, t);
    RunOfSeven(RelocationRule(input), TeamRule(input), EnglishRule(input), RiskRule(input),
               BudgetRuleA(input, costs), BudgetRuleB(input, costs), ProfitRule(input));
  }

  /** The source's procedure once both first-year totals are known: run the rules in order on zero
      scores and empty lists, pick the plan (ties to A), compute the confidence and append the
      plan's checklist. */
  method Decide(input: DecisionInput, costs: PlanCosts) returns (r: Result)
    ensures r == Outcome(input, costs)
  {
    var t := ScoreRules(input, costs);
    ScoreBounds(input, costs);

    var recommended: PlanId := if t.scoreB > t.scoreA then B else A;
    var confidence := Confidence(t.scoreA, t.scoreB);

    var actionItems := t.actions;
    if recommended == B {
      actionItems := actionItems + [SitIeltsByMarch2026];
      actionItems := actionItems + [ApplyToEdUHKApril2026];
      actionItems := actionItems + [PrepareVisaMayJune2026];
      actionItems := actionItems + [HouseHuntJulyAugust2026];
      PushFour(t.actions, SitIeltsByMarch2026, ApplyToEdUHKApril2026, PrepareVisaMayJune2026, HouseHuntJulyAugust2026);
    } else {
      actionItems := actionItems + [ConfirmEmployment];
      actionItems := actionItems + [PrepareTalentDocuments];
      actionItems := actionItems + [PlanTeamDelegation];
      actionItems := actionItems + [SurveyRentalAreas];
      PushFour(t.actions, ConfirmEmployment, PrepareTalentDocuments, PlanTeamDelegation, SurveyRentalAreas);
    }

    r := Result(recommended, confidence, t.reasons, t.warnings, actionItems);
  }

  /** The source's procedure: cost the lifestyle under plan A and under plan B, then decide. */
  method GenerateRecommendation(selection: UserSelection, input: DecisionInput) returns (r: Result)
    ensures r == Recommend(selection, input)
  {
    var costs := PlanCostsOf(selection);
    r := Decide(input, costs);
  }

  /* ---------- properties of the engine ---------- */

  /** Plan B is recommended exactly when it scores strictly higher; ties go to A at 50%;
      the confidence is the winner's rounded share, between 50 and 100. */
  lemma RecommendationDecision(input: DecisionInput, costs: PlanCosts)
    ensures Outcome(input, costs).recommended == B <==> ScoreB(input, costs) > ScoreA(input, costs)
    ensures ScoreA(input, costs) == ScoreB(input, costs) ==>
              Outcome(input, costs).recommended == A && Outcome(input, costs).confidence == 50
    ensures Outcome(input, costs).confidence
            == Round(Max(ScoreA(input, costs), ScoreB(input, costs)) as real
                     / (ScoreA(input, costs) + ScoreB(input, costs)) as real * 100.0)
    ensures 50 <= Outcome(input, costs).confidence <= 100
  {
    ScoreBounds(input, costs);
  }

  /** The last four action items are the recommended plan's checklist, after every rule's items. */
  lemma ActionItemsEndWithChecklist(input: DecisionInput, costs: PlanCosts)
    ensures var r := Outcome(input, costs);
            && |r.actionItems| >= 4
            && r.actionItems[|r.actionItems| - 4..] == Checklist(r.recommended)
            && r.actionItems[..|r.actionItems| - 4] == AllRules(input, costs).actions
  {
    var r := Outcome(input, costs);
    var rules := AllRules(input, costs).actions;
    assert r.actionItems == rules + Checklist(r.recommended);
    assert r.actionItems[|rules|..] == Checklist(r.recommended);
    assert r.actionItems[..|rules|] == rules;
  }

  /** Whether twelve months of budget fall short of a scenario's first year under `plan`. */
  predicate BudgetShort(selection: UserSelection, input: DecisionInput, plan: PlanId)
  {
    input.monthlyBudget * 12.0 < FirstYearCost(selection.(plan := plan)).total
  }

  /** Each budget warning appears exactly when twelve months of budget fall short of that plan's
      first year; since plan B's first year costs more, the plan-A warning implies the plan-B one.
      Only the plan-A shortfall moves a score (B by 10). */
  lemma BudgetWarnings(selection: UserSelection, input: DecisionInput)
    ensures BudgetShortForA in Recommend(selection, input).warnings <==> BudgetShort(selection, input, A)
    ensures BudgetShortForB in Recommend(selection, input).warnings <==> BudgetShort(selection, input, B)
    ensures BudgetShortForA in Recommend(selection, input).warnings ==>
              BudgetShortForB in Recommend(selection, input).warnings
    ensures BudgetRuleA(input, PlanCostsOf(selection)).addA == 0
    ensures BudgetRuleA(input, PlanCostsOf(selection)).addB == if BudgetShort(selection, input, A) then 10 else 0
    ensures BudgetRuleB(input, PlanCostsOf(selection)).addA == 0 && BudgetRuleB(input, PlanCostsOf(selection)).addB == 0
  {
    var costs := PlanCostsOf(selection);
    AllRulesLists(input, costs);
    var w := Outcome(input, costs).warnings;
    var before := Listed(RelocationRule(input).warning) + Listed(TeamRule(input).warning)
                  + Listed(EnglishRule(input).warning) + Listed(RiskRule(input).warning);
    assert w == before + Listed(BudgetRuleA(input, costs).warning) + Listed(BudgetRuleB(input, costs).warning)
                + Listed(ProfitRule(input).warning);
    assert BudgetShortForA !in before && BudgetShortForB !in before;
  }

  /** A family where the husband cannot leave, with no team, basic English and low risk tolerance,
      is sent to plan B with full confidence, whatever the profit below 500000, budget and costs. */
  lemma ScenarioStayBehind(input: DecisionInput, costs: PlanCosts)
    requires !input.canHusbandLeave && !input.hasReliableTeam
    requires input.wifeEnglishLevel == Basic && input.riskTolerance == Low
    requires input.annualProfit <= 500000.0
    ensures ScoreA(input, costs) == 0
    ensures ScoreB(input, costs) == if input.monthlyBudget * 12.0 < costs.firstYearA then 90 else 80
    ensures Outcome(input, costs).recommended == B && Outcome(input, costs).confidence == 100
  {
  }

  /** A family that can relocate, with a team, basic English, high risk tolerance and a profit
      above 500000, is sent to plan A: 60 against 5 (confidence 92), or against 15 (confidence 80)
      when the budget falls short of plan A's first year. */
  lemma ScenarioRelocate(input: DecisionInput, costs: PlanCosts)
    requires input.canHusbandLeave && input.hasReliableTeam
    requires input.wifeEnglishLevel == Basic && input.riskTolerance == High
    requires input.annualProfit > 500000.0
    ensures ScoreA(input, costs) == 60
    ensures ScoreB(input, costs) == if input.monthlyBudget * 12.0 < costs.firstYearA then 15 else 5
    ensures Outcome(input, costs).recommended == A
    ensures Outcome(input, costs).confidence == if input.monthlyBudget * 12.0 < costs.firstYearA then 80 else 92
  {
    var r := Outcome(input, costs);
    if input.monthlyBudget * 12.0 < costs.firstYearA {
      assert r.confidence == Round(60.0 / 75.0 * 100.0);
    } else {
      assert r.confidence == Round(60.0 / 65.0 * 100.0);
    }
  }
}
