# Hong Kong immigration planner: cost projector and recommendation engine

A Dafny model of the computational core of the planner, a decision aid for one family choosing
between two routes to Hong Kong residence: plan A, an admission scheme for talent, and plan B,
a study route. The planner has two engines. Both read static lookup tables.

- **Cost projector.** The two lookups are area to monthly rent and food mode to monthly food spend.
  Three costs follow from them:
  - the annual school fees of each child, plus the tutoring and extracurricular sessions booked;
  - the annual medical premium;
  - a monthly breakdown over seven components.
  From the breakdown come the first-year cost (the plan's one-time costs plus twelve months of
  living) and a seven-year projection. The projection compounds living costs at 3% a year from
  year 2 and rounds to the nearest HKD.
- **Recommendation engine.** The relocation, team, English, risk, budget and profit rules each
  add to integer scores for A and B. They also append tagged messages to three ordered lists:
  reasons, warnings and action items. The higher score wins and a tie goes to A. The confidence
  is the winner's rounded share of the total, and the recommended plan's four-step checklist is
  appended to the action items.

Modules:
- `Types`: the enumerations and records (`src/types/index.ts`).
- `Constants`: the numeric part of the cost and plan tables, as lookup functions.
- `CostProjector` and `Recommendation`: the two engines of `src/utils/calculations.ts`.

Each engine's imperative code is a method proved against a specification function:
- `ChildEducationCost` against `AnnualEducationCost`;
- `SevenYearCost`, a `for` loop with its invariants, against `SevenYearTotal`;
- `GenerateRecommendation` against `Recommend`.

The lemmas prove the promised properties about those functions. For the recommendation engine,
the specification is a rule table, built in three steps:
- each rule is an `Effect`: what it adds to each score and the message, if any, it appends to
  each list;
- `Run` folds the effects over a `Tally` of accumulators;
- `AllRules` runs them in source order.

The method runs the rules in the source's order and with the source's branches, one step
method per rule. Each step updates one `Tally` record holding the two scores and the three
lists. The method is proved equal to the rule table.

Where the code and its documented intent differ, the model follows the code:
- A plan value other than `'A'`, including `'mixed'`, is costed with plan B's figures. It is not
  rejected (`CostedPlan`, `PlanBFirstYearPremium`).
- A zero total score cannot occur. Every English level scores at least 5 for B, so the
  confidence division is always defined (`ScoreBounds`).
- Weekly session counts are not validated. Any integer is accepted, and the properties that need
  non-negative counts say so (`NonNegativeCounts`).
- The insurance count is read as the number of children insured beside the two parents. The
  premium is 8000 + 3000 per child (`MonthlyCost`). The calculator's selector labels its two values
  as numbers of people covered: 2 for the two children and 4 for the whole family. Its
  whole-family choice is therefore charged 20000 a year, as for two adults and four children.

## Model

| member | source | states |
|---|---|---|
| Constants.HousingCosts | src/data/constants.ts:4-26 | the rent table: every area's representative figure is the midpoint strictly inside its range, and at least 15000 |
| Constants.FoodCosts | src/data/constants.ts:29-51 | the food table: every mode's representative figure is the midpoint strictly inside its range, and at least 10000 |
| Constants.SchoolCosts | src/data/constants.ts:54-83 | fees are non-negative, government tuition is 0, and international is the only school type not prepared for the local diploma |
| Constants.OtherCosts | src/data/constants.ts:86-93 | transport, utilities and sundries have their midpoint as representative figure; session prices and premiums are positive |
| Constants.PlanOptions | src/data/constants.ts:209-281 | each descriptor carries its own id; success rate is a percentage; all six risk scores lie in 1..10; only plan B has tuition and an exam fee; visa and relocation costs are positive |
| Constants.SuccessRatesOrdered | src/data/constants.ts:215-249 | plan A succeeds 75% and plan B 95% of the time, so B is the likelier |
| CostProjector.Round | src/utils/calculations.ts:144 | rounding to the nearest integer lands within one half of the argument, halves going up |
| CostProjector.RoundShift | src/utils/calculations.ts:144 | rounding commutes with adding a whole number |
| CostProjector.HousingCost | src/utils/calculations.ts:17-19 | the monthly rent is the area's representative figure, strictly between the range's bounds and so never a bound |
| CostProjector.FoodCost | src/utils/calculations.ts:22-24 | the monthly food spend is the mode's representative figure, strictly between the range's bounds |
| CostProjector.ChildEducationCost | src/utils/calculations.ts:27-41 | the step-by-step total equals tuition + extras + 16000 per weekly tutoring slot + 12000 per weekly extracurricular slot, each only when booked |
| CostProjector.EducationCostIgnoresUnbookedCounts | src/utils/calculations.ts:31-38 | changing a count whose activity is not booked leaves the cost unchanged |
| CostProjector.EducationCostMonotone | src/utils/calculations.ts:31-38 | with an activity booked, raising its count, whatever the other count, adds exactly 40 sessions per extra slot at the unit price, so the cost never falls in either count |
| CostProjector.InsuranceCost | src/utils/calculations.ts:44-46 | the annual premium is 4000 per adult plus 3000 per child, non-negative for non-negative counts |
| CostProjector.MonthlyCost | src/utils/calculations.ts:49-87 | the total is the exact sum of the seven components; education is a twelfth of both children's annual costs; insurance is 0 when not included and a twelfth of 8000 + 3000 per child otherwise; the fixed components are 2500, 2000 and 4000 |
| CostProjector.CostedPlan | src/utils/calculations.ts:103 | plan A's figures are used exactly when the selection is `'A'`; anything else, also `'mixed'`, is costed as B |
| CostProjector.FirstYearCost | src/utils/calculations.ts:90-128 | total = one-time costs + 12 × monthly; the breakdown's living figure is the yearly one; one-time is the sum of its four components, 35000 for plan A and 156000 otherwise; plan A's missing tuition and exam count as 0 |
| CostProjector.PlanBFirstYearPremium | src/utils/calculations.ts:103-113 | for the same lifestyle, plan B's first year costs exactly 121000 more than plan A's, and `'mixed'` costs the same as B |
| CostProjector.SevenYearCost | src/utils/calculations.ts:131-145 | the loop returns round(first-year total + Σ_{k=1..6} 12·monthly·1.03^k) |
| CostProjector.PowAtLeastOne | src/utils/calculations.ts:140 | compounding at 3% never shrinks a year's base |
| CostProjector.GrowthSumAtLeast | src/utils/calculations.ts:139-142 | the six later years together cost at least six uncompounded years of living |
| CostProjector.GrowthSumLinear | src/utils/calculations.ts:137-142 | over any number of later years, their living costs are the first year's living base times the sum of the growth factors, so they scale linearly with the base |
| CostProjector.SevenYearAtLeastFirstYear | src/utils/calculations.ts:131-145 | for non-negative counts, the projection is at least the first-year total, and at least that plus six years of uncompounded living (less a half for rounding) |
| CostProjector.SevenYearPlanDifference | src/utils/calculations.ts:131-145 | one-time costs are counted once: plan B's seven-year total exceeds plan A's by exactly 121000 |
| Recommendation.PlanCostsOf | src/utils/calculations.ts:205-206 | the budget rules compare against the same lifestyle costed under plan A and under plan B, and B's total is A's plus 121000 |
| Recommendation.ApplyAppends | src/utils/calculations.ts:169-220 | a rule appends its messages at the ends of the lists, leaving the earlier entries in place |
| Recommendation.AllRules | src/utils/calculations.ts:158-221 | after all rules, each score is the sum of what each rule adds to it |
| Recommendation.AllRulesLists | src/utils/calculations.ts:158-221 | after all rules, each list holds the rules' messages in rule order and nothing else |
| Recommendation.ScoreBounds | src/utils/calculations.ts:158-225 | whatever the answers, scoreA lies in 0..60 and scoreB in 5..110, so the total score is positive |
| Recommendation.Checklist | src/utils/calculations.ts:229-239 | each plan's closing checklist has four items |
| Recommendation.Max | src/utils/calculations.ts:226 | the maximum of two scores is one of them and at least both |
| Recommendation.Confidence | src/utils/calculations.ts:225-226 | the confidence lies in 50..100; it is 50 on a tie and 100 when one score is 0 |
| Recommendation.RelocationStep | src/utils/calculations.ts:167-172 | the relocation rule as coded applies its table effect: +30 for B and a reason if the husband cannot leave, otherwise +15 for A |
| Recommendation.TeamStep | src/utils/calculations.ts:175-181 | the team rule as coded applies its table effect: +20 for A and a reason with a team, otherwise +25 for B and a warning |
| Recommendation.EnglishStep | src/utils/calculations.ts:184-194 | the English rule as coded applies its table effect: B gains 25, 15 or 5 by level, with a reason, one action, or a warning and an action |
| Recommendation.RiskStep | src/utils/calculations.ts:197-202 | the risk rule as coded applies its table effect: low tolerance +20 for B with a reason, high +10 for A, medium nothing |
| Recommendation.BudgetStep | src/utils/calculations.ts:208-215 | the budget checks as coded apply both halves of the budget rule in order |
| Recommendation.ProfitStep | src/utils/calculations.ts:218-221 | the profit rule as coded applies its table effect: +15 for A and a reason above 500000 |
| Recommendation.ScoreRules | src/utils/calculations.ts:158-221 | running the coded rules in order from zero scores and empty lists yields exactly the rule table's tally |
| Recommendation.Decide | src/utils/calculations.ts:158-247 | the coded engine on given first-year totals returns the rule table's outcome |
| Recommendation.GenerateRecommendation | src/utils/calculations.ts:148-248 | the whole procedure, costing included, returns the specified recommendation for the scenario and answers |
| Recommendation.RecommendationDecision | src/utils/calculations.ts:224-226 | B is recommended if and only if scoreB > scoreA; a tie recommends A at 50%; the confidence is round(max/total × 100), within 50..100 |
| Recommendation.ActionItemsEndWithChecklist | src/utils/calculations.ts:228-239 | the last four action items are the recommended plan's checklist, and everything before them is the rules' action items |
| Recommendation.BudgetWarnings | src/utils/calculations.ts:205-215 | each budget warning is present if and only if twelve months of budget fall short of that plan's first year; the A warning implies the B warning; only the A shortfall changes a score, B's by 10 |
| Recommendation.ScenarioStayBehind | src/utils/calculations.ts:158-226 | husband cannot leave, no team, basic English, low risk tolerance and profit at most 500000: A scores 0, B 80 or 90, and B is recommended at 100% |
| Recommendation.ScenarioRelocate | src/utils/calculations.ts:158-226 | husband can leave, a team, basic English, high risk tolerance and profit above 500000: 60 against 5 (92%) or 15 (80%), and A is recommended |

## Left out

- The React components (calculator, tools, comparison, risk and timeline views, application shell): rendering, form state and charts, with no computation beyond display.
- `formatCurrency`: it depends on the foreign `Intl.NumberFormat` library.
- `hkdToRmb` and the exchange-rate record: display only.
- Names, descriptions, timelines, pros and cons, and the university and school lists in the constants: no calculation reads them.
- The study-duration field of the selection: no calculation reads it.
- Message texts: each message is a tag of `Message` with its meaning in a comment. Only which messages appear, and in what order, is modelled.
- IEEE-754 arithmetic: money is exact `real`. So the model has no binary rounding of the `/ 12` and `× 12` conversions, the `× 1.03` growth or the additions. `Math.round` is Floor(x + 1/2), its meaning for every finite number.
- Parsed inputs as JavaScript numbers: session and insurance counts are integers, and annual profit and monthly budget are exact reals. Values that are not integers are not modelled. Neither is the NaN a failed parse yields: every comparison with NaN is false, so a NaN budget or profit would silently switch off the budget or profit rule.
- CostProjector.SevenYearCost: the source's `Math.round` of a float is stated on the exact real value, so it may differ from the coded result by the float error of every division, multiplication and addition before it.
- Recommendation.GenerateRecommendation: in the source, the rules update five local accumulators. In the model they update one `Tally` record, one step method per rule, which keeps each proof obligation small. The budget rule's two checks are one step, and the order of updates is the source's.
- Enumerations outside their domains: the types make an unknown area, food mode, school type, English level or risk tolerance unrepresentable, so no failure path exists for them.
