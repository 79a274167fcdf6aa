# Sea-power simulation core, in Dafny

This project models the simulation core of a small agent-based model of
maritime strategy. The model has three nations:

- a sea power (the UK);
- a land power (Germany);
- a trading power (the Netherlands).

Each nation holds wealth, industry, a merchant fleet and a navy. Every world
step runs three phases in order:

1. A scripted escalation: at step 15, if the land power's land security burden
   is below 0.1, it switches to a "Total War" economy.
2. A sea-control decision. If the strongest navy beats the runner-up by a ratio
   above 1.2, its owner takes exclusive sea control and every other nation is
   blockaded. Otherwise the sea is contested, and the two leading navies decay
   by 5%.
3. Each nation's own step: income, then investment, then maintenance.

Files:

- `nation.dfy` (module `Nation`): one nation. It holds the record, the three
  phases of its step and the dashboard valuation `TotalPower`.
- `ranking.dfy` (module `Ranking`): the first two places of a stable descending
  sort by navy, characterised directly. Ties go to the earlier nation.
- `sea_control.dfy` (module `SeaControl`): the sea-control decision and the
  sea-state label.
- `iteration.dfy` (module `Iteration`): repeated application of a step
  function, with generic lemmas about it.
- `world.dfy` (module `World`): the model of three nations, the world step,
  runs of several steps, and the first step's regression values.

Quantities are Dafny `real`s. Python's float floor division `x // d` is
modelled as the floor of the exact quotient. The nations' display colours
(`'blue'`, `'#8B4513'`, `'orange'`) are the `Archetype` values `SeaPower`,
`LandPower` and `TradePower`. The sea-state strings come back through
`SeaControl.Label`.

## Model

| member | source | states |
|---|---|---|
| `Nation.NewAgent` | st_seapower.py:30-41 | A new nation starts with wealth 500, industry 120, merchant fleet 50 and navy 20. Both sea flags are cleared. Id, name, strategy, archetype and burden are the ones given. |
| `Nation.TotalPower` | st_seapower.py:43-48 | The dashboard valuation. Without a blockade it is wealth + 5×industry + 15×navy + 2×merchant. With non-negative stocks it is never below wealth and never above that unblockaded valuation. |
| `Nation.TotalPowerBlockadeDiscount` | st_seapower.py:43-48 | A blockade lowers the valuation by exactly 1.8 per merchant ship, and nothing else. With non-negative stocks the valuation is never below wealth. |
| `Nation.MultiplierTable` | st_seapower.py:55-62 | The land power's industrial multiplier is 4.0 whether or not it is blockaded. A blockade cuts any other archetype's from 1.5 to 0.2. Sea control gives trade efficiency 2.0 even if a blockade flag were also set. Otherwise trade efficiency is 0.8, or 0.05 under blockade. |
| `Nation.IncomeOrderedBySeaPosition` | st_seapower.py:55-65 | Income is never negative for non-negative stocks. It is ordered by sea position: sea control ≥ contested ≥ blockaded. |
| `Nation.BlockadeCost` | st_seapower.py:55-65 | Without sea control, a blockade costs the land power only trade income: 1.5 per merchant ship. Any other archetype loses 1.3 per unit of industry on top of that. |
| `Nation.EconomicCycle` | st_seapower.py:55-65 | The income phase adds one step's income to wealth. With non-negative stocks wealth never falls. Identity, flags and stocks do not change. |
| `Nation.Units` | st_seapower.py:69-74 | The units of a stock one investment buys are never negative when wealth and weight are non-negative and the burden is at most 1. |
| `Nation.FloorDiv` | st_seapower.py:72-74 | Floor division gives the largest whole number not above the exact quotient. |
| `Nation.Invest` | st_seapower.py:67-74 | At or below wealth 10 nothing changes. Above it, wealth keeps 60%. Each stock grows by the whole number of units its share of the burden-taxed 40% budget buys at cost 40, 8 or 15: not more than the exact quotient and less than one unit below it. A healthy nation stays healthy, and none of its stocks shrinks. |
| `Nation.PayMaintenance` | st_seapower.py:76-79 | Wealth pays navy×0.8 + merchant×0.2. If it cannot cover that, it becomes exactly 0. Wealth never ends negative, and nothing but wealth changes. |
| `Nation.Step` | st_seapower.py:50-53 | After a nation's step its wealth is non-negative, whatever it was before. Identity and sea flags do not change. A healthy nation stays healthy, and none of its stocks shrinks. |
| `Nation.StepNavy` | st_seapower.py:50-53 | Investment adds to the navy the step starts with. At or below the subsistence floor after income, no stock moves. Above it, the navy grows by exactly the units its share of the budget from the post-income wealth buys at 15 each. |
| `Nation.StepUpkeep` | st_seapower.py:50-53 | Upkeep is charged on the fleets as they stand after investment. It comes out of 60% of the post-income wealth above the subsistence floor, or all of it at or below. Wealth is floored at 0. |
| `Ranking.Best` | st_seapower.py:118-120 | Among the first n positions, other than one skipped position, it finds the earliest position holding a maximal key. It is absent exactly when there is no candidate. |
| `Ranking.First` | st_seapower.py:118-119 | Place 0 of the stable descending sort is the earliest position of a maximal navy. |
| `Ranking.Second` | st_seapower.py:118-120 | Place 1 is the earliest maximal position among the rest. It differs from place 0, and its navy is no larger. |
| `Ranking.TopTwoUnique` | st_seapower.py:118-120 | The two places are determined by that characterisation: any pair of positions meeting it is the pair returned. |
| `Ranking.TiesKeepOrder` | st_seapower.py:118-120 | If all navies are equal, the stable sort keeps the original order: places 0 and 1 are positions 0 and 1. |
| `SeaControl.Label` | st_seapower.py:127-133 | The contested state's label is exactly "Contested", and no other state's is. A dominated state's label is the leader's colour name (blue, red, orange) followed by "_domination". |
| `SeaControl.LabelInjective` | st_seapower.py:127-133 | Distinct sea states have distinct labels, so the datatype carries exactly the information the label strings do. |
| `SeaControl.DominatedIffMargin` | st_seapower.py:121-125 | The ratio exceeds 1.2 exactly when the strongest navy exceeds 1.2 times max(1, runner-up). |
| `SeaControl.DetermineSeaControl` | st_seapower.py:116-135 | Sea control ends exclusive: at most one holder, the holder is not blockaded, and every other nation is. No id, name, strategy, burden, wealth, industry or merchant fleet changes. |
| `SeaControl.DecisionOutcome` | st_seapower.py:116-135 | When the leader's ratio exceeds 1.2, the leader holds control, the label names its archetype, and no navy changes. Otherwise the sea is contested, no nation is flagged, the leader's and runner-up's navies are multiplied by 0.95, and every other navy is unchanged. |
| `SeaControl.DecisionRecords` | st_seapower.py:123-135 | Each nation's whole record after the decision. Under domination the leader holds control, everyone else is blockaded, and nothing else changes. In a contested sea every flag is lowered and only the two leading navies change, by the 5% decay. |
| `SeaControl.OutcomeDichotomy` | st_seapower.py:125-135 | Exactly one of two things holds. Either the sea is contested with no flags, or one nation with a maximal navy holds control and the label names its archetype. |
| `SeaControl.DecisionIgnoresOldFlags` | st_seapower.py:123 | The decision is memoryless. Rosters that differ only in their sea flags produce the same outcome. |
| `SeaControl.DecisionKeepsHealth` | st_seapower.py:125-135 | The decision keeps every nation healthy. No navy drops below 0.95 of its previous value. |
| `World.NewModel` | st_seapower.py:82-100 | A new model has the roster ids 1, 2, 3 with sea, land and trading archetypes, and the burdens given. The trading power's burden is 0.1. All stocks are at the starting values, the counter is 0, the sea is contested, no flags are set and there is no status message. The nations are named "UK (Sea)", "Germany (Land)" and "Netherlands", with navy/merchant/industry weights (0.6, 0.3, 0.1), (0.3, 0.2, 0.5) and (0.1, 0.8, 0.1). |
| `World.Escalate` | st_seapower.py:105-110 | When the counter is 15 and the land power's burden is below 0.1, the escalation sets the land power's strategy to navy 0.8 / merchant 0 / industry 0.2 and its name to "Germany (Total War)", and sets the warning message. Nothing else changes. Otherwise nothing changes at all. |
| `World.Step` | st_seapower.py:104-114 | The counter advances by exactly one. The other properties of a world step are stated by the `World.Step…` lemmas below and the `World.Run…` lemmas. |
| `World.StepOutcome` | st_seapower.py:104-135 | Each nation's record after a world step, in phase order. Under domination, the leader's own step runs with sea control and every other nation's runs blockaded. In a contested sea, every nation steps with both flags lowered, and the two leading navies are decayed before their own step. |
| `World.ContestedNavyDecaysBeforeInvestment` | st_seapower.py:112-113 | In a contested step, each leading nation's navy ends at 0.95× its old value plus the units it invests. The investment is computed from the wealth after an unflagged income. |
| `World.StepSettles` | st_seapower.py:112-113 | After any world step sea control is exclusive and no wealth is negative, whatever the state before. |
| `World.StepKeepsRoster` | st_seapower.py:104-113 | A world step keeps ids, archetypes and burdens. Strategy and name change only for the land power, and only when the escalation fires. |
| `World.StepMonotone` | st_seapower.py:104-113 | In a healthy model, no industry or merchant fleet shrinks in a world step, and no navy drops below 95% of its value. The model stays healthy. |
| `World.ActivationOrderIrrelevant` | st_seapower.py:113 | Stepping the nations one at a time gives the same roster for any order that visits each exactly once. The random activation order therefore has no effect. |
| `World.ActivateDistinct` | st_seapower.py:113 | Activating distinct positions in any order steps exactly those nations, each from its own state, and leaves the others alone. |
| `World.RunAdditive` | st_seapower.py:104-114 | n world steps followed by k more equal n + k steps: nothing outside the model carries over between steps. |
| `World.RunSteps` | st_seapower.py:105 | After n world steps, the counter has advanced by exactly n. |
| `World.RunKeepsBurdens` | st_seapower.py:104-113 | No number of steps changes any nation's land security burden. |
| `World.RunKeepsRoster` | st_seapower.py:89-113 | Ids and archetypes hold throughout a run. |
| `World.RunKeepsHealth` | st_seapower.py:104-113 | A run that starts healthy stays healthy. |
| `World.RunSettles` | st_seapower.py:112-113 | After every positive number of steps, sea control is exclusive and no wealth is negative. |
| `World.EscalationAtMostOnce` | st_seapower.py:105-110 | The escalation fires at most once in a run, however long the burden stays below the threshold. |
| `World.EscalationSchedule` | st_seapower.py:105-110 | From a new model, the escalation fires on the world step whose counter reads 15 exactly when the land power's burden is below 0.1, and on no other step. |
| `World.FirstDecisionContested` | st_seapower.py:116-135 | In a new model all navies are equal, so the sea is contested. The sea and land powers' navies decay to 19, and the trading power's stays at 20. |
| `World.FirstStepFixture` | st_seapower.py:36-135 | With the default burdens (land 0.5, sea 0.05), the first world step gives these results. UK: wealth 420, industry 120, merchant fleet 60, navy 30, power 1590. Germany: 606.6, 122, 55, 23, power 1671.6. Netherlands: 423.8, 120, 77, 21, power 1492.8. The sea is contested. |

## Left out

- The Streamlit dashboard (st_seapower.py:13-21 and everything after line 136) is presentation only and is not part of this model. That includes the sliders, charts, map and narrative text.
- The grid placement (st_seapower.py:83, 90, 95, 99) is left out: no rule reads it.
- The data collector (st_seapower.py:102, 114) is left out: it only records `total_power` and `navy`. `Nation.TotalPower` models the recorded valuation.
- The `running` flag (st_seapower.py:85) is left out: nothing in the core reads it.
- The random activation order of the nations' own steps is not modelled as randomness. Each nation's step reads and writes only its own record. `World.ActivationOrderIrrelevant` proves that every order gives the same result, so the model steps them in construction order.
- Ties in the ranking are broken in construction order (UK, Germany, Netherlands). That is the order the scheduler holds the nations in when they are added. A scheduler that reorders its agent collection in place when it shuffles could break an exact navy tie in a later step differently. The model does not represent that.
- The lookup of the land power by id 2 (st_seapower.py:106) is a named `germany` field of the model. `World.RunKeepsRoster` proves that the nation in that field keeps id 2 and the land-power archetype throughout.
- Binary floating-point rounding is not modelled: quantities are exact reals. Python's float floor division is modelled as the floor of the exact quotient.
- `World.Step` itself only states that the counter advances by one. Its other properties are stated by the `World.Step…` lemmas and the `World.Run…` lemmas in the table, which keeps each proof small.
