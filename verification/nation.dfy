/**
 One nation of the simulation and its per-step update rule: income, then
 investment, then maintenance.

 Quantities are reals; the simulation's floor division of floats is the floor of the
 exact quotient, and binary floating-point rounding is not modelled.
 */
module Nation {

  /** The three fixed nation profiles. The simulation tells them apart by their
      display colour: 'blue', '#8B4513' and 'orange'. */
  datatype Archetype = SeaPower | LandPower | TradePower

  /** Investment weights for the three stocks. */
  datatype Strategy = Strategy(navy: real, merchant: real, industry: real)

  datatype Agent = Agent(
    id: nat,
    name: string,
    archetype: Archetype,
    strategy: Strategy,
    burden: real,        // land security burden: share of the investment budget lost
    wealth: real,
    industry: real,
    merchant: real,      // merchant fleet
    navy: real,
    hasSeaControl: bool,
    isBlockaded: bool
  )

  /** Wealth below or at this level is the subsistence floor: nothing is invested. */
  const SubsistenceFloor: real := 10.0
  /** Share of wealth set aside as the investment budget. */
  const BudgetShare: real := 0.4
  /** Build costs per unit of industry, merchant tonnage and naval tonnage. */
  const IndustryCost: real := 40.0
  const MerchantCost: real := 8.0
  const NavyCost: real := 15.0

  /** A freshly constructed nation: every nation starts from the same stocks and
      with both sea flags cleared. */
  function NewAgent(id: nat, name: string, strategy: Strategy, archetype: Archetype, burden: real): (a: Agent)
    ensures a.wealth == 500.0 && a.industry == 120.0 && a.merchant == 50.0 && a.navy == 20.0
    ensures !a.hasSeaControl && !a.isBlockaded
    ensures a.id == id && a.name == name && a.strategy == strategy
    ensures a.archetype == archetype && a.burden == burden
  {
    Agent(id, name, archetype, strategy, burden, 500.0, 120.0, 50.0, 20.0, false, false)
  }

  /** The parts of a nation that its own step never touches. */
  predicate SameIdentity(a: Agent, b: Agent)
  {
    && a.id == b.id && a.name == b.name && a.archetype == b.archetype
    && a.strategy == b.strategy && a.burden == b.burden
  }

  predicate SameFlags(a: Agent, b: Agent)
  {
    a.hasSeaControl == b.hasSeaControl && a.isBlockaded == b.isBlockaded
  }

  predicate SameStocks(a: Agent, b: Agent)
  {
    a.industry == b.industry && a.merchant == b.merchant && a.navy == b.navy
  }

  /** The ranges the boundary keeps the inputs in, and that the rules keep the
      stocks in: burden a fraction, weights non-negative, stocks non-negative. */
  predicate Healthy(a: Agent)
  {
    && 0.0 <= a.burden <= 1.0
    && a.strategy.navy >= 0.0 && a.strategy.merchant >= 0.0 && a.strategy.industry >= 0.0
    && a.industry >= 0.0 && a.merchant >= 0.0 && a.navy >= 0.0
  }

  predicate IsWhole(x: real)
  {
    x.Floor as real == x
  }

  /** Floor division of reals: the largest whole number not above x / d. */
  function FloorDiv(x: real, d: real): (q: real)
    requires d > 0.0
    ensures IsWhole(q)
    ensures q <= x / d < q + 1.0
  {
    (x / d).Floor as real
  }

  /** Valuation used by the dashboard: wealth plus the asset value of the stocks,
      where a merchant ship is worth 2.0, or 0.2 under blockade. With
      non-negative stocks it lies between wealth and the unblockaded valuation,
      and a blockade only ever lowers it. */
  function TotalPower(a: Agent): (p: real)
    ensures a.industry >= 0.0 && a.navy >= 0.0 && a.merchant >= 0.0 ==>
      a.wealth <= p <= a.wealth + a.industry * 5.0 + a.navy * 15.0 + a.merchant * 2.0
    ensures !a.isBlockaded ==> p == a.wealth + a.industry * 5.0 + a.navy * 15.0 + a.merchant * 2.0
  {
    var shipValue := if a.isBlockaded then 0.2 else 2.0;
    a.wealth + (a.industry * 5.0 + a.navy * 15.0 + a.merchant * shipValue)
  }

  /** A blockade discounts exactly the merchant fleet, by 1.8 per ship; and with
      non-negative stocks the valuation never falls below wealth. */
  lemma TotalPowerBlockadeDiscount(a: Agent)
    ensures TotalPower(a.(isBlockaded := true)) == TotalPower(a.(isBlockaded := false)) - 1.8 * a.merchant
    ensures a.industry >= 0.0 && a.navy >= 0.0 && a.merchant >= 0.0 ==> TotalPower(a) >= a.wealth
  {
  }

  // ---------------------------------------------------------------------
  // Income

  /** Industrial output per unit of industry: the land power's industry is
      insulated from blockade; every other archetype's collapses under one. */
  function IndustrialMultiplier(archetype: Archetype, blockaded: bool): real
  {
    if archetype == LandPower then 4.0
    else if blockaded then 0.2
    else 1.5
  }

  /** Trade income per unit of merchant capacity: sea control beats the
      contested baseline, which beats a blockade; sea control takes precedence. */
  function TradeEfficiency(hasSeaControl: bool, blockaded: bool): real
  {
    if hasSeaControl then 2.0
    else if blockaded then 0.05
    else 0.8
  }

  /** The land power's multiplier is 4.0 whether or not it is blockaded; a
      blockade cuts any other archetype's from 1.5 to 0.2. Sea control gives
      trade efficiency 2.0 even if a blockade flag were also set; otherwise a
      blockade cuts it from the contested 0.8 to 0.05. */
  lemma MultiplierTable(archetype: Archetype, blockaded: bool)
    ensures IndustrialMultiplier(LandPower, blockaded) == IndustrialMultiplier(LandPower, !blockaded) == 4.0
    ensures archetype != LandPower ==>
      IndustrialMultiplier(archetype, true) == 0.2 && IndustrialMultiplier(archetype, false) == 1.5
    ensures TradeEfficiency(true, blockaded) == 2.0
    ensures TradeEfficiency(false, true) == 0.05 && TradeEfficiency(false, false) == 0.8
  {
  }

  /** One step's income: industrial output plus trade. */
  function Income(a: Agent): real
  {
    a.industry * IndustrialMultiplier(a.archetype, a.isBlockaded)
      + a.merchant * 2.0 * TradeEfficiency(a.hasSeaControl, a.isBlockaded)
  }

  /** Income is never negative for non-negative stocks, and is ordered by sea
      position: sea control, then contested, then blockaded. */
  lemma IncomeOrderedBySeaPosition(a: Agent)
    requires a.industry >= 0.0 && a.merchant >= 0.0
    ensures Income(a) >= 0.0
    ensures Income(a.(hasSeaControl := true, isBlockaded := false))
            >= Income(a.(hasSeaControl := false, isBlockaded := false))
            >= Income(a.(hasSeaControl := false, isBlockaded := true))
  {
  }

  /** The land power's industrial income does not depend on blockade: for it a
      blockade costs only trade income, 1.5 per merchant ship, while any other
      archetype also loses 1.3 per unit of industry. */
  lemma BlockadeCost(a: Agent)
    requires !a.hasSeaControl
    ensures a.archetype == LandPower ==>
      Income(a.(isBlockaded := false)) - Income(a.(isBlockaded := true)) == 1.5 * a.merchant
    ensures a.archetype != LandPower ==>
      Income(a.(isBlockaded := false)) - Income(a.(isBlockaded := true)) == 1.3 * a.industry + 1.5 * a.merchant
  {
  }

  /** Income phase: wealth grows by the step's income and nothing else changes. */
  function EconomicCycle(a: Agent): (r: Agent)
    ensures SameIdentity(r, a) && SameFlags(r, a) && SameStocks(r, a)
    ensures r.wealth - a.wealth == Income(a)
    ensures a.industry >= 0.0 && a.merchant >= 0.0 ==> r.wealth >= a.wealth
  {
    a.(wealth := a.wealth + Income(a))
  }

  // ---------------------------------------------------------------------
  // Investment

  /** Whole units of a stock that the investment budget of `wealth` buys: the
      share `weight` of the burden-taxed 40% budget, floored at `cost` per unit.
      Never negative for a non-negative budget and weight. */
  function Units(wealth: real, burden: real, weight: real, cost: real): (u: real)
    requires cost > 0.0
    ensures wealth >= 0.0 && burden <= 1.0 && weight >= 0.0 ==> u >= 0.0
  {
    var net := wealth * BudgetShare * (1.0 - burden);
    NonNegativeShare(net, weight, cost);
    FloorDiv(net * weight, cost)
  }

  /** Investment phase. At or below the subsistence floor nothing happens.
      Above it, 40% of wealth is set aside; the burden taxes that budget, and
      each stock grows by the whole number of units its weighted share buys. */
  function Invest(a: Agent): (r: Agent)
    ensures a.wealth <= SubsistenceFloor ==> r == a
    ensures SameIdentity(r, a) && SameFlags(r, a)
    ensures a.wealth > SubsistenceFloor ==>
      var net := BudgetShare * a.wealth * (1.0 - a.burden);
      && r.wealth == 0.6 * a.wealth
      && IsWhole(r.industry - a.industry)
      && r.industry - a.industry <= net * a.strategy.industry / IndustryCost < r.industry - a.industry + 1.0
      && IsWhole(r.merchant - a.merchant)
      && r.merchant - a.merchant <= net * a.strategy.merchant / MerchantCost < r.merchant - a.merchant + 1.0
      && IsWhole(r.navy - a.navy)
      && r.navy - a.navy <= net * a.strategy.navy / NavyCost < r.navy - a.navy + 1.0
    ensures Healthy(a) ==> Healthy(r)
    ensures Healthy(a) ==> r.industry >= a.industry && r.merchant >= a.merchant && r.navy >= a.navy
  {
    if a.wealth <= SubsistenceFloor then a
    else
      var budget := a.wealth * BudgetShare;
      a.(wealth := a.wealth - budget,
         industry := a.industry + Units(a.wealth, a.burden, a.strategy.industry, IndustryCost),
         merchant := a.merchant + Units(a.wealth, a.burden, a.strategy.merchant, MerchantCost),
         navy := a.navy + Units(a.wealth, a.burden, a.strategy.navy, NavyCost))
  }

  lemma NonNegativeShare(net: real, weight: real, cost: real)
    requires cost > 0.0
    ensures net >= 0.0 && weight >= 0.0 ==> FloorDiv(net * weight, cost) >= 0.0
  {
    if net >= 0.0 && weight >= 0.0 {
      assert net * weight >= 0.0;
      assert (net * weight) / cost >= 0.0;
    }
  }

  // ---------------------------------------------------------------------
  // Maintenance

  /** Standing upkeep of the fleets. */
  function Upkeep(a: Agent): real
  {
    a.navy * 0.8 + a.merchant * 0.2
  }

  /** Maintenance phase: upkeep is paid out of wealth, and wealth that would go
      negative is set to zero instead. */
  function PayMaintenance(a: Agent): (r: Agent)
    ensures r.wealth >= 0.0
    ensures SameIdentity(r, a) && SameFlags(r, a) && SameStocks(r, a)
    ensures a.wealth >= Upkeep(a) ==> r.wealth == a.wealth - Upkeep(a)
    ensures a.wealth < Upkeep(a) ==> r.wealth == 0.0
  {
    var w := a.wealth - Upkeep(a);
    a.(wealth := if w < 0.0 then 0.0 else w)
  }

  // ---------------------------------------------------------------------
  // The whole agent step

  /** One agent step: income, then investment, then maintenance. Wealth ends
      non-negative whatever it was; identity and sea flags are untouched; for a
      healthy nation no stock shrinks. */
  function Step(a: Agent): (r: Agent)
    ensures r.wealth >= 0.0
    ensures SameIdentity(r, a) && SameFlags(r, a)
    ensures Healthy(a) ==> Healthy(r)
    ensures Healthy(a) ==> r.industry >= a.industry && r.merchant >= a.merchant && r.navy >= a.navy
  {
    PayMaintenance(Invest(EconomicCycle(a)))
  }

  /** The order of the phases, as values: investment adds its whole units to
      the navy the step starts with, out of the wealth after income. */
  lemma StepNavy(a: Agent)
    ensures var w := EconomicCycle(a).wealth;
      && (w <= SubsistenceFloor ==>
            Step(a).navy == a.navy && Step(a).merchant == a.merchant && Step(a).industry == a.industry)
      && (w > SubsistenceFloor ==> Step(a).navy == a.navy + Units(w, a.burden, a.strategy.navy, NavyCost))
  {
    var e := EconomicCycle(a);
    assert SameStocks(Step(a), Invest(e));
    if e.wealth > SubsistenceFloor {
      InvestedNavy(e);
    }
  }

  lemma InvestedNavy(a: Agent)
    requires a.wealth > SubsistenceFloor
    ensures Invest(a).navy == a.navy + Units(a.wealth, a.burden, a.strategy.navy, NavyCost)
  {
  }

  /** Upkeep is charged on the fleets as they stand after investment, out of
      the wealth investment leaves: 60% of the post-income wealth above the
      subsistence floor, all of it at or below. */
  lemma StepUpkeep(a: Agent)
    ensures var w := EconomicCycle(a).wealth;
      var r := Step(a);
      var upkeep := r.navy * 0.8 + r.merchant * 0.2;
      var left := if w > SubsistenceFloor then 0.6 * w else w;
      r.wealth == if left >= upkeep then left - upkeep else 0.0
  {
    var e := EconomicCycle(a);
    var v := Invest(e);
    assert SameStocks(Step(a), v);
  }
}
