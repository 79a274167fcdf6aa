/**
 The whole simulation: the fixed roster of three nations, the step counter,
 the sea-state label and the status message, and the world step that runs the
 scripted escalation, the sea-control decision and then every nation's step.

 Grid placement and time-series recording have no effect on the state and are
 not part of this model; the step counter is a plain natural number.
 */
module World {
  import opened Nation
  import opened SeaControl
  import opened Iteration
  import Ranking

  const UkStrategy: Strategy := Strategy(0.6, 0.3, 0.1)
  const GermanyStrategy: Strategy := Strategy(0.3, 0.2, 0.5)
  const NetherlandsStrategy: Strategy := Strategy(0.1, 0.8, 0.1)
  /** The trading power's land security burden is fixed. */
  const NetherlandsBurden: real := 0.1

  /** The scripted escalation: at this value of the step counter, a land power
      with a burden below the threshold switches to a total-war economy. */
  const EscalationStep: nat := 15
  const EscalationThreshold: real := 0.1
  const TotalWarStrategy: Strategy := Strategy(0.8, 0.0, 0.2)
  const TotalWarName: string := "Germany (Total War)"
  const TotalWarMessage: string := "⚠️ 警告：德国启动《提尔皮茨计划》！(Total War Econ)"

  /** The three nations are the sea power (UK), the land power (Germany) and
      the trading power (Netherlands). */
  datatype Model = Model(
    uk: Agent,
    germany: Agent,
    netherlands: Agent,
    steps: nat,
    seaState: SeaState,
    statusMessage: string
  )

  /** The nations in construction order, the order the scheduler holds them in. */
  function Agents(m: Model): (s: seq<Agent>)
    ensures |s| == 3 && s[0] == m.uk && s[1] == m.germany && s[2] == m.netherlands
  {
    [m.uk, m.germany, m.netherlands]
  }

  /** Ids and archetypes: 1 sea power, 2 land power, 3 trading power. */
  predicate Roster(m: Model)
  {
    && m.uk.id == 1 && m.uk.archetype == SeaPower
    && m.germany.id == 2 && m.germany.archetype == LandPower
    && m.netherlands.id == 3 && m.netherlands.archetype == TradePower
  }

  predicate AllHealthy(m: Model)
  {
    Healthy(m.uk) && Healthy(m.germany) && Healthy(m.netherlands)
  }

  /** Sea control is exclusive and no nation's wealth is negative. */
  predicate Settled(m: Model)
  {
    && Exclusive(Agents(m))
    && m.uk.wealth >= 0.0 && m.germany.wealth >= 0.0 && m.netherlands.wealth >= 0.0
  }

  /** A new simulation: the three nations with their starting stocks, the step
      counter at zero, the sea contested and no status message. */
  function NewModel(burdenGermany: real, burdenUk: real): (m: Model)
    ensures Roster(m) && Settled(m)
    ensures m.steps == 0 && m.seaState == Contested && m.statusMessage == ""
    ensures NoFlags(Agents(m))
    ensures m.uk.burden == burdenUk && m.germany.burden == burdenGermany
    ensures m.netherlands.burden == NetherlandsBurden
    ensures forall a :: a in Agents(m) ==>
      a.wealth == 500.0 && a.industry == 120.0 && a.merchant == 50.0 && a.navy == 20.0
    ensures 0.0 <= burdenGermany <= 1.0 && 0.0 <= burdenUk <= 1.0 ==> AllHealthy(m)
    ensures m.uk.name == "UK (Sea)" && m.uk.strategy == Strategy(0.6, 0.3, 0.1)
    ensures m.germany.name == "Germany (Land)" && m.germany.strategy == Strategy(0.3, 0.2, 0.5)
    ensures m.netherlands.name == "Netherlands" && m.netherlands.strategy == Strategy(0.1, 0.8, 0.1)
  {
    Model(NewAgent(1, "UK (Sea)", UkStrategy, SeaPower, burdenUk),
          NewAgent(2, "Germany (Land)", GermanyStrategy, LandPower, burdenGermany),
          NewAgent(3, "Netherlands", NetherlandsStrategy, TradePower, NetherlandsBurden),
          0, Contested, "")
  }

  predicate EscalationFires(m: Model)
  {
    m.steps == EscalationStep && m.germany.burden < EscalationThreshold
  }

  /** The scripted escalation check at the start of a world step. When it fires
      it rewrites only the land power's strategy and name and the status
      message; otherwise it changes nothing. */
  function Escalate(m: Model): (r: Model)
    ensures !EscalationFires(m) ==> r == m
    ensures EscalationFires(m) ==>
      && r.germany.strategy == TotalWarStrategy && r.germany.name == TotalWarName
      && r.statusMessage == TotalWarMessage
      && r == m.(germany := r.germany, statusMessage := r.statusMessage)
      && r.germany == m.germany.(strategy := r.germany.strategy, name := r.germany.name)
  {
    if m.steps == EscalationStep then
      var ger := m.germany;
      if ger.burden < EscalationThreshold then
        m.(germany := ger.(strategy := TotalWarStrategy, name := TotalWarName),
           statusMessage := TotalWarMessage)
      else m
    else m
  }

  /** Every nation takes its own step. */
  function StepAll(agents: seq<Agent>): (r: seq<Agent>)
    ensures |r| == |agents|
    ensures forall i :: 0 <= i < |agents| ==> r[i] == Nation.Step(agents[i])
  {
    seq(|agents|, i requires 0 <= i < |agents| => Nation.Step(agents[i]))
  }

  /** One world step: escalation check, sea-control decision, then every
      nation's step, then the counter advances by one. */
  function Step(m: Model): (r: Model)
    ensures r.steps == m.steps + 1
  {
    var e := Escalate(m);
    var o := DetermineSeaControl(Agents(e));
    var s := StepAll(o.agents);
    Model(s[0], s[1], s[2], m.steps + 1, o.state, e.statusMessage)
  }

  /** The world step in terms of its phases: the nations in the new model are
      the nations of the decision after their own steps. */
  lemma StepPhases(m: Model)
    ensures var o := DetermineSeaControl(Agents(Escalate(m)));
      && Agents(Step(m)) == StepAll(o.agents)
      && Step(m).seaState == o.state
      && Step(m).statusMessage == Escalate(m).statusMessage
  {
  }

  /** What a world step does to each nation, in the order the phases run. If
      the leading navy dominates, the leader steps holding sea control and every
      other nation steps blockaded. Otherwise each nation steps with both flags
      lowered, and the two leading navies take their 5% decay before they invest
      and pay upkeep. */
  lemma StepOutcome(m: Model)
    ensures var e := Agents(Escalate(m));
      var xs := Navies(e);
      var s := Ranking.First(xs);
      var u := Ranking.Second(xs);
      var after := Agents(Step(m));
      if Ratio(xs[s], xs[u]) > DominanceRatio then
        && Step(m).seaState == Dominated(e[s].archetype)
        && after[s] == Nation.Step(e[s].(hasSeaControl := true, isBlockaded := false))
        && (forall i :: 0 <= i < 3 && i != s ==>
              after[i] == Nation.Step(e[i].(hasSeaControl := false, isBlockaded := true)))
      else
        && Step(m).seaState == Contested
        && after[s] == Nation.Step(Decay(ClearFlags(e[s])))
        && after[u] == Nation.Step(Decay(ClearFlags(e[u])))
        && (forall i :: 0 <= i < 3 && i != s && i != u ==> after[i] == Nation.Step(ClearFlags(e[i])))
  {
    var e := Agents(Escalate(m));
    var o := DetermineSeaControl(e);
    StepPhases(m);
    var after := Agents(Step(m));
    assert after == StepAll(o.agents);
    assert forall i :: 0 <= i < 3 ==> after[i] == Nation.Step(o.agents[i]);
    DecisionRecords(e);
  }

  /** A leading nation's navy in a contested step: it first loses 5%, and only
      then grows by the units its nation invests, out of the wealth after an
      income earned with both flags lowered. */
  predicate DecayedThenInvested(before: Agent, after: Agent)
  {
    var w := EconomicCycle(Decay(ClearFlags(before))).wealth;
    after.navy
      == ContestedDecay * before.navy
         + (if w > SubsistenceFloor then Units(w, before.burden, before.strategy.navy, NavyCost) else 0.0)
  }

  /** In a contested step each of the two leading navies decays before its
      nation invests. */
  lemma ContestedNavyDecaysBeforeInvestment(m: Model)
    ensures var e := Agents(Escalate(m));
      var xs := Navies(e);
      var s := Ranking.First(xs);
      var u := Ranking.Second(xs);
      Ratio(xs[s], xs[u]) <= DominanceRatio ==>
        DecayedThenInvested(e[s], Agents(Step(m))[s]) && DecayedThenInvested(e[u], Agents(Step(m))[u])
  {
    StepOutcome(m);
    var e := Agents(Escalate(m));
    forall i | 0 <= i < 3 {
      StepNavy(Decay(ClearFlags(e[i])));
    }
  }

  /** The nations' own steps keep sea control exclusive and health. */
  lemma StepAllKeeps(agents: seq<Agent>)
    ensures Exclusive(agents) ==> Exclusive(StepAll(agents))
    ensures forall i :: 0 <= i < |agents| ==> StepAll(agents)[i].wealth >= 0.0
    ensures forall i :: 0 <= i < |agents| ==> SameIdentity(StepAll(agents)[i], agents[i])
    ensures forall i :: 0 <= i < |agents| ==> SameFlags(StepAll(agents)[i], agents[i])
    ensures forall i :: 0 <= i < |agents| && Healthy(agents[i]) ==>
      && Healthy(StepAll(agents)[i])
      && StepAll(agents)[i].industry >= agents[i].industry
      && StepAll(agents)[i].merchant >= agents[i].merchant
      && StepAll(agents)[i].navy >= agents[i].navy
  {
    var r := StepAll(agents);
    assert forall i :: 0 <= i < |r| ==> SameFlags(r[i], agents[i]);
  }

  /** After any world step sea control is exclusive and no wealth is negative,
      whatever the state before. */
  lemma StepSettles(m: Model)
    ensures Settled(Step(m))
  {
    var o := DetermineSeaControl(Agents(Escalate(m)));
    StepPhases(m);
    StepAllKeeps(o.agents);
  }

  /** A world step changes no nation's id, archetype or burden; the strategy
      and name change only for the land power and only when the escalation
      fires. */
  lemma StepKeepsRoster(m: Model)
    ensures Roster(m) ==> Roster(Step(m))
    ensures Step(m).uk.burden == m.uk.burden
    ensures Step(m).germany.burden == m.germany.burden
    ensures Step(m).netherlands.burden == m.netherlands.burden
    ensures SameIdentity(Step(m).uk, m.uk) && SameIdentity(Step(m).netherlands, m.netherlands)
    ensures !EscalationFires(m) ==> SameIdentity(Step(m).germany, m.germany)
  {
    var e := Escalate(m);
    var o := DetermineSeaControl(Agents(e));
    StepPhases(m);
    StepAllKeeps(o.agents);
    assert SameIdentity(o.agents[0], m.uk);
    assert SameIdentity(o.agents[2], m.netherlands);
    assert o.agents[1].burden == m.germany.burden && o.agents[1].id == m.germany.id;
  }

  /** A healthy model stays healthy: no industry or merchant fleet shrinks in a
      world step, and a navy shrinks by at most the contested 5% decay. */
  lemma StepMonotone(m: Model)
    requires AllHealthy(m)
    ensures AllHealthy(Step(m))
    ensures forall i :: 0 <= i < 3 ==>
      && Agents(Step(m))[i].industry >= Agents(m)[i].industry
      && Agents(Step(m))[i].merchant >= Agents(m)[i].merchant
      && Agents(Step(m))[i].navy >= ContestedDecay * Agents(m)[i].navy
  {
    var e := Escalate(m);
    var o := DetermineSeaControl(Agents(e));
    assert forall i :: 0 <= i < 3 ==>
      && Healthy(Agents(e)[i]) && Agents(e)[i].navy == Agents(m)[i].navy
      && Agents(e)[i].industry == Agents(m)[i].industry && Agents(e)[i].merchant == Agents(m)[i].merchant;
    DecisionKeepsHealth(Agents(e));
    StepPhases(m);
    StepAllKeeps(o.agents);
  }

  // ---------------------------------------------------------------------
  // Activation order

  /** The nations at the positions of `order` take their steps one after the
      other, each reading the roster as the earlier ones left it. */
  function ActivateInOrder(agents: seq<Agent>, order: seq<nat>): seq<Agent>
    requires forall k :: 0 <= k < |order| ==> order[k] < |agents|
    decreases |order|
  {
    if order == [] then agents
    else
      var i := order[0];
      ActivateInOrder(agents[i := Nation.Step(agents[i])], order[1..])
  }

  predicate Distinct(order: seq<nat>)
  {
    forall k, l :: 0 <= k < l < |order| ==> order[k] != order[l]
  }

  /** Activating distinct positions in any order steps exactly those nations,
      each from its own state, and leaves the rest alone. */
  lemma {:induction false} ActivateDistinct(agents: seq<Agent>, order: seq<nat>)
    requires forall k :: 0 <= k < |order| ==> order[k] < |agents|
    requires Distinct(order)
    ensures |ActivateInOrder(agents, order)| == |agents|
    ensures forall i :: 0 <= i < |agents| ==>
      ActivateInOrder(agents, order)[i] == if i in order then Nation.Step(agents[i]) else agents[i]
    decreases |order|
  {
    if order != [] {
      var i := order[0];
      var next := agents[i := Nation.Step(agents[i])];
      var rest := order[1..];
      assert forall k :: 0 <= k < |rest| ==> rest[k] != i by {
        forall k | 0 <= k < |rest| ensures rest[k] != i {
          assert rest[k] == order[k + 1];
        }
      }
      ActivateDistinct(next, rest);
      forall j | 0 <= j < |agents|
        ensures ActivateInOrder(agents, order)[j] == if j in order then Nation.Step(agents[j]) else agents[j]
      {
        assert j in order <==> j == i || j in rest;
      }
    }
  }

  /** Random activation does not matter: stepping the nations one at a time in
      any order that visits each exactly once gives the same roster as the
      fixed construction order. */
  lemma ActivationOrderIrrelevant(agents: seq<Agent>, order: seq<nat>)
    requires forall k :: 0 <= k < |order| ==> order[k] < |agents|
    requires Distinct(order)
    requires forall i :: 0 <= i < |agents| ==> i in order
    ensures ActivateInOrder(agents, order) == StepAll(agents)
  {
    ActivateDistinct(agents, order);
  }

  // ---------------------------------------------------------------------
  // Runs of several steps

  /** `n` consecutive world steps. */
  function Run(m: Model, n: nat): Model
  {
    Repeat(Step, m, n)
  }

  /** No hidden state between runs: n steps followed by k more is the same as
      n + k steps in one go. */
  lemma RunAdditive(m: Model, n: nat, k: nat)
    ensures Run(Run(m, n), k) == Run(m, n + k)
  {
    RepeatAdditive(Step, m, n, k);
  }

  /** The counter counts the steps of a run. */
  lemma RunSteps(m: Model, n: nat)
    ensures Run(m, n).steps == m.steps + n
  {
    var counter := (y: Model) => y.steps as int;
    forall y ensures counter(Step(y)) == counter(y) + 1 {
    }
    RepeatCounts(Step, counter, m, n);
  }

  /** No step of a run changes a nation's burden. */
  lemma RunKeepsBurdens(m: Model, n: nat)
    ensures Run(m, n).uk.burden == m.uk.burden
    ensures Run(m, n).germany.burden == m.germany.burden
    ensures Run(m, n).netherlands.burden == m.netherlands.burden
  {
    var bu, bg, bn := m.uk.burden, m.germany.burden, m.netherlands.burden;
    var keeps := (y: Model) => y.uk.burden == bu && y.germany.burden == bg && y.netherlands.burden == bn;
    forall y | keeps(y) ensures keeps(Step(y)) {
      StepKeepsRoster(y);
    }
    RepeatInvariant(Step, keeps, m, n);
  }

  /** Ids and archetypes hold throughout a run. */
  lemma RunKeepsRoster(m: Model, n: nat)
    requires Roster(m)
    ensures Roster(Run(m, n))
  {
    forall y | Roster(y) ensures Roster(Step(y)) {
      StepKeepsRoster(y);
    }
    RepeatInvariant(Step, Roster, m, n);
  }

  /** A run that starts healthy stays healthy. */
  lemma RunKeepsHealth(m: Model, n: nat)
    requires AllHealthy(m)
    ensures AllHealthy(Run(m, n))
  {
    forall y | AllHealthy(y) ensures AllHealthy(Step(y)) {
      StepMonotone(y);
    }
    RepeatInvariant(Step, AllHealthy, m, n);
  }

  /** After every step of a run sea control is exclusive and no wealth is
      negative. */
  lemma RunSettles(m: Model, n: nat)
    requires n > 0
    ensures Settled(Run(m, n))
  {
    forall y ensures Settled(Step(y)) {
      StepSettles(y);
    }
    RepeatEstablishes(Step, Settled, m, n);
  }

  /** The escalation is an edge, not a level: within one run it fires at most
      once, however long the burden stays below the threshold. */
  lemma EscalationAtMostOnce(m: Model, k1: nat, k2: nat)
    ensures EscalationFires(Run(m, k1)) && EscalationFires(Run(m, k2)) ==> k1 == k2
  {
    RunSteps(m, k1);
    RunSteps(m, k2);
  }

  /** From a new model, the escalation fires on the sixteenth world step (when
      the counter reads 15) exactly when the land power's burden is below 0.1,
      and on no other step. */
  lemma EscalationSchedule(burdenGermany: real, burdenUk: real, k: nat)
    ensures EscalationFires(Run(NewModel(burdenGermany, burdenUk), k))
            <==> k == EscalationStep && burdenGermany < EscalationThreshold
  {
    var m := NewModel(burdenGermany, burdenUk);
    RunSteps(m, k);
    RunKeepsBurdens(m, k);
    assert Run(m, k).steps == k && Run(m, k).germany.burden == burdenGermany;
  }

  // ---------------------------------------------------------------------
  // The first step

  /** At the start all navies are equal, so the stable ranking puts the sea
      power first and the land power second: the sea is contested, those two
      navies decay and the trading power's does not. */
  lemma FirstDecisionContested(burdenGermany: real, burdenUk: real)
    ensures var m := NewModel(burdenGermany, burdenUk);
      var o := DetermineSeaControl(Agents(m));
      && o.state == Contested
      && NoFlags(o.agents)
      && o.agents[0].navy == 19.0
      && o.agents[1].navy == 19.0
      && o.agents[2].navy == 20.0
  {
    var m := NewModel(burdenGermany, burdenUk);
    Ranking.TiesKeepOrder(Navies(Agents(m)));
    DecisionOutcome(Agents(m));
  }

  /** One agent step of each nation from the state the first decision leaves
      it in, with the dashboard's default burdens (land power 0.5, sea power
      0.05). The decayed navies are the ones that invest. */
  lemma SeaPowerFirstStep(a: Agent)
    requires a.archetype == SeaPower && a.strategy == UkStrategy && a.burden == 0.05
    requires a.wealth == 500.0 && a.industry == 120.0 && a.merchant == 50.0 && a.navy == 19.0
    requires !a.hasSeaControl && !a.isBlockaded
    ensures var r := Nation.Step(a);
      && r.wealth == 420.0 && r.industry == 120.0 && r.merchant == 60.0 && r.navy == 30.0
      && TotalPower(r) == 1590.0
  {
  }

  lemma LandPowerFirstStep(a: Agent)
    requires a.archetype == LandPower && a.strategy == GermanyStrategy && a.burden == 0.5
    requires a.wealth == 500.0 && a.industry == 120.0 && a.merchant == 50.0 && a.navy == 19.0
    requires !a.hasSeaControl && !a.isBlockaded
    ensures var r := Nation.Step(a);
      && r.wealth == 606.6 && r.industry == 122.0 && r.merchant == 55.0 && r.navy == 23.0
      && TotalPower(r) == 1671.6
  {
  }

  lemma TradePowerFirstStep(a: Agent)
    requires a.archetype == TradePower && a.strategy == NetherlandsStrategy && a.burden == NetherlandsBurden
    requires a.wealth == 500.0 && a.industry == 120.0 && a.merchant == 50.0 && a.navy == 20.0
    requires !a.hasSeaControl && !a.isBlockaded
    ensures var r := Nation.Step(a);
      && r.wealth == 423.8 && r.industry == 120.0 && r.merchant == 77.0 && r.navy == 21.0
      && TotalPower(r) == 1492.8
  {
  }

  /** The regression values of the first world step with the default burdens. */
  lemma FirstStepFixture()
    ensures var r := Step(NewModel(0.5, 0.05));
      && r.steps == 1 && r.seaState == Contested && r.statusMessage == ""
      && r.uk.wealth == 420.0 && r.uk.industry == 120.0 && r.uk.merchant == 60.0 && r.uk.navy == 30.0
      && r.germany.wealth == 606.6 && r.germany.industry == 122.0 && r.germany.merchant == 55.0
      && r.germany.navy == 23.0
      && r.netherlands.wealth == 423.8 && r.netherlands.industry == 120.0
      && r.netherlands.merchant == 77.0 && r.netherlands.navy == 21.0
      && TotalPower(r.uk) == 1590.0 && TotalPower(r.germany) == 1671.6
      && TotalPower(r.netherlands) == 1492.8
  {
    var m := NewModel(0.5, 0.05);
    assert !EscalationFires(m);
    var o := DetermineSeaControl(Agents(m));
    FirstDecisionContested(0.5, 0.05);
    StepPhases(m);
    SeaPowerFirstStep(o.agents[0]);
    LandPowerFirstStep(o.agents[1]);
    TradePowerFirstStep(o.agents[2]);
  }
}
