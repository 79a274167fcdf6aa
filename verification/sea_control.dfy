/**
 The sea-control decision: a memoryless, two-outcome rule over the current navy
 strengths. Either the strongest navy out-guns the runner-up by more than 20%
 and its owner takes exclusive sea control while every other nation is
 blockaded, or the sea is contested and the two leading navies wear down.
 */
module SeaControl {
  import opened Nation
  import Ranking

  /** The global sea-state label. */
  datatype SeaState = Contested | Dominated(leader: Archetype)

  /** The map colour name of each archetype, as the labels spell it. */
  function ColourName(a: Archetype): string
  {
    match a
    case SeaPower => "blue"
    case LandPower => "red"
    case TradePower => "orange"
  }

  /** The label strings the dashboard reads: "Contested", or the leader's map
      colour name followed by "_domination". */
  function Label(s: SeaState): (l: string)
    ensures (l == "Contested") <==> s.Contested?
    ensures s.Dominated? ==> |l| > 11 && l[|l| - 11..] == "_domination"
    ensures s == Dominated(SeaPower) ==> l[..|l| - 11] == "blue"
    ensures s == Dominated(LandPower) ==> l[..|l| - 11] == "red"
    ensures s == Dominated(TradePower) ==> l[..|l| - 11] == "orange"
  {
    match s
    case Contested => "Contested"
    case Dominated(leader) => ColourName(leader) + "_domination"
  }

  /** Distinct sea states carry distinct labels, so the datatype keeps exactly
      the information the label string does. */
  lemma LabelInjective(s: SeaState, t: SeaState)
    ensures Label(s) == Label(t) ==> s == t
  {
    if Label(s) == Label(t) {
      match s
      case Contested => assert Label(t)[0] == 'C';
      case Dominated(_) => assert Label(s)[0] == Label(t)[0];
    }
  }

  /** Margin the strongest navy needs over the runner-up to take control. */
  const DominanceRatio: real := 1.2
  /** Attrition applied to the two leading navies of a contested sea. */
  const ContestedDecay: real := 0.95

  /** A nation whose navy takes the contested decay. */
  function Decay(a: Agent): Agent
  {
    a.(navy := ContestedDecay * a.navy)
  }

  datatype Outcome = Outcome(agents: seq<Agent>, state: SeaState)

  function Navies(agents: seq<Agent>): (xs: seq<real>)
    ensures |xs| == |agents|
    ensures forall i :: 0 <= i < |agents| ==> xs[i] == agents[i].navy
  {
    seq(|agents|, i requires 0 <= i < |agents| => agents[i].navy)
  }

  /** Strength ratio of the leading navy over the runner-up; the runner-up
      counts as at least 1, so the ratio is always defined. */
  function Ratio(top: real, second: real): real
  {
    top / (if second > 1.0 then second else 1.0)
  }

  /** Domination means the leader's navy exceeds 1.2 times the runner-up's,
      where a runner-up below 1 counts as 1. */
  lemma DominatedIffMargin(top: real, second: real)
    ensures Ratio(top, second) > DominanceRatio <==> top > DominanceRatio * (if second > 1.0 then second else 1.0)
  {
    var d := if second > 1.0 then second else 1.0;
    assert Ratio(top, second) * d == top;
  }

  /** Exclusivity of sea control: at most one holder; the holder is not
      blockaded and every other nation is. */
  predicate Exclusive(agents: seq<Agent>)
  {
    && (forall i, j :: 0 <= i < |agents| && 0 <= j < |agents| && agents[i].hasSeaControl && agents[j].hasSeaControl ==> i == j)
    && (forall i :: 0 <= i < |agents| && agents[i].hasSeaControl ==> !agents[i].isBlockaded)
    && (forall i, j :: 0 <= i < |agents| && 0 <= j < |agents| && agents[i].hasSeaControl && j != i ==> agents[j].isBlockaded)
  }

  /** Every flag lowered: the state of a contested sea. */
  predicate NoFlags(agents: seq<Agent>)
  {
    forall i :: 0 <= i < |agents| ==> !agents[i].hasSeaControl && !agents[i].isBlockaded
  }

  function ClearFlags(a: Agent): Agent
  {
    a.(hasSeaControl := false, isBlockaded := false)
  }

  function ClearAll(agents: seq<Agent>): (c: seq<Agent>)
    ensures |c| == |agents|
    ensures forall i :: 0 <= i < |agents| ==> c[i] == ClearFlags(agents[i])
  {
    seq(|agents|, i requires 0 <= i < |agents| => ClearFlags(agents[i]))
  }

  /** Domination: the leader `s` takes sea control, every other nation is
      blockaded, and no navy changes. */
  function Dominate(cleared: seq<Agent>, s: nat): (r: seq<Agent>)
    requires s < |cleared|
    ensures |r| == |cleared|
    ensures forall i :: 0 <= i < |r| ==> r[i].hasSeaControl == (i == s)
    ensures forall i :: 0 <= i < |r| ==> r[i].isBlockaded == (i != s)
    ensures forall i :: 0 <= i < |r| ==> ClearFlags(r[i]) == ClearFlags(cleared[i])
  {
    seq(|cleared|, i requires 0 <= i < |cleared| =>
      if i == s then cleared[i].(hasSeaControl := true, isBlockaded := false)
      else cleared[i].(hasSeaControl := false, isBlockaded := true))
  }

  /** Contested sea: the navies at `s` and `u` decay by 5%, nothing else changes. */
  function Contest(cleared: seq<Agent>, s: nat, u: nat): (r: seq<Agent>)
    requires s < |cleared| && u < |cleared| && s != u
    ensures |r| == |cleared|
    ensures r[s] == Decay(cleared[s]) && r[u] == Decay(cleared[u])
    ensures forall i :: 0 <= i < |r| && i != s && i != u ==> r[i] == cleared[i]
  {
    cleared[s := Decay(cleared[s])][u := Decay(cleared[u])]
  }

  /** The decision on a roster whose flags have already been cleared: it
      leaves sea control exclusive and changes nothing but flags and navies. */
  function Decide(cleared: seq<Agent>): (o: Outcome)
    requires |cleared| >= 2
    requires NoFlags(cleared)
    ensures |o.agents| == |cleared|
    ensures Exclusive(o.agents)
    ensures forall i :: 0 <= i < |cleared| ==>
      && SameIdentity(o.agents[i], cleared[i])
      && o.agents[i].wealth == cleared[i].wealth
      && o.agents[i].industry == cleared[i].industry
      && o.agents[i].merchant == cleared[i].merchant
  {
    var xs := Navies(cleared);
    var s := Ranking.First(xs);
    var u := Ranking.Second(xs);
    if Ratio(cleared[s].navy, cleared[u].navy) > DominanceRatio then
      Outcome(Dominate(cleared, s), Dominated(cleared[s].archetype))
    else
      Outcome(Contest(cleared, s, u), Contested)
  }

  /** The decision for the current navies. Flags from earlier steps are cleared
      first, so the outcome is derived afresh from the navies alone. Sea control
      ends exclusive, and nothing but the flags and the navies changes. */
  function DetermineSeaControl(agents: seq<Agent>): (o: Outcome)
    requires |agents| >= 2
    ensures |o.agents| == |agents|
    ensures Exclusive(o.agents)
    ensures forall i :: 0 <= i < |agents| ==> SameIdentity(o.agents[i], agents[i])
    ensures forall i :: 0 <= i < |agents| ==>
      && o.agents[i].wealth == agents[i].wealth
      && o.agents[i].industry == agents[i].industry
      && o.agents[i].merchant == agents[i].merchant
  {
    Decide(ClearAll(agents))
  }

  /** Which outcome the decision takes, and what it does to the navies: if the
      leading navy (the earliest maximal one) beats the runner-up (the earliest
      maximal one among the rest) by a ratio above 1.2, the leader takes sea
      control, the label names its archetype and no navy changes; otherwise the
      sea is contested, no nation is flagged, the two leading navies decay by 5%
      and any other navy is untouched. */
  lemma DecisionOutcome(agents: seq<Agent>)
    requires |agents| >= 2
    ensures
      var o := DetermineSeaControl(agents);
      var s := Ranking.First(Navies(agents));
      var u := Ranking.Second(Navies(agents));
      if Ratio(agents[s].navy, agents[u].navy) > DominanceRatio then
        && o.state == Dominated(agents[s].archetype)
        && o.agents[s].hasSeaControl
        && (forall i :: 0 <= i < |agents| ==> o.agents[i].navy == agents[i].navy)
      else
        && o.state == Contested
        && NoFlags(o.agents)
        && o.agents[s].navy == ContestedDecay * agents[s].navy
        && o.agents[u].navy == ContestedDecay * agents[u].navy
        && (forall i :: 0 <= i < |agents| && i != s && i != u ==> o.agents[i].navy == agents[i].navy)
  {
    var cleared := ClearAll(agents);
    assert Navies(cleared) == Navies(agents);
  }

  /** Each nation's full record after the decision: under domination the
      leader holds sea control, every other nation is blockaded, and nothing
      else changes; in a contested sea every flag is lowered and only the two
      leading navies change, by the 5% decay. */
  lemma DecisionRecords(agents: seq<Agent>)
    requires |agents| >= 2
    ensures
      var o := DetermineSeaControl(agents);
      var s := Ranking.First(Navies(agents));
      var u := Ranking.Second(Navies(agents));
      if Ratio(agents[s].navy, agents[u].navy) > DominanceRatio then
        && o.agents[s] == agents[s].(hasSeaControl := true, isBlockaded := false)
        && (forall i :: 0 <= i < |agents| && i != s ==>
              o.agents[i] == agents[i].(hasSeaControl := false, isBlockaded := true))
      else
        && o.agents[s] == Decay(ClearFlags(agents[s]))
        && o.agents[u] == Decay(ClearFlags(agents[u]))
        && (forall i :: 0 <= i < |agents| && i != s && i != u ==> o.agents[i] == ClearFlags(agents[i]))
  {
    var cleared := ClearAll(agents);
    assert Navies(cleared) == Navies(agents);
    var s := Ranking.First(Navies(agents));
    var u := Ranking.Second(Navies(agents));
    if Ratio(agents[s].navy, agents[u].navy) > DominanceRatio {
      var r := Dominate(cleared, s);
      forall i | 0 <= i < |agents|
        ensures r[i] == agents[i].(hasSeaControl := i == s, isBlockaded := i != s)
      {
        assert ClearFlags(r[i]) == ClearFlags(agents[i]);
      }
    }
  }

  /** The two outcomes are exhaustive and exclusive: either the sea is
      contested and no nation is flagged, or exactly one nation holds control,
      it is the strongest navy, and the label names its archetype. */
  lemma OutcomeDichotomy(agents: seq<Agent>)
    requires |agents| >= 2
    ensures var o := DetermineSeaControl(agents);
      || (o.state == Contested && NoFlags(o.agents))
      || (exists h :: 0 <= h < |agents| && o.agents[h].hasSeaControl
            && o.state == Dominated(agents[h].archetype)
            && (forall i :: 0 <= i < |agents| ==> agents[i].navy <= agents[h].navy))
  {
    var o := DetermineSeaControl(agents);
    var s := Ranking.First(Navies(agents));
    DecisionOutcome(agents);
    if o.state != Contested {
      assert o.agents[s].hasSeaControl;
    }
  }

  /** Two rosters that differ at most in their sea flags. */
  predicate SameButFlags(a: seq<Agent>, b: seq<Agent>)
  {
    && |a| == |b|
    && forall i :: 0 <= i < |a| ==> ClearFlags(a[i]) == ClearFlags(b[i])
  }

  /** Memorylessness: flags carried in from an earlier step have no influence
      on the decision or on anything it produces. */
  lemma DecisionIgnoresOldFlags(a: seq<Agent>, b: seq<Agent>)
    requires |a| >= 2
    requires SameButFlags(a, b)
    ensures DetermineSeaControl(a) == DetermineSeaControl(b)
  {
    assert ClearAll(a) == ClearAll(b);
  }

  /** The decision keeps every nation in the healthy ranges: the contested
      decay shrinks a navy but never below zero. */
  lemma DecisionKeepsHealth(agents: seq<Agent>)
    requires |agents| >= 2
    ensures (forall i :: 0 <= i < |agents| ==> Healthy(agents[i])) ==>
      forall i :: 0 <= i < |agents| ==>
        && Healthy(DetermineSeaControl(agents).agents[i])
        && DetermineSeaControl(agents).agents[i].navy >= ContestedDecay * agents[i].navy
  {
    var o := DetermineSeaControl(agents);
    DecisionOutcome(agents);
    if forall i :: 0 <= i < |agents| ==> Healthy(agents[i]) {
      forall i | 0 <= i < |agents|
        ensures Healthy(o.agents[i]) && o.agents[i].navy >= ContestedDecay * agents[i].navy
      {
        assert o.agents[i].navy == agents[i].navy || o.agents[i].navy == ContestedDecay * agents[i].navy;
      }
    }
  }
}
