/** The season objectives of the academy (gameState.objectives): six weighted,
    binary-completable goals, the weighted progress that gates the end of a season,
    the counters that drive them and the reset and escalation at season rollover. */
module Objectives {
  import opened Numeric
  import Config

  datatype Objective = Objective(required: nat, current: nat, completed: bool, weight: nat)

  // Positions of the objectives, in the key order of gameState.objectives.
  const HIRE_TOP_COACHES: nat := 0
  const SCOUT_REGIONS_DEEP: nat := 1
  const FIND_TOP_TALENTS: nat := 2
  const UPGRADE_KEY_FACILITY: nat := 3
  const WIN_YOUTH_LEAGUE: nat := 4
  const POSITIVE_BALANCE: nat := 5
  const OBJECTIVE_COUNT: nat := 6

  /** The progress a season needs before it may be completed. */
  const COMPLETION_GATE: int := 80

  /** Number of scouting regions (regions.length): the ceiling of the scouting-breadth requirement. */
  const REGION_COUNT: nat := |Config.Regions()|
  /** Ceiling of the facility-upgrade requirement, in percent. */
  const FACILITY_REQUIREMENT_CAP: nat := 50
  /** Ceiling of the facility objective's own progress, in percent. */
  const FACILITY_PROGRESS_CAP: nat := 100

  /** A completed objective has reached its requirement. */
  predicate Consistent(o: Objective) {
    o.completed ==> o.current >= o.required
  }

  predicate AllConsistent(os: seq<Objective>) {
    forall i :: 0 <= i < |os| ==> Consistent(os[i])
  }

  /** The objectives of the first season: weights 15/20/25/20/15/5 (total 100), nothing done yet. */
  function InitialObjectives(): (os: seq<Objective>)
    ensures |os| == OBJECTIVE_COUNT
    ensures TotalWeight(os) == 100
    ensures CompletedWeight(os) == 0
    ensures forall i :: 0 <= i < |os| ==> os[i].current == 0 && !os[i].completed
  {
    [ Objective(3, 0, false, 15),
      Objective(3, 0, false, 20),
      Objective(2, 0, false, 25),
      Objective(15, 0, false, 20),
      Objective(1, 0, false, 15),
      Objective(0, 0, false, 5) ]
  }

  function TotalWeight(os: seq<Objective>): nat {
    if os == [] then 0 else os[0].weight + TotalWeight(os[1..])
  }

  /** The summed weight of the completed objectives never exceeds the total weight. */
  function CompletedWeight(os: seq<Objective>): (c: nat)
    ensures c <= TotalWeight(os)
  {
    if os == [] then 0
    else (if os[0].completed then os[0].weight else 0) + CompletedWeight(os[1..])
  }

  /** Weighted completion in percent, as updateSeasonProgress computes it:
      Math.round(completedWeight / totalWeight * 100), or 0 without any weight. */
  function ProgressPercent(os: seq<Objective>): (p: int)
    ensures 0 <= p <= 100
  {
    var t := TotalWeight(os);
    var c := CompletedWeight(os);
    if t > 0 then
      RealDivBounds(c, t);
      Round(c as real / t as real * 100.0)
    else 0
  }

  lemma RealDivBounds(c: nat, t: nat)
    requires 0 < t && c <= t
    ensures 0.0 <= c as real / t as real * 100.0 <= 100.0
  {
  }

  /** The complete-season button is enabled exactly when the progress reaches the gate. */
  predicate SeasonCompletable(progress: int) {
    progress >= COMPLETION_GATE
  }

  // ---- sums over concatenations and permutations ----

  lemma {:induction false} WeightsOfConcat(a: seq<Objective>, b: seq<Objective>)
    ensures TotalWeight(a + b) == TotalWeight(a) + TotalWeight(b)
    ensures CompletedWeight(a + b) == CompletedWeight(a) + CompletedWeight(b)
  {
    if a == [] {
      assert a + b == b;
    } else {
      assert (a + b)[1..] == a[1..] + b;
      WeightsOfConcat(a[1..], b);
    }
  }

  lemma WeightsWithout(s: seq<Objective>, i: nat)
    requires i < |s|
    ensures TotalWeight(s) == s[i].weight + TotalWeight(s[..i] + s[i + 1..])
    ensures CompletedWeight(s) == (if s[i].completed then s[i].weight else 0) + CompletedWeight(s[..i] + s[i + 1..])
  {
    var front, back := s[..i], s[i + 1..];
    var middle := [s[i]] + back;
    assert s == front + middle;
    assert middle[0] == s[i] && middle[1..] == back;
    assert TotalWeight(middle) == s[i].weight + TotalWeight(back);
    assert CompletedWeight(middle) == (if s[i].completed then s[i].weight else 0) + CompletedWeight(back);
    WeightsOfConcat(front, middle);
    WeightsOfConcat(front, back);
  }

  /** Reordering the objectives changes neither the total nor the completed weight. */
  lemma {:induction false} WeightsPermutation(a: seq<Objective>, b: seq<Objective>)
    requires multiset(a) == multiset(b)
    ensures TotalWeight(a) == TotalWeight(b)
    ensures CompletedWeight(a) == CompletedWeight(b)
    decreases |a|
  {
    if a == [] {
      assert |multiset(b)| == 0;
      assert b == [];
    } else {
      assert a[0] in multiset(b);
      var i :| 0 <= i < |b| && b[i] == a[0];
      var rest := b[..i] + b[i + 1..];
      MultisetWithout(b, i);
      assert a == [a[0]] + a[1..];
      assert multiset(a[1..]) == multiset(a) - multiset{a[0]};
      WeightsPermutation(a[1..], rest);
      WeightsWithout(b, i);
    }
  }

  lemma MultisetWithout(s: seq<Objective>, i: nat)
    requires i < |s|
    ensures multiset(s[..i] + s[i + 1..]) == multiset(s) - multiset{s[i]}
  {
    assert s == s[..i] + [s[i]] + s[i + 1..];
  }

  /** Season progress does not depend on the order in which the objectives are listed. */
  lemma ProgressOrderIndependent(a: seq<Objective>, b: seq<Objective>)
    requires multiset(a) == multiset(b)
    ensures ProgressPercent(a) == ProgressPercent(b)
  {
    WeightsPermutation(a, b);
  }

  // ---- integer form of the progress ----

  lemma ScaledRatio(c: nat, t: nat)
    requires t > 0
    ensures c as real / t as real * 100.0 + 0.5 == (200 * c + t) as real / (2 * t) as real
  {
    var x := c as real / t as real;
    assert x * t as real == c as real;
    var y := x * 100.0 + 0.5;
    assert y * (2 * t) as real == (200 * c + t) as real;
    QuotientUnique(y, (200 * c + t) as real, (2 * t) as real);
  }

  lemma RoundedPercent(c: nat, t: nat)
    requires t > 0
    ensures Round(c as real / t as real * 100.0) == (200 * c + t) / (2 * t)
  {
    var x := c as real / t as real * 100.0;
    ScaledRatio(c, t);
    assert x + 0.5 == (200 * c + t) as real / (2 * t) as real;
    RealQuotientFloor(200 * c + t, 2 * t);
  }

  /** Math.round(100 * c / t) is the integer (200c + t) div (2t); 0 without any weight. */
  lemma ProgressIntegerForm(os: seq<Objective>)
    ensures var t, c := TotalWeight(os), CompletedWeight(os);
      ProgressPercent(os) == if t > 0 then (200 * c + t) / (2 * t) else 0
  {
    var t, c := TotalWeight(os), CompletedWeight(os);
    if t > 0 {
      RoundedPercent(c, t);
    }
  }

  /** The 80% gate in terms of weights: reached exactly when 200 * completed >= 159 * total. */
  lemma GateInWeights(os: seq<Objective>)
    requires TotalWeight(os) > 0
    ensures SeasonCompletable(ProgressPercent(os)) <==> 200 * CompletedWeight(os) >= 159 * TotalWeight(os)
  {
    ProgressIntegerForm(os);
    var t, c := TotalWeight(os), CompletedWeight(os);
    DivAtLeast(200 * c + t, 2 * t, COMPLETION_GATE);
  }

  /** With weights totalling 100 the gate is exactly "completed weight at least 80". */
  lemma GateWithWeightsOfHundred(os: seq<Objective>)
    requires TotalWeight(os) == 100
    ensures SeasonCompletable(ProgressPercent(os)) <==> CompletedWeight(os) >= 80
    ensures ProgressPercent(os) == CompletedWeight(os)
  {
    GateInWeights(os);
    ProgressIntegerForm(os);
  }

  /** updateSeasonProgress's accumulation loop: sums all weights and the completed
      weights, then rounds the ratio. */
  method ComputeProgress(os: seq<Objective>) returns (p: int)
    ensures p == ProgressPercent(os)
    ensures 0 <= p <= 100
  {
    var totalWeight := 0;
    var completedWeight := 0;
    var i := 0;
    while i < |os|
      invariant 0 <= i <= |os|
      invariant totalWeight == TotalWeight(os[..i])
      invariant completedWeight == CompletedWeight(os[..i])
    {
      assert os[..i + 1] == os[..i] + [os[i]];
      WeightsOfConcat(os[..i], [os[i]]);
      totalWeight := totalWeight + os[i].weight;
      if os[i].completed {
        completedWeight := completedWeight + os[i].weight;
      }
      i := i + 1;
    }
    assert os[..i] == os;
    p := if totalWeight > 0 then Round(completedWeight as real / totalWeight as real * 100.0) else 0;
  }

  // ---- counters ----

  /** A counting objective (coaches hired, regions scouted, talents found): it moves only
      while not completed, and completes exactly when the counter reaches the requirement. */
  function Advance(o: Objective, delta: nat): (r: Objective)
    ensures o.completed ==> r == o
    ensures !o.completed ==> r.current == o.current + delta && (r.completed <==> r.current >= o.required)
    ensures r.required == o.required && r.weight == o.weight
    ensures Consistent(o) ==> Consistent(r)
  {
    if o.completed then o
    else
      var c := o.current + delta;
      o.(current := c, completed := c >= o.required)
  }

  /** The facility objective: the counter grows by the upgrade amount but is held at
      FACILITY_PROGRESS_CAP, then completes exactly when it reaches the requirement. */
  function AdvanceCapped(o: Objective, delta: nat): (r: Objective)
    ensures o.completed ==> r == o
    ensures !o.completed ==> r.current == Min(FACILITY_PROGRESS_CAP, o.current + delta) && (r.completed <==> r.current >= o.required)
    ensures o.current <= FACILITY_PROGRESS_CAP ==> r.current <= FACILITY_PROGRESS_CAP
    ensures r.required == o.required && r.weight == o.weight
    ensures Consistent(o) ==> Consistent(r)
  {
    if o.completed then o
    else
      var c := Min(FACILITY_PROGRESS_CAP, o.current + delta);
      o.(current := c, completed := c >= o.required)
  }

  // ---- rollover ----

  /** The reset of completeCurrentSeason followed by the escalation applied when the new
      season number is above 1: counting requirements +1, scouting breadth capped at the
      region count, facility requirement +5 capped at 50, league requirement back to 1. */
  function Rollover(os: seq<Objective>, newSeason: int): (r: seq<Objective>)
    requires |os| == OBJECTIVE_COUNT
    ensures |r| == OBJECTIVE_COUNT
    ensures forall i :: 0 <= i < |r| ==> r[i].current == 0 && !r[i].completed && r[i].weight == os[i].weight
    ensures AllConsistent(r)
    ensures newSeason > 1 ==>
      && r[HIRE_TOP_COACHES].required == os[HIRE_TOP_COACHES].required + 1
      && r[SCOUT_REGIONS_DEEP].required == Min(REGION_COUNT, os[SCOUT_REGIONS_DEEP].required + 1)
      && r[FIND_TOP_TALENTS].required == os[FIND_TOP_TALENTS].required + 1
      && r[UPGRADE_KEY_FACILITY].required == Min(FACILITY_REQUIREMENT_CAP, os[UPGRADE_KEY_FACILITY].required + 5)
      && r[WIN_YOUTH_LEAGUE].required == 1
      && r[POSITIVE_BALANCE].required == os[POSITIVE_BALANCE].required
    ensures newSeason <= 1 ==> forall i :: 0 <= i < |r| ==> r[i].required == os[i].required
  {
    var reset := seq(|os|, i requires 0 <= i < |os| => os[i].(current := 0, completed := false));
    if newSeason > 1 then
      reset[HIRE_TOP_COACHES := reset[HIRE_TOP_COACHES].(required := os[HIRE_TOP_COACHES].required + 1)]
           [SCOUT_REGIONS_DEEP := reset[SCOUT_REGIONS_DEEP].(required := Min(REGION_COUNT, os[SCOUT_REGIONS_DEEP].required + 1))]
           [FIND_TOP_TALENTS := reset[FIND_TOP_TALENTS].(required := os[FIND_TOP_TALENTS].required + 1)]
           [UPGRADE_KEY_FACILITY := reset[UPGRADE_KEY_FACILITY].(required := Min(FACILITY_REQUIREMENT_CAP, os[UPGRADE_KEY_FACILITY].required + 5))]
           [WIN_YOUTH_LEAGUE := reset[WIN_YOUTH_LEAGUE].(required := 1)]
    else reset
  }

  /** The objectives in force during season k (k >= 1) when every season before it was completed. */
  function SeasonObjectives(k: nat): (os: seq<Objective>)
    requires k >= 1
    ensures |os| == OBJECTIVE_COUNT
  {
    if k == 1 then InitialObjectives() else Rollover(SeasonObjectives(k - 1), k)
  }

  /** Closed form of the requirements of season k: coaches 3+(k-1), regions min(14, 3+(k-1)),
      talents 2+(k-1), facility min(50, 15+5(k-1)), league 1, balance 0; the weights never change. */
  lemma {:induction false} SeasonRequirements(k: nat)
    requires k >= 1
    ensures var os := SeasonObjectives(k);
      && os[HIRE_TOP_COACHES].required == 3 + (k - 1)
      && os[SCOUT_REGIONS_DEEP].required == Min(REGION_COUNT, 3 + (k - 1))
      && os[FIND_TOP_TALENTS].required == 2 + (k - 1)
      && os[UPGRADE_KEY_FACILITY].required == Min(FACILITY_REQUIREMENT_CAP, 15 + 5 * (k - 1))
      && os[WIN_YOUTH_LEAGUE].required == 1
      && os[POSITIVE_BALANCE].required == 0
      && (forall i :: 0 <= i < OBJECTIVE_COUNT ==> os[i].weight == InitialObjectives()[i].weight)
      && TotalWeight(os) == 100
  {
    if k > 1 {
      SeasonRequirements(k - 1);
      var prev := SeasonObjectives(k - 1);
      var os := SeasonObjectives(k);
      WeightsOfWeightsEqual(os, InitialObjectives());
    }
  }

  lemma {:induction false} WeightsOfWeightsEqual(a: seq<Objective>, b: seq<Objective>)
    requires |a| == |b|
    requires forall i :: 0 <= i < |a| ==> a[i].weight == b[i].weight
    ensures TotalWeight(a) == TotalWeight(b)
  {
    if a != [] {
      WeightsOfWeightsEqual(a[1..], b[1..]);
    }
  }
}
