/** The economic formulas of the academy: facility upgrade prices, scouting mission
    prices, player valuation and sale offers, the rescaling of transfer offers,
    seasonal income and the final score and rating of a run. */
module Economy {
  import opened Numeric
  import opened Objectives
  import Config

  // ---- facility upgrades ----

  /** upgradeFacility's price: Math.round(cost / 100 * amount * (1 + level / 100)). */
  function UpgradeCost(cost: int, amount: int, level: int): (price: int)
    ensures cost >= 0 && amount >= 0 && level >= 0 ==> price >= 0
  {
    var exact := (cost as real / 100.0) * amount as real * (1.0 + level as real / 100.0);
    assert cost >= 0 && amount >= 0 && level >= 0 ==> exact >= 0.0 by {
      if cost >= 0 && amount >= 0 && level >= 0 {
        assert (cost as real / 100.0) * amount as real >= 0.0;
      }
    }
    Round(exact)
  }

  lemma ExactUpgradeCost(cost: nat, amount: nat, level: nat)
    ensures (cost as real / 100.0) * amount as real * (1.0 + level as real / 100.0)
            == (cost * amount * (100 + level)) as real / 10000.0
  {
    var x := (cost as real / 100.0) * amount as real * (1.0 + level as real / 100.0);
    assert x * 10000.0 == (cost as real * amount as real) * (100.0 + level as real);
    assert (cost * amount * (100 + level)) as real == (cost as real * amount as real) * (100.0 + level as real);
    QuotientUnique(x, (cost * amount * (100 + level)) as real, 10000.0);
  }

  /** The upgrade price in integer arithmetic: (cost * amount * (100 + level) + 5000) div 10000. */
  lemma UpgradeCostIntegerForm(cost: nat, amount: nat, level: nat)
    ensures UpgradeCost(cost, amount, level) == (cost * amount * (100 + level) + 5000) / 10000
  {
    var n := cost * amount * (100 + level);
    ExactUpgradeCost(cost, amount, level);
    assert n as real / 10000.0 + 0.5 == (n + 5000) as real / 10000 as real;
    RealQuotientFloor(n + 5000, 10000);
  }

  /** Upgrades get strictly dearer as the facility level rises, whenever one level step
      of the upgrade is worth at least one euro (cost * amount >= 10000). */
  lemma UpgradeCostIncreasing(cost: nat, amount: nat, low: nat, high: nat)
    requires cost * amount >= 10000 && low < high
    ensures UpgradeCost(cost, amount, low) < UpgradeCost(cost, amount, high)
  {
    UpgradeCostIntegerForm(cost, amount, low);
    UpgradeCostIntegerForm(cost, amount, high);
    IntegerCostIncreasing(cost * amount, low, high);
  }

  lemma IntegerCostIncreasing(m: nat, low: nat, high: nat)
    requires m >= 10000 && low < high
    ensures (m * (100 + low) + 5000) / 10000 < (m * (100 + high) + 5000) / 10000
  {
    var a := m * (100 + low);
    var b := m * (100 + high);
    var d: nat := high - low - 1;
    assert b == a + m + m * d;
    assert m * d >= 0;
    var qa := (a + 5000) / 10000;
    assert qa * 10000 <= a + 5000;
    DivAtLeast(b + 5000, 10000, qa + 1);
  }

  /** For every configured facility, any positive upgrade amount costs strictly more at a higher level. */
  lemma ConfiguredUpgradeCostIncreasing(i: nat, amount: nat, low: nat, high: nat)
    requires i < |Config.Facilities()| && amount >= 1 && low < high
    ensures var c := Config.Facilities()[i].cost;
      UpgradeCost(c, amount, low) < UpgradeCost(c, amount, high)
  {
    var c := Config.Facilities()[i].cost;
    assert c * amount >= c;
    UpgradeCostIncreasing(c, amount, low, high);
  }

  /** Raising the training fields from 75% by 10 costs 17500 euros. */
  lemma TrainingFieldsUpgradeExample()
    ensures UpgradeCost(Config.Facilities()[0].cost, 10, Config.Facilities()[0].level) == 17500
  {
    UpgradeCostIntegerForm(100000, 10, 75);
  }

  // ---- scouting ----

  /** The flat price of a scouting mission: 5000 for one week, 9000 for two, 15000 otherwise. */
  function ScoutingCost(duration: int): (price: int)
    ensures price == 5000 || price == 9000 || price == 15000
    ensures duration == 1 <==> price == 5000
    ensures duration == 2 <==> price == 9000
  {
    if duration == 1 then 5000 else if duration == 2 then 9000 else 15000
  }

  /** Among real durations (one week or more) a longer mission never costs less. */
  lemma ScoutingCostMonotone(d1: int, d2: int)
    requires 1 <= d1 <= d2
    ensures ScoutingCost(d1) <= ScoutingCost(d2)
  {
  }

  // ---- player valuation and sales ----

  /** The value before noise: 5000 + 1000 per year of age + 10000 per potential star
      + 500 per point of the average attribute. */
  function BaseValue(age: int, potential: int, technical: int, physical: int, tactical: int, mental: int): real {
    5000.0 + age as real * 1000.0 + potential as real * 10000.0
    + ((technical + physical + tactical + mental) as real / 4.0) * 500.0
  }

  lemma ScaleBetween(base: real, factor: real)
    requires 0.8 <= factor < 1.2
    ensures base >= 0.0 ==> base * 0.8 <= base * factor <= base * 1.2
  {
    if base >= 0.0 {
      assert base * (factor - 0.8) >= 0.0;
      assert base * (1.2 - factor) >= 0.0;
    }
  }

  /** Math.round(x / 100) * 100 is a multiple of 100 within 50 of x. */
  lemma RoundToHundreds(x: real)
    ensures var v := Round(x / 100.0) * 100;
      v % 100 == 0 && x - 50.0 < v as real <= x + 50.0 && (x > -50.0 ==> v >= 0)
  {
    var h := Round(x / 100.0);
    assert (h * 100) as real == h as real * 100.0;
    assert (x / 100.0) * 100.0 == x;
    if x > -50.0 {
      assert h as real > -1.0;
    }
  }

  lemma ValueBounds(base: real, roll: real)
    requires IsRoll(roll)
    ensures var v := Round(base * (0.8 + roll * 0.4) / 100.0) * 100;
      v % 100 == 0 && (base >= 0.0 ==> 0 <= v && base * 0.8 - 50.0 < v as real <= base * 1.2 + 50.0)
  {
    var factor := 0.8 + roll * 0.4;
    var scaled := base * factor;
    RoundToHundreds(scaled);
    if base >= 0.0 {
      ScaleBetween(base, factor);
      assert 0.0 <= base * 0.8 <= scaled <= base * 1.2;
    }
  }

  /** calculatePlayerValue with its noise draw supplied: the base value scaled by a factor in
      [0.8, 1.2) and rounded to the nearest hundred. The result is a multiple of 100 within
      20% (plus rounding) of the base value, and never negative for a non-negative base. */
  function PlayerValue(age: int, potential: int, technical: int, physical: int, tactical: int, mental: int, roll: real): (value: int)
    requires IsRoll(roll)
    ensures value % 100 == 0
    ensures var base := BaseValue(age, potential, technical, physical, tactical, mental);
      base >= 0.0 ==> 0 <= value && base * 0.8 - 50.0 < value as real <= base * 1.2 + 50.0
  {
    var base := BaseValue(age, potential, technical, physical, tactical, mental);
    ValueBounds(base, roll);
    Round(base * (0.8 + roll * 0.4) / 100.0) * 100
  }

  /** The sale handler's offer: Math.round(value * (0.8 + random * 0.4)); for a non-negative
      value it is non-negative and within 20% (plus rounding) of the value. */
  function SaleOffer(value: int, roll: real): (offer: int)
    requires IsRoll(roll)
    ensures value >= 0 ==> 0 <= offer && value as real * 0.8 - 0.5 < offer as real <= value as real * 1.2 + 0.5
  {
    var factor := 0.8 + roll * 0.4;
    RoundScaled(value as real, factor);
    Round(value as real * factor)
  }

  /** Rounding base * factor, for a factor in [0.8, 1.2), stays within half a unit of
      [base * 0.8, base * 1.2]. */
  lemma RoundScaled(base: real, factor: real)
    requires 0.8 <= factor < 1.2
    ensures base >= 0.0 ==> 0 <= Round(base * factor) && base * 0.8 - 0.5 < Round(base * factor) as real <= base * 1.2 + 0.5
  {
    var scaled := base * factor;
    var n := Round(scaled);
    assert scaled - 0.5 < n as real <= scaled + 0.5;
    if base >= 0.0 {
      ScaleBetween(base, factor);
      assert 0.0 <= base * 0.8 <= scaled <= base * 1.2;
    }
  }

  // ---- random event offers ----

  /** triggerRandomEvent's base offer for the targeted player: value * (0.5 + random). */
  function BaseOffer(value: int, roll: real): (offer: real)
    requires IsRoll(roll)
    ensures value >= 0 ==> offer >= 0.0
  {
    value as real * (0.5 + roll)
  }

  /** The rescaling of one option's budget: a non-zero budget b becomes
      Math.round(baseOffer * b / 200000); a zero budget is left alone. */
  function RescaleOffer(baseOffer: real, budget: int): (scaled: int)
    ensures budget == 0 ==> scaled == 0
    ensures baseOffer >= 0.0 && budget >= 0 ==> scaled >= 0
  {
    if budget != 0 then
      assert baseOffer >= 0.0 && budget >= 0 ==> baseOffer * (budget as real / 200000.0) >= 0.0;
      Round(baseOffer * (budget as real / 200000.0))
    else budget
  }

  /** Rescaling the configured topClubInterest budgets (200000, 0, 100000): the sale pays the
      base offer, the refusal stays 0 and the bonus deal pays half the base offer. */
  lemma TopClubOffers(baseOffer: real)
    ensures var o := Config.Events()[Config.TOP_CLUB_INTEREST].options;
      && RescaleOffer(baseOffer, o[0].budget) == Round(baseOffer)
      && RescaleOffer(baseOffer, o[1].budget) == 0
      && RescaleOffer(baseOffer, o[2].budget) == Round(baseOffer / 2.0)
  {
  }

  /** Because the template is rescaled in place, a second trigger starts from the already
      rescaled budget: two triggers with a base offer of 100000 leave a sale price of 50000. */
  lemma RescaleCompounds()
    ensures RescaleOffer(100000.0, RescaleOffer(100000.0, 200000)) == 50000
  {
    assert RescaleOffer(100000.0, 200000) == 100000;
  }

  // ---- seasonal income ----

  /** The league bonus of one team: 50000 * (4 - position) for a position of at most 3. */
  function TeamBonus(position: int): (bonus: int)
    ensures bonus >= 0
    ensures position > 3 <==> bonus == 0
    ensures 1 <= position ==> bonus <= 150000
    ensures 0 <= position ==> bonus <= 200000
  {
    if position <= 3 then 50000 * (4 - position) else 0
  }

  /** The academy performance bonus over all teams' league positions. */
  function PerformanceBonus(positions: seq<int>): (bonus: int)
    ensures bonus >= 0
    ensures (forall i :: 0 <= i < |positions| ==> positions[i] >= 1) ==> bonus <= 150000 * |positions|
    ensures (forall i :: 0 <= i < |positions| ==> positions[i] >= 0) ==> bonus <= 200000 * |positions|
  {
    if positions == [] then 0 else TeamBonus(positions[0]) + PerformanceBonus(positions[1..])
  }

  /** The objectives bonus: 1000 per unit of weight of every completed objective. */
  function ObjectivesBonus(os: seq<Objective>): (bonus: int)
    ensures bonus == 1000 * CompletedWeight(os)
  {
    if os == [] then 0
    else (if os[0].completed then os[0].weight * 1000 else 0) + ObjectivesBonus(os[1..])
  }

  /** The base seasonal income. */
  const BASE_INCOME: int := 500000

  /** calculateSeasonalIncome's total: base + performance bonus + transfer revenue + objectives bonus. */
  function SeasonalIncome(positions: seq<int>, transferIncome: int, os: seq<Objective>): int {
    BASE_INCOME + PerformanceBonus(positions) + transferIncome + ObjectivesBonus(os)
  }

  /** The seasonal income is never below the base income when transfer revenue is non-negative,
      and exceeds it by at least 1000 per unit of completed objective weight. */
  lemma IncomeAtLeastBase(positions: seq<int>, transferIncome: int, os: seq<Objective>)
    requires transferIncome >= 0
    ensures SeasonalIncome(positions, transferIncome, os) >= BASE_INCOME + 1000 * CompletedWeight(os)
  {
  }

  // ---- final score and rating ----

  function LevelSum(levels: seq<int>): int {
    if levels == [] then 0 else levels[0] + LevelSum(levels[1..])
  }

  /** The average facility level. */
  function AverageLevel(levels: seq<int>): real
    requires |levels| > 0
  {
    LevelSum(levels) as real / |levels| as real
  }

  /** showFinalResults's points: championships x20, top players x10, international wins x30,
      national-team players x25, max(0, budget / 50000) and twice the average facility level above 60. */
  function FinalPoints(championships: nat, topPlayers: nat, international: nat, national: nat,
                       budget: int, levels: seq<int>): (points: real)
    requires |levels| > 0
    ensures points >= (championships * 20 + topPlayers * 10 + international * 30 + national * 25) as real
  {
    (championships * 20 + topPlayers * 10 + international * 30 + national * 25) as real
    + MaxZero(budget as real / 50000.0)
    + MaxZero(AverageLevel(levels) - 60.0) * 2.0
  }

  /** The rating thresholds {1: 0, 2: 80, 3: 150, 4: 250, 5: 400}. */
  function RatingThreshold(rating: int): int
    requires 1 <= rating <= 5
  {
    if rating == 1 then 0 else if rating == 2 then 80 else if rating == 3 then 150
    else if rating == 4 then 250 else 400
  }

  /** The final rating: the highest rating from 5 down to 2 whose threshold the points reach, else 1. */
  function Rating(points: real): (rating: int)
    ensures 1 <= rating <= 5
    ensures rating >= 2 ==> points >= RatingThreshold(rating) as real
    ensures forall k :: rating < k <= 5 ==> points < RatingThreshold(k) as real
  {
    if points >= 400.0 then 5 else if points >= 250.0 then 4
    else if points >= 150.0 then 3 else if points >= 80.0 then 2 else 1
  }

  /** More points never give a lower rating. */
  lemma RatingMonotone(p: real, q: real)
    requires p <= q
    ensures Rating(p) <= Rating(q)
  {
  }

  /** The characterisation of a rating by the thresholds singles out exactly one rating:
      the one Rating gives. */
  lemma RatingUnique(points: real, rating: int)
    requires 1 <= rating <= 5
    requires rating >= 2 ==> points >= RatingThreshold(rating) as real
    requires forall k :: rating < k <= 5 ==> points < RatingThreshold(k) as real
    ensures rating == Rating(points)
  {
  }

  /** The threshold search loop of showFinalResults: from 5 down to 2, stop at the first
      threshold met; 1 when none is. */
  method FinalRating(points: real) returns (finalRating: int)
    ensures 1 <= finalRating <= 5
    ensures finalRating >= 2 ==> points >= RatingThreshold(finalRating) as real
    ensures forall k :: finalRating < k <= 5 ==> points < RatingThreshold(k) as real
  {
    finalRating := 1;
    var rating := 5;
    while rating >= 2
      invariant 1 <= rating <= 5
      invariant finalRating == 1
      invariant forall k :: rating < k <= 5 ==> points < RatingThreshold(k) as real
    {
      if points >= RatingThreshold(rating) as real {
        finalRating := rating;
        return;
      }
      rating := rating - 1;
    }
  }
}
