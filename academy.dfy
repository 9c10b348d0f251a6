/** The game state of the academy and the operations of app.js that change it: season
    completion and income, hiring, firing, facility upgrades, player sales, random events,
    scout dispatch and release, prospect invitations and the initial roster generation.
    Every random draw, every confirm() answer and every Date.now() stamp is an argument. */
module Academy {
  import opened Numeric
  import opened Wrappers
  import opened Objectives
  import Config
  import Economy
  import Generation

  type StaffMember = Generation.StaffMember
  type Player = Generation.Player

  datatype Achievements = Achievements(
    topPlayersProduced: nat, championshipsWon: nat, internationalTournamentsWon: nat,
    playersInNationalTeam: nat, revenueFromTransfers: int)

  // ---- lookups (Array.prototype.find / findIndex) ----

  /** The index of the first element satisfying p, as Array.prototype.findIndex gives it
      (None for its -1); find returns the element at that index. */
  function FindIndex<T>(s: seq<T>, p: T -> bool): (r: Option<nat>)
    ensures r.Some? ==> r.value < |s| && p(s[r.value]) && forall k :: 0 <= k < r.value ==> !p(s[k])
    ensures r.None? <==> forall k :: 0 <= k < |s| ==> !p(s[k])
  {
    if s == [] then None
    else if p(s[0]) then Some(0)
    else match FindIndex(s[1..], p)
      case None => None
      case Some(k) => Some(k + 1)
  }

  /** The index of the first staff member with the given id. */
  function StaffIndex(staff: seq<StaffMember>, id: string): Option<nat> {
    FindIndex(staff, (m: StaffMember) => m.id == id)
  }

  /** The index of the first player with the given id. */
  function PlayerIndex(players: seq<Player>, id: string): Option<nat> {
    FindIndex(players, (p: Player) => p.id == id)
  }

  /** The index of the first facility with the given id. */
  function FacilityIndex(facilities: seq<Config.Facility>, id: string): Option<nat> {
    FindIndex(facilities, (f: Config.Facility) => f.id == id)
  }

  /** A player the topClubInterest event can be about: potential 4 or more, aged 16 to 18. */
  predicate TopClubTarget(p: Player) {
    p.potential >= 4 && 16 <= p.age <= 18
  }

  /** The index of the first player the topClubInterest event can be about. */
  function TopClubTargetIndex(players: seq<Player>): Option<nat> {
    FindIndex(players, TopClubTarget)
  }

  // ---- busy flags of scouts ----

  /** Sets the busy flag of the first staff member with the given id, if there is one. */
  function MarkOne(staff: seq<StaffMember>, id: string, busy: bool): seq<StaffMember> {
    match StaffIndex(staff, id)
      case None => staff
      case Some(j) => staff[j := staff[j].(isBusy := busy)]
  }

  /** Sets the busy flag of the first staff member with each of the ids, in turn. */
  function MarkAll(staff: seq<StaffMember>, ids: seq<string>, busy: bool): seq<StaffMember>
    decreases |ids|
  {
    if ids == [] then staff else MarkOne(MarkAll(staff, ids[..|ids| - 1], busy), ids[|ids| - 1], busy)
  }

  /** Staff member j is the first one carrying one of the ids. */
  predicate Targeted(staff: seq<StaffMember>, ids: seq<string>, j: nat) {
    exists id :: id in ids && StaffIndex(staff, id) == Some(j)
  }

  predicate SameIds(a: seq<StaffMember>, b: seq<StaffMember>) {
    |a| == |b| && forall k :: 0 <= k < |a| ==> a[k].id == b[k].id
  }

  /** Lookups by id only look at ids. */
  lemma StaffIndexByIds(a: seq<StaffMember>, b: seq<StaffMember>, id: string)
    requires SameIds(a, b)
    ensures StaffIndex(a, id) == StaffIndex(b, id)
  {
  }

  /** Marking changes exactly the busy flags of the targeted members, and nothing else. */
  lemma {:induction false} MarkAllPointwise(staff: seq<StaffMember>, ids: seq<string>, busy: bool)
    ensures var r := MarkAll(staff, ids, busy);
      && SameIds(r, staff)
      && forall j :: 0 <= j < |staff| ==> r[j] == (if Targeted(staff, ids, j) then staff[j].(isBusy := busy) else staff[j])
    decreases |ids|
  {
    if ids != [] {
      var front := ids[..|ids| - 1];
      var last := ids[|ids| - 1];
      MarkAllPointwise(staff, front, busy);
      var mid := MarkAll(staff, front, busy);
      StaffIndexByIds(mid, staff, last);
      forall j | 0 <= j < |staff|
        ensures MarkAll(staff, ids, busy)[j] == (if Targeted(staff, ids, j) then staff[j].(isBusy := busy) else staff[j])
      {
        if Targeted(staff, ids, j) {
          var id :| id in ids && StaffIndex(staff, id) == Some(j);
          if id != last {
            assert id in front;
            assert Targeted(staff, front, j);
          }
        } else {
          assert StaffIndex(staff, last) != Some(j);
        }
      }
    }
  }

  /** Releasing the scouts of a mission undoes dispatching them, when every scout sent was idle. */
  lemma ReleaseUndoesDispatch(staff: seq<StaffMember>, ids: seq<string>)
    requires forall j :: 0 <= j < |staff| && Targeted(staff, ids, j) ==> !staff[j].isBusy
    ensures MarkAll(MarkAll(staff, ids, true), ids, false) == staff
  {
    var sent := MarkAll(staff, ids, true);
    MarkAllPointwise(staff, ids, true);
    MarkAllPointwise(sent, ids, false);
    var back := MarkAll(sent, ids, false);
    forall j | 0 <= j < |staff| ensures back[j] == staff[j] {
      assert Targeted(sent, ids, j) == Targeted(staff, ids, j) by {
        forall id | id in ids ensures StaffIndex(sent, id) == StaffIndex(staff, id) {
          StaffIndexByIds(sent, staff, id);
        }
      }
    }
  }

  /** Every scout sent on a mission is busy until the mission is resolved. */
  lemma DispatchedScoutsAreBusy(staff: seq<StaffMember>, ids: seq<string>, id: string)
    requires id in ids && StaffIndex(staff, id).Some?
    ensures var r := MarkAll(staff, ids, true);
      StaffIndex(r, id) == StaffIndex(staff, id) && r[StaffIndex(staff, id).value].isBusy
  {
    MarkAllPointwise(staff, ids, true);
    StaffIndexByIds(MarkAll(staff, ids, true), staff, id);
    assert Targeted(staff, ids, StaffIndex(staff, id).value);
  }

  /** A checkbox of the dispatch dialog: the first staff member carrying the id is an idle scout. */
  predicate SelectableScout(staff: seq<StaffMember>, id: string) {
    match StaffIndex(staff, id)
      case None => false
      case Some(j) => staff[j].category == "scouts" && !staff[j].isBusy
  }

  /** The scout with the id went from idle to busy, and is still found at the same place. */
  predicate ScoutSent(before: seq<StaffMember>, after: seq<StaffMember>, id: string) {
    match StaffIndex(before, id)
      case None => false
      case Some(j) => StaffIndex(after, id) == Some(j) && j < |after| && !before[j].isBusy && after[j].isBusy
  }

  /** Scouts ticked in the dialog were idle: each one is busy once sent, and releasing them
      restores the staff as it was. */
  lemma SendSelectedScouts(staff: seq<StaffMember>, ids: seq<string>)
    requires forall k :: 0 <= k < |ids| ==> SelectableScout(staff, ids[k])
    ensures forall k :: 0 <= k < |ids| ==> ScoutSent(staff, MarkAll(staff, ids, true), ids[k])
    ensures MarkAll(MarkAll(staff, ids, true), ids, false) == staff
  {
    forall k | 0 <= k < |ids| ensures ScoutSent(staff, MarkAll(staff, ids, true), ids[k]) {
      DispatchedScoutsAreBusy(staff, ids, ids[k]);
    }
    forall j | 0 <= j < |staff| && Targeted(staff, ids, j) ensures !staff[j].isBusy {
      var id :| id in ids && StaffIndex(staff, id) == Some(j);
      var k :| 0 <= k < |ids| && ids[k] == id;
      assert SelectableScout(staff, ids[k]);
    }
    ReleaseUndoesDispatch(staff, ids);
  }

  /** The scouts a region can be scouted with: scouts that are not busy. */
  function IdleScouts(staff: seq<StaffMember>): (r: seq<StaffMember>)
    ensures forall k :: 0 <= k < |r| ==> r[k].category == "scouts" && !r[k].isBusy
    ensures |r| == 0 <==> forall k :: 0 <= k < |staff| ==> staff[k].category != "scouts" || staff[k].isBusy
  {
    if staff == [] then []
    else (if staff[0].category == "scouts" && !staff[0].isBusy then [staff[0]] else []) + IdleScouts(staff[1..])
  }

  // ---- the invariant of the game state ----

  /** The league wins that count for winYouthLeague are those of U17, U19 and U21. */
  predicate IsYouthTeam(id: string) {
    id == "u17" || id == "u19" || id == "u21"
  }

  /** The two facilities the upgradeKeyFacility objective is about. */
  predicate IsKeyFacility(id: string) {
    id == "trainingFields" || id == "medicalCenter"
  }

  predicate NoDuplicates(s: seq<string>) {
    forall i, j :: 0 <= i < j < |s| ==> s[i] != s[j]
  }

  /** The weights of the six objectives, in order. */
  const WEIGHTS: seq<nat> := [15, 20, 25, 20, 15, 5]

  /** Six objectives with the configured weights, each completed one at its requirement, a
      league requirement of 1, a balance requirement of 0 and facility progress capped at 100. */
  predicate ObjectivesValid(os: seq<Objective>) {
    && |os| == OBJECTIVE_COUNT
    && (forall i :: 0 <= i < OBJECTIVE_COUNT ==> os[i].weight == WEIGHTS[i])
    && AllConsistent(os)
    && os[WIN_YOUTH_LEAGUE].required == 1
    && os[POSITIVE_BALANCE].required == 0
    && os[UPGRADE_KEY_FACILITY].current <= FACILITY_PROGRESS_CAP
  }

  /** Every facility level lies between 0 and its maximum. */
  predicate FacilitiesValid(fs: seq<Config.Facility>) {
    |fs| > 0 && forall i :: 0 <= i < |fs| ==> 0 <= fs[i].level <= fs[i].maxLevel
  }

  /** Five event templates; the offers of topClubInterest are never negative. */
  predicate EventsValid(es: seq<Config.EventTemplate>) {
    && |es| == 5
    && forall i, k :: 0 <= i < |es| && es[i].id == "topClubInterest" && 0 <= k < |es[i].options| ==>
         es[i].options[k].budget >= 0
  }

  predicate PlayersValid(ps: seq<Player>) {
    forall i :: 0 <= i < |ps| ==> ps[i].value >= 0
  }

  datatype SeasonOutcome = GateNotMet | RunComplete(income: int, points: real, rating: int) | SeasonAdvanced(income: int)
  datatype HireOutcome = CannotAffordSalary(annualSalary: int) | Hired
  datatype UpgradeOutcome = FacilityNotFound | CannotAffordUpgrade(cost: int) | AboveMaxLevel(possibleAmount: int) | Upgraded(cost: int)
  datatype FireOutcome = StaffNotFound | CannotAffordSeverance(severance: int) | FiringDeclined | Fired(severance: int)
  datatype SaleOutcome = PlayerNotFound | TooYoungToSell | OfferDeclined(offer: int) | Sold(offer: int)
  datatype Mission = Mission(region: Config.Region, scoutIds: seq<string>, duration: int)
  datatype DispatchOutcome =
    | RegionNotFound | NoScoutsAvailable | NoScoutsSelected
    | ScoutingBudgetTooLow(cost: int) | BudgetTooLow(cost: int) | Dispatched(mission: Mission)
  datatype EventOutcome = EventSkipped | EventShown(eventIndex: nat)

  /** The staff record the hire handler pushes: category_stamp as id, idle. */
  function NewHire(role: Config.StaffRole, c: Generation.Candidate, stamp: string): (m: StaffMember)
    ensures m.category == role.category && m.salary == c.salary && m.skill == c.skill && !m.isBusy
  {
    Generation.StaffMember(role.category + "_" + stamp, role.category, role.roleId, c.experience, c.salary, c.skill, false)
  }

  /** A hire that counts for hireTopCoaches: a coach of four stars or more. */
  predicate TopCoach(role: Config.StaffRole, c: Generation.Candidate) {
    role.category == "coaches" && c.skill >= 4
  }

  function Positions(ts: seq<Config.TeamConfig>): (ps: seq<int>)
    ensures |ps| == |ts| && forall i :: 0 <= i < |ts| ==> ps[i] == ts[i].position
  {
    seq(|ts|, i requires 0 <= i < |ts| => ts[i].position)
  }

  function Levels(fs: seq<Config.Facility>): (ls: seq<int>)
    ensures |ls| == |fs| && forall i :: 0 <= i < |fs| ==> ls[i] == fs[i].level
  {
    seq(|fs|, i requires 0 <= i < |fs| => fs[i].level)
  }

  /** Some youth team (U17, U19, U21) finished first. */
  predicate YouthLeagueWon(ts: seq<Config.TeamConfig>) {
    exists t :: 0 <= t < |ts| && ts[t].position == 1 && IsYouthTeam(ts[t].id)
  }

  /** The objectives after a league win was recorded, if one was recorded. */
  function RecordLeagueWin(os: seq<Objective>, won: bool): seq<Objective>
    requires |os| == OBJECTIVE_COUNT
  {
    if won && !os[WIN_YOUTH_LEAGUE].completed
    then os[WIN_YOUTH_LEAGUE := os[WIN_YOUTH_LEAGUE].(current := 1, completed := true)]
    else os
  }

  /** The championships a league draw adds: one for a youth win while winYouthLeague is open. */
  function NewChampionship(os: seq<Objective>, won: bool): int
    requires |os| == OBJECTIVE_COUNT
  {
    if won && !os[WIN_YOUTH_LEAGUE].completed then 1 else 0
  }

  /** The objectives once positiveBalance records whether the budget is non-negative. */
  function BalanceSettled(os: seq<Objective>, budget: int): seq<Objective>
    requires |os| == OBJECTIVE_COUNT
  {
    os[POSITIVE_BALANCE := os[POSITIVE_BALANCE].(completed := budget >= 0)]
  }

  /** The objectives completeCurrentSeason pays the income on: the balance settled, then a
      youth league win of the drawn teams recorded. */
  function SettledObjectives(os: seq<Objective>, budget: int, drawn: seq<Config.TeamConfig>): seq<Objective>
    requires |os| == OBJECTIVE_COUNT
  {
    RecordLeagueWin(BalanceSettled(os, budget), YouthLeagueWon(drawn))
  }

  /** The configured region with the given id, if any. */
  function FindRegion(regionId: string): (r: Option<Config.Region>)
    ensures r.Some? ==> r.value in Config.Regions() && r.value.id == regionId
    ensures r.None? <==> forall i :: 0 <= i < |Config.Regions()| ==> Config.Regions()[i].id != regionId
  {
    var i := FindIndex(Config.Regions(), (r: Config.Region) => r.id == regionId);
    if i.None? then None else Some(Config.Regions()[i.value])
  }

  /** The checks of upgradeFacility, in order: an unknown facility, a budget below the cost
      (rounded from cost/100 * amount * (1 + level/100)), a level that would pass the maximum.
      Upgraded when all pass. */
  function UpgradeDecision(fs: seq<Config.Facility>, facilityId: string, amount: nat, budget: int): (outcome: UpgradeOutcome)
    ensures outcome == FacilityNotFound <==> FacilityIndex(fs, facilityId).None?
    ensures FacilityIndex(fs, facilityId).Some? ==>
      var f := fs[FacilityIndex(fs, facilityId).value];
      var cost := Economy.UpgradeCost(f.cost, amount, f.level);
      && (outcome == CannotAffordUpgrade(cost) <==> budget < cost)
      && (budget >= cost && f.level + amount > f.maxLevel ==> outcome == AboveMaxLevel(f.maxLevel - f.level))
      && (outcome == Upgraded(cost) <==> budget >= cost && f.level + amount <= f.maxLevel)
    ensures outcome.Upgraded? ==> budget >= outcome.cost
  {
    match FacilityIndex(fs, facilityId)
      case None => FacilityNotFound
      case Some(i) =>
        var f := fs[i];
        var cost := Economy.UpgradeCost(f.cost, amount, f.level);
        if budget < cost then CannotAffordUpgrade(cost)
        else if f.level + amount > f.maxLevel then AboveMaxLevel(f.maxLevel - f.level)
        else Upgraded(cost)
  }

  /** The upgradeKeyFacility objective after an upgrade: while it is open, an upgrade of
      trainingFields or medicalCenter fixes the key facility if none is fixed yet, and an
      upgrade of the key facility adds the amount (capped at 100) and recomputes the progress. */
  predicate KeyFacilityTracked(facilityId: string, amount: nat, os: seq<Objective>, key: Option<string>, progress: int,
                               os': seq<Objective>, key': Option<string>, progress': int)
    requires |os| == OBJECTIVE_COUNT
  {
    var objective := os[UPGRADE_KEY_FACILITY];
    if IsKeyFacility(facilityId) && !objective.completed then
      && key' == (if key.None? then Some(facilityId) else key)
      && (if key' == Some(facilityId) then
            os' == os[UPGRADE_KEY_FACILITY := AdvanceCapped(objective, amount)] && progress' == ProgressPercent(os')
          else os' == os && progress' == progress)
    else key' == key && os' == os && progress' == progress
  }

  /** showFinalResults: the points of the run and the rating the threshold loop gives them. */
  method FinalResults(achievements: Achievements, budget: int, facilities: seq<Config.Facility>)
    returns (points: real, rating: int)
    requires |facilities| > 0
    ensures points == Economy.FinalPoints(achievements.championshipsWon, achievements.topPlayersProduced,
      achievements.internationalTournamentsWon, achievements.playersInNationalTeam, budget, Levels(facilities))
    ensures rating == Economy.Rating(points)
  {
    points := Economy.FinalPoints(achievements.championshipsWon, achievements.topPlayersProduced,
      achievements.internationalTournamentsWon, achievements.playersInNationalTeam, budget, Levels(facilities));
    rating := Economy.FinalRating(points);
    Economy.RatingUnique(points, rating);
  }

  /** The reason scoutRegion refuses a dispatch, checked in this order: an unknown region,
      no idle scout, no scout selected, a scouting budget below the price, a budget below the
      price. None when the dispatch goes ahead. */
  function DispatchRejection(regionId: string, staff: seq<StaffMember>, selected: seq<string>, duration: int,
                             scoutingBudget: int, budget: int): (r: Option<DispatchOutcome>)
    ensures r.None? <==>
      && FindRegion(regionId).Some?
      && (exists k :: 0 <= k < |staff| && staff[k].category == "scouts" && !staff[k].isBusy)
      && |selected| > 0
      && scoutingBudget >= Economy.ScoutingCost(duration)
      && budget >= Economy.ScoutingCost(duration)
    ensures r.Some? ==> !r.value.Dispatched?
  {
    var cost := Economy.ScoutingCost(duration);
    if FindRegion(regionId).None? then Some(RegionNotFound)
    else if |IdleScouts(staff)| == 0 then Some(NoScoutsAvailable)
    else if |selected| == 0 then Some(NoScoutsSelected)
    else if scoutingBudget < cost then Some(ScoutingBudgetTooLow(cost))
    else if budget < cost then Some(BudgetTooLow(cost))
    else None
  }

  /** The scoutRegionsDeep update of a dispatch, as a relation between the state before and after. */
  predicate DeepScoutingCounted(regions: seq<string>, os: seq<Objective>, progress: int, regionId: string, duration: int,
                                regions': seq<string>, os': seq<Objective>, progress': int)
    requires |os| == OBJECTIVE_COUNT
  {
    var deep := os[SCOUT_REGIONS_DEEP];
    if duration >= 2 && regionId !in regions && !deep.completed then
      && regions' == regions + [regionId]
      && os' == os[SCOUT_REGIONS_DEEP := Advance(deep, 1)]
      && progress' == ProgressPercent(os')
    else regions' == regions && os' == os && progress' == progress
  }

  /** The league position a draw gives a team: Math.ceil(random * maxTeams). */
  function Drawn(team: Config.TeamConfig, roll: real): Config.TeamConfig {
    team.(position := Ceil(roll * team.maxTeams as real))
  }

  /** The invariant of the game state: valid objectives whose scouting count matches the
      regions scouted this season, a key facility only among the key ones, facility levels
      within bounds, five events with non-negative topClubInterest offers, players of
      non-negative value, season 1..5 of 5, progress in percent and non-negative transfer
      revenue. */
  predicate StateValid(objectives: seq<Objective>, scoutedRegions: seq<string>, keyFacilityType: Option<string>,
                       facilities: seq<Config.Facility>, events: seq<Config.EventTemplate>, players: seq<Player>,
                       currentSeason: int, totalSeasons: int, seasonProgress: int, achievements: Achievements)
  {
    && ObjectivesValid(objectives)
    && |scoutedRegions| == objectives[SCOUT_REGIONS_DEEP].current
    && NoDuplicates(scoutedRegions)
    && (keyFacilityType.Some? ==> IsKeyFacility(keyFacilityType.value))
    && FacilitiesValid(facilities)
    && EventsValid(events)
    && PlayersValid(players)
    && totalSeasons == 5 && 1 <= currentSeason <= totalSeasons
    && 0 <= seasonProgress <= 100
    && achievements.revenueFromTransfers >= 0
  }

  /** The initial gameState satisfies the invariant. */
  lemma InitialStateValid()
    ensures StateValid(InitialObjectives(), [], None, Config.Facilities(), Config.Events(), [],
                       1, 5, 0, Achievements(0, 0, 0, 0, 0))
  {
  }

  class GameState {
    var budget: int
    var teams: seq<Config.TeamConfig>
    var facilities: seq<Config.Facility>
    var staff: seq<StaffMember>
    var players: seq<Player>
    var scoutingBudget: int
    var budgetDistribution: Config.BudgetShares
    var currentSeason: int
    var totalSeasons: int
    var scoutedRegions: seq<string>
    var objectives: seq<Objective>
    var keyFacilityType: Option<string>
    var seasonProgress: int
    var achievements: Achievements
    /** The event templates of config.js, which the topClubInterest trigger rewrites in place. */
    var events: seq<Config.EventTemplate>

    predicate Valid()
      reads this
    {
      StateValid(objectives, scoutedRegions, keyFacilityType, facilities, events, players,
                 currentSeason, totalSeasons, seasonProgress, achievements)
    }

    /** The initial gameState (app.js:6-37), before the roster is generated. */
    constructor ()
      ensures Valid()
      ensures budget == Config.INITIAL_BUDGET && teams == Config.AcademyTeams() && facilities == Config.Facilities()
      ensures staff == [] && players == [] && scoutingBudget == 150000 && budgetDistribution == Config.BudgetDefaults()
      ensures currentSeason == 1 && totalSeasons == 5 && scoutedRegions == []
      ensures objectives == InitialObjectives() && keyFacilityType == None && seasonProgress == 0
      ensures achievements == Achievements(0, 0, 0, 0, 0) && events == Config.Events()
    {
      InitialStateValid();
      budget := Config.INITIAL_BUDGET;
      teams := Config.AcademyTeams();
      facilities := Config.Facilities();
      staff := [];
      players := [];
      scoutingBudget := 150000;
      budgetDistribution := Config.BudgetDefaults();
      currentSeason := 1;
      totalSeasons := 5;
      scoutedRegions := [];
      objectives := InitialObjectives();
      keyFacilityType := None;
      seasonProgress := 0;
      achievements := Achievements(0, 0, 0, 0, 0);
      events := Config.Events();
    }

    /** updateSeasonProgress: the weighted completion of the objectives. */
    method UpdateSeasonProgress()
      requires Valid()
      modifies this`seasonProgress
      ensures Valid()
      ensures seasonProgress == ProgressPercent(objectives)
    {
      seasonProgress := ComputeProgress(objectives);
    }

    /** The hire button of a candidate: rejected when a year of salary exceeds the budget;
        otherwise the candidate joins the staff idle, the budget is left as it is, and a coach
        of four stars or more counts for hireTopCoaches. */
    method HireCandidate(role: Config.StaffRole, candidate: Generation.Candidate, stamp: string) returns (outcome: HireOutcome)
      requires Valid()
      modifies this`staff, this`objectives, this`seasonProgress
      ensures Valid()
      ensures budget < candidate.salary * 12 ==>
        outcome == CannotAffordSalary(candidate.salary * 12) && unchanged(this)
      ensures budget >= candidate.salary * 12 ==>
        && outcome == Hired
        && staff == old(staff) + [NewHire(role, candidate, stamp)]
        && var coach := old(objectives)[HIRE_TOP_COACHES];
           if TopCoach(role, candidate) && !coach.completed then
             objectives == old(objectives)[HIRE_TOP_COACHES := Advance(coach, 1)]
             && seasonProgress == ProgressPercent(objectives)
           else objectives == old(objectives) && seasonProgress == old(seasonProgress)
    {
      if budget < candidate.salary * 12 {
        return CannotAffordSalary(candidate.salary * 12);
      }
      staff := staff + [NewHire(role, candidate, stamp)];
      var coach := objectives[HIRE_TOP_COACHES];
      if TopCoach(role, candidate) && !coach.completed {
        objectives := objectives[HIRE_TOP_COACHES := Advance(coach, 1)];
        UpdateSeasonProgress();
      }
      outcome := Hired;
    }

    /** inviteProspect: a prospect of potential 5 counts for findTopTalents until it is completed. */
    method InviteProspect(prospect: Generation.Prospect)
      requires Valid()
      modifies this`objectives, this`seasonProgress
      ensures Valid()
      ensures var talents := old(objectives)[FIND_TOP_TALENTS];
        if prospect.potential == 5 && !talents.completed then
          objectives == old(objectives)[FIND_TOP_TALENTS := Advance(talents, 1)]
          && seasonProgress == ProgressPercent(objectives)
        else objectives == old(objectives) && seasonProgress == old(seasonProgress)
    {
      var talents := objectives[FIND_TOP_TALENTS];
      if prospect.potential == 5 && !talents.completed {
        objectives := objectives[FIND_TOP_TALENTS := Advance(talents, 1)];
        UpdateSeasonProgress();
      }
    }

    /** upgradeFacility: the price is checked before the maximum level; a successful upgrade
        raises the level by exactly the amount and debits exactly the price. The first key
        facility upgraded while the objective is open becomes the objective's facility, and
        only upgrades of that facility advance it, capped at 100. */
    method UpgradeFacility(facilityId: string, amount: nat) returns (outcome: UpgradeOutcome)
      requires Valid()
      modifies this`budget, this`facilities, this`objectives, this`keyFacilityType, this`seasonProgress
      ensures Valid()
      ensures outcome == UpgradeDecision(old(facilities), facilityId, amount, old(budget))
      ensures !outcome.Upgraded? ==> unchanged(this)
      ensures outcome.Upgraded? ==>
        var i := FacilityIndex(old(facilities), facilityId).value;
        && budget == old(budget) - outcome.cost
        && facilities == old(facilities)[i := old(facilities)[i].(level := old(facilities)[i].level + amount)]
        && KeyFacilityTracked(facilityId, amount, old(objectives), old(keyFacilityType), old(seasonProgress),
                              objectives, keyFacilityType, seasonProgress)
    {
      outcome := UpgradeDecision(facilities, facilityId, amount, budget);
      if !outcome.Upgraded? {
        return;
      }
      var i := FacilityIndex(facilities, facilityId).value;
      var facility := facilities[i];
      facilities := facilities[i := facility.(level := facility.level + amount)];
      budget := budget - outcome.cost;
      TrackKeyFacility(facilityId, amount);
    }

    /** The upgradeKeyFacility objective after a successful upgrade. */
    method TrackKeyFacility(facilityId: string, amount: nat)
      requires Valid()
      modifies this`objectives, this`keyFacilityType, this`seasonProgress
      ensures Valid()
      ensures KeyFacilityTracked(facilityId, amount, old(objectives), old(keyFacilityType), old(seasonProgress),
                                 objectives, keyFacilityType, seasonProgress)
    {
      var key := objectives[UPGRADE_KEY_FACILITY];
      if IsKeyFacility(facilityId) && !key.completed {
        if keyFacilityType.None? {
          keyFacilityType := Some(facilityId);
        }
        if keyFacilityType == Some(facilityId) {
          objectives := objectives[UPGRADE_KEY_FACILITY := AdvanceCapped(key, amount)];
          UpdateSeasonProgress();
        }
      }
    }

    /** fireStaff: an unknown id changes nothing; the severance is three months of salary and
        firing is refused when the budget cannot pay it; once confirmed, exactly the
        severance is debited and exactly that member leaves the staff. */
    method FireStaff(staffId: string, confirmed: bool) returns (outcome: FireOutcome)
      requires Valid()
      modifies this`budget, this`staff
      ensures Valid()
      ensures StaffIndex(old(staff), staffId).None? ==> outcome == StaffNotFound && unchanged(this)
      ensures StaffIndex(old(staff), staffId).Some? ==>
        var i := StaffIndex(old(staff), staffId).value;
        var severance := old(staff)[i].salary * 3;
        && (old(budget) < severance ==> outcome == CannotAffordSeverance(severance) && unchanged(this))
        && (old(budget) >= severance && !confirmed ==> outcome == FiringDeclined && unchanged(this))
        && (old(budget) >= severance && confirmed ==>
              && outcome == Fired(severance)
              && budget == old(budget) - severance
              && staff == old(staff)[..i] + old(staff)[i + 1..])
    {
      var found := StaffIndex(staff, staffId);
      if found.None? {
        return StaffNotFound;
      }
      var i := found.value;
      var severancePay := staff[i].salary * 3;
      if budget < severancePay {
        return CannotAffordSeverance(severancePay);
      }
      if !confirmed {
        return FiringDeclined;
      }
      budget := budget - severancePay;
      staff := staff[..i] + staff[i + 1..];
      outcome := Fired(severancePay);
    }

    /** The sale button of a player: disabled below age 16; the offer is the value scaled by a
        factor in [0.8, 1.2); once accepted the offer is credited to the budget and to the
        transfer revenue and the player leaves the academy. */
    method SellPlayer(playerId: string, offerRoll: real, accepted: bool) returns (outcome: SaleOutcome)
      requires Valid() && IsRoll(offerRoll)
      modifies this`budget, this`players, this`achievements
      ensures Valid()
      ensures PlayerIndex(old(players), playerId).None? ==> outcome == PlayerNotFound && unchanged(this)
      ensures PlayerIndex(old(players), playerId).Some? ==>
        var i := PlayerIndex(old(players), playerId).value;
        var p := old(players)[i];
        var offer := Economy.SaleOffer(p.value, offerRoll);
        && (p.age < 16 ==> outcome == TooYoungToSell && unchanged(this))
        && (p.age >= 16 && !accepted ==> outcome == OfferDeclined(offer) && unchanged(this))
        && (p.age >= 16 && accepted ==>
              && outcome == Sold(offer)
              && offer >= 0
              && budget == old(budget) + offer
              && achievements == old(achievements).(revenueFromTransfers := old(achievements).revenueFromTransfers + offer)
              && players == old(players)[..i] + old(players)[i + 1..])
    {
      var found := PlayerIndex(players, playerId);
      if found.None? {
        return PlayerNotFound;
      }
      var i := found.value;
      var player := players[i];
      if player.age < 16 {
        return TooYoungToSell;
      }
      var offer := Economy.SaleOffer(player.value, offerRoll);
      if !accepted {
        return OfferDeclined(offer);
      }
      budget := budget + offer;
      achievements := achievements.(revenueFromTransfers := achievements.revenueFromTransfers + offer);
      players := players[..i] + players[i + 1..];
      outcome := Sold(offer);
    }
  
    /** Sets the busy flag of the first staff member with each id in turn (the forEach over
        the selected scouts at dispatch and at release). */
    method SetScoutsBusy(ids: seq<string>, busy: bool)
      modifies this`staff
      ensures staff == MarkAll(old(staff), ids, busy)
    {
      var k := 0;
      while k < |ids|
        invariant 0 <= k <= |ids|
        invariant staff == MarkAll(old(staff), ids[..k], busy)
      {
        assert ids[..k + 1][..k] == ids[..k];
        var scout := StaffIndex(staff, ids[k]);
        if scout.Some? {
          staff := staff[scout.value := staff[scout.value].(isBusy := busy)];
        }
        k := k + 1;
      }
      assert ids[..|ids|] == ids;
    }

    /** The dispatch of scoutRegion: the dialog offers only idle scouts. When DispatchRejection
        finds a reason to refuse, nothing changes. Otherwise the budget (but not the scouting
        budget) pays the price, the selected scouts go from idle to busy, so that none can join
        a second mission until this one is resolved, and the mission is counted for
        scoutRegionsDeep at once. */
    method DispatchScouts(regionId: string, selected: seq<string>, duration: int) returns (outcome: DispatchOutcome)
      requires Valid()
      requires forall k :: 0 <= k < |selected| ==> SelectableScout(staff, selected[k])
      modifies this`budget, this`staff, this`scoutedRegions, this`objectives, this`seasonProgress
      ensures Valid()
      ensures var rejection := DispatchRejection(regionId, old(staff), selected, duration, old(scoutingBudget), old(budget));
        && (rejection.Some? ==> outcome == rejection.value && unchanged(this))
        && (rejection.None? ==>
              && outcome == Dispatched(Mission(FindRegion(regionId).value, selected, duration))
              && budget == old(budget) - Economy.ScoutingCost(duration)
              && staff == MarkAll(old(staff), selected, true)
              && (forall k :: 0 <= k < |selected| ==> ScoutSent(old(staff), staff, selected[k]))
              && MarkAll(staff, selected, false) == old(staff)
              && DeepScoutingCounted(old(scoutedRegions), old(objectives), old(seasonProgress), regionId, duration,
                                     scoutedRegions, objectives, seasonProgress))
    {
      var rejection := DispatchRejection(regionId, staff, selected, duration, scoutingBudget, budget);
      if rejection.Some? {
        return rejection.value;
      }
      SendSelectedScouts(staff, selected);
      Launch(regionId, selected, duration);
      outcome := Dispatched(Mission(FindRegion(regionId).value, selected, duration));
    }

    /** The bookkeeping of an accepted dispatch: the price is paid, the selected (idle) scouts
        are marked busy and the deep-scouting objective is counted. */
    method Launch(regionId: string, selected: seq<string>, duration: int)
      requires Valid()
      requires forall k :: 0 <= k < |selected| ==> SelectableScout(staff, selected[k])
      modifies this`budget, this`staff, this`scoutedRegions, this`objectives, this`seasonProgress
      ensures Valid()
      ensures budget == old(budget) - Economy.ScoutingCost(duration)
      ensures staff == MarkAll(old(staff), selected, true)
      ensures DeepScoutingCounted(old(scoutedRegions), old(objectives), old(seasonProgress), regionId, duration,
                                  scoutedRegions, objectives, seasonProgress)
    {
      budget := budget - Economy.ScoutingCost(duration);
      SetScoutsBusy(selected, true);
      CountDeepScouting(regionId, duration);
    }

    /** The objective update at dispatch: a mission of two weeks or more to a region not yet
        scouted this season counts for scoutRegionsDeep while it is open. */
    method CountDeepScouting(regionId: string, duration: int)
      requires Valid()
      modifies this`scoutedRegions, this`objectives, this`seasonProgress
      ensures Valid()
      ensures DeepScoutingCounted(old(scoutedRegions), old(objectives), old(seasonProgress), regionId, duration,
                                  scoutedRegions, objectives, seasonProgress)
    {
      var deep := objectives[SCOUT_REGIONS_DEEP];
      if duration >= 2 && regionId !in scoutedRegions && !deep.completed {
        scoutedRegions := scoutedRegions + [regionId];
        objectives := objectives[SCOUT_REGIONS_DEEP := Advance(deep, 1)];
        UpdateSeasonProgress();
      }
    }

    /** The end of a mission: the prospects are generated and the scouts of the mission are
        released. */
    method ResolveMission(mission: Mission, noiseRoll: real, rolls: seq<Generation.ProspectRolls>, stamp: string)
      returns (prospects: seq<Generation.Prospect>)
      requires IsRoll(noiseRoll)
      requires forall i :: 0 <= i < |rolls| ==> Generation.ValidProspectRolls(rolls[i])
      requires |rolls| >= Generation.ProspectCount(mission.region.talentRating, |mission.scoutIds|, mission.duration, noiseRoll)
      modifies this`staff
      ensures staff == MarkAll(old(staff), mission.scoutIds, false)
      ensures var n := Generation.ProspectCount(mission.region.talentRating, |mission.scoutIds|, mission.duration, noiseRoll);
        multiset(prospects) == multiset(Generation.Unsorted(mission.region, mission.duration, stamp, rolls, n))
      ensures Generation.SortedByPotential(prospects)
    {
      prospects := Generation.GenerateScoutingResults(mission.region, |mission.scoutIds|, mission.duration, noiseRoll, rolls, stamp);
      SetScoutsBusy(mission.scoutIds, false);
    }

    /** completeCurrentSeason: refused below the 80% gate; otherwise the balance objective
        is settled, the seasonal income of the drawn league is paid and transfer revenue reset.
        After the last season the run ends with its points and rating; before it the summary
        screen draws the league once more for its projection, and the next season starts with
        reset objectives. At most one championship is added: the second draw can only record
        a win the first one missed. */
    method CompleteCurrentSeason(incomeRolls: seq<real>, summaryRolls: seq<real>) returns (outcome: SeasonOutcome)
      requires Valid()
      requires |incomeRolls| == |teams| && AllRolls(incomeRolls)
      requires |summaryRolls| == |teams| && AllRolls(summaryRolls)
      modifies this`budget, this`teams, this`objectives, this`achievements, this`seasonProgress,
               this`currentSeason, this`scoutedRegions, this`keyFacilityType
      ensures Valid()
      ensures outcome.GateNotMet? <==> !SeasonCompletable(old(seasonProgress))
      ensures outcome.GateNotMet? ==> unchanged(this)
      ensures !outcome.GateNotMet? ==>
        var drawn := DrawnUpTo(old(teams), incomeRolls, |old(teams)|);
        && budget == old(budget) + outcome.income
        && outcome.income == Economy.SeasonalIncome(Positions(drawn), old(achievements).revenueFromTransfers,
                                                    SettledObjectives(old(objectives), old(budget), drawn))
        && outcome.income >= Economy.BASE_INCOME + old(achievements).revenueFromTransfers + (if old(budget) >= 0 then 5000 else 0)
        && achievements.revenueFromTransfers == 0
        && old(achievements).championshipsWon <= achievements.championshipsWon <= old(achievements).championshipsWon + 1
      ensures outcome.RunComplete? <==> SeasonCompletable(old(seasonProgress)) && old(currentSeason) == totalSeasons
      ensures outcome.RunComplete? ==>
        var drawn := DrawnUpTo(old(teams), incomeRolls, |old(teams)|);
        && teams == drawn
        && objectives == SettledObjectives(old(objectives), old(budget), drawn)
        && seasonProgress == ProgressPercent(BalanceSettled(old(objectives), old(budget)))
        && achievements == old(achievements).(revenueFromTransfers := 0,
             championshipsWon := old(achievements).championshipsWon + NewChampionship(old(objectives), YouthLeagueWon(drawn)))
        && currentSeason == old(currentSeason)
        && scoutedRegions == old(scoutedRegions) && keyFacilityType == old(keyFacilityType)
        && outcome.points == Economy.FinalPoints(achievements.championshipsWon, achievements.topPlayersProduced,
             achievements.internationalTournamentsWon, achievements.playersInNationalTeam, budget, Levels(facilities))
        && outcome.rating == Economy.Rating(outcome.points)
      ensures outcome.SeasonAdvanced? ==>
        var drawn := DrawnUpTo(old(teams), incomeRolls, |old(teams)|);
        && teams == DrawnUpTo(drawn, summaryRolls, |drawn|)
        && achievements == old(achievements).(revenueFromTransfers := 0,
             championshipsWon := old(achievements).championshipsWon +
               NewChampionship(old(objectives), YouthLeagueWon(drawn) || YouthLeagueWon(teams)))
        && currentSeason == old(currentSeason) + 1
        && seasonProgress == 0 && scoutedRegions == [] && keyFacilityType == None
        && objectives == Rollover(old(objectives), currentSeason)
    {
      if !SeasonCompletable(seasonProgress) {
        return GateNotMet;
      }
      var income := Settle(incomeRolls);
      if currentSeason >= totalSeasons {
        var points, rating := FinalResults(achievements, budget, facilities);
        return RunComplete(income, points, rating);
      }
      ghost var settled := objectives;
      ShowSummaryAndAdvance(summaryRolls);
      RolloverIgnoresProgress(old(objectives), settled, currentSeason);
      outcome := SeasonAdvanced(income);
    }

    /** The settlement part of completeCurrentSeason: positiveBalance.completed := budget >= 0,
        progress recomputed, the league drawn and its income added to the budget, transfer
        revenue reset. The league win is recorded after the progress was computed, so the
        progress does not count it. */
    method Settle(incomeRolls: seq<real>) returns (income: int)
      requires Valid() && |incomeRolls| == |teams| && AllRolls(incomeRolls)
      modifies this`budget, this`teams, this`objectives, this`achievements, this`seasonProgress
      ensures Valid()
      ensures teams == DrawnUpTo(old(teams), incomeRolls, |old(teams)|)
      ensures objectives == SettledObjectives(old(objectives), old(budget), teams)
      ensures seasonProgress == ProgressPercent(BalanceSettled(old(objectives), old(budget)))
      ensures achievements == old(achievements).(revenueFromTransfers := 0,
        championshipsWon := old(achievements).championshipsWon + NewChampionship(old(objectives), YouthLeagueWon(teams)))
      ensures budget == old(budget) + income
      ensures income == Economy.SeasonalIncome(Positions(teams), old(achievements).revenueFromTransfers, objectives)
      ensures income >= Economy.BASE_INCOME + old(achievements).revenueFromTransfers + (if old(budget) >= 0 then 5000 else 0)
      ensures achievements.championshipsWon > old(achievements).championshipsWon ==> objectives[WIN_YOUTH_LEAGUE].completed
    {
      SettleBalance();
      income := CalculateSeasonalIncome(incomeRolls);
      if objectives[POSITIVE_BALANCE].completed {
        BalanceBonus(objectives);
      }
      budget := budget + income;
      achievements := achievements.(revenueFromTransfers := 0);
    }

    /** positiveBalance.completed := budget >= 0, then the progress is recomputed. */
    method SettleBalance()
      requires Valid()
      modifies this`objectives, this`seasonProgress
      ensures Valid()
      ensures objectives == BalanceSettled(old(objectives), budget)
      ensures seasonProgress == ProgressPercent(objectives)
    {
      objectives := BalanceSettled(objectives, budget);
      UpdateSeasonProgress();
    }

    /** The rest of completeCurrentSeason before the last season: the summary screen calls
        calculateSeasonalIncome again for its projection (redrawing the league, and recording
        a youth win only while winYouthLeague is still open) and the next season starts. */
    method ShowSummaryAndAdvance(summaryRolls: seq<real>)
      requires Valid() && currentSeason < totalSeasons
      requires |summaryRolls| == |teams| && AllRolls(summaryRolls)
      modifies this`teams, this`objectives, this`achievements, this`seasonProgress,
               this`currentSeason, this`scoutedRegions, this`keyFacilityType
      ensures Valid()
      ensures teams == DrawnUpTo(old(teams), summaryRolls, |old(teams)|)
      ensures achievements == old(achievements).(championshipsWon :=
        old(achievements).championshipsWon + NewChampionship(old(objectives), YouthLeagueWon(teams)))
      ensures old(objectives)[WIN_YOUTH_LEAGUE].completed ==> achievements.championshipsWon == old(achievements).championshipsWon
      ensures currentSeason == old(currentSeason) + 1 && seasonProgress == 0
      ensures scoutedRegions == [] && keyFacilityType == None
      ensures objectives == Rollover(old(objectives), currentSeason)
    {
      var projected := CalculateSeasonalIncome(summaryRolls);
      RolloverIgnoresProgress(old(objectives), objectives, currentSeason + 1);
      StartNextSeason();
    }

    /** The start of the next season: the counter advances, progress and scouted regions are
        cleared, the objectives are reset and escalated, and the key facility is forgotten. */
    method StartNextSeason()
      requires Valid() && currentSeason < totalSeasons
      modifies this`currentSeason, this`seasonProgress, this`scoutedRegions, this`objectives, this`keyFacilityType
      ensures Valid()
      ensures currentSeason == old(currentSeason) + 1 && seasonProgress == 0
      ensures scoutedRegions == [] && keyFacilityType == None
      ensures objectives == Rollover(old(objectives), currentSeason)
    {
      currentSeason := currentSeason + 1;
      seasonProgress := 0;
      scoutedRegions := [];
      objectives := Rollover(objectives, currentSeason);
      keyFacilityType := None;
    }

    /** triggerRandomEvent: the event is drawn from the list. For topClubInterest the first
        player with potential of at least 4 aged 16 to 18 is the subject; without one the event
        is skipped, with one the option budgets are rescaled in place to the offer for that
        player and every option names the player. */
    method TriggerRandomEvent(eventRoll: real, offerRoll: real) returns (outcome: EventOutcome)
      requires Valid() && IsRoll(eventRoll) && IsRoll(offerRoll)
      modifies this`events
      ensures Valid()
      ensures var i := (eventRoll * |old(events)| as real).Floor;
        && 0 <= i < |old(events)|
        && (old(events)[i].id != "topClubInterest" ==> outcome == EventShown(i) && events == old(events))
        && (old(events)[i].id == "topClubInterest" && TopClubTargetIndex(players).None? ==>
              outcome == EventSkipped && events == old(events))
        && (old(events)[i].id == "topClubInterest" && TopClubTargetIndex(players).Some? ==>
              var p := players[TopClubTargetIndex(players).value];
              && outcome == EventShown(i)
              && events == old(events)[i := old(events)[i].(options :=
                   RescaledOptions(old(events)[i].options, Economy.BaseOffer(p.value, offerRoll), p.id))])
    {
      FloorRollBelow(eventRoll, |events|);
      var i := (eventRoll * |events| as real).Floor;
      if events[i].id == "topClubInterest" {
        var target := TopClubTargetIndex(players);
        if target.None? {
          return EventSkipped;
        }
        var player := players[target.value];
        var baseOffer := Economy.BaseOffer(player.value, offerRoll);
        var options := RescaleOptions(events[i].options, baseOffer, player.id);
        events := events[i := events[i].(options := options)];
      }
      outcome := EventShown(i);
    }

    /** handleEventOption: the option's budget is added; for topClubInterest a sale removes the
        named player and books the fee as transfer revenue, a refusal changes nothing more, a
        bonus deal books its fee; a positive infrastructure value improves one facility drawn
        at random by that much, capped at its maximum level. */
    method ApplyEventOption(eventIndex: nat, optionIndex: nat, facilityRoll: real)
      requires Valid() && eventIndex < |events| && optionIndex < |events[eventIndex].options| && IsRoll(facilityRoll)
      modifies this`budget, this`players, this`achievements, this`facilities
      ensures Valid()
      ensures var option := events[eventIndex].options[optionIndex];
        && budget == old(budget) + option.budget
        && (events[eventIndex].id == "topClubInterest" ==>
              TopClubSettled(option, old(players), old(achievements), players, achievements))
        && (events[eventIndex].id != "topClubInterest" ==>
              players == old(players) && achievements == old(achievements))
        && FacilityImproved(option.infrastructure, facilityRoll, old(facilities), facilities)
    {
      var event := events[eventIndex];
      var option := event.options[optionIndex];
      budget := budget + option.budget;
      if event.id == "topClubInterest" {
        SettleTopClub(option);
      }
      ImproveRandomFacility(option.infrastructure, facilityRoll);
    }

    /** The topClubInterest branch of handleEventOption. */
    method SettleTopClub(option: Config.EventOption)
      requires Valid() && option.budget >= 0
      modifies this`players, this`achievements
      ensures Valid()
      ensures TopClubSettled(option, old(players), old(achievements), players, achievements)
    {
      if option.talentLoss && option.playerId.Some? {
        var found := PlayerIndex(players, option.playerId.value);
        if found.Some? {
          var i := found.value;
          players := players[..i] + players[i + 1..];
          achievements := achievements.(revenueFromTransfers := achievements.revenueFromTransfers + option.budget);
        }
      } else if option.talentRetention {
      } else if option.partialRetention && option.playerId.Some? {
        achievements := achievements.(revenueFromTransfers := achievements.revenueFromTransfers + option.budget);
      }
    }

    /** The infrastructure branch of handleEventOption. */
    method ImproveRandomFacility(infrastructure: int, facilityRoll: real)
      requires Valid() && IsRoll(facilityRoll)
      modifies this`facilities
      ensures Valid()
      ensures FacilityImproved(infrastructure, facilityRoll, old(facilities), facilities)
    {
      facilities := ImproveFacility(facilities, infrastructure, facilityRoll);
    }

    /** generatePlayers: the roster is replaced by the configured teams' players, 114 in all. */
    method GeneratePlayers(rolls: seq<seq<Generation.PlayerRolls>>, stamp: string)
      requires Valid() && Generation.ValidTeamRolls(Config.AcademyTeams(), rolls)
      modifies this`players
      ensures Valid()
      ensures players == Generation.Roster(Config.AcademyTeams(), stamp, rolls)
      ensures |players| == 114
    {
      players := Generation.BuildRoster(Config.AcademyTeams(), stamp, rolls);
      Generation.ConfiguredRosterCount(stamp, rolls);
    }

    /** generateStaff: the staff is replaced by the initial roster of the configured roles,
        11 to 15 idle members. */
    method GenerateStaff(rolls: seq<Generation.RoleRolls>, stamp: string)
      requires Valid() && |rolls| == |Config.StaffRoles()| && Generation.ValidAllRoleRolls(rolls)
      modifies this`staff
      ensures Valid()
      ensures staff == Generation.InitialRoster(Config.StaffRoles(), stamp, rolls)
      ensures 11 <= |staff| <= Generation.STAFF_CAP
    {
      Generation.ConfiguredRosterSize(stamp, rolls);
      staff := Generation.BuildStaff(Config.StaffRoles(), stamp, rolls);
    }

    /** calculateSeasonalIncome: draws every team's league position, records a first place of
        U17, U19 or U21 as the league win (once: the championship counter grows by at most
        one), and returns base income + performance bonus + transfer revenue + objectives bonus. */
    method CalculateSeasonalIncome(positionRolls: seq<real>) returns (income: int)
      requires Valid() && |positionRolls| == |teams| && AllRolls(positionRolls)
      modifies this`teams, this`objectives, this`achievements
      ensures Valid()
      ensures |teams| == |old(teams)| && forall t :: 0 <= t < |teams| ==> teams[t] == Drawn(old(teams)[t], positionRolls[t])
      ensures objectives == RecordLeagueWin(old(objectives), YouthLeagueWon(teams))
      ensures achievements == old(achievements).(championshipsWon := old(achievements).championshipsWon +
        (if YouthLeagueWon(teams) && !old(objectives)[WIN_YOUTH_LEAGUE].completed then 1 else 0))
      ensures income == Economy.SeasonalIncome(Positions(teams), old(achievements).revenueFromTransfers, objectives)
    {
      var academyPerformanceBonus, newWin;
      teams, academyPerformanceBonus, objectives, newWin := DrawLeague(teams, positionRolls, objectives);
      if newWin {
        achievements := achievements.(championshipsWon := achievements.championshipsWon + 1);
      }
      DrawnUpToAll(old(teams), positionRolls);
      BonusSoFarIsPerformanceBonus(teams);
      WonSoFarIsLeagueWon(teams);
      RecordLeagueWinValid(old(objectives), YouthLeagueWon(teams));
      var transferIncome := achievements.revenueFromTransfers;
      var objectivesBonus := SumObjectivesBonus(objectives);
      income := Economy.BASE_INCOME + academyPerformanceBonus + transferIncome + objectivesBonus;
    }
  }

  /** The loop of calculateSeasonalIncome over the teams: each team gets its drawn position,
      a place in the top three adds to the performance bonus, and the first youth team in first
      place marks the league objective; newWin says whether that mark was new. */
  method DrawLeague(teams0: seq<Config.TeamConfig>, positionRolls: seq<real>, objectives0: seq<Objective>)
    returns (teams: seq<Config.TeamConfig>, academyPerformanceBonus: int, objectives: seq<Objective>, newWin: bool)
    requires |positionRolls| == |teams0| && |objectives0| == OBJECTIVE_COUNT
    ensures teams == DrawnUpTo(teams0, positionRolls, |teams0|)
    ensures academyPerformanceBonus == BonusSoFar(teams)
    ensures objectives == RecordLeagueWin(objectives0, WonSoFar(teams))
    ensures newWin == (WonSoFar(teams) && !objectives0[WIN_YOUTH_LEAGUE].completed)
  {
    teams := teams0;
    objectives := objectives0;
    academyPerformanceBonus := 0;
    newWin := false;
    ghost var won := false;
    var t := 0;
    while t < |teams|
      invariant 0 <= t <= |teams| == |teams0|
      invariant teams == DrawnUpTo(teams0, positionRolls, t)
      invariant academyPerformanceBonus == BonusSoFar(teams[..t])
      invariant won == WonSoFar(teams[..t])
      invariant objectives == RecordLeagueWin(objectives0, won)
      invariant newWin == (won && !objectives0[WIN_YOUTH_LEAGUE].completed)
    {
      var position := Ceil(positionRolls[t] * teams[t].maxTeams as real);
      ghost var before := teams[..t];
      DrawnUpToStep(teams0, positionRolls, t);
      assert teams[t].(position := position) == Drawn(teams0[t], positionRolls[t]);
      teams := teams[t := teams[t].(position := position)];
      assert teams[..t + 1] == before + [teams[t]];
      if position <= 3 {
        academyPerformanceBonus := academyPerformanceBonus + 50000 * (4 - position);
        if position == 1 && IsYouthTeam(teams[t].id) && !objectives[WIN_YOUTH_LEAGUE].completed {
          objectives := objectives[WIN_YOUTH_LEAGUE := objectives[WIN_YOUTH_LEAGUE].(current := 1, completed := true)];
          newWin := true;
        }
      }
      won := won || (position == 1 && IsYouthTeam(teams[t].id));
      t := t + 1;
    }
    assert teams[..t] == teams;
  }

  /** The teams after the first t positions were drawn. */
  function DrawnUpTo(ts: seq<Config.TeamConfig>, rolls: seq<real>, t: nat): (r: seq<Config.TeamConfig>)
    requires |rolls| == |ts| && t <= |ts|
    ensures |r| == |ts|
  {
    seq(|ts|, k requires 0 <= k < |ts| => if k < t then Drawn(ts[k], rolls[k]) else ts[k])
  }

  lemma DrawnUpToStep(ts: seq<Config.TeamConfig>, rolls: seq<real>, t: nat)
    requires |rolls| == |ts| && t < |ts|
    ensures DrawnUpTo(ts, rolls, t)[t] == ts[t]
    ensures DrawnUpTo(ts, rolls, t)[t := Drawn(ts[t], rolls[t])] == DrawnUpTo(ts, rolls, t + 1)
  {
  }

  lemma DrawnUpToAll(ts: seq<Config.TeamConfig>, rolls: seq<real>)
    requires |rolls| == |ts|
    ensures forall t :: 0 <= t < |ts| ==> DrawnUpTo(ts, rolls, |ts|)[t] == Drawn(ts[t], rolls[t])
  {
  }

  /** One option of topClubInterest once the offer is known: a non-zero budget b becomes
      Math.round(baseOffer * b / 200000), a zero budget stays 0, and the option names the
      player; its other fields are kept. */
  function RescaledOption(option: Config.EventOption, baseOffer: real, playerId: string): (r: Config.EventOption)
    ensures r.playerId == Some(playerId)
    ensures r.infrastructure == option.infrastructure && r.talentLoss == option.talentLoss
    ensures r.talentRetention == option.talentRetention && r.partialRetention == option.partialRetention
    ensures option.budget == 0 ==> r.budget == 0
    ensures baseOffer >= 0.0 && option.budget >= 0 ==> r.budget >= 0
  {
    option.(budget := Economy.RescaleOffer(baseOffer, option.budget), playerId := Some(playerId))
  }

  /** All options of topClubInterest once the offer is known. */
  function RescaledOptions(opts: seq<Config.EventOption>, baseOffer: real, playerId: string): (r: seq<Config.EventOption>)
    ensures |r| == |opts| && forall k :: 0 <= k < |r| ==> r[k] == RescaledOption(opts[k], baseOffer, playerId)
  {
    seq(|opts|, k requires 0 <= k < |opts| => RescaledOption(opts[k], baseOffer, playerId))
  }

  /** The forEach of triggerRandomEvent over the options of topClubInterest. */
  method RescaleOptions(opts: seq<Config.EventOption>, baseOffer: real, playerId: string) returns (r: seq<Config.EventOption>)
    ensures r == RescaledOptions(opts, baseOffer, playerId)
  {
    r := opts;
    var k := 0;
    while k < |r|
      invariant 0 <= k <= |r| == |opts|
      invariant forall j :: 0 <= j < k ==> r[j] == RescaledOption(opts[j], baseOffer, playerId)
      invariant forall j :: k <= j < |r| ==> r[j] == opts[j]
    {
      var option := r[k];
      if option.budget != 0 {
        option := option.(budget := Round(baseOffer * (option.budget as real / 200000.0)));
      }
      option := option.(playerId := Some(playerId));
      assert option == RescaledOption(opts[k], baseOffer, playerId);
      r := r[k := option];
      k := k + 1;
    }
  }

  /** The effect of a topClubInterest option on the players and the transfer revenue: a sale
      of a player still in the academy removes that player and books the fee; a refusal
      changes nothing; a bonus deal naming a player books the fee. */
  predicate TopClubSettled(option: Config.EventOption, players: seq<Player>, achievements: Achievements,
                           players': seq<Player>, achievements': Achievements)
  {
    var booked := achievements.(revenueFromTransfers := achievements.revenueFromTransfers + option.budget);
    if option.talentLoss && option.playerId.Some? then
      match PlayerIndex(players, option.playerId.value)
        case None => players' == players && achievements' == achievements
        case Some(i) => players' == players[..i] + players[i + 1..] && achievements' == booked
    else if !option.talentRetention && option.partialRetention && option.playerId.Some? then
      players' == players && achievements' == booked
    else players' == players && achievements' == achievements
  }

  /** The facility improvement of handleEventOption on the list of facilities: levels never
      pass their maximum. */
  method ImproveFacility(fs: seq<Config.Facility>, infrastructure: int, facilityRoll: real) returns (fs': seq<Config.Facility>)
    requires FacilitiesValid(fs) && IsRoll(facilityRoll)
    ensures FacilitiesValid(fs')
    ensures FacilityImproved(infrastructure, facilityRoll, fs, fs')
  {
    fs' := fs;
    if infrastructure > 0 {
      FloorRollBelow(facilityRoll, |fs|);
      var f := (facilityRoll * |fs| as real).Floor;
      var facility := fs[f];
      var improvement := Min(infrastructure, facility.maxLevel - facility.level);
      if improvement > 0 {
        fs' := fs[f := facility.(level := facility.level + improvement)];
      }
    }
  }

  /** The effect of an option's infrastructure value on the facilities: for a positive value
      the facility at Math.floor(roll * count) gains that many levels, capped at its maximum. */
  predicate FacilityImproved(infrastructure: int, roll: real, fs: seq<Config.Facility>, fs': seq<Config.Facility>)
  {
    if infrastructure > 0 && |fs| > 0 then
      var f := (roll * |fs| as real).Floor;
      && 0 <= f < |fs|
      && var improvement := Min(infrastructure, fs[f].maxLevel - fs[f].level);
         fs' == if improvement > 0 then fs[f := fs[f].(level := fs[f].level + improvement)] else fs
    else fs' == fs
  }

  /** The performance bonus of the teams drawn so far, accumulated in loop order. */
  function BonusSoFar(ts: seq<Config.TeamConfig>): int {
    if ts == [] then 0 else BonusSoFar(ts[..|ts| - 1]) + Economy.TeamBonus(ts[|ts| - 1].position)
  }

  /** Whether a youth team finished first among the teams drawn so far, in loop order. */
  predicate WonSoFar(ts: seq<Config.TeamConfig>) {
    if ts == [] then false
    else WonSoFar(ts[..|ts| - 1]) || (ts[|ts| - 1].position == 1 && IsYouthTeam(ts[|ts| - 1].id))
  }

  lemma {:induction false} BonusSoFarIsPerformanceBonus(ts: seq<Config.TeamConfig>)
    ensures BonusSoFar(ts) == Economy.PerformanceBonus(Positions(ts))
  {
    if ts != [] {
      var front := ts[..|ts| - 1];
      BonusSoFarIsPerformanceBonus(front);
      assert Positions(ts) == Positions(front) + [ts[|ts| - 1].position];
      PerformanceBonusSnoc(Positions(front), ts[|ts| - 1].position);
    }
  }

  lemma {:induction false} WonSoFarIsLeagueWon(ts: seq<Config.TeamConfig>)
    ensures WonSoFar(ts) == YouthLeagueWon(ts)
  {
    if ts != [] {
      var front := ts[..|ts| - 1];
      WonSoFarIsLeagueWon(front);
      assert ts == front + [ts[|ts| - 1]];
      YouthLeagueWonSnoc(front, ts[|ts| - 1]);
    }
  }

  /** A completed positiveBalance objective is worth at least its weight of 5 in the bonus. */
  lemma BalanceBonus(os: seq<Objective>)
    requires ObjectivesValid(os) && os[POSITIVE_BALANCE].completed
    ensures CompletedWeight(os) >= 5
  {
    WeightsWithout(os, POSITIVE_BALANCE);
  }

  /** Rollover looks only at the requirements and weights, not at the progress made. */
  lemma RolloverIgnoresProgress(a: seq<Objective>, b: seq<Objective>, newSeason: int)
    requires |a| == OBJECTIVE_COUNT && |b| == OBJECTIVE_COUNT
    requires forall i :: 0 <= i < OBJECTIVE_COUNT ==> a[i].required == b[i].required && a[i].weight == b[i].weight
    ensures Rollover(a, newSeason) == Rollover(b, newSeason)
  {
    var ra, rb := Rollover(a, newSeason), Rollover(b, newSeason);
    forall i | 0 <= i < OBJECTIVE_COUNT
      ensures ra[i] == rb[i]
    {
    }
  }

  /** Rolling the objectives over keeps them valid. */
  lemma RolloverValid(os: seq<Objective>, newSeason: int)
    requires ObjectivesValid(os)
    ensures ObjectivesValid(Rollover(os, newSeason))
  {
  }

  /** Recording a league win keeps the objectives valid. */
  lemma RecordLeagueWinValid(os: seq<Objective>, won: bool)
    requires ObjectivesValid(os)
    ensures ObjectivesValid(RecordLeagueWin(os, won))
  {
  }

  /** The loop of calculateSeasonalIncome over the objectives: 1000 per unit of weight of every
      completed objective. */
  method SumObjectivesBonus(os: seq<Objective>) returns (objectivesBonus: int)
    ensures objectivesBonus == 1000 * CompletedWeight(os)
  {
    objectivesBonus := 0;
    var k := 0;
    while k < |os|
      invariant 0 <= k <= |os|
      invariant objectivesBonus == 1000 * CompletedWeight(os[..k])
    {
      WeightsOfConcat(os[..k], [os[k]]);
      assert os[..k + 1] == os[..k] + [os[k]];
      if os[k].completed {
        objectivesBonus := objectivesBonus + os[k].weight * 1000;
      }
      k := k + 1;
    }
    assert os[..k] == os;
  }

  lemma {:induction false} PerformanceBonusSnoc(ps: seq<int>, p: int)
    ensures Economy.PerformanceBonus(ps + [p]) == Economy.PerformanceBonus(ps) + Economy.TeamBonus(p)
  {
    if ps != [] {
      assert (ps + [p])[1..] == ps[1..] + [p];
      PerformanceBonusSnoc(ps[1..], p);
    }
  }

  lemma YouthLeagueWonSnoc(ts: seq<Config.TeamConfig>, t: Config.TeamConfig)
    ensures YouthLeagueWon(ts + [t]) <==> YouthLeagueWon(ts) || (t.position == 1 && IsYouthTeam(t.id))
  {
    var s := ts + [t];
    if YouthLeagueWon(s) {
      var k :| 0 <= k < |s| && s[k].position == 1 && IsYouthTeam(s[k].id);
      if k < |ts| {
        assert ts[k] == s[k];
      }
    }
    if YouthLeagueWon(ts) {
      var k :| 0 <= k < |ts| && ts[k].position == 1 && IsYouthTeam(ts[k].id);
      assert s[k] == ts[k];
    }
    if t.position == 1 && IsYouthTeam(t.id) {
      assert s[|ts|] == t;
    }
  }
}
