/** The constant tables of config.js: game settings, academy teams, facilities,
    staff roles, player positions, scouting regions, random events and budget
    defaults. Display-only fields (names, titles, effects, descriptions, option
    texts, populations) are not part of the model. */
module Config {
  import opened Numeric
  import opened Wrappers

  datatype TeamConfig = TeamConfig(id: string, playerCount: nat, rating: nat, position: int, maxTeams: nat)

  datatype Facility = Facility(id: string, level: int, maxLevel: int, cost: int)

  datatype StaffRole = StaffRole(category: string, roleId: string, salaryLow: int, salaryHigh: int)

  datatype Region = Region(id: string, talentRating: int)

  /** An option of a random event. Only the fields that change the game state are kept:
      the budget delta, the facility bump, the transfer flags and the target player id
      that the topClubInterest trigger writes into the option. */
  datatype EventOption = EventOption(
    budget: int,
    infrastructure: int,
    talentLoss: bool,
    talentRetention: bool,
    partialRetention: bool,
    playerId: Option<string>)

  datatype EventTemplate = EventTemplate(id: string, options: seq<EventOption>)

  datatype BudgetShares = BudgetShares(salaries: int, scouting: int, infrastructure: int, tournaments: int, medical: int)

  /** gameSettings.initialBudget, in euros. */
  const INITIAL_BUDGET: int := 2500000

  /** The index of the topClubInterest template in the events table. */
  const TOP_CLUB_INTEREST: nat := 4

  /** The age a team id encodes: parseInt(teamId.replace('u', '')). */
  function TeamAge(id: string): (age: int)
  {
    var digits := RemoveFirst(id, 'u');
    if AllDigits(digits) then ParseDecimal(digits) else -1
  }

  function TotalPlayerCount(ts: seq<TeamConfig>): (n: nat)
  {
    if ts == [] then 0 else ts[0].playerCount + TotalPlayerCount(ts[1..])
  }

  /** academyTeams: six teams whose ids are "u" followed by the age, each league
      with at least eight teams, 114 players in all. */
  function AcademyTeams(): (ts: seq<TeamConfig>)
    ensures |ts| == 6
    ensures forall i :: 0 <= i < |ts| ==> ts[i].id == "u" + NatToDecimal(21 - 2 * i)
    ensures forall i :: 0 <= i < |ts| ==> ts[i].maxTeams >= 8
    ensures TotalPlayerCount(ts) == 114
  {
    [ TeamConfig("u21", 22, 3, 3, 12),
      TeamConfig("u19", 24, 4, 1, 10),
      TeamConfig("u17", 20, 3, 4, 8),
      TeamConfig("u15", 18, 4, 2, 8),
      TeamConfig("u13", 16, 3, 3, 8),
      TeamConfig("u11", 14, 2, 5, 8) ]
  }

  /** Every academy team id reads back as its age group. */
  lemma TeamAgesFromIds()
    ensures forall i :: 0 <= i < 6 ==> TeamAge(AcademyTeams()[i].id) == 21 - 2 * i
  {
    forall i | 0 <= i < 6 ensures TeamAge(AcademyTeams()[i].id) == 21 - 2 * i {
      var id := AcademyTeams()[i].id;
      assert id == "u" + NatToDecimal(21 - 2 * i);
      assert RemoveFirst(id, 'u') == NatToDecimal(21 - 2 * i);
      DecimalRoundTrip(21 - 2 * i);
    }
  }

  /** facilities: five facilities, each starting within [0, maxLevel] with maxLevel 100
      and a positive cost per level (at least 50000). */
  function Facilities(): (fs: seq<Facility>)
    ensures |fs| == 5
    ensures forall i :: 0 <= i < |fs| ==> 0 <= fs[i].level <= fs[i].maxLevel == 100
    ensures forall i :: 0 <= i < |fs| ==> fs[i].cost >= 50000
    ensures forall i, j :: 0 <= i < j < |fs| ==> fs[i].id != fs[j].id
    ensures fs[0].id == "trainingFields" && fs[1].id == "medicalCenter"
  {
    [ Facility("trainingFields", 75, 100, 100000),
      Facility("medicalCenter", 60, 100, 80000),
      Facility("gym", 80, 100, 70000),
      Facility("dormitory", 50, 100, 120000),
      Facility("classrooms", 65, 100, 50000) ]
  }

  /** staffRoles flattened in declaration order: five coaching roles, three scouting
      roles, three medical roles; every salary range is non-empty. */
  function StaffRoles(): (rs: seq<StaffRole>)
    ensures |rs| == 11
    ensures forall i :: 0 <= i < |rs| ==> 0 < rs[i].salaryLow < rs[i].salaryHigh
    ensures forall i :: 0 <= i < 5 ==> rs[i].category == "coaches"
    ensures forall i :: 5 <= i < 8 ==> rs[i].category == "scouts"
    ensures forall i :: 8 <= i < 11 ==> rs[i].category == "medical"
  {
    [ StaffRole("coaches", "headCoach", 5000, 15000),
      StaffRole("coaches", "assistantCoach", 2000, 7000),
      StaffRole("coaches", "goalkeepingCoach", 2500, 8000),
      StaffRole("coaches", "fitnessCoach", 2000, 7000),
      StaffRole("coaches", "technicalCoach", 2500, 8000),
      StaffRole("scouts", "headScout", 4000, 10000),
      StaffRole("scouts", "regionalScout", 2000, 6000),
      StaffRole("scouts", "internationalScout", 3000, 9000),
      StaffRole("medical", "doctor", 3000, 9000),
      StaffRole("medical", "physiotherapist", 2000, 6000),
      StaffRole("medical", "nutritionist", 1500, 5000) ]
  }

  /** The codes of playerPositions, in declaration order: ten distinct positions. */
  function PlayerPositions(): (ps: seq<string>)
    ensures |ps| == 10
    ensures forall i, j :: 0 <= i < j < |ps| ==> ps[i] != ps[j]
  {
    ["GK", "RB", "CB", "LB", "DM", "CM", "AM", "RW", "LW", "ST"]
  }

  /** regions: fourteen scouting regions with distinct ids and talent ratings 1..4. */
  function Regions(): (rs: seq<Region>)
    ensures |rs| == 14
    ensures forall i :: 0 <= i < |rs| ==> 1 <= rs[i].talentRating <= 4
    ensures forall i, j :: 0 <= i < j < |rs| ==> rs[i].id != rs[j].id
  {
    [ Region("almaty", 4), Region("nursultan", 3), Region("shymkent", 3),
      Region("karaganda", 2), Region("aktobe", 2), Region("taraz", 2),
      Region("pavlodar", 2), Region("uskemen", 2), Region("semey", 2),
      Region("kyzylorda", 1), Region("uralsk", 1), Region("kostanay", 1),
      Region("atyrau", 1), Region("aktau", 1) ]
  }

  function Plain(budget: int, infrastructure: int): EventOption {
    EventOption(budget, infrastructure, false, false, false, None)
  }

  /** events: five templates of three options each; the topClubInterest offers are
      200000 (sale), 0 (refusal) and 100000 (deal with bonuses), and no facility bump
      is negative. */
  function Events(): (es: seq<EventTemplate>)
    ensures |es| == 5
    ensures forall i :: 0 <= i < |es| ==> |es[i].options| == 3
    ensures forall i, k :: 0 <= i < |es| && 0 <= k < 3 ==> es[i].options[k].infrastructure >= 0
    ensures forall i, k :: 0 <= i < |es| && 0 <= k < 3 ==> es[i].options[k].playerId == None
    ensures es[TOP_CLUB_INTEREST].id == "topClubInterest"
    ensures forall i :: 0 <= i < |es| && i != TOP_CLUB_INTEREST ==> es[i].id != "topClubInterest"
    ensures var o := es[TOP_CLUB_INTEREST].options;
      o[0].budget == 200000 && o[0].talentLoss &&
      o[1].budget == 0 && o[1].talentRetention &&
      o[2].budget == 100000 && o[2].partialRetention
  {
    [ EventTemplate("talentDiscovery", [Plain(-5000, 0), Plain(-2000, 0), Plain(0, 0)]),
      EventTemplate("injuryCrisis", [Plain(-30000, 10), Plain(-10000, 5), Plain(0, 0)]),
      EventTemplate("coachingOffer", [Plain(-96000, 0), Plain(-60000, 0), Plain(0, 0)]),
      EventTemplate("internationaTournament", [Plain(-15000, 0), Plain(-5000, 0), Plain(0, 0)]),
      EventTemplate("topClubInterest", [
        EventOption(200000, 0, true, false, false, None),
        EventOption(0, 0, false, true, false, None),
        EventOption(100000, 0, false, false, true, None)]) ]
  }

  function ShareTotal(d: BudgetShares): int {
    d.salaries + d.scouting + d.infrastructure + d.tournaments + d.medical
  }

  /** The save button of the budget distribution accepts a distribution exactly when its shares total 100. */
  predicate CanSaveDistribution(d: BudgetShares) {
    ShareTotal(d) == 100
  }

  /** budgetDefaults: five non-negative shares that pass the save check. */
  function BudgetDefaults(): (d: BudgetShares)
    ensures CanSaveDistribution(d)
    ensures d.salaries >= 0 && d.scouting >= 0 && d.infrastructure >= 0 && d.tournaments >= 0 && d.medical >= 0
  {
    BudgetShares(35, 15, 30, 10, 10)
  }
}
