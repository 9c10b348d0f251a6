/** Procedural generation: hiring candidates and the initial staff, the academy's
    players, and the prospects found by a scouting mission. Every Math.random()
    draw is an explicit argument in [0, 1); random name picks are not modelled. */
module Generation {
  import opened Numeric
  import Config
  import Economy

  // ---- staff ----

  datatype StaffMember = StaffMember(
    id: string, category: string, roleId: string,
    experience: int, salary: int, skill: int, isBusy: bool)

  /** The skill table of hiring candidates: 5 below 0.10, 4 below 0.30, 3 below 0.60, else 2. */
  function CandidateSkill(roll: real): (skill: int)
    ensures 2 <= skill <= 5
  {
    if roll < 0.10 then 5 else if roll < 0.30 then 4 else if roll < 0.60 then 3 else 2
  }

  /** The stricter skill table of the initial roster: 5 below 0.05, 4 below 0.20, 3 below 0.50, else 2. */
  function InitialSkill(roll: real): (skill: int)
    ensures 2 <= skill <= 5
  {
    if roll < 0.05 then 5 else if roll < 0.20 then 4 else if roll < 0.50 then 3 else 2
  }

  /** For the same draw the initial-roster table never gives more skill than the hiring table,
      and both tables give less skill to a larger draw. */
  lemma SkillTables(r1: real, r2: real)
    requires r1 <= r2
    ensures InitialSkill(r1) <= CandidateSkill(r1)
    ensures CandidateSkill(r2) <= CandidateSkill(r1) && InitialSkill(r2) <= InitialSkill(r1)
  {
  }

  /** A salary drawn uniformly from a role's range: low + floor(random * (high - low)), in [low, high). */
  function Salary(role: Config.StaffRole, roll: real): (salary: int)
    requires IsRoll(roll) && role.salaryLow < role.salaryHigh
    ensures role.salaryLow <= salary < role.salaryHigh
  {
    FloorRollBelow(roll, role.salaryHigh - role.salaryLow);
    role.salaryLow + (roll * (role.salaryHigh - role.salaryLow) as real).Floor
  }

  datatype Candidate = Candidate(experience: int, skill: int, salary: int)

  /** One hiring candidate of generateCandidates: 3..17 years of experience, skill 2..5 from the
      hiring table, a salary within the role's range. */
  function MakeCandidate(role: Config.StaffRole, experienceRoll: real, skillRoll: real, salaryRoll: real): (c: Candidate)
    requires IsRoll(experienceRoll) && IsRoll(skillRoll) && IsRoll(salaryRoll)
    requires role.salaryLow < role.salaryHigh
    ensures 3 <= c.experience <= 17
    ensures c.skill == CandidateSkill(skillRoll)
    ensures role.salaryLow <= c.salary < role.salaryHigh
  {
    FloorRollBelow(experienceRoll, 15);
    Candidate(3 + (experienceRoll * 15.0).Floor, CandidateSkill(skillRoll), Salary(role, salaryRoll))
  }

  /** The draws of one generated staff member. */
  datatype StaffRolls = StaffRolls(experienceRoll: real, skillRoll: real, salaryRoll: real)

  predicate ValidStaffRolls(r: StaffRolls) {
    IsRoll(r.experienceRoll) && IsRoll(r.skillRoll) && IsRoll(r.salaryRoll)
  }

  /** The draws of one role in generateStaff: the draw deciding one or two members, and the
      draws of those members. */
  datatype RoleRolls = RoleRolls(countRoll: real, first: StaffRolls, second: StaffRolls)

  predicate ValidRoleRolls(r: RoleRolls) {
    IsRoll(r.countRoll) && ValidStaffRolls(r.first) && ValidStaffRolls(r.second)
  }

  /** generateStaff asks for one member of a role when its draw is above 0.3, otherwise two. */
  function RequestedCount(countRoll: real): (n: nat)
    ensures n == 1 || n == 2
  {
    if countRoll > 0.3 then 1 else 2
  }

  /** The id generateStaff gives a member: category_roleId_stamp_index. */
  function InitialStaffId(role: Config.StaffRole, stamp: string, index: nat): string {
    role.category + "_" + role.roleId + "_" + stamp + "_" + NatToDecimal(index)
  }

  /** One member of the initial roster: 5..14 years of experience, skill 2..5 from the initial
      table, a salary within the role's range, not busy. */
  function MakeInitialStaff(role: Config.StaffRole, stamp: string, index: nat, r: StaffRolls): (m: StaffMember)
    requires ValidStaffRolls(r) && role.salaryLow < role.salaryHigh
    ensures m.category == role.category && m.roleId == role.roleId && !m.isBusy
    ensures 5 <= m.experience <= 14
    ensures 2 <= m.skill <= 5 && m.skill == InitialSkill(r.skillRoll)
    ensures role.salaryLow <= m.salary < role.salaryHigh
  {
    FloorRollBelow(r.experienceRoll, 10);
    StaffMember(InitialStaffId(role, stamp, index), role.category, role.roleId,
                5 + (r.experienceRoll * 10.0).Floor, Salary(role, r.salaryRoll),
                InitialSkill(r.skillRoll), false)
  }

  /** The members generateStaff adds for one role: one or two as the count draw says, but
      no more than `room`, the places left under the cap of 15. */
  function RoleMembers(role: Config.StaffRole, stamp: string, r: RoleRolls, room: int): (ms: seq<StaffMember>)
    requires ValidRoleRolls(r) && role.salaryLow < role.salaryHigh
    ensures |ms| == Min(RequestedCount(r.countRoll), Max(0, room))
    ensures forall i :: 0 <= i < |ms| ==> ms[i] == MakeInitialStaff(role, stamp, i, if i == 0 then r.first else r.second)
  {
    var n := Min(RequestedCount(r.countRoll), Max(0, room));
    seq(n, i requires 0 <= i < n => MakeInitialStaff(role, stamp, i, if i == 0 then r.first else r.second))
  }

  /** The cap generateStaff puts on the size of the initial roster. */
  const STAFF_CAP: nat := 15

  predicate ValidRoles(roles: seq<Config.StaffRole>) {
    forall i :: 0 <= i < |roles| ==> roles[i].salaryLow < roles[i].salaryHigh
  }

  predicate ValidAllRoleRolls(rolls: seq<RoleRolls>) {
    forall i :: 0 <= i < |rolls| ==> ValidRoleRolls(rolls[i])
  }

  /** The number of members the count draws ask for, over all roles. */
  function TotalRequested(rolls: seq<RoleRolls>): nat {
    if rolls == [] then 0 else TotalRequested(rolls[..|rolls| - 1]) + RequestedCount(rolls[|rolls| - 1].countRoll)
  }

  /** The initial roster of generateStaff, role after role; every member is idle, has 5..14
      years of experience, skill 2..5 and a salary within the range of the role. */
  function InitialRoster(roles: seq<Config.StaffRole>, stamp: string, rolls: seq<RoleRolls>): (ms: seq<StaffMember>)
    requires |rolls| == |roles| && ValidRoles(roles) && ValidAllRoleRolls(rolls)
    ensures forall i :: 0 <= i < |ms| ==> !ms[i].isBusy && 5 <= ms[i].experience <= 14 && 2 <= ms[i].skill <= 5
  {
    if roles == [] then []
    else
      var n := |roles| - 1;
      var prev := InitialRoster(roles[..n], stamp, rolls[..n]);
      prev + RoleMembers(roles[n], stamp, rolls[n], STAFF_CAP - |prev|)
  }

  /** The roster holds as many members as the draws ask for, but never more than 15. */
  lemma {:induction false} RosterSize(roles: seq<Config.StaffRole>, stamp: string, rolls: seq<RoleRolls>)
    requires |rolls| == |roles| && ValidRoles(roles) && ValidAllRoleRolls(rolls)
    ensures |InitialRoster(roles, stamp, rolls)| == Min(STAFF_CAP, TotalRequested(rolls))
  {
    if roles != [] {
      var n := |roles| - 1;
      RosterSize(roles[..n], stamp, rolls[..n]);
    }
  }

  /** The loops of generateStaff: for each role in turn, one or two members as its count draw
      asks, stopping at 15 members in all. */
  method BuildStaff(roles: seq<Config.StaffRole>, stamp: string, rolls: seq<RoleRolls>) returns (staff: seq<StaffMember>)
    requires |rolls| == |roles| && ValidRoles(roles) && ValidAllRoleRolls(rolls)
    ensures staff == InitialRoster(roles, stamp, rolls)
  {
    staff := [];
    var staffCount := 0;
    var r := 0;
    while r < |roles|
      invariant 0 <= r <= |roles|
      invariant staff == InitialRoster(roles[..r], stamp, rolls[..r]) && staffCount == |staff|
    {
      assert roles[..r + 1][..r] == roles[..r] && rolls[..r + 1][..r] == rolls[..r];
      var members := BuildRoleMembers(roles[r], stamp, rolls[r], staffCount);
      staff := staff + members;
      staffCount := staffCount + |members|;
      r := r + 1;
    }
    assert roles[..r] == roles && rolls[..r] == rolls;
  }

  /** The inner loop of generateStaff for one role, given the number of members so far. */
  method BuildRoleMembers(role: Config.StaffRole, stamp: string, r: RoleRolls, staffCount: int) returns (members: seq<StaffMember>)
    requires ValidRoleRolls(r) && role.salaryLow < role.salaryHigh
    ensures members == RoleMembers(role, stamp, r, STAFF_CAP - staffCount)
  {
    var numToGenerate := if r.countRoll > 0.3 then 1 else 2;
    var target := RoleMembers(role, stamp, r, STAFF_CAP - staffCount);
    members := [];
    var i := 0;
    while i < numToGenerate
      invariant 0 <= i <= |target| && members == target[..i]
      invariant |target| == Min(numToGenerate, Max(0, STAFF_CAP - staffCount))
    {
      if staffCount + i >= STAFF_CAP {
        break;
      }
      members := members + [MakeInitialStaff(role, stamp, i, if i == 0 then r.first else r.second)];
      i := i + 1;
    }
    assert members == target;
  }

  /** With the eleven configured roles the initial roster holds 11 to 15 members. */
  lemma ConfiguredRosterSize(stamp: string, rolls: seq<RoleRolls>)
    requires |rolls| == |Config.StaffRoles()| && ValidAllRoleRolls(rolls)
    ensures ValidRoles(Config.StaffRoles())
    ensures 11 <= |InitialRoster(Config.StaffRoles(), stamp, rolls)| <= STAFF_CAP
  {
    RosterSize(Config.StaffRoles(), stamp, rolls);
    RequestedBounds(rolls);
  }

  lemma {:induction false} RequestedBounds(rolls: seq<RoleRolls>)
    ensures |rolls| <= TotalRequested(rolls) <= 2 * |rolls|
  {
    if rolls != [] {
      RequestedBounds(rolls[..|rolls| - 1]);
    }
  }

  // ---- players ----

  datatype Player = Player(
    id: string, age: int, position: string, team: string, potential: int,
    technical: int, physical: int, tactical: int, mental: int, value: int)

  /** The draws of one generated player. */
  datatype PlayerRolls = PlayerRolls(
    ageRoll: real, positionRoll: real, potentialRoll: real, baseRoll: real,
    technicalRoll: real, physicalRoll: real, tacticalRoll: real, mentalRoll: real, valueRoll: real)

  predicate ValidPlayerRolls(r: PlayerRolls) {
    && IsRoll(r.ageRoll) && IsRoll(r.positionRoll) && IsRoll(r.potentialRoll) && IsRoll(r.baseRoll)
    && IsRoll(r.technicalRoll) && IsRoll(r.physicalRoll) && IsRoll(r.tacticalRoll) && IsRoll(r.mentalRoll)
    && IsRoll(r.valueRoll)
  }

  /** One attribute: Math.round(base + ageBonus + potentialBonus * (0.8 + random * 0.4)), clamped to [10, 100]. */
  function Attribute(baseStat: real, ageBonus: real, potentialBonus: real, roll: real): (a: int)
    ensures 10 <= a <= 100
  {
    Min(100, Max(10, Round(baseStat + ageBonus + potentialBonus * (0.8 + roll * 0.4))))
  }

  /** The id generatePlayers gives a player: teamId_player_stamp_index. */
  function PlayerId(teamId: string, stamp: string, index: nat): string {
    teamId + "_player_" + stamp + "_" + NatToDecimal(index)
  }

  /** One player of generatePlayers: the team's age minus 0..2 years, potential
      Math.ceil(random * 5) (0 only for a draw of exactly 0), four attributes in [10, 100]
      and a value that is a non-negative multiple of 100. */
  function MakePlayer(team: Config.TeamConfig, stamp: string, index: nat, r: PlayerRolls): (p: Player)
    requires ValidPlayerRolls(r)
    ensures p.id == PlayerId(team.id, stamp, index) && p.team == team.id
    ensures Config.TeamAge(team.id) - 2 <= p.age <= Config.TeamAge(team.id)
    ensures 0 <= p.potential <= 5 && (p.potential == 0 <==> r.potentialRoll == 0.0)
    ensures p.position in Config.PlayerPositions()
    ensures 10 <= p.technical <= 100 && 10 <= p.physical <= 100
    ensures 10 <= p.tactical <= 100 && 10 <= p.mental <= 100
    ensures p.value >= 0 && p.value % 100 == 0
  {
    FloorRollBelow(r.ageRoll, 3);
    FloorRollBelow(r.positionRoll, 10);
    CeilRollRange(r.potentialRoll, 5);
    var age := Config.TeamAge(team.id) - (r.ageRoll * 3.0).Floor;
    var position := Config.PlayerPositions()[(r.positionRoll * 10.0).Floor];
    var potential := Ceil(r.potentialRoll * 5.0);
    var baseStat := 20.0 + r.baseRoll * 30.0;
    var ageBonus := (age - 10) as real * 1.5;
    var potentialBonus := (potential * 5) as real;
    var technical := Attribute(baseStat, ageBonus, potentialBonus, r.technicalRoll);
    var physical := Attribute(baseStat, ageBonus, potentialBonus, r.physicalRoll);
    var tactical := Attribute(baseStat, ageBonus, potentialBonus, r.tacticalRoll);
    var mental := Attribute(baseStat, ageBonus, potentialBonus, r.mentalRoll);
    var value := Economy.PlayerValue(age, potential, technical, physical, tactical, mental, r.valueRoll);
    Player(PlayerId(team.id, stamp, index), age, position, team.id, potential,
           technical, physical, tactical, mental, value)
  }

  /** The players generatePlayers creates for one team: playerCount of them, one per draw. */
  function TeamPlayers(team: Config.TeamConfig, stamp: string, rolls: seq<PlayerRolls>): (ps: seq<Player>)
    requires team.playerCount <= |rolls| && forall i :: 0 <= i < |rolls| ==> ValidPlayerRolls(rolls[i])
    ensures |ps| == team.playerCount
    ensures forall i :: 0 <= i < |ps| ==> ps[i] == MakePlayer(team, stamp, i, rolls[i])
  {
    seq(team.playerCount, i requires 0 <= i < team.playerCount => MakePlayer(team, stamp, i, rolls[i]))
  }

  predicate ValidTeamRolls(teams: seq<Config.TeamConfig>, rolls: seq<seq<PlayerRolls>>) {
    && |rolls| == |teams|
    && forall t :: 0 <= t < |teams| ==>
         teams[t].playerCount <= |rolls[t]| && forall i :: 0 <= i < |rolls[t]| ==> ValidPlayerRolls(rolls[t][i])
  }

  /** All generated players, team after team; every one has a non-negative value that is a
      multiple of 100 and attributes within [10, 100]. */
  function Roster(teams: seq<Config.TeamConfig>, stamp: string, rolls: seq<seq<PlayerRolls>>): (ps: seq<Player>)
    requires ValidTeamRolls(teams, rolls)
    ensures forall i :: 0 <= i < |ps| ==> ps[i].value >= 0 && ps[i].value % 100 == 0
    ensures forall i :: 0 <= i < |ps| ==>
      10 <= ps[i].technical <= 100 && 10 <= ps[i].physical <= 100 && 10 <= ps[i].tactical <= 100 && 10 <= ps[i].mental <= 100
  {
    if teams == [] then []
    else
      var n := |teams| - 1;
      Roster(teams[..n], stamp, rolls[..n]) + TeamPlayers(teams[n], stamp, rolls[n])
  }

  /** The roster has exactly as many players as the teams' player counts add up to. */
  lemma {:induction false} RosterCount(teams: seq<Config.TeamConfig>, stamp: string, rolls: seq<seq<PlayerRolls>>)
    requires ValidTeamRolls(teams, rolls)
    ensures |Roster(teams, stamp, rolls)| == Config.TotalPlayerCount(teams)
  {
    if teams != [] {
      var n := |teams| - 1;
      RosterCount(teams[..n], stamp, rolls[..n]);
      PlayerCountSnoc(teams[..n], teams[n]);
      assert teams[..n] + [teams[n]] == teams;
    }
  }

  lemma {:induction false} PlayerCountSnoc(ts: seq<Config.TeamConfig>, t: Config.TeamConfig)
    ensures Config.TotalPlayerCount(ts + [t]) == Config.TotalPlayerCount(ts) + t.playerCount
  {
    if ts != [] {
      assert (ts + [t])[1..] == ts[1..] + [t];
      PlayerCountSnoc(ts[1..], t);
    }
  }

  /** The loops of generatePlayers: for each team in turn, its player count of players. */
  method BuildRoster(teams: seq<Config.TeamConfig>, stamp: string, rolls: seq<seq<PlayerRolls>>) returns (players: seq<Player>)
    requires ValidTeamRolls(teams, rolls)
    ensures players == Roster(teams, stamp, rolls)
  {
    players := [];
    var t := 0;
    while t < |teams|
      invariant 0 <= t <= |teams|
      invariant players == Roster(teams[..t], stamp, rolls[..t])
    {
      assert teams[..t + 1][..t] == teams[..t] && rolls[..t + 1][..t] == rolls[..t];
      var teamPlayers := BuildTeamPlayers(teams[t], stamp, rolls[t]);
      players := players + teamPlayers;
      t := t + 1;
    }
    assert teams[..t] == teams && rolls[..t] == rolls;
  }

  /** The inner loop of generatePlayers for one team. */
  method BuildTeamPlayers(team: Config.TeamConfig, stamp: string, rolls: seq<PlayerRolls>) returns (players: seq<Player>)
    requires team.playerCount <= |rolls| && forall i :: 0 <= i < |rolls| ==> ValidPlayerRolls(rolls[i])
    ensures players == TeamPlayers(team, stamp, rolls)
  {
    players := [];
    var i := 0;
    while i < team.playerCount
      invariant 0 <= i <= team.playerCount
      invariant players == TeamPlayers(team, stamp, rolls)[..i]
    {
      players := players + [MakePlayer(team, stamp, i, rolls[i])];
      i := i + 1;
    }
  }

  /** With the configured teams generatePlayers creates 114 players. */
  lemma ConfiguredRosterCount(stamp: string, rolls: seq<seq<PlayerRolls>>)
    requires ValidTeamRolls(Config.AcademyTeams(), rolls)
    ensures |Roster(Config.AcademyTeams(), stamp, rolls)| == 114
  {
    RosterCount(Config.AcademyTeams(), stamp, rolls);
  }

  // ---- scouting prospects ----

  datatype Prospect = Prospect(id: string, age: int, position: string, potential: int)

  /** The draws of one prospect. */
  datatype ProspectRolls = ProspectRolls(ageRoll: real, positionRoll: real, potentialRoll: real)

  predicate ValidProspectRolls(r: ProspectRolls) {
    IsRoll(r.ageRoll) && IsRoll(r.positionRoll) && IsRoll(r.potentialRoll)
  }

  /** 0.8, 1.5 or 2.5 for a mission of one week, two weeks or longer. */
  function DurationMultiplier(duration: int): (m: real)
    ensures 0.8 <= m <= 2.5
  {
    if duration == 1 then 0.8 else if duration == 2 then 1.5 else 2.5
  }

  /** 1 + 0.3 per scout beyond the first. */
  function ScoutMultiplier(scoutCount: int): real {
    1.0 + (scoutCount - 1) as real * 0.3
  }

  /** 0.7 + 0.1 * the average scout skill, which generateScoutingResults fixes at 3: exactly 1. */
  const SKILL_MULTIPLIER: real := 0.7 + 3.0 * 0.1

  /** The expected number of prospects before noise. */
  function ExpectedProspects(talentRating: int, scoutCount: int, duration: int): real {
    talentRating as real * 0.5 * DurationMultiplier(duration) * ScoutMultiplier(scoutCount) * SKILL_MULTIPLIER
  }

  /** The number of prospects a mission finds: the expectation scaled by a noise factor in
      [0.8, 1.2), rounded down, never negative. For a region rating of at least 0 and at least
      one scout it lies between 80% of the expectation (less one) and 120% of it. */
  function ProspectCount(talentRating: int, scoutCount: int, duration: int, noiseRoll: real): (n: nat)
    requires IsRoll(noiseRoll)
    ensures var e := ExpectedProspects(talentRating, scoutCount, duration);
      talentRating >= 0 && scoutCount >= 1 ==> e * 0.8 - 1.0 < n as real <= e * 1.2
  {
    var e := ExpectedProspects(talentRating, scoutCount, duration);
    var noise := noiseRoll * 0.4 + 0.8;
    ExpectationNonNegative(talentRating, scoutCount, duration);
    Economy.ScaleBetween(e, noise);
    Max(0, (e * noise).Floor)
  }

  lemma ExpectationNonNegative(talentRating: int, scoutCount: int, duration: int)
    ensures talentRating >= 0 && scoutCount >= 1 ==> ExpectedProspects(talentRating, scoutCount, duration) >= 0.0
  {
    if talentRating >= 0 && scoutCount >= 1 {
      var a := talentRating as real * 0.5;
      var b := a * DurationMultiplier(duration);
      assert b >= 0.0;
      assert b * ScoutMultiplier(scoutCount) >= 0.0;
    }
  }

  /** A one-week mission of a single scout to a region rated 1 never finds anyone. */
  lemma WeakMissionFindsNobody(noiseRoll: real)
    requires IsRoll(noiseRoll)
    ensures ProspectCount(1, 1, 1, noiseRoll) == 0
  {
  }

  /** A month-long mission of a single scout to a region rated 4 finds 4 or 5 prospects. */
  lemma StrongMissionFindsFourOrFive(noiseRoll: real)
    requires IsRoll(noiseRoll)
    ensures 4 <= ProspectCount(4, 1, 4, noiseRoll) <= 5
  {
  }

  /** The quality threshold: 0.5 + 0.1 * (duration - 1) + 0.05 * (rating - 1), with the raw duration 1, 2 or 4. */
  function QualityThreshold(duration: int, talentRating: int): real {
    0.5 + (duration - 1) as real * 0.1 + (talentRating - 1) as real * 0.05
  }

  /** The potential tier of a prospect: 5 below 0.05q, 4 below 0.15q, 3 below 0.40q, 2 below 0.70q, else 1. */
  function PotentialTier(roll: real, quality: real): (potential: int)
    ensures 1 <= potential <= 5
  {
    if roll < 0.05 * quality then 5
    else if roll < 0.15 * quality then 4
    else if roll < 0.40 * quality then 3
    else if roll < 0.70 * quality then 2
    else 1
  }

  /** For a fixed draw a higher quality threshold never lowers the tier, and for a fixed
      non-negative quality a larger draw never raises it. */
  lemma PotentialTierMonotone(roll: real, q1: real, q2: real)
    requires q1 <= q2
    ensures PotentialTier(roll, q1) <= PotentialTier(roll, q2)
  {
  }

  lemma PotentialTierByRoll(r1: real, r2: real, quality: real)
    requires r1 <= r2 && quality >= 0.0
    ensures PotentialTier(r2, quality) <= PotentialTier(r1, quality)
  {
  }

  /** Longer missions and better regions never lower the tier a draw yields. */
  lemma LongerMissionsNoWorse(roll: real, d1: int, d2: int, t1: int, t2: int)
    requires d1 <= d2 && t1 <= t2
    ensures PotentialTier(roll, QualityThreshold(d1, t1)) <= PotentialTier(roll, QualityThreshold(d2, t2))
  {
    PotentialTierMonotone(roll, QualityThreshold(d1, t1), QualityThreshold(d2, t2));
  }

  /** The id of the i-th prospect of a mission: prospect_stamp_i. */
  function ProspectId(stamp: string, index: nat): string {
    "prospect_" + stamp + "_" + NatToDecimal(index)
  }

  /** One prospect: age 6..18, one of the ten positions, potential tier 1..5. */
  function MakeProspect(region: Config.Region, duration: int, stamp: string, index: nat, r: ProspectRolls): (p: Prospect)
    requires ValidProspectRolls(r)
    ensures 6 <= p.age <= 18
    ensures p.position in Config.PlayerPositions()
    ensures p.potential == PotentialTier(r.potentialRoll, QualityThreshold(duration, region.talentRating))
  {
    FloorRollBelow(r.ageRoll, 13);
    FloorRollBelow(r.positionRoll, 10);
    Prospect(ProspectId(stamp, index), 6 + (r.ageRoll * 13.0).Floor,
             Config.PlayerPositions()[(r.positionRoll * 10.0).Floor],
             PotentialTier(r.potentialRoll, QualityThreshold(duration, region.talentRating)))
  }

  // ---- sorting by potential ----

  predicate SortedByPotential(ps: seq<Prospect>) {
    forall i, j :: 0 <= i < j < |ps| ==> ps[i].potential >= ps[j].potential
  }

  /** The prospects of potential k, in their original order. */
  function WithPotential(ps: seq<Prospect>, k: int): (r: seq<Prospect>)
    ensures forall i :: 0 <= i < |r| ==> r[i].potential == k
  {
    if ps == [] then []
    else (if ps[0].potential == k then [ps[0]] else []) + WithPotential(ps[1..], k)
  }

  /** The prospects of potential 1..k, in their original order. */
  function UpTo(ps: seq<Prospect>, k: int): seq<Prospect> {
    if ps == [] then []
    else (if 1 <= ps[0].potential <= k then [ps[0]] else []) + UpTo(ps[1..], k)
  }

  lemma {:induction false} UpToSplit(ps: seq<Prospect>, k: int)
    requires k >= 1
    ensures multiset(UpTo(ps, k)) == multiset(WithPotential(ps, k)) + multiset(UpTo(ps, k - 1))
  {
    if ps != [] {
      UpToSplit(ps[1..], k);
    }
  }

  lemma {:induction false} UpToAll(ps: seq<Prospect>, k: int)
    requires forall i :: 0 <= i < |ps| ==> 1 <= ps[i].potential <= k
    ensures UpTo(ps, k) == ps
  {
    if ps != [] {
      UpToAll(ps[1..], k);
    }
  }

  /** Prospects of potential k, then k-1, down to 1; every one of them has potential 1..k. */
  function BucketsFrom(ps: seq<Prospect>, k: nat): seq<Prospect> {
    if k == 0 then [] else WithPotential(ps, k) + BucketsFrom(ps, k - 1)
  }

  /** Every prospect in the buckets of potentials 1..k has potential 1..k. */
  lemma {:induction false} BucketsRange(ps: seq<Prospect>, k: nat)
    ensures forall i :: 0 <= i < |BucketsFrom(ps, k)| ==> 1 <= BucketsFrom(ps, k)[i].potential <= k
  {
    if k > 0 {
      BucketsRange(ps, k - 1);
      var top, rest := WithPotential(ps, k), BucketsFrom(ps, k - 1);
      var all: seq<Prospect> := top + rest;
      assert BucketsFrom(ps, k) == all;
      forall i | 0 <= i < |all|
        ensures 1 <= all[i].potential <= k
      {
        if i >= |top| {
          assert all[i] == rest[i - |top|];
        }
      }
    }
  }

  /** The buckets are listed by descending potential. */
  lemma {:induction false} BucketsSorted(ps: seq<Prospect>, k: nat)
    ensures SortedByPotential(BucketsFrom(ps, k))
  {
    if k > 0 {
      BucketsSorted(ps, k - 1);
      BucketsRange(ps, k - 1);
      var top := WithPotential(ps, k);
      var rest := BucketsFrom(ps, k - 1);
      assert BucketsFrom(ps, k) == top + rest;
      ConcatSorted(top, rest, k);
    }
  }

  lemma ConcatSorted(a: seq<Prospect>, b: seq<Prospect>, k: int)
    requires forall i :: 0 <= i < |a| ==> a[i].potential == k
    requires forall i :: 0 <= i < |b| ==> b[i].potential < k
    requires SortedByPotential(b)
    ensures SortedByPotential(a + b)
  {
    var s := a + b;
    forall i, j | 0 <= i < j < |s| ensures s[i].potential >= s[j].potential {
      if j < |a| {
      } else if i < |a| {
        assert s[j] == b[j - |a|];
      } else {
        assert s[i] == b[i - |a|] && s[j] == b[j - |a|];
      }
    }
  }

  /** The buckets of potentials 1..k hold exactly the prospects of potential 1..k. */
  lemma {:induction false} BucketsPermutation(ps: seq<Prospect>, k: nat)
    ensures multiset(BucketsFrom(ps, k)) == multiset(UpTo(ps, k))
  {
    if k > 0 {
      BucketsPermutation(ps, k - 1);
    }
    BucketStep(ps, k);
  }

  /** The step of BucketsPermutation: none for k = 0, one bucket more for k > 0. */
  lemma BucketStep(ps: seq<Prospect>, k: nat)
    requires k >= 1 ==> multiset(BucketsFrom(ps, k - 1)) == multiset(UpTo(ps, k - 1))
    ensures multiset(BucketsFrom(ps, k)) == multiset(UpTo(ps, k))
  {
    if k == 0 {
      UpToEmpty(ps);
    } else {
      var top, rest := WithPotential(ps, k), BucketsFrom(ps, k - 1);
      assert BucketsFrom(ps, k) == top + rest;
      UpToSplit(ps, k);
    }
  }

  lemma {:induction false} UpToEmpty(ps: seq<Prospect>)
    ensures multiset(BucketsFrom(ps, 0)) == multiset(UpTo(ps, 0))
    ensures UpTo(ps, 0) == []
  {
    if ps != [] {
      UpToEmpty(ps[1..]);
    }
  }

  /** prospects.sort((a, b) => b.potential - a.potential) on prospects of potential 1..5: a
      stable sort by descending potential. The result is sorted, is a permutation of the input,
      and keeps the original order among prospects of equal potential. */
  function SortByPotential(ps: seq<Prospect>): (r: seq<Prospect>)
    requires forall i :: 0 <= i < |ps| ==> 1 <= ps[i].potential <= 5
    ensures SortedByPotential(r)
    ensures multiset(r) == multiset(ps)
  {
    UpToAll(ps, 5);
    BucketsSorted(ps, 5);
    BucketsPermutation(ps, 5);
    BucketsFrom(ps, 5)
  }

  /** The sort is stable: for each potential the sorted list holds the same prospects in the same order. */
  lemma SortIsStable(ps: seq<Prospect>, k: int)
    requires forall i :: 0 <= i < |ps| ==> 1 <= ps[i].potential <= 5
    requires 1 <= k <= 5
    ensures WithPotential(SortByPotential(ps), k) == WithPotential(ps, k)
  {
    BucketsStable(ps, 5, k);
  }

  lemma {:induction false} BucketsStable(ps: seq<Prospect>, top: nat, k: int)
    requires 1 <= k <= top
    ensures WithPotential(BucketsFrom(ps, top), k) == WithPotential(ps, k)
  {
    var bucket := WithPotential(ps, top);
    var rest := BucketsFrom(ps, top - 1);
    assert BucketsFrom(ps, top) == bucket + rest;
    if k == top {
      BucketsRange(ps, top - 1);
      FilterOfSame(bucket, k);
      FilterOfNone(rest, k);
      FilterOfConcatKeepsLeft(bucket, rest, k);
    } else {
      FilterOfNone(bucket, k);
      BucketsStable(ps, top - 1, k);
      FilterOfConcatKeepsRight(bucket, rest, k);
    }
  }

  lemma FilterOfConcatKeepsLeft(a: seq<Prospect>, b: seq<Prospect>, k: int)
    requires WithPotential(b, k) == []
    ensures WithPotential(a + b, k) == WithPotential(a, k)
  {
    FilterOfConcat(a, b, k);
    assert WithPotential(a, k) + [] == WithPotential(a, k);
  }

  lemma FilterOfConcatKeepsRight(a: seq<Prospect>, b: seq<Prospect>, k: int)
    requires WithPotential(a, k) == []
    ensures WithPotential(a + b, k) == WithPotential(b, k)
  {
    FilterOfConcat(a, b, k);
    assert [] + WithPotential(b, k) == WithPotential(b, k);
  }

  lemma {:induction false} FilterOfConcat(a: seq<Prospect>, b: seq<Prospect>, k: int)
    ensures WithPotential(a + b, k) == WithPotential(a, k) + WithPotential(b, k)
  {
    if a == [] {
      assert a + b == b;
    } else {
      assert (a + b)[1..] == a[1..] + b;
      FilterOfConcat(a[1..], b, k);
    }
  }

  lemma {:induction false} FilterOfSame(a: seq<Prospect>, k: int)
    requires forall i :: 0 <= i < |a| ==> a[i].potential == k
    ensures WithPotential(a, k) == a
  {
    if a != [] {
      FilterOfSame(a[1..], k);
    }
  }

  lemma {:induction false} FilterOfNone(a: seq<Prospect>, k: int)
    requires forall i :: 0 <= i < |a| ==> a[i].potential != k
    ensures WithPotential(a, k) == []
  {
    if a != [] {
      FilterOfNone(a[1..], k);
    }
  }

  /** The prospects a mission would list before sorting: one per draw, up to the count. */
  function Unsorted(region: Config.Region, duration: int, stamp: string, rolls: seq<ProspectRolls>, count: nat): (ps: seq<Prospect>)
    requires count <= |rolls| && forall i :: 0 <= i < |rolls| ==> ValidProspectRolls(rolls[i])
    ensures |ps| == count
    ensures forall i :: 0 <= i < count ==> ps[i] == MakeProspect(region, duration, stamp, i, rolls[i])
  {
    seq(count, i requires 0 <= i < count => MakeProspect(region, duration, stamp, i, rolls[i]))
  }

  /** generateScoutingResults: draws the number of prospects, builds each prospect in turn,
      then sorts them by descending potential. */
  method GenerateScoutingResults(region: Config.Region, scoutCount: int, duration: int, noiseRoll: real,
                                 rolls: seq<ProspectRolls>, stamp: string) returns (prospects: seq<Prospect>)
    requires IsRoll(noiseRoll)
    requires forall i :: 0 <= i < |rolls| ==> ValidProspectRolls(rolls[i])
    requires |rolls| >= ProspectCount(region.talentRating, scoutCount, duration, noiseRoll)
    ensures var n := ProspectCount(region.talentRating, scoutCount, duration, noiseRoll);
      multiset(prospects) == multiset(Unsorted(region, duration, stamp, rolls, n))
    ensures SortedByPotential(prospects)
    ensures forall i :: 0 <= i < |prospects| ==> 1 <= prospects[i].potential <= 5 && 6 <= prospects[i].age <= 18
  {
    var prospectsFound := ProspectCount(region.talentRating, scoutCount, duration, noiseRoll);
    var found := BuildProspects(region, duration, stamp, rolls, prospectsFound);
    prospects := SortByPotential(found);
    PermutationKeepsRanges(found, prospects);
  }

  /** The loop of generateScoutingResults that builds one prospect per draw. */
  method BuildProspects(region: Config.Region, duration: int, stamp: string, rolls: seq<ProspectRolls>, count: nat)
    returns (found: seq<Prospect>)
    requires count <= |rolls| && forall i :: 0 <= i < |rolls| ==> ValidProspectRolls(rolls[i])
    ensures found == Unsorted(region, duration, stamp, rolls, count)
  {
    found := [];
    var i := 0;
    while i < count
      invariant 0 <= i <= count && |found| == i
      invariant forall k :: 0 <= k < i ==> found[k] == MakeProspect(region, duration, stamp, k, rolls[k])
    {
      found := found + [MakeProspect(region, duration, stamp, i, rolls[i])];
      i := i + 1;
    }
  }

  lemma PermutationKeepsRanges(a: seq<Prospect>, b: seq<Prospect>)
    requires multiset(a) == multiset(b)
    requires forall i :: 0 <= i < |a| ==> 1 <= a[i].potential <= 5 && 6 <= a[i].age <= 18
    ensures forall j :: 0 <= j < |b| ==> 1 <= b[j].potential <= 5 && 6 <= b[j].age <= 18
  {
    forall j | 0 <= j < |b| ensures 1 <= b[j].potential <= 5 && 6 <= b[j].age <= 18 {
      assert b[j] in multiset(a);
      var i :| 0 <= i < |a| && a[i] == b[j];
    }
  }

  // ---- star ratings ----

  const FULL_STAR: char := '★'
  const EMPTY_STAR: char := '☆'

  /** getStarsHTML: five stars, the first `rating` of them full. */
  method Stars(rating: int) returns (stars: string)
    ensures |stars| == 5
    ensures forall i :: 0 <= i < 5 ==> stars[i] == (if i < rating then FULL_STAR else EMPTY_STAR)
  {
    var maxStars := 5;
    stars := "";
    var i := 0;
    while i < maxStars
      invariant 0 <= i <= maxStars && |stars| == i
      invariant forall k :: 0 <= k < i ==> stars[k] == (if k < rating then FULL_STAR else EMPTY_STAR)
    {
      stars := stars + [if i < rating then FULL_STAR else EMPTY_STAR];
      i := i + 1;
    }
  }
}
