# FC Kairat Academy manager — a Dafny model of the game logic

The game puts the player in charge of the FC Kairat youth academy for five seasons.
Everything it does reads and writes one record, `gameState`. This project models that
record and the operations of `app.js` that change it, over the constant tables of
`config.js`:

- **Season objectives.** The weighted season progress, the 80% gate on completing a
  season, and the seasonal income: base income, a league draw per team, transfer revenue
  and an objectives bonus. Also the rollover that resets the objectives and raises their
  requirements, and the final points and rating after season five.
- **Budget operations.** Hiring a candidate, firing a staff member, upgrading a facility,
  selling a player, and the effects of a random event's options. That includes the
  in-place rescaling of the topClubInterest offers.
- **Scouting.** Dispatch checks and bookkeeping, releasing the scouts when the mission
  ends, the number and potential of the prospects found, their sort by potential, and
  inviting a prospect.
- **Generation.** The initial players and staff, hiring candidates, player values, and
  the star strings.

Modules, one per concern:

| file | module | contents |
|---|---|---|
| `numeric.dfy` | `Numeric` | Math.round, Math.ceil, Math.random draws, decimal strings and parseInt |
| `wrappers.dfy` | `Wrappers` | `Option` |
| `config.dfy` | `Config` | the tables of `config.js` and their properties |
| `objectives.dfy` | `Objectives` | the objective record, weighted progress, counters, rollover |
| `economy.dfy` | `Economy` | prices, player value, offers, income, final points and rating |
| `generation.dfy` | `Generation` | candidates, initial staff, players, prospects, stars |
| `academy.dfy` | `Academy` | class `GameState` with the operations that change the game state |

The operations that change the state follow the source's form. They are methods of the
class `GameState`, with `modifies` frames and the invariant `Valid()`. The loops of the
source are `while` loops proved against specification functions. The formulas are
functions with contracts, and lemmas relate them.

Inputs outside the program are parameters:

- Every `Math.random()` draw is a `real` in [0, 1).
- Every `confirm()` answer is a `bool`.
- Every `Date.now()` stamp is a string. One stamp serves a whole roster, prospect list or
  event; the program reads the clock once per record, and the ids stay distinct through
  their team, role and index parts.
- The `setTimeout` callbacks are explicit calls: `ResolveMission` releases a mission's
  scouts, and `TriggerRandomEvent` / `ApplyEventOption` run an event and its chosen option.

The code's own behaviour is kept where it is surprising:

- the scouting budget is checked at dispatch but never debited;
- deep scouting is counted when the scouts leave, not when they return;
- the average scout skill is fixed at 3, so the skill multiplier is exactly 1;
- an upgrade checks the price before the maximum level;
- the topClubInterest option budgets are rewritten in the event table itself, so they
  compound across triggers;
- the season summary calls the income function a second time, which redraws the league
  positions; it records a youth league win only if the first draw did not, so a completion
  still adds at most one championship;
- `Math.ceil(random * n)` is 0 when the draw is exactly 0.

## Model

| member | source | states |
|---|---|---|
| `Numeric.Round` | app.js:696 | Math.round(x) lies in (x - 0.5, x + 0.5] |
| `Numeric.Ceil` | app.js:208 | Math.ceil(x) lies in [x, x + 1) |
| `Numeric.CeilRollRange` | app.js:1539 | Math.ceil(random * n) lies in 0..n and is 0 exactly when the draw is 0 |
| `Numeric.FloorRollBelow` | app.js:1427 | Math.floor(random * n) is a valid index below n |
| `Numeric.RoundMonotone` | app.js:639 | Math.round never maps a larger argument to a smaller integer |
| `Numeric.DivAtLeast` | app.js:696 | for a positive divisor d, x div d >= k exactly when x >= k * d |
| `Numeric.DecimalRoundTrip` | app.js:594-595 | parseInt reads back exactly the number a template literal wrote into a data attribute or id |
| `Numeric.RemoveFirst` | app.js:1535 | replace of a one-character pattern removes exactly one character when it occurs and nothing otherwise |
| `Numeric.RemoveFirstSplits` | app.js:1535 | when the character occurs, the replace removes exactly its first occurrence and keeps the characters before and after it in order |
| `Config.AcademyTeams` | config.js:13-20 | six teams with ids "u" + age (21 down to 11), at least 8 teams per league, 114 players in all |
| `Config.TeamAgesFromIds` | app.js:1535 | every team id reads back as its age group 21, 19, ..., 11 |
| `Config.Facilities` | config.js:23-69 | five facilities with distinct ids, 0 <= level <= maxLevel = 100, cost per level at least 50000; trainingFields and medicalCenter first |
| `Config.StaffRoles` | config.js:72-90 | eleven roles (five coaching, three scouting, three medical), each with 0 < low < high salary |
| `Config.PlayerPositions` | config.js:93-104 | ten distinct position codes |
| `Config.Regions` | config.js:107-122 | fourteen regions with distinct ids and talent rating 1..4 |
| `Config.Events` | config.js:125-176 | five events of three options each, no negative infrastructure, no player named yet; topClubInterest is the fifth and only one, with budgets 200000/0/100000 |
| `Config.BudgetDefaults` | config.js:179-185 | the default shares are non-negative and total 100, so they pass the save check |
| `Objectives.InitialObjectives` | app.js:21-28 | six objectives with weights totalling 100, none started or completed |
| `Objectives.CompletedWeight` | app.js:686-694 | the completed weight never exceeds the total weight |
| `Objectives.ProgressPercent` | app.js:696 | the season progress lies in 0..100 |
| `Objectives.ComputeProgress` | app.js:683-696 | the accumulation loop yields exactly the weighted progress, in 0..100 |
| `Objectives.ProgressIntegerForm` | app.js:696 | the progress is (200 * completed + total) div (2 * total), and 0 without weight |
| `Objectives.RoundedPercent` | app.js:696 | Math.round(c / t * 100) equals (200c + t) div 2t for every t > 0 |
| `Objectives.ProgressOrderIndependent` | app.js:686-694 | any reordering of the objectives gives the same progress |
| `Objectives.WeightsPermutation` | app.js:686-694 | reordering changes neither the total nor the completed weight |
| `Objectives.WeightsOfConcat` | app.js:686-694 | both weights add up over a concatenation |
| `Objectives.WeightsWithout` | app.js:686-694 | both weights split into one objective's share and the rest |
| `Objectives.GateInWeights` | app.js:158 | the 80% gate is reached exactly when 200 * completed >= 159 * total |
| `Objectives.GateWithWeightsOfHundred` | app.js:158 | with weights totalling 100 the progress is the completed weight, and the gate means at least 80 of it |
| `Objectives.Advance` | app.js:393-398 | a counting objective moves only while open, and completes exactly when current reaches required; consistency is preserved |
| `Objectives.AdvanceCapped` | app.js:669-673 | the facility objective adds the amount but holds current at 100, and completes exactly at the requirement |
| `Objectives.Rollover` | app.js:178-196 | every objective is reset with its weight kept; from season 2 on, coaches +1, regions min(14, +1), talents +1, facility min(50, +5), league 1 |
| `Objectives.SeasonRequirements` | app.js:188-196 | in season k: coaches 3+(k-1), regions min(14, 3+(k-1)), talents 2+(k-1), facility min(50, 15+5(k-1)), league 1, balance 0, weights unchanged |
| `Economy.UpgradeCost` | app.js:637-639 | the upgrade price is non-negative for non-negative inputs |
| `Economy.UpgradeCostIntegerForm` | app.js:637-639 | the price equals (cost * amount * (100 + level) + 5000) div 10000 |
| `Economy.ExactUpgradeCost` | app.js:637-639 | the real-valued price is cost * amount * (100 + level) / 10000 |
| `Economy.UpgradeCostIncreasing` | app.js:637-639 | the price rises strictly with the level whenever cost * amount >= 10000 |
| `Economy.ConfiguredUpgradeCostIncreasing` | app.js:637-639 | for every configured facility and positive amount, a higher level costs strictly more |
| `Economy.TrainingFieldsUpgradeExample` | app.js:637-639 | raising trainingFields from 75% by 10 costs 17500 |
| `Economy.ScoutingCost` | app.js:499 | the mission price is 5000 for one week, 9000 for two, 15000 otherwise |
| `Economy.ScoutingCostMonotone` | app.js:499 | a longer mission never costs less |
| `Economy.RoundToHundreds` | app.js:1657 | rounding to hundreds gives a multiple of 100 within 50 of its argument |
| `Economy.ValueBounds` | app.js:1654-1657 | the value is a multiple of 100 within 50 of a scaling of the base by [0.8, 1.2], and non-negative for a non-negative base |
| `Economy.PlayerValue` | app.js:1648-1658 | a player's value is a multiple of 100, non-negative and within the noise band of its base value |
| `Economy.SaleOffer` | app.js:1733 | the sale offer is non-negative and within half a euro of [0.8, 1.2] times the value |
| `Economy.RoundScaled` | app.js:1733 | rounding base * factor, for a factor in [0.8, 1.2), stays within half a unit of [0.8 base, 1.2 base] |
| `Economy.BaseOffer` | app.js:1470 | the top-club base offer is non-negative for a non-negative value |
| `Economy.RescaleOffer` | app.js:1472-1474 | a zero budget stays zero; a non-negative budget stays non-negative |
| `Economy.TopClubOffers` | app.js:1471-1476 | rescaling the configured budgets makes the sale the rounded base offer, the deal the rounded half of it, and the refusal 0 |
| `Economy.RescaleCompounds` | app.js:1471-1476 | a second trigger rescales the already rescaled budget: 200000 twice at a base offer of 100000 gives 50000 |
| `Economy.TeamBonus` | app.js:210-211 | a team's league bonus is 0 exactly below third place, at most 150000 for positions from 1, and at most 200000 for position 0 (a draw of exactly 0) |
| `Economy.PerformanceBonus` | app.js:206-218 | the performance bonus is non-negative, at most 150000 per team when every position is from 1, and at most 200000 per team when every position is non-negative |
| `Economy.ObjectivesBonus` | app.js:222-227 | the objectives bonus is 1000 per unit of completed weight |
| `Economy.IncomeAtLeastBase` | app.js:203-230 | with non-negative transfer revenue the income is at least 500000 plus the objectives bonus |
| `Economy.FinalPoints` | app.js:310-318 | the final points are at least the achievement points |
| `Economy.Rating` | app.js:320-327 | the rating lies in 1..5, its threshold is reached, and no higher threshold is |
| `Economy.RatingMonotone` | app.js:320-327 | more points never give a lower rating |
| `Economy.RatingUnique` | app.js:320-327 | the threshold characterisation singles out exactly one rating |
| `Economy.FinalRating` | app.js:320-327 | the threshold loop returns a rating in 1..5 whose threshold is reached while no higher threshold is |
| `Generation.CandidateSkill` | app.js:566-570 | a candidate's skill lies in 2..5 |
| `Generation.InitialSkill` | app.js:1590-1594 | an initial member's skill lies in 2..5 |
| `Generation.SkillTables` | app.js:566-570 | for the same draw the initial table never gives more skill than the hiring table, and a larger draw never gives more |
| `Generation.Salary` | app.js:572 | a salary lies in [low, high) of its role |
| `Generation.MakeCandidate` | app.js:562-572 | a candidate has 3..17 years of experience, the table's skill and a salary in its role's range |
| `Generation.RequestedCount` | app.js:1582 | each role asks for one or two members |
| `Generation.MakeInitialStaff` | app.js:1586-1610 | an initial member is idle, has 5..14 years of experience, skill 2..5 and a salary in range |
| `Generation.RoleMembers` | app.js:1583-1584 | a role adds as many members as it asks for, but no more than the room left under 15 |
| `Generation.InitialRoster` | app.js:1573-1616 | every initial member is idle, with 5..14 years of experience and skill 2..5 |
| `Generation.RosterSize` | app.js:1579-1584 | the roster holds the requested number of members, capped at 15 |
| `Generation.RequestedBounds` | app.js:1582 | the roles ask for between one and two members each |
| `Generation.ConfiguredRosterSize` | app.js:1573-1616 | with the eleven configured roles the initial staff has 11 to 15 members |
| `Generation.BuildStaff` | app.js:1579-1613 | the nested loops with their running count produce exactly the initial roster |
| `Generation.BuildRoleMembers` | app.js:1583-1612 | the inner loop stops at the cap and produces exactly the role's members |
| `Generation.Attribute` | app.js:1545-1548 | every attribute is clamped to [10, 100] |
| `Generation.MakePlayer` | app.js:1531-1566 | a player is 0..2 years under the team age, has potential 0..5 (0 exactly when the draw is 0), a configured position, attributes in [10, 100], and a non-negative value that is a multiple of 100 |
| `Generation.TeamPlayers` | app.js:1529-1531 | a team gets exactly its player count of players, one per draw |
| `Generation.Roster` | app.js:1527-1568 | every generated player has a non-negative value that is a multiple of 100 and attributes in [10, 100] |
| `Generation.RosterCount` | app.js:1527-1531 | the roster has exactly as many players as the teams' counts add up to |
| `Generation.ConfiguredRosterCount` | app.js:1519-1570 | with the configured teams 114 players are generated |
| `Generation.BuildRoster` | app.js:1527-1568 | the loop over teams produces exactly the roster |
| `Generation.BuildTeamPlayers` | app.js:1531-1567 | the loop over one team produces exactly its players |
| `Generation.DurationMultiplier` | app.js:1202 | the duration multiplier lies in [0.8, 2.5] |
| `Generation.ProspectCount` | app.js:1201-1208 | for a non-negative rating and at least one scout, the number of prospects lies above 80% of the expectation less one and at most 120% of it |
| `Generation.ExpectationNonNegative` | app.js:1201-1206 | the expectation is non-negative for a non-negative rating and at least one scout |
| `Generation.WeakMissionFindsNobody` | app.js:1201-1208 | one scout for one week in a region rated 1 finds nobody |
| `Generation.StrongMissionFindsFourOrFive` | app.js:1201-1208 | one scout for a month in a region rated 4 finds four or five prospects |
| `Generation.PotentialTier` | app.js:1224-1231 | a prospect's potential lies in 1..5 |
| `Generation.PotentialTierMonotone` | app.js:1226-1231 | a higher quality threshold never lowers the tier for a fixed draw |
| `Generation.PotentialTierByRoll` | app.js:1224-1231 | a larger draw never raises the tier |
| `Generation.LongerMissionsNoWorse` | app.js:1226 | longer missions and better regions never lower the tier a draw yields |
| `Generation.MakeProspect` | app.js:1215-1241 | a prospect is 6..18 years old, has a configured position and the tier of its draw |
| `Generation.WithPotential` | app.js:1244 | the prospects picked for a potential all have that potential |
| `Generation.BucketsSorted` | app.js:1244 | listing the potential groups from k down to 1 gives descending potential |
| `Generation.BucketsPermutation` | app.js:1244 | the potential groups together hold exactly the prospects of potential 1..k |
| `Generation.BucketsRange` | app.js:1244 | every prospect in the groups of potential 1..k has potential 1..k |
| `Generation.SortByPotential` | app.js:1244 | the sort returns a permutation of its input in descending potential |
| `Generation.SortIsStable` | app.js:1244 | the sort keeps the original order within each potential |
| `Generation.Unsorted` | app.js:1215-1242 | the prospects before sorting are one per draw, up to the count |
| `Generation.BuildProspects` | app.js:1215-1242 | the prospect loop produces exactly the unsorted prospects |
| `Generation.GenerateScoutingResults` | app.js:1200-1244 | the mission's prospects are a permutation of those drawn, sorted by descending potential, with potential 1..5 and age 6..18 |
| `Generation.PermutationKeepsRanges` | app.js:1244 | a reordering keeps every prospect's potential and age within range |
| `Generation.Stars` | app.js:58-65 | five stars, the first `rating` of them full |
| `Academy.FindIndex` | app.js:1620 | findIndex/find: the first element satisfying the test, or none exactly when no element does (staff, players, facilities and regions by id; the topClubInterest target) |
| `Academy.FindRegion` | app.js:408-409 | the region found is a configured one with that id; none exactly when no region has it |
| `Academy.IdleScouts` | app.js:411-416 | the idle scouts are scouts that are not busy; none exactly when every scout is busy or there is none |
| `Academy.MarkAllPointwise` | app.js:512-517 | marking changes exactly the busy flags of the first member with each id, and nothing else |
| `Academy.ReleaseUndoesDispatch` | app.js:535-541 | releasing a mission's scouts restores the staff when they were idle at dispatch |
| `Academy.DispatchedScoutsAreBusy` | app.js:512-517 | every scout sent on a mission is busy afterwards |
| `Academy.NewHire` | app.js:603-614 | the hired member keeps the role's category, the candidate's salary and skill, and is idle |
| `Academy.Positions` | app.js:207-209 | the league positions of the teams, in order |
| `Academy.Levels` | app.js:317 | the facility levels, in order |
| `Academy.UpgradeDecision` | app.js:633-654 | an unknown facility is refused; a budget below the price is refused before the maximum level is checked; the upgrade goes ahead exactly when the budget covers the price and the level stays within the maximum |
| `Academy.DispatchRejection` | app.js:408-508 | the dispatch goes ahead exactly when the region exists, a scout is idle, one is selected, and both the scouting budget and the budget cover the price |
| `Academy.FinalResults` | app.js:304-327 | the points of the run and exactly the rating they earn |
| `Academy.InitialStateValid` | app.js:6-37 | the initial game state satisfies the invariant |
| `Academy.GameState.constructor` | app.js:6-37 | the initial game state: budget 2500000, the configured teams, facilities and events, no staff or players, season 1 of 5, fresh objectives |
| `Academy.GameState.UpdateSeasonProgress` | app.js:683-696 | the progress becomes exactly the weighted completion |
| `Academy.GameState.HireCandidate` | app.js:597-627 | refused with nothing changed exactly when a year of salary exceeds the budget; otherwise one idle member is appended, the budget is untouched, and a coach of 4+ stars advances hireTopCoaches while it is open |
| `Academy.GameState.InviteProspect` | app.js:393-401 | a prospect of potential 5 advances findTopTalents while it is open; nothing else changes |
| `Academy.GameState.UpgradeFacility` | app.js:633-680 | refusals change nothing; an upgrade raises the level by exactly the amount, debits exactly the price, and advances only the key facility objective |
| `Academy.GameState.TrackKeyFacility` | app.js:662-679 | the first key facility upgraded is locked in, and only its upgrades advance the objective, capped at 100 |
| `Academy.GameState.FireStaff` | app.js:1619-1638 | an unknown id, an unpaid severance or a declined confirmation changes nothing; otherwise exactly three months of salary are debited and exactly that member leaves |
| `Academy.GameState.SellPlayer` | app.js:1707-1746 | no sale below 16 or without acceptance; a sale credits the offer to the budget and the transfer revenue and removes exactly that player |
| `Academy.GameState.SetScoutsBusy` | app.js:512-517 | the forEach over the selected ids sets their busy flags, in order |
| `Academy.GameState.DispatchScouts` | app.js:487-533 | only idle scouts can be selected; a refusal changes nothing; a dispatch debits the price from the budget but not from the scouting budget, turns each selected scout from idle to busy (so none joins a second mission), leaves a state the release restores, and counts deep scouting |
| `Academy.GameState.Launch` | app.js:510-533 | the price is paid, the selected idle scouts are marked busy and deep scouting is counted |
| `Academy.SendSelectedScouts` | app.js:411-436 | scouts ticked in the dialog were idle, so each is busy once sent and releasing them restores the staff |
| `Academy.GameState.CountDeepScouting` | app.js:524-533 | a mission of two weeks or more to a region new this season counts once while the objective is open; the scouted regions stay free of duplicates |
| `Academy.GameState.ResolveMission` | app.js:535-541 | the mission's scouts are released and its prospects are sorted by potential |
| `Academy.GameState.CompleteCurrentSeason` | app.js:157-200 | below the gate nothing changes; otherwise the income credited is exactly the seasonal income of the drawn positions, the old transfer revenue and the settled objectives, and transfer revenue is zeroed; at most one championship is added; after season 5 the run ends with its points and rating, the drawn teams and settled objectives, and the regions and key facility unchanged; before it the league is redrawn, a win of either draw counts once while winYouthLeague was open, and the season advances by one with objectives reset and escalated |
| `Academy.GameState.Settle` | app.js:163-167 | positiveBalance records budget >= 0 and the progress counts it; the teams get their drawn positions and a youth win is recorded; the income credited is exactly the seasonal income of those positions, the old transfer revenue and the settled objectives (at least base plus transfer revenue plus the balance bonus); a championship is added only with winYouthLeague completed; transfer revenue is zeroed |
| `Academy.GameState.SettleBalance` | app.js:163-164 | positiveBalance is completed exactly when the budget is non-negative, and the progress is recomputed |
| `Academy.GameState.ShowSummaryAndAdvance` | app.js:176-196 | the summary's second income call redraws the league and adds a championship only while winYouthLeague is open, none when it was already completed; the next season then starts |
| `Academy.GameState.StartNextSeason` | app.js:178-196 | the season advances by one; progress, regions and key facility are cleared; objectives roll over |
| `Academy.GameState.CalculateSeasonalIncome` | app.js:203-231 | every team gets its drawn position; a first place of U17/U19/U21 completes winYouthLeague and counts a championship only if it was open; the income is base + performance + transfers + objectives bonus |
| `Academy.DrawLeague` | app.js:206-218 | the loop over the teams draws every position, sums the bonus and records a new youth league win |
| `Academy.DrawnUpToStep` | app.js:207-209 | drawing one more team changes exactly that team's position |
| `Academy.DrawnUpToAll` | app.js:207-209 | after the loop every team holds its drawn position |
| `Academy.BonusSoFarIsPerformanceBonus` | app.js:206-218 | the bonus accumulated in loop order equals the performance bonus |
| `Academy.WonSoFarIsLeagueWon` | app.js:206-218 | a win noticed in loop order is a first place of some youth team |
| `Academy.SumObjectivesBonus` | app.js:222-227 | the loop over the objectives sums 1000 per unit of completed weight |
| `Academy.BalanceBonus` | app.js:163-167 | a completed positiveBalance adds at least 5000 to the income |
| `Academy.RolloverIgnoresProgress` | app.js:178-196 | the rollover depends only on requirements and weights, not on the progress made |
| `Academy.RolloverValid` | app.js:178-196 | the rollover keeps the objectives valid |
| `Academy.RecordLeagueWinValid` | app.js:212-214 | recording a league win keeps the objectives valid |
| `Academy.GameState.TriggerRandomEvent` | app.js:1453-1485 | the event is the one at floor(draw * 5); topClubInterest without a player of potential 4+ aged 16..18 is skipped; with one, its option budgets are rescaled in place and name that player |
| `Academy.RescaledOption` | app.js:1472-1475 | a rescaled option names the player, keeps its other fields, and keeps a zero budget at zero |
| `Academy.RescaledOptions` | app.js:1471-1476 | every option is rescaled, in order |
| `Academy.RescaleOptions` | app.js:1471-1476 | the forEach over the options produces exactly the rescaled options |
| `Academy.GameState.ApplyEventOption` | app.js:1390-1450 | the option's budget is added; topClubInterest settles the sale or deal; a positive infrastructure value improves one facility drawn at random, capped at its maximum |
| `Academy.GameState.SettleTopClub` | app.js:1403-1421 | a sale of a player still present removes that player and books the fee; a refusal changes nothing; a deal naming a player books the fee |
| `Academy.GameState.ImproveRandomFacility` | app.js:1426-1431 | the drawn facility gains the infrastructure value, capped at its maximum |
| `Academy.ImproveFacility` | app.js:1426-1431 | levels stay within bounds and only the drawn facility changes |
| `Academy.GameState.GeneratePlayers` | app.js:1519-1570 | the players become the generated roster, 114 of them |
| `Academy.GameState.GenerateStaff` | app.js:1573-1616 | the staff becomes the initial roster, 11 to 15 idle members |

## Left out

- The DOM, alerts, confirmation texts, event listeners, view switching, charts and the
  player development chart: presentation only.
- Names, titles, descriptions, effect strings and the random first and last names. Each
  name pick draws a random number that is left out of the model.
- The `setTimeout` scheduling and the `document.hidden` retry. The callbacks are explicit
  operations (`ResolveMission`, `TriggerRandomEvent`, `ApplyEventOption`).
- The `{region}` substitution in event descriptions: it only changes text.
- Floating point: reals are exact. Results could differ from the program's only where an
  IEEE rounding error crosses a rounding or comparison boundary.
- Fields that only feed messages: morale, coachingLevel, injuries, reputation, the
  experience and potential strings and the text of event options.
- The budget sliders and their chart. Only the sum-equals-100 save check on the default
  shares is modelled (`Config.BudgetDefaults`).
- `toLocaleString`, `toFixed` and the templating of objective texts, including the next
  season's preview requirements that the summary screen writes as text.
- The player record's `developmentHistory`, `positionName` and `name`. Each staff member's
  `title` and `effect`.
- The pick of the role on the hiring screen and of the scouts on the dispatch screen: they
  are parameters. An option's `playerId` is present only after the offer rescaling names a
  player; that is the JavaScript truthiness check.
- `Academy.GameState.UpgradeFacility` takes the amount as a parameter. The screen offers
  +10 and +25; any natural amount is accepted.
- `Academy.GameState.ResolveMission` does not state that the prospects are shown with
  invite buttons; inviting is `InviteProspect`.
- `Generation.PotentialTier` states the range 1..5. The exact thresholds are in its body
  and in the monotonicity lemmas beside it.
- The clock reading per generated record: one stamp parameter stands for all the
  `Date.now()` calls of a roster, a prospect list or an event, so the model does not
  capture ids that differ only in their time part.
- `Academy.GameState.DispatchScouts` requires the first staff member with each selected
  id to be an idle scout. The dialog lists idle scouts by id, so this is what it guarantees
  whenever staff ids are distinct; the model does not assume distinct ids elsewhere.
- `Academy.GameState.TriggerRandomEvent` does not track the random region draw for the
  talentDiscovery description: it affects text only.
