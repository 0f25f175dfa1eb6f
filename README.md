# Wayne Planner core, modelled in Dafny

Wayne Planner is a single-page task-gamification planner. The user describes a
day in free text, and an AI service breaks it into themed missions. Each mission
has a start time, category, difficulty and XP reward. Debriefing a finished
mission progresses a role-playing profile: XP, level, four stats and a streak.
This project models the planner's core and proves properties of it:

- `Types` (types.ts): the mission categories and difficulty tiers, the mission,
  draft, stats and profile records, and the initial profile.
- `Ranks` (components/ProfileStats.tsx, constants.ts): the rank title table and
  the clamped rank index shown beside the level.
- `Progression` (App.tsx:75-106): the profile update applied by a debrief.
  The debrief dialog sends one of three multipliers: 1.25, 1.0 or 0.5. The model
  makes these a three-valued `Multiplier`, so every floor is exact integer
  arithmetic. Each floor is also stated against the real product, as the source
  computes it.
- `MissionList` (App.tsx:111-133): the sort-state toggle, one comparator per
  criterion, and the sorted view. The sort is a stable insertion sort, proved to
  give a permutation that is ordered by the comparator and keeps tied missions in
  input order.
- `Missions` (App.tsx:42-72): finding a mission by id, the completion map, and
  turning service drafts into missions with fresh ids.
- `Session` (App.tsx:10-118, 243): a `Controller` class with the component's
  seven state fields. Its handlers are methods. The class invariant says the
  pending debrief target is never a completed mission, so no mission awards XP
  twice. `DebriefTwiceAwardsOnce` shows this from the handlers' contracts alone.

Modelling choices:

- A pending id counts only when it is present and non-empty. This matches the
  source's truthiness test `!debriefMissionId`, under which an empty id does
  nothing.
- `Date.now()` is read once per draft inside the mapping callback, so the model
  takes one clock reading per draft, a sequence of `stamps`. A mission's id is
  its draft's reading followed by its index in decimal. The ids of one
  generation are proved distinct when the readings have equal length, as
  millisecond timestamps do. `StampsOfDifferentLengthsCanCollide` shows that
  readings of different lengths can produce equal ids.
- `localeCompare` on start times becomes lexicographic comparison by character.
  `TimeOrderIsClockOrder` proves that on zero-padded 24-hour "HH:MM" strings it
  agrees with the order of minutes since midnight.
- The awaited service call becomes a `GenerationOutcome` parameter: drafts, or
  a failure. `BeginGeneration` is the step before the await, and
  `CompleteGeneration` is the step after it.
- XP is never rolled over, so a level-up need not leave XP below the new
  threshold. The progress bar's clamp at 100% (components/ProfileStats.tsx:22)
  allows for this. `LevelUpCanOvershoot` shows a reward of 1000 on the initial
  profile leaving 1000 XP against a new threshold of 750.
  `ConventionKeepsBelowThreshold` proves that XP does stay below the threshold
  while every reward is within the service's stated bound of 100 and the
  threshold is at least 250.

## Model

| member | source | states |
|---|---|---|
| Types.InitialProfile | types.ts:34-46 | the starting profile is level 1, 0 of 500 XP, all four stats 10, streak 0, so XP is below the threshold and the level is at least 1 |
| Types.MissionTypeIsFourValued | types.ts:1-6 | a category is one of exactly four pairwise distinct values |
| Ranks.RankIndex | components/ProfileStats.tsx:19 | the index is min(floor(level/5), 6): the level's five-level band, or the last rank once the band reaches it; it lies in the title table for every level of at least 0 |
| Ranks.RankTitle | components/ProfileStats.tsx:19-20 | every non-negative level has a title from the table |
| Ranks.RankIndexMonotone | components/ProfileStats.tsx:19 | a higher level never shows a lower rank |
| Ranks.FirstLevelsAreCitizens | components/ProfileStats.tsx:19-20 | levels 1 to 4 have index 0, "Gotham Citizen" |
| Ranks.LateLevelsAreLegends | constants.ts:12-20 | every level from 30 on has the last index, 6, "Legend" |
| Progression.Value | components/MissionDebriefModal.tsx:34-71 | the three debrief buttons send exactly 1.25, 1.0 and 0.5 |
| Progression.FloorTimes | App.tsx:76 | the result is the floor of the integer times the multiplier's real value |
| Progression.XpGained | App.tsx:76 | XP gained is floor(reward × multiplier): floor(5R/4), R and floor(R/2) for the three buttons |
| Progression.NextThreshold | App.tsx:84 | the new threshold is floor(1.5 × old), never below a positive old threshold and strictly above it from 2 on |
| Progression.StatIncrease | App.tsx:89 | the bonus is 3 exactly for 1.25, 2 exactly for 1.0, 1 exactly for 0.5 |
| Progression.StreakAfter | App.tsx:104 | the streak grows by one iff the multiplier is at least 1.0 and the streak was 0; otherwise it is unchanged |
| Progression.AttributeFor | App.tsx:91-96 | INTELLECT trains intellect, PHYSICAL strength, GADGETS tech and RESTORE willpower, each exactly |
| Progression.AttributeForIsBijective | App.tsx:91-96 | the category-to-stat mapping is one-to-one and onto the four stats |
| Progression.Bump | App.tsx:88-96 | only the stat the category trains changes, by the bonus; the other three keep their values |
| Progression.ApplyDebrief | App.tsx:75-106 | XP is the old XP plus the gain, with no rollover; the level rises by exactly one and the threshold becomes floor(1.5 × old) iff the new XP reaches the old threshold, otherwise both stay; exactly the mapped stat rises by the bonus; the streak follows the one-shot rule; the name is kept |
| Progression.InitialProfileSane | types.ts:34-46 | the initial profile has level at least 1, a positive threshold and a streak of 0 or 1 |
| Progression.ApplyDebriefKeepsSane | App.tsx:78-104 | a debrief keeps those bounds and never lowers the level or the threshold |
| Progression.XpAccumulates | App.tsx:77 | after any run of debriefs, XP is the starting XP plus the sum of all gains: the threshold never subtracts |
| Progression.LevelBoundedByDebriefs | App.tsx:82-85 | a run of n debriefs raises the level by between 0 and n |
| Progression.StreakAtMostOne | App.tsx:104 | from a streak of 0 or 1, no run of debriefs takes it past 1, and a streak of 1 stays 1 |
| Progression.ApplyAllKeepsSane | App.tsx:75-106 | any run of debriefs keeps level at least 1, a positive threshold and a streak of 0 or 1 |
| Progression.BelowThresholdKept | App.tsx:77-85 | with XP below the threshold and a reward of at most two fifths of it, XP stays below the new threshold |
| Progression.ConventionKeepsBelowThreshold | App.tsx:77-85 | with rewards in 0..100 and a threshold of at least 250, XP stays below the threshold after every debrief of a run |
| Progression.LevelUpCanOvershoot | App.tsx:82-85 | a 1000 XP reward on the initial profile levels up to 1000 XP against threshold 750: the cap is not kept in general |
| Progression.ProgressionExamples | App.tsx:76-104 | 50 at 1.25 gains 62; 470 + 50 against 500 levels up to threshold 750; a second qualifying debrief leaves the streak at 1 |
| MissionList.NextSort | App.tsx:111-118 | the selected criterion becomes active; its direction flips if it was already active and resets to ascending otherwise |
| MissionList.NextSortTwiceRestores | App.tsx:112-113 | choosing the active criterion twice restores the sort state |
| MissionList.CompareStrings | App.tsx:124 | the string comparison yields -1, 0 or 1 |
| MissionList.CompareStringsAntisymmetric | App.tsx:124 | swapping the strings negates the comparison |
| MissionList.CompareStringsZeroIffEqual | App.tsx:124 | the comparison is 0 exactly for equal strings |
| MissionList.Rank | App.tsx:128 | ROOKIE ranks 1, VIGILANTE 2, KNIGHT 3, and every tier has a rank |
| MissionList.CompareBy | App.tsx:122-130 | the ascending comparison is at most 0 exactly when the first key is at most the second, and 0 exactly on a tie of start time, reward or tier |
| MissionList.Compare | App.tsx:121-131 | the comparator orders by ascending keys for asc and by descending keys for desc, and is 0 exactly on a tie |
| MissionList.CompareAntisymmetric | App.tsx:121-131 | the comparator, ascending or negated for descending, is antisymmetric |
| MissionList.CompareZeroIffSameKey | App.tsx:121-131 | the comparator returns 0 exactly when the active keys are equal, in either direction |
| MissionList.Insert | App.tsx:121 | inserting lengthens the list by one and puts x or the old head first |
| MissionList.SortMissions | App.tsx:120-121 | the sorted copy has the list's length; SortPermutes, SortOrdered and SortStable prove it a permutation, ordered and stable |
| MissionList.SortPermutes | App.tsx:120-121 | the sorted view has the same length and the same multiset of missions as the list |
| MissionList.SortOrdered | App.tsx:121-132 | every adjacent pair of the view compares at most 0 |
| MissionList.SortStable | App.tsx:121 | the missions tied with any given one keep their input order |
| MissionList.SortStableAll | App.tsx:121 | stability holds for every tie class at once |
| MissionList.OrderedByKey | App.tsx:123-131 | in an ordered view, adjacent keys ascend for asc and descend for desc: start-time string order, reward, or rank |
| MissionList.TimeOrderIsClockOrder | App.tsx:124 | on well-formed "HH:MM" times, string order is the order of minutes since midnight, ties included |
| MissionList.SortByTimeExample | App.tsx:120-133 | "16:00" and "09:00" sort to "09:00" first ascending and to "16:00" first descending |
| Missions.FindIndex | App.tsx:57 | the result is the first index whose mission has the id, or none exactly when no mission has it |
| Missions.MarkCompleted | App.tsx:72 | the list keeps its length; a mission is completed afterwards iff it was before or has the id; no other field changes |
| Missions.MarkCompletedFind | App.tsx:72 | marking keeps every id's lookup where it was, and the found mission with the id is completed |
| Missions.Decimal | App.tsx:44 | the decimal rendering consists of decimal digits only, at least one, and at least two from 10 on |
| Missions.DecimalInjective | App.tsx:44 | distinct indices render as distinct strings |
| Missions.MissionId | App.tsx:44 | an id is its clock reading followed by the decimal index, and both parts can be read back from it |
| Missions.Normalize | App.tsx:42-46 | one mission per draft, in draft order, carrying the draft's fields, the id made of that draft's clock reading and its index, and not completed |
| Missions.NormalizedIdsDistinct | App.tsx:44 | the ids of one generation are pairwise distinct when the clock readings have equal length |
| Missions.StampsOfDifferentLengthsCanCollide | App.tsx:44 | readings "99" and "991" with indices 10 and 0 give the same id |
| Missions.NormalizedKeepsPendingIncomplete | App.tsx:45 | a freshly generated list leaves any pending id pointing at no completed mission |
| Session.Controller.constructor | App.tsx:11-19 | the initial state: no missions, the initial profile, no pending debrief, not loading, no error, sort by time ascending |
| Session.Controller.SortedView | App.tsx:120-133 | the displayed list is a permutation of the stored list, ordered by the active comparator, and stable; the stored list is a value and is not changed |
| Session.Controller.CurrentRank | components/ProfileStats.tsx:19-20 | in every reachable state the shown rank is an entry of the title table |
| Session.Controller.InitiateDebrief | App.tsx:56-60 | no-op when the id is missing or its first mission is completed; otherwise the id becomes pending; nothing else changes; the invariant holds |
| Session.Controller.CancelDebrief | App.tsx:243 | closing the dialog clears the pending id and changes nothing else |
| Session.Controller.FinalizeDebrief | App.tsx:62-109 | no-op without a pending id; with one whose mission is absent it only clears the id; otherwise the incomplete target and its same-id missions become completed, the profile is progressed once from the target, and the id is cleared |
| Session.Controller.BeginGeneration | App.tsx:37-38 | a request sets loading and clears the error, leaving the rest |
| Session.Controller.CompleteGeneration | App.tsx:40-53 | success replaces the whole list with the normalised drafts; failure keeps the list and sets the connection error; loading ends false; the profile is untouched |
| Session.Controller.HandleGenerateSchedule | App.tsx:36-54 | a full request ends not loading, with the new list and no error on success, or the old list and the error message on failure |
| Session.Controller.HandleSort | App.tsx:111-118 | the sort state moves as the toggle says, and nothing else changes |
| Session.DebriefTwiceAwardsOnce | App.tsx:56-72 | opening and confirming the same mission twice progresses the profile at most once, and only for an incomplete mission with a non-empty id |

## Left out

- Loading from and saving to local storage (App.tsx:21-34): browser I/O. The state lives only in memory.
- The AI client, its prompt and its JSON parsing (services/geminiService.ts): a network call. Its result is the `GenerationOutcome` parameter.
- The clock: the `Date.now()` readings, one per draft, are the `stamps` parameter.
- Missions.NormalizedIdsDistinct: proves distinct ids only for clock readings of equal length. Readings that straddle a change in digit count can collide, which the source does not guard against.
- Stale generation responses: App.tsx:36-54 does not discard a response that arrives after a newer request. The input form disables submission while loading (components/BatInput.tsx:33,38), so overlapping requests do not arise from the UI; `Session.Controller.BeginGeneration` does not require `!loading`, so the model allows more interleavings than the UI does.
- `progressPercent` (components/ProfileStats.tsx:22) and the raw floating-point product: floating point. The three multipliers are exact integer formulas instead.
- Rewards, durations and stats are JavaScript numbers; the model makes them integers. A fractional reward is not modelled.
- MissionList.CompareStrings: models `localeCompare` as character order. The two agree on the zero-padded 24-hour times the service is asked for, but not on arbitrary strings.
- MissionList.SortMissions: models the engine's stable sort as an insertion sort. Its result is proved a stable, ordered permutation. That such a permutation is unique is not proved.
- Rendering: JSX, styling, the radar chart, the MissionCard icon and colour switches, the BatInput submit guard, the debrief dialog beyond its three multiplier values, and the `BAT_COLORS` and `MOCK_MISSIONS` constants.
- vite.config.ts: build configuration.
