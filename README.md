# Your Daily Horizon — a Dafny model of the rules engine

Your Daily Horizon is a wellness and habit app. Users take on missions with
daily, weekly, monthly or seasonal cadences. They log wins and daily pulses,
earn XP, levels, streaks and badges, and talk to an AI mentor. This project
models the rules inside the app's handlers and components as Dafny 4
functions, methods and classes, and proves what those rules promise:

- period keys and instance rolling;
- the claim state machine and the daily streak;
- badge awards;
- the three streak definitions;
- win logging and the XP/level arithmetic;
- cadence health;
- plan limits;
- cost alerts;
- feedback aggregation;
- the text-safety validator and the input schemas;
- the auth form;
- the onboarding wizard;
- the buffered AI-metrics collector;
- token estimation;
- the mentor context builder;
- the daily-pulse prompt summaries.

Database tables are Dafny sequences and maps held by one `Tables.Store`
object. Handlers that write become methods whose `modifies` clause names
exactly the tables they touch. The clock is a parameter: a day number, or a
calendar `Moment` for the period keys. So are the answers of outside services
(the AI gateway, the auth service) and the failure of a write wherever the
code handles it. Each method is proved
equal to a pure specification function, and the promised properties are
proved about that function as lemmas.

Modules, one per source file, plus shared ones:

| module | models |
|---|---|
| `Wrappers`, `Text`, `Calendar`, `JsNumbers` | Option; digits, `padStart`, `join`, `slice`, JS `trim` and `toLowerCase`; the Gregorian calendar; JS division with `Infinity`/`NaN` |
| `Tables` | the rows of the database tables and the `Store` class that holds them; the ordered, limited queries shared by several handlers |
| `Grouping` | the "dictionary filled in a `forEach`" pattern (update or append, first-appearance order) used by cost monitoring, feedback and the weekly share |
| `RollMissionInstances` | `supabase/functions/roll-mission-instances/index.ts` |
| `ClaimMissionRewards` | `supabase/functions/claim-mission-rewards/index.ts` |
| `Badges` | `src/lib/badges.ts` |
| `Streak`, `DailyPulse` | `src/components/DailyPulse.tsx` |
| `ShareWeeklyHorizon` | `supabase/functions/share-weekly-horizon/index.ts` |
| `LogWinModal` | `src/components/LogWinModal.tsx` |
| `ProgressMap` | `src/components/ProgressMap.tsx` |
| `Validation` | `src/lib/validation.ts` |
| `Auth` | `src/pages/Auth.tsx` |
| `Onboarding` | `src/pages/Onboarding.tsx` |
| `Subscription` | `src/lib/subscription.ts` |
| `CostMonitor` | `src/lib/monitoring/cost-monitor.ts` |
| `UserFeedback` | `src/lib/feedback/user-feedback.ts` |
| `AIMetrics` | `src/lib/monitoring/ai-metrics.ts` |
| `AIMonitoring` | `supabase/functions/_shared/ai-monitoring.ts` |
| `AIGateway`, `MentorChat` | `supabase/functions/mentor-chat/index.ts` |
| `GenerateDailyPulse` | `supabase/functions/generate-daily-pulse/index.ts` |

## Model

| member | source | states |
|---|---|---|
| `Text.SliceTo` | supabase/functions/roll-mission-instances/index.ts:78 | `slice(0, end)`: the result is a prefix of the input, of length `min(end, len)` for a non-negative end and `max(0, len + end)` for a negative one |
| `Text.PadTwo` | supabase/functions/roll-mission-instances/index.ts:41 | `padStart(2, '0')` of a number below 100 gives two digits that read back as that number |
| `Text.PadTwoInjective` | supabase/functions/roll-mission-instances/index.ts:41-44 | distinct numbers below 100 pad to distinct strings |
| `Text.ParseNatToString` | supabase/functions/roll-mission-instances/index.ts:41-49 | reading back the decimal rendering of a number gives that number |
| `RollMissionInstances.DailyKeyShape` | supabase/functions/roll-mission-instances/index.ts:33-34 | the daily key is `YYYY-MM-DD`, 10 characters with dashes at positions 4 and 7, and its three digit fields read back as year, month and day |
| `RollMissionInstances.DailyKeyIff` | supabase/functions/roll-mission-instances/index.ts:33-34 | two moments share a daily key exactly when they are the same date |
| `RollMissionInstances.WeekNumberRange` | supabase/functions/roll-mission-instances/index.ts:37-40 | the week number equals `floor((daysSinceJan1 + weekdayOfJan1) / 7) + 1` and lies in 1..54 |
| `RollMissionInstances.WeeklyKeyShape` | supabase/functions/roll-mission-instances/index.ts:41 | the weekly key is `YYYY-Www` with the week zero-padded to two digits, and both fields read back |
| `RollMissionInstances.WeeklyKeySameWeek` | supabase/functions/roll-mission-instances/index.ts:36-42 | two dates of one year share a weekly key exactly when no Sunday separates them (their distance in days equals their distance in weekdays) |
| `RollMissionInstances.WeeklyKeyYear` | supabase/functions/roll-mission-instances/index.ts:41 | dates of different years never share a weekly key |
| `RollMissionInstances.MonthlyKeyIff` | supabase/functions/roll-mission-instances/index.ts:43-44 | the monthly key is `YYYY-MM` with the month 01..12 read back, and two dates share it exactly when year and month agree |
| `RollMissionInstances.SeasonalKeyIff` | supabase/functions/roll-mission-instances/index.ts:46-49 | the seasonal key is `YYYY-Qn` with the quarter `floor(month/3)+1` in 1..4, and two dates share it exactly when year and quarter agree |
| `RollMissionInstances.PeriodIdCadences` | supabase/functions/roll-mission-instances/index.ts:32-53 | an unrecognised cadence falls back to the daily key, and two different known cadences never produce the same key |
| `RollMissionInstances.KeyClassOf` | supabase/functions/roll-mission-instances/index.ts:32-53 | the shape of a key (its length, and its sixth character) identifies which of the four cadences made it |
| `RollMissionInstances.ActiveMissionIds` | supabase/functions/roll-mission-instances/index.ts:57-62 | the missions query returns exactly the ids of active missions of that cadence, of every user |
| `RollMissionInstances.ExistingMissionIds` | supabase/functions/roll-mission-instances/index.ts:66-73 | the existing-instances query returns exactly the mission ids of the caller's instances in that period |
| `RollMissionInstances.WithoutExisting` | supabase/functions/roll-mission-instances/index.ts:76-77 | the filter keeps exactly the candidates that are not already present |
| `RollMissionInstances.AvailableRows` | supabase/functions/roll-mission-instances/index.ts:79-84 | one `available` row per candidate, in order, carrying the caller's user id and the period |
| `RollMissionInstances.ToCreateSpec` | supabase/functions/roll-mission-instances/index.ts:73-84 | every created row is `available`, belongs to the caller and the period, names a candidate that has no instance yet, and keeps candidate order. With at most 5 existing rows, `min(candidates, 5 - existing)` rows are created; with more than 5, the negative slice end drops the last `existing - 5` candidates |
| `RollMissionInstances.NegativeSliceCreates` | supabase/functions/roll-mission-instances/index.ts:78 | six existing instances and three new candidates still create two rows |
| `RollMissionInstances.ActiveMissionIdsDistinct` | supabase/functions/roll-mission-instances/index.ts:57-62 | with unique mission ids, the query returns no id twice |
| `RollMissionInstances.WithoutExistingDistinct` | supabase/functions/roll-mission-instances/index.ts:76-77 | filtering keeps a duplicate-free list duplicate-free |
| `RollMissionInstances.RollKeepsInstancesUnique` | supabase/functions/roll-mission-instances/index.ts:73-89 | when the existing-instances read succeeds, rolling never creates a second instance for the same (mission, user, period) |
| `RollMissionInstances.BlindRollDuplicates` | supabase/functions/roll-mission-instances/index.ts:67-78 | when the existing-instances read fails, an active mission that already has an instance of the caller in the period gets a second, identical-keyed `available` instance |
| `RollMissionInstances.Roll` | supabase/functions/roll-mission-instances/index.ts:15-107 | an unauthenticated caller gets 401 and the table is unchanged; a failing missions query, or a failing insert of a non-empty batch, gives 500 and writes nothing; a failing existing-instances read is not noticed and the rows are computed as if the caller had no instance in the period; otherwise exactly the `toCreate` rows are appended (nothing when there are none), and `created` is their number |
| `ClaimMissionRewards.RejectionsWriteNothing` | supabase/functions/claim-mission-rewards/index.ts:19-59 | 401, 404 and 400 leave all three tables unchanged; 404 is exactly a missing instance of the caller, and 400 exactly one whose status is not `completed` |
| `ClaimMissionRewards.ClaimAwardsOnce` | supabase/functions/claim-mission-rewards/index.ts:61-128 | a successful claim happens only when no write fails; it flips only that instance to `claimed` and appends one completion row with the mission's xp and coins. The totals rise by exactly those amounts, a missing total counting as 0, and other users' stats are unchanged |
| `ClaimMissionRewards.SecondClaimRejected` | supabase/functions/claim-mission-rewards/index.ts:54-64 | claiming the same instance again returns 400 and writes nothing, whichever write would fail |
| `ClaimMissionRewards.FailuresKeepEarlierWrites` | supabase/functions/claim-mission-rewards/index.ts:61-140 | a 500 comes exactly from a failing write or a missing mission row on a claimable instance; it never touches the stats and keeps the writes made before the failure: none when the flip fails, the flip alone when the mission is missing or the completion insert fails, the flip and the completion when the stats write fails |
| `ClaimMissionRewards.StatsFailureBreaksLedger` | supabase/functions/claim-mission-rewards/index.ts:106-128 | with a consistent ledger and a reward worth any xp, a failing stats write answers 500 and leaves the completion recorded without its rewards in the totals |
| `ClaimMissionRewards.NonDailyKeepsStreak` | supabase/functions/claim-mission-rewards/index.ts:91 | claims of non-daily missions leave `daily_streak` and `last_daily_date` as they were |
| `ClaimMissionRewards.DailyClaimSetsToday` | supabase/functions/claim-mission-rewards/index.ts:91-104 | after a daily claim, `last_daily_date` is today and the streak is at least 1 |
| `ClaimMissionRewards.SumsAppend` | supabase/functions/claim-mission-rewards/index.ts:70-77 | appending one completion adds its rewards to its user's sums only |
| `ClaimMissionRewards.ClaimKeepsLedger` | supabase/functions/claim-mission-rewards/index.ts:61-128 | unless the stats write fails, every user's xp and coin totals stay equal to the sums of the rewards recorded in their completions, whatever the response |
| `ClaimMissionRewards.RunIgnoresLater` | supabase/functions/claim-mission-rewards/index.ts:97-103 | adding a later day does not change the run of consecutive days ending at an earlier day |
| `ClaimMissionRewards.StreakStep` | supabase/functions/claim-mission-rewards/index.ts:97-103 | starting from stats whose streak is the run of claim days ending at the last claim, each branch of the four-way rule (yesterday, today, older) leaves the run ending at the new claim day, with today as the last date |
| `ClaimMissionRewards.ReplayStreakIsRun` | supabase/functions/claim-mission-rewards/index.ts:91-104 | on a clock that never runs backwards, successive daily claims leave as streak the number of consecutive claim days ending at the last claim |
| `ClaimMissionRewards.ClaimRewards` | supabase/functions/claim-mission-rewards/index.ts:15-140 | the handler's response and its writes to instances, completions and stats, including those left behind by a failing write, are exactly those of the `Claim` specification |
| `Badges.Consecutive` | src/lib/badges.ts:46-54 | the loop with its `break` reports true exactly when every neighbouring pair of dates is at most one day apart |
| `Badges.NewBadgesSpec` | src/lib/badges.ts:31-81 | `streak-7` is added iff it is not yet earned and the seven newest completed dates are pairwise adjacent; `checkins-30` is added iff it is not yet earned and there are at least 30 completions; no added id is already present, and none is added twice |
| `Badges.AwardKeepsIdsDistinct` | src/lib/badges.ts:84-85 | if the stored list has no duplicate ids, neither does the appended list |
| `Badges.AwardIdempotent` | src/lib/badges.ts:35-67 | evaluating again right after an award adds nothing |
| `Badges.SameDayEntriesEarnStreak` | src/lib/badges.ts:44-54 | seven completed entries on a single day pass the check, because a 0-day gap counts as adjacent |
| `Badges.AdjacentSpan` | src/lib/badges.ts:44-54 | along dates newest first, adjacency bounds the span: seven adjacent entries cover at most seven days, and nothing requires the newest to be today |
| `Badges.StreakCheck` | src/lib/badges.ts:34-64 | the `streak-7` block adds exactly the badge `StreakAward` gives over the seven most recent completed dates, reading entries only when the badge is not yet earned |
| `Badges.CheckinsCheck` | src/lib/badges.ts:66-81 | the `checkins-30` block adds exactly the badge `CheckinsAward` gives over the completion count, counting only when the badge is not yet earned |
| `Badges.CheckAndAwardBadges` | src/lib/badges.ts:22-101 | returns exactly the new badges, and the profile row becomes the old list followed by them; there is no write when there is nothing new or no row |
| `Badges.FirstLevelUpSpec` | src/lib/badges.ts:103-131 | nothing changes unless the new level is 2. Otherwise `first-levelup-{missionId}` ends up in the list: the old list is a prefix, at most one badge is appended (exactly when it was missing), repeating the check changes nothing, and duplicate-free ids stay duplicate-free |
| `Badges.CheckFirstLevelUpBadge` | src/lib/badges.ts:103-131 | the profile table becomes exactly the specified one; only an existing row that gains the badge is written |
| `Streak.HeadRun` | src/components/DailyPulse.tsx:81-98 | the streak is the length of the longest prefix of the dates that runs today, yesterday, …; the next date, if any, breaks the run |
| `Streak.CalculateStreak` | src/components/DailyPulse.tsx:81-98 | the counting loop stops at the first date that is not `today - i`, and its count is exactly `HeadRun` |
| `Streak.LongestPrefixUnique` | src/components/DailyPulse.tsx:85-98 | any matching prefix followed by a non-matching date has exactly the streak's length |
| `Streak.HeadRunBounds` | src/components/DailyPulse.tsx:76-98 | the streak never exceeds the number of dates fetched; it is 0 when there are none or the newest is not today, and at least 1 otherwise |
| `Streak.QueryStreak` | src/components/DailyPulse.tsx:64-100 | over the query's rows (completed, newest first, at most 100) the streak is at most 100, 0 without completed entries, and at least 1 once today is completed and nothing completed lies in the future |
| `DailyPulse.SaveEntrySpec` | src/components/DailyPulse.tsx:157-175 | the saved row sits at the returned id and no other row changes; a row is inserted only when no id is known, and saving again under that id rewrites the same row |
| `DailyPulse.PulseEntrySpec` | src/components/DailyPulse.tsx:145-155 | the written row is completed, dated today, belongs to the user, and its reflections are the first 2000 characters |
| `DailyPulse.SavedTodayStreak` | src/components/DailyPulse.tsx:157-178 | once today's entry is saved the recomputed streak is at least 1, unless a completed entry lies after today |
| `DailyPulse.DailyPulseCard.constructor` | src/components/DailyPulse.tsx:20-28 | the card starts idle with mood 3, empty texts, no entry id, streak 0 and not completed |
| `DailyPulse.DailyPulseCard.LoadStreak` | src/components/DailyPulse.tsx:64-100 | the streak becomes the run of the query's dates ending today |
| `DailyPulse.DailyPulseCard.Save` | src/components/DailyPulse.tsx:157-175 | the table and the entry id become those of the update (id known) or the insert (no id) |
| `DailyPulse.DailyPulseCard.SaveAndRefresh` | src/components/DailyPulse.tsx:143-178 | the entry is saved, the card is marked completed and the streak is recomputed over the new table |
| `DailyPulse.DailyPulseCard.CompletePulse` | src/components/DailyPulse.tsx:131-202 | invalid reflections report the validation error and change nothing; a failing save reports the failure, writes nothing and leaves the card open; otherwise the entry is saved, the streak recomputed, exactly the specified badges are awarded, and the inputs and the complete button end up disabled |
| `ShareWeeklyHorizon.DisplayName` | supabase/functions/share-weekly-horizon/index.ts:30 | the card's name is never empty and is the stored name whenever one is set |
| `ShareWeeklyHorizon.MentorLine` | supabase/functions/share-weekly-horizon/index.ts:115 | the mentor line is never empty: the trimmed reply when it has content, else the fixed fallback |
| `ShareWeeklyHorizon.TopIndex` | supabase/functions/share-weekly-horizon/index.ts:88 | picks a mission with the largest count, the first such, as a stable descending sort would |
| `ShareWeeklyHorizon.TopMissionSpec` | supabase/functions/share-weekly-horizon/index.ts:72-91 | the per-mission counts add up to the week's check-ins; the top mission has the most check-ins and `completions` is its count, and every mission first seen earlier has fewer, so ties go to the mission seen first; with no check-ins the defaults apply |
| `ShareWeeklyHorizon.TopOfGrouping` | supabase/functions/share-weekly-horizon/index.ts:76-91 | over any exact grouping in first-seen order of a non-empty week, the top entry counts the most check-ins, is positive, and is the first mission seen with that count |
| `ShareWeeklyHorizon.EarlierKeysCountLess` | supabase/functions/share-weekly-horizon/index.ts:76-88 | in a grouping in first-seen order, when the groups before `i` all count less than group `i`, so does every key first seen before group `i`'s key |
| `ShareWeeklyHorizon.WeekCheckIns` | supabase/functions/share-weekly-horizon/index.ts:64-86 | the rows are exactly the caller's check-ins of the last seven days, each keyed by its mission and named by the joined title, and there are no more rows than check-ins |
| `ShareWeeklyHorizon.WeekCheckInsAppend` | supabase/functions/share-weekly-horizon/index.ts:64-86 | the rows keep the check-ins' order and multiplicity: the rows of a concatenation are the rows of its parts, concatenated |
| `ShareWeeklyHorizon.ShareStreakBounds` | supabase/functions/share-weekly-horizon/index.ts:33-60 | the shared streak is at most 100 and 0 without completed entries |
| `ShareWeeklyHorizon.ShareFallbacks` | supabase/functions/share-weekly-horizon/index.ts:150-178 | the answer is a 500 exactly when no image came back; otherwise the card carries non-empty name and mentor line, with their fallbacks |
| `ShareWeeklyHorizon.ShareWeeklyHorizon` | supabase/functions/share-weekly-horizon/index.ts:9-180 | the handler's streak and `missionCounts` loops give exactly the specified response |
| `LogWinModal.LevelForRange` | src/components/LogWinModal.tsx:99 | level `L` covers exactly the XP totals from `100 * (L - 1)` up to `100 * L`, and a non-negative total has level at least 1 |
| `LogWinModal.LevelForMonotone` | src/components/LogWinModal.tsx:99 | more XP never lowers the level |
| `LogWinModal.WinLevelsUp` | src/components/LogWinModal.tsx:73-100 | a win of 10 XP raises the level by at most one, and raises it exactly when the XP was within 10 of the next multiple of 100 |
| `LogWinModal.SetProgress` | src/components/LogWinModal.tsx:103-109 | every row with the mission's id gets the new XP and level; the other rows are unchanged |
| `LogWinModal.LevelUpStepSpec` | src/components/LogWinModal.tsx:120-133 | the level-up step writes the profile only when a mission below level 2 reaches level 2, and then only by appending its `first-levelup-` badge |
| `LogWinModal.CreditMissionsSpec` | src/components/LogWinModal.tsx:96-111 | the mission's rows gain 10 XP and the level of the new total, other rows are untouched, and a level-up is reported exactly when the level rose |
| `LogWinModal.CreditProfilesSpec` | src/components/LogWinModal.tsx:119-142 | a win only ever appends to the user's own badge list; no other profile changes |
| `LogWinModal.LogWinForm.constructor` | src/components/LogWinModal.tsx:42-46 | the form starts with no mission, an empty note and not loading |
| `LogWinModal.LogWinForm.CreditMission` | src/components/LogWinModal.tsx:96-142 | the missions and profiles become exactly those of the specified credit |
| `LogWinModal.LogWinForm.CreditSelected` | src/components/LogWinModal.tsx:87-147 | a mission that cannot be fetched, or whose update fails, changes nothing more and keeps the form; a fetched one is credited and the form is reset and closed |
| `LogWinModal.LogWinForm.Submit` | src/components/LogWinModal.tsx:71-157 | a failing check-in insert writes nothing; otherwise the check-in (10 XP, without the note) is appended first, so it stays when the mission lookup or update fails; loading ends false |
| `LogWinModal.LogWinForm.HandleSubmit` | src/components/LogWinModal.tsx:48-158 | no mission selected, or a non-empty note that fails validation, writes nothing; otherwise the submit's outcome as above, for each failing write |
| `ProgressMap.WeeklyCheckIns` | src/components/ProgressMap.tsx:64-68 | keeps exactly the check-ins that occurred on or after the week boundary |
| `ProgressMap.WeeklyCheckInsCounts` | src/components/ProgressMap.tsx:64-68 | each check-in is kept exactly as often as it was loaded when it is on or after the boundary, and not at all otherwise |
| `ProgressMap.WeeklyCheckInsAppend` | src/components/ProgressMap.tsx:64-68 | the filter keeps the loaded order: filtering a concatenation concatenates the filtered parts |
| `ProgressMap.MissionIdsSpec` | src/components/ProgressMap.tsx:69 | the set holds exactly the mission ids that occur, has at most one element per check-in, and is empty only for no check-ins |
| `ProgressMap.WeeklyStatsSpec` | src/components/ProgressMap.tsx:63-74 | `actions` counts the week's check-ins, each kept as often as it was loaded, and `missions` their distinct mission ids, so `missions <= actions` and both are zero together |
| `ProgressMap.CadenceHealthSpec` | src/components/ProgressMap.tsx:84-95 | for a positive target: green iff the target is met, amber iff 70% of it is met, red otherwise; a zero target is green for any check-in and red for none; a negative target is red |
| `ProgressMap.NodeSizeIncreasing` | src/components/ProgressMap.tsx:97-100 | a higher level or more XP always draws a strictly larger node |
| `ProgressMap.MissionCheckIns` | src/components/ProgressMap.tsx:80-82 | keeps exactly the loaded check-ins of the mission |
| `ProgressMap.MissionCheckInsCounts` | src/components/ProgressMap.tsx:80-82 | each check-in of the mission is kept exactly as often as it was loaded, and no other check-in is kept |
| `ProgressMap.MissionCheckInsAppend` | src/components/ProgressMap.tsx:80-82 | the filter keeps the loaded order: filtering a concatenation concatenates the filtered parts |
| `ProgressMap.OrbitDotsSpec` | src/components/ProgressMap.tsx:201 | at most five dots, the mission's first check-ins in load order, all of them when there are five or fewer |
| `Validation.FirstMatchIndex` | src/lib/validation.ts:87-137 | the scan stops at the first category in order that matches; none before it matches |
| `Validation.CheckOrderScan` | src/lib/validation.ts:87-137 | the categories are tried in the order self-harm, crisis, violence, substance abuse |
| `Validation.ValidateUserTextSpec` | src/lib/validation.ts:74-140 | empty text is valid; text over 2000 characters is a low/block rejection without resources, while 2000 passes; otherwise valid (low/allow) exactly when no category matches |
| `Validation.CategoryPrecedence` | src/lib/validation.ts:87-137 | the first matching category decides the rejection; every category rejection carries the crisis resources, and it is critical exactly for self-harm or crisis |
| `Validation.TruncateTextSpec` | src/lib/validation.ts:142-145 | the result is the prefix of length `min(len, max)`, the text itself when short enough, and truncating again changes nothing |
| `Validation.ValidTextIsNotTruncated` | src/lib/validation.ts:74-145 | text that passes validation is never shortened by the default truncation |
| `Validation.ReflectionSchemaSpec` | src/lib/validation.ts:147-158 | accepted exactly when the trimmed text has at most 2000 characters and passes validation; the value is trimmed; a long text reports both the length and the harm issue |
| `Validation.MentorMessageSchemaSpec` | src/lib/validation.ts:160-172 | all-whitespace input is rejected with "Message cannot be empty" alone; otherwise accepted exactly when trimmed, non-empty, at most 2000 characters and no category matches |
| `Validation.LengthSchemasSpec` | src/lib/validation.ts:174-184 | mission text is accepted exactly up to 200 trimmed characters, check-in notes up to 500, and the value is the trimmed text |
| `Auth.PasswordIssuesSpec` | src/pages/Auth.tsx:42-48 | a password passes exactly when it has 8 to 72 characters and an upper-case letter, a lower-case letter and a digit; each failed rule contributes its own issue |
| `Auth.FirstIssueSpec` | src/pages/Auth.tsx:35-82 | there is no issue exactly when the email is well-formed and at most 255 long and the password is accepted; the message shown is the first issue, email before password, format before length |
| `Auth.NormalizeEmailSpec` | src/pages/Auth.tsx:36-41 | the email sent on has no upper-case letter and no surrounding whitespace, is never longer, and normalising again changes nothing |
| `Auth.AuthPage.constructor` | src/pages/Auth.tsx:13-16 | the page starts in login mode with empty fields, idle and with no request made |
| `Auth.AuthPage.OnMount` | src/pages/Auth.tsx:20-27 | an existing session navigates to `/app`; otherwise the route is unchanged |
| `Auth.AuthPage.Toggle` | src/pages/Auth.tsx:198 | the link flips between login and signup |
| `Auth.AuthPage.HandleAuth` | src/pages/Auth.tsx:29-93 | a schema failure shows the first issue and makes no request; otherwise exactly one sign-in or sign-up request with the normalised email goes out, a successful login navigates to `/app`, a signup does not, and loading always ends false |
| `Onboarding.StepMovesSpec` | src/pages/Onboarding.tsx:20-32 | Continue and Back keep the step within 1..3, undo each other away from the ends, and stay put exactly at the last and the first step respectively |
| `Onboarding.ProgressSpec` | src/pages/Onboarding.tsx:17-18 | progress grows with the step and is 100 exactly at the last step, the only one labelled "Get Started"; Back shows from step 2 on |
| `Onboarding.OnboardingFlow.constructor` | src/pages/Onboarding.tsx:12 | the flow starts at step 1 without navigating |
| `Onboarding.OnboardingFlow.HandleNext` | src/pages/Onboarding.tsx:20-26 | Continue moves to the next step, and on the last step navigates to `/app` instead; the step stays within 1..3 |
| `Onboarding.OnboardingFlow.HandleBack` | src/pages/Onboarding.tsx:28-32 | Back moves to the previous step, never below 1 |
| `Subscription.PlanLimitsSpec` | src/lib/subscription.ts:13-28 | the free plan allows 3 missions and 40 mentor messages a day with no extras; premium is unlimited with every extra |
| `Subscription.CanCreateMissionSpec` | src/lib/subscription.ts:54-81 | a missing or empty plan counts as free; premium may always create, free only below three active missions (a missing count read as 0); an unknown plan name fails; fewer active missions never turn a permission into a refusal |
| `Subscription.CanSendMentorMessageSpec` | src/lib/subscription.ts:96-104 | premium may always send, free while fewer than 40 notes were created today, and an unknown plan name fails |
| `Subscription.CheckSubscriptionSpec` | src/lib/subscription.ts:30-52 | the plan is `free` without a session, on a failed call or when no plan came back, otherwise the one returned; an end date is only ever the one returned |
| `CostMonitor.SumCostsAntitone` | src/lib/monitoring/cost-monitor.ts:127-150 | with non-negative costs a later window never sums to more than an earlier one, and no sum is negative |
| `CostMonitor.GetCostStatsSpec` | src/lib/monitoring/cost-monitor.ts:113-178 | every stat is 0 on failure; otherwise the average is 0 without requests and multiplies back to the monthly total with them, the projection is the day's spend times the days in the month, and with non-negative costs the day's spend is at most the week's and the month's |
| `CostMonitor.GetSeveritySpec` | src/lib/monitoring/cost-monitor.ts:254-259 | critical from 200%, high from 150%, medium from 100%, low below; severity never drops as the percentage grows; an infinite percentage is critical and NaN is low |
| `CostMonitor.LimitAlertSpec` | src/lib/monitoring/cost-monitor.ts:44-81 | a limit alert is raised exactly when the spend exceeds the limit, with percentage `current / limit * 100`; for a non-negative limit its severity is at least medium |
| `CostMonitor.AlertsSpec` | src/lib/monitoring/cost-monitor.ts:37-111 | each alert kind is present exactly when its limit is exceeded or an anomaly is detected, there are at most four, and they come in the order daily, weekly, monthly, anomaly |
| `CostMonitor.GroupByDaySpec` | src/lib/monitoring/cost-monitor.ts:220-229 | one total per distinct date, each the sum of that date's costs; together they add up to all the costs, with no more totals than rows |
| `CostMonitor.DailyTotalsSpec` | src/lib/monitoring/cost-monitor.ts:196-198 | the daily totals add up to all the fetched costs, and there is at least one whenever there are rows |
| `CostMonitor.AnomalyAlertSpec` | src/lib/monitoring/cost-monitor.ts:180-218 | no anomaly with fewer than seven rows; otherwise an anomaly exactly when today's spend times the number of distinct days exceeds twice the total spend |
| `CostMonitor.ScaledComparison` | src/lib/monitoring/cost-monitor.ts:198-201 | comparing with twice the average is comparing the scaled spend with twice the total |
| `CostMonitor.Monitor.constructor` | src/lib/monitoring/cost-monitor.ts:25-28 | limits start at 50, 300 and 1000, with no stored alerts |
| `CostMonitor.Monitor.SetLimits` | src/lib/monitoring/cost-monitor.ts:277-281 | the three limits become the given ones |
| `CostMonitor.Monitor.GetLimits` | src/lib/monitoring/cost-monitor.ts:284-290 | returns the current three limits |
| `CostMonitor.Monitor.GroupByDay` | src/lib/monitoring/cost-monitor.ts:220-229 | the dictionary loop yields the specified per-date totals |
| `CostMonitor.Monitor.Total` | src/lib/monitoring/cost-monitor.ts:198 | the reduce loop yields the sum of the daily totals |
| `CostMonitor.Monitor.DetectCostAnomaly` | src/lib/monitoring/cost-monitor.ts:180-218 | the method's alert is exactly the specified anomaly alert |
| `CostMonitor.Monitor.CheckCosts` | src/lib/monitoring/cost-monitor.ts:37-111 | returns exactly the specified alerts over the stats and the 30-day anomaly check, and appends them to the alerts table only when there is at least one and the insert does not fail; a failing insert is only logged and the alerts are still returned |
| `UserFeedback.Round2Spec` | src/lib/feedback/user-feedback.ts:119 | rounding to two decimals moves a value by at most half a cent and keeps it between whole bounds around it |
| `UserFeedback.AverageInRange` | src/lib/feedback/user-feedback.ts:99-119 | the rounded average of ratings from 1 to 5 lies between 1 and 5 |
| `UserFeedback.FeatureRows` | src/lib/feedback/user-feedback.ts:79-83 | keeps exactly the rows of the feature |
| `UserFeedback.FeatureRowsCounts` | src/lib/feedback/user-feedback.ts:79-83 | each row of the feature is kept exactly as often as it occurs, and no other row is kept |
| `UserFeedback.FeatureRowsAppend` | src/lib/feedback/user-feedback.ts:79-83 | the filter keeps the table order: filtering a concatenation concatenates the filtered parts |
| `UserFeedback.InRange` | src/lib/feedback/user-feedback.ts:172-180 | keeps exactly the rows whose timestamp lies in the range, bounds included, or every row without a range |
| `UserFeedback.InRangeCounts` | src/lib/feedback/user-feedback.ts:172-180 | each row in the range is kept exactly as often as it occurs, and no other row is kept |
| `UserFeedback.InRangeAppend` | src/lib/feedback/user-feedback.ts:172-180 | the filter keeps the table order: filtering a concatenation concatenates the filtered parts |
| `UserFeedback.Since` | src/lib/feedback/user-feedback.ts:229-231 | keeps exactly the rows dated on or after the start of the last seven days |
| `UserFeedback.SinceCounts` | src/lib/feedback/user-feedback.ts:229-231 | each recent row is kept exactly as often as it occurs, and no other row is kept |
| `UserFeedback.SinceAppend` | src/lib/feedback/user-feedback.ts:229-231 | the filter keeps the table order: filtering a concatenation concatenates the filtered parts |
| `UserFeedback.TrendsCoverDates` | src/lib/feedback/user-feedback.ts:229-243 | the trend entries have distinct dates, every recent row has the entry of its date, and the entries come in the order in which their dates first occur |
| `UserFeedback.TrendsCount` | src/lib/feedback/user-feedback.ts:229-243 | the entry counts add up to the number of recent rows; each entry counts its date's rows, is positive and no older than the week boundary, and its average is its date's total over its count |
| `UserFeedback.Recent` | src/lib/feedback/user-feedback.ts:110-116 | at most the ten newest rows, in order, each with the user id hidden as `anonymous` |
| `UserFeedback.SummaryEmptySpec` | src/lib/feedback/user-feedback.ts:77-97 | a failed query gives `null`; a feature with no feedback gives average 0, total 0, no recent items and distribution `{1..5: 0}` |
| `UserFeedback.SummaryDistributionSpec` | src/lib/feedback/user-feedback.ts:100-120 | `totalResponses` is the feature's row count, each row of the feature counted as often as it occurs, and the distribution has one entry per rating given, whose counts add up to it |
| `UserFeedback.SummaryRecentSpec` | src/lib/feedback/user-feedback.ts:83-116 | the recent list holds at most ten items, the newest rows in order, with no user id |
| `UserFeedback.SummaryAverageSpec` | src/lib/feedback/user-feedback.ts:99-119 | with stored ratings from 1 to 5 the summary's average lies between 1 and 5 |
| `UserFeedback.Mean` | src/lib/feedback/user-feedback.ts:221 | a dictionary entry's average multiplies back to its total |
| `UserFeedback.StatsEmptySpec` | src/lib/feedback/user-feedback.ts:182-201 | the zero statistics come back exactly when the query fails or the range holds no rows |
| `UserFeedback.StatsFeaturesSpec` | src/lib/feedback/user-feedback.ts:203-223 | `totalFeedback` is the range's row count, each row in the range counted as often as it occurs; the per-feature counts add up to it, and each feature's average is its total over its positive count |
| `UserFeedback.FeatureGroupsSpec` | src/lib/feedback/user-feedback.ts:203-223 | over any rows, the per-feature entries add up to the number of rows, and each has a positive count and averages its feature's ratings |
| `UserFeedback.FeatureStatsSpec` | src/lib/feedback/user-feedback.ts:217-223 | over any grouping of the rows, each feature's entry has a positive count and averages that feature's ratings |
| `UserFeedback.StatsTrendsSpec` | src/lib/feedback/user-feedback.ts:225-245 | the trends cover exactly the rows of the last seven days: their counts add up to the number of those rows, one entry per distinct date in order of first occurrence, each with its date's positive count and average |
| `UserFeedback.FeedbackService.constructor` | src/lib/feedback/user-feedback.ts:21-29 | the feedback table starts empty |
| `UserFeedback.FeedbackService.SubmitFeedback` | src/lib/feedback/user-feedback.ts:31-75 | an anonymous caller, a rating outside 1..5 or a failed insert returns its error and writes nothing; otherwise exactly one row is appended |
| `UserFeedback.FeedbackService.GetFeedbackSummary` | src/lib/feedback/user-feedback.ts:77-128 | the dictionary loop yields exactly the specified summary |
| `UserFeedback.FeedbackService.GetFeedbackStats` | src/lib/feedback/user-feedback.ts:165-262 | the dictionary loops and the averaging loop yield exactly the specified statistics |
| `AIMetrics.CalculateCostSpec` | src/lib/monitoring/ai-metrics.ts:157-162 | the price is 0 for no tokens, never negative for real counts, and grows with each count |
| `AIMetrics.CreateMetricSpec` | src/lib/monitoring/ai-metrics.ts:119-155 | the response time is the elapsed time, the model is fixed, a cache hit is never recorded, omitted retry count and context size are 0, and the id is the request id followed by `_` |
| `AIMetrics.EventFor` | src/lib/monitoring/ai-metrics.ts:42-60 | a successful metric is reported as a response and a failed one as a failure, for the same request and function |
| `AIMetrics.DistinctCardinality` | src/lib/monitoring/ai-metrics.ts:165-167 | a duplicate-free key list has as many distinct keys as entries |
| `AIMetrics.AIMetricsCollector.constructor` | src/lib/monitoring/ai-metrics.ts:24-36 | the buffer starts empty, not flushing, with nothing stored |
| `AIMetrics.AIMetricsCollector.Put` | src/lib/monitoring/ai-metrics.ts:39 | the metric is stored under its id, a repeated id overwrites in place, and the buffer stays well-formed |
| `AIMetrics.AIMetricsCollector.GetMetricsCount` | src/lib/monitoring/ai-metrics.ts:165-167 | the count is the number of distinct buffered ids |
| `AIMetrics.AIMetricsCollector.Requeue` | src/lib/monitoring/ai-metrics.ts:83 | putting the snapshot back restores exactly the buffer and its order from before the flush |
| `AIMetrics.AIMetricsCollector.Flush` | src/lib/monitoring/ai-metrics.ts:68-87 | an empty buffer or a flush in progress changes nothing; a successful flush stores every buffered metric in order and empties the buffer; a failed one loses none; `isFlushing` ends false (also `forceFlush`, lines 170-172) |
| `AIMetrics.AIMetricsCollector.CollectMetric` | src/lib/monitoring/ai-metrics.ts:38-66 | the metric is buffered under its id and reported; a flush happens once 50 distinct metrics are buffered, unless one is already running, in which case the buffer just keeps the new metric; the flushing flag is as before |
| `AIMetrics.PutKeeps` | src/lib/monitoring/ai-metrics.ts:39 | after a put the metric is among the buffered values, whose number grows by one only for a new id |
| `AIMonitoring.TrackMetric` | supabase/functions/_shared/ai-monitoring.ts:35-75 | an accepted write appends exactly one row and keeps the table before it; a rejected or failed write leaves the table as it was and raises nothing |
| `AIMonitoring.TrackMetricSpec` | supabase/functions/_shared/ai-monitoring.ts:37-56 | the stored row's response time is the elapsed time, the model is fixed, a cache hit is never recorded, absent counts are 0, and the timestamp comes from the start time |
| `AIMonitoring.RowMatchesClientMetric` | supabase/functions/_shared/ai-monitoring.ts:37-82 | the edge function's row agrees with the client's `createMetric` on elapsed time, cost, model, cache flag, counts and start time |
| `AIMonitoring.EstimateTokens` | supabase/functions/_shared/ai-monitoring.ts:85-88 | the estimate `t` is the ceiling of a quarter of the length: `4t >= len > 4(t-1)` for non-empty text |
| `AIMonitoring.EstimateTokensMonotone` | supabase/functions/_shared/ai-monitoring.ts:85-88 | empty text estimates 0 tokens, and a longer text never estimates fewer |
| `AIGateway.GatewayFailureSpec` | supabase/functions/mentor-chat/index.ts:249-266 | a gateway status of 429 or 402 is passed on with its own message; every other failed status is answered with 500 and an "AI gateway error: " message |
| `MentorChat.TodayEntry` | supabase/functions/mentor-chat/index.ts:109-115 | today's entry, when found, is one of the user's entries dated today; when absent the user has none |
| `MentorChat.RecentEntriesSpec` | supabase/functions/mentor-chat/index.ts:117-127 | at most seven of the user's entries, none older than a week, newest first; all of them when there are no more than seven |
| `MentorChat.ActiveMissionsCounted` | supabase/functions/mentor-chat/index.ts:129-134 | the missions listed are exactly as many as the plan check counts as active |
| `MentorChat.UserNotes` | supabase/functions/mentor-chat/index.ts:136-140 | keeps exactly the user's notes |
| `MentorChat.UserNotesCounts` | supabase/functions/mentor-chat/index.ts:136-140 | each of the user's notes is kept exactly as often as it is stored, and no other note is kept |
| `MentorChat.UserNotesAppend` | supabase/functions/mentor-chat/index.ts:136-140 | the filter keeps the stored order: filtering a concatenation concatenates the filtered parts |
| `MentorChat.LatestNotes` | supabase/functions/mentor-chat/index.ts:136-142 | the ten latest of the user's notes (fewer if there are fewer), latest first |
| `MentorChat.ContextLinesSpec` | supabase/functions/mentor-chat/index.ts:144-181 | the text opens with the header; the Today block appears only with today's entry and has a line for each of the reflection and the suggestion that is set; every list block appears only for a non-empty list, with one line per item and at most five notes |
| `MentorChat.ContextStartsWithHeader` | supabase/functions/mentor-chat/index.ts:145 | the context always starts with "# User Context" and a blank line |
| `MentorChat.AppendToday` | supabase/functions/mentor-chat/index.ts:147-153 | the `+=` steps append exactly the rendered Today block |
| `MentorChat.AppendSection` | supabase/functions/mentor-chat/index.ts:155-181 | the `forEach` loop appends exactly the section heading, one line per item and a blank line, or nothing for an empty list |
| `MentorChat.BuildContext` | supabase/functions/mentor-chat/index.ts:144-181 | the string grown by `+=` is exactly the rendered context |
| `MentorChat.NotesShownSpec` | supabase/functions/mentor-chat/index.ts:136-181 | the notes block shows the five latest of the user's notes, latest first, although up to ten are fetched |
| `MentorChat.RespondSpec` | supabase/functions/mentor-chat/index.ts:24-301 | a saved note answers 200 and a failed insert 500; on the chat path a gateway 429 or 402 is passed through and any other gateway failure is 500; a reply with tool calls asks for action with the first call only |
| `MentorChat.SavedNoteCounts` | supabase/functions/mentor-chat/index.ts:25-41 | a saved note is the user's, has no tags unless given, and counts as one more of today's mentor messages for the plan limit |
| `MentorChat.HandleMentorChat` | supabase/functions/mentor-chat/index.ts:23-302 | answers with exactly the specified response; only a successful `saveMentorNote` writes, appending one note; the context is built exactly on the chat path |
| `GenerateDailyPulse.DateShapeOnly` | supabase/functions/generate-daily-pulse/index.ts:13 | the date rule checks shape only: `2025-13-99` passes, a two-digit year or a trailing newline fails |
| `GenerateDailyPulse.SchemaIssues` | supabase/functions/generate-daily-pulse/index.ts:11-14 | there is a user id issue exactly when the id is not a UUID string, and a date issue exactly when the date is not a `dddd-dd-dd` string |
| `GenerateDailyPulse.MissionsSummarySpec` | supabase/functions/generate-daily-pulse/index.ts:72-74 | the summary joins "title (type, cadence)" with ", ", and is "No active missions" for no missions |
| `GenerateDailyPulse.RecentReflectionsSpec` | supabase/functions/generate-daily-pulse/index.ts:76-78 | the reflections use at most the three newest entries, one line each, joined by newlines, and are "No recent entries" for none |
| `GenerateDailyPulse.ReflectionLineNonEmpty` | supabase/functions/generate-daily-pulse/index.ts:77 | an entry's line is never empty, so the fallback applies only to no entries |
| `GenerateDailyPulse.ReflectionLineSpec` | supabase/functions/generate-daily-pulse/index.ts:77 | a reflection is quoted as at most its first 100 characters |
| `GenerateDailyPulse.GeneratePulseSpec` | supabase/functions/generate-daily-pulse/index.ts:16-191 | a schema failure answers 400 and reaches nothing else; a query failure answers 500; a gateway 429 or 402 is passed through; the pulse comes back only from a first tool call named `generate_daily_pulse` |
| `Tables.Store.constructor` | src/integrations/supabase/types.ts:16-197 | a new store holds empty tables |
| `Tables.FindMission` | supabase/functions/claim-mission-rewards/index.ts:30-40 | the joined `missions` row of an instance is found exactly when a mission with that id exists, and a found row carries that id |
| `Tables.CountCompletionsAppend` | src/lib/badges.ts:68-71 | the exact per-user count of `mission_completions` grows by one exactly when a row of that user is added |
| `Tables.InsertDesc` | src/components/DailyPulse.tsx:71 | inserting a date into a newest-first list keeps it newest-first and adds exactly that date |
| `Tables.SortDesc` | src/components/DailyPulse.tsx:71 | `order('date', { ascending: false })` gives a newest-first permutation of the dates |
| `Tables.CompletedDatesMember` | src/components/DailyPulse.tsx:66-70 | a date is listed exactly when the user has a completed entry on it |
| `Tables.RecentCompletedDates` | src/components/DailyPulse.tsx:66-72 | the query returns at most `limit` dates, newest first |
| `Tables.RecentCompletedDatesSpec` | src/components/DailyPulse.tsx:66-72 | the result is a sub-multiset of the user's completed dates of length `min(limit, count)`, and no date left out is newer than a date kept |
| `Tables.SortDescHead` | src/components/DailyPulse.tsx:71 | the newest date of the input is the head of the ordered result |
| `Tables.UserEntriesSince` | supabase/functions/generate-daily-pulse/index.ts:49-54 | exactly the user's entries dated on or after the cut-off are returned |
| `Tables.InsertByDate` | supabase/functions/generate-daily-pulse/index.ts:54 | inserting an entry keeps entries newest-first and adds exactly that entry |
| `Tables.ByDateDesc` | supabase/functions/generate-daily-pulse/index.ts:54 | entries ordered by date descending are a newest-first permutation of the input |
| `Tables.ActiveMissions` | supabase/functions/generate-daily-pulse/index.ts:34-38 | exactly the user's active missions are returned |
| `Tables.Take` | supabase/functions/mentor-chat/index.ts:127 | `limit(n)` keeps the first `min(n, len)` rows in order |
| `Text.DigitChar` | supabase/functions/roll-mission-instances/index.ts:41 | a digit value below ten renders as the digit character that reads back as it |
| `Text.NatToString` | supabase/functions/roll-mission-instances/index.ts:44 | `toString()` of a natural number is a non-empty string of digits |
| `Text.IntToString` | supabase/functions/mentor-chat/index.ts:149 | `toString()` of an integer is non-empty, all digits when non-negative, and starts with a minus sign when negative |
| `Text.NatToStringInjective` | supabase/functions/roll-mission-instances/index.ts:44-48 | distinct numbers render as distinct strings, so distinct years give distinct period keys |
| `Text.FourDigits` | supabase/functions/roll-mission-instances/index.ts:41 | a year from 1000 to 9999 renders as four characters |
| `Text.JoinNonEmpty` | supabase/functions/generate-daily-pulse/index.ts:72-78 | joining at least one non-empty part gives a non-empty string, so the `||` fallback applies only to an empty list |
| `Text.TrimStart` | src/lib/validation.ts:149 | the leading whitespace, and only it, is removed |
| `Text.TrimEnd` | src/lib/validation.ts:149 | the trailing whitespace, and only it, is removed |
| `Text.TrimIdempotent` | src/lib/validation.ts:149 | trimming twice equals trimming once, and a trimmed string neither starts nor ends with whitespace |
| `Text.TrimEmptyIff` | src/lib/validation.ts:149-152 | the trimmed string is empty exactly when every character is whitespace |
| `Text.ToLower` | src/pages/Auth.tsx:40 | lower-casing keeps the length and maps each character on its own |
| `Calendar.DaysBeforeMonth` | supabase/functions/roll-mission-instances/index.ts:38-39 | the days before a month plus that month's days fit in the year |
| `Calendar.DayOfYear` | supabase/functions/roll-mission-instances/index.ts:39 | the whole days since 1 January of a valid date are fewer than the days of its year |
| `Calendar.JanFirstWeekday` | supabase/functions/roll-mission-instances/index.ts:40 | `getDay()` of 1 January is a weekday number from 0 to 6 |
| `Calendar.Weekday` | supabase/functions/roll-mission-instances/index.ts:40 | the weekday of a valid date is from 0 to 6 |
| `Calendar.JanFirstAdvances` | supabase/functions/roll-mission-instances/index.ts:38-40 | the weekday of 1 January moves forward by the length of the previous year, modulo seven |
| `JsNumbers.JsDivide` | src/components/ProgressMap.tsx:91 | division by a non-zero number is the real quotient; division by zero is `Infinity`, `-Infinity` or `NaN` according to the sign of the dividend |
| `JsNumbers.JsAtLeastMonotone` | src/components/ProgressMap.tsx:92-93 | a value that reaches a higher threshold reaches a lower one, and `NaN` reaches none |
| `Grouping.Find` | supabase/functions/share-weekly-horizon/index.ts:82 | the group of a key is found exactly when one exists, and a found group carries that key |
| `Grouping.FirstIndex` | supabase/functions/share-weekly-horizon/index.ts:80-83 | the first item with a key, when there is one, carries that key |
| `Grouping.FirstIndexPresent` | supabase/functions/share-weekly-horizon/index.ts:80-83 | a key has a first item exactly when it occurs at all |
| `Grouping.CountKeyMember` | supabase/functions/share-weekly-horizon/index.ts:85 | every item's key is counted at least once |
| `Grouping.SumCountsUpdate` | src/lib/monitoring/cost-monitor.ts:224 | updating one group changes the grand count and total by that group's change only |
| `Grouping.SumsAppend` | supabase/functions/share-weekly-horizon/index.ts:82-84 | appending a new group adds its count and total to the grand count and total |
| `Grouping.SnocFacts` | src/lib/feedback/user-feedback.ts:104-107 | adding an item raises the count and sum of its own key only, and keeps every earlier first appearance |
| `Grouping.AddDescribes` | src/lib/monitoring/cost-monitor.ts:223-225 | one step of the `forEach` keeps the dictionary an exact account of the items seen so far |
| `Grouping.AddKeys` | src/lib/monitoring/cost-monitor.ts:223-225 | after one step, a key has a group exactly when it occurs among the items seen so far |
| `Grouping.AddEntries` | supabase/functions/share-weekly-horizon/index.ts:78-86 | after one step, each group holds its key's count, sum and first-seen title |
| `Grouping.GroupAllDescribes` | supabase/functions/share-weekly-horizon/index.ts:76-88 | the filled dictionary has one group per distinct key, each with its key's count, sum and first-seen title |
| `Grouping.FirstIndexAtMost` | supabase/functions/share-weekly-horizon/index.ts:80-83 | a key occurring at position `j` first occurs at or before `j` |
| `Grouping.AddOrdered` | supabase/functions/share-weekly-horizon/index.ts:80-86 | one step of the `forEach` keeps the groups in the order in which their keys first occur |
| `Grouping.GroupAllOrdered` | supabase/functions/share-weekly-horizon/index.ts:76-88 | the filled dictionary lists its groups in the order in which their keys first occur among the items |
| `Grouping.GroupAllCovers` | supabase/functions/share-weekly-horizon/index.ts:76-88 | every item's key has a group in the filled dictionary |
| `Grouping.AddSums` | src/lib/monitoring/cost-monitor.ts:224 | one step adds one to the grand count and the item's value to the grand total |
| `Grouping.GroupAllSums` | src/lib/monitoring/cost-monitor.ts:220-228 | the groups' counts add up to the number of items and their totals to the sum of all values |
| `Grouping.GroupLoop` | src/lib/monitoring/cost-monitor.ts:220-229 | the `forEach` loop builds exactly the grouping specified by `GroupAll` |

## Quirks of the code

The model keeps each of these as the code has it, and a member states it.

- Weekly period key: weeks start on Sunday, and week 1 is the week that holds 1 January. The number is `ceil((daysSinceJan1 + weekdayOfJan1 + 1) / 7)`, so a year has up to 54 weeks and the last days of December never fall into week 1 of the next year (supabase/functions/roll-mission-instances/index.ts:37-41). `RollMissionInstances.WeekNumberRange` states this rule and its range 1..54.
- Roll cap: the candidates are cut with `slice(0, 5 - existing.length)` (supabase/functions/roll-mission-instances/index.ts:78). With six or more existing rows the end is negative, and a negative end counts from the back, so rows are still created beyond five. `RollMissionInstances.NegativeSliceCreates` exhibits six existing rows and three candidates still giving two new rows.
- Roll missions query: the active-missions query filters by cadence and `active` only, not by user (supabase/functions/roll-mission-instances/index.ts:57-61). The caller is given instances of every user's active missions of the cadence; the contract of `RollMissionInstances.ActiveMissionIds` does not mention the owner.
- Roll existing-instances read: the query's error is never read (supabase/functions/roll-mission-instances/index.ts:67-73). When it fails, `existing` is null, no mission counts as existing and the cap is five, so missions that already have an instance are inserted again; `RollMissionInstances.BlindRollDuplicates` exhibits it.
- `streak-7`: the check accepts neighbouring entries whose dates are at most one day apart in either direction, and it never compares with today (src/lib/badges.ts:43-53). Seven entries on one day pass, which `Badges.SameDayEntriesEarnStreak` exhibits.
- Level of a mission: `floor(xp / 100) + 1` (src/components/LogWinModal.tsx:99), so the `first-levelup` badge is awarded on reaching level 2, at 100 XP; `LogWinModal.LevelForRange` and `LogWinModal.WinLevelsUp` state it.
- Non-atomic claim: the claim handler writes the instance, the completion and the stats one after another with no transaction (supabase/functions/claim-mission-rewards/index.ts:62-128). A failing stats write leaves a recorded completion whose rewards are missing from the totals; `ClaimMissionRewards.StatsFailureBreaksLedger` exhibits it, and `ClaimMissionRewards.ClaimKeepsLedger` holds for every other outcome.

## Left out

- Service calls: Supabase queries and writes, `fetch`, `functions.invoke` and the auth service are not modelled as calls. Tables are fields of `Tables.Store` or parameters, and the answers of outside services (auth results, AI replies) are parameters.
- Write and query failures are parameters for the writes the core's handlers make: the claim handler (`ClaimMissionRewards.WriteFault`), the roller (`RollMissionInstances.RollFault`, which also covers its unchecked existing-instances read), the save of the daily pulse (`saveFails` of `DailyPulse.DailyPulseCard.CompletePulse`), the check-in and mission update of a logged win (`LogWinModal.WinFault`), the alert insert of the cost monitor (`storeFailed` of `CostMonitor.Monitor.CheckCosts`) and the feedback insert. Read queries are taken to succeed: a failing read of existing rows (the stats row of a claim, the streak and badge queries, the check-in and entry counts) is not modelled, nor are failures of the badge writes after a win or a pulse.
- RollMissionInstances.RollKeepsInstancesUnique: promised only when the existing-instances read succeeds, because the code ignores that read's error and then re-inserts missions that already have an instance; `RollMissionInstances.BlindRollDuplicates` shows the duplicate.
- ShareWeeklyHorizon.ShareFallbacks: a mentor `fetch` that throws, or a mentor reply that is not JSON, ends in the handler's `catch` with a 500 (supabase/functions/share-weekly-horizon/index.ts:96-115 and 170-178); the model takes the mentor reply as a parameter that always arrives, so its 500 comes only from a missing image.
- Thrown type errors on malformed requests are not modelled: with no `Authorization` header the claim and roll handlers throw inside their `try` and answer 500, not 401 (supabase/functions/claim-mission-rewards/index.ts:15-16 and supabase/functions/roll-mission-instances/index.ts:15-16), and a mentor-chat request without `messages` fails with 500 on `messages.length` before any branch (supabase/functions/mentor-chat/index.ts:17). The model's `caller` is `None` for every unauthenticated request and `messages` is always a list.
- UserFeedback.SummaryDistributionSpec: the rating distribution is a list of groups in first-seen order, while the code's object enumerates integer keys in ascending order (src/lib/feedback/user-feedback.ts:104-107); the contracts compare the distribution per rating, as a map, and say nothing about key order.
- ClaimMissionRewards.ClaimKeepsLedger: promised only when the stats write does not fail, because the handler has no transaction; `ClaimMissionRewards.StatsFailureBreaksLedger` shows the ledger broken in that case.
- Strings count Unicode scalar values, while JavaScript's `length`, `slice` and `substring` count UTF-16 code units. A character outside the Basic Multilingual Plane (most emoji) counts once in the model and twice in the code. For example, a reflection of 1001 emoji is 2002 code units and the code rejects it, while the model accepts it as 1001 characters. The members below state their bounds in characters for this reason.
- Validation.ValidateUserTextSpec: the 2000, 200 and 500 limits are counted in characters, not UTF-16 code units.
- Validation.TruncateTextSpec: the cut keeps a prefix of `maxLength` characters; the code cuts at a code unit and can split a surrogate pair.
- Auth.PasswordIssuesSpec: the 8..72 length bounds are counted in characters, not UTF-16 code units.
- Auth.FirstIssueSpec: the 255 bound on the email and the 8..72 bounds on the password are counted in characters, not UTF-16 code units.
- AIMonitoring.EstimateTokens: `ceil(length / 4)` uses the length in characters, not UTF-16 code units.
- GenerateDailyPulse.ReflectionLineSpec: the 100-character cut is counted in characters, not UTF-16 code units.
- DailyPulse.PulseEntrySpec: the 2000-character cut of the stored reflections is counted in characters, not UTF-16 code units.
- Concurrency: parallel rolls that insert duplicate instances, the non-atomic claim writes, the read-modify-write of the badge list, and the `setInterval`/`beforeunload` flush triggers with their `isFlushing` interleaving. Every handler runs as one sequential step.
- Clock and timezone: "today" is a day number or a calendar `Moment`; the split between UTC (`toISOString`) and local time (`getFullYear`, `getMonth`, `setHours`), DST and time-of-day are not modelled. Years are limited to 1000..9999 so that the four-digit year of `toISOString` agrees with `getFullYear`.
- Date rendering: the `YYYY-MM-DD` text of a day inside prompt and context strings is the `dateText`/`todayText` parameter.
- Floating point: costs, ratios and averages are Dafny `real`, so IEEE rounding is not modelled; `Math.round(x * 100) / 100` is modelled on reals.
- `generateAlertMessage` (src/lib/monitoring/cost-monitor.ts:261-274) and the message column written by `storeAlerts`: they only format numbers with `toFixed`.
- Safety regexes (src/lib/validation.ts:45-72): each category's patterns are the opaque predicate `matches`; the `lastIndex` state that `/g` patterns keep between `.test` calls is not modelled.
- The zod email and UUID format checks are the `isEmail` and `isUuid` parameters.
- Analytics and PostHog calls, and request ids built from `Date.now` and `Math.random`: the request id is a parameter.
- The `getInstance` singletons of the cost monitor and the feedback service: each is a class whose constructor takes the default configuration.
- `.single()` and `.maybeSingle()` over several matching rows are modelled as taking the first row.
- `Text.ToLower`: lower-cases ASCII letters only; Unicode case mapping is not modelled.
- Row ids: entries and instances are addressed by their position in the table.
- Notes and feedback are taken to be stored in creation order, so "newest first" is the reverse of the table.
- `loadTodayEntry` and `generatePulse` of src/components/DailyPulse.tsx:37-62 and 106-129: they only copy a fetched row or a service reply into component state.
- `handleOAuthSignIn` (src/pages/Auth.tsx:95-112): a redirect to the OAuth provider with no rule of its own.
- `getUserFeedback` (src/lib/feedback/user-feedback.ts:130-162): a filtered read with no rule beyond the query.
- The `suggestMicroHabits` tool call: parsing its JSON arguments and the prompt sent for it are not modelled; the suggested habits are a parameter.
- Environment and API-key checks and the fixed system-prompt texts of the edge functions.
- SVG trigonometry of `getRadialPosition` and the orbit angles (src/components/ProgressMap.tsx:102-108, 202-204).
- propose-missions, the demo-data functions, the analytics wrappers and the presentation-only components.
