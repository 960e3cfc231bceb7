# LevelUp Placement Slayer: a verified model of the progression core

LevelUp Placement Slayer is a gamified study tracker. A hunter (the player) completes daily
quests. Each completion awards XP and one stat point, may raise the level once, recomputes the
hunter's rank from the level (E up to Monarch), bumps the streak and credits today's bucket of
the weekly activity log. A heatmap shows the XP earned on each of the last 365 days. A settings
page edits the custom quest catalog and refuses to save quests with a blank title or a
non-positive XP value.

The project has four modules. Each follows one source file:

- `GameData` (`data.dfy`) models `src/lib/data.ts`: the stat names and stats record, the rank
  table, `levelUpFormula`, the initial player, the default quests, the personal bests and the
  weekly log. It proves facts about these constants.
- `Dashboard` (`dashboard.dfy`) models `handleQuestCompletion` from `src/app/dashboard/page.tsx`.
  - The page state is the `DashboardPage` class: player, three quest groups, weekly log.
  - `Complete` is the completion step. It is built from `MarkDone` (the quest update) and
    `ApplyReward` (the player and log update).
  - The level check (`LevelCheck`) and the rank update (`ResolveRank`) are methods over the
    same locals and branches as the source.
  - Every completion keeps the invariant `Valid`: xp stays in `0 .. 100*level - 1`, the rank is
    the one the level earns, ids are unique and rewards are in range.
- `Activity` (`activity.dfy`) models the heatmap effect and `getDotColor` from
  `src/components/dashboard/activity-charts.tsx`.
  - `XpByDate` is the `for...in` loop. It is proved equal to `DailyXp`, which gives each day
    the sum of the rewards of the known quests completed on that day, in any iteration order.
  - `Window` and `FallbackWindow` build the 365-day series.
  - `DotColor` is the five-band colour scale.
- `Settings` (`settings.dfy`) models the quest editor of `src/app/dashboard/settings/page.tsx`:
  field edits by id, add, delete, JavaScript's `trim`, the save gate and the rewrite of `new-`
  ids into `custom-` ids.

Inputs the program takes from the browser are parameters of the model:
- today's weekday (`Date.getDay()`, 0 = Sunday) is `getDay`;
- a calendar date is an integer day number `Day`;
- the random text of generated ids is a `token` string;
- a stored JSON entry is `Stored<T>`: `Absent`, `Parsed(value)` or `Malformed`;
- the result of `parseInt` is an `Option<int>`.

The model follows the code as written, not an idealised engine. The program's own achievements
(7-, 30- and 60-day streaks) and its personal-bests card (src/lib/data.ts:92-103) suggest more
than the completion step does:
- the level-up is one `if`, so one completion raises the level by at most one, and left-over XP
  can stay at or above the next threshold when a huge reward arrives;
- the streak is the previous streak plus one, with no date logic;
- the rank is recomputed from the level with no separate guard against demotion. `ResolveRank`
  keeps the old rank only when no rank qualifies, and `RankForMonotone` shows that a rising
  level never lowers the rank;
- the personal bests are fixed literals that no operation updates. `GameData.PersonalBests` is
  a display table, and so is `Activity.ShadeClass`, the style class of each heatmap shade.

One discrepancy is recorded without being corrected. A quest added in the editor gets the stat
`"intelligence"` in lower case, while every stat name is capitalised (`"Intelligence"`).
`Settings.NewQuestStatIsNoStatName` proves that it matches none of them, and
`Settings.NoOptionIsNewStat` shows the visible effect: no option of the stat selector matches a
newly added quest's stat.

## Model

Every function, method and lemma that carries an `ensures` clause and models the program has one row.

| member | source | states |
|---|---|---|
| GameData.RankEntriesInOrdinalOrder | src/lib/data.ts:36-45 | the rank table lists all eight ranks, each at the position of its declared order E, D, C, B, A, S, SS, Monarch |
| GameData.MinLevelStrictlyIncreasing | src/lib/data.ts:36-45 | one rank comes before another exactly when its minimum level is smaller: thresholds strictly increase from E to Monarch |
| GameData.LowestRankAdmitsAllLevels | src/lib/data.ts:37 | rank E has minimum level 0, no rank has a lower one, so every level >= 0 qualifies for some rank |
| GameData.LevelUpFormulaIncreasing | src/lib/data.ts:34 | the XP needed to leave a level is positive and strictly increasing for levels >= 1 |
| GameData.InitialPlayerFacts | src/lib/data.ts:47-61 | the initial player has level 1, xp 0, rank E, streak 0, xp below the level-1 threshold, and all five stats at 10 |
| GameData.DefaultQuestIdsUnique | src/lib/data.ts:71-90 | the ids of the main, side and emergency quests are distinct across all three groups and no default quest starts completed |
| GameData.DefaultRewards | src/lib/data.ts:71-90 | every default reward lies between 0 and the level-1 threshold, and a reward is 0 exactly for the emergency quest |
| GameData.WeeklyActivityShape | src/lib/data.ts:105-113 | the default weekly log has seven buckets labelled Mon to Sun in order |
| Dashboard.FindFrom | src/app/dashboard/page.tsx:38 | the search returns -1 exactly when no quest from the start index has the id, and otherwise the first index holding it |
| Dashboard.FindFromSeesOnlyIds | src/app/dashboard/page.tsx:38 | two lists with the same ids at the same positions give the same search result, whatever else differs |
| Dashboard.FindQuest | src/app/dashboard/page.tsx:38 | the lookup finds nothing exactly when no quest has the id, and otherwise returns the first quest with that id |
| Dashboard.LookupByGroup | src/app/dashboard/page.tsx:35-38 | the emergency group yields its quest whatever the id; the main and side groups yield nothing exactly when no quest of the group has the id, and otherwise a quest of that group with the id |
| Dashboard.MarkCompleted | src/app/dashboard/page.tsx:50-52 | the list keeps its length; quests with the id become completed with all other fields kept, and every other quest is unchanged |
| Dashboard.MarkCompletedChangesOne | src/app/dashboard/page.tsx:48-53 | with unique ids, marking changes exactly one position, the one holding the id, and only its completed flag |
| Dashboard.FindAfterMark | src/app/dashboard/page.tsx:38-52 | after marking, the same id is still found and the quest found is completed, so a second completion is refused |
| Dashboard.LevelCheck | src/app/dashboard/page.tsx:70-79 | a level-up happens exactly when the new XP reaches the old level's threshold; the level then rises by exactly one and the threshold is subtracted, otherwise level and XP stay; a new XP below twice the threshold ends below the new threshold |
| Dashboard.RanksByMinLevelDescIsSortedTable | src/app/dashboard/page.tsx:81-82 | the rank table sorted by descending minimum level holds every rank exactly once and its thresholds strictly decrease |
| Dashboard.SortedRankPositions | src/app/dashboard/page.tsx:81-82 | in the sorted table the rank at position i has ordinal 7 - i, so Monarch comes first and E last |
| Dashboard.FindEligibleFrom | src/app/dashboard/page.tsx:83 | the search returns -1 exactly when no rank from the start index admits the level, and otherwise the first rank whose minimum level the level reaches |
| Dashboard.RankFor | src/app/dashboard/page.tsx:81-83 | for every level >= 0 the rank found admits the level, and every rank that admits the level is at most as high |
| Dashboard.RankForMonotone | src/app/dashboard/page.tsx:81-91 | a higher level never earns a lower rank |
| Dashboard.ResolveRank | src/app/dashboard/page.tsx:85-91 | for a level >= 0 the new rank is the highest rank the level admits; when no rank qualifies the previous rank is kept |
| Dashboard.DayIndex | src/app/dashboard/page.tsx:104 | the weekday number maps to a bucket index in 0..6 |
| Dashboard.DayIndexNamesWeekday | src/app/dashboard/page.tsx:104 | the bucket index names the same weekday as the JavaScript day number: Monday goes to bucket 0 and Sunday to bucket 6 |
| Dashboard.ZeroedWeek | src/app/dashboard/page.tsx:29-31 | the page's starting log keeps the seven day labels with every XP value at 0, so its total is 0 |
| Dashboard.WeekTotalCredit | src/app/dashboard/page.tsx:105-109 | crediting one bucket by an amount raises the weekly total by exactly that amount |
| Dashboard.InitialPlayerWellFormed | src/lib/data.ts:47-61 | the initial player is well formed: level >= 1, xp within the level's bound, rank equal to the rank its level earns (E), streak >= 0, all stats present |
| Dashboard.DashboardPage.constructor | src/app/dashboard/page.tsx:23-31 | the page starts with the initial player, the default quest groups and an all-zero weekly log, and the invariant holds |
| Dashboard.DashboardPage.MarkDone | src/app/dashboard/page.tsx:41-54 | exactly the target quest of the named group becomes completed; the other quests, the other groups, ids and rewards stay as they were |
| Dashboard.DashboardPage.ApplyReward | src/app/dashboard/page.tsx:56-111 | the quest's stat gains one point and the others stay; one level check; the rank is the one the new level earns and never lowers; the promotion notice fires exactly when the rank changes; the streak gains one; name and title stay; only today's bucket gains the reward and the weekly total grows by it; the player stays well formed |
| Dashboard.DashboardPage.Complete | src/app/dashboard/page.tsx:34-127 | a completion is accepted exactly when the quest exists and is not yet completed; a refused one changes nothing and raises no notice; an accepted one marks exactly that quest and applies the reward as ApplyReward states; the invariant is kept |
| Dashboard.CompleteTwice | src/app/dashboard/page.tsx:40 | completing the same quest twice in a row refuses the second completion |
| Activity.QuestsByIdKeys | src/components/dashboard/activity-charts.tsx:69 | the quest map has an entry for an id exactly when some defined quest has that id |
| Activity.QuestsByIdLastWins | src/components/dashboard/activity-charts.tsx:69 | for a repeated id, the map holds the last quest with that id |
| Activity.DefinedQuests | src/components/dashboard/activity-charts.tsx:64-68 | the defined quests are the stored main list (or the default one), then the stored side list (or the default one), then the emergency quest; with nothing stored they are the default catalog |
| Activity.SumCreditsAnyFirst | src/components/dashboard/activity-charts.tsx:77-83 | the day's sum can take any completion first: the result does not depend on the iteration order |
| Activity.SumCreditsOffDays | src/components/dashboard/activity-charts.tsx:76-83 | a day on which no known quest was completed sums to 0 |
| Activity.SumCreditsCongruent | src/components/dashboard/activity-charts.tsx:77-83 | the day's sum depends only on the dates of the completions summed over |
| Activity.Accumulate | src/components/dashboard/activity-charts.tsx:78-82 | an unknown quest id leaves the table unchanged; a known one sets its completion date to the previous entry (or 0) plus the quest's reward and leaves every other date as it was |
| Activity.DailyXpOverAdd | src/components/dashboard/activity-charts.tsx:77-83 | folding one more completion into the table equals the daily sums over the larger set of ids |
| Activity.DailyXpOverCongruent | src/components/dashboard/activity-charts.tsx:77-83 | the daily sums depend only on the dates of the completions summed over |
| Activity.XpByDate | src/components/dashboard/activity-charts.tsx:76-83 | the loop yields, for every date, the sum of the rewards of the known quests completed that day, and no entry for a date without one |
| Activity.UnknownCompletionIgnored | src/components/dashboard/activity-charts.tsx:79-80 | a completion whose quest id is not in the quest map contributes nothing to any day |
| Activity.RecordCompletion | src/components/dashboard/activity-charts.tsx:77-82 | recording one more known quest on a day adds its reward to that day once and changes no other day |
| Activity.Window | src/components/dashboard/activity-charts.tsx:87-95 | the series has 365 entries of consecutive dates ending today, each counting its date's XP or 0 when the date has none |
| Activity.WindowCoversYear | src/components/dashboard/activity-charts.tsx:86-90 | a date appears in the series exactly when it lies in the 365 days up to today, and the dates strictly increase |
| Activity.WindowShowsDailySums | src/components/dashboard/activity-charts.tsx:76-95 | each day of the series shows the sum of the rewards of the known quests completed that day |
| Activity.FallbackWindow | src/components/dashboard/activity-charts.tsx:98-111 | the error series has the same 365 dates with every count 0 |
| Activity.ProgressHeatmap | src/components/dashboard/activity-charts.tsx:60-111 | any stored entry that fails to parse gives the all-zero series; otherwise the series shows the daily sums over the stored or default quests and the stored or empty completions |
| Activity.DotColor | src/components/dashboard/activity-charts.tsx:114-120 | 0 is muted, below 20 faint, 20..49 light, 50..99 medium, 100 and above full, each band exactly on its range |
| Activity.DotColorClass | src/components/dashboard/activity-charts.tsx:114-120 | the class string of a count's shade is the one the source's band chain returns for that count, and distinct shades have distinct classes |
| Activity.DotColorMonotone | src/components/dashboard/activity-charts.tsx:114-120 | for non-negative counts a larger count never gets a paler band |
| Settings.ToEditable | src/app/dashboard/settings/page.tsx:14-16 | the editor's quest keeps the catalog quest's id, title and XP, drops the completed flag and holds the stat as its name; `DefaultCatalogSaves` shows the default catalog seen this way can be saved |
| Settings.DefaultCatalogSaves | src/app/dashboard/settings/page.tsx:95-96 | the default main and side quests, loaded into the editor, pass the save gate: every title is non-blank and every reward positive |
| Settings.ApplyEdit | src/app/dashboard/settings/page.tsx:21-22 | an edit replaces exactly the field it names and keeps the id and the other fields |
| Settings.XpInput | src/app/dashboard/settings/page.tsx:54 | the XP field passes on the parsed number, and 0 when the text does not parse |
| Settings.HandleQuestChange | src/app/dashboard/settings/page.tsx:21-23 | the list keeps its length, order and ids; quests with the id get the edit, all others are unchanged |
| Settings.NewQuest | src/app/dashboard/settings/page.tsx:26-31 | a new quest has an id starting with "new-", an empty title, XP 10 and the stat text "intelligence" |
| Settings.AddQuest | src/app/dashboard/settings/page.tsx:25-33 | adding appends exactly one new quest at the end and keeps the existing quests as they were |
| Settings.StatChoice | src/app/dashboard/settings/page.tsx:63-65 | each option of the stat selector sets the stat to one of the five stat names as the catalog spells them; `NoOptionIsNewStat` shows none of them is a new quest's stat |
| Settings.NewQuestStatIsNoStatName | src/app/dashboard/settings/page.tsx:30 | the lower-case stat of a new quest is none of the five stat names |
| Settings.NoOptionIsNewStat | src/app/dashboard/settings/page.tsx:58-65 | no option the stat selector offers equals the stat of a newly added quest |
| Settings.DeleteQuest | src/app/dashboard/settings/page.tsx:35-37 | no quest with the id remains, a quest is kept exactly when it was there with another id, and a list without the id is returned unchanged |
| Settings.DeleteQuestAppend | src/app/dashboard/settings/page.tsx:36 | deleting from a joined list deletes from each part, so the survivors keep their order |
| Settings.TrimStart | src/app/dashboard/settings/page.tsx:103 | removing leading white space leaves a suffix that is empty or starts with a non-white-space character |
| Settings.TrimEnd | src/app/dashboard/settings/page.tsx:103 | removing trailing white space leaves a prefix that is empty or ends with a non-white-space character |
| Settings.BlankIffAllWhitespace | src/app/dashboard/settings/page.tsx:103 | a title trims to nothing exactly when every character is white space |
| Settings.AddedQuestBlocksSave | src/app/dashboard/settings/page.tsx:102-110 | a freshly added quest, in either list, makes the lists fail validation |
| Settings.UnparsedXpBlocksSave | src/app/dashboard/settings/page.tsx:54 | an XP input that does not parse turns the quest invalid, so the lists fail validation |
| Settings.FinaliseIds | src/app/dashboard/settings/page.tsx:112-113 | ids starting with "new-" become "custom-" ids and other ids are kept; length, order, title, XP and stat are preserved; no "new-" id remains |
| Settings.FinaliseKeepsValidity | src/app/dashboard/settings/page.tsx:112-113 | rewriting the ids does not change whether the lists pass validation |
| Settings.HasInvalidAppend | src/app/dashboard/settings/page.tsx:102-103 | the joined lists have an invalid quest exactly when one of the two lists has |
| Settings.HandleSave | src/app/dashboard/settings/page.tsx:100-113 | a save is refused exactly when a quest in either list has a blank title or XP <= 0; otherwise both lists are handed on with final ids, every quest valid and no "new-" id left |

## Left out

- The AI flows under `src/ai/flows/` are language-model calls through a library outside the
  model.
- All rendering: the info cards, sidebar, profile, layout, icons, radar chart, achievement and
  streak pages and the quest board. The quest board's guard against completed quests repeats
  the one in `Complete`.
- Toasts are left out: `Complete` models the level-up and promotion notices only as the
  `leveledUp` and `promoted` flags.
- Browser storage, JSON parsing and serialisation, and window events are left out.
  - Stored data arrive as `Stored<T>` inputs, and nothing is written back.
  - An empty stored string counts as `Absent`, as JavaScript's truthiness test treats it.
  - A parse failure is `Malformed`.
  - A parsed value is assumed to have the declared shape.
  - The settings page's own reading of stored lists (settings/page.tsx:91-98) is not modelled.
- The clock and `Date` arithmetic are inputs. `getDay` is a parameter. Dates are integer day
  numbers, so ISO string formatting, UTC versus local time and daylight-saving shifts are not
  modelled.
- Generated ids are left out. `Date.now`/`Math.random` ids and the random `heatmapData` of
  data.ts become caller-supplied tokens, so the model does not guarantee that generated ids are
  fresh or distinct.
- The floating-point XP progress bar of the header is left out.
- React state batching and stale closures are left out: completions are strictly sequential and
  each reads the current state.
- The rank colours in the rank table are display data and are left out.
- `Settings.XpInput`: takes the result of `parseInt` as an `Option<int>`. The text parsing
  itself (leading white space, signs, trailing garbage) is not modelled.
- `Dashboard.LevelCheck`: works on unbounded integers. JavaScript's double-precision numbers
  agree with them only up to 2^53.
- The editor's loading of its lists is not modelled as an operation. `Settings.ToEditable` is
  the editor's view of a catalog quest, used only to state that the default catalog can be
  saved. It drops the completed flag that the source's objects keep at run time.
- Toasts and logging are left out: the settings page's "Invalid Quest" and "Quests Saved"
  notices (settings/page.tsx:104-108, 118-121) and the heatmap's `console.error`
  (activity-charts.tsx:100). `Settings.HandleSave` reports them only as `Rejected` or `Saved`.
