# Daily quest tracker: action engine and client progression

The tracker is a gamified daily habit log. A player completes quests and
takes penalties. Each one moves the player's xp and one of five stats. The
xp fixes a level, and the level fixes a rank from E up to NATIONAL. The
server keeps one tracker document and applies one action to it per request:

- `quest` or `penalty`: at most once per day, against the `completedToday` and
  `penaltiesToday` lists;
- `custom`: a free-form, repeatable action;
- `reset`: starts a new day.

The client holds its own copy of the rules. It marks quests and penalties
in local state, credits their xp, and derives counters for display.

This project models both sides:

- `wrappers.dfy` (`Wrappers`): the `Option` type, plus `Max` and `Min`.
- `progression.dfy` (`Progression`): the level formula and the rank ladder,
  which both sides share. `floor((xp / 200) ^ 0.45) + 1` is stated in exact
  integer arithmetic. The bands k with `k^20 * 200^9 <= xp^9` are exactly
  those below the level.
- `update.dfy` (`Update`): the server's action engine. It has:
  - the weekend-dependent catalogs;
  - a value model of the document (`Doc`), with the pure specification of one
    request (`Decide`, `Settle`, `Process`) and its properties;
  - the document as a mutable object (`TrackerDocument`). Its `ApplyAction`
    follows the handler statement by statement and is proved equal to
    `Process`.
- `app.dfy` (`App`): the client's catalogs, rank ladder, player updater,
  list transitions and derived counters. The React state is a class
  (`ClientState`). Each handler that replaces that state is a method,
  specified by the functions of the module.
- `agreement.dfy` (`Agreement`): how the client's copy of the rules relates
  to the server's.

Conventions:

- A request string field that is missing or falsy is the empty string. A
  missing `customXp` is 0.
- A stored `xp` and `history` may be missing (`Option`); the handler reads them
  with `|| 0` and `|| []`.
- The day of the week, the ISO timestamp and the `custom-<time>` id of a new
  custom quest are parameters.

## Model

| member | source | states |
|---|---|---|
| Progression.Greatest | api/update.js:134 | the greatest band at most k that xp reaches is reached, and no band above it up to k is |
| Progression.Level | api/update.js:132-135 | the level is at least 1, is 1 for negative xp, and for xp >= 0 the bands reached are exactly those below the level |
| Progression.LevelMonotone | src/App.jsx:5-8 | `calculateLevel` never decreases as xp grows |
| Progression.LevelBelow200 | api/update.js:134 | every xp below 200 (negatives included) is level 1 |
| Progression.LevelTwoFrom200 | api/update.js:134 | every xp from 200 to 399 is level 2 |
| Progression.RankOf | api/update.js:139-146 | each rank holds exactly on its band: NATIONAL >= 100, S 80..99, A 60..79, B 40..59, C 25..39, D 10..24, E below 10 |
| Progression.RankName | api/update.js:140-146 | the stored rank name is never empty, and it is `NATIONAL` exactly for the National rank |
| Progression.RankNameInjective | api/update.js:140-146 | distinct ranks have distinct names |
| Progression.RankMonotoneInXp | api/update.js:132-146 | the rank never falls as xp grows |
| Update.Quest | api/update.js:62-72 | a known quest has positive xp, a title and a stat; the empty id is unknown |
| Update.Penalty | api/update.js:74-86 | a known penalty has negative xp, a title and a stat; the empty id is unknown |
| Update.WeekendVariant | api/update.js:62-86 | the same ids exist on every day; only `work` (15 on a weekend, 25 otherwise) and `noWork` (-35 or -60) change, in title and xp |
| Update.XpOrZero | api/update.js:124 | a missing stored xp counts as 0 |
| Update.StatChange | api/update.js:127 | the server's stat nudge is +1, -1 or 0, following the sign of the xp change |
| Update.NudgeStat | api/update.js:126-129 | only an existing, named stat moves, by the sign and floored at 1; the key set and all other stats are unchanged |
| Update.AppendCapped | api/update.js:149-160 | the ledger grows by one up to 50 and keeps the newest entries in order, the new one last |
| Update.AppendToFullLedger | api/update.js:157-159 | appending to a full ledger drops exactly the oldest entry |
| Update.Decide | api/update.js:93-121 | the dispatch rejects exactly the unrecognised requests, answers "already done" exactly when a known id is already on its daily list, and otherwise goes on with daily lists that stay free of duplicates |
| Update.Settle | api/update.js:123-163 | steps 4 to 8 store exactly `max(0, (xp || 0) + change)`, with the level and rank derived from it, the stat nudged by `NudgeStat`, the given daily lists, and the capped ledger with the new entry for a titled non-zero change; they keep the stat keys, the stats-at-least-1 and ledger-cap invariants, leave the ledger alone for an untitled or zero change, and stamp `now` |
| Update.Process | api/update.js:88-163 | a request that is not applied leaves the document as stored; "already done" reports the stored xp; a success reports the xp it writes and stamps `now` |
| Update.InvalidExactlyWhenUnrecognised | api/update.js:93-121 | a request is rejected exactly when it names no known quest or penalty, no titled custom action and no reset; a rejected request changes nothing |
| Update.OkReportsDerivedValues | api/update.js:124-146 | every success writes and reports a non-negative xp, with the level and rank derived from it |
| Update.QuestFirstTime | api/update.js:93-98 | whatever else the request carries, a quest not yet done today is appended once to `completedToday`; its xp, stat nudge and ledger entry are applied |
| Update.QuestRepeated | api/update.js:99-101 | whatever else the request carries, a quest already done today replies with the stored xp and leaves the document unchanged |
| Update.PenaltyFirstTime | api/update.js:102-107 | whatever else the request carries, a penalty not yet applied today is appended once to `penaltiesToday`; its xp, stat nudge and ledger entry are applied |
| Update.PenaltyRepeated | api/update.js:108-110 | whatever else the request carries, a penalty already applied today replies with the stored xp and leaves the document unchanged |
| Update.CustomAction | api/update.js:111-113 | whatever else the request carries, a titled custom action applies `customXp`, touches no stat and no daily list, is logged exactly when its xp is not 0, and succeeds again when repeated |
| Update.ResetAction | api/update.js:114-118 | whatever else the request carries, reset empties both daily lists and keeps stats and history; the xp of a well-formed document is kept |
| Update.SettleKeepsWellFormed | api/update.js:123-163 | steps 4 to 8 keep xp >= 0, stats >= 1, history <= 50 and the derived level and rank, given duplicate-free daily lists |
| Update.ProcessKeepsWellFormed | api/update.js:88-163 | every request keeps the document's invariants, including duplicate-free daily lists |
| Update.QuestTwiceAppliesOnce | api/update.js:93-101 | two requests for the same quest in a day apply it once; the second request reports the first one's xp and changes nothing |
| Update.WeekdayStepsFirst | api/update.js:93-146 | on a weekday, `steps` on a fresh day from xp 0..35 adds 15 and stays at level 1, rank E, recording only `steps` |
| Update.WeekdayMissedSecond | api/update.js:102-146 | on a weekday, `missedWorkout` from xp 0..50 floors xp at 0, at level 1, rank E, leaving the quest list alone |
| Update.WeekdayScenario | api/update.js:93-146 | on a weekday from xp 0..35: `steps` adds 15 at rank E, `missedWorkout` floors xp at 0, and `steps` again is a no-op reporting 0 |
| Update.TrackerDocument.UpdateXpAndStats | api/update.js:123-129 | the xp becomes `max(0, (xp or 0) + change)` and the stats become `NudgeStat` of the old ones |
| Update.TrackerDocument.UpdateLevelAndRank | api/update.js:131-146 | the level and rank fields are set from the stored xp |
| Update.TrackerDocument.AppendHistory | api/update.js:148-160 | the ledger becomes `AppendCapped` of the old one (or of an empty one) |
| Update.TrackerDocument.Commit | api/update.js:123-163 | the document becomes `Settle` of its old state |
| Update.TrackerDocument.Dispatch | api/update.js:88-121 | the branch taken and the daily lists it writes follow `Decide` |
| Update.TrackerDocument.ApplyAction | api/update.js:56-163 | the reply and the new document are exactly `Process` of the old document |
| App.Item.AsDone | src/App.jsx:164-167 | the copy is marked done and keeps the card's kind and every other field |
| App.DefaultQuests | src/App.jsx:36-51 | nine quests, none completed, all with positive xp; `work` is worth 15 on a weekend and 25 otherwise |
| App.DefaultPenalties | src/App.jsx:56-71 | eleven penalties, none applied, all with negative xp; `noWork` costs 35 on a weekend and 60 otherwise |
| App.DefaultQuestIdsDistinct | src/App.jsx:40-49 | the default quests have distinct ids |
| App.DefaultPenaltyIdsDistinct | src/App.jsx:59-69 | the penalties have distinct ids |
| App.GetRank | src/App.jsx:19-27 | the client ladder names the same band as the server's |
| App.ClientStatChange | src/App.jsx:196 | the client's stat nudge is +1 for a positive change and -1 otherwise, 0 included |
| App.UpdatedPlayer | src/App.jsx:193-203 | xp becomes `max(0, xp + change)`; only an existing, named stat moves, floored at 1; the other stats and the key set are unchanged; valid players stay valid |
| App.MarkIfPending | src/App.jsx:164-168 | a card with the id ends up done; a card with another id, or one already done, is returned as it is |
| App.MarkDone | src/App.jsx:163-169 | afterwards every item with the id is done and every other item is unchanged; ids, xp and length are kept |
| App.MarkDoneKeepsKinds | src/App.jsx:163-189 | marking keeps a list of quests a list of quests and a list of penalties a list of penalties |
| App.Credit | src/App.jsx:163-169 | crediting the pending matches keeps a valid player valid |
| App.CreditNothingPending | src/App.jsx:164 | with no pending item with the id, the player is unchanged |
| App.CreditSinglePending | src/App.jsx:161-179 | with exactly one pending item with the id, its xp and stat are applied exactly once |
| App.CompleteOnce | src/App.jsx:161-190 | on a list with distinct ids, the i-th pending item is credited exactly once |
| App.RepeatChangesNothing | src/App.jsx:161-190 | repeating the call with the same id changes neither the list nor the player |
| App.DoneXp | src/App.jsx:153-155 | the completed-xp sum is 0 when nothing is done, never negative when no card loses xp, and never positive when every card loses xp |
| App.DoneCount | src/App.jsx:224 | the number of completed items is at most the length of the list |
| App.DoneXpAfterMark | src/App.jsx:152-157 | marking an id adds exactly the xp of its pending items to the day's total |
| App.WithoutId | src/App.jsx:221 | no kept item has the id, and the list does not grow |
| App.WithoutIdMembers | src/App.jsx:220-222 | the kept items are exactly the items without the id |
| App.WithoutIdKeepsOrder | src/App.jsx:220-222 | filtering distributes over concatenation, so the kept items stay in their original order |
| App.WithoutAbsentId | src/App.jsx:221 | a list holding no item with the id is left as it is |
| App.TrimStart | src/App.jsx:207 | the result is a suffix, the part removed is all white space, the result does not start with white space, and it is empty exactly for a blank string |
| App.TrimEnd | src/App.jsx:207 | the result is a prefix, the part removed is all white space, the result does not end with white space, and it is empty exactly for a blank string |
| App.Trim | src/App.jsx:207 | `trim()` is empty exactly when the title consists of white space and line terminators only |
| App.CustomQuest | src/App.jsx:208-213 | the new quest carries the form's fields and the fresh id, is not completed, and is in category `custom` |
| App.StatsSum | src/App.jsx:229 | stats that are all at least 1 sum to at least their number |
| App.StatsSumRemove | src/App.jsx:229 | the sum does not depend on key order: any key can be taken out first |
| App.StatsSumUpdate | src/App.jsx:229 | setting one existing stat changes the sum by exactly the difference |
| App.Power | src/App.jsx:228-231 | for a valid player the power is at least 100 plus twice the number of stats |
| App.PowerAfterGain | src/App.jsx:193-203 | a gain never lowers `totalPower`, and raises it by at least 2 when it moves an existing stat |
| App.PowerAfterLoss | src/App.jsx:193-203 | a loss, or a change of 0, never raises `totalPower` |
| App.ClientState.constructor | src/App.jsx:77-122 | the player starts at xp 0 with five stats at 10, with the default lists for the day, no custom quest and no xp gained today |
| App.ClientState.UpdatePlayerXpAndStats | src/App.jsx:193-203 | the player becomes `UpdatedPlayer` of the old one, and stays valid |
| App.ClientState.MarkAndCredit | src/App.jsx:163-169 | the loop yields `MarkDone` of the list and leaves the player at `Credit` of the old one |
| App.ClientState.CompleteQuest | src/App.jsx:161-179 | only the chosen list is marked and credited; the day's xp total grows by the xp of the pending matches |
| App.ClientState.ApplyPenalty | src/App.jsx:182-190 | the penalty list is marked and credited; the day's xp total changes by the pending penalties' xp |
| App.ClientState.AddCustomQuest | src/App.jsx:206-217 | a blank title leaves the list unchanged; otherwise exactly one new custom quest is appended; the state stays valid |
| App.ClientState.DeleteCustomQuest | src/App.jsx:220-222 | the custom list becomes the list without the id; the state stays valid |
| App.ClientState.TodayXpGained | src/App.jsx:152-157 | when every penalty loses xp, the day's total is at most the xp of the completed quests and custom quests |
| App.ClientState.TotalQuests | src/App.jsx:225 | `totalQuests` is no less than the number of completed quests |
| App.ClientState.CompletedCount | src/App.jsx:224-225 | `completedCount` is at most `totalQuests` |
| App.ClientState.TotalPower | src/App.jsx:228-231 | `totalPower` is the player's `Power`: for a valid state, at least 100 plus twice the number of stats |
| Agreement.QuestCatalogsAgree | src/App.jsx:36-51 | every client quest is a server quest with the same xp and stat, on either day |
| Agreement.PenaltyCatalogsAgree | src/App.jsx:56-71 | every client penalty is a server penalty with the same xp and stat, on either day |
| Agreement.StatRulesAgreeOffZero | src/App.jsx:196 | for a non-zero change the client and the server nudge a stat the same way |
| Agreement.StatRulesDifferAtZero | src/App.jsx:196 | for a change of 0 the client lowers the stat by one and the server leaves it |

## Left out

- Loading and saving the document are left out: the GitHub content API GET and PUT, the `sha` version, base64 and JSON encoding (api/update.js:36-54, 165-188). They are network I/O and foreign calls. `TrackerDocument.constructor` stands for the parsed document, and `Process` returns the document that would be written.
- CORS headers, the method checks and the bearer-token check (api/update.js:3-22) are left out as request plumbing.
- Reply message texts and the commit message are left out as cosmetic. Only the reply kind and its xp, level and rank are modelled.
- `calculateXpForLevel`, `calculateXpForNextLevel` and `xpProgress` (src/App.jsx:10-16, 148-150) are left out as floating-point numerics.
- Progression.Level: does not model floating-point rounding of `Math.pow` exactly at band boundaries, because the exact-arithmetic meaning is the one the formula is written for.
- `new Date()`, `getDay()`, `toISOString()` and `Date.now()` are parameters: `isWeekend`, `now`, and the fresh id of a custom quest.
- Rank colours and glows, all rendering, the new-quest modal state, and the fetch of `/data/tracker.json` (src/App.jsx:96-109) are left out as UI and I/O. The same goes for the effect that copies its `completedToday`/`penaltiesToday` into the lists (src/App.jsx:127-139), which only runs on fetched data.
- Catalog lookups by inherited object keys are left out: they are a JavaScript prototype artefact. In the source, a `quest` request with `questId` `constructor`, `toString` or `__proto__` passes the check at api/update.js:93 and pushes the id. Its `xp` is then undefined, so line 124 stores NaN, which JSON writes as `null`; the next request reads that as 0, so the stored xp is lost. `penalty` requests behave the same way. In this model such an id names no catalog entry, and the request is rejected.
- Request ids that are not strings are left out: the model's `Request` has string fields, and the once-a-day guarantees (`Update.QuestTwiceAppliesOnce`, the repeat clause of `Update.Decide`) rest on that. In the source, a JSON array id such as `"questId": ["steps"]` passes the check at api/update.js:93, because the property lookup turns it into the key `steps`. The `includes` test at line 94 compares the array by identity and never matches it. So line 95 pushes the array, and the quest's xp is credited again on every such request. `penaltyId` behaves the same way at lines 102-104.
- A `customXp` that is not a number (a string, say) is left out. The model takes an integer, and a missing one is 0.
- The width of JavaScript numbers is left out, because the model's xp is an unbounded integer. In the source, `xp` and `customXp` are IEEE doubles (api/update.js:112, 124). So a fractional `customXp` such as 2.5 is stored as a fractional xp, and sums lose precision past 2^53. A huge `customXp` can also make the xp `Infinity`, which JSON writes as `null`, so the next request reads it as 0.
- The model requires the stored document to have `completedToday`, `penaltiesToday` and `stats`. The source behaves differently when one is missing: a known `quest` throws (a 500 and no write) without `completedToday`, and a known `penalty` does the same without `penaltiesToday`. Without `stats`, a known quest or penalty not yet done today throws at api/update.js:126, while one already done today still gets the usual "already" reply at line 100 or 109, because that reply comes before `stats` is read. A `custom` or `reset` request still succeeds and writes, because neither reads `stats` and `reset` assigns both lists. Such documents are not modelled, because the model's document type always carries the three fields.
- React may call state updaters twice in development mode. That is left out: the model applies each updater once, in call order.
- Update.TrackerDocument.ApplyAction: does not itself state that the invariants are kept, because it is proved equal to `Process`, and `Update.ProcessKeepsWellFormed` states that for `Process`.
- The `stats`/`newday` actions and the `daysTracked`/`questsCompleted` counters do not appear in the modelled code and are not modelled.
