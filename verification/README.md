# HypeOS and DreamPulse, modelled in Dafny

This project models the logic of two features of the DreamScale web app.

**HypeOS** is a daily productivity page. It keeps a list of tasks and mini wins in local storage. It resets completions at a day rollover and validates what it reloads. It counts what was completed today and awards points. A "more tasks" modal asks the generate-tasks endpoint for new tasks, and the endpoint falls back to a fixed catalogue of evergreen tasks. A progress page turns the task records into weekly points, completion rates per impact, a category breakdown and insight lines. Around the page sit a streak tracker, a hype meter, the mini-wins panel, the daily focus card, the navigation bar and the marketplace filters.

**DreamPulse** is a competitor-analysis wizard. It classifies a social-media profile URL by platform and reads the handle out of it. It steps through a ten-step questionnaire and saves and deletes analyses. It splits the Markdown report into sections. The analyze endpoint answers with the model's report or with a fallback report built from the questionnaire.

Every operation is a pure function over immutable datatypes, or a method with loop invariants where the source loops.
- A calendar date is an integer day number. A timestamp is an integer number of milliseconds, and `Items.Day` maps it to its day.
- The current time, the local-storage contents, the presence of the API key and the outcome of each remote call are parameters.
- JavaScript numbers that can become `NaN` or infinite in the progress bars are modelled as `Base.JsNum`.
- The generate-tasks fallback takes its template lists as a `GenerateTasks.Catalogue` parameter: five templates per listed category and three generic ones built from the goal title. The route's own lists are `GenerateTasks.Builtin`. What the fallback does is stated for every catalogue of that shape; what depends on the wording of the templates is stated for `Builtin`.

Modules:
- `Base` and `Strings` hold the shared helpers: counting, filtering and JavaScript's `split`, `join`, `trim`, `includes` and `toLowerCase`.
- `Items` holds the task and mini-win records.
- `DailyLedger` models the daily page.
- `MiniWinsPanel`, `FocusCard`, `MoreTasks`, `StreakTracker`, `HypeMeter` and `Nav` model the components of the same names.
- `Marketplace` models the marketplace page, and `ProgressAnalytics` the progress page.
- `Questionnaire`, `Platform`, `ReportSections` and `Wizard` model the DreamPulse wizard.
- `AnalyzeRoute` and `GenerateTasks` model the two API routes.

Where the code and its documentation disagree, the model follows the code:
- **Analyze route, errors without a message.** The analyze route is documented as answering every model failure with the fallback report. But its error handler calls `error.message.includes`, so an error without a message makes the handler throw, and the route answers 500 (`AnalyzeRoute.Analyze`).
- **Generated tasks without an impact.** A generated task that omits its impact is labelled "medium" but scored 100 points. The points default tests the impact as written, before the label default is applied (`GenerateTasks.BareTask`).
- **The Twitter test.** The test for a Twitter URL is a substring search for `x.com`, which also matches hosts such as `netflix.com`. The model keeps the substring test (`Platform.DetectPlatform`).

## Model

| member | source | states |
|---|---|---|
| Items.Uncomplete | app/hypeos/daily/page.tsx:119-121 | the reset item is open with no timestamp and agrees with the original on every other field |
| DailyLedger.CleanupItem | app/hypeos/daily/page.tsx:117-129 | after the mount-time cleanup an item is completed only if completed today; an open or today-completed item is unchanged, any other is reset |
| DailyLedger.LoadResetItem | app/hypeos/daily/page.tsx:183-197 | the load-time reset, written timestamp-first, has the same three properties as the cleanup |
| DailyLedger.NormaliseIdempotent | app/hypeos/daily/page.tsx:183-197 | the cleanup and the load-time reset are the same map, and applying it twice equals applying it once |
| DailyLedger.Cleanup | app/hypeos/daily/page.tsx:110-166 | only a stored array dated today is rewritten, element by element, by the cleanup; any other slot is untouched |
| DailyLedger.Load | app/hypeos/daily/page.tsx:172-276 | the case table of loading one list: same-day accepted arrays are shown normalised; other-day arrays are shown uncompleted and stored back under today; invalid or unparsable same-day tasks remove both keys; nothing else changes |
| DailyLedger.Mount | app/hypeos/daily/page.tsx:278-300 | points and streak come from storage when they parse, else default to 2450 and 12 |
| DailyLedger.LoadShowsNoStaleCompletion | app/hypeos/daily/page.tsx:172-276 | every list shown by a load has no item completed on another day |
| DailyLedger.MountShowsNoStaleCompletion | app/hypeos/daily/page.tsx:103-306 | after mount no task or mini win is completed unless its timestamp falls on today |
| DailyLedger.MountAfterRollover | app/hypeos/daily/page.tsx:210-225 | on a new day every stored task comes back open with all other fields kept, and storage is re-dated today |
| DailyLedger.MountValidatesSameDayTasks | app/hypeos/daily/page.tsx:176-203 | a same-day array is shown exactly when every element has a numeric id and string title; otherwise the mock list stays and the task keys are removed |
| DailyLedger.FindById | app/hypeos/daily/page.tsx:398 | the index found is the first with the id; none means no element has it |
| DailyLedger.CompleteTask | app/hypeos/daily/page.tsx:396-448 | an unknown id changes nothing; otherwise every task with the id is completed at now, all others are unchanged, and the points grow by the found task's points |
| DailyLedger.CompleteMiniWin | app/hypeos/daily/page.tsx:450-486 | the list is mapped even for an unknown id (then unchanged) and points grow only for a known id |
| DailyLedger.CompletingCountsToday | app/hypeos/daily/page.tsx:404-410 | a task completed now counts as completed today |
| DailyLedger.MaxId | app/hypeos/daily/page.tsx:495 | the result is an id of the list and no id exceeds it; 0 for an empty list |
| DailyLedger.AddMoreTasks | app/hypeos/daily/page.tsx:493-506 | old tasks stay as a prefix; new tasks follow open, with ids maxId+1, maxId+2, ... that are fresh and increasing |
| DailyLedger.CompletedToday | app/hypeos/daily/page.tsx:528-538 | the count is at most the length and is zero exactly when no item was completed today |
| DailyLedger.CompletionRate | app/hypeos/daily/page.tsx:540-541 | the rate lies in 0..100, is 0 for no tasks, and is 100 exactly when every task was completed today |
| DailyLedger.CompletionMessage | app/hypeos/daily/page.tsx:603-612 | an encouragement is shown exactly when the rate is below 100, and it is the "amazing" text from 75, the "solid progress" text from 50 and the "every task" text below that |
| DailyLedger.NextTask | app/hypeos/daily/page.tsx:617-625 | the first task that is still to do, or none when every task is done |
| DailyLedger.OpenMeansNotDoneToday | app/hypeos/daily/page.tsx:617-625 | an open task is never counted done today; on normalised items "open" is exactly "not completed today" |
| MiniWinsPanel.CompletedCount | components/hypeos/mini-wins.tsx:61-72 | counts exactly the wins clicked this visit or completed today, and is zero exactly when there are none |
| MiniWinsPanel.TotalPoints | components/hypeos/mini-wins.tsx:74-83 | no counted win gives 0 points; with non-negative points the total lies between 0 and the sum of all points |
| MiniWinsPanel.TotalPointsOfCounted | components/hypeos/mini-wins.tsx:74-83 | the reduce adds the points of exactly the wins that count as done |
| MiniWinsPanel.Rate | components/hypeos/mini-wins.tsx:86 | 0 without wins, within 0..100, and 100 exactly when all wins count |
| MiniWinsPanel.Message | components/hypeos/mini-wins.tsx:85-92 | the message is the tier of the rate against 100, 75, 50, 25; no wins give the default |
| MiniWinsPanel.Click | components/hypeos/mini-wins.tsx:37-44 | a counted win ignores the click; otherwise its id is appended and reported; afterwards the win counts |
| MiniWinsPanel.ClickNeverUncounts | components/hypeos/mini-wins.tsx:114-119 | a click never makes a counted win open again |
| FocusCard.IsCompleted | components/hypeos/daily-focus-card.tsx:146-149 | a task counts as completed only if marked completed or clicked this visit, and always once clicked |
| FocusCard.CheckboxClick | components/hypeos/daily-focus-card.tsx:171 | a completed or skipped task ignores the click; otherwise the id is recorded and reported, and the task is then completed |
| FocusCard.CompleteButton | components/hypeos/daily-focus-card.tsx:252-260 | the button, shown for open tasks, reports the id and leaves the task completed, skips untouched |
| FocusCard.Skip | components/hypeos/daily-focus-card.tsx:60-63 | the id is reported and the task becomes skipped and offers no action; completions untouched |
| FocusCard.ClosedStaysClosed | components/hypeos/daily-focus-card.tsx:146-171 | a completed or skipped task's checkbox does nothing |
| FocusCard.Completion | components/hypeos/daily-focus-card.tsx:85-97 | the card's count and rate equal the daily page's counters |
| FocusCard.CountSame | components/hypeos/daily-focus-card.tsx:86-95 | the card's filter counts the same tasks as the page's filter |
| FocusCard.Message | components/hypeos/daily-focus-card.tsx:99-106 | the message is the tier of the rate against 100, 80, 60, 40, 20 |
| FocusCard.ToggleExpanded | components/hypeos/daily-focus-card.tsx:219-228 | flips membership of this id only and touches nothing else |
| FocusCard.DisplayedPoints | components/hypeos/daily-focus-card.tsx:205 | with a streak below 3 the label is the points; from 3 on it is 1.5 times the points rounded half up |
| MoreTasks.TakeResponse | components/hypeos/more-tasks-modal.tsx:69-76 | a successful answer with tasks replaces the generated list; anything else leaves it |
| MoreTasks.NoRegeneration | components/hypeos/more-tasks-modal.tsx:44-48 | once tasks were generated, reopening does not ask again |
| MoreTasks.ToggleSelection | components/hypeos/more-tasks-modal.tsx:84-92 | flips membership of this id only |
| MoreTasks.AddSelected | components/hypeos/more-tasks-modal.tsx:94-101 | hands over the selected generated tasks in order, every one of them and as many as are selected, and closes; with none selected nothing happens |
| MoreTasks.AddAll | components/hypeos/more-tasks-modal.tsx:103-107 | hands over every generated task, clears the selection and closes |
| StreakTracker.StreakLevel | components/hypeos/streak-tracker.tsx:47-56 | the level is the tier of the streak against 100, 50, 30, 21, 14, 7, 3 |
| StreakTracker.StreakLevelMonotone | components/hypeos/streak-tracker.tsx:47-56 | a longer streak never sits on a lower rung |
| StreakTracker.StreakProgress | components/hypeos/streak-tracker.tsx:59 | NaN only for 0/0; never above 100; exactly 100 at or past the goal; the plain ratio below it |
| StreakTracker.NextMilestone | components/hypeos/streak-tracker.tsx:61-64 | the least milestone above the streak; none from 100 on |
| StreakTracker.MoreIsPositive | components/hypeos/streak-tracker.tsx:106 | the "(n more)" hint is positive |
| StreakTracker.Celebration | components/hypeos/streak-tracker.tsx:38-42 | fires exactly on positive multiples of 7, with the "n day streak!" text |
| StreakTracker.CelebrationEveryWeek | components/hypeos/streak-tracker.tsx:38 | every 7k fires and no day strictly between does |
| StreakTracker.Cells | components/hypeos/streak-tracker.tsx:131-144 | seven cells; cell i is lit exactly when the streak exceeds 6-i; the last two read T and Y |
| StreakTracker.ActiveCells | components/hypeos/streak-tracker.tsx:131-134 | exactly min(streak, 7) cells are lit, forming a suffix |
| HypeMeter.GetLevelInfo | components/hypeos/hype-meter.tsx:40-55 | levels 1..10 get their table entry; every other level gets level 1's |
| HypeMeter.NextLevelIncreasing | components/hypeos/hype-meter.tsx:41-53 | the thresholds strictly increase with the level |
| HypeMeter.LevelStart | components/hypeos/hype-meter.tsx:59 | level 1 starts at 0, any other at the previous level's threshold, below its own |
| HypeMeter.NextLevelProgress | components/hypeos/hype-meter.tsx:57-62 | for levels 1..10 the bar is a number in 0..100, 0 at the band start and 100 from the threshold on |
| HypeMeter.Clamp | components/hypeos/hype-meter.tsx:61 | NaN stays NaN, infinities clamp to the bounds, finite values clamp into 0..100 |
| HypeMeter.ProgressInsideBand | components/hypeos/hype-meter.tsx:60 | inside the band the bar is the exact fraction covered |
| HypeMeter.LevelZeroCanBeNaN | components/hypeos/hype-meter.tsx:54-61 | level 0 borrows level 1's threshold and yields NaN at 100 points |
| Nav.IsActive | components/horizontal-nav.tsx:141 | an item is active only on paths starting with its href, and on every such path unless it is home |
| Nav.ActiveRule | components/horizontal-nav.tsx:141 | home is active only on "/"; any other item exactly on paths starting with its href |
| Nav.PrefixIsNotSegmentAware | components/horizontal-nav.tsx:141 | the prefix test also activates "/hypeos" on "/hypeosx" |
| Nav.IconColor | components/horizontal-nav.tsx:22-37 | unlisted labels get the default blue; grey exactly for Settings |
| Nav.ShowsBadge | components/horizontal-nav.tsx:102-113 | only the six feature labels can show a badge; with the notification store modelled as a set of unseen features, a badge shows exactly when its feature is in it |
| Nav.NavClick | components/horizontal-nav.tsx:115-124 | with the notification store modelled as a set of unseen features, the click removes the label's feature from it and nothing else; other labels change nothing |
| Nav.ClickClearsOwnBadge | components/horizontal-nav.tsx:102-124 | under the same set model, clicking clears the item's own badge and leaves the badges of other features |
| Nav.SavedCount | components/horizontal-nav.tsx:66-79 | the count is the stored array's length and 0 for anything else |
| Marketplace.AllOpportunities | app/marketplace/page.tsx:50-58 | live jobs come first when switched on and present, else after the mock list; nothing is lost |
| Marketplace.Keep | app/marketplace/page.tsx:61-107 | an opportunity is kept only when it passes the search, category, remote, paid, mood and deadline tests |
| Marketplace.KeepIsConjunction | app/marketplace/page.tsx:61-107 | the early-return chain keeps an opportunity exactly when it passes every filter |
| Marketplace.Filtered | app/marketplace/page.tsx:60-109 | the result is an ordered subsequence of kept opportunities, holds every kept one and is as long as the count of kept ones; by `Base.FilterUnique` only one list has these properties |
| Base.FilterUnique | app/marketplace/page.tsx:60-109 | an ordered subsequence of passing elements that is as long as the count of passing elements is the filter's result |
| Marketplace.NoFiltersKeepsAll | app/marketplace/page.tsx:60-109 | with all filters on "All" and no search nothing is removed |
| Marketplace.SearchOnly | app/marketplace/page.tsx:63-67 | with only a search, an opportunity stays exactly when title, description or company contains it |
| Marketplace.ComplementaryFilters | app/marketplace/page.tsx:75-91 | Remote and Local split the opportunities, as do Paid and Unpaid; Prize tests the payout text |
| Marketplace.Apply | app/marketplace/page.tsx:111-119 | the id is recorded once; a known id changes nothing; no duplicates appear |
| Marketplace.ApplyIdempotent | app/marketplace/page.tsx:111-119 | applying twice equals applying once |
| Marketplace.Save | app/marketplace/page.tsx:121-127 | flips whether the id is saved; every other id keeps its status |
| Marketplace.SaveTwice | app/marketplace/page.tsx:121-127 | saving twice restores every membership |
| ProgressAnalytics.WeeklyBuckets | app/hypeos/progress/page.tsx:160-175 | each bucket holds exactly the points of the completed tasks filed under it |
| ProgressAnalytics.WeeklyPoints | app/hypeos/progress/page.tsx:154-175 | bucket k sums the completed tasks whose floor-day distance from midnight today is 6-k |
| ProgressAnalytics.AfterMidnightIgnored | app/hypeos/progress/page.tsx:166-167 | a completion after today's midnight is filed in no bucket |
| ProgressAnalytics.TodayExcludedExample | app/hypeos/progress/page.tsx:166-168 | a task completed this morning contributes nothing to the week |
| ProgressAnalytics.WeeklyPointsByDay | app/hypeos/progress/page.tsx:378-386 | bucket k sums the completed tasks of the calendar day 6-k days ago |
| ProgressAnalytics.ByDayBucketIsCalendarDay | app/hypeos/progress/page.tsx:382-386 | by calendar day, bucket 6 is exactly today's completions |
| ProgressAnalytics.ImpactRate | app/hypeos/progress/page.tsx:177-189 | a rounded percentage of completed among the tasks of that impact, in 0..100, 0 when there are none |
| ProgressAnalytics.AllDoneIsHundred | app/hypeos/progress/page.tsx:185-189 | when every task of an impact is completed the rate is 100 |
| ProgressAnalytics.Upsert | app/hypeos/progress/page.tsx:196 | the map update adds the category to the keys and the points to the total; the category's lookup gains the points and every other category's is unchanged |
| ProgressAnalytics.PointsForEntry | app/hypeos/progress/page.tsx:196 | with distinct keys, `map.get` of an entry's category returns that entry's points |
| ProgressAnalytics.UpsertAppends | app/hypeos/progress/page.tsx:196 | a category not yet in the map is appended at the end with its points |
| ProgressAnalytics.UpsertUpdates | app/hypeos/progress/page.tsx:196 | a category already in the map keeps its place, and its entry gains the points |
| ProgressAnalytics.UpsertDistinct | app/hypeos/progress/page.tsx:192-197 | the map keeps one entry per category |
| ProgressAnalytics.Accumulate | app/hypeos/progress/page.tsx:193-197 | the keys are the completed tasks' categories and the total is their points; each category's entry gains exactly the points of the completed tasks filed under it |
| ProgressAnalytics.SortDesc | app/hypeos/progress/page.tsx:204 | the sort is a permutation keeping the total |
| ProgressAnalytics.SortDescSorted | app/hypeos/progress/page.tsx:204 | the sorted rows have non-increasing points |
| ProgressAnalytics.SortKeepsKeys | app/hypeos/progress/page.tsx:204 | the sort keeps the categories and their distinctness |
| ProgressAnalytics.Shares | app/hypeos/progress/page.tsx:200-203 | each row keeps category and points, with a rounded percentage of the total (0 for a zero total) |
| ProgressAnalytics.CategoryBreakdown | app/hypeos/progress/page.tsx:192-204 | one row per distinct category of the completed tasks, most points first; a row's points are the points of its category's completed tasks, and its percentage is their rounded share of all completed points (0 when that is 0) |
| ProgressAnalytics.BreakdownTotal | app/hypeos/progress/page.tsx:199 | the rows' points add up to the completed tasks' points |
| ProgressAnalytics.Insights | app/hypeos/progress/page.tsx:207-240 | never empty; only the start line without completions; the "active today" line exactly when something is done and bucket 0 is positive |
| ProgressAnalytics.ActiveTodayExample | app/hypeos/progress/page.tsx:223-225 | a task finished seven days ago, with nothing done today, yields the "active today" line |
| ProgressAnalytics.ActiveTodayByDayMeansToday | app/hypeos/progress/page.tsx:223-225 | on calendar-day bucket 6 the line is backed by a task completed today with points |
| ProgressAnalytics.CalculateAnalytics | app/hypeos/progress/page.tsx:140-243 | no user gives the zero record; otherwise seven buckets, rates in 0..100 and at least one insight |
| ProgressAnalytics.MotivationalMessage | app/hypeos/progress/page.tsx:245-252 | the message is the tier of the progress against 90, 80, 70, 60, 50 |
| ProgressAnalytics.StreakLevel | app/hypeos/progress/page.tsx:254-261 | the level is the tier of the streak against 30, 21, 14, 7, 3 |
| Questionnaire.Put | components/dreampulse/DreamPulseWizard.tsx:626-631 | setting one list answer changes that answer only |
| Platform.SecondPiece | components/dreampulse/DreamPulseWizard.tsx:216 | split(sep)[1] is undefined exactly when the separator is absent |
| Platform.Handle | components/dreampulse/DreamPulseWizard.tsx:216 | the handle is a prefix of the piece with no '/' or '?' |
| Platform.DetectPlatform | components/dreampulse/DreamPulseWizard.tsx:204-252 | the platform is decided by the first matching test on the lower-cased URL; handles have no '/' or '?'; unknown URLs and TikTok URLs without "/@" have no handle |
| Platform.PlatformIgnoresCase | components/dreampulse/DreamPulseWizard.tsx:208 | the platform does not depend on letter case |
| Platform.HandleAfterAt | components/dreampulse/DreamPulseWizard.tsx:216 | in a URL prefix/@name followed by a '/' or '?' led rest, the handle read is exactly name |
| Platform.YouTubeHandle | components/dreampulse/DreamPulseWizard.tsx:211-223 | a YouTube "/@name" URL yields YouTube with that handle |
| Platform.TikTokHandle | components/dreampulse/DreamPulseWizard.tsx:241-249 | a TikTok "/@name" URL yields TikTok with that handle |
| ReportSections.ParseAnalysisResult | components/dreampulse/DreamPulseWizard.tsx:143-181 | every section has a non-empty title |
| ReportSections.ParseLoop | components/dreampulse/DreamPulseWizard.tsx:143-181 | the loop with mutable state computes the recursive splitter |
| ReportSections.BodyLines | components/dreampulse/DreamPulseWizard.tsx:150-154 | the loop starts after the first line exactly when it is a "# " title line |
| ReportSections.Go | components/dreampulse/DreamPulseWizard.tsx:156-179 | the loop emits at most one section per remaining line plus the open one |
| ReportSections.GoTitles | components/dreampulse/DreamPulseWizard.tsx:156-179 | the sections are titled, in order, by the non-empty heading texts |
| ReportSections.ParseTitles | components/dreampulse/DreamPulseWizard.tsx:143-181 | the titles of the parse are the non-empty heading texts of the body lines |
| ReportSections.PreambleIgnored | components/dreampulse/DreamPulseWizard.tsx:156-167 | lines before the first heading never reach a section |
| ReportSections.SectionBlock | components/dreampulse/DreamPulseWizard.tsx:156-167 | a heading and the heading-free lines up to the next heading form one section with that trimmed content |
| ReportSections.ReadReport | components/dreampulse/DreamPulseWizard.tsx:143-181 | a title line, a blank line and rendered parts whose bodies may hold line breaks read back as one section per part, as long as no body line is a heading |
| ReportSections.ParseRender | components/dreampulse/DreamPulseWizard.tsx:156-179 | rendered well-formed parts read back as one section per part |
| Wizard.Classify | components/dreampulse/DreamPulseWizard.tsx:474-551 | unknown URLs fail with quality 0; success exactly for a YouTube handle with a found profile; other detected platforms get quality 30; the success message names the platform, handle and the follower text the lookup supplies; the blocked outcome never occurs, as the lookup catches its own errors |
| Wizard.UrlSubmit | components/dreampulse/DreamPulseWizard.tsx:471-473 | a blank URL does nothing; any other is classified |
| Wizard.LookupOnlyForYouTube | components/dreampulse/DreamPulseWizard.tsx:493-500 | without a YouTube handle the lookup outcome does not matter |
| Wizard.OtherPlatformsNotScraped | components/dreampulse/DreamPulseWizard.tsx:518-538 | Instagram, Twitter and TikTok handles are reported and never scraped |
| Wizard.Next | components/dreampulse/DreamPulseWizard.tsx:554-562 | advances below step 10, and submits the URL when leaving step 1 with a URL and no result |
| Wizard.Back | components/dreampulse/DreamPulseWizard.tsx:564-568 | goes back above step 1, else stays |
| Wizard.StepsStayInRange | components/dreampulse/DreamPulseWizard.tsx:554-568 | both buttons keep the step in 1..10 and move it by at most one |
| Wizard.NextBackInverse | components/dreampulse/DreamPulseWizard.tsx:554-568 | away from the ends back undoes next and next undoes back |
| Wizard.ToggleArrayItem | components/dreampulse/DreamPulseWizard.tsx:625-632 | flips membership of the value in that answer only |
| Wizard.ToggleArrayItemTwice | components/dreampulse/DreamPulseWizard.tsx:625-632 | toggling twice restores every membership |
| Wizard.SaveAnalysis | components/dreampulse/DreamPulseWizard.tsx:387-444 | refused exactly without a report or URL; otherwise a new entry stamped now goes in front of the unchanged list |
| Wizard.DeleteAnalysis | components/dreampulse/DreamPulseWizard.tsx:446-459 | keeps, in order, every entry without the id and as many entries as have another id; deselects a selected one |
| Wizard.SaveThenDelete | components/dreampulse/DreamPulseWizard.tsx:387-459 | deleting a just-saved analysis restores the list when its id was fresh |
| AnalyzeRoute.FallbackAnalysis | app/api/dreampulse/analyze/route.ts:345-383 | the report opens with the title line, a blank line and the Executive Summary heading |
| AnalyzeRoute.Parts | app/api/dreampulse/analyze/route.ts:345-383 | the fallback report has four parts under the four fixed headings |
| AnalyzeRoute.Analyze | app/api/dreampulse/analyze/route.ts:23-71 | unreadable body 500; missing URL or niche 400; no key the fallback with a warning; the model's text; the fallback for an error with a message; 500 for one without |
| AnalyzeRoute.ValidRequestsGetAReport | app/api/dreampulse/analyze/route.ts:38-71 | a valid request fails only on a message-less error; every other non-model answer is the fallback report, with a warning exactly without a key |
| AnalyzeRoute.FallbackSections | app/api/dreampulse/analyze/route.ts:345-383 | the wizard's splitter reads the fallback report as exactly its four sections with their blocks, multi-line weaknesses included, as long as no later weaknesses line is a "## " heading |
| AnalyzeRoute.WeaknessHeadingOpensSection | app/api/dreampulse/analyze/route.ts:357 | a later weaknesses line that is a titled "## " heading, printed unbulleted in Key Details, makes the splitter find more than four sections |
| AnalyzeRoute.FallbackTitle | app/api/dreampulse/analyze/route.ts:346 | the report opens with the title line naming the URL |
| AnalyzeRoute.RecommendationChoice | app/api/dreampulse/analyze/route.ts:375-383 | seven recommendation lines; the first two ask to improve video quality or editing exactly when that rating is below 4 |
| GenerateTasks.StripFences | app/api/hypeos/generate-tasks/route.ts:77-82 | text that does not open with a fence is only trimmed |
| GenerateTasks.RemoveMarker | app/api/hypeos/generate-tasks/route.ts:79-81 | removing markers never lengthens the text |
| GenerateTasks.RemoveMarkerAbsent | app/api/hypeos/generate-tasks/route.ts:79-81 | text in which the marker does not occur is left alone |
| GenerateTasks.RemoveMarkerNoTick | app/api/hypeos/generate-tasks/route.ts:79-81 | the fence replace leaves backtick-free text alone |
| GenerateTasks.FencedJson | app/api/hypeos/generate-tasks/route.ts:77-82 | a json-fenced answer comes out as the JSON and its newline |
| GenerateTasks.NoFenceLeft | app/api/hypeos/generate-tasks/route.ts:81 | the global replace leaves no fence behind |
| GenerateTasks.FencesGone | app/api/hypeos/generate-tasks/route.ts:77-82 | a fenced answer comes out with no fence |
| GenerateTasks.TextOr | app/api/hypeos/generate-tasks/route.ts:93-98 | a missing or empty text gets the default, any other is kept |
| GenerateTasks.DefaultPoints | app/api/hypeos/generate-tasks/route.ts:95 | 300 for high, 200 for medium, 100 otherwise |
| GenerateTasks.Validate | app/api/hypeos/generate-tasks/route.ts:92-102 | a fresh open task with id now+index, non-empty texts, written points kept and missing or zero points defaulted by impact (300 high, 200 medium, 100 otherwise); every text written non-empty is kept, a missing title is "Task " and the 1-based index, a missing impact "medium", a missing time "30 min", a missing category the requested one, missing steps empty |
| GenerateTasks.ValidateTasks | app/api/hypeos/generate-tasks/route.ts:92 | at most ten tasks, entry i validated with index i |
| GenerateTasks.ValidateKeepsWritten | app/api/hypeos/generate-tasks/route.ts:92-102 | a fully written task comes back as written, with only id and completion set |
| GenerateTasks.BareTask | app/api/hypeos/generate-tasks/route.ts:92-102 | a bare task is "Task n", impact medium, yet scored 100 |
| GenerateTasks.Templates | app/api/hypeos/generate-tasks/route.ts:495 | the five listed categories get their five templates from the catalogue; any other gets the generic three |
| GenerateTasks.BuiltinGeneric | app/api/hypeos/generate-tasks/route.ts:495-539 | the route's own catalogue uses the generic list named after the goal |
| GenerateTasks.Generic | app/api/hypeos/generate-tasks/route.ts:495-539 | three templates, the first named after the goal |
| GenerateTasks.Cycle | app/api/hypeos/generate-tasks/route.ts:541-549 | entry i is template i mod n with id now+i+1 |
| GenerateTasks.FallbackTasks | app/api/hypeos/generate-tasks/route.ts:129-552 | ten open tasks with ids now+1 to now+10 |
| GenerateTasks.FallbackShape | app/api/hypeos/generate-tasks/route.ts:541-549 | all ten in the requested category, entry i titled and scored as template i mod n |
| GenerateTasks.FallbackRepeatsKnown | app/api/hypeos/generate-tasks/route.ts:541-549 | a listed category repeats its five templates, differing only in id |
| GenerateTasks.FallbackGeneric | app/api/hypeos/generate-tasks/route.ts:495-549 | other categories start with the first generic template, and entry i+3 repeats entry i except for its id |
| GenerateTasks.BuildFallback | app/api/hypeos/generate-tasks/route.ts:541-552 | the loop builds entry i from template i mod n with id now+i+1 |
| GenerateTasks.Answer | app/api/hypeos/generate-tasks/route.ts:17-115 | a readable request always succeeds with one to ten open tasks |
| GenerateTasks.AnswerUsesModel | app/api/hypeos/generate-tasks/route.ts:17-115 | the model's tasks are used exactly with a key, an answer and a non-empty parsed array; otherwise the fallback |
| GenerateTasks.GenerateTasks | app/api/hypeos/generate-tasks/route.ts:12-126 | as written: a server error exactly for an unreadable body |
| GenerateTasks.UnreadableBodyFails | app/api/hypeos/generate-tasks/route.ts:116-125 | an unreadable body never gets the intended fallback list |
| GenerateTasks.GenerateTasksIntended | app/api/hypeos/generate-tasks/route.ts:116-125 | corrected: every request gets tasks, success exactly when readable |
| GenerateTasks.IntendedAlwaysAnswers | app/api/hypeos/generate-tasks/route.ts:116-125 | corrected: readable requests agree with the route; an unreadable one gets the general list for "your goal" |

## Left out

- Local storage, `fetch`, the Gemini and YouTube calls, timers, events and console logging. Their results are parameters: stored values, the key flag, model replies and lookup outcomes.
- The quota-exceeded retry of the storage write effects (app/hypeos/daily/page.tsx:309-394). These are persistence side effects with no returned value.
- The prompt texts sent to the model, `formatNumber`, `formatContentForReadability` and `preFillData` of the wizard. They are presentation only.
- The progress page's loading of the user and tasks from the session (app/hypeos/progress/page.tsx:63-138). This is storage plumbing; the tasks and user are inputs of `ProgressAnalytics.CalculateAnalytics`.
- The components that only read the ledger: review-queue-card, daily-goal-card, daily-quests, squads, and the landing and DreamPulse pages.
- `toLowerCase` is modelled for ASCII letters only. JavaScript lower-cases all of Unicode.
- Stored and generated JSON is modelled with typed fields. Null elements, wrong field types and array fields that are absent are not modelled; in the source these throw or are coerced.
- A date string is an integer day and a timestamp an integer of milliseconds. Invalid date strings and time zones are not modelled.
- Star ratings are whole numbers.
- Category keys that collide with object prototype names, such as "toString", are not modelled in the template lookup.
- `Date.now()` is one reading `now` per request. The source may read the clock several times.
- Percentages use `Math.round` on exact rationals, not on floating point.
- StreakTracker.StreakLevel and ProgressAnalytics.StreakLevel: the icons are not modelled. Only names and colours are.
- AnalyzeRoute.FallbackSections and AnalyzeRoute.RecommendationChoice: both assume that the URL, niche, posting frequency, unique style and advantage are single lines, that no later weaknesses line is a "## " heading, and that the advantage is not a heading itself. A multi-line answer other than the weaknesses is printed unbulleted too, so one of its lines that is a heading opens a section, as `AnalyzeRoute.WeaknessHeadingOpensSection` shows for the weaknesses.
- Wizard.Classify: the error branch of the URL handler (components/dreampulse/DreamPulseWizard.tsx:541-551) is not reachable, because the YouTube lookup catches every error itself and returns nothing (lines 267 and 321-324). The model has no thrown lookup, and the follower count is the text the lookup supplies; `formatNumber` is not modelled.
- Nav.NavClick, Nav.ShowsBadge and Nav.ClickClearsOwnBadge: `hasUnseenUpdates` and `markFeatureAsSeen` come from lib/notifications, which is not part of this model. The model takes their store to be a set of unseen feature keys, with the first as membership and the second as removal. That marking one feature seen leaves the others unseen follows from this choice, not from code the model covers.
- GenerateTasks.StripFences: its contract states only the unfenced case. The fenced cases are stated by `GenerateTasks.FencedJson` and `GenerateTasks.FencesGone`, not for arbitrary text.
- ReportSections.ParseAnalysisResult: its own contract states only non-empty titles. The content is characterised by `ReportSections.GoTitles`, `ReportSections.SectionBlock` and `ReportSections.ParseRender`.

## Findings

| source | as written | input that shows it | evidently intended | confidence | as-written member | corrected member |
|---|---|---|---|---|---|---|
| app/hypeos/progress/page.tsx:166-169 | days are counted back from midnight today with a floor, so a completion stamped today has a negative age and is dropped, and bucket 6 holds yesterday | a task completed at 10:00 today: `daysAgo` is -1 and the week is all zeros | bucket 6 is today, as the chart labels at lines 382-386 assume | high, not executed | ProgressAnalytics.TodayExcludedExample | ProgressAnalytics.ByDayBucketIsCalendarDay |
| app/hypeos/progress/page.tsx:223 | the "active today" insight tests `weeklyPoints[0]`, the bucket of six days ago | one task completed just before midnight seven days back, nothing today: the line appears | test today's bucket | high, not executed | ProgressAnalytics.ActiveTodayExample | ProgressAnalytics.ActiveTodayByDayMeansToday |
| app/api/hypeos/generate-tasks/route.ts:116-125 | the outer handler's reply uses `body`, which is declared inside the `try` block, so reading it throws and the route fails without its JSON reply | a request whose body is not JSON | answer `success: false` with the general fallback list for "your goal" | medium, not executed | GenerateTasks.UnreadableBodyFails | GenerateTasks.IntendedAlwaysAnswers |
