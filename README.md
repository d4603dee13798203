# VoltView in Dafny

VoltView is a small power-monitoring demo. An ESP32 posts current readings to an Express
backend, which stores them in SQLite and serves them back over a JSON API. Several browser pages
show them:
- a live dashboard and the main dashboard;
- an analytics page, in a plain-script version and a React version;
- an alerts page;
- a reports page.

A seed script fills in sample alerts and reports.

This project models the rules that decide what data is shown and how it is grouped, and proves
what those rules promise:
- **Backend decisions** (`Server`):
  - `/api/history` parameter normalisation and paging;
  - the `/api/latest` reply;
  - `/api/analytics` date grouping;
  - validation outcomes of `/api/esp32` and `/api/login`.
- **Grouping and aggregation:**
  - the React page's date grouping, key order, date selection and summary (`ReadingsReport`);
  - hourly bucketing with per-hour mean power, and the one-time chart initialisation of the
    analytics page (`HourlyAnalytics`).
- **Bounded display buffers** (`Display`): the ten-entry recent-readings list and the 60-point
  chart window shared by the two dashboards.
- **The dashboards themselves:**
  - `Dashboard`: load score, status colour and fetch transitions;
  - `LiveDashboard`: the charts, the quick-search filter and the keyboard focus cycling.
- **Row derivation on the alerts and reports pages** (`AlertsPage`, `ReportsPage`):
  - the type badge and the active-alert filter;
  - the status colour, the download URL and the base-URL default.
- **The seed tables** (`SeedData`): the alert table, and the 14-day report classification loop.

Shared modules:
- `Wrappers`: `Option`, `Min`, `Max`.
- `Seqs`: filter, count and subsequence.
- `Strings`: JavaScript's `trim`, `toLowerCase`, `includes`, `replace` of a string, `parseInt`,
  and code-point sort.
- `Readings`: the reading row.
- `Grouping`: the `forEach`/`push` dictionary grouping used by the server and the React page,
  with its partition lemmas.

How JavaScript and the environment are represented:
- **Reading fields.** A numeric field that may be missing is modelled as
  `Field = Absent | Null | Num(real)`.
  - `|| 0` is `OrZero`.
  - `!== undefined` is `Defined`.
  - The store is a sequence of rows in ascending id order.
- **Replies.**
  - An HTTP reply is `Ok`, `Error(status, message)` or `Crash` (the process throws before it
    replies).
  - A `fetch` result is an abstract outcome: ok, not ok, or an exception.
- **Parameters the model cannot compute.** These become function parameters:
  - the clock, the host time zone (`getHours`, the date strings), `Math.random`;
  - bcrypt's `compare`;
  - whether a database call fails;
  - which canvases the page holds.

## Model

| member | source | states |
|---|---|---|
| Server.LimitOf | VoltViewDemo/voltview-backend/server.js:77-80 | the page size is always in [1, 5000]; a positive parsed value is capped at 5000; a missing, non-numeric, zero or negative one becomes 100 |
| Server.OffsetOf | VoltViewDemo/voltview-backend/server.js:81-82 | the offset is never negative; a non-negative parsed value is kept; a missing, non-numeric or negative one becomes 0 |
| Server.NormaliseLimit | VoltViewDemo/voltview-backend/server.js:78-80 | the three reassignments of `limit`, step by step, give the value in [1, 5000] that `LimitOf` describes |
| Server.NormaliseOffset | VoltViewDemo/voltview-backend/server.js:81-82 | the two reassignments of `offset` give the non-negative value `OffsetOf` describes |
| Server.LimitRoundTrip | VoltViewDemo/voltview-backend/server.js:77-80 | a limit in [1, 5000] written as a decimal query string is read back as itself |
| Server.OffsetRoundTrip | VoltViewDemo/voltview-backend/server.js:81-82 | any offset written as a decimal query string is read back as itself |
| Server.NewestFirst | VoltViewDemo/voltview-backend/server.js:84-86 | the `ORDER BY id DESC LIMIT OFFSET` query returns at most `limit` rows |
| Server.Page | VoltViewDemo/voltview-backend/server.js:84-89 | the page skips the `offset` newest rows and holds the `min(limit, remaining)` rows before them; it is a contiguous run of the store in ascending id order |
| Server.ReversedQueryIsPage | VoltViewDemo/voltview-backend/server.js:84-89 | reversing the newest-first query result gives exactly that page, oldest to newest |
| Server.AdjacentPages | VoltViewDemo/voltview-backend/server.js:84-89 | the page at a larger offset followed by the page just newer than it is one longer page |
| Server.PagesTile | VoltViewDemo/voltview-backend/server.js:84-89 | pages of size `limit` at offsets 0, limit, 2·limit, … join into the one page of the `count · limit` newest rows, without gaps or repeats |
| Server.PagesCoverStore | VoltViewDemo/voltview-backend/server.js:84-89 | once the pages together are at least as long as the store, they give back the whole store |
| Server.History | VoltViewDemo/voltview-backend/server.js:66-92 | a database failure gives 500 "DB error"; `all=true` gives every row in id order with no paging; otherwise the page for the normalised limit and offset |
| Server.Latest | VoltViewDemo/voltview-backend/server.js:53-63 | 500 on a database failure; 404 "No data yet" on an empty store; otherwise a stored reading whose id is the maximum |
| Server.Analytics | VoltViewDemo/voltview-backend/server.js:96-112 | 500 on a database failure; no reply when a timestamp is NULL; otherwise the dates in first-appearance order, each mapped to its readings |
| Server.AnalyticsPartition | VoltViewDemo/voltview-backend/server.js:103-108 | for any store, each reading sits in its own date's group as often as in the input and in no other group, and the group sizes sum to the row count |
| Server.AnalyticsGroupOrder | VoltViewDemo/voltview-backend/server.js:103-108 | two readings of one date keep their timestamp order inside that date's group |
| Server.ReadingStore.PostEsp32 | VoltViewDemo/voltview-backend/server.js:14-50 | a missing `current` gives 400 and inserts nothing; a failed insert gives 500 and inserts nothing; otherwise exactly one row is appended with the next id and power `voltage·current/1000`, and the reply is that row with only its id, voltage, current, power and timestamp keys |
| Server.LatestAfterInsert | VoltViewDemo/voltview-backend/server.js:44-60 | after a successful insert the store stays in id order and `/api/latest` returns the row just saved |
| Server.Login | VoltViewDemo/voltview-backend/server.js:113-145 | a missing username or password gives 400; a database failure gives 500; an unknown user or a failed `verify` gives 401; success exactly when every check passes, with the stored username |
| Server.LoginHidesUnknownUser | VoltViewDemo/voltview-backend/server.js:129-140 | an unknown user and a wrong password get the same reply |
| Grouping.GroupBy | VoltViewDemo/voltview-backend/server.js:103-108 | the `forEach`/`push` loop builds one group per key, in first-appearance order, each holding exactly the rows with that key in input order |
| Grouping.GroupSizesSum | VoltViewDemo/voltview-frontend/src/Analytics.jsx:50-52 | over distinct keys that cover every row, the group sizes sum to the number of rows |
| Grouping.ByKeyMultiplicity | VoltViewDemo/voltview-frontend/src/Analytics.jsx:16-19 | a row occurs in its own key's group as often as in the input and never in another group |
| Grouping.OrderWithinGroup | VoltViewDemo/voltview-frontend/src/Analytics.jsx:18-19 | two rows with the same key keep their relative order inside their group |
| ReadingsReport.ReportKey | VoltViewDemo/voltview-frontend/src/Analytics.jsx:17 | the key is the first (up to) 10 characters of the timestamp, or "unknown" when it is missing or empty |
| ReadingsReport.DatesAscending | VoltViewDemo/voltview-frontend/src/Analytics.jsx:21-26 | the ordered keys are strictly ascending and distinct |
| ReadingsReport.DatesPresent | VoltViewDemo/voltview-frontend/src/Analytics.jsx:15-26 | a date is a key exactly when some row has it as its key |
| ReadingsReport.LatestDateIsGreatest | VoltViewDemo/voltview-frontend/src/Analytics.jsx:28-29 | with at least one row, the last key (the one selected) is at least every row's key |
| ReadingsReport.ReportGroupsPartition | VoltViewDemo/voltview-frontend/src/Analytics.jsx:15-20 | each row lands in its own date's group exactly as often as it occurs, and in no other |
| ReadingsReport.ReportCountsSum | VoltViewDemo/voltview-frontend/src/Analytics.jsx:50-56 | the group sizes over the keys sum to the number of rows |
| ReadingsReport.GroupByDate | VoltViewDemo/voltview-frontend/src/Analytics.jsx:15-26 | the groups are keyed by the ascending dates; each holds exactly its rows in input order |
| ReadingsReport.ReportState.DoFetch | VoltViewDemo/voltview-frontend/src/Analytics.jsx:11-35 | a null body groups as empty; on success the grouping is rebuilt, the selection becomes the greatest date or is kept when there is none, the time is recorded; a failure resets the grouping to empty and keeps the rest |
| ReadingsReport.OrderedGroupsCount | VoltViewDemo/voltview-frontend/src/Analytics.jsx:22-26 | the rebuilt object has exactly one entry per sorted date |
| ReadingsReport.ReportState.Summary | VoltViewDemo/voltview-frontend/src/Analytics.jsx:49-58 | `dayCount` is the number of dates; `totalReadings`, summed over the groups in a loop, is the number of rows fetched |
| HourlyAnalytics.HourLabelParses | VoltViewDemo/voltview-frontend/analytics.js:222 | an hour label `h + ':00'` reads back as `h` under `parseInt` |
| HourlyAnalytics.HourLabelInjective | VoltViewDemo/voltview-frontend/analytics.js:222 | distinct hours get distinct labels, so a label names one bucket |
| HourlyAnalytics.AscendingHours | VoltViewDemo/voltview-frontend/analytics.js:230 | the sorted keys are strictly ascending and are exactly the hours present |
| HourlyAnalytics.HourlyLabels | VoltViewDemo/voltview-frontend/analytics.js:230-231 | one label per hour present |
| HourlyAnalytics.HourlyMeans | VoltViewDemo/voltview-frontend/analytics.js:232-235 | one mean per hour present, so `labels` and `data` have equal length |
| HourlyAnalytics.BucketMean | VoltViewDemo/voltview-frontend/analytics.js:226-234 | a present hour's bucket is non-empty, and its value is the power sum (missing power as 0) over the count |
| HourlyAnalytics.TallyResult | VoltViewDemo/voltview-frontend/analytics.js:219-228 | after the loop, the dictionary's keys are exactly the hours present, and each bucket holds the sum and count of that hour's readings |
| HourlyAnalytics.TalliedMeans | VoltViewDemo/voltview-frontend/analytics.js:219-235 | the sorted keys of the finished dictionary are the present hours, each with a non-empty bucket, and reading out sum / count over them gives exactly the hourly means |
| HourlyAnalytics.AggregateHourlyUsage | VoltViewDemo/voltview-frontend/analytics.js:218-238 | the `forEach` tally, sort and map return exactly the ascending hour labels and the per-hour means |
| HourlyAnalytics.HourlyLabelsAscending | VoltViewDemo/voltview-frontend/analytics.js:230 | labels are distinct and their parsed hours strictly ascend |
| HourlyAnalytics.HourlyLabelsPresent | VoltViewDemo/voltview-frontend/analytics.js:220-225 | an hour's label appears exactly when some reading falls in that hour |
| HourlyAnalytics.HourlyCountsSum | VoltViewDemo/voltview-frontend/analytics.js:220-228 | the bucket counts sum to the history length |
| HourlyAnalytics.InitChart | VoltViewDemo/voltview-frontend/analytics.js:132-173 | a chart exists exactly when its canvas does, with its title and colour and no data |
| HourlyAnalytics.Feed | VoltViewDemo/voltview-frontend/analytics.js:240-247 | an existing chart gets the new labels and data; a missing one stays missing; no other entry changes |
| HourlyAnalytics.PowerSeries | VoltViewDemo/voltview-frontend/analytics.js:188 | one power value per reading, missing as 0 |
| HourlyAnalytics.VoltageSeries | VoltViewDemo/voltview-frontend/analytics.js:189 | one voltage value per reading, missing as 0 |
| HourlyAnalytics.PfSeries | VoltViewDemo/voltview-frontend/analytics.js:190 | one power-factor percentage per reading, missing as 0 |
| HourlyAnalytics.Initialised | VoltViewDemo/voltview-frontend/analytics.js:193-201 | all six chart ids get an entry |
| HourlyAnalytics.InitialisedCharts | VoltViewDemo/voltview-frontend/analytics.js:195-200 | each of the six charts exists exactly when its canvas does, with its own title and colour |
| HourlyAnalytics.AnalyticsCharts.Update | VoltViewDemo/voltview-frontend/analytics.js:177-216 | without Chart.js or with empty history nothing changes; otherwise the charts are initialised on each call until a main-power chart exists, and every existing chart is fed |
| HourlyAnalytics.AnalyticsCharts.FeedCharts | VoltViewDemo/voltview-frontend/analytics.js:203-215 | the six `updateChartData` calls in order: the five per-reading series with the time labels, then the hourly labels and means; the initialisation count is untouched |
| HourlyAnalytics.FeedKeeps | VoltViewDemo/voltview-frontend/analytics.js:240-247 | feeding one chart keeps every chart's existence, title and colour |
| HourlyAnalytics.FeedAllKeepsCharts | VoltViewDemo/voltview-frontend/analytics.js:203-215 | the six feeds add, remove or replace no chart |
| HourlyAnalytics.InitialiseOnce | VoltViewDemo/voltview-frontend/analytics.js:193-215 | once the main power canvas exists, an update leaves a main power chart, so later updates skip initialisation |
| Display.PushRecent | VoltViewDemo/voltview-frontend/dashboard-api.js:82-83 | the new reading is at index 0, followed by the first min(9, n) previous entries, never more than 10 in all |
| Display.PushAllNewest | VoltViewDemo/voltview-frontend/script.js:61-62 | after any run of readings, the buffer is the newest ten of them and the earlier entries, newest first |
| Display.ChartWindow | VoltViewDemo/voltview-frontend/dashboard-api.js:133 | the window is the last min(60, n) points in their original order |
| Display.WindowIdempotent | VoltViewDemo/voltview-frontend/script.js:104 | windowing a window changes nothing |
| Display.WindowSlides | VoltViewDemo/voltview-frontend/script.js:104 | windowing the old window plus new points equals windowing the whole series |
| Dashboard.Round | VoltViewDemo/voltview-frontend/dashboard-api.js:105 | `Math.round` gives the integer within half a unit, halves rounding up |
| Dashboard.LoadScore | VoltViewDemo/voltview-frontend/dashboard-api.js:102-107 | the score is never above 100; it is 100 exactly when the rounded percentage of 3000 W reaches 100; below that it is round(power·100/3000), missing power as 0 |
| Dashboard.StatusColor | VoltViewDemo/voltview-frontend/dashboard-api.js:46 | `#00fba8` exactly for "Online", otherwise `#ffd429` |
| Dashboard.FedCharts | VoltViewDemo/voltview-frontend/dashboard-api.js:110-126 | the four fixed charts, plus frequency exactly when the first row defines frequency, plus efficiency exactly when it defines pf |
| Dashboard.UpdateSingleChart | VoltViewDemo/voltview-frontend/dashboard-api.js:128-170 | a missing canvas changes nothing; otherwise the chart shows the 60-point window, keeps its title and labels when it exists, and is created with index labels when Chart.js starts it |
| Dashboard.FeedChartsBounded | VoltViewDemo/voltview-frontend/dashboard-api.js:110-170 | feeding keeps every chart on a canvas of the page, each with at most 60 points |
| Dashboard.FeedChartsWindows | VoltViewDemo/voltview-frontend/dashboard-api.js:110-126 | after feeding a list of distinct charts, each fed chart with a canvas shows its window; every other chart is unchanged |
| Dashboard.DashboardCharts | VoltViewDemo/voltview-frontend/dashboard-api.js:110-126 | once a history row has arrived, each fed chart whose canvas exists shows the last min(60, n) points of its series; every chart not fed is unchanged; no chart appears without a canvas |
| Dashboard.Dashboard.UpdateDeviceStatus | VoltViewDemo/voltview-frontend/dashboard-api.js:42-48 | the status text is set with its colour; nothing else changes |
| Dashboard.Dashboard.UpdateDashboard | VoltViewDemo/voltview-frontend/dashboard-api.js:79-83 | the load tile gets the reading's score; the reading is pushed onto the ten-entry recent list |
| Dashboard.Dashboard.FetchLatestReading | VoltViewDemo/voltview-frontend/dashboard-api.js:12-27 | a not-ok reply gives "Waiting for data..." and keeps the latest reading; an ok reply stores and shows the reading and gives "Online"; an exception gives "Offline"; the colour is green exactly when the reply was ok |
| Dashboard.Dashboard.UpdateCharts | VoltViewDemo/voltview-frontend/dashboard-api.js:110-126 | nothing changes without Chart.js or with empty history; otherwise the charts are fed per `FedCharts` |
| Dashboard.Dashboard.FetchHistory | VoltViewDemo/voltview-frontend/dashboard-api.js:30-39 | a successful fetch replaces the history and updates the charts; a failure changes nothing |
| LiveDashboard.FedCharts | VoltViewDemo/voltview-frontend/script.js:81-97 | power, voltage and current are always fed; frequency exactly when the first row defines it |
| LiveDashboard.Points | VoltViewDemo/voltview-frontend/script.js:85-95 | one point per history row |
| LiveDashboard.Feed | VoltViewDemo/voltview-frontend/script.js:99-107 | an existing chart shows the 60-point window; a missing chart stays missing; others unchanged |
| LiveDashboard.LivePage.FetchLatestReading | VoltViewDemo/voltview-frontend/script.js:10-19 | an ok reply stores the reading and pushes it onto the ten-entry recent list; any failure changes nothing |
| LiveDashboard.LivePage.UpdateSingleChart | VoltViewDemo/voltview-frontend/script.js:99-107 | the chart map after the call is `Feed` of the one before |
| LiveDashboard.LivePage.UpdateCharts | VoltViewDemo/voltview-frontend/script.js:81-97 | nothing changes without Chart.js or with empty history; otherwise the charts are the ones `ChartsShown` describes |
| LiveDashboard.LivePage.FetchHistory | VoltViewDemo/voltview-frontend/script.js:22-31 | a successful fetch replaces the history and updates the charts; a failure changes nothing |
| LiveDashboard.ChartsShownBounded | VoltViewDemo/voltview-frontend/script.js:81-107 | no chart is created; each fed chart shows at most its last 60 points; unfed charts keep their data |
| LiveDashboard.Matches | VoltViewDemo/voltview-frontend/script.js:288 | a page matches exactly when its lower-cased name contains the query; matches keep the page list's order |
| LiveDashboard.ArrowDown | VoltViewDemo/voltview-frontend/script.js:318-322 | from i < len-1, including no focus, focus moves to i+1; from the last link it wraps to 0; with links it always lands in [0, len) |
| LiveDashboard.ArrowUp | VoltViewDemo/voltview-frontend/script.js:323-327 | from i > 0 focus moves to i-1; from 0 or no focus it wraps to len-1; with links it always lands in [0, len) |
| LiveDashboard.ArrowsInverse | VoltViewDemo/voltview-frontend/script.js:318-327 | on a focused link, ArrowUp undoes ArrowDown and ArrowDown undoes ArrowUp |
| LiveDashboard.DownCycles | VoltViewDemo/voltview-frontend/script.js:318-322 | n presses of ArrowDown (n ≤ len) move focus n links on, wrapping once past the end |
| LiveDashboard.FullCycle | VoltViewDemo/voltview-frontend/script.js:318-322 | len presses of ArrowDown return to the focused link |
| LiveDashboard.QuickSearch.Input | VoltViewDemo/voltview-frontend/script.js:281-303 | an empty trimmed query clears the results and deactivates them; otherwise the results are the matches; the results are active exactly when one matches |
| LiveDashboard.QuickSearch.FocusInput | VoltViewDemo/voltview-frontend/script.js:309-312 | focusing shows the results when the box holds non-blank text |
| LiveDashboard.QuickSearch.Dismiss | VoltViewDemo/voltview-frontend/script.js:305-307 | after the blur delay the results are inactive |
| LiveDashboard.QuickSearch.KeyDown | VoltViewDemo/voltview-frontend/script.js:314-331 | keys are ignored while inactive; arrows move focus per `ArrowDown`/`ArrowUp`; Enter on a focused link navigates to its page |
| AlertsPage.RenderTypeAsWritten | VoltViewDemo/voltview-frontend/alerts-api.js:66-75 | the three known types get their badge, other own-key misses get INFO, and an inherited `Object.prototype` name gets a badge reading "undefined" |
| AlertsPage.InheritedTypeShowsUndefined | VoltViewDemo/voltview-frontend/alerts-api.js:73 | the type "constructor" gets an "undefined" badge as written and INFO as intended |
| AlertsPage.RenderType | VoltViewDemo/voltview-frontend/alerts-api.js:66-75 | critical gives CRITICAL, warning gives WARNING, every other type INFO |
| AlertsPage.RenderTypeAgrees | VoltViewDemo/voltview-frontend/alerts-api.js:73 | the written and intended badges agree on every type that is not an inherited name |
| AlertsPage.ActiveAlerts | VoltViewDemo/voltview-frontend/alerts-api.js:84 | exactly the alerts with `resolved === 0`, in original order |
| AlertsPage.ButtonNamesAlert | VoltViewDemo/voltview-frontend/alerts-api.js:108 | a row's button id reads back as its alert's id |
| AlertsPage.RowOf | VoltViewDemo/voltview-frontend/alerts-api.js:91-111 | a row carries the alert's message, the intended badge for every type that is not an inherited name, and a badge reading "undefined" for one that is |
| AlertsPage.RowsNameActiveAlerts | VoltViewDemo/voltview-frontend/alerts-api.js:86-111 | row k names the k-th active alert, which is unresolved and from the list |
| AlertsPage.AlertsView.RenderAlerts | VoltViewDemo/voltview-frontend/alerts-api.js:78-123 | a single "No active alerts" row, or one row per active alert in order, each with the badge `renderType` draws as written |
| AlertsPage.AlertsView.FetchAlerts | VoltViewDemo/voltview-frontend/alerts-api.js:7-17 | an ok reply replaces the list and re-renders; a failure shows the error row; each call is one refresh |
| AlertsPage.AlertsView.CreateAlert | VoltViewDemo/voltview-frontend/alerts-api.js:20-41 | the POST is sent; success triggers exactly one refresh; failure shows the notice and none |
| AlertsPage.AlertsView.ResolveAlert | VoltViewDemo/voltview-frontend/alerts-api.js:44-63 | the PUT is sent; success triggers exactly one refresh; failure shows the notice and none |
| AlertsPage.AlertsView.ClickResolve | VoltViewDemo/voltview-frontend/alerts-api.js:114-121 | clicking a row's button sends the PUT for the alert that button names; success refreshes once and shows the new list or the error row; failure shows the notice and leaves the list and table as they were; the form and the sent POSTs are unchanged |
| AlertsPage.AlertsView.Simulate | VoltViewDemo/voltview-frontend/alerts-api.js:146-164 | a blank message shows the notice and sends nothing; otherwise the trimmed message is created and the box cleared; an accepted create refreshes once and shows the new list or the error row; a refused one shows the failure notice and leaves the list and table as they were |
| ReportsPage.ApiBase | VoltViewDemo/voltview-frontend/reports-api.js:3-5 | a preset non-empty base is kept; a missing or empty one becomes the default |
| ReportsPage.StatusColor | VoltViewDemo/voltview-frontend/reports-api.js:45-47 | yellow exactly for Processing, red exactly for Failed, green exactly otherwise |
| ReportsPage.BackendBase | VoltViewDemo/voltview-frontend/reports-api.js:50 | the first `/api` is removed; a base without one is kept |
| ReportsPage.DefaultBackendBase | VoltViewDemo/voltview-frontend/reports-api.js:4-50 | the default base becomes `http://localhost:4000` |
| ReportsPage.DownloadUrlAsWritten | VoltViewDemo/voltview-frontend/reports-api.js:51 | as written: the backend base followed directly by the file path, or `#` without a file |
| ReportsPage.SeedLinkMissesSlash | VoltViewDemo/voltview-frontend/reports-api.js:50-51 | a seed report's link is `http://localhost:4000reports/...`, with no `/` before the path |
| ReportsPage.DownloadUrl | VoltViewDemo/voltview-frontend/reports-api.js:50-51 | as intended: base, one `/`, then the path without its own leading `/`; `#` without a file |
| ReportsPage.SeedLinkUnderRoot | VoltViewDemo/voltview-frontend/reports-api.js:50-51 | the corrected seed link is `http://localhost:4000/reports/...` |
| ReportsPage.AbsolutePathsAgree | VoltViewDemo/voltview-frontend/reports-api.js:51 | the two links agree for paths that start with `/` |
| ReportsPage.RowOf | VoltViewDemo/voltview-frontend/reports-api.js:42-59 | a row has the `download` attribute exactly when the path is truthy; it links to the backend base followed directly by the stored path, or to `#` when the path is falsy; it gets the status colour |
| ReportsPage.ReportsView.RenderReports | VoltViewDemo/voltview-frontend/reports-api.js:27-63 | an empty list gives a single "No reports available" row; otherwise one row per report in received order, each linking as the page writes it |
| ReportsPage.ReportsView.FetchReports | VoltViewDemo/voltview-frontend/reports-api.js:11-24 | an ok reply replaces the list and re-renders; a failure shows the error row |
| SeedData.SampleAlertCounts | VoltViewDemo/voltview-backend/generate-alerts-reports.js:7-16 | 8 sample alerts, 2 resolved, 6 active |
| SeedData.FilePath | VoltViewDemo/voltview-backend/generate-alerts-reports.js:61 | `reports/`, then the date, then `_` and the lower-cased type, then `.pdf` |
| SeedData.ReportOfClassified | VoltViewDemo/voltview-backend/generate-alerts-reports.js:28-62 | the report for `i` days back: Daily and Processing today, Weekly naming its date on positive multiples of 7, Monthly on day 13, otherwise Daily with `summaries[i % 6]`; always dated and with its file path |
| SeedData.SampleReports | VoltViewDemo/voltview-backend/generate-alerts-reports.js:19-63 | exactly 14 reports; day 0 is Daily and Processing, positive multiples of 7 are Weekly naming their date, day 13 is Monthly, others Daily with `summaries[i % 6]`, all with their file path |
| SeedData.SampleReportKinds | VoltViewDemo/voltview-backend/generate-alerts-reports.js:23-54 | over the 14 days, only day 0 is Processing, only day 7 is Weekly, only day 13 is Monthly, and every type is Daily, Weekly or Monthly |

## Left out

- SQLite: the schema, migrations and queries (`db.js`, `db-enhanced.js`) are left out, because
  they are a foreign database. The store is a sequence in id order, and a failed call is a flag.
  - Whether the optional `energy`, `frequency` and `pf` columns exist is the `enhancedSchema`
    constant.
  - A failed `ORDER BY id ASC` in the `all=true` path and a failed paged query give the same reply.
- Network, timers and Express routing are left out, because they are I/O. This covers `fetch`,
  `setInterval` polling, `app.listen` and request parsing.
  - A response is an abstract ok, not-ok or exception outcome.
  - The 160 ms blur delay is the separate `Dismiss` step.
- The DOM, `innerHTML`, Chart.js and React rendering are left out, because they are UI.
  - A chart is its title, labels and data.
  - A page element is assumed present where the model needs one to exist, such as the status
    element and the table bodies.
  - `App.jsx`, `verify-theme.js` and the sine waveform animation are left out.
- Formatting and floating point are left out: `toFixed`, `toLocaleString`/`toLocaleTimeString`,
  and IEEE rounding.
  - Values are exact reals.
  - Server.ReadingStore.PostEsp32: does not model the `toFixed(2)` rounding of voltage and power,
    or a `current` sent as a string.
  - The voltage that `Math.random` picks is a parameter.
- Dates and time zones are left out, because they depend on the host.
  - The hour of a reading and the chart's time labels are function parameters.
  - An invalid timestamp, whose `getHours` is NaN, is not modelled.
  - The seed loop's `toISOString` date for day `i` is a parameter.
- `parseInt` is modelled exactly on strings, except for values above 2^53 and query parameters given
  as arrays.
- `toLowerCase` is modelled on ASCII letters only, so a non-ASCII capital such as `À` is left as
  it is, where JavaScript lower-cases it.
- JavaScript's sort on UTF-16 code units is modelled as code-point order. The two orders differ
  only outside the Basic Multilingual Plane.
- `slice(0, 10)` likewise counts code points where JavaScript counts UTF-16 code units. The two
  differ only for a timestamp with a character outside the Basic Multilingual Plane.
- HourlyAnalytics: the buckets are keyed by the hour, not by the label string. `HourLabelInjective`
  shows the two are interchangeable. The hour order comes from the numeric comparator, so object-key
  order does not matter.
- Server.Analytics and ReadingsReport: a date key that is an inherited `Object.prototype` name is
  not modelled. The key is the first ten characters of the timestamp, so this needs a timestamp
  that is exactly `toString`, `valueOf` or `__proto__`.
  - `grouped[date].push` would then throw.
  - In `server.js` the throw happens inside the database callback, so no reply is sent.
  - In `Analytics.jsx` the `catch` resets the grouping to `{}`.
  - ISO timestamps are never such a name.
- Server.Analytics and ReadingsReport.ReportState.DoFetch: JavaScript object key order is not
  modelled for date keys made only of digits, such as a timestamp starting `3` or `12`.
  - JavaScript lists such integer-like keys first, in numeric order, and only then the other keys
    in insertion order.
  - With such keys, the `grouped` JSON reply would not list its dates in first-appearance order.
  - The React page would then select the last integer-like key of `Object.keys`, "12" rather than
    the last sorted key "3".
  - The model keeps first-appearance order and sorted order. The program writes ISO timestamps,
    whose `YYYY-MM-DD` prefix always holds a `-`, so its own dates are never integer-like.
- A non-array JSON body on the alerts and reports pages is left out. Such a body makes `filter` or
  `forEach` throw, or renders nothing. An ok response is modelled as carrying a list.
- The regex highlight in the search results is left out, because it depends on the JavaScript regex
  engine and on unescaped input. The link text is not modelled.
- LiveDashboard.QuickSearch.KeyDown: the listener sits on the input. Once a link holds the focus,
  later keys reach the link, not the input. The model treats every key as reaching the listener, as
  the source's own focus index does.
- The `!reading` guard in `updateDashboard` is left out, because an ok `/api/latest` reply is always
  a row object.
- The generate-report button on the reports page and `generate-test-data.js` are left out. The
  first is not in the modelled core; the second only produces random rows.
- The server side of the alerts, reports and report-generation endpoints is not part of this model,
  because no handler for them exists in `server.js`.
- Bcrypt is the uninterpreted `verify` parameter of `Server.Login`.
- Server.Login: the `username` and `password` body fields are taken to be missing, null or
  strings.
  - A truthy non-string, such as `123` or `[]`, passes the `!password` guard.
  - `bcrypt.compare` then rejects it inside the callback, and no reply is sent.
  - This case is not modelled.

## Findings

| source | as written | input that shows it | evidently intended | confidence | as-written member | corrected member |
|---|---|---|---|---|---|---|
| VoltViewDemo/voltview-frontend/alerts-api.js:73 | `TYPE_MAP[type] \|\| TYPE_MAP.info` also finds the names every object inherits, which are truthy, so the badge's word and colours print as `undefined` | an alert of type `constructor` | any type other than critical, warning and info shows the INFO badge | not executed | AlertsPage.InheritedTypeShowsUndefined | AlertsPage.RenderType |
| VoltViewDemo/voltview-frontend/reports-api.js:50-51 | `backendBase + report.file_path` puts no separator between the host and the relative paths the seed script stores | the default base with the seed path `reports/<date>_daily.pdf`, giving `http://localhost:4000reports/<date>_daily.pdf` | the link `http://localhost:4000/reports/<date>_daily.pdf` | not executed | ReportsPage.SeedLinkMissesSlash | ReportsPage.SeedLinkUnderRoot |

The page models, `AlertsPage.RowOf` and `ReportsPage.RowOf`, draw the badge and the link as the
program writes them. The corrected functions, `AlertsPage.RenderType` and `ReportsPage.DownloadUrl`,
sit beside them with their intended properties proved, and a lemma ties each pair together:
`AlertsPage.RenderTypeAgrees` and `ReportsPage.AbsolutePathsAgree`.
