# Campaign dashboard rules, modelled in Dafny

This project models the logic of an administration and user dashboard for
first-come-first-served campaigns. The dashboard is written in React and
TypeScript. Campaigns hold a limited stock, and users join them until the
stock runs out; the backend is an external REST API. The model covers the
rules the pages and the API layer apply around that backend:

- the live monitor, which turns consecutive stock snapshots into
  transactions per second (TPS) and keeps a one-minute history;
- the load-test result poller, its comparison chart and the results loaded
  from a k6 file;
- the input checks, error messages and state updates of the batch, campaign
  administration and campaign list pages;
- the availability rules for a campaign (can it be joined, how much stock
  is left, how many campaigns are open or closed);
- the statistics URLs, with the optional date query serialized the way
  `URLSearchParams` does;
- the HTTP client's interceptors, which turn every failure into an
  `ApiError`.

Each page whose handlers update state in steps is a `class` whose methods
are those handlers. Each call to a backend, each timer firing, the clock and
`Math.random()` are inputs of the method that models the step:
`Fetched<T>` is the awaited value or what was thrown. Pure rules are
functions, and the properties relating them are lemmas. The JavaScript
built-ins the rules depend on are modelled in `JsValues`: `parseInt` as
ECMA-262 defines it, `trim` over the ECMAScript whitespace set, and
string truthiness.

Modules, one per source file (plus two shared ones):

| module | file | source |
|---|---|---|
| `JsValues` | js_values.dfy | JavaScript built-ins: `parseInt`, `trim`, truthiness, number text |
| `ApiErrors` | api_error.dfy | src/api/error.ts |
| `ApiClient` | api_client.dfy | src/api/client.ts |
| `StatsApi` | api_stats.dfy | src/api/stats.ts |
| `CampaignRules` | campaign_rules.dfy | src/types/index.ts and the rules the user pages share |
| `RealtimeMonitoring` | realtime_monitoring.dfy | src/pages/admin/RealtimeMonitoring.tsx |
| `LoadTestResults` | load_test_results.dfy | src/pages/admin/LoadTestResults.tsx, src/api/loadTest.ts |
| `BatchManagement` | batch_management.dfy | src/pages/admin/BatchManagement.tsx |
| `CampaignManagement` | campaign_management.dfy | src/pages/admin/CampaignManagement.tsx |
| `CampaignListPage` | campaign_list_page.dfy | src/pages/user/CampaignListPage.tsx |
| `CampaignList` | campaign_list.dfy | src/pages/user/CampaignList.tsx |
| `LandingPage` | landing_page.dfy | src/pages/user/LandingPage.tsx |

## Model

| member | source | states |
|---|---|---|
| ApiErrors.NewApiError | src/api/error.ts:11-20 | the name is always "ApiError"; message, errorCode and statusCode are stored as passed; an omitted code or status stays undefined, and an undefined message gives Error's empty message |
| ApiErrors.NewApiErrorInjective | src/api/error.ts:16-19 | two errors built from different message, code or status differ: the constructor loses nothing |
| ApiClient.OnRequest | src/api/client.ts:14-16 | the request interceptor returns the configuration unchanged |
| ApiClient.OnResponse | src/api/client.ts:26-37 | a 2xx body with `success === false` is rejected as an ApiError with the body's message and code and the HTTP status, in both directions; every other response passes unchanged |
| ApiClient.OnError | src/api/client.ts:39-54 | a server response with a body gives exactly `new ApiError(data.message, data.errorCode, status)`, and an empty body the same with an empty message and no code; a request with no response gives the fixed no-response message with no code and no status; any other failure gives its own message, or the fixed fallback when that is empty; a null or undefined error body throws a TypeError instead (the only rejection that is not an ApiError) |
| ApiClient.RejectionsAreApiErrors | src/api/client.ts:46-54 | every rejection of either interceptor is an ApiError, except the one for a null or undefined error body |
| ApiClient.NoResponseMessageNonEmpty | src/api/client.ts:47-53 | a failure without a server response always carries a non-empty message |
| StatsApi.DailyStatsUrl | src/api/stats.ts:5-9 | the daily URL is the fixed prefix followed by the date, unencoded |
| StatsApi.FormEncodeChars | src/api/stats.ts:19-24 | the serialized text of a value holds only safe characters, `+` and `%` |
| StatsApi.FormEncodeSafe | src/api/stats.ts:21-22 | a parameter name or a `yyyy-MM-dd` date is serialized unchanged |
| StatsApi.CampaignStatsUrl | src/api/stats.ts:18-26 | the imperative URL builder gives the endpoint path followed by the date query |
| StatsApi.SerializedDates | src/api/stats.ts:19-26 | serializing the appended date parameters gives the query: `startDate` before `endDate`, each only when given, and `?` only when something was appended |
| StatsApi.StatsQueryEmptyIff | src/api/stats.ts:21-24 | no query is added exactly when neither date is a non-empty string; an empty-string date counts as absent |
| StatsApi.StatsUrlQuestionMark | src/api/stats.ts:18-26 | the URL starts with `/api/admin/stats/campaign/{campaignId}`, holds a `?` right after the path exactly when some date is given, and no other `?` |
| JsValues.ParseIntOfIntToString | src/pages/admin/BatchManagement.tsx:46-47 | `parseInt` reads back the decimal text of any integer, whatever non-digit text follows it (with the radix omitted, `x` may not follow the number 0, whose text `0x` would start a hexadecimal number; after any other number `x` simply ends it) |
| JsValues.NoDigitParsesToNaN | src/pages/admin/BatchManagement.tsx:46-53 | text without a decimal digit parses to NaN |
| JsValues.ParseIntSkipsWhitespace | src/pages/admin/CampaignManagement.tsx:84 | leading whitespace never changes what `parseInt` reads |
| JsValues.TrimEmptyIffBlank | src/pages/admin/CampaignManagement.tsx:91 | `s.trim()` is empty exactly when `s` is all whitespace |
| JsValues.NatToStringValue | src/api/stats.ts:18 | the decimal text of a number has the value of that number |
| CampaignRules.AvailabilityLabel | src/pages/user/LandingPage.tsx:270-290 | the badge reads "진행 중" exactly when the campaign is open with stock left, else "마감" |
| CampaignRules.ParticipateButton | src/pages/user/CampaignListPage.tsx:162-210 | the participate button is enabled exactly when the campaign is open with stock left, and reads "마감되었습니다" exactly when disabled |
| CampaignRules.IsOpen | src/pages/user/CampaignListPage.tsx:162 | defines a joinable campaign: status OPEN and stock above 0; the lemmas beside it relate it to the badge, the button and the counters |
| CampaignRules.JoinableDisplays | src/pages/user/CampaignListPage.tsx:179-210 | the badge reads "진행 중" exactly when the button can be pressed, exactly when the button reads "참여하기" |
| CampaignRules.StockPercentage | src/pages/user/CampaignListPage.tsx:161 | the percentage times the total stock is the current stock times 100 (the share left), lies in 0..100 when 0 ≤ current ≤ total, is 0 when nothing is left, and is not a number when the total is 0 |
| CampaignRules.RandomUserId | src/pages/user/CampaignListPage.tsx:66 | the random user id lies in 1..100000 for every draw in [0, 1) |
| CampaignRules.EveryUserIdDrawable | src/pages/user/CampaignListPage.tsx:66 | every id in 1..100000 is produced by some draw |
| RealtimeMonitoring.WindowShape | src/pages/admin/RealtimeMonitoring.tsx:78-79 | the history keeps min(n, 60) entries, namely the most recent ones in arrival order |
| RealtimeMonitoring.StatusPath | src/pages/admin/RealtimeMonitoring.tsx:53 | the status path is `/api/campaigns/`, the campaign id text as typed, then `/status` |
| RealtimeMonitoring.WindowAppend | src/pages/admin/RealtimeMonitoring.tsx:70-79 | appending to the kept window and cutting it to 60 equals cutting everything seen, so the oldest entry goes first and the newest is always last |
| RealtimeMonitoring.AppendKeepsHistory | src/pages/admin/RealtimeMonitoring.tsx:70-79 | appending a non-negative rate to the history keeps it the 60-entry window of all entries since start, with no negative rate among them |
| RealtimeMonitoring.Tps | src/pages/admin/RealtimeMonitoring.tsx:60-63 | the TPS times the elapsed seconds is the stock consumed since the previous sample |
| RealtimeMonitoring.ClampedTps | src/pages/admin/RealtimeMonitoring.tsx:64-73 | the stored TPS is never negative, is positive exactly when stock was consumed, and then equals consumption per second |
| RealtimeMonitoring.SuccessRate | src/pages/admin/RealtimeMonitoring.tsx:204-206 | the rate is successCount / totalParticipation · 100 when anyone took part, else 0, and lies in 0..100 when successes do not exceed participations |
| RealtimeMonitoring.Monitor.constructor | src/pages/admin/RealtimeMonitoring.tsx:37-45 | the page starts on campaign "1", not monitoring, with no status, no history, TPS 0 and no previous sample |
| RealtimeMonitoring.Monitor.Start | src/pages/admin/RealtimeMonitoring.tsx:94-99 | start turns monitoring on and clears the history and both previous values, keeping the last status and TPS |
| RealtimeMonitoring.Monitor.Stop | src/pages/admin/RealtimeMonitoring.tsx:101-103 | stop turns monitoring off and changes nothing else |
| RealtimeMonitoring.Monitor.Tick | src/pages/admin/RealtimeMonitoring.tsx:49-88 | no tick runs (and nothing is fetched) while not monitoring; otherwise the status of the selected campaign is fetched from its status path; a failed fetch changes nothing; a fetch shows the status and makes it the previous sample; only when a previous sample exists does it set the clamped TPS and append an entry carrying it and the fetched success and fail counts; the history stays the 60-entry window of all entries since start |
| LoadTestResults.StartRequest | src/pages/admin/LoadTestResults.tsx:78-82 | the start request carries the parsed campaign id and user count and a duration of 5 |
| LoadTestResults.ManualResult | src/pages/admin/LoadTestResults.tsx:46-64 | a result loaded from the file is a completed test of that method, with job id 'manual-kafka' or 'manual-sync', the page's parsed campaign id and the file's metrics |
| LoadTestResults.ComparisonData | src/pages/admin/LoadTestResults.tsx:142-147 | the chart has four rows P50, P95, P99 and 평균, in that order and with both methods' values, when both results carry metrics, and none otherwise |
| LoadTestResults.ComparisonDataReadsOnlyMetrics | src/pages/admin/LoadTestResults.tsx:142-147 | the chart depends on nothing of a result but its metrics |
| LoadTestResults.ManualResultsCompare | src/pages/admin/LoadTestResults.tsx:46-64 | loading both entries from the file fills the chart exactly when both entries carry metrics |
| LoadTestResults.ResultPanel.Start | src/pages/admin/LoadTestResults.tsx:73-89 | if starting the test throws, no polling begins and loading ends; otherwise the panel is loading and polls the returned job |
| LoadTestResults.ResultPanel.PollOnce | src/pages/admin/LoadTestResults.tsx:118-136 | COMPLETED stops polling, stores the result and ends loading; FAILED stops polling and ends loading with the result kept; RUNNING changes nothing; a fetch error stops polling and ends loading |
| LoadTestResults.ResultPanel.Ceiling | src/pages/admin/LoadTestResults.tsx:138 | the 120 s timeout clears its own interval only, and touches neither the result nor the loading flag |
| LoadTestResults.LoadTestPage.LoadManual | src/pages/admin/LoadTestResults.tsx:41-70 | a file load sets a result only for the methods present in the file; a failed load changes nothing |
| LoadTestResults.LoadTestPage.Comparison | src/pages/admin/LoadTestResults.tsx:142-147 | the page's chart is empty exactly when one of the two results lacks metrics |
| LoadTestResults.ResultPanel.constructor | src/pages/admin/LoadTestResults.tsx:34-38 | a panel opens with no result, not loading and not polling |
| LoadTestResults.ResultPanel.SetResult | src/pages/admin/LoadTestResults.tsx:46-64 | a result loaded from the file becomes the panel's result; loading and polling are untouched |
| LoadTestResults.LoadTestPage.constructor | src/pages/admin/LoadTestResults.tsx:30-38 | the page opens in manual mode with campaign "1", 100 virtual users and two empty, idle panels |
| LoadTestResults.LoadTestPage.Controls | src/pages/admin/LoadTestResults.tsx:204-232 | automatic mode offers the two start buttons, each enabled exactly when its own panel is not loading; manual mode offers only the file load |
| LoadTestResults.LoadTestPage.StartKafka | src/pages/admin/LoadTestResults.tsx:73-90 | pressing the Kafka start button (offered in automatic mode, enabled while its panel is idle) sends the request built from the page's current campaign id and user count, starts that panel as `ResultPanel.Start` does, and leaves the other panel unchanged |
| LoadTestResults.LoadTestPage.StartSync | src/pages/admin/LoadTestResults.tsx:93-110 | the same for the synchronous method's button and panel |
| BatchManagement.ValidateSimulation | src/pages/admin/BatchManagement.tsx:46-56 | a NaN or non-positive campaign id is rejected with its message before the count is looked at; then a NaN, non-positive or over-100000 count is rejected with its message; otherwise the parsed numbers are accepted |
| BatchManagement.AcceptedCounts | src/pages/admin/BatchManagement.tsx:46-56 | for numeric input, accepted counts are exactly 1..100000 and the numbers sent are the numbers typed |
| BatchManagement.DigitlessCampaignIdRejected | src/pages/admin/BatchManagement.tsx:49-52 | a campaign id without any digit is rejected with the campaign id message whatever the count |
| BatchManagement.SimulationErrorText | src/pages/admin/BatchManagement.tsx:63-71 | a failed simulation shows an ApiError's message, and the fixed fallback for anything else |
| BatchManagement.StatusColor | src/pages/admin/BatchManagement.tsx:114-126 | COMPLETED is success, FAILED is error, STARTING and STARTED are warning, every other status is default, each in both directions |
| BatchManagement.Duration | src/pages/admin/BatchManagement.tsx:248-250 | the duration is end minus start in milliseconds, non-negative exactly when the run ended after it started |
| BatchManagement.UpdatedRowsLabel | src/pages/admin/BatchManagement.tsx:264 | the cell reads '-' exactly when the count is missing or empty, and otherwise the count followed by 개 |
| BatchManagement.BatchPage.Simulate | src/pages/admin/BatchManagement.tsx:45-75 | rejected input shows its message, calls nothing and leaves the simulating flag alone; accepted input clears the error, calls with the parsed numbers, and ends not simulating on success or failure, showing the failure's text |
| BatchManagement.BatchPage.LoadHistory | src/pages/admin/BatchManagement.tsx:78-88 | a loaded history replaces the old one, a failure keeps it, and loading ends either way |
| BatchManagement.BatchPage.constructor | src/pages/admin/BatchManagement.tsx:39-42 | the simulator opens with empty inputs, no error and not simulating |
| CampaignManagement.StockInputValue | src/pages/admin/CampaignManagement.tsx:84 | the stock input is `parseInt(value)`, or 0 when that is NaN |
| CampaignManagement.StockInputOfNumber | src/pages/admin/CampaignManagement.tsx:84 | the text of a number, with non-digit text after it, is read as that number (only `0x` would instead start a hexadecimal number) |
| CampaignManagement.StockInputWithoutDigits | src/pages/admin/CampaignManagement.tsx:84 | text without digits gives a stock of 0 |
| CampaignManagement.UpdateForm | src/pages/admin/CampaignManagement.tsx:80-86 | only the named field changes: the name takes the raw text, the stock the parsed number |
| CampaignManagement.ValidateForm | src/pages/admin/CampaignManagement.tsx:91-98 | the form check rejects only with the name message or the stock message; `ValidateFormMeaning` states when each applies |
| CampaignManagement.ValidateFormMeaning | src/pages/admin/CampaignManagement.tsx:91-98 | an empty or whitespace-only name is rejected first; then a stock below 1 is rejected; the form passes exactly when neither holds |
| CampaignManagement.CreateErrorText | src/pages/admin/CampaignManagement.tsx:107-119 | COMMON_002 gives '입력값을 확인해주세요: ' and the message, another ApiError its message, anything else '캠페인 생성에 실패했습니다.' |
| CampaignManagement.ValidationMessageKeepsServerText | src/pages/admin/CampaignManagement.tsx:112-113 | a validation failure's text ends with the server's own message |
| CampaignManagement.LoadErrorText | src/pages/admin/CampaignManagement.tsx:50-54 | a failed load shows an ApiError's message, and the fixed fallback for anything else |
| CampaignManagement.CampaignAdmin.Load | src/pages/admin/CampaignManagement.tsx:44-61 | success replaces the list and clears the error; failure keeps the list and shows the error text; loading ends |
| CampaignManagement.CampaignAdmin.constructor | src/pages/admin/CampaignManagement.tsx:32-41 | the page opens loading, with an empty list, no error, a closed dialog, an empty form (name "", stock 0), no form error and not creating |
| CampaignManagement.CampaignAdmin.CloseDialog | src/pages/admin/CampaignManagement.tsx:75-77 | closing the dialog only closes it; the form is kept |
| CampaignManagement.CampaignAdmin.OpenDialog | src/pages/admin/CampaignManagement.tsx:68-72 | the form is reset to an empty name and stock 0, the error is cleared and the dialog opens |
| CampaignManagement.CampaignAdmin.InputChange | src/pages/admin/CampaignManagement.tsx:80-86 | the form becomes the updated form |
| CampaignManagement.CampaignAdmin.Create | src/pages/admin/CampaignManagement.tsx:89-125 | an invalid form shows its message and sends nothing; a valid form is sent with the error cleared; only success closes the dialog and reloads the list; failure shows the chosen message; creating is off after every attempt |
| CampaignListPage.OpenCampaigns | src/pages/user/CampaignListPage.tsx:133 | the open counter's list holds each campaign that can be joined exactly as often as the page's list does, and nothing else, so the counter is the number of joinable entries |
| CampaignListPage.SoldOutCampaigns | src/pages/user/CampaignListPage.tsx:142 | the closed counter's list holds each closed or zero-stock campaign exactly as often as the page's list does, and nothing else |
| CampaignListPage.CountersPartition | src/pages/user/CampaignListPage.tsx:133-142 | with no negative stock, the two counters add up to the length of the list |
| CampaignListPage.NegativeStockEscapesCounters | src/pages/user/CampaignListPage.tsx:133-142 | an open campaign with negative stock is counted by neither counter |
| CampaignListPage.CampaignPage.SkeletonCount | src/pages/user/CampaignListPage.tsx:158-159 | skeletons show only while loading an empty list; otherwise the list renders |
| CampaignListPage.CampaignPage.constructor | src/pages/user/CampaignListPage.tsx:26-30 | the page opens loading, with an empty list, no error, no selection and not participating |
| CampaignListPage.CampaignPage.CloseDialog | src/pages/user/CampaignListPage.tsx:82-84 | closing the dialog clears the selection |
| CampaignListPage.CampaignPage.Load | src/pages/user/CampaignListPage.tsx:33-45 | success replaces the list and clears the error; failure keeps the list and sets the error; loading ends |
| CampaignListPage.CampaignPage.ParticipateClick | src/pages/user/CampaignListPage.tsx:55-57 | only a campaign that can be joined is ever selected |
| CampaignListPage.CampaignPage.ConfirmParticipation | src/pages/user/CampaignListPage.tsx:60-79 | with a selection, one request for that campaign and a user id in 1..100000 is sent; the selection is cleared on success and on failure; a success reloads the list |
| CampaignList.StatusLabel | src/pages/user/CampaignList.tsx:121 | the status line reads '진행 중' exactly when the status is OPEN |
| CampaignList.SoldOutOpenCampaignLabels | src/pages/user/CampaignList.tsx:111-140 | an OPEN campaign with no stock reads '진행 중' while its button is disabled and reads '마감되었습니다' |
| CampaignList.ParticipationFailureAsWritten | src/pages/user/CampaignList.tsx:70-73 | the failure text as written: the thrown object's `response.data.error`, or the fallback |
| CampaignList.AsWrittenAlwaysFallback | src/pages/user/CampaignList.tsx:70-73 | for every value the client throws, the written expression gives the fallback |
| CampaignList.ParticipationFailureText | src/pages/user/CampaignList.tsx:70-73 | the corrected failure text: the ApiError's message when it has one, else the fallback; never empty |
| CampaignList.CorrectedShowsServerMessage | src/pages/user/CampaignList.tsx:70-73 | the corrected text differs from the written one exactly when the server gave its own message |
| CampaignList.CampaignListView.Load | src/pages/user/CampaignList.tsx:31-43 | success replaces the list and clears the error; failure keeps the old list and sets the error; the spinner is gone afterwards |
| CampaignList.CampaignListView.constructor | src/pages/user/CampaignList.tsx:23-28 | the page opens loading, with an empty list, no error, no selection, not participating and no result dialog |
| CampaignList.CampaignListView.ShowSpinner | src/pages/user/CampaignList.tsx:88 | the full-page spinner shows exactly while loading a still-empty list, so it never hides campaigns already shown |
| CampaignList.CampaignListView.CloseDialog | src/pages/user/CampaignList.tsx:80-82 | closing the confirmation dialog clears the selection |
| CampaignList.CampaignListView.CloseResultDialog | src/pages/user/CampaignList.tsx:84-86 | closing the result dialog clears the result |
| CampaignList.CampaignListView.ParticipateClick | src/pages/user/CampaignList.tsx:53-55 | only a campaign that can be joined is ever selected |
| CampaignList.CampaignListView.ConfirmParticipation | src/pages/user/CampaignList.tsx:58-77 | with a selection, one request for that campaign and a user id in 1..100000 is sent; a success shows the server's message, clears the selection and reloads; a failure shows the text as the page computes it from the thrown value, which is always the fallback, and keeps the selection; participating is off afterwards |
| LandingPage.Preview | src/pages/user/LandingPage.tsx:27 | the preview is a prefix of the list holding min(n, 3) campaigns |
| LandingPage.PreviewKeepsHead | src/pages/user/LandingPage.tsx:27 | each of the first three campaigns is shown in its place |
| LandingPage.Settle | src/pages/user/LandingPage.tsx:24-33 | loading ends either way; a success shows the preview of the list and a failure keeps what was shown |
| LandingPage.FailedLoadShowsNothing | src/pages/user/LandingPage.tsx:28-31 | a failed first load leaves an empty preview and loading false |
| LandingPage.PreviewCards | src/pages/user/LandingPage.tsx:256-268 | exactly three skeleton cards show while loading, and the preview's cards otherwise |
| LandingPage.SettledPreviewCards | src/pages/user/LandingPage.tsx:256-268 | once the load has settled, at most three campaign cards show |

## Left out

- Rendering is not modelled: JSX layout, MUI components, charts, toasts, console logging and routing. The messages shown only in toasts are not modelled either.
- Timers are not modelled as running concurrently. Each interval or timeout firing is one method call, run to completion. Three things are therefore out of scope:
  - a poll still in flight when its interval is cleared;
  - the monitor's effect being torn down and recreated after every tick;
  - the five-second reload of the campaign lists, which simply calls `Load` again.
- RealtimeMonitoring.Monitor.Tick: reads the clock once, as `now`, where the source reads it three times. It also requires `now` to be after the previous sample. When no time has elapsed, the source divides by zero and shows `Infinity` or `NaN`. The clock text is an input.
- Floating-point arithmetic is modelled as exact `real` and `int`: TPS, percentages, success rate and metrics. `toFixed`/`toLocaleString` formatting and the "Kafka N배 빠름" ratio are left out, and so is `-0`.
- CampaignRules.StockPercentage: gives `None` for a zero total, where JavaScript gives `NaN` (0 / 0) or `Infinity`. The model does not tell those two apart.
- JsValues.ParseInt: reads digit strings of any length exactly. JavaScript rounds values beyond 2^53.
- BatchManagement.Duration: takes the start and end as milliseconds. Parsing the ISO texts with `new Date` (and the `NaN` an invalid text gives) is left out.
- The API barrel src/api/index.ts re-exports three names its modules never define: `simulateParticipation` (:17, absent from src/api/batch.ts), and `getDailyPerformanceStats` and `getRawPerformanceStats` (:22-23, absent from src/api/stats.ts). Under ES module linking, which the Vite setup of src/api/client.ts:6 uses, a missing named re-export is a link error. So, as written, every modelled page importing `'../../api'` fails to load: src/pages/user/CampaignList.tsx:20, src/pages/user/CampaignListPage.tsx:21, src/pages/admin/CampaignManagement.tsx:25, src/pages/user/LandingPage.tsx:17 and src/pages/admin/BatchManagement.tsx:24. src/App.tsx imports three of them statically (:3-7), so its module graph does not link either. The model assumes the barrel links.
- BatchManagement.BatchPage: models `handleSimulate` and `loadHistory` as if the page rendered. As written it cannot: src/pages/admin/BatchManagement.tsx never imports `useState` or `useEffect` (lines 1-27) although it calls them (:31-42, :90), and its markup reads the undeclared `executing` (:150, :152) and `success` (:218). The page is routed (src/App.tsx:21), so its first render throws a ReferenceError and no handler of it is ever reached. The model assumes the hooks imported and the page on screen.
- `handleExecute` and its success alert (src/pages/admin/BatchManagement.tsx:95-111) are left out. They use state that the file never declares, so they cannot be modelled faithfully.
- The backend calls are inputs, as their outcomes (`Fetched`): the axios transport, its base URL, headers and timeout, and the endpoint wrappers in src/api/campaigns.ts, src/api/batch.ts, src/api/participation.ts and src/api/loadTest.ts. Only the outcome of `simulateParticipation` is modelled, since no file defines it.
- The request interceptor's error handler (src/api/client.ts:17-19) is left out. It passes an error on unchanged.
- The text of the `TypeError` that a null or undefined error body raises is engine-specific and is not modelled.
- Plain assignments from input fields and the mode switch are not modelled as methods; the fields they set are fields of the page classes, assigned directly: the campaign id of the monitor and of the load-test page, the user count, the simulator inputs and `autoMode`. The virtual user input that only automatic mode shows is not modelled.
- The statistics page, the campaign detail and trend pages, and the performance test page are left out. They fetch and display data with only null checks.

## Findings

| source | as written | input that shows it | evidently intended | confidence | as-written member | corrected member |
|---|---|---|---|---|---|---|
| src/pages/user/CampaignList.tsx:70-73 | the failure text is `err.response?.data?.error` or the fallback. Every rejection from the client is an `ApiError`, or a `TypeError` for a null body. Neither has a `response` property, so the fallback always shows. src/pages/user/CampaignListPage.tsx:73 builds its error toast the same way. | a participation the server rejects with status 409 and the message "이미 참여한 캠페인입니다." shows "참여 요청 중 오류가 발생했습니다." (lemma `CampaignList.AsWrittenAlwaysFallback`) | show the server's explanation, which the client has placed in `ApiError.message` | medium, not executed | CampaignList.ParticipationFailureAsWritten | CampaignList.ParticipationFailureText |
