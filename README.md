# api_proxy_logs — a Dafny model of the proxy-and-logging pipeline

`api_proxy_logs` is an Express service. It forwards every client request to one fixed upstream
API. It writes the upstream's answer back to the client and only then schedules a row in the
MySQL table `api_logs`. Admin routes behind HTTP Basic authentication page through the logged rows
and aggregate them.

This project models the four files that carry that behaviour. Each module proves properties of its
model.

| module | file | source | form |
|---|---|---|---|
| `Js` | `js.dfy` | the JavaScript semantics the core relies on | functions and lemmas over a `Value` datatype |
| `LogSql` | `log_sql.dfy` | `src/models/logModel.js` (shared SQL vocabulary) | datatypes, functions, two small builder methods |
| `LogWriter` | `log_writer.dfy` | `src/models/logModel.js` (`saveLog`, `stringifyBody`, `generateRequestId`) | pure functions and lemmas |
| `LogQuery` | `log_query.dfy` | `src/models/logModel.js` (`getLogs`) | methods that grow the WHERE clause and its parameters, proved against functions |
| `LogStats` | `log_stats.dfy` | `src/models/logModel.js` (`getStats` and the three fixed statements) | a builder method and functions |
| `Http` | `http.dfy` | the Express response the routes write to | a `Trace` class whose `events` field the methods append to |
| `ProxyService` | `proxy_service.dfy` | `src/services/proxyService.js` | a `ProxyService` class and pure functions |
| `ProxyRoutes` | `proxy_routes.dfy` | `src/routes/proxyRoutes.js` | methods over a `Trace`, proved against trace functions |
| `AdminRoutes` | `admin_routes.dfy` | `src/routes/adminRoutes.js` | the `basicAuth` method and pure functions |

Modelling choices:

- **JavaScript values.** A value is `Undefined`, `Null`, `Bool`, an integer `Num`, `NaN`, `Str`,
  `Arr` or `Obj`. Truthiness, `||`, `String()`, `parseInt`, `trim`, `replace`, `split`,
  `toLowerCase`/`toUpperCase` on ASCII letters and `Buffer.byteLength` are defined in `Js`.
- **Opaque operations become parameters.** The upstream call (axios) is a function from the request
  configuration to an `Outcome`. `JSON.stringify` and base64 decoding are also functions. The clock,
  the random id suffix and the environment variables are plain inputs.
- **The response as a trace.** What a route does to an Express response is a sequence of events:
  headers set, one body sent, and the log write scheduled with `setImmediate`.
- **Status codes.** `res.status(v).send(...)` with a status outside 100..999 throws when Node writes
  the head. The model throws "Invalid status code: " followed by the value.
- **SQL.** Each statement is a text plus its bound parameters. The proofs count the `?` placeholders
  against the parameters. `Holds` gives each condition its MySQL meaning on a stored row, so the
  clause `getLogs` builds is proved to select exactly the rows its filters describe when the path
  filter holds no LIKE special character. `pool.query` writes a NaN parameter into the text as the
  bare word `NaN`, so such a statement fails with MySQL's unknown-column error; `GetLogs` models
  that failure.
- **Upstream error statuses.** `forwardRequest` sets no `validateStatus` option, so axios rejects
  4xx/5xx replies and the code takes its error branch with `success = false`. Which statuses
  reject is left to the upstream parameter: a `Rejected` outcome may carry the upstream's reply.

## Model

| member | source | states |
|---|---|---|
| Js.ParsedOr | src/routes/adminRoutes.js:42-43 | `parseInt(v) \|\| d` is the parsed integer unless parsing gives NaN or 0, in which case it is the default |
| Js.ParseIntNum | src/models/logModel.js:73-74 | parsing an integer that was already parsed gives it back, so the route's and the store's parsing agree |
| Js.Split | src/routes/adminRoutes.js:18-20 | `split` gives at least one piece, no piece contains the separator, and joining the pieces gives the input back |
| Js.SplitJoin | src/routes/adminRoutes.js:20 | splitting a join of separator-free pieces gives the pieces back |
| Js.ReplaceFirst | src/models/logModel.js:111 | `replace('T', ' ')` changes only the first `T`, and keeps the length |
| Js.TrimSlice | src/models/logModel.js:83-86 | `trim` keeps one contiguous slice and removes only white space around it |
| Js.TrimNoOuterSpace | src/models/logModel.js:83-86 | a trimmed filter neither starts nor ends with white space |
| Js.TrimIdempotent | src/models/logModel.js:83-86 | trimming a trimmed filter changes nothing |
| Js.ToLowerAscii | src/services/proxyService.js:35 | the lower-cased method has the same length, holds no capital letter, turns each capital into its small letter and keeps every other character |
| Js.UpperOfLower | src/services/proxyService.js:35-43 | upper-casing the lower-cased method equals upper-casing it directly |
| Js.Utf8Length | src/models/logModel.js:302 | the UTF-8 length lies between the character count and four times it |
| Js.Utf8LengthAppend | src/models/logModel.js:302 | the UTF-8 length of a concatenation is the sum of the lengths |
| LogSql.Args | src/models/logModel.js:80-123 | the parameters are one per condition, each the condition's value, in the order added |
| LogSql.WhereSnoc | src/models/logModel.js:79-123 | adding one condition appends exactly its fragment to the clause and its value to the parameters |
| LogSql.AddCondition | src/models/logModel.js:85-86 | `whereClause +=` and `push` leave the text and parameters of the conditions so far plus the new one |
| LogSql.AddWhen | src/models/logModel.js:181-196 | a guarded `+=`/`push` adds the condition exactly when its guard holds |
| LogSql.StatementPlaceholders | src/models/logModel.js:129-145 | a `?`-free head and tail around the clause give exactly one placeholder per bound parameter |
| LogSql.EscapeLike | src/models/logModel.js:92 | escaping leaves a text without LIKE-special characters unchanged |
| LogSql.LikeContains | src/models/logModel.js:91-92 | `LIKE '%x%'` is substring search for `x` when `x` has no `%`, `_` or `\` |
| LogSql.LikeContainsEscaped | src/models/logModel.js:91-92 | with `x` escaped, `LIKE '%x%'` is substring search for every `x` |
| LogWriter.StringifyBody | src/models/logModel.js:284-307 | null exactly for null and undefined; otherwise the whole text, or the marker when its UTF-8 length exceeds 16 MiB |
| LogWriter.MarkerLength | src/models/logModel.js:303 | the marker is 12 bytes of UTF-8 |
| LogWriter.StoredBodyBounded | src/models/logModel.js:300-306 | a stored body never exceeds 16 MiB and is the whole text or the marker, never a cut-down text |
| LogWriter.LongBodyIsMarked | src/models/logModel.js:301-303 | a body of more than 16 Mi characters is always stored as the marker |
| LogWriter.StringifyBodyIdempotent | src/models/logModel.js:284-307 | passing a stored body through `stringifyBody` again gives it back unchanged |
| LogWriter.GenerateRequestId | src/models/logModel.js:276-278 | the id is non-empty, does not start with a dash, and ends with a dash and the random suffix |
| LogWriter.RequestIdDeterminesParts | src/models/logModel.js:276-278 | equal ids have equal clock readings and equal suffixes, so ids from different milliseconds never collide |
| LogWriter.SaveLogParams | src/models/logModel.js:39-56 | a row exists exactly when serialising the query and both header maps does not throw |
| LogWriter.SaveLogTexts | src/models/logModel.js:13-44 | 15 parameters; id, method, URL and path as given when truthy and '' otherwise; the generated id only when the id is undefined |
| LogWriter.SaveLogClient | src/models/logModel.js:54-55 | the IP address and user agent as given when truthy and '' otherwise |
| LogWriter.SaveLogSerialised | src/models/logModel.js:45-50 | query and header maps are null exactly when falsy; bodies are null exactly when null or undefined and are otherwise what `stringifyBody` gives |
| LogWriter.SaveLogOutcome | src/models/logModel.js:48-53 | a falsy status is stored as null and a falsy duration as 0; success is 1 exactly when truthy; a falsy error message is stored as null |
| LogWriter.InsertIntoPlaceholders | src/models/logModel.js:31-37 | an INSERT over `?`-free column names has one placeholder per column |
| LogWriter.InsertBindsRow | src/models/logModel.js:31-56 | the INSERT's placeholders equal the number of row parameters |
| LogWriter.StoredRequestId | src/models/logModel.js:13-14 | a record with a non-empty id is stored under it, and one without an id under the generated id |
| LogQuery.PageNumber | src/models/logModel.js:73 | the page is at least 1: the parsed page when it is at least 1, and 1 otherwise |
| LogQuery.PageSize | src/models/logModel.js:74 | the size is between 1 and 100: the parsed value when in range, 100 above, 1 for a negative value, 20 for NaN or 0 |
| LogQuery.Offset | src/models/logModel.js:139 | the offset is the number of rows on the earlier pages, never negative |
| LogQuery.TotalPages | src/models/logModel.js:151 | the pages hold every row, and the last page is not empty |
| LogQuery.PageOf | src/models/logModel.js:140 | a page never holds more than the page size |
| LogQuery.FirstPagesPrefix | src/models/logModel.js:139-140 | pages 1..k laid end to end are the first k·size rows |
| LogQuery.PagesCoverRows | src/models/logModel.js:139-151 | walking pages 1..totalPages lists every row exactly once, in order |
| LogQuery.PaginationExample | src/models/logModel.js:139-151 | 25 rows in pages of 10: three pages, the second is rows 10..19, the third holds five |
| LogQuery.AddMethodFilter | src/models/logModel.js:83-87 | the clause and parameters gain the trimmed method condition exactly when a non-blank method is given |
| LogQuery.AddPathFilter | src/models/logModel.js:89-93 | the same for the `%path%` LIKE condition |
| LogQuery.AddStatusFilter | src/models/logModel.js:95-100 | the same for the parsed status, given when not undefined, null or '' |
| LogQuery.AddSuccessFilter | src/models/logModel.js:102-107 | the same for the success flag: 1 for 'true' or true, 0 otherwise |
| LogQuery.AddStartFilter | src/models/logModel.js:109-115 | the same for the normalised lower time bound |
| LogQuery.AddEndFilter | src/models/logModel.js:117-123 | the same for the normalised upper time bound |
| LogQuery.BuildLogsWhere | src/models/logModel.js:79-123 | the clause and parameters built step by step are those of the listing's conditions, in order |
| LogQuery.LogsConditionCount | src/models/logModel.js:83-123 | each given filter adds one condition and one parameter, and an absent one adds none |
| LogQuery.BlankFiltersIgnored | src/models/logModel.js:83-123 | absent, empty or blank filters leave `WHERE 1=1` with no parameter |
| LogQuery.GivenTrimmed | src/models/logModel.js:83 | a text filter counts as given exactly when its trimmed text does |
| LogQuery.TrimmedFiltersSameConditions | src/models/logModel.js:83-123 | trimming the filters beforehand yields the same conditions |
| LogQuery.NormalizeLocalDateTime | src/models/logModel.js:109-123 | a `datetime-local` value `<date>T<time>` becomes the timestamp `<date> <time>:00` |
| LogQuery.Select | src/models/logModel.js:129-145 | a row is selected exactly when it is in the table and satisfies every condition, and never more rows than the table |
| LogQuery.SelectAppend | src/models/logModel.js:129-145 | selection keeps table order: selecting from two runs of rows is selecting from each in turn |
| LogQuery.SelectCounts | src/models/logModel.js:135-136 | each row is selected as often as it occurs in the table when it satisfies every condition, and never otherwise |
| LogQuery.SelectCountsMatchingRows | src/models/logModel.js:135-136 | the counted rows are the table's rows that satisfy the filters, each with its multiplicity in the table |
| LogQuery.GetLogs | src/models/logModel.js:70-160 | a NaN parameter makes the count statement fail with MySQL's unknown-column error and the page is never fetched; otherwise both statements share the clause and parameters, the total is the number of selected rows, the data is the clamped page of them, and totalPages is computed from the total |
| LogQuery.LogsParamsBindable | src/models/logModel.js:95-100 | the statements fail exactly when a status filter is given that parses to NaN |
| LogQuery.LogsStatementsBindParams | src/models/logModel.js:129-145 | count and page statements each hold exactly as many `?` as parameters; LIMIT and OFFSET add none |
| LogQuery.MethodCondMeaning | src/models/logModel.js:83-87 | the method condition holds exactly for rows with the trimmed method |
| LogQuery.PathCondMeaning | src/models/logModel.js:89-93 | for a filter without `%`, `_` or `\`, the path condition holds exactly for rows whose path contains the trimmed text |
| LogQuery.StatusCondMeaning | src/models/logModel.js:95-100 | for a status that parses to an integer, the status condition holds exactly for rows with that status |
| LogQuery.SuccessCondMeaning | src/models/logModel.js:102-107 | the success condition holds exactly for rows whose flag is 1 for 'true'/true and 0 otherwise |
| LogQuery.StartCondMeaning | src/models/logModel.js:109-115 | the start condition holds exactly for rows created at or after the normalised bound |
| LogQuery.EndCondMeaning | src/models/logModel.js:117-123 | the end condition holds exactly for rows created at or before the normalised bound |
| LogQuery.LogsClauseMeaning | src/models/logModel.js:79-123 | the whole clause selects exactly the rows that match every filter |
| LogQuery.PageWithinCount | src/models/logModel.js:129-153 | the page is a slice of the counted rows, no longer than the page size, and every row on it matches the filters |
| LogQuery.PathPatternOverMatches | src/models/logModel.js:89-93 | as written, the filter `a_c` selects the path `abc`, which does not contain `a_c` |
| LogQuery.EscapedPathPatternIsSubstring | src/models/logModel.js:89-93 | with the pattern escaped, the path filter is exactly substring search for the trimmed text |
| LogStats.BuildStatsQuery | src/models/logModel.js:166-202 | the statement is the select, one condition per truthy filter, then the grouping tail; the parameters are those conditions' values |
| LogStats.StatsPathPatternOverMatches | src/models/logModel.js:189-192 | as written, the summary's filter `a_c` keeps the path `abc`, which does not contain `a_c` |
| LogStats.EscapedStatsPathPatternIsSubstring | src/models/logModel.js:189-192 | with the pattern escaped, the summary's path filter is exactly substring search for the text as given |
| LogStats.StatsParamsBound | src/models/logModel.js:179-196 | the bound values are the truthy filters themselves, untrimmed, in the order start, end, `%path%`, method |
| LogStats.StatsQueryBindsParams | src/models/logModel.js:169-198 | the statement holds exactly one `?` per parameter, one per truthy filter |
| LogStats.RangeStart | src/models/logModel.js:221 | a truthy start bound is kept; otherwise 1970-01-01 |
| LogStats.RangeEnd | src/models/logModel.js:221 | a truthy end bound is kept; otherwise 2030-12-31 |
| LogStats.StatusCodeQuery | src/models/logModel.js:207-224 | the range pair is bound twice, for the total and for the grouped rows |
| LogStats.TopLimit | src/models/logModel.js:230-246 | the limit defaults to 10 only when undefined; otherwise it is `parseInt` of the given value |
| LogStats.TopPathsQuery | src/models/logModel.js:229-249 | three `?` for three parameters: each date as given when truthy, else 1970-01-01 and 2030-12-31, then 10 for an undefined limit and otherwise the parsed limit |
| LogStats.HourlyQuery | src/models/logModel.js:254-271 | two `?` for two parameters: each date as given when truthy, else 1970-01-01 and 2030-12-31 |
| LogStats.FixedStatementDefaults | src/models/logModel.js:221-268 | without a range every fixed statement covers 1970-01-01..2030-12-31, and the top paths keep ten |
| LogStats.StatusCodeBindsParams | src/models/logModel.js:210-221 | the status-code statement holds exactly as many `?` as parameters |
| Http.Trace.SetHeader | src/routes/proxyRoutes.js:48 | one header event is appended and nothing else changes |
| Http.Trace.Send | src/routes/proxyRoutes.js:51 | a valid status appends the send; an invalid one throws "Invalid status code: …" and sends nothing |
| Http.Trace.Json | src/routes/proxyRoutes.js:94-97 | one JSON answer is appended |
| Http.Trace.ScheduleLog | src/routes/proxyRoutes.js:68-90 | the deferred log write is appended after everything already done |
| ProxyService.TargetUrl | src/services/proxyService.js:30 | the URL ends with the path; a configured target is its prefix, and an unset one prints as "undefined" |
| ProxyService.ConfigFor | src/services/proxyService.js:34-45 | lower-cased method, target URL, headers and params defaulting to `{}`, 30 s timeout, and a body exactly for a non-GET method with a truthy body |
| ProxyService.EnvelopeOf | src/services/proxyService.js:56-103 | success exactly for a completed call and the error exactly for a failure; a completed reply is copied; a failure keeps only the truthy reply fields and nulls the rest |
| ProxyService.ProxyService.constructor | src/services/proxyService.js:9-11 | the service keeps the configured target URL |
| ProxyService.ProxyService.BuildConfig | src/services/proxyService.js:34-45 | the object built in place and then given `data` equals the configuration above |
| ProxyService.ProxyService.ForwardRequest | src/services/proxyService.js:23-105 | the result is the envelope of the upstream's outcome for that configuration, timed by the two clock readings |
| ProxyService.ProxyService.HealthCheck | src/services/proxyService.js:111-121 | healthy exactly when the 5-second GET of the bare target completes with status 200 |
| ProxyService.GetCarriesNoBody | src/services/proxyService.js:43-45 | a GET in any letter case carries no body; any other method carries exactly its truthy bodies |
| ProxyService.ConfigIsNormalised | src/services/proxyService.js:34-40 | headers and params are always truthy, and the method is already lower case |
| ProxyService.RejectedFieldsNullOrTruthy | src/services/proxyService.js:96-100 | in a failure's response every field is null or truthy, and a reply-less failure has a falsy status |
| ProxyService.HealthOnlyOnCompleted200 | src/services/proxyService.js:113-120 | a rejected probe is unhealthy, and a completed one is healthy only with status 200 |
| ProxyRoutes.HeaderEvents | src/routes/proxyRoutes.js:47-49 | one header event per listed name, in order, each with the value held under that name |
| ProxyRoutes.LogRecord | src/routes/proxyRoutes.js:70-86 | a record is built exactly when the envelope has a response object |
| ProxyRoutes.RelayHeaders | src/routes/proxyRoutes.js:47-49 | the `forEach` loop sets every header of the response in order |
| ProxyRoutes.RelayResponse | src/routes/proxyRoutes.js:47-51 | headers, then status and data, or the throw for an invalid status |
| ProxyRoutes.WriteAnswer | src/routes/proxyRoutes.js:45-65 | the answer written is the one the as-written branches describe, including the throws |
| ProxyRoutes.WriteAnswerCorrected | src/routes/proxyRoutes.js:52-64 | the same with a failure relayed only when its response carries a status |
| ProxyRoutes.Conclude | src/routes/proxyRoutes.js:68-98 | a throw becomes the 500 JSON answer; otherwise the log write is scheduled with the record |
| ProxyRoutes.HandleProxyRequest | src/routes/proxyRoutes.js:27-99 | the events are those of the envelope for the forwarded call, under the request id from the clock and the suffix |
| ProxyRoutes.HandleProxyRequestCorrected | src/routes/proxyRoutes.js:27-99 | the same with the corrected relay guard |
| ProxyRoutes.Health | src/routes/proxyRoutes.js:11-22 | one 200 JSON answer carrying the probe's verdict, the time and the target |
| ProxyRoutes.EveryHeaderRelayed | src/routes/proxyRoutes.js:47-49 | for distinct header names, every upstream header reaches the client with its own value, in order; null headers set none |
| ProxyRoutes.ForwardedAlwaysRelayed | src/routes/proxyRoutes.js:52-64 | the forwarder always returns a response object, so the plain-text 500 branch is never taken |
| ProxyRoutes.CompletedIsRelayed | src/routes/proxyRoutes.js:45-51 | a completed call reaches the client unchanged (headers, status, data), then the log write is scheduled |
| ProxyRoutes.RejectedReplyIsRelayed | src/routes/proxyRoutes.js:52-60 | a rejected call with a reply is relayed with falsy fields as null, then logged |
| ProxyRoutes.ReplylessFailureDropsLog | src/routes/proxyRoutes.js:52-98 | as written, a call with no reply ends in the 500 JSON "Invalid status code: null" and no log write |
| ProxyRoutes.CorrectedAlwaysLogs | src/routes/proxyRoutes.js:52-90 | corrected, every call ends with a scheduled log record and never the 500 JSON; a reply-less failure sends its message as a 500; every other outcome is unchanged |
| ProxyRoutes.RespondSends | src/routes/proxyRoutes.js:45-65 | an answer that does not throw ends with its one send after headers only; one that throws has set only headers |
| ProxyRoutes.FinishOrdered | src/routes/proxyRoutes.js:67-98 | given such an answer, the trace holds exactly one answer, and a log write is scheduled only as the last event |
| ProxyRoutes.AnswerBeforeLog | src/routes/proxyRoutes.js:44-90 | for every envelope, as written and corrected alike, the client's answer comes before the log write |
| ProxyRoutes.LoggedRow | src/routes/proxyRoutes.js:70-86 | the stored row has the handler's request id, success 1 exactly for a completed call, the upstream status whenever there was a reply, the error message only for a failure, and the user agent or '' |
| AdminRoutes.ValidUsername | src/routes/adminRoutes.js:22 | the configured user name when set and non-empty, otherwise `admin` |
| AdminRoutes.ValidPassword | src/routes/adminRoutes.js:23 | the configured password when set and non-empty, otherwise `admin123` |
| AdminRoutes.Token | src/routes/adminRoutes.js:18 | the token taken after `Basic ` contains no space |
| AdminRoutes.Authorize | src/routes/adminRoutes.js:10-31 | a missing or non-Basic header gives "authentication required"; otherwise access is granted or "authentication failed" |
| AdminRoutes.BasicAuth | src/routes/adminRoutes.js:10-31 | granted exactly as decided, leaving the response alone; a refusal sets the challenge header and answers 401 with the reason |
| AdminRoutes.ColonNeverMatches | src/routes/adminRoutes.js:20-25 | a configured user name or password containing ':' can never be matched |
| AdminRoutes.GrantedExactly | src/routes/adminRoutes.js:18-30 | with colon-free credentials, access is granted exactly when the decoded token is `user:password`, optionally followed by ':' and anything |
| AdminRoutes.AcceptedExactly | src/routes/adminRoutes.js:20-25 | the comparison of the first two ':'-pieces holds exactly for `u:p` and `u:p:…` |
| AdminRoutes.LogsParamsOf | src/routes/adminRoutes.js:41-50 | page and size are the parsed values when those are non-zero, and 1 and 20 for NaN or 0; method, path and both dates pass through as given; the status is parsed only when truthy; the success flag is kept only when present, and is true exactly for 'true' |
| AdminRoutes.LogsRoutePaging | src/routes/adminRoutes.js:42-43 | the route's defaults agree with the store's clamping: the same page and size as parsing the raw query |
| AdminRoutes.LogsRouteSuccess | src/routes/adminRoutes.js:49 | no success condition when absent; successes for 'true'; failures for any other text, 'false' included |
| AdminRoutes.LogsRouteStatus | src/routes/adminRoutes.js:46 | no status condition for an empty or absent status; otherwise the parsed value, NaN included |
| AdminRoutes.StatsRouteFilters | src/routes/adminRoutes.js:74-79 | `/stats` filters by exactly the truthy query fields, so an empty start date adds nothing |
| AdminRoutes.TopPathsLimit | src/routes/adminRoutes.js:170 | the limit is the parsed value unless that is NaN or 0, in which case it is 10 |
| AdminRoutes.TopPathsRouteLimit | src/routes/adminRoutes.js:165-173 | the statement the route runs always binds a non-zero integer limit |
| AdminRoutes.Today | src/routes/adminRoutes.js:101 | today's date is the whole text of the ISO timestamp before its first `T` (all of it when there is none) |
| AdminRoutes.OverviewFiltersToday | src/routes/adminRoutes.js:101-105 | the overview filters by creation time only, from 00:00:00 to 23:59:59 of that day |
| AdminRoutes.OverviewOf | src/routes/adminRoutes.js:107-124 | the first row of the day or all zeros; the rate is 0 exactly when there were no requests, otherwise successes over total |

## Left out

- The database. Statements are not executed. MySQL's ordering, collation, `AVG`, `ROUND` and
  grouping are not modelled. `LogQuery.Select` takes the table to be in `created_at DESC` order
  already.
- The average in the overview is taken as already rounded. `Math.round` and the two-decimal
  `toFixed` rate formatting are not modelled: `Rate` keeps the two integers.
- Numbers that are not integers, and floating point in general. `Value.Num` holds an integer.
- `JSON.stringify`, base64 decoding and the upstream HTTP call are function parameters. Their own
  behaviour (cycles, `toJSON`, axios redirects, header validation) is not modelled. Node's coercion
  of numeric-string statuses is not modelled either.
- `Date.now()`, `Math.random().toString(36).substring(7)`, `new Date().toISOString()` and
  `process.env` are inputs to the model.
- The logger and the `console.log` calls (in `getLogs` and the `/logs` route) only print, and are
  left out.
- `setImmediate` concurrency. The model keeps the order: the answer first, then the scheduled
  write. It keeps the record handed to `saveLog`. A failure of the write itself is caught and only
  logged, and is not modelled.
- The admin routes' `res.json({success, ...})` wrapping and their 500 catch blocks are not
  modelled. The `/stats/status-codes` and `/stats/hourly-trend` routes only pass
  `startDate`/`endDate` through, so `StatusCodeQuery` and `HourlyQuery` cover them.
- Query-string arrays (a repeated key) and non-string text filters. Their `.trim()` would throw.
  `LogsParams` holds the text filters as strings.
- `Object.keys` of a non-object headers value lists no names in the model.
- Thrown `TypeError` messages use V8's wording, and the status error uses Node's wording.
- The health route's JSON drops an undefined `url` when serialised. The model keeps the field as
  `Undefined`.
- `src/app.js`, `src/config/logger.js` and `src/scripts/initDatabase.js` are not part of this model.
- Case mapping covers ASCII letters only. Other letters keep their case in the model.
- LogQuery.LogsClauseMeaning: proved only for a path filter whose trimmed text has no `%`, `_` or
  `\`. For other filters the clause over-matches; see the findings.
- LogQuery.PageWithinCount: carries the same restriction on the path filter, because it uses
  `LogsClauseMeaning`.
- LogQuery.PathCondMeaning: proved only for a path filter whose trimmed text has no `%`, `_` or
  `\`. Other filters over-match, as the findings show.
- LogQuery.SelectCountsMatchingRows: carries the same restriction on the path filter, because it
  uses `LogsClauseMeaning`.
- LogQuery.StatusCondMeaning: for a status that parses to NaN it says that no row matches. The
  statement never runs then, and `GetLogs` and `LogsParamsBindable` state the failure.
- AdminRoutes.TopPathsRouteLimit: promises a non-zero integer limit, not a positive one. A negative
  `limit` such as `-5` is bound as `LIMIT -5`, which MySQL rejects, so the route answers 500; the
  database's rejection is not modelled.
- Statement texts match the source up to white space. The multi-line template strings are written
  with their white space collapsed, and `INSERT` lists its columns joined by `,`.

## Findings

| source | as written | input that shows it | evidently intended | confidence | as-written member | corrected member |
|---|---|---|---|---|---|---|
| src/routes/proxyRoutes.js:52-60 | a failure is relayed whenever `result.response` is truthy, but the forwarder always returns a response object, so a reply-less failure relays status `null`. `res.status(null)` throws, the catch sends a 500 JSON "Invalid status code: null", and the log write is never scheduled | an upstream that refuses the connection or times out | such a failure answers 500 with the error message (lines 61-64) and is logged with success false | not executed | ProxyRoutes.ReplylessFailureDropsLog | ProxyRoutes.CorrectedAlwaysLogs |
| src/models/logModel.js:89-93 | the path filter is bound as `%<text>%` without escaping, so `_` and `%` in the filter act as wildcards | filter `a_c` lists a row whose path is `abc` | substring search for the filter text | not executed | LogQuery.PathPatternOverMatches | LogQuery.EscapedPathPatternIsSubstring |
| src/models/logModel.js:189-192 | `getStats` binds its path filter as `%<text>%` without escaping, so `_` and `%` in the filter act as wildcards | filter `a_c` counts a row whose path is `abc` | substring search for the filter text | not executed | LogStats.StatsPathPatternOverMatches | LogStats.EscapedStatsPathPatternIsSubstring |
