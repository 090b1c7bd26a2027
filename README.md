# server-math-web quiz backend: a Dafny model of its core

The service runs timed maths quizzes over HTTP. Its core is modelled here:

- the in-memory **request-metrics collector**: a bounded, insertion-ordered list of request records pruned to a 60-second sliding window, from which snapshots are computed. A snapshot has totals, 5xx errors, min, max and mean latency, p50/p95/p99, per-status counts and per-endpoint statistics.
- the **endpoint path normalisation** that produces the collector's grouping keys: `/` plus digits becomes `/:id`, then the path is cut at `?`.
- the **pure game rules**: player-name sanitising, answer grading with its speed bonus, and arithmetic and linear-equation question construction, with the random draws given as parameters.
- the **leaderboard arithmetic and read-through caching**: limit, offset and page, the cache key, ranks and `hasMore`.
- the admin dashboard's **peak-hour fold and accuracy ratios**.
- the GenAI client's **default time limits and endpoint URL**.
- the **error-class table**.
- the **admin API-key decision**.

Each core file has its own module:

| file | module | form |
|---|---|---|
| `wrappers.dfy` | `Wrappers` | `Option` and `Result` |
| `text.dfy` | `Text` | JavaScript `trim`, `\s`, `\d` and `String(n)` for integers |
| `collections.dfy` | `Collections` | subsequences, `filter`, sum, numeric sort, map sums, the group-by and tally dictionaries built by `forEach` |
| `metrics_service.dfy` | `MetricsService` | class `MetricsCollector` with a `seq` field; the snapshot's three `forEach` loops as methods |
| `path_normalize.dfy` | `PathNormalize` | functions and lemmas |
| `sanitize.dfy` | `Sanitize` | functions and lemmas |
| `quiz.dfy` | `Quiz` | shared types; `randInt` over a draw in [0, 1) |
| `scoring.dfy` | `Scoring` | functions and lemmas |
| `arithmetic_generator.dfy` | `ArithmeticGenerator` | functions and lemmas |
| `equation_generator.dfy` | `EquationGenerator` | the rejection loop as a method, proved against a function |
| `leaderboard.dfy` | `Leaderboard` | functions and lemmas; the cache is a map argument |
| `admin_analytics.dfy` | `AdminAnalytics` | functions and lemmas |
| `genai.dfy` | `GenAI` | functions and lemmas |
| `errors.dfy` | `Errors` | the `AppError` classes as one datatype plus constructors |
| `admin_auth.dfy` | `AdminAuth` | a function returning `Allow` or `Reject` |

## Model

| member | source | states |
|---|---|---|
| MetricsService.MetricsCollector.constructor | src/services/metrics.service.ts:31-35 | A new collector has no records and starts its uptime clock at `now`. |
| MetricsService.MetricsCollector.RecordRequest | src/services/metrics.service.ts:37-53 | Given the size bound, the new list is `Pruned(old list + [the record stamped now], now)`. The start time is unchanged and the size bound still holds. |
| MetricsService.PrunedAfterPush | src/services/metrics.service.ts:37-53 | After a push and a prune: at most 10 000 records remain, all strictly newer than `now - 60000`, in their original order. The record just pushed survives and is last. |
| MetricsService.Pruned | src/services/metrics.service.ts:46-52 | The list kept after a push: at most 10 000 records, no more than were pushed, every one with `timestamp > now - 60000` (strict). |
| MetricsService.PrunedInOrder | src/services/metrics.service.ts:46-52 | The kept records are an in-order subsequence of the pushed list. |
| MetricsService.PrunedKeepsNewest | src/services/metrics.service.ts:50-52 | Of the in-window records, exactly the newest `min(count, 10000)` are kept: a suffix of them. |
| MetricsService.PrunedKeepsLast | src/services/metrics.service.ts:38-47 | A record stamped `now` and appended last survives pruning and stays last. |
| MetricsService.MetricsCollector.GetSnapshot | src/services/metrics.service.ts:55-124 | For a collector within its size bound, returns `SnapshotOf(records, startTime, now)`. It has no `modifies` clause, so the records and start time are unchanged. |
| MetricsService.Recent | src/services/metrics.service.ts:56-58 | The window filter: the kept records are an in-order subsequence of the list, each with `timestamp >= now - 60000` (inclusive), and every such record of the list is kept. |
| MetricsService.SnapshotOf | src/services/metrics.service.ts:55-124 | The report getSnapshot returns: `totalRequests` is the window size, `totalErrors` is at most that, `uptime = now - startTime`, the timestamp is `now`, and an empty window gives the empty report. |
| MetricsService.WindowReport | src/services/metrics.service.ts:64-123 | The report over a non-empty window: `totalRequests` is its size, `totalErrors` is at most that, `uptime = now - startTime` and the timestamp is `now`. Its latency fields are ordered by `SnapshotLatencyOrder`. |
| MetricsService.SnapshotCountsWindow | src/services/metrics.service.ts:56-58 | `totalRequests` counts exactly the records with `timestamp >= now - 60000` (inclusive). Every such record is counted, and no older one. |
| MetricsService.PrunedIsRecent | src/services/metrics.service.ts:47 | Everything `recordRequest` keeps is inside the window `getSnapshot` uses at the same time: the strict and inclusive filters agree on pruned lists. |
| MetricsService.EmptySnapshot | src/services/metrics.service.ts:126-143 | The empty report: zero counts, durations, rate and percentiles; empty maps; `uptime = now - startTime`. |
| MetricsService.EmptyWindowSnapshot | src/services/metrics.service.ts:58-62 | A window with no records (after `reset`, or when all are stale) yields the empty report with `uptime = now - startTime`. |
| MetricsService.MetricsCollector.Reset | src/services/metrics.service.ts:146-149 | Empties the list and sets `startTime = now`. |
| MetricsService.PercentileIndexInRange | src/services/metrics.service.ts:69-71 | For `n > 0`: `floor(n*0.5) <= floor(n*0.95) <= floor(n*0.99) < n`, so every percentile index is in range. |
| MetricsService.SortedPercentiles | src/services/metrics.service.ts:69-71 | In an ascending list, `d[0] <= p50 <= p95 <= p99 <= d[n-1]`. |
| MetricsService.SortedExtremes | src/services/metrics.service.ts:64 | The first and last elements of the sorted durations are the smallest and largest durations, and both occur among them. |
| MetricsService.SortedLatency | src/services/metrics.service.ts:64-71 | For the sorted durations: the percentile picks are ordered between the ends, the ends are the extreme values, and the rounded mean lies between them. |
| MetricsService.SnapshotLatencyOrder | src/services/metrics.service.ts:103-112 | For a non-empty window: `min <= p50 <= p95 <= p99 <= max`. `min` and `max` bound every duration in the window and occur in it, and `min <= average <= max`. |
| MetricsService.AverageBounds | src/services/metrics.service.ts:103-104 | A total of `n` values in `[lo, hi]`, divided by `n` and rounded to hundredths, stays in `[lo, hi]`. |
| MetricsService.SortedAverage | src/services/metrics.service.ts:110 | The rounded mean of an ascending list lies between its first and last elements. |
| MetricsService.RequestRate | src/services/metrics.service.ts:105 | Requests per second is never negative. |
| MetricsService.SnapshotErrors | src/services/metrics.service.ts:65-66 | `totalErrors` is the number of window records with status >= 500, and it is at most `totalRequests`. |
| MetricsService.CountStatusCodes | src/services/metrics.service.ts:74-77 | The `forEach` loop builds exactly the tally `StatusTally(recent)`. |
| MetricsService.StatusBreakdown | src/services/metrics.service.ts:74-77 | The status counts add up to the number of records. Each count is the number of records with that status, and every status that occurs has an entry. |
| MetricsService.GroupByEndpoint | src/services/metrics.service.ts:81-89 | The `forEach` loop (create the list if missing, then push) builds exactly `Groups(recent)`. |
| MetricsService.Groups | src/services/metrics.service.ts:83-89 | Every group in the dictionary is non-empty. |
| MetricsService.EndpointStatistics | src/services/metrics.service.ts:91-101 | The loop over the groups builds exactly `StatsTable(groups)`: count, rounded mean and 5xx count per key. |
| MetricsService.StatsTable | src/services/metrics.service.ts:91-101 | The statistics table has exactly the keys of the groups. |
| MetricsService.EndpointBreakdown | src/services/metrics.service.ts:83-101 | Each endpoint's count is the number of records with key `"METHOD path"`, and its errors are at most its count. Every key that occurs has an entry. |
| MetricsService.EndpointCountsSum | src/services/metrics.service.ts:91-101 | The per-endpoint counts add up to the number of records. |
| MetricsService.SnapshotBreakdowns | src/services/metrics.service.ts:74-101 | In every snapshot, the status counts and the endpoint counts each add up to `totalRequests`. |
| PathNormalize.DigitRunLength | src/middlewares/metrics.ts:18 | `\d+` is greedy: the run it measures is all digits and is followed by a non-digit or the end. |
| PathNormalize.ReplaceIds | src/middlewares/metrics.ts:18 | The replacement is empty only for the empty path, and it keeps the first character. |
| PathNormalize.ReplaceIdsOfId | src/middlewares/metrics.ts:18 | A `/` followed by a maximal digit run becomes exactly `/:id`, and the rest is processed on. |
| PathNormalize.ReplaceIdsLeavesNoId | src/middlewares/metrics.ts:18 | After replacement no `/` is immediately followed by a digit. |
| PathNormalize.ReplaceIdsFixpoint | src/middlewares/metrics.ts:18 | A string with no `/`-digit pair is left unchanged by the replacement. |
| PathNormalize.ReplaceIdsAppend | src/middlewares/metrics.ts:18 | The replacement distributes over a concatenation whose second part does not start with a digit. |
| PathNormalize.ReplaceOneId | src/middlewares/metrics.ts:18 | In `pre/<digits>rest`, with no other id, the digits become `:id` and all other characters are kept in order. |
| PathNormalize.IdsAreInterchangeable | src/middlewares/metrics.ts:18-21 | `pre/<d1>rest` and `pre/<d2>rest` normalise to the same key for any two digit runs. |
| PathNormalize.SessionPathsShareKey | src/middlewares/metrics.ts:18-21 | `/sessions/<n>/summary` has one key for every numeric `n`. |
| PathNormalize.DigitsInsideSegment | src/middlewares/metrics.ts:18-21 | Segment boundaries are ignored: `/<digits>ab` becomes `/:idab`. |
| PathNormalize.CutAtQuery | src/middlewares/metrics.ts:21 | `split("?")[0]`: the longest prefix without `?`, ending where the first `?` was. |
| PathNormalize.CutWithoutQuery | src/middlewares/metrics.ts:21 | A path without `?` is not cut. |
| PathNormalize.CutKeepsNoId | src/middlewares/metrics.ts:18-21 | Cutting keeps the absence of `/`-digit pairs. |
| PathNormalize.NormalizePath | src/middlewares/metrics.ts:18-21 | The grouping key (ids replaced, then the query cut off) contains no `?` and no `/` followed by a digit. |
| PathNormalize.NormalizeUnchanged | src/middlewares/metrics.ts:18-21 | A path with no `/`-digit pair and no `?` is its own key. |
| PathNormalize.NormalizeIdempotent | src/middlewares/metrics.ts:18-21 | Normalising twice equals normalising once. |
| Sanitize.StripDisallowed | src/utils/sanitize.ts:22 | The filtered string is no longer than its input and holds only ASCII letters, digits, whitespace, `-` and `_`. |
| Sanitize.Truncate | src/utils/sanitize.ts:25-27 | `substring(0, 64)` keeps a prefix of at most 64 characters, and keeps a short string whole. |
| Sanitize.CleanName | src/utils/sanitize.ts:22-30 | After filtering, cutting and re-trimming: at most 64 allowed characters with no whitespace at either end. |
| Sanitize.SanitizePlayerName | src/utils/sanitize.ts:8-38 | A non-null result is a valid name: 1 to 64 allowed characters, trimmed. |
| Sanitize.BlankGivesNull | src/utils/sanitize.ts:9-19 | Missing, empty and whitespace-only input give null. |
| Sanitize.DisallowedGivesNull | src/utils/sanitize.ts:22-35 | Input made only of disallowed characters gives null. |
| Sanitize.ResultIsSubsequence | src/utils/sanitize.ts:14-30 | A non-null result is an in-order subsequence of the trimmed input. |
| Sanitize.FixedPointsAreValidNames | src/utils/sanitize.ts:8-38 | Sanitising returns a string unchanged if and only if it is a valid name. |
| Sanitize.SanitizeIdempotent | src/utils/sanitize.ts:8-38 | Sanitising a non-null result returns it unchanged. |
| Sanitize.KeptWhenClean | src/utils/sanitize.ts:14-37 | A non-empty string of at most 64 characters that trimming and filtering leave alone is returned as it is. |
| Scoring.SpeedThresholdMs | src/logic/scoring.ts:9-19 | Every threshold lies in [8000, 22000]. |
| Scoring.ThresholdsMonotone | src/logic/scoring.ts:9-19 | Thresholds rise strictly with difficulty within a mode. For the same difficulty, equation >= arithmetic. |
| Scoring.GradeAnswer | src/logic/scoring.ts:21-47 | `correctAnswer` is the trimmed expected answer, and `isCorrect` holds iff the trims are equal. A wrong answer scores -5. A correct one scores 13 iff `0 < elapsedMs <= threshold`, else 10. |
| Scoring.ScoreValues | src/logic/scoring.ts:33-40 | Every grade is -5, 10 or 13, and it is -5 exactly when the answer is wrong. |
| Scoring.FasterNeverWorse | src/logic/scoring.ts:35-40 | Answering faster (with positive times) never scores less, and `elapsedMs = 0` never earns the bonus. |
| Scoring.PaddingIgnored | src/logic/scoring.ts:28-31 | Whitespace around the player's answer does not change the grade. |
| Scoring.NumericAnswers | src/logic/scoring.ts:28-31 | For a numeric answer the canonical form is its decimal numeral, and one answer text is never accepted for two different numbers. |
| Quiz.RandInt | src/logic/arithmetic-generator.ts:15-17 | `randInt(min, max)` lies in `[min, max]`. |
| Quiz.RandIntCovers | src/logic/arithmetic-generator.ts:15-17 | Every value in `[min, max]` is produced by some draw. |
| ArithmeticGenerator.GenerateArithmetic | src/logic/arithmetic-generator.ts:19-82 | One fewer operator than operands (2 operands for easy, else 3), each in its range. `maxTimeMs` is 15000, 20000 or 25000. The answer evaluates the payload left-grouped, or right-grouped for a hard question whose coin says so. |
| ArithmeticGenerator.EasyQuestion | src/logic/arithmetic-generator.ts:22-33 | Operands in [5, 50], one operator, answer `a op b`, `maxTimeMs` 15000. |
| ArithmeticGenerator.MediumQuestion | src/logic/arithmetic-generator.ts:36-51 | `a, b` in [20, 80], `c` in [10, 60], answer `(a op1 b) op2 c`, `maxTimeMs` 20000. |
| ArithmeticGenerator.HardQuestion | src/logic/arithmetic-generator.ts:54-81 | Operands in [-100, 150]. The answer is `(a op1 b) op2 c` or `a op1 (b op2 c)` as the grouping coin says, and `maxTimeMs` is 25000. |
| ArithmeticGenerator.OperandRange | src/logic/arithmetic-generator.ts:24-58 | Every operand range is non-empty. |
| ArithmeticGenerator.GroupingMatters | src/logic/arithmetic-generator.ts:66-74 | The two hard groupings give different answers iff the first operator is `-` and `c != 0`. |
| ArithmeticGenerator.AnswerBounds | src/logic/arithmetic-generator.ts:22-81 | Easy answers lie in [-45, 100], medium in [-120, 220] and hard in [-400, 450]. |
| ArithmeticGenerator.EasyCovers | src/logic/arithmetic-generator.ts:22-33 | Every easy payload with operands in range is produced by some draws. |
| ArithmeticGenerator.MediumCovers | src/logic/arithmetic-generator.ts:36-51 | Every medium payload with operands in range is produced by some draws. |
| ArithmeticGenerator.HardCovers | src/logic/arithmetic-generator.ts:54-81 | Every hard payload in range, with either grouping, is produced by some draws. |
| EquationGenerator.CoefficientRange | src/logic/equation-generator.ts:16-30 | The `a` range of each difficulty is non-empty. |
| EquationGenerator.Pick | src/logic/equation-generator.ts:32-33 | The local `randInt` stays in its range. |
| EquationGenerator.FirstAccepted | src/logic/equation-generator.ts:35-38 | The loop stops at the first draw giving `a` not in {0, 1}; no draw is accepted before it. `None` means no remaining draw is accepted. |
| EquationGenerator.GenerateEquation | src/logic/equation-generator.ts:9-51 | The `while` loop and the draws after it produce exactly `EquationFromDraws(difficulty, draws)`. |
| EquationGenerator.EquationFromDraws | src/logic/equation-generator.ts:35-50 | `a` is not in {0, 1}, and `a*x + b = c`. `a`, `b` and `x` lie in the ranges for the difficulty, and `maxTimeMs` is 25000. |
| EquationGenerator.QuestionFrom | src/logic/equation-generator.ts:39-50 | A question is built exactly when two draws follow the accepted one, with `b` and `x` in their ranges. |
| EquationGenerator.EquationQuestion | src/logic/equation-generator.ts:41-50 | The payload is exactly `{a, b, c}` with `c = a*x + b`, the answer is `x`, and `maxTimeMs` is 25000. |
| EquationGenerator.SolutionIsUnique | src/logic/equation-generator.ts:41 | The answer is the only integer solution of the equation asked. |
| EquationGenerator.NoRetryBelowHard | src/logic/equation-generator.ts:18-22 | For easy and medium (`a` range starts at 2), the first draw is accepted and three draws suffice. |
| EquationGenerator.HardRetries | src/logic/equation-generator.ts:27 | For hard, some draw gives `a = 0` and is rejected. |
| EquationGenerator.EquationCovers | src/logic/equation-generator.ts:16-50 | Every equation with `a`, `b` and `x` in range and `a` not in {0, 1} is produced by some draws. |
| Leaderboard.EffectiveLimit | src/services/analytics.service.ts:64 | `min(limit ?? 20, 100)`: never above 100, 20 when absent, otherwise the given limit capped at 100. |
| Leaderboard.EffectiveOffset | src/services/analytics.service.ts:67-72 | A positive page gives `(page-1)*limit` and wins over an offset. Otherwise the offset is `max(0, offset)`, or 0 when none is given. |
| Leaderboard.OffsetNonNegative | src/services/analytics.service.ts:64-72 | With a non-negative limit the offset is never negative. |
| Leaderboard.PagesAreContiguous | src/services/analytics.service.ts:68-69 | Page `p+1` starts exactly where page `p` ends. |
| Leaderboard.CacheKey | src/services/analytics.service.ts:75 | Every key starts with `leaderboard:`, the prefix cleared at src/services/answer.service.ts:54. |
| Leaderboard.CacheKeyInjective | src/services/analytics.service.ts:75 | Different (scope, limit, offset) triples never share a key. |
| Leaderboard.DistinctQueriesDistinctKeys | src/services/analytics.service.ts:63-75 | Two queries share a key iff their effective scope, limit and offset are equal. |
| Leaderboard.Entries | src/services/analytics.service.ts:129-137 | One entry per row, in row order, with rank `offset + index + 1`. |
| Leaderboard.EntryOf | src/services/analytics.service.ts:129-137 | An entry keeps its row's player name and has the given rank. |
| Leaderboard.RanksAreConsecutive | src/services/analytics.service.ts:129-130 | Ranks start at `offset + 1` and rise by one from row to row. |
| Leaderboard.BuildLeaderboard | src/services/analytics.service.ts:63-153 | The scope defaults to `all`. Limit and offset are the effective ones, and `page` is the given page or null. `hasMore` holds iff `offset + entries < total`. |
| Leaderboard.QueryKey | src/services/analytics.service.ts:75 | The key of a query carries the `leaderboard:` prefix. |
| Leaderboard.GetLeaderboard | src/services/analytics.service.ts:88-90 | A hit returns the cached object and writes nothing. A miss returns the freshly built result and stores it under the same key with TTL 60000 (line 156). |
| Leaderboard.RepeatHitsCache | src/services/analytics.service.ts:88-90 | Once a miss has been stored, the same query returns the stored result, whatever the database holds by then. |
| AdminAnalytics.Accuracy | src/services/admin-analytics.service.ts:272-280 | The ratio is 0 when the total is at most 0. Otherwise ratio times total equals correct. |
| AdminAnalytics.AccuracyInUnitInterval | src/services/admin-analytics.service.ts:272-280 | With `0 <= correct <= total` the ratio lies in [0, 1]. |
| AdminAnalytics.PeakIndex | src/services/admin-analytics.service.ts:292 | The selected row's count is >= every row's count, and > every earlier row's: ties go to the earliest row. |
| AdminAnalytics.ReduceIsPeak | src/services/admin-analytics.service.ts:292 | The `reduce` with a strict `>` returns the row at `PeakIndex`. |
| AdminAnalytics.PeakHour | src/services/admin-analytics.service.ts:289-293 | `peakHour` is null iff there are no rows. |
| AdminAnalytics.PeakHourIsFirstMaximum | src/services/admin-analytics.service.ts:289-293 | The peak hour is that of the unique row whose count no row exceeds and no earlier row equals. |
| AdminAnalytics.QuestionsPerHour | src/services/admin-analytics.service.ts:346-349 | One entry per row, same order, NULL counts as 0. |
| AdminAnalytics.PeakHourHasLargestListedCount | src/services/admin-analytics.service.ts:345-349 | The peak hour's count is the largest in `questionsPerHour`. |
| GenAI.DefaultMaxTimeMs | src/services/genai-quiz.service.ts:21-30 | Equation questions get 25000. All defaults lie in [15000, 25000]. |
| GenAI.DefaultsAgreeWithGenerators | src/services/genai-quiz.service.ts:21-30 | Each default equals the `maxTimeMs` of the local generator for that mode and difficulty. |
| GenAI.StripTrailingSlashes | src/services/genai-quiz.service.ts:40 | The result is a prefix of the input; what was removed is all `/`; the result does not end in `/`. |
| GenAI.StripUnique | src/services/genai-quiz.service.ts:40 | That split is unique: any prefix with those properties is the stripped base. |
| GenAI.StripIdempotent | src/services/genai-quiz.service.ts:40 | Stripping twice equals stripping once, and a base without a trailing `/` is kept. |
| GenAI.GenerateUrl | src/services/genai-quiz.service.ts:36-41 | A missing or empty base URL is an error, raised before any URL is built. Otherwise the URL is the stripped base plus `/generate`. |
| GenAI.OneSlashBeforeGenerate | src/services/genai-quiz.service.ts:40-41 | The URL ends in `/generate` and the character before that slash is not a slash. |
| Errors.StatusMatchesCodeGroup | src/utils/errors.ts:5-17 | Classes with a client code have a 4xx status; classes with a server code have a 5xx status. |
| Errors.CodesDistinct | src/utils/errors.ts:5-17 | The code strings are pairwise different, and no two classes share a code. |
| Errors.NewValidationError | src/utils/errors.ts:39-43 | 400, `VALIDATION_ERROR`, with the given message and details. |
| Errors.NewNotFoundError | src/utils/errors.ts:45-52 | 404, `NOT_FOUND`. The message is `"<r> with identifier '<id>' not found"` for a truthy identifier, else `"<r> not found"`. Details hold `resource` and `identifier`. |
| Errors.FalsyIdentifiersOmitted | src/utils/errors.ts:47-49 | Identifiers 0 and `""` are left out of the message, like a missing one. |
| Errors.NewBadRequestError | src/utils/errors.ts:54-58 | 400, `BAD_REQUEST`, with the given message and details. |
| Errors.NewInvalidInputError | src/utils/errors.ts:60-64 | 400, `INVALID_INPUT`. The details keys are `field` plus the extra keys. |
| Errors.InvalidInputFieldOverride | src/utils/errors.ts:62 | A `field` key in the extra details overrides the field argument. |
| Errors.NewDatabaseError | src/utils/errors.ts:66-70 | 500, `DATABASE_ERROR`, with the given message and details. |
| Errors.NewServiceUnavailableError | src/utils/errors.ts:72-79 | 503, `SERVICE_UNAVAILABLE`, message `"<service> is currently unavailable"`. The details are `service` plus the extra keys. |
| Errors.NewUnauthorizedError | src/utils/errors.ts:81-85 | 401, `UNAUTHORIZED`, with the given message and details. |
| AdminAuth.Candidate | src/middlewares/admin-auth.ts:16 | The candidate is the header if non-empty, otherwise the `admin-api-key` query value. |
| AdminAuth.KeyRequired | src/middlewares/admin-auth.ts:19-21 | The rejection error is an `UnauthorizedError`, 401 `UNAUTHORIZED`. |
| AdminAuth.AdminAuth | src/middlewares/admin-auth.ts:9-25 | Every rejection carries that error. |
| AdminAuth.OpenWithoutKey | src/middlewares/admin-auth.ts:11-13 | With no key configured (unset or empty), every request is allowed. |
| AdminAuth.AllowedIffKeyMatches | src/middlewares/admin-auth.ts:16-24 | With a key configured, a request is allowed iff its candidate is a string equal to the key. |
| AdminAuth.HeaderShadowsQuery | src/middlewares/admin-auth.ts:16-18 | A wrong non-empty header is rejected even when the query value is correct. |
| AdminAuth.EmptyHeaderFallsBack | src/middlewares/admin-auth.ts:16-18 | An empty header falls back to the query value; a non-string query value is rejected. |

## Left out

- Clock, randomness and I/O:
  - `Date.now()` is a parameter `now`.
  - `recordRequest` and `getEmptySnapshot` each read the clock twice. The model uses one reading per call, so the stamp equals the reading behind the cutoff.
  - `Math.random()` is a draw of type `Unit`, a real in [0, 1). Generators take the draws as a sequence.
- Floating point:
  - Averages, ratios and requests per second are exact reals, and `Math.round(x*100)/100` is `floor(x*100 + 0.5)/100` over those reals. Binary rounding error is not modelled.
  - The percentile index `Math.floor(n*q)` is the integer `n*q/100`.
  - Durations and counts are integers.
  - The `|| 0` fallbacks on percentile and min/max picks are not modelled. They only apply to an out-of-range index or a falsy value, and the former cannot happen (`PercentileIndexInRange`).
- Strings: a JavaScript string is a sequence of `char`. After filtering, a sanitised name has only characters that are single UTF-16 units, so its length agrees with `.length`.
- `ArithmeticGenerator.GenerateArithmetic` requires enough draws (3, 5 or 6). The source draws as many as it needs.
- `EquationGenerator.GenerateEquation` returns `None` when the supplied draws run out before an accepted coefficient plus two more draws. The source keeps drawing and never fails.
- The question texts are built but no contract states their exact form.
- The equation text reproduces the source file's mis-encoded "Tìm": the characters U+00C3 U+00AC.
- Leaderboard:
  - The database query, the total count and `updatedAt` are parameters.
  - The cache store is a map argument, and a miss returns the write it asks for. Cache expiry, and the `clearByPrefix` done when an answer is recorded, are not modelled, since the cache implementation is not part of this model.
  - The unused `currentPage` (analytics.service.ts:139) is not modelled.
  - `Leaderboard.OffsetNonNegative` requires a non-negative limit: `limit: -5` combined with `page: 2` does give a negative offset.
- `Leaderboard.EffectiveLimit`, `Leaderboard.EffectiveOffset` and `Leaderboard.CacheKey`: the query's limit, offset and page are integers, and the scope is one of `all`, `weekly` and `daily`. The controller passes `Number(...)` of the query strings and casts the scope unchecked. NaN, fractional numbers and other scope strings are not modelled. For example, `limit=abc` gives the key `leaderboard:all:NaN:0`, and `scope=monthly` runs the unfiltered query under its own key.
- `MetricsService.StatusTally` and `MetricsService.EndpointTable`: a snapshot's `statusCodes` and `endpoints` are maps, so the key order of the JavaScript objects is not modelled. That order is insertion order: numeric keys ascending for status codes, first occurrence for endpoints.
- `AdminAnalytics` models only the selection and ratio expressions. The SQL that produces the rows is not modelled.
- `GenAI` models only the default time table and the URL. The HTTP request and the response mapping are not modelled.
- `Errors`:
  - `name` is the `ErrorClass` constructor.
  - The stack trace is not modelled.
  - `INTERNAL_ERROR` is defined but used by no class.
  - Identifiers are integers or strings; non-integer numbers are not modelled.
- The Express plumbing around the modelled functions is not modelled: routing, `res.on("finish")`, `next()`, and the request-id, logger and timeout middleware.
