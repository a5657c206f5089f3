# k6 load-test helpers: token cache, asynchronous import, summary parser

This project models in Dafny the two parts of the k6 performance-test repository that carry
decision logic, and proves what they do.

- **`PerformanceTests/utils.js`**, modelled imperatively.
  - `TryToGetNewAccessToken` keeps a bearer token in the shared `config` record. It renews the
    token with an OAuth 2.0 password grant (section 4.3 of RFC 6749) when the cached one has
    expired. Modelled as the class `TokenManager.Config`, whose method assigns `accessToken` and
    `expiry` in place.
  - `importData` submits one import to the transfer service. It picks the endpoint by format,
    reads the transaction id from the reply's message and waits a time chosen by the dataset
    size. It then polls the status endpoint, refreshing the token before every request, until
    the import is finished, failed or past its ten-minute deadline. It records the outcome in
    the `importRate` and `importTrend` metrics.
  - `ImportWorkflow.ImportData`, with `PollUntilDone`, `PollOnce` and `Judge`, is that method.
    Its results are tied to the function `ImportWorkflow.Import`.
  - HTTP replies and clock readings are parameters. The posts and sleeps it would perform come
    back as an ordered list of effects. The metrics are classes whose sample lists the methods
    extend.
  - The transaction id (`parseInt(message.match(/\d+/g))`) is in module `TransactionIds`.
- **`parse.py`**.
  - `parse_line` strips a k6 summary line and matches it against `.*p\(95\)=(.+?)(ms|s)`. It is
    written out as the search Python's backtracking performs: the rightmost `p(95)=` first, then
    the shortest value. It is proved to find the match Python reports, or none exactly when no
    match exists.
  - `parse_file` numbers the lines and keeps those `parse_line` accepts. It is a method with a
    loop over a sequence of lines, specified by `SummaryParser.AcceptedLines`.

Conventions. A JavaScript value that is unset or falsy is the empty string. NaN is `None`. An
exception that leaves `importData` is the ending `Raised`.

## Model

| member | source | states |
|---|---|---|
| TokenManager.Config.constructor | PerformanceTests/utils.js:6-16 | the session starts with no token and holds the given credentials, dataspace and base URLs |
| TokenManager.Config.TryToGetNewAccessToken | PerformanceTests/utils.js:264-294 | the step taken is `Refresh` of the old credentials, token and clock; the new token is the renewed one or the old one; credentials, dataspace and base URLs are unchanged |
| TokenManager.NoRequestWithoutCredentials | PerformanceTests/utils.js:266-267 | a falsy token URL, username or password means no request and an unchanged token |
| TokenManager.CacheHitIffValid | PerformanceTests/utils.js:269-270 | no request is made exactly when credentials are present and the token is non-empty with an expiry after now; the token is then unchanged |
| TokenManager.StaleTokenIsRenewed | PerformanceTests/utils.js:272-293 | otherwise exactly one password grant with scope openid is posted; a JSON reply stores `access_token` and `now + 1000 * expires_in`; a non-JSON reply throws and leaves the token |
| TokenManager.RenewedTokenServesUntilExpiry | PerformanceTests/utils.js:269-293 | a renewed token with a positive lifetime serves every later call before its expiry without a request, and is renewed once the expiry is reached |
| TransactionIds.FirstDigit | PerformanceTests/utils.js:93 | the index returned is the first digit, with no digit before it |
| TransactionIds.RunEnd | PerformanceTests/utils.js:93 | the run of digits from `i` ends at the index returned, which is not a digit |
| TransactionIds.TransactionId | PerformanceTests/utils.js:93 | the id is None exactly when the message has no digit, else the decimal value of its first maximal digit run |
| TransactionIds.DecimalRoundTrip | PerformanceTests/utils.js:117 | `parseInt` reads back the decimal rendering of every natural number |
| TransactionIds.TransactionIdOfMessage | PerformanceTests/utils.js:93 | a message whose first digits are the rendering of `n`, not followed by another digit, yields id `n` |
| TransactionIds.FirstDigitAt | PerformanceTests/utils.js:93 | the first digit is determined by its position: no digit before it |
| TransactionIds.RunEndAt | PerformanceTests/utils.js:93 | the end of a digit run is determined: all digits up to it, no digit at it |
| ImportWorkflow.SubmitPath | PerformanceTests/utils.js:48-69 | the endpoint is `/1.2/import/excel` exactly for format "excel" and `/1.2/import/sdmxFile` for every other format |
| ImportWorkflow.PayloadOf | PerformanceTests/utils.js:52-69 | "sdmx" sends the SDMX source URL, "excel" the EDD and data files, every other format the data file |
| ImportWorkflow.InitialWaitSeconds | PerformanceTests/utils.js:97-108 | 2 s for extraSmall, 5 s for small, 20 s for medium, large and extraLarge, 10 s for any other size |
| ImportWorkflow.Classify | PerformanceTests/utils.js:142-167 | Success or Warning is imported exactly when end minus start is a positive number, else a bad import time, taking precedence over the execution status; then Error, TimedOut or Canceled fails; then 600000 ms since the start times out; otherwise polling continues |
| ImportWorkflow.RateEntries | PerformanceTests/utils.js:146-174 | a rejected submission or a decision adds exactly one rate sample, `true` only for an import; an exception or a loop still running adds none |
| ImportWorkflow.TrendEntries | PerformanceTests/utils.js:149-150 | the trend receives the import time, twice, exactly for an import |
| ImportWorkflow.RateMetric.Add | PerformanceTests/utils.js:146 | `add` appends one sample |
| ImportWorkflow.TrendMetric.Add | PerformanceTests/utils.js:149 | `add` appends one sample |
| ImportWorkflow.Judge | PerformanceTests/utils.js:138-167 | the verdict on a 200 reply is `Classify` of it; the metrics get the verdict's samples, and nothing while polling goes on |
| ImportWorkflow.PollOnce | PerformanceTests/utils.js:111-169 | one pass of the loop body is `PollRound` of the old session; `config` keeps the refreshed token; the metrics are only extended when the round stops the loop |
| ImportWorkflow.PollUntilDone | PerformanceTests/utils.js:110-170 | the loop's effects, ending and final token are those of `PollLoop`; the metrics receive the ending's rate and trend samples |
| ImportWorkflow.ImportData | PerformanceTests/utils.js:36-180 | effects, ending and final token are those of `Import` of the old session; the metrics receive the ending's rate and trend samples |
| ImportWorkflow.RoundShape | PerformanceTests/utils.js:111-169 | one round posts the refresh's grant, then unless the refresh threw exactly one status request for the transaction with the refreshed token; it continues exactly on a quiet reply and decides exactly on a decisive one, with that reply's verdict |
| ImportWorkflow.LoopDecidesAtFirstDecisive | PerformanceTests/utils.js:110-170 | polling stops at the first decisive reply, with its verdict, after one status request per round up to it |
| ImportWorkflow.Non200PollsNeverDecide | PerformanceTests/utils.js:138-169 | while the status endpoint answers non-200, the loop never ends, whatever the clock, and asks once per round |
| ImportWorkflow.DeadlineStopsPolling | PerformanceTests/utils.js:162-167 | a 200 JSON reply read 600000 ms or more after the start ends the loop there at the latest |
| ImportWorkflow.PollingAsksForTheTransaction | PerformanceTests/utils.js:115-134 | every status request goes to the status endpoint, in the session's dataspace, for the transaction id |
| ImportWorkflow.NoCredentialsNoGrants | PerformanceTests/utils.js:113 | without credentials no token is requested during polling, the cached token is kept and every status request carries it |
| ImportWorkflow.VerdictFromA200Reply | PerformanceTests/utils.js:138-167 | every verdict is that of a decisive 200 JSON reply; an import always has a positive duration |
| ImportWorkflow.RejectedSubmissionNeverPolls | PerformanceTests/utils.js:87 | a non-200 submission adds one `false` sample and sends nothing after the submission |
| ImportWorkflow.ImportPollsItsTransaction | PerformanceTests/utils.js:71-117 | an accepted submission is followed by the one-second pause and the size's wait, and every status request asks for the id read from the message |
| SummaryParser.StripStart | parse.py:13 | the index is the first non-whitespace character, all whitespace before it |
| SummaryParser.StripEnd | parse.py:13 | the index follows the last non-whitespace character, all whitespace after it |
| SummaryParser.Strip | parse.py:13 | the stripped text is empty or begins and ends with a non-whitespace character |
| SummaryParser.StripSpec | parse.py:13 | the input is the stripped text with only whitespace before and after it |
| SummaryParser.StripUnchanged | parse.py:13 | a text without whitespace at its ends is its own strip |
| SummaryParser.UnitAt | parse.py:19 | the unit found matches at the position, and none is found only when neither `ms` nor `s` matches |
| SummaryParser.LazyValue | parse.py:19 | the value length found has the unit after it, and is the shortest such length from `len` on |
| SummaryParser.MatchAt | parse.py:19 | a match with `.*` ending at `k` is found exactly when one exists, with the shortest value |
| SummaryParser.SearchFrom | parse.py:19-20 | the match found starts at or before `k`, and no match starting there starts later or has a shorter value |
| SummaryParser.DotRunEnd | parse.py:19 | the index is the first newline or the end, with no newline before it |
| SummaryParser.SearchSpec | parse.py:19-22 | the search finds the match Python reports, and finds none only when the pattern cannot match |
| SummaryParser.ParseLineSpec | parse.py:7-33 | None exactly for a blank line or one the pattern rejects; otherwise `raw_line` is the stripped line, the unit is `ms` or `s`, the value non-empty, `p95` the value followed by the unit, all from the reported match |
| SummaryParser.ReportedUnique | parse.py:20 | the reported match is unique |
| SummaryParser.PlainFigureReported | parse.py:19-26 | in text ending with `p(95)=`, digits and a unit, the reported match is that marker with all the digits as value |
| SummaryParser.ParsePlainFigure | parse.py:10-33 | a line such as `... p(95)=0s` or `p(95)=12ms` yields that number and that unit |
| SummaryParser.AcceptedLinesSpec | parse.py:45-49 | the entries are the accepted lines, each once, in increasing 1-based line order, no more than the lines |
| SummaryParser.NumberAccepted | parse.py:45-49 | the loop's entries are `AcceptedLines` of all the lines |
| SummaryParser.ParseFile | parse.py:37-60 | `parse_file` returns `AcceptedLines` of `parse_line` over all the lines |

## Left out

- `initConfig`: reading environment variables and the health probe are I/O. Only the record it builds is modelled, as `Config`'s constructor.
- `exportData`: only k6 HTTP calls, `group`/`check` and a random format choice.
- PerformanceTests/FAO/load-test-exports.js and PerformanceTests/FAO/smoke-test-exports.js: declarative k6 options.
- load_data.py: directory walking and uploads through an external client library. Not part of this model.
- `print_parsed_data` and `main` of parse.py: printing, floating-point division, argument parsing and the JSON dump.
- The file-open error branches of `parse_file`: the file is a sequence of lines here.
- The `Warning: Could not parse line` print of `parse_file`, and every `console.log`.
- `http.file` multipart payloads: only the file names are recorded.
- The k6 `check()` on the submission status: it only records a check result.
- The request tags and the `importTrend` tag objects: the trend records the value only.
- The body logged for a submission status of 500 or more: logging only.
- Sleeps are recorded as `Sleep` effects, not awaited.
- ImportWorkflow.ImportData: the source loops forever while no decisive reply arrives. The model runs over a finite list of replies, and `Exhausted` stands for "still polling".
- TokenManager.Config.TryToGetNewAccessToken: the source reads the clock twice, once for the cache test and once for the expiry. The model uses one reading for both.
- TransactionIds.TransactionId: the id is an unbounded natural number. `parseInt` loses precision beyond 2^53, which is not modelled.
- TokenManager.ExpiryAfter: `expires_in` is taken as an integer or NaN. A numeric string would be concatenated by `+`, and a fraction or an epoch outside the JavaScript `Date` range is not modelled.
- ImportWorkflow.Elapsed: `Date.parse` is a parameter. The two dates arrive already parsed, as integers or NaN.
- A JSON `null` body, or a JSON status body without `outcome`: the status body is either JSON with string fields or not JSON at all.
- SummaryParser.ParseFile: the lines are given. The splitting done by Python's universal-newline file reading is not modelled.

Where the behaviour described for the repository and its code differ, the model follows the code:

- The submission is sent with the token cached on entry. There is no refresh before it, only before each status request.
- The ten-minute deadline is only consulted on a 200 status reply, after the finished and failed checks. While the endpoint answers anything else, polling never stops.
- A reply message without digits gives the id NaN (`None`), and polling goes on for that id.
- A renewed token's expiry is stored as computed, even when `expires_in` is zero or negative.
