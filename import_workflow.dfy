/**
 * The asynchronous import scenario (`importData` in PerformanceTests/utils.js): one import is
 * submitted to the transfer service, its transaction id is read from the reply, and the status
 * endpoint is polled until the import reports a terminal state or ten minutes have passed.
 *
 * Nothing is sent or awaited: the replies and clock readings are parameters, and the HTTP posts
 * and sleeps the function would perform are returned, in order, as a list of effects.
 */
module ImportWorkflow {
  import opened Wrappers
  import opened TokenManager
  import opened TransactionIds

  const SdmxFileImportPath := "/1.2/import/sdmxFile"
  const ExcelImportPath := "/1.2/import/excel"
  const StatusRequestPath := "/1.2/status/request"
  /** `timeOutTime`: ten minutes, in milliseconds. */
  const TimeOutMs := 600000
  /** Seconds slept after every post, and between two status requests. */
  const SleepAfterPost := 1
  const SleepBetweenPolls := 10

  /** The fields of a test case the import reads; `data` and `edd` file contents are not modelled. */
  datatype TestCase = TestCase(format: string, size: string, sdmxSource: string,
                               eddFile: string, dataFile: string)

  /** The format-specific part of the multipart form. */
  datatype Payload =
    | SdmxSource(filepath: string)
    | ExcelFiles(eddFile: string, excelFile: string)
    | DataFile(dataFile: string)

  /** The form posted to submit the import; `bearer` is the cached token as it is on entry. */
  datatype SubmitRequest = SubmitRequest(url: string, dataspace: string, sendEmail: int,
                                         bearer: string, payload: Payload)

  /** The form posted to ask for the import's status; `id` is `None` when `parseInt` gives NaN. */
  datatype StatusRequest = StatusRequest(url: string, dataspace: string, id: Option<nat>, bearer: string)

  datatype Request =
    | Submission(submit: SubmitRequest)
    | TokenGrant(grant: TokenRequest)
    | StatusQuery(query: StatusRequest)

  /** What the import performs, in order. */
  datatype Effect = Post(request: Request) | Sleep(seconds: nat)

  /** The body of a 200 reply to the submission: `NoMessage` is a body on which `res.json()` or
      `message.match` throws (not JSON, or no string `message`). */
  datatype SubmitBody = Message(text: string) | NoMessage

  datatype SubmitReply = SubmitReply(status: int, body: SubmitBody)

  /** The body of a status reply. The two dates are already read with `Date.parse`
      (`None` for NaN). `StatusNotJson` is a body on which `res.json()` throws. */
  datatype StatusBody =
    | StatusJson(outcome: string, executionStatus: string,
                 executionStart: Option<int>, executionEnd: Option<int>)
    | StatusNotJson

  /** Everything one round of the polling loop reads from outside: the clock and reply of the
      token refresh, the status reply, and the clock after the status request (`d.getTime()`). */
  datatype Poll = Poll(refreshClock: int, tokenReply: TokenReply, status: int, body: StatusBody, clock: int)

  /** The decision taken on one 200 status reply. */
  datatype Verdict =
    | KeepPolling
    | Imported(elapsed: int)
    | BadImportTime
    | ImportFailed
    | TimedOut

  /** How the import ended. `Exhausted` means the given polls ran out while the source would still
      be looping; `Raised` is an exception that leaves `importData`. */
  datatype Ending =
    | SubmitRejected
    | Decided(verdict: Verdict)
    | Exhausted
    | Raised

  /** The effects performed, how the run ended, and the token cached at the end. */
  datatype Trace = Trace(ending: Ending, effects: seq<Effect>, token: TokenState)

  /** The endpoint the import is posted to. */
  function SubmitPath(format: string): (path: string)
    ensures path == ExcelImportPath <==> format == "excel"
    ensures path == SdmxFileImportPath <==> format != "excel"
  {
    if format == "excel" then ExcelImportPath else SdmxFileImportPath
  }

  /** The files sent: an SDMX source URL for "sdmx", the EDD and data files for "excel", the
      data file for any other format. */
  function PayloadOf(tc: TestCase): (p: Payload)
    ensures p.SdmxSource? <==> tc.format == "sdmx"
    ensures p.ExcelFiles? <==> tc.format == "excel"
    ensures p.SdmxSource? ==> p.filepath == tc.sdmxSource
    ensures p.ExcelFiles? ==> p == ExcelFiles(tc.eddFile, tc.dataFile)
    ensures p.DataFile? ==> p.dataFile == tc.dataFile
  {
    if tc.format == "sdmx" then SdmxSource(tc.sdmxSource)
    else if tc.format == "excel" then ExcelFiles(tc.eddFile, tc.dataFile)
    else DataFile(tc.dataFile)
  }

  function SubmissionOf(baseUrl: string, dataspace: string, bearer: string, tc: TestCase): SubmitRequest {
    SubmitRequest(baseUrl + SubmitPath(tc.format), dataspace, 1, bearer, PayloadOf(tc))
  }

  /** The wait before the first status request, chosen by the test case's size. */
  function InitialWaitSeconds(size: string): (seconds: nat)
    ensures seconds == 2 <==> size == "extraSmall"
    ensures seconds == 5 <==> size == "small"
    ensures seconds == 20 <==> size == "medium" || size == "large" || size == "extraLarge"
    ensures seconds == 10 || seconds == 2 || seconds == 5 || seconds == 20
  {
    if size == "extraSmall" then 2
    else if size == "small" then 5
    else if size == "medium" then 20
    else if size == "large" then 20
    else if size == "extraLarge" then 20
    else 10
  }

  predicate Finished(outcome: string) {
    outcome == "Success" || outcome == "Warning"
  }

  predicate Failed(outcome: string, executionStatus: string) {
    outcome == "Error" || executionStatus == "TimedOut" || executionStatus == "Canceled"
  }

  /** `Date.parse(executionEnd) - Date.parse(executionStart)`, NaN when either is. */
  function Elapsed(start: Option<int>, end: Option<int>): Option<int> {
    if start.Some? && end.Some? then Some(end.value - start.value) else None
  }

  /** The branches taken on a 200 status reply, in the source's order: a finished import first,
      then a failed one, then the deadline measured from `start`. */
  function Classify(outcome: string, executionStatus: string, executionStart: Option<int>,
                    executionEnd: Option<int>, clock: int, start: int): (v: Verdict)
    ensures v.Imported? <==> Finished(outcome) && Elapsed(executionStart, executionEnd).Some?
                             && Elapsed(executionStart, executionEnd).value > 0
    ensures v.Imported? ==> Elapsed(executionStart, executionEnd) == Some(v.elapsed) && v.elapsed > 0
    ensures v == BadImportTime <==> Finished(outcome) && !v.Imported?
    ensures v == ImportFailed <==> !Finished(outcome) && Failed(outcome, executionStatus)
    ensures v == TimedOut <==> !Finished(outcome) && !Failed(outcome, executionStatus) && clock - start >= TimeOutMs
    ensures v == KeepPolling <==> !Finished(outcome) && !Failed(outcome, executionStatus) && clock - start < TimeOutMs
  {
    if Finished(outcome) then
      var actual := Elapsed(executionStart, executionEnd);
      if actual.None? || actual.value <= 0 then BadImportTime else Imported(actual.value)
    else if Failed(outcome, executionStatus) then ImportFailed
    else if clock - start >= TimeOutMs then TimedOut
    else KeepPolling
  }

  /** The verdict on one status reply: only a 200 with a JSON body is examined at all. */
  function VerdictOf(p: Poll, start: int): Verdict
    requires !(p.status == 200 && p.body.StatusNotJson?)
  {
    if p.status == 200 then
      Classify(p.body.outcome, p.body.executionStatus, p.body.executionStart, p.body.executionEnd, p.clock, start)
    else KeepPolling
  }

  function Prepend(effects: seq<Effect>, t: Trace): Trace {
    t.(effects := effects + t.effects)
  }

  lemma PrependTwice(a: seq<Effect>, b: seq<Effect>, t: Trace)
    ensures Prepend(a, Prepend(b, t)) == Prepend(a + b, t)
  {
    assert a + (b + t.effects) == (a + b) + t.effects;
  }

  /** The token posts a refresh step performs. */
  function GrantEffects(step: RefreshStep): seq<Effect> {
    if step.Requested() then [Post(TokenGrant(step.request))] else []
  }

  /** The effects of one round that reaches the status request: the token post, if any, then the
      status request and the pause after it. */
  function QueryEffects(step: RefreshStep, query: StatusRequest): seq<Effect> {
    GrantEffects(step) + [Post(StatusQuery(query)), Sleep(SleepAfterPost)]
  }

  /** The result of one round of the loop: it stops the loop, or continues with the token `token`. */
  datatype RoundResult =
    | Stop(ending: Ending, effects: seq<Effect>, token: TokenState)
    | Continue(effects: seq<Effect>, token: TokenState)

  /** One round of the loop with `tok` cached: refresh the token, ask for the status, and judge a
      200 reply; anything but a decision leads to the pause before the next round. */
  function PollRound(c: Credentials, dataspace: string, baseUrl: string, id: Option<nat>,
                     tok: TokenState, p: Poll, start: int): RoundResult
  {
    var step := Refresh(c, tok, p.refreshClock, p.tokenReply);
    if step.Threw? then Stop(Raised, GrantEffects(step), tok)
    else
      var tok' := TokenAfter(tok, step);
      var sent := QueryEffects(step, StatusRequest(baseUrl + StatusRequestPath, dataspace, id, tok'.accessToken));
      if p.status == 200 && p.body.StatusNotJson? then Stop(Raised, sent, tok')
      else if VerdictOf(p, start) != KeepPolling then Stop(Decided(VerdictOf(p, start)), sent, tok')
      else Continue(sent + [Sleep(SleepBetweenPolls)], tok')
  }

  /** The polling loop from round `i` on, with `tok` cached: rounds run one after the other,
      each with the token the previous one left, until one stops or the rounds run out. */
  function Rounds(round: (TokenState, Poll) -> RoundResult, tok: TokenState, polls: seq<Poll>, i: nat): Trace
    requires i <= |polls|
    decreases |polls| - i
  {
    if i == |polls| then Trace(Exhausted, [], tok)
    else
      match round(tok, polls[i])
      case Stop(ending, effects, tok') => Trace(ending, effects, tok')
      case Continue(effects, tok') => Prepend(effects, Rounds(round, tok', polls, i + 1))
  }

  /** The round of `importData` polling transaction `id`. */
  function RoundOf(c: Credentials, dataspace: string, baseUrl: string, id: Option<nat>, start: int)
    : (TokenState, Poll) -> RoundResult
  {
    (t: TokenState, p: Poll) => PollRound(c, dataspace, baseUrl, id, t, p, start)
  }

  /** The whole polling loop of `importData`, with `tok` cached on entry. */
  function PollLoop(c: Credentials, dataspace: string, baseUrl: string, id: Option<nat>,
                    tok: TokenState, polls: seq<Poll>, start: int): Trace
  {
    Rounds(RoundOf(c, dataspace, baseUrl, id, start), tok, polls, 0)
  }

  /** `importData` with session `c`/`tok`, submission reply `reply`, start time `start`
      (read after the submission) and status rounds `polls`. */
  function Import(c: Credentials, tok: TokenState, dataspace: string, baseUrl: string, tc: TestCase,
                  reply: SubmitReply, start: int, polls: seq<Poll>): Trace
  {
    var submitted := [Post(Submission(SubmissionOf(baseUrl, dataspace, tok.accessToken, tc))), Sleep(SleepAfterPost)];
    if reply.status != 200 then Trace(SubmitRejected, submitted, tok)
    else if reply.body.NoMessage? then Trace(Raised, submitted, tok)
    else
      Prepend(submitted + [Sleep(InitialWaitSeconds(tc.size))],
              PollLoop(c, dataspace, baseUrl, TransactionId(reply.body.text), tok, polls, start))
  }

  /** What `importRate.add` receives: one sample for every import that reaches a decision. */
  function RateEntries(e: Ending): (samples: seq<bool>)
    ensures |samples| == 1 <==> e.SubmitRejected? || e.Decided?
    ensures samples == [] <==> e.Exhausted? || e.Raised?
    ensures true in samples <==> e.Decided? && e.verdict.Imported?
  {
    match e
    case SubmitRejected => [false]
    case Decided(v) => [v.Imported?]
    case _ => []
  }

  /** What `importTrend.add` receives: the import time, once per tag set. */
  function TrendEntries(e: Ending): (samples: seq<int>)
    ensures samples != [] <==> e.Decided? && e.verdict.Imported?
    ensures forall k :: 0 <= k < |samples| ==> samples[k] == e.verdict.elapsed
  {
    if e.Decided? && e.verdict.Imported? then [e.verdict.elapsed, e.verdict.elapsed]
    else []
  }

  /** A k6 `Rate` metric: the samples added to it. */
  class RateMetric {
    var samples: seq<bool>

    constructor ()
      ensures samples == []
    {
      samples := [];
    }

    method Add(b: bool)
      modifies this
      ensures samples == old(samples) + [b]
    {
      samples := samples + [b];
    }
  }

  /** A k6 `Trend` metric: the samples added to it; tags are not modelled. */
  class TrendMetric {
    var samples: seq<int>

    constructor ()
      ensures samples == []
    {
      samples := [];
    }

    method Add(x: int)
      modifies this
      ensures samples == old(samples) + [x]
    {
      samples := samples + [x];
    }
  }

  /**
   * The `status === 200` branch of the polling loop: decides on the reply and records a decision
   * in the metrics, leaving them untouched while the import is still running.
   */
  method Judge(outcome: string, executionStatus: string, executionStart: Option<int>,
               executionEnd: Option<int>, clock: int, start: int,
               importRate: RateMetric, importTrend: TrendMetric)
    returns (v: Verdict)
    modifies importRate, importTrend
    ensures v == Classify(outcome, executionStatus, executionStart, executionEnd, clock, start)
    ensures importRate.samples == old(importRate.samples) + (if v == KeepPolling then [] else RateEntries(Decided(v)))
    ensures importTrend.samples == old(importTrend.samples) + (if v == KeepPolling then [] else TrendEntries(Decided(v)))
  {
    if outcome == "Success" || outcome == "Warning" {
      var actual := Elapsed(executionStart, executionEnd);
      if actual.None? || actual.value <= 0 {
        importRate.Add(false);
        return BadImportTime;
      }
      importTrend.Add(actual.value);
      importTrend.Add(actual.value);
      importRate.Add(true);
      return Imported(actual.value);
    } else if outcome == "Error" || executionStatus == "TimedOut" || executionStatus == "Canceled" {
      importRate.Add(false);
      return ImportFailed;
    } else if clock - start >= TimeOutMs {
      importRate.Add(false);
      return TimedOut;
    }
    return KeepPolling;
  }

  /**
   * `importData`: submits the test case with the cached token, then polls the status of the
   * transaction, refreshing the token before every status request. The effects, the ending and
   * the token left in `config` are those of `Import`; the metrics receive `RateEntries` and
   * `TrendEntries` of the ending.
   */
  method ImportData(config: Config, tc: TestCase, importRate: RateMetric, importTrend: TrendMetric,
                    reply: SubmitReply, start: int, polls: seq<Poll>)
    returns (ending: Ending, effects: seq<Effect>)
    modifies config`accessToken, config`expiry, importRate, importTrend
    ensures var t := Import(old(config.Creds()), old(config.Token()), config.dataspace, config.transferBaseUrl,
                            tc, reply, start, polls);
            ending == t.ending && effects == t.effects && config.Token() == t.token
    ensures importRate.samples == old(importRate.samples) + RateEntries(ending)
    ensures importTrend.samples == old(importTrend.samples) + TrendEntries(ending)
  {
    var submit := SubmitRequest(config.transferBaseUrl + SubmitPath(tc.format), config.dataspace, 1,
                                config.accessToken, PayloadOf(tc));
    effects := [Post(Submission(submit)), Sleep(SleepAfterPost)];
    if reply.status != 200 {
      importRate.Add(false);
      return SubmitRejected, effects;
    }
    if reply.body.NoMessage? {
      return Raised, effects;
    }
    var id := TransactionId(reply.body.text);
    effects := effects + [Sleep(InitialWaitSeconds(tc.size))];
    var polled;
    ending, polled := PollUntilDone(config, id, start, polls, importRate, importTrend);
    effects := effects + polled;
  }

  /**
   * One pass through the body of the polling loop. The metrics receive the samples of the
   * ending when the round stops the loop, and nothing otherwise.
   */
  method PollOnce(config: Config, id: Option<nat>, start: int, p: Poll,
                  importRate: RateMetric, importTrend: TrendMetric)
    returns (r: RoundResult)
    modifies config`accessToken, config`expiry, importRate, importTrend
    ensures r == PollRound(old(config.Creds()), config.dataspace, config.transferBaseUrl, id, old(config.Token()), p, start)
    ensures config.Token() == r.token
    ensures importRate.samples == old(importRate.samples) + (if r.Stop? then RateEntries(r.ending) else [])
    ensures importTrend.samples == old(importTrend.samples) + (if r.Stop? then TrendEntries(r.ending) else [])
  {
    var effects := [];
    var step := config.TryToGetNewAccessToken(p.refreshClock, p.tokenReply);
    if step.Requested() {
      effects := effects + [Post(TokenGrant(step.request))];
    }
    if step.Threw? {
      return Stop(Raised, effects, config.Token());
    }
    var query := StatusRequest(config.transferBaseUrl + StatusRequestPath, config.dataspace, id, config.accessToken);
    effects := effects + [Post(StatusQuery(query)), Sleep(SleepAfterPost)];
    if p.status == 200 {
      if p.body.StatusNotJson? {
        return Stop(Raised, effects, config.Token());
      }
      var v := Judge(p.body.outcome, p.body.executionStatus, p.body.executionStart, p.body.executionEnd,
                     p.clock, start, importRate, importTrend);
      if v != KeepPolling {
        return Stop(Decided(v), effects, config.Token());
      }
    }
    effects := effects + [Sleep(SleepBetweenPolls)];
    return Continue(effects, config.Token());
  }

  /**
   * The `do { ... } while (true)` loop of `importData`, run over the rounds `polls`. Its effects,
   * ending and final token are those of `PollLoop`.
   */
  method PollUntilDone(config: Config, id: Option<nat>, start: int, polls: seq<Poll>,
                       importRate: RateMetric, importTrend: TrendMetric)
    returns (ending: Ending, effects: seq<Effect>)
    modifies config`accessToken, config`expiry, importRate, importTrend
    ensures var t := PollLoop(old(config.Creds()), config.dataspace, config.transferBaseUrl, id,
                              old(config.Token()), polls, start);
            ending == t.ending && effects == t.effects && config.Token() == t.token
    ensures importRate.samples == old(importRate.samples) + RateEntries(ending)
    ensures importTrend.samples == old(importTrend.samples) + TrendEntries(ending)
  {
    ghost var c, ds, url := config.Creds(), config.dataspace, config.transferBaseUrl;
    ghost var round := RoundOf(c, ds, url, id, start);
    ghost var whole := Rounds(round, config.Token(), polls, 0);
    effects := [];
    var i := 0;
    while i < |polls|
      invariant i <= |polls|
      invariant config.Creds() == c && config.dataspace == ds && config.transferBaseUrl == url
      invariant importRate.samples == old(importRate.samples)
      invariant importTrend.samples == old(importTrend.samples)
      invariant whole == Prepend(effects, Rounds(round, config.Token(), polls, i))
    {
      ghost var tok, before := config.Token(), effects;
      var r := PollOnce(config, id, start, polls[i], importRate, importTrend);
      assert round(tok, polls[i]) == r;
      effects := effects + r.effects;
      if r.Stop? {
        return r.ending, effects;
      }
      i := i + 1;
      PrependTwice(before, r.effects, Rounds(round, r.token, polls, i));
    }
    return Exhausted, effects;
  }

  /** The status requests among `effects`, in order. */
  function Queries(effects: seq<Effect>): seq<StatusRequest> {
    if effects == [] then []
    else
      var head := if effects[0].Post? && effects[0].request.StatusQuery? then [effects[0].request.query] else [];
      head + Queries(effects[1..])
  }

  lemma {:induction false} QueriesAppend(a: seq<Effect>, b: seq<Effect>)
    ensures Queries(a + b) == Queries(a) + Queries(b)
  {
    if a == [] {
      assert a + b == b;
    } else {
      assert (a + b)[0] == a[0] && (a + b)[1..] == a[1..] + b;
      QueriesAppend(a[1..], b);
    }
  }

  /** Effects without a status request ask for nothing. */
  lemma {:induction false} NoQueries(effects: seq<Effect>)
    requires forall k :: 0 <= k < |effects| ==> !(effects[k].Post? && effects[k].request.StatusQuery?)
    ensures Queries(effects) == []
  {
    if effects != [] {
      NoQueries(effects[1..]);
    }
  }

  /** The token posts among `effects`, in order. */
  function Grants(effects: seq<Effect>): seq<TokenRequest> {
    if effects == [] then []
    else
      var head := if effects[0].Post? && effects[0].request.TokenGrant? then [effects[0].request.grant] else [];
      head + Grants(effects[1..])
  }

  lemma {:induction false} GrantsAppend(a: seq<Effect>, b: seq<Effect>)
    ensures Grants(a + b) == Grants(a) + Grants(b)
  {
    if a == [] {
      assert a + b == b;
    } else {
      assert (a + b)[0] == a[0] && (a + b)[1..] == a[1..] + b;
      GrantsAppend(a[1..], b);
    }
  }

  /** The effects of a refresh and status request hold that one status request, and the refresh's grant. */
  lemma {:induction false} QueryEffectsShape(step: RefreshStep, q: StatusRequest)
    ensures Queries(QueryEffects(step, q)) == [q] && Queries(QueryEffects(step, q) + [Sleep(SleepBetweenPolls)]) == [q]
    ensures Grants(QueryEffects(step, q)) == Grants(QueryEffects(step, q) + [Sleep(SleepBetweenPolls)])
                                          == Grants(GrantEffects(step))
  {
    var tail := [Post(StatusQuery(q)), Sleep(SleepAfterPost)];
    assert Queries([Sleep(SleepAfterPost)]) == [] && Grants([Sleep(SleepAfterPost)]) == [];
    assert Queries([Sleep(SleepBetweenPolls)]) == [] && Grants([Sleep(SleepBetweenPolls)]) == [];
    assert tail[1..] == [Sleep(SleepAfterPost)];
    assert Queries(tail) == [q] && Grants(tail) == [];
    QueriesAppend(GrantEffects(step), tail);
    GrantsAppend(GrantEffects(step), tail);
    QueriesAppend(QueryEffects(step, q), [Sleep(SleepBetweenPolls)]);
    GrantsAppend(QueryEffects(step, q), [Sleep(SleepBetweenPolls)]);
  }

  /** The token refresh cannot throw: either it never posts, or every reply is JSON. */
  predicate RefreshNeverThrows(c: Credentials, polls: seq<Poll>) {
    !c.Complete() || forall k :: 0 <= k < |polls| ==> polls[k].tokenReply.TokenJson?
  }

  /** A round after which the loop goes on: a non-200 reply, or a 200 JSON reply judged `KeepPolling`. */
  predicate Quiet(p: Poll, start: int) {
    p.status != 200 || (p.body.StatusJson? && VerdictOf(p, start) == KeepPolling)
  }

  /** A round that ends the loop with a verdict. */
  predicate Decisive(p: Poll, start: int) {
    p.status == 200 && p.body.StatusJson? && VerdictOf(p, start) != KeepPolling
  }

  /** What one round does: it posts the refresh's grant, if any, and unless the refresh threw, one
      status request for `id` with the refreshed token; it goes on exactly after a quiet reply and
      decides exactly on a decisive one, with that reply's verdict. */
  lemma RoundShape(c: Credentials, ds: string, url: string, id: Option<nat>, tok: TokenState, p: Poll, start: int)
    ensures var r := PollRound(c, ds, url, id, tok, p, start);
            var step := Refresh(c, tok, p.refreshClock, p.tokenReply);
            && r.token == TokenAfter(tok, step)
            && Grants(r.effects) == Grants(GrantEffects(step))
            && Queries(r.effects) == (if step.Threw? then [] else [StatusRequest(url + StatusRequestPath, ds, id, r.token.accessToken)])
            && (step.Threw? <==> c.Complete() && !tok.ValidAt(p.refreshClock) && p.tokenReply.TokenNotJson?)
            && (r.Continue? <==> !step.Threw? && Quiet(p, start))
            && (r.Stop? && r.ending.Decided? <==> !step.Threw? && Decisive(p, start))
            && (r.Stop? && r.ending.Decided? ==> r.ending.verdict == VerdictOf(p, start))
            && (r.Stop? ==> r.ending.Raised? || r.ending.Decided?)
  {
    var step := Refresh(c, tok, p.refreshClock, p.tokenReply);
    QueryEffectsShape(step, StatusRequest(url + StatusRequestPath, ds, id, TokenAfter(tok, step).accessToken));
    if step.Threw? {
      assert GrantEffects(step)[1..] == [];
    }
  }

  // The loop lemmas are proved for any round function, from what its rounds are known to do,
  // and then applied to the round of `importData`.

  lemma {:induction false} RoundsStopAt(round: (TokenState, Poll) -> RoundResult, tok: TokenState,
                                        polls: seq<Poll>, i: nat, k: nat, e: Ending)
    requires i <= k < |polls|
    requires forall t: TokenState, j :: i <= j < k ==> round(t, polls[j]).Continue? && |Queries(round(t, polls[j]).effects)| == 1
    requires forall t: TokenState :: round(t, polls[k]).Stop? && round(t, polls[k]).ending == e
    requires forall t: TokenState :: |Queries(round(t, polls[k]).effects)| == 1
    ensures Rounds(round, tok, polls, i).ending == e
    ensures |Queries(Rounds(round, tok, polls, i).effects)| == k - i + 1
    decreases k - i
  {
    var r := round(tok, polls[i]);
    if i < k {
      var rest := Rounds(round, r.token, polls, i + 1);
      RoundsStopAt(round, r.token, polls, i + 1, k, e);
      QueriesAppend(r.effects, rest.effects);
    }
  }

  lemma {:induction false} RoundsRunOut(round: (TokenState, Poll) -> RoundResult, tok: TokenState,
                                        polls: seq<Poll>, i: nat)
    requires i <= |polls|
    requires forall t: TokenState, j :: i <= j < |polls| ==> round(t, polls[j]).Continue? && |Queries(round(t, polls[j]).effects)| == 1
    ensures Rounds(round, tok, polls, i).ending == Exhausted
    ensures |Queries(Rounds(round, tok, polls, i).effects)| == |polls| - i
    decreases |polls| - i
  {
    if i < |polls| {
      var r := round(tok, polls[i]);
      var rest := Rounds(round, r.token, polls, i + 1);
      RoundsRunOut(round, r.token, polls, i + 1);
      QueriesAppend(r.effects, rest.effects);
    }
  }

  lemma {:induction false} RoundsStopBy(round: (TokenState, Poll) -> RoundResult, tok: TokenState,
                                        polls: seq<Poll>, i: nat, k: nat)
    requires i <= k < |polls|
    requires forall t: TokenState, j :: i <= j <= k ==> |Queries(round(t, polls[j]).effects)| <= 1
    requires forall t: TokenState, j :: i <= j <= k && round(t, polls[j]).Stop? ==> !round(t, polls[j]).ending.Exhausted?
    requires forall t: TokenState :: round(t, polls[k]).Stop?
    ensures Rounds(round, tok, polls, i).ending != Exhausted
    ensures |Queries(Rounds(round, tok, polls, i).effects)| <= k - i + 1
    decreases k - i
  {
    var r := round(tok, polls[i]);
    if r.Continue? {
      var rest := Rounds(round, r.token, polls, i + 1);
      RoundsStopBy(round, r.token, polls, i + 1, k);
      QueriesAppend(r.effects, rest.effects);
    }
  }

  /** Every status request asks the status endpoint of `url`, in dataspace `ds`, for transaction `id`. */
  predicate QueriesFor(qs: seq<StatusRequest>, url: string, ds: string, id: Option<nat>) {
    forall k :: 0 <= k < |qs| ==> qs[k].url == url + StatusRequestPath && qs[k].dataspace == ds && qs[k].id == id
  }

  lemma QueriesForAppend(a: seq<StatusRequest>, b: seq<StatusRequest>, url: string, ds: string, id: Option<nat>)
    requires QueriesFor(a, url, ds, id) && QueriesFor(b, url, ds, id)
    ensures QueriesFor(a + b, url, ds, id)
  {
  }

  lemma {:induction false} RoundsQueryFor(round: (TokenState, Poll) -> RoundResult, tok: TokenState,
                                          polls: seq<Poll>, i: nat, url: string, ds: string, id: Option<nat>)
    requires i <= |polls|
    requires forall t: TokenState, j :: i <= j < |polls| ==> QueriesFor(Queries(round(t, polls[j]).effects), url, ds, id)
    ensures QueriesFor(Queries(Rounds(round, tok, polls, i).effects), url, ds, id)
    decreases |polls| - i
  {
    if i < |polls| {
      var r := round(tok, polls[i]);
      if r.Continue? {
        var rest := Rounds(round, r.token, polls, i + 1);
        RoundsQueryFor(round, r.token, polls, i + 1, url, ds, id);
        QueriesAppend(r.effects, rest.effects);
        QueriesForAppend(Queries(r.effects), Queries(rest.effects), url, ds, id);
      }
    }
  }

  /** Every status request carries the bearer token `bearer`. */
  predicate Bearing(qs: seq<StatusRequest>, bearer: string) {
    forall k :: 0 <= k < |qs| ==> qs[k].bearer == bearer
  }

  lemma BearingAppend(a: seq<StatusRequest>, b: seq<StatusRequest>, bearer: string)
    requires Bearing(a, bearer) && Bearing(b, bearer)
    ensures Bearing(a + b, bearer)
  {
  }

  lemma {:induction false} RoundsKeepToken(round: (TokenState, Poll) -> RoundResult, tok: TokenState,
                                           polls: seq<Poll>, i: nat)
    requires i <= |polls|
    requires forall j :: i <= j < |polls| ==> round(tok, polls[j]).token == tok
    requires forall j :: i <= j < |polls| ==> Grants(round(tok, polls[j]).effects) == []
    requires forall j :: i <= j < |polls| ==> Bearing(Queries(round(tok, polls[j]).effects), tok.accessToken)
    ensures Rounds(round, tok, polls, i).token == tok
    ensures Grants(Rounds(round, tok, polls, i).effects) == []
    ensures Bearing(Queries(Rounds(round, tok, polls, i).effects), tok.accessToken)
    decreases |polls| - i
  {
    if i < |polls| {
      var r := round(tok, polls[i]);
      if r.Continue? {
        var rest := Rounds(round, tok, polls, i + 1);
        RoundsKeepToken(round, tok, polls, i + 1);
        QueriesAppend(r.effects, rest.effects);
        GrantsAppend(r.effects, rest.effects);
        BearingAppend(Queries(r.effects), Queries(rest.effects), tok.accessToken);
      }
    }
  }

  lemma {:induction false} RoundsDecideBy(round: (TokenState, Poll) -> RoundResult, tok: TokenState,
                                          polls: seq<Poll>, i: nat, start: int)
    requires i <= |polls|
    requires forall t: TokenState, j :: i <= j < |polls| && round(t, polls[j]).Stop? && round(t, polls[j]).ending.Decided?
               ==> Decisive(polls[j], start) && round(t, polls[j]).ending.verdict == VerdictOf(polls[j], start)
    ensures var e := Rounds(round, tok, polls, i).ending;
            e.Decided? ==> exists k :: i <= k < |polls| && Decisive(polls[k], start) && e.verdict == VerdictOf(polls[k], start)
    decreases |polls| - i
  {
    if i < |polls| {
      var r := round(tok, polls[i]);
      if r.Continue? {
        RoundsDecideBy(round, r.token, polls, i + 1, start);
      }
    }
  }

  /** Polling stops at the first decisive round, with that round's verdict, after one status request
      per round up to and including it. */
  lemma LoopDecidesAtFirstDecisive(c: Credentials, ds: string, url: string, id: Option<nat>,
                                   tok: TokenState, polls: seq<Poll>, k: nat, start: int)
    requires k < |polls| && RefreshNeverThrows(c, polls)
    requires forall j :: 0 <= j < k ==> Quiet(polls[j], start)
    requires Decisive(polls[k], start)
    ensures PollLoop(c, ds, url, id, tok, polls, start).ending == Decided(VerdictOf(polls[k], start))
    ensures |Queries(PollLoop(c, ds, url, id, tok, polls, start).effects)| == k + 1
  {
    var round := RoundOf(c, ds, url, id, start);
    forall t: TokenState, j | 0 <= j <= k
      ensures j < k ==> round(t, polls[j]).Continue?
      ensures j == k ==> round(t, polls[j]).Stop? && round(t, polls[j]).ending == Decided(VerdictOf(polls[k], start))
      ensures |Queries(round(t, polls[j]).effects)| == 1
    {
      RoundShape(c, ds, url, id, t, polls[j], start);
    }
    RoundsStopAt(round, tok, polls, 0, k, Decided(VerdictOf(polls[k], start)));
  }

  /** The deadline is only consulted on a 200 reply: while the status endpoint answers anything
      else, the loop goes on whatever the clock says, one status request per round. */
  lemma Non200PollsNeverDecide(c: Credentials, ds: string, url: string, id: Option<nat>,
                               tok: TokenState, polls: seq<Poll>, start: int)
    requires RefreshNeverThrows(c, polls)
    requires forall j :: 0 <= j < |polls| ==> polls[j].status != 200
    ensures PollLoop(c, ds, url, id, tok, polls, start).ending == Exhausted
    ensures |Queries(PollLoop(c, ds, url, id, tok, polls, start).effects)| == |polls|
  {
    var round := RoundOf(c, ds, url, id, start);
    forall t: TokenState, j | 0 <= j < |polls|
      ensures round(t, polls[j]).Continue? && |Queries(round(t, polls[j]).effects)| == 1
    {
      RoundShape(c, ds, url, id, t, polls[j], start);
    }
    RoundsRunOut(round, tok, polls, 0);
  }

  /** A 200 JSON reply read at or after the deadline ends the loop there at the latest. */
  lemma DeadlineStopsPolling(c: Credentials, ds: string, url: string, id: Option<nat>,
                             tok: TokenState, polls: seq<Poll>, k: nat, start: int)
    requires k < |polls| && RefreshNeverThrows(c, polls)
    requires polls[k].status == 200 && polls[k].body.StatusJson? && polls[k].clock - start >= TimeOutMs
    ensures PollLoop(c, ds, url, id, tok, polls, start).ending != Exhausted
    ensures |Queries(PollLoop(c, ds, url, id, tok, polls, start).effects)| <= k + 1
  {
    var round := RoundOf(c, ds, url, id, start);
    forall t: TokenState, j | 0 <= j <= k
      ensures |Queries(round(t, polls[j]).effects)| <= 1
      ensures round(t, polls[j]).Stop? ==> !round(t, polls[j]).ending.Exhausted?
      ensures j == k ==> round(t, polls[j]).Stop?
    {
      RoundShape(c, ds, url, id, t, polls[j], start);
    }
    RoundsStopBy(round, tok, polls, 0, k);
  }

  /** Every status request of the loop asks for transaction `id`. */
  lemma PollingAsksForTheTransaction(c: Credentials, ds: string, url: string, id: Option<nat>,
                                     tok: TokenState, polls: seq<Poll>, start: int)
    ensures QueriesFor(Queries(PollLoop(c, ds, url, id, tok, polls, start).effects), url, ds, id)
  {
    var round := RoundOf(c, ds, url, id, start);
    forall t: TokenState, j | 0 <= j < |polls|
      ensures QueriesFor(Queries(round(t, polls[j]).effects), url, ds, id)
    {
      RoundShape(c, ds, url, id, t, polls[j], start);
    }
    RoundsQueryFor(round, tok, polls, 0, url, ds, id);
  }

  /** Without complete credentials no token is ever requested: the cached token is kept, and
      every status request carries it. */
  lemma NoCredentialsNoGrants(c: Credentials, ds: string, url: string, id: Option<nat>,
                              tok: TokenState, polls: seq<Poll>, start: int)
    requires !c.Complete()
    ensures var t := PollLoop(c, ds, url, id, tok, polls, start);
            && t.token == tok && Grants(t.effects) == [] && Bearing(Queries(t.effects), tok.accessToken)
  {
    var round := RoundOf(c, ds, url, id, start);
    forall j | 0 <= j < |polls|
      ensures round(tok, polls[j]).token == tok && Grants(round(tok, polls[j]).effects) == []
      ensures Bearing(Queries(round(tok, polls[j]).effects), tok.accessToken)
    {
      RoundShape(c, ds, url, id, tok, polls[j], start);
      assert Grants([]) == [];
    }
    RoundsKeepToken(round, tok, polls, 0);
  }

  /** A verdict always comes from a decisive 200 JSON reply judged by `Classify`; in particular an
      import is only counted as imported with a positive duration. */
  lemma VerdictFromA200Reply(c: Credentials, ds: string, url: string, id: Option<nat>,
                             tok: TokenState, polls: seq<Poll>, start: int)
    ensures var e := PollLoop(c, ds, url, id, tok, polls, start).ending;
            e.Decided? ==> exists k :: 0 <= k < |polls| && Decisive(polls[k], start) && e.verdict == VerdictOf(polls[k], start)
    ensures var e := PollLoop(c, ds, url, id, tok, polls, start).ending;
            e.Decided? && e.verdict.Imported? ==> e.verdict.elapsed > 0
  {
    var round := RoundOf(c, ds, url, id, start);
    forall t: TokenState, j | 0 <= j < |polls| && round(t, polls[j]).Stop? && round(t, polls[j]).ending.Decided?
      ensures Decisive(polls[j], start) && round(t, polls[j]).ending.verdict == VerdictOf(polls[j], start)
    {
      RoundShape(c, ds, url, id, t, polls[j], start);
    }
    RoundsDecideBy(round, tok, polls, 0, start);
  }

  /** A rejected submission is counted as one failed import, and nothing is polled. */
  lemma RejectedSubmissionNeverPolls(c: Credentials, tok: TokenState, ds: string, url: string, tc: TestCase,
                                     reply: SubmitReply, start: int, polls: seq<Poll>)
    requires reply.status != 200
    ensures var t := Import(c, tok, ds, url, tc, reply, start, polls);
            && t.ending == SubmitRejected && RateEntries(t.ending) == [false]
            && t.effects == [Post(Submission(SubmissionOf(url, ds, tok.accessToken, tc))), Sleep(SleepAfterPost)]
            && Queries(t.effects) == []
  {
    NoQueries(Import(c, tok, ds, url, tc, reply, start, polls).effects);
  }

  /** After an accepted submission, the import waits the time of the test case's size, and every
      status request asks for the transaction id read from the reply's message. */
  lemma ImportPollsItsTransaction(c: Credentials, tok: TokenState, ds: string, url: string, tc: TestCase,
                                  message: string, start: int, polls: seq<Poll>)
    ensures var t := Import(c, tok, ds, url, tc, SubmitReply(200, Message(message)), start, polls);
            && t.effects[..3] == [Post(Submission(SubmissionOf(url, ds, tok.accessToken, tc))), Sleep(SleepAfterPost),
                                  Sleep(InitialWaitSeconds(tc.size))]
            && QueriesFor(Queries(t.effects), url, ds, TransactionId(message))
  {
    var loop := PollLoop(c, ds, url, TransactionId(message), tok, polls, start);
    var first := [Post(Submission(SubmissionOf(url, ds, tok.accessToken, tc))), Sleep(SleepAfterPost),
                  Sleep(InitialWaitSeconds(tc.size))];
    assert (first + loop.effects)[..3] == first;
    PollingAsksForTheTransaction(c, ds, url, TransactionId(message), tok, polls, start);
    QueriesAppend(first, loop.effects);
    NoQueries(first);
  }
}
