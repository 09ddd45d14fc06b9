/** The request executor: the client, its hook chain, the retry loop and the
    error log.

    The outside world of one call is an `Env`: the answer each registered
    hook's before-request callback gives (by hook position), the transport's
    answer on each attempt (by attempt number, from 0) and the status text of
    an HTTP status code. What the call does to the outside world is returned in
    its `Outcome`: the (response, error) pair, how many before-request
    callbacks and transport attempts were made, the log entries written, and
    the after-request callbacks made, in order. */
module Executor {
  import opened Errors
  import opened Http
  import Signer

  /** A registered hook: the client's credentials, or any other interceptor. */
  datatype Hook = CredentialsHook(credentials: Signer.Credentials) | CustomHook(name: string)

  /** The transport's answer on one attempt. */
  datatype Attempt = TransportFailure(cause: string) | Delivered(resp: Response)

  datatype Env = Env(
    before: nat -> Option<Error>,
    transport: nat -> Attempt,
    statusText: int -> string)

  /** Log levels (`LogError` is 1) and the tag printed for each level. */
  const LogError: int := 1
  const LogTag: seq<string> := ["[error]", "[warn]", "[info]", "[debug]"]

  datatype LogRecord =
    | RequestRecord(verb: string, url: string, header: map<string, string>)
    | ResponseRecord(statusCode: int, header: map<string, string>)
    | NoResponseRecord

  datatype LogEntry = LogEntry(tag: string, record: LogRecord)

  /** `WriteLog`: nothing without a logger; otherwise one entry tagged with
      the level's tag. The tag table has four entries, so a logger demands a
      level from 1 to 4. */
  function WriteLog(hasLogger: bool, level: int, record: LogRecord): (e: Option<LogEntry>)
    requires hasLogger ==> 1 <= level <= |LogTag|
    ensures e.None? <==> !hasLogger
    ensures e.Some? ==> e.value.record == record && e.value.tag == LogTag[level - 1]
  {
    if !hasLogger then None else Some(LogEntry(LogTag[level - 1], record))
  }

  /** The entries a logging call writes: none or one. */
  function Entries(e: Option<LogEntry>): (entries: seq<LogEntry>)
  {
    if e.Some? then [e.value] else []
  }

  /** `LoggerHTTPReq`: the request, at error level, when there is a logger. */
  function LoggerHttpReq(hasLogger: bool, req: LogRecord): (e: Option<LogEntry>)
    ensures e.Some? <==> hasLogger
    ensures e.Some? ==> e.value == LogEntry("[error]", req)
  {
    WriteLog(hasLogger, LogError, req)
  }

  /** `LoggerHTTPResp` as written: it reads the response's status code, so it
      is defined only when there is a response (on none, Go panics). */
  function LoggerHttpRespAsWritten(hasLogger: bool, resp: Option<Response>): (e: Option<LogEntry>)
    requires resp.Some?
    ensures e.Some? ==> e.value.record == ResponseRecord(resp.value.statusCode, resp.value.header)
  {
    WriteLog(hasLogger, LogError, ResponseRecord(resp.value.statusCode, resp.value.header))
  }

  /** `LoggerHTTPResp` with an absent response treated as a case of its own. */
  function LoggerHttpResp(hasLogger: bool, resp: Option<Response>): (e: Option<LogEntry>)
    ensures e.Some? <==> hasLogger
    ensures e.Some? ==> e.value.tag == "[error]"
    ensures e.Some? && resp.Some? ==> e.value.record == ResponseRecord(resp.value.statusCode, resp.value.header)
    ensures e.Some? && resp.None? ==> e.value.record == NoResponseRecord
  {
    if resp.None? then WriteLog(hasLogger, LogError, NoResponseRecord)
    else LoggerHttpRespAsWritten(hasLogger, resp)
  }

  /** The (response, error) pair the loop holds after an attempt. */
  datatype Exchange = Exchange(resp: Option<Response>, err: Option<Error>)

  predicate Succeeds(a: Attempt)
  {
    a.Delivered? && 200 <= a.resp.statusCode <= 299
  }

  /** One attempt: a transport failure leaves no response; a status outside
      [200, 299] is an error naming the status, its text and the trace id. */
  function Classify(a: Attempt, statusText: int -> string): (ex: Exchange)
    ensures ex.err.None? <==> Succeeds(a)
    ensures ex.resp.None? <==> a.TransportFailure?
  {
    match a
    case TransportFailure(cause) => Exchange(None, Some(HttpDo(cause)))
    case Delivered(r) =>
      if r.statusCode < 200 || r.statusCode > 299 then
        Exchange(Some(r), Some(HttpStatus(r.statusCode, statusText(r.statusCode), GetTraceId(r))))
      else
        Exchange(Some(r), None)
  }

  datatype RetryResult = RetryResult(exchange: Exchange, attempts: nat)

  /** The retry loop from attempt `i` on, holding `last`: attempts continue
      while fewer than `maxRetry` were made and the last one failed. */
  function RetryFrom(maxRetry: int, env: Env, i: nat, last: Exchange): (r: RetryResult)
    decreases maxRetry - i
    ensures maxRetry <= i ==> r == RetryResult(last, i)
    ensures i < maxRetry ==> i < r.attempts <= maxRetry
    ensures i < maxRetry ==> r.exchange == Classify(env.transport(r.attempts - 1), env.statusText)
    ensures forall j :: i <= j < r.attempts - 1 ==> !Succeeds(env.transport(j))
  {
    if maxRetry <= i then RetryResult(last, i)
    else
      var ex := Classify(env.transport(i), env.statusText);
      if ex.err.None? then RetryResult(ex, i + 1)
      else RetryFrom(maxRetry, env, i + 1, ex)
  }

  /** The whole retry loop, which starts with neither response nor error:
      with no attempt allowed it returns (none, none); otherwise it returns
      the classified last attempt, after at most `maxRetry` attempts of which
      only the last may have succeeded. */
  function Retry(maxRetry: int, env: Env): (r: RetryResult)
    ensures maxRetry <= 0 ==> r == RetryResult(Exchange(None, None), 0)
    ensures 0 < maxRetry ==> 0 < r.attempts <= maxRetry
    ensures 0 < maxRetry ==> r.exchange == Classify(env.transport(r.attempts - 1), env.statusText)
    ensures forall j :: 0 <= j < r.attempts - 1 ==> !Succeeds(env.transport(j))
  {
    RetryFrom(maxRetry, env, 0, Exchange(None, None))
  }

  /** The index of the first hook whose before-request callback fails, at or
      after `i`, or `n` when none of them fails. */
  function FirstFailure(before: nat -> Option<Error>, i: nat, n: nat): (k: nat)
    requires i <= n
    decreases n - i
    ensures i <= k <= n
    ensures forall j :: i <= j < k ==> before(j).None?
    ensures k < n ==> before(k).Some?
  {
    if i == n then n
    else if before(i).Some? then i
    else FirstFailure(before, i + 1, n)
  }

  /** One after-request callback: the hook and the (response, error) it got. */
  datatype AfterCall = AfterCall(hook: Hook, resp: Option<Response>, err: Option<Error>)

  /** The after-request loop: every hook, once and in order, with the same
      (response, error). */
  function Notify(hooks: seq<Hook>, resp: Option<Response>, err: Option<Error>): (calls: seq<AfterCall>)
    ensures |calls| == |hooks|
    ensures forall j :: 0 <= j < |calls| ==> calls[j].hook == hooks[j] && calls[j].resp == resp && calls[j].err == err
  {
    seq(|hooks|, j requires 0 <= j < |hooks| => AfterCall(hooks[j], resp, err))
  }

  datatype Outcome = Outcome(
    resp: Option<Response>,
    err: Option<Error>,
    beforeCalls: nat,
    attempts: nat,
    logged: seq<LogEntry>,
    afterCalls: seq<AfterCall>)

  /** `do`, as a function of the client's configuration and the world. */
  function Execute(hooks: seq<Hook>, maxRetry: int, hasLogger: bool, req: LogRecord, env: Env): (out: Outcome)
    ensures 1 <= out.beforeCalls <= |hooks| || out.beforeCalls == |hooks| == 0
    ensures out.attempts <= if maxRetry < 0 then 0 else maxRetry
    ensures out.attempts > 0 ==> out.beforeCalls == |hooks|
    ensures out.err.None? ==> out.logged == []
    ensures |out.afterCalls| == 0 || |out.afterCalls| == |hooks|
  {
    var k := FirstFailure(env.before, 0, |hooks|);
    if k < |hooks| then
      Outcome(None, Some(HookBefore(env.before(k).value)), k + 1, 0, [], [])
    else
      var r := Retry(maxRetry, env);
      var ex := r.exchange;
      var logged := if ex.err.Some? then Entries(LoggerHttpReq(hasLogger, req)) + Entries(LoggerHttpResp(hasLogger, ex.resp))
                    else [];
      Outcome(ex.resp, ex.err, |hooks|, r.attempts, logged, Notify(hooks, ex.resp, ex.err))
  }

  predicate HooksPass(hooks: seq<Hook>, env: Env)
  {
    forall j :: 0 <= j < |hooks| ==> env.before(j).None?
  }

  /** The first failing before-request callback stops the chain: the later
      hooks are not asked, no attempt is made, no after-request callback runs,
      and the result is no response with the hook's error wrapped. */
  lemma HookErrorStopsChain(hooks: seq<Hook>, maxRetry: int, hasLogger: bool, req: LogRecord, env: Env, k: nat)
    requires k < |hooks| && env.before(k).Some?
    requires forall j :: 0 <= j < k ==> env.before(j).None?
    ensures Execute(hooks, maxRetry, hasLogger, req, env)
         == Outcome(None, Some(HookBefore(env.before(k).value)), k + 1, 0, [], [])
  {
    assert FirstFailure(env.before, 0, |hooks|) == k;
  }

  /** When every before-request callback succeeds, all of them run and the
      result is that of the retry loop. */
  lemma HooksPassThenRetry(hooks: seq<Hook>, maxRetry: int, hasLogger: bool, req: LogRecord, env: Env)
    requires HooksPass(hooks, env)
    ensures var out := Execute(hooks, maxRetry, hasLogger, req, env);
      && out.beforeCalls == |hooks|
      && Exchange(out.resp, out.err) == Retry(maxRetry, env).exchange
      && out.attempts == Retry(maxRetry, env).attempts
  {
    assert FirstFailure(env.before, 0, |hooks|) == |hooks|;
  }

  /** Attempts never exceed `maxRetry`; with `maxRetry <= 0` there is none,
      and the loop yields neither response nor error. */
  lemma RetryBounded(maxRetry: int, env: Env)
    ensures Retry(maxRetry, env).attempts <= if maxRetry < 0 then 0 else maxRetry
    ensures maxRetry <= 0 ==> Retry(maxRetry, env) == RetryResult(Exchange(None, None), 0)
  {
  }

  lemma {:induction false} FirstSuccessFrom(maxRetry: int, env: Env, i: nat, last: Exchange, k: nat)
    requires i <= k < maxRetry && Succeeds(env.transport(k))
    requires forall j :: i <= j < k ==> !Succeeds(env.transport(j))
    ensures RetryFrom(maxRetry, env, i, last)
         == RetryResult(Exchange(Some(env.transport(k).resp), None), k + 1)
    decreases maxRetry - i
  {
    if i < k {
      assert !Succeeds(env.transport(i));
      FirstSuccessFrom(maxRetry, env, i + 1, Classify(env.transport(i), env.statusText), k);
    }
  }

  /** The loop stops at the first attempt with a status in [200, 299]: after
      exactly that many attempts, with that response and no error, whatever
      failed before. */
  lemma FirstSuccessEndsLoop(maxRetry: int, env: Env, k: nat)
    requires k < maxRetry && Succeeds(env.transport(k))
    requires forall j :: 0 <= j < k ==> !Succeeds(env.transport(j))
    ensures Retry(maxRetry, env) == RetryResult(Exchange(Some(env.transport(k).resp), None), k + 1)
  {
    FirstSuccessFrom(maxRetry, env, 0, Exchange(None, None), k);
  }

  lemma {:induction false} AllFailFrom(maxRetry: int, env: Env, i: nat, last: Exchange)
    requires i < maxRetry
    requires forall j :: i <= j < maxRetry ==> !Succeeds(env.transport(j))
    ensures RetryFrom(maxRetry, env, i, last)
         == RetryResult(Classify(env.transport(maxRetry - 1), env.statusText), maxRetry)
    decreases maxRetry - i
  {
    assert !Succeeds(env.transport(i));
    if i + 1 < maxRetry {
      AllFailFrom(maxRetry, env, i + 1, Classify(env.transport(i), env.statusText));
    }
  }

  /** When every attempt fails, exactly `maxRetry` attempts are made and the
      last attempt's failure is returned: no response and the transport's
      cause, or the response with its status, status text and trace id. */
  lemma ExhaustedReturnsLastAttempt(maxRetry: int, env: Env)
    requires 1 <= maxRetry
    requires forall j :: 0 <= j < maxRetry ==> !Succeeds(env.transport(j))
    ensures Retry(maxRetry, env).attempts == maxRetry
    ensures var last := env.transport(maxRetry - 1);
      && (last.TransportFailure? ==>
            Retry(maxRetry, env).exchange == Exchange(None, Some(HttpDo(last.cause))))
      && (last.Delivered? ==>
            Retry(maxRetry, env).exchange
            == Exchange(Some(last.resp), Some(HttpStatus(last.resp.statusCode,
                                                         env.statusText(last.resp.statusCode),
                                                         GetTraceId(last.resp)))))
  {
    AllFailFrom(maxRetry, env, 0, Exchange(None, None));
  }

  lemma {:induction false} ErrorIffNoSuccessFrom(maxRetry: int, env: Env, i: nat, last: Exchange)
    requires i < maxRetry
    ensures RetryFrom(maxRetry, env, i, last).exchange.err.None?
        <==> exists k :: i <= k < maxRetry && Succeeds(env.transport(k))
    decreases maxRetry - i
  {
    if Succeeds(env.transport(i)) {
    } else if i + 1 < maxRetry {
      ErrorIffNoSuccessFrom(maxRetry, env, i + 1, Classify(env.transport(i), env.statusText));
      if exists k :: i <= k < maxRetry && Succeeds(env.transport(k)) {
        var k :| i <= k < maxRetry && Succeeds(env.transport(k));
        assert i + 1 <= k;
      }
    }
  }

  /** With at least one attempt allowed, the loop ends without error exactly
      when some allowed attempt succeeds. */
  lemma ErrorIffNoSuccess(maxRetry: int, env: Env)
    requires 1 <= maxRetry
    ensures Retry(maxRetry, env).exchange.err.None?
        <==> exists k :: 0 <= k < maxRetry && Succeeds(env.transport(k))
  {
    ErrorIffNoSuccessFrom(maxRetry, env, 0, Exchange(None, None));
  }

  /** After the before phase succeeded, every hook's after-request callback
      runs exactly once, in registration order, with the final pair. */
  lemma AfterHooksSeeFinalResult(hooks: seq<Hook>, maxRetry: int, hasLogger: bool, req: LogRecord, env: Env)
    requires HooksPass(hooks, env)
    ensures var out := Execute(hooks, maxRetry, hasLogger, req, env);
      && |out.afterCalls| == |hooks|
      && forall j :: 0 <= j < |hooks| ==> out.afterCalls[j] == AfterCall(hooks[j], out.resp, out.err)
  {
    HooksPassThenRetry(hooks, maxRetry, hasLogger, req, env);
  }

  /** A final error logs the request and then the response (or its absence),
      both at error level; a success logs nothing. */
  lemma FinalErrorIsLogged(hooks: seq<Hook>, maxRetry: int, hasLogger: bool, req: LogRecord, env: Env)
    requires HooksPass(hooks, env)
    ensures var out := Execute(hooks, maxRetry, hasLogger, req, env);
      && (out.err.None? ==> out.logged == [])
      && (out.err.Some? && !hasLogger ==> out.logged == [])
      && (out.err.Some? && hasLogger ==>
            && |out.logged| == 2
            && out.logged[0] == LogEntry("[error]", req)
            && out.logged[1].tag == "[error]"
            && out.logged[1].record == if out.resp.Some? then ResponseRecord(out.resp.value.statusCode, out.resp.value.header)
                                       else NoResponseRecord)
  {
    HooksPassThenRetry(hooks, maxRetry, hasLogger, req, env);
  }

  /** The case the as-written response logger cannot handle: three allowed
      attempts that all fail in transport end with an error and no response,
      so `LoggerHttpRespAsWritten` would be reached without a response. */
  lemma FinalTransportFailureHasNoResponse()
    ensures var env := Env(j => None, j => TransportFailure("connection refused"), c => "");
      && Retry(3, env).exchange.err == Some(HttpDo("connection refused"))
      && Retry(3, env).exchange.resp.None?
      && Retry(3, env).attempts == 3
  {
    var env := Env(j => None, j => TransportFailure("connection refused"), c => "");
    ExhaustedReturnsLastAttempt(3, env);
  }

  /** The retry loop of `do`: starting from neither response nor error, it
      makes attempts while fewer than `maxRetry` were made, keeps the last
      attempt's (response, error) and leaves at the first status in
      [200, 299]. */
  method RetryLoop(maxRetry: int, env: Env) returns (resp: Option<Response>, err: Option<Error>, attempts: nat)
    ensures RetryResult(Exchange(resp, err), attempts) == Retry(maxRetry, env)
  {
    resp, err, attempts := None, None, 0;
    while attempts < maxRetry
      invariant Retry(maxRetry, env) == RetryFrom(maxRetry, env, attempts, Exchange(resp, err))
    {
      var a := env.transport(attempts);
      attempts := attempts + 1;
      if a.TransportFailure? {
        resp, err := None, Some(HttpDo(a.cause));
        continue;
      }
      resp := Some(a.resp);
      if a.resp.statusCode < 200 || a.resp.statusCode > 299 {
        err := Some(HttpStatus(a.resp.statusCode, env.statusText(a.resp.statusCode), GetTraceId(a.resp)));
        continue;
      }
      err := None;
      break;
    }
  }

  /** The after-request loop of `do`: each hook in order gets the final
      (response, error). */
  method NotifyLoop(hooks: seq<Hook>, resp: Option<Response>, err: Option<Error>) returns (calls: seq<AfterCall>)
    ensures calls == Notify(hooks, resp, err)
  {
    calls := [];
    var h := 0;
    while h < |hooks|
      invariant 0 <= h <= |hooks|
      invariant |calls| == h
      invariant forall j :: 0 <= j < h ==> calls[j] == AfterCall(hooks[j], resp, err)
    {
      calls := calls + [AfterCall(hooks[h], resp, err)];
      h := h + 1;
    }
  }

  /** The SDK client. Its configuration is read by `Do`; only
      `AddHttpHooks` changes it. */
  class Client {
    var maxRetryTimes: int
    var hooks: seq<Hook>
    var credentials: Signer.Credentials
    var hasLogger: bool
    var isDebug: bool

    /** `NewDefaultClient`: three attempts, a logger, and the credentials as
        the only hook. */
    constructor NewDefault(c: Signer.Credentials)
      ensures maxRetryTimes == 3 && hooks == [CredentialsHook(c)] && credentials == c
      ensures hasLogger && !isDebug
    {
      maxRetryTimes := 3;
      hooks := [];
      credentials := c;
      hasLogger := true;
      isDebug := false;
      new;
      AddHttpHooks([CredentialsHook(c)]);
    }

    /** Registers hooks after the existing ones, keeping their order. */
    method AddHttpHooks(more: seq<Hook>)
      modifies this`hooks
      ensures hooks == old(hooks) + more
    {
      hooks := hooks + more;
    }

    /** `do`: runs the before-request callbacks in order and stops at the
        first error; then makes up to `maxRetryTimes` attempts, stopping at
        the first status in [200, 299]; logs a final error; then runs every
        after-request callback with the final (response, error). */
    method Do(req: Request, env: Env) returns (out: Outcome)
      ensures out == Execute(hooks, maxRetryTimes, hasLogger, RequestRecord(req.verb, req.url, req.header), env)
    {
      var i := 0;
      while i < |hooks|
        invariant 0 <= i <= |hooks|
        invariant forall j :: 0 <= j < i ==> env.before(j).None?
      {
        var e := env.before(i);
        if e.Some? {
          HookErrorStopsChain(hooks, maxRetryTimes, hasLogger, RequestRecord(req.verb, req.url, req.header), env, i);
          return Outcome(None, Some(HookBefore(e.value)), i + 1, 0, [], []);
        }
        i := i + 1;
      }

      var resp, err, attempts := RetryLoop(maxRetryTimes, env);

      var logged: seq<LogEntry> := [];
      if err.Some? {
        logged := Entries(LoggerHttpReq(hasLogger, RequestRecord(req.verb, req.url, req.header)))
                + Entries(LoggerHttpResp(hasLogger, resp));
      }

      var notified := NotifyLoop(hooks, resp, err);
      HooksPassThenRetry(hooks, maxRetryTimes, hasLogger, RequestRecord(req.verb, req.url, req.header), env);
      out := Outcome(resp, err, |hooks|, attempts, logged, notified);
    }
  }
}
