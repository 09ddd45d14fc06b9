/** The caller layer: every `Caller` method makes one client call and turns
    its (response, error) into a typed value or an error, in the same way:
    a client error is passed up wrapped; otherwise the body is decoded, its
    business code classified, and a non-success code becomes an error that
    names the trace id. The pattern is modelled once, generically over the
    payload type; JSON decoding is a function-valued parameter. */
module Caller {
  import opened Errors
  import opened Http
  import Codes
  import Executor

  /** A decoded response body: its business code and its payload. */
  datatype Envelope<D> = Envelope(code: string, data: D)

  /** What a `Caller` method returns: its value (the zero value on error) and
      its error. */
  datatype Reply<T> = Reply(value: T, err: Option<Error>)

  /** The pattern as written. It reads the response body whenever the client
      reported no error, so it is defined only when a response is then
      present (on none, Go panics). */
  function HandleAsWritten<D, T>(operation: string, resp: Option<Response>, err: Option<Error>,
                                 decode: seq<byte> -> Result<Envelope<D>, string>,
                                 project: D -> T, zero: T, request: Option<string>): (r: Reply<T>)
    requires err.None? ==> resp.Some?
    ensures err.Some? ==> r == Reply(zero, Some(ClientCall(operation, err.value)))
    ensures r.err.None? <==> (&& err.None?
                              && decode(resp.value.body).Ok?
                              && decode(resp.value.body).value.code == Codes.OkCode)
    ensures r.err.None? ==> r.value == project(decode(resp.value.body).value.data)
    ensures r.err.Some? ==> r.value == zero
    ensures err.None? && decode(resp.value.body).Err? ==>
              r.err == Some(JsonDecode(decode(resp.value.body).error))
    ensures err.None? && decode(resp.value.body).Ok? && decode(resp.value.body).value.code != Codes.OkCode ==>
              r.err == Some(BusinessCode(GetTraceId(resp.value),
                                         CodeError(Codes.Message(decode(resp.value.body).value.code)),
                                         request))
  {
    if err.Some? then Reply(zero, Some(ClientCall(operation, err.value)))
    else
      match decode(resp.value.body)
      case Err(cause) => Reply(zero, Some(JsonDecode(cause)))
      case Ok(envelope) =>
        match Codes.Err(envelope.code)
        case Some(codeErr) => Reply(zero, Some(BusinessCode(GetTraceId(resp.value), codeErr, request)))
        case None => Reply(project(envelope.data), None)
  }

  /** The pattern with the missing-response case turned into an error. */
  function Handle<D, T>(operation: string, resp: Option<Response>, err: Option<Error>,
                        decode: seq<byte> -> Result<Envelope<D>, string>,
                        project: D -> T, zero: T, request: Option<string>): (r: Reply<T>)
    ensures err.None? && resp.None? ==> r == Reply(zero, Some(NoResponse))
    ensures err.Some? || resp.Some? ==> r == HandleAsWritten(operation, resp, err, decode, project, zero, request)
    ensures r.err.None? <==> (&& err.None? && resp.Some?
                              && decode(resp.value.body).Ok?
                              && decode(resp.value.body).value.code == Codes.OkCode)
  {
    if err.None? && resp.None? then Reply(zero, Some(NoResponse))
    else HandleAsWritten(operation, resp, err, decode, project, zero, request)
  }

  datatype BalanceData = BalanceData(balance: int)

  /** `AvailableIntegralBalance`: the balance, or 0 and an error. */
  function AvailableIntegralBalance(resp: Option<Response>, err: Option<Error>,
                                    decode: seq<byte> -> Result<Envelope<BalanceData>, string>): (r: Reply<int>)
    ensures r.err.Some? ==> r.value == 0
    ensures r.err.None? ==> resp.Some? && decode(resp.value.body).Ok? && r.value == decode(resp.value.body).value.data.balance
  {
    Handle("AvailableIntegralBalance", resp, err, decode, (d: BalanceData) => d.balance, 0, None)
  }

  /** `ExchangePoint`: true exactly when the decoded code is "200". */
  function ExchangePoint(resp: Option<Response>, err: Option<Error>,
                         decode: seq<byte> -> Result<Envelope<()>, string>, request: string): (r: Reply<bool>)
    ensures r.value <==> r.err.None?
    ensures r.value <==> (&& err.None? && resp.Some?
                          && decode(resp.value.body).Ok?
                          && decode(resp.value.body).value.code == Codes.OkCode)
  {
    Handle("ExchangePoint", resp, err, decode, (d: ()) => true, false, Some(request))
  }

  /** `CancelImage`: the service's answer text, or "" and an error that also
      echoes the request. */
  function CancelImage(resp: Option<Response>, err: Option<Error>,
                       decode: seq<byte> -> Result<Envelope<string>, string>, request: string): (r: Reply<string>)
    ensures r.err.Some? ==> r.value == ""
    ensures r.err.None? ==> resp.Some? && decode(resp.value.body).Ok? && r.value == decode(resp.value.body).value.data
    ensures err.None? && resp.Some? && decode(resp.value.body).Ok? && decode(resp.value.body).value.code != Codes.OkCode ==>
              r.err.Some? && r.err.value.BusinessCode? && r.err.value.request == Some(request)
  {
    Handle("CancelImage", resp, err, decode, (d: string) => d, "", Some(request))
  }

  /** Business codes are not retried: when the first attempt delivers a
      status in [200, 299] whose body carries a non-success code, the client
      makes exactly one attempt and the caller reports that code with the
      response's trace id. */
  lemma BusinessCodesNotRetried<D, T>(hooks: seq<Executor.Hook>, maxRetry: int, hasLogger: bool,
                                      req: Executor.LogRecord, env: Executor.Env,
                                      operation: string, decode: seq<byte> -> Result<Envelope<D>, string>,
                                      project: D -> T, zero: T, request: Option<string>)
    requires Executor.HooksPass(hooks, env)
    requires 1 <= maxRetry && Executor.Succeeds(env.transport(0))
    requires decode(env.transport(0).resp.body).Ok?
    requires decode(env.transport(0).resp.body).value.code != Codes.OkCode
    ensures var out := Executor.Execute(hooks, maxRetry, hasLogger, req, env);
      && out.attempts == 1
      && Handle(operation, out.resp, out.err, decode, project, zero, request)
         == Reply(zero, Some(BusinessCode(GetTraceId(env.transport(0).resp),
                                          CodeError(Codes.Message(decode(env.transport(0).resp.body).value.code)),
                                          request)))
  {
    Executor.HooksPassThenRetry(hooks, maxRetry, hasLogger, req, env);
    Executor.FirstSuccessEndsLoop(maxRetry, env, 0);
  }

  /** The case the as-written pattern cannot handle: with `maxRetry <= 0` and
      every before-request callback succeeding, the client returns neither a
      response nor an error, so `HandleAsWritten` would read a missing
      response; `Handle` reports `NoResponse` instead. */
  lemma ZeroRetriesGiveNoResponse<D, T>(hooks: seq<Executor.Hook>, maxRetry: int, hasLogger: bool,
                                        req: Executor.LogRecord, env: Executor.Env,
                                        operation: string, decode: seq<byte> -> Result<Envelope<D>, string>,
                                        project: D -> T, zero: T, request: Option<string>)
    requires Executor.HooksPass(hooks, env) && maxRetry <= 0
    ensures var out := Executor.Execute(hooks, maxRetry, hasLogger, req, env);
      && out.err.None? && out.resp.None? && out.attempts == 0
      && Handle(operation, out.resp, out.err, decode, project, zero, request) == Reply(zero, Some(NoResponse))
  {
    Executor.HooksPassThenRetry(hooks, maxRetry, hasLogger, req, env);
    Executor.RetryBounded(maxRetry, env);
  }
}
