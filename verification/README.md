# Authenticated request pipeline of the Wujie SDK, in Dafny

This project models the core of a Go client library for the Wujie image
service. It issues signed HTTP calls to one remote API and turns the JSON
envelopes it gets back into typed values or errors. The model has four parts:

- **Executor** (`client.go`). The `Client` holds a retry count, an ordered list
  of hooks and an optional logger. `Do` runs every hook's before-request
  callback in order and stops at the first error. It then makes up to
  `MaxRetryTimes` transport attempts, stopping at the first status in
  [200, 299]. If the final result is an error, it logs the request and the
  response (the Go code panics here when no response was received; see
  below). Last, it runs every hook's after-request callback with the final
  (response, error).
- **Signer** (`credentials.go`). `Credentials` signs each request. The
  Authorization token is a JSON object that holds an RSA PKCS#1 v1.5
  signature over the SHA-256 digest of the payload `{appId, timestamp}`. The
  token is kept in a one-entry cache for four minutes. The credentials are
  also the client's default hook.
- **Codes** (`const.go`). `WujieCode.String` maps a business code to a fixed
  text, with a fallback for unknown codes. `WujieCode.Err` turns every code
  except "200" into an error.
- **Caller** (`caller.go`). Every `Caller` method follows one pattern. A
  client error is passed up. Otherwise the body is decoded and its code
  classified. A non-success code becomes an error that names the `TRACE_ID`
  header. The pattern is modelled once, generically over the payload type.

Everything outside the core is a parameter:

- **Crypto and encodings.** JSON encoding and decoding, SHA-256,
  RSASSA-PKCS1-v1_5 (section 8.2 of RFC 8017), base64 (section 4 of RFC 4648)
  and PKCS#8 parsing (RFC 5208) are function-valued fields (`Signer.Crypto`,
  `Signer.KeyCodec`) or function parameters. The ones that can fail return a
  `Result`.
- **Clock.** It is a parameter counting Unix seconds.
- **The world of one `Do` call.** An `Executor.Env` gives each hook's
  before-request answer, the transport's answer on each attempt, and
  `http.StatusText`.
- **Effects.** What a call does outside the model is returned in its
  `Executor.Outcome`: the attempts made, the log entries written and the
  after-request callbacks made.

Go errors are values of `Errors.Error`. A `%w` wrap of an error the core
itself built keeps that cause as an `Error` (`SignFail`, `HookBefore`,
`ClientCall`, `BusinessCode`). A cause reported by a foreign routine (JSON,
crypto, base64, the transport) is kept as its text, whether `%w` or `%v`
wrapped it.

Three operations of the code can panic, and the model uses corrected forms
of them (see "## Findings"). Both halves are modelled; the rest of the model
is built on the corrected half:

- `Executor.Execute` and `Executor.Client.Do` log a final error with
  `Executor.LoggerHttpResp`, which records "no response" where client.go:145
  reads a nil response.
- `Signer.NewCredentials` loads the key with `Signer.LoadKey`, which refuses
  a non-RSA key where credentials.go:91 panics.
- `Caller.AvailableIntegralBalance`, `Caller.ExchangePoint` and
  `Caller.CancelImage` go through `Caller.Handle`, which reports
  `NoResponse` where the Go methods read a nil response (caller.go:31).

Four behaviours a reader might expect that client.go does not have; the model
follows the code:

- The retry count is not raised to at least 1. With `MaxRetryTimes <= 0` no
  attempt is made.
- The request body is not rewound between attempts.
- A POST without a body is not given `{}`.
- The error log is written once, after the loop, and only on a final error.
  It is not written on every attempt.

## Model

| member | source | states |
|---|---|---|
| `Codes.Message` | const.go:80-115 | Total: a code in the 15-entry table gets its fixed text, and any other code gets "code: <code> 未知错误" |
| `Codes.Err` | const.go:117-122 | No error exactly when the code is "200"; otherwise the error's text is `Message(code)` |
| `Codes.Fallback` | const.go:112-113 | The text for an unknown code is that code, framed by "code: " and " 未知错误" |
| `Codes.FallbackInjective` | const.go:112-113 | The fallback text determines the code it was built from |
| `Codes.TableTextIsNotFallback` | const.go:82-113 | No table text has the fallback form |
| `Codes.TableInjective` | const.go:82-111 | Distinct table codes have distinct texts |
| `Codes.MessageInjective` | const.go:80-115 | `Message(a) == Message(b)` implies `a == b`, over all codes |
| `Codes.ErrCarriesMessage` | const.go:117-122 | For every code but "200", the error text equals `String()` |
| `Codes.ZeroIsAnError` | const.go:110-111 | "0" is an error ("非无界报错返回"), not a success |
| `Codes.OkHasNoTableEntry` | const.go:80-122 | "200" has no table entry, so its text is the fallback, yet `Err("200")` is no error |
| `Codes.DocumentedTexts` | const.go:82-99 | "20110010" gives "积分余额不足" and "20010018" gives the lock-contention text |
| `Http.GetTraceId` | caller.go:287-289 | The TRACE_ID header's value, or "" when it is absent |
| `Signer.ComputeToken` | credentials.go:44-75 | `sign`: the first failing step decides the error. A failed payload encoding gives `MarshalSignContent`, a failed signature `SignPkcs1v15`, and a failed token encoding `MarshalAuthorization`, each carrying that step's cause |
| `Signer.TokenShape` | credentials.go:45-74 | The token encodes exactly the keys sign, secretKeyVersion="1", appId and original. `original` is exactly the encoded `{appId, timestamp}`, and `sign` is the base64 signature over SHA-256 of `original` |
| `Signer.TokenNeedsEveryStep` | credentials.go:51-74 | A token is produced exactly when payload encoding, signing and token encoding all succeed |
| `Signer.AuthorizationFields` | credentials.go:64-69 | The token object has exactly the keys sign, secretKeyVersion, appId and original, with the version "1" |
| `Signer.Lookup` | credentials.go:31 | The cache's `Get` finds the stored token exactly while `now <= expiry`; the expiry second itself still hits |
| `Signer.LookupHitsUntilExpiry` | credentials.go:31 | An entry found at some second is found, unchanged, at every earlier second; one missed is missed at every later second |
| `Signer.SignStep` | credentials.go:30-42 | After a success the cache holds exactly the returned token, still valid at call time; a failure leaves the cache as it was |
| `Signer.SignHit` | credentials.go:31-40 | Cache hit: the cached token is used verbatim, the cache is unchanged, and the result does not depend on the signing routines |
| `Signer.SignMiss` | credentials.go:31-39 | Cache miss: a fresh token is computed, stored with expiry now + 240 s, and returned |
| `Signer.SignFailureKeepsCache` | credentials.go:33-36 | A failed `sign` is returned wrapped and leaves the cache unchanged |
| `Signer.TwoSignsWithinTtl` | credentials.go:30-42 | Two calls within four minutes of a cache fill yield identical Authorization values |
| `Signer.ExpiredEntryIsRecomputed` | credentials.go:31-39 | After expiry, a call behaves as on an empty cache and recomputes for the new time |
| `Signer.LoadKey` | credentials.go:83-93 | Not base64 gives a decode error; not PKCS#8 gives a parse error; a non-RSA key is refused; otherwise the parsed RSA key |
| `Signer.AssertRsaAsWritten` | credentials.go:91 | The unchecked type assertion is defined only on RSA keys |
| `Signer.NonRsaKeyReachesAssertion` | credentials.go:83-91 | For every codec and key text: if decoding succeeds and parsing yields a key of another algorithm `a`, the assertion's precondition fails and `LoadKey` returns `NotRsaKey(a)` |
| `Signer.Credentials.constructor` | credentials.go:78-82 | New credentials keep appId and key, with an empty cache |
| `Signer.Credentials.Sign` | credentials.go:30-42 | Cache and header follow `SignStep`. On success the Authorization header is set to the token and the request is returned; on failure neither header nor cache changes and no request is returned |
| `Signer.Credentials.BeforeRequest` | credentials.go:96-99 | Same effect as `Sign`, with `Sign`'s error returned unchanged |
| `Signer.Credentials.AfterRequest` | credentials.go:101 | No effect |
| `Signer.NewCredentials` | credentials.go:77-94 | A key-loading error gives no credentials and that error; otherwise fresh credentials with an empty cache. Loads through the corrected `LoadKey`, so a non-RSA key is an error, not a panic |
| `Executor.WriteLog` | client.go:109-118 | No entry without a logger; otherwise one entry tagged `LogTag[level-1]`, which demands 1 <= level <= 4 |
| `Executor.LoggerHttpReq` | client.go:121-140 | With a logger, exactly one "[error]" entry recording the request; without one, nothing |
| `Executor.LoggerHttpRespAsWritten` | client.go:143-145 | Reads the response's status code, so it needs a response |
| `Executor.LoggerHttpResp` | client.go:143-158 | Logs the response's status and header, or that there was none |
| `Executor.Classify` | client.go:76-85 | An attempt gives no error exactly when its status is in [200, 299], and no response exactly when the transport failed |
| `Executor.RetryFrom` | client.go:75-87 | The loop stops within the allowed attempts, and its result is the classified last attempt it made |
| `Executor.Retry` | client.go:70-87 | From a fresh (none, none): with `MaxRetryTimes <= 0`, (none, none) and no attempt; otherwise 1 to `MaxRetryTimes` attempts, the classified last attempt returned, and every earlier attempt failed |
| `Executor.FirstFailure` | client.go:65-69 | The index of the first failing before-request callback, with every earlier one succeeding |
| `Executor.Execute` | client.go:64-98 | Attempts never exceed `MaxRetryTimes` (none if it is <= 0). An attempt happens only after all before-hooks passed. A success logs nothing. After-hooks run for all hooks or for none. A final error is logged with the corrected `LoggerHttpResp` |
| `Executor.HookErrorStopsChain` | client.go:65-69 | The first before-hook error ends the call: later hooks are not asked, no attempt, no after-hook, result (none, wrapped error) |
| `Executor.HooksPassThenRetry` | client.go:65-87 | When every before-hook succeeds, all of them run and the result is the retry loop's |
| `Executor.RetryBounded` | client.go:75 | At most `MaxRetryTimes` attempts; with `MaxRetryTimes <= 0` none, and (none, none) |
| `Executor.Notify` | client.go:93-95 | Every hook's after-request callback, once and in hook order, each with the same final (response, error) |
| `Executor.FirstSuccessEndsLoop` | client.go:75-86 | If attempt k is the first with status in [200, 299], exactly k+1 attempts are made, with that response and no error |
| `Executor.ExhaustedReturnsLastAttempt` | client.go:75-97 | If every attempt fails, exactly `MaxRetryTimes` are made. The last attempt's failure is returned: (none, transport cause) or (response, status + text + trace id) |
| `Executor.ErrorIffNoSuccess` | client.go:75-97 | With at least one attempt allowed, the final error is absent exactly when some allowed attempt succeeds |
| `Executor.AfterHooksSeeFinalResult` | client.go:93-95 | After the before phase, every after-hook runs exactly once, in order, with the final (response, error) |
| `Executor.FinalErrorIsLogged` | client.go:88-91 | A final error logs the request and then the response (or its absence) at error level; a success logs nothing |
| `Executor.FinalTransportFailureHasNoResponse` | client.go:76-91 | Three transport failures end with an error and no response, which is the input the as-written response logger cannot take |
| `Executor.RetryLoop` | client.go:70-87 | The imperative retry loop, with `continue` on failure and `break` on success, returns exactly `Retry`'s (response, error) and attempt count |
| `Executor.NotifyLoop` | client.go:93-95 | The imperative after-request loop produces exactly `Notify`'s calls: every hook once, in order, with the final pair |
| `Executor.Client.NewDefault` | client.go:39-54 | `MaxRetryTimes` = 3, a logger, and the credentials as the only hook |
| `Executor.Client.AddHttpHooks` | client.go:56-58 | New hooks are appended after the existing ones, keeping their order |
| `Executor.Client.Do` | client.go:64-98 | The imperative hook loops and retry loop compute exactly `Execute` of the client's configuration, including its corrected response logging; the retry and after-request loops are `RetryLoop` and `NotifyLoop` |
| `Caller.HandleAsWritten` | caller.go:23-39 | A client error is wrapped with zero value. A decode failure is an error. A non-"200" code is an error with the trace id and the code's text. "200" returns the projected payload. Needs a response when there is no client error |
| `Caller.Handle` | caller.go:23-39 | As `HandleAsWritten`, with (no response, no error) reported as `NoResponse`; no error exactly when decoded and code "200" |
| `Caller.AvailableIntegralBalance` | caller.go:23-40 | The decoded balance on success, 0 on any error; through the corrected `Handle`, so a missing response is `NoResponse` |
| `Caller.ExchangePoint` | caller.go:42-59 | True exactly when there is no error, exactly when the decoded code is "200"; through the corrected `Handle` |
| `Caller.CancelImage` | caller.go:230-247 | The decoded text on success, "" on error; a business error echoes the request; through the corrected `Handle` |
| `Caller.BusinessCodesNotRetried` | caller.go:23-39 | A first attempt with status 2xx but a non-"200" code makes exactly one attempt and is reported as a business error with the trace id |
| `Caller.ZeroRetriesGiveNoResponse` | caller.go:24-31 | With `MaxRetryTimes <= 0` the client returns (none, none), which the as-written pattern cannot take; `Handle` reports `NoResponse` |

## Left out

- Executor.Client.Do: hooks' before-request answers come from `Env.before`. `Do` does not call `Credentials.BeforeRequest` itself, so the header set by signing is not seen by the request log inside `Do`. The signer's own effect is modelled by `Signer.Credentials.Sign`.
- Executor.Execute: the after-request callbacks of other hooks are recorded, not run. Their side effects are foreign code.
- Transport, TLS settings, timeouts and context cancellation: one `Env.transport` answer per attempt stands in for `http.Client.Do`. `HTTPClient` and `SetHTTPClient` only swap that transport.
- The 14 request builders in client.go:160-384 only parse a URL, encode JSON and set Content-Type; they are left out.
- The other `Caller` methods (`ModelBaseInfos`, `DefaultResourceStyleModel`, `DefaultResourceModel`, `CreateImage`, `GeneratingInfo`, `ImageInfo`, `ImagePriceInfo`, `PostSuperSize`, `GetSuperSize`, `CreateImagePro`, `GeneratingInfoPro`) are `Caller.Handle` with their own projection and zero value. They are not written out one by one.
- The deferred `resp.Body.Close()` in every `Caller` method is I/O.
- `NewCaller` and the public `Client.Do` wrapper add nothing beyond what they forward.
- Log formatting: the `%p` pointers, the header iteration order and the text layout are not modelled. A log entry records its tag and what was logged.
- The `IsDebug` field is never read by the code modelled here.
- Strings are sequences of Unicode characters: a length, such as the fallback text being 11 longer than its code, counts characters, not the UTF-8 bytes Go's `len` counts. Nothing in the modelled code depends on byte lengths.
- Header-name canonicalisation is not modelled: headers are maps keyed by the name as written (`TRACE_ID`, `Authorization`). Go stores and looks up `TRACE_ID` as `Trace_id`; the model assumes that the transport and `Header.Get` normalise names the same way, so the lookup finds the same header. A header holds one value here; `Header.Get` returns the first of several.
- go-cache: locking, the ten-minute cleanup janitor and concurrent cold-cache races are not modelled. The cache is one cell. An entry is found while `now <= expiry`, in whole seconds.
- The Unix timestamp is an unbounded integer; the 64-bit width of `int64` is not modelled.
- Error texts are modelled by structure (`Errors.Error`), not as formatted strings.
- entity.go, enums.go, sample/main.go and example/main.go are not part of this model. log.go contributes only the four-entry tag table.

## Findings

| source | as written | input that shows it | evidently intended | confidence | as-written member | corrected member |
|---|---|---|---|---|---|---|
| client.go:88-91, client.go:143-145 | On a final error, `LoggerHTTPResp` reads `resp.StatusCode`, but a final transport failure leaves `resp` nil | Three attempts that all fail in transport (`Executor.FinalTransportFailureHasNoResponse`) | Log the response when there is one, and that there was none otherwise | high (not executed) | `Executor.LoggerHttpRespAsWritten` | `Executor.LoggerHttpResp` (with `Executor.FinalErrorIsLogged`) |
| caller.go:24-31, client.go:75-97 | A `Caller` method decodes `resp.Body` whenever the client error is nil, but `do` returns (nil, nil) when `MaxRetryTimes <= 0` | `MaxRetryTimes = 0` and every before-hook succeeding (`Caller.ZeroRetriesGiveNoResponse`) | Report a missing response as an error instead of reading it | medium (not executed) | `Caller.HandleAsWritten` | `Caller.Handle` |
| credentials.go:87-91 | `RsaPtr.(*rsa.PrivateKey)` is an unchecked assertion, and `ParsePKCS8PrivateKey` also returns ECDSA and Ed25519 keys | Any key text that decodes and parses as PKCS#8 to a non-RSA key, such as an Ed25519 key (`Signer.NonRsaKeyReachesAssertion`) | Return an error for a non-RSA key | medium (not executed) | `Signer.AssertRsaAsWritten` | `Signer.LoadKey` |
