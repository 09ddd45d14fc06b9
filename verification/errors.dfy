/** Option and Result wrappers, and the error values the SDK constructs.

    Go's `error` is an interface whose values are built by `fmt.Errorf` with
    `%w` (wrapping, the cause stays inspectable) or `%v` (flattened into text).
    Here every error the core builds is one constructor of `Error`. A `%w`
    wrap of an error the core itself built keeps that cause as an `Error`
    (`SignFail`, `HookBefore`, `ClientCall`, `BusinessCode`); the cause a
    foreign routine (JSON, crypto, base64, the transport) reports is kept as
    its text, whether it was wrapped with `%w` or `%v`. */
module Errors {

  datatype Option<+T> = None | Some(value: T)

  /** The result of a foreign routine (JSON, crypto, base64) that may fail
      with an error message. */
  datatype Result<+T, +E> = Ok(value: T) | Err(error: E)

  datatype Error =
    /** an error returned by code outside this model (a user-supplied hook) */
    | Foreign(message: string)
    // credentials.go
    | MarshalSignContent(cause: string)          // json.Marshal of {appId, timestamp} failed
    | SignPkcs1v15(cause: string)                // rsa.SignPKCS1v15 failed
    | MarshalAuthorization(cause: string)        // json.Marshal of the token object failed
    | SignFail(inner: Error)                     // "c.sign(): sign fail: %w"
    | DecodePrivateKey(cause: string)            // the key is not valid base64
    | ParsePrivateKey(cause: string)             // the key bytes are not PKCS#8
    | NotRsaKey(kind: string)                    // a PKCS#8 key of another algorithm
    // client.go
    | HookBefore(inner: Error)                   // "hook.BeforeRequest: %w"
    | HttpDo(cause: string)                      // "c.httpClient.Do error: %v"
    | HttpStatus(code: int, text: string, traceId: string)
    // const.go
    | CodeError(message: string)                 // errors.New(w.String())
    // caller.go
    | ClientCall(operation: string, inner: Error) // "c.Client.<operation>: %w"
    | JsonDecode(cause: string)                  // "json.NewDecoder: %w"
    | BusinessCode(traceId: string, inner: Error, request: Option<string>)
    | NoResponse                                 // no error and no response from the client
}
