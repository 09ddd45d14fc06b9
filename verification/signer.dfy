/** The credential signer: it builds the signed Authorization token, caches it
    for four minutes in a one-entry cache, and is the default request hook.

    The foreign routines it relies on (JSON encoding, SHA-256, RSASSA-PKCS1-v1_5
    signing from section 8.2 of RFC 8017, base64 from section 4 of RFC 4648,
    PKCS#8 key parsing from RFC 5208) are function-valued fields of `Crypto` and
    `KeyCodec`: each is an arbitrary function, and the ones that can fail in the
    source return a `Result`. The clock is a parameter counting Unix seconds. */
module Signer {
  import opened Errors
  import opened Http
  import Codes

  /** A parsed RSA private key: an opaque, read-only handle. */
  datatype RsaPrivateKey = RsaPrivateKey(der: seq<byte>)

  /** What PKCS#8 parsing yields: an RSA key or a key of another algorithm. */
  datatype ParsedKey = Rsa(key: RsaPrivateKey) | Other(algorithm: string)

  /** The payload that is signed: `{"appId": ..., "timestamp": ...}`. */
  datatype SignContent = SignContent(appId: string, timestamp: int)

  datatype Crypto = Crypto(
    marshalContent: SignContent -> Result<string, string>,
    sha256: string -> seq<byte>,
    signPkcs1v15: (RsaPrivateKey, seq<byte>) -> Result<seq<byte>, string>,
    base64Encode: seq<byte> -> string,
    marshalAuthorization: map<string, string> -> Result<string, string>)

  datatype KeyCodec = KeyCodec(
    decodeBase64: string -> Result<seq<byte>, string>,
    parsePkcs8: seq<byte> -> Result<ParsedKey, string>)

  const SecretKeyVersion: string := "1"

  /** The token object: exactly the four keys `sign`, `secretKeyVersion`,
      `appId` and `original`, with the version fixed at "1". */
  function AuthorizationFields(appId: string, signature: string, original: string): (fields: map<string, string>)
    ensures fields.Keys == {"sign", "secretKeyVersion", "appId", "original"}
    ensures fields["sign"] == signature && fields["appId"] == appId && fields["original"] == original
    ensures fields["secretKeyVersion"] == SecretKeyVersion
  {
    map["sign" := signature, "secretKeyVersion" := SecretKeyVersion, "appId" := appId, "original" := original]
  }

  /** The token is the encoding of an object with exactly the keys `sign`,
      `secretKeyVersion` ("1"), `appId` and `original`, where `original` is
      exactly the encoded payload `{appId, timestamp}` and `sign` is the base64
      form of a PKCS#1 v1.5 signature over the SHA-256 digest of `original`. */
  ghost predicate IsSignedToken(token: string, appId: string, key: RsaPrivateKey, now: int, crypto: Crypto)
  {
    exists fields: map<string, string> ::
      && crypto.marshalAuthorization(fields) == Ok(token)
      && fields.Keys == {"sign", "secretKeyVersion", "appId", "original"}
      && fields["secretKeyVersion"] == "1"
      && fields["appId"] == appId
      && crypto.marshalContent(SignContent(appId, now)) == Ok(fields["original"])
      && crypto.signPkcs1v15(key, crypto.sha256(fields["original"])).Ok?
      && fields["sign"] == crypto.base64Encode(crypto.signPkcs1v15(key, crypto.sha256(fields["original"])).value)
  }

  /** `sign`: a fresh token for the payload `{appId, timestamp = now}`. Each
      failing step stops the construction with its own error. */
  function ComputeToken(appId: string, key: RsaPrivateKey, now: int, crypto: Crypto): (r: Result<string, Error>)
    ensures r.Err? ==> r.error.MarshalSignContent? || r.error.SignPkcs1v15? || r.error.MarshalAuthorization?
    ensures crypto.marshalContent(SignContent(appId, now)).Err? ==>
              r == Err(MarshalSignContent(crypto.marshalContent(SignContent(appId, now)).error))
    ensures crypto.marshalContent(SignContent(appId, now)).Ok? ==>
              var data := crypto.marshalContent(SignContent(appId, now)).value;
              crypto.signPkcs1v15(key, crypto.sha256(data)).Err? ==>
                r == Err(SignPkcs1v15(crypto.signPkcs1v15(key, crypto.sha256(data)).error))
    ensures crypto.marshalContent(SignContent(appId, now)).Ok? ==>
              var data := crypto.marshalContent(SignContent(appId, now)).value;
              crypto.signPkcs1v15(key, crypto.sha256(data)).Ok? ==>
                var signature := crypto.signPkcs1v15(key, crypto.sha256(data)).value;
                var fields := AuthorizationFields(appId, crypto.base64Encode(signature), data);
                crypto.marshalAuthorization(fields).Err? ==>
                  r == Err(MarshalAuthorization(crypto.marshalAuthorization(fields).error))
  {
    match crypto.marshalContent(SignContent(appId, now))
    case Err(e) => Err(MarshalSignContent(e))
    case Ok(data) =>
      match crypto.signPkcs1v15(key, crypto.sha256(data))
      case Err(e) => Err(SignPkcs1v15(e))
      case Ok(signature) =>
        match crypto.marshalAuthorization(AuthorizationFields(appId, crypto.base64Encode(signature), data))
        case Err(e) => Err(MarshalAuthorization(e))
        case Ok(token) => Ok(token)
  }

  /** Every token `sign` produces has the documented shape. */
  lemma TokenShape(appId: string, key: RsaPrivateKey, now: int, crypto: Crypto)
    requires ComputeToken(appId, key, now, crypto).Ok?
    ensures IsSignedToken(ComputeToken(appId, key, now, crypto).value, appId, key, now, crypto)
  {
    var data := crypto.marshalContent(SignContent(appId, now)).value;
    var signature := crypto.signPkcs1v15(key, crypto.sha256(data)).value;
    var fields := AuthorizationFields(appId, crypto.base64Encode(signature), data);
    assert fields["original"] == data;
    assert crypto.marshalAuthorization(fields) == Ok(ComputeToken(appId, key, now, crypto).value);
  }

  /** A token is produced exactly when all three foreign steps succeed. */
  lemma TokenNeedsEveryStep(appId: string, key: RsaPrivateKey, now: int, crypto: Crypto)
    ensures ComputeToken(appId, key, now, crypto).Ok? <==>
      && crypto.marshalContent(SignContent(appId, now)).Ok?
      && var data := crypto.marshalContent(SignContent(appId, now)).value;
      && crypto.signPkcs1v15(key, crypto.sha256(data)).Ok?
      && var signature := crypto.signPkcs1v15(key, crypto.sha256(data)).value;
      && crypto.marshalAuthorization(AuthorizationFields(appId, crypto.base64Encode(signature), data)).Ok?
  {
  }

  /** The one-entry signature cache: a token and the second after which it
      has expired. */
  datatype CacheEntry = CacheEntry(token: string, expiry: int)

  /** The cache's `Get`: an entry is found until its expiry has passed (the
      expiry second itself still hits); what is found is the stored token. */
  function Lookup(cache: Option<CacheEntry>, now: int): (hit: Option<string>)
    ensures hit.Some? ==> cache.Some? && hit.value == cache.value.token
    ensures hit.Some? <==> cache.Some? && now <= cache.value.expiry
  {
    if cache.Some? && now <= cache.value.expiry then Some(cache.value.token) else None
  }

  /** An entry found at some second is found at every earlier second, and an
      entry missed at some second is missed at every later one. */
  lemma LookupHitsUntilExpiry(cache: Option<CacheEntry>, earlier: int, later: int)
    requires earlier <= later
    ensures Lookup(cache, later).Some? ==> Lookup(cache, earlier) == Lookup(cache, later)
    ensures Lookup(cache, earlier).None? ==> Lookup(cache, later).None?
  {
  }

  /** What one `Sign` call yields and leaves in the cache. */
  datatype SignOutcome = SignOutcome(result: Result<string, Error>, cache: Option<CacheEntry>)

  /** The behaviour of `Sign` on the cache, as a function of the cache before
      the call: a hit reuses the cached token; a miss computes one and stores
      it for `DefaultExpirationSeconds`; a failed computation stores nothing. */
  function SignStep(cache: Option<CacheEntry>, appId: string, key: RsaPrivateKey, now: int, crypto: Crypto): (s: SignOutcome)
    ensures s.result.Ok? ==> s.cache.Some? && s.cache.value.token == s.result.value && now <= s.cache.value.expiry
    ensures s.result.Err? ==> s.cache == cache && s.result.error.SignFail?
  {
    match Lookup(cache, now)
    case Some(token) => SignOutcome(Ok(token), cache)
    case None =>
      match ComputeToken(appId, key, now, crypto)
      case Err(e) => SignOutcome(Err(SignFail(e)), cache)
      case Ok(token) => SignOutcome(Ok(token), Some(CacheEntry(token, now + Codes.DefaultExpirationSeconds)))
  }

  /** Cache hit: the cached token is used verbatim, the cache is unchanged and
      the signing routines play no part (any two `Crypto` give the same step). */
  lemma SignHit(cache: Option<CacheEntry>, appId: string, key: RsaPrivateKey, now: int, crypto: Crypto, other: Crypto)
    requires cache.Some? && now <= cache.value.expiry
    ensures SignStep(cache, appId, key, now, crypto) == SignOutcome(Ok(cache.value.token), cache)
    ensures SignStep(cache, appId, key, now, crypto) == SignStep(cache, appId, key, now, other)
  {
  }

  /** Cache miss: a fresh token is computed for `now`, stored with a
      four-minute expiry, and returned. */
  lemma SignMiss(cache: Option<CacheEntry>, appId: string, key: RsaPrivateKey, now: int, crypto: Crypto)
    requires Lookup(cache, now).None?
    requires ComputeToken(appId, key, now, crypto).Ok?
    ensures var token := ComputeToken(appId, key, now, crypto).value;
      SignStep(cache, appId, key, now, crypto) == SignOutcome(Ok(token), Some(CacheEntry(token, now + 240)))
  {
  }

  /** A failed `sign` leaves the cache as it was and is reported wrapped. */
  lemma SignFailureKeepsCache(cache: Option<CacheEntry>, appId: string, key: RsaPrivateKey, now: int, crypto: Crypto)
    requires Lookup(cache, now).None?
    requires ComputeToken(appId, key, now, crypto).Err?
    ensures SignStep(cache, appId, key, now, crypto)
         == SignOutcome(Err(SignFail(ComputeToken(appId, key, now, crypto).error)), cache)
  {
  }

  /** Two calls within four minutes of a cache fill yield the identical
      Authorization value, whatever the signing routines do the second time. */
  lemma TwoSignsWithinTtl(cache: Option<CacheEntry>, appId: string, key: RsaPrivateKey,
                          t0: int, t1: int, crypto: Crypto, later: Crypto)
    requires Lookup(cache, t0).None?
    requires SignStep(cache, appId, key, t0, crypto).result.Ok?
    requires t0 <= t1 <= t0 + Codes.DefaultExpirationSeconds
    ensures var first := SignStep(cache, appId, key, t0, crypto);
      SignStep(first.cache, appId, key, t1, later) == first
  {
    var first := SignStep(cache, appId, key, t0, crypto);
    assert first.cache.value.expiry == t0 + Codes.DefaultExpirationSeconds;
    SignHit(first.cache, appId, key, t1, later, later);
  }

  /** Once the cached entry has expired, the next call behaves as on an empty
      cache: the token is recomputed for the new time. */
  lemma ExpiredEntryIsRecomputed(entry: CacheEntry, appId: string, key: RsaPrivateKey, now: int, crypto: Crypto)
    requires entry.expiry < now
    ensures SignStep(Some(entry), appId, key, now, crypto).result == SignStep(None, appId, key, now, crypto).result
    ensures SignStep(Some(entry), appId, key, now, crypto).result.Ok? ==>
              SignStep(Some(entry), appId, key, now, crypto).cache == SignStep(None, appId, key, now, crypto).cache
  {
  }

  /** Key loading as the source intends it: a key that is not base64 or not
      PKCS#8 is refused with the decoder's error, and so is a PKCS#8 key of an
      algorithm other than RSA. */
  function LoadKey(privateKey: string, codec: KeyCodec): (r: Result<RsaPrivateKey, Error>)
    ensures codec.decodeBase64(privateKey).Err? ==>
              r == Err(DecodePrivateKey(codec.decodeBase64(privateKey).error))
    ensures codec.decodeBase64(privateKey).Ok? && codec.parsePkcs8(codec.decodeBase64(privateKey).value).Err? ==>
              r == Err(ParsePrivateKey(codec.parsePkcs8(codec.decodeBase64(privateKey).value).error))
    ensures r.Ok? <==> (&& codec.decodeBase64(privateKey).Ok?
                        && codec.parsePkcs8(codec.decodeBase64(privateKey).value).Ok?
                        && codec.parsePkcs8(codec.decodeBase64(privateKey).value).value.Rsa?)
    ensures r.Ok? ==> codec.parsePkcs8(codec.decodeBase64(privateKey).value) == Ok(Rsa(r.value))
  {
    match codec.decodeBase64(privateKey)
    case Err(e) => Err(DecodePrivateKey(e))
    case Ok(bytes) =>
      match codec.parsePkcs8(bytes)
      case Err(e) => Err(ParsePrivateKey(e))
      case Ok(Rsa(key)) => Ok(key)
      case Ok(Other(algorithm)) => Err(NotRsaKey(algorithm))
  }

  /** The unchecked type assertion `RsaPtr.(*rsa.PrivateKey)` as written: it
      is only defined on RSA keys (on any other key Go panics). */
  function AssertRsaAsWritten(parsed: ParsedKey): (key: RsaPrivateKey)
    requires parsed.Rsa?
    ensures parsed == Rsa(key)
  {
    parsed.key
  }

  /** Any key text that decodes and parses as PKCS#8 to a key of another
      algorithm (Ed25519, ECDSA, X25519) passes both error checks and reaches
      the assertion with a key it is not defined on; `LoadKey` refuses it. */
  lemma NonRsaKeyReachesAssertion(privateKey: string, codec: KeyCodec)
    requires codec.decodeBase64(privateKey).Ok?
    requires codec.parsePkcs8(codec.decodeBase64(privateKey).value).Ok?
    requires codec.parsePkcs8(codec.decodeBase64(privateKey).value).value.Other?
    ensures var parsed := codec.parsePkcs8(codec.decodeBase64(privateKey).value).value;
      && !parsed.Rsa?
      && LoadKey(privateKey, codec) == Err(NotRsaKey(parsed.algorithm))
  {
  }

  /** The application's credentials; only the cache changes after creation. */
  class Credentials {
    const appId: string
    const privateKey: string
    const rsaKey: RsaPrivateKey
    var cache: Option<CacheEntry>

    constructor (appId: string, privateKey: string, rsaKey: RsaPrivateKey)
      ensures this.appId == appId && this.privateKey == privateKey && this.rsaKey == rsaKey
      ensures cache.None?
    {
      this.appId := appId;
      this.privateKey := privateKey;
      this.rsaKey := rsaKey;
      cache := None;
    }

    /** `Sign`: sets the Authorization header from the cache, or from a token
        computed and cached now. On failure neither the cache nor the header
        changes and no request is returned. */
    method Sign(req: Request, now: int, crypto: Crypto) returns (signed: Request?, err: Option<Error>)
      modifies this`cache, req`header
      ensures var s := SignStep(old(cache), appId, rsaKey, now, crypto);
        && cache == s.cache
        && (s.result.Ok? ==> signed == req && err.None?
                             && req.header == old(req.header)[Codes.AuthorizationHeader := s.result.value])
        && (s.result.Err? ==> signed == null && err == Some(s.result.error) && req.header == old(req.header))
    {
      var found := Lookup(cache, now);
      var auth: string;
      if found.None? {
        var token := ComputeToken(appId, rsaKey, now, crypto);
        if token.Err? {
          return null, Some(SignFail(token.error));
        }
        cache := Some(CacheEntry(token.value, now + Codes.DefaultExpirationSeconds));
        auth := token.value;
      } else {
        auth := found.value;
      }
      req.header := req.header[Codes.AuthorizationHeader := auth];
      return req, None;
    }

    /** The hook's before-request callback: `Sign`, with its error unchanged. */
    method BeforeRequest(req: Request, now: int, crypto: Crypto) returns (err: Option<Error>)
      modifies this`cache, req`header
      ensures var s := SignStep(old(cache), appId, rsaKey, now, crypto);
        && cache == s.cache
        && err == (if s.result.Err? then Some(s.result.error) else None)
        && req.header == if s.result.Ok? then old(req.header)[Codes.AuthorizationHeader := s.result.value]
                         else old(req.header)
    {
      var _, e := Sign(req, now, crypto);
      err := e;
    }

    /** The hook's after-request callback does nothing. */
    method AfterRequest(resp: Option<Response>, err: Option<Error>)
      ensures unchanged(this)
    {
    }
  }

  /** `NewCredentials`: credentials with an empty cache, or the key-loading
      error and no credentials. */
  method NewCredentials(appId: string, privateKey: string, codec: KeyCodec) returns (c: Credentials?, err: Option<Error>)
    ensures LoadKey(privateKey, codec).Err? ==> c == null && err == Some(LoadKey(privateKey, codec).error)
    ensures LoadKey(privateKey, codec).Ok? ==>
              && err.None? && c != null && fresh(c)
              && c.appId == appId && c.privateKey == privateKey
              && c.rsaKey == LoadKey(privateKey, codec).value && c.cache.None?
  {
    var key := LoadKey(privateKey, codec);
    if key.Err? {
      return null, Some(key.error);
    }
    c := new Credentials(appId, privateKey, key.value);
    err := None;
  }
}
