/** The constants of the SDK and the business-code taxonomy (`WujieCode`).

    A business code is the `code` string inside a JSON envelope. One code,
    "200", means success; every other code is an error whose text comes from a
    fixed table, with a generic fallback for codes the table does not know. */
module Codes {
  import opened Errors

  /** Lifetime of a cached Authorization token: 4 minutes, in seconds. */
  const DefaultExpirationSeconds: int := 4 * 60
  const AuthorizationHeader: string := "Authorization"
  /** Response header that carries the service's correlation id. */
  const TraceIdHeader: string := "TRACE_ID"

  const ErrorCode: string := "0"
  const OkCode: string := "200"
  const InvalidParameter: string := "20010001"
  const UnsupportedResolution: string := "20010015"
  const LockRaceCondition: string := "20010018"
  const PromptTranslationFailed: string := "20110000"
  const PromptContainsSensitiveWords: string := "20110001"
  const InitImageLinkIncorrectOrUnsupported: string := "20110002"
  const InitImageContainsSensitiveInfo: string := "20110003"
  const InsufficientPointsBalance: string := "20110010"
  const JobNotInQueueAndCannotCancel: string := "20110011"
  const CheckResources: string := "20110017"
  const ImageRecognitionAbnormality: string := "20110018"
  const NoFaceOrFaceIsSmall: string := "20110019"
  const MultipleFacesDetected: string := "20110020"
  const SideFaceDetected: string := "20110021"

  /** The documented codes and their texts, as a lookup table. It is the
      reference that the `switch` in `Message` is checked against. */
  const Table: map<string, string> := map[
    InvalidParameter := "非法参数",
    UnsupportedResolution := "暂时无法支持的尺寸/分辨率",
    LockRaceCondition := "由锁竞争导致的作画失败（需要重新发起）",
    PromptTranslationFailed := "文本语言翻译失败",
    PromptContainsSensitiveWords := "画面描述含有敏感词",
    InitImageLinkIncorrectOrUnsupported := "底图链接信息有误或不支持",
    InitImageContainsSensitiveInfo := "参考图含有敏感信息",
    InsufficientPointsBalance := "积分余额不足",
    CheckResources := "检测资源",
    ImageRecognitionAbnormality := "图片识别异常",
    NoFaceOrFaceIsSmall := "未检测到人脸或人脸太小",
    MultipleFacesDetected := "检测到多张人脸",
    SideFaceDetected := "检测到侧脸",
    JobNotInQueueAndCannotCancel := "该作品不在排队中，无法撤销",
    ErrorCode := "非无界报错返回"
  ]

  /** The text for a code the table does not know: the code itself, framed
      by "code: " and " 未知错误". */
  function Fallback(code: string): (t: string)
    ensures |t| == |code| + 11
    ensures t[..6] == "code: " && t[|t| - 5..] == " 未知错误"
    ensures t[6..|t| - 5] == code
  {
    "code: " + code + " 未知错误"
  }

  /** `WujieCode.String`: total; a documented code gets its table text, any
      other code the fallback text naming the code. */
  function Message(code: string): (m: string)
    ensures code in Table ==> m == Table[code]
    ensures code !in Table ==> m == Fallback(code)
  {
    match code
    case "20010001" => "非法参数"
    case "20010015" => "暂时无法支持的尺寸/分辨率"
    case "20010018" => "由锁竞争导致的作画失败（需要重新发起）"
    case "20110000" => "文本语言翻译失败"
    case "20110001" => "画面描述含有敏感词"
    case "20110002" => "底图链接信息有误或不支持"
    case "20110003" => "参考图含有敏感信息"
    case "20110010" => "积分余额不足"
    case "20110017" => "检测资源"
    case "20110018" => "图片识别异常"
    case "20110019" => "未检测到人脸或人脸太小"
    case "20110020" => "检测到多张人脸"
    case "20110021" => "检测到侧脸"
    case "20110011" => "该作品不在排队中，无法撤销"
    case "0" => "非无界报错返回"
    case _ => Fallback(code)
  }

  /** `WujieCode.Err`: no error exactly for the success code; otherwise an
      error whose text is the code's `Message`. */
  function Err(code: string): (e: Option<Error>)
    ensures e.None? <==> code == OkCode
    ensures e.Some? ==> e.value == CodeError(Message(code))
  {
    if code != OkCode then Some(CodeError(Message(code))) else None
  }

  /** The fallback text determines the code it was built from. */
  lemma FallbackInjective(a: string, b: string)
    requires Fallback(a) == Fallback(b)
    ensures a == b
  {
  }

  /** No table text has the fallback form, so a known code is never reported
      as unknown. */
  lemma TableTextIsNotFallback(code: string, other: string)
    requires code in Table
    ensures Table[code] != Fallback(other)
  {
    assert Fallback(other)[0] == 'c';
    assert Table[code][0] != 'c';
  }

  /** Distinct documented codes have distinct texts. */
  lemma TableInjective(a: string, b: string)
    requires a in Table && b in Table && a != b
    ensures Table[a] != Table[b]
  {
  }

  /** Classification loses no information: the text determines the code. */
  lemma MessageInjective(a: string, b: string)
    requires Message(a) == Message(b)
    ensures a == b
  {
    if a in Table && b in Table {
      if a != b { TableInjective(a, b); }
    } else if a in Table {
      TableTextIsNotFallback(a, b);
    } else if b in Table {
      TableTextIsNotFallback(b, a);
    } else {
      FallbackInjective(a, b);
    }
  }

  /** For every code but "200", the error's text is exactly `Message`. */
  lemma ErrCarriesMessage(code: string)
    requires code != OkCode
    ensures Err(code) == Some(CodeError(Message(code)))
  {
  }

  /** "0" is an error code with its own text, not a success. */
  lemma ZeroIsAnError()
    ensures Err(ErrorCode) == Some(CodeError("非无界报错返回"))
  {
  }

  /** "200" has no table entry: its `Message` is the fallback text, which
      `Err` never produces because "200" yields no error. */
  lemma OkHasNoTableEntry()
    ensures OkCode !in Table
    ensures Message(OkCode) == "code: 200 未知错误"
    ensures Err(OkCode).None?
  {
  }

  /** The texts of the insufficient-balance and lock-contention codes. */
  lemma DocumentedTexts()
    ensures Err(InsufficientPointsBalance) == Some(CodeError("积分余额不足"))
    ensures Err(LockRaceCondition) == Some(CodeError("由锁竞争导致的作画失败（需要重新发起）"))
  {
  }
}
