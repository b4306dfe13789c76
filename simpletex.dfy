/**
 * The SimpleTex provider: its model table, the payload it is sent and the
 * way a failed response is turned into a message for the user.
 */
module SimpleTex {
  import opened Wrappers
  import opened Text

  /** One row of the model table: id, display name, free calls per day, mode. */
  datatype ModelInfo = ModelInfo(id: string, name: string, freePerDay: nat, mode: string)

  const Models: seq<ModelInfo> := [
    ModelInfo("latex_ocr", "SimpleTex 标准模型", 500, "formula"),
    ModelInfo("latex_ocr_turbo", "SimpleTex 轻量模型", 2000, "formula"),
    ModelInfo("simpletex_ocr", "SimpleTex 通用识别", 50, "document")
  ]

  const TokenInvalidMessage: string := "SimpleTex Token 无效或已过期"
  const QuotaExhaustedMessage: string := "SimpleTex 额度已用完"
  const FailurePrefix: string := "SimpleTex 识别失败: "

  /**
   * The error type of a failed response: the first of `res.errType`,
   * `err_info.err_type` and `errType` that is a string, else "unknown".
   */
  function ErrorType(resErrType: Option<string>, errInfoType: Option<string>, topErrType: Option<string>): (t: string)
    ensures resErrType.Some? ==> t == resErrType.value
    ensures resErrType.None? && errInfoType.Some? ==> t == errInfoType.value
    ensures resErrType.None? && errInfoType.None? ==> t == (if topErrType.Some? then topErrType.value else "unknown")
  {
    match resErrType
    case Some(t) => t
    case None =>
      match errInfoType
      case Some(t) => t
      case None =>
        match topErrType
        case Some(t) => t
        case None => "unknown"
  }

  /** The message for an error type: two known types, and a generic message naming the type. */
  function FailureMessage(errType: string): (msg: string)
    ensures errType == "req_unauthorized" ==> msg == TokenInvalidMessage
    ensures errType == "resource_no_valid" ==> msg == QuotaExhaustedMessage
    ensures errType != "req_unauthorized" && errType != "resource_no_valid" ==>
      StartsWith(msg, FailurePrefix) && msg[|FailurePrefix|..] == errType
  {
    if errType == "req_unauthorized" then TokenInvalidMessage
    else if errType == "resource_no_valid" then QuotaExhaustedMessage
    else FailurePrefix + errType
  }

  /** Different error types always give different messages, so the message identifies the type. */
  lemma FailureMessageInjective(a: string, b: string)
    requires FailureMessage(a) == FailureMessage(b)
    ensures a == b
  {
    var special := {"req_unauthorized", "resource_no_valid"};
    assert !StartsWith(TokenInvalidMessage, FailurePrefix) by {
      assert TokenInvalidMessage[10] != FailurePrefix[10];
    }
    assert !StartsWith(QuotaExhaustedMessage, FailurePrefix) by {
      assert QuotaExhaustedMessage[10] != FailurePrefix[10];
    }
    if a !in special && b !in special {
      assert a == FailureMessage(a)[|FailurePrefix|..];
    }
  }

  /**
   * The fields of a SimpleTex answer that was read as JSON: its `status`
   * flag (absent reads as false), the three error-type lookups and the
   * recognised text.
   */
  datatype Reply = Reply(status: Option<bool>, resErrType: Option<string>, errInfoType: Option<string>,
                         topErrType: Option<string>, text: string)

  /** The outcome of a SimpleTex answer: its text on success, else the message of its error type. */
  function ResponseOutcome(reply: Reply): (r: Result<string>)
    ensures r.Ok? <==> reply.status == Some(true)
    ensures r.Ok? ==> r.value == reply.text
    ensures r.Err? ==> r.error == FailureMessage(ErrorType(reply.resErrType, reply.errInfoType, reply.topErrType))
  {
    if reply.status == Some(true) then Ok(reply.text)
    else Err(FailureMessage(ErrorType(reply.resErrType, reply.errInfoType, reply.topErrType)))
  }

  /** The base64 payload of an uploaded image: the text after its last comma. */
  function Base64Payload(image: string): (b: string)
    ensures ',' !in b
    ensures EndsWith(image, b)
    ensures ',' !in image ==> b == image
    ensures |b| < |image| ==> image[|image| - |b| - 1] == ','
  {
    AfterLast(image, ',')
  }

  /** `find` over table rows: the first row with the given id. */
  function FindModel(rows: seq<ModelInfo>, id: string): (r: Option<nat>)
    ensures r.None? <==> forall i :: 0 <= i < |rows| ==> rows[i].id != id
    ensures r.Some? ==> r.value < |rows| && rows[r.value].id == id
    ensures r.Some? ==> forall i :: 0 <= i < r.value ==> rows[i].id != id
  {
    if |rows| == 0 then None
    else if rows[0].id == id then Some(0)
    else
      match FindModel(rows[1..], id)
      case None => None
      case Some(k) => Some(k + 1)
  }

  /** The display name of a model: its table name, or the id itself when it is not in the table. */
  function ModelName(id: string): (name: string)
    ensures forall i :: 0 <= i < |Models| && Models[i].id == id ==> name == Models[i].name
    ensures (forall i :: 0 <= i < |Models| ==> Models[i].id != id) ==> name == id
  {
    match FindModel(Models, id)
    case Some(k) => Models[k].name
    case None => id
  }
}
