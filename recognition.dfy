/**
 * The answer `recognize` gives: the whitespace normalisation that compares a
 * recognition with its second-pass check, the verified/corrected decision,
 * the SiliconFlow replies turned into a response, the SiliconFlow error
 * message, and the whole command with the usage counter it updates. The
 * network replies are parameters.
 */
module Recognition {
  import opened Wrappers
  import opened Text
  import SimpleTex
  import Routing
  import Usage

  /** `split_whitespace().collect::<Vec<_>>().join(" ")`. */
  function Normalize(s: string): (n: string)
    ensures Words(n) == Words(s)
  {
    WordsOfJoin(Words(s));
    JoinSpaced(Words(s))
  }

  /** Normalising a normalised text changes nothing. */
  lemma NormalizeIdempotent(s: string)
    ensures Normalize(Normalize(s)) == Normalize(s)
  {
  }

  /** Two texts normalise alike exactly when they have the same words in the same order. */
  lemma {:induction false} SameNormalFormIffSameWords(a: string, b: string)
    ensures Normalize(a) == Normalize(b) <==> Words(a) == Words(b)
  {
    if Normalize(a) == Normalize(b) {
      assert Words(Normalize(a)) == Words(Normalize(b));
    }
  }

  /** What `recognize` returns on success. */
  datatype RecognizeResponse = RecognizeResponse(
    text: string,
    model: string,
    verified: Option<bool>,
    corrected: Option<bool>,
    originalText: Option<string>)

  /**
   * The second pass agreed with the first when both have the same words;
   * otherwise the check's text replaces the first one, which is kept as the
   * original.
   */
  function VerificationDecision(text1: string, text2: string, model: string): (r: RecognizeResponse)
    ensures r.model == model
    ensures r.verified == Some(Words(text1) == Words(text2))
    ensures r.verified.Some? && r.corrected == Some(!r.verified.value)
    ensures r.corrected == Some(true) ==> r.text == text2 && r.originalText == Some(text1)
    ensures r.corrected == Some(false) ==> r.text == text1 && r.originalText == None
  {
    SameNormalFormIffSameWords(text1, text2);
    var verified := Normalize(text1) == Normalize(text2);
    var corrected := !verified;
    RecognizeResponse(if corrected then text2 else text1, model, Some(verified), Some(corrected),
                      if corrected then Some(text1) else None)
  }

  /** Only a real difference in the words counts as a correction, not a change of spacing. */
  lemma RespacingIsNoCorrection(text1: string, text2: string, model: string)
    requires Words(text1) == Words(text2)
    ensures VerificationDecision(text1, text2, model) == RecognizeResponse(text1, model, Some(true), Some(false), None)
  {
  }

  /**
   * A check that only widens, narrows or swaps one run of whitespace in the
   * first answer (spaces for a line break, say) confirms it unchanged.
   */
  lemma {:induction false} RespacedCheckIsVerified(a: string, w1: string, w2: string, b: string, model: string)
    requires |w1| > 0 && AllSpace(w1)
    requires |w2| > 0 && AllSpace(w2)
    ensures VerificationDecision(a + w1 + b, a + w2 + b, model)
      == RecognizeResponse(a + w1 + b, model, Some(true), Some(false), None)
  {
    WordsAroundSpace(a, w1, b);
    WordsAroundSpace(a, w2, b);
    RespacingIsNoCorrection(a + w1 + b, a + w2 + b, model);
  }

  const VerifyPromptHead: string := "请对照图片检查以下LaTeX公式是否正确。如果正确，原样返回该公式；如果有错误，返回修正后的公式。只返回最终的纯LaTeX代码，不要解释。\n\n识别结果："

  /** The instruction of the second pass: fixed wording followed by the first recognition. */
  function VerifyPrompt(text1: string): (p: string)
    ensures StartsWith(p, VerifyPromptHead) && p[|VerifyPromptHead|..] == text1
  {
    VerifyPromptHead + text1
  }

  /**
   * The response built from the SiliconFlow replies: `reply1` is the content
   * of the first answer (empty when absent) and `verifyReply` the content of
   * the second one, `None` when that request failed or could not be read.
   * Only formula mode is checked a second time.
   */
  function SiliconFlowResponse(reply1: string, mode: string, model: string, verifyReply: Option<string>): (r: RecognizeResponse)
    ensures r.model == model
    ensures Trim(reply1) == "" ==> r == RecognizeResponse("", model, Some(false), None, None)
    ensures Trim(reply1) != "" && mode == "formula" && verifyReply.Some? && Trim(verifyReply.value) != "" ==>
      r == VerificationDecision(Trim(reply1), Trim(verifyReply.value), model)
    ensures Trim(reply1) != "" && !(mode == "formula" && verifyReply.Some? && Trim(verifyReply.value) != "") ==>
      r == RecognizeResponse(Trim(reply1), model, if mode == "formula" then Some(false) else None, None, None)
  {
    var text1 := Trim(reply1);
    if text1 == "" then RecognizeResponse("", model, Some(false), None, None)
    else if mode == "formula" && verifyReply.Some? && Trim(verifyReply.value) != "" then
      VerificationDecision(text1, Trim(verifyReply.value), model)
    else RecognizeResponse(text1, model, if mode == "formula" then Some(false) else None, None, None)
  }

  /** The text handed back never starts or ends with whitespace. */
  lemma ResponseTextTrimmed(reply1: string, mode: string, model: string, verifyReply: Option<string>)
    ensures IsTrimmed(SiliconFlowResponse(reply1, mode, model, verifyReply).text)
  {
    var text1 := Trim(reply1);
    if text1 != "" && mode == "formula" && verifyReply.Some? && Trim(verifyReply.value) != "" {
      var text2 := Trim(verifyReply.value);
      var r := VerificationDecision(text1, text2, model);
      assert r.text == text1 || r.text == text2;
    }
  }

  /**
   * Outside formula mode nothing is verified or corrected (except that an
   * empty answer is marked unverified); in formula mode `verified` is
   * always reported, and `true` only when the check repeated the words.
   */
  lemma VerificationOnlyForFormulas(reply1: string, mode: string, model: string, verifyReply: Option<string>)
    ensures var r := SiliconFlowResponse(reply1, mode, model, verifyReply);
      (r.corrected.Some? ==> mode == "formula")
      && (r.verified.None? <==> mode != "formula" && Trim(reply1) != "")
      && (r.verified == Some(true) ==>
            verifyReply.Some? && Words(Trim(reply1)) == Words(Trim(verifyReply.value)) && r.text == Trim(reply1))
  {
  }

  /** A corrected answer keeps the first recognition, which differs from the answer in its words. */
  lemma CorrectionKeepsOriginal(reply1: string, mode: string, model: string, verifyReply: Option<string>)
    ensures var r := SiliconFlowResponse(reply1, mode, model, verifyReply);
      (r.originalText.Some? <==> r.corrected == Some(true))
      && (r.corrected == Some(true) ==>
            r.originalText == Some(Trim(reply1)) && Words(r.text) != Words(Trim(reply1)))
  {
  }

  const ApiFailurePrefix: string := "API 调用失败: "
  const SmallImageMessage: string := "图片尺寸太小，该模型要求最小 28×28 像素，请使用更大的图片"

  /** The service's message says the image is below the minimum size. */
  predicate SaysImageTooSmall(msg: string) {
    var lower := ToLower(msg);
    Contains(lower, "height") && Contains(lower, "width") && Contains(lower, "must be larger")
  }

  /** The test ignores letter case: an upper-cased or lower-cased message is judged alike. */
  lemma ImageTooSmallIgnoresCase(msg: string)
    ensures SaysImageTooSmall(ToUpper(msg)) == SaysImageTooSmall(msg)
    ensures SaysImageTooSmall(ToLower(msg)) == SaysImageTooSmall(msg)
  {
    assert ToLower(ToUpper(msg)) == ToLower(msg);
    assert ToLower(ToLower(msg)) == ToLower(msg);
  }

  /**
   * The error of a failed first SiliconFlow request: the service's
   * `message` (else `error.message`), rewritten when it complains about
   * the image size, or the HTTP status when it gave no message.
   */
  function SfErrorMessage(status: nat, message: Option<string>, errorMessage: Option<string>): (msg: string)
    ensures var m := if message.Some? then message.value else if errorMessage.Some? then errorMessage.value else "";
      (m == "" ==> StartsWith(msg, ApiFailurePrefix) && msg[|ApiFailurePrefix|..] == NatToString(status))
      && (m != "" && SaysImageTooSmall(m) ==> msg == SmallImageMessage)
      && (m != "" && !SaysImageTooSmall(m) ==> msg == m)
  {
    var m := if message.Some? then message.value else if errorMessage.Some? then errorMessage.value else "";
    if m == "" then ApiFailurePrefix + NatToString(status)
    else if SaysImageTooSmall(m) then SmallImageMessage
    else m
  }

  /** When the service says nothing, the status can be read back from the message. */
  lemma StatusOfSilentFailure(status: nat, message: Option<string>, errorMessage: Option<string>)
    requires message.None? || message.value == ""
    requires message.Some? || errorMessage.None? || errorMessage.value == ""
    ensures var msg := SfErrorMessage(status, message, errorMessage);
      var digits := msg[|ApiFailurePrefix|..];
      (forall i :: 0 <= i < |digits| ==> IsDigit(digits[i])) && DecimalValue(digits) == status
  {
    DecimalRoundTrip(status);
  }

  /** The model shown for a SimpleTex answer: the table name of the model, else its id. */
  function SimpleTexModelLabel(model: string): (shown: string)
    ensures forall i :: 0 <= i < |SimpleTex.Models| && SimpleTex.Models[i].id == model ==>
      shown == "SimpleTex (" + SimpleTex.Models[i].name + ")"
    ensures (forall i :: 0 <= i < |SimpleTex.Models| ==> SimpleTex.Models[i].id != model) ==>
      shown == "SimpleTex (" + model + ")"
  {
    "SimpleTex (" + SimpleTex.ModelName(model) + ")"
  }

  /**
   * What the first SiliconFlow request gives once it was answered and read:
   * a failure status with the `message` and `error.message` fields of its
   * body, or the content of the first choice (empty when absent).
   */
  datatype SfReply = Failed(status: nat, message: Option<string>, errorMessage: Option<string>) | Answered(content: string)

  /**
   * `recognize`. `stReply` is the SimpleTex answer, or the message of an
   * error raised before its fields are read (a payload that is not base64,
   * a failed request, an HTTP error, a body that is not JSON); `sfFirst` is
   * the first SiliconFlow answer, or the message of a failed request or an
   * unreadable body; `sfVerify` is the content of the second reply. Each is
   * used only on its own path.
   */
  method Recognize(log: Usage.UsageLog, today: string, image: string, mode: string, modelId: string,
                   stToken: string, sfKey: string,
                   stReply: Result<SimpleTex.Reply>, sfFirst: Result<SfReply>, sfVerify: Option<string>)
    returns (r: Result<RecognizeResponse>)
    modifies log
    ensures var plan := Routing.PlanRecognition(image, mode, modelId, stToken, sfKey);
      plan.Err? ==> r == Err(plan.error) && log.State() == old(log.State())
    ensures var plan := Routing.PlanRecognition(image, mode, modelId, stToken, sfKey);
      plan.Ok? && plan.value.SimpleTexCall? && stReply.Err? ==>
        r == Err(stReply.error) && log.State() == old(log.State())
    ensures var plan := Routing.PlanRecognition(image, mode, modelId, stToken, sfKey);
      plan.Ok? && plan.value.SimpleTexCall? && stReply.Ok? && SimpleTex.ResponseOutcome(stReply.value).Err? ==>
        r == Err(SimpleTex.ResponseOutcome(stReply.value).error) && log.State() == old(log.State())
    ensures var plan := Routing.PlanRecognition(image, mode, modelId, stToken, sfKey);
      plan.Ok? && plan.value.SimpleTexCall? && stReply.Ok? && SimpleTex.ResponseOutcome(stReply.value).Ok? ==>
        r == Ok(RecognizeResponse(stReply.value.text, SimpleTexModelLabel(plan.value.model), None, None, None))
        && log.State() == Usage.Increment(old(log.State()), today, plan.value.model)
    ensures var plan := Routing.PlanRecognition(image, mode, modelId, stToken, sfKey);
      plan.Ok? && plan.value.SiliconFlowCall? ==>
        log.State() == old(log.State())
        && r == match sfFirst
                case Err(e) => Err(e)
                case Ok(Failed(status, message, errorMessage)) => Err(SfErrorMessage(status, message, errorMessage))
                case Ok(Answered(content)) => Ok(SiliconFlowResponse(content, mode, plan.value.model, sfVerify))
  {
    var plan := Routing.PlanRecognition(image, mode, modelId, stToken, sfKey);
    if plan.Err? {
      return Err(plan.error);
    }
    match plan.value
    case SimpleTexCall(model, _) =>
      if stReply.Err? {
        return Err(stReply.error);
      }
      var outcome := SimpleTex.ResponseOutcome(stReply.value);
      if outcome.Err? {
        return Err(outcome.error);
      }
      log.Record(today, model);
      r := Ok(RecognizeResponse(outcome.value, SimpleTexModelLabel(model), None, None, None));
    case SiliconFlowCall(model, _, _) =>
      match sfFirst
      case Err(e) =>
        return Err(e);
      case Ok(Failed(status, message, errorMessage)) =>
        return Err(SfErrorMessage(status, message, errorMessage));
      case Ok(Answered(content)) =>
        r := Ok(SiliconFlowResponse(content, mode, model, sfVerify));
  }
}
