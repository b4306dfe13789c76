/**
 * How `recognize` decides where a request goes: the provider-qualified model
 * id, the fallback for an unqualified id, the SimpleTex `rec_mode`, the image
 * URL and prompt sent to SiliconFlow, and the errors raised before any call.
 */
module Routing {
  import opened Wrappers
  import opened Text
  import SimpleTex

  const SimpleTexProvider: string := "simpletex"
  const SiliconFlowProvider: string := "siliconflow"

  /** The id under which the model list offers a provider's model. */
  function Qualify(provider: string, id: string): (q: string)
    ensures |q| == |provider| + 1 + |id|
    ensures q[..|provider|] == provider && q[|provider|] == ':' && q[|provider| + 1..] == id
  {
    var q := provider + ":" + id;
    assert q[..|provider|] == provider;
    q
  }

  /** Split a model id at its first `:` into provider and provider-side id. */
  function SplitQualified(modelId: string): (r: Option<(string, string)>)
    ensures r.None? <==> ':' !in modelId
    ensures r.Some? ==> ':' !in r.value.0 && modelId == Qualify(r.value.0, r.value.1)
  {
    match FirstIndex(modelId, ':')
    case None => None
    case Some(i) =>
      assert modelId == modelId[..i] + ":" + modelId[i + 1..];
      Some((modelId[..i], modelId[i + 1..]))
  }

  /** Splitting a qualified id gives back its provider and id, even when the id holds a `:`. */
  lemma SplitQualifyRoundTrip(p: string, id: string)
    requires ':' !in p
    ensures SplitQualified(Qualify(p, id)) == Some((p, id))
  {
    var s := Qualify(p, id);
    assert s[|p|] == ':';
    var i := FirstIndex(s, ':').value;
    if i > |p| {
      assert false;
    }
    assert s[..|p|] == p;
    assert s[|p| + 1..] == id;
  }

  /** The provider and model a request is routed to. */
  function Route(modelId: string, mode: string, stToken: string): (route: (string, string))
    ensures ':' in modelId ==> SplitQualified(modelId) == Some(route)
    ensures ':' !in modelId ==>
      route == if stToken != "" && mode == "formula" then (SimpleTexProvider, "latex_ocr") else (SiliconFlowProvider, "")
  {
    match SplitQualified(modelId)
    case Some(route) => route
    case None =>
      if stToken != "" && mode == "formula" then (SimpleTexProvider, "latex_ocr") else (SiliconFlowProvider, "")
  }

  const GeneralOcrModel: string := "simpletex_ocr"

  /** The `rec_mode` form field: sent only to the general OCR model, `formula` or `document`. */
  function RecMode(model: string, mode: string): (r: Option<string>)
    ensures r.Some? <==> model == GeneralOcrModel
    ensures r.Some? ==> (r.value == "formula" <==> mode == "formula")
    ensures r.Some? ==> r.value == "formula" || r.value == "document"
  {
    if model == GeneralOcrModel then Some(if mode == "formula" then "formula" else "document") else None
  }

  const DataUrlPrefix: string := "data:"
  const PngBase64Prefix: string := "data:image/png;base64,"

  /** The image URL in a SiliconFlow request: a data URL, wrapping bare base64 as PNG. */
  function ImageUrl(image: string): (url: string)
    ensures StartsWith(url, DataUrlPrefix)
    ensures StartsWith(image, DataUrlPrefix) ==> url == image
    ensures !StartsWith(image, DataUrlPrefix) ==> url == PngBase64Prefix + image
  {
    if StartsWith(image, DataUrlPrefix) then image else PngBase64Prefix + image
  }

  /** Shaping a URL twice is shaping it once. */
  lemma ImageUrlIdempotent(image: string)
    ensures ImageUrl(ImageUrl(image)) == ImageUrl(image)
  {
  }

  /** The payload SimpleTex would read from a shaped URL is the bare base64 that was wrapped. */
  lemma PayloadOfWrappedImage(image: string)
    requires !StartsWith(image, DataUrlPrefix) && ',' !in image
    ensures SimpleTex.Base64Payload(ImageUrl(image)) == image
  {
    var url := ImageUrl(image);
    var b := SimpleTex.Base64Payload(url);
    assert url[|PngBase64Prefix| - 1] == ',';
    if |b| > |image| {
      assert false;
    }
  }

  const FormulaPrompt: string := "请识别图片中的数学公式，只返回纯LaTeX代码，不要用markdown代码块包裹，不要加$符号，不要解释。"
  const OcrPrompt: string := "请识别图片中的所有文字内容，保持原始排版格式。只返回识别到的文字，不要解释。"
  const DocumentPrompt: string := "请识别图片中的所有内容（包括文字、公式、表格等），以Markdown格式返回。公式用$...$（行内）或$$...$$（块级）包裹，表格用Markdown表格语法，保持原始排版结构。不要解释。"

  /** The instruction sent with the image; any mode other than `ocr` and `document` gets the formula prompt. */
  function GetPrompt(mode: string): (prompt: string)
    ensures prompt == FormulaPrompt <==> mode != "ocr" && mode != "document"
    ensures prompt == OcrPrompt <==> mode == "ocr"
    ensures prompt == DocumentPrompt <==> mode == "document"
  {
    assert |FormulaPrompt| != |OcrPrompt| && |FormulaPrompt| != |DocumentPrompt| && |OcrPrompt| != |DocumentPrompt|;
    match mode
    case "formula" => FormulaPrompt
    case "ocr" => OcrPrompt
    case "document" => DocumentPrompt
    case _ => FormulaPrompt
  }

  /** The request `recognize` goes on to make. */
  datatype Plan =
    | SimpleTexCall(model: string, recMode: Option<string>)
    | SiliconFlowCall(model: string, imageUrl: string, prompt: string)

  const TokenMissing: string := "SimpleTex Token 未配置"
  const KeyMissing: string := "请先在设置中配置硅基流动 API Key"
  const NoModel: string := "未选择模型"

  /**
   * The decision `recognize` makes before its first network call, from the
   * image, the mode, the chosen model id and the stored token and key.
   */
  function PlanRecognition(image: string, mode: string, modelId: string, stToken: string, sfKey: string): (r: Result<Plan>)
    ensures r.Ok? && r.value.SimpleTexCall? ==> stToken != "" && r.value.recMode == RecMode(r.value.model, mode)
    ensures r.Ok? && r.value.SiliconFlowCall? ==>
      sfKey != "" && r.value.model != "" && StartsWith(r.value.imageUrl, DataUrlPrefix)
      && r.value.prompt == GetPrompt(mode)
  {
    var (provider, model) := Route(modelId, mode, stToken);
    if provider == SimpleTexProvider then
      if stToken == "" then Err(TokenMissing) else Ok(SimpleTexCall(model, RecMode(model, mode)))
    else if sfKey == "" then Err(KeyMissing)
    else if model == "" then Err(NoModel)
    else Ok(SiliconFlowCall(model, ImageUrl(image), GetPrompt(mode)))
  }

  /** A SimpleTex model picked from the list goes to SimpleTex once a token is stored. */
  lemma PlanForSimpleTexModel(image: string, mode: string, id: string, stToken: string, sfKey: string)
    ensures PlanRecognition(image, mode, Qualify(SimpleTexProvider, id), stToken, sfKey)
         == if stToken == "" then Err(TokenMissing) else Ok(SimpleTexCall(id, RecMode(id, mode)))
  {
    SplitQualifyRoundTrip(SimpleTexProvider, id);
  }

  /** Any other provider goes down the SiliconFlow path, which needs a key and a model. */
  lemma PlanForOtherProvider(image: string, mode: string, p: string, id: string, stToken: string, sfKey: string)
    requires ':' !in p && p != SimpleTexProvider
    ensures PlanRecognition(image, mode, Qualify(p, id), stToken, sfKey)
         == if sfKey == "" then Err(KeyMissing)
            else if id == "" then Err(NoModel)
            else Ok(SiliconFlowCall(id, ImageUrl(image), GetPrompt(mode)))
  {
    SplitQualifyRoundTrip(p, id);
  }

  /**
   * An unqualified id reaches SimpleTex's standard model exactly when a token
   * is stored and the mode is `formula`; otherwise it is rejected.
   */
  lemma PlanForUnqualifiedId(image: string, mode: string, modelId: string, stToken: string, sfKey: string)
    requires ':' !in modelId
    ensures var r := PlanRecognition(image, mode, modelId, stToken, sfKey);
      (r.Ok? <==> stToken != "" && mode == "formula")
      && (r.Ok? ==> r.value == SimpleTexCall("latex_ocr", None))
      && (r.Err? ==> r.error == (if sfKey == "" then KeyMissing else NoModel))
  {
  }
}
