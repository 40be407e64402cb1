/**
 * The server route that proxies one image request to the image vendor
 * (app/api/fal/generate/route.ts, `POST`). The vendor call and the request-body parsing are
 * outside the model; their outcomes are inputs.
 */
module ImageProxy {
  import opened Wrappers

  /** The `prompt` field of the parsed request body, as JavaScript sees it. */
  datatype JsValue =
    | Undefined
    | Null
    | Str(s: string)
      /**
       * A number, boolean, array or object: its truthiness and its template-literal rendering,
       * `None` when converting it to a string throws (an object such as `{"toString": 0}`).
       */
    | NonString(truthy: bool, rendered: Option<string>)

  /** JavaScript truthiness, the test of `if (!prompt)`. */
  predicate Truthy(v: JsValue)
    ensures Truthy(v) ==> v != Undefined && v != Null && v != Str("")
    ensures v.Str? && v.s != "" ==> Truthy(v)
  {
    match v
    case Undefined => false
    case Null => false
    case Str(s) => s != ""
    case NonString(t, _) => t
  }

  /** What `${v}` inserts into a template literal; `None` when the conversion throws. */
  function Rendered(v: JsValue): (r: Option<string>)
    ensures v.Str? ==> r == Some(v.s)
    ensures r.None? ==> v.NonString?
  {
    match v
    case Undefined => Some("undefined")
    case Null => Some("null")
    case Str(s) => Some(s)
    case NonString(_, text) => text
  }

  /**
   * The outcome of `await request.json()` followed by destructuring `{ prompt }`:
   * `Unreadable` when that throws (a body that is not JSON, or the JSON value null).
   */
  datatype RequestBody = Unreadable | Json(prompt: JsValue)

  const Preamble: string := "Fantasy RPG illustration, Dungeons & Dragons style, mystical atmosphere, detailed digital painting, dramatic lighting, epic scene: "

  const ModelId: string := "fal-ai/flux/schnell"

  /** The vendor endpoint and the `input` object handed to the vendor's `subscribe`. */
  datatype VendorInput = VendorInput(
    endpoint: string,
    prompt: string,
    imageSize: string,
    numInferenceSteps: int,
    numImages: int,
    enableSafetyChecker: bool)

  /** One entry of an `images` array; its `url` may be absent at run time. */
  datatype Image = Image(url: Option<string>)

  datatype ResultData = ResultData(images: Option<seq<Image>>)

  /** The vendor's result, in either of the two nested shapes the route accepts. */
  datatype VendorResult = VendorResult(data: Option<ResultData>, images: Option<seq<Image>>)

  /** The vendor call either throws or returns a result. */
  datatype VendorOutcome = Threw | Returned(result: VendorResult)

  datatype ResponseBody =
    | ImageUrl(imageUrl: string)
    | Error(error: string, result: Option<VendorResult>)

  datatype Response = Response(status: int, body: ResponseBody)

  /** The vendor input the route sent, if it called the vendor, and the response it returned. */
  datatype Exchange = Exchange(vendorCall: Option<VendorInput>, response: Response)

  const PromptRequired: string := "Prompt is required"
  const NoImageGenerated: string := "No image generated"
  const FailedToGenerate: string := "Failed to generate image"

  /** The template literal of the vendor prompt, around the rendered client prompt. */
  function EnhancedPrompt(rendered: string): (r: string)
    ensures |r| == |Preamble| + |rendered|
    ensures r[..|Preamble|] == Preamble && r[|Preamble|..] == rendered
  {
    Preamble + rendered
  }

  /** The vendor parameters that never vary, around the enhanced prompt. */
  function VendorInputFor(enhanced: string): (r: VendorInput)
    ensures r.prompt == enhanced && r.endpoint == ModelId
    ensures r.imageSize == "landscape_16_9" && r.numInferenceSteps == 4 && r.numImages == 1 && !r.enableSafetyChecker
  {
    VendorInput(ModelId, enhanced, "landscape_16_9", 4, 1, false)
  }

  /** `images?.[0]?.url`. */
  function FirstUrl(images: Option<seq<Image>>): (r: Option<string>)
    ensures r.Some? <==> images.Some? && |images.value| > 0 && images.value[0].url.Some?
    ensures r.Some? ==> r == images.value[0].url
  {
    if images.Some? && |images.value| > 0 then images.value[0].url else None
  }

  /** `result?.data?.images?.[0]?.url || result?.images?.[0]?.url`. */
  function ExtractUrl(r: VendorResult): (u: Option<string>)
    ensures r.data.Some? && FirstUrl(r.data.value.images).Some? && FirstUrl(r.data.value.images).value != "" ==>
      u == FirstUrl(r.data.value.images)
    ensures !(r.data.Some? && FirstUrl(r.data.value.images).Some? && FirstUrl(r.data.value.images).value != "") ==>
      u == FirstUrl(r.images)
  {
    var nested := if r.data.Some? then FirstUrl(r.data.value.images) else None;
    if nested.Some? && nested.value != "" then nested else FirstUrl(r.images)
  }

  /** `!imageUrl` for the extracted value. */
  predicate HasUrl(u: Option<string>)
    ensures HasUrl(u) ==> u.Some? && |u.value| > 0
    ensures u.Some? && |u.value| > 0 ==> HasUrl(u)
  {
    u.Some? && u.value != ""
  }

  /** The `POST` handler. `vendor` is what the vendor call yields if the handler makes it. */
  function HandlePost(body: RequestBody, vendor: VendorOutcome): (x: Exchange)
    // The prompt check: a falsy prompt is refused with 400 before the vendor is called.
    ensures x.response.status == 400 <==> body.Json? && !Truthy(body.prompt)
    ensures x.response.status == 400 ==> x.response.body == Error(PromptRequired, None) && x.vendorCall == None
    // The vendor is called exactly for a truthy prompt that renders, with the fixed parameters.
    ensures x.vendorCall.Some? <==> body.Json? && Truthy(body.prompt) && Rendered(body.prompt).Some?
    ensures x.vendorCall.Some? ==> x.vendorCall.value == VendorInputFor(EnhancedPrompt(Rendered(body.prompt).value))
    // A truthy prompt whose rendering throws lands in the catch: 500, and no vendor call.
    ensures body.Json? && Truthy(body.prompt) && Rendered(body.prompt).None? ==>
      x == Exchange(None, Response(500, Error(FailedToGenerate, None)))
    // Success: 200 with exactly the extracted, non-empty URL.
    ensures x.response.status == 200 <==>
      x.vendorCall.Some? && vendor.Returned? && HasUrl(ExtractUrl(vendor.result))
    ensures x.response.status == 200 ==> x.response.body == ImageUrl(ExtractUrl(vendor.result).value)
    // The two 500 responses.
    ensures x.vendorCall.Some? && vendor.Returned? && !HasUrl(ExtractUrl(vendor.result)) ==>
      x.response == Response(500, Error(NoImageGenerated, Some(vendor.result)))
    ensures body.Unreadable? || (x.vendorCall.Some? && vendor.Threw?) ==>
      x.response == Response(500, Error(FailedToGenerate, None))
    ensures x.response.status in {200, 400, 500}
  {
    match body
    case Unreadable => Exchange(None, Response(500, Error(FailedToGenerate, None)))
    case Json(prompt) =>
      if !Truthy(prompt) then Exchange(None, Response(400, Error(PromptRequired, None)))
      else if Rendered(prompt).None? then Exchange(None, Response(500, Error(FailedToGenerate, None)))
      else
        var input := VendorInputFor(EnhancedPrompt(Rendered(prompt).value));
        match vendor
        case Threw => Exchange(Some(input), Response(500, Error(FailedToGenerate, None)))
        case Returned(result) =>
          var url := ExtractUrl(result);
          if !HasUrl(url) then Exchange(Some(input), Response(500, Error(NoImageGenerated, Some(result))))
          else Exchange(Some(input), Response(200, ImageUrl(url.value)))
  }

  /** The client's string prompt reaches the vendor unchanged, after the fixed preamble. */
  lemma ClientPromptIsSuffix(p: string, vendor: VendorOutcome)
    requires p != ""
    ensures var call := HandlePost(Json(Str(p)), vendor).vendorCall;
      call.Some? && call.value.prompt == Preamble + p &&
      call.value.prompt[|call.value.prompt| - |p|..] == p
  {
  }

  /**
   * A truthy prompt whose string conversion throws (say the object `{"toString": 0}`) never
   * reaches the vendor: whatever the vendor would have done, the answer is 500.
   */
  lemma ThrowingPromptFails(vendor: VendorOutcome)
    ensures HandlePost(Json(NonString(true, None)), vendor) ==
      Exchange(None, Response(500, Error(FailedToGenerate, None)))
  {
  }

  /** Every vendor call goes to the same endpoint with the same size, step count, image count and safety setting. */
  lemma FixedVendorParameters(body: RequestBody, vendor: VendorOutcome)
    requires HandlePost(body, vendor).vendorCall.Some?
    ensures var input := HandlePost(body, vendor).vendorCall.value;
      input.endpoint == ModelId && input.imageSize == "landscape_16_9" && input.numInferenceSteps == 4 &&
      input.numImages == 1 && !input.enableSafetyChecker
  {
  }

  /** Both accepted result shapes yield `200 {imageUrl: "X"}`; neither yields a 500. */
  lemma ResultShapes(p: string, url: string)
    requires p != "" && url != ""
    ensures HandlePost(Json(Str(p)), Returned(VendorResult(Some(ResultData(Some([Image(Some(url))]))), None))).response ==
      Response(200, ImageUrl(url))
    ensures HandlePost(Json(Str(p)), Returned(VendorResult(None, Some([Image(Some(url))])))).response ==
      Response(200, ImageUrl(url))
    ensures HandlePost(Json(Str(p)), Returned(VendorResult(Some(ResultData(Some([]))), None))).response.status == 500
  {
  }

  /** An empty nested URL falls through to the top-level shape. */
  lemma EmptyNestedUrlFallsBack(nested: seq<Image>, top: Option<seq<Image>>)
    requires |nested| > 0 && nested[0].url == Some("")
    ensures ExtractUrl(VendorResult(Some(ResultData(Some(nested))), top)) == FirstUrl(top)
  {
  }
}
