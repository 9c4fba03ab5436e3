/** The pure parts of the text-to-image adapter (artworks/ai_service.py):
    the SDXL size table, the style suffix added to the prompt, the request
    payload, and how the outcome of the HTTP call becomes the
    `{success, error | image_base64}` result. The HTTP call itself is an
    input: `Transport` says what it produced. */
module AiService {
  import opened Common

  /** The SDXL sizes (width, height) listed by `get_valid_dimensions`. */
  const SDXL_SIZES: seq<(int, int)> := [
    (1024, 1024), (1152, 896), (1216, 832), (1344, 768), (1536, 640),
    (640, 1536), (768, 1344), (832, 1216), (896, 1152)]

  /** The explicit entries of `get_valid_dimensions`. */
  const DIMENSION_TABLE: map<int, (int, int)> := map[
    512 := (832, 1216),
    768 := (1152, 896),
    1024 := (1024, 1024)]

  /** The widths offered by the generation form. */
  const FORM_WIDTHS: seq<int> := [512, 768, 1024]

  /** The styles offered by the generation form. */
  const FORM_STYLES: seq<string> := [
    "realistic", "oil_painting", "digital_art", "watercolor", "anime",
    "cartoon", "sketch", "cyberpunk", "fantasy"]

  const STYLE_SUFFIXES: map<string, string> := map[
    "realistic" := "photorealistic, highly detailed, professional photography",
    "oil_painting" := "oil painting, impressionist, brushstrokes",
    "digital_art" := "digital art, high resolution, concept art",
    "watercolor" := "watercolor painting, soft colors, artistic",
    "anime" := "anime style, vibrant colors, manga illustration",
    "cartoon" := "cartoon style, fun, colorful, playful",
    "sketch" := "pencil sketch, line art, detailed drawing",
    "cyberpunk" := "cyberpunk, neon lights, futuristic, sci-fi",
    "fantasy" := "fantasy art, magical, mystical, epic"]

  const DEFAULT_SUFFIX: string := "detailed"

  const MISSING_KEY_ERROR: string := "API key not configured. Add STABLE_DIFFUSION_API_KEY to settings.py"
  const NO_IMAGE_ERROR: string := "No image generated in response. Please try again."
  const TIMEOUT_ERROR: string := "Request timed out. Image generation took too long. Please try again."

  /** `get_valid_dimensions`: total on every width, always an SDXL size,
      and the square 1024x1024 for any width outside the table. */
  function GetValidDimensions(width: int): (wh: (int, int))
    ensures wh in SDXL_SIZES
    ensures width in DIMENSION_TABLE ==> wh == DIMENSION_TABLE[width]
    ensures width !in DIMENSION_TABLE ==> wh == (1024, 1024)
  {
    if width in DIMENSION_TABLE then DIMENSION_TABLE[width] else (1024, 1024)
  }

  /** Every width the form offers has its own table entry, so the
      fallback is reached only by widths the form cannot send. */
  lemma FormWidthsInTable()
    ensures forall w :: w in FORM_WIDTHS ==> w in DIMENSION_TABLE
    ensures GetValidDimensions(512) == (832, 1216)
    ensures GetValidDimensions(768) == (1152, 896)
    ensures GetValidDimensions(1024) == (1024, 1024)
  {
  }

  /** The phrase added for a style: its table entry, `detailed` otherwise. */
  function StyleSuffix(style: string): (suffix: string)
    ensures style in STYLE_SUFFIXES ==> suffix == STYLE_SUFFIXES[style]
    ensures style !in STYLE_SUFFIXES ==> suffix == DEFAULT_SUFFIX
    ensures suffix != ""
  {
    if style in STYLE_SUFFIXES then STYLE_SUFFIXES[style] else DEFAULT_SUFFIX
  }

  /** Every style the form offers has its own suffix. */
  lemma FormStylesHaveSuffixes()
    ensures forall s :: s in FORM_STYLES ==> s in STYLE_SUFFIXES
  {
  }

  /** The enhanced prompt `f"{prompt}, {suffix}"`: the user's prompt is
      kept whole as a prefix, followed by ", " and the style's phrase. */
  function EnhancePrompt(prompt: string, style: string): (text: string)
    ensures |text| == |prompt| + 2 + |StyleSuffix(style)|
    ensures text[..|prompt|] == prompt
    ensures text[|prompt|..|prompt| + 2] == ", "
    ensures text[|prompt| + 2..] == StyleSuffix(style)
  {
    prompt + ", " + StyleSuffix(style)
  }

  /** For a given style, different prompts give different enhanced
      prompts: the enhancement loses nothing the user wrote. */
  lemma EnhancePromptInjective(p1: string, p2: string, style: string)
    requires EnhancePrompt(p1, style) == EnhancePrompt(p2, style)
    ensures p1 == p2
  {
    assert |p1| == |p2|;
    assert p1 == EnhancePrompt(p1, style)[..|p1|];
  }

  /** The JSON body posted to the SDXL text-to-image endpoint. */
  datatype Payload = Payload(
    text: string, weight: int, cfgScale: int,
    height: int, width: int, samples: int, steps: int)

  /** The payload `generate_image` posts. */
  function SdxlPayload(prompt: string, style: string, width: int): (p: Payload)
    ensures (p.width, p.height) in SDXL_SIZES
    ensures (p.width, p.height) == GetValidDimensions(width)
    ensures p.text == EnhancePrompt(prompt, style)
    ensures p.weight == 1 && p.cfgScale == 7 && p.samples == 1 && p.steps == 30
  {
    var (w, h) := GetValidDimensions(width);
    Payload(EnhancePrompt(prompt, style), 1, 7, h, w, 1, 30)
  }

  /** One element of `artifacts`; `base64` may be missing. */
  datatype Artifact = Artifact(base64: Option<string>)

  /** What `response.json()` gives. `JsonObject` is a dict: its `message`
      and `artifacts` keys, and `str()` of the whole dict. `NotJson` is a
      body that fails to decode; the decoding error `requests` raises is
      one of its own request exceptions. */
  datatype Body =
    | JsonObject(message: Option<string>, artifacts: Option<seq<Artifact>>, rendered: string)
    | JsonOther
    | NotJson(decodeError: string, text: string)

  /** What the call to `requests.post` produced. */
  datatype Transport =
    | HttpResponse(status: nat, reason: string, body: Body)
    | TimedOut
    | NetworkError(detail: string)

  /** The dictionary `generate_image` returns. */
  datatype GenerationResult =
    | Generated(imageBase64: string, prompt: string, style: string)
    | Failed(error: string)

  /** The message for a non-200 status. */
  function HttpErrorMessage(status: nat, reason: string, body: Body): (msg: string)
    ensures msg != ""
  {
    var fallback := "API request failed: " + NatToString(status) + " " + reason;
    match body
    case JsonObject(message, _, rendered) => "API Error: " + message.GetOr(rendered)
    case JsonOther => fallback
    case NotJson(_, text) => fallback + " - " + (if |text| <= 300 then text else text[..300])
  }

  /** The image of a 200 response, when there is one: the first artifact's
      non-empty `base64`. */
  function FirstImage(body: Body): Option<string> {
    match body
    case JsonObject(_, Some(artifacts), _) =>
      if |artifacts| > 0 && artifacts[0].base64.Some? && artifacts[0].base64.value != ""
      then Some(artifacts[0].base64.value)
      else None
    case _ => None
  }

  /** How the outcome of the call becomes the result, once the request
      has been sent with `enhanced` as its prompt. */
  function Classify(enhanced: string, style: string, outcome: Transport): (r: GenerationResult)
    ensures r.Failed? ==> r.error != ""
    ensures r.Generated? <==>
      outcome.HttpResponse? && outcome.status == 200 && FirstImage(outcome.body).Some?
    ensures r.Generated? ==>
      r.imageBase64 == FirstImage(outcome.body).value && r.imageBase64 != ""
      && r.prompt == enhanced && r.style == style
    ensures outcome.HttpResponse? && outcome.status != 200 ==>
      r == Failed(HttpErrorMessage(outcome.status, outcome.reason, outcome.body))
  {
    match outcome
    case TimedOut => Failed(TIMEOUT_ERROR)
    case NetworkError(detail) => Failed("Network error: " + detail)
    case HttpResponse(status, reason, body) =>
      if status != 200 then Failed(HttpErrorMessage(status, reason, body))
      else match body
        case NotJson(decodeError, _) => Failed("Network error: " + decodeError)
        case _ =>
          match FirstImage(body)
          case Some(image) => Generated(image, enhanced, style)
          case None => Failed(NO_IMAGE_ERROR)
  }

  /** `generate_image`. The key is checked before anything is built or
      sent; `outcome` is what the POST of `SdxlPayload(...)` produced. */
  function GenerateImage(apiKey: Option<string>, prompt: string, style: string, width: int,
                         outcome: Transport): (r: GenerationResult)
    ensures apiKey.GetOr("") == "" ==> r == Failed(MISSING_KEY_ERROR)
    ensures r.Failed? ==> r.error != ""
    ensures r.Generated? <==>
      apiKey.GetOr("") != "" && outcome.HttpResponse? && outcome.status == 200
      && FirstImage(outcome.body).Some?
    ensures r.Generated? ==>
      r.prompt == SdxlPayload(prompt, style, width).text && r.prompt[..|prompt|] == prompt
  {
    if apiKey.GetOr("") == "" then Failed(MISSING_KEY_ERROR)
    else Classify(SdxlPayload(prompt, style, width).text, style, outcome)
  }

  /** Without a key no request is made: the result does not depend on
      what a request would have produced. */
  lemma MissingKeyMakesNoRequest(prompt: string, style: string, width: int, o1: Transport, o2: Transport)
    ensures GenerateImage(None, prompt, style, width, o1) == GenerateImage(Some(""), prompt, style, width, o2)
  {
  }

  /** A successful result carries exactly the first artifact's image and
      the enhanced prompt that was sent. */
  lemma SuccessCarriesFirstArtifact(key: string, prompt: string, style: string, width: int,
                                    artifacts: seq<Artifact>, image: string, rest: Option<string>, rendered: string)
    requires key != "" && image != "" && |artifacts| > 0 && artifacts[0] == Artifact(Some(image))
    ensures GenerateImage(Some(key), prompt, style, width,
                          HttpResponse(200, "OK", JsonObject(rest, Some(artifacts), rendered)))
            == Generated(image, EnhancePrompt(prompt, style), style)
  {
  }
}
