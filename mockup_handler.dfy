/**
 * The generate-mockup edge function (`serve` handler): preflight, API-key check, prompt
 * composition, the one call to the image model, and the choice of response. The network, the
 * environment and the JavaScript runtime's error texts are parameters.
 */
module MockupHandler {

  import opened Wrappers
  import opened JsText
  import opened JsonValue
  import opened MockupPrompt
  import opened MockupRequest

  // ----- inputs -----

  /**
   * The members of the request body the handler destructures; a missing member is `None`. A `null`
   * `settings` or `referenceImage` acts as a missing one; a `null` prompt is not modelled.
   */
  datatype GenerateRequest = GenerateRequest(prompt: Option<string>, settings: Option<Settings>, referenceImage: Option<string>)

  /**
   * What the one `fetch` to the image model gave: a rejection, or a reply with its status, its body
   * text, and that text parsed as JSON (`None` when it is not JSON).
   */
  datatype Upstream = FetchRejected | Reply(status: nat, text: string, parsed: Option<Json>)

  /** The statements inside the handler's `try` that can throw. */
  datatype ThrowSite =
    | RequestNotJson     // `req.json()` rejects
    | SettingsMissing    // `settings.detailLevel` with `settings` undefined or null
    | FetchFailed        // `fetch` rejects
    | ReplyNotJson       // `response.json()` on a 2xx body that is not JSON
    | ReplyDataNull      // `Object.keys(data)` with `data` null
    | CandidateNullish   // `candidate.finishReason` with the first candidate null
    | PartsNotIterable   // `for (const part of parts)` over a number, boolean or object
    | PartNullish        // `Object.keys(part)` with a null part
    | PartTextNotString  // `part.text.substring` with a truthy `text` that is not a string
    | PartsNotArray      // `parts.map` when `parts` is a string
    | LoggedPartNullish  // `part.inlineData` inside that `map`, for a null part after the image part

  /** The error the JavaScript runtime raises at a throw site: its message and its stack text. */
  datatype JsError = JsError(message: string, stack: string)

  // ----- responses -----

  /** A response: status, headers in order, and the JSON body (`None` for the empty preflight body). */
  datatype Response = Response(status: nat, headers: seq<(string, string)>, body: Option<Json>)

  const CorsHeaders: seq<(string, string)> := [
    ("Access-Control-Allow-Origin", "*"),
    ("Access-Control-Allow-Headers", "authorization, x-client-info, apikey, content-type")
  ]

  const JsonHeaders: seq<(string, string)> := CorsHeaders + [("Content-Type", "application/json")]

  const PlaceholderBase: string := "https://placehold.co/800x600/FF5555/FFFFFF?text="

  const MissingKeyError: string := "API key is not configured"

  const NoImageError: string := "Failed to generate image. Please try a different prompt or settings."

  /** A placeholder image whose caption is `text`, carried as one URL-encoded query value. */
  function PlaceholderUrl(text: string): (url: string)
    ensures PlaceholderBase <= url
    ensures forall i :: |PlaceholderBase| <= i < |url| ==> IsUriSafe(url[i])
  {
    var encoded := EncodeUriComponent(text);
    assert forall i :: |PlaceholderBase| <= i < |PlaceholderBase + encoded| ==>
      (PlaceholderBase + encoded)[i] == encoded[i - |PlaceholderBase|];
    PlaceholderBase + encoded
  }

  /** `!GEMINI_API_KEY`: a missing or empty key counts as not configured. */
  predicate KeyConfigured(apiKey: Option<string>)
  {
    StringTruthy(apiKey)
  }

  /** `response.ok`. */
  predicate IsOk(status: nat)
  {
    200 <= status <= 299
  }

  /** `${prompt}`: a missing prompt renders as `undefined`. */
  function RenderedPrompt(prompt: Option<string>): string
  {
    if prompt.Some? then prompt.value else "undefined"
  }

  /** Adds `originalPrompt` unless the prompt is `undefined`, which `JSON.stringify` drops. */
  function WithPrompt(members: map<string, Json>, prompt: Option<string>): map<string, Json>
  {
    if prompt.Some? then members["originalPrompt" := JStr(prompt.value)] else members
  }

  const PreflightResponse: Response := Response(200, CorsHeaders, None)

  const MissingKeyResponse: Response := Response(500, JsonHeaders, Some(JObj(map[
    "error" := JStr(MissingKeyError),
    "imageUrl" := JStr(PlaceholderUrl("API key not found"))])))

  /** The `catch` block: status 500, the message (or a stand-in for an empty one) and a placeholder. */
  function ThrownResponse(e: JsError): Response
  {
    Response(500, JsonHeaders, Some(JObj(map[
      "error" := JStr("Error: " + (if e.message != "" then e.message else "Unknown error occurred")),
      "imageUrl" := JStr(PlaceholderUrl(Prefix(e.message, 50))),
      "errorDetails" := JStr(e.stack)])))
  }

  /** The reply to a non-2xx upstream status: default status 200, with the status and details in the body. */
  function UpstreamErrorResponse(status: nat, details: Json): Response
  {
    Response(200, JsonHeaders, Some(JObj(map[
      "error" := JStr("Gemini API error " + NatToDecimal(status) + ": " + JsonText(details)),
      "imageUrl" := JStr(PlaceholderUrl("API Error: " + NatToDecimal(status))),
      "apiErrorDetails" := details])))
  }

  /** The reply when a 2xx response holds no image part. */
  function NoImageResponse(prompt: Option<string>, enhanced: string, status: nat, data: Json): Response
  {
    Response(200, JsonHeaders, Some(JObj(WithPrompt(map[
      "error" := JStr(NoImageError),
      "imageUrl" := JStr(PlaceholderUrl(NoImageError)),
      "enhancedPrompt" := JStr(enhanced),
      "responseStatus" := JNum(status),
      "responseData" := data], prompt))))
  }

  /** The reply carrying the generated image. */
  function SuccessResponse(imageUrl: string, prompt: Option<string>, enhanced: string, status: nat): Response
  {
    Response(200, JsonHeaders, Some(JObj(WithPrompt(map[
      "imageUrl" := JStr(imageUrl),
      "enhancedPrompt" := JStr(enhanced),
      "responseStatus" := JNum(status)], prompt))))
  }

  /** The body member `key` of a JSON response, if any. */
  function Member(r: Response, key: string): Option<Json>
  {
    if r.body.Some? && r.body.value.JObj? && key in r.body.value.members
    then Some(r.body.value.members[key]) else None
  }

  // ----- upstream error details -----

  /**
   * Lines 140-146: `errorJson.error?.message || errorJson.error || errorText.substring(0, 200)`,
   * with the first 200 characters also when the body is not JSON or is `null` (whose `.error` throws).
   */
  function ErrorDetails(text: string, parsed: Option<Json>): (details: Json)
    ensures details == JStr(Prefix(text, 200)) || Truthy(Defined(details))
  {
    var fallback := JStr(Prefix(text, 200));
    if parsed.None? || parsed.value == JNull then
      fallback
    else
      var err := Get(Defined(parsed.value), "error");
      var message := if IsNullish(err) then Undefined else Get(err, "message");
      if Truthy(message) then message.json
      else if Truthy(err) then err.json
      else fallback
  }

  /** An error envelope `{"error": {"message": m, …}, …}` with any truthy `m` yields that message. */
  lemma ErrorMessagePreferred(text: string, top: map<string, Json>, err: map<string, Json>)
    requires "error" in top && top["error"] == JObj(err)
    requires "message" in err && Truthy(Defined(err["message"]))
    ensures ErrorDetails(text, Some(JObj(top))) == err["message"]
  {
  }

  /** A truthy `error` member without a usable `message` is itself the detail. */
  lemma ErrorMemberNext(text: string, top: map<string, Json>)
    requires "error" in top && Truthy(Defined(top["error"]))
    requires top["error"].JObj? ==> "message" !in top["error"].members || !Truthy(Defined(top["error"].members["message"]))
    ensures ErrorDetails(text, Some(JObj(top))) == top["error"]
  {
  }

  /** A body that is not JSON, or JSON without a truthy `error`, yields its first 200 characters. */
  lemma ErrorTextFallback(text: string, parsed: Option<Json>)
    requires parsed.Some? && parsed.value.JObj? ==>
      "error" !in parsed.value.members || !Truthy(Defined(parsed.value.members["error"]))
    ensures ErrorDetails(text, parsed) == JStr(Prefix(text, 200))
    ensures |JsonText(ErrorDetails(text, parsed))| <= 200
  {
  }

  // ----- image extraction -----

  /** What lines 168-212 make of a 2xx body: an image URL, nothing, or a throw. */
  datatype Extraction = Found(imageUrl: string) | NotFound | Threw(site: ThrowSite)

  /** `data:${inlineData.mimeType};base64,${inlineData.data}`, with `undefined` members rendered as such. */
  function InlineDataUrl(inline: Value): string
    requires !IsNullish(inline)
  {
    "data:" + ToText(Get(inline, "mimeType")) + ";base64," + ToText(Get(inline, "data"))
  }

  /** A part the loop reads past: not null, no truthy non-string `text`, no truthy `inlineData`. */
  predicate PassesOver(part: Value)
  {
    !IsNullish(part) && !(Truthy(Get(part, "text")) && !IsString(Get(part, "text")))
    && !Truthy(Get(part, "inlineData"))
  }

  /** A part the loop stops at with an image: not null, no truthy non-string `text`, truthy `inlineData`. */
  predicate CarriesImage(part: Value)
  {
    !IsNullish(part) && !(Truthy(Get(part, "text")) && !IsString(Get(part, "text")))
    && Truthy(Get(part, "inlineData"))
  }

  /** The `for…of` loop over the parts, stopping at the first `inlineData` part or at a throw. */
  function ScanParts(parts: seq<Value>): Extraction
  {
    if parts == [] then NotFound
    else
      var part := parts[0];
      if IsNullish(part) then Threw(PartNullish)
      else if Truthy(Get(part, "text")) && !IsString(Get(part, "text")) then Threw(PartTextNotString)
      else if Truthy(Get(part, "inlineData")) then Found(InlineDataUrl(Get(part, "inlineData")))
      else ScanParts(parts[1..])
  }

  /** What `for…of` yields for an array (its elements) or a string (its characters). */
  function Iterated(parts: Json): seq<Value>
  {
    match parts
    case JArr(items) => seq(|items|, i requires 0 <= i < |items| => Defined(items[i]))
    case JStr(s) => seq(|s|, i requires 0 <= i < |s| => Defined(JStr([s[i]])))
    case _ => []
  }

  /** `candidates.length > 0` for a truthy `candidates`. */
  predicate LengthPositive(v: Value)
    requires Truthy(v)
  {
    match v.json
    case JArr(items) => |items| > 0
    case JStr(_) => true
    case JObj(m) => "length" in m && (m["length"] == JBool(true) || (m["length"].JNum? && m["length"].n > 0))
    case _ => false
  }

  /** `candidates[0]`. */
  function FirstCandidate(v: Value): Value
    requires Truthy(v) && LengthPositive(v)
  {
    match v.json
    case JArr(items) => Defined(items[0])
    case JStr(s) => Defined(JStr([s[0]]))
    case JObj(m) => if "0" in m then Defined(m["0"]) else Undefined
  }

  /**
   * Lines 165-212 read as one expression: the first candidate's first `inlineData` part gives the
   * image; a missing candidate, content or part list gives nothing; the loop and the logging
   * lines around it throw on null data, a null candidate or part, a truthy non-string `text`
   * before the image part, parts that cannot be iterated, string parts, and a null part anywhere.
   */
  function ImageFromReply(data: Json): Extraction
  {
    if data == JNull then Threw(ReplyDataNull)
    else
      var candidates := Get(Defined(data), "candidates");
      if !(Truthy(candidates) && LengthPositive(candidates)) then NotFound
      else
        var candidate := FirstCandidate(candidates);
        if IsNullish(candidate) then Threw(CandidateNullish)
        else
          var content := Get(candidate, "content");
          if !(Truthy(content) && Truthy(Get(content, "parts"))) then NotFound
          else
            var parts := Get(content, "parts").json;
            if !(parts.JArr? || parts.JStr?) then Threw(PartsNotIterable)
            else
              var found := ScanParts(Iterated(parts));
              if found.Threw? then found
              else if parts.JStr? then Threw(PartsNotArray)
              else if JNull in parts.items then Threw(LoggedPartNullish)
              else found
  }

  /** Lines 165-212: the candidate checks, the `for…of` loop with its `break`, and the logging copy. */
  method ExtractImage(data: Json) returns (x: Extraction)
    ensures x == ImageFromReply(data)
  {
    if data == JNull {
      return Threw(ReplyDataNull);
    }
    var candidates := Get(Defined(data), "candidates");
    if !(Truthy(candidates) && LengthPositive(candidates)) {
      return NotFound;
    }
    var candidate := FirstCandidate(candidates);
    if IsNullish(candidate) {
      return Threw(CandidateNullish);
    }
    var content := Get(candidate, "content");
    if !(Truthy(content) && Truthy(Get(content, "parts"))) {
      return NotFound;
    }
    var parts := Get(content, "parts").json;
    if !(parts.JArr? || parts.JStr?) {
      return Threw(PartsNotIterable);
    }
    var items := Iterated(parts);
    x := NotFound;
    var i := 0;
    while i < |items|
      invariant 0 <= i <= |items|
      invariant ScanParts(items[i..]) == ScanParts(items)
    {
      var part := items[i];
      assert items[i..][0] == part && items[i..][1..] == items[i + 1..];
      if IsNullish(part) {
        return Threw(PartNullish);
      }
      var text := Get(part, "text");
      if Truthy(text) && !IsString(text) {
        return Threw(PartTextNotString);
      }
      var inline := Get(part, "inlineData");
      if Truthy(inline) {
        x := Found(InlineDataUrl(inline));
        break;
      }
      i := i + 1;
    }
    if parts.JStr? {
      return Threw(PartsNotArray);
    }
    if JNull in parts.items {
      return Threw(LoggedPartNullish);
    }
  }

  /**
   * The loop returns the image of the first part carrying `inlineData`, provided every part
   * before it is one the loop reads past.
   */
  lemma {:induction false} FirstImagePartWins(parts: seq<Value>, k: nat)
    requires k < |parts| && CarriesImage(parts[k])
    requires forall j :: 0 <= j < k ==> PassesOver(parts[j])
    ensures ScanParts(parts) == Found(InlineDataUrl(Get(parts[k], "inlineData")))
  {
    if k > 0 {
      FirstImagePartWins(parts[1..], k - 1);
    }
  }

  /** Parts the loop reads past yield no image. */
  lemma {:induction false} NoImagePart(parts: seq<Value>)
    requires forall j :: 0 <= j < |parts| ==> PassesOver(parts[j])
    ensures ScanParts(parts) == NotFound
  {
    if parts != [] {
      NoImagePart(parts[1..]);
    }
  }

  /** Once the loop has stopped, whatever follows is never looked at. */
  lemma {:induction false} LaterPartsIgnored(parts: seq<Value>, more: seq<Value>)
    requires !ScanParts(parts).NotFound?
    ensures ScanParts(parts + more) == ScanParts(parts)
  {
    assert parts != [];
    assert (parts + more)[0] == parts[0];
    if ScanParts(parts) == ScanParts(parts[1..]) && PassesOver(parts[0]) {
      assert (parts + more)[1..] == parts[1..] + more;
      LaterPartsIgnored(parts[1..], more);
    }
  }

  /** Every character of a string of parts is read past, so string parts reach the `map` and throw there. */
  lemma StringPartsThrow(s: string)
    ensures ScanParts(Iterated(JStr(s))) == NotFound
  {
    var parts := Iterated(JStr(s));
    forall j | 0 <= j < |parts| ensures PassesOver(parts[j]) {
    }
    NoImagePart(parts);
  }

  /** The members of a well-formed reply: `candidates`, whose first entry has `content.parts`. */
  function Envelope(parts: seq<Json>, others: seq<Json>): Json
  {
    JObj(map["candidates" := JArr([JObj(map["content" := JObj(map["parts" := JArr(parts)])])] + others)])
  }

  /**
   * For a well-formed reply without null parts, the outcome is the loop's over the first
   * candidate's parts; later candidates play no part.
   */
  lemma WellFormedReply(parts: seq<Json>, others: seq<Json>)
    requires JNull !in parts
    ensures ImageFromReply(Envelope(parts, others)) == ScanParts(Iterated(JArr(parts)))
  {
  }

  /**
   * The one way parts after the image still matter: the logging `map` reads `inlineData` of every
   * part, so a null part after the image part throws there.
   */
  lemma NullPartAfterImageThrows(mime: string, data: string)
    ensures ImageFromReply(Envelope([
      JObj(map["inlineData" := JObj(map["mimeType" := JStr(mime), "data" := JStr(data)])]), JNull], []))
      == Threw(LoggedPartNullish)
  {
  }

  /** A reply with no `candidates`, or an empty list of them, yields no image. */
  lemma NoCandidatesNoImage(m: map<string, Json>)
    requires "candidates" !in m || m["candidates"] == JArr([])
    ensures ImageFromReply(JObj(m)) == NotFound
  {
  }

  /** A part holding only a string `text` is read past. */
  lemma TextPartPassed(text: string)
    ensures PassesOver(Defined(JObj(map["text" := JStr(text)])))
  {
  }

  /** A part whose `inlineData` holds a MIME type and a payload gives their data URL. */
  lemma InlinePartImage(mime: string, data: string)
    ensures var part := Defined(JObj(map["inlineData" := JObj(map["mimeType" := JStr(mime), "data" := JStr(data)])]));
      CarriesImage(part) && InlineDataUrl(Get(part, "inlineData")) == "data:" + mime + ";base64," + data
  {
  }

  /**
   * One candidate whose first part is text and whose second part carries an image (say
   * `image/png` with payload `QUJD`): the image URL is exactly its data URL.
   */
  lemma SecondPartImage(text: string, mime: string, data: string)
    ensures ImageFromReply(Envelope([
      JObj(map["text" := JStr(text)]),
      JObj(map["inlineData" := JObj(map["mimeType" := JStr(mime), "data" := JStr(data)])])], []))
      == Found("data:" + mime + ";base64," + data)
  {
    var parts := [
      JObj(map["text" := JStr(text)]),
      JObj(map["inlineData" := JObj(map["mimeType" := JStr(mime), "data" := JStr(data)])])];
    WellFormedReply(parts, []);
    TextPartPassed(text);
    InlinePartImage(mime, data);
    FirstImagePartWins(Iterated(JArr(parts)), 1);
  }

  // ----- the handler -----

  /** The request body the handler sends for a given enhanced prompt and reference image. */
  predicate IsRequestFor(body: RequestBody, enhanced: string, referenceImage: Option<string>)
  {
    && body.generationConfig == FixedGenerationConfig
    && |body.contents| == 1
    && 1 <= |body.contents[0].parts| <= 2
    && body.contents[0].parts[0] == TextPart(enhanced)
    && (|body.contents[0].parts| == 2 <==> StringTruthy(referenceImage))
    && (|body.contents[0].parts| == 2 ==> body.contents[0].parts[1] == ReferencePart(referenceImage.value))
  }

  /** Whether a request reaches the upstream call: not a preflight, a key, a JSON body with settings. */
  predicate CallsUpstream(httpMethod: string, apiKey: Option<string>, request: Option<GenerateRequest>)
  {
    httpMethod != "OPTIONS" && KeyConfigured(apiKey) && request.Some? && request.value.settings.Some?
  }

  /**
   * What the client can rely on in every answer but the preflight: a string `imageUrl` to show,
   * and an `error` exactly when that image is not a generated one.
   */
  predicate Renderable(response: Response, generated: bool)
  {
    && Member(response, "imageUrl").Some? && Member(response, "imageUrl").value.JStr?
    && (Member(response, "error").Some? <==> !generated)
  }

  lemma MissingKeyRenderable()
    ensures Renderable(MissingKeyResponse, false)
  {
  }

  lemma ThrownRenderable(e: JsError)
    ensures Renderable(ThrownResponse(e), false)
  {
  }

  lemma UpstreamErrorRenderable(status: nat, details: Json)
    ensures Renderable(UpstreamErrorResponse(status, details), false)
  {
  }

  lemma NoImageRenderable(prompt: Option<string>, enhanced: string, status: nat, data: Json)
    ensures Renderable(NoImageResponse(prompt, enhanced, status, data), false)
  {
    var m := map["error" := JStr(NoImageError), "imageUrl" := JStr(PlaceholderUrl(NoImageError)),
      "enhancedPrompt" := JStr(enhanced), "responseStatus" := JNum(status), "responseData" := data];
    assert "imageUrl" in WithPrompt(m, prompt) && "error" in WithPrompt(m, prompt);
  }

  lemma SuccessRenderable(url: string, prompt: Option<string>, enhanced: string, status: nat)
    ensures Renderable(SuccessResponse(url, prompt, enhanced, status), true)
  {
    var m := map["imageUrl" := JStr(url), "enhancedPrompt" := JStr(enhanced), "responseStatus" := JNum(status)];
    assert "error" !in m;
    assert "imageUrl" in WithPrompt(m, prompt) && "error" !in WithPrompt(m, prompt);
  }

  /** Whether an upstream outcome yields a generated image. */
  predicate Generates(upstream: Upstream)
  {
    upstream.Reply? && IsOk(upstream.status) && upstream.parsed.Some? && ImageFromReply(upstream.parsed.value).Found?
  }

  /**
   * Lines 124-254: the answer to the upstream outcome, for the prompt as received and the
   * enhanced prompt that was sent.
   */
  method Respond(prompt: Option<string>, enhanced: string, upstream: Upstream, raised: ThrowSite -> JsError)
    returns (response: Response)
    ensures upstream.FetchRejected? ==> response == ThrownResponse(raised(FetchFailed))
    ensures upstream.Reply? && !IsOk(upstream.status) ==>
      response == UpstreamErrorResponse(upstream.status, ErrorDetails(upstream.text, upstream.parsed))
    ensures upstream.Reply? && IsOk(upstream.status) && upstream.parsed.None? ==>
      response == ThrownResponse(raised(ReplyNotJson))
    ensures upstream.Reply? && IsOk(upstream.status) && upstream.parsed.Some? ==>
      match ImageFromReply(upstream.parsed.value)
      case Found(url) => response == SuccessResponse(url, prompt, enhanced, upstream.status)
      case NotFound => response == NoImageResponse(prompt, enhanced, upstream.status, upstream.parsed.value)
      case Threw(site) => response == ThrownResponse(raised(site))
    ensures Renderable(response, Generates(upstream))
  {
    match upstream {
      case FetchRejected =>
        response := ThrownResponse(raised(FetchFailed));
        ThrownRenderable(raised(FetchFailed));
      case Reply(status, text, parsed) =>
        if !IsOk(status) {
          response := UpstreamErrorResponse(status, ErrorDetails(text, parsed));
          UpstreamErrorRenderable(status, ErrorDetails(text, parsed));
        } else if parsed.None? {
          response := ThrownResponse(raised(ReplyNotJson));
          ThrownRenderable(raised(ReplyNotJson));
        } else {
          var extraction := ExtractImage(parsed.value);
          match extraction {
            case Threw(site) =>
              response := ThrownResponse(raised(site));
              ThrownRenderable(raised(site));
            case NotFound =>
              response := NoImageResponse(prompt, enhanced, status, parsed.value);
              NoImageRenderable(prompt, enhanced, status, parsed.value);
            case Found(url) =>
              response := SuccessResponse(url, prompt, enhanced, status);
              SuccessRenderable(url, prompt, enhanced, status);
          }
        }
    }
  }

  /**
   * The whole handler. `call` is the body of the one upstream call, if it was made; `raised`
   * gives the error the runtime raises at each throw site.
   */
  method Serve(httpMethod: string, apiKey: Option<string>, request: Option<GenerateRequest>,
               upstream: Upstream, raised: ThrowSite -> JsError)
    returns (call: Option<RequestBody>, response: Response)
    // preflight and configuration
    ensures httpMethod == "OPTIONS" ==> call == None && response == PreflightResponse
    ensures httpMethod != "OPTIONS" && !KeyConfigured(apiKey) ==> call == None && response == MissingKeyResponse
    // the request sent upstream
    ensures call.Some? <==> CallsUpstream(httpMethod, apiKey, request)
    ensures call.Some? ==>
      IsRequestFor(call.value, EnhancedPrompt(RenderedPrompt(request.value.prompt), request.value.settings.value),
                   request.value.referenceImage)
    // exceptions before the call
    ensures httpMethod != "OPTIONS" && KeyConfigured(apiKey) && request.None? ==>
      response == ThrownResponse(raised(RequestNotJson))
    ensures httpMethod != "OPTIONS" && KeyConfigured(apiKey) && request.Some? && request.value.settings.None? ==>
      response == ThrownResponse(raised(SettingsMissing))
    // the upstream outcome
    ensures call.Some? && upstream.FetchRejected? ==> response == ThrownResponse(raised(FetchFailed))
    ensures call.Some? && upstream.Reply? && !IsOk(upstream.status) ==>
      response == UpstreamErrorResponse(upstream.status, ErrorDetails(upstream.text, upstream.parsed))
    ensures call.Some? && upstream.Reply? && IsOk(upstream.status) && upstream.parsed.None? ==>
      response == ThrownResponse(raised(ReplyNotJson))
    ensures call.Some? && upstream.Reply? && IsOk(upstream.status) && upstream.parsed.Some? ==>
      var enhanced := EnhancedPrompt(RenderedPrompt(request.value.prompt), request.value.settings.value);
      match ImageFromReply(upstream.parsed.value)
      case Found(url) => response == SuccessResponse(url, request.value.prompt, enhanced, upstream.status)
      case NotFound =>
        response == NoImageResponse(request.value.prompt, enhanced, upstream.status, upstream.parsed.value)
      case Threw(site) => response == ThrownResponse(raised(site))
    // every answer but the preflight shows an image, generated exactly when there is no error
    ensures httpMethod != "OPTIONS" ==> Renderable(response, call.Some? && Generates(upstream))
  {
    call := None;
    if httpMethod == "OPTIONS" {
      return call, PreflightResponse;
    }
    if !KeyConfigured(apiKey) {
      MissingKeyRenderable();
      return call, MissingKeyResponse;
    }
    if request.None? {
      ThrownRenderable(raised(RequestNotJson));
      return call, ThrownResponse(raised(RequestNotJson));
    }
    var req := request.value;
    if req.settings.None? {
      ThrownRenderable(raised(SettingsMissing));
      return call, ThrownResponse(raised(SettingsMissing));
    }
    var enhanced := ComposeEnhancedPrompt(RenderedPrompt(req.prompt), req.settings.value);
    var body := BuildRequestBody(enhanced, req.referenceImage);
    call := Some(body);
    response := Respond(req.prompt, enhanced, upstream, raised);
  }
}
