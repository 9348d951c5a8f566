/** The `/api/generate-avatar` route: `POST` validates the JSON body, asks the free
    provider chooser for a provider, generates and shapes the JSON response; `OPTIONS`
    answers the CORS preflight. */
module AvatarRoute {
  import opened Basics
  import opened FreeProviders

  /** The string-valued fields of the parsed JSON body; an absent field is `None`. */
  datatype RequestBody = RequestBody(userImage: Option<string>, style: Option<string>, prompt: Option<string>)

  /** A thrown value: an `Error` with its message, or anything else. */
  datatype Thrown = ErrorValue(message: string) | OtherValue

  datatype ResponseBody =
    | ErrorBody(error: string)
    | FailureBody(error: string, details: string)
    | SuccessBody(success: bool, generatedImage: string, prompt: string, provider: string)
    | NoBody

  /** Status, JSON body and the headers set explicitly. */
  datatype RouteResponse = RouteResponse(status: int, body: ResponseBody, headers: map<string, string>)

  const DefaultPromptHead: string := "Transform this into an ancient Egyptian Anubis-themed avatar with "
  const DefaultPromptTail: string := " aesthetic. Include pharaoh headdress, Egyptian jewelry, and mystical elements."

  /** The prompt used when the body has none: the style embedded in a fixed sentence. */
  function DefaultPrompt(style: string): (p: string)
    ensures |p| == |DefaultPromptHead| + |style| + |DefaultPromptTail|
    ensures p[..|DefaultPromptHead|] == DefaultPromptHead
    ensures p[|DefaultPromptHead|..|DefaultPromptHead| + |style|] == style
    ensures p[|DefaultPromptHead| + |style|..] == DefaultPromptTail
  {
    var p := DefaultPromptHead + style + DefaultPromptTail;
    assert p[..|DefaultPromptHead|] == DefaultPromptHead;
    assert p[|DefaultPromptHead|..|DefaultPromptHead| + |style|] == style;
    p
  }

  /** Distinct styles give distinct default prompts. */
  lemma DefaultPromptInjective(s1: string, s2: string)
    requires DefaultPrompt(s1) == DefaultPrompt(s2)
    ensures s1 == s2
  {
    var p := DefaultPrompt(s1);
    assert p[|DefaultPromptHead|..|DefaultPromptHead| + |s1|] == s1;
    assert p[|DefaultPromptHead|..|DefaultPromptHead| + |s2|] == s2;
  }

  /** The options `POST` passes: the body's prompt when truthy, else the default prompt;
      the body's photo and style; width and height 1024. */
  function RouteOptions(body: RequestBody): (o: GenerationOptions)
    requires Truthy(body.userImage) && Truthy(body.style)
    ensures Truthy(body.prompt) ==> o.prompt == body.prompt.value
    ensures !Truthy(body.prompt) ==> o.prompt == DefaultPrompt(body.style.value)
    ensures o.userImage == body.userImage && o.style == body.style.value
    ensures o.width == Some(1024) && o.height == Some(1024)
  {
    GenerationOptions(if Truthy(body.prompt) then body.prompt.value else DefaultPrompt(body.style.value),
      body.userImage, body.style.value, Some(1024), Some(1024))
  }

  /** `error instanceof Error ? error.message : 'Unknown error'`
      (src/app/api/generate-avatar/route.ts:49). */
  function Details(t: Thrown): string {
    match t
    case ErrorValue(m) => m
    case OtherValue => "Unknown error"
  }

  /** The 500 response of the `catch`. */
  function Failed(t: Thrown): RouteResponse {
    RouteResponse(500, FailureBody("Failed to generate avatar", Details(t)), map[])
  }

  /** What `provider.generateImage` settles to for the chosen free provider. */
  type FreeAttempt = (FreeProvider, GenerationOptions) -> Result<GenerationResult, Thrown>

  /** `POST`: a body that cannot be parsed fails with 500; a falsy `userImage` is
      rejected before a falsy `style` is; a valid body is generated by the provider the
      probe chooses, and its result fields are copied into the success body. */
  function Post(request: Result<RequestBody, Thrown>, probe: HttpOutcome, generate: FreeAttempt): (r: RouteResponse)
    ensures request.Err? ==> r == Failed(request.error)
    ensures request.Ok? && !Truthy(request.value.userImage) ==>
      r == RouteResponse(400, ErrorBody("User image is required"), map[])
    ensures request.Ok? && Truthy(request.value.userImage) && !Truthy(request.value.style) ==>
      r == RouteResponse(400, ErrorBody("Style selection is required"), map[])
    ensures request.Ok? && Truthy(request.value.userImage) && Truthy(request.value.style) ==>
      var outcome := generate(BestFreeProvider(probe), RouteOptions(request.value));
      && (outcome.Ok? ==> r == RouteResponse(200, SuccessBody(true, outcome.value.imageUrl, outcome.value.prompt, outcome.value.provider), map[]))
      && (outcome.Err? ==> r == Failed(outcome.error))
    ensures r.status == 200 <==> r.body.SuccessBody?
  {
    match request
    case Err(t) => Failed(t)
    case Ok(body) =>
      if !Truthy(body.userImage) then RouteResponse(400, ErrorBody("User image is required"), map[])
      else if !Truthy(body.style) then RouteResponse(400, ErrorBody("Style selection is required"), map[])
      else
        match generate(BestFreeProvider(probe), RouteOptions(body))
        case Ok(result) => RouteResponse(200, SuccessBody(true, result.imageUrl, result.prompt, result.provider), map[])
        case Err(t) => Failed(t)
  }

  /** The route never hands a valid request to the client-side provider, and only the
      answer of the one provider chosen decides the response: no other provider is
      tried after it fails. */
  lemma {:induction false} PostUsesChosenProvider(body: RequestBody, probe: HttpOutcome, g1: FreeAttempt, g2: FreeAttempt)
    requires Truthy(body.userImage) && Truthy(body.style)
    requires g1(BestFreeProvider(probe), RouteOptions(body)) == g2(BestFreeProvider(probe), RouteOptions(body))
    ensures !BestFreeProvider(probe).ClientSide?
    ensures Post(Ok(body), probe, g1) == Post(Ok(body), probe, g2)
  {
  }

  /** `OPTIONS`: 200, no body, CORS headers allowing any origin, `POST` and `OPTIONS`,
      and the `Content-Type` header. */
  function Options(): (r: RouteResponse)
    ensures r.status == 200 && r.body.NoBody?
    ensures r.headers.Keys == {"Access-Control-Allow-Origin", "Access-Control-Allow-Methods", "Access-Control-Allow-Headers"}
    ensures r.headers["Access-Control-Allow-Origin"] == "*"
    ensures r.headers["Access-Control-Allow-Methods"] == "POST, OPTIONS"
    ensures r.headers["Access-Control-Allow-Headers"] == "Content-Type"
  {
    RouteResponse(200, NoBody, map[
      "Access-Control-Allow-Origin" := "*",
      "Access-Control-Allow-Methods" := "POST, OPTIONS",
      "Access-Control-Allow-Headers" := "Content-Type"])
  }
}
