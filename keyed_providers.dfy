/** The providers that need an API key (OpenAI, Stability AI, Replicate) and the factory
    that chooses among them by which environment variables are set. Each HTTP exchange
    is a function parameter from the request sent to the reply received. */
module KeyedProviders {
  import opened Basics
  import opened StyleCatalog
  import opened Prompts

  /** `OPENAI_API_KEY`, `STABILITY_API_KEY` and `REPLICATE_API_TOKEN`. */
  datatype Env = Env(openaiKey: Option<string>, stabilityKey: Option<string>, replicateToken: Option<string>)

  /** A JSON API call: the parsed body of an ok response, the error text of a response
      that is not ok (absent when the field is missing), or an error thrown on the way. */
  datatype ApiReply<T> = Accepted(value: T) | Refused(errorText: Option<string>) | Thrown(message: string)

  /** `field || 'Unknown error'`. */
  function ErrorText(field: Option<string>): (t: string)
    ensures t != ""
    ensures Truthy(field) ==> t == field.value
  {
    if Truthy(field) then field.value else "Unknown error"
  }

  /** How a reply that is not accepted becomes the thrown message. */
  function Failure<T>(prefix: string, reply: ApiReply<T>): string
    requires !reply.Accepted?
  {
    match reply
    case Refused(e) => prefix + ErrorText(e)
    case Thrown(m) => m
  }

  // ---------------------------------------------------------------- OpenAI

  /** The JSON request of `OpenAIProvider.generateImage`. */
  datatype OpenAIRequest = OpenAIRequest(authorization: string, model: string, prompt: string, n: int,
                                         size: string, quality: string, style: string)

  function OpenAIRequestFor(apiKey: string, options: GenerationOptions): OpenAIRequest {
    OpenAIRequest("Bearer " + apiKey, "dall-e-3", Enhance(OpenAITemplate, options.prompt, options.style),
      1, "1024x1024", "hd", "vivid")
  }

  /** `OpenAIProvider.generateImage`: the enhanced prompt is sent, the URL of the first
      image comes back with the caller's own prompt. */
  function OpenAIGenerate(apiKey: string, options: GenerationOptions, api: OpenAIRequest -> ApiReply<string>)
    : (r: Result<GenerationResult, string>)
    ensures var reply := api(OpenAIRequestFor(apiKey, options));
      && (r.Ok? <==> reply.Accepted?)
      && (r.Ok? ==> r.value == GenerationResult(reply.value, options.prompt, "openai"))
      && (r.Err? ==> r.error == Failure("OpenAI API error: ", reply))
  {
    match api(OpenAIRequestFor(apiKey, options))
    case Accepted(url) => Ok(GenerationResult(url, options.prompt, "openai"))
    case Refused(e) => Err("OpenAI API error: " + ErrorText(e))
    case Thrown(m) => Err(m)
  }

  // ---------------------------------------------------------------- Stability AI

  /** A `FormData` value: a string, or the blob fetched from the data URL of the photo. */
  datatype FormValue = Text(text: string) | ImageBlob(source: string)

  datatype StabilityRequest = StabilityRequest(endpoint: string, authorization: string, fields: seq<(string, FormValue)>)

  const StabilityBase: string := "https://api.stability.ai/v1/generation/stable-diffusion-xl-1024-v1-0"
  const TextToImage: string := StabilityBase + "/text-to-image"
  const ImageToImage: string := StabilityBase + "/image-to-image"

  /** The fields every request carries. */
  function StabilityBaseFields(prompt: string): seq<(string, FormValue)> {
    [("text_prompts[0][text]", Text(prompt)), ("text_prompts[0][weight]", Text("1")), ("cfg_scale", Text("7")),
     ("height", Text("1024")), ("width", Text("1024")), ("samples", Text("1")), ("steps", Text("30"))]
  }

  /** The fields appended for image-to-image generation. */
  function StabilityInitFields(userImage: string): seq<(string, FormValue)> {
    [("init_image", ImageBlob(userImage)), ("init_image_mode", Text("IMAGE_STRENGTH")), ("image_strength", Text("0.35"))]
  }

  /** Whether a form carries a field of the given name. */
  predicate Carries(fields: seq<(string, FormValue)>, name: string) {
    exists i :: 0 <= i < |fields| && fields[i].0 == name
  }

  /** The request of `StabilityAIProvider.generateImage`: a truthy `userImage` selects the
      image-to-image endpoint and appends the init fields. */
  function StabilityRequestFor(apiKey: string, options: GenerationOptions): StabilityRequest {
    var base := StabilityBaseFields(Enhance(StabilityTemplate, options.prompt, options.style));
    if Truthy(options.userImage) then
      StabilityRequest(ImageToImage, "Bearer " + apiKey, base + StabilityInitFields(options.userImage.value))
    else
      StabilityRequest(TextToImage, "Bearer " + apiKey, base)
  }

  /** The photo is sent exactly when the image-to-image endpoint is used, and that is
      exactly when `userImage` is truthy; the other fields are the same either way. */
  lemma StabilityInitIffImageToImage(apiKey: string, options: GenerationOptions)
    ensures var req := StabilityRequestFor(apiKey, options);
      && (Carries(req.fields, "init_image") <==> req.endpoint == ImageToImage)
      && (req.endpoint == ImageToImage <==> Truthy(options.userImage))
      && (req.endpoint == ImageToImage || req.endpoint == TextToImage)
      && req.fields[..7] == StabilityBaseFields(Enhance(StabilityTemplate, options.prompt, options.style))
  {
    var req := StabilityRequestFor(apiKey, options);
    var base := StabilityBaseFields(Enhance(StabilityTemplate, options.prompt, options.style));
    assert |TextToImage| != |ImageToImage|;
    assert !Carries(base, "init_image") by {
      forall i | 0 <= i < |base|
        ensures base[i].0 != "init_image"
      {
        assert |base[i].0| != |"init_image"|;
      }
    }
    if Truthy(options.userImage) {
      assert req.fields[7].0 == "init_image";
    } else {
      assert req.fields == base;
    }
  }

  /** `StabilityAIProvider.generateImage`: the base64 artifact comes back as a PNG data
      URL with the caller's own prompt. */
  function StabilityGenerate(apiKey: string, options: GenerationOptions, api: StabilityRequest -> ApiReply<string>)
    : (r: Result<GenerationResult, string>)
    ensures var reply := api(StabilityRequestFor(apiKey, options));
      && (r.Ok? <==> reply.Accepted?)
      && (r.Ok? ==> r.value == GenerationResult("data:image/png;base64," + reply.value, options.prompt, "stability"))
      && (r.Err? ==> r.error == Failure("Stability AI error: ", reply))
  {
    match api(StabilityRequestFor(apiKey, options))
    case Accepted(base64) => Ok(GenerationResult("data:image/png;base64," + base64, options.prompt, "stability"))
    case Refused(e) => Err("Stability AI error: " + ErrorText(e))
    case Thrown(m) => Err(m)
  }

  // ---------------------------------------------------------------- Replicate

  /** The `input` object of the prediction request; `image` and `promptStrength` are
      spread in only for a truthy `userImage`. */
  datatype ReplicateInput = ReplicateInput(prompt: string, width: int, height: int, steps: int, guidanceScale: real,
                                           image: Option<string>, promptStrength: Option<real>)

  datatype ReplicateRequest = ReplicateRequest(authorization: string, version: string, input: ReplicateInput)

  const ReplicateVersion: string := "stability-ai/sdxl:39ed52f2a78e934b3ba6e2a89f5b1c712de7dfea535525255b1aa35c5565e08b"

  function ReplicateRequestFor(apiToken: string, options: GenerationOptions): (req: ReplicateRequest)
    ensures req.input.image.Some? <==> Truthy(options.userImage)
    ensures req.input.promptStrength.Some? <==> Truthy(options.userImage)
    ensures Truthy(options.userImage) ==> req.input.image.value == options.userImage.value && req.input.promptStrength.value == 0.8
  {
    var withImage := Truthy(options.userImage);
    ReplicateRequest("Token " + apiToken, ReplicateVersion,
      ReplicateInput(Enhance(ReplicateTemplate, options.prompt, options.style), 1024, 1024, 30, 7.5,
        if withImage then Some(options.userImage.value) else None,
        if withImage then Some(0.8) else None))
  }

  /** A prediction as the API reports it: `firstOutput` is `output[0]`, returned as it
      is; `errorText` is `error` as it renders in the failure message. */
  datatype Prediction = Prediction(id: string, status: string, firstOutput: string, errorText: string)

  /** The poll loop's exit condition. */
  predicate Settled(p: Prediction) {
    p.status == "succeeded" || p.status == "failed"
  }

  /** The answer to one status request. */
  datatype PollReply = Polled(prediction: Prediction) | PollThrown(message: string)

  /** How polling ends: on a settled prediction, on a status request that throws, or not
      within the replies given (the source keeps polling without a bound). */
  datatype PollOutcome = Finished(prediction: Prediction) | PollError(message: string) | StillPolling

  /** Polling from `current` through the successive status replies. */
  function Settle(current: Prediction, replies: seq<PollReply>): (o: PollOutcome)
    ensures o.Finished? ==> Settled(o.prediction)
    decreases |replies|
  {
    if Settled(current) then Finished(current)
    else if |replies| == 0 then StillPolling
    else match replies[0]
      case PollThrown(m) => PollError(m)
      case Polled(next) => Settle(next, replies[1..])
  }

  /** Polling goes on exactly as long as no prediction is settled and no request throws. */
  lemma {:induction false} StillPollingIffNothingSettles(current: Prediction, replies: seq<PollReply>)
    ensures Settle(current, replies) == StillPolling <==>
      !Settled(current) && forall i :: 0 <= i < |replies| ==> replies[i].Polled? && !Settled(replies[i].prediction)
    decreases |replies|
  {
    if !Settled(current) && |replies| > 0 && replies[0].Polled? {
      StillPollingIffNothingSettles(replies[0].prediction, replies[1..]);
      assert forall i :: 1 <= i < |replies| ==> replies[i] == replies[1..][i - 1];
    }
  }

  /** Polling ends at the first reply that settles or throws, with that reply. */
  lemma {:induction false} SettlesOnFirstSettled(current: Prediction, replies: seq<PollReply>, k: nat)
    requires !Settled(current) && k < |replies|
    requires forall j :: 0 <= j < k ==> replies[j].Polled? && !Settled(replies[j].prediction)
    requires replies[k].PollThrown? || Settled(replies[k].prediction)
    ensures replies[k].PollThrown? ==> Settle(current, replies) == PollError(replies[k].message)
    ensures replies[k].Polled? ==> Settle(current, replies) == Finished(replies[k].prediction)
    decreases k
  {
    if k > 0 {
      var rest := replies[1..];
      assert forall j :: 0 <= j < k - 1 ==> rest[j] == replies[j + 1];
      SettlesOnFirstSettled(replies[0].prediction, rest, k - 1);
    }
  }

  /** The `while` loop of `ReplicateProvider.generateImage`: poll until the prediction
      is settled. `polls` is the number of status requests made. */
  method PollPrediction(first: Prediction, replies: seq<PollReply>) returns (outcome: PollOutcome, polls: nat)
    ensures outcome == Settle(first, replies)
    ensures polls <= |replies|
    ensures Settled(first) ==> polls == 0
  {
    var result := first;
    polls := 0;
    while !Settled(result) && polls < |replies|
      invariant polls <= |replies|
      invariant Settle(result, replies[polls..]) == Settle(first, replies)
      invariant Settled(first) ==> polls == 0
    {
      match replies[polls]
      case PollThrown(m) =>
        return PollError(m), polls + 1;
      case Polled(next) =>
        assert replies[polls..][1..] == replies[polls + 1..];
        result := next;
        polls := polls + 1;
    }
    outcome := if Settled(result) then Finished(result) else StillPolling;
  }

  /** `ReplicateProvider.generateImage`: create the prediction, poll it, then throw on
      `failed` and return the first output with the caller's own prompt on `succeeded`.
      `None` when polling has not ended within the replies given. */
  method ReplicateGenerate(apiToken: string, options: GenerationOptions,
                           create: ReplicateRequest -> ApiReply<Prediction>, replies: seq<PollReply>)
    returns (r: Option<Result<GenerationResult, string>>)
    ensures var reply := create(ReplicateRequestFor(apiToken, options));
      && (!reply.Accepted? ==> r == Some(Err(Failure("Replicate API error: ", reply))))
      && (reply.Accepted? ==>
            match Settle(reply.value, replies)
            case StillPolling => r.None?
            case PollError(m) => r == Some(Err(m))
            case Finished(p) =>
              if p.status == "failed" then r == Some(Err("Replicate generation failed: " + p.errorText))
              else r == Some(Ok(GenerationResult(p.firstOutput, options.prompt, "replicate"))))
  {
    var reply := create(ReplicateRequestFor(apiToken, options));
    match reply {
      case Refused(e) => return Some(Err("Replicate API error: " + ErrorText(e)));
      case Thrown(m) => return Some(Err(m));
      case Accepted(prediction) =>
    }
    var outcome, _ := PollPrediction(reply.value, replies);
    match outcome
    case StillPolling => r := None;
    case PollError(m) => r := Some(Err(m));
    case Finished(p) =>
      if p.status == "failed" {
        r := Some(Err("Replicate generation failed: " + p.errorText));
      } else {
        r := Some(Ok(GenerationResult(p.firstOutput, options.prompt, "replicate")));
      }
  }

  // ---------------------------------------------------------------- Factory

  datatype KeyedProvider = OpenAI(apiKey: string) | Stability(apiKey: string) | Replicate(apiKey: string)

  function ProviderName(p: KeyedProvider): string {
    match p
    case OpenAI(_) => "openai"
    case Stability(_) => "stability"
    case Replicate(_) => "replicate"
  }

  /** The three names in priority order. */
  const KeyedProviderNames: seq<string> := ["openai", "stability", "replicate"]

  /** `AIProviderFactory.createProvider`: the named provider holding the key, the name
      compared after lower-casing; any other name throws. */
  function CreateProvider(name: string, apiKey: string): (r: Result<KeyedProvider, string>)
    ensures r.Ok? <==> ToLower(name) in KeyedProviderNames
    ensures r.Ok? ==> ProviderName(r.value) == ToLower(name) && r.value.apiKey == apiKey
    ensures r.Err? ==> r.error == "Unknown AI provider: " + name
  {
    var n := ToLower(name);
    if n == "openai" then Ok(OpenAI(apiKey))
    else if n == "stability" then Ok(Stability(apiKey))
    else if n == "replicate" then Ok(Replicate(apiKey))
    else Err("Unknown AI provider: " + name)
  }

  /** The factory ignores the case of the name: a lower-cased name creates the same
      provider, and is refused exactly when the name is. */
  lemma CreateProviderIgnoresCase(name: string, apiKey: string)
    ensures CreateProvider(ToLower(name), apiKey).Ok? <==> CreateProvider(name, apiKey).Ok?
    ensures CreateProvider(name, apiKey).Ok? ==>
      CreateProvider(ToLower(name), apiKey).value == CreateProvider(name, apiKey).value
  {
    ToLowerIdempotent(name);
  }

  /** Whether the environment variable of the named provider is set (truthy). */
  predicate Configured(env: Env, name: string) {
    || (name == "openai" && Truthy(env.openaiKey))
    || (name == "stability" && Truthy(env.stabilityKey))
    || (name == "replicate" && Truthy(env.replicateToken))
  }

  /** The providers whose variable is set, in priority order. */
  function AvailableProviders(env: Env): (names: seq<string>)
    ensures |names| <= 3
    ensures forall i :: 0 <= i < |names| ==> names[i] in KeyedProviderNames
  {
    (if Truthy(env.openaiKey) then ["openai"] else [])
    + (if Truthy(env.stabilityKey) then ["stability"] else [])
    + (if Truthy(env.replicateToken) then ["replicate"] else [])
  }

  /** `AIProviderFactory.getAvailableProviders`: one `push` per variable that is set. */
  method GetAvailableProviders(env: Env) returns (providers: seq<string>)
    ensures providers == AvailableProviders(env)
  {
    providers := [];
    if Truthy(env.openaiKey) {
      providers := providers + ["openai"];
    }
    if Truthy(env.stabilityKey) {
      providers := providers + ["stability"];
    }
    if Truthy(env.replicateToken) {
      providers := providers + ["replicate"];
    }
  }

  /** The position of a name in the priority order. */
  function Rank(name: string): nat {
    if name == "openai" then 0 else if name == "stability" then 1 else if name == "replicate" then 2 else 3
  }

  /** A name is listed exactly when its variable is set; the list follows the priority
      order, so it has no duplicates. */
  lemma AvailableProvidersExact(env: Env)
    ensures forall name :: name in AvailableProviders(env) <==> Configured(env, name)
    ensures forall i, j :: 0 <= i < j < |AvailableProviders(env)| ==>
      Rank(AvailableProviders(env)[i]) < Rank(AvailableProviders(env)[j])
    ensures forall i, j :: 0 <= i < j < |AvailableProviders(env)| ==>
      AvailableProviders(env)[i] != AvailableProviders(env)[j]
  {
    var a := AvailableProviders(env);
    forall i | 0 <= i < |a|
      ensures Rank(a[i]) < 3 && Configured(env, a[i])
    {
    }
  }

  /** `AIProviderFactory.getBestAvailableProvider`: the first of openai, stability,
      replicate that is available; throws when none is. */
  function BestAvailableProvider(env: Env): (r: Result<string, string>)
    ensures r.Ok? <==> AvailableProviders(env) != []
    ensures r.Ok? ==> r.value == AvailableProviders(env)[0] && Configured(env, r.value)
    ensures r.Err? ==> r.error == "No AI providers configured. Please add API keys to environment variables."
  {
    var available := AvailableProviders(env);
    assert "stability"[0] != "replicate"[0];
    if "openai" in available then Ok("openai")
    else if "stability" in available then Ok("stability")
    else if "replicate" in available then Ok("replicate")
    else Err("No AI providers configured. Please add API keys to environment variables.")
  }

  /** The chosen provider outranks every other available one. */
  lemma BestOutranksAvailable(env: Env, name: string)
    requires BestAvailableProvider(env).Ok? && name in AvailableProviders(env)
    ensures Rank(BestAvailableProvider(env).value) <= Rank(name)
  {
    AvailableProvidersExact(env);
  }
}
