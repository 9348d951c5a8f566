/** The providers that need no API key: Hugging Face's inference API tried model by
    model, Pollinations' URL-addressed generator, and the chooser between them.
    Every `fetch` is an outcome given as a parameter. */
module FreeProviders {
  import opened Basics
  import opened StyleCatalog
  import opened Prompts

  /** The outcome of one `fetch`: a response with its HTTP status and the URL made from
      its body (an object URL or a data URL), or a rejection. */
  datatype HttpOutcome = Response(status: int, bodyUrl: string) | Rejected(message: string)

  /** `response.ok`. */
  predicate IsOk(o: HttpOutcome) {
    o.Response? && 200 <= o.status <= 299
  }

  const HuggingFaceBase: string := "https://api-inference.huggingface.co/models"

  /** The JSON request `tryModel` posts (src/lib/free-ai-providers.ts:52-66): URL,
      `inputs` and the four `parameters`. */
  datatype InferenceRequest = InferenceRequest(url: string, inputs: string, guidanceScale: real, steps: int, width: int, height: int)

  function InferenceRequestFor(model: string, prompt: string): InferenceRequest {
    InferenceRequest(HuggingFaceBase + "/" + model, prompt, 7.5, 20, 512, 512)
  }

  /** What the inference API answers to a request. */
  type InferenceApi = InferenceRequest -> HttpOutcome

  /** `tryModel`: null while the model is loading (503), on any other status that is not
      ok and on a rejected fetch; the body's URL otherwise. It never throws. */
  function TryModel(model: string, prompt: string, api: InferenceApi): (r: Option<string>)
    ensures r.Some? <==> IsOk(api(InferenceRequestFor(model, prompt)))
    ensures r.Some? ==> r.value == api(InferenceRequestFor(model, prompt)).bodyUrl
  {
    match api(InferenceRequestFor(model, prompt))
    case Rejected(_) => None
    case Response(status, url) =>
      if status == 503 then None
      else if !(200 <= status <= 299) then None
      else Some(url)
  }

  /** The models `generateImage` tries, in order. */
  const HuggingFaceModels: seq<string> := [
    "stabilityai/stable-diffusion-xl-base-1.0",
    "runwayml/stable-diffusion-v1-5",
    "CompVis/stable-diffusion-v1-4"
  ]

  /** `huggingface-${model.split('/')[1]}`; a model name without a `/` renders the
      missing part as `undefined`. */
  function ModelLabel(model: string): (name: string)
    ensures |name| >= 12 && name[..12] == "huggingface-"
  {
    var parts := Split(model, '/');
    "huggingface-" + if |parts| >= 2 then parts[1] else "undefined"
  }

  /** For an `owner/name` model id the label is `huggingface-` followed by the name. */
  lemma ModelLabelOfId(owner: string, name: string)
    requires '/' !in owner && '/' !in name
    ensures ModelLabel(owner + "/" + name) == "huggingface-" + name
  {
    SplitAtOneSeparator(owner, name, '/');
  }

  /** Whether the model at `k` answers with a truthy URL. */
  predicate Hit(models: seq<string>, k: nat, prompt: string, api: InferenceApi)
    requires k < |models|
  {
    Truthy(TryModel(models[k], prompt, api))
  }

  /** The index of the first model that answers, `|models|` when none does. */
  function FirstHit(models: seq<string>, prompt: string, api: InferenceApi): (k: nat)
    ensures k <= |models|
    ensures k < |models| ==> Hit(models, k, prompt, api)
    ensures forall j :: 0 <= j < k ==> !Hit(models, j, prompt, api)
    decreases |models|
  {
    if |models| == 0 then 0
    else if Truthy(TryModel(models[0], prompt, api)) then 0
    else
      var k := 1 + FirstHit(models[1..], prompt, api);
      assert forall j :: 1 <= j < k ==> Hit(models, j, prompt, api) == Hit(models[1..], j - 1, prompt, api);
      k
  }

  /** An index that is a hit after only misses, or the end after only misses, is the
      first hit. */
  lemma FirstHitAt(models: seq<string>, prompt: string, api: InferenceApi, i: nat)
    requires i <= |models|
    requires i < |models| ==> Hit(models, i, prompt, api)
    requires forall j :: 0 <= j < i ==> !Hit(models, j, prompt, api)
    ensures FirstHit(models, prompt, api) == i
  {
  }

  /** `HuggingFaceFreeProvider.generateImage`: try the models in order with the enhanced
      prompt and return the first URL, labelled with that model; throw if none answers.
      There is no retry of a model and no model after the first hit is tried. */
  method HuggingFaceGenerateImage(options: GenerationOptions, api: InferenceApi)
    returns (r: Result<GenerationResult, string>)
    ensures var prompt := Enhance(HuggingFaceTemplate, options.prompt, options.style);
      var k := FirstHit(HuggingFaceModels, prompt, api);
      && (r.Ok? <==> k < |HuggingFaceModels|)
      && (r.Ok? ==> r.value == GenerationResult(
            TryModel(HuggingFaceModels[k], prompt, api).value, prompt, ModelLabel(HuggingFaceModels[k])))
      && (r.Err? <==> forall j :: 0 <= j < |HuggingFaceModels| ==> !Hit(HuggingFaceModels, j, prompt, api))
      && (r.Err? ==> r.error == "All Hugging Face models failed or are loading")
  {
    var prompt := Enhance(HuggingFaceTemplate, options.prompt, options.style);
    var models := HuggingFaceModels;
    for i := 0 to |models|
      invariant forall j :: 0 <= j < i ==> !Hit(models, j, prompt, api)
    {
      var result := TryModel(models[i], prompt, api);
      if Truthy(result) {
        FirstHitAt(models, prompt, api, i);
        return Ok(GenerationResult(result.value, prompt, ModelLabel(models[i])));
      }
    }
    FirstHitAt(models, prompt, api, |models|);
    r := Err("All Hugging Face models failed or are loading");
  }

  /** `PollinationsProvider.generateImage`: an ok response gives the data URL of its body
      with the enhanced prompt; anything else throws. */
  function PollinationsGenerate(options: GenerationOptions, outcome: HttpOutcome): (r: Result<GenerationResult, string>)
    ensures r.Ok? <==> IsOk(outcome)
    ensures r.Ok? ==> r.value.imageUrl == outcome.bodyUrl && r.value.provider == "pollinations"
    ensures r.Ok? ==> r.value.prompt == Enhance(PollinationsTemplate, options.prompt, options.style)
    ensures r.Err? ==> r.error == "Pollinations.ai service unavailable"
  {
    if IsOk(outcome) then
      Ok(GenerationResult(outcome.bodyUrl, Enhance(PollinationsTemplate, options.prompt, options.style), "pollinations"))
    else
      Err("Pollinations.ai service unavailable")
  }

  datatype FreeProvider = HuggingFaceFree | Pollinations | ClientSide

  /** The name under which `createProvider` selects each provider. */
  function FreeProviderName(p: FreeProvider): string {
    match p
    case HuggingFaceFree => "huggingface"
    case Pollinations => "pollinations"
    case ClientSide => "client"
  }

  /** `FreeAIProviderFactory.getAvailableProviders`. */
  const FreeProviderNames: seq<string> := ["pollinations", "huggingface", "client"]

  /** `getBestAvailableProvider`: Pollinations when the probe `HEAD` request is ok,
      Hugging Face otherwise. The client-side fallback after it is never reached,
      because constructing the Hugging Face provider cannot throw. */
  function BestFreeProvider(probe: HttpOutcome): (p: FreeProvider)
    ensures p.Pollinations? <==> IsOk(probe)
    ensures !p.ClientSide?
  {
    if IsOk(probe) then Pollinations else HuggingFaceFree
  }

  /** `createProvider(providerName = 'auto')`: the provider named, compared after
      lower-casing; `auto` and every other name go to the chooser. */
  function CreateFreeProvider(name: Option<string>, probe: HttpOutcome): (p: FreeProvider)
    ensures var n := ToLower(if name.Some? then name.value else "auto");
      && (n in FreeProviderNames ==> FreeProviderName(p) == n)
      && (n !in FreeProviderNames ==> p == BestFreeProvider(probe))
  {
    var n := ToLower(if name.Some? then name.value else "auto");
    if n == "huggingface" then HuggingFaceFree
    else if n == "pollinations" then Pollinations
    else if n == "client" then ClientSide
    else BestFreeProvider(probe)
  }

  /** The factory ignores the case of the name. */
  lemma CreateFreeProviderIgnoresCase(name: string, probe: HttpOutcome)
    ensures CreateFreeProvider(Some(ToLower(name)), probe) == CreateFreeProvider(Some(name), probe)
  {
    ToLowerIdempotent(name);
  }

  /** Every listed name creates the provider it names, whatever its case, and the
      default name `auto` goes to the chooser. */
  lemma {:induction false} ListedNamesCreateTheirProvider(p: FreeProvider, probe: HttpOutcome)
    ensures FreeProviderName(p) in FreeProviderNames
    ensures CreateFreeProvider(Some(FreeProviderName(p)), probe) == p
    ensures CreateFreeProvider(None, probe) == BestFreeProvider(probe)
  {
    assert ToLower("huggingface") == "huggingface";
    assert ToLower("pollinations") == "pollinations";
    assert ToLower("client") == "client";
    assert ToLower("auto") == "auto";
  }
}
