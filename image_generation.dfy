/** The server-side flow helpers: looking up the key of a provider, generating with the
    best keyed provider and falling back to the photo on any failure, and the two
    example integrations that are not configured and always throw. */
module ImageGeneration {
  import opened Basics
  import opened StyleCatalog
  import opened Prompts
  import opened KeyedProviders

  /** `getApiKeyForProvider`: the variable of the named provider, compared after
      lower-casing; undefined for any other name. */
  function ApiKeyForProvider(name: string, env: Env): (k: Option<string>)
    ensures ToLower(name) == "openai" ==> k == env.openaiKey
    ensures ToLower(name) == "stability" ==> k == env.stabilityKey
    ensures ToLower(name) == "replicate" ==> k == env.replicateToken
    ensures ToLower(name) !in KeyedProviderNames ==> k.None?
  {
    var n := ToLower(name);
    if n == "openai" then env.openaiKey
    else if n == "stability" then env.stabilityKey
    else if n == "replicate" then env.replicateToken
    else None
  }

  /** The style the flow passes to every provider. */
  const AnubisStyle: string := "Anubis Avatar"

  /** The options `generateImageWithExternalAPI` passes to the provider
      (src/ai/flows/image-generation.ts:126-132). */
  function ExternalOptions(userImage: string, prompt: string): GenerationOptions {
    GenerationOptions(prompt, Some(userImage), AnubisStyle, Some(1024), Some(1024))
  }

  /** The first half of `generateImageWithExternalAPI`'s `try`: choose the best provider,
      look up its key (throwing when unset) and create it. The result is the provider to
      attempt, or the message thrown. */
  function ChooseExternal(env: Env): (r: Result<KeyedProvider, string>)
    ensures r.Ok? <==> AvailableProviders(env) != []
    ensures r.Ok? ==> ProviderName(r.value) == BestAvailableProvider(env).value
    ensures r.Ok? ==> Configured(env, ProviderName(r.value)) && Truthy(Some(r.value.apiKey))
    ensures r.Ok? ==> ApiKeyForProvider(ProviderName(r.value), env) == Some(r.value.apiKey)
    ensures r.Err? ==> BestAvailableProvider(env).Err? && r.error == BestAvailableProvider(env).error
  {
    match BestAvailableProvider(env)
    case Err(e) => Err(e)
    case Ok(name) =>
      ChosenNameHasKey(env, "");
      var key := ApiKeyForProvider(name, env);
      if !Truthy(key) then Err("No API key found for provider: " + name)
      else CreateProvider(name, key.value)
  }

  /** A provider name the factory chooses always has its key set and is accepted by
      `createProvider`, so neither of those throws is reachable. */
  lemma ChosenNameHasKey(env: Env, apiKey: string)
    requires BestAvailableProvider(env).Ok?
    ensures Truthy(ApiKeyForProvider(BestAvailableProvider(env).value, env))
    ensures CreateProvider(BestAvailableProvider(env).value, apiKey).Ok?
  {
    assert ToLower("openai") == "openai";
    assert ToLower("stability") == "stability";
    assert ToLower("replicate") == "replicate";
  }

  /** What `provider.generateImage` settles to for a provider and options; `None` when it
      never settles (the Replicate poll that never sees a settled status). */
  type Attempt = (KeyedProvider, GenerationOptions) -> Option<Result<GenerationResult, string>>

  /** `generateImageWithExternalAPI`: the image URL of the one provider attempted, or the
      photo itself when anything throws. It never throws; `None` when the attempt never
      settles. */
  function GenerateImageWithExternalAPI(userImage: string, prompt: string, env: Env, attempt: Attempt)
    : (r: Option<string>)
    ensures ChooseExternal(env).Err? ==> r == Some(userImage)
    ensures ChooseExternal(env).Ok? ==>
      var outcome := attempt(ChooseExternal(env).value, ExternalOptions(userImage, prompt));
      && (outcome.None? <==> r.None?)
      && (outcome.Some? && outcome.value.Ok? ==> r == Some(outcome.value.value.imageUrl))
      && (outcome.Some? && outcome.value.Err? ==> r == Some(userImage))
  {
    match ChooseExternal(env)
    case Err(_) => Some(userImage)
    case Ok(provider) =>
      match attempt(provider, ExternalOptions(userImage, prompt))
      case None => None
      case Some(Ok(result)) => Some(result.imageUrl)
      case Some(Err(_)) => Some(userImage)
  }

  /** No environment key set: the photo comes back whatever the providers would do. */
  lemma {:induction false} FallsBackWithoutKeys(userImage: string, prompt: string, env: Env, attempt: Attempt)
    requires !Truthy(env.openaiKey) && !Truthy(env.stabilityKey) && !Truthy(env.replicateToken)
    ensures GenerateImageWithExternalAPI(userImage, prompt, env, attempt) == Some(userImage)
  {
    assert AvailableProviders(env) == [];
  }

  /** Exactly one provider is attempted: two provider behaviours that agree on the chosen
      provider give the same result, so the failure of the chosen one is never retried on
      another. */
  lemma {:induction false} OnlyChosenProviderMatters(userImage: string, prompt: string, env: Env, a1: Attempt, a2: Attempt)
    requires ChooseExternal(env).Ok? ==>
      a1(ChooseExternal(env).value, ExternalOptions(userImage, prompt)) == a2(ChooseExternal(env).value, ExternalOptions(userImage, prompt))
    ensures GenerateImageWithExternalAPI(userImage, prompt, env, a1) == GenerateImageWithExternalAPI(userImage, prompt, env, a2)
  {
  }

  /** `Anubis Avatar` is none of the four styles, so every provider sends the prompt
      with an empty style fragment. */
  lemma {:induction false} ExternalPromptHasNoFragment(t: Template, userImage: string, prompt: string)
    ensures ParseStyle(ExternalOptions(userImage, prompt).style).None?
    ensures Enhance(t, prompt, ExternalOptions(userImage, prompt).style) == prompt + t.separator + t.suffix
  {
    assert AnubisStyle[0] != "Neon Glow"[0] && AnubisStyle[0] != "Dark Gold"[0];
    assert AnubisStyle[0] != "Cyberpunk Blue"[0] && AnubisStyle[0] != "Cosmic Purple"[0];
    assert Enhance(t, prompt, AnubisStyle) == prompt + t.separator + "" + t.suffix;
  }

  /** `generateWithDALLE`: not configured; always throws. */
  function GenerateWithDALLE(prompt: string, userImage: Option<string>): (r: Result<string, string>)
    ensures r.Err?
    ensures r.error == "DALL-E integration not configured. Please add your OpenAI API key."
  {
    Err("DALL-E integration not configured. Please add your OpenAI API key.")
  }

  /** `generateWithStabilityAI`: not configured; always throws. */
  function GenerateWithStabilityAI(prompt: string, userImage: Option<string>): (r: Result<string, string>)
    ensures r.Err?
    ensures r.error == "Stability AI integration not configured. Please add your Stability AI API key."
  {
    Err("Stability AI integration not configured. Please add your Stability AI API key.")
  }
}
