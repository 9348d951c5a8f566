# Anubis avatar generation — a Dafny model

Anubis-Dog-AI turns a user's photo into an "Anubis" avatar in one of four styles:
Neon Glow, Dark Gold, Cyberpunk Blue and Cosmic Purple. This project models the
generation core and proves properties about it:

- **Free providers.** `HuggingFaceFreeProvider` tries three inference models in
  order. `PollinationsProvider` generates from a URL-addressed prompt.
  `ClientSideAIProvider` draws the photo on a 1024×1024 canvas and recolours its
  pixels per style. `FreeAIProviderFactory` chooses between them.
- **Keyed providers.** `OpenAIProvider`, `StabilityAIProvider` and `ReplicateProvider`
  each build their request and interpret the reply. `AIProviderFactory` ranks them by
  the keys present in the environment.
- **`AdvancedCanvasProcessor`.** The local fallback pipeline: letterbox the photo,
  recolour it, draw the Egyptian frame, chevrons and circles, then finish with two
  fills: a radial vignette, then a `screen` pass at alpha 0.15 in the style colour (the
  vignette again for an unknown style).
- **`generateImageWithExternalAPI`.** Generates with the best keyed provider and falls
  back to the original photo on any failure.
- **The `/api/generate-avatar` route.** `POST` validates the body and generates with
  the chosen free provider. `OPTIONS` answers the CORS preflight.

Modules, one concept each:

| module | file | what it holds |
|---|---|---|
| `Basics` | basics.dfy | `Option`, `Result`, bytes, JavaScript truthiness of strings, `toLowerCase`, `split`, the shared generation options/result records |
| `StyleCatalog` | style_catalog.dfy | the four style names, the table lookup every prompt and colour uses, and the lookup as written (which also sees `Object.prototype` keys) |
| `Prompts` | prompts.dfy | the five `enhancePrompt` templates and their tables |
| `PixelEffects` | pixel_effects.dfy | the `Uint8ClampedArray` store, the eight per-pixel tints, the in-place recolouring loop over the RGBA buffer |
| `CanvasLayout` | canvas_layout.dfy | letterboxing, the Egyptian border and corner marks, the overlay chevrons and circles, the final fill |
| `CanvasPipeline` | canvas_pipeline.dfy | `enhanceImageWithFilters`, `applyStyleEnhancements`, the client-side `generateImage`, `processImage` |
| `FreeProviders` | free_providers.dfy | Hugging Face, Pollinations and the free-provider factory |
| `KeyedProviders` | keyed_providers.dfy | OpenAI, Stability AI, Replicate (with its poll loop) and the keyed-provider factory |
| `ImageGeneration` | image_generation.dfy | `getApiKeyForProvider`, `generateImageWithExternalAPI`, the two unconfigured integrations |
| `AvatarRoute` | avatar_route.dfy | `POST` and `OPTIONS` of the route |

**Boundaries.** Every network exchange is a parameter of the function or method that
performs it: the `fetch` outcome, or a function from the request to the reply. The
canvas's image loading is an `ImageLoad` outcome. `toDataURL` is an `encode`
function. `Math.sin` is a `wave` function.

**Canvas buffer.** The canvas `ImageData` buffer is a Dafny `array` of bytes. The
recolouring methods update it in place, and each is proved against the function
`Recolored`, which states its result.

**Replicate polling.** The Replicate poll loop is proved against `Settle`. The loop
has no attempt limit or timeout in the code, and the model follows the code: a
sequence of poll replies that never settles ends in `StillPolling`, and the call
that made it answers `None` ("never settles").

## Model

Source paths are relative to the repository root.

| member | source | states |
|---|---|---|
| Basics.Split | src/lib/free-ai-providers.ts:38 | `split` yields at least one part and no part contains the separator |
| Basics.JoinSplit | src/lib/free-ai-providers.ts:38 | joining the parts of a `split` with the separator gives back the string |
| Basics.SplitAtOneSeparator | src/lib/free-ai-providers.ts:38 | `owner/name` splits at `/` into exactly `[owner, name]` |
| Basics.SplitWithoutSeparator | src/lib/free-ai-providers.ts:38 | a string without the separator splits into itself alone |
| Basics.ToLowerIdempotent | src/lib/free-ai-providers.ts:341 | lower-casing twice is lower-casing once, so a lower-case provider name is matched as given |
| StyleCatalog.ParseStyle | src/lib/free-ai-providers.ts:162-175 | a style is recognised only by its exact name |
| StyleCatalog.ParseStyleName | src/lib/free-ai-providers.ts:162-175 | each of the four style names is recognised as its own style |
| StyleCatalog.Fragment | src/lib/free-ai-providers.ts:93 | the table lookup gives the style's entry for the four style names and `''` for every other name |
| StyleCatalog.FragmentAsWritten | src/lib/free-ai-providers.ts:86-93 | the lookup as written agrees with the intended one on the four style names and on every name that is not an `Object.prototype` key; any other name finds the inherited member, whose rendered text is not empty |
| StyleCatalog.InheritedKeyLeaksIntoPrompt | src/lib/free-ai-providers.ts:93-94 | as written, style `constructor` puts the text of `Object`'s constructor into the prompt, where the intended lookup gives `''` |
| StyleCatalog.StyleColor | src/lib/free-ai-providers.ts:227-235 | the four styles map to `#ff00ff`, `#ffd700`, `#00ffff`, `#8a2be2`; every other name maps to `#ffffff` |
| StyleCatalog.StyleColorAsWritten | src/lib/free-ai-providers.ts:227-235 | as written, the lookup agrees with the intended colour for every name that is not an `Object.prototype` key |
| StyleCatalog.InheritedKeyIsNoColour | src/lib/free-ai-providers.ts:234 | as written, style `constructor` yields a function, not a colour string, where the intended lookup gives `#ffffff` |
| StyleCatalog.AccessorKeyLeaksIntoPrompt | src/lib/free-ai-providers.ts:93-94 | as written, the inherited accessor `__defineGetter__` puts its function text into the prompt, where the intended lookup gives `''` |
| StyleCatalog.AccessorKeyIsNoColour | src/lib/free-ai-providers.ts:234 | as written, the inherited accessor `__lookupSetter__` yields a function, not a colour string, where the intended lookup gives `#ffffff` |
| Prompts.Enhance | src/lib/free-ai-providers.ts:85-95 | with the intended own-key lookup of the style table (see Findings), the prompt is the base, then the provider's separator, then the style's fragment, then the provider's suffix; the same template, with its own separator, table and suffix, is the `enhancePrompt` of Pollinations (src/lib/free-ai-providers.ts:316-326), OpenAI (src/lib/ai-providers.ts:54-64), Stability AI (:121-131) and Replicate (:196-206) |
| Prompts.EnhanceInjective | src/lib/free-ai-providers.ts:93-94 | two styles give the same prompt on one base exactly when their fragments are equal |
| Prompts.EnhanceKnownAndUnknown | src/lib/free-ai-providers.ts:93-94 | a known style's table entry can be read back out of the prompt; any other style gives `base + separator + suffix`, which differs from every known style with a non-empty entry |
| PixelEffects.ClampToByte | src/lib/free-ai-providers.ts:194-196 | what a `Uint8ClampedArray` stores for a value: 0 at or below 0, 255 at or above 255, otherwise the value rounded half to even; a function without a contract, whose rounding RoundHalfEvenIsNearest states |
| PixelEffects.RoundHalfEvenIsNearest | src/lib/free-ai-providers.ts:194-196 | the stored byte is within one half of the value, and is the even neighbour on a tie |
| PixelEffects.Channel | src/lib/free-ai-providers.ts:194-196 | one `data[i] = Math.min(255, v)` write: `Math.min(255, v)` followed by the clamped store; a function without a contract, stated by ChannelIsNearest |
| PixelEffects.ChannelIsNearest | src/lib/free-ai-providers.ts:194-196 | a channel computed from `v` is 0 for `v` ≤ 0, 255 for `v` ≥ 255, and otherwise within one half of `v` |
| PixelEffects.ClampMonotone | src/lib/free-ai-providers.ts:194-196 | storing into the clamped byte array is monotone in the stored value |
| PixelEffects.ClampExact | src/lib/free-ai-providers.ts:194-196 | storing a byte value stores it unchanged |
| PixelEffects.ChannelMonotone | src/lib/free-ai-providers.ts:194-196 | `Math.min(255, v)` followed by the store is monotone |
| PixelEffects.ChannelAtLeast | src/lib/free-ai-providers.ts:194-196 | a channel computed from a value at least `c` stores at least `c` |
| PixelEffects.ChannelAtMost | src/lib/free-ai-providers.ts:194-196 | a channel computed from a value at most `c` stores at most `c` |
| PixelEffects.TintPixel | src/lib/free-ai-providers.ts:191-225 | the eight coefficient sets, four basic (:194-223) and four advanced (:445-462, the sine taken at the byte offset), each channel written through Channel; a function without a contract, whose floors, ordering and dimming TintFloors, GoldOrdered, GoldDependsOnlyOnMean and DimmedChannels state |
| PixelEffects.StyleTint | src/lib/free-ai-providers.ts:162-175 | an unknown style selects no recolouring |
| PixelEffects.AdvancedTint | src/lib/free-ai-providers.ts:443-464 | an unknown style leaves pixels as they are in the advanced filter |
| PixelEffects.TintFloors | src/lib/free-ai-providers.ts:191-225 | each tint keeps each channel at least at its fixed offset (for example, gold's red is at least 40) |
| PixelEffects.GoldOrdered | src/lib/free-ai-providers.ts:200-207 | a gold pixel always has red ≥ green ≥ blue |
| PixelEffects.GoldDependsOnlyOnMean | src/lib/free-ai-providers.ts:200-207 | the gold colour depends only on the pixel's brightness (channel sum) |
| PixelEffects.DimmedChannels | src/lib/free-ai-providers.ts:209-225 | cyberpunk never raises red, and cosmic never raises green |
| PixelEffects.Recolored | src/lib/free-ai-providers.ts:191-198 | recolouring keeps the buffer length |
| PixelEffects.RecoloredPixel | src/lib/free-ai-providers.ts:192-197 | each pixel of the result is the tint of the same pixel of the input, and alpha is untouched |
| PixelEffects.RecoloredIsLocal | src/lib/free-ai-providers.ts:192-197 | a pixel of the result depends on that pixel of the input only |
| PixelEffects.RecoloredUnchanged | src/lib/free-ai-providers.ts:162-175 | the identity tint leaves the buffer unchanged |
| PixelEffects.GoldBufferOrdered | src/lib/free-ai-providers.ts:200-207 | after a gold recolouring, every pixel of the buffer has red ≥ green ≥ blue |
| PixelEffects.RecolorPixels | src/lib/free-ai-providers.ts:192-197 | the in-place loop leaves the buffer equal to `Recolored` of its old contents |
| PixelEffects.ApplyNeonEffect | src/lib/free-ai-providers.ts:191-198 | the buffer becomes the neon recolouring of its old contents |
| PixelEffects.ApplyGoldEffect | src/lib/free-ai-providers.ts:200-207 | the buffer becomes the gold recolouring of its old contents |
| PixelEffects.ApplyCyberpunkEffect | src/lib/free-ai-providers.ts:209-216 | the buffer becomes the cyberpunk recolouring of its old contents |
| PixelEffects.ApplyCosmicEffect | src/lib/free-ai-providers.ts:218-225 | the buffer becomes the cosmic recolouring of its old contents |
| PixelEffects.ApplyAILikeFilters | src/lib/free-ai-providers.ts:434-468 | the buffer becomes the advanced recolouring of its old contents; an unknown style leaves it unchanged |
| CanvasLayout.Letterbox | src/lib/free-ai-providers.ts:136-140 | the scale is `min(1024 / w, 1024 / h)` and the drawn photo is centred; a function without a contract, whose fit LetterboxFits states |
| CanvasLayout.LetterboxFits | src/lib/free-ai-providers.ts:136-142 | the drawn photo fits the canvas, fills one side, keeps its aspect ratio and is centred |
| CanvasLayout.FrameRect | src/lib/free-ai-providers.ts:244 | the border sits 20 pixels in from every edge of the canvas |
| CanvasLayout.CornerMarks | src/lib/free-ai-providers.ts:250-281 | the four three-point polylines in drawing order (top-left, top-right, bottom-left, bottom-right); a function without a contract, whose shape CornersSitOnFrame states |
| CanvasLayout.CornersSitOnFrame | src/lib/free-ai-providers.ts:237-282 | each of the four corner marks bends at a corner of the 20-pixel border and has two axis-aligned arms of length 40 |
| CanvasLayout.Chevrons | src/lib/free-ai-providers.ts:481-487 | one chevron for every multiple of 30 from `x` below the limit, so `(limit - x - 1) / 30 + 1` of them, and none when `x` is not below the limit |
| CanvasLayout.CirclePairs | src/lib/free-ai-providers.ts:490-498 | two circles for every multiple of 40 from `y` below the limit, and none when `y` is not below the limit |
| CanvasLayout.Overlays | src/lib/free-ai-providers.ts:474-498 | the overlay border sits 40 pixels in from every edge of the canvas |
| CanvasLayout.ChevronsSpaced | src/lib/free-ai-providers.ts:481-487 | the k-th chevron is at `x + 30k`, each lies below the limit, and the next position would not |
| CanvasLayout.CirclePairsSpaced | src/lib/free-ai-providers.ts:490-498 | the k-th circle pair sits at row `y + 40k`, 60 pixels from each side with radius 8, below the limit, and the next row would not be |
| CanvasLayout.OverlaysOnCanvas | src/lib/free-ai-providers.ts:470-499 | on the 1024×1024 canvas the frame is (40, 40, 944, 944), with 31 chevrons and 42 circles |
| CanvasLayout.AddEgyptianOverlays | src/lib/free-ai-providers.ts:470-499 | the two drawing loops produce exactly `Overlays(width, height)` |
| CanvasLayout.FinalFill | src/lib/free-ai-providers.ts:510-527 | the fill of the `screen` pass: a known style's colour, and for any other style the radial vignette left in `fillStyle` by the first pass |
| CanvasLayout.FinalEnhancements | src/lib/free-ai-providers.ts:501-532 | two full-canvas passes: the vignette at `source-over` and alpha 1, then FinalFill at `screen` and alpha 0.15; the second repeats the first's fill exactly for an unknown style |
| CanvasPipeline.ApplyStyleEnhancements | src/lib/free-ai-providers.ts:158-189 | the buffer is recoloured by the style's tint (unchanged for unknown styles); the glow uses the style colour with blur 20 and alpha 0.1 |
| CanvasPipeline.EnhanceImageWithFilters | src/lib/free-ai-providers.ts:115-156 | fails with "No user image provided", then "Could not get canvas context", then "Failed to load image", in that order and without touching the canvas; otherwise it recolours and lays out the photo |
| CanvasPipeline.ClientSideGenerate | src/lib/free-ai-providers.ts:102-113 | the result is the encoded canvas, with the prompt unchanged and provider `client-side-enhanced`; the three rejections of the enhancement are passed on with their messages, in order, and leave the canvas untouched |
| CanvasPipeline.ProcessImage | src/lib/free-ai-providers.ts:385-432 | on success, progress is reported as 20, 40, 60, 80, 100, the canvas holds the advanced recolouring and the encoded rendering is the advanced layout; on failure, nothing is reported and the canvas is untouched |
| CanvasPipeline.RenderLoadedImage | src/lib/free-ai-providers.ts:400-427 | the `onload` handler reports 20, 40, 60, 80, 100, leaves the canvas equal to the advanced recolouring of its old contents, and draws the letterbox, the overlays and the two final passes |
| FreeProviders.TryModel | src/lib/free-ai-providers.ts:50-83 | a URL is returned exactly when the response is ok; 503, other statuses and rejections give `null` |
| FreeProviders.ModelLabel | src/lib/free-ai-providers.ts:38 | every label starts with `huggingface-` |
| FreeProviders.ModelLabelOfId | src/lib/free-ai-providers.ts:38 | the label of `owner/name` is `huggingface-name` |
| FreeProviders.FirstHit | src/lib/free-ai-providers.ts:31-45 | the first model that answers, with every earlier model failing |
| FreeProviders.HuggingFaceGenerateImage | src/lib/free-ai-providers.ts:21-48 | the result comes from the first model that answers, labelled by that model; it fails with "All Hugging Face models failed or are loading" exactly when none answers |
| FreeProviders.PollinationsGenerate | src/lib/free-ai-providers.ts:289-314 | an ok response gives its body URL, the enhanced prompt and provider `pollinations`; anything else fails with "Pollinations.ai service unavailable" |
| FreeProviders.BestFreeProvider | src/lib/free-ai-providers.ts:355-376 | Pollinations is chosen exactly when the probe is ok, otherwise Hugging Face; the client-side fallback is never chosen |
| FreeProviders.CreateFreeProvider | src/lib/free-ai-providers.ts:340-353 | a listed name (in any case) creates its provider; `auto` and any other name go to the chooser |
| FreeProviders.CreateFreeProviderIgnoresCase | src/lib/free-ai-providers.ts:341 | lower-casing a name first does not change the provider it creates |
| FreeProviders.ListedNamesCreateTheirProvider | src/lib/free-ai-providers.ts:340-353 | every name in `getAvailableProviders` creates the provider it names, and the default goes to the chooser |
| KeyedProviders.ErrorText | src/lib/ai-providers.ts:43 | the error text is the reply's message when truthy, otherwise `Unknown error`, so it is never empty |
| KeyedProviders.OpenAIRequestFor | src/lib/ai-providers.ts:25-39 | the bearer key, `dall-e-3`, the enhanced prompt, one image, `1024x1024`, `hd`, `vivid`; a function without a contract, used by OpenAIGenerate |
| KeyedProviders.OpenAIGenerate | src/lib/ai-providers.ts:24-52 | an accepted reply gives its URL; a refused one fails with "OpenAI API error: " and the message; a thrown one fails with the thrown message |
| KeyedProviders.StabilityRequestFor | src/lib/ai-providers.ts:76-96 | the seven base form fields, plus the three init fields and the image-to-image endpoint for a truthy photo; a function without a contract, whose shape StabilityInitIffImageToImage states |
| KeyedProviders.StabilityInitIffImageToImage | src/lib/ai-providers.ts:85-96 | the form carries an `init_image` exactly when the photo is truthy, which is exactly when the image-to-image endpoint is used |
| KeyedProviders.StabilityGenerate | src/lib/ai-providers.ts:75-119 | an accepted reply gives `data:image/png;base64,` plus the artifact; a refused one fails with "Stability AI error: " and the message |
| KeyedProviders.ReplicateRequestFor | src/lib/ai-providers.ts:150-163 | the input carries the image and prompt strength 0.8 exactly when the photo is truthy |
| KeyedProviders.Settle | src/lib/ai-providers.ts:174-187 | a finished poll ends on a succeeded or failed prediction |
| KeyedProviders.SettlesOnFirstSettled | src/lib/ai-providers.ts:175-183 | when the k-th reply is the first that settles or throws, polling ends on exactly that reply |
| KeyedProviders.StillPollingIffNothingSettles | src/lib/ai-providers.ts:175-183 | the poll is still running exactly when neither the first prediction nor any reply settles |
| KeyedProviders.PollPrediction | src/lib/ai-providers.ts:173-183 | the loop ends in `Settle`'s outcome, polls at most once per reply, and does not poll a settled prediction |
| KeyedProviders.ReplicateGenerate | src/lib/ai-providers.ts:142-194 | a refused creation fails with "Replicate API error: "; a failed prediction fails with "Replicate generation failed: "; a succeeded one gives its first output; a poll that never settles gives `None` |
| KeyedProviders.CreateProvider | src/lib/ai-providers.ts:211-222 | the three names (in any case) create their provider with the key; any other name fails with "Unknown AI provider: " and the name |
| KeyedProviders.CreateProviderIgnoresCase | src/lib/ai-providers.ts:212 | lower-casing a name first does not change whether or which provider it creates |
| KeyedProviders.AvailableProviders | src/lib/ai-providers.ts:224-230 | at most three names, each a keyed provider's name |
| KeyedProviders.GetAvailableProviders | src/lib/ai-providers.ts:224-230 | the pushes yield exactly `AvailableProviders(env)` |
| KeyedProviders.AvailableProvidersExact | src/lib/ai-providers.ts:224-230 | a provider is listed exactly when its key is set; the list is in priority order, without repeats |
| KeyedProviders.BestAvailableProvider | src/lib/ai-providers.ts:232-241 | the first available provider, or the "No AI providers configured…" error exactly when none is available |
| KeyedProviders.BestOutranksAvailable | src/lib/ai-providers.ts:235-238 | the chosen provider ranks at least as high as every available one (OpenAI, then Stability, then Replicate) |
| ImageGeneration.ApiKeyForProvider | src/ai/flows/image-generation.ts:147-158 | each of the three names (in any case) gives its environment variable; any other name gives `undefined` |
| ImageGeneration.ChooseExternal | src/ai/flows/image-generation.ts:111-123 | a provider is created exactly when some key is set; it is the best available one, and it holds that provider's key from the environment; a failure is always the factory's "No AI providers configured" error, so the "No API key found" throw is unreachable |
| ImageGeneration.ChosenNameHasKey | src/ai/flows/image-generation.ts:117-123 | the "No API key found" and "Unknown AI provider" throws are unreachable for the chosen name, whatever the key |
| ImageGeneration.GenerateImageWithExternalAPI | src/ai/flows/image-generation.ts:108-144 | the result is the chosen provider's image URL, or the original photo when choosing or generating fails |
| ImageGeneration.FallsBackWithoutKeys | src/ai/flows/image-generation.ts:137-143 | with no key set, the original photo comes back |
| ImageGeneration.OnlyChosenProviderMatters | src/ai/flows/image-generation.ts:113-135 | only the one chosen provider is attempted; a failure is not retried on another |
| ImageGeneration.ExternalPromptHasNoFragment | src/ai/flows/image-generation.ts:129 | style `Anubis Avatar` is not a known style, so the provider's prompt has an empty fragment |
| ImageGeneration.GenerateWithDALLE | src/ai/flows/image-generation.ts:185 | always throws "DALL-E integration not configured…" |
| ImageGeneration.GenerateWithStabilityAI | src/ai/flows/image-generation.ts:222 | always throws "Stability AI integration not configured…" |
| AvatarRoute.DefaultPrompt | src/app/api/generate-avatar/route.ts:27 | the default prompt is the fixed sentence with the style in its slot |
| AvatarRoute.DefaultPromptInjective | src/app/api/generate-avatar/route.ts:27 | distinct styles give distinct default prompts |
| AvatarRoute.RouteOptions | src/app/api/generate-avatar/route.ts:26-32 | the body's prompt is used when truthy, otherwise the default; the photo and style are passed on, and the size is 1024×1024 |
| AvatarRoute.Post | src/app/api/generate-avatar/route.ts:4-54 | an unparsable body gives 500; a missing photo, then a missing style, gives 400 with its message; otherwise the chosen provider's result is 200 with its fields, or its error is 500 "Failed to generate avatar"; status 200 is returned exactly for a success body |
| AvatarRoute.PostUsesChosenProvider | src/app/api/generate-avatar/route.ts:24-32 | the client-side provider is never chosen, and only the chosen provider's answer decides the response |
| AvatarRoute.Options | src/app/api/generate-avatar/route.ts:57-65 | 200 with no body and exactly the three CORS headers with their values |

## Left out

- Network I/O is not modelled: `fetch`, blobs, `URL.createObjectURL`, `FileReader` and the one-second `setTimeout` between polls. Each exchange's outcome is a parameter.
- Rasterisation is not modelled: `drawImage`, strokes, arcs, gradients, shadows, composite operations and `toDataURL`. The model records what is drawn (placement, glow, frame, chevrons, circles, and the two final passes with their composite operation and alpha) and takes the encoding as an `encode` parameter.
- `Math.sin` in the advanced neon filter is an abstract `wave` function.
- IEEE-754 arithmetic is not modelled. The colour formulas use exact rationals, and the clamped-array store rounds half to even on the exact value, so a double product that rounds differently in its last bit is not captured.
- A loaded image is assumed to have a positive width and height (`SizedLoad`). A 0×0 image makes the letterbox scale infinite and the drawn size `NaN`; an image with one zero side is drawn with a zero side. Neither is modelled.
- The `ImageData` buffer is taken to have length 4·1024·1024 (a whole number of RGBA pixels), as a 1024×1024 canvas gives.
- `toLowerCase` is modelled on ASCII letters only.
- JSON bodies are modelled as their string fields; a non-string value of `userImage`, `style` or `prompt` is not modelled.
- The success body of `POST` is flattened: `generatedImage`, `prompt` and `provider` sit beside `success` instead of under `data`.
- The Pollinations URL (`encodeURIComponent`, `Date.now()` seed) is not built; its fetch outcome is one parameter.
- Stability AI: fetching the photo's data URL to make the `init_image` blob is taken to succeed. The blob is represented by the photo string.
- KeyedProviders.ReplicateGenerate: a succeeded prediction without `output` is not modelled; there `result.output[0]` throws a `TypeError` (src/lib/ai-providers.ts:190). Every prediction carries its first output.
- Replicate: the prediction id in each poll URL is not recorded. The unbounded poll loop is cut at the replies given, and a sequence that never settles ends in `StillPolling`.
- Provider `generateImage` calls made by `generateImageWithExternalAPI` and by the route are abstract function parameters. Their behaviour per provider is modelled separately in `KeyedProviders` and `FreeProviders`.
- The `width` and `height` options are passed through but ignored by every provider, as in the source.
- `processImage` receives the photo only through the `ImageLoad` outcome of loading it. The optional `onProgress` callback is modelled as the list of values it receives.
- Prompts.Enhance, CanvasPipeline.ApplyStyleEnhancements, CanvasPipeline.EnhanceImageWithFilters, CanvasPipeline.ClientSideGenerate, FreeProviders.HuggingFaceGenerateImage, FreeProviders.PollinationsGenerate, KeyedProviders.OpenAIRequestFor, KeyedProviders.StabilityRequestFor, KeyedProviders.ReplicateRequestFor, KeyedProviders.OpenAIGenerate, KeyedProviders.StabilityGenerate, KeyedProviders.ReplicateGenerate, AvatarRoute.Post: these model the intended own-key lookup of the style tables (`StyleCatalog.Fragment`, `StyleCatalog.StyleColor`). For a style named after an `Object.prototype` key, such as `constructor` or `__defineGetter__`, the source differs (src/lib/free-ai-providers.ts:93-94, :181-183, :324-325; src/lib/ai-providers.ts:62, :129, :204); the lookup as written and the difference are under Findings.
- Console logging is not modelled, and nor are the Genkit flows, dotprompt definitions and UI components outside the four files above.
- The pairwise distinctness of the five prompt tables' literal entries is not proved. `Prompts.EnhanceKnownAndUnknown` states the consequence for any table.
- The labels of the three concrete Hugging Face models follow from the general `FreeProviders.ModelLabelOfId`; they are not stated one by one.

## Findings

| source | as written | input that shows it | evidently intended | confidence | as-written member | corrected member |
|---|---|---|---|---|---|---|
| src/lib/free-ai-providers.ts:93 (likewise :324, src/lib/ai-providers.ts:62, :129, :204) | `styleEnhancements[style] \|\| ''` indexes a plain object literal, so keys inherited from `Object.prototype` are found too | style `constructor` puts `function Object() { [native code] }` into the prompt, and the accessor `__defineGetter__` its own function text (StyleCatalog.AccessorKeyLeaksIntoPrompt) | only the four style names have a fragment, and every other style gets `''` | not executed | StyleCatalog.InheritedKeyLeaksIntoPrompt | StyleCatalog.Fragment |
| src/lib/free-ai-providers.ts:234 | `colors[style] \|\| '#ffffff'` indexes a plain object literal, so inherited keys are found too | style `constructor` (likewise `__lookupSetter__`, StyleCatalog.AccessorKeyIsNoColour) yields an inherited function as `shadowColor` and `fillStyle`, not a colour | every name other than the four styles gets `#ffffff` | not executed | StyleCatalog.InheritedKeyIsNoColour | StyleCatalog.StyleColor |
