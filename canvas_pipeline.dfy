/** The two canvas pipelines: `ClientSideAIProvider`, which draws the photo, recolours
    it with a style effect and adds a glow and a gold frame, and
    `AdvancedCanvasProcessor.processImage`, which draws, recolours with the advanced
    effects, adds the Egyptian overlays and a final tint, reporting progress as it goes.

    The canvas bytes given to each method are the RGBA bytes of the 1024 x 1024 canvas
    right after `drawImage` has placed the photo; rasterising the photo, the strokes and
    the fills is not modelled, only the coordinates and colours handed to the drawing
    calls. `canvas.toDataURL` is the parameter `encode`, which sees the recoloured bytes
    and the list of drawing calls made after them. */
module CanvasPipeline {
  import opened Basics
  import opened StyleCatalog
  import opened PixelEffects
  import opened CanvasLayout

  /** Bytes of the 1024 x 1024 RGBA canvas. */
  const CanvasBytes: nat := 4 * 1024 * 1024

  /** What becomes of `img.src = userImage`: `onload` with the natural size, or `onerror`. */
  datatype ImageLoad = Loaded(width: real, height: real) | LoadFailed

  /** A loaded image has a positive size. */
  predicate SizedLoad(load: ImageLoad) {
    load.Loaded? ==> load.width > 0.0 && load.height > 0.0
  }

  /** The translucent `screen` fill after the style effect: its colour (also the shadow
      colour), shadow blur and global alpha. */
  datatype Glow = Glow(color: string, shadowBlur: int, alpha: real)

  /** The drawing calls of `enhanceImageWithFilters` apart from the recoloured pixels:
      photo placement, glow, border rectangle and corner marks. */
  datatype ClientRendering = ClientRendering(placement: Placement, glow: Glow, border: Rect, corners: seq<seq<Point>>)

  /** The drawing calls of `processImage` apart from the recoloured pixels. */
  datatype AdvancedRendering = AdvancedRendering(placement: Placement, overlay: Overlay, finalPasses: seq<FillPass>)

  /** `applyStyleEnhancements`: the `switch` recolours the pixels with one of the four
      effects (a style without a case leaves them as they were), the pixels are put
      back, and a glow in the style colour is filled over the canvas. */
  method ApplyStyleEnhancements(data: array<Byte>, style: string) returns (glow: Glow)
    requires data.Length % 4 == 0
    modifies data
    ensures data[..] == Recolored(Effect(StyleTint(style)), old(data[..]))
    ensures ParseStyle(style).None? ==> data[..] == old(data[..])
    ensures glow == Glow(StyleColor(style), 20, 0.1)
  {
    match ParseStyle(style) {
      case Some(NeonGlow) => ApplyNeonEffect(data);
      case Some(DarkGold) => ApplyGoldEffect(data);
      case Some(CyberpunkBlue) => ApplyCyberpunkEffect(data);
      case Some(CosmicPurple) => ApplyCosmicEffect(data);
      case None => RecoloredUnchanged(data[..]);
    }
    glow := Glow(StyleColor(style), 20, 0.1);
  }

  /** The rendering `enhanceImageWithFilters` produces for a loaded photo. */
  function ClientLayout(style: string, width: real, height: real): ClientRendering
    requires width > 0.0 && height > 0.0
  {
    ClientRendering(Letterbox(width, height), Glow(StyleColor(style), 20, 0.1),
      FrameRect(1024, 1024), CornerMarks(1024, 1024, FrameMargin))
  }

  /** `enhanceImageWithFilters`: reject a falsy `userImage`, then a missing 2D context,
      then a photo that fails to load; otherwise draw it letterboxed, apply the style
      enhancements and the Egyptian border. */
  method EnhanceImageWithFilters(userImage: Option<string>, style: string, contextAvailable: bool,
                                 load: ImageLoad, canvas: array<Byte>)
    returns (r: Result<ClientRendering, string>)
    requires canvas.Length == CanvasBytes
    requires SizedLoad(load)
    modifies canvas
    ensures !Truthy(userImage) ==> r == Err("No user image provided")
    ensures Truthy(userImage) && !contextAvailable ==> r == Err("Could not get canvas context")
    ensures Truthy(userImage) && contextAvailable && load.LoadFailed? ==> r == Err("Failed to load image")
    ensures r.Ok? <==> Truthy(userImage) && contextAvailable && load.Loaded?
    ensures r.Err? ==> canvas[..] == old(canvas[..])
    ensures r.Ok? ==> r.value == ClientLayout(style, load.width, load.height)
                      && canvas[..] == Recolored(Effect(StyleTint(style)), old(canvas[..]))
  {
    if !Truthy(userImage) {
      return Err("No user image provided");
    }
    if !contextAvailable {
      return Err("Could not get canvas context");
    }
    match load
    case LoadFailed =>
      r := Err("Failed to load image");
    case Loaded(w, h) =>
      var placement := Letterbox(w, h);
      var glow := ApplyStyleEnhancements(canvas, style);
      r := Ok(ClientRendering(placement, glow, FrameRect(1024, 1024), CornerMarks(1024, 1024, FrameMargin)));
  }

  /** `ClientSideAIProvider.generateImage`: the data URL of the enhanced canvas, the
      caller's prompt unchanged, and the provider label `client-side-enhanced`; a
      rejection of the enhancement is passed on. */
  method ClientSideGenerate(options: GenerationOptions, contextAvailable: bool, load: ImageLoad,
                            canvas: array<Byte>, encode: (seq<Byte>, ClientRendering) -> string)
    returns (r: Result<GenerationResult, string>)
    requires canvas.Length == CanvasBytes
    requires SizedLoad(load)
    modifies canvas
    ensures r.Ok? <==> Truthy(options.userImage) && contextAvailable && load.Loaded?
    ensures !Truthy(options.userImage) ==> r == Err("No user image provided")
    ensures Truthy(options.userImage) && !contextAvailable ==> r == Err("Could not get canvas context")
    ensures Truthy(options.userImage) && contextAvailable && load.LoadFailed? ==> r == Err("Failed to load image")
    ensures r.Err? ==> canvas[..] == old(canvas[..])
    ensures r.Ok? ==> r.value == GenerationResult(
      encode(canvas[..], ClientLayout(options.style, load.width, load.height)), options.prompt, "client-side-enhanced")
    ensures r.Ok? ==> canvas[..] == Recolored(Effect(StyleTint(options.style)), old(canvas[..]))
  {
    var enhanced := EnhanceImageWithFilters(options.userImage, options.style, contextAvailable, load, canvas);
    match enhanced
    case Err(e) => r := Err(e);
    case Ok(rendering) => r := Ok(GenerationResult(encode(canvas[..], rendering), options.prompt, "client-side-enhanced"));
  }

  /** The rendering `processImage` produces for a loaded photo. */
  function AdvancedLayout(style: string, width: real, height: real): AdvancedRendering
    requires width > 0.0 && height > 0.0
  {
    AdvancedRendering(Letterbox(width, height), Overlays(1024, 1024), FinalEnhancements(style, 1024.0, 1024.0))
  }

  /** `AdvancedCanvasProcessor.processImage`: reject a missing 2D context, then a photo
      that fails to load; otherwise draw (progress 20), filter (40), overlay (60), finish
      (80) and encode (100). `progress` lists the values passed to `onProgress`, which
      is called only on success. */
  method ProcessImage(style: string, contextAvailable: bool, load: ImageLoad, wave: nat -> real,
                      canvas: array<Byte>, encode: (seq<Byte>, AdvancedRendering) -> string)
    returns (progress: seq<int>, r: Result<string, string>)
    requires canvas.Length == CanvasBytes
    requires SizedLoad(load)
    modifies canvas
    ensures !contextAvailable ==> r == Err("Could not get canvas context")
    ensures contextAvailable && load.LoadFailed? ==> r == Err("Failed to load image")
    ensures r.Ok? <==> contextAvailable && load.Loaded?
    ensures r.Err? ==> progress == [] && canvas[..] == old(canvas[..])
    ensures r.Ok? ==> progress == [20, 40, 60, 80, 100]
    ensures r.Ok? ==> canvas[..] == Recolored(Effect(AdvancedTint(style, wave)), old(canvas[..]))
                      && r.value == encode(canvas[..], AdvancedLayout(style, load.width, load.height))
  {
    progress := [];
    if !contextAvailable {
      return [], Err("Could not get canvas context");
    }
    match load
    case LoadFailed =>
      r := Err("Failed to load image");
    case Loaded(w, h) =>
      var rendering;
      progress, rendering := RenderLoadedImage(style, w, h, wave, canvas);
      r := Ok(encode(canvas[..], rendering));
  }

  /** The `onload` handler of `processImage`: draw (progress 20), filter (40), overlay
      (60), finish (80); the caller encodes (100). */
  method RenderLoadedImage(style: string, w: real, h: real, wave: nat -> real, canvas: array<Byte>)
    returns (progress: seq<int>, rendering: AdvancedRendering)
    requires canvas.Length == CanvasBytes
    requires w > 0.0 && h > 0.0
    modifies canvas
    ensures progress == [20, 40, 60, 80, 100]
    ensures canvas[..] == Recolored(Effect(AdvancedTint(style, wave)), old(canvas[..]))
    ensures rendering == AdvancedLayout(style, w, h)
  {
    progress := [20];
    var placement := Letterbox(w, h);
    progress := progress + [40];
    ApplyAILikeFilters(canvas, style, wave);
    progress := progress + [60];
    var overlay := AddEgyptianOverlays(1024, 1024);
    progress := progress + [80];
    var passes := FinalEnhancements(style, 1024.0, 1024.0);
    progress := progress + [100];
    rendering := AdvancedRendering(placement, overlay, passes);
  }
}
