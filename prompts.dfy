/** The five `enhancePrompt` methods. Each one is the template
    `<base><separator><fragment><suffix>`, where the fragment is looked up by style name
    in a fixed four-entry table (empty for any other name) and separator and suffix are
    fixed per provider. */
module Prompts {
  import opened Basics
  import opened StyleCatalog

  datatype Template = Template(separator: string, table: Style -> string, suffix: string)

  /** An `enhancePrompt`: the base prompt comes first, the suffix last, and what lies
      between the separator and the suffix is the style's fragment. */
  function Enhance(t: Template, base: string, style: string): (r: string)
    ensures |r| == |base| + |t.separator| + |Fragment(t.table, style)| + |t.suffix|
    ensures r[..|base|] == base
    ensures r[|base|..|base| + |t.separator|] == t.separator
    ensures r[|base| + |t.separator|..|r| - |t.suffix|] == Fragment(t.table, style)
    ensures r[|r| - |t.suffix|..] == t.suffix
  {
    var r := base + t.separator + Fragment(t.table, style) + t.suffix;
    assert r[..|base|] == base;
    assert r[|base|..|base| + |t.separator|] == t.separator;
    assert r[|base| + |t.separator|..|r| - |t.suffix|] == Fragment(t.table, style);
    r
  }

  /** Reading the fragment back out of a prompt built on a known base. */
  function FragmentOf(t: Template, base: string, prompt: string): string
    requires |base| + |t.separator| + |t.suffix| <= |prompt|
  {
    prompt[|base| + |t.separator|..|prompt| - |t.suffix|]
  }

  /** The fragment is recoverable from the prompt, so two styles give the same prompt
      on the same base exactly when they give the same fragment. */
  lemma EnhanceInjective(t: Template, base: string, s1: string, s2: string)
    ensures Enhance(t, base, s1) == Enhance(t, base, s2) <==> Fragment(t.table, s1) == Fragment(t.table, s2)
  {
    var p1, p2 := Enhance(t, base, s1), Enhance(t, base, s2);
    if p1 == p2 {
      assert FragmentOf(t, base, p1) == Fragment(t.table, s1);
      assert FragmentOf(t, base, p2) == Fragment(t.table, s2);
    }
  }

  /** A known style puts its own table entry into the prompt; every other name gives the
      prompt with an empty fragment, which differs from the prompt of every known style
      whose entry is non-empty. */
  lemma {:induction false} EnhanceKnownAndUnknown(t: Template, base: string, s: Style, other: string)
    requires ParseStyle(other).None?
    ensures FragmentOf(t, base, Enhance(t, base, StyleName(s))) == t.table(s)
    ensures Enhance(t, base, other) == base + t.separator + t.suffix
    ensures t.table(s) != "" ==> Enhance(t, base, StyleName(s)) != Enhance(t, base, other)
  {
    ParseStyleName(s);
    assert Fragment(t.table, StyleName(s)) == t.table(s);
    EnhanceInjective(t, base, StyleName(s), other);
    assert Enhance(t, base, other) == base + t.separator + "" + t.suffix;
  }

  /** `HuggingFaceFreeProvider.enhancePrompt`. */
  function HuggingFaceStyles(s: Style): string {
    match s
    case NeonGlow => "neon lighting, glowing effects, vibrant electric colors, cyberpunk aesthetic, fluorescent"
    case DarkGold => "golden metallic, dark atmosphere, ancient Egyptian luxury, ornate decorations"
    case CyberpunkBlue => "electric blue, futuristic technology, digital matrix, sci-fi lighting"
    case CosmicPurple => "cosmic purple, space nebula, mystical starfield, ethereal glow"
  }

  const HuggingFaceTemplate: Template :=
    Template(", ", HuggingFaceStyles, ", highly detailed, professional digital art, masterpiece, 8k quality")

  /** `PollinationsProvider.enhancePrompt`. */
  function PollinationsStyles(s: Style): string {
    match s
    case NeonGlow => "neon cyberpunk style, glowing edges, electric colors, futuristic lighting"
    case DarkGold => "ancient Egyptian gold, dark mysterious atmosphere, pharaoh luxury, ornate details"
    case CyberpunkBlue => "electric blue cyberpunk, digital matrix, futuristic technology, neon blue"
    case CosmicPurple => "cosmic space theme, purple nebula, mystical starfield, ethereal glow"
  }

  const PollinationsTemplate: Template :=
    Template(" in ", PollinationsStyles, ", highly detailed digital art, professional quality, centered composition")

  /** `OpenAIProvider.enhancePrompt`. */
  function OpenAIStyles(s: Style): string {
    match s
    case NeonGlow => "with vibrant neon colors, glowing effects, electric atmosphere, cyberpunk lighting"
    case DarkGold => "with rich golden tones, dark shadows, luxurious metallic textures, ancient Egyptian opulence"
    case CyberpunkBlue => "with electric blue accents, futuristic elements, digital matrix effects, sci-fi atmosphere"
    case CosmicPurple => "with deep purple cosmic themes, space nebula backgrounds, mystical starry effects"
  }

  const OpenAITemplate: Template :=
    Template(" ", OpenAIStyles, ". High quality, detailed digital art, professional avatar, 1:1 aspect ratio")

  /** `StabilityAIProvider.enhancePrompt`. */
  function StabilityStyles(s: Style): string {
    match s
    case NeonGlow => "neon, glowing, vibrant colors, electric, cyberpunk"
    case DarkGold => "gold, metallic, dark, luxurious, ancient Egyptian"
    case CyberpunkBlue => "blue, electric, futuristic, digital, sci-fi"
    case CosmicPurple => "purple, cosmic, space, nebula, mystical"
  }

  const StabilityTemplate: Template :=
    Template(", ", StabilityStyles, ", high quality, detailed, professional avatar")

  /** `ReplicateProvider.enhancePrompt`. */
  function ReplicateStyles(s: Style): string {
    match s
    case NeonGlow => "neon lighting, glowing effects, vibrant colors, cyberpunk aesthetic"
    case DarkGold => "golden tones, dark atmosphere, luxurious, ancient Egyptian style"
    case CyberpunkBlue => "electric blue, futuristic, digital art, sci-fi aesthetic"
    case CosmicPurple => "cosmic purple, space theme, nebula background, mystical"
  }

  const ReplicateTemplate: Template :=
    Template(", ", ReplicateStyles, ", highly detailed, professional quality, digital art")
}
