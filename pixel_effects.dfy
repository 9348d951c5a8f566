/** The per-pixel colour effects of the canvas fallback. Each effect walks an RGBA
    byte buffer four bytes at a time and rewrites the red, green and blue byte of
    every pixel from that pixel alone; the alpha byte is never written. A value is
    stored into the `Uint8ClampedArray` after `Math.min(255, …)`; the store clamps to
    0..255 and rounds to the nearest integer, ties to even. Coefficients such as 1.2
    are exact rationals here. */
module PixelEffects {
  import opened Basics
  import opened StyleCatalog

  /** Round to the nearest integer, ties to the even neighbour. */
  function RoundHalfEven(v: real): int {
    var f := v.Floor;
    var d := v - f as real;
    if d < 0.5 then f
    else if d > 0.5 then f + 1
    else if f % 2 == 0 then f else f + 1
  }

  /** Storing a number into a `Uint8ClampedArray` element. */
  function ClampToByte(v: real): Byte {
    if v <= 0.0 then 0
    else if v >= 255.0 then 255
    else RoundHalfEven(v)
  }

  /** `Math.min(255, v)`. */
  function Min255(v: real): real {
    if 255.0 < v then 255.0 else v
  }

  /** One channel assignment `data[j] = Math.min(255, v)`. */
  function Channel(v: real): Byte {
    ClampToByte(Min255(v))
  }

  /** Rounding picks an integer within one half, and the even one on a tie. */
  lemma RoundHalfEvenIsNearest(v: real)
    ensures RoundHalfEven(v) as real - 0.5 <= v <= RoundHalfEven(v) as real + 0.5
    ensures (v == RoundHalfEven(v) as real - 0.5 || v == RoundHalfEven(v) as real + 0.5) ==>
      RoundHalfEven(v) % 2 == 0
  {
  }

  /** A channel assignment stores 0 for a value at most 0, 255 for a value at least 255,
      and otherwise a byte within one half of the value. */
  lemma ChannelIsNearest(v: real)
    ensures v <= 0.0 ==> Channel(v) == 0
    ensures v >= 255.0 ==> Channel(v) == 255
    ensures 0.0 < v < 255.0 ==> Channel(v) as real - 0.5 <= v <= Channel(v) as real + 0.5
  {
    RoundHalfEvenIsNearest(v);
  }

  /** The store is monotone. */
  lemma {:induction false} ClampMonotone(x: real, y: real)
    requires x <= y
    ensures ClampToByte(x) <= ClampToByte(y)
  {
    if 0.0 < x && y < 255.0 {
      var fx, fy := x.Floor, y.Floor;
      assert fx as real <= x < fx as real + 1.0;
      assert fy as real <= y < fy as real + 1.0;
      assert fx <= fy;
      if fx == fy {
        assert x - fx as real <= y - fy as real;
      } else {
        assert RoundHalfEven(x) <= fx + 1 <= fy <= RoundHalfEven(y);
      }
    }
  }

  /** A byte value is stored unchanged. */
  lemma ClampExact(n: Byte)
    ensures ClampToByte(n as real) == n
  {
    assert (n as real).Floor == n;
  }

  lemma ChannelMonotone(x: real, y: real)
    requires x <= y
    ensures Channel(x) <= Channel(y)
  {
    ClampMonotone(Min255(x), Min255(y));
  }

  /** A channel whose value is at least the byte `c` is stored as at least `c`. */
  lemma ChannelAtLeast(v: real, c: Byte)
    requires c as real <= v
    ensures Channel(v) >= c
  {
    ClampExact(c);
    ChannelMonotone(c as real, v);
    assert Channel(c as real) == c;
  }

  /** A channel whose value is at most the byte `c` is stored as at most `c`. */
  lemma ChannelAtMost(v: real, c: Byte)
    requires v <= c as real
    ensures Channel(v) <= c
  {
    ClampExact(c);
    ChannelMonotone(v, c as real);
    assert Channel(c as real) == c;
  }

  datatype Rgb = Rgb(r: Byte, g: Byte, b: Byte)

  /** `(r + g + b) / 3`. */
  function Brightness(p: Rgb): real {
    (p.r + p.g + p.b) as real / 3.0
  }

  /** The colour effects: four of `ClientSideAIProvider`, four cases of
      `AdvancedCanvasProcessor.applyAILikeFilters` and the identity of a style without a
      case. `wave(i)` is `Math.sin(i * 0.01)` at byte offset `i`, left abstract. */
  datatype Tint =
    | Neon | Gold | Cyberpunk | Cosmic
    | AdvancedNeon(wave: nat -> real) | AdvancedGold | AdvancedCyberpunk | AdvancedCosmic
    | Unchanged

  /** The new colour of the pixel that starts at byte offset `offset`. */
  function TintPixel(t: Tint, offset: nat, p: Rgb): Rgb {
    var r, g, b := p.r as real, p.g as real, p.b as real;
    match t
    case Neon => Rgb(Channel(r * 1.2 + 30.0), Channel(g * 1.1 + 50.0), Channel(b * 1.3 + 70.0))
    case Gold =>
      var br := Brightness(p);
      Rgb(Channel(br * 1.2 + 40.0), Channel(br * 1.0 + 30.0), Channel(br * 0.6))
    case Cyberpunk => Rgb(Channel(r * 0.7), Channel(g * 0.9 + 20.0), Channel(b * 1.4 + 50.0))
    case Cosmic => Rgb(Channel(r * 1.1 + 30.0), Channel(g * 0.8), Channel(b * 1.3 + 40.0))
    case AdvancedNeon(wave) =>
      Rgb(Channel(r * 1.2 + wave(offset) * 30.0), Channel(g * 1.1 + 40.0), Channel(b * 1.4 + 60.0))
    case AdvancedGold =>
      var br := Brightness(p);
      Rgb(Channel(br * 1.3 + 50.0), Channel(br * 1.1 + 30.0), Channel(br * 0.6 + 10.0))
    case AdvancedCyberpunk => Rgb(Channel(r * 0.7 + 20.0), Channel(g * 0.9 + 30.0), Channel(b * 1.5 + 70.0))
    case AdvancedCosmic => Rgb(Channel(r * 1.2 + 40.0), Channel(g * 0.8 + 10.0), Channel(b * 1.4 + 60.0))
    case Unchanged => p
  }

  /** The effect `ClientSideAIProvider.applyStyleEnhancements` selects by its `switch`. */
  function StyleTint(style: string): (t: Tint)
    ensures ParseStyle(style).None? ==> t.Unchanged?
  {
    match ParseStyle(style)
    case Some(NeonGlow) => Neon
    case Some(DarkGold) => Gold
    case Some(CyberpunkBlue) => Cyberpunk
    case Some(CosmicPurple) => Cosmic
    case None => Unchanged
  }

  /** The effect of `applyAILikeFilters`'s `switch` inside its loop. */
  function AdvancedTint(style: string, wave: nat -> real): (t: Tint)
    ensures ParseStyle(style).None? ==> t.Unchanged?
  {
    match ParseStyle(style)
    case Some(NeonGlow) => AdvancedNeon(wave)
    case Some(DarkGold) => AdvancedGold
    case Some(CyberpunkBlue) => AdvancedCyberpunk
    case Some(CosmicPurple) => AdvancedCosmic
    case None => Unchanged
  }

  /** The lowest value each channel of an effect can take (its additive offsets). */
  function Floors(t: Tint): Rgb {
    match t
    case Neon => Rgb(30, 50, 70)
    case Gold => Rgb(40, 30, 0)
    case Cyberpunk => Rgb(0, 20, 50)
    case Cosmic => Rgb(30, 0, 40)
    case AdvancedNeon(_) => Rgb(0, 40, 60)
    case AdvancedGold => Rgb(50, 30, 10)
    case AdvancedCyberpunk => Rgb(20, 30, 70)
    case AdvancedCosmic => Rgb(40, 10, 60)
    case Unchanged => Rgb(0, 0, 0)
  }

  /** Every written channel is at least the effect's offset (and at most 255 by type). */
  lemma TintFloors(t: Tint, offset: nat, p: Rgb)
    ensures TintPixel(t, offset, p).r >= Floors(t).r
    ensures TintPixel(t, offset, p).g >= Floors(t).g
    ensures TintPixel(t, offset, p).b >= Floors(t).b
  {
    if t.Neon? || t.Gold? || t.Cyberpunk? || t.Cosmic? {
      BasicTintFloors(t, offset, p);
    } else if !t.Unchanged? {
      AdvancedTintFloors(t, offset, p);
    }
  }

  /** The floors of the four basic effects. */
  lemma BasicTintFloors(t: Tint, offset: nat, p: Rgb)
    requires t.Neon? || t.Gold? || t.Cyberpunk? || t.Cosmic?
    ensures TintPixel(t, offset, p).r >= Floors(t).r
    ensures TintPixel(t, offset, p).g >= Floors(t).g
    ensures TintPixel(t, offset, p).b >= Floors(t).b
  {
    var r, g, b, br := p.r as real, p.g as real, p.b as real, Brightness(p);
    match t
    case Neon =>
      ChannelAtLeast(r * 1.2 + 30.0, 30);
      ChannelAtLeast(g * 1.1 + 50.0, 50);
      ChannelAtLeast(b * 1.3 + 70.0, 70);
    case Gold =>
      ChannelAtLeast(br * 1.2 + 40.0, 40);
      ChannelAtLeast(br * 1.0 + 30.0, 30);
    case Cyberpunk =>
      ChannelAtLeast(g * 0.9 + 20.0, 20);
      ChannelAtLeast(b * 1.4 + 50.0, 50);
    case Cosmic =>
      ChannelAtLeast(r * 1.1 + 30.0, 30);
      ChannelAtLeast(b * 1.3 + 40.0, 40);
  }

  /** The floors of the four effects of the advanced pipeline. */
  lemma AdvancedTintFloors(t: Tint, offset: nat, p: Rgb)
    requires t.AdvancedNeon? || t.AdvancedGold? || t.AdvancedCyberpunk? || t.AdvancedCosmic?
    ensures TintPixel(t, offset, p).r >= Floors(t).r
    ensures TintPixel(t, offset, p).g >= Floors(t).g
    ensures TintPixel(t, offset, p).b >= Floors(t).b
  {
    var r, g, b, br := p.r as real, p.g as real, p.b as real, Brightness(p);
    match t
    case AdvancedNeon(_) =>
      ChannelAtLeast(g * 1.1 + 40.0, 40);
      ChannelAtLeast(b * 1.4 + 60.0, 60);
    case AdvancedGold =>
      ChannelAtLeast(br * 1.3 + 50.0, 50);
      ChannelAtLeast(br * 1.1 + 30.0, 30);
      ChannelAtLeast(br * 0.6 + 10.0, 10);
    case AdvancedCyberpunk =>
      ChannelAtLeast(r * 0.7 + 20.0, 20);
      ChannelAtLeast(g * 0.9 + 30.0, 30);
      ChannelAtLeast(b * 1.5 + 70.0, 70);
    case AdvancedCosmic =>
      ChannelAtLeast(r * 1.2 + 40.0, 40);
      ChannelAtLeast(g * 0.8 + 10.0, 10);
      ChannelAtLeast(b * 1.4 + 60.0, 60);
  }

  /** Both gold effects give red >= green >= blue for every pixel. */
  lemma GoldOrdered(t: Tint, offset: nat, p: Rgb)
    requires t.Gold? || t.AdvancedGold?
    ensures TintPixel(t, offset, p).r >= TintPixel(t, offset, p).g >= TintPixel(t, offset, p).b
  {
    var br := Brightness(p);
    assert br >= 0.0;
    if t.Gold? {
      GoldChannels(offset, p);
      OrderedChannels(br * 0.6, br * 1.0 + 30.0, br * 1.2 + 40.0);
    } else {
      AdvancedGoldChannels(offset, p);
      OrderedChannels(br * 0.6 + 10.0, br * 1.1 + 30.0, br * 1.3 + 50.0);
    }
  }

  /** The three channels of the gold effect, all computed from the brightness. */
  lemma GoldChannels(offset: nat, p: Rgb)
    ensures var br := Brightness(p);
      TintPixel(Gold, offset, p) == Rgb(Channel(br * 1.2 + 40.0), Channel(br * 1.0 + 30.0), Channel(br * 0.6))
  {
  }

  /** The three channels of the advanced gold effect, all computed from the brightness. */
  lemma AdvancedGoldChannels(offset: nat, p: Rgb)
    ensures var br := Brightness(p);
      TintPixel(AdvancedGold, offset, p) == Rgb(Channel(br * 1.3 + 50.0), Channel(br * 1.1 + 30.0), Channel(br * 0.6 + 10.0))
  {
  }

  /** Ordered values are stored as ordered bytes. */
  lemma OrderedChannels(lo: real, mid: real, hi: real)
    requires lo <= mid <= hi
    ensures Channel(lo) <= Channel(mid) <= Channel(hi)
  {
    ChannelMonotone(lo, mid);
    ChannelMonotone(mid, hi);
  }

  /** A gold pixel depends on its colour only through the channel mean. */
  lemma GoldDependsOnlyOnMean(t: Tint, o1: nat, o2: nat, p: Rgb, q: Rgb)
    requires t.Gold? || t.AdvancedGold?
    requires p.r + p.g + p.b == q.r + q.g + q.b
    ensures TintPixel(t, o1, p) == TintPixel(t, o2, q)
  {
  }

  /** The cyberpunk effect never raises red; the cosmic effect never raises green. */
  lemma DimmedChannels(offset: nat, p: Rgb)
    ensures TintPixel(Cyberpunk, offset, p).r <= p.r
    ensures TintPixel(Cosmic, offset, p).g <= p.g
  {
    ChannelAtMost(p.r as real * 0.7, p.r);
    ChannelAtMost(p.g as real * 0.8, p.g);
  }

  /** The colour of the pixel whose red byte is at offset `i`. */
  function PixelAt(s: seq<Byte>, i: nat): Rgb
    requires i + 2 < |s|
  {
    Rgb(s[i], s[i + 1], s[i + 2])
  }

  /** A per-pixel colour rewrite: the new colour of the pixel at a byte offset. */
  type PixelMap = (nat, Rgb) -> Rgb

  /** The rewrite an effect performs. */
  function Effect(t: Tint): PixelMap {
    (offset: nat, p: Rgb) => TintPixel(t, offset, p)
  }

  /** The buffer after a rewrite, pixel by pixel: the three colour bytes of each pixel
      are replaced by its new colour and its alpha byte is kept. */
  function Recolored(f: PixelMap, s: seq<Byte>): (out: seq<Byte>)
    requires |s| % 4 == 0
    ensures |out| == |s|
    decreases |s|
  {
    if |s| == 0 then []
    else
      var i := |s| - 4;
      var p := f(i, PixelAt(s, i));
      Recolored(f, s[..i]) + [p.r, p.g, p.b, s[i + 3]]
  }

  /** Alpha bytes are preserved and each pixel's new colour is its tint at its offset. */
  lemma {:induction false} RecoloredPixel(f: PixelMap, s: seq<Byte>, i: nat)
    requires |s| % 4 == 0 && i < |s| && i % 4 == 0
    ensures Recolored(f, s)[i + 3] == s[i + 3]
    ensures PixelAt(Recolored(f, s), i) == f(i, PixelAt(s, i))
    decreases |s|
  {
    var n := |s| - 4;
    var prefix := Recolored(f, s[..n]);
    assert |prefix| == n;
    if i < n {
      RecoloredPixel(f, s[..n], i);
      assert PixelAt(s[..n], i) == PixelAt(s, i);
      assert Recolored(f, s)[i..i + 4] == prefix[i..i + 4];
    }
  }

  /** Pixels are independent: two buffers that agree on one pixel's input bytes agree on
      that pixel's output bytes, whatever the other pixels hold. */
  lemma RecoloredIsLocal(f: PixelMap, s1: seq<Byte>, s2: seq<Byte>, i: nat)
    requires |s1| % 4 == 0 && |s2| % 4 == 0 && i % 4 == 0 && i < |s1| && i < |s2|
    requires PixelAt(s1, i) == PixelAt(s2, i) && s1[i + 3] == s2[i + 3]
    ensures PixelAt(Recolored(f, s1), i) == PixelAt(Recolored(f, s2), i)
    ensures Recolored(f, s1)[i + 3] == Recolored(f, s2)[i + 3]
  {
    RecoloredPixel(f, s1, i);
    RecoloredPixel(f, s2, i);
  }

  /** An effect that writes every byte back as it was changes nothing. */
  lemma {:induction false} RecoloredUnchanged(s: seq<Byte>)
    requires |s| % 4 == 0
    ensures Recolored(Effect(Unchanged), s) == s
    decreases |s|
  {
    if |s| > 0 {
      var n := |s| - 4;
      RecoloredUnchanged(s[..n]);
      assert Effect(Unchanged)(n, PixelAt(s, n)) == PixelAt(s, n);
      assert s == s[..n] + [s[n], s[n + 1], s[n + 2], s[n + 3]];
    }
  }

  /** Every pixel of a gold buffer has red >= green >= blue. */
  lemma GoldBufferOrdered(t: Tint, s: seq<Byte>)
    requires t.Gold? || t.AdvancedGold?
    requires |s| % 4 == 0
    ensures var out := Recolored(Effect(t), s);
      forall i :: 0 <= i < |s| && i % 4 == 0 ==> out[i] >= out[i + 1] >= out[i + 2]
  {
    var out := Recolored(Effect(t), s);
    forall i | 0 <= i < |s| && i % 4 == 0
      ensures out[i] >= out[i + 1] >= out[i + 2]
    {
      GoldPixelOrdered(t, s, i);
    }
  }

  /** One pixel of a gold buffer has red >= green >= blue. */
  lemma GoldPixelOrdered(t: Tint, s: seq<Byte>, i: nat)
    requires t.Gold? || t.AdvancedGold?
    requires |s| % 4 == 0 && i < |s| && i % 4 == 0
    ensures var out := Recolored(Effect(t), s);
      i + 2 < |out| && out[i] >= out[i + 1] >= out[i + 2]
  {
    var p := PixelAt(s, i);
    GoldOrdered(t, i, p);
    assert Effect(t)(i, p) == TintPixel(t, i, p);
    OrderedPixelStaysOrdered(Effect(t), s, i);
  }

  /** A rewrite that orders one pixel's channels leaves that pixel's bytes ordered. */
  lemma OrderedPixelStaysOrdered(f: PixelMap, s: seq<Byte>, i: nat)
    requires |s| % 4 == 0 && i < |s| && i % 4 == 0
    requires f(i, PixelAt(s, i)).r >= f(i, PixelAt(s, i)).g >= f(i, PixelAt(s, i)).b
    ensures var out := Recolored(f, s);
      i + 2 < |out| && out[i] >= out[i + 1] >= out[i + 2]
  {
    RecoloredPixel(f, s, i);
  }

  /** The shared loop `for (let i = 0; i < data.length; i += 4)` that reads one pixel and
      writes its three colour bytes. */
  method RecolorPixels(data: array<Byte>, f: PixelMap)
    requires data.Length % 4 == 0
    modifies data
    ensures data[..] == Recolored(f, old(data[..]))
  {
    ghost var s := data[..];
    ghost var out := Recolored(f, s);
    var i := 0;
    while i < data.Length
      invariant 0 <= i <= data.Length && i % 4 == 0
      invariant forall k :: 0 <= k < i ==> data[k] == out[k]
      invariant forall k :: i <= k < data.Length ==> data[k] == s[k]
    {
      RecoloredPixel(f, s, i);
      var p := f(i, Rgb(data[i], data[i + 1], data[i + 2]));
      data[i] := p.r;
      data[i + 1] := p.g;
      data[i + 2] := p.b;
      i := i + 4;
    }
  }

  /** `ClientSideAIProvider.applyNeonEffect`. */
  method ApplyNeonEffect(data: array<Byte>)
    requires data.Length % 4 == 0
    modifies data
    ensures data[..] == Recolored(Effect(Neon), old(data[..]))
  {
    RecolorPixels(data, Effect(Neon));
  }

  /** `ClientSideAIProvider.applyGoldEffect`. */
  method ApplyGoldEffect(data: array<Byte>)
    requires data.Length % 4 == 0
    modifies data
    ensures data[..] == Recolored(Effect(Gold), old(data[..]))
  {
    RecolorPixels(data, Effect(Gold));
  }

  /** `ClientSideAIProvider.applyCyberpunkEffect`. */
  method ApplyCyberpunkEffect(data: array<Byte>)
    requires data.Length % 4 == 0
    modifies data
    ensures data[..] == Recolored(Effect(Cyberpunk), old(data[..]))
  {
    RecolorPixels(data, Effect(Cyberpunk));
  }

  /** `ClientSideAIProvider.applyCosmicEffect`. */
  method ApplyCosmicEffect(data: array<Byte>)
    requires data.Length % 4 == 0
    modifies data
    ensures data[..] == Recolored(Effect(Cosmic), old(data[..]))
  {
    RecolorPixels(data, Effect(Cosmic));
  }

  /** The pixel loop of `AdvancedCanvasProcessor.applyAILikeFilters`: one pass, the
      `switch` inside it; a style without a case writes nothing. */
  method ApplyAILikeFilters(data: array<Byte>, style: string, wave: nat -> real)
    requires data.Length % 4 == 0
    modifies data
    ensures data[..] == Recolored(Effect(AdvancedTint(style, wave)), old(data[..]))
    ensures ParseStyle(style).None? ==> data[..] == old(data[..])
  {
    RecoloredUnchanged(data[..]);
    RecolorPixels(data, Effect(AdvancedTint(style, wave)));
  }
}
