/** The Bayer Web Worker (app/utils/dither-worker.ts): the same pass as the
    main thread, with its own copy of the table and of the nearest-colour
    search, and a per-message memo of search results keyed by packed RGB. */
module DitherWorker {
  import opened Pixels
  import Dithering

  /** The worker's own copy of bayerThresholdMap. */
  const BayerThresholdMap: seq<seq<int>> := [
    [15, 135, 45, 165],
    [195, 75, 225, 105],
    [60, 180, 30, 150],
    [240, 120, 210, 90]
  ]

  /** The copy agrees with the main-thread table entry by entry. */
  lemma SameTableAsMainThread()
    ensures BayerThresholdMap == Dithering.BayerThresholdMap
  {
  }

  /** bayerThresholdMap[x % 4][y % 4]: the worker reads the main thread's
      threshold for every pixel. */
  function Threshold(x: int, y: int): (t: int)
    ensures t == Dithering.Threshold(x, y)
  {
    BayerThresholdMap[x % 4][y % 4]
  }

  /** getClosestColor(colors, r, g, b): the same first-wins linear scan as
      the main thread's, over the channels given one by one. */
  method GetClosestColor(colors: seq<IndexedColor>, r: byte, g: byte, b: byte) returns (closest: IndexedColor)
    requires |colors| > 0
    ensures closest == Dithering.Nearest(colors, Color(r, g, b))
    ensures closest in colors
    ensures forall c :: c in colors ==> SqDist(Color(r, g, b), closest.color) <= SqDist(Color(r, g, b), c.color)
  {
    var minDist := Dithering.Unreached;
    closest := colors[0];
    for i := 0 to |colors|
      invariant i == 0 ==> minDist == Dithering.Unreached && closest == colors[0]
      invariant i > 0 ==> closest == colors[Dithering.FirstNearest(colors, Color(r, g, b), i)]
      invariant i > 0 ==> minDist == SqDist(Color(r, g, b), closest.color)
    {
      var c := colors[i];
      var dist := SqDist(Color(r, g, b), c.color);
      Dithering.SqDistBelowUnreached(Color(r, g, b), c.color);
      if dist < minDist {
        minDist := dist;
        closest := c;
      }
    }
  }

  // ---------------------------------------------------------------------------
  // The packed cache key

  /** (r << 16) | (g << 8) | b, read as the number it denotes. */
  function PackedKey(c: Color): (k: int)
    ensures 0 <= k < 0x100_0000
    ensures KeyColor(k) == c
  {
    Unpack(c.r as int, c.g as int, c.b as int);
    c.r as int * 0x1_0000 + c.g as int * 0x100 + c.b as int
  }

  lemma Unpack(r: int, g: int, b: int)
    requires 0 <= r < 256 && 0 <= g < 256 && 0 <= b < 256
    ensures var k := r * 0x1_0000 + g * 0x100 + b;
      && 0 <= k < 0x100_0000
      && k / 0x1_0000 == r && (k / 0x100) % 0x100 == g && k % 0x100 == b
  {
    var k := r * 0x1_0000 + g * 0x100 + b;
    var q := r * 0x100 + g;
    assert k == q * 0x100 + b;
    assert k / 0x100 == q && k % 0x100 == b;
    assert q / 0x100 == r && q % 0x100 == g;
    assert k / 0x1_0000 == q / 0x100;
  }

  /** The colour a key in 0 .. 2^24 - 1 unpacks to: bits 16..23, 8..15, 0..7. */
  function KeyColor(k: int): Color
    requires 0 <= k < 0x100_0000
  {
    Color((k / 0x1_0000) as byte, ((k / 0x100) % 0x100) as byte, (k % 0x100) as byte)
  }

  /** For channels below 256 the shifted fields do not overlap, so the bitwise
      or in the source is the sum PackedKey uses; no shift reaches the sign
      bit of the 32-bit integers JavaScript shifts on. */
  lemma OrIsSum(r: bv32, g: bv32, b: bv32)
    requires r < 256 && g < 256 && b < 256
    ensures (r << 16) | (g << 8) | b == r * 0x1_0000 + g * 0x100 + b
    ensures r * 0x1_0000 + g * 0x100 + b < 0x100_0000
  {
  }

  /** Different colours never share a cache slot, and every key in the range
      is the key of exactly one colour. */
  lemma PackedKeyInjective(a: Color, b: Color)
    ensures PackedKey(a) == PackedKey(b) <==> a == b
  {
    if PackedKey(a) == PackedKey(b) {
      assert a == KeyColor(PackedKey(a)) == KeyColor(PackedKey(b)) == b;
    }
  }

  lemma PackedKeyOnto(k: int)
    requires 0 <= k < 0x100_0000
    ensures PackedKey(KeyColor(k)) == k
  {
    var q := k / 0x100;
    assert k == q * 0x100 + k % 0x100;
    assert q == (q / 0x100) * 0x100 + q % 0x100;
    assert q / 0x100 == k / 0x1_0000;
    assert k == (k / 0x1_0000) * 0x1_0000 + (q % 0x100) * 0x100 + k % 0x100;
  }

  /** The cache invariant: every colour whose key is stored maps to what an
      uncached search for that colour returns. */
  ghost predicate CacheSound(cache: map<int, IndexedColor>, colors: seq<IndexedColor>) {
    forall c: Color {:trigger PackedKey(c) in cache} ::
      PackedKey(c) in cache ==> |colors| > 0 && cache[PackedKey(c)] == Dithering.Nearest(colors, c)
  }

  /** Storing a fresh search result keeps the invariant. */
  lemma CacheInsert(cache: map<int, IndexedColor>, colors: seq<IndexedColor>, c: Color, e: IndexedColor)
    requires CacheSound(cache, colors)
    requires |colors| > 0 && e == Dithering.Nearest(colors, c)
    ensures CacheSound(cache[PackedKey(c) := e], colors)
  {
    forall c' | PackedKey(c') in cache[PackedKey(c) := e]
      ensures cache[PackedKey(c) := e][PackedKey(c')] == Dithering.Nearest(colors, c')
    {
      PackedKeyInjective(c, c');
    }
  }

  /** onmessage: the pass over the transferred buffer. `blockSize` and
      `bayerSize` arrive with the message but are never read. A message with
      an empty palette and at least one whole pixel makes the worker throw at
      the first pixel before writing it; no reply is sent (`ok` is false). */
  method OnMessage(pixels: array<byte>, width: nat, height: nat, palette: seq<Color>, blockSize: int, bayerSize: int)
    returns (ok: bool, replyWidth: nat, replyHeight: nat)
    requires width > 0
    modifies pixels
    ensures ok <==> Dithering.CanDither(pixels.Length, palette)
    ensures ok ==> pixels[..] == Dithering.BayerPass(old(pixels[..]), width, palette)
    ensures !ok ==> pixels[..] == old(pixels[..])
    ensures ok ==> replyWidth == width && replyHeight == height
  {
    ghost var orig := pixels[..];
    var data := pixels;
    var len := data.Length;
    var colorCache: map<int, IndexedColor> := map[];
    var indexedPalette := Indexed(palette);
    var i: nat := 0;
    while i <= len - 4
      invariant i % 4 == 0 && i <= WholePixelBytes(len)
      invariant Dithering.PassedUpTo(orig, data[..], width, palette, i)
      invariant CacheSound(colorCache, indexedPalette)
    {
      var pix := i / 4;
      assert i == 4 * pix;
      var x := pix % width;
      var y := pix / width;
      var threshold := Threshold(x, y);
      var r := Dithering.Blend(data[i], threshold);
      var g := Dithering.Blend(data[i + 1], threshold);
      var b := Dithering.Blend(data[i + 2], threshold);
      assert Color(r, g, b) == Dithering.BlendColor(PixelAt(orig, pix), Dithering.Threshold(x, y)) by {
        Dithering.UntouchedPixel(orig, data[..], width, palette, pix);
      }
      var key := PackedKey(Color(r, g, b));
      var closest: IndexedColor;
      if key in colorCache {
        closest := colorCache[key];
      } else {
        if |indexedPalette| == 0 {
          // getClosestColor returns undefined and reading its channels throws
          ok, replyWidth, replyHeight := false, 0, 0;
          return;
        }
        closest := GetClosestColor(indexedPalette, r, g, b);
        CacheInsert(colorCache, indexedPalette, Color(r, g, b), closest);
        colorCache := colorCache[key := closest];
      }
      ghost var before := data[..];
      data[i] := closest.color.r;
      data[i + 1] := closest.color.g;
      data[i + 2] := closest.color.b;
      assert data[..] == before[4 * pix := closest.color.r][4 * pix + 1 := closest.color.g][4 * pix + 2 := closest.color.b];
      Dithering.PassStep(orig, before, width, palette, pix, closest.color);
      Dithering.NextWholePixel(i, len);
      i := i + 4;
    }
    Dithering.LastWholePixel(i, len);
    Dithering.PassDone(orig, data[..], width, palette, i);
    ok, replyWidth, replyHeight := true, width, height;
  }
}
