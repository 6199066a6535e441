/** Raw pixels: bytes, colours and indexed palette entries. */
module Pixels {
  /** One element of a Uint8ClampedArray (ImageData.data). */
  newtype byte = x: int | 0 <= x < 256

  /** An RGB colour; the alpha channel is never part of a palette. */
  datatype Color = Color(r: byte, g: byte, b: byte)

  /** An entry [id, r, g, b] of an indexed palette. */
  datatype IndexedColor = IndexedColor(index: nat, color: Color)

  /** palette.map((color, id) => [id, ...color]) */
  function Indexed(palette: seq<Color>): (ip: seq<IndexedColor>)
    ensures |ip| == |palette|
    ensures forall i :: 0 <= i < |ip| ==> ip[i] == IndexedColor(i, palette[i])
  {
    seq(|palette|, i requires 0 <= i < |palette| => IndexedColor(i, palette[i]))
  }

  function Channel(c: Color, i: nat): byte
    requires i < 3
  {
    if i == 0 then c.r else if i == 1 then c.g else c.b
  }

  /** The RGB part of the whole pixel p of an RGBA buffer. */
  function PixelAt(s: seq<byte>, p: nat): Color
    requires 4 * p + 3 <= |s|
  {
    Color(s[4 * p], s[4 * p + 1], s[4 * p + 2])
  }

  /** The number of bytes that belong to whole RGBA pixels. */
  function WholePixelBytes(n: nat): nat {
    n - n % 4
  }

  /** Squared Euclidean distance in RGB space, written as the source writes
      it: (r2 - r1)**2 + (g2 - g1)**2 + (b2 - b1)**2 for target 2 and entry 1. */
  function SqDist(a: Color, b: Color): int {
    (a.r as int - b.r as int) * (a.r as int - b.r as int) +
    (a.g as int - b.g as int) * (a.g as int - b.g as int) +
    (a.b as int - b.b as int) * (a.b as int - b.b as int)
  }
}

/** The main-thread Bayer pass (app/utils/dithering.ts): the nearest-colour
    search, the fixed 4x4 threshold table and the in-place pixel loop. */
module Dithering {
  import opened Pixels

  // ---------------------------------------------------------------------------
  // Nearest colour

  /** The position of the first entry at minimum distance from t among the
      first n entries: the entry a left-to-right scan that replaces its
      candidate only on a strictly smaller distance ends with. */
  function FirstNearest(colors: seq<IndexedColor>, t: Color, n: nat): (k: nat)
    requires 0 < n <= |colors|
    ensures k < n
    ensures forall j :: 0 <= j < n ==> SqDist(t, colors[k].color) <= SqDist(t, colors[j].color)
    ensures forall j :: 0 <= j < k ==> SqDist(t, colors[k].color) < SqDist(t, colors[j].color)
  {
    if n == 1 then 0
    else
      var k := FirstNearest(colors, t, n - 1);
      if SqDist(t, colors[n - 1].color) < SqDist(t, colors[k].color) then n - 1 else k
  }

  /** Reference definition of the search result: a closest entry that is
      strictly closer than every entry before it. */
  ghost predicate IsFirstNearest(colors: seq<IndexedColor>, t: Color, k: nat) {
    && k < |colors|
    && (forall j :: 0 <= j < |colors| ==> SqDist(t, colors[k].color) <= SqDist(t, colors[j].color))
    && (forall j :: 0 <= j < k ==> SqDist(t, colors[k].color) < SqDist(t, colors[j].color))
  }

  /** The scan's result is exactly the entry the reference definition picks. */
  lemma FirstNearestIsReference(colors: seq<IndexedColor>, t: Color, k: nat)
    requires |colors| > 0
    ensures IsFirstNearest(colors, t, k) <==> k == FirstNearest(colors, t, |colors|)
  {
  }

  function Nearest(colors: seq<IndexedColor>, t: Color): IndexedColor
    requires |colors| > 0
  {
    colors[FirstNearest(colors, t, |colors|)]
  }

  /** Larger than every squared distance between two colours: the search's
      initial `Infinity`. */
  const Unreached: nat := 3 * 255 * 255 + 1

  lemma SquareBelow(d: int)
    requires -255 <= d <= 255
    ensures d * d <= 255 * 255
  {
    var a := if d < 0 then -d else d;
    assert d * d == a * a;
    assert a * a <= 255 * a by { MultiplyBelow(a, 255, a); }
    assert 255 * a <= 255 * 255 by { MultiplyBelow(a, 255, 255); }
  }

  lemma MultiplyBelow(a: nat, b: nat, c: nat)
    requires a <= b
    ensures a * c <= b * c
  {
  }

  lemma SqDistBelowUnreached(a: Color, b: Color)
    ensures SqDist(a, b) < Unreached
  {
    SquareBelow(a.r as int - b.r as int);
    SquareBelow(a.g as int - b.g as int);
    SquareBelow(a.b as int - b.b as int);
  }

  /** getClosestColor: a linear scan keeping the first entry at the smallest
      distance seen so far. An empty list is a caller error. */
  method GetClosestColor(colors: seq<IndexedColor>, target: Color) returns (closest: IndexedColor)
    requires |colors| > 0
    ensures closest == Nearest(colors, target)
    ensures closest in colors
    ensures forall c :: c in colors ==> SqDist(target, closest.color) <= SqDist(target, c.color)
  {
    var minDist := Unreached;
    closest := colors[0];
    for i := 0 to |colors|
      invariant i == 0 ==> minDist == Unreached && closest == colors[0]
      invariant i > 0 ==> closest == colors[FirstNearest(colors, target, i)]
      invariant i > 0 ==> minDist == SqDist(target, closest.color)
    {
      var dist := SqDist(target, colors[i].color);
      SqDistBelowUnreached(target, colors[i].color);
      if dist < minDist {
        minDist := dist;
        closest := colors[i];
      }
    }
  }

  // ---------------------------------------------------------------------------
  // The threshold table

  /** bayerThresholdMap, indexed [x mod 4][y mod 4]. */
  const BayerThresholdMap: seq<seq<int>> := [
    [15, 135, 45, 165],
    [195, 75, 225, 105],
    [60, 180, 30, 150],
    [240, 120, 210, 90]
  ]

  /** The standard 4x4 Bayer rank matrix (ranks 0..15). */
  const BayerRank: seq<seq<int>> := [
    [0, 8, 2, 10],
    [12, 4, 14, 6],
    [3, 11, 1, 9],
    [15, 7, 13, 5]
  ]

  /** The 2x2 rank matrix the 4x4 one is interleaved from. */
  const BayerRank2: seq<seq<int>> := [[0, 2], [3, 1]]

  lemma ThresholdsAreScaledRanks()
    ensures |BayerThresholdMap| == 4
    ensures forall i :: 0 <= i < 4 ==> |BayerThresholdMap[i]| == 4
    ensures forall i, j :: 0 <= i < 4 && 0 <= j < 4 ==>
      BayerThresholdMap[i][j] == 15 * (BayerRank[i][j] + 1)
  {
  }

  /** The ranks are the standard interleaving of the 2x2 matrix: the low
      bits of (i, j) pick the coarse rank, the high bits the fine one. */
  lemma RanksInterleave2x2()
    ensures forall i, j :: 0 <= i < 4 && 0 <= j < 4 ==>
      BayerRank[i][j] == 4 * BayerRank2[i % 2][j % 2] + BayerRank2[i / 2][j / 2]
  {
  }

  /** The sixteen ranks are pairwise distinct values in 0..15, so each rank
      occurs exactly once; the thresholds are pairwise distinct and lie in
      15..240. */
  lemma ThresholdsDistinctInRange()
    ensures forall i, j :: 0 <= i < 4 && 0 <= j < 4 ==> 15 <= BayerThresholdMap[i][j] <= 240
    ensures forall i, j :: 0 <= i < 4 && 0 <= j < 4 ==> 0 <= BayerRank[i][j] < 16
    ensures forall i, j, i', j' ::
      (0 <= i < 4 && 0 <= j < 4 && 0 <= i' < 4 && 0 <= j' < 4 && (i != i' || j != j')) ==>
        BayerRank[i][j] != BayerRank[i'][j'] && BayerThresholdMap[i][j] != BayerThresholdMap[i'][j']
  {
    ThresholdsAreScaledRanks();
  }

  /** The threshold of the pixel in column x, row y. */
  function Threshold(x: int, y: int): (t: int)
    ensures 15 <= t <= 240
  {
    BayerThresholdMap[x % 4][y % 4]
  }

  /** Math.floor((c + t) / 2): the channel pulled halfway to the threshold. */
  function Blend(c: byte, t: int): (v: byte)
    requires 15 <= t <= 240
    ensures 7 <= v <= 247
    ensures 2 * (v as int) <= c as int + t < 2 * (v as int) + 2
  {
    ((c as int + t) / 2) as byte
  }

  /** The same threshold blends R, G and B. */
  function BlendColor(c: Color, t: int): Color
    requires 15 <= t <= 240
  {
    Color(Blend(c.r, t), Blend(c.g, t), Blend(c.b, t))
  }

  // ---------------------------------------------------------------------------
  // The pass, as a function of the input bytes

  /** The pass can run to completion: with an empty palette the first whole
      pixel raises an error. */
  predicate CanDither(n: nat, palette: seq<Color>) {
    |palette| > 0 || n < 4
  }

  /** The colour whole pixel p of s (in a row of w pixels) is replaced by. */
  function DitheredColor(s: seq<byte>, w: nat, palette: seq<Color>, p: nat): Color
    requires w > 0 && |palette| > 0 && 4 * p + 4 <= |s|
  {
    var t := Threshold(p % w, p / w);
    Nearest(Indexed(palette), BlendColor(PixelAt(s, p), t)).color
  }

  /** Byte k after the pass: R, G and B of whole pixels are dithered; alpha
      bytes and the bytes past the last whole pixel are kept. */
  function OutByte(s: seq<byte>, w: nat, palette: seq<Color>, k: nat): byte
    requires w > 0 && CanDither(|s|, palette) && k < |s|
  {
    if k < WholePixelBytes(|s|) && k % 4 < 3 then
      Channel(DitheredColor(s, w, palette, k / 4), k % 4)
    else
      s[k]
  }

  function BayerPass(s: seq<byte>, w: nat, palette: seq<Color>): seq<byte>
    requires w > 0 && CanDither(|s|, palette)
  {
    seq(|s|, k requires 0 <= k < |s| => OutByte(s, w, palette, k))
  }

  /** Whole pixel p takes the RGB of the first closest entry of the indexed
      palette to its blended colour, and that entry is palette[index]. */
  lemma BayerPassPixel(s: seq<byte>, w: nat, palette: seq<Color>, p: nat)
    requires w > 0 && |palette| > 0 && 4 * p + 4 <= |s|
    ensures |BayerPass(s, w, palette)| == |s|
    ensures var e := Nearest(Indexed(palette), BlendColor(PixelAt(s, p), Threshold(p % w, p / w)));
            && e.index < |palette|
            && PixelAt(BayerPass(s, w, palette), p) == palette[e.index]
            && PixelAt(BayerPass(s, w, palette), p) in palette
  {
    PassPixelIsDithered(s, w, palette, p);
    NearestIsIndexedEntry(palette, BlendColor(PixelAt(s, p), Threshold(p % w, p / w)));
  }

  lemma PassPixelIsDithered(s: seq<byte>, w: nat, palette: seq<Color>, p: nat)
    requires w > 0 && |palette| > 0 && 4 * p + 4 <= |s|
    ensures PixelAt(BayerPass(s, w, palette), p) == DitheredColor(s, w, palette, p)
  {
    var out := BayerPass(s, w, palette);
    WholePixelBytes4(s, w, palette, p);
    assert out[4 * p] == OutByte(s, w, palette, 4 * p);
    assert out[4 * p + 1] == OutByte(s, w, palette, 4 * p + 1);
    assert out[4 * p + 2] == OutByte(s, w, palette, 4 * p + 2);
  }

  /** The entry the search picks in an indexed palette carries its own
      position and the palette's colour there. */
  lemma NearestIsIndexedEntry(palette: seq<Color>, t: Color)
    requires |palette| > 0
    ensures var e := Nearest(Indexed(palette), t);
      e.index < |palette| && e.color == palette[e.index]
  {
    var ip := Indexed(palette);
    var k := FirstNearest(ip, t, |ip|);
    assert Nearest(ip, t) == ip[k] == IndexedColor(k, palette[k]);
  }

  /** Alpha bytes are never written. */
  lemma BayerPassKeepsAlpha(s: seq<byte>, w: nat, palette: seq<Color>, p: nat)
    requires w > 0 && CanDither(|s|, palette) && 4 * p + 3 < |s|
    ensures BayerPass(s, w, palette)[4 * p + 3] == s[4 * p + 3]
  {
    assert (4 * p + 3) % 4 == 3;
  }

  /** Bytes past the last whole pixel are never written. */
  lemma BayerPassKeepsTail(s: seq<byte>, w: nat, palette: seq<Color>, k: nat)
    requires w > 0 && CanDither(|s|, palette) && WholePixelBytes(|s|) <= k < |s|
    ensures BayerPass(s, w, palette)[k] == s[k]
  {
  }

  /** With a one-colour palette every whole pixel becomes that colour. */
  lemma BayerPassOneColor(s: seq<byte>, w: nat, c: Color, p: nat)
    requires w > 0 && 4 * p + 4 <= |s|
    ensures PixelAt(BayerPass(s, w, [c]), p) == c
  {
    BayerPassPixel(s, w, [c], p);
  }

  // ---------------------------------------------------------------------------
  // The in-place pass

  /** d is the buffer after the loop has handled the bytes before cur:
      those hold the pass's output, the rest is still the input. */
  ghost predicate PassedUpTo(orig: seq<byte>, d: seq<byte>, w: nat, palette: seq<Color>, cur: nat) {
    && w > 0 && |d| == |orig| && cur <= |orig|
    && (cur > 0 ==> |palette| > 0)
    && (forall k :: 0 <= k < cur ==> d[k] == OutByte(orig, w, palette, k))
    && d[cur..] == orig[cur..]
  }

  /** Writing the dithered colour of whole pixel p extends the handled part
      by one pixel. */
  lemma PassStep(orig: seq<byte>, d: seq<byte>, w: nat, palette: seq<Color>, p: nat, c: Color)
    requires PassedUpTo(orig, d, w, palette, 4 * p)
    requires |palette| > 0 && 4 * p + 4 <= |orig|
    requires c == DitheredColor(orig, w, palette, p)
    ensures PassedUpTo(orig, d[4 * p := c.r][4 * p + 1 := c.g][4 * p + 2 := c.b], w, palette, 4 * p + 4)
  {
    StepHandled(orig, d, w, palette, p, c);
    StepRest(orig, d, p, c);
  }

  /** The bytes before the next pixel hold the pass's output after the write. */
  lemma StepHandled(orig: seq<byte>, d: seq<byte>, w: nat, palette: seq<Color>, p: nat, c: Color)
    requires w > 0 && |palette| > 0 && |d| == |orig| && 4 * p + 4 <= |orig| && d[4 * p..] == orig[4 * p..]
    requires forall k :: 0 <= k < 4 * p ==> d[k] == OutByte(orig, w, palette, k)
    requires c == DitheredColor(orig, w, palette, p)
    ensures var d' := d[4 * p := c.r][4 * p + 1 := c.g][4 * p + 2 := c.b];
      forall k :: 0 <= k < 4 * p + 4 ==> d'[k] == OutByte(orig, w, palette, k)
  {
    var d' := d[4 * p := c.r][4 * p + 1 := c.g][4 * p + 2 := c.b];
    NewPixelBytes(orig, d, w, palette, p, c);
    EarlierBytesKept(orig, d, w, palette, p, c);
  }

  /** Writing pixel p leaves the bytes before it as they were. */
  lemma EarlierBytesKept(orig: seq<byte>, d: seq<byte>, w: nat, palette: seq<Color>, p: nat, c: Color)
    requires w > 0 && |palette| > 0 && |d| == |orig| && 4 * p + 4 <= |d|
    requires forall k :: 0 <= k < 4 * p ==> d[k] == OutByte(orig, w, palette, k)
    ensures var d' := d[4 * p := c.r][4 * p + 1 := c.g][4 * p + 2 := c.b];
      forall k :: 0 <= k < 4 * p ==> d'[k] == OutByte(orig, w, palette, k)
  {
    var d' := d[4 * p := c.r][4 * p + 1 := c.g][4 * p + 2 := c.b];
    forall k | 0 <= k < 4 * p
      ensures d'[k] == OutByte(orig, w, palette, k)
    {
      assert d'[k] == d[k];
    }
  }

  /** The four bytes of pixel p after the write are the pass's output. */
  lemma NewPixelBytes(orig: seq<byte>, d: seq<byte>, w: nat, palette: seq<Color>, p: nat, c: Color)
    requires w > 0 && |d| == |orig| && 4 * p + 4 <= |orig| && d[4 * p..] == orig[4 * p..]
    requires |palette| > 0 && c == DitheredColor(orig, w, palette, p)
    ensures var d' := d[4 * p := c.r][4 * p + 1 := c.g][4 * p + 2 := c.b];
      forall k :: 4 * p <= k < 4 * p + 4 ==> d'[k] == OutByte(orig, w, palette, k)
  {
    var d' := d[4 * p := c.r][4 * p + 1 := c.g][4 * p + 2 := c.b];
    WholePixelBytes4(orig, w, palette, p);
    assert d[4 * p..][3] == orig[4 * p..][3];
    forall k | 4 * p <= k < 4 * p + 4
      ensures d'[k] == OutByte(orig, w, palette, k)
    {
      assert k == 4 * p || k == 4 * p + 1 || k == 4 * p + 2 || k == 4 * p + 3;
    }
  }

  /** The bytes from the next pixel on are still the input after the write. */
  lemma StepRest(orig: seq<byte>, d: seq<byte>, p: nat, c: Color)
    requires |d| == |orig| && 4 * p + 4 <= |orig| && d[4 * p..] == orig[4 * p..]
    ensures d[4 * p := c.r][4 * p + 1 := c.g][4 * p + 2 := c.b][4 * p + 4..] == orig[4 * p + 4..]
  {
    var d' := d[4 * p := c.r][4 * p + 1 := c.g][4 * p + 2 := c.b];
    forall k | 4 * p + 4 <= k < |orig|
      ensures d'[k] == orig[k]
    {
      assert d[k] == d[4 * p..][k - 4 * p];
    }
  }

  /** Once every whole pixel is handled the buffer is the pass's output. */
  lemma PassDone(orig: seq<byte>, d: seq<byte>, w: nat, palette: seq<Color>, cur: nat)
    requires PassedUpTo(orig, d, w, palette, cur)
    requires CanDither(|orig|, palette) && cur == WholePixelBytes(|orig|)
    ensures d == BayerPass(orig, w, palette)
  {
    forall k | 0 <= k < |orig|
      ensures d[k] == BayerPass(orig, w, palette)[k]
    {
      if k >= cur {
        assert d[k] == d[cur..][k - cur] == orig[cur..][k - cur];
      }
    }
  }

  /** bayerDither: dithers every whole pixel of `data` in place and then runs
      the pixelation post-step when blockSize > 1. With an empty palette and
      at least one whole pixel the source raises an error at the first pixel,
      before writing anything: `ok` is false and nothing has changed. */
  method BayerDither(data: array<byte>, width: nat, palette: seq<Color>, blockSize: int)
    returns (ok: bool, pixelated: bool)
    requires width > 0
    modifies data
    ensures ok <==> CanDither(data.Length, palette)
    ensures ok ==> data[..] == BayerPass(old(data[..]), width, palette)
    ensures !ok ==> data[..] == old(data[..])
    ensures pixelated <==> ok && blockSize > 1
  {
    ghost var orig := data[..];
    var len := data.Length;
    var w := width;
    var newPalette := Indexed(palette);
    var currentPixel := 0;
    while currentPixel <= len - 4
      invariant currentPixel % 4 == 0 && currentPixel <= WholePixelBytes(len)
      invariant PassedUpTo(orig, data[..], w, palette, currentPixel)
    {
      var pix := currentPixel / 4;
      assert currentPixel == 4 * pix;
      var x := pix % w;
      var y := pix / w;
      var t := Threshold(x, y);
      var map1 := Blend(data[currentPixel], t);
      var map2 := Blend(data[currentPixel + 1], t);
      var map3 := Blend(data[currentPixel + 2], t);
      if |newPalette| == 0 {
        // getClosestColor returns undefined and reading its channels throws
        ok, pixelated := false, false;
        return;
      }
      assert Color(map1, map2, map3) == BlendColor(PixelAt(orig, pix), Threshold(x, y)) by {
        UntouchedPixel(orig, data[..], w, palette, pix);
      }
      var closestColor := GetClosestColor(newPalette, Color(map1, map2, map3));
      ghost var before := data[..];
      data[currentPixel] := closestColor.color.r;
      data[currentPixel + 1] := closestColor.color.g;
      data[currentPixel + 2] := closestColor.color.b;
      assert data[..] == before[4 * pix := closestColor.color.r][4 * pix + 1 := closestColor.color.g]
                               [4 * pix + 2 := closestColor.color.b];
      PassStep(orig, before, w, palette, pix, closestColor.color);
      NextWholePixel(currentPixel, len);
      currentPixel := currentPixel + 4;
    }
    LastWholePixel(currentPixel, len);
    ok := true;
    PassDone(orig, data[..], w, palette, currentPixel);
    pixelated := blockSize > 1;
  }

  lemma UntouchedPixel(orig: seq<byte>, d: seq<byte>, w: nat, palette: seq<Color>, p: nat)
    requires PassedUpTo(orig, d, w, palette, 4 * p) && 4 * p + 4 <= |orig|
    ensures PixelAt(d, p) == PixelAt(orig, p)
  {
    assert d[4 * p] == d[4 * p..][0] == orig[4 * p..][0];
    assert d[4 * p + 1] == d[4 * p..][1] == orig[4 * p..][1];
    assert d[4 * p + 2] == d[4 * p..][2] == orig[4 * p..][2];
  }

  lemma NextWholePixel(c: nat, n: nat)
    requires c % 4 == 0 && c + 4 <= n
    ensures (c + 4) % 4 == 0 && c + 4 <= WholePixelBytes(n)
  {
  }

  lemma LastWholePixel(c: nat, n: nat)
    requires c % 4 == 0 && c <= WholePixelBytes(n) && n < c + 4
    ensures c == WholePixelBytes(n)
  {
  }

  /** The four bytes of whole pixel p after the pass. */
  lemma WholePixelBytes4(s: seq<byte>, w: nat, palette: seq<Color>, p: nat)
    requires w > 0 && |palette| > 0 && 4 * p + 4 <= |s|
    ensures OutByte(s, w, palette, 4 * p) == DitheredColor(s, w, palette, p).r
    ensures OutByte(s, w, palette, 4 * p + 1) == DitheredColor(s, w, palette, p).g
    ensures OutByte(s, w, palette, 4 * p + 2) == DitheredColor(s, w, palette, p).b
    ensures OutByte(s, w, palette, 4 * p + 3) == s[4 * p + 3]
  {
    assert 4 * p + 4 <= WholePixelBytes(|s|);
    assert (4 * p) / 4 == p && (4 * p + 1) / 4 == p && (4 * p + 2) / 4 == p;
    assert (4 * p) % 4 == 0 && (4 * p + 1) % 4 == 1 && (4 * p + 2) % 4 == 2 && (4 * p + 3) % 4 == 3;
  }
}
