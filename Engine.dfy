/** The dither engine (app/composables/useDithering.ts): the palette
    fingerprint, the quantizer options, the pre-dither size rule, the
    single-slot quantizer cache and the branch between the Bayer path
    (worker with a main-thread fallback) and the error-diffusion path.
    The canvas, the worker transport and the RgbQuant library are
    parameters: a drawing function, a flag saying whether the worker
    replied in time, and a record of the library's two results. */
module DitherEngine {
  import opened Wrappers
  import opened Text
  import opened Pixels
  import Dithering
  import DitherWorker

  // ---------------------------------------------------------------------------
  // getPaletteKey

  /** c.join(','): the channels in decimal, separated by commas. */
  function ColorKey(c: Color): string {
    Join([Decimal(c.r as nat), Decimal(c.g as nat), Decimal(c.b as nat)], ',')
  }

  /** getPaletteKey: the colour keys separated by '|'. Only the empty
      palette has the empty key, the key an empty cache slot holds. */
  function PaletteKey(palette: seq<Color>): (k: string)
    ensures k == "" <==> palette == []
  {
    var keys := seq(|palette|, i requires 0 <= i < |palette| => ColorKey(palette[i]));
    if |palette| > 0 then
      ColorKeyShape(palette[0]);
      JoinStartsWithFirst(keys, '|');
      Join(keys, '|')
    else
      Join(keys, '|')
  }

  lemma DecimalIsDigits(n: nat, sep: char)
    requires !('0' <= sep <= '9')
    ensures |Decimal(n)| > 0 && SeparatorFree(Decimal(n), sep)
  {
  }

  lemma ColorKeyShape(c: Color)
    ensures ColorKey(c) == Decimal(c.r as nat) + [','] + Decimal(c.g as nat) + [','] + Decimal(c.b as nat)
    ensures |ColorKey(c)| > 0 && SeparatorFree(ColorKey(c), '|')
  {
    var parts := [Decimal(c.r as nat), Decimal(c.g as nat), Decimal(c.b as nat)];
    assert parts[1..][1..] == [Decimal(c.b as nat)];
    assert Join(parts[1..], ',') == Decimal(c.g as nat) + [','] + Decimal(c.b as nat);
    DecimalIsDigits(c.r as nat, '|');
    DecimalIsDigits(c.g as nat, '|');
    DecimalIsDigits(c.b as nat, '|');
  }

  /** Colour keys tell colours apart. */
  lemma ColorKeyInjective(a: Color, b: Color)
    ensures ColorKey(a) == ColorKey(b) <==> a == b
  {
    if ColorKey(a) == ColorKey(b) {
      var xs := [Decimal(a.r as nat), Decimal(a.g as nat), Decimal(a.b as nat)];
      var ys := [Decimal(b.r as nat), Decimal(b.g as nat), Decimal(b.b as nat)];
      DecimalIsDigits(a.r as nat, ','); DecimalIsDigits(a.g as nat, ','); DecimalIsDigits(a.b as nat, ',');
      DecimalIsDigits(b.r as nat, ','); DecimalIsDigits(b.g as nat, ','); DecimalIsDigits(b.b as nat, ',');
      JoinInjective(xs, ys, ',');
      assert xs[0] == ys[0] && xs[1] == ys[1] && xs[2] == ys[2];
      DecimalInjective(a.r as nat, b.r as nat);
      DecimalInjective(a.g as nat, b.g as nat);
      DecimalInjective(a.b as nat, b.b as nat);
    }
  }

  /** Equal palettes and only equal palettes have equal keys. */
  lemma PaletteKeyInjective(p: seq<Color>, q: seq<Color>)
    ensures PaletteKey(p) == PaletteKey(q) <==> p == q
  {
    if PaletteKey(p) == PaletteKey(q) {
      var xs := seq(|p|, i requires 0 <= i < |p| => ColorKey(p[i]));
      var ys := seq(|q|, i requires 0 <= i < |q| => ColorKey(q[i]));
      forall i | 0 <= i < |xs|
        ensures |xs[i]| > 0 && SeparatorFree(xs[i], '|')
      {
        ColorKeyShape(p[i]);
      }
      forall i | 0 <= i < |ys|
        ensures |ys[i]| > 0 && SeparatorFree(ys[i], '|')
      {
        ColorKeyShape(q[i]);
      }
      JoinInjective(xs, ys, '|');
      forall i | 0 <= i < |p|
        ensures p[i] == q[i]
      {
        assert xs[i] == ys[i];
        ColorKeyInjective(p[i], q[i]);
      }
    }
  }

  // ---------------------------------------------------------------------------
  // rgbQuantOptions

  datatype QuantOptions = QuantOptions(
    colors: nat,
    quantMethod: nat,
    boxSize: (nat, nat),
    boxPxls: nat,
    initColors: nat,
    minHueCols: nat,
    dithKern: string,
    dithDelta: int,
    dithSerp: bool,
    palette: seq<Color>,
    reIndex: bool,
    useCache: bool,
    cacheFreq: nat,
    colorDist: string)

  /** rgbQuantOptions: the fixed settings, the current kernel and
      serpentine flag, the palette, and `palette.length || 8` colours. */
  function RgbQuantOptions(palette: seq<Color>, algorithm: string, serpentine: bool): (o: QuantOptions)
    ensures o.colors >= 1
    ensures o.colors == |palette| || (palette == [] && o.colors == 8)
    ensures o.palette == palette && o.dithKern == algorithm && o.dithSerp == serpentine
  {
    QuantOptions(
      colors := if |palette| > 0 then |palette| else 8,
      quantMethod := 2,
      boxSize := (8, 8),
      boxPxls := 2,
      initColors := 4096,
      minHueCols := 2000,
      dithKern := algorithm,
      dithDelta := 0,
      dithSerp := serpentine,
      palette := palette,
      reIndex := false,
      useCache := true,
      cacheFreq := 10,
      colorDist := "euclidean")
  }

  /** The options analyzePalette builds: the current ones with an empty
      palette. It only runs with an empty palette, so it asks for 8 colours. */
  function AnalysisOptions(palette: seq<Color>, algorithm: string, serpentine: bool): (o: QuantOptions)
    ensures o.palette == []
    ensures palette == [] ==> o.colors == 8
  {
    RgbQuantOptions(palette, algorithm, serpentine).(palette := [])
  }

  // ---------------------------------------------------------------------------
  // The pre-dither size

  /** Math.round(a / b) for b > 0: the integer nearest to a / b, halves
      rounded up, so that a / b lies in [r - 1/2, r + 1/2). */
  function RoundDiv(a: nat, b: nat): (r: nat)
    requires b > 0
    ensures 2 * (r * b) <= 2 * a + b < 2 * (r * b) + 2 * b
  {
    var r := (2 * a + b) / (2 * b);
    assert r * (2 * b) == 2 * (r * b);
    r
  }

  /** A whole number of pixels divided by a scale above 1 and rounded is
      no more pixels than before. */
  lemma RoundDivShrinks(a: nat, b: nat)
    requires b > 1
    ensures RoundDiv(a, b) <= a
  {
    var r := RoundDiv(a, b);
    if r > a {
      MulAtLeast(r, a + 1, b);
      assert (a + 1) * b == a * b + b;
      MulAtLeast(b, 1, a);
      assert false;
    }
  }

  /** scale > 1 ? Math.max(1, Math.round(final / scale)) : final: a
      downscaled side is at least one pixel and no longer than the full side
      (of at least one pixel); without downscaling it is the full side. */
  function DitherDim(final: nat, scale: int): (d: nat)
    ensures scale > 1 ==> 1 <= d <= if final == 0 then 1 else final
    ensures scale <= 1 ==> d == final
  {
    if scale > 1 then
      var r := RoundDiv(final, scale);
      RoundDivShrinks(final, scale);
      if r < 1 then 1 else r
    else
      final
  }

  lemma MulAtLeast(a: nat, b: nat, c: nat)
    requires a >= b
    ensures a * c >= b * c
  {
  }

  // ---------------------------------------------------------------------------
  // The foreign pieces

  /** An image as the engine sees it: its natural size and an identity. */
  datatype SourceImage = SourceImage(id: nat, naturalWidth: nat, naturalHeight: nat)

  /** What the RgbQuant library computes: the palette it derives from the
      images it sampled, and the pixels `reduce` returns for a canvas with
      a kernel name and a serpentine flag. */
  datatype RgbQuant = RgbQuant(
    derivePalette: (QuantOptions, seq<SourceImage>) -> seq<Color>,
    reduce: (QuantOptions, seq<SourceImage>, seq<byte>, string, bool) -> seq<byte>)

  /** A quantizer instance: its options are fixed at construction, and
      `sample` records the images it has seen. */
  class Quantizer {
    const options: QuantOptions
    var sampled: seq<SourceImage>

    constructor(options: QuantOptions)
      ensures this.options == options && sampled == []
    {
      this.options := options;
      sampled := [];
    }

    method Sample(image: SourceImage)
      modifies this
      ensures sampled == old(sampled) + [image]
    {
      sampled := sampled + [image];
    }
  }

  // ---------------------------------------------------------------------------
  // The engine

  datatype DitherMode = Diffusion | Bayer

  /** The outcome of dither: the final size, the dithered pixels at the
      pre-dither size (before the upscale and pixelation post-steps), and how
      many pixelation passes ran. */
  datatype DitherResult = DitherResult(width: nat, height: nat, dithered: seq<byte>, upscaled: bool, pixelationPasses: nat)

  datatype Outcome = Done(result: DitherResult) | Failed

  /** typedArray.set(src) at offset 0: src overwrites the front of data; a
      longer src raises a RangeError. */
  function SetPrefix(data: seq<byte>, src: seq<byte>): (r: Option<seq<byte>>)
    ensures r.Some? <==> |src| <= |data|
    ensures r.Some? ==> |r.value| == |data| && r.value[..|src|] == src && r.value[|src|..] == data[|src|..]
  {
    if |src| <= |data| then Some(src + data[|src|..]) else None
  }

  /** width || sourceImage.naturalWidth */
  function FinalWidth(width: nat, source: SourceImage): (w: nat)
    ensures w == 0 <==> width == 0 && source.naturalWidth == 0
    ensures width != 0 ==> w == width
  {
    if width != 0 then width else source.naturalWidth
  }

  /** Whether the diffusion branch builds and samples a new quantizer. */
  predicate NeedsSample(hasQuant: bool, cachedKey: string, key: string) {
    !hasQuant || cachedKey != key
  }

  class Engine {
    var isProcessing: bool
    var ditherMode: DitherMode
    var algorithm: string
    var serpentine: bool
    var pixeliness: int
    var pixelScale: int
    var bayerSize: int
    var palette: seq<Color>
    var cachedQuant: Quantizer?
    var cachedPaletteKey: string
    var workerCreated: bool
    /** Every value isProcessing has been given, in order. */
    ghost var processingTrace: seq<bool>
    /** How many times any quantizer has sampled an image. */
    ghost var sampleCount: nat
    /** The kernel and serpentine flag of every reduce call, in order. */
    ghost var reduceCalls: seq<(string, bool)>

    /** The cache slot is either empty with the empty key, or holds a
        quantizer built for the palette the key fingerprints. */
    ghost predicate Valid()
      reads this`cachedQuant, this`cachedPaletteKey
    {
      && (cachedQuant == null ==> cachedPaletteKey == "")
      && (cachedQuant != null ==> cachedPaletteKey == PaletteKey(cachedQuant.options.palette))
    }

    constructor()
      ensures Valid()
      ensures !isProcessing && ditherMode == Diffusion && algorithm == "FloydSteinberg" && !serpentine
      ensures pixeliness == 1 && pixelScale == 1 && bayerSize == 4 && palette == []
      ensures cachedQuant == null && cachedPaletteKey == "" && !workerCreated
      ensures processingTrace == [] && sampleCount == 0 && reduceCalls == []
    {
      isProcessing := false;
      ditherMode := Diffusion;
      algorithm := "FloydSteinberg";
      serpentine := false;
      pixeliness := 1;
      pixelScale := 1;
      bayerSize := 4;
      palette := [];
      cachedQuant := null;
      cachedPaletteKey := "";
      workerCreated := false;
      processingTrace := [];
      sampleCount := 0;
      reduceCalls := [];
    }

    /** The kernel and serpentine settings change; nothing else does. */
    method SetKernel(algorithm': string, serpentine': bool)
      modifies this`algorithm, this`serpentine
      ensures algorithm == algorithm' && serpentine == serpentine'
    {
      algorithm, serpentine := algorithm', serpentine';
    }

    /** invalidateQuantCache: empties the cache slot, so that the next
        diffusion run builds and samples a new quantizer. */
    method InvalidateQuantCache()
      modifies this`cachedQuant, this`cachedPaletteKey
      ensures Valid()
      ensures cachedQuant == null && cachedPaletteKey == ""
      ensures NeedsSample(cachedQuant != null, cachedPaletteKey, PaletteKey(palette))
    {
      cachedQuant := null;
      cachedPaletteKey := "";
    }

    /** analyzePalette: a fresh quantizer with the current options and an
        empty palette samples the image and derives a palette from it. */
    method AnalyzePalette(image: SourceImage, lib: RgbQuant) returns (derived: seq<Color>)
      modifies this`sampleCount
      ensures derived == lib.derivePalette(AnalysisOptions(palette, algorithm, serpentine), [image])
      ensures sampleCount == old(sampleCount) + 1
    {
      var q := new Quantizer(AnalysisOptions(palette, algorithm, serpentine));
      q.Sample(image);
      assert q.sampled == [image];
      sampleCount := sampleCount + 1;
      derived := lib.derivePalette(q.options, q.sampled);
    }

    /** The cache decision of the diffusion branch: the cached quantizer when
        its key is the current palette's, otherwise a new one built with the
        current options, which samples the image and takes the slot. Whichever
        it is, it was built for exactly the current palette. */
    method QuantizerFor(image: SourceImage) returns (q: Quantizer)
      requires Valid()
      modifies this`cachedQuant, this`cachedPaletteKey, this`sampleCount
      ensures Valid()
      ensures q == cachedQuant && cachedPaletteKey == PaletteKey(palette)
      ensures q.options.palette == palette
      ensures var needed := NeedsSample(old(cachedQuant) != null, old(cachedPaletteKey), PaletteKey(palette));
        && sampleCount == old(sampleCount) + (if needed then 1 else 0)
        && (needed ==> fresh(q) && q.options == RgbQuantOptions(palette, algorithm, serpentine) && q.sampled == [image])
        && (!needed ==> q == old(cachedQuant))
    {
      var palKey := PaletteKey(palette);
      if cachedQuant != null && cachedPaletteKey == palKey {
        q := cachedQuant;
        PaletteKeyInjective(q.options.palette, palette);
      } else {
        q := new Quantizer(RgbQuantOptions(palette, algorithm, serpentine));
        q.Sample(image);
        assert q.sampled == [image];
        sampleCount := sampleCount + 1;
        cachedQuant := q;
        cachedPaletteKey := palKey;
      }
    }

    /** The Bayer branch on a dw x dh canvas holding `canvas`: the worker
        (created on first use) gets a copy of the drawing; when it answers,
        its pass is the result. When it does not answer in time, or its pass
        throws, the main thread draws the image over the canvas again
        (`redrawn`), runs the pass on that, and pixelates once more itself. */
    method BayerBranch(canvas: seq<byte>, redrawn: seq<byte>, dw: nat, dh: nat, paletteToUse: seq<Color>,
                       workerReplies: bool)
      returns (ok: bool, dithered: seq<byte>, passes: nat)
      requires dw > 0 && dh > 0
      modifies this`workerCreated
      ensures workerCreated
      ensures var input := BayerInput(canvas, redrawn, workerReplies, paletteToUse);
        && (ok <==> Dithering.CanDither(|input|, paletteToUse))
        && (ok ==> dithered == Dithering.BayerPass(input, dw, paletteToUse))
      ensures passes == if ok && FallbackRuns(workerReplies, canvas, paletteToUse) && pixeliness > 1 then 1 else 0
    {
      passes := 0;
      workerCreated := true;
      if workerReplies {
        var data := new byte[|canvas|](i requires 0 <= i < |canvas| => canvas[i]);
        assert data[..] == canvas;
        var replied, replyWidth, replyHeight := DitherWorker.OnMessage(data, dw, dh, paletteToUse, pixeliness, bayerSize);
        if replied {
          ok, dithered := true, data[..];
          return;
        }
      }
      // the worker timed out or its pass threw: draw again and dither here
      var data := new byte[|redrawn|](i requires 0 <= i < |redrawn| => redrawn[i]);
      assert data[..] == redrawn;
      var pixelated;
      ok, pixelated := Dithering.BayerDither(data, dw, paletteToUse, pixeliness);
      dithered := data[..];
      if pixelated {
        passes := 1;
      }
    }

    /** The Bayer branch once its palette is known: the dithering pass on
        the dw x dh drawing, then the post-steps are counted. */
    method BayerRun(canvas: seq<byte>, redrawn: seq<byte>, dw: nat, dh: nat, paletteToUse: seq<Color>,
                    workerReplies: bool, finalWidth: nat, finalHeight: nat)
      returns (outcome: Outcome)
      modifies this`workerCreated
      ensures workerCreated == (old(workerCreated) || (dw > 0 && dh > 0))
      ensures BayerOutcome(paletteToUse, BayerInput(canvas, redrawn, workerReplies, paletteToUse), dw, dh, Dithered(outcome))
      ensures ResultShape(outcome, finalWidth, finalHeight, pixelScale, pixeliness,
                          FallbackRuns(workerReplies, canvas, paletteToUse))
    {
      outcome := Failed;
      if dw > 0 && dh > 0 {
        var ok, pixels, passes := BayerBranch(canvas, redrawn, dw, dh, paletteToUse, workerReplies);
        if ok {
          outcome := Done(DitherResult(finalWidth, finalHeight, pixels, pixelScale > 1,
                                       if pixeliness > 1 then passes + 1 else passes));
        }
      }
      // otherwise getImageData throws, before the worker is asked for and
      // again in the fallback
    }

    /** dither on the Bayer path, once the drawing `canvas` of the image at
        dw x dh exists: with isProcessing raised, the palette (or an analysed
        one when it is empty) goes to the worker or to the main-thread
        fallback, then the pixelation post-step runs; isProcessing is lowered
        on every path (the `finally` block). */
    method DitherBayer(source: SourceImage, finalWidth: nat, finalHeight: nat, canvas: seq<byte>, redrawn: seq<byte>,
                       dw: nat, dh: nat, lib: RgbQuant, workerReplies: bool)
      returns (outcome: Outcome)
      modifies this`isProcessing, this`processingTrace, this`sampleCount, this`workerCreated
      ensures !isProcessing && processingTrace == old(processingTrace) + [true, false]
      ensures sampleCount == old(sampleCount) + (if palette == [] then 1 else 0)
      ensures workerCreated == (old(workerCreated) || (dw > 0 && dh > 0))
      ensures var paletteToUse := BayerPalette(palette, algorithm, serpentine, source, lib);
        && BayerOutcome(paletteToUse, BayerInput(canvas, redrawn, workerReplies, paletteToUse), dw, dh, Dithered(outcome))
        && ResultShape(outcome, finalWidth, finalHeight, pixelScale, pixeliness,
                       FallbackRuns(workerReplies, canvas, paletteToUse))
    {
      isProcessing := true;
      processingTrace := processingTrace + [true];
      var paletteToUse := palette;
      if |palette| == 0 {
        paletteToUse := AnalyzePalette(source, lib);
      }
      outcome := BayerRun(canvas, redrawn, dw, dh, paletteToUse, workerReplies, finalWidth, finalHeight);
      isProcessing := false;
      processingTrace := processingTrace + [false];
    }

    /** The quantizer the cache decision gives reduces the drawing with the
        current kernel and serpentine flag, and the call is recorded. */
    method Reduce(source: SourceImage, canvas: seq<byte>, lib: RgbQuant) returns (reduced: seq<byte>)
      requires Valid()
      modifies this`cachedQuant, this`cachedPaletteKey, this`sampleCount, this`reduceCalls
      ensures Valid()
      ensures var needed := NeedsSample(old(cachedQuant) != null, old(cachedPaletteKey), PaletteKey(palette));
        && cachedQuant != null && cachedPaletteKey == PaletteKey(palette) && cachedQuant.options.palette == palette
        && sampleCount == old(sampleCount) + (if needed then 1 else 0)
        && (needed ==> fresh(cachedQuant) && cachedQuant.sampled == [source])
        && (!needed ==> cachedQuant == old(cachedQuant))
      ensures reduceCalls == old(reduceCalls) + [(algorithm, serpentine)]
      ensures reduced == lib.reduce(cachedQuant.options, cachedQuant.sampled, canvas, algorithm, serpentine)
    {
      var q := QuantizerFor(source);
      reduced := lib.reduce(q.options, q.sampled, canvas, algorithm, serpentine);
      reduceCalls := reduceCalls + [(algorithm, serpentine)];
    }

    /** dither on the error-diffusion path, once the drawing `canvas` of the
        image at dw x dh exists: with isProcessing raised, the quantizer the
        cache decision gives reduces the canvas with the current kernel and
        serpentine flag, then the pixelation post-step runs; isProcessing is
        lowered on every path. */
    method DitherDiffusion(source: SourceImage, finalWidth: nat, finalHeight: nat, canvas: seq<byte>, dw: nat, dh: nat,
                           lib: RgbQuant)
      returns (outcome: Outcome)
      requires Valid()
      modifies this`isProcessing, this`processingTrace, this`cachedQuant, this`cachedPaletteKey
      modifies this`sampleCount, this`reduceCalls
      ensures Valid()
      ensures !isProcessing && processingTrace == old(processingTrace) + [true, false]
      ensures var needed := NeedsSample(old(cachedQuant) != null, old(cachedPaletteKey), PaletteKey(palette));
        && cachedQuant != null && cachedPaletteKey == PaletteKey(palette) && cachedQuant.options.palette == palette
        && sampleCount == old(sampleCount) + (if needed then 1 else 0)
        && (needed ==> fresh(cachedQuant) && cachedQuant.sampled == [source])
        && (!needed ==> cachedQuant == old(cachedQuant))
      ensures reduceCalls == old(reduceCalls) + [(algorithm, serpentine)]
      ensures DiffusionOutcome(lib.reduce(cachedQuant.options, cachedQuant.sampled, canvas, algorithm, serpentine),
                               canvas, dw, dh, Dithered(outcome))
      ensures ResultShape(outcome, finalWidth, finalHeight, pixelScale, pixeliness, false)
    {
      isProcessing := true;
      processingTrace := processingTrace + [true];
      var reduced := Reduce(source, canvas, lib);
      outcome := DiffusionResult(reduced, canvas, dw, dh, finalWidth, finalHeight, pixelScale, pixeliness);
      isProcessing := false;
      processingTrace := processingTrace + [false];
    }

    /** dither(sourceImage, targetCanvas, width). `width` 0 stands for an
        omitted width; `finalHeight` is the height the caller's aspect ratio
        gives; `draw(image, w, h)` is the RGBA data of the image drawn at
        w x h; `workerReplies` says whether the worker answered before its
        timeout; `redraw(canvas, image, w, h)` is the canvas after the
        image is drawn at w x h over the content `canvas` (for an opaque
        image, the image's own drawing). The dithered pixels are those at the
        pre-dither size, before the upscale and pixelation steps. */
    method Dither(source: SourceImage, width: nat, finalHeight: nat, lib: RgbQuant,
                  draw: (SourceImage, nat, nat) -> seq<byte>, redraw: (seq<byte>, SourceImage, nat, nat) -> seq<byte>,
                  workerReplies: bool)
      returns (outcome: Outcome)
      requires Valid()
      modifies this`isProcessing, this`processingTrace, this`cachedQuant, this`cachedPaletteKey
      modifies this`sampleCount, this`reduceCalls, this`workerCreated
      ensures Valid()
      ensures !isProcessing && processingTrace == old(processingTrace) + [true, false]
      ensures
        var finalWidth := FinalWidth(width, source);
        var dw := DitherDim(finalWidth, pixelScale);
        var dh := DitherDim(finalHeight, pixelScale);
        var canvas := draw(source, dw, dh);
        var paletteToUse := BayerPalette(palette, algorithm, serpentine, source, lib);
        && (ditherMode == Diffusion ==>
              var needed := NeedsSample(old(cachedQuant) != null, old(cachedPaletteKey), PaletteKey(palette));
              && cachedQuant != null && cachedPaletteKey == PaletteKey(palette) && cachedQuant.options.palette == palette
              && sampleCount == old(sampleCount) + (if needed then 1 else 0)
              && (needed ==> fresh(cachedQuant) && cachedQuant.sampled == [source])
              && (!needed ==> cachedQuant == old(cachedQuant))
              && reduceCalls == old(reduceCalls) + [(algorithm, serpentine)]
              && workerCreated == old(workerCreated)
              && DiffusionOutcome(lib.reduce(cachedQuant.options, cachedQuant.sampled, canvas, algorithm, serpentine),
                                  canvas, dw, dh, Dithered(outcome)))
        && (ditherMode == Bayer ==>
              && cachedQuant == old(cachedQuant) && cachedPaletteKey == old(cachedPaletteKey)
              && sampleCount == old(sampleCount) + (if palette == [] then 1 else 0)
              && reduceCalls == old(reduceCalls)
              && workerCreated == (old(workerCreated) || (dw > 0 && dh > 0))
              && BayerOutcome(paletteToUse, BayerInput(canvas, redraw(canvas, source, dw, dh), workerReplies, paletteToUse),
                              dw, dh, Dithered(outcome)))
        && ResultShape(outcome, finalWidth, finalHeight, pixelScale, pixeliness,
                       ditherMode == Bayer && FallbackRuns(workerReplies, canvas, paletteToUse))
    {
      var finalWidth := FinalWidth(width, source);
      var ditherWidth := DitherDim(finalWidth, pixelScale);
      var ditherHeight := DitherDim(finalHeight, pixelScale);
      var canvas := draw(source, ditherWidth, ditherHeight);
      if ditherMode == Bayer {
        var redrawn := redraw(canvas, source, ditherWidth, ditherHeight);
        outcome := DitherBayer(source, finalWidth, finalHeight, canvas, redrawn, ditherWidth, ditherHeight, lib,
                               workerReplies);
      } else {
        outcome := DitherDiffusion(source, finalWidth, finalHeight, canvas, ditherWidth, ditherHeight, lib);
      }
    }
  }

  /** A finished run reports the final size and says whether the upscale
      step ran. With pixeliness above 1 the run pixelates its result once,
      and the main-thread Bayer fallback has pixelated once before that;
      with pixeliness at most 1 nothing pixelates. */
  predicate ResultShape(outcome: Outcome, finalWidth: nat, finalHeight: nat, pixelScale: int, pixeliness: int,
                        fallback: bool) {
    outcome.Done? ==>
      && outcome.result.width == finalWidth && outcome.result.height == finalHeight
      && outcome.result.upscaled == (pixelScale > 1)
      && outcome.result.pixelationPasses == (if pixeliness <= 1 then 0 else if fallback then 2 else 1)
  }

  /** Whether the Bayer branch ends on the main-thread fallback: the worker
      did not answer in time, or its pass threw (an empty palette with a
      whole pixel), which reaches the main thread as an error event. */
  predicate FallbackRuns(workerReplies: bool, canvas: seq<byte>, paletteToUse: seq<Color>) {
    !(workerReplies && Dithering.CanDither(|canvas|, paletteToUse))
  }

  /** The bytes the Bayer pass that decides the outcome runs on: the
      worker's copy of the drawing, or on the fallback the canvas after the
      second drawImage over the first drawing. */
  function BayerInput(canvas: seq<byte>, redrawn: seq<byte>, workerReplies: bool, paletteToUse: seq<Color>): seq<byte> {
    if FallbackRuns(workerReplies, canvas, paletteToUse) then redrawn else canvas
  }

  /** The palette the Bayer branch dithers with: the current one, or the
      one analyzePalette derives from the image when it is empty. */
  function BayerPalette(palette: seq<Color>, algorithm: string, serpentine: bool, source: SourceImage, lib: RgbQuant): seq<Color> {
    if |palette| > 0 then palette else lib.derivePalette(AnalysisOptions(palette, algorithm, serpentine), [source])
  }

  /** The dithered pixels of an outcome, if it has any. */
  function Dithered(outcome: Outcome): Option<seq<byte>> {
    if outcome.Done? then Some(outcome.result.dithered) else None
  }

  /** What the Bayer branch yields for a dw x dh drawing: the Bayer pass
      over it with the palette, or nothing when the rectangle is empty
      (getImageData throws) or the palette is empty and a pixel exists (the
      pass throws). */
  ghost predicate BayerOutcome(paletteToUse: seq<Color>, canvas: seq<byte>, dw: nat, dh: nat, dithered: Option<seq<byte>>) {
    && (dithered.Some? <==> dw > 0 && dh > 0 && Dithering.CanDither(|canvas|, paletteToUse))
    && (dithered.Some? ==> dithered.value == Dithering.BayerPass(canvas, dw, paletteToUse))
  }

  /** What the diffusion branch yields for a dw x dh drawing: the reduced
      pixels written over the front of the drawing, or nothing when the
      rectangle is empty (getImageData throws) or the reduced data is longer
      than the drawing (the typed-array set throws). */
  ghost predicate DiffusionOutcome(reduced: seq<byte>, canvas: seq<byte>, dw: nat, dh: nat, dithered: Option<seq<byte>>) {
    && (dithered.Some? <==> dw > 0 && dh > 0 && |reduced| <= |canvas|)
    && (dithered.Some? ==>
          |dithered.value| == |canvas| && dithered.value[..|reduced|] == reduced
          && dithered.value[|reduced|..] == canvas[|reduced|..])
  }

  /** The end of the diffusion branch: the reduced pixels are written over
      the front of the dw x dh drawing and the post-steps are counted. */
  method DiffusionResult(reduced: seq<byte>, canvas: seq<byte>, dw: nat, dh: nat, finalWidth: nat, finalHeight: nat,
                         pixelScale: int, pixeliness: int)
    returns (outcome: Outcome)
    ensures DiffusionOutcome(reduced, canvas, dw, dh, Dithered(outcome))
    ensures ResultShape(outcome, finalWidth, finalHeight, pixelScale, pixeliness, false)
  {
    outcome := Failed;
    if dw > 0 && dh > 0 {
      var written := SetPrefix(canvas, reduced);
      if written.Some? {
        outcome := Done(DitherResult(finalWidth, finalHeight, written.value, pixelScale > 1,
                                     if pixeliness > 1 then 1 else 0));
      }
      // otherwise imageData.data.set throws a RangeError
    }
    // otherwise getImageData throws
  }

  /** With the cache warm for the current palette, a diffusion run after a
      change of kernel and serpentine flag reuses the cached quantizer,
      samples nothing and reduces with the new kernel and flag. */
  method RunWithNewKernel(e: Engine, source: SourceImage, width: nat, finalHeight: nat, lib: RgbQuant,
                          draw: (SourceImage, nat, nat) -> seq<byte>,
                          redraw: (seq<byte>, SourceImage, nat, nat) -> seq<byte>, algorithm: string, serpentine: bool)
    requires e.Valid() && e.ditherMode == Diffusion
    requires e.cachedQuant != null && e.cachedPaletteKey == PaletteKey(e.palette)
    modifies e
    ensures e.cachedQuant == old(e.cachedQuant) && e.sampleCount == old(e.sampleCount)
    ensures e.reduceCalls == old(e.reduceCalls) + [(algorithm, serpentine)]
  {
    e.SetKernel(algorithm, serpentine);
    var outcome := e.Dither(source, width, finalHeight, lib, draw, redraw, false);
  }

  /** Two diffusion runs that differ only in kernel and serpentine flag
      sample at most once between them: the second run reuses the first
      run's quantizer and reduces with the new kernel and flag. */
  method ChangeKernelBetweenRuns(e: Engine, source: SourceImage, width: nat, finalHeight: nat, lib: RgbQuant,
                                 draw: (SourceImage, nat, nat) -> seq<byte>,
                                 redraw: (seq<byte>, SourceImage, nat, nat) -> seq<byte>, algorithm: string, serpentine: bool)
    requires e.Valid() && e.ditherMode == Diffusion
    modifies e
    ensures e.sampleCount <= old(e.sampleCount) + 1
    ensures |e.reduceCalls| == |old(e.reduceCalls)| + 2
    ensures e.reduceCalls[|e.reduceCalls| - 1] == (algorithm, serpentine)
  {
    var first := e.Dither(source, width, finalHeight, lib, draw, redraw, false);
    RunWithNewKernel(e, source, width, finalHeight, lib, draw, redraw, algorithm, serpentine);
  }

  /** After invalidateQuantCache the next diffusion run samples again, with
      a new quantizer that has seen only that run's image. */
  method InvalidateThenRun(e: Engine, source: SourceImage, width: nat, finalHeight: nat, lib: RgbQuant,
                           draw: (SourceImage, nat, nat) -> seq<byte>, redraw: (seq<byte>, SourceImage, nat, nat) -> seq<byte>)
    requires e.Valid() && e.ditherMode == Diffusion
    modifies e
    ensures e.sampleCount == old(e.sampleCount) + 1
    ensures e.cachedQuant != null && e.cachedQuant.sampled == [source]
  {
    e.InvalidateQuantCache();
    var outcome := e.Dither(source, width, finalHeight, lib, draw, redraw, false);
  }
}
