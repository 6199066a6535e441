# Dither engine, palette editor and image gallery, in Dafny

This project models the sequential core of a web image-dithering tool:

- `Dithering.dfy`, modules `Pixels` and `Dithering`: the main-thread Bayer
  ordered dither (`app/utils/dithering.ts`). It covers the nearest-colour
  search, the fixed 4x4 threshold table, and the in-place pass over an RGBA
  byte buffer, which is kept as an `array`. The pass is proved equal to
  `BayerPass`, a function of the input bytes. Lemmas about `BayerPass` state
  what each byte becomes.
- `Worker.dfy`, module `DitherWorker`: the Bayer Web Worker
  (`app/utils/dither-worker.ts`). It has its own copy of the table and of the
  search, plus a per-message memo keyed by the packed RGB value. The memo
  invariant (every stored key maps to what an uncached search returns) is
  kept by the loop. The worker's output is proved to be the main thread's
  `BayerPass`.
- `Engine.dfy`, module `DitherEngine`: the `useDithering` composable as a
  class. It covers:
  - the palette fingerprint and its injectivity;
  - the quantizer options;
  - the pre-dither size rule;
  - the single-slot quantizer cache with its sample counter;
  - the choice between the Bayer path (worker, or main-thread fallback) and
    the error-diffusion path;
  - the `isProcessing` bracketing.
- `Palette.dfy`, module `PaletteEditor`: the `usePalette` composable. It
  covers the hex conversions and their round trips, the preset table, and
  the editing operations on the working palette and the saved palettes.
- `Gallery.dfy`, module `ImageGallery`: the `useImageGallery` composable. It
  covers the upload size filter, the image list with its id-based
  selection, the per-id field updates, the bulk clearing, and ZIP entry
  naming.
- `Text.dfy`, modules `Wrappers` and `Text`: the JavaScript string
  primitives the above rely on. These are `Number#toString` in radix 10
  and 16, `parseInt`, `String#trim`, `Array#join` and `startsWith`.

The canvas, the worker transport and the RgbQuant library are parameters:
- `draw(image, w, h)` gives the RGBA bytes of an image drawn at w x h;
- `redraw(canvas, image, w, h)` gives the canvas bytes after the image is
  drawn at w x h over what the canvas already holds;
- `workerReplies` says whether the worker answered before its 10 s timeout;
- an `RgbQuant` value holds the palette the library derives from what it
  sampled, and the pixels `reduce` returns.

Ghost fields count `sample` calls (`sampleCount`) and record the kernel of
every `reduce` call (`reduceCalls`) and every value of `isProcessing`
(`processingTrace`).

Notes on behaviour:
- **Threshold table.** A single hard-coded 4x4 table holds 15·(rank+1)
  over the standard Bayer rank matrix. `bayerSize` is passed to
  `bayerDither` as an extra argument and to the worker in the message, and
  neither reads it.
- **Empty palette.** With an empty palette and at least one whole pixel,
  the pass throws at the first pixel, in both versions. The Bayer branch only
  reaches that when the palette analysis derives an empty palette.
- **The Bayer fallback.** The main thread takes over when the worker does
  not answer in time, when its pass throws, or when posting the message
  throws. It draws the image a second time
  over the first drawing; the canvas was cleared only once, before the first
  drawing. It then runs the pass and pixelates when `pixeliness > 1`. The
  worker never pixelates.
- **Pixelation.** Every finished run pixelates once more when
  `pixeliness > 1`. A finished run therefore counts two pixelation passes
  after the Bayer fallback, one otherwise, and none when `pixeliness <= 1`.
- **Cache key.** The quantizer cache is keyed by the palette only. `analyzePalette` is not
  cached. It always samples a fresh quantizer whose options have an empty palette and ask for
  `palette.length || 8` colours.
- **No validation.** Block sizes are not validated, and `importFromJson`
  does not check that the hex strings are colours.

## Model

The contracts below are stated in terms of a few reference definitions:
- `Dithering.BlendColor` is the three `Math.floor((c + threshold) / 2)`
  blends of a pixel (app/utils/dithering.ts:66-74).
- `Dithering.DitheredColor` is the body of the pixel loop: the colour
  `getClosestColor` picks for the blended pixel (dithering.ts:62-80).
- `Dithering.OutByte` is the value of one byte after that loop: R, G and B
  of a whole pixel are replaced, and alpha and any tail are kept.
- `Dithering.BayerPass` is the whole buffer after the loop.
- `PaletteEditor.IsHexColor` is the regular expression of `hexToRgb`
  (usePalette.ts:160).
- `DitherEngine.ColorKey` is `c.join(',')` (useDithering.ts:95).
- `DitherEngine.BayerPalette` is the `paletteToUse` choice of the Bayer
  branch (useDithering.ts:153).
- `DitherEngine.NeedsSample` is the negation of the cache-hit test
  `cachedQuant && cachedPaletteKey === palKey` (useDithering.ts:195).

| member | source | states |
|---|---|---|
| Dithering.FirstNearest | app/utils/dithering.ts:4-11 | the scan's pick among the first n entries is at minimum squared distance from the target and strictly closer than every entry before it (ties go to the lowest position) |
| Dithering.FirstNearestIsReference | app/utils/dithering.ts:1-13 | a position is the scan's pick if and only if it is closest and strictly closer than all earlier entries, so the result is uniquely determined |
| Dithering.GetClosestColor | app/utils/dithering.ts:1-13 | for a non-empty list the loop returns the first nearest entry; it is an element of the list at distance no greater than any entry's; an empty list is excluded because the source would return undefined |
| Dithering.ThresholdsAreScaledRanks | app/utils/dithering.ts:50-55 | the table is 4x4 and each entry is 15·(rank+1) for the standard 4x4 Bayer rank matrix |
| Dithering.RanksInterleave2x2 | app/utils/dithering.ts:50-55 | the rank matrix is the standard interleaving of the 2x2 matrix [[0,2],[3,1]] |
| Dithering.ThresholdsDistinctInRange | app/utils/dithering.ts:50-55 | the sixteen ranks are distinct values in 0..15 and the sixteen thresholds are distinct values in 15..240 |
| Dithering.Threshold | app/utils/dithering.ts:63-67 | the threshold table[x mod 4][y mod 4] of a pixel lies in 15..240 |
| Dithering.Blend | app/utils/dithering.ts:66-74 | floor((c+t)/2) is characterised by 2v <= c+t < 2v+2 and stays in 7..247 for a byte c |
| Dithering.BayerPassPixel | app/utils/dithering.ts:60-80 | whole pixel p of the pass output has the RGB of palette[e.index], where e is the first nearest indexed entry to the pixel blended with the threshold at (p mod w, p div w); so every output colour is a palette colour |
| Dithering.PassPixelIsDithered | app/utils/dithering.ts:76-80 | the RGB written for whole pixel p is the colour of the entry the search picks for its blended colour |
| Dithering.NearestIsIndexedEntry | app/utils/dithering.ts:60 | the entry picked from palette.map((color, id) => [id, ...color]) carries its own position and the palette colour at that position |
| Dithering.BayerPassKeepsAlpha | app/utils/dithering.ts:78-80 | byte 3 of every whole pixel (alpha) is unchanged by the pass |
| Dithering.BayerPassKeepsTail | app/utils/dithering.ts:62 | bytes past the last whole pixel are unchanged by the pass |
| Dithering.BayerPassOneColor | app/utils/dithering.ts:76-80 | with a one-colour palette every whole pixel becomes that colour |
| Dithering.PassStep | app/utils/dithering.ts:62-81 | writing the dithered colour of the next whole pixel extends the loop invariant by one pixel: handled bytes hold the pass output, the rest still holds the input |
| Dithering.PassDone | app/utils/dithering.ts:62-81 | once every whole pixel is handled the buffer equals the pass output |
| Dithering.BayerDither | app/utils/dithering.ts:44-88 | the loop succeeds exactly when the palette is non-empty or there is no whole pixel; on success the buffer becomes BayerPass of its old contents, otherwise it is unchanged; the pixelation post-step runs exactly when the pass succeeded and blockSize > 1 |
| DitherWorker.SameTableAsMainThread | app/utils/dither-worker.ts:4-9 | the worker's table is identical to the main-thread table |
| DitherWorker.Threshold | app/utils/dither-worker.ts:47-50 | the worker reads the same threshold as the main thread for every pixel |
| DitherWorker.GetClosestColor | app/utils/dither-worker.ts:12-27 | the worker's search returns the same first nearest entry as the main thread's, an element of the list at minimum distance |
| DitherWorker.PackedKey | app/utils/dither-worker.ts:56 | the packed key of a colour lies in 0..2^24-1 and decodes back to the colour |
| DitherWorker.OrIsSum | app/utils/dither-worker.ts:56 | for channels below 256, (r<<16)\|(g<<8)\|b on 32-bit integers equals r·65536 + g·256 + b and stays below 2^24 (no sign bit) |
| DitherWorker.PackedKeyInjective | app/utils/dither-worker.ts:56 | two colours have the same key if and only if they are equal |
| DitherWorker.PackedKeyOnto | app/utils/dither-worker.ts:56 | every key in 0..2^24-1 is the key of the colour it decodes to |
| DitherWorker.CacheInsert | app/utils/dither-worker.ts:57-61 | storing a fresh search result keeps the memo sound: every stored key maps to the uncached search result for its colour |
| DitherWorker.OnMessage | app/utils/dither-worker.ts:37-70 | the worker succeeds exactly when the main-thread pass would; on success the buffer equals the main-thread BayerPass of its old contents (so a memo hit equals a fresh search), and the reply echoes width and height; on failure the buffer is unchanged; blockSize and bayerSize have no effect |
| DitherEngine.ColorKeyShape | app/composables/useDithering.ts:95 | c.join(',') is the three channels in decimal separated by commas, non-empty and free of '\|' |
| DitherEngine.ColorKeyInjective | app/composables/useDithering.ts:95 | two colours have the same key if and only if they are equal |
| DitherEngine.PaletteKeyInjective | app/composables/useDithering.ts:94-96 | two palettes have the same fingerprint if and only if they are equal |
| DitherEngine.PaletteKey | app/composables/useDithering.ts:94-96 | the fingerprint is empty exactly for the empty palette, so an empty cache slot (key '') never matches a non-empty palette |
| DitherEngine.RgbQuantOptions | app/composables/useDithering.ts:98-113 | colours is the palette length, or 8 for an empty palette (never 0); the options carry the palette, the current kernel and the serpentine flag |
| DitherEngine.AnalysisOptions | app/composables/useDithering.ts:115-119 | the analysis quantizer gets an empty palette and, for an empty current palette, 8 colours |
| DitherEngine.RoundDiv | app/composables/useDithering.ts:144-145 | the integer form of Math.round(a/b) is the nearest integer to a/b, halves rounded up: 2rb <= 2a+b < 2rb+2b |
| DitherEngine.RoundDivShrinks | app/composables/useDithering.ts:144-145 | dividing a side by a scale above 1 and rounding never gives more pixels than the side had |
| DitherEngine.DitherDim | app/composables/useDithering.ts:143-145 | with pixelScale > 1 each pre-dither side is at least 1 and no larger than the final side (or 1); otherwise it is the final side |
| DitherEngine.SetPrefix | app/composables/useDithering.ts:211 | typedArray.set(src) succeeds exactly when src fits; the front then holds src and the rest is unchanged |
| DitherEngine.FinalWidth | app/composables/useDithering.ts:139 | a given (non-zero) width is used as it is; the final width is 0 exactly when no width is given and the natural width is 0 |
| DitherEngine.Quantizer.Sample | app/composables/useDithering.ts:202 | sample adds the image to what the quantizer has seen |
| DitherEngine.Engine.constructor | app/composables/useDithering.ts:68-82 | the initial state: not processing, diffusion mode, FloydSteinberg, no serpentine, scales 1, Bayer size 4, empty palette, empty cache slot with the empty key |
| DitherEngine.Engine.SetKernel | app/composables/useDithering.ts:70-71 | the kernel and serpentine settings change and nothing else does |
| DitherEngine.Engine.InvalidateQuantCache | app/composables/useDithering.ts:249-252 | the slot is emptied with the empty key, so the next diffusion run needs a new sample |
| DitherEngine.Engine.AnalyzePalette | app/composables/useDithering.ts:115-122 | a fresh quantizer with the analysis options samples the image once, and the result is the palette derived from that one image |
| DitherEngine.Engine.QuantizerFor | app/composables/useDithering.ts:192-205 | a new quantizer is built and samples exactly when the slot is empty or its key differs from the current fingerprint; otherwise the cached one is reused; afterwards the slot holds the quantizer used, keyed by the current fingerprint, built for exactly the current palette |
| DitherEngine.Engine.Reduce | app/composables/useDithering.ts:192-209 | the cache decision as above, then reduce is called with the current kernel and serpentine flag on the cached quantizer |
| DitherEngine.Engine.BayerBranch | app/composables/useDithering.ts:155-189 | the worker exists afterwards; when it answers and its pass can run, the result is BayerPass of the first drawing and nothing pixelates; otherwise the fallback's pass over the second drawing decides success and result, and pixelates exactly once when it succeeds with pixeliness > 1 |
| DitherEngine.Engine.BayerRun | app/composables/useDithering.ts:155-189 | the Bayer result exists exactly when the rectangle is non-empty and the pass on the worker's or the fallback's drawing can run, and is BayerPass of that drawing; the worker is created exactly when the rectangle is non-empty; a result counts two pixelation passes after the fallback and one otherwise when pixeliness > 1, none when pixeliness <= 1 |
| DitherEngine.Engine.DitherBayer | app/composables/useDithering.ts:151-189 | the Bayer path uses the current palette when non-empty and otherwise the analysed one (one extra sample), with the result and pixelation count of BayerRun; isProcessing is raised and lowered |
| DitherEngine.DiffusionResult | app/composables/useDithering.ts:210-243 | the diffusion result exists exactly when the rectangle is non-empty and the reduced pixels fit; they then overwrite the front of the drawing; a result reports the final size and the upscale flag, and counts exactly one pixelation pass when pixeliness > 1 and none otherwise |
| DitherEngine.Engine.DitherDiffusion | app/composables/useDithering.ts:190-213 | samples exactly when the cache misses, leaves the slot non-null and keyed by the current fingerprint, calls reduce once with the current kernel and flag, and lowers isProcessing |
| DitherEngine.Engine.Dither | app/composables/useDithering.ts:130-247 | the whole run: pre-dither size from the size rule; by mode, the cache facts and reduce call of the diffusion branch, or the palette fallback, worker creation and worker-or-fallback result of the Bayer branch; the final size, the upscale flag and the exact number of pixelation passes (two only after the Bayer fallback, with pixeliness > 1); isProcessing true then false on every path |
| DitherEngine.RunWithNewKernel | app/composables/useDithering.ts:194-209 | with the cache warm for the current palette, a run after a kernel change reuses the cached quantizer, samples nothing and reduces with the new kernel |
| DitherEngine.ChangeKernelBetweenRuns | app/composables/useDithering.ts:194-209 | two diffusion runs that differ only in kernel and serpentine flag sample at most once in total, and the second reduce uses the new settings |
| DitherEngine.InvalidateThenRun | app/composables/useDithering.ts:249-252 | after invalidateQuantCache the next diffusion run samples again, with a new quantizer that has seen only that image |
| PaletteEditor.HexToRgb | app/composables/usePalette.ts:159-163 | a colour is returned exactly for six hex digits of either case, optionally after one '#'; null otherwise |
| PaletteEditor.RgbToHex | app/composables/usePalette.ts:165-167 | '#' followed by two lower case hex digits per channel, seven characters, accepted by hexToRgb |
| PaletteEditor.RgbToHexDigits | app/composables/usePalette.ts:166 | the base-16 form of 2^24 + (r<<16) + (g<<8) + b is '1' followed by the three two-digit channel forms |
| PaletteEditor.HexRoundTrip | app/composables/usePalette.ts:159-167 | hexToRgb(rgbToHex(c)) == c for every colour |
| PaletteEditor.HexNormalises | app/composables/usePalette.ts:159-167 | rgbToHex(hexToRgb(h)) is h with a '#' and in lower case, for every accepted h |
| PaletteEditor.PaletteAsRgb | app/composables/usePalette.ts:150-152 | at most one value per colour, each the value of some colour of the palette |
| PaletteEditor.PaletteAsRgbAllValid | app/composables/usePalette.ts:150-152 | when every hex is valid nothing is dropped and entry i is the value of colour i |
| PaletteEditor.FromRgb | app/composables/usePalette.ts:170-175 | one valid hex colour per given array |
| PaletteEditor.FromRgbRoundTrip | app/composables/usePalette.ts:169-175 | reading back a palette set from RGB arrays gives those colours, with missing channels as 0 |
| PaletteEditor.FindPreset | app/composables/usePalette.ts:212 | the first preset with the value, and None exactly when no preset has it |
| PaletteEditor.PresetColors | app/composables/usePalette.ts:201-217 | 'original' always loads the original palette, and whatever a value loads is the original palette, a saved palette or a preset's colours |
| PaletteEditor.SelectSavedPalette | app/composables/usePalette.ts:201-211 | the name custom-n that saving gives palette n selects exactly that palette's colours |
| PaletteEditor.SelectUnknownCustom | app/composables/usePalette.ts:206-210 | a custom-name whose suffix does not parse to a saved index loads nothing |
| PaletteEditor.SelectPresetLoadsIt | app/composables/usePalette.ts:201-217 | every preset's value loads that preset's colours: values are distinct, none is 'original' and none starts with 'custom-' |
| PaletteEditor.Editor.constructor | app/composables/usePalette.ts:140-143 | empty palettes and 'original' selected |
| PaletteEditor.Editor.SetPaletteFromRgb | app/composables/usePalette.ts:169-180 | the working palette becomes the hex forms of the arrays; the original palette is set only when it was empty |
| PaletteEditor.Editor.SetColorAt | app/composables/usePalette.ts:182-187 | an index in range replaces only that entry and selects 'custom'; any other index changes nothing |
| PaletteEditor.Editor.AddColor | app/composables/usePalette.ts:189-192 | exactly one colour (default #ffffff) is appended and 'custom' selected |
| PaletteEditor.Editor.RemoveColor | app/composables/usePalette.ts:194-199 | with more than two colours and a valid index exactly that entry is removed; otherwise nothing changes; the palette never drops below two by this call |
| PaletteEditor.Editor.SelectPreset | app/composables/usePalette.ts:201-217 | the value is recorded and the colours it names, if any, are loaded; otherwise the palette is kept |
| PaletteEditor.Editor.SaveCurrentPalette | app/composables/usePalette.ts:238-251 | a blank name returns false and changes nothing; otherwise the trimmed name and a copy of the palette are appended and custom-(n-1) selected, which loads that palette again |
| PaletteEditor.Editor.DeleteCustomPalette | app/composables/usePalette.ts:253-262 | a valid index removes that saved palette and resets to the original palette; an invalid one is a no-op |
| PaletteEditor.Editor.ImportParsed | app/composables/usePalette.ts:264-285 | succeeds exactly for an array whose every entry is an object with a string hex, replacing the palette and selecting 'custom'; otherwise nothing changes |
| Text.JoinInjective | app/composables/useDithering.ts:95 | joining non-empty separator-free parts can be undone: equal joins mean equal part lists |
| Text.DecimalInjective | app/composables/usePalette.ts:249 | two numbers print the same decimal string only when equal |
| Text.ParseInt | app/composables/usePalette.ts:207 | parseInt reads a string starting with a digit 1-9 as a number of at least 0, and gives a negative number only after a minus sign that follows the leading white space |
| Text.ParseIntDecimal | app/composables/usePalette.ts:207 | parseInt reads back the decimal form of every natural number |
| Text.Trim | app/composables/usePalette.ts:239 | trim removes exactly the leading and trailing white space: empty exactly for all-space input, otherwise a slice whose ends are not white space |
| ImageGallery.ImageFiles | app/composables/useImageGallery.ts:35 | the filter keeps exactly the image/* files and never adds any |
| ImageGallery.Oversized | app/composables/useImageGallery.ts:35-41 | the rejected files are no more than those offered, each an image/* file over 2.5 MiB |
| ImageGallery.Accepted | app/composables/useImageGallery.ts:35-45 | the files read are no more than those offered, each an image/* file within the limit |
| ImageGallery.OversizedExactly | app/composables/useImageGallery.ts:35-41 | a file is rejected exactly when it is an image/* file over 2.5 MiB |
| ImageGallery.AcceptedExactly | app/composables/useImageGallery.ts:35-45 | a file is read exactly when it is an image/* file within the limit; so a non-image is neither rejected nor read |
| ImageGallery.OversizedKeepsOrder | app/composables/useImageGallery.ts:38-41 | rejections of a batch are those of its first part followed by those of its second (input order) |
| ImageGallery.AcceptedKeepsOrder | app/composables/useImageGallery.ts:38-61 | started reads keep input order in the same way |
| ImageGallery.FilterFirst | app/composables/useImageGallery.ts:35 | filtering out non-images first changes neither list |
| ImageGallery.AddImages | app/composables/useImageGallery.ts:34-65 | the returned names are exactly the oversized image files in order, and the reads started are exactly the accepted files in order |
| ImageGallery.FindIndex | app/composables/useImageGallery.ts:79 | the position of the first image with the id, -1 exactly when there is none |
| ImageGallery.CountProcessed | app/composables/useImageGallery.ts:24-26 | the processed count is at most the number of images |
| ImageGallery.CountAfterSet | app/composables/useImageGallery.ts:101-106 | setting a dithered result adds one to the count exactly when the image had none |
| ImageGallery.NoneProcessed | app/composables/useImageGallery.ts:122-127 | with every result cleared the count is 0 |
| ImageGallery.StripExtension | app/composables/useImageGallery.ts:157 | the base name is a prefix of the file name; when shorter, the name goes on with a dot, at least one more character and no further dot |
| ImageGallery.ZipEntryName | app/composables/useImageGallery.ts:157-158 | the entry name is a prefix of the file name followed by '-dithered.png' |
| ImageGallery.StripsExtension | app/composables/useImageGallery.ts:157-158 | base + '.' + ext, with ext non-empty and dot-free, loses exactly '.ext', and its ZIP entry is base + '-dithered.png' |
| ImageGallery.KeepsExtensionless | app/composables/useImageGallery.ts:157-158 | a name without a dot, or ending in a dot, is kept whole |
| ImageGallery.Gallery.constructor | app/composables/useImageGallery.ts:14-15 | empty list, no selection |
| ImageGallery.Gallery.SelectedImage | app/composables/useImageGallery.ts:18-20 | the image at the first position with the selected id (FindIndex), None exactly when there is none or nothing is selected |
| ImageGallery.Gallery.HasImages | app/composables/useImageGallery.ts:22 | false exactly for an empty gallery, where nothing is selected and nothing counts as processed |
| ImageGallery.Gallery.ProcessedCount | app/composables/useImageGallery.ts:24-26 | never more than the number of images |
| ImageGallery.Gallery.OnLoad | app/composables/useImageGallery.ts:44-59 | one image with no results, not processing, is appended; it is selected exactly when it is now the only image |
| ImageGallery.Gallery.SelectImage | app/composables/useImageGallery.ts:74-76 | the selection becomes the id; the list is unchanged |
| ImageGallery.Gallery.RemoveImage | app/composables/useImageGallery.ts:78-94 | an unknown id changes nothing; otherwise exactly the first image with the id is removed; a removed selected image passes the selection to the image at max(0, index-1), or None when the list is empty; any other selection is kept |
| ImageGallery.Gallery.ClearAll | app/composables/useImageGallery.ts:96-99 | empty list, no selection, no processed images |
| ImageGallery.Gallery.SetDitheredResult | app/composables/useImageGallery.ts:101-106 | only the dithered result of the first image with the id changes (unknown id: no-op); the count grows by one exactly when it had none |
| ImageGallery.Gallery.SetResizedOriginal | app/composables/useImageGallery.ts:108-113 | only the resized source of the first image with the id changes; unknown id: no-op |
| ImageGallery.Gallery.SetProcessing | app/composables/useImageGallery.ts:115-120 | only the processing flag of the first image with the id changes; unknown id: no-op |
| ImageGallery.Gallery.ClearDitheredResults | app/composables/useImageGallery.ts:122-127 | every image loses its dithered result and resized source and keeps its other fields; the processed count becomes 0 |

## Left out

- **Canvas and DOM work.** Not modelled: `drawImage`, `getImageData`, `putImageData`, smoothing flags, `toBlob` and object URLs.
  - A drawing is the `draw` parameter, and the fallback's drawing over the first one is the `redraw` parameter. Source-over compositing itself is not modelled.
  - The only failure of `getImageData` that is modelled is the empty rectangle.
- **addPixelation.** Its browser resampling is not modelled. The model only counts the pixelation passes that run.
- **Upscale.** The nearest-neighbour upscale after a downscaled dither is not modelled. The model records only that it ran.
- **Worker messaging.** Not modelled: the buffer transfer, its `onerror` event, and the 10 s timeout race. These are concurrency and timers.
  - The worker is a plain method call.
  - `workerReplies` says whether its reply came in time. It is false when posting the message throws, for example when structured clone refuses the palette. A pass that throws inside the worker sends the run to the fallback, as its error event does.
  - The fallback runs the main-thread pass on `redraw` of the first drawing.
- BayerBranch: takes the worker as created on every non-empty run. A `new Worker` that throws leaves no worker in the source, and that case is not modelled.
- **RgbQuant.** Its internals are left out: `sample`'s statistics, `palette`, `reduce` and the diffusion kernels. The library is foreign code.
  - An `RgbQuant` value gives the two results as functions.
  - A `Quantizer` records the images it sampled.
- Reduce, QuantizerFor and AnalyzePalette: treat the library calls as total. In the source `sample`, `palette` and `reduce` can throw inside `dither`'s `try`/`finally`, and the model has no such outcome. The cache is then left in different states. A `sample` that throws on a miss leaves the slot as it was. A `reduce` that throws after a miss leaves the slot holding the new quantizer.
- **Floating-point sizes.** `finalHeight` is a float computed from the aspect ratio; here it is a `nat` parameter. `pixelScale` is taken as an integer.
- **imageCache and loadImage.** The asynchronous image decode and `evictImageCache` are left out.
- **Persistence and parsing.** `localStorage` loading and saving and `JSON.parse`/`JSON.stringify` are left out. `importFromJson` is modelled on an already parsed value, with None for a parse error.
- ImportParsed: keeps only the `hex` field of each entry. The source keeps whatever other fields the parsed objects carry.
- **Palette UI state.** `exportJson`, `isCustomSelected`, `isCustomPaletteSelected` and `editingColorIndex` are left out. They are UI state with no logic.
- PaletteAsRgb: states membership and length rather than the filter equation. `PaletteAsRgbAllValid` gives the exact contents when every hex is valid.
- **Gallery I/O.** `FileReader`, `fetch`, `JSZip` and the link download are left out.
  - The id (`generateId` uses the clock and randomness) and the data URL are parameters of `OnLoad`.
  - The asynchronous completion order of several reads is not modelled. `AddImages` returns the reads it starts, and each completes with a call of `OnLoad`.
- **addImageFromUrl** is not modelled. It is a fetch followed by `addImages` on one file.
- **downloadAll** is modelled only through its ZIP entry naming.
  - Its processing loop, `isDownloadingAll` and the archive generation are left out.
  - Its `!dataUrl` test also treats an empty data URL as missing.
- **Channel values** are bytes. Palettes given as arrays of other numbers are not modelled.
- **Aliasing.** Gallery images and palettes are values held in sequences, so aliasing between records is not modelled.
