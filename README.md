# interactive-ink-examples-wpf: a Dafny model of the UI reference implementation

This project models the parts of MyScript's WPF examples that hold real logic. These are the
code around the ink engine, not the engine itself:

- **`ImageLoader.dfy` (module `ImageCache`)**: the bounded LRU image cache `LruImgCache` and
  `ImageLoader.getImage`.
  - The cache is a class with a recency list (`seq<string>`, most recent first), a
    `map<string, ImageNode>` and a byte counter.
  - `putBitmap` evicts from the tail in a loop (`Evict`). It is proved to keep the longest
    prefix of the recency list that leaves room for the new image (`Kept`).
  - It keeps the invariant: the keys are the list's elements, the counter is the sum of the
    stored costs, and the counter is within the budget.
- **`SmartGuide.dfy`**: the smart-guide strip.
  - `ComputeTextDifferences` fills a `array2<nat>` Levenshtein table over word labels. The
    table is proved equal to a recursive `Distance`.
  - A backward walk then clears the `Updated` flags of the words it matches.
  - Also modelled: `CloneWords`, `UpdateData`, `UpdateWidgets` (the strip, the fade delay and
    the timers) and `OnSelectionChanged`.
- **`EditorControl.dfy`**:
  - the `ContextualActions` flags of both `GetAvailableActions` overloads;
  - the single-pointer ownership rule of the `renderLayer_*` handlers;
  - the mouse-wheel arithmetic;
  - the active-pen tool assignment and `EnableSmartGuide`.
- **`Canvas.dfy` (module `Canvases`)**: the engine's canvas.
  - The `DrawingContext` is an append-only log of operations.
  - Each draw method is proved to append exactly a pure function of the canvas style.
  - Lemmas prove alpha gating, fill-before-stroke, balanced push/pop nesting, and the
    `StartGroup`/`EndGroup` round trip.
- **`Path.dfy` (module `Paths`)**: the `RenderPath` builder, as a class whose methods perform
  the steps of a pure `Step` function.
- **`FontMetrics.dfy`**:
  - font weight, style and family mapping;
  - `FontFamilies` registration and `Initialize`-once;
  - `FontKey.Equals`;
  - the two-level glyph-metrics memo, which returns fresh copies;
  - the span walk that produces one metric per glyph position.
- **`DisplayResolution.dfy`**: HRESULT masking and classification, and the 96-dpi fallback of
  `GetDpi`.
- **`ImageExport.dfy`**: `ImagePainter` and `ImageDrawer`. It covers:
  - encoder choice by lower-cased extension;
  - the reset of `_image` and the exception path;
  - `PrepareImage`, `CreateCanvas` and `Invalidate`, including the layer-flag order.
- **`DemoWindow.dfy`**: the demo window's logic:
  - the tool-style string;
  - the export and image filters;
  - the export extension rule and the image MIME search;
  - `MakeUntitledFilename`;
  - the Previous/Next part search;
  - the pen-width menu.
- **`Strings.dfy` and `Wrappers.dfy`**: the .NET string operations used above, and
  `Option`/`Result`.

The platform and the engine are replaced by values and parameters:

- bitmap decoding: `decode`
- glyph measurement: `measure`
- file existence: `fileExists`, or a list of existing paths
- the MIME registry: extension lists, already split
- what the editor says about a block or selection: records of facts
- whether a part can be set: `canSet`

## Model

| member | source | states |
|---|---|---|
| ImageCache.Cost | UIReferenceImplementation/ImageLoader.cs:54 | cost is bits-per-pixel times pixel count over 8, truncated: `8c <= bpp*w*h < 8c + 8` |
| ImageCache.FallbackCostsFour | UIReferenceImplementation/ImageLoader.cs:109-117 | the 1x1 default-format placeholder costs 4 bytes, the value `putBitmap` charges for it |
| ImageCache.Wrap32 | UIReferenceImplementation/ImageLoader.cs:54 | the `int` product wraps: result in the 32-bit range and congruent to the exact value mod 2^32 |
| ImageCache.TruncDiv8 | UIReferenceImplementation/ImageLoader.cs:54 | `(int)(x / 8.0)` truncates toward zero for both signs |
| ImageCache.CostAsWrittenAgreesWithoutOverflow | UIReferenceImplementation/ImageLoader.cs:54 | when the product fits in 32 bits, the written expression equals `Cost` |
| ImageCache.CostAsWrittenOverflows | UIReferenceImplementation/ImageLoader.cs:54-57 | 8192x8192 at 32 bpp: the written cost is -268435456, so the too-big test fails although the true cost exceeds 200 MB |
| ImageCache.LoadBitmap | UIReferenceImplementation/ImageLoader.cs:80-107 | non-`image/` MIME type or a failed decode gives the fallback; any other result is the decoded image |
| ImageCache.NodeFor | UIReferenceImplementation/ImageLoader.cs:53-62 | an image over budget is replaced by the placeholder at cost 4; otherwise the image is stored at its own cost |
| ImageCache.NodeFits | UIReferenceImplementation/ImageLoader.cs:56-62 | with a budget of at least 4, the stored node alone fits the budget |
| ImageCache.Kept | UIReferenceImplementation/ImageLoader.cs:65-72 | how many recent entries survive eviction; `None` only when the new cost alone exceeds the budget |
| ImageCache.KeptIsLongestFit | UIReferenceImplementation/ImageLoader.cs:65-72 | eviction keeps the longest prefix whose cost sum plus the new cost fits; one more entry would not fit |
| ImageCache.KeptSomeWhenFits | UIReferenceImplementation/ImageLoader.cs:65-72 | a cost within the budget never makes eviction run off the empty list |
| ImageCache.Evict | UIReferenceImplementation/ImageLoader.cs:64-72 | the loop removes from the tail only, subtracting each cost; it ends on exactly `Kept` entries with the invariant kept, or fails on an empty list |
| ImageCache.EvictLast | UIReferenceImplementation/ImageLoader.cs:67-71 | dropping the tail key from list and map and subtracting its cost keeps the invariant and the eventual `Kept` |
| ImageCache.InsertFront | UIReferenceImplementation/ImageLoader.cs:75-77 | adding a fresh url at the front with its cost keeps the invariant |
| ImageCache.LruImgCache.constructor | UIReferenceImplementation/ImageLoader.cs:31-35 | empty list and map, counter 0, the given budget |
| ImageCache.LruImgCache.ContainsBitmap | UIReferenceImplementation/ImageLoader.cs:37-40 | membership of the map (equivalently of the list); nothing changes |
| ImageCache.LruImgCache.GetBitmap | UIReferenceImplementation/ImageLoader.cs:42-49 | url moved to the front with the others in order; a missing url is a key error after the list was already changed |
| ImageCache.LruImgCache.PutBitmap | UIReferenceImplementation/ImageLoader.cs:51-78 | new list and map exactly: eviction to `Kept`, then insertion at the front; duplicate key and empty-list failures; within budget; with budget >= 4 a new url is always stored |
| ImageCache.ImageLoader.constructor | UIReferenceImplementation/ImageLoader.cs:135-139 | a fresh, empty cache with the 200 MB budget |
| ImageCache.ImageLoader.GetImage | UIReferenceImplementation/ImageLoader.cs:141-156 | afterwards the url is cached and most recent and the cached image is returned; a hit only moves the url to the front; a miss evicts exactly as `putBitmap` does (the `Kept` most recent entries survive) and stores `NodeFor` at the front; both cases are the predicate `Fetched` of the cache before the call |
| Canvases.ApplyLineCap | UIReferenceImplementation/Canvas.cs:97-117 | a known cap sets start, end and dash caps alike; an unknown one changes nothing; no other pen field changes |
| Canvases.ApplyLineJoin | UIReferenceImplementation/Canvas.cs:119-127 | bevel, miter or round join; an unknown value changes nothing |
| Canvases.ApplyFillRule | UIReferenceImplementation/Canvas.cs:163-176 | non-zero or even-odd; an unknown rule keeps the previous one |
| Canvases.StrokeAll | UIReferenceImplementation/Canvas.cs:286-292 | each figure is unchanged except that every segment is marked stroked (`StrokeSegments`), so starts, closed flags and segment counts are kept |
| Canvases.StrokeSegments | UIReferenceImplementation/Canvas.cs:288-291 | every segment stroked, nothing else changed |
| Canvases.MarkStroked | UIReferenceImplementation/Canvas.cs:286-292 | the stroke pass leaves the path's figures equal to `StrokeAll` of the old ones and the pending figure unchanged |
| Canvases.MainDrawing | UIReferenceImplementation/Canvas.cs:275-297 | the shape-drawing operations of a log, in order |
| Canvases.ShadowPathIsNotMain | UIReferenceImplementation/Canvas.cs:413-440 | the shadow pass of a path draws nothing of the shape itself |
| Canvases.ShadowRectIsNotMain | UIReferenceImplementation/Canvas.cs:442-461 | the shadow pass of a rectangle draws nothing of the shape itself |
| Canvases.PathGating | UIReferenceImplementation/Canvas.cs:264-299 | `DrawPath` draws the shape only when fill or stroke alpha is positive; with both, fill comes before stroke |
| Canvases.PathMain | UIReferenceImplementation/Canvas.cs:268-297 | of everything `DrawPath` emits, only the main pass draws the shape |
| Canvases.RectGating | UIReferenceImplementation/Canvas.cs:302-327 | the same gating and fill-before-stroke order for `DrawRectangle` |
| Canvases.RectMain | UIReferenceImplementation/Canvas.cs:304-326 | of everything `DrawRectangle` emits, only the main pass draws the shape |
| Canvases.LineGating | UIReferenceImplementation/Canvas.cs:330-341 | `DrawLine` emits nothing iff stroke alpha is 0; otherwise it draws exactly one main line |
| Canvases.TextGating | UIReferenceImplementation/Canvas.cs:381-406 | `DrawText` emits nothing iff fill alpha is 0; otherwise it draws exactly one main text |
| Canvases.ObjectGating | UIReferenceImplementation/Canvas.cs:354-377 | a null image gives only a fill rectangle, and only when fill alpha > 0; otherwise exactly the image |
| Canvases.ObjectMain | UIReferenceImplementation/Canvas.cs:354-377 | the shadow rectangle of `DrawObject` draws nothing of the object |
| Canvases.NullObjectMain | UIReferenceImplementation/Canvas.cs:359-369 | the null-image branch draws at most the fill rectangle |
| Canvases.ImageObjectMain | UIReferenceImplementation/Canvas.cs:370-377 | the image branch draws exactly the image |
| Canvases.PathNested | UIReferenceImplementation/Canvas.cs:264-299 | every push of `DrawPath`, shadow included, is matched by a pop |
| Canvases.RectNested | UIReferenceImplementation/Canvas.cs:302-327 | `DrawRectangle` and its shadow are well nested |
| Canvases.LineNested | UIReferenceImplementation/Canvas.cs:330-341 | `DrawLine` is well nested |
| Canvases.ObjectNested | UIReferenceImplementation/Canvas.cs:343-378 | `DrawObject` is well nested |
| Canvases.TextNested | UIReferenceImplementation/Canvas.cs:381-406 | `DrawText` is well nested |
| Canvases.ClearNested | UIReferenceImplementation/Canvas.cs:253-261 | `Clear` is well nested |
| Canvases.GroupRoundTrip | UIReferenceImplementation/Canvas.cs:195-227 | a clipped `StartGroup` then `EndGroup` with a fresh id restores the stash and the active group, with one push and one pop |
| Canvases.GroupNoOps | UIReferenceImplementation/Canvas.cs:195-227 | start with a stored id fails; ending an unknown id, or starting without clipping, changes nothing |
| Canvases.Canvas.constructor | UIReferenceImplementation/Canvas.cs:47-71 | stroke and fill brushes at the `SolidColorBrush` default #00FFFFFF; a new pen with flat start and end caps and a square dash cap; even-odd rule; transparent black 0.5/0.5/2 shadow; no groups; empty active group |
| Canvases.Canvas.SetStrokeColor | UIReferenceImplementation/Canvas.cs:85-90 | only the pen's brush changes |
| Canvases.Canvas.SetStrokeWidth | UIReferenceImplementation/Canvas.cs:92-95 | only the pen's thickness changes |
| Canvases.Canvas.SetStrokeLineCap | UIReferenceImplementation/Canvas.cs:97-117 | pen becomes `ApplyLineCap` of the old pen |
| Canvases.Canvas.SetStrokeLineJoin | UIReferenceImplementation/Canvas.cs:119-127 | pen becomes `ApplyLineJoin` of the old pen |
| Canvases.Canvas.SetStrokeMiterLimit | UIReferenceImplementation/Canvas.cs:129-132 | only the miter limit changes |
| Canvases.Canvas.SetStrokeDashArray | UIReferenceImplementation/Canvas.cs:134-145 | the dashes become exactly the array, in order |
| Canvases.Canvas.SetStrokeDashOffset | UIReferenceImplementation/Canvas.cs:147-156 | only the dash offset changes |
| Canvases.Canvas.SetFillColor | UIReferenceImplementation/Canvas.cs:158-161 | only the fill colour changes |
| Canvases.Canvas.SetFillRule | UIReferenceImplementation/Canvas.cs:163-176 | rule becomes `ApplyFillRule` of the old rule |
| Canvases.Canvas.SetDropShadow | UIReferenceImplementation/Canvas.cs:178-184 | only the shadow changes, to the four arguments |
| Canvases.Canvas.SetFontProperties | UIReferenceImplementation/Canvas.cs:186-193 | family, style and weight from the font mapping, normal stretch, the given size; a weight outside 1..999 fails |
| Canvases.Canvas.StartGroup | UIReferenceImplementation/Canvas.cs:195-214 | the stash, active group and log follow `StartGroupSpec` (failure on a duplicate id) |
| Canvases.Canvas.EndGroup | UIReferenceImplementation/Canvas.cs:216-227 | the stash, active group and log follow `EndGroupSpec` |
| Canvases.Canvas.PushRenderStates | UIReferenceImplementation/Canvas.cs:237-244 | appends one push of the current transform |
| Canvases.Canvas.PopRenderStates | UIReferenceImplementation/Canvas.cs:246-250 | appends one pop |
| Canvases.Canvas.Clear | UIReferenceImplementation/Canvas.cs:253-261 | appends a bracketed rectangle in the given colour |
| Canvases.Canvas.DrawShadowPath | UIReferenceImplementation/Canvas.cs:413-440 | appends the shadow operations over the finalized figures and finalizes the path |
| Canvases.Canvas.MainPathPass | UIReferenceImplementation/Canvas.cs:273-298 | appends the bracketed fill/stroke of the finalized geometry; the path's segments are marked stroked when the stroke is visible |
| Canvases.Canvas.FillAndStroke | UIReferenceImplementation/Canvas.cs:278-295 | fill with the fill rule, then mark stroked and stroke, each gated by its alpha |
| Canvases.Canvas.ShadowPathPass | UIReferenceImplementation/Canvas.cs:268-269 | the shadow pass runs, and finalizes the path, only when shadow alpha > 0 |
| Canvases.Canvas.DrawPath | UIReferenceImplementation/Canvas.cs:264-299 | appends exactly `PathOps` of the old style and figures |
| Canvases.Canvas.DrawShadowRect | UIReferenceImplementation/Canvas.cs:442-461 | appends the bracketed offset shadow fill and outline |
| Canvases.Canvas.ShadowRectPass | UIReferenceImplementation/Canvas.cs:304-305 | the shadow rectangle is drawn only when shadow alpha > 0 |
| Canvases.Canvas.MainRectPass | UIReferenceImplementation/Canvas.cs:309-326 | appends the bracketed fill then stroke, each gated by its alpha |
| Canvases.Canvas.DrawRectangle | UIReferenceImplementation/Canvas.cs:302-327 | appends exactly `RectOps` |
| Canvases.Canvas.DrawLine | UIReferenceImplementation/Canvas.cs:330-341 | appends exactly `LineOps` |
| Canvases.Canvas.DrawObject | UIReferenceImplementation/Canvas.cs:343-378 | nothing without a loader; otherwise the shadow pass, then the image the loader caches for the url, with the loader's cache left exactly as `GetImage` leaves it (`Fetched`: a hit only reorders, a miss evicts as `putBitmap` does) |
| Canvases.Canvas.ImagePass | UIReferenceImplementation/Canvas.cs:357-377 | asks the loader for the image, leaves the url most recent and the cache as `GetImage` leaves it (`Fetched`), and draws the cached image |
| Canvases.Canvas.MainImagePass | UIReferenceImplementation/Canvas.cs:370-377 | appends the bracketed image |
| Canvases.Canvas.DrawText | UIReferenceImplementation/Canvas.cs:381-406 | appends exactly `TextOps` |
| Paths.UnsupportedOperations | UIReferenceImplementation/Path.cs:29-32 | always exactly the arc operations |
| Paths.FinalizeIdempotent | UIReferenceImplementation/Path.cs:19-27 | finalizing commits the pending figure and clears it; a second call changes nothing |
| Paths.MoveToStartsFigure | UIReferenceImplementation/Path.cs:34-40 | commits any pending figure and starts an empty one at the argument |
| Paths.SegmentAppendsOne | UIReferenceImplementation/Path.cs:42-60 | a segment call fails iff no figure is pending; otherwise it appends exactly one unstroked segment |
| Paths.ClosePathReturnsToStart | UIReferenceImplementation/Path.cs:62-68 | an open figure gets a line back to its start; the figure is committed and cleared |
| Paths.StepStarts | UIReferenceImplementation/Path.cs:19-68 | only `MoveTo` adds a start point, at the end |
| Paths.RunKeepsStartOrder | UIReferenceImplementation/Path.cs:19-68 | after any call sequence the figures' start points are the `MoveTo` points, in call order |
| Paths.RenderPath.constructor | UIReferenceImplementation/Path.cs:13-17 | no figures, no pending figure |
| Paths.RenderPath.FinalizeGeometry | UIReferenceImplementation/Path.cs:19-27 | performs `Step(Finalize)` and returns the committed-plus-pending figures |
| Paths.RenderPath.MoveTo | UIReferenceImplementation/Path.cs:34-40 | performs `Step(MoveTo)` |
| Paths.RenderPath.LineTo | UIReferenceImplementation/Path.cs:42-45 | performs `Step(LineTo)`, or fails on a null figure |
| Paths.RenderPath.CurveTo | UIReferenceImplementation/Path.cs:47-50 | performs `Step(CurveTo)`, or fails on a null figure |
| Paths.RenderPath.QuadTo | UIReferenceImplementation/Path.cs:52-55 | performs `Step(QuadTo)`, or fails on a null figure |
| Paths.RenderPath.ArcTo | UIReferenceImplementation/Path.cs:57-60 | performs `Step(ArcTo)`, with the sweep flag selecting the direction, or fails on a null figure |
| Paths.RenderPath.ClosePath | UIReferenceImplementation/Path.cs:62-68 | performs `Step(ClosePath)`, or fails on a null figure |
| FontMetrics.ToPlatformFontWeight | UIReferenceImplementation/FontMetricsProvider.cs:87-99 | >= 700 bold, 400..699 normal, < 400 light (each iff); weights outside 1..999 fail in `FromOpenTypeWeight` |
| FontMetrics.ToPlatformFontStyle | UIReferenceImplementation/FontMetricsProvider.cs:101-111 | italic iff exactly `italic`, oblique iff exactly `oblique`, otherwise normal |
| FontMetrics.ToPlatformFontFamily | UIReferenceImplementation/FontMetricsProvider.cs:77-85 | `MyScriptInter` picks bold or regular by weight, `STIX` italic or regular by style, any other family is unchanged |
| FontMetrics.RegisterFontFamily | UIReferenceImplementation/FontMetricsProvider.cs:34-43 | `fullPath#name` when the file exists, else the default |
| FontMetrics.FontFamilies.constructor | UIReferenceImplementation/FontMetricsProvider.cs:16-32 | uninitialized, every getter on its default |
| FontMetrics.FontFamilies.Current | UIReferenceImplementation/FontMetricsProvider.cs:18-24 | each getter returns its field, or its default when unset |
| FontMetrics.FontFamilies.Initialize | UIReferenceImplementation/FontMetricsProvider.cs:45-56 | the four bundled fonts are registered the first time; a later call changes nothing |
| FontMetrics.NoFontFilesKeepsDefaults | UIReferenceImplementation/FontMetricsProvider.cs:45-56 | with no font file present every family stays on its default |
| FontMetrics.KeyEquals | UIReferenceImplementation/FontMetricsProvider.cs:140-151 | null throws; true iff the argument is a `FontKey` with all five fields equal |
| FontMetrics.FontKeyFromStyle | UIReferenceImplementation/FontMetricsProvider.cs:160-168 | the key's family, weight and style come from the mapping, stretch normal, size in pixels |
| FontMetrics.GlyphMetricsBox.constructor | UIReferenceImplementation/FontMetricsProvider.cs:219 | a new object holding the given metrics |
| FontMetrics.SpanRequestsLength | UIReferenceImplementation/FontMetricsProvider.cs:230-236 | one request per position of a span, in order, each for that position's label |
| FontMetrics.RequestsCount | UIReferenceImplementation/FontMetricsProvider.cs:225-237 | the number of metrics is the sum over spans of `End - Begin` |
| FontMetrics.RequestsSnoc | UIReferenceImplementation/FontMetricsProvider.cs:225-237 | the requests of one more span are the earlier ones followed by that span's |
| FontMetrics.SpanKeyFails | UIReferenceImplementation/FontMetricsProvider.cs:227-228 | a span whose style has no font key makes the whole call fail |
| FontMetrics.RequestsFailFrom | UIReferenceImplementation/FontMetricsProvider.cs:225-237 | once a span fails, every longer span list fails |
| FontMetrics.FontMetricsProvider.constructor | UIReferenceImplementation/FontMetricsProvider.cs:70-75 | empty cache, nothing measured |
| FontMetrics.FontMetricsProvider.GetGlyphMetrics | UIReferenceImplementation/FontMetricsProvider.cs:170-220 | a fresh copy of the pair's metrics; measured at most once per (key, label); the cache is unchanged on a hit |
| FontMetrics.FontMetricsProvider.SpanGlyphMetrics | UIReferenceImplementation/FontMetricsProvider.cs:230-236 | one fresh metric per span position, each the measure of its request |
| FontMetrics.FontMetricsProvider.GetTextGlyphMetrics | UIReferenceImplementation/FontMetricsProvider.cs:222-240 | succeeds iff every span has a key; then one fresh, distinct metric per request, in span order |
| FontMetrics.FontMetricsProvider.GetCharacterBoundingBoxes | UIReferenceImplementation/FontMetricsProvider.cs:374-385 | the bounding boxes of those metrics, in order |
| DisplayResolution.DpiType | UIReferenceImplementation/DisplayResolution.cs:68 | raw selects type 2, effective type 0 |
| DisplayResolution.MaskHResult | UIReferenceImplementation/DisplayResolution.cs:76 | the low 32 bits, non-negative, congruent to the code |
| DisplayResolution.MaskRecoversCode | UIReferenceImplementation/DisplayResolution.cs:71-76 | a 32-bit code is recovered from itself and from its sign extension |
| DisplayResolution.GetDpi | UIReferenceImplementation/DisplayResolution.cs:65-92 | success iff S_OK or E_NOTSUPPORTED; argument error iff one of the three argument codes; COM error otherwise |
| DisplayResolution.Fallback96 | UIReferenceImplementation/DisplayResolution.cs:90-91 | a zero component makes both 96; otherwise unchanged |
| DisplayResolution.GetDpiResults | UIReferenceImplementation/DisplayResolution.cs:78-91 | a success is the monitor's non-zero values or 96x96; E_NOTSUPPORTED always gives 96x96 |
| DisplayResolution.SignExtendedNotSupported | UIReferenceImplementation/DisplayResolution.cs:71-81 | the sign-extended E_NOTSUPPORTED of a 32-bit process still gives 96x96 |
| ImageExport.ExtensionOf | UIReferenceImplementation/ImagePainter.cs:50-54 | `None` iff there is no '.'; otherwise the lower-cased suffix from the last '.' |
| ImageExport.EncoderFor | UIReferenceImplementation/ImagePainter.cs:50-68 | PNG iff the PNG list holds the extension; JPEG iff not PNG and the JPEG list holds it; GIF likewise; none otherwise |
| ImageExport.ExtensionIgnoresCase | UIReferenceImplementation/ImageDrawer.cs:38-42 | the extension of a lower-cased path equals the path's extension |
| ImageExport.EncoderIgnoresCase | UIReferenceImplementation/ImageDrawer.cs:38-56 | the encoder does not depend on the case of the path |
| ImageExport.NoDotNoEncoder | UIReferenceImplementation/ImageDrawer.cs:38-71 | a path without '.' never gets an encoder |
| ImageExport.PngFirst | UIReferenceImplementation/ImageDrawer.cs:50-55 | an extension the PNG list holds selects PNG whatever the other lists hold |
| ImageExport.SaveOutcome | UIReferenceImplementation/ImageDrawer.cs:32-76 | nothing for no image or a blank path; else the chosen encoder writes the image to the path, or "No bitmap encoder available." |
| ImageExport.ImagePainter.constructor | UIReferenceImplementation/ImagePainter.cs:13-25 | no image; background defaults to 0xffffffff |
| ImageExport.ImagePainter.PrepareImage | UIReferenceImplementation/ImagePainter.cs:27-38 | a positive size gives a new empty 96x96-dpi target in place of any previous one, with an open context (`dpi` ignored); any other size throws with the previous target dropped |
| ImageExport.ImagePainter.SaveImage | UIReferenceImplementation/ImagePainter.cs:40-88 | with an image, a non-blank path and an open context: `SaveOutcome` of the rendered drawing, the context closed, `_image` null unless no encoder fits; with a closed context (after a save that threw) it throws at the close and changes nothing; otherwise nothing is written and `_image` becomes null |
| ImageExport.ImagePainter.CreateCanvas | UIReferenceImplementation/ImagePainter.cs:90-97 | for a prepared image with an open context: a new canvas with the painter's loader, cleared over the whole target with the background, or white when unset |
| ImageExport.LayerCallsOrder | UIReferenceImplementation/ImageDrawer.cs:94-104 | background, model, temporary, capture in that order; each present iff its flag is set; all over the same rectangle |
| ImageExport.ImageDrawer.constructor | UIReferenceImplementation/ImageDrawer.cs:18-22 | the given resolution, no image |
| ImageExport.ImageDrawer.PrepareImage | UIReferenceImplementation/ImageDrawer.cs:24-30 | a positive size gives a new empty target at the drawer's resolution in place of any previous one; any other size throws with the previous target dropped |
| ImageExport.ImageDrawer.SaveImage | UIReferenceImplementation/ImageDrawer.cs:32-76 | result is `SaveOutcome`; `_image` is null on every non-throwing path and kept when it throws |
| ImageExport.ImageDrawer.InvalidateArea | UIReferenceImplementation/ImageDrawer.cs:84-110 | no-op without image or renderer; otherwise the target holds exactly `LayerCalls` |
| ImageExport.ImageDrawer.Invalidate | UIReferenceImplementation/ImageDrawer.cs:78-82 | no-op without image or renderer; otherwise the whole target in device-independent pixels |
| SmartGuide.CellStep | UIReferenceImplementation/UserControls/SmartGuideUserControl.xaml.cs:539-546 | the word-level edit distance satisfies the table's recurrence |
| SmartGuide.DistanceSelf | UIReferenceImplementation/UserControls/SmartGuideUserControl.xaml.cs:532-546 | identical label lists are at distance 0 |
| SmartGuide.DistanceBounds | UIReferenceImplementation/UserControls/SmartGuideUserControl.xaml.cs:532-546 | the distance lies between the length difference and the longer length |
| SmartGuide.DistanceSymmetric | UIReferenceImplementation/UserControls/SmartGuideUserControl.xaml.cs:532-546 | the distance is symmetric |
| SmartGuide.FillCell | UIReferenceImplementation/UserControls/SmartGuideUserControl.xaml.cs:543-544 | one cell gets the distance of its prefixes; no other cell changes |
| SmartGuide.FillRow | UIReferenceImplementation/UserControls/SmartGuideUserControl.xaml.cs:541-545 | after the inner loop one more row holds prefix distances |
| SmartGuide.DistanceTable | UIReferenceImplementation/UserControls/SmartGuideUserControl.xaml.cs:528-546 | `d[i,j]` is the distance between the first i and first j labels, for all i, j |
| SmartGuide.MarkAllUpdated | UIReferenceImplementation/UserControls/SmartGuideUserControl.xaml.cs:549-554 | every word of `s2` is marked updated, nothing else changes |
| SmartGuide.MarkPair | UIReferenceImplementation/UserControls/SmartGuideUserControl.xaml.cs:581-586 | the word at `j` is updated iff its label differs from its partner's |
| SmartGuide.Backtrace | UIReferenceImplementation/UserControls/SmartGuideUserControl.xaml.cs:556-588 | only flags change; a word left un-updated has an equal label in `s1`; identical label lists leave none updated |
| SmartGuide.ComputeTextDifferences | UIReferenceImplementation/UserControls/SmartGuideUserControl.xaml.cs:523-589 | only flags change; an empty list leaves all updated; an un-updated word's label occurs in `s1`; equal label lists leave none updated |
| SmartGuide.CloneWordsAsWritten | UIReferenceImplementation/UserControls/SmartGuideUserControl.xaml.cs:162-188 | null for null; same length; label and flag copied; non-null candidates become empty |
| SmartGuide.CloneWordsDropsCandidates | UIReferenceImplementation/UserControls/SmartGuideUserControl.xaml.cs:177-182 | a word with candidates is not reproduced by the copy |
| SmartGuide.CloneWords | UIReferenceImplementation/UserControls/SmartGuideUserControl.xaml.cs:162-188 | corrected copy: the result equals the input, candidates included |
| SmartGuide.FadeDelay | UIReferenceImplementation/UserControls/SmartGuideUserControl.xaml.cs:400-403 | an edit in a `diagram/` block uses the write-in-diagram delay, another edit the write delay, other causes the other delay |
| SmartGuide.DefaultFadeOnlyInDiagrams | UIReferenceImplementation/UserControls/SmartGuideUserControl.xaml.cs:26-29 | with the default delays the fade timer runs iff the cause is an edit in a diagram |
| SmartGuide.SelectionChanged | UIReferenceImplementation/UserControls/SmartGuideUserControl.xaml.cs:478-483 | by id when both blocks exist, otherwise by presence |
| SmartGuide.FirstTextBlock | UIReferenceImplementation/UserControls/SmartGuideUserControl.xaml.cs:465-476 | the block of the first id that exists and is a text block (no earlier id gives one); none only when no id gives one |
| SmartGuide.ReplaceNewlines | UIReferenceImplementation/UserControls/SmartGuideUserControl.xaml.cs:360 | every '\n' becomes ' ', every other character is kept |
| SmartGuide.ShowWords | UIReferenceImplementation/UserControls/SmartGuideUserControl.xaml.cs:355-383 | one item per word, in order; reports whether any word is updated |
| SmartGuide.SmartGuideControl.constructor | UIReferenceImplementation/UserControls/SmartGuideUserControl.xaml.cs:151-160 | no blocks, no words, hidden, timers stopped, the configured delays |
| SmartGuide.SmartGuideControl.BackupData | UIReferenceImplementation/UserControls/SmartGuideUserControl.xaml.cs:207-211 | the previous block and words become the current ones; nothing else changes |
| SmartGuide.SmartGuideControl.UpdateData | UIReferenceImplementation/UserControls/SmartGuideUserControl.xaml.cs:213-271 | no block clears the words; a failed export keeps them; otherwise the parsed words, diffed against the previous words of the same block, else all not updated |
| SmartGuide.SmartGuideControl.ResetWidgets | UIReferenceImplementation/UserControls/SmartGuideUserControl.xaml.cs:273-276 | hidden, strip cleared, the model unchanged |
| SmartGuide.SmartGuideControl.UpdateWidgets | UIReferenceImplementation/UserControls/SmartGuideUserControl.xaml.cs:333-424 | fade timer stopped; with a block: visible, one item per word, fade timer on iff `FadeDelay > 0`, highlight timer started iff a word is updated |
| SmartGuide.SmartGuideControl.OnPartChanged | UIReferenceImplementation/UserControls/SmartGuideUserControl.xaml.cs:426-432 | backs up, forgets all three blocks, clears the words, hides; the timers, their intervals and the fade delays are unchanged |
| SmartGuide.SmartGuideControl.OnSelectionChanged | UIReferenceImplementation/UserControls/SmartGuideUserControl.xaml.cs:463-499 | no change keeps the strip, the blocks, the current and previous words and the timers; since the selected block is never set, a change only hides the strip and clears its items, keeping the words, the previous block and the timers |
| EditorControl.ActionsAreDistinctBits | UIReferenceImplementation/UserControls/EditorUserControl.xaml.cs:260-275 | each member is one non-zero bit, distinct from every other member's |
| EditorControl.Flags | UIReferenceImplementation/UserControls/EditorUserControl.xaml.cs:260-275 | each member is in the flag word iff it is offered |
| EditorControl.BlockActions | UIReferenceImplementation/UserControls/EditorUserControl.xaml.cs:277-340 | NONE for null block, null part or non-root container; otherwise each of the eleven flags iff its condition |
| EditorControl.SelectionActions | UIReferenceImplementation/UserControls/EditorUserControl.xaml.cs:342-383 | NONE for null or empty selection or null part; otherwise REMOVE and COPY always, never ADD_BLOCK, PASTE or IMPORT, and the others iff their conditions |
| EditorControl.OfficeClipboardImpliesExport | UIReferenceImplementation/UserControls/EditorUserControl.xaml.cs:323-330 | in both overloads OFFICE_CLIPBOARD implies EXPORT |
| EditorControl.RemoveOrPaste | UIReferenceImplementation/UserControls/EditorUserControl.xaml.cs:317-326 | a non-empty block offer has exactly one of REMOVE and PASTE |
| EditorControl.DownOnlyWhenIdle | UIReferenceImplementation/UserControls/EditorUserControl.xaml.cs:603-623 | a down is taken only when idle, and makes its pointer and id the owner |
| EditorControl.MoveAndUpOnlyFromOwner | UIReferenceImplementation/UserControls/EditorUserControl.xaml.cs:626-662 | move and up are taken only from the owning type and id; up returns to idle; move keeps the owner |
| EditorControl.StylusUpIgnoresDevice | UIReferenceImplementation/UserControls/EditorUserControl.xaml.cs:736-755 | a stylus up releases the pen whatever its device id |
| EditorControl.IgnoredEventsChangeNothing | UIReferenceImplementation/UserControls/EditorUserControl.xaml.cs:603-841 | an event without an editor call leaves the ownership unchanged |
| EditorControl.HandlePreservesValid | UIReferenceImplementation/UserControls/EditorUserControl.xaml.cs:603-841 | idle and mouse ownership always go with device id -1 |
| EditorControl.OwnershipPersists | UIReferenceImplementation/UserControls/EditorUserControl.xaml.cs:603-841 | without an up or a cancel, an owner keeps ownership over any event sequence |
| EditorControl.TruncDiv | UIReferenceImplementation/UserControls/EditorUserControl.xaml.cs:855 | C# integer division truncates toward zero |
| EditorControl.TruncDivOdd | UIReferenceImplementation/UserControls/EditorUserControl.xaml.cs:855 | truncating division commutes with negation |
| EditorControl.Wheel | UIReferenceImplementation/UserControls/EditorUserControl.xaml.cs:844-875 | whole notches of 120; Ctrl zooms in or out by the count, or does nothing at 0; otherwise scroll `-100*notches` on x with Shift, else on y |
| EditorControl.WheelReverses | UIReferenceImplementation/UserControls/EditorUserControl.xaml.cs:852-871 | the opposite delta gives the opposite zoom or scroll |
| EditorControl.EditorUserControl.constructor | UIReferenceImplementation/UserControls/EditorUserControl.xaml.cs:190-199 | idle input, active pen on, smart guide enabled, the tool controller's initial tools |
| EditorControl.EditorUserControl.TouchDownHandler | UIReferenceImplementation/UserControls/EditorUserControl.xaml.cs:603-623 | ownership and editor call as `Handle` says |
| EditorControl.EditorUserControl.TouchMoveHandler | UIReferenceImplementation/UserControls/EditorUserControl.xaml.cs:626-640 | ownership and editor call as `Handle` says |
| EditorControl.EditorUserControl.TouchUpHandler | UIReferenceImplementation/UserControls/EditorUserControl.xaml.cs:643-662 | ownership and editor call as `Handle` says |
| EditorControl.EditorUserControl.StylusDownHandler | UIReferenceImplementation/UserControls/EditorUserControl.xaml.cs:684-710 | ownership and editor call as `Handle` says |
| EditorControl.EditorUserControl.StylusMoveHandler | UIReferenceImplementation/UserControls/EditorUserControl.xaml.cs:713-733 | ownership and editor call as `Handle` says |
| EditorControl.EditorUserControl.StylusUpHandler | UIReferenceImplementation/UserControls/EditorUserControl.xaml.cs:736-755 | ownership and editor call as `Handle` says |
| EditorControl.EditorUserControl.MouseRightButtonDownHandler | UIReferenceImplementation/UserControls/EditorUserControl.xaml.cs:758-770 | ownership and editor call as `Handle` says |
| EditorControl.EditorUserControl.MouseLeftButtonDownHandler | UIReferenceImplementation/UserControls/EditorUserControl.xaml.cs:773-796 | ownership and editor call as `Handle` says |
| EditorControl.EditorUserControl.MouseMoveHandler | UIReferenceImplementation/UserControls/EditorUserControl.xaml.cs:799-816 | ownership and editor call as `Handle` says |
| EditorControl.EditorUserControl.MouseLeftButtonUpHandler | UIReferenceImplementation/UserControls/EditorUserControl.xaml.cs:819-841 | ownership and editor call as `Handle` says |
| EditorControl.EditorUserControl.SetInputTool | UIReferenceImplementation/UserControls/EditorUserControl.xaml.cs:168-174 | pen and mouse take the tool; touch takes it only while the active pen is off; a valid assignment (touch is HAND under the active pen) stays valid |
| EditorControl.EditorUserControl.SetActivePen | UIReferenceImplementation/UserControls/EditorUserControl.xaml.cs:176-183 | on: touch becomes the hand tool; off: touch takes the pen's tool |
| EditorControl.EditorUserControl.EnableSmartGuide | UIReferenceImplementation/UserControls/EditorUserControl.xaml.cs:414-423 | a changed setting is stored; turning it off hides an existing guide; no change does nothing |
| DemoWindow.ToolStyle | Demo/MainWindow.xaml.cs:1229-1230 | width part `-myscript-pen-width: w; ` then colour part `color: c; `, each omitted when null or empty |
| DemoWindow.ApplyToolStyle | Demo/MainWindow.xaml.cs:1225-1238 | pen and highlighter get their own style; other tools get no call |
| DemoWindow.Patterns | Demo/MainWindow.xaml.cs:1013 | `*` before each extension |
| DemoWindow.ExportFilterEnds | Demo/MainWindow.xaml.cs:1000-1020 | the filter starts with the first type's name and `|` and ends with the last type's last pattern: no stray separators |
| DemoWindow.ExportFilter | Demo/MainWindow.xaml.cs:992-1020 | no filter for a null or empty type list; otherwise the entries `name|*e1;*e2` joined by `|` |
| DemoWindow.ExportPathFor | Demo/MainWindow.xaml.cs:1038-1049 | kept if it ends, ignoring case, with one of the extensions; else the first extension appended |
| DemoWindow.EndsWithOwnExtension | Demo/MainWindow.xaml.cs:1044-1049 | a path with an extension appended ends with it |
| DemoWindow.ExportPathIdempotent | Demo/MainWindow.xaml.cs:1038-1049 | the result ends with one of the extensions, and fixing it again changes nothing |
| DemoWindow.ExportPath | Demo/MainWindow.xaml.cs:1036-1049 | nothing for an empty extension list; otherwise `ExportPathFor` |
| DemoWindow.ImageFilterShape | Demo/MainWindow.xaml.cs:844-850 | `Image|` and the patterns joined by `;`, with no trailing `;` |
| DemoWindow.ImageFilter | Demo/MainWindow.xaml.cs:837-850 | the loop builds `ImageFilterSpec` |
| DemoWindow.MimeFor | Demo/MainWindow.xaml.cs:864-876 | the first type whose list holds the extension, ignoring case; none when no list holds it |
| DemoWindow.MimeForFirst | Demo/MainWindow.xaml.cs:864-876 | a type that lists the extension, with no earlier type listing it, is the one found |
| DemoWindow.FindImageMime | Demo/MainWindow.xaml.cs:863-878 | the loop finds `MimeFor` over JPEG, PNG, GIF, and fails where the source throws |
| DemoWindow.MimeForIgnoresCase | Demo/MainWindow.xaml.cs:870 | the type found does not depend on the case of the extension |
| DemoWindow.Combine | Demo/MainWindow.xaml.cs:542-544 | a relative part joined onto a folder |
| DemoWindow.LargeIndexFree | Demo/MainWindow.xaml.cs:539-546 | indices past `10^L` (L the longest existing path) name nothing that exists |
| DemoWindow.TakenIsBounded | Demo/MainWindow.xaml.cs:539-546 | only indices below `10^L` can be taken, so the search terminates |
| DemoWindow.FirstFreeIndex | Demo/MainWindow.xaml.cs:539-546 | the first index from `start` with no file at its path nor at its temp-folder path; all before it are taken |
| DemoWindow.MainWindow.constructor | Demo/MainWindow.xaml.cs:49-51 | index 0, no part, medium width checked |
| DemoWindow.MainWindow.MakeUntitledFilename | Demo/MainWindow.xaml.cs:532-549 | the index strictly increases to the first free one; the name is `File<n>.iink` under the local folder |
| DemoWindow.MainWindow.PreviousPart | Demo/MainWindow.xaml.cs:187-234 | the nearest earlier part that can be set, with none between; otherwise the part is unchanged; the file index, styles and pen-width menu flags are unchanged |
| DemoWindow.MainWindow.NextPart | Demo/MainWindow.xaml.cs:236-283 | the nearest later part that can be set, with none between; otherwise the part is unchanged; the file index, styles and pen-width menu flags are unchanged |
| DemoWindow.MainWindow.PenWidthHandler | Demo/MainWindow.xaml.cs:1241-1270 | a checked item leaves exactly itself checked, sets the pen width and applies the pen style; an unchecked item is checked again and nothing else changes; this is also the load handler's call for the medium item at load time |
| DemoWindow.MainWindow.PenWidthClicked | Demo/MainWindow.xaml.cs:1241-1270 | after the menu toggles the item: exactly one width stays checked and it is the clicked one; a new choice sets the width and applies the pen style |
| Strings.ToLower | UIReferenceImplementation/ImagePainter.cs:54 | same length, each ASCII upper-case letter lower-cased and every other character kept |
| Strings.LastIndexOf | UIReferenceImplementation/ImagePainter.cs:50 | the last position of the character, or none when absent |

## Left out

- Floating point: transforms, clip rectangles, `px2mm`/`mm2px` and glyph positioning are passed through as reals or left out. So are zoom factors, smart-guide geometry and pen widths (`PenWidthClicked` takes the width text as a parameter).
- `WalkDrawingForText`, which shifts glyph boxes by the baseline and advance widths, is not modelled. `GetTextGlyphMetrics` returns the cached metrics before that shift.
- The text baseline shift in `DrawText` is not modelled; the origin is the engine's point.
- The `lock (_cache)` in `getImage` is left out; the cache is modelled sequentially. `cacheDirectory` is ignored by the source and not modelled.
- ImageCache.ImageLoader.GetImage: the `image == null` fallback branch is unreachable in the model, because bitmaps are values and the cache never stores null.
- Canvases.Canvas.DrawObject: for the same reason, the null-image branch of `DrawObject` is stated only about the pure `ObjectOps` (`ObjectGating`), not reached through the loader.
- Bitmap decoding and encoding, `FormattedText`, brushes and the drawing context are opaque values or a log of operations.
- JSON parsing (`UpdateData`, `GetBlockPadding`, `OnCandidateClicked`): `UpdateData` receives the parsed word list, or `None` when the export throws.
- Timers are modelled as a running flag and an interval. The dispatcher and event wiring are left out.
- The MyScript engine is replaced by values: block and selection facts, the part index and whether a part can be set. The `ToolController` becomes three fields.
- `MimeTypeF.GetFileExtensions` is replaced by extension lists passed in, already split at commas.
- `File.Exists` becomes membership in a finite list of existing paths, or the `fileExists` parameter.
- `Path.Combine` is simplified to `\`-joining of relative parts. `Path.GetExtension` and `Path.GetFullPath` are parameters.
- `Environment.GetFolderPath` and the temp-folder configuration string are parameters.
- DemoWindow.MainWindow.MakeUntitledFilename: `_filenameIndex` is a `nat`, so the 32-bit overflow after 2^31 names is not modelled.
- ImageCache.Cost: the corrected cost is an unbounded `nat`. The as-written 32-bit arithmetic is `CostAsWritten` (see Findings).
- EditorControl.BlockActions: `ContextualActions` is modelled as a set of members. `ActionsAreDistinctBits` ties the set to the bit values.
- FontMetrics.ToPlatformFontWeight: `FromOpenTypeWeight` is modelled only through its range check (1..999).
- Canvases.Canvas.SetStrokeColor: brushes are ARGB values. The separate `_strokeColor` field is the pen's brush, which is how every draw method reads it.
- `DisplayResolution.GetDpi(Window, bool)` and the P/Invoke calls are left out. The dpi values are `nat` rather than 32-bit `uint`.
- ImageExport.ImagePainter.CreateCanvas: it requires a prepared image and an open drawing context. Without an image the source dereferences a null `_image`. After a `SaveImage` that threw "No bitmap encoder available.", `_image` is still set but the context is null, and the source's `Clear` fails on it. The model does not represent that failure for `CreateCanvas`; it does for `SaveImage`, which returns `NullContext`.
- ImageExport.ImageDrawer.constructor: resolutions are positive (`Dpi`). A zero resolution has no pixel extent.
- The `Word` objects of the smart guide are values. The aliasing between list entries that `CloneWords` exists to break is therefore not represented.
- `OnContentChanged`, `OnActiveBlockChanged`, `OnTransformChanged`, candidate menus and the text-style widget of the smart guide are not modelled; they are engine-driven glue.
- The hand-tool scrolling, `ResetView`, zooming and the pointer positions and pressures passed to the editor are left out.
- `PenColor_Clicked` and the highlighter menus are left out; they are the same radio pattern as `PenWidthClicked`.
- Dialogs: `TypeOfContentDialog`, `ImportDialog`, `LayerControl` and the GetStarted window are left out.
- Two call sites disagree with their callees, and each file is modelled as written:
  - `ImageDrawer` constructs `Canvas` with `this` as its pixels-per-dip argument;
  - the editor calls `OnSelectionChanged` with two arguments.
- Strings.StartsWith: it compares ordinally, while the source's `StartsWith("diagram/")` is culture-sensitive. For that ASCII literal the two agree, except on ids holding characters a culture comparison ignores (such as a soft hyphen), which the model does not follow.
- Strings.ToLower: it lower-cases only the ASCII letters A-Z. The source's culture-sensitive `ToLower()` also folds non-ASCII letters, so an extension containing non-ASCII capitals is matched differently. Under a Turkish culture even the ASCII `I` folds differently, to the dotless `ı`, which the model does not follow. The same ASCII restriction applies to `OrdinalIgnoreCase` comparison (`EndsWithIgnoreCase`) and to the white-space test of `IsNullOrWhiteSpace`.
- SmartGuide.SmartGuideControl.BackupData: it stores the current words unchanged, where the source stores `CloneWords` as written, which drops their candidates. Nothing reads the candidates of the previous words, so the behaviour is the same.

## Findings

| source | as written | input that shows it | evidently intended | confidence | as-written member | corrected member |
|---|---|---|---|---|---|---|
| UIReferenceImplementation/ImageLoader.cs:54 | `bpp * width * height` is evaluated in 32-bit `int` before `/ 8.0` | 8192 x 8192 at 32 bpp: product 2^31 wraps to -2^31, cost -268435456, so the too-big test passes a 256 MB image and the counter goes negative | the byte size `bpp*w*h/8` computed without overflow | not executed | ImageCache.CostAsWrittenOverflows | ImageCache.Cost |
| UIReferenceImplementation/UserControls/SmartGuideUserControl.xaml.cs:180 | the candidate copy loop iterates the new, empty list `word_.Candidates` | a word with candidates `["a"]` is cloned with candidates `[]` | iterate `word.Candidates`, copying every candidate | not executed | SmartGuide.CloneWordsDropsCandidates | SmartGuide.CloneWords |
