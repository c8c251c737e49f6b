/**
 * `ImagePainter` and `ImageDrawer`: off-screen rendering targets that the engine draws into
 * and then saves to a file, choosing the encoder from the file's extension.
 *
 * The extension lists of the PNG, JPEG and GIF MIME types are parameters (each already split
 * on ','; `None` is a null list).  Encoding and writing the file are replaced by the value
 * they would write: which encoder, at which path, of which target.
 */
module ImageExport {
  import opened Wrappers
  import opened Strings
  import opened Canvases
  import opened ImageCache
  import opened FontMetrics

  datatype Encoder = PngEncoder | JpegEncoder | GifEncoder

  /** The exceptions of the export paths: "No bitmap encoder available."; the
      `ArgumentOutOfRangeException` of a `RenderTargetBitmap` whose pixel size is not positive;
      the `NullReferenceException` of closing a drawing context that is already null. */
  datatype ExportError = NoEncoder | BadSize | NullContext

  /** The pixel sizes `RenderTargetBitmap` accepts. */
  predicate ValidSize(width: int, height: int) {
    width > 0 && height > 0
  }

  /** The three extension lists, in the order they are declared. */
  datatype ExtensionLists = ExtensionLists(jpg: Option<seq<string>>, png: Option<seq<string>>, gif: Option<seq<string>>)

  /** A `RenderTargetBitmap`: pixel size, resolution, and what was last rendered into it. */
  datatype RenderTarget<Content> = RenderTarget(pixelWidth: int, pixelHeight: int, dpiX: real, dpiY: real, content: Content)

  /** What `SaveImage` writes. */
  datatype Saved<Content> = Saved(encoder: Encoder, path: string, target: RenderTarget<Content>)

  /** `path.Substring(path.LastIndexOf('.')).ToLower()`, or `None` when there is no '.'. */
  function ExtensionOf(path: string): (r: Option<string>)
    ensures r.None? <==> '.' !in path
    ensures r.Some? ==> 1 <= |r.value| <= |path| && r.value[0] == '.' && r.value == ToLower(path[|path| - |r.value|..])
    ensures r.Some? ==> '.' !in r.value[1..]
  {
    match LastIndexOf(path, '.')
    case None => None
    case Some(pos) =>
      NoDotAfter(path, pos);
      Some(ToLower(path[pos..]))
  }

  /** Past the last '.', the lower-cased text holds no '.' either. */
  lemma NoDotAfter(path: string, pos: nat)
    requires pos < |path| && forall j :: pos < j < |path| ==> path[j] != '.'
    ensures '.' !in ToLower(path[pos..])[1..]
  {
    var ext := ToLower(path[pos..]);
    forall j | 1 <= j < |ext|
      ensures ext[j] != '.'
    {
      LowerDot(path[pos + j]);
    }
  }

  predicate Lists(list: Option<seq<string>>, ext: string) {
    list.Some? && ext in list.value
  }

  /** The encoder for a path: PNG, then JPEG, then GIF, by the lower-cased extension. */
  function EncoderFor(path: string, lists: ExtensionLists): (r: Option<Encoder>)
    ensures r.None? <==> ExtensionOf(path).None? || var ext := ExtensionOf(path).value;
      !Lists(lists.png, ext) && !Lists(lists.jpg, ext) && !Lists(lists.gif, ext)
    ensures r == Some(PngEncoder) <==> ExtensionOf(path).Some? && Lists(lists.png, ExtensionOf(path).value)
    ensures r == Some(JpegEncoder) <==> ExtensionOf(path).Some? && var ext := ExtensionOf(path).value;
      !Lists(lists.png, ext) && Lists(lists.jpg, ext)
    ensures r == Some(GifEncoder) <==> ExtensionOf(path).Some? && var ext := ExtensionOf(path).value;
      !Lists(lists.png, ext) && !Lists(lists.jpg, ext) && Lists(lists.gif, ext)
  {
    match ExtensionOf(path)
    case None => None
    case Some(ext) =>
      if IsNullOrWhiteSpace(Some(ext)) then None
      else if Lists(lists.png, ext) then Some(PngEncoder)
      else if Lists(lists.jpg, ext) then Some(JpegEncoder)
      else if Lists(lists.gif, ext) then Some(GifEncoder)
      else None
  }

  lemma LowerDot(c: char)
    ensures ToLowerChar(c) == '.' <==> c == '.'
  {
  }

  /** Lower-casing the whole path changes neither where the extension starts nor what it is. */
  lemma {:induction false} LastDotIgnoresCase(path: string)
    ensures LastIndexOf(ToLower(path), '.') == LastIndexOf(path, '.')
  {
    if path != [] {
      LowerDot(path[|path| - 1]);
      assert ToLower(path)[..|path| - 1] == ToLower(path[..|path| - 1]);
      LastDotIgnoresCase(path[..|path| - 1]);
    }
  }

  lemma ToLowerIdempotent(s: string)
    ensures ToLower(ToLower(s)) == ToLower(s)
  {
  }

  lemma ToLowerSuffix(s: string, pos: nat)
    requires pos <= |s|
    ensures ToLower(s)[pos..] == ToLower(s[pos..])
  {
  }

  /** The extension of a lower-cased path is the extension of the path. */
  lemma ExtensionIgnoresCase(path: string)
    ensures ExtensionOf(ToLower(path)) == ExtensionOf(path)
  {
    var lower := ToLower(path);
    LastDotIgnoresCase(path);
    match LastIndexOf(path, '.') {
      case None =>
      case Some(pos) =>
        ToLowerSuffix(path, pos);
        ToLowerIdempotent(path[pos..]);
    }
  }

  /** The choice of encoder does not depend on the case of the path. */
  lemma EncoderIgnoresCase(path: string, lists: ExtensionLists)
    ensures EncoderFor(ToLower(path), lists) == EncoderFor(path, lists)
  {
    ExtensionIgnoresCase(path);
  }

  /** A path without a '.' never gets an encoder, whatever the lists hold. */
  lemma NoDotNoEncoder(path: string, lists: ExtensionLists)
    requires '.' !in path
    ensures EncoderFor(path, lists).None?
  {
  }

  /** An extension the PNG list holds wins over the other lists. */
  lemma PngFirst(path: string, lists: ExtensionLists)
    requires '.' in path && Lists(lists.png, ExtensionOf(path).value)
    ensures EncoderFor(path, lists) == Some(PngEncoder)
  {
  }

  /** The body of `SaveImage` shared by both targets: with no image or a blank path nothing
      is written; otherwise the encoder is chosen, or the call throws. */
  function SaveOutcome<Content>(image: Option<RenderTarget<Content>>, path: string, lists: ExtensionLists): (r: Result<Option<Saved<Content>>, ExportError>)
    ensures image.None? || IsNullOrWhiteSpace(Some(path)) ==> r == Ok(None)
    ensures image.Some? && !IsNullOrWhiteSpace(Some(path)) ==>
      match EncoderFor(path, lists)
      case None => r == Err(NoEncoder)
      case Some(e) => r == Ok(Some(Saved(e, path, image.value)))
  {
    if image.None? || IsNullOrWhiteSpace(Some(path)) then Ok(None)
    else
      match EncoderFor(path, lists)
      case None => Err(NoEncoder)
      case Some(e) => Ok(Some(Saved(e, path, image.value)))
  }

  /** The default background: opaque white (0xffffffff). */
  const DefaultBackground := Color(255, 255, 255, 255)

  /** The resolution `ImagePainter` always renders at, whatever dpi it is asked for. */
  const PainterDpi: real := 96.0

  /** `ImagePainter`: the target's content is the drawing the canvas recorded, rendered on
      save. */
  class ImagePainter {
    var image: Option<RenderTarget<seq<DrawOp>>>
    /** `_drawingContext` is open (non-null). */
    var contextOpen: bool
    var imageLoader: Option<ImageLoader>
    var backgroundColor: Option<Color>
    const fonts: FontFamilies

    constructor (fonts: FontFamilies)
      ensures image.None? && !contextOpen && imageLoader.None?
      ensures backgroundColor == Some(DefaultBackground)
      ensures this.fonts == fonts
    {
      image := None;
      contextOpen := false;
      imageLoader := None;
      backgroundColor := Some(DefaultBackground);
      this.fonts := fonts;
    }

    /** `PrepareImage`: a new 96 x 96 dpi target replaces any previous one; `dpi` is ignored.
        A size that is not positive throws once the previous target has been dropped, before a
        new drawing context is opened. */
    method PrepareImage(width: int, height: int, dpi: real) returns (r: Result<(), ExportError>)
      modifies this
      ensures r.Ok? <==> ValidSize(width, height)
      ensures r.Ok? ==> image == Some(RenderTarget(width, height, PainterDpi, PainterDpi, [])) && contextOpen
      ensures r.Err? ==> r.error == BadSize && image.None? && contextOpen == old(contextOpen)
      ensures imageLoader == old(imageLoader) && backgroundColor == old(backgroundColor)
    {
      if image.Some? {
        image := None;
      }
      if !ValidSize(width, height) {
        return Err(BadSize);
      }
      image := Some(RenderTarget(width, height, PainterDpi, PainterDpi, []));
      contextOpen := true;
      r := Ok(());
    }

    /** `SaveImage`: closes the drawing and renders `drawing` into the target before choosing
        the encoder; the target is dropped unless the call throws. After a save that threw,
        the target is still there but the context is null, so the next save with a path
        throws at the close and changes nothing. */
    method SaveImage(path: string, lists: ExtensionLists, drawing: seq<DrawOp>)
      returns (r: Result<Option<Saved<seq<DrawOp>>>, ExportError>)
      modifies this
      ensures old(image).Some? && !IsNullOrWhiteSpace(Some(path)) && !old(contextOpen) ==>
        r == Err(NullContext) && image == old(image) && !contextOpen
      ensures old(image).None? || IsNullOrWhiteSpace(Some(path)) || old(contextOpen) ==>
        var rendered := if old(image).Some? && !IsNullOrWhiteSpace(Some(path))
                        then Some(old(image).value.(content := drawing)) else old(image);
        r == SaveOutcome(rendered, path, lists)
      ensures r.Ok? ==> image.None?
      ensures r == Err(NoEncoder) ==> image.Some? && image.value == old(image).value.(content := drawing)
      ensures old(image).Some? && !IsNullOrWhiteSpace(Some(path)) ==> !contextOpen
      ensures old(image).None? || IsNullOrWhiteSpace(Some(path)) ==> contextOpen == old(contextOpen)
      ensures imageLoader == old(imageLoader) && backgroundColor == old(backgroundColor)
    {
      if image.Some? && !IsNullOrWhiteSpace(Some(path)) {
        if !contextOpen {
          return Err(NullContext);
        }
        contextOpen := false;
        image := Some(image.value.(content := drawing));
        var encoder := EncoderFor(path, lists);
        if encoder.None? {
          return Err(NoEncoder);
        }
        r := Ok(Some(Saved(encoder.value, path, image.value)));
      } else {
        r := Ok(None);
      }
      image := None;
    }

    /** `CreateCanvas`: a canvas over the drawing, cleared over the whole target with the
        background colour, or the default when that is null. */
    method CreateCanvas() returns (canvas: Canvas)
      requires image.Some? && contextOpen
      ensures fresh(canvas)
      ensures canvas.imageLoader == imageLoader
      ensures var bg := if backgroundColor.Some? then backgroundColor.value else DefaultBackground;
        canvas.ops == ClearOps(canvas.Style(), Rect(0.0, 0.0, image.value.pixelWidth as real, image.value.pixelHeight as real), bg)
    {
      canvas := new Canvas(imageLoader, fonts);
      var color := if backgroundColor.Some? then backgroundColor.value else DefaultBackground;
      canvas.Clear(0.0, 0.0, image.value.pixelWidth as real, image.value.pixelHeight as real, color);
    }
  }

  /** The layer flags of an invalidation, as `HasFlag` reads them. */
  datatype Layers = Layers(background: bool, model: bool, temporary: bool, capture: bool)

  /** One call on the engine's renderer, over a rectangle in device-independent pixels. */
  datatype LayerCall =
    | DrawBackground(x: int, y: int, width: int, height: int)
    | DrawModel(x: int, y: int, width: int, height: int)
    | DrawTemporaryItems(x: int, y: int, width: int, height: int)
    | DrawCaptureStrokes(x: int, y: int, width: int, height: int)
  {
    function Rank(): nat {
      match this
      case DrawBackground(_, _, _, _) => 0
      case DrawModel(_, _, _, _) => 1
      case DrawTemporaryItems(_, _, _, _) => 2
      case DrawCaptureStrokes(_, _, _, _) => 3
    }
  }

  /** The calls of one invalidation: background, model, temporary items, capture strokes,
      each when its flag is set. */
  function LayerCalls(layers: Layers, x: int, y: int, width: int, height: int): seq<LayerCall> {
    (if layers.background then [DrawBackground(x, y, width, height)] else [])
    + (if layers.model then [DrawModel(x, y, width, height)] else [])
    + (if layers.temporary then [DrawTemporaryItems(x, y, width, height)] else [])
    + (if layers.capture then [DrawCaptureStrokes(x, y, width, height)] else [])
  }

  /** Each call ranks strictly below the calls after it. */
  predicate Ascending(calls: seq<LayerCall>) {
    forall i, j :: 0 <= i < j < |calls| ==> calls[i].Rank() < calls[j].Rank()
  }

  /** The layers are drawn in a fixed order, each at most once and exactly when its flag is set,
      all over the same rectangle. */
  lemma LayerCallsOrder(layers: Layers, x: int, y: int, width: int, height: int)
    ensures var calls := LayerCalls(layers, x, y, width, height);
      && Ascending(calls)
      && (layers.background <==> DrawBackground(x, y, width, height) in calls)
      && (layers.model <==> DrawModel(x, y, width, height) in calls)
      && (layers.temporary <==> DrawTemporaryItems(x, y, width, height) in calls)
      && (layers.capture <==> DrawCaptureStrokes(x, y, width, height) in calls)
      && (forall c :: c in calls ==> c.x == x && c.y == y && c.width == width && c.height == height)
  {
    LayerCallsAscending(layers, x, y, width, height);
    LayerCallsMembers(layers, x, y, width, height);
    LayerCallsSameRect(layers, x, y, width, height);
  }

  lemma LayerCallsAscending(layers: Layers, x: int, y: int, width: int, height: int)
    ensures Ascending(LayerCalls(layers, x, y, width, height))
  {
  }

  lemma LayerCallsMembers(layers: Layers, x: int, y: int, width: int, height: int)
    ensures var calls := LayerCalls(layers, x, y, width, height);
      && (layers.background <==> DrawBackground(x, y, width, height) in calls)
      && (layers.model <==> DrawModel(x, y, width, height) in calls)
      && (layers.temporary <==> DrawTemporaryItems(x, y, width, height) in calls)
      && (layers.capture <==> DrawCaptureStrokes(x, y, width, height) in calls)
  {
  }

  lemma LayerCallsSameRect(layers: Layers, x: int, y: int, width: int, height: int)
    ensures forall c :: c in LayerCalls(layers, x, y, width, height) ==>
      c.x == x && c.y == y && c.width == width && c.height == height
  {
  }

  /** A resolution the drawer can be given: a target of zero or negative resolution has no
      extent in device-independent pixels. */
  type Dpi = d: real | d > 0.0 witness 96.0

  /** `(int)` of a size in device-independent pixels: the pixel count at 96 dpi, truncated. */
  function DipExtent(pixels: int, dpi: real): int
    requires dpi > 0.0
  {
    var d := (pixels as real) * 96.0 / dpi;
    if d >= 0.0 then d.Floor else -((-d).Floor)
  }

  /** `ImageDrawer`: the target's content is the sequence of renderer calls last rendered. */
  class ImageDrawer {
    var image: Option<RenderTarget<seq<LayerCall>>>
    const dpiX: Dpi
    const dpiY: Dpi
    var imageLoader: Option<ImageLoader>

    constructor (dpiX: Dpi, dpiY: Dpi)
      ensures this.dpiX == dpiX && this.dpiY == dpiY
      ensures image.None? && imageLoader.None?
    {
      this.dpiX := dpiX;
      this.dpiY := dpiY;
      image := None;
      imageLoader := None;
    }

    /** `PrepareImage`: a new, empty target at the drawer's own resolution replaces any
        previous one; a size that is not positive throws once the previous one is dropped. */
    method PrepareImage(width: int, height: int) returns (r: Result<(), ExportError>)
      modifies this
      ensures r.Ok? <==> ValidSize(width, height)
      ensures r.Ok? ==> image == Some(RenderTarget(width, height, dpiX, dpiY, []))
      ensures r.Err? ==> r.error == BadSize && image.None?
      ensures imageLoader == old(imageLoader)
    {
      if image.Some? {
        image := None;
      }
      if !ValidSize(width, height) {
        return Err(BadSize);
      }
      image := Some(RenderTarget(width, height, dpiX, dpiY, []));
      r := Ok(());
    }

    method SaveImage(path: string, lists: ExtensionLists) returns (r: Result<Option<Saved<seq<LayerCall>>>, ExportError>)
      modifies this
      ensures r == SaveOutcome(old(image), path, lists)
      ensures r.Ok? ==> image.None?
      ensures r.Err? ==> image == old(image)
      ensures imageLoader == old(imageLoader)
    {
      if image.Some? && !IsNullOrWhiteSpace(Some(path)) {
        var encoder := EncoderFor(path, lists);
        if encoder.None? {
          return Err(NoEncoder);
        }
        r := Ok(Some(Saved(encoder.value, path, image.value)));
      } else {
        r := Ok(None);
      }
      image := None;
    }

    /** `Invalidate(renderer, x, y, width, height, layers)`: with a target and a renderer, the
        target is cleared and receives the calls of the set layers, in order; otherwise nothing
        happens. `rendererPresent` is whether the renderer is non-null. */
    method InvalidateArea(rendererPresent: bool, x: int, y: int, width: int, height: int, layers: Layers)
      returns (calls: seq<LayerCall>)
      modifies this
      ensures old(image).None? || !rendererPresent ==> image == old(image) && calls == []
      ensures old(image).Some? && rendererPresent ==>
        calls == LayerCalls(layers, x, y, width, height) && image == Some(old(image).value.(content := calls))
      ensures imageLoader == old(imageLoader)
    {
      calls := [];
      if image.Some? && rendererPresent {
        if layers.background {
          calls := calls + [DrawBackground(x, y, width, height)];
        }
        if layers.model {
          calls := calls + [DrawModel(x, y, width, height)];
        }
        if layers.temporary {
          calls := calls + [DrawTemporaryItems(x, y, width, height)];
        }
        if layers.capture {
          calls := calls + [DrawCaptureStrokes(x, y, width, height)];
        }
        image := Some(image.value.(content := calls));
      }
    }

    /** `Invalidate(renderer, layers)`: the whole target, in device-independent pixels. */
    method Invalidate(rendererPresent: bool, layers: Layers) returns (calls: seq<LayerCall>)
      modifies this
      ensures old(image).None? || !rendererPresent ==> image == old(image) && calls == []
      ensures old(image).Some? && rendererPresent ==>
        var t := old(image).value;
        && calls == LayerCalls(layers, 0, 0, DipExtent(t.pixelWidth, dpiX), DipExtent(t.pixelHeight, dpiY))
        && image == Some(t.(content := calls))
      ensures imageLoader == old(imageLoader)
    {
      if image.Some? && rendererPresent {
        calls := InvalidateArea(rendererPresent, 0, 0, DipExtent(image.value.pixelWidth, dpiX), DipExtent(image.value.pixelHeight, dpiY), layers);
      } else {
        calls := [];
      }
    }
  }
}
