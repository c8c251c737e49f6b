/**
 * `Canvas`: the engine's drawing surface over a WPF `DrawingContext`.
 *
 * The drawing context is an append-only log of the calls made on it (`ops`).  The canvas
 * keeps the current transform, the stroke pen (whose brush is the stroke colour), the fill
 * colour and rule, the drop shadow, the font, and the clip-group stash.  Each draw method is
 * proved to append exactly the operations of a pure function of the canvas state; lemmas
 * state what those sequences contain: alpha gating, fill before stroke, and balanced
 * push/pop nesting.
 */
module Canvases {
  import opened Wrappers
  import opened Paths
  import opened ImageCache
  import opened FontMetrics

  newtype byte = x: int | 0 <= x < 256

  /** An ARGB colour as the brushes hold it. */
  datatype Color = Color(a: byte, r: byte, g: byte, b: byte)

  /** The colour of a `new SolidColorBrush()`: `Colors.Transparent`, that is #00FFFFFF. */
  const DefaultBrush := Color(0, 255, 255, 255)

  /** `Color.FromArgb(0, 0, 0, 0)`: transparent black, the initial shadow colour. */
  const Transparent := Color(0, 0, 0, 0)

  /** An affine transform, passed through to the drawing context. */
  datatype Transform = Transform(xx: real, xy: real, yx: real, yy: real, tx: real, ty: real)

  const Identity := Transform(1.0, 0.0, 0.0, 1.0, 0.0, 0.0)

  datatype Rect = Rect(x: real, y: real, width: real, height: real) | EmptyRect

  /** The engine's line caps, joins and fill rules; `Unknown*` is any other enum value. */
  datatype LineCap = Butt | RoundCap | SquareCap | UnknownCap(code: int)
  datatype LineJoin = Miter | RoundJoin | Bevel | UnknownJoin(code: int)
  datatype FillRule = NonZero | EvenOdd | UnknownRule(code: int)

  /** The platform's pen caps, pen joins and fill rules. */
  datatype PenLineCap = Flat | PenRound | PenSquare
  datatype PenLineJoin = PenMiter | PenBevel | PenRoundJoin
  datatype MediaFillRule = MediaEvenOdd | MediaNonzero

  /** A WPF `Pen`; its brush is the stroke colour. */
  datatype Pen = Pen(brush: Color, thickness: real, startCap: PenLineCap, endCap: PenLineCap, dashCap: PenLineCap,
                     lineJoin: PenLineJoin, miterLimit: real, dashes: seq<real>, dashOffset: real)

  /** `new Pen(brush, 1)`: flat start and end caps, square dash cap, miter join, miter limit 10,
      solid. */
  function NewPen(brush: Color): Pen {
    Pen(brush, 1.0, Flat, Flat, PenSquare, PenMiter, 10.0, [], 0.0)
  }

  datatype DropShadow = DropShadow(xOffset: real, yOffset: real, radius: real, color: Color)

  datatype Typeface = Typeface(family: Option<string>, style: FontStyle, weight: FontWeight, stretch: FontStretch)

  /** Whether an operation draws the shape itself or its drop shadow (offset by dx, dy). */
  datatype Layer = Main | Shadow(dx: real, dy: real)

  /** A group saved in the stash: its clip rectangle (to be mapped by the transform) and the
      transform in effect when it was started. */
  datatype Group = Group(bound: Rect, transform: Transform)

  /** One call on the drawing context. */
  datatype DrawOp =
    | PushTransform(transform: Transform)
    | PushClip(clip: Group)
    | Pop
    | FillRect(brush: Color, rect: Rect, layer: Layer)
    | StrokeRect(pen: Pen, rect: Rect, layer: Layer)
    | FillGeometry(brush: Color, rule: MediaFillRule, figures: seq<Figure>, layer: Layer)
    | StrokeGeometry(pen: Pen, figures: seq<Figure>, layer: Layer)
    | StrokeLine(pen: Pen, from: Point, to: Point, layer: Layer)
    | ImageOp(image: Bitmap, rect: Rect)
    | TextOp(glyphs: string, typeface: Typeface, size: real, brush: Color, origin: Point, layer: Layer)
  {
    predicate IsPush() { PushTransform? || PushClip? }
    predicate IsStackOp() { IsPush() || Pop? }
    predicate IsMain() { !IsStackOp() && (ImageOp? || layer == Main) }
  }

  // ---------------------------------------------------------------------------------------
  // Nesting of the drawing context

  function Delta(op: DrawOp): int {
    if op.IsPush() then 1 else if op.Pop? then -1 else 0
  }

  /** Pushes minus pops. */
  function Depth(ops: seq<DrawOp>): int {
    if ops == [] then 0 else Depth(ops[..|ops| - 1]) + Delta(ops[|ops| - 1])
  }

  /** Every pop matches an earlier push, and every push is popped. */
  predicate WellNested(ops: seq<DrawOp>) {
    Depth(ops) == 0 && forall k :: 0 <= k <= |ops| ==> Depth(ops[..k]) >= 0
  }

  predicate NoStackOps(ops: seq<DrawOp>) {
    forall i :: 0 <= i < |ops| ==> !ops[i].IsStackOp()
  }

  lemma {:induction false} DepthConcat(a: seq<DrawOp>, b: seq<DrawOp>)
    ensures Depth(a + b) == Depth(a) + Depth(b)
  {
    if b == [] {
      assert a + b == a;
    } else {
      assert (a + b)[..|a + b| - 1] == a + b[..|b| - 1];
      DepthConcat(a, b[..|b| - 1]);
    }
  }

  lemma {:induction false} FlatDepth(m: seq<DrawOp>)
    requires NoStackOps(m)
    ensures Depth(m) == 0
  {
    if m != [] {
      FlatDepth(m[..|m| - 1]);
    }
  }

  /** Two well-nested sequences in a row are well nested. */
  lemma NestedConcat(a: seq<DrawOp>, b: seq<DrawOp>)
    requires WellNested(a) && WellNested(b)
    ensures WellNested(a + b)
  {
    DepthConcat(a, b);
    forall k | 0 <= k <= |a + b|
      ensures Depth((a + b)[..k]) >= 0
    {
      if k <= |a| {
        assert (a + b)[..k] == a[..k];
      } else {
        assert (a + b)[..k] == a + b[..k - |a|];
        DepthConcat(a, b[..k - |a|]);
      }
    }
  }

  /** One push, drawing operations only, one pop: well nested. */
  lemma Bracketed(push: DrawOp, m: seq<DrawOp>)
    requires push.IsPush() && NoStackOps(m)
    ensures WellNested([push] + m + [Pop])
  {
    var s := [push] + m + [Pop];
    assert s[..|s| - 1] == [push] + m;
    DepthConcat([push], m);
    FlatDepth(m);
    assert Depth([push]) == 1 by {
      assert [push][..0] == [];
    }
    forall k | 0 <= k <= |s|
      ensures Depth(s[..k]) >= 0
    {
      if k == 0 {
      } else if k <= |m| + 1 {
        assert s[..k] == [push] + m[..k - 1];
        DepthConcat([push], m[..k - 1]);
        FlatDepth(m[..k - 1]);
      } else {
        assert s[..k] == s;
      }
    }
  }

  lemma EmptyNested()
    ensures WellNested([])
  {
  }

  // ---------------------------------------------------------------------------------------
  // Setters

  /** `SetStrokeLineCap`: a known cap sets start, end and dash caps to the same pen cap; any
      other value leaves the pen as it was. */
  function ApplyLineCap(pen: Pen, cap: LineCap): (r: Pen)
    ensures cap.UnknownCap? ==> r == pen
    ensures !cap.UnknownCap? ==> r.startCap == r.endCap == r.dashCap
    ensures cap == Butt ==> r.startCap == Flat
    ensures cap == RoundCap ==> r.startCap == PenRound
    ensures cap == SquareCap ==> r.startCap == PenSquare
    ensures r.(startCap := pen.startCap, endCap := pen.endCap, dashCap := pen.dashCap) == pen
  {
    match cap
    case Butt => pen.(startCap := Flat, endCap := Flat, dashCap := Flat)
    case RoundCap => pen.(startCap := PenRound, endCap := PenRound, dashCap := PenRound)
    case SquareCap => pen.(startCap := PenSquare, endCap := PenSquare, dashCap := PenSquare)
    case UnknownCap(_) => pen
  }

  /** `SetStrokeLineJoin`: bevel, miter or round; any other value changes nothing. */
  function ApplyLineJoin(pen: Pen, join: LineJoin): (r: Pen)
    ensures join.UnknownJoin? ==> r == pen
    ensures join == Bevel ==> r.lineJoin == PenBevel
    ensures join == Miter ==> r.lineJoin == PenMiter
    ensures join == RoundJoin ==> r.lineJoin == PenRoundJoin
    ensures r.(lineJoin := pen.lineJoin) == pen
  {
    match join
    case Bevel => pen.(lineJoin := PenBevel)
    case Miter => pen.(lineJoin := PenMiter)
    case RoundJoin => pen.(lineJoin := PenRoundJoin)
    case UnknownJoin(_) => pen
  }

  /** `SetFillRule`: non-zero or even-odd; any other value keeps the previous rule. */
  function ApplyFillRule(current: MediaFillRule, rule: FillRule): (r: MediaFillRule)
    ensures rule == NonZero ==> r == MediaNonzero
    ensures rule == EvenOdd ==> r == MediaEvenOdd
    ensures rule.UnknownRule? ==> r == current
  {
    match rule
    case NonZero => MediaNonzero
    case EvenOdd => MediaEvenOdd
    case UnknownRule(_) => current
  }

  // ---------------------------------------------------------------------------------------
  // What each draw call appends to the drawing context

  /** The drawing state the draw calls read. */
  datatype CanvasStyle = CanvasStyle(transform: Transform, stroke: Pen, fill: Color, fillRule: MediaFillRule,
                                     shadow: DropShadow, typeface: Typeface, fontSize: real)
  {
    predicate Fills() { fill.a > 0 }
    predicate Strokes() { stroke.brush.a > 0 }
    predicate Shadows() { shadow.color.a > 0 }
    function ShadowLayer(): Layer { Shadow(shadow.xOffset, shadow.yOffset) }
    function ShadowPen(): Pen { stroke.(brush := shadow.color) }
  }

  /** All segments of all figures marked stroked, as the stroke pass does to the geometry. */
  function StrokeAll(figures: seq<Figure>): (r: seq<Figure>)
    ensures |r| == |figures|
    ensures forall i :: 0 <= i < |r| ==> r[i].start == figures[i].start && |r[i].segments| == |figures[i].segments|
    ensures forall i :: 0 <= i < |r| ==> r[i] == figures[i].(segments := StrokeSegments(figures[i].segments))
  {
    if figures == [] then []
    else
      var f := figures[0];
      [f.(segments := StrokeSegments(f.segments))] + StrokeAll(figures[1..])
  }

  /** The stroke pass's loop over the geometry: every segment of every figure marked stroked. */
  method MarkStroked(p: RenderPath)
    modifies p
    ensures p.figures == StrokeAll(old(p.figures)) && p.figure == old(p.figure)
  {
    p.figures := StrokeAll(p.figures);
  }

  function StrokeSegments(segments: seq<Segment>): (r: seq<Segment>)
    ensures |r| == |segments|
    ensures forall i :: 0 <= i < |r| ==> r[i].stroked && r[i].(stroked := segments[i].stroked) == segments[i]
  {
    if segments == [] then [] else [segments[0].(stroked := true)] + StrokeSegments(segments[1..])
  }

  /** One optional drawing operation. */
  function Opt(c: bool, op: DrawOp): seq<DrawOp> {
    if c then [op] else []
  }

  /** A block of operations under `PushRenderStates` / `PopRenderStates`. */
  function Bracket(t: Transform, m: seq<DrawOp>): seq<DrawOp> {
    [PushTransform(t)] + m + [Pop]
  }

  lemma AppendBracket(o: seq<DrawOp>, t: Transform, m: seq<DrawOp>)
    ensures o + [PushTransform(t)] + m + [Pop] == o + Bracket(t, m)
  {
  }

  function When(c: bool, ops: seq<DrawOp>): seq<DrawOp> {
    if c then ops else []
  }

  /** `DrawShadowPath` */
  function ShadowPathOps(st: CanvasStyle, figures: seq<Figure>, fill: bool, outline: bool): seq<DrawOp> {
    Bracket(st.transform,
      Opt(fill, FillGeometry(st.shadow.color, st.fillRule, figures, st.ShadowLayer()))
      + Opt(outline, StrokeGeometry(st.ShadowPen(), StrokeAll(figures), st.ShadowLayer())))
  }

  /** The main pass of `DrawPath`: fill with the fill rule, then stroke the stroked geometry. */
  function MainPathOps(st: CanvasStyle, figures: seq<Figure>): seq<DrawOp> {
    Opt(st.Fills(), FillGeometry(st.fill, st.fillRule, figures, Main))
    + Opt(st.Strokes(), StrokeGeometry(st.stroke, StrokeAll(figures), Main))
  }

  /** `DrawPath` on a path whose committed-plus-pending figures are `figures`. */
  function PathOps(st: CanvasStyle, figures: seq<Figure>): seq<DrawOp> {
    When(st.Shadows(), ShadowPathOps(st, figures, st.Fills(), st.Strokes()))
    + When(st.Fills() || st.Strokes(), Bracket(st.transform, MainPathOps(st, figures)))
  }

  /** `DrawShadowRect` */
  function ShadowRectOps(st: CanvasStyle, rect: Rect, fill: bool, outline: bool): seq<DrawOp> {
    Bracket(st.transform,
      Opt(fill, FillRect(st.shadow.color, rect, st.ShadowLayer()))
      + Opt(outline, StrokeRect(st.ShadowPen(), rect, st.ShadowLayer())))
  }

  function MainRectOps(st: CanvasStyle, rect: Rect): seq<DrawOp> {
    Opt(st.Fills(), FillRect(st.fill, rect, Main)) + Opt(st.Strokes(), StrokeRect(st.stroke, rect, Main))
  }

  /** `DrawRectangle` */
  function RectOps(st: CanvasStyle, rect: Rect): seq<DrawOp> {
    When(st.Shadows(), ShadowRectOps(st, rect, st.Fills(), st.Strokes()))
    + When(st.Fills() || st.Strokes(), Bracket(st.transform, MainRectOps(st, rect)))
  }

  /** `DrawLine` */
  function LineOps(st: CanvasStyle, p1: Point, p2: Point): seq<DrawOp> {
    When(st.Strokes(),
      When(st.Shadows(), Bracket(st.transform, [StrokeLine(st.ShadowPen(), p1, p2, st.ShadowLayer())]))
      + Bracket(st.transform, [StrokeLine(st.stroke, p1, p2, Main)]))
  }

  /** The main pass of `DrawObject`, given what the loader returned (`None` is null). */
  function MainObjectOps(st: CanvasStyle, image: Option<Bitmap>, rect: Rect): seq<DrawOp> {
    match image
    case None => When(st.Fills(), Bracket(st.transform, [FillRect(st.fill, rect, Main)]))
    case Some(bitmap) => Bracket(st.transform, [ImageOp(bitmap, rect)])
  }

  /** `DrawObject` with a loader. */
  function ObjectOps(st: CanvasStyle, image: Option<Bitmap>, rect: Rect): seq<DrawOp> {
    When(st.Shadows(), ShadowRectOps(st, rect, st.Fills(), st.Strokes())) + MainObjectOps(st, image, rect)
  }

  /** `DrawText`; the origin is the engine's point (the baseline shift is not modelled). */
  function TextOps(st: CanvasStyle, glyphs: string, origin: Point): seq<DrawOp> {
    When(st.Fills(),
      When(st.Shadows(), Bracket(st.transform, [TextOp(glyphs, st.typeface, st.fontSize, st.shadow.color, origin, st.ShadowLayer())]))
      + Bracket(st.transform, [TextOp(glyphs, st.typeface, st.fontSize, st.fill, origin, Main)]))
  }

  /** `Clear` */
  function ClearOps(st: CanvasStyle, rect: Rect, color: Color): seq<DrawOp> {
    Bracket(st.transform, [FillRect(color, rect, Main)])
  }

  // ---------------------------------------------------------------------------------------
  // What is drawn: gating and order

  /** The operations that draw the shape itself (not its shadow), in order. */
  function MainDrawing(ops: seq<DrawOp>): (r: seq<DrawOp>)
    ensures |r| <= |ops|
  {
    if ops == [] then []
    else (if ops[0].IsMain() then [ops[0]] else []) + MainDrawing(ops[1..])
  }

  lemma {:induction false} MainDrawingConcat(a: seq<DrawOp>, b: seq<DrawOp>)
    ensures MainDrawing(a + b) == MainDrawing(a) + MainDrawing(b)
  {
    if a == [] {
      assert a + b == b;
    } else {
      var head := if a[0].IsMain() then [a[0]] else [];
      assert (a + b)[0] == a[0] && (a + b)[1..] == a[1..] + b;
      assert MainDrawing(a + b) == head + MainDrawing(a[1..] + b);
      MainDrawingConcat(a[1..], b);
      assert MainDrawing(a) == head + MainDrawing(a[1..]);
    }
  }

  lemma MainOpt(c: bool, op: DrawOp)
    ensures MainDrawing(Opt(c, op)) == Opt(c && op.IsMain(), op)
  {
    if c {
      assert [op][1..] == [];
    }
  }

  lemma MainOfBracket(t: Transform, m: seq<DrawOp>)
    ensures MainDrawing(Bracket(t, m)) == MainDrawing(m)
  {
    MainDrawingConcat([PushTransform(t)] + m, [Pop]);
    MainDrawingConcat([PushTransform(t)], m);
    MainOpt(true, PushTransform(t));
    MainOpt(true, Pop);
  }

  lemma MainOfPair(c1: bool, op1: DrawOp, c2: bool, op2: DrawOp)
    ensures MainDrawing(Opt(c1, op1) + Opt(c2, op2)) == Opt(c1 && op1.IsMain(), op1) + Opt(c2 && op2.IsMain(), op2)
  {
    MainDrawingConcat(Opt(c1, op1), Opt(c2, op2));
    MainOpt(c1, op1);
    MainOpt(c2, op2);
  }

  /** Shadow passes draw nothing of the shape itself. */
  lemma ShadowPathIsNotMain(st: CanvasStyle, figures: seq<Figure>, fill: bool, outline: bool)
    ensures MainDrawing(ShadowPathOps(st, figures, fill, outline)) == []
  {
    MainOfBracket(st.transform,
      Opt(fill, FillGeometry(st.shadow.color, st.fillRule, figures, st.ShadowLayer()))
      + Opt(outline, StrokeGeometry(st.ShadowPen(), StrokeAll(figures), st.ShadowLayer())));
    MainOfPair(fill, FillGeometry(st.shadow.color, st.fillRule, figures, st.ShadowLayer()),
               outline, StrokeGeometry(st.ShadowPen(), StrokeAll(figures), st.ShadowLayer()));
  }

  lemma ShadowRectIsNotMain(st: CanvasStyle, rect: Rect, fill: bool, outline: bool)
    ensures MainDrawing(ShadowRectOps(st, rect, fill, outline)) == []
  {
    MainOfBracket(st.transform,
      Opt(fill, FillRect(st.shadow.color, rect, st.ShadowLayer()))
      + Opt(outline, StrokeRect(st.ShadowPen(), rect, st.ShadowLayer())));
    MainOfPair(fill, FillRect(st.shadow.color, rect, st.ShadowLayer()),
               outline, StrokeRect(st.ShadowPen(), rect, st.ShadowLayer()));
  }

  /** `DrawPath` draws the shape only when fill or stroke is visible: the fill (with the
      current rule) when the fill alpha is non-zero, then the stroke when the stroke alpha is. */
  lemma PathGating(st: CanvasStyle, figures: seq<Figure>)
    ensures MainDrawing(PathOps(st, figures)) == MainPathOps(st, figures)
    ensures !st.Fills() && !st.Strokes() ==> MainDrawing(PathOps(st, figures)) == []
    ensures st.Fills() && st.Strokes() ==>
      MainDrawing(PathOps(st, figures)) == [FillGeometry(st.fill, st.fillRule, figures, Main), StrokeGeometry(st.stroke, StrokeAll(figures), Main)]
  {
    PathMain(st, figures);
    MainOfPair(st.Fills(), FillGeometry(st.fill, st.fillRule, figures, Main),
               st.Strokes(), StrokeGeometry(st.stroke, StrokeAll(figures), Main));
  }

  /** Of everything `DrawPath` emits, only its main pass draws the shape. */
  lemma PathMain(st: CanvasStyle, figures: seq<Figure>)
    ensures MainDrawing(PathOps(st, figures)) == MainPathOps(st, figures)
  {
    var shadow := When(st.Shadows(), ShadowPathOps(st, figures, st.Fills(), st.Strokes()));
    var main := When(st.Fills() || st.Strokes(), Bracket(st.transform, MainPathOps(st, figures)));
    MainDrawingConcat(shadow, main);
    assert MainDrawing(shadow) == [] by {
      if st.Shadows() {
        ShadowPathIsNotMain(st, figures, st.Fills(), st.Strokes());
      }
    }
    assert MainDrawing(main) == MainPathOps(st, figures) by {
      if st.Fills() || st.Strokes() {
        MainOfBracket(st.transform, MainPathOps(st, figures));
      }
    }
  }

  /** `DrawRectangle`: the same gating and order as `DrawPath`. */
  lemma RectGating(st: CanvasStyle, rect: Rect)
    ensures MainDrawing(RectOps(st, rect)) == MainRectOps(st, rect)
    ensures !st.Fills() && !st.Strokes() ==> MainDrawing(RectOps(st, rect)) == []
    ensures st.Fills() && st.Strokes() ==>
      MainDrawing(RectOps(st, rect)) == [FillRect(st.fill, rect, Main), StrokeRect(st.stroke, rect, Main)]
  {
    RectMain(st, rect);
    MainOfPair(st.Fills(), FillRect(st.fill, rect, Main), st.Strokes(), StrokeRect(st.stroke, rect, Main));
  }

  /** Of everything `DrawRectangle` emits, only its main pass draws the shape. */
  lemma RectMain(st: CanvasStyle, rect: Rect)
    ensures MainDrawing(RectOps(st, rect)) == MainRectOps(st, rect)
  {
    var shadow := When(st.Shadows(), ShadowRectOps(st, rect, st.Fills(), st.Strokes()));
    var main := When(st.Fills() || st.Strokes(), Bracket(st.transform, MainRectOps(st, rect)));
    MainDrawingConcat(shadow, main);
    assert MainDrawing(shadow) == [] by {
      if st.Shadows() {
        ShadowRectIsNotMain(st, rect, st.Fills(), st.Strokes());
      }
    }
    assert MainDrawing(main) == MainRectOps(st, rect) by {
      if st.Fills() || st.Strokes() {
        MainOfBracket(st.transform, MainRectOps(st, rect));
      }
    }
  }

  /** `DrawLine` and `DrawText` emit nothing at all when the stroke (resp. fill) alpha is 0,
      and otherwise draw the line (resp. text) itself exactly once, after its shadow. */
  lemma LineGating(st: CanvasStyle, p1: Point, p2: Point)
    ensures LineOps(st, p1, p2) == [] <==> !st.Strokes()
    ensures st.Strokes() ==> MainDrawing(LineOps(st, p1, p2)) == [StrokeLine(st.stroke, p1, p2, Main)]
  {
    if st.Strokes() {
      var sh := Bracket(st.transform, [StrokeLine(st.ShadowPen(), p1, p2, st.ShadowLayer())]);
      var m := Bracket(st.transform, [StrokeLine(st.stroke, p1, p2, Main)]);
      MainDrawingConcat(When(st.Shadows(), sh), m);
      MainOfBracket(st.transform, [StrokeLine(st.ShadowPen(), p1, p2, st.ShadowLayer())]);
      MainOfBracket(st.transform, [StrokeLine(st.stroke, p1, p2, Main)]);
      MainOpt(true, StrokeLine(st.ShadowPen(), p1, p2, st.ShadowLayer()));
      MainOpt(true, StrokeLine(st.stroke, p1, p2, Main));
    }
  }

  lemma TextGating(st: CanvasStyle, glyphs: string, origin: Point)
    ensures TextOps(st, glyphs, origin) == [] <==> !st.Fills()
    ensures st.Fills() ==>
      MainDrawing(TextOps(st, glyphs, origin)) == [TextOp(glyphs, st.typeface, st.fontSize, st.fill, origin, Main)]
  {
    if st.Fills() {
      var s := TextOp(glyphs, st.typeface, st.fontSize, st.shadow.color, origin, st.ShadowLayer());
      var t := TextOp(glyphs, st.typeface, st.fontSize, st.fill, origin, Main);
      MainDrawingConcat(When(st.Shadows(), Bracket(st.transform, [s])), Bracket(st.transform, [t]));
      MainOfBracket(st.transform, [s]);
      MainOfBracket(st.transform, [t]);
      MainOpt(true, s);
      MainOpt(true, t);
    }
  }

  /** `DrawObject`: a null image gives only a fill rectangle, and only when the fill alpha is
      non-zero; otherwise the image is drawn. */
  lemma ObjectGating(st: CanvasStyle, image: Option<Bitmap>, rect: Rect)
    ensures image.None? ==> MainDrawing(ObjectOps(st, image, rect)) == Opt(st.Fills(), FillRect(st.fill, rect, Main))
    ensures image.Some? ==> MainDrawing(ObjectOps(st, image, rect)) == [ImageOp(image.value, rect)]
  {
    ObjectMain(st, image, rect);
    match image {
      case None => NullObjectMain(st, rect);
      case Some(bitmap) => ImageObjectMain(st, bitmap, rect);
    }
  }

  /** The shadow rectangle of `DrawObject` draws nothing of the object itself. */
  lemma ObjectMain(st: CanvasStyle, image: Option<Bitmap>, rect: Rect)
    ensures MainDrawing(ObjectOps(st, image, rect)) == MainDrawing(MainObjectOps(st, image, rect))
  {
    var shadow := When(st.Shadows(), ShadowRectOps(st, rect, st.Fills(), st.Strokes()));
    MainDrawingConcat(shadow, MainObjectOps(st, image, rect));
    assert MainDrawing(shadow) == [] by {
      if st.Shadows() {
        ShadowRectIsNotMain(st, rect, st.Fills(), st.Strokes());
      }
    }
  }

  lemma NullObjectMain(st: CanvasStyle, rect: Rect)
    ensures MainDrawing(MainObjectOps(st, None, rect)) == Opt(st.Fills(), FillRect(st.fill, rect, Main))
  {
    if st.Fills() {
      MainOfBracket(st.transform, [FillRect(st.fill, rect, Main)]);
      MainOpt(true, FillRect(st.fill, rect, Main));
    }
  }

  lemma ImageObjectMain(st: CanvasStyle, bitmap: Bitmap, rect: Rect)
    ensures MainDrawing(MainObjectOps(st, Some(bitmap), rect)) == [ImageOp(bitmap, rect)]
  {
    MainOfBracket(st.transform, [ImageOp(bitmap, rect)]);
    MainOpt(true, ImageOp(bitmap, rect));
  }

  // ---------------------------------------------------------------------------------------
  // Every draw call leaves the drawing context as nested as it found it

  lemma BracketNested(t: Transform, m: seq<DrawOp>)
    requires NoStackOps(m)
    ensures WellNested(Bracket(t, m))
  {
    Bracketed(PushTransform(t), m);
  }

  lemma WhenNested(c: bool, ops: seq<DrawOp>)
    requires WellNested(ops)
    ensures WellNested(When(c, ops))
  {
  }

  lemma PathNested(st: CanvasStyle, figures: seq<Figure>)
    ensures WellNested(PathOps(st, figures))
  {
    var sh := ShadowPathOps(st, figures, st.Fills(), st.Strokes());
    BracketNested(st.transform,
      Opt(st.Fills(), FillGeometry(st.shadow.color, st.fillRule, figures, st.ShadowLayer()))
      + Opt(st.Strokes(), StrokeGeometry(st.ShadowPen(), StrokeAll(figures), st.ShadowLayer())));
    BracketNested(st.transform, MainPathOps(st, figures));
    WhenNested(st.Shadows(), sh);
    WhenNested(st.Fills() || st.Strokes(), Bracket(st.transform, MainPathOps(st, figures)));
    NestedConcat(When(st.Shadows(), sh), When(st.Fills() || st.Strokes(), Bracket(st.transform, MainPathOps(st, figures))));
  }

  lemma RectNested(st: CanvasStyle, rect: Rect)
    ensures WellNested(RectOps(st, rect))
    ensures WellNested(ShadowRectOps(st, rect, st.Fills(), st.Strokes()))
  {
    var sh := ShadowRectOps(st, rect, st.Fills(), st.Strokes());
    BracketNested(st.transform,
      Opt(st.Fills(), FillRect(st.shadow.color, rect, st.ShadowLayer()))
      + Opt(st.Strokes(), StrokeRect(st.ShadowPen(), rect, st.ShadowLayer())));
    BracketNested(st.transform, MainRectOps(st, rect));
    WhenNested(st.Shadows(), sh);
    WhenNested(st.Fills() || st.Strokes(), Bracket(st.transform, MainRectOps(st, rect)));
    NestedConcat(When(st.Shadows(), sh), When(st.Fills() || st.Strokes(), Bracket(st.transform, MainRectOps(st, rect))));
  }

  lemma LineNested(st: CanvasStyle, p1: Point, p2: Point)
    ensures WellNested(LineOps(st, p1, p2))
  {
    var sh := Bracket(st.transform, [StrokeLine(st.ShadowPen(), p1, p2, st.ShadowLayer())]);
    var m := Bracket(st.transform, [StrokeLine(st.stroke, p1, p2, Main)]);
    BracketNested(st.transform, [StrokeLine(st.ShadowPen(), p1, p2, st.ShadowLayer())]);
    BracketNested(st.transform, [StrokeLine(st.stroke, p1, p2, Main)]);
    WhenNested(st.Shadows(), sh);
    NestedConcat(When(st.Shadows(), sh), m);
    WhenNested(st.Strokes(), When(st.Shadows(), sh) + m);
  }

  lemma ObjectNested(st: CanvasStyle, image: Option<Bitmap>, rect: Rect)
    ensures WellNested(ObjectOps(st, image, rect))
  {
    RectNested(st, rect);
    WhenNested(st.Shadows(), ShadowRectOps(st, rect, st.Fills(), st.Strokes()));
    match image {
      case None =>
        BracketNested(st.transform, [FillRect(st.fill, rect, Main)]);
        WhenNested(st.Fills(), Bracket(st.transform, [FillRect(st.fill, rect, Main)]));
      case Some(bitmap) =>
        BracketNested(st.transform, [ImageOp(bitmap, rect)]);
    }
    NestedConcat(When(st.Shadows(), ShadowRectOps(st, rect, st.Fills(), st.Strokes())), MainObjectOps(st, image, rect));
  }

  lemma TextNested(st: CanvasStyle, glyphs: string, origin: Point)
    ensures WellNested(TextOps(st, glyphs, origin))
  {
    var s := TextOp(glyphs, st.typeface, st.fontSize, st.shadow.color, origin, st.ShadowLayer());
    var t := TextOp(glyphs, st.typeface, st.fontSize, st.fill, origin, Main);
    BracketNested(st.transform, [s]);
    BracketNested(st.transform, [t]);
    WhenNested(st.Shadows(), Bracket(st.transform, [s]));
    NestedConcat(When(st.Shadows(), Bracket(st.transform, [s])), Bracket(st.transform, [t]));
    WhenNested(st.Fills(), When(st.Shadows(), Bracket(st.transform, [s])) + Bracket(st.transform, [t]));
  }

  lemma ClearNested(st: CanvasStyle, rect: Rect, color: Color)
    ensures WellNested(ClearOps(st, rect, color))
  {
    BracketNested(st.transform, [FillRect(color, rect, Main)]);
  }
  // ---------------------------------------------------------------------------------------
  // Clip groups

  /** The stash of saved groups, the active group, and the drawing context's log. */
  datatype GroupState = GroupState(groups: map<string, Group>, active: Group, ops: seq<DrawOp>)

  /** `StartGroup`: without clipping nothing happens; with clipping the active group is saved
      under `id` (an id already saved throws before anything changes), the new group becomes
      active and its clip is pushed. */
  function StartGroupSpec(g: GroupState, id: string, bound: Rect, transform: Transform, clipContent: bool): Option<GroupState> {
    if !clipContent then Some(g)
    else if id in g.groups then None
    else
      var group := Group(bound, transform);
      Some(GroupState(g.groups[id := g.active], group, g.ops + [PushClip(group)]))
  }

  /** `EndGroup`: restores and forgets the group saved under `id` and pops its clip; an id
      that is not saved changes nothing. */
  function EndGroupSpec(g: GroupState, id: string): GroupState {
    if id in g.groups then GroupState(g.groups - {id}, g.groups[id], g.ops + [Pop])
    else g
  }

  /** A clipped `StartGroup` and its `EndGroup` restore the stash and the active group, and
      add exactly one push and one pop. */
  lemma GroupRoundTrip(g: GroupState, id: string, bound: Rect, transform: Transform)
    requires id !in g.groups
    ensures StartGroupSpec(g, id, bound, transform, true).Some?
    ensures EndGroupSpec(StartGroupSpec(g, id, bound, transform, true).value, id)
         == GroupState(g.groups, g.active, g.ops + [PushClip(Group(bound, transform)), Pop])
  {
    var s := StartGroupSpec(g, id, bound, transform, true).value;
    assert s.groups - {id} == g.groups;
  }

  /** Starting a group with an id already saved fails; ending an unknown id, or starting an
      unclipped group, is a no-op. */
  lemma GroupNoOps(g: GroupState, id: string, bound: Rect, transform: Transform)
    ensures id in g.groups ==> StartGroupSpec(g, id, bound, transform, true).None?
    ensures id !in g.groups ==> EndGroupSpec(g, id) == g
    ensures StartGroupSpec(g, id, bound, transform, false) == Some(g)
  {
  }

  // ---------------------------------------------------------------------------------------

  /** `Canvas` */
  class Canvas {
    var ops: seq<DrawOp>
    var transform: Transform
    var stroke: Pen
    var fillColor: Color
    var fillRule: MediaFillRule
    var fontFamily: Option<string>
    var fontWeight: FontWeight
    var fontStretch: FontStretch
    var fontStyle: FontStyle
    var fontSize: real
    var dropShadow: DropShadow
    var groups: map<string, Group>
    var activeGroup: Group
    const imageLoader: Option<ImageLoader>
    const fonts: FontFamilies

    function Style(): CanvasStyle
      reads this
    {
      CanvasStyle(transform, stroke, fillColor, fillRule, dropShadow,
                  Typeface(fontFamily, fontStyle, fontWeight, fontStretch), fontSize)
    }

    function Groups(): GroupState
      reads this
    {
      GroupState(groups, activeGroup, ops)
    }

    /** The constructor: default (#00FFFFFF) stroke and fill brushes, a transparent black shadow offset by
        (0.5, 0.5) with radius 2, no saved groups and an empty active group. */
    constructor (imageLoader: Option<ImageLoader>, fonts: FontFamilies)
      ensures ops == [] && groups == map[] && activeGroup == Group(EmptyRect, Identity)
      ensures stroke == NewPen(DefaultBrush) && fillColor == DefaultBrush && fillRule == MediaEvenOdd
      ensures stroke.startCap == Flat && stroke.endCap == Flat && stroke.dashCap == PenSquare
      ensures dropShadow == DropShadow(0.5, 0.5, 2.0, Transparent)
      ensures this.imageLoader == imageLoader && this.fonts == fonts
    {
      ops := [];
      transform := Identity;
      stroke := NewPen(DefaultBrush);
      fillColor := DefaultBrush;
      fillRule := MediaEvenOdd;
      fontFamily := None;
      fontStyle := Upright;
      fontWeight := Normal;
      fontStretch := NormalStretch;
      fontSize := 0.0;
      dropShadow := DropShadow(0.5, 0.5, 2.0, Transparent);
      groups := map[];
      activeGroup := Group(EmptyRect, Identity);
      this.imageLoader := imageLoader;
      this.fonts := fonts;
    }

    method SetStrokeColor(color: Color)
      modifies this
      ensures Style() == old(Style()).(stroke := old(stroke).(brush := color))
      ensures Groups() == old(Groups())
    {
      stroke := stroke.(brush := color);
    }

    method SetStrokeWidth(width: real)
      modifies this
      ensures Style() == old(Style()).(stroke := old(stroke).(thickness := width))
      ensures Groups() == old(Groups())
    {
      stroke := stroke.(thickness := width);
    }

    method SetStrokeLineCap(lineCap: LineCap)
      modifies this
      ensures Style() == old(Style()).(stroke := ApplyLineCap(old(stroke), lineCap))
      ensures Groups() == old(Groups())
    {
      match lineCap {
        case Butt =>
          stroke := stroke.(startCap := Flat, endCap := Flat, dashCap := Flat);
        case RoundCap =>
          stroke := stroke.(startCap := PenRound, endCap := PenRound, dashCap := PenRound);
        case SquareCap =>
          stroke := stroke.(startCap := PenSquare, endCap := PenSquare, dashCap := PenSquare);
        case UnknownCap(_) =>
      }
    }

    method SetStrokeLineJoin(lineJoin: LineJoin)
      modifies this
      ensures Style() == old(Style()).(stroke := ApplyLineJoin(old(stroke), lineJoin))
      ensures Groups() == old(Groups())
    {
      if lineJoin == Bevel {
        stroke := stroke.(lineJoin := PenBevel);
      } else if lineJoin == Miter {
        stroke := stroke.(lineJoin := PenMiter);
      } else if lineJoin == RoundJoin {
        stroke := stroke.(lineJoin := PenRoundJoin);
      }
    }

    method SetStrokeMiterLimit(limit: real)
      modifies this
      ensures Style() == old(Style()).(stroke := old(stroke).(miterLimit := limit))
      ensures Groups() == old(Groups())
    {
      stroke := stroke.(miterLimit := limit);
    }

    /** `SetStrokeDashArray`: the dashes become the given array (a frozen dash style is first
        replaced by a copy, which the value model does not need). */
    method SetStrokeDashArray(dashes: seq<real>)
      modifies this
      ensures Style() == old(Style()).(stroke := old(stroke).(dashes := dashes))
      ensures Groups() == old(Groups())
    {
      var copied: seq<real> := [];
      for i := 0 to |dashes|
        invariant copied == dashes[..i]
      {
        copied := copied + [dashes[i]];
      }
      stroke := stroke.(dashes := copied);
    }

    method SetStrokeDashOffset(offset: real)
      modifies this
      ensures Style() == old(Style()).(stroke := old(stroke).(dashOffset := offset))
      ensures Groups() == old(Groups())
    {
      stroke := stroke.(dashOffset := offset);
    }

    method SetFillColor(color: Color)
      modifies this
      ensures Style() == old(Style()).(fill := color)
      ensures Groups() == old(Groups())
    {
      fillColor := color;
    }

    method SetFillRule(rule: FillRule)
      modifies this
      ensures Style() == old(Style()).(fillRule := ApplyFillRule(old(fillRule), rule))
      ensures Groups() == old(Groups())
    {
      match rule {
        case NonZero => fillRule := MediaNonzero;
        case EvenOdd => fillRule := MediaEvenOdd;
        case UnknownRule(_) =>
      }
    }

    method SetDropShadow(xOffset: real, yOffset: real, radius: real, color: Color)
      modifies this
      ensures Style() == old(Style()).(shadow := DropShadow(xOffset, yOffset, radius, color))
      ensures Groups() == old(Groups())
    {
      dropShadow := DropShadow(xOffset, yOffset, radius, color);
    }

    /** `SetFontProperties`: family, style, weight (and normal stretch, size) from the
        mapping. The family mapping throws before any change on a bad `MyScriptInter`
        weight; for another family a bad weight throws after family and style are set. */
    method SetFontProperties(family: string, lineHeight: real, size: real, style: string, variant: string, weight: int)
      returns (r: Result<(), FontError>)
      modifies this
      ensures Groups() == old(Groups())
      ensures var f := ToPlatformFontFamily(family, style, weight, fonts.Current());
        var w := ToPlatformFontWeight(weight);
        && (r.Ok? <==> f.Ok? && w.Ok?)
        && (f.Err? ==> Style() == old(Style()))
        && (f.Ok? && w.Err? ==> Style() == old(Style()).(typeface := old(Style()).typeface.(family := Some(f.value), style := ToPlatformFontStyle(style))))
        && (r.Ok? ==> Style() == old(Style()).(typeface := Typeface(Some(f.value), ToPlatformFontStyle(style), w.value, NormalStretch), fontSize := size))
    {
      var f := ToPlatformFontFamily(family, style, weight, fonts.Current());
      if f.Err? {
        return Err(f.error);
      }
      fontFamily := Some(f.value);
      fontStyle := ToPlatformFontStyle(style);
      var w := ToPlatformFontWeight(weight);
      if w.Err? {
        return Err(w.error);
      }
      fontWeight := w.value;
      fontStretch := NormalStretch;
      fontSize := size;
      r := Ok(());
    }

    method StartGroup(id: string, x: real, y: real, width: real, height: real, clipContent: bool) returns (ok: bool)
      modifies this
      ensures var g := StartGroupSpec(old(Groups()), id, Rect(x, y, width, height), old(transform), clipContent);
        (ok <==> g.Some?) && (ok ==> Groups() == g.value) && (!ok ==> Groups() == old(Groups()))
      ensures Style() == old(Style())
    {
      if clipContent {
        if id in groups {
          return false;
        }
        groups := groups[id := activeGroup];
        activeGroup := Group(Rect(x, y, width, height), transform);
        ops := ops + [PushClip(activeGroup)];
      }
      ok := true;
    }

    method EndGroup(id: string)
      modifies this
      ensures Groups() == EndGroupSpec(old(Groups()), id)
      ensures Style() == old(Style())
    {
      if id in groups {
        activeGroup := groups[id];
        groups := groups - {id};
        ops := ops + [Pop];
      }
    }

    method PushRenderStates()
      modifies this
      ensures ops == old(ops) + [PushTransform(transform)]
      ensures Style() == old(Style()) && groups == old(groups) && activeGroup == old(activeGroup)
    {
      ops := ops + [PushTransform(transform)];
    }

    method PopRenderStates()
      modifies this
      ensures ops == old(ops) + [Pop]
      ensures Style() == old(Style()) && groups == old(groups) && activeGroup == old(activeGroup)
    {
      ops := ops + [Pop];
    }

    method Clear(x: real, y: real, width: real, height: real, color: Color)
      modifies this
      ensures ops == old(ops) + ClearOps(old(Style()), Rect(x, y, width, height), color)
      ensures Style() == old(Style()) && groups == old(groups) && activeGroup == old(activeGroup)
    {
      PushRenderStates();
      ops := ops + [FillRect(color, Rect(x, y, width, height), Main)];
      PopRenderStates();
    }

    method DrawShadowPath(p: RenderPath, fill: bool, outline: bool)
      modifies this, p
      ensures ops == old(ops) + ShadowPathOps(old(Style()), Committed(old(p.State())), fill, outline)
      ensures p.State() == Step(old(p.State()), Finalize).value
      ensures Style() == old(Style()) && groups == old(groups) && activeGroup == old(activeGroup)
    {
      ghost var o := ops;
      PushRenderStates();
      var geometry := p.FinalizeGeometry();
      var st := Style();
      EmitPair(fill, FillGeometry(st.shadow.color, st.fillRule, geometry, st.ShadowLayer()),
               outline, StrokeGeometry(st.ShadowPen(), StrokeAll(geometry), st.ShadowLayer()));
      PopRenderStates();
      AppendBracket(o, st.transform, Opt(fill, FillGeometry(st.shadow.color, st.fillRule, geometry, st.ShadowLayer()))
        + Opt(outline, StrokeGeometry(st.ShadowPen(), StrokeAll(geometry), st.ShadowLayer())));
    }

    /** One optional drawing call. */
    method Emit(c: bool, op: DrawOp)
      modifies this
      ensures ops == old(ops) + Opt(c, op)
      ensures Style() == old(Style()) && groups == old(groups) && activeGroup == old(activeGroup)
    {
      if c {
        ops := ops + [op];
      }
    }

    /** Two optional drawing calls, in order. */
    method EmitPair(c1: bool, op1: DrawOp, c2: bool, op2: DrawOp)
      modifies this
      ensures ops == old(ops) + (Opt(c1, op1) + Opt(c2, op2))
      ensures Style() == old(Style()) && groups == old(groups) && activeGroup == old(activeGroup)
    {
      if c1 {
        ops := ops + [op1];
      }
      if c2 {
        ops := ops + [op2];
      }
    }

    /** The main pass of `DrawPath`: finalize, fill, then stroke the path's own segments. */
    method MainPathPass(p: RenderPath)
      modifies this, p
      ensures ops == old(ops) + Bracket(old(transform), MainPathOps(old(Style()), Committed(old(p.State()))))
      ensures p.figure.None?
      ensures p.figures == if old(stroke.brush.a) > 0 then StrokeAll(Committed(old(p.State()))) else Committed(old(p.State()))
      ensures Style() == old(Style()) && groups == old(groups) && activeGroup == old(activeGroup)
    {
      ghost var o := ops;
      ghost var st := Style();
      PushRenderStates();
      var geometry := p.FinalizeGeometry();
      FillAndStroke(p, geometry);
      PopRenderStates();
      AppendBracket(o, st.transform, MainPathOps(st, geometry));
    }

    /** The inside of the main pass: fill the finalized geometry, then mark its segments stroked
        and stroke it. */
    method FillAndStroke(p: RenderPath, geometry: seq<Figure>)
      requires p.figures == geometry
      modifies this, p
      ensures ops == old(ops) + MainPathOps(old(Style()), geometry)
      ensures p.figure == old(p.figure)
      ensures p.figures == if old(stroke.brush.a) > 0 then StrokeAll(geometry) else geometry
      ensures Style() == old(Style()) && groups == old(groups) && activeGroup == old(activeGroup)
    {
      var st := Style();
      Emit(st.Fills(), FillGeometry(st.fill, st.fillRule, geometry, Main));
      if stroke.brush.a > 0 {
        MarkStroked(p);
      }
      Emit(st.Strokes(), StrokeGeometry(st.stroke, StrokeAll(geometry), Main));
    }

    /** The shadow pass of `DrawPath`: drawn (and the path finalized) only when the shadow
        is visible. */
    method ShadowPathPass(p: RenderPath)
      modifies this, p
      ensures ops == old(ops) + When(old(Style()).Shadows(), ShadowPathOps(old(Style()), Committed(old(p.State())), old(Style()).Fills(), old(Style()).Strokes()))
      ensures Committed(p.State()) == Committed(old(p.State()))
      ensures old(Style()).Shadows() ==> p.figure.None?
      ensures !old(Style()).Shadows() ==> p.State() == old(p.State())
      ensures Style() == old(Style()) && groups == old(groups) && activeGroup == old(activeGroup)
    {
      if dropShadow.color.a > 0 {
        FinalizeIdempotent(p.State());
        DrawShadowPath(p, fillColor.a > 0, stroke.brush.a > 0);
        assert p.figures + [] == p.figures;
      }
    }

    /** `DrawPath`: shadow pass, then the main pass; the main stroke pass marks the path's own
        segments stroked. The path is finalized only when something is drawn. */
    method DrawPath(p: RenderPath)
      modifies this, p
      ensures ops == old(ops) + PathOps(old(Style()), Committed(old(p.State())))
      ensures Style() == old(Style()) && groups == old(groups) && activeGroup == old(activeGroup)
      ensures var st := old(Style());
        var committed := Committed(old(p.State()));
        && (!st.Shadows() && !st.Fills() && !st.Strokes() ==> p.State() == old(p.State()))
        && (st.Shadows() || st.Fills() || st.Strokes() ==>
              p.figure.None? && p.figures == if st.Strokes() then StrokeAll(committed) else committed)
    {
      ghost var st := Style();
      ghost var committed := Committed(p.State());
      ShadowPathPass(p);
      ghost var o := ops;
      if fillColor.a > 0 || stroke.brush.a > 0 {
        MainPathPass(p);
        assert ops == o + Bracket(st.transform, MainPathOps(st, committed));
      }
    }

    method DrawShadowRect(rect: Rect, fill: bool, outline: bool)
      modifies this
      ensures ops == old(ops) + ShadowRectOps(old(Style()), rect, fill, outline)
      ensures Style() == old(Style()) && groups == old(groups) && activeGroup == old(activeGroup)
    {
      ghost var o := ops;
      var st := Style();
      PushRenderStates();
      EmitPair(fill, FillRect(st.shadow.color, rect, st.ShadowLayer()), outline, StrokeRect(st.ShadowPen(), rect, st.ShadowLayer()));
      PopRenderStates();
      AppendBracket(o, st.transform, Opt(fill, FillRect(st.shadow.color, rect, st.ShadowLayer()))
        + Opt(outline, StrokeRect(st.ShadowPen(), rect, st.ShadowLayer())));
    }

    /** The shadow pass of `DrawRectangle` and `DrawObject`: drawn only when the shadow is
        visible. */
    method ShadowRectPass(rect: Rect)
      modifies this
      ensures ops == old(ops) + When(old(Style()).Shadows(), ShadowRectOps(old(Style()), rect, old(Style()).Fills(), old(Style()).Strokes()))
      ensures Style() == old(Style()) && groups == old(groups) && activeGroup == old(activeGroup)
    {
      if dropShadow.color.a > 0 {
        DrawShadowRect(rect, fillColor.a > 0, stroke.brush.a > 0);
      }
    }

    /** The main pass of `DrawRectangle`. */
    method MainRectPass(rect: Rect)
      modifies this
      ensures ops == old(ops) + Bracket(old(transform), MainRectOps(old(Style()), rect))
      ensures Style() == old(Style()) && groups == old(groups) && activeGroup == old(activeGroup)
    {
      ghost var o := ops;
      PushRenderStates();
      var st := Style();
      EmitPair(st.Fills(), FillRect(st.fill, rect, Main), st.Strokes(), StrokeRect(st.stroke, rect, Main));
      PopRenderStates();
      AppendBracket(o, st.transform, MainRectOps(st, rect));
    }

    method DrawRectangle(x: real, y: real, width: real, height: real)
      modifies this
      ensures ops == old(ops) + RectOps(old(Style()), Rect(x, y, width, height))
      ensures Style() == old(Style()) && groups == old(groups) && activeGroup == old(activeGroup)
    {
      var rect := Rect(x, y, width, height);
      ShadowRectPass(rect);
      var draw := fillColor.a > 0 || stroke.brush.a > 0;
      if draw {
        MainRectPass(rect);
      }
    }

    method DrawLine(x1: real, y1: real, x2: real, y2: real)
      modifies this
      ensures ops == old(ops) + LineOps(old(Style()), Point(x1, y1), Point(x2, y2))
      ensures Style() == old(Style()) && groups == old(groups) && activeGroup == old(activeGroup)
    {
      if stroke.brush.a > 0 {
        if dropShadow.color.a > 0 {
          PushRenderStates();
          ops := ops + [StrokeLine(Style().ShadowPen(), Point(x1, y1), Point(x2, y2), Style().ShadowLayer())];
          PopRenderStates();
        }
        PushRenderStates();
        ops := ops + [StrokeLine(stroke, Point(x1, y1), Point(x2, y2), Main)];
        PopRenderStates();
      }
    }

    /** `DrawObject`: nothing without a loader; otherwise the shadow rectangle, then the image
        the loader returns (which, in this model, is never null). */
    method DrawObject(url: string, mimeType: string, x: real, y: real, width: real, height: real,
                      decode: string -> Option<Bitmap>)
      requires imageLoader.Some? ==> imageLoader.value.Valid()
      modifies this, if imageLoader.Some? then {imageLoader.value.cache} else {}
      ensures imageLoader.Some? ==> imageLoader.value.Valid()
      ensures imageLoader.None? ==> ops == old(ops)
      ensures imageLoader.Some? ==>
        && imageLoader.value.cache.lru != [] && imageLoader.value.cache.lru[0] == url
        && ops == old(ops) + ObjectOps(old(Style()), Some(imageLoader.value.cache.cache[url].image), Rect(x, y, width, height))
      ensures imageLoader.Some? ==>
        var cache := imageLoader.value.cache;
        Fetched(url, mimeType, decode, old(cache.lru), old(cache.cache), cache.lru, cache.cache)
      ensures Style() == old(Style()) && groups == old(groups) && activeGroup == old(activeGroup)
    {
      if imageLoader.None? {
        return;
      }
      var rect := Rect(x, y, width, height);
      var loader := imageLoader.value;
      ghost var lru0, cache0 := loader.cache.lru, loader.cache.cache;
      ShadowRectPass(rect);
      assert loader.cache.lru == lru0 && loader.cache.cache == cache0;
      ImagePass(loader, url, mimeType, decode, rect);
    }

    /** The second half of `DrawObject`: ask the loader for the image, then draw it. */
    method ImagePass(loader: ImageLoader, url: string, mimeType: string, decode: string -> Option<Bitmap>, rect: Rect)
      requires loader.Valid()
      modifies this, loader.cache
      ensures loader.Valid()
      ensures loader.cache.lru != [] && loader.cache.lru[0] == url
      ensures ops == old(ops) + MainObjectOps(old(Style()), Some(loader.cache.cache[url].image), rect)
      ensures Fetched(url, mimeType, decode, old(loader.cache.lru), old(loader.cache.cache), loader.cache.lru, loader.cache.cache)
      ensures Style() == old(Style()) && groups == old(groups) && activeGroup == old(activeGroup)
    {
      var image := loader.GetImage(url, mimeType, decode);
      MainImagePass(image, rect);
    }

    /** The main pass of `DrawObject`, with the image the loader returned. */
    method MainImagePass(image: Bitmap, rect: Rect)
      modifies this
      ensures ops == old(ops) + MainObjectOps(old(Style()), Some(image), rect)
      ensures Style() == old(Style()) && groups == old(groups) && activeGroup == old(activeGroup)
    {
      PushRenderStates();
      ops := ops + [ImageOp(image, rect)];
      PopRenderStates();
    }

    method DrawText(glyphs: string, x: real, y: real, xmin: real, ymin: real, xmax: real, ymax: real)
      modifies this
      ensures ops == old(ops) + TextOps(old(Style()), glyphs, Point(x, y))
      ensures Style() == old(Style()) && groups == old(groups) && activeGroup == old(activeGroup)
    {
      if fillColor.a > 0 {
        var typeface := Typeface(fontFamily, fontStyle, fontWeight, fontStretch);
        if dropShadow.color.a > 0 {
          PushRenderStates();
          ops := ops + [TextOp(glyphs, typeface, fontSize, dropShadow.color, Point(x, y), Style().ShadowLayer())];
          PopRenderStates();
        }
        PushRenderStates();
        ops := ops + [TextOp(glyphs, typeface, fontSize, fillColor, Point(x, y), Main)];
        PopRenderStates();
      }
    }
  }
}
