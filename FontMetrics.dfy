/**
 * `FontFamilies` and `FontMetricsProvider`: mapping of the engine's font descriptions onto
 * platform fonts, and the two-level memo of glyph metrics.
 *
 * The platform measurement of one glyph (`FormattedText.BuildGeometry` and the px-to-mm
 * conversion) is the function `measure`, fixed per provider; file existence and full-path
 * resolution are the parameters `fileExists` and `fullPath`.
 */
module FontMetrics {
  import opened Wrappers
  import opened Strings

  /** `FontWeights.Light`, `Normal` and `Bold`, the only weights the mapping produces. */
  datatype FontWeight = Light | Normal | Bold

  /** `FontStyles.Normal`, `Italic`, `Oblique`. */
  datatype FontStyle = Upright | Italic | Oblique

  /** `FontStretches.Normal`, the only stretch used. */
  datatype FontStretch = NormalStretch

  /** Exceptions raised by the mapping. */
  datatype FontError =
    | WeightOutOfRange  // `FontWeight.FromOpenTypeWeight` outside 1..999

  const DefaultFamily: string := "Segoe UI"
  const DefaultStixFamily: string := "STIX"
  const FontFolder: string := "fonts"

  /** `ToPlatformFontWeight`: 700 and above is bold, 400 to 699 normal, below 400 light.  The
      method first builds `FontWeight.FromOpenTypeWeight(weight)`, which rejects weights
      outside 1..999, and only then applies the thresholds. */
  function ToPlatformFontWeight(weight: int): (r: Result<FontWeight, FontError>)
    ensures r.Err? <==> weight < 1 || weight > 999
    ensures r.Ok? ==> (r.value == Bold <==> weight >= 700)
    ensures r.Ok? ==> (r.value == Normal <==> 400 <= weight < 700)
    ensures r.Ok? ==> (r.value == Light <==> weight < 400)
  {
    if weight < 1 || weight > 999 then Err(WeightOutOfRange)
    else if weight >= 700 then Ok(Bold)
    else if weight >= 400 then Ok(Normal)
    else Ok(Light)
  }

  /** `ToPlatformFontStyle`: exact, case-sensitive comparison with `italic` and `oblique`. */
  function ToPlatformFontStyle(style: string): (r: FontStyle)
    ensures r == Italic <==> style == "italic"
    ensures r == Oblique <==> style == "oblique"
    ensures r == Upright <==> style != "italic" && style != "oblique"
  {
    if style == "italic" then Italic
    else if style == "oblique" then Oblique
    else Upright
  }

  /** The four family names as the `FontFamilies` getters return them. */
  datatype Families = Families(inter: string, interBold: string, stixRegular: string, stixItalic: string)

  /** `ToPlatformFontFamily`: `MyScriptInter` picks the bold or regular registered family by
      weight, `STIX` the italic or regular one by style, and any other family is returned as
      given. Only the `MyScriptInter` case evaluates the weight, and so can fail. */
  function ToPlatformFontFamily(family: string, style: string, weight: int, fams: Families): (r: Result<string, FontError>)
    ensures family == "MyScriptInter" ==>
      (r.Ok? <==> 1 <= weight <= 999) && (r.Ok? ==> r.value == if weight >= 700 then fams.interBold else fams.inter)
    ensures family == "STIX" ==> r == Ok(if style == "italic" then fams.stixItalic else fams.stixRegular)
    ensures family != "MyScriptInter" && family != "STIX" ==> r == Ok(family)
  {
    if family == "MyScriptInter" then
      match ToPlatformFontWeight(weight)
      case Err(e) => Err(e)
      case Ok(w) => Ok(if w == Bold then fams.interBold else fams.inter)
    else if family == "STIX" then
      Ok(if ToPlatformFontStyle(style) == Italic then fams.stixItalic else fams.stixRegular)
    else Ok(family)
  }

  /** `RegisterFontFamily`: `<full path of fonts\filename>#name` when that file exists,
      otherwise the given default family. */
  function RegisterFontFamily(filename: string, name: string, defaultFamily: string,
                              fullPath: string -> string, fileExists: string -> bool): (r: string)
    ensures var path := fullPath(FontFolder + "\\" + filename);
      && (fileExists(path) ==> StartsWith(r, path) && EndsWith(r, "#" + name) && |r| == |path| + 1 + |name|)
      && (!fileExists(path) ==> r == defaultFamily)
  {
    var path := fullPath(FontFolder + "\\" + filename);
    if fileExists(path) then
      assert (path + "#" + name)[..|path|] == path;
      assert (path + "#" + name)[|path|..] == "#" + name;
      path + "#" + name
    else defaultFamily
  }

  /** The static class `FontFamilies`: four optional family names and the `_initialized` flag. */
  class FontFamilies {
    var initialized: bool
    var myScriptInter: Option<string>
    var myScriptInterBold: Option<string>
    var stixRegular: Option<string>
    var stixItalic: Option<string>

    constructor ()
      ensures !initialized && Current() == Families(DefaultFamily, DefaultFamily, DefaultStixFamily, DefaultStixFamily)
    {
      initialized := false;
      myScriptInter, myScriptInterBold := None, None;
      stixRegular, stixItalic := None, None;
    }

    /** The getters: each returns its field, or its default (`Segoe UI` for the two
        MyScriptInter families, `STIX` for the two STIX families) while the field is null. */
    function Current(): (f: Families)
      reads this
      ensures myScriptInter.None? ==> f.inter == DefaultFamily
      ensures myScriptInterBold.None? ==> f.interBold == DefaultFamily
      ensures stixRegular.None? ==> f.stixRegular == DefaultStixFamily
      ensures stixItalic.None? ==> f.stixItalic == DefaultStixFamily
      ensures myScriptInter.Some? ==> f.inter == myScriptInter.value
      ensures myScriptInterBold.Some? ==> f.interBold == myScriptInterBold.value
      ensures stixRegular.Some? ==> f.stixRegular == stixRegular.value
      ensures stixItalic.Some? ==> f.stixItalic == stixItalic.value
    {
      Families(
        if myScriptInter.Some? then myScriptInter.value else DefaultFamily,
        if myScriptInterBold.Some? then myScriptInterBold.value else DefaultFamily,
        if stixRegular.Some? then stixRegular.value else DefaultStixFamily,
        if stixItalic.Some? then stixItalic.value else DefaultStixFamily)
    }

    /** `Initialize`: registers the four bundled fonts the first time, and does nothing on
        any later call. */
    method Initialize(fullPath: string -> string, fileExists: string -> bool)
      modifies this
      ensures initialized
      ensures old(initialized) ==> unchanged(this)
      ensures !old(initialized) ==> Current() == Families(
        RegisterFontFamily("MyScriptInter-Regular.otf", "MyScriptInter", DefaultFamily, fullPath, fileExists),
        RegisterFontFamily("MyScriptInter-Bold.otf", "MyScriptInter", DefaultFamily, fullPath, fileExists),
        RegisterFontFamily("STIXGeneral.ttf", "STIXGeneral", DefaultStixFamily, fullPath, fileExists),
        RegisterFontFamily("STIX-Italic.otf", "STIX", DefaultStixFamily, fullPath, fileExists))
    {
      if initialized {
        return;
      }
      myScriptInter := Some(RegisterFontFamily("MyScriptInter-Regular.otf", "MyScriptInter", DefaultFamily, fullPath, fileExists));
      myScriptInterBold := Some(RegisterFontFamily("MyScriptInter-Bold.otf", "MyScriptInter", DefaultFamily, fullPath, fileExists));
      stixRegular := Some(RegisterFontFamily("STIXGeneral.ttf", "STIXGeneral", DefaultStixFamily, fullPath, fileExists));
      stixItalic := Some(RegisterFontFamily("STIX-Italic.otf", "STIX", DefaultStixFamily, fullPath, fileExists));
      initialized := true;
    }
  }

  /** When no bundled font file exists, initialization leaves every getter on its default. */
  lemma NoFontFilesKeepsDefaults(fullPath: string -> string, fileExists: string -> bool)
    requires forall p :: !fileExists(p)
    ensures RegisterFontFamily("MyScriptInter-Regular.otf", "MyScriptInter", DefaultFamily, fullPath, fileExists) == DefaultFamily
    ensures RegisterFontFamily("MyScriptInter-Bold.otf", "MyScriptInter", DefaultFamily, fullPath, fileExists) == DefaultFamily
    ensures RegisterFontFamily("STIXGeneral.ttf", "STIXGeneral", DefaultStixFamily, fullPath, fileExists) == DefaultStixFamily
    ensures RegisterFontFamily("STIX-Italic.otf", "STIX", DefaultStixFamily, fullPath, fileExists) == DefaultStixFamily
  {
  }

  /** `FontKey`: family, size in pixels, weight, stretch and style. */
  datatype FontKey = FontKey(family: string, size: real, weight: FontWeight, stretch: FontStretch, style: FontStyle)

  /** What `FontKey.Equals` may receive: a `FontKey`, or an object of another runtime type. */
  datatype Object = KeyObject(key: FontKey) | OtherObject

  /** `FontKey.Equals`: a null argument throws at `obj.GetType()`; otherwise the keys are equal
      exactly when the argument is a `FontKey` whose five fields equal this key's. */
  function KeyEquals(self: FontKey, obj: Option<Object>): (r: Option<bool>)
    ensures r.None? <==> obj.None?
    ensures r == Some(true) <==> obj == Some(KeyObject(self))
  {
    match obj
    case None => None
    case Some(OtherObject) => Some(false)
    case Some(KeyObject(other)) =>
      Some(self.family == other.family && self.size == other.size && self.weight == other.weight
           && self.stretch == other.stretch && self.style == other.style)
  }

  /** The parts of an engine `Style` the provider reads. */
  datatype Style = Style(fontFamily: string, fontSize: real, fontStyle: string, fontWeight: int)

  /** `mm2px`, on reals. */
  function MmToPx(mm: real, dpi: real): real {
    (mm / 25.4) * dpi
  }

  /** `FontKeyFromStyle`: the key of the platform font for an engine style. */
  function FontKeyFromStyle(style: Style, fams: Families, dpiY: real): (r: Result<FontKey, FontError>)
    ensures r.Ok? <==> ToPlatformFontFamily(style.fontFamily, style.fontStyle, style.fontWeight, fams).Ok?
                       && ToPlatformFontWeight(style.fontWeight).Ok?
    ensures r.Ok? ==>
      && r.value.family == ToPlatformFontFamily(style.fontFamily, style.fontStyle, style.fontWeight, fams).value
      && r.value.weight == ToPlatformFontWeight(style.fontWeight).value
      && r.value.style == ToPlatformFontStyle(style.fontStyle)
      && r.value.size == MmToPx(style.fontSize, dpiY)
  {
    match ToPlatformFontFamily(style.fontFamily, style.fontStyle, style.fontWeight, fams)
    case Err(e) => Err(e)
    case Ok(family) =>
      match ToPlatformFontWeight(style.fontWeight)
      case Err(e) => Err(e)
      case Ok(weight) =>
        Ok(FontKey(family, MmToPx(style.fontSize, dpiY), weight, NormalStretch, ToPlatformFontStyle(style.fontStyle)))
  }

  datatype Rectangle = Rectangle(x: real, y: real, width: real, height: real)

  /** Glyph metrics as a value: bounding box and side bearings. */
  datatype GlyphMetrics = GlyphMetrics(boundingBox: Rectangle, leftSideBearing: real, rightSideBearing: real)

  /** A `GlyphMetrics` object handed to the engine, which may adjust it afterwards. */
  class GlyphMetricsBox {
    var boundingBox: Rectangle
    var leftSideBearing: real
    var rightSideBearing: real

    function Value(): GlyphMetrics
      reads this
    {
      GlyphMetrics(boundingBox, leftSideBearing, rightSideBearing)
    }

    constructor (m: GlyphMetrics)
      ensures Value() == m
    {
      boundingBox := m.boundingBox;
      leftSideBearing := m.leftSideBearing;
      rightSideBearing := m.rightSideBearing;
    }
  }

  /** A text span: positions `begin` (inclusive) to `end` (exclusive) in one style. */
  datatype TextSpan = TextSpan(begin: int, end: int, style: Style)

  predicate SpansInText(spans: seq<TextSpan>, glyphCount: nat) {
    forall s :: 0 <= s < |spans| ==> 0 <= spans[s].begin && spans[s].end <= glyphCount
  }

  /** The (key, label) requests of positions `begin` to `end` of one span, in order. */
  function SpanRequests(key: FontKey, labels: seq<string>, begin: int, end: int): seq<(FontKey, string)>
    requires 0 <= begin && (end <= begin || end <= |labels|)
    decreases end - begin
  {
    if end <= begin then [] else SpanRequests(key, labels, begin, end - 1) + [(key, labels[end - 1])]
  }

  /** The requests of a whole span list, span after span; fails on the first span whose style
      has no font key. */
  function Requests(spans: seq<TextSpan>, labels: seq<string>, fams: Families, dpiY: real): Result<seq<(FontKey, string)>, FontError>
    requires SpansInText(spans, |labels|)
  {
    if spans == [] then Ok([])
    else
      var last := spans[|spans| - 1];
      match Requests(spans[..|spans| - 1], labels, fams, dpiY)
      case Err(e) => Err(e)
      case Ok(rs) =>
        match FontKeyFromStyle(last.style, fams, dpiY)
        case Err(e) => Err(e)
        case Ok(key) => Ok(rs + SpanRequests(key, labels, last.begin, last.end))
  }

  /** Number of glyph positions covered by the spans (an empty or inverted span covers none). */
  function GlyphCount(spans: seq<TextSpan>): nat {
    if spans == [] then 0
    else
      var last := spans[|spans| - 1];
      GlyphCount(spans[..|spans| - 1]) + (if last.end > last.begin then last.end - last.begin else 0)
  }

  lemma {:induction false} SpanRequestsLength(key: FontKey, labels: seq<string>, begin: int, end: int)
    requires 0 <= begin && (end <= begin || end <= |labels|)
    ensures |SpanRequests(key, labels, begin, end)| == if end > begin then end - begin else 0
    ensures forall i :: 0 <= i < |SpanRequests(key, labels, begin, end)| ==>
      SpanRequests(key, labels, begin, end)[i] == (key, labels[begin + i])
    decreases end - begin
  {
    if end > begin {
      SpanRequestsLength(key, labels, begin, end - 1);
    }
  }

  /** The number of metrics produced is the sum over spans of `EndPosition - BeginPosition`. */
  lemma {:induction false} RequestsCount(spans: seq<TextSpan>, labels: seq<string>, fams: Families, dpiY: real)
    requires SpansInText(spans, |labels|)
    requires Requests(spans, labels, fams, dpiY).Ok?
    ensures |Requests(spans, labels, fams, dpiY).value| == GlyphCount(spans)
  {
    if spans != [] {
      var last := spans[|spans| - 1];
      RequestsCount(spans[..|spans| - 1], labels, fams, dpiY);
      SpanRequestsLength(FontKeyFromStyle(last.style, fams, dpiY).value, labels, last.begin, last.end);
    }
  }

  /** `FontMetricsProvider` and its glyph cache. */
  /** Each box holds the measurement of the request at its position. */
  ghost predicate Measured(boxes: seq<GlyphMetricsBox>, reqs: seq<(FontKey, string)>, measure: (FontKey, string) -> GlyphMetrics)
    reads set i | 0 <= i < |boxes| :: boxes[i]
  {
    |boxes| == |reqs| && forall i :: 0 <= i < |boxes| ==> boxes[i].Value() == measure(reqs[i].0, reqs[i].1)
  }

  /** No metrics object appears twice: every glyph position gets its own copy. */
  predicate Distinct(boxes: seq<GlyphMetricsBox>) {
    forall i, k :: 0 <= i < k < |boxes| ==> boxes[i] != boxes[k]
  }

  lemma MeasuredConcat(a: seq<GlyphMetricsBox>, b: seq<GlyphMetricsBox>, ra: seq<(FontKey, string)>, rb: seq<(FontKey, string)>,
                       measure: (FontKey, string) -> GlyphMetrics)
    requires Measured(a, ra, measure)
    requires |b| == |rb| && forall i :: 0 <= i < |b| ==> b[i].Value() == measure(rb[i].0, rb[i].1)
    ensures Measured(a + b, ra + rb, measure)
  {
    forall i | 0 <= i < |a + b|
      ensures (a + b)[i].Value() == measure((ra + rb)[i].0, (ra + rb)[i].1)
    {
      if i < |a| {
        assert (a + b)[i] == a[i] && (ra + rb)[i] == ra[i];
      } else {
        assert (a + b)[i] == b[i - |a|] && (ra + rb)[i] == rb[i - |a|];
      }
    }
  }

  class FontMetricsProvider {
    /** `cache`: font key, then glyph label, to the metrics measured for them. */
    var cache: map<FontKey, map<string, GlyphMetrics>>
    /** Every measurement made, in order. */
    ghost var measured: seq<(FontKey, string)>
    /** The platform measurement of one glyph of one font. */
    const measure: (FontKey, string) -> GlyphMetrics
    const dpiY: real
    const fonts: FontFamilies

    /** Each (key, label) pair was measured once, exactly the cached pairs were measured, and every
        cached value is the measurement of its pair. */
    ghost predicate Valid()
      reads this
    {
      && (forall i, j :: 0 <= i < j < |measured| ==> measured[i] != measured[j])
      && (forall p :: p in measured <==> p.0 in cache && p.1 in cache[p.0])
      && (forall k, l :: k in cache && l in cache[k] ==> cache[k][l] == measure(k, l))
    }

    constructor (measure: (FontKey, string) -> GlyphMetrics, dpiY: real, fonts: FontFamilies)
      ensures Valid() && cache == map[] && measured == []
      ensures this.measure == measure && this.dpiY == dpiY && this.fonts == fonts
    {
      this.measure := measure;
      this.dpiY := dpiY;
      this.fonts := fonts;
      cache := map[];
      measured := [];
    }

    /** `GetGlyphMetrics(FontKey, string)`: measure on a miss, store, and return a new object
        holding a copy of the cached metrics. */
    method GetGlyphMetrics(key: FontKey, glyphLabel: string) returns (g: GlyphMetricsBox)
      requires Valid()
      modifies this
      ensures Valid()
      ensures fresh(g) && g.Value() == measure(key, glyphLabel)
      ensures key in cache && glyphLabel in cache[key]
      ensures old(key in cache && glyphLabel in cache[key]) ==> cache == old(cache) && measured == old(measured)
      ensures !old(key in cache && glyphLabel in cache[key]) ==> measured == old(measured) + [(key, glyphLabel)]
    {
      var fontCache: map<string, GlyphMetrics>;
      if key in cache {
        fontCache := cache[key];
      } else {
        fontCache := map[];
        cache := cache[key := fontCache];
      }
      var value: GlyphMetrics;
      if glyphLabel in fontCache {
        value := fontCache[glyphLabel];
      } else {
        value := measure(key, glyphLabel);
        assert (key, glyphLabel) !in measured;
        fontCache := fontCache[glyphLabel := value];
        cache := cache[key := fontCache];
        measured := measured + [(key, glyphLabel)];
      }
      g := new GlyphMetricsBox(value);
    }

    /** The inner loop of the span walk: the metrics of positions `begin` to `end` of one
        span, each a new object. */
    method SpanGlyphMetrics(key: FontKey, labels: seq<string>, begin: int, end: int) returns (boxes: seq<GlyphMetricsBox>)
      requires Valid()
      requires 0 <= begin && (end <= begin || end <= |labels|)
      modifies this
      ensures Valid()
      ensures |boxes| == |SpanRequests(key, labels, begin, end)|
      ensures forall i :: 0 <= i < |boxes| ==>
        fresh(boxes[i]) && boxes[i].Value() == measure(SpanRequests(key, labels, begin, end)[i].0, SpanRequests(key, labels, begin, end)[i].1)
      ensures Distinct(boxes)
    {
      boxes := [];
      var j := begin;
      while j < end
        invariant begin <= j <= if end > begin then end else begin
        invariant Valid()
        invariant |boxes| == |SpanRequests(key, labels, begin, j)|
        invariant forall i :: 0 <= i < |boxes| ==>
          fresh(boxes[i]) && boxes[i].Value() == measure(SpanRequests(key, labels, begin, j)[i].0, SpanRequests(key, labels, begin, j)[i].1)
        invariant Distinct(boxes)
      {
        var g := GetGlyphMetrics(key, labels[j]);
        boxes := boxes + [g];
        j := j + 1;
      }
    }

    /** `GetGlyphMetrics(text, spans, list)` and the public `GetGlyphMetrics(text, spans)`: one
        new metrics object per glyph position of every span, in span order, each a copy of the
        measurement of its (font key, glyph label). A span whose style has no platform font key
        raises, with the glyphs of the earlier spans already cached. */
    method GetTextGlyphMetrics(labels: seq<string>, spans: seq<TextSpan>) returns (r: Result<seq<GlyphMetricsBox>, FontError>)
      requires Valid()
      requires SpansInText(spans, |labels|)
      modifies this
      ensures Valid()
      ensures r.Ok? <==> Requests(spans, labels, fonts.Current(), dpiY).Ok?
      ensures r.Ok? ==>
        var rs := Requests(spans, labels, fonts.Current(), dpiY).value;
        && |r.value| == |rs|
        && (forall i :: 0 <= i < |r.value| ==> fresh(r.value[i]) && r.value[i].Value() == measure(rs[i].0, rs[i].1))
        && Distinct(r.value)
    {
      var fams := fonts.Current();
      var out: seq<GlyphMetricsBox> := [];
      ghost var done: seq<(FontKey, string)> := [];
      var s := 0;
      while s < |spans|
        invariant 0 <= s <= |spans|
        invariant Valid()
        invariant fams == fonts.Current()
        invariant Requests(spans[..s], labels, fams, dpiY) == Ok(done)
        invariant |out| == |done|
        invariant forall i :: 0 <= i < |out| ==> fresh(out[i])
        invariant Measured(out, done, measure)
        invariant Distinct(out)
      {
        var span := spans[s];
        var key := FontKeyFromStyle(span.style, fams, dpiY);
        if key.Err? {
          SpanKeyFails(spans, labels, fams, dpiY, s);
          return Err(key.error);
        }
        RequestsSnoc(spans, labels, fams, dpiY, s);
        var boxes := SpanGlyphMetrics(key.value, labels, span.begin, span.end);
        ghost var more := SpanRequests(key.value, labels, span.begin, span.end);
        MeasuredConcat(out, boxes, done, more, measure);
        out := out + boxes;
        done := done + more;
        s := s + 1;
      }
      assert spans[..s] == spans;
      r := Ok(out);
      assert Measured(out, done, measure);
    }

    /** `GetCharacterBoundingBoxes`: the bounding box of each glyph's metrics, in order. */
    method GetCharacterBoundingBoxes(labels: seq<string>, spans: seq<TextSpan>) returns (r: Result<seq<Rectangle>, FontError>)
      requires Valid()
      requires SpansInText(spans, |labels|)
      modifies this
      ensures Valid()
      ensures r.Ok? <==> Requests(spans, labels, fonts.Current(), dpiY).Ok?
      ensures r.Ok? ==>
        var rs := Requests(spans, labels, fonts.Current(), dpiY).value;
        && |r.value| == |rs|
        && forall i :: 0 <= i < |r.value| ==> r.value[i] == measure(rs[i].0, rs[i].1).boundingBox
    {
      var metrics := GetTextGlyphMetrics(labels, spans);
      if metrics.Err? {
        return Err(metrics.error);
      }
      var rectangles: seq<Rectangle> := [];
      for i := 0 to |metrics.value|
        invariant |rectangles| == i
        invariant forall k :: 0 <= k < i ==> rectangles[k] == metrics.value[k].boundingBox
      {
        rectangles := rectangles + [metrics.value[i].boundingBox];
      }
      r := Ok(rectangles);
    }
  }

  /** Requests of one more span: those of the shorter prefix, then that span's own. */
  lemma RequestsSnoc(spans: seq<TextSpan>, labels: seq<string>, fams: Families, dpiY: real, s: nat)
    requires SpansInText(spans, |labels|)
    requires s < |spans|
    requires Requests(spans[..s], labels, fams, dpiY).Ok?
    ensures var key := FontKeyFromStyle(spans[s].style, fams, dpiY);
      && (key.Err? ==> Requests(spans[..s + 1], labels, fams, dpiY).Err?)
      && (key.Ok? ==>
            Requests(spans[..s + 1], labels, fams, dpiY) == Ok(Requests(spans[..s], labels, fams, dpiY).value + SpanRequests(key.value, labels, spans[s].begin, spans[s].end)))
  {
    assert spans[..s + 1][..s] == spans[..s];
    assert spans[..s + 1][s] == spans[s];
  }

  /** A span whose style has no font key makes the whole request list fail. */
  lemma SpanKeyFails(spans: seq<TextSpan>, labels: seq<string>, fams: Families, dpiY: real, s: nat)
    requires SpansInText(spans, |labels|)
    requires s < |spans|
    requires Requests(spans[..s], labels, fams, dpiY).Ok?
    requires FontKeyFromStyle(spans[s].style, fams, dpiY).Err?
    ensures Requests(spans, labels, fams, dpiY).Err?
  {
    RequestsSnoc(spans, labels, fams, dpiY, s);
    RequestsFailFrom(spans, labels, fams, dpiY, s + 1);
  }

  /** Once the key of a span fails, the requests of every longer prefix fail too. */
  lemma {:induction false} RequestsFailFrom(spans: seq<TextSpan>, labels: seq<string>, fams: Families, dpiY: real, n: nat)
    requires SpansInText(spans, |labels|)
    requires 0 < n <= |spans|
    requires Requests(spans[..n], labels, fams, dpiY).Err?
    ensures Requests(spans, labels, fams, dpiY).Err?
    decreases |spans| - n
  {
    if n < |spans| {
      assert spans[..n + 1][..n] == spans[..n];
      RequestsFailFrom(spans, labels, fams, dpiY, n + 1);
    } else {
      assert spans[..n] == spans;
    }
  }
}
