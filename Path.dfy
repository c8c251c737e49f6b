/**
 * `RenderPath`: the path builder the ink engine drives through `IPath`.  It keeps a pending
 * figure (`_figure`, possibly null) and the list of committed figures of its `PathGeometry`.
 *
 * `Step` is the specification of one builder call on the pair (committed figures, pending
 * figure); each method of the class is proved to perform exactly that step, and the lemmas
 * below state what a step, and a whole sequence of steps, does.
 */
module Paths {
  import opened Wrappers

  /** A point; coordinates are only passed through, never computed on. */
  datatype Point = Point(x: real, y: real)

  /** A segment of a figure; `stroked` is the `IsStroked` flag (created `false`). */
  datatype Segment =
    | Line(to: Point, stroked: bool)
    | Bezier(c1: Point, c2: Point, to: Point, stroked: bool)
    | Quadratic(c: Point, to: Point, stroked: bool)
    | Arc(to: Point, rx: real, ry: real, rotation: real, largeArc: bool, clockwise: bool, stroked: bool)

  /** A `PathFigure`: start point, segments, and `IsClosed` (never set by the builder). */
  datatype Figure = Figure(start: Point, segments: seq<Segment>, closed: bool)

  /** The builder's state: committed figures and the pending figure (`None` is null). */
  datatype PathState = PathState(figures: seq<Figure>, pending: Option<Figure>)

  /** One call on the builder. */
  datatype Command =
    | MoveTo(p: Point)
    | LineTo(p: Point)
    | CurveTo(c1: Point, c2: Point, p: Point)
    | QuadTo(c: Point, p: Point)
    | ArcTo(rx: real, ry: real, phi: real, largeArc: bool, sweep: bool, p: Point)
    | ClosePath
    | Finalize
  {
    predicate IsSegment() { LineTo? || CurveTo? || QuadTo? || ArcTo? }
  }

  /** The path operations an engine may ask a path to perform. */
  datatype PathOperation = MoveOp | LineOp | CurveOp | QuadOp | ArcOp

  /** `UnsupportedOperations`: the path always declares arcs unsupported, and only arcs. */
  function UnsupportedOperations(): (ops: set<PathOperation>)
    ensures ArcOp in ops
    ensures forall op :: op in ops ==> op == ArcOp
  {
    {ArcOp}
  }

  const EmptyState := PathState([], None)

  /** The segment a segment command appends; `sweep` selects the clockwise direction. */
  function SegmentOf(c: Command): Segment
    requires c.IsSegment()
  {
    match c
    case LineTo(p) => Line(p, false)
    case CurveTo(c1, c2, p) => Bezier(c1, c2, p, false)
    case QuadTo(q, p) => Quadratic(q, p, false)
    case ArcTo(rx, ry, phi, largeArc, sweep, p) => Arc(p, rx, ry, phi, largeArc, sweep, false)
  }

  /** The committed figures followed by the pending one, if any. */
  function Committed(s: PathState): seq<Figure> {
    s.figures + (if s.pending.Some? then [s.pending.value] else [])
  }

  /** One builder call; `None` when the call dereferences a null pending figure. */
  function Step(s: PathState, c: Command): Option<PathState> {
    match c
    case Finalize => Some(PathState(Committed(s), None))
    case MoveTo(p) => Some(PathState(Committed(s), Some(Figure(p, [], false))))
    case ClosePath =>
      if s.pending.None? then None
      else
        var f := s.pending.value;
        var closing := if f.closed then [] else [Line(f.start, false)];
        Some(PathState(s.figures + [f.(segments := f.segments + closing)], None))
    case _ =>
      if s.pending.None? then None
      else
        var f := s.pending.value;
        Some(PathState(s.figures, Some(f.(segments := f.segments + [SegmentOf(c)]))))
  }

  /** A sequence of calls; `None` as soon as one of them fails. */
  function Run(s: PathState, cs: seq<Command>): Option<PathState>
    decreases |cs|
  {
    if cs == [] then Some(s)
    else
      match Step(s, cs[0])
      case None => None
      case Some(s') => Run(s', cs[1..])
  }

  /** Start points of the `MoveTo` calls of a sequence, in order. */
  function MoveStarts(cs: seq<Command>): seq<Point> {
    if cs == [] then []
    else (if cs[0].MoveTo? then [cs[0].p] else []) + MoveStarts(cs[1..])
  }

  function Starts(fs: seq<Figure>): seq<Point> {
    if fs == [] then [] else [fs[0].start] + Starts(fs[1..])
  }

  lemma {:induction false} StartsConcat(a: seq<Figure>, b: seq<Figure>)
    ensures Starts(a + b) == Starts(a) + Starts(b)
  {
    if a != [] {
      assert (a + b)[0] == a[0];
      assert (a + b)[1..] == a[1..] + b;
      StartsConcat(a[1..], b);
      assert Starts(a + b) == [a[0].start] + Starts(a[1..] + b);
    } else {
      assert a + b == b;
    }
  }

  /** `FinalizeGeometry` commits the pending figure, if any, and clears it; a second call
      commits nothing and changes nothing. */
  lemma FinalizeIdempotent(s: PathState)
    ensures Step(s, Finalize).Some?
    ensures var t := Step(s, Finalize).value;
      && t.pending.None?
      && t.figures == s.figures + (if s.pending.Some? then [s.pending.value] else [])
      && Step(t, Finalize) == Some(t)
  {
    var t := Step(s, Finalize).value;
    assert t.pending.None?;
    assert Committed(t) == t.figures + [] == t.figures;
    assert PathState(t.figures, None) == t;
  }

  /** `MoveTo` commits any pending figure and starts an empty open figure at the argument. */
  lemma MoveToStartsFigure(s: PathState, p: Point)
    ensures var t := Step(s, MoveTo(p));
      && t.Some?
      && t.value.pending == Some(Figure(p, [], false))
      && t.value.figures == Committed(s)
  {
  }

  /** A segment call fails exactly when no figure is pending; otherwise it appends exactly one
      segment to the pending figure and leaves everything else as it was. */
  lemma SegmentAppendsOne(s: PathState, c: Command)
    requires c.IsSegment()
    ensures Step(s, c).None? <==> s.pending.None?
    ensures Step(s, c).Some? ==>
      var t := Step(s, c).value;
      && t.figures == s.figures
      && t.pending.Some?
      && t.pending.value.start == s.pending.value.start
      && t.pending.value.closed == s.pending.value.closed
      && t.pending.value.segments == s.pending.value.segments + [SegmentOf(c)]
  {
  }

  /** `ClosePath` on an open pending figure appends a line back to its start, commits it and
      clears the pending figure; with no pending figure it fails. */
  lemma ClosePathReturnsToStart(s: PathState)
    ensures Step(s, ClosePath).None? <==> s.pending.None?
    ensures s.pending.Some? && !s.pending.value.closed ==>
      var t := Step(s, ClosePath).value;
      var f := s.pending.value;
      && t.pending.None?
      && |t.figures| == |s.figures| + 1
      && t.figures[..|s.figures|] == s.figures
      && t.figures[|s.figures|] == Figure(f.start, f.segments + [Line(f.start, false)], false)
  {
    if s.pending.Some? && !s.pending.value.closed {
      var t := Step(s, ClosePath).value;
      assert t.figures[..|s.figures|] == s.figures;
    }
  }

  /** Every call keeps the start points of the committed-plus-pending figures, and `MoveTo`
      adds its own at the end. */
  lemma StepStarts(s: PathState, c: Command)
    requires Step(s, c).Some?
    ensures Starts(Committed(Step(s, c).value)) == Starts(Committed(s)) + (if c.MoveTo? then [c.p] else [])
  {
    var t := Step(s, c).value;
    match c
    case Finalize =>
      assert Committed(t) == Committed(s);
    case MoveTo(p) =>
      assert Committed(t) == Committed(s) + [Figure(p, [], false)];
      StartsConcat(Committed(s), [Figure(p, [], false)]);
    case ClosePath =>
      var f, g := s.pending.value, t.figures[|t.figures| - 1];
      assert Committed(s) == s.figures + [f];
      assert Committed(t) == s.figures + [g];
      StartsConcat(s.figures, [f]);
      StartsConcat(s.figures, [g]);
    case _ =>
      var f, g := s.pending.value, t.pending.value;
      assert Committed(s) == s.figures + [f];
      assert Committed(t) == s.figures + [g];
      StartsConcat(s.figures, [f]);
      StartsConcat(s.figures, [g]);
  }

  /** Committed figures keep the order in which they were started: after any sequence of calls
      that does not fail, the start points of the figures are those of the initial ones
      followed by the `MoveTo` arguments, in call order. */
  lemma {:induction false} RunKeepsStartOrder(s: PathState, cs: seq<Command>)
    requires Run(s, cs).Some?
    ensures Starts(Committed(Run(s, cs).value)) == Starts(Committed(s)) + MoveStarts(cs)
    decreases |cs|
  {
    if cs != [] {
      var s' := Step(s, cs[0]).value;
      StepStarts(s, cs[0]);
      RunKeepsStartOrder(s', cs[1..]);
    }
  }

  /** `RenderPath`: a `PathGeometry` under construction and its pending figure. */
  class RenderPath {
    var figures: seq<Figure>
    var figure: Option<Figure>

    function State(): PathState
      reads this
    {
      PathState(figures, figure)
    }

    constructor ()
      ensures State() == EmptyState
    {
      figures := [];
      figure := None;
    }

    /** `FinalizeGeometry`: returns the geometry's figures after committing the pending one. */
    method FinalizeGeometry() returns (geometry: seq<Figure>)
      modifies this
      ensures Some(State()) == Step(old(State()), Finalize)
      ensures geometry == figures == Committed(old(State())) && figure.None?
    {
      if figure.Some? {
        figures := figures + [figure.value];
        figure := None;
      }
      geometry := figures;
      assert State() == PathState(Committed(old(State())), None);
    }

    method MoveTo(x: real, y: real)
      modifies this
      ensures Some(State()) == Step(old(State()), Command.MoveTo(Point(x, y)))
    {
      if figure.Some? {
        figures := figures + [figure.value];
      }
      figure := Some(Figure(Point(x, y), [], false));
      assert figures == Committed(old(State()));
    }

    /** Appends a segment to the pending figure; `false` is the null dereference. */
    method AddSegment(s: Segment) returns (ok: bool)
      modifies this
      ensures ok <==> old(figure).Some?
      ensures ok ==> figures == old(figures) && figure == Some(old(figure).value.(segments := old(figure).value.segments + [s]))
      ensures !ok ==> figures == old(figures) && figure == old(figure)
    {
      if figure.None? {
        return false;
      }
      figure := Some(figure.value.(segments := figure.value.segments + [s]));
      ok := true;
    }

    method LineTo(x: real, y: real) returns (ok: bool)
      modifies this
      ensures var t := Step(old(State()), Command.LineTo(Point(x, y)));
        (ok <==> t.Some?) && (ok ==> State() == t.value) && (!ok ==> State() == old(State()))
    {
      ok := AddSegment(Line(Point(x, y), false));
    }

    method CurveTo(x1: real, y1: real, x2: real, y2: real, x: real, y: real) returns (ok: bool)
      modifies this
      ensures var t := Step(old(State()), Command.CurveTo(Point(x1, y1), Point(x2, y2), Point(x, y)));
        (ok <==> t.Some?) && (ok ==> State() == t.value) && (!ok ==> State() == old(State()))
    {
      ok := AddSegment(Bezier(Point(x1, y1), Point(x2, y2), Point(x, y), false));
    }

    method QuadTo(x1: real, y1: real, x: real, y: real) returns (ok: bool)
      modifies this
      ensures var t := Step(old(State()), Command.QuadTo(Point(x1, y1), Point(x, y)));
        (ok <==> t.Some?) && (ok ==> State() == t.value) && (!ok ==> State() == old(State()))
    {
      ok := AddSegment(Quadratic(Point(x1, y1), Point(x, y), false));
    }

    method ArcTo(rx: real, ry: real, phi: real, fA: bool, fS: bool, x: real, y: real) returns (ok: bool)
      modifies this
      ensures var t := Step(old(State()), Command.ArcTo(rx, ry, phi, fA, fS, Point(x, y)));
        (ok <==> t.Some?) && (ok ==> State() == t.value) && (!ok ==> State() == old(State()))
    {
      ok := AddSegment(Arc(Point(x, y), rx, ry, phi, fA, fS, false));
    }

    /** `ClosePath`; `false` is the null dereference of `_figure.IsClosed`. */
    method ClosePath() returns (ok: bool)
      modifies this
      ensures var t := Step(old(State()), Command.ClosePath);
        (ok <==> t.Some?) && (ok ==> State() == t.value) && (!ok ==> State() == old(State()))
    {
      if figure.None? {
        return false;
      }
      var f := figure.value;
      if !f.closed {
        f := f.(segments := f.segments + [Line(f.start, false)]);
      } else {
        assert f.segments + [] == f.segments;
      }
      figures := figures + [f];
      figure := None;
      ok := true;
    }
  }
}
