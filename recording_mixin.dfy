/**
 * RecordingMixin: sits in front of a concrete plot class, lets the wrapped
 * plot draw first, then records a DrawingCommand for the same primitive in
 * the plot's projected coordinates.
 *
 * The wrapped plot is not modelled; what its calls leave behind (the stars
 * it added, whether a label was placed, the constellations it plotted) is
 * passed in. The `journal` records, in order, every call handed to the
 * wrapped plot and every command recorded or retracted.
 */
module RecordingMixin {
  import opened Wrappers
  import opened PyValues
  import opened Commands
  import opened Recorder

  // ------------------------------------------------------------------
  // Coordinate projection
  // ------------------------------------------------------------------

  /** What `self._proj.transform_point(ra, dec, self._crs)` does: raise, or give a point. */
  datatype Transformed = Raised | Point(x: Float, y: Float)

  /**
   * The plot's coordinate system: a cartographic plot (it has `_proj` and
   * `_crs`) or a horizon/optic plot whose `_prepare_coords` converts directly.
   */
  datatype Projector =
    | Cartographic(transform: (real, real) -> Transformed)
    | Native(prepare: (real, real) -> (Float, Float))

  /**
   * _project_coords. A cartographic plot yields the transformed point when
   * both coordinates are finite and (NaN, NaN) otherwise, including when the
   * transform raises; a native plot yields `_prepare_coords` unchecked.
   */
  function ProjectCoords(p: Projector, ra: real, dec: real): (r: (Float, Float))
    ensures p.Cartographic? ==> (r.0.Fin? && r.1.Fin?) || r == (NaN, NaN)
    ensures p.Cartographic? ==>
      (r.0.Fin? && r.1.Fin? <==>
        p.transform(ra, dec).Point? && p.transform(ra, dec).x.Fin? && p.transform(ra, dec).y.Fin?)
    ensures p.Cartographic? && r.0.Fin? ==> r == (p.transform(ra, dec).x, p.transform(ra, dec).y)
    ensures p.Native? ==> r == p.prepare(ra, dec)
  {
    match p
    case Cartographic(transform) =>
      (match transform(ra, dec)
       case Point(x, y) => if x.Fin? && y.Fin? then (x, y) else (NaN, NaN)
       case Raised => (NaN, NaN))
    case Native(prepare) => prepare(ra, dec)
  }

  /** Both coordinates of a projected point are finite. */
  predicate FinitePoint(q: (Float, Float)) { q.0.Fin? && q.1.Fin? }

  // ------------------------------------------------------------------
  // The wrapped plot's objects, as the mixin reads them
  // ------------------------------------------------------------------

  /** A plotted star: `labelText` is what get_label returned ("" when missing or raising). */
  datatype StarObject = StarObject(
    labelText: Value, magnitude: Value, hip: Value, bayer: Value,
    constellationId: Value, ra: Value, dec: Value)

  /** A plotted constellation: its name, IAU id and the HIP pairs of its stick figure. */
  datatype Constellation = Constellation(name: string, iauId: string, starHipLines: seq<(int, int)>)

  /** The style attributes the mixin copies from a line style. */
  datatype LineStyleIn = LineStyleIn(color: string, width: Value, style: string, alpha: Value, zorder: int)

  /**
   * The style attributes the mixin copies from a polygon style; colours are
   * None when unset. `raises` says whether reading them raises (a colour
   * without `as_hex`), in which case an empty style dict is recorded.
   */
  datatype PolygonStyleIn = PolygonStyleIn(
    fillColor: Option<string>, edgeColor: Option<string>, edgeWidth: Value,
    alpha: Value, lineStyle: string, zorder: int, raises: bool)

  // ------------------------------------------------------------------
  // What each intercepted call records
  // ------------------------------------------------------------------

  /** Python's `xs[-n:] if n > 0 else []`: the last n elements, or all when there are fewer. */
  function LastN<T>(xs: seq<T>, n: nat): (r: seq<T>)
    ensures |r| == if n < |xs| then n else |xs|
    ensures r == xs[|xs| - |r|..]
  {
    if n == 0 then [] else if n >= |xs| then xs else xs[|xs| - n..]
  }

  /** The tooltip dict recorded for one star; a falsy label becomes "". */
  function StarMetadata(s: StarObject): (r: Value)
    ensures r.VDict? && r.entries.Keys == {"name", "magnitude", "hip", "bayer", "constellation", "ra", "dec", "type"}
    ensures r.entries["type"] == VStr("star")
    ensures r.entries["name"] == if Truthy(s.labelText) then s.labelText else VStr("")
    ensures Truthy(r.entries["name"]) <==> Truthy(s.labelText)
  {
    VDict(map[
      "name" := if Truthy(s.labelText) then s.labelText else VStr(""),
      "magnitude" := s.magnitude, "hip" := s.hip, "bayer" := s.bayer,
      "constellation" := s.constellationId, "ra" := s.ra, "dec" := s.dec,
      "type" := VStr("star")])
  }

  /** `[self._project_coords(ra, dec) for ra, dec in zip(ras, decs)]`: zip stops at the shorter list. */
  function ProjectZip(p: Projector, ras: seq<real>, decs: seq<real>): (r: seq<(Float, Float)>)
    ensures |r| == if |ras| < |decs| then |ras| else |decs|
    ensures forall i :: 0 <= i < |r| ==> r[i] == ProjectCoords(p, ras[i], decs[i])
  {
    var n := if |ras| < |decs| then |ras| else |decs|;
    seq(n, i requires 0 <= i < n => ProjectCoords(p, ras[i], decs[i]))
  }

  function Xs(ps: seq<(Float, Float)>): (r: seq<Value>)
    ensures |r| == |ps| && forall i :: 0 <= i < |ps| ==> r[i] == VFloat(ps[i].0)
  {
    seq(|ps|, i requires 0 <= i < |ps| => VFloat(ps[i].0))
  }

  function Ys(ps: seq<(Float, Float)>): (r: seq<Value>)
    ensures |r| == |ps| && forall i :: 0 <= i < |ps| ==> r[i] == VFloat(ps[i].1)
  {
    seq(|ps|, i requires 0 <= i < |ps| => VFloat(ps[i].1))
  }

  /** The style dict recorded for a polygon. */
  function PolygonStyleDict(st: PolygonStyleIn): map<string, Value>
  {
    map["fill_color" := if st.fillColor.Some? then VStr(st.fillColor.value) else VNone,
        "edge_color" := if st.edgeColor.Some? then VStr(st.edgeColor.value) else VNone,
        "edge_width" := st.edgeWidth, "alpha" := st.alpha,
        "line_style" := VStr(st.lineStyle), "zorder" := VInt(st.zorder)]
  }

  /** The style dict `_polygon` records: the copied attributes, or {} when reading them raised. */
  function PolygonRecordedStyle(st: PolygonStyleIn): (r: map<string, Value>)
    ensures st.raises <==> r == map[]
    ensures !st.raises ==> r == PolygonStyleDict(st)
  {
    if st.raises then map[] else
      assert "zorder" in PolygonStyleDict(st);
      PolygonStyleDict(st)
  }

  /** `(float(x), float(y))` for one point unpacked as `x, y`. */
  function FloatPair(p: Value): Option<Value>
  {
    match PyList(p)
    case Some(xy) =>
      if |xy| != 2 then None
      else (match (ToFloat(xy[0]), ToFloat(xy[1]))
        case (Some(x), Some(y)) => Some(Pair(x, y))
        case _ => None)
    case None => None
  }

  /** The list comprehension over the points: it raises as soon as one point does. */
  function FloatPoints(pts: seq<Value>): (r: Option<seq<Value>>)
    ensures r.Some? <==> forall i :: 0 <= i < |pts| ==> FloatPair(pts[i]).Some?
    ensures r.Some? ==> |r.value| == |pts| && forall i :: 0 <= i < |pts| ==> Some(r.value[i]) == FloatPair(pts[i])
  {
    if pts == [] then Some([])
    else match (FloatPoints(pts[..|pts| - 1]), FloatPair(pts[|pts| - 1]))
      case (Some(front), Some(last)) => Some(front + [last])
      case _ => None
  }

  /** `[(float(x), float(y)) for x, y in points]`; None models the ValueError or TypeError. */
  function PolygonPoints(points: Value): (r: Option<seq<Value>>)
    ensures r.Some? <==> PyList(points).Some? && FloatPoints(PyList(points).value).Some?
    ensures r.Some? ==> r == FloatPoints(PyList(points).value)
  {
    match PyList(points)
    case Some(pts) => FloatPoints(pts)
    case None => None
  }

  /** Points that are already float pairs convert to themselves. */
  lemma FloatPairsUnchanged(ps: seq<(Float, Float)>)
    ensures var pts := seq(|ps|, i requires 0 <= i < |ps| => Pair(ps[i].0, ps[i].1));
      PolygonPoints(VList(pts)) == Some(pts)
  {
    var pts := seq(|ps|, i requires 0 <= i < |ps| => Pair(ps[i].0, ps[i].1));
    forall i | 0 <= i < |pts|
      ensures FloatPair(pts[i]) == Some(pts[i])
    {
      assert PyList(pts[i]) == Some([VFloat(ps[i].0), VFloat(ps[i].1)]);
    }
    var r := FloatPoints(pts).value;
    assert |r| == |pts|;
    forall i | 0 <= i < |pts|
      ensures r[i] == pts[i]
    {
      assert Some(r[i]) == FloatPair(pts[i]);
    }
    assert r == pts;
    assert PyList(VList(pts)) == Some(pts);
  }

  /** A coordinate that is not a number, such as `("a", 1)`, makes the whole conversion raise. */
  lemma NonNumericPointFails(pts: seq<Value>, k: nat, x: Value, y: Value)
    requires k < |pts| && pts[k] == VList([x, y]) && ToFloat(x).None?
    ensures FloatPoints(pts).None?
  {
    assert FloatPair(pts[k]).None?;
  }

  /** The style dict recorded for a line, the ecliptic and the celestial equator. */
  function LineStyleDict(st: LineStyleIn): map<string, Value>
  {
    map["color" := VStr(st.color), "width" := st.width, "line_style" := VStr(st.style), "alpha" := st.alpha]
  }

  /** The style dict recorded for constellation lines (no line style). */
  function ConstellationStyleDict(st: LineStyleIn): map<string, Value>
  {
    map["color" := VStr(st.color), "width" := st.width, "alpha" := st.alpha]
  }

  /**
   * The text command _text records for a placed label, with the style keys
   * read from the call's keyword arguments and their defaults.
   */
  function TextLabelCommand(text: string, at: (Float, Float), kwargs: map<string, Value>,
                            gid: Option<string>, zorder: Option<int>): (c: DrawingCommand)
    ensures c.kind == "text"
    ensures c.data == map["text" := VStr(text), "x" := VFloat(at.0), "y" := VFloat(at.1)]
    ensures c.style.Keys == {"font_size", "font_color", "font_weight", "font_name", "ha", "va", "alpha"}
    ensures c.style["font_size"] == Get(kwargs, "fontsize", VInt(12))
    ensures c.style["font_color"] == Get(kwargs, "color", VStr("#ffffff"))
    ensures c.style["ha"] == Get(kwargs, "ha", VStr("center")) && c.style["va"] == Get(kwargs, "va", VStr("center"))
    ensures c.gid == (if gid.Some? then gid.value else "text")
    ensures c.zorder == (if zorder.Some? then zorder.value else 0)
    ensures c.metadata == []
  {
    DrawingCommand("text",
      map["text" := VStr(text), "x" := VFloat(at.0), "y" := VFloat(at.1)],
      map["font_size" := Get(kwargs, "fontsize", VInt(12)),
          "font_color" := Get(kwargs, "color", VStr("#ffffff")),
          "font_weight" := Get(kwargs, "weight", VStr("normal")),
          "font_name" := Get(kwargs, "fontname", VStr("Inter")),
          "ha" := Get(kwargs, "ha", VStr("center")),
          "va" := Get(kwargs, "va", VStr("center")),
          "alpha" := Get(kwargs, "alpha", VFloat(Fin(1.0)))],
      [], if zorder.Some? then zorder.value else 0, if gid.Some? then gid.value else "text")
  }

  // ------------------------------------------------------------------
  // Constellation stick figures
  // ------------------------------------------------------------------

  /** One recorded constellation segment: both projected end points and its constellation. */
  datatype Segment = Segment(a: (Float, Float), b: (Float, Float), name: string, iauId: string)

  /**
   * The segment a HIP pair yields: none when either star is unknown or an
   * end point does not project to finite coordinates.
   */
  function SegmentFor(p: Projector, constars: map<int, (real, real)>, c: Constellation, line: (int, int))
    : (r: Option<Segment>)
  {
    if line.0 !in constars || line.1 !in constars then None
    else
      var a := ProjectCoords(p, constars[line.0].0, constars[line.0].1);
      var b := ProjectCoords(p, constars[line.1].0, constars[line.1].1);
      if FinitePoint(a) && FinitePoint(b) then Some(Segment(a, b, c.name, c.iauId)) else None
  }

  /** The segments of the first `k` HIP pairs of `c`, in order. */
  function LineSegments(p: Projector, constars: map<int, (real, real)>, c: Constellation, k: nat): seq<Segment>
    requires k <= |c.starHipLines|
  {
    if k == 0 then []
    else
      var s := SegmentFor(p, constars, c, c.starHipLines[k - 1]);
      LineSegments(p, constars, c, k - 1) + (if s.Some? then [s.value] else [])
  }

  /** The segments of the first `k` constellations, constellation by constellation. */
  function ConstellationSegments(p: Projector, constars: map<int, (real, real)>, cons: seq<Constellation>, k: nat)
    : seq<Segment>
    requires k <= |cons|
  {
    if k == 0 then []
    else ConstellationSegments(p, constars, cons, k - 1) + LineSegments(p, constars, cons[k - 1], |cons[k - 1].starHipLines|)
  }

  /** A segment that the HIP pair `line` of `c` yields. */
  ghost predicate FromLine(p: Projector, constars: map<int, (real, real)>, c: Constellation, line: (int, int), s: Segment)
  {
    SegmentFor(p, constars, c, line) == Some(s)
  }

  /** Every segment of a constellation comes from one of its HIP pairs, and every such segment is present. */
  lemma {:induction false} LineSegmentsExact(p: Projector, constars: map<int, (real, real)>, c: Constellation, k: nat)
    requires k <= |c.starHipLines|
    ensures forall s :: s in LineSegments(p, constars, c, k) <==>
      exists j :: 0 <= j < k && FromLine(p, constars, c, c.starHipLines[j], s)
  {
    if k > 0 {
      LineSegmentsExact(p, constars, c, k - 1);
    }
  }

  /**
   * The recorded constellation segments are exactly those of the plotted
   * constellations' HIP pairs whose two stars are known and project finitely.
   */
  lemma {:induction false} ConstellationSegmentsExact(p: Projector, constars: map<int, (real, real)>,
                                                      cons: seq<Constellation>, k: nat)
    requires k <= |cons|
    ensures forall s :: s in ConstellationSegments(p, constars, cons, k) <==>
      exists i, j :: 0 <= i < k && 0 <= j < |cons[i].starHipLines| && FromLine(p, constars, cons[i], cons[i].starHipLines[j], s)
  {
    if k > 0 {
      ConstellationSegmentsExact(p, constars, cons, k - 1);
      LineSegmentsExact(p, constars, cons[k - 1], |cons[k - 1].starHipLines|);
    }
  }

  /** No recorded segment has a non-finite end point (wrap-around seams are skipped). */
  lemma {:induction false} ConstellationSegmentsFinite(p: Projector, constars: map<int, (real, real)>,
                                                       cons: seq<Constellation>, k: nat)
    requires k <= |cons|
    ensures forall s :: s in ConstellationSegments(p, constars, cons, k) ==> FinitePoint(s.a) && FinitePoint(s.b)
  {
    ConstellationSegmentsExact(p, constars, cons, k);
  }

  /** A segment as recorded: `[(x1, y1), (x2, y2)]`. */
  function SegmentValue(s: Segment): Value
  {
    VList([Pair(s.a.0, s.a.1), Pair(s.b.0, s.b.1)])
  }

  /** The tooltip dict recorded beside a segment. */
  function SegmentMetadata(s: Segment): Value
  {
    VDict(map["name" := VStr(s.name), "iau_id" := VStr(s.iauId), "type" := VStr("constellation")])
  }

  /** The recorded lines and metadata dicts are those of the segments, one each, in order. */
  ghost predicate Columns(lines: seq<Value>, meta: seq<Value>, segs: seq<Segment>)
  {
    |lines| == |meta| == |segs| &&
    forall n :: 0 <= n < |segs| ==> lines[n] == SegmentValue(segs[n]) && meta[n] == SegmentMetadata(segs[n])
  }

  /** Appending a segment's line and metadata keeps the columns in step with the segments. */
  lemma SegmentsAppend(lines: seq<Value>, meta: seq<Value>, segs: seq<Segment>, s: Segment)
    requires Columns(lines, meta, segs)
    ensures Columns(lines + [SegmentValue(s)], meta + [SegmentMetadata(s)], segs + [s])
  {
  }

  /** The inner loop of constellations(): the segments of one constellation's HIP pairs, appended in order. */
  method AppendConstellation(p: Projector, constars: map<int, (real, real)>, c: Constellation,
                             lines0: seq<Value>, meta0: seq<Value>, ghost segs0: seq<Segment>)
    returns (lines: seq<Value>, meta: seq<Value>, ghost segs: seq<Segment>)
    requires Columns(lines0, meta0, segs0)
    ensures segs == segs0 + LineSegments(p, constars, c, |c.starHipLines|)
    ensures Columns(lines, meta, segs)
    ensures |lines0| <= |lines| && lines[..|lines0|] == lines0 && |meta0| <= |meta| && meta[..|meta0|] == meta0
  {
    lines, meta, segs := lines0, meta0, segs0;
    var j := 0;
    while j < |c.starHipLines|
      invariant 0 <= j <= |c.starHipLines|
      invariant segs == segs0 + LineSegments(p, constars, c, j)
      invariant Columns(lines, meta, segs)
      invariant |lines0| <= |lines| && lines[..|lines0|] == lines0 && |meta0| <= |meta| && meta[..|meta0|] == meta0
    {
      var (h1, h2) := c.starHipLines[j];
      if h1 in constars && h2 in constars {
        var (ra1, dec1) := constars[h1];
        var (ra2, dec2) := constars[h2];
        var (x1, y1) := ProjectCoords(p, ra1, dec1);
        var (x2, y2) := ProjectCoords(p, ra2, dec2);
        if x1.Fin? && y1.Fin? && x2.Fin? && y2.Fin? {
          var s := Segment((x1, y1), (x2, y2), c.name, c.iauId);
          SegmentsAppend(lines, meta, segs, s);
          lines := lines + [SegmentValue(s)];
          meta := meta + [SegmentMetadata(s)];
          segs := segs + [s];
        }
      }
      j := j + 1;
    }
  }

  /**
   * The nested loop of constellations(): one line and one metadata dict per
   * kept segment, in constellation order and then pair order.
   */
  method CollectConstellationLines(p: Projector, constars: map<int, (real, real)>, cons: seq<Constellation>)
    returns (lines: seq<Value>, meta: seq<Value>)
    ensures |lines| == |meta| == |ConstellationSegments(p, constars, cons, |cons|)|
    ensures forall i :: 0 <= i < |lines| ==>
      lines[i] == SegmentValue(ConstellationSegments(p, constars, cons, |cons|)[i]) &&
      meta[i] == SegmentMetadata(ConstellationSegments(p, constars, cons, |cons|)[i])
  {
    ghost var segs: seq<Segment> := [];
    lines, meta := [], [];
    var i := 0;
    while i < |cons|
      invariant 0 <= i <= |cons|
      invariant segs == ConstellationSegments(p, constars, cons, i)
      invariant Columns(lines, meta, segs)
    {
      lines, meta, segs := AppendConstellation(p, constars, cons[i], lines, meta, segs);
      i := i + 1;
    }
  }

  // ------------------------------------------------------------------
  // The celestial equator
  // ------------------------------------------------------------------

  /** `range(0, 361, 2)` projected at declination 0. */
  function EquatorPoints(p: Projector): (r: seq<(Float, Float)>)
    ensures |r| == 181
    ensures forall i :: 0 <= i < 181 ==> r[i] == ProjectCoords(p, (2 * i) as real, 0.0)
    ensures r[0] == ProjectCoords(p, 0.0, 0.0) && r[180] == ProjectCoords(p, 360.0, 0.0)
  {
    seq(181, i => ProjectCoords(p, (2 * i) as real, 0.0))
  }

  /** The metadata dicts of `stars`, one per star, in order. */
  function StarsMetadata(stars: seq<StarObject>): (r: seq<Value>)
    ensures |r| == |stars| && forall i :: 0 <= i < |stars| ==> r[i] == StarMetadata(stars[i])
  {
    if stars == [] then [] else StarsMetadata(stars[..|stars| - 1]) + [StarMetadata(stars[|stars| - 1])]
  }

  /** The loop of _scatter_stars that builds one metadata dict per star. */
  method CollectStarsMetadata(stars: seq<StarObject>) returns (metadata: seq<Value>)
    ensures metadata == StarsMetadata(stars)
  {
    metadata := [];
    var k := 0;
    while k < |stars|
      invariant 0 <= k <= |stars|
      invariant metadata == StarsMetadata(stars[..k])
    {
      assert stars[..k + 1][..k] == stars[..k];
      metadata := metadata + [StarMetadata(stars[k])];
      k := k + 1;
    }
    assert stars[..k] == stars;
  }

  /**
   * The scatter command _scatter_stars records: the projected positions of
   * zip(ras, decs), the metadata of the last len(ras) plotted stars, group
   * "stars" and the star style's layer unless the call overrides them.
   */
  function StarScatterCommand(p: Projector, ras: seq<real>, decs: seq<real>, sizes: Value, alphas: Value, colors: Value,
                              plottedStars: seq<StarObject>, styleZorder: int, gid: Option<string>, zorder: Option<int>)
    : (r: Option<DrawingCommand>)
    ensures r.Some? ==> (
      r.value.gid == (if gid.Some? then gid.value else "stars") &&
      r.value.zorder == (if zorder.Some? then zorder.value else styleZorder) &&
      r.value.metadata == StarsMetadata(LastN(plottedStars, |ras|)) &&
      "x" in r.value.data && "y" in r.value.data &&
      r.value.data["x"] == VList(Xs(ProjectZip(p, ras, decs))) && r.value.data["y"] == VList(Ys(ProjectZip(p, ras, decs))))
  {
    var pts := ProjectZip(p, ras, decs);
    ScatterCommand(VList(Xs(pts)), VList(Ys(pts)), sizes, colors, alphas, VList(StarsMetadata(LastN(plottedStars, |ras|))), None,
      if gid.Some? then gid.value else "stars", if zorder.Some? then zorder.value else styleZorder)
  }

  /** The ecliptic table's positions projected, right ascension converted from hours to degrees. */
  function EclipticPath(p: Projector, raDecs: seq<(real, real)>): (r: seq<(Float, Float)>)
    ensures |r| == |raDecs|
    ensures forall i :: 0 <= i < |raDecs| ==> r[i] == ProjectCoords(p, raDecs[i].0 * 15.0, raDecs[i].1)
  {
    seq(|raDecs|, i requires 0 <= i < |raDecs| => ProjectCoords(p, raDecs[i].0 * 15.0, raDecs[i].1))
  }

  // ------------------------------------------------------------------
  // The mixin
  // ------------------------------------------------------------------

  /** The wrapped plot's methods the mixin hands calls to. */
  datatype Op =
    | InitPlot | ScatterStars | DrawPolygon | DrawText | RemoveArtist | DrawLine
    | DrawConstellations | DrawEcliptic | DrawCelestialEquator | DrawGradientBackground

  /** One step of the journal: a call handed to the wrapped plot, or a change to the command log. */
  datatype Event = Delegated(op: Op) | Recorded(cmd: DrawingCommand) | Retracted(cmd: DrawingCommand)

  /** The command log the journal's Recorded and Retracted events leave behind. */
  function LogOf(journal: seq<Event>): seq<DrawingCommand>
  {
    if journal == [] then []
    else
      var log := LogOf(journal[..|journal| - 1]);
      match journal[|journal| - 1]
      case Delegated(_) => log
      case Recorded(c) => log + [c]
      case Retracted(c) => RemoveFirst(log, c)
  }

  /** The artist returned for a placed label, with its patched remove(). */
  datatype Label = Label(cmd: DrawingCommand)

  /** The journal entries a call adds: the hand-off first, then the recorded command if any. */
  function CallEvents(op: Op, cmd: Option<DrawingCommand>): seq<Event>
  {
    [Delegated(op)] + if cmd.Some? then [Recorded(cmd.value)] else []
  }

  lemma LogOfCall(journal: seq<Event>, op: Op, cmd: Option<DrawingCommand>)
    ensures LogOf(journal + CallEvents(op, cmd)) == LogOf(journal) + if cmd.Some? then [cmd.value] else []
  {
    assert (journal + [Delegated(op)])[..|journal|] == journal;
    if cmd.Some? {
      var j := journal + CallEvents(op, cmd);
      assert j[..|j| - 1] == journal + [Delegated(op)];
    }
  }

  class RecordingPlot {
    const recorder: DrawingRecorder
    const projector: Projector
    var journal: seq<Event>

    /** The command log holds exactly what the journal recorded and retracted. */
    ghost predicate Valid()
      reads this, recorder
    {
      recorder.commands == LogOf(journal)
    }

    /** __init__: a fresh, empty recorder, then the wrapped plot's own initialisation. */
    constructor (projector: Projector)
      ensures Valid() && fresh(recorder)
      ensures this.projector == projector
      ensures recorder.commands == [] && journal == [Delegated(InitPlot)]
    {
      recorder := new DrawingRecorder();
      this.projector := projector;
      journal := [Delegated(InitPlot)];
    }

    /** Appends the events of one intercepted call and records its command. */
    method Finish(op: Op, cmd: Option<DrawingCommand>)
      requires Valid()
      modifies this, recorder
      ensures Valid()
      ensures journal == old(journal) + CallEvents(op, cmd)
      ensures recorder.commands == old(recorder.commands) + if cmd.Some? then [cmd.value] else []
      ensures recorder.projectionInfo == old(recorder.projectionInfo) && recorder.styleInfo == old(recorder.styleInfo)
    {
      LogOfCall(journal, op, cmd);
      journal := journal + CallEvents(op, cmd);
      var _ := recorder.Append(cmd);
    }

    /**
     * _scatter_stars: the wrapped plot adds its stars (`plottedStars` is its
     * star list afterwards); the mixin records the projected positions and
     * one metadata dict per star among the last len(ras) plotted. A failing
     * conversion in record_scatter raises after the hand-off: nothing is recorded.
     */
    method ScatterStarsCall(ras: seq<real>, decs: seq<real>, sizes: Value, alphas: Value, colors: Value,
                            plottedStars: seq<StarObject>, styleZorder: int, gid: Option<string>, zorder: Option<int>)
      returns (recorded: bool)
      requires Valid()
      modifies this, recorder
      ensures Valid()
      ensures var cmd := StarScatterCommand(projector, ras, decs, sizes, alphas, colors, plottedStars, styleZorder, gid, zorder);
        recorded == cmd.Some? && journal == old(journal) + CallEvents(ScatterStars, cmd) &&
        recorder.commands == old(recorder.commands) + (if recorded then [cmd.value] else [])
    {
      var recent := LastN(plottedStars, |ras|);
      var metadata := CollectStarsMetadata(recent);
      var projected := ProjectZip(projector, ras, decs);
      var cmd := ScatterCommand(VList(Xs(projected)), VList(Ys(projected)), sizes, colors, alphas, VList(metadata), None,
        if gid.Some? then gid.value else "stars", if zorder.Some? then zorder.value else styleZorder);
      Finish(ScatterStars, cmd);
      recorded := cmd.Some?;
    }

    /**
     * _polygon: after the hand-off, the polygon's points as float pairs, its
     * style dict ({} when reading the style raised) and its layer. A point
     * that is not a pair of numbers raises after the hand-off: nothing is recorded.
     */
    method PolygonCall(points: Value, style: PolygonStyleIn, gid: Option<string>)
      returns (recorded: bool)
      requires Valid()
      modifies this, recorder
      ensures Valid()
      ensures recorded <==> PolygonPoints(points).Some?
      ensures var pts := PolygonPoints(points);
        var cmd := if pts.Some? then PolygonCommand(VList(pts.value), PolygonRecordedStyle(style),
          if gid.Some? then gid.value else "polygon", style.zorder) else None;
        journal == old(journal) + CallEvents(DrawPolygon, cmd) &&
        recorder.commands == old(recorder.commands) + (if recorded then [cmd.value] else [])
    {
      var pts := PolygonPoints(points);
      var cmd := if pts.Some? then PolygonCommand(VList(pts.value), PolygonRecordedStyle(style),
        if gid.Some? then gid.value else "polygon", style.zorder) else None;
      Finish(DrawPolygon, cmd);
      recorded := pts.Some?;
    }

    /**
     * _text: only a label the wrapped plot actually placed (`placed`) is
     * recorded; it comes back with a remove() that retracts its command.
     */
    method TextCall(x: real, y: real, text: string, kwargs: map<string, Value>, gid: Option<string>, zorder: Option<int>,
                    placed: bool)
      returns (artist: Option<Label>)
      requires Valid()
      modifies this, recorder
      ensures Valid()
      ensures artist.Some? <==> placed
      ensures var cmd := TextLabelCommand(text, ProjectCoords(projector, x, y), kwargs, gid, zorder);
        (placed ==> artist.value.cmd == cmd) &&
        journal == old(journal) + CallEvents(DrawText, if placed then Some(cmd) else None) &&
        recorder.commands == old(recorder.commands) + (if placed then [cmd] else [])
    {
      if placed {
        var cmd := TextLabelCommand(text, ProjectCoords(projector, x, y), kwargs, gid, zorder);
        Finish(DrawText, Some(cmd));
        artist := Some(Label(cmd));
      } else {
        Finish(DrawText, None);
        artist := None;
      }
    }

    /**
     * The patched remove() of a placed label: drop the first equal command
     * from the log (nothing when there is none), then the original remove().
     */
    method RemoveLabel(artist: Label)
      requires Valid()
      modifies this, recorder
      ensures Valid()
      ensures recorder.commands == RemoveFirst(old(recorder.commands), artist.cmd)
      ensures journal == old(journal) + [Retracted(artist.cmd), Delegated(RemoveArtist)]
    {
      recorder.commands := RemoveFirst(recorder.commands, artist.cmd);
      journal := journal + [Retracted(artist.cmd)];
      assert journal[..|journal| - 1] == old(journal);
      journal := journal + [Delegated(RemoveArtist)];
      assert journal[..|journal| - 1] == old(journal) + [Retracted(artist.cmd)];
    }

    /**
     * line(): the geometry's or the coordinates' points projected; nothing is
     * recorded when there are none (or when iterating them raises: `points == None`).
     */
    method LineCall(style: LineStyleIn, points: Option<seq<(real, real)>>, gid: Option<string>)
      requires Valid()
      modifies this, recorder
      ensures Valid()
      ensures var cmd := if points.Some? && points.value != [] then
          var pts := seq(|points.value|, i requires 0 <= i < |points.value| =>
            ProjectCoords(projector, points.value[i].0, points.value[i].1));
          LineCommand(VList(Xs(pts)), VList(Ys(pts)), LineStyleDict(style), if gid.Some? then gid.value else "line", style.zorder)
        else None;
        journal == old(journal) + CallEvents(DrawLine, cmd) &&
        recorder.commands == old(recorder.commands) + (if cmd.Some? then [cmd.value] else [])
    {
      if points.Some? && points.value != [] {
        var pts := seq(|points.value|, i requires 0 <= i < |points.value| =>
          ProjectCoords(projector, points.value[i].0, points.value[i].1));
        Finish(DrawLine, LineCommand(VList(Xs(pts)), VList(Ys(pts)), LineStyleDict(style),
          if gid.Some? then gid.value else "line", style.zorder));
      } else {
        Finish(DrawLine, None);
      }
    }

    /**
     * constellations(): after the wrapped plot drew `cons`, record one line
     * collection of the kept segments, unless there are no constellations,
     * preparing their stars raised (`constars == None`) or no segment was kept.
     */
    method ConstellationsCall(cons: seq<Constellation>, constars: Option<map<int, (real, real)>>, style: LineStyleIn)
      returns (recorded: bool)
      requires Valid()
      modifies this, recorder
      ensures Valid()
      ensures recorded <==> cons != [] && constars.Some? && ConstellationSegments(projector, constars.value, cons, |cons|) != []
      ensures recorded ==>
        var segs := ConstellationSegments(projector, constars.value, cons, |cons|);
        var cmd := DrawingCommand("line_collection",
          map["lines" := VList(seq(|segs|, i requires 0 <= i < |segs| => SegmentValue(segs[i])))],
          ConstellationStyleDict(style),
          seq(|segs|, i requires 0 <= i < |segs| => SegmentMetadata(segs[i])), style.zorder, "constellations-line");
        journal == old(journal) + CallEvents(DrawConstellations, Some(cmd)) &&
        recorder.commands == old(recorder.commands) + [cmd]
      ensures !recorded ==> (journal == old(journal) + [Delegated(DrawConstellations)] &&
        recorder.commands == old(recorder.commands))
    {
      recorded := false;
      if cons == [] || constars.None? {
        Finish(DrawConstellations, None);
        return;
      }
      var lines, meta := CollectConstellationLines(projector, constars.value, cons);
      ghost var segs := ConstellationSegments(projector, constars.value, cons, |cons|);
      if lines == [] {
        Finish(DrawConstellations, None);
        return;
      }
      assert lines == seq(|segs|, i requires 0 <= i < |segs| => SegmentValue(segs[i]));
      assert meta == seq(|segs|, i requires 0 <= i < |segs| => SegmentMetadata(segs[i]));
      var cmd := LineCollectionCommand(VList(lines), ConstellationStyleDict(style), "constellations-line", style.zorder, VList(meta));
      Finish(DrawConstellations, cmd);
      recorded := true;
    }

    /** The ecliptic's tabulated `(ra_h * 15, dec)` positions projected, in a loop as the source does. */
    method ProjectEcliptic(raDecs: seq<(real, real)>) returns (xs: seq<Value>, ys: seq<Value>)
      ensures xs == Xs(EclipticPath(projector, raDecs)) && ys == Ys(EclipticPath(projector, raDecs))
    {
      xs, ys := [], [];
      var i := 0;
      while i < |raDecs|
        invariant 0 <= i <= |raDecs|
        invariant |xs| == |ys| == i
        invariant forall n :: 0 <= n < i ==>
          xs[n] == VFloat(ProjectCoords(projector, raDecs[n].0 * 15.0, raDecs[n].1).0) &&
          ys[n] == VFloat(ProjectCoords(projector, raDecs[n].0 * 15.0, raDecs[n].1).1)
      {
        var (raH, dec) := raDecs[i];
        var (x, y) := ProjectCoords(projector, raH * 15.0, dec);
        xs := xs + [VFloat(x)];
        ys := ys + [VFloat(y)];
        i := i + 1;
      }
    }

    /** ecliptic(): records the projected ecliptic as "ecliptic-line" when the table is non-empty. */
    method EclipticCall(raDecs: seq<(real, real)>, style: LineStyleIn)
      requires Valid()
      modifies this, recorder
      ensures Valid()
      ensures var pts := EclipticPath(projector, raDecs);
        var cmd := if raDecs == [] then None
          else LineCommand(VList(Xs(pts)), VList(Ys(pts)), LineStyleDict(style), "ecliptic-line", style.zorder);
        (raDecs != [] ==> cmd.Some?) &&
        journal == old(journal) + CallEvents(DrawEcliptic, cmd) &&
        recorder.commands == old(recorder.commands) + (if cmd.Some? then [cmd.value] else [])
    {
      var xs, ys := ProjectEcliptic(raDecs);
      if xs != [] {
        Finish(DrawEcliptic, LineCommand(VList(xs), VList(ys), LineStyleDict(style), "ecliptic-line", style.zorder));
      } else {
        Finish(DrawEcliptic, None);
      }
    }

    /** celestial_equator(): always records the 181 projected points of declination 0. */
    method CelestialEquatorCall(style: LineStyleIn)
      requires Valid()
      modifies this, recorder
      ensures Valid()
      ensures var pts := EquatorPoints(projector);
        var cmd := LineCommand(VList(Xs(pts)), VList(Ys(pts)), LineStyleDict(style), "celestial-equator-line", style.zorder);
        cmd.Some? && |cmd.value.data["x"].items| == 181 &&
        journal == old(journal) + CallEvents(DrawCelestialEquator, cmd) && recorder.commands == old(recorder.commands) + [cmd.value]
    {
      var pts := EquatorPoints(projector);
      Finish(DrawCelestialEquator, LineCommand(VList(Xs(pts)), VList(Ys(pts)), LineStyleDict(style),
        "celestial-equator-line", style.zorder));
    }

    /** _plot_gradient_background: records the plot's gradient direction and the preset's colour stops. */
    method GradientBackgroundCall(direction: Value, preset: Value)
      requires Valid()
      modifies this, recorder
      ensures Valid()
      ensures var cmd := GradientCommand(direction, preset, "gradient");
        journal == old(journal) + CallEvents(DrawGradientBackground, cmd) &&
        recorder.commands == old(recorder.commands) + (if cmd.Some? then [cmd.value] else [])
    {
      Finish(DrawGradientBackground, GradientCommand(direction, preset, "gradient"));
    }
  }

  /**
   * A label placed and then removed (the journal's Recorded then Retracted
   * events) leaves the command log as it was before the placement, provided
   * no equal command was already in the log.
   */
  lemma PlaceThenRemove(journal: seq<Event>, cmd: DrawingCommand)
    requires cmd !in LogOf(journal)
    ensures LogOf(journal + [Recorded(cmd), Retracted(cmd)]) == LogOf(journal)
  {
    var j := journal + [Recorded(cmd), Retracted(cmd)];
    assert j[..|j| - 1] == journal + [Recorded(cmd)];
    assert (journal + [Recorded(cmd)])[..|journal|] == journal;
    RemoveAppendedAbsent(LogOf(journal), cmd);
  }

  /** Removing a command appended to a log that held no equal command restores the log. */

  lemma {:induction false} RemoveAppendedAbsent(log: seq<DrawingCommand>, cmd: DrawingCommand)
    requires cmd !in log
    ensures RemoveFirst(log + [cmd], cmd) == log
  {
    if log != [] {
      assert (log + [cmd])[1..] == log[1..] + [cmd];
      RemoveAppendedAbsent(log[1..], cmd);
    }
  }
}
