/**
 * Translation of the backend-neutral style vocabulary into Plotly's:
 * marker symbols, dash patterns, text anchors, and the calibration of
 * matplotlib scatter sizes (points squared) into Plotly marker diameters.
 */
module StyleConverter {
  import opened Wrappers
  import opened PyValues

  /** MARKER_SYMBOL_MAP: starplot and matplotlib marker names to Plotly symbols. */
  const MarkerSymbolMap: map<string, string> := map[
    "point" := "circle", "circle" := "circle", "square" := "square", "star" := "star",
    "diamond" := "diamond", "triangle" := "triangle-up", "plus" := "cross",
    "circle_plus" := "circle-cross", "circle_cross" := "circle-x", "circle_dot" := "circle-dot",
    "comet" := "star-diamond", "star_4" := "star-square", "star_8" := "star", "ellipse" := "circle",
    "." := "circle", "o" := "circle", "s" := "square", "*" := "star", "D" := "diamond",
    "^" := "triangle-up", "+" := "cross"]

  /** LINE_STYLE_MAP: starplot and matplotlib line styles to Plotly dash names. */
  const LineStyleMap: map<string, string> := map[
    "solid" := "solid", "dashed" := "dash", "dotted" := "dot", "dashdot" := "dashdot",
    "-" := "solid", "--" := "dash", ":" := "dot", "-." := "dashdot"]

  /**
   * ANCHOR_MAP: matplotlib (va, ha) to Plotly (yanchor, xanchor). The
   * horizontal side is mirrored because starplot's x axis runs right to left.
   */
  const AnchorMap: map<(string, string), (string, string)> := map[
    ("top", "left") := ("top", "right"), ("top", "right") := ("top", "left"),
    ("bottom", "left") := ("bottom", "right"), ("bottom", "right") := ("bottom", "left"),
    ("center", "center") := ("middle", "center"), ("center", "left") := ("middle", "right"),
    ("center", "right") := ("middle", "left"), ("top", "center") := ("top", "center"),
    ("bottom", "center") := ("bottom", "center"), ("baseline", "left") := ("bottom", "right"),
    ("baseline", "right") := ("bottom", "left"), ("baseline", "center") := ("bottom", "center")]

  /**
   * `MARKER_SYMBOL_MAP.get(v, "circle")`: None is the TypeError a list or
   * dict raises as a key; any other value that is not a known name falls
   * back to a circle.
   */
  function SymbolFor(v: Value): (r: Option<string>)
    ensures r.None? <==> !Hashable(v)
    ensures v.VStr? && v.s in MarkerSymbolMap ==> r == Some(MarkerSymbolMap[v.s])
    ensures Hashable(v) && !(v.VStr? && v.s in MarkerSymbolMap) ==> r == Some("circle")
    ensures r.Some? ==> r.value in MarkerSymbolMap.Values
  {
    if !Hashable(v) then None
    else if v.VStr? && v.s in MarkerSymbolMap then Some(MarkerSymbolMap[v.s])
    else
      assert MarkerSymbolMap["circle"] == "circle";
      Some("circle")
  }

  /**
   * `LINE_STYLE_MAP.get(str(v), "solid")`. No non-string value's str() is a
   * key of the map, so only strings can select a dash other than solid.
   */
  function DashFor(v: Value): (r: string)
    ensures v.VStr? && v.s in LineStyleMap ==> r == LineStyleMap[v.s]
    ensures !(v.VStr? && v.s in LineStyleMap) ==> r == "solid"
    ensures r in {"solid", "dash", "dot", "dashdot"}
  {
    if v.VStr? && v.s in LineStyleMap then LineStyleMap[v.s] else "solid"
  }

  /**
   * `ANCHOR_MAP.get((va, ha), ("middle", "center"))`, as (yanchor, xanchor).
   * None is the TypeError of a key tuple holding a list or dict.
   */
  function AnchorFor(va: Value, ha: Value): (r: Option<(string, string)>)
    ensures r.None? <==> !Hashable(va) || !Hashable(ha)
    ensures va.VStr? && ha.VStr? && (va.s, ha.s) in AnchorMap ==> r == Some(AnchorMap[(va.s, ha.s)])
    ensures Hashable(va) && Hashable(ha) && !(va.VStr? && ha.VStr? && (va.s, ha.s) in AnchorMap) ==>
      r == Some(("middle", "center"))
    // the horizontal anchor is the mirror image of matplotlib's
    ensures ha == VStr("left") && va.VStr? && va.s in {"top", "bottom", "center", "baseline"} ==> r == Some((r.value.0, "right"))
    ensures ha == VStr("right") && va.VStr? && va.s in {"top", "bottom", "center", "baseline"} ==> r == Some((r.value.0, "left"))
    ensures r.Some? ==> r.value.1 in {"left", "center", "right"} && r.value.0 in {"top", "middle", "bottom"}
  {
    if !Hashable(va) || !Hashable(ha) then None
    else if va.VStr? && ha.VStr? && (va.s, ha.s) in AnchorMap then Some(AnchorMap[(va.s, ha.s)])
    else Some(("middle", "center"))
  }

  /** Every vertical alignment maps to the same Plotly side except center (middle) and baseline (bottom). */
  lemma AnchorVertical(va: string, ha: string)
    requires (va, ha) in AnchorMap
    ensures AnchorMap[(va, ha)].0 == (if va == "center" then "middle" else if va == "baseline" then "bottom" else va)
    ensures AnchorMap[(va, ha)].1 == (if ha == "left" then "right" else if ha == "right" then "left" else ha)
  {
  }

  // ------------------------------------------------------------------
  // Marker size calibration
  // ------------------------------------------------------------------

  /** math.pi. */
  const Pi: real := 3.141592653589793

  /** 1.389 (DPI 200/72 halved) times the 0.70 rendering correction. */
  const SizeFactor: real := 1.389 * 0.70

  /** What the calibration needs of math.sqrt: non-negative and monotone on non-negative reals. */
  ghost predicate SqrtLike(sqrt: real -> real)
  {
    forall a, b {:trigger sqrt(a), sqrt(b)} :: 0.0 <= a <= b ==> 0.0 <= sqrt(a) <= sqrt(b)
  }

  /** The raw Plotly diameter `2 sqrt(s / pi) * 1.389 * 0.70 * (1000 / resolution) * scale`. */
  function Diameter(mplSize: real, resolution: real, scale: real, sqrt: real -> real): real
    requires resolution != 0.0
  {
    2.0 * sqrt(mplSize / Pi) * SizeFactor * (1000.0 / resolution) * scale
  }

  /**
   * calibrate_marker_size for finite inputs: 1.5 for a non-positive size,
   * otherwise the diameter floored at 1.5; None is the ZeroDivisionError of
   * a zero resolution (reached only for a positive size).
   */
  function CalibrateMarkerSize(mplSize: real, resolution: real, scale: real, sqrt: real -> real): (r: Option<real>)
    ensures r.None? <==> mplSize > 0.0 && resolution == 0.0
    ensures r.Some? ==> r.value >= 1.5
    ensures mplSize <= 0.0 ==> r == Some(1.5)
    ensures r.Some? && mplSize > 0.0 ==>
      r.value == (if Diameter(mplSize, resolution, scale, sqrt) > 1.5 then Diameter(mplSize, resolution, scale, sqrt) else 1.5)
  {
    if mplSize <= 0.0 then Some(1.5)
    else if resolution == 0.0 then None
    else
      var d := Diameter(mplSize, resolution, scale, sqrt);
      Some(if d > 1.5 then d else 1.5)
  }

  /** For a fixed positive resolution and scale, a larger size never calibrates smaller. */
  lemma CalibrateMonotone(a: real, b: real, resolution: real, scale: real, sqrt: real -> real)
    requires SqrtLike(sqrt) && resolution > 0.0 && scale > 0.0 && a <= b
    ensures CalibrateMarkerSize(a, resolution, scale, sqrt).Some? && CalibrateMarkerSize(b, resolution, scale, sqrt).Some?
    ensures CalibrateMarkerSize(a, resolution, scale, sqrt).value <= CalibrateMarkerSize(b, resolution, scale, sqrt).value
  {
    if a > 0.0 {
      assert sqrt(a / Pi) <= sqrt(b / Pi) by {
        assert 0.0 <= a / Pi <= b / Pi;
      }
      assert 0.0 <= sqrt(a / Pi);
      DiameterMonotone(sqrt(a / Pi), sqrt(b / Pi), 2.0 * SizeFactor * (1000.0 / resolution) * scale);
    }
  }

  lemma DiameterMonotone(x: real, y: real, k: real)
    requires 0.0 <= x <= y && k >= 0.0
    ensures x * k <= y * k
  {
  }

  /**
   * calibrate_marker_size on a Python float: NaN and negative infinity give
   * 1.5, positive infinity an infinite or floored diameter depending on the
   * sign of resolution times scale; a zero resolution still raises.
   */
  function CalibrateFloat(f: Float, resolution: real, scale: real, sqrt: real -> real): (r: Option<Float>)
    ensures r.Some? ==> AtLeast(r.value, 1.5)
    ensures f.Fin? ==> r == (if CalibrateMarkerSize(f.r, resolution, scale, sqrt).Some?
      then Some(Fin(CalibrateMarkerSize(f.r, resolution, scale, sqrt).value)) else None)
    ensures r.None? <==> resolution == 0.0 && !f.NegInf? && !(f.Fin? && f.r <= 0.0)
  {
    match f
    case Fin(x) =>
      (match CalibrateMarkerSize(x, resolution, scale, sqrt)
       case Some(d) => Some(Fin(d))
       case None => None)
    case NegInf => Some(Fin(1.5))
    case NaN => if resolution == 0.0 then None else Some(Fin(1.5))
    case PosInf =>
      if resolution == 0.0 then None
      else if resolution * scale > 0.0 then Some(PosInf)
      else Some(Fin(1.5))
  }

  /** calibrate_marker_size on a stored value: a non-number fails the `<= 0` comparison. */
  function CalibrateValue(v: Value, resolution: real, scale: real, sqrt: real -> real): (r: Option<Float>)
    ensures ToFloat(v).None? ==> r.None?
    ensures r.Some? ==> AtLeast(r.value, 1.5)
  {
    match ToFloat(v)
    case Some(f) => CalibrateFloat(f, resolution, scale, sqrt)
    case None => None
  }

  /**
   * calibrate_marker_size with the resolution as stored, not yet known to be
   * a number. A non-positive size returns 1.5 before the resolution is used.
   * Otherwise a resolution that is not a number raises in the division, and
   * a NaN or infinite one makes the diameter NaN or 0, which the floor at 1.5
   * replaces.
   */
  function CalibrateAt(v: Value, resolution: Value, scale: real, sqrt: real -> real): (r: Option<Float>)
    ensures r.Some? ==> AtLeast(r.value, 1.5)
    ensures ToFloat(resolution).Some? && ToFloat(resolution).value.Fin? ==>
      r == CalibrateValue(v, ToFloat(resolution).value.r, scale, sqrt)
    ensures ToFloat(resolution).Some? && !ToFloat(resolution).value.Fin? ==>
      r == (if ToFloat(v).Some? then Some(Fin(1.5)) else None)
    ensures ToFloat(resolution).None? ==>
      r == (if ToFloat(v).Some? && (ToFloat(v).value.NegInf? || (ToFloat(v).value.Fin? && ToFloat(v).value.r <= 0.0))
            then Some(Fin(1.5)) else None)
  {
    match ToFloat(v)
    case None => None
    case Some(f) =>
      if f.NegInf? || (f.Fin? && f.r <= 0.0) then Some(Fin(1.5))
      else
        match ToFloat(resolution)
        case None => None
        case Some(Fin(res)) => CalibrateFloat(f, res, scale, sqrt)
        case Some(_) => Some(Fin(1.5))
  }

  // ------------------------------------------------------------------
  // Style dict conversions
  // ------------------------------------------------------------------

  datatype PlotlyMarker = PlotlyMarker(symbol: string, size: Float, color: Value, opacity: Value,
                                       lineColor: Value, lineWidth: Float)
  datatype PlotlyLine = PlotlyLine(color: Value, width: Float, dash: string)
  datatype PlotlyText = PlotlyText(fontSize: Float, fontColor: Value, fontFamily: Value,
                                   xanchor: string, yanchor: string, opacity: Value)
  datatype PlotlyPolygon = PlotlyPolygon(fill: Option<string>, fillColor: Value, lineColor: Value,
                                         lineWidth: Float, dash: string, opacity: Value)

  /** `v * c` where Python raises for a non-number. */
  function ScaledNumber(v: Value, c: real): (r: Option<Float>)
    ensures r.Some? <==> ToFloat(v).Some?
    ensures r.Some? ==> r.value == Times(ToFloat(v).value, c)
  {
    match ToFloat(v)
    case Some(f) => Some(Times(f, c))
    case None => None
  }

  /**
   * convert_marker_style: None when the symbol is unhashable, the size or the
   * edge width is not a number, or the resolution is 0.
   */
  function ConvertMarkerStyle(style: map<string, Value>, scale: real, resolution: real, sqrt: real -> real)
    : (r: Option<PlotlyMarker>)
    ensures r.Some? ==> AtLeast(r.value.size, 1.5)
    ensures r.Some? ==> SymbolFor(Get(style, "symbol", VStr("circle"))) == Some(r.value.symbol)
    ensures r.Some? <==>
      SymbolFor(Get(style, "symbol", VStr("circle"))).Some? &&
      CalibrateValue(Get(style, "size", VInt(10)), resolution, scale, sqrt).Some? &&
      ToFloat(Get(style, "edge_width", VInt(0))).Some?
    ensures r.Some? ==> Some(r.value.size) == CalibrateValue(Get(style, "size", VInt(10)), resolution, scale, sqrt)
    ensures r.Some? ==> Some(r.value.lineWidth) == ScaledNumber(Get(style, "edge_width", VInt(0)), 0.3)
    ensures r.Some? ==> (r.value.color == Get(style, "color", VNone) &&
                         r.value.opacity == Get(style, "alpha", VFloat(Fin(1.0))) &&
                         r.value.lineColor == Get(style, "edge_color", VStr("rgba(0,0,0,0)")))
  {
    var symbol := SymbolFor(Get(style, "symbol", VStr("circle")));
    var size := CalibrateValue(Get(style, "size", VInt(10)), resolution, scale, sqrt);
    var width := ScaledNumber(Get(style, "edge_width", VInt(0)), 0.3);
    if symbol.None? || size.None? || width.None? then None
    else Some(PlotlyMarker(symbol.value, size.value, Get(style, "color", VNone),
      Get(style, "alpha", VFloat(Fin(1.0))), Get(style, "edge_color", VStr("rgba(0,0,0,0)")), width.value))
  }

  /** convert_line_style: the width is never below 1 (nor NaN); None for a non-numeric width. */
  function ConvertLineStyle(style: map<string, Value>, scale: real): (r: Option<PlotlyLine>)
    ensures r.Some? <==> ToFloat(Get(style, "width", VInt(1))).Some?
    ensures r.Some? ==> AtLeast(r.value.width, 1.0)
    ensures r.Some? ==> r.value.dash == DashFor(Get(style, "line_style", VStr("solid")))
    ensures r.Some? ==> r.value.color == Get(style, "color", VStr("#777"))
  {
    match ScaledNumber(Get(style, "width", VInt(1)), 0.3)
    case Some(w) => Some(PlotlyLine(Get(style, "color", VStr("#777")), MaxWith(1.0, Times(w, scale)),
      DashFor(Get(style, "line_style", VStr("solid")))))
    case None => None
  }

  /**
   * convert_text_style: the font size is never below 8; unknown alignments
   * centre the text; None when an alignment is unhashable or the font size is
   * not a number.
   */
  function ConvertTextStyle(style: map<string, Value>, scale: real): (r: Option<PlotlyText>)
    ensures r.Some? <==>
      AnchorFor(Get(style, "va", VStr("center")), Get(style, "ha", VStr("center"))).Some? &&
      ToFloat(Get(style, "font_size", VInt(12))).Some?
    ensures r.Some? ==> AtLeast(r.value.fontSize, 8.0)
    ensures r.Some? ==>
      AnchorFor(Get(style, "va", VStr("center")), Get(style, "ha", VStr("center"))) == Some((r.value.yanchor, r.value.xanchor))
  {
    var anchor := AnchorFor(Get(style, "va", VStr("center")), Get(style, "ha", VStr("center")));
    match ScaledNumber(Get(style, "font_size", VInt(12)), 0.4)
    case Some(fs) =>
      if anchor.None? then None
      else Some(PlotlyText(MaxWith(8.0, Times(fs, scale)), Get(style, "font_color", VStr("#000")),
        Get(style, "font_name", VStr("Inter, Arial, sans-serif")), anchor.value.1, anchor.value.0,
        Get(style, "alpha", VFloat(Fin(1.0)))))
    case None => None
  }

  /** convert_polygon_style: filled exactly when the fill colour is truthy. */
  function ConvertPolygonStyle(style: map<string, Value>, scale: real): (r: Option<PlotlyPolygon>)
    ensures r.Some? <==> ToFloat(Get(style, "edge_width", VInt(0))).Some?
    ensures r.Some? ==> (r.value.fill == Some("toself") <==> Truthy(Get(style, "fill_color", VNone)))
    ensures r.Some? ==> (r.value.fill.None? <==> !Truthy(Get(style, "fill_color", VNone)))
    ensures r.Some? ==> r.value.fillColor == Get(style, "fill_color", VNone)
  {
    match ScaledNumber(Get(style, "edge_width", VInt(0)), 0.3)
    case Some(w) =>
      Some(PlotlyPolygon(if Truthy(Get(style, "fill_color", VNone)) then Some("toself") else None,
        Get(style, "fill_color", VNone), Get(style, "edge_color", VStr("rgba(0,0,0,0)")), w,
        DashFor(Get(style, "line_style", VStr("solid"))), Get(style, "alpha", VFloat(Fin(1.0)))))
    case None => None
  }
}
