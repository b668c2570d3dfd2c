/**
 * PlotlyBackend: the experimental Plotly drawing backend — its translation
 * tables from matplotlib markers, line styles and text alignments, the
 * closing of polygon rings, and the size, colour, opacity and edge rules of
 * its star scatter.
 */
module PlotlyBackend {
  import opened Wrappers
  import opened PyValues

  // ------------------------------------------------------------ conversions

  const MarkerMap: map<string, string> := map[
    "o" := "circle", "s" := "square", "^" := "triangle-up", "v" := "triangle-down",
    "<" := "triangle-left", ">" := "triangle-right", "d" := "diamond", "*" := "star",
    "+" := "cross", "x" := "x", "|" := "line-ns", "_" := "line-ew"]

  const LinestyleMap: map<string, string> := map[
    "-" := "solid", "--" := "dash", "-." := "dashdot", ":" := "dot",
    "solid" := "solid", "dashed" := "dash", "dashdot" := "dashdot", "dotted" := "dot"]

  const HaMap: map<string, string> := map["center" := "center", "left" := "left", "right" := "right"]

  const VaMap: map<string, string> := map["center" := "middle", "top" := "top", "bottom" := "bottom", "baseline" := "bottom"]

  /** `d.get(k, default)` on a table of strings. */
  function Lookup(d: map<string, string>, k: string, default: string): (r: string)
    ensures k in d ==> r == d[k]
    ensures k !in d ==> r == default
  {
    if k in d then d[k] else default
  }

  /** _convert_marker_symbol: a Plotly symbol, 'circle' for every marker the table does not know. */
  function ConvertMarkerSymbol(marker: string): (r: string)
    ensures r in MarkerMap.Values
    ensures marker !in MarkerMap ==> r == "circle"
  {
    assert MarkerMap["o"] == "circle";
    Lookup(MarkerMap, marker, "circle")
  }

  /** _convert_linestyle: a Plotly dash, 'solid' for every style the table does not know. */
  function ConvertLinestyle(style: string): (r: string)
    ensures r in LinestyleMap.Values
    ensures style !in LinestyleMap ==> r == "solid"
  {
    assert LinestyleMap["-"] == "solid";
    Lookup(LinestyleMap, style, "solid")
  }

  /** The short and the long spelling of each line style give the same dash. */
  lemma LinestyleSpellingsAgree()
    ensures ConvertLinestyle("-") == ConvertLinestyle("solid") == "solid"
    ensures ConvertLinestyle("--") == ConvertLinestyle("dashed") == "dash"
    ensures ConvertLinestyle("-.") == ConvertLinestyle("dashdot") == "dashdot"
    ensures ConvertLinestyle(":") == ConvertLinestyle("dotted") == "dot"
  {
  }

  /** _convert_text_alignment: left and right are kept, everything else is centred. */
  function ConvertTextAlignment(ha: string): (r: string)
    ensures r == "left" <==> ha == "left"
    ensures r == "right" <==> ha == "right"
    ensures r == "center" <==> ha != "left" && ha != "right"
  {
    Lookup(HaMap, ha, "center")
  }

  /** _convert_text_valignment: center becomes middle, baseline becomes bottom, unknowns are middle. */
  function ConvertTextValignment(va: string): (r: string)
    ensures r == "top" <==> va == "top"
    ensures r == "bottom" <==> va == "bottom" || va == "baseline"
    ensures r == "middle" <==> va != "top" && va != "bottom" && va != "baseline"
  {
    Lookup(VaMap, va, "middle")
  }

  // ---------------------------------------------------------------- polygons

  type Point = (real, real)

  /** The ring add_polygon draws: the first point appended when it differs from the last. */
  function ClosePolygon(points: seq<Point>): (r: seq<Point>)
    ensures |points| <= |r| <= |points| + 1 && r[..|points|] == points
    ensures points == [] ==> r == []
    ensures points != [] ==> r[0] == r[|r| - 1]
    ensures |r| == |points| + 1 <==> points != [] && points[0] != points[|points| - 1]
  {
    if points != [] && points[0] != points[|points| - 1] then points + [points[0]] else points
  }

  /** A closed ring is left as it is, so closing never doubles the closing point. */
  lemma ClosePolygonIdempotent(points: seq<Point>)
    ensures ClosePolygon(ClosePolygon(points)) == ClosePolygon(points)
  {
    var r := ClosePolygon(points);
    if r != [] {
      assert r[0] == r[|r| - 1];
    }
  }

  function Xs(points: seq<Point>): (r: seq<real>)
    ensures |r| == |points| && forall i :: 0 <= i < |points| ==> r[i] == points[i].0
  {
    if points == [] then [] else [points[0].0] + Xs(points[1..])
  }

  function Ys(points: seq<Point>): (r: seq<real>)
    ensures |r| == |points| && forall i :: 0 <= i < |points| ==> r[i] == points[i].1
  {
    if points == [] then [] else [points[0].1] + Ys(points[1..])
  }

  /** The scatter trace of a polygon: a line ring, filled 'toself' when a fill colour is given. */
  datatype PolygonTrace = PolygonTrace(
    x: seq<real>, y: seq<real>, fill: Option<string>, fillColor: Option<string>,
    lineColor: string, lineWidth: real, opacity: real)

  /** The trace add_polygon adds; a missing or empty edge colour draws black. */
  function PolygonTraceOf(points: seq<Point>, fillColor: Option<string>, edgeColor: Option<string>, alpha: real): (r: PolygonTrace)
    ensures |r.x| == |r.y| == |ClosePolygon(points)|
    ensures points != [] ==> r.x[0] == r.x[|r.x| - 1] && r.y[0] == r.y[|r.y| - 1]
    ensures r.fill == Some("toself") <==> fillColor.Some? && fillColor.value != ""
    ensures r.fill.None? <==> !(fillColor.Some? && fillColor.value != "")
    ensures r.lineColor == (if edgeColor.Some? && edgeColor.value != "" then edgeColor.value else "black")
    ensures r.lineWidth == 1.0 && r.opacity == alpha && r.fillColor == fillColor
  {
    var ring := ClosePolygon(points);
    PolygonTrace(
      Xs(ring), Ys(ring),
      if fillColor.Some? && fillColor.value != "" then Some("toself") else None,
      fillColor,
      if edgeColor.Some? && edgeColor.value != "" then edgeColor.value else "black",
      1.0, alpha)
  }

  // ----------------------------------------------------------------- scatter

  /** The `sizes` argument: None, a number, or an array. */
  datatype Sizes = NoSizes | SizeScalar(size: real) | SizeArray(sizes: seq<real>)

  /** The `colors` argument: a string, a numpy array, or anything else (None, a list). */
  datatype Colors = ColorName(name: string) | ColorArray(colors: seq<string>) | OtherColors

  /** The `alpha` argument: None, an int or float, or an array. */
  datatype Alpha = NoAlpha | AlphaNumber(alpha: Float) | AlphaArray(alphas: seq<real>)

  /** The marker of the scatter trace. */
  datatype MarkerSize = FixedSize(size: real) | PerPointSize(sizes: seq<real>)
  datatype MarkerColor = OneColor(color: string) | PerPointColor(colors: seq<string>)
  datatype EdgeLine = EdgeLine(color: Option<string>, width: real)
  datatype ScatterTrace = ScatterTrace(
    x: seq<real>, y: seq<real>, size: MarkerSize, color: MarkerColor, opacity: Float, symbol: string, line: EdgeLine)

  function Sum(xs: seq<real>): real
  {
    if xs == [] then 0.0 else Sum(xs[..|xs| - 1]) + xs[|xs| - 1]
  }

  /** `np.mean`: NaN for an empty array. */
  function Mean(xs: seq<real>): (r: Float)
    ensures r.NaN? <==> xs == []
    ensures xs != [] ==> r.Fin?
  {
    if xs == [] then NaN else Fin(Sum(xs) / (|xs| as real))
  }

  /** The sum lies between |xs| times any lower and any upper bound of the elements. */
  lemma {:induction false} SumBounds(xs: seq<real>, lo: real, hi: real)
    requires forall i :: 0 <= i < |xs| ==> lo <= xs[i] <= hi
    ensures (|xs| as real) * lo <= Sum(xs) <= (|xs| as real) * hi
  {
    if xs != [] {
      var n := |xs|;
      SumBounds(xs[..n - 1], lo, hi);
      assert ((n - 1) as real) * lo + lo == (n as real) * lo;
      assert ((n - 1) as real) * hi + hi == (n as real) * hi;
    }
  }

  /** The mean opacity lies between the smallest and the largest alpha, so in [0, 1] when they do. */
  lemma MeanBetween(xs: seq<real>, lo: real, hi: real)
    requires xs != []
    requires forall i :: 0 <= i < |xs| ==> lo <= xs[i] <= hi
    ensures lo <= Mean(xs).r <= hi
  {
    SumBounds(xs, lo, hi);
    var n := |xs| as real;
    assert Sum(xs) / n >= lo by {
      assert Sum(xs) >= n * lo;
    }
    assert Sum(xs) / n <= hi by {
      assert Sum(xs) <= n * hi;
    }
  }

  /** The sizes doubled elementwise, as `np.array(sizes) * 2`. */
  function Doubled(xs: seq<real>): (r: seq<real>)
    ensures |r| == |xs| && forall i :: 0 <= i < |xs| ==> r[i] == 2.0 * xs[i]
  {
    if xs == [] then [] else Doubled(xs[..|xs| - 1]) + [2.0 * xs[|xs| - 1]]
  }

  /** The edge is drawn (colour, width 1) only for a non-empty edge colour other than 'none'. */
  function EdgeLineOf(edgecolors: Option<string>): (r: EdgeLine)
    ensures r.width == 0.0 <==> edgecolors.None? || edgecolors.value == "" || edgecolors.value == "none"
    ensures r.width == 1.0 <==> r.color.Some?
    ensures r.color.Some? ==> r.color == edgecolors
  {
    if edgecolors.Some? && edgecolors.value != "" && edgecolors.value != "none"
    then EdgeLine(edgecolors, 1.0) else EdgeLine(None, 0.0)
  }

  /** The trace `scatter` adds. */
  function ScatterTraceOf(x: seq<real>, y: seq<real>, sizes: Sizes, colors: Colors, alpha: Alpha, marker: string, edgecolors: Option<string>): (r: ScatterTrace)
    ensures r.x == x && r.y == y
    ensures sizes.NoSizes? ==> r.size == FixedSize(6.0)
    ensures sizes.SizeScalar? ==> r.size == FixedSize(2.0 * sizes.size)
    ensures sizes.SizeArray? ==> (r.size.PerPointSize? && |r.size.sizes| == |sizes.sizes| &&
      forall i :: 0 <= i < |sizes.sizes| ==> r.size.sizes[i] == 2.0 * sizes.sizes[i])
    ensures r.color == match colors
      case ColorName(c) => OneColor(c)
      case ColorArray(cs) => PerPointColor(cs)
      case OtherColors => OneColor("blue")
    ensures alpha.NoAlpha? ==> r.opacity == Fin(1.0)
    ensures alpha.AlphaNumber? ==> r.opacity == alpha.alpha
    ensures alpha.AlphaArray? ==> r.opacity == Mean(alpha.alphas)
    ensures r.symbol == ConvertMarkerSymbol(marker)
    ensures r.line == EdgeLineOf(edgecolors)
  {
    var size := match sizes
      case NoSizes => FixedSize(6.0)
      case SizeScalar(z) => FixedSize(z * 2.0)
      case SizeArray(zs) => PerPointSize(Doubled(zs));
    var color := match colors
      case ColorName(c) => OneColor(c)
      case ColorArray(cs) => PerPointColor(cs)
      case OtherColors => OneColor("blue");
    var opacity := match alpha
      case NoAlpha => Fin(1.0)
      case AlphaNumber(a) => a
      case AlphaArray(xs) => Mean(xs);
    ScatterTrace(x, y, size, color, opacity, ConvertMarkerSymbol(marker), EdgeLineOf(edgecolors))
  }

  /** An annotation add_text appends to the layout. */
  datatype TextAnnotation = TextAnnotation(x: real, y: real, text: string, fontSize: real, color: string, xanchor: string, yanchor: string)

  /** One trace of the figure. */
  datatype Trace = ScatterOf(scatter: ScatterTrace) | PolygonOf(polygon: PolygonTrace)

  /** The parts of `self.figure` the drawing methods add to. */
  class PlotlyBackend {
    var traces: seq<Trace>
    var annotations: seq<TextAnnotation>

    constructor ()
      ensures traces == [] && annotations == []
    {
      traces := [];
      annotations := [];
    }

    /** `scatter`: the star trace is added to the figure and returned. */
    method Scatter(x: seq<real>, y: seq<real>, sizes: Sizes, colors: Colors, alpha: Alpha, marker: string, edgecolors: Option<string>)
      returns (t: ScatterTrace)
      modifies this
      ensures t == ScatterTraceOf(x, y, sizes, colors, alpha, marker, edgecolors)
      ensures traces == old(traces) + [ScatterOf(t)] && annotations == old(annotations)
    {
      t := ScatterTraceOf(x, y, sizes, colors, alpha, marker, edgecolors);
      traces := traces + [ScatterOf(t)];
    }

    /** `add_polygon`: the closed ring is added to the figure and returned. */
    method AddPolygon(points: seq<Point>, fillColor: Option<string>, edgeColor: Option<string>, alpha: real)
      returns (t: PolygonTrace)
      modifies this
      ensures t == PolygonTraceOf(points, fillColor, edgeColor, alpha)
      ensures traces == old(traces) + [PolygonOf(t)] && annotations == old(annotations)
    {
      t := PolygonTraceOf(points, fillColor, edgeColor, alpha);
      traces := traces + [PolygonOf(t)];
    }

    /** `add_text`: the annotation, with converted anchors, is appended to the layout's annotations. */
    method AddText(x: real, y: real, text: string, fontSize: real, color: string, ha: string, va: string)
      returns (a: TextAnnotation)
      modifies this
      ensures a == TextAnnotation(x, y, text, fontSize, color, ConvertTextAlignment(ha), ConvertTextValignment(va))
      ensures annotations == old(annotations) + [a] && traces == old(traces)
    {
      a := TextAnnotation(x, y, text, fontSize, color, ConvertTextAlignment(ha), ConvertTextValignment(va));
      annotations := annotations + [a];
    }
  }
}
