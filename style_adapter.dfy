/**
 * StyleAdapter: the static conversions from starplot styles to
 * matplotlib and Plotly keyword values.
 */
module StyleAdapter {
  import opened Wrappers
  import opened PyValues
  import StyleBase

  /** A colour argument: a colour object (it has `as_hex`), or any other value. */
  datatype ColorInput = ColorObject(hex: string) | Plain(v: Value)

  /** convert_color: the object's hex form, a string as it is, anything else through `str`. */
  function ConvertColor(c: ColorInput, show: Value -> string): (r: string)
    ensures c.ColorObject? ==> r == c.hex
    ensures c.Plain? && c.v.VStr? ==> r == c.v.s
  {
    match c
    case ColorObject(hex) => hex
    case Plain(v) => if v.VStr? then v.s else show(v)
  }

  const PlotlySymbols: map<string, string> := map[
    "o" := "circle", "s" := "square", "^" := "triangle-up", "v" := "triangle-down", "<" := "triangle-left",
    ">" := "triangle-right", "d" := "diamond", "*" := "star", "+" := "cross", "x" := "x", "|" := "line-ns",
    "_" := "line-ew"]

  /** convert_marker_symbol: the Plotly symbol of a matplotlib marker, "circle" when unlisted. */
  function ConvertMarkerSymbol(m: string): (r: string)
    ensures m in PlotlySymbols ==> r == PlotlySymbols[m]
    ensures m !in PlotlySymbols ==> r == "circle"
    ensures r in PlotlySymbols.Values
  {
    if m in PlotlySymbols then PlotlySymbols[m] else assert PlotlySymbols["o"] == "circle"; "circle"
  }

  const PlotlyDashes: map<string, string> := map[
    "-" := "solid", "--" := "dash", "-." := "dashdot", ":" := "dot",
    "solid" := "solid", "dashed" := "dash", "dashdot" := "dashdot", "dotted" := "dot"]

  /** convert_linestyle: the Plotly dash of a matplotlib line style, "solid" when unlisted. */
  function ConvertLinestyle(s: string): (r: string)
    ensures s in PlotlyDashes ==> r == PlotlyDashes[s]
    ensures s !in PlotlyDashes ==> r == "solid"
    ensures r in {"solid", "dash", "dashdot", "dot"}
  {
    if s in PlotlyDashes then PlotlyDashes[s] else "solid"
  }

  /** The short and the long name of a line style convert alike. */
  lemma LinestyleFormsAgree()
    ensures ConvertLinestyle("-") == ConvertLinestyle("solid") == "solid"
    ensures ConvertLinestyle("--") == ConvertLinestyle("dashed") == "dash"
    ensures ConvertLinestyle("-.") == ConvertLinestyle("dashdot") == "dashdot"
    ensures ConvertLinestyle(":") == ConvertLinestyle("dotted") == "dot"
  {
  }

  /** An anchor argument: an anchor enum member (it has `value`), or a plain string. */
  datatype AnchorInput = AnchorEnum(ap: StyleBase.AnchorPoint) | AnchorText(s: string)

  const TextAnchors: map<string, string> := map[
    "center" := "center", "left" := "left", "right" := "right", "bottom" := "left", "top" := "right"]

  /** convert_text_anchor: the table's entry for the anchor's value, "center" for anything else. */
  function ConvertTextAnchor(a: AnchorInput): (r: string)
    ensures r in {"center", "left", "right"}
  {
    var value := match a case AnchorEnum(ap) => StyleBase.AnchorValue(ap) case AnchorText(s) => s;
    if value in TextAnchors then TextAnchors[value] else "center"
  }

  /**
   * Every anchor enum member converts to "center": the members' values are
   * compound ("bottom right") or "center", and the table lists single words.
   */
  lemma EnumAnchorsCentered(ap: StyleBase.AnchorPoint)
    ensures ConvertTextAnchor(AnchorEnum(ap)) == "center"
  {
  }

  /** Single-word anchors: bottom goes left and top goes right. */
  lemma TextAnchorWords()
    ensures ConvertTextAnchor(AnchorText("bottom")) == "left"
    ensures ConvertTextAnchor(AnchorText("top")) == "right"
    ensures ConvertTextAnchor(AnchorText("bottom right")) == "center"
  {
  }

  /** The marker fields plotly_star_style reads. */
  datatype StarMarker = StarMarker(color: ColorInput, edgeColor: Option<ColorInput>, alpha: real, symbol: string)

  /** The Plotly scatter settings for stars. */
  datatype PlotlyStarStyle = PlotlyStarStyle(mode: string, color: string, opacity: real, symbol: string,
                                             lineColor: Option<string>, lineWidth: int, showLegend: bool,
                                             hoverInfo: string)

  /** plotly_star_style: markers only, no legend, no hover; an edge only with an edge colour. */
  function PlotlyStarStyleOf(m: StarMarker, show: Value -> string): (r: PlotlyStarStyle)
    ensures r.lineWidth == 0 <==> m.edgeColor.None?
    ensures r.lineColor.None? <==> m.edgeColor.None?
    ensures r.lineWidth in {0, 1}
    ensures r.symbol == ConvertMarkerSymbol(StyleBase.SymbolMatplot(m.symbol))
    ensures r.mode == "markers" && !r.showLegend && r.hoverInfo == "none"
  {
    PlotlyStarStyle("markers", ConvertColor(m.color, show), m.alpha,
      ConvertMarkerSymbol(StyleBase.SymbolMatplot(m.symbol)),
      if m.edgeColor.Some? then Some(ConvertColor(m.edgeColor.value, show)) else None,
      if m.edgeColor.None? then 0 else 1, false, "none")
  }

  /** Every starplot marker symbol reaches a Plotly symbol through its matplotlib code. */
  lemma StarSymbolsConvert(m: StyleBase.MarkerSymbol)
    ensures ConvertMarkerSymbol(StyleBase.SymbolMatplot(StyleBase.SymbolValue(m))) in PlotlySymbols.Values
  {
  }
}
