/**
 * StyleBase: the enum conversions and small style transformations of the
 * style models: marker symbols, line styles, label anchor points, short
 * hex colours, label offsets, polygon-to-marker styles and DSO styles.
 */
module StyleBase {
  import opened Wrappers
  import StyleConverter

  // ------------------------------------------------------------------
  // Marker symbols
  // ------------------------------------------------------------------

  /** MarkerSymbolEnum: the 23 marker symbols. */
  datatype MarkerSymbol =
    | Point | Plus | Circle | Square | SquareStripesDiagonal | Star | Sun | Diamond | Triangle
    | CirclePlus | CircleCross | CircleCrosshair | CircleDot | CircleDottedEdge | CircleDottedRings
    | CircleLine | Comet | Star4 | Star8 | Ellipse | Cross | Hexagon | Pentagon

  /** The enum member's string value. */
  function SymbolValue(m: MarkerSymbol): string
  {
    match m
    case Point => "point" case Plus => "plus" case Circle => "circle" case Square => "square"
    case SquareStripesDiagonal => "square_stripes_diagonal" case Star => "star" case Sun => "sun"
    case Diamond => "diamond" case Triangle => "triangle" case CirclePlus => "circle_plus"
    case CircleCross => "circle_cross" case CircleCrosshair => "circle_crosshair" case CircleDot => "circle_dot"
    case CircleDottedEdge => "circle_dotted_edge" case CircleDottedRings => "circle_dotted_rings"
    case CircleLine => "circle_line" case Comet => "comet" case Star4 => "star_4" case Star8 => "star_8"
    case Ellipse => "ellipse" case Cross => "cross" case Hexagon => "hexagon" case Pentagon => "pentagon"
  }

  /** Matplotlib marker codes. */
  const MarkerCodes: set<string> := {".", "o", "s", "^", "*", "x", "+", "d", "h", "p", "P", "X"}

  /** MarkerSymbolEnum.as_holoviews: defined for every member. */
  function AsHoloviews(m: MarkerSymbol): (r: string)
    ensures r in MarkerCodes
  {
    match m
    case Point => "." case Circle => "o" case Square => "s" case Triangle => "^" case Star => "*"
    case Cross => "x" case Plus => "+" case Diamond => "d" case Hexagon => "h" case Pentagon => "p"
    case CirclePlus => "P" case CircleCross => "X" case CircleDot => "o" case CircleDottedEdge => "o"
    case CircleDottedRings => "o" case CircleLine => "o" case CircleCrosshair => "o" case Comet => "*"
    case Star4 => "*" case Star8 => "*" case Ellipse => "o" case SquareStripesDiagonal => "s" case Sun => "o"
  }

  /** The symbol table of MarkerStyle.symbol_matplot, keyed by the enum's string values. */
  const MatplotSymbols: map<string, string> := map[
    "point" := ".", "circle" := "o", "square" := "s", "triangle" := "^", "star" := "*", "cross" := "x",
    "plus" := "+", "diamond" := "d", "hexagon" := "h", "pentagon" := "p", "circle_plus" := "P",
    "circle_cross" := "X", "circle_dot" := "o", "circle_dotted_edge" := "o", "circle_dotted_rings" := "o",
    "circle_line" := "o", "circle_crosshair" := "o", "comet" := "*", "star_4" := "*", "star_8" := "*",
    "ellipse" := "o", "square_stripes_diagonal" := "s", "sun" := "o"]

  /** MarkerStyle.symbol_matplot: the table's code, "o" for a symbol it does not list. */
  function SymbolMatplot(symbol: string): (r: string)
    ensures symbol !in MatplotSymbols ==> r == "o"
    ensures symbol in MatplotSymbols ==> r == MatplotSymbols[symbol]
  {
    if symbol in MatplotSymbols then MatplotSymbols[symbol] else "o"
  }

  /** The two marker tables agree: every member's matplotlib code is its HoloViews code. */
  lemma SymbolTablesAgree(m: MarkerSymbol)
    ensures SymbolValue(m) in MatplotSymbols
    ensures SymbolMatplot(SymbolValue(m)) == AsHoloviews(m)
  {
    if m.Point? || m.Plus? || m.Circle? || m.Square? || m.SquareStripesDiagonal? || m.Star? || m.Sun? || m.Diamond? {
      SymbolTablesAgreeA(m);
    } else if m.Triangle? || m.CirclePlus? || m.CircleCross? || m.CircleCrosshair? || m.CircleDot? || m.CircleDottedEdge? || m.CircleDottedRings? || m.CircleLine? {
      SymbolTablesAgreeB(m);
    } else {
      SymbolTablesAgreeC(m);
    }
  }

  lemma SymbolTablesAgreeA(m: MarkerSymbol)
    requires m.Point? || m.Plus? || m.Circle? || m.Square? || m.SquareStripesDiagonal? || m.Star? || m.Sun? || m.Diamond?
    ensures SymbolValue(m) in MatplotSymbols && MatplotSymbols[SymbolValue(m)] == AsHoloviews(m)
  {
  }

  lemma SymbolTablesAgreeB(m: MarkerSymbol)
    requires m.Triangle? || m.CirclePlus? || m.CircleCross? || m.CircleCrosshair? || m.CircleDot? || m.CircleDottedEdge? || m.CircleDottedRings? || m.CircleLine?
    ensures SymbolValue(m) in MatplotSymbols && MatplotSymbols[SymbolValue(m)] == AsHoloviews(m)
  {
  }

  lemma SymbolTablesAgreeC(m: MarkerSymbol)
    requires m.Comet? || m.Star4? || m.Star8? || m.Ellipse? || m.Cross? || m.Hexagon? || m.Pentagon?
    ensures SymbolValue(m) in MatplotSymbols && MatplotSymbols[SymbolValue(m)] == AsHoloviews(m)
  {
  }

  // ------------------------------------------------------------------
  // Line styles
  // ------------------------------------------------------------------

  /** LineStyleEnum. */
  datatype LineStyleKind = Solid | Dashed | DashedDots | Dotted

  function LineStyleValue(l: LineStyleKind): string
  {
    match l case Solid => "solid" case Dashed => "dashed" case DashedDots => "dashdot" case Dotted => "dotted"
  }

  /** LineStyleEnum.as_holoviews: defined for every member. */
  function LineAsHoloviews(l: LineStyleKind): (r: string)
    ensures r in {"-", "--", "-.", ":"}
  {
    match l case Solid => "-" case Dashed => "--" case DashedDots => "-." case Dotted => ":"
  }

  /** Different line styles get different HoloViews codes. */
  lemma LineAsHoloviewsInjective(a: LineStyleKind, b: LineStyleKind)
    ensures LineAsHoloviews(a) == LineAsHoloviews(b) ==> a == b
  {
  }

  // ------------------------------------------------------------------
  // Anchor points
  // ------------------------------------------------------------------

  /** AnchorPointEnum. */
  datatype AnchorPoint = Center | LeftCenter | RightCenter | TopLeft | TopRight | TopCenter
                       | BottomLeft | BottomRight | BottomCenter

  function AnchorValue(ap: AnchorPoint): string
  {
    match ap
    case Center => "center" case LeftCenter => "left center" case RightCenter => "right center"
    case TopLeft => "top left" case TopRight => "top right" case TopCenter => "top center"
    case BottomLeft => "bottom left" case BottomRight => "bottom right" case BottomCenter => "bottom center"
  }

  /** The vertical part of an anchor's name: "bottom", "top" or "center". */
  function VerticalOf(ap: AnchorPoint): string
  {
    match ap
    case TopLeft | TopRight | TopCenter => "top"
    case BottomLeft | BottomRight | BottomCenter => "bottom"
    case _ => "center"
  }

  /** The horizontal part of an anchor's name: "left", "right" or "center". */
  function HorizontalOf(ap: AnchorPoint): string
  {
    match ap
    case LeftCenter | TopLeft | BottomLeft => "left"
    case RightCenter | TopRight | BottomRight => "right"
    case _ => "center"
  }

  /** Flips top and bottom, left and right; center stays. */
  function Opposite(side: string): string
  {
    match side
    case "top" => "bottom" case "bottom" => "top" case "left" => "right" case "right" => "left" case _ => side
  }

  /** AnchorPointEnum.as_matplot: the "va"/"ha" dict for a label placed at this anchor. */
  function AsMatplot(ap: AnchorPoint): (r: map<string, string>)
    ensures r.Keys == {"va", "ha"}
  {
    match ap
    case BottomLeft => map["va" := "top", "ha" := "right"]
    case BottomRight => map["va" := "top", "ha" := "left"]
    case BottomCenter => map["va" := "top", "ha" := "center"]
    case TopLeft => map["va" := "bottom", "ha" := "right"]
    case TopRight => map["va" := "bottom", "ha" := "left"]
    case TopCenter => map["va" := "bottom", "ha" := "center"]
    case Center => map["va" := "center", "ha" := "center"]
    case LeftCenter => map["va" := "center", "ha" := "right"]
    case RightCenter => map["va" := "center", "ha" := "left"]
  }

  /** Both axes are inverted, because the map's coordinates are. */
  lemma AsMatplotInverts(ap: AnchorPoint)
    ensures AsMatplot(ap)["va"] == Opposite(VerticalOf(ap))
    ensures AsMatplot(ap)["ha"] == Opposite(HorizontalOf(ap))
  {
  }

  /** Every anchor's alignment pair has an entry in the Plotly anchor table. */
  lemma AnchorsConvertible(ap: AnchorPoint)
    ensures (AsMatplot(ap)["va"], AsMatplot(ap)["ha"]) in StyleConverter.AnchorMap
  {
  }

  /** AnchorPointEnum.from_str: the member with that value, or None. */
  function FromStr(s: string): (r: Option<AnchorPoint>)
    ensures r.Some? ==> AnchorValue(r.value) == s
    ensures r.None? <==> forall ap: AnchorPoint :: AnchorValue(ap) != s
  {
    match s
    case "center" => Some(Center) case "left center" => Some(LeftCenter) case "right center" => Some(RightCenter)
    case "top left" => Some(TopLeft) case "top right" => Some(TopRight) case "top center" => Some(TopCenter)
    case "bottom left" => Some(BottomLeft) case "bottom right" => Some(BottomRight)
    case "bottom center" => Some(BottomCenter)
    case _ => None
  }

  /** from_str inverts the enum's value. */
  lemma FromStrRoundTrip(ap: AnchorPoint)
    ensures FromStr(AnchorValue(ap)) == Some(ap)
  {
  }

  // ------------------------------------------------------------------
  // Short hex colours
  // ------------------------------------------------------------------

  /** The "#rgb" expansion: a 4-character colour becomes "#rrggbb"; any other value is unchanged. */
  function ExpandShortHex(c: Option<string>): (r: Option<string>)
    ensures c.Some? && |c.value| == 4 ==> (r.Some? && |r.value| == 7 && r.value[0] == '#' &&
                                           r.value[1] == r.value[2] == c.value[1] && r.value[3] == r.value[4] == c.value[2] &&
                                           r.value[5] == r.value[6] == c.value[3])
    ensures !(c.Some? && |c.value| == 4) ==> r == c
  {
    if c.Some? && |c.value| == 4 then
      var s := c.value;
      Some(['#', s[1], s[1], s[2], s[2], s[3], s[3]])
    else c
  }

  /** "#rrggbb" back to "#rgb" when the pairs repeat. */
  function CompressHex(s: string): string
    requires |s| == 7
  {
    [s[0], s[1], s[3], s[5]]
  }

  /** Expanding a "#rgb" colour and compressing it gives the colour back; expanding twice is expanding once. */
  lemma ExpandShortHexInverse(c: string)
    requires |c| == 4 && c[0] == '#'
    ensures CompressHex(ExpandShortHex(Some(c)).value) == c
    ensures ExpandShortHex(ExpandShortHex(Some(c))) == ExpandShortHex(Some(c))
  {
  }

  /** The colour-fixing loop of holoviews_kwargs over the listed colour keys of a style dict. */
  method ExpandColors(style: map<string, Option<string>>, keys: seq<string>) returns (r: map<string, Option<string>>)
    requires forall i :: 0 <= i < |keys| ==> keys[i] in style
    ensures r.Keys == style.Keys
    ensures forall k :: k in style && k in keys ==> r[k] == ExpandShortHex(style[k])
    ensures forall k :: k in style && k !in keys ==> r[k] == style[k]
  {
    r := style;
    var i := 0;
    while i < |keys|
      invariant 0 <= i <= |keys|
      invariant r.Keys == style.Keys
      invariant forall k :: k in style && k in keys[..i] ==> r[k] == ExpandShortHex(style[k])
      invariant forall k :: k in style && k !in keys[..i] ==> r[k] == style[k]
    {
      var k := keys[i];
      if k in keys[..i] {
        // a repeated key: its colour is already at full length and does not change
        ExpandShortHexIdempotent(style[k]);
      }
      r := r[k := ExpandShortHex(r[k])];
      assert keys[..i + 1] == keys[..i] + [k];
      i := i + 1;
    }
    assert keys[..i] == keys;
  }

  lemma ExpandShortHexIdempotent(c: Option<string>)
    ensures ExpandShortHex(ExpandShortHex(c)) == ExpandShortHex(c)
  {
  }

  // ------------------------------------------------------------------
  // Label offsets
  // ------------------------------------------------------------------

  const Pi: real := 3.141592653589793
  const Sqr2: real := 1.41421356237

  /** A label offset: the literal "auto" or a number. */
  datatype Offset = Auto | Amount(v: real)

  /** The fields of LabelStyle that offset_from_marker reads and writes. */
  datatype LabelPlacement = LabelPlacement(anchorPoint: AnchorPoint, offsetX: Offset, offsetY: Offset)

  function EndsWithLeft(s: string): bool { |s| >= 4 && s[|s| - 4..] == "left" }
  function StartsWithBottom(s: string): bool { |s| >= 6 && s[..6] == "bottom" }

  /**
   * An anchor's name ends in "left" only for the two corner anchors on the
   * left, not for "left center"; it starts with "bottom" exactly for the
   * bottom anchors.
   */
  lemma AnchorNameParts(ap: AnchorPoint)
    ensures EndsWithLeft(AnchorValue(ap)) <==> ap in {TopLeft, BottomLeft}
    ensures StartsWithBottom(AnchorValue(ap)) <==> VerticalOf(ap) == "bottom"
  {
    var v := AnchorValue(ap);
    if |v| >= 4 && !(ap in {TopLeft, BottomLeft}) {
      assert v[|v| - 1] != 't' || v[|v| - 4] != 'l';
      assert v[|v| - 4..][3] == v[|v| - 1] && v[|v| - 4..][0] == v[|v| - 4];
    }
    if |v| >= 6 && VerticalOf(ap) != "bottom" {
      assert v[0] != 'b';
      assert v[..6][0] == v[0];
    }
    if ap in {TopLeft, BottomLeft} {
      assert v[|v| - 4..] == "left";
    }
    if VerticalOf(ap) == "bottom" {
      assert v[..6] == "bottom";
    }
  }

  /** The distance of an automatic offset from the marker. */
  function AutoOffset(symbol: MarkerSymbol, size: real, scale: real, sqrt: real -> real): real
    requires scale != 0.0
  {
    var base := sqrt(size) / 2.0 / scale;
    (if symbol == Point then base / Pi else if symbol != Square then base / Sqr2 * scale else base) + 1.1
  }

  /** The automatic offset is at least 1.1 when the scale is positive and the square root non-negative. */
  lemma AutoOffsetAtLeast(symbol: MarkerSymbol, size: real, scale: real, sqrt: real -> real)
    requires scale > 0.0 && sqrt(size) >= 0.0
    ensures AutoOffset(symbol, size, scale, sqrt) >= 1.1
  {
    var base := sqrt(size) / 2.0 / scale;
    assert base >= 0.0;
  }

  /** The y direction of offset_from_marker: down for the anchors whose name starts with "bottom". */
  function YDirection(ap: AnchorPoint): real
  {
    if StartsWithBottom(AnchorValue(ap)) then -1.0 else 1.0
  }

  /** The x direction as written: left only when the anchor's name ends with "left". */
  function XDirectionAsWritten(ap: AnchorPoint): real
  {
    if EndsWithLeft(AnchorValue(ap)) then -1.0 else 1.0
  }

  /** The x direction as intended: left for every anchor on the left side, "left center" included. */
  function XDirection(ap: AnchorPoint): real
  {
    if HorizontalOf(ap) == "left" then -1.0 else 1.0
  }

  /**
   * offset_from_marker with a given x direction: unchanged unless both
   * offsets are "auto"; then both are set from the marker size. A zero scale
   * raises (division by zero).
   */
  function PlaceLabel(style: LabelPlacement, symbol: MarkerSymbol, size: real, scale: real,
                      sqrt: real -> real, xDir: real): (r: Option<LabelPlacement>)
    ensures style.offsetX != Auto || style.offsetY != Auto ==> r == Some(style)
    ensures style.offsetX == Auto && style.offsetY == Auto ==> (r.None? <==> scale == 0.0)
    ensures r.Some? ==> r.value.anchorPoint == style.anchorPoint
  {
    if style.offsetX != Auto || style.offsetY != Auto then Some(style)
    else if scale == 0.0 then None
    else
      var offset := AutoOffset(symbol, size, scale, sqrt);
      Some(LabelPlacement(style.anchorPoint, Amount(offset * xDir), Amount(offset * YDirection(style.anchorPoint))))
  }

  /** LabelStyle.offset_from_marker as written. */
  function OffsetFromMarkerAsWritten(style: LabelPlacement, symbol: MarkerSymbol, size: real, scale: real,
                                     sqrt: real -> real): Option<LabelPlacement>
  {
    PlaceLabel(style, symbol, size, scale, sqrt, XDirectionAsWritten(style.anchorPoint))
  }

  /** LabelStyle.offset_from_marker with the x direction taken from the anchor's side. */
  function OffsetFromMarker(style: LabelPlacement, symbol: MarkerSymbol, size: real, scale: real,
                            sqrt: real -> real): Option<LabelPlacement>
  {
    PlaceLabel(style, symbol, size, scale, sqrt, XDirection(style.anchorPoint))
  }

  /**
   * As written: with a positive scale, an automatic offset is at least 1.1
   * away on each axis, negative in x exactly when the anchor's name ends with
   * "left" and negative in y exactly when it starts with "bottom".
   */
  lemma OffsetSignsAsWritten(style: LabelPlacement, symbol: MarkerSymbol, size: real, scale: real, sqrt: real -> real)
    requires style.offsetX == Auto && style.offsetY == Auto && scale > 0.0 && sqrt(size) >= 0.0
    ensures var r := OffsetFromMarkerAsWritten(style, symbol, size, scale, sqrt);
      r.Some? && r.value.offsetX.Amount? && r.value.offsetY.Amount? &&
      (r.value.offsetX.v < 0.0 <==> EndsWithLeft(AnchorValue(style.anchorPoint))) &&
      (r.value.offsetY.v < 0.0 <==> StartsWithBottom(AnchorValue(style.anchorPoint))) &&
      (r.value.offsetX.v >= 1.1 || r.value.offsetX.v <= -1.1) &&
      (r.value.offsetY.v >= 1.1 || r.value.offsetY.v <= -1.1)
  {
    AutoOffsetAtLeast(symbol, size, scale, sqrt);
  }

  /**
   * A "left center" label is pushed to the right of its marker, although
   * as_matplot right-aligns it, so that its text extends to the left.
   */
  lemma LeftCenterPushedRight(symbol: MarkerSymbol, size: real, scale: real, sqrt: real -> real)
    requires scale > 0.0 && sqrt(size) >= 0.0
    ensures AsMatplot(LeftCenter)["ha"] == "right"
    ensures var r := OffsetFromMarkerAsWritten(LabelPlacement(LeftCenter, Auto, Auto), symbol, size, scale, sqrt);
      r.Some? && r.value.offsetX.Amount? && r.value.offsetX.v > 0.0
  {
    AnchorNameParts(LeftCenter);
    AutoOffsetAtLeast(symbol, size, scale, sqrt);
  }

  /**
   * As intended: an automatic offset points the way the text extends, left
   * exactly when as_matplot right-aligns the text and down exactly when it
   * top-aligns it, at least 1.1 away on each axis.
   */
  lemma OffsetFollowsAlignment(style: LabelPlacement, symbol: MarkerSymbol, size: real, scale: real, sqrt: real -> real)
    requires style.offsetX == Auto && style.offsetY == Auto && scale > 0.0 && sqrt(size) >= 0.0
    ensures var r := OffsetFromMarker(style, symbol, size, scale, sqrt);
      r.Some? && r.value.offsetX.Amount? && r.value.offsetY.Amount? &&
      (r.value.offsetX.v < 0.0 <==> AsMatplot(style.anchorPoint)["ha"] == "right") &&
      (r.value.offsetY.v < 0.0 <==> AsMatplot(style.anchorPoint)["va"] == "top") &&
      (r.value.offsetX.v >= 1.1 || r.value.offsetX.v <= -1.1) &&
      (r.value.offsetY.v >= 1.1 || r.value.offsetY.v <= -1.1)
  {
    AutoOffsetAtLeast(symbol, size, scale, sqrt);
    DirectionsFollowAlignment(style.anchorPoint);
  }

  /** The intended directions point left for right-aligned text and down for top-aligned text. */
  lemma DirectionsFollowAlignment(ap: AnchorPoint)
    ensures XDirection(ap) == (if AsMatplot(ap)["ha"] == "right" then -1.0 else 1.0)
    ensures YDirection(ap) == (if AsMatplot(ap)["va"] == "top" then -1.0 else 1.0)
  {
    AnchorNameParts(ap);
  }

  // ------------------------------------------------------------------
  // Polygon to marker style
  // ------------------------------------------------------------------

  /** FillStyleEnum members used here. */
  datatype Fill = Full | NoFill

  /** The PolygonStyle fields to_marker_style reads; colours are already in hex form. */
  datatype PolygonStyle = PolygonStyle(color: Option<string>, fillColor: Option<string>, edgeColor: Option<string>,
                                       edgeWidth: real, alpha: real, zorder: int, lineStyle: LineStyleKind)

  datatype MarkerStyle = MarkerStyle(symbol: MarkerSymbol, color: Option<string>, fill: Fill, edgeColor: Option<string>,
                                     edgeWidth: real, alpha: real, zorder: int, lineStyle: LineStyleKind)

  /**
   * PolygonStyle.to_marker_style: the marker is filled exactly when the
   * polygon has a colour or a fill colour, and takes the colour first.
   */
  function ToMarkerStyle(p: PolygonStyle, symbol: MarkerSymbol): (m: MarkerStyle)
    ensures m.fill == Full <==> p.color.Some? || p.fillColor.Some?
    ensures m.color == (if p.color.Some? then p.color else p.fillColor)
    ensures m.fill == Full <==> m.color.Some?
    ensures (m.symbol, m.edgeColor, m.edgeWidth, m.alpha, m.zorder, m.lineStyle) ==
            (symbol, p.edgeColor, p.edgeWidth, p.alpha, p.zorder, p.lineStyle)
  {
    var fill := if p.color.Some? || p.fillColor.Some? then Full else NoFill;
    MarkerStyle(symbol, if p.color.Some? then p.color else p.fillColor, fill, p.edgeColor,
                p.edgeWidth, p.alpha, p.zorder, p.lineStyle)
  }

  // ------------------------------------------------------------------
  // DSO styles
  // ------------------------------------------------------------------

  /** DsoType; `OtherType` stands for any member the style table does not list. */
  datatype DsoType =
    | OpenCluster | GlobularCluster | Galaxy | GalaxyPair | GalaxyTriplet | GroupOfGalaxies
    | Nebula | PlanetaryNebula | EmissionNebula | StarClusterNebula | ReflectionNebula
    | StarType | DoubleStar | AssociationOfStars | DarkNebula | HiiIonizedRegion | SupernovaRemnant
    | NovaStar | Nonexistent | UnknownType | DuplicateRecord | OtherType

  /** PlotStyle.get_dso_style: the name of the PlotStyle field holding the type's style, or None. */
  function GetDsoStyle(t: DsoType): (r: Option<string>)
    ensures r.None? <==> t == OtherType
    ensures t in {Galaxy, GalaxyPair, GalaxyTriplet, GroupOfGalaxies} <==> r == Some("dso_galaxy")
    ensures t in {Nebula, EmissionNebula, StarClusterNebula, ReflectionNebula} <==> r == Some("dso_nebula")
  {
    match t
    case OpenCluster => Some("dso_open_cluster")
    case GlobularCluster => Some("dso_globular_cluster")
    case Galaxy | GalaxyPair | GalaxyTriplet | GroupOfGalaxies => Some("dso_galaxy")
    case Nebula | EmissionNebula | StarClusterNebula | ReflectionNebula => Some("dso_nebula")
    case PlanetaryNebula => Some("dso_planetary_nebula")
    case StarType => Some("star")
    case DoubleStar => Some("dso_double_star")
    case AssociationOfStars => Some("dso_association_stars")
    case DarkNebula => Some("dso_dark_nebula")
    case HiiIonizedRegion => Some("dso_hii_ionized_region")
    case SupernovaRemnant => Some("dso_supernova_remnant")
    case NovaStar => Some("dso_nova_star")
    case Nonexistent => Some("dso_nonexistant")
    case UnknownType => Some("dso_unknown")
    case DuplicateRecord => Some("dso_duplicate")
    case OtherType => None
  }
}
