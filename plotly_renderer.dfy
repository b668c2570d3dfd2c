/**
 * PlotlyRenderer: replays recorded DrawingCommands, in zorder, as Plotly
 * traces and annotations. Each command kind has a handler; a handler that
 * raises is skipped without affecting the others, and a kind without a
 * handler ("info_table") is ignored.
 */
module PlotlyRenderer {
  import opened Wrappers
  import opened PyValues
  import opened Commands
  import opened Sorting
  import opened StyleConverter

  // ------------------------------------------------------------------
  // Figure contents
  // ------------------------------------------------------------------

  /** One Plotly trace, by the handler that builds it. */
  datatype Trace =
    | Markers(x: Value, y: Value, sizes: seq<Float>, colors: Value, markerOpacity: Float, symbol: string,
              edgeColor: Value, edgeWidth: Float, hover: seq<string>,
              name: string, legendGroup: string, showLegend: bool)
    | Lines(x: Value, y: Value, color: Value, width: Float, dash: string, opacity: Value,
            name: string, legendGroup: string, showLegend: bool)
    | Segments(xs: seq<Value>, ys: seq<Value>, hoverNames: seq<Value>, color: Value, width: Float, opacity: Value,
               name: string, legendGroup: string, showLegend: bool)
    | Ring(xs: seq<Value>, ys: seq<Value>, fill: Option<string>, fillColor: Value, edgeColor: Value,
           edgeWidth: Float, opacity: Value, legendGroup: string, showLegend: bool)

  /** A text annotation (never an arrow). */
  datatype Annotation = Annotation(x: Value, y: Value, text: Value, fontSize: Float, fontColor: Value,
                                   fontFamily: Value, xanchor: string, yanchor: string, opacity: Value)

  /** The figure's data and the renderer's `_trace_groups`: group id to the indices of its traces. */
  datatype Scene = Scene(traces: seq<Trace>, annotations: seq<Annotation>, groups: map<string, seq<nat>>)

  /** Python's number formatting `f"{x:.nf}"` and `str(v)`, which the model takes as given. */
  datatype Formatter = Formatter(fixed: (Float, nat) -> string, show: Value -> string)

  /**
   * What the renderer needs besides the commands: the resolution stored in
   * the style info (any value, 4096 when absent), math.sqrt and the number
   * formatting.
   */
  datatype Setup = Setup(resolution: Value, sqrt: real -> real, fmt: Formatter)

  // ------------------------------------------------------------------
  // Legend names
  // ------------------------------------------------------------------

  /** The fixed legend names of the known group ids. */
  const LegendNames: map<string, string> := map[
    "stars" := "Stars", "constellations-line" := "Constellations", "constellations-border" := "Borders",
    "constellations-label-name" := "Labels", "ecliptic-line" := "Ecliptic",
    "celestial-equator-line" := "Celestial Equator", "planet-marker" := "Planets", "moon-marker" := "Moon",
    "sun-marker" := "Sun", "marker" := "Markers", "dso" := "DSOs", "dso_galaxy" := "Galaxies",
    "dso_nebula" := "Nebulae", "dso_open_cluster" := "Open Clusters", "dso_globular_cluster" := "Globular Clusters"]

  predicate IsUpper(c: char) { 'A' <= c <= 'Z' }
  predicate IsLower(c: char) { 'a' <= c <= 'z' }
  /** A cased character (ASCII letters only in this model). */
  predicate IsCased(c: char) { IsUpper(c) || IsLower(c) }

  function Upper(c: char): char { if IsLower(c) then (c as int - 32) as char else c }
  function Lower(c: char): char { if IsUpper(c) then (c as int + 32) as char else c }

  /** str.title() from a position whose preceding character is (`prevCased`) or is not cased. */
  function TitleFrom(s: string, prevCased: bool): string
  {
    if s == [] then []
    else if IsCased(s[0]) then [if prevCased then Lower(s[0]) else Upper(s[0])] + TitleFrom(s[1..], true)
    else [s[0]] + TitleFrom(s[1..], false)
  }

  /** str.title(): every cased run starts upper case and continues lower case. */
  function Title(s: string): string { TitleFrom(s, false) }

  /** `gid.replace("-", " ").replace("_", " ")`. */
  function Spaced(s: string): (r: string)
    ensures |r| == |s|
    ensures forall i :: 0 <= i < |s| ==> r[i] == (if s[i] == '-' || s[i] == '_' then ' ' else s[i])
  {
    if s == [] then [] else [if s[0] == '-' || s[0] == '_' then ' ' else s[0]] + Spaced(s[1..])
  }

  /** _gid_to_legend_name: the fixed name, else the gid spaced out and title-cased. */
  function GidToLegendName(gid: string): (r: string)
    ensures gid in LegendNames ==> r == LegendNames[gid]
  {
    if gid in LegendNames then LegendNames[gid] else Title(Spaced(gid))
  }

  /** Character by character, title-casing looks only at the character before. */
  lemma {:induction false} TitleFromAt(s: string, p: bool, i: nat)
    requires i < |s|
    ensures |TitleFrom(s, p)| == |s|
    ensures TitleFrom(s, p)[i] ==
      (if !IsCased(s[i]) then s[i]
       else if (if i == 0 then p else IsCased(s[i - 1])) then Lower(s[i])
       else Upper(s[i]))
  {
    if i == 0 {
      TitleFromLength(s[1..], IsCased(s[0]));
    } else {
      TitleFromAt(s[1..], IsCased(s[0]), i - 1);
    }
  }

  lemma {:induction false} TitleFromLength(s: string, p: bool)
    ensures |TitleFrom(s, p)| == |s|
  {
    if s != [] {
      TitleFromLength(s[1..], IsCased(s[0]));
    }
  }

  /**
   * A fallback legend name keeps the gid's length, holds no '-' or '_', and
   * is upper case exactly at the letters that start a word.
   */
  lemma FallbackLegendName(gid: string, i: nat)
    requires gid !in LegendNames && i < |gid|
    ensures |GidToLegendName(gid)| == |gid|
    ensures GidToLegendName(gid)[i] != '-' && GidToLegendName(gid)[i] != '_'
    ensures IsLower(gid[i]) && (i == 0 || !IsCased(gid[i - 1])) ==> IsUpper(GidToLegendName(gid)[i])
    ensures IsUpper(gid[i]) && i > 0 && IsCased(gid[i - 1]) ==> IsLower(GidToLegendName(gid)[i])
  {
    TitleFromAt(Spaced(gid), false, i);
  }

  /** Title-casing twice is the same as once. */
  lemma TitleIdempotent(s: string)
    ensures Title(Title(s)) == Title(s)
  {
    var t := Title(s);
    TitleFromLength(s, false);
    TitleFromLength(t, false);
    forall i | 0 <= i < |s| ensures Title(t)[i] == t[i] {
      TitleFromAt(s, false, i);
      TitleFromAt(t, false, i);
      if i > 0 {
        TitleFromAt(s, false, i - 1);
      }
    }
  }

  // ------------------------------------------------------------------
  // Hover texts
  // ------------------------------------------------------------------

  /** `str(v)`: a string is itself. */
  function Str(v: Value, fmt: Formatter): string
  {
    if v.VStr? then v.s else fmt.show(v)
  }

  /** `f"{v:.nf}"`: fails for a value that is not a number. */
  function Fixed(v: Value, digits: nat, fmt: Formatter): Option<string>
  {
    match ToFloat(v)
    case Some(f) => Some(fmt.fixed(f, digits))
    case None => None
  }

  /** `"<br>".join(parts)`. */
  function Join(parts: seq<string>, sep: string): string
  {
    if parts == [] then "" else if |parts| == 1 then parts[0] else parts[0] + sep + Join(parts[1..], sep)
  }

  /** `f"RA: {ra/15:.4f}h  DEC: {dec:.4f}°"`, right ascension in hours. */
  function RaDecLine(ra: Value, dec: Value, fmt: Formatter): Option<string>
  {
    match (ToFloat(ra), Fixed(dec, 4, fmt))
    case (Some(r), Some(d)) => Some("RA: " + fmt.fixed(Times(r, 1.0 / 15.0), 4) + "h  DEC: " + d + "°")
    case _ => None
  }

  /** The optional RA/DEC line: absent when either coordinate is None. */
  function RaDecPart(meta: map<string, Value>, fmt: Formatter): Option<seq<string>>
  {
    var ra := Get(meta, "ra", VNone);
    var dec := Get(meta, "dec", VNone);
    if ra == VNone || dec == VNone then Some([])
    else match RaDecLine(ra, dec, fmt)
      case Some(l) => Some([l])
      case None => None
  }

  /** The tooltip of a star: bold name, Bayer designation, magnitude, position, constellation. */
  function StarHover(meta: map<string, Value>, fmt: Formatter): Option<string>
  {
    var name := Get(meta, "name", VNone);
    var bayer := Get(meta, "bayer", VNone);
    var mag := Get(meta, "magnitude", VNone);
    var cons := Get(meta, "constellation", VNone);
    var head := if Truthy(name) then ["<b>" + Str(name, fmt) + "</b>"] else [];
    var magPart := if mag == VNone then []
      else ["Magnitude: " + (if mag.VFloat? then fmt.fixed(mag.f, 2) else Str(mag, fmt))];
    var consPart := if Truthy(cons) then ["Constellation: " + Str(cons, fmt)] else [];
    // the Bayer value itself goes into the join, which raises unless it is a string
    if Truthy(bayer) && !bayer.VStr? then None
    else
      var bayerPart := if Truthy(bayer) then [bayer.s] else [];
      match RaDecPart(meta, fmt)
      case Some(pos) => Some(Join(head + bayerPart + magPart + pos + consPart, "<br>"))
      case None => None
  }

  /** The tooltip of a deep-sky object: name (default "DSO"), type, magnitude to one decimal, position. */
  function DsoHover(meta: map<string, Value>, fmt: Formatter): Option<string>
  {
    var name := Get(meta, "name", VNone);
    var head := ["<b>" + (if Truthy(name) then Str(name, fmt) else "DSO") + "</b>"];
    var typePart := if Truthy(Get(meta, "dso_type", VNone)) then ["Type: " + Str(meta["dso_type"], fmt)] else [];
    var mag := Get(meta, "magnitude", VNone);
    var magPart := if mag == VNone then Some([]) else
      (match Fixed(mag, 1, fmt) case Some(m) => Some(["Magnitude: " + m]) case None => None);
    match (magPart, RaDecPart(meta, fmt))
    case (Some(m), Some(pos)) => Some(Join(head + typePart + m + pos, "<br>"))
    case _ => None
  }

  /** The tooltip of a planet: name (default "Planet") and magnitude to two decimals. */
  function PlanetHover(meta: map<string, Value>, fmt: Formatter): Option<string>
  {
    var name := Get(meta, "name", VNone);
    var head := ["<b>" + (if Truthy(name) then Str(name, fmt) else "Planet") + "</b>"];
    var mag := Get(meta, "magnitude", VNone);
    if mag == VNone then Some(Join(head, "<br>"))
    else match Fixed(mag, 2, fmt)
      case Some(m) => Some(Join(head + ["Magnitude: " + m], "<br>"))
      case None => None
  }

  /** The tooltip of one metadata entry; any other type gets "", a non-dict entry raises. */
  function HoverText(meta: Value, fmt: Formatter): (r: Option<string>)
    ensures !meta.VDict? ==> r.None?
    ensures meta.VDict? && !(Get(meta.entries, "type", VStr("")) in {VStr("star"), VStr("dso"), VStr("planet")}) ==> r == Some("")
  {
    if !meta.VDict? then None
    else
      var t := Get(meta.entries, "type", VStr(""));
      if t == VStr("star") then StarHover(meta.entries, fmt)
      else if t == VStr("dso") then DsoHover(meta.entries, fmt)
      else if t == VStr("planet") then PlanetHover(meta.entries, fmt)
      else Some("")
  }

  /** _build_hover_texts: one tooltip per metadata entry, or None when one of them raises. */
  function HoverTexts(metadata: seq<Value>, fmt: Formatter): (r: Option<seq<string>>)
    ensures r.Some? ==> |r.value| == |metadata|
    ensures r.Some? <==> forall i :: 0 <= i < |metadata| ==> HoverText(metadata[i], fmt).Some?
    ensures r.Some? ==> forall i :: 0 <= i < |metadata| ==> r.value[i] == HoverText(metadata[i], fmt).value
  {
    if metadata == [] then Some([])
    else
      var init := HoverTexts(metadata[..|metadata| - 1], fmt);
      var last := HoverText(metadata[|metadata| - 1], fmt);
      if init.Some? && last.Some? then Some(init.value + [last.value]) else None
  }

  /** The loop of _build_hover_texts. */
  method BuildHoverTexts(metadata: seq<Value>, fmt: Formatter) returns (texts: Option<seq<string>>)
    ensures texts == HoverTexts(metadata, fmt)
  {
    var acc: seq<string> := [];
    var i := 0;
    while i < |metadata|
      invariant 0 <= i <= |metadata|
      invariant HoverTexts(metadata[..i], fmt) == Some(acc)
    {
      assert metadata[..i + 1][..i] == metadata[..i];
      var t := HoverText(metadata[i], fmt);
      if t.None? {
        assert HoverTexts(metadata[..i + 1], fmt).None?;
        HoverTextsPrefixFails(metadata, i + 1, fmt);
        return None;
      }
      acc := acc + [t.value];
      i := i + 1;
    }
    assert metadata[..i] == metadata;
    texts := Some(acc);
  }

  /** Once a prefix fails, the whole list fails. */
  lemma HoverTextsPrefixFails(metadata: seq<Value>, k: nat, fmt: Formatter)
    requires k <= |metadata| && HoverTexts(metadata[..k], fmt).None?
    ensures HoverTexts(metadata, fmt).None?
  {
    var j :| 0 <= j < k && HoverText(metadata[..k][j], fmt).None?;
    assert metadata[..k][j] == metadata[j];
  }

  /** A star with no name, Bayer designation, magnitude, position or constellation gets an empty tooltip. */
  lemma EmptyStarHover(fmt: Formatter)
    ensures HoverText(VDict(map["type" := VStr("star")]), fmt) == Some("")
  {
  }

  // ------------------------------------------------------------------
  // Line collections
  // ------------------------------------------------------------------

  /** `[pt[j] for pt in pts]`, failing when some point has no index j. */
  function Coords(pts: seq<Value>, j: nat): (r: Option<seq<Value>>)
    ensures r.Some? ==> (|r.value| == |pts| && forall i :: 0 <= i < |pts| ==> Index(pts[i], j) == Some(r.value[i]))
    ensures r.Some? <==> forall i :: 0 <= i < |pts| ==> Index(pts[i], j).Some?
  {
    if pts == [] then Some([])
    else
      var init := Coords(pts[..|pts| - 1], j);
      var last := Index(pts[|pts| - 1], j);
      assert forall i :: 0 <= i < |pts| - 1 ==> pts[..|pts| - 1][i] == pts[i];
      if init.Some? && last.Some? then Some(init.value + [last.value]) else None
  }

  /** A segment's hover name: `metadata[i].get("name", "")`, or "" past the end; a non-dict raises. */
  function MetaName(metadata: seq<Value>, i: nat): Option<Value>
  {
    if i >= |metadata| then Some(VStr(""))
    else if metadata[i].VDict? then Some(Get(metadata[i].entries, "name", VStr("")))
    else None
  }

  /** n copies of v. */
  function Repeat(v: Value, n: nat): (r: seq<Value>)
    ensures |r| == n && forall i :: 0 <= i < n ==> r[i] == v
  {
    if n == 0 then [] else Repeat(v, n - 1) + [v]
  }

  /** Columns of the flattened collection: x, y and hover name of every point, a None row after each segment. */
  datatype Flat = Flat(xs: seq<Value>, ys: seq<Value>, hover: seq<Value>)

  /** The rows one segment adds. The metadata is read only when the segment has points. */
  function SegmentRows(seg: Value, metadata: seq<Value>, i: nat): (r: Option<Flat>)
    ensures r.Some? ==> PyList(seg).Some? && |r.value.xs| == |r.value.ys| == |r.value.hover| == |PyList(seg).value| + 1
    ensures r.Some? ==> (r.value.xs[|r.value.xs| - 1] == VNone && r.value.ys[|r.value.ys| - 1] == VNone &&
                         r.value.hover[|r.value.hover| - 1] == VNone)
  {
    match PyList(seg)
    case None => None
    case Some(pts) =>
      if pts == [] then Some(Flat([VNone], [VNone], [VNone]))
      else
        match (Coords(pts, 0), Coords(pts, 1), MetaName(metadata, i))
        case (Some(x), Some(y), Some(name)) => Some(Flat(x + [VNone], y + [VNone], Repeat(name, |pts|) + [VNone]))
        case _ => None
  }

  /** The rows of the first k segments. */
  function FlattenFirst(lines: seq<Value>, metadata: seq<Value>, k: nat): Option<Flat>
    requires k <= |lines|
  {
    if k == 0 then Some(Flat([], [], []))
    else
      match (FlattenFirst(lines, metadata, k - 1), SegmentRows(lines[k - 1], metadata, k - 1))
      case (Some(a), Some(b)) => Some(Flat(a.xs + b.xs, a.ys + b.ys, a.hover + b.hover))
      case _ => None
  }

  /** The number of rows the first k segments give: their points plus one separator each. */
  function RowCount(lines: seq<Value>, k: nat): nat
    requires k <= |lines|
  {
    if k == 0 then 0
    else RowCount(lines, k - 1) + (if PyList(lines[k - 1]).Some? then |PyList(lines[k - 1]).value| else 0) + 1
  }

  /** The flattened columns are equally long: every point plus one None separator per segment. */
  lemma {:induction false} FlattenLengths(lines: seq<Value>, metadata: seq<Value>, k: nat)
    requires k <= |lines| && FlattenFirst(lines, metadata, k).Some?
    ensures var f := FlattenFirst(lines, metadata, k).value;
      |f.xs| == |f.ys| == |f.hover| == RowCount(lines, k)
  {
    if k > 0 {
      FlattenLengths(lines, metadata, k - 1);
    }
  }

  /** Coords is the column of coordinates j, when every point has one. */
  lemma CoordsOf(pts: seq<Value>, j: nat, xs: seq<Value>)
    requires |xs| == |pts| && forall k :: 0 <= k < |pts| ==> Index(pts[k], j) == Some(xs[k])
    ensures Coords(pts, j) == Some(xs)
  {
    var c := Coords(pts, j);
    assert c.Some?;
    assert |c.value| == |xs| && forall k :: 0 <= k < |pts| ==> c.value[k] == xs[k];
    assert c.value == xs;
  }

  /** A segment whose point k lacks a coordinate, or whose metadata is not a dict, fails. */
  lemma SegmentRowsFails(seg: Value, metadata: seq<Value>, i: nat, k: nat)
    requires PyList(seg).Some? && k < |PyList(seg).value|
    requires Index(PyList(seg).value[k], 0).None? || Index(PyList(seg).value[k], 1).None? || MetaName(metadata, i).None?
    ensures SegmentRows(seg, metadata, i) == None
  {
  }

  /** The rows of a segment with points whose coordinates and name are all found. */
  lemma SegmentRowsFound(seg: Value, metadata: seq<Value>, i: nat, xs: seq<Value>, ys: seq<Value>, name: Value)
    requires PyList(seg).Some? && PyList(seg).value != []
    requires Coords(PyList(seg).value, 0) == Some(xs) && Coords(PyList(seg).value, 1) == Some(ys)
    requires MetaName(metadata, i) == Some(name)
    ensures SegmentRows(seg, metadata, i) == Some(Flat(xs + [VNone], ys + [VNone], Repeat(name, |PyList(seg).value|) + [VNone]))
  {
  }

  /** The inner loop of _render_line_collection: one segment's rows. */
  method FlattenSegment(seg: Value, metadata: seq<Value>, i: nat) returns (r: Option<Flat>)
    ensures r == SegmentRows(seg, metadata, i)
  {
    var pts := PyList(seg);
    if pts.None? {
      assert SegmentRows(seg, metadata, i) == None;
      return None;
    }
    var segX, segY, segH := [], [], [];
    var j := 0;
    while j < |pts.value|
      invariant 0 <= j <= |pts.value|
      invariant |segX| == |segY| == j
      invariant forall k :: 0 <= k < j ==> Index(pts.value[k], 0) == Some(segX[k]) && Index(pts.value[k], 1) == Some(segY[k])
      invariant j > 0 ==> MetaName(metadata, i).Some? && segH == Repeat(MetaName(metadata, i).value, j)
      invariant j == 0 ==> segH == []
    {
      var pt := pts.value[j];
      var px := Index(pt, 0);
      var py := Index(pt, 1);
      var name := MetaName(metadata, i);
      if px.None? || py.None? || name.None? {
        SegmentRowsFails(seg, metadata, i, j);
        return None;
      }
      assert Repeat(name.value, j + 1) == Repeat(name.value, j) + [name.value];
      segX, segY, segH := segX + [px.value], segY + [py.value], segH + [name.value];
      j := j + 1;
    }
    r := Some(Flat(segX + [VNone], segY + [VNone], segH + [VNone]));
    if j > 0 {
      CoordsOf(pts.value, 0, segX);
      CoordsOf(pts.value, 1, segY);
      SegmentRowsFound(seg, metadata, i, segX, segY, MetaName(metadata, i).value);
    } else {
      assert segX + [VNone] == segY + [VNone] == segH + [VNone] == [VNone];
    }
  }

  /** The outer loop of _render_line_collection: the segments in order. */
  method FlattenLineCollection(lines: seq<Value>, metadata: seq<Value>) returns (r: Option<Flat>)
    ensures r == FlattenFirst(lines, metadata, |lines|)
  {
    var xs, ys, hover := [], [], [];
    var i := 0;
    while i < |lines|
      invariant 0 <= i <= |lines|
      invariant FlattenFirst(lines, metadata, i) == Some(Flat(xs, ys, hover))
    {
      var rows := FlattenSegment(lines[i], metadata, i);
      FlattenStep(lines, metadata, i, Flat(xs, ys, hover), rows);
      if rows.None? {
        return None;
      }
      xs, ys, hover := xs + rows.value.xs, ys + rows.value.ys, hover + rows.value.hover;
      i := i + 1;
    }
    r := Some(Flat(xs, ys, hover));
  }

  /** One turn of the outer loop: the segment's rows extend the columns, or the collection fails. */
  lemma FlattenStep(lines: seq<Value>, metadata: seq<Value>, k: nat, f: Flat, rows: Option<Flat>)
    requires k < |lines| && FlattenFirst(lines, metadata, k) == Some(f)
    requires rows == SegmentRows(lines[k], metadata, k)
    ensures rows.None? ==> FlattenFirst(lines, metadata, |lines|).None?
    ensures rows.Some? ==>
      FlattenFirst(lines, metadata, k + 1) == Some(Flat(f.xs + rows.value.xs, f.ys + rows.value.ys, f.hover + rows.value.hover))
  {
    if rows.None? {
      FlattenFailsAfter(lines, metadata, k + 1);
    }
  }

  /** Once a segment fails, the whole collection does. */
  lemma {:induction false} FlattenFailsAfter(lines: seq<Value>, metadata: seq<Value>, k: nat)
    requires 0 < k <= |lines| && FlattenFirst(lines, metadata, k).None?
    ensures FlattenFirst(lines, metadata, |lines|).None?
    decreases |lines| - k
  {
    if k < |lines| {
      FlattenFailsAfter(lines, metadata, k + 1);
    }
  }

  // ------------------------------------------------------------------
  // Handlers
  // ------------------------------------------------------------------

  /** What a handler does to the figure. */
  datatype Outcome =
    | Failed                      // the handler raised; render() skips it
    | Skipped                     // the handler returned without drawing
    | NoHandler                   // no handler for this kind
    | AddTrace(trace: Trace)
    | AddAnnotation(annotation: Annotation)

  /** Every size calibrated at the renderer's resolution, or None when one of them raises. */
  function CalibrateAll(sizes: seq<Value>, resolution: Value, sqrt: real -> real): (r: Option<seq<Float>>)
    ensures r.Some? <==> forall i :: 0 <= i < |sizes| ==> CalibrateAt(sizes[i], resolution, 1.0, sqrt).Some?
    ensures r.Some? ==> |r.value| == |sizes|
    ensures r.Some? ==> forall i :: 0 <= i < |sizes| ==> Some(r.value[i]) == CalibrateAt(sizes[i], resolution, 1.0, sqrt)
    ensures r.Some? ==> forall i :: 0 <= i < |sizes| ==> AtLeast(r.value[i], 1.5)
  {
    if sizes == [] then Some([])
    else
      var front := sizes[..|sizes| - 1];
      assert forall i :: 0 <= i < |front| ==> front[i] == sizes[i];
      match (CalibrateAll(front, resolution, sqrt), CalibrateAt(sizes[|sizes| - 1], resolution, 1.0, sqrt))
      case (Some(a), Some(b)) => Some(a + [b])
      case _ => None
  }

  /** With no resolution in the style info, every size is calibrated at 4096. */
  lemma DefaultResolution(styleInfo: map<string, Value>, sizes: seq<Value>, sqrt: real -> real)
    requires "resolution" !in styleInfo
    ensures var r := CalibrateAll(sizes, Get(styleInfo, "resolution", VInt(4096)), sqrt);
      (r.Some? <==> forall i :: 0 <= i < |sizes| ==> CalibrateValue(sizes[i], 4096.0, 1.0, sqrt).Some?) &&
      (r.Some? ==> forall i :: 0 <= i < |sizes| ==> Some(r.value[i]) == CalibrateValue(sizes[i], 4096.0, 1.0, sqrt))
  {
  }

  /**
   * A scatter rendered by a renderer whose style info has no resolution has
   * each recorded size calibrated at 4096.
   */
  lemma ScatterSizesAtDefault(cmd: DrawingCommand, groups: map<string, seq<nat>>, styleInfo: map<string, Value>,
                              sqrt: real -> real, fmt: Formatter)
    requires "resolution" !in styleInfo
    requires RenderScatter(cmd, groups, Setup(Get(styleInfo, "resolution", VInt(4096)), sqrt, fmt)).AddTrace?
    ensures var raw := PyList(Get(cmd.data, "sizes", VList([]))).value;
      var t := RenderScatter(cmd, groups, Setup(Get(styleInfo, "resolution", VInt(4096)), sqrt, fmt)).trace;
      |t.sizes| == |raw| && forall i :: 0 <= i < |raw| ==> Some(t.sizes[i]) == CalibrateValue(raw[i], 4096.0, 1.0, sqrt)
  {
    var raw := PyList(Get(cmd.data, "sizes", VList([]))).value;
    DefaultResolution(styleInfo, raw, sqrt);
  }

  /** The alpha of a scatter trace: the first of a non-empty list, a single number, else 1.0. */
  function TraceAlpha(alphas: Value): Value
  {
    if alphas.VList? && alphas.items != [] then alphas.items[0]
    else if IsNumber(alphas) then alphas
    else VFloat(Fin(1.0))
  }

  /** `[calibrate_marker_size(s, resolution=resolution) for s in sizes_raw]` over the recorded sizes. */
  function ScatterSizes(cmd: DrawingCommand, setup: Setup): (r: Option<seq<Float>>)
    ensures r.Some? ==> PyList(Get(cmd.data, "sizes", VList([]))).Some?
  {
    var sizesRaw := PyList(Get(cmd.data, "sizes", VList([])));
    if sizesRaw.Some? then CalibrateAll(sizesRaw.value, setup.resolution, setup.sqrt) else None
  }

  /** _render_scatter. */
  function RenderScatter(cmd: DrawingCommand, groups: map<string, seq<nat>>, setup: Setup): (o: Outcome)
    ensures o.AddTrace? || o.Failed?
    ensures SymbolFor(Get(cmd.style, "symbol", VStr("circle"))).None? ==> o.Failed?
    ensures o.Failed? <==>
      HoverTexts(cmd.metadata, setup.fmt).None? || ScatterSizes(cmd, setup).None? ||
      ToFloat(TraceAlpha(Get(cmd.data, "alphas", VList([VFloat(Fin(1.0))])))).None? ||
      SymbolFor(Get(cmd.style, "symbol", VStr("circle"))).None? ||
      ScaledNumber(Get(cmd.style, "edge_width", VInt(0)), 0.3).None?
    ensures o.AddTrace? ==> (o.trace.Markers? && ScatterSizes(cmd, setup) == Some(o.trace.sizes) &&
                             HoverTexts(cmd.metadata, setup.fmt) == Some(o.trace.hover))
    ensures o.AddTrace? ==> (o.trace.Markers? && ToFloat(TraceAlpha(Get(cmd.data, "alphas", VList([VFloat(Fin(1.0))])))) == Some(o.trace.markerOpacity) &&
                             ScaledNumber(Get(cmd.style, "edge_width", VInt(0)), 0.3) == Some(o.trace.edgeWidth) &&
                             o.trace.x == Get(cmd.data, "x", VNone) && o.trace.y == Get(cmd.data, "y", VNone) &&
                             o.trace.colors == Get(cmd.data, "colors", VList([])) &&
                             o.trace.edgeColor == Get(cmd.style, "edge_color", VStr("rgba(0,0,0,0)")))
    ensures o.AddTrace? ==> (o.trace.Markers? && o.trace.legendGroup == cmd.gid &&
                             o.trace.name == GidToLegendName(cmd.gid) && (o.trace.showLegend <==> cmd.gid !in groups))
    ensures o.AddTrace? ==> (|o.trace.hover| == |cmd.metadata| &&
                             forall i :: 0 <= i < |o.trace.sizes| ==> AtLeast(o.trace.sizes[i], 1.5))
    ensures o.AddTrace? ==> SymbolFor(Get(cmd.style, "symbol", VStr("circle"))) == Some(o.trace.symbol)
  {
    var hover := HoverTexts(cmd.metadata, setup.fmt);
    var sizes := ScatterSizes(cmd, setup);
    var opacity := ToFloat(TraceAlpha(Get(cmd.data, "alphas", VList([VFloat(Fin(1.0))]))));
    var symbol := SymbolFor(Get(cmd.style, "symbol", VStr("circle")));
    var edgeWidth := ScaledNumber(Get(cmd.style, "edge_width", VInt(0)), 0.3);
    if hover.None? || sizes.None? || opacity.None? || symbol.None? || edgeWidth.None? then Failed
    else AddTrace(Markers(Get(cmd.data, "x", VNone), Get(cmd.data, "y", VNone), sizes.value,
      Get(cmd.data, "colors", VList([])), opacity.value, symbol.value,
      Get(cmd.style, "edge_color", VStr("rgba(0,0,0,0)")), edgeWidth.value, hover.value,
      GidToLegendName(cmd.gid), cmd.gid, cmd.gid !in groups))
  }

  /** The columns the nested loop builds from `cmd.data.get("lines", [])`; None when a segment raises. */
  function CollectionRows(cmd: DrawingCommand): (r: Option<Flat>)
    ensures r.Some? ==> PyList(Get(cmd.data, "lines", VList([]))).Some?
  {
    var lines := PyList(Get(cmd.data, "lines", VList([])));
    if lines.Some? then FlattenFirst(lines.value, cmd.metadata, |lines.value|) else None
  }

  /** _render_line_collection: one trace holding every segment, separated by None rows. */
  function RenderLineCollection(cmd: DrawingCommand, groups: map<string, seq<nat>>): (o: Outcome)
    ensures o.AddTrace? || o.Failed?
    ensures o.Failed? <==> CollectionRows(cmd).None? || ScaledNumber(Get(cmd.style, "width", VInt(1)), 0.3).None?
    ensures o.AddTrace? ==> (o.trace.Segments? && o.trace.legendGroup == cmd.gid &&
                             o.trace.name == GidToLegendName(cmd.gid) && (o.trace.showLegend <==> cmd.gid !in groups) &&
                             AtLeast(o.trace.width, 0.5))
    ensures o.AddTrace? ==> (o.trace.xs == CollectionRows(cmd).value.xs && o.trace.ys == CollectionRows(cmd).value.ys &&
                             o.trace.hoverNames == CollectionRows(cmd).value.hover)
    ensures o.AddTrace? ==> (o.trace.width == MaxWith(0.5, ScaledNumber(Get(cmd.style, "width", VInt(1)), 0.3).value) &&
                             o.trace.color == Get(cmd.style, "color", VStr("#aaaaaa")) &&
                             o.trace.opacity == Get(cmd.style, "alpha", VFloat(Fin(1.0))))
  {
    var flat := CollectionRows(cmd);
    var width := ScaledNumber(Get(cmd.style, "width", VInt(1)), 0.3);
    if flat.None? || width.None? then Failed
    else AddTrace(Segments(flat.value.xs, flat.value.ys, flat.value.hover, Get(cmd.style, "color", VStr("#aaaaaa")),
      MaxWith(0.5, width.value), Get(cmd.style, "alpha", VFloat(Fin(1.0))),
      GidToLegendName(cmd.gid), cmd.gid, cmd.gid !in groups))
  }

  /** The trace's three columns hold one row per point and one None row per segment. */
  lemma LineCollectionTraceRows(cmd: DrawingCommand, groups: map<string, seq<nat>>)
    requires RenderLineCollection(cmd, groups).AddTrace?
    ensures var lines := PyList(Get(cmd.data, "lines", VList([]))).value;
      var t := RenderLineCollection(cmd, groups).trace;
      |t.xs| == |t.ys| == |t.hoverNames| == RowCount(lines, |lines|)
  {
    var lines := PyList(Get(cmd.data, "lines", VList([]))).value;
    FlattenLengths(lines, cmd.metadata, |lines|);
  }

  /**
   * _render_polygon: falsy points draw nothing; otherwise a closed ring whose
   * last vertex repeats the first, never in the legend.
   */
  function RenderPolygon(cmd: DrawingCommand): (o: Outcome)
    ensures !Truthy(Get(cmd.data, "points", VList([]))) ==> o == Skipped
    ensures o.AddTrace? || o.Failed? || o.Skipped?
    ensures o.AddTrace? ==> (o.trace.Ring? && !o.trace.showLegend && o.trace.legendGroup == cmd.gid &&
                             (o.trace.fill.Some? <==> Truthy(Get(cmd.style, "fill_color", VNone))) &&
                             AtLeast(o.trace.edgeWidth, 0.0))
    ensures o.AddTrace? ==> (var pts := PyList(Get(cmd.data, "points", VList([])));
                             pts.Some? && |o.trace.xs| == |o.trace.ys| == |pts.value| + 1 &&
                             o.trace.xs[|pts.value|] == o.trace.xs[0] && o.trace.ys[|pts.value|] == o.trace.ys[0] &&
                             forall i :: 0 <= i < |pts.value| ==>
                               Index(pts.value[i], 0) == Some(o.trace.xs[i]) && Index(pts.value[i], 1) == Some(o.trace.ys[i]))
  {
    var points := Get(cmd.data, "points", VList([]));
    if !Truthy(points) then Skipped
    else
      var pts := PyList(points);
      var width := ScaledNumber(Get(cmd.style, "edge_width", VInt(0)), 0.3);
      if pts.None? || width.None? then Failed
      else
        var x := Coords(pts.value, 0);
        var y := Coords(pts.value, 1);
        if x.None? || y.None? || pts.value == [] then Failed
        else
          var fillColor := Get(cmd.style, "fill_color", VNone);
          AddTrace(Ring(x.value + [x.value[0]], y.value + [y.value[0]], if Truthy(fillColor) then Some("toself") else None,
            fillColor, Get(cmd.style, "edge_color", VStr("rgba(0,0,0,0)")), MaxWith(0.0, width.value),
            Get(cmd.style, "alpha", VFloat(Fin(1.0))), cmd.gid, false))
  }

  /** _render_text: an annotation at the command's point with the converted anchors. */
  function RenderText(cmd: DrawingCommand): (o: Outcome)
    ensures o.AddAnnotation? || o.Failed?
    ensures o.Failed? <==>
      AnchorFor(Get(cmd.style, "va", VStr("center")), Get(cmd.style, "ha", VStr("center"))).None? ||
      ToFloat(Get(cmd.style, "font_size", VInt(12))).None?
    ensures o.AddAnnotation? ==> (AtLeast(o.annotation.fontSize, 8.0) &&
                                  AnchorFor(Get(cmd.style, "va", VStr("center")), Get(cmd.style, "ha", VStr("center"))) ==
                                    Some((o.annotation.yanchor, o.annotation.xanchor)) &&
                                  o.annotation.text == Get(cmd.data, "text", VStr("")))
  {
    var anchor := AnchorFor(Get(cmd.style, "va", VStr("center")), Get(cmd.style, "ha", VStr("center")));
    match ScaledNumber(Get(cmd.style, "font_size", VInt(12)), 0.4)
    case None => Failed
    case Some(fs) =>
      if anchor.None? then Failed
      else AddAnnotation(Annotation(Get(cmd.data, "x", VNone), Get(cmd.data, "y", VNone), Get(cmd.data, "text", VStr("")),
        MaxWith(8.0, fs), Get(cmd.style, "font_color", VStr("#ffffff")),
        Get(cmd.style, "font_name", VStr("Inter, Arial, sans-serif")), anchor.value.1, anchor.value.0,
        Get(cmd.style, "alpha", VFloat(Fin(1.0)))))
  }

  /** _render_line. */
  function RenderLine(cmd: DrawingCommand, groups: map<string, seq<nat>>): (o: Outcome)
    ensures o.AddTrace? || o.Failed?
    ensures o.Failed? <==> ScaledNumber(Get(cmd.style, "width", VInt(1)), 0.3).None?
    ensures o.AddTrace? ==> (o.trace.Lines? && o.trace.width == MaxWith(0.5, ScaledNumber(Get(cmd.style, "width", VInt(1)), 0.3).value) &&
                             o.trace.color == Get(cmd.style, "color", VStr("#777777")) &&
                             o.trace.opacity == Get(cmd.style, "alpha", VFloat(Fin(1.0))) &&
                             o.trace.x == Get(cmd.data, "x", VNone) && o.trace.y == Get(cmd.data, "y", VNone))
    ensures o.AddTrace? ==> (o.trace.Lines? && o.trace.legendGroup == cmd.gid &&
                             o.trace.name == GidToLegendName(cmd.gid) && (o.trace.showLegend <==> cmd.gid !in groups) &&
                             AtLeast(o.trace.width, 0.5) && o.trace.dash == DashFor(Get(cmd.style, "line_style", VStr("solid"))))
  {
    match ScaledNumber(Get(cmd.style, "width", VInt(1)), 0.3)
    case None => Failed
    case Some(w) =>
      AddTrace(Lines(Get(cmd.data, "x", VNone), Get(cmd.data, "y", VNone), Get(cmd.style, "color", VStr("#777777")),
        MaxWith(0.5, w), DashFor(Get(cmd.style, "line_style", VStr("solid"))), Get(cmd.style, "alpha", VFloat(Fin(1.0))),
        GidToLegendName(cmd.gid), cmd.gid, cmd.gid !in groups))
  }

  /** The handler table of render(); "gradient" is accepted and draws nothing. */
  function Handle(cmd: DrawingCommand, groups: map<string, seq<nat>>, setup: Setup): (o: Outcome)
    ensures o.AddTrace? && o.trace.Ring? ==> !o.trace.showLegend
    ensures o.AddTrace? && !o.trace.Ring? ==> (o.trace.showLegend <==> o.trace.legendGroup !in groups)
    ensures o.NoHandler? <==> cmd.kind !in {"scatter", "line", "polygon", "text", "line_collection", "gradient"}
  {
    match cmd.kind
    case "scatter" => RenderScatter(cmd, groups, setup)
    case "line" => RenderLine(cmd, groups)
    case "polygon" => RenderPolygon(cmd)
    case "text" => RenderText(cmd)
    case "line_collection" => RenderLineCollection(cmd, groups)
    case "gradient" => Skipped
    case _ => NoHandler
  }

  /** `self._trace_groups.setdefault(gid, []).append(idx)`. */
  function AddToGroup(groups: map<string, seq<nat>>, gid: string, idx: nat): (r: map<string, seq<nat>>)
    ensures r.Keys == groups.Keys + {gid}
    ensures r[gid] == (if gid in groups then groups[gid] else []) + [idx]
    ensures forall g :: g in groups && g != gid ==> r[g] == groups[g]
  {
    groups[gid := (if gid in groups then groups[gid] else []) + [idx]]
  }

  /** A handler's effect on the figure: nothing when it raised, returned early or does not exist. */
  function Effect(s: Scene, o: Outcome): Scene
  {
    match o
    case AddTrace(t) =>
      Scene(s.traces + [t], s.annotations,
        if t.Ring? then s.groups else AddToGroup(s.groups, t.legendGroup, |s.traces|))
    case AddAnnotation(a) => Scene(s.traces, s.annotations + [a], s.groups)
    case _ => s
  }

  /** One command of render(): the effect of its kind's handler. */
  function Step(s: Scene, cmd: DrawingCommand, setup: Setup): Scene
  {
    Effect(s, Handle(cmd, s.groups, setup))
  }

  /** Commands applied in order. */
  function Replay(s: Scene, cmds: seq<DrawingCommand>, setup: Setup): Scene
  {
    if cmds == [] then s else Step(Replay(s, cmds[..|cmds| - 1], setup), cmds[|cmds| - 1], setup)
  }

  /** render()'s order: ascending zorder, equal layers in recording order. */
  function ByZorder(cmds: seq<DrawingCommand>): seq<DrawingCommand>
  {
    SortBy(cmds, (c: DrawingCommand) => c.zorder as real)
  }

  /** The render order is ascending in zorder, a rearrangement of the log, and stable within a layer. */
  lemma ByZorderCorrect(cmds: seq<DrawingCommand>, z: int)
    ensures forall i, j :: 0 <= i < j < |ByZorder(cmds)| ==> ByZorder(cmds)[i].zorder <= ByZorder(cmds)[j].zorder
    ensures multiset(ByZorder(cmds)) == multiset(cmds)
    ensures WithKey(ByZorder(cmds), (c: DrawingCommand) => c.zorder as real, z as real) ==
            WithKey(cmds, (c: DrawingCommand) => c.zorder as real, z as real)
  {
    var key := (c: DrawingCommand) => c.zorder as real;
    SortBySorted(cmds, key);
    SortByPermutes(cmds, key);
    SortByStable(cmds, key, z as real);
  }

  // ------------------------------------------------------------------
  // Properties of a replay
  // ------------------------------------------------------------------

  /** Replaying two runs of commands is replaying the first, then the second. */
  lemma {:induction false} ReplayAppend(s: Scene, a: seq<DrawingCommand>, b: seq<DrawingCommand>, setup: Setup)
    ensures Replay(s, a + b, setup) == Replay(Replay(s, a, setup), b, setup)
  {
    if b == [] {
      assert a + b == a;
    } else {
      assert (a + b)[..|a + b| - 1] == a + b[..|b| - 1];
      ReplayAppend(s, a, b[..|b| - 1], setup);
    }
  }

  /** Whether a handler fails does not depend on which groups already exist. */
  lemma HandleFailureIgnoresGroups(cmd: DrawingCommand, g1: map<string, seq<nat>>, g2: map<string, seq<nat>>, setup: Setup)
    ensures Handle(cmd, g1, setup).Failed? == Handle(cmd, g2, setup).Failed?
    ensures Handle(cmd, g1, setup).Skipped? == Handle(cmd, g2, setup).Skipped?
    ensures Handle(cmd, g1, setup).NoHandler? == Handle(cmd, g2, setup).NoHandler?
  {
  }

  /** A command that draws nothing: its handler raises, returns early, or does not exist. */
  predicate DrawsNothing(cmd: DrawingCommand, setup: Setup)
  {
    var o := Handle(cmd, map[], setup);
    o.Failed? || o.Skipped? || o.NoHandler?
  }

  /**
   * Error isolation: a command whose handler raises (or that draws nothing)
   * leaves the figure exactly as if it had never been recorded.
   */
  lemma DroppedCommandIsInvisible(s: Scene, before: seq<DrawingCommand>, cmd: DrawingCommand, after: seq<DrawingCommand>, setup: Setup)
    requires DrawsNothing(cmd, setup)
    ensures Replay(s, before + [cmd] + after, setup) == Replay(s, before + after, setup)
  {
    var mid := Replay(s, before, setup);
    HandleFailureIgnoresGroups(cmd, map[], mid.groups, setup);
    ReplayAppend(s, before + [cmd], after, setup);
    ReplayAppend(s, before, [cmd], setup);
    ReplayAppend(s, before, after, setup);
    assert Replay(mid, [cmd], setup) == Step(Replay(mid, [], setup), cmd, setup);
  }

  /** info_table commands are recorded but never rendered. */
  lemma InfoTableNotRendered(cmd: DrawingCommand, setup: Setup)
    requires cmd.kind == "info_table"
    ensures DrawsNothing(cmd, setup)
  {
  }

  /**
   * The legend bookkeeping: every group index names a trace of that group,
   * every group's first trace shows the legend, and no two traces of one
   * group do.
   */
  ghost predicate LegendOk(s: Scene)
  {
    GroupsPointBack(s) && GroupsStartShown(s) && ShownGrouped(s) && ShownOnce(s)
  }

  /** Every index of a group names a non-polygon trace of that group. */
  ghost predicate GroupsPointBack(s: Scene)
  {
    forall g, n {:trigger n in s.groups[g]} :: g in s.groups && n in s.groups[g] ==>
      n < |s.traces| && s.traces[n].legendGroup == g && !s.traces[n].Ring?
  }

  /** Every group's first trace is the one that shows in the legend. */
  ghost predicate GroupsStartShown(s: Scene)
  {
    forall g :: g in s.groups ==> s.groups[g] != [] && s.groups[g][0] < |s.traces| && s.traces[s.groups[g][0]].showLegend
  }

  /** A trace shown in the legend belongs to a recorded group. */
  ghost predicate ShownGrouped(s: Scene)
  {
    forall i :: 0 <= i < |s.traces| && s.traces[i].showLegend ==> s.traces[i].legendGroup in s.groups
  }

  /** No two traces of one group show in the legend. */
  ghost predicate ShownOnce(s: Scene)
  {
    forall i, j :: 0 <= i < j < |s.traces| && s.traces[i].showLegend && s.traces[j].showLegend ==>
      s.traces[i].legendGroup != s.traces[j].legendGroup
  }

  /** The scene after adding trace t, registering it in its group unless it is a polygon. */
  function WithTrace(s: Scene, t: Trace): Scene
  {
    Scene(s.traces + [t], s.annotations, if t.Ring? then s.groups else AddToGroup(s.groups, t.legendGroup, |s.traces|))
  }

  /** Adding a trace keeps every group index pointing at a trace of its group. */
  lemma WithTracePointsBack(s: Scene, t: Trace)
    requires GroupsPointBack(s)
    ensures GroupsPointBack(WithTrace(s, t))
  {
    var s' := WithTrace(s, t);
    forall g, n | g in s'.groups && n in s'.groups[g]
      ensures n < |s'.traces| && s'.traces[n].legendGroup == g && !s'.traces[n].Ring?
    {
      if !t.Ring? && g == t.legendGroup && n != |s.traces| {
        assert n in s.groups[g];
        assert s'.traces[n] == s.traces[n];
      } else if t.Ring? || g != t.legendGroup {
        assert s'.groups[g] == s.groups[g];
        assert s'.traces[n] == s.traces[n];
      }
    }
  }

  /** Adding a trace that shows when its group is new keeps every group's first trace shown. */
  lemma WithTraceStartsShown(s: Scene, t: Trace)
    requires GroupsStartShown(s)
    requires !t.Ring? ==> (t.showLegend <==> t.legendGroup !in s.groups)
    ensures GroupsStartShown(WithTrace(s, t))
  {
    var s' := WithTrace(s, t);
    forall g | g in s'.groups
      ensures s'.groups[g] != [] && s'.groups[g][0] < |s'.traces| && s'.traces[s'.groups[g][0]].showLegend
    {
      if g in s.groups {
        assert s'.groups[g][0] == s.groups[g][0];
        assert s'.traces[s.groups[g][0]] == s.traces[s.groups[g][0]];
      }
    }
  }

  /** Adding a trace that shows only when it is grouped keeps every shown trace grouped. */
  lemma WithTraceShownGrouped(s: Scene, t: Trace)
    requires ShownGrouped(s)
    requires t.Ring? ==> !t.showLegend
    ensures ShownGrouped(WithTrace(s, t))
  {
    var s' := WithTrace(s, t);
    forall i | 0 <= i < |s'.traces| && s'.traces[i].showLegend ensures s'.traces[i].legendGroup in s'.groups {
      if i < |s.traces| {
        assert s'.traces[i] == s.traces[i];
      }
    }
  }

  /** Adding a trace that shows only for a new group keeps one shown trace per group. */
  lemma WithTraceShownOnce(s: Scene, t: Trace)
    requires ShownOnce(s) && ShownGrouped(s)
    requires t.Ring? ==> !t.showLegend
    requires !t.Ring? ==> (t.showLegend <==> t.legendGroup !in s.groups)
    ensures ShownOnce(WithTrace(s, t))
  {
    var s' := WithTrace(s, t);
    forall i, j | 0 <= i < j < |s'.traces| && s'.traces[i].showLegend && s'.traces[j].showLegend
      ensures s'.traces[i].legendGroup != s'.traces[j].legendGroup
    {
      assert s'.traces[i] == s.traces[i];
      if j < |s.traces| {
        assert s'.traces[j] == s.traces[j];
      }
    }
  }

  /** A trace that shows in the legend exactly when its group is new keeps the bookkeeping. */
  lemma WithTraceKeepsLegendOk(s: Scene, t: Trace)
    requires LegendOk(s)
    requires t.Ring? ==> !t.showLegend
    requires !t.Ring? ==> (t.showLegend <==> t.legendGroup !in s.groups)
    ensures LegendOk(WithTrace(s, t))
  {
    WithTracePointsBack(s, t);
    WithTraceStartsShown(s, t);
    WithTraceShownGrouped(s, t);
    WithTraceShownOnce(s, t);
  }

  lemma StepKeepsLegendOk(s: Scene, cmd: DrawingCommand, setup: Setup)
    requires LegendOk(s)
    ensures LegendOk(Step(s, cmd, setup))
  {
    var o := Handle(cmd, s.groups, setup);
    if o.AddTrace? {
      assert Step(s, cmd, setup) == WithTrace(s, o.trace);
      WithTraceKeepsLegendOk(s, o.trace);
    }
  }

  /** Replays keep the legend bookkeeping: each group shows up in the legend exactly once. */
  lemma {:induction false} ReplayKeepsLegendOk(s: Scene, cmds: seq<DrawingCommand>, setup: Setup)
    requires LegendOk(s)
    ensures LegendOk(Replay(s, cmds, setup))
  {
    if cmds != [] {
      ReplayKeepsLegendOk(s, cmds[..|cmds| - 1], setup);
      StepKeepsLegendOk(Replay(s, cmds[..|cmds| - 1], setup), cmds[|cmds| - 1], setup);
    }
  }

  /** In a scene with the legend bookkeeping, each recorded group has exactly one legend trace. */
  lemma OneLegendEntryPerGroup(s: Scene, g: string)
    requires LegendOk(s) && g in s.groups
    ensures exists i :: 0 <= i < |s.traces| && s.traces[i].showLegend && s.traces[i].legendGroup == g
    ensures forall i, j ::
      (0 <= i < |s.traces| && 0 <= j < |s.traces| &&
       s.traces[i].showLegend && s.traces[i].legendGroup == g &&
       s.traces[j].showLegend && s.traces[j].legendGroup == g) ==> i == j
  {
    var n := s.groups[g][0];
    assert n in s.groups[g];
  }

  // ------------------------------------------------------------------
  // Layout and the renderer
  // ------------------------------------------------------------------

  /** The layout update of _setup_layout that depends on the plot's info. */
  datatype Layout = Layout(plotBgColor: Value, paperBgColor: Value,
                           xRange: Option<(Value, Value)>, yRange: Option<(Value, Value)>,
                           hoverMode: string, dragMode: string, showLegend: bool)

  /** The layout: background colours default to white; an axis range only when both of its limits are set. */
  function SetupLayout(projectionInfo: map<string, Value>, styleInfo: map<string, Value>): (l: Layout)
    ensures l.xRange.Some? <==> Get(projectionInfo, "x_min", VNone) != VNone && Get(projectionInfo, "x_max", VNone) != VNone
    ensures l.yRange.Some? <==> Get(projectionInfo, "y_min", VNone) != VNone && Get(projectionInfo, "y_max", VNone) != VNone
    ensures l.xRange.Some? ==> l.xRange.value == (projectionInfo["x_min"], projectionInfo["x_max"])
    ensures l.yRange.Some? ==> l.yRange.value == (projectionInfo["y_min"], projectionInfo["y_max"])
    ensures "background_color" !in styleInfo ==> l.plotBgColor == VStr("#ffffff")
  {
    var xMin := Get(projectionInfo, "x_min", VNone);
    var xMax := Get(projectionInfo, "x_max", VNone);
    var yMin := Get(projectionInfo, "y_min", VNone);
    var yMax := Get(projectionInfo, "y_max", VNone);
    Layout(Get(styleInfo, "background_color", VStr("#ffffff")), Get(styleInfo, "figure_background_color", VStr("#ffffff")),
      if xMin != VNone && xMax != VNone then Some((xMin, xMax)) else None,
      if yMin != VNone && yMax != VNone then Some((yMin, yMax)) else None,
      "closest", "pan", true)
  }

  /** _add_interactive_features: the mode-bar buttons and click mode. */
  datatype Interaction = Interaction(modeBarAdd: seq<string>, clickMode: string)

  const InteractiveFeatures: Interaction :=
    Interaction(["zoom", "pan", "select", "lasso2d", "resetScale2d"], "event+select")

  class Renderer {
    const setup: Setup
    const layout: Layout
    var traces: seq<Trace>
    var annotations: seq<Annotation>
    var traceGroups: map<string, seq<nat>>
    var interaction: Option<Interaction>

    function Contents(): Scene
      reads this
    {
      Scene(traces, annotations, traceGroups)
    }

    ghost predicate Valid()
      reads this
    {
      LegendOk(Contents())
    }

    /**
     * __init__: an empty figure with the layout set up. _render_scatter reads
     * `style_info.get("resolution", 4096)`; the style info never changes, so
     * that value is taken once here.
     */
    constructor (projectionInfo: map<string, Value>, styleInfo: map<string, Value>,
                 sqrt: real -> real, fmt: Formatter)
      ensures Valid()
      ensures Contents() == Scene([], [], map[]) && interaction.None?
      ensures layout == SetupLayout(projectionInfo, styleInfo)
      ensures setup == Setup(Get(styleInfo, "resolution", VInt(4096)), sqrt, fmt)
    {
      setup := Setup(Get(styleInfo, "resolution", VInt(4096)), sqrt, fmt);
      layout := SetupLayout(projectionInfo, styleInfo);
      traces, annotations, traceGroups := [], [], map[];
      interaction := None;
    }

    /**
     * One iteration of render()'s loop: the kind's handler updates the figure
     * and the legend groups; a handler that raises changes nothing.
     */
    method Dispatch(cmd: DrawingCommand)
      modifies this
      ensures Contents() == Step(old(Contents()), cmd, setup)
      ensures interaction == old(interaction)
    {
      var outcome := Handle(cmd, traceGroups, setup);
      match outcome {
        case AddTrace(t) =>
          if !t.Ring? {
            traceGroups := AddToGroup(traceGroups, t.legendGroup, |traces|);
          }
          traces := traces + [t];
        case AddAnnotation(a) =>
          annotations := annotations + [a];
        case _ =>
      }
    }

    /** render(): replays the commands in zorder, then switches on the interactive features. */
    method Render(commands: seq<DrawingCommand>) returns (fig: Scene)
      requires Valid()
      modifies this
      ensures Valid()
      ensures Contents() == Replay(old(Contents()), ByZorder(commands), setup)
      ensures interaction == Some(InteractiveFeatures)
      ensures fig == Contents()
    {
      var ordered := ByZorder(commands);
      var i := 0;
      while i < |ordered|
        invariant 0 <= i <= |ordered|
        invariant Contents() == Replay(old(Contents()), ordered[..i], setup)
      {
        assert ordered[..i + 1][..i] == ordered[..i];
        Dispatch(ordered[i]);
        i := i + 1;
      }
      assert ordered[..i] == ordered;
      ReplayKeepsLegendOk(old(Contents()), ordered, setup);
      interaction := Some(InteractiveFeatures);
      fig := Contents();
    }
  }
}
