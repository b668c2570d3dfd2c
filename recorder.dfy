/**
 * DrawingRecorder: an append-only log of drawing commands plus the
 * projection and style information captured once per plot.
 */
module Recorder {
  import opened Wrappers
  import opened PyValues
  import opened Commands

  /**
   * The per-point list stored for colours or alphas: a scalar (`isScalar`) is
   * repeated once per x coordinate, anything else goes through `list()`.
   */
  function Broadcast(v: Value, isScalar: bool, n: nat): (r: Option<seq<Value>>)
    ensures isScalar ==> r.Some? && |r.value| == n && forall i :: 0 <= i < n ==> r.value[i] == v
    ensures !isScalar ==> r == PyList(v)
  {
    if isScalar then Some(seq(n, _ => v)) else PyList(v)
  }

  /**
   * The command record_scatter appends. Colours are broadcast when they are a
   * single string, alphas when they are a single number; None when one of
   * the `list()` conversions raises.
   */
  function ScatterCommand(x: Value, y: Value, sizes: Value, colors: Value, alphas: Value,
                          metadata: Value, styleDict: Option<map<string, Value>>,
                          gid: string, zorder: int): (r: Option<DrawingCommand>)
    ensures r.Some? <==>
      PyList(x).Some? && PyList(y).Some? && PyList(sizes).Some? && PyList(metadata).Some? &&
      (colors.VStr? || PyList(colors).Some?) && (IsNumber(alphas) || PyList(alphas).Some?)
    ensures r.Some? ==>
      var c := r.value;
      c.kind == "scatter" && c.gid == gid && c.zorder == zorder &&
      c.data.Keys == {"x", "y", "sizes", "colors", "alphas"} &&
      c.data["x"] == VList(PyList(x).value) && c.data["y"] == VList(PyList(y).value) &&
      c.data["sizes"] == VList(PyList(sizes).value) &&
      c.data["colors"].VList? && c.data["alphas"].VList? &&
      (!colors.VStr? ==> c.data["colors"] == VList(PyList(colors).value)) &&
      (!IsNumber(alphas) ==> c.data["alphas"] == VList(PyList(alphas).value)) &&
      (colors.VStr? ==> (|c.data["colors"].items| == |PyList(x).value| &&
        forall i :: 0 <= i < |c.data["colors"].items| ==> c.data["colors"].items[i] == colors)) &&
      (IsNumber(alphas) ==> (|c.data["alphas"].items| == |PyList(x).value| &&
        forall i :: 0 <= i < |c.data["alphas"].items| ==> c.data["alphas"].items[i] == alphas)) &&
      c.style == (if styleDict.Some? then styleDict.value else map[]) &&
      c.metadata == PyList(metadata).value
  {
    match (PyList(x), PyList(y), PyList(sizes), PyList(metadata),
           Broadcast(colors, colors.VStr?, if PyList(x).Some? then |PyList(x).value| else 0),
           Broadcast(alphas, IsNumber(alphas), if PyList(x).Some? then |PyList(x).value| else 0))
    case (Some(xs), Some(ys), Some(ss), Some(md), Some(cs), Some(al)) =>
      Some(DrawingCommand("scatter",
        map["x" := VList(xs), "y" := VList(ys), "sizes" := VList(ss),
            "colors" := VList(cs), "alphas" := VList(al)],
        if styleDict.Some? then styleDict.value else map[], md, zorder, gid))
    case _ => None
  }

  /** The command record_line appends: a polyline through the points (x[i], y[i]). */
  function LineCommand(x: Value, y: Value, styleDict: map<string, Value>, gid: string, zorder: int)
    : (r: Option<DrawingCommand>)
    ensures r.Some? <==> PyList(x).Some? && PyList(y).Some?
    ensures r.Some? ==> (r.value.kind == "line" && r.value.data.Keys == {"x", "y"} &&
      r.value.data["x"] == VList(PyList(x).value) && r.value.data["y"] == VList(PyList(y).value) &&
      r.value.style == styleDict && r.value.metadata == [] && r.value.gid == gid && r.value.zorder == zorder)
  {
    match (PyList(x), PyList(y))
    case (Some(xs), Some(ys)) =>
      Some(DrawingCommand("line", map["x" := VList(xs), "y" := VList(ys)], styleDict, [], zorder, gid))
    case _ => None
  }

  /** The command record_polygon appends. */
  function PolygonCommand(points: Value, styleDict: map<string, Value>, gid: string, zorder: int)
    : (r: Option<DrawingCommand>)
    ensures r.Some? <==> PyList(points).Some?
    ensures r.Some? ==> (r.value.kind == "polygon" && r.value.data == map["points" := VList(PyList(points).value)] &&
      r.value.style == styleDict && r.value.metadata == [] && r.value.gid == gid && r.value.zorder == zorder)
  {
    match PyList(points)
    case Some(ps) => Some(DrawingCommand("polygon", map["points" := VList(ps)], styleDict, [], zorder, gid))
    case None => None
  }

  /** The command record_text appends: the text unchanged, the anchor point as floats. */
  function TextCommand(text: Value, x: Value, y: Value, styleDict: map<string, Value>, gid: string, zorder: int)
    : (r: Option<DrawingCommand>)
    ensures r.Some? <==> ToFloat(x).Some? && ToFloat(y).Some?
    ensures r.Some? ==> (r.value.kind == "text" && r.value.data.Keys == {"text", "x", "y"} &&
      r.value.data["text"] == text &&
      r.value.data["x"] == VFloat(ToFloat(x).value) && r.value.data["y"] == VFloat(ToFloat(y).value) &&
      r.value.style == styleDict && r.value.gid == gid && r.value.zorder == zorder && r.value.metadata == [])
  {
    match (ToFloat(x), ToFloat(y))
    case (Some(fx), Some(fy)) =>
      Some(DrawingCommand("text", map["text" := text, "x" := VFloat(fx), "y" := VFloat(fy)], styleDict, [], zorder, gid))
    case _ => None
  }

  /** The command record_line_collection appends; falsy metadata becomes []. */
  function LineCollectionCommand(lines: Value, styleDict: map<string, Value>, gid: string, zorder: int, metadata: Value)
    : (r: Option<DrawingCommand>)
    ensures r.Some? <==> PyList(lines).Some? && (!Truthy(metadata) || PyList(metadata).Some?)
    ensures r.Some? ==> (r.value.kind == "line_collection" && r.value.data == map["lines" := VList(PyList(lines).value)] &&
      r.value.metadata == (if Truthy(metadata) then PyList(metadata).value else []) &&
      r.value.style == styleDict && r.value.gid == gid && r.value.zorder == zorder)
  {
    var md := if Truthy(metadata) then PyList(metadata) else Some([]);
    match (PyList(lines), md)
    case (Some(ls), Some(m)) =>
      Some(DrawingCommand("line_collection", map["lines" := VList(ls)], styleDict, m, zorder, gid))
    case _ => None
  }

  /** The command record_gradient appends: always on layer -1, with no style. */
  function GradientCommand(direction: Value, colorStops: Value, gid: string): (r: Option<DrawingCommand>)
    ensures r.Some? <==> PyList(colorStops).Some?
    ensures r.Some? ==> (r.value.kind == "gradient" && r.value.zorder == -1 && r.value.style == map[] &&
      r.value.data == map["direction" := direction, "color_stops" := VList(PyList(colorStops).value)] &&
      r.value.gid == gid && r.value.metadata == [])
  {
    match PyList(colorStops)
    case Some(cs) => Some(DrawingCommand("gradient", map["direction" := direction, "color_stops" := VList(cs)], map[], [], -1, gid))
    case None => None
  }

  /** The command record_info_table appends. */
  function InfoTableCommand(columns: Value, values: Value, widths: Value, styleDict: map<string, Value>, gid: string, zorder: int)
    : (r: Option<DrawingCommand>)
    ensures r.Some? <==> PyList(columns).Some? && PyList(values).Some? && PyList(widths).Some?
    ensures r.Some? ==> (r.value.kind == "info_table" && r.value.data.Keys == {"columns", "values", "widths"} &&
      r.value.data["columns"] == VList(PyList(columns).value) && r.value.data["values"] == VList(PyList(values).value) &&
      r.value.data["widths"] == VList(PyList(widths).value) &&
      r.value.style == styleDict && r.value.gid == gid && r.value.zorder == zorder && r.value.metadata == [])
  {
    match (PyList(columns), PyList(values), PyList(widths))
    case (Some(cs), Some(vs), Some(ws)) =>
      Some(DrawingCommand("info_table", map["columns" := VList(cs), "values" := VList(vs), "widths" := VList(ws)],
        styleDict, [], zorder, gid))
    case _ => None
  }

  /**
   * The recorder. Every record_* method appends exactly one command when its
   * conversions succeed; a conversion that raises leaves the log unchanged
   * (ok == false). Only clear() removes commands, and nothing but the
   * constructor sets the two info dicts.
   */
  class DrawingRecorder {
    var commands: seq<DrawingCommand>
    var projectionInfo: map<string, Value>
    var styleInfo: map<string, Value>

    constructor ()
      ensures commands == [] && projectionInfo == map[] && styleInfo == map[]
    {
      commands := [];
      projectionInfo := map[];
      styleInfo := map[];
    }

    /** Appends `cmd` when it is Some; the shared step of every record_* method. */
    method Append(cmd: Option<DrawingCommand>) returns (ok: bool)
      modifies this
      ensures ok == cmd.Some?
      ensures commands == if ok then old(commands) + [cmd.value] else old(commands)
      ensures projectionInfo == old(projectionInfo) && styleInfo == old(styleInfo)
    {
      ok := cmd.Some?;
      if ok {
        commands := commands + [cmd.value];
      }
    }

    method RecordScatter(x: Value, y: Value, sizes: Value, colors: Value, alphas: Value, metadata: Value,
                         styleDict: Option<map<string, Value>>, gid: string, zorder: int) returns (ok: bool)
      modifies this
      ensures var cmd := ScatterCommand(x, y, sizes, colors, alphas, metadata, styleDict, gid, zorder);
        ok == cmd.Some? && commands == if ok then old(commands) + [cmd.value] else old(commands)
      ensures projectionInfo == old(projectionInfo) && styleInfo == old(styleInfo)
    {
      ok := Append(ScatterCommand(x, y, sizes, colors, alphas, metadata, styleDict, gid, zorder));
    }

    method RecordLine(x: Value, y: Value, styleDict: map<string, Value>, gid: string, zorder: int) returns (ok: bool)
      modifies this
      ensures var cmd := LineCommand(x, y, styleDict, gid, zorder);
        ok == cmd.Some? && commands == if ok then old(commands) + [cmd.value] else old(commands)
      ensures projectionInfo == old(projectionInfo) && styleInfo == old(styleInfo)
    {
      ok := Append(LineCommand(x, y, styleDict, gid, zorder));
    }

    method RecordPolygon(points: Value, styleDict: map<string, Value>, gid: string, zorder: int) returns (ok: bool)
      modifies this
      ensures var cmd := PolygonCommand(points, styleDict, gid, zorder);
        ok == cmd.Some? && commands == if ok then old(commands) + [cmd.value] else old(commands)
      ensures projectionInfo == old(projectionInfo) && styleInfo == old(styleInfo)
    {
      ok := Append(PolygonCommand(points, styleDict, gid, zorder));
    }

    method RecordText(text: Value, x: Value, y: Value, styleDict: map<string, Value>, gid: string, zorder: int) returns (ok: bool)
      modifies this
      ensures var cmd := TextCommand(text, x, y, styleDict, gid, zorder);
        ok == cmd.Some? && commands == if ok then old(commands) + [cmd.value] else old(commands)
      ensures projectionInfo == old(projectionInfo) && styleInfo == old(styleInfo)
    {
      ok := Append(TextCommand(text, x, y, styleDict, gid, zorder));
    }

    method RecordLineCollection(lines: Value, styleDict: map<string, Value>, gid: string, zorder: int, metadata: Value)
      returns (ok: bool)
      modifies this
      ensures var cmd := LineCollectionCommand(lines, styleDict, gid, zorder, metadata);
        ok == cmd.Some? && commands == if ok then old(commands) + [cmd.value] else old(commands)
      ensures projectionInfo == old(projectionInfo) && styleInfo == old(styleInfo)
    {
      ok := Append(LineCollectionCommand(lines, styleDict, gid, zorder, metadata));
    }

    method RecordGradient(direction: Value, colorStops: Value, gid: string) returns (ok: bool)
      modifies this
      ensures var cmd := GradientCommand(direction, colorStops, gid);
        ok == cmd.Some? && commands == if ok then old(commands) + [cmd.value] else old(commands)
      ensures projectionInfo == old(projectionInfo) && styleInfo == old(styleInfo)
    {
      ok := Append(GradientCommand(direction, colorStops, gid));
    }

    method RecordInfoTable(columns: Value, values: Value, widths: Value, styleDict: map<string, Value>,
                           gid: string, zorder: int) returns (ok: bool)
      modifies this
      ensures var cmd := InfoTableCommand(columns, values, widths, styleDict, gid, zorder);
        ok == cmd.Some? && commands == if ok then old(commands) + [cmd.value] else old(commands)
      ensures projectionInfo == old(projectionInfo) && styleInfo == old(styleInfo)
    {
      ok := Append(InfoTableCommand(columns, values, widths, styleDict, gid, zorder));
    }

    /** Empties the log; the captured info dicts stay. */
    method Clear()
      modifies this
      ensures commands == []
      ensures projectionInfo == old(projectionInfo) && styleInfo == old(styleInfo)
    {
      commands := [];
    }
  }
}
