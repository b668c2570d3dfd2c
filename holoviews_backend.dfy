/**
 * HoloViewsBackend: the translation of matplotlib-style keyword arguments
 * into HoloViews style options (`_convert_style`).
 */
module HoloViewsBackend {
  import opened Wrappers
  import opened PyValues

  /** The options HoloViews does not accept; they are dropped last. */
  const Unsupported: seq<string> := [
    "z_index", "clip_on", "clip_path", "gid", "transform",
    "edge_line_dash", "edge_line_width", "closed", "fontstyle",
    "fontname", "fontfamily", "fontweight", "va", "ha", "xytext",
    "textcoords", "path_effects", "zorder", "xycoords"]

  /** The keys that are renamed, and so never survive. */
  const RenamedKeys: set<string> :=
    {"line_width", "size", "text_font_size", "fill_color", "edge_color", "edge_line_width", "line_dash"}

  const MarkerCodes: map<string, string> := map[
    "o" := "o", "circle" := "o", "s" := "s", "square" := "s", "^" := "^", "triangle" := "^",
    "D" := "d", "diamond" := "d", "*" := "*", "star" := "*", "+" := "+", "plus" := "+",
    "x" := "x", "cross" := "x"]

  const DashCodes: map<string, string> := map[
    "solid" := "-", "dashed" := "--", "dashdot" := "-.", "dotted" := ":"]

  /** `marker_map.get(m, 'o')`: a list or dict is unhashable and raises. */
  function MarkerFor(m: Value): (r: Option<Value>)
    ensures r.None? <==> !Hashable(m)
    ensures r.Some? ==> r.value.VStr? && r.value.s in MarkerCodes.Values
  {
    if !Hashable(m) then None
    else if m.VStr? && m.s in MarkerCodes then Some(VStr(MarkerCodes[m.s]))
    else assert MarkerCodes["o"] == "o"; Some(VStr("o"))
  }

  /** The new line style: a string through the table (default '-'), anything else as it is. */
  function DashFor(d: Value): Value
  {
    if d.VStr? then VStr(if d.s in DashCodes then DashCodes[d.s] else "-") else d
  }

  /** `s.rstrip('pt')`: drops trailing 'p' and 't' characters. */
  function RStripPt(s: string): (r: string)
    ensures |r| <= |s| && r == s[..|r|]
    ensures r == [] || (r[|r| - 1] != 'p' && r[|r| - 1] != 't')
    ensures forall i :: |r| <= i < |s| ==> s[i] == 'p' || s[i] == 't'
  {
    if s != [] && (s[|s| - 1] == 'p' || s[|s| - 1] == 't') then RStripPt(s[..|s| - 1]) else s
  }

  /** _convert_style raises for an unhashable marker or a font size that is not a string. */
  predicate Fails(input: map<string, Value>)
  {
    ("marker" in input && !Hashable(input["marker"])) ||
    ("text_font_size" in input && !input["text_font_size"].VStr?)
  }

  /** The keys renaming introduces. */
  const NewKeys: set<string> := {"linewidth", "s", "fontsize", "facecolor", "edgecolor", "linestyle"}

  /** `style[to] = style.pop(from)` when from is present: the value at `to` afterwards. */
  function Moved(input: map<string, Value>, from: string, to: string): (r: Option<Value>)
    ensures r.Some? <==> from in input || to in input
    ensures from in input ==> r == Some(input[from])
    ensures from !in input && to in input ==> r == Some(input[to])
  {
    if from in input then Some(input[from]) else if to in input then Some(input[to]) else None
  }

  /**
   * The value _convert_style leaves under key k before unsupported options
   * are dropped, or None when k is absent: a key depends only on the input
   * options it is renamed from and on its own input value.
   */
  function Renamed(input: map<string, Value>, k: string): (r: Option<Value>)
    requires !Fails(input)
    ensures r.Some? ==> k in input || k in NewKeys
  {
    if k in RenamedKeys then None
    else if k == "linewidth" then
      if "edge_line_width" in input then Some(input["edge_line_width"]) else Moved(input, "line_width", "linewidth")
    else if k == "marker" then
      if "marker" in input then Some(MarkerFor(input["marker"]).value) else None
    else if k == "s" then Moved(input, "size", "s")
    else if k == "fontsize" then
      if "text_font_size" in input then Some(VStr(RStripPt(input["text_font_size"].s))) else Moved(input, "fontsize", "fontsize")
    else if k == "facecolor" then Moved(input, "fill_color", "facecolor")
    else if k == "edgecolor" then Moved(input, "edge_color", "edgecolor")
    else if k == "linestyle" then
      if "line_dash" in input then Some(DashFor(input["line_dash"])) else Moved(input, "linestyle", "linestyle")
    else if k in input then Some(input[k])
    else None
  }

  /** The options after renaming, before unsupported keys are dropped. */
  function RenamedStyle(input: map<string, Value>): map<string, Value>
    requires !Fails(input)
  {
    map k | k in input.Keys + NewKeys && Renamed(input, k).Some? :: Renamed(input, k).value
  }

  /** The options left once every unsupported one is popped. */
  function Supported(style: map<string, Value>, drop: seq<string>): map<string, Value>
  {
    map k | k in style && k !in drop :: style[k]
  }

  /** The converted options, or None when the conversion raises. */
  function ConvertedStyle(input: map<string, Value>): (r: Option<map<string, Value>>)
    ensures r.None? <==> Fails(input)
  {
    if Fails(input) then None else Some(Supported(RenamedStyle(input), Unsupported))
  }

  /** Key by key: an option survives iff it is supported and renaming leaves a value there. */
  lemma ConvertedAt(input: map<string, Value>, k: string)
    requires !Fails(input)
    ensures k in ConvertedStyle(input).value <==> k !in Unsupported && Renamed(input, k).Some?
    ensures k in ConvertedStyle(input).value ==> ConvertedStyle(input).value[k] == Renamed(input, k).value
  {
  }

  /** No unsupported option and no renamed source key is left. */
  lemma ConvertedDropsKeys(input: map<string, Value>, k: string)
    requires ConvertedStyle(input).Some? && k in ConvertedStyle(input).value
    ensures k !in Unsupported && k !in RenamedKeys
  {
    ConvertedAt(input, k);
  }

  /** Every option the conversion does not mention keeps its value. */
  lemma ConvertedKeepsOthers(input: map<string, Value>, k: string)
    requires !Fails(input) && k in input && k !in Unsupported && k !in RenamedKeys && k !in NewKeys && k != "marker"
    ensures k in ConvertedStyle(input).value && ConvertedStyle(input).value[k] == input[k]
  {
    ConvertedAt(input, k);
  }

  /** `edge_line_width` wins over `line_width` for `linewidth`. */
  lemma ConvertedLineWidth(input: map<string, Value>)
    requires !Fails(input)
    ensures "edge_line_width" in input ==> ("linewidth" in ConvertedStyle(input).value && ConvertedStyle(input).value["linewidth"] == input["edge_line_width"])
    ensures "edge_line_width" !in input && "line_width" in input ==>
      ("linewidth" in ConvertedStyle(input).value && ConvertedStyle(input).value["linewidth"] == input["line_width"])
  {
    ConvertedAt(input, "linewidth");
  }

  /** `size` becomes `s`. */
  lemma ConvertedSize(input: map<string, Value>)
    requires !Fails(input)
    ensures "size" in input ==> ("s" in ConvertedStyle(input).value && ConvertedStyle(input).value["s"] == input["size"])
  {
    ConvertedAt(input, "s");
    assert Renamed(input, "s") == Moved(input, "size", "s");
  }

  /** `fill_color` becomes `facecolor`. */
  lemma ConvertedFillColor(input: map<string, Value>)
    requires !Fails(input)
    ensures "fill_color" in input ==> ("facecolor" in ConvertedStyle(input).value && ConvertedStyle(input).value["facecolor"] == input["fill_color"])
  {
    ConvertedAt(input, "facecolor");
  }

  /** `edge_color` becomes `edgecolor`. */
  lemma ConvertedEdgeColor(input: map<string, Value>)
    requires !Fails(input)
    ensures "edge_color" in input ==> ("edgecolor" in ConvertedStyle(input).value && ConvertedStyle(input).value["edgecolor"] == input["edge_color"])
  {
    ConvertedAt(input, "edgecolor");
  }

  /** The marker is translated through the marker table. */
  lemma ConvertedMarker(input: map<string, Value>)
    requires !Fails(input)
    ensures "marker" in input ==> ("marker" in ConvertedStyle(input).value && ConvertedStyle(input).value["marker"] == MarkerFor(input["marker"]).value)
  {
    ConvertedAt(input, "marker");
  }

  /** `text_font_size` becomes `fontsize` without its trailing unit letters. */
  lemma ConvertedFontSize(input: map<string, Value>)
    requires !Fails(input)
    ensures "text_font_size" in input ==> ("fontsize" in ConvertedStyle(input).value && ConvertedStyle(input).value["fontsize"] == VStr(RStripPt(input["text_font_size"].s)))
  {
    ConvertedAt(input, "fontsize");
  }

  /** `line_dash` becomes `linestyle` through the dash table. */
  lemma ConvertedDash(input: map<string, Value>)
    requires !Fails(input)
    ensures "line_dash" in input ==> ("linestyle" in ConvertedStyle(input).value && ConvertedStyle(input).value["linestyle"] == DashFor(input["line_dash"]))
  {
    ConvertedAt(input, "linestyle");
  }

  /** A renaming step of _convert_style: `style[to] = style.pop(from)`. */
  function Rename(style: map<string, Value>, from: string, to: string): map<string, Value>
  {
    if from in style then (style - {from})[to := style[from]] else style
  }

  /** The last loop of _convert_style: every unsupported option still present is popped. */
  method DropUnsupported(style0: map<string, Value>) returns (style: map<string, Value>)
    ensures style == Supported(style0, Unsupported)
  {
    style := style0;
    var i := 0;
    while i < |Unsupported|
      invariant 0 <= i <= |Unsupported|
      invariant style == Supported(style0, Unsupported[..i])
    {
      var opt := Unsupported[i];
      if opt in style {
        style := style - {opt};
      }
      assert Unsupported[..i + 1] == Unsupported[..i] + [opt];
      i := i + 1;
    }
    assert Unsupported[..i] == Unsupported;
  }

  /** The value under k, or None when k is absent. */
  function At(m: map<string, Value>, k: string): (r: Option<Value>)
    ensures r.Some? <==> k in m
    ensures r.Some? ==> r.value == m[k]
  {
    if k in m then Some(m[k]) else None
  }

  /** Key by key, the options after `style[to] = style.pop(from)` when from is present. */
  function MovedAt(style: map<string, Value>, from: string, to: string, k: string): Option<Value>
  {
    if k == from then None else if k == to && At(style, from).Some? then At(style, from) else At(style, k)
  }

  /** The marker step: a present marker is replaced by its table entry. */
  ghost predicate MarkerStep(s1: map<string, Value>, s2: map<string, Value>)
  {
    ("marker" in s1 ==> MarkerFor(s1["marker"]).Some? && s2 == s1["marker" := MarkerFor(s1["marker"]).value]) &&
    ("marker" !in s1 ==> s2 == s1)
  }

  /** The font size step: `text_font_size`, a string, moves to `fontsize` without trailing 'p' and 't'. */
  ghost predicate FontStep(s3: map<string, Value>, s4: map<string, Value>)
  {
    ("text_font_size" in s3 ==>
      s3["text_font_size"].VStr? && s4 == (s3 - {"text_font_size"})["fontsize" := VStr(RStripPt(s3["text_font_size"].s))]) &&
    ("text_font_size" !in s3 ==> s4 == s3)
  }

  /** The dash step: `line_dash` is translated into `linestyle` and popped. */
  ghost predicate DashStep(s7: map<string, Value>, s8: map<string, Value>)
  {
    ("line_dash" in s7 ==> s8 == s7["linestyle" := DashFor(s7["line_dash"])] - {"line_dash"}) &&
    ("line_dash" !in s7 ==> s8 == s7)
  }

  /** s1 … s8 are the options after each step of _convert_style, in order. */
  ghost predicate RenameSteps(input: map<string, Value>, s1: map<string, Value>, s2: map<string, Value>,
                              s3: map<string, Value>, s4: map<string, Value>, s5: map<string, Value>,
                              s6: map<string, Value>, s7: map<string, Value>, s8: map<string, Value>)
  {
    s1 == Rename(input, "line_width", "linewidth") && MarkerStep(s1, s2) &&
    s3 == Rename(s2, "size", "s") && FontStep(s3, s4) &&
    s5 == Rename(s4, "fill_color", "facecolor") && s6 == Rename(s5, "edge_color", "edgecolor") &&
    s7 == Rename(s6, "edge_line_width", "linewidth") && DashStep(s7, s8)
  }

  /** The steps of _convert_style seen at one key. */
  ghost predicate StepsAtKey(input: map<string, Value>, s1: map<string, Value>, s2: map<string, Value>,
                             s3: map<string, Value>, s4: map<string, Value>, s5: map<string, Value>,
                             s6: map<string, Value>, s7: map<string, Value>, s8: map<string, Value>, k: string)
  {
    At(s1, k) == MovedAt(input, "line_width", "linewidth", k) &&
    At(s2, k) == (if k == "marker" && At(s1, k).Some? then MarkerFor(At(s1, k).value) else At(s1, k)) &&
    At(s3, k) == MovedAt(s2, "size", "s", k) &&
    At(s4, k) == (if k == "text_font_size" then None
                  else if k == "fontsize" && At(s3, "text_font_size").Some? then
                    (if At(s3, "text_font_size").value.VStr? then Some(VStr(RStripPt(At(s3, "text_font_size").value.s))) else None)
                  else At(s3, k)) &&
    At(s5, k) == MovedAt(s4, "fill_color", "facecolor", k) &&
    At(s6, k) == MovedAt(s5, "edge_color", "edgecolor", k) &&
    At(s7, k) == MovedAt(s6, "edge_line_width", "linewidth", k) &&
    At(s8, k) == (if k == "line_dash" then None
                  else if k == "linestyle" && At(s7, "line_dash").Some? then Some(DashFor(At(s7, "line_dash").value))
                  else At(s7, k))
  }

  /** Key by key, a renaming step moves the source's value to the target and keeps every other key. */
  lemma RenameAt(style: map<string, Value>, from: string, to: string, k: string)
    requires from != to
    ensures At(Rename(style, from, to), k) == MovedAt(style, from, to, k)
  {
  }

  /** The marker step at one key. */
  lemma MarkerStepAt(s1: map<string, Value>, s2: map<string, Value>, k: string)
    requires MarkerStep(s1, s2)
    ensures At(s2, k) == (if k == "marker" && At(s1, k).Some? then MarkerFor(At(s1, k).value) else At(s1, k))
  {
  }

  /** The font size step at one key. */
  lemma FontStepAt(s3: map<string, Value>, s4: map<string, Value>, k: string)
    requires FontStep(s3, s4)
    ensures At(s4, k) == (if k == "text_font_size" then None
                          else if k == "fontsize" && At(s3, "text_font_size").Some? then
                            (if At(s3, "text_font_size").value.VStr? then Some(VStr(RStripPt(At(s3, "text_font_size").value.s))) else None)
                          else At(s3, k))
  {
  }

  /** The dash step at one key. */
  lemma DashStepAt(s7: map<string, Value>, s8: map<string, Value>, k: string)
    requires DashStep(s7, s8)
    ensures At(s8, k) == (if k == "line_dash" then None
                          else if k == "linestyle" && At(s7, "line_dash").Some? then Some(DashFor(At(s7, "line_dash").value))
                          else At(s7, k))
  {
  }

  /** Each step, read at one key. */
  lemma StepsAtKeyHolds(input: map<string, Value>, s1: map<string, Value>, s2: map<string, Value>,
    s3: map<string, Value>, s4: map<string, Value>, s5: map<string, Value>,
    s6: map<string, Value>, s7: map<string, Value>, s8: map<string, Value>, k: string)
    requires RenameSteps(input, s1, s2, s3, s4, s5, s6, s7, s8)
    ensures StepsAtKey(input, s1, s2, s3, s4, s5, s6, s7, s8, k)
  {
    RenameAt(input, "line_width", "linewidth", k);
    MarkerStepAt(s1, s2, k);
    RenameAt(s2, "size", "s", k);
    FontStepAt(s3, s4, k);
    RenameAt(s4, "fill_color", "facecolor", k);
    RenameAt(s5, "edge_color", "edgecolor", k);
    RenameAt(s6, "edge_line_width", "linewidth", k);
    DashStepAt(s7, s8, k);
  }

  /** A renamed source key is gone after the steps. */
  lemma StepsAtDropped(input: map<string, Value>, s1: map<string, Value>, s2: map<string, Value>,
    s3: map<string, Value>, s4: map<string, Value>, s5: map<string, Value>,
    s6: map<string, Value>, s7: map<string, Value>, s8: map<string, Value>, k: string)
    requires !Fails(input) && k in {"line_width", "size", "text_font_size", "fill_color"}
    requires StepsAtKey(input, s1, s2, s3, s4, s5, s6, s7, s8, k)
    ensures At(s8, k) == Renamed(input, k)
  {
  }

  /** A renamed source key is gone after the steps. */
  lemma StepsAtDroppedLate(input: map<string, Value>, s1: map<string, Value>, s2: map<string, Value>,
    s3: map<string, Value>, s4: map<string, Value>, s5: map<string, Value>,
    s6: map<string, Value>, s7: map<string, Value>, s8: map<string, Value>, k: string)
    requires !Fails(input) && k in {"edge_color", "edge_line_width", "line_dash"}
    requires StepsAtKey(input, s1, s2, s3, s4, s5, s6, s7, s8, k)
    ensures At(s8, k) == Renamed(input, k)
  {
  }

  /** A key the steps do not mention keeps its input value. */
  lemma StepsAtOther(input: map<string, Value>, s1: map<string, Value>, s2: map<string, Value>,
    s3: map<string, Value>, s4: map<string, Value>, s5: map<string, Value>,
    s6: map<string, Value>, s7: map<string, Value>, s8: map<string, Value>, k: string)
    requires !Fails(input) && k !in RenamedKeys && k !in NewKeys && k != "marker"
    requires StepsAtKey(input, s1, s2, s3, s4, s5, s6, s7, s8, k)
    ensures At(s8, k) == Renamed(input, k)
  {
  }

  /** `linewidth` comes from `edge_line_width`, else from `line_width`. */
  lemma StepsAtLinewidth(input: map<string, Value>, s1: map<string, Value>, s2: map<string, Value>,
    s3: map<string, Value>, s4: map<string, Value>, s5: map<string, Value>,
    s6: map<string, Value>, s7: map<string, Value>, s8: map<string, Value>, k: string)
    requires !Fails(input) && k == "linewidth"
    requires StepsAtKey(input, s1, s2, s3, s4, s5, s6, s7, s8, k)
    requires StepsAtKey(input, s1, s2, s3, s4, s5, s6, s7, s8, "line_width")
    requires StepsAtKey(input, s1, s2, s3, s4, s5, s6, s7, s8, "edge_line_width")
    ensures At(s8, k) == Renamed(input, k)
  {
  }

  /** `marker` goes through the marker table. */
  lemma StepsAtMarker(input: map<string, Value>, s1: map<string, Value>, s2: map<string, Value>,
    s3: map<string, Value>, s4: map<string, Value>, s5: map<string, Value>,
    s6: map<string, Value>, s7: map<string, Value>, s8: map<string, Value>, k: string)
    requires !Fails(input) && k == "marker"
    requires StepsAtKey(input, s1, s2, s3, s4, s5, s6, s7, s8, k)
    ensures At(s8, k) == Renamed(input, k)
  {
  }

  /** `s` comes from `size`. */
  lemma StepsAtSize(input: map<string, Value>, s1: map<string, Value>, s2: map<string, Value>,
    s3: map<string, Value>, s4: map<string, Value>, s5: map<string, Value>,
    s6: map<string, Value>, s7: map<string, Value>, s8: map<string, Value>, k: string)
    requires !Fails(input) && k == "s"
    requires StepsAtKey(input, s1, s2, s3, s4, s5, s6, s7, s8, k)
    requires StepsAtKey(input, s1, s2, s3, s4, s5, s6, s7, s8, "size")
    ensures At(s8, k) == Renamed(input, k)
  {
  }

  /** `fontsize` comes from `text_font_size`. */
  lemma StepsAtFontsize(input: map<string, Value>, s1: map<string, Value>, s2: map<string, Value>,
    s3: map<string, Value>, s4: map<string, Value>, s5: map<string, Value>,
    s6: map<string, Value>, s7: map<string, Value>, s8: map<string, Value>, k: string)
    requires !Fails(input) && k == "fontsize"
    requires StepsAtKey(input, s1, s2, s3, s4, s5, s6, s7, s8, k)
    requires StepsAtKey(input, s1, s2, s3, s4, s5, s6, s7, s8, "text_font_size")
    ensures At(s8, k) == Renamed(input, k)
  {
  }

  /** `facecolor` comes from `fill_color`. */
  lemma StepsAtFacecolor(input: map<string, Value>, s1: map<string, Value>, s2: map<string, Value>,
    s3: map<string, Value>, s4: map<string, Value>, s5: map<string, Value>,
    s6: map<string, Value>, s7: map<string, Value>, s8: map<string, Value>, k: string)
    requires !Fails(input) && k == "facecolor"
    requires StepsAtKey(input, s1, s2, s3, s4, s5, s6, s7, s8, k)
    requires StepsAtKey(input, s1, s2, s3, s4, s5, s6, s7, s8, "fill_color")
    ensures At(s8, k) == Renamed(input, k)
  {
  }

  /** `edgecolor` comes from `edge_color`. */
  lemma StepsAtEdgecolor(input: map<string, Value>, s1: map<string, Value>, s2: map<string, Value>,
    s3: map<string, Value>, s4: map<string, Value>, s5: map<string, Value>,
    s6: map<string, Value>, s7: map<string, Value>, s8: map<string, Value>, k: string)
    requires !Fails(input) && k == "edgecolor"
    requires StepsAtKey(input, s1, s2, s3, s4, s5, s6, s7, s8, k)
    requires StepsAtKey(input, s1, s2, s3, s4, s5, s6, s7, s8, "edge_color")
    ensures At(s8, k) == Renamed(input, k)
  {
  }

  /** `linestyle` comes from `line_dash` through the dash table. */
  lemma StepsAtLinestyle(input: map<string, Value>, s1: map<string, Value>, s2: map<string, Value>,
    s3: map<string, Value>, s4: map<string, Value>, s5: map<string, Value>,
    s6: map<string, Value>, s7: map<string, Value>, s8: map<string, Value>, k: string)
    requires !Fails(input) && k == "linestyle"
    requires StepsAtKey(input, s1, s2, s3, s4, s5, s6, s7, s8, k)
    requires StepsAtKey(input, s1, s2, s3, s4, s5, s6, s7, s8, "line_dash")
    ensures At(s8, k) == Renamed(input, k)
  {
  }

  /** The steps of _convert_style, key by key, give what Renamed describes. */
  lemma StepsAt(input: map<string, Value>, s1: map<string, Value>, s2: map<string, Value>,
                s3: map<string, Value>, s4: map<string, Value>, s5: map<string, Value>,
                s6: map<string, Value>, s7: map<string, Value>, s8: map<string, Value>, k: string)
    requires !Fails(input)
    requires RenameSteps(input, s1, s2, s3, s4, s5, s6, s7, s8)
    ensures At(s8, k) == Renamed(input, k)
  {
    StepsAtKeyHolds(input, s1, s2, s3, s4, s5, s6, s7, s8, k);
    if k in RenamedKeys {
      if k in {"line_width", "size", "text_font_size", "fill_color"} {
        StepsAtDropped(input, s1, s2, s3, s4, s5, s6, s7, s8, k);
      } else {
        StepsAtDroppedLate(input, s1, s2, s3, s4, s5, s6, s7, s8, k);
      }
    } else if k == "linewidth" {
      StepsAtKeyHolds(input, s1, s2, s3, s4, s5, s6, s7, s8, "line_width");
      StepsAtKeyHolds(input, s1, s2, s3, s4, s5, s6, s7, s8, "edge_line_width");
      StepsAtLinewidth(input, s1, s2, s3, s4, s5, s6, s7, s8, k);
    } else if k == "marker" {
      StepsAtMarker(input, s1, s2, s3, s4, s5, s6, s7, s8, k);
    } else if k == "s" {
      StepsAtKeyHolds(input, s1, s2, s3, s4, s5, s6, s7, s8, "size");
      StepsAtSize(input, s1, s2, s3, s4, s5, s6, s7, s8, k);
    } else if k == "fontsize" {
      StepsAtKeyHolds(input, s1, s2, s3, s4, s5, s6, s7, s8, "text_font_size");
      StepsAtFontsize(input, s1, s2, s3, s4, s5, s6, s7, s8, k);
    } else if k == "facecolor" {
      StepsAtKeyHolds(input, s1, s2, s3, s4, s5, s6, s7, s8, "fill_color");
      StepsAtFacecolor(input, s1, s2, s3, s4, s5, s6, s7, s8, k);
    } else if k == "edgecolor" {
      StepsAtKeyHolds(input, s1, s2, s3, s4, s5, s6, s7, s8, "edge_color");
      StepsAtEdgecolor(input, s1, s2, s3, s4, s5, s6, s7, s8, k);
    } else if k == "linestyle" {
      StepsAtKeyHolds(input, s1, s2, s3, s4, s5, s6, s7, s8, "line_dash");
      StepsAtLinestyle(input, s1, s2, s3, s4, s5, s6, s7, s8, k);
    } else {
      StepsAtOther(input, s1, s2, s3, s4, s5, s6, s7, s8, k);
    }
  }

  /**
   * _convert_style: copy the options, rename and translate them one step at
   * a time, then drop the unsupported ones.
   */
  method ConvertStyle(styleKwargs: map<string, Value>) returns (r: Option<map<string, Value>>)
    ensures r == ConvertedStyle(styleKwargs)
  {
    var style := styleKwargs;
    style := Rename(style, "line_width", "linewidth");
    ghost var s1 := style;
    if "marker" in style {
      var m := MarkerFor(style["marker"]);
      if m.None? {
        return None;
      }
      style := style["marker" := m.value];
    }
    ghost var s2 := style;
    style := Rename(style, "size", "s");
    ghost var s3 := style;
    if "text_font_size" in style {
      var v := style["text_font_size"];
      if !v.VStr? {
        return None;
      }
      style := (style - {"text_font_size"})["fontsize" := VStr(RStripPt(v.s))];
    }
    ghost var s4 := style;
    style := Rename(style, "fill_color", "facecolor");
    ghost var s5 := style;
    style := Rename(style, "edge_color", "edgecolor");
    ghost var s6 := style;
    style := Rename(style, "edge_line_width", "linewidth");
    ghost var s7 := style;
    if "line_dash" in style {
      style := style["linestyle" := DashFor(style["line_dash"])];
      style := style - {"line_dash"};
    }
    StepsRename(styleKwargs, s1, s2, s3, s4, s5, s6, s7, style);
    style := DropUnsupported(style);
    r := Some(style);
  }

  /** The renaming steps of _convert_style, taken in order, give the renamed options. */
  lemma StepsRename(input: map<string, Value>, s1: map<string, Value>, s2: map<string, Value>,
                    s3: map<string, Value>, s4: map<string, Value>, s5: map<string, Value>,
                    s6: map<string, Value>, s7: map<string, Value>, s8: map<string, Value>)
    requires !Fails(input)
    requires RenameSteps(input, s1, s2, s3, s4, s5, s6, s7, s8)
    ensures s8 == RenamedStyle(input)
  {
    forall k
      ensures k in s8 <==> k in RenamedStyle(input)
      ensures k in s8 ==> s8[k] == RenamedStyle(input)[k]
    {
      StepsAt(input, s1, s2, s3, s4, s5, s6, s7, s8, k);
      if k in s8 {
        assert Renamed(input, k).Some?;
      }
    }
  }
}
