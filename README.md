# starplot record/replay core, modelled in Dafny

This project models the part of starplot that turns a static star chart
into an interactive one, together with the style tables around it.

- **Drawing commands** (`commands.dfy`): the `DrawingCommand` record is kind,
  data, style, metadata, zorder and gid. Equality is field by field. The
  model includes `list.remove`, which removes the first equal command.
- **Recorder** (`recorder.dfy`): `DrawingRecorder` is an append-only log. It
  has one `record_*` method per kind and broadcasts a scalar colour or alpha
  to per-point lists. `clear` empties the commands only.
- **Recording mixin** (`recording_mixin.dfy`): the interception layer. Each
  wrapped drawing call first delegates to the static plot, then records.
  Projections that are not finite become (NaN, NaN). Constellation segments
  are kept only when all four coordinates are finite. A placed label's
  `remove()` is patched so that it also retracts its command.
- **Plotly renderer** (`plotly_renderer.dfy`): replay of the log.
  - Commands are replayed in stable zorder order.
  - A command whose handler fails is skipped.
  - Each legend group shows at most one entry.
  - Line collections are flattened with `None` separators.
  - Polygon rings are closed.
  - Hover texts are built from metadata.
  - A gid has a fixed table entry for its legend name; otherwise a name is derived from the gid.
- **Style converter and adapter** (`style_converter.dfy`, `style_adapter.dfy`):
  - marker, dash and anchor lookup tables with their defaults;
  - the clamped, monotone marker-size calibration.
- **Styles** (`style_helpers.dfy`, `style_base.dfy`):
  - `merge_dict`;
  - parsing `style__a__b` keyword arguments in `use_style`;
  - the enum conversion tables;
  - `#rgb` expansion;
  - `offset_from_marker`;
  - `to_marker_style`;
  - `get_dso_style`.
- **Backends** (`backend_factory.dfy`, `holoviews_backend.dfy`, `plotly_backend.dfy`):
  - the backend registry;
  - the HoloViews `_convert_style` key rewriting;
  - the experimental Plotly backend's converters, ring closing and scatter rules.
- **Star plotter** (`star_plotter.dfy`):
  - the magnitude filter of `_load_stars`;
  - the on-screen selection and descending-size order of `starz`;
  - label selection in `_star_labels`: each hip or tyc is labelled once, and labels are emitted names first, then Bayer, then Flamsteed.

Shared pieces:
- `wrappers.dfy`: Option and Result.
- `py_values.dfy`: a small model of Python values. It covers None, bool, int, floats with NaN and infinities, str, list and dict. It also gives truthiness and `dict.get`.
- `sorting.dfy`: Python's stable key sort, as an insertion sort proved sorted, a permutation and stable.

Calls into plotting libraries, projections and `math.sqrt` are parameters of
the model. The wrapped static plot is a recorded result passed in by the caller.

## Model

| member | source | states |
|---|---|---|
| Commands.NewCommand | src/starplot/interactive/commands.py:29-34 | a command built from its kind alone has empty data, style and metadata, layer 0 and an empty group id (the dataclass defaults) |
| Commands.CommandEquality | src/starplot/interactive/commands.py:4-34 | two commands are equal exactly when all six fields are equal (dataclass equality), the equality `list.remove` uses to retract a label |
| Commands.FirstIndexOf | src/starplot/interactive/commands.py:4-5 | the index found holds an equal command and no earlier element does |
| Commands.RemoveAbsent | src/starplot/interactive/recording_mixin.py:216-221 | removing a command with no equal element in the log leaves the log unchanged (the ValueError is swallowed) |
| Commands.RemoveFirstAt | src/starplot/interactive/recording_mixin.py:216-221 | `list.remove` takes out exactly the first equal element and keeps the rest in order |
| Commands.RemoveFirstMultiset | src/starplot/interactive/recording_mixin.py:216-221 | removal takes away exactly one copy of the command when there is one, and nothing else |
| Commands.RemoveTwiceTakesEqualCopy | src/starplot/interactive/recording_mixin.py:216-221 | because removal is by equality, a second remove() of the same label takes out an equal copy recorded by another call |
| Recorder.Broadcast | src/starplot/interactive/recorder.py:19-20 | a scalar colour or alpha becomes a list of n copies; anything else goes through `list()` |
| Recorder.ScatterCommand | src/starplot/interactive/recorder.py:15-25 | the scatter command exists exactly when every `list()` conversion succeeds; x, y, sizes and metadata are stored element for element, a single colour string and a numeric alpha are repeated once per x, other colours and alphas are `list(colors)` and `list(alphas)`, and the style is the given dict or {} |
| Recorder.LineCommand | src/starplot/interactive/recorder.py:27-34 | a line command with the x and y lists, the style dict, gid, zorder and no metadata; None when a list conversion fails |
| Recorder.PolygonCommand | src/starplot/interactive/recorder.py:36-43 | a polygon command holding exactly the point list, the style, gid and zorder |
| Recorder.TextCommand | src/starplot/interactive/recorder.py:45-52 | a text command with the text unchanged and x, y converted by `float()` and no metadata; None exactly when a conversion fails |
| Recorder.LineCollectionCommand | src/starplot/interactive/recorder.py:54-62 | a line collection command holding the line list; falsy metadata becomes [], other metadata is stored as a list |
| Recorder.GradientCommand | src/starplot/interactive/recorder.py:64-70 | a gradient command always sits on layer -1 with an empty style and holds the direction and colour stops |
| Recorder.InfoTableCommand | src/starplot/interactive/recorder.py:72-83 | an info table command holding the columns, values and widths as lists, with no metadata; None exactly when one of them is not iterable |
| Recorder.DrawingRecorder.constructor | src/starplot/interactive/recorder.py:7-13 | a new recorder has no commands and empty projection and style info |
| Recorder.DrawingRecorder.Append | src/starplot/interactive/recorder.py:16 | appends the command when its conversions succeeded and changes nothing else |
| Recorder.DrawingRecorder.RecordScatter | src/starplot/interactive/recorder.py:15-25 | appends exactly ScatterCommand's command, or leaves the log unchanged when a conversion raises; the info dicts are untouched |
| Recorder.DrawingRecorder.RecordLine | src/starplot/interactive/recorder.py:27-34 | appends exactly LineCommand's command, or nothing when a conversion raises |
| Recorder.DrawingRecorder.RecordPolygon | src/starplot/interactive/recorder.py:36-43 | appends exactly PolygonCommand's command, or nothing when a conversion raises |
| Recorder.DrawingRecorder.RecordText | src/starplot/interactive/recorder.py:45-52 | appends exactly TextCommand's command, or nothing when `float()` raises |
| Recorder.DrawingRecorder.RecordLineCollection | src/starplot/interactive/recorder.py:54-62 | appends exactly LineCollectionCommand's command, or nothing when a conversion raises |
| Recorder.DrawingRecorder.RecordGradient | src/starplot/interactive/recorder.py:64-70 | appends exactly GradientCommand's command, or nothing when a conversion raises |
| Recorder.DrawingRecorder.RecordInfoTable | src/starplot/interactive/recorder.py:72-83 | appends exactly InfoTableCommand's command, or nothing when a conversion raises |
| Recorder.DrawingRecorder.Clear | src/starplot/interactive/recorder.py:85-87 | empties the command log and keeps the projection and style info |
| RecordingMixin.ProjectCoords | src/starplot/interactive/recording_mixin.py:31-53 | on a cartographic plot the result is the transformed point exactly when the transform succeeds with both coordinates finite, and (NaN, NaN) otherwise; a horizon or optic plot's own conversion is returned unchecked |
| RecordingMixin.LastN | src/starplot/interactive/recording_mixin.py:118 | `xs[-n:] if n > 0 else []` is the suffix of length min(n, len(xs)) |
| RecordingMixin.StarMetadata | src/starplot/interactive/recording_mixin.py:120-135 | a star's tooltip dict has exactly the eight keys, type "star", and the label text when it is truthy, "" otherwise |
| RecordingMixin.ProjectZip | src/starplot/interactive/recording_mixin.py:139-140 | zip() stops at the shorter list and each pair is projected by _project_coords |
| RecordingMixin.Xs | src/starplot/interactive/recording_mixin.py:141 | the x column holds the first coordinate of every projected point, in order |
| RecordingMixin.Ys | src/starplot/interactive/recording_mixin.py:142 | the y column holds the second coordinate of every projected point, in order |
| RecordingMixin.TextLabelCommand | src/starplot/interactive/recording_mixin.py:193-207 | a placed label's command has the text and its projected position as data, exactly seven style keys with the keyword defaults (size 12, white, centred), group "text" and layer 0 unless given, and no metadata |
| RecordingMixin.LineSegmentsExact | src/starplot/interactive/recording_mixin.py:275-292 | a constellation contributes exactly the segments of its HIP pairs whose two stars are known and project finitely |
| RecordingMixin.ConstellationSegmentsExact | src/starplot/interactive/recording_mixin.py:274-292 | the recorded segments are exactly those of some HIP pair of some plotted constellation that survives both skips |
| RecordingMixin.ConstellationSegmentsFinite | src/starplot/interactive/recording_mixin.py:283-286 | no recorded segment has an infinite or NaN end point |
| RecordingMixin.AppendConstellation | src/starplot/interactive/recording_mixin.py:275-292 | the inner loop keeps the lines and metadata collected so far and appends, in pair order, one line and one metadata dict for each kept segment of one constellation |
| RecordingMixin.CollectConstellationLines | src/starplot/interactive/recording_mixin.py:271-292 | the nested loop yields one line and one metadata dict per kept segment, in constellation order then pair order |
| RecordingMixin.EquatorPoints | src/starplot/interactive/recording_mixin.py:346-348 | the celestial equator is the 181 points at right ascension 0, 2, ..., 360 and declination 0, projected |
| RecordingMixin.StarsMetadata | src/starplot/interactive/recording_mixin.py:119-135 | one tooltip dict per star, in order |
| RecordingMixin.CollectStarsMetadata | src/starplot/interactive/recording_mixin.py:119-135 | the metadata loop builds exactly StarsMetadata of the recent stars |
| RecordingMixin.StarScatterCommand | src/starplot/interactive/recording_mixin.py:111-155 | a recorded star scatter has group "stars" and the star style's layer unless overridden, the metadata of the last len(ras) plotted stars, and the projected x and y columns |
| RecordingMixin.EclipticPath | src/starplot/interactive/recording_mixin.py:318-321 | each tabulated ecliptic position is projected with its right ascension converted from hours to degrees |
| RecordingMixin.LogOfCall | src/starplot/interactive/recording_mixin.py:9-10 | handing a call to the wrapped plot changes no command; recording one appends exactly it to the log |
| RecordingMixin.RecordingPlot.constructor | src/starplot/interactive/recording_mixin.py:21-25 | a new plot has a fresh, empty recorder and a journal holding only the wrapped plot's initialisation |
| RecordingMixin.RecordingPlot.Finish | src/starplot/interactive/recording_mixin.py:9-10 | the wrapped plot is called first, then the command (if any) is appended; the log stays equal to the journal's replay |
| RecordingMixin.RecordingPlot.ScatterStarsCall | src/starplot/interactive/recording_mixin.py:111-155 | records exactly StarScatterCommand's command after the hand-off, or nothing when record_scatter fails |
| RecordingMixin.PolygonRecordedStyle | src/starplot/interactive/recording_mixin.py:163-173 | the recorded style dict is empty exactly when reading the style raised, and otherwise holds the six copied attributes |
| RecordingMixin.FloatPoints | src/starplot/interactive/recording_mixin.py:175 | the comprehension succeeds exactly when every point converts, and then gives one float pair per point, in order |
| RecordingMixin.PolygonPoints | src/starplot/interactive/recording_mixin.py:175 | the points convert exactly when they are iterable and every point is a pair of numbers |
| RecordingMixin.FloatPairsUnchanged | src/starplot/interactive/recording_mixin.py:175 | points that are already float pairs convert to themselves |
| RecordingMixin.NonNumericPointFails | src/starplot/interactive/recording_mixin.py:175 | one point with a coordinate that is not a number, such as `("a", 1)`, makes the whole conversion raise |
| RecordingMixin.RecordingPlot.PolygonCall | src/starplot/interactive/recording_mixin.py:161-179 | after the hand-off, records one polygon command exactly when the points convert: the float pairs, the style dict or {} when reading the style raised, group "polygon" unless given, and the style's layer; otherwise only the hand-off is journaled |
| RecordingMixin.RecordingPlot.TextCall | src/starplot/interactive/recording_mixin.py:185-224 | returns an artist exactly when the label was placed, and only then records its text command; the artist carries that command |
| RecordingMixin.RecordingPlot.RemoveLabel | src/starplot/interactive/recording_mixin.py:215-222 | the patched remove() drops the first equal command from the log (nothing when there is none) and then calls the original remove() |
| RecordingMixin.RecordingPlot.LineCall | src/starplot/interactive/recording_mixin.py:230-250 | records the projected points as a line command when there are any, and nothing when there are none or when iterating them raises |
| RecordingMixin.RecordingPlot.ConstellationsCall | src/starplot/interactive/recording_mixin.py:256-306 | records one "constellations-line" collection of the kept segments exactly when there are constellations, their stars could be prepared and at least one segment was kept; otherwise the log is unchanged |
| RecordingMixin.RecordingPlot.ProjectEcliptic | src/starplot/interactive/recording_mixin.py:317-321 | the ecliptic loop builds the x and y columns of EclipticPath |
| RecordingMixin.RecordingPlot.EclipticCall | src/starplot/interactive/recording_mixin.py:312-335 | records "ecliptic-line" with the projected path exactly when the table is non-empty |
| RecordingMixin.RecordingPlot.CelestialEquatorCall | src/starplot/interactive/recording_mixin.py:341-362 | always records "celestial-equator-line" with 181 projected points |
| RecordingMixin.RecordingPlot.GradientBackgroundCall | src/starplot/interactive/recording_mixin.py:368-377 | records the gradient direction and the preset's colour stops under group "gradient" when the conversion succeeds |
| RecordingMixin.PlaceThenRemove | src/starplot/interactive/recording_mixin.py:210-222 | recording a label and then removing it leaves the command log as it was, when no equal command was logged before |
| RecordingMixin.RemoveAppendedAbsent | src/starplot/interactive/recording_mixin.py:216-221 | removing a command just appended to a log without an equal command restores the log |
| PlotlyRenderer.Spaced | src/starplot/interactive/plotly_renderer.py:332 | replacing "-" and "_" by spaces keeps the length and changes exactly those characters |
| PlotlyRenderer.GidToLegendName | src/starplot/interactive/plotly_renderer.py:314-332 | a known group id gets its fixed legend name |
| PlotlyRenderer.TitleFromAt | src/starplot/interactive/plotly_renderer.py:332 | `str.title()` keeps the length and upper-cases a cased character after an uncased one, lower-cases one after a cased one, and leaves the rest |
| PlotlyRenderer.TitleFromLength | src/starplot/interactive/plotly_renderer.py:332 | `str.title()` keeps the length |
| PlotlyRenderer.FallbackLegendName | src/starplot/interactive/plotly_renderer.py:332 | an unknown group id's legend name has its length, contains no "-" or "_", and starts each word upper case and continues lower case |
| PlotlyRenderer.TitleIdempotent | src/starplot/interactive/plotly_renderer.py:332 | title-casing a name twice gives the same as once |
| PlotlyRenderer.HoverText | src/starplot/interactive/plotly_renderer.py:273-311 | a metadata entry that is not a dict raises; one whose type is not star, dso or planet gets "" |
| PlotlyRenderer.HoverTexts | src/starplot/interactive/plotly_renderer.py:271-312 | the tooltip list succeeds exactly when every entry's tooltip does, and then holds one tooltip per entry, in order |
| PlotlyRenderer.BuildHoverTexts | src/starplot/interactive/plotly_renderer.py:271-312 | the loop returns exactly HoverTexts of the metadata |
| PlotlyRenderer.HoverTextsPrefixFails | src/starplot/interactive/plotly_renderer.py:271-312 | once one entry raises, the whole tooltip list raises |
| PlotlyRenderer.EmptyStarHover | src/starplot/interactive/plotly_renderer.py:282-291 | a star with no name, designation, magnitude, position or constellation gets the empty tooltip |
| PlotlyRenderer.Coords | src/starplot/interactive/plotly_renderer.py:181-182 | `[p[j] for p in pts]` succeeds exactly when every point has an index j, and then holds those coordinates in order |
| PlotlyRenderer.Repeat | src/starplot/interactive/plotly_renderer.py:149-150 | n copies of one hover name |
| PlotlyRenderer.SegmentRows | src/starplot/interactive/plotly_renderer.py:146-154 | one segment adds one row per point and then a None row to each of the x, y and hover columns |
| PlotlyRenderer.FlattenLengths | src/starplot/interactive/plotly_renderer.py:144-154 | the three flattened columns are equally long: every point plus one separator per segment |
| PlotlyRenderer.CoordsOf | src/starplot/interactive/plotly_renderer.py:147-148 | a column of found coordinates is the coordinate list of the segment |
| PlotlyRenderer.SegmentRowsFails | src/starplot/interactive/plotly_renderer.py:146-150 | a point without coordinate 0 or 1, or a metadata entry that is not a dict, makes the segment raise |
| PlotlyRenderer.SegmentRowsFound | src/starplot/interactive/plotly_renderer.py:146-154 | a segment whose coordinates and name are found adds exactly its x and y columns and its name for every point, each closed by None |
| PlotlyRenderer.FlattenSegment | src/starplot/interactive/plotly_renderer.py:146-154 | the inner loop returns exactly SegmentRows |
| PlotlyRenderer.FlattenLineCollection | src/starplot/interactive/plotly_renderer.py:144-154 | the nested loop returns exactly the rows of all segments in order, or fails when any segment does |
| PlotlyRenderer.FlattenStep | src/starplot/interactive/plotly_renderer.py:145-154 | one turn of the outer loop extends the columns by the segment's rows, or the whole collection raises |
| PlotlyRenderer.FlattenFailsAfter | src/starplot/interactive/plotly_renderer.py:143-171 | once a segment raises, the whole collection raises |
| PlotlyRenderer.CalibrateAll | src/starplot/interactive/plotly_renderer.py:110-111 | the list comprehension succeeds exactly when every size calibrates at the given resolution; then it has one size per recorded size, each the calibration of that size and at least 1.5 |
| PlotlyRenderer.DefaultResolution | src/starplot/interactive/plotly_renderer.py:109-111 | with no "resolution" in style_info, the sizes are calibrated at 4096 |
| PlotlyRenderer.ScatterSizes | src/starplot/interactive/plotly_renderer.py:108-111 | the calibrated sizes exist only when the recorded sizes are iterable |
| PlotlyRenderer.RenderScatter | src/starplot/interactive/plotly_renderer.py:105-137 | it raises exactly when a tooltip, a size calibration, `float(alpha)`, the symbol lookup or the edge width fails. Otherwise it adds one marker trace in the command's legend group, shown in the legend exactly when the group is new. The trace has the tooltips of HoverTexts and the sizes of CalibrateAll at `style_info.get("resolution", 4096)`. It has the first alpha, the symbol of MARKER_SYMBOL_MAP and the edge width times 0.3. x, y, the colours and the edge colour are as recorded |
| PlotlyRenderer.ScatterSizesAtDefault | src/starplot/interactive/plotly_renderer.py:109-111 | with no "resolution" in style_info, every size of a rendered scatter is its recorded size calibrated at 4096 |
| PlotlyRenderer.CollectionRows | src/starplot/interactive/plotly_renderer.py:144-154 | the nested loop's columns exist only when the recorded lines are iterable |
| PlotlyRenderer.RenderLineCollection | src/starplot/interactive/plotly_renderer.py:143-171 | it raises exactly when a segment raises or the width is not a number; otherwise it adds one trace whose x, y and hover columns are exactly the flattened segments, in the command's group, shown exactly when the group is new, with width `max(0.5, width * 0.3)`, colour "#aaaaaa" and opacity 1.0 by default |
| PlotlyRenderer.LineCollectionTraceRows | src/starplot/interactive/plotly_renderer.py:144-171 | the trace's three columns hold one row per point plus one None row per segment |
| PlotlyRenderer.RenderPolygon | src/starplot/interactive/plotly_renderer.py:177-198 | a polygon without points draws nothing; otherwise its ring is closed by repeating the first point, it never shows in the legend and it is filled exactly when a fill colour is set |
| PlotlyRenderer.RenderText | src/starplot/interactive/plotly_renderer.py:204-221 | a text becomes an annotation with a font of at least 8 and the anchors of ANCHOR_MAP, defaulting to middle/center; it raises exactly when an alignment is unhashable or the font size is not a number |
| PlotlyRenderer.RenderLine | src/starplot/interactive/plotly_renderer.py:227-244 | it raises exactly when the width is not a number. Otherwise a line adds one trace in the command's group, shown exactly when the group is new. The trace has width `max(0.5, width * 0.3)` and the converted dash, colour "#777777" and opacity 1.0 by default, and x and y as recorded |
| PlotlyRenderer.Handle | src/starplot/interactive/plotly_renderer.py:30-45 | only the six known kinds have a handler; polygon traces never show in the legend and every other trace shows exactly when its group is new |
| PlotlyRenderer.AddToGroup | src/starplot/interactive/plotly_renderer.py:137 | `setdefault(gid, []).append(idx)` adds the index to that group (creating it) and leaves the other groups unchanged |
| PlotlyRenderer.ByZorderCorrect | src/starplot/interactive/plotly_renderer.py:32 | render() visits the commands in ascending zorder, as a rearrangement of the log, keeping recording order within each layer |
| PlotlyRenderer.ReplayAppend | src/starplot/interactive/plotly_renderer.py:32-45 | replaying two runs of commands is replaying the first and then the second |
| PlotlyRenderer.HandleFailureIgnoresGroups | src/starplot/interactive/plotly_renderer.py:105-244 | whether a handler raises, returns early or is missing does not depend on the groups already recorded |
| PlotlyRenderer.DroppedCommandIsInvisible | src/starplot/interactive/plotly_renderer.py:41-45 | a command whose handler raises, returns early or does not exist leaves no trace in the figure or the groups |
| PlotlyRenderer.InfoTableNotRendered | src/starplot/interactive/plotly_renderer.py:33-40 | info_table commands have no handler and are never drawn |
| PlotlyRenderer.WithTracePointsBack | src/starplot/interactive/plotly_renderer.py:137 | after adding a trace every group index still names a non-polygon trace of that group |
| PlotlyRenderer.WithTraceStartsShown | src/starplot/interactive/plotly_renderer.py:135-137 | after adding a trace that shows exactly for a new group, every group's first trace is shown in the legend |
| PlotlyRenderer.WithTraceShownGrouped | src/starplot/interactive/plotly_renderer.py:135-137 | after adding a trace every trace shown in the legend belongs to a recorded group |
| PlotlyRenderer.WithTraceShownOnce | src/starplot/interactive/plotly_renderer.py:135-137 | after adding a trace no two shown traces share a group |
| PlotlyRenderer.WithTraceKeepsLegendOk | src/starplot/interactive/plotly_renderer.py:135-137 | the `showlegend=gid not in _trace_groups` rule keeps the legend bookkeeping |
| PlotlyRenderer.StepKeepsLegendOk | src/starplot/interactive/plotly_renderer.py:41-45 | rendering one command keeps the legend bookkeeping |
| PlotlyRenderer.ReplayKeepsLegendOk | src/starplot/interactive/plotly_renderer.py:30-47 | rendering any sequence of commands keeps the legend bookkeeping |
| PlotlyRenderer.OneLegendEntryPerGroup | src/starplot/interactive/plotly_renderer.py:133-137 | in a rendered figure every recorded group has exactly one trace shown in the legend |
| PlotlyRenderer.SetupLayout | src/starplot/interactive/plotly_renderer.py:53-99 | an axis gets a range exactly when both of its limits are set; the background colours default to white |
| PlotlyRenderer.Renderer.constructor | src/starplot/interactive/plotly_renderer.py:23-28 | a new renderer has an empty figure, no groups and the layout of SetupLayout, and calibrates at style_info's resolution, 4096 by default |
| PlotlyRenderer.Renderer.Dispatch | src/starplot/interactive/plotly_renderer.py:33-45 | one command's handler applied to the figure, with errors swallowed |
| PlotlyRenderer.Renderer.Render | src/starplot/interactive/plotly_renderer.py:30-47 | the figure becomes the replay of the commands in zorder order, then the interactive features are switched on and the figure is returned |
| StyleConverter.SymbolFor | src/starplot/interactive/style_converter.py:4-26 | a list or dict raises (the lookup needs a hashable key); a known marker name maps to its Plotly symbol and any other value to "circle"; the result is always one of the table's symbols |
| StyleConverter.DashFor | src/starplot/interactive/style_converter.py:29-38 | a known line style maps to its Plotly dash and anything else to "solid"; the result is one of the four dashes |
| StyleConverter.AnchorFor | src/starplot/interactive/style_converter.py:42-55 | a list or dict alignment raises; a known (va, ha) pair maps through ANCHOR_MAP, any other pair to (middle, center); left and right swap because the x axis is flipped |
| StyleConverter.AnchorVertical | src/starplot/interactive/style_converter.py:42-55 | every ANCHOR_MAP entry keeps the vertical anchor (center becomes middle, baseline becomes bottom) and mirrors the horizontal one |
| StyleConverter.CalibrateMarkerSize | src/starplot/interactive/style_converter.py:58-89 | a non-positive size gives 1.5; otherwise the calibrated diameter, never below 1.5; it raises only when a positive size meets resolution 0 |
| StyleConverter.CalibrateMonotone | src/starplot/interactive/style_converter.py:78-89 | a larger matplotlib size never gives a smaller Plotly marker |
| StyleConverter.CalibrateFloat | src/starplot/interactive/style_converter.py:78-89 | on a float, including NaN and the infinities, the result is at least 1.5 and agrees with the real-valued calibration on finite input |
| StyleConverter.CalibrateAt | src/starplot/interactive/style_converter.py:78-89 | calibration with the resolution taken from style_info: a non-positive size gives 1.5 whatever the resolution; a resolution that is not a number raises; a NaN or infinite one gives 1.5; a finite one calibrates as CalibrateValue, always at least 1.5 |
| StyleConverter.CalibrateValue | src/starplot/interactive/style_converter.py:58-89 | a value that is not a number raises; a calibrated size is at least 1.5 |
| StyleConverter.ScaledNumber | src/starplot/interactive/style_converter.py:101 | multiplying a style number by a constant succeeds exactly for numbers and gives their product |
| StyleConverter.ConvertMarkerStyle | src/starplot/interactive/style_converter.py:92-103 | the marker dict has the converted symbol, the calibrated size (at least 1.5), the edge width times 0.3, and the colour, opacity and edge colour with their defaults; it succeeds exactly when the symbol is hashable and size and edge width are numbers |
| StyleConverter.ConvertLineStyle | src/starplot/interactive/style_converter.py:106-112 | the line dict has a width of at least 1, the converted dash and colour "#777" by default; it raises exactly when width is not a number |
| StyleConverter.ConvertTextStyle | src/starplot/interactive/style_converter.py:115-129 | the font size is at least 8 and the anchors are those of AnchorFor; it raises exactly when an alignment is unhashable or the font size is not a number |
| StyleConverter.ConvertPolygonStyle | src/starplot/interactive/style_converter.py:132-143 | the fill is "toself" exactly when the fill colour is truthy, else None; it raises exactly when the edge width is not a number |
| StyleHelpers.Merged | src/starplot/styles/helpers.py:6-22 | the merged dict has exactly the keys of both dicts |
| StyleHelpers.MergeDict | src/starplot/styles/helpers.py:16-22 | the copy-then-assign loop over dict_2's keys returns exactly Merged |
| StyleHelpers.MergeUntouched | src/starplot/styles/helpers.py:16 | a key dict_2 lacks is present exactly when dict_1 has it, with dict_1's value |
| StyleHelpers.MergeEntrySame | src/starplot/styles/helpers.py:18-21 | a key's merged value depends on dict_2 only through that key |
| StyleHelpers.MergeStep | src/starplot/styles/helpers.py:17-21 | each turn of the loop extends the partial merge by exactly one key of dict_2 |
| StyleHelpers.MergedAt | src/starplot/styles/helpers.py:16-21 | keys only in dict_1 keep their values, two nested dicts are merged recursively, and dict_2 wins otherwise |
| StyleHelpers.MergeEmptyRight | src/starplot/styles/helpers.py:6-22 | merging in an empty dict gives back dict_1 |
| StyleHelpers.MergeEmptyLeft | src/starplot/styles/helpers.py:6-22 | merging into an empty dict gives back dict_2 |
| StyleHelpers.MergeIdempotent | src/starplot/styles/helpers.py:6-22 | a dict merged with itself is itself, at every depth |
| StyleHelpers.MergeAbsorbs | src/starplot/styles/helpers.py:6-22 | merging the same changes a second time changes nothing more |
| StyleHelpers.Split | src/starplot/styles/helpers.py:57 | `split("__")` always gives at least one piece |
| StyleHelpers.JoinCons | src/starplot/styles/helpers.py:57 | a character prepended to the first piece is prepended to the joined key |
| StyleHelpers.JoinSplit | src/starplot/styles/helpers.py:57 | joining the pieces of `split("__")` with "__" gives back the key |
| StyleHelpers.SplitCons | src/starplot/styles/helpers.py:57 | a character other than "_" belongs to the first piece |
| StyleHelpers.SplitPlain | src/starplot/styles/helpers.py:57 | a key without "_" is a single piece |
| StyleHelpers.SplitWord | src/starplot/styles/helpers.py:57 | a word without "_" followed by "__" is the first piece of the split |
| StyleHelpers.StylePathOf | src/starplot/styles/helpers.py:57 | the path of `style__rest` is the split of rest |
| StyleHelpers.SetDefaultFirstWins | src/starplot/styles/helpers.py:55-61 | after the nested setdefault, the path holds the value already there if any, else the new value |
| StyleHelpers.SetDefaultOthers | src/starplot/styles/helpers.py:58-61 | the nested setdefault leaves every other top-level key as it was |
| StyleHelpers.BuildOverrides | src/starplot/styles/helpers.py:53-61 | the loop over the style keywords returns exactly Overrides, or the error the first failing setdefault raises |
| StyleHelpers.OverridesFailAfter | src/starplot/styles/helpers.py:54-61 | once a keyword's setdefault raises, building the overrides raises that error |
| StyleHelpers.NestedOverride | src/starplot/styles/helpers.py:53-61 | `style__a__b=v` builds `{"a": {"b": v}}` |
| StyleHelpers.OverridesSingle | src/starplot/styles/helpers.py:54-61 | a single keyword sets its value at its path in an empty dict |
| StyleHelpers.NestedPath | src/starplot/styles/helpers.py:57 | the path of `style__a__b` is ["a", "b"] |
| StyleHelpers.OverridesFirstAt | src/starplot/styles/helpers.py:54-61 | the last keyword's value is at its path unless an earlier keyword already put one there, which then stays |
| StyleHelpers.KwSet | src/starplot/styles/helpers.py:47 | after `kwargs[name] = v`, `kwargs.get(name)` is v |
| StyleHelpers.StyleKwargs | src/starplot/styles/helpers.py:30-32 | the collected style keywords all start with `style__` |
| StyleHelpers.WithoutStyleKwargs | src/starplot/styles/helpers.py:73-77 | the filtered keywords contain no `style__` keyword and keep every other one unchanged |
| StyleHelpers.UseStyle | src/starplot/styles/helpers.py:28-83 | as intended, the corrected decorator (see Findings): the conflict error is raised exactly when a truthy style and style keywords are both given; after style keywords no `style__` keyword reaches the wrapped function |
| StyleHelpers.OverrideErrors | src/starplot/styles/helpers.py:34-61 | building the overrides never raises the conflict error |
| StyleHelpers.SetDefaultError | src/starplot/styles/helpers.py:58-61 | the only way the nested setdefault fails is reaching a value that is not a dict |
| StyleHelpers.UseStyleAppliesOverrides | src/starplot/styles/helpers.py:62-68 | as intended, corrected (see Findings): with a base style, the style built from keywords is the base dump merged with the overrides |
| StyleHelpers.UseStyleMergesDict | src/starplot/styles/helpers.py:39-47 | as intended, corrected (see Findings): with a base style, a style dict reaches the wrapped function merged into the base dump |
| StyleHelpers.UseStyleDefault | src/starplot/styles/helpers.py:79-81 | with no style given and a base style, the base style object is passed |
| StyleHelpers.AsWrittenIgnoresOverrides | src/starplot/styles/helpers.py:62-68 | as written, style keywords with a base style are dropped and the unchanged base style is built |
| StyleHelpers.AsWrittenIgnoresDict | src/starplot/styles/helpers.py:39-47 | as written, a style dict with a base style is dropped and the unchanged base style is built |
| StyleHelpers.AsWrittenDropsDict | src/starplot/styles/helpers.py:39-47 | as written, a base size of 22 with `style={"size": 10}` builds a style of size 22 |
| StyleHelpers.CorrectedKeepsDict | src/starplot/styles/helpers.py:39-47 | with the merge result used, the same dict builds a style of size 10 |
| StyleHelpers.AsWrittenDropsOverride | src/starplot/styles/helpers.py:62-68 | as written, a base size of 22 with `style__size=10` builds a style of size 22 |
| StyleHelpers.CorrectedKeepsOverride | src/starplot/styles/helpers.py:62-68 | with the merge result used, the same call builds a style of size 10 |
| StyleHelpers.ExampleMerge | src/starplot/styles/helpers.py:16-22 | merging {"size": 10} into {"size": 22} gives {"size": 10} |
| StyleHelpers.ExampleOverrides | src/starplot/styles/helpers.py:53-61 | `style__size=10` builds the overrides {"size": 10} |
| StyleHelpers.ExamplePath | src/starplot/styles/helpers.py:57 | the path of `style__size` is ["size"] |
| StyleBase.AsHoloviews | src/starplot/styles/base.py:165-192 | every marker symbol has a HoloViews marker code, one of the codes the table uses |
| StyleBase.SymbolMatplot | src/starplot/styles/base.py:337-365 | a listed symbol name gets its matplotlib marker and any other name gets "o" |
| StyleBase.SymbolTablesAgree | src/starplot/styles/base.py:165-192 | for every symbol, the name-keyed matplotlib table and the member-keyed HoloViews table give the same marker |
| StyleBase.SymbolTablesAgreeA | src/starplot/styles/base.py:340-348 | the two marker tables agree on point, plus, circle, square, striped square, star, sun and diamond |
| StyleBase.SymbolTablesAgreeB | src/starplot/styles/base.py:340-357 | the two marker tables agree on triangle and the circle variants |
| StyleBase.SymbolTablesAgreeC | src/starplot/styles/base.py:345-363 | the two marker tables agree on comet, the star variants, ellipse, cross, hexagon and pentagon |
| StyleBase.LineAsHoloviews | src/starplot/styles/base.py:201-209 | every line style has one of the four HoloViews line codes |
| StyleBase.LineAsHoloviewsInjective | src/starplot/styles/base.py:201-209 | distinct line styles get distinct HoloViews codes |
| StyleBase.AsMatplot | src/starplot/styles/base.py:244-275 | every anchor point sets exactly "va" and "ha" |
| StyleBase.AsMatplotInverts | src/starplot/styles/base.py:244-275 | as_matplot aligns the text on the opposite side of the named anchor, vertically and horizontally, because the map's axes are inverted |
| StyleBase.AnchorsConvertible | src/starplot/styles/base.py:244-275 | every (va, ha) pair as_matplot produces has an entry in the Plotly ANCHOR_MAP |
| StyleBase.FromStr | src/starplot/styles/base.py:277-280 | from_str returns the anchor with that value, and None exactly when no anchor has it |
| StyleBase.FromStrRoundTrip | src/starplot/styles/base.py:277-280 | from_str of an anchor's value is that anchor |
| StyleBase.ExpandShortHex | src/starplot/styles/base.py:448-452 | a 4-character "#rgb" colour becomes "#rrggbb" with each digit doubled; any other value is unchanged |
| StyleBase.ExpandShortHexInverse | src/starplot/styles/base.py:448-452 | compressing an expanded "#rgb" colour gives it back, and expanding it again changes nothing |
| StyleBase.ExpandColors | src/starplot/styles/base.py:447-452 | the colour loop expands exactly the listed colour keys and leaves the rest of the style dict unchanged |
| StyleBase.ExpandShortHexIdempotent | src/starplot/styles/base.py:448-452 | expanding a colour twice is expanding it once |
| StyleBase.AnchorNameParts | src/starplot/styles/base.py:738-739 | an anchor's name ends with "left" only for top left and bottom left, and starts with "bottom" exactly for the bottom anchors |
| StyleBase.AutoOffsetAtLeast | src/starplot/styles/base.py:741-752 | with a positive scale the automatic offset is at least 1.1 |
| StyleBase.PlaceLabel | src/starplot/styles/base.py:732-757 | the style is returned unchanged unless both offsets are "auto"; then both offsets are set, and a zero scale raises |
| StyleBase.OffsetSignsAsWritten | src/starplot/styles/base.py:732-757 | as written, an automatic offset is negative in x exactly when the anchor name ends with "left" and negative in y exactly when it starts with "bottom", at least 1.1 away on each axis |
| StyleBase.LeftCenterPushedRight | src/starplot/styles/base.py:738 | as written, a "left center" label is right-aligned by as_matplot yet pushed to the right of its marker |
| StyleBase.OffsetFollowsAlignment | src/starplot/styles/base.py:732-757 | corrected, an automatic offset points left exactly when the text is right-aligned and down exactly when it is top-aligned |
| StyleBase.DirectionsFollowAlignment | src/starplot/styles/base.py:244-275 | the corrected directions follow as_matplot's alignment for every anchor |
| StyleBase.ToMarkerStyle | src/starplot/styles/base.py:591-604 | the marker is filled exactly when the polygon has a colour or a fill colour, takes the colour first, and copies symbol, edge, alpha, layer and line style |
| StyleBase.GetDsoStyle | src/starplot/styles/base.py:1246-1276 | every listed DSO type has a style field, galaxies share one and nebulae share one, and an unlisted type gets None |
| BackendFactory.CreateFrom | src/starplot/backends/factory.py:19-37 | create fails exactly for an unregistered name, with the message listing the registered names; otherwise it instantiates the registered class with the keyword arguments |
| BackendFactory.Registry.constructor | src/starplot/backends/factory.py:13-16 | the registry starts with matplotlib and plotly, in that order |
| BackendFactory.Registry.Create | src/starplot/backends/factory.py:19-37 | create returns exactly CreateFrom on the current registry |
| BackendFactory.Registry.RegisterBackend | src/starplot/backends/factory.py:40-47 | registering sets the name's class, keeps a re-registered name in its place and appends a new one at the end |
| BackendFactory.Registry.ListBackends | src/starplot/backends/factory.py:50-56 | the list holds each registered name exactly once, in registration order |
| BackendFactory.RegisterThenCreate | src/starplot/backends/factory.py:40-47 | after registering a class under a name, creating that name makes that class |
| BackendFactory.RegisterKeepsOthers | src/starplot/backends/factory.py:40-47 | registering one name does not change what any other registered name creates |
| BackendFactory.UnknownBackendMessage | src/starplot/backends/factory.py:32-34 | with the default registry an unknown name fails with "Backend 'bokeh' not supported. Available: matplotlib, plotly" |
| StyleAdapter.ConvertColor | src/starplot/backends/style_adapter.py:12-20 | a colour object gives its hex form and a string comes back unchanged |
| StyleAdapter.ConvertMarkerSymbol | src/starplot/backends/style_adapter.py:105-122 | a listed matplotlib marker gets its Plotly symbol, anything else "circle"; the result is always one of the table's symbols |
| StyleAdapter.ConvertLinestyle | src/starplot/backends/style_adapter.py:124-137 | a listed line style gets its Plotly dash, anything else "solid" |
| StyleAdapter.LinestyleFormsAgree | src/starplot/backends/style_adapter.py:127-136 | the short and long name of each line style convert to the same dash |
| StyleAdapter.ConvertTextAnchor | src/starplot/backends/style_adapter.py:139-154 | the horizontal anchor is always center, left or right |
| StyleAdapter.EnumAnchorsCentered | src/starplot/backends/style_adapter.py:142-154 | every anchor enum member, whose value is compound or "center", converts to "center" |
| StyleAdapter.TextAnchorWords | src/starplot/backends/style_adapter.py:147-154 | "bottom" converts to left, "top" to right, and a compound value such as "bottom right" to center |
| StyleAdapter.PlotlyStarStyleOf | src/starplot/backends/style_adapter.py:33-49 | the star scatter has markers only, no legend and no hover, the converted matplotlib symbol, and an edge of width 1 exactly when there is an edge colour (else width 0 and no colour) |
| StyleAdapter.StarSymbolsConvert | src/starplot/backends/style_adapter.py:41 | every starplot marker symbol reaches a Plotly symbol through its matplotlib code |
| HoloViewsBackend.MarkerFor | src/starplot/backends/holoviews_backend.py:33-50 | a marker goes through the table with default 'o'; an unhashable list or dict raises |
| HoloViewsBackend.RStripPt | src/starplot/backends/holoviews_backend.py:58 | `rstrip('pt')` removes exactly the trailing run of 'p' and 't' characters |
| HoloViewsBackend.Moved | src/starplot/backends/holoviews_backend.py:29-30 | after `style[to] = style.pop(from)` the target holds the source's value when the source was present, and its own value otherwise |
| HoloViewsBackend.Renamed | src/starplot/backends/holoviews_backend.py:28-84 | a key holds a value after renaming only when it was in the input or is one of the new names |
| HoloViewsBackend.ConvertedStyle | src/starplot/backends/holoviews_backend.py:24-97 | the conversion raises exactly for an unhashable marker or a font size that is not a string |
| HoloViewsBackend.ConvertedAt | src/starplot/backends/holoviews_backend.py:24-97 | a key is in the result exactly when it is supported and renaming leaves a value there, and it holds that value |
| HoloViewsBackend.ConvertedDropsKeys | src/starplot/backends/holoviews_backend.py:29-95 | the result contains no unsupported option and none of the renamed source keys |
| HoloViewsBackend.ConvertedKeepsOthers | src/starplot/backends/holoviews_backend.py:26 | an option the conversion does not mention keeps its value |
| HoloViewsBackend.ConvertedLineWidth | src/starplot/backends/holoviews_backend.py:29-30 | `linewidth` takes `edge_line_width` when given, else `line_width` |
| HoloViewsBackend.ConvertedSize | src/starplot/backends/holoviews_backend.py:53-54 | `size` becomes `s` |
| HoloViewsBackend.ConvertedFillColor | src/starplot/backends/holoviews_backend.py:61-62 | `fill_color` becomes `facecolor` |
| HoloViewsBackend.ConvertedEdgeColor | src/starplot/backends/holoviews_backend.py:65-66 | `edge_color` becomes `edgecolor` |
| HoloViewsBackend.ConvertedMarker | src/starplot/backends/holoviews_backend.py:33-50 | `marker` is replaced by its table entry |
| HoloViewsBackend.ConvertedFontSize | src/starplot/backends/holoviews_backend.py:57-58 | `text_font_size` becomes `fontsize` without its trailing 'p' and 't' |
| HoloViewsBackend.ConvertedDash | src/starplot/backends/holoviews_backend.py:73-84 | `line_dash` becomes `linestyle`: a string through the dash table with default '-', anything else as it is |
| HoloViewsBackend.DropUnsupported | src/starplot/backends/holoviews_backend.py:87-95 | the loop pops exactly the unsupported options and keeps everything else |
| HoloViewsBackend.At | src/starplot/backends/holoviews_backend.py:24-97 | the value under a key, present exactly when the key is |
| HoloViewsBackend.RenameAt | src/starplot/backends/holoviews_backend.py:29-30 | key by key, a rename step removes the source, moves its value to the target and keeps every other key |
| HoloViewsBackend.StepsAt | src/starplot/backends/holoviews_backend.py:28-84 | key by key, the eight steps leave exactly the value Renamed describes |
| HoloViewsBackend.StepsRename | src/starplot/backends/holoviews_backend.py:28-84 | the eight renaming steps, taken in order, give exactly RenamedStyle |
| HoloViewsBackend.ConvertStyle | src/starplot/backends/holoviews_backend.py:24-97 | the step-by-step method returns exactly ConvertedStyle of its input, which it leaves untouched |
| StarPlotter.Entry | src/starplot/plotters/stars.py:265-268 | a kept star's entry keeps its position and star, its size is size_fn scaled by scale², its alpha is alpha_fn's, and its colour is color_fn's unless that is empty, in which case the style's colour |
| StarPlotter.CollectedExactly | src/starplot/plotters/stars.py:246-263 | the loop over the rows contributes an entry for every candidate that is on screen and only for those: no negative or NaN display coordinate and not clipped |
| StarPlotter.PlotOrder | src/starplot/plotters/stars.py:243-294 | `starz` is ordered by descending size, is a permutation of the on-screen entries, and entries of equal size keep row order (Python's sort with reverse=True is stable; the sort is SortByDescending) |
| StarPlotter.LabelText | src/starplot/plotters/stars.py:109-114 | the name label is label_fn(s) when label_fn is given, else labels[hip] when hip is a key, else the star's name |
| StarPlotter.Visit | src/starplot/plotters/stars.py:93-137 | a star outside label_row_ids or already labelled changes nothing; otherwise the queues only grow, a name label is added exactly when the label text is truthy, a Bayer label exactly when bayer_labels and the designation is truthy, a Flamsteed label exactly when flamsteed_labels, the number is truthy and there is no Bayer designation |
| StarPlotter.VisitAddsStar | src/starplot/plotters/stars.py:119-137 | each label a turn adds carries the star's text, ra, dec and marker size, and each queue grows by at most one |
| StarPlotter.SoundStep | src/starplot/plotters/stars.py:133-137 | appending a sound label to a sound queue keeps it sound |
| StarPlotter.PassSound | src/starplot/plotters/stars.py:93-137 | after the first loop every queued label belongs to a star in label_row_ids, carries that star's position and size, and says what its kind requires (label text, Bayer designation, or Flamsteed number of a star without one) |
| StarPlotter.QueueStep | src/starplot/plotters/stars.py:97-107 | a queue whose labels belong to distinct stars with distinct, newly recorded ids keeps that after a turn that adds at most a label for the current star |
| StarPlotter.VisitRecords | src/starplot/plotters/stars.py:97-107 | a turn only appends to `_labeled_stars`, and a labelled star with a hip or tyc has it recorded now, when it was not recorded before |
| StarPlotter.VisitLabelsOnce | src/starplot/plotters/stars.py:93-137 | one turn of the first loop keeps the labelled-at-most-once invariant |
| StarPlotter.PassLabelsOnce | src/starplot/plotters/stars.py:97-107 | each hip or tyc is labelled at most once per queue, in star order, and none that `_labeled_stars` held before the call is labelled again |
| StarPlotter.EmissionOrder | src/starplot/plotters/stars.py:119-166 | every name label is drawn before every Bayer label, and every Bayer label before every Flamsteed label |
| StarPlotter.StarPlotter.constructor | src/starplot/plotters/stars.py:15 | a fresh plotter has no remembered mag, no labelled stars and no text calls |
| StarPlotter.StarPlotter.RememberMag | src/starplot/plotters/stars.py:194-196 | a `mag` keyword is stored in the instance, and without one the stored value is kept; nothing else changes |
| StarPlotter.StarPlotter.LoadFilters | src/starplot/plotters/stars.py:16-30 | without a remembered mag the filters pass through unchanged; with one they are the given filters (an empty list for None) followed by one more, and a star passes them all exactly when it passes the given filters and has magnitude <= mag |
| StarPlotter.StarPlotter.VisitStar | src/starplot/plotters/stars.py:93-137 | the loop body updates `_labeled_stars`, the text calls and the two queues exactly as Visit says |
| StarPlotter.StarPlotter.Emit | src/starplot/plotters/stars.py:140-166 | one text call per queued label, appended in queue order; nothing else changes |
| StarPlotter.StarPlotter.StarLabels | src/starplot/plotters/stars.py:78-166 | `_labeled_stars` becomes the first loop's result and the text calls are the name labels, then the Bayer labels, then the Flamsteed labels of Pass |
| PlotlyBackend.Lookup | examples/plotly_experiments/plotly_backend.py:300 | `d.get(k, default)`: the mapped value for a key of the table, the default otherwise |
| PlotlyBackend.ConvertMarkerSymbol | examples/plotly_experiments/plotly_backend.py:284-300 | the result is always one of the table's Plotly symbols, and every marker the table does not know becomes 'circle' |
| PlotlyBackend.ConvertLinestyle | examples/plotly_experiments/plotly_backend.py:302-314 | the result is always one of the table's dashes, and every style the table does not know becomes 'solid' |
| PlotlyBackend.LinestyleSpellingsAgree | examples/plotly_experiments/plotly_backend.py:304-313 | '-' and 'solid', '--' and 'dashed', '-.' and 'dashdot', ':' and 'dotted' give the same dash |
| PlotlyBackend.ConvertTextAlignment | examples/plotly_experiments/plotly_backend.py:316-323 | the anchor is 'left' exactly for 'left', 'right' exactly for 'right', and 'center' for everything else |
| PlotlyBackend.ConvertTextValignment | examples/plotly_experiments/plotly_backend.py:325-333 | the anchor is 'top' exactly for 'top', 'bottom' exactly for 'bottom' or 'baseline', and 'middle' for everything else |
| PlotlyBackend.ClosePolygon | examples/plotly_experiments/plotly_backend.py:192-193 | the points are a prefix of the ring, a non-empty ring starts and ends at the same point, and one point is added exactly when the first and last differ |
| PlotlyBackend.ClosePolygonIdempotent | examples/plotly_experiments/plotly_backend.py:192-193 | closing a closed ring leaves it unchanged, so the closing point is never doubled |
| PlotlyBackend.Xs | examples/plotly_experiments/plotly_backend.py:195 | the x coordinates are the first components of the points, in order |
| PlotlyBackend.Ys | examples/plotly_experiments/plotly_backend.py:196 | the y coordinates are the second components of the points, in order |
| PlotlyBackend.PolygonTraceOf | examples/plotly_experiments/plotly_backend.py:192-209 | the trace's x and y run over the closed ring and end where they start, it is filled 'toself' exactly when a non-empty fill colour is given, the edge is the edge colour or 'black', width 1, with the given opacity |
| PlotlyBackend.Mean | examples/plotly_experiments/plotly_backend.py:103 | `np.mean` is NaN exactly for an empty array and finite otherwise |
| PlotlyBackend.SumBounds | examples/plotly_experiments/plotly_backend.py:103 | a sum of n values lies between n times a lower and n times an upper bound of them |
| PlotlyBackend.MeanBetween | examples/plotly_experiments/plotly_backend.py:103 | the mean opacity of an alpha array lies between its smallest and largest alpha |
| PlotlyBackend.Doubled | examples/plotly_experiments/plotly_backend.py:86-88 | every marker size is doubled, elementwise |
| PlotlyBackend.EdgeLineOf | examples/plotly_experiments/plotly_backend.py:107-110 | the edge has width 0 exactly when edgecolors is missing, empty or 'none', and otherwise has that colour and width 1 |
| PlotlyBackend.ScatterTraceOf | examples/plotly_experiments/plotly_backend.py:82-125 | x and y as given; sizes: 6 when missing, else doubled; colour: the string or array given, else 'blue'; opacity 1 when missing, the number given, or the array's mean; the converted symbol and the edge rule |
| PlotlyBackend.PlotlyBackend.constructor | examples/plotly_experiments/plotly_backend.py:15-20 | a fresh backend has no traces and no annotations |
| PlotlyBackend.PlotlyBackend.Scatter | examples/plotly_experiments/plotly_backend.py:74-128 | the scatter trace, with the given x and y, is appended to the figure's traces and returned; the annotations are unchanged |
| PlotlyBackend.PlotlyBackend.AddPolygon | examples/plotly_experiments/plotly_backend.py:185-212 | the closed-ring trace is appended to the figure's traces and returned; the annotations are unchanged |
| PlotlyBackend.PlotlyBackend.AddText | examples/plotly_experiments/plotly_backend.py:156-183 | the annotation carries the text, position, font and converted anchors, and is appended to the layout's annotations; the traces are unchanged |
| Sorting.InsertPermutes | src/starplot/plotters/stars.py:294 | inserting adds exactly the one element to the multiset |
| Sorting.InsertSorted | src/starplot/plotters/stars.py:294 | inserting into a key-ordered sequence keeps it ordered |
| Sorting.InsertWithKey | src/starplot/plotters/stars.py:294 | the inserted element goes in front of every element of equal key, so the subsequence with its key gains it at the front and the other keys' subsequences are unchanged |
| Sorting.SortBySorted | src/starplot/interactive/plotly_renderer.py:32 | Python's sort with a key leaves the keys in ascending order |
| Sorting.SortByPermutes | src/starplot/interactive/plotly_renderer.py:32 | the sorted list is a rearrangement of its input |
| Sorting.SortByStable | src/starplot/interactive/plotly_renderer.py:32 | the sort is stable: elements with equal keys keep their input order |
| Sorting.WithKeyNegated | src/starplot/plotters/stars.py:294 | the elements with key k are the elements whose negated key is -k |
| Sorting.SortByDescendingCorrect | src/starplot/plotters/stars.py:294 | `sort(key=k, reverse=True)` orders keys from largest to smallest, is a permutation, and keeps equal keys in input order |

## Where the code and the design differ

The model follows the code in each of these cases.

- **Label retraction.** The design says a second retraction of the same label is a no-op. The patched `remove()` in `recording_mixin.py:216-221` removes the first command *equal* to the recorded one. So when another call recorded an equal command, the second removal takes that command out. `Commands.RemoveTwiceTakesEqualCopy` exhibits this. `RecordingMixin.PlaceThenRemove` gives the case where the design's promise does hold.
- **Info tables.** The design describes info tables as rendered annotation strips. `PlotlyRenderer.render` has no handler for `info_table`, so such commands are skipped (`PlotlyRenderer.InfoTableNotRendered`).
- **Text anchors.** `StyleAdapter.convert_text_anchor` maps only the bare words "bottom" and "top". Every `AnchorPointEnum` value is compound or "center", so every enum member becomes "center" (`StyleAdapter.EnumAnchorsCentered`).

## Left out

**Plotting libraries and external calls**
- Calls into plotly, matplotlib, cartopy, holoviews, skyfield, rtree, ibis and shapely are not modelled. Traces and annotations are datatypes, and plotly's own validation of them is not modelled. The projection (`transform_point`), the clip test and `math.sqrt` are parameters. For `sqrt`, the lemmas use only monotonicity and non-negativity.
- The wrapped static plot is abstract. Its return values, and whether a delegated call raised, are inputs to the mixin's methods. `_record_plot_info` reads attributes of that plot and is not part of this model.
- File I/O and export (`export`, `write_html`, `write_image`, `show`, `close`) are left out: they only write files or open windows.

**Numbers and text**
- Float formatting in hover texts is taken as a formatter parameter. Floating-point rounding is not modelled: arithmetic is over `real`, with NaN and the infinities as explicit values where the code tests them (`np.isnan`, `math.isfinite`, `max` with NaN).
- Python's `1 == 1.0` across int and float, and tuple comparisons involving NaN, are not modelled: values compare structurally.
- `str.title()` in the legend-name fallback is modelled on ASCII letters only. Unicode case mapping is not available.
- Recorder.TextCommand: `float()` of a numeric string such as "1.5" succeeds in Python, but the model's `float()` accepts numbers only, so such a text command counts as failing. Parsing numbers out of strings is not modelled.
- PlotlyRenderer.RenderScatter: `float(alpha)` on a numeric string alpha likewise counts as raising. A dict passed as sizes is treated as not iterable, as below.
- RecordingMixin.PolygonRecordedStyle: which style attributes lack `as_hex` is not modelled; whether reading the style raises is an input flag.
- RecordingMixin.PolygonPoints: a numeric string coordinate such as "1.5" counts as failing, as for Recorder.TextCommand.
- Recorder.Broadcast: `list(d)` of a dict gives its keys in insertion order, but the model treats a dict as not iterable, because dict order is not modelled. The same holds for Recorder.LineCommand, Recorder.PolygonCommand, Recorder.LineCollectionCommand, Recorder.GradientCommand and Recorder.InfoTableCommand.
- Recorder.ScatterCommand: a dict as x, y, sizes, colours, alphas or metadata counts as a failed `list()` conversion, where Python would use the dict's keys.
- Dict key order is not modelled; dicts are maps. The exception is the backend registry, whose `list_backends` order is kept as a list of names.

**Styles**
- Pydantic validation, `Color` parsing, `model_dump_json` and `PlotStyle.extend` are not modelled. Building a style object from a dict is a parameter `build`.

**Star catalog and loading**
- Catalog loading, SQL, rtree indexing, apparent positions and the zenith horizon cut in `stars()` are not modelled. Their results reach the model as candidate rows carrying display positions and a clip flag. Stars of magnitude below 5 are inserted into `_stars_rtree`, which is not modelled.
- StarPlotter.StarPlotter.LoadFilters: returns the new filter list rather than appending to the caller's list. With `where` given, `_load_stars` appends to that same list object. The model does not capture this aliasing.

**Calls not modelled**
- `_add_interactive_features` is modelled as one constant record of its mode-bar buttons and click mode, which `render` sets. Plotly's handling of those options is not modelled.
- `StyleAdapter.matplotlib_star_style`, `matplotlib_line_style`, `plotly_line_style`, `matplotlib_text_style` and `plotly_text_style` are not part of this model. They repackage style fields into library keyword dicts, with no lookups or defaults beyond those modelled in `plotly_star_style` and the converters.
- `HoloViewsBackend.plot`, `marker`, `text`, `polygon`, `export` and `get_figure` are not modelled: they hand the converted style to holoviews.
- In the experimental `PlotlyBackend`, the following only forward their arguments to plotly and are not modelled:
  - `create_figure` and `create_subplot`;
  - `set_xlim`, `set_ylim` and `set_extent`;
  - `set_background_color` and `set_title`;
  - `plot_lines`;
  - `set_axis_off` and `set_aspect_equal`.

**Value semantics**
- "Fresh default containers per instance" and "`_convert_style` does not mutate its input" hold trivially in the model, because values are immutable. The model therefore says nothing about Python object identity.

## Findings

| source | as written | input that shows it | evidently intended | confidence | as-written member | corrected member |
|---|---|---|---|---|---|---|
| src/starplot/styles/helpers.py:45,66 | `merge_dict(base_style, ...)` discards its result. `merge_dict` returns a merged copy and leaves `base_style` alone, so the style is built from the unchanged base | a base style of size 22, called with `style__size=10` or with `style={"size": 10}` | the style is built from the base with the overrides merged in, so its size is 10 | high, not executed | StyleHelpers.AsWrittenDropsOverride, StyleHelpers.AsWrittenDropsDict | StyleHelpers.CorrectedKeepsOverride, StyleHelpers.CorrectedKeepsDict |
| src/starplot/styles/base.py:738 | `x_direction` is -1 only when the anchor ends with "left"; "left center" does not | anchor LEFT_CENTER with automatic offsets: `as_matplot` right-aligns the text, yet the x offset is positive | the x offset points away from the marker on the side the text extends to: negative exactly when the text is right-aligned, as for "bottom left" and "top left" | medium, not executed | StyleBase.LeftCenterPushedRight | StyleBase.OffsetFollowsAlignment |
