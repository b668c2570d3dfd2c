/**
 * StyleHelpers: the recursive dictionary merge and the `use_style`
 * decorator's handling of `style=` and `style__a__b=` keyword arguments.
 */
module StyleHelpers {
  import opened Wrappers
  import opened PyValues

  // ------------------------------------------------------------------
  // merge_dict
  // ------------------------------------------------------------------

  /** The value merge_dict stores under key k. */
  function MergeEntry(d1: map<string, Value>, d2: map<string, Value>, k: string): Value
    requires k in d1 || k in d2
    decreases VDict(d2), 0
  {
    if k !in d2 then d1[k]
    else if k in d1 && d1[k].VDict? && d2[k].VDict? then VDict(Merged(d1[k].entries, d2[k].entries))
    else d2[k]
  }

  /**
   * merge_dict's result: a key of either side; dict_2 wins, except that two
   * dicts under one key are merged recursively.
   */
  function Merged(d1: map<string, Value>, d2: map<string, Value>): (r: map<string, Value>)
    ensures r.Keys == d1.Keys + d2.Keys
    decreases VDict(d2), 1
  {
    map k | k in d1.Keys + d2.Keys :: MergeEntry(d1, d2, k)
  }

  /** merge_dict: copy dict_1, then assign dict_2's keys one by one, recursing into nested dicts. */
  method MergeDict(d1: map<string, Value>, d2: map<string, Value>) returns (result: map<string, Value>)
    ensures result == Merged(d1, d2)
    decreases VDict(d2)
  {
    result := d1;
    var todo := d2.Keys;
    while todo != {}
      invariant todo <= d2.Keys
      invariant result == Merged(d1, d2 - todo)
      decreases |todo|
    {
      var k :| k in todo;
      MergeUntouched(d1, d2 - todo, k);
      if k in result && result[k].VDict? && d2[k].VDict? {
        var sub := MergeDict(result[k].entries, d2[k].entries);
        result := result[k := VDict(sub)];
      } else {
        result := result[k := d2[k]];
      }
      MergeStep(d1, d2, todo, k);
      todo := todo - {k};
    }
    assert d2 - {} == d2;
  }

  /** A key merge_dict has not yet reached holds dict_1's value, if any. */
  lemma MergeUntouched(d1: map<string, Value>, d2: map<string, Value>, k: string)
    requires k !in d2
    ensures k in Merged(d1, d2) <==> k in d1
    ensures k in d1 ==> Merged(d1, d2)[k] == d1[k]
  {
  }

  /** MergeEntry reads dict_2 only at its key. */
  lemma MergeEntrySame(d1: map<string, Value>, a: map<string, Value>, b: map<string, Value>, j: string)
    requires (j in a <==> j in b) && (j in a ==> a[j] == b[j]) && (j in d1 || j in a)
    ensures MergeEntry(d1, a, j) == MergeEntry(d1, b, j)
  {
  }

  /** Assigning one more of dict_2's keys extends the merge by that key. */
  lemma MergeStep(d1: map<string, Value>, d2: map<string, Value>, todo: set<string>, k: string)
    requires todo <= d2.Keys && k in todo
    ensures Merged(d1, d2 - (todo - {k})) == Merged(d1, d2 - todo)[k := MergeEntry(d1, d2, k)]
  {
    var before, after := d2 - todo, d2 - (todo - {k});
    var l, r := Merged(d1, after), Merged(d1, before)[k := MergeEntry(d1, d2, k)];
    assert after.Keys == before.Keys + {k};
    assert l.Keys == r.Keys;
    forall j | j in l ensures l[j] == r[j] {
      if j == k {
        MergeEntrySame(d1, after, d2, k);
      } else {
        MergeEntrySame(d1, after, before, j);
      }
    }
  }

  /** What each key of the merge holds: dict_1's only keys keep their values, dict_2 wins otherwise. */
  lemma MergedAt(d1: map<string, Value>, d2: map<string, Value>, k: string)
    ensures k in d1 && k !in d2 ==> Merged(d1, d2)[k] == d1[k]
    ensures k in d2 && !(k in d1 && d1[k].VDict? && d2[k].VDict?) ==> Merged(d1, d2)[k] == d2[k]
    ensures k in d1 && k in d2 && d1[k].VDict? && d2[k].VDict? ==>
      Merged(d1, d2)[k] == VDict(Merged(d1[k].entries, d2[k].entries))
  {
  }

  /** Merging nothing in changes nothing. */
  lemma MergeEmptyRight(d: map<string, Value>)
    ensures Merged(d, map[]) == d
  {
    assert forall k :: k in d ==> Merged(d, map[])[k] == d[k];
  }

  /** Merging into nothing gives the other side. */
  lemma MergeEmptyLeft(d: map<string, Value>)
    ensures Merged(map[], d) == d
  {
    assert forall k :: k in d ==> Merged(map[], d)[k] == d[k];
  }

  /** A dictionary merged with itself is itself, at every depth. */
  lemma {:induction false} MergeIdempotent(d: map<string, Value>)
    ensures Merged(d, d) == d
    decreases VDict(d)
  {
    forall k | k in d ensures Merged(d, d)[k] == d[k] {
      if d[k].VDict? {
        MergeIdempotent(d[k].entries);
      }
    }
  }

  /** Merging the same overrides a second time changes nothing more. */
  lemma {:induction false} MergeAbsorbs(a: map<string, Value>, b: map<string, Value>)
    ensures Merged(Merged(a, b), b) == Merged(a, b)
    decreases VDict(b)
  {
    var m := Merged(a, b);
    forall k | k in m ensures Merged(m, b)[k] == m[k] {
      if k in b && b[k].VDict? {
        if k in a && a[k].VDict? {
          MergeAbsorbs(a[k].entries, b[k].entries);
        } else {
          MergeIdempotent(b[k].entries);
        }
      }
    }
  }

  // ------------------------------------------------------------------
  // style__ keyword arguments
  // ------------------------------------------------------------------

  predicate StartsWith(s: string, prefix: string) { |prefix| <= |s| && s[..|prefix|] == prefix }

  /** `s.split("__")`: the pieces between non-overlapping separators, left to right. */
  function Split(s: string): (r: seq<string>)
    ensures |r| >= 1
    decreases |s|
  {
    if |s| < 2 then [s]
    else if s[0] == '_' && s[1] == '_' then [""] + Split(s[2..])
    else var rest := Split(s[1..]); [[s[0]] + rest[0]] + rest[1..]
  }

  /** `"__".join(parts)`. */
  function Join(parts: seq<string>): string
    requires |parts| >= 1
  {
    if |parts| == 1 then parts[0] else parts[0] + "__" + Join(parts[1..])
  }

  /** A character prepended to the first piece is prepended to the joined string. */
  lemma JoinCons(c: char, parts: seq<string>)
    requires |parts| >= 1
    ensures Join([[c] + parts[0]] + parts[1..]) == [c] + Join(parts)
  {
    var longer := [[c] + parts[0]] + parts[1..];
    if |parts| > 1 {
      assert longer[1..] == parts[1..];
      ConcatAssoc([c], parts[0], "__" + Join(parts[1..]));
    }
  }

  lemma ConcatAssoc(a: string, b: string, t: string)
    ensures (a + b) + t == a + (b + t)
  {
  }

  /** Splitting on "__" and joining back gives the key. */
  lemma {:induction false} JoinSplit(s: string)
    ensures Join(Split(s)) == s
    decreases |s|
  {
    if |s| >= 2 {
      if s[0] == '_' && s[1] == '_' {
        JoinSplit(s[2..]);
        assert ([""] + Split(s[2..]))[1..] == Split(s[2..]);
        assert s == "__" + s[2..];
      } else {
        JoinSplit(s[1..]);
        JoinCons(s[0], Split(s[1..]));
        assert s == [s[0]] + s[1..];
      }
    }
  }

  /** A character other than '_' just joins the first piece. */
  lemma SplitCons(c: char, t: string)
    requires c != '_'
    ensures Split([c] + t) == [[c] + Split(t)[0]] + Split(t)[1..]
  {
    assert ([c] + t)[1..] == t;
  }

  /** A string without '_' is a single piece. */
  lemma {:induction false} SplitPlain(s: string)
    requires forall i :: 0 <= i < |s| ==> s[i] != '_'
    ensures Split(s) == [s]
    decreases |s|
  {
    if |s| >= 2 {
      SplitPlain(s[1..]);
      assert s == [s[0]] + s[1..];
    }
  }

  /** The path of a style keyword: everything after the leading "style" piece. */
  function StylePath(key: string): seq<string>
  {
    Split(key)[1..]
  }

  /** A word without '_' followed by "__" is the first piece. */
  lemma {:induction false} SplitWord(w: string, rest: string)
    requires forall i :: 0 <= i < |w| ==> w[i] != '_'
    ensures Split(w + "__" + rest) == [w] + Split(rest)
    decreases |w|
  {
    if w == [] {
      assert w + "__" + rest == "__" + rest;
      assert ("__" + rest)[2..] == rest;
    } else {
      SplitWord(w[1..], rest);
      assert w + "__" + rest == [w[0]] + (w[1..] + "__" + rest);
      SplitCons(w[0], w[1..] + "__" + rest);
      assert [w[0]] + w[1..] == w;
    }
  }

  /** A `style__` keyword always names a non-empty path. */
  lemma StylePathOf(rest: string)
    ensures StylePath("style__" + rest) == Split(rest)
  {
    SplitWord("style", rest);
    assert "style__" + rest == "style" + "__" + rest;
  }

  /**
   * Walk `path` with `setdefault`, creating empty dicts for the inner parts,
   * and `setdefault` the value at its end. An inner part that holds
   * something other than a dict raises (it has no `setdefault`).
   */
  function SetDefaultPath(t: map<string, Value>, path: seq<string>, v: Value): Result<map<string, Value>>
    requires |path| >= 1
    decreases |path|
  {
    if |path| == 1 then Ok(if path[0] in t then t else t[path[0] := v])
    else
      var sub := if path[0] in t then t[path[0]] else VDict(map[]);
      if !sub.VDict? then Err("object has no attribute 'setdefault'")
      else match SetDefaultPath(sub.entries, path[1..], v)
        case Ok(inner) => Ok(t[path[0] := VDict(inner)])
        case Err(e) => Err(e)
  }

  /** The value at a path of nested dicts. */
  function LookupPath(t: map<string, Value>, path: seq<string>): Option<Value>
    requires |path| >= 1
    decreases |path|
  {
    if path[0] !in t then None
    else if |path| == 1 then Some(t[path[0]])
    else if t[path[0]].VDict? then LookupPath(t[path[0]].entries, path[1..])
    else None
  }

  /** setdefault along a path: a value already there wins; otherwise the new one is stored. */
  lemma {:induction false} SetDefaultFirstWins(t: map<string, Value>, path: seq<string>, v: Value)
    requires |path| >= 1 && SetDefaultPath(t, path, v).Ok?
    ensures LookupPath(SetDefaultPath(t, path, v).value, path) ==
      (if LookupPath(t, path).Some? then LookupPath(t, path) else Some(v))
    decreases |path|
  {
    if |path| > 1 {
      var sub := if path[0] in t then t[path[0]] else VDict(map[]);
      SetDefaultFirstWins(sub.entries, path[1..], v);
    }
  }

  /** setdefault along a path leaves the other top-level keys alone. */
  lemma SetDefaultOthers(t: map<string, Value>, path: seq<string>, v: Value, k: string)
    requires |path| >= 1 && SetDefaultPath(t, path, v).Ok? && k != path[0]
    ensures k in SetDefaultPath(t, path, v).value <==> k in t
    ensures k in t ==> SetDefaultPath(t, path, v).value[k] == t[k]
  {
  }

  /** The overrides built from the first n style keywords, in keyword order. */
  function Overrides(styleKwargs: seq<(string, Value)>): Result<map<string, Value>>
  {
    if styleKwargs == [] then Ok(map[])
    else
      var last := styleKwargs[|styleKwargs| - 1];
      match Overrides(styleKwargs[..|styleKwargs| - 1])
      case Err(e) => Err(e)
      case Ok(t) =>
        var path := StylePath(last.0);
        if path == [] then Err("key has no path") else SetDefaultPath(t, path, last.1)
  }

  /** The loop of use_style's wrapper that builds `styling_overrides`. */
  method BuildOverrides(styleKwargs: seq<(string, Value)>) returns (r: Result<map<string, Value>>)
    ensures r == Overrides(styleKwargs)
  {
    var overrides: map<string, Value> := map[];
    var i := 0;
    while i < |styleKwargs|
      invariant 0 <= i <= |styleKwargs|
      invariant Overrides(styleKwargs[..i]) == Ok(overrides)
    {
      assert styleKwargs[..i + 1][..i] == styleKwargs[..i];
      var path := StylePath(styleKwargs[i].0);
      if path == [] {
        OverridesFailAfter(styleKwargs, i + 1);
        return Err("key has no path");
      }
      var next := SetDefaultPath(overrides, path, styleKwargs[i].1);
      if next.Err? {
        OverridesFailAfter(styleKwargs, i + 1);
        return Err(next.error);
      }
      overrides := next.value;
      i := i + 1;
    }
    assert styleKwargs[..i] == styleKwargs;
    r := Ok(overrides);
  }

  /** Once a prefix of the keywords fails, all of them fail with the same error. */
  lemma {:induction false} OverridesFailAfter(styleKwargs: seq<(string, Value)>, k: nat)
    requires 0 < k <= |styleKwargs| && Overrides(styleKwargs[..k]).Err?
    ensures Overrides(styleKwargs) == Overrides(styleKwargs[..k])
    decreases |styleKwargs| - k
  {
    if k < |styleKwargs| {
      assert styleKwargs[..k + 1][..k] == styleKwargs[..k];
      OverridesFailAfter(styleKwargs, k + 1);
    } else {
      assert styleKwargs[..k] == styleKwargs;
    }
  }

  /** `style__a__b=v` builds `{"a": {"b": v}}`. */
  lemma NestedOverride(v: Value)
    ensures Overrides([("style__a__b", v)]) == Ok(map["a" := VDict(map["b" := v])])
  {
    NestedPath();
    OverridesSingle("style__a__b", v);
    assert SetDefaultPath(map[], ["b"], v) == Ok(map["b" := v]);
    assert SetDefaultPath(map[], ["a", "b"], v) == Ok(map["a" := VDict(map["b" := v])]);
  }

  /** One style keyword: its value set at its path in an empty dict. */
  lemma OverridesSingle(key: string, v: Value)
    ensures Overrides([(key, v)]) == if StylePath(key) == [] then Err("key has no path") else SetDefaultPath(map[], StylePath(key), v)
  {
    assert [(key, v)][..0] == [];
  }

  lemma NestedPath()
    ensures StylePath("style__a__b") == ["a", "b"]
  {
    StylePathOf("a__b");
    assert "style__a__b" == "style__" + "a__b";
    SplitWord("a", "b");
    assert "a__b" == "a" + "__" + "b";
  }

  /** A value placed at a path comes back at that path; a second value for a taken path is ignored. */
  lemma OverridesFirstAt(styleKwargs: seq<(string, Value)>)
    requires |styleKwargs| >= 1 && Overrides(styleKwargs).Ok?
    requires |StylePath(styleKwargs[|styleKwargs| - 1].0)| >= 1
    requires Overrides(styleKwargs[..|styleKwargs| - 1]).Ok?
    ensures var path := StylePath(styleKwargs[|styleKwargs| - 1].0);
      var before := Overrides(styleKwargs[..|styleKwargs| - 1]).value;
      LookupPath(Overrides(styleKwargs).value, path) ==
        (if LookupPath(before, path).Some? then LookupPath(before, path) else Some(styleKwargs[|styleKwargs| - 1].1))
  {
    var path := StylePath(styleKwargs[|styleKwargs| - 1].0);
    SetDefaultFirstWins(Overrides(styleKwargs[..|styleKwargs| - 1]).value, path, styleKwargs[|styleKwargs| - 1].1);
  }

  // ------------------------------------------------------------------
  // use_style
  // ------------------------------------------------------------------

  /** Keyword arguments in call order; a name appears at most once in a real call. */
  type Kwargs = seq<(string, Value)>

  /** `kwargs.get(name)`. */
  function KwGet(kw: Kwargs, name: string): Value
  {
    if kw == [] then VNone else if kw[0].0 == name then kw[0].1 else KwGet(kw[1..], name)
  }

  /** `kwargs[name] = v`: replaces the first entry of that name, or appends one. */
  function KwSet(kw: Kwargs, name: string, v: Value): (r: Kwargs)
    ensures KwGet(r, name) == v
  {
    if kw == [] then [(name, v)] else if kw[0].0 == name then [(name, v)] + kw[1..] else [kw[0]] + KwSet(kw[1..], name, v)
  }

  /** The `style__` keywords, in order. */
  function StyleKwargs(kw: Kwargs): (r: Kwargs)
    ensures forall i :: 0 <= i < |r| ==> StartsWith(r[i].0, "style__")
  {
    if kw == [] then [] else (if StartsWith(kw[0].0, "style__") then [kw[0]] else []) + StyleKwargs(kw[1..])
  }

  /** The keywords other than `style__` ones, in order. */
  function WithoutStyleKwargs(kw: Kwargs): (r: Kwargs)
    ensures forall i :: 0 <= i < |r| ==> !StartsWith(r[i].0, "style__")
    ensures forall name :: !StartsWith(name, "style__") ==> KwGet(r, name) == KwGet(kw, name)
  {
    if kw == [] then []
    else
      var rest := WithoutStyleKwargs(kw[1..]);
      if StartsWith(kw[0].0, "style__") then rest
      else assert ([kw[0]] + rest)[1..] == rest; [kw[0]] + rest
  }

  /**
   * What the decorator reads from the plot: whether a base style attribute
   * is configured, that style's JSON dump, the style object itself, and the
   * style class's constructor (pydantic validation is not modelled).
   */
  datatype StyleContext = StyleContext(styleAttr: Option<string>, baseDump: map<string, Value>, baseStyle: Value,
                                       build: map<string, Value> -> Value)

  const TooManyStyles: string := "Too many style arguments types. Specify only style or style kwargs"

  /** The decorator's rewriting of `kwargs`, given how the base style and the changes are combined. */
  function Decorate(kw: Kwargs, ctx: StyleContext, combine: (map<string, Value>, map<string, Value>) -> map<string, Value>): Result<Kwargs>
  {
    var style := KwGet(kw, "style");
    var styleKw := StyleKwargs(kw);
    if Truthy(style) && styleKw != [] then Err(TooManyStyles)
    else if Truthy(style) && style.VDict? then
      Ok(KwSet(kw, "style", ctx.build(if ctx.styleAttr.Some? then combine(ctx.baseDump, style.entries) else style.entries)))
    else if styleKw != [] then
      match Overrides(styleKw)
      case Err(e) => Err(e)
      case Ok(o) =>
        Ok(WithoutStyleKwargs(KwSet(kw, "style", ctx.build(if ctx.styleAttr.Some? then combine(ctx.baseDump, o) else o))))
    else if style == VNone && ctx.styleAttr.Some? then Ok(KwSet(kw, "style", ctx.baseStyle))
    else Ok(kw)
  }

  /** use_style as written: merge_dict's result is dropped, so the base style is used unchanged. */
  function UseStyleAsWritten(kw: Kwargs, ctx: StyleContext): Result<Kwargs>
  {
    Decorate(kw, ctx, (base: map<string, Value>, changes: map<string, Value>) => base)
  }

  /** use_style as intended: the changes are merged into the base style. */
  function UseStyle(kw: Kwargs, ctx: StyleContext): (r: Result<Kwargs>)
    ensures (r == Err(TooManyStyles)) <==> (Truthy(KwGet(kw, "style")) && StyleKwargs(kw) != [])
    ensures r.Ok? && StyleKwargs(kw) != [] ==> forall i :: 0 <= i < |r.value| ==> !StartsWith(r.value[i].0, "style__")
  {
    var r := Decorate(kw, ctx, Merged);
    OverrideErrors(StyleKwargs(kw));
    r
  }

  /** Building the overrides never fails with the conflict message. */
  lemma {:induction false} OverrideErrors(styleKwargs: seq<(string, Value)>)
    ensures Overrides(styleKwargs) != Err(TooManyStyles)
  {
    if styleKwargs != [] {
      OverrideErrors(styleKwargs[..|styleKwargs| - 1]);
      var path := StylePath(styleKwargs[|styleKwargs| - 1].0);
      if path != [] && Overrides(styleKwargs[..|styleKwargs| - 1]).Ok? {
        SetDefaultError(Overrides(styleKwargs[..|styleKwargs| - 1]).value, path, styleKwargs[|styleKwargs| - 1].1);
      }
    }
  }

  lemma {:induction false} SetDefaultError(t: map<string, Value>, path: seq<string>, v: Value)
    requires |path| >= 1
    ensures SetDefaultPath(t, path, v).Err? ==> SetDefaultPath(t, path, v).error == "object has no attribute 'setdefault'"
    decreases |path|
  {
    if |path| > 1 {
      var sub := if path[0] in t then t[path[0]] else VDict(map[]);
      if sub.VDict? {
        SetDefaultError(sub.entries, path[1..], v);
      }
    }
  }

  /** With a base style, style keywords reach the wrapped function merged into it. */
  lemma UseStyleAppliesOverrides(kw: Kwargs, ctx: StyleContext)
    requires !Truthy(KwGet(kw, "style")) && StyleKwargs(kw) != [] && ctx.styleAttr.Some?
    requires Overrides(StyleKwargs(kw)).Ok?
    ensures UseStyle(kw, ctx).Ok?
    ensures KwGet(UseStyle(kw, ctx).value, "style") == ctx.build(Merged(ctx.baseDump, Overrides(StyleKwargs(kw)).value))
  {
    var o := Overrides(StyleKwargs(kw)).value;
    assert !StartsWith("style", "style__");
  }

  /** With a base style, a style dict reaches the wrapped function merged into it. */
  lemma UseStyleMergesDict(kw: Kwargs, ctx: StyleContext)
    requires Truthy(KwGet(kw, "style")) && KwGet(kw, "style").VDict? && StyleKwargs(kw) == [] && ctx.styleAttr.Some?
    ensures UseStyle(kw, ctx) == Ok(KwSet(kw, "style", ctx.build(Merged(ctx.baseDump, KwGet(kw, "style").entries))))
  {
  }

  /** With no style given at all, the base style object is passed through. */
  lemma UseStyleDefault(kw: Kwargs, ctx: StyleContext)
    requires KwGet(kw, "style") == VNone && StyleKwargs(kw) == [] && ctx.styleAttr.Some?
    ensures UseStyle(kw, ctx) == Ok(KwSet(kw, "style", ctx.baseStyle))
  {
  }

  /** The example base style and keyword: a base size of 22 overridden by style__size=10. */
  const ExampleKwargs: Kwargs := [("style__size", VInt(10))]

  function ExampleContext(build: map<string, Value> -> Value): StyleContext
  {
    StyleContext(Some("star"), map["size" := VInt(22)], VNone, build)
  }

  /** As written, with a base style, style keywords are dropped: the style is the unchanged base. */
  lemma AsWrittenIgnoresOverrides(kw: Kwargs, ctx: StyleContext)
    requires !Truthy(KwGet(kw, "style")) && StyleKwargs(kw) != [] && ctx.styleAttr.Some?
    requires Overrides(StyleKwargs(kw)).Ok?
    ensures UseStyleAsWritten(kw, ctx).Ok?
    ensures KwGet(UseStyleAsWritten(kw, ctx).value, "style") == ctx.build(ctx.baseDump)
  {
    assert !StartsWith("style", "style__");
  }

  /** As written, with a base style, a style dict is dropped too: the style is the unchanged base. */
  lemma AsWrittenIgnoresDict(kw: Kwargs, ctx: StyleContext)
    requires Truthy(KwGet(kw, "style")) && KwGet(kw, "style").VDict? && StyleKwargs(kw) == [] && ctx.styleAttr.Some?
    ensures UseStyleAsWritten(kw, ctx) == Ok(KwSet(kw, "style", ctx.build(ctx.baseDump)))
  {
  }

  /** The example style dict: `style={"size": 10}` against the same base size of 22. */
  const ExampleDictKwargs: Kwargs := [("style", VDict(map["size" := VInt(10)]))]

  /** As written, `style={"size": 10}` is lost as well: the style is built from the unchanged base. */
  lemma AsWrittenDropsDict(build: map<string, Value> -> Value)
    ensures UseStyleAsWritten(ExampleDictKwargs, ExampleContext(build)).Ok?
    ensures KwGet(UseStyleAsWritten(ExampleDictKwargs, ExampleContext(build)).value, "style") == build(map["size" := VInt(22)])
  {
    assert !StartsWith("style", "style__");
    assert StyleKwargs(ExampleDictKwargs) == [];
    assert KwGet(ExampleDictKwargs, "style") == VDict(map["size" := VInt(10)]);
    assert Truthy(VDict(map["size" := VInt(10)])) by { assert "size" in map["size" := VInt(10)]; }
    AsWrittenIgnoresDict(ExampleDictKwargs, ExampleContext(build));
  }

  /** As intended, the same dict builds the style with size 10. */
  lemma CorrectedKeepsDict(build: map<string, Value> -> Value)
    ensures UseStyle(ExampleDictKwargs, ExampleContext(build)).Ok?
    ensures KwGet(UseStyle(ExampleDictKwargs, ExampleContext(build)).value, "style") == build(map["size" := VInt(10)])
  {
    assert !StartsWith("style", "style__");
    assert StyleKwargs(ExampleDictKwargs) == [];
    assert KwGet(ExampleDictKwargs, "style") == VDict(map["size" := VInt(10)]);
    assert Truthy(VDict(map["size" := VInt(10)])) by { assert "size" in map["size" := VInt(10)]; }
    UseStyleMergesDict(ExampleDictKwargs, ExampleContext(build));
    ExampleMerge();
  }

  /** As written, `style__size=10` is lost: the style is built from the unchanged base. */
  lemma AsWrittenDropsOverride(build: map<string, Value> -> Value)
    ensures UseStyleAsWritten(ExampleKwargs, ExampleContext(build)).Ok?
    ensures KwGet(UseStyleAsWritten(ExampleKwargs, ExampleContext(build)).value, "style") == build(map["size" := VInt(22)])
  {
    ExampleOverrides();
    AsWrittenIgnoresOverrides(ExampleKwargs, ExampleContext(build));
  }

  /** As intended, the same call builds the style with size 10. */
  lemma CorrectedKeepsOverride(build: map<string, Value> -> Value)
    ensures UseStyle(ExampleKwargs, ExampleContext(build)).Ok?
    ensures KwGet(UseStyle(ExampleKwargs, ExampleContext(build)).value, "style") == build(map["size" := VInt(10)])
  {
    ExampleOverrides();
    ExampleMerge();
    UseStyleAppliesOverrides(ExampleKwargs, ExampleContext(build));
  }

  lemma ExampleMerge()
    ensures Merged(map["size" := VInt(22)], map["size" := VInt(10)]) == map["size" := VInt(10)]
  {
    MergedAt(map["size" := VInt(22)], map["size" := VInt(10)], "size");
  }

  lemma ExampleOverrides()
    ensures KwGet(ExampleKwargs, "style") == VNone
    ensures StyleKwargs(ExampleKwargs) == ExampleKwargs
    ensures Overrides(ExampleKwargs) == Ok(map["size" := VInt(10)])
  {
    assert StartsWith("style__size", "style__");
    ExamplePath();
    OverridesSingle("style__size", VInt(10));
  }

  lemma ExamplePath()
    ensures StylePath("style__size") == ["size"]
  {
    StylePathOf("size");
    assert "style__size" == "style__" + "size";
    SplitPlain("size");
  }
}
