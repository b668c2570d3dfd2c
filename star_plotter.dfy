/**
 * StarPlotter: the star plotting pipeline of the plotter mixin — the
 * magnitude filter `_load_stars` adds, the on-screen selection and
 * descending-size order of the stars to scatter, and `_star_labels`, which
 * picks the stars to label, never labels one catalog id twice and emits
 * name labels, then Bayer labels, then Flamsteed labels.
 */
module StarPlotter {
  import opened Wrappers
  import opened PyValues
  import opened Sorting

  /** A catalog star, with the columns the plotter reads. */
  datatype Star = Star(
    rowId: int, hip: Value, tyc: Value, name: Value, bayer: Value, flamsteed: Value,
    ra: real, dec: real, magnitude: real)

  // ---------------------------------------------------------------- filters

  /** A filter on the catalog: an arbitrary `where` expression, or `magnitude <= mag`. */
  datatype Filter = Where(keep: Star -> bool) | MagnitudeAtMost(mag: Float)

  /** The star passes the filter; a NaN bound admits nothing, as every comparison with NaN fails. */
  predicate Admits(f: Filter, s: Star)
  {
    match f
    case Where(keep) => keep(s)
    case MagnitudeAtMost(m) => m.PosInf? || (m.Fin? && s.magnitude <= m.r)
  }

  /** The star passes every filter of the list. */
  predicate AdmitsAll(fs: seq<Filter>, s: Star)
  {
    forall i :: 0 <= i < |fs| ==> Admits(fs[i], s)
  }

  // ------------------------------------------------------- starz and sorting

  /** A star row with its projected display position and whether the plot clips it. */
  datatype Candidate = Candidate(x: real, y: real, displayX: Float, displayY: Float, clipped: bool, star: Star)

  /** One entry of `starz`: position, size, alpha, colour and the star. */
  datatype Plotted = Plotted(x: real, y: real, size: real, alpha: real, color: string, star: Star)

  /** size_fn, alpha_fn, color_fn, the style's colour and the plot scale. */
  datatype Styling = Styling(
    sizeFn: Star -> real, alphaFn: Star -> real, colorFn: Star -> string,
    defaultColor: string, scale: real)

  /** The star is kept: neither display coordinate is negative or NaN and the plot does not clip it. */
  predicate OnScreen(c: Candidate)
  {
    !(Greater(Fin(0.0), c.displayX) || Greater(Fin(0.0), c.displayY) ||
      c.displayX.NaN? || c.displayY.NaN? || c.clipped)
  }

  /** The entry a kept star contributes: size scaled by scale², colour falling back to the style's. */
  function Entry(c: Candidate, st: Styling): (r: Plotted)
    ensures r.star == c.star && r.x == c.x && r.y == c.y
    ensures r.size == st.sizeFn(c.star) * st.scale * st.scale
    ensures r.alpha == st.alphaFn(c.star)
    ensures st.colorFn(c.star) != "" ==> r.color == st.colorFn(c.star)
    ensures st.colorFn(c.star) == "" ==> r.color == st.defaultColor
  {
    var color := st.colorFn(c.star);
    Plotted(c.x, c.y, st.sizeFn(c.star) * (st.scale * st.scale), st.alphaFn(c.star),
            if color != "" then color else st.defaultColor, c.star)
  }

  /** The entries of the first n candidates that are on screen, in row order. */
  function Collected(cands: seq<Candidate>, st: Styling, n: nat): seq<Plotted>
    requires n <= |cands|
  {
    if n == 0 then []
    else Collected(cands, st, n - 1) + (if OnScreen(cands[n - 1]) then [Entry(cands[n - 1], st)] else [])
  }

  /** Exactly the on-screen candidates contribute an entry. */
  lemma {:induction false} CollectedExactly(cands: seq<Candidate>, st: Styling, n: nat)
    requires n <= |cands|
    ensures |Collected(cands, st, n)| <= n
    ensures forall p :: p in Collected(cands, st, n) ==>
      exists i :: 0 <= i < n && OnScreen(cands[i]) && p == Entry(cands[i], st)
    ensures forall i :: 0 <= i < n && OnScreen(cands[i]) ==> Entry(cands[i], st) in Collected(cands, st, n)
  {
    if n > 0 {
      CollectedExactly(cands, st, n - 1);
      var prev := Collected(cands, st, n - 1);
      var last := if OnScreen(cands[n - 1]) then [Entry(cands[n - 1], st)] else [];
      assert Collected(cands, st, n) == prev + last;
      forall p | p in Collected(cands, st, n)
        ensures exists i :: 0 <= i < n && OnScreen(cands[i]) && p == Entry(cands[i], st)
      {
        if p in prev {
          var i :| 0 <= i < n - 1 && OnScreen(cands[i]) && p == Entry(cands[i], st);
          assert 0 <= i < n;
        } else {
          assert p in last;
        }
      }
    }
  }

  /** The sort key of `starz`, sorted with `reverse=True`. */
  function Size(p: Plotted): real
  {
    p.size
  }

  /**
   * The scatter order of the stars: the loop over the rows keeps the
   * on-screen ones, then `starz` is sorted by descending size, equal sizes
   * keeping row order.
   */
  method PlotOrder(cands: seq<Candidate>, st: Styling) returns (starz: seq<Plotted>)
    ensures forall i, j :: 0 <= i < j < |starz| ==> starz[i].size >= starz[j].size
    ensures multiset(starz) == multiset(Collected(cands, st, |cands|))
    ensures forall k :: WithKey(starz, Size, k) == WithKey(Collected(cands, st, |cands|), Size, k)
  {
    starz := [];
    var i := 0;
    while i < |cands|
      invariant 0 <= i <= |cands|
      invariant starz == Collected(cands, st, i)
    {
      var c := cands[i];
      if OnScreen(c) {
        starz := starz + [Entry(c, st)];
      }
      i := i + 1;
    }
    var collected := starz;
    starz := SortByDescending(collected, Size);
    forall k
      ensures WithKey(starz, Size, k) == WithKey(collected, Size, k)
    {
      SortByDescendingCorrect(collected, Size, k);
    }
    SortByDescendingCorrect(collected, Size, 0.0);
  }

  // ----------------------------------------------------------------- labels

  /** Which text call a label is: the gid it is drawn with. */
  datatype LabelKind = NameLabel | BayerLabel | FlamsteedLabel

  function Gid(k: LabelKind): string
  {
    match k
    case NameLabel => "stars-label-name"
    case BayerLabel => "stars-label-bayer"
    case FlamsteedLabel => "stars-label-flamsteed"
  }

  /** The place of a kind in the emission order. */
  function Rank(k: LabelKind): nat
  {
    match k
    case NameLabel => 0
    case BayerLabel => 1
    case FlamsteedLabel => 2
  }

  /**
   * One `self.text` call for a star label: its text and position, the marker
   * size its offset is computed from, its kind, and the index of the star it
   * belongs to in `star_objects`.
   */
  datatype Label = Label(text: Value, ra: real, dec: real, markerSize: real, kind: LabelKind, star: nat)

  /** The arguments of _star_labels other than the stars and their sizes. */
  datatype LabelOptions = LabelOptions(
    rowIds: seq<int>, labels: map<Value, Value>, bayerLabels: bool, flamsteedLabels: bool,
    labelFn: Option<Star -> Value>)

  /** The state of the first loop: `_labeled_stars`, the name labels emitted, `_bayer` and `_flamsteed`. */
  datatype Queues = Queues(labeled: seq<Value>, names: seq<Label>, bayer: seq<Label>, flamsteed: seq<Label>)

  /** The name label's text: label_fn when given, else `labels[hip]`, else the star's name. */
  function LabelText(s: Star, opts: LabelOptions): (r: Value)
    ensures opts.labelFn.Some? ==> r == opts.labelFn.value(s)
    ensures opts.labelFn.None? && s.hip in opts.labels ==> r == opts.labels[s.hip]
    ensures opts.labelFn.None? && s.hip !in opts.labels ==> r == s.name
  {
    match opts.labelFn
    case Some(f) => f(s)
    case None => if s.hip in opts.labels then opts.labels[s.hip] else s.name
  }

  /** The star's hip, or else its tyc, is already in `_labeled_stars`. */
  predicate AlreadyLabeled(labeled: seq<Value>, s: Star)
  {
    (Truthy(s.hip) && s.hip in labeled) || (Truthy(s.tyc) && s.tyc in labeled)
  }

  /** The id a labelled star is recorded under: its hip if truthy, else its tyc if truthy. */
  function Id(s: Star): Option<Value>
  {
    if Truthy(s.hip) then Some(s.hip) else if Truthy(s.tyc) then Some(s.tyc) else None
  }

  /** The star takes part in labelling given what is labelled already. */
  predicate Labels(labeled: seq<Value>, s: Star, opts: LabelOptions)
  {
    s.rowId in opts.rowIds && !AlreadyLabeled(labeled, s)
  }

  /** One turn of the first loop of _star_labels, for the star at index i. */
  function Visit(q: Queues, stars: seq<Star>, sizes: seq<real>, i: nat, opts: LabelOptions): (r: Queues)
    requires i < |stars| == |sizes|
    ensures !Labels(q.labeled, stars[i], opts) ==> r == q
    ensures Labels(q.labeled, stars[i], opts) ==>
      r.labeled == q.labeled + (if Id(stars[i]).Some? then [Id(stars[i]).value] else [])
    ensures |q.names| <= |r.names| && |q.bayer| <= |r.bayer| && |q.flamsteed| <= |r.flamsteed|
    ensures r.names[..|q.names|] == q.names && r.bayer[..|q.bayer|] == q.bayer
    ensures r.flamsteed[..|q.flamsteed|] == q.flamsteed
    ensures |r.names| > |q.names| <==> Labels(q.labeled, stars[i], opts) && Truthy(LabelText(stars[i], opts))
    ensures |r.bayer| > |q.bayer| <==>
      Labels(q.labeled, stars[i], opts) && opts.bayerLabels && Truthy(stars[i].bayer)
    ensures |r.flamsteed| > |q.flamsteed| <==>
      (Labels(q.labeled, stars[i], opts) && opts.flamsteedLabels && Truthy(stars[i].flamsteed) &&
       !Truthy(stars[i].bayer))
  {
    var s := stars[i];
    if s.rowId !in opts.rowIds then q
    else if AlreadyLabeled(q.labeled, s) then q
    else
      var labeled := if Truthy(s.hip) then q.labeled + [s.hip]
                     else if Truthy(s.tyc) then q.labeled + [s.tyc]
                     else q.labeled;
      var text := LabelText(s, opts);
      var names := if Truthy(text) then q.names + [Label(text, s.ra, s.dec, sizes[i], NameLabel, i)] else q.names;
      var bayer := if opts.bayerLabels && Truthy(s.bayer)
                   then q.bayer + [Label(s.bayer, s.ra, s.dec, sizes[i], BayerLabel, i)] else q.bayer;
      var flamsteed := if opts.flamsteedLabels && Truthy(s.flamsteed) && !Truthy(s.bayer)
                       then q.flamsteed + [Label(s.flamsteed, s.ra, s.dec, sizes[i], FlamsteedLabel, i)]
                       else q.flamsteed;
      Queues(labeled, names, bayer, flamsteed)
  }

  /** The first loop over the first n stars, from `_labeled_stars` = labeled0 and empty queues. */
  function Pass(labeled0: seq<Value>, stars: seq<Star>, sizes: seq<real>, opts: LabelOptions, n: nat): Queues
    requires n <= |stars| == |sizes|
  {
    if n == 0 then Queues(labeled0, [], [], [])
    else Visit(Pass(labeled0, stars, sizes, opts, n - 1), stars, sizes, n - 1, opts)
  }

  /** What a label of each kind says about the star it belongs to. */
  predicate Sound(l: Label, stars: seq<Star>, sizes: seq<real>, opts: LabelOptions, kind: LabelKind)
    requires |stars| == |sizes|
  {
    l.kind == kind && l.star < |stars| && stars[l.star].rowId in opts.rowIds &&
    l.ra == stars[l.star].ra && l.dec == stars[l.star].dec && l.markerSize == sizes[l.star] &&
    match kind
    case NameLabel => l.text == LabelText(stars[l.star], opts) && Truthy(l.text)
    case BayerLabel => opts.bayerLabels && l.text == stars[l.star].bayer && Truthy(l.text)
    case FlamsteedLabel =>
      opts.flamsteedLabels && l.text == stars[l.star].flamsteed && Truthy(l.text) && !Truthy(stars[l.star].bayer)
  }

  /** Labels of one queue belong to distinct stars, in star order, with distinct recorded ids. */
  predicate DistinctStars(ls: seq<Label>, stars: seq<Star>)
  {
    forall i, j :: 0 <= i < j < |ls| ==>
      ls[i].star < ls[j].star && ls[i].star < |stars| && ls[j].star < |stars| &&
      (Id(stars[ls[i].star]).Some? ==> Id(stars[ls[i].star]) != Id(stars[ls[j].star]))
  }

  /** Every label of the queue belongs to one of the first n stars, whose id is recorded but was not in labeled0. */
  predicate Recorded(ls: seq<Label>, stars: seq<Star>, labeled0: seq<Value>, labeled: seq<Value>, n: nat)
  {
    forall i :: 0 <= i < |ls| ==>
      ls[i].star < n && ls[i].star < |stars| &&
      (Id(stars[ls[i].star]).Some? ==>
        Id(stars[ls[i].star]).value in labeled && Id(stars[ls[i].star]).value !in labeled0)
  }

  /** The labels Visit adds belong to star i. */
  lemma VisitAddsStar(q: Queues, stars: seq<Star>, sizes: seq<real>, i: nat, opts: LabelOptions)
    requires i < |stars| == |sizes|
    ensures var r := Visit(q, stars, sizes, i, opts);
      (forall k :: |q.names| <= k < |r.names| ==> r.names[k] == Label(LabelText(stars[i], opts), stars[i].ra, stars[i].dec, sizes[i], NameLabel, i)) &&
      (forall k :: |q.bayer| <= k < |r.bayer| ==> r.bayer[k] == Label(stars[i].bayer, stars[i].ra, stars[i].dec, sizes[i], BayerLabel, i)) &&
      (forall k :: |q.flamsteed| <= k < |r.flamsteed| ==> r.flamsteed[k] == Label(stars[i].flamsteed, stars[i].ra, stars[i].dec, sizes[i], FlamsteedLabel, i)) &&
      |r.names| <= |q.names| + 1 && |r.bayer| <= |q.bayer| + 1 && |r.flamsteed| <= |q.flamsteed| + 1
  {
  }

  /** Every label of the queue is sound for its kind. */
  predicate AllSound(ls: seq<Label>, stars: seq<Star>, sizes: seq<real>, opts: LabelOptions, kind: LabelKind)
    requires |stars| == |sizes|
  {
    forall k :: 0 <= k < |ls| ==> Sound(ls[k], stars, sizes, opts, kind)
  }

  /** A queue stays sound when a sound label is appended. */
  lemma SoundStep(shorter: seq<Label>, longer: seq<Label>, l: Label,
                  stars: seq<Star>, sizes: seq<real>, opts: LabelOptions, kind: LabelKind)
    requires |stars| == |sizes|
    requires AllSound(shorter, stars, sizes, opts, kind)
    requires longer == shorter || (longer == shorter + [l] && Sound(l, stars, sizes, opts, kind))
    ensures AllSound(longer, stars, sizes, opts, kind)
  {
    forall k | 0 <= k < |longer| ensures Sound(longer[k], stars, sizes, opts, kind) {
      if k < |shorter| {
        assert longer[k] == shorter[k];
      }
    }
  }

  /** Every emitted label says what its kind promises about its star. */
  lemma {:induction false} PassSound(labeled0: seq<Value>, stars: seq<Star>, sizes: seq<real>, opts: LabelOptions, n: nat)
    requires n <= |stars| == |sizes|
    ensures var q := Pass(labeled0, stars, sizes, opts, n);
      AllSound(q.names, stars, sizes, opts, NameLabel) && AllSound(q.bayer, stars, sizes, opts, BayerLabel) &&
      AllSound(q.flamsteed, stars, sizes, opts, FlamsteedLabel)
  {
    if n > 0 {
      PassSound(labeled0, stars, sizes, opts, n - 1);
      var p := Pass(labeled0, stars, sizes, opts, n - 1);
      var q := Visit(p, stars, sizes, n - 1, opts);
      var s := stars[n - 1];
      var z := sizes[n - 1];
      SoundStep(p.names, q.names, Label(LabelText(s, opts), s.ra, s.dec, z, NameLabel, n - 1), stars, sizes, opts, NameLabel);
      SoundStep(p.bayer, q.bayer, Label(s.bayer, s.ra, s.dec, z, BayerLabel, n - 1), stars, sizes, opts, BayerLabel);
      SoundStep(p.flamsteed, q.flamsteed, Label(s.flamsteed, s.ra, s.dec, z, FlamsteedLabel, n - 1), stars, sizes, opts, FlamsteedLabel);
    }
  }

  /** One queue keeps its invariant across a Visit that appends at most a label of star i. */
  lemma QueueStep(shorter: seq<Label>, longer: seq<Label>, stars: seq<Star>, labeled0: seq<Value>,
                  before: seq<Value>, after: seq<Value>, i: nat)
    requires i < |stars|
    requires DistinctStars(shorter, stars) && Recorded(shorter, stars, labeled0, before, i)
    requires |shorter| <= |longer| <= |shorter| + 1 && longer[..|shorter|] == shorter
    requires forall k :: |shorter| <= k < |longer| ==> longer[k].star == i
    requires |longer| > |shorter| ==> Id(stars[i]).None? || (Id(stars[i]).value !in before && Id(stars[i]).value in after && Id(stars[i]).value !in labeled0)
    requires forall v :: v in before ==> v in after
    ensures DistinctStars(longer, stars) && Recorded(longer, stars, labeled0, after, i + 1)
  {
    forall a, b | 0 <= a < b < |longer|
      ensures longer[a].star < longer[b].star && longer[a].star < |stars| && longer[b].star < |stars|
      ensures Id(stars[longer[a].star]).Some? ==> Id(stars[longer[a].star]) != Id(stars[longer[b].star])
    {
      assert longer[a] == shorter[a];
      if b < |shorter| {
        assert longer[b] == shorter[b];
      }
    }
    forall a | 0 <= a < |longer|
      ensures longer[a].star < i + 1 && longer[a].star < |stars|
      ensures Id(stars[longer[a].star]).Some? ==>
        Id(stars[longer[a].star]).value in after && Id(stars[longer[a].star]).value !in labeled0
    {
      if a < |shorter| {
        assert longer[a] == shorter[a];
      }
    }
  }

  /** The invariant of the first loop behind "each catalog id is labelled at most once". */
  predicate LabelsOnce(q: Queues, labeled0: seq<Value>, stars: seq<Star>, n: nat)
  {
    |labeled0| <= |q.labeled| && q.labeled[..|labeled0|] == labeled0 &&
    DistinctStars(q.names, stars) && DistinctStars(q.bayer, stars) && DistinctStars(q.flamsteed, stars) &&
    Recorded(q.names, stars, labeled0, q.labeled, n) && Recorded(q.bayer, stars, labeled0, q.labeled, n) &&
    Recorded(q.flamsteed, stars, labeled0, q.labeled, n)
  }

  /** Visit records a labelled star's id, which was in `_labeled_stars` neither before the call nor before _star_labels began. */
  lemma VisitRecords(p: Queues, labeled0: seq<Value>, stars: seq<Star>, sizes: seq<real>, i: nat, opts: LabelOptions)
    requires i < |stars| == |sizes|
    requires |labeled0| <= |p.labeled| && p.labeled[..|labeled0|] == labeled0
    ensures var q := Visit(p, stars, sizes, i, opts);
      |labeled0| <= |q.labeled| && q.labeled[..|labeled0|] == labeled0 &&
      (forall v :: v in p.labeled ==> v in q.labeled) &&
      (Labels(p.labeled, stars[i], opts) && Id(stars[i]).Some? ==>
        Id(stars[i]).value !in p.labeled && Id(stars[i]).value in q.labeled && Id(stars[i]).value !in labeled0)
  {
    var q := Visit(p, stars, sizes, i, opts);
    var s := stars[i];
    assert |p.labeled| <= |q.labeled| && q.labeled[..|p.labeled|] == p.labeled;
    assert q.labeled[..|labeled0|] == q.labeled[..|p.labeled|][..|labeled0|];
    forall v | v in p.labeled ensures v in q.labeled {
      var k :| 0 <= k < |p.labeled| && p.labeled[k] == v;
      assert q.labeled[..|p.labeled|][k] == v;
    }
  }

  /** One turn of the first loop keeps LabelsOnce. */
  lemma VisitLabelsOnce(p: Queues, q: Queues, labeled0: seq<Value>, stars: seq<Star>, sizes: seq<real>, i: nat, opts: LabelOptions)
    requires i < |stars| == |sizes|
    requires LabelsOnce(p, labeled0, stars, i)
    requires q == Visit(p, stars, sizes, i, opts)
    ensures LabelsOnce(q, labeled0, stars, i + 1)
  {
    VisitAddsStar(p, stars, sizes, i, opts);
    VisitRecords(p, labeled0, stars, sizes, i, opts);
    QueueStep(p.names, q.names, stars, labeled0, p.labeled, q.labeled, i);
    QueueStep(p.bayer, q.bayer, stars, labeled0, p.labeled, q.labeled, i);
    QueueStep(p.flamsteed, q.flamsteed, stars, labeled0, p.labeled, q.labeled, i);
  }

  /**
   * Each catalog id is labelled at most once: in every queue the labels
   * belong to distinct stars in star order with distinct ids, and none of
   * those ids was labelled before the call.
   */
  lemma {:induction false} PassLabelsOnce(labeled0: seq<Value>, stars: seq<Star>, sizes: seq<real>, opts: LabelOptions, n: nat)
    requires n <= |stars| == |sizes|
    ensures LabelsOnce(Pass(labeled0, stars, sizes, opts, n), labeled0, stars, n)
  {
    if n > 0 {
      PassLabelsOnce(labeled0, stars, sizes, opts, n - 1);
      VisitLabelsOnce(Pass(labeled0, stars, sizes, opts, n - 1), Pass(labeled0, stars, sizes, opts, n),
                      labeled0, stars, sizes, n - 1, opts);
    }
  }

  /** The text calls _star_labels makes, in the order it makes them. */
  function Emitted(labeled0: seq<Value>, stars: seq<Star>, sizes: seq<real>, opts: LabelOptions): seq<Label>
    requires |stars| == |sizes|
  {
    var q := Pass(labeled0, stars, sizes, opts, |stars|);
    q.names + q.bayer + q.flamsteed
  }

  /** Emission order: every name label before every Bayer label, every Bayer label before every Flamsteed label. */
  lemma EmissionOrder(labeled0: seq<Value>, stars: seq<Star>, sizes: seq<real>, opts: LabelOptions)
    requires |stars| == |sizes|
    ensures var e := Emitted(labeled0, stars, sizes, opts);
      forall i, j :: 0 <= i < j < |e| ==> Rank(e[i].kind) <= Rank(e[j].kind)
  {
    var q := Pass(labeled0, stars, sizes, opts, |stars|);
    PassSound(labeled0, stars, sizes, opts, |stars|);
    var e := q.names + q.bayer + q.flamsteed;
    forall i | 0 <= i < |e|
      ensures Rank(e[i].kind) == if i < |q.names| then 0 else if i < |q.names| + |q.bayer| then 1 else 2
    {
      if i < |q.names| {
        assert e[i] == q.names[i];
      } else if i < |q.names| + |q.bayer| {
        assert e[i] == q.bayer[i - |q.names|];
      } else {
        assert e[i] == q.flamsteed[i - |q.names| - |q.bayer|];
      }
    }
  }

  // ------------------------------------------------------------ the plotter

  /** The state of the star plotter mixin that the star methods read and update. */
  class StarPlotter {
    /** `self.__dict__['mag']`: the magnitude limit remembered from `stars(mag=...)`. */
    var mag: Option<Float>
    /** `self._labeled_stars`: the hip or tyc of every star labelled so far. */
    var labeledStars: seq<Value>
    /** The `self.text` calls made so far, in order. */
    var texts: seq<Label>

    constructor ()
      ensures mag.None? && labeledStars == [] && texts == []
    {
      mag := None;
      labeledStars := [];
      texts := [];
    }

    /** `stars()` remembers a `mag` keyword in the instance for _load_stars. */
    method RememberMag(kwargMag: Option<Float>)
      modifies this
      ensures mag == if kwargMag.Some? then kwargMag else old(mag)
      ensures labeledStars == old(labeledStars) && texts == old(texts)
    {
      if kwargMag.Some? {
        mag := kwargMag;
      }
    }

    /**
     * The filters _load_stars hands to the catalog: with a remembered mag, the
     * given filters (an empty list for None) followed by `magnitude <= mag`.
     */
    method LoadFilters(filters: Option<seq<Filter>>) returns (r: Option<seq<Filter>>)
      ensures mag.None? ==> r == filters
      ensures mag.Some? ==> r.Some? && |r.value| == (if filters.None? then 0 else |filters.value|) + 1
      ensures mag.Some? && filters.Some? ==> r.value[..|filters.value|] == filters.value
      ensures mag.Some? ==> forall s :: AdmitsAll(r.value, s) <==>
        (filters.None? || AdmitsAll(filters.value, s)) && Admits(MagnitudeAtMost(mag.value), s)
    {
      r := filters;
      if mag.Some? {
        var fs := if filters.None? then [] else filters.value;
        fs := fs + [MagnitudeAtMost(mag.value)];
        r := Some(fs);
        forall s
          ensures AdmitsAll(fs, s) <==> (filters.None? || AdmitsAll(filters.value, s)) && Admits(MagnitudeAtMost(mag.value), s)
        {
          if AdmitsAll(fs, s) {
            assert Admits(fs[|fs| - 1], s);
            if filters.Some? {
              forall i | 0 <= i < |filters.value| ensures Admits(filters.value[i], s) {
                assert fs[i] == filters.value[i];
              }
            }
          }
        }
      }
    }

    /** The body of the first loop of _star_labels, for the star at index i. */
    method VisitStar(stars: seq<Star>, sizes: seq<real>, i: nat, opts: LabelOptions,
                     bayer0: seq<Label>, flamsteed0: seq<Label>, ghost base: seq<Label>, ghost names: seq<Label>)
      returns (bayer: seq<Label>, flamsteed: seq<Label>)
      requires i < |stars| == |sizes|
      requires texts == base + names
      modifies this
      ensures var r := Visit(Queues(old(labeledStars), names, bayer0, flamsteed0), stars, sizes, i, opts);
        labeledStars == r.labeled && texts == base + r.names && bayer == r.bayer && flamsteed == r.flamsteed
      ensures mag == old(mag)
    {
      bayer, flamsteed := bayer0, flamsteed0;
      var s := stars[i];
      if s.rowId in opts.rowIds && !AlreadyLabeled(labeledStars, s) {
        if Truthy(s.hip) {
          labeledStars := labeledStars + [s.hip];
        } else if Truthy(s.tyc) {
          labeledStars := labeledStars + [s.tyc];
        }
        var text := LabelText(s, opts);
        if Truthy(text) {
          texts := texts + [Label(text, s.ra, s.dec, sizes[i], NameLabel, i)];
        }
        if opts.bayerLabels && Truthy(s.bayer) {
          bayer := bayer + [Label(s.bayer, s.ra, s.dec, sizes[i], BayerLabel, i)];
        }
        if opts.flamsteedLabels && Truthy(s.flamsteed) && !Truthy(s.bayer) {
          flamsteed := flamsteed + [Label(s.flamsteed, s.ra, s.dec, sizes[i], FlamsteedLabel, i)];
        }
      }
    }

    /** The loops that draw the queued Bayer, then Flamsteed labels: one `self.text` call per label, in order. */
    method Emit(queue: seq<Label>)
      modifies this
      ensures texts == old(texts) + queue
      ensures mag == old(mag) && labeledStars == old(labeledStars)
    {
      var j := 0;
      while j < |queue|
        invariant 0 <= j <= |queue|
        invariant mag == old(mag) && labeledStars == old(labeledStars)
        invariant texts == old(texts) + queue[..j]
      {
        texts := texts + [queue[j]];
        assert queue[..j + 1] == queue[..j] + [queue[j]];
        j := j + 1;
      }
      assert queue[..j] == queue;
    }

    /**
     * _star_labels: name labels are drawn during the loop over the stars,
     * Bayer and Flamsteed labels are queued and drawn after it, in that order.
     */
    method StarLabels(stars: seq<Star>, sizes: seq<real>, opts: LabelOptions)
      requires |sizes| == |stars|
      modifies this
      ensures var q := Pass(old(labeledStars), stars, sizes, opts, |stars|);
        labeledStars == q.labeled && texts == old(texts) + q.names + q.bayer + q.flamsteed
      ensures mag == old(mag)
    {
      var bayer: seq<Label> := [];
      var flamsteed: seq<Label> := [];
      var i := 0;
      while i < |stars|
        invariant 0 <= i <= |stars|
        invariant mag == old(mag)
        invariant var q := Pass(old(labeledStars), stars, sizes, opts, i);
          labeledStars == q.labeled && texts == old(texts) + q.names && bayer == q.bayer && flamsteed == q.flamsteed
      {
        bayer, flamsteed := VisitStar(stars, sizes, i, opts, bayer, flamsteed, old(texts), Pass(old(labeledStars), stars, sizes, opts, i).names);
        i := i + 1;
      }
      Emit(bayer);
      Emit(flamsteed);
    }
  }
}
