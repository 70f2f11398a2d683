/**
 * The whole data-to-layout pipeline of `bars`: reorder, bottom labels,
 * normalise, percent conversion, then layout, in that order, ending in the
 * values the renderer is handed.
 */
module Pipeline {
  import opened Outcomes
  import opened Extrema
  import opened Reordering
  import opened Ticks
  import opened Normalisation
  import opened Layout

  /** The keyword arguments of `bars` that influence what is computed. */
  datatype Options = Options(
    barWidth: real,
    ylim: Option<(real, real)>,
    maxValPad: real,
    sortBy: SortBy,
    showBottomLabels: bool,
    showMaxVal: bool,
    scaleBy: ScaleBy,
    showBarLabels: bool,
    barLabelFormat: Option<real -> string>,
    multicolor: bool,
    showAsPercent: bool)

  /**
   * The default arguments of `bars`: no reordering, no scaling, no percent
   * mode and autoscaled y-limits, with bottom labels and one bar per call.
   */
  function Defaults(): (r: Options)
    ensures r.sortBy == Unsorted && r.scaleBy == NoScale && r.ylim == None && r.barLabelFormat == None
    ensures r.showBottomLabels && r.multicolor && !r.showMaxVal && !r.showBarLabels && !r.showAsPercent
    ensures r.barWidth == 0.75 && r.maxValPad == 0.1
  {
    Options(
      barWidth := 0.75, ylim := None, maxValPad := 0.1, sortBy := Unsorted,
      showBottomLabels := true, showMaxVal := false, scaleBy := NoScale,
      showBarLabels := false, barLabelFormat := None, multicolor := true,
      showAsPercent := false)
  }

  /** Everything the renderer receives. */
  datatype BarChart = BarChart(
    heights: seq<real>,              // bar heights after reordering, scaling and percent
    labels: seq<string>,             // the reordered labels (legend entries)
    offsets: seq<real>,              // bar positions, also the x ticks
    tickLabels: seq<string>,         // bottom labels, or one empty string per bar
    tickRotation: Option<int>,       // set only when bottom labels are shown
    referenceLine: Option<ReferenceLine>,
    barTexts: seq<BarText>,
    ylim: (real, real),
    xlim: (real, real))

  /** One empty tick label per bar. */
  function Blank(n: nat): (r: seq<string>)
    ensures |r| == n && forall i :: 0 <= i < n ==> r[i] == ""
  {
    seq(n, i => "")
  }

  /** What `bars` has computed when it starts drawing. */
  datatype Prepared = Prepared(
    labels: seq<string>,                // the reordered labels
    bottomLabels: Option<seq<string>>,  // None when bottom labels are not shown
    rotation: Option<int>,
    heights: seq<real>,                 // the reordered values after scaling and percent
    maxVal: real,                       // the reference maximum before percent mode
    offsets: seq<real>,
    ylim: Option<(real, real)>)         // the y-limits argument, times 100 in percent mode

  /**
   * The data stage: reorder, check the label count and build the bottom
   * labels from the unscaled values, normalise, then convert to percent.
   */
  function Prepare(data: seq<real>, labels: seq<string>, o: Options, str: real -> string): (r: Result<Prepared>)
    requires NonZeroDivisors(o.scaleBy)
    ensures r.Failure? ==> r.error in {IndexOutOfRange, LabelMismatch, EmptySequence, ShapeMismatch}
    ensures r.Success? ==>
      |r.value.offsets| == |r.value.labels| &&
      (r.value.bottomLabels.Some? <==> o.showBottomLabels) &&
      (r.value.rotation.Some? <==> o.showBottomLabels) &&
      (o.showBottomLabels ==> |r.value.bottomLabels.value| == |r.value.labels|) &&
      (!o.showAsPercent ==> r.value.ylim == o.ylim)
  {
    var series :- Reorder(data, labels, o.sortBy);
    var values, names := series.values, series.labels;
    if o.showBottomLabels && |names| != |values| then Failure(LabelMismatch)
    else
      var normalised :- Normalise(values, o.scaleBy);
      Success(Prepared(
        names,
        if o.showBottomLabels then Some(BottomLabels(names, values, str)) else None,
        if o.showBottomLabels then Some(LabelRotation(|names|)) else None,
        if o.showAsPercent then Percent(normalised.values) else normalised.values,
        normalised.referenceMax,
        Offsets(|names|),
        if o.showAsPercent then PercentLimits(o.ylim) else o.ylim))
  }

  /**
   * The drawing stage: one bar per label, the reference line, the bar texts,
   * then the axis limits and ticks.
   */
  function Plot(o: Options, p: Prepared, str: real -> string): (r: Result<BarChart>)
    ensures r.Failure? ==> r.error in {IndexOutOfRange, EmptySequence, UnboundYOffset}
    ensures r.Success? ==>
      r.value.heights == p.heights && r.value.labels == p.labels && r.value.offsets == p.offsets &&
      r.value.tickRotation == p.rotation &&
      (r.value.referenceLine.Some? <==> o.showMaxVal) &&
      (!o.showBarLabels ==> r.value.barTexts == []) &&
      |r.value.tickLabels| == (if p.bottomLabels.Some? then |p.bottomLabels.value| else |p.heights|)
  {
    if o.multicolor && |p.labels| > |p.heights| then Failure(IndexOutOfRange)
    else
      var line :- LineFor(o, p.offsets, p.maxVal);
      var texts :- TextsFor(o, p.offsets, p.heights, str);
      var limits :- YLimits(p.ylim, p.heights, o.maxValPad);
      Success(BarChart(
        p.heights, p.labels, p.offsets,
        if p.bottomLabels.Some? then p.bottomLabels.value else Blank(|p.heights|),
        p.rotation, line, texts, limits, XLimits(|p.heights|, o.barWidth)))
  }

  /**
   * The pipeline as one function of the arguments; `str` is Python's default
   * string conversion of a number, taken as given.
   */
  function Bars(data: seq<real>, labels: seq<string>, o: Options, str: real -> string): (r: Result<BarChart>)
    requires NonZeroDivisors(o.scaleBy)
    ensures r.Success? ==>
      |r.value.offsets| == |r.value.labels| &&
      (r.value.referenceLine.Some? <==> o.showMaxVal) &&
      (r.value.tickRotation.Some? <==> o.showBottomLabels) &&
      (o.showBottomLabels ==> |r.value.tickLabels| == |r.value.labels|)
  {
    var p :- Prepare(data, labels, o, str);
    Plot(o, p, str)
  }

  /** `show_max_val`: the line at 100 in percent mode, else at the reference maximum. */
  function LineFor(o: Options, offsets: seq<real>, referenceMax: real): (r: Result<Option<ReferenceLine>>)
    ensures !o.showMaxVal ==> r == Success(None)
    ensures o.showMaxVal ==> (r.Success? <==> |offsets| > 0)
    ensures r.Failure? ==> r.error == EmptySequence
    ensures o.showMaxVal && r.Success? ==>
      r.value.Some? && r.value.value.height == (if o.showAsPercent then 100.0 else referenceMax)
  {
    if !o.showMaxVal then Success(None)
    else
      var line :- ReferenceLineFor(offsets, if o.showAsPercent then 100.0 else referenceMax);
      Success(Some(line))
  }

  /**
   * `show_bar_labels`: `y_offset` exists only when `scale_by` was given, so
   * texts over at least one bar need it.
   */
  function TextsFor(o: Options, offsets: seq<real>, heights: seq<real>, str: real -> string)
    : (r: Result<seq<BarText>>)
    ensures !o.showBarLabels ==> r == Success([])
    ensures o.showBarLabels ==>
      (r.Success? <==> |offsets| == 0 || (!o.scaleBy.NoScale? && |offsets| <= |heights|))
    ensures r == Failure(UnboundYOffset) <==>
      o.showBarLabels && o.scaleBy.NoScale? && |offsets| > 0 && |heights| > 0
    ensures o.showBarLabels && r.Success? ==>
      |r.value| == |offsets| &&
      forall i :: 0 <= i < |offsets| ==>
        r.value[i] == BarText(offsets[i], heights[i] + BAR_TEXT_LIFT, FormatOf(o, str)(heights[i]))
  {
    if !o.showBarLabels then Success([])
    else
      BarTexts(offsets, heights, if o.scaleBy.NoScale? then None else Some(BAR_TEXT_LIFT), FormatOf(o, str))
  }

  /** `bar_label_format` when one was given, otherwise the default string conversion. */
  function FormatOf(o: Options, str: real -> string): (r: real -> string)
    ensures o.barLabelFormat.Some? ==> r == o.barLabelFormat.value
    ensures o.barLabelFormat.None? ==> r == str
  {
    if o.barLabelFormat.Some? then o.barLabelFormat.value else str
  }

  /** `bars` up to its first drawing call, rebinding the values stage by stage. */
  method PrepareData(data: seq<real>, labels: seq<string>, o: Options, str: real -> string)
    returns (r: Result<Prepared>)
    requires NonZeroDivisors(o.scaleBy)
    ensures r == Prepare(data, labels, o, str)
  {
    var series :- Reorder(data, labels, o.sortBy);
    var values, names := series.values, series.labels;

    var bottomLabels: Option<seq<string>> := None;
    var rotation: Option<int> := None;
    if o.showBottomLabels {
      if |names| != |values| {
        return Failure(LabelMismatch);
      }
      bottomLabels := Some(BottomLabels(names, values, str));
      rotation := Some(LabelRotation(|names|));
    }

    var normalised :- Normalise(values, o.scaleBy);
    values := normalised.values;
    var offsets := Offsets(|names|);

    var ylim := o.ylim;
    if o.showAsPercent {
      values := Percent(values);
      ylim := PercentLimits(ylim);
    }
    r := Success(Prepared(names, bottomLabels, rotation, values, normalised.referenceMax, offsets, ylim));
  }

  /** The drawing calls of `bars`, with the bar-text loop. */
  method PlotBars(o: Options, p: Prepared, str: real -> string) returns (r: Result<BarChart>)
    ensures r == Plot(o, p, str)
  {
    if o.multicolor && |p.labels| > |p.heights| {
      return Failure(IndexOutOfRange);
    }

    var line: Option<ReferenceLine> := None;
    var maxVal := p.maxVal;
    if o.showMaxVal {
      if o.showAsPercent {
        maxVal := 100.0;
      }
      var l :- ReferenceLineFor(p.offsets, maxVal);
      line := Some(l);
    }

    var texts: seq<BarText> := [];
    if o.showBarLabels {
      var fmt := FormatOf(o, str);
      var yOffset: Option<real> := None;
      if !o.scaleBy.NoScale? {
        yOffset := Some(BAR_TEXT_LIFT);
      }
      texts :- CollectBarTexts(p.offsets, p.heights, yOffset, fmt);
    }

    var limits :- YLimits(p.ylim, p.heights, o.maxValPad);
    var ticks := if p.bottomLabels.Some? then p.bottomLabels.value else Blank(|p.heights|);
    r := Success(BarChart(p.heights, p.labels, p.offsets, ticks, p.rotation, line, texts, limits,
                          XLimits(|p.heights|, o.barWidth)));
  }

  /** `bars` from its arguments to everything it hands the renderer. */
  method PrepareBars(data: seq<real>, labels: seq<string>, o: Options, str: real -> string)
    returns (r: Result<BarChart>)
    requires NonZeroDivisors(o.scaleBy)
    ensures r == Bars(data, labels, o, str)
  {
    var p :- PrepareData(data, labels, o, str);
    r := PlotBars(o, p, str);
  }

  // ---- Properties of the whole pipeline ----

  /**
   * The length check comes first: the call fails with the label mismatch
   * exactly when bottom labels are shown and the reordered labels and values
   * differ in length, whatever the scaling, percent and layout options.
   */
  lemma LabelMismatchFirst(data: seq<real>, labels: seq<string>, o: Options, str: real -> string)
    requires NonZeroDivisors(o.scaleBy)
    ensures Bars(data, labels, o, str) == Failure(LabelMismatch) <==>
      Reorder(data, labels, o.sortBy).Success? && o.showBottomLabels &&
      |Reorder(data, labels, o.sortBy).value.labels| != |Reorder(data, labels, o.sortBy).value.values|
  {
  }

  /**
   * The bottom labels annotate the reordered labels with the reordered but
   * still unscaled values, and their rotation follows the label count;
   * without bottom labels every tick is blank and no rotation is set.
   */
  lemma TickLabelsUseUnscaledValues(data: seq<real>, labels: seq<string>, o: Options, str: real -> string)
    requires NonZeroDivisors(o.scaleBy)
    requires Bars(data, labels, o, str).Success?
    ensures Reorder(data, labels, o.sortBy).Success?
    ensures var s, c := Reorder(data, labels, o.sortBy).value, Bars(data, labels, o, str).value;
      c.labels == s.labels &&
      (o.showBottomLabels ==>
        |s.labels| == |s.values| && |c.tickLabels| == |s.labels| &&
        (forall i :: 0 <= i < |s.labels| ==>
          c.tickLabels[i] == s.labels[i] + COUNT_SEPARATOR + str(s.values[i])) &&
        c.tickRotation == Some(if |s.labels| > 7 then 45 else 0)) &&
      (!o.showBottomLabels ==>
        c.tickRotation == None && |c.tickLabels| == |c.heights| &&
        forall i :: 0 <= i < |c.tickLabels| ==> c.tickLabels[i] == "")
  {
  }

  /** The stages `Bars` went through on a successful call. */
  lemma Stages(data: seq<real>, labels: seq<string>, o: Options, str: real -> string)
    requires NonZeroDivisors(o.scaleBy)
    requires Bars(data, labels, o, str).Success?
    ensures Reorder(data, labels, o.sortBy).Success?
    ensures Normalise(Reorder(data, labels, o.sortBy).value.values, o.scaleBy).Success?
    ensures var s := Reorder(data, labels, o.sortBy).value;
      var n := Normalise(s.values, o.scaleBy).value;
      var c := Bars(data, labels, o, str).value;
      c.heights == (if o.showAsPercent then Percent(n.values) else n.values) &&
      c.labels == s.labels && c.offsets == Offsets(|s.labels|) &&
      YLimits(if o.showAsPercent then PercentLimits(o.ylim) else o.ylim, c.heights, o.maxValPad)
        == Success(c.ylim) &&
      c.xlim == XLimits(|c.heights|, o.barWidth)
  {
  }

  /**
   * The bar heights are the reordered values divided by `scale_by` (as
   * broadcast) and then, in percent mode, multiplied by 100.
   */
  lemma HeightsAreScaledValues(data: seq<real>, labels: seq<string>, o: Options, str: real -> string)
    requires NonZeroDivisors(o.scaleBy)
    requires Bars(data, labels, o, str).Success?
    ensures Reorder(data, labels, o.sortBy).Success?
    ensures ScaledFrom(Bars(data, labels, o, str).value.heights, Reorder(data, labels, o.sortBy).value.values,
                       o.scaleBy, if o.showAsPercent then 100.0 else 1.0)
  {
    var s := Reorder(data, labels, o.sortBy).value;
    Stages(data, labels, o, str);
    ScaledHeights(s.values, o.scaleBy, o.showAsPercent);
  }

  /**
   * `heights` are `values` divided elementwise by the divisors of `scale`, as
   * broadcast (not at all for no `scale_by`), then multiplied by `factor`.
   */
  predicate ScaledFrom(heights: seq<real>, values: seq<real>, scale: ScaleBy, factor: real) {
    if scale.NoScale? then
      |heights| == |values| && forall i :: 0 <= i < |heights| ==> heights[i] == factor * values[i]
    else
      var ds := Divisors(scale);
      Broadcastable(|values|, |ds|) && |heights| == BroadcastLength(|values|, |ds|) &&
      forall i :: 0 <= i < |heights| ==> heights[i] * At(ds, i) == factor * At(values, i)
  }

  /** The heights one normalisation and an optional percent conversion produce. */
  lemma ScaledHeights(values: seq<real>, scale: ScaleBy, percent: bool)
    requires NonZeroDivisors(scale) && Normalise(values, scale).Success?
    ensures var n := Normalise(values, scale).value;
      ScaledFrom(if percent then Percent(n.values) else n.values, values, scale, if percent then 100.0 else 1.0)
  {
    var n := Normalise(values, scale).value;
    if !scale.NoScale? {
      var ds := Divisors(scale);
      assert Divide(values, ds) == Success(n.values);
      if percent {
        forall i | 0 <= i < |n.values|
          ensures Percent(n.values)[i] * At(ds, i) == 100.0 * At(values, i)
        {
          PercentOfProduct(n.values[i], At(ds, i), At(values, i));
        }
      }
    }
  }

  lemma PercentOfProduct(q: real, d: real, v: real)
    requires q * d == v
    ensures (100.0 * q) * d == 100.0 * v
  {
  }

  /**
   * Sorting survives the later stages: dividing by a positive scalar (or not
   * at all) and converting to percent keep a sorted sequence sorted.
   */
  lemma ScalingKeepsOrder(values: seq<real>, scale: ScaleBy, percent: bool)
    requires scale.NoScale? || (scale.Scalar? && scale.divisor > 0.0)
    requires Normalise(values, scale).Success?
    ensures var n := Normalise(values, scale).value.values;
      var h := if percent then Percent(n) else n;
      |h| == |values| &&
      (NonDecreasing(values) ==> NonDecreasing(h)) &&
      (NonIncreasing(values) ==> NonIncreasing(h))
  {
    var n := Normalise(values, scale).value.values;
    var h := if percent then Percent(n) else n;
    forall i, j | 0 <= i < |values| && 0 <= j < |values| && values[i] <= values[j]
      ensures h[i] <= h[j]
    {
      if scale.Scalar? {
        PositiveScalePreservesOrder(values, scale.divisor, i, j);
      }
    }
  }

  /**
   * A chart sorted by a policy string keeps its order through positive
   * scaling and percent mode: its bars are non-increasing for "descending"
   * and non-decreasing for any other string.
   */
  lemma SortedChart(data: seq<real>, labels: seq<string>, o: Options, str: real -> string)
    requires o.sortBy.Policy?
    requires o.scaleBy.NoScale? || (o.scaleBy.Scalar? && o.scaleBy.divisor > 0.0)
    requires Bars(data, labels, o, str).Success?
    ensures var c := Bars(data, labels, o, str).value;
      (IsDescending(o.sortBy.name) ==> NonIncreasing(c.heights)) &&
      (!IsDescending(o.sortBy.name) ==> NonDecreasing(c.heights))
  {
    Stages(data, labels, o, str);
    var s := Reorder(data, labels, o.sortBy).value;
    ReorderByPolicy(data, labels, o.sortBy.name);
    ScalingKeepsOrder(s.values, o.scaleBy, o.showAsPercent);
  }

  /**
   * The reference line: drawn only with `show_max_val`, from -1 to the label
   * count, at 100 in percent mode, else at 1 with `scale_by`, else at the
   * largest reordered unscaled value.
   */
  lemma ReferenceLineHeight(data: seq<real>, labels: seq<string>, o: Options, str: real -> string)
    requires NonZeroDivisors(o.scaleBy)
    requires Bars(data, labels, o, str).Success?
    ensures Reorder(data, labels, o.sortBy).Success?
    ensures var s, c := Reorder(data, labels, o.sortBy).value, Bars(data, labels, o, str).value;
      (c.referenceLine.Some? <==> o.showMaxVal) &&
      (o.showMaxVal ==>
        |s.labels| > 0 &&
        c.referenceLine.value.xFrom == -1.0 && c.referenceLine.value.xTo == |s.labels| as real &&
        c.referenceLine.value.height ==
          if o.showAsPercent then 100.0
          else if o.scaleBy.NoScale? then Max(s.values)
          else 1.0)
  {
    var s := Reorder(data, labels, o.sortBy).value;
    Stages(data, labels, o, str);
    var n := Normalise(s.values, o.scaleBy).value;
    var p := Prepare(data, labels, o, str).value;
    var c := Bars(data, labels, o, str).value;
    assert p.maxVal == n.referenceMax && p.offsets == Offsets(|s.labels|);
    assert Plot(o, p, str) == Success(c);
    assert LineFor(o, p.offsets, p.maxVal) == Success(c.referenceLine);
    if o.showMaxVal {
      var height := if o.showAsPercent then 100.0 else n.referenceMax;
      assert ReferenceLineFor(p.offsets, height).Success?;
      ReferenceLineOverOffsets(|s.labels|, height);
      if o.scaleBy.NoScale? {
        MaxIsReferenceMax(s.values, n.referenceMax);
      }
    }
  }

  lemma MaxIsReferenceMax(values: seq<real>, m: real)
    requires m in values && forall i :: 0 <= i < |values| ==> values[i] <= m
    ensures |values| > 0 && Max(values) == m
  {
    var j :| 0 <= j < |values| && values[j] == m;
    assert Max(values) <= m;
  }

  /**
   * Offsets 0 to one less than the label count whatever the values, and
   * x-limits from minus the bar width to the last bar plus the bar width.
   */
  lemma XLayout(data: seq<real>, labels: seq<string>, o: Options, str: real -> string)
    requires NonZeroDivisors(o.scaleBy)
    requires Bars(data, labels, o, str).Success?
    ensures Reorder(data, labels, o.sortBy).Success?
    ensures var s, c := Reorder(data, labels, o.sortBy).value, Bars(data, labels, o, str).value;
      c.offsets == Offsets(|s.labels|) &&
      c.xlim.0 == -o.barWidth && c.xlim.1 == (|c.heights| as real - 1.0) + o.barWidth
  {
    Stages(data, labels, o, str);
  }

  /**
   * A single value divided by k divisors is broadcast to k bars, while the
   * offsets still follow the labels: the x-limits count the bars, the offsets
   * count the labels.
   */
  lemma BroadcastWidensHeights(data: seq<real>, labels: seq<string>, o: Options, str: real -> string)
    requires NonZeroDivisors(o.scaleBy) && o.scaleBy.PerBar?
    requires Bars(data, labels, o, str).Success?
    requires |Reorder(data, labels, o.sortBy).value.values| == 1
    ensures var s, c := Reorder(data, labels, o.sortBy).value, Bars(data, labels, o, str).value;
      |c.heights| == |o.scaleBy.divisors| && c.offsets == Offsets(|s.labels|) &&
      c.xlim == XLimits(|o.scaleBy.divisors|, o.barWidth)
  {
    Stages(data, labels, o, str);
    HeightsAreScaledValues(data, labels, o, str);
  }

  /**
   * The y-limits: an explicit `ylim` passed through (times 100 in percent
   * mode), else `(0, m + m * pad)` with `m` the largest final height.
   */
  lemma YLayout(data: seq<real>, labels: seq<string>, o: Options, str: real -> string)
    requires NonZeroDivisors(o.scaleBy)
    requires Bars(data, labels, o, str).Success?
    ensures var c := Bars(data, labels, o, str).value;
      (o.ylim.None? ==>
        |c.heights| > 0 && c.ylim.0 == 0.0 && c.ylim.1 == Headroom(Max(c.heights), o.maxValPad)) &&
      (o.ylim.Some? && !o.showAsPercent ==> c.ylim == o.ylim.value) &&
      (o.ylim.Some? && o.showAsPercent ==>
        c.ylim.0 == 100.0 * o.ylim.value.0 && c.ylim.1 == 100.0 * o.ylim.value.1)
  {
    Stages(data, labels, o, str);
    var c := Bars(data, labels, o, str).value;
    LimitsAfterPercent(o.ylim, o.showAsPercent, c.heights, o.maxValPad, c.ylim);
  }

  lemma LimitsAfterPercent(ylim: Option<(real, real)>, percent: bool, heights: seq<real>, pad: real, limits: (real, real))
    requires YLimits(if percent then PercentLimits(ylim) else ylim, heights, pad) == Success(limits)
    ensures ylim.None? ==>
      |heights| > 0 && limits.0 == 0.0 && limits.1 == Headroom(Max(heights), pad)
    ensures ylim.Some? && !percent ==> limits == ylim.value
    ensures ylim.Some? && percent ==> limits.0 == 100.0 * ylim.value.0 && limits.1 == 100.0 * ylim.value.1
  {
  }

  /**
   * Bar texts sit 0.05 above each bar and need `scale_by`: with at least one
   * label and no `scale_by`, showing them fails with the unbound `y_offset`
   * (or with IndexError first on empty data), and it never fails so with `scale_by`.
   */
  lemma BarTextsNeedScale(data: seq<real>, labels: seq<string>, o: Options, str: real -> string)
    requires NonZeroDivisors(o.scaleBy)
    ensures Bars(data, labels, o, str) == Failure(UnboundYOffset) ==>
      o.showBarLabels && o.scaleBy.NoScale? &&
      Reorder(data, labels, o.sortBy).Success? && |Reorder(data, labels, o.sortBy).value.labels| > 0
    ensures Bars(data, labels, o, str).Success? && o.showBarLabels ==>
      var c := Bars(data, labels, o, str).value;
      (|c.offsets| > 0 ==> !o.scaleBy.NoScale?) &&
      |c.barTexts| == |c.offsets| &&
      forall i :: 0 <= i < |c.offsets| ==>
        c.barTexts[i] == BarText(i as real, c.heights[i] + 0.05, FormatOf(o, str)(c.heights[i]))
    ensures !o.showBarLabels && Bars(data, labels, o, str).Success? ==>
      Bars(data, labels, o, str).value.barTexts == []
  {
    var pr := Prepare(data, labels, o, str);
    if pr.Success? {
      var p := pr.value;
      assert Bars(data, labels, o, str) == Plot(o, p, str);
      assert p.labels == Reorder(data, labels, o.sortBy).value.labels;
      assert p.offsets == Offsets(|p.labels|);
    } else {
      assert pr.error != UnboundYOffset;
    }
  }
}
