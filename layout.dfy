/**
 * The layout stage of `bars`: bar offsets, the reference line, the per-bar
 * text positions and the axis limits handed to the renderer.
 */
module Layout {
  import opened Outcomes
  import opened Extrema

  /** How far above a bar its text sits when `scale_by` was given. */
  const BAR_TEXT_LIFT := 0.05

  /** The dashed horizontal line drawn by `show_max_val`. */
  datatype ReferenceLine = ReferenceLine(xFrom: real, xTo: real, height: real)

  /** One text drawn on the chart: its position and its string. */
  datatype BarText = BarText(x: real, y: real, text: string)

  /** The bar positions 0, 1, ..., n - 1: one slot per label, whatever the values. */
  function Offsets(n: nat): (r: seq<real>)
    ensures |r| == n
    ensures forall i :: 0 <= i < n ==> r[i] == i as real
  {
    seq(n, i requires 0 <= i < n => i as real)
  }

  /**
   * The line at `height` from `min(offsets) - 1` to `max(offsets) + 1`; `min`
   * of an empty list fails. It reaches one unit past the outermost offsets.
   */
  function ReferenceLineFor(offsets: seq<real>, height: real): (r: Result<ReferenceLine>)
    ensures r.Success? <==> |offsets| > 0
    ensures r.Failure? ==> r.error == EmptySequence
    ensures r.Success? ==>
      r.value.height == height &&
      r.value.xFrom + 1.0 in offsets && r.value.xTo - 1.0 in offsets &&
      forall i :: 0 <= i < |offsets| ==> r.value.xFrom + 1.0 <= offsets[i] <= r.value.xTo - 1.0
  {
    if |offsets| == 0 then Failure(EmptySequence)
    else Success(ReferenceLine(Min(offsets) - 1.0, Max(offsets) + 1.0, height))
  }

  /**
   * One text per label, at the bar's offset, lifted by `y_offset` above the
   * bar's height and reading the formatted height. The height is read before
   * `y_offset`, so the first iteration fails with IndexError on empty data and
   * otherwise with UnboundLocalError when `y_offset` was never assigned.
   */
  function BarTexts(offsets: seq<real>, heights: seq<real>, yOffset: Option<real>, fmt: real -> string)
    : (r: Result<seq<BarText>>)
    ensures r.Success? <==> |offsets| == 0 || (yOffset.Some? && |offsets| <= |heights|)
    ensures r == Failure(UnboundYOffset) <==> |offsets| > 0 && |heights| > 0 && yOffset.None?
    ensures r.Failure? ==> r.error in {IndexOutOfRange, UnboundYOffset}
    ensures r.Success? ==>
      |r.value| == |offsets| &&
      forall i :: 0 <= i < |offsets| ==>
        r.value[i] == BarText(offsets[i], heights[i] + yOffset.value, fmt(heights[i]))
  {
    if |offsets| == 0 then Success([])
    else if |heights| == 0 then Failure(IndexOutOfRange)
    else if yOffset.None? then Failure(UnboundYOffset)
    else if |heights| < |offsets| then Failure(IndexOutOfRange)
    else
      Success(seq(|offsets|, i requires 0 <= i < |offsets| =>
        BarText(offsets[i], heights[i] + yOffset.value, fmt(heights[i]))))
  }

  /**
   * The bar-text loop itself: one text per offset, appended in order, failing
   * at the first iteration that reads past the heights or needs `y_offset`.
   */
  method CollectBarTexts(offsets: seq<real>, heights: seq<real>, yOffset: Option<real>, fmt: real -> string)
    returns (r: Result<seq<BarText>>)
    ensures r == BarTexts(offsets, heights, yOffset, fmt)
  {
    var texts: seq<BarText> := [];
    var i := 0;
    while i < |offsets|
      invariant 0 <= i <= |offsets|
      invariant i > 0 ==> yOffset.Some? && i <= |heights|
      invariant |texts| == i
      invariant forall k :: 0 <= k < i ==>
        texts[k] == BarText(offsets[k], heights[k] + yOffset.value, fmt(heights[k]))
    {
      if i >= |heights| {
        return Failure(IndexOutOfRange);
      }
      if yOffset.None? {
        return Failure(UnboundYOffset);
      }
      texts := texts + [BarText(offsets[i], heights[i] + yOffset.value, fmt(heights[i]))];
      i := i + 1;
    }
    var expected := BarTexts(offsets, heights, yOffset, fmt);
    assert expected.Success?;
    assert expected.value == texts;
    r := Success(texts);
  }

  /**
   * The y-limits: an explicit `ylim` unchanged, otherwise `(0, m + m * pad)`
   * with `m` the largest height (`max` of an empty array fails).
   */
  function YLimits(ylim: Option<(real, real)>, heights: seq<real>, pad: real): (r: Result<(real, real)>)
    ensures ylim.Some? ==> r == Success(ylim.value)
    ensures ylim.None? ==> (r.Success? <==> |heights| > 0)
    ensures r.Failure? ==> r.error == EmptySequence
    ensures ylim.None? && r.Success? ==>
      r.value.0 == 0.0 && r.value.1 == Headroom(Max(heights), pad)
  {
    match ylim
    case Some(limits) => Success(limits)
    case None =>
      if |heights| == 0 then Failure(EmptySequence)
      else Success((0.0, Headroom(Max(heights), pad)))
  }

  /** `top` raised by the fraction `pad` of itself. */
  function Headroom(top: real, pad: real): real {
    top + top * pad
  }

  /** The x-limits: one bar width left of the first bar to one bar width right of the last. */
  function XLimits(count: nat, barWidth: real): (r: (real, real))
    ensures r.0 == -barWidth
    ensures r.1 - r.0 == (count as real - 1.0) + 2.0 * barWidth
  {
    (-barWidth, (count as real - 1.0) + barWidth)
  }

  // ---- Properties of the layout stage ----

  /** With positive bar width, every offset lies strictly inside the x-limits. */
  lemma OffsetsInsideXLimits(n: nat, barWidth: real)
    requires barWidth > 0.0
    ensures forall i :: 0 <= i < n ==> XLimits(n, barWidth).0 < Offsets(n)[i] < XLimits(n, barWidth).1
  {
  }

  /** Over the offsets `0..n-1`, the reference line runs from -1 to n. */
  lemma {:induction false} ReferenceLineOverOffsets(n: nat, height: real)
    requires n > 0
    ensures ReferenceLineFor(Offsets(n), height) == Success(ReferenceLine(-1.0, n as real, height))
  {
    var offsets := Offsets(n);
    var lo, hi := Min(offsets), Max(offsets);
    assert offsets[0] == 0.0 && offsets[n - 1] == (n - 1) as real;
    var p :| 0 <= p < n && offsets[p] == lo;
    var q :| 0 <= q < n && offsets[q] == hi;
    assert lo == 0.0;
    assert hi == (n - 1) as real;
  }

  /**
   * Autoscaling with a non-negative pad leaves room for every non-negative bar:
   * each height lies between the two y-limits.
   */
  lemma AutoscaleCoversBars(heights: seq<real>, pad: real)
    requires |heights| > 0 && pad >= 0.0
    requires forall i :: 0 <= i < |heights| ==> heights[i] >= 0.0
    ensures var r := YLimits(None, heights, pad);
      r.Success? && forall i :: 0 <= i < |heights| ==> r.value.0 <= heights[i] <= r.value.1
  {
    var m := Max(heights);
    assert m >= 0.0 by {
      assert heights[0] <= m;
    }
    assert m * pad >= 0.0;
  }
}
