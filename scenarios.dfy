/** Worked calls of `bars`, one per behaviour the pipeline is known for. */
module Scenarios {
  import opened Outcomes
  import opened Reordering
  import opened Normalisation
  import opened Layout
  import opened Pipeline

  /**
   * `data=[3, 1, 2], labels=['a', 'b', 'c'], sort_by='ascending'` gives heights
   * `[1, 2, 3]` labelled `b, c, a` at offsets `[0, 1, 2]`. The inputs are
   * parameters pinned by the precondition, so the verifier does not unfold the
   * whole pipeline on literals.
   */
  lemma SortAscending(data: seq<real>, labels: seq<string>, o: Options, str: real -> string)
    requires data == [3.0, 1.0, 2.0] && labels == ["a", "b", "c"]
    requires o == Defaults().(sortBy := Policy("ascending"))
    ensures var c := Bars(data, labels, o, str);
      c.Success? && c.value.heights == [1.0, 2.0, 3.0] && c.value.labels == ["b", "c", "a"] &&
      c.value.offsets == [0.0, 1.0, 2.0]
  {
    PreparedAscending(data, labels, o, str);
    var p := Prepare(data, labels, o, str).value;
    assert YLimits(p.ylim, p.heights, o.maxValPad).Success?;
  }

  /** The data stage of the ascending example. */
  lemma PreparedAscending(data: seq<real>, labels: seq<string>, o: Options, str: real -> string)
    requires data == [3.0, 1.0, 2.0] && labels == ["a", "b", "c"]
    requires o == Defaults().(sortBy := Policy("ascending"))
    ensures Prepare(data, labels, o, str).Success?
    ensures var p := Prepare(data, labels, o, str).value;
      p.heights == [1.0, 2.0, 3.0] && p.labels == ["b", "c", "a"] &&
      p.offsets == [0.0, 1.0, 2.0] && p.ylim.None?
  {
    ReorderAscending(data, labels);
    var series := Reorder(data, labels, o.sortBy).value;
    assert |series.values| == |series.labels| == 3;
    OffsetsOfThree(|series.labels|);
  }

  lemma OffsetsOfThree(n: nat)
    requires n == 3
    ensures Offsets(n) == [0.0, 1.0, 2.0]
  {
  }

  /** The insertion steps of the argsort of `[3, 1, 2]`, one index at a time. */
  lemma AscendingPrefix(data: seq<real>)
    requires data == [3.0, 1.0, 2.0]
    ensures ArgsortPrefix(data, 2) == [1, 0]
  {
    assert ArgsortPrefix(data, 1) == Insert(data, [], 0) == [0];
    assert Insert(data, [0], 1) == [1, 0];
  }

  lemma AscendingArgsort(data: seq<real>)
    requires data == [3.0, 1.0, 2.0]
    ensures Argsort(data) == [1, 2, 0]
  {
    AscendingPrefix(data);
    InsertLast(data, [1, 0]);
  }

  lemma InsertLast(data: seq<real>, prefix: seq<nat>)
    requires data == [3.0, 1.0, 2.0] && prefix == [1, 0]
    ensures Insert(data, prefix, 2) == [1, 2, 0]
  {
    assert prefix[1..] == [0];
    assert Insert(data, [0], 2) == [2, 0];
  }

  /** The ascending policy on `[3, 1, 2]` visits the indices `1, 2, 0`. */
  lemma AscendingOrder(data: seq<real>)
    requires data == [3.0, 1.0, 2.0]
    ensures Order(data, Policy("ascending")) == [1, 2, 0]
  {
    AscendingArgsort(data);
    AscendingIsNotDescending("ascending");
  }

  lemma AscendingIsNotDescending(name: string)
    requires name == "ascending"
    ensures !IsDescending(name)
  {
    assert ToLower(name)[0] == 'a';
  }

  /** Sorting `[3, 1, 2]` ascending carries the labels along. */
  lemma ReorderAscending(data: seq<real>, labels: seq<string>)
    requires data == [3.0, 1.0, 2.0] && labels == ["a", "b", "c"]
    ensures Reorder(data, labels, Policy("ascending")) == Success(Series([1.0, 2.0, 3.0], ["b", "c", "a"]))
  {
    AscendingOrder(data);
    PermuteValues(data, [1, 2, 0]);
    PermuteLabels(labels, [1, 2, 0]);
  }

  lemma PermuteValues(data: seq<real>, order: seq<nat>)
    requires data == [3.0, 1.0, 2.0] && order == [1, 2, 0]
    ensures InRange(order, |data|) && Permute(data, order) == [1.0, 2.0, 3.0]
  {
  }

  lemma PermuteLabels(labels: seq<string>, order: seq<nat>)
    requires labels == ["a", "b", "c"] && order == [1, 2, 0]
    ensures InRange(order, |labels|) && Permute(labels, order) == ["b", "c", "a"]
  {
  }

  /** `data=[50, 50], scale_by=100, show_max_val=True` gives heights `[0.5, 0.5]` and the line at 1. */
  lemma ScaledReferenceLine(str: real -> string)
    ensures var c := Bars([50.0, 50.0], ["a", "b"], Defaults().(scaleBy := Scalar(100.0), showMaxVal := true), str);
      c.Success? && c.value.heights == [0.5, 0.5] &&
      c.value.referenceLine == Some(ReferenceLine(-1.0, 2.0, 1.0))
  {
    ReferenceLineOverOffsets(2, 1.0);
  }

  /** `data=[10, 20, 30], show_as_percent=True, ylim=(0, 0.5)` gives y-limits `(0, 50)`. */
  lemma PercentLimitsScaled(str: real -> string)
    ensures var c := Bars([10.0, 20.0, 30.0], ["a", "b", "c"],
                          Defaults().(showAsPercent := true, ylim := Some((0.0, 0.5))), str);
      c.Success? && c.value.heights == [1000.0, 2000.0, 3000.0] &&
      c.value.ylim.0 == 0.0 && c.value.ylim.1 == 50.0
  {
  }

  /** Two labels for three values with bottom labels shown fail with the length check. */
  lemma MismatchedLabels(str: real -> string)
    ensures Bars([1.0, 2.0, 3.0], ["a", "b"], Defaults(), str) == Failure(LabelMismatch)
  {
  }

  /** Bar texts without `scale_by` fail: `y_offset` was never assigned. */
  lemma BarTextsWithoutScale(str: real -> string)
    ensures Bars([1.0, 2.0], ["a", "b"], Defaults().(showBarLabels := true), str) == Failure(UnboundYOffset)
  {
  }

  /**
   * With one bar per call off, more labels than values fail in the bar-text
   * loop, which reads a height past the end of the data.
   */
  lemma BarTextPastData(str: real -> string)
    ensures Bars([1.0], ["a", "b"],
                 Defaults().(showBottomLabels := false, multicolor := false, showBarLabels := true,
                             scaleBy := Scalar(1.0)), str)
      == Failure(IndexOutOfRange)
  {
  }

  /** An empty list as `sort_by` is refused as an index, so the whole call fails. */
  lemma EmptyIndexList(str: real -> string)
    ensures Reorder([1.0, 2.0], ["a", "b"], Indices([])) == Failure(IndexOutOfRange)
    ensures Bars([1.0, 2.0], ["a", "b"],
                 Defaults().(sortBy := Indices([]), scaleBy := Scalar(1.0), ylim := Some((0.0, 1.0))), str)
      == Failure(IndexOutOfRange)
  {
  }
}
