# plottingtools `bars`: the data-to-layout pipeline

This project models what the `bars` function of plottingtools computes before
and around its matplotlib calls. That covers everything handed to the
renderer:

- the reordered bar heights and labels;
- the bottom tick labels and their rotation;
- the bar offsets;
- the reference line drawn by `show_max_val`;
- the texts drawn by `show_bar_labels`;
- the y- and x-limits.

Dafny proves properties of that model: sorting, pairing, the rotation
threshold, scaling, percent mode and the layout rules.

The model follows the order of the source, one module per stage:

- `Outcomes`: the exceptions `bars` can raise while computing what it draws, as a `Result` datatype.
- `Extrema`: `max`/`min` of a non-empty sequence.
- `Reordering`: `sort_by` as a policy string or an explicit index sequence.
  - argsort is an insertion sort on indices;
  - it is reversed for "descending" in any letter case;
  - fancy indexing is applied to the values and the labels alike.
- `Ticks`: the bottom labels "label, newline, `N = `, count" and the 45/0 degree rotation.
- `Normalisation`: division by `scale_by` with one-dimensional numpy broadcasting, the reference maximum, and percent conversion.
- `Layout`: offsets, the reference line, bar texts (including the loop that collects them), y-limits and x-limits.
- `Pipeline`: the stages and how they are chained.
  - `Bars` is the whole pipeline as one function, the composition of `Prepare` (source lines 85-140) and `Plot` (lines 142-192).
  - The methods `PrepareData`, `PlotBars` and `PrepareBars` rebind local variables step by step as the source does. Each is proved equal to its function.
  - The lemmas state what a successful call hands to the renderer, in terms of the inputs.
- `Scenarios`: worked calls, such as sorting `[3, 1, 2]` ascending, and `data=[50, 50]` with `scale_by=100`.

Numbers are Dafny `real`. Number formatting (`'{}'.format`) and the user's
`bar_label_format` are a function parameter `str: real -> string`, left
uninterpreted.

Notes on the source's behaviour that the model follows:

- **Ties** (plottingtools/plot.py:96). numpy's default argsort is not stable, so the order among equal values is unspecified. The model promises a permutation in non-decreasing order and nothing about ties.
- **Empty index list** (plottingtools/plot.py:100-101). An empty list or tuple as `sort_by` becomes a float array, and numpy refuses a float array as an index even when it is empty. The model fails with IndexError for an empty explicit order.
- **Reference value in percent mode** (plottingtools/plot.py:154). The line moves to 100 only when `show_max_val` draws it. The reference maximum computed at lines 122-126 is not changed by percent mode.
- **Broadcasting** (plottingtools/plot.py:123). `scale_by` follows numpy broadcasting of one-dimensional shapes: equal lengths, or either side of length one.
- **When errors happen.** Some errors arise only after the figure has been created (line 144). The model returns them as errors of the same call:
  - the IndexError of the multicolor loop (lines 147-148);
  - `min` of empty offsets (line 155);
  - the IndexError of the bar-text loop reading past the data, when there are more labels than values (line 175);
  - the unbound `y_offset` (line 175);
  - `max` of empty data (line 179).

## Model

| member | source | states |
|---|---|---|
| `Extrema.Max` | plottingtools/plot.py:179 | the result is an element of the non-empty sequence and no element exceeds it |
| `Extrema.Min` | plottingtools/plot.py:155 | the result is an element of the non-empty sequence and no element is below it |
| `Reordering.Argsort` | plottingtools/plot.py:96 | the order holds each index 0..n-1 exactly once and visits the values in non-decreasing order |
| `Reordering.ArgsortPrefixPermutation` | plottingtools/plot.py:96 | the insertion argsort of the first k values holds each of 0..k-1 exactly once |
| `Reordering.ArgsortPrefixAscending` | plottingtools/plot.py:96 | the insertion argsort of the first k values visits them in non-decreasing order |
| `Reordering.InsertAscending` | plottingtools/plot.py:96 | inserting one more index into an ascending order keeps it ascending |
| `Reordering.Insert` | plottingtools/plot.py:96 | the insertion step adds exactly the new index and keeps every index in bounds |
| `Reordering.Reverse` | plottingtools/plot.py:98 | element i of the reversed sequence is element n-1-i of the original |
| `Reordering.ReverseMultiset` | plottingtools/plot.py:98 | reversing keeps every element with its multiplicity |
| `Reordering.ToLower` | plottingtools/plot.py:97 | same length, each character mapped to lower case (ASCII) |
| `Reordering.Permute` | plottingtools/plot.py:101-102 | element i of the fancy-indexed result is `s[order[i]]`, one per index |
| `Reordering.Reorder` | plottingtools/plot.py:90-102 | None leaves values and labels unchanged; otherwise success exactly when the order is not an empty explicit list and every index fits both arrays (else IndexError), and values and labels are both taken through the same order |
| `Reordering.Order` | plottingtools/plot.py:95-100 | an explicit order is used verbatim; a policy string gives a permutation of 0..n-1, visiting the values non-increasing for "descending" in any case and non-decreasing for any other string |
| `Reordering.IsDescending` | plottingtools/plot.py:97 | a policy lower-cases to "descending" exactly when it spells that word with each letter in lower or upper case |
| `Reordering.ReorderByPolicy` | plottingtools/plot.py:95-102 | sorting by a policy succeeds exactly when there are at least as many labels as values, keeps the multiset of values and sorts them by the policy |
| `Reordering.DescendingReversesAscending` | plottingtools/plot.py:97-98 | "descending" succeeds exactly when ascending does, and its values and labels are exactly the ascending ones reversed |
| `Reordering.PermutePreservesMultiset` | plottingtools/plot.py:101 | fancy indexing by a permutation keeps every element |
| `Reordering.PermuteSameMultiset` | plottingtools/plot.py:101 | two index sequences with the same multiset pick the same multiset of elements |
| `Reordering.PermuteReverse` | plottingtools/plot.py:98 | indexing by the reversed order equals reversing the indexed sequence |
| `Reordering.ReorderKeepsPairs` | plottingtools/plot.py:99-102 | with equal lengths and a permutation (or a policy), reordering succeeds except for an empty explicit list, and keeps the multiset of (value, label) pairs |
| `Ticks.BottomLabels` | plottingtools/plot.py:110-111 | one label per entry: the label, the separator, then the formatted count |
| `Ticks.BottomLabelParts` | plottingtools/plot.py:110-111 | the label, the separator and the formatted count can each be read back out of a bottom label |
| `Ticks.LabelRotation` | plottingtools/plot.py:114-117 | 45 exactly when there are more than seven labels, 0 exactly when there are at most seven |
| `Ticks.RotationBoundary` | plottingtools/plot.py:114-117 | eight labels rotate by 45, seven by 0 |
| `Normalisation.BroadcastLength` | plottingtools/plot.py:123 | each operand already has the broadcast length or is stretched to it from length one |
| `Normalisation.Divide` | plottingtools/plot.py:123 | success exactly when the shapes broadcast (else a shape error); each quotient times its divisor gives back the value |
| `Normalisation.Normalise` | plottingtools/plot.py:122-126 | without `scale_by`: success exactly on non-empty data, values unchanged, reference maximum is the largest value; with it: success exactly when broadcastable, reference 1, values are the quotients |
| `Normalisation.Percent` | plottingtools/plot.py:138 | every value multiplied by 100, same length |
| `Normalisation.PercentLimits` | plottingtools/plot.py:139-140 | an explicit ylim has both bounds multiplied by 100; None stays None |
| `Normalisation.ScaleByOneIdempotent` | plottingtools/plot.py:122-124 | scaling by 1 changes nothing, so scaling twice equals scaling once |
| `Normalisation.PositiveScalePreservesOrder` | plottingtools/plot.py:123 | a positive scalar keeps the order of any two values, so sorting before scaling is safe |
| `Normalisation.NegativeScaleReversesOrder` | plottingtools/plot.py:123 | a negative scalar reverses the order of two distinct values |
| `Layout.Offsets` | plottingtools/plot.py:134 | one offset per label, offset i equal to i |
| `Layout.ReferenceLineFor` | plottingtools/plot.py:153-158 | fails exactly on empty offsets; the line runs from one unit before the smallest offset to one unit past the largest, at the given height |
| `Layout.ReferenceLineOverOffsets` | plottingtools/plot.py:155 | over the offsets 0..n-1 the line runs from -1 to n |
| `Layout.BarTexts` | plottingtools/plot.py:171-175 | success exactly with no labels or with `y_offset` set and enough heights; fails unbound exactly when there are labels and data but no `y_offset`; text i sits at offset i, height i plus the lift, reading the formatted height |
| `Layout.CollectBarTexts` | plottingtools/plot.py:174-175 | the loop produces exactly the bar texts, or the error of the first failing iteration |
| `Layout.YLimits` | plottingtools/plot.py:178-179 | an explicit ylim is kept; otherwise success exactly on non-empty heights with limits (0, m + m * pad) for the largest height m |
| `Layout.AutoscaleCoversBars` | plottingtools/plot.py:178-179 | with a non-negative pad, autoscaled limits contain every non-negative height |
| `Layout.XLimits` | plottingtools/plot.py:183 | the left limit is minus the bar width and the span is the bar count minus one plus two bar widths |
| `Layout.OffsetsInsideXLimits` | plottingtools/plot.py:183-184 | with positive bar width every offset lies strictly inside the x-limits |
| `Pipeline.Defaults` | plottingtools/plot.py:21-41 | the default call: no reordering, no scaling, no percent mode, autoscaled limits, bottom labels, one bar per call, bar width 0.75, pad 0.1 |
| `Pipeline.Prepare` | plottingtools/plot.py:85-140 | the data stage fails only by reordering, the length check, broadcasting or an empty maximum; on success there is one offset per label, bottom labels and rotation exactly when shown (one per label), and ylim unchanged outside percent mode |
| `Pipeline.Plot` | plottingtools/plot.py:142-192 | the drawing stage fails only by an IndexError (the multicolor loop, or the bar-text loop reading past the data), an empty `min`/`max` or the unbound `y_offset`; it passes heights, labels, offsets and rotation through, draws the line exactly with `show_max_val`, no texts without `show_bar_labels`, and one tick label per bottom label or per bar |
| `Pipeline.Bars` | plottingtools/plot.py:85-192 | a successful chart has one offset per label, a reference line exactly with `show_max_val`, a tick rotation exactly with bottom labels, and then one tick label per label |
| `Pipeline.LineFor` | plottingtools/plot.py:153-158 | no line without `show_max_val`; with it, success exactly on non-empty offsets, at 100 in percent mode and at the reference maximum otherwise |
| `Pipeline.TextsFor` | plottingtools/plot.py:161-175 | no texts without `show_bar_labels`; with it, fails unbound exactly without `scale_by` over a non-empty chart, and on success text i sits at (offset i, height i + 0.05) reading the formatted height |
| `Pipeline.FormatOf` | plottingtools/plot.py:165-169 | the user's `bar_label_format` when given, else the default conversion |
| `Pipeline.Blank` | plottingtools/plot.py:192 | one empty tick label per bar |
| `Pipeline.PrepareData` | plottingtools/plot.py:85-140 | the step-by-step rebinding of values, labels, bottom labels, reference maximum and ylim yields exactly the data stage |
| `Pipeline.PlotBars` | plottingtools/plot.py:142-192 | the drawing calls with the bar-text loop yield exactly the layout stage for the prepared data |
| `Pipeline.PrepareBars` | plottingtools/plot.py:85-192 | the whole of `bars` up to rendering yields exactly the pipeline function's chart or error |
| `Pipeline.LabelMismatchFirst` | plottingtools/plot.py:106-108 | the length ValueError is raised exactly when reordering succeeded, bottom labels are shown and the lengths differ, whatever the later options |
| `Pipeline.TickLabelsUseUnscaledValues` | plottingtools/plot.py:106-119 | tick label i is label i, the separator and the reordered unscaled value i, with rotation 45 above seven labels; without bottom labels all ticks are blank and no rotation is set |
| `Pipeline.Stages` | plottingtools/plot.py:122-140 | a successful chart's heights, labels, offsets and limits are those of the reorder, normalise and percent stages |
| `Pipeline.HeightsAreScaledValues` | plottingtools/plot.py:122-138 | each height times its broadcast divisor is the reordered value, times 100 in percent mode |
| `Pipeline.ScalingKeepsOrder` | plottingtools/plot.py:122-138 | division by a positive scalar (or none) and percent conversion keep a non-decreasing or non-increasing sequence so, with its length |
| `Pipeline.SortedChart` | plottingtools/plot.py:95-138 | sorting by a policy survives positive scaling and percent mode: the bars are non-increasing for "descending" in any case, non-decreasing otherwise |
| `Pipeline.ScaledHeights` | plottingtools/plot.py:123-138 | normalising then optionally converting to percent gives heights that, times their divisors, are the values (times 100 in percent mode) |
| `Pipeline.ReferenceLineHeight` | plottingtools/plot.py:153-158 | the line exists exactly with `show_max_val`; it spans -1 to the label count, at 100 in percent mode, else 1 with `scale_by`, else the largest reordered unscaled value |
| `Pipeline.XLayout` | plottingtools/plot.py:183 | offsets are 0..n-1 for the reordered labels whatever the values; x-limits are (-bar width, count - 1 + bar width) |
| `Pipeline.YLayout` | plottingtools/plot.py:178-182 | without ylim the limits are (0, m + m * pad) for the largest final height; an explicit ylim is used as given, times 100 in percent mode |
| `Pipeline.BroadcastWidensHeights` | plottingtools/plot.py:123-183 | one value divided by k divisors gives k bars, while the offsets follow the labels and the x-limits span the k bars |
| `Pipeline.LimitsAfterPercent` | plottingtools/plot.py:137-182 | autoscaled limits use the largest final height; an explicit ylim reaches the axis unchanged, or with both bounds times 100 in percent mode |
| `Pipeline.BarTextsNeedScale` | plottingtools/plot.py:161-175 | an unbound `y_offset` failure happens only with bar labels, no `scale_by` and at least one label; on success text i sits at (i, height i + 0.05); without bar labels there are none |
| `Scenarios.SortAscending` | plottingtools/plot.py:95-102 | data [3, 1, 2] sorted ascending gives heights [1, 2, 3], labels b, c, a, offsets [0, 1, 2] |
| `Scenarios.ScaledReferenceLine` | plottingtools/plot.py:122-158 | data [50, 50] with `scale_by=100` and `show_max_val` gives heights [0.5, 0.5] and the line from -1 to 2 at 1 |
| `Scenarios.PercentLimitsScaled` | plottingtools/plot.py:137-140 | data [10, 20, 30] in percent mode with ylim (0, 0.5) gives heights [1000, 2000, 3000] and limits (0, 50) |
| `Scenarios.MismatchedLabels` | plottingtools/plot.py:107-108 | three values and two labels with bottom labels raise the length error |
| `Scenarios.BarTextPastData` | plottingtools/plot.py:174-175 | one value, two labels and bar labels without one bar per call fail with IndexError in the bar-text loop |
| `Scenarios.EmptyIndexList` | plottingtools/plot.py:100-101 | an empty list as `sort_by` makes reordering, and so the whole call, fail with IndexError |
| `Scenarios.BarTextsWithoutScale` | plottingtools/plot.py:171-175 | bar labels without `scale_by` fail with the unbound `y_offset` |

## Left out

- The matplotlib calls (figure, bars, the plotted line, `plt.text`, limits, ticks, tick labels, legend, title, `savefig`, `show`): the model keeps only the values passed to them, collected in `BarChart`.
- `util.check_parameter` and `util.ParameterRegister`: `util` is not part of this model, so the option validation they perform is not modelled.
- The `debug` breakpoint through `ipdb`: an interactive debugger, no computation.
- The `Plot2D` and `Lines` classes and `setup.py`: keyword dispatch to matplotlib and packaging, no computation.
- IEEE floating point: numbers are reals. Division by zero in `scale_by` (infinities, NaN) is excluded by the `NonZeroDivisors` precondition of `Normalisation.Divide`, `Normalisation.Normalise`, `Pipeline.Prepare`, `Pipeline.Bars` and the methods `Pipeline.PrepareData` and `Pipeline.PrepareBars`.
- Integer dtypes and their overflow: an integer `data` stays int64 under `data *= 100` (plottingtools/plot.py:138). That wraps around once a magnitude reaches about 9.2e16, and the model's unbounded reals do not.
- The printed form of a number: `'{}'.format` writes an int element as "2" and a float as "2.0". The bottom labels (plottingtools/plot.py:110) format the input's dtype, while bar texts after `scale_by` format float quotients. The model passes every number through the one parameter `str` on reals, so it does not tell "2" from "2.0".
- Negative fancy indices: an explicit `sort_by` is a sequence of naturals. An index past the end is modelled as the IndexError it raises.
- Reordering.Reorder: an empty explicit order fails as numpy fails for an empty list or tuple. An empty integer ndarray, which numpy accepts as an index, cannot be told apart in `seq<nat>` and so fails in the model too.
- The tie order of numpy's argsort (its default kind is not stable): `Reordering.Argsort` is a concrete insertion sort, but no contract or lemma states an order among equal values.
- `str.lower()` beyond ASCII: `Reordering.ToLower` maps only `A`-`Z`.
- Number formatting: `'{}'.format` and `bar_label_format` are an uninterpreted function parameter.
- The `labels=None` default: `np.array(None)` is a zero-dimensional object array, never None, so a call without labels always fails. With `sort_by` set, `labels[order]` raises IndexError (plottingtools/plot.py:102). Otherwise `len(labels)` raises TypeError, at line 107 with bottom labels and at line 134 without them. The model takes `labels` as a sequence of strings, which loses no call that could succeed.
- The non-multicolor branch draws all bars in one call and depends on matplotlib's own shape checks, so it is modelled as always succeeding. The multicolor loop is modelled only by the IndexError it raises when there are more labels than values.
- Percent mode on `data` happens in place (`data *= 100`). `data` is a fresh array there, so no caller sees the change, and the model rebinds it instead.
