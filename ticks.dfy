/** Bottom tick labels of `bars`: the annotated labels and their rotation. */
module Ticks {

  /** What `bars` puts between a label and its count. */
  const COUNT_SEPARATOR := "\nN = "

  /** Above this many labels the tick labels are rotated. */
  const ROTATION_THRESHOLD := 7

  /**
   * Each label followed by the separator and its formatted count; `str` is
   * Python's default string conversion of a number, taken as given.
   */
  function BottomLabels(labels: seq<string>, counts: seq<real>, str: real -> string): (r: seq<string>)
    requires |labels| == |counts|
    ensures |r| == |labels|
    ensures forall i :: 0 <= i < |r| ==> r[i] == labels[i] + COUNT_SEPARATOR + str(counts[i])
  {
    seq(|labels|, i requires 0 <= i < |labels| => labels[i] + COUNT_SEPARATOR + str(counts[i]))
  }

  /**
   * Each bottom label can be taken apart again: it starts with the original
   * label, and after the separator comes exactly the formatted count.
   */
  lemma BottomLabelParts(labels: seq<string>, counts: seq<real>, str: real -> string, i: nat)
    requires |labels| == |counts| && i < |labels|
    ensures var t, n := BottomLabels(labels, counts, str)[i], |labels[i]|;
      |t| == n + |COUNT_SEPARATOR| + |str(counts[i])| &&
      t[..n] == labels[i] &&
      t[n..n + |COUNT_SEPARATOR|] == COUNT_SEPARATOR &&
      t[n + |COUNT_SEPARATOR|..] == str(counts[i])
  {
    var t := BottomLabels(labels, counts, str)[i];
    var n := |labels[i]|;
    assert t == labels[i] + COUNT_SEPARATOR + str(counts[i]);
  }

  /** Tick-label rotation in degrees: 45 for more than seven labels, 0 otherwise. */
  function LabelRotation(count: nat): (degrees: int)
    ensures degrees == 45 <==> count > ROTATION_THRESHOLD
    ensures degrees == 0 <==> count <= ROTATION_THRESHOLD
  {
    if count > ROTATION_THRESHOLD then 45 else 0
  }

  /** The two sides of the threshold: eight labels rotate, seven do not. */
  lemma RotationBoundary()
    ensures LabelRotation(8) == 45 && LabelRotation(7) == 0
  {
  }
}
