/**
 * The reordering stage of `bars`: a string `sort_by` sorts by value through an
 * argsort (reversed for "descending"), any other `sort_by` is a fancy index, and
 * the same index sequence is applied to the values and to the labels.
 */
module Reordering {
  import opened Outcomes

  /** The `sort_by` argument. */
  datatype SortBy =
    | Unsorted                  // sort_by=None
    | Policy(name: string)      // any string: 'ascending', 'descending', ...
    | Indices(order: seq<nat>)  // any other value, used verbatim as an index array

  /** The values and labels as the later stages see them. */
  datatype Series = Series(values: seq<real>, labels: seq<string>)

  /** The identity index sequence 0, 1, ..., n - 1. */
  function Range(n: nat): (r: seq<nat>)
    ensures |r| == n
    ensures forall i :: 0 <= i < n ==> r[i] == i
  {
    if n == 0 then [] else Range(n - 1) + [n - 1]
  }

  /** The indices below `n` are those below `n - 1` and `n - 1` itself. */
  lemma RangeMultiset(n: nat)
    requires n > 0
    ensures multiset(Range(n)) == multiset(Range(n - 1)) + multiset{(n - 1) as nat}
  {
    assert Range(n) == Range(n - 1) + [n - 1];
  }

  /** Every index of `order` may be used on a sequence of length `n`. */
  predicate InRange(order: seq<nat>, n: nat) {
    forall i :: 0 <= i < |order| ==> order[i] < n
  }

  /** `order` holds each of 0..n-1 exactly once. */
  predicate IsPermutation(order: seq<nat>, n: nat) {
    multiset(order) == multiset(Range(n))
  }

  /** Visiting `data` in `order` meets non-decreasing values. */
  predicate Ascending(data: seq<real>, order: seq<nat>)
    requires InRange(order, |data|)
  {
    forall i, j :: 0 <= i < j < |order| ==> data[order[i]] <= data[order[j]]
  }

  /** Visiting `data` in `order` meets non-increasing values. */
  predicate Descending(data: seq<real>, order: seq<nat>)
    requires InRange(order, |data|)
  {
    forall i, j :: 0 <= i < j < |order| ==> data[order[i]] >= data[order[j]]
  }

  predicate NonDecreasing(s: seq<real>) {
    forall i, j :: 0 <= i < j < |s| ==> s[i] <= s[j]
  }

  predicate NonIncreasing(s: seq<real>) {
    forall i, j :: 0 <= i < j < |s| ==> s[i] >= s[j]
  }

  lemma PermutationInRange(order: seq<nat>, n: nat)
    requires IsPermutation(order, n)
    ensures |order| == n && InRange(order, n)
  {
    assert |order| == |multiset(order)| == |multiset(Range(n))| == n;
    forall i | 0 <= i < |order|
      ensures order[i] < n
    {
      assert order[i] in multiset(Range(n));
    }
  }

  /** Inserts index `k` after the leading indices whose value is at most `data[k]`. */
  function Insert(data: seq<real>, order: seq<nat>, k: nat): (r: seq<nat>)
    requires k < |data| && InRange(order, |data|)
    ensures |r| == |order| + 1
    ensures multiset(r) == multiset(order) + multiset{k}
    ensures forall j :: 0 <= j < |r| ==> r[j] == k || r[j] in order
    ensures InRange(r, |data|)
    decreases |order|
  {
    if order == [] then [k]
    else if data[k] < data[order[0]] then [k] + order
    else
      assert order == [order[0]] + order[1..];
      [order[0]] + Insert(data, order[1..], k)
  }

  /** Inserting into an ascending order keeps it ascending. */
  lemma {:induction false} InsertAscending(data: seq<real>, order: seq<nat>, k: nat)
    requires k < |data| && InRange(order, |data|) && Ascending(data, order)
    ensures Ascending(data, Insert(data, order, k))
    decreases |order|
  {
    if order != [] && data[order[0]] <= data[k] {
      var head, rest := order[0], order[1..];
      var tail := Insert(data, rest, k);
      InsertAscending(data, rest, k);
      forall i | 0 <= i < |rest|
        ensures data[head] <= data[rest[i]]
      {
        assert rest[i] == order[i + 1];
      }
      InsertKeepsLowerBound(data, rest, k, data[head]);
      ConsAscending(data, head, tail);
      assert Insert(data, order, k) == [head] + tail;
    }
  }

  /** An ascending order stays ascending behind an index whose value bounds it from below. */
  lemma ConsAscending(data: seq<real>, head: nat, tail: seq<nat>)
    requires head < |data| && InRange(tail, |data|) && Ascending(data, tail)
    requires forall j :: 0 <= j < |tail| ==> data[head] <= data[tail[j]]
    ensures InRange([head] + tail, |data|) && Ascending(data, [head] + tail)
  {
    var r := [head] + tail;
    forall i, j | 0 <= i < j < |r|
      ensures data[r[i]] <= data[r[j]]
    {
      assert r[j] == tail[j - 1];
      if i > 0 {
        assert r[i] == tail[i - 1];
      }
    }
  }

  /** A lower bound on the values of `order` and of `data[k]` bounds the values after the insertion. */
  lemma InsertKeepsLowerBound(data: seq<real>, order: seq<nat>, k: nat, v: real)
    requires k < |data| && InRange(order, |data|)
    requires forall i :: 0 <= i < |order| ==> v <= data[order[i]]
    requires v <= data[k]
    ensures var r := Insert(data, order, k); forall j :: 0 <= j < |r| ==> v <= data[r[j]]
  {
    var r := Insert(data, order, k);
    forall j | 0 <= j < |r|
      ensures v <= data[r[j]]
    {
      if r[j] != k {
        var p :| 0 <= p < |order| && order[p] == r[j];
      }
    }
  }

  /** An ascending argsort of the first `k` values, built by insertion. */
  function ArgsortPrefix(data: seq<real>, k: nat): (order: seq<nat>)
    requires k <= |data|
    ensures |order| == k && InRange(order, |data|)
  {
    if k == 0 then [] else Insert(data, ArgsortPrefix(data, k - 1), k - 1)
  }

  /** The prefix argsort holds each of 0..k-1 exactly once. */
  lemma {:induction false} ArgsortPrefixPermutation(data: seq<real>, k: nat)
    requires k <= |data|
    ensures multiset(ArgsortPrefix(data, k)) == multiset(Range(k))
  {
    if k > 0 {
      var prefix := ArgsortPrefix(data, k - 1);
      ArgsortPrefixPermutation(data, k - 1);
      RangeMultiset(k);
      assert ArgsortPrefix(data, k) == Insert(data, prefix, k - 1);
    }
  }

  /** The prefix argsort visits the values in non-decreasing order. */
  lemma {:induction false} ArgsortPrefixAscending(data: seq<real>, k: nat)
    requires k <= |data|
    ensures Ascending(data, ArgsortPrefix(data, k))
  {
    if k > 0 {
      var prefix := ArgsortPrefix(data, k - 1);
      ArgsortPrefixAscending(data, k - 1);
      InsertAscending(data, prefix, k - 1);
      assert ArgsortPrefix(data, k) == Insert(data, prefix, k - 1);
    }
  }

  /**
   * numpy's argsort: a permutation of the indices that visits the values in
   * non-decreasing order. The order among equal values is not promised.
   */
  function Argsort(data: seq<real>): (order: seq<nat>)
    ensures IsPermutation(order, |data|)
    ensures |order| == |data| && InRange(order, |data|)
    ensures Ascending(data, order)
  {
    ArgsortPrefixPermutation(data, |data|);
    ArgsortPrefixAscending(data, |data|);
    ArgsortPrefix(data, |data|)
  }

  /** The sequence read backwards. */
  function Reverse<T>(s: seq<T>): (r: seq<T>)
    ensures |r| == |s|
    ensures forall i :: 0 <= i < |s| ==> r[i] == s[|s| - 1 - i]
  {
    if s == [] then [] else Reverse(s[1..]) + [s[0]]
  }

  /** Reversing keeps every element. */
  lemma {:induction false} ReverseMultiset<T>(s: seq<T>)
    ensures multiset(Reverse(s)) == multiset(s)
  {
    if s != [] {
      ReverseMultiset(s[1..]);
      assert s == [s[0]] + s[1..];
      assert Reverse(s) == Reverse(s[1..]) + [s[0]];
    }
  }

  /** ASCII case mapping of one character. */
  function LowerChar(c: char): char {
    if 'A' <= c <= 'Z' then (c as int + 32) as char else c
  }

  /** Python's lower-casing of a string, restricted to ASCII letters. */
  function ToLower(s: string): (r: string)
    ensures |r| == |s|
    ensures forall i :: 0 <= i < |s| ==> r[i] == LowerChar(s[i])
  {
    seq(|s|, i requires 0 <= i < |s| => LowerChar(s[i]))
  }

  /** Lower-case ASCII letters whose upper-case forms are `upper`, position by position. */
  predicate CasePair(lower: string, upper: string) {
    |upper| == |lower| &&
    forall i :: 0 <= i < |lower| ==> 'a' <= lower[i] <= 'z' && upper[i] as int == lower[i] as int - 32
  }

  /** `s` spells `lower` letter by letter, each letter in its lower- or its upper-case form. */
  predicate SpelledInAnyCase(s: string, lower: string, upper: string)
    requires |upper| == |lower|
  {
    |s| == |lower| && forall i :: 0 <= i < |s| ==> s[i] == lower[i] || s[i] == upper[i]
  }

  /** A string lower-cases to `lower` exactly when it spells `lower` with each letter in either case. */
  lemma CaseInsensitiveMatch(s: string, lower: string, upper: string)
    requires CasePair(lower, upper)
    ensures ToLower(s) == lower <==> SpelledInAnyCase(s, lower, upper)
  {
    if |s| == |lower| {
      forall i | 0 <= i < |s|
        ensures LowerChar(s[i]) == lower[i] <==> s[i] == lower[i] || s[i] == upper[i]
      {
      }
      if forall i :: 0 <= i < |s| ==> s[i] == lower[i] || s[i] == upper[i] {
        assert forall i :: 0 <= i < |s| ==> ToLower(s)[i] == lower[i];
      }
    }
  }

  const LOWER_DESCENDING := "descending"
  const UPPER_DESCENDING := "DESCENDING"

  /**
   * The only policy string that sorts descending: lower-casing it gives
   * "descending", so it is that word with each letter in either case.
   */
  function IsDescending(name: string): (r: bool)
    ensures r <==> SpelledInAnyCase(name, LOWER_DESCENDING, UPPER_DESCENDING)
  {
    CaseInsensitiveMatch(name, LOWER_DESCENDING, UPPER_DESCENDING);
    ToLower(name) == LOWER_DESCENDING
  }

  /**
   * The index sequence `bars` applies for a `sort_by` other than None: an
   * explicit index sequence verbatim; for a policy string, a permutation of
   * 0..n-1 visiting the values non-increasing for "descending" in any letter
   * case and non-decreasing for every other string.
   */
  function Order(data: seq<real>, sortBy: SortBy): (r: seq<nat>)
    requires !sortBy.Unsorted?
    ensures sortBy.Indices? ==> r == sortBy.order
    ensures sortBy.Policy? ==>
      IsPermutation(r, |data|) && |r| == |data| && InRange(r, |data|) &&
      (IsDescending(sortBy.name) ==> Descending(data, r)) &&
      (!IsDescending(sortBy.name) ==> Ascending(data, r))
  {
    match sortBy
    case Policy(name) =>
      var up := Argsort(data);
      ReverseMultiset(up);
      if IsDescending(name) then Reverse(up) else up
    case Indices(order) => order
  }

  /** numpy fancy indexing: element `i` of the result is `s[order[i]]`. */
  function Permute<T>(s: seq<T>, order: seq<nat>): (r: seq<T>)
    requires InRange(order, |s|)
    ensures |r| == |order|
    ensures forall i :: 0 <= i < |order| ==> r[i] == s[order[i]]
  {
    seq(|order|, i requires 0 <= i < |order| => s[order[i]])
  }

  /**
   * Both the values and the labels indexed by the same order, or nothing when `sort_by` is None.
   * An index past the end of either array raises IndexError, and so does an
   * empty explicit index list: numpy turns an empty list or tuple into a float
   * array, which it refuses as an index.
   */
  function Reorder(data: seq<real>, labels: seq<string>, sortBy: SortBy): (r: Result<Series>)
    ensures sortBy.Unsorted? ==> r == Success(Series(data, labels))
    ensures !sortBy.Unsorted? ==>
      (r.Success? <==>
        sortBy != Indices([]) && InRange(Order(data, sortBy), |data|) && InRange(Order(data, sortBy), |labels|))
    ensures r.Failure? ==> r.error == IndexOutOfRange
    ensures !sortBy.Unsorted? && r.Success? ==>
      var order := Order(data, sortBy);
      |r.value.values| == |order| && |r.value.labels| == |order| &&
      forall i :: 0 <= i < |order| ==>
        r.value.values[i] == data[order[i]] && r.value.labels[i] == labels[order[i]]
  {
    if sortBy.Unsorted? then Success(Series(data, labels))
    else if sortBy == Indices([]) then Failure(IndexOutOfRange)
    else
      var order := Order(data, sortBy);
      if !InRange(order, |data|) || !InRange(order, |labels|) then Failure(IndexOutOfRange)
      else Success(Series(Permute(data, order), Permute(labels, order)))
  }

  // ---- Properties of fancy indexing ----

  /** Taking out the element at position `j` takes one copy of it out of the multiset. */
  lemma RemoveIndex<T>(t: seq<T>, j: nat)
    requires j < |t|
    ensures multiset(t) == multiset(t[..j] + t[j + 1..]) + multiset{t[j]}
  {
    assert t == t[..j] + [t[j]] + t[j + 1..];
  }

  /** Fancy indexing commutes with taking out position `j`. */
  lemma PermuteRemove<T>(s: seq<T>, o: seq<nat>, j: nat)
    requires InRange(o, |s|) && j < |o|
    ensures InRange(o[..j] + o[j + 1..], |s|)
    ensures Permute(s, o[..j] + o[j + 1..]) == Permute(s, o)[..j] + Permute(s, o)[j + 1..]
  {
    var rest := o[..j] + o[j + 1..];
    forall i | 0 <= i < |rest|
      ensures rest[i] < |s|
    {
      assert rest[i] == if i < j then o[i] else o[i + 1];
    }
  }

  /** Fancy indexing sees only the multiset of the indices, as far as multisets go. */
  lemma {:induction false} PermuteSameMultiset<T>(s: seq<T>, o1: seq<nat>, o2: seq<nat>)
    requires InRange(o1, |s|) && InRange(o2, |s|)
    requires multiset(o1) == multiset(o2)
    ensures multiset(Permute(s, o1)) == multiset(Permute(s, o2))
    decreases |o1|
  {
    if o1 == [] {
      assert |o2| == |multiset(o2)| == 0;
    } else {
      var x := o1[0];
      assert x in multiset(o2);
      var j :| 0 <= j < |o2| && o2[j] == x;
      RemoveIndex(o1, 0);
      RemoveIndex(o2, j);
      PermuteRemove(s, o1, 0);
      PermuteRemove(s, o2, j);
      RemoveIndex(Permute(s, o1), 0);
      RemoveIndex(Permute(s, o2), j);
      var rest1, rest2 := o1[..0] + o1[1..], o2[..j] + o2[j + 1..];
      assert multiset(rest1) == multiset(o1) - multiset{x};
      assert multiset(rest2) == multiset(o2) - multiset{x};
      PermuteSameMultiset(s, rest1, rest2);
    }
  }

  /** Fancy indexing with a permutation rearranges the elements and keeps every one. */
  lemma PermutePreservesMultiset<T>(s: seq<T>, order: seq<nat>)
    requires IsPermutation(order, |s|)
    ensures InRange(order, |s|)
    ensures multiset(Permute(s, order)) == multiset(s)
  {
    PermutationInRange(order, |s|);
    assert Permute(s, Range(|s|)) == s;
    PermuteSameMultiset(s, order, Range(|s|));
  }

  /** Indexing by the reversed order is indexing by the order, then reversing. */
  lemma PermuteReverse<T>(s: seq<T>, order: seq<nat>)
    requires InRange(order, |s|)
    ensures InRange(Reverse(order), |s|)
    ensures Permute(s, Reverse(order)) == Reverse(Permute(s, order))
  {
    var rev := Reverse(order);
    ReverseInRange(order, |s|);
    var p := Permute(s, order);
    assert Permute(s, rev) == Reverse(p) by {
      forall i | 0 <= i < |order|
        ensures Permute(s, rev)[i] == Reverse(p)[i]
      {
        assert rev[i] == order[|order| - 1 - i];
      }
    }
  }

  /** Reversing an index sequence keeps exactly the same indices. */
  lemma ReverseInRange(order: seq<nat>, n: nat)
    ensures InRange(Reverse(order), n) <==> InRange(order, n)
  {
    var rev := Reverse(order);
    if InRange(order, n) {
      forall i | 0 <= i < |rev|
        ensures rev[i] < n
      {
        assert rev[i] == order[|order| - 1 - i];
      }
    }
    if InRange(rev, n) {
      forall i | 0 <= i < |order|
        ensures order[i] < n
      {
        assert order[i] == rev[|order| - 1 - i];
      }
    }
  }

  function Zip<A, B>(a: seq<A>, b: seq<B>): (r: seq<(A, B)>)
    requires |a| == |b|
    ensures |r| == |a| && forall i :: 0 <= i < |a| ==> r[i] == (a[i], b[i])
  {
    seq(|a|, i requires 0 <= i < |a| => (a[i], b[i]))
  }

  // ---- Properties of the reordering stage ----

  /**
   * Sorting by a policy string succeeds exactly when there are at least as many
   * labels as values; it then keeps every value and sorts them by the policy.
   */
  lemma ReorderByPolicy(data: seq<real>, labels: seq<string>, name: string)
    ensures Reorder(data, labels, Policy(name)).Success? <==> |data| <= |labels|
    ensures |data| <= |labels| ==>
      var s := Reorder(data, labels, Policy(name)).value;
      |s.values| == |data| && |s.labels| == |data| &&
      multiset(s.values) == multiset(data) &&
      (IsDescending(name) ==> NonIncreasing(s.values)) &&
      (!IsDescending(name) ==> NonDecreasing(s.values))
  {
    var order := Order(data, Policy(name));
    PermutationFits(order, |data|, |labels|);
    if |data| <= |labels| {
      var s := Reorder(data, labels, Policy(name)).value;
      assert s.values == Permute(data, order);
      PermutePreservesMultiset(data, order);
    }
  }

  /** A permutation of 0..n-1 indexes an array of length m exactly when n <= m. */
  lemma PermutationFits(order: seq<nat>, n: nat, m: nat)
    requires IsPermutation(order, n)
    ensures InRange(order, m) <==> n <= m
  {
    PermutationInRange(order, n);
    if n > 0 {
      assert Range(n)[n - 1] == n - 1;
      assert n - 1 in multiset(order);
      var i :| 0 <= i < |order| && order[i] == n - 1;
    }
  }

  /** "descending" is exactly the reverse of ascending, ties included, for values and labels. */
  lemma DescendingReversesAscending(data: seq<real>, labels: seq<string>, up: string, down: string)
    requires !IsDescending(up) && IsDescending(down)
    ensures Reorder(data, labels, Policy(up)).Success? <==> Reorder(data, labels, Policy(down)).Success?
    ensures Reorder(data, labels, Policy(up)).Success? ==>
      var a, d := Reorder(data, labels, Policy(up)).value, Reorder(data, labels, Policy(down)).value;
      d.values == Reverse(a.values) && d.labels == Reverse(a.labels)
  {
    var order := Argsort(data);
    var rev := Reverse(order);
    assert Order(data, Policy(up)) == order;
    assert Order(data, Policy(down)) == rev;
    ReverseInRange(order, |data|);
    ReverseInRange(order, |labels|);
    if InRange(order, |labels|) {
      PermuteReverse(data, order);
      PermuteReverse(labels, order);
    }
  }

  /**
   * Reordering by a permutation keeps every (value, label) pair together: the
   * multiset of pairs is unchanged.
   */
  lemma ReorderKeepsPairs(data: seq<real>, labels: seq<string>, sortBy: SortBy)
    requires |labels| == |data|
    requires sortBy.Indices? ==> IsPermutation(sortBy.order, |data|)
    ensures Reorder(data, labels, sortBy).Success? <==> !(sortBy.Indices? && |data| == 0)
    ensures Reorder(data, labels, sortBy).Success? ==>
      var s := Reorder(data, labels, sortBy).value;
      |s.values| == |s.labels| && multiset(Zip(s.values, s.labels)) == multiset(Zip(data, labels))
  {
    if !sortBy.Unsorted? {
      var order := Order(data, sortBy);
      PermutationInRange(order, |data|);
      var pairs := Zip(data, labels);
      assert Permute(pairs, order) == Zip(Permute(data, order), Permute(labels, order));
      PermutePreservesMultiset(pairs, order);
    }
  }
}
