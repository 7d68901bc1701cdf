/** Stream items and the per-class label counts that the utility score is
    computed from (`label_counts` in `class_card`). */
module Counting {

  /** One stream item: a row of `stream_x` (features, abstract) together with the
      matching entry of `stream_y` (its true class label). */
  datatype Item<X> = Item(x: X, y: int)

  /** The labels of a selected set, in order: the `prev_labels` tensor. */
  function Labels<X>(s: seq<Item<X>>): seq<int>
  {
    seq(|s|, i requires 0 <= i < |s| => s[i].y)
  }

  /** `(labels == c).float().sum()`: how many labels equal `c`. */
  function Count(labels: seq<int>, c: int): (n: nat)
    ensures n == multiset(labels)[c]
    ensures n <= |labels|
  {
    if labels == [] then 0
    else
      var pre := labels[..|labels| - 1];
      assert labels == pre + [labels[|labels| - 1]];
      Count(pre, c) + (if labels[|labels| - 1] == c then 1 else 0)
  }

  /** The list `label_counts`: one count per class `0 .. k-1`. */
  function LabelCounts(labels: seq<int>, k: nat): (r: seq<nat>)
    ensures |r| == k
    ensures forall c :: 0 <= c < k ==> r[c] == multiset(labels)[c]
  {
    seq(k, c requires 0 <= c < k => Count(labels, c))
  }

  function Sum(s: seq<nat>): nat
  {
    if s == [] then 0 else Sum(s[..|s| - 1]) + s[|s| - 1]
  }

  /** Appending one label adds one to the total count exactly when the label is
      one of the `k` classes. */
  lemma {:induction false} CountsAppend(labels: seq<int>, y: int, k: nat)
    ensures Sum(LabelCounts(labels + [y], k)) == Sum(LabelCounts(labels, k)) + (if 0 <= y < k then 1 else 0)
  {
    var after, before := LabelCounts(labels + [y], k), LabelCounts(labels, k);
    if k > 0 {
      CountsAppend(labels, y, k - 1);
      assert after[..k - 1] == LabelCounts(labels + [y], k - 1);
      assert before[..k - 1] == LabelCounts(labels, k - 1);
    }
  }

  /** The counts over the `k` classes add up to at most the number of labels,
      and to exactly that number iff every label is one of the classes. */
  lemma {:induction false} LabelCountsSum(labels: seq<int>, k: nat)
    ensures Sum(LabelCounts(labels, k)) <= |labels|
    ensures Sum(LabelCounts(labels, k)) == |labels| <==> forall i :: 0 <= i < |labels| ==> 0 <= labels[i] < k
  {
    if labels == [] {
      assert LabelCounts(labels, k) == seq(k, c => 0);
      ZeroSum(k);
    } else {
      var pre, y := labels[..|labels| - 1], labels[|labels| - 1];
      assert labels == pre + [y];
      LabelCountsSum(pre, k);
      CountsAppend(pre, y, k);
      if !(0 <= y < k) {
        assert !(0 <= labels[|labels| - 1] < k);
      }
      if forall i :: 0 <= i < |pre| ==> 0 <= pre[i] < k {
        if 0 <= y < k {
          assert forall i :: 0 <= i < |labels| ==> 0 <= labels[i] < k by {
            forall i | 0 <= i < |labels| ensures 0 <= labels[i] < k {
              if i < |pre| { assert labels[i] == pre[i]; }
            }
          }
        }
      } else {
        var i :| 0 <= i < |pre| && !(0 <= pre[i] < k);
        assert labels[i] == pre[i];
      }
    }
  }

  lemma {:induction false} ZeroSum(k: nat)
    ensures Sum(seq(k, c => 0)) == 0
  {
    if k > 0 {
      assert seq(k, c => 0)[..k - 1] == seq(k - 1, c => 0);
      ZeroSum(k - 1);
    }
  }
}
