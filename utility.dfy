/** The square-root coverage score of `class_card`, with the network and its
    calibration replaced by an abstract probability oracle. */
module Utility {
  import opened Counting

  /** What `class_card` reads besides the selected labels.
      `prob(x, c)` is the (calibrated) probability the current model gives class
      `c` for features `x`; `root` stands for `np.sqrt` on a count. */
  datatype Scorer<!X> = Scorer(numClasses: nat, prob: (X, nat) -> real, root: nat -> real)

  /** The oracle gives no negative probability for features `x`. */
  ghost predicate ProbNonNegative<X>(sc: Scorer<X>, x: X)
  {
    forall c: nat :: 0.0 <= sc.prob(x, c)
  }

  /** `root` is non-decreasing on counts, as `sqrt` is. */
  ghost predicate RootMonotone<X>(sc: Scorer<X>)
  {
    forall n: nat :: sc.root(n) <= sc.root(n + 1)
  }

  /** `Σ_c p_c · sqrt(counts[c] + shift)` over the classes of `counts`. */
  function Coverage<X>(sc: Scorer<X>, x: X, counts: seq<nat>, shift: nat): real
  {
    if counts == [] then 0.0
    else
      var c := |counts| - 1;
      Coverage(sc, x, counts[..c], shift) + sc.prob(x, c) * sc.root(counts[c] + shift)
  }

  /** `class_card`: the pair (score with the item, score without it) for the
      labels selected so far. */
  function ClassCard<X>(sc: Scorer<X>, prevLabels: seq<int>, x: X): (real, real)
  {
    var counts := LabelCounts(prevLabels, sc.numClasses);
    (Coverage(sc, x, counts, 1), Coverage(sc, x, counts, 0))
  }

  /** `f_values[0] - f_values[1]`. */
  function Marginal<X>(sc: Scorer<X>, prevLabels: seq<int>, x: X): real
  {
    ClassCard(sc, prevLabels, x).0 - ClassCard(sc, prevLabels, x).1
  }

  /** Reference definition of the marginal: the probability-weighted gain of
      one more count in every class. */
  function Gains<X>(sc: Scorer<X>, x: X, counts: seq<nat>): real
  {
    if counts == [] then 0.0
    else
      var c := |counts| - 1;
      Gains(sc, x, counts[..c]) + sc.prob(x, c) * (sc.root(counts[c] + 1) - sc.root(counts[c]))
  }

  lemma {:induction false} CoverageDifference<X>(sc: Scorer<X>, x: X, counts: seq<nat>)
    ensures Coverage(sc, x, counts, 1) - Coverage(sc, x, counts, 0) == Gains(sc, x, counts)
  {
    if counts != [] {
      CoverageDifference(sc, x, counts[..|counts| - 1]);
    }
  }

  /** The marginal is the sum over all classes of `p_c · (sqrt(c_c + 1) - sqrt(c_c))`. */
  lemma MarginalIsGainSum<X>(sc: Scorer<X>, prevLabels: seq<int>, x: X)
    ensures Marginal(sc, prevLabels, x) == Gains(sc, x, LabelCounts(prevLabels, sc.numClasses))
  {
    CoverageDifference(sc, x, LabelCounts(prevLabels, sc.numClasses));
  }

  lemma {:induction false} GainsNonNegative<X>(sc: Scorer<X>, x: X, counts: seq<nat>)
    requires ProbNonNegative(sc, x) && RootMonotone(sc)
    ensures 0.0 <= Gains(sc, x, counts)
  {
    if counts != [] {
      var c := |counts| - 1;
      GainsNonNegative(sc, x, counts[..c]);
      var p, d := sc.prob(x, c), sc.root(counts[c] + 1) - sc.root(counts[c]);
      assert 0.0 <= p && 0.0 <= d;
      assert 0.0 <= p * d;
    }
  }

  /** With non-negative probabilities and a monotone root, adding an item never
      lowers the score: the marginal is at least zero. */
  lemma MarginalNonNegative<X>(sc: Scorer<X>, prevLabels: seq<int>, x: X)
    requires ProbNonNegative(sc, x) && RootMonotone(sc)
    ensures 0.0 <= Marginal(sc, prevLabels, x)
  {
    MarginalIsGainSum(sc, prevLabels, x);
    GainsNonNegative(sc, x, LabelCounts(prevLabels, sc.numClasses));
  }

  /** `Σ_c sqrt(counts[c])`: the balance score SIEVE ranks its guesses by. */
  function RootSum<X>(sc: Scorer<X>, counts: seq<nat>): real
  {
    if counts == [] then 0.0 else RootSum(sc, counts[..|counts| - 1]) + sc.root(counts[|counts| - 1])
  }

  function Balance<X>(sc: Scorer<X>, labels: seq<int>): real
  {
    RootSum(sc, LabelCounts(labels, sc.numClasses))
  }

  /** The balance score depends only on how many of each label were chosen, not
      on their order. */
  lemma BalanceIgnoresOrder<X>(sc: Scorer<X>, a: seq<int>, b: seq<int>)
    requires multiset(a) == multiset(b)
    ensures Balance(sc, a) == Balance(sc, b)
  {
    assert LabelCounts(a, sc.numClasses) == LabelCounts(b, sc.numClasses);
  }

  /** Likewise for the score pair of `class_card`. */
  lemma ClassCardIgnoresOrder<X>(sc: Scorer<X>, a: seq<int>, b: seq<int>, x: X)
    requires multiset(a) == multiset(b)
    ensures ClassCard(sc, a, x) == ClassCard(sc, b, x)
  {
    assert LabelCounts(a, sc.numClasses) == LabelCounts(b, sc.numClasses);
  }
}
