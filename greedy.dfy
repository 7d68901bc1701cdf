/** The threshold-gated scan shared by DMGT and by every SIEVE guess: items are
    looked at once, in order, and appended to the running set when their
    marginal clears the threshold and the set is below budget. */
module Greedy {
  import opened Counting
  import opened Utility

  /** The threshold in force: DMGT's `taus[sel_round]`, or a SIEVE guess `v`. */
  datatype Rule = Fixed(tau: real) | Guess(v: real)

  /** The largest size a scan can reach: `budget`, but never below the seed. */
  function Cap(budget: int): nat
  {
    if budget < 1 then 1 else budget
  }

  /** SIEVE's per-item threshold for guess `v`: `(v/2 - f_without) / (budget - |sel|)`,
      which is only defined while the set is below budget. */
  function GuessThreshold<X>(sc: Scorer<X>, budget: int, v: real, sel: seq<Item<X>>, x: X): real
    requires |sel| < budget
  {
    (v / 2.0 - ClassCard(sc, Labels(sel), x).1) / (budget - |sel|) as real
  }

  /** The threshold an item must reach to join `sel`. */
  function Threshold<X>(sc: Scorer<X>, budget: int, rule: Rule, sel: seq<Item<X>>, x: X): real
    requires |sel| < budget
  {
    match rule
    case Fixed(tau) => tau
    case Guess(v) => GuessThreshold(sc, budget, v, sel, x)
  }

  /** The acceptance test `f_values[0] - f_values[1] >= tau and len(sel) < budget`;
      ties are accepted. */
  predicate Accepts<X>(sc: Scorer<X>, budget: int, rule: Rule, sel: seq<Item<X>>, it: Item<X>)
  {
    |sel| < budget && Marginal(sc, Labels(sel), it.x) >= Threshold(sc, budget, rule, sel, it.x)
  }

  /** The set obtained from `seed` by testing `items` in order. */
  function Scan<X>(sc: Scorer<X>, budget: int, rule: Rule, seed: Item<X>, items: seq<Item<X>>): (r: seq<Item<X>>)
    ensures 1 <= |r| <= Cap(budget) && r[0] == seed
    ensures |r| <= |items| + 1
  {
    if items == [] then [seed]
    else
      var sel := Scan(sc, budget, rule, seed, items[..|items| - 1]);
      var it := items[|items| - 1];
      if Accepts(sc, budget, rule, sel, it) then sel + [it] else sel
  }

  /** The positions in `items` of the accepted items, in acceptance order. */
  function Picks<X>(sc: Scorer<X>, budget: int, rule: Rule, seed: Item<X>, items: seq<Item<X>>): (p: seq<nat>)
    ensures |p| == |Scan(sc, budget, rule, seed, items)| - 1
    ensures forall k :: 0 <= k < |p| ==> p[k] < |items|
  {
    if items == [] then []
    else
      var pre := items[..|items| - 1];
      var p := Picks(sc, budget, rule, seed, pre);
      if Accepts(sc, budget, rule, Scan(sc, budget, rule, seed, pre), items[|items| - 1]) then p + [|items| - 1] else p
  }

  /** `idx` lists, in increasing order, positions of `s` that spell out `sub`. */
  ghost predicate Embeds<T>(idx: seq<nat>, sub: seq<T>, s: seq<T>)
  {
    && |idx| == |sub|
    && (forall k :: 0 <= k < |idx| ==> idx[k] < |s| && s[idx[k]] == sub[k])
    && (forall k, l :: 0 <= k < l < |idx| ==> idx[k] < idx[l])
  }

  /** `sub` is an order-preserving subsequence of `s`. */
  ghost predicate IsSubsequence<T>(sub: seq<T>, s: seq<T>)
  {
    exists idx :: Embeds(idx, sub, s)
  }

  /** Being a subsequence is transitive. */
  lemma SubsequenceTransitive<T>(a: seq<T>, b: seq<T>, c: seq<T>)
    requires IsSubsequence(a, b) && IsSubsequence(b, c)
    ensures IsSubsequence(a, c)
  {
    var i1 :| Embeds(i1, a, b);
    var i2 :| Embeds(i2, b, c);
    var idx := seq(|i1|, k requires 0 <= k < |i1| => i2[i1[k]]);
    assert Embeds(idx, a, c);
  }

  /** Subsequences of two sequences concatenate to a subsequence of their
      concatenation. */
  lemma SubsequenceConcat<T>(a1: seq<T>, b1: seq<T>, a2: seq<T>, b2: seq<T>)
    requires IsSubsequence(a1, b1) && IsSubsequence(a2, b2)
    ensures IsSubsequence(a1 + a2, b1 + b2)
  {
    var i1 :| Embeds(i1, a1, b1);
    var i2 :| Embeds(i2, a2, b2);
    var idx := i1 + seq(|i2|, k requires 0 <= k < |i2| => i2[k] + |b1|);
    var a, b := a1 + a2, b1 + b2;
    forall k | 0 <= k < |idx| ensures idx[k] < |b| && b[idx[k]] == a[k] {
      if k >= |i1| {
        assert idx[k] == i2[k - |i1|] + |b1|;
      }
    }
    forall k, l | 0 <= k < l < |idx| ensures idx[k] < idx[l] {
      if l >= |i1| {
        assert idx[l] == i2[l - |i1|] + |b1|;
        if k >= |i1| {
          assert idx[k] == i2[k - |i1|] + |b1|;
        }
      }
    }
    assert Embeds(idx, a, b);
  }

  /** After the seed, the scan holds exactly the items at the picked positions. */
  lemma {:induction false} ScanAtPick<X>(sc: Scorer<X>, budget: int, rule: Rule, seed: Item<X>, items: seq<Item<X>>, k: nat)
    requires k < |Picks(sc, budget, rule, seed, items)|
    ensures Scan(sc, budget, rule, seed, items)[k + 1] == items[Picks(sc, budget, rule, seed, items)[k]]
  {
    var pre, it := items[..|items| - 1], items[|items| - 1];
    var r0, p0 := Scan(sc, budget, rule, seed, pre), Picks(sc, budget, rule, seed, pre);
    var r, p := Scan(sc, budget, rule, seed, items), Picks(sc, budget, rule, seed, items);
    if Accepts(sc, budget, rule, r0, it) {
      assert r == r0 + [it] && p == p0 + [|items| - 1];
    } else {
      assert r == r0 && p == p0;
    }
    if k < |p0| {
      ScanAtPick(sc, budget, rule, seed, pre, k);
      assert r[k + 1] == r0[k + 1] && p[k] == p0[k];
      assert items[p0[k]] == pre[p0[k]];
    }
  }

  /** The picked positions are strictly increasing: each item is taken at most
      once and in stream order. */
  lemma {:induction false} PicksIncrease<X>(sc: Scorer<X>, budget: int, rule: Rule, seed: Item<X>, items: seq<Item<X>>, k: nat, l: nat)
    requires k < l < |Picks(sc, budget, rule, seed, items)|
    ensures Picks(sc, budget, rule, seed, items)[k] < Picks(sc, budget, rule, seed, items)[l]
  {
    var pre, it := items[..|items| - 1], items[|items| - 1];
    var r0, p0 := Scan(sc, budget, rule, seed, pre), Picks(sc, budget, rule, seed, pre);
    var p := Picks(sc, budget, rule, seed, items);
    if Accepts(sc, budget, rule, r0, it) {
      assert p == p0 + [|items| - 1];
    } else {
      assert p == p0;
    }
    if l < |p0| {
      PicksIncrease(sc, budget, rule, seed, pre, k, l);
    }
  }

  /** Exact acceptance rule: position `i` is picked iff its item passes the test
      against the set built from the items before it. */
  lemma {:induction false} PickedIff<X>(sc: Scorer<X>, budget: int, rule: Rule, seed: Item<X>, items: seq<Item<X>>, i: nat)
    requires i < |items|
    ensures i in Picks(sc, budget, rule, seed, items)
        <==> Accepts(sc, budget, rule, Scan(sc, budget, rule, seed, items[..i]), items[i])
  {
    var pre := items[..|items| - 1];
    if i < |pre| {
      PickedIff(sc, budget, rule, seed, pre, i);
      assert pre[..i] == items[..i];
    } else {
      assert pre == items[..i];
    }
  }

  /** Positions in the whole stream of a scan's items, when the scan starts from
      position 0 and its items start at position `d`. */
  function Positions(p: seq<nat>, d: nat): (idx: seq<nat>)
    ensures |idx| == |p| + 1 && idx[0] == 0
  {
    [0] + seq(|p|, k requires 0 <= k < |p| => p[k] + d)
  }

  lemma PositionsMembers(p: seq<nat>, d: nat, i: nat)
    requires 1 <= d
    ensures i in Positions(p, d) <==> i == 0 || (i >= d && i - d in p)
  {
    var idx := Positions(p, d);
    if i in idx && i != 0 {
      var k :| 0 <= k < |idx| && idx[k] == i;
      assert p[k - 1] + d == i;
    }
    if i >= d && i - d in p {
      var k :| 0 <= k < |p| && p[k] == i - d;
      assert idx[k + 1] == i;
    }
  }

  lemma PositionsEmbed<T>(r: seq<T>, p: seq<nat>, s: seq<T>, d: nat)
    requires 1 <= d && |r| == |p| + 1 && 1 <= |s| && r[0] == s[0]
    requires forall k :: 0 <= k < |p| ==> p[k] + d < |s| && r[k + 1] == s[p[k] + d]
    requires forall k, l :: 0 <= k < l < |p| ==> p[k] < p[l]
    ensures Embeds(Positions(p, d), r, s)
  {
    var idx := Positions(p, d);
    forall k | 0 <= k < |idx| ensures idx[k] < |s| && s[idx[k]] == r[k] {
      if k > 0 {
        assert idx[k] == p[k - 1] + d;
      }
    }
    forall k, l | 0 <= k < l < |idx| ensures idx[k] < idx[l] {
      if k > 0 {
        assert idx[k] == p[k - 1] + d && idx[l] == p[l - 1] + d;
      }
    }
  }

  /** A scan seeded with `s[0]` over the items from position `d` of `s` on is
      spelled out by `s` at the positions of its seed and its picks. */
  lemma ScanEmbeds<X>(sc: Scorer<X>, budget: int, rule: Rule, s: seq<Item<X>>, d: nat)
    requires 1 <= d <= |s|
    ensures Embeds(Positions(Picks(sc, budget, rule, s[0], s[d..]), d), Scan(sc, budget, rule, s[0], s[d..]), s)
  {
    var items := s[d..];
    var r, p := Scan(sc, budget, rule, s[0], items), Picks(sc, budget, rule, s[0], items);
    forall k | 0 <= k < |p| ensures p[k] + d < |s| && r[k + 1] == s[p[k] + d] {
      ScanAtPick(sc, budget, rule, s[0], items, k);
    }
    forall k, l | 0 <= k < l < |p| ensures p[k] < p[l] {
      PicksIncrease(sc, budget, rule, s[0], items, k, l);
    }
    PositionsEmbed(r, p, s, d);
  }

  /** The scan is an order-preserving subsequence of the seed followed by the items. */
  lemma ScanIsSubsequence<X>(sc: Scorer<X>, budget: int, rule: Rule, seed: Item<X>, items: seq<Item<X>>)
    ensures IsSubsequence(Scan(sc, budget, rule, seed, items), [seed] + items)
  {
    var s := [seed] + items;
    assert s[0] == seed && s[1..] == items;
    ScanEmbeds(sc, budget, rule, s, 1);
  }

  /** Once the set has reached the budget, no later item is added. */
  lemma {:induction false} ScanStopsWhenFull<X>(sc: Scorer<X>, budget: int, rule: Rule, seed: Item<X>, items: seq<Item<X>>, i: nat)
    requires i <= |items| && |Scan(sc, budget, rule, seed, items[..i])| >= budget
    ensures Scan(sc, budget, rule, seed, items) == Scan(sc, budget, rule, seed, items[..i])
  {
    if i < |items| {
      var pre := items[..|items| - 1];
      assert pre[..i] == items[..i];
      ScanStopsWhenFull(sc, budget, rule, seed, pre, i);
    } else {
      assert items[..i] == items;
    }
  }

  /** The set built from a prefix of the items is a prefix of the final set:
      items are only ever appended. */
  lemma {:induction false} ScanGrows<X>(sc: Scorer<X>, budget: int, rule: Rule, seed: Item<X>, items: seq<Item<X>>, i: nat)
    requires i <= |items|
    ensures Scan(sc, budget, rule, seed, items[..i]) <= Scan(sc, budget, rule, seed, items)
  {
    if i < |items| {
      var pre := items[..|items| - 1];
      assert pre[..i] == items[..i];
      ScanGrows(sc, budget, rule, seed, pre, i);
    } else {
      assert items[..i] == items;
    }
  }

  /** Scanning a scan's own output again, seeded with its first item, gives it
      back unchanged: every item passes its test again against the same set. */
  lemma {:induction false} ScanIdempotent<X>(sc: Scorer<X>, budget: int, rule: Rule, seed: Item<X>, items: seq<Item<X>>)
    ensures var r := Scan(sc, budget, rule, seed, items);
      Scan(sc, budget, rule, r[0], r[1..]) == r
  {
    if items != [] {
      var pre := items[..|items| - 1];
      var r0 := Scan(sc, budget, rule, seed, pre);
      ScanIdempotent(sc, budget, rule, seed, pre);
      var it := items[|items| - 1];
      if Accepts(sc, budget, rule, r0, it) {
        var r := r0 + [it];
        assert r[1..] == r0[1..] + [it];
        assert (r0[1..] + [it])[..|r0[1..]|] == r0[1..];
      }
    }
  }
}
