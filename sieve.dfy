/** SIEVE streaming (`get_SIEVE_subsets`): one candidate set per guess `v` of
    a geometric guess list, each grown by the threshold
    `(v/2 - f_without) / (budget - |S_v|)`, and the best-balanced one returned.
    The source's dictionary keyed by the float `v` is a sequence here, indexed
    by the position of `v` in the guess list (exponent minus one). */
module Sieve {
  import opened Wrappers
  import opened Counting
  import opened Utility
  import opened Greedy

  /** `m` and `epsilon` as the source fixes them; the `epsilon` argument is
      overwritten before use. */
  const M: real := 1.0
  const Epsilon: real := 0.1

  function Pow(b: real, j: nat): real
  {
    if j == 0 then 1.0 else b * Pow(b, j - 1)
  }

  /** Bernoulli's inequality for the guess base: `(1+ε)^j >= 1 + j·ε`. */
  lemma {:induction false} Bernoulli(j: nat)
    ensures Pow(1.0 + Epsilon, j) >= 1.0 + (j as real) * Epsilon
  {
    if j > 0 {
      Bernoulli(j - 1);
      var prev := Pow(1.0 + Epsilon, j - 1);
      assert Pow(1.0 + Epsilon, j) == 1.1 * prev;
      assert 1.1 * prev >= 1.1 * (1.0 + ((j - 1) as real) * 0.1);
    }
  }

  lemma {:induction false} PowIncreasing(i: nat, j: nat)
    requires i < j
    ensures Pow(1.0 + Epsilon, i) < Pow(1.0 + Epsilon, j)
  {
    Bernoulli(j - 1);
    if i < j - 1 {
      PowIncreasing(i, j - 1);
    }
  }

  /** The guesses `(1+ε)^j, (1+ε)^(j+1), ...` while they lie in `[m, 2·m·n]`. */
  function GuessesFrom(j: nat, n: nat): (o: seq<real>)
    requires 1 <= j
    ensures forall k :: 0 <= k < |o| ==> o[k] == Pow(1.0 + Epsilon, j + k) && M <= o[k] <= 2.0 * M * (n as real)
    ensures Pow(1.0 + Epsilon, j + |o|) > 2.0 * M * (n as real)
    decreases 20 * n - j
  {
    var v := Pow(1.0 + Epsilon, j);
    Bernoulli(j);
    if v >= M && v <= 2.0 * M * (n as real) then [v] + GuessesFrom(j + 1, n) else []
  }

  /** The guess list `O` for a stream of length `n`. */
  function GuessDomain(n: nat): (o: seq<real>)
    ensures |o| >= 1 <==> n >= 1
  {
    assert Pow(1.0 + Epsilon, 1) == 1.1;
    GuessesFrom(1, n)
  }

  /** `O` is `[(1+ε)^1, (1+ε)^2, ...]`, strictly increasing, every element at
      most `2·n`, stopping just before the first power above `2·n`. */
  lemma GuessDomainShape(n: nat)
    ensures var o := GuessDomain(n);
      && (forall k :: 0 <= k < |o| ==> o[k] == Pow(1.0 + Epsilon, k + 1) && 1.0 <= o[k] <= 2.0 * (n as real))
      && (forall k, l :: 0 <= k < l < |o| ==> o[k] < o[l])
      && Pow(1.0 + Epsilon, |o| + 1) > 2.0 * (n as real)
  {
    var o := GuessDomain(n);
    forall k, l | 0 <= k < l < |o| ensures o[k] < o[l] {
      PowIncreasing(k + 1, l + 1);
    }
  }

  /** The `while` loop that fills `O`. */
  method BuildGuessDomain(n: nat) returns (o: seq<real>)
    ensures o == GuessDomain(n)
  {
    var j: nat := 1;
    o := [];
    while Pow(1.0 + Epsilon, j) >= M && Pow(1.0 + Epsilon, j) <= 2.0 * M * (n as real)
      invariant j >= 1
      invariant o + GuessesFrom(j, n) == GuessDomain(n)
      decreases 20 * n - j
    {
      Bernoulli(j);
      o := o + [Pow(1.0 + Epsilon, j)];
      j := j + 1;
    }
  }

  /** The set of guess `v` at the end of the stream: seeded with `stream[0]` on
      the first pass, then tested on `stream[2]`, `stream[3]`, ... */
  function GuessSet<X>(sc: Scorer<X>, budget: int, v: real, stream: seq<Item<X>>): seq<Item<X>>
    requires |stream| >= 2
  {
    Scan(sc, budget, Guess(v), stream[0], stream[2..])
  }

  /** Positions in `stream` of the items in the set of guess `v`. */
  function GuessPositions<X>(sc: Scorer<X>, budget: int, v: real, stream: seq<Item<X>>): (idx: seq<nat>)
    requires |stream| >= 2
    ensures |idx| == |GuessSet(sc, budget, v, stream)|
  {
    Positions(Picks(sc, budget, Guess(v), stream[0], stream[2..]), 2)
  }

  /** `set_dict` after the last pass, in guess order. */
  function GuessTable<X>(sc: Scorer<X>, budget: int, stream: seq<Item<X>>): (t: seq<seq<Item<X>>>)
    requires |stream| >= 2
    ensures |t| == |GuessDomain(|stream|)| >= 1
  {
    var o := GuessDomain(|stream|);
    seq(|o|, g requires 0 <= g < |o| => GuessSet(sc, budget, o[g], stream))
  }

  /** `Σ_c sqrt(count_c)` of each candidate set. */
  function Scores<X>(sc: Scorer<X>, sets: seq<seq<Item<X>>>): (s: seq<real>)
    ensures |s| == |sets|
  {
    seq(|sets|, g requires 0 <= g < |sets| => Balance(sc, Labels(sets[g])))
  }

  /** The first position holding the maximum. */
  function FirstMax(s: seq<real>): (b: nat)
    requires |s| > 0
    ensures b < |s|
    ensures forall g :: 0 <= g < |s| ==> s[g] <= s[b]
    ensures forall g :: 0 <= g < b ==> s[g] < s[b]
  {
    if |s| == 1 then 0
    else
      var b := FirstMax(s[..|s| - 1]);
      if s[|s| - 1] > s[b] then |s| - 1 else b
  }

  /** What `get_SIEVE_subsets` returns as its selected set. `None` where the
      source raises: an empty stream (`stream_x[0]`), a one-item stream (no guess
      is ever created, so `set_dict[None]` fails) and a two-item stream (the
      chosen guess has an empty threshold trace, whose `min()` fails). */
  function SieveSpec<X>(sc: Scorer<X>, budget: int, stream: seq<Item<X>>): (r: Option<seq<Item<X>>>)
    ensures r.Some? <==> |stream| >= 3
  {
    if |stream| <= 2 then None
    else
      var t := GuessTable(sc, budget, stream);
      Some(t[FirstMax(Scores(sc, t))])
  }

  /** The argmax loop over `set_dict`: strict `>` keeps the earliest of equal
      scores; no key at all leaves `max_key` as `None`. */
  method ArgmaxBalance<X>(sc: Scorer<X>, sets: seq<seq<Item<X>>>) returns (best: Option<nat>)
    ensures best.None? <==> |sets| == 0
    ensures best.Some? ==> best.value < |sets|
    ensures best.Some? ==> forall g :: 0 <= g < |sets| ==>
      Balance(sc, Labels(sets[g])) <= Balance(sc, Labels(sets[best.value]))
    ensures best.Some? ==> forall g :: 0 <= g < best.value ==>
      Balance(sc, Labels(sets[g])) < Balance(sc, Labels(sets[best.value]))
  {
    var maxValue := 0.0;
    best := None;
    for g := 0 to |sets|
      invariant best.None? <==> g == 0
      invariant best.Some? ==> best.value < g && maxValue == Balance(sc, Labels(sets[best.value]))
      invariant best.Some? ==> forall h :: 0 <= h < g ==> Balance(sc, Labels(sets[h])) <= maxValue
      invariant best.Some? ==> forall h :: 0 <= h < best.value ==> Balance(sc, Labels(sets[h])) < maxValue
    {
      var value := Balance(sc, Labels(sets[g]));
      if best.None? || value > maxValue {
        best := Some(g);
        maxValue := value;
      }
    }
  }

  /** `get_SIEVE_subsets`: build `O`, run every guess over the stream, pick the
      best-balanced guess. */
  method SieveSelect<X>(stream: seq<Item<X>>, sc: Scorer<X>, budget: int, epsilon: real)
    returns (r: Option<seq<Item<X>>>)
    ensures r == SieveSpec(sc, budget, stream)
  {
    if |stream| == 0 {
      return None;
    }
    var seed := stream[0];
    var o := BuildGuessDomain(|stream|);
    var sets: seq<seq<Item<X>>> := [];
    for i := 1 to |stream|
      invariant i == 1 ==> sets == []
      invariant i > 1 ==> |sets| == |o|
      invariant i > 1 ==> forall g :: 0 <= g < |o| ==> sets[g] == Scan(sc, budget, Guess(o[g]), seed, stream[2..i])
    {
      var next := SievePass(sc, budget, o, seed, sets, stream[i]);
      forall g | 0 <= g < |o| ensures next[g] == Scan(sc, budget, Guess(o[g]), seed, stream[2..i + 1]) {
        if i > 1 {
          assert stream[2..i + 1][..i - 2] == stream[2..i];
        }
      }
      sets := next;
    }
    var best := ArgmaxBalance(sc, sets);
    if best.None? {
      return None;
    }
    if |stream| <= 2 {
      return None;
    }
    assert stream[2..|stream|] == stream[2..];
    assert sets == GuessTable(sc, budget, stream);
    FirstMaxUnique(Scores(sc, sets), best.value);
    return Some(sets[best.value]);
  }

  /** One pass of the inner loop over the guesses for stream item `it`: a guess
      without a set yet is seeded with `seed`, every other guess tests `it`. */
  method SievePass<X>(sc: Scorer<X>, budget: int, o: seq<real>, seed: Item<X>, sets: seq<seq<Item<X>>>, it: Item<X>)
    returns (next: seq<seq<Item<X>>>)
    requires |sets| <= |o|
    ensures |next| == |o|
    ensures forall g :: 0 <= g < |sets| ==>
      next[g] == if Accepts(sc, budget, Guess(o[g]), sets[g], it) then sets[g] + [it] else sets[g]
    ensures forall g :: |sets| <= g < |o| ==> next[g] == [seed]
  {
    next := sets;
    for g := 0 to |o|
      invariant |next| == if g < |sets| then |sets| else g
      invariant forall h :: 0 <= h < g && h < |sets| ==>
        next[h] == if Accepts(sc, budget, Guess(o[h]), sets[h], it) then sets[h] + [it] else sets[h]
      invariant forall h :: |sets| <= h < g ==> next[h] == [seed]
      invariant forall h :: g <= h < |sets| ==> next[h] == sets[h]
    {
      if g >= |next| {
        // `v not in set_dict`: the guess is new and gets the seed, untested
        next := next + [[seed]];
      } else {
        var f := ClassCard(sc, Labels(next[g]), it.x);
        if |next[g]| < budget && f.0 - f.1 >= GuessThreshold(sc, budget, o[g], next[g], it.x) {
          next := next[g := next[g] + [it]];
        }
      }
    }
  }

  /** The first maximum is unique. */
  lemma FirstMaxUnique(s: seq<real>, b: nat)
    requires b < |s|
    requires forall g :: 0 <= g < |s| ==> s[g] <= s[b]
    requires forall g :: 0 <= g < b ==> s[g] < s[b]
    ensures b == FirstMax(s)
  {
  }

  /** Seeding and shape of one guess: its set starts with `stream[0]`, is an
      order-preserving subsequence of the stream, never holds position 1
      (`stream[1]` is met while every guess is still being created, so no guess
      tests it), and stays within `max(1, budget)`. */
  lemma SieveGuessShape<X>(sc: Scorer<X>, budget: int, v: real, stream: seq<Item<X>>)
    requires |stream| >= 2
    ensures GuessSet(sc, budget, v, stream)[0] == stream[0]
    ensures GuessSet(sc, budget, v, stream[..2]) == [stream[0]]
    ensures Embeds(GuessPositions(sc, budget, v, stream), GuessSet(sc, budget, v, stream), stream)
    ensures 1 !in GuessPositions(sc, budget, v, stream)
    ensures |GuessSet(sc, budget, v, stream)| <= Cap(budget)
  {
    ScanEmbeds(sc, budget, Guess(v), stream, 2);
    PositionsMembers(Picks(sc, budget, Guess(v), stream[0], stream[2..]), 2, 1);
    assert stream[..2][2..] == [];
  }

  /** Exact per-guess acceptance: item `i >= 2` joins the set of guess `v` iff
      that set (as built from the items before `i`) is below budget and the
      item's marginal is at least `(v/2 - f_without) / (budget - |S_v|)`. */
  lemma SieveGuessAcceptsExactly<X>(sc: Scorer<X>, budget: int, v: real, stream: seq<Item<X>>, i: nat)
    requires 2 <= i < |stream|
    ensures var before := GuessSet(sc, budget, v, stream[..i]);
      i in GuessPositions(sc, budget, v, stream)
      <==> |before| < budget
           && Marginal(sc, Labels(before), stream[i].x)
              >= GuessThreshold(sc, budget, v, before, stream[i].x)
  {
    var items := stream[2..];
    var p := Picks(sc, budget, Guess(v), stream[0], items);
    var before := GuessSet(sc, budget, v, stream[..i]);
    assert stream[..i][2..] == items[..i - 2];
    assert before == Scan(sc, budget, Guess(v), stream[0], items[..i - 2]);
    assert items[i - 2] == stream[i];
    PickedIff(sc, budget, Guess(v), stream[0], items, i - 2);
    PositionsMembers(p, 2, i);
    assert i in GuessPositions(sc, budget, v, stream) <==> i - 2 in p;
  }

  /** A guess whose set has reached the budget stops growing; the other guesses
      are computed independently of it. */
  lemma SieveGuessStopsWhenFull<X>(sc: Scorer<X>, budget: int, v: real, stream: seq<Item<X>>, i: nat)
    requires 2 <= i <= |stream| && |GuessSet(sc, budget, v, stream[..i])| >= budget
    ensures GuessSet(sc, budget, v, stream) == GuessSet(sc, budget, v, stream[..i])
  {
    assert stream[..i][2..] == stream[2..][..i - 2];
    ScanStopsWhenFull(sc, budget, Guess(v), stream[0], stream[2..], i - 2);
    if i == |stream| {
      assert stream[..i] == stream;
    }
  }

  /** The result is the set of the first guess, in guess order, whose balance
      `Σ_c sqrt(count_c)` is maximal; it starts with `stream[0]`, fits in
      `max(1, budget)` and is an order-preserving subsequence of the stream. */
  lemma SieveResult<X>(sc: Scorer<X>, budget: int, stream: seq<Item<X>>)
    requires SieveSpec(sc, budget, stream).Some?
    ensures var t, s := GuessTable(sc, budget, stream), SieveSpec(sc, budget, stream).value;
      var g := FirstMax(Scores(sc, t));
      && s == t[g]
      && (forall h :: 0 <= h < |t| ==> Balance(sc, Labels(t[h])) <= Balance(sc, Labels(s)))
      && (forall h :: 0 <= h < g ==> Balance(sc, Labels(t[h])) < Balance(sc, Labels(s)))
      && 1 <= |s| <= Cap(budget) && s[0] == stream[0]
      && IsSubsequence(s, stream)
  {
    var t := GuessTable(sc, budget, stream);
    var g := FirstMax(Scores(sc, t));
    var o := GuessDomain(|stream|);
    SieveGuessShape(sc, budget, o[g], stream);
    var s := t[g];
    assert s == GuessSet(sc, budget, o[g], stream);
    assert Embeds(GuessPositions(sc, budget, o[g], stream), s, stream);
    forall h | 0 <= h < |t| ensures Balance(sc, Labels(t[h])) <= Balance(sc, Labels(s)) {
      assert Scores(sc, t)[h] == Balance(sc, Labels(t[h]));
    }
    forall h | 0 <= h < g ensures Balance(sc, Labels(t[h])) < Balance(sc, Labels(s)) {
      assert Scores(sc, t)[h] == Balance(sc, Labels(t[h]));
    }
  }
}
