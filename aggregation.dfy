/** The two-tier round body of `experiment`: every agent's batch goes through
    the selector, the agents' outputs are concatenated in ascending agent order,
    and the selector runs once more, centrally, on that pool with the same
    threshold schedule, round and budget. */
module Aggregation {
  import opened Wrappers
  import opened Counting
  import opened Utility
  import opened Greedy
  import opened Dmgt
  import opened Sieve

  /** One algorithm lineage together with the model it scores with. */
  datatype Selector<!X> = DmgtWith(sc: Scorer<X>, taus: seq<real>) | SieveWith(sc: Scorer<X>)

  /** One run of a lineage's selector on one stream. */
  function Run<X>(alg: Selector<X>, round: nat, budget: int, stream: seq<Item<X>>): Option<seq<Item<X>>>
  {
    match alg
    case DmgtWith(sc, taus) => DmgtSpec(sc, taus, round, budget, stream)
    case SieveWith(sc) => SieveSpec(sc, budget, stream)
  }

  function Concat<T>(ss: seq<seq<T>>): seq<T>
  {
    if ss == [] then [] else Concat(ss[..|ss| - 1]) + ss[|ss| - 1]
  }

  /** The pooled candidate stream: the agents' outputs, agent 0 first. `None`
      as soon as one agent's run raises. */
  function Pool<X>(alg: Selector<X>, round: nat, budget: int, batches: seq<seq<Item<X>>>): Option<seq<Item<X>>>
  {
    if batches == [] then Some([])
    else
      match Pool(alg, round, budget, batches[..|batches| - 1])
      case None => None
      case Some(pool) =>
        match Run(alg, round, budget, batches[|batches| - 1])
        case None => None
        case Some(out) => Some(pool + out)
  }

  /** The central re-run over the pool. */
  function TwoTier<X>(alg: Selector<X>, round: nat, budget: int, batches: seq<seq<Item<X>>>): Option<seq<Item<X>>>
  {
    match Pool(alg, round, budget, batches)
    case None => None
    case Some(pool) => Run(alg, round, budget, pool)
  }

  /** The central selections of one round for the three lineages. */
  datatype RoundOutput<X> = RoundOutput(unif: seq<Item<X>>, dyn: seq<Item<X>>, sieve: seq<Item<X>>)

  function RoundSpec<X>(batches: seq<seq<Item<X>>>, unif: Selector<X>, dyn: Selector<X>, sieve: Selector<X>,
                        round: nat, budget: int): Option<RoundOutput<X>>
  {
    match (TwoTier(unif, round, budget, batches), TwoTier(dyn, round, budget, batches), TwoTier(sieve, round, budget, batches))
    case (Some(a), Some(b), Some(c)) => Some(RoundOutput(a, b, c))
    case _ => None
  }

  /** Calls the method that implements a lineage's selector. */
  method RunSelector<X>(alg: Selector<X>, round: nat, budget: int, stream: seq<Item<X>>, epsilon: real)
    returns (r: Option<seq<Item<X>>>)
    ensures r == Run(alg, round, budget, stream)
  {
    match alg
    case DmgtWith(sc, taus) =>
      r := DmgtSelect(stream, taus, round, sc, budget);
    case SieveWith(sc) =>
      r := SieveSelect(stream, sc, budget, epsilon);
  }

  /** Once an agent's run has raised, the pool of every longer agent list fails too. */
  lemma {:induction false} PoolFailurePersists<X>(alg: Selector<X>, round: nat, budget: int, batches: seq<seq<Item<X>>>, a: nat)
    requires a <= |batches| && Pool(alg, round, budget, batches[..a]).None?
    ensures Pool(alg, round, budget, batches).None?
  {
    if a < |batches| {
      var pre := batches[..|batches| - 1];
      assert pre[..a] == batches[..a];
      PoolFailurePersists(alg, round, budget, pre, a);
    } else {
      assert batches[..a] == batches;
    }
  }

  /** What every lineage's selector promises about one successful run: at most
      `max(1, budget)` items, starting with the stream's first item, in stream
      order. */
  lemma RunShape<X>(alg: Selector<X>, round: nat, budget: int, stream: seq<Item<X>>)
    requires Run(alg, round, budget, stream).Some?
    ensures var s := Run(alg, round, budget, stream).value;
      1 <= |s| <= Cap(budget) && s[0] == stream[0] && IsSubsequence(s, stream)
  {
    match alg
    case DmgtWith(sc, taus) =>
      DmgtSubsequence(sc, taus, round, budget, stream);
      var s := DmgtSpec(sc, taus, round, budget, stream).value;
      assert Embeds(Selected(sc, taus, round, budget, stream), s, stream);
    case SieveWith(sc) =>
      SieveResult(sc, budget, stream);
  }

  /** The per-agent outputs, in agent order, when no agent's run raises. */
  function Outputs<X>(alg: Selector<X>, round: nat, budget: int, batches: seq<seq<Item<X>>>): (outs: seq<seq<Item<X>>>)
    requires forall a :: 0 <= a < |batches| ==> Run(alg, round, budget, batches[a]).Some?
    ensures |outs| == |batches|
  {
    seq(|batches|, a requires 0 <= a < |batches| => Run(alg, round, budget, batches[a]).value)
  }

  /** The pool exists exactly when no agent's run raises. */
  lemma {:induction false} PoolDefined<X>(alg: Selector<X>, round: nat, budget: int, batches: seq<seq<Item<X>>>)
    ensures Pool(alg, round, budget, batches).Some? <==>
      forall a :: 0 <= a < |batches| ==> Run(alg, round, budget, batches[a]).Some?
  {
    if batches != [] {
      var n := |batches| - 1;
      var pre := batches[..n];
      PoolDefined(alg, round, budget, pre);
      assert Pool(alg, round, budget, batches).Some? <==>
        Pool(alg, round, budget, pre).Some? && Run(alg, round, budget, batches[n]).Some?;
      EveryRunSplits(alg, round, budget, batches);
    }
  }

  /** Every agent's run succeeds iff every run but the last does and the last
      does too. */
  lemma EveryRunSplits<X>(alg: Selector<X>, round: nat, budget: int, batches: seq<seq<Item<X>>>)
    requires batches != []
    ensures var n := |batches| - 1;
      (forall a :: 0 <= a < |batches| ==> Run(alg, round, budget, batches[a]).Some?) <==>
      (forall a :: 0 <= a < n ==> Run(alg, round, budget, batches[..n][a]).Some?) && Run(alg, round, budget, batches[n]).Some?
  {
    var n := |batches| - 1;
    assert forall a :: 0 <= a < n ==> batches[..n][a] == batches[a];
  }

  /** When no agent's run raises, the pool is the concatenation of the agents'
      outputs in ascending agent order. */
  lemma {:induction false} PoolIsConcat<X>(alg: Selector<X>, round: nat, budget: int, batches: seq<seq<Item<X>>>)
    requires forall a :: 0 <= a < |batches| ==> Run(alg, round, budget, batches[a]).Some?
    ensures Pool(alg, round, budget, batches) == Some(Concat(Outputs(alg, round, budget, batches)))
  {
    if batches != [] {
      var n := |batches| - 1;
      var pre := batches[..n];
      forall a | 0 <= a < n ensures Run(alg, round, budget, pre[a]).Some? {
        assert pre[a] == batches[a];
      }
      PoolIsConcat(alg, round, budget, pre);
      var outs := Outputs(alg, round, budget, batches);
      assert outs[..n] == Outputs(alg, round, budget, pre);
      assert Run(alg, round, budget, batches[n]) == Some(outs[n]);
    }
  }

  /** Every agent contributes at least its first item and at most
      `max(1, budget)` items, so the pool holds between `|batches|` and
      `|batches| * max(1, budget)` items. */
  lemma {:induction false} PoolSize<X>(alg: Selector<X>, round: nat, budget: int, batches: seq<seq<Item<X>>>)
    requires Pool(alg, round, budget, batches).Some?
    ensures |batches| <= |Pool(alg, round, budget, batches).value| <= |batches| * Cap(budget)
  {
    if batches != [] {
      var n := |batches| - 1;
      var pre := batches[..n];
      var out := Run(alg, round, budget, batches[n]).value;
      assert Pool(alg, round, budget, batches) == Some(Pool(alg, round, budget, pre).value + out);
      PoolSize(alg, round, budget, pre);
      RunShape(alg, round, budget, batches[n]);
      MultiplyStep(n, Cap(budget));
    }
  }

  /** The pool starts with agent 0's first item. */
  lemma {:induction false} PoolStart<X>(alg: Selector<X>, round: nat, budget: int, batches: seq<seq<Item<X>>>)
    requires Pool(alg, round, budget, batches).Some? && |batches| >= 1
    ensures |batches[0]| >= 1 && |Pool(alg, round, budget, batches).value| >= 1
    ensures Pool(alg, round, budget, batches).value[0] == batches[0][0]
  {
    var n := |batches| - 1;
    var pre := batches[..n];
    var prePool := Pool(alg, round, budget, pre).value;
    var out := Run(alg, round, budget, batches[n]).value;
    assert Pool(alg, round, budget, batches) == Some(prePool + out);
    RunShape(alg, round, budget, batches[n]);
    if n >= 1 {
      PoolStart(alg, round, budget, pre);
      assert pre[0] == batches[0];
      assert (prePool + out)[0] == prePool[0];
    } else {
      assert prePool + out == out;
    }
  }

  /** The pool keeps the order of the agents' concatenated batches. */
  lemma {:induction false} PoolKeepsOrder<X>(alg: Selector<X>, round: nat, budget: int, batches: seq<seq<Item<X>>>)
    requires Pool(alg, round, budget, batches).Some?
    ensures IsSubsequence(Pool(alg, round, budget, batches).value, Concat(batches))
  {
    if batches == [] {
      assert Embeds([], [], Concat(batches));
    } else {
      var n := |batches| - 1;
      var pre := batches[..n];
      var prePool := Pool(alg, round, budget, pre).value;
      var out := Run(alg, round, budget, batches[n]).value;
      assert Pool(alg, round, budget, batches) == Some(prePool + out);
      assert Concat(batches) == Concat(pre) + batches[n];
      PoolKeepsOrder(alg, round, budget, pre);
      RunShape(alg, round, budget, batches[n]);
      SubsequenceConcat(prePool, Concat(pre), out, batches[n]);
    }
  }

  /** Isolates the nonlinear step `(n+1)·c = n·c + c` of `PoolSize`. */
  lemma MultiplyStep(n: nat, c: nat)
    ensures (n + 1) * c == n * c + c
  {
  }

  /** The central selection fits in `max(1, budget)`, starts with agent 0's first
      item, and is an order-preserving subsequence both of the pool and of the
      agents' concatenated batches. */
  lemma TwoTierShape<X>(alg: Selector<X>, round: nat, budget: int, batches: seq<seq<Item<X>>>)
    requires TwoTier(alg, round, budget, batches).Some?
    ensures Pool(alg, round, budget, batches).Some?
    ensures var s, pool := TwoTier(alg, round, budget, batches).value, Pool(alg, round, budget, batches).value;
      && 1 <= |s| <= Cap(budget)
      && |batches| >= 1 && |batches[0]| >= 1 && s[0] == batches[0][0]
      && IsSubsequence(s, pool) && IsSubsequence(s, Concat(batches))
  {
    var pool := Pool(alg, round, budget, batches).value;
    var s := TwoTier(alg, round, budget, batches).value;
    RunShape(alg, round, budget, pool);
    PoolSize(alg, round, budget, batches);
    PoolStart(alg, round, budget, batches);
    PoolKeepsOrder(alg, round, budget, batches);
    SubsequenceTransitive(s, pool, Concat(batches));
  }

  /** With a single agent, DMGT's two tiers select what one DMGT run selects:
      the central pass keeps the agent's output unchanged. */
  lemma DmgtSingleAgent<X>(sc: Scorer<X>, taus: seq<real>, round: nat, budget: int, stream: seq<Item<X>>)
    ensures TwoTier(DmgtWith(sc, taus), round, budget, [stream]) == DmgtSpec(sc, taus, round, budget, stream)
  {
    var alg := DmgtWith(sc, taus);
    assert [stream][..0] == [];
    assert Pool(alg, round, budget, []) == Some([]);
    match DmgtSpec(sc, taus, round, budget, stream)
    case None =>
      assert Pool(alg, round, budget, [stream]) == None;
    case Some(sel) =>
      assert Pool(alg, round, budget, [stream]) == Some([] + sel);
      assert [] + sel == sel;
      DmgtIdempotent(sc, taus, round, budget, stream);
  }

  /** SIEVE's central pass needs a pool of three items, so with fewer than three
      agent slots in total (`|batches| * max(1, budget) < 3`) the two-tier SIEVE
      run always raises, even where one SIEVE run on the same stream succeeds. */
  lemma SieveSmallPoolFails<X>(sc: Scorer<X>, round: nat, budget: int, batches: seq<seq<Item<X>>>)
    requires |batches| * Cap(budget) < 3
    ensures TwoTier(SieveWith(sc), round, budget, batches).None?
  {
    if Pool(SieveWith(sc), round, budget, batches).Some? {
      PoolSize(SieveWith(sc), round, budget, batches);
    }
  }

  /** A completed round gives, for each of the three lineages, a central
      selection within `max(1, budget)` that keeps the order of the round's
      concatenated batches. */
  lemma RoundShape<X>(batches: seq<seq<Item<X>>>, unif: Selector<X>, dyn: Selector<X>, sieve: Selector<X>,
                      round: nat, budget: int)
    requires RoundSpec(batches, unif, dyn, sieve, round, budget).Some?
    ensures var out := RoundSpec(batches, unif, dyn, sieve, round, budget).value;
      && |out.unif| <= Cap(budget) && IsSubsequence(out.unif, Concat(batches))
      && |out.dyn| <= Cap(budget) && IsSubsequence(out.dyn, Concat(batches))
      && |out.sieve| <= Cap(budget) && IsSubsequence(out.sieve, Concat(batches))
  {
    TwoTierShape(unif, round, budget, batches);
    TwoTierShape(dyn, round, budget, batches);
    TwoTierShape(sieve, round, budget, batches);
  }

  /** The round body for one selection round: the per-agent loop feeding the
      three pools, then the three central runs. */
  method SelectionRound<X>(batches: seq<seq<Item<X>>>, unifTaus: seq<real>, dynTaus: seq<real>, round: nat,
                           unifSc: Scorer<X>, dynSc: Scorer<X>, sieveSc: Scorer<X>, budget: int, epsilon: real)
    returns (r: Option<RoundOutput<X>>)
    ensures r == RoundSpec(batches, DmgtWith(unifSc, unifTaus), DmgtWith(dynSc, dynTaus), SieveWith(sieveSc), round, budget)
  {
    var unif, dyn, sieve := DmgtWith(unifSc, unifTaus), DmgtWith(dynSc, dynTaus), SieveWith(sieveSc);
    var unifPool, dynPool, sievePool := [], [], [];
    for a := 0 to |batches|
      invariant Pool(unif, round, budget, batches[..a]) == Some(unifPool)
      invariant Pool(dyn, round, budget, batches[..a]) == Some(dynPool)
      invariant Pool(sieve, round, budget, batches[..a]) == Some(sievePool)
    {
      assert batches[..a + 1][..a] == batches[..a];
      var u := DmgtSelect(batches[a], unifTaus, round, unifSc, budget);
      if u.None? {
        PoolFailurePersists(unif, round, budget, batches, a + 1);
        return None;
      }
      var d := DmgtSelect(batches[a], dynTaus, round, dynSc, budget);
      if d.None? {
        PoolFailurePersists(dyn, round, budget, batches, a + 1);
        return None;
      }
      var s := SieveSelect(batches[a], sieveSc, budget, epsilon);
      if s.None? {
        PoolFailurePersists(sieve, round, budget, batches, a + 1);
        return None;
      }
      unifPool, dynPool, sievePool := unifPool + u.value, dynPool + d.value, sievePool + s.value;
    }
    assert batches[..|batches|] == batches;
    var cu := DmgtSelect(unifPool, unifTaus, round, unifSc, budget);
    if cu.None? {
      return None;
    }
    var cd := DmgtSelect(dynPool, dynTaus, round, dynSc, budget);
    if cd.None? {
      return None;
    }
    var cs := SieveSelect(sievePool, sieveSc, budget, epsilon);
    if cs.None? {
      return None;
    }
    return Some(RoundOutput(cu.value, cd.value, cs.value));
  }
}
