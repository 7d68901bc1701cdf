/** DMGT threshold selection (`get_DIST_DMGT_subsets`). */
module Dmgt {
  import opened Wrappers
  import opened Counting
  import opened Utility
  import opened Greedy

  /** What `get_DIST_DMGT_subsets` returns for one stream: the first item, then
      every later item whose marginal reaches `taus[round]` while the set is
      below budget. `None` where the source raises: an empty stream
      (`stream_x[0]`), or a round with no threshold once an item is tested. */
  function DmgtSpec<X>(sc: Scorer<X>, taus: seq<real>, round: nat, budget: int, stream: seq<Item<X>>): (r: Option<seq<Item<X>>>)
    ensures r.Some? <==> |stream| >= 1 && (|stream| == 1 || round < |taus|)
    ensures r.Some? ==> 1 <= |r.value| <= Cap(budget) && r.value[0] == stream[0]
    ensures r.Some? ==> |r.value| <= |stream|
  {
    if |stream| == 0 then None
    else if |stream| == 1 then Some([stream[0]])
    else if round >= |taus| then None
    else Some(Scan(sc, budget, Fixed(taus[round]), stream[0], stream[1..]))
  }

  /** The loop of `get_DIST_DMGT_subsets`, growing the selection in place. */
  method DmgtSelect<X>(stream: seq<Item<X>>, taus: seq<real>, round: nat, sc: Scorer<X>, budget: int)
    returns (r: Option<seq<Item<X>>>)
    ensures r == DmgtSpec(sc, taus, round, budget, stream)
  {
    if |stream| == 0 {
      return None;
    }
    var sel := [stream[0]];
    for i := 1 to |stream|
      invariant i == 1 ==> sel == [stream[0]]
      invariant i > 1 ==> round < |taus| && sel == Scan(sc, budget, Fixed(taus[round]), stream[0], stream[1..i])
    {
      var f := ClassCard(sc, Labels(sel), stream[i].x);
      if round >= |taus| {
        return None;
      }
      ghost var rule := Fixed(taus[round]);
      assert stream[1..i + 1][..i - 1] == stream[1..i];
      assert sel == Scan(sc, budget, rule, stream[0], stream[1..i]);
      assert Scan(sc, budget, rule, stream[0], stream[1..i + 1])
          == if Accepts(sc, budget, rule, sel, stream[i]) then sel + [stream[i]] else sel;
      if f.0 - f.1 >= taus[round] && |sel| < budget {
        sel := sel + [stream[i]];
      }
    }
    if |stream| > 1 {
      assert stream[1..|stream|] == stream[1..];
    }
    return Some(sel);
  }

  /** Positions in `stream` of the selected items: 0 for the seed, then the
      accepted ones. */
  function Selected<X>(sc: Scorer<X>, taus: seq<real>, round: nat, budget: int, stream: seq<Item<X>>): (idx: seq<nat>)
    requires DmgtSpec(sc, taus, round, budget, stream).Some?
    ensures |idx| == |DmgtSpec(sc, taus, round, budget, stream).value|
  {
    // `round >= |taus|` passes the requires only for a one-item stream, where no
    // item is tested and the stand-in threshold 0.0 is never consulted.
    var tau := if round < |taus| then taus[round] else 0.0;
    Positions(Picks(sc, budget, Fixed(tau), stream[0], stream[1..]), 1)
  }

  /** The output starts with `stream[0]` and is the items at the selected
      positions, which increase: an order-preserving subsequence of the stream. */
  lemma DmgtSubsequence<X>(sc: Scorer<X>, taus: seq<real>, round: nat, budget: int, stream: seq<Item<X>>)
    requires DmgtSpec(sc, taus, round, budget, stream).Some?
    ensures Selected(sc, taus, round, budget, stream)[0] == 0
    ensures Embeds(Selected(sc, taus, round, budget, stream), DmgtSpec(sc, taus, round, budget, stream).value, stream)
  {
    // `round >= |taus|` passes the requires only for a one-item stream, where no
    // item is tested and the stand-in threshold 0.0 is never consulted.
    var tau := if round < |taus| then taus[round] else 0.0;
    ScanEmbeds(sc, budget, Fixed(tau), stream, 1);
  }

  /** What DMGT selects from the first `i` items is the scan of the items
      `1 .. i-1` from the seed. */
  lemma PrefixIsScan<X>(sc: Scorer<X>, taus: seq<real>, round: nat, budget: int, stream: seq<Item<X>>, i: nat)
    requires 1 <= i <= |stream| && round < |taus|
    ensures DmgtSpec(sc, taus, round, budget, stream[..i])
         == Some(Scan(sc, budget, Fixed(taus[round]), stream[0], stream[1..][..i - 1]))
  {
    assert stream[..i][1..] == stream[1..][..i - 1];
  }

  /** Exact acceptance rule: item `i >= 1` is selected iff, against the set
      selected from the items before it, its marginal is at least
      `taus[round]` (ties accepted) and that set is still below budget. */
  lemma DmgtAcceptsExactly<X>(sc: Scorer<X>, taus: seq<real>, round: nat, budget: int, stream: seq<Item<X>>, i: nat)
    requires 1 <= i < |stream| && round < |taus|
    ensures DmgtSpec(sc, taus, round, budget, stream[..i]).Some?
    ensures var before := DmgtSpec(sc, taus, round, budget, stream[..i]).value;
      i in Selected(sc, taus, round, budget, stream)
      <==> |before| < budget && Marginal(sc, Labels(before), stream[i].x) >= taus[round]
  {
    var items := stream[1..];
    var rule := Fixed(taus[round]);
    var p := Picks(sc, budget, rule, stream[0], items);
    PrefixIsScan(sc, taus, round, budget, stream, i);
    assert items[i - 1] == stream[i];
    PickedIff(sc, budget, rule, stream[0], items, i - 1);
    PositionsMembers(p, 1, i);
    assert i in Selected(sc, taus, round, budget, stream) <==> i - 1 in p;
  }

  /** The set selected from a prefix of the stream is a prefix of the output:
      items are only appended, never re-scored or reordered. */
  lemma DmgtGrows<X>(sc: Scorer<X>, taus: seq<real>, round: nat, budget: int, stream: seq<Item<X>>, i: nat)
    requires 1 <= i <= |stream| && DmgtSpec(sc, taus, round, budget, stream).Some?
    ensures DmgtSpec(sc, taus, round, budget, stream[..i]).Some?
    ensures DmgtSpec(sc, taus, round, budget, stream[..i]).value <= DmgtSpec(sc, taus, round, budget, stream).value
  {
    if |stream| > 1 {
      assert stream[..i][1..] == stream[1..][..i - 1];
      ScanGrows(sc, budget, Fixed(taus[round]), stream[0], stream[1..], i - 1);
    }
  }

  /** Once the selection has reached the budget, nothing more is added. */
  lemma DmgtStopsWhenFull<X>(sc: Scorer<X>, taus: seq<real>, round: nat, budget: int, stream: seq<Item<X>>, i: nat)
    requires 1 <= i <= |stream| && DmgtSpec(sc, taus, round, budget, stream).Some?
    requires |DmgtSpec(sc, taus, round, budget, stream[..i]).value| >= budget
    ensures DmgtSpec(sc, taus, round, budget, stream) == DmgtSpec(sc, taus, round, budget, stream[..i])
  {
    if |stream| > 1 {
      assert stream[..i][1..] == stream[1..][..i - 1];
      ScanStopsWhenFull(sc, budget, Fixed(taus[round]), stream[0], stream[1..], i - 1);
      if i == |stream| {
        assert stream[..i] == stream;
      }
    }
  }

  /** Re-running DMGT on its own output with the same threshold, round and
      budget returns that output unchanged. */
  lemma DmgtIdempotent<X>(sc: Scorer<X>, taus: seq<real>, round: nat, budget: int, stream: seq<Item<X>>)
    requires DmgtSpec(sc, taus, round, budget, stream).Some?
    ensures var sel := DmgtSpec(sc, taus, round, budget, stream).value;
      DmgtSpec(sc, taus, round, budget, sel) == Some(sel)
  {
    if |stream| > 1 {
      ScanIdempotent(sc, budget, Fixed(taus[round]), stream[0], stream[1..]);
    }
  }
}
