/** What a run of the epoch tracker guarantees about its saved, lost and current epochs. */
module EpochRuns {
  import opened BlockRevenue
  import opened Epochs

  // ---- Each block in its own epoch ----

  /** No block is in an earlier epoch, by its timestamp, than a block before it. */
  ghost predicate NonDecreasing(c: Config, bs: seq<Block>) {
    forall i, j :: 0 <= i < j < |bs| ==> EpochNumber(c, bs[i].time) <= EpochNumber(c, bs[j].time)
  }

  /** Every block was added to the epoch that its timestamp lies in. */
  ghost predicate EachInItsEpoch(c: Config, s: State, gs: seq<seq<Block>>)
    requires Follows(c, s, gs)
  {
    forall k, b :: 0 <= k < |gs| && b in gs[k] ==> EpochNumber(c, b.time) == Epoch(s, k).epochNumber
  }

  ghost predicate Uniform(c: Config, gs: seq<seq<Block>>)
    requires forall k :: 0 <= k < |gs| ==> gs[k] != []
  {
    forall k, b :: 0 <= k < |gs| && b in gs[k] ==> EpochNumber(c, b.time) == EpochNumber(c, gs[k][0].time)
  }

  lemma {:induction false} LatestIsMaximum(c: Config, bs: seq<Block>)
    ensures forall i :: 0 <= i < |bs| ==> EpochNumber(c, bs[i].time) <= Latest(c, bs)
    ensures bs != [] ==> exists i :: 0 <= i < |bs| && EpochNumber(c, bs[i].time) == Latest(c, bs)
  {
    if bs != [] {
      var init := bs[..|bs| - 1];
      LatestIsMaximum(c, init);
      assert forall i :: 0 <= i < |init| ==> init[i] == bs[i];
      if EpochNumber(c, bs[|bs| - 1].time) <= Latest(c, init) {
        var i :| 0 <= i < |init| && EpochNumber(c, init[i].time) == Latest(c, init);
        assert EpochNumber(c, bs[i].time) == Latest(c, bs);
      } else {
        assert EpochNumber(c, bs[|bs| - 1].time) == Latest(c, bs);
      }
    }
  }

  lemma NonDecreasingSnoc(c: Config, init: seq<Block>, b: Block)
    ensures NonDecreasing(c, init + [b]) <==> NonDecreasing(c, init) && EpochNumber(c, b.time) >= Latest(c, init)
  {
    LatestIsMaximum(c, init);
    var bs := init + [b];
    assert forall i :: 0 <= i < |init| ==> bs[i] == init[i];
    if NonDecreasing(c, bs) && init != [] {
      var i :| 0 <= i < |init| && EpochNumber(c, init[i].time) == Latest(c, init);
      assert EpochNumber(c, bs[i].time) <= EpochNumber(c, bs[|init|].time);
    }
  }

  lemma UniformSnoc(c: Config, gs: seq<seq<Block>>, b: Block)
    requires gs != [] && forall k :: 0 <= k < |gs| ==> gs[k] != []
    ensures Uniform(c, gs + [[b]]) <==> Uniform(c, gs)
    ensures Uniform(c, gs[|gs| - 1 := gs[|gs| - 1] + [b]])
       <==> Uniform(c, gs) && EpochNumber(c, b.time) == EpochNumber(c, gs[|gs| - 1][0].time)
  {
    var n := |gs| - 1;
    var extended, hs := gs[n := gs[n] + [b]], gs + [[b]];
    assert forall k :: 0 <= k < n ==> extended[k] == gs[k];
    assert forall k :: 0 <= k <= n ==> hs[k] == gs[k];
    assert b in extended[n] && forall x :: x in gs[n] ==> x in extended[n];
    if Uniform(c, extended) {
      forall k, x | 0 <= k < |gs| && x in gs[k] ensures EpochNumber(c, x.time) == EpochNumber(c, gs[k][0].time) {
        assert x in extended[k];
      }
    }
    if Uniform(c, hs) {
      forall k, x | 0 <= k < |gs| && x in gs[k] ensures EpochNumber(c, x.time) == EpochNumber(c, gs[k][0].time) {
        assert x in hs[k];
      }
    }
  }

  lemma {:induction false} UniformIff(c: Config, bs: seq<Block>)
    ensures Uniform(c, Groups(c, bs)) <==> NonDecreasing(c, bs)
  {
    if bs == [] {
      assert Groups(c, bs) == [];
    } else {
      var init, b := bs[..|bs| - 1], bs[|bs| - 1];
      UniformIff(c, init);
      AnotherUniform(c, bs, init, b);
    }
  }

  lemma AnotherUniform(c: Config, bs: seq<Block>, init: seq<Block>, b: Block)
    requires bs == init + [b] && (Uniform(c, Groups(c, init)) <==> NonDecreasing(c, init))
    ensures Uniform(c, Groups(c, bs)) <==> NonDecreasing(c, bs)
  {
    GroupsWithOneMore(c, bs, init, b);
    GroupsGraded(c, init);
    NonDecreasingSnoc(c, init, b);
    if init == [] {
      FirstUniform(c, bs, b);
    } else {
      UniformSnoc(c, Groups(c, init), b);
    }
  }

  lemma FirstUniform(c: Config, bs: seq<Block>, b: Block)
    requires bs == [b]
    ensures Uniform(c, Groups(c, bs)) && NonDecreasing(c, bs)
  {
    assert bs[..0] == [] && Groups(c, bs[..0]) == [];
    assert Groups(c, bs) == [[b]];
  }

  /** Every block is in the epoch of its timestamp exactly when the epoch numbers of the blocks' timestamps
      never fall; timestamps that never fall are enough for that. */
  lemma EachInItsEpochIff(c: Config, steps: seq<Step>)
    ensures Follows(c, Run(c, steps), Groups(c, Blocks(steps)))
    ensures EachInItsEpoch(c, Run(c, steps), Groups(c, Blocks(steps))) <==> NonDecreasing(c, Blocks(steps))
    ensures (forall i, j :: 0 <= i < j < |steps| ==> steps[i].block.time <= steps[j].block.time)
        ==> NonDecreasing(c, Blocks(steps))
  {
    RunFollowsGroups(c, steps);
    UniformIff(c, Blocks(steps));
    var s, gs := Run(c, steps), Groups(c, Blocks(steps));
    assert forall k :: 0 <= k < |gs| ==> Summarises(c, Epoch(s, k), gs[k]);
    if forall i, j :: 0 <= i < j < |steps| ==> steps[i].block.time <= steps[j].block.time {
      forall i, j | 0 <= i < j < |steps|
        ensures EpochNumber(c, Blocks(steps)[i].time) <= EpochNumber(c, Blocks(steps)[j].time)
      {
        EpochNumberMonotone(c, steps[i].block.time, steps[j].block.time);
      }
    }
  }

  // ---- Block ranges ----

  ghost predicate Increasing(bs: seq<Block>) {
    forall i, j :: 0 <= i < j < |bs| ==> bs[i].number < bs[j].number
  }

  ghost predicate Consecutive(bs: seq<Block>) {
    forall i :: 0 <= i < |bs| ==> bs[i].number == bs[0].number + i
  }

  /** The epochs' block ranges follow one another without gap or overlap, and each epoch counts as many
      blocks as its range is long. */
  ghost predicate Tiles(s: State)
    requires s.current.Some?
  {
    && (forall k :: 0 <= k < |s.ended| ==> Epoch(s, k + 1).startBlock == Epoch(s, k).endBlock + 1)
    && (forall k :: 0 <= k <= |s.ended| ==> Epoch(s, k).blockCount == Epoch(s, k).endBlock - Epoch(s, k).startBlock + 1)
  }

  function Last(g: seq<Block>): Block
    requires g != []
  {
    g[|g| - 1]
  }

  lemma {:induction false} GroupsEnds(c: Config, bs: seq<Block>)
    requires bs != []
    ensures var gs := Groups(c, bs); gs[0][0] == bs[0] && Last(gs[|gs| - 1]) == Last(bs)
  {
    if |bs| > 1 {
      GroupsEnds(c, bs[..|bs| - 1]);
    }
  }

  lemma {:induction false} GroupsOfConsecutive(c: Config, bs: seq<Block>)
    requires Consecutive(bs)
    ensures var gs := Groups(c, bs);
            && (forall k :: 0 <= k < |gs| ==> Last(gs[k]).number == gs[k][0].number + |gs[k]| - 1)
            && (forall k :: 0 <= k < |gs| - 1 ==> gs[k + 1][0].number == Last(gs[k]).number + 1)
  {
    if |bs| > 1 {
      var init, b := bs[..|bs| - 1], bs[|bs| - 1];
      GroupsOfConsecutive(c, init);
      GroupsEnds(c, init);
      assert Last(init).number + 1 == b.number;
    }
  }

  /** Ranges that tile leave no number out up to the end of epoch `k`. */
  lemma {:induction false} TilesReach(c: Config, s: State, gs: seq<seq<Block>>, k: nat)
    requires Follows(c, s, gs) && k < |gs| && Tiles(s)
    ensures Epoch(s, k).endBlock - Epoch(s, 0).startBlock + 1 == |Concat(gs[..k + 1])|
  {
    assert gs[..k + 1][..k] == gs[..k];
    assert Summarises(c, Epoch(s, k), gs[k]);
    if k > 0 {
      TilesReach(c, s, gs, k - 1);
      assert Epoch(s, k - 1 + 1).startBlock == Epoch(s, k - 1).endBlock + 1;
    } else {
      assert gs[..0] == [];
    }
  }

  lemma {:induction false} NumbersSpread(bs: seq<Block>, i: nat, j: nat)
    requires Increasing(bs) && i <= j < |bs|
    ensures bs[j].number - bs[i].number >= j - i
  {
    if i < j {
      NumbersSpread(bs, i, j - 1);
    }
  }

  lemma TightIsConsecutive(bs: seq<Block>)
    requires Increasing(bs) && bs != [] && Last(bs).number - bs[0].number + 1 == |bs|
    ensures Consecutive(bs)
  {
    forall i | 0 <= i < |bs| ensures bs[i].number == bs[0].number + i {
      NumbersSpread(bs, 0, i);
      NumbersSpread(bs, i, |bs| - 1);
    }
  }

  /** A run's epoch ranges tile exactly when no block between the first and the last was missed; whether
      saves failed plays no part. */
  lemma TilesIff(c: Config, steps: seq<Step>)
    requires steps != [] && Increasing(Blocks(steps))
    ensures Tiles(Run(c, steps)) <==> Consecutive(Blocks(steps))
    ensures Epoch(Run(c, steps), 0).startBlock == steps[0].block.number
    ensures Run(c, steps).current.value.endBlock == steps[|steps| - 1].block.number
  {
    RunFollowsGroups(c, steps);
    GroupsEnds(c, Blocks(steps));
    EndsOfRun(c, Run(c, steps), Groups(c, Blocks(steps)));
    if Consecutive(Blocks(steps)) {
      GroupsOfConsecutive(c, Blocks(steps));
      SpansTile(c, Run(c, steps), Groups(c, Blocks(steps)));
    }
    if Tiles(Run(c, steps)) {
      TilesSpanTheRun(c, steps);
      TightIsConsecutive(Blocks(steps));
    }
  }

  lemma EndsOfRun(c: Config, s: State, gs: seq<seq<Block>>)
    requires Follows(c, s, gs) && gs != []
    ensures Epoch(s, 0).startBlock == gs[0][0].number
    ensures Epoch(s, |gs| - 1) == s.current.value && s.current.value.endBlock == Last(gs[|gs| - 1]).number
  {
    assert Epoch(s, 0).startBlock == StartBlock(s, gs, 0);
    assert Summarises(c, Epoch(s, |gs| - 1), gs[|gs| - 1]);
  }

  lemma TilesSpanTheRun(c: Config, steps: seq<Step>)
    requires steps != [] && Tiles(Run(c, steps))
    ensures Last(Blocks(steps)).number - Blocks(steps)[0].number + 1 == |steps|
  {
    var gs := Groups(c, Blocks(steps));
    RunFollowsGroups(c, steps);
    GroupsEnds(c, Blocks(steps));
    EndsOfRun(c, Run(c, steps), gs);
    TilesReach(c, Run(c, steps), gs, |gs| - 1);
    GroupsReach(c, Blocks(steps));
  }

  lemma GroupsReach(c: Config, bs: seq<Block>)
    requires bs != []
    ensures var gs := Groups(c, bs); Concat(gs[..|gs| - 1 + 1]) == bs
  {
    GroupsPartition(c, bs);
    assert Groups(c, bs)[..|Groups(c, bs)|] == Groups(c, bs);
  }

  lemma SpansTile(c: Config, s: State, gs: seq<seq<Block>>)
    requires Follows(c, s, gs) && gs != []
    requires forall k :: 0 <= k < |gs| ==> Last(gs[k]).number == gs[k][0].number + |gs[k]| - 1
    requires forall k :: 0 <= k < |gs| - 1 ==> gs[k + 1][0].number == Last(gs[k]).number + 1
    ensures Tiles(s)
  {
    forall k | 0 <= k < |gs|
      ensures Epoch(s, k).startBlock == gs[k][0].number && Epoch(s, k).endBlock == Last(gs[k]).number
      ensures Epoch(s, k).blockCount == |gs[k]|
    {
      assert Summarises(c, Epoch(s, k), gs[k]) && Epoch(s, k).startBlock == StartBlock(s, gs, k);
      assert k > 0 ==> gs[k - 1 + 1][0].number == Last(gs[k - 1]).number + 1;
    }
  }
}
