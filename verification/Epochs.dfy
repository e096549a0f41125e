/** Epochs of preconfirmed blocks: the tracker's state machine and what its epochs add up to. */
module Epochs {
  import opened Integers
  import opened Options
  import opened BlockRevenue

  datatype NetworkConfig = NetworkConfig(genesisTimestamp: nat, preconfStartBlock: nat, epochDurationSeconds: nat)

  type Config = c: NetworkConfig | c.genesisTimestamp > 0 && c.epochDurationSeconds > 0
    witness NetworkConfig(1, 0, 1)

  function GetNetworkConfig(chainID: nat): Option<Config> {
    if chainID == 167000 then Some(NetworkConfig(1723384111, 1320745, 384))
    else if chainID == 167009 then Some(NetworkConfig(1717995202, 1472749, 384))
    else if chainID == 167012 || chainID == 167010 then Some(NetworkConfig(1742213400, 0, 384))
    else None
  }

  /** The chains tracked, each with epochs of 32 slots of 12 seconds. */
  lemma SupportedChains(chainID: nat)
    ensures GetNetworkConfig(chainID).Some? <==> chainID in {167000, 167009, 167010, 167012}
    ensures GetNetworkConfig(chainID).Some? ==> GetNetworkConfig(chainID).value.epochDurationSeconds == 32 * 12
  {
  }

  function EpochNumber(c: Config, time: nat): nat {
    if time < c.genesisTimestamp then 0 else (time - c.genesisTimestamp) / c.epochDurationSeconds
  }

  function EpochStart(c: Config, epochNumber: nat): nat {
    c.genesisTimestamp + epochNumber * c.epochDurationSeconds
  }

  /** From genesis on, a time lies in an epoch exactly when it is at or after the epoch's start and before
      the next one's; what comes before counts for epoch 0, which starts at genesis. */
  lemma EpochHoldsTime(c: Config, time: nat, n: nat)
    ensures time >= c.genesisTimestamp ==>
            (EpochNumber(c, time) == n <==> EpochStart(c, n) <= time < EpochStart(c, n + 1))
    ensures time < c.genesisTimestamp ==> EpochNumber(c, time) == 0
    ensures EpochStart(c, 0) == c.genesisTimestamp && EpochStart(c, n + 1) == EpochStart(c, n) + c.epochDurationSeconds
  {
    if time >= c.genesisTimestamp {
      EpochFromGenesis(c, time, n);
    }
  }

  lemma EpochFromGenesis(c: Config, time: nat, n: nat)
    requires time >= c.genesisTimestamp
    ensures EpochNumber(c, time) == n <==> EpochStart(c, n) <= time < EpochStart(c, n + 1)
  {
    var d, e := c.epochDurationSeconds, time - c.genesisTimestamp;
    assert e / d * d <= e < e / d * d + d;
    if e / d < n {
      assert n * d >= (e / d + 1) * d;
    } else if e / d > n {
      assert (n + 1) * d <= e / d * d;
    }
    assert (n + 1) * d == n * d + d;
  }

  lemma EpochNumberMonotone(c: Config, t: nat, u: nat)
    requires t <= u
    ensures EpochNumber(c, t) <= EpochNumber(c, u)
  {
    if t >= c.genesisTimestamp {
      var d, x, y := c.epochDurationSeconds, t - c.genesisTimestamp, u - c.genesisTimestamp;
      assert x / d * d <= x <= y < y / d * d + d;
      Cancel(x / d, y / d + 1, d);
    }
  }

  lemma Cancel(x: nat, y: nat, d: nat)
    requires x * d < y * d
    ensures x < y
  {
  }

  // ---- The tracker's state machine ----

  datatype EpochData = EpochData(
    epochNumber: nat,
    preconfer: nat,
    startTime: nat,
    endTime: Option<nat>,
    revenue: int,
    blockCount: nat,
    startBlock: nat,
    endBlock: nat,
    gasUsed: nat,
    txCount: nat)

  /** An epoch that has ended, and whether its save succeeded; if not, the epoch is lost. */
  datatype Ended = Ended(epoch: EpochData, saved: bool)

  datatype State = State(ended: seq<Ended>, current: Option<EpochData>)

  /** A block added to an epoch, and whether a save would succeed while it is handled. */
  datatype Step = Step(block: Block, saves: bool)

  predicate IsNewEpoch(c: Config, s: State, b: Block) {
    s.current.None? || EpochNumber(c, b.time) > s.current.value.epochNumber
  }

  /** A failed save keeps the epoch current; starting the next one then drops it. */
  function End(s: State, time: nat, saves: bool): State {
    if s.current.None? then s
    else
      var e := s.current.value.(endTime := Some(time));
      State(s.ended + [Ended(e, saves)], if saves then None else Some(e))
  }

  function NewEpoch(c: Config, current: Option<EpochData>, b: Block): EpochData {
    var n := EpochNumber(c, b.time);
    var startBlock := if current.Some? then current.value.endBlock + 1 else b.number;
    EpochData(n, b.coinbase, EpochStart(c, n), None, 0, 0, startBlock, b.number, 0, 0)
  }

  function AddBlock(e: EpochData, b: Block): EpochData {
    e.(revenue := e.revenue + Revenue(b),
       blockCount := e.blockCount + 1,
       endBlock := b.number,
       gasUsed := Wrap(e.gasUsed + GasUsed(b)),
       txCount := e.txCount + |b.txs|)
  }

  function Track(c: Config, s: State, step: Step): (r: State)
    ensures r.current.Some?
  {
    var b := step.block;
    if IsNewEpoch(c, s, b) then
      var ended := End(s, b.time, step.saves);
      ended.(current := Some(AddBlock(NewEpoch(c, ended.current, b), b)))
    else s.(current := Some(AddBlock(s.current.value, b)))
  }

  function Run(c: Config, steps: seq<Step>): (s: State)
    ensures s.current.Some? <==> steps != []
  {
    if steps == [] then State([], None)
    else Track(c, Run(c, steps[..|steps| - 1]), steps[|steps| - 1])
  }

  function Blocks(steps: seq<Step>): (bs: seq<Block>)
    ensures |bs| == |steps| && forall i :: 0 <= i < |bs| ==> bs[i] == steps[i].block
  {
    seq(|steps|, i requires 0 <= i < |steps| => steps[i].block)
  }

  // ---- Sums over blocks ----

  function SumRevenue(bs: seq<Block>): int {
    if bs == [] then 0 else SumRevenue(bs[..|bs| - 1]) + Revenue(bs[|bs| - 1])
  }

  function SumGas(bs: seq<Block>): nat {
    if bs == [] then 0 else SumGas(bs[..|bs| - 1]) + GasUsed(bs[|bs| - 1])
  }

  function SumTxs(bs: seq<Block>): nat {
    if bs == [] then 0 else SumTxs(bs[..|bs| - 1]) + |bs[|bs| - 1].txs|
  }

  // ---- The grouping that the epochs stand for ----

  /** The highest epoch number among the blocks, -1 if there are none. */
  function Latest(c: Config, bs: seq<Block>): int {
    if bs == [] then -1
    else
      var n := EpochNumber(c, bs[|bs| - 1].time);
      if n > Latest(c, bs[..|bs| - 1]) then n else Latest(c, bs[..|bs| - 1])
  }

  /** The blocks cut before each one whose epoch is later than every epoch seen so far. */
  function Groups(c: Config, bs: seq<Block>): (gs: seq<seq<Block>>)
    ensures |gs| > 0 <==> bs != []
    ensures forall k :: 0 <= k < |gs| ==> gs[k] != []
  {
    if bs == [] then []
    else
      var init, b := bs[..|bs| - 1], bs[|bs| - 1];
      var gs := Groups(c, init);
      if EpochNumber(c, b.time) > Latest(c, init) then gs + [[b]]
      else gs[|gs| - 1 := gs[|gs| - 1] + [b]]
  }

  function Concat(gs: seq<seq<Block>>): seq<Block> {
    if gs == [] then [] else Concat(gs[..|gs| - 1]) + gs[|gs| - 1]
  }

  /** The groups are the blocks, each once and in order. */
  lemma {:induction false} GroupsPartition(c: Config, bs: seq<Block>)
    ensures Concat(Groups(c, bs)) == bs
  {
    if bs == [] {
      NoBlocks(c, bs);
    } else {
      var init, b := bs[..|bs| - 1], bs[|bs| - 1];
      GroupsPartition(c, init);
      AnotherBlock(c, bs, init, b);
    }
  }

  lemma NoBlocks(c: Config, bs: seq<Block>)
    requires bs == []
    ensures Concat(Groups(c, bs)) == bs
  {
  }

  lemma AnotherBlock(c: Config, bs: seq<Block>, init: seq<Block>, b: Block)
    requires bs == init + [b] && Concat(Groups(c, init)) == init
    ensures Concat(Groups(c, bs)) == bs
  {
    assert bs[..|bs| - 1] == init;
    ConcatSnoc(Groups(c, init), [b]);
    if init != [] {
      ConcatJoined(Groups(c, init), b);
    }
  }

  lemma ConcatJoined(gs: seq<seq<Block>>, b: Block)
    requires gs != []
    ensures Concat(gs[|gs| - 1 := gs[|gs| - 1] + [b]]) == Concat(gs) + [b]
  {
    var n := |gs| - 1;
    assert gs[n := gs[n] + [b]] == gs[..n] + [gs[n] + [b]] && gs == gs[..n] + [gs[n]];
    ConcatSnoc(gs[..n], gs[n] + [b]);
    ConcatSnoc(gs[..n], gs[n]);
  }

  lemma ConcatSnoc(gs: seq<seq<Block>>, g: seq<Block>)
    ensures Concat(gs + [g]) == Concat(gs) + g
  {
    assert (gs + [g])[..|gs|] == gs;
  }

  /** Group by group the epoch numbers of first blocks increase; no block of a group is in a later epoch
      than its first. */
  ghost predicate Graded(c: Config, gs: seq<seq<Block>>) {
    && (forall k :: 0 <= k < |gs| ==> gs[k] != [])
    && (forall j, k :: 0 <= j < k < |gs| ==> EpochNumber(c, gs[j][0].time) < EpochNumber(c, gs[k][0].time))
    && (forall k, b :: 0 <= k < |gs| && b in gs[k] ==> EpochNumber(c, b.time) <= EpochNumber(c, gs[k][0].time))
  }

  lemma {:induction false} GroupsGraded(c: Config, bs: seq<Block>)
    ensures Graded(c, Groups(c, bs))
    ensures bs != [] ==> Latest(c, bs) == LastFirst(c, Groups(c, bs))
  {
    if bs != [] {
      var init, b := bs[..|bs| - 1], bs[|bs| - 1];
      GroupsGraded(c, init);
      GradedMore(c, Groups(c, init), b);
      if init == [] {
        assert Groups(c, bs) == [] + [[b]];
      }
    }
  }

  /** The epoch number of the last group's first block. */
  function LastFirst(c: Config, gs: seq<seq<Block>>): int
    requires gs != [] && gs[|gs| - 1] != []
  {
    EpochNumber(c, gs[|gs| - 1][0].time)
  }

  lemma GradedMore(c: Config, gs: seq<seq<Block>>, b: Block)
    requires Graded(c, gs)
    ensures gs == [] || EpochNumber(c, b.time) > LastFirst(c, gs) ==> Graded(c, gs + [[b]])
    ensures gs != [] && EpochNumber(c, b.time) <= LastFirst(c, gs) ==> Graded(c, gs[|gs| - 1 := gs[|gs| - 1] + [b]])
  {
  }

  // ---- The epochs summarise the groups ----

  /** Epoch `k` of a run: the ended ones, then the current one. */
  function Epoch(s: State, k: nat): EpochData
    requires k < |s.ended| || (k == |s.ended| && s.current.Some?)
  {
    if k < |s.ended| then s.ended[k].epoch else s.current.value
  }

  predicate Summarises(c: Config, e: EpochData, g: seq<Block>)
    requires g != []
  {
    && e.epochNumber == EpochNumber(c, g[0].time)
    && e.preconfer == g[0].coinbase
    && e.startTime == EpochStart(c, e.epochNumber)
    && e.revenue == SumRevenue(g)
    && e.blockCount == |g|
    && e.endBlock == g[|g| - 1].number
    && e.gasUsed == Wrap(SumGas(g))
    && e.txCount == SumTxs(g)
  }

  /** Where an epoch says it starts: its first block, or, after a failed save, the block after the lost
      epoch's last. */
  function StartBlock(s: State, gs: seq<seq<Block>>, k: nat): nat
    requires k < |gs| && k <= |s.ended| && forall j :: 0 <= j < |gs| ==> gs[j] != []
  {
    if k == 0 || s.ended[k - 1].saved then gs[k][0].number else gs[k - 1][|gs[k - 1]| - 1].number + 1
  }

  ghost predicate Follows(c: Config, s: State, gs: seq<seq<Block>>) {
    && (forall k :: 0 <= k < |gs| ==> gs[k] != [])
    && |gs| == |s.ended| + (if s.current.Some? then 1 else 0)
    && (s.current.None? ==> s.ended == [])
    && (forall k :: 0 <= k < |gs| ==> Summarises(c, Epoch(s, k), gs[k]))
    && (forall k :: 0 <= k < |gs| ==> Epoch(s, k).startBlock == StartBlock(s, gs, k))
    && (forall k :: 0 <= k < |s.ended| ==> s.ended[k].epoch.endTime == Some(gs[k + 1][0].time))
    && (s.current.Some? ==> s.current.value.endTime.None?)
  }

  lemma SumsSnoc(bs: seq<Block>, b: Block)
    ensures SumRevenue(bs + [b]) == SumRevenue(bs) + Revenue(b)
    ensures SumGas(bs + [b]) == SumGas(bs) + GasUsed(b)
    ensures SumTxs(bs + [b]) == SumTxs(bs) + |b.txs|
  {
    assert (bs + [b])[..|bs|] == bs;
  }

  lemma AddBlockSummarises(c: Config, e: EpochData, g: seq<Block>, b: Block)
    requires g != [] && Summarises(c, e, g)
    ensures Summarises(c, AddBlock(e, b), g + [b])
  {
    SumsSnoc(g, b);
    WrapAfterWrap(SumGas(g), GasUsed(b));
  }

  lemma NewEpochSummarises(c: Config, current: Option<EpochData>, b: Block)
    ensures Summarises(c, AddBlock(NewEpoch(c, current, b), b), [b])
  {
    SumsSnoc([], b);
    assert [] + [b] == [b];
  }

  lemma NewEpochSteps(c: Config, s: State, gs: seq<seq<Block>>, step: Step, k: nat)
    requires Follows(c, s, gs) && IsNewEpoch(c, s, step.block) && k <= |gs|
    ensures var now, hs := Track(c, s, step), gs + [[step.block]];
            && |hs| == |now.ended| + 1 && hs[k] != []
            && Summarises(c, Epoch(now, k), hs[k])
            && (k < |gs| ==> Epoch(now, k).startBlock == Epoch(s, k).startBlock)
            && (k < |gs| ==> now.ended[k].epoch.endTime == Some(hs[k + 1][0].time))
  {
    if k < |gs| {
      assert Summarises(c, Epoch(s, k), gs[k]);
    } else {
      NewEpochSummarises(c, End(s, step.block.time, step.saves).current, step.block);
    }
  }

  lemma OldStartsStay(c: Config, s: State, gs: seq<seq<Block>>, step: Step, k: nat)
    requires Follows(c, s, gs) && IsNewEpoch(c, s, step.block) && k < |gs|
    requires forall j :: 0 <= j <= |gs| ==> (gs + [[step.block]])[j] != []
    ensures var now, hs := Track(c, s, step), gs + [[step.block]];
            |hs| == |now.ended| + 1 && Epoch(now, k).startBlock == StartBlock(now, hs, k)
  {
    assert Epoch(s, k).startBlock == StartBlock(s, gs, k);
    assert Epoch(Track(c, s, step), k).startBlock == Epoch(s, k).startBlock;
  }

  lemma NewStart(c: Config, s: State, gs: seq<seq<Block>>, step: Step)
    requires Follows(c, s, gs) && IsNewEpoch(c, s, step.block)
    requires forall j :: 0 <= j <= |gs| ==> (gs + [[step.block]])[j] != []
    ensures var now, hs := Track(c, s, step), gs + [[step.block]];
            |hs| == |now.ended| + 1 && Epoch(now, |gs|).startBlock == StartBlock(now, hs, |gs|)
  {
    if gs != [] {
      assert Summarises(c, Epoch(s, |gs| - 1), gs[|gs| - 1]);
    }
  }

  lemma TrackNewEpochFollows(c: Config, s: State, gs: seq<seq<Block>>, step: Step)
    requires Follows(c, s, gs) && IsNewEpoch(c, s, step.block)
    ensures Follows(c, Track(c, s, step), gs + [[step.block]])
  {
    var now := Track(c, s, step);
    var hs: seq<seq<Block>> := gs + [[step.block]];
    forall k | 0 <= k < |hs| ensures hs[k] != [] && Summarises(c, Epoch(now, k), hs[k]) {
      NewEpochSteps(c, s, gs, step, k);
    }
    forall k | 0 <= k < |hs| ensures Epoch(now, k).startBlock == StartBlock(now, hs, k) {
      if k < |gs| {
        OldStartsStay(c, s, gs, step, k);
      } else {
        NewStart(c, s, gs, step);
      }
    }
    forall k | 0 <= k < |now.ended| ensures now.ended[k].epoch.endTime == Some(hs[k + 1][0].time) {
      NewEpochSteps(c, s, gs, step, k);
    }
  }

  /** The groups once a block has joined the last of them. */
  function Joined(gs: seq<seq<Block>>, b: Block): seq<seq<Block>>
    requires gs != []
  {
    gs[|gs| - 1 := gs[|gs| - 1] + [b]]
  }

  lemma SameEpochSummaries(c: Config, s: State, gs: seq<seq<Block>>, step: Step)
    requires Follows(c, s, gs) && !IsNewEpoch(c, s, step.block)
    ensures forall k :: 0 <= k < |gs| ==>
            Joined(gs, step.block)[k] != [] && Summarises(c, Epoch(Track(c, s, step), k), Joined(gs, step.block)[k])
  {
    var n := |gs| - 1;
    forall k | 0 <= k < |gs|
      ensures Joined(gs, step.block)[k] != [] && Summarises(c, Epoch(Track(c, s, step), k), Joined(gs, step.block)[k])
    {
      assert Summarises(c, Epoch(s, k), gs[k]);
      if k == n {
        AddBlockSummarises(c, s.current.value, gs[n], step.block);
      }
    }
  }

  lemma SameEpochStarts(c: Config, s: State, gs: seq<seq<Block>>, step: Step)
    requires Follows(c, s, gs) && !IsNewEpoch(c, s, step.block)
    requires forall k :: 0 <= k < |gs| ==> Joined(gs, step.block)[k] != []
    ensures forall k :: 0 <= k < |gs| ==>
            Epoch(Track(c, s, step), k).startBlock == StartBlock(Track(c, s, step), Joined(gs, step.block), k)
  {
    forall k | 0 <= k < |gs|
      ensures Epoch(Track(c, s, step), k).startBlock == StartBlock(Track(c, s, step), Joined(gs, step.block), k)
    {
      SameStart(c, s, gs, step, k);
    }
  }

  lemma SameStart(c: Config, s: State, gs: seq<seq<Block>>, step: Step, k: nat)
    requires Follows(c, s, gs) && !IsNewEpoch(c, s, step.block) && k < |gs|
    requires forall k :: 0 <= k < |gs| ==> Joined(gs, step.block)[k] != []
    ensures |Track(c, s, step).ended| == |s.ended| && |Joined(gs, step.block)| == |gs|
    ensures Epoch(Track(c, s, step), k).startBlock == StartBlock(Track(c, s, step), Joined(gs, step.block), k)
  {
    assert Epoch(s, k).startBlock == StartBlock(s, gs, k);
    assert Joined(gs, step.block)[k][0] == gs[k][0];
    assert Epoch(Track(c, s, step), k).startBlock == Epoch(s, k).startBlock;
  }

  lemma TrackSameEpochFollows(c: Config, s: State, gs: seq<seq<Block>>, step: Step)
    requires Follows(c, s, gs) && !IsNewEpoch(c, s, step.block)
    ensures Follows(c, Track(c, s, step), Joined(gs, step.block))
  {
    SameEpochSummaries(c, s, gs, step);
    SameEpochStarts(c, s, gs, step);
  }

  /** Saved, lost and current epochs of a run summarise, in order, the groups of its blocks. */
  lemma {:induction false} RunFollowsGroups(c: Config, steps: seq<Step>)
    ensures Follows(c, Run(c, steps), Groups(c, Blocks(steps)))
  {
    if steps == [] {
      NothingFollows(c, steps);
    } else {
      var init, step := steps[..|steps| - 1], steps[|steps| - 1];
      RunFollowsGroups(c, init);
      AnotherStep(c, steps, init, step);
    }
  }

  lemma NothingFollows(c: Config, steps: seq<Step>)
    requires steps == []
    ensures Follows(c, Run(c, steps), Groups(c, Blocks(steps)))
  {
  }

  lemma AnotherStep(c: Config, steps: seq<Step>, init: seq<Step>, step: Step)
    requires steps == init + [step] && Follows(c, Run(c, init), Groups(c, Blocks(init)))
    ensures Follows(c, Run(c, steps), Groups(c, Blocks(steps)))
  {
    assert steps[..|steps| - 1] == init;
    var s, gs := Run(c, init), Groups(c, Blocks(init));
    assert Blocks(steps) == Blocks(init) + [step.block];
    GroupsWithOneMore(c, Blocks(steps), Blocks(init), step.block);
    NewEpochIff(c, s, Blocks(init), step.block);
    if IsNewEpoch(c, s, step.block) {
      TrackNewEpochFollows(c, s, gs, step);
    } else {
      TrackSameEpochFollows(c, s, gs, step);
    }
  }

  lemma GroupsWithOneMore(c: Config, bs: seq<Block>, init: seq<Block>, b: Block)
    requires bs == init + [b]
    ensures EpochNumber(c, b.time) > Latest(c, init) ==> Groups(c, bs) == Groups(c, init) + [[b]]
    ensures EpochNumber(c, b.time) <= Latest(c, init) ==>
            Groups(c, init) != [] && Groups(c, bs) == Joined(Groups(c, init), b)
  {
    assert bs[..|bs| - 1] == init;
  }

  /** The tracker starts an epoch just where a group starts. */
  lemma NewEpochIff(c: Config, s: State, bs: seq<Block>, b: Block)
    requires Follows(c, s, Groups(c, bs))
    ensures IsNewEpoch(c, s, b) <==> EpochNumber(c, b.time) > Latest(c, bs)
  {
    GroupsGraded(c, bs);
    if bs != [] {
      var gs := Groups(c, bs);
      assert Summarises(c, Epoch(s, |gs| - 1), gs[|gs| - 1]);
    }
  }

  lemma EpochNumbersIncrease(c: Config, steps: seq<Step>, j: nat, k: nat)
    requires steps != [] && j < k <= |Run(c, steps).ended|
    ensures Epoch(Run(c, steps), j).epochNumber < Epoch(Run(c, steps), k).epochNumber
  {
    RunFollowsGroups(c, steps);
    GroupsGraded(c, Blocks(steps));
    var s, gs := Run(c, steps), Groups(c, Blocks(steps));
    assert Summarises(c, Epoch(s, j), gs[j]) && Summarises(c, Epoch(s, k), gs[k]);
  }
}
