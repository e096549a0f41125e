/** The indexer's epoch tracking: polling for new blocks, with fetches and saves that may fail. */
module EpochTracker {
  import opened Integers
  import opened Options
  import opened BlockRevenue
  import opened Epochs
  import opened EpochRuns

  /** The epochs among these whose save succeeded. */
  function SavedEpochs(ended: seq<Ended>): seq<EpochData> {
    if ended == [] then []
    else
      var last := ended[|ended| - 1];
      SavedEpochs(ended[..|ended| - 1]) + (if last.saved then [last.epoch] else [])
  }

  /** They are those ended with a save that succeeded, as many as there are. */
  lemma {:induction false} SavedEpochsAre(ended: seq<Ended>)
    ensures forall e :: e in SavedEpochs(ended) <==> Ended(e, true) in ended
    ensures |SavedEpochs(ended)| == |SavedAt(ended)|
  {
    if ended == [] {
      assert SavedAt(ended) == {};
    } else {
      SavedEpochsAre(ended[..|ended| - 1]);
      LastSaved(ended);
    }
  }

  lemma LastSaved(ended: seq<Ended>)
    requires ended != []
    ensures var init, last := ended[..|ended| - 1], ended[|ended| - 1];
            && SavedAt(ended) == SavedAt(init) + (if last.saved then {|ended| - 1} else {})
            && |ended| - 1 !in SavedAt(init)
            && forall x :: x in ended <==> x in init || x == last
  {
    assert ended == ended[..|ended| - 1] + [ended[|ended| - 1]];
  }

  ghost function SavedAt(ended: seq<Ended>): set<nat> {
    set i: nat | i < |ended| && ended[i].saved
  }

  // ---- What one poll tracks ----

  /** Block `n` is handled without error. */
  predicate Handled(config: Option<Config>, fetch: nat -> Option<Block>, n: nat) {
    config.Some? && (n < config.value.preconfStartBlock || fetch(n).Some?)
  }

  /** Block `n` is handled and added to an epoch. */
  predicate Tracks(config: Option<Config>, fetch: nat -> Option<Block>, n: nat) {
    config.Some? && n >= config.value.preconfStartBlock && fetch(n).Some?
  }

  function TrackedAt(config: Option<Config>, fetch: nat -> Option<Block>, saves: bool, n: nat): seq<Step> {
    if Tracks(config, fetch, n) then [Step(fetch(n).value, saves)] else []
  }

  /** The blocks after `lo` and up to `hi` that are tracked, in order. */
  function Tracked(
    config: Option<Config>, fetch: nat -> Option<Block>, saves: nat -> bool, lo: nat, hi: nat): seq<Step>
  {
    if hi <= lo then []
    else Tracked(config, fetch, saves, lo, hi - 1) + TrackedAt(config, fetch, saves(hi), hi)
  }

  /** Just the blocks that can be fetched, from the start of preconfirmation on. */
  lemma {:induction false} TrackedAre(
    config: Option<Config>, fetch: nat -> Option<Block>, saves: nat -> bool, lo: nat, hi: nat, step: Step)
    ensures step in Tracked(config, fetch, saves, lo, hi)
       <==> exists n :: lo < n <= hi && Tracks(config, fetch, n) && step == Step(fetch(n).value, saves(n))
  {
    if hi > lo {
      TrackedAre(config, fetch, saves, lo, hi - 1, step);
    }
  }

  /** The last number after `lo` and up to `hi` that is handled without error; `lo` if there is none. */
  function LastHandled(config: Option<Config>, fetch: nat -> Option<Block>, lo: nat, hi: nat): nat {
    if hi <= lo then lo
    else if Handled(config, fetch, hi) then hi
    else LastHandled(config, fetch, lo, hi - 1)
  }

  ghost predicate FetchesByNumber(fetch: nat -> Option<Block>) {
    forall n :: fetch(n).Some? ==> fetch(n).value.number == n
  }

  class Indexer {
    const srcChainID: nat
    var currentEpoch: Option<EpochData>
    var lastProcessedBlock: nat
    var saved: seq<EpochData>

    ghost var steps: seq<Step>

    /** The tracker is where its blocks took it, and each block it added has a higher number than the one
        before. */
    ghost predicate Consistent()
      reads this
    {
      var config := GetNetworkConfig(srcChainID);
      && (config.None? ==> steps == [])
      && At(if config.Some? then Run(config.value, steps) else State([], None))
      && (forall step :: step in steps ==> config.Some? && step.block.number >= config.value.preconfStartBlock)
      && Increasing(Blocks(steps))
    }

    /** The last block added is the last one processed. */
    ghost predicate Valid()
      reads this
    {
      Consistent() && (steps != [] ==> steps[|steps| - 1].block.number == lastProcessedBlock)
    }

    ghost predicate At(s: State)
      reads this
    {
      currentEpoch == s.current && saved == SavedEpochs(s.ended)
    }

    constructor (chainID: nat, startingBlock: nat)
      ensures Valid() && steps == [] && srcChainID == chainID && lastProcessedBlock == startingBlock
    {
      srcChainID := chainID;
      lastProcessedBlock := startingBlock;
      currentEpoch := None;
      saved := [];
      steps := [];
    }

    method IsNewEpochForBlock(b: Block, c: Config) returns (isNew: bool)
      ensures isNew == IsNewEpoch(c, State([], currentEpoch), b)
    {
      if currentEpoch.None? {
        return true;
      }
      return EpochNumber(c, b.time) > currentEpoch.value.epochNumber;
    }

    method EndCurrentEpoch(time: nat, saves: bool, ghost s: State)
      requires At(s)
      modifies this`currentEpoch, this`saved
      ensures At(End(s, time, saves))
    {
      if currentEpoch.None? {
        return;
      }
      currentEpoch := Some(currentEpoch.value.(endTime := Some(time)));
      ghost var ended := End(s, time, saves).ended;
      assert ended[..|s.ended|] == s.ended;
      if !saves {
        return;
      }
      saved := saved + [currentEpoch.value];
      currentEpoch := None;
    }

    method StartNewEpochForBlock(b: Block, c: Config)
      modifies this`currentEpoch
      ensures currentEpoch == Some(NewEpoch(c, old(currentEpoch), b))
    {
      var epochNumber := EpochNumber(c, b.time);
      var actualEpochStartTime := EpochStart(c, epochNumber);
      var actualStartBlock := b.number;
      if currentEpoch.Some? {
        actualStartBlock := currentEpoch.value.endBlock + 1;
      }
      currentEpoch := Some(EpochData(epochNumber, b.coinbase, actualEpochStartTime, None, 0, 0,
                                     actualStartBlock, b.number, 0, 0));
    }

    method AddL2BlockToEpoch(b: Block) returns (ok: bool)
      modifies this`currentEpoch
      ensures ok <==> old(currentEpoch).Some?
      ensures currentEpoch == if ok then Some(AddBlock(old(currentEpoch).value, b)) else old(currentEpoch)
    {
      if currentEpoch.None? {
        return false;
      }
      var blockRevenue, gasUsed := CalculateBlockRevenueEfficient(b);
      var e := currentEpoch.value;
      e := e.(revenue := e.revenue + blockRevenue);
      e := e.(blockCount := e.blockCount + 1, endBlock := b.number);
      e := e.(gasUsed := Wrap(e.gasUsed + gasUsed), txCount := e.txCount + |b.txs|);
      currentEpoch := Some(e);
      return true;
    }

    /** The block goes through the tracker's state machine, whether or not the epoch it ends can be
        saved. */
    method TrackBlock(b: Block, c: Config, saves: bool, ghost s: State) returns (ok: bool)
      requires At(s)
      modifies this`currentEpoch, this`saved
      ensures ok && At(Track(c, s, Step(b, saves)))
    {
      var isNew := IsNewEpochForBlock(b, c);
      if isNew {
        EndCurrentEpoch(b.time, saves, s);
        StartNewEpochForBlock(b, c);
      }
      ok := AddL2BlockToEpoch(b);
    }

    /** Handles block `n`: an error on an unsupported chain or a failed fetch, which change nothing; else the
        block is tracked, unless it precedes preconfirmation. */
    method TrackL2BlockForEpoch(n: nat, fetch: nat -> Option<Block>, saves: bool) returns (ok: bool)
      requires Valid() && FetchesByNumber(fetch) && n > lastProcessedBlock
      modifies this`currentEpoch, this`saved, this`steps
      ensures Consistent()
      ensures var config := GetNetworkConfig(srcChainID);
              && (ok <==> Handled(config, fetch, n))
              && (if Tracks(config, fetch, n) then steps == old(steps) + [Step(fetch(n).value, saves)]
                  else steps == old(steps) && saved == old(saved) && currentEpoch == old(currentEpoch))
    {
      var config := GetNetworkConfig(srcChainID);
      if config.None? {
        return false;
      }
      var c := config.value;
      if n < c.preconfStartBlock {
        return true;
      }
      var block := fetch(n);
      if block.None? {
        return false;
      }
      ok := TrackBlock(block.value, c, saves, Run(c, steps));
      IncreasingSnoc(steps, Step(block.value, saves));
      steps := steps + [Step(block.value, saves)];
    }

    method PollBlock(n: nat, fetch: nat -> Option<Block>, saves: bool)
      requires Valid() && FetchesByNumber(fetch) && n > lastProcessedBlock
      modifies this
      ensures Valid()
      ensures var config := GetNetworkConfig(srcChainID);
              && lastProcessedBlock == (if Handled(config, fetch, n) then n else old(lastProcessedBlock))
              && steps == old(steps) + TrackedAt(config, fetch, saves, n)
    {
      assert steps != [] ==> steps[|steps| - 1] in steps;
      var handled := TrackL2BlockForEpoch(n, fetch, saves);
      if handled {
        lastProcessedBlock := n;
      }
    }

    /** The blocks after `lo` and up to `hi` have been handled since the steps were `was`. */
    ghost predicate Polled(
      fetch: nat -> Option<Block>, saves: nat -> bool, lo: nat, hi: nat, was: seq<Step>)
      reads this
    {
      && steps == was + Tracked(GetNetworkConfig(srcChainID), fetch, saves, lo, hi)
      && lastProcessedBlock == LastHandled(GetNetworkConfig(srcChainID), fetch, lo, hi)
    }

    method PollNext(n: nat, fetch: nat -> Option<Block>, saves: nat -> bool, ghost lo: nat, ghost was: seq<Step>)
      requires Valid() && FetchesByNumber(fetch) && n > lastProcessedBlock && n > lo
      requires Polled(fetch, saves, lo, n - 1, was)
      modifies this
      ensures Valid() && Polled(fetch, saves, lo, n, was) && lastProcessedBlock <= n
    {
      PolledNext(GetNetworkConfig(srcChainID), fetch, saves, lo, n, was);
      PollBlock(n, fetch, saves(n));
    }

    /** A poll tracks exactly the blocks past the last processed one that can be fetched, in order; a failed
        fetch skips its block, for good once a later block is handled. */
    method ProcessNewL2Blocks(latest: Option<nat>, fetch: nat -> Option<Block>, saves: nat -> bool) returns (ok: bool)
      requires Valid() && FetchesByNumber(fetch)
      modifies this
      ensures Valid()
      ensures ok <==> latest.Some?
      ensures var lo := old(lastProcessedBlock);
              var hi := if latest.Some? && latest.value > lo then latest.value else lo;
              Polled(fetch, saves, lo, hi, old(steps))
    {
      if latest.None? {
        return false;
      }
      ghost var lo := lastProcessedBlock;
      ghost var was := steps;
      var blockNum := lastProcessedBlock + 1;
      while blockNum <= latest.value
        invariant Valid()
        invariant lo < blockNum && lastProcessedBlock < blockNum
        invariant blockNum == lo + 1 || blockNum <= latest.value + 1
        invariant Polled(fetch, saves, lo, blockNum - 1, was)
      {
        PollNext(blockNum, fetch, saves, lo, was);
        blockNum := blockNum + 1;
      }
      return true;
    }
  }

  lemma PolledNext(
    config: Option<Config>, fetch: nat -> Option<Block>, saves: nat -> bool, lo: nat, n: nat, was: seq<Step>)
    requires n > lo
    ensures was + Tracked(config, fetch, saves, lo, n)
         == was + Tracked(config, fetch, saves, lo, n - 1) + TrackedAt(config, fetch, saves(n), n)
    ensures LastHandled(config, fetch, lo, n)
         == if Handled(config, fetch, n) then n else LastHandled(config, fetch, lo, n - 1)
  {
  }

  lemma IncreasingSnoc(steps: seq<Step>, step: Step)
    requires Increasing(Blocks(steps))
    requires steps != [] ==> steps[|steps| - 1].block.number < step.block.number
    ensures Increasing(Blocks(steps + [step])) && (steps + [step])[..|steps|] == steps
  {
    var bs := Blocks(steps);
    assert Blocks(steps + [step]) == bs + [step.block];
    if steps != [] {
      assert forall i :: 0 <= i < |bs| ==> bs[i].number <= bs[|bs| - 1].number;
    }
  }

  // ---- Over many polls ----

  /** A valid indexer has added no block twice, and none beyond the last processed one. */
  lemma NoBlockTwice(x: Indexer, i: nat, j: nat)
    requires x.Valid() && i < j < |x.steps|
    ensures x.steps[i].block.number < x.steps[j].block.number <= x.lastProcessedBlock
  {
    var bs := Blocks(x.steps);
    assert bs[i].number < bs[j].number;
    assert j < |bs| - 1 ==> bs[j].number < bs[|bs| - 1].number;
  }

  /** Every block after `lo` and up to the last handled one could be fetched. */
  ghost predicate NoFetchMissed(config: Option<Config>, fetch: nat -> Option<Block>, lo: nat, hi: nat) {
    forall n :: lo < n <= LastHandled(config, fetch, lo, hi) ==> fetch(n).Some?
  }

  lemma {:induction false} LastHandledBounds(config: Option<Config>, fetch: nat -> Option<Block>, lo: nat, hi: nat)
    ensures lo <= LastHandled(config, fetch, lo, hi) && (lo <= hi ==> LastHandled(config, fetch, lo, hi) <= hi)
    ensures forall n :: LastHandled(config, fetch, lo, hi) < n <= hi ==> !Handled(config, fetch, n)
  {
    if lo < hi {
      LastHandledBounds(config, fetch, lo, hi - 1);
    }
  }

  /** A poll adds as many blocks as it moves the last processed number exactly when no fetch before the last
      good one failed; otherwise it adds fewer. */
  lemma {:induction false} TrackedCount(
    config: Option<Config>, fetch: nat -> Option<Block>, saves: nat -> bool, lo: nat, hi: nat)
    requires config.Some? ==> lo + 1 >= config.value.preconfStartBlock
    ensures |Tracked(config, fetch, saves, lo, hi)| <= LastHandled(config, fetch, lo, hi) - lo
    ensures |Tracked(config, fetch, saves, lo, hi)| == LastHandled(config, fetch, lo, hi) - lo
       <==> NoFetchMissed(config, fetch, lo, hi)
  {
    LastHandledBounds(config, fetch, lo, hi);
    if lo < hi {
      TrackedCount(config, fetch, saves, lo, hi - 1);
      LastHandledBounds(config, fetch, lo, hi - 1);
      if Handled(config, fetch, hi) {
        CountWhenHandled(config, fetch, saves, lo, hi);
      }
    }
  }

  lemma CountWhenHandled(
    config: Option<Config>, fetch: nat -> Option<Block>, saves: nat -> bool, lo: nat, hi: nat)
    requires lo < hi && Handled(config, fetch, hi) && lo + 1 >= config.value.preconfStartBlock
    requires var last, n := LastHandled(config, fetch, lo, hi - 1), |Tracked(config, fetch, saves, lo, hi - 1)|;
             n <= last - lo && (n == last - lo <==> NoFetchMissed(config, fetch, lo, hi - 1))
    ensures |Tracked(config, fetch, saves, lo, hi)| == hi - lo <==> NoFetchMissed(config, fetch, lo, hi)
  {
    LastHandledBounds(config, fetch, lo, hi - 1);
    var last := LastHandled(config, fetch, lo, hi - 1);
    assert last < hi - 1 ==> !Handled(config, fetch, last + 1);
  }

  /** While the blocks added are consecutive, a poll keeps them so exactly when none of its fetches before
      the last good one failed. */
  lemma ConsecutiveAfterPoll(
    was: seq<Step>, config: Option<Config>, fetch: nat -> Option<Block>, saves: nat -> bool, lo: nat, hi: nat)
    requires config.Some? && lo >= config.value.preconfStartBlock
    requires was != [] && was[|was| - 1].block.number == lo && Consecutive(Blocks(was))
    requires var steps := was + Tracked(config, fetch, saves, lo, hi);
             && Increasing(Blocks(steps))
             && steps[|steps| - 1].block.number == LastHandled(config, fetch, lo, hi)
    ensures Consecutive(Blocks(was + Tracked(config, fetch, saves, lo, hi)))
       <==> NoFetchMissed(config, fetch, lo, hi)
  {
    var steps := was + Tracked(config, fetch, saves, lo, hi);
    var bs := Blocks(steps);
    assert Blocks(was)[|was| - 1].number == was[0].block.number + (|was| - 1);
    TrackedCount(config, fetch, saves, lo, hi);
    if |bs| == Last(bs).number - bs[0].number + 1 {
      TightIsConsecutive(bs);
    }
    if Consecutive(bs) {
      assert bs[|bs| - 1].number == bs[0].number + (|bs| - 1);
    }
  }
}
