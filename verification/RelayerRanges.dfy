/** The block ranges the relayer's indexer asks for, when following the chain and when crawling back. */
module RelayerRanges {
  import opened Integers
  import opened Options
  import opened BlockRanges

  datatype WatchMode = Filter | Subscribe | FilterAndSubscribe | CrawlPastBlocks

  datatype SyncMode = Sync | Resync | OtherMode

  datatype Settings = Settings(
    watchMode: WatchMode,
    syncMode: SyncMode,
    numLatestBlocksStartWhenCrawling: nat,
    numLatestBlocksEndWhenCrawling: nat,
    blockBatchSize: nat,
    targetBlockNumber: Option<nat>)

  /** What the contracts and the database answer when the starting block is looked up: the genesis height by
      the first contract version that answers, and the latest block stored (0 for none). */
  datatype StartAnswers = StartAnswers(hasTaikoL1: bool, genesisHeights: seq<Option<nat>>, latestStored: Option<nat>)

  // ---- The window of one pass ----

  function FirstAnswer(answers: seq<Option<nat>>): Option<nat> {
    if answers == [] then None else if answers[0].Some? then answers[0] else FirstAnswer(answers[1..])
  }

  function InitialBlock(mode: SyncMode, a: StartAnswers): Option<nat> {
    var genesis := if a.hasTaikoL1 then FirstAnswer(a.genesisHeights) else None;
    if a.hasTaikoL1 && genesis.None? then None
    else
      var startingBlock := if a.hasTaikoL1 then Wrap(genesis.value as int - 1) else 0;
      match mode
      case Sync =>
        if a.latestStored.None? then None
        else if a.latestStored.value != 0 then Some(a.latestStored.value - 1)
        else Some(startingBlock)
      case Resync => Some(startingBlock)
      case OtherMode => None
  }

  predicate NoneAnswers(answers: seq<Option<nat>>) {
    forall i :: 0 <= i < |answers| ==> answers[i].None?
  }

  /** The genesis height is the first answer given, whatever comes after it. */
  lemma {:induction false} FirstAnswerIs(answers: seq<Option<nat>>)
    ensures FirstAnswer(answers).None? <==> NoneAnswers(answers)
    ensures forall i :: 0 <= i < |answers| && answers[i].Some? && NoneAnswers(answers[..i]) ==>
              FirstAnswer(answers) == answers[i]
  {
    if answers != [] && answers[0].None? {
      FirstAnswerIs(answers[1..]);
      forall i | 0 <= i < |answers| && answers[i].Some? && NoneAnswers(answers[..i])
        ensures FirstAnswer(answers) == answers[i]
      {
        assert answers[1..][i - 1] == answers[i];
        assert answers[1..][..i - 1] == answers[..i][1..];
      }
    }
  }

  /** Indexing starts one block before the latest one stored, when syncing and there is one; otherwise one
      before genesis, or at 0 without a contract to ask for that. It does not start in an unknown mode, where
      no contract version tells the genesis height, or where syncing finds no database. */
  lemma InitialBlockIs(mode: SyncMode, a: StartAnswers)
    ensures InitialBlock(mode, a).None?
       <==> || mode == OtherMode
            || (a.hasTaikoL1 && NoneAnswers(a.genesisHeights))
            || (mode == Sync && a.latestStored.None?)
    ensures InitialBlock(mode, a).Some? && mode == Sync && a.latestStored.value > 0 ==>
            InitialBlock(mode, a).value + 1 == a.latestStored.value
    ensures InitialBlock(mode, a).Some? && !(mode == Sync && a.latestStored.value > 0) && !a.hasTaikoL1 ==>
            InitialBlock(mode, a).value == 0
    ensures forall i ::
              && 0 <= i < |a.genesisHeights| && a.genesisHeights[i].Some? && NoneAnswers(a.genesisHeights[..i])
              && InitialBlock(mode, a).Some? && !(mode == Sync && a.latestStored.value > 0) && a.hasTaikoL1 ==>
              && InitialBlock(mode, a).value < TWO_TO_64
              && Wrap(InitialBlock(mode, a).value + 1) == Wrap(a.genesisHeights[i].value)
  {
    FirstAnswerIs(a.genesisHeights);
  }

  /** A pass asks for the blocks after `lo` up to `hi`. */
  datatype Window = Window(lo: nat, hi: nat)

  /** The window of a pass at this head; None where it ends in an error. */
  function PassWindow(s: Settings, latest: nat, head: nat, a: StartAnswers): Option<Window> {
    if s.watchMode != CrawlPastBlocks then Some(Window(latest, head))
    else if s.numLatestBlocksEndWhenCrawling > s.numLatestBlocksStartWhenCrawling then None
    else if s.targetBlockNumber.Some? then Some(Window(s.targetBlockNumber.value, s.targetBlockNumber.value + 1))
    else
      var initial := InitialBlock(s.syncMode, a);
      if initial.None? then None
      else
        var floor := Wrap(head - s.numLatestBlocksStartWhenCrawling);
        var hi := if head > s.numLatestBlocksEndWhenCrawling then head - s.numLatestBlocksEndWhenCrawling else head;
        Some(Window(if initial.value < floor then floor else initial.value, hi))
  }

  function BatchEnd(w: Window, batch: nat): nat {
    if w.lo + batch <= w.hi then w.lo + batch else w.hi
  }

  /** The ranges that batches of this size cut a window into. */
  function Batches(w: Window, batch: nat): (rs: seq<Range>)
    requires batch > 0
    decreases w.hi - w.lo
  {
    if w.lo >= w.hi then []
    else
      [Range(w.lo + 1, BatchEnd(w, batch))] + Batches(Window(BatchEnd(w, batch), w.hi), batch)
  }

  /** A window's batches tile it, none longer than a batch; a window that ends before it starts has none. */
  lemma {:induction false} BatchesTile(w: Window, batch: nat)
    requires batch > 0
    ensures Tiles(Batches(w, batch), w.lo, Max(w.lo, w.hi))
    ensures AllWithin(Batches(w, batch), batch)
    decreases w.hi - w.lo
  {
    if w.lo >= w.hi {
      NoBatches(w, batch);
    } else {
      var end := BatchEnd(w, batch);
      BatchesTile(Window(end, w.hi), batch);
      AnotherBatch([], w, batch);
      assert [] + Batches(w, batch) == Batches(w, batch);
      FirstTiles(Range(w.lo + 1, end), Batches(Window(end, w.hi), batch), w.hi, batch);
    }
  }

  lemma NoBatches(w: Window, batch: nat)
    requires batch > 0 && w.lo >= w.hi
    ensures Tiles(Batches(w, batch), w.lo, Max(w.lo, w.hi)) && AllWithin(Batches(w, batch), batch)
  {
  }

  lemma FirstTiles(r: Range, rest: seq<Range>, hi: nat, batch: nat)
    requires 0 < r.start <= r.end && r.end < r.start + batch
    requires Tiles(rest, r.end, hi) && AllWithin(rest, batch)
    ensures Tiles([] + [r] + rest, r.start - 1, hi) && AllWithin([] + [r] + rest, batch)
  {
    assert [] + [r] == [r] && [r][..0] == [];
    assert Tiles([r], r.start - 1, r.end);
    TilesConcat([r], rest, r.start - 1, r.end, hi);
  }

  lemma AnotherBatch(asked: seq<Range>, w: Window, batch: nat)
    requires batch > 0 && w.lo < w.hi
    ensures asked + Batches(w, batch)
         == asked + [Range(w.lo + 1, BatchEnd(w, batch))] + Batches(Window(BatchEnd(w, batch), w.hi), batch)
  {
  }

  // ---- Following the chain ----

  /** When not crawling, a pass asks for every block after the latest indexed one up to the head, each once. */
  lemma FollowsTheHead(s: Settings, latest: nat, head: nat, a: StartAnswers)
    requires s.watchMode != CrawlPastBlocks && s.blockBatchSize > 0
    ensures PassWindow(s, latest, head, a).Some?
    ensures var rs := Batches(PassWindow(s, latest, head, a).value, s.blockBatchSize);
            Tiles(rs, latest, Max(latest, head)) && AllWithin(rs, s.blockBatchSize)
  {
    BatchesTile(PassWindow(s, latest, head, a).value, s.blockBatchSize);
  }

  // ---- Crawling ----

  predicate Crawls(s: Settings) {
    && s.watchMode == CrawlPastBlocks
    && s.numLatestBlocksStartWhenCrawling >= s.numLatestBlocksEndWhenCrawling
    && s.targetBlockNumber.None?
  }

  /** From a head no lower than the crawl's depth, a pass tiles the blocks from that depth, or from the
      starting block if that is later, up to the newest blocks it leaves out. It leaves them out exactly when
      the head is beyond their number; otherwise it goes all the way to the head. */
  lemma CrawlWindow(s: Settings, latest: nat, head: nat, a: StartAnswers)
    requires Crawls(s) && InitialBlock(s.syncMode, a).Some? && s.blockBatchSize > 0
    requires s.numLatestBlocksStartWhenCrawling <= head < TWO_TO_64
    ensures var w := PassWindow(s, latest, head, a);
            var top := head - s.numLatestBlocksEndWhenCrawling;
            && w.Some?
            && w.value.lo == Max(InitialBlock(s.syncMode, a).value, head - s.numLatestBlocksStartWhenCrawling)
            && (w.value.hi == top <==> head > s.numLatestBlocksEndWhenCrawling || s.numLatestBlocksEndWhenCrawling == 0)
            && (w.value.hi != top ==> w.value.hi == head)
            && Tiles(Batches(w.value, s.blockBatchSize), w.value.lo, Max(w.value.lo, w.value.hi))
  {
    BatchesTile(PassWindow(s, latest, head, a).value, s.blockBatchSize);
  }

  /** With a target block a pass asks for the block after it, and for no other. */
  lemma TargetAsksForTheBlockAfter(s: Settings, latest: nat, head: nat, a: StartAnswers, target: nat)
    requires s.watchMode == CrawlPastBlocks && s.targetBlockNumber == Some(target) && s.blockBatchSize > 0
    requires s.numLatestBlocksStartWhenCrawling >= s.numLatestBlocksEndWhenCrawling
    ensures PassWindow(s, latest, head, a).Some?
    ensures Batches(PassWindow(s, latest, head, a).value, s.blockBatchSize) == [Range(target + 1, target + 1)]
  {
  }

  // ---- The indexer ----

  class Indexer {
    const settings: Settings
    const start: nat
    var latestIndexedBlockNumber: nat

    /** Every range asked for so far. */
    ghost var requested: seq<Range>

    /** When not crawling, the ranges asked for tile the blocks from the start to the latest indexed one. */
    ghost predicate Valid()
      reads this
    {
      && settings.blockBatchSize > 0
      && AllWithin(requested, settings.blockBatchSize)
      && (settings.watchMode != CrawlPastBlocks ==> Tiles(requested, start, latestIndexedBlockNumber))
    }

    constructor (settings: Settings, start: nat)
      requires settings.blockBatchSize > 0
      ensures Valid() && this.settings == settings && this.start == start
      ensures latestIndexedBlockNumber == start && requested == []
    {
      this.settings := settings;
      this.start := start;
      latestIndexedBlockNumber := start;
      requested := [];
    }

    method SetInitialIndexingBlockByMode(a: StartAnswers) returns (ok: bool)
      modifies this`latestIndexedBlockNumber
      ensures var initial := InitialBlock(settings.syncMode, a);
              && (ok <==> initial.Some?)
              && latestIndexedBlockNumber == if ok then initial.value else old(latestIndexedBlockNumber)
    {
      var startingBlock := 0;
      if a.hasTaikoL1 {
        var genesis := FirstAnswer(a.genesisHeights);
        if genesis.None? {
          return false;
        }
        startingBlock := Wrap(genesis.value as int - 1);
      }
      match settings.syncMode {
        case Sync =>
          if a.latestStored.None? {
            return false;
          }
          if a.latestStored.value != 0 {
            startingBlock := a.latestStored.value - 1;
          }
        case Resync =>
        case OtherMode =>
          return false;
      }
      latestIndexedBlockNumber := startingBlock;
      return true;
    }

    /** Works out the last block of the pass, moving the latest indexed block to where a crawl starts. */
    method PrepareWindow(head: nat, a: StartAnswers) returns (ok: bool, endBlockID: nat)
      modifies this`latestIndexedBlockNumber
      ensures var w := PassWindow(settings, old(latestIndexedBlockNumber), head, a);
              && (ok <==> w.Some?)
              && (if ok then latestIndexedBlockNumber == w.value.lo && endBlockID == w.value.hi
                  else latestIndexedBlockNumber == old(latestIndexedBlockNumber))
    {
      endBlockID := head;
      if settings.watchMode == CrawlPastBlocks {
        if settings.numLatestBlocksEndWhenCrawling > settings.numLatestBlocksStartWhenCrawling {
          return false, head;
        }
        if settings.targetBlockNumber.Some? {
          latestIndexedBlockNumber := settings.targetBlockNumber.value;
          endBlockID := latestIndexedBlockNumber + 1;
        } else {
          ok := SetInitialIndexingBlockByMode(a);
          if !ok {
            return false, head;
          }
          if latestIndexedBlockNumber < Wrap(endBlockID - settings.numLatestBlocksStartWhenCrawling) {
            latestIndexedBlockNumber := Wrap(endBlockID - settings.numLatestBlocksStartWhenCrawling);
          }
          if endBlockID > settings.numLatestBlocksEndWhenCrawling {
            endBlockID := endBlockID - settings.numLatestBlocksEndWhenCrawling;
          }
        }
      }
      return true, endBlockID;
    }

    /** A pass asks for the batches of its window and ends with the latest indexed block at the window's end,
        or changes nothing and reports an error. When not crawling and with a head, it adds ranges for just the
        blocks after the latest indexed one up to the head. */
    method FilterPass(head: Option<nat>, a: StartAnswers) returns (ok: bool)
      requires Valid()
      modifies this
      ensures Valid()
      ensures var w := if head.Some? then PassWindow(settings, old(latestIndexedBlockNumber), head.value, a) else None;
              && (ok <==> w.Some?)
              && requested == old(requested) + (if ok then Batches(w.value, settings.blockBatchSize) else [])
              && latestIndexedBlockNumber == (if ok then Max(w.value.lo, w.value.hi) else old(latestIndexedBlockNumber))
      ensures settings.watchMode != CrawlPastBlocks && head.Some? ==>
              && ok
              && latestIndexedBlockNumber == Max(old(latestIndexedBlockNumber), head.value)
              && old(requested) <= requested
              && Tiles(requested[|old(requested)|..], old(latestIndexedBlockNumber), latestIndexedBlockNumber)
              && AllWithin(requested[|old(requested)|..], settings.blockBatchSize)
    {
      if head.None? {
        return false;
      }
      var endBlockID;
      ok, endBlockID := PrepareWindow(head.value, a);
      if !ok {
        return false;
      }
      ghost var was, w := requested, Window(latestIndexedBlockNumber, endBlockID);
      RequestBatches(endBlockID);
      BatchesTile(w, settings.blockBatchSize);
      if settings.watchMode != CrawlPastBlocks {
        TilesConcat(was, Batches(w, settings.blockBatchSize), start, w.lo, latestIndexedBlockNumber);
        assert requested[|was|..] == Batches(w, settings.blockBatchSize);
      }
    }

    method RequestBatches(endBlockID: nat)
      requires settings.blockBatchSize > 0
      modifies this`latestIndexedBlockNumber, this`requested
      ensures requested
           == old(requested) + Batches(Window(old(latestIndexedBlockNumber), endBlockID), settings.blockBatchSize)
      ensures latestIndexedBlockNumber == Max(old(latestIndexedBlockNumber), endBlockID)
    {
      ghost var lo := latestIndexedBlockNumber;
      ghost var all := requested + Batches(Window(lo, endBlockID), settings.blockBatchSize);
      var j := latestIndexedBlockNumber + 1;
      while j <= endBlockID
        invariant latestIndexedBlockNumber < j
        invariant j <= endBlockID ==> j == latestIndexedBlockNumber + 1
        invariant lo <= latestIndexedBlockNumber <= Max(lo, endBlockID)
        invariant j > endBlockID ==> latestIndexedBlockNumber == Max(lo, endBlockID)
        invariant requested + Batches(Window(latestIndexedBlockNumber, endBlockID), settings.blockBatchSize) == all
        decreases endBlockID + 1 - latestIndexedBlockNumber
      {
        var end := if latestIndexedBlockNumber + settings.blockBatchSize <= endBlockID
                   then latestIndexedBlockNumber + settings.blockBatchSize else endBlockID;
        AnotherBatch(requested, Window(latestIndexedBlockNumber, endBlockID), settings.blockBatchSize);
        requested := requested + [Range(j, end)];
        latestIndexedBlockNumber := end;
        j := j + settings.blockBatchSize;
      }
    }
  }
}
