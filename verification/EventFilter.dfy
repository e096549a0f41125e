/** The event indexer's filtering loop: batches that stop at an error, and cuts at fork heights. */
module EventFilter {
  import opened Options
  import opened BlockRanges

  datatype Settings = Settings(
    blockBatchSize: nat, ontakeForkHeight: nat, pacayaForkHeight: nat, hasTaikoL1: bool)

  /** Which contracts' events a range is filtered for. */
  datatype FilterKind = Genesis | Ontake | Pacaya

  datatype Call = Call(range: Range, kind: FilterKind)

  datatype State = State(latest: nat, postOntake: bool, postPacaya: bool)

  /** What one pass does: where it ends, the ranges whose filter succeeded, all calls with the contracts they
      are for, and the last of them if it failed. */
  datatype Pass = Pass(state: State, filtered: seq<Range>, calls: seq<Call>, failed: Option<Call>)

  // ---- One batch ----

  predicate CutsAtPacaya(s: Settings, st: State, end: nat) {
    !st.postPacaya && s.hasTaikoL1 && st.latest < s.pacayaForkHeight < end
  }

  predicate CutsAtOntake(s: Settings, st: State, end: nat) {
    !st.postOntake && s.hasTaikoL1 && st.latest < s.ontakeForkHeight < end
  }

  function FullEnd(s: Settings, j: nat, endBlockID: nat): int {
    if j + s.blockBatchSize - 1 <= endBlockID then j + s.blockBatchSize - 1 else endBlockID
  }

  /** The batch from `j` is cut short of a fork. */
  predicate Cut(s: Settings, st: State, j: nat, endBlockID: nat)
    requires j > 0
  {
    CutsAtPacaya(s, st, FullEnd(s, j, endBlockID)) || CutsAtOntake(s, st, FullEnd(s, j, endBlockID))
  }

  /** The fork flags after the batch from `j` is set up; only a cut changes them. */
  function Flagged(s: Settings, st: State, j: nat, endBlockID: nat): State
    requires j > 0
  {
    var end := FullEnd(s, j, endBlockID);
    if CutsAtPacaya(s, st, end) then st.(postPacaya := true)
    else if CutsAtOntake(s, st, end) then st.(postOntake := true)
    else st
  }

  function BatchEnd(s: Settings, st: State, j: nat, endBlockID: nat): nat
    requires j > 0
  {
    var end := FullEnd(s, j, endBlockID);
    if CutsAtPacaya(s, st, end) then s.pacayaForkHeight - 1
    else if CutsAtOntake(s, st, end) then s.ontakeForkHeight - 1
    else end
  }

  function KindFor(st: State): FilterKind {
    if st.postPacaya then Pacaya else if st.postOntake then Ontake else Genesis
  }

  function CallFor(s: Settings, st: State, j: nat, endBlockID: nat): Call
    requires j > 0
  {
    Call(Range(j, BatchEnd(s, st, j, endBlockID)), KindFor(Flagged(s, st, j, endBlockID)))
  }

  // ---- The fork a block belongs to ----

  function ForkOf(s: Settings, n: nat): FilterKind {
    if n >= s.pacayaForkHeight then Pacaya else if n >= s.ontakeForkHeight then Ontake else Genesis
  }

  /** Every block of the range is filtered for its own fork's events. */
  ghost predicate Belongs(s: Settings, call: Call) {
    forall n :: InRange(n, call.range) ==> ForkOf(s, n) == call.kind
  }

  /** The flag says whether the range starts at the fork or after it, and the fork is not inside the range. */
  predicate FlagFits(fork: nat, flag: bool, r: Range) {
    flag == (r.start >= fork) && !(r.start < fork <= r.end)
  }

  /** A range without blocks fits; otherwise the flags fit it, Ontake's only where Pacaya's is not set. */
  predicate Fits(s: Settings, st: State, r: Range) {
    || r.end < r.start
    || (FlagFits(s.pacayaForkHeight, st.postPacaya, r)
        && (st.postPacaya || FlagFits(s.ontakeForkHeight, st.postOntake, r)))
  }

  /** A range is filtered for its own fork exactly when the flags fit it. */
  lemma BelongsIff(s: Settings, st: State, r: Range)
    ensures Belongs(s, Call(r, KindFor(st))) <==> Fits(s, st, r)
  {
    if r.start <= r.end && Belongs(s, Call(r, KindFor(st))) {
      assert InRange(r.start, r) && InRange(r.end, r);
    }
  }

  /** A cut range ends just before its fork and is filtered for a later fork's events: it goes wrong unless
      it is empty, or past Pacaya anyway. */
  lemma CutRangeIsFilteredForTheNextFork(s: Settings, st: State, j: nat, endBlockID: nat)
    requires j > 0 && Cut(s, st, j, endBlockID)
    ensures var call := CallFor(s, st, j, endBlockID);
            && (call.range.end == s.pacayaForkHeight - 1 || call.range.end == s.ontakeForkHeight - 1)
            && (CutsAtPacaya(s, st, FullEnd(s, j, endBlockID)) ==> call.kind == Pacaya)
            && call.kind != Genesis
            && call.range.end < FullEnd(s, j, endBlockID)
            && (Belongs(s, call) <==> call.range.end < j || (st.postPacaya && j >= s.pacayaForkHeight))
  {
    BelongsIff(s, Flagged(s, st, j, endBlockID), CallFor(s, st, j, endBlockID).range);
  }

  /** A range whose last block is the first of a fork not yet flagged is not cut, and goes wrong too. */
  lemma RangeEndingAtAForkIsMisfiltered(s: Settings, st: State, j: nat, endBlockID: nat)
    requires 0 < j <= endBlockID && s.blockBatchSize > 0 && !Cut(s, st, j, endBlockID) && !st.postPacaya
    requires FullEnd(s, j, endBlockID) == s.pacayaForkHeight
          || (FullEnd(s, j, endBlockID) == s.ontakeForkHeight && !st.postOntake)
    ensures !Belongs(s, CallFor(s, st, j, endBlockID))
  {
    BelongsIff(s, st, CallFor(s, st, j, endBlockID).range);
  }

  // ---- One pass ----

  /** From the batch at `j` to the end of the pass. */
  function PassFrom(s: Settings, st: State, j: nat, endBlockID: nat, works: Call -> bool): Pass
    requires s.blockBatchSize > 0 && j > 0
    decreases endBlockID + 1 - j
  {
    if j > endBlockID then Pass(st, [], [], None)
    else
      var flagged, call := Flagged(s, st, j, endBlockID), CallFor(s, st, j, endBlockID);
      if !works(call) then Pass(flagged, [], [call], Some(call))
      else
        Prefixed([call.range], [call],
          PassFrom(s, flagged.(latest := call.range.end), j + s.blockBatchSize, endBlockID, works))
  }

  lemma NextBatch(s: Settings, st: State, j: nat, endBlockID: nat, works: Call -> bool)
    requires s.blockBatchSize > 0 && 0 < j <= endBlockID
    ensures var flagged, call := Flagged(s, st, j, endBlockID), CallFor(s, st, j, endBlockID);
            PassFrom(s, st, j, endBlockID, works) ==
            if !works(call) then Pass(flagged, [], [call], Some(call))
            else Prefixed([call.range], [call],
                   PassFrom(s, flagged.(latest := call.range.end), j + s.blockBatchSize, endBlockID, works))
  {
  }

  function Prefixed(rs: seq<Range>, calls: seq<Call>, pass: Pass): Pass {
    pass.(filtered := rs + pass.filtered, calls := calls + pass.calls)
  }

  lemma PrefixedSnoc(rs: seq<Range>, calls: seq<Call>, call: Call, pass: Pass)
    ensures Prefixed(rs, calls, Prefixed([call.range], [call], pass))
         == Prefixed(rs + [call.range], calls + [call], pass)
  {
    assert rs + ([call.range] + pass.filtered) == rs + [call.range] + pass.filtered;
    assert calls + ([call] + pass.calls) == calls + [call] + pass.calls;
  }

  /** The fork flags as a pass starts. */
  function Opened(s: Settings, st: State): State {
    State(st.latest, st.postOntake || st.latest >= s.ontakeForkHeight, st.postPacaya || st.latest >= s.pacayaForkHeight)
  }

  function Order(kind: FilterKind): nat {
    match kind
    case Genesis => 0
    case Ontake => 1
    case Pacaya => 2
  }

  /** A pass opens with the later of two forks: the one it was at and the one the latest block belongs to. From
      flags not set yet that is the latest block's own. Opening again changes nothing. */
  lemma OpensWithTheLaterFork(s: Settings, st: State)
    ensures var kind := KindFor(Opened(s, st));
            && Order(kind) >= Order(KindFor(st)) && Order(kind) >= Order(ForkOf(s, st.latest))
            && (kind == KindFor(st) || kind == ForkOf(s, st.latest))
    ensures !st.postOntake && !st.postPacaya ==> KindFor(Opened(s, st)) == ForkOf(s, st.latest)
    ensures st.latest >= s.ontakeForkHeight ==> Opened(s, st).postOntake
    ensures st.latest < s.ontakeForkHeight ==> Opened(s, st).postOntake == st.postOntake
    ensures Opened(s, st).latest == st.latest && Opened(s, Opened(s, st)) == Opened(s, st)
  {
  }

  /** Some batch of the pass is cut and filtered, and the batch a whole size later is filtered too. */
  predicate SkipsBlocks(s: Settings, st: State, j: nat, endBlockID: nat, works: Call -> bool)
    requires s.blockBatchSize > 0 && j > 0
    decreases endBlockID + 1 - j
  {
    if j > endBlockID then false
    else
      var flagged, call := Flagged(s, st, j, endBlockID), CallFor(s, st, j, endBlockID);
      var next := flagged.(latest := call.range.end);
      works(call) &&
      ((Cut(s, st, j, endBlockID) && j + s.blockBatchSize <= endBlockID
        && works(CallFor(s, next, j + s.blockBatchSize, endBlockID)))
       || SkipsBlocks(s, next, j + s.blockBatchSize, endBlockID, works))
  }

  lemma {:induction false} PassEnd(s: Settings, st: State, j: nat, endBlockID: nat, works: Call -> bool)
    requires s.blockBatchSize > 0 && j > 0
    ensures var pass := PassFrom(s, st, j, endBlockID, works);
            pass.state.latest == if pass.filtered == [] then st.latest else pass.filtered[|pass.filtered| - 1].end
    decreases endBlockID + 1 - j
  {
    if j <= endBlockID {
      var flagged, call := Flagged(s, st, j, endBlockID), CallFor(s, st, j, endBlockID);
      if works(call) {
        PassEnd(s, flagged.(latest := call.range.end), j + s.blockBatchSize, endBlockID, works);
      }
    }
  }

  /** Where the next batch to be filtered starts past the latest block, the ranges cannot tile. */
  lemma GapStays(s: Settings, st: State, j: nat, endBlockID: nat, works: Call -> bool, hi: nat)
    requires s.blockBatchSize > 0 && j > st.latest + 1
    requires j <= endBlockID && works(CallFor(s, st, j, endBlockID))
    ensures !Tiles(PassFrom(s, st, j, endBlockID, works).filtered, st.latest, hi)
  {
    var rs := PassFrom(s, st, j, endBlockID, works).filtered;
    if Tiles(rs, st.latest, hi) {
      TilesStart(rs, st.latest, hi);
    }
  }

  lemma {:induction false} TilesStart(rs: seq<Range>, lo: nat, hi: nat)
    requires Tiles(rs, lo, hi) && rs != []
    ensures rs[0].start == lo + 1
  {
    if |rs| > 1 {
      TilesStart(rs[..|rs| - 1], lo, rs[|rs| - 1].start - 1);
    }
  }

  lemma TilesHead(r: Range, rest: seq<Range>, lo: nat, hi: nat)
    requires r.start == lo + 1 <= r.end + 1
    ensures Tiles([r] + rest, lo, hi) <==> Tiles(rest, r.end, hi)
  {
    assert [r][..0] == [];
    TilesConcat([r], rest, lo, r.end, hi);
  }

  /** The ranges a pass filters tile the blocks it moves past exactly when it skips none. */
  lemma {:induction false} PassTilesIff(s: Settings, st: State, j: nat, endBlockID: nat, works: Call -> bool)
    requires s.blockBatchSize > 0 && j == st.latest + 1
    ensures var pass := PassFrom(s, st, j, endBlockID, works);
            Tiles(pass.filtered, st.latest, pass.state.latest) <==> !SkipsBlocks(s, st, j, endBlockID, works)
    decreases endBlockID + 1 - j
  {
    if j <= endBlockID {
      var flagged, call := Flagged(s, st, j, endBlockID), CallFor(s, st, j, endBlockID);
      if works(call) {
        var next, k := flagged.(latest := call.range.end), j + s.blockBatchSize;
        var pass, rest := PassFrom(s, st, j, endBlockID, works), PassFrom(s, next, k, endBlockID, works);
        TilesHead(call.range, rest.filtered, st.latest, pass.state.latest);
        if k > endBlockID {
          assert rest.filtered == [];
        } else if k == next.latest + 1 {
          PassTilesIff(s, next, k, endBlockID, works);
        } else if works(CallFor(s, next, k, endBlockID)) {
          GapStays(s, next, k, endBlockID, works, rest.state.latest);
        } else {
          assert rest.filtered == [];
        }
      }
    }
  }

  /** No batch of the pass is cut. */
  predicate NoCut(s: Settings, st: State, j: nat, endBlockID: nat, works: Call -> bool)
    requires s.blockBatchSize > 0 && j > 0
    decreases endBlockID + 1 - j
  {
    j > endBlockID ||
    (!Cut(s, st, j, endBlockID) &&
     (works(CallFor(s, st, j, endBlockID)) ==>
      NoCut(s, st.(latest := BatchEnd(s, st, j, endBlockID)), j + s.blockBatchSize, endBlockID, works)))
  }

  /** A pass without a cut skips nothing, leaves the flags alone, and stops at the first range that fails,
      which starts right after the latest block, or else at the end. */
  lemma {:induction false} NoCutIsSafe(s: Settings, st: State, j: nat, endBlockID: nat, works: Call -> bool)
    requires s.blockBatchSize > 0 && j == st.latest + 1 && NoCut(s, st, j, endBlockID, works)
    ensures !SkipsBlocks(s, st, j, endBlockID, works)
    ensures var pass := PassFrom(s, st, j, endBlockID, works);
            && pass.state == st.(latest := pass.state.latest)
            && (pass.failed.Some? ==> pass.failed.value.range.start == pass.state.latest + 1 <= endBlockID)
            && (pass.failed.None? ==> pass.state.latest == if st.latest < endBlockID then endBlockID else st.latest)
    decreases endBlockID + 1 - j
  {
    if j <= endBlockID && works(CallFor(s, st, j, endBlockID)) {
      var next := st.(latest := BatchEnd(s, st, j, endBlockID));
      if j + s.blockBatchSize <= endBlockID {
        NoCutIsSafe(s, next, j + s.blockBatchSize, endBlockID, works);
      }
    }
  }

  /** A range that failed is the first that the next pass asks for, up to a head that may have moved. */
  lemma FailedRangeIsRetriedFirst(
    s: Settings, st: State, endBlockID: nat, works: Call -> bool, laterEnd: nat)
    requires s.blockBatchSize > 0 && NoCut(s, st, st.latest + 1, endBlockID, works)
    requires PassFrom(s, st, st.latest + 1, endBlockID, works).failed.Some?
    requires laterEnd >= endBlockID
    ensures var pass := PassFrom(s, st, st.latest + 1, endBlockID, works);
            var again := Opened(s, pass.state);
            && pass.failed.value.range.start == again.latest + 1 <= laterEnd
            && CallFor(s, again, again.latest + 1, laterEnd).range.start == pass.failed.value.range.start
  {
    NoCutIsSafe(s, st, st.latest + 1, endBlockID, works);
  }

  /** A fork two blocks into a batch of ten: the eight blocks from the fork on are never filtered. */
  lemma CutSkipsBlocks(works: Call -> bool)
    requires forall call :: works(call)
    ensures var s, st := Settings(10, 1000, 3, true), State(0, false, false);
            && SkipsBlocks(s, st, 1, 20, works)
            && PassFrom(s, st, 1, 20, works).filtered == [Range(1, 2), Range(11, 20)]
            && PassFrom(s, st, 1, 20, works).state.latest == 20
  {
    var s, st := Settings(10, 1000, 3, true), State(0, false, false);
    var next := State(2, false, true);
    assert CallFor(s, st, 1, 20) == Call(Range(1, 2), Pacaya);
    assert CallFor(s, next, 11, 20) == Call(Range(11, 20), Pacaya);
    assert PassFrom(s, State(20, false, true), 21, 20, works).filtered == [];
    assert PassFrom(s, next, 11, 20, works).filtered == [Range(11, 20)];
  }

  // ---- What can be told from the head beforehand ----

  /** A fork not yet flagged lies inside a batch, short of the batch's end, on the way to the head. */
  predicate CutsAhead(s: Settings, st: State, fork: nat, flag: bool, head: nat)
    requires s.blockBatchSize > 0
  {
    && !flag && s.hasTaikoL1
    && st.latest < fork < head && (fork - st.latest) % s.blockBatchSize != 0
  }

  /** Moreover the whole batch that the fork lies in ends before the head. */
  predicate Straddled(s: Settings, st: State, fork: nat, flag: bool, head: nat)
    requires s.blockBatchSize > 0
  {
    && !flag && s.hasTaikoL1
    && st.latest < fork && (fork - st.latest) % s.blockBatchSize != 0
    && fork - (fork - st.latest) % s.blockBatchSize + s.blockBatchSize < head
  }

  predicate AnyCutAhead(s: Settings, st: State, head: nat)
    requires s.blockBatchSize > 0
  {
    || CutsAhead(s, st, s.pacayaForkHeight, st.postPacaya, head)
    || CutsAhead(s, st, s.ontakeForkHeight, st.postOntake, head)
  }

  predicate AnyStraddled(s: Settings, st: State, head: nat)
    requires s.blockBatchSize > 0
  {
    || Straddled(s, st, s.pacayaForkHeight, st.postPacaya, head)
    || Straddled(s, st, s.ontakeForkHeight, st.postOntake, head)
  }

  lemma ShiftedRemainder(x: nat, b: nat)
    requires 0 < b <= x
    ensures (x - b) % b == x % b
  {
    var q := (x - b) / b;
    assert x - b == q * b + (x - b) % b && (q + 1) * b == q * b + b;
    UniqueRemainder(x, q + 1, (x - b) % b, b);
  }

  lemma UniqueRemainder(x: nat, q: nat, r: nat, b: nat)
    requires x == q * b + r && r < b
    ensures x % b == r
  {
    var p := x / b;
    assert x == p * b + x % b && (p + 1) * b == p * b + b && (q + 1) * b == q * b + b;
    Cancel(p, q + 1, b);
    Cancel(q, p + 1, b);
  }

  lemma Cancel(x: nat, y: nat, b: nat)
    requires x * b < y * b
    ensures x < y
  {
  }

  lemma RemainderAtMost(x: nat, b: nat)
    requires b > 0
    ensures 0 <= x % b < b && x % b <= x && (x < b ==> x % b == x)
  {
  }

  /** One batch on, a fork inside this batch is behind and any other is as far into its own batch as before. */
  lemma BatchOn(latest: nat, batch: nat, fork: nat)
    requires batch > 0 && latest < fork
    ensures fork < latest + batch ==> (fork - latest) % batch == fork - latest
    ensures fork >= latest + batch ==>
            (fork - latest) % batch == (fork - (latest + batch)) % batch <= fork - (latest + batch)
    ensures 0 <= (fork - latest) % batch < batch
  {
    RemainderAtMost(fork - latest, batch);
    if fork >= latest + batch {
      ShiftedRemainder(fork - latest, batch);
      RemainderAtMost(fork - (latest + batch), batch);
    }
  }

  /** One batch on, a fork is cut in this batch or is as far ahead of the next one. */
  lemma CutsAheadStep(s: Settings, st: State, next: State, fork: nat, flag: bool, head: nat)
    requires s.blockBatchSize > 0 && st.latest < head
    requires next.latest == FullEnd(s, st.latest + 1, head)
    ensures CutsAhead(s, st, fork, flag, head)
       <==> (!flag && s.hasTaikoL1 && st.latest < fork < next.latest) || CutsAhead(s, next, fork, flag, head)
  {
    if st.latest < fork {
      BatchOn(st.latest, s.blockBatchSize, fork);
    }
  }

  lemma StraddledStep(s: Settings, st: State, next: State, fork: nat, flag: bool, head: nat)
    requires s.blockBatchSize > 0 && st.latest < head
    requires next.latest == FullEnd(s, st.latest + 1, head)
    ensures Straddled(s, st, fork, flag, head)
       <==> (!flag && s.hasTaikoL1 && st.latest < fork < next.latest && st.latest + s.blockBatchSize < head)
            || Straddled(s, next, fork, flag, head)
  {
    if st.latest < fork {
      BatchOn(st.latest, s.blockBatchSize, fork);
    }
    if next.latest < fork {
      RemainderAtMost(fork - next.latest, s.blockBatchSize);
    }
  }

  /** Whether a pass will be cut shows from the head: not without such a fork, whatever the filters answer,
      and with one if they all succeed. */
  lemma {:induction false} CutsShowBeforehand(s: Settings, st: State, head: nat, works: Call -> bool)
    requires s.blockBatchSize > 0
    ensures !AnyCutAhead(s, st, head) ==> NoCut(s, st, st.latest + 1, head, works)
    ensures AnyCutAhead(s, st, head) && (forall call :: works(call)) ==> !NoCut(s, st, st.latest + 1, head, works)
    decreases head - st.latest
  {
    if st.latest < head {
      var next := st.(latest := FullEnd(s, st.latest + 1, head));
      CutsAheadStep(s, st, next, s.pacayaForkHeight, st.postPacaya, head);
      CutsAheadStep(s, st, next, s.ontakeForkHeight, st.postOntake, head);
      if !Cut(s, st, st.latest + 1, head) && next.latest < head {
        CutsShowBeforehand(s, next, head, works);
      }
    }
  }

  /** A pass whose first batch is cut skips blocks exactly when that batch and the next one succeed. */
  lemma CutSkipsIff(s: Settings, st: State, head: nat, works: Call -> bool)
    requires s.blockBatchSize > 0 && Cut(s, st, st.latest + 1, head)
    ensures SkipsBlocks(s, st, st.latest + 1, head, works) ==> st.latest + s.blockBatchSize < head
    ensures st.latest + s.blockBatchSize < head && (forall call :: works(call))
        ==> SkipsBlocks(s, st, st.latest + 1, head, works)
  {
    var j := st.latest + 1;
    var next := Flagged(s, st, j, head).(latest := BatchEnd(s, st, j, head));
    assert j + s.blockBatchSize > head ==> !SkipsBlocks(s, next, j + s.blockBatchSize, head, works);
  }

  /** Whether a pass will skip blocks shows from the head: only with a fork inside a batch that is not the
      last, whatever the filters answer, and always with one if they all succeed. */
  lemma {:induction false} SkipsShowBeforehand(s: Settings, st: State, head: nat, works: Call -> bool)
    requires s.blockBatchSize > 0
    ensures SkipsBlocks(s, st, st.latest + 1, head, works) ==> AnyStraddled(s, st, head)
    ensures AnyStraddled(s, st, head) && (forall call :: works(call)) ==> SkipsBlocks(s, st, st.latest + 1, head, works)
    decreases head - st.latest
  {
    if st.latest < head {
      var next := st.(latest := FullEnd(s, st.latest + 1, head));
      StraddledStep(s, st, next, s.pacayaForkHeight, st.postPacaya, head);
      StraddledStep(s, st, next, s.ontakeForkHeight, st.postOntake, head);
      if Cut(s, st, st.latest + 1, head) {
        CutSkipsIff(s, st, head, works);
      } else if next.latest < head {
        SkipsShowBeforehand(s, next, head, works);
      } else {
        assert !SkipsBlocks(s, next, st.latest + 1 + s.blockBatchSize, head, works);
      }
    }
  }

  // ---- Blocks and their forks over a pass ----

  /** The flags fit every range asked for. */
  predicate FitsThroughout(s: Settings, st: State, j: nat, endBlockID: nat, works: Call -> bool)
    requires s.blockBatchSize > 0 && j > 0
    decreases endBlockID + 1 - j
  {
    j > endBlockID ||
    (var flagged, call := Flagged(s, st, j, endBlockID), CallFor(s, st, j, endBlockID);
     && Fits(s, flagged, call.range)
     && (works(call) ==>
         FitsThroughout(s, flagged.(latest := call.range.end), j + s.blockBatchSize, endBlockID, works)))
  }

  ghost predicate AllBelong(s: Settings, calls: seq<Call>) {
    forall call :: call in calls ==> Belongs(s, call)
  }

  /** Every range of a pass is filtered for its own fork exactly when the flags fit every one. */
  lemma {:induction false} CallsBelongIff(s: Settings, st: State, j: nat, endBlockID: nat, works: Call -> bool)
    requires s.blockBatchSize > 0 && j > 0
    ensures AllBelong(s, PassFrom(s, st, j, endBlockID, works).calls) <==> FitsThroughout(s, st, j, endBlockID, works)
    decreases endBlockID + 1 - j
  {
    if j <= endBlockID {
      var flagged, call := Flagged(s, st, j, endBlockID), CallFor(s, st, j, endBlockID);
      BelongsIff(s, flagged, call.range);
      if works(call) {
        var next, k := flagged.(latest := call.range.end), j + s.blockBatchSize;
        CallsBelongIff(s, next, k, endBlockID, works);
        AllBelongCons(s, call, PassFrom(s, next, k, endBlockID, works).calls);
      } else {
        AllBelongCons(s, call, []);
        assert [call] + [] == [call];
      }
    }
  }

  lemma AllBelongCons(s: Settings, call: Call, calls: seq<Call>)
    ensures AllBelong(s, [call] + calls) <==> Belongs(s, call) && AllBelong(s, calls)
  {
    assert forall c :: c in calls ==> c in [call] + calls;
    assert call in [call] + calls;
  }

  /** The blocks after the latest one, up to the head, are all of the fork that the flags stand for. */
  predicate SameForkAhead(s: Settings, st: State, head: nat) {
    ForkOf(s, st.latest + 1) == KindFor(st) == ForkOf(s, head)
  }

  /** With one fork ahead, every range is filtered for its own fork, whatever the filters answer. */
  lemma {:induction false} SameForkFits(s: Settings, st: State, j: nat, endBlockID: nat, works: Call -> bool)
    requires s.blockBatchSize > 0 && j > 0
    requires j <= endBlockID ==> ForkOf(s, j) == KindFor(st) == ForkOf(s, endBlockID)
    ensures FitsThroughout(s, st, j, endBlockID, works)
    decreases endBlockID + 1 - j
  {
    if j <= endBlockID && works(CallFor(s, st, j, endBlockID)) {
      var next := Flagged(s, st, j, endBlockID).(latest := BatchEnd(s, st, j, endBlockID));
      SameForkFits(s, next, j + s.blockBatchSize, endBlockID, works);
    }
  }

  lemma {:induction false} CallsStartFrom(s: Settings, st: State, j: nat, endBlockID: nat, works: Call -> bool)
    requires s.blockBatchSize > 0 && j > 0
    ensures forall call :: call in PassFrom(s, st, j, endBlockID, works).calls ==> call.range.start >= j
    decreases endBlockID + 1 - j
  {
    if j <= endBlockID && works(CallFor(s, st, j, endBlockID)) {
      var next := Flagged(s, st, j, endBlockID).(latest := BatchEnd(s, st, j, endBlockID));
      CallsStartFrom(s, next, j + s.blockBatchSize, endBlockID, works);
    }
  }

  /** Without a cut all ranges are filtered for the fork that the flags stand for. */
  lemma {:induction false} NoCutKeepsKind(s: Settings, st: State, j: nat, endBlockID: nat, works: Call -> bool)
    requires s.blockBatchSize > 0 && j > 0 && NoCut(s, st, j, endBlockID, works)
    ensures forall call :: call in PassFrom(s, st, j, endBlockID, works).calls ==> call.kind == KindFor(st)
    decreases endBlockID + 1 - j
  {
    if j <= endBlockID && works(CallFor(s, st, j, endBlockID)) {
      NoCutKeepsKind(s, st.(latest := BatchEnd(s, st, j, endBlockID)), j + s.blockBatchSize, endBlockID, works);
    }
  }

  /** A cut leaves the fork's first block out of every range of the pass. */
  lemma {:induction false} CutLeavesBlockOut(s: Settings, st: State, endBlockID: nat, works: Call -> bool)
    returns (n: nat)
    requires s.blockBatchSize > 0 && !NoCut(s, st, st.latest + 1, endBlockID, works)
    ensures st.latest < n <= endBlockID
    ensures forall call :: call in PassFrom(s, st, st.latest + 1, endBlockID, works).calls ==> !InRange(n, call.range)
    decreases endBlockID - st.latest
  {
    var j := st.latest + 1;
    var next := Flagged(s, st, j, endBlockID).(latest := BatchEnd(s, st, j, endBlockID));
    if Cut(s, st, j, endBlockID) {
      n := BatchEnd(s, st, j, endBlockID) + 1;
      CallsStartFrom(s, next, j + s.blockBatchSize, endBlockID, works);
    } else {
      n := CutLeavesBlockOut(s, next, endBlockID, works);
    }
  }

  /** Some range that has the block is filtered for its fork. */
  ghost predicate FilteredForItsFork(s: Settings, calls: seq<Call>, n: nat) {
    exists call :: call in calls && InRange(n, call.range) && call.kind == ForkOf(s, n)
  }

  ghost predicate EachBlockForItsFork(s: Settings, st: State, head: nat, calls: seq<Call>) {
    forall n: nat :: st.latest < n <= head ==> FilteredForItsFork(s, calls, n)
  }

  lemma ForkOfOrdered(s: Settings, x: nat, n: nat, y: nat)
    requires x <= n <= y && ForkOf(s, x) == ForkOf(s, y)
    ensures ForkOf(s, n) == ForkOf(s, x)
  {
  }

  /** When all filters succeed, each block up to the head is filtered for its own fork exactly when all those
      blocks are of the flags' fork and no fork lies inside a batch. */
  lemma EachBlockForItsForkIff(s: Settings, st: State, head: nat, works: Call -> bool)
    requires s.blockBatchSize > 0 && st.latest < head && forall call :: works(call)
    ensures EachBlockForItsFork(s, st, head, PassFrom(s, st, st.latest + 1, head, works).calls)
       <==> SameForkAhead(s, st, head) && !AnyCutAhead(s, st, head)
  {
    var calls := PassFrom(s, st, st.latest + 1, head, works).calls;
    CutsShowBeforehand(s, st, head, works);
    if AnyCutAhead(s, st, head) {
      var n := CutLeavesBlockOut(s, st, head, works);
      assert !FilteredForItsFork(s, calls, n);
    } else {
      NoCutKeepsKind(s, st, st.latest + 1, head, works);
      if EachBlockForItsFork(s, st, head, calls) {
        assert FilteredForItsFork(s, calls, st.latest + 1) && FilteredForItsFork(s, calls, head);
      }
      if SameForkAhead(s, st, head) {
        SameForkForEachBlock(s, st, head, works);
      }
    }
  }

  lemma SameForkForEachBlock(s: Settings, st: State, head: nat, works: Call -> bool)
    requires s.blockBatchSize > 0 && st.latest < head && forall call :: works(call)
    requires SameForkAhead(s, st, head) && NoCut(s, st, st.latest + 1, head, works)
    ensures EachBlockForItsFork(s, st, head, PassFrom(s, st, st.latest + 1, head, works).calls)
  {
    var calls := PassFrom(s, st, st.latest + 1, head, works).calls;
    NoCutKeepsKind(s, st, st.latest + 1, head, works);
    forall n: nat | st.latest < n <= head ensures FilteredForItsFork(s, calls, n) {
      var call := CallWith(s, st, head, works, n);
      ForkOfOrdered(s, st.latest + 1, n, head);
    }
  }

  /** In a pass that is not cut and does not fail, some call has the block. */
  lemma CallWith(s: Settings, st: State, head: nat, works: Call -> bool, n: nat) returns (call: Call)
    requires s.blockBatchSize > 0 && NoCut(s, st, st.latest + 1, head, works) && forall call :: works(call)
    requires st.latest < n <= head
    ensures call in PassFrom(s, st, st.latest + 1, head, works).calls && InRange(n, call.range)
  {
    var j := st.latest + 1;
    var pass := PassFrom(s, st, j, head, works);
    NoCutIsSafe(s, st, j, head, works);
    PassTilesIff(s, st, j, head, works);
    NothingFails(s, st, j, head, works);
    TilesCoverOnce(pass.filtered, st.latest, pass.state.latest, n);
    var i :| 0 <= i < |pass.filtered| && InRange(n, pass.filtered[i]);
    call := pass.calls[i];
  }

  lemma {:induction false} NothingFails(s: Settings, st: State, j: nat, head: nat, works: Call -> bool)
    requires s.blockBatchSize > 0 && j > 0 && forall call :: works(call)
    ensures var pass := PassFrom(s, st, j, head, works);
            && pass.failed.None? && |pass.calls| == |pass.filtered|
            && forall i :: 0 <= i < |pass.calls| ==> pass.calls[i].range == pass.filtered[i]
    decreases head + 1 - j
  {
    if j <= head {
      var next := Flagged(s, st, j, head).(latest := BatchEnd(s, st, j, head));
      NothingFails(s, next, j + s.blockBatchSize, head, works);
    }
  }

  /** A fork at a batch's end, found beforehand by nothing: neither cut nor skipped, but its first block and
      the whole batch behind it are filtered for the fork before. */
  lemma ForkAtBatchEndGoesUnnoticed(works: Call -> bool)
    requires forall call :: works(call)
    ensures var s, st := Settings(10, 1000, 10, true), State(0, false, false);
            && !AnyCutAhead(s, st, 20)
            && PassFrom(s, st, 1, 20, works).calls == [Call(Range(1, 10), Genesis), Call(Range(11, 20), Genesis)]
            && !Belongs(s, Call(Range(1, 10), Genesis)) && !Belongs(s, Call(Range(11, 20), Genesis))
  {
    var s, st := Settings(10, 1000, 10, true), State(0, false, false);
    var next := State(10, false, false);
    BelongsIff(s, st, Range(1, 10));
    BelongsIff(s, next, Range(11, 20));
    assert CallFor(s, st, 1, 20) == Call(Range(1, 10), Genesis);
    assert CallFor(s, next, 11, 20) == Call(Range(11, 20), Genesis);
    assert PassFrom(s, State(20, false, false), 21, 20, works).calls == [];
    assert PassFrom(s, next, 11, 20, works).calls == [Call(Range(11, 20), Genesis)];
  }

  // ---- Over many passes ----

  predicate Ends(rs: seq<Range>, start: nat, latest: nat) {
    latest == if rs == [] then start else rs[|rs| - 1].end
  }

  /** Ranges that reach the latest block still tile after a pass exactly when they did before and the pass
      skips nothing. */
  lemma RunAfterPass(rs: seq<Range>, start: nat, s: Settings, st: State, endBlockID: nat, works: Call -> bool)
    requires s.blockBatchSize > 0 && Ends(rs, start, st.latest)
    ensures var pass := PassFrom(s, st, st.latest + 1, endBlockID, works);
            && Ends(rs + pass.filtered, start, pass.state.latest)
            && (Tiles(rs + pass.filtered, start, pass.state.latest)
                <==> Tiles(rs, start, st.latest) && !SkipsBlocks(s, st, st.latest + 1, endBlockID, works))
  {
    var pass := PassFrom(s, st, st.latest + 1, endBlockID, works);
    PassTilesIff(s, st, st.latest + 1, endBlockID, works);
    PassEnd(s, st, st.latest + 1, endBlockID, works);
    TilesConcat(rs, pass.filtered, start, st.latest, pass.state.latest);
  }

  lemma AllBelongConcat(s: Settings, a: seq<Call>, b: seq<Call>)
    ensures AllBelong(s, a + b) <==> AllBelong(s, a) && AllBelong(s, b)
  {
    assert forall call :: call in a || call in b ==> call in a + b;
  }

  /** What a run has filtered and asked for, and whether some pass skipped blocks or misfiltered a range. */
  datatype Run = Run(filtered: seq<Range>, skipped: bool, asked: seq<Call>, misfiltered: bool)

  /** The ranges filtered tile the blocks up to the latest one exactly when no pass skipped blocks, and all
      calls were for their own fork exactly when the flags fit each. */
  ghost predicate RunIsRight(s: Settings, start: nat, latest: nat, run: Run) {
    && Ends(run.filtered, start, latest)
    && (Tiles(run.filtered, start, latest) <==> !run.skipped)
    && (AllBelong(s, run.asked) <==> !run.misfiltered)
  }

  /** What a pass adds to the run before it, from the state it opened with. */
  function RunAfter(s: Settings, st: State, was: Run, endBlockID: nat, works: Call -> bool): Run
    requires s.blockBatchSize > 0
  {
    var pass := PassFrom(s, st, st.latest + 1, endBlockID, works);
    Run(was.filtered + pass.filtered,
        was.skipped || SkipsBlocks(s, st, st.latest + 1, endBlockID, works),
        was.asked + pass.calls,
        was.misfiltered || !FitsThroughout(s, st, st.latest + 1, endBlockID, works))
  }

  lemma RunStaysRight(s: Settings, start: nat, st: State, was: Run, endBlockID: nat, works: Call -> bool)
    requires s.blockBatchSize > 0 && RunIsRight(s, start, st.latest, was)
    ensures RunIsRight(s, start, PassFrom(s, st, st.latest + 1, endBlockID, works).state.latest,
                       RunAfter(s, st, was, endBlockID, works))
  {
    RunAfterPass(was.filtered, start, s, st, endBlockID, works);
    CallsBelongIff(s, st, st.latest + 1, endBlockID, works);
    AllBelongConcat(s, was.asked, PassFrom(s, st, st.latest + 1, endBlockID, works).calls);
  }

  // ---- The indexer ----

  class Indexer {
    const settings: Settings
    const start: nat
    var latestIndexedBlockNumber: nat
    var isPostOntakeForkHeightReached: bool
    var isPostPacayaForkHeightReached: bool

    /** The ranges whose filter succeeded, over all passes, and whether some pass skipped blocks. */
    ghost var filtered: seq<Range>
    ghost var skipped: bool

    /** All calls so far, failed ones too, and whether the flags did not fit some range. */
    ghost var asked: seq<Call>
    ghost var misfiltered: bool

    ghost function Current(): State
      reads this
    {
      State(latestIndexedBlockNumber, isPostOntakeForkHeightReached, isPostPacayaForkHeightReached)
    }

    /** Over the whole run, the ranges filtered tile the blocks up to the latest indexed one exactly when no
        pass skipped blocks, and all were filtered for their own fork exactly when the flags fit each. */
    ghost predicate Valid()
      reads this
    {
      settings.blockBatchSize > 0 && RunIsRight(settings, start, latestIndexedBlockNumber, SoFar())
    }

    constructor (settings: Settings, start: nat)
      requires settings.blockBatchSize > 0
      ensures Valid() && this.settings == settings && this.start == start
      ensures Current() == State(start, false, false)
      ensures filtered == [] && !skipped && asked == [] && !misfiltered
    {
      this.settings := settings;
      this.start := start;
      latestIndexedBlockNumber := start;
      isPostOntakeForkHeightReached := false;
      isPostPacayaForkHeightReached := false;
      filtered, skipped := [], false;
      asked, misfiltered := [], false;
    }

    /** Sets the fork flags and the end of the batch from `j`, and picks its filter. */
    method SetUpBatch(j: nat, endBlockID: nat) returns (call: Call)
      requires settings.blockBatchSize > 0 && 0 < j <= endBlockID
      modifies this`isPostOntakeForkHeightReached, this`isPostPacayaForkHeightReached
      ensures call == CallFor(settings, old(Current()), j, endBlockID)
      ensures Current() == Flagged(settings, old(Current()), j, endBlockID)
    {
      var end := if j + settings.blockBatchSize - 1 <= endBlockID then j + settings.blockBatchSize - 1 else endBlockID;
      if !isPostPacayaForkHeightReached && settings.hasTaikoL1
        && settings.pacayaForkHeight > latestIndexedBlockNumber && settings.pacayaForkHeight < end
      {
        isPostPacayaForkHeightReached := true;
        end := settings.pacayaForkHeight - 1;
      } else if !isPostOntakeForkHeightReached && settings.hasTaikoL1
        && settings.ontakeForkHeight > latestIndexedBlockNumber && settings.ontakeForkHeight < end
      {
        isPostOntakeForkHeightReached := true;
        end := settings.ontakeForkHeight - 1;
      }
      var kind := if isPostPacayaForkHeightReached then Pacaya
                  else if isPostOntakeForkHeightReached then Ontake
                  else Genesis;
      call := Call(Range(j, end), kind);
    }

    /** The batches of a pass, up to the first whose filter fails. */
    method FilterBatches(endBlockID: nat, works: Call -> bool)
      returns (ok: bool, ghost done: seq<Range>, ghost calls: seq<Call>)
      requires settings.blockBatchSize > 0
      modifies this`latestIndexedBlockNumber, this`isPostOntakeForkHeightReached, this`isPostPacayaForkHeightReached
      ensures var pass := PassFrom(settings, old(Current()), old(latestIndexedBlockNumber) + 1, endBlockID, works);
              && (ok <==> pass.failed.None?)
              && Current() == pass.state
              && done == pass.filtered && calls == pass.calls
    {
      done, calls := [], [];
      var j := latestIndexedBlockNumber + 1;
      ghost var pass := PassFrom(settings, Current(), j, endBlockID, works);
      while j <= endBlockID
        invariant j > 0
        invariant pass == Prefixed(done, calls, PassFrom(settings, Current(), j, endBlockID, works))
        decreases endBlockID + 1 - j
      {
        NextBatch(settings, Current(), j, endBlockID, works);
        var call := SetUpBatch(j, endBlockID);
        if !works(call) {
          return false, done, calls + [call];
        }
        latestIndexedBlockNumber := call.range.end;
        j := j + settings.blockBatchSize;
        PrefixedSnoc(done, calls, call, PassFrom(settings, Current(), j, endBlockID, works));
        done, calls := done + [call.range], calls + [call];
      }
      return true, done, calls;
    }

    /** Sets the flags of the forks already reached. */
    method OpenPass()
      modifies this`isPostOntakeForkHeightReached, this`isPostPacayaForkHeightReached
      ensures Current() == Opened(settings, old(Current()))
    {
      if latestIndexedBlockNumber >= settings.ontakeForkHeight {
        isPostOntakeForkHeightReached := true;
      }
      if latestIndexedBlockNumber >= settings.pacayaForkHeight {
        isPostPacayaForkHeightReached := true;
      }
    }

    ghost function SoFar(): Run
      reads this
    {
      Run(filtered, skipped, asked, misfiltered)
    }

    /** A pass moves the latest indexed block past the ranges whose filter succeeded and stops at the first
        that fails; without a head it does nothing. */
    method FilterPass(head: Option<nat>, works: Call -> bool) returns (ok: bool)
      requires Valid()
      modifies this
      ensures Valid()
      ensures head.None? ==> !ok && Current() == old(Current()) && SoFar() == old(SoFar())
      ensures head.Some? ==>
              var st := Opened(settings, old(Current()));
              && (ok <==> PassFrom(settings, st, st.latest + 1, head.value, works).failed.None?)
              && Current() == PassFrom(settings, st, st.latest + 1, head.value, works).state
              && SoFar() == RunAfter(settings, st, old(SoFar()), head.value, works)
    {
      if head.None? {
        return false;
      }
      OpenPass();
      ghost var st, was := Current(), SoFar();
      ghost var done, calls;
      ok, done, calls := FilterBatches(head.value, works);
      RunStaysRight(settings, start, st, was, head.value, works);
      ghost var next := RunAfter(settings, st, was, head.value, works);
      filtered, skipped := filtered + done, next.skipped;
      asked, misfiltered := asked + calls, next.misfiltered;
      assert SoFar() == next;
    }
  }
}
