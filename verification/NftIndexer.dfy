/** The transfer events of ERC-721 and ERC-1155 contracts and the movements they stand for. */
module NftIndexer {
  import opened Integers
  import opened Options
  import opened Transactions
  import opened NftBalances
  import NftOwnership

  const TRANSFER_SIGNATURE: nat := 0xddf252ad1be2c89b69c2b068fc378daa952ba7f163c4a11628f55a4df523b3ef
  const TRANSFER_SINGLE_SIGNATURE: nat := 0xc3d58168c5ae7397731d063d5bbf3d657854427343f4c083240f7aacaa2d0f62
  const TRANSFER_BATCH_SIGNATURE: nat := 0x4a39dc06d4c0dbc64b70af90fd698a233a518aa5d07e595d983b8c0526c8f7fb

  datatype Entry = Entry(id: nat, value: nat)

  datatype Batch = Batch(ids: seq<nat>, values: seq<nat>)

  /** A log with its data read as either event's, None when it does not decode that way. */
  datatype Log = Log(contract: Address, topics: seq<nat>, single: Option<Entry>, batch: Option<Batch>)

  datatype Outcome = Done | Error | Panic

  predicate IsERC721Transfer(l: Log) {
    |l.topics| == 4 && l.topics[0] == TRANSFER_SIGNATURE
  }

  predicate IsERC1155Transfer(l: Log) {
    |l.topics| > 0 && (l.topics[0] == TRANSFER_SINGLE_SIGNATURE || l.topics[0] == TRANSFER_BATCH_SIGNATURE)
  }

  function ERC721Movement(chain: int, l: Log): Movement
    requires IsERC721Transfer(l)
  {
    NftOwnership.Move(chain, NftOwnership.Transfer(
      l.contract, l.topics[3], l.topics[1] % TWO_TO_160, l.topics[2] % TWO_TO_160))
  }

  function ERC1155Movement(chain: int, l: Log, e: Entry): Movement
    requires |l.topics| >= 4
  {
    Movement(chain, l.contract, ERC1155, Int64(e.id),
             l.topics[2] % TWO_TO_160, l.topics[3] % TWO_TO_160, Int64(e.value))
  }

  /** Saving a log of one token moves it from the account in the first indexed topic to the one in the second,
      under the low 64 bits of the id in the third. */
  lemma ERC721LogMoves(t: Table, chain: int, l: Log)
    requires IsERC721Transfer(l) && Fits(t)
    ensures Moves(t, Save(t, ERC721Movement(chain, l)),
                  Key(chain, l.contract, Int64(l.topics[3]), l.topics[1] % TWO_TO_160),
                  Key(chain, l.contract, Int64(l.topics[3]), l.topics[2] % TWO_TO_160), 1)
  {
    SaveMoves(t, ERC721Movement(chain, l));
  }

  /** Saving an entry of an ERC-1155 log moves its value, under its id, from the account in the second indexed
      topic to the one in the third; the first is the operator. */
  lemma ERC1155EntryMoves(t: Table, chain: int, l: Log, e: Entry)
    requires |l.topics| >= 4 && Fits(t)
    ensures Moves(t, Save(t, ERC1155Movement(chain, l, e)),
                  Key(chain, l.contract, Int64(e.id), l.topics[2] % TWO_TO_160),
                  Key(chain, l.contract, Int64(e.id), l.topics[3] % TWO_TO_160), Int64(e.value))
  {
    SaveMoves(t, ERC1155Movement(chain, l, e));
  }

  /** The entries of a batch that have both an id and a value. */
  function Entries(b: Batch): (es: seq<Entry>)
    ensures |es| == if |b.ids| <= |b.values| then |b.ids| else |b.values|
  {
    var n := if |b.ids| <= |b.values| then |b.ids| else |b.values|;
    seq(n, i requires 0 <= i < |b.ids| && i < |b.values| => Entry(b.ids[i], b.values[i]))
  }

  /** What an ERC-1155 event moves, in order. */
  function ERC1155Movements(chain: int, l: Log): (ms: seq<Movement>)
    requires |l.topics| >= 4
    ensures l.topics[0] == TRANSFER_BATCH_SIGNATURE && l.batch.Some? ==> |ms| == |Entries(l.batch.value)|
  {
    if l.topics[0] == TRANSFER_SINGLE_SIGNATURE then
      if l.single.Some? then [ERC1155Movement(chain, l, l.single.value)] else []
    else if l.topics[0] == TRANSFER_BATCH_SIGNATURE && l.batch.Some? then
      var es := Entries(l.batch.value);
      seq(|es|, i requires 0 <= i < |es| => ERC1155Movement(chain, l, es[i]))
    else []
  }

  /** The data decodes as the event's, and each id of a batch comes with a value. */
  predicate Decodes(l: Log)
    requires |l.topics| > 0
  {
    if l.topics[0] == TRANSFER_SINGLE_SIGNATURE then l.single.Some?
    else l.batch.Some? && |l.batch.value.ids| <= |l.batch.value.values|
  }

  /** The first `n` movements commit, and the one after them, if there is one, does not. */
  ghost predicate CommitsUpTo(attempts: (nat, nat) -> TxOutcome, n: nat, all: nat) {
    && n <= all
    && AllCommit(attempts, n)
    && (n < all ==> !EventuallyCommits(AttemptsAt(attempts, n)))
  }

  ghost predicate AllCommit(attempts: (nat, nat) -> TxOutcome, n: nat) {
    forall i: nat :: i < n ==> EventuallyCommits(AttemptsAt(attempts, i))
  }

  lemma OneMoreCommits(attempts: (nat, nat) -> TxOutcome, n: nat)
    requires AllCommit(attempts, n) && EventuallyCommits(AttemptsAt(attempts, n))
    ensures AllCommit(attempts, n + 1)
  {
  }

  function AttemptsAt(attempts: (nat, nat) -> TxOutcome, i: nat): nat -> TxOutcome {
    (m: nat) => attempts(i, m)
  }

  lemma MovementAt(chain: int, l: Log, i: nat)
    requires |l.topics| >= 4 && l.topics[0] == TRANSFER_BATCH_SIGNATURE && l.batch.Some?
    requires i < |l.batch.value.ids| && i < |l.batch.value.values|
    ensures ERC1155Movements(chain, l)[i]
         == ERC1155Movement(chain, l, Entry(l.batch.value.ids[i], l.batch.value.values[i]))
  {
  }

  /** The `i`-th movement of a batch is of its `i`-th id and value. */
  lemma BatchPairMoves(t: Table, chain: int, l: Log, i: nat)
    requires |l.topics| >= 4 && l.topics[0] == TRANSFER_BATCH_SIGNATURE && l.batch.Some? && Fits(t)
    requires i < |l.batch.value.ids| && i < |l.batch.value.values|
    ensures var id, value := Int64(l.batch.value.ids[i]), Int64(l.batch.value.values[i]);
            Moves(t, Save(t, ERC1155Movements(chain, l)[i]),
                  Key(chain, l.contract, id, l.topics[2] % TWO_TO_160),
                  Key(chain, l.contract, id, l.topics[3] % TWO_TO_160), value)
  {
    MovementAt(chain, l, i);
    ERC1155EntryMoves(t, chain, l, Entry(l.batch.value.ids[i], l.batch.value.values[i]));
  }

  method SaveMovement(repo: NftBalanceRepository, x: Movement, attempt: nat -> TxOutcome) returns (ok: bool)
    modifies repo
    ensures ok <==> EventuallyCommits(attempt)
    ensures repo.rows == if ok then Save(old(repo.rows), x) else old(repo.rows)
  {
    var increase := UpdateOpts(x.ToKey(), x.kind, x.amount);
    var decrease := None;
    if x.from != ZERO_ADDRESS {
      decrease := Some(UpdateOpts(x.FromKey(), x.kind, x.amount));
    }
    ok := repo.IncreaseAndDecreaseBalancesInTx(increase, decrease, attempt);
  }

  method SaveERC721Transfer(repo: NftBalanceRepository, chain: int, l: Log, attempt: nat -> TxOutcome)
    returns (ok: bool)
    requires IsERC721Transfer(l)
    modifies repo
    ensures ok <==> EventuallyCommits(attempt)
    ensures repo.rows == if ok then Save(old(repo.rows), ERC721Movement(chain, l)) else old(repo.rows)
    ensures ok && Fits(old(repo.rows)) ==>
            Moves(old(repo.rows), repo.rows,
                  Key(chain, l.contract, Int64(l.topics[3]), l.topics[1] % TWO_TO_160),
                  Key(chain, l.contract, Int64(l.topics[3]), l.topics[2] % TWO_TO_160), 1)
  {
    if Fits(repo.rows) {
      ERC721LogMoves(repo.rows, chain, l);
    }
    var from := l.topics[1] % TWO_TO_160;
    var to := l.topics[2] % TWO_TO_160;
    var tokenID := Int64(l.topics[3]);
    ok := SaveMovement(repo, Movement(chain, l.contract, ERC721, tokenID, from, to, 1), attempt);
  }

  /** The pairs of a batch are saved one transaction each: a failure keeps what came before it, and an id
      without a value panics after all pairs are saved. */
  method SaveBatch(repo: NftBalanceRepository, chain: int, l: Log, attempts: (nat, nat) -> TxOutcome)
    returns (outcome: Outcome, ghost n: nat)
    requires |l.topics| >= 4 && l.topics[0] == TRANSFER_BATCH_SIGNATURE && l.batch.Some?
    modifies repo
    ensures CommitsUpTo(attempts, n, |ERC1155Movements(chain, l)|)
    ensures repo.rows == SaveAll(old(repo.rows), ERC1155Movements(chain, l)[..n])
    ensures outcome == Error <==> n < |ERC1155Movements(chain, l)|
    ensures outcome == Panic <==> n == |l.batch.value.values| < |l.batch.value.ids|
  {
    var t := l.batch.value;
    ghost var ms := ERC1155Movements(chain, l);
    var idx := 0;
    NothingSaved(repo.rows, ms);
    while idx < |t.ids|
      invariant idx <= |t.ids| && idx <= |ms|
      invariant AllCommit(attempts, idx)
      invariant repo.rows == SaveAll(old(repo.rows), ms[..idx])
    {
      if idx >= |t.values| {
        return Panic, idx;
      }
      var ok := SavePair(repo, chain, l, idx, AttemptsAt(attempts, idx), old(repo.rows));
      if !ok {
        return Error, idx;
      }
      OneMoreCommits(attempts, idx);
      idx := idx + 1;
    }
    return Done, idx;
  }

  /** Pair `idx` of a batch, the pairs before it having been saved since the table was `was`. */
  method SavePair(repo: NftBalanceRepository, chain: int, l: Log, idx: nat, attempt: nat -> TxOutcome, ghost was: Table)
    returns (ok: bool)
    requires |l.topics| >= 4 && l.topics[0] == TRANSFER_BATCH_SIGNATURE && l.batch.Some?
    requires idx < |l.batch.value.ids| && idx < |l.batch.value.values|
    requires repo.rows == SaveAll(was, ERC1155Movements(chain, l)[..idx])
    modifies repo
    ensures ok <==> EventuallyCommits(attempt)
    ensures repo.rows == SaveAll(was, ERC1155Movements(chain, l)[..if ok then idx + 1 else idx])
  {
    var from := l.topics[2] % TWO_TO_160;
    var to := l.topics[3] % TWO_TO_160;
    var id, value := l.batch.value.ids[idx], l.batch.value.values[idx];
    ok := SaveMovement(repo, Movement(chain, l.contract, ERC1155, Int64(id), from, to, Int64(value)), attempt);
    MovementAt(chain, l, idx);
    PrefixSaves(was, ERC1155Movements(chain, l), idx);
  }

  method SaveSingle(repo: NftBalanceRepository, chain: int, l: Log, attempt: nat -> TxOutcome)
    returns (ok: bool)
    requires |l.topics| >= 4 && l.topics[0] == TRANSFER_SINGLE_SIGNATURE && l.single.Some?
    modifies repo
    ensures ok <==> EventuallyCommits(attempt)
    ensures repo.rows == if ok then SaveAll(old(repo.rows), ERC1155Movements(chain, l)) else old(repo.rows)
    ensures ok && Fits(old(repo.rows)) ==>
            Moves(old(repo.rows), repo.rows,
                  Key(chain, l.contract, Int64(l.single.value.id), l.topics[2] % TWO_TO_160),
                  Key(chain, l.contract, Int64(l.single.value.id), l.topics[3] % TWO_TO_160),
                  Int64(l.single.value.value))
  {
    if Fits(repo.rows) {
      ERC1155EntryMoves(repo.rows, chain, l, l.single.value);
    }
    var from := l.topics[2] % TWO_TO_160;
    var to := l.topics[3] % TWO_TO_160;
    var t := l.single.value;
    var x := Movement(chain, l.contract, ERC1155, Int64(t.id), from, to, Int64(t.value));
    ok := SaveMovement(repo, x, attempt);
    SaveAllSnoc(old(repo.rows), [], x);
    assert [] + [x] == ERC1155Movements(chain, l);
  }

  /** The event's movements are saved in order up to the first that does not commit; no error means that
      all of them are. */
  method SaveERC1155Transfer(repo: NftBalanceRepository, chain: int, l: Log, attempts: (nat, nat) -> TxOutcome)
    returns (outcome: Outcome, ghost n: nat)
    requires IsERC1155Transfer(l)
    modifies repo
    ensures |l.topics| < 4 ==> outcome == Panic && repo.rows == old(repo.rows)
    ensures |l.topics| >= 4 ==> CommitsUpTo(attempts, n, |ERC1155Movements(chain, l)|)
    ensures |l.topics| >= 4 ==> repo.rows == SaveAll(old(repo.rows), ERC1155Movements(chain, l)[..n])
    ensures outcome == Done <==> |l.topics| >= 4 && Decodes(l) && n == |ERC1155Movements(chain, l)|
  {
    if |l.topics| < 4 {
      return Panic, 0;
    }
    ghost var ms := ERC1155Movements(chain, l);
    assert ms[..0] == [] && ms[..|ms|] == ms;
    if l.topics[0] == TRANSFER_SINGLE_SIGNATURE {
      if l.single.None? {
        return Error, 0;
      }
      var ok := SaveSingle(repo, chain, l, AttemptsAt(attempts, 0));
      return if ok then Done else Error, if ok then 1 else 0;
    }
    if l.batch.None? {
      return Error, 0;
    }
    outcome, n := SaveBatch(repo, chain, l, attempts);
  }

  // ---- A batch is its singles ----

  /** The TransferSingle event for one pair of a batch. */
  function SingleOf(l: Log, e: Entry): Log
    requires |l.topics| >= 4
  {
    l.(topics := l.topics[0 := TRANSFER_SINGLE_SIGNATURE], single := Some(e))
  }

  /** The first `n` pairs of a batch as TransferSingle events. */
  function Singles(l: Log, n: nat): (ls: seq<Log>)
    requires |l.topics| >= 4 && l.batch.Some? && n <= |Entries(l.batch.value)|
    ensures |ls| == n && forall x :: x in ls ==> |x.topics| >= 4
  {
    seq(n, i requires 0 <= i < n => SingleOf(l, Entries(l.batch.value)[i]))
  }

  /** The table after the events' movements, event by event. */
  function SaveLogs(t: Table, chain: int, ls: seq<Log>): Table
    requires forall l :: l in ls ==> |l.topics| >= 4
  {
    if ls == [] then t
    else SaveAll(SaveLogs(t, chain, ls[..|ls| - 1]), ERC1155Movements(chain, ls[|ls| - 1]))
  }

  /** A batch leaves the table that its pairs, sent one by one as TransferSingle events in the same order,
      leave, repeated ids included. */
  lemma {:induction false} BatchIsItsSingles(t: Table, chain: int, l: Log, n: nat)
    requires |l.topics| >= 4 && l.topics[0] == TRANSFER_BATCH_SIGNATURE && l.batch.Some?
    requires n <= |Entries(l.batch.value)|
    ensures SaveLogs(t, chain, Singles(l, n)) == SaveAll(t, ERC1155Movements(chain, l)[..n])
  {
    if n > 0 {
      BatchIsItsSingles(t, chain, l, n - 1);
      assert Singles(l, n)[..n - 1] == Singles(l, n - 1);
      SingleSaves(SaveLogs(t, chain, Singles(l, n - 1)), chain, l, n - 1);
      PrefixSaves(t, ERC1155Movements(chain, l), n - 1);
    }
  }

  lemma NothingSaved(t: Table, ms: seq<Movement>)
    ensures SaveAll(t, ms[..0]) == t
  {
    assert ms[..0] == [];
  }

  lemma PrefixSaves(t: Table, ms: seq<Movement>, i: nat)
    requires i < |ms|
    ensures SaveAll(t, ms[..i + 1]) == Save(SaveAll(t, ms[..i]), ms[i])
  {
    assert ms[..i + 1] == ms[..i] + [ms[i]];
    SaveAllSnoc(t, ms[..i], ms[i]);
  }

  lemma SingleSaves(t: Table, chain: int, l: Log, i: nat)
    requires |l.topics| >= 4 && l.topics[0] == TRANSFER_BATCH_SIGNATURE && l.batch.Some?
    requires i < |Entries(l.batch.value)|
    ensures SaveAll(t, ERC1155Movements(chain, SingleOf(l, Entries(l.batch.value)[i])))
         == Save(t, ERC1155Movements(chain, l)[i])
  {
    var x := ERC1155Movements(chain, l)[i];
    assert ERC1155Movements(chain, SingleOf(l, Entries(l.batch.value)[i])) == [] + [x];
    SaveAllSnoc(t, [], x);
  }
}
