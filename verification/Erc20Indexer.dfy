/** Indexing a block range's ERC-20 transfers: one worker per log, finishing in any order. */
module Erc20Indexer {
  import opened Integers
  import opened Options
  import opened Transactions
  import opened Erc20Balances

  /** keccak256 of `Transfer(address,address,uint256)`. */
  const TRANSFER_SIGNATURE: nat := 0xddf252ad1be2c89b69c2b068fc378daa952ba7f163c4a11628f55a4df523b3ef

  /** `value` is the amount in the log's data, None when the data does not decode. */
  datatype Log = Log(contract: Address, topics: seq<nat>, value: Option<nat>)

  /** A log and what its worker will meet: the metadata's key, None when it can be neither found nor
      created, and the end of each attempt at the balance transaction. */
  datatype Job = Job(log: Log, metadata: Option<int>, attempt: nat -> TxOutcome)

  predicate IsERC20Transfer(l: Log) {
    |l.topics| == 3 && l.topics[0] == TRANSFER_SIGNATURE
  }

  function TransferOf(chain: int, l: Log, metadataId: int): Transfer
    requires IsERC20Transfer(l) && l.value.Some?
  {
    Transfer(chain, l.contract, metadataId, l.topics[1] % TWO_TO_160, l.topics[2] % TWO_TO_160, l.value.value)
  }

  /** Saving a log moves its value from the account in its first indexed topic to the one in its second. */
  lemma SavedLogMoves(t: Table, chain: int, l: Log, metadataId: int)
    requires IsERC20Transfer(l) && l.value.Some?
    ensures Moves(t, Save(t, TransferOf(chain, l, metadataId)),
                  Key(chain, l.contract, l.topics[1] % TWO_TO_160), Key(chain, l.contract, l.topics[2] % TWO_TO_160),
                  l.value.value)
  {
    SaveMoves(t, TransferOf(chain, l, metadataId));
  }

  /** The worker of this job updates the table. */
  ghost predicate Succeeds(j: Job) {
    j.log.value.Some? && j.metadata.Some? && EventuallyCommits(j.attempt)
  }

  /** The jobs, by position, that stand for a transfer and whose worker succeeds. */
  ghost predicate Saved(jobs: seq<Job>, i: nat) {
    i < |jobs| && IsERC20Transfer(jobs[i].log) && Succeeds(jobs[i])
  }

  /** Nothing is lost among the jobs that are not pending. */
  ghost predicate AllSaved(jobs: seq<Job>, pending: set<nat>) {
    forall i :: 0 <= i < |jobs| && IsERC20Transfer(jobs[i].log) ==> i in pending || Saved(jobs, i)
  }

  /** The transfers of the jobs at these positions, in this order. */
  ghost function Transfers(chain: int, jobs: seq<Job>, order: seq<nat>): (xs: seq<Transfer>)
    requires forall i :: i in order ==> Saved(jobs, i)
    ensures |xs| == |order|
  {
    if order == [] then []
    else
      var i := order[|order| - 1];
      assert Saved(jobs, i);
      Transfers(chain, jobs, order[..|order| - 1]) + [TransferOf(chain, jobs[i].log, jobs[i].metadata.value)]
  }

  /** `order` lists, once each, the saved transfers of the jobs that are not pending. */
  ghost predicate IsRun(jobs: seq<Job>, order: seq<nat>, pending: set<nat>) {
    && (forall i :: i in order <==> Saved(jobs, i) && i !in pending)
    && (forall a, b :: 0 <= a < b < |order| ==> order[a] != order[b])
  }

  function UpTo(n: nat): (s: set<nat>)
    ensures forall i: nat :: i in s <==> i < n
  {
    if n == 0 then {} else UpTo(n - 1) + {n - 1}
  }

  // ---- Workers ----

  /** The transfer is saved exactly when its data decodes, its metadata is found and its transaction
      commits; then the value moves from one account of the log to the other, and otherwise the table is as
      before. */
  method SaveERC20Transfer(repo: Erc20BalanceRepository, chain: int, j: Job) returns (ok: bool)
    requires IsERC20Transfer(j.log)
    modifies repo
    ensures ok <==> Succeeds(j)
    ensures repo.rows == if ok then Save(old(repo.rows), TransferOf(chain, j.log, j.metadata.value)) else old(repo.rows)
    ensures ok ==> Moves(old(repo.rows), repo.rows,
                         Key(chain, j.log.contract, j.log.topics[1] % TWO_TO_160),
                         Key(chain, j.log.contract, j.log.topics[2] % TWO_TO_160), j.log.value.value)
  {
    var from := j.log.topics[1] % TWO_TO_160;
    var to := j.log.topics[2] % TWO_TO_160;
    if j.log.value.None? {
      return false;
    }
    var amount := j.log.value.value;
    if j.metadata.None? {
      return false;
    }
    var pk := j.metadata.value;
    var increase := UpdateOpts(pk, Key(chain, j.log.contract, to), amount);
    var decrease := None;
    if from != ZERO_ADDRESS {
      decrease := Some(UpdateOpts(pk, Key(chain, j.log.contract, from), amount));
    }
    SavedLogMoves(repo.rows, chain, j.log, pk);
    ok := repo.IncreaseAndDecreaseBalancesInTx(increase, decrease, j.attempt);
  }

  /** The workers finish in an order nobody chooses. Whatever it is, the table is the one a sequential run
      over the saved transfers in some order leaves, and no error means that no transfer is missing. Every
      balance moves by what the saved logs say exactly when no debit met a missing row. */
  method IndexERC20Transfers(repo: Erc20BalanceRepository, chain: int, jobs: seq<Job>)
    returns (ok: bool, ghost order: seq<nat>)
    modifies repo
    ensures ok <==> AllSaved(jobs, {})
    ensures IsRun(jobs, order, {})
    ensures repo.rows == SaveAll(old(repo.rows), Transfers(chain, jobs, order))
    ensures NoDebitMisses(old(repo.rows), Transfers(chain, jobs, order)) <==>
            FollowsTheLogs(old(repo.rows), repo.rows, chain, jobs)
  {
    ok, order := true, [];
    var pending := UpTo(|jobs|);
    while pending != {}
      invariant forall i :: i in pending ==> i < |jobs|
      invariant IsRun(jobs, order, pending)
      invariant ok <==> AllSaved(jobs, pending)
      invariant repo.rows == SaveAll(old(repo.rows), Transfers(chain, jobs, order))
      decreases pending
    {
      var i :| i in pending;
      ghost var before := pending;
      pending := pending - {i};
      assert before == pending + {i};
      if IsERC20Transfer(jobs[i].log) {
        var saved := SaveERC20Transfer(repo, chain, jobs[i]);
        ok := ok && saved;
        if saved {
          RunSnoc(jobs, order, pending, i);
          TransfersSnoc(chain, jobs, order, i);
          order := order + [i];
        }
      }
    }
    RunFollowsTheLogs(old(repo.rows), repo.rows, chain, jobs, order);
  }

  lemma RunSnoc(jobs: seq<Job>, order: seq<nat>, pending: set<nat>, i: nat)
    requires IsRun(jobs, order, pending + {i}) && i !in pending && Saved(jobs, i)
    ensures IsRun(jobs, order + [i], pending)
  {
  }

  lemma TransfersSnoc(chain: int, jobs: seq<Job>, order: seq<nat>, i: nat)
    requires forall j :: j in order ==> Saved(jobs, j)
    requires Saved(jobs, i)
    ensures var xs := Transfers(chain, jobs, order);
            var x := TransferOf(chain, jobs[i].log, jobs[i].metadata.value);
            && Transfers(chain, jobs, order + [i]) == xs + [x]
            && forall t :: SaveAll(t, xs + [x]) == Save(SaveAll(t, xs), x)
  {
    assert (order + [i])[..|order|] == order;
    var xs := Transfers(chain, jobs, order);
    forall x ensures (xs + [x])[..|xs|] == xs {
    }
  }

  // ---- Any two orders agree ----

  /** Runs over the same jobs are permutations of one another. */
  lemma RunsPermute(jobs: seq<Job>, p: seq<nat>, q: seq<nat>)
    requires IsRun(jobs, p, {}) && IsRun(jobs, q, {})
    ensures multiset(p) == multiset(q)
  {
    forall i: nat ensures multiset(p)[i] == multiset(q)[i] {
      OccursOnce(p, i);
      OccursOnce(q, i);
    }
  }

  lemma {:induction false} OccursOnce(p: seq<nat>, i: nat)
    requires forall a, b :: 0 <= a < b < |p| ==> p[a] != p[b]
    ensures multiset(p)[i] == if i in p then 1 else 0
  {
    if p != [] {
      var init := p[..|p| - 1];
      assert p == init + [p[|p| - 1]];
      OccursOnce(init, i);
    }
  }

  lemma {:induction false} TransfersConcat(chain: int, jobs: seq<Job>, p: seq<nat>, q: seq<nat>)
    requires forall i :: i in p + q ==> Saved(jobs, i)
    ensures forall i :: i in p || i in q ==> i in p + q
    ensures Transfers(chain, jobs, p + q) == Transfers(chain, jobs, p) + Transfers(chain, jobs, q)
  {
    assert forall i :: i in p || i in q ==> i in p + q;
    if q == [] {
      assert p + q == p;
    } else {
      assert (p + q)[..|p + q| - 1] == p + q[..|q| - 1];
      TransfersConcat(chain, jobs, p, q[..|q| - 1]);
    }
  }

  lemma {:induction false} TransfersPermute(chain: int, jobs: seq<Job>, p: seq<nat>, q: seq<nat>)
    requires forall i :: i in p || i in q ==> Saved(jobs, i)
    requires multiset(p) == multiset(q)
    ensures multiset(Transfers(chain, jobs, p)) == multiset(Transfers(chain, jobs, q))
    decreases |p|
  {
    if p == [] {
      assert |multiset(q)| == 0;
    } else {
      var init, i := p[..|p| - 1], p[|p| - 1];
      assert i in multiset(q);
      var j :| 0 <= j < |q| && q[j] == i;
      var a, b := q[..j], q[j + 1..];
      SamePermutation(p, q, j);
      assert (forall h :: h in init ==> h in p) && (forall h :: h in a || h in b ==> h in q);
      TransfersPermute(chain, jobs, init, a + b);
      MovedToEnd(chain, jobs, a, i, b);
    }
  }

  lemma SamePermutation(p: seq<nat>, q: seq<nat>, j: nat)
    requires p != [] && multiset(p) == multiset(q) && j < |q| && q[j] == p[|p| - 1]
    ensures q == q[..j] + [q[j]] + q[j + 1..]
    ensures multiset(p[..|p| - 1]) == multiset(q[..j] + q[j + 1..])
  {
    assert p == p[..|p| - 1] + [q[j]];
    assert q == q[..j] + [q[j]] + q[j + 1..];
    assert multiset(p[..|p| - 1]) == multiset(p) - multiset{q[j]} == multiset(q[..j] + q[j + 1..]);
  }

  lemma MovedToEnd(chain: int, jobs: seq<Job>, a: seq<nat>, i: nat, b: seq<nat>)
    requires Saved(jobs, i) && forall h :: h in a || h in b ==> Saved(jobs, h)
    ensures (forall h :: h in a + [i] + b ==> Saved(jobs, h)) && (forall h :: h in a + b ==> Saved(jobs, h))
    ensures multiset(Transfers(chain, jobs, a + [i] + b))
         == multiset(Transfers(chain, jobs, a + b) + [TransferOf(chain, jobs[i].log, jobs[i].metadata.value)])
  {
    var x := TransferOf(chain, jobs[i].log, jobs[i].metadata.value);
    var xs, ys := Transfers(chain, jobs, a), Transfers(chain, jobs, b);
    TransfersConcat(chain, jobs, a + [i], b);
    TransfersSnoc(chain, jobs, a, i);
    TransfersConcat(chain, jobs, a, b);
    assert Transfers(chain, jobs, a + [i] + b) == xs + [x] + ys;
    SameContents(xs, x, ys);
  }

  lemma SameContents(xs: seq<Transfer>, x: Transfer, ys: seq<Transfer>)
    ensures multiset(xs + [x] + ys) == multiset(xs + ys + [x])
  {
  }

  /** However the workers interleave, two runs in which no debit meets a missing row leave each holder
      the same balance, and that balance is the ledger's. */
  lemma WorkersMayFinishInAnyOrder(t: Table, chain: int, jobs: seq<Job>, p: seq<nat>, q: seq<nat>, k: Key)
    requires IsRun(jobs, p, {}) && IsRun(jobs, q, {})
    requires NoDebitMisses(t, Transfers(chain, jobs, p)) && NoDebitMisses(t, Transfers(chain, jobs, q))
    ensures Balance(SaveAll(t, Transfers(chain, jobs, p)), k)
         == Balance(SaveAll(t, Transfers(chain, jobs, q)), k)
         == Balance(t, k) + Ledger(Transfers(chain, jobs, p), k)
  {
    RunsPermute(jobs, p, q);
    TransfersPermute(chain, jobs, p, q);
    OrderDoesNotMatter(t, Transfers(chain, jobs, p), Transfers(chain, jobs, q), k);
    FollowsLedgerIff(t, Transfers(chain, jobs, p));
  }

  /** The positions below `n` of the saved transfers, in log order. */
  ghost function LogOrder(jobs: seq<Job>, n: nat): (order: seq<nat>)
    requires n <= |jobs|
    ensures forall i: nat :: i in order <==> Saved(jobs, i) && i < n
    ensures forall a :: 0 <= a < |order| ==> order[a] < n
    ensures forall a, b :: 0 <= a < b < |order| ==> order[a] < order[b]
  {
    if n == 0 then []
    else if Saved(jobs, n - 1) then LogOrder(jobs, n - 1) + [n - 1]
    else LogOrder(jobs, n - 1)
  }

  /** If each sender debited starts with at least all that the saved transfers take from it, then every
      interleaving of the workers follows the ledger and ends with the same balances. */
  lemma FundedSendersMakeOrderIrrelevant(t: Table, chain: int, jobs: seq<Job>, p: seq<nat>, k: Key)
    requires IsRun(jobs, p, {})
    requires Funded(t, Transfers(chain, jobs, LogOrder(jobs, |jobs|)))
    ensures NoDebitMisses(t, Transfers(chain, jobs, p))
    ensures Balance(SaveAll(t, Transfers(chain, jobs, p)), k)
         == Balance(SaveAll(t, Transfers(chain, jobs, LogOrder(jobs, |jobs|))), k)
         == Balance(t, k) + Ledger(Transfers(chain, jobs, LogOrder(jobs, |jobs|)), k)
  {
    var q := LogOrder(jobs, |jobs|);
    RunsPermute(jobs, q, p);
    TransfersPermute(chain, jobs, q, p);
    FundedInAnyOrder(t, Transfers(chain, jobs, q), Transfers(chain, jobs, p));
    FundedMissesNothing(t, Transfers(chain, jobs, q));
    WorkersMayFinishInAnyOrder(t, chain, jobs, q, p, k);
  }

  // ---- The ledger of the logs ----

  /** What a log adds to a holder's account, and what it takes: its second indexed topic is credited, its first
      debited unless that is the zero address. */
  function LogEntry(chain: int, l: Log, k: Key): int
    requires IsERC20Transfer(l) && l.value.Some?
  {
    (if k == Key(chain, l.contract, l.topics[2] % TWO_TO_160) then l.value.value else 0) -
    (if k == Key(chain, l.contract, l.topics[1] % TWO_TO_160) && k.holder != ZERO_ADDRESS then l.value.value else 0)
  }

  /** The entries of the saved logs at these positions. */
  ghost function LogLedger(chain: int, jobs: seq<Job>, order: seq<nat>, k: Key): int
    requires forall i :: i in order ==> Saved(jobs, i)
  {
    if order == [] then 0
    else
      var i := order[|order| - 1];
      assert Saved(jobs, i);
      LogLedger(chain, jobs, order[..|order| - 1], k) + LogEntry(chain, jobs[i].log, k)
  }

  lemma {:induction false} LedgerOfLogs(chain: int, jobs: seq<Job>, order: seq<nat>, k: Key)
    requires forall i :: i in order ==> Saved(jobs, i)
    ensures Ledger(Transfers(chain, jobs, order), k) == LogLedger(chain, jobs, order, k)
  {
    if order == [] {
      NoLogs(chain, jobs, order, k);
    } else {
      var init, i := order[..|order| - 1], order[|order| - 1];
      assert order == init + [i] && Saved(jobs, i);
      LedgerOfLogs(chain, jobs, init, k);
      OneMoreLog(chain, jobs, init, i, k);
    }
  }

  lemma NoLogs(chain: int, jobs: seq<Job>, order: seq<nat>, k: Key)
    requires order == []
    ensures Ledger(Transfers(chain, jobs, order), k) == LogLedger(chain, jobs, order, k)
  {
  }

  lemma OneMoreLog(chain: int, jobs: seq<Job>, order: seq<nat>, i: nat, k: Key)
    requires Saved(jobs, i) && forall j :: j in order ==> Saved(jobs, j)
    ensures Ledger(Transfers(chain, jobs, order + [i]), k)
         == Ledger(Transfers(chain, jobs, order), k) + LogEntry(chain, jobs[i].log, k)
  {
    TransfersSnoc(chain, jobs, order, i);
    LedgerSnoc(Transfers(chain, jobs, order), TransferOf(chain, jobs[i].log, jobs[i].metadata.value), k);
  }

  /** From `t` to `u` every balance moves by what the saved logs say. */
  ghost predicate FollowsTheLogs(t: Table, u: Table, chain: int, jobs: seq<Job>) {
    forall k :: Balance(u, k) == Balance(t, k) + LogLedger(chain, jobs, LogOrder(jobs, |jobs|), k)
  }

  lemma LedgerOfRun(chain: int, jobs: seq<Job>, p: seq<nat>, k: Key)
    requires IsRun(jobs, p, {})
    ensures Ledger(Transfers(chain, jobs, p), k) == LogLedger(chain, jobs, LogOrder(jobs, |jobs|), k)
  {
    var q := LogOrder(jobs, |jobs|);
    RunsPermute(jobs, p, q);
    TransfersPermute(chain, jobs, p, q);
    LedgerIgnoresOrder(Transfers(chain, jobs, p), Transfers(chain, jobs, q), k);
    LedgerOfLogs(chain, jobs, q, k);
  }

  /** A run of the workers leaves every balance where the logs put it exactly when no debit met a missing row. */
  lemma RunFollowsTheLogs(t: Table, u: Table, chain: int, jobs: seq<Job>, p: seq<nat>)
    requires IsRun(jobs, p, {}) && u == SaveAll(t, Transfers(chain, jobs, p))
    ensures NoDebitMisses(t, Transfers(chain, jobs, p)) <==> FollowsTheLogs(t, u, chain, jobs)
  {
    var xs := Transfers(chain, jobs, p);
    FollowsLedgerIff(t, xs);
    if NoDebitMisses(t, xs) {
      forall k ensures Balance(u, k) == Balance(t, k) + LogLedger(chain, jobs, LogOrder(jobs, |jobs|), k) {
        LedgerOfRun(chain, jobs, p, k);
        assert Balance(SaveAll(t, xs), k) == Balance(t, k) + Ledger(xs, k);
      }
    }
    if FollowsTheLogs(t, u, chain, jobs) {
      forall k ensures Balance(SaveAll(t, xs), k) == Balance(t, k) + Ledger(xs, k) {
        LedgerOfRun(chain, jobs, p, k);
        assert Balance(u, k) == Balance(t, k) + LogLedger(chain, jobs, LogOrder(jobs, |jobs|), k);
      }
    }
  }
}
