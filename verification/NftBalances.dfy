/** The NFT balance table. Token ids and amounts are kept in 64-bit signed columns. */
module NftBalances {
  import opened Integers
  import opened Options
  import opened Transactions

  type Address = nat
  const ZERO_ADDRESS: Address := 0

  datatype Kind = ERC721 | ERC1155

  datatype Key = Key(chain: int, contract: Address, tokenId: int, holder: Address)

  datatype Row = Row(kind: Kind, amount: int)

  type Table = map<Key, Row>

  datatype UpdateOpts = UpdateOpts(key: Key, kind: Kind, amount: int)

  /** One balance movement, its token id and amount already cut to 64 bits. */
  datatype Movement = Movement(
    chain: int, contract: Address, kind: Kind, tokenId: int, from: Address, to: Address, amount: int)
  {
    function ToKey(): Key { Key(chain, contract, tokenId, to) }
    function FromKey(): Key { Key(chain, contract, tokenId, from) }
  }

  // ---- The table's operations ----

  function Balance(t: Table, k: Key): int {
    if k in t then t[k].amount else 0
  }

  function Increase(t: Table, o: UpdateOpts): Table {
    var row := if o.key in t then t[o.key] else Row(o.kind, 0);
    t[o.key := row.(amount := Int64(row.amount + o.amount))]
  }

  /** A debit of a holder without a row is dropped; a row debited to zero is deleted. */
  function Decrease(t: Table, o: UpdateOpts): Table {
    if o.key !in t then t
    else
      var row := t[o.key];
      if Int64(row.amount - o.amount) == 0 then t - {o.key}
      else t[o.key := row.(amount := Int64(row.amount - o.amount))]
  }

  function Apply(t: Table, increase: UpdateOpts, decrease: Option<UpdateOpts>): Table {
    var credited := Increase(t, increase);
    if decrease.Some? && decrease.value.amount != 0 then Decrease(credited, decrease.value) else credited
  }

  function IncreaseOpts(x: Movement): UpdateOpts {
    UpdateOpts(x.ToKey(), x.kind, x.amount)
  }

  /** The zero address is not debited: a movement from it is a mint. */
  function DecreaseOpts(x: Movement): Option<UpdateOpts> {
    if x.from != ZERO_ADDRESS then Some(UpdateOpts(x.FromKey(), x.kind, x.amount)) else None
  }

  function Save(t: Table, x: Movement): Table {
    Apply(t, IncreaseOpts(x), DecreaseOpts(x))
  }

  function SaveAll(t: Table, xs: seq<Movement>): Table {
    if xs == [] then t else Save(SaveAll(t, xs[..|xs| - 1]), xs[|xs| - 1])
  }

  lemma SaveAllSnoc(t: Table, xs: seq<Movement>, x: Movement)
    ensures SaveAll(t, xs + [x]) == Save(SaveAll(t, xs), x)
  {
    assert (xs + [x])[..|xs|] == xs;
  }

  // ---- The ledger, modulo 2^64 ----

  function CreditOf(x: Movement, k: Key): int {
    if x.ToKey() == k then x.amount else 0
  }

  function DebitOf(x: Movement, k: Key): int {
    if x.from != ZERO_ADDRESS && x.FromKey() == k then x.amount else 0
  }

  function Ledger(xs: seq<Movement>, k: Key): int {
    if xs == [] then 0
    else
      var x := xs[|xs| - 1];
      Ledger(xs[..|xs| - 1], k) + CreditOf(x, k) - DebitOf(x, k)
  }

  /** The movement debits a holder who, even once it is credited, has no row. */
  predicate DebitMisses(t: Table, x: Movement) {
    x.from != ZERO_ADDRESS && x.amount != 0 && x.FromKey() !in Increase(t, IncreaseOpts(x))
  }

  function Missed(t: Table, xs: seq<Movement>, k: Key): int {
    if xs == [] then 0
    else
      var before, x := SaveAll(t, xs[..|xs| - 1]), xs[|xs| - 1];
      Missed(t, xs[..|xs| - 1], k) + (if DebitMisses(before, x) then DebitOf(x, k) else 0)
  }

  /** What a movement does to a balance in a table. */
  function Change(t: Table, x: Movement, k: Key): int {
    CreditOf(x, k) - (if DebitMisses(t, x) then 0 else DebitOf(x, k))
  }

  predicate Fits(t: Table) {
    forall k :: k in t ==> IsInt64(t[k].amount)
  }

  lemma SaveBalance(t: Table, x: Movement, k: Key)
    requires Fits(t)
    ensures Fits(Save(t, x))
    ensures Balance(Save(t, x), k)
         == Int64(Balance(t, k) + Change(t, x, k))
  {
    var credited := Increase(t, IncreaseOpts(x));
    CreditBalance(t, IncreaseOpts(x), k);
    if x.from != ZERO_ADDRESS && x.amount != 0 {
      DebitBalance(credited, UpdateOpts(x.FromKey(), x.kind, x.amount), k);
      Int64AfterInt64(Balance(t, k) + CreditOf(x, k), -x.amount);
    }
  }

  lemma CreditBalance(t: Table, o: UpdateOpts, k: Key)
    requires Fits(t)
    ensures Fits(Increase(t, o))
    ensures Balance(Increase(t, o), k) == Int64(Balance(t, k) + (if k == o.key then o.amount else 0))
  {
  }

  lemma DebitBalance(t: Table, o: UpdateOpts, k: Key)
    requires Fits(t)
    ensures Fits(Decrease(t, o))
    ensures Balance(Decrease(t, o), k) == Int64(Balance(t, k) - (if k == o.key && k in t then o.amount else 0))
  {
  }

  /** From `t` to `u` the receiver is credited with the amount, the sender is debited with it unless that is the
      zero address or has no row by then, all in 64 bits, and no other balance moves. */
  ghost predicate Moves(t: Table, u: Table, sender: Key, receiver: Key, amount: int) {
    var debited := sender.holder != ZERO_ADDRESS && (sender in t || sender == receiver);
    && Balance(u, receiver) == Int64(Balance(t, receiver) + (if debited && sender == receiver then 0 else amount))
    && (sender != receiver ==> Balance(u, sender) == Int64(Balance(t, sender) - (if debited then amount else 0)))
    && (forall k :: k != sender && k != receiver ==> Balance(u, k) == Balance(t, k))
  }

  lemma SaveMoves(t: Table, x: Movement)
    requires Fits(t)
    ensures Fits(Save(t, x)) && Moves(t, Save(t, x), x.FromKey(), x.ToKey(), x.amount)
  {
    forall k ensures Fits(Save(t, x)) && Balance(Save(t, x), k) == Int64(Balance(t, k) + Change(t, x, k)) {
      SaveBalance(t, x, k);
    }
  }

  /** After any history, each balance is the ledger's plus the dropped debits, in 64-bit arithmetic. */
  lemma {:induction false} BalanceIsLedgerPlusMissed(t: Table, xs: seq<Movement>, k: Key)
    requires Fits(t)
    ensures Fits(SaveAll(t, xs))
    ensures Balance(SaveAll(t, xs), k) == Int64(Balance(t, k) + Ledger(xs, k) + Missed(t, xs, k))
  {
    if xs == [] {
      NothingMoved(t, xs, k);
    } else {
      BalanceIsLedgerPlusMissed(t, xs[..|xs| - 1], k);
      var init, before := xs[..|xs| - 1], SaveAll(t, xs[..|xs| - 1]);
      LedgerChanges(t, xs, k);
      OneMoreMoved(before, xs[|xs| - 1], k, Balance(t, k) + Ledger(init, k) + Missed(t, init, k),
                   Balance(t, k) + Ledger(xs, k) + Missed(t, xs, k));
    }
  }

  lemma OneMoreMoved(t: Table, x: Movement, k: Key, exact: int, next: int)
    requires Fits(t) && Balance(t, k) == Int64(exact) && next == exact + Change(t, x, k)
    ensures Fits(Save(t, x)) && Balance(Save(t, x), k) == Int64(next)
  {
    SaveBalance(t, x, k);
    Int64AfterInt64(exact, Change(t, x, k));
  }

  lemma NothingMoved(t: Table, xs: seq<Movement>, k: Key)
    requires Fits(t) && xs == []
    ensures SaveAll(t, xs) == t
    ensures Balance(SaveAll(t, xs), k) == Int64(Balance(t, k) + Ledger(xs, k) + Missed(t, xs, k))
  {
    assert Ledger(xs, k) == Missed(t, xs, k) == 0;
  }

  lemma LedgerChanges(t: Table, xs: seq<Movement>, k: Key)
    requires xs != []
    ensures var init := xs[..|xs| - 1];
            Ledger(xs, k) + Missed(t, xs, k)
            == Ledger(init, k) + Missed(t, init, k) + Change(SaveAll(t, init), xs[|xs| - 1], k)
  {
  }

  // ---- The repository ----

  class NftBalanceRepository {
    var rows: Table

    constructor ()
      ensures rows == map[]
    {
      rows := map[];
    }

    method IncreaseBalanceInDB(o: UpdateOpts)
      modifies this
      ensures rows == Increase(old(rows), o) && rows - {o.key} == old(rows) - {o.key}
      ensures o.key in rows
           && rows[o.key].amount == Int64(Balance(old(rows), o.key) + o.amount)
           && rows[o.key].kind == if o.key in old(rows) then old(rows)[o.key].kind else o.kind
    {
      var b := Row(o.kind, 0);
      if o.key in rows {
        b := rows[o.key];
      }
      b := b.(amount := Int64(b.amount + o.amount));
      rows := rows[o.key := b];
    }

    method DecreaseBalanceInDB(o: UpdateOpts)
      modifies this
      ensures rows == Decrease(old(rows), o) && rows - {o.key} == old(rows) - {o.key}
      ensures o.key in rows <==> o.key in old(rows) && Int64(old(rows)[o.key].amount - o.amount) != 0
      ensures o.key in rows ==> rows[o.key].amount == Int64(old(rows)[o.key].amount - o.amount)
    {
      if o.key !in rows {
        return;
      }
      var b := rows[o.key];
      b := b.(amount := Int64(b.amount - o.amount));
      if b.amount == 0 {
        rows := rows - {o.key};
      } else {
        rows := rows[o.key := b];
      }
    }

    /** One attempt at the transaction, rolled back unless it commits. */
    method Attempt(increase: UpdateOpts, decrease: Option<UpdateOpts>, outcome: TxOutcome)
      modifies this
      ensures rows == if outcome == Commits then Apply(old(rows), increase, decrease) else old(rows)
    {
      var before := rows;
      IncreaseBalanceInDB(increase);
      if decrease.Some? && decrease.value.amount != 0 {
        DecreaseBalanceInDB(decrease.value);
      }
      if outcome != Commits {
        rows := before;
      }
    }

    /** The update is applied once when the call succeeds and not at all when it fails. */
    method IncreaseAndDecreaseBalancesInTx(
      increase: UpdateOpts, decrease: Option<UpdateOpts>, attempt: nat -> TxOutcome)
      returns (ok: bool)
      modifies this
      ensures ok <==> EventuallyCommits(attempt)
      ensures rows == if ok then Apply(old(rows), increase, decrease) else old(rows)
    {
      var retries := RETRIES;
      while retries > 0
        invariant 0 <= retries <= RETRIES
        invariant rows == old(rows)
        invariant AllDeadlock(attempt, RETRIES - retries)
      {
        var outcome := attempt(RETRIES - retries);
        Attempt(increase, decrease, outcome);
        match outcome {
          case Commits => return true;
          case Deadlocks => retries := retries - 1;
          case Fails => return false;
        }
      }
      return false;
    }
  }
}
