/** The ERC-20 balance table and what a history of transfers makes of it. */
module Erc20Balances {
  import opened Options
  import opened Transactions

  type Address = nat
  const ZERO_ADDRESS: Address := 0

  datatype Key = Key(chain: int, contract: Address, holder: Address)

  datatype Row = Row(metadataId: int, amount: int)

  type Table = map<Key, Row>

  datatype UpdateOpts = UpdateOpts(metadataId: int, key: Key, amount: int)

  datatype Transfer = Transfer(chain: int, contract: Address, metadataId: int, from: Address, to: Address, amount: nat)
  {
    function ToKey(): Key { Key(chain, contract, to) }
    function FromKey(): Key { Key(chain, contract, from) }
  }

  // ---- The table's operations ----

  function Balance(t: Table, k: Key): int {
    if k in t then t[k].amount else 0
  }

  function Increase(t: Table, o: UpdateOpts): Table {
    var row := if o.key in t then t[o.key] else Row(o.metadataId, 0);
    t[o.key := row.(amount := row.amount + o.amount)]
  }

  /** A debit of a holder without a row is dropped; a row debited to zero is deleted. */
  function Decrease(t: Table, o: UpdateOpts): Table {
    if o.key !in t then t
    else
      var row := t[o.key];
      if row.amount - o.amount == 0 then t - {o.key}
      else t[o.key := row.(amount := row.amount - o.amount)]
  }

  function Apply(t: Table, increase: UpdateOpts, decrease: Option<UpdateOpts>): Table {
    var credited := Increase(t, increase);
    if decrease.Some? && decrease.value.amount != 0 then Decrease(credited, decrease.value) else credited
  }

  function IncreaseOpts(x: Transfer): UpdateOpts {
    UpdateOpts(x.metadataId, x.ToKey(), x.amount)
  }

  /** The zero address is not debited: a transfer from it is a mint. */
  function DecreaseOpts(x: Transfer): Option<UpdateOpts> {
    if x.from != ZERO_ADDRESS then Some(UpdateOpts(x.metadataId, x.FromKey(), x.amount)) else None
  }

  function Save(t: Table, x: Transfer): Table {
    Apply(t, IncreaseOpts(x), DecreaseOpts(x))
  }

  function SaveAll(t: Table, xs: seq<Transfer>): Table {
    if xs == [] then t else Save(SaveAll(t, xs[..|xs| - 1]), xs[|xs| - 1])
  }

  // ---- The ledger ----

  function CreditOf(x: Transfer, k: Key): nat {
    if x.ToKey() == k then x.amount else 0
  }

  function DebitOf(x: Transfer, k: Key): nat {
    if x.from != ZERO_ADDRESS && x.FromKey() == k then x.amount else 0
  }

  /** The simple ledger: credits less debits, where the zero address is credited but never debited. */
  function Ledger(xs: seq<Transfer>, k: Key): int {
    if xs == [] then 0
    else
      var x := xs[|xs| - 1];
      Ledger(xs[..|xs| - 1], k) + CreditOf(x, k) - DebitOf(x, k)
  }

  lemma LedgerSnoc(xs: seq<Transfer>, x: Transfer, k: Key)
    ensures Ledger(xs + [x], k) == Ledger(xs, k) + CreditOf(x, k) - DebitOf(x, k)
  {
    assert (xs + [x])[..|xs|] == xs;
  }

  /** The transfer debits a holder who, even once it is credited, has no row. */
  predicate DebitMisses(t: Table, x: Transfer) {
    x.from != ZERO_ADDRESS && x.amount != 0 && x.FromKey() !in Increase(t, IncreaseOpts(x))
  }

  /** What the dropped debits of `k` add up to. */
  function Missed(t: Table, xs: seq<Transfer>, k: Key): nat {
    if xs == [] then 0
    else
      var before, x := SaveAll(t, xs[..|xs| - 1]), xs[|xs| - 1];
      Missed(t, xs[..|xs| - 1], k) + (if DebitMisses(before, x) then DebitOf(x, k) else 0)
  }

  ghost predicate NoDebitMisses(t: Table, xs: seq<Transfer>) {
    forall i :: 0 <= i < |xs| ==> !DebitMisses(SaveAll(t, xs[..i]), xs[i])
  }

  lemma SaveBalance(t: Table, x: Transfer, k: Key)
    ensures Balance(Save(t, x), k)
         == Balance(t, k) + CreditOf(x, k) - (if DebitMisses(t, x) then 0 else DebitOf(x, k))
  {
  }

  /** From `t` to `u` the receiver is credited with the value, the sender is debited with it unless that is
      the zero address or has no row by then, and no other balance moves. */
  ghost predicate Moves(t: Table, u: Table, sender: Key, receiver: Key, value: nat) {
    var debited := sender.holder != ZERO_ADDRESS && (sender in t || sender == receiver);
    && Balance(u, receiver) == Balance(t, receiver) + value - (if debited && sender == receiver then value else 0)
    && (sender != receiver ==> Balance(u, sender) == Balance(t, sender) - (if debited then value else 0))
    && (forall k :: k != sender && k != receiver ==> Balance(u, k) == Balance(t, k))
  }

  /** A transfer of nothing changes no row there is, an empty one included. */
  lemma TransferOfNothing(t: Table, x: Transfer, k: Key)
    requires x.amount == 0 && k in t
    ensures k in Save(t, x) && Save(t, x)[k] == t[k]
  {
  }

  lemma SaveMoves(t: Table, x: Transfer)
    ensures Moves(t, Save(t, x), x.FromKey(), x.ToKey(), x.amount)
  {
    forall k ensures Balance(Save(t, x), k)
                  == Balance(t, k) + CreditOf(x, k) - (if DebitMisses(t, x) then 0 else DebitOf(x, k))
    {
      SaveBalance(t, x, k);
    }
  }

  /** After any history on any table, each balance is off the ledger by exactly the dropped debits. */
  lemma {:induction false} BalanceIsLedgerPlusMissed(t: Table, xs: seq<Transfer>, k: Key)
    ensures Balance(SaveAll(t, xs), k) == Balance(t, k) + Ledger(xs, k) + Missed(t, xs, k)
  {
    if xs != [] {
      BalanceIsLedgerPlusMissed(t, xs[..|xs| - 1], k);
      SaveBalance(SaveAll(t, xs[..|xs| - 1]), xs[|xs| - 1], k);
    }
  }

  lemma {:induction false} MissedAt(t: Table, xs: seq<Transfer>, i: nat)
    requires i < |xs| && DebitMisses(SaveAll(t, xs[..i]), xs[i])
    ensures Missed(t, xs, xs[i].FromKey()) > 0
  {
    var init := xs[..|xs| - 1];
    if i < |init| {
      assert init[..i] == xs[..i];
      MissedAt(t, init, i);
    }
  }

  lemma {:induction false} NothingMissed(t: Table, xs: seq<Transfer>, k: Key)
    requires NoDebitMisses(t, xs)
    ensures Missed(t, xs, k) == 0
  {
    if xs != [] {
      var init := xs[..|xs| - 1];
      forall i | 0 <= i < |init| ensures !DebitMisses(SaveAll(t, init[..i]), init[i]) {
        assert init[..i] == xs[..i];
      }
      NothingMissed(t, init, k);
      assert !DebitMisses(SaveAll(t, xs[..|init|]), xs[|init|]);
    }
  }

  /** The table follows the ledger on every holder exactly when no debit meets a missing row. */
  lemma FollowsLedgerIff(t: Table, xs: seq<Transfer>)
    ensures NoDebitMisses(t, xs) <==>
            forall k :: Balance(SaveAll(t, xs), k) == Balance(t, k) + Ledger(xs, k)
  {
    if NoDebitMisses(t, xs) {
      forall k ensures Balance(SaveAll(t, xs), k) == Balance(t, k) + Ledger(xs, k) {
        BalanceIsLedgerPlusMissed(t, xs, k);
        NothingMissed(t, xs, k);
      }
    } else {
      var i :| 0 <= i < |xs| && DebitMisses(SaveAll(t, xs[..i]), xs[i]);
      MissedAt(t, xs, i);
      BalanceIsLedgerPlusMissed(t, xs, xs[i].FromKey());
    }
  }

  // ---- Order ----

  function Sum(xs: seq<Transfer>, weight: Transfer -> int): int {
    if xs == [] then 0 else Sum(xs[..|xs| - 1], weight) + weight(xs[|xs| - 1])
  }

  lemma {:induction false} SumConcat(xs: seq<Transfer>, ys: seq<Transfer>, weight: Transfer -> int)
    ensures Sum(xs + ys, weight) == Sum(xs, weight) + Sum(ys, weight)
  {
    if ys == [] {
      assert xs + ys == xs;
    } else {
      assert (xs + ys)[..|xs + ys| - 1] == xs + ys[..|ys| - 1];
      SumConcat(xs, ys[..|ys| - 1], weight);
    }
  }

  lemma SplitAt(ys: seq<Transfer>, x: Transfer) returns (a: seq<Transfer>, b: seq<Transfer>)
    requires x in ys
    ensures ys == a + [x] + b && multiset(ys) == multiset(a + b) + multiset{x}
  {
    var j :| 0 <= j < |ys| && ys[j] == x;
    a, b := ys[..j], ys[j + 1..];
    assert ys == a + [x] + b;
  }

  lemma {:induction false} SumIgnoresOrder(xs: seq<Transfer>, ys: seq<Transfer>, weight: Transfer -> int)
    requires multiset(xs) == multiset(ys)
    ensures Sum(xs, weight) == Sum(ys, weight)
    decreases |xs|
  {
    if xs == [] {
      assert |multiset(ys)| == 0;
    } else {
      var init, x := xs[..|xs| - 1], xs[|xs| - 1];
      assert xs == init + [x];
      assert x in multiset(ys);
      var a, b := SplitAt(ys, x);
      assert multiset(init) == multiset(xs) - multiset{x} == multiset(a + b);
      SumIgnoresOrder(init, a + b, weight);
      SumWithout(a, x, b, weight);
      SumConcat(init, [x], weight);
    }
  }

  lemma SumWithout(a: seq<Transfer>, x: Transfer, b: seq<Transfer>, weight: Transfer -> int)
    ensures Sum(a + [x] + b, weight) == Sum(a + b, weight) + Sum([x], weight)
  {
    SumConcat(a + [x], b, weight);
    SumConcat(a, [x], weight);
    SumConcat(a, b, weight);
  }

  lemma {:induction false} LedgerIsSum(xs: seq<Transfer>, k: Key)
    ensures Ledger(xs, k) == Sum(xs, x => CreditOf(x, k) - DebitOf(x, k))
  {
    if xs != [] {
      LedgerIsSum(xs[..|xs| - 1], k);
    }
  }

  /** The ledger does not depend on the order of the transfers. */
  lemma LedgerIgnoresOrder(xs: seq<Transfer>, ys: seq<Transfer>, k: Key)
    requires multiset(xs) == multiset(ys)
    ensures Ledger(xs, k) == Ledger(ys, k)
  {
    LedgerIsSum(xs, k);
    LedgerIsSum(ys, k);
    SumIgnoresOrder(xs, ys, x => CreditOf(x, k) - DebitOf(x, k));
  }

  /** Two orders of the same transfers in which no debit meets a missing row end with equal balances. */
  lemma OrderDoesNotMatter(t: Table, xs: seq<Transfer>, ys: seq<Transfer>, k: Key)
    requires multiset(xs) == multiset(ys)
    requires NoDebitMisses(t, xs) && NoDebitMisses(t, ys)
    ensures Balance(SaveAll(t, xs), k) == Balance(SaveAll(t, ys), k)
  {
    FollowsLedgerIff(t, xs);
    FollowsLedgerIff(t, ys);
    LedgerIgnoresOrder(xs, ys, k);
  }

  function Debits(xs: seq<Transfer>, k: Key): int {
    Sum(xs, x => DebitOf(x, k))
  }

  /** Every sender debited starts with at least all that the transfers take from it. */
  ghost predicate Funded(t: Table, xs: seq<Transfer>) {
    forall x :: x in xs && x.from != ZERO_ADDRESS && x.amount != 0 ==>
      Balance(t, x.FromKey()) >= Debits(xs, x.FromKey())
  }

  lemma {:induction false} LedgerAtLeast(xs: seq<Transfer>, k: Key)
    ensures Ledger(xs, k) >= -Debits(xs, k)
  {
    if xs != [] {
      LedgerAtLeast(xs[..|xs| - 1], k);
    }
  }

  /** Senders funded beforehand are safe in this order... */
  lemma {:induction false} FundedMissesNothing(t: Table, xs: seq<Transfer>)
    requires Funded(t, xs)
    ensures NoDebitMisses(t, xs)
  {
    if xs != [] {
      var init, x := xs[..|xs| - 1], xs[|xs| - 1];
      assert forall y :: y in init ==> y in xs;
      assert forall k :: Debits(xs, k) == Debits(init, k) + DebitOf(x, k);
      FundedMissesNothing(t, init);
      FundedDebitHits(t, init, x);
      NextDebitHits(t, xs);
    }
  }

  lemma NextDebitHits(t: Table, xs: seq<Transfer>)
    requires xs != [] && NoDebitMisses(t, xs[..|xs| - 1]) && !DebitMisses(SaveAll(t, xs[..|xs| - 1]), xs[|xs| - 1])
    ensures NoDebitMisses(t, xs)
  {
    var n := |xs| - 1;
    forall i | 0 <= i < |xs| ensures !DebitMisses(SaveAll(t, xs[..i]), xs[i]) {
      if i < n {
        EarlierDebitHits(t, xs, i);
      }
    }
  }

  lemma EarlierDebitHits(t: Table, xs: seq<Transfer>, i: nat)
    requires i < |xs| - 1 && NoDebitMisses(t, xs[..|xs| - 1])
    ensures !DebitMisses(SaveAll(t, xs[..i]), xs[i])
  {
    var init := xs[..|xs| - 1];
    assert init[..i] == xs[..i] && !DebitMisses(SaveAll(t, init[..i]), init[i]);
  }

  lemma FundedDebitHits(t: Table, init: seq<Transfer>, x: Transfer)
    requires NoDebitMisses(t, init)
    requires x.from != ZERO_ADDRESS && x.amount != 0 ==>
             Balance(t, x.FromKey()) >= Debits(init, x.FromKey()) + x.amount
    ensures !DebitMisses(SaveAll(t, init), x)
  {
    FollowsLedgerIff(t, init);
    LedgerAtLeast(init, x.FromKey());
    assert Balance(SaveAll(t, init), x.FromKey()) == Balance(t, x.FromKey()) + Ledger(init, x.FromKey());
  }

  /** ...and in any other. */
  lemma FundedInAnyOrder(t: Table, xs: seq<Transfer>, ys: seq<Transfer>)
    requires Funded(t, xs) && multiset(xs) == multiset(ys)
    ensures Funded(t, ys) && NoDebitMisses(t, ys)
  {
    forall y | y in ys && y.from != ZERO_ADDRESS && y.amount != 0
      ensures Balance(t, y.FromKey()) >= Debits(ys, y.FromKey())
    {
      assert y in multiset(xs);
      SumIgnoresOrder(xs, ys, x => DebitOf(x, y.FromKey()));
    }
    FundedMissesNothing(t, ys);
  }

  /** Order does matter otherwise: a mint handled after the transfer that spends it leaves the spender
      with tokens it no longer has. */
  lemma LateMintKeepsSpentTokens()
    ensures var mint, spend := Transfer(1, 2, 3, ZERO_ADDRESS, 4, 5), Transfer(1, 2, 3, 4, 6, 5);
            && Balance(SaveAll(map[], [mint, spend]), Key(1, 2, 4)) == 0
            && Balance(SaveAll(map[], [spend, mint]), Key(1, 2, 4)) == 5
  {
    var mint, spend := Transfer(1, 2, 3, ZERO_ADDRESS, 4, 5), Transfer(1, 2, 3, 4, 6, 5);
    assert [mint, spend][..1] == [mint] && [spend, mint][..1] == [spend];
    assert [mint][..0] == [] && [spend][..0] == [];
    assert SaveAll(map[], [mint]) == Save(map[], mint);
    assert SaveAll(map[], [spend]) == Save(map[], spend);
  }

  // ---- Histories in log order ----

  /** Each sender but the zero address has what it sends, by the ledger, when it sends it. */
  ghost predicate Affordable(xs: seq<Transfer>) {
    forall i :: 0 <= i < |xs| && xs[i].from != ZERO_ADDRESS ==> Ledger(xs[..i], xs[i].FromKey()) >= xs[i].amount
  }

  lemma {:induction false} AffordableFollowsLedger(xs: seq<Transfer>)
    requires Affordable(xs)
    ensures NoDebitMisses(map[], xs)
    ensures forall k :: Balance(SaveAll(map[], xs), k) == Ledger(xs, k) >= 0
  {
    if xs != [] {
      var n := |xs| - 1;
      var init, x := xs[..n], xs[n];
      forall i | 0 <= i < n ensures init[..i] == xs[..i] {
      }
      AffordableFollowsLedger(init);
      assert Balance(SaveAll(map[], init), x.FromKey()) == Ledger(init, x.FromKey());
      NextDebitHits(map[], xs);
      forall k ensures Balance(SaveAll(map[], xs), k) == Ledger(xs, k) >= 0 {
        SaveBalance(SaveAll(map[], init), x, k);
        assert Ledger(init, k) >= 0;
      }
    }
  }

  /** FindByAddress: the holder's rows on the chain whose amount is positive. */
  function FindByAddress(t: Table, chain: int, holder: Address): set<Key> {
    set k | k in t && k.chain == chain && k.holder == holder && t[k].amount > 0
  }

  /** The query shows exactly the holder's rows on the chain in which it has a positive ledger balance. */
  lemma FindsPositiveHoldings(xs: seq<Transfer>, chain: int, holder: Address, k: Key)
    requires Affordable(xs)
    ensures k in FindByAddress(SaveAll(map[], xs), chain, holder)
       <==> k.chain == chain && k.holder == holder && Ledger(xs, k) > 0
  {
    AffordableFollowsLedger(xs);
    assert Balance(SaveAll(map[], xs), k) == Ledger(xs, k);
  }

  // ---- Totals ----

  ghost function Holdings(t: Table, contract: Address): set<Key> {
    set k | k in t && k.contract == contract
  }

  ghost function SumOver(t: Table, ks: set<Key>): int {
    if ks == {} then 0 else var k :| k in ks; Balance(t, k) + SumOver(t, ks - {k})
  }

  ghost function Total(t: Table, contract: Address): int {
    SumOver(t, Holdings(t, contract))
  }

  function Minted(xs: seq<Transfer>, contract: Address): nat {
    if xs == [] then 0
    else
      var x := xs[|xs| - 1];
      Minted(xs[..|xs| - 1], contract) +
      (if x.contract == contract && x.from == ZERO_ADDRESS then x.amount else 0)
  }

  lemma {:induction false} SumOverRemove(t: Table, ks: set<Key>, k: Key)
    requires k in ks
    ensures SumOver(t, ks) == Balance(t, k) + SumOver(t, ks - {k})
  {
    var m :| m in ks && SumOver(t, ks) == Balance(t, m) + SumOver(t, ks - {m});
    if m != k {
      SumOverRemove(t, ks - {m}, k);
      SumOverRemove(t, ks - {k}, m);
      assert ks - {m} - {k} == ks - {k} - {m};
    }
  }

  lemma {:induction false} SumOverSame(t: Table, u: Table, ks: set<Key>)
    requires forall k :: k in ks ==> Balance(t, k) == Balance(u, k)
    ensures SumOver(t, ks) == SumOver(u, ks)
  {
    if ks != {} {
      var k :| k in ks;
      SumOverRemove(t, ks, k);
      SumOverRemove(u, ks, k);
      SumOverSame(t, u, ks - {k});
    }
  }

  /** Writing or deleting one row moves the total by the change of that balance. */
  lemma TotalAfterWrite(t: Table, u: Table, k: Key, contract: Address)
    requires forall m :: m != k ==> (m in t <==> m in u) && Balance(t, m) == Balance(u, m)
    ensures Total(u, contract) - Total(t, contract)
         == if k.contract == contract then Balance(u, k) - Balance(t, k) else 0
  {
    var a, b := Holdings(t, contract), Holdings(u, contract);
    assert a - {k} == b - {k};
    SumOverSame(t, u, a - {k});
    if k in a { SumOverRemove(t, a, k); } else { assert a - {k} == a; }
    if k in b { SumOverRemove(u, b, k); } else { assert b - {k} == b; }
  }

  lemma TotalAfterSave(t: Table, x: Transfer, contract: Address)
    requires !DebitMisses(t, x)
    ensures Total(Save(t, x), contract) - Total(t, contract)
         == if x.contract == contract && x.from == ZERO_ADDRESS then x.amount else 0
  {
    var credited := Increase(t, IncreaseOpts(x));
    TotalAfterWrite(t, credited, x.ToKey(), contract);
    if x.from != ZERO_ADDRESS && x.amount != 0 {
      TotalAfterWrite(credited, Save(t, x), x.FromKey(), contract);
    }
  }

  /** What the table holds of a contract grows by what the contract mints, and by nothing else. */
  lemma {:induction false} TotalIsMinted(t: Table, xs: seq<Transfer>, contract: Address)
    requires NoDebitMisses(t, xs)
    ensures Total(SaveAll(t, xs), contract) == Total(t, contract) + Minted(xs, contract)
  {
    if xs != [] {
      var n := |xs| - 1;
      forall i | 0 <= i < n ensures !DebitMisses(SaveAll(t, xs[..n][..i]), xs[..n][i]) {
        assert xs[..n][..i] == xs[..i];
      }
      TotalIsMinted(t, xs[..n], contract);
      assert !DebitMisses(SaveAll(t, xs[..n]), xs[n]);
      TotalAfterSave(SaveAll(t, xs[..n]), xs[n], contract);
    }
  }

  // ---- The repository ----

  class Erc20BalanceRepository {
    var rows: Table

    constructor ()
      ensures rows == map[]
    {
      rows := map[];
    }

    method IncreaseBalanceInDB(o: UpdateOpts)
      modifies this
      ensures rows == Increase(old(rows), o) && rows - {o.key} == old(rows) - {o.key}
      ensures o.key in rows
           && rows[o.key].amount == Balance(old(rows), o.key) + o.amount
           && rows[o.key].metadataId == if o.key in old(rows) then old(rows)[o.key].metadataId else o.metadataId
    {
      var b := Row(o.metadataId, 0);
      if o.key in rows {
        b := rows[o.key];
      }
      b := b.(amount := b.amount + o.amount);
      rows := rows[o.key := b];
    }

    method DecreaseBalanceInDB(o: UpdateOpts)
      modifies this
      ensures rows == Decrease(old(rows), o) && rows - {o.key} == old(rows) - {o.key}
      ensures o.key in rows <==> o.key in old(rows) && old(rows)[o.key].amount - o.amount != 0
      ensures o.key in rows ==> rows[o.key].amount == old(rows)[o.key].amount - o.amount
    {
      if o.key !in rows {
        return;
      }
      var b := rows[o.key];
      b := b.(amount := b.amount - o.amount);
      if b.amount == 0 {
        rows := rows - {o.key};
      } else {
        rows := rows[o.key := b];
      }
    }

    /** One attempt at the transaction, rolled back unless it commits. */
    method Attempt(increase: UpdateOpts, decrease: Option<UpdateOpts>, outcome: TxOutcome)
      modifies this
      ensures rows == if outcome == Commits then Apply(old(rows), increase, decrease) else old(rows)
    {
      var before := rows;
      IncreaseBalanceInDB(increase);
      if decrease.Some? && decrease.value.amount != 0 {
        DecreaseBalanceInDB(decrease.value);
      }
      if outcome != Commits {
        rows := before;
      }
    }

    /** The update is applied once when the call succeeds and not at all when it fails; it succeeds exactly
        when one of the first `RETRIES` attempts commits and only deadlocks precede it. */
    method IncreaseAndDecreaseBalancesInTx(
      increase: UpdateOpts, decrease: Option<UpdateOpts>, attempt: nat -> TxOutcome)
      returns (ok: bool)
      modifies this
      ensures ok <==> EventuallyCommits(attempt)
      ensures rows == if ok then Apply(old(rows), increase, decrease) else old(rows)
    {
      var retries := RETRIES;
      while retries > 0
        invariant 0 <= retries <= RETRIES
        invariant rows == old(rows)
        invariant AllDeadlock(attempt, RETRIES - retries)
      {
        var outcome := attempt(RETRIES - retries);
        Attempt(increase, decrease, outcome);
        match outcome {
          case Commits => return true;
          case Deadlocks => retries := retries - 1;
          case Fails => return false;
        }
      }
      return false;
    }
  }
}
