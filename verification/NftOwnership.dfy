/** What the NFT table says about ERC-721 tokens, against who owns them by the standard. */
module NftOwnership {
  import opened Integers
  import opened NftBalances

  /** An ERC-721 Transfer event of one chain; `id` is the whole 256-bit token id. */
  datatype Transfer = Transfer(contract: Address, id: nat, from: Address, to: Address)

  function Move(chain: int, x: Transfer): Movement {
    Movement(chain, x.contract, ERC721, Int64(x.id), x.from, x.to, 1)
  }

  /** The table once these events are saved in order. */
  function TableOf(chain: int, xs: seq<Transfer>): Table {
    if xs == [] then map[] else Save(TableOf(chain, xs[..|xs| - 1]), Move(chain, xs[|xs| - 1]))
  }

  /** The owner after these events; the zero address before the token is minted and after it is burnt. */
  function Owner(xs: seq<Transfer>, contract: Address, id: nat): Address {
    if xs == [] then ZERO_ADDRESS
    else
      var x := xs[|xs| - 1];
      if x.contract == contract && x.id == id then x.to else Owner(xs[..|xs| - 1], contract, id)
  }

  /** Every event moves its token away from its owner: only unowned tokens are minted. */
  ghost predicate Valid(xs: seq<Transfer>) {
    forall i :: 0 <= i < |xs| ==> xs[i].from == Owner(xs[..i], xs[i].contract, xs[i].id)
  }

  /** The ids of the contract that the holder owns and that the table cannot tell from `tokenId`. */
  function Owned(xs: seq<Transfer>, contract: Address, tokenId: int, holder: Address): set<nat> {
    set x | x in xs && x.contract == contract && Int64(x.id) == tokenId && Owner(xs, contract, x.id) == holder :: x.id
  }

  lemma {:induction false} OwnedHasAppeared(xs: seq<Transfer>, contract: Address, id: nat)
    requires Owner(xs, contract, id) != ZERO_ADDRESS
    ensures exists x :: x in xs && x.contract == contract && x.id == id
  {
    var x := xs[|xs| - 1];
    if x.contract != contract || x.id != id {
      OwnedHasAppeared(xs[..|xs| - 1], contract, id);
    }
  }

  lemma OwnedIff(xs: seq<Transfer>, contract: Address, tokenId: int, holder: Address, id: nat)
    requires holder != ZERO_ADDRESS
    ensures id in Owned(xs, contract, tokenId, holder)
       <==> Int64(id) == tokenId && Owner(xs, contract, id) == holder
  {
    if Owner(xs, contract, id) == holder {
      OwnedHasAppeared(xs, contract, id);
    }
  }

  /** One event takes its id from the sender's and gives it to the receiver's. */
  lemma OwnedAfter(xs: seq<Transfer>, x: Transfer, contract: Address, tokenId: int, holder: Address)
    requires holder != ZERO_ADDRESS && x.from == Owner(xs, x.contract, x.id)
    ensures var was, now := Owned(xs, contract, tokenId, holder), Owned(xs + [x], contract, tokenId, holder);
            if x.contract == contract && Int64(x.id) == tokenId then
              && (x.id in was <==> x.from == holder)
              && now == was - {x.id} + (if x.to == holder then {x.id} else {})
            else now == was
  {
    assert (xs + [x])[..|xs|] == xs;
    var was, now := Owned(xs, contract, tokenId, holder), Owned(xs + [x], contract, tokenId, holder);
    forall id: nat ensures
      && (id in was <==> Int64(id) == tokenId && Owner(xs, contract, id) == holder)
      && (id in now <==> Int64(id) == tokenId && Owner(xs + [x], contract, id) == holder)
    {
      OwnedIff(xs, contract, tokenId, holder, id);
      OwnedIff(xs + [x], contract, tokenId, holder, id);
    }
  }

  lemma OwnedCountAfter(xs: seq<Transfer>, x: Transfer, contract: Address, tokenId: int, holder: Address)
    requires holder != ZERO_ADDRESS && x.from == Owner(xs, x.contract, x.id)
    ensures |Owned(xs + [x], contract, tokenId, holder)|
         == |Owned(xs, contract, tokenId, holder)| +
            (if x.contract == contract && Int64(x.id) == tokenId then
              (if x.to == holder then 1 else 0) - (if x.from == holder then 1 else 0)
             else 0)
  {
    OwnedAfter(xs, x, contract, tokenId, holder);
    CountReplaced(Owned(xs, contract, tokenId, holder), x.id, x.to == holder);
  }

  lemma CountReplaced(s: set<nat>, id: nat, keep: bool)
    ensures |s - {id} + (if keep then {id} else {})| == |s| - (if id in s then 1 else 0) + (if keep then 1 else 0)
  {
    if id !in s {
      assert s - {id} == s;
    }
    assert keep || s - {id} + {} == s - {id};
  }

  /** The effect of a movement of one unit on one row that does not overflow. */
  lemma RowAfter(t: Table, x: Movement, k: Key)
    requires x.amount == 1 && k.holder != ZERO_ADDRESS
    requires k in t ==> 0 < t[k].amount < TWO_TO_63 - 1
    requires k == x.FromKey() ==> k in t
    ensures var n := Balance(t, k) + (if k == x.ToKey() then 1 else 0) - (if k == x.FromKey() then 1 else 0);
            (k in Save(t, x) <==> n > 0) && Balance(Save(t, x), k) == n
  {
  }

  /** A row outside the zero address counts the ids its holder owns that share the row's 64-bit token id. */
  lemma {:induction false} RowCountsOwned(
    chain: int, xs: seq<Transfer>, contract: Address, tokenId: int, holder: Address)
    requires Valid(xs) && |xs| < TWO_TO_63 && holder != ZERO_ADDRESS
    ensures var k, n := Key(chain, contract, tokenId, holder), |Owned(xs, contract, tokenId, holder)|;
            && (k in TableOf(chain, xs) <==> n > 0)
            && Balance(TableOf(chain, xs), k) == n <= |xs|
  {
    if xs != [] {
      var init, x := xs[..|xs| - 1], xs[|xs| - 1];
      assert xs == init + [x];
      ValidInit(xs);
      RowCountsOwned(chain, init, contract, tokenId, holder);
      OwnedCountAfter(init, x, contract, tokenId, holder);
      OwnedAfter(init, x, contract, tokenId, holder);
      RowAfter(TableOf(chain, init), Move(chain, x), Key(chain, contract, tokenId, holder));
    }
  }

  lemma ValidInit(xs: seq<Transfer>)
    requires Valid(xs) && xs != []
    ensures Valid(xs[..|xs| - 1])
    ensures xs[|xs| - 1].from == Owner(xs[..|xs| - 1], xs[|xs| - 1].contract, xs[|xs| - 1].id)
  {
    var init := xs[..|xs| - 1];
    forall i | 0 <= i < |init| ensures init[i].from == Owner(init[..i], init[i].contract, init[i].id) {
      assert init[..i] == xs[..i];
    }
  }

  function Burns(xs: seq<Transfer>, contract: Address, tokenId: int): nat {
    if xs == [] then 0
    else
      var x := xs[|xs| - 1];
      Burns(xs[..|xs| - 1], contract, tokenId) +
      (if x.contract == contract && Int64(x.id) == tokenId && x.to == ZERO_ADDRESS then 1 else 0)
  }

  /** The zero address's row counts burns and never shrinks. */
  lemma {:induction false} ZeroRowCountsBurns(chain: int, xs: seq<Transfer>, contract: Address, tokenId: int)
    requires |xs| < TWO_TO_63
    ensures var k := Key(chain, contract, tokenId, ZERO_ADDRESS);
            && (k in TableOf(chain, xs) <==> Burns(xs, contract, tokenId) > 0)
            && Balance(TableOf(chain, xs), k) == Burns(xs, contract, tokenId) <= |xs|
  {
    if xs != [] {
      ZeroRowCountsBurns(chain, xs[..|xs| - 1], contract, tokenId);
    }
  }

  // ---- One row per token ----

  /** Outside the zero address each token id has at most one row, and its amount is 1. */
  ghost predicate OneRowPerToken(t: Table) {
    forall k :: k in t && k.holder != ZERO_ADDRESS ==>
      && t[k].amount == 1
      && forall m :: m in t && m.holder != ZERO_ADDRESS && m.(holder := k.holder) == k ==> m == k
  }

  /** No contract has two owned tokens whose ids agree in their low 64 bits. */
  ghost predicate OwnedIdsDistinct(xs: seq<Transfer>) {
    forall c: Address, a: nat, b: nat ::
      Owner(xs, c, a) != ZERO_ADDRESS && Owner(xs, c, b) != ZERO_ADDRESS && Int64(a) == Int64(b) ==> a == b
  }

  lemma {:induction false} KeysAreOnChain(chain: int, xs: seq<Transfer>, k: Key)
    requires k in TableOf(chain, xs)
    ensures k.chain == chain
  {
    if xs != [] && k in TableOf(chain, xs[..|xs| - 1]) {
      KeysAreOnChain(chain, xs[..|xs| - 1], k);
    }
  }

  /** A row outside the zero address stands for some token its holder owns. */
  lemma RowHasToken(chain: int, xs: seq<Transfer>, k: Key) returns (id: nat)
    requires Valid(xs) && |xs| < TWO_TO_63
    requires k in TableOf(chain, xs) && k.holder != ZERO_ADDRESS
    ensures Int64(id) == k.tokenId && Owner(xs, k.contract, id) == k.holder
  {
    KeysAreOnChain(chain, xs, k);
    RowCountsOwned(chain, xs, k.contract, k.tokenId, k.holder);
    id :| id in Owned(xs, k.contract, k.tokenId, k.holder);
  }

  /** An owned token has its owner's row. */
  lemma TokenHasRow(chain: int, xs: seq<Transfer>, contract: Address, id: nat)
    requires Valid(xs) && |xs| < TWO_TO_63 && Owner(xs, contract, id) != ZERO_ADDRESS
    ensures Key(chain, contract, Int64(id), Owner(xs, contract, id)) in TableOf(chain, xs)
  {
    OwnedIff(xs, contract, Int64(id), Owner(xs, contract, id), id);
    RowCountsOwned(chain, xs, contract, Int64(id), Owner(xs, contract, id));
  }

  /** The table keeps one row of amount 1 for each owned token exactly when no two owned tokens of a
      contract have ids that agree in their low 64 bits. */
  lemma OneRowPerTokenIff(chain: int, xs: seq<Transfer>)
    requires Valid(xs) && |xs| < TWO_TO_63
    ensures OneRowPerToken(TableOf(chain, xs)) <==> OwnedIdsDistinct(xs)
  {
    if OwnedIdsDistinct(xs) {
      DistinctIdsGiveOneRow(chain, xs);
    }
    if OneRowPerToken(TableOf(chain, xs)) {
      OneRowGivesDistinctIds(chain, xs);
    }
  }

  lemma DistinctIdsGiveOneRow(chain: int, xs: seq<Transfer>)
    requires Valid(xs) && |xs| < TWO_TO_63 && OwnedIdsDistinct(xs)
    ensures OneRowPerToken(TableOf(chain, xs))
  {
    var t := TableOf(chain, xs);
    forall k | k in t && k.holder != ZERO_ADDRESS
      ensures t[k].amount == 1
      ensures forall m :: m in t && m.holder != ZERO_ADDRESS && m.(holder := k.holder) == k ==> m == k
    {
      var id := RowHasToken(chain, xs, k);
      var ids := Owned(xs, k.contract, k.tokenId, k.holder);
      forall other: nat ensures other in ids <==> other == id {
        OwnedIff(xs, k.contract, k.tokenId, k.holder, other);
      }
      assert ids == {id};
      KeysAreOnChain(chain, xs, k);
      RowCountsOwned(chain, xs, k.contract, k.tokenId, k.holder);
      forall m | m in t && m.holder != ZERO_ADDRESS && m.(holder := k.holder) == k ensures m == k {
        var other := RowHasToken(chain, xs, m);
      }
    }
  }

  lemma OneRowGivesDistinctIds(chain: int, xs: seq<Transfer>)
    requires Valid(xs) && |xs| < TWO_TO_63 && OneRowPerToken(TableOf(chain, xs))
    ensures OwnedIdsDistinct(xs)
  {
    forall c: Address, a: nat, b: nat |
      Owner(xs, c, a) != ZERO_ADDRESS && Owner(xs, c, b) != ZERO_ADDRESS && Int64(a) == Int64(b)
      ensures a == b
    {
      var tokenId, holder := Int64(a), Owner(xs, c, a);
      TokenHasRow(chain, xs, c, a);
      TokenHasRow(chain, xs, c, b);
      assert Owner(xs, c, b) == holder by {
        assert Key(chain, c, tokenId, Owner(xs, c, b)) == Key(chain, c, tokenId, holder);
      }
      RowCountsOwned(chain, xs, c, tokenId, holder);
      OwnedIff(xs, c, tokenId, holder, a);
      OwnedIff(xs, c, tokenId, holder, b);
      AtMostOne(Owned(xs, c, tokenId, holder), a, b);
    }
  }

  lemma AtMostOne(s: set<nat>, a: nat, b: nat)
    requires |s| == 1 && a in s && b in s
    ensures a == b
  {
    assert |s - {a}| == 0;
  }

  /** Two tokens of one contract, owned by one holder, share a row of amount 2. */
  lemma CollidingIdsShareARow()
    ensures var xs := [Transfer(1, 0, ZERO_ADDRESS, 2), Transfer(1, TWO_TO_64, ZERO_ADDRESS, 2)];
            && Valid(xs) && !OwnedIdsDistinct(xs)
            && TableOf(7, xs) == map[Key(7, 1, 0, 2) := Row(ERC721, 2)]
  {
    var a, b := Transfer(1, 0, ZERO_ADDRESS, 2), Transfer(1, TWO_TO_64, ZERO_ADDRESS, 2);
    var xs := [a, b];
    assert xs[..0] == [] && xs[..1] == [a] && [a][..0] == [];
    assert Owner([a], 1, TWO_TO_64) == ZERO_ADDRESS;
    Int64Congruent(TWO_TO_64, 0);
    assert Owner(xs, 1, 0) == Owner([a], 1, 0) == 2 && Owner(xs, 1, TWO_TO_64) == 2;
    assert TableOf(7, [a]) == map[Key(7, 1, 0, 2) := Row(ERC721, 1)];
  }
}
