/** The relayer's reading of the vault call that a bridge message carries. */
module BridgeMessage {
  import opened Integers
  import opened ByteStrings
  import opened Options
  import opened ContractAbi

  datatype EventType = SendETH | SendERC20 | SendERC721 | SendERC1155

  datatype CanonicalToken =
    | CanonicalERC20(chainId: Uint64, addr: Uint160, decimals: Uint8, symbol: Bytes, name: Bytes)
    | CanonicalNFT(chainId: Uint64, addr: Uint160, symbol: Bytes, name: Bytes)

  datatype Message = Message(eventType: EventType, token: Option<CanonicalToken>, amount: int)

  /** What a decoder does: a result, an error return, or a run-time panic on an index out of range. */
  datatype Outcome = Decoded(message: Message) | Failed | Panic

  // onMessageInvocation(bytes): 7f07c947
  const SELECTOR: Bytes := [0x7f, 0x07, 0xc9, 0x47]
  const ERC20_TYPES: seq<Type> := [UInt(8), Address, UInt(1), String, String]
  const NFT_TYPES: seq<Type> := [UInt(8), Address, String, String]

  // ---- Chunks ----

  function Chunks(data: Bytes, size: nat): seq<Bytes>
    requires size > 0
  {
    if data == [] then []
    else [data[..Min(size, |data|)]] + Chunks(data[Min(size, |data|)..], size)
  }

  function Concat(chunks: seq<Bytes>): Bytes {
    if chunks == [] then [] else chunks[0] + Concat(chunks[1..])
  }

  /** The chunks are all of `data`, in order; all but the last are full, and none is empty. */
  lemma {:induction false} ChunksPartition(data: Bytes, size: nat)
    requires size > 0
    ensures Concat(Chunks(data, size)) == data
    ensures forall i :: 0 <= i < |Chunks(data, size)| ==>
              && 0 < |Chunks(data, size)[i]| <= size
              && (i < |Chunks(data, size)| - 1 ==> |Chunks(data, size)[i]| == size)
  {
    if data != [] {
      var n := Min(size, |data|);
      ChunksPartition(data[n..], size);
      if |data| <= size {
        assert data[n..] == [];
      }
    }
  }

  /** Chunk `i` of 32 exists just when the data reaches past byte `32 * i`, and starts there. */
  lemma {:induction false} ChunkAt(data: Bytes, i: nat)
    ensures i < |Chunks(data, 32)| <==> 32 * i < |data|
    ensures 32 * i < |data| ==> Chunks(data, 32)[i] == data[32 * i..Min(32 * i + 32, |data|)]
  {
    if data != [] && i > 0 {
      var n := Min(32, |data|);
      ChunkAt(data[n..], i - 1);
      if 32 * i < |data| {
        assert data[n..][32 * (i - 1)..Min(32 * (i - 1) + 32, |data| - 32)] == data[32 * i..Min(32 * i + 32, |data|)];
      }
    }
  }

  lemma ChunkWord(data: Bytes, i: nat)
    requires 32 * i + 32 <= |data|
    ensures i < |Chunks(data, 32)| && FromBytes(Chunks(data, 32)[i]) == ReadNat(data, 32 * i)
  {
    ChunkAt(data, i);
  }

  method SplitByteArray(data: Bytes, chunkSize: nat) returns (chunks: seq<Bytes>)
    requires chunkSize > 0
    ensures chunks == Chunks(data, chunkSize)
  {
    chunks := [];
    var i := 0;
    while i < |data|
      invariant 0 <= i
      invariant chunks + Chunks(data[Min(i, |data|)..], chunkSize) == Chunks(data, chunkSize)
    {
      var end := Min(i + chunkSize, |data|);
      assert data[i..][..Min(chunkSize, |data| - i)] == data[i..end];
      assert data[i..][Min(chunkSize, |data| - i)..] == data[end..];
      chunks := chunks + [data[i..end]];
      i := i + chunkSize;
    }
  }

  // ---- The decoders ----

  predicate Erc20Typed(v: seq<Field>) {
    && |v| == 5
    && v[0].Number? && v[0].n < TWO_TO_64 && v[1].Account? && v[2].Number? && v[2].n < 256
    && v[3].Chars? && v[4].Chars?
  }

  predicate NftTyped(v: seq<Field>) {
    && |v| == 4
    && v[0].Number? && v[0].n < TWO_TO_64 && v[1].Account? && v[2].Chars? && v[3].Chars?
  }

  /** A successful five-field decode hands back the five fields in their types. */
  lemma Erc20Fields(tokenData: Bytes)
    ensures var v := DecodeABI(ERC20_TYPES, tokenData);
            v.Some? ==> |tokenData| >= 160 && Erc20Typed(v.value) && v.value[2].n == ReadNat(tokenData, 64)
  {
    PowersOf256();
    DecodeFromAt(ERC20_TYPES, tokenData, 0, 0);
    DecodeFromAt(ERC20_TYPES, tokenData, 0, 1);
    DecodeFromAt(ERC20_TYPES, tokenData, 0, 2);
    DecodeFromAt(ERC20_TYPES, tokenData, 0, 3);
    DecodeFromAt(ERC20_TYPES, tokenData, 0, 4);
  }

  lemma NftFields(tokenData: Bytes)
    ensures var v := DecodeABI(NFT_TYPES, tokenData); v.Some? ==> NftTyped(v.value)
  {
    PowersOf256();
    DecodeFromAt(NFT_TYPES, tokenData, 0, 0);
    DecodeFromAt(NFT_TYPES, tokenData, 0, 1);
    DecodeFromAt(NFT_TYPES, tokenData, 0, 2);
    DecodeFromAt(NFT_TYPES, tokenData, 0, 3);
  }

  /** Where the decoders take the token tuple to start, given the word they read as its offset. */
  function StartIndex(offset: nat): int {
    Int64(Int64(offset) + 64)
  }

  lemma StartZeroOffset(offset: nat)
    ensures StartIndex(offset) == 0 ==> offset >= 256
  {
  }

  lemma DropZero(data: Bytes, start: nat)
    requires start <= |data|
    ensures start == 0 ==> data[start..] == data
  {
  }

  /** On any bytes, if the five fields decode then the chunk read as the amount exists. The lengths
      alone leave startIndex 0 open; there the offset word doubles as the uint8 decimals. */
  lemma AmountChunkExists(data: Bytes)
    requires |data| > 96
    requires 0 <= StartIndex(ReadNat(data, 64)) < |data|
    requires DecodeABI(ERC20_TYPES, data[StartIndex(ReadNat(data, 64))..]).Some?
    ensures |data| > 160 && |Chunks(data, 32)| > 5
  {
    var offset := ReadNat(data, 64);
    var start := StartIndex(offset);
    Erc20Fields(data[start..]);
    StartZeroOffset(offset);
    DropZero(data, start);
    ChunkAt(data, 5);
  }

  function DecodeDataAsERC20(validString: Bytes -> bool, data: Bytes): Option<Message> {
    var chunks := Chunks(data, 32);
    if |chunks| < 4 then None else
    ChunkAt(data, 2); ChunkAt(data, 3);
    assert FromBytes(chunks[2]) == ReadNat(data, 64);
    var startIndex := StartIndex(FromBytes(chunks[2]));
    if startIndex >= |data| || startIndex < 0 then None else
    var values := DecodeABI(ERC20_TYPES, data[startIndex..]);
    if values.None? then None else
    Erc20Fields(data[startIndex..]); AmountChunkExists(data);
    Erc20Message(validString, values.value, FromBytes(chunks[5]))
  }

  function Erc20Message(validString: Bytes -> bool, v: seq<Field>, amount: nat): Option<Message>
    requires Erc20Typed(v)
  {
    if !validString(v[3].s) || !validString(v[4].s) then None else
    Some(Message(SendERC20, Some(CanonicalERC20(v[0].n, v[1].addr, v[2].n, v[3].s, v[4].s)), amount))
  }

  /** The sum of the `count` words from `at` on; nothing when one of them runs past the data. */
  function SumWords(data: Bytes, at: nat, count: int): Option<nat>
    decreases count
  {
    if count <= 0 then Some(0)
    else if at + 32 > |data| then None
    else Plus(ReadNat(data, at), SumWords(data, at + 32, count - 1))
  }

  /** One word more, added to the amount so far. */
  lemma SumWordsStep(data: Bytes, at: nat, count: int, amount: nat, all: Option<nat>)
    requires count > 0 && all == Plus(amount, SumWords(data, at, count))
    ensures if at + 32 > |data| then all.None?
            else all == Plus(amount + ReadNat(data, at), SumWords(data, at + 32, count - 1))
  {
  }

  function Plus(amount: nat, rest: Option<nat>): Option<nat> {
    if rest.None? then None else Some(amount + rest.value)
  }

  function NftToken(validString: Bytes -> bool, tokenData: Bytes): Option<CanonicalToken> {
    var values := DecodeABI(NFT_TYPES, tokenData);
    if values.None? then None else
    NftFields(tokenData);
    var v := values.value;
    if !validString(v[2].s) || !validString(v[3].s) then None else
    Some(CanonicalNFT(v[0].n, v[1].addr, v[2].s, v[3].s))
  }

  function NftOutcome(validString: Bytes -> bool, data: Bytes): Outcome {
    var chunks := Chunks(data, 32);
    if |chunks| <= 2 then Panic else
    var offset := Int64(FromBytes(chunks[2]));
    if offset % 32 != 0 then Failed else
    NftOutcomeFrom(validString, data, offset)
  }

  function NftOutcomeFrom(validString: Bytes -> bool, data: Bytes, offset: int): Outcome {
    var startIndex := Int64(offset + 64);
    if startIndex >= |data| || startIndex < 0 then Failed else
    var token := NftToken(validString, data[startIndex..]);
    if token.None? then Failed else NftResult(token, offset, data)
  }

  /** The token's offset tells how many arguments there are, and so which vault was called. */
  function NftResult(token: Option<CanonicalToken>, offset: int, data: Bytes): Outcome {
    if offset == 128 then Decoded(Message(SendERC721, token, 1))
    else if offset == 160 then Erc1155Outcome(token, data)
    else Decoded(Message(SendETH, token, 0))
  }

  function Erc1155Outcome(token: Option<CanonicalToken>, data: Bytes): Outcome {
    var chunks := Chunks(data, 32);
    if |chunks| <= 6 then Panic else
    var offset := Int64(FromBytes(chunks[6]));
    if offset % 32 != 0 then Failed else
    var index := 2 + offset / 32;
    if index < 0 || index >= |chunks| then Panic else
    var sum := SumWords(data, (index + 1) * 32, Int64(FromBytes(chunks[index])));
    if sum.None? then Panic else Decoded(Message(SendERC1155, token, sum.value))
  }

  method DecodeDataAsNFT(validString: Bytes -> bool, data: Bytes) returns (r: Outcome)
    ensures r == NftOutcome(validString, data)
  {
    var chunks := SplitByteArray(data, 32);
    if |chunks| <= 2 {
      return Panic;
    }
    var offset := Int64(FromBytes(chunks[2]));
    if offset % 32 != 0 {
      return Failed;
    }
    var startIndex := Int64(offset + 64);
    if startIndex >= |data| || startIndex < 0 {
      return Failed;
    }
    var token := NftToken(validString, data[startIndex..]);
    if token.None? {
      return Failed;
    }
    if offset == 128 {
      return Decoded(Message(SendERC721, token, 1));
    }
    if offset != 160 {
      return Decoded(Message(SendETH, token, 0));
    }
    if |chunks| <= 6 {
      return Panic;
    }
    var amountsOffset := Int64(FromBytes(chunks[6]));
    if amountsOffset % 32 != 0 {
      return Failed;
    }
    var index := 2 + amountsOffset / 32;
    if index < 0 || index >= |chunks| {
      return Panic;
    }
    var length := Int64(FromBytes(chunks[index]));
    var sum := SumAmounts(data, (index + 1) * 32, length);
    if sum.None? {
      return Panic;
    }
    return Decoded(Message(SendERC1155, token, sum.value));
  }

  method SumAmounts(data: Bytes, at: nat, length: int) returns (sum: Option<nat>)
    ensures sum == SumWords(data, at, length)
  {
    ghost var all := SumWords(data, at, length);
    var amount: nat, i, pos: nat := 0, 0, at;
    while i < length
      invariant all == Plus(amount, SumWords(data, pos, length - i))
    {
      SumWordsStep(data, pos, length - i, amount, all);
      if pos + 32 > |data| {
        return None;
      }
      amount := amount + ReadNat(data, pos);
      i, pos := i + 1, pos + 32;
    }
    return Some(amount);
  }

  function MessageOutcome(validString: Bytes -> bool, eventData: Bytes, value: int): Outcome {
    if |eventData| > 3 && eventData[..4] == SELECTOR then
      var erc20 := DecodeDataAsERC20(validString, eventData[4..]);
      if erc20.Some? then Decoded(erc20.value) else
      var nft := NftOutcome(validString, eventData[4..]);
      if nft.Failed? then Decoded(Message(SendETH, None, value)) else nft
    else
      Decoded(Message(SendETH, None, value))
  }

  /** The data starts with the selector of a call of the vault's onMessageInvocation. */
  predicate IsInvocation(data: Bytes) {
    |data| >= 4 && data[0] == 0x7f && data[1] == 0x07 && data[2] == 0xc9 && data[3] == 0x47
  }

  /** A message is plain ether, of its own value, exactly when it is no invocation or neither decoder accepts
      the invocation's arguments. */
  lemma PlainEtherIff(validString: Bytes -> bool, eventData: Bytes, value: int)
    ensures MessageOutcome(validString, eventData, value) == Decoded(Message(SendETH, None, value))
       <==> || !IsInvocation(eventData)
            || (DecodeDataAsERC20(validString, eventData[4..]).None?
                && NftOutcome(validString, eventData[4..]).Failed?)
  {
    SelectorAt(eventData);
  }

  lemma SelectorAt(data: Bytes)
    ensures IsInvocation(data) <==> |data| > 3 && data[..4] == SELECTOR
  {
    if |data| >= 4 {
      assert data[..4] == [data[0], data[1], data[2], data[3]];
    }
  }

  /** What the ERC-20 decoder accepts has its token 64 bytes past the third word and its amount in the sixth. */
  lemma Erc20ByOffset(validString: Bytes -> bool, data: Bytes)
    ensures DecodeDataAsERC20(validString, data).Some? ==>
            var m := DecodeDataAsERC20(validString, data).value;
            && |data| > 160 && m.eventType == SendERC20
            && m.amount == FromBytes(data[160..Min(192, |data|)])
            && 0 <= StartIndex(ReadNat(data, 64)) < |data|
            && var v := DecodeABI(ERC20_TYPES, data[StartIndex(ReadNat(data, 64))..]);
               && v.Some? && Erc20Typed(v.value)
               && m.token == Some(CanonicalERC20(
                               v.value[0].n, v.value[1].addr, v.value[2].n, v.value[3].s, v.value[4].s))
               && validString(v.value[3].s) && validString(v.value[4].s)
  {
    if DecodeDataAsERC20(validString, data).Some? {
      ChunkAt(data, 2);
      ChunkAt(data, 3);
      ChunkAt(data, 5);
      AmountChunkExists(data);
      Erc20Fields(data[StartIndex(ReadNat(data, 64))..]);
    }
  }

  lemma ThirdChunk(data: Bytes)
    ensures |Chunks(data, 32)| > 2 <==> |data| > 64
    ensures |data| > 64 ==> Chunks(data, 32)[2] == data[64..Min(96, |data|)]
  {
    ChunkAt(data, 2);
  }

  /** The token stands 64 bytes past `offset`, and `offset` tells which of the vaults was called. */
  predicate GoesByOffset(validString: Bytes -> bool, data: Bytes, offset: int, m: Message) {
    && offset % 32 == 0 && 0 <= offset + 64 < |data|
    && m.token.Some? && m.token == NftToken(validString, data[offset + 64..])
    && match m.eventType
       case SendERC721 => offset == 128 && m.amount == 1
       case SendERC1155 => offset == 160
       case SendETH => offset != 128 && offset != 160 && m.amount == 0
       case SendERC20 => false
  }

  /** What the NFT decoder makes of an invocation goes by the third word: 128 for one token, 160 for several,
      anything else for no token transfer at all. Without a third word it panics. */
  lemma NftByOffset(validString: Bytes -> bool, data: Bytes)
    ensures |data| <= 64 ==> NftOutcome(validString, data).Panic?
    ensures |data| > 64 && NftOutcome(validString, data).Decoded? ==>
            GoesByOffset(validString, data, Int64(FromBytes(data[64..Min(96, |data|)])),
                         NftOutcome(validString, data).message)
  {
    ThirdChunk(data);
    if |data| > 64 && Int64(FromBytes(data[64..Min(96, |data|)])) % 32 == 0 {
      FromOffset(validString, data, Int64(FromBytes(data[64..Min(96, |data|)])));
    }
  }

  lemma FromOffset(validString: Bytes -> bool, data: Bytes, offset: int)
    requires IsInt64(offset) && offset % 32 == 0
    ensures NftOutcomeFrom(validString, data, offset).Decoded? ==>
            GoesByOffset(validString, data, offset, NftOutcomeFrom(validString, data, offset).message)
  {
    hide NftToken, NftResult;
    if 0 <= offset + 64 < |data| {
      ResultByOffset(NftToken(validString, data[offset + 64..]), offset, data);
    }
  }

  lemma ResultByOffset(token: Option<CanonicalToken>, offset: int, data: Bytes)
    ensures NftResult(token, offset, data).Decoded? ==>
            var m := NftResult(token, offset, data).message;
            && m.token == token
            && (m.eventType == SendERC721 <==> offset == 128) && (m.eventType == SendERC1155 <==> offset == 160)
            && (m.eventType == SendERC721 ==> m.amount == 1)
            && (m.eventType == SendETH ==> m.amount == 0) && m.eventType != SendERC20
  {
  }

  /** The NFT decoder gives up, leaving the message to be taken for ether, exactly when an offset is not that of
      a word, the token would stand outside the data, or it does not decode. */
  lemma NftFailsIff(validString: Bytes -> bool, data: Bytes)
    requires |data| > 64
    ensures var offset := Int64(FromBytes(data[64..Min(96, |data|)]));
            NftOutcome(validString, data).Failed?
            <==> || offset % 32 != 0 || Int64(offset + 64) < 0 || Int64(offset + 64) >= |data|
                 || NftToken(validString, data[Int64(offset + 64)..]).None?
                 || (offset == 160 && Int64(ReadNat(data, 192)) % 32 != 0)
  {
    hide NftToken, Chunks;
    ThirdChunk(data);
    if |data| > 224 {
      ChunkWord(data, 6);
    }
  }

  method DecodeMessageData(validString: Bytes -> bool, eventData: Bytes, value: int)
    returns (r: Outcome)
    ensures r == MessageOutcome(validString, eventData, value)
    ensures !IsInvocation(eventData) ==> r == Decoded(Message(SendETH, None, value))
    ensures IsInvocation(eventData) && DecodeDataAsERC20(validString, eventData[4..]).Some?
        ==> r == Decoded(DecodeDataAsERC20(validString, eventData[4..]).value)
    ensures IsInvocation(eventData) && DecodeDataAsERC20(validString, eventData[4..]).None?
        ==> r == if NftOutcome(validString, eventData[4..]).Failed? then Decoded(Message(SendETH, None, value))
                 else NftOutcome(validString, eventData[4..])
  {
    SelectorAt(eventData);
    if |eventData| > 3 && eventData[..4] == SELECTOR {
      var erc20 := DecodeDataAsERC20(validString, eventData[4..]);
      if erc20.Some? {
        return Decoded(erc20.value);
      }
      r := DecodeDataAsNFT(validString, eventData[4..]);
      if !r.Failed? {
        return;
      }
    }
    return Decoded(Message(SendETH, None, value));
  }
}
