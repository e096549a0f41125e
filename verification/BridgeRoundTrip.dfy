/** What the relayer reads back from the vault calls that the bridge encodes. */
module BridgeRoundTrip {
  import opened Integers
  import opened ByteStrings
  import opened Options
  import opened ContractAbi
  import opened BridgeMessage

  // ---- The encoded calls ----

  function TokenFields(t: CanonicalToken): seq<Value> {
    match t
    case CanonicalERC20(chainId, addr, decimals, symbol, name) =>
      [Word(chainId), Word(addr), Word(decimals), Text(symbol), Text(name)]
    case CanonicalNFT(chainId, addr, symbol, name) =>
      [Word(chainId), Word(addr), Text(symbol), Text(name)]
  }

  function Words(ns: seq<Uint256>): seq<Value> {
    seq(|ns|, i requires 0 <= i < |ns| => Word(ns[i]))
  }

  /** onMessageInvocation's payload starts with (token, from, to); `more` is what follows. */
  function Arguments(t: CanonicalToken, from: Uint160, to: Uint160, more: seq<Value>): seq<Value> {
    [Tuple(TokenFields(t)), Word(from), Word(to)] + more
  }

  /** The call data: the selector and the payload, wrapped as one bytes argument. */
  function Invocation(args: seq<Value>): Bytes {
    SELECTOR + EncSeq([Text(EncSeq(args))])
  }

  function Erc20Call(t: CanonicalToken, from: Uint160, to: Uint160, amount: Uint256): Bytes {
    Invocation(Arguments(t, from, to, [Word(amount)]))
  }

  function Erc721Call(t: CanonicalToken, from: Uint160, to: Uint160, ids: seq<Uint256>): Bytes {
    Invocation(Arguments(t, from, to, [Array(Words(ids))]))
  }

  function Erc1155Call(t: CanonicalToken, from: Uint160, to: Uint160,
                       ids: seq<Uint256>, amounts: seq<Uint256>): Bytes
  {
    Invocation(Arguments(t, from, to, [Array(Words(ids)), Array(Words(amounts))]))
  }

  function Sum(ns: seq<Uint256>): nat {
    if ns == [] then 0 else ns[0] + Sum(ns[1..])
  }

  // ---- The layout of a call ----

  /** Behind the selector stand two words and then the payload, which is whole words. */
  lemma PayloadAt(args: seq<Value>)
    ensures var data, payload := EncSeq([Text(EncSeq(args))]), EncSeq(args);
            |data| == 64 + |payload| && data[64..] == payload
  {
    var payload := EncSeq(args);
    EncIsWords(Tuple(args));
    var elems := [Text(payload)];
    assert elems[1..] == [];
    OneWordHeadsLength(elems, HeadsLength(elems));
    assert Tails(elems) == Enc(elems[0]) + Tails(elems[1..]);
    assert PadRight(payload) == payload;
    assert EncSeq(elems)[32..] == ToBytes(|payload|, 32) + payload;
    assert EncSeq(elems)[64..] == EncSeq(elems)[32..][32..] == payload;
  }

  /** Reading a word past the two first words is reading it in the payload. */
  lemma PayloadWord(data: Bytes, payload: Bytes, at: nat)
    requires |data| == 64 + |payload| && data[64..] == payload
    requires at + 32 <= |payload|
    ensures data[64 + at..64 + at + 32] == payload[at..at + 32]
    ensures ReadNat(data, 64 + at) == ReadNat(payload, at)
  {
    assert data[64..][at..at + 32] == data[64 + at..64 + at + 32];
  }

  /** The token tuple's encoding starts where the first head word says, and bytes follow it. */
  lemma TokenAt(t: CanonicalToken, from: Uint160, to: Uint160, more: seq<Value>) returns (rest: Bytes)
    requires OneWordHeads(more)
    requires |EncSeq(Arguments(t, from, to, more))| < TWO_TO_63
    ensures var payload, at := EncSeq(Arguments(t, from, to, more)), 32 * (3 + |more|);
            && at + 128 <= |payload|
            && ReadNat(payload, 0) == at
            && payload[at..] == EncSeq(TokenFields(t)) + rest
  {
    var args := Arguments(t, from, to, more);
    ArgumentHeads(t, from, to, more);
    EncSeqAt(args, 0);
    var payload, at, token := EncSeq(args), Offset(args, 0), EncSeq(TokenFields(t));
    assert args[..0] == [];
    ReadWord(payload, 0, at);
    assert Tail(args[0]) == token;
    rest := payload[at + |token|..];
    assert payload[at..] == payload[at..at + |token|] + rest;
    OneWordHeadsLength(TokenFields(t), HeadsLength(TokenFields(t)));
  }

  lemma ArgumentHeads(t: CanonicalToken, from: Uint160, to: Uint160, more: seq<Value>)
    requires OneWordHeads(more)
    ensures OneWordHeads(Arguments(t, from, to, more))
    ensures Dynamic(Arguments(t, from, to, more)[0])
  {
    var args := Arguments(t, from, to, more);
    TokenIsDynamic(t);
    forall i | 0 <= i < |args| ensures Dynamic(args[i]) || args[i].Word? {
      if i >= 3 {
        assert args[i] == more[i - 3];
      }
    }
  }

  lemma TokenIsDynamic(t: CanonicalToken)
    ensures Dynamic(Tuple(TokenFields(t)))
    ensures OneWordHeads(TokenFields(t))
  {
    var f := TokenFields(t);
    assert AnyDynamic(f[2..]) by {
      if t.CanonicalERC20? { assert AnyDynamic(f[2..][1..]); }
    }
    assert f[1..][1..] == f[2..];
    assert AnyDynamic(f[1..]);
  }

  lemma CallData(args: seq<Value>)
    ensures Invocation(args)[..4] == SELECTOR
    ensures Invocation(args)[4..] == EncSeq([Text(EncSeq(args))])
    ensures |Invocation(args)| == 68 + |EncSeq(args)|
  {
    PayloadAt(args);
  }

  // ---- The ERC-20 attempt ----

  /** Two words before a payload whose first word says `at`: the ERC-20 decoder unpacks the payload
      from `at` on, and takes payload word 3 as the amount. */
  lemma Erc20Attempt(validString: Bytes -> bool, data: Bytes, payload: Bytes, at: nat)
    requires |data| == 64 + |payload| < TWO_TO_63 && data[64..] == payload
    requires 128 <= at < |payload| && ReadNat(payload, 0) == at
    ensures var fields := DecodeABI(ERC20_TYPES, payload[at..]);
            && (fields.Some? ==> Erc20Typed(fields.value))
            && DecodeDataAsERC20(validString, data) ==
               if fields.None? then None else Erc20Message(validString, fields.value, ReadNat(payload, 96))
  {
    PayloadChunks(data, payload);
    StartIndexOf(at);
    assert data[64 + at..] == data[64..][at..];
    Erc20Fields(payload[at..]);
  }

  lemma PayloadChunks(data: Bytes, payload: Bytes)
    requires |data| == 64 + |payload| && data[64..] == payload && |payload| >= 128
    ensures |Chunks(data, 32)| > 5
    ensures FromBytes(Chunks(data, 32)[2]) == ReadNat(payload, 0)
    ensures FromBytes(Chunks(data, 32)[5]) == ReadNat(payload, 96)
  {
    PayloadWord(data, payload, 0);
    PayloadWord(data, payload, 96);
    ChunkWord(data, 2);
    ChunkWord(data, 5);
  }

  lemma StartIndexOf(offset: nat)
    requires offset < TWO_TO_63 - 64
    ensures Int64(offset) == offset && StartIndex(offset) == 64 + offset
  {
  }

  lemma DecodeErc20Token(t: CanonicalToken, rest: Bytes)
    requires t.CanonicalERC20? && |EncSeq(TokenFields(t)) + rest| < TWO_TO_63
    ensures DecodeABI(ERC20_TYPES, EncSeq(TokenFields(t)) + rest)
         == Some([Number(t.chainId), Account(t.addr), Number(t.decimals), Chars(t.symbol), Chars(t.name)])
  {
    Erc20TokenFields(t);
    DecodeEncoded(ERC20_TYPES, TokenFields(t), rest);
  }

  lemma Erc20TokenFields(t: CanonicalToken)
    requires t.CanonicalERC20?
    ensures AllAdmitted(ERC20_TYPES, TokenFields(t))
    ensures FieldsOf(ERC20_TYPES, TokenFields(t))
         == [Number(t.chainId), Account(t.addr), Number(t.decimals), Chars(t.symbol), Chars(t.name)]
  {
    PowersOf256();
  }

  /** Every ERC-20 call, whatever its token, parties and amount, is read back as that token and amount. */
  lemma Erc20RoundTrip(validString: Bytes -> bool, t: CanonicalToken, from: Uint160, to: Uint160,
                       amount: Uint256, value: int)
    requires t.CanonicalERC20? && validString(t.symbol) && validString(t.name)
    requires |Erc20Call(t, from, to, amount)| < TWO_TO_63
    ensures MessageOutcome(validString, Erc20Call(t, from, to, amount), value)
         == Decoded(Message(SendERC20, Some(t), amount))
  {
    CallData(Arguments(t, from, to, [Word(amount)]));
    Erc20Payload(validString, t, from, to, amount);
  }

  lemma Erc20Payload(validString: Bytes -> bool, t: CanonicalToken, from: Uint160, to: Uint160, amount: Uint256)
    requires t.CanonicalERC20? && validString(t.symbol) && validString(t.name)
    requires |Erc20Call(t, from, to, amount)| < TWO_TO_63
    ensures var args := Arguments(t, from, to, [Word(amount)]);
            DecodeDataAsERC20(validString, EncSeq([Text(EncSeq(args))])) == Some(Message(SendERC20, Some(t), amount))
  {
    var args := Arguments(t, from, to, [Word(amount)]);
    CallData(args);
    PayloadAt(args);
    var rest := TokenAt(t, from, to, [Word(amount)]);
    Erc20Attempt(validString, EncSeq([Text(EncSeq(args))]), EncSeq(args), 128);
    DecodeErc20Token(t, rest);
    AmountWord(t, from, to, amount);
  }

  lemma AmountWord(t: CanonicalToken, from: Uint160, to: Uint160, amount: Uint256)
    ensures var payload := EncSeq(Arguments(t, from, to, [Word(amount)]));
            128 <= |payload| && ReadNat(payload, 96) == amount
  {
    var args := Arguments(t, from, to, [Word(amount)]);
    ArgumentHeads(t, from, to, [Word(amount)]);
    EncSeqAt(args, 3);
    ReadWord(EncSeq(args), 96, amount);
  }

  // ---- NFT calls ----

  lemma DecodeNftToken(t: CanonicalToken, rest: Bytes)
    requires t.CanonicalNFT? && |EncSeq(TokenFields(t)) + rest| < TWO_TO_63
    ensures DecodeABI(NFT_TYPES, EncSeq(TokenFields(t)) + rest)
         == Some([Number(t.chainId), Account(t.addr), Chars(t.symbol), Chars(t.name)])
  {
    NftTokenFields(t);
    DecodeEncoded(NFT_TYPES, TokenFields(t), rest);
  }

  lemma NftTokenFields(t: CanonicalToken)
    requires t.CanonicalNFT?
    ensures AllAdmitted(NFT_TYPES, TokenFields(t))
    ensures FieldsOf(NFT_TYPES, TokenFields(t)) == [Number(t.chainId), Account(t.addr), Chars(t.symbol), Chars(t.name)]
  {
    PowersOf256();
  }

  /** What the ERC-20 decoder takes as the name's length in an NFT call: the word at the offset
      that is really the length of the symbol. */
  function MisreadLength(t: CanonicalToken, tokenData: Bytes): nat
    requires |t.symbol| + 32 <= |tokenData|
  {
    ReadNat(tokenData, |t.symbol|)
  }

  /** The five fields that an NFT's token data reads as, if it does. */
  function Misread(t: CanonicalToken, td: Bytes): Option<seq<Field>>
    requires |t.symbol| + 32 <= |td|
  {
    var from, length := |t.symbol| + 32, MisreadLength(t, td);
    if from + length > |td| then None
    else Some([Number(t.chainId), Account(t.addr), Number(128), Chars(t.name), Chars(td[from..from + length])])
  }

  /** Whether an NFT's token data also reads as an ERC-20 token. */
  predicate ReadsAsErc20(validString: Bytes -> bool, t: CanonicalToken, tokenData: Bytes)
    requires |t.symbol| + 32 <= |tokenData|
  {
    var from := |t.symbol| + 32;
    var length := MisreadLength(t, tokenData);
    from + length <= |tokenData| && validString(tokenData[from..from + length])
  }

  /** What stands in the five words that the ERC-20 decoder reads. */
  lemma MisreadFields(t: CanonicalToken, rest: Bytes)
    requires t.CanonicalNFT? && |EncSeq(TokenFields(t)) + rest| < TWO_TO_63
    ensures var td := EncSeq(TokenFields(t)) + rest;
            && |td| >= 160 + |t.symbol|
            && ReadField(UInt(8), td, 0) == Some(Number(t.chainId))
            && ReadField(Address, td, 32) == Some(Account(t.addr))
            && ReadField(UInt(1), td, 64) == Some(Number(128))
            && ReadField(String, td, 96) == Some(Chars(t.name))
            && ReadNat(td, 128) == |t.symbol|
  {
    SameFields(t, rest);
    SymbolBytes(t, rest);
    SymbolOffset(EncSeq(TokenFields(t)) + rest);
    SymbolWord(EncSeq(TokenFields(t)) + rest, t.symbol);
  }

  /** Chain id, address and name are found where an ERC-20 token has its chain id, address and symbol. */
  lemma SameFields(t: CanonicalToken, rest: Bytes)
    requires t.CanonicalNFT? && |EncSeq(TokenFields(t)) + rest| < TWO_TO_63
    ensures var td := EncSeq(TokenFields(t)) + rest;
            && ReadField(UInt(8), td, 0) == Some(Number(t.chainId))
            && ReadField(Address, td, 32) == Some(Account(t.addr))
            && ReadField(String, td, 96) == Some(Chars(t.name))
  {
    PowersOf256();
    TokenIsDynamic(t);
    ReadEncodedField(NFT_TYPES, TokenFields(t), rest, 0);
    ReadEncodedField(NFT_TYPES, TokenFields(t), rest, 1);
    ReadEncodedField(NFT_TYPES, TokenFields(t), rest, 3);
  }

  lemma SymbolBytes(t: CanonicalToken, rest: Bytes)
    requires t.CanonicalNFT? && |EncSeq(TokenFields(t)) + rest| < TWO_TO_63
    ensures var td := EncSeq(TokenFields(t)) + rest;
            && 160 + |PadRight(t.symbol)| <= |td|
            && td[64..96] == ToBytes(128, 32)
            && td[128..160 + |PadRight(t.symbol)|] == ToBytes(|t.symbol|, 32) + PadRight(t.symbol)
  {
    TokenIsDynamic(t);
    HeadBytesAt(TokenFields(t), rest, 2);
    NoTails(TokenFields(t)[..2]);
  }

  lemma SymbolOffset(td: Bytes)
    requires 96 <= |td| && td[64..96] == ToBytes(128, 32)
    ensures ReadField(UInt(1), td, 64) == Some(Number(128))
  {
    PowersOf256();
    ReadWord(td, 64, 128);
  }

  lemma SymbolWord(td: Bytes, symbol: Bytes)
    requires |td| < TWO_TO_63 && 160 + |PadRight(symbol)| <= |td|
    requires td[128..160 + |PadRight(symbol)|] == ToBytes(|symbol|, 32) + PadRight(symbol)
    ensures ReadNat(td, 128) == |symbol|
  {
    var w := ToBytes(|symbol|, 32);
    Subslice(td, 128, w + PadRight(symbol), 0, 32);
    assert (w + PadRight(symbol))[0..32] == w;
    ReadWord(td, 128, |symbol|);
  }

  /** Read as an ERC-20 token, an NFT's decimals are its symbol's offset, its symbol is its name, and
      its name is whatever stands where the symbol's length points. */
  lemma MisreadNftToken(t: CanonicalToken, rest: Bytes)
    requires t.CanonicalNFT? && |EncSeq(TokenFields(t)) + rest| < TWO_TO_63
    ensures var td := EncSeq(TokenFields(t)) + rest;
            |t.symbol| + 32 <= |td| && DecodeABI(ERC20_TYPES, td) == Misread(t, td)
  {
    MisreadFields(t, rest);
    MisreadDecode(t, EncSeq(TokenFields(t)) + rest);
  }

  /** The same for any bytes in which the first four fields read so. */
  lemma MisreadDecode(t: CanonicalToken, td: Bytes)
    requires t.CanonicalNFT? && |td| >= 160 + |t.symbol|
    requires ReadField(UInt(8), td, 0) == Some(Number(t.chainId)) && ReadField(Address, td, 32) == Some(Account(t.addr))
    requires ReadField(UInt(1), td, 64) == Some(Number(128)) && ReadField(String, td, 96) == Some(Chars(t.name))
    requires ReadNat(td, 128) == |t.symbol|
    ensures DecodeABI(ERC20_TYPES, td) == Misread(t, td)
  {
    MisreadName(t, td);
    if Misread(t, td).None? {
      LastFieldFails(td);
    } else {
      DecodeFive(td, Misread(t, td).value);
    }
  }

  lemma MisreadName(t: CanonicalToken, td: Bytes)
    requires t.CanonicalNFT? && |td| >= 160 + |t.symbol| && ReadNat(td, 128) == |t.symbol|
    ensures var from, length := |t.symbol| + 32, MisreadLength(t, td);
            ReadField(String, td, 128) ==
            if from + length > |td| then None else Some(Chars(td[from..from + length]))
  {
  }

  lemma LastFieldFails(td: Bytes)
    requires ReadField(String, td, 128).None?
    ensures DecodeABI(ERC20_TYPES, td).None?
  {
    DecodeFromAt(ERC20_TYPES, td, 0, 4);
  }

  lemma DecodeFive(td: Bytes, fields: seq<Field>)
    requires |fields| == 5
    requires ReadField(UInt(8), td, 0) == Some(fields[0]) && ReadField(Address, td, 32) == Some(fields[1])
    requires ReadField(UInt(1), td, 64) == Some(fields[2]) && ReadField(String, td, 96) == Some(fields[3])
    requires ReadField(String, td, 128) == Some(fields[4])
    ensures DecodeABI(ERC20_TYPES, td) == Some(fields)
  {
    forall k | 0 <= k < 5 ensures ReadField(ERC20_TYPES[k], td, 32 * k) == Some(fields[k]) {
    }
    DecodeFromAll(ERC20_TYPES, td, fields, 0);
    assert fields[0..] == fields;
  }

  /** For a symbol of at most 24 bytes, the misread length is the chain id followed by as many of the
      address word's leading bytes as the symbol has. */
  lemma MisreadLengthIs(t: CanonicalToken, rest: Bytes)
    requires t.CanonicalNFT? && |t.symbol| <= 24 && |EncSeq(TokenFields(t)) + rest| < TWO_TO_63
    ensures var td, n := EncSeq(TokenFields(t)) + rest, |t.symbol|;
            && n + 32 <= |td|
            && MisreadLength(t, td) == t.chainId * Pow256(n) + FromBytes(ToBytes(t.addr, 32)[..n])
  {
    var f, td, n := TokenFields(t), EncSeq(TokenFields(t)) + rest, |t.symbol|;
    var c, a := ToBytes(t.chainId, 32), ToBytes(t.addr, 32);
    MisreadFields(t, rest);
    assert td[n..n + 32] == c[n..] + a[..n] by {
      TokenIsDynamic(t);
      HeadBytesAt(f, rest, 0);
      HeadBytesAt(f, rest, 1);
      Straddle(td, c, a, n);
    }
    FromBytesConcat(c[n..], a[..n]);
    LowBytes(t.chainId, n);
  }

  lemma LowBytes(chainId: Uint64, n: nat)
    requires n <= 24
    ensures FromBytes(ToBytes(chainId, 32)[n..]) == chainId
  {
    ToBytesDrop(chainId, 32, n);
    PowersOf256();
    Pow256Monotone(8, 32 - n);
    FromBytesToBytes(chainId, 32 - n);
  }

  lemma Straddle(td: Bytes, c: Bytes, a: Bytes, n: nat)
    requires |c| == |a| == 32 && n <= 32 && |td| >= 64 && td[0..32] == c && td[32..64] == a
    ensures td[n..n + 32] == c[n..] + a[..n]
  {
    assert td[..64] == c + a;
  }

  /** Two words before a payload whose first word says `at`: what the NFT decoder makes of it. */
  lemma NftAttempt(validString: Bytes -> bool, data: Bytes, payload: Bytes, at: nat)
    requires |data| == 64 + |payload| < TWO_TO_63 && data[64..] == payload
    requires at == 128 || at == 160
    requires at < |payload| && ReadNat(payload, 0) == at
    ensures var token := NftToken(validString, payload[at..]);
            NftOutcome(validString, data) ==
            if token.None? then Failed else NftResult(token, at, data)
  {
    PayloadWord(data, payload, 0);
    ChunkWord(data, 2);
    StartIndexOf(at);
    NftOutcomeAt(validString, data, at);
    NftAttemptFrom(validString, data, payload, at);
  }

  lemma NftOutcomeAt(validString: Bytes -> bool, data: Bytes, at: nat)
    requires |Chunks(data, 32)| > 2 && FromBytes(Chunks(data, 32)[2]) == at
    requires Int64(at) == at && at % 32 == 0
    ensures NftOutcome(validString, data) == NftOutcomeFrom(validString, data, at)
  {
  }

  lemma NftAttemptFrom(validString: Bytes -> bool, data: Bytes, payload: Bytes, at: nat)
    requires |data| == 64 + |payload| < TWO_TO_63 && data[64..] == payload && at < |payload|
    ensures var token := NftToken(validString, payload[at..]);
            NftOutcomeFrom(validString, data, at) == if token.None? then Failed else NftResult(token, at, data)
  {
    assert Int64(64 + at) == 64 + at;
    assert data[64 + at..] == data[64..][at..];
  }

  lemma {:induction false} SumWordsAt(data: Bytes, at: nat, ns: seq<Uint256>)
    requires at + 32 * |ns| <= |data|
    requires forall i :: 0 <= i < |ns| ==> ReadNat(data, at + 32 * i) == ns[i]
    ensures SumWords(data, at, |ns|) == Some(Sum(ns))
    decreases |ns|
  {
    if ns != [] {
      assert ReadNat(data, at + 32 * 0) == ns[0];
      forall i | 0 <= i < |ns[1..]|
        ensures ReadNat(data, at + 32 + 32 * i) == ns[1..][i]
      {
        assert ReadNat(data, at + 32 * (i + 1)) == ns[i + 1];
      }
      SumWordsAt(data, at + 32, ns[1..]);
    }
  }

  /** An encoded word array is its length and then its elements, a word each. */
  lemma ArrayLayout(ns: seq<Uint256>)
    requires |Enc(Array(Words(ns)))| < TWO_TO_63
    ensures |EncSeq(Words(ns))| == 32 * |ns|
    ensures Enc(Array(Words(ns))) == ToBytes(|ns|, 32) + EncSeq(Words(ns))
  {
    var vs := Words(ns);
    OneWordHeadsLength(vs, HeadsLength(vs));
    NoTails(vs);
  }

  lemma ElementWord(ns: seq<Uint256>, i: nat)
    requires i < |ns|
    ensures 32 * i + 32 <= |EncSeq(Words(ns))|
    ensures EncSeq(Words(ns))[32 * i..32 * i + 32] == ToBytes(ns[i], 32)
  {
    EncSeqAt(Words(ns), i);
  }

  /** The first word of an array encoded in the data, `at` bytes in, is its length. */
  lemma ArrayLengthWord(payload: Bytes, at: nat, ns: seq<Uint256>)
    requires |payload| < TWO_TO_63 && at + |Enc(Array(Words(ns)))| <= |payload|
    requires payload[at..at + |Enc(Array(Words(ns)))|] == Enc(Array(Words(ns)))
    ensures |Enc(Array(Words(ns)))| == 32 + 32 * |ns|
    ensures ReadNat(payload, at) == |ns|
  {
    ArrayLayout(ns);
    var w, enc := ToBytes(|ns|, 32), EncSeq(Words(ns));
    Subslice(payload, at, w + enc, 0, 32);
    assert (w + enc)[0..32] == w;
    ReadWord(payload, at, |ns|);
  }

  /** The words behind it are its elements. */
  lemma ArrayElementWord(payload: Bytes, at: nat, ns: seq<Uint256>, i: nat)
    requires i < |ns| && |payload| < TWO_TO_63 && at + |Enc(Array(Words(ns)))| <= |payload|
    requires payload[at..at + |Enc(Array(Words(ns)))|] == Enc(Array(Words(ns)))
    ensures at + 32 * i + 64 <= |payload| && ReadNat(payload, at + 32 * i + 32) == ns[i]
  {
    ArrayLayout(ns);
    ElementWord(ns, i);
    SecondPartWord(payload, at, ToBytes(|ns|, 32), EncSeq(Words(ns)), 32 * i);
    ReadWord(payload, at + 32 * i + 32, ns[i]);
  }

  lemma SecondPartWord(payload: Bytes, at: nat, w: Bytes, enc: Bytes, j: nat)
    requires |w| == 32 && j + 32 <= |enc| && at + 32 + |enc| <= |payload|
    requires payload[at..at + 32 + |enc|] == w + enc
    ensures payload[at + j + 32..at + j + 64] == enc[j..j + 32]
  {
    Subslice(payload, at, w + enc, j + 32, j + 64);
    assert (w + enc)[j + 32..j + 64] == enc[j..j + 32];
  }

  // ---- What NFT calls are read as ----

  /** The payload from the token tuple on: what both decoders unpack. */
  function TokenData(args: seq<Value>): Bytes {
    var payload := EncSeq(args);
    payload[Min(32 * |args|, |payload|)..]
  }

  /** The side conditions of an NFT call: valid strings, one or two arrays, an addressable length. */
  predicate NftCall(validString: Bytes -> bool, t: CanonicalToken, args: seq<Value>, more: seq<Value>) {
    && t.CanonicalNFT? && validString(t.symbol) && validString(t.name)
    && 1 <= |more| <= 2 && OneWordHeads(more)
    && |Invocation(args)| < TWO_TO_63
  }

  /** The ERC-20 decoder accepts an NFT call exactly when its token data also reads as an ERC-20 token. */
  lemma NftAsErc20(validString: Bytes -> bool, t: CanonicalToken, from: Uint160, to: Uint160, more: seq<Value>)
    requires NftCall(validString, t, Arguments(t, from, to, more), more)
    ensures var args := Arguments(t, from, to, more);
            && |t.symbol| + 32 <= |TokenData(args)|
            && (DecodeDataAsERC20(validString, Invocation(args)[4..]).Some?
                <==> ReadsAsErc20(validString, t, TokenData(args)))
  {
    var args := Arguments(t, from, to, more);
    CallData(args);
    PayloadAt(args);
    var rest := TokenAt(t, from, to, more);
    MisreadAttempt(validString, t, EncSeq([Text(EncSeq(args))]), EncSeq(args), 32 * |args|, rest);
  }

  lemma MisreadAttempt(validString: Bytes -> bool, t: CanonicalToken,
                       data: Bytes, payload: Bytes, at: nat, rest: Bytes)
    requires t.CanonicalNFT? && validString(t.name)
    requires |data| == 64 + |payload| < TWO_TO_63 && data[64..] == payload
    requires 128 <= at < |payload| && ReadNat(payload, 0) == at
    requires payload[at..] == EncSeq(TokenFields(t)) + rest
    ensures |t.symbol| + 32 <= |payload[at..]|
    ensures DecodeDataAsERC20(validString, data).Some? <==> ReadsAsErc20(validString, t, payload[at..])
  {
    Erc20Attempt(validString, data, payload, at);
    MisreadNftToken(t, rest);
    MisreadMessage(validString, t, payload[at..], DecodeABI(ERC20_TYPES, payload[at..]), ReadNat(payload, 96));
  }

  lemma MisreadMessage(validString: Bytes -> bool, t: CanonicalToken, td: Bytes, v: Option<seq<Field>>, amount: nat)
    requires t.CanonicalNFT? && validString(t.name) && |t.symbol| + 32 <= |td|
    requires v == Misread(t, td)
    ensures v.Some? ==> Erc20Typed(v.value)
    ensures v.Some? && Erc20Message(validString, v.value, amount).Some? <==> ReadsAsErc20(validString, t, td)
  {
  }

  /** The NFT decoder finds the token, and tells the vault by where it stands. */
  lemma NftAsNft(validString: Bytes -> bool, t: CanonicalToken, from: Uint160, to: Uint160, more: seq<Value>)
    requires NftCall(validString, t, Arguments(t, from, to, more), more)
    ensures var args := Arguments(t, from, to, more);
            var data := Invocation(args)[4..];
            NftOutcome(validString, data) == NftResult(Some(t), 32 * |args|, data)
  {
    var args := Arguments(t, from, to, more);
    CallData(args);
    PayloadAt(args);
    var rest := TokenAt(t, from, to, more);
    NftAttempt(validString, EncSeq([Text(EncSeq(args))]), EncSeq(args), 32 * |args|);
    DecodeNftToken(t, rest);
  }

  /** An ERC-721 call is read as one token of the right kind, unless its data also reads as ERC-20. */
  lemma Erc721RoundTrip(validString: Bytes -> bool, t: CanonicalToken, from: Uint160, to: Uint160,
                        ids: seq<Uint256>, value: int)
    requires var more := [Array(Words(ids))]; NftCall(validString, t, Arguments(t, from, to, more), more)
    ensures var td := TokenData(Arguments(t, from, to, [Array(Words(ids))]));
            && |t.symbol| + 32 <= |td|
            && var r := MessageOutcome(validString, Erc721Call(t, from, to, ids), value);
               (r == Decoded(Message(SendERC721, Some(t), 1)) <==> !ReadsAsErc20(validString, t, td))
  {
    var more := [Array(Words(ids))];
    CallData(Arguments(t, from, to, more));
    NftAsErc20(validString, t, from, to, more);
    NftAsNft(validString, t, from, to, more);
  }

  /** An ERC-1155 call is read as the sum of all its amounts, unless its data also reads as ERC-20. */
  lemma Erc1155RoundTrip(validString: Bytes -> bool, t: CanonicalToken, from: Uint160, to: Uint160,
                         ids: seq<Uint256>, amounts: seq<Uint256>, value: int)
    requires var more := [Array(Words(ids)), Array(Words(amounts))];
             NftCall(validString, t, Arguments(t, from, to, more), more)
    ensures var td := TokenData(Arguments(t, from, to, [Array(Words(ids)), Array(Words(amounts))]));
            && |t.symbol| + 32 <= |td|
            && var r := MessageOutcome(validString, Erc1155Call(t, from, to, ids, amounts), value);
               (r == Decoded(Message(SendERC1155, Some(t), Sum(amounts))) <==> !ReadsAsErc20(validString, t, td))
  {
    var more := [Array(Words(ids)), Array(Words(amounts))];
    CallData(Arguments(t, from, to, more));
    NftAsErc20(validString, t, from, to, more);
    NftAsNft(validString, t, from, to, more);
    Erc1155Amounts(t, from, to, ids, amounts);
  }

  lemma Erc1155Amounts(t: CanonicalToken, from: Uint160, to: Uint160, ids: seq<Uint256>, amounts: seq<Uint256>)
    requires |Erc1155Call(t, from, to, ids, amounts)| < TWO_TO_63
    ensures Erc1155Outcome(Some(t), Erc1155Call(t, from, to, ids, amounts)[4..])
         == Decoded(Message(SendERC1155, Some(t), Sum(amounts)))
  {
    var more := [Array(Words(ids)), Array(Words(amounts))];
    var args := Arguments(t, from, to, more);
    CallData(args);
    PayloadAt(args);
    ArgumentHeads(t, from, to, more);
    LastArgument(args, more[1]);
    AmountsAt(t, EncSeq([Text(EncSeq(args))]), EncSeq(args), Offset(args, 4) / 32, amounts);
  }

  lemma LastArgument(args: seq<Value>, v: Value)
    requires |args| == 5 && OneWordHeads(args) && args[4] == v && Dynamic(v)
    ensures var payload, at := EncSeq(args), Offset(args, 4);
            && at % 32 == 0 && |payload| >= 160 && at + |Enc(v)| <= |payload|
            && payload[128..160] == ToBytes(at, 32) && payload[at..at + |Enc(v)|] == Enc(v)
  {
    EncSeqAt(args, 4);
    assert Tail(args[4]) == Enc(v) && Head(args[4], Offset(args, 4)) == ToBytes(Offset(args, 4), 32);
    TailsAreWords(args[..4]);
    AddWords(160, |Tails(args[..4])|);
  }

  lemma TailsAreWords(elems: seq<Value>)
    ensures |Tails(elems)| % 32 == 0
  {
    EncSeqIsWords(elems, 0);
  }

  lemma AmountsAt(t: CanonicalToken, data: Bytes, payload: Bytes, q: nat, amounts: seq<Uint256>)
    requires |data| == 64 + |payload| < TWO_TO_63 && data[64..] == payload
    requires 160 <= |payload| && payload[128..160] == ToBytes(32 * q, 32)
    requires var enc := Enc(Array(Words(amounts)));
             32 * q + |enc| <= |payload| && payload[32 * q..32 * q + |enc|] == enc
    ensures Erc1155Outcome(Some(t), data) == Decoded(Message(SendERC1155, Some(t), Sum(amounts)))
  {
    AmountWords(data, payload, 32 * q, amounts);
    AmountsOffset(data, payload, 32 * q);
    SummedOutcome(t, data, q, amounts);
  }

  lemma SummedOutcome(t: CanonicalToken, data: Bytes, q: nat, amounts: seq<Uint256>)
    requires |data| < TWO_TO_63 && 96 + 32 * q + 32 * |amounts| <= |data|
    requires |Chunks(data, 32)| > 6 && FromBytes(Chunks(data, 32)[6]) == 32 * q
    requires ReadNat(data, 64 + 32 * q) == |amounts|
    requires forall i :: 0 <= i < |amounts| ==> ReadNat(data, 96 + 32 * q + 32 * i) == amounts[i]
    ensures Erc1155Outcome(Some(t), data) == Decoded(Message(SendERC1155, Some(t), Sum(amounts)))
  {
    SumWordsAt(data, 96 + 32 * q, amounts);
    AmountsOutcome(t, data, q, amounts);
  }

  lemma AmountWords(data: Bytes, payload: Bytes, at: nat, amounts: seq<Uint256>)
    requires |data| == 64 + |payload| < TWO_TO_63 && data[64..] == payload
    requires var enc := Enc(Array(Words(amounts))); at + |enc| <= |payload| && payload[at..at + |enc|] == enc
    ensures 96 + at + 32 * |amounts| <= |data| && ReadNat(data, 64 + at) == |amounts|
    ensures forall i :: 0 <= i < |amounts| ==> ReadNat(data, 96 + at + 32 * i) == amounts[i]
  {
    ArrayLengthWord(payload, at, amounts);
    PayloadWord(data, payload, at);
    forall i | 0 <= i < |amounts|
      ensures ReadNat(data, 96 + at + 32 * i) == amounts[i]
    {
      ArrayElementWord(payload, at, amounts, i);
      PayloadWord(data, payload, at + 32 * i + 32);
    }
  }

  lemma AmountsOffset(data: Bytes, payload: Bytes, at: nat)
    requires |data| == 64 + |payload| < TWO_TO_63 && data[64..] == payload
    requires 160 <= |payload| && at < TWO_TO_63 && payload[128..160] == ToBytes(at, 32)
    ensures |Chunks(data, 32)| > 6 && FromBytes(Chunks(data, 32)[6]) == at
  {
    ReadWord(payload, 128, at);
    PayloadWord(data, payload, 128);
    ChunkWord(data, 6);
  }

  lemma AmountsOutcome(t: CanonicalToken, data: Bytes, q: nat, amounts: seq<Uint256>)
    requires |data| < TWO_TO_63 && 96 + 32 * q + 32 * |amounts| <= |data|
    requires |Chunks(data, 32)| > 6 && FromBytes(Chunks(data, 32)[6]) == 32 * q
    requires ReadNat(data, 64 + 32 * q) == |amounts|
    requires SumWords(data, 96 + 32 * q, |amounts|) == Some(Sum(amounts))
    ensures Erc1155Outcome(Some(t), data) == Decoded(Message(SendERC1155, Some(t), Sum(amounts)))
  {
    StartIndexOf(32 * q);
    StartIndexOf(|amounts|);
    ChunkWord(data, 2 + q);
    OutcomeAt(t, data, q, |amounts|, Sum(amounts));
  }

  lemma OutcomeAt(t: CanonicalToken, data: Bytes, q: nat, count: nat, sum: nat)
    requires |Chunks(data, 32)| > 6 && 2 + q < |Chunks(data, 32)|
    requires Int64(FromBytes(Chunks(data, 32)[6])) == 32 * q
    requires Int64(FromBytes(Chunks(data, 32)[2 + q])) == count
    requires SumWords(data, 96 + 32 * q, count) == Some(sum)
    ensures Erc1155Outcome(Some(t), data) == Decoded(Message(SendERC1155, Some(t), sum))
  {
    assert 2 + 32 * q / 32 == 2 + q && (2 + q + 1) * 32 == 96 + 32 * q;
  }

  /** A symbol of 3 to 24 bytes and a non-zero chain id keep the two kinds apart in any call of less
      than 2^24 bytes: the misread length runs past the data. */
  lemma NotReadAsErc20(validString: Bytes -> bool, t: CanonicalToken, from: Uint160, to: Uint160, more: seq<Value>)
    requires NftCall(validString, t, Arguments(t, from, to, more), more)
    requires t.chainId != 0 && 3 <= |t.symbol| <= 24
    requires |Invocation(Arguments(t, from, to, more))| < 0x100_0000
    ensures var td := TokenData(Arguments(t, from, to, more));
            |t.symbol| + 32 <= |td| && !ReadsAsErc20(validString, t, td)
  {
    var args := Arguments(t, from, to, more);
    CallData(args);
    var rest := TokenAt(t, from, to, more);
    MisreadLengthIs(t, rest);
    PowersOf256();
    Pow256Monotone(3, |t.symbol|);
    AtLeastFactor(t.chainId, Pow256(|t.symbol|));
  }

  /** Under those conditions an ERC-721 call is read as one token of the right kind... */
  lemma Erc721Classified(validString: Bytes -> bool, t: CanonicalToken, from: Uint160, to: Uint160,
                         ids: seq<Uint256>, value: int)
    requires var more := [Array(Words(ids))]; NftCall(validString, t, Arguments(t, from, to, more), more)
    requires t.chainId != 0 && 3 <= |t.symbol| <= 24 && |Erc721Call(t, from, to, ids)| < 0x100_0000
    ensures MessageOutcome(validString, Erc721Call(t, from, to, ids), value)
         == Decoded(Message(SendERC721, Some(t), 1))
  {
    NotReadAsErc20(validString, t, from, to, [Array(Words(ids))]);
    Erc721RoundTrip(validString, t, from, to, ids, value);
  }

  /** ...and an ERC-1155 call as the sum of all its amounts. */
  lemma Erc1155Classified(validString: Bytes -> bool, t: CanonicalToken, from: Uint160, to: Uint160,
                          ids: seq<Uint256>, amounts: seq<Uint256>, value: int)
    requires var more := [Array(Words(ids)), Array(Words(amounts))];
             NftCall(validString, t, Arguments(t, from, to, more), more)
    requires t.chainId != 0 && 3 <= |t.symbol| <= 24 && |Erc1155Call(t, from, to, ids, amounts)| < 0x100_0000
    ensures MessageOutcome(validString, Erc1155Call(t, from, to, ids, amounts), value)
         == Decoded(Message(SendERC1155, Some(t), Sum(amounts)))
  {
    NotReadAsErc20(validString, t, from, to, [Array(Words(ids)), Array(Words(amounts))]);
    Erc1155RoundTrip(validString, t, from, to, ids, amounts, value);
  }

  lemma AtLeastFactor(a: nat, b: nat)
    requires a >= 1
    ensures a * b >= b
  {
  }

  lemma FourLength(a: Value, b: Value, c: Value, d: Value)
    requires OneWordHeads([a, b, c, d])
    ensures |EncSeq([a, b, c, d])| == 128 + |Tail(a)| + |Tail(b)| + |Tail(c)| + |Tail(d)|
  {
    OneWordHeadsLength([a, b, c, d], HeadsLength([a, b, c, d]));
    TailsCons(d, []);
    TailsCons(c, [d]);
    TailsCons(b, [c, d]);
    TailsCons(a, [b, c, d]);
    assert [a] + [b, c, d] == [a, b, c, d] && [b] + [c, d] == [b, c, d] && [c] + [d] == [c, d] && [d] + [] == [d];
  }

  lemma EmptyLengths()
    ensures |Tail(Text([]))| == 32 && |Tail(Array(Words([])))| == 32
  {
    ArrayLength([]);
  }

  lemma ArrayLength(ns: seq<Uint256>)
    requires |ns| == 0
    ensures |Enc(Array(Words(ns)))| == 32
  {
    OneWordHeadsLength(Words(ns), HeadsLength(Words(ns)));
    NoTails(Words(ns));
  }

  lemma ShortCall(t: CanonicalToken, ids: Value)
    requires t == CanonicalNFT(1, 0, [], []) && ids == Array(Words([]))
    ensures |Invocation(Arguments(t, 0, 0, [ids]))| < TWO_TO_63
  {
    ShortToken(t);
    FourArguments(t, ids);
    CallData(Arguments(t, 0, 0, [ids]));
  }

  lemma ShortToken(t: CanonicalToken)
    requires t == CanonicalNFT(1, 0, [], [])
    ensures |Tail(Tuple(TokenFields(t)))| == 192
  {
    EmptyLengths();
    TokenIsDynamic(t);
    FourLength(Word(1), Word(0), Text([]), Text([]));
  }

  lemma FourArguments(t: CanonicalToken, ids: Value)
    requires ids == Array(Words([]))
    ensures |EncSeq(Arguments(t, 0, 0, [ids]))| == 160 + |Tail(Tuple(TokenFields(t)))|
  {
    EmptyLengths();
    ArgumentHeads(t, 0, 0, [ids]);
    assert Arguments(t, 0, 0, [ids]) == [Tuple(TokenFields(t)), Word(0), Word(0), ids];
    FourLength(Tuple(TokenFields(t)), Word(0), Word(0), ids);
  }

  /** An NFT call whose token data also reads as an ERC-20 token is taken for an ERC-20 transfer. */
  lemma TakenForErc20(validString: Bytes -> bool, t: CanonicalToken, from: Uint160, to: Uint160,
                      more: seq<Value>, value: int)
    requires var args := Arguments(t, from, to, more);
             && NftCall(validString, t, args, more)
             && (|t.symbol| + 32 <= |TokenData(args)| ==> ReadsAsErc20(validString, t, TokenData(args)))
    ensures var r := MessageOutcome(validString, Invocation(Arguments(t, from, to, more)), value);
            r.Decoded? && r.message.eventType == SendERC20
  {
    CallData(Arguments(t, from, to, more));
    NftAsErc20(validString, t, from, to, more);
  }

  /** Without a hypothesis on the symbol the kinds are not told apart: an ERC-721 call for a token
      with empty symbol and name on chain 1 is read as an ERC-20 transfer. */
  lemma EmptySymbolReadsAsErc20(validString: Bytes -> bool, t: CanonicalToken, value: int)
    requires validString([]) && validString([0])
    requires t == CanonicalNFT(1, 0, [], [])
    ensures var r := MessageOutcome(validString, Erc721Call(t, 0, 0, []), value);
            r.Decoded? && r.message.eventType == SendERC20
  {
    EmptySymbolCall(validString, t, Array(Words([])));
    TakenForErc20(validString, t, 0, 0, [Array(Words([]))], value);
  }

  lemma EmptySymbolCall(validString: Bytes -> bool, t: CanonicalToken, ids: Value)
    requires validString([]) && validString([0])
    requires t == CanonicalNFT(1, 0, [], []) && ids == Array(Words([]))
    ensures var args := Arguments(t, 0, 0, [ids]);
            && NftCall(validString, t, args, [ids])
            && (|t.symbol| + 32 <= |TokenData(args)| ==> ReadsAsErc20(validString, t, TokenData(args)))
  {
    ShortCall(t, ids);
    EmptySymbolTokenData(validString, t, ids);
  }

  lemma EmptySymbolTokenData(validString: Bytes -> bool, t: CanonicalToken, ids: Value)
    requires validString([0]) && t == CanonicalNFT(1, 0, [], []) && ids == Array(Words([]))
    requires |Invocation(Arguments(t, 0, 0, [ids]))| < TWO_TO_63
    ensures var td := TokenData(Arguments(t, 0, 0, [ids]));
            |t.symbol| + 32 <= |td| ==> ReadsAsErc20(validString, t, td)
  {
    CallData(Arguments(t, 0, 0, [ids]));
    var rest := TokenAt(t, 0, 0, [ids]);
    EmptySymbolMisread(validString, t, rest);
  }

  lemma EmptySymbolMisread(validString: Bytes -> bool, t: CanonicalToken, rest: Bytes)
    requires t == CanonicalNFT(1, 0, [], []) && validString([0])
    requires |EncSeq(TokenFields(t)) + rest| < TWO_TO_63
    ensures var td := EncSeq(TokenFields(t)) + rest;
            32 <= |td| && ReadsAsErc20(validString, t, td)
  {
    MisreadFields(t, rest);
    EmptySymbolLength(t, rest);
    AddressByte(t, rest);
    ZeroWordStart();
    assert (EncSeq(TokenFields(t)) + rest)[32..33] == [0];
  }

  lemma ZeroWordStart()
    ensures ToBytes(0, 32)[..1] == [0]
  {
    ToBytesZero(32, 0);
  }

  lemma EmptySymbolLength(t: CanonicalToken, rest: Bytes)
    requires t == CanonicalNFT(1, 0, [], []) && |EncSeq(TokenFields(t)) + rest| < TWO_TO_63
    ensures var td := EncSeq(TokenFields(t)) + rest; 32 <= |td| && MisreadLength(t, td) == 1
  {
    MisreadLengthIs(t, rest);
    assert ToBytes(0, 32)[..0] == [];
  }

  lemma AddressByte(t: CanonicalToken, rest: Bytes)
    requires t.CanonicalNFT?
    ensures var td := EncSeq(TokenFields(t)) + rest; 64 <= |td| && td[32..33] == ToBytes(t.addr, 32)[..1]
  {
    TokenIsDynamic(t);
    HeadBytesAt(TokenFields(t), rest, 1);
    Subslice(EncSeq(TokenFields(t)) + rest, 32, ToBytes(t.addr, 32), 0, 1);
  }
}
