/** The Contract ABI Specification's encoding (section "Formal Specification of the Encoding") of
    the values a bridge message carries, and a strict decoder for flat argument lists. */
module ContractAbi {
  import opened Integers
  import opened ByteStrings
  import opened Options

  /** An ABI value: a one-word static value (uintN or address), a bytes or string value, a dynamic
      array, or a tuple. */
  datatype Value =
    | Word(n: Uint256)
    | Text(s: Bytes)
    | Array(elems: seq<Value>)
    | Tuple(elems: seq<Value>)

  predicate Dynamic(v: Value)
    decreases v, 0
  {
    match v
    case Word(_) => false
    case Text(_) => true
    case Array(_) => true
    case Tuple(elems) => AnyDynamic(elems)
  }

  predicate AnyDynamic(elems: seq<Value>)
    decreases elems, 0
  {
    elems != [] && (Dynamic(elems[0]) || AnyDynamic(elems[1..]))
  }

  function PadRight(s: Bytes): (r: Bytes)
    ensures |r| % 32 == 0 && |s| <= |r| < |s| + 32 && r[..|s|] == s
  {
    var pad := (32 - |s| % 32) % 32;
    s + seq(pad, i => 0)
  }

  function Enc(v: Value): Bytes
    decreases v, 0
  {
    match v
    case Word(n) => ToBytes(n, 32)
    case Text(s) => ToBytes(|s|, 32) + PadRight(s)
    case Array(elems) => ToBytes(|elems|, 32) + EncSeq(elems)
    case Tuple(elems) => EncSeq(elems)
  }

  /** The encoding of a sequence of values: the heads, then the tails of the dynamic ones. */
  function EncSeq(elems: seq<Value>): Bytes
    decreases elems, 2
  {
    Heads(elems, HeadsLength(elems)) + Tails(elems)
  }

  function HeadsLength(elems: seq<Value>): nat
    decreases elems, 1
  {
    if elems == [] then 0
    else (if Dynamic(elems[0]) then 32 else |Enc(elems[0])|) + HeadsLength(elems[1..])
  }

  /** The heads of `elems`; `offset` is where the first of their tails will stand. */
  function Heads(elems: seq<Value>, offset: nat): Bytes
    decreases elems, 1
  {
    if elems == [] then []
    else Head(elems[0], offset) + Heads(elems[1..], offset + |Tail(elems[0])|)
  }

  function Tails(elems: seq<Value>): Bytes
    decreases elems, 1
  {
    if elems == [] then [] else Tail(elems[0]) + Tails(elems[1..])
  }

  function Head(v: Value, offset: nat): Bytes
    decreases v, 1
  {
    if Dynamic(v) then ToBytes(offset, 32) else Enc(v)
  }

  function Tail(v: Value): Bytes
    decreases v, 1
  {
    if Dynamic(v) then Enc(v) else []
  }

  /** Every head takes one word: each value is dynamic or a single word. */
  predicate OneWordHeads(elems: seq<Value>) {
    forall i :: 0 <= i < |elems| ==> Dynamic(elems[i]) || elems[i].Word?
  }

  /** Where the tail of element `i` stands within `EncSeq(elems)`. */
  function Offset(elems: seq<Value>, i: nat): nat
    requires i <= |elems|
  {
    32 * |elems| + |Tails(elems[..i])|
  }

  lemma {:induction false} TailsSplit(elems: seq<Value>, i: nat)
    requires i <= |elems|
    ensures Tails(elems) == Tails(elems[..i]) + Tails(elems[i..])
  {
    if i == 0 {
      assert elems[..0] == [] && elems[0..] == elems;
    } else {
      TailsSplit(elems[1..], i - 1);
      assert elems[..i][0] == elems[0];
      assert elems[..i][1..] == elems[1..][..i - 1];
      assert elems[1..][i - 1..] == elems[i..];
    }
  }

  lemma {:induction false} NoTails(elems: seq<Value>)
    requires forall i :: 0 <= i < |elems| ==> elems[i].Word?
    ensures Tails(elems) == []
  {
    if elems != [] {
      NoTails(elems[1..]);
    }
  }

  lemma TailsCons(v: Value, rest: seq<Value>)
    ensures Tails([v] + rest) == Tail(v) + Tails(rest)
  {
    assert ([v] + rest)[1..] == rest;
  }

  lemma {:induction false} OneWordHeadsLength(elems: seq<Value>, offset: nat)
    requires OneWordHeads(elems)
    ensures HeadsLength(elems) == 32 * |elems| == |Heads(elems, offset)|
  {
    if elems != [] {
      OneWordHeadsLength(elems[1..], offset + |Tail(elems[0])|);
    }
  }

  lemma {:induction false} HeadAt(elems: seq<Value>, offset: nat, i: nat)
    requires OneWordHeads(elems) && i < |elems|
    ensures 32 * i + 32 <= |Heads(elems, offset)|
    ensures Heads(elems, offset)[32 * i..32 * i + 32]
         == Head(elems[i], offset + |Tails(elems[..i])|)
  {
    OneWordHeadsLength(elems, offset);
    var h, rest := Head(elems[0], offset), Heads(elems[1..], offset + |Tail(elems[0])|);
    assert |h| == 32;
    if i == 0 {
      assert elems[..0] == [];
      assert (h + rest)[0..32] == h;
    } else {
      HeadAt(elems[1..], offset + |Tail(elems[0])|, i - 1);
      assert elems[..i][0] == elems[0] && elems[..i][1..] == elems[1..][..i - 1];
      assert (h + rest)[32 * i..32 * i + 32] == rest[32 * (i - 1)..32 * (i - 1) + 32];
    }
  }

  /** Head `i` of an encoded sequence is its word, or the offset at which its encoding stands. */
  lemma {:induction false} EncSeqAt(elems: seq<Value>, i: nat)
    requires OneWordHeads(elems) && i < |elems|
    ensures 32 * i + 32 <= |EncSeq(elems)|
    ensures EncSeq(elems)[32 * i..32 * i + 32] == Head(elems[i], Offset(elems, i))
    ensures Offset(elems, i) + |Tail(elems[i])| <= |EncSeq(elems)|
    ensures EncSeq(elems)[Offset(elems, i)..Offset(elems, i) + |Tail(elems[i])|] == Tail(elems[i])
  {
    var n := HeadsLength(elems);
    OneWordHeadsLength(elems, n);
    HeadAt(elems, n, i);
    TailsSplit(elems, i);
    var hs, before, t, after := Heads(elems, n), Tails(elems[..i]), Tail(elems[i]), Tails(elems[i..][1..]);
    assert elems[i..][0] == elems[i];
    assert EncSeq(elems) == hs + before + t + after;
    assert EncSeq(elems)[32 * i..32 * i + 32] == hs[32 * i..32 * i + 32];
    assert (hs + before + t + after)[|hs| + |before|..|hs| + |before| + |t|] == t;
  }

  /** Encodings are whole words. */
  lemma {:induction false} EncIsWords(v: Value)
    ensures |Enc(v)| % 32 == 0
    decreases v, 0
  {
    if v.Array? || v.Tuple? {
      EncSeqIsWords(v.elems, HeadsLength(v.elems));
      AddWords(|Heads(v.elems, HeadsLength(v.elems))|, |Tails(v.elems)|);
      AddWords(32, |EncSeq(v.elems)|);
    } else if v.Text? {
      AddWords(32, |PadRight(v.s)|);
    }
  }

  lemma {:induction false} EncSeqIsWords(elems: seq<Value>, offset: nat)
    ensures |Heads(elems, offset)| % 32 == 0 && |Tails(elems)| % 32 == 0
    decreases elems, 0
  {
    if elems != [] {
      var first := elems[0];
      EncIsWords(first);
      assert |Head(first, offset)| % 32 == 0 && |Tail(first)| % 32 == 0;
      EncSeqIsWords(elems[1..], offset + |Tail(first)|);
      AddWords(|Head(first, offset)|, |Heads(elems[1..], offset + |Tail(first)|)|);
      AddWords(|Tail(first)|, |Tails(elems[1..])|);
    }
  }

  lemma AddWords(a: nat, b: nat)
    requires a % 32 == 0 && b % 32 == 0
    ensures (a + b) % 32 == 0
  {
  }

  // ---- The strict decoder ----

  /** The argument types the bridge decoders name. */
  datatype Type = UInt(size: nat) | Address | String

  datatype Field = Number(n: nat) | Account(addr: Uint160) | Chars(s: Bytes)

  function ReadNat(data: Bytes, at: nat): nat
    requires at + 32 <= |data|
  {
    FromBytes(data[at..at + 32])
  }

  /** The length-prefixed string that the head word at `at` points to. */
  function ReadString(data: Bytes, at: nat): Option<Field> {
    if at + 32 > |data| then None else
    var offset := ReadNat(data, at);
    if offset + 32 > |data| then None else
    var length := ReadNat(data, offset);
    if offset + 32 + length > |data| then None else
    Some(Chars(data[offset + 32..offset + 32 + length]))
  }

  function ReadField(t: Type, data: Bytes, at: nat): Option<Field> {
    if at + 32 > |data| then None else
    match t
    case UInt(size) =>
      if ReadNat(data, at) < Pow256(size) then Some(Number(ReadNat(data, at))) else None
    case Address => Some(Account(ReadNat(data, at) % TWO_TO_160))
    case String => ReadString(data, at)
  }

  /** Decodes the arguments of `types` from number `i` on; fails if any one of them does. */
  function DecodeFrom(types: seq<Type>, data: Bytes, i: nat): Option<seq<Field>>
    requires i <= |types|
    decreases |types| - i
  {
    if i == |types| then Some([]) else
    var first := ReadField(types[i], data, 32 * i);
    var rest := DecodeFrom(types, data, i + 1);
    if first.Some? && rest.Some? then Some([first.value] + rest.value) else None
  }

  function DecodeABI(types: seq<Type>, data: Bytes): Option<seq<Field>> {
    DecodeFrom(types, data, 0)
  }

  /** Decoding succeeds only with field `k` read from its own head word, and fails if that does. */
  lemma {:induction false} DecodeFromAt(types: seq<Type>, data: Bytes, i: nat, k: nat)
    requires i <= k < |types|
    ensures DecodeFrom(types, data, i).Some? ==>
              && |DecodeFrom(types, data, i).value| == |types| - i
              && ReadField(types[k], data, 32 * k) == Some(DecodeFrom(types, data, i).value[k - i])
    decreases |types| - i
  {
    DecodeFromStep(types, data, i);
    if i < k {
      DecodeFromAt(types, data, i + 1, k);
    } else {
      DecodeFromLength(types, data, i);
    }
  }

  lemma DecodeFromStep(types: seq<Type>, data: Bytes, i: nat)
    requires i < |types|
    ensures DecodeFrom(types, data, i).Some? ==>
              && ReadField(types[i], data, 32 * i).Some? && DecodeFrom(types, data, i + 1).Some?
              && DecodeFrom(types, data, i).value
                 == [ReadField(types[i], data, 32 * i).value] + DecodeFrom(types, data, i + 1).value
  {
  }

  lemma {:induction false} DecodeFromLength(types: seq<Type>, data: Bytes, i: nat)
    requires i <= |types|
    ensures DecodeFrom(types, data, i).Some? ==> |DecodeFrom(types, data, i).value| == |types| - i
    decreases |types| - i
  {
    if i < |types| {
      DecodeFromStep(types, data, i);
      DecodeFromLength(types, data, i + 1);
    }
  }

  /** The values that a type admits, and the field that decoding one must yield. */
  predicate Admits(t: Type, v: Value) {
    match t
    case UInt(size) => v.Word? && v.n < Pow256(size)
    case Address => v.Word? && v.n < TWO_TO_160
    case String => v.Text?
  }

  function FieldOf(t: Type, v: Value): Field
    requires Admits(t, v)
  {
    match t
    case UInt(_) => Number(v.n)
    case Address => Account(v.n)
    case String => Chars(v.s)
  }

  lemma WordValue(n: Uint256)
    ensures FromBytes(ToBytes(n, 32)) == n
  {
    PowersOf256();
    FromBytesToBytes(n, 32);
  }

  lemma ReadWord(data: Bytes, at: nat, n: Uint256)
    requires at + 32 <= |data| && data[at..at + 32] == ToBytes(n, 32)
    ensures ReadNat(data, at) == n
  {
    WordValue(n);
  }

  lemma ReadEncodedString(data: Bytes, at: nat, offset: nat, w: Bytes, s: Bytes)
    requires at + 32 <= |data| && ReadNat(data, at) == offset
    requires |w| == 32 && FromBytes(w) == |s|
    requires offset + 32 + |PadRight(s)| <= |data|
    requires data[offset..offset + 32 + |PadRight(s)|] == w + PadRight(s)
    ensures ReadString(data, at) == Some(Chars(s))
  {
    PrefixedText(data, offset, w, PadRight(s), |s|);
  }

  lemma PrefixedText(data: Bytes, offset: nat, w: Bytes, p: Bytes, n: nat)
    requires |w| == 32 && n <= |p| && offset + 32 + |p| <= |data|
    requires data[offset..offset + 32 + |p|] == w + p
    ensures data[offset..offset + 32] == w && data[offset + 32..offset + 32 + n] == p[..n]
  {
    Subslice(data, offset, w + p, 0, 32);
    Subslice(data, offset, w + p, 32, 32 + n);
    assert (w + p)[0..32] == w && (w + p)[32..32 + n] == p[..n];
  }

  lemma Subslice(data: Bytes, at: nat, t: Bytes, lo: nat, hi: nat)
    requires lo <= hi <= |t| && at + |t| <= |data| && data[at..at + |t|] == t
    ensures data[at + lo..at + hi] == t[lo..hi]
  {
    forall i | 0 <= i < hi - lo
      ensures data[at + lo..at + hi][i] == t[lo..hi][i]
    {
      assert data[at..at + |t|][lo + i] == t[lo + i];
    }
  }

  /** EncSeqAt, for an encoding that other bytes follow. */
  lemma HeadBytesAt(elems: seq<Value>, rest: Bytes, i: nat)
    requires OneWordHeads(elems) && i < |elems|
    ensures 32 * i + 32 <= |EncSeq(elems)|
    ensures Offset(elems, i) + |Tail(elems[i])| <= |EncSeq(elems)|
    ensures var data := EncSeq(elems) + rest;
            && data[32 * i..32 * i + 32] == Head(elems[i], Offset(elems, i))
            && data[Offset(elems, i)..Offset(elems, i) + |Tail(elems[i])|] == Tail(elems[i])
  {
    EncSeqAt(elems, i);
    var enc, at, n := EncSeq(elems), Offset(elems, i), |Tail(elems[i])|;
    assert (enc + rest)[32 * i..32 * i + 32] == enc[32 * i..32 * i + 32];
    assert (enc + rest)[at..at + n] == enc[at..at + n];
  }

  lemma ReadEncodedWord(t: Type, data: Bytes, at: nat, n: Uint256)
    requires at + 32 <= |data| && data[at..at + 32] == ToBytes(n, 32)
    requires Admits(t, Word(n))
    ensures ReadField(t, data, at) == Some(FieldOf(t, Word(n)))
  {
    ReadWord(data, at, n);
    assert ReadNat(data, at) == n;
    match t
    case UInt(size) =>
    case Address => ModSmall(n, TWO_TO_160);
    case String =>
  }

  lemma ReadEncodedField(types: seq<Type>, elems: seq<Value>, rest: Bytes, i: nat)
    requires i < |types| == |elems| && OneWordHeads(elems)
    requires Admits(types[i], elems[i])
    requires |EncSeq(elems) + rest| < TWO_TO_63
    ensures ReadField(types[i], EncSeq(elems) + rest, 32 * i) == Some(FieldOf(types[i], elems[i]))
  {
    HeadBytesAt(elems, rest, i);
    var data, at := EncSeq(elems) + rest, 32 * i;
    match elems[i]
    case Word(n) => ReadEncodedWord(types[i], data, at, n);
    case Text(s) =>
      var w := ToBytes(|s|, 32);
      assert Tail(elems[i]) == w + PadRight(s);
      ReadWord(data, at, Offset(elems, i));
      WordValue(|s|);
      ReadEncodedString(data, at, Offset(elems, i), w, s);
  }

  predicate AllAdmitted(types: seq<Type>, elems: seq<Value>) {
    && |types| == |elems|
    && forall k :: 0 <= k < |elems| ==> Admits(types[k], elems[k])
  }

  function FieldsOf(types: seq<Type>, elems: seq<Value>): (fields: seq<Field>)
    requires AllAdmitted(types, elems)
    ensures |fields| == |elems|
  {
    seq(|elems|, k requires 0 <= k < |elems| => FieldOf(types[k], elems[k]))
  }

  /** Decoding succeeds when every field can be read. */
  lemma {:induction false} DecodeFromAll(types: seq<Type>, data: Bytes, fields: seq<Field>, i: nat)
    requires i <= |types| == |fields|
    requires forall k :: 0 <= k < |types| ==> ReadField(types[k], data, 32 * k) == Some(fields[k])
    ensures DecodeFrom(types, data, i) == Some(fields[i..])
    decreases |types| - i
  {
    if i < |types| {
      DecodeFromAll(types, data, fields, i + 1);
      assert fields[i..] == [fields[i]] + fields[i + 1..];
    } else {
      assert fields[i..] == [];
    }
  }

  /** Decoding undoes encoding, whatever bytes follow the encoding. */
  lemma DecodeEncoded(types: seq<Type>, elems: seq<Value>, rest: Bytes)
    requires AllAdmitted(types, elems)
    requires |EncSeq(elems) + rest| < TWO_TO_63
    ensures DecodeABI(types, EncSeq(elems) + rest) == Some(FieldsOf(types, elems))
  {
    forall k | 0 <= k < |types|
      ensures ReadField(types[k], EncSeq(elems) + rest, 32 * k) == Some(FieldsOf(types, elems)[k])
    {
      ReadEncodedField(types, elems, rest, k);
    }
    DecodeFromAll(types, EncSeq(elems) + rest, FieldsOf(types, elems), 0);
    assert FieldsOf(types, elems)[0..] == FieldsOf(types, elems);
  }
}
