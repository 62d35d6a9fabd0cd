/** XDR (RFC 4506) as the client writes and reads it: an encoder that appends to a buffer and a
    decoder that moves a cursor over its input (src/xdr/encode.rs, src/xdr/decode.rs). */
module Xdr {
  type byte = x: nat | x < 256
  type bytes = seq<byte>

  const U32: nat := 0x1_0000_0000
  const U64: nat := 0x1_0000_0000_0000_0000

  datatype XdrError =
    | LengthLimitExceeded(len: nat, max: nat)
    | LengthOutOfRange(size: nat)
    | UnexpectedEof(needed: nat, left: nat)
    | InvalidBool(value: nat)
    | TrailingBytes(remaining: nat)

  datatype Outcome<+T> = Done(value: T) | Failed(error: XdrError) {
    predicate IsFailure() {
      Failed?
    }

    function PropagateFailure<U>(): Outcome<U>
      requires Failed?
    {
      Failed(error)
    }

    function Extract(): T
      requires Done?
    {
      value
    }
  }

  /** The types a message is put together from. Strings are opaques. */
  datatype Shape =
    | Word
    | Long
    | Flag
    | Fixed(len: nat)
    | Opaque(max: nat)
    | List(item: Shape, limit: nat)
    | Optional(some: Shape)
    | Pair(first: Shape, second: Shape)

  datatype Datum =
    | Number(n: nat)
    | Boolean(b: bool)
    | Blob(data: bytes)
    | Items(items: seq<Datum>)
    | Missing
    | Present(inner: Datum)
    | Both(left: Datum, right: Datum)

  /** The value belongs to the type; what the Rust types guarantee. */
  predicate Typed(shape: Shape, v: Datum)
    decreases shape, v, 0
  {
    match (shape, v)
    case (Word, Number(n)) => n < U32
    case (Long, Number(n)) => n < U64
    case (Flag, Boolean(_)) => true
    case (Fixed(len), Blob(data)) => |data| == len
    case (Opaque(_), Blob(_)) => true
    case (List(item, _), Items(items)) => forall x :: x in items ==> Typed(item, x)
    case (Optional(_), Missing) => true
    case (Optional(some), Present(x)) => Typed(some, x)
    case (Pair(a, b), Both(x, y)) => Typed(a, x) && Typed(b, y)
    case _ => false
  }

  /** Every length inside the value respects its limit and fits 32 bits. */
  predicate Fits(shape: Shape, v: Datum)
    requires Typed(shape, v)
    decreases shape, v
  {
    match shape
    case Opaque(max) => |v.data| <= max && |v.data| < U32
    case List(item, limit) => |v.items| <= limit && |v.items| < U32 && forall x :: x in v.items ==> Fits(item, x)
    case Optional(some) => v.Present? ==> Fits(some, v.inner)
    case Pair(a, b) => Fits(a, v.left) && Fits(b, v.right)
    case _ => true
  }

  // ---- Bytes on the wire ------------------------------------------------------------------------

  /** `n` in `width` bytes, most significant first. */
  function BigEndian(n: nat, width: nat): (r: bytes)
    ensures |r| == width
  {
    if width == 0 then [] else BigEndian(n / 256, width - 1) + [n % 256]
  }

  function FromBigEndian(s: bytes): nat {
    if s == [] then 0 else FromBigEndian(s[..|s| - 1]) * 256 + s[|s| - 1]
  }

  function Power(width: nat): (p: nat)
    ensures p > 0
  {
    if width == 0 then 1 else 256 * Power(width - 1)
  }

  lemma {:induction false} BigEndianRoundTrip(n: nat, width: nat)
    requires n < Power(width)
    ensures FromBigEndian(BigEndian(n, width)) == n
  {
    if width > 0 {
      BigEndianRoundTrip(n / 256, width - 1);
      assert BigEndian(n, width)[..width - 1] == BigEndian(n / 256, width - 1);
    }
  }

  lemma {:induction false} FromBigEndianRoundTrip(s: bytes)
    ensures FromBigEndian(s) < Power(|s|)
    ensures BigEndian(FromBigEndian(s), |s|) == s
  {
    if s != [] {
      FromBigEndianRoundTrip(s[..|s| - 1]);
      assert s == s[..|s| - 1] + [s[|s| - 1]];
    }
  }

  lemma Widths()
    ensures Power(4) == U32 && Power(8) == U64
  {
    assert Power(2) == 0x1_0000;
    assert Power(4) == 0x1_0000_0000;
    assert Power(6) == 0x1_0000_0000_0000;
  }

  function Padding(len: nat): (p: nat)
    ensures p < 4 && (len + p) % 4 == 0
  {
    (4 - len % 4) % 4
  }

  function Zeros(n: nat): (r: bytes)
    ensures |r| == n
  {
    seq(n, _ => 0)
  }

  function Padded(data: bytes): bytes {
    data + Zeros(Padding(|data|))
  }

  /** The wire form of a value. */
  function Encoding(shape: Shape, v: Datum): bytes
    requires Typed(shape, v)
    decreases shape, v, 1
  {
    match shape
    case Word => BigEndian(v.n, 4)
    case Long => BigEndian(v.n, 8)
    case Flag => BigEndian(if v.b then 1 else 0, 4)
    case Fixed(_) => Padded(v.data)
    case Opaque(_) => BigEndian(|v.data|, 4) + Padded(v.data)
    case List(item, _) => BigEndian(|v.items|, 4) + EncodingAll(item, v.items)
    case Optional(some) =>
      if v.Missing? then BigEndian(0, 4) else BigEndian(1, 4) + Encoding(some, v.inner)
    case Pair(a, b) => Encoding(a, v.left) + Encoding(b, v.right)
  }

  function EncodingAll(item: Shape, items: seq<Datum>): bytes
    requires forall x :: x in items ==> Typed(item, x)
    decreases item, items, 0
  {
    if items == [] then []
    else EncodingAll(item, items[..|items| - 1]) + Encoding(item, items[|items| - 1])
  }

  predicate Aligned(s: bytes) {
    |s| % 4 == 0
  }

  lemma ConcatIsAligned(a: bytes, b: bytes)
    requires Aligned(a) && Aligned(b)
    ensures Aligned(a + b)
  {
  }

  lemma PrimitivesAreAligned(n: nat, data: bytes)
    ensures Aligned(BigEndian(n, 4)) && Aligned(BigEndian(n, 8)) && Aligned(Padded(data))
  {
  }

  /** Everything on the wire is a whole number of 4-byte units. */
  lemma {:induction false} EncodingIsAligned(shape: Shape, v: Datum)
    requires Typed(shape, v)
    ensures Aligned(Encoding(shape, v))
    decreases shape, v, 1
  {
    hide Aligned, BigEndian, Padded;
    match shape {
      case Word => PrimitivesAreAligned(v.n, []);
      case Long => PrimitivesAreAligned(v.n, []);
      case Flag => PrimitivesAreAligned(if v.b then 1 else 0, []);
      case Fixed(_) => PrimitivesAreAligned(0, v.data);
      case Opaque(_) =>
        PrimitivesAreAligned(|v.data|, v.data);
        ConcatIsAligned(BigEndian(|v.data|, 4), Padded(v.data));
      case List(item, _) =>
        PrimitivesAreAligned(|v.items|, []);
        AllIsAligned(item, v.items);
        ConcatIsAligned(BigEndian(|v.items|, 4), EncodingAll(item, v.items));
      case Optional(some) =>
        PrimitivesAreAligned(0, []);
        if v.Present? {
          PrimitivesAreAligned(1, []);
          EncodingIsAligned(some, v.inner);
          ConcatIsAligned(BigEndian(1, 4), Encoding(some, v.inner));
        }
      case Pair(a, b) =>
        EncodingIsAligned(a, v.left);
        EncodingIsAligned(b, v.right);
        ConcatIsAligned(Encoding(a, v.left), Encoding(b, v.right));
    }
  }

  lemma {:induction false} AllIsAligned(item: Shape, items: seq<Datum>)
    requires forall x :: x in items ==> Typed(item, x)
    ensures Aligned(EncodingAll(item, items))
    decreases item, items, 0
  {
    hide Encoding, Typed, BigEndian, Padded;
    if items != [] {
      AllIsAligned(item, items[..|items| - 1]);
      EncodingIsAligned(item, items[|items| - 1]);
      ConcatIsAligned(EncodingAll(item, items[..|items| - 1]), Encoding(item, items[|items| - 1]));
    }
  }

  // ---- Reading back ----------------------------------------------------------------------------

  function TakeBytes(input: bytes, pos: nat, n: nat): (r: Outcome<bytes>)
    requires pos <= |input|
    ensures r.Done? <==> pos + n <= |input|
    ensures r.Done? ==> |r.value| == n && r.value == input[pos..pos + n]
  {
    if pos + n <= |input| then Done(input[pos..pos + n]) else Failed(UnexpectedEof(n, |input| - pos))
  }

  function DecodeWord(input: bytes, pos: nat): (r: Outcome<(nat, nat)>)
    requires pos <= |input|
    ensures r.Done? <==> pos + 4 <= |input|
    ensures r.Done? ==> r.value.1 == pos + 4
  {
    var word :- TakeBytes(input, pos, 4);
    Done((FromBigEndian(word), pos + 4))
  }

  function DecodeFixed(input: bytes, pos: nat, len: nat): (r: Outcome<(bytes, nat)>)
    requires pos <= |input|
    ensures r.Done? ==> r.value.1 == pos + len + Padding(len) <= |input| && |r.value.0| == len
  {
    var data :- TakeBytes(input, pos, len);
    var _ :- TakeBytes(input, pos + len, Padding(len));
    Done((data, pos + len + Padding(len)))
  }

  function DecodeLen(input: bytes, pos: nat, max: nat): (r: Outcome<(nat, nat)>)
    requires pos <= |input|
    ensures r.Done? ==> r.value.1 == pos + 4 <= |input| && r.value.0 <= max
  {
    var len :- DecodeWord(input, pos);
    if len.0 > max then Failed(LengthLimitExceeded(len.0, max)) else Done(len)
  }

  function DecodeFlag(input: bytes, pos: nat): (r: Outcome<(bool, nat)>)
    requires pos <= |input|
    ensures r.Done? ==> r.value.1 == pos + 4 <= |input|
  {
    var flag :- DecodeWord(input, pos);
    if flag.0 == 0 then Done((false, flag.1))
    else if flag.0 == 1 then Done((true, flag.1))
    else Failed(InvalidBool(flag.0))
  }

  /** The value of a type at a position of the input, and the position behind it. */
  function Decode(shape: Shape, input: bytes, pos: nat): (r: Outcome<(Datum, nat)>)
    requires pos <= |input|
    ensures r.Done? ==> pos <= r.value.1 <= |input|
    decreases shape, 1, 0
  {
    match shape
    case Word =>
      var word :- DecodeWord(input, pos);
      Done((Number(word.0), word.1))
    case Long =>
      var long :- TakeBytes(input, pos, 8);
      Done((Number(FromBigEndian(long)), pos + 8))
    case Flag =>
      var flag :- DecodeFlag(input, pos);
      Done((Boolean(flag.0), flag.1))
    case Fixed(len) =>
      var data :- DecodeFixed(input, pos, len);
      Done((Blob(data.0), data.1))
    case Opaque(max) =>
      var len :- DecodeLen(input, pos, max);
      var data :- DecodeFixed(input, len.1, len.0);
      Done((Blob(data.0), data.1))
    case List(item, limit) =>
      var items :- DecodeList(item, limit, input, pos);
      Done((Items(items.0), items.1))
    case Optional(some) =>
      var flag :- DecodeFlag(input, pos);
      if !flag.0 then Done((Missing, flag.1))
      else
        var x :- Decode(some, input, flag.1);
        Done((Present(x.0), x.1))
    case Pair(a, b) =>
      var x :- Decode(a, input, pos);
      var y :- Decode(b, input, x.1);
      Done((Both(x.0, y.0), y.1))
  }

  function DecodeList(item: Shape, limit: nat, input: bytes, pos: nat): (r: Outcome<(seq<Datum>, nat)>)
    requires pos <= |input|
    ensures r.Done? ==> pos <= r.value.1 <= |input|
    decreases item, 3, 0
  {
    var len :- DecodeLen(input, pos, limit);
    DecodeAll(item, input, len.1, len.0)
  }

  function DecodeAll(item: Shape, input: bytes, pos: nat, count: nat): (r: Outcome<(seq<Datum>, nat)>)
    requires pos <= |input|
    ensures r.Done? ==> pos <= r.value.1 <= |input| && |r.value.0| == count
    decreases item, 2, count
  {
    if count == 0 then Done(([], pos))
    else
      var front :- DecodeAll(item, input, pos, count - 1);
      var last :- Decode(item, input, front.1);
      Done((front.0 + [last.0], last.1))
  }

  /** The input holds `s` at a position. */
  predicate At(input: bytes, pos: nat, s: bytes) {
    pos + |s| <= |input| && input[pos..pos + |s|] == s
  }

  lemma AtConcat(input: bytes, pos: nat, a: bytes, b: bytes)
    requires At(input, pos, a + b)
    ensures At(input, pos, a) && At(input, pos + |a|, b)
  {
    var s := input[pos..pos + |a + b|];
    assert s[..|a|] == input[pos..pos + |a|] && s[|a|..] == input[pos + |a|..pos + |a| + |b|];
    assert (a + b)[..|a|] == a && (a + b)[|a|..] == b;
  }

  lemma WordRoundTrip(input: bytes, pos: nat, n: nat)
    requires n < U32 && At(input, pos, BigEndian(n, 4))
    ensures DecodeWord(input, pos) == Done((n, pos + 4))
  {
    hide BigEndian, FromBigEndian, Power;
    Widths();
    BigEndianRoundTrip(n, 4);
  }

  lemma LenRoundTrip(input: bytes, pos: nat, n: nat, max: nat)
    requires n < U32 && n <= max && At(input, pos, BigEndian(n, 4))
    ensures DecodeLen(input, pos, max) == Done((n, pos + 4))
  {
    hide BigEndian, At, DecodeWord;
    WordRoundTrip(input, pos, n);
  }

  lemma FlagRoundTrip(input: bytes, pos: nat, b: bool)
    requires At(input, pos, BigEndian(if b then 1 else 0, 4))
    ensures DecodeFlag(input, pos) == Done((b, pos + 4))
  {
    hide BigEndian, At, DecodeWord;
    WordRoundTrip(input, pos, if b then 1 else 0);
  }

  lemma ListRoundTrip(item: Shape, items: seq<Datum>, limit: nat, input: bytes, pos: nat, end: nat)
    requires |items| < U32 && |items| <= limit && At(input, pos, BigEndian(|items|, 4))
    requires DecodeAll(item, input, pos + 4, |items|) == Done((items, end))
    ensures DecodeList(item, limit, input, pos) == Done((items, end))
  {
    hide BigEndian, At, DecodeLen, DecodeAll;
    LenRoundTrip(input, pos, |items|, limit);
  }

  lemma FixedRoundTrip(input: bytes, pos: nat, data: bytes)
    requires At(input, pos, Padded(data))
    ensures DecodeFixed(input, pos, |data|) == Done((data, pos + |Padded(data)|))
  {
    AtConcat(input, pos, data, Zeros(Padding(|data|)));
  }

  /** Decoding what was encoded gives the value back and consumes exactly its bytes, whatever
      stands before and after. */
  lemma {:induction false} RoundTrip(shape: Shape, v: Datum, input: bytes, pos: nat)
    requires Typed(shape, v) && Fits(shape, v) && At(input, pos, Encoding(shape, v))
    ensures Decode(shape, input, pos) == Done((v, pos + |Encoding(shape, v)|))
    decreases shape, v, 1
  {
    hide At, BigEndian, FromBigEndian, Padded, DecodeWord, DecodeFixed, DecodeLen, DecodeFlag, TakeBytes, DecodeAll;
    hide DecodeList, EncodingAll;
    match shape {
      case Word => WordRoundTrip(input, pos, v.n);
      case Long => LongRoundTrip(input, pos, v.n);
      case Flag => FlagRoundTrip(input, pos, v.b);
      case Fixed(_) => FixedRoundTrip(input, pos, v.data);
      case Opaque(max) =>
        AtConcat(input, pos, BigEndian(|v.data|, 4), Padded(v.data));
        LenRoundTrip(input, pos, |v.data|, max);
        FixedRoundTrip(input, pos + 4, v.data);
      case List(item, limit) =>
        AtConcat(input, pos, BigEndian(|v.items|, 4), EncodingAll(item, v.items));
        AllRoundTrip(item, v.items, input, pos + 4);
        ListRoundTrip(item, v.items, limit, input, pos, pos + 4 + |EncodingAll(item, v.items)|);
      case Optional(some) => OptionalRoundTrip(some, v, input, pos);
      case Pair(a, b) => PairRoundTrip(a, b, v, input, pos);
    }
  }

  lemma {:induction false} OptionalRoundTrip(some: Shape, v: Datum, input: bytes, pos: nat)
    requires Typed(Optional(some), v) && Fits(Optional(some), v) && At(input, pos, Encoding(Optional(some), v))
    ensures Decode(Optional(some), input, pos) == Done((v, pos + |Encoding(Optional(some), v)|))
    decreases Optional(some), v, 0
  {
    hide At, BigEndian, DecodeFlag;
    if v.Missing? {
      FlagRoundTrip(input, pos, false);
    } else {
      AtConcat(input, pos, BigEndian(1, 4), Encoding(some, v.inner));
      FlagRoundTrip(input, pos, true);
      RoundTrip(some, v.inner, input, pos + 4);
    }
  }

  lemma {:induction false} PairRoundTrip(a: Shape, b: Shape, v: Datum, input: bytes, pos: nat)
    requires Typed(Pair(a, b), v) && Fits(Pair(a, b), v) && At(input, pos, Encoding(Pair(a, b), v))
    ensures Decode(Pair(a, b), input, pos) == Done((v, pos + |Encoding(Pair(a, b), v)|))
    decreases Pair(a, b), v, 0
  {
    hide At;
    AtConcat(input, pos, Encoding(a, v.left), Encoding(b, v.right));
    RoundTrip(a, v.left, input, pos);
    RoundTrip(b, v.right, input, pos + |Encoding(a, v.left)|);
  }

  lemma LongRoundTrip(input: bytes, pos: nat, n: nat)
    requires n < U64 && At(input, pos, BigEndian(n, 8))
    ensures TakeBytes(input, pos, 8).Done? && FromBigEndian(TakeBytes(input, pos, 8).value) == n
  {
    hide BigEndian, FromBigEndian, Power;
    Widths();
    BigEndianRoundTrip(n, 8);
  }

  lemma AllStep(item: Shape, front: seq<Datum>, last: Datum)
    requires Typed(item, last) && forall x :: x in front ==> Typed(item, x)
    ensures EncodingAll(item, front + [last]) == EncodingAll(item, front) + Encoding(item, last)
  {
    hide Encoding, Typed;
    assert (front + [last])[..|front|] == front;
  }

  lemma {:induction false} AllRoundTrip(item: Shape, items: seq<Datum>, input: bytes, pos: nat)
    requires forall x :: x in items ==> Typed(item, x) && Fits(item, x)
    requires At(input, pos, EncodingAll(item, items))
    ensures DecodeAll(item, input, pos, |items|) == Done((items, pos + |EncodingAll(item, items)|))
    decreases item, items, 0
  {
    hide At, Encoding, EncodingAll, Decode, DecodeAll, Typed, Fits;
    if items == [] {
      NoItems(item, input, pos);
    } else {
      var front, last := items[..|items| - 1], items[|items| - 1];
      assert items == front + [last];
      AllStep(item, front, last);
      AtConcat(input, pos, EncodingAll(item, front), Encoding(item, last));
      AllRoundTrip(item, front, input, pos);
      RoundTrip(item, last, input, pos + |EncodingAll(item, front)|);
      DecodeStep(item, input, pos, |front|);
    }
  }

  lemma NoItems(item: Shape, input: bytes, pos: nat)
    ensures EncodingAll(item, []) == [] && (At(input, pos, []) <==> pos <= |input|)
    ensures pos <= |input| ==> DecodeAll(item, input, pos, 0) == Done(([], pos))
  {
  }

  lemma DecodeStep(item: Shape, input: bytes, pos: nat, count: nat)
    requires pos <= |input| && DecodeAll(item, input, pos, count).Done?
    ensures var front := DecodeAll(item, input, pos, count).value;
            var last := Decode(item, input, front.1);
            DecodeAll(item, input, pos, count + 1) ==
            if last.Done? then Done((front.0 + [last.value.0], last.value.1)) else Failed(last.error)
  {
    hide Decode;
  }

  /** Whatever the decoder accepts is a value of the type within its limits, and it consumed
      as many bytes as the value's own encoding has; only the content of padding is not looked at. */
  lemma {:induction false} DecodedFits(shape: Shape, input: bytes, pos: nat)
    requires pos <= |input| && Decode(shape, input, pos).Done?
    ensures var (v, end) := Decode(shape, input, pos).value;
            Typed(shape, v) && Fits(shape, v) && end - pos == |Encoding(shape, v)|
    decreases shape, 1, 0
  {
    hide FromBigEndian, BigEndian, EncodingAll, DecodeAll;
    match shape {
      case Word => WordFits(input, pos);
      case Long =>
        Widths();
        FromBigEndianRoundTrip(input[pos..pos + 8]);
      case Opaque(_) => WordFits(input, pos);
      case List(item, limit) =>
        WordFits(input, pos);
        AllDecodedFit(item, input, pos + 4, DecodeLen(input, pos, limit).value.0);
      case Optional(some) =>
        if DecodeFlag(input, pos).value.0 {
          DecodedFits(some, input, pos + 4);
        }
      case Pair(a, b) =>
        DecodedFits(a, input, pos);
        DecodedFits(b, input, Decode(a, input, pos).value.1);
      case _ =>
    }
  }

  lemma WordFits(input: bytes, pos: nat)
    requires pos <= |input| && DecodeWord(input, pos).Done?
    ensures DecodeWord(input, pos).value.0 < U32
  {
    hide FromBigEndian, Power;
    Widths();
    FromBigEndianRoundTrip(input[pos..pos + 4]);
  }

  lemma {:induction false} AllDecodedFit(item: Shape, input: bytes, pos: nat, count: nat)
    requires pos <= |input| && DecodeAll(item, input, pos, count).Done?
    ensures var (items, end) := DecodeAll(item, input, pos, count).value;
            && (forall x :: x in items ==> Typed(item, x) && Fits(item, x))
            && end - pos == |EncodingAll(item, items)|
    decreases item, 2, count
  {
    hide Decode, Encoding, Typed, Fits;
    if count > 0 {
      AllDecodedFit(item, input, pos, count - 1);
      var front := DecodeAll(item, input, pos, count - 1).value;
      DecodedFits(item, input, front.1);
      var last := Decode(item, input, front.1).value.0;
      assert (front.0 + [last])[..count - 1] == front.0;
    }
  }

  // ---- The encoder and the decoder ----------------------------------------------------------

  class Encoder {
    var buffer: bytes

    constructor ()
      ensures buffer == []
    {
      buffer := [];
    }

    method WriteWord(n: nat)
      requires n < U32
      modifies this
      ensures buffer == old(buffer) + BigEndian(n, 4)
    {
      buffer := buffer + BigEndian(n, 4);
    }

    method WriteFixed(data: bytes)
      modifies this
      ensures buffer == old(buffer) + Padded(data)
    {
      buffer := buffer + data;
      buffer := buffer + Zeros(Padding(|data|));
    }

    method WriteLen(len: nat, max: nat) returns (r: Outcome<()>)
      modifies this
      ensures r.Done? <==> len <= max && len < U32
      ensures buffer == if r.Done? then old(buffer) + BigEndian(len, 4) else old(buffer)
    {
      if len > max {
        return Failed(LengthLimitExceeded(len, max));
      }
      if len >= U32 {
        return Failed(LengthOutOfRange(len));
      }
      WriteWord(len);
      return Done(());
    }

    method WriteOpaque(data: bytes, max: nat) returns (r: Outcome<()>)
      modifies this
      ensures r.Done? <==> |data| <= max && |data| < U32
      ensures r.Done? ==> buffer == old(buffer) + (BigEndian(|data|, 4) + Padded(data))
    {
      var _ :- WriteLen(|data|, max);
      WriteFixed(data);
      return Done(());
    }

    /** Writing succeeds exactly for values within their limits, and appends their encoding. */
    method Write(shape: Shape, v: Datum) returns (r: Outcome<()>)
      requires Typed(shape, v)
      modifies this
      ensures r.Done? <==> Fits(shape, v)
      ensures r.Done? ==> buffer == old(buffer) + Encoding(shape, v)
      decreases shape, v, 1
    {
      hide BigEndian, Padded;
      match shape {
        case Word => WriteWord(v.n);
        case Long => buffer := buffer + BigEndian(v.n, 8);
        case Flag => WriteWord(if v.b then 1 else 0);
        case Fixed(_) => WriteFixed(v.data);
        case Opaque(max) => var _ :- WriteOpaque(v.data, max);
        case List(item, limit) => var _ :- WriteArray(item, v.items, limit);
        case Optional(some) =>
          WriteWord(if v.Present? then 1 else 0);
          if v.Present? {
            var _ :- Write(some, v.inner);
          }
        case Pair(a, b) =>
          var _ :- Write(a, v.left);
          var _ :- Write(b, v.right);
      }
      return Done(());
    }

    method WriteArray(item: Shape, items: seq<Datum>, max: nat) returns (r: Outcome<()>)
      requires forall x :: x in items ==> Typed(item, x)
      modifies this
      ensures r.Done? <==> |items| <= max && |items| < U32 && forall x :: x in items ==> Fits(item, x)
      ensures r.Done? ==> buffer == old(buffer) + (BigEndian(|items|, 4) + EncodingAll(item, items))
      decreases item, items, 0
    {
      hide BigEndian, Encoding, EncodingAll, Typed, Fits;
      var _ :- WriteLen(|items|, max);
      NoItems(item, [], 0);
      for i := 0 to |items|
        invariant forall x :: x in items[..i] ==> Fits(item, x)
        invariant buffer == old(buffer) + (BigEndian(|items|, 4) + EncodingAll(item, items[..i]))
      {
        assert items[i] in items;
        AllStep(item, items[..i], items[i]);
        assert items[..i + 1] == items[..i] + [items[i]];
        var _ :- Write(item, items[i]);
      }
      assert items[..|items|] == items;
      return Done(());
    }
  }

  class Decoder {
    const input: bytes
    var position: nat

    ghost predicate Valid()
      reads this
    {
      position <= |input|
    }

    constructor (input: bytes)
      ensures this.input == input && position == 0 && Valid()
    {
      this.input, position := input, 0;
    }

    method ReadBytes(n: nat) returns (r: Outcome<bytes>)
      requires Valid()
      modifies `position
      ensures Valid() && r == TakeBytes(input, old(position), n)
      ensures position == old(position) + if r.Done? then n else 0
    {
      if position + n > |input| {
        return Failed(UnexpectedEof(n, |input| - position));
      }
      r := Done(input[position..position + n]);
      position := position + n;
    }

    method ReadWord() returns (r: Outcome<nat>)
      requires Valid()
      modifies `position
      ensures Valid() && (r.Failed? <==> DecodeWord(input, old(position)).Failed?)
      ensures r.Failed? ==> r.error == DecodeWord(input, old(position)).error
      ensures r.Done? ==> DecodeWord(input, old(position)) == Done((r.value, position))
    {
      var word :- ReadBytes(4);
      return Done(FromBigEndian(word));
    }

    method ReadFixed(len: nat) returns (r: Outcome<bytes>)
      requires Valid()
      modifies `position
      ensures Valid() && (r.Failed? ==> DecodeFixed(input, old(position), len) == Failed(r.error))
      ensures r.Done? ==> DecodeFixed(input, old(position), len) == Done((r.value, position))
    {
      var data :- ReadBytes(len);
      var _ :- ReadBytes(Padding(len));
      return Done(data);
    }

    method ReadLen(max: nat) returns (r: Outcome<nat>)
      requires Valid()
      modifies `position
      ensures Valid() && (r.Failed? ==> DecodeLen(input, old(position), max) == Failed(r.error))
      ensures r.Done? ==> DecodeLen(input, old(position), max) == Done((r.value, position))
    {
      var len :- ReadWord();
      if len > max {
        return Failed(LengthLimitExceeded(len, max));
      }
      return Done(len);
    }

    method ReadFlag() returns (r: Outcome<bool>)
      requires Valid()
      modifies `position
      ensures Valid() && (r.Failed? ==> DecodeFlag(input, old(position)) == Failed(r.error))
      ensures r.Done? ==> DecodeFlag(input, old(position)) == Done((r.value, position))
    {
      var word :- ReadWord();
      if word == 0 {
        return Done(false);
      } else if word == 1 {
        return Done(true);
      }
      return Failed(InvalidBool(word));
    }

    /** Reading moves the cursor the way `Decode` does, and fails when it does. */
    method Read(shape: Shape) returns (r: Outcome<Datum>)
      requires Valid()
      modifies `position
      ensures Valid() && (r.Failed? ==> Decode(shape, input, old(position)) == Failed(r.error))
      ensures r.Done? ==> Decode(shape, input, old(position)) == Done((r.value, position))
      decreases shape, 1
    {
      hide FromBigEndian, TakeBytes, DecodeWord, DecodeFixed, DecodeLen, DecodeFlag, DecodeList;
      match shape {
        case Word =>
          var n :- ReadWord();
          return Done(Number(n));
        case Long =>
          var long :- ReadBytes(8);
          return Done(Number(FromBigEndian(long)));
        case Flag =>
          var b :- ReadFlag();
          return Done(Boolean(b));
        case Fixed(len) =>
          var data :- ReadFixed(len);
          return Done(Blob(data));
        case Opaque(max) =>
          var len :- ReadLen(max);
          var data :- ReadFixed(len);
          return Done(Blob(data));
        case List(item, limit) =>
          var items :- ReadArray(item, limit);
          return Done(Items(items));
        case Optional(some) =>
          var b :- ReadFlag();
          if !b {
            return Done(Missing);
          }
          var x :- Read(some);
          return Done(Present(x));
        case Pair(a, b) =>
          var x :- Read(a);
          var y :- Read(b);
          return Done(Both(x, y));
      }
    }

    method ReadArray(item: Shape, max: nat) returns (r: Outcome<seq<Datum>>)
      requires Valid()
      modifies `position
      ensures Valid() && (r.Failed? ==> DecodeList(item, max, input, old(position)) == Failed(r.error))
      ensures r.Done? ==> DecodeList(item, max, input, old(position)) == Done((r.value, position))
      decreases item, 2
    {
      hide Decode, DecodeAll, DecodeLen;
      var len :- ReadLen(max);
      var items, start := [], position;
      NoItems(item, input, start);
      for i := 0 to len
        invariant Valid() && start <= |input| && DecodeAll(item, input, start, i) == Done((items, position))
      {
        var x := Read(item);
        DecodeStep(item, input, start, i);
        if x.Failed? {
          FailureSpreads(item, input, start, i + 1, len);
          return Failed(x.error);
        }
        items := items + [x.value];
      }
      return Done(items);
    }
  }

  lemma {:induction false} FailureSpreads(item: Shape, input: bytes, pos: nat, i: nat, count: nat)
    requires pos <= |input| && i <= count && DecodeAll(item, input, pos, i).Failed?
    ensures DecodeAll(item, input, pos, count) == DecodeAll(item, input, pos, i)
    decreases count
  {
    hide Decode;
    if i < count {
      FailureSpreads(item, input, pos, i, count - 1);
    }
  }

  method ToBytes(shape: Shape, v: Datum) returns (r: Outcome<bytes>)
    requires Typed(shape, v)
    ensures r.Done? <==> Fits(shape, v)
    ensures r.Done? ==> r.value == Encoding(shape, v)
  {
    var encoder := new Encoder();
    var _ :- encoder.Write(shape, v);
    assert [] + Encoding(shape, v) == Encoding(shape, v);
    return Done(encoder.buffer);
  }

  /** A whole message: nothing may be left over. It reads back every value that was written. */
  method FromBytes(shape: Shape, input: bytes) returns (r: Outcome<Datum>)
    ensures r.Done? <==> Decode(shape, input, 0).Done? && Decode(shape, input, 0).value.1 == |input|
    ensures r.Done? ==> r.value == Decode(shape, input, 0).value.0
    ensures forall v :: Typed(shape, v) && Fits(shape, v) && input == Encoding(shape, v) ==> r == Done(v)
  {
    hide Decode, Encoding;
    forall v | Typed(shape, v) && Fits(shape, v) && input == Encoding(shape, v)
      ensures Decode(shape, input, 0) == Done((v, |input|))
    {
      RoundTrip(shape, v, input, 0);
    }
    var decoder := new Decoder(input);
    var v :- decoder.Read(shape);
    if decoder.position != |input| {
      return Failed(TrailingBytes(|input| - decoder.position));
    }
    return Done(v);
  }
}
