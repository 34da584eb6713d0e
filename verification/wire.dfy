/**
  The wire format of one IPC message: bincode 1.3 `DefaultOptions` (little endian,
  variable-length integers, trailing bytes rejected), with file descriptors carried
  out of band. A descriptor leaf takes no bytes; the descriptors travel as a list in
  the order in which the serializer visits them.

  Everything is generic in the handle type `H`: the sender's descriptor numbers, the
  kernel objects inside a packet and the receiver's descriptor numbers are all handles.
*/
module Wire {
  import opened Wrappers

  type Byte = n: nat | n < 256

  const U16: nat := 0x1_0000
  const U32: nat := 0x1_0000_0000
  const U64: nat := 0x1_0000_0000_0000_0000

  // ---------------------------------------------------------------- shapes

  /** A struct is its fields nested to the right: `Pair(f0, Pair(f1, Unit))`. */
  datatype Schema =
    | U8
    | Raw(len: nat)                      // [u8; len]
    | Bytes                              // Vec<u8>, String
    | ListOf(elem: Schema)
    | OptionOf(inner: Schema)
    | Enum(variants: seq<Schema>)
    | Unit
    | Pair(first: Schema, second: Schema)
    | FdLeaf                             // #[serde(with = "ipc::passfd")]

  datatype Value<H> =
    | VU8(n: Byte)
    | VRaw(raw: seq<Byte>)
    | VBytes(bytes: seq<Byte>)
    | VList(items: seq<Value<H>>)
    | VNone
    | VSome(inner: Value<H>)
    | VEnum(index: nat, payload: Value<H>)
    | VUnit
    | VPair(first: Value<H>, second: Value<H>)
    | VFd(handle: H)

  /** `v` is a value the Rust type described by `s` can hold. */
  ghost predicate Conforms<H>(s: Schema, v: Value<H>)
    decreases v
  {
    match s
    case U8 => v.VU8?
    case Raw(n) => v.VRaw? && |v.raw| == n
    case Bytes => v.VBytes? && |v.bytes| < U64
    case ListOf(e) => v.VList? && |v.items| < U64 && forall i :: 0 <= i < |v.items| ==> Conforms(e, v.items[i])
    case OptionOf(e) => v.VNone? || (v.VSome? && Conforms(e, v.inner))
    case Enum(vs) => v.VEnum? && v.index < |vs| && v.index < U32 && Conforms(vs[v.index], v.payload)
    case Unit => v.VUnit?
    case Pair(a, b) => v.VPair? && Conforms(a, v.first) && Conforms(b, v.second)
    case FdLeaf => v.VFd?
  }

  // ---------------------------------------------------------------- integers

  function Pow256(k: nat): (p: nat)
    ensures p > 0
  {
    if k == 0 then 1 else 256 * Pow256(k - 1)
  }

  function ToLe(n: nat, k: nat): (b: seq<Byte>)
    ensures |b| == k
  {
    if k == 0 then [] else [n % 256] + ToLe(n / 256, k - 1)
  }

  function FromLe(b: seq<Byte>): nat {
    if b == [] then 0 else b[0] + 256 * FromLe(b[1..])
  }

  lemma {:induction false} LeRoundTrip(n: nat, k: nat)
    requires n < Pow256(k)
    ensures FromLe(ToLe(n, k)) == n
  {
    if k > 0 {
      LeRoundTrip(n / 256, k - 1);
      assert ToLe(n, k)[1..] == ToLe(n / 256, k - 1);
    }
  }

  lemma {:induction false} LeCanonical(b: seq<Byte>)
    ensures FromLe(b) < Pow256(|b|)
    ensures ToLe(FromLe(b), |b|) == b
  {
    if b != [] {
      LeCanonical(b[1..]);
      assert FromLe(b) / 256 == FromLe(b[1..]);
      assert b == [b[0]] + b[1..];
    }
  }

  lemma WordSizes()
    ensures Pow256(2) == U16 && Pow256(4) == U32 && Pow256(8) == U64
  {
    assert Pow256(4) == 256 * 256 * Pow256(2);
    assert Pow256(6) == 256 * 256 * Pow256(4);
    assert Pow256(8) == 256 * 256 * Pow256(6);
  }

  /** One byte below 251, otherwise a marker and 2, 4 or 8 bytes. */
  function EncodeVarint(n: nat): (b: seq<Byte>)
    ensures 1 <= |b| <= 9
  {
    if n < 251 then [n]
    else if n < U16 then [251] + ToLe(n, 2)
    else if n < U32 then [252] + ToLe(n, 4)
    else [253] + ToLe(n, 8)
  }

  datatype DecodeError = Eof | BadVarint | BadTag | BadVariant | TooFewFds | TrailingBytes

  /** What a decoding step leaves: the value and the unread input, or an error and
      the handles that no value has taken. */
  datatype Parsed<T, H> =
    | Parsed(value: T, rest: seq<Byte>, left: seq<H>)
    | Rejected(error: DecodeError, left: seq<H>)

  datatype Number = Number(value: nat, rest: seq<Byte>) | NoNumber(error: DecodeError)

  /** Markers 254 (128-bit) and 255 (reserved) are refused. Longer-than-needed forms are accepted. */
  function DecodeVarint(b: seq<Byte>): Number {
    if b == [] then NoNumber(Eof)
    else if b[0] < 251 then Number(b[0], b[1..])
    else if b[0] >= 254 then NoNumber(BadVarint)
    else
      var k := if b[0] == 251 then 2 else if b[0] == 252 then 4 else 8;
      if |b| < 1 + k then NoNumber(Eof) else Number(FromLe(b[1..1 + k]), b[1 + k..])
  }

  lemma VarintRoundTrip(n: nat, rest: seq<Byte>)
    requires n < U64
    ensures DecodeVarint(EncodeVarint(n) + rest) == Number(n, rest)
  {
    WordSizes();
    if n >= 251 {
      var k := if n < U16 then 2 else if n < U32 then 4 else 8;
      LeRoundTrip(n, k);
      var b := EncodeVarint(n) + rest;
      assert b[1..1 + k] == ToLe(n, k);
      assert b[1 + k..] == rest;
    } else {
      assert ([n] + rest)[1..] == rest;
    }
  }

  /** A number read off the front is never shorter than its canonical form, and equal length means canonical. */
  lemma VarintShape(b: seq<Byte>)
    requires DecodeVarint(b).Number?
    ensures var d := DecodeVarint(b);
            && d.value < U64
            && |b| >= |d.rest| + |EncodeVarint(d.value)|
            && d.rest == b[|b| - |d.rest|..]
            && (|b| == |d.rest| + |EncodeVarint(d.value)| ==> b == EncodeVarint(d.value) + d.rest)
  {
    WordSizes();
    var d := DecodeVarint(b);
    if b[0] >= 251 {
      var k := if b[0] == 251 then 2 else if b[0] == 252 then 4 else 8;
      LeCanonical(b[1..1 + k]);
      assert b == [b[0]] + b[1..1 + k] + b[1 + k..];
    } else {
      assert b == [b[0]] + b[1..];
    }
  }

  // ---------------------------------------------------------------- serializing

  function Encode<H>(v: Value<H>): seq<Byte>
    decreases v, 1
  {
    match v
    case VU8(n) => [n]
    case VRaw(b) => b
    case VBytes(b) => EncodeVarint(|b|) + b
    case VList(items) => EncodeVarint(|items|) + EncodeAll(items)
    case VNone => [0]
    case VSome(x) => [1] + Encode(x)
    case VEnum(i, x) => EncodeVarint(i) + Encode(x)
    case VUnit => []
    case VPair(x, y) => Encode(x) + Encode(y)
    case VFd(_) => []
  }

  function EncodeAll<H>(vs: seq<Value<H>>): seq<Byte>
    decreases vs, 0
  {
    if vs == [] then [] else Encode(vs[0]) + EncodeAll(vs[1..])
  }

  /** The handles of a value, in the order the serializer visits them. */
  function Handles<H>(v: Value<H>): seq<H>
    decreases v, 1
  {
    match v
    case VList(items) => HandlesAll(items)
    case VSome(x) => Handles(x)
    case VEnum(_, x) => Handles(x)
    case VPair(x, y) => Handles(x) + Handles(y)
    case VFd(h) => [h]
    case _ => []
  }

  function HandlesAll<H>(vs: seq<Value<H>>): seq<H>
    decreases vs, 0
  {
    if vs == [] then [] else Handles(vs[0]) + HandlesAll(vs[1..])
  }

  // ---------------------------------------------------------------- deserializing

  /** The second half of a pair was read: put the first half in front. */
  function PairWith<H>(x: Value<H>, second: Parsed<Value<H>, H>): Parsed<Value<H>, H> {
    match second
    case Rejected(err, left) => Rejected(err, left)
    case Parsed(y, rest, left) => Parsed(VPair(x, y), rest, left)
  }

  /** A whole message was read: nothing may follow it. */
  function Whole<H>(p: Parsed<Value<H>, H>): Result<Value<H>, DecodeError> {
    match p
    case Rejected(e, _) => Failure(e)
    case Parsed(v, rest, _) => if rest == [] then Success(v) else Failure(TrailingBytes)
  }

  function Decode<H>(s: Schema, b: seq<Byte>, hs: seq<H>): Parsed<Value<H>, H>
    decreases s, 0
  {
    match s
    case U8 =>
      if b == [] then Rejected(Eof, hs) else Parsed(VU8(b[0]), b[1..], hs)
    case Raw(n) =>
      if |b| < n then Rejected(Eof, hs) else Parsed(VRaw(b[..n]), b[n..], hs)
    case Bytes =>
      (match DecodeVarint(b)
       case NoNumber(e) => Rejected(e, hs)
       case Number(n, rest) =>
         if |rest| < n then Rejected(Eof, hs) else Parsed(VBytes(rest[..n]), rest[n..], hs))
    case ListOf(e) =>
      (match DecodeVarint(b)
       case NoNumber(err) => Rejected(err, hs)
       case Number(n, rest) => DecodeList(e, n, [], rest, hs))
    case OptionOf(e) =>
      if b == [] then Rejected(Eof, hs)
      else if b[0] == 0 then Parsed(VNone, b[1..], hs)
      else if b[0] == 1 then
        (match Decode(e, b[1..], hs)
         case Rejected(err, left) => Rejected(err, left)
         case Parsed(x, rest, left) => Parsed(VSome(x), rest, left))
      else Rejected(BadTag, hs)
    case Enum(vs) =>
      (match DecodeVarint(b)
       case NoNumber(e) => Rejected(e, hs)
       case Number(i, rest) =>
         if i >= |vs| || i >= U32 then Rejected(BadVariant, hs)
         else match Decode(vs[i], rest, hs)
              case Rejected(err, left) => Rejected(err, left)
              case Parsed(x, rest', left) => Parsed(VEnum(i, x), rest', left))
    case Unit => Parsed(VUnit, b, hs)
    case Pair(a, c) =>
      (match Decode(a, b, hs)
       case Rejected(err, left) => Rejected(err, left)
       case Parsed(x, rest, left) => PairWith(x, Decode(c, rest, left)))
    case FdLeaf =>
      if hs == [] then Rejected(TooFewFds, hs) else Parsed(VFd(hs[0]), b, hs[1..])
  }

  /** `n` more elements after `done`. */
  function DecodeList<H>(e: Schema, n: nat, done: seq<Value<H>>, b: seq<Byte>, hs: seq<H>): Parsed<Value<H>, H>
    decreases e, n + 1
  {
    if n == 0 then Parsed(VList(done), b, hs)
    else match Decode(e, b, hs)
         case Rejected(err, left) => Rejected(err, left)
         case Parsed(x, rest, left) => DecodeList(e, n - 1, done + [x], rest, left)
  }

  // ---------------------------------------------------------------- rebinding handles

  /** `v` with its i-th visited handle replaced by `hs[i]`: what the receiver of `v` should hold. */
  function Rebind<H, K>(v: Value<H>, hs: seq<K>): Value<K>
    requires |hs| == |Handles(v)|
    decreases v, 1
  {
    match v
    case VU8(n) => VU8(n)
    case VRaw(b) => VRaw(b)
    case VBytes(b) => VBytes(b)
    case VList(items) => VList(RebindAll(items, hs))
    case VNone => VNone
    case VSome(x) => VSome(Rebind(x, hs))
    case VEnum(i, x) => VEnum(i, Rebind(x, hs))
    case VUnit => VUnit
    case VPair(x, y) => VPair(Rebind(x, hs[..|Handles(x)|]), Rebind(y, hs[|Handles(x)|..]))
    case VFd(_) => VFd(hs[0])
  }

  function RebindAll<H, K>(vs: seq<Value<H>>, hs: seq<K>): (r: seq<Value<K>>)
    requires |hs| == |HandlesAll(vs)|
    ensures |r| == |vs|
    decreases vs, 0
  {
    if vs == [] then []
    else
      var k := |Handles(vs[0])|;
      [Rebind(vs[0], hs[..k])] + RebindAll(vs[1..], hs[k..])
  }

  /** Rebinding puts exactly the given handles in place, in order, and leaves the bytes alone. */
  lemma {:induction false} RebindMeaning<H, K>(v: Value<H>, hs: seq<K>)
    requires |hs| == |Handles(v)|
    ensures Handles(Rebind(v, hs)) == hs
    ensures Encode(Rebind(v, hs)) == Encode(v)
    decreases v, 1
  {
    match v
    case VList(items) => RebindAllMeaning(items, hs);
    case VSome(x) => RebindMeaning(x, hs);
    case VEnum(_, x) => RebindMeaning(x, hs);
    case VPair(x, y) =>
      var k := |Handles(x)|;
      RebindMeaning(x, hs[..k]);
      RebindMeaning(y, hs[k..]);
      assert hs == hs[..k] + hs[k..];
    case VFd(_) => assert hs == [hs[0]];
    case _ =>
  }

  lemma {:induction false} RebindAllMeaning<H, K>(vs: seq<Value<H>>, hs: seq<K>)
    requires |hs| == |HandlesAll(vs)|
    ensures HandlesAll(RebindAll(vs, hs)) == hs
    ensures EncodeAll(RebindAll(vs, hs)) == EncodeAll(vs)
    decreases vs, 0
  {
    if vs != [] {
      var k := |Handles(vs[0])|;
      RebindMeaning(vs[0], hs[..k]);
      RebindAllMeaning(vs[1..], hs[k..]);
      var r := RebindAll(vs, hs);
      assert r[0] == Rebind(vs[0], hs[..k]) && r[1..] == RebindAll(vs[1..], hs[k..]);
      assert hs == hs[..k] + hs[k..];
    }
  }

  lemma {:induction false} RebindSelf<H>(v: Value<H>)
    ensures Rebind(v, Handles(v)) == v
    decreases v, 1
  {
    match v
    case VList(items) => RebindAllSelf(items);
    case VSome(x) => RebindSelf(x);
    case VEnum(_, x) => RebindSelf(x);
    case VPair(x, y) =>
      RebindSelf(x);
      RebindSelf(y);
      assert Handles(v)[..|Handles(x)|] == Handles(x);
      assert Handles(v)[|Handles(x)|..] == Handles(y);
    case _ =>
  }

  lemma {:induction false} RebindAllSelf<H>(vs: seq<Value<H>>)
    ensures RebindAll(vs, HandlesAll(vs)) == vs
    decreases vs, 0
  {
    if vs != [] {
      RebindSelf(vs[0]);
      RebindAllSelf(vs[1..]);
      assert HandlesAll(vs)[..|Handles(vs[0])|] == Handles(vs[0]);
      assert HandlesAll(vs)[|Handles(vs[0])|..] == HandlesAll(vs[1..]);
    }
  }

  // ---------------------------------------------------------------- main results

  lemma Assoc<T>(a: seq<T>, b: seq<T>, c: seq<T>)
    ensures (a + b) + c == a + (b + c)
  {
  }

  lemma CutAppend<T>(a: seq<T>, k: nat, more: seq<T>)
    requires k <= |a|
    ensures a == a[..k] + a[k..]
    ensures a + more == a[..k] + (a[k..] + more)
  {
  }

  /** Decoding the bytes of any value, followed by anything, with at least its number of
      handles: the i-th leaf gets the i-th handle and exactly its own input is consumed. */
  lemma {:induction false} RoundTrip<H, K>(s: Schema, v: Value<H>, hs: seq<K>, moreBytes: seq<Byte>, moreHandles: seq<K>)
    requires Conforms(s, v)
    requires |hs| == |Handles(v)|
    ensures Decode(s, Encode(v) + moreBytes, hs + moreHandles) == Parsed(Rebind(v, hs), moreBytes, moreHandles)
    decreases v, 1
  {
    var b, all := Encode(v) + moreBytes, hs + moreHandles;
    match s
    case ListOf(e) =>
      Assoc(EncodeVarint(|v.items|), EncodeAll(v.items), moreBytes);
      VarintRoundTrip(|v.items|, EncodeAll(v.items) + moreBytes);
      ListRoundTrip(e, v.items, [], hs, moreBytes, moreHandles);
      assert [] + RebindAll(v.items, hs) == RebindAll(v.items, hs);
    case OptionOf(e) =>
      if v.VSome? {
        assert b[1..] == Encode(v.inner) + moreBytes;
        RoundTrip(e, v.inner, hs, moreBytes, moreHandles);
      } else {
        assert b[1..] == moreBytes && all == moreHandles;
      }
    case Enum(vs) =>
      Assoc(EncodeVarint(v.index), Encode(v.payload), moreBytes);
      VarintRoundTrip(v.index, Encode(v.payload) + moreBytes);
      RoundTrip(vs[v.index], v.payload, hs, moreBytes, moreHandles);
    case Pair(a, c) =>
      var k := |Handles(v.first)|;
      Assoc(Encode(v.first), Encode(v.second), moreBytes);
      CutAppend(hs, k, moreHandles);
      RoundTrip(a, v.first, hs[..k], Encode(v.second) + moreBytes, hs[k..] + moreHandles);
      RoundTrip(c, v.second, hs[k..], moreBytes, moreHandles);
    case _ => LeafRoundTrip(s, v, hs, moreBytes, moreHandles);
  }

  lemma LeafRoundTrip<H, K>(s: Schema, v: Value<H>, hs: seq<K>, moreBytes: seq<Byte>, moreHandles: seq<K>)
    requires s.U8? || s.Raw? || s.Bytes? || s.Unit? || s.FdLeaf?
    requires Conforms(s, v) && |hs| == |Handles(v)|
    ensures Decode(s, Encode(v) + moreBytes, hs + moreHandles) == Parsed(Rebind(v, hs), moreBytes, moreHandles)
  {
    var b, all := Encode(v) + moreBytes, hs + moreHandles;
    if s.FdLeaf? {
      assert b == moreBytes && all[1..] == moreHandles;
    } else {
      assert all == moreHandles;
      match s
      case U8 => assert b[1..] == moreBytes;
      case Raw(n) => assert b[..n] == v.raw && b[n..] == moreBytes;
      case Bytes =>
        var after := v.bytes + moreBytes;
        Assoc(EncodeVarint(|v.bytes|), v.bytes, moreBytes);
        VarintRoundTrip(|v.bytes|, after);
        assert after[..|v.bytes|] == v.bytes && after[|v.bytes|..] == moreBytes;
      case Unit => assert b == moreBytes;
    }
  }

  lemma {:induction false} ListRoundTrip<H, K>(e: Schema, vs: seq<Value<H>>, done: seq<Value<K>>, hs: seq<K>, moreBytes: seq<Byte>, moreHandles: seq<K>)
    requires forall i :: 0 <= i < |vs| ==> Conforms(e, vs[i])
    requires |hs| == |HandlesAll(vs)|
    ensures DecodeList(e, |vs|, done, EncodeAll(vs) + moreBytes, hs + moreHandles)
            == Parsed(VList(done + RebindAll(vs, hs)), moreBytes, moreHandles)
    decreases vs, 0
  {
    if vs == [] {
      assert EncodeAll(vs) + moreBytes == moreBytes && hs + moreHandles == moreHandles;
      assert done + RebindAll(vs, hs) == done;
    } else {
      var k := |Handles(vs[0])|;
      var x := Rebind(vs[0], hs[..k]);
      var b', all' := EncodeAll(vs[1..]) + moreBytes, hs[k..] + moreHandles;
      assert DecodeList(e, |vs|, done, EncodeAll(vs) + moreBytes, hs + moreHandles)
          == DecodeList(e, |vs| - 1, done + [x], b', all') by {
        Assoc(Encode(vs[0]), EncodeAll(vs[1..]), moreBytes);
        CutAppend(hs, k, moreHandles);
        RoundTrip(e, vs[0], hs[..k], b', all');
      }
      ListRoundTrip(e, vs[1..], done + [x], hs[k..], moreBytes, moreHandles);
      Assoc(done, [x], RebindAll(vs[1..], hs[k..]));
    }
  }

  /** The bytes of a value with more leaves than there are handles: every handle is taken,
      and decoding stops with "too few FDs". */
  lemma {:induction false} TooFew<H, K>(s: Schema, v: Value<H>, hs: seq<K>, moreBytes: seq<Byte>)
    requires Conforms(s, v)
    requires |hs| < |Handles(v)|
    ensures Decode(s, Encode(v) + moreBytes, hs) == Rejected(TooFewFds, [])
    decreases v, 1
  {
    var b := Encode(v) + moreBytes;
    match s
    case ListOf(e) =>
      Assoc(EncodeVarint(|v.items|), EncodeAll(v.items), moreBytes);
      VarintRoundTrip(|v.items|, EncodeAll(v.items) + moreBytes);
      ListTooFew(e, v.items, [], hs, moreBytes);
    case OptionOf(e) =>
      assert b[1..] == Encode(v.inner) + moreBytes;
      TooFew(e, v.inner, hs, moreBytes);
    case Enum(vs) =>
      Assoc(EncodeVarint(v.index), Encode(v.payload), moreBytes);
      VarintRoundTrip(v.index, Encode(v.payload) + moreBytes);
      TooFew(vs[v.index], v.payload, hs, moreBytes);
    case Pair(a, c) =>
      var k := |Handles(v.first)|;
      Assoc(Encode(v.first), Encode(v.second), moreBytes);
      if |hs| < k {
        TooFew(a, v.first, hs, Encode(v.second) + moreBytes);
      } else {
        assert hs == hs[..k] + hs[k..];
        RoundTrip(a, v.first, hs[..k], Encode(v.second) + moreBytes, hs[k..]);
        TooFew(c, v.second, hs[k..], moreBytes);
      }
    case FdLeaf =>
    case _ =>
  }

  lemma {:induction false} ListTooFew<H, K>(e: Schema, vs: seq<Value<H>>, done: seq<Value<K>>, hs: seq<K>, moreBytes: seq<Byte>)
    requires forall i :: 0 <= i < |vs| ==> Conforms(e, vs[i])
    requires |hs| < |HandlesAll(vs)|
    ensures DecodeList(e, |vs|, done, EncodeAll(vs) + moreBytes, hs) == Rejected(TooFewFds, [])
    decreases vs, 0
  {
    var k := |Handles(vs[0])|;
    var b, b' := EncodeAll(vs) + moreBytes, EncodeAll(vs[1..]) + moreBytes;
    Assoc(Encode(vs[0]), EncodeAll(vs[1..]), moreBytes);
    if |hs| < k {
      TooFew(e, vs[0], hs, b');
    } else {
      var x := Rebind(vs[0], hs[..k]);
      assert hs == hs[..k] + hs[k..];
      RoundTrip(e, vs[0], hs[..k], b', hs[k..]);
      assert DecodeList(e, |vs|, done, b, hs) == DecodeList(e, |vs| - 1, done + [x], b', hs[k..]);
      ListTooFew(e, vs[1..], done + [x], hs[k..], moreBytes);
    }
  }

  /** Reading `b` and `hs` produced something with encoding `enc` and handles `taken`, leaving
      `rest` and `left`: exactly the handles off the front are in it, and it took at least as
      many bytes as its own encoding, equally many only when they are that encoding. */
  ghost predicate Took<H>(enc: seq<Byte>, taken: seq<H>, rest: seq<Byte>, left: seq<H>, b: seq<Byte>, hs: seq<H>) {
    && hs == taken + left
    && |rest| + |enc| <= |b|
    && rest == b[|b| - |rest|..]
    && (|rest| + |enc| == |b| ==> b == enc + rest)
  }

  ghost predicate IsSuffix<H>(left: seq<H>, hs: seq<H>) {
    |left| <= |hs| && left == hs[|hs| - |left|..]
  }

  lemma TookThen<H>(enc1: seq<Byte>, taken1: seq<H>, mid: seq<Byte>, midHandles: seq<H>,
                    enc2: seq<Byte>, taken2: seq<H>, rest: seq<Byte>, left: seq<H>, b: seq<Byte>, hs: seq<H>)
    requires Took(enc1, taken1, mid, midHandles, b, hs)
    requires Took(enc2, taken2, rest, left, mid, midHandles)
    ensures Took(enc1 + enc2, taken1 + taken2, rest, left, b, hs)
  {
    assert hs == (taken1 + taken2) + left;
    assert rest == b[|b| - |rest|..];
    if |rest| + |enc1 + enc2| == |b| {
      assert b == (enc1 + enc2) + rest;
    }
  }

  lemma LeftThen<H>(taken1: seq<H>, midHandles: seq<H>, left: seq<H>, hs: seq<H>)
    requires hs == taken1 + midHandles && IsSuffix(left, midHandles)
    ensures IsSuffix(left, hs)
  {
  }

  /** What any decoding of any input does with that input. */
  ghost predicate Accounts<H>(s: Schema, p: Parsed<Value<H>, H>, b: seq<Byte>, hs: seq<H>) {
    match p
    case Parsed(v, rest, left) => Conforms(s, v) && Took(Encode(v), Handles(v), rest, left, b, hs)
    case Rejected(_, left) => IsSuffix(left, hs)
  }

  /** Bytes that carry no handles, ahead of something that may. */
  lemma TookAfter<H>(head: seq<Byte>, mid: seq<Byte>, enc: seq<Byte>, taken: seq<H>, rest: seq<Byte>, left: seq<H>, b: seq<Byte>, hs: seq<H>)
    requires Took(head, [], mid, hs, b, hs)
    requires Took(enc, taken, rest, left, mid, hs)
    ensures Took(head + enc, taken, rest, left, b, hs)
  {
    TookThen(head, [], mid, hs, enc, taken, rest, left, b, hs);
    assert [] + taken == taken;
  }

  lemma TookFront<H>(b: seq<Byte>, k: nat, hs: seq<H>)
    requires k <= |b|
    ensures Took(b[..k], [], b[k..], hs, b, hs)
  {
    assert b == b[..k] + b[k..];
    assert hs == [] + hs;
  }

  lemma BytesAccounts<H>(b: seq<Byte>, hs: seq<H>)
    ensures Accounts(Bytes, Decode(Bytes, b, hs), b, hs)
  {
    var d := DecodeVarint(b);
    if d.Number? && |d.rest| >= d.value {
      NumberTook(b, hs);
      TookFront(d.rest, d.value, hs);
      TookAfter(EncodeVarint(d.value), d.rest, d.rest[..d.value], [], d.rest[d.value..], hs, b, hs);
    }
  }

  lemma LeafAccounts<H>(s: Schema, b: seq<Byte>, hs: seq<H>)
    requires s.U8? || s.Raw? || s.Unit? || s.FdLeaf?
    ensures Accounts(s, Decode(s, b, hs), b, hs)
  {
    match s
    case U8 => if b != [] { TookFront(b, 1, hs); assert b[..1] == [b[0]]; }
    case Raw(n) => if |b| >= n { TookFront(b, n, hs); }
    case Unit => TookFront(b, 0, hs);
    case FdLeaf =>
      if hs != [] {
        assert hs == [hs[0]] + hs[1..];
        assert b == [] + b;
      }
  }

  lemma {:induction false} DecodeAccounts<H>(s: Schema, b: seq<Byte>, hs: seq<H>)
    ensures Accounts(s, Decode(s, b, hs), b, hs)
    decreases s, 0
  {
    var p := Decode(s, b, hs);
    match s
    case ListOf(e) =>
      var d := DecodeVarint(b);
      if d.Number? {
        NumberTook(b, hs);
        var added := DecodeListAccounts(e, d.value, [], d.rest, hs);
        assert [] + added == added;
        if p.Parsed? {
          assert p.value.items == added;
          TookAfter(EncodeVarint(d.value), d.rest, EncodeAll(added), HandlesAll(added), p.rest, p.left, b, hs);
        }
      }
    case OptionOf(e) =>
      if b != [] {
        TookFront(b, 1, hs);
        assert b[..1] == [b[0]];
        DecodeAccounts(e, b[1..], hs);
        if b[0] == 1 && p.Parsed? {
          TookAfter([1], b[1..], Encode(p.value.inner), Handles(p.value), p.rest, p.left, b, hs);
        }
      }
    case Enum(vs) =>
      var d := DecodeVarint(b);
      if d.Number? && d.value < |vs| {
        NumberTook(b, hs);
        DecodeAccounts(vs[d.value], d.rest, hs);
        if p.Parsed? {
          TookAfter(EncodeVarint(d.value), d.rest, Encode(p.value.payload), Handles(p.value), p.rest, p.left, b, hs);
        }
      }
    case Pair(a, c) =>
      DecodeAccounts(a, b, hs);
      var x := Decode(a, b, hs);
      if x.Parsed? {
        DecodeAccounts(c, x.rest, x.left);
        PairAccounts(a, c, x, Decode(c, x.rest, x.left), b, hs);
      }
    case Bytes => BytesAccounts(b, hs);
    case _ => LeafAccounts(s, b, hs);
  }

  lemma PairAccounts<H>(a: Schema, c: Schema, x: Parsed<Value<H>, H>, second: Parsed<Value<H>, H>, b: seq<Byte>, hs: seq<H>)
    requires x.Parsed? && Accounts(a, x, b, hs) && Accounts(c, second, x.rest, x.left)
    ensures Accounts(Pair(a, c), PairWith(x.value, second), b, hs)
  {
    match second
    case Parsed(y, rest, left) =>
      TookThen(Encode(x.value), Handles(x.value), x.rest, x.left, Encode(y), Handles(y), rest, left, b, hs);
    case Rejected(_, left) =>
      LeftThen(Handles(x.value), x.left, left, hs);
  }

  lemma NumberTook<H>(b: seq<Byte>, hs: seq<H>)
    requires DecodeVarint(b).Number?
    ensures var d := DecodeVarint(b); d.value < U64 && Took(EncodeVarint(d.value), [], d.rest, hs, b, hs)
  {
    VarintShape(b);
    assert hs == [] + hs;
  }

  /** The elements `added` to `done`, with their accounting. */
  ghost predicate ListAccounts<H>(e: Schema, n: nat, done: seq<Value<H>>, added: seq<Value<H>>, p: Parsed<Value<H>, H>, b: seq<Byte>, hs: seq<H>) {
    match p
    case Parsed(v, rest, left) =>
      && v == VList(done + added) && |added| == n
      && (forall i :: 0 <= i < n ==> Conforms(e, added[i]))
      && Took(EncodeAll(added), HandlesAll(added), rest, left, b, hs)
    case Rejected(_, left) => IsSuffix(left, hs)
  }

  lemma ListAccountsStep<H>(e: Schema, n: nat, done: seq<Value<H>>, x: Parsed<Value<H>, H>, more: seq<Value<H>>, p: Parsed<Value<H>, H>, b: seq<Byte>, hs: seq<H>)
    requires x.Parsed? && Accounts(e, x, b, hs)
    requires ListAccounts(e, n, done + [x.value], more, p, x.rest, x.left)
    ensures ListAccounts(e, n + 1, done, [x.value] + more, p, b, hs)
  {
    var added := [x.value] + more;
    match p
    case Parsed(_, rest, left) =>
      assert added[1..] == more;
      Assoc(done, [x.value], more);
      TookThen(Encode(x.value), Handles(x.value), x.rest, x.left, EncodeAll(more), HandlesAll(more), rest, left, b, hs);
    case Rejected(_, left) =>
      LeftThen(Handles(x.value), x.left, left, hs);
  }

  lemma {:induction false} DecodeListAccounts<H>(e: Schema, n: nat, done: seq<Value<H>>, b: seq<Byte>, hs: seq<H>) returns (added: seq<Value<H>>)
    ensures ListAccounts(e, n, done, added, DecodeList(e, n, done, b, hs), b, hs)
    decreases e, n + 1
  {
    added := [];
    if n == 0 {
      assert done + [] == done;
      TookFront(b, 0, hs);
    } else {
      DecodeAccounts(e, b, hs);
      var x := Decode(e, b, hs);
      if x.Parsed? {
        var more := DecodeListAccounts(e, n - 1, done + [x.value], x.rest, x.left);
        ListAccountsStep(e, n - 1, done, x, more, DecodeList(e, n, done, b, hs), b, hs);
        added := [x.value] + more;
      }
    }
  }

  /** Nothing but descriptor and unit leaves. */
  predicate Weightless<H>(v: Value<H>)
    decreases v
  {
    match v
    case VUnit => true
    case VFd(_) => true
    case VPair(x, y) => Weightless(x) && Weightless(y)
    case VRaw(b) => b == []
    case _ => false
  }

  /** The values that cannot be told from the end of the stream. */
  lemma {:induction false} ZeroBytesIffWeightless<H>(v: Value<H>)
    ensures Encode(v) == [] <==> Weightless(v)
    decreases v
  {
    match v
    case VPair(x, y) =>
      ZeroBytesIffWeightless(x);
      ZeroBytesIffWeightless(y);
    case VBytes(b) => assert |EncodeVarint(|b|) + b| >= 1;
    case VList(items) => assert |EncodeVarint(|items|) + EncodeAll(items)| >= 1;
    case VEnum(i, x) => assert |EncodeVarint(i) + Encode(x)| >= 1;
    case _ =>
  }

  // ---------------------------------------------------------------- renaming handles

  function MapSeq<H, K>(f: H -> K, hs: seq<H>): (r: seq<K>)
    ensures |r| == |hs|
    ensures forall i :: 0 <= i < |hs| ==> r[i] == f(hs[i])
  {
    seq(|hs|, i requires 0 <= i < |hs| => f(hs[i]))
  }

  function MapValue<H, K>(f: H -> K, v: Value<H>): Value<K>
    decreases v, 1
  {
    match v
    case VU8(n) => VU8(n)
    case VRaw(b) => VRaw(b)
    case VBytes(b) => VBytes(b)
    case VList(items) => VList(MapAll(f, items))
    case VNone => VNone
    case VSome(x) => VSome(MapValue(f, x))
    case VEnum(i, x) => VEnum(i, MapValue(f, x))
    case VUnit => VUnit
    case VPair(x, y) => VPair(MapValue(f, x), MapValue(f, y))
    case VFd(h) => VFd(f(h))
  }

  function MapAll<H, K>(f: H -> K, vs: seq<Value<H>>): seq<Value<K>>
    decreases vs, 0
  {
    if vs == [] then [] else [MapValue(f, vs[0])] + MapAll(f, vs[1..])
  }

  function MapParsed<H, K>(f: H -> K, p: Parsed<Value<H>, H>): Parsed<Value<K>, K> {
    match p
    case Parsed(v, rest, left) => Parsed(MapValue(f, v), rest, MapSeq(f, left))
    case Rejected(e, left) => Rejected(e, MapSeq(f, left))
  }

  lemma {:induction false} MapAllSnoc<H, K>(f: H -> K, vs: seq<Value<H>>, x: Value<H>)
    ensures MapAll(f, vs + [x]) == MapAll(f, vs) + [MapValue(f, x)]
  {
    if vs == [] {
      assert vs + [x] == [x];
    } else {
      MapAllSnoc(f, vs[1..], x);
      assert (vs + [x])[1..] == vs[1..] + [x];
    }
  }

  /** Decoding treats handles as opaque: on renamed handles it takes the same branches and
      puts the renamed handles in the same leaves. */
  lemma {:induction false} DecodeParametric<H, K>(f: H -> K, s: Schema, b: seq<Byte>, hs: seq<H>)
    ensures Decode(s, b, MapSeq(f, hs)) == MapParsed(f, Decode(s, b, hs))
    decreases s, 1
  {
    match s
    case ListOf(e) =>
      var d := DecodeVarint(b);
      if d.Number? { ListParametric(f, e, d.value, [], d.rest, hs); }
    case OptionOf(e) =>
      if b != [] { DecodeParametric(f, e, b[1..], hs); }
    case Enum(vs) =>
      var d := DecodeVarint(b);
      if d.Number? && d.value < |vs| { DecodeParametric(f, vs[d.value], d.rest, hs); }
    case Pair(a, c) => PairParametric(f, a, c, b, hs);
    case _ => LeafParametric(f, s, b, hs);
  }

  lemma LeafParametric<H, K>(f: H -> K, s: Schema, b: seq<Byte>, hs: seq<H>)
    requires s.U8? || s.Raw? || s.Bytes? || s.Unit? || s.FdLeaf?
    ensures Decode(s, b, MapSeq(f, hs)) == MapParsed(f, Decode(s, b, hs))
  {
    if s.FdLeaf? && hs != [] { assert MapSeq(f, hs)[1..] == MapSeq(f, hs[1..]); }
  }

  lemma {:induction false} PairParametric<H, K>(f: H -> K, a: Schema, c: Schema, b: seq<Byte>, hs: seq<H>)
    ensures Decode(Pair(a, c), b, MapSeq(f, hs)) == MapParsed(f, Decode(Pair(a, c), b, hs))
    decreases Pair(a, c), 0
  {
    DecodeParametric(f, a, b, hs);
    var x := Decode(a, b, hs);
    if x.Parsed? { DecodeParametric(f, c, x.rest, x.left); }
  }

  lemma {:induction false} ListParametric<H, K>(f: H -> K, e: Schema, n: nat, done: seq<Value<H>>, b: seq<Byte>, hs: seq<H>)
    ensures DecodeList(e, n, MapAll(f, done), b, MapSeq(f, hs)) == MapParsed(f, DecodeList(e, n, done, b, hs))
    decreases e, n + 2
  {
    if n > 0 {
      DecodeParametric(f, e, b, hs);
      var x := Decode(e, b, hs);
      if x.Parsed? {
        MapAllSnoc(f, done, x.value);
        ListParametric(f, e, n - 1, done + [x.value], x.rest, x.left);
      }
    }
  }

  lemma {:induction false} MapHandles<H, K>(f: H -> K, v: Value<H>)
    ensures Handles(MapValue(f, v)) == MapSeq(f, Handles(v))
    ensures Encode(MapValue(f, v)) == Encode(v)
    decreases v, 1
  {
    match v
    case VList(items) => MapAllHandles(f, items);
    case VSome(x) => MapHandles(f, x);
    case VEnum(_, x) => MapHandles(f, x);
    case VPair(x, y) =>
      MapHandles(f, x);
      MapHandles(f, y);
    case _ =>
  }

  lemma {:induction false} MapAllHandles<H, K>(f: H -> K, vs: seq<Value<H>>)
    ensures HandlesAll(MapAll(f, vs)) == MapSeq(f, HandlesAll(vs))
    ensures EncodeAll(MapAll(f, vs)) == EncodeAll(vs)
    ensures |MapAll(f, vs)| == |vs|
    decreases vs, 0
  {
    if vs != [] {
      MapHandles(f, vs[0]);
      MapAllHandles(f, vs[1..]);
      var r := MapAll(f, vs);
      assert r[0] == MapValue(f, vs[0]) && r[1..] == MapAll(f, vs[1..]);
    }
  }

  lemma {:induction false} MapConforms<H, K>(f: H -> K, s: Schema, v: Value<H>)
    ensures Conforms(s, MapValue(f, v)) <==> Conforms(s, v)
    decreases v, 1
  {
    match s
    case ListOf(e) =>
      if v.VList? {
        MapAllHandles(f, v.items);
        forall i | 0 <= i < |v.items|
          ensures Conforms(e, MapAll(f, v.items)[i]) <==> Conforms(e, v.items[i])
        {
          MapAllAt(f, v.items, i);
          MapConforms(f, e, v.items[i]);
        }
      }
    case OptionOf(e) => if v.VSome? { MapConforms(f, e, v.inner); }
    case Enum(vs) => if v.VEnum? && v.index < |vs| { MapConforms(f, vs[v.index], v.payload); }
    case Pair(a, b) =>
      if v.VPair? {
        MapConforms(f, a, v.first);
        MapConforms(f, b, v.second);
      }
    case _ =>
  }

  lemma {:induction false} MapAllAt<H, K>(f: H -> K, vs: seq<Value<H>>, i: nat)
    requires i < |vs|
    ensures |MapAll(f, vs)| == |vs|
    ensures MapAll(f, vs)[i] == MapValue(f, vs[i])
  {
    MapAllHandles(f, vs);
    if i > 0 { MapAllAt(f, vs[1..], i - 1); }
  }
}
