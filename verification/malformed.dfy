/**
  The bytes themselves: how numbers are laid out, and which input is refused and why.
*/
module Malformed {
  import opened Wrappers
  import opened Wire
  import opened Ancillary
  import opened Packets

  // ---------------------------------------------------------------- numbers

  lemma DivDiv(n: nat, m: nat)
    requires m > 0
    ensures n / 256 / m == n / (256 * m)
  {
    var q, r := n / 256, n % 256;
    var q2, r2 := q / m, q % m;
    assert n == 256 * q + r && q == m * q2 + r2;
    assert 256 * (m * q2) == (256 * m) * q2;
    assert n == (256 * m) * q2 + (256 * r2 + r);
    assert 256 * r2 + r < 256 * m;
    Quotient(n, 256 * m, q2, 256 * r2 + r);
  }

  lemma Quotient(n: nat, d: nat, q: nat, r: nat)
    requires d > 0 && n == d * q + r && r < d
    ensures n / d == q
  {
    var p, t := n / d, n % d;
    assert n == d * p + t && t < d;
    if p > q { MulStep(d, q, p); }
    if q > p { MulStep(d, p, q); }
  }

  lemma {:induction false} MulStep(d: nat, q: nat, p: nat)
    requires q < p
    ensures d * p >= d * q + d
    decreases p
  {
    if q + 1 < p {
      MulStep(d, q, p - 1);
      assert d * p == d * (p - 1) + d;
    } else {
      assert d * (q + 1) == d * q + d;
    }
  }

  /** The least significant byte comes first. */
  lemma {:induction false} ToLeAt(n: nat, k: nat, i: nat)
    requires i < k
    ensures ToLe(n, k)[i] == n / Pow256(i) % 256
  {
    if i > 0 {
      ToLeAt(n / 256, k - 1, i - 1);
      DivDiv(n, Pow256(i - 1));
    }
  }

  /** A number is one byte below 251; otherwise 251, 252 or 253 and its 2, 4 or 8 bytes, least
      significant first. */
  lemma NumberLayout(n: nat)
    requires n < U64
    ensures var b := EncodeVarint(n);
            && |b| == (if n < 251 then 1 else if n < 0x1_0000 then 3 else if n < 0x1_0000_0000 then 5 else 9)
            && b[0] == (if n < 251 then n else if n < 0x1_0000 then 251 else if n < 0x1_0000_0000 then 252 else 253)
            && forall i :: 1 <= i < |b| ==> b[i] == n / Pow256(i - 1) % 256
  {
    var b := EncodeVarint(n);
    forall i | 1 <= i < |b| ensures b[i] == n / Pow256(i - 1) % 256 { ToLeAt(n, |b| - 1, i - 1); }
  }

  // ---------------------------------------------------------------- too short

  lemma ShortNumber(n: nat, b: seq<Byte>)
    requires n < U64 && b < EncodeVarint(n)
    ensures DecodeVarint(b) == NoNumber(Eof)
  {
    if b != [] { assert b[0] == EncodeVarint(n)[0]; }
  }

  /** A proper prefix of `x + y` is one of `x`, or `x` with a proper prefix of `y`. */
  lemma PrefixOfBoth<T>(b: seq<T>, x: seq<T>, y: seq<T>)
    requires b < x + y
    ensures b < x || (x <= b && b == x + b[|x|..] && b[|x|..] < y)
  {
    if |b| < |x| {
      assert b == (x + y)[..|b|] == x[..|b|];
    } else {
      assert x == (x + y)[..|x|] == b[..|x|];
      assert b[|x|..] == (x + y)[|x|..|b|] == y[..|b| - |x|];
    }
  }

  ghost predicate IsShort<H>(p: Parsed<Value<H>, H>) { p.Rejected? && p.error == Eof }

  /** No message is the beginning of another: whatever a sender's bytes are cut to, with the
      descriptors all there, is refused as too short. */
  lemma {:induction false} CutShort<H, K>(s: Schema, v: Value<H>, b: seq<Byte>, hs: seq<K>)
    requires Conforms(s, v) && b < Encode(v) && |hs| >= |Handles(v)|
    ensures IsShort(Decode(s, b, hs))
    decreases v, 1
  {
    match s
    case ListOf(e) =>
      PrefixOfBoth(b, EncodeVarint(|v.items|), EncodeAll(v.items));
      if b < EncodeVarint(|v.items|) {
        ShortNumber(|v.items|, b);
      } else {
        var rest := b[|EncodeVarint(|v.items|)|..];
        VarintRoundTrip(|v.items|, rest);
        ListCutShort(e, v.items, [], rest, hs);
      }
    case OptionOf(e) => if b != [] { OptionCutShort(e, v, b, hs); }
    case Enum(vs) =>
      PrefixOfBoth(b, EncodeVarint(v.index), Encode(v.payload));
      if b < EncodeVarint(v.index) {
        ShortNumber(v.index, b);
      } else {
        var rest := b[|EncodeVarint(v.index)|..];
        VarintRoundTrip(v.index, rest);
        CutShort(vs[v.index], v.payload, rest, hs);
      }
    case Pair(a, c) => PairCutShort(a, c, v, b, hs);
    case Bytes =>
      PrefixOfBoth(b, EncodeVarint(|v.bytes|), v.bytes);
      if b < EncodeVarint(|v.bytes|) {
        ShortNumber(|v.bytes|, b);
      } else {
        VarintRoundTrip(|v.bytes|, b[|EncodeVarint(|v.bytes|)|..]);
      }
    case _ =>
  }

  lemma {:induction false} OptionCutShort<H, K>(e: Schema, v: Value<H>, b: seq<Byte>, hs: seq<K>)
    requires Conforms(OptionOf(e), v) && [] < b < Encode(v) && |hs| >= |Handles(v)|
    ensures IsShort(Decode(OptionOf(e), b, hs))
    decreases v, 0
  {
    assert v.VSome?;
    PrefixOfBoth(b, [1], Encode(v.inner));
    assert b[0] == 1;
    CutShort(e, v.inner, b[1..], hs);
  }

  lemma {:induction false} PairCutShort<H, K>(a: Schema, c: Schema, v: Value<H>, b: seq<Byte>, hs: seq<K>)
    requires Conforms(Pair(a, c), v) && b < Encode(v) && |hs| >= |Handles(v)|
    ensures IsShort(Decode(Pair(a, c), b, hs))
    decreases v, 0
  {
    PrefixOfBoth(b, Encode(v.first), Encode(v.second));
    if b < Encode(v.first) {
      CutShort(a, v.first, b, hs);
    } else {
      var k, rest := |Handles(v.first)|, b[|Encode(v.first)|..];
      CutAppend(hs, k, []);
      RoundTrip(a, v.first, hs[..k], rest, hs[k..]);
      CutShort(c, v.second, rest, hs[k..]);
    }
  }

  lemma {:induction false} ListCutShort<H, K>(e: Schema, vs: seq<Value<H>>, done: seq<Value<K>>, b: seq<Byte>, hs: seq<K>)
    requires forall i :: 0 <= i < |vs| ==> Conforms(e, vs[i])
    requires b < EncodeAll(vs) && |hs| >= |HandlesAll(vs)|
    ensures IsShort(DecodeList(e, |vs|, done, b, hs))
    decreases vs, 0
  {
    PrefixOfBoth(b, Encode(vs[0]), EncodeAll(vs[1..]));
    if b < Encode(vs[0]) {
      CutShort(e, vs[0], b, hs);
    } else {
      var k, rest := |Handles(vs[0])|, b[|Encode(vs[0])|..];
      CutAppend(hs, k, []);
      RoundTrip(e, vs[0], hs[..k], rest, hs[k..]);
      ListCutShort(e, vs[1..], done + [Rebind(vs[0], hs[..k])], rest, hs[k..]);
    }
  }

  // ---------------------------------------------------------------- whole packets

  /** A packet with the right descriptors whose bytes were cut, and are not all gone, is refused as
      too short. */
  lemma CutPacketRefused<H>(s: Schema, l: Limits, v: Value<H>, b: seq<Byte>, room: nat)
    requires Conforms(s, v) && Adopts(l, b) && b < Encode(v)
    requires |Handles(v)| <= Slots(l.maxFds) && |Handles(v)| <= room
    ensures Receive(s, l, Packet(b, Handles(v)), room) == Failure(Deserialize(Eof))
  {
    assert Handles(v)[..|Handles(v)|] == Handles(v);
    CutShort(s, v, b, Handles(v));
  }

  /** One with bytes left over is refused, however good its beginning. */
  lemma LongPacketRefused<H>(s: Schema, l: Limits, v: Value<H>, more: seq<Byte>, room: nat)
    requires Conforms(s, v) && more != [] && Adopts(l, Encode(v) + more)
    requires |Handles(v)| <= Slots(l.maxFds) && |Handles(v)| <= room
    ensures Receive(s, l, Packet(Encode(v) + more, Handles(v)), room) == Failure(Deserialize(TrailingBytes))
  {
    assert Handles(v)[..|Handles(v)|] == Handles(v);
    RoundTrip(s, v, Handles(v), more, []);
    assert Handles(v) + [] == Handles(v);
  }

  /** A packet of more bytes than the limit is `TooLarge` and one of none is `End`, whatever else it
      has and whatever is expected. */
  lemma SizeRefused<H>(s: Schema, l: Limits, p: Packet<H>, room: nat)
    ensures Receive(s, l, p, room) == Failure(TooLarge) <==> |p.data| > l.maxSize
    ensures Receive(s, l, p, room) == Failure(End) <==> p.data == []
  {
  }

  /** Marks that stand for nothing: an option that is neither absent nor present, a variant there
      is not, a number of 128 bits or of a reserved width. */
  lemma MarksRefused<H>(e: Schema, vs: seq<Schema>, mark: Byte, rest: seq<Byte>, hs: seq<H>)
    ensures mark > 1 ==> Decode(OptionOf(e), [mark] + rest, hs) == Rejected(BadTag, hs)
    ensures |vs| <= mark < 251 ==> Decode(Enum(vs), [mark] + rest, hs) == Rejected(BadVariant, hs)
    ensures mark > 253 ==> Decode(Bytes, [mark] + rest, hs) == Rejected(BadVarint, hs)
  {
  }
}
