/**
  When accepted bytes are the ones the sender of the accepted value would have produced:
  exactly if every variable-length integer in them is in its shortest form.
*/
module Canonical {
  import opened Wrappers
  import opened Wire
  import opened Packets

  /** The number at the front of `b` is written as short as its value allows. */
  predicate ShortVarint(b: seq<Byte>) {
    if b == [] then false
    else if b[0] < 251 then true
    else if b[0] == 251 then |b| >= 3 && FromLe(b[1..3]) >= 251
    else if b[0] == 252 then |b| >= 5 && FromLe(b[1..5]) >= U16
    else b[0] == 253 && |b| >= 9 && FromLe(b[1..9]) >= U32
  }

  /** All numbers are, that decoding `b` as an `s` meets. */
  predicate Shortest<H>(s: Schema, b: seq<Byte>, hs: seq<H>)
    decreases s, 0
  {
    match s
    case Bytes => ShortVarint(b)
    case ListOf(e) =>
      var d := DecodeVarint(b);
      ShortVarint(b) && (d.Number? ==> ShortestList(e, d.value, d.rest, hs))
    case OptionOf(e) => b != [] && b[0] == 1 ==> Shortest(e, b[1..], hs)
    case Enum(vs) =>
      var d := DecodeVarint(b);
      ShortVarint(b) && (d.Number? && d.value < |vs| ==> Shortest(vs[d.value], d.rest, hs))
    case Pair(a, c) =>
      var x := Decode(a, b, hs);
      Shortest(a, b, hs) && (x.Parsed? ==> Shortest(c, x.rest, x.left))
    case _ => true
  }

  predicate ShortestList<H>(e: Schema, n: nat, b: seq<Byte>, hs: seq<H>)
    decreases e, n + 1
  {
    n > 0 ==>
      var x := Decode(e, b, hs);
      Shortest(e, b, hs) && (x.Parsed? ==> ShortestList(e, n - 1, x.rest, x.left))
  }

  lemma ShortVarintIff(b: seq<Byte>)
    requires DecodeVarint(b).Number?
    ensures var d := DecodeVarint(b); ShortVarint(b) <==> |b| == |d.rest| + |EncodeVarint(d.value)|
  {
    WordSizes();
    var d := DecodeVarint(b);
    if b[0] >= 251 {
      var k := if b[0] == 251 then 2 else if b[0] == 252 then 4 else 8;
      LeCanonical(b[1..1 + k]);
      assert |EncodeVarint(d.value)| == if d.value < 251 then 1 else if d.value < U16 then 3 else if d.value < U32 then 5 else 9;
    }
  }

  /** A parsed value is as long as what was read exactly if that was in shortest form. */
  lemma {:induction false} ShortestIff<H>(s: Schema, b: seq<Byte>, hs: seq<H>)
    requires Decode(s, b, hs).Parsed?
    ensures var p := Decode(s, b, hs); Shortest(s, b, hs) <==> |b| == |p.rest| + |Encode(p.value)|
    decreases s, 1
  {
    var p := Decode(s, b, hs);
    match s
    case Bytes => ShortVarintIff(b);
    case ListOf(e) =>
      ShortVarintIff(b);
      VarintShape(b);
      var d := DecodeVarint(b);
      var added := ShortestListIff(e, d.value, [], d.rest, hs);
      assert [] + added == added;
    case OptionOf(e) => if b[0] == 1 { ShortestIff(e, b[1..], hs); }
    case Enum(vs) =>
      EnumShortestIff(vs, b, hs);
    case Pair(a, c) => PairShortestIff(a, c, b, hs);
    case _ =>
  }

  lemma {:induction false} EnumShortestIff<H>(vs: seq<Schema>, b: seq<Byte>, hs: seq<H>)
    requires Decode(Enum(vs), b, hs).Parsed?
    ensures var p := Decode(Enum(vs), b, hs); Shortest(Enum(vs), b, hs) <==> |b| == |p.rest| + |Encode(p.value)|
    decreases Enum(vs), 0
  {
    ShortVarintIff(b);
    VarintShape(b);
    var d := DecodeVarint(b);
    DecodeAccounts(vs[d.value], d.rest, hs);
    ShortestIff(vs[d.value], d.rest, hs);
  }

  lemma {:induction false} PairShortestIff<H>(a: Schema, c: Schema, b: seq<Byte>, hs: seq<H>)
    requires Decode(Pair(a, c), b, hs).Parsed?
    ensures var p := Decode(Pair(a, c), b, hs); Shortest(Pair(a, c), b, hs) <==> |b| == |p.rest| + |Encode(p.value)|
    decreases Pair(a, c), 0
  {
    var x := Decode(a, b, hs);
    DecodeAccounts(a, b, hs);
    DecodeAccounts(c, x.rest, x.left);
    ShortestIff(a, b, hs);
    ShortestIff(c, x.rest, x.left);
  }

  lemma {:induction false} ShortestListIff<H>(e: Schema, n: nat, done: seq<Value<H>>, b: seq<Byte>, hs: seq<H>) returns (added: seq<Value<H>>)
    requires DecodeList(e, n, done, b, hs).Parsed?
    ensures var p := DecodeList(e, n, done, b, hs);
            && p.value == VList(done + added) && |added| == n
            && |p.rest| + |EncodeAll(added)| <= |b|
            && (ShortestList(e, n, b, hs) <==> |b| == |p.rest| + |EncodeAll(added)|)
    decreases e, n + 2
  {
    added := [];
    if n == 0 {
      assert done + [] == done;
    } else {
      var x := Decode(e, b, hs);
      DecodeAccounts(e, b, hs);
      ShortestIff(e, b, hs);
      var more := ShortestListIff(e, n - 1, done + [x.value], x.rest, x.left);
      added := [x.value] + more;
      assert added[1..] == more;
      Assoc(done, [x.value], more);
    }
  }

  /** An accepted packet holds exactly the bytes its value encodes to if and only if all numbers
      in it are in shortest form. */
  lemma AcceptedCanonicalIff<H>(s: Schema, l: Limits, p: Packet<H>, room: nat)
    requires Receive(s, l, p, room).Success?
    ensures p.data == Encode(Receive(s, l, p, room).value) <==> Shortest(s, p.data, p.handles)
  {
    AcceptedIsMessage(s, l, p, room);
    assert p.handles[..|p.handles|] == p.handles;
    ShortestIff(s, p.data, p.handles);
  }

  /** What a sender produces is in shortest form. */
  lemma SentIsShortest<H>(s: Schema, v: Value<H>)
    requires Conforms(s, v)
    ensures Shortest(s, Encode(v), Handles(v))
  {
    RoundTrip(s, v, Handles(v), [], []);
    RebindSelf(v);
    assert Encode(v) + [] == Encode(v) && Handles(v) + [] == Handles(v);
    ShortestIff(s, Encode(v), Handles(v));
  }

  /** A longer-than-needed length is accepted: three bytes for the empty byte string, which is
      one byte when sent. */
  lemma NonCanonicalAccepted(l: Limits)
    requires l.maxSize >= 3
    ensures var p: Packet<nat> := Packet([251, 0, 0], []);
            && Receive(Bytes, l, p, 0) == Success(VBytes([]))
            && !Shortest(Bytes, p.data, p.handles) && p.data != Encode<nat>(VBytes([]))
  {
    var b: seq<Byte> := [251, 0, 0];
    assert b[1..3] == [0, 0] && b[3..] == [];
    assert FromLe([0, 0]) == 0 + 256 * FromLe([0]);
    assert DecodeVarint(b) == Number(0, []);
  }
}
