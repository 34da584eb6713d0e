/**
  One packet and what a receiver makes of it: the kernel's truncation rules followed by
  decoding, as one function of the packet. The imperative receive path is proved against
  it, and the protocol models use it for every packet they receive.
*/
module Packets {
  import opened Wrappers
  import opened Wire
  import opened Ancillary

  /** Kernel objects a descriptor can refer to. */
  datatype Obj =
    | Pty(n: nat)                              // a PTY master made by the session starter
    | PtySocket(conn: nat)                     // our end of a connection to a pty process
    | Foreign(n: nat, seqPacket: bool)         // anything a peer may pass

  datatype Packet<H> = Packet(data: seq<Byte>, handles: seq<H>)

  /** What a message type declares: `MAX_SIZE` and `MAX_FDS`. */
  datatype Limits = Limits(maxSize: nat, maxFds: nat)

  datatype ReceiveError =
    | Socket                               // recvmsg itself failed
    | End
    | TooLarge
    | Deserialize(error: DecodeError)
    | AncillaryTruncated(maxFds: nat, bytesCap: nat)
    | TooManyFds(orig: nat, extra: nat)

  function Min(a: nat, b: nat): nat { if a < b then a else b }

  /** How many of `sent` descriptors the kernel installs: no more than the buffer has slots
      for, and no more than the receiving process may still open. */
  function Installed(l: Limits, sent: nat, room: nat): nat {
    Min(sent, Min(Slots(l.maxFds), room))
  }

  /** The data neither overflows the buffer nor is empty, so the receiver gets as far as
      taking ownership of the descriptors. */
  predicate Adopts(l: Limits, data: seq<Byte>) { 0 < |data| <= l.maxSize }

  /** A deserialized message, with the handles no leaf took out of `count`. */
  function Finish<H>(msg: Result<Value<H>, DecodeError>, unused: seq<H>, count: nat): Result<Value<H>, ReceiveError> {
    match msg
    case Failure(e) => Failure(Deserialize(e))
    case Success(v) => if unused == [] then Success(v) else Failure(TooManyFds(count, |unused|))
  }

  /** The result of a receive that read `data` and installed `got` out of `sent` descriptors. */
  function Outcome<H>(s: Schema, l: Limits, data: seq<Byte>, got: seq<H>, sent: nat): Result<Value<H>, ReceiveError> {
    if |data| > l.maxSize then Failure(TooLarge)
    else if data == [] then Failure(End)
    else if |got| < sent then Failure(AncillaryTruncated(l.maxFds, CmsgSpace(FD_SIZE * l.maxFds)))
    else
      var p := Decode(s, data, got);
      Finish(Whole(p), p.left, |got|)
  }

  function Receive<H>(s: Schema, l: Limits, p: Packet<H>, room: nat): Result<Value<H>, ReceiveError> {
    Outcome(s, l, p.data, p.handles[..Installed(l, |p.handles|, room)], |p.handles|)
  }

  /** The packet a sender makes of a value. */
  function Send<H>(v: Value<H>): Packet<H> { Packet(Encode(v), Handles(v)) }

  /** Exactly when, and with what, the bytes of a message arriving with some number of
      descriptors are accepted. `room` is how many descriptors the receiver may still open. */
  lemma ExactOutcome<H, K>(s: Schema, l: Limits, v: Value<H>, hs: seq<K>, room: nat)
    requires Conforms(s, v) && Adopts(l, Encode(v))
    ensures var k, f := |hs|, |Handles(v)|;
            Receive(s, l, Packet(Encode(v), hs), room)
            == if k > Min(Slots(l.maxFds), room) then Failure(AncillaryTruncated(l.maxFds, CmsgSpace(FD_SIZE * l.maxFds)))
               else if k < f then Failure(Deserialize(TooFewFds))
               else if k > f then Failure(TooManyFds(k, k - f))
               else Success(Rebind(v, hs))
  {
    var k, f := |hs|, |Handles(v)|;
    assert Encode(v) + [] == Encode(v);
    assert hs[..k] == hs;
    if k < f {
      TooFew(s, v, hs, []);
    } else {
      CutAppend(hs, f, []);
      RoundTrip(s, v, hs[..f], [], hs[f..]);
      if k == f { assert hs[..f] == hs; }
    }
  }

  /** A message sent whole and received with room to spare comes back as itself. */
  lemma SendReceive<H>(s: Schema, l: Limits, v: Value<H>, room: nat)
    requires Conforms(s, v) && Adopts(l, Encode(v))
    requires |Handles(v)| <= Slots(l.maxFds) && |Handles(v)| <= room
    ensures Receive(s, l, Send(v), room) == Success(v)
  {
    ExactOutcome(s, l, v, Handles(v), room);
    RebindSelf(v);
  }

  /** Conversely, an accepted packet holds the accepted value: its descriptors are all of the
      packet's, in order, and its bytes are the value's own whenever they are no longer. */
  lemma AcceptedIsMessage<H>(s: Schema, l: Limits, p: Packet<H>, room: nat)
    requires Receive(s, l, p, room).Success?
    ensures var v := Receive(s, l, p, room).value;
            && Conforms(s, v)
            && Handles(v) == p.handles
            && |Encode(v)| <= |p.data|
            && (|Encode(v)| == |p.data| <==> p.data == Encode(v))
  {
    var v := Receive(s, l, p, room).value;
    assert p.handles[..|p.handles|] == p.handles;
    DecodeAccounts(s, p.data, p.handles);
    assert Handles(v) + [] == Handles(v);
    assert Encode(v) + [] == Encode(v);
  }

  /** With a size limit configured the serializer visits the value twice and so gathers its
      descriptors twice; the receiver then accepts exactly the messages that carry none. */
  lemma DoubleVisitRefused<H, K>(s: Schema, l: Limits, v: Value<H>, hs: seq<K>, room: nat)
    requires Conforms(s, v) && |hs| == 2 * |Handles(v)|
    ensures Receive(s, l, Packet(Encode(v), hs), room).Success? <==> Adopts(l, Encode(v)) && Handles(v) == []
  {
    if Adopts(l, Encode(v)) {
      ExactOutcome(s, l, v, hs, room);
    }
  }

  /** Receiving commutes with renaming handles: what happens at the level of descriptor
      numbers is what happens at the level of the objects they refer to. */
  lemma OutcomeParametric<H, K>(f: H -> K, s: Schema, l: Limits, data: seq<Byte>, got: seq<H>, sent: nat)
    ensures Outcome(s, l, data, MapSeq(f, got), sent)
            == match Outcome(s, l, data, got, sent)
               case Success(v) => Success(MapValue(f, v))
               case Failure(e) => Failure(e)
  {
    DecodeParametric(f, s, data, got);
  }
}
