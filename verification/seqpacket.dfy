/**
  IPC over one end of a connected `SOCK_SEQPACKET` socket: the send and receive paths,
  with an account of every descriptor they touch.
*/
module SeqPackets {
  import opened Wrappers
  import opened Wire
  import opened Ancillary
  import opened Packets
  import opened PassFd

  datatype SendError = SocketSend

  /** The object a descriptor refers to (any object at all for a closed one). */
  function ObjOf(t: map<Fd, Obj>): Fd -> Obj {
    fd => if fd in t then t[fd] else Foreign(0, false)
  }

  /** What `recvmsg` delivers next: the oldest packet, or nothing at the end of the stream. */
  function Next(inbox: seq<Packet<Obj>>): Packet<Obj> {
    if inbox == [] then Packet([], []) else inbox[0]
  }

  /** What became of a packet and its descriptors, from the process's table and log `t0`, `c0`
      to `t1`, `c1`. */
  ghost predicate Received(t1: map<Fd, Obj>, c1: seq<Fd>, s: Schema, l: Limits, packet: Packet<Obj>, room: nat,
                           t0: map<Fd, Obj>, c0: seq<Fd>, r: Result<Value<Fd>, ReceiveError>, got: seq<Fd>)
  {
    // the kernel's part
    && |got| == Installed(l, |packet.handles|, room)
    && Distinct(got) && (forall fd :: fd in got ==> fd !in t0)
    // the result, in terms of descriptor numbers and of the objects they refer to
    && r == Outcome(s, l, packet.data, got, |packet.handles|)
    && Receive(s, l, packet, room) == (match r case Success(v) => Success(MapValue(ObjOf(t1), v)) case Failure(e) => Failure(e))
    // every installed descriptor is in the message, or was closed exactly once ...
    && (r.Success? ==> Handles(r.value) == got && t1 - Elements(got) == t0 && c1 == c0 && forall fd :: fd in got ==> fd in t1)
    && (r.Failure? && Adopts(l, packet.data) ==> t1 == t0 && multiset(c1) == multiset(c0) + multiset(got))
    // ... except after TooLarge and End, which leave it open with no owner
    && (!Adopts(l, packet.data) ==>
          && r.Failure? && (r.error == TooLarge || r.error == End)
          && c1 == c0 && t1 - Elements(got) == t0 && forall fd :: fd in got ==> fd in t1)
  }

  /** The kernel has delivered `packet`: install its descriptors, and make a message of it. */
  method TakePacket(p: Process, s: Schema, l: Limits, packet: Packet<Obj>, room: nat)
    returns (r: Result<Value<Fd>, ReceiveError>, ghost got: seq<Fd>)
    requires p.Quiet()
    modifies p
    ensures p.Quiet()
    ensures Received(p.table, p.closes, s, l, packet, room, old(p.table), old(p.closes), r, got)
  {
    var sent := |packet.handles|;
    var objs := packet.handles[..Installed(l, sent, room)];
    var fds := p.Install(objs);
    got := fds;
    assert MapSeq(ObjOf(p.table), fds) == objs;
    OutcomeParametric(ObjOf(p.table), s, l, packet.data, fds, sent);
    if |packet.data| > l.maxSize {
      r := Failure(TooLarge);
    } else if packet.data == [] {
      r := Failure(End);
    } else if |fds| < sent {
      // The descriptors are collected first, so that they are not leaked.
      p.DropAll(fds);
      r := Failure(AncillaryTruncated(l.maxFds, CmsgSpace(FD_SIZE * l.maxFds)));
    } else {
      r := Adopt(p, s, l, packet.data, fds);
    }
  }

  /** Deserialize with the installed descriptors: the message has all of them, or every one
      is closed. */
  method Adopt(p: Process, s: Schema, l: Limits, data: seq<Byte>, fds: seq<Fd>) returns (r: Result<Value<Fd>, ReceiveError>)
    requires p.Quiet() && p.Owns(fds) && Adopts(l, data)
    modifies p
    ensures p.Quiet()
    ensures r == Outcome(s, l, data, fds, |fds|)
    ensures r.Success? ==> Handles(r.value) == fds && p.table == old(p.table) && p.closes == old(p.closes)
    ensures r.Failure? ==> Closed(fds, old(p.table), old(p.closes), p.table, p.closes)
  {
    var msg, unused := p.ScatterFdsFromVecDeque(fds, s, data);
    r := Settle(p, fds, msg, unused, old(p.table), old(p.closes));
  }

  /** Hand the message over if it took every descriptor; otherwise drop whatever is still open. */
  method Settle(p: Process, fds: seq<Fd>, msg: Result<Value<Fd>, DecodeError>, unused: seq<Fd>, ghost t0: map<Fd, Obj>, ghost c0: seq<Fd>)
    returns (r: Result<Value<Fd>, ReceiveError>)
    requires IsSuffix(unused, fds)
    requires Distinct(fds) && forall x :: x in fds ==> x in t0
    requires msg.Success? ==> fds == Handles(msg.value) + unused && p.table == t0 && p.closes == c0
    requires msg.Failure? ==> Closed(Gone(fds, unused), t0, c0, p.table, p.closes)
    modifies p`table, p`closes
    ensures r == Finish(msg, unused, |fds|)
    ensures r.Success? ==> Handles(r.value) == fds && p.table == t0 && p.closes == c0
    ensures r.Failure? ==> Closed(fds, t0, c0, p.table, p.closes)
  {
    r := Finish(msg, unused, |fds|);
    if msg.Failure? {
      DropRest(p, fds, unused, t0, c0);
    } else if unused != [] {
      DropBoth(p, Handles(msg.value), unused);
    } else {
      assert Handles(msg.value) + [] == Handles(msg.value);
    }
  }

  method DropBoth(p: Process, owned: seq<Fd>, unused: seq<Fd>)
    requires p.Owns(owned + unused)
    modifies p`table, p`closes
    ensures Closed(owned + unused, old(p.table), old(p.closes), p.table, p.closes)
  {
    StillOwned(owned, unused, unused, p.table);
    p.DropAll(owned);
    assert Gone(owned + unused, unused) == owned;
    DropRest(p, owned + unused, unused, old(p.table), old(p.closes));
  }

  /** Drop the descriptors no leaf took, once the others are gone. */
  method DropRest(p: Process, ghost fds: seq<Fd>, unused: seq<Fd>, ghost t0: map<Fd, Obj>, ghost c0: seq<Fd>)
    requires IsSuffix(unused, fds)
    requires Distinct(fds) && forall x :: x in fds ==> x in t0
    requires Closed(Gone(fds, unused), t0, c0, p.table, p.closes)
    modifies p`table, p`closes
    ensures Closed(fds, t0, c0, p.table, p.closes)
  {
    GoneOwned(fds, unused, t0);
    ghost var t1, c1 := p.table, p.closes;
    p.DropAll(unused);
    ClosedThen(Gone(fds, unused), unused, t0, c0, t1, c1, p.table, p.closes);
  }

  class SeqPacket {
    var inbox: seq<Packet<Obj>>      // packets from the peer, oldest first
    var ended: bool                  // no more will come: peer gone or read side shut down
    var outbox: seq<Packet<Obj>>     // packets sent, oldest first

    /** `accepted` is the kernel's answer to `sendmsg`. The packet refers to the objects behind
        the message's descriptors; the sender keeps its own descriptors. A message whose
        descriptor list does not fit 32 bits of bytes would never get past sizing the buffer. */
    method SendWithFds(p: Process, v: Value<Fd>, accepted: bool) returns (r: Result<(), SendError>)
      requires p.Quiet()
      requires forall fd :: fd in Handles(v) ==> fd in p.table
      requires FD_SIZE * |Handles(v)| < U32
      modifies this`outbox, p`oobSer
      ensures p.Quiet()
      ensures r.Success? == accepted
      ensures outbox == if accepted then old(outbox) + [Send(MapValue(ObjOf(p.table), v))] else old(outbox)
    {
      var ok, encoded, fds := p.GatherFdsToVec([], v, None);
      assert ok && fds == Handles(v);
      var bufferLen := GrowBuffer(|fds|);
      if !accepted {
        return Failure(SocketSend);
      }
      MapHandles(ObjOf(p.table), v);
      outbox := outbox + [Packet(encoded, MapSeq(ObjOf(p.table), fds))];
      r := Success(());
    }

    /** Receive one message. `broken` is a failing `recvmsg`, which leaves everything as it was.
        `room` is how many descriptors the process may still open; `got` are the descriptors the
        kernel installed for this packet. The call is made when a packet is there, the stream has
        ended or the socket is broken; until then it blocks. */
    method ReceiveWithFds(p: Process, s: Schema, l: Limits, room: nat, broken: bool)
      returns (r: Result<Value<Fd>, ReceiveError>, ghost got: seq<Fd>)
      requires p.Quiet()
      requires inbox != [] || ended || broken
      modifies this`inbox, p
      ensures p.Quiet()
      ensures broken ==> r == Failure(Socket) && inbox == old(inbox) && p.table == old(p.table) && p.closes == old(p.closes)
      ensures !broken ==> inbox == if old(inbox) == [] then [] else old(inbox)[1..]
      ensures !broken ==> Received(p.table, p.closes, s, l, Next(old(inbox)), room, old(p.table), old(p.closes), r, got)
    {
      got := [];
      if broken { return Failure(Socket), []; }
      var packet := Next(inbox);
      if inbox != [] { inbox := inbox[1..]; }
      r, got := TakePacket(p, s, l, packet, room);
    }
  }

  lemma GoneOwned(fds: seq<Fd>, unused: seq<Fd>, t: map<Fd, Obj>)
    requires IsSuffix(unused, fds)
    requires Distinct(fds) && forall x :: x in fds ==> x in t
    ensures fds == Gone(fds, unused) + unused
    ensures Distinct(unused) && forall x :: x in unused ==> x in t - Elements(Gone(fds, unused))
    ensures multiset(unused + Gone(fds, unused)) == multiset(fds) && Elements(unused + Gone(fds, unused)) == Elements(fds)
  {
    var gone := Gone(fds, unused);
    assert fds == gone + unused;
    SecondOwned(gone, unused);
    forall i, j | 0 <= i < |gone| && 0 <= j < |unused| ensures gone[i] != unused[j] {
      assert fds[i] == gone[i] && fds[|gone| + j] == unused[j];
    }
  }

  /** What a message means across processes: if the packet sent for `v` (descriptors open in
      `mine`) is received as `w` (descriptors open in `theirs`), then `w` is `v` with other
      descriptor numbers, and the i-th one refers to the object the sender's i-th one did. */
  lemma TransferKeepsObjects(s: Schema, l: Limits, room: nat, v: Value<Fd>, mine: map<Fd, Obj>, w: Value<Fd>, theirs: map<Fd, Obj>)
    requires Conforms(s, v)
    requires Receive(s, l, Send(MapValue(ObjOf(mine), v)), room) == Success(MapValue(ObjOf(theirs), w))
    ensures MapSeq(ObjOf(theirs), Handles(w)) == MapSeq(ObjOf(mine), Handles(v))
    ensures Encode(w) == Encode(v)
    ensures MapValue(ObjOf(theirs), w) == MapValue(ObjOf(mine), v)
  {
    var packet := Send(MapValue(ObjOf(mine), v));
    MapHandles(ObjOf(mine), v);
    MapHandles(ObjOf(theirs), w);
    AcceptedIsMessage(s, l, packet, room);
    ExactOutcome(s, l, v, packet.handles, room);
    RebindIsMap(ObjOf(mine), v);
  }

  lemma {:induction false} RebindIsMap<H, K>(f: H -> K, v: Value<H>)
    ensures Rebind(v, MapSeq(f, Handles(v))) == MapValue(f, v)
    decreases v, 1
  {
    match v
    case VList(items) => RebindAllIsMap(f, items);
    case VSome(x) => RebindIsMap(f, x);
    case VEnum(_, x) => RebindIsMap(f, x);
    case VPair(x, y) =>
      var hs := MapSeq(f, Handles(v));
      RebindIsMap(f, x);
      RebindIsMap(f, y);
      assert hs[..|Handles(x)|] == MapSeq(f, Handles(x));
      assert hs[|Handles(x)|..] == MapSeq(f, Handles(y));
    case _ =>
  }

  lemma {:induction false} RebindAllIsMap<H, K>(f: H -> K, vs: seq<Value<H>>)
    ensures RebindAll(vs, MapSeq(f, HandlesAll(vs))) == MapAll(f, vs)
    decreases vs, 0
  {
    if vs != [] {
      var hs := MapSeq(f, HandlesAll(vs));
      RebindIsMap(f, vs[0]);
      RebindAllIsMap(f, vs[1..]);
      assert hs[..|Handles(vs[0])|] == MapSeq(f, Handles(vs[0]));
      assert hs[|Handles(vs[0])|..] == MapSeq(f, HandlesAll(vs[1..]));
    }
  }
}
