/**
  The handshake at the start of every connection: each side announces an intent and the
  build identity keyed with that intent, and checks the other side's.
*/
module Handshakes {
  import opened Wrappers
  import opened Wire
  import opened Packets
  import opened PassFd
  import opened SeqPackets
  import opened Proto

  type Digest = d: seq<Byte> | |d| == 32 witness seq(32, _ => 0)

  /** BLAKE3's `derive_key`: context and key material to a digest. Nothing is assumed of it. */
  type Kdf = (seq<Byte>, seq<Byte>) -> Digest

  datatype HandshakeError = SendFailed | ReceiveFailed(error: ReceiveError) | WrongVersion | WrongService

  /** `identify` under intent `intent`, for a program whose protocol identity is `build`. */
  function Identify(kdf: Kdf, intent: seq<Byte>, build: seq<Byte>): Digest { kdf(intent, build) }

  function Hello<H>(kdf: Kdf, intent: seq<Byte>, build: seq<Byte>): Value<H> {
    Handshake(intent, Identify(kdf, intent, build))
  }

  /** What a side that expects `intent` and is itself of build `build` says to what it received. */
  function Judge<H>(kdf: Kdf, intent: seq<Byte>, build: seq<Byte>, got: Result<Value<H>, ReceiveError>): Result<(), HandshakeError>
    requires got.Success? ==> Conforms(HANDSHAKE, got.value)
  {
    match got
    case Failure(e) => Failure(ReceiveFailed(e))
    case Success(v) =>
      HandshakeShape(v);
      if v.second.first.raw != Identify(kdf, intent, build) then Failure(WrongVersion)
      else if v.first.bytes != intent then Failure(WrongService)
      else Success(())
  }

  /** Receive a handshake and judge it. */
  function JudgePacket(kdf: Kdf, intent: seq<Byte>, build: seq<Byte>, p: Packet<Obj>, room: nat): Result<(), HandshakeError> {
    var got := Receive(HANDSHAKE, HANDSHAKE_LIMITS, p, room);
    assert got.Success? ==> Conforms(HANDSHAKE, got.value) by {
      if got.Success? { AcceptedIsMessage(HANDSHAKE, HANDSHAKE_LIMITS, p, room); }
    }
    Judge(kdf, intent, build, got)
  }

  /** Intents are short texts. */
  predicate IsIntent(intent: seq<Byte>) { |intent| <= 1000 }

  /** An honest hello passes exactly when the digests and the intents agree; with different
      digests the verdict is about the version, whatever the intents. */
  lemma JudgeHello(kdf: Kdf, intent: seq<Byte>, build: seq<Byte>, intent': seq<Byte>, build': seq<Byte>, room: nat)
    requires IsIntent(intent')
    ensures JudgePacket(kdf, intent, build, Send(Hello(kdf, intent', build')), room)
            == if kdf(intent', build') != kdf(intent, build) then Failure(WrongVersion)
               else if intent' != intent then Failure(WrongService)
               else Success(())
  {
    ReceiveHandshake(intent', kdf(intent', build'), room);
  }

  /** Any packet at all, honest or not: it passes exactly if it is received as the very handshake
      that is expected. If it is not received as a handshake, that failure is the verdict; and if
      it is as another, the digest is looked at before the intent. */
  lemma JudgeExact(kdf: Kdf, intent: seq<Byte>, build: seq<Byte>, p: Packet<Obj>, room: nat)
    ensures var got, r := Receive(HANDSHAKE, HANDSHAKE_LIMITS, p, room), JudgePacket(kdf, intent, build, p, room);
            && (r == Success(()) <==> got == Success(Handshake(intent, kdf(intent, build))))
            && (got.Failure? ==> r == Failure(ReceiveFailed(got.error)))
            && (got.Success? ==> exists i: seq<Byte>, k: Digest ::
                  && got.value == Handshake(i, k)
                  && (r == Failure(WrongVersion) <==> k != kdf(intent, build))
                  && (r == Failure(WrongService) <==> k == kdf(intent, build) && i != intent))
  {
    var got := Receive(HANDSHAKE, HANDSHAKE_LIMITS, p, room);
    if got.Success? {
      AcceptedIsMessage(HANDSHAKE, HANDSHAKE_LIMITS, p, room);
      HandshakeShape(got.value);
      var i, k: Digest := got.value.first.bytes, got.value.second.first.raw;
      assert got.value == Handshake(i, k);
    }
  }

  /** The verdict on what `recvmsg` delivers: the next packet, the end of the stream, or a
      failure of the socket. */
  function JudgeNext(kdf: Kdf, intent: seq<Byte>, build: seq<Byte>, inbox: seq<Packet<Obj>>, room: nat, broken: bool): Result<(), HandshakeError> {
    if broken then Failure(ReceiveFailed(Socket)) else JudgePacket(kdf, intent, build, Next(inbox), room)
  }

  /** What `recvmsg` delivers is the very handshake that is expected. */
  predicate Expected(kdf: Kdf, intent: seq<Byte>, build: seq<Byte>, inbox: seq<Packet<Obj>>, room: nat, broken: bool) {
    !broken && Receive(HANDSHAKE, HANDSHAKE_LIMITS, Next(inbox), room) == Success(Handshake(intent, kdf(intent, build)))
  }

  /** Nothing that is a handshake was delivered, and this is why. */
  predicate Undelivered(inbox: seq<Packet<Obj>>, room: nat, broken: bool, e: ReceiveError) {
    if broken then e == Socket else Receive(HANDSHAKE, HANDSHAKE_LIMITS, Next(inbox), room) == Failure(e)
  }

  lemma JudgeNextExact(kdf: Kdf, intent: seq<Byte>, build: seq<Byte>, inbox: seq<Packet<Obj>>, room: nat, broken: bool)
    ensures JudgeNext(kdf, intent, build, inbox, room, broken) == Success(()) <==> Expected(kdf, intent, build, inbox, room, broken)
    ensures forall e :: Undelivered(inbox, room, broken, e) ==> JudgeNext(kdf, intent, build, inbox, room, broken) == Failure(ReceiveFailed(e))
  {
    JudgeExact(kdf, intent, build, Next(inbox), room);
  }

  // ---------------------------------------------------------------- on a connection

  /** What is left in the inbox after one receive. */
  function Rest(inbox: seq<Packet<Obj>>, broken: bool): seq<Packet<Obj>> {
    if inbox == [] || broken then inbox else inbox[1..]
  }

  /** `handshake_as_client`. It receives when the peer's answer is in the inbox, the stream has
      ended or the socket is broken; the call blocks until then. */
  method HandshakeAsClient(conn: SeqPacket, p: Process, kdf: Kdf, clientIntent: seq<Byte>, serverIntent: seq<Byte>, build: seq<Byte>,
                           accepted: bool, room: nat, broken: bool) returns (r: Result<(), HandshakeError>)
    requires p.Quiet() && IsIntent(clientIntent)
    requires conn.inbox != [] || conn.ended || broken
    modifies conn`inbox, conn`outbox, p
    ensures p.Quiet() && p.table == old(p.table)
    ensures conn.inbox == if accepted then Rest(old(conn.inbox), broken) else old(conn.inbox)
    ensures !accepted ==> r == Failure(SendFailed) && conn.outbox == old(conn.outbox)
    ensures accepted ==>
              && conn.outbox == old(conn.outbox) + [Send(Hello(kdf, clientIntent, build))]
              && r == JudgeNext(kdf, serverIntent, build, old(conn.inbox), room, broken)
    ensures r == Success(()) <==> accepted && Expected(kdf, serverIntent, build, old(conn.inbox), room, broken)
    ensures forall e :: accepted && Undelivered(old(conn.inbox), room, broken, e) ==> r == Failure(ReceiveFailed(e))
  {
    JudgeNextExact(kdf, serverIntent, build, conn.inbox, room, broken);
    var sent := SendHello(conn, p, kdf, clientIntent, build, accepted);
    if !sent { return Failure(SendFailed); }
    r := ReceiveAndJudge(conn, p, kdf, serverIntent, build, room, broken);
  }

  /** `handshake_as_server`: nothing is sent unless both checks pass. */
  method HandshakeAsServer(conn: SeqPacket, p: Process, kdf: Kdf, clientIntent: seq<Byte>, serverIntent: seq<Byte>, build: seq<Byte>,
                           accepted: bool, room: nat, broken: bool) returns (r: Result<(), HandshakeError>)
    requires p.Quiet() && IsIntent(serverIntent)
    requires conn.inbox != [] || conn.ended || broken
    modifies conn`inbox, conn`outbox, p
    ensures p.Quiet() && p.table == old(p.table) && conn.inbox == Rest(old(conn.inbox), broken)
    ensures var verdict := JudgeNext(kdf, clientIntent, build, old(conn.inbox), room, broken);
            && (verdict.Failure? ==> r == verdict && conn.outbox == old(conn.outbox))
            && (verdict.Success? && !accepted ==> r == Failure(SendFailed) && conn.outbox == old(conn.outbox))
            && (verdict.Success? && accepted ==> r == Success(()) && conn.outbox == old(conn.outbox) + [Send(Hello(kdf, serverIntent, build))])
    ensures r == Success(()) <==> accepted && Expected(kdf, clientIntent, build, old(conn.inbox), room, broken)
    ensures forall e :: Undelivered(old(conn.inbox), room, broken, e) ==> r == Failure(ReceiveFailed(e)) && conn.outbox == old(conn.outbox)
  {
    JudgeNextExact(kdf, clientIntent, build, conn.inbox, room, broken);
    r := ReceiveAndJudge(conn, p, kdf, clientIntent, build, room, broken);
    if r.Failure? { return; }
    var sent := SendHello(conn, p, kdf, serverIntent, build, accepted);
    if !sent { r := Failure(SendFailed); }
  }

  method SendHello(conn: SeqPacket, p: Process, kdf: Kdf, intent: seq<Byte>, build: seq<Byte>, accepted: bool) returns (sent: bool)
    requires p.Quiet() && IsIntent(intent)
    modifies conn`outbox, p`oobSer
    ensures p.Quiet() && sent == accepted
    ensures conn.outbox == if accepted then old(conn.outbox) + [Send(Hello(kdf, intent, build))] else old(conn.outbox)
  {
    var hello: Value<Fd> := Hello(kdf, intent, build);
    assert Handles(hello.second) == [];
    MapHandshake<Fd, Obj>(ObjOf(p.table), intent, Identify(kdf, intent, build));
    var r := conn.SendWithFds(p, hello, accepted);
    sent := r.Success?;
  }

  method ReceiveAndJudge(conn: SeqPacket, p: Process, kdf: Kdf, intent: seq<Byte>, build: seq<Byte>, room: nat, broken: bool)
    returns (r: Result<(), HandshakeError>)
    requires p.Quiet()
    requires conn.inbox != [] || conn.ended || broken
    modifies conn`inbox, p
    ensures p.Quiet() && p.table == old(p.table) && conn.inbox == Rest(old(conn.inbox), broken)
    ensures r == JudgeNext(kdf, intent, build, old(conn.inbox), room, broken)
  {
    var got, fds := conn.ReceiveWithFds(p, HANDSHAKE, HANDSHAKE_LIMITS, room, broken);
    assert fds == [] || broken;
    if broken { return Failure(ReceiveFailed(Socket)); }
    r := JudgeReceived(kdf, intent, build, got, p.table, Next(old(conn.inbox)), room);
  }

  /** Judge a received handshake. It carries no descriptors, so it reads the same whatever they refer to. */
  method JudgeReceived(kdf: Kdf, intent: seq<Byte>, build: seq<Byte>, got: Result<Value<Fd>, ReceiveError>, ghost table: map<Fd, Obj>,
                       ghost packet: Packet<Obj>, ghost room: nat) returns (r: Result<(), HandshakeError>)
    requires got.Success? ==> Receive(HANDSHAKE, HANDSHAKE_LIMITS, packet, room) == Success(MapValue(ObjOf(table), got.value))
    requires got.Failure? ==> Receive(HANDSHAKE, HANDSHAKE_LIMITS, packet, room) == Failure(got.error)
    ensures r == JudgePacket(kdf, intent, build, packet, room)
  {
    if got.Failure? { return Failure(ReceiveFailed(got.error)); }
    AcceptedIsMessage(HANDSHAKE, HANDSHAKE_LIMITS, packet, room);
    MapConforms(ObjOf(table), HANDSHAKE, got.value);
    HandshakeShape(got.value);
    MapHandshake<Fd, Obj>(ObjOf(table), got.value.first.bytes, got.value.second.first.raw);
    r := Judge(kdf, intent, build, got);
  }
}
