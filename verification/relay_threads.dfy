/**
  The loops of a relay's two threads, each on its own: what the input thread does with all the
  packets that reach it, and what the output thread does over any number of rounds. The
  interleaving of threads is the business of `Relays`.
*/
module RelayThreads {
  import opened Wrappers
  import opened Wire
  import opened Packets
  import opened PassFd
  import opened SeqPackets
  import opened Proto
  import opened Relays
  import opened RelayTurns
  import opened RelayTheorems

  /** The kernel's answer to one `read` or `write`: how many bytes it would take, or an error. */
  datatype Answer = Took(n: nat) | Errno(eio: bool)

  /** Every write takes something. */
  ghost predicate Willing(answers: nat -> Answer) {
    forall i :: answers(i).Took? && answers(i).n > 0
  }

  class PtyMaster {
    var pending: seq<Byte>     // printed by the program, not read yet
    var written: seq<Byte>     // written to the program

    /** A short read. */
    method Read(size: nat, answer: Answer) returns (r: Result<seq<Byte>, bool>)
      modifies this`pending
      ensures r.Failure? <==> answer.Errno?
      ensures r.Failure? ==> r.error == answer.eio && pending == old(pending)
      ensures r.Success? ==> |r.value| == Min(answer.n, Min(size, |old(pending)|)) && r.value + pending == old(pending)
    {
      if answer.Errno? { return Failure(answer.eio); }
      var n := Min(answer.n, Min(size, |pending|));
      CutAppend(pending, n, []);
      r := Success(pending[..n]);
      pending := pending[n..];
    }

    /** A short write; a write that takes nothing is an error to `write_all`. */
    method Write(buf: seq<Byte>, answer: Answer) returns (r: Result<nat, ()>)
      modifies this`written
      ensures r.Failure? <==> answer.Errno?
      ensures r.Success? ==> r.value == Min(answer.n, |buf|) && written == old(written) + buf[..r.value]
      ensures r.Failure? ==> written == old(written)
    {
      if answer.Errno? { return Failure(()); }
      var n := Min(answer.n, |buf|);
      written := written + buf[..n];
      r := Success(n);
    }

    /** Write until nothing is left or a write fails. */
    method WriteAll(buf: seq<Byte>, answers: nat -> Answer) returns (ok: bool)
      modifies this`written
      ensures old(written) <= written <= old(written) + buf
      ensures ok ==> written == old(written) + buf
      ensures Willing(answers) ==> ok
    {
      var rest, i := buf, 0;
      assert written + rest == old(written) + buf;
      while rest != []
        invariant old(written) <= written && written + rest == old(written) + buf
        decreases |rest|
      {
        var r := Write(rest, answers(i));
        if r.Failure? || r.value == 0 {
          assert r.Success? ==> rest[..0] == [];
          return false;
        }
        Assoc(written[..|written| - r.value], rest[..r.value], rest[r.value..]);
        CutAppend(rest, r.value, []);
        rest := rest[r.value..];
        i := i + 1;
      }
      assert written + [] == written;
      ok := true;
    }
  }

  /** The outcome of the input thread on the packets `queue`: how many it took, what it wrote, and
      why it stopped. */
  ghost predicate InputOutcome(queue: seq<Packet<Obj>>, k: nat, wrote: seq<Byte>, e: ServeError)
    requires k <= |queue|
  {
    match e
    case BadPty => k > 0 && AllTyped(queue[..k]) && wrote <= Typed(queue[..k])
    case BadReceive(why) =>
      && wrote == Typed(queue[..k])
      && ((why == Socket && AllTyped(queue[..k]))
          || (why == End && k == |queue| && AllTyped(queue))
          || (k > 0 && AllTyped(queue[..k - 1]) && ReceiveInput(queue[k - 1]) == Failure(why)))
    case _ => false
  }

  /** The input thread is at the `k`-th packet of `queue`; `stream` is what is still to come. */
  ghost predicate InputSoFar(queue: seq<Packet<Obj>>, k: nat, start: seq<Byte>, written: seq<Byte>, stream: seq<Packet<Obj>>) {
    k <= |queue| && stream == queue[k..] && written == start + Typed(queue[..k]) && AllTyped(queue[..k])
  }

  /** The input thread stopped after `k` packets of `queue`. */
  ghost predicate Stopped(queue: seq<Packet<Obj>>, k: nat, start: seq<Byte>, written: seq<Byte>, stream: seq<Packet<Obj>>, e: ServeError) {
    k <= |queue| && stream == queue[k..] && start <= written && InputOutcome(queue, k, written[|start|..], e)
  }

  lemma InputStarts(queue: seq<Packet<Obj>>, start: seq<Byte>)
    ensures InputSoFar(queue, 0, start, start, queue)
  {
    assert start + Typed(queue[..0]) == start;
  }

  function Concat(batches: seq<seq<Packet<Obj>>>): seq<Packet<Obj>> {
    if batches == [] then [] else batches[0] + Concat(batches[1..])
  }

  /** Block until something can be received. Packets arrive in the batches `later`, and after the
      last the stream ends, be it by the peer or by the shutdown of the read side. */
  method Await(conn: SeqPacket, later: seq<seq<Packet<Obj>>>) returns (rest: seq<seq<Packet<Obj>>>)
    requires conn.ended ==> later == []
    modifies conn`inbox, conn`ended
    ensures conn.inbox + Concat(rest) == old(conn.inbox) + Concat(later)
    ensures conn.inbox != [] || conn.ended
    ensures conn.ended ==> rest == []
  {
    rest := later;
    while conn.inbox == [] && rest != []
      invariant conn.inbox + Concat(rest) == old(conn.inbox) + Concat(later)
      invariant conn.ended ==> rest == []
      decreases |rest|
    {
      assert [] + Concat(rest) == rest[0] + Concat(rest[1..]);
      conn.inbox, rest := rest[0], rest[1..];
    }
    if conn.inbox == [] { conn.ended := true; }
  }

  /** The input thread, from its start to its end. `later` is what arrives while it runs,
      `answers` are the kernel's to the writes of each message, `breaks` says in which round
      `recvmsg` fails. It ends by itself when the stream does, and has then written a prefix of the
      keyboard input there was: all of what it received, unless the PTY failed. */
  method InputThread(conn: SeqPacket, p: Process, pty: PtyMaster, later: seq<seq<Packet<Obj>>>,
                     answers: nat -> nat -> Answer, breaks: nat -> bool, room: nat)
    returns (r: Result<(), ServeError>, ghost k: nat, ghost rest: seq<seq<Packet<Obj>>>)
    requires p.Quiet() && (conn.ended ==> later == [])
    modifies conn`inbox, conn`ended, p, pty`written
    ensures p.Quiet() && p.table == old(p.table) && r.Failure?
    ensures Stopped(old(conn.inbox) + Concat(later), k, old(pty.written), pty.written, conn.inbox + Concat(rest), r.error)
    ensures (forall round :: Willing(answers(round))) ==> r.error != BadPty
    ensures (forall round :: !breaks(round)) ==> r.error != BadReceive(Socket)
  {
    ghost var queue, start := conn.inbox + Concat(later), pty.written;
    k := 0;
    var round, ahead := 0, later;
    InputStarts(queue, start);
    while true
      invariant p.Quiet() && p.table == old(p.table) && (conn.ended ==> ahead == [])
      invariant InputSoFar(queue, k, start, pty.written, conn.inbox + Concat(ahead))
      decreases |queue| - k
    {
      var stop;
      stop, ahead, k := InputRound(conn, p, pty, ahead, answers(round), breaks(round), room, queue, k, start);
      if stop.Some? { return Failure(stop.value), k, ahead; }
      round := round + 1;
    }
  }

  /** One round: receive a message and write it. */
  method InputRound(conn: SeqPacket, p: Process, pty: PtyMaster, later: seq<seq<Packet<Obj>>>, answers: nat -> Answer, broken: bool,
                    room: nat, ghost queue: seq<Packet<Obj>>, ghost k: nat, ghost start: seq<Byte>)
    returns (stop: Option<ServeError>, rest: seq<seq<Packet<Obj>>>, ghost taken: nat)
    requires p.Quiet() && (conn.ended ==> later == [])
    requires InputSoFar(queue, k, start, pty.written, conn.inbox + Concat(later))
    modifies conn`inbox, conn`ended, p, pty`written
    ensures p.Quiet() && p.table == old(p.table) && (conn.ended ==> rest == [])
    ensures stop.None? ==> k < taken <= |queue| && InputSoFar(queue, taken, start, pty.written, conn.inbox + Concat(rest))
    ensures stop.Some? ==> Stopped(queue, taken, start, pty.written, conn.inbox + Concat(rest), stop.value)
    ensures Willing(answers) ==> stop != Some(BadPty)
    ensures !broken ==> stop != Some(BadReceive(Socket))
  {
    var message;
    message, rest := NextKeys(conn, p, later, room, broken, queue, k);
    if message.Failure? {
      ReceiveFails(queue, k, start, pty.written, message.error, broken);
      return Some(BadReceive(message.error)), rest, if !broken && k < |queue| then k + 1 else k;
    }
    ghost var before := pty.written;
    var ok := pty.WriteAll(message.value, answers);
    if !ok {
      Broke(queue, k, start, before, pty.written, message.value);
      return Some(BadPty), rest, k + 1;
    }
    GoesOn(queue, k, start, before, message.value);
    return None, rest, k + 1;
  }

  /** Wait for the next message, the `k`-th of the queue, and receive it. */
  method NextKeys(conn: SeqPacket, p: Process, later: seq<seq<Packet<Obj>>>, room: nat, broken: bool,
                  ghost queue: seq<Packet<Obj>>, ghost k: nat)
    returns (r: Result<seq<Byte>, ReceiveError>, rest: seq<seq<Packet<Obj>>>)
    requires p.Quiet() && (conn.ended ==> later == [])
    requires k <= |queue| && conn.inbox + Concat(later) == queue[k..]
    modifies conn`inbox, conn`ended, p
    ensures p.Quiet() && p.table == old(p.table) && (conn.ended ==> rest == [])
    ensures conn.inbox + Concat(rest) == if broken || k == |queue| then queue[k..] else queue[k + 1..]
    ensures r == if broken then Failure(Socket) else if k == |queue| then Failure(End) else ReceiveInput(queue[k])
    ensures k == |queue| ==> queue[..k] == queue
    ensures !broken ==> r != Failure(Socket)
  {
    rest := Await(conn, later);
    FirstOf(queue, k, conn.inbox, Concat(rest));
    r := ReceiveKeys(conn, p, room, broken);
  }

  /** What is received next, and what is left: the end of the stream only if nothing is. */
  lemma FirstOf(queue: seq<Packet<Obj>>, k: nat, inbox: seq<Packet<Obj>>, ahead: seq<Packet<Obj>>)
    requires k <= |queue| && inbox + ahead == queue[k..] && (inbox == [] ==> ahead == [])
    ensures inbox == [] <==> k == |queue|
    ensures inbox != [] ==> inbox[0] == queue[k] && inbox[1..] + ahead == queue[k + 1..]
    ensures k == |queue| ==> ReceiveInput(Next(inbox)) == Failure(End) && queue[..k] == queue
    ensures ReceiveInput(Next(inbox)) != Failure(Socket)
  {
    if inbox != [] {
      assert (inbox + ahead)[1..] == inbox[1..] + ahead;
      assert queue[k..][1..] == queue[k + 1..];
    }
  }

  lemma ReceiveFails(queue: seq<Packet<Obj>>, k: nat, start: seq<Byte>, written: seq<Byte>, e: ReceiveError, broken: bool)
    requires k <= |queue| && written == start + Typed(queue[..k]) && AllTyped(queue[..k])
    requires if broken then e == Socket else if k < |queue| then ReceiveInput(queue[k]) == Failure(e) else e == End && queue[..k] == queue
    ensures start <= written
    ensures InputOutcome(queue, if !broken && k < |queue| then k + 1 else k, written[|start|..], BadReceive(e))
  {
    Behind(start, Typed(queue[..k]));
    if !broken && k < |queue| { RefusedNext(queue, k, Typed(queue[..k]), e); }
  }

  lemma RefusedNext(queue: seq<Packet<Obj>>, k: nat, wrote: seq<Byte>, e: ReceiveError)
    requires k < |queue| && wrote == Typed(queue[..k]) && AllTyped(queue[..k])
    requires ReceiveInput(queue[k]) == Failure(e)
    ensures InputOutcome(queue, k + 1, wrote, BadReceive(e))
  {
    OneMore(queue, k);
    TypedSnoc(queue[..k], queue[k]);
    Behind(wrote, []);
  }

  lemma Behind(start: seq<Byte>, more: seq<Byte>)
    ensures start <= start + more && (start + more)[|start|..] == more
    ensures start + [] == start
  {
  }

  lemma GoesOn(queue: seq<Packet<Obj>>, k: nat, start: seq<Byte>, before: seq<Byte>, message: seq<Byte>)
    requires k < |queue| && before == start + Typed(queue[..k]) && AllTyped(queue[..k])
    requires ReceiveInput(queue[k]) == Success(message)
    ensures before + message == start + Typed(queue[..k + 1]) && AllTyped(queue[..k + 1])
  {
    OneMore(queue, k);
    TypedSnoc(queue[..k], queue[k]);
    Assoc(start, Typed(queue[..k]), message);
  }

  lemma OneMore(queue: seq<Packet<Obj>>, k: nat)
    requires k < |queue|
    ensures queue[..k + 1] == queue[..k] + [queue[k]]
    ensures AllTyped(queue[..k]) && ReceiveInput(queue[k]).Success? ==> AllTyped(queue[..k + 1])
  {
  }

  lemma Broke(queue: seq<Packet<Obj>>, k: nat, start: seq<Byte>, before: seq<Byte>, after: seq<Byte>, message: seq<Byte>)
    requires k < |queue| && before == start + Typed(queue[..k]) && AllTyped(queue[..k])
    requires ReceiveInput(queue[k]) == Success(message) && before <= after <= before + message
    ensures start <= after
    ensures InputOutcome(queue, k + 1, after[|start|..], BadPty)
  {
    GoesOn(queue, k, start, before, message);
    Between(start, Typed(queue[..k + 1]), after);
  }

  lemma Between(start: seq<Byte>, more: seq<Byte>, after: seq<Byte>)
    requires start <= after <= start + more
    ensures after[|start|..] <= more
  {
  }

  /** Receive the next message of the input direction. */
  method ReceiveKeys(conn: SeqPacket, p: Process, room: nat, broken: bool) returns (r: Result<seq<Byte>, ReceiveError>)
    requires p.Quiet() && (conn.inbox != [] || conn.ended)
    modifies conn`inbox, p
    ensures p.Quiet() && p.table == old(p.table)
    ensures conn.inbox == if old(conn.inbox) == [] || broken then old(conn.inbox) else old(conn.inbox)[1..]
    ensures r == if broken then Failure(Socket) else ReceiveInput(Next(old(conn.inbox)))
  {
    var got, fds := conn.ReceiveWithFds(p, USER_INPUT, USER_LIMITS, room, broken);
    assert fds == [] || broken;
    if broken { return Failure(Socket); }
    RoomDoesNotMatter(Next(old(conn.inbox)), room);
    r := KeysIn(got, p.table, Next(old(conn.inbox)));
  }

  method KeysIn(got: Result<Value<Fd>, ReceiveError>, ghost table: map<Fd, Obj>, ghost packet: Packet<Obj>)
    returns (r: Result<seq<Byte>, ReceiveError>)
    requires got.Success? ==> Receive(USER_INPUT, USER_LIMITS, packet, 0) == Success(MapValue(ObjOf(table), got.value))
    requires got.Failure? ==> Receive(USER_INPUT, USER_LIMITS, packet, 0) == Failure(got.error)
    ensures r == ReceiveInput(packet)
  {
    if got.Failure? { return Failure(got.error); }
    AcceptedIsMessage(USER_INPUT, USER_LIMITS, packet, 0);
    MapConforms(ObjOf(table), USER_INPUT, got.value);
    KeyboardInputShape(got.value);
    r := Success(got.value.payload.bytes);
  }

  // ---------------------------------------------------------------- output

  /** The packets of chunks. */
  function Outputs(chunks: seq<seq<Byte>>): seq<Packet<Obj>> {
    if chunks == [] then [] else Outputs(chunks[..|chunks| - 1]) + [Send(SessionOutput(chunks[|chunks| - 1]))]
  }

  lemma OutputsSnoc(chunks: seq<seq<Byte>>, chunk: seq<Byte>)
    ensures Outputs(chunks + [chunk]) == Outputs(chunks) + [Send(SessionOutput(chunk))]
  {
    assert (chunks + [chunk])[..|chunks|] == chunks;
  }

  /** Chunk after chunk was read off `pending0` and sent after `outbox0`. */
  ghost predicate OutputSoFar(chunks: seq<seq<Byte>>, pending0: seq<Byte>, pending: seq<Byte>, outbox0: seq<Packet<Obj>>, outbox: seq<Packet<Obj>>) {
    && Flat(chunks) + pending == pending0
    && outbox == outbox0 + Outputs(chunks)
    && forall i :: 0 <= i < |chunks| ==> |chunks[i]| <= RELAY_CHUNK
  }

  lemma OutputStarts(pending: seq<Byte>, outbox: seq<Packet<Obj>>)
    ensures OutputSoFar([], pending, pending, outbox, outbox)
  {
  }

  lemma OutputGoesOn(chunks: seq<seq<Byte>>, buf: seq<Byte>, pending0: seq<Byte>, pending: seq<Byte>, outbox0: seq<Packet<Obj>>, outbox: seq<Packet<Obj>>)
    requires OutputSoFar(chunks, pending0, buf + pending, outbox0, outbox) && |buf| <= RELAY_CHUNK
    ensures OutputSoFar(chunks + [buf], pending0, pending, outbox0, outbox + [Send(SessionOutput(buf))])
  {
    FlatSnoc(chunks, buf);
    OutputsSnoc(chunks, buf);
    Assoc(Flat(chunks), buf, pending);
    Assoc(outbox0, Outputs(chunks), [Send(SessionOutput(buf))]);
  }

  /** The output thread over as many rounds as there are answers; `None` if it still runs then.
      All it read and did not send is one chunk, and only if the send failed. */
  method OutputThread(conn: SeqPacket, p: Process, pty: PtyMaster, answers: seq<Answer>, accepts: nat -> bool)
    returns (r: Option<Result<(), ServeError>>, ghost chunks: seq<seq<Byte>>, ghost unsent: seq<Byte>)
    requires p.Quiet()
    modifies conn`outbox, p`oobSer, pty`pending
    ensures p.Quiet()
    ensures OutputSoFar(chunks, old(pty.pending), unsent + pty.pending, old(conn.outbox), conn.outbox)
    ensures |unsent| <= RELAY_CHUNK && (r != Some(Failure(BadSend)) ==> unsent == [])
    ensures |chunks| <= |answers| && forall i :: 0 <= i < |chunks| ==> answers[i].Took? && accepts(i)
    ensures r.None? ==> |chunks| == |answers|
    ensures r.Some? ==> |chunks| < |answers|
                        && r.value == match answers[|chunks|]
                                      case Errno(eio) => if eio then Success(()) else Failure(BadPty)
                                      case Took(_) => Failure(BadSend)
    ensures r == Some(Failure(BadSend)) ==> !accepts(|chunks|)
  {
    chunks, unsent := [], [];
    OutputStarts(pty.pending, conn.outbox);
    for i := 0 to |answers|
      invariant p.Quiet() && |chunks| == i && unsent == []
      invariant OutputSoFar(chunks, old(pty.pending), pty.pending, old(conn.outbox), conn.outbox)
      invariant forall j :: 0 <= j < i ==> answers[j].Took? && accepts(j)
    {
      r, chunks, unsent := OutputRound(conn, p, pty, answers[i], accepts(i), chunks, old(pty.pending), old(conn.outbox));
      if r.Some? { return; }
    }
    assert [] + pty.pending == pty.pending;
    r := None;
  }

  /** One round: read a chunk and send it. */
  method OutputRound(conn: SeqPacket, p: Process, pty: PtyMaster, answer: Answer, accepted: bool,
                     ghost chunks: seq<seq<Byte>>, ghost pending0: seq<Byte>, ghost outbox0: seq<Packet<Obj>>)
    returns (stop: Option<Result<(), ServeError>>, ghost sent: seq<seq<Byte>>, ghost unsent: seq<Byte>)
    requires p.Quiet() && OutputSoFar(chunks, pending0, pty.pending, outbox0, conn.outbox)
    modifies conn`outbox, p`oobSer, pty`pending
    ensures p.Quiet()
    ensures stop == match answer
                    case Errno(eio) => Some(if eio then Success(()) else Failure(BadPty))
                    case Took(_) => if accepted then None else Some(Failure(BadSend))
    ensures stop.None? ==> unsent == [] && |sent| == |chunks| + 1 && OutputSoFar(sent, pending0, pty.pending, outbox0, conn.outbox)
    ensures stop.Some? ==> sent == chunks && |unsent| <= RELAY_CHUNK && (answer.Errno? ==> unsent == [])
                           && OutputSoFar(sent, pending0, unsent + pty.pending, outbox0, conn.outbox)
  {
    var got := pty.Read(RELAY_CHUNK, answer);
    if got.Failure? {
      assert [] + pty.pending == pty.pending;
      return Some(if got.error then Success(()) else Failure(BadPty)), chunks, [];
    }
    ghost var outbox := conn.outbox;
    var ok := SendOutput(conn, p, got.value, accepted);
    if !ok { return Some(Failure(BadSend)), chunks, got.value; }
    OutputGoesOn(chunks, got.value, pending0, pty.pending, outbox0, outbox);
    return None, chunks + [got.value], [];
  }

  method SendOutput(conn: SeqPacket, p: Process, buf: seq<Byte>, accepted: bool) returns (sent: bool)
    requires p.Quiet()
    modifies conn`outbox, p`oobSer
    ensures p.Quiet() && sent == accepted
    ensures conn.outbox == if accepted then old(conn.outbox) + [Send(SessionOutput(buf))] else old(conn.outbox)
  {
    var message: Value<Fd> := SessionOutput(buf);
    assert Handles(message.payload) == [];
    assert MapValue(ObjOf(p.table), message) == SessionOutput(buf) by {
      assert MapValue(ObjOf(p.table), message.payload) == VBytes(buf);
    }
    var r := conn.SendWithFds(p, message, accepted);
    sent := r.Success?;
  }

  // ---------------------------------------------------------------- rounds as turns

  /** What the output thread of a relay does about one answer of the kernel, in the turns it takes
      when all threads interleave: the same as in a round of its loop. It can take no other turn. */
  lemma OutputTurns(p: Program, c: Client, pending: seq<Byte>, answer: Answer, accepted: bool)
    requires c.output == Reading
    ensures forall n: nat :: ClientStep(p, c, Reads(n), pending).Some? <==> n <= 1024 && n <= |pending|
    ensures ClientStep(p, c, Sends(accepted), pending) == None
    ensures match answer
            case Errno(eio) =>
              ClientStep(p, c, ReadBreaks(eio), pending) == Some(c.(output := OutputDone(if eio then Success(()) else Failure(BadPty))))
            case Took(n) => SendsChunk(p, c, pending, Min(n, Min(1024, |pending|)), accepted)
  {
  }

  /** One turn reads `n` bytes, the next sends them or finds that it cannot. */
  ghost predicate SendsChunk(p: Program, c: Client, pending: seq<Byte>, n: nat, accepted: bool)
    requires n <= |pending|
  {
    var chunk := pending[..n];
    var c1 := c.(output := Sending(chunk), got := c.got + [chunk]);
    && ClientStep(p, c, Reads(n), pending) == Some(c1)
    && ClientStep(p, c1, Sends(accepted), pending[n..])
       == Some(if accepted then c1.(output := Reading, sent := c.sent + [Send(SessionOutput(chunk))])
               else c1.(output := OutputDone(Failure(BadSend))))
  }

  /** What the input thread of a relay does about one answer to a `write`: a failed write and one
      that takes nothing end it, any other leaves the rest, and with nothing left it receives again. */
  lemma InputTurns(p: Program, c: Client, pending: seq<Byte>, answer: Answer)
    requires c.input.Writing?
    ensures var rest := c.input.rest;
            if rest == [] then
              ClientStep(p, c, Written, pending) == Some(c.(input := Receiving)) && ClientStep(p, c, WriteBreaks, pending) == None
            else if answer.Errno? || answer.n == 0 then
              && ClientStep(p, c, WriteBreaks, pending) == Some(c.(input := InputDone(Failure(BadPty))))
              && ClientStep(p, c, Written, pending) == None
            else
              var n := Min(answer.n, |rest|);
              && ClientStep(p, c, Writes(n), pending) == Some(c.(input := Writing(rest[n..]), put := c.put + rest[..n]))
              && ClientStep(p, c, Written, pending) == None
    ensures forall n: nat :: ClientStep(p, c, Writes(n), pending).Some? <==> 0 < n <= |c.input.rest|
    ensures ClientStep(p, c, Receives, pending) == None
  {
  }

  /** What it does about what `recvmsg` delivers; the packet's keys are written next. */
  lemma ReceiveTurns(p: Program, c: Client, pending: seq<Byte>)
    requires c.input == Receiving && c.main != AwaitHello
    ensures ClientStep(p, c, ReceiveBreaks, pending) == Some(c.(input := InputDone(Failure(BadReceive(Socket)))))
    ensures ClientStep(p, c, Receives, pending) == None <==> c.taken >= |c.arrived| && !c.ended && !c.shut
    ensures c.taken < |c.arrived| ==>
              ClientStep(p, c, Receives, pending)
              == match Receive(USER_INPUT, USER_LIMITS, c.arrived[c.taken], 0)
                 case Success(v) => Some(c.(taken := c.taken + 1, input := Writing(v.payload.bytes)))
                 case Failure(e) => Some(c.(taken := c.taken + 1, input := InputDone(Failure(BadReceive(e)))))
  {
  }
}
