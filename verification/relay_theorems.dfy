/**
  What holds of the relays in every interleaving: no byte is lost, repeated or reordered in
  either direction beyond one chunk per client, and a relay whose PTY is gone comes to an end.
*/
module RelayTheorems {
  import opened Wrappers
  import opened Wire
  import opened Packets
  import opened Proto
  import opened Handshakes
  import opened Relays
  import opened RelayTurns

  // ---------------------------------------------------------------- streams

  /** The keyboard input a packet carries; none if it is not such a message. */
  function KeysOf(p: Packet<Obj>): seq<Byte> {
    var r := ReceiveInput(p);
    if r.Success? then r.value else []
  }

  function Typed(packets: seq<Packet<Obj>>): seq<Byte> {
    if packets == [] then [] else Typed(packets[..|packets| - 1]) + KeysOf(packets[|packets| - 1])
  }

  predicate AllTyped(packets: seq<Packet<Obj>>) {
    forall i :: 0 <= i < |packets| ==> ReceiveInput(packets[i]).Success?
  }

  lemma TypedSnoc(packets: seq<Packet<Obj>>, p: Packet<Obj>)
    ensures Typed(packets + [p]) == Typed(packets) + KeysOf(p)
  {
    assert (packets + [p])[..|packets|] == packets;
  }

  lemma {:induction false} TypedPrefix(packets: seq<Packet<Obj>>, k: nat)
    requires k <= |packets|
    ensures Typed(packets[..k]) <= Typed(packets)
    decreases |packets|
  {
    if k == |packets| {
      assert packets[..k] == packets;
    } else {
      var n := |packets| - 1;
      TypedPrefix(packets[..n], k);
      assert packets[..n][..k] == packets[..k];
    }
  }

  // ---------------------------------------------------------------- the invariant of one relay

  /** The packets of the input direction received so far: all but the hello. */
  function TakenInputs(c: Client): seq<Packet<Obj>> {
    if 1 <= c.taken <= |c.arrived| then c.arrived[1..c.taken] else []
  }

  predicate Started(c: Client) { !c.input.InputIdle? }

  /** Main and the two threads are where they can be together. */
  predicate PhaseOk(c: Client) {
    && c.taken <= |c.arrived|
    && (c.input.InputIdle? <==> c.output.OutputIdle?)
    && (c.main == AwaitHello ==> c.taken == 0 && !Started(c))
    && (c.main == Greeting ==> c.taken == 1 && !Started(c))
    && (c.main == JoinOutput || c.main == JoinInput ==> Started(c))
    && (c.main == JoinOutput ==> !c.shut)
    && (c.main == JoinInput ==> c.shut && c.output.OutputDone?)
    && (c.shut ==> Started(c))
    && (if Started(c) then c.taken >= 1 else c.taken <= 1)
    && (c.taken == 0 ==> c.main == AwaitHello || (c.main.Returned? && !Started(c)))
  }

  /** Keyboard input: written so far is what was received, but for what is still to be written. */
  predicate InputOk(c: Client) {
    match c.input
    case InputIdle => c.put == []
    case Receiving => c.put == Typed(TakenInputs(c)) && AllTyped(TakenInputs(c))
    case Writing(rest) => c.put + rest == Typed(TakenInputs(c)) && AllTyped(TakenInputs(c))
    case InputDone(r) =>
      && r.Failure?
      && match r.error
         case BadPty => c.put <= Typed(TakenInputs(c))
         case BadReceive(e) => c.put == Typed(TakenInputs(c)) && StoppedBy(c, e)
         case _ => false
  }

  /** Why the input thread stopped receiving: a broken socket, the end of the stream with everything
      taken, or the last packet it took, which is no keyboard input. */
  predicate StoppedBy(c: Client, e: ReceiveError) {
    || e == Socket
    || (e == End && c.taken == |c.arrived| && (c.ended || c.shut))
    || (2 <= c.taken <= |c.arrived| && ReceiveInput(c.arrived[c.taken - 1]) == Failure(e))
  }

  /** The client's first packet is the hello of a user client of this build. */
  predicate Greeted(p: Program, c: Client) {
    c.arrived != []
    && Receive(HANDSHAKE, HANDSHAKE_LIMITS, c.arrived[0], 0) == Success(Handshake(USER_CLIENT, p.kdf(USER_CLIENT, p.build)))
  }

  /** Nothing but the hello was taken from a client that did not pass, and this is what it got. */
  predicate Refused(p: Program, c: Client, why: HandshakeError) {
    || why == ReceiveFailed(Socket)
    || (why == SendFailed && Greeted(p, c))
    || (why == ReceiveFailed(End) && c.arrived == [] && c.ended)
    || (c.arrived != [] && JudgePacket(p.kdf, USER_CLIENT, p.build, c.arrived[0], 0) == Failure(why))
  }

  /** A relay that got past the hello was sent the right one; one that did not says why. */
  predicate HelloOk(p: Program, c: Client) {
    && (c.main == Greeting || Started(c) ==> Greeted(p, c))
    && (c.main.Returned? && c.main.result.Failure? && c.main.result.error.BadHandshake? ==> Refused(p, c, c.main.result.error.why))
  }

  lemma SameVerdict(p: Program, packet: Packet<Obj>, room: nat)
    ensures JudgePacket(p.kdf, USER_CLIENT, p.build, packet, room) == JudgePacket(p.kdf, USER_CLIENT, p.build, packet, 0)
  {
    assert Receive(HANDSHAKE, HANDSHAKE_LIMITS, packet, room) == Receive(HANDSHAKE, HANDSHAKE_LIMITS, packet, 0);
  }

  lemma HelloTaken(p: Program, c: Client, room: nat, c': Client)
    requires PhaseOk(c) && HelloOk(p, c) && OnHello(p, c, room) == Some(c')
    ensures HelloOk(p, c')
  {
    SameVerdict(p, NextPacket(c), room);
    JudgeExact(p.kdf, USER_CLIENT, p.build, NextPacket(c), 0);
    var nothing: Packet<Obj> := Packet([], []);
    assert Receive(HANDSHAKE, HANDSHAKE_LIMITS, nothing, 0) == Failure(End);
  }

  lemma HelloKeeps(p: Program, c: Client, e: Event, pending: seq<Byte>, c': Client)
    requires PhaseOk(c) && HelloOk(p, c) && ClientStep(p, c, e, pending) == Some(c')
    requires c.main.Returned? && c.main.result.Failure? && c.main.result.error.BadHandshake? ==> !Started(c)
    requires InputOk(c)
    ensures HelloOk(p, c')
  {
    if e.TakesHello? {
      HelloTaken(p, c, e.room, c');
    } else {
      HelloStays(p, c, e, pending, c');
    }
  }

  lemma HelloStays(p: Program, c: Client, e: Event, pending: seq<Byte>, c': Client)
    requires PhaseOk(c) && HelloOk(p, c) && ClientStep(p, c, e, pending) == Some(c') && !e.TakesHello?
    requires InputOk(c)
    ensures HelloOk(p, c')
  {
    assert c.arrived != [] ==> c'.arrived != [] && c'.arrived[0] == c.arrived[0];
  }

  /** A chunk was read that is not sent: about to be, or refused. */
  predicate Unsent(c: Client) {
    c.output.Sending? || c.output == OutputDone(Failure(BadSend))
  }

  /** Output: the hello, then every chunk read, but for the last one if it is not sent. */
  predicate OutputOk(p: Program, c: Client) {
    && (!Started(c) ==> c.sent == [] && c.got == [])
    && (Started(c) ==> |c.sent| >= 1 && c.sent[0] == Send(Hello(p.kdf, USER_SERVER, p.build)))
    && (Started(c) ==> |c.got| == |c.sent| - 1 + (if Unsent(c) then 1 else 0))
    && (forall i :: 1 <= i < |c.sent| ==> c.sent[i] == Send(SessionOutput(c.got[i - 1])))
    && (forall i :: 0 <= i < |c.got| ==> |c.got[i]| <= RELAY_CHUNK)
    && (c.output.Sending? ==> c.got != [] && c.got[|c.got| - 1] == c.output.chunk)
  }

  /** A returned relay says what went wrong, and it was not a send. */
  predicate ResultOk(c: Client) {
    c.main.Returned? ==>
      c.main.result.Failure?
      && match c.main.result.error
         case BadHandshake(_) => !Started(c)
         case BadShutdown => c.output.OutputDone? && !c.shut
         case BadSend => false
         case error => c.output.OutputDone? && c.shut && c.input == InputDone(Failure(error))
  }

  ghost predicate ClientOk(p: Program, c: Client) {
    PhaseOk(c) && HelloOk(p, c) && InputOk(c) && OutputOk(p, c) && ResultOk(c)
  }

  lemma ArrivedMore(c: Client, more: Packet<Obj>)
    requires c.taken <= |c.arrived|
    ensures TakenInputs(c.(arrived := c.arrived + [more])) == TakenInputs(c)
  {
    assert (c.arrived + [more])[..|c.arrived|] == c.arrived;
    if c.taken >= 1 { assert (c.arrived + [more])[1..c.taken] == c.arrived[1..c.taken]; }
  }

  lemma PhaseKeeps(p: Program, c: Client, e: Event, pending: seq<Byte>, c': Client)
    requires PhaseOk(c) && ClientStep(p, c, e, pending) == Some(c')
    ensures PhaseOk(c')
  {
  }

  lemma ReceiveKeeps(c: Client, c': Client)
    requires PhaseOk(c) && InputOk(c) && OnReceive(c) == Some(c')
    ensures InputOk(c')
  {
    var before := TakenInputs(c);
    if c.taken < |c.arrived| {
      var p := c.arrived[c.taken];
      assert TakenInputs(c') == before + [p];
      TypedSnoc(before, p);
      TypedMore(before, p, c'.input);
    } else {
      assert ReceiveInput(Packet([], [])) == Failure(End);
      assert TakenInputs(c') == before;
    }
  }

  lemma TypedMore(before: seq<Packet<Obj>>, p: Packet<Obj>, input: Input)
    requires AllTyped(before) && input == AfterReceive(ReceiveInput(p))
    ensures input.Writing? ==> input.rest == KeysOf(p) && AllTyped(before + [p])
    ensures !input.Writing? ==> KeysOf(p) == [] && input.InputDone? && input.result.Failure? && input.result.error.BadReceive?
    ensures Typed(before) + [] == Typed(before)
  {
  }

  lemma WriteKeeps(c: Client, n: nat, c': Client)
    requires InputOk(c) && OnWrite(c, n) == Some(c')
    ensures InputOk(c')
  {
    CutAppend(c.input.rest, n, []);
    Assoc(c.put, c.input.rest[..n], c.input.rest[n..]);
    assert TakenInputs(c') == TakenInputs(c);
  }

  lemma GreetKeeps(p: Program, c: Client, accepted: bool, c': Client)
    requires PhaseOk(c) && InputOk(c) && OnGreet(p, c, accepted) == Some(c')
    ensures InputOk(c')
  {
    assert TakenInputs(c') == [];
  }

  predicate InputEvent(e: Event) { e.PeerSends? || e.Greets? || e.Receives? || e.ReceiveBreaks? || e.Writes? || e.WriteBreaks? || e.Written? }

  lemma OthersLeaveInput(p: Program, c: Client, e: Event, pending: seq<Byte>, c': Client)
    requires PhaseOk(c) && ClientStep(p, c, e, pending) == Some(c') && !InputEvent(e)
    ensures c'.input == c.input && c'.put == c.put && c'.arrived == c.arrived && (c'.taken == c.taken || c.input.InputIdle?)
    ensures (c.ended ==> c'.ended) && (c.shut ==> c'.shut)
  {
  }

  lemma OthersKeepInput(p: Program, c: Client, e: Event, pending: seq<Byte>, c': Client)
    requires PhaseOk(c) && InputOk(c) && ClientStep(p, c, e, pending) == Some(c') && !InputEvent(e)
    ensures InputOk(c')
  {
    OthersLeaveInput(p, c, e, pending, c');
    assert c.input.InputIdle? || TakenInputs(c') == TakenInputs(c);
  }

  lemma BreakKeeps(c: Client, r: ServeError)
    requires InputOk(c)
    requires (c.input == Receiving && r == BadReceive(Socket)) || (c.input.Writing? && r == BadPty)
    ensures InputOk(c.(input := InputDone(Failure(r))))
  {
    assert TakenInputs(c.(input := InputDone(Failure(r)))) == TakenInputs(c);
  }

  lemma WrittenKeeps(c: Client)
    requires InputOk(c) && c.input == Writing([])
    ensures InputOk(c.(input := Receiving))
  {
    assert c.put + [] == c.put;
    assert TakenInputs(c.(input := Receiving)) == TakenInputs(c);
  }

  lemma InputKeeps(p: Program, c: Client, e: Event, pending: seq<Byte>, c': Client)
    requires PhaseOk(c) && InputOk(c) && ClientStep(p, c, e, pending) == Some(c')
    ensures InputOk(c')
  {
    match e
    case PeerSends(packet) => ArrivedMore(c, packet);
    case Greets(accepted) => GreetKeeps(p, c, accepted, c');
    case Receives => ReceiveKeeps(c, c');
    case ReceiveBreaks => if c.main != AwaitHello { BreakKeeps(c, BadReceive(Socket)); }
    case Writes(n) => WriteKeeps(c, n, c');
    case WriteBreaks => BreakKeeps(c, BadPty);
    case Written => WrittenKeeps(c);
    case _ => OthersKeepInput(p, c, e, pending, c');
  }

  predicate OutputEvent(e: Event) { e.Greets? || e.Reads? || e.ReadBreaks? || e.Sends? }

  lemma OthersLeaveOutput(p: Program, c: Client, e: Event, pending: seq<Byte>, c': Client)
    requires ClientStep(p, c, e, pending) == Some(c') && !OutputEvent(e)
    ensures c'.output == c.output && c'.sent == c.sent && c'.got == c.got && (Started(c') <==> Started(c))
  {
  }

  lemma ReadKeeps(p: Program, c: Client, n: nat, pending: seq<Byte>, c': Client)
    requires PhaseOk(c) && OutputOk(p, c) && OnRead(c, n, pending) == Some(c')
    ensures OutputOk(p, c')
  {
  }

  lemma SendKeeps(p: Program, c: Client, accepted: bool, c': Client)
    requires PhaseOk(c) && OutputOk(p, c) && OnSend(c, accepted) == Some(c')
    ensures OutputOk(p, c')
  {
  }

  lemma OutputKeeps(p: Program, c: Client, e: Event, pending: seq<Byte>, c': Client)
    requires PhaseOk(c) && OutputOk(p, c) && ClientStep(p, c, e, pending) == Some(c')
    ensures OutputOk(p, c')
  {
    if !OutputEvent(e) { OthersLeaveOutput(p, c, e, pending, c'); }
    if e.Reads? { ReadKeeps(p, c, e.n, pending, c'); }
    if e.Sends? { SendKeeps(p, c, e.accepted, c'); }
  }

  lemma ResultKeeps(p: Program, c: Client, e: Event, pending: seq<Byte>, c': Client)
    requires PhaseOk(c) && InputOk(c) && ResultOk(c) && ClientStep(p, c, e, pending) == Some(c')
    ensures ResultOk(c')
  {
    if !e.TakesHello? && !e.ReceiveBreaks? && !e.Greets? && !e.JoinsOutput? && !e.JoinsInput? { MainStays(p, c, e, pending, c'); }
  }

  lemma MainStays(p: Program, c: Client, e: Event, pending: seq<Byte>, c': Client)
    requires PhaseOk(c) && ClientStep(p, c, e, pending) == Some(c')
    requires !e.TakesHello? && !e.ReceiveBreaks? && !e.Greets? && !e.JoinsOutput? && !e.JoinsInput?
    ensures c'.main == c.main && c'.shut == c.shut && (Started(c') <==> Started(c))
    ensures c.output.OutputDone? ==> c'.output == c.output
    ensures c.input.InputDone? ==> c'.input == c.input
  {
  }

  lemma ClientKeeps(p: Program, c: Client, e: Event, pending: seq<Byte>, c': Client)
    requires ClientOk(p, c) && ClientStep(p, c, e, pending) == Some(c')
    ensures ClientOk(p, c')
  {
    PhaseKeeps(p, c, e, pending, c');
    HelloKeeps(p, c, e, pending, c');
    InputKeeps(p, c, e, pending, c');
    OutputKeeps(p, c, e, pending, c');
    ResultKeeps(p, c, e, pending, c');
  }

  // ---------------------------------------------------------------- the invariant of all

  /** The PTY's log and the clients' own agree, and nothing the program printed is lost between. */
  ghost predicate LogsOk(s: State) {
    && All(s.readLog) + s.pending == s.produced
    && (forall who :: 0 <= who < |s.clients| ==> LogOk(s, who))
    && (forall i :: 0 <= i < |s.readLog| ==> s.readLog[i].who < |s.clients|)
    && (forall i :: 0 <= i < |s.writeLog| ==> s.writeLog[i].who < |s.clients|)
  }

  /** One client's turns are its reads, chunk for chunk, and its writes. */
  ghost predicate LogOk(s: State, who: nat)
    requires who < |s.clients|
  {
    By(s.readLog, who) == s.clients[who].got && Flat(By(s.writeLog, who)) == s.clients[who].put
  }

  ghost predicate Clients(p: Program, s: State) {
    forall who :: 0 <= who < |s.clients| ==> ClientOk(p, s.clients[who])
  }

  ghost predicate Inv(p: Program, s: State) { Clients(p, s) && LogsOk(s) }

  lemma SpawnKeeps(p: Program, s: State)
    requires Inv(p, s)
    ensures Inv(p, Step(p, s, Spawn).value)
  {
    var s' := Step(p, s, Spawn).value;
    NoTurns(s.readLog, |s.clients|);
    NoTurns(s.writeLog, |s.clients|);
    assert forall who :: 0 <= who < |s.clients| ==> LogOk(s, who) && s'.clients[who] == s.clients[who];
    assert ClientOk(p, NEW_CLIENT);
  }

  lemma ProduceKeeps(p: Program, s: State, bytes: seq<Byte>)
    requires Inv(p, s)
    ensures Inv(p, Step(p, s, Produce(bytes)).value)
  {
    var s' := Step(p, s, Produce(bytes)).value;
    Assoc(All(s.readLog), s.pending, bytes);
    forall who | 0 <= who < |s.clients| ensures LogOk(s', who) { assert LogOk(s, who); }
  }

  lemma ReadLogs(s: State, who: nat, n: nat, c: Client, s': State)
    requires LogsOk(s) && who < |s.clients| && OnRead(s.clients[who], n, s.pending) == Some(c)
    requires s' == Moved(s, who, Reads(n), c)
    ensures LogsOk(s')
  {
    var chunk := s.pending[..n];
    AllSnoc(s.readLog, Turn(who, chunk));
    CutAppend(s.pending, n, []);
    Assoc(All(s.readLog), chunk, s.pending[n..]);
    forall u | 0 <= u < |s.clients| ensures LogOk(s', u) {
      assert LogOk(s, u);
      BySnoc(s.readLog, Turn(who, chunk), u);
    }
  }

  lemma WriteLogs(s: State, who: nat, n: nat, c: Client, s': State)
    requires LogsOk(s) && who < |s.clients| && OnWrite(s.clients[who], n) == Some(c)
    requires s' == Moved(s, who, Writes(n), c)
    ensures LogsOk(s')
  {
    var bytes := s.clients[who].input.rest[..n];
    forall u | 0 <= u < |s.clients| ensures LogOk(s', u) {
      assert LogOk(s, u);
      BySnoc(s.writeLog, Turn(who, bytes), u);
      FlatSnoc(By(s.writeLog, u), bytes);
    }
  }

  lemma QuietLogs(p: Program, s: State, who: nat, e: Event, c: Client, s': State)
    requires LogsOk(s) && who < |s.clients| && ClientStep(p, s.clients[who], e, s.pending) == Some(c)
    requires !e.Reads? && !e.Writes? && s' == Moved(s, who, e, c)
    ensures LogsOk(s')
  {
    assert c.got == s.clients[who].got && c.put == s.clients[who].put;
    forall u | 0 <= u < |s.clients| ensures LogOk(s', u) { assert LogOk(s, u); }
  }

  lemma StepKeeps(p: Program, s: State, a: Action, s': State)
    requires Inv(p, s) && Step(p, s, a) == Some(s')
    ensures Inv(p, s')
  {
    match a
    case Spawn => SpawnKeeps(p, s);
    case Produce(bytes) => ProduceKeeps(p, s, bytes);
    case Of(who, e) =>
      var c := ClientStep(p, s.clients[who], e, s.pending).value;
      ClientKeeps(p, s.clients[who], e, s.pending, c);
      if e.Reads? { ReadLogs(s, who, e.n, c, s'); }
      else if e.Writes? { WriteLogs(s, who, e.n, c, s'); }
      else { QuietLogs(p, s, who, e, c, s'); }
      assert s'.clients == s.clients[who := c];
  }

  lemma {:induction false} RunInv(p: Program, states: seq<State>, actions: seq<Action>, i: nat)
    requires IsRun(p, states, actions) && i < |states|
    ensures Inv(p, states[i])
  {
    if i > 0 {
      RunInv(p, states, actions, i - 1);
      assert Follows(p, states, actions, i - 1);
      StepKeeps(p, states[i - 1], actions[i - 1], states[i]);
    }
  }

  // ---------------------------------------------------------------- output

  /** In every interleaving: what was read from the PTY is what its program printed, up to what
      is still pending, and what one client's relay read is, chunk for chunk and in order, what
      the client is sent after the hello, except that the last chunk may be on its way or lost. */
  lemma OutputConserved(p: Program, states: seq<State>, actions: seq<Action>, i: nat, who: nat, room: nat)
    requires IsRun(p, states, actions) && i < |states| && who < |states[i].clients|
    ensures var s, c, chunks := states[i], states[i].clients[who], By(states[i].readLog, who);
            && All(s.readLog) + s.pending == s.produced
            && |chunks| == (if c.sent == [] then 0 else |c.sent| - 1) + (if Unsent(c) then 1 else 0)
            && (forall k :: 1 <= k < |c.sent| ==>
                  Receive(USER_OUTPUT, USER_LIMITS, c.sent[k], room) == Success(SessionOutput(chunks[k - 1])))
            && (forall k :: 0 <= k < |chunks| ==> |chunks[k]| <= 1024)
  {
    RunInv(p, states, actions, i);
    var s, c := states[i], states[i].clients[who];
    assert ClientOk(p, c) && LogOk(s, who);
    forall k | 1 <= k < |c.sent|
      ensures Receive(USER_OUTPUT, USER_LIMITS, c.sent[k], room) == Success(SessionOutput(c.got[k - 1]))
    {
      ReceiveOutput(c.got[k - 1], room);
    }
  }

  lemma ReceiveOutput(chunk: seq<Byte>, room: nat)
    requires |chunk| <= RELAY_CHUNK
    ensures Receive(USER_OUTPUT, USER_LIMITS, Send(SessionOutput<Obj>(chunk)), room) == Success(SessionOutput(chunk))
  {
    var v := SessionOutput<Obj>(chunk);
    SessionOutputFits<Obj>(chunk);
    assert Handles(v.payload) == [];
    SendReceive(USER_OUTPUT, USER_LIMITS, v, room);
  }

  /** In every interleaving the clients' relays partition what is read from the PTY and what is
      written to it, byte for byte, each keeping the order: nothing is shared, and nothing that was
      printed is anywhere but pending or with one client. */
  lemma NothingSharedOrLost(p: Program, states: seq<State>, actions: seq<Action>, i: nat)
    requires IsRun(p, states, actions) && i < |states|
    ensures var s := states[i];
            && All(s.readLog) + s.pending == s.produced
            && Partitions(s.readLog, |s.clients|) && Partitions(s.writeLog, |s.clients|)
            && forall who :: 0 <= who < |s.clients| ==> LogOk(s, who)
  {
    RunInv(p, states, actions, i);
    var s := states[i];
    TurnsPartition(s.readLog, |s.clients|);
    TurnsPartition(s.writeLog, |s.clients|);
  }

  // ---------------------------------------------------------------- input

  /** All packets a client ever sent after its first, the hello. */
  function Inputs(c: Client): seq<Packet<Obj>> { if c.arrived == [] then [] else c.arrived[1..] }

  /** In every interleaving, whatever the short writes: what one client's relay wrote to the PTY
      is a prefix of the client's keyboard input; and while the relay waits for more, it is all
      of what was received, none of it refused. */
  lemma InputConserved(p: Program, states: seq<State>, actions: seq<Action>, i: nat, who: nat)
    requires IsRun(p, states, actions) && i < |states| && who < |states[i].clients|
    ensures var c, written := states[i].clients[who], Flat(By(states[i].writeLog, who));
            && written <= Typed(Inputs(c))
            && (c.input == Receiving ==> 1 <= c.taken <= |c.arrived|
                                         && written == Typed(c.arrived[1..c.taken]) && AllTyped(c.arrived[1..c.taken]))
  {
    RunInv(p, states, actions, i);
    assert ClientOk(p, states[i].clients[who]) && LogOk(states[i], who);
    WrittenIsTyped(states[i].clients[who]);
  }

  lemma WrittenIsTyped(c: Client)
    requires PhaseOk(c) && InputOk(c)
    ensures c.put <= Typed(Inputs(c))
    ensures c.input == Receiving ==> 1 <= c.taken <= |c.arrived|
                                     && c.put == Typed(c.arrived[1..c.taken]) && AllTyped(c.arrived[1..c.taken])
  {
    PutIsPrefix(c);
    if 1 <= c.taken {
      TypedPrefix(Inputs(c), c.taken - 1);
      assert Inputs(c)[..c.taken - 1] == TakenInputs(c);
    }
  }

  lemma PutIsPrefix(c: Client)
    requires InputOk(c)
    ensures c.put <= Typed(TakenInputs(c))
  {
  }
}
