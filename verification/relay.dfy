/**
  Any number of relays between clients and one PTY. Every relay handshakes with its client and
  then runs two threads: one receives keyboard input and writes it to the PTY, the other reads
  the PTY's output and sends it on. When the output thread ends, the relay shuts the read side
  of its socket down and waits for the input thread. All threads of all relays interleave.
*/
module Relays {
  import opened Wrappers
  import opened Wire
  import opened Packets
  import opened Proto
  import opened Handshakes

  /** What the pty process was built from. */
  datatype Program = Program(kdf: Kdf, build: seq<Byte>)

  datatype ServeError =
    | BadHandshake(why: HandshakeError)
    | BadReceive(error: ReceiveError)
    | BadSend
    | BadShutdown
    | BadPty

  datatype Main =
    | AwaitHello
    | Greeting
    | JoinOutput
    | JoinInput
    | Returned(result: Result<(), ServeError>)

  datatype Input = InputIdle | Receiving | Writing(rest: seq<Byte>) | InputDone(result: Result<(), ServeError>)

  datatype Output = OutputIdle | Reading | Sending(chunk: seq<Byte>) | OutputDone(result: Result<(), ServeError>)

  /** One relay with its socket: all packets the client ever sent and how many of them were
      received, all packets sent to it, and all its threads read from and wrote to the PTY. */
  datatype Client = Client(
    main: Main, input: Input, output: Output,
    arrived: seq<Packet<Obj>>, taken: nat, ended: bool, shut: bool,
    sent: seq<Packet<Obj>>, got: seq<seq<Byte>>, put: seq<Byte>)

  datatype Event =
    | PeerSends(packet: Packet<Obj>)
    | PeerCloses
    | TakesHello(room: nat)
    | Greets(accepted: bool)
    | Receives
    | ReceiveBreaks
    | Writes(n: nat)
    | WriteBreaks
    | Written
    | Reads(n: nat)
    | ReadBreaks(eio: bool)
    | Sends(accepted: bool)
    | JoinsOutput(accepted: bool)
    | JoinsInput

  /** A read or a write of one client's relay on the PTY. */
  datatype Turn = Turn(who: nat, bytes: seq<Byte>)

  /** The shared PTY: all its program ever printed, what of it nobody read yet, and the reads
      and writes in their order. */
  datatype State = State(clients: seq<Client>, produced: seq<Byte>, pending: seq<Byte>, readLog: seq<Turn>, writeLog: seq<Turn>)

  datatype Action = Spawn | Produce(bytes: seq<Byte>) | Of(who: nat, event: Event)

  // ---------------------------------------------------------------- receiving

  /** What `recvmsg` can deliver now; it would block otherwise. */
  predicate Receivable(c: Client) { c.taken < |c.arrived| || c.ended || c.shut }

  function NextPacket(c: Client): Packet<Obj> {
    if c.taken < |c.arrived| then c.arrived[c.taken] else Packet([], [])
  }

  /** How many packets are received once the next one is. */
  function TakenNext(c: Client): nat {
    if c.taken < |c.arrived| then c.taken + 1 else c.taken
  }

  /** Reading a packet of the input direction. It has no room for descriptors, so nothing
      depends on how many the process may still open. */
  function ReceiveInput(p: Packet<Obj>): (r: Result<seq<Byte>, ReceiveError>)
    ensures r.Success? ==> |r.value| <= |p.data|
  {
    match Receive(USER_INPUT, USER_LIMITS, p, 0)
    case Failure(e) => Failure(e)
    case Success(v) =>
      AcceptedIsMessage(USER_INPUT, USER_LIMITS, p, 0);
      KeyboardInputShape(v);
      Success(v.payload.bytes)
  }

  lemma KeyboardInputShape<H>(v: Value<H>)
    requires Conforms(USER_INPUT, v)
    ensures v.VEnum? && v.payload.VBytes? && |v.payload.bytes| <= |Encode(v)|
    ensures v == KeyboardInput(v.payload.bytes)
  {
    assert v.index == 0 && Conforms(Bytes, v.payload);
    assert Encode(v.payload) == EncodeVarint(|v.payload.bytes|) + v.payload.bytes;
  }

  lemma RoomDoesNotMatter(p: Packet<Obj>, room: nat)
    ensures Receive(USER_INPUT, USER_LIMITS, p, room) == Receive(USER_INPUT, USER_LIMITS, p, 0)
  {
  }

  // ---------------------------------------------------------------- one relay

  const NEW_CLIENT := Client(AwaitHello, InputIdle, OutputIdle, [], 0, false, false, [], [], [])

  function OnHello(p: Program, c: Client, room: nat): Option<Client> {
    if c.main != AwaitHello || !Receivable(c) then None
    else
      var verdict := JudgePacket(p.kdf, USER_CLIENT, p.build, NextPacket(c), room);
      Some(c.(taken := TakenNext(c),
              main := if verdict.Success? then Greeting else Returned(Failure(BadHandshake(verdict.error)))))
  }

  /** Answer the hello and start both threads. */
  function OnGreet(p: Program, c: Client, accepted: bool): Option<Client> {
    if c.main != Greeting then None
    else if !accepted then Some(c.(main := Returned(Failure(BadHandshake(SendFailed)))))
    else Some(c.(main := JoinOutput, input := Receiving, output := Reading, sent := c.sent + [Send(Hello(p.kdf, USER_SERVER, p.build))]))
  }

  function OnReceive(c: Client): Option<Client> {
    if c.input != Receiving || !Receivable(c) then None
    else Some(c.(taken := TakenNext(c), input := AfterReceive(ReceiveInput(NextPacket(c)))))
  }

  function AfterReceive(r: Result<seq<Byte>, ReceiveError>): Input {
    match r
    case Success(keys) => Writing(keys)
    case Failure(e) => InputDone(Failure(BadReceive(e)))
  }

  /** `recvmsg` itself fails, for the hello or for keyboard input. */
  function OnBreak(c: Client): Option<Client> {
    if c.main == AwaitHello then Some(c.(main := Returned(Failure(BadHandshake(ReceiveFailed(Socket))))))
    else if c.input == Receiving then Some(c.(input := InputDone(Failure(BadReceive(Socket)))))
    else None
  }

  /** A `write` takes some of what is left, at least one byte. */
  function OnWrite(c: Client, n: nat): Option<Client> {
    if !c.input.Writing? || !(0 < n <= |c.input.rest|) then None
    else Some(c.(input := Writing(c.input.rest[n..]), put := c.put + c.input.rest[..n]))
  }

  /** A `read` returns some of what the PTY has, at most the buffer's size. */
  function OnRead(c: Client, n: nat, pending: seq<Byte>): Option<Client> {
    if c.output != Reading || n > |pending| || n > RELAY_CHUNK then None
    else Some(c.(output := Sending(pending[..n]), got := c.got + [pending[..n]]))
  }

  function OnSend(c: Client, accepted: bool): Option<Client> {
    if !c.output.Sending? then None
    else if !accepted then Some(c.(output := OutputDone(Failure(BadSend))))
    else Some(c.(output := Reading, sent := c.sent + [Send(SessionOutput(c.output.chunk))]))
  }

  /** The output thread ended, however: shut the read side down. */
  function OnJoinOutput(c: Client, accepted: bool): Option<Client> {
    if c.main != JoinOutput || !c.output.OutputDone? then None
    else if !accepted then Some(c.(main := Returned(Failure(BadShutdown))))
    else Some(c.(main := JoinInput, shut := true))
  }

  function OnJoinInput(c: Client): Option<Client> {
    if c.main != JoinInput || !c.input.InputDone? then None
    else Some(c.(main := Returned(c.input.result)))
  }

  function ClientStep(p: Program, c: Client, e: Event, pending: seq<Byte>): Option<Client> {
    match e
    case PeerSends(packet) => if c.ended || c.shut then None else Some(c.(arrived := c.arrived + [packet]))
    case PeerCloses => Some(c.(ended := true))
    case TakesHello(room) => OnHello(p, c, room)
    case Greets(accepted) => OnGreet(p, c, accepted)
    case Receives => OnReceive(c)
    case ReceiveBreaks => OnBreak(c)
    case Writes(n) => OnWrite(c, n)
    case WriteBreaks =>
      if c.input.Writing? && c.input.rest != [] then Some(c.(input := InputDone(Failure(BadPty)))) else None
    case Written => if c.input == Writing([]) then Some(c.(input := Receiving)) else None
    case Reads(n) => OnRead(c, n, pending)
    case ReadBreaks(eio) =>
      if c.output != Reading then None
      else Some(c.(output := OutputDone(if eio then Success(()) else Failure(BadPty))))
    case Sends(accepted) => OnSend(c, accepted)
    case JoinsOutput(accepted) => OnJoinOutput(c, accepted)
    case JoinsInput => OnJoinInput(c)
  }

  // ---------------------------------------------------------------- all relays

  function Step(p: Program, s: State, a: Action): Option<State> {
    match a
    case Spawn => Some(s.(clients := s.clients + [NEW_CLIENT]))
    case Produce(bytes) => Some(s.(produced := s.produced + bytes, pending := s.pending + bytes))
    case Of(who, e) =>
      if who >= |s.clients| then None
      else match ClientStep(p, s.clients[who], e, s.pending)
           case None => None
           case Some(c) => Some(Moved(s, who, e, c))
  }

  /** Client `who` became `c` by `e`; a read or a write is also one of the PTY. */
  function Moved(s: State, who: nat, e: Event, c: Client): State
    requires who < |s.clients|
  {
    var s1 := s.(clients := s.clients[who := c]);
    match e
    case Reads(n) =>
      if n > |s.pending| then s1
      else s1.(pending := s.pending[n..], readLog := s.readLog + [Turn(who, s.pending[..n])])
    case Writes(n) =>
      if !s.clients[who].input.Writing? || n > |s.clients[who].input.rest| then s1
      else s1.(writeLog := s.writeLog + [Turn(who, s.clients[who].input.rest[..n])])
    case _ => s1
  }

  predicate Start(s: State) {
    s.clients == [] && s.produced == [] && s.pending == [] && s.readLog == [] && s.writeLog == []
  }

  predicate IsRun(p: Program, states: seq<State>, actions: seq<Action>) {
    && |states| == |actions| + 1
    && Start(states[0])
    && forall i :: 0 <= i < |actions| ==> Follows(p, states, actions, i)
  }

  predicate Follows(p: Program, states: seq<State>, actions: seq<Action>, i: nat)
    requires i < |actions| && |states| == |actions| + 1
  {
    Step(p, states[i], actions[i]) == Some(states[i + 1])
  }
}
