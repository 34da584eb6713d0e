/**
  The message types of the three protocols as schemas, their declared limits, and what the
  limits mean for the sizes that can occur.
*/
module Proto {
  import opened Wrappers
  import opened Wire
  import opened Ancillary
  import opened Packets

  const DEFAULT_MAX_SIZE: nat := 8192
  const RELAY_CHUNK: nat := 1024

  // ---------------------------------------------------------------- intents

  function Ascii(text: string): (b: seq<Byte>)
    ensures |b| == |text|
  {
    seq(|text|, i requires 0 <= i < |text| => (text[i] as int) % 256)
  }

  const SESSIONS_CLIENT := Ascii("tere 2021-07-01T19:41:51 sessions client")
  const SESSIONS_SERVER := Ascii("tere 2021-07-01T19:42:20 sessions server")
  const PTY_CLIENT := Ascii("tere 2021-06-11T21:34:03 pty client")
  const PTY_SERVER := Ascii("tere 2021-06-11T21:35:37 pty server")
  const USER_CLIENT := Ascii("tere 2021-06-22T12:12:30 pty_user client")
  const USER_SERVER := Ascii("tere 2021-06-22T12:12:51 pty_user server")

  // ---------------------------------------------------------------- schemas

  const HANDSHAKE: Schema := Pair(Bytes, Pair(Raw(32), Unit))
  const HANDSHAKE_LIMITS := Limits(DEFAULT_MAX_SIZE, 0)

  /** The dummy byte and the descriptor that `Init` and `NewClient` are made of. */
  const BYTE_AND_FD: Schema := Pair(U8, Pair(FdLeaf, Unit))

  const INIT: Schema := BYTE_AND_FD
  const INIT_LIMITS := Limits(1, 1)

  const PTY_REQUEST: Schema := Enum([BYTE_AND_FD])
  const PTY_REQUEST_LIMITS := Limits(DEFAULT_MAX_SIZE, 1)

  const STRINGS: Schema := ListOf(Bytes)
  const MACHINE: Schema := Enum([Unit, Bytes])
  const CREATE_SHELL: Schema :=
    Pair(FdLeaf, Pair(MACHINE, Pair(Bytes, Pair(OptionOf(Bytes), Pair(OptionOf(STRINGS), Pair(OptionOf(STRINGS), Unit))))))
  const SESSIONS_REQUEST: Schema := Enum([CREATE_SHELL])
  const SESSIONS_REQUEST_LIMITS := Limits(DEFAULT_MAX_SIZE, 1)

  const USER_INPUT: Schema := Enum([Bytes])
  const USER_OUTPUT: Schema := Enum([Bytes])
  const USER_LIMITS := Limits(DEFAULT_MAX_SIZE, 0)

  // ---------------------------------------------------------------- messages

  function Handshake<H>(intent: seq<Byte>, key: seq<Byte>): Value<H> { VPair(VBytes(intent), VPair(VRaw(key), VUnit)) }

  function Init<H>(pty: H): Value<H> { VPair(VU8(0), VPair(VFd(pty), VUnit)) }

  function NewClient<H>(client: H): Value<H> { VEnum(0, VPair(VU8(0), VPair(VFd(client), VUnit))) }

  function KeyboardInput<H>(bytes: seq<Byte>): Value<H> { VEnum(0, VBytes(bytes)) }

  function SessionOutput<H>(bytes: seq<Byte>): Value<H> { VEnum(0, VBytes(bytes)) }

  datatype Machine = Host | Container(name: seq<Byte>)

  function MachineValue<H>(machine: Machine): Value<H> {
    match machine
    case Host => VEnum(0, VUnit)
    case Container(name) => VEnum(1, VBytes(name))
  }

  function Texts<H>(texts: seq<seq<Byte>>): (r: seq<Value<H>>)
    ensures |r| == |texts|
  {
    if texts == [] then [] else [VBytes(texts[0])] + Texts(texts[1..])
  }

  function OptionalText<H>(text: Option<seq<Byte>>): Value<H> {
    match text case None => VNone case Some(t) => VSome(VBytes(t))
  }

  function OptionalTexts<H>(texts: Option<seq<seq<Byte>>>): Value<H> {
    match texts case None => VNone case Some(ts) => VSome(VList(Texts(ts)))
  }

  /** What a request for a shell session says beside its client. */
  datatype Shell = Shell(machine: Machine, user: seq<Byte>, program: Option<seq<Byte>>,
                         args: Option<seq<seq<Byte>>>, env: Option<seq<seq<Byte>>>)

  function CreateShellSession<H>(client: H, shell: Shell): Value<H> {
    VEnum(0, VPair(VFd(client), VPair(MachineValue(shell.machine), VPair(VBytes(shell.user),
             VPair(OptionalText(shell.program), VPair(OptionalTexts(shell.args), VPair(OptionalTexts(shell.env), VUnit)))))))
  }

  // ---------------------------------------------------------------- sizes and descriptors

  lemma ByteAndFdShape<H>(v: Value<H>)
    requires Conforms(BYTE_AND_FD, v)
    ensures v.VPair? && v.second.VPair? && v.second.first.VFd?
    ensures |Encode(v)| == 1 && Handles(v) == [v.second.first.handle]
  {
    var rest := v.second;
    assert Conforms(Pair(FdLeaf, Unit), rest);
    assert Conforms(FdLeaf, rest.first) && Conforms(Unit, rest.second);
    assert Encode(rest.first) == [] && Encode(rest.second) == [];
    assert Handles(rest.first) == [rest.first.handle] && Handles(rest.second) == [];
    assert Encode(rest) == [] && Handles(rest) == [rest.first.handle];
    assert Encode(v.first) == [v.first.n] && Handles(v.first) == [];
  }

  /** Every `Init` fills its declared size exactly and carries one descriptor. */
  lemma InitIsExact<H>(v: Value<H>)
    requires Conforms(INIT, v)
    ensures |Encode(v)| == INIT_LIMITS.maxSize && Adopts(INIT_LIMITS, Encode(v))
    ensures v.VPair? && v.second.VPair? && v.second.first.VFd?
    ensures Handles(v) == [v.second.first.handle]
  {
    ByteAndFdShape(v);
  }

  /** Every request to the pty service is two bytes and one descriptor. */
  lemma PtyRequestShape<H>(v: Value<H>)
    requires Conforms(PTY_REQUEST, v)
    ensures v.payload.VPair? && v.payload.second.VPair? && v.payload.second.first.VFd?
    ensures |Encode(v)| == 2 && Handles(v) == [v.payload.second.first.handle]
  {
    assert v.index == 0 && Conforms(BYTE_AND_FD, v.payload);
    ByteAndFdShape(v.payload);
  }

  /** No descriptor can occur in a value of this shape. */
  predicate NoFds(s: Schema) {
    match s
    case FdLeaf => false
    case ListOf(e) => NoFds(e)
    case OptionOf(e) => NoFds(e)
    case Enum(vs) => forall i :: 0 <= i < |vs| ==> NoFds(vs[i])
    case Pair(a, b) => NoFds(a) && NoFds(b)
    case _ => true
  }

  lemma {:induction false} NoFdsNoHandles<H>(s: Schema, v: Value<H>)
    requires NoFds(s) && Conforms(s, v)
    ensures Handles(v) == []
    decreases v, 1
  {
    match s
    case ListOf(e) => NoFdsNoHandlesAll(e, v.items);
    case OptionOf(e) => if v.VSome? { NoFdsNoHandles(e, v.inner); }
    case Enum(vs) => NoFdsNoHandles(vs[v.index], v.payload);
    case Pair(a, b) => NoFdsNoHandles(a, v.first); NoFdsNoHandles(b, v.second);
    case _ =>
  }

  lemma {:induction false} NoFdsNoHandlesAll<H>(e: Schema, vs: seq<Value<H>>)
    requires NoFds(e) && forall i :: 0 <= i < |vs| ==> Conforms(e, vs[i])
    ensures HandlesAll(vs) == []
    decreases vs, 0
  {
    if vs != [] {
      NoFdsNoHandles(e, vs[0]);
      NoFdsNoHandlesAll(e, vs[1..]);
    }
  }

  lemma CreateShellShape<H>(c: Value<H>)
    requires Conforms(CREATE_SHELL, c)
    ensures c.VPair? && c.first.VFd? && Handles(c) == [c.first.handle]
  {
    assert NoFds(STRINGS) && NoFds(MACHINE);
    assert NoFds(Pair(OptionOf(STRINGS), Pair(OptionOf(STRINGS), Unit)));
    assert NoFds(Pair(Bytes, Pair(OptionOf(Bytes), Pair(OptionOf(STRINGS), Pair(OptionOf(STRINGS), Unit)))));
    NoFdsNoHandles(CREATE_SHELL.second, c.second);
    assert Handles(c.first) == [c.first.handle];
  }

  /** A session request carries exactly the client's descriptor, whatever else it says. */
  lemma SessionsRequestShape<H>(v: Value<H>)
    requires Conforms(SESSIONS_REQUEST, v)
    ensures v.payload.VPair? && v.payload.first.VFd?
    ensures Handles(v) == [v.payload.first.handle]
  {
    assert v.index == 0 && Conforms(CREATE_SHELL, v.payload);
    CreateShellShape(v.payload);
  }

  /** A handshake is an intent and a digest. */
  lemma HandshakeShape<H>(v: Value<H>)
    requires Conforms(HANDSHAKE, v)
    ensures v.VPair? && v.first.VBytes? && v.second.VPair? && v.second.first.VRaw? && |v.second.first.raw| == 32
    ensures v == Handshake(v.first.bytes, v.second.first.raw) && Handles(v) == []
  {
    assert Conforms(Bytes, v.first);
    assert Conforms(Pair(Raw(32), Unit), v.second);
    assert Conforms(Raw(32), v.second.first) && Conforms(Unit, v.second.second);
    NoFdsNoHandles(HANDSHAKE.second, v.second);
  }

  lemma MapHandshake<H, K>(f: H -> K, intent: seq<Byte>, key: seq<Byte>)
    ensures MapValue(f, Handshake(intent, key)) == Handshake(intent, key)
  {
    assert MapValue(f, VPair(VRaw(key), VUnit)) == VPair(VRaw(key), VUnit);
  }

  /** A chunk read from the PTY always fits one packet, and is never mistaken for the end of the stream. */
  lemma SessionOutputFits<H>(chunk: seq<Byte>)
    requires |chunk| <= RELAY_CHUNK
    ensures Conforms(USER_OUTPUT, SessionOutput<H>(chunk)) && Adopts(USER_LIMITS, Encode(SessionOutput<H>(chunk)))
  {
  }

  /** Keyboard input arrives whole exactly when it is at most 8188 bytes; longer input is refused. */
  lemma KeyboardInputLimit(input: seq<Byte>, room: nat)
    requires |input| < U64
    ensures Receive(USER_INPUT, USER_LIMITS, Send(KeyboardInput<Obj>(input)), room)
            == if |input| <= 8188 then Success(KeyboardInput(input)) else Failure(TooLarge)
  {
    var v := KeyboardInput<Obj>(input);
    assert Handles(v.payload) == [] && Encode(v.payload) == EncodeVarint(|input|) + input;
    assert EncodeVarint(0) == [0];
    assert |ToLe(|input|, 2)| == 2 && |ToLe(|input|, 4)| == 4 && |ToLe(|input|, 8)| == 8;
    if |input| <= 8188 {
      SendReceive(USER_INPUT, USER_LIMITS, v, room);
    }
  }

  /** Reading what was sent as `Init` at the step that expects an `Init`. */
  lemma ReceiveInit(pty: Obj, room: nat)
    requires room >= 1
    ensures Receive(INIT, INIT_LIMITS, Send(Init(pty)), room) == Success(Init(pty))
  {
    var v := Init(pty);
    assert Conforms<Obj>(Unit, VUnit);
    assert Conforms(Pair(FdLeaf, Unit), v.second);
    InitIsExact(v);
    SlotsPadded(1);
    SendReceive(INIT, INIT_LIMITS, v, room);
  }

  /** Reading what was sent as `NewClient` at the step that expects a request. */
  lemma ReceiveNewClient(client: Obj, room: nat)
    requires room >= 1
    ensures Receive(PTY_REQUEST, PTY_REQUEST_LIMITS, Send(NewClient(client)), room) == Success(NewClient(client))
  {
    var v := NewClient(client);
    assert Conforms<Obj>(Unit, VUnit);
    assert Conforms(Pair(FdLeaf, Unit), v.payload.second);
    assert Conforms(BYTE_AND_FD, v.payload);
    PtyRequestShape(v);
    SlotsPadded(1);
    SendReceive(PTY_REQUEST, PTY_REQUEST_LIMITS, v, room);
  }

  /** Reading a handshake where one is expected. */
  lemma ReceiveHandshake(intent: seq<Byte>, key: seq<Byte>, room: nat)
    requires |intent| <= 1000 && |key| == 32
    ensures Receive(HANDSHAKE, HANDSHAKE_LIMITS, Send(Handshake<Obj>(intent, key)), room) == Success(Handshake(intent, key))
  {
    var v := Handshake<Obj>(intent, key);
    assert Conforms<Obj>(Unit, VUnit);
    assert Conforms(Pair(Raw(32), Unit), v.second);
    assert Encode(v.second) == key && Handles(v.second) == [];
    SendReceive(HANDSHAKE, HANDSHAKE_LIMITS, v, room);
  }
}
