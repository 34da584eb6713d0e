/**
  The bytes of every message, written out, and that the receiver takes every message its sender can
  send: the shapes on both sides are the same.
*/
module Layouts {
  import opened Wrappers
  import opened Wire
  import opened Ancillary
  import opened Packets
  import opened Proto
  import opened Malformed

  // ---------------------------------------------------------------- bytes

  function TextBytes(text: seq<Byte>): seq<Byte> { EncodeVarint(|text|) + text }

  function AllTextBytes(texts: seq<seq<Byte>>): seq<Byte> {
    if texts == [] then [] else TextBytes(texts[0]) + AllTextBytes(texts[1..])
  }

  function TextsBytes(texts: seq<seq<Byte>>): seq<Byte> { EncodeVarint(|texts|) + AllTextBytes(texts) }

  function MachineBytes(machine: Machine): seq<Byte> {
    match machine case Host => [0] case Container(name) => [1] + TextBytes(name)
  }

  function OptionalBytes(present: bool, bytes: seq<Byte>): seq<Byte> { if present then [1] + bytes else [0] }

  /** The variant, then the machine, the user, and the optional program, arguments and environment;
      the client takes no byte. */
  function RequestBytes(shell: Shell): seq<Byte> {
    [0]
    + MachineBytes(shell.machine)
    + TextBytes(shell.user)
    + OptionalBytes(shell.program.Some?, if shell.program.Some? then TextBytes(shell.program.value) else [])
    + OptionalBytes(shell.args.Some?, if shell.args.Some? then TextsBytes(shell.args.value) else [])
    + OptionalBytes(shell.env.Some?, if shell.env.Some? then TextsBytes(shell.env.value) else [])
  }

  lemma {:induction false} TextsLayout<H>(texts: seq<seq<Byte>>)
    ensures EncodeAll(Texts<H>(texts)) == AllTextBytes(texts) && HandlesAll(Texts<H>(texts)) == []
    ensures |AllTextBytes(texts)| >= |texts|
    ensures forall t :: t in texts ==> |t| <= |AllTextBytes(texts)|
  {
    if texts != [] {
      TextsLayout<H>(texts[1..]);
      assert Texts<H>(texts)[1..] == Texts<H>(texts[1..]);
      assert texts == [texts[0]] + texts[1..];
    }
  }

  lemma OptionalTextsLayout<H>(texts: Option<seq<seq<Byte>>>)
    ensures var v := OptionalTexts<H>(texts);
            && Encode(v) == OptionalBytes(texts.Some?, if texts.Some? then TextsBytes(texts.value) else [])
            && Handles(v) == []
  {
    if texts.Some? {
      TextsLayout<H>(texts.value);
      var list: Value<H> := VList(Texts(texts.value));
      assert Encode(list) == TextsBytes(texts.value) && Handles(list) == [];
    }
  }

  lemma OptionalTextLayout<H>(text: Option<seq<Byte>>)
    ensures var v := OptionalText<H>(text);
            && Encode(v) == OptionalBytes(text.Some?, if text.Some? then TextBytes(text.value) else [])
            && Handles(v) == []
  {
    if text.Some? {
      var t: Value<H> := VBytes(text.value);
      assert Encode(t) == TextBytes(text.value) && Handles(t) == [];
    }
  }

  lemma MachineLayout<H>(machine: Machine)
    ensures Encode(MachineValue<H>(machine)) == MachineBytes(machine) && Handles(MachineValue<H>(machine)) == []
  {
    match machine
    case Host => assert Encode<H>(VUnit) == [] && Handles<H>(VUnit) == [];
    case Container(name) =>
      var t: Value<H> := VBytes(name);
      assert Encode(t) == TextBytes(name) && Handles(t) == [];
  }

  lemma PairLayout<H>(x: Value<H>, y: Value<H>)
    ensures Encode(VPair(x, y)) == Encode(x) + Encode(y) && Handles(VPair(x, y)) == Handles(x) + Handles(y)
  {
  }

  lemma Regroup(v: seq<Byte>, a: seq<Byte>, b: seq<Byte>, c: seq<Byte>, d: seq<Byte>, e: seq<Byte>)
    ensures v + (a + (b + (c + (d + e)))) == v + a + b + c + d + e
  {
  }

  /** A request is sent as those bytes and its client. */
  lemma RequestLayout<H>(client: H, shell: Shell)
    ensures Send(CreateShellSession(client, shell)) == Packet(RequestBytes(shell), [client])
  {
    var e: Value<H>, d: Value<H> := VPair(OptionalTexts(shell.env), VUnit), VPair(OptionalTexts(shell.args), VPair(OptionalTexts(shell.env), VUnit));
    var c: Value<H> := VPair(OptionalText(shell.program), d);
    var b: Value<H> := VPair(VBytes(shell.user), c);
    var a: Value<H> := VPair(MachineValue(shell.machine), b);
    TailLayout<H>(shell);
    MachineLayout<H>(shell.machine);
    PairLayout(MachineValue<H>(shell.machine), b);
    PairLayout(VFd(client), a);
    assert Encode(VFd(client)) == [] && Handles(VFd(client)) == [client];
    HeadLayout(client, shell, a);
  }

  lemma HeadLayout<H>(client: H, shell: Shell, a: Value<H>)
    requires CreateShellSession(client, shell) == VEnum(0, VPair(VFd(client), a))
    requires Encode(a) == MachineBytes(shell.machine) + AfterMachine(shell) && Handles(a) == []
    ensures Send(CreateShellSession(client, shell)) == Packet(RequestBytes(shell), [client])
  {
    PairLayout(VFd(client), a);
    assert Encode(VFd(client)) == [] && Handles(VFd(client)) == [client];
    assert EncodeVarint(0) == [0];
    Regroup([0], MachineBytes(shell.machine), TextBytes(shell.user),
            OptionalBytes(shell.program.Some?, if shell.program.Some? then TextBytes(shell.program.value) else []),
            OptionalBytes(shell.args.Some?, if shell.args.Some? then TextsBytes(shell.args.value) else []),
            OptionalBytes(shell.env.Some?, if shell.env.Some? then TextsBytes(shell.env.value) else []));
    assert [] + Encode(a) == Encode(a) && [client] + [] == [client];
  }

  function AfterMachine(shell: Shell): seq<Byte> {
    TextBytes(shell.user)
    + (OptionalBytes(shell.program.Some?, if shell.program.Some? then TextBytes(shell.program.value) else [])
       + (OptionalBytes(shell.args.Some?, if shell.args.Some? then TextsBytes(shell.args.value) else [])
          + OptionalBytes(shell.env.Some?, if shell.env.Some? then TextsBytes(shell.env.value) else [])))
  }

  lemma TailLayout<H>(shell: Shell)
    ensures var e: Value<H> := VPair(OptionalTexts(shell.env), VUnit);
            var d := VPair(OptionalTexts(shell.args), e);
            var c := VPair(OptionalText(shell.program), d);
            var b := VPair(VBytes(shell.user), c);
            Encode(b) == AfterMachine(shell) && Handles(b) == []
  {
    var e: Value<H> := VPair(OptionalTexts(shell.env), VUnit);
    var d := VPair(OptionalTexts(shell.args), e);
    var c := VPair(OptionalText(shell.program), d);
    OptionalTextsLayout<H>(shell.env);
    OptionalTextsLayout<H>(shell.args);
    OptionalTextLayout<H>(shell.program);
    PairLayout(OptionalTexts<H>(shell.env), VUnit);
    PairLayout(OptionalTexts<H>(shell.args), e);
    PairLayout(OptionalText<H>(shell.program), d);
    PairLayout(VBytes(shell.user), c);
    assert Encode<H>(VUnit) == [] && Handles<H>(VUnit) == [];
    assert Encode(e) == Encode(OptionalTexts<H>(shell.env));
    assert Encode<H>(VBytes(shell.user)) == TextBytes(shell.user) && Handles<H>(VBytes(shell.user)) == [];
  }

  // ---------------------------------------------------------------- requests are accepted

  lemma TextsConform<H>(texts: seq<seq<Byte>>)
    requires |AllTextBytes(texts)| < U64
    ensures Conforms(STRINGS, VList(Texts<H>(texts)))
  {
    TextsLayout<H>(texts);
    TextsAt<H>(texts);
  }

  lemma {:induction false} TextsAt<H>(texts: seq<seq<Byte>>)
    ensures forall i :: 0 <= i < |texts| ==> Texts<H>(texts)[i] == VBytes(texts[i])
  {
    if texts != [] { TextsAt<H>(texts[1..]); }
  }

  lemma OptionalTextsConform<H>(texts: Option<seq<seq<Byte>>>)
    requires texts.Some? ==> |AllTextBytes(texts.value)| < U64
    ensures Conforms(OptionOf(STRINGS), OptionalTexts<H>(texts))
  {
    if texts.Some? { TextsConform<H>(texts.value); }
  }

  lemma OptionsConform<H>(shell: Shell)
    requires |RequestBytes(shell)| < U64
    ensures Conforms(CREATE_SHELL.second.second.second,
                     VPair(OptionalText<H>(shell.program), VPair(OptionalTexts(shell.args), VPair(OptionalTexts(shell.env), VUnit))))
  {
    OptionalTextsConform<H>(shell.env);
    OptionalTextsConform<H>(shell.args);
    var e: Value<H> := VPair(OptionalTexts(shell.env), VUnit);
    assert Conforms<H>(Unit, VUnit);
    assert Conforms(Pair(OptionOf(STRINGS), Unit), e);
    assert Conforms(Pair(OptionOf(STRINGS), Pair(OptionOf(STRINGS), Unit)), VPair(OptionalTexts(shell.args), e));
    assert Conforms(OptionOf(Bytes), OptionalText<H>(shell.program));
  }

  lemma RequestConforms<H>(client: H, shell: Shell)
    requires |RequestBytes(shell)| < U64
    ensures Conforms(SESSIONS_REQUEST, CreateShellSession(client, shell))
  {
    OptionsConform<H>(shell);
    var v: Value<H> := CreateShellSession(client, shell);
    var c: Value<H> := VPair(OptionalText(shell.program), VPair(OptionalTexts(shell.args), VPair(OptionalTexts(shell.env), VUnit)));
    assert Conforms(CREATE_SHELL.second.second, VPair(VBytes(shell.user), c));
    assert Conforms(MACHINE, MachineValue<H>(shell.machine));
    assert Conforms(CREATE_SHELL.second, VPair(MachineValue(shell.machine), VPair(VBytes(shell.user), c)));
    assert Conforms(CREATE_SHELL, v.payload);
  }

  /** Every request that can be sent, of whatever machine, user, program, arguments and environment,
      is received as itself exactly if it is at most 8192 bytes long; otherwise it is too large. */
  lemma RequestAccepted(client: Obj, shell: Shell, room: nat)
    requires room >= 1
    ensures Receive(SESSIONS_REQUEST, SESSIONS_REQUEST_LIMITS, Packet(RequestBytes(shell), [client]), room)
            == if |RequestBytes(shell)| <= 8192 then Success(CreateShellSession(client, shell)) else Failure(TooLarge)
  {
    var v := CreateShellSession(client, shell);
    RequestLayout(client, shell);
    assert |RequestBytes(shell)| > 0;
    SlotsPadded(1);
    if |RequestBytes(shell)| <= 8192 {
      RequestConforms(client, shell);
      assert Encode(v) == Send(v).data && Handles(v) == Send(v).handles;
      SendReceive(SESSIONS_REQUEST, SESSIONS_REQUEST_LIMITS, v, room);
    } else {
      SizeRefused(SESSIONS_REQUEST, SESSIONS_REQUEST_LIMITS, Packet(RequestBytes(shell), [client]), room);
    }
  }

  /** The shortest: no container, a user of one letter, nothing optional. */
  lemma ShortestRequest(user: Byte)
    ensures RequestBytes(Shell(Host, [user], None, None, None)) == [0, 0, 1, user, 0, 0, 0]
  {
  }

  // ---------------------------------------------------------------- and nothing else is

  /** The texts of a list of texts. */
  function TextsOf<H>(vs: seq<Value<H>>): (texts: seq<seq<Byte>>)
    requires forall i :: 0 <= i < |vs| ==> vs[i].VBytes?
    ensures |texts| == |vs|
  {
    if vs == [] then [] else [vs[0].bytes] + TextsOf(vs[1..])
  }

  lemma {:induction false} TextsAreTexts<H>(vs: seq<Value<H>>)
    requires forall i :: 0 <= i < |vs| ==> vs[i].VBytes?
    ensures Texts<H>(TextsOf(vs)) == vs
  {
    if vs != [] {
      TextsAreTexts(vs[1..]);
      assert TextsOf(vs)[1..] == TextsOf(vs[1..]);
      assert vs == [vs[0]] + vs[1..];
    }
  }

  lemma IsOptionalTexts<H>(v: Value<H>) returns (texts: Option<seq<seq<Byte>>>)
    requires Conforms(OptionOf(STRINGS), v)
    ensures v == OptionalTexts(texts)
  {
    if v.VNone? { return None; }
    assert Conforms(STRINGS, v.inner);
    assert forall i :: 0 <= i < |v.inner.items| ==> Conforms(Bytes, v.inner.items[i]);
    TextsAreTexts(v.inner.items);
    return Some(TextsOf(v.inner.items));
  }

  lemma IsOptionalText<H>(v: Value<H>) returns (text: Option<seq<Byte>>)
    requires Conforms(OptionOf(Bytes), v)
    ensures v == OptionalText(text)
  {
    if v.VNone? { return None; }
    assert Conforms(Bytes, v.inner);
    return Some(v.inner.bytes);
  }

  lemma IsMachine<H>(v: Value<H>) returns (machine: Machine)
    requires Conforms(MACHINE, v)
    ensures v == MachineValue(machine)
  {
    if v.index == 0 {
      assert Conforms(Unit, v.payload);
      return Host;
    }
    assert Conforms(Bytes, v.payload);
    return Container(v.payload.bytes);
  }

  /** Every value of the request type is a request, of some machine, user, program, arguments and
      environment. */
  lemma IsRequest<H>(v: Value<H>) returns (client: H, shell: Shell)
    requires Conforms(SESSIONS_REQUEST, v)
    ensures v == CreateShellSession(client, shell)
  {
    var f0 := v.payload;
    assert v.index == 0 && Conforms(CREATE_SHELL, f0);
    var f1 := f0.second;
    assert Conforms(CREATE_SHELL.second, f1);
    var f2 := f1.second;
    assert Conforms(CREATE_SHELL.second.second, f2);
    var f3 := f2.second;
    assert Conforms(CREATE_SHELL.second.second.second, f3);
    var f4 := f3.second;
    assert Conforms(Pair(OptionOf(STRINGS), Pair(OptionOf(STRINGS), Unit)), f4);
    var f5 := f4.second;
    assert Conforms(Pair(OptionOf(STRINGS), Unit), f5);
    assert Conforms(Unit, f5.second) && Conforms(Bytes, f2.first) && Conforms(FdLeaf, f0.first);
    var machine := IsMachine(f1.first);
    var program := IsOptionalText(f3.first);
    var args := IsOptionalTexts(f4.first);
    var env := IsOptionalTexts(f5.first);
    client, shell := f0.first.handle, Shell(machine, f2.first.bytes, program, args, env);
  }

  /** So whatever packet the service takes up is some request for a session, whose client is the
      packet's descriptor and whose own bytes are no longer than the packet's. */
  lemma AcceptedIsRequest(p: Packet<Obj>, room: nat) returns (client: Obj, shell: Shell)
    requires Receive(SESSIONS_REQUEST, SESSIONS_REQUEST_LIMITS, p, room).Success?
    ensures Receive(SESSIONS_REQUEST, SESSIONS_REQUEST_LIMITS, p, room) == Success(CreateShellSession(client, shell))
    ensures p.handles == [client] && |RequestBytes(shell)| <= |p.data| <= 8192
  {
    var v := Receive(SESSIONS_REQUEST, SESSIONS_REQUEST_LIMITS, p, room).value;
    AcceptedIsMessage(SESSIONS_REQUEST, SESSIONS_REQUEST_LIMITS, p, room);
    client, shell := IsRequest(v);
    RequestLayout(client, shell);
    assert Encode(v) == Send(v).data && Handles(v) == Send(v).handles;
  }

  /** And the same of the other messages: there are no other variants, and no other fields. */
  lemma AcceptedIsOne(p: Packet<Obj>, room: nat)
    ensures var r := Receive(INIT, INIT_LIMITS, p, room);
            r.Success? ==> exists dummy: Byte, pty :: r.value == VPair(VU8(dummy), VPair(VFd(pty), VUnit)) && p.handles == [pty]
    ensures var r := Receive(PTY_REQUEST, PTY_REQUEST_LIMITS, p, room);
            r.Success? ==> exists dummy: Byte, client ::
                             r.value == VEnum(0, VPair(VU8(dummy), VPair(VFd(client), VUnit))) && p.handles == [client]
    ensures var r := Receive(USER_INPUT, USER_LIMITS, p, room);
            r.Success? ==> exists bytes :: r.value == KeyboardInput(bytes) && p.handles == []
    ensures var r := Receive(USER_OUTPUT, USER_LIMITS, p, room);
            r.Success? ==> exists bytes :: r.value == SessionOutput(bytes) && p.handles == []
  {
    InitIsOne(p, room);
    NewClientIsOne(p, room);
    InputIsOne(p, room);
    OutputIsOne(p, room);
  }

  lemma IsByteAndFd<H>(v: Value<H>) returns (dummy: Byte, fd: H)
    requires Conforms(BYTE_AND_FD, v)
    ensures v == VPair(VU8(dummy), VPair(VFd(fd), VUnit)) && Handles(v) == [fd]
  {
    ByteAndFdShape(v);
    assert Conforms(U8, v.first) && Conforms(Pair(FdLeaf, Unit), v.second);
    assert Conforms(Unit, v.second.second);
    dummy, fd := v.first.n, v.second.first.handle;
  }

  lemma InitIsOne(p: Packet<Obj>, room: nat)
    ensures var r := Receive(INIT, INIT_LIMITS, p, room);
            r.Success? ==> exists dummy: Byte, pty :: r.value == VPair(VU8(dummy), VPair(VFd(pty), VUnit)) && p.handles == [pty]
  {
    var r := Receive(INIT, INIT_LIMITS, p, room);
    if r.Success? {
      AcceptedIsMessage(INIT, INIT_LIMITS, p, room);
      var dummy, pty := IsByteAndFd(r.value);
    }
  }

  lemma NewClientIsOne(p: Packet<Obj>, room: nat)
    ensures var r := Receive(PTY_REQUEST, PTY_REQUEST_LIMITS, p, room);
            r.Success? ==> exists dummy: Byte, client ::
                             r.value == VEnum(0, VPair(VU8(dummy), VPair(VFd(client), VUnit))) && p.handles == [client]
  {
    var r := Receive(PTY_REQUEST, PTY_REQUEST_LIMITS, p, room);
    if r.Success? {
      AcceptedIsMessage(PTY_REQUEST, PTY_REQUEST_LIMITS, p, room);
      assert r.value.index == 0 && Conforms(BYTE_AND_FD, r.value.payload);
      var dummy, client := IsByteAndFd(r.value.payload);
    }
  }

  lemma InputIsOne(p: Packet<Obj>, room: nat)
    ensures var r := Receive(USER_INPUT, USER_LIMITS, p, room);
            r.Success? ==> exists bytes :: r.value == KeyboardInput(bytes) && p.handles == []
  {
    var r := Receive(USER_INPUT, USER_LIMITS, p, room);
    if r.Success? {
      AcceptedIsMessage(USER_INPUT, USER_LIMITS, p, room);
      assert r.value.index == 0 && Conforms(Bytes, r.value.payload);
      assert r.value == KeyboardInput(r.value.payload.bytes) && Handles(r.value.payload) == [];
    }
  }

  lemma OutputIsOne(p: Packet<Obj>, room: nat)
    ensures var r := Receive(USER_OUTPUT, USER_LIMITS, p, room);
            r.Success? ==> exists bytes :: r.value == SessionOutput(bytes) && p.handles == []
  {
    var r := Receive(USER_OUTPUT, USER_LIMITS, p, room);
    if r.Success? {
      AcceptedIsMessage(USER_OUTPUT, USER_LIMITS, p, room);
      assert r.value.index == 0 && Conforms(Bytes, r.value.payload);
      assert r.value == SessionOutput(r.value.payload.bytes) && Handles(r.value.payload) == [];
    }
  }

  // ---------------------------------------------------------------- the other messages

  /** The other messages, byte by byte. */
  lemma MessageLayout(pty: Obj, client: Obj, intent: seq<Byte>, key: seq<Byte>, bytes: seq<Byte>)
    ensures Send(Init(pty)) == Packet([0], [pty])
    ensures Send(NewClient(client)) == Packet([0, 0], [client])
    ensures Send(Handshake<Obj>(intent, key)) == Packet(TextBytes(intent) + key, [])
    ensures Send(KeyboardInput<Obj>(bytes)) == Packet([0] + TextBytes(bytes), [])
    ensures Send(SessionOutput<Obj>(bytes)) == Packet([0] + TextBytes(bytes), [])
  {
    FdPairLayout(pty);
    FdPairLayout(client);
    assert EncodeVarint(0) == [0];
    var k: Value<Obj> := VPair(VRaw(key), VUnit);
    assert Encode(k) == key + Encode<Obj>(VUnit) && Encode<Obj>(VUnit) == [] && Handles(k) == Handles<Obj>(VRaw(key)) + Handles<Obj>(VUnit);
    assert key + [] == key && Handles(k) == [];
    assert Encode<Obj>(VBytes(intent)) == TextBytes(intent) && Handles<Obj>(VBytes(intent)) == [];
    assert Encode<Obj>(VBytes(bytes)) == TextBytes(bytes) && Handles<Obj>(VBytes(bytes)) == [];
  }

  lemma FdPairLayout(fd: Obj)
    ensures Encode(Init(fd)) == [0] && Handles(Init(fd)) == [fd]
  {
    var rest := VPair(VFd(fd), VUnit);
    PairLayout(VFd(fd), VUnit);
    PairLayout(VU8(0), rest);
    assert Encode(rest) == [] && Handles(rest) == [fd];
  }

  /** A handshake is received as itself exactly if its intent is at most 8157 bytes long. */
  lemma HandshakeLimit(intent: seq<Byte>, key: seq<Byte>, room: nat)
    requires |intent| < U64 && |key| == 32
    ensures Receive(HANDSHAKE, HANDSHAKE_LIMITS, Send(Handshake<Obj>(intent, key)), room)
            == if |intent| <= 8157 then Success(Handshake(intent, key)) else Failure(TooLarge)
  {
    var v := Handshake<Obj>(intent, key);
    MessageLayout(Foreign(0, false), Foreign(0, false), intent, key, []);
    NumberLayout(|intent|);
    assert Conforms<Obj>(Unit, VUnit) && Conforms(Pair(Raw(32), Unit), v.second);
    assert Encode(v) == Send(v).data && Handles(v) == Send(v).handles;
    if |intent| <= 8157 {
      SendReceive(HANDSHAKE, HANDSHAKE_LIMITS, v, room);
    } else {
      SizeRefused(HANDSHAKE, HANDSHAKE_LIMITS, Send(v), room);
    }
  }

  /** What each message type declares, in terms of which packets are too large and which bring too
      many descriptors for the ancillary buffer, and with what report. */
  lemma DeclaredLimits(p: Packet<Obj>, room: nat)
    ensures Receive(INIT, INIT_LIMITS, p, room) == Failure(TooLarge) <==> |p.data| > 1
    ensures Receive(HANDSHAKE, HANDSHAKE_LIMITS, p, room) == Failure(TooLarge) <==> |p.data| > 8192
    ensures Receive(PTY_REQUEST, PTY_REQUEST_LIMITS, p, room) == Failure(TooLarge) <==> |p.data| > 8192
    ensures Receive(SESSIONS_REQUEST, SESSIONS_REQUEST_LIMITS, p, room) == Failure(TooLarge) <==> |p.data| > 8192
    ensures Receive(USER_INPUT, USER_LIMITS, p, room) == Failure(TooLarge) <==> |p.data| > 8192
    ensures Receive(USER_OUTPUT, USER_LIMITS, p, room) == Failure(TooLarge) <==> |p.data| > 8192
    ensures |p.data| == 1 && |p.handles| > 2 ==> Receive(INIT, INIT_LIMITS, p, room) == Failure(AncillaryTruncated(1, 24))
    ensures 0 < |p.data| <= 8192 && |p.handles| > 2 ==>
              && Receive(PTY_REQUEST, PTY_REQUEST_LIMITS, p, room) == Failure(AncillaryTruncated(1, 24))
              && Receive(SESSIONS_REQUEST, SESSIONS_REQUEST_LIMITS, p, room) == Failure(AncillaryTruncated(1, 24))
    ensures 0 < |p.data| <= 8192 && |p.handles| > 0 ==>
              && Receive(HANDSHAKE, HANDSHAKE_LIMITS, p, room) == Failure(AncillaryTruncated(0, 16))
              && Receive(USER_INPUT, USER_LIMITS, p, room) == Failure(AncillaryTruncated(0, 16))
              && Receive(USER_OUTPUT, USER_LIMITS, p, room) == Failure(AncillaryTruncated(0, 16))
  {
    SlotsPadded(1);
    SlotsPadded(0);
    SizeRefused(INIT, INIT_LIMITS, p, room);
    SizeRefused(HANDSHAKE, HANDSHAKE_LIMITS, p, room);
    SizeRefused(PTY_REQUEST, PTY_REQUEST_LIMITS, p, room);
    SizeRefused(SESSIONS_REQUEST, SESSIONS_REQUEST_LIMITS, p, room);
    SizeRefused(USER_INPUT, USER_LIMITS, p, room);
    SizeRefused(USER_OUTPUT, USER_LIMITS, p, room);
  }
}
