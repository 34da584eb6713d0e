/**
  The sessions service and the pty services it starts, as one state machine.

  The sessions process runs one thread for every accepted connection. The threads share a
  map from session id to session behind one mutex, with a further mutex around every
  session. A thread takes one request at a time and drives it through a fresh PTY and a
  fresh pty process, handing over both the PTY and the client's socket. Every pty process
  serves the one connection it was started for. All processes and threads interleave freely;
  an `Action` is one step of one of them, with the answers of the kernel and of peers as its
  arguments. `Step` says what the step does, or that it cannot be taken.
*/
module Sessions {
  import opened Wrappers
  import opened Wire
  import opened Packets
  import opened PassFd
  import opened Proto
  import opened Handshakes

  const SESSION_ID_BYTES: nat := 24
  type SessionId = id: seq<Byte> | |id| == SESSION_ID_BYTES witness seq(SESSION_ID_BYTES, _ => 0)

  /** What the sessions process was built from. */
  datatype World = World(kdf: Kdf, build: seq<Byte>)

  /** Where a thread is in `serve_conn`. */
  datatype Pc =
    | Handshaking      // handshake_as_server on its own connection
    | Idle             // waiting for a request
    | Received         // about to lock the map
    | Choosing         // map locked, drawing ids
    | Chosen           // map locked, entry inserted
    | Starting         // about to call create_shell
    | Started          // about to connect to a pty service
    | Connected        // about to send the handshake
    | Greeting         // waiting for the handshake reply
    | Greeted          // about to send Init
    | InitSent         // about to lock the session
    | Storing          // session locked, about to make it Ready
    | Stored           // session locked and Ready
    | Presenting       // about to send NewClient
    | Done             // returned or panicked

  /** A thread with the locals of its current request; which of them are live depends on `pc`. */
  datatype Thread = Thread(pc: Pc, conn: Fd, req: nat, client: Fd, id: SessionId, pty: Fd, sock: Fd, link: nat)

  /** A request as the protocol treats it: whose it is, and what was made for it so far. */
  datatype Request = Request(owner: nat, client: Obj, id: Option<SessionId>, pty: Option<Obj>, link: Option<nat>)

  datatype SessionState = Creating | Ready(pty: Fd, sock: Fd)

  /** One `Arc<Mutex<Session>>`, with the request it was allocated for. */
  datatype Session = Session(req: nat, lock: Option<nat>, poisoned: bool, state: SessionState)

  /** Where a pty process is in its `serve`. */
  datatype PtyProc = AwaitHello | AwaitInit | Serving(pty: Obj) | Exited

  datatype Relay = Relay(pty: Obj, client: Obj)

  /** A connection to a pty process: all packets ever sent on it in either direction, how many
      of them were received, and the process at the other end with the relays it started. */
  datatype Link = Link(req: nat, build: seq<Byte>, sent: seq<Packet<Obj>>, taken: nat,
                       replies: seq<Packet<Obj>>, repliesTaken: nat, proc: PtyProc, relays: seq<Relay>)

  /** Who is responsible for an open descriptor of the sessions process. */
  datatype Owner = Base | OfThread(t: nat) | OfSession(id: SessionId) | Nobody

  datatype State = State(
    table: map<Fd, Obj>, owner: map<Fd, Owner>,
    threads: seq<Thread>, requests: seq<Request>,
    sessions: map<SessionId, Session>, mapLock: Option<nat>, mapPoisoned: bool,
    links: seq<Link>, ptys: nat)

  datatype Action =
    | Accept(fd: Fd, obj: Obj)
    | ServeHandshake(t: nat, hello: Packet<Obj>, room: nat, accepted: bool)
    | TakeRequest(t: nat, packet: Packet<Obj>, room: nat, fds: seq<Fd>)
    | LockMap(t: nat)
    | Draw(t: nat, id: SessionId)
    | UnlockMap(t: nat)
    | CreateShell(t: nat, fd: Fd)
    | Connect(t: nat, fd: Fd, build: seq<Byte>)
    | SendHello(t: nat)
    | TakeReply(t: nat, room: nat)
    | SendInit(t: nat)
    | LockSession(t: nat)
    | Store(t: nat)
    | UnlockSession(t: nat)
    | SendNewClient(t: nat)
    | Panic(t: nat)
    | PtyHello(l: nat, room: nat)
    | PtyInit(l: nat, room: nat)
    | PtyRequest(l: nat, room: nat)
    | PtyExit(l: nat)

  // ---------------------------------------------------------------- what threads hold

  function Rank(pc: Pc): nat {
    match pc
    case Handshaking => 0 case Idle => 1 case Received => 2 case Choosing => 3 case Chosen => 4
    case Starting => 5 case Started => 6 case Connected => 7 case Greeting => 8 case Greeted => 9
    case InitSent => 10 case Storing => 11 case Stored => 12 case Presenting => 13 case Done => 14
  }

  /** From taking a request to handing over its client. */
  predicate Busy(pc: Pc) { 2 <= Rank(pc) <= 13 }
  predicate HasId(pc: Pc) { 4 <= Rank(pc) <= 13 }
  predicate OwnsPty(pc: Pc) { 6 <= Rank(pc) <= 11 }
  predicate HasLink(pc: Pc) { 7 <= Rank(pc) <= 13 }
  predicate OwnsSock(pc: Pc) { 7 <= Rank(pc) <= 11 }
  predicate HoldsMap(pc: Pc) { pc == Choosing || pc == Chosen }
  predicate HoldsSession(pc: Pc) { pc == Storing || pc == Stored }

  /** The places of `serve_conn` where a failed call ends in a panic. */
  predicate MayPanic(pc: Pc) { 5 <= Rank(pc) <= 9 || pc == Presenting }

  /** The descriptors that dropping a thread's locals closes. */
  function Held(th: Thread): set<Fd> {
    if th.pc == Done then {}
    else {th.conn}
         + (if Busy(th.pc) then {th.client} else {})
         + (if OwnsPty(th.pc) then {th.pty} else {})
         + (if OwnsSock(th.pc) then {th.sock} else {})
  }

  // ---------------------------------------------------------------- parts of steps

  function Close(s: State, fds: set<Fd>): State {
    s.(table := s.table - fds, owner := s.owner - fds)
  }

  function Open(s: State, fd: Fd, obj: Obj, who: Owner): State {
    s.(table := s.table[fd := obj], owner := s.owner[fd := who])
  }

  function OpenAll(s: State, fds: seq<Fd>, objs: seq<Obj>, who: Owner): (r: State)
    requires |fds| == |objs|
    ensures r == s.(table := r.table, owner := r.owner)
    decreases |fds|
  {
    if fds == [] then s else OpenAll(Open(s, fds[0], objs[0], who), fds[1..], objs[1..], who)
  }

  function Set(s: State, t: nat, th: Thread): State
    requires t < |s.threads|
  {
    s.(threads := s.threads[t := th])
  }

  /** Thread `t` ends, by return or panic: its locals are dropped, and a mutex it holds is
      released, poisoned. */
  function Quit(s: State, t: nat): State
    requires t < |s.threads|
  {
    var th := s.threads[t];
    var s1 := Set(Close(s, Held(th)), t, th.(pc := Done));
    if HoldsMap(th.pc) then s1.(mapLock := None, mapPoisoned := true)
    else if HoldsSession(th.pc) && th.id in s.sessions then
      s1.(sessions := s.sessions[th.id := s.sessions[th.id].(lock := None, poisoned := true)])
    else s1
  }

  function SetLink(s: State, l: nat, link: Link): State
    requires l < |s.links|
  {
    s.(links := s.links[l := link])
  }

  function SendOn(s: State, l: nat, v: Value<Obj>): State
    requires l < |s.links|
  {
    s.(links := s.links[l := s.links[l].(sent := s.links[l].sent + [Send(v)])])
  }

  predicate IsSeqPacket(obj: Obj) { obj.PtySocket? || (obj.Foreign? && obj.seqPacket) }

  /** The one descriptor of an accepted request to the sessions service. */
  function RequestFd(p: Packet<Obj>, room: nat): Obj
    requires Receive(SESSIONS_REQUEST, SESSIONS_REQUEST_LIMITS, p, room).Success?
    ensures |p.handles| == 1 && Installed(SESSIONS_REQUEST_LIMITS, 1, room) == 1
  {
    AcceptedIsMessage(SESSIONS_REQUEST, SESSIONS_REQUEST_LIMITS, p, room);
    SessionsRequestShape(Receive(SESSIONS_REQUEST, SESSIONS_REQUEST_LIMITS, p, room).value);
    p.handles[0]
  }

  function InitFd(p: Packet<Obj>, room: nat): Obj
    requires Receive(INIT, INIT_LIMITS, p, room).Success?
  {
    AcceptedIsMessage(INIT, INIT_LIMITS, p, room);
    InitIsExact(Receive(INIT, INIT_LIMITS, p, room).value);
    Receive(INIT, INIT_LIMITS, p, room).value.second.first.handle
  }

  function NewClientFd(p: Packet<Obj>, room: nat): Obj
    requires Receive(PTY_REQUEST, PTY_REQUEST_LIMITS, p, room).Success?
  {
    AcceptedIsMessage(PTY_REQUEST, PTY_REQUEST_LIMITS, p, room);
    PtyRequestShape(Receive(PTY_REQUEST, PTY_REQUEST_LIMITS, p, room).value);
    Receive(PTY_REQUEST, PTY_REQUEST_LIMITS, p, room).value.payload.second.first.handle
  }

  // ---------------------------------------------------------------- steps of a sessions thread

  /** `handshake_as_server` on the thread's own connection: `hello` is what the peer sent, or
      nothing at the end of the stream, and `accepted` the kernel's answer to the reply. A
      handshake has no room for descriptors, so none is installed. */
  function DoServeHandshake(w: World, s: State, t: nat, hello: Packet<Obj>, room: nat, accepted: bool): Option<State>
    requires t < |s.threads|
  {
    if s.threads[t].pc != Handshaking then None
    else if JudgePacket(w.kdf, SESSIONS_CLIENT, w.build, hello, room).Success? && accepted then
      Some(Set(s, t, s.threads[t].(pc := Idle)))
    else Some(Quit(s, t))
  }

  /** `fds` are what the kernel may install for `packet` now. */
  ghost predicate Installs(s: State, packet: Packet<Obj>, room: nat, fds: seq<Fd>) {
    && |fds| == Installed(SESSIONS_REQUEST_LIMITS, |packet.handles|, room)
    && Distinct(fds)
    && forall fd :: fd in fds ==> fd !in s.table
  }

  ghost function DoTakeRequest(s: State, t: nat, packet: Packet<Obj>, room: nat, fds: seq<Fd>): Option<State>
    requires t < |s.threads|
  {
    if s.threads[t].pc != Idle || !Installs(s, packet, room, fds) then None
    else if Receive(SESSIONS_REQUEST, SESSIONS_REQUEST_LIMITS, packet, room).Success? then
      Some(Accepted(s, t, RequestFd(packet, room), fds[0]))
    else if Adopts(SESSIONS_REQUEST_LIMITS, packet.data) then
      Some(Quit(s, t))
    else
      Some(Quit(OpenAll(s, fds, packet.handles[..|fds|], Nobody), t))
  }

  function Zeros(n: nat): (z: seq<Byte>)
    ensures |z| == n
  {
    if n == 0 then [] else [0] + Zeros(n - 1)
  }

  /** A thread for a newly accepted connection. */
  function Spawn(s: State, fd: Fd, obj: Obj): State {
    Open(s, fd, obj, OfThread(|s.threads|)).(
      threads := s.threads + [Thread(Handshaking, fd, 0, 0, Zeros(SESSION_ID_BYTES), 0, 0, 0)])
  }

  /** A request for `client` was accepted, its descriptor installed as `fd`. */
  function Accepted(s: State, t: nat, client: Obj, fd: Fd): State
    requires t < |s.threads|
  {
    Set(Open(s, fd, client, OfThread(t)).(requests := s.requests + [Request(t, client, None, None, None)]), t,
        s.threads[t].(pc := Received, req := |s.requests|, client := fd))
  }

  function DoLockMap(s: State, t: nat): Option<State>
    requires t < |s.threads|
  {
    var th := s.threads[t];
    if th.pc != Received || s.mapLock.Some? then None
    else if s.mapPoisoned then Some(Quit(s, t))
    else Some(Set(s, t, th.(pc := Choosing)).(mapLock := Some(t)))
  }

  function DoDraw(s: State, t: nat, id: SessionId): Option<State>
    requires t < |s.threads|
  {
    var th := s.threads[t];
    if th.pc != Choosing || th.req >= |s.requests| then None
    else if id in s.sessions then Some(s)
    else Some(Set(s, t, th.(pc := Chosen, id := id)).(
                sessions := s.sessions[id := Session(th.req, None, false, Creating)],
                requests := s.requests[th.req := s.requests[th.req].(id := Some(id))]))
  }

  function DoUnlockMap(s: State, t: nat): Option<State>
    requires t < |s.threads|
  {
    var th := s.threads[t];
    if th.pc != Chosen then None
    else Some(Set(s, t, th.(pc := Starting)).(mapLock := None))
  }

  function DoCreateShell(s: State, t: nat, fd: Fd): Option<State>
    requires t < |s.threads|
  {
    var th := s.threads[t];
    if th.pc != Starting || fd in s.table || th.req >= |s.requests| then None
    else Some(Set(Open(s, fd, Pty(s.ptys), OfThread(t)), t, th.(pc := Started, pty := fd)).(
                ptys := s.ptys + 1,
                requests := s.requests[th.req := s.requests[th.req].(pty := Some(Pty(s.ptys)))]))
  }

  function DoConnect(s: State, t: nat, fd: Fd, build: seq<Byte>): Option<State>
    requires t < |s.threads|
  {
    var th, l := s.threads[t], |s.links|;
    if th.pc != Started || fd in s.table || th.req >= |s.requests| then None
    else Some(Set(Open(s, fd, PtySocket(l), OfThread(t)), t, th.(pc := Connected, sock := fd, link := l)).(
                links := s.links + [Link(th.req, build, [], 0, [], 0, AwaitHello, [])],
                requests := s.requests[th.req := s.requests[th.req].(link := Some(l))]))
  }

  function DoSendHello(w: World, s: State, t: nat): Option<State>
    requires t < |s.threads|
  {
    var th := s.threads[t];
    if th.pc != Connected || th.link >= |s.links| then None
    else Some(Set(SendOn(s, th.link, Hello(w.kdf, PTY_CLIENT, w.build)), t, th.(pc := Greeting)))
  }

  /** The reply passes both checks of a client of the pty service. */
  predicate ReplyPasses(w: World, reply: Packet<Obj>, room: nat) {
    JudgePacket(w.kdf, PTY_SERVER, w.build, reply, room).Success?
  }

  function DoTakeReply(w: World, s: State, t: nat, room: nat): Option<State>
    requires t < |s.threads|
  {
    if s.threads[t].pc != Greeting || s.threads[t].link >= |s.links| then None
    else TakeReplyOn(w, s, t, s.links[s.threads[t].link], room)
  }

  /** The thread's reply was taken off its link. */
  function AfterReply(s: State, t: nat): State
    requires t < |s.threads|
  {
    var l := s.threads[t].link;
    if l < |s.links| then SetLink(s, l, s.links[l].(repliesTaken := s.links[l].repliesTaken + 1)) else s
  }

  function TakeReplyOn(w: World, s: State, t: nat, k: Link, room: nat): Option<State>
    requires t < |s.threads|
  {
    if k.repliesTaken >= |k.replies| then None
    else if ReplyPasses(w, k.replies[k.repliesTaken], room) then Some(Set(AfterReply(s, t), t, s.threads[t].(pc := Greeted)))
    else Some(Quit(AfterReply(s, t), t))
  }

  function DoSendInit(s: State, t: nat): Option<State>
    requires t < |s.threads|
  {
    var th := s.threads[t];
    if th.pc != Greeted || th.link >= |s.links| || th.pty !in s.table then None
    else Some(Set(SendOn(s, th.link, Init(s.table[th.pty])), t, th.(pc := InitSent)))
  }

  function DoLockSession(s: State, t: nat): Option<State>
    requires t < |s.threads|
  {
    var th := s.threads[t];
    if th.pc != InitSent || th.id !in s.sessions || s.sessions[th.id].lock.Some? then None
    else if s.sessions[th.id].poisoned then Some(Quit(s, t))
    else Some(Set(s, t, th.(pc := Storing)).(sessions := s.sessions[th.id := s.sessions[th.id].(lock := Some(t))]))
  }

  /** Make the session Ready, unless it is not Creating: "someone stole our session id". */
  function DoStore(s: State, t: nat): Option<State>
    requires t < |s.threads|
  {
    var th := s.threads[t];
    if th.pc != Storing || th.id !in s.sessions then None
    else if s.sessions[th.id].state != Creating then Some(Quit(s, t))
    else Some(Set(s, t, th.(pc := Stored)).(
                sessions := s.sessions[th.id := s.sessions[th.id].(state := Ready(th.pty, th.sock))],
                owner := s.owner[th.pty := OfSession(th.id)][th.sock := OfSession(th.id)]))
  }

  function DoUnlockSession(s: State, t: nat): Option<State>
    requires t < |s.threads|
  {
    var th := s.threads[t];
    if th.pc != Stored || th.id !in s.sessions then None
    else Some(Set(s, t, th.(pc := Presenting)).(sessions := s.sessions[th.id := s.sessions[th.id].(lock := None)]))
  }

  function DoSendNewClient(s: State, t: nat): Option<State>
    requires t < |s.threads|
  {
    var th := s.threads[t];
    if th.pc != Presenting || th.link >= |s.links| || th.client !in s.table then None
    else Some(Set(Close(SendOn(s, th.link, NewClient(s.table[th.client])), {th.client}), t, th.(pc := Idle)))
  }

  // ---------------------------------------------------------------- steps of a pty process

  /** The hello passes both checks of a pty server of build `build`. */
  predicate HelloPasses(w: World, build: seq<Byte>, hello: Packet<Obj>, room: nat) {
    JudgePacket(w.kdf, PTY_CLIENT, build, hello, room).Success?
  }

  function PtyReply(w: World, build: seq<Byte>): Packet<Obj> { Send(Hello(w.kdf, PTY_SERVER, build)) }

  function DoPtyHello(w: World, s: State, l: nat, room: nat): Option<State>
    requires l < |s.links|
  {
    var k := s.links[l];
    if k.proc != AwaitHello || k.taken >= |k.sent| then None
    else if HelloPasses(w, k.build, k.sent[k.taken], room) then
      Some(SetLink(s, l, k.(taken := k.taken + 1, proc := AwaitInit, replies := k.replies + [PtyReply(w, k.build)])))
    else
      Some(SetLink(s, l, k.(taken := k.taken + 1, proc := Exited)))
  }

  function DoPtyInit(s: State, l: nat, room: nat): Option<State>
    requires l < |s.links|
  {
    var k := s.links[l];
    if k.proc != AwaitInit || k.taken >= |k.sent| then None
    else if Receive(INIT, INIT_LIMITS, k.sent[k.taken], room).Success? then
      Some(SetLink(s, l, k.(taken := k.taken + 1, proc := Serving(InitFd(k.sent[k.taken], room)))))
    else
      Some(SetLink(s, l, k.(taken := k.taken + 1, proc := Exited)))
  }

  /** Start a relay for a client, unless its descriptor is not a `SOCK_SEQPACKET` (a panic). */
  function DoPtyRequest(s: State, l: nat, room: nat): Option<State>
    requires l < |s.links|
  {
    var k := s.links[l];
    if !k.proc.Serving? || k.taken >= |k.sent| then None
    else if Receive(PTY_REQUEST, PTY_REQUEST_LIMITS, k.sent[k.taken], room).Success?
            && IsSeqPacket(NewClientFd(k.sent[k.taken], room)) then
      Some(SetLink(s, l, k.(taken := k.taken + 1, relays := k.relays + [Relay(k.proc.pty, NewClientFd(k.sent[k.taken], room))])))
    else
      Some(SetLink(s, l, k.(taken := k.taken + 1, proc := Exited)))
  }

  // ---------------------------------------------------------------- the machine

  /** Before the first connection: only the process's own descriptors are open. */
  ghost predicate Start(s: State) {
    && s.table.Keys == s.owner.Keys
    && (forall fd :: fd in s.owner ==> s.owner[fd] == Base)
    && s.threads == [] && s.requests == [] && s.sessions == map[] && s.links == []
    && s.mapLock == None && !s.mapPoisoned && s.ptys == 0
  }

  /** The thread or link an action belongs to exists. */
  predicate Exists(s: State, a: Action) {
    match a
    case Accept(_, _) => true
    case PtyHello(l, _) => l < |s.links|
    case PtyInit(l, _) => l < |s.links|
    case PtyRequest(l, _) => l < |s.links|
    case PtyExit(l) => l < |s.links|
    case _ => a.t < |s.threads|
  }

  ghost function Step(w: World, s: State, a: Action): Option<State> {
    if !Exists(s, a) then None
    else match a
    case Accept(fd, obj) =>
      if fd in s.table then None else Some(Spawn(s, fd, obj))
    case ServeHandshake(t, hello, room, accepted) => DoServeHandshake(w, s, t, hello, room, accepted)
    case TakeRequest(t, packet, room, fds) => DoTakeRequest(s, t, packet, room, fds)
    case LockMap(t) => DoLockMap(s, t)
    case Draw(t, id) => DoDraw(s, t, id)
    case UnlockMap(t) => DoUnlockMap(s, t)
    case CreateShell(t, fd) => DoCreateShell(s, t, fd)
    case Connect(t, fd, build) => DoConnect(s, t, fd, build)
    case SendHello(t) => DoSendHello(w, s, t)
    case TakeReply(t, room) => DoTakeReply(w, s, t, room)
    case SendInit(t) => DoSendInit(s, t)
    case LockSession(t) => DoLockSession(s, t)
    case Store(t) => DoStore(s, t)
    case UnlockSession(t) => DoUnlockSession(s, t)
    case SendNewClient(t) => DoSendNewClient(s, t)
    case Panic(t) => if MayPanic(s.threads[t].pc) then Some(Quit(s, t)) else None
    case PtyHello(l, room) => DoPtyHello(w, s, l, room)
    case PtyInit(l, room) => DoPtyInit(s, l, room)
    case PtyRequest(l, room) => DoPtyRequest(s, l, room)
    case PtyExit(l) => if s.links[l].proc == Exited then None else Some(SetLink(s, l, s.links[l].(proc := Exited)))
  }

  /** A run: states and the actions between them. */
  ghost predicate IsRun(w: World, states: seq<State>, actions: seq<Action>) {
    && |states| == |actions| + 1
    && Start(states[0])
    && forall i :: 0 <= i < |actions| ==> Follows(w, states, actions, i)
  }

  ghost predicate Follows(w: World, states: seq<State>, actions: seq<Action>, i: nat)
    requires i < |actions| && |states| == |actions| + 1
  {
    Step(w, states[i], actions[i]) == Some(states[i + 1])
  }
}
