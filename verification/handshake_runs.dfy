/**
  Two programs on one connection, each running one side of some service's handshake, possibly
  the wrong one: a state machine of their sends and receives, and what is known whenever one
  of them succeeds or complains.
*/
module HandshakeRuns {
  import opened Wrappers
  import opened Wire
  import opened Packets
  import opened Proto
  import opened Handshakes

  datatype Service = SessionsService | PtyService | UserService
  datatype Role = Client | Server

  function IntentOf(service: Service, role: Role): seq<Byte> {
    match (service, role)
    case (SessionsService, Client) => SESSIONS_CLIENT
    case (SessionsService, Server) => SESSIONS_SERVER
    case (PtyService, Client) => PTY_CLIENT
    case (PtyService, Server) => PTY_SERVER
    case (UserService, Client) => USER_CLIENT
    case (UserService, Server) => USER_SERVER
  }

  function Other(role: Role): Role { if role == Client then Server else Client }

  /** The six intents differ from one another. */
  lemma IntentsDistinct(a: Service, x: Role, b: Service, y: Role)
    ensures IntentOf(a, x) == IntentOf(b, y) ==> a == b && x == y
    ensures IsIntent(IntentOf(a, x))
  {
    IntentMarks(a, x);
    IntentMarks(b, y);
  }

  /** Length, the digit of the month and the last letter tell the intents apart. */
  lemma IntentMarks(a: Service, x: Role)
    ensures var i := IntentOf(a, x);
            && |i| == (if a == PtyService then 35 else 40)
            && i[11] == (if a == SessionsService then '7' else '6') as int
            && i[|i| - 1] == (if x == Client then 't' else 'r') as int
  {
  }

  // ---------------------------------------------------------------- the machine

  datatype Status =
    | Begin                                         // nothing happened yet
    | Announced                                     // a client that sent its hello
    | Checked                                       // a server that accepted the client's hello
    | Over(result: Result<(), HandshakeError>)

  /** One program: which side of which service it runs, its build, and all it sent. */
  datatype Party = Party(service: Service, role: Role, build: seq<Byte>, status: Status, sent: seq<Packet<Obj>>)

  datatype Event =
    | Announce(accepted: bool)     // send the own hello; the kernel may refuse
    | Take(room: nat)              // receive the peer's first packet
    | PeerGone                     // the peer gave up without sending anything
    | Break                        // the socket fails

  function OwnHello(kdf: Kdf, p: Party): Packet<Obj> { Send(Hello(kdf, IntentOf(p.service, p.role), p.build)) }

  /** What `p` says to a hello packet of its peer. */
  function Verdict(kdf: Kdf, p: Party, hello: Packet<Obj>, room: nat): Result<(), HandshakeError> {
    JudgePacket(kdf, IntentOf(p.service, Other(p.role)), p.build, hello, room)
  }

  /** The party waits for the peer's hello. */
  predicate Waits(p: Party) {
    (p.role == Client && p.status == Announced) || (p.role == Server && p.status == Begin)
  }

  /** The party is about to send its own hello. */
  predicate Sends(p: Party) {
    (p.role == Client && p.status == Begin) || (p.role == Server && p.status == Checked)
  }

  function Turn(kdf: Kdf, me: Party, peer: Party, e: Event): Option<Party> {
    match e
    case Announce(accepted) =>
      if !Sends(me) then None
      else if !accepted then Some(me.(status := Over(Failure(SendFailed))))
      else Some(me.(sent := me.sent + [OwnHello(kdf, me)],
                    status := if me.role == Client then Announced else Over(Success(()))))
    case Take(room) =>
      if !Waits(me) || peer.sent == [] then None
      else
        var verdict := Verdict(kdf, me, peer.sent[0], room);
        Some(me.(status := if verdict.Success? && me.role == Server then Checked else Over(verdict)))
    case PeerGone =>
      if !Waits(me) || peer.sent != [] || !peer.status.Over? then None
      else Some(me.(status := Over(Failure(ReceiveFailed(End)))))
    case Break =>
      if !Waits(me) then None else Some(me.(status := Over(Failure(ReceiveFailed(Socket)))))
  }

  datatype Meeting = Meeting(left: Party, right: Party)

  /** A step of the left (`who`) or the right program. */
  function Step(kdf: Kdf, s: Meeting, who: bool, e: Event): Option<Meeting> {
    if who then
      match Turn(kdf, s.left, s.right, e) case None => None case Some(p) => Some(Meeting(p, s.right))
    else
      match Turn(kdf, s.right, s.left, e) case None => None case Some(p) => Some(Meeting(s.left, p))
  }

  predicate Start(s: Meeting) {
    s.left.status == Begin && s.left.sent == [] && s.right.status == Begin && s.right.sent == []
  }

  predicate IsRun(kdf: Kdf, states: seq<Meeting>, events: seq<(bool, Event)>) {
    && |states| == |events| + 1
    && Start(states[0])
    && forall i :: 0 <= i < |events| ==> Follows(kdf, states, events, i)
  }

  predicate Follows(kdf: Kdf, states: seq<Meeting>, events: seq<(bool, Event)>, i: nat)
    requires i < |events| && |states| == |events| + 1
  {
    Step(kdf, states[i], events[i].0, events[i].1) == Some(states[i + 1])
  }

  // ---------------------------------------------------------------- the invariant

  /** `me` passed both checks on `peer`: equal digests under the intent `peer` has, which is
      the one `me` expects. */
  predicate Accepts(kdf: Kdf, me: Party, peer: Party) {
    && IntentOf(peer.service, peer.role) == IntentOf(me.service, Other(me.role))
    && kdf(IntentOf(peer.service, peer.role), peer.build) == kdf(IntentOf(me.service, Other(me.role)), me.build)
  }

  /** What a party's status says about what it sent and about its peer. */
  predicate PartyOk(kdf: Kdf, me: Party, peer: Party) {
    && (me.sent == [] || me.sent == [OwnHello(kdf, me)])
    && (me.status == Begin || me.status == Checked ==> me.sent == [])
    && (me.status == Announced ==> me.role == Client && me.sent != [])
    && (me.status == Checked ==> me.role == Server)
    && (me.role == Server && me.sent != [] ==> me.status == Over(Success(())))
    && (me.role == Server && (me.sent != [] || me.status == Checked) ==> Accepts(kdf, me, peer) && peer.sent != [])
    && match me.status
       case Over(Success(_)) => Accepts(kdf, me, peer) && peer.sent != [] && me.sent != []
       case Over(Failure(WrongVersion)) =>
         kdf(IntentOf(peer.service, peer.role), peer.build) != kdf(IntentOf(me.service, Other(me.role)), me.build)
       case Over(Failure(WrongService)) =>
         && kdf(IntentOf(peer.service, peer.role), peer.build) == kdf(IntentOf(me.service, Other(me.role)), me.build)
         && IntentOf(peer.service, peer.role) != IntentOf(me.service, Other(me.role))
       case Over(Failure(ReceiveFailed(error))) => error == End || error == Socket
       case _ => true
  }

  predicate Inv(kdf: Kdf, s: Meeting) {
    PartyOk(kdf, s.left, s.right) && PartyOk(kdf, s.right, s.left)
  }

  /** The program is the same: only how far it got differs. */
  predicate SameProgram(p: Party, p': Party) { p'.service == p.service && p'.role == p.role && p'.build == p.build }

  lemma TurnKeeps(kdf: Kdf, me: Party, peer: Party, e: Event, me': Party)
    requires PartyOk(kdf, me, peer) && PartyOk(kdf, peer, me) && Turn(kdf, me, peer, e) == Some(me')
    ensures PartyOk(kdf, me', peer) && PartyOk(kdf, peer, me') && SameProgram(me, me')
  {
    if e.Take? {
      IntentsDistinct(peer.service, peer.role, peer.service, peer.role);
      JudgeHello(kdf, IntentOf(me.service, Other(me.role)), me.build, IntentOf(peer.service, peer.role), peer.build, e.room);
    }
  }

  lemma {:induction false} RunInv(kdf: Kdf, states: seq<Meeting>, events: seq<(bool, Event)>, i: nat)
    requires IsRun(kdf, states, events) && i < |states|
    ensures Inv(kdf, states[i])
    ensures SameProgram(states[0].left, states[i].left) && SameProgram(states[0].right, states[i].right)
  {
    if i > 0 {
      RunInv(kdf, states, events, i - 1);
      var s := states[i - 1];
      assert Follows(kdf, states, events, i - 1);
      if events[i - 1].0 {
        TurnKeeps(kdf, s.left, s.right, events[i - 1].1, states[i].left);
      } else {
        TurnKeeps(kdf, s.right, s.left, events[i - 1].1, states[i].right);
      }
    }
  }

  // ---------------------------------------------------------------- agreement

  /** The same key material under the same context, or two that the key derivation confuses. */
  predicate SameBuild(kdf: Kdf, intent: seq<Byte>, build: seq<Byte>, build': seq<Byte>) {
    build == build' || KeyCollision(kdf, intent, build, intent, build')
  }

  /** Two different inputs with one digest. */
  predicate KeyCollision(kdf: Kdf, intent: seq<Byte>, build: seq<Byte>, intent': seq<Byte>, build': seq<Byte>) {
    (intent, build) != (intent', build') && kdf(intent, build) == kdf(intent', build')
  }

  /** The program on one side of the connection, named as in a step. */
  function Side(s: Meeting, who: bool): Party { if who then s.left else s.right }

  /** A client that succeeds, on either side, talks to a server of its own service that passed both
      its checks on the client already, and the two have one build, or two builds whose keys
      collide, twice. */
  lemma ClientSuccess(kdf: Kdf, states: seq<Meeting>, events: seq<(bool, Event)>, i: nat, who: bool)
    requires IsRun(kdf, states, events) && i < |states|
    requires Side(states[i], who).role == Client && Side(states[i], who).status == Over(Success(()))
    ensures var c, s := Side(states[i], who), Side(states[i], !who);
            && s.role == Server && s.service == c.service
            && s.status == Over(Success(())) && s.sent == [OwnHello(kdf, s)]
            && SameBuild(kdf, IntentOf(c.service, Server), c.build, s.build)
            && SameBuild(kdf, IntentOf(c.service, Client), c.build, s.build)
  {
    RunInv(kdf, states, events, i);
    var c, s := Side(states[i], who), Side(states[i], !who);
    IntentsDistinct(s.service, s.role, c.service, Server);
  }

  /** A success on either side means that the two sides fit. */
  lemma SuccessMeansMatch(kdf: Kdf, states: seq<Meeting>, events: seq<(bool, Event)>, i: nat)
    requires IsRun(kdf, states, events) && i < |states|
    requires states[i].left.status == Over(Success(())) || states[i].right.status == Over(Success(()))
    ensures states[i].left.service == states[i].right.service && states[i].left.role == Other(states[i].right.role)
  {
    RunInv(kdf, states, events, i);
    var l, r := states[i].left, states[i].right;
    IntentsDistinct(r.service, r.role, l.service, Other(l.role));
    IntentsDistinct(l.service, l.role, r.service, Other(r.role));
  }

  /** Programs of different services, two clients or two servers never complete, on either side. */
  lemma MismatchNeverCompletes(kdf: Kdf, states: seq<Meeting>, events: seq<(bool, Event)>, i: nat)
    requires IsRun(kdf, states, events) && i < |states|
    requires states[0].left.service != states[0].right.service || states[0].left.role == states[0].right.role
    ensures states[i].left.status != Over(Success(())) && states[i].right.status != Over(Success(()))
  {
    RunInv(kdf, states, events, i);
    if states[i].left.status == Over(Success(())) || states[i].right.status == Over(Success(())) {
      SuccessMeansMatch(kdf, states, events, i);
    }
  }

  /** A complaint about the service, rather than the version, by either side exhibits a collision
      of the key derivation; so honest mismatches of any kind surface as `WrongVersion`. */
  lemma WrongServiceIsCollision(kdf: Kdf, states: seq<Meeting>, events: seq<(bool, Event)>, i: nat, who: bool)
    requires IsRun(kdf, states, events) && i < |states|
    requires Side(states[i], who).status == Over(Failure(WrongService))
    ensures var me, peer := Side(states[i], who), Side(states[i], !who);
            KeyCollision(kdf, IntentOf(peer.service, peer.role), peer.build, IntentOf(me.service, Other(me.role)), me.build)
  {
    RunInv(kdf, states, events, i);
  }

  /** A client and a server of one service and one build never complain about each other: what
      can go wrong is a send that is refused, a peer that gave up, or a broken socket. */
  lemma MatchNeverComplains(kdf: Kdf, states: seq<Meeting>, events: seq<(bool, Event)>, i: nat)
    requires IsRun(kdf, states, events) && i < |states|
    requires states[0].left.service == states[0].right.service && states[0].left.role == Other(states[0].right.role)
    requires states[0].left.build == states[0].right.build
    ensures NoComplaint(states[i].left.status) && NoComplaint(states[i].right.status)
  {
    RunInv(kdf, states, events, i);
  }

  predicate NoComplaint(status: Status) {
    match status
    case Over(Failure(WrongVersion)) => false
    case Over(Failure(WrongService)) => false
    case Over(Failure(ReceiveFailed(error))) => error == End || error == Socket
    case _ => true
  }

  // ---------------------------------------------------------------- completion

  /** Nothing goes wrong in the kernel. */
  predicate NoFault(e: Event) { e != Announce(false) && e != Break }

  /** A client, on side `who`, and a server of its service whose digests agree. */
  predicate Fits(kdf: Kdf, s: Meeting, who: bool) {
    && Side(s, who).role == Client && Side(s, !who).role == Server
    && Accepts(kdf, Side(s, who), Side(s, !who)) && Accepts(kdf, Side(s, !who), Side(s, who))
  }

  /** The two have taken the first `n` of the four steps: the client's hello, its acceptance, the
      server's hello, its acceptance. */
  predicate Progress(kdf: Kdf, s: Meeting, who: bool, n: nat) {
    var c, v := Side(s, who), Side(s, !who);
    && n <= 4
    && c.status == (if n == 0 then Begin else if n < 4 then Announced else Over(Success(())))
    && c.sent == (if n == 0 then [] else [OwnHello(kdf, c)])
    && v.status == (if n < 2 then Begin else if n == 2 then Checked else Over(Success(())))
    && v.sent == (if n < 3 then [] else [OwnHello(kdf, v)])
  }

  /** Whose step is the next, and which. */
  predicate IsNext(who: bool, n: nat, event: (bool, Event)) {
    match n
    case 0 => event == (who, Announce(true))
    case 1 => event.0 == !who && event.1.Take?
    case 2 => event == (!who, Announce(true))
    case 3 => event.0 == who && event.1.Take?
    case _ => false
  }

  lemma TakesHello(kdf: Kdf, me: Party, peer: Party, room: nat)
    requires Waits(me) && Accepts(kdf, me, peer) && peer.sent != [] && peer.sent[0] == OwnHello(kdf, peer)
    ensures Turn(kdf, me, peer, Take(room)) == Some(me.(status := if me.role == Server then Checked else Over(Success(()))))
  {
    IntentsDistinct(peer.service, peer.role, peer.service, peer.role);
    JudgeHello(kdf, IntentOf(me.service, Other(me.role)), me.build, IntentOf(peer.service, peer.role), peer.build, room);
  }

  /** In a fitting pair without faults exactly one step is possible at a time, until the last. */
  lemma OneWay(kdf: Kdf, s: Meeting, who: bool, n: nat, event: (bool, Event))
    requires Fits(kdf, s, who) && Progress(kdf, s, who, n) && NoFault(event.1)
    ensures Step(kdf, s, event.0, event.1).Some? <==> IsNext(who, n, event)
    ensures IsNext(who, n, event) ==>
              var s' := Step(kdf, s, event.0, event.1).value; Progress(kdf, s', who, n + 1) && Fits(kdf, s', who)
  {
    if event.1.Take? {
      if n == 1 { TakesHello(kdf, Side(s, !who), Side(s, who), event.1.room); }
      if n == 3 { TakesHello(kdf, Side(s, who), Side(s, !who), event.1.room); }
    }
  }

  /** Every run of a fitting pair without faults takes the four steps in their order, as far as it
      goes: it has no more than four, and with four both sides have succeeded; and with fewer it
      can go on. */
  lemma {:induction false} FaultFree(kdf: Kdf, states: seq<Meeting>, events: seq<(bool, Event)>, who: bool, i: nat)
    requires IsRun(kdf, states, events) && i < |states|
    requires Fits(kdf, states[0], who) && forall j :: 0 <= j < |events| ==> NoFault(events[j].1)
    ensures i <= 4 && Progress(kdf, states[i], who, i) && Fits(kdf, states[i], who)
    ensures i == 4 ==> states[i].left.status == Over(Success(())) && states[i].right.status == Over(Success(()))
    ensures i < |events| ==> IsNext(who, i, events[i])
    ensures i < 4 ==> exists event: (bool, Event) :: NoFault(event.1) && Step(kdf, states[i], event.0, event.1).Some?
  {
    if i > 0 {
      FaultFree(kdf, states, events, who, i - 1);
      assert Follows(kdf, states, events, i - 1);
      OneWay(kdf, states[i - 1], who, i - 1, events[i - 1]);
    }
    if i < |events| {
      assert Follows(kdf, states, events, i);
      OneWay(kdf, states[i], who, i, events[i]);
    }
    if i < 4 {
      var event := if i == 0 then (who, Announce(true)) else if i == 1 then (!who, Take(0)) else if i == 2 then (!who, Announce(true)) else (who, Take(0));
      OneWay(kdf, states[i], who, i, event);
      assert NoFault(event.1);
    }
  }

  // ---------------------------------------------------------------- waiting

  /** A step that needs nothing to go wrong. */
  ghost predicate CanGoOn(kdf: Kdf, s: Meeting) {
    exists who, e :: NoFault(e) && Step(kdf, s, who, e).Some?
  }

  /** In every run two programs wait for each other for ever exactly if both are servers that heard
      nothing: any other pair can always go on until both are done. */
  lemma StuckIffTwoServers(kdf: Kdf, states: seq<Meeting>, events: seq<(bool, Event)>, i: nat)
    requires IsRun(kdf, states, events) && i < |states|
    ensures var s := states[i];
            !CanGoOn(kdf, s)
            <==> (s.left.status.Over? && s.right.status.Over?)
                 || (s.left.role == Server && s.left.status == Begin && s.right.role == Server && s.right.status == Begin)
  {
    RunInv(kdf, states, events, i);
    var s := states[i];
    if Sends(s.left) { GoesOn(kdf, s, true, Announce(true)); }
    if Sends(s.right) { GoesOn(kdf, s, false, Announce(true)); }
    if Waits(s.left) && s.right.sent != [] { GoesOn(kdf, s, true, Take(0)); }
    if Waits(s.right) && s.left.sent != [] { GoesOn(kdf, s, false, Take(0)); }
    if Waits(s.left) && s.right.sent == [] && s.right.status.Over? { GoesOn(kdf, s, true, PeerGone); }
    if Waits(s.right) && s.left.sent == [] && s.left.status.Over? { GoesOn(kdf, s, false, PeerGone); }
  }

  lemma GoesOn(kdf: Kdf, s: Meeting, who: bool, e: Event)
    requires NoFault(e) && Step(kdf, s, who, e).Some?
    ensures CanGoOn(kdf, s)
  {
  }

  // ---------------------------------------------------------------- the two calls

  /** The turns of a client are the call `HandshakeAsClient`: a refused send ends it, and what the
      socket delivers after a hello that was sent is judged as the call judges it. */
  lemma ClientTurns(kdf: Kdf, me: Party, peer: Party, room: nat)
    requires me.role == Client && me.status == Begin && me.sent == []
    ensures Turn(kdf, me, peer, Announce(false)) == Some(me.(status := Over(Failure(SendFailed))))
    ensures var sent := me.(status := Announced, sent := [OwnHello(kdf, me)]);
            && Turn(kdf, me, peer, Announce(true)) == Some(sent)
            && Turn(kdf, sent, peer, Break) == Some(sent.(status := Over(Called(kdf, me, peer, room, true))))
            && (peer.sent != [] ==> Turn(kdf, sent, peer, Take(room)) == Some(sent.(status := Over(Called(kdf, me, peer, room, false)))))
            && (peer.sent == [] && peer.status.Over? ==> Turn(kdf, sent, peer, PeerGone) == Some(sent.(status := Over(Called(kdf, me, peer, room, false)))))
  {
    assert [] + [OwnHello(kdf, me)] == [OwnHello(kdf, me)];
  }

  /** What either call makes of the peer's packets. */
  function Called(kdf: Kdf, me: Party, peer: Party, room: nat, broken: bool): Result<(), HandshakeError> {
    JudgeNext(kdf, IntentOf(me.service, Other(me.role)), me.build, peer.sent, room, broken)
  }

  /** And those of a server are `HandshakeAsServer`: only what is judged good leads to its hello. */
  lemma ServerTurns(kdf: Kdf, me: Party, peer: Party, room: nat)
    requires me.role == Server && me.status == Begin && me.sent == []
    ensures Turn(kdf, me, peer, Break) == Some(me.(status := Over(Called(kdf, me, peer, room, true))))
    ensures peer.sent == [] && peer.status.Over? ==> Turn(kdf, me, peer, PeerGone) == Some(me.(status := Over(Called(kdf, me, peer, room, false))))
    ensures var verdict := Called(kdf, me, peer, room, false);
            peer.sent != [] ==>
              && Turn(kdf, me, peer, Take(room)) == Some(me.(status := if verdict.Success? then Checked else Over(verdict)))
              && (verdict.Success? ==>
                    var checked := me.(status := Checked);
                    && Turn(kdf, checked, peer, Announce(true)) == Some(me.(status := Over(Success(())), sent := [OwnHello(kdf, me)]))
                    && Turn(kdf, checked, peer, Announce(false)) == Some(me.(status := Over(Failure(SendFailed)))))
  {
    assert [] + [OwnHello(kdf, me)] == [OwnHello(kdf, me)];
  }
}
