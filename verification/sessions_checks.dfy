/**
  Every verdict in the sessions machine is on what was received, and everything that happens later
  had it: nobody is served whose handshake did not pass, and what is refused ends there.
*/
module SessionsChecks {
  import opened Wrappers
  import opened Wire
  import opened Packets
  import opened Proto
  import opened Handshakes
  import opened Sessions
  import opened SessionsInvariant
  import opened SessionsSteps
  import opened SessionsTheorems
  import opened SessionsDescriptors

  /** The packet is received as the handshake of a program of build `build` with intent `intent`. */
  predicate IsHello(w: World, intent: seq<Byte>, build: seq<Byte>, p: Packet<Obj>) {
    Receive(HANDSHAKE, HANDSHAKE_LIMITS, p, 0) == Success(Handshake(intent, w.kdf(intent, build)))
  }

  lemma VerdictIsHello(w: World, intent: seq<Byte>, build: seq<Byte>, p: Packet<Obj>, room: nat)
    ensures JudgePacket(w.kdf, intent, build, p, room).Success? <==> IsHello(w, intent, build, p)
  {
    JudgeExact(w.kdf, intent, build, p, room);
    assert Receive(HANDSHAKE, HANDSHAKE_LIMITS, p, room) == Receive(HANDSHAKE, HANDSHAKE_LIMITS, p, 0);
    var r := JudgePacket(w.kdf, intent, build, p, room);
    assert r.Success? <==> r == Success(());
  }

  // ---------------------------------------------------------------- single steps

  /** The service's own handshake: the thread goes on exactly if the peer's packet is the hello of a
      sessions client of the same build and the reply was accepted; otherwise it ends. */
  lemma ServeHandshakeVerdict(w: World, s: State, a: Action, s': State)
    requires a.ServeHandshake? && Step(w, s, a) == Some(s')
    ensures a.t < |s.threads| == |s'.threads|
    ensures s'.threads[a.t].pc == if IsHello(w, SESSIONS_CLIENT, w.build, a.hello) && a.accepted then Idle else Done
  {
    VerdictIsHello(w, SESSIONS_CLIENT, w.build, a.hello, a.room);
  }

  /** A request: the thread takes it up exactly if it is received as one, for the client it carries;
      otherwise the thread ends. */
  lemma TakeRequestVerdict(w: World, s: State, a: Action, s': State)
    requires a.TakeRequest? && Step(w, s, a) == Some(s')
    ensures a.t < |s.threads| == |s'.threads|
    ensures s'.threads[a.t].pc
            == if Receive(SESSIONS_REQUEST, SESSIONS_REQUEST_LIMITS, a.packet, a.room).Success? then Received else Done
  {
    TakeRequestCases(s, a, s');
  }

  lemma TakeRequestCases(s: State, a: Action, s': State)
    requires a.TakeRequest? && a.t < |s.threads| && DoTakeRequest(s, a.t, a.packet, a.room, a.fds) == Some(s')
    ensures |s'.threads| == |s.threads|
    ensures s'.threads[a.t].pc
            == if Receive(SESSIONS_REQUEST, SESSIONS_REQUEST_LIMITS, a.packet, a.room).Success? then Received else Done
  {
  }

  /** The pty process's reply: the thread goes on exactly if it is the hello of a pty server of the
      same build; otherwise the thread ends. */
  lemma TakeReplyVerdict(w: World, s: State, a: Action, s': State)
    requires a.TakeReply? && Step(w, s, a) == Some(s')
    ensures a.t < |s.threads| == |s'.threads| && s.threads[a.t].link < |s.links|
    ensures var k := s.links[s.threads[a.t].link];
            && k.repliesTaken < |k.replies|
            && s'.threads[a.t].pc == if IsHello(w, PTY_SERVER, w.build, k.replies[k.repliesTaken]) then Greeted else Done
  {
    var k := s.links[s.threads[a.t].link];
    assert DoTakeReply(w, s, a.t, a.room) == Some(s');
    if k.repliesTaken < |k.replies| { VerdictIsHello(w, PTY_SERVER, w.build, k.replies[k.repliesTaken], a.room); }
    TakeReplyCases(w, s, a.t, a.room, s');
  }

  lemma TakeReplyCases(w: World, s: State, t: nat, room: nat, s': State)
    requires t < |s.threads| && DoTakeReply(w, s, t, room) == Some(s')
    ensures |s'.threads| == |s.threads| && s.threads[t].link < |s.links|
    ensures var k := s.links[s.threads[t].link];
            && k.repliesTaken < |k.replies|
            && s'.threads[t].pc == if ReplyPasses(w, k.replies[k.repliesTaken], room) then Greeted else Done
  {
    ReplyCases(w, s, t, room);
  }

  /** The pty process's handshake: it goes on, and replies, exactly if the packet is the hello of a
      pty client of its own build; otherwise it exits. */
  lemma PtyHelloVerdict(w: World, s: State, a: Action, s': State)
    requires a.PtyHello? && Step(w, s, a) == Some(s')
    ensures a.l < |s.links| == |s'.links|
    ensures var k, k' := s.links[a.l], s'.links[a.l];
            && k.taken < |k.sent|
            && (if IsHello(w, PTY_CLIENT, k.build, k.sent[k.taken])
                then k'.proc == AwaitInit && k'.replies == k.replies + [Send(Hello(w.kdf, PTY_SERVER, k.build))]
                else k'.proc == Exited && k'.replies == k.replies)
  {
    var k := s.links[a.l];
    VerdictIsHello(w, PTY_CLIENT, k.build, k.sent[k.taken], a.room);
  }

  /** Its `Init` and its requests, in a state that a run can reach: with room for one descriptor it
      serves the request's PTY; and relays it to the request's client if that is a socket of the
      right kind. Otherwise it exits, and relays nothing. */
  lemma PtyVerdicts(w: World, s: State, a: Action, s': State)
    requires Inv(w, s) && (a.PtyInit? || a.PtyRequest?) && Step(w, s, a) == Some(s')
    ensures a.l < |s.links| == |s'.links| && s.links[a.l].req < |s.requests| && s.requests[s.links[a.l].req].pty.Some?
    ensures var k', rq := s'.links[a.l], s.requests[s.links[a.l].req];
            && (a.PtyInit? ==> k'.relays == [] && k'.proc == if a.room >= 1 then Serving(rq.pty.value) else Exited)
            && (a.PtyRequest? ==>
                  if a.room >= 1 && IsSeqPacket(rq.client)
                  then k'.proc == Serving(rq.pty.value) && k'.relays == [Relay(rq.pty.value, rq.client)]
                  else k'.proc == Exited && k'.relays == [])
  {
    assert LinkOk(w, s, a.l);
    var rq := s.requests[s.links[a.l].req];
    InitReceived(rq.pty.value, a.room);
    NewClientReceived(rq.client, a.room);
  }

  /** A failure is possible, and then is a panic, at exactly these places: in `create_shell`, in the
      connect, in sending or receiving the handshake, and in sending `Init` or the client. */
  lemma PanicsAt(w: World, s: State, t: nat)
    ensures Step(w, s, Panic(t)).Some?
            <==> t < |s.threads| && s.threads[t].pc in {Starting, Started, Connected, Greeting, Greeted, Presenting}
  {
  }

  /** The map's mutex: a thread that wants it waits exactly while another has it, and gets it, or
      panics if the mutex is poisoned. */
  lemma MapLockVerdict(w: World, s: State, t: nat)
    requires t < |s.threads| && s.threads[t].pc == Received
    ensures match Step(w, s, LockMap(t))
            case None => s.mapLock.Some?
            case Some(s') =>
              && s.mapLock.None? && |s'.threads| == |s.threads|
              && s'.threads[t].pc == (if s.mapPoisoned then Done else Choosing)
              && s'.mapLock == (if s.mapPoisoned then None else Some(t))
  {
  }

  /** And a session's. */
  lemma SessionLockVerdict(w: World, s: State, t: nat)
    requires t < |s.threads| && s.threads[t].pc == InitSent && s.threads[t].id in s.sessions
    ensures var entry := s.sessions[s.threads[t].id];
            match Step(w, s, LockSession(t))
            case None => entry.lock.Some?
            case Some(s') =>
              && entry.lock.None? && |s'.threads| == |s.threads| && s.threads[t].id in s'.sessions
              && s'.threads[t].pc == (if entry.poisoned then Done else Storing)
              && s'.sessions[s.threads[t].id].lock == (if entry.poisoned then None else Some(t))
  {
  }

  /** A thread that ends with a mutex in its hands leaves it free and poisoned. */
  lemma QuitPoisons(s: State, t: nat)
    requires t < |s.threads|
    ensures var th, s' := s.threads[t], Quit(s, t);
            && (HoldsMap(th.pc) ==> s'.mapLock == None && s'.mapPoisoned)
            && (HoldsSession(th.pc) && th.id in s.sessions ==>
                  th.id in s'.sessions && s'.sessions[th.id].lock == None && s'.sessions[th.id].poisoned)
            && (!HoldsMap(th.pc) ==> s'.mapLock == s.mapLock && s'.mapPoisoned == s.mapPoisoned)
            && (!HoldsSession(th.pc) ==> s'.sessions == s.sessions)
  {
  }

  // ---------------------------------------------------------------- over runs: the service's clients

  /** Step `j` was the handshake of thread `t`, and it passed. */
  ghost predicate WasGreeted(w: World, actions: seq<Action>, j: nat, t: nat) {
    && j < |actions| && actions[j].ServeHandshake? && actions[j].t == t && actions[j].accepted
    && IsHello(w, SESSIONS_CLIENT, w.build, actions[j].hello)
  }

  /** A thread leaves `Handshaking` only by a handshake, and new threads begin there. */
  lemma LeavesHandshaking(w: World, s: State, a: Action, s': State, t: nat)
    requires Step(w, s, a) == Some(s') && t < |s'.threads|
    requires t >= |s.threads| || s.threads[t].pc == Handshaking
    ensures s'.threads[t].pc == Handshaking || (t < |s.threads| && a.ServeHandshake? && a.t == t)
  {
    if IsBusyStep(a) {
      BusyMovesOne(w, s, a, s');
      BusyNotHandshaking(w, s, a);
    } else if IsLinkStep(a) {
      LinkStepsOnly(w, s, a, s');
    } else if a.TakeRequest? {
      TakeMovesOne(s, a, s');
    } else {
      RestLeaves(w, s, a, s', t);
    }
  }

  lemma BusyNotHandshaking(w: World, s: State, a: Action)
    requires Step(w, s, a).Some? && IsBusyStep(a)
    ensures a.t < |s.threads| && s.threads[a.t].pc != Handshaking
  {
  }

  lemma TakeMovesOne(s: State, a: Action, s': State)
    requires a.TakeRequest? && a.t < |s.threads| && DoTakeRequest(s, a.t, a.packet, a.room, a.fds) == Some(s')
    ensures s.threads[a.t].pc == Idle && |s'.threads| == |s.threads|
    ensures forall u :: 0 <= u < |s.threads| && u != a.t ==> s'.threads[u] == s.threads[u]
  {
  }

  /** What a step that is neither a busy thread's nor a pty process's nor a receive does to threads. */
  ghost predicate RestShape(s: State, a: Action, s': State)
    requires IsRestStep(a)
  {
    && s'.links == s.links && |s.threads| <= |s'.threads|
    && (forall u :: |s.threads| <= u < |s'.threads| ==> s'.threads[u].pc == Handshaking)
    && forall u :: 0 <= u < |s.threads| ==>
         || s'.threads[u] == s.threads[u]
         || (!a.Accept? && a.t == u && !HasLink(s'.threads[u].pc) && (s.threads[u].pc == Handshaking ==> a.ServeHandshake?))
  }

  lemma ServeHandshakeShape(w: World, s: State, a: Action, s': State)
    requires a.ServeHandshake? && a.t < |s.threads| && DoServeHandshake(w, s, a.t, a.hello, a.room, a.accepted) == Some(s')
    ensures RestShape(s, a, s')
  {
  }

  lemma LockMapShape(s: State, a: Action, s': State)
    requires a.LockMap? && a.t < |s.threads| && DoLockMap(s, a.t) == Some(s')
    ensures RestShape(s, a, s')
  {
  }

  lemma UnlockMapShape(s: State, a: Action, s': State)
    requires a.UnlockMap? && a.t < |s.threads| && DoUnlockMap(s, a.t) == Some(s')
    ensures RestShape(s, a, s')
  {
  }

  lemma PanicShape(s: State, a: Action, s': State)
    requires a.Panic? && a.t < |s.threads| && MayPanic(s.threads[a.t].pc) && s' == Quit(s, a.t)
    ensures RestShape(s, a, s')
  {
  }

  lemma RestIsShaped(w: World, s: State, a: Action, s': State)
    requires Step(w, s, a) == Some(s') && IsRestStep(a) && !a.TakeReply?
    ensures RestShape(s, a, s')
  {
    match a
    case Accept(fd, obj) => assert s' == Spawn(s, fd, obj);
    case ServeHandshake(_, _, _, _) => ServeHandshakeShape(w, s, a, s');
    case LockMap(_) => LockMapShape(s, a, s');
    case UnlockMap(_) => UnlockMapShape(s, a, s');
    case Panic(_) => PanicShape(s, a, s');
  }

  lemma RestLeaves(w: World, s: State, a: Action, s': State, t: nat)
    requires Step(w, s, a) == Some(s') && IsRestStep(a) && t < |s'.threads|
    requires t >= |s.threads| || s.threads[t].pc == Handshaking
    ensures s'.threads[t].pc == Handshaking || (t < |s.threads| && a.ServeHandshake? && a.t == t)
  {
    if a.TakeReply? { ReplyLeaves(w, s, a.t, a.room, s'); } else { RestIsShaped(w, s, a, s'); }
  }

  /** What taking a reply does to threads and links. */
  lemma ReplyLeaves(w: World, s: State, t: nat, room: nat, s': State)
    requires t < |s.threads| && DoTakeReply(w, s, t, room) == Some(s')
    ensures s.threads[t].pc == Greeting && s.threads[t].link < |s.links|
    ensures s'.threads == s.threads[t := s'.threads[t]] && s'.threads[t].link == s.threads[t].link
    ensures var l := s.threads[t].link; s'.links == s.links[l := s.links[l].(repliesTaken := s.links[l].repliesTaken + 1)]
  {
    ReplyCases(w, s, t, room);
  }

  /** Past its handshake, and not ended. */
  predicate IsServed(s: State, t: nat) {
    t < |s.threads| && s.threads[t].pc != Handshaking && s.threads[t].pc != Done
  }

  /** A served thread was served before, or has just passed its handshake. */
  lemma ServedStep(w: World, s: State, a: Action, s': State, t: nat)
    requires Step(w, s, a) == Some(s') && IsServed(s', t)
    ensures IsServed(s, t)
            || (a.ServeHandshake? && a.t == t && a.accepted && IsHello(w, SESSIONS_CLIENT, w.build, a.hello))
  {
    if t < |s.threads| && s.threads[t].pc == Done {
      DoneStays(w, s, a, s', t);
    } else if !IsServed(s, t) {
      LeavesHandshaking(w, s, a, s', t);
      ServeHandshakeVerdict(w, s, a, s');
    }
  }

  /** In every run: a thread that is anywhere past its handshake, and has not ended, had a handshake
      that passed, its own, before. So no request is ever taken from a peer whose handshake failed. */
  lemma {:induction false} ServedOnlyIfGreeted(w: World, states: seq<State>, actions: seq<Action>, i: nat, t: nat) returns (j: nat)
    requires IsRun(w, states, actions) && i < |states| && IsServed(states[i], t)
    ensures j < i && WasGreeted(w, actions, j, t)
  {
    assert i > 0 by { assert Start(states[0]); }
    assert Follows(w, states, actions, i - 1);
    ServedStep(w, states[i - 1], actions[i - 1], states[i], t);
    if IsServed(states[i - 1], t) {
      j := ServedOnlyIfGreeted(w, states, actions, i - 1, t);
    } else {
      j := i - 1;
    }
  }

  // ---------------------------------------------------------------- over runs: the pty processes

  /** What thread `t` has seen of its pty process's reply. */
  ghost predicate ReplySeen(w: World, s: State, t: nat)
    requires t < |s.threads|
  {
    var th := s.threads[t];
    HasLink(th.pc) ==>
      && th.link < |s.links|
      && (Rank(th.pc) <= 8 ==> s.links[th.link].repliesTaken == 0)
      && (Rank(th.pc) >= 9 ==> s.links[th.link].replies != [] && IsHello(w, PTY_SERVER, w.build, s.links[th.link].replies[0]))
  }

  /** What the pty process of link `l` has seen of its client's hello, and of the client it relays. */
  ghost predicate HelloSeen(w: World, s: State, l: nat)
    requires l < |s.links|
  {
    var k := s.links[l];
    && (k.proc == AwaitInit || k.proc.Serving? || k.replies != [] || k.relays != [] ==>
          k.sent != [] && IsHello(w, PTY_CLIENT, k.build, k.sent[0]))
    && forall i :: 0 <= i < |k.relays| ==> IsSeqPacket(k.relays[i].client)
  }

  lemma RepliesStayBusy(w: World, s: State, a: Action, s': State, l: nat)
    requires Step(w, s, a) == Some(s') && IsBusyStep(a) && l < |s.links|
    ensures l < |s'.links| && s'.links[l].repliesTaken == s.links[l].repliesTaken
  {
  }

  /** A step of a pty process changes its own link only, and of that only its own side. */
  ghost predicate LinkShape(s: State, a: Action, s': State)
    requires IsLinkStep(a)
  {
    && a.l < |s.links| == |s'.links| && s'.links == s.links[a.l := s'.links[a.l]]
    && var k, k' := s.links[a.l], s'.links[a.l];
       && k'.repliesTaken == k.repliesTaken && k'.sent == k.sent && k'.build == k.build && k.proc != Exited
       && (a.PtyHello? ==> k.proc == AwaitHello && k'.relays == k.relays)
       && (a.PtyInit? ==> k.proc == AwaitInit && k'.replies == k.replies)
       && (a.PtyRequest? ==> k.proc.Serving? && k'.replies == k.replies)
       && (a.PtyExit? ==> k' == k.(proc := Exited))
  }

  lemma PtyHelloShape(w: World, s: State, a: Action, s': State)
    requires a.PtyHello? && a.l < |s.links| && DoPtyHello(w, s, a.l, a.room) == Some(s')
    ensures LinkShape(s, a, s')
  {
  }

  lemma PtyInitShape(s: State, a: Action, s': State)
    requires a.PtyInit? && a.l < |s.links| && DoPtyInit(s, a.l, a.room) == Some(s')
    ensures LinkShape(s, a, s')
  {
  }

  lemma PtyRequestStepShape(s: State, a: Action, s': State)
    requires a.PtyRequest? && a.l < |s.links| && DoPtyRequest(s, a.l, a.room) == Some(s')
    ensures LinkShape(s, a, s')
  {
  }

  lemma LinkIsShaped(w: World, s: State, a: Action, s': State)
    requires Step(w, s, a) == Some(s') && IsLinkStep(a)
    ensures LinkShape(s, a, s')
  {
    match a
    case PtyHello(_, _) => PtyHelloShape(w, s, a, s');
    case PtyInit(_, _) => PtyInitShape(s, a, s');
    case PtyRequest(_, _) => PtyRequestStepShape(s, a, s');
    case PtyExit(_) =>
  }

  lemma RepliesStayLink(w: World, s: State, a: Action, s': State, l: nat)
    requires Step(w, s, a) == Some(s') && IsLinkStep(a) && l < |s.links|
    ensures l < |s'.links| && s'.links[l].repliesTaken == s.links[l].repliesTaken
  {
    LinkIsShaped(w, s, a, s');
  }

  lemma RepliesStayTake(s: State, a: Action, s': State)
    requires a.TakeRequest? && a.t < |s.threads| && DoTakeRequest(s, a.t, a.packet, a.room, a.fds) == Some(s')
    ensures s'.links == s.links
  {
  }

  /** Outside a pty process's own steps nothing changes on its side of the link, and new links have
      nothing on it. */
  lemma PtySideStays(w: World, s: State, a: Action, s': State, l: nat)
    requires Step(w, s, a) == Some(s') && l < |s'.links| && !(IsLinkStep(a) && a.l == l)
    ensures l < |s.links| ==> PtySide(s'.links[l]) == PtySide(s.links[l]) && s.links[l].sent <= s'.links[l].sent
    ensures l >= |s.links| ==> PtySide(s'.links[l]).1 == AwaitHello && s'.links[l].replies == [] && s'.links[l].relays == []
                               && s'.links[l].repliesTaken == 0
  {
    if IsBusyStep(a) {
      PtySideStaysBusy(w, s, a, s', l);
    } else if IsLinkStep(a) {
      OtherLinkStays(w, s, a, s', l);
    } else if a.TakeRequest? {
      RepliesStayTake(s, a, s');
    } else if a.TakeReply? {
      ReplyLeaves(w, s, a.t, a.room, s');
    } else {
      RestIsShaped(w, s, a, s');
    }
  }

  /** What only the pty process of a link changes. */
  function PtySide(k: Link): (seq<Byte>, PtyProc, seq<Packet<Obj>>, seq<Relay>) { (k.build, k.proc, k.replies, k.relays) }

  lemma PtySideStaysBusy(w: World, s: State, a: Action, s': State, l: nat)
    requires Step(w, s, a) == Some(s') && IsBusyStep(a) && l < |s'.links|
    ensures l < |s.links| ==> PtySide(s'.links[l]) == PtySide(s.links[l]) && s.links[l].sent <= s'.links[l].sent
    ensures l >= |s.links| ==> PtySide(s'.links[l]).1 == AwaitHello && s'.links[l].replies == [] && s'.links[l].relays == []
                               && s'.links[l].repliesTaken == 0
  {
    if IsLockStep(a) { LockLink(w, s, a, s'); }
  }

  lemma OtherLinkStays(w: World, s: State, a: Action, s': State, l: nat)
    requires Step(w, s, a) == Some(s') && IsLinkStep(a) && l < |s'.links| && a.l != l
    ensures l < |s.links| && s'.links[l] == s.links[l]
  {
    LinkIsShaped(w, s, a, s');
  }

  lemma HelloSeenKeeps(w: World, s: State, a: Action, s': State, l: nat)
    requires Inv(w, s) && Step(w, s, a) == Some(s') && l < |s'.links|
    requires l < |s.links| ==> HelloSeen(w, s, l)
    ensures HelloSeen(w, s', l)
  {
    if IsLinkStep(a) && a.l == l {
      OwnStepSeen(w, s, a, s');
    } else {
      PtySideStays(w, s, a, s', l);
    }
  }

  lemma OwnStepSeen(w: World, s: State, a: Action, s': State)
    requires Inv(w, s) && Step(w, s, a) == Some(s') && IsLinkStep(a) && HelloSeen(w, s, a.l)
    ensures a.l < |s'.links| && HelloSeen(w, s', a.l)
  {
    assert LinkOk(w, s, a.l);
    LinkIsShaped(w, s, a, s');
    if a.PtyHello? { PtyHelloVerdict(w, s, a, s'); }
    if a.PtyInit? || a.PtyRequest? { PtyVerdicts(w, s, a, s'); }
  }


  // ---------------------------------------------------------------- over runs: the replies

  /** A busy step of a thread keeps its link and whether its reply was taken, except the connect,
      which gives it a new one. */
  lemma BusyLink(w: World, s: State, a: Action, s': State)
    requires Step(w, s, a) == Some(s') && IsBusyStep(a)
    ensures a.t < |s.threads| == |s'.threads|
    ensures var th, th' := s.threads[a.t], s'.threads[a.t];
            && (a.Connect? ==> th'.pc == Connected && th'.link == |s.links| < |s'.links| && s'.links[th'.link].repliesTaken == 0)
            && (!a.Connect? && HasLink(th'.pc) ==> th'.link == th.link && HasLink(th.pc) && (Rank(th.pc) <= 8 <==> Rank(th'.pc) <= 8))
  {
    if IsLockStep(a) { LockLink(w, s, a, s'); }
  }

  /** What a step under a session's mutex does to links, and to the thread's own. */
  ghost predicate LockShape(s: State, t: nat, s': State)
    requires t < |s.threads|
  {
    && s'.links == s.links && |s'.threads| == |s.threads|
    && s'.threads[t].link == s.threads[t].link && 10 <= Rank(s.threads[t].pc) <= 12 && Rank(s'.threads[t].pc) >= 10
  }

  lemma LockSessionShape(s: State, t: nat, s': State)
    requires t < |s.threads| && DoLockSession(s, t) == Some(s')
    ensures LockShape(s, t, s')
  {
  }

  lemma StoreShape(s: State, t: nat, s': State)
    requires t < |s.threads| && DoStore(s, t) == Some(s')
    ensures LockShape(s, t, s')
  {
  }

  lemma UnlockSessionShape(s: State, t: nat, s': State)
    requires t < |s.threads| && DoUnlockSession(s, t) == Some(s')
    ensures LockShape(s, t, s')
  {
  }

  lemma LockLink(w: World, s: State, a: Action, s': State)
    requires Step(w, s, a) == Some(s') && IsLockStep(a)
    ensures a.t < |s.threads| && LockShape(s, a.t, s')
  {
    match a
    case LockSession(_) => LockSessionShape(s, a.t, s');
    case Store(_) => StoreShape(s, a.t, s');
    case UnlockSession(_) => UnlockSessionShape(s, a.t, s');
  }

  lemma LinksOfThreadsDiffer(s: State, t: nat, u: nat)
    requires t < |s.threads| && u < |s.threads| && t != u && ThreadOk(s, t) && ThreadOk(s, u)
    requires HasLink(s.threads[t].pc) && HasLink(s.threads[u].pc)
    ensures s.threads[t].link != s.threads[u].link
  {
    assert LinkOf(s, t) && LinkOf(s, u);
  }

  lemma DistinctLinks(w: World, s: State, t: nat, u: nat)
    requires Inv(w, s) && t < |s.threads| && u < |s.threads| && t != u
    requires HasLink(s.threads[t].pc) && HasLink(s.threads[u].pc)
    ensures s.threads[t].link != s.threads[u].link
  {
    assert ThreadOk(s, t) && ThreadOk(s, u);
    LinksOfThreadsDiffer(s, t, u);
  }

  lemma ReplySeenKeeps(w: World, s: State, a: Action, s': State, t: nat)
    requires Inv(w, s) && Extends(s, s') && Step(w, s, a) == Some(s') && t < |s'.threads|
    requires t < |s.threads| ==> ReplySeen(w, s, t)
    ensures ReplySeen(w, s', t)
  {
    if t >= |s.threads| {
      LeavesHandshaking(w, s, a, s', t);
    } else {
      var l := s.threads[t].link;
      if l < |s.links| { assert LinkExtends(s.links[l], s'.links[l]); }
      if IsBusyStep(a) {
        BusyReplySeen(w, s, a, s', t);
      } else if IsLinkStep(a) {
        LinkStepsOnly(w, s, a, s');
        if l < |s.links| { RepliesStayLink(w, s, a, s', l); }
      } else if a.TakeRequest? {
        TakeReplySeen(w, s, a, s', t);
      } else {
        RestReplySeen(w, s, a, s', t);
      }
    }
  }

  lemma BusyReplySeen(w: World, s: State, a: Action, s': State, t: nat)
    requires Step(w, s, a) == Some(s') && IsBusyStep(a) && t < |s.threads| && ReplySeen(w, s, t)
    requires s.threads[t].link < |s.links| ==> s.threads[t].link < |s'.links|
                                               && s.links[s.threads[t].link].replies <= s'.links[s.threads[t].link].replies
    ensures t < |s'.threads| && ReplySeen(w, s', t)
  {
    BusyMovesOne(w, s, a, s');
    BusyLink(w, s, a, s');
    if s.threads[t].link < |s.links| { RepliesStayBusy(w, s, a, s', s.threads[t].link); }
  }

  lemma TakeReplySeen(w: World, s: State, a: Action, s': State, t: nat)
    requires Step(w, s, a) == Some(s') && a.TakeRequest? && t < |s.threads| && ReplySeen(w, s, t)
    ensures t < |s'.threads| && ReplySeen(w, s', t)
  {
    TakeMovesOne(s, a, s');
    RepliesStayTake(s, a, s');
    TakeRequestVerdict(w, s, a, s');
  }

  lemma RestReplySeen(w: World, s: State, a: Action, s': State, t: nat)
    requires Inv(w, s) && Step(w, s, a) == Some(s') && IsRestStep(a) && t < |s.threads| && ReplySeen(w, s, t)
    ensures t < |s'.threads| && ReplySeen(w, s', t)
  {
    if a.TakeReply? {
      ReplyReplySeen(w, s, a, s', t);
    } else {
      RestMoves(w, s, a, s', t);
    }
  }

  lemma ReplyReplySeen(w: World, s: State, a: Action, s': State, t: nat)
    requires Inv(w, s) && Step(w, s, a) == Some(s') && a.TakeReply? && t < |s.threads| && ReplySeen(w, s, t)
    ensures t < |s'.threads| && ReplySeen(w, s', t)
  {
    ReplyIsTaken(w, s, a, s');
    if t != a.t && HasLink(s.threads[t].pc) { DistinctLinks(w, s, t, a.t); }
    ReplyTaken(w, s, s', a.t, t);
  }

  /** Thread `u` took its reply off its link, and goes on or ends. */
  ghost predicate TakesOff(w: World, s: State, u: nat, s': State) {
    && u < |s.threads| && s.threads[u].pc == Greeting && s.threads[u].link < |s.links|
    && |s'.threads| == |s.threads| && s'.threads == s.threads[u := s'.threads[u]] && s'.threads[u].link == s.threads[u].link
    && var l := s.threads[u].link;
       && s'.links == s.links[l := s.links[l].(repliesTaken := s.links[l].repliesTaken + 1)]
       && s.links[l].repliesTaken < |s.links[l].replies|
       && s'.threads[u].pc == if IsHello(w, PTY_SERVER, w.build, s.links[l].replies[s.links[l].repliesTaken]) then Greeted else Done
  }

  lemma ReplyIsTaken(w: World, s: State, a: Action, s': State)
    requires Step(w, s, a) == Some(s') && a.TakeReply?
    ensures TakesOff(w, s, a.t, s')
  {
    ReplyLeaves(w, s, a.t, a.room, s');
    TakeReplyVerdict(w, s, a, s');
  }

  lemma ReplyTaken(w: World, s: State, s': State, u: nat, t: nat)
    requires t < |s.threads| && ReplySeen(w, s, t) && TakesOff(w, s, u, s')
    requires t != u && HasLink(s.threads[t].pc) ==> s.threads[t].link != s.threads[u].link
    ensures t < |s'.threads| && ReplySeen(w, s', t)
  {
  }

  lemma RestMoves(w: World, s: State, a: Action, s': State, t: nat)
    requires Step(w, s, a) == Some(s') && IsRestStep(a) && !a.TakeReply? && t < |s.threads|
    ensures t < |s'.threads| && s'.links == s.links
    ensures s'.threads[t] == s.threads[t] || !HasLink(s'.threads[t].pc)
  {
    RestIsShaped(w, s, a, s');
  }

  // ---------------------------------------------------------------- over runs: both

  ghost predicate AllSeen(w: World, s: State) {
    (forall t :: 0 <= t < |s.threads| ==> ReplySeen(w, s, t)) && (forall l :: 0 <= l < |s.links| ==> HelloSeen(w, s, l))
  }

  lemma StepSeen(w: World, s: State, a: Action, s': State)
    requires Inv(w, s) && Step(w, s, a) == Some(s') && AllSeen(w, s)
    ensures AllSeen(w, s')
  {
    StepKeeps(w, s, a, s');
    forall t | 0 <= t < |s'.threads| ensures ReplySeen(w, s', t) { ReplySeenKeeps(w, s, a, s', t); }
    forall l | 0 <= l < |s'.links| ensures HelloSeen(w, s', l) { HelloSeenKeeps(w, s, a, s', l); }
  }

  lemma NextSeen(w: World, states: seq<State>, actions: seq<Action>, i: nat)
    requires IsRun(w, states, actions) && i < |actions| && AllSeen(w, states[i])
    ensures AllSeen(w, states[i + 1])
  {
    RunInv(w, states, actions, i);
    assert Follows(w, states, actions, i);
    StepSeen(w, states[i], actions[i], states[i + 1]);
  }

  /** In every run: a thread past the handshake with its pty process has a link whose first reply is
      the hello of a pty server of its own build. A pty process past its handshake was sent the hello
      of a pty client of its own build first, and relays only sockets of the right kind. */
  lemma {:induction false} EverythingChecked(w: World, states: seq<State>, actions: seq<Action>, i: nat)
    requires IsRun(w, states, actions) && i < |states|
    ensures AllSeen(w, states[i])
  {
    if i == 0 {
      assert Start(states[0]);
    } else {
      EverythingChecked(w, states, actions, i - 1);
      NextSeen(w, states, actions, i - 1);
    }
  }

  /** So a pty process that goes on has the build of the sessions process, or a build whose key
      collides with it under the client's intent. */
  lemma PtyBuildAgrees(w: World, states: seq<State>, actions: seq<Action>, i: nat, l: nat)
    requires IsRun(w, states, actions) && i < |states| && l < |states[i].links|
    requires states[i].links[l].proc == AwaitInit || states[i].links[l].proc.Serving?
    ensures w.kdf(PTY_CLIENT, states[i].links[l].build) == w.kdf(PTY_CLIENT, w.build)
  {
    EverythingChecked(w, states, actions, i);
    RunInv(w, states, actions, i);
    var k := states[i].links[l];
    assert HelloSeen(w, states[i], l) && LinkOk(w, states[i], l);
    assert k.sent[0] == Send(Hello(w.kdf, PTY_CLIENT, w.build));
    ReceiveHandshake(PTY_CLIENT, w.kdf(PTY_CLIENT, w.build), 0);
  }
}
