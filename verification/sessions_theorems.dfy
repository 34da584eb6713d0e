/**
  What holds over whole runs of the sessions machine.
*/
module SessionsTheorems {
  import opened Wrappers
  import opened Packets
  import opened Proto
  import opened Handshakes
  import opened Sessions
  import opened SessionsInvariant
  import opened SessionsSteps

  // ---------------------------------------------------------------- routing

  /** Step `j` of a run accepted a packet with `client` as request `r`. */
  ghost predicate TookClient(states: seq<State>, actions: seq<Action>, j: nat, r: nat, client: Obj) {
    && j < |actions| < |states|
    && actions[j].TakeRequest? && actions[j].packet.handles == [client]
    && |states[j].requests| == r && r < |states[j + 1].requests|
    && states[j + 1].requests[r].owner == actions[j].t
  }

  /** Step `j` of a run is a `create_shell` for request `r` that returned `pty`. */
  ghost predicate MadePty(states: seq<State>, actions: seq<Action>, j: nat, r: nat, pty: Obj) {
    && j < |actions| < |states|
    && actions[j].CreateShell? && actions[j].t < |states[j].threads| && states[j].threads[actions[j].t].req == r
    && actions[j].fd in states[j + 1].table && states[j + 1].table[actions[j].fd] == pty
  }

  /** Requests are added only by accepting a packet that carries one descriptor, the client's. */
  lemma StepMakesRequest(w: World, s: State, a: Action, s': State, r: nat)
    requires Step(w, s, a) == Some(s')
    requires |s.requests| <= r < |s'.requests|
    ensures a.TakeRequest? && r == |s.requests| && a.packet.handles == [s'.requests[r].client] && s'.requests[r].owner == a.t
    ensures Blank(s'.requests[r])
  {
    if a.TakeRequest? {
      AcceptedMakesRequest(s, a, s');
    } else if !a.CreateShell? {
      PtysStay(w, s, a, s', r);
    }
  }

  lemma AcceptedMakesRequest(s: State, a: Action, s': State)
    requires a.TakeRequest? && a.t < |s.threads| && DoTakeRequest(s, a.t, a.packet, a.room, a.fds) == Some(s')
    ensures s'.requests == s.requests
            || (|a.packet.handles| == 1 && s'.requests == s.requests + [Request(a.t, a.packet.handles[0], None, None, None)])
  {
  }

  lemma StepMakesPty(w: World, s: State, a: Action, s': State, r: nat)
    requires Step(w, s, a) == Some(s')
    requires r < |s.requests| && s.requests[r].pty.None? && r < |s'.requests| && s'.requests[r].pty.Some?
    ensures a.CreateShell? && a.t < |s.threads| && s.threads[a.t].req == r
    ensures a.fd in s'.table && s'.table[a.fd] == s'.requests[r].pty.value
  {
    if a.TakeRequest? {
      AcceptedMakesRequest(s, a, s');
    } else if !a.CreateShell? {
      PtysStay(w, s, a, s', r);
    }
  }

  lemma PtysStay(w: World, s: State, a: Action, s': State, r: nat)
    requires Step(w, s, a) == Some(s') && !a.TakeRequest? && !a.CreateShell?
    ensures |s'.requests| == |s.requests| && (r < |s.requests| ==> s'.requests[r].pty == s.requests[r].pty)
  {
    if IsLinkStep(a) {
      LinkStepsOnly(w, s, a, s');
    } else if IsBusyStep(a) {
      PtysStayBusy(w, s, a, s', r);
    } else {
      RequestsStay(w, s, a, s');
    }
  }

  lemma LinkStepsOnly(w: World, s: State, a: Action, s': State)
    requires Step(w, s, a) == Some(s') && IsLinkStep(a)
    ensures s' == s.(links := s'.links)
  {
  }

  lemma PtysStayBusy(w: World, s: State, a: Action, s': State, r: nat)
    requires Step(w, s, a) == Some(s') && IsBusyStep(a) && !a.CreateShell?
    ensures |s'.requests| == |s.requests| && (r < |s.requests| ==> s'.requests[r].pty == s.requests[r].pty)
  {
  }

  lemma RequestsStay(w: World, s: State, a: Action, s': State)
    requires Step(w, s, a) == Some(s') && IsRestStep(a)
    ensures s'.requests == s.requests
  {
    if a.TakeReply? { ReplyRequestsStay(w, s, a.t, a.room, s'); }
  }

  lemma ReplyRequestsStay(w: World, s: State, t: nat, room: nat, s': State)
    requires t < |s.threads| && DoTakeReply(w, s, t, room) == Some(s')
    ensures s'.requests == s.requests
  {
  }

  /** Where a request's client came from. */
  lemma {:induction false} ClientOrigin(w: World, states: seq<State>, actions: seq<Action>, i: nat, r: nat) returns (j: nat)
    requires IsRun(w, states, actions) && i < |states| && r < |states[i].requests|
    ensures j < i && TookClient(states, actions, j, r, states[i].requests[r].client)
    ensures states[j + 1].requests[r].owner == states[i].requests[r].owner
  {
    if r < |states[i - 1].requests| {
      j := ClientOrigin(w, states, actions, i - 1, r);
      RequestStands(w, states, actions, i - 1, r);
    } else {
      j := i - 1;
      assert Follows(w, states, actions, j);
      StepMakesRequest(w, states[j], actions[j], states[j + 1], r);
    }
  }

  lemma RequestStands(w: World, states: seq<State>, actions: seq<Action>, i: nat, r: nat)
    requires IsRun(w, states, actions) && i < |actions| && r < |states[i].requests|
    ensures r < |states[i + 1].requests| && RequestExtends(states[i].requests[r], states[i + 1].requests[r])
  {
    RunInv(w, states, actions, i);
    NextInv(w, states, actions, i);
  }

  /** Where a request's PTY came from. */
  lemma {:induction false} PtyOrigin(w: World, states: seq<State>, actions: seq<Action>, i: nat, r: nat) returns (j: nat)
    requires IsRun(w, states, actions) && i < |states| && r < |states[i].requests| && states[i].requests[r].pty.Some?
    ensures j < i && r < |states[j].requests| && MadePty(states, actions, j, r, states[i].requests[r].pty.value)
  {
    j := i - 1;
    assert Follows(w, states, actions, j);
    if r >= |states[j].requests| {
      StepMakesRequest(w, states[j], actions[j], states[i], r);
    } else if states[j].requests[r].pty.Some? {
      RequestStands(w, states, actions, j, r);
      j := PtyOrigin(w, states, actions, j, r);
    } else {
      StepMakesPty(w, states[j], actions[j], states[i], r);
    }
  }

  /** Routing, over every interleaving: a pty process starts at most one relay. The client it
      serves was accepted as some request `r`, and the PTY it serves is the one `create_shell`
      returned for that same `r`, before. */
  lemma Routing(w: World, states: seq<State>, actions: seq<Action>, i: nat, l: nat) returns (taken: nat, made: nat)
    requires IsRun(w, states, actions) && i < |states|
    requires l < |states[i].links| && states[i].links[l].relays != []
    ensures var k := states[i].links[l];
            && |k.relays| == 1
            && taken < i && TookClient(states, actions, taken, k.req, k.relays[0].client)
            && made < i && MadePty(states, actions, made, k.req, k.relays[0].pty)
            && taken < made
  {
    RunInv(w, states, actions, i);
    assert LinkOk(w, states[i], l);
    taken := ClientOrigin(w, states, actions, i, states[i].links[l].req);
    made := PtyOrigin(w, states, actions, i, states[i].links[l].req);
    if made <= taken {
      RunExtends(w, states, actions, made, taken);
    }
  }

  /** Two pty processes never serve the same PTY, nor the same request. */
  lemma LinksApart(w: World, states: seq<State>, actions: seq<Action>, i: nat, l: nat, m: nat)
    requires IsRun(w, states, actions) && i < |states| && l < m < |states[i].links|
    ensures states[i].links[l].req != states[i].links[m].req
    ensures states[i].links[l].proc.Serving? && states[i].links[m].proc.Serving? ==> states[i].links[l].proc.pty != states[i].links[m].proc.pty
  {
    RunInv(w, states, actions, i);
    assert LinkOk(w, states[i], l) && LinkOk(w, states[i], m);
  }

  // ---------------------------------------------------------------- conversations

  /** On every link, at every moment: what was sent is a prefix of handshake, `Init`,
      `NewClient`; and whatever the pty process reads next, it reads at the step that expects
      that kind of packet, and gets back exactly the message that was sent. */
  lemma Conversation(w: World, states: seq<State>, actions: seq<Action>, i: nat, l: nat, room: nat)
    requires IsRun(w, states, actions) && i < |states| && l < |states[i].links| && room >= 1
    ensures var k := states[i].links[l];
            && k.req < |states[i].requests| && states[i].requests[k.req].pty.Some?
            && k.sent <= Script(w, states[i].requests[k.req])
            && (k.taken < |k.sent| ==>
                  match k.proc
                  case AwaitHello =>
                    Receive(HANDSHAKE, HANDSHAKE_LIMITS, k.sent[k.taken], room) == Success(Hello(w.kdf, PTY_CLIENT, w.build))
                  case AwaitInit =>
                    Receive(INIT, INIT_LIMITS, k.sent[k.taken], room) == Success(Init(states[i].requests[k.req].pty.value))
                  case Serving(_) =>
                    Receive(PTY_REQUEST, PTY_REQUEST_LIMITS, k.sent[k.taken], room) == Success(NewClient(states[i].requests[k.req].client))
                  case Exited => true)
  {
    RunInv(w, states, actions, i);
    assert LinkOk(w, states[i], l);
    var rq := states[i].requests[states[i].links[l].req];
    ReceiveHandshake(PTY_CLIENT, w.kdf(PTY_CLIENT, w.build), room);
    ReceiveInit(rq.pty.value, room);
    ReceiveNewClient(rq.client, room);
  }

  /** A session seen Ready has had its PTY sent to its pty process already, before any client. */
  lemma ReadyMeansInitialized(w: World, states: seq<State>, actions: seq<Action>, i: nat, id: SessionId)
    requires IsRun(w, states, actions) && i < |states|
    requires id in states[i].sessions && states[i].sessions[id].state.Ready?
    ensures var s, e := states[i], states[i].sessions[id];
            && e.req < |s.requests| && s.requests[e.req].link.Some? && s.requests[e.req].link.value < |s.links|
            && e.state.pty in s.table && e.state.sock in s.table && s.table[e.state.sock] == PtySocket(s.requests[e.req].link.value)
            && var sent := s.links[s.requests[e.req].link.value].sent;
               && |sent| >= 2 && sent[1] == Send(Init(s.table[e.state.pty]))
               && (|sent| > 2 ==> sent[2] == Send(NewClient(s.requests[e.req].client)))
  {
    RunInv(w, states, actions, i);
    var s, e := states[i], states[i].sessions[id];
    assert SessionOk(s, id) && RequestOk(s, e.req);
    assert LinkOk(w, s, s.requests[e.req].link.value);
  }

  // ---------------------------------------------------------------- the session map

  /** Ids are never reused, a session goes from Creating to Ready at most once, and what is
      Ready stays as it is. */
  lemma SessionsStand(w: World, states: seq<State>, actions: seq<Action>, i: nat, j: nat, id: SessionId)
    requires IsRun(w, states, actions) && i <= j < |states| && id in states[i].sessions
    ensures id in states[j].sessions
    ensures states[j].sessions[id].req == states[i].sessions[id].req
    ensures states[i].sessions[id].state.Ready? ==> states[j].sessions[id].state == states[i].sessions[id].state
  {
    RunExtends(w, states, actions, i, j);
    assert SessionExtends(states[i].sessions[id], states[j].sessions[id]);
  }

  /** None of the internal panics can happen: no mutex is ever poisoned, and a thread about to
      store its session finds it still Creating, and its own. */
  lemma NoInternalPanic(w: World, states: seq<State>, actions: seq<Action>, i: nat, t: nat)
    requires IsRun(w, states, actions) && i < |states| && t < |states[i].threads|
    ensures !states[i].mapPoisoned
    ensures forall id :: id in states[i].sessions ==> !states[i].sessions[id].poisoned
    ensures var s, th := states[i], states[i].threads[t];
            th.pc == Storing ==> th.id in s.sessions && s.sessions[th.id].state == Creating
                                 && s.sessions[th.id].req == th.req && th.req < |s.requests| && s.requests[th.req].owner == t
  {
    RunInv(w, states, actions, i);
    assert ThreadOk(states[i], t);
    forall id | id in states[i].sessions ensures !states[i].sessions[id].poisoned { assert SessionOk(states[i], id); }
  }

  /** At most one thread is in each critical section, and none is in two. */
  lemma LocksExclude(w: World, states: seq<State>, actions: seq<Action>, i: nat, t: nat, u: nat)
    requires IsRun(w, states, actions) && i < |states| && t < |states[i].threads| && u < |states[i].threads|
    ensures var a, b := states[i].threads[t], states[i].threads[u];
            && (HoldsMap(a.pc) && HoldsMap(b.pc) ==> t == u)
            && (HoldsSession(a.pc) && HoldsSession(b.pc) && a.id == b.id ==> t == u)
            && !(HoldsMap(a.pc) && HoldsSession(a.pc))
  {
    RunInv(w, states, actions, i);
    Exclusion(states[i], t, u);
  }

  lemma Exclusion(s: State, t: nat, u: nat)
    requires t < |s.threads| && u < |s.threads| && ThreadOk(s, t) && ThreadOk(s, u)
    ensures var a, b := s.threads[t], s.threads[u];
            && (HoldsMap(a.pc) && HoldsMap(b.pc) ==> t == u)
            && (HoldsSession(a.pc) && HoldsSession(b.pc) && a.id == b.id ==> t == u)
            && !(HoldsMap(a.pc) && HoldsSession(a.pc))
  {
  }

  /** Locks never make a thread wait for long: a session's mutex is free whenever a thread
      wants it, and whoever holds a mutex has a step to take that needs no other. */
  lemma LocksProgress(w: World, states: seq<State>, actions: seq<Action>, i: nat, t: nat)
    requires IsRun(w, states, actions) && i < |states| && t < |states[i].threads|
    ensures var s, pc := states[i], states[i].threads[t].pc;
            && (pc == InitSent ==> DoLockSession(s, t).Some? && DoLockSession(s, t).value.threads[t].pc == Storing)
            && (pc == Choosing ==> forall id :: DoDraw(s, t, id).Some?)
            && (pc == Chosen ==> DoUnlockMap(s, t).Some?)
            && (pc == Storing ==> DoStore(s, t).Some? && DoStore(s, t).value.threads[t].pc == Stored)
            && (pc == Stored ==> DoUnlockSession(s, t).Some?)
  {
    RunInv(w, states, actions, i);
    var s, a := states[i], states[i].threads[t];
    assert ThreadOk(s, t);
    if HasId(a.pc) {
      assert SessionOk(s, a.id);
      FreeForMe(s, t);
      HasIdProgress(s, t);
    }
  }

  lemma FreeForMe(s: State, t: nat)
    requires t < |s.threads| && ThreadOk(s, t) && HasId(s.threads[t].pc)
    requires SessionOk(s, s.threads[t].id) && Threads(s)
    ensures var lock := s.sessions[s.threads[t].id].lock; lock.Some? ==> lock.value == t
  {
    var lock := s.sessions[s.threads[t].id].lock;
    if lock.Some? { SameSessionSameThread(s, t, lock.value); }
  }

  lemma SameSessionSameThread(s: State, t: nat, u: nat)
    requires t < |s.threads| && u < |s.threads| && ThreadOk(s, t) && ThreadOk(s, u)
    requires HasId(s.threads[t].pc) && HasId(s.threads[u].pc) && s.threads[t].id == s.threads[u].id
    ensures t == u
  {
  }

  lemma HasIdProgress(s: State, t: nat)
    requires t < |s.threads| && BusyOk(s, t) && HasId(s.threads[t].pc)
    requires var e := s.sessions[s.threads[t].id]; !e.poisoned && (e.lock.Some? ==> e.lock.value == t)
    ensures var pc := s.threads[t].pc;
            && (pc == InitSent ==> DoLockSession(s, t).Some? && DoLockSession(s, t).value.threads[t].pc == Storing)
            && (pc == Chosen ==> DoUnlockMap(s, t).Some?)
            && (pc == Storing ==> DoStore(s, t).Some? && DoStore(s, t).value.threads[t].pc == Stored)
            && (pc == Stored ==> DoUnlockSession(s, t).Some?)
  {
    assert SessionOf(s, t);
  }
}
