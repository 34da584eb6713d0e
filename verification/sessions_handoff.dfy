/**
  That a hand-off can complete: from any state a run can reach, a request taken while no thread
  holds the map can go all the way to a relay for its client.
*/
module SessionsHandoff {
  import opened Wrappers
  import opened Packets
  import opened PassFd
  import opened Proto
  import opened Handshakes
  import opened Sessions
  import opened SessionsInvariant
  import opened SessionsSteps
  import opened SessionsTheorems
  import Layouts

  // ---------------------------------------------------------------- sequences of steps

  ghost function Steps(w: World, s: State, actions: seq<Action>): Option<State> {
    if actions == [] then Some(s)
    else match Steps(w, s, actions[..|actions| - 1])
         case None => None
         case Some(s1) => Step(w, s1, actions[|actions| - 1])
  }

  ghost predicate Leads(w: World, s: State, actions: seq<Action>, s': State) { Steps(w, s, actions) == Some(s') }

  lemma Then(w: World, s: State, actions: seq<Action>, s1: State, a: Action, s2: State)
    requires Leads(w, s, actions, s1) && Step(w, s1, a) == Some(s2)
    ensures Leads(w, s, actions + [a], s2)
  {
    assert (actions + [a])[..|actions|] == actions;
  }

  lemma LastStep(w: World, s: State, actions: seq<Action>, s2: State) returns (s1: State)
    requires actions != [] && Leads(w, s, actions, s2)
    ensures Leads(w, s, actions[..|actions| - 1], s1) && Step(w, s1, actions[|actions| - 1]) == Some(s2)
  {
    s1 := Steps(w, s, actions[..|actions| - 1]).value;
  }

  lemma {:induction false} RunGoesOn(w: World, states: seq<State>, actions: seq<Action>, more: seq<Action>, s: State) returns (states': seq<State>)
    requires IsRun(w, states, actions) && Leads(w, states[|actions|], more, s)
    ensures states <= states' && IsRun(w, states', actions + more) && states'[|actions + more|] == s
  {
    if more == [] {
      states' := states;
      assert actions + more == actions;
    } else {
      var n := |more| - 1;
      var s1 := LastStep(w, states[|actions|], more, s);
      var before := RunGoesOn(w, states, actions, more[..n], s1);
      states' := before + [s];
      OneMore(w, before, actions + more[..n], more[n], s);
      assert actions + more == (actions + more[..n]) + [more[n]];
    }
  }

  // ---------------------------------------------------------------- one hand-off, step by step

  /** A good state in which thread `t` is at `pc` of request `r`. */
  ghost predicate At(w: World, s: State, t: nat, pc: Pc, r: nat, client: Obj) {
    && Inv(w, s)
    && t < |s.threads| && s.threads[t].pc == pc && s.threads[t].req == r
    && r < |s.requests| && s.requests[r].client == client
  }

  lemma Go(w: World, s: State, t: nat, pc: Pc, r: nat, client: Obj, a: Action, s': State)
    requires At(w, s, t, pc, r, client) && Step(w, s, a) == Some(s')
    ensures t < |s'.threads| && (s'.threads[t].req == r ==> At(w, s', t, s'.threads[t].pc, r, client))
  {
    StepKeeps(w, s, a, s');
    assert RequestExtends(s.requests[r], s'.requests[r]);
  }

  lemma {:induction false} Above(fds: set<Fd>) returns (m: nat)
    ensures forall fd :: fd in fds ==> fd < m
  {
    if fds == {} {
      m := 0;
    } else {
      var fd :| fd in fds;
      var n := Above(fds - {fd});
      m := if fd < n then n else fd + 1;
      assert forall x :: x in fds ==> x == fd || x in fds - {fd};
    }
  }

  lemma Allocate(w: World, s: State, t: nat, r: nat, client: Obj, id: SessionId) returns (actions: seq<Action>, s': State)
    requires At(w, s, t, Received, r, client) && s.mapLock == None && id !in s.sessions
    ensures Leads(w, s, actions, s') && At(w, s', t, Starting, r, client) && s'.mapLock == None && s'.threads[t].id == id
  {
    var s1 := DoLockMap(s, t).value;
    Go(w, s, t, Received, r, client, LockMap(t), s1);
    assert ThreadOk(s1, t);
    var s2 := DoDraw(s1, t, id).value;
    Go(w, s1, t, Choosing, r, client, Draw(t, id), s2);
    var s3 := DoUnlockMap(s2, t).value;
    Go(w, s2, t, Chosen, r, client, UnlockMap(t), s3);
    Then(w, s, [], s, LockMap(t), s1);
    Then(w, s, [] + [LockMap(t)], s1, Draw(t, id), s2);
    Then(w, s, [] + [LockMap(t)] + [Draw(t, id)], s2, UnlockMap(t), s3);
    actions, s' := [] + [LockMap(t)] + [Draw(t, id)] + [UnlockMap(t)], s3;
  }

  /** A descriptor number that is free. */
  lemma FreeFd(s: State) returns (fd: Fd)
    ensures fd !in s.table
  {
    fd := Above(s.table.Keys);
  }

  /** The pty process of thread `t`'s request is of our build and has read `taken` packets. */
  ghost predicate PtyAt(w: World, s: State, t: nat, l: nat, taken: nat, proc: PtyProc) {
    && t < |s.threads| && l < |s.links| && s.threads[t].link == l
    && s.links[l].build == w.build && s.links[l].taken == taken && s.links[l].proc == proc
    && (taken == 0 ==> s.links[l].replies == [] && s.links[l].repliesTaken == 0)
  }

  lemma Prepare(w: World, s: State, t: nat, r: nat, client: Obj) returns (actions: seq<Action>, s': State)
    requires At(w, s, t, Starting, r, client)
    ensures Leads(w, s, actions, s') && At(w, s', t, Connected, r, client) && s'.threads[t].id == s.threads[t].id
    ensures PtyAt(w, s', t, s'.threads[t].link, 0, AwaitHello)
  {
    var shell := FreeFd(s);
    var s1 := DoCreateShell(s, t, shell).value;
    Go(w, s, t, Starting, r, client, CreateShell(t, shell), s1);
    var sock := FreeFd(s1);
    var s2 := DoConnect(s1, t, sock, w.build).value;
    Go(w, s1, t, Started, r, client, Connect(t, sock, w.build), s2);
    Then(w, s, [], s, CreateShell(t, shell), s1);
    Then(w, s, [] + [CreateShell(t, shell)], s1, Connect(t, sock, w.build), s2);
    actions, s' := [] + [CreateShell(t, shell)] + [Connect(t, sock, w.build)], s2;
  }

  lemma OwnHelloPasses(w: World, room: nat)
    ensures HelloPasses(w, w.build, Send(Hello(w.kdf, PTY_CLIENT, w.build)), room)
    ensures ReplyPasses(w, PtyReply(w, w.build), room)
  {
    JudgeHello(w.kdf, PTY_CLIENT, w.build, PTY_CLIENT, w.build, room);
    JudgeHello(w.kdf, PTY_SERVER, w.build, PTY_SERVER, w.build, room);
  }

  /** What is on the link of a thread that is at `pc`. */
  lemma OnLink(w: World, s: State, t: nat, pc: Pc, r: nat, client: Obj)
    requires At(w, s, t, pc, r, client) && HasLink(pc)
    ensures var l := s.threads[t].link;
            && l < |s.links| && s.requests[r].pty.Some? && s.requests[r].link == Some(l) && s.links[l].req == r
            && s.links[l].sent == Script(w, s.requests[r])[..SentBy(pc)]
  {
    assert ThreadOk(s, t) && LinkOf(s, t);
    assert LinkOk(w, s, s.threads[t].link);
  }

  /** Thread `t` at `pc` of request `r` with session `id`; the pty process on link `l` has read
      `taken` packets and is at `proc`. */
  ghost predicate Hand(w: World, s: State, t: nat, pc: Pc, r: nat, client: Obj, id: SessionId, l: nat, taken: nat, proc: PtyProc) {
    At(w, s, t, pc, r, client) && s.threads[t].id == id && PtyAt(w, s, t, l, taken, proc)
  }

  lemma StepSendHello(w: World, s: State, t: nat, r: nat, client: Obj, id: SessionId, l: nat) returns (s': State)
    requires Hand(w, s, t, Connected, r, client, id, l, 0, AwaitHello)
    ensures Step(w, s, SendHello(t)) == Some(s') && Hand(w, s', t, Greeting, r, client, id, l, 0, AwaitHello)
  {
    s' := DoSendHello(w, s, t).value;
    Go(w, s, t, Connected, r, client, SendHello(t), s');
  }

  lemma PtyHelloEffect(w: World, s: State, t: nat, l: nat)
    requires PtyAt(w, s, t, l, 0, AwaitHello) && |s.links[l].sent| > 0 && s.links[l].sent[0] == Send(Hello(w.kdf, PTY_CLIENT, w.build))
    ensures DoPtyHello(w, s, l, 0).Some?
    ensures var s' := DoPtyHello(w, s, l, 0).value;
            && s'.threads == s.threads && PtyAt(w, s', t, l, 1, AwaitInit)
            && s'.links[l].replies == [PtyReply(w, w.build)] && s'.links[l].repliesTaken == 0
  {
    OwnHelloPasses(w, 0);
  }

  lemma StepPtyHello(w: World, s: State, t: nat, r: nat, client: Obj, id: SessionId, l: nat) returns (s': State)
    requires Hand(w, s, t, Greeting, r, client, id, l, 0, AwaitHello)
    ensures Step(w, s, PtyHello(l, 0)) == Some(s') && Hand(w, s', t, Greeting, r, client, id, l, 1, AwaitInit)
    ensures s'.links[l].replies == [PtyReply(w, w.build)] && s'.links[l].repliesTaken == 0
  {
    OnLink(w, s, t, Greeting, r, client);
    PtyHelloEffect(w, s, t, l);
    s' := DoPtyHello(w, s, l, 0).value;
    Go(w, s, t, Greeting, r, client, PtyHello(l, 0), s');
  }

  lemma TakeReplyEffect(w: World, s: State, t: nat, l: nat)
    requires PtyAt(w, s, t, l, 1, AwaitInit) && s.threads[t].pc == Greeting
    requires s.links[l].replies == [PtyReply(w, w.build)] && s.links[l].repliesTaken == 0
    ensures DoTakeReply(w, s, t, 0).Some?
    ensures var s' := DoTakeReply(w, s, t, 0).value;
            s'.threads == s.threads[t := s.threads[t].(pc := Greeted)] && PtyAt(w, s', t, l, 1, AwaitInit)
  {
    OwnHelloPasses(w, 0);
  }

  lemma StepIsTakeReply(w: World, s: State, t: nat, room: nat)
    requires t < |s.threads|
    ensures Step(w, s, TakeReply(t, room)) == DoTakeReply(w, s, t, room)
  {
  }

  lemma StepTakeReply(w: World, s: State, t: nat, r: nat, client: Obj, id: SessionId, l: nat) returns (s': State)
    requires Hand(w, s, t, Greeting, r, client, id, l, 1, AwaitInit)
    requires s.links[l].replies == [PtyReply(w, w.build)] && s.links[l].repliesTaken == 0
    ensures Step(w, s, TakeReply(t, 0)) == Some(s') && Hand(w, s', t, Greeted, r, client, id, l, 1, AwaitInit)
  {
    TakeReplyEffect(w, s, t, l);
    StepIsTakeReply(w, s, t, 0);
    s' := Step(w, s, TakeReply(t, 0)).value;
    Go(w, s, t, Greeting, r, client, TakeReply(t, 0), s');
  }

  lemma Greet(w: World, s: State, t: nat, r: nat, client: Obj, id: SessionId, l: nat) returns (actions: seq<Action>, s': State)
    requires Hand(w, s, t, Connected, r, client, id, l, 0, AwaitHello)
    ensures Leads(w, s, actions, s') && Hand(w, s', t, Greeted, r, client, id, l, 1, AwaitInit)
  {
    var s1 := StepSendHello(w, s, t, r, client, id, l);
    var s2 := StepPtyHello(w, s1, t, r, client, id, l);
    s' := StepTakeReply(w, s2, t, r, client, id, l);
    actions := Three(w, s, SendHello(t), s1, PtyHello(l, 0), s2, TakeReply(t, 0), s');
  }

  lemma Three(w: World, s: State, a: Action, s1: State, b: Action, s2: State, c: Action, s3: State) returns (actions: seq<Action>)
    requires Step(w, s, a) == Some(s1) && Step(w, s1, b) == Some(s2) && Step(w, s2, c) == Some(s3)
    ensures Leads(w, s, actions, s3)
  {
    Then(w, s, [], s, a, s1);
    Then(w, s, [] + [a], s1, b, s2);
    Then(w, s, [] + [a] + [b], s2, c, s3);
    actions := [] + [a] + [b] + [c];
  }

  lemma MyDescriptors(w: World, s: State, t: nat, pc: Pc, r: nat, client: Obj)
    requires At(w, s, t, pc, r, client) && Busy(pc)
    ensures s.threads[t].client in s.table && s.table[s.threads[t].client] == client
    ensures OwnsPty(pc) ==> s.threads[t].pty in s.table
  {
    assert ThreadOk(s, t);
  }

  lemma SendInitEffect(w: World, s: State, t: nat, l: nat)
    requires t < |s.threads| && s.threads[t].pty in s.table && s.threads[t].pc == Greeted && PtyAt(w, s, t, l, 1, AwaitInit)
    ensures DoSendInit(s, t).Some?
    ensures var s' := DoSendInit(s, t).value; s'.threads == s.threads[t := s.threads[t].(pc := InitSent)] && PtyAt(w, s', t, l, 1, AwaitInit)
  {
  }

  lemma StepSendInit(w: World, s: State, t: nat, r: nat, client: Obj, id: SessionId, l: nat) returns (s': State)
    requires Hand(w, s, t, Greeted, r, client, id, l, 1, AwaitInit)
    ensures Step(w, s, SendInit(t)) == Some(s') && Hand(w, s', t, InitSent, r, client, id, l, 1, AwaitInit)
  {
    MyDescriptors(w, s, t, Greeted, r, client);
    SendInitEffect(w, s, t, l);
    s' := DoSendInit(s, t).value;
    Go(w, s, t, Greeted, r, client, SendInit(t), s');
  }

  lemma Enabled(w: World, s: State, t: nat, pc: Pc, r: nat, client: Obj)
    requires At(w, s, t, pc, r, client) && pc in {InitSent, Storing, Stored}
    ensures pc == InitSent ==> DoLockSession(s, t).Some? && DoLockSession(s, t).value.threads[t].pc == Storing
    ensures pc == Storing ==> DoStore(s, t).Some? && DoStore(s, t).value.threads[t].pc == Stored
    ensures pc == Stored ==> DoUnlockSession(s, t).Some?
  {
    assert ThreadOk(s, t) && SessionOk(s, s.threads[t].id);
    FreeForMe(s, t);
    HasIdProgress(s, t);
  }

  lemma StepLockSession(w: World, s: State, t: nat, r: nat, client: Obj, id: SessionId, l: nat) returns (s': State)
    requires Hand(w, s, t, InitSent, r, client, id, l, 1, AwaitInit)
    ensures Step(w, s, LockSession(t)) == Some(s') && Hand(w, s', t, Storing, r, client, id, l, 1, AwaitInit)
  {
    Enabled(w, s, t, InitSent, r, client);
    s' := DoLockSession(s, t).value;
    Go(w, s, t, InitSent, r, client, LockSession(t), s');
  }

  lemma StoreEffect(s: State, t: nat)
    requires t < |s.threads| && DoStore(s, t).Some? && DoStore(s, t).value.threads[t].pc == Stored
    ensures var th, s' := s.threads[t], DoStore(s, t).value;
            && s'.threads[t] == th.(pc := Stored) && s'.links == s.links
            && th.id in s.sessions && th.id in s'.sessions
            && s'.sessions[th.id].state.Ready? && s'.sessions[th.id].req == s.sessions[th.id].req
  {
  }

  lemma MySession(w: World, s: State, t: nat, pc: Pc, r: nat, client: Obj)
    requires At(w, s, t, pc, r, client) && HasId(pc)
    ensures s.threads[t].id in s.sessions && s.sessions[s.threads[t].id].req == r
  {
    assert ThreadOk(s, t) && SessionOf(s, t);
  }

  lemma StepStore(w: World, s: State, t: nat, r: nat, client: Obj, id: SessionId, l: nat) returns (s': State)
    requires Hand(w, s, t, Storing, r, client, id, l, 1, AwaitInit)
    ensures Step(w, s, Store(t)) == Some(s') && Hand(w, s', t, Stored, r, client, id, l, 1, AwaitInit)
    ensures id in s'.sessions && s'.sessions[id].state.Ready? && s'.sessions[id].req == r
  {
    Enabled(w, s, t, Storing, r, client);
    MySession(w, s, t, Storing, r, client);
    StoreEffect(s, t);
    s' := DoStore(s, t).value;
    Go(w, s, t, Storing, r, client, Store(t), s');
  }

  lemma StepUnlockSession(w: World, s: State, t: nat, r: nat, client: Obj, id: SessionId, l: nat) returns (s': State)
    requires Hand(w, s, t, Stored, r, client, id, l, 1, AwaitInit)
    ensures Step(w, s, UnlockSession(t)) == Some(s') && Hand(w, s', t, Presenting, r, client, id, l, 1, AwaitInit)
    ensures id in s.sessions && id in s'.sessions && s'.sessions[id].state == s.sessions[id].state && s'.sessions[id].req == s.sessions[id].req
  {
    Enabled(w, s, t, Stored, r, client);
    s' := DoUnlockSession(s, t).value;
    Go(w, s, t, Stored, r, client, UnlockSession(t), s');
  }

  lemma SendNewClientEffect(w: World, s: State, t: nat, l: nat)
    requires t < |s.threads| && s.threads[t].client in s.table && s.threads[t].pc == Presenting && PtyAt(w, s, t, l, 1, AwaitInit)
    ensures DoSendNewClient(s, t).Some?
    ensures var s' := DoSendNewClient(s, t).value;
            && s'.threads == s.threads[t := s.threads[t].(pc := Idle)] && PtyAt(w, s', t, l, 1, AwaitInit)
            && s'.requests == s.requests && s'.sessions == s.sessions && s'.links[l].req == s.links[l].req
            && s'.links[l].sent == s.links[l].sent + [Send(NewClient(s.table[s.threads[t].client]))]
  {
  }

  lemma StepSendNewClient(w: World, s: State, t: nat, r: nat, client: Obj, id: SessionId, l: nat) returns (s': State)
    requires Hand(w, s, t, Presenting, r, client, id, l, 1, AwaitInit)
    ensures Step(w, s, SendNewClient(t)) == Some(s') && Told(w, s', t, r, client, id, l, 1, AwaitInit) && s'.sessions == s.sessions
  {
    MyDescriptors(w, s, t, Presenting, r, client);
    OnLink(w, s, t, Presenting, r, client);
    SendNewClientEffect(w, s, t, l);
    s' := DoSendNewClient(s, t).value;
    Go(w, s, t, Presenting, r, client, SendNewClient(t), s');
    Whole(Script(w, s.requests[r]));
  }

  lemma Whole<T>(x: seq<T>)
    requires |x| == 3
    ensures x[..2] + [x[2]] == x
  {
  }

  lemma MakeReady(w: World, s: State, t: nat, r: nat, client: Obj, id: SessionId, l: nat) returns (actions: seq<Action>, s': State)
    requires Hand(w, s, t, Greeted, r, client, id, l, 1, AwaitInit)
    ensures Leads(w, s, actions, s') && Hand(w, s', t, Stored, r, client, id, l, 1, AwaitInit)
    ensures id in s'.sessions && s'.sessions[id].state.Ready? && s'.sessions[id].req == r
  {
    var s1 := StepSendInit(w, s, t, r, client, id, l);
    var s2 := StepLockSession(w, s1, t, r, client, id, l);
    s' := StepStore(w, s2, t, r, client, id, l);
    actions := Three(w, s, SendInit(t), s1, LockSession(t), s2, Store(t), s');
  }

  /** The request's packets are all on the link, and the pty process is at `proc`. */
  ghost predicate Told(w: World, s: State, t: nat, r: nat, client: Obj, id: SessionId, l: nat, taken: nat, proc: PtyProc) {
    && Hand(w, s, t, Idle, r, client, id, l, taken, proc)
    && s.requests[r].pty.Some? && s.links[l].req == r && s.links[l].sent == Script(w, s.requests[r])
  }

  lemma StepPtyInit(w: World, s: State, t: nat, r: nat, client: Obj, id: SessionId, l: nat) returns (s': State)
    requires Told(w, s, t, r, client, id, l, 1, AwaitInit)
    ensures Step(w, s, PtyInit(l, 1)) == Some(s') && s.requests[r].pty.Some? && s'.sessions == s.sessions
    ensures Told(w, s', t, r, client, id, l, 2, Serving(s.requests[r].pty.value)) && s'.requests[r].pty == s.requests[r].pty
  {
    InitReceived(s.requests[r].pty.value, 1);
    s' := DoPtyInit(s, l, 1).value;
    Go(w, s, t, Idle, r, client, PtyInit(l, 1), s');
  }

  lemma StepPtyRequest(w: World, s: State, t: nat, r: nat, client: Obj, id: SessionId, l: nat, pty: Obj) returns (s': State)
    requires Told(w, s, t, r, client, id, l, 2, Serving(pty)) && IsSeqPacket(client)
    ensures Step(w, s, PtyRequest(l, 1)) == Some(s') && s'.sessions == s.sessions
    ensures At(w, s', t, Idle, r, client) && l < |s'.links| && s'.links[l].req == r
    ensures s'.links[l].proc == Serving(pty) && s'.links[l].relays == [Relay(pty, client)]
  {
    NewClientReceived(client, 1);
    s' := DoPtyRequest(s, l, 1).value;
    Go(w, s, t, Idle, r, client, PtyRequest(l, 1), s');
    assert LinkOk(w, s', l);
  }

  lemma Present(w: World, s: State, t: nat, r: nat, client: Obj, id: SessionId, l: nat) returns (actions: seq<Action>, s': State)
    requires Hand(w, s, t, Presenting, r, client, id, l, 1, AwaitInit) && IsSeqPacket(client)
    requires id in s.sessions && s.sessions[id].state.Ready? && s.sessions[id].req == r
    ensures Leads(w, s, actions, s') && At(w, s', t, Idle, r, client) && l < |s'.links| && s'.links[l].req == r
    ensures s'.links[l].proc.Serving? && s'.links[l].relays == [Relay(s'.links[l].proc.pty, client)]
    ensures id in s'.sessions && s'.sessions[id].state.Ready? && s'.sessions[id].req == r
  {
    var s1 := StepSendNewClient(w, s, t, r, client, id, l);
    var s2 := StepPtyInit(w, s1, t, r, client, id, l);
    s' := StepPtyRequest(w, s2, t, r, client, id, l, s1.requests[r].pty.value);
    actions := Three(w, s, SendNewClient(t), s1, PtyInit(l, 1), s2, PtyRequest(l, 1), s');
  }

  // ---------------------------------------------------------------- the whole of it

  /** Session `id` is Ready for request `r`, and the pty process on link `l`, which serves a PTY,
      relays it to the request's client. */
  ghost predicate HandedOver(s: State, t: nat, r: nat, client: Obj, id: SessionId, l: nat) {
    && t < |s.threads| && s.threads[t].pc == Idle
    && r < |s.requests| && s.requests[r].client == client
    && id in s.sessions && s.sessions[id].state.Ready? && s.sessions[id].req == r
    && l < |s.links| && s.links[l].req == r
    && s.links[l].proc.Serving? && s.links[l].relays == [Relay(s.links[l].proc.pty, client)]
  }

  lemma {:induction false} Join(w: World, s: State, first: seq<Action>, s1: State, second: seq<Action>, s2: State)
    requires Leads(w, s, first, s1) && Leads(w, s1, second, s2)
    ensures Leads(w, s, first + second, s2)
    decreases |second|
  {
    if second == [] {
      assert first + second == first;
    } else {
      var n := |second| - 1;
      var mid := Steps(w, s1, second[..n]).value;
      Join(w, s, first, s1, second[..n], mid);
      Then(w, s, first + second[..n], mid, second[n], s2);
      assert first + second == first + second[..n] + [second[n]];
    }
  }

  /** From a request just received to its session Ready. */
  lemma UntilReady(w: World, s: State, t: nat, r: nat, client: Obj, id: SessionId) returns (actions: seq<Action>, s': State, l: nat)
    requires At(w, s, t, Received, r, client) && s.mapLock == None && id !in s.sessions
    ensures Leads(w, s, actions, s') && Hand(w, s', t, Stored, r, client, id, l, 1, AwaitInit)
    ensures id in s'.sessions && s'.sessions[id].state.Ready? && s'.sessions[id].req == r
  {
    var a1, s1 := Allocate(w, s, t, r, client, id);
    var a2, s2 := Prepare(w, s1, t, r, client);
    l := s2.threads[t].link;
    var a3, s3 := Greet(w, s2, t, r, client, id, l);
    var a4, s4 := MakeReady(w, s3, t, r, client, id, l);
    Join(w, s, a1, s1, a2, s2);
    Join(w, s, a1 + a2, s2, a3, s3);
    Join(w, s, a1 + a2 + a3, s3, a4, s4);
    actions, s' := a1 + a2 + a3 + a4, s4;
  }

  /** And from there to the relay. */
  lemma UntilRelayed(w: World, s: State, t: nat, r: nat, client: Obj, id: SessionId, l: nat) returns (actions: seq<Action>, s': State)
    requires Hand(w, s, t, Stored, r, client, id, l, 1, AwaitInit) && IsSeqPacket(client)
    requires id in s.sessions && s.sessions[id].state.Ready? && s.sessions[id].req == r
    ensures Leads(w, s, actions, s') && HandedOver(s', t, r, client, id, l)
  {
    var s1 := StepUnlockSession(w, s, t, r, client, id, l);
    var more;
    more, s' := Present(w, s1, t, r, client, id, l);
    Then(w, s, [], s, UnlockSession(t), s1);
    Join(w, s, [] + [UnlockSession(t)], s1, more, s');
    actions := [] + [UnlockSession(t)] + more;
  }

  /** Taking an acceptable request. */
  lemma StepTakeRequest(w: World, s: State, t: nat, packet: Packet<Obj>, room: nat) returns (a: Action, s': State)
    requires Inv(w, s) && t < |s.threads| && s.threads[t].pc == Idle
    requires Receive(SESSIONS_REQUEST, SESSIONS_REQUEST_LIMITS, packet, room).Success?
    ensures |packet.handles| == 1 && a.TakeRequest? && a.packet == packet
    ensures Step(w, s, a) == Some(s') && At(w, s', t, Received, |s.requests|, packet.handles[0])
    ensures s'.mapLock == s.mapLock && s'.sessions == s.sessions
  {
    var client := RequestFd(packet, room);
    var fd := FreeFd(s);
    a := TakeRequest(t, packet, room, [fd]);
    assert Installs(s, packet, room, [fd]);
    s' := Accepted(s, t, client, fd);
    StepKeeps(w, s, a, s');
  }

  /** Every run that has reached a state with an idle thread, and the map's mutex free, can be
      continued by a hand-off: the thread's next request, if it is one the service accepts and its
      client is a socket of the right kind, gets a session and a relay that joins its PTY and its
      client. */
  lemma HandoffCompletes(w: World, states: seq<State>, actions: seq<Action>, t: nat, packet: Packet<Obj>, room: nat, id: SessionId)
    returns (states': seq<State>, more: seq<Action>, l: nat)
    requires IsRun(w, states, actions)
    requires var s := states[|actions|]; t < |s.threads| && s.threads[t].pc == Idle && s.mapLock == None && id !in s.sessions
    requires Receive(SESSIONS_REQUEST, SESSIONS_REQUEST_LIMITS, packet, room).Success?
    requires |packet.handles| == 1 ==> IsSeqPacket(packet.handles[0])
    ensures states <= states' && IsRun(w, states', actions + more)
    ensures |more| > 0 && more[0].TakeRequest? && more[0].packet == packet && |packet.handles| == 1
    ensures HandedOver(states'[|actions + more|], t, |states[|actions|].requests|, packet.handles[0], id, l)
  {
    var s, r := states[|actions|], |states[|actions|].requests|;
    RunInv(w, states, actions, |actions|);
    var a, s1 := StepTakeRequest(w, s, t, packet, room);
    var client := packet.handles[0];
    var a2, s2;
    a2, s2, l := UntilReady(w, s1, t, r, client, id);
    var a3, s3 := UntilRelayed(w, s2, t, r, client, id, l);
    Then(w, s, [], s, a, s1);
    Join(w, s, [] + [a], s1, a2, s2);
    Join(w, s, [] + [a] + a2, s2, a3, s3);
    more := [] + [a] + a2 + a3;
    states' := RunGoesOn(w, states, actions, more, s3);
  }

  /** So can every request there is, of whatever machine, user, program, arguments and environment,
      whose bytes fit a packet and whose client is a socket of the right kind. */
  lemma EveryRequestIsHandedOver(w: World, states: seq<State>, actions: seq<Action>, t: nat, client: Obj, shell: Shell, room: nat, id: SessionId)
    returns (states': seq<State>, more: seq<Action>, l: nat)
    requires IsRun(w, states, actions)
    requires var s := states[|actions|]; t < |s.threads| && s.threads[t].pc == Idle && s.mapLock == None && id !in s.sessions
    requires |Layouts.RequestBytes(shell)| <= 8192 && IsSeqPacket(client) && room >= 1
    ensures states <= states' && IsRun(w, states', actions + more)
    ensures |more| > 0 && more[0].TakeRequest? && more[0].packet == Packet(Layouts.RequestBytes(shell), [client])
    ensures HandedOver(states'[|actions + more|], t, |states[|actions|].requests|, client, id, l)
  {
    Layouts.RequestAccepted(client, shell, room);
    states', more, l := HandoffCompletes(w, states, actions, t, Packet(Layouts.RequestBytes(shell), [client]), room, id);
  }
}
