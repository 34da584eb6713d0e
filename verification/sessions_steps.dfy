/**
  Every step of the sessions machine keeps the invariant. A step of a busy thread changes only
  what belongs to that thread's request; the frame lemmas say that everything else stays as it
  was, and the step lemmas look at the request's own things.
*/
module SessionsSteps {
  import opened Wrappers
  import opened Wire
  import opened Packets
  import opened PassFd
  import opened Proto
  import opened Handshakes
  import opened Sessions
  import opened SessionsInvariant

  /** What every step but a leaking receive does: keep the invariant and the past, and add
      nothing to the descriptors that are nobody's. */
  ghost predicate Good(w: World, s: State, s': State) {
    Inv(w, s') && Extends(s, s') && OwnedBy(s', Nobody) == OwnedBy(s, Nobody)
  }

  // ---------------------------------------------------------------- frames

  /** From `s` to `s'` only thread `t` moved, and only things of its request changed. */
  ghost predicate OnlyFor(s: State, s': State, t: nat) {
    && t < |s.threads| == |s'.threads|
    && s.threads[t].req < |s.requests| == |s'.requests|
    && (forall u :: 0 <= u < |s.threads| && u != t ==> s'.threads[u] == s.threads[u])
    && (forall u :: u != t ==> (s'.mapLock == Some(u) <==> s.mapLock == Some(u)))
    && var r := s.threads[t].req;
       var rq, rq' := s.requests[r], s'.requests[r];
       && rq.owner == rq'.owner == t && rq'.client == rq.client
       && (forall q :: 0 <= q < |s.requests| && q != r ==> s'.requests[q] == s.requests[q])
       && (rq.id.Some? ==> rq'.id == rq.id) && (rq.id.None? && rq'.id.Some? ==> rq'.id.value !in s.sessions)
       && (rq.link.Some? ==> rq'.link == rq.link) && (rq.link.None? && rq'.link.Some? ==> rq'.link.value >= |s.links|)
       && (rq'.pty == rq.pty || (rq.pty.None? && rq'.pty == Some(Pty(s.ptys)))) && s.ptys <= s'.ptys
       && |s.links| <= |s'.links|
       && (forall l :: 0 <= l < |s'.links| && Some(l) != rq'.link ==> l < |s.links| && s'.links[l] == s.links[l])
       && (forall id :: Some(id) != rq'.id ==> (id in s'.sessions <==> id in s.sessions))
       && (forall id :: id in s.sessions && Some(id) != rq'.id ==> s'.sessions[id] == s.sessions[id])
       && (forall o :: NotMine(o, t, rq'.id) ==> OwnedBy(s', o) == OwnedBy(s, o))
       && (forall fd :: fd in s.owner && NotMine(s.owner[fd], t, rq'.id) ==> fd in s.table && fd in s'.table && s'.table[fd] == s.table[fd])
  }

  /** Neither the thread nor the session of its request. */
  predicate NotMine(o: Owner, t: nat, id: Option<SessionId>) {
    o != OfThread(t) && !(o.OfSession? && id == Some(o.id))
  }

  lemma OtherThreads(w: World, s: State, s': State, t: nat, u: nat)
    requires Inv(w, s) && OnlyFor(s, s', t) && u < |s.threads| && u != t
    ensures ThreadOk(s', u)
  {
    var th, r := s.threads[u], s.threads[t].req;
    assert ThreadOk(s, u) && RequestOk(s, r);
    assert NotMine(OfThread(u), t, s'.requests[r].id);
    assert forall fd :: fd in Held(th) ==> fd in OwnedBy(s, OfThread(u)) && s'.table[fd] == s.table[fd];
    if Busy(th.pc) {
      assert th.req != r && s'.requests[th.req] == s.requests[th.req];
      if HasId(th.pc) { assert Some(th.id) != s'.requests[r].id; }
      if HasLink(th.pc) { assert Some(th.link) != s'.requests[r].link; }
      assert BusyOk(s', u);
    }
  }

  lemma OtherSessions(s: State, s': State, t: nat, id: SessionId)
    requires OnlyFor(s, s', t) && id in s.sessions
    requires Some(id) != s'.requests[s.threads[t].req].id
    requires TableOk(s) && SessionOk(s, id) && RequestOk(s, s.threads[t].req) && RequestOk(s, s.sessions[id].req)
    requires ThreadOk(s, t)
    ensures SessionOk(s', id)
  {
    var e, r := s.sessions[id], s.threads[t].req;
    assert e.req != r && s'.requests[e.req] == s.requests[e.req];
    assert NotMine(OfSession(id), t, s'.requests[r].id);
    assert forall fd :: fd in OwnedBy(s, OfSession(id)) ==> fd in s'.table && s'.table[fd] == s.table[fd];
    if e.lock.Some? {
      assert e.lock.value != t;
    }
    if e.state.Ready? {
      var l := s.table[e.state.sock].conn;
      assert s.links[l].req == e.req && Some(l) != s'.requests[r].link;
    }
  }

  lemma OtherLinks(w: World, s: State, s': State, t: nat, l: nat)
    requires Inv(w, s) && OnlyFor(s, s', t) && l < |s'.links|
    requires Some(l) != s'.requests[s.threads[t].req].link
    ensures LinkOk(w, s', l)
  {
    assert LinkOk(w, s, l);
    assert s.links[l].req != s.threads[t].req;
  }

  lemma OtherRequests(w: World, s: State, s': State, t: nat, q: nat)
    requires Inv(w, s) && OnlyFor(s, s', t) && q < |s.requests| && q != s.threads[t].req
    ensures RequestOk(s', q)
  {
    var rq, r := s.requests[q], s.threads[t].req;
    assert RequestOk(s, q) && RequestOk(s, r);
    if rq.id.Some? { assert rq.id != s'.requests[r].id; }
    if rq.link.Some? { assert rq.link != s'.requests[r].link; }
  }

  lemma StillDistinct(w: World, s: State, s': State, t: nat)
    requires Inv(w, s) && OnlyFor(s, s', t)
    ensures PtysDistinct(s')
  {
    forall r, q | 0 <= r < q < |s'.requests| && s'.requests[r].pty.Some?
      ensures s'.requests[r].pty != s'.requests[q].pty
    {
      assert RequestOk(s, r) && RequestOk(s, q);
    }
  }

  /** The things of thread `t`'s request are in order. */
  ghost predicate MineOk(w: World, s: State, t: nat)
    requires t < |s.threads| && s.threads[t].req < |s.requests|
  {
    var rq := s.requests[s.threads[t].req];
    && ThreadOk(s, t)
    && RequestOk(s, s.threads[t].req)
    && (rq.id.Some? ==> rq.id.value in s.sessions && SessionOk(s, rq.id.value))
    && (rq.link.Some? ==> rq.link.value < |s.links| && LinkOk(w, s, rq.link.value))
  }

  ghost predicate InOrder(w: World, s: State, t: nat) {
    && TableOk(s) && MapOk(s)
    && t < |s.threads| && s.threads[t].req < |s.requests|
    && MineOk(w, s, t)
  }

  /** What has to be shown of a step of a busy thread. */
  ghost predicate Moved(w: World, s: State, s': State, t: nat) {
    OnlyFor(s, s', t) && InOrder(w, s', t) && s'.threads[t].req == s.threads[t].req && MineExtends(s, s', t)
  }

  /** The session and the link of `t`'s request, if it had them, keep their past. */
  ghost predicate MineExtends(s: State, s': State, t: nat)
    requires OnlyFor(s, s', t)
  {
    var rq := s.requests[s.threads[t].req];
    && (rq.id.Some? && rq.id.value in s.sessions ==> rq.id.value in s'.sessions && SessionExtends(s.sessions[rq.id.value], s'.sessions[rq.id.value]))
    && (rq.link.Some? && rq.link.value < |s.links| ==> LinkExtends(s.links[rq.link.value], s'.links[rq.link.value]))
  }

  lemma AssembleExtends(w: World, s: State, s': State, t: nat)
    requires Moved(w, s, s', t)
    ensures Extends(s, s') && OwnedBy(s', Nobody) == OwnedBy(s, Nobody)
  {
    assert NotMine(Base, t, s'.requests[s.threads[t].req].id) && NotMine(Nobody, t, s'.requests[s.threads[t].req].id);
  }

  lemma Assemble(w: World, s: State, s': State, t: nat)
    requires Inv(w, s) && Moved(w, s, s', t)
    requires ThreadOk(s, t) && RequestOk(s, s.threads[t].req)
    ensures Good(w, s, s')
  {
    AssembleExtends(w, s, s', t);
    forall u | 0 <= u < |s'.threads| ensures ThreadOk(s', u) { if u != t { OtherThreads(w, s, s', t, u); } }
    forall id | id in s'.sessions ensures SessionOk(s', id) {
      if Some(id) != s'.requests[s.threads[t].req].id {
        assert SessionOk(s, id) && RequestOk(s, s.sessions[id].req);
        OtherSessions(s, s', t, id);
      }
    }
    forall l | 0 <= l < |s'.links| ensures LinkOk(w, s', l) {
      if Some(l) != s'.requests[s.threads[t].req].link { OtherLinks(w, s, s', t, l); }
    }
    forall q | 0 <= q < |s'.requests| ensures RequestOk(s', q) { if q != s.threads[t].req { OtherRequests(w, s, s', t, q); } }
    StillDistinct(w, s, s', t);
  }

  /** What the invariant says about a busy thread's own request. */
  lemma Mine(w: World, s: State, t: nat)
    requires Inv(w, s) && t < |s.threads| && Busy(s.threads[t].pc)
    ensures InOrder(w, s, t)
  {
    assert ThreadOk(s, t) && RequestOk(s, s.threads[t].req);
    var rq := s.requests[s.threads[t].req];
    if rq.id.Some? { assert SessionOk(s, rq.id.value); }
    if rq.link.Some? { assert LinkOk(w, s, rq.link.value); }
  }

  // ---------------------------------------------------------------- steps that touch one thread only

  /** From `s` to `s'` at most thread `t` moved (or began), descriptors of its own or of nobody
      were opened or closed, and requests were added that nothing was made for yet. */
  ghost predicate OnlyThread(s: State, s': State, t: nat) {
    && (|s'.threads| == |s.threads| || (t == |s.threads| && |s'.threads| == t + 1))
    && (forall u :: 0 <= u < |s.threads| && u != t ==> s'.threads[u] == s.threads[u])
    && (t < |s.threads| ==> !HoldsSession(s.threads[t].pc))
    && (forall u :: u != t ==> (s'.mapLock == Some(u) <==> s.mapLock == Some(u)))
    && s'.sessions == s.sessions && s'.links == s.links && s'.ptys == s.ptys
    && s.requests <= s'.requests
    && (forall r :: |s.requests| <= r < |s'.requests| ==> Blank(s'.requests[r]) && s'.requests[r].owner < |s'.threads|)
    && (forall o :: o != OfThread(t) && o != Nobody ==> OwnedBy(s', o) == OwnedBy(s, o))
    && (forall fd :: fd in s.owner && s.owner[fd] != OfThread(t) ==> fd in s.table && fd in s'.table && s'.table[fd] == s.table[fd])
  }

  /** Nothing was made for the request yet. */
  predicate Blank(rq: Request) { rq.id.None? && rq.pty.None? && rq.link.None? }

  lemma OnlyThreadOther(s: State, s': State, t: nat, u: nat)
    requires OnlyThread(s, s', t) && u < |s.threads| && u != t
    requires TableOk(s) && ThreadOk(s, u)
    ensures ThreadOk(s', u)
  {
    assert forall fd :: fd in Held(s.threads[u]) ==> fd in OwnedBy(s, OfThread(u)) && s'.table[fd] == s.table[fd];
  }

  lemma OnlyThreadSession(s: State, s': State, t: nat, id: SessionId)
    requires OnlyThread(s, s', t) && id in s.sessions
    requires TableOk(s) && SessionOk(s, id)
    ensures SessionOk(s', id)
  {
    assert forall fd :: fd in OwnedBy(s, OfSession(id)) ==> fd in s'.table && s'.table[fd] == s.table[fd];
  }

  lemma OnlyThreadKeeps(w: World, s: State, s': State, t: nat)
    requires Inv(w, s) && OnlyThread(s, s', t)
    requires TableOk(s') && MapOk(s') && (t < |s'.threads| ==> ThreadOk(s', t))
    ensures Inv(w, s') && Extends(s, s')
  {
    forall u | 0 <= u < |s'.threads| ensures ThreadOk(s', u) { if u != t { OnlyThreadOther(s, s', t, u); } }
    forall id | id in s'.sessions ensures SessionOk(s', id) { OnlyThreadSession(s, s', t, id); }
    forall r | 0 <= r < |s'.requests| ensures RequestOk(s', r) { if r < |s.requests| { assert RequestOk(s, r); } }
    forall l | 0 <= l < |s'.links| ensures LinkOk(w, s', l) { assert LinkOk(w, s, l); }
  }

  /** A thread ends outside its critical sections: all it held is closed. */
  lemma QuitKeeps(w: World, s: State, t: nat)
    requires Inv(w, s) && t < |s.threads|
    requires !HoldsMap(s.threads[t].pc) && !HoldsSession(s.threads[t].pc)
    ensures Good(w, s, Quit(s, t))
  {
    assert ThreadOk(s, t);
    QuitMoves(s, t);
    OnlyThreadKeeps(w, s, Quit(s, t), t);
  }

  lemma QuitMoves(s: State, t: nat)
    requires t < |s.threads| && TableOk(s) && MapOk(s) && ThreadOk(s, t)
    requires !HoldsMap(s.threads[t].pc) && !HoldsSession(s.threads[t].pc)
    ensures var s' := Quit(s, t);
            && OnlyThread(s, s', t) && TableOk(s') && MapOk(s') && ThreadOk(s', t)
            && OwnedBy(s', Nobody) == OwnedBy(s, Nobody)
  {
    var held, s' := Held(s.threads[t]), Quit(s, t);
    CloseOwned(s, OfThread(t), held);
    assert forall o :: OwnedBy(s', o) == OwnedBy(Close(s, held), o);
  }

  /** Only the program counter changed, between places that hold the same things. */
  ghost predicate PcOnly(s: State, s': State, t: nat) {
    && t < |s.threads| == |s'.threads|
    && s' == Set(s, t, s.threads[t].(pc := s'.threads[t].pc)).(mapLock := s'.mapLock)
    && var pc, pc' := s.threads[t].pc, s'.threads[t].pc;
       || (pc == Handshaking && pc' == Idle && s'.mapLock == s.mapLock)
       || (pc == Received && pc' == Choosing && s.mapLock == None && s'.mapLock == Some(t))
       || (pc == Chosen && pc' == Starting && s'.mapLock == None)
       || (pc == Greeting && pc' == Greeted && s'.mapLock == s.mapLock)
  }

  lemma PcMoves(s: State, s': State, t: nat)
    requires PcOnly(s, s', t) && TableOk(s) && MapOk(s) && ThreadOk(s, t)
    ensures OnlyThread(s, s', t) && TableOk(s') && MapOk(s') && ThreadOk(s', t)
  {
    assert forall o :: OwnedBy(s', o) == OwnedBy(s, o);
  }

  lemma PcKeeps(w: World, s: State, s': State, t: nat)
    requires Inv(w, s) && PcOnly(s, s', t)
    ensures Good(w, s, s')
  {
    assert ThreadOk(s, t);
    PcMoves(s, s', t);
    OnlyThreadKeeps(w, s, s', t);
  }

  // ---------------------------------------------------------------- steps of a busy thread

  lemma DrawOnly(w: World, s: State, t: nat, id: SessionId)
    requires InOrder(w, s, t) && DoDraw(s, t, id).Some?
    ensures OnlyFor(s, DoDraw(s, t, id).value, t) && MineExtends(s, DoDraw(s, t, id).value, t)
  {
    var s' := DoDraw(s, t, id).value;
    assert forall o :: OwnedBy(s', o) == OwnedBy(s, o);
  }

  lemma DrawInOrder(w: World, s: State, t: nat, id: SessionId)
    requires InOrder(w, s, t) && DoDraw(s, t, id).Some?
    ensures InOrder(w, DoDraw(s, t, id).value, t)
  {
    var s' := DoDraw(s, t, id).value;
    assert forall o :: OwnedBy(s', o) == OwnedBy(s, o);
  }

  lemma DrawKeeps(w: World, s: State, t: nat, id: SessionId)
    requires Inv(w, s) && t < |s.threads| && DoDraw(s, t, id).Some?
    ensures Good(w, s, DoDraw(s, t, id).value)
  {
    Mine(w, s, t);
    DrawOnly(w, s, t, id);
    DrawInOrder(w, s, t, id);
    Assemble(w, s, DoDraw(s, t, id).value, t);
  }

  lemma CreateShellOnly(w: World, s: State, t: nat, fd: Fd)
    requires InOrder(w, s, t) && DoCreateShell(s, t, fd).Some?
    ensures OnlyFor(s, DoCreateShell(s, t, fd).value, t) && MineExtends(s, DoCreateShell(s, t, fd).value, t)
  {
    var s' := DoCreateShell(s, t, fd).value;
    OpenOwned(s, fd, Pty(s.ptys), OfThread(t));
    assert forall o :: OwnedBy(s', o) == OwnedBy(Open(s, fd, Pty(s.ptys), OfThread(t)), o);
  }

  lemma CreateShellInOrder(w: World, s: State, t: nat, fd: Fd)
    requires InOrder(w, s, t) && DoCreateShell(s, t, fd).Some?
    ensures InOrder(w, DoCreateShell(s, t, fd).value, t)
  {
    CreateShellThread(s, t, fd);
    CreateShellSession(s, t, fd);
  }

  lemma CreateShellThread(s: State, t: nat, fd: Fd)
    requires TableOk(s) && MapOk(s) && t < |s.threads| && s.threads[t].req < |s.requests| && ThreadOk(s, t)
    requires RequestOk(s, s.threads[t].req) && DoCreateShell(s, t, fd).Some?
    ensures var s' := DoCreateShell(s, t, fd).value; TableOk(s') && MapOk(s') && ThreadOk(s', t) && RequestOk(s', s.threads[t].req)
  {
    CreateShellOwned(s, t, fd);
  }

  lemma CreateShellSession(s: State, t: nat, fd: Fd)
    requires TableOk(s) && t < |s.threads| && BusyOk(s, t) && DoCreateShell(s, t, fd).Some?
    requires SessionOk(s, s.threads[t].id)
    ensures SessionOk(DoCreateShell(s, t, fd).value, s.threads[t].id)
  {
    CreateShellOwned(s, t, fd);
    assert SessionOf(s, t);
  }

  lemma CreateShellOwned(s: State, t: nat, fd: Fd)
    requires TableOk(s) && t < |s.threads| && DoCreateShell(s, t, fd).Some?
    ensures var s' := DoCreateShell(s, t, fd).value;
            && TableOk(s')
            && (forall o :: OwnedBy(s', o) == if o == OfThread(t) then OwnedBy(s, o) + {fd} else OwnedBy(s, o))
            && (forall x :: x in s.owner ==> x in s.table && x in s'.table && s'.table[x] == s.table[x])
  {
    OpenOwned(s, fd, Pty(s.ptys), OfThread(t));
    assert forall o :: OwnedBy(DoCreateShell(s, t, fd).value, o) == OwnedBy(Open(s, fd, Pty(s.ptys), OfThread(t)), o);
  }

  lemma CreateShellKeeps(w: World, s: State, t: nat, fd: Fd)
    requires Inv(w, s) && t < |s.threads| && DoCreateShell(s, t, fd).Some?
    ensures Good(w, s, DoCreateShell(s, t, fd).value)
  {
    Mine(w, s, t);
    CreateShellOnly(w, s, t, fd);
    CreateShellInOrder(w, s, t, fd);
    Assemble(w, s, DoCreateShell(s, t, fd).value, t);
  }

  lemma SendHelloOnly(w: World, s: State, t: nat)
    requires InOrder(w, s, t) && DoSendHello(w, s, t).Some?
    ensures OnlyFor(s, DoSendHello(w, s, t).value, t) && MineExtends(s, DoSendHello(w, s, t).value, t)
  {
    var s' := DoSendHello(w, s, t).value;
    assert forall o :: OwnedBy(s', o) == OwnedBy(s, o);
  }

  lemma SendHelloInOrder(w: World, s: State, t: nat)
    requires InOrder(w, s, t) && DoSendHello(w, s, t).Some?
    ensures InOrder(w, DoSendHello(w, s, t).value, t)
  {
    var s' := DoSendHello(w, s, t).value;
    assert forall o :: OwnedBy(s', o) == OwnedBy(s, o);
  }

  lemma SendHelloKeeps(w: World, s: State, t: nat)
    requires Inv(w, s) && t < |s.threads| && DoSendHello(w, s, t).Some?
    ensures Good(w, s, DoSendHello(w, s, t).value)
  {
    Mine(w, s, t);
    SendHelloOnly(w, s, t);
    SendHelloInOrder(w, s, t);
    Assemble(w, s, DoSendHello(w, s, t).value, t);
  }

  lemma SendInitOnly(w: World, s: State, t: nat)
    requires InOrder(w, s, t) && DoSendInit(s, t).Some?
    ensures OnlyFor(s, DoSendInit(s, t).value, t) && MineExtends(s, DoSendInit(s, t).value, t)
  {
    var s' := DoSendInit(s, t).value;
    assert forall o :: OwnedBy(s', o) == OwnedBy(s, o);
  }

  lemma SendInitInOrder(w: World, s: State, t: nat)
    requires InOrder(w, s, t) && DoSendInit(s, t).Some?
    ensures InOrder(w, DoSendInit(s, t).value, t)
  {
    var s' := DoSendInit(s, t).value;
    assert forall o :: OwnedBy(s', o) == OwnedBy(s, o);
  }

  lemma SendInitKeeps(w: World, s: State, t: nat)
    requires Inv(w, s) && t < |s.threads| && DoSendInit(s, t).Some?
    ensures Good(w, s, DoSendInit(s, t).value)
  {
    Mine(w, s, t);
    SendInitOnly(w, s, t);
    SendInitInOrder(w, s, t);
    Assemble(w, s, DoSendInit(s, t).value, t);
  }

  lemma LockSessionOnly(w: World, s: State, t: nat)
    requires InOrder(w, s, t) && DoLockSession(s, t).Some?
    ensures OnlyFor(s, DoLockSession(s, t).value, t) && MineExtends(s, DoLockSession(s, t).value, t)
  {
    var s' := DoLockSession(s, t).value;
    assert forall o :: OwnedBy(s', o) == OwnedBy(s, o);
  }

  lemma LockSessionInOrder(w: World, s: State, t: nat)
    requires InOrder(w, s, t) && DoLockSession(s, t).Some?
    ensures InOrder(w, DoLockSession(s, t).value, t)
  {
    var s' := DoLockSession(s, t).value;
    assert forall o :: OwnedBy(s', o) == OwnedBy(s, o);
  }

  lemma LockSessionKeeps(w: World, s: State, t: nat)
    requires Inv(w, s) && t < |s.threads| && DoLockSession(s, t).Some?
    ensures Good(w, s, DoLockSession(s, t).value)
  {
    Mine(w, s, t);
    LockSessionOnly(w, s, t);
    LockSessionInOrder(w, s, t);
    Assemble(w, s, DoLockSession(s, t).value, t);
  }

  /** Storing hands the PTY and the link over from the thread to the session. */
  lemma StoreOwned(w: World, s: State, t: nat)
    requires InOrder(w, s, t) && DoStore(s, t).Some?
    ensures DoStore(s, t).value.threads[t].pc == Stored
    ensures var th, s' := s.threads[t], DoStore(s, t).value;
            && OwnedBy(s', OfThread(t)) == {th.conn, th.client}
            && OwnedBy(s', OfSession(th.id)) == {th.pty, th.sock}
            && forall o :: o != OfThread(t) && o != OfSession(th.id) ==> OwnedBy(s', o) == OwnedBy(s, o)
  {
    var th, s' := s.threads[t], DoStore(s, t).value;
    assert OwnedBy(s, OfThread(t)) == {th.conn, th.client} + {th.pty, th.sock};
    assert forall o :: OwnedBy(s', o) == if o == OfThread(t) then OwnedBy(s, o) - {th.pty, th.sock}
                                         else if o == OfSession(th.id) then OwnedBy(s, o) + {th.pty, th.sock} else OwnedBy(s, o);
  }

  lemma StoreOnly(w: World, s: State, t: nat)
    requires InOrder(w, s, t) && DoStore(s, t).Some?
    ensures OnlyFor(s, DoStore(s, t).value, t) && MineExtends(s, DoStore(s, t).value, t)
  {
    StoreOwned(w, s, t);
    StoreParts(s, t);
  }

  /** What storing leaves of everything but who owns the descriptors. */
  lemma StoreParts(s: State, t: nat)
    requires t < |s.threads| && BusyOk(s, t) && DoStore(s, t).Some? && DoStore(s, t).value.threads[t].pc == Stored
    ensures var s', id := DoStore(s, t).value, s.threads[t].id;
            && s'.threads == s.threads[t := s'.threads[t]] && s'.mapLock == s.mapLock && s'.ptys == s.ptys
            && s'.requests == s.requests && s'.links == s.links && s'.table == s.table
            && s.requests[s.threads[t].req].id == Some(id) && id in s.sessions
            && s'.sessions == s.sessions[id := s'.sessions[id]] && SessionExtends(s.sessions[id], s'.sessions[id])
  {
    assert SessionOf(s, t);
  }

  lemma StoreInOrder(w: World, s: State, t: nat)
    requires InOrder(w, s, t) && DoStore(s, t).Some?
    ensures InOrder(w, DoStore(s, t).value, t)
  {
    StoreOwned(w, s, t);
    var th, s' := s.threads[t], DoStore(s, t).value;
    assert ThreadOk(s', t) by { assert Held(s'.threads[t]) == {th.conn, th.client}; }
    assert SessionOk(s', th.id);
  }

  lemma StoreKeeps(w: World, s: State, t: nat)
    requires Inv(w, s) && t < |s.threads| && DoStore(s, t).Some?
    ensures Good(w, s, DoStore(s, t).value)
  {
    Mine(w, s, t);
    StoreOnly(w, s, t);
    StoreInOrder(w, s, t);
    Assemble(w, s, DoStore(s, t).value, t);
  }

  lemma UnlockSessionOnly(w: World, s: State, t: nat)
    requires InOrder(w, s, t) && DoUnlockSession(s, t).Some?
    ensures OnlyFor(s, DoUnlockSession(s, t).value, t) && MineExtends(s, DoUnlockSession(s, t).value, t)
  {
    var s' := DoUnlockSession(s, t).value;
    assert forall o :: OwnedBy(s', o) == OwnedBy(s, o);
  }

  lemma UnlockSessionInOrder(w: World, s: State, t: nat)
    requires InOrder(w, s, t) && DoUnlockSession(s, t).Some?
    ensures InOrder(w, DoUnlockSession(s, t).value, t)
  {
    var s' := DoUnlockSession(s, t).value;
    assert forall o :: OwnedBy(s', o) == OwnedBy(s, o);
  }

  lemma UnlockSessionKeeps(w: World, s: State, t: nat)
    requires Inv(w, s) && t < |s.threads| && DoUnlockSession(s, t).Some?
    ensures Good(w, s, DoUnlockSession(s, t).value)
  {
    Mine(w, s, t);
    UnlockSessionOnly(w, s, t);
    UnlockSessionInOrder(w, s, t);
    Assemble(w, s, DoUnlockSession(s, t).value, t);
  }

  lemma SendNewClientOnly(w: World, s: State, t: nat)
    requires InOrder(w, s, t) && DoSendNewClient(s, t).Some?
    ensures OnlyFor(s, DoSendNewClient(s, t).value, t) && MineExtends(s, DoSendNewClient(s, t).value, t)
  {
    SendNewClientOwned(s, t);
    SendNewClientParts(s, t);
  }

  /** What handing over the client leaves of everything but the descriptors. */
  lemma SendNewClientParts(s: State, t: nat)
    requires t < |s.threads| && BusyOk(s, t) && DoSendNewClient(s, t).Some?
    ensures var s', l := DoSendNewClient(s, t).value, s.threads[t].link;
            && s'.threads == s.threads[t := s'.threads[t]] && s'.mapLock == s.mapLock && s'.sessions == s.sessions && s'.ptys == s.ptys
            && s'.requests == s.requests && s.requests[s.threads[t].req].link == Some(l)
            && s'.links == s.links[l := s'.links[l]] && LinkExtends(s.links[l], s'.links[l])
            && s'.table == s.table - {s.threads[t].client}
  {
    assert LinkOf(s, t);
  }

  lemma SendNewClientOwned(s: State, t: nat)
    requires t < |s.threads| && ThreadOk(s, t) && DoSendNewClient(s, t).Some?
    ensures var s' := DoSendNewClient(s, t).value;
            forall o :: OwnedBy(s', o) == if o == OfThread(t) then OwnedBy(s, o) - {s.threads[t].client} else OwnedBy(s, o)
  {
    CloseOwned(s, OfThread(t), {s.threads[t].client});
    assert forall o :: OwnedBy(DoSendNewClient(s, t).value, o) == OwnedBy(Close(s, {s.threads[t].client}), o);
  }

  lemma SendNewClientInOrder(w: World, s: State, t: nat)
    requires InOrder(w, s, t) && DoSendNewClient(s, t).Some?
    ensures InOrder(w, DoSendNewClient(s, t).value, t)
  {
    SendNewClientParts(s, t);
    SendNewClientThread(s, t);
    SendNewClientSession(s, t);
    SendNewClientLink(w, s, t);
  }

  lemma SendNewClientThread(s: State, t: nat)
    requires TableOk(s) && MapOk(s) && t < |s.threads| && ThreadOk(s, t) && DoSendNewClient(s, t).Some?
    ensures var s' := DoSendNewClient(s, t).value; TableOk(s') && MapOk(s') && ThreadOk(s', t)
  {
    SendNewClientOwned(s, t);
  }

  lemma SendNewClientSession(s: State, t: nat)
    requires TableOk(s) && t < |s.threads| && ThreadOk(s, t) && DoSendNewClient(s, t).Some?
    requires s.threads[t].id in s.sessions && SessionOk(s, s.threads[t].id)
    ensures SessionOk(DoSendNewClient(s, t).value, s.threads[t].id)
  {
    SendNewClientOwned(s, t);
    SendNewClientParts(s, t);
    assert s.threads[t].client in OwnedBy(s, OfThread(t));
    assert forall fd :: fd in OwnedBy(s, OfSession(s.threads[t].id)) ==> fd != s.threads[t].client;
  }

  lemma SendNewClientLink(w: World, s: State, t: nat)
    requires t < |s.threads| && BusyOk(s, t) && DoSendNewClient(s, t).Some? && LinkOk(w, s, s.threads[t].link)
    ensures LinkOk(w, DoSendNewClient(s, t).value, s.threads[t].link)
  {
    assert LinkOf(s, t);
  }

  lemma SendNewClientKeeps(w: World, s: State, t: nat)
    requires Inv(w, s) && t < |s.threads| && DoSendNewClient(s, t).Some?
    ensures Good(w, s, DoSendNewClient(s, t).value)
  {
    Mine(w, s, t);
    SendNewClientOnly(w, s, t);
    SendNewClientInOrder(w, s, t);
    Assemble(w, s, DoSendNewClient(s, t).value, t);
  }

  lemma ConnectOwned(s: State, t: nat, fd: Fd, build: seq<Byte>)
    requires TableOk(s) && t < |s.threads| && BusyOk(s, t) && DoConnect(s, t, fd, build).Some?
    ensures var s' := DoConnect(s, t, fd, build).value;
            && (forall o :: OwnedBy(s', o) == if o == OfThread(t) then OwnedBy(s, o) + {fd} else OwnedBy(s, o))
            && (forall x :: x in s.owner ==> x in s.table && x in s'.table && s'.table[x] == s.table[x])
  {
    OpenOwned(s, fd, PtySocket(|s.links|), OfThread(t));
    assert forall o :: OwnedBy(DoConnect(s, t, fd, build).value, o) == OwnedBy(Open(s, fd, PtySocket(|s.links|), OfThread(t)), o);
  }

  lemma ConnectOnly(s: State, t: nat, fd: Fd, build: seq<Byte>)
    requires TableOk(s) && t < |s.threads| && BusyOk(s, t) && DoConnect(s, t, fd, build).Some?
    ensures OnlyFor(s, DoConnect(s, t, fd, build).value, t) && MineExtends(s, DoConnect(s, t, fd, build).value, t)
  {
    ConnectOwned(s, t, fd, build);
    ConnectParts(s, t, fd, build);
  }

  /** What a connect leaves of everything but the descriptors. */
  lemma ConnectParts(s: State, t: nat, fd: Fd, build: seq<Byte>)
    requires t < |s.threads| && BusyOk(s, t) && DoConnect(s, t, fd, build).Some?
    ensures var s', r, l := DoConnect(s, t, fd, build).value, s.threads[t].req, |s.links|;
            && s'.threads == s.threads[t := s'.threads[t]] && s'.mapLock == s.mapLock && s'.sessions == s.sessions && s'.ptys == s.ptys
            && |s'.links| == l + 1 && (forall i :: 0 <= i < l ==> s'.links[i] == s.links[i])
            && s.requests[r].link == None && s'.requests == s.requests[r := s.requests[r].(link := Some(l))]
  {
  }

  lemma ConnectInOrder(w: World, s: State, t: nat, fd: Fd, build: seq<Byte>)
    requires InOrder(w, s, t) && DoConnect(s, t, fd, build).Some?
    ensures InOrder(w, DoConnect(s, t, fd, build).value, t)
  {
    ConnectThread(s, t, fd, build);
    ConnectRequest(s, t, fd, build);
    ConnectSession(s, t, fd, build);
  }

  lemma ConnectThread(s: State, t: nat, fd: Fd, build: seq<Byte>)
    requires TableOk(s) && MapOk(s) && t < |s.threads| && s.threads[t].req < |s.requests| && ThreadOk(s, t)
    requires DoConnect(s, t, fd, build).Some?
    ensures var s' := DoConnect(s, t, fd, build).value; TableOk(s') && MapOk(s') && ThreadOk(s', t)
  {
    ConnectOwned(s, t, fd, build);
  }

  lemma ConnectRequest(s: State, t: nat, fd: Fd, build: seq<Byte>)
    requires t < |s.threads| && BusyOk(s, t) && RequestOk(s, s.threads[t].req) && DoConnect(s, t, fd, build).Some?
    ensures var s', r := DoConnect(s, t, fd, build).value, s.threads[t].req;
            && s'.threads[t].req == r && |s'.requests| == |s.requests| && RequestOk(s', r)
            && s'.requests[r].link == Some(|s.links|) && s'.requests[r].id == s.requests[r].id
            && s'.links[|s.links|].req == r && s'.links[|s.links|].sent == []
  {
  }

  lemma ConnectSession(s: State, t: nat, fd: Fd, build: seq<Byte>)
    requires TableOk(s) && t < |s.threads| && BusyOk(s, t) && DoConnect(s, t, fd, build).Some?
    requires SessionOk(s, s.threads[t].id)
    ensures SessionOk(DoConnect(s, t, fd, build).value, s.threads[t].id)
  {
    ConnectOwned(s, t, fd, build);
    assert SessionOf(s, t);
  }

  lemma ConnectKeeps(w: World, s: State, t: nat, fd: Fd, build: seq<Byte>)
    requires Inv(w, s) && t < |s.threads| && DoConnect(s, t, fd, build).Some?
    ensures Good(w, s, DoConnect(s, t, fd, build).value)
  {
    Mine(w, s, t);
    ConnectOnly(s, t, fd, build);
    ConnectInOrder(w, s, t, fd, build);
    Assemble(w, s, DoConnect(s, t, fd, build).value, t);
  }

  // ---------------------------------------------------------------- steps of a pty process

  /** Only how far the two ends have read, the replies and the process changed. */
  ghost predicate SameSide(k: Link, k': Link) {
    && k'.req == k.req && k'.sent == k.sent && k'.build == k.build
    && k.taken <= k'.taken && k.replies <= k'.replies && k.relays <= k'.relays
  }

  lemma SetLinkKeeps(w: World, s: State, l: nat, k: Link)
    requires Inv(w, s) && l < |s.links| && SameSide(s.links[l], k)
    requires LinkOk(w, s, l) && ProcOk(k, s.requests[k.req])
    ensures Good(w, s, SetLink(s, l, k))
  {
    var s' := SetLink(s, l, k);
    assert forall o :: OwnedBy(s', o) == OwnedBy(s, o);
    forall u | 0 <= u < |s'.threads| ensures ThreadOk(s', u) { SetLinkThread(s, l, k, u); }
    forall id | id in s'.sessions ensures SessionOk(s', id) { SetLinkSession(s, l, k, id); }
    forall r | 0 <= r < |s'.requests| ensures RequestOk(s', r) { assert RequestOk(s, r); }
    forall i | 0 <= i < |s'.links| ensures LinkOk(w, s', i) { assert LinkOk(w, s, i); }
  }

  lemma SetLinkThread(s: State, l: nat, k: Link, u: nat)
    requires l < |s.links| && SameSide(s.links[l], k) && u < |s.threads| && ThreadOk(s, u)
    ensures ThreadOk(SetLink(s, l, k), u)
  {
    assert forall o :: OwnedBy(SetLink(s, l, k), o) == OwnedBy(s, o);
  }

  lemma SetLinkSession(s: State, l: nat, k: Link, id: SessionId)
    requires l < |s.links| && SameSide(s.links[l], k) && id in s.sessions && SessionOk(s, id)
    ensures SessionOk(SetLink(s, l, k), id)
  {
    assert forall o :: OwnedBy(SetLink(s, l, k), o) == OwnedBy(s, o);
  }

  lemma PtyHelloKeeps(w: World, s: State, l: nat, room: nat)
    requires Inv(w, s) && l < |s.links| && DoPtyHello(w, s, l, room).Some?
    ensures Good(w, s, DoPtyHello(w, s, l, room).value)
  {
    assert LinkOk(w, s, l);
    SetLinkKeeps(w, s, l, DoPtyHello(w, s, l, room).value.links[l]);
  }

  lemma PtyInitKeeps(w: World, s: State, l: nat, room: nat)
    requires Inv(w, s) && l < |s.links| && DoPtyInit(s, l, room).Some?
    ensures Good(w, s, DoPtyInit(s, l, room).value)
  {
    assert LinkOk(w, s, l);
    var k := s.links[l];
    InitReceived(s.requests[k.req].pty.value, room);
    SetLinkKeeps(w, s, l, DoPtyInit(s, l, room).value.links[l]);
  }

  lemma PtyRequestKeeps(w: World, s: State, l: nat, room: nat)
    requires Inv(w, s) && l < |s.links| && DoPtyRequest(s, l, room).Some?
    ensures Good(w, s, DoPtyRequest(s, l, room).value)
  {
    assert LinkOk(w, s, l);
    var k := s.links[l];
    NewClientReceived(s.requests[k.req].client, room);
    SetLinkKeeps(w, s, l, DoPtyRequest(s, l, room).value.links[l]);
  }

  /** An `Init` that is accepted is the one that was sent. */
  lemma InitReceived(pty: Obj, room: nat)
    ensures Receive(INIT, INIT_LIMITS, Send(Init(pty)), room).Success? <==> room >= 1
    ensures room >= 1 ==> InitFd(Send(Init(pty)), room) == pty
  {
    if room >= 1 {
      ReceiveInit(pty, room);
    }
  }

  /** A `NewClient` that is accepted is the one that was sent. */
  lemma NewClientReceived(client: Obj, room: nat)
    ensures Receive(PTY_REQUEST, PTY_REQUEST_LIMITS, Send(NewClient(client)), room).Success? <==> room >= 1
    ensures room >= 1 ==> NewClientFd(Send(NewClient(client)), room) == client
  {
    var v := NewClient(client);
    assert Conforms<Obj>(Unit, VUnit);
    assert Conforms(Pair(FdLeaf, Unit), v.payload.second);
    assert Conforms(BYTE_AND_FD, v.payload);
    PtyRequestShape(v);
    if room >= 1 {
      ReceiveNewClient(client, room);
    } else {
      ExactOutcome(PTY_REQUEST, PTY_REQUEST_LIMITS, v, [client], room);
    }
  }

  // ---------------------------------------------------------------- the remaining steps of a thread

  /** The reply was taken off the link. */
  lemma AfterReplyKeeps(w: World, s: State, t: nat)
    requires Inv(w, s) && t < |s.threads|
    ensures Good(w, s, AfterReply(s, t)) && AfterReply(s, t).threads == s.threads
  {
    var l := s.threads[t].link;
    if l < |s.links| {
      assert LinkOk(w, s, l);
      SetLinkKeeps(w, s, l, s.links[l].(repliesTaken := s.links[l].repliesTaken + 1));
    } else {
      Same(w, s);
    }
  }

  lemma Same(w: World, s: State)
    requires Inv(w, s)
    ensures Good(w, s, s)
  {
  }

  /** And then the thread goes on or ends. */
  lemma TakeReplyKeeps(w: World, s: State, t: nat, room: nat)
    requires Inv(w, s) && t < |s.threads| && DoTakeReply(w, s, t, room).Some?
    ensures Good(w, s, DoTakeReply(w, s, t, room).value)
  {
    var s1 := AfterReply(s, t);
    AfterReplyKeeps(w, s, t);
    ReplyCases(w, s, t, room);
    if DoTakeReply(w, s, t, room) == Some(Quit(s1, t)) {
      QuitKeeps(w, s1, t);
    } else {
      PcKeeps(w, s1, Set(s1, t, s.threads[t].(pc := Greeted)), t);
    }
    GoodThen(w, s, s1, DoTakeReply(w, s, t, room).value);
  }

  lemma ReplyCases(w: World, s: State, t: nat, room: nat)
    requires t < |s.threads| && DoTakeReply(w, s, t, room).Some?
    ensures s.threads[t].pc == Greeting && AfterReply(s, t).threads == s.threads
    ensures DoTakeReply(w, s, t, room) == Some(Quit(AfterReply(s, t), t))
            || DoTakeReply(w, s, t, room) == Some(Set(AfterReply(s, t), t, s.threads[t].(pc := Greeted)))
  {
  }

  lemma GoodThen(w: World, s: State, s1: State, s2: State)
    requires Good(w, s, s1) && Good(w, s1, s2)
    ensures Good(w, s, s2)
  {
    ExtendsThen(s, s1, s2);
  }

  lemma AcceptedKeeps(w: World, s: State, t: nat, client: Obj, fd: Fd)
    requires Inv(w, s) && t < |s.threads| && s.threads[t].pc == Idle && fd !in s.table
    ensures Good(w, s, Accepted(s, t, client, fd))
  {
    assert ThreadOk(s, t);
    AcceptedMoves(s, t, client, fd);
    OnlyThreadKeeps(w, s, Accepted(s, t, client, fd), t);
  }

  lemma AcceptedMoves(s: State, t: nat, client: Obj, fd: Fd)
    requires TableOk(s) && MapOk(s) && t < |s.threads| && ThreadOk(s, t) && s.threads[t].pc == Idle && fd !in s.table
    ensures var s' := Accepted(s, t, client, fd);
            && OnlyThread(s, s', t) && TableOk(s') && MapOk(s') && ThreadOk(s', t)
            && OwnedBy(s', Nobody) == OwnedBy(s, Nobody)
  {
    var s' := Accepted(s, t, client, fd);
    OpenOwned(s, fd, client, OfThread(t));
    assert forall o :: OwnedBy(s', o) == OwnedBy(Open(s, fd, client, OfThread(t)), o);
    assert s.threads[t].conn in OwnedBy(s, OfThread(t));
  }

  lemma OpenNobodyKeeps(w: World, s: State, fd: Fd, obj: Obj)
    requires Inv(w, s) && fd !in s.table
    ensures Inv(w, Open(s, fd, obj, Nobody)) && Extends(s, Open(s, fd, obj, Nobody))
    ensures OwnedBy(Open(s, fd, obj, Nobody), Nobody) == OwnedBy(s, Nobody) + {fd}
  {
    OpenOwned(s, fd, obj, Nobody);
    OnlyThreadKeeps(w, s, Open(s, fd, obj, Nobody), |s.threads|);
  }

  lemma {:induction false} OpenAllKeeps(w: World, s: State, fds: seq<Fd>, objs: seq<Obj>)
    requires Inv(w, s) && |fds| == |objs|
    requires Distinct(fds) && forall fd :: fd in fds ==> fd !in s.table
    ensures var s' := OpenAll(s, fds, objs, Nobody);
            Inv(w, s') && Extends(s, s') && OwnedBy(s', Nobody) == OwnedBy(s, Nobody) + Elements(fds)
    decreases |fds|
  {
    if fds != [] {
      var s1 := Open(s, fds[0], objs[0], Nobody);
      OpenNobodyKeeps(w, s, fds[0], objs[0]);
      OpenAllKeeps(w, s1, fds[1..], objs[1..]);
      ExtendsThen(s, s1, OpenAll(s, fds, objs, Nobody));
      assert Elements(fds) == {fds[0]} + Elements(fds[1..]);
    }
  }

  lemma SpawnKeeps(w: World, s: State, fd: Fd, obj: Obj)
    requires Inv(w, s) && fd !in s.table
    ensures Good(w, s, Spawn(s, fd, obj))
  {
    var s' := Spawn(s, fd, obj);
    OpenOwned(s, fd, obj, OfThread(|s.threads|));
    assert forall o :: OwnedBy(s', o) == OwnedBy(Open(s, fd, obj, OfThread(|s.threads|)), o);
    assert OwnedBy(s, OfThread(|s.threads|)) == {};
    OnlyThreadKeeps(w, s, s', |s.threads|);
  }

  /** The descriptors a step leaves open with no owner: those of a packet that was too large
      or empty. */
  function Leak(a: Action): set<Fd> {
    if a.TakeRequest? && !Adopts(SESSIONS_REQUEST_LIMITS, a.packet.data) then Elements(a.fds) else {}
  }

  lemma TakeRequestKeeps(w: World, s: State, a: Action, s': State)
    requires Inv(w, s) && a.TakeRequest? && a.t < |s.threads|
    requires DoTakeRequest(s, a.t, a.packet, a.room, a.fds) == Some(s')
    ensures Inv(w, s') && Extends(s, s') && OwnedBy(s', Nobody) == OwnedBy(s, Nobody) + Leak(a)
  {
    if Receive(SESSIONS_REQUEST, SESSIONS_REQUEST_LIMITS, a.packet, a.room).Success? {
      AcceptedKeeps(w, s, a.t, RequestFd(a.packet, a.room), a.fds[0]);
    } else if Adopts(SESSIONS_REQUEST_LIMITS, a.packet.data) {
      QuitKeeps(w, s, a.t);
    } else {
      var s1 := OpenAll(s, a.fds, a.packet.handles[..|a.fds|], Nobody);
      OpenAllKeeps(w, s, a.fds, a.packet.handles[..|a.fds|]);
      QuitKeeps(w, s1, a.t);
      ExtendsThen(s, s1, s');
    }
  }

  // ---------------------------------------------------------------- all steps, all runs

  lemma StepKeeps(w: World, s: State, a: Action, s': State)
    requires Inv(w, s) && Step(w, s, a) == Some(s')
    ensures Inv(w, s') && Extends(s, s') && OwnedBy(s', Nobody) == OwnedBy(s, Nobody) + Leak(a)
  {
    if a.TakeRequest? { TakeRequestKeeps(w, s, a, s'); }
    else if IsBusyStep(a) { BusyStepKeeps(w, s, a, s'); }
    else if IsRestStep(a) { RestStepKeeps(w, s, a, s'); }
    else { LinkStepKeeps(w, s, a, s'); }
  }

  /** A step of a pty process. */
  predicate IsLinkStep(a: Action) { a.PtyHello? || a.PtyInit? || a.PtyRequest? || a.PtyExit? }

  lemma LinkStepKeeps(w: World, s: State, a: Action, s': State)
    requires Inv(w, s) && IsLinkStep(a) && Step(w, s, a) == Some(s')
    ensures Good(w, s, s')
  {
    match a
    case PtyHello(l, room) => PtyHelloKeeps(w, s, l, room);
    case PtyInit(l, room) => PtyInitKeeps(w, s, l, room);
    case PtyRequest(l, room) => PtyRequestKeeps(w, s, l, room);
    case PtyExit(l) => PtyExitKeeps(w, s, l);
  }

  /** What is neither a step of a busy thread, nor a receive, nor a step of a pty process. */
  predicate IsRestStep(a: Action) { a.Accept? || a.ServeHandshake? || a.LockMap? || a.UnlockMap? || a.TakeReply? || a.Panic? }

  lemma RestStepKeeps(w: World, s: State, a: Action, s': State)
    requires Inv(w, s) && IsRestStep(a) && Step(w, s, a) == Some(s')
    ensures Good(w, s, s')
  {
    match a
    case Accept(fd, obj) => SpawnKeeps(w, s, fd, obj);
    case ServeHandshake(t, hello, room, accepted) => ServeHandshakeKeeps(w, s, t, hello, room, accepted);
    case LockMap(t) => PcKeeps(w, s, s', t);
    case UnlockMap(t) => UnlockMapKeeps(w, s, s', t);
    case TakeReply(t, room) => TakeReplyKeeps(w, s, t, room);
    case Panic(t) => QuitKeeps(w, s, t);
  }

  lemma ServeHandshakeKeeps(w: World, s: State, t: nat, hello: Packet<Obj>, room: nat, accepted: bool)
    requires Inv(w, s) && t < |s.threads| && DoServeHandshake(w, s, t, hello, room, accepted).Some?
    ensures Good(w, s, DoServeHandshake(w, s, t, hello, room, accepted).value)
  {
    if JudgePacket(w.kdf, SESSIONS_CLIENT, w.build, hello, room).Success? && accepted {
      PcKeeps(w, s, Set(s, t, s.threads[t].(pc := Idle)), t);
    } else {
      QuitKeeps(w, s, t);
    }
  }

  lemma UnlockMapKeeps(w: World, s: State, s': State, t: nat)
    requires Inv(w, s) && t < |s.threads| && DoUnlockMap(s, t) == Some(s')
    ensures Good(w, s, s')
  {
    assert ThreadOk(s, t);
    PcKeeps(w, s, s', t);
  }

  lemma PtyExitKeeps(w: World, s: State, l: nat)
    requires Inv(w, s) && l < |s.links|
    ensures Good(w, s, SetLink(s, l, s.links[l].(proc := Exited)))
  {
    assert LinkOk(w, s, l);
    SetLinkKeeps(w, s, l, s.links[l].(proc := Exited));
  }

  predicate IsBusyStep(a: Action) {
    a.Draw? || a.CreateShell? || a.Connect? || a.SendHello? || a.SendInit? || a.LockSession? || a.Store? || a.UnlockSession?
    || a.SendNewClient?
  }

  lemma BusyStepKeeps(w: World, s: State, a: Action, s': State)
    requires Inv(w, s) && IsBusyStep(a) && Step(w, s, a) == Some(s')
    ensures Good(w, s, s')
  {
    match a
    case Draw(t, id) => DrawKeeps(w, s, t, id);
    case CreateShell(t, fd) => CreateShellKeeps(w, s, t, fd);
    case Connect(t, fd, build) => ConnectKeeps(w, s, t, fd, build);
    case SendHello(t) => SendHelloKeeps(w, s, t);
    case SendInit(t) => SendInitKeeps(w, s, t);
    case LockSession(t) => LockSessionKeeps(w, s, t);
    case Store(t) => StoreKeeps(w, s, t);
    case UnlockSession(t) => UnlockSessionKeeps(w, s, t);
    case SendNewClient(t) => SendNewClientKeeps(w, s, t);
  }

  lemma NextInv(w: World, states: seq<State>, actions: seq<Action>, i: nat)
    requires IsRun(w, states, actions) && i < |actions| && Inv(w, states[i])
    ensures Inv(w, states[i + 1]) && Extends(states[i], states[i + 1])
    ensures OwnedBy(states[i + 1], Nobody) == OwnedBy(states[i], Nobody) + Leak(actions[i])
  {
    assert Follows(w, states, actions, i);
    StepKeeps(w, states[i], actions[i], states[i + 1]);
  }

  /** The invariant holds at every point of every run. */
  lemma {:induction false} RunInv(w: World, states: seq<State>, actions: seq<Action>, i: nat)
    requires IsRun(w, states, actions) && i < |states|
    ensures Inv(w, states[i])
  {
    if i == 0 {
      StartInv(w, states[0]);
    } else {
      RunInv(w, states, actions, i - 1);
      NextInv(w, states, actions, i - 1);
    }
  }

  /** What was decided at one point of a run stands at every later one. */
  lemma {:induction false} RunExtends(w: World, states: seq<State>, actions: seq<Action>, i: nat, j: nat)
    requires IsRun(w, states, actions) && i <= j < |states|
    ensures Extends(states[i], states[j])
    decreases j
  {
    if i < j {
      RunExtends(w, states, actions, i, j - 1);
      RunInv(w, states, actions, j - 1);
      NextInv(w, states, actions, j - 1);
      ExtendsThen(states[i], states[j - 1], states[j]);
    }
  }

  /** A step from the end of a run makes a longer run. */
  lemma OneMore(w: World, states: seq<State>, actions: seq<Action>, a: Action, s: State)
    requires IsRun(w, states, actions) && Step(w, states[|actions|], a) == Some(s)
    ensures IsRun(w, states + [s], actions + [a])
  {
    var states', actions' := states + [s], actions + [a];
    forall i | 0 <= i < |actions'| ensures Follows(w, states', actions', i) {
      if i < |actions| { assert Follows(w, states, actions, i); }
    }
  }
}
