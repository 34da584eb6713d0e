/**
  The inductive invariant of the sessions machine: who owns which descriptor, which thread a
  request, a session and a link belong to, and what was sent on every link.
*/
module SessionsInvariant {
  import opened Wrappers
  import opened Packets
  import opened PassFd
  import opened Proto
  import opened Handshakes
  import opened Sessions

  // ---------------------------------------------------------------- ownership

  ghost function OwnedBy(s: State, who: Owner): set<Fd> {
    set fd | fd in s.owner && s.owner[fd] == who
  }

  /** Every open descriptor has an owner that exists. */
  ghost predicate TableOk(s: State) {
    && s.table.Keys == s.owner.Keys
    && forall fd :: fd in s.owner ==> OwnerExists(s, s.owner[fd])
  }

  predicate OwnerExists(s: State, who: Owner) {
    match who
    case OfThread(t) => t < |s.threads|
    case OfSession(id) => id in s.sessions
    case _ => true
  }

  // ---------------------------------------------------------------- threads

  /** How many packets a thread has sent on its link. */
  function SentBy(pc: Pc): nat {
    if Rank(pc) <= 7 then 0 else if Rank(pc) <= 9 then 1 else 2
  }

  ghost predicate ThreadOk(s: State, t: nat)
    requires t < |s.threads|
  {
    var th := s.threads[t];
    && OwnedBy(s, OfThread(t)) == Held(th)
    && (s.mapLock == Some(t) <==> HoldsMap(th.pc))
    && (Busy(th.pc) ==> BusyOk(s, t))
  }

  /** A thread in the middle of a request: the request is its own, and its locals are what the
      request says was made for it. */
  ghost predicate BusyOk(s: State, t: nat)
    requires t < |s.threads|
  {
    var th := s.threads[t];
    && th.req < |s.requests|
    && var rq := s.requests[th.req];
       && rq.owner == t
       && th.client != th.conn
       && th.client in s.table && s.table[th.client] == rq.client
       && (rq.id.Some? <==> HasId(th.pc))
       && (HasId(th.pc) ==> SessionOf(s, t))
       && (rq.pty.Some? <==> Rank(th.pc) >= 6)
       && (OwnsPty(th.pc) ==> th.pty !in {th.conn, th.client} && th.pty in s.table && Some(s.table[th.pty]) == rq.pty)
       && (OwnsSock(th.pc) ==> th.sock !in {th.conn, th.client, th.pty} && th.sock in s.table && s.table[th.sock] == PtySocket(th.link))
       && (rq.link.Some? <==> HasLink(th.pc))
       && (HasLink(th.pc) ==> LinkOf(s, t))
  }

  ghost predicate SessionOf(s: State, t: nat)
    requires t < |s.threads| && s.threads[t].req < |s.requests|
  {
    var th := s.threads[t];
    && s.requests[th.req].id == Some(th.id)
    && th.id in s.sessions
    && s.sessions[th.id].req == th.req
    && (s.sessions[th.id].lock == Some(t) <==> HoldsSession(th.pc))
    && (s.sessions[th.id].state == Creating <==> Rank(th.pc) <= 11)
  }

  ghost predicate LinkOf(s: State, t: nat)
    requires t < |s.threads| && s.threads[t].req < |s.requests|
  {
    var th := s.threads[t];
    && s.requests[th.req].link == Some(th.link)
    && th.link < |s.links|
    && s.links[th.link].req == th.req
    && |s.links[th.link].sent| == SentBy(th.pc)
  }

  // ---------------------------------------------------------------- sessions

  ghost predicate SessionOk(s: State, id: SessionId)
    requires id in s.sessions
  {
    var e := s.sessions[id];
    && e.req < |s.requests| && s.requests[e.req].id == Some(id)
    && !e.poisoned
    && (e.lock.Some? ==> e.lock.value < |s.threads| && s.threads[e.lock.value].id == id && HoldsSession(s.threads[e.lock.value].pc))
    && match e.state
       case Creating => OwnedBy(s, OfSession(id)) == {}
       case Ready(pty, sock) =>
         && OwnedBy(s, OfSession(id)) == {pty, sock} && pty != sock
         && pty in s.table && s.requests[e.req].pty == Some(s.table[pty])
         && sock in s.table && s.table[sock].PtySocket? && s.requests[e.req].link == Some(s.table[sock].conn)
         && s.table[sock].conn < |s.links| && |s.links[s.table[sock].conn].sent| >= 2
  }

  // ---------------------------------------------------------------- requests and links

  ghost predicate RequestOk(s: State, r: nat)
    requires r < |s.requests|
  {
    var rq := s.requests[r];
    && rq.owner < |s.threads|
    && (rq.id.Some? ==> rq.id.value in s.sessions && s.sessions[rq.id.value].req == r)
    && (rq.pty.Some? ==> rq.id.Some? && rq.pty.value.Pty? && rq.pty.value.n < s.ptys)
    && (rq.link.Some? ==> rq.pty.Some? && rq.link.value < |s.links| && s.links[rq.link.value].req == r)
  }

  /** No two requests were given the same PTY. */
  ghost predicate PtysDistinct(s: State) {
    forall r, q :: 0 <= r < q < |s.requests| && s.requests[r].pty.Some? ==> s.requests[r].pty != s.requests[q].pty
  }

  /** All that is ever sent on a link: handshake, the request's PTY, the request's client. */
  function Script(w: World, rq: Request): seq<Packet<Obj>>
    requires rq.pty.Some?
  {
    [Send(Hello(w.kdf, PTY_CLIENT, w.build)), Send(Init(rq.pty.value)), Send(NewClient(rq.client))]
  }

  ghost predicate LinkOk(w: World, s: State, l: nat)
    requires l < |s.links|
  {
    var k := s.links[l];
    && k.req < |s.requests|
    && var rq := s.requests[k.req];
       && rq.link == Some(l) && rq.pty.Some?
       && k.sent <= Script(w, rq)
       && ProcOk(k, rq)
  }

  /** The pty process received a prefix of what was sent, and is where that prefix puts it. */
  ghost predicate ProcOk(k: Link, rq: Request)
    requires rq.pty.Some?
  {
    && k.taken <= |k.sent|
    && (k.proc == AwaitHello ==> k.taken == 0)
    && (k.proc == AwaitInit ==> k.taken == 1)
    && (k.proc.Serving? ==> k.taken >= 2 && k.proc.pty == rq.pty.value)
    && (k.relays == [] || (k.taken == 3 && k.relays == [Relay(rq.pty.value, rq.client)]))
  }

  // ---------------------------------------------------------------- the invariant

  ghost predicate Threads(s: State) { forall t :: 0 <= t < |s.threads| ==> ThreadOk(s, t) }
  ghost predicate AllSessions(s: State) { forall id :: id in s.sessions ==> SessionOk(s, id) }
  ghost predicate Requests(s: State) { PtysDistinct(s) && forall r :: 0 <= r < |s.requests| ==> RequestOk(s, r) }
  ghost predicate Links(w: World, s: State) { forall l :: 0 <= l < |s.links| ==> LinkOk(w, s, l) }
  ghost predicate MapOk(s: State) { !s.mapPoisoned && (s.mapLock.Some? ==> s.mapLock.value < |s.threads|) }

  ghost predicate Inv(w: World, s: State) {
    TableOk(s) && MapOk(s) && Threads(s) && AllSessions(s) && Requests(s) && Links(w, s)
  }

  lemma StartInv(w: World, s: State)
    requires Start(s)
    ensures Inv(w, s)
  {
  }

  // ---------------------------------------------------------------- the past is kept

  /** Nothing that was once decided changes later: requests keep their client and whatever was
      made for them, session ids stay taken by the same request, Ready sessions stay as they
      are, links only grow, and the process keeps the descriptors it started with. */
  ghost predicate Extends(s: State, s': State) {
    && OwnedBy(s', Base) == OwnedBy(s, Base)
    && |s.threads| <= |s'.threads| && |s.requests| <= |s'.requests| && |s.links| <= |s'.links|
    && (forall r :: 0 <= r < |s.requests| ==> RequestExtends(s.requests[r], s'.requests[r]))
    && (forall id :: id in s.sessions ==> id in s'.sessions && SessionExtends(s.sessions[id], s'.sessions[id]))
    && (forall l :: 0 <= l < |s.links| ==> LinkExtends(s.links[l], s'.links[l]))
  }

  ghost predicate RequestExtends(rq: Request, rq': Request) {
    && rq'.owner == rq.owner && rq'.client == rq.client
    && (rq.id.Some? ==> rq'.id == rq.id) && (rq.pty.Some? ==> rq'.pty == rq.pty) && (rq.link.Some? ==> rq'.link == rq.link)
  }

  ghost predicate SessionExtends(e: Session, e': Session) {
    e'.req == e.req && (e.state.Ready? ==> e'.state == e.state)
  }

  ghost predicate LinkExtends(k: Link, k': Link) {
    k'.req == k.req && k.sent <= k'.sent && k.taken <= k'.taken && k.replies <= k'.replies && k.relays <= k'.relays
  }

  lemma ExtendsThen(a: State, b: State, c: State)
    requires Extends(a, b) && Extends(b, c)
    ensures Extends(a, c)
  {
    forall r | 0 <= r < |a.requests| ensures RequestExtends(a.requests[r], c.requests[r]) {
      assert RequestExtends(b.requests[r], c.requests[r]);
    }
    forall id | id in a.sessions ensures id in c.sessions && SessionExtends(a.sessions[id], c.sessions[id]) {
      assert SessionExtends(b.sessions[id], c.sessions[id]);
    }
    forall l | 0 <= l < |a.links| ensures LinkExtends(a.links[l], c.links[l]) {
      assert LinkExtends(b.links[l], c.links[l]);
    }
  }

  // ---------------------------------------------------------------- ownership and the parts of steps

  lemma OpenOwned(s: State, fd: Fd, obj: Obj, who: Owner)
    requires fd !in s.owner
    ensures forall o :: OwnedBy(Open(s, fd, obj, who), o) == if o == who then OwnedBy(s, o) + {fd} else OwnedBy(s, o)
  {
  }

  /** Closing all that one owner has: the others keep theirs, and what they refer to. */
  lemma CloseOwned(s: State, who: Owner, fds: set<Fd>)
    requires fds <= OwnedBy(s, who)
    ensures forall o :: OwnedBy(Close(s, fds), o) == if o == who then OwnedBy(s, o) - fds else OwnedBy(s, o)
    ensures forall fd :: fd in Close(s, fds).owner <==> fd in s.owner && fd !in fds
  {
  }
}
