/**
  Every open descriptor of the sessions process is accounted for: which are open, who closes
  them, and which nobody ever will.
*/
module SessionsDescriptors {
  import opened Wrappers
  import opened Ancillary
  import opened Packets
  import opened PassFd
  import opened Proto
  import opened Handshakes
  import opened Sessions
  import opened SessionsInvariant
  import opened SessionsSteps
  import opened SessionsTheorems

  // ---------------------------------------------------------------- counting

  /** How many descriptors a thread at `pc` holds: its connection; from a request on, the
      client; and between making them and handing them over, the PTY and the pty connection. */
  function HeldCount(pc: Pc): nat {
    (if pc == Done then 0 else 1) + (if Busy(pc) then 1 else 0) + (if OwnsPty(pc) then 1 else 0) + (if OwnsSock(pc) then 1 else 0)
  }

  function InFlight(threads: seq<Thread>): nat {
    if threads == [] then 0 else InFlight(threads[..|threads| - 1]) + HeldCount(threads[|threads| - 1].pc)
  }

  ghost function ReadyIds(s: State): set<SessionId> {
    set id | id in s.sessions && s.sessions[id].state.Ready?
  }

  lemma HeldCounted(s: State, t: nat)
    requires t < |s.threads| && ThreadOk(s, t)
    ensures |OwnedBy(s, OfThread(t))| == HeldCount(s.threads[t].pc)
  {
    var th := s.threads[t];
    if Busy(th.pc) {
      assert th.client != th.conn && (OwnsPty(th.pc) ==> th.pty !in {th.conn, th.client})
             && (OwnsSock(th.pc) ==> th.sock !in {th.conn, th.client, th.pty});
    }
    HeldSize(th);
  }

  lemma HeldSize(th: Thread)
    requires Busy(th.pc) ==> th.client != th.conn
    requires OwnsPty(th.pc) ==> th.pty !in {th.conn, th.client}
    requires OwnsSock(th.pc) ==> th.sock !in {th.conn, th.client, th.pty}
    ensures |Held(th)| == HeldCount(th.pc)
  {
    if OwnsSock(th.pc) {
      assert Held(th) == {th.conn} + {th.client} + {th.pty} + {th.sock};
      Size4(th.conn, th.client, th.pty, th.sock);
    } else if OwnsPty(th.pc) {
      assert Held(th) == {th.conn} + {th.client} + {th.pty};
      Size3(th.conn, th.client, th.pty);
    } else {
      assert th.pc == Done ==> !Busy(th.pc);
    }
  }

  lemma Size3(a: Fd, b: Fd, c: Fd)
    requires a != b && c !in {a, b}
    ensures |{a} + {b} + {c}| == 3
  {
    Disjoint({a} + {b} + {c}, {a, b}, {c});
  }

  lemma Size4(a: Fd, b: Fd, c: Fd, d: Fd)
    requires a != b && c !in {a, b} && d !in {a, b, c}
    ensures |{a} + {b} + {c} + {d}| == 4
  {
    Size3(a, b, c);
    Disjoint({a} + {b} + {c} + {d}, {a} + {b} + {c}, {d});
  }

  lemma Disjoint(whole: set<Fd>, a: set<Fd>, b: set<Fd>)
    requires forall fd :: fd in whole <==> fd in a || fd in b
    requires forall fd :: fd in a ==> fd !in b
    ensures |whole| == |a| + |b|
  {
    assert whole == a + b;
  }

  ghost function OfFirstThreads(s: State, n: nat): set<Fd> {
    set fd | fd in s.owner && s.owner[fd].OfThread? && s.owner[fd].t < n
  }

  lemma {:induction false} ThreadsCounted(s: State, n: nat)
    requires Threads(s) && n <= |s.threads|
    ensures |OfFirstThreads(s, n)| == InFlight(s.threads[..n])
  {
    if n == 0 {
      assert OfFirstThreads(s, 0) == {};
    } else {
      ThreadsCounted(s, n - 1);
      OneMoreThread(s, n);
      assert s.threads[..n][..n - 1] == s.threads[..n - 1];
    }
  }

  lemma OneMoreThread(s: State, n: nat)
    requires 0 < n <= |s.threads| && ThreadOk(s, n - 1)
    ensures |OfFirstThreads(s, n)| == |OfFirstThreads(s, n - 1)| + HeldCount(s.threads[n - 1].pc)
  {
    HeldCounted(s, n - 1);
    SplitThread(s, n);
  }

  lemma SplitThread(s: State, n: nat)
    requires 0 < n
    ensures |OfFirstThreads(s, n)| == |OfFirstThreads(s, n - 1)| + |OwnedBy(s, OfThread(n - 1))|
  {
    Disjoint(OfFirstThreads(s, n), OfFirstThreads(s, n - 1), OwnedBy(s, OfThread(n - 1)));
  }

  ghost function OfSomeSessions(s: State, ids: set<SessionId>): set<Fd> {
    set fd | fd in s.owner && s.owner[fd].OfSession? && s.owner[fd].id in ids
  }

  lemma {:induction false} SessionsCounted(s: State, ids: set<SessionId>)
    requires AllSessions(s) && ids <= s.sessions.Keys
    ensures |OfSomeSessions(s, ids)| == 2 * |ids * ReadyIds(s)|
    decreases ids
  {
    if ids == {} {
      assert OfSomeSessions(s, ids) == {};
      assert ids * ReadyIds(s) == {};
    } else {
      var id :| id in ids;
      SessionsCounted(s, ids - {id});
      OneMoreSession(s, ids, id);
    }
  }

  lemma OneMoreSession(s: State, ids: set<SessionId>, id: SessionId)
    requires id in ids && id in s.sessions && SessionOk(s, id)
    ensures |OfSomeSessions(s, ids)| == |OfSomeSessions(s, ids - {id})| + 2 * (|ids * ReadyIds(s)| - |(ids - {id}) * ReadyIds(s)|)
  {
    SplitSession(s, ids, id);
    if s.sessions[id].state.Ready? {
      assert ids * ReadyIds(s) == (ids - {id}) * ReadyIds(s) + {id};
    } else {
      assert ids * ReadyIds(s) == (ids - {id}) * ReadyIds(s);
    }
  }

  lemma SplitSession(s: State, ids: set<SessionId>, id: SessionId)
    requires id in ids
    ensures |OfSomeSessions(s, ids)| == |OfSomeSessions(s, ids - {id})| + |OwnedBy(s, OfSession(id))|
  {
    Disjoint(OfSomeSessions(s, ids), OfSomeSessions(s, ids - {id}), OwnedBy(s, OfSession(id)));
  }

  /** In every good state the open descriptors are the base set, two for every Ready session,
      what the threads in flight hold, and what was lost. */
  lemma Count(w: World, s: State)
    requires Inv(w, s)
    ensures |s.table| == |OwnedBy(s, Base)| + 2 * |ReadyIds(s)| + InFlight(s.threads) + |OwnedBy(s, Nobody)|
  {
    CountParts(s);
    Partition(s, OfFirstThreads(s, |s.threads|), OfSomeSessions(s, s.sessions.Keys));
  }

  lemma CountParts(s: State)
    requires Threads(s) && AllSessions(s)
    ensures |OfFirstThreads(s, |s.threads|)| == InFlight(s.threads)
    ensures |OfSomeSessions(s, s.sessions.Keys)| == 2 * |ReadyIds(s)|
  {
    ThreadsCounted(s, |s.threads|);
    assert s.threads[..|s.threads|] == s.threads;
    SessionsCounted(s, s.sessions.Keys);
    assert s.sessions.Keys * ReadyIds(s) == ReadyIds(s);
  }

  lemma Partition(s: State, threads: set<Fd>, sessions: set<Fd>)
    requires TableOk(s)
    requires threads == OfFirstThreads(s, |s.threads|) && sessions == OfSomeSessions(s, s.sessions.Keys)
    ensures |s.table| == |OwnedBy(s, Base)| + |sessions| + |threads| + |OwnedBy(s, Nobody)|
  {
    var base, lost := OwnedBy(s, Base), OwnedBy(s, Nobody);
    forall fd ensures fd in s.table.Keys <==> fd in base + sessions + threads || fd in lost {
      if fd in s.owner { assert OwnerExists(s, s.owner[fd]); }
    }
    Disjoint(s.table.Keys, base + sessions + threads, lost);
    Disjoint(base + sessions + threads, base + sessions, threads);
    Disjoint(base + sessions, base, sessions);
    assert |s.table| == |s.table.Keys|;
  }

  // ---------------------------------------------------------------- over runs

  /** The descriptors that packets too large or empty left open. */
  ghost function Leaked(actions: seq<Action>): set<Fd> {
    if actions == [] then {} else Leaked(actions[..|actions| - 1]) + Leak(actions[|actions| - 1])
  }

  lemma {:induction false} LostIsLeaked(w: World, states: seq<State>, actions: seq<Action>, i: nat)
    requires IsRun(w, states, actions) && i < |states|
    ensures OwnedBy(states[i], Nobody) == Leaked(actions[..i])
    ensures OwnedBy(states[i], Base) == states[0].table.Keys
  {
    if i == 0 {
      assert OwnedBy(states[0], Base) == states[0].owner.Keys;
    } else {
      LostIsLeaked(w, states, actions, i - 1);
      RunInv(w, states, actions, i - 1);
      NextInv(w, states, actions, i - 1);
      assert actions[..i][..i - 1] == actions[..i - 1];
    }
  }

  /** Conservation of descriptors, at every moment of every run: what is open is what was open
      at the start, two for every Ready session, what each thread in flight holds, and what
      arrived with packets that were too large or empty; nothing else, and nothing twice. */
  lemma DescriptorsConserved(w: World, states: seq<State>, actions: seq<Action>, i: nat)
    requires IsRun(w, states, actions) && i < |states|
    ensures |states[i].table|
            == |states[0].table| + 2 * |ReadyIds(states[i])| + InFlight(states[i].threads) + |Leaked(actions[..i])|
    ensures states[0].table.Keys <= states[i].table.Keys
  {
    RunInv(w, states, actions, i);
    Count(w, states[i]);
    LostIsLeaked(w, states, actions, i);
    assert |states[0].table| == |states[0].table.Keys|;
  }

  /** Which descriptors are open at any moment of any run: those open at the start, the PTY and
      the connection of every Ready session, those in the hands of a thread, and the lost ones. */
  lemma WhatIsOpen(w: World, states: seq<State>, actions: seq<Action>, i: nat, fd: Fd)
    requires IsRun(w, states, actions) && i < |states|
    ensures fd in states[i].table
            <==> || fd in states[0].table
                 || (exists id :: id in ReadyIds(states[i]) && fd in KeptBy(states[i].sessions[id].state))
                 || (exists t :: 0 <= t < |states[i].threads| && fd in Held(states[i].threads[t]))
                 || fd in Leaked(actions[..i])
  {
    RunInv(w, states, actions, i);
    LostIsLeaked(w, states, actions, i);
    var s := states[i];
    if fd in s.table {
      OwnerHolds(w, s, fd);
    } else {
      NotOwnedNotHeld(s, fd);
    }
  }

  /** The descriptors a Ready session keeps open. */
  function KeptBy(state: SessionState): set<Fd> {
    match state
    case Creating => {}
    case Ready(pty, sock) => {pty, sock}
  }

  lemma OwnerHolds(w: World, s: State, fd: Fd)
    requires Inv(w, s) && fd in s.table
    ensures || fd in OwnedBy(s, Base) || fd in OwnedBy(s, Nobody)
            || (exists id :: id in ReadyIds(s) && fd in KeptBy(s.sessions[id].state))
            || (exists t :: 0 <= t < |s.threads| && fd in Held(s.threads[t]))
  {
    assert OwnerExists(s, s.owner[fd]);
    match s.owner[fd]
    case OfThread(t) => assert ThreadOk(s, t) && fd in OwnedBy(s, OfThread(t));
    case OfSession(id) => assert SessionOk(s, id) && fd in OwnedBy(s, OfSession(id)); assert id in ReadyIds(s);
    case Base => assert fd in OwnedBy(s, Base);
    case Nobody => assert fd in OwnedBy(s, Nobody);
  }

  lemma NotOwnedNotHeld(s: State, fd: Fd)
    requires TableOk(s) && Threads(s) && AllSessions(s) && fd !in s.table
    ensures forall id :: id in ReadyIds(s) ==> fd !in KeptBy(s.sessions[id].state)
    ensures forall t :: 0 <= t < |s.threads| ==> fd !in Held(s.threads[t])
    ensures fd !in OwnedBy(s, Base) && fd !in OwnedBy(s, Nobody)
  {
    forall id | id in ReadyIds(s) ensures fd !in KeptBy(s.sessions[id].state) { assert SessionOk(s, id); }
    forall t | 0 <= t < |s.threads| ensures fd !in Held(s.threads[t]) { assert ThreadOk(s, t) && fd !in OwnedBy(s, OfThread(t)); }
  }

  /** The packet of a receive is of proper size, or brings no descriptor the process can take. */
  predicate LosesNothing(a: Action) {
    a.TakeRequest? ==> Adopts(SESSIONS_REQUEST_LIMITS, a.packet.data) || a.packet.handles == [] || a.room == 0
  }

  lemma LeakIff(w: World, s: State, a: Action)
    requires Step(w, s, a).Some?
    ensures Leak(a) == {} <==> LosesNothing(a)
  {
    if a.TakeRequest? {
      SlotsPadded(1);
      assert |a.fds| == Installed(SESSIONS_REQUEST_LIMITS, |a.packet.handles|, a.room) by { assert Installs(s, a.packet, a.room, a.fds); }
      if a.fds != [] { assert a.fds[0] in Elements(a.fds); }
    }
  }

  lemma LostSoFar(w: World, states: seq<State>, actions: seq<Action>, i: nat)
    requires IsRun(w, states, actions) && i < |actions|
    ensures OwnedBy(states[i + 1], Nobody) == {} <==> OwnedBy(states[i], Nobody) == {} && LosesNothing(actions[i])
  {
    RunInv(w, states, actions, i);
    NextInv(w, states, actions, i);
    assert Follows(w, states, actions, i);
    LeakIff(w, states[i], actions[i]);
  }

  /** At every moment of every run: no open descriptor is without an owner exactly if every packet
      received so far was of proper size, or carried no descriptor, or came when the process could
      take none. */
  lemma {:induction false} NothingLostIff(w: World, states: seq<State>, actions: seq<Action>, i: nat)
    requires IsRun(w, states, actions) && i < |states|
    ensures OwnedBy(states[i], Nobody) == {} <==> forall j :: 0 <= j < i ==> LosesNothing(actions[j])
  {
    if i == 0 {
      assert Start(states[0]);
    } else {
      NothingLostIff(w, states, actions, i - 1);
      LostSoFar(w, states, actions, i - 1);
    }
  }

  /** A run that loses a descriptor: a client that completes its handshake sends one byte more
      than fits, with a descriptor. The thread ends, and the descriptor stays open. */
  lemma OversizedLeaks(w: World, obj: Obj) returns (states: seq<State>, actions: seq<Action>)
    ensures IsRun(w, states, actions) && |states| == 4
    ensures actions[2].TakeRequest? && |actions[2].packet.data| == 8193 && actions[2].packet.handles == [obj]
    ensures |states[3].threads| == 1 && states[3].threads[0].pc == Done
    ensures states[0].table == map[] && states[3].table == map[5 := obj] && OwnedBy(states[3], Nobody) == {5}
  {
    var s2;
    states, actions, s2 := OneClient(w);
    var packet := Packet(Zeros(8193), [obj]);
    var s3 := Quit(OpenAll(s2, [5], [obj], Nobody), 0);
    OversizedEnds(w, s2, packet, obj);
    OneMore(w, states, actions, TakeRequest(0, packet, 1, [5]), s3);
    OversizedStays(s2, obj, s3);
    states, actions := states + [s3], actions + [TakeRequest(0, packet, 1, [5])];
  }

  /** A run in which one client connects and completes its handshake. */
  lemma OneClient(w: World) returns (states: seq<State>, actions: seq<Action>, s: State)
    ensures IsRun(w, states, actions) && |states| == 3 && |actions| == 2 && states[2] == s && states[0].table == map[]
    ensures s.table == map[3 := Foreign(0, true)] && s.owner == map[3 := OfThread(0)]
    ensures |s.threads| == 1 && s.threads[0].pc == Idle && s.threads[0].conn == 3
  {
    var peer := Foreign(0, true);
    var s0 := State(map[], map[], [], [], map[], None, false, [], 0);
    var s1 := Spawn(s0, 3, peer);
    s := Set(s1, 0, s1.threads[0].(pc := Idle));
    var hello := Send(Hello(w.kdf, SESSIONS_CLIENT, w.build));
    JudgeHello(w.kdf, SESSIONS_CLIENT, w.build, SESSIONS_CLIENT, w.build, 0);
    OneMore(w, [s0], [], Accept(3, peer), s1);
    OneMore(w, [s0] + [s1], [] + [Accept(3, peer)], ServeHandshake(0, hello, 0, true), s);
    states, actions := [s0] + [s1] + [s], [] + [Accept(3, peer)] + [ServeHandshake(0, hello, 0, true)];
  }

  /** What is left after the thread has quit. */
  lemma OversizedStays(s: State, obj: Obj, s': State)
    requires s.table == map[3 := Foreign(0, true)] && s.owner == map[3 := OfThread(0)]
    requires |s.threads| == 1 && s.threads[0].pc == Idle && s.threads[0].conn == 3
    requires s' == Quit(OpenAll(s, [5], [obj], Nobody), 0)
    ensures |s'.threads| == 1 && s'.threads[0].pc == Done
    ensures s'.table == map[5 := obj] && OwnedBy(s', Nobody) == {5}
  {
    assert OpenAll(s, [5], [obj], Nobody) == Open(s, 5, obj, Nobody) by { assert [5][1..] == []; }
    assert Held(s.threads[0]) == {3};
    assert s'.owner == map[5 := Nobody];
  }

  lemma OversizedEnds(w: World, s: State, packet: Packet<Obj>, obj: Obj)
    requires |s.threads| > 0 && s.threads[0].pc == Idle && 5 !in s.table
    requires |packet.data| == 8193 && packet.handles == [obj]
    ensures Step(w, s, TakeRequest(0, packet, 1, [5])) == Some(Quit(OpenAll(s, [5], [obj], Nobody), 0))
  {
    SlotsPadded(1);
    assert Installs(s, packet, 1, [5]);
    assert packet.handles[..1] == [obj];
  }

  // ---------------------------------------------------------------- panics

  /** Thread `t` ended between `s` and `s'`: all it held was closed and nothing else, descriptors in
      `lost` were opened for nobody, and its session, if it has one it did not make Ready, stays in
      the map, still Creating, and owns nothing. */
  ghost predicate Released(s: State, t: nat, s': State, lost: set<Fd>)
    requires t < |s.threads|
  {
    var th := s.threads[t];
    && TableAfter(s, t, s'.table, lost)
    && (forall o :: OwnedBy(s', o) == OwnedAfter(s, t, lost, o))
    && s'.threads == s.threads[t := th.(pc := Done)] && s'.requests == s.requests && s'.sessions == s.sessions
    && (HasId(th.pc) && Rank(th.pc) <= 11 ==>
          th.id in s.sessions && s.sessions[th.id].state == Creating && OwnedBy(s, OfSession(th.id)) == {})
  }

  /** Open is what was open and not held by the thread, unchanged, and what is lost. */
  ghost predicate TableAfter(s: State, t: nat, table: map<Fd, Obj>, lost: set<Fd>)
    requires t < |s.threads|
  {
    && (forall fd :: fd in table <==> (fd in s.table && fd !in Held(s.threads[t])) || fd in lost)
    && (forall fd :: fd in table && fd !in lost ==> table[fd] == s.table[fd])
    && |s.table| + |lost| == |table| + HeldCount(s.threads[t].pc)
  }

  ghost function OwnedAfter(s: State, t: nat, lost: set<Fd>, o: Owner): set<Fd> {
    if o == OfThread(t) then {} else if o == Nobody then OwnedBy(s, o) + lost else OwnedBy(s, o)
  }

  /** What a step that ends a thread does before the thread's locals are dropped: install the
      descriptors of a packet that is refused unadopted, or take the pty process's reply. */
  ghost function Before(s: State, a: Action): State {
    match a
    case TakeRequest(t, packet, room, fds) =>
      if Adopts(SESSIONS_REQUEST_LIMITS, packet.data) || |fds| > |packet.handles| then s
      else OpenAll(s, fds, packet.handles[..|fds|], Nobody)
    case TakeReply(t, room) => if t < |s.threads| then AfterReply(s, t) else s
    case _ => s
  }

  /** Thread `t` ends in the step from `s` to `s'`, be it by a return or by a panic. */
  predicate Ends(s: State, t: nat, s': State) {
    t < |s.threads| && s.threads[t].pc != Done && t < |s'.threads| && s'.threads[t].pc == Done
  }

  lemma BusyNeverEnds(w: World, s: State, a: Action, s': State)
    requires Step(w, s, a) == Some(s') && IsBusyStep(a) && a.t < |s.threads|
    requires Busy(s.threads[a.t].pc) ==> BusyOk(s, a.t)
    requires forall id :: id in s.sessions ==> !s.sessions[id].poisoned
    ensures a.t < |s'.threads| && s'.threads[a.t].pc != Done
  {
  }

  lemma EndingIsQuit(w: World, s: State, a: Action, s': State, t: nat)
    requires Inv(w, s) && Step(w, s, a) == Some(s') && Ends(s, t, s')
    ensures !HoldsMap(s.threads[t].pc) && !HoldsSession(s.threads[t].pc)
    ensures s' == Quit(Before(s, a), t) && (a.TakeRequest? || a.ServeHandshake? || a.TakeReply? || a.Panic?) && a.t == t
  {
    if IsBusyStep(a) {
      BusyMovesOne(w, s, a, s');
      assert ThreadOk(s, a.t);
      forall id | id in s.sessions ensures !s.sessions[id].poisoned { assert SessionOk(s, id); }
      BusyNeverEnds(w, s, a, s');
    } else if IsLinkStep(a) {
      LinkStepsOnly(w, s, a, s');
    } else if a.TakeRequest? {
      TakeEnds(s, a, s', t);
    } else {
      RestEnds(w, s, a, s', t);
    }
  }

  lemma TakeEnds(s: State, a: Action, s': State, t: nat)
    requires a.TakeRequest? && a.t < |s.threads| && DoTakeRequest(s, a.t, a.packet, a.room, a.fds) == Some(s') && Ends(s, t, s')
    ensures a.t == t && s.threads[t].pc == Idle && s' == Quit(Before(s, a), t)
  {
  }

  lemma RestEnds(w: World, s: State, a: Action, s': State, t: nat)
    requires Step(w, s, a) == Some(s') && IsRestStep(a) && Ends(s, t, s') && !s.mapPoisoned
    ensures (a.ServeHandshake? || a.TakeReply? || a.Panic?) && a.t == t && s' == Quit(Before(s, a), t)
    ensures !HoldsMap(s.threads[t].pc) && !HoldsSession(s.threads[t].pc)
  {
    if a.TakeReply? { ReplyEnds(w, s, a.t, a.room, s', t); }
  }

  lemma ReplyEnds(w: World, s: State, u: nat, room: nat, s': State, t: nat)
    requires u < |s.threads| && DoTakeReply(w, s, u, room) == Some(s') && Ends(s, t, s')
    ensures u == t && s.threads[t].pc == Greeting && s' == Quit(AfterReply(s, t), t)
  {
  }

  lemma {:induction false} OpenAllOwned(s: State, fds: seq<Fd>, objs: seq<Obj>)
    requires |fds| == |objs| && s.table.Keys == s.owner.Keys
    requires Distinct(fds) && forall fd :: fd in fds ==> fd !in s.table
    ensures var s1 := OpenAll(s, fds, objs, Nobody);
            && s1.table.Keys == s1.owner.Keys == s.table.Keys + Elements(fds)
            && (forall fd :: fd in s.table ==> s1.table[fd] == s.table[fd])
            && (forall o :: OwnedBy(s1, o) == if o == Nobody then OwnedBy(s, o) + Elements(fds) else OwnedBy(s, o))
    decreases |fds|
  {
    if fds != [] {
      OpenOwned(s, fds[0], objs[0], Nobody);
      OpenAllOwned(Open(s, fds[0], objs[0], Nobody), fds[1..], objs[1..]);
      assert Elements(fds) == {fds[0]} + Elements(fds[1..]);
    }
  }

  /** What happens before adds the lost descriptors, and nothing else to the table. */
  lemma BeforeOwned(w: World, s: State, a: Action)
    requires TableOk(s) && Step(w, s, a).Some?
    ensures var s1 := Before(s, a);
            && s1.threads == s.threads && s1.requests == s.requests && s1.sessions == s.sessions
            && s1.table.Keys == s1.owner.Keys == s.table.Keys + Leak(a)
            && (forall fd :: fd in s.table ==> fd !in Leak(a) && s1.table[fd] == s.table[fd])
            && (forall o :: OwnedBy(s1, o) == if o == Nobody then OwnedBy(s, o) + Leak(a) else OwnedBy(s, o))
  {
    if a.TakeRequest? && !Adopts(SESSIONS_REQUEST_LIMITS, a.packet.data) {
      assert Installs(s, a.packet, a.room, a.fds);
      OpenAllOwned(s, a.fds, a.packet.handles[..|a.fds|]);
    } else {
      assert forall o :: OwnedBy(Before(s, a), o) == OwnedBy(s, o);
    }
  }

  lemma QuitOwned(s: State, t: nat)
    requires t < |s.threads| && OwnedBy(s, OfThread(t)) == Held(s.threads[t])
    requires !HoldsMap(s.threads[t].pc) && !HoldsSession(s.threads[t].pc)
    ensures var s' := Quit(s, t);
            && s'.table == s.table - Held(s.threads[t]) && s'.threads == s.threads[t := s.threads[t].(pc := Done)]
            && s'.requests == s.requests && s'.sessions == s.sessions
            && forall o :: OwnedBy(s', o) == if o == OfThread(t) then {} else OwnedBy(s, o)
  {
    CloseOwned(s, OfThread(t), Held(s.threads[t]));
    assert forall o :: OwnedBy(Quit(s, t), o) == OwnedBy(Close(s, Held(s.threads[t])), o);
  }

  lemma EndCounted(s: State, t: nat, table: map<Fd, Obj>, lost: set<Fd>)
    requires TableOk(s) && t < |s.threads| && ThreadOk(s, t)
    requires forall fd :: fd in table <==> (fd in s.table && fd !in Held(s.threads[t])) || fd in lost
    requires forall fd :: fd in lost ==> fd !in s.table
    ensures |s.table| + |lost| == |table| + HeldCount(s.threads[t].pc)
  {
    HeldCounted(s, t);
    var kept := s.table.Keys - Held(s.threads[t]);
    Disjoint(s.table.Keys, kept, OwnedBy(s, OfThread(t)));
    Disjoint(table.Keys, kept, lost);
    assert |s.table.Keys| == |s.table| && |table.Keys| == |table|;
  }

  /** Whenever a thread ends, by whatever step of whatever run: on a refused handshake or request,
      on a refused reply of the pty process, or on a panic anywhere in a request. */
  lemma EndReleases(w: World, s: State, a: Action, s': State, t: nat)
    requires Inv(w, s) && Step(w, s, a) == Some(s') && Ends(s, t, s')
    ensures Released(s, t, s', Leak(a))
  {
    EndingIsQuit(w, s, a, s', t);
    BeforeOwned(w, s, a);
    assert ThreadOk(s, t);
    QuitReleases(s, t, Before(s, a), s', Leak(a));
  }

  lemma QuitReleases(s: State, t: nat, s1: State, s': State, lost: set<Fd>)
    requires TableOk(s) && t < |s.threads| && ThreadOk(s, t) && AllSessions(s)
    requires !HoldsMap(s.threads[t].pc) && !HoldsSession(s.threads[t].pc)
    requires s1.threads == s.threads && s1.requests == s.requests && s1.sessions == s.sessions
    requires s1.table.Keys == s.table.Keys + lost && (forall fd :: fd in s.table ==> fd !in lost && s1.table[fd] == s.table[fd])
    requires forall o :: OwnedBy(s1, o) == if o == Nobody then OwnedBy(s, o) + lost else OwnedBy(s, o)
    requires s' == Quit(s1, t)
    ensures Released(s, t, s', lost)
  {
    assert OwnedBy(s1, OfThread(t)) == Held(s.threads[t]);
    QuitOwned(s1, t);
    EndTable(s, t, s1.table, s'.table, lost);
    OwnersAfter(s, t, s1, s', lost);
    if HasId(s.threads[t].pc) && Rank(s.threads[t].pc) <= 11 { StillCreating(s, t); }
  }

  lemma OwnersAfter(s: State, t: nat, s1: State, s': State, lost: set<Fd>)
    requires forall o :: OwnedBy(s1, o) == if o == Nobody then OwnedBy(s, o) + lost else OwnedBy(s, o)
    requires forall o :: OwnedBy(s', o) == if o == OfThread(t) then {} else OwnedBy(s1, o)
    ensures forall o :: OwnedBy(s', o) == OwnedAfter(s, t, lost, o)
  {
    forall o ensures OwnedBy(s', o) == OwnedAfter(s, t, lost, o) {
      assert OwnedBy(s1, o) == if o == Nobody then OwnedBy(s, o) + lost else OwnedBy(s, o);
    }
  }

  lemma EndTable(s: State, t: nat, before: map<Fd, Obj>, after: map<Fd, Obj>, lost: set<Fd>)
    requires t < |s.threads| && ThreadOk(s, t) && TableOk(s)
    requires before.Keys == s.table.Keys + lost && (forall fd :: fd in s.table ==> fd !in lost && before[fd] == s.table[fd])
    requires after == before - Held(s.threads[t])
    ensures TableAfter(s, t, after, lost)
  {
    assert Held(s.threads[t]) == OwnedBy(s, OfThread(t)) && forall fd :: fd in Held(s.threads[t]) ==> fd in s.table;
    EndCounted(s, t, after, lost);
  }

  lemma StillCreating(s: State, t: nat)
    requires t < |s.threads| && BusyOk(s, t) && 4 <= Rank(s.threads[t].pc) <= 11 && AllSessions(s)
    ensures var id := s.threads[t].id; id in s.sessions && s.sessions[id].state == Creating && OwnedBy(s, OfSession(id)) == {}
  {
    assert SessionOf(s, t);
    CreatingOwnsNothing(s, s.threads[t].id);
  }

  lemma CreatingOwnsNothing(s: State, id: SessionId)
    requires AllSessions(s) && id in s.sessions && s.sessions[id].state == Creating
    ensures OwnedBy(s, OfSession(id)) == {}
  {
    assert SessionOk(s, id);
  }

  /** A session becomes Ready only by a `Store` of the thread whose request it was allocated
      for, with that thread's PTY and connection. */
  lemma ReadyByAllocator(w: World, s: State, a: Action, s': State, id: SessionId)
    requires Inv(w, s) && Step(w, s, a) == Some(s')
    requires id in s.sessions && s.sessions[id].state == Creating && id in s'.sessions && s'.sessions[id].state != Creating
    ensures a.Store? && a.t < |s.threads| && s.threads[a.t].id == id && s.threads[a.t].pc == Storing
    ensures s.sessions[id].req < |s.requests| && s.requests[s.sessions[id].req].owner == a.t
    ensures s'.sessions[id].state == Ready(s.threads[a.t].pty, s.threads[a.t].sock)
  {
    if !a.Store? {
      StatesStay(w, s, a, s', id);
    } else {
      assert ThreadOk(s, a.t);
    }
  }

  lemma StatesStay(w: World, s: State, a: Action, s': State, id: SessionId)
    requires Step(w, s, a) == Some(s') && !a.Store? && id in s.sessions
    ensures id in s'.sessions && s'.sessions[id].state == s.sessions[id].state
  {
    if IsBusyStep(a) {
      StatesStayBusy(w, s, a, s', id);
    } else if a.TakeRequest? {
      StatesStayTake(s, a, s', id);
    } else if IsLinkStep(a) {
      LinkStepsOnly(w, s, a, s');
    } else {
      StatesStayRest(w, s, a, s', id);
    }
  }

  lemma StatesStayBusy(w: World, s: State, a: Action, s': State, id: SessionId)
    requires Step(w, s, a) == Some(s') && IsBusyStep(a) && !a.Store? && id in s.sessions
    ensures id in s'.sessions && s'.sessions[id].state == s.sessions[id].state
  {
  }

  lemma StatesStayTake(s: State, a: Action, s': State, id: SessionId)
    requires a.TakeRequest? && a.t < |s.threads| && DoTakeRequest(s, a.t, a.packet, a.room, a.fds) == Some(s') && id in s.sessions
    ensures id in s'.sessions && s'.sessions[id].state == s.sessions[id].state
  {
  }

  lemma StatesStayRest(w: World, s: State, a: Action, s': State, id: SessionId)
    requires Step(w, s, a) == Some(s') && IsRestStep(a) && id in s.sessions
    ensures id in s'.sessions && s'.sessions[id].state == s.sessions[id].state
  {
    if a.TakeReply? {
      StatesStayReply(w, s, a.t, a.room, s', id);
    }
  }

  lemma StatesStayReply(w: World, s: State, t: nat, room: nat, s': State, id: SessionId)
    requires t < |s.threads| && DoTakeReply(w, s, t, room) == Some(s') && id in s.sessions
    ensures id in s'.sessions && s'.sessions[id].state == s.sessions[id].state
  {
  }

  /** A thread that ended takes no further step. */
  lemma DoneStays(w: World, s: State, a: Action, s': State, t: nat)
    requires Step(w, s, a) == Some(s') && t < |s.threads| && s.threads[t].pc == Done
    ensures t < |s'.threads| && s'.threads[t].pc == Done
  {
    if IsBusyStep(a) {
      DoneStaysBusy(w, s, a, s', t);
    } else if a.TakeRequest? {
      DoneStaysTake(s, a, s', t);
    } else if IsLinkStep(a) {
      LinkStepsOnly(w, s, a, s');
    } else {
      DoneStaysRest(w, s, a, s', t);
    }
  }

  lemma DoneStaysBusy(w: World, s: State, a: Action, s': State, t: nat)
    requires Step(w, s, a) == Some(s') && IsBusyStep(a) && t < |s.threads| && s.threads[t].pc == Done
    ensures t < |s'.threads| && s'.threads[t].pc == Done
  {
    BusyMovesOne(w, s, a, s');
  }

  lemma BusyMovesOne(w: World, s: State, a: Action, s': State)
    requires Step(w, s, a) == Some(s') && IsBusyStep(a)
    ensures a.t < |s.threads| && s.threads[a.t].pc != Done
    ensures |s'.threads| == |s.threads| && forall u :: 0 <= u < |s.threads| && u != a.t ==> s'.threads[u] == s.threads[u]
  {
    if IsLockStep(a) { LockMovesOne(w, s, a, s'); }
  }

  /** A step of a busy thread with its session's mutex. */
  predicate IsLockStep(a: Action) { a.LockSession? || a.Store? || a.UnlockSession? }

  lemma LockMovesOne(w: World, s: State, a: Action, s': State)
    requires Step(w, s, a) == Some(s') && IsLockStep(a)
    ensures a.t < |s.threads| && s.threads[a.t].pc != Done
    ensures |s'.threads| == |s.threads| && forall u :: 0 <= u < |s.threads| && u != a.t ==> s'.threads[u] == s.threads[u]
  {
  }

  lemma DoneStaysTake(s: State, a: Action, s': State, t: nat)
    requires a.TakeRequest? && a.t < |s.threads| && DoTakeRequest(s, a.t, a.packet, a.room, a.fds) == Some(s')
    requires t < |s.threads| && s.threads[t].pc == Done
    ensures t < |s'.threads| && s'.threads[t].pc == Done
  {
  }

  lemma DoneStaysRest(w: World, s: State, a: Action, s': State, t: nat)
    requires Step(w, s, a) == Some(s') && IsRestStep(a) && t < |s.threads| && s.threads[t].pc == Done
    ensures t < |s'.threads| && s'.threads[t].pc == Done
  {
    if a.TakeReply? {
      DoneStaysReply(w, s, a.t, a.room, s', t);
    }
  }

  lemma DoneStaysReply(w: World, s: State, u: nat, room: nat, s': State, t: nat)
    requires u < |s.threads| && DoTakeReply(w, s, u, room) == Some(s') && t < |s.threads| && s.threads[t].pc == Done
    ensures t < |s'.threads| && s'.threads[t].pc == Done
  {
  }

  /** The entry is Creating, and the thread that allocated it has ended. */
  ghost predicate Abandoned(s: State, id: SessionId) {
    && id in s.sessions && s.sessions[id].state == Creating
    && var r := s.sessions[id].req;
       r < |s.requests| && s.requests[r].owner < |s.threads| && s.threads[s.requests[r].owner].pc == Done
  }

  /** An entry whose allocating thread ended before making it Ready stays Creating for the rest
      of the run: its id is taken for good, and no session is behind it. */
  lemma {:induction false} AbandonedForGood(w: World, states: seq<State>, actions: seq<Action>, i: nat, j: nat, id: SessionId)
    requires IsRun(w, states, actions) && i <= j < |states| && Abandoned(states[i], id)
    ensures Abandoned(states[j], id)
    decreases j
  {
    if i < j {
      AbandonedForGood(w, states, actions, i, j - 1, id);
      NextAbandoned(w, states, actions, j - 1, id);
    }
  }

  lemma NextAbandoned(w: World, states: seq<State>, actions: seq<Action>, i: nat, id: SessionId)
    requires IsRun(w, states, actions) && i < |actions| && Abandoned(states[i], id)
    ensures Abandoned(states[i + 1], id)
  {
    RunInv(w, states, actions, i);
    assert Follows(w, states, actions, i);
    StillAbandoned(w, states[i], actions[i], states[i + 1], id);
  }

  lemma StillAbandoned(w: World, s: State, a: Action, s': State, id: SessionId)
    requires Inv(w, s) && Step(w, s, a) == Some(s') && Abandoned(s, id)
    ensures Abandoned(s', id)
  {
    StepKeeps(w, s, a, s');
    var r := s.sessions[id].req;
    assert SessionExtends(s.sessions[id], s'.sessions[id]) && RequestExtends(s.requests[r], s'.requests[r]);
    DoneStays(w, s, a, s', s.requests[r].owner);
    if s'.sessions[id].state != Creating { ReadyByAllocator(w, s, a, s', id); }
  }
}
