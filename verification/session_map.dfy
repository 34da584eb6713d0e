/**
  The map of sessions as the object the connection threads change under its mutex: finding a
  free id by drawing until one is vacant, and making a session Ready in place. `Sessions` takes
  the same operations apart into steps; the lemmas say that the pieces add up.
*/
module SessionMaps {
  import opened Wrappers
  import opened PassFd
  import opened Sessions

  class SessionMap {
    var sessions: map<SessionId, SessionState>

    constructor ()
      ensures sessions == map[]
    {
      sessions := map[];
    }

    /** Draw ids until one is vacant and enter it. The draws are random; `k` is the first that
        hits a vacant id, which is assumed to exist. */
    method Allocate(draws: nat -> SessionId, ghost k: nat) returns (id: SessionId)
      requires draws(k) !in sessions && forall j :: 0 <= j < k ==> draws(j) in sessions
      modifies this
      ensures id == draws(k)
      ensures id !in old(sessions) && sessions == old(sessions)[id := Creating]
    {
      var i := 0;
      while true
        invariant i <= k && sessions == old(sessions)
        decreases k - i
      {
        id := draws(i);
        if id !in sessions {
          sessions := sessions[id := Creating];
          return;
        }
        i := i + 1;
      }
    }

    /** Replace the entry, if it is still Creating; anything else is a panic (`false`). */
    method MakeReady(id: SessionId, pty: Fd, sock: Fd) returns (stored: bool)
      requires id in sessions
      modifies this
      ensures stored == (old(sessions)[id] == Creating)
      ensures sessions == if stored then old(sessions)[id := Ready(pty, sock)] else old(sessions)
    {
      if sessions[id] != Creating { return false; }
      sessions := sessions[id := Ready(pty, sock)];
      stored := true;
    }
  }

  /** The map inside a state of the machine. */
  function Entries(s: State): map<SessionId, SessionState> {
    map id | id in s.sessions :: s.sessions[id].state
  }

  /** The drawing loop as steps of the machine. */
  function DrawAll(s: State, t: nat, ids: seq<SessionId>): Option<State>
    requires t < |s.threads|
    ensures DrawAll(s, t, ids).Some? ==> |DrawAll(s, t, ids).value.threads| == |s.threads|
  {
    if ids == [] then Some(s)
    else match DrawAll(s, t, ids[..|ids| - 1])
         case None => None
         case Some(s1) => DoDraw(s1, t, ids[|ids| - 1])
  }

  /** Draws of occupied ids change nothing; the first vacant one ends the loop and is entered,
      as `Allocate` does. */
  lemma {:induction false} DrawLoop(s: State, t: nat, ids: seq<SessionId>, id: SessionId)
    requires t < |s.threads| && s.threads[t].pc == Choosing && s.threads[t].req < |s.requests|
    requires (forall j :: 0 <= j < |ids| ==> ids[j] in s.sessions) && id !in s.sessions
    ensures DrawAll(s, t, ids) == Some(s)
    ensures DrawAll(s, t, ids + [id]).Some?
    ensures var s' := DrawAll(s, t, ids + [id]).value;
            && s'.threads[t].pc == Chosen && s'.threads[t].id == id
            && Entries(s') == Entries(s)[id := Creating]
    decreases |ids|
  {
    if ids != [] {
      var last := |ids| - 1;
      DrawLoop(s, t, ids[..last], id);
    }
    assert (ids + [id])[..|ids|] == ids;
    assert DrawAll(s, t, ids + [id]) == DoDraw(s, t, id);
  }

  /** The store step does to the map what `MakeReady` does, in both cases, and the thread goes on
      exactly if that stores; otherwise it ends in the panic, and the session's mutex is poisoned. */
  lemma StoreIsMakeReady(s: State, t: nat)
    requires t < |s.threads| && DoStore(s, t).Some?
    ensures var th, s' := s.threads[t], DoStore(s, t).value;
            && th.id in s.sessions
            && Entries(s') == (if Entries(s)[th.id] == Creating then Entries(s)[th.id := Ready(th.pty, th.sock)] else Entries(s))
            && s'.threads[t].pc == (if Entries(s)[th.id] == Creating then Stored else Done)
            && (Entries(s)[th.id] != Creating ==> s'.sessions[th.id].poisoned)
  {
    var th, s' := s.threads[t], DoStore(s, t).value;
    assert forall id :: id in s'.sessions <==> id in s.sessions;
  }
}
