/**
  How a relay comes to an end: what it returns and why, and that once nothing more can arrive,
  because its client closed or because the relay shut its read side down, the relay receives
  what is left and the end of the stream in so many steps and is never stuck on the way.
*/
module RelayEnd {
  import opened Wrappers
  import opened Wire
  import opened Packets
  import opened Proto
  import opened Handshakes
  import opened Relays
  import opened RelayTheorems

  // ---------------------------------------------------------------- results

  lemma OkAt(p: Program, states: seq<State>, actions: seq<Action>, i: nat, who: nat)
    requires IsRun(p, states, actions) && i < |states| && who < |states[i].clients|
    ensures ClientOk(p, states[i].clients[who])
  {
    RunInv(p, states, actions, i);
  }

  /** In every run a client whose keyboard input is read or who is sent the PTY's output has sent
      the handshake of a user client of this build as its first packet. */
  lemma ServedWasGreeted(p: Program, states: seq<State>, actions: seq<Action>, i: nat, who: nat)
    requires IsRun(p, states, actions) && i < |states| && who < |states[i].clients|
    ensures var c := states[i].clients[who];
            c.put != [] || c.got != [] || c.sent != [] || c.taken > 1 ==>
              c.arrived != []
              && Receive(HANDSHAKE, HANDSHAKE_LIMITS, c.arrived[0], 0) == Success(Handshake(USER_CLIENT, p.kdf(USER_CLIENT, p.build)))
  {
    OkAt(p, states, actions, i, who);
    if !Started(states[i].clients[who]) { UnstartedIsBlank(p, states[i].clients[who]); }
  }

  lemma UnstartedIsBlank(p: Program, c: Client)
    requires ClientOk(p, c) && !Started(c)
    ensures c.put == [] && c.got == [] && c.sent == [] && c.taken <= 1
  {
  }

  /** A relay that returns never returns success, and never the error of a failed send. It failed
      in its handshake, for one of the reasons of `Refused`; or after its output ended, in the
      shutdown, in writing to the PTY, or in receiving, for one of the reasons of `StoppedBy`. */
  lemma ReturnedResult(p: Program, states: seq<State>, actions: seq<Action>, i: nat, who: nat)
    requires IsRun(p, states, actions) && i < |states| && who < |states[i].clients|
    requires states[i].clients[who].main.Returned?
    ensures var c := states[i].clients[who];
            && c.main.result.Failure?
            && var e := c.main.result.error;
               || (e.BadHandshake? && Refused(p, c, e.why) && c.input == InputIdle && c.output == OutputIdle)
               || (e.BadShutdown? && c.output.OutputDone? && !c.shut)
               || (e == BadPty && c.output.OutputDone? && c.input == InputDone(Failure(e)))
               || (e.BadReceive? && StoppedBy(c, e.error) && c.output.OutputDone? && c.input == InputDone(Failure(e)))
  {
    OkAt(p, states, actions, i, who);
  }

  /** The relay waits for its output thread, however that ends; then a refused shutdown is its
      result at once, and otherwise it waits for its input thread and returns what that did. */
  lemma JoinTurns(p: Program, c: Client, accepted: bool, pending: seq<Byte>)
    ensures ClientStep(p, c, JoinsOutput(accepted), pending)
            == if c.main != JoinOutput || !c.output.OutputDone? then None
               else if accepted then Some(c.(main := JoinInput, shut := true))
               else Some(c.(main := Returned(Failure(BadShutdown))))
    ensures ClientStep(p, c, JoinsInput, pending)
            == if c.main == JoinInput && c.input.InputDone? then Some(c.(main := Returned(c.input.result))) else None
  {
  }

  // ---------------------------------------------------------------- the work left

  /** Nothing more can arrive: the client closed, or the relay shut its read side down. */
  predicate NoMore(c: Client) { c.ended || c.shut }

  /** A step of the input thread, or of the relay before there is one. */
  predicate ReceivingStep(e: Event) {
    e.TakesHello? || e.Greets? || e.Receives? || e.ReceiveBreaks? || e.Writes? || e.WriteBreaks? || e.Written?
  }

  function QueueWork(packets: seq<Packet<Obj>>): nat {
    if packets == [] then 0 else |packets[0].data| + 3 + QueueWork(packets[1..])
  }

  function InputWork(input: Input): nat {
    match input
    case Receiving => 1
    case Writing(rest) => |rest| + 2
    case _ => 0
  }

  function MainWork(main: Main): nat {
    match main
    case AwaitHello => 3
    case Greeting => 2
    case _ => 0
  }

  /** What the relay still has to do to receive all that arrived, at most. */
  function Work(c: Client): nat
    requires c.taken <= |c.arrived|
  {
    QueueWork(c.arrived[c.taken..]) + InputWork(c.input) + MainWork(c.main)
  }

  lemma TakeWork(c: Client)
    requires c.taken < |c.arrived|
    ensures QueueWork(c.arrived[c.taken..]) == |c.arrived[c.taken].data| + 3 + QueueWork(c.arrived[c.taken + 1..])
  {
    assert c.arrived[c.taken..][1..] == c.arrived[c.taken + 1..];
  }

  lemma EndIsFailure()
    ensures ReceiveInput(Packet([], [])) == Failure(End)
  {
  }

  lemma TakingShrinks(c: Client, main: Main, input: Input, c': Client)
    requires c.taken <= |c.arrived| && c' == c.(taken := TakenNext(c), main := main, input := input)
    ensures c'.taken <= |c'.arrived|
    ensures Work(c') - InputWork(input) - MainWork(main)
         == Work(c) - InputWork(c.input) - MainWork(c.main) - (if c.taken < |c.arrived| then |NextPacket(c).data| + 3 else 0)
  {
    if c.taken < |c.arrived| { TakeWork(c); }
  }

  lemma HelloShrinks(p: Program, c: Client, room: nat, c': Client)
    requires PhaseOk(c) && OnHello(p, c, room) == Some(c')
    ensures Work(c') < Work(c)
  {
    TakingShrinks(c, c'.main, c.input, c');
  }

  lemma ReceiveShrinks(c: Client, c': Client)
    requires PhaseOk(c) && OnReceive(c) == Some(c')
    ensures Work(c') < Work(c)
  {
    EndIsFailure();
    TakingShrinks(c, c.main, c'.input, c');
  }

  /** Once nothing more can arrive, every receiving step takes some of the work, and no other step
      adds any. */
  lemma WorkShrinks(p: Program, c: Client, e: Event, pending: seq<Byte>, c': Client)
    requires NoMore(c) && PhaseOk(c) && ClientStep(p, c, e, pending) == Some(c')
    ensures NoMore(c') && c'.taken <= |c'.arrived|
    ensures Work(c') <= Work(c) && (ReceivingStep(e) ==> Work(c') < Work(c))
  {
    PhaseKeeps(p, c, e, pending, c');
    if e.TakesHello? { HelloShrinks(p, c, e.room, c'); }
    if e.Receives? { ReceiveShrinks(c, c'); }
  }

  // ---------------------------------------------------------------- never stuck

  /** What a relay can do next, other than read from the PTY and send. */
  function NextEvent(c: Client, room: nat): Option<Event> {
    if c.main == AwaitHello then Some(TakesHello(room))
    else if c.main == Greeting then Some(Greets(true))
    else
      match c.input
      case Receiving => Some(Receives)
      case Writing(rest) => Some(if rest == [] then Written else Writes(|rest|))
      case InputDone(_) =>
        if c.main == JoinInput then Some(JoinsInput)
        else if c.main == JoinOutput && c.output.OutputDone? then Some(JoinsOutput(true))
        else None
      case InputIdle => None
  }

  /** The input thread is done and the output thread is not. */
  predicate OnlyOutput(c: Client) { c.main == JoinOutput && c.input.InputDone? && !c.output.OutputDone? }

  /** Once nothing more can arrive, the relay always has such a step, until it returned or only
      its output thread is still at work. */
  lemma NeverStuck(p: Program, c: Client, room: nat, pending: seq<Byte>)
    requires NoMore(c) && PhaseOk(c)
    ensures NextEvent(c, room) == None ==> c.main.Returned? || OnlyOutput(c)
    ensures match NextEvent(c, room)
            case None => true
            case Some(e) => ClientStep(p, c, e, pending).Some?
  {
  }

  /** Whoever waits for a packet then, with all of them taken, gets the end of the stream. */
  lemma EndIsSeen(p: Program, c: Client, room: nat, pending: seq<Byte>)
    requires NoMore(c) && c.taken == |c.arrived|
    ensures c.main == AwaitHello ==>
              ClientStep(p, c, TakesHello(room), pending) == Some(c.(main := Returned(Failure(BadHandshake(ReceiveFailed(End))))))
    ensures c.input == Receiving ==>
              ClientStep(p, c, Receives, pending) == Some(c.(input := InputDone(Failure(BadReceive(End)))))
  {
    EndIsFailure();
    SameVerdict(p, NextPacket(c), room);
    JudgeExact(p.kdf, USER_CLIENT, p.build, NextPacket(c), 0);
    var nothing: Packet<Obj> := Packet([], []);
    assert Receive(HANDSHAKE, HANDSHAKE_LIMITS, nothing, 0) == Failure(End);
  }

  // ---------------------------------------------------------------- over runs

  predicate IsReceivingStep(a: Action, who: nat) { a.Of? && a.who == who && ReceivingStep(a.event) }

  function ReceivingSteps(actions: seq<Action>, who: nat): nat {
    if actions == [] then 0
    else
      ReceivingSteps(actions[..|actions| - 1], who) + (if IsReceivingStep(actions[|actions| - 1], who) then 1 else 0)
  }

  predicate Drained(s: State, who: nat) {
    who < |s.clients| && NoMore(s.clients[who]) && s.clients[who].taken <= |s.clients[who].arrived|
  }

  /** Receiving terminates: however the run goes on after the client closed or the read side was
      shut down, the relay takes no more receiving steps than its work was at that moment. */
  lemma {:induction false} ReceivingTerminates(p: Program, states: seq<State>, actions: seq<Action>, i: nat, j: nat, who: nat)
    requires IsRun(p, states, actions) && i <= j < |states|
    requires who < |states[i].clients| && NoMore(states[i].clients[who])
    ensures Drained(states[i], who) && Drained(states[j], who)
    ensures ReceivingSteps(actions[i..j], who) + Work(states[j].clients[who]) <= Work(states[i].clients[who])
    decreases j
  {
    OkAt(p, states, actions, i, who);
    if i < j {
      ReceivingTerminates(p, states, actions, i, j - 1, who);
      assert Follows(p, states, actions, j - 1);
      OkAt(p, states, actions, j - 1, who);
      OneStep(p, states[j - 1], actions[j - 1], states[j], who);
      ReceivingStepsSnoc(actions, i, j, who);
    }
  }

  /** So does a whole run: when its client has closed and the relay took all the steps it can, it
      has returned, or its input thread is done and only the PTY's output keeps it. */
  lemma ClosedClientIsNoticed(p: Program, states: seq<State>, actions: seq<Action>, i: nat, who: nat, room: nat)
    requires IsRun(p, states, actions) && i < |states|
    requires who < |states[i].clients| && states[i].clients[who].ended
    requires forall e :: ReceivingStep(e) || e.JoinsOutput? || e.JoinsInput? ==> !Enabled(p, states[i], who, e)
    ensures var c := states[i].clients[who]; c.main.Returned? || OnlyOutput(c)
  {
    OkAt(p, states, actions, i, who);
    var c := states[i].clients[who];
    NeverStuck(p, c, room, states[i].pending);
    assert NextEvent(c, room).Some? ==> Enabled(p, states[i], who, NextEvent(c, room).value);
  }

  predicate Enabled(p: Program, s: State, who: nat, e: Event) { Step(p, s, Of(who, e)).Some? }

  lemma ReceivingStepsSnoc(actions: seq<Action>, i: nat, j: nat, who: nat)
    requires i < j <= |actions|
    ensures ReceivingSteps(actions[i..j], who)
         == ReceivingSteps(actions[i..j - 1], who) + (if IsReceivingStep(actions[j - 1], who) then 1 else 0)
  {
    assert actions[i..j][..j - 1 - i] == actions[i..j - 1];
  }

  lemma OneStep(p: Program, s: State, a: Action, s': State, who: nat)
    requires Step(p, s, a) == Some(s') && Drained(s, who) && PhaseOk(s.clients[who])
    ensures Drained(s', who)
    ensures Work(s'.clients[who]) + (if IsReceivingStep(a, who) then 1 else 0) <= Work(s.clients[who])
  {
    if a.Of? && a.who == who {
      WorkShrinks(p, s.clients[who], a.event, s.pending, s'.clients[who]);
    } else {
      assert s'.clients[who] == s.clients[who];
    }
  }
}
