/**
  The peer keeps trying: an active peer that is neither held down nor on its way out always
  has an FSM. A passive peer never has an outgoing one, and an incoming one never dials.
  And the way from an error to hold-down.
  */
module PeerAlive {
  import opened Notifications
  import opened Fsm
  import opened FsmMeaning
  import opened Peer
  import opened PeerInvariant
  import opened PeerHold

  /** The states of an FSM that dials. */
  predicate Dials(st: State) { st == Idle || st == Connect }

  /** What an active peer that is not exiting has at each control point. */
  predicate KeepsTrying(s: System) {
    match s.todo
    case Nil => s.damping.holdDown || s.slots.outgoing.Some? || s.slots.incoming.Some?
    case Then(Disable(i), Nil) => s.slots.Get(Other(i)).Some?
    case Then(WaitDone(i), Nil) => s.slots.Get(Other(i)).Some?
    case _ => true
  }

  predicate AliveOk(s: System) {
    && (s.config.passive ==> s.slots.outgoing.None?)
    && !Dials(s.recorded.incoming)
    && (s.todo.Then? && s.todo.op.Send? && s.todo.op.i == In ==> !Dials(s.todo.op.t.to))
    && (!s.config.passive && !s.exiting ==> KeepsTrying(s))
  }

  /** What an incoming FSM asks for is either no dialing or a step back, for which it is disabled. */
  lemma IncomingAsks(s: System, t: Transition)
    requires Inv(s) && HoldsOk(s) && AliveOk(s) && Pending(s, In, t)
    ensures Dials(t.to) ==> Order(t.to) < Order(t.from)
  {
    var f := s.Occupant(In);
    assert ReportOk(f) && Tidy(f) && f.side == In;
  }

  lemma HandleKeepsAlive(s: System)
    requires Inv(s) && HoldsOk(s) && AliveOk(s) && CanPeerStep(s) && s.todo.op.Handle?
    ensures AliveOk(PeerStepOf(s))
  {
    if s.todo.op.i == In {
      IncomingAsks(s, s.todo.op.t);
    }
  }

  lemma OtherStepKeepsAlive(s: System)
    requires Inv(s) && AliveOk(s) && CanPeerStep(s) && !s.todo.op.Handle?
    ensures AliveOk(PeerStepOf(s))
  {
  }

  lemma GrantKeepsAlive(s: System, id: nat)
    requires Inv(s) && AliveOk(s) && Enabled(s, Grant(id))
    ensures AliveOk(Apply(s, Grant(id)))
  {
  }

  lemma LoopKeepsAlive(s: System, a: Action)
    requires Inv(s) && AliveOk(s) && Enabled(s, a) && !a.PeerStep? && !a.Grant?
    ensures AliveOk(Apply(s, a))
  {
  }

  lemma ActionKeepsAlive(s: System, a: Action)
    requires Inv(s) && HoldsOk(s) && AliveOk(s) && Enabled(s, a)
    ensures AliveOk(Apply(s, a))
  {
    if a.PeerStep? {
      if s.todo.op.Handle? {
        HandleKeepsAlive(s);
      } else {
        OtherStepKeepsAlive(s);
      }
    } else if a.Grant? {
      GrantKeepsAlive(s, a.id);
    } else {
      LoopKeepsAlive(s, a);
    }
  }

  // ----- from an error to hold-down

  /** The error damps the peer: it is a NOTIFICATION, sent or received, other than Cease. */
  predicate IsProtocolError(e: Error) { e.NotificationError? && e.notification.code != 6 }

  /** On the way to hold-down, or there: n delays had been imposed before. */
  predicate DampDue(s: System, n: nat) {
    && !s.exiting
    && match s.todo
       case Nil => s.damping.holdDown && |s.damping.delays| == n + 1
       case Then(Damp, Nil) => |s.damping.delays| == n
       case Then(_, Then(Damp, Nil)) => Disabling(s.todo, Out) && |s.damping.delays| == n
       case Then(_, Then(Disable(Out), Then(Damp, Nil))) => Disabling(s.todo, In) && |s.damping.delays| == n
       case _ => false
  }

  lemma ActionKeepsDampDue(s: System, a: Action, n: nat)
    requires Inv(s) && DampDue(s, n) && s.todo.Then? && Enabled(s, a)
    ensures DampDue(Apply(s, a), n)
  {
  }

  lemma ErrorStartsDamping(s: System, id: nat)
    requires Inv(s) && Enabled(s, ReceiveError(id))
    ensures var s', e := Apply(s, ReceiveError(id)), s.heap[id].pc.error;
            && !s'.AtLoop() == IsProtocolError(e)
            && (IsProtocolError(e) ==> DampDue(s', |s.damping.delays|))
            && s'.damping == s.damping && !s'.damping.holdDown
  {
    AddressesOwnChannel(s, id);
  }
}
