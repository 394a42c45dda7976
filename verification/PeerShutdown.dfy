/**
  Shutdown: from every reachable state in which the process is alive, a request to stop can
  be carried through to the end, whatever the goroutines were doing.
  */
module PeerShutdown {
  import opened Notifications
  import opened Fsm
  import opened FsmProofs
  import opened Peer
  import opened PeerInvariant
  import opened PeerSafety

  // ----- one FSM goroutine whose close channel is closed

  /** How far the goroutine is from done. */
  function FsmRank(f: Fsm): nat {
    match f.pc
    case Done => 0
    case Exiting => 1
    case Offer(_) => 2
    case Await(_) => 2
    case Report(_, _) => 3
    case Leaving(_, _) => 4
    case Body(s) => if s == Established then 5 else if Order(s) > Order(Active) then 4 else 3
    case Entering => 6
    case Handling => 6
    case Panicked => 0
    case Blocked => 0
  }

  /** The close branch where there is one, else the only thing the goroutine can do. */
  function WayDown(f: Fsm): Event {
    match f.pc
    case Body(s) => if s == Active && f.link.conn then UseConn(OpenAttempt([], true)) else CloseSeen
    case Entering => CallOnEstablished(true)
    case Handling => HandlerReturned(None)
    case Leaving(_, _) => CallOnClose
    case Exiting => CleanUp
    case _ => CloseSeen
  }

  /** It is never stuck: its way down is enabled and lowers the rank. */
  lemma FsmGoesDown(c: Config, f: Fsm)
    requires FsmInv(f) && f.closed && f.pc != Done && f.pc != Panicked
    ensures CanStep(f, WayDown(f))
    ensures FsmRank(Step(c, f, WayDown(f)).fsm) < FsmRank(f)
    ensures !Step(c, f, WayDown(f)).fsm.pc.Panicked?
  {
  }

  // ----- the whole peer

  function OpWeight(op: Op): nat {
    match op
    case Handle(_, _, depth) => if depth == 0 then 8 else 4
    case Collide(_, _, _) => 7
    case Disable(_) => 2
    case _ => 1
  }

  function Weight(a: Agenda): nat {
    match a
    case Nil => 0
    case Then(op, rest) => OpWeight(op) + Weight(rest)
  }

  /** The rank of the FSM the peer is waiting for. */
  function AwaitedRank(s: System): (r: nat)
    ensures r <= 6
  {
    if s.todo.Then? && s.todo.op.WaitDone? && s.Occupied(s.todo.op.i) then FsmRank(s.Occupant(s.todo.op.i)) else 0
  }

  /** How far the peer is from done. */
  function Measure(s: System): nat {
    (if s.exiting then 0 else 100) + 8 * Weight(s.todo) + AwaitedRank(s)
  }

  /** The next action on the way down. */
  function NextDown(s: System): Action {
    match s.todo
    case Nil => LoopExits
    case Then(Send(_, _), _) => GiveUp
    case Then(Collide(_, _, _), _) => GiveUp
    case Then(WaitDone(i), _) =>
      if s.Occupied(i) && s.Occupant(i).pc != Done then Local(s.slots.Get(i).value, WayDown(s.Occupant(i)))
      else PeerStep
    case _ => PeerStep
  }

  lemma WaitingGoesDown(s: System, i: Side)
    requires Inv(s) && FsmsOk(s) && !Crashed(s) && s.todo.Then? && s.todo.op == WaitDone(i)
    requires s.Occupied(i) && s.Occupant(i).pc != Done
    ensures Enabled(s, NextDown(s))
    ensures Measure(Apply(s, NextDown(s))) < Measure(s)
    ensures !Crashed(Apply(s, NextDown(s))) && Apply(s, NextDown(s)).closing == s.closing
  {
    var id, f := s.slots.Get(i).value, s.Occupant(i);
    FsmGoesDown(s.config, f);
    var s' := LocalStep(s, id, WayDown(f));
    assert Apply(s, NextDown(s)) == s';
    assert s'.Occupant(i) == Step(s.config, f, WayDown(f)).fsm;
    assert forall k :: 0 <= k < |s.heap| && k != id ==> s'.heap[k] == s.heap[k];
  }

  /** Nothing but its own steps moves an FSM; at most a new one is added. */
  predicate SameFsms(s: System, s': System) {
    && |s.heap| <= |s'.heap| <= |s.heap| + 1
    && (forall id :: 0 <= id < |s.heap| ==> s'.heap[id].pc == s.heap[id].pc)
    && (|s'.heap| == |s.heap| + 1 ==> s'.heap[|s.heap|] == NewFsm(Out))
  }

  lemma SameFsmsLive(s: System, s': System)
    requires SameFsms(s, s') && !Crashed(s)
    ensures !Crashed(s')
  {
  }

  /** What a transition request is expanded to weighs less than the request. */
  lemma ExpandIsLighter(s: System)
    requires Inv(s) && s.todo.Then? && s.todo.op.Handle?
    ensures s.Occupied(s.todo.op.i)
    ensures var e := Expand(s, s.todo.op.i, s.todo.op.t, s.todo.op.depth, s.todo.rest);
            Weight(e) < Weight(s.todo) && e.Then? && !e.op.WaitDone?
  {
  }

  predicate PeerCanStep(s: System) {
    && s.todo.Then? && !s.todo.op.Send? && !s.todo.op.Collide?
    && (s.todo.op.WaitDone? ==> s.Occupied(s.todo.op.i) && s.Occupant(s.todo.op.i).pc == Done)
  }

  lemma StepIsEnabled(s: System)
    requires Inv(s) && PeerCanStep(s)
    ensures CanPeerStep(s)
  {
  }

  /** Every step of the peer goroutine on its own makes the agenda lighter. */
  lemma StepIsLighter(s: System)
    requires Inv(s) && CanPeerStep(s)
    ensures Weight(PeerStepOf(s).todo) < Weight(s.todo)
  {
    if s.todo.op.Handle? {
      ExpandIsLighter(s);
    }
  }

  lemma StepKeepsFsms(s: System)
    requires Inv(s) && CanPeerStep(s)
    ensures SameFsms(s, PeerStepOf(s))
    ensures PeerStepOf(s).closing == s.closing && PeerStepOf(s).exiting == s.exiting
  {
  }

  lemma OpGoesDown(s: System)
    requires Inv(s) && PeerCanStep(s)
    ensures CanPeerStep(s)
    ensures Measure(PeerStepOf(s)) < Measure(s)
    ensures SameFsms(s, PeerStepOf(s))
    ensures PeerStepOf(s).closing == s.closing
  {
    StepIsEnabled(s);
    StepIsLighter(s);
    StepKeepsFsms(s);
  }

  lemma PeerGoesDown(s: System)
    requires Inv(s) && s.closing && !s.done && !Crashed(s)
    requires s.todo.Then? && s.todo.op.WaitDone? ==> s.Occupied(s.todo.op.i) && s.Occupant(s.todo.op.i).pc == Done
    ensures Enabled(s, NextDown(s))
    ensures Measure(Apply(s, NextDown(s))) < Measure(s)
    ensures SameFsms(s, Apply(s, NextDown(s)))
    ensures Apply(s, NextDown(s)).closing
  {
    if NextDown(s).PeerStep? {
      OpGoesDown(s);
    }
  }

  /** Every step on the way down is enabled, lowers the measure and keeps the process alive. */
  lemma GoesDown(s: System)
    requires Inv(s) && FsmsOk(s) && s.closing && !s.done && !Crashed(s)
    ensures Enabled(s, NextDown(s))
    ensures Measure(Apply(s, NextDown(s))) < Measure(s)
    ensures !Crashed(Apply(s, NextDown(s))) && Apply(s, NextDown(s)).closing
  {
    if s.todo.Then? && s.todo.op.WaitDone? && s.Occupied(s.todo.op.i) && s.Occupant(s.todo.op.i).pc != Done {
      WaitingGoesDown(s, s.todo.op.i);
    } else {
      PeerGoesDown(s);
      SameFsmsLive(s, Apply(s, NextDown(s)));
    }
  }

  /** The state after a sequence of actions, if they are enabled one after the other. */
  ghost function Exec(s: System, actions: seq<Action>): Option<System>
    decreases |actions|
  {
    if actions == [] then Some(s)
    else if Enabled(s, actions[0]) then Exec(Apply(s, actions[0]), actions[1..])
    else None
  }

  /** No FSM goroutine that was ever started is left, and the slots are empty. */
  ghost predicate NothingRuns(s: System) {
    && s.slots == Pair(None, None) && s.recorded == Pair(Disabled, Disabled)
    && forall id :: 0 <= id < |s.heap| ==> s.heap[id].pc == Done
  }

  lemma DoneLeavesNothingRunning(s: System)
    requires Inv(s) && s.done
    ensures NothingRuns(s)
  {
  }

  /** A peer that is closing can always be driven to the end of its run function. */
  lemma {:induction false} ClosingCompletes(s: System) returns (actions: seq<Action>)
    requires Inv(s) && FsmsOk(s) && s.closing && !Crashed(s)
    ensures Exec(s, actions).Some? && Exec(s, actions).value.done && NothingRuns(Exec(s, actions).value)
    decreases Measure(s)
  {
    if s.done {
      actions := [];
      DoneLeavesNothingRunning(s);
    } else {
      GoesDown(s);
      var a := NextDown(s);
      ActionKeepsInv(s, a);
      ActionKeepsFsms(s, a);
      var more := ClosingCompletes(Apply(s, a));
      actions := [a] + more;
      assert actions[1..] == more;
    }
  }
}
