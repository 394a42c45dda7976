/**
  The peer goroutine always gets back to its loop, without any request to stop: whatever it
  waits for can happen, and in no schedule does it take more than eight actions of its own
  between two visits of its loop.
  */
module PeerProgress {
  import opened Fsm
  import opened Peer
  import opened PeerInvariant
  import opened PeerSafety
  import opened PeerShutdown

  /** Actions in which the peer goroutine takes part while it is not at its loop. */
  predicate IsOwn(a: Action) {
    a.PeerStep? || a.Grant? || a.GiveUp? || a.CollideClose? || a.CollideReceive?
  }

  /** Whatever happens to a busy peer, its own actions make the agenda lighter and all others leave it. */
  lemma BusyAction(s: System, a: Action)
    requires Inv(s) && Enabled(s, a) && s.todo.Then?
    ensures IsOwn(a) ==> Weight(Apply(s, a).todo) < Weight(s.todo)
    ensures !IsOwn(a) ==> Apply(s, a).todo == s.todo
  {
    if a.PeerStep? {
      StepIsLighter(s);
    } else if IsOwn(a) {
      RendezvousIsLighter(s, a);
    } else {
      OthersKeepAgenda(s, a);
    }
  }

  lemma RendezvousIsLighter(s: System, a: Action)
    requires Inv(s) && Enabled(s, a) && (a.Grant? || a.GiveUp? || a.CollideClose? || a.CollideReceive?)
    ensures Weight(Apply(s, a).todo) < Weight(s.todo)
  {
  }

  lemma OthersKeepAgenda(s: System, a: Action)
    requires Enabled(s, a) && s.todo.Then? && !IsOwn(a)
    ensures Apply(s, a).todo == s.todo
  {
  }

  lemma AgendaIsLight(s: System)
    requires Inv(s)
    ensures Weight(s.todo) <= 8
  {
  }

  // ----- the way back to the loop

  function IdIn(s: System, i: Side): nat {
    if s.slots.Get(i).Some? then s.slots.Get(i).value else 0
  }

  /** An action that brings a busy peer closer to its loop. */
  function NextBack(s: System): Action {
    match s.todo
    case Then(Send(i, _), _) => Grant(IdIn(s, i))
    case Then(Collide(i, _, _), _) => CollideClose(IdIn(s, Other(i)))
    case _ => NextDown(s)
  }

  /** sendTransitionToFSM always finds its FSM receiving. */
  lemma GrantIsEnabled(s: System)
    requires Inv(s) && !Crashed(s) && s.todo.Then? && s.todo.op.Send?
    ensures Enabled(s, NextBack(s)) && NextBack(s).Grant?
    ensures Measure(Apply(s, NextBack(s))) < Measure(s)
  {
  }

  /** The race always finds the other FSM ready to be closed. */
  lemma CloseIsEnabled(s: System)
    requires Inv(s) && FsmsOk(s) && !Crashed(s) && s.todo.Then? && s.todo.op.Collide?
    ensures Enabled(s, NextBack(s)) && NextBack(s).CollideClose?
    ensures Measure(Apply(s, NextBack(s))) < Measure(s) && !Crashed(Apply(s, NextBack(s)))
  {
    var id := s.slots.Get(Other(s.todo.op.i)).value;
    assert Receptive(s.heap[id]);
    var s' := Apply(s, NextBack(s));
    assert forall k :: 0 <= k < |s.heap| && k != id ==> s'.heap[k] == s.heap[k];
  }

  lemma StepGoesBack(s: System)
    requires Inv(s) && !Crashed(s) && PeerCanStep(s) && NextBack(s).PeerStep?
    ensures Enabled(s, NextBack(s)) && Measure(Apply(s, NextBack(s))) < Measure(s) && !Crashed(Apply(s, NextBack(s)))
  {
    OpGoesDown(s);
    SameFsmsLive(s, PeerStepOf(s));
  }

  /** Every step on the way back is enabled, lowers the measure and is not a surrender to a stop request. */
  lemma GoesBack(s: System)
    requires Inv(s) && FsmsOk(s) && !Crashed(s) && s.todo.Then?
    ensures Enabled(s, NextBack(s)) && !NextBack(s).StopRequested? && !NextBack(s).GiveUp?
    ensures Measure(Apply(s, NextBack(s))) < Measure(s)
    ensures Crashed(Apply(s, NextBack(s))) ==> NextBack(s).Grant?
  {
    if s.todo.op.Send? {
      GrantIsEnabled(s);
    } else if s.todo.op.Collide? {
      CloseIsEnabled(s);
    } else if s.todo.op.WaitDone? && s.Occupied(s.todo.op.i) && s.Occupant(s.todo.op.i).pc != Done {
      WaitingGoesDown(s, s.todo.op.i);
    } else {
      StepGoesBack(s);
    }
  }

  /** The actions are enabled one after the other and lower the measure; none is a request to stop or gives up. */
  ghost predicate Descends(s: System, actions: seq<Action>)
    decreases |actions|
  {
    actions == [] ||
    var a := actions[0];
    && Enabled(s, a) && !a.StopRequested? && !a.GiveUp?
    && Measure(Apply(s, a)) < Measure(s)
    && (Crashed(Apply(s, a)) ==> a.Grant?)
    && Descends(Apply(s, a), actions[1..])
  }

  /** They lead to the loop, to the end of run, or to a panic in a goroutine that was granted a transition. */
  ghost predicate LeadsBack(s: System, actions: seq<Action>) {
    && Descends(s, actions)
    && Exec(s, actions).Some?
    && var s' := Exec(s, actions).value; s'.AtLoop() || s'.done || Crashed(s')
  }

  lemma {:induction false} BackToLoop(s: System) returns (actions: seq<Action>)
    requires Inv(s) && FsmsOk(s)
    ensures LeadsBack(s, actions)
    decreases Measure(s)
  {
    if s.todo.Nil? || Crashed(s) {
      actions := [];
    } else {
      GoesBack(s);
      var a := NextBack(s);
      ActionKeepsInv(s, a);
      ActionKeepsFsms(s, a);
      var more := BackToLoop(Apply(s, a));
      OneMoreBack(s, a, more);
      actions := [a] + more;
    }
  }

  lemma OneMoreBack(s: System, a: Action, more: seq<Action>)
    requires Enabled(s, a) && !a.StopRequested? && !a.GiveUp? && Measure(Apply(s, a)) < Measure(s)
    requires (Crashed(Apply(s, a)) ==> a.Grant?) && LeadsBack(Apply(s, a), more)
    ensures LeadsBack(s, [a] + more)
  {
    assert ([a] + more)[1..] == more;
  }

  // ----- every schedule

  lemma OwnOneMore(actions: seq<Action>, a: Action)
    ensures OwnActions(actions + [a]) == OwnActions(actions) + if IsOwn(a) then 1 else 0
  {
    assert (actions + [a])[..|actions|] == actions;
  }

  function OwnActions(actions: seq<Action>): nat {
    if actions == [] then 0
    else OwnActions(actions[..|actions| - 1]) + if IsOwn(actions[|actions| - 1]) then 1 else 0
  }
}
