/**
  The peer as the program has it: an object that holds FSM objects and assigns its own
  fields. Every method is one uninterrupted piece of a goroutine and is proved to do to the
  objects what the transition system says, so the theorems about runs hold of the objects.
  */
module PeerObject {
  import opened Notifications
  import opened Fsm
  import opened Peer
  import opened FsmObject
  import opened PeerSessions
  import opened PeerRuns
  import opened PeerTheorems

  function Views(ms: seq<Machine>): (r: seq<Fsm>)
    reads ms
    ensures |r| == |ms|
    ensures forall i :: 0 <= i < |ms| ==> r[i] == ms[i].View()
  {
    seq(|ms|, i requires 0 <= i < |ms| reads ms => ms[i].View())
  }

  class Supervisor {
    const config: Config
    var machines: seq<Machine>           // every FSM object made so far
    var fsms: Pair<Option<nat>>
    var fsmState: Pair<State>
    var todo: Agenda
    var closing: bool
    var exiting: bool
    var done: bool
    var race: Race
    var now: nat
    var damping: Damping
    var calls: seq<Call>

    ghost predicate Valid()
      reads this, machines
    {
      && (forall i, j :: 0 <= i < j < |machines| ==> machines[i] != machines[j])
      && (forall i :: 0 <= i < |machines| ==> machines[i].config == config)
    }

    function View(): System
      reads this, machines
    {
      System(config, Views(machines), fsms, fsmState, todo, closing, exiting, done, race, now, damping, calls)
    }

    /** The FSM objects there were are still there, and any others are new. */
    twostate predicate Grown()
      reads this
    {
      old(machines) <= machines && forall i :: |old(machines)| <= i < |machines| ==> fresh(machines[i])
    }

    /** newPeer and start. */
    constructor (c: Config)
      ensures Valid() && View() == Init(c) && config == c && Reachable(c, View())
      ensures fresh(machines)
    {
      config, machines, fsms, fsmState, todo := c, [], Pair(None, None), Pair(Disabled, Disabled), Nil;
      closing, exiting, done, race, now := false, false, false, NoRace, 0;
      damping, calls := Damping(false, 0, None, None, [], []), [];
      new;
      EnableFSM(Out);
      InitIsReachable(c);
    }

    /** Only the fields of the machine `id` have changed. */
    twostate lemma OnlyOneChanged(id: nat)
      requires machines == old(machines) && id < |machines| && old(Valid())
      requires forall j :: 0 <= j < |machines| && j != id ==> machines[j].View() == old(machines[j].View())
      ensures Views(machines) == old(Views(machines))[id := machines[id].View()]
    {
    }

    // ----- peer.go

    method EnableFSM(i: Side)
      requires Valid()
      modifies `machines, `fsms, `fsmState
      ensures Valid() && Grown()
      ensures View() == if (i == Out && config.passive) || old(fsms.Get(i)).Some? then old(View())
                        else old(View()).Spawn(i)
    {
      if i == Out && config.passive {
        return;
      }
      if fsms.Get(i).None? {
        var m := new Machine(config, i);
        fsms := fsms.Set(i, Some(|machines|));
        machines := machines + [m];
        fsmState := fsmState.Set(i, Disabled);
        assert Views(machines) == old(Views(machines)) + [NewFsm(i)];
      }
    }

    /** updateStartupDelay, and inHoldDown as handleError sets it. */
    method UpdateStartupDelay()
      modifies `damping
      ensures damping == DampPeer(old(damping), now)
    {
      if damping.lastError.Some? && now - damping.lastError.value >= ERROR_AMNESIA_TIME {
        damping := damping.(delay := 0);
      }
      damping := damping.(lastError := Some(now));
      if damping.delay > 0 {
        damping := damping.(delay := Min(2 * damping.delay, ERROR_DELAY_MAX_TIME));
      } else {
        damping := damping.(delay := ERROR_DELAY_MIN_TIME);
      }
      damping := damping.(deadline := Some(now + damping.delay));
      damping := damping.(delays := damping.delays + [damping.delay], errorTimes := damping.errorTimes + [now]);
      damping := damping.(holdDown := true);
    }

    /** disableFSM, up to the wait in stop. */
    method StopFSM(i: Side, rest: Agenda)
      requires Valid() && View().Occupied(i)
      modifies machines, `todo
      ensures Valid() && machines == old(machines)
      ensures View() == StartDisable(old(View()), i, rest)
    {
      var id := fsms.Get(i).value;
      machines[id].Close();
      todo := Then(WaitDone(i), rest);
      OnlyOneChanged(id);
    }

    /** disableFSM, after the wait. */
    method ForgetFSM(i: Side, rest: Agenda)
      modifies `fsms, `fsmState, `todo
      ensures View() == FinishDisable(old(View()), i, rest)
    {
      fsms := fsms.Set(i, None);
      fsmState := fsmState.Set(i, Disabled);
      todo := rest;
    }

    /** handleStateTransition, up to its first blocking operation. */
    method HandleStateTransition(i: Side, t: Transition, depth: nat, rest: Agenda)
      requires View().Occupied(i)
      modifies `todo
      ensures View() == old(View()).(todo := Expand(old(View()), i, t, depth, rest))
    {
      var next := Then(Send(i, t), rest);
      if t.to == Established {
        next := Then(Disable(Other(i)), next);
      } else if i == In && Order(t.to) < Order(t.from) {
        next := Then(Disable(i), Then(EnableOut, rest));
      } else if t.to == OpenConfirm {
        if fsmState.Get(Other(i)) == Established {
          next := Then(Disable(i), rest);
        } else if fsmState.Get(Other(i)) == OpenConfirm {
          var remoteId, localId := machines[fsms.Get(i).value].remoteId, config.localId;
          var dominant := localId > remoteId || (localId == remoteId && config.localAS > config.remoteAS);
          next := Then(if dominant && i == Out then Collide(i, t, depth) else Disable(i), rest);
        }
      }
      assert next == Expand(View(), i, t, depth, rest);
      todo := next;
    }

    /** The peer goroutine takes the next step of its agenda. */
    method PeerStepTaken()
      requires Valid() && CanPeerStep(View())
      modifies this, machines
      ensures Valid() && Grown()
      ensures View() == PeerStepOf(old(View()))
    {
      var op, rest := todo.op, todo.rest;
      match op
      case Handle(i, t, depth) => HandleStateTransition(i, t, depth, rest);
      case Disable(i) =>
        if fsms.Get(i).None? {
          todo := rest;
        } else {
          StopFSM(i, rest);
        }
      case WaitDone(i) => ForgetFSM(i, rest);
      case EnableOut =>
        todo := rest;
        EnableFSM(Out);
      case Damp => DampingStepTaken();
      case Finish => DampingStepTaken();
    }

    /** The end of handleError, and the end of run. */
    method DampingStepTaken()
      requires todo.Then? && (todo.op.Damp? || todo.op.Finish?)
      modifies `todo, `damping, `done
      ensures View() == PeerStepOf(old(View()))
    {
      if todo.op.Damp? {
        UpdateStartupDelay();
      } else {
        damping := damping.(deadline := None);
        done := true;
      }
      todo := todo.rest;
    }

    // ----- rendezvous

    /** What the peer goroutine is to do next. */
    method SetOut(verdict: Race, next: Agenda)
      requires Valid()
      modifies `todo, `race
      ensures Valid() && View() == old(View()).(race := verdict, todo := next)
    {
      race, todo := verdict, next;
    }

    method OfferReceived(id: nat)
      requires Valid() && id < |machines| && machines[id].pc.Offer?
      modifies machines
      ensures Valid() && machines == old(machines)
      ensures View() == Waiting(old(View()), id)
    {
      machines[id].OfferTaken();
      OnlyOneChanged(id);
    }

    method TransitionReceived(id: nat)
      requires Valid() && CanAct(View(), ReceiveTransition(id))
      modifies machines, `todo, `race
      ensures Valid() && machines == old(machines)
      ensures View() == TakeTransition(old(View()), id)
    {
      var i, t := View().ChannelOf(id), machines[id].pc.t;
      OfferReceived(id);
      SetOut(NoRace, Then(Handle(i, t, 0), Nil));
    }

    /** handleError. */
    method ErrorReceived(id: nat)
      requires Valid() && CanAct(View(), ReceiveError(id))
      modifies machines, `todo, `race
      ensures Valid() && machines == old(machines)
      ensures View() == TakeError(old(View()), id)
    {
      var error := machines[id].pc.error;
      machines[id].ErrorTaken();
      race, todo := NoRace, Nil;
      if error.DampsPeer() {
        todo := Then(Disable(In), Then(Disable(Out), Then(Damp, Nil)));
      }
      OnlyOneChanged(id);
    }

    /** sendTransitionToFSM, when the FSM receives. */
    method TransitionSent(id: nat)
      requires Valid() && CanAct(View(), Grant(id))
      modifies machines, `todo, `fsmState
      ensures Valid() && machines == old(machines)
      ensures View() == GrantTo(old(View()), id, old(todo.op.i), old(todo.op.t), old(todo.rest))
    {
      var i, t := todo.op.i, todo.op.t;
      machines[id].GrantedBy(t);
      fsmState := fsmState.Set(i, t.to);
      todo := todo.rest;
      OnlyOneChanged(id);
    }

    method OtherClosed(id: nat)
      requires Valid() && CanAct(View(), CollideClose(id))
      modifies machines, `todo, `race
      ensures Valid() && machines == old(machines)
      ensures View() == CloseOther(old(View()), id, old(todo.op.i), old(todo.op.t), old(todo.rest))
    {
      var i, t := todo.op.i, todo.op.t;
      machines[id].CloseReceived();
      race, todo := KeptOut, Then(Disable(Other(i)), Then(Send(i, t), todo.rest));
      OnlyOneChanged(id);
    }

    method OtherTransitioned(id: nat)
      requires Valid() && CanAct(View(), CollideReceive(id))
      modifies machines, `todo, `race
      ensures Valid() && machines == old(machines)
      ensures View() == OtherMoved(old(View()), id, old(todo.op.i), old(todo.op.t), old(todo.op.depth), old(todo.rest))
    {
      RaceLostTo(id, todo.op.i, todo.op.t, todo.op.depth, todo.rest);
    }

    /** The receive branch of the race between side i, which asks for t, and the FSM `id`. */
    method RaceLostTo(id: nat, i: Side, t: Transition, depth: nat, rest: Agenda)
      requires Valid() && id < |machines| && machines[id].pc.Offer?
      modifies machines, `todo, `race
      ensures Valid() && machines == old(machines)
      ensures View() == OtherMoved(old(View()), id, i, t, depth, rest)
    {
      var otherT := machines[id].pc.t;
      OfferReceived(id);
      var handle := Then(Handle(Other(i), otherT, depth + 1), rest);
      if otherT.to == Established {
        SetOut(KeptIn, Then(Disable(i), handle));
      } else {
        SetOut(KeptOut, Then(Send(i, t), handle));
      }
    }

    method FsmStepped(id: nat, e: Event)
      requires Valid() && CanAct(View(), Local(id, e))
      modifies machines, `calls
      ensures Valid() && machines == old(machines)
      ensures View() == LocalStep(old(View()), id, e)
    {
      var call := machines[id].Take(e);
      calls := calls + Tagged(id, call);
      OnlyOneChanged(id);
    }

    // ----- any action, any run

    method ConnectionArrived()
      requires Valid()
      modifies `machines, `fsms, `fsmState, `race
      ensures Valid() && Grown()
      ensures View() == Incoming(old(View()))
    {
      if damping.holdDown {
        return;
      }
      if fsms.incoming.Some? || fsmState.outgoing == Established {
        return;
      }
      race := NoRace;
      EnableFSM(In);
    }

    method DelayExpired()
      requires Valid()
      modifies `machines, `fsms, `fsmState, `race, `damping
      ensures Valid() && Grown()
      ensures View() == EndHoldDown(old(View()))
    {
      race := NoRace;
      EnableFSM(Out);
      damping := damping.(holdDown := false, deadline := None);
    }

    /** The actions of the environment and of run's loop. */
    method LoopAct(a: Action)
      requires Valid() && Enabled(View(), a)
      requires !a.Local? && !a.ReceiveTransition? && !a.ReceiveError? && !a.PeerStep? && !a.Grant?
      requires !a.CollideClose? && !a.CollideReceive?
      modifies this
      ensures Valid() && Grown()
      ensures View() == Apply(old(View()), a)
    {
      match a
      case Tick(d) => now := now + d;
      case StopRequested => closing := true;
      case IncomingConnection => ConnectionArrived();
      case StartupDelayExpired => DelayExpired();
      case LoopExits =>
        exiting, race, todo := true, NoRace, Then(Disable(Out), Then(Disable(In), Then(Finish, Nil)));
      case GiveUp => todo := todo.rest;
    }

    method Act(a: Action)
      requires Valid() && Enabled(View(), a)
      modifies this, machines
      ensures Valid() && Grown()
      ensures View() == Apply(old(View()), a)
    {
      match a
      case Local(id, e) => FsmStepped(id, e);
      case ReceiveTransition(id) => TransitionReceived(id);
      case ReceiveError(id) => ErrorReceived(id);
      case PeerStep => PeerStepTaken();
      case Grant(id) => TransitionSent(id);
      case CollideClose(id) => OtherClosed(id);
      case CollideReceive(id) => OtherTransitioned(id);
      case _ => LoopAct(a);
    }

    method TryAct(a: Action)
      requires Valid() && Reachable(config, View())
      modifies this, machines
      ensures Valid() && Grown()
      ensures Reachable(config, View())
    {
      if Enabled(View(), a) {
        ActionStaysReachable(config, View(), a);
        Act(a);
      }
    }

    /** The actions of a schedule that are enabled in their turn. */
    method ActAll(schedule: seq<Action>)
      requires Valid() && Reachable(config, View())
      modifies this, machines
      ensures Valid() && Grown() && Reachable(config, View())
      decreases |schedule|
    {
      if schedule != [] {
        TryAct(schedule[0]);
        assert forall i :: 0 <= i < |machines| ==> machines[i] in old(machines) || fresh(machines[i]);
        ActAll(schedule[1..]);
      }
    }

    /**
      Whatever schedule of actions drives the objects, they go through a run of the
      transition system, so what is proved of every run holds of them.
      */
    method Execute(schedule: seq<Action>)
      requires Valid() && Reachable(config, View())
      modifies this, machines
      ensures Valid() && Grown() && Reachable(config, View()) && Good(View()) && Bracketed(calls)
    {
      ActAll(schedule);
      ReachableIsGood(config, View());
    }
  }
}
