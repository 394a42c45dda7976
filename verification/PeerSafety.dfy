/**
  Every action keeps the invariant: the environment, the peer's loop, each operation of
  the peer's agenda, and each rendezvous.
  */
module PeerSafety {
  import opened Notifications
  import opened Fsm
  import opened FsmProofs
  import opened Peer
  import opened PeerInvariant

  // ----- the environment and the peer's loop

  lemma IncomingKeepsInv(s: System)
    requires Inv(s) && s.AtLoop()
    ensures Inv(Incoming(s))
  {
    if !(s.damping.holdDown || s.slots.incoming.Some? || s.recorded.outgoing == Established) {
      SpawnKeepsInv(s, In);
    }
  }

  lemma EndHoldDownKeepsInv(s: System)
    requires Inv(s) && s.AtLoop() && s.damping.deadline.Some?
    ensures Inv(EndHoldDown(s))
  {
    var d := s.(damping := s.damping.(holdDown := false, deadline := None), race := NoRace);
    assert Inv(d);
    if !s.config.passive {
      SpawnKeepsInv(d, Out);
    }
  }

  lemma ExitLoopKeepsInv(s: System)
    requires Inv(s) && s.AtLoop()
    ensures Inv(ExitLoop(s))
  {
  }

  /** Replacing the FSM in a slot by one with the same side. */
  lemma ReplaceKeepsHeap(s: System, id: nat, g: Fsm)
    requires HeapOk(s) && id < |s.heap| && s.slots.Get(g.side) == Some(id) && g.side == s.heap[id].side && Tidy(g)
    ensures HeapOk(s.WithFsm(id, g))
  {
  }

  lemma TakeTransitionKeepsInv(s: System, id: nat)
    requires Inv(s) && s.AtLoop() && id < |s.heap| && s.heap[id].pc.Offer?
    ensures Inv(TakeTransition(s, id))
  {
    AddressesOwnChannel(s, id);
    ReplaceKeepsHeap(s, id, s.heap[id].(pc := Await(s.heap[id].pc.t)));
  }

  lemma TakeErrorKeepsInv(s: System, id: nat)
    requires Inv(s) && s.AtLoop() && id < |s.heap| && s.heap[id].pc.Report?
    ensures Inv(TakeError(s, id))
  {
    AddressesOwnChannel(s, id);
    ReplaceKeepsHeap(s, id, s.heap[id].(pc := Offer(s.heap[id].pc.t)));
  }

  // ----- the peer's agenda

  lemma HandleKeepsInv(s: System, i: Side, t: Transition, depth: nat)
    requires Inv(s) && s.todo.Then? && s.todo.op == Handle(i, t, depth)
    ensures s.Occupied(i)
    ensures Inv(s.(todo := Expand(s, i, t, depth, s.todo.rest)))
  {
  }

  lemma StartDisableKeepsInv(s: System, i: Side)
    requires Inv(s) && s.todo.Then? && s.todo.op == Disable(i) && s.slots.Get(i).Some?
    ensures s.Occupied(i)
    ensures Inv(StartDisable(s, i, s.todo.rest))
  {
    StartDisableKeepsSlots(s, i);
    StartDisableKeepsAgenda(s, i);
  }

  lemma StartDisableKeepsSlots(s: System, i: Side)
    requires HeapOk(s) && SlotOk(s, Out) && SlotOk(s, In)
    requires s.todo.Then? && s.todo.op == Disable(i) && s.slots.Get(i).Some?
    ensures s.Occupied(i)
    ensures var s' := StartDisable(s, i, s.todo.rest); HeapOk(s') && SlotOk(s', Out) && SlotOk(s', In)
  {
    ReplaceKeepsHeap(s, s.slots.Get(i).value, s.Occupant(i).(closed := true));
    CloseKeepsSlot(s, i);
    CloseKeepsOtherSlot(s, i);
  }

  lemma CloseKeepsSlot(s: System, i: Side)
    requires SlotOk(s, i) && s.todo.Then? && s.todo.op == Disable(i) && s.slots.Get(i).Some?
    ensures SlotOk(StartDisable(s, i, s.todo.rest), i)
  {
  }

  lemma CloseKeepsOtherSlot(s: System, i: Side)
    requires SlotOk(s, i) && SlotOk(s, Other(i)) && s.todo.Then? && s.todo.op == Disable(i) && s.slots.Get(i).Some?
    ensures SlotOk(StartDisable(s, i, s.todo.rest), Other(i))
  {
  }

  lemma StartDisableKeepsAgenda(s: System, i: Side)
    requires Inv(s) && s.todo.Then? && s.todo.op == Disable(i) && s.Occupied(i)
    ensures AgendaOk(StartDisable(s, i, s.todo.rest))
  {
    var s' := StartDisable(s, i, s.todo.rest);
    assert forall t :: Pending(s, Other(i), t) ==> Pending(s', Other(i), t);
  }

  lemma SkipDisableKeepsInv(s: System, i: Side)
    requires Inv(s) && s.todo.Then? && s.todo.op == Disable(i) && s.slots.Get(i).None?
    ensures Inv(s.(todo := s.todo.rest))
  {
  }

  lemma FinishDisableKeepsInv(s: System, i: Side)
    requires Inv(s) && s.todo.Then? && s.todo.op == WaitDone(i) && s.Occupied(i) && s.Occupant(i).pc == Done
    ensures Inv(FinishDisable(s, i, s.todo.rest))
  {
  }

  lemma LastOpKeepsInv(s: System)
    requires Inv(s) && s.todo.Then? && (s.todo.op.EnableOut? || s.todo.op.Damp? || s.todo.op.Finish?)
    ensures Inv(PeerStepOf(s))
  {
    if s.todo.op.EnableOut? && !s.config.passive && s.slots.outgoing.None? {
      var rest := s.(todo := s.todo.rest);
      assert Inv(rest);
      SpawnKeepsInv(rest, Out);
    }
  }

  // ----- rendezvous of the peer's agenda

  /** The FSM that receives is the one that waits for this transition. */
  lemma GrantReceiver(s: System, id: nat, i: Side, t: Transition)
    requires Inv(s) && s.todo.Then? && s.todo.op == Send(i, t)
    requires id < |s.heap| && s.heap[id].pc.Await? && s.ChannelOf(id) == i
    ensures s.heap[id].pc == Await(t) && t.to != Disabled && !s.heap[id].sawClose && !s.heap[id].closed
    ensures s.slots.Get(i) == Some(id) && s.heap[id].side == i && LegalMove(t)
  {
    AddressesOwnChannel(s, id);
  }

  lemma GrantToKeepsSlots(s: System, id: nat, i: Side, t: Transition)
    requires Inv(s) && s.todo.Then? && s.todo.op == Send(i, t)
    requires id < |s.heap| && s.heap[id].pc.Await? && s.ChannelOf(id) == i
    ensures var s' := GrantTo(s, id, i, t, s.todo.rest); HeapOk(s') && SlotOk(s', Out) && SlotOk(s', In)
  {
    GrantReceiver(s, id, i, t);
    ReplaceKeepsHeap(s, id, Granted(s.heap[id], t));
  }

  lemma GrantToKeepsInv(s: System, id: nat, i: Side, t: Transition)
    requires Inv(s) && s.todo.Then? && s.todo.op == Send(i, t)
    requires id < |s.heap| && s.heap[id].pc.Await? && s.ChannelOf(id) == i
    ensures Inv(GrantTo(s, id, i, t, s.todo.rest))
  {
    GrantReceiver(s, id, i, t);
    GrantToKeepsSlots(s, id, i, t);
  }

  lemma GiveUpKeepsInv(s: System)
    requires Inv(s) && s.todo.Then? && (s.todo.op.Send? || s.todo.op.Collide?)
    ensures Inv(s.(todo := s.todo.rest))
  {
  }

  lemma CloseOtherKeepsInv(s: System, id: nat, t: Transition, depth: nat)
    requires Inv(s) && s.todo.Then? && s.todo.op == Collide(Out, t, depth)
    requires id < |s.heap| && s.slots.incoming == Some(id) && Receptive(s.heap[id])
    ensures Inv(CloseOther(s, id, Out, t, s.todo.rest))
  {
    ReplaceKeepsHeap(s, id, SeeClose(s.heap[id]));
  }

  lemma OtherMovedKeepsInv(s: System, id: nat, t: Transition, depth: nat)
    requires Inv(s) && s.todo.Then? && s.todo.op == Collide(Out, t, depth)
    requires id < |s.heap| && s.heap[id].pc.Offer? && s.ChannelOf(id) == In
    ensures Inv(OtherMoved(s, id, Out, t, depth, s.todo.rest))
  {
    AddressesOwnChannel(s, id);
    ReplaceKeepsHeap(s, id, s.heap[id].(pc := Await(s.heap[id].pc.t)));
  }

  // ----- all actions together

  lemma PeerStepKeepsInv(s: System)
    requires Inv(s) && CanPeerStep(s)
    ensures Inv(PeerStepOf(s))
  {
    match s.todo.op
    case Handle(i, t, depth) => HandleKeepsInv(s, i, t, depth);
    case Disable(i) =>
      if s.slots.Get(i).None? {
        SkipDisableKeepsInv(s, i);
      } else {
        StartDisableKeepsInv(s, i);
      }
    case WaitDone(i) => FinishDisableKeepsInv(s, i);
    case EnableOut => LastOpKeepsInv(s);
    case Damp => LastOpKeepsInv(s);
    case Finish => LastOpKeepsInv(s);
  }

  /** Every FSM goroutine keeps its own invariant. */
  ghost predicate FsmsOk(s: System) {
    forall id :: 0 <= id < |s.heap| ==> FsmInv(s.heap[id])
  }

  /** The clock, the stop request, the outcome of a race and the callbacks are not part of it. */
  lemma FreeFieldsKeepInv(s: System, s': System)
    requires Inv(s) && s' == s.(now := s'.now, closing := s'.closing, race := s'.race, calls := s'.calls)
    ensures Inv(s')
  {
  }

  lemma LocalStepKeepsInv(s: System, id: nat, e: Event)
    requires Inv(s) && FsmsOk(s) && id < |s.heap| && CanStep(s.heap[id], e)
    ensures Inv(LocalStep(s, id, e))
  {
    var step := Step(s.config, s.heap[id], e);
    StepIsMove(s.config, s.heap[id], e);
    LocalKeepsInv(s, id, step.fsm, step.call);
    FreeFieldsKeepInv(s.WithFsm(id, step.fsm), LocalStep(s, id, e));
  }

  lemma LoopActionKeepsInv(s: System, a: Action)
    requires Inv(s) && FsmsOk(s) && Enabled(s, a)
    requires a.Tick? || a.StopRequested? || a.IncomingConnection? || a.StartupDelayExpired? || a.LoopExits? || a.Local?
    ensures Inv(Apply(s, a))
  {
    match a
    case Tick(_) => FreeFieldsKeepInv(s, Apply(s, a));
    case StopRequested => FreeFieldsKeepInv(s, Apply(s, a));
    case IncomingConnection => IncomingKeepsInv(s);
    case StartupDelayExpired => EndHoldDownKeepsInv(s);
    case LoopExits => ExitLoopKeepsInv(s);
    case Local(id, e) => LocalStepKeepsInv(s, id, e);
  }

  /** The peer goroutine takes part, alone or with an FSM goroutine. */
  predicate IsRendezvous(a: Action) {
    || a.ReceiveTransition? || a.ReceiveError? || a.PeerStep? || a.Grant? || a.GiveUp?
    || a.CollideClose? || a.CollideReceive?
  }

  lemma RendezvousKeepsInv(s: System, a: Action)
    requires Inv(s) && Enabled(s, a)
    requires IsRendezvous(a)
    ensures Inv(Apply(s, a))
  {
    match a
    case ReceiveTransition(id) => TakeTransitionKeepsInv(s, id);
    case ReceiveError(id) => TakeErrorKeepsInv(s, id);
    case PeerStep => PeerStepKeepsInv(s);
    case Grant(id) => GrantToKeepsInv(s, id, s.todo.op.i, s.todo.op.t);
    case GiveUp => GiveUpKeepsInv(s);
    case CollideClose(id) => CloseOtherKeepsInv(s, id, s.todo.op.t, s.todo.op.depth);
    case CollideReceive(id) => OtherMovedKeepsInv(s, id, s.todo.op.t, s.todo.op.depth);
  }

  /** Every action of every goroutine keeps the invariant. */
  lemma ActionKeepsInv(s: System, a: Action)
    requires Inv(s) && FsmsOk(s) && Enabled(s, a)
    ensures Inv(Apply(s, a))
  {
    if IsRendezvous(a) {
      RendezvousKeepsInv(s, a);
    } else {
      LoopActionKeepsInv(s, a);
    }
  }

  // ----- the invariants of the FSM goroutines

  lemma ReplaceKeepsFsms(s: System, id: nat, g: Fsm)
    requires FsmsOk(s) && id < |s.heap| && FsmInv(g)
    ensures FsmsOk(s.WithFsm(id, g))
  {
  }

  lemma SpawnKeepsFsms(s: System, i: Side)
    requires FsmsOk(s)
    ensures FsmsOk(s.Spawn(i))
  {
    NewFsmInv(i);
  }

  /** The peer's hand-overs leave the FSM's own resources alone. */
  lemma CloseKeepsFsmInv(f: Fsm)
    requires FsmInv(f)
    ensures FsmInv(f.(closed := true))
  {
  }

  lemma AwaitKeepsFsmInv(f: Fsm)
    requires FsmInv(f) && f.pc.Offer?
    ensures FsmInv(f.(pc := Await(f.pc.t)))
  {
  }

  lemma OfferKeepsFsmInv(f: Fsm)
    requires FsmInv(f) && f.pc.Report?
    ensures FsmInv(f.(pc := Offer(f.pc.t)))
  {
  }

  lemma WaitingKeepsFsms(s: System, id: nat)
    requires FsmsOk(s) && id < |s.heap| && s.heap[id].pc.Offer?
    ensures FsmsOk(Waiting(s, id))
  {
    AwaitKeepsFsmInv(s.heap[id]);
    ReplaceKeepsFsms(s, id, s.heap[id].(pc := Await(s.heap[id].pc.t)));
  }

  lemma TakeErrorKeepsFsms(s: System, id: nat)
    requires FsmsOk(s) && id < |s.heap| && s.heap[id].pc.Report?
    ensures FsmsOk(TakeError(s, id))
  {
    OfferKeepsFsmInv(s.heap[id]);
    ReplaceKeepsFsms(s, id, s.heap[id].(pc := Offer(s.heap[id].pc.t)));
  }

  lemma LocalStepKeepsFsms(s: System, id: nat, e: Event)
    requires FsmsOk(s) && id < |s.heap| && CanStep(s.heap[id], e)
    ensures FsmsOk(LocalStep(s, id, e))
  {
    StepKeepsInv(s.config, s.heap[id], e);
    ReplaceKeepsFsms(s, id, Step(s.config, s.heap[id], e).fsm);
  }

  lemma GrantToKeepsFsms(s: System, id: nat, i: Side, t: Transition)
    requires Inv(s) && FsmsOk(s) && s.todo.Then? && s.todo.op == Send(i, t)
    requires id < |s.heap| && s.heap[id].pc.Await? && s.ChannelOf(id) == i
    ensures FsmsOk(GrantTo(s, id, i, t, s.todo.rest))
  {
    GrantReceiver(s, id, i, t);
    GrantKeepsInv(s.heap[id], t);
    ReplaceKeepsFsms(s, id, Granted(s.heap[id], t));
  }

  /** What becomes of an FSM whose transition is granted. */
  lemma GrantOutcome(s: System, id: nat)
    requires Inv(s) && FsmsOk(s) && Enabled(s, Grant(id))
    ensures s.heap[id].pc == Await(s.todo.op.t)
    ensures var g := Apply(s, Grant(id)).heap[id];
            && (g.pc.Panicked? <==> s.todo.op.t.to == OpenConfirm && AllZero(s.heap[id].log.negotiated))
            && (!g.pc.Panicked? ==> Equipped(g, s.todo.op.t.to))
  {
    var op := s.todo.op;
    GrantReceiver(s, id, op.i, op.t);
    GrantKeepsInv(s.heap[id], op.t);
    assert Apply(s, Grant(id)).heap[id] == Granted(s.heap[id], op.t);
  }

  lemma LoopActionKeepsFsms(s: System, a: Action)
    requires FsmsOk(s) && Enabled(s, a)
    requires a.Tick? || a.StopRequested? || a.IncomingConnection? || a.StartupDelayExpired? || a.LoopExits? || a.Local?
    ensures FsmsOk(Apply(s, a))
  {
    match a
    case IncomingConnection => SpawnKeepsFsms(s, In);
    case StartupDelayExpired => SpawnKeepsFsms(s, Out);
    case Local(id, e) => LocalStepKeepsFsms(s, id, e);
    case _ =>
  }

  lemma RendezvousKeepsFsms(s: System, a: Action)
    requires Inv(s) && FsmsOk(s) && Enabled(s, a)
    requires IsRendezvous(a)
    ensures FsmsOk(Apply(s, a))
  {
    match a
    case ReceiveTransition(id) => WaitingKeepsFsms(s, id);
    case ReceiveError(id) => TakeErrorKeepsFsms(s, id);
    case PeerStep => PeerStepKeepsFsms(s);
    case Grant(id) => GrantToKeepsFsms(s, id, s.todo.op.i, s.todo.op.t);
    case GiveUp =>
    case CollideClose(id) =>
      SeeCloseKeepsInv(s.heap[id]);
      ReplaceKeepsFsms(s, id, SeeClose(s.heap[id]));
    case CollideReceive(id) => WaitingKeepsFsms(s, id);
  }

  lemma ActionKeepsFsms(s: System, a: Action)
    requires Inv(s) && FsmsOk(s) && Enabled(s, a)
    ensures FsmsOk(Apply(s, a))
  {
    if IsRendezvous(a) {
      RendezvousKeepsFsms(s, a);
    } else {
      LoopActionKeepsFsms(s, a);
    }
  }

  lemma PeerStepKeepsFsms(s: System)
    requires FsmsOk(s) && CanPeerStep(s)
    ensures FsmsOk(PeerStepOf(s))
  {
    match s.todo.op
    case Disable(i) =>
      if s.slots.Get(i).Some? {
        CloseKeepsFsmInv(s.Occupant(i));
        ReplaceKeepsFsms(s, s.slots.Get(i).value, s.Occupant(i).(closed := true));
      }
    case EnableOut => SpawnKeepsFsms(s, Out);
    case _ =>
  }
}
