/**
  What holds of every FSM of a peer in every run: with what duration its hold timer runs in
  each state, that a timer wakes it wherever it waits, and that an error it reports as sent
  has been sent. And what becomes of a session whose negotiated hold time is zero.
  */
module PeerHold {
  import opened Notifications
  import opened Packet
  import opened Fsm
  import opened FsmProofs
  import opened FsmMeaning
  import opened FsmTimers
  import opened Peer
  import opened PeerInvariant
  import opened PeerSafety

  /** The duration the hold timer was last started with, in or on the way to state st. */
  predicate HoldFits(f: Fsm, st: State) {
    match st
    case OpenSent => f.timers.holdFor == LONG_HOLD_TIME
    case OpenConfirm => f.timers.holdFor == if f.holdTime == 0 then LONG_HOLD_TIME else f.holdTime
    case Established => f.timers.holdFor == f.holdTime
    case _ => true
  }

  predicate HoldOk(f: Fsm) {
    match f.pc
    case Offer(t) => HoldFits(f, t.to)
    case Await(t) => HoldFits(f, t.to)
    case Body(st) => HoldFits(f, st)
    case Entering => HoldFits(f, Established)
    case Handling => HoldFits(f, Established)
    case _ => true
  }

  // ----- one FSM goroutine

  lemma ConnectingKeepsHold(c: Config, f: Fsm, e: Event)
    requires HoldOk(f) && CanStep(f, e) && IsConnecting(e)
    ensures HoldOk(Step(c, f, e).fsm)
  {
  }

  lemma OpenSentKeepsHold(c: Config, f: Fsm, m: Message, verdict: Option<Notification>, ok: bool)
    requires FsmInv(f) && HoldOk(f) && f.pc == Body(OpenSent)
    ensures HoldOk(OpenSentReceives(c, f, m, verdict, ok).fsm)
  {
  }

  lemma LaterKeepsHold(f: Fsm, m: Message)
    requires FsmInv(f) && HoldOk(f)
    ensures f.pc == Body(OpenConfirm) ==> HoldOk(OpenConfirmReceives(f, m))
    ensures f.pc == Body(Established) ==> HoldOk(EstablishedReceives(f, m).fsm)
  {
  }

  lemma SessionKeepsHold(c: Config, f: Fsm, e: Event)
    requires FsmInv(f) && HoldOk(f) && CanStep(f, e) && IsSession(e)
    ensures HoldOk(Step(c, f, e).fsm)
  {
    if e.Received? {
      if f.pc == Body(OpenSent) {
        OpenSentKeepsHold(c, f, e.m, e.verdict, e.writeOk);
      } else {
        LaterKeepsHold(f, e.m);
      }
    }
  }

  lemma CloseKeepsHold(f: Fsm)
    requires HoldOk(f) && Receptive(f)
    ensures HoldOk(SeeClose(f))
  {
  }

  lemma OtherKeepsHold(c: Config, f: Fsm, e: Event)
    requires FsmInv(f) && HoldOk(f) && CanStep(f, e) && !IsSession(e) && !IsConnecting(e)
    ensures HoldOk(Step(c, f, e).fsm)
  {
    if e.CloseSeen? {
      CloseKeepsHold(f);
    }
  }

  lemma StepKeepsHold(c: Config, f: Fsm, e: Event)
    requires FsmInv(f) && HoldOk(f) && CanStep(f, e)
    ensures HoldOk(Step(c, f, e).fsm)
  {
    if IsConnecting(e) {
      ConnectingKeepsHold(c, f, e);
    } else if IsSession(e) {
      SessionKeepsHold(c, f, e);
    } else {
      OtherKeepsHold(c, f, e);
    }
  }

  lemma GrantKeepsHold(f: Fsm)
    requires HoldOk(f) && f.pc.Await?
    ensures HoldOk(Granted(f, f.pc.t))
  {
  }

  // ----- a session whose hold time is zero

  /** In the session, from the grant of Established until the state function is left. */
  predicate InEstablished(f: Fsm) {
    f.pc == Entering || f.pc == Body(Established) || f.pc == Handling
  }

  /** With a hold time of zero an expired hold timer stays expired as long as the session lasts. */
  lemma ExpiredStays(c: Config, f: Fsm, e: Event)
    requires InEstablished(f) && CanStep(f, e) && InEstablished(Step(c, f, e).fsm)
    requires f.holdTime == 0 && f.timers.hold.Fired?
    ensures Step(c, f, e).fsm.holdTime == 0 && Step(c, f, e).fsm.timers.hold.Fired?
  {
  }

  /** A KEEPALIVE restarts an expired hold timer exactly when the hold time is not zero. */
  lemma KeepAliveRestartsIff(f: Fsm)
    requires f.pc == Body(Established) && f.timers.hold.Fired?
    ensures var g := EstablishedReceives(f, KeepAlive).fsm;
            && g.pc == Body(Established)
            && (g.timers.hold.Armed? && g.timers.holdFor == f.holdTime <==> f.holdTime != 0)
  {
  }

  // ----- the whole peer

  predicate DetailsOk(f: Fsm) { HoldOk(f) && ReportOk(f) && TimersOk(f) }

  ghost predicate HoldsOk(s: System) {
    forall id :: 0 <= id < |s.heap| ==> DetailsOk(s.heap[id])
  }

  lemma ReplaceKeepsHolds(s: System, id: nat, g: Fsm)
    requires HoldsOk(s) && id < |s.heap| && DetailsOk(g)
    ensures HoldsOk(s.WithFsm(id, g))
  {
  }

  lemma LoopKeepsHolds(s: System, a: Action)
    requires HoldsOk(s) && Enabled(s, a)
    requires a.Tick? || a.StopRequested? || a.IncomingConnection? || a.StartupDelayExpired? || a.LoopExits? || a.GiveUp?
    ensures HoldsOk(Apply(s, a))
  {
  }

  lemma PeerStepKeepsHolds(s: System)
    requires HoldsOk(s) && CanPeerStep(s)
    ensures HoldsOk(PeerStepOf(s))
  {
  }

  lemma HandOverKeepsHolds(s: System, a: Action)
    requires FsmsOk(s) && HoldsOk(s) && Enabled(s, a) && (a.ReceiveTransition? || a.ReceiveError? || a.CollideReceive?)
    ensures HoldsOk(Apply(s, a))
  {
    var id, f := a.id, s.heap[a.id];
    assert FsmInv(f);
    if a.ReceiveError? {
      ReplaceKeepsHolds(s, id, f.(pc := Offer(f.pc.t)));
    } else {
      ReplaceKeepsHolds(s, id, f.(pc := Await(f.pc.t)));
    }
  }

  lemma GrantActionKeepsHolds(s: System, a: Action)
    requires Inv(s) && FsmsOk(s) && HoldsOk(s) && Enabled(s, a) && (a.Grant? || a.CollideClose?)
    ensures HoldsOk(Apply(s, a))
  {
    var id, f := a.id, s.heap[a.id];
    if a.Grant? {
      GrantReceiver(s, id, s.todo.op.i, s.todo.op.t);
      GrantKeepsHold(f);
      GrantKeepsTimers(f);
      ReplaceKeepsHolds(s, id, Granted(f, f.pc.t));
    } else {
      CloseKeepsHold(f);
      CloseKeepsReport(f);
      CloseKeepsTimers(f);
      ReplaceKeepsHolds(s, id, SeeClose(f));
    }
  }

  lemma LocalKeepsHolds(s: System, id: nat, e: Event)
    requires FsmsOk(s) && HoldsOk(s) && Enabled(s, Local(id, e))
    ensures HoldsOk(Apply(s, Local(id, e)))
  {
    StepKeepsHold(s.config, s.heap[id], e);
    StepKeepsReport(s.config, s.heap[id], e);
    StepKeepsTimers(s.config, s.heap[id], e);
    ReplaceKeepsHolds(s, id, Step(s.config, s.heap[id], e).fsm);
  }

  lemma ActionKeepsHolds(s: System, a: Action)
    requires Inv(s) && FsmsOk(s) && HoldsOk(s) && Enabled(s, a)
    ensures HoldsOk(Apply(s, a))
  {
    if a.Local? {
      LocalKeepsHolds(s, a.id, a.event);
    } else if a.PeerStep? {
      PeerStepKeepsHolds(s);
    } else if a.Grant? || a.CollideClose? {
      GrantActionKeepsHolds(s, a);
    } else if a.ReceiveTransition? || a.ReceiveError? || a.CollideReceive? {
      HandOverKeepsHolds(s, a);
    } else {
      LoopKeepsHolds(s, a);
    }
  }

  /** FSM `id` is in a session with hold time zero and its hold timer has expired. */
  predicate Expired(s: System, id: nat) {
    id < |s.heap| && InEstablished(s.heap[id]) && s.heap[id].holdTime == 0 && s.heap[id].timers.hold.Fired?
  }

  lemma PeerKeepsExpired(s: System, a: Action, id: nat)
    requires Enabled(s, a) && !a.Local? && Expired(s, id)
    requires id < |Apply(s, a).heap| && InEstablished(Apply(s, a).heap[id])
    ensures Expired(Apply(s, a), id)
  {
    if a.PeerStep? {
      PeerStepLeaves(s, id);
    }
  }

  lemma PeerStepLeaves(s: System, id: nat)
    requires CanPeerStep(s) && id < |s.heap|
    ensures id < |PeerStepOf(s).heap|
    ensures PeerStepOf(s).heap[id] == s.heap[id] || PeerStepOf(s).heap[id] == s.heap[id].(closed := true)
  {
  }

  /** Nothing takes the expired hold timer away while the session lasts. */
  lemma ActionKeepsExpired(s: System, a: Action, id: nat)
    requires Enabled(s, a) && Expired(s, id) && id < |Apply(s, a).heap| && InEstablished(Apply(s, a).heap[id])
    ensures Expired(Apply(s, a), id)
  {
    if a.Local? {
      if a.id == id {
        ExpiredStays(s.config, s.heap[id], a.event);
      }
    } else {
      PeerKeepsExpired(s, a, id);
    }
  }
}
