/**
  The inductive invariant of the peer goroutine and its FSM goroutines, and the proof that
  every action of every goroutine keeps it.
  */
module PeerInvariant {
  import opened Notifications
  import opened Packet
  import opened Fsm
  import opened FsmProofs
  import opened Peer

  // ----- what the peer needs to know about an FSM goroutine

  /** The transitions a state function can ask for. */
  predicate LegalMove(t: Transition) {
    match t.from
    case Disabled => t.to == Idle || t.to == Active
    case Idle => t.to == Connect || t.to == Disabled
    case Connect => t.to == OpenSent || t.to == Idle || t.to == Disabled
    case Active => t.to == OpenSent || t.to == Idle || t.to == Connect || t.to == Disabled
    case OpenSent => t.to == OpenConfirm || t.to == Idle || t.to == Active || t.to == Disabled
    case OpenConfirm => t.to == Established || t.to == Idle || t.to == Disabled
    case Established => t.to == Idle || t.to == Disabled
  }

  /** The state the goroutine is in or coming from, while it still coordinates with the peer. */
  function Current(f: Fsm): Option<State> {
    match f.pc
    case Offer(t) => Some(t.from)
    case Await(t) => Some(t.from)
    case Body(s) => Some(s)
    case Entering => Some(Established)
    case Handling => Some(Established)
    case Leaving(_, _) => Some(Established)
    case Report(t, _) => Some(t.from)
    case _ => None
  }

  predicate Tidy(f: Fsm) {
    && (f.pc.Offer? || f.pc.Await? || f.pc.Report? ==> LegalMove(f.pc.t))
    && (f.sawClose <==> GoingDown(f))
    && f.pc != Blocked
  }

  /** Between OnEstablished and OnClose. */
  predicate InSession(f: Fsm) {
    f.pc == Body(Established) || f.pc == Handling || f.pc.Leaving?
  }

  /** The callback of one step, as far as sessions are concerned. */
  predicate CallFits(f: Fsm, g: Fsm, call: Option<Callback>) {
    match call
    case None => InSession(g) == InSession(f)
    case Some(OnEstablished) => !InSession(f) && InSession(g) && f.pc == Entering
    case Some(OnUpdate) => InSession(f) && InSession(g)
    case Some(OnClose) => InSession(f) && !InSession(g)
    case Some(_) => !InSession(f) && !InSession(g) && f.pc.Body?
  }

  /** A step an FSM goroutine takes on its own, as the peer sees it. */
  predicate LocalMove(f: Fsm, g: Fsm, call: Option<Callback>) {
    && g.side == f.side && g.closed == f.closed
    && Tidy(g)
    && (g.sawClose ==> f.sawClose || f.closed)
    && (Current(g).Some? ==> Current(g) == Current(f))
    && (f.pc.Await? && !f.closed ==> g.pc == f.pc)
    && (f.pc == Done ==> g.pc == Done)
    && CallFits(f, g, call)
  }

  lemma InvIsTidy(f: Fsm)
    requires FsmInv(f)
    ensures Tidy(f)
  {
  }

  lemma ConnectingIsMove(c: Config, f: Fsm, e: Event)
    requires Tidy(f) && CanStep(f, e) && IsConnecting(e) && Tidy(Step(c, f, e).fsm)
    ensures LocalMove(f, Step(c, f, e).fsm, Step(c, f, e).call)
  {
    match e
    case DialSucceeded(a) =>
      SendOpenIsMove(c, f, AdoptConn(f.WithDial(Dialed).WithRetry(StopTimer(f.timers.retry))), Connect, a);
    case RetryExpiredConnected(a) => SendOpenIsMove(c, f, AdoptConn(f.WithDial(Dialed).WithRetry(Drained)), Connect, a);
    case UseConn(a) => SendOpenIsMove(c, f, f, Active, a);
    case _ =>
  }

  lemma SendOpenIsMove(c: Config, f: Fsm, g: Fsm, from: State, a: OpenAttempt)
    requires Tidy(f) && f.pc == Body(from) && (from == Connect || from == Active)
    requires g.side == f.side && g.closed == f.closed && g.sawClose == f.sawClose
    requires Tidy(SendOpenAndSetHoldTimer(c, g, from, a).fsm)
    ensures LocalMove(f, SendOpenAndSetHoldTimer(c, g, from, a).fsm, SendOpenAndSetHoldTimer(c, g, from, a).call)
  {
  }

  lemma OpenSentIsMove(c: Config, f: Fsm, m: Message, verdict: Option<Notification>, ok: bool)
    requires Tidy(f) && f.pc == Body(OpenSent) && Tidy(OpenSentReceives(c, f, m, verdict, ok).fsm)
    ensures LocalMove(f, OpenSentReceives(c, f, m, verdict, ok).fsm, OpenSentReceives(c, f, m, verdict, ok).call)
  {
  }

  lemma OpenConfirmIsMove(f: Fsm, m: Message)
    requires Tidy(f) && f.pc == Body(OpenConfirm) && Tidy(OpenConfirmReceives(f, m))
    ensures LocalMove(f, OpenConfirmReceives(f, m), None)
  {
  }

  lemma EstablishedIsMove(f: Fsm, m: Message)
    requires Tidy(f) && f.pc == Body(Established) && !f.timers.hold.Absent? && Tidy(EstablishedReceives(f, m).fsm)
    ensures LocalMove(f, EstablishedReceives(f, m).fsm, EstablishedReceives(f, m).call)
  {
  }

  lemma ReaderErrorIsMove(f: Fsm, s: State, e: Error)
    requires Tidy(f) && AtSession(f) && f.pc == Body(s) && Tidy(ReaderErrorIn(f, s, e))
    ensures LocalMove(f, ReaderErrorIn(f, s, e), None)
  {
  }

  lemma SessionIsMove(c: Config, f: Fsm, e: Event)
    requires Tidy(f) && !f.timers.hold.Absent? && CanStep(f, e) && IsSession(e) && Tidy(Step(c, f, e).fsm)
    ensures LocalMove(f, Step(c, f, e).fsm, Step(c, f, e).call)
  {
    match e
    case Received(m, verdict, ok) =>
      if f.pc == Body(OpenSent) {
        OpenSentIsMove(c, f, m, verdict, ok);
      } else if f.pc == Body(OpenConfirm) {
        OpenConfirmIsMove(f, m);
      } else {
        EstablishedIsMove(f, m);
      }
    case ReaderFailed(err) => ReaderErrorIsMove(f, f.pc.state, err);
    case _ =>
  }

  lemma CloseIsMove(f: Fsm)
    requires Tidy(f) && f.closed && Receptive(f) && Tidy(SeeClose(f))
    ensures LocalMove(f, SeeClose(f), None)
  {
  }

  lemma HandlerIsMove(f: Fsm, verdict: Option<Notification>)
    requires Tidy(f) && f.pc == Handling && !f.timers.hold.Absent? && Tidy(AfterHandler(f, verdict))
    ensures LocalMove(f, AfterHandler(f, verdict), None)
  {
  }

  lemma TimerIsMove(f: Fsm, w: TimerName)
    requires Tidy(f)
    ensures LocalMove(f, FireTimer(f, w), None)
  {
  }

  lemma CallIsMove(c: Config, f: Fsm, e: Event)
    requires Tidy(f) && CanStep(f, e) && Tidy(Step(c, f, e).fsm)
    requires e.WriterResetKeepAlive? || e.CallOnEstablished? || e.CallOnClose? || e.CleanUp?
    ensures LocalMove(f, Step(c, f, e).fsm, Step(c, f, e).call)
  {
  }

  lemma OtherIsMove(c: Config, f: Fsm, e: Event)
    requires Tidy(f) && (f.pc == Handling ==> !f.timers.hold.Absent?)
    requires CanStep(f, e) && !IsSession(e) && !IsConnecting(e) && Tidy(Step(c, f, e).fsm)
    ensures LocalMove(f, Step(c, f, e).fsm, Step(c, f, e).call)
  {
    match e
    case CloseSeen => CloseIsMove(f);
    case HandlerReturned(verdict) => HandlerIsMove(f, verdict);
    case TimerFires(w) => TimerIsMove(f, w);
    case _ => CallIsMove(c, f, e);
  }

  /** Whatever an FSM goroutine does on its own is a `LocalMove`. */
  lemma StepIsMove(c: Config, f: Fsm, e: Event)
    requires FsmInv(f) && CanStep(f, e)
    ensures FsmInv(Step(c, f, e).fsm)
    ensures LocalMove(f, Step(c, f, e).fsm, Step(c, f, e).call)
  {
    StepKeepsInv(c, f, e);
    InvIsTidy(f);
    InvIsTidy(Step(c, f, e).fsm);
    if IsConnecting(e) {
      ConnectingIsMove(c, f, e);
    } else if IsSession(e) {
      SessionIsMove(c, f, e);
    } else {
      OtherIsMove(c, f, e);
    }
  }

  // ----- the global invariant

  /** FSM i is waiting for the peer's answer to t and has not been told to close. */
  predicate Pending(s: System, i: Side, t: Transition) {
    s.Occupied(i) && s.Occupant(i).pc == Await(t) && !s.Occupant(i).closed && t.to != Disabled
  }

  predicate Up(st: State) { st == OpenConfirm || st == Established }

  /** FSM objects outside the slots are done, and a live FSM is in the slot it was made for. */
  ghost predicate HeapOk(s: System) {
    forall id :: 0 <= id < |s.heap| ==>
      Tidy(s.heap[id]) && (s.heap[id].pc != Done ==> s.slots.Get(s.heap[id].side) == Some(id))
  }

  predicate SlotOk(s: System, i: Side) {
    match s.slots.Get(i)
    case None => s.recorded.Get(i) == Disabled
    case Some(id) =>
      && id < |s.heap|
      && s.heap[id].side == i
      && (s.heap[id].closed <==> s.todo.Then? && s.todo.op == WaitDone(i))
      && (s.heap[id].sawClose ==> s.todo.Then? && (s.todo.op == WaitDone(i) || s.todo.op == Disable(i)))
      && (Current(s.heap[id]).Some? ==> Current(s.heap[id]).value == s.recorded.Get(i))
  }

  /** The head operation disables side i. */
  predicate Disabling(a: Agenda, i: Side) {
    a.Then? && (a.op == Disable(i) || a.op == WaitDone(i))
  }

  /** A transition may be granted now. */
  predicate Grantable(s: System, i: Side, t: Transition) {
    && Pending(s, i, t)
    && (t.to == Established ==> s.slots.Get(Other(i)).None?)
    && (t.to == OpenConfirm ==> !Up(s.recorded.Get(Other(i))))
  }

  /** The second half of a collision: the incoming FSM moved before it could be closed. */
  predicate LateHandle(s: System, o: Op) {
    && o.Handle? && o.i == In && o.depth == 1 && Pending(s, In, o.t) && o.t.from == OpenConfirm
    && (o.t.to == Established || o.t.to == Idle)
  }

  /** What is left to do after side i has been disabled. */
  predicate AfterDisable(s: System, i: Side, rest: Agenda) {
    match rest
    case Nil => !s.exiting
    case Then(Send(j, t), Nil) =>
      j == Other(i) && Pending(s, j, t) && (t.to == Established || t.to == OpenConfirm) && !s.exiting
    case Then(EnableOut, Nil) => i == In && !s.exiting
    case Then(Handle(j, t, d), Nil) => i == Out && LateHandle(s, rest.op) && t.to == Established && !s.exiting
    case Then(Damp, Nil) => i == Out && s.slots.incoming.None? && !s.exiting
    case Then(Disable(Out), Then(Damp, Nil)) => i == In && !s.exiting
    case Then(Disable(In), Then(Finish, Nil)) => i == Out && s.exiting
    case Then(Finish, Nil) => i == In && s.slots.outgoing.None? && s.exiting
    case _ => false
  }

  /** The control points the peer goroutine can be at. */
  predicate AgendaOk(s: System) {
    match s.todo
    case Nil => (s.exiting <==> s.done) && (s.done ==> s.slots.incoming.None? && s.slots.outgoing.None?)
    case Then(Disable(i), rest) => AfterDisable(s, i, rest) && !s.done
    case Then(WaitDone(i), rest) => s.slots.Get(i).Some? && AfterDisable(s, i, rest) && !s.done
    case Then(Handle(i, t, d), Nil) =>
      && Pending(s, i, t) && !s.exiting && !s.done
      && (d == 0 || (LateHandle(s, s.todo.op) && (t.to == Established ==> s.slots.outgoing.None?)))
    case Then(Send(i, t), Nil) => Grantable(s, i, t) && !s.exiting && !s.done
    case Then(Send(i, t), Then(h, Nil)) =>
      && i == Out && Pending(s, Out, t) && t.to == OpenConfirm && LateHandle(s, h) && h.t.to == Idle
      && !s.exiting && !s.done
    case Then(Collide(i, t, d), Nil) =>
      && i == Out && d == 0 && Pending(s, Out, t) && t.to == OpenConfirm && s.recorded.incoming == OpenConfirm
      && !s.exiting && !s.done
    case Then(EnableOut, Nil) => s.slots.incoming.None? && !s.exiting && !s.done
    case Then(Damp, Nil) =>
      s.slots.incoming.None? && s.slots.outgoing.None? && !s.exiting && !s.done
    case Then(Finish, Nil) => s.slots.incoming.None? && s.slots.outgoing.None? && s.exiting && !s.done
    case _ => false
  }

  /** A slot recorded Established is alone. */
  predicate Exclusive(s: System) {
    && (s.recorded.outgoing == Established ==> s.slots.incoming.None?)
    && (s.recorded.incoming == Established ==> s.slots.outgoing.None?)
  }

  /** Both slots are recorded up only while the incoming one is being taken down. */
  predicate OneUp(s: System) {
    Up(s.recorded.outgoing) && Up(s.recorded.incoming) ==>
      || (s.todo.Then? && s.todo.op.Handle? && s.todo.op.depth == 1 && s.todo.op.t.to == Idle)
      || (Disabling(s.todo, In) && s.todo.rest == Then(EnableOut, Nil))
  }

  predicate HoldDownOk(s: System) {
    && (s.damping.holdDown ==> s.slots.outgoing.None? && s.slots.incoming.None? && (s.todo.Nil? || s.exiting))
    && (s.damping.deadline.Some? <==> s.damping.holdDown && !s.done)
  }

  ghost predicate Inv(s: System) {
    && HeapOk(s)
    && SlotOk(s, Out) && SlotOk(s, In)
    && AgendaOk(s)
    && Exclusive(s)
    && OneUp(s)
    && HoldDownOk(s)
  }

  lemma InitInv(c: Config)
    ensures Inv(Init(c))
  {
  }

  /** A live FSM always addresses the channels of the slot it occupies. */
  lemma AddressesOwnChannel(s: System, id: nat)
    requires HeapOk(s) && SlotOk(s, Out) && SlotOk(s, In)
    requires id < |s.heap| && s.heap[id].pc != Done
    ensures s.ChannelOf(id) == s.heap[id].side && s.slots.Get(s.ChannelOf(id)) == Some(id)
  {
  }

  /** The agenda depends on FSM objects only through what is pending. */
  lemma AgendaStable(s: System, s': System)
    requires AgendaOk(s) && s' == s.(heap := s'.heap)
    requires forall i, t :: Pending(s, i, t) ==> Pending(s', i, t)
    ensures AgendaOk(s')
  {
  }

  lemma LocalKeepsHeap(s: System, id: nat, g: Fsm, call: Option<Callback>)
    requires HeapOk(s) && SlotOk(s, Out) && SlotOk(s, In) && id < |s.heap| && LocalMove(s.heap[id], g, call)
    ensures HeapOk(s.WithFsm(id, g)) && SlotOk(s.WithFsm(id, g), Out) && SlotOk(s.WithFsm(id, g), In)
  {
  }

  lemma LocalKeepsInv(s: System, id: nat, g: Fsm, call: Option<Callback>)
    requires Inv(s) && id < |s.heap| && LocalMove(s.heap[id], g, call)
    ensures Inv(s.WithFsm(id, g))
  {
    LocalKeepsHeap(s, id, g, call);
    AgendaStable(s, s.WithFsm(id, g));
  }

  // ----- the environment and the peer's loop

  lemma SpawnKeepsInv(s: System, i: Side)
    requires Inv(s) && s.slots.Get(i).None? && !s.damping.holdDown && s.recorded.Get(Other(i)) != Established
    requires s.todo.Nil? && !s.exiting
    ensures Inv(s.Spawn(i))
  {
    var s' := s.Spawn(i);
    assert forall id :: 0 <= id < |s.heap| ==> s'.heap[id] == s.heap[id];
  }
}
