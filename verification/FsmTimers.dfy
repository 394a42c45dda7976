/**
  The timers that keep an FSM goroutine going: in every state it waits in, one is running or
  has expired, and when the goroutine is done none runs. And what the state functions that
  have no session yet do.
  */
module FsmTimers {
  import opened Notifications
  import opened Packet
  import opened Fsm
  import opened FsmProofs

  /** Running, or expired with the tick still to be read. */
  predicate Ticking(t: Timer) { t.Armed? || t.Fired? }

  /** What the goroutine can wait for in, or on the way to, state s. */
  predicate Wakes(f: Fsm, s: State) {
    match s
    case Disabled => true
    case Idle => Ticking(f.timers.idleHold)
    case Connect => Ticking(f.timers.retry)
    case Active => f.link.conn || Ticking(f.timers.retry)
    case OpenSent => true
    case _ => f.holdTime != 0 ==> Ticking(f.timers.keepAlive)
  }

  predicate NoneRuns(t: Timers) {
    !t.retry.Armed? && !t.hold.Armed? && !t.keepAlive.Armed? && !t.idleHold.Armed?
  }

  predicate TimersOk(f: Fsm) {
    && (f.pc != Done ==> Ticking(f.timers.idleHold))
    && match f.pc
       case Offer(t) => Wakes(f, t.to)
       case Await(t) => Wakes(f, t.to)
       case Report(t, _) => Wakes(f, t.to)
       case Body(s) => Wakes(f, s)
       case Entering => Wakes(f, Established)
       case Handling => Wakes(f, Established)
       case Done => NoneRuns(f.timers)
       case _ => true
  }

  // ----- the state functions without a session

  /** idle: both timers are started and a dial begins. */
  lemma IdleDials(c: Config, f: Fsm)
    requires CanStep(f, IdleExpired)
    ensures var g := Step(c, f, IdleExpired).fsm;
            && g.pc == Offer(Transition(Idle, Connect)) && g.link == f.link.(dial := Dialing)
            && g.timers == f.timers.(idleHold := Armed, retry := Armed) && g.log == f.log
  {
  }

  /** A failed dial leads to Idle, with the retry timer stopped. */
  lemma FailedDialIdles(c: Config, f: Fsm)
    requires CanStep(f, DialFailed)
    ensures var g := Step(c, f, DialFailed).fsm;
            && g.pc == Offer(Transition(Connect, Idle)) && !g.link.dial.Dialing? && !g.timers.retry.Armed?
            && g.log == f.log
  {
  }

  /** The retry timer starts over with a new dial, from Active by way of Connect. */
  lemma RetryDialsAgain(c: Config, f: Fsm)
    requires CanStep(f, RetryExpired)
    ensures var g := Step(c, f, RetryExpired).fsm;
            && g.link == f.link.(dial := Dialing) && g.timers == f.timers.(retry := Armed) && g.log == f.log
            && g.pc == if f.pc == Body(Connect) then f.pc else Offer(Transition(Active, Connect))
  {
  }

  /** The local OPEN has been written on this connection as its first message, or could not be. */
  predicate OpenWritten(c: Config, before: seq<Wire>, g: Fsm, from: State, a: OpenAttempt) {
    var o := NewOpenMessage(c.localAS, c.holdTime, c.localId, a.capabilities);
    if Encode(Open(o)).Ok? then
      && g.log.wire == before + [SentOpen(o)]
      && (a.writeOk ==>
            && g.pc == Offer(Transition(from, OpenSent)) && g.link.reader
            && g.timers.hold.Armed? && g.timers.holdFor == 240)
      && (!a.writeOk ==> g.pc == Offer(Transition(from, Idle)) && !g.link.reader)
    else g.log.wire == before && g.pc == Offer(Transition(from, Idle)) && !g.link.reader
  }

  lemma SendOpenWrites(c: Config, f: Fsm, from: State, a: OpenAttempt)
    requires !f.link.reader
    ensures var step := SendOpenAndSetHoldTimer(c, f, from, a);
            && step.call == Some(GetCapabilities)
            && OpenWritten(c, f.log.wire, step.fsm, from, a)
            && step.fsm.log.earlier == f.log.earlier && step.fsm.link == f.link.(reader := step.fsm.link.reader)
            && step.fsm.timers == f.timers.(hold := step.fsm.timers.hold, holdFor := step.fsm.timers.holdFor)
  {
  }

  /** A dialled connection, or one handed over, gets the plugin's capabilities in an OPEN. */
  lemma ConnectionGetsOpen(c: Config, f: Fsm, e: Event)
    requires FsmInv(f) && CanStep(f, e) && (e.DialSucceeded? || e.RetryExpiredConnected? || e.UseConn?)
    ensures Step(c, f, e).call == Some(GetCapabilities)
    ensures var g := Step(c, f, e).fsm;
            && g.link.conn && !g.link.dial.Dialing?
            && g.log.earlier == f.log.earlier + (if e.UseConn? then [] else [f.log.wire])
            && OpenWritten(c, [], g, if e.UseConn? then Active else Connect, e.attempt)
  {
    match e
    case DialSucceeded(a) =>
      SendOpenWrites(c, AdoptConn(f.WithDial(Dialed).WithRetry(StopTimer(f.timers.retry))), Connect, a);
    case RetryExpiredConnected(a) => SendOpenWrites(c, AdoptConn(f.WithDial(Dialed).WithRetry(Drained)), Connect, a);
    case UseConn(a) => SendOpenWrites(c, f, Active, a);
  }

  // ----- what every step keeps

  lemma SendOpenKeepsTimers(c: Config, f: Fsm, from: State, a: OpenAttempt)
    requires !f.link.reader && Ticking(f.timers.idleHold)
    ensures TimersOk(SendOpenAndSetHoldTimer(c, f, from, a).fsm)
  {
    SendOpenWrites(c, f, from, a);
  }

  lemma ConnectingKeepsTimers(c: Config, f: Fsm, e: Event)
    requires FsmInv(f) && TimersOk(f) && CanStep(f, e) && IsConnecting(e)
    ensures TimersOk(Step(c, f, e).fsm)
  {
    match e
    case DialSucceeded(a) =>
      SendOpenKeepsTimers(c, AdoptConn(f.WithDial(Dialed).WithRetry(StopTimer(f.timers.retry))), Connect, a);
    case RetryExpiredConnected(a) =>
      SendOpenKeepsTimers(c, AdoptConn(f.WithDial(Dialed).WithRetry(Drained)), Connect, a);
    case UseConn(a) => SendOpenKeepsTimers(c, f, Active, a);
    case _ =>
  }

  lemma OpenSentKeepsTimers(c: Config, f: Fsm, m: Message, verdict: Option<Notification>, ok: bool)
    requires FsmInv(f) && TimersOk(f) && f.pc == Body(OpenSent)
    ensures TimersOk(OpenSentReceives(c, f, m, verdict, ok).fsm)
  {
  }

  lemma LaterKeepsTimers(f: Fsm, m: Message)
    requires FsmInv(f) && TimersOk(f)
    ensures f.pc == Body(OpenConfirm) ==> TimersOk(OpenConfirmReceives(f, m))
    ensures f.pc == Body(Established) ==> TimersOk(EstablishedReceives(f, m).fsm)
  {
  }

  lemma SessionKeepsTimers(c: Config, f: Fsm, e: Event)
    requires FsmInv(f) && TimersOk(f) && CanStep(f, e) && IsSession(e)
    ensures TimersOk(Step(c, f, e).fsm)
  {
    if e.Received? {
      if f.pc == Body(OpenSent) {
        OpenSentKeepsTimers(c, f, e.m, e.verdict, e.writeOk);
      } else {
        LaterKeepsTimers(f, e.m);
      }
    }
  }

  lemma CloseKeepsTimers(f: Fsm)
    requires TimersOk(f) && Receptive(f)
    ensures TimersOk(SeeClose(f))
  {
  }

  lemma FiringKeepsTimers(f: Fsm, w: TimerName)
    requires TimersOk(f) && CanStep(f, TimerFires(w))
    ensures TimersOk(FireTimer(f, w))
  {
  }

  lemma HandlerKeepsTimers(f: Fsm, verdict: Option<Notification>)
    requires FsmInv(f) && TimersOk(f) && f.pc == Handling
    ensures TimersOk(AfterHandler(f, verdict))
  {
  }

  lemma CallKeepsTimers(c: Config, f: Fsm, e: Event)
    requires FsmInv(f) && TimersOk(f) && CanStep(f, e)
    requires e.WriterResetKeepAlive? || e.CallOnEstablished? || e.CallOnClose? || e.CleanUp?
    ensures TimersOk(Step(c, f, e).fsm)
  {
  }

  lemma OtherKeepsTimers(c: Config, f: Fsm, e: Event)
    requires FsmInv(f) && TimersOk(f) && CanStep(f, e) && !IsSession(e) && !IsConnecting(e)
    ensures TimersOk(Step(c, f, e).fsm)
  {
    if e.CloseSeen? {
      CloseKeepsTimers(f);
    } else if e.TimerFires? {
      FiringKeepsTimers(f, e.which);
    } else if e.HandlerReturned? {
      HandlerKeepsTimers(f, e.verdict);
    } else {
      CallKeepsTimers(c, f, e);
    }
  }

  lemma StepKeepsTimers(c: Config, f: Fsm, e: Event)
    requires FsmInv(f) && TimersOk(f) && CanStep(f, e)
    ensures TimersOk(Step(c, f, e).fsm)
  {
    if IsConnecting(e) {
      ConnectingKeepsTimers(c, f, e);
    } else if IsSession(e) {
      SessionKeepsTimers(c, f, e);
    } else {
      OtherKeepsTimers(c, f, e);
    }
  }

  lemma GrantKeepsTimers(f: Fsm)
    requires TimersOk(f) && f.pc.Await?
    ensures TimersOk(Granted(f, f.pc.t))
  {
  }
}
