/**
  The FSM as the program has it: an object whose fields the state functions assign. Every
  method is one uninterrupted piece of the goroutine and is proved to do to the fields
  what the transition system says.
  */
module FsmObject {
  import opened Bytes
  import opened Notifications
  import opened Packet
  import opened Fsm
  import F = Fsm

  class Machine {
    const config: Config
    const side: Side
    var pc: Pc
    var closed: bool
    var sawClose: bool
    var remoteId: u32
    var handler: bool
    var holdTime: u16
    var link: Link
    var timers: Timers
    var log: Log

    function View(): Fsm
      reads this
    {
      Fsm(side, pc, closed, sawClose, remoteId, handler, holdTime, link, timers, log)
    }

    /** newFSM and the first transition of run. */
    constructor (config: Config, side: Side)
      ensures View() == NewFsm(side) && this.config == config
    {
      this.config, this.side := config, side;
      closed, sawClose, remoteId, handler, holdTime := false, false, 0, false, 0;
      link, log := Link(side == In, false, 0, NoDial), Log([], [], []);
      timers := Timers(Absent, Absent, Absent, Armed, 0);
      pc := Offer(Transition(Disabled, if side == In then Active else Idle));
    }

    // ----- helpers

    method Write(w: Wire)
      modifies `log
      ensures View() == old(View()).Writing([w])
    {
      log := log.(wire := log.wire + [w]);
    }

    method CleanupConnAndReader()
      modifies `link
      ensures View() == F.CleanupConnAndReader(old(View()))
    {
      if link.reader {
        link := link.(reader := false);
      }
      link := link.(conn := false);
    }

    method StartReading()
      modifies `link
      ensures View() == F.StartReading(old(View()))
    {
      if link.reader {
        link := link.(orphans := link.orphans + 1);
      }
      link := link.(reader := true);
    }

    /** A timer never created is dereferenced; the drain of one that was stopped or read blocks forever. */
    method DrainAndResetHoldTimer()
      modifies `timers, `pc
      ensures View() == F.DrainAndResetHoldTimer(old(View()))
    {
      if timers.hold.Absent? {
        pc := Panicked;
        return;
      }
      if !timers.hold.Armed? {
        if timers.hold.Drained? {
          pc := Blocked;
          return;
        }
        timers := timers.(hold := Drained);
      }
      timers := timers.(hold := Armed, holdFor := holdTime);
    }

    method HandleNotificationInErr(e: Error)
      modifies `log
      ensures View() == SendIfOut(old(View()), e)
    {
      if e.NotificationError? && e.out {
        Write(SentNotification(e.notification));
      }
    }

    /** What openSent, openConfirm and established do after their `select` loop returned an error. */
    method TearDown(from: State, to: State, e: Error)
      modifies `link, `timers, `pc
      ensures View() == Fail(old(View()), from, to, e)
    {
      CleanupConnAndReader();
      timers := timers.(hold := StopTimer(timers.hold));
      if from != OpenSent {
        timers := timers.(keepAlive := StopTimer(timers.keepAlive));
      }
      pc := if from == Established then Leaving(to, e) else Report(Transition(from, to), e);
    }

    method Refuse(from: State, to: State, n: Notification)
      modifies `log, `link, `timers, `pc
      ensures View() == Refusing(old(View()), from, to, n)
    {
      Write(SentNotification(n));
      TearDown(from, to, NotificationError(n, true));
    }

    method SendOpenAndSetHoldTimer(from: State, a: OpenAttempt)
      modifies `log, `timers, `link, `pc
      ensures View() == F.SendOpenAndSetHoldTimer(config, old(View()), from, a).fsm
    {
      var o := NewOpenMessage(config.localAS, config.holdTime, config.localId, a.capabilities);
      var b := Encode(Open(o));
      if !b.Ok? {
        pc := Offer(Transition(from, Idle));
        return;
      }
      Write(SentOpen(o));
      if !a.writeOk {
        pc := Offer(Transition(from, Idle));
        return;
      }
      timers := timers.(hold := Armed, holdFor := LONG_HOLD_TIME);
      StartReading();
      pc := Offer(Transition(from, OpenSent));
    }

    method AdoptConnection()
      modifies `link, `log
      ensures View() == AdoptConn(old(View()))
    {
      link := link.(conn := true);
      log := log.(earlier := log.earlier + [log.wire]);
      log := log.(wire := []);
    }

    method OpenNewConnection(a: OpenAttempt)
      modifies `log, `timers, `link, `pc
      ensures View() == F.SendOpenAndSetHoldTimer(config, AdoptConn(old(View())), Connect, a).fsm
    {
      AdoptConnection();
      SendOpenAndSetHoldTimer(Connect, a);
    }

    // ----- the state functions

    method IdleTimerExpired()
      requires CanStep(View(), IdleExpired)
      modifies `timers, `link, `pc
      ensures View() == Step(config, old(View()), IdleExpired).fsm
    {
      timers := timers.(retry := Armed);
      link := link.(dial := Dialing);
      timers := timers.(idleHold := Armed);
      pc := Offer(Transition(Idle, Connect));
    }

    method DialErred()
      requires CanStep(View(), DialFailed)
      modifies `link, `timers, `pc
      ensures View() == Step(config, old(View()), DialFailed).fsm
    {
      link := link.(dial := Dialed);
      timers := timers.(retry := StopTimer(timers.retry));
      pc := Offer(Transition(Connect, Idle));
    }

    method DialedConnection(a: OpenAttempt)
      requires CanStep(View(), DialSucceeded(a))
      modifies `log, `timers, `link, `pc
      ensures View() == Step(config, old(View()), DialSucceeded(a)).fsm
    {
      link := link.(dial := Dialed);
      timers := timers.(retry := StopTimer(timers.retry));
      OpenNewConnection(a);
    }

    /** The retry timer expired, but the cancelled dial turns out to have succeeded. */
    method DialedConnectionLate(a: OpenAttempt)
      requires CanStep(View(), RetryExpiredConnected(a))
      modifies `log, `timers, `link, `pc
      ensures View() == Step(config, old(View()), RetryExpiredConnected(a)).fsm
    {
      link := link.(dial := Dialed);
      timers := timers.(retry := Drained);
      OpenNewConnection(a);
    }

    /** In connect after the cancelled dial failed, and in active. */
    method RetryTimerExpired()
      requires CanStep(View(), RetryExpired)
      modifies `timers, `link, `pc
      ensures View() == Step(config, old(View()), RetryExpired).fsm
    {
      timers := timers.(retry := Armed);
      link := link.(dial := Dialing);
      if pc == Body(Active) {
        pc := Offer(Transition(Active, Connect));
      }
    }

    method OpenSentMessage(m: Message, verdict: Option<Notification>, writeOk: bool) returns (asked: bool)
      modifies this
      ensures View() == OpenSentReceives(config, old(View()), m, verdict, writeOk).fsm
      ensures asked <==> OpenSentReceives(config, old(View()), m, verdict, writeOk).call == Some(OnOpenMessage)
    {
      asked := false;
      match m
      case Notify(n) => TearDown(OpenSent, Idle, NotificationError(n, false));
      case Open(o) =>
        var err := Validate(o, config.localId, config.localAS, config.remoteAS);
        if err.Some? {
          HandleNotificationInErr(err.value);
          TearDown(OpenSent, Idle, err.value);
          return;
        }
        remoteId := o.bgpId;
        asked := true;
        if verdict.Some? {
          Refuse(OpenSent, Idle, verdict.value);
          return;
        }
        log := log.(wire := log.wire + [AcceptedOpen, SentKeepAlive]);
        if !writeOk {
          TearDown(OpenSent, Idle, OtherError);
          return;
        }
        holdTime := o.holdTime;
        if config.holdTime < holdTime {
          holdTime := config.holdTime;
        }
        log := log.(negotiated := log.negotiated + [holdTime]);
        pc := Offer(Transition(OpenSent, OpenConfirm));
        if holdTime != 0 {
          timers := timers.(keepAlive := Armed);
          DrainAndResetHoldTimer();
        }
      case Update(_) => Refuse(OpenSent, Idle, Unexpected(NOTIF_SUBCODE_RX_UNEXPECTED_MESSAGE_OPENSENT, m));
      case KeepAlive => Refuse(OpenSent, Idle, Unexpected(NOTIF_SUBCODE_RX_UNEXPECTED_MESSAGE_OPENSENT, m));
    }

    method OpenConfirmMessage(m: Message)
      modifies this
      ensures View() == OpenConfirmReceives(old(View()), m)
    {
      match m
      case KeepAlive =>
        pc := Offer(Transition(OpenConfirm, Established));
        DrainAndResetHoldTimer();
      case Notify(n) => TearDown(OpenConfirm, Idle, NotificationError(n, false));
      case Open(_) => Refuse(OpenConfirm, Idle, Unexpected(NOTIF_SUBCODE_RX_UNEXPECTED_MESSAGE_OPENCONFIRM, m));
      case Update(_) => Refuse(OpenConfirm, Idle, Unexpected(NOTIF_SUBCODE_RX_UNEXPECTED_MESSAGE_OPENCONFIRM, m));
    }

    method EstablishedMessage(m: Message)
      modifies this
      ensures View() == EstablishedReceives(old(View()), m).fsm
    {
      match m
      case Notify(n) => TearDown(Established, Idle, NotificationError(n, false));
      case KeepAlive =>
        if holdTime != 0 {
          DrainAndResetHoldTimer();
        }
      case Update(_) =>
        if handler {
          pc := Handling;
        } else if holdTime != 0 {
          DrainAndResetHoldTimer();
        }
      case Open(_) => Refuse(Established, Idle, Unexpected(NOTIF_SUBCODE_RX_UNEXPECTED_MESSAGE_ESTABLISHED, m));
    }

    method UpdateHandlerReturned(verdict: Option<Notification>)
      modifies this
      ensures View() == AfterHandler(old(View()), verdict)
    {
      pc := Body(Established);
      if verdict.Some? {
        Refuse(Established, Idle, verdict.value);
      } else if holdTime != 0 {
        DrainAndResetHoldTimer();
      }
    }

    method KeepAliveTimerExpired(s: State, writeOk: bool)
      modifies this
      ensures View() == KeepAliveDue(old(View()), s, writeOk)
    {
      timers := timers.(keepAlive := Drained);
      Write(SentKeepAlive);
      if !writeOk {
        TearDown(s, Idle, OtherError);
      } else if s != Established || holdTime != 0 {
        timers := timers.(keepAlive := Armed);
      }
    }

    method ReaderErred(s: State, e: Error)
      modifies this
      ensures View() == ReaderErrorIn(old(View()), s, e)
    {
      link := link.(reader := false);
      HandleNotificationInErr(e);
      if s == OpenSent && !e.NotificationError? {
        timers := timers.(retry := Armed);
        TearDown(s, Active, e);
      } else {
        TearDown(s, Idle, e);
      }
    }

    // ----- run

    /** run, after its rendezvous: the peer answered with t. */
    method GrantedBy(t: Transition)
      requires pc.Await?
      modifies `log, `pc
      ensures View() == Granted(old(View()), t)
    {
      if t.to == Disabled {
        LeaveLoop(t.from, pc.t.to);
      } else if !Equipped(View(), t.to) {
        pc := Panicked;
      } else if t.to == Established {
        pc := Entering;
      } else {
        pc := Body(t.to);
      }
    }

    method LeaveLoop(from: State, toBefore: State)
      modifies `log, `pc
      ensures View() == DisabledInRun(old(View()), from, toBefore)
    {
      if toBefore != Disabled && link.conn && Order(from) > Order(Active) {
        Write(SentNotification(CEASE));
      }
      pc := Exiting;
    }

    method CloseReceived()
      requires Receptive(View())
      modifies this
      ensures View() == SeeClose(old(View()))
    {
      sawClose := true;
      match pc
      case Offer(t) => LeaveLoop(t.from, t.to);
      case Await(t) => LeaveLoop(t.from, t.to);
      case Body(s) =>
        if s == Connect {
          link := link.(dial := Dialed);
          timers := timers.(retry := StopTimer(timers.retry));
          pc := Offer(Transition(s, Disabled));
        } else if s == OpenSent || s == OpenConfirm || s == Established {
          Refuse(s, Disabled, CEASE);
        } else {
          pc := Offer(Transition(s, Disabled));
        }
      case Report(t, _) => pc := Offer(Transition(t.from, Disabled));
    }

    method CleanUpAll()
      modifies this
      ensures View() == Cleanup(old(View()))
    {
      if !link.dial.NoDial? {
        link := link.(dial := Dialed);
      }
      CleanupConnAndReader();
      timers := timers.(retry := StopTimer(timers.retry));
      timers := timers.(hold := StopTimer(timers.hold));
      timers := timers.(keepAlive := StopTimer(timers.keepAlive));
      timers := timers.(idleHold := StopTimer(timers.idleHold));
      pc := Done;
    }

    // ----- what the peer goroutine does to the object

    /** stop, up to its wait. */
    method Close()
      modifies `closed
      ensures View() == old(View()).(closed := true)
    {
      closed := true;
    }

    method OfferTaken()
      requires pc.Offer?
      modifies `pc
      ensures View() == old(View()).(pc := Await(old(pc.t)))
    {
      pc := Await(pc.t);
    }

    method ErrorTaken()
      requires pc.Report?
      modifies `pc
      ensures View() == old(View()).(pc := Offer(old(pc.t)))
    {
      pc := Offer(pc.t);
    }

    // ----- any step

    method TimerFired(w: TimerName)
      modifies `timers
      ensures View() == FireTimer(old(View()), w)
    {
      match w
      case RetryTimer => timers := timers.(retry := Fired);
      case HoldTimer => timers := timers.(hold := Fired);
      case KeepAliveTimer => timers := timers.(keepAlive := Fired);
      case IdleHoldTimer => timers := timers.(idleHold := Fired);
    }

    /** The object and the transition system take the same steps and make the same callbacks. */
    method Take(e: Event) returns (call: Option<Callback>)
      requires CanStep(View(), e)
      modifies this
      ensures View() == Step(config, old(View()), e).fsm
      ensures call == Step(config, old(View()), e).call
    {
      call := None;
      match e
      case CloseSeen => CloseReceived();
      case TimerFires(w) => TimerFired(w);
      case IdleExpired => IdleTimerExpired();
      case DialFailed => DialErred();
      case DialSucceeded(a) => DialedConnection(a); call := Some(GetCapabilities);
      case RetryExpired => RetryTimerExpired();
      case RetryExpiredConnected(a) => DialedConnectionLate(a); call := Some(GetCapabilities);
      case UseConn(a) => SendOpenAndSetHoldTimer(Active, a); call := Some(GetCapabilities);
      case HoldExpired =>
        timers := timers.(hold := Drained);
        Refuse(pc.state, Idle, HOLD_TIMER_EXPIRED);
      case KeepAliveExpired(ok) => KeepAliveTimerExpired(pc.state, ok);
      case ReaderFailed(err) => ReaderErred(pc.state, err);
      case Received(m, verdict, ok) => call := MessageReceived(m, verdict, ok);
      case HandlerReturned(verdict) => UpdateHandlerReturned(verdict);
      case WriterResetKeepAlive =>
        if holdTime != 0 {
          timers := timers.(keepAlive := ResetTimer(timers.keepAlive));
        }
      case CallOnEstablished(h) =>
        pc, handler := Body(Established), h;
        call := Some(OnEstablished);
      case CallOnClose =>
        pc := Report(Transition(Established, pc.to), pc.error);
        call := Some(OnClose);
      case CleanUp => CleanUpAll();
    }

    method MessageReceived(m: Message, verdict: Option<Notification>, ok: bool) returns (call: Option<Callback>)
      requires CanStep(View(), Received(m, verdict, ok))
      modifies this
      ensures View() == Step(config, old(View()), Received(m, verdict, ok)).fsm
      ensures call == Step(config, old(View()), Received(m, verdict, ok)).call
    {
      if pc == Body(OpenSent) {
        var asked := OpenSentMessage(m, verdict, ok);
        call := if asked then Some(OnOpenMessage) else None;
      } else if pc == Body(OpenConfirm) {
        OpenConfirmMessage(m);
        call := None;
      } else {
        call := if m.Update? && handler then Some(OnUpdate) else None;
        EstablishedMessage(m);
      }
    }
  }
}
