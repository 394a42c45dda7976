/**
  What one FSM goroutine keeps whatever the network, the plugin and the peer goroutine do:
  the order of its writes on every connection, the resources each state function finds,
  and exactly when it panics.
  */
module FsmProofs {
  import opened Bytes
  import opened Notifications
  import opened Packet
  import opened Fsm

  // ----- the order of the writes on one connection

  datatype Phase = Fresh | Opened | Accepted | Closed | Bad

  function PhaseAfter(p: Phase, w: Wire): Phase {
    match w
    case SentOpen(_) => if p.Fresh? then Opened else Bad
    case AcceptedOpen => if p.Opened? then Accepted else Bad
    case SentKeepAlive => if p.Accepted? then Accepted else Bad
    case SentNotification(_) => if p.Opened? || p.Accepted? then Closed else Bad
  }

  function PhaseOf(w: seq<Wire>): Phase {
    if w == [] then Fresh else PhaseAfter(PhaseOf(w[..|w| - 1]), w[|w| - 1])
  }

  lemma PhaseOfAppend(w: seq<Wire>, x: Wire)
    ensures PhaseOf(w + [x]) == PhaseAfter(PhaseOf(w), x)
  {
    assert (w + [x])[..|w|] == w;
  }

  predicate GoodWire(w: seq<Wire>) {
    !PhaseOf(w).Bad?
  }

  /**
    The order in plain terms: OPEN first and only first, one accepted OPEN at most,
    KEEPALIVEs only after it, and a NOTIFICATION only as the very last write.
    */
  ghost predicate WellOrdered(w: seq<Wire>) {
    && (forall i :: 0 <= i < |w| ==> (w[i].SentOpen? <==> i == 0))
    && (forall i :: 0 <= i < |w| ==> (w[i].AcceptedOpen? ==> i == 1))
    && (forall i :: 0 <= i < |w| ==> (w[i].SentKeepAlive? ==> i >= 2 && w[1].AcceptedOpen?))
    && (forall i :: 0 <= i < |w| ==> (w[i].SentNotification? ==> i == |w| - 1))
  }

  lemma {:induction false} GoodWireIffWellOrdered(w: seq<Wire>)
    ensures GoodWire(w) <==> WellOrdered(w)
    ensures GoodWire(w) ==> (PhaseOf(w).Accepted? <==> |w| > 1 && w[1].AcceptedOpen? && !w[|w| - 1].SentNotification?)
    ensures GoodWire(w) ==> (PhaseOf(w).Closed? <==> |w| > 0 && w[|w| - 1].SentNotification?)
    ensures PhaseOf(w).Opened? ==> |w| == 1
  {
    if w != [] {
      var v := w[..|w| - 1];
      GoodWireIffWellOrdered(v);
      assert forall i :: 0 <= i < |v| ==> v[i] == w[i];
      if WellOrdered(w) {
        assert WellOrdered(v);
      }
    }
  }

  // ----- the invariant of the goroutine

  predicate AllZero(s: seq<u16>) {
    forall i :: 0 <= i < |s| ==> s[i] == 0
  }

  /** A connection in use: it is there, it is read from, and its hold timer can be drained. */
  predicate Linked(f: Fsm) {
    f.link.conn && f.link.reader && (f.timers.hold.Armed? || f.timers.hold.Fired?)
  }

  predicate TransitionInv(f: Fsm, t: Transition) {
    match t.to
    case Disabled => !f.link.reader && t.from != Disabled && (Order(t.from) > Order(Active) ==> !f.link.conn)
    case Idle =>
      !f.link.reader && !f.link.dial.Dialing? && t.from != Idle && (Order(t.from) > Order(Active) ==> !f.link.conn)
    case Connect =>
      !f.link.reader && f.link.dial.Dialing? && !f.timers.retry.Absent? && (t.from == Idle || t.from == Active)
    case Active =>
      && !f.link.reader && !f.link.dial.Dialing?
      && ((t.from == Disabled && f.side == In && f.link.conn && f.log.wire == []) ||
          (t.from == OpenSent && !f.link.conn && !f.timers.retry.Absent?))
    case OpenSent =>
      Linked(f) && !f.link.dial.Dialing? && PhaseOf(f.log.wire).Opened? && (t.from == Connect || t.from == Active)
    case OpenConfirm =>
      && Linked(f) && !f.link.dial.Dialing? && PhaseOf(f.log.wire).Accepted?
      && f.log.negotiated != [] && t.from == OpenSent
    case Established =>
      && Linked(f) && !f.link.dial.Dialing? && PhaseOf(f.log.wire).Accepted?
      && !f.timers.keepAlive.Absent? && t.from == OpenConfirm
  }

  predicate BodyInv(f: Fsm, s: State) {
    match s
    case Disabled => false
    case Idle => !f.link.reader && !f.link.dial.Dialing?
    case Connect => !f.link.reader && f.link.dial.Dialing? && !f.timers.retry.Absent?
    case Active =>
      && !f.link.reader && !f.link.dial.Dialing?
      && (if f.link.conn then f.log.wire == [] else !f.timers.retry.Absent?)
    case OpenSent => Linked(f) && !f.link.dial.Dialing? && PhaseOf(f.log.wire).Opened?
    case _ => Linked(f) && !f.link.dial.Dialing? && PhaseOf(f.log.wire).Accepted? && !f.timers.keepAlive.Absent?
  }

  /** On the way out: only after a receive on closeCh. */
  predicate GoingDown(f: Fsm) {
    match f.pc
    case Offer(t) => t.to == Disabled
    case Await(t) => t.to == Disabled
    case Leaving(to, _) => to == Disabled
    case Report(t, _) => t.to == Disabled
    case _ => f.pc == Exiting || f.pc == Done
  }

  predicate PcInv(f: Fsm) {
    match f.pc
    case Offer(t) => TransitionInv(f, t)
    case Await(t) => TransitionInv(f, t)
    case Body(s) => BodyInv(f, s)
    case Entering => BodyInv(f, Established)
    case Handling => BodyInv(f, Established)
    case Leaving(to, _) => !f.link.conn && !f.link.reader && !f.link.dial.Dialing? && (to == Idle || to == Disabled)
    case Report(t, _) => TransitionInv(f, t) && !f.link.conn && !f.link.dial.Dialing? && Order(t.from) > Order(Active)
    case Exiting => true
    case Done => !f.link.conn && !f.link.reader && !f.link.dial.Dialing?
    case Panicked => AllZero(f.log.negotiated) && f.log.negotiated != []
    case Blocked => false
  }

  predicate BaseInv(f: Fsm) {
    && f.link.orphans == 0
    && (f.link.reader ==> f.link.conn)
    && !f.timers.idleHold.Absent?
    && GoodWire(f.log.wire)
    && (forall i :: 0 <= i < |f.log.earlier| ==> GoodWire(f.log.earlier[i]))
    && (f.timers.keepAlive.Absent? <==> AllZero(f.log.negotiated))
  }

  predicate FsmInv(f: Fsm) {
    && BaseInv(f)
    && (f.sawClose <==> GoingDown(f))
    && PcInv(f)
  }

  lemma NewFsmInv(side: Side)
    ensures FsmInv(NewFsm(side))
  {
  }

  lemma PanicMeansZeroHoldTime(f: Fsm)
    requires FsmInv(f) && f.pc.Panicked?
    ensures |f.log.negotiated| > 0 && f.log.negotiated[0] == 0
  {
  }

  lemma SendNotificationPhase(f: Fsm, n: Notification)
    requires PhaseOf(f.log.wire).Opened? || PhaseOf(f.log.wire).Accepted?
    ensures PhaseOf(SendNotification(f, n).log.wire).Closed?
  {
    PhaseOfAppend(f.log.wire, SentNotification(n));
  }

  lemma GrantKeepsInv(f: Fsm, t: Transition)
    requires FsmInv(f) && f.pc == Await(t) && !f.sawClose
    ensures FsmInv(Granted(f, t))
    ensures Granted(f, t).pc.Panicked? <==> t.to == OpenConfirm && AllZero(f.log.negotiated)
  {
  }

  /** Tearing a connection down re-establishes the invariant from any session state. */
  lemma FailKeepsInv(f: Fsm, from: State, to: State, e: Error)
    requires BaseInv(f) && !f.link.dial.Dialing? && Order(from) > Order(Active)
    requires to == Idle || to == Disabled || (from == OpenSent && to == Active && !f.timers.retry.Absent?)
    requires f.sawClose <==> to == Disabled
    ensures FsmInv(Fail(f, from, to, e))
  {
  }

  lemma RefusingKeepsInv(f: Fsm, from: State, to: State, n: Notification)
    requires BaseInv(f) && !f.link.dial.Dialing? && Order(from) > Order(Active)
    requires PhaseOf(f.log.wire).Opened? || PhaseOf(f.log.wire).Accepted?
    requires to == Idle || to == Disabled
    requires f.sawClose <==> to == Disabled
    ensures FsmInv(Refusing(f, from, to, n))
  {
    SendNotificationPhase(f, n);
    FailKeepsInv(SendNotification(f, n), from, to, NotificationError(n, true));
  }

  lemma DisabledInRunKeepsInv(f: Fsm, t: Transition)
    requires BaseInv(f) && TransitionInv(f, t) && f.sawClose
    ensures FsmInv(DisabledInRun(f, t.from, t.to))
  {
    if PhaseOf(f.log.wire).Opened? || PhaseOf(f.log.wire).Accepted? {
      SendNotificationPhase(f, CEASE);
    }
  }

  lemma SeeCloseKeepsInv(f: Fsm)
    requires FsmInv(f) && Receptive(f)
    ensures FsmInv(SeeClose(f))
  {
    var g := f.(sawClose := true);
    assert BaseInv(g);
    match f.pc
    case Offer(t) => assert TransitionInv(g, t); DisabledInRunKeepsInv(g, t);
    case Await(t) => assert TransitionInv(g, t); DisabledInRunKeepsInv(g, t);
    case Body(s) =>
      if Order(s) > Order(Active) {
        RefusingKeepsInv(g, s, Disabled, CEASE);
      }
    case Report(t, _) =>
  }

  lemma SendOpenKeepsInv(c: Config, f: Fsm, from: State, a: OpenAttempt)
    requires BaseInv(f) && !f.sawClose
    requires f.link.conn && !f.link.reader && f.log.wire == [] && !f.link.dial.Dialing?
    requires from == Connect || from == Active
    ensures FsmInv(SendOpenAndSetHoldTimer(c, f, from, a).fsm)
  {
    PhaseOfAppend(f.log.wire, SentOpen(NewOpenMessage(c.localAS, c.holdTime, c.localId, a.capabilities)));
  }

  lemma NegotiateKeepsInv(c: Config, f: Fsm, remote: u16)
    requires BaseInv(f) && !f.sawClose && Linked(f) && !f.link.dial.Dialing? && PhaseOf(f.log.wire).Accepted?
    ensures FsmInv(Negotiate(c, f, remote))
  {
    NegotiateZeroes(f.log.negotiated, NegotiatedHoldTime(c.holdTime, remote));
  }

  lemma OpenSentKeepsInv(c: Config, f: Fsm, m: Message, verdict: Option<Notification>, writeOk: bool)
    requires FsmInv(f) && f.pc == Body(OpenSent)
    ensures FsmInv(OpenSentReceives(c, f, m, verdict, writeOk).fsm)
  {
    match m
    case Notify(n) => FailKeepsInv(f, OpenSent, Idle, NotificationError(n, false));
    case Open(o) =>
      var invalid := Validate(o, c.localId, c.localAS, c.remoteAS);
      if invalid.Some? {
        SendIfOutKeepsInv(f, invalid.value);
        FailKeepsInv(SendIfOut(f, invalid.value), OpenSent, Idle, invalid.value);
      } else {
        var g := f.(remoteId := o.bgpId);
        assert BaseInv(g);
        if verdict.Some? {
          RefusingKeepsInv(g, OpenSent, Idle, verdict.value);
        } else {
          var h := g.Writing([AcceptedOpen, SentKeepAlive]);
          PhaseOfAppend(f.log.wire, AcceptedOpen);
          PhaseOfAppend(f.log.wire + [AcceptedOpen], SentKeepAlive);
          assert h.log.wire == f.log.wire + [AcceptedOpen] + [SentKeepAlive];
          NegotiateKeepsInv(c, h, o.holdTime);
          FailKeepsInv(h, OpenSent, Idle, OtherError);
        }
      }
    case Update(_) =>
      RefusingKeepsInv(f, OpenSent, Idle, Unexpected(NOTIF_SUBCODE_RX_UNEXPECTED_MESSAGE_OPENSENT, m));
    case KeepAlive =>
      RefusingKeepsInv(f, OpenSent, Idle, Unexpected(NOTIF_SUBCODE_RX_UNEXPECTED_MESSAGE_OPENSENT, m));
  }

  lemma SendIfOutKeepsInv(f: Fsm, e: Error)
    requires BaseInv(f) && (PhaseOf(f.log.wire).Opened? || PhaseOf(f.log.wire).Accepted?)
    ensures BaseInv(SendIfOut(f, e))
  {
    if e.NotificationError? {
      SendNotificationPhase(f, e.notification);
    }
  }

  lemma ReaderErrorKeepsInv(f: Fsm, s: State, e: Error)
    requires FsmInv(f) && AtSession(f) && f.pc == Body(s)
    ensures FsmInv(ReaderErrorIn(f, s, e))
  {
    var h := f.(link := f.link.(reader := false));
    assert BaseInv(h);
    SendIfOutKeepsInv(h, e);
    var g := SendIfOut(h, e);
    if s == OpenSent && !e.NotificationError? {
      FailKeepsInv(g.WithRetry(Armed), s, Active, e);
    } else {
      FailKeepsInv(g, s, Idle, e);
    }
  }

  lemma KeepAliveWritten(f: Fsm, s: State, t: Timer)
    requires FsmInv(f) && AtSession(f) && f.pc == Body(s) && s != OpenSent && !t.Absent?
    ensures FsmInv(f.Writing([SentKeepAlive]).WithKeepAlive(t))
  {
    PhaseOfAppend(f.log.wire, SentKeepAlive);
  }

  lemma KeepAliveKeepsInv(f: Fsm, s: State, writeOk: bool)
    requires FsmInv(f) && AtSession(f) && f.pc == Body(s) && s != OpenSent
    ensures FsmInv(KeepAliveDue(f, s, writeOk))
  {
    KeepAliveWritten(f, s, Drained);
    if !writeOk {
      FailKeepsInv(f.Writing([SentKeepAlive]).WithKeepAlive(Drained), s, Idle, OtherError);
    } else {
      KeepAliveWritten(f, s, Armed);
    }
  }

  lemma SessionReceivesKeepsInv(f: Fsm, m: Message)
    requires FsmInv(f)
    ensures f.pc == Body(OpenConfirm) ==> FsmInv(OpenConfirmReceives(f, m))
    ensures f.pc == Body(Established) ==> FsmInv(EstablishedReceives(f, m).fsm)
  {
    if f.pc == Body(OpenConfirm) {
      OpenConfirmKeepsInv(f, m);
    } else if f.pc == Body(Established) {
      EstablishedKeepsInv(f, m);
    }
  }

  lemma OpenConfirmKeepsInv(f: Fsm, m: Message)
    requires FsmInv(f) && f.pc == Body(OpenConfirm)
    ensures FsmInv(OpenConfirmReceives(f, m))
  {
    if m.Notify? {
      FailKeepsInv(f, OpenConfirm, Idle, NotificationError(m.notification, false));
    } else if !m.KeepAlive? {
      RefusingKeepsInv(f, OpenConfirm, Idle, Unexpected(NOTIF_SUBCODE_RX_UNEXPECTED_MESSAGE_OPENCONFIRM, m));
    }
  }

  lemma EstablishedKeepsInv(f: Fsm, m: Message)
    requires FsmInv(f) && f.pc == Body(Established)
    ensures FsmInv(EstablishedReceives(f, m).fsm)
  {
    if m.Notify? {
      FailKeepsInv(f, Established, Idle, NotificationError(m.notification, false));
    } else if m.Open? {
      RefusingKeepsInv(f, Established, Idle, Unexpected(NOTIF_SUBCODE_RX_UNEXPECTED_MESSAGE_ESTABLISHED, m));
    }
  }

  lemma NegotiateZeroes(s: seq<u16>, t: u16)
    ensures AllZero(s + [t]) <==> AllZero(s) && t == 0
  {
    assert forall i :: 0 <= i < |s| ==> (s + [t])[i] == s[i];
    assert (s + [t])[|s|] == t;
  }

  predicate IsConnecting(e: Event) {
    e.IdleExpired? || e.DialFailed? || e.DialSucceeded? || e.RetryExpired? || e.RetryExpiredConnected? || e.UseConn?
  }

  predicate IsSession(e: Event) {
    e.HoldExpired? || e.KeepAliveExpired? || e.ReaderFailed? || e.Received?
  }

  lemma ConnectingKeepsInv(c: Config, f: Fsm, e: Event)
    requires FsmInv(f) && CanStep(f, e) && IsConnecting(e)
    ensures FsmInv(Step(c, f, e).fsm)
  {
    match e
    case DialSucceeded(a) =>
      SendOpenKeepsInv(c, AdoptConn(f.WithDial(Dialed).WithRetry(StopTimer(f.timers.retry))), Connect, a);
    case RetryExpiredConnected(a) =>
      SendOpenKeepsInv(c, AdoptConn(f.WithDial(Dialed).WithRetry(Drained)), Connect, a);
    case UseConn(a) => SendOpenKeepsInv(c, f, Active, a);
    case _ =>
  }

  lemma SessionKeepsInv(c: Config, f: Fsm, e: Event)
    requires FsmInv(f) && CanStep(f, e) && IsSession(e)
    ensures FsmInv(Step(c, f, e).fsm)
  {
    match e
    case HoldExpired =>
      assert BaseInv(f.WithHold(Drained));
      RefusingKeepsInv(f.WithHold(Drained), f.pc.state, Idle, HOLD_TIMER_EXPIRED);
    case KeepAliveExpired(ok) => KeepAliveKeepsInv(f, f.pc.state, ok);
    case ReaderFailed(err) => ReaderErrorKeepsInv(f, f.pc.state, err);
    case Received(m, verdict, ok) =>
      if f.pc == Body(OpenSent) {
        OpenSentKeepsInv(c, f, m, verdict, ok);
      } else {
        SessionReceivesKeepsInv(f, m);
      }
  }

  /** A timer going off takes nothing away that the invariant needs. */
  lemma TimerFiringKeepsInv(f: Fsm, w: TimerName)
    requires FsmInv(f) && CanStep(f, TimerFires(w))
    ensures FsmInv(FireTimer(f, w))
  {
    var g := FireTimer(f, w);
    assert g == f.(timers := g.timers);
    TimersOnlyChange(f, g);
  }

  /** The invariant asks of the timers only that they exist and that the hold timer can be drained. */
  lemma TimersOnlyChange(f: Fsm, g: Fsm)
    requires FsmInv(f) && g == f.(timers := g.timers)
    requires f.timers.retry.Absent? <==> g.timers.retry.Absent?
    requires f.timers.keepAlive.Absent? <==> g.timers.keepAlive.Absent?
    requires !g.timers.idleHold.Absent?
    requires f.timers.hold.Armed? || f.timers.hold.Fired? ==> g.timers.hold.Armed? || g.timers.hold.Fired?
    ensures FsmInv(g)
  {
    if f.pc.Offer? || f.pc.Await? || f.pc.Report? {
      assert TransitionInv(f, f.pc.t) ==> TransitionInv(g, f.pc.t);
    }
  }

  lemma AfterHandlerKeepsInv(f: Fsm, verdict: Option<Notification>)
    requires FsmInv(f) && f.pc == Handling
    ensures FsmInv(AfterHandler(f, verdict))
  {
    var g := f.(pc := Body(Established));
    assert BaseInv(g);
    if verdict.Some? {
      RefusingKeepsInv(g, Established, Idle, verdict.value);
    }
  }

  lemma CleanupKeepsInv(f: Fsm)
    requires FsmInv(f) && f.pc == Exiting
    ensures FsmInv(Cleanup(f))
  {
  }

  lemma WriterKeepsInv(f: Fsm)
    requires FsmInv(f) && CanStep(f, WriterResetKeepAlive)
    ensures FsmInv(f.WithKeepAlive(ResetTimer(f.timers.keepAlive)))
  {
    TimersOnlyChange(f, f.WithKeepAlive(ResetTimer(f.timers.keepAlive)));
  }

  lemma OnEstablishedKeepsInv(f: Fsm, handler: bool)
    requires FsmInv(f) && f.pc == Entering
    ensures FsmInv(f.(pc := Body(Established), handler := handler))
  {
  }

  lemma OnCloseKeepsInv(f: Fsm)
    requires FsmInv(f) && f.pc.Leaving?
    ensures FsmInv(f.(pc := Report(Transition(Established, f.pc.to), f.pc.error)))
  {
  }

  lemma OtherKeepsInv(c: Config, f: Fsm, e: Event)
    requires FsmInv(f) && CanStep(f, e) && (e.WriterResetKeepAlive? || e.CallOnEstablished? || e.CallOnClose?)
    ensures FsmInv(Step(c, f, e).fsm)
  {
    match e
    case WriterResetKeepAlive => WriterKeepsInv(f);
    case CallOnEstablished(handler) => OnEstablishedKeepsInv(f, handler);
    case CallOnClose => OnCloseKeepsInv(f);
  }

  /** Every local step keeps the invariant. */
  lemma StepKeepsInv(c: Config, f: Fsm, e: Event)
    requires FsmInv(f) && CanStep(f, e)
    ensures FsmInv(Step(c, f, e).fsm)
  {
    if IsConnecting(e) {
      ConnectingKeepsInv(c, f, e);
    } else if IsSession(e) {
      SessionKeepsInv(c, f, e);
    } else if e.CloseSeen? {
      SeeCloseKeepsInv(f);
    } else if e.TimerFires? {
      TimerFiringKeepsInv(f, e.which);
    } else if e.HandlerReturned? {
      AfterHandlerKeepsInv(f, e.verdict);
    } else if e.CleanUp? {
      CleanupKeepsInv(f);
    } else {
      OtherKeepsInv(c, f, e);
    }
  }
}
