/**
  What the state functions of a session do about each thing that can happen, written out with
  the numbers of RFC 4271 and RFC 6608: what is written, what is reported, and where the
  goroutine goes. And what they keep: an error that is reported as sent has been sent.
  */
module FsmMeaning {
  import opened Bytes
  import opened Notifications
  import opened Packet
  import opened Fsm
  import opened FsmProofs

  /** The connection is gone, and the way to state `to` leads through the report of e. */
  predicate Down(g: Fsm, from: State, to: State, e: Error) {
    && !g.link.conn && !g.link.reader
    && g.pc == if from == Established then Leaving(to, e) else Report(Transition(from, to), e)
  }

  /** The connection is torn down after a last write, the NOTIFICATION that is also reported. */
  predicate DownWith(f: Fsm, g: Fsm, from: State, to: State, n: Notification) {
    Down(g, from, to, NotificationError(n, true)) && g.log.wire == f.log.wire + [SentNotification(n)]
  }

  predicate IsSessionState(s: State) { s == OpenSent || s == OpenConfirm || s == Established }

  /** The hold timer expired: 4/0. */
  lemma HoldExpiryEnds(c: Config, f: Fsm, s: State)
    requires IsSessionState(s) && f.pc == Body(s) && f.timers.hold.Fired?
    ensures DownWith(f, Step(c, f, HoldExpired).fsm, s, Idle, Notification(4, 0, []))
  {
  }

  /** The peer closes: Cease, 6/0. */
  lemma CloseCeases(f: Fsm, s: State)
    requires IsSessionState(s) && f.pc == Body(s)
    ensures DownWith(f, SeeClose(f), s, Disabled, Notification(6, 0, []))
  {
  }

  /**
    Closed while it asks for a transition, or waits for the answer, the goroutine leaves its
    loop; exactly on a live connection that is past Active it sends Cease first.
    */
  lemma CloseInRunCeasesIff(f: Fsm)
    requires f.pc.Offer? || f.pc.Await?
    ensures var g := SeeClose(f);
            var live := f.pc.t.to != Disabled && f.link.conn && IsSessionState(f.pc.t.from);
            && g.pc == Exiting && g.link == f.link
            && g.log.wire == f.log.wire + if live then [SentNotification(Notification(6, 0, []))] else []
  {
  }

  /** A received NOTIFICATION ends the session; it is reported as received, and nothing is written. */
  lemma NotificationEnds(c: Config, f: Fsm, s: State, n: Notification, verdict: Option<Notification>, ok: bool)
    requires IsSessionState(s) && f.pc == Body(s) && f.link.reader
    ensures var g := Step(c, f, Received(Notify(n), verdict, ok)).fsm;
            Down(g, s, Idle, NotificationError(n, false)) && g.log.wire == f.log.wire
  {
  }

  /** A message the state does not expect: 5/1, 5/2 or 5/3, with the type of the message. */
  lemma UnexpectedEnds(c: Config, f: Fsm, s: State, m: Message, verdict: Option<Notification>, ok: bool)
    requires IsSessionState(s) && f.pc == Body(s) && f.link.reader && !m.Notify?
    requires s == OpenSent ==> !m.Open?
    requires s == OpenConfirm ==> !m.KeepAlive?
    requires s == Established ==> m.Open?
    ensures var code := match m { case Open(_) => 1 case Update(_) => 2 case Notify(_) => 3 case KeepAlive => 4 };
            var subcode := if s == OpenSent then 1 else if s == OpenConfirm then 2 else 3;
            DownWith(f, Step(c, f, Received(m, verdict, ok)).fsm, s, Idle, Notification(5, subcode, [code]))
  {
  }

  /**
    An error of the reader: its NOTIFICATION is sent if it has one to send; the FSM goes to
    Idle, except from OpenSent when the connection broke, where it goes to Active and retries.
    */
  lemma ReaderErrorEnds(c: Config, f: Fsm, s: State, e: Error)
    requires IsSessionState(s) && f.pc == Body(s) && f.link.reader
    ensures var g := Step(c, f, ReaderFailed(e)).fsm;
            && Down(g, s, if s == OpenSent && e.OtherError? then Active else Idle, e)
            && (s == OpenSent && e.OtherError? ==> g.timers.retry.Armed?)
            && g.log.wire == f.log.wire +
                 if e.NotificationError? && e.out then [SentNotification(e.notification)] else []
  {
  }

  /** An OPEN in OpenSent: refused as validation or the plugin says, or answered with a KEEPALIVE. */
  lemma OpenDecided(c: Config, f: Fsm, o: OpenMessage, verdict: Option<Notification>, ok: bool)
    requires f.pc == Body(OpenSent) && Linked(f)
    ensures var g := Step(c, f, Received(Open(o), verdict, ok)).fsm;
            var invalid := Validate(o, c.localId, c.localAS, c.remoteAS);
            if invalid.Some? then
              invalid.value.NotificationError? && invalid.value.out ==>
                DownWith(f, g, OpenSent, Idle, invalid.value.notification)
            else if verdict.Some? then DownWith(f, g, OpenSent, Idle, verdict.value)
            else
              && g.log.wire == f.log.wire + [AcceptedOpen, SentKeepAlive] && g.remoteId == o.bgpId
              && if ok then g.pc == Offer(Transition(OpenSent, OpenConfirm)) else Down(g, OpenSent, Idle, OtherError)
  {
  }

  /** A KEEPALIVE in OpenConfirm asks for Established and restarts the hold timer. */
  lemma KeepAliveConfirms(c: Config, f: Fsm, verdict: Option<Notification>, ok: bool)
    requires f.pc == Body(OpenConfirm) && Linked(f)
    ensures var g := Step(c, f, Received(KeepAlive, verdict, ok)).fsm;
            && g.pc == Offer(Transition(OpenConfirm, Established)) && g.log == f.log && g.link == f.link
            && g.timers.hold.Armed? && g.timers.holdFor == f.holdTime
  {
  }

  /** The keepalive timer: a KEEPALIVE is written, and the timer restarted unless there is no hold time. */
  lemma KeepAliveIsSent(c: Config, f: Fsm, s: State, ok: bool)
    requires (s == OpenConfirm || s == Established) && f.pc == Body(s) && f.timers.keepAlive.Fired?
    ensures var g := Step(c, f, KeepAliveExpired(ok)).fsm;
            && g.log.wire == f.log.wire + [SentKeepAlive]
            && (!ok ==> Down(g, s, Idle, OtherError))
            && (ok ==> g.pc == f.pc && g.link == f.link)
            && (ok ==> (g.timers.keepAlive.Armed? <==> s == OpenConfirm || f.holdTime != 0))
  {
  }

  /** The hold timer is restarted with the hold time, unless that is zero. */
  predicate HoldRestarted(f: Fsm, g: Fsm) {
    if f.holdTime == 0 then g.timers == f.timers
    else g.timers == f.timers.(hold := Armed, holdFor := f.holdTime)
  }

  /** An UPDATE goes to the handler, if there is one; otherwise it only counts as a sign of life. */
  lemma UpdateIsHandled(c: Config, f: Fsm, body: seq<byte>, verdict: Option<Notification>, ok: bool)
    requires f.pc == Body(Established) && Linked(f)
    ensures var step := Step(c, f, Received(Update(body), verdict, ok));
            if f.handler then step.call == Some(OnUpdate) && step.fsm == f.(pc := Handling)
            else step.call == None && step.fsm.pc == f.pc && step.fsm.log == f.log && HoldRestarted(f, step.fsm)
  {
  }

  /** What the handler returns is sent and ends the session; if it returns nothing, the session goes on. */
  lemma HandlerDecides(c: Config, f: Fsm, verdict: Option<Notification>)
    requires f.pc == Handling && Linked(f)
    ensures var g := Step(c, f, HandlerReturned(verdict)).fsm;
            if verdict.Some? then DownWith(f, g, Established, Idle, verdict.value)
            else g.pc == Body(Established) && g.log == f.log && g.link == f.link && HoldRestarted(f, g)
  {
  }

  // ----- errors that are reported as sent have been sent

  predicate EndsWithNotification(w: seq<Wire>) { w != [] && w[|w| - 1].SentNotification? }

  /** The last write is the NOTIFICATION of the error, exactly if the error says that it was sent. */
  predicate SentAsSaid(w: seq<Wire>, e: Error) {
    if e.NotificationError? && e.out then w != [] && w[|w| - 1] == SentNotification(e.notification)
    else !EndsWithNotification(w)
  }

  predicate ReportOk(f: Fsm) {
    match f.pc
    case Leaving(_, e) => SentAsSaid(f.log.wire, e)
    case Report(_, e) => SentAsSaid(f.log.wire, e)
    case Offer(t) => t.from == Disabled ==> t.to == if f.side == In then Active else Idle
    case Await(t) => t.from == Disabled ==> t.to == if f.side == In then Active else Idle
    case _ => true
  }

  /** Until then no NOTIFICATION was written on the connection. */
  lemma QuietSoFar(f: Fsm)
    requires PhaseOf(f.log.wire).Opened? || PhaseOf(f.log.wire).Accepted?
    ensures !EndsWithNotification(f.log.wire)
  {
    GoodWireIffWellOrdered(f.log.wire);
  }

  lemma SessionKeepsReport(c: Config, f: Fsm, e: Event)
    requires FsmInv(f) && CanStep(f, e) && IsSession(e)
    ensures ReportOk(Step(c, f, e).fsm)
  {
    var s := f.pc.state;
    QuietSoFar(f);
    match e
    case HoldExpired => HoldExpiryEnds(c, f, s);
    case KeepAliveExpired(ok) => KeepAliveIsSent(c, f, s, ok);
    case ReaderFailed(err) => ReaderErrorEnds(c, f, s, err);
    case Received(m, verdict, ok) => MessageKeepsReport(c, f, s, m, verdict, ok);
  }

  lemma MessageKeepsReport(c: Config, f: Fsm, s: State, m: Message, verdict: Option<Notification>, ok: bool)
    requires FsmInv(f) && IsSessionState(s) && f.pc == Body(s) && !EndsWithNotification(f.log.wire)
    ensures ReportOk(Step(c, f, Received(m, verdict, ok)).fsm)
  {
    if m.Notify? {
      NotificationEnds(c, f, s, m.notification, verdict, ok);
    } else if s == OpenSent && m.Open? {
      OpenKeepsReport(c, f, m.open, verdict, ok);
    } else if s == OpenConfirm && m.KeepAlive? {
      KeepAliveConfirms(c, f, verdict, ok);
    } else if s != Established || m.Open? {
      UnexpectedEnds(c, f, s, m, verdict, ok);
    }
  }

  lemma OpenKeepsReport(c: Config, f: Fsm, o: OpenMessage, verdict: Option<Notification>, ok: bool)
    requires FsmInv(f) && f.pc == Body(OpenSent) && !EndsWithNotification(f.log.wire)
    ensures ReportOk(Step(c, f, Received(Open(o), verdict, ok)).fsm)
  {
    OpenDecided(c, f, o, verdict, ok);
  }

  lemma CloseKeepsReport(f: Fsm)
    requires FsmInv(f) && Receptive(f) && ReportOk(f)
    ensures ReportOk(SeeClose(f))
  {
    if f.pc.Body? && IsSessionState(f.pc.state) {
      CloseCeases(f, f.pc.state);
    }
  }

  lemma OtherKeepsReport(c: Config, f: Fsm, e: Event)
    requires FsmInv(f) && ReportOk(f) && CanStep(f, e) && !IsSession(e)
    ensures ReportOk(Step(c, f, e).fsm)
  {
    if e.CloseSeen? {
      CloseKeepsReport(f);
    } else if e.HandlerReturned? {
      HandlerDecides(c, f, e.verdict);
    }
  }

  lemma StepKeepsReport(c: Config, f: Fsm, e: Event)
    requires FsmInv(f) && ReportOk(f) && CanStep(f, e)
    ensures ReportOk(Step(c, f, e).fsm)
  {
    if IsSession(e) {
      SessionKeepsReport(c, f, e);
    } else {
      OtherKeepsReport(c, f, e);
    }
  }
}
