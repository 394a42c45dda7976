/**
  Where the mark of an accepted OPEN in the history of a connection comes from: a step of
  the FSM in OpenSent that received an OPEN on that connection, validated it and had the
  plugin agree. And which OPENs are sent.
  */
module PeerWire {
  import opened Bytes
  import opened Notifications
  import opened Packet
  import opened Fsm
  import opened FsmProofs
  import opened Peer
  import opened PeerSafety

  /** What was written on connection n, counting from the first the FSM had. */
  function ConnOf(l: Log, n: nat): seq<Wire> {
    if n < |l.earlier| then l.earlier[n] else if n == |l.earlier| then l.wire else []
  }

  /** An OPEN is received in OpenSent, passes validation and the plugin agrees. */
  predicate Accepts(c: Config, f: Fsm, e: Event) {
    && f.pc == Body(OpenSent)
    && e.Received? && e.m.Open? && e.verdict.None?
    && Validate(e.m.open, c.localId, c.localAS, c.remoteAS).None?
  }

  /** The OPEN of the local router: version, identifier, hold time and AS number are the configured ones. */
  predicate OwnOpen(c: Config, o: OpenMessage) {
    && o.version == 4 && o.bgpId == c.localId && o.holdTime == c.holdTime
    && o.asn == (if c.localAS < 0x1_0000 then c.localAS else 23456)
    && |o.optionalParams| == 1 && o.optionalParams[0].capabilities != []
    && o.optionalParams[0].capabilities[0] == Capability(65, PutU32(c.localAS))
  }

  /** Not the mark of an accepted OPEN, and no OPEN but the router's own. */
  predicate Plain(c: Config, w: Wire) { !w.AcceptedOpen? && (w.SentOpen? ==> OwnOpen(c, w.open)) }

  /** At most one write was added, a plain one. */
  predicate Appends(c: Config, l: Log, l': Log) {
    && l'.earlier == l.earlier
    && (l'.wire == l.wire ||
        (|l'.wire| == |l.wire| + 1 && l'.wire[..|l.wire|] == l.wire && Plain(c, l'.wire[|l.wire|])))
  }

  predicate OnlyOpen(w: seq<Wire>) { |w| == 1 && w[0].SentOpen? }

  /** A new connection was adopted, with at most an OPEN written. */
  predicate Adopts(c: Config, l: Log, l': Log) {
    l'.earlier == l.earlier + [l.wire] && (l'.wire == [] || (OnlyOpen(l'.wire) && Plain(c, l'.wire[0])))
  }

  predicate Unmarked(c: Config, l: Log, l': Log) { Appends(c, l, l') || Adopts(c, l, l') }

  lemma UnmarkedKeeps(c: Config, l: Log, l': Log, n: nat)
    requires Unmarked(c, l, l') && AcceptedOpen in ConnOf(l', n)
    ensures AcceptedOpen in ConnOf(l, n)
  {
    if Appends(c, l, l') && l'.wire != l.wire {
      assert l'.wire == l.wire + [l'.wire[|l.wire|]];
    }
  }

  // ----- one FSM goroutine

  lemma AppendOne(c: Config, l: Log, w: Wire)
    requires Plain(c, w)
    ensures Appends(c, l, l.(wire := l.wire + [w]))
  {
    assert (l.wire + [w])[..|l.wire|] == l.wire;
  }

  /** The OPEN that is written, if it can be. */
  function Opening(c: Config, a: OpenAttempt): Wire {
    SentOpen(NewOpenMessage(c.localAS, c.holdTime, c.localId, a.capabilities))
  }

  lemma SendOpenLog(c: Config, f: Fsm, from: State, a: OpenAttempt)
    ensures var l := SendOpenAndSetHoldTimer(c, f, from, a).fsm.log;
            l == f.log || l == f.log.(wire := f.log.wire + [Opening(c, a)])
    ensures Plain(c, Opening(c, a))
  {
  }

  lemma AdoptLog(c: Config, f: Fsm, a: OpenAttempt)
    ensures Adopts(c, f.log, SendOpenAndSetHoldTimer(c, AdoptConn(f), Connect, a).fsm.log)
  {
    SendOpenLog(c, AdoptConn(f), Connect, a);
    assert [] + [Opening(c, a)] == [Opening(c, a)];
  }

  lemma ConnectingLog(c: Config, f: Fsm, e: Event)
    requires CanStep(f, e) && IsConnecting(e)
    ensures Unmarked(c, f.log, Step(c, f, e).fsm.log)
  {
    match e
    case DialSucceeded(a) => AdoptLog(c, f.WithDial(Dialed).WithRetry(StopTimer(f.timers.retry)), a);
    case RetryExpiredConnected(a) => AdoptLog(c, f.WithDial(Dialed).WithRetry(Drained), a);
    case UseConn(a) =>
      SendOpenLog(c, f, Active, a);
      AppendOne(c, f.log, Opening(c, a));
    case _ =>
  }

  lemma OpenSentLog(c: Config, f: Fsm, m: Message, verdict: Option<Notification>, ok: bool)
    requires f.pc == Body(OpenSent) && !Accepts(c, f, Received(m, verdict, ok))
    ensures Unmarked(c, f.log, OpenSentReceives(c, f, m, verdict, ok).fsm.log)
  {
    match m
    case Open(o) =>
      var invalid := Validate(o, c.localId, c.localAS, c.remoteAS);
      if invalid.Some? {
        if invalid.value.NotificationError? {
          AppendOne(c, f.log, SentNotification(invalid.value.notification));
        }
      } else {
        AppendOne(c, f.log, SentNotification(verdict.value));
      }
    case Notify(_) =>
    case _ => AppendOne(c, f.log, SentNotification(Unexpected(NOTIF_SUBCODE_RX_UNEXPECTED_MESSAGE_OPENSENT, m)));
  }

  lemma LaterLog(c: Config, f: Fsm, m: Message)
    ensures Unmarked(c, f.log, OpenConfirmReceives(f, m).log)
    ensures Unmarked(c, f.log, EstablishedReceives(f, m).fsm.log)
  {
    AppendOne(c, f.log, SentNotification(Unexpected(NOTIF_SUBCODE_RX_UNEXPECTED_MESSAGE_OPENCONFIRM, m)));
    AppendOne(c, f.log, SentNotification(Unexpected(NOTIF_SUBCODE_RX_UNEXPECTED_MESSAGE_ESTABLISHED, m)));
  }

  lemma SessionLog(c: Config, f: Fsm, e: Event)
    requires CanStep(f, e) && IsSession(e) && !Accepts(c, f, e)
    ensures Unmarked(c, f.log, Step(c, f, e).fsm.log)
  {
    match e
    case HoldExpired => AppendOne(c, f.log, SentNotification(HOLD_TIMER_EXPIRED));
    case KeepAliveExpired(_) => AppendOne(c, f.log, SentKeepAlive);
    case ReaderFailed(err) =>
      if err.NotificationError? {
        AppendOne(c, f.log, SentNotification(err.notification));
      }
    case Received(m, verdict, ok) =>
      if f.pc == Body(OpenSent) {
        OpenSentLog(c, f, m, verdict, ok);
      } else {
        LaterLog(c, f, m);
      }
  }

  lemma CloseLog(c: Config, f: Fsm)
    requires Receptive(f)
    ensures Unmarked(c, f.log, SeeClose(f).log)
  {
    AppendOne(c, f.log, SentNotification(CEASE));
  }

  lemma OtherLog(c: Config, f: Fsm, e: Event)
    requires CanStep(f, e) && !IsSession(e) && !IsConnecting(e)
    ensures Unmarked(c, f.log, Step(c, f, e).fsm.log)
  {
    if e.CloseSeen? {
      CloseLog(c, f);
    } else if e.HandlerReturned? && e.verdict.Some? {
      AppendOne(c, f.log, SentNotification(e.verdict.value));
    }
  }

  /** Only an accepted OPEN leaves its mark. */
  lemma StepLog(c: Config, f: Fsm, e: Event)
    requires FsmInv(f) && CanStep(f, e)
    ensures Accepts(c, f, e) || Unmarked(c, f.log, Step(c, f, e).fsm.log)
  {
    if IsConnecting(e) {
      ConnectingLog(c, f, e);
    } else if IsSession(e) {
      if !Accepts(c, f, e) {
        SessionLog(c, f, e);
      }
    } else {
      OtherLog(c, f, e);
    }
  }

  /** And it leaves the mark on the connection in use, on which only the OPEN had been written. */
  lemma AcceptsOnCurrent(c: Config, f: Fsm, e: Event, n: nat)
    requires FsmInv(f) && CanStep(f, e) && Accepts(c, f, e)
    requires AcceptedOpen in ConnOf(Step(c, f, e).fsm.log, n)
    ensures OnlyOpen(f.log.wire)
    ensures n == |f.log.earlier| || AcceptedOpen in ConnOf(f.log, n)
  {
    GoodWireIffWellOrdered(f.log.wire);
    assert Step(c, f, e).fsm.log.earlier == f.log.earlier;
  }

  // ----- the whole peer

  /** The action has FSM `id` accept an OPEN on its connection n, when only the OPEN had been written on it. */
  predicate AcceptsOpenOn(s: System, a: Action, id: nat, n: nat) {
    && a.Local? && a.id == id && id < |s.heap| && Accepts(s.config, s.heap[id], a.event)
    && |s.heap[id].log.earlier| == n && OnlyOpen(s.heap[id].log.wire)
  }

  predicate Marked(s: System, id: nat, n: nat) {
    id < |s.heap| && AcceptedOpen in ConnOf(s.heap[id].log, n)
  }

  lemma LocalMark(s: System, a: Action, id: nat, n: nat)
    requires FsmsOk(s) && Enabled(s, a) && a.Local? && Marked(Apply(s, a), id, n)
    ensures Marked(s, id, n) || AcceptsOpenOn(s, a, id, n)
  {
    if a.id == id {
      var f, g := s.heap[id], Step(s.config, s.heap[id], a.event).fsm;
      assert Apply(s, a).heap[id] == g;
      StepLog(s.config, f, a.event);
      if Accepts(s.config, f, a.event) {
        AcceptsOnCurrent(s.config, f, a.event, n);
      } else {
        UnmarkedKeeps(s.config, f.log, g.log, n);
      }
    }
  }

  lemma GrantLog(c: Config, f: Fsm, t: Transition)
    requires f.pc.Await?
    ensures Unmarked(c, f.log, Granted(f, t).log)
  {
    AppendOne(c, f.log, SentNotification(CEASE));
  }

  lemma HandOverMark(s: System, a: Action, id: nat, n: nat)
    requires Enabled(s, a) && (a.Grant? || a.CollideClose?) && Marked(Apply(s, a), id, n)
    ensures Marked(s, id, n)
  {
    var f := s.heap[a.id];
    if a.id == id {
      if a.Grant? {
        GrantLog(s.config, f, s.todo.op.t);
      } else {
        CloseLog(s.config, f);
      }
      UnmarkedKeeps(s.config, f.log, Apply(s, a).heap[id].log, n);
    }
  }

  /** The peer touches no FSM's history, and a new FSM has none. */
  lemma PeerMark(s: System, a: Action, id: nat, n: nat)
    requires Enabled(s, a) && !a.Local? && !a.Grant? && !a.CollideClose? && Marked(Apply(s, a), id, n)
    ensures Marked(s, id, n)
  {
    if a.PeerStep? {
      PeerStepMark(s, id, n);
    }
  }

  lemma PeerStepMark(s: System, id: nat, n: nat)
    requires CanPeerStep(s) && Marked(PeerStepOf(s), id, n)
    ensures Marked(s, id, n)
  {
  }

  lemma ActionMark(s: System, a: Action, id: nat, n: nat)
    requires FsmsOk(s) && Enabled(s, a) && Marked(Apply(s, a), id, n)
    ensures Marked(s, id, n) || AcceptsOpenOn(s, a, id, n)
  {
    if a.Local? {
      LocalMark(s, a, id, n);
    } else if a.Grant? || a.CollideClose? {
      HandOverMark(s, a, id, n);
    } else {
      PeerMark(s, a, id, n);
    }
  }

  // ----- which OPENs are sent

  ghost predicate Own(c: Config, w: seq<Wire>) {
    forall i :: 0 <= i < |w| ==> w[i].SentOpen? ==> OwnOpen(c, w[i].open)
  }

  ghost predicate OwnLog(c: Config, l: Log) {
    Own(c, l.wire) && forall n :: 0 <= n < |l.earlier| ==> Own(c, l.earlier[n])
  }

  lemma UnmarkedKeepsOwn(c: Config, l: Log, l': Log)
    requires Unmarked(c, l, l') && OwnLog(c, l)
    ensures OwnLog(c, l')
  {
    if Appends(c, l, l') && l'.wire != l.wire {
      assert l'.wire == l.wire + [l'.wire[|l.wire|]];
    }
  }

  lemma AcceptingKeepsOwn(c: Config, f: Fsm, e: Event)
    requires CanStep(f, e) && Accepts(c, f, e) && OwnLog(c, f.log)
    ensures OwnLog(c, Step(c, f, e).fsm.log)
  {
    var l := Step(c, f, e).fsm.log;
    assert l.earlier == f.log.earlier && l.wire == f.log.wire + [AcceptedOpen, SentKeepAlive];
  }

  lemma StepKeepsOwn(c: Config, f: Fsm, e: Event)
    requires FsmInv(f) && CanStep(f, e) && OwnLog(c, f.log)
    ensures OwnLog(c, Step(c, f, e).fsm.log)
  {
    StepLog(c, f, e);
    if Accepts(c, f, e) {
      AcceptingKeepsOwn(c, f, e);
    } else {
      UnmarkedKeepsOwn(c, f.log, Step(c, f, e).fsm.log);
    }
  }

  ghost predicate OpensOk(s: System) {
    forall id :: 0 <= id < |s.heap| ==> OwnLog(s.config, s.heap[id].log)
  }

  lemma HandOverKeepsOpens(s: System, a: Action)
    requires OpensOk(s) && Enabled(s, a) && (a.Grant? || a.CollideClose?)
    ensures OpensOk(Apply(s, a))
  {
    var f := s.heap[a.id];
    if a.Grant? {
      GrantLog(s.config, f, s.todo.op.t);
    } else {
      CloseLog(s.config, f);
    }
    UnmarkedKeepsOwn(s.config, f.log, Apply(s, a).heap[a.id].log);
  }

  lemma PeerStepKeepsOpens(s: System)
    requires OpensOk(s) && CanPeerStep(s)
    ensures OpensOk(PeerStepOf(s))
  {
  }

  lemma OtherKeepsOpens(s: System, a: Action)
    requires OpensOk(s) && Enabled(s, a) && !a.Local? && !a.Grant? && !a.CollideClose? && !a.PeerStep?
    ensures OpensOk(Apply(s, a))
  {
  }

  lemma ActionKeepsOpens(s: System, a: Action)
    requires FsmsOk(s) && OpensOk(s) && Enabled(s, a)
    ensures OpensOk(Apply(s, a))
  {
    if a.Local? {
      StepKeepsOwn(s.config, s.heap[a.id], a.event);
    } else if a.Grant? || a.CollideClose? {
      HandOverKeepsOpens(s, a);
    } else if a.PeerStep? {
      PeerStepKeepsOpens(s);
    } else {
      OtherKeepsOpens(s, a);
    }
  }
}
