/**
  One FSM goroutine as a state machine. A step is what the goroutine does between two
  points at which it may block: one branch of a `select`, one plugin callback, one
  rendezvous with the peer goroutine. Which branch of a `select` runs, what the network
  delivers and what the plugin answers are the parameters of an `Event`.

  Missing resources are made visible: a state function that is entered without a timer,
  connection, reader or pending dial it uses moves the goroutine to `Panicked`, and a
  receive that could never complete moves it to `Blocked`.
  */
module Fsm {
  import opened Bytes
  import opened Notifications
  import opened Packet

  datatype State = Disabled | Idle | Connect | Active | OpenSent | OpenConfirm | Established

  /** The numeric order of the states. */
  function Order(s: State): nat {
    match s
    case Disabled => 0
    case Idle => 1
    case Connect => 2
    case Active => 3
    case OpenSent => 4
    case OpenConfirm => 5
    case Established => 6
  }

  datatype Transition = Transition(from: State, to: State)

  datatype Side = Out | In

  datatype Config = Config(localId: u32, localAS: u32, remoteAS: u32, holdTime: u16, passive: bool)

  /** A Go timer: not created, running, expired with the tick unread, or stopped or read. */
  datatype Timer = Absent | Armed | Fired | Drained

  function StopTimer(t: Timer): Timer { if t.Armed? then Drained else t }

  function ResetTimer(t: Timer): Timer { if t.Fired? then t else Armed }

  /** No dial yet, a dial whose result is outstanding, a dial whose result was received. */
  datatype Dial = NoDial | Dialing | Dialed

  /** What one FSM goroutine does with one connection, in order. */
  datatype Wire =
    | SentOpen(open: OpenMessage)
    | AcceptedOpen
    | SentKeepAlive
    | SentNotification(notification: Notification)

  datatype Callback = GetCapabilities | OnOpenMessage | OnEstablished | OnUpdate | OnClose

  /** Where the goroutine is. */
  datatype Pc =
    | Offer(t: Transition)                    // `run`: sending t to the peer, or close
    | Await(t: Transition)                    // `run`: t was sent, waiting for the answer, or close
    | Body(state: State)                      // at the `select` of the state function
    | Entering                                // in `established`, before OnEstablished
    | Handling                                // in `established`, inside the update handler
    | Leaving(to: State, error: Error)        // in `established`, before OnClose
    | Report(t: Transition, error: Error)     // `run`: sending an error to the peer, or close
    | Exiting                                 // `run` returned, before the deferred cleanup
    | Done
    | Panicked
    | Blocked

  /** The connection and the goroutines around it. */
  datatype Link = Link(
    conn: bool,                    // conn is non-nil
    reader: bool,                  // the current reader goroutine is running
    orphans: nat,                  // earlier reader goroutines still running
    dial: Dial)

  datatype Timers = Timers(
    retry: Timer,
    hold: Timer,
    keepAlive: Timer,
    idleHold: Timer,
    holdFor: nat)                  // the seconds the hold timer was last started with

  const LONG_HOLD_TIME: nat := 240

  /** The history of the goroutine. */
  datatype Log = Log(
    wire: seq<Wire>,               // the current connection
    earlier: seq<seq<Wire>>,       // the connections before it
    negotiated: seq<u16>)          // hold times negotiated so far

  datatype Fsm = Fsm(
    side: Side,
    pc: Pc,
    closed: bool,                  // closeCh is closed
    sawClose: bool,                // a receive on closeCh has completed
    remoteId: u32,
    handler: bool,                 // OnEstablished returned an update handler
    holdTime: u16,
    link: Link,
    timers: Timers,
    log: Log)
  {
    function WithHold(t: Timer): Fsm { this.(timers := timers.(hold := t)) }

    function StartHold(seconds: nat): Fsm { this.(timers := timers.(hold := Armed, holdFor := seconds)) }

    function WithRetry(t: Timer): Fsm { this.(timers := timers.(retry := t)) }

    function WithKeepAlive(t: Timer): Fsm { this.(timers := timers.(keepAlive := t)) }

    function WithDial(d: Dial): Fsm { this.(link := link.(dial := d)) }

    function Writing(w: seq<Wire>): Fsm { this.(log := log.(wire := log.wire + w)) }
  }

  function NewFsm(side: Side): Fsm {
    Fsm(side, Offer(Transition(Disabled, if side == In then Active else Idle)),
        false, false, 0, false, 0,
        Link(side == In, false, 0, NoDial), Timers(Absent, Absent, Absent, Armed, 0), Log([], [], []))
  }

  /** A step's effect: the new state and the plugin callback made, if any. */
  datatype Effect = Effect(fsm: Fsm, call: Option<Callback>)

  // ----- helpers of the state functions

  function CleanupConnAndReader(f: Fsm): Fsm {
    f.(link := f.link.(conn := false, reader := false))
  }

  function SendNotification(f: Fsm, n: Notification): Fsm {
    f.Writing([SentNotification(n)])
  }

  function SendIfOut(f: Fsm, e: Error): Fsm {
    if e.NotificationError? && e.out then SendNotification(f, e.notification) else f
  }

  /** `if !Stop() { <-C }; Reset()`: the receive blocks unless an unread tick is there. */
  function DrainAndResetHoldTimer(f: Fsm): Fsm {
    match f.timers.hold
    case Absent => f.(pc := Panicked)
    case Drained => f.(pc := Blocked)
    case _ => f.StartHold(f.holdTime)
  }

  function StartReading(f: Fsm): Fsm {
    var l := f.link;
    f.(link := l.(orphans := if l.reader then l.orphans + 1 else l.orphans, reader := true))
  }

  function AdoptConn(f: Fsm): Fsm {
    f.(link := f.link.(conn := true), log := f.log.(earlier := f.log.earlier + [f.log.wire], wire := []))
  }

  const CEASE := Notification(NOTIF_CODE_CEASE, 0, [])
  const HOLD_TIMER_EXPIRED := Notification(NOTIF_CODE_HOLD_TIMER_EXPIRED, 0, [])

  function Unexpected(subcode: byte, m: Message): Notification {
    Notification(NOTIF_CODE_FSM_ERR, subcode, [MessageType(m)])
  }

  /** The state function of `from` returned without an error. */
  function Return(f: Fsm, from: State, to: State): Fsm {
    f.(pc := Offer(Transition(from, to)))
  }

  /** The connection of `from` is torn down and the state function returned an error. */
  function Fail(f: Fsm, from: State, to: State, e: Error): Fsm {
    var g := CleanupConnAndReader(f).WithHold(StopTimer(f.timers.hold));
    var h := if from == OpenSent then g else g.WithKeepAlive(StopTimer(f.timers.keepAlive));
    h.(pc := if from == Established then Leaving(to, e) else Report(Transition(from, to), e))
  }

  /** Tear down after sending a NOTIFICATION. */
  function Refusing(f: Fsm, from: State, to: State, n: Notification): Fsm {
    Fail(SendNotification(f, n), from, to, NotificationError(n, true))
  }

  /** The plugin's capabilities and whether the write of the OPEN succeeds. */
  datatype OpenAttempt = OpenAttempt(capabilities: seq<Capability>, writeOk: bool)

  function SendOpenAndSetHoldTimer(c: Config, f: Fsm, from: State, a: OpenAttempt): Effect {
    var o := NewOpenMessage(c.localAS, c.holdTime, c.localId, a.capabilities);
    var g := if Encode(Open(o)).Ok? then f.Writing([SentOpen(o)]) else f;
    Effect(
      if Encode(Open(o)).Ok? && a.writeOk then Return(StartReading(g.StartHold(LONG_HOLD_TIME)), from, OpenSent)
      else Return(g, from, Idle),
      Some(GetCapabilities))
  }

  // ----- rendezvous

  /** What the state function dereferences is there. */
  predicate Equipped(f: Fsm, s: State) {
    match s
    case Disabled => true
    case Idle => !f.timers.idleHold.Absent?
    case Connect => !f.timers.retry.Absent? && f.link.dial.Dialing?
    case Active => f.link.conn || !f.timers.retry.Absent?
    case OpenSent => f.link.conn && f.link.reader && !f.timers.hold.Absent?
    case _ => f.link.conn && f.link.reader && !f.timers.hold.Absent? && !f.timers.keepAlive.Absent?
  }

  /** The peer answered with t. */
  function Granted(f: Fsm, t: Transition): Fsm
    requires f.pc.Await?
  {
    if t.to == Disabled then DisabledInRun(f, t.from, f.pc.t.to)
    else if !Equipped(f, t.to) then f.(pc := Panicked)
    else if t.to == Established then f.(pc := Entering)
    else f.(pc := Body(t.to))
  }

  /** `run` leaves its loop; a disabled forward transition on a live connection sends Cease. */
  function DisabledInRun(f: Fsm, from: State, toBefore: State): Fsm {
    var live := toBefore != Disabled && f.link.conn && Order(from) > Order(Active);
    var g := if live then SendNotification(f, CEASE) else f;
    g.(pc := Exiting)
  }

  /** At a `select` with a branch that receives on closeCh. */
  predicate Receptive(f: Fsm) {
    match f.pc
    case Offer(_) => true
    case Await(_) => true
    case Body(s) => s != Disabled && !(s == Active && f.link.conn)
    case Report(_, _) => true
    case _ => false
  }

  /** The branch taken when the receive on closeCh completes. */
  function SeeClose(f: Fsm): Fsm
    requires Receptive(f)
  {
    var g := f.(sawClose := true);
    match f.pc
    case Offer(t) => DisabledInRun(g, t.from, t.to)
    case Await(t) => DisabledInRun(g, t.from, t.to)
    case Body(s) =>
      (match s
       case Connect => Return(g.WithDial(Dialed).WithRetry(StopTimer(f.timers.retry)), s, Disabled)
       case OpenSent => Refusing(g, s, Disabled, CEASE)
       case OpenConfirm => Refusing(g, s, Disabled, CEASE)
       case Established => Refusing(g, s, Disabled, CEASE)
       case _ => Return(g, s, Disabled))
    case Report(t, _) => Return(g, t.from, Disabled)
  }

  // ----- local steps

  datatype TimerName = RetryTimer | HoldTimer | KeepAliveTimer | IdleHoldTimer

  datatype Event =
    | CloseSeen
    | TimerFires(which: TimerName)
    | IdleExpired
    | DialFailed
    | DialSucceeded(attempt: OpenAttempt)
    | RetryExpired
    | RetryExpiredConnected(attempt: OpenAttempt)   // the dial won the race with the retry timer
    | UseConn(attempt: OpenAttempt)                 // active with the accepted connection
    | HoldExpired
    | KeepAliveExpired(writeOk: bool)
    | ReaderFailed(error: Error)
    | Received(m: Message, verdict: Option<Notification>, writeOk: bool)
    | HandlerReturned(verdict: Option<Notification>)
    | WriterResetKeepAlive
    | CallOnEstablished(handler: bool)
    | CallOnClose
    | CleanUp

  predicate AtSession(f: Fsm) {
    f.pc == Body(OpenSent) || f.pc == Body(OpenConfirm) || f.pc == Body(Established)
  }

  predicate CanStep(f: Fsm, e: Event) {
    match e
    case CloseSeen => f.closed && Receptive(f)
    case TimerFires(w) =>
      (match w
       case RetryTimer => f.timers.retry.Armed?
       case HoldTimer => f.timers.hold.Armed?
       case KeepAliveTimer => f.timers.keepAlive.Armed?
       case IdleHoldTimer => f.timers.idleHold.Armed?)
    case IdleExpired => f.pc == Body(Idle) && f.timers.idleHold.Fired?
    case DialFailed => f.pc == Body(Connect) && f.link.dial.Dialing?
    case DialSucceeded(_) => f.pc == Body(Connect) && f.link.dial.Dialing?
    case RetryExpired => (f.pc == Body(Connect) || (f.pc == Body(Active) && !f.link.conn)) && f.timers.retry.Fired?
    case RetryExpiredConnected(_) => f.pc == Body(Connect) && f.timers.retry.Fired? && f.link.dial.Dialing?
    case UseConn(_) => f.pc == Body(Active) && f.link.conn
    case HoldExpired => AtSession(f) && f.timers.hold.Fired?
    case KeepAliveExpired(_) => (f.pc == Body(OpenConfirm) || f.pc == Body(Established)) && f.timers.keepAlive.Fired?
    case ReaderFailed(_) => AtSession(f) && f.link.reader
    case Received(_, _, _) => AtSession(f) && f.link.reader
    case HandlerReturned(_) => f.pc == Handling
    case WriterResetKeepAlive => f.pc == Entering || f.pc == Body(Established) || f.pc == Handling
    case CallOnEstablished(_) => f.pc == Entering
    case CallOnClose => f.pc.Leaving?
    case CleanUp => f.pc == Exiting
  }

  /** openSent, a message from the reader. */
  function OpenSentReceives(c: Config, f: Fsm, m: Message, verdict: Option<Notification>, writeOk: bool): Effect {
    match m
    case Notify(n) => Effect(Fail(f, OpenSent, Idle, NotificationError(n, false)), None)
    case Open(o) =>
      var invalid := Validate(o, c.localId, c.localAS, c.remoteAS);
      if invalid.Some? then Effect(Fail(SendIfOut(f, invalid.value), OpenSent, Idle, invalid.value), None)
      else
        var g := f.(remoteId := o.bgpId);
        if verdict.Some? then Effect(Refusing(g, OpenSent, Idle, verdict.value), Some(OnOpenMessage))
        else
          var h := g.Writing([AcceptedOpen, SentKeepAlive]);
          Effect(if writeOk then Negotiate(c, h, o.holdTime) else Fail(h, OpenSent, Idle, OtherError),
                 Some(OnOpenMessage))
    case _ => Effect(Refusing(f, OpenSent, Idle, Unexpected(NOTIF_SUBCODE_RX_UNEXPECTED_MESSAGE_OPENSENT, m)), None)
  }

  function NegotiatedHoldTime(local: u16, remote: u16): u16 {
    if local < remote then local else remote
  }

  /** openSent's last branch: timers are started only for a non-zero hold time. */
  function Negotiate(c: Config, f: Fsm, remote: u16): Fsm {
    var t := NegotiatedHoldTime(c.holdTime, remote);
    var g := Return(f.(holdTime := t, log := f.log.(negotiated := f.log.negotiated + [t])), OpenSent, OpenConfirm);
    if t != 0 then DrainAndResetHoldTimer(g.WithKeepAlive(Armed)) else g
  }

  /** openConfirm, a message from the reader. The hold timer is reset unconditionally. */
  function OpenConfirmReceives(f: Fsm, m: Message): Fsm {
    match m
    case KeepAlive => DrainAndResetHoldTimer(Return(f, OpenConfirm, Established))
    case Notify(n) => Fail(f, OpenConfirm, Idle, NotificationError(n, false))
    case _ => Refusing(f, OpenConfirm, Idle, Unexpected(NOTIF_SUBCODE_RX_UNEXPECTED_MESSAGE_OPENCONFIRM, m))
  }

  /** established: the hold timer is restarted unless the negotiated hold time is zero. */
  function RestartHoldTimer(f: Fsm): Fsm {
    if f.holdTime != 0 then DrainAndResetHoldTimer(f) else f
  }

  /** established, a message from the reader. */
  function EstablishedReceives(f: Fsm, m: Message): Effect {
    match m
    case Notify(n) => Effect(Fail(f, Established, Idle, NotificationError(n, false)), None)
    case KeepAlive => Effect(RestartHoldTimer(f), None)
    case Update(_) =>
      if f.handler then Effect(f.(pc := Handling), Some(OnUpdate)) else Effect(RestartHoldTimer(f), None)
    case Open(_) =>
      Effect(Refusing(f, Established, Idle, Unexpected(NOTIF_SUBCODE_RX_UNEXPECTED_MESSAGE_ESTABLISHED, m)), None)
  }

  /** A session state function gets an error from the reader, which has returned. */
  function ReaderErrorIn(f: Fsm, s: State, e: Error): Fsm {
    var g := SendIfOut(f.(link := f.link.(reader := false)), e);
    if s == OpenSent && !e.NotificationError? then Fail(g.WithRetry(Armed), s, Active, e)
    else Fail(g, s, Idle, e)
  }

  function KeepAliveDue(f: Fsm, s: State, writeOk: bool): Fsm {
    var g := f.Writing([SentKeepAlive]).WithKeepAlive(Drained);
    if !writeOk then Fail(g, s, Idle, OtherError)
    else if s == Established && f.holdTime == 0 then g
    else g.WithKeepAlive(Armed)
  }

  function FireTimer(f: Fsm, w: TimerName): Fsm {
    match w
    case RetryTimer => f.WithRetry(Fired)
    case HoldTimer => f.WithHold(Fired)
    case KeepAliveTimer => f.WithKeepAlive(Fired)
    case IdleHoldTimer => f.(timers := f.timers.(idleHold := Fired))
  }

  /** The update handler returned, possibly with a NOTIFICATION to send. */
  function AfterHandler(f: Fsm, verdict: Option<Notification>): Fsm {
    var g := f.(pc := Body(Established));
    if verdict.Some? then Refusing(g, Established, Idle, verdict.value) else RestartHoldTimer(g)
  }

  /** The deferred cleanup: the result of a pending dial is awaited, then everything is released. */
  function Cleanup(f: Fsm): Fsm {
    var t := f.timers;
    CleanupConnAndReader(f.WithDial(if f.link.dial.NoDial? then NoDial else Dialed))
    .(pc := Done,
      timers := t.(retry := StopTimer(t.retry), hold := StopTimer(t.hold),
                   keepAlive := StopTimer(t.keepAlive), idleHold := StopTimer(t.idleHold)))
  }

  function Step(c: Config, f: Fsm, e: Event): Effect
    requires CanStep(f, e)
  {
    match e
    case CloseSeen => Effect(SeeClose(f), None)
    case TimerFires(w) => Effect(FireTimer(f, w), None)
    case IdleExpired =>
      Effect(Return(f.(timers := f.timers.(idleHold := Armed, retry := Armed)).WithDial(Dialing), Idle, Connect), None)
    case DialFailed =>
      Effect(Return(f.WithDial(Dialed).WithRetry(StopTimer(f.timers.retry)), Connect, Idle), None)
    case DialSucceeded(a) =>
      SendOpenAndSetHoldTimer(c, AdoptConn(f.WithDial(Dialed).WithRetry(StopTimer(f.timers.retry))), Connect, a)
    case RetryExpired =>
      var g := f.WithRetry(Armed).WithDial(Dialing);
      Effect(if f.pc == Body(Connect) then g else Return(g, Active, Connect), None)
    case RetryExpiredConnected(a) =>
      SendOpenAndSetHoldTimer(c, AdoptConn(f.WithDial(Dialed).WithRetry(Drained)), Connect, a)
    case UseConn(a) => SendOpenAndSetHoldTimer(c, f, Active, a)
    case HoldExpired =>
      Effect(Refusing(f.WithHold(Drained), f.pc.state, Idle, HOLD_TIMER_EXPIRED), None)
    case KeepAliveExpired(ok) => Effect(KeepAliveDue(f, f.pc.state, ok), None)
    case ReaderFailed(err) => Effect(ReaderErrorIn(f, f.pc.state, err), None)
    case Received(m, verdict, ok) =>
      if f.pc == Body(OpenSent) then OpenSentReceives(c, f, m, verdict, ok)
      else if f.pc == Body(OpenConfirm) then Effect(OpenConfirmReceives(f, m), None)
      else EstablishedReceives(f, m)
    case HandlerReturned(verdict) => Effect(AfterHandler(f, verdict), None)
    case WriterResetKeepAlive =>
      Effect(if f.holdTime != 0 then f.WithKeepAlive(ResetTimer(f.timers.keepAlive)) else f, None)
    case CallOnEstablished(handler) => Effect(f.(pc := Body(Established), handler := handler), Some(OnEstablished))
    case CallOnClose => Effect(f.(pc := Report(Transition(Established, f.pc.to), f.pc.error)), Some(OnClose))
    case CleanUp => Effect(Cleanup(f), None)
  }
}
