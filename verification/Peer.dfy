/**
  The peer goroutine and the FSM goroutines it supervises, as one transition system.

  Every interleaving of the goroutines is a sequence of `Action`s: a local step of one FSM
  goroutine, a step of the peer goroutine, a rendezvous on an unbuffered channel, or the
  environment (time, an incoming connection, a request to stop). A Go `select` is the
  choice between the enabled actions.

  FSM objects live in a heap and the peer's slots hold references, so which channel a
  goroutine addresses is computed as in the program and is not fixed by the model. The
  peer goroutine's remaining work inside one iteration of its loop is an agenda.
  */
module Peer {
  import opened Bytes
  import opened Notifications
  import opened Fsm

  // ----- data

  /** Durations and instants are in nanoseconds, as in Go. */
  const SECOND: nat := 1_000_000_000
  const ERROR_AMNESIA_TIME: nat := 300 * SECOND
  const ERROR_DELAY_MIN_TIME: nat := 60 * SECOND
  const ERROR_DELAY_MAX_TIME: nat := 300 * SECOND

  function Other(i: Side): Side { if i == Out then In else Out }

  /** A Go array indexed by `out` and `in`. */
  datatype Pair<T> = Pair(outgoing: T, incoming: T) {
    function Get(i: Side): T { if i == Out then outgoing else incoming }

    function Set(i: Side, x: T): Pair<T> { if i == Out then this.(outgoing := x) else this.(incoming := x) }
  }

  /** What the peer goroutine still has to do before it is back at its `select`. */
  datatype Op =
    | Handle(i: Side, t: Transition, depth: nat)     // handleStateTransition
    | Disable(i: Side)                               // disableFSM
    | WaitDone(i: Side)                              // inside disableFSM: closeCh closed, waiting for doneCh
    | Send(i: Side, t: Transition)                   // sendTransitionToFSM
    | Collide(i: Side, t: Transition, depth: nat)    // the `select` that races the other FSM
    | EnableOut                                      // enableFSM(out, nil)
    | Damp                                           // updateStartupDelay; inHoldDown = true
    | Finish                                         // the end of run's deferred function

  datatype Agenda = Nil | Then(op: Op, rest: Agenda)

  /** The outcome of the latest collision race since the peer left its `select`. */
  datatype Race = NoRace | KeptOut | KeptIn

  datatype Damping = Damping(
    holdDown: bool,
    delay: nat,                      // startupDelay
    lastError: Option<nat>,          // lastProtoError
    deadline: Option<nat>,           // startupDelayTimer, when armed
    delays: seq<nat>,                // every delay imposed so far
    errorTimes: seq<nat>)            // and when

  datatype Call = Call(id: nat, callback: Callback)

  datatype System = System(
    config: Config,
    heap: seq<Fsm>,
    slots: Pair<Option<nat>>,        // fsms
    recorded: Pair<State>,           // fsmState
    todo: Agenda,
    closing: bool,                   // closeCh is closed
    exiting: bool,                   // run is past its loop
    done: bool,                      // doneCh is closed
    race: Race,
    now: nat,
    damping: Damping,
    calls: seq<Call>)                // every plugin callback so far
  {
    predicate AtLoop() { todo.Nil? && !exiting }

    function Occupant(i: Side): Fsm
      requires slots.Get(i).Some? && slots.Get(i).value < |heap|
    {
      heap[slots.Get(i).value]
    }

    predicate Occupied(i: Side) { slots.Get(i).Some? && slots.Get(i).value < |heap| }

    function WithFsm(id: nat, f: Fsm): System
      requires id < |heap|
    {
      this.(heap := heap[id := f])
    }

    /** enableFSM on an empty slot. */
    function Spawn(i: Side): System {
      this.(heap := heap + [NewFsm(i)], slots := slots.Set(i, Some(|heap|)), recorded := recorded.Set(i, Disabled))
    }

    /** getFSMTransitionCh and getFSMErrorCh: the slot whose channel the FSM addresses. */
    function ChannelOf(id: nat): Side { if slots.outgoing == Some(id) then Out else In }
  }

  /** After newPeer and start. */
  function Init(c: Config): System {
    var s := System(c, [], Pair(None, None), Pair(Disabled, Disabled), Nil, false, false, false, NoRace, 0,
                    Damping(false, 0, None, None, [], []), []);
    if c.passive then s else s.Spawn(Out)
  }

  // ----- the peer goroutine

  predicate Dominant(c: Config, remoteId: u32) {
    c.localId > remoteId || (c.localId == remoteId && c.localAS > c.remoteAS)
  }

  /** handleStateTransition, up to its first blocking operation. */
  function Expand(s: System, i: Side, t: Transition, depth: nat, rest: Agenda): Agenda
    requires s.Occupied(i)
  {
    if t.to == Established then Then(Disable(Other(i)), Then(Send(i, t), rest))
    else if i == In && Order(t.to) < Order(t.from) then Then(Disable(i), Then(EnableOut, rest))
    else if t.to == OpenConfirm then
      match s.recorded.Get(Other(i))
      case Established => Then(Disable(i), rest)
      case OpenConfirm =>
        if Dominant(s.config, s.Occupant(i).remoteId) && i == Out then Then(Collide(i, t, depth), rest)
        else Then(Disable(i), rest)
      case _ => Then(Send(i, t), rest)
    else Then(Send(i, t), rest)
  }

  function Min(a: nat, b: nat): nat { if a < b then a else b }

  /** updateStartupDelay, then inHoldDown = true. */
  function DampPeer(d: Damping, now: nat): Damping {
    var forgotten := d.lastError.Some? && now - d.lastError.value >= ERROR_AMNESIA_TIME;
    var previous := if forgotten then 0 else d.delay;
    var delay := if previous > 0 then Min(2 * previous, ERROR_DELAY_MAX_TIME) else ERROR_DELAY_MIN_TIME;
    Damping(true, delay, Some(now), Some(now + delay), d.delays + [delay], d.errorTimes + [now])
  }

  /** The operation at the head of the agenda needs nobody else. */
  predicate CanPeerStep(s: System) {
    && s.todo.Then?
    && match s.todo.op
       case Handle(i, _, _) => s.Occupied(i)
       case Disable(i) => s.slots.Get(i).Some? ==> s.Occupied(i)
       case WaitDone(i) => s.Occupied(i) && s.Occupant(i).pc == Done
       case EnableOut => true
       case Damp => true
       case Finish => true
       case _ => false
  }

  /** disableFSM up to its wait: closeCh is closed. */
  function StartDisable(s: System, i: Side, rest: Agenda): System
    requires s.Occupied(i)
  {
    s.WithFsm(s.slots.Get(i).value, s.Occupant(i).(closed := true)).(todo := Then(WaitDone(i), rest))
  }

  /** disableFSM after its wait. */
  function FinishDisable(s: System, i: Side, rest: Agenda): System {
    s.(todo := rest, slots := s.slots.Set(i, None), recorded := s.recorded.Set(i, Disabled))
  }

  /** enableFSM(out, nil). */
  function EnableOutgoing(s: System): System {
    if s.config.passive || s.slots.outgoing.Some? then s else s.Spawn(Out)
  }

  function PeerStepOf(s: System): System
    requires CanPeerStep(s)
  {
    var rest := s.todo.rest;
    match s.todo.op
    case Handle(i, t, depth) => s.(todo := Expand(s, i, t, depth, rest))
    case Disable(i) => if s.slots.Get(i).None? then s.(todo := rest) else StartDisable(s, i, rest)
    case WaitDone(i) => FinishDisable(s, i, rest)
    case EnableOut => EnableOutgoing(s.(todo := rest))
    case Damp => s.(todo := rest, damping := DampPeer(s.damping, s.now))
    case Finish => s.(todo := rest, done := true, damping := s.damping.(deadline := None))
  }

  // ----- actions

  datatype Action =
    | Tick(d: nat)                        // time passes
    | StopRequested                       // peer.stop closes closeCh
    | IncomingConnection
    | StartupDelayExpired
    | LoopExits
    | Local(id: nat, event: Event)        // an FSM goroutine on its own
    | ReceiveTransition(id: nat)          // rendezvous: FSM offers a transition to the loop
    | ReceiveError(id: nat)               // rendezvous: FSM reports an error to the loop
    | PeerStep                            // the peer goroutine on its own
    | Grant(id: nat)                      // rendezvous: sendTransitionToFSM
    | GiveUp                              // sendTransitionToFSM or the race see closeCh
    | CollideClose(id: nat)               // rendezvous: the race sends on the other FSM's closeCh
    | CollideReceive(id: nat)             // rendezvous: the race receives the other FSM's transition

  /** A panic in any goroutine ends the process. */
  predicate Crashed(s: System) {
    exists id :: 0 <= id < |s.heap| && s.heap[id].pc.Panicked?
  }

  predicate CanAct(s: System, a: Action) {
    match a
    case Tick(_) => true
    case StopRequested => true
    case IncomingConnection => s.AtLoop()
    case StartupDelayExpired => s.AtLoop() && s.damping.deadline.Some? && s.now >= s.damping.deadline.value
    case LoopExits => s.AtLoop() && s.closing
    case Local(id, e) => id < |s.heap| && CanStep(s.heap[id], e)
    case ReceiveTransition(id) => s.AtLoop() && id < |s.heap| && s.heap[id].pc.Offer?
    case ReceiveError(id) => s.AtLoop() && id < |s.heap| && s.heap[id].pc.Report?
    case PeerStep => CanPeerStep(s)
    case Grant(id) =>
      && s.todo.Then? && s.todo.op.Send? && id < |s.heap|
      && s.heap[id].pc.Await? && s.ChannelOf(id) == s.todo.op.i
    case GiveUp => s.todo.Then? && (s.todo.op.Send? || s.todo.op.Collide?) && s.closing
    case CollideClose(id) =>
      && s.todo.Then? && s.todo.op.Collide? && s.Occupied(Other(s.todo.op.i))
      && s.slots.Get(Other(s.todo.op.i)) == Some(id) && !s.heap[id].closed && Receptive(s.heap[id])
    case CollideReceive(id) =>
      && s.todo.Then? && s.todo.op.Collide? && id < |s.heap|
      && s.heap[id].pc.Offer? && s.ChannelOf(id) == Other(s.todo.op.i)
  }

  predicate Enabled(s: System, a: Action) {
    !Crashed(s) && CanAct(s, a)
  }

  function Tagged(id: nat, call: Option<Callback>): seq<Call> {
    if call.Some? then [Call(id, call.value)] else []
  }

  function Incoming(s: System): System {
    if s.damping.holdDown || s.slots.incoming.Some? || s.recorded.outgoing == Established then s
    else s.Spawn(In).(race := NoRace)
  }

  function EndHoldDown(s: System): System {
    EnableOutgoing(s.(damping := s.damping.(holdDown := false, deadline := None), race := NoRace))
  }

  function ExitLoop(s: System): System {
    s.(exiting := true, race := NoRace, todo := Then(Disable(Out), Then(Disable(In), Then(Finish, Nil))))
  }

  function LocalStep(s: System, id: nat, e: Event): System
    requires id < |s.heap| && CanStep(s.heap[id], e)
  {
    var step := Step(s.config, s.heap[id], e);
    s.WithFsm(id, step.fsm).(calls := s.calls + Tagged(id, step.call))
  }

  /** The FSM's offer was received: it waits for the answer. */
  function Waiting(s: System, id: nat): System
    requires id < |s.heap| && s.heap[id].pc.Offer?
  {
    s.WithFsm(id, s.heap[id].(pc := Await(s.heap[id].pc.t)))
  }

  function TakeTransition(s: System, id: nat): System
    requires id < |s.heap| && s.heap[id].pc.Offer?
  {
    Waiting(s, id).(race := NoRace, todo := Then(Handle(s.ChannelOf(id), s.heap[id].pc.t, 0), Nil))
  }

  /** handleError: a damping error disables both FSMs. */
  function TakeError(s: System, id: nat): System
    requires id < |s.heap| && s.heap[id].pc.Report?
  {
    var r := s.heap[id].pc;
    s.WithFsm(id, s.heap[id].(pc := Offer(r.t)))
    .(race := NoRace,
      todo := if r.error.DampsPeer() then Then(Disable(In), Then(Disable(Out), Then(Damp, Nil))) else Nil)
  }

  function GrantTo(s: System, id: nat, i: Side, t: Transition, rest: Agenda): System
    requires id < |s.heap| && s.heap[id].pc.Await?
  {
    s.WithFsm(id, Granted(s.heap[id], t)).(recorded := s.recorded.Set(i, t.to), todo := rest)
  }

  /** The race is won by closing the other FSM. */
  function CloseOther(s: System, id: nat, i: Side, t: Transition, rest: Agenda): System
    requires id < |s.heap| && Receptive(s.heap[id])
  {
    s.WithFsm(id, SeeClose(s.heap[id])).(race := KeptOut, todo := Then(Disable(Other(i)), Then(Send(i, t), rest)))
  }

  /** The race is lost to a transition of the other FSM, which is handled recursively. */
  function OtherMoved(s: System, id: nat, i: Side, t: Transition, depth: nat, rest: Agenda): System
    requires id < |s.heap| && s.heap[id].pc.Offer?
  {
    var moved := s.heap[id].pc.t;
    Waiting(s, id)
    .(race := if moved.to == Established then KeptIn else KeptOut,
      todo := Then(if moved.to == Established then Disable(i) else Send(i, t),
                   Then(Handle(Other(i), moved, depth + 1), rest)))
  }

  function Apply(s: System, a: Action): System
    requires Enabled(s, a)
  {
    match a
    case Tick(d) => s.(now := s.now + d)
    case StopRequested => s.(closing := true)
    case IncomingConnection => Incoming(s)
    case StartupDelayExpired => EndHoldDown(s)
    case LoopExits => ExitLoop(s)
    case Local(id, e) => LocalStep(s, id, e)
    case ReceiveTransition(id) => TakeTransition(s, id)
    case ReceiveError(id) => TakeError(s, id)
    case PeerStep => PeerStepOf(s)
    case Grant(id) => GrantTo(s, id, s.todo.op.i, s.todo.op.t, s.todo.rest)
    case GiveUp => s.(todo := s.todo.rest)
    case CollideClose(id) => CloseOther(s, id, s.todo.op.i, s.todo.op.t, s.todo.rest)
    case CollideReceive(id) => OtherMoved(s, id, s.todo.op.i, s.todo.op.t, s.todo.op.depth, s.todo.rest)
  }

  // ----- runs

  /** One run: the actions taken and the states in between. */
  datatype Run = Run(actions: seq<Action>, states: seq<System>)

  ghost predicate IsRun(c: Config, r: Run) {
    && |r.states| == |r.actions| + 1
    && r.states[0] == Init(c)
    && forall k :: 0 <= k < |r.actions| ==>
         Enabled(r.states[k], r.actions[k]) && r.states[k + 1] == Apply(r.states[k], r.actions[k])
  }
}
