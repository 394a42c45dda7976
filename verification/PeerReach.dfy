/**
  Runs that do happen: how a session is brought up step by step, for every configuration,
  and what becomes of a hold time of zero: the panic, and a session that its hold timer ends.
  */
module PeerReach {
  import opened Notifications
  import opened Packet
  import opened PacketProofs
  import opened Fsm
  import opened Peer
  import opened PeerHold
  import opened PeerRuns

  /** At the loop, with FSM `id` in slot i offering t. */
  predicate Offering(s: System, id: nat, i: Side, t: Transition) {
    && s.AtLoop() && id < |s.heap| && s.heap[id].pc == Offer(t)
    && s.slots.Get(i) == Some(id) && s.ChannelOf(id) == i && !Crashed(s)
  }

  /** The peer passes t on without further ado. */
  predicate Plain(s: System, i: Side, t: Transition) {
    && t.to != Disabled && t.to != Established
    && (i == In ==> Order(t.to) >= Order(t.from))
    && (t.to == OpenConfirm ==> s.recorded.Get(Other(i)) != OpenConfirm && s.recorded.Get(Other(i)) != Established)
  }

  function AfterGrant(s: System, id: nat, i: Side, t: Transition): System
    requires id < |s.heap|
  {
    s.(heap := s.heap[id := s.heap[id].(pc := if Equipped(s.heap[id], t.to) then Body(t.to) else Panicked)],
       recorded := s.recorded.Set(i, t.to), race := NoRace)
  }

  lemma NotCrashed(s: System, s': System, id: nat)
    requires !Crashed(s) && |s'.heap| == |s.heap| && id < |s.heap| && !s'.heap[id].pc.Panicked?
    requires forall j :: 0 <= j < |s.heap| && j != id ==> s'.heap[j] == s.heap[j]
    ensures !Crashed(s')
  {
  }

  /** The loop receives the offer and passes it on. */
  lemma HandedOn(c: Config, s: System, id: nat, i: Side, t: Transition) returns (s': System)
    requires Reachable(c, s) && Offering(s, id, i, t) && Plain(s, i, t)
    ensures Reachable(c, s') && !Crashed(s')
    ensures s' == s.(heap := s.heap[id := s.heap[id].(pc := Await(t))], race := NoRace, todo := Then(Send(i, t), Nil))
  {
    var s1 := Apply(s, ReceiveTransition(id));
    ActionStaysReachable(c, s, ReceiveTransition(id));
    NotCrashed(s, s1, id);
    s' := Apply(s1, PeerStep);
    ActionStaysReachable(c, s1, PeerStep);
    NotCrashed(s1, s', id);
  }

  lemma GrantNext(s: System, id: nat, i: Side, t: Transition, rest: Agenda) returns (s': System)
    requires !Crashed(s) && id < |s.heap| && s.heap[id].pc == Await(t) && t.to != Disabled
    requires s.ChannelOf(id) == i && s.todo == Then(Send(i, t), rest)
    ensures BusyPath(s, s') && s' == GrantTo(s, id, i, t, rest)
  {
    assert CanAct(s, Grant(id));
    PathStep(s, Grant(id));
    s' := Apply(s, Grant(id));
  }

  /** Offer, hand on, grant: three actions. */
  lemma GrantReached(c: Config, s: System, id: nat, i: Side, t: Transition)
    requires Reachable(c, s) && Offering(s, id, i, t) && Plain(s, i, t)
    ensures Reachable(c, AfterGrant(s, id, i, t))
  {
    var s2 := HandedOn(c, s, id, i, t);
    var s3 := GrantNext(s2, id, i, t, Nil);
    PathStaysReachable(c, s2, s3);
    GrantAfterHandOn(s, s2, id, i, t);
  }

  lemma GrantAfterHandOn(s: System, s': System, id: nat, i: Side, t: Transition)
    requires id < |s.heap| && s.todo.Nil? && t.to != Disabled && t.to != Established
    requires s' == s.(heap := s.heap[id := s.heap[id].(pc := Await(t))], race := NoRace, todo := Then(Send(i, t), Nil))
    ensures GrantTo(s', id, i, t, Nil) == AfterGrant(s, id, i, t)
  {
    assert GrantTo(s', id, i, t, Nil).heap == AfterGrant(s, id, i, t).heap;
  }

  /** At the loop, with FSM `id` of slot i in state st. */
  predicate At(c: Config, s: System, id: nat, i: Side, st: State) {
    && s.config == c && s.AtLoop() && !s.closing && !Crashed(s) && !s.damping.holdDown
    && id < |s.heap| && s.heap[id].pc == Body(st) && !s.heap[id].closed
    && s.slots.Get(i) == Some(id) && s.ChannelOf(id) == i && s.recorded.Get(i) == st
  }

  /** Only FSM `id` and its slot have moved. */
  predicate OnlyMoved(s: System, s': System, id: nat, i: Side)
    requires id < |s.heap| && id < |s'.heap|
  {
    s' == s.(heap := s.heap[id := s'.heap[id]], recorded := s.recorded.Set(i, s'.recorded.Get(i)),
             race := s'.race, calls := s'.calls)
  }

  /** The step e of the state function ends with the request for t, in the FSM f. */
  predicate Requests(c: Config, s: System, id: nat, i: Side, e: Event, t: Transition, f: Fsm) {
    && At(c, s, id, i, t.from) && CanStep(s.heap[id], e)
    && f == Step(c, s.heap[id], e).fsm && f.pc == Offer(t) && !f.closed
  }

  lemma Asks(c: Config, s: System, id: nat, i: Side, e: Event, t: Transition, f: Fsm) returns (s': System)
    requires Reachable(c, s) && Requests(c, s, id, i, e, t, f)
    ensures Reachable(c, s') && s' == s.(heap := s.heap[id := f], calls := s'.calls) && Offering(s', id, i, t)
  {
    s' := Apply(s, Local(id, e));
    ActionStaysReachable(c, s, Local(id, e));
    NotCrashed(s, s', id);
  }

  lemma Settles(c: Config, s: System, id: nat, i: Side, t: Transition)
    requires s.config == c && Offering(s, id, i, t) && !s.closing && !s.damping.holdDown && !s.heap[id].closed
    requires Equipped(s.heap[id], t.to)
    ensures At(c, AfterGrant(s, id, i, t), id, i, t.to)
  {
    NotCrashed(s, AfterGrant(s, id, i, t), id);
  }

  /** One step of the state function and the grant of what it asks for. */
  lemma Moves(c: Config, s: System, id: nat, i: Side, e: Event, t: Transition, f: Fsm) returns (s': System)
    requires Reachable(c, s) && Requests(c, s, id, i, e, t, f) && Plain(s, i, t)
    ensures Reachable(c, s') && id < |s'.heap| && OnlyMoved(s, s', id, i)
    ensures s'.heap[id] == f.(pc := if Equipped(f, t.to) then Body(t.to) else Panicked)
    ensures Equipped(f, t.to) ==> At(c, s', id, i, t.to)
  {
    var s1 := Asks(c, s, id, i, e, t, f);
    s' := AfterGrant(s1, id, i, t);
    assert Reachable(c, s') by {
      GrantReached(c, s1, id, i, t);
    }
    if Equipped(f, t.to) {
      Settles(c, s1, id, i, t);
    }
  }

  // ----- up to OpenSent

  const ATTEMPT := OpenAttempt([], true)

  lemma OpenGoesOut(c: Config)
    ensures Encode(Open(NewOpenMessage(c.localAS, c.holdTime, c.localId, []))).Ok?
  {
    NewOpenDescribableIff(c.localAS, c.holdTime, c.localId, []);
  }

  /** The outgoing FSM is alone, in state st. */
  predicate Alone(c: Config, s: System, st: State) {
    At(c, s, 0, Out, st) && |s.heap| == 1 && s.slots.incoming.None? && s.recorded.incoming == Disabled
  }

  /** The idle hold timer of the outgoing FSM expires. */
  lemma IdleFires(c: Config, s: System) returns (s': System)
    requires Reachable(c, s) && Alone(c, s, Idle) && s.heap[0].timers.idleHold.Armed?
    ensures Reachable(c, s') && Alone(c, s', Idle)
    ensures s'.heap[0] == s.heap[0].(timers := s.heap[0].timers.(idleHold := Fired))
  {
    var fires := Local(0, TimerFires(IdleHoldTimer));
    s' := Apply(s, fires);
    ActionStaysReachable(c, s, fires);
    NotCrashed(s, s', 0);
  }

  lemma OutgoingIdle(c: Config) returns (s: System)
    requires !c.passive
    ensures Reachable(c, s) && Alone(c, s, Idle) && s.heap[0] == NewFsm(Out).(pc := Body(Idle))
  {
    var s0 := Init(c);
    InitIsReachable(c);
    var t := Transition(Disabled, Idle);
    assert s0.heap == [NewFsm(Out)];
    GrantReached(c, s0, 0, Out, t);
    s := AfterGrant(s0, 0, Out, t);
    Settles(c, s0, 0, Out, t);
  }

  /** An FSM in OpenSent as it is when it has just sent its OPEN. */
  predicate JustOpened(f: Fsm) {
    f.link.conn && f.link.reader && f.timers.hold.Armed?
  }

  lemma Dials(c: Config, s: System) returns (s': System)
    requires Reachable(c, s) && Alone(c, s, Idle) && s.heap[0].timers.idleHold.Fired?
    ensures Reachable(c, s') && Alone(c, s', Connect) && s'.heap[0].link.dial.Dialing?
    ensures s'.heap[0].timers == s.heap[0].timers.(idleHold := Armed, retry := Armed)
  {
    var f := Step(c, s.heap[0], IdleExpired).fsm;
    s' := Moves(c, s, 0, Out, IdleExpired, Transition(Idle, Connect), f);
  }

  lemma Connects(c: Config, s: System) returns (s': System)
    requires Reachable(c, s) && Alone(c, s, Connect) && s.heap[0].link.dial.Dialing?
    ensures Reachable(c, s') && Alone(c, s', OpenSent) && JustOpened(s'.heap[0])
    ensures s'.heap[0].timers.keepAlive == s.heap[0].timers.keepAlive
    ensures s'.heap[0].timers.idleHold == s.heap[0].timers.idleHold
  {
    OpenGoesOut(c);
    var e := DialSucceeded(ATTEMPT);
    var f := Step(c, s.heap[0], e).fsm;
    s' := Moves(c, s, 0, Out, e, Transition(Connect, OpenSent), f);
  }

  /** From Idle to OpenSent over a new connection. */
  lemma DialsOut(c: Config, s: System) returns (s': System)
    requires Reachable(c, s) && Alone(c, s, Idle) && s.heap[0].timers.idleHold.Armed?
    ensures Reachable(c, s') && Alone(c, s', OpenSent) && JustOpened(s'.heap[0])
    ensures s'.heap[0].timers.keepAlive == s.heap[0].timers.keepAlive && s'.heap[0].timers.idleHold.Armed?
  {
    var s1 := IdleFires(c, s);
    var s2 := Dials(c, s1);
    s' := Connects(c, s2);
  }

  lemma OutgoingOpenSent(c: Config) returns (s: System)
    requires !c.passive
    ensures Reachable(c, s) && Alone(c, s, OpenSent) && JustOpened(s.heap[0])
    ensures s.heap[0].timers.keepAlive.Absent? && s.heap[0].timers.idleHold.Armed?
  {
    var s0 := OutgoingIdle(c);
    s := DialsOut(c, s0);
  }

  /** A connection comes in while the outgoing FSM, if there is one, is not established. */
  predicate CanAccept(c: Config, s: System, id: nat) {
    && s.config == c && s.AtLoop() && !s.closing && !Crashed(s) && !s.damping.holdDown
    && s.slots.incoming.None? && s.recorded.incoming == Disabled && s.recorded.outgoing != Established
    && id == |s.heap| && s.slots.outgoing != Some(id)
  }

  /** The incoming FSM `id` has been added in state st. */
  predicate Added(c: Config, s: System, s': System, id: nat, st: State) {
    && At(c, s', id, In, st) && |s'.heap| == |s.heap| + 1 && s'.heap[..|s.heap|] == s.heap
    && s'.slots == s.slots.Set(In, Some(id)) && s'.recorded.outgoing == s.recorded.outgoing
  }

  lemma IncomingActive(c: Config, s: System, id: nat) returns (s': System)
    requires Reachable(c, s) && CanAccept(c, s, id)
    ensures Reachable(c, s') && Added(c, s, s', id, Active) && s'.heap[id] == NewFsm(In).(pc := Body(Active))
  {
    var s1 := Apply(s, IncomingConnection);
    ActionStaysReachable(c, s, IncomingConnection);
    assert s1 == s.Spawn(In).(race := NoRace);
    assert forall j :: 0 <= j < |s.heap| ==> s1.heap[j] == s.heap[j];
    var t := Transition(Disabled, Active);
    GrantReached(c, s1, id, In, t);
    Settles(c, s1, id, In, t);
    s' := AfterGrant(s1, id, In, t);
  }

  lemma IncomingOpenSent(c: Config, s: System, id: nat) returns (s': System)
    requires Reachable(c, s) && CanAccept(c, s, id)
    ensures Reachable(c, s') && Added(c, s, s', id, OpenSent) && JustOpened(s'.heap[id])
    ensures s'.heap[id].timers.keepAlive.Absent?
  {
    var s1 := IncomingActive(c, s, id);
    OpenGoesOut(c);
    var f := Step(c, s1.heap[id], UseConn(ATTEMPT)).fsm;
    s' := Moves(c, s1, id, In, UseConn(ATTEMPT), Transition(Active, OpenSent), f);
    assert s'.heap[..|s.heap|] == s1.heap[..|s.heap|];
  }

  // ----- the OPEN and the KEEPALIVE

  predicate ValidOpen(c: Config, o: OpenMessage) {
    Validate(o, c.localId, c.localAS, c.remoteAS).None?
  }

  function OpenReceived(o: OpenMessage): Event { Received(Open(o), None, true) }

  /** What an accepted OPEN makes of an FSM in OpenSent with a hold timer that can be drained. */
  lemma OpenAccepted(c: Config, f: Fsm, o: OpenMessage)
    requires f.pc == Body(OpenSent) && f.link.reader && f.timers.hold.Armed? && ValidOpen(c, o)
    ensures var g := Step(c, f, OpenReceived(o)).fsm;
            var t := NegotiatedHoldTime(c.holdTime, o.holdTime);
            && g.pc == Offer(Transition(OpenSent, OpenConfirm)) && g.remoteId == o.bgpId && g.link == f.link
            && g.closed == f.closed && g.holdTime == t
            && g.timers == if t == 0 then f.timers else f.timers.(keepAlive := Armed, holdFor := t)
  {
  }

  /** FSM `id` hears a valid OPEN and offers OpenConfirm. */
  lemma HearsOpen(c: Config, s: System, id: nat, i: Side, o: OpenMessage) returns (s': System)
    requires Reachable(c, s) && At(c, s, id, i, OpenSent) && ValidOpen(c, o)
    requires s.heap[id].link.reader && s.heap[id].timers.hold.Armed?
    ensures Reachable(c, s') && Offering(s', id, i, Transition(OpenSent, OpenConfirm))
    ensures s' == s.(heap := s.heap[id := s'.heap[id]], calls := s'.calls)
    ensures s'.heap[id].remoteId == o.bgpId && !s'.heap[id].closed
  {
    OpenAccepted(c, s.heap[id], o);
    var f := Step(c, s.heap[id], OpenReceived(o)).fsm;
    s' := Asks(c, s, id, i, OpenReceived(o), Transition(OpenSent, OpenConfirm), f);
  }

  /** It hears a valid OPEN, and OpenConfirm is granted: the panic, or OpenConfirm. */
  lemma ConfirmsOpen(c: Config, s: System, id: nat, i: Side, o: OpenMessage) returns (s': System)
    requires Reachable(c, s) && At(c, s, id, i, OpenSent) && ValidOpen(c, o) && JustOpened(s.heap[id])
    requires s.recorded.Get(Other(i)) != OpenConfirm && s.recorded.Get(Other(i)) != Established
    ensures Reachable(c, s') && id < |s'.heap| && OnlyMoved(s, s', id, i)
    ensures var t := NegotiatedHoldTime(c.holdTime, o.holdTime);
            var f := s.heap[id];
            if t == 0 && f.timers.keepAlive.Absent? then s'.heap[id].pc.Panicked?
            else
              && At(c, s', id, i, OpenConfirm) && JustOpened(s'.heap[id]) && s'.heap[id].holdTime == t
              && s'.heap[id].timers == if t == 0 then f.timers else f.timers.(keepAlive := Armed, holdFor := t)
  {
    OpenAccepted(c, s.heap[id], o);
    var f := Step(c, s.heap[id], OpenReceived(o)).fsm;
    s' := Moves(c, s, id, i, OpenReceived(o), Transition(OpenSent, OpenConfirm), f);
  }

  /** FSM `id` hears a KEEPALIVE and offers Established. */
  lemma HearsKeepAlive(c: Config, s: System, id: nat, i: Side) returns (s': System)
    requires Reachable(c, s) && At(c, s, id, i, OpenConfirm) && JustOpened(s.heap[id])
    ensures Reachable(c, s') && Offering(s', id, i, Transition(OpenConfirm, Established))
    ensures s'.heap[id] == s.heap[id].(pc := Offer(Transition(OpenConfirm, Established)),
                                       timers := s.heap[id].timers.(holdFor := s.heap[id].holdTime))
    ensures s' == s.(heap := s.heap[id := s'.heap[id]], calls := s'.calls)
  {
    var e := Received(KeepAlive, None, true);
    var t := Transition(OpenConfirm, Established);
    var f := s.heap[id].(pc := Offer(t), timers := s.heap[id].timers.(holdFor := s.heap[id].holdTime));
    assert f == Step(c, s.heap[id], e).fsm;
    s' := Asks(c, s, id, i, e, t, f);
  }

  /** The loop takes the offer. */
  lemma TakesOffer(c: Config, s: System, id: nat, i: Side, t: Transition) returns (s': System)
    requires Reachable(c, s) && Offering(s, id, i, t)
    ensures Reachable(c, s') && !Crashed(s')
    ensures s' == s.(heap := s.heap[id := s.heap[id].(pc := Await(t))], race := NoRace,
                     todo := Then(Handle(i, t, 0), Nil))
  {
    s' := Apply(s, ReceiveTransition(id));
    ActionStaysReachable(c, s, ReceiveTransition(id));
    NotCrashed(s, s', id);
  }

  /** The peer expands the request at the head of its agenda. */
  lemma Expands(s: System, i: Side, t: Transition, depth: nat) returns (s': System)
    requires !Crashed(s) && s.todo == Then(Handle(i, t, depth), Nil) && s.Occupied(i)
    ensures BusyPath(s, s') && s' == s.(todo := Expand(s, i, t, depth, Nil))
  {
    s' := Apply(s, PeerStep);
    PathStep(s, PeerStep);
  }

  /** With the other slot empty, FSM `id` is granted Established. */
  lemma GrantsEstablished(s: System, id: nat, i: Side, t: Transition, depth: nat) returns (s': System)
    requires !Crashed(s) && s.todo == Then(Handle(i, t, depth), Nil) && t.to == Established
    requires s.Occupied(i) && s.slots.Get(i) == Some(id) && s.ChannelOf(id) == i && s.slots.Get(Other(i)).None?
    requires s.heap[id].pc == Await(t)
    ensures BusyPath(s, s') && s' == GrantTo(s, id, i, t, Nil)
  {
    var s1 := Expands(s, i, t, depth);
    assert s1.todo == Then(Disable(Other(i)), Then(Send(i, t), Nil));
    var s2 := Apply(s1, PeerStep);
    PathStep(s1, PeerStep);
    assert s2 == s.(todo := Then(Send(i, t), Nil));
    s' := GrantNext(s2, id, i, t, Nil);
    PathTwice(s, s1, s2);
    PathTwice(s, s2, s');
  }

  // ----- the panic

  /**
    Every configuration, active or passive, has a run that panics, as soon as some valid OPEN
    makes the hold time zero.
    */
  lemma ZeroHoldTimeIsReached(c: Config, o: OpenMessage) returns (s: System)
    requires ValidOpen(c, o) && NegotiatedHoldTime(c.holdTime, o.holdTime) == 0
    ensures Reachable(c, s) && Crashed(s)
  {
    if c.passive {
      InitIsReachable(c);
      var s1 := IncomingOpenSent(c, Init(c), 0);
      s := ConfirmsOpen(c, s1, 0, In, o);
    } else {
      var s1 := OutgoingOpenSent(c);
      s := ConfirmsOpen(c, s1, 0, Out, o);
    }
  }

  // ----- a session with a hold time of zero

  /** The connection of an FSM in OpenConfirm breaks, and the FSM is back in Idle. */
  lemma BreaksOff(c: Config, s: System) returns (s': System)
    requires Reachable(c, s) && Alone(c, s, OpenConfirm) && s.heap[0].link.reader
    requires s.heap[0].timers.keepAlive.Armed? && s.heap[0].timers.idleHold.Armed?
    ensures Reachable(c, s') && Alone(c, s', Idle)
    ensures s'.heap[0].timers.keepAlive.Drained? && s'.heap[0].timers.idleHold.Armed?
  {
    var s1 := Reports(c, s);
    var t := Transition(OpenConfirm, Idle);
    var s2 := Apply(s1, ReceiveError(0));
    ActionStaysReachable(c, s1, ReceiveError(0));
    NotCrashed(s1, s2, 0);
    GrantReached(c, s2, 0, Out, t);
    Settles(c, s2, 0, Out, t);
    s' := AfterGrant(s2, 0, Out, t);
  }

  lemma Reports(c: Config, s: System) returns (s': System)
    requires Reachable(c, s) && Alone(c, s, OpenConfirm) && s.heap[0].link.reader
    requires s.heap[0].timers.keepAlive.Armed? && s.heap[0].timers.idleHold.Armed?
    ensures Reachable(c, s') && !Crashed(s') && |s'.heap| == 1
    ensures s' == s.(heap := [s'.heap[0]], calls := s'.calls)
    ensures s'.heap[0].pc == Report(Transition(OpenConfirm, Idle), OtherError) && !s'.heap[0].closed
    ensures s'.heap[0].timers.keepAlive.Drained? && s'.heap[0].timers.idleHold.Armed?
  {
    var e := ReaderFailed(OtherError);
    s' := Apply(s, Local(0, e));
    ActionStaysReachable(c, s, Local(0, e));
    NotCrashed(s, s', 0);
  }

  /** A first session with a hold time that is not zero leaves a keepalive timer behind. */
  lemma SecondOpenSent(c: Config, o: OpenMessage) returns (s: System)
    requires !c.passive && ValidOpen(c, o) && NegotiatedHoldTime(c.holdTime, o.holdTime) != 0
    ensures Reachable(c, s) && Alone(c, s, OpenSent) && JustOpened(s.heap[0]) && s.heap[0].timers.keepAlive.Drained?
  {
    var s1 := OutgoingOpenSent(c);
    var s2 := ConfirmsOpen(c, s1, 0, Out, o);
    var s3 := BreaksOff(c, s2);
    s := DialsOut(c, s3);
  }

  /** The outgoing FSM waits for the grant of Established. */
  lemma AsksEstablished(c: Config, s: System) returns (s': System)
    requires Reachable(c, s) && Alone(c, s, OpenConfirm) && JustOpened(s.heap[0])
    ensures var t := Transition(OpenConfirm, Established);
            && Reachable(c, s') && !Crashed(s') && |s'.heap| == 1 && s'.slots == Pair(Some(0), None)
            && s'.todo == Then(Handle(Out, t, 0), Nil) && s'.heap[0].pc == Await(t)
            && s'.heap[0].link == s.heap[0].link && s'.heap[0].holdTime == s.heap[0].holdTime
            && s'.heap[0].timers == s.heap[0].timers.(holdFor := s.heap[0].holdTime)
  {
    var t := Transition(OpenConfirm, Established);
    var s1 := HearsKeepAlive(c, s, 0, Out);
    s' := TakesOffer(c, s1, 0, Out, t);
  }

  /** The FSM is granted Established, and its state function is at its select. */
  lemma Establishes(c: Config, s: System) returns (s': System)
    requires Reachable(c, s) && Alone(c, s, OpenConfirm) && JustOpened(s.heap[0])
    requires !s.heap[0].timers.keepAlive.Absent?
    ensures Reachable(c, s') && !Crashed(s') && |s'.heap| == 1 && s'.heap[0].pc == Body(Established)
    ensures s'.heap[0].holdTime == s.heap[0].holdTime && s'.heap[0].timers.hold.Armed?
  {
    var s1 := AsksEstablished(c, s);
    var s2 := GrantsEstablished(s1, 0, Out, s1.heap[0].pc.t, 0);
    PathStaysReachable(c, s1, s2);
    NotCrashed(s1, s2, 0);
    s' := Enters(c, s2);
  }

  lemma Enters(c: Config, s: System) returns (s': System)
    requires Reachable(c, s) && !Crashed(s) && |s.heap| == 1 && s.heap[0].pc == Entering
    ensures Reachable(c, s') && !Crashed(s') && |s'.heap| == 1
    ensures s'.heap[0] == s.heap[0].(pc := Body(Established), handler := false)
  {
    s' := Apply(s, Local(0, CallOnEstablished(false)));
    ActionStaysReachable(c, s, Local(0, CallOnEstablished(false)));
    NotCrashed(s, s', 0);
  }

  /**
    An active configuration that negotiated a hold time other than zero once, and zero on its
    next connection, reaches a session whose hold timer, started with zero, has expired.
    */
  lemma ZeroHoldSessionIsReached(c: Config, o: OpenMessage, o': OpenMessage) returns (s: System)
    requires !c.passive && ValidOpen(c, o) && NegotiatedHoldTime(c.holdTime, o.holdTime) != 0
    requires ValidOpen(c, o') && o'.holdTime == 0
    ensures Reachable(c, s) && Expired(s, 0) && s.heap[0].pc == Body(Established)
  {
    var s1 := SecondOpenSent(c, o);
    var s2 := ConfirmsOpen(c, s1, 0, Out, o');
    var s3 := Establishes(c, s2);
    s := Apply(s3, Local(0, TimerFires(HoldTimer)));
    ActionStaysReachable(c, s3, Local(0, TimerFires(HoldTimer)));
  }
}
