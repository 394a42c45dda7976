/**
  Collisions that do happen: for every active configuration, runs in which the connection
  that is left is not the one the collision rule keeps.
  */
module PeerCollisionRuns {
  import opened Notifications
  import opened Packet
  import opened Fsm
  import opened Peer
  import opened PeerCollision
  import opened PeerSurvivor
  import opened PeerRuns
  import opened PeerReach
  import opened PeerTheorems

  const CONFIRM := Transition(OpenSent, OpenConfirm)
  const ESTABLISH := Transition(OpenConfirm, Established)

  /** Both slots are taken, by FSMs 0 and 1, and the loop has just received CONFIRM from side i. */
  predicate Colliding(c: Config, s: System, id: nat, i: Side, o: OpenMessage) {
    && s.config == c && !s.closing && !s.exiting && !Crashed(s)
    && s.slots == Pair(Some(0), Some(1)) && |s.heap| == 2 && id == (if i == Out then 0 else 1)
    && s.todo == Then(Handle(i, CONFIRM, 0), Nil) && s.recorded.Get(Other(i)) == OpenConfirm
    && s.heap[id].pc == Await(CONFIRM) && s.heap[id].remoteId == o.bgpId && !s.heap[id].closed
  }

  /** Both connections reach OpenConfirm, the incoming one second. */
  lemma CollisionIsReached(c: Config, o: OpenMessage) returns (s: System)
    requires !c.passive && ValidOpen(c, o) && NegotiatedHoldTime(c.holdTime, o.holdTime) != 0
    ensures Reachable(c, s) && Colliding(c, s, 1, In, o)
  {
    var s0 := OutgoingOpenSent(c);
    var s1 := ConfirmsOpen(c, s0, 0, Out, o);
    var s2 := IncomingOpenSent(c, s1, 1);
    var s3 := HearsOpen(c, s2, 1, In, o);
    s := TakesOffer(c, s3, 1, In, CONFIRM);
  }

  /** The incoming FSM is in OpenConfirm, the outgoing one still in OpenSent. */
  lemma IncomingFirst(c: Config, o: OpenMessage) returns (s: System)
    requires !c.passive && ValidOpen(c, o) && NegotiatedHoldTime(c.holdTime, o.holdTime) != 0
    ensures Reachable(c, s) && |s.heap| == 2 && s.slots == Pair(Some(0), Some(1))
    ensures At(c, s, 1, In, OpenConfirm) && JustOpened(s.heap[1])
    ensures At(c, s, 0, Out, OpenSent) && JustOpened(s.heap[0])
  {
    var s0 := OutgoingOpenSent(c);
    var s1 := IncomingOpenSent(c, s0, 1);
    assert s1.heap[0] == s1.heap[..1][0] == s0.heap[0];
    s := ConfirmsOpen(c, s1, 1, In, o);
  }

  /** The outgoing connection comes second while the incoming one already offers Established. */
  lemma LateCollisionIsReached(c: Config, o: OpenMessage) returns (s: System)
    requires !c.passive && ValidOpen(c, o) && NegotiatedHoldTime(c.holdTime, o.holdTime) != 0
    ensures Reachable(c, s) && Colliding(c, s, 0, Out, o) && s.heap[1].pc == Offer(ESTABLISH)
  {
    var s0 := IncomingFirst(c, o);
    var s1 := HearsOpen(c, s0, 0, Out, o);
    var s2 := HearsKeepAlive(c, s1, 1, In);
    s := TakesOffer(c, s2, 0, Out, CONFIRM);
  }

  // ----- taking an FSM down

  /** disableFSM is under way for the FSM `id` in slot i, which waits for the peer. */
  predicate TakenDown(s: System, id: nat, i: Side, rest: Agenda) {
    && s.todo == Then(Disable(i), rest) && !Crashed(s)
    && id < |s.heap| && s.slots.Get(i) == Some(id)
    && s.heap[id].pc.Await? && s.heap[id].pc.t.to != Disabled && !s.heap[id].closed
  }

  /** The slot is empty, and nothing but this FSM has changed. */
  predicate TookDown(s: System, s': System, id: nat, i: Side, rest: Agenda) {
    && |s'.heap| == |s.heap| && (forall j :: 0 <= j < |s.heap| && j != id ==> s'.heap[j] == s.heap[j])
    && s' == s.(heap := s'.heap, todo := rest, slots := s.slots.Set(i, None),
                recorded := s.recorded.Set(i, Disabled), calls := s'.calls)
    && !Crashed(s')
  }

  /** The goroutine sees the close signal. */
  lemma SeesClose(s: System, id: nat, i: Side, rest: Agenda) returns (s': System)
    requires TakenDown(s, id, i, rest)
    ensures BusyPath(s, s') && !Crashed(s') && |s'.heap| == |s.heap| && s'.heap[id].pc == Exiting
    ensures s' == s.(heap := s.heap[id := s'.heap[id]], todo := Then(WaitDone(i), rest), calls := s'.calls)
  {
    var s1 := Apply(s, PeerStep);
    PathStep(s, PeerStep);
    assert s1 == StartDisable(s, i, rest);
    NotCrashed(s, s1, id);
    s' := Apply(s1, Local(id, CloseSeen));
    PathStep(s1, Local(id, CloseSeen));
    NotCrashed(s1, s', id);
    PathTwice(s, s1, s');
  }

  /** It cleans up, and the peer empties the slot. */
  lemma CleansUp(s: System, id: nat, i: Side, rest: Agenda) returns (s': System)
    requires !Crashed(s) && id < |s.heap| && s.heap[id].pc == Exiting
    requires s.todo == Then(WaitDone(i), rest) && s.slots.Get(i) == Some(id)
    ensures BusyPath(s, s') && TookDown(s, s', id, i, rest)
  {
    var s1 := Apply(s, Local(id, CleanUp));
    PathStep(s, Local(id, CleanUp));
    NotCrashed(s, s1, id);
    s' := Apply(s1, PeerStep);
    PathStep(s1, PeerStep);
    assert s' == FinishDisable(s1, i, rest);
    NotCrashed(s1, s', id);
    PathTwice(s, s1, s');
  }

  lemma TakesDown(s: System, id: nat, i: Side, rest: Agenda) returns (s': System)
    requires TakenDown(s, id, i, rest)
    ensures BusyPath(s, s') && TookDown(s, s', id, i, rest)
  {
    var s1 := SeesClose(s, id, i, rest);
    s' := CleansUp(s1, id, i, rest);
    PathTwice(s, s1, s');
  }

  // ----- the non-dominant router

  lemma DropsIncoming(c: Config, s: System, o: OpenMessage) returns (s': System)
    requires Colliding(c, s, 1, In, o)
    ensures BusyPath(s, s') && s'.AtLoop() && !s'.closing && Only(s', Out)
  {
    var s1 := Expands(s, In, CONFIRM, 0);
    s' := TakesDown(s1, 1, In, Nil);
    PathTwice(s, s1, s');
  }

  /** When the incoming connection comes second, the peer gets back to its loop with the outgoing one. */
  lemma IncomingSecond(c: Config, o: OpenMessage) returns (r: Run, k: nat, m: nat)
    requires !c.passive && ValidOpen(c, o) && NegotiatedHoldTime(c.holdTime, o.holdTime) != 0
    ensures DealsWith(c, r, k, m, In, CONFIRM) && r.states[m].AtLoop()
    ensures r.states[k].Occupant(In).remoteId == o.bgpId && Only(r.states[m], Out)
  {
    var s := CollisionIsReached(c, o);
    var s' := DropsIncoming(c, s, o);
    var before :| IsRun(c, before) && Last(before) == s;
    r := PathRun(c, before, s');
    k, m := |before.actions|, |r.actions|;
    assert r.states[k] == before.states[k];
  }

  /**
    Every active configuration has a run in which, against a dominant remote router, the rule
    keeps the incoming connection and the peer gets back to its loop with the outgoing one.
    */
  lemma WrongConnectionIsDropped(c: Config, o: OpenMessage) returns (r: Run, k: nat, m: nat)
    requires !c.passive && ValidOpen(c, o) && NegotiatedHoldTime(c.holdTime, o.holdTime) != 0
    requires !LocalIsLarger(c, o.bgpId)
    ensures DealsWith(c, r, k, m, In, CONFIRM) && r.states[m].AtLoop()
    ensures r.states[k].Occupant(In).remoteId == o.bgpId
    ensures RuleKeeps(c, o.bgpId) == In && Only(r.states[m], Out)
  {
    r, k, m := IncomingSecond(c, o);
  }

  // ----- the race a dominant router loses

  /** The peer expands the collision into the race. */
  lemma StartsRace(c: Config, s: System, o: OpenMessage) returns (s': System)
    requires Colliding(c, s, 0, Out, o) && LocalIsLarger(c, o.bgpId)
    ensures BusyPath(s, s') && s' == s.(todo := Then(Collide(Out, CONFIRM, 0), Nil))
  {
    DominantIff(c, o.bgpId);
    s' := Expands(s, Out, CONFIRM, 0);
  }

  /** The race receives the other FSM's request for Established. */
  lemma OtherMovesFirst(s: System)
    requires !Crashed(s) && s.todo == Then(Collide(Out, CONFIRM, 0), Nil) && s.slots == Pair(Some(0), Some(1))
    requires |s.heap| == 2 && s.heap[1].pc == Offer(ESTABLISH)
    ensures Enabled(s, CollideReceive(1)) && LosesRace(s, CollideReceive(1))
    ensures var s' := Apply(s, CollideReceive(1));
            && !Crashed(s')
            && s' == s.(heap := s.heap[1 := s.heap[1].(pc := Await(ESTABLISH))], race := KeptIn,
                        todo := Then(Disable(Out), Then(Handle(In, ESTABLISH, 1), Nil)))
  {
    assert CanAct(s, CollideReceive(1));
    NotCrashed(s, Apply(s, CollideReceive(1)), 1);
  }

  /** The outgoing FSM is taken down, and the incoming one is granted Established. */
  lemma IncomingTakesOver(s: System) returns (s': System)
    requires TakenDown(s, 0, Out, Then(Handle(In, ESTABLISH, 1), Nil))
    requires s.slots == Pair(Some(0), Some(1)) && |s.heap| == 2 && s.heap[1].pc == Await(ESTABLISH)
    requires !s.exiting && !s.closing
    ensures BusyPath(s, s') && s'.AtLoop() && !s'.closing && Only(s', In)
  {
    var s1 := TakesDown(s, 0, Out, Then(Handle(In, ESTABLISH, 1), Nil));
    s' := GrantsEstablished(s1, 1, In, ESTABLISH, 1);
    PathTwice(s, s1, s');
  }

  /** A run up to the lost race, and the one action that loses it. */
  lemma RunLosesRace(c: Config, o: OpenMessage) returns (before: Run, race: Run, after: Run)
    requires !c.passive && ValidOpen(c, o) && NegotiatedHoldTime(c.holdTime, o.holdTime) != 0
    requires LocalIsLarger(c, o.bgpId)
    ensures IsRun(c, before) && IsRun(c, race) && IsRun(c, after) && Continues(before, race) && Continues(race, after)
    ensures Colliding(c, Last(before), 0, Out, o)
    ensures |after.actions| == |race.actions| + 1 && LosesRace(Last(race), after.actions[|race.actions|])
    ensures TakenDown(Last(after), 0, Out, Then(Handle(In, ESTABLISH, 1), Nil))
    ensures Last(after).slots == Pair(Some(0), Some(1)) && |Last(after).heap| == 2
    ensures Last(after).heap[1].pc == Await(ESTABLISH) && !Last(after).exiting && !Last(after).closing
  {
    var s := LateCollisionIsReached(c, o);
    before :| IsRun(c, before) && Last(before) == s;
    var s1 := StartsRace(c, s, o);
    race := PathRun(c, before, s1);
    OtherMovesFirst(s1);
    after := OneMore(c, race, CollideReceive(1));
    OneContinues(race, after, CollideReceive(1));
  }

  /**
    Every active configuration has a run in which a dominant router, whose outgoing connection
    the rule keeps, loses the race to the incoming FSM's request for Established and gets back
    to its loop with the incoming connection.
    */
  lemma DominantRouterLosesRace(c: Config, o: OpenMessage) returns (r: Run, k: nat, m: nat)
    requires !c.passive && ValidOpen(c, o) && NegotiatedHoldTime(c.holdTime, o.holdTime) != 0
    requires LocalIsLarger(c, o.bgpId)
    ensures DealsWith(c, r, k, m, Out, CONFIRM) && r.states[m].AtLoop()
    ensures r.states[k].Occupant(Out).remoteId == o.bgpId
    ensures RuleKeeps(c, o.bgpId) == Out && RaceLost(r, k, m) && Only(r.states[m], In)
  {
    var before, race, after := RunLosesRace(c, o);
    var s' := IncomingTakesOver(Last(after));
    r := PathRun(c, after, s');
    k, m := |before.actions|, |r.actions|;
    ContinuesTwice(before, race, after);
    ContinuesTwice(before, after, r);
    ghost var j := |race.actions|;
    assert r.states[k] == before.states[k] && r.states[j] == race.states[j] && r.actions[j] == after.actions[j];
    assert k <= j < m && LosesRace(r.states[j], r.actions[j]);
  }
}
