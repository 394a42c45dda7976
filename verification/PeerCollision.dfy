/**
  Connection collisions: how a race between the two FSMs ends, which connection survives,
  and when that is the one the rule of section 6.8 of RFC 4271 keeps.
  */
module PeerCollision {
  import opened Bytes
  import opened Packet
  import opened Fsm
  import opened Peer
  import opened PeerInvariant

  /** The race was decided for the outgoing connection. */
  predicate KeepingOut(s: System) {
    s.Occupied(Out) &&
    match s.todo
    case Nil => s.slots.incoming.None? && s.recorded.outgoing == OpenConfirm
    case Then(Send(i, t), rest) => i == Out && t.to == OpenConfirm && (rest.Nil? ==> s.slots.incoming.None?)
    case Then(Handle(i, t, d), _) => i == In && d == 1 && t.to == Idle && s.recorded.outgoing == OpenConfirm
    case Then(EnableOut, _) => s.recorded.outgoing == OpenConfirm
    case Then(op, Then(EnableOut, Nil)) => Disabling(s.todo, In) && s.recorded.outgoing == OpenConfirm
    case Then(op, Then(Send(i, t), Nil)) => Disabling(s.todo, In) && i == Out && t.to == OpenConfirm
    case _ => false
  }

  /** The race was decided for the incoming connection. */
  predicate KeepingIn(s: System) {
    s.Occupied(In) &&
    match s.todo
    case Nil => s.slots.outgoing.None? && s.recorded.incoming == Established
    case Then(Send(i, t), Nil) => i == In && t.to == Established && s.slots.outgoing.None?
    case Then(Handle(i, t, d), Nil) => i == In && d == 1 && t.to == Established
    case Then(op, Then(Handle(i, t, d), Nil)) => Disabling(s.todo, Out) && i == In && d == 1 && t.to == Established
    case Then(op, Then(Send(i, t), Nil)) => Disabling(s.todo, Out) && i == In && t.to == Established
    case _ => false
  }

  predicate RaceOk(s: System) {
    !s.closing ==> (s.race.KeptOut? ==> KeepingOut(s)) && (s.race.KeptIn? ==> KeepingIn(s))
  }

  lemma PeerStepKeepsRace(s: System)
    requires Inv(s) && RaceOk(s) && CanPeerStep(s)
    ensures RaceOk(PeerStepOf(s))
  {
  }

  lemma GrantKeepsRace(s: System, id: nat)
    requires Inv(s) && RaceOk(s) && Enabled(s, Grant(id))
    ensures RaceOk(Apply(s, Grant(id)))
  {
  }

  lemma RaceIsDecided(s: System, a: Action)
    requires Inv(s) && Enabled(s, a) && (a.CollideClose? || a.CollideReceive?)
    ensures RaceOk(Apply(s, a))
  {
    if a.CollideReceive? {
      AddressesOwnChannel(s, a.id);
    }
  }

  /** The actions of the loop forget about earlier races. */
  lemma LoopKeepsRace(s: System, a: Action)
    requires Inv(s) && RaceOk(s) && Enabled(s, a) && s.AtLoop()
    requires a.IncomingConnection? || a.StartupDelayExpired? || a.LoopExits? || a.ReceiveTransition? || a.ReceiveError?
    ensures RaceOk(Apply(s, a))
  {
  }

  lemma LocalKeepsRace(s: System, id: nat, e: Event)
    requires RaceOk(s) && Enabled(s, Local(id, e))
    ensures RaceOk(Apply(s, Local(id, e)))
  {
    var s' := LocalStep(s, id, e);
    assert Apply(s, Local(id, e)) == s';
    assert s' == s.(heap := s'.heap, calls := s'.calls) && |s'.heap| == |s.heap|;
    SameSlotsSameRace(s, s');
  }

  /** What a race promises does not depend on the FSM objects. */
  lemma SameSlotsSameRace(s: System, s': System)
    requires RaceOk(s) && s' == s.(heap := s'.heap, calls := s'.calls) && |s'.heap| == |s.heap|
    ensures RaceOk(s')
  {
  }

  lemma PassiveKeepsRace(s: System, a: Action)
    requires RaceOk(s) && Enabled(s, a) && (a.Tick? || a.StopRequested? || a.GiveUp? || a.Local?)
    ensures RaceOk(Apply(s, a))
  {
    if a.Local? {
      LocalKeepsRace(s, a.id, a.event);
    }
  }

  lemma OwnKeepsRace(s: System, a: Action)
    requires Inv(s) && RaceOk(s) && Enabled(s, a) && (a.PeerStep? || a.Grant? || a.CollideClose? || a.CollideReceive?)
    ensures RaceOk(Apply(s, a))
  {
    if a.PeerStep? {
      PeerStepKeepsRace(s);
    } else if a.Grant? {
      GrantKeepsRace(s, a.id);
    } else {
      RaceIsDecided(s, a);
    }
  }

  lemma ActionKeepsRace(s: System, a: Action)
    requires Inv(s) && RaceOk(s) && Enabled(s, a)
    ensures RaceOk(Apply(s, a))
  {
    if a.Tick? || a.StopRequested? || a.GiveUp? || a.Local? {
      PassiveKeepsRace(s, a);
    } else if a.PeerStep? || a.Grant? || a.CollideClose? || a.CollideReceive? {
      OwnKeepsRace(s, a);
    } else {
      LoopKeepsRace(s, a);
    }
  }

  lemma PeerStepKeepsVerdict(s: System)
    requires CanPeerStep(s)
    ensures PeerStepOf(s).race == s.race
  {
  }

  // ----- recursion and reachability

  /** Collision handling recurses at most once, and a recursive call never collides again. */
  lemma CollisionDepth(s: System)
    requires Inv(s) && s.todo.Then?
    ensures s.todo.op.Handle? ==> s.todo.op.depth <= 1
    ensures s.todo.op.Collide? ==> s.todo.op.depth == 0 && s.todo.op.i == Out
    ensures s.todo.op.Handle? && s.todo.op.depth == 1 ==>
              !Expand(s, s.todo.op.i, s.todo.op.t, 1, s.todo.rest).op.Collide?
  {
  }

  /** The branch for a collision with an Established connection is never taken. */
  lemma NoCollisionWithEstablished(s: System)
    requires Inv(s) && s.todo.Then? && s.todo.op.Handle?
    ensures s.recorded.Get(Other(s.todo.op.i)) != Established
  {
  }

  /**
    The race finds the other FSM in its slot with an open close channel, so neither the
    nil dereference nor the send on a closed channel can happen.
    */
  lemma RaceTargetIsOpen(s: System)
    requires Inv(s) && s.todo.Then? && s.todo.op.Collide?
    ensures s.Occupied(Other(s.todo.op.i)) && !s.Occupant(Other(s.todo.op.i)).closed
    ensures s.Occupied(s.todo.op.i)
  {
  }

  // ----- the rule

  /** The pair of identifier and AS of a router as one number. */
  function Standing(id: u32, asn: u32): nat { id * 0x1_0000_0000 + asn }

  /** The local router has the larger identifier, or the same one and the larger AS. */
  predicate LocalIsLarger(c: Config, remoteId: u32) {
    Standing(c.localId, c.localAS) > Standing(remoteId, c.remoteAS)
  }

  /** The rule: the connection that the router with the larger pair initiated is kept. */
  function RuleKeeps(c: Config, remoteId: u32): Side {
    if LocalIsLarger(c, remoteId) then Out else In
  }

  /** The program's test for dominance compares the pairs. */
  lemma DominantIff(c: Config, remoteId: u32)
    ensures Dominant(c, remoteId) <==> LocalIsLarger(c, remoteId)
  {
  }

  /**
    Two routers that accepted each other's OPEN compute opposite dominance: `a` and `b` are
    the two ends of one peering, each configured with the other's AS.
    */
  lemma DominanceIsOpposite(a: Config, b: Config, fromB: OpenMessage)
    requires a.remoteAS == b.localAS && b.remoteAS == a.localAS
    requires fromB.bgpId == b.localId && Validate(fromB, a.localId, a.localAS, a.remoteAS).None?
    ensures Dominant(a, b.localId) <==> !Dominant(b, a.localId)
    ensures Dominant(a, b.localId) <==> Standing(a.localId, a.localAS) > Standing(b.localId, b.localAS)
    ensures Dominant(b, a.localId) <==> Standing(b.localId, b.localAS) > Standing(a.localId, a.localAS)
  {
    DominantIff(a, b.localId);
    DominantIff(b, a.localId);
  }
}
