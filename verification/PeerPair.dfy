/**
  The two ends of one peering after both have dealt with a collision: when they are left with
  the same connection, and when with none.
  */
module PeerPair {
  import opened Bytes
  import opened Fsm
  import opened Packet
  import opened Peer
  import opened PeerCollision
  import opened PeerSurvivor
  import opened PeerReach
  import opened PeerTheorems
  import opened PeerCollisionRuns

  /** Two distinct speakers, each configured with the AS of the other. */
  predicate Ends(a: Config, b: Config) {
    && a.remoteAS == b.localAS && b.remoteAS == a.localAS
    && !(a.localId == b.localId && a.localAS == b.localAS)
  }

  /** How one end came through: from state k to state m of the run it dealt with the request of side i. */
  datatype Ending = Ending(run: Run, k: nat, m: nat, i: Side, t: Transition)

  /** The end with configuration c is back at its loop; it had learnt the other end's identifier. */
  ghost predicate Through(c: Config, e: Ending, remoteId: u32) {
    && DealsWith(c, e.run, e.k, e.m, e.i, e.t) && e.run.states[e.m].AtLoop()
    && e.run.states[e.k].Occupant(e.i).remoteId == remoteId
  }

  /** One connection is left at both ends: outgoing at one, incoming at the other. */
  predicate Shared(s: System, s': System) {
    (Only(s, Out) && Only(s', In)) || (Only(s, In) && Only(s', Out))
  }

  /** Every connection between the two has been dropped by at least one of them. */
  predicate NoneShared(s: System, s': System) {
    forall x: Side :: s.slots.Get(x).None? || s'.slots.Get(Other(x)).None?
  }

  /** What is left at one end. */
  lemma LeftAt(c: Config, e: Ending, remoteId: u32)
    requires Through(c, e, remoteId)
    ensures var lost := RaceLost(e.run, e.k, e.m);
            Only(e.run.states[e.m], if e.i == Out && !(LocalIsLarger(c, remoteId) && !lost) then In else Out)
  {
    ConfigStays(c, e.run, e.k);
    CollisionFollowsRuleIff(c, e.run, e.k, e.m, e.i, e.t);
  }

  /**
    The two ends, of which `a` has the larger pair of identifier and AS, are left with the
    same connection exactly when `b` saw its outgoing connection come second, unless `a` lost
    its race, and then exactly when `b` saw its incoming connection come second. Otherwise no
    connection is left.
    */
  lemma SharedIff(a: Config, e: Ending, b: Config, e': Ending)
    requires Ends(a, b) && Standing(a.localId, a.localAS) > Standing(b.localId, b.localAS)
    requires Through(a, e, b.localId) && Through(b, e', a.localId)
    ensures Shared(e.run.states[e.m], e'.run.states[e'.m]) <==>
            (e'.i == Out <==> !(e.i == Out && RaceLost(e.run, e.k, e.m)))
    ensures !Shared(e.run.states[e.m], e'.run.states[e'.m]) ==> NoneShared(e.run.states[e.m], e'.run.states[e'.m])
  {
    LeftAt(a, e, b.localId);
    LeftAt(b, e', a.localId);
  }

  /** Two active ends that both see their incoming connection come second are left with none. */
  lemma BothDropIncoming(a: Config, fromB: OpenMessage, b: Config, fromA: OpenMessage) returns (e: Ending, e': Ending)
    requires !a.passive && !b.passive
    requires ValidOpen(a, fromB) && fromB.bgpId == b.localId && NegotiatedHoldTime(a.holdTime, fromB.holdTime) != 0
    requires ValidOpen(b, fromA) && fromA.bgpId == a.localId && NegotiatedHoldTime(b.holdTime, fromA.holdTime) != 0
    ensures Through(a, e, b.localId) && Through(b, e', a.localId)
    ensures NoneShared(e.run.states[e.m], e'.run.states[e'.m])
  {
    var r, k, m := IncomingSecond(a, fromB);
    e := Ending(r, k, m, In, CONFIRM);
    var r', k', m' := IncomingSecond(b, fromA);
    e' := Ending(r', k', m', In, CONFIRM);
  }
}
