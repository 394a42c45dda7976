/**
  The main results about a peer: statements over every run of the peer goroutine and its
  FSM goroutines, for every configuration, network, plugin and schedule.
  */
module PeerTheorems {
  import opened Notifications
  import opened Fsm
  import opened FsmProofs
  import opened Peer
  import opened PeerInvariant
  import opened PeerSafety
  import opened PeerSessions
  import opened PeerCollision
  import opened PeerDamping
  import opened PeerRuns
  import opened PeerHold
  import opened PeerAlive
  import opened PeerShutdown
  import opened PeerProgress
  import opened PeerSurvivor
  import opened PeerWire

  ghost predicate Good(s: System) {
    Inv(s) && FsmsOk(s) && SessionsOk(s) && RaceOk(s) && DampingOk(s) && HoldsOk(s) && AliveOk(s) && OpensOk(s)
  }

  lemma InitIsGood(c: Config)
    ensures Good(Init(c))
  {
    InitInv(c);
    NewFsmInv(Out);
  }

  lemma ActionKeepsGood(s: System, a: Action)
    requires Good(s) && Enabled(s, a)
    ensures Good(Apply(s, a))
  {
    ActionKeepsInv(s, a);
    ActionKeepsFsms(s, a);
    ActionKeepsSessions(s, a);
    ActionKeepsRace(s, a);
    ActionKeepsDamping(s, a);
    ActionKeepsHolds(s, a);
    ActionKeepsAlive(s, a);
    ActionKeepsOpens(s, a);
  }

  /** Everything above holds in every state of every run. */
  lemma {:induction false} RunIsGood(c: Config, r: Run, k: nat)
    requires IsRun(c, r) && k < |r.states|
    ensures Good(r.states[k])
  {
    if k == 0 {
      InitIsGood(c);
    } else {
      RunIsGood(c, r, k - 1);
      ActionKeepsGood(r.states[k - 1], r.actions[k - 1]);
    }
  }

  /**
    The plugin's callbacks form (OnEstablished, update handler calls, OnClose) repeated,
    each bracket belongs to one FSM, and GetCapabilities and OnOpenMessage are never called
    while a session is open.
    */
  lemma CallbacksAreBracketed(c: Config, r: Run, k: nat)
    requires IsRun(c, r) && k < |r.states|
    ensures Bracketed(r.states[k].calls)
  {
    RunIsGood(c, r, k);
    SessionsAreBracketed(r.states[k].calls);
  }

  /**
    A recorded state belongs to an occupied slot, a slot recorded Established is alone, and
    whenever the peer is back at its loop at most one slot is in OpenConfirm or Established.
    */
  lemma SlotsOverRuns(c: Config, r: Run, k: nat, i: Side)
    requires IsRun(c, r) && k < |r.states|
    ensures var s := r.states[k];
            && (s.recorded.Get(i) != Disabled ==> s.Occupied(i))
            && (s.recorded.Get(i) == Established ==> s.slots.Get(Other(i)).None?)
            && (s.todo.Nil? ==> !(Up(s.recorded.Get(i)) && Up(s.recorded.Get(Other(i)))))
            && (s.todo.Then? && s.todo.op.Handle? ==> s.recorded.Get(Other(s.todo.op.i)) != Established)
  {
    RunIsGood(c, r, k);
    var s := r.states[k];
    if s.todo.Then? && s.todo.op.Handle? {
      NoCollisionWithEstablished(s);
    }
  }

  /** Every live FSM sits in its own slot and addresses that slot's channels. */
  lemma ChannelsOverRuns(c: Config, r: Run, k: nat, id: nat)
    requires IsRun(c, r) && k < |r.states| && id < |r.states[k].heap| && r.states[k].heap[id].pc != Done
    ensures var s := r.states[k];
            s.ChannelOf(id) == s.heap[id].side && s.slots.Get(s.heap[id].side) == Some(id)
  {
    RunIsGood(c, r, k);
    AddressesOwnChannel(r.states[k], id);
  }

  lemma WireIsOrdered(c: Config, r: Run, k: nat, id: nat)
    requires IsRun(c, r) && k < |r.states| && id < |r.states[k].heap|
    ensures var log := r.states[k].heap[id].log;
            WellOrdered(log.wire) && forall n :: 0 <= n < |log.earlier| ==> WellOrdered(log.earlier[n])
  {
    RunIsGood(c, r, k);
    var log := r.states[k].heap[id].log;
    GoodWireIffWellOrdered(log.wire);
    forall n | 0 <= n < |log.earlier| ensures WellOrdered(log.earlier[n]) {
      GoodWireIffWellOrdered(log.earlier[n]);
    }
  }

  /** Some action before state k had FSM `id` accept an OPEN on its connection n. */
  ghost predicate AcceptedBefore(r: Run, k: nat, id: nat, n: nat) {
    exists j :: 0 <= j < k && j < |r.actions| && j < |r.states| && AcceptsOpenOn(r.states[j], r.actions[j], id, n)
  }

  lemma MarkNext(c: Config, r: Run, k: nat, id: nat, n: nat)
    requires IsRun(c, r) && k < |r.actions| && Marked(r.states[k + 1], id, n)
    ensures Marked(r.states[k], id, n) || AcceptsOpenOn(r.states[k], r.actions[k], id, n)
  {
    RunIsGood(c, r, k);
    ActionMark(r.states[k], r.actions[k], id, n);
  }

  lemma InitUnmarked(c: Config, id: nat, n: nat)
    ensures !Marked(Init(c), id, n)
  {
  }

  lemma AcceptedOneMore(r: Run, k: nat, id: nat, n: nat)
    requires k < |r.actions| && k < |r.states|
    requires AcceptedBefore(r, k, id, n) || AcceptsOpenOn(r.states[k], r.actions[k], id, n)
    ensures AcceptedBefore(r, k + 1, id, n)
  {
  }

  lemma {:induction false} MarkMeansAccepted(c: Config, r: Run, k: nat, id: nat, n: nat)
    requires IsRun(c, r) && k < |r.states| && Marked(r.states[k], id, n)
    ensures AcceptedBefore(r, k, id, n)
  {
    if k == 0 {
      InitUnmarked(c, id, n);
    } else {
      MarkNext(c, r, k - 1, id, n);
      if Marked(r.states[k - 1], id, n) {
        MarkMeansAccepted(c, r, k - 1, id, n);
      }
      AcceptedOneMore(r, k - 1, id, n);
    }
  }

  /**
    A KEEPALIVE on a connection means that earlier, when only the OPEN had been written on
    it, the FSM received an OPEN on it in state OpenSent that passed validation and that the
    plugin did not refuse.
    */
  lemma KeepAliveMeansAccepted(c: Config, r: Run, k: nat, id: nat, n: nat)
    requires IsRun(c, r) && k < |r.states| && id < |r.states[k].heap|
    requires SentKeepAlive in ConnOf(r.states[k].heap[id].log, n)
    ensures AcceptedBefore(r, k, id, n)
  {
    var w := ConnOf(r.states[k].heap[id].log, n);
    WireIsOrdered(c, r, k, id);
    assert WellOrdered(w);
    var i :| 0 <= i < |w| && w[i] == SentKeepAlive;
    assert w[1] == AcceptedOpen;
    MarkMeansAccepted(c, r, k, id, n);
  }

  /**
    The writes of every FSM on each of its connections are well ordered, and a connection
    that carries a KEEPALIVE is one on which an OPEN was accepted before.
    */
  lemma WritesAreOrdered(c: Config, r: Run, k: nat, id: nat, n: nat)
    requires IsRun(c, r) && k < |r.states| && id < |r.states[k].heap| && n <= |r.states[k].heap[id].log.earlier|
    ensures WellOrdered(ConnOf(r.states[k].heap[id].log, n))
    ensures SentKeepAlive in ConnOf(r.states[k].heap[id].log, n) ==> AcceptedBefore(r, k, id, n)
  {
    WireIsOrdered(c, r, k, id);
    if SentKeepAlive in ConnOf(r.states[k].heap[id].log, n) {
      KeepAliveMeansAccepted(c, r, k, id, n);
    }
  }

  /**
    An FSM in Established has a hold timer that is running or has expired, and that was last
    started with the negotiated hold time, be it zero; its expiry ends the session with a
    NOTIFICATION.
    */
  lemma HoldTimerCanEndSession(c: Config, r: Run, k: nat, id: nat)
    requires IsRun(c, r) && k < |r.states| && id < |r.states[k].heap|
    requires r.states[k].heap[id].pc == Body(Established)
    ensures var f := r.states[k].heap[id];
            var g := if f.timers.hold.Fired? then f else FireTimer(f, HoldTimer);
            && f.timers.holdFor == f.holdTime
            && (f.timers.hold.Fired? || CanStep(f, TimerFires(HoldTimer)))
            && CanStep(g, HoldExpired)
            && Step(c, g, HoldExpired).fsm.pc == Leaving(Idle, NotificationError(HOLD_TIMER_EXPIRED, true))
  {
    RunIsGood(c, r, k);
  }

  /** If the hold timer has expired at state j, it still has at the next. */
  predicate StaysExpired(r: Run, j: nat, id: nat) {
    j + 1 < |r.states| && (Expired(r.states[j], id) ==> Expired(r.states[j + 1], id))
  }

  lemma ExpiredNext(c: Config, r: Run, j: nat, id: nat)
    requires IsRun(c, r) && j < |r.actions|
    requires id < |r.states[j + 1].heap| && InEstablished(r.states[j + 1].heap[id])
    ensures StaysExpired(r, j, id)
  {
    if Expired(r.states[j], id) {
      ActionKeepsExpired(r.states[j], r.actions[j], id);
    }
  }

  lemma {:induction false} ExpiredCarried(r: Run, k: nat, m: nat, id: nat)
    requires k <= m < |r.states| && Expired(r.states[k], id)
    requires forall j :: k <= j < m ==> StaysExpired(r, j, id)
    ensures Expired(r.states[m], id)
  {
    if k < m {
      ExpiredCarried(r, k, m - 1, id);
      assert StaysExpired(r, m - 1, id);
    }
  }

  /**
    In a session with hold time zero, once the hold timer has expired nothing restarts it: the
    branch that ends the session stays enabled whenever the FSM is back at its select.
    */
  lemma ExpiryStaysPending(c: Config, r: Run, k: nat, m: nat, id: nat)
    requires IsRun(c, r) && k <= m < |r.states| && Expired(r.states[k], id)
    requires forall j :: k <= j <= m ==> id < |r.states[j].heap| && InEstablished(r.states[j].heap[id])
    ensures Expired(r.states[m], id)
    ensures r.states[m].heap[id].pc == Body(Established) ==> CanStep(r.states[m].heap[id], HoldExpired)
  {
    forall j | k <= j < m ensures StaysExpired(r, j, id) {
      ExpiredNext(c, r, j, id);
    }
    ExpiredCarried(r, k, m, id);
  }

  /** At most one reader per FSM, never without a connection, and no receive that blocks forever. */
  lemma ReadersAndTimers(c: Config, r: Run, k: nat, id: nat)
    requires IsRun(c, r) && k < |r.states| && id < |r.states[k].heap|
    ensures var f := r.states[k].heap[id];
            f.link.orphans == 0 && (f.link.reader ==> f.link.conn) && !f.pc.Blocked?
  {
    RunIsGood(c, r, k);
  }

  /**
    A granted transition finds every resource its state function uses, with one exception:
    the process panics exactly when OpenConfirm is granted to an FSM all of whose
    negotiated hold times were zero.
    */
  lemma GrantPanicsIff(c: Config, r: Run, k: nat, id: nat)
    requires IsRun(c, r) && k < |r.actions| && r.actions[k] == Grant(id)
    ensures id < |r.states[k].heap| && id < |r.states[k + 1].heap|
    ensures var f := r.states[k].heap[id];
            var g := r.states[k + 1].heap[id];
            && f.pc.Await?
            && (g.pc.Panicked? <==> f.pc.t.to == OpenConfirm && AllZero(f.log.negotiated))
            && (!g.pc.Panicked? ==> Equipped(g, f.pc.t.to))
  {
    RunIsGood(c, r, k);
    GrantOutcome(r.states[k], id);
  }

  /** So a run in which no negotiated hold time is zero never panics. */
  lemma NonZeroHoldTimeNeverPanics(c: Config, r: Run, k: nat)
    requires IsRun(c, r) && k < |r.states|
    requires forall id, n :: 0 <= id < |r.states[k].heap| && 0 <= n < |r.states[k].heap[id].log.negotiated| ==>
               r.states[k].heap[id].log.negotiated[n] != 0
    ensures !Crashed(r.states[k])
  {
    RunIsGood(c, r, k);
    var s := r.states[k];
    forall id | 0 <= id < |s.heap| ensures !s.heap[id].pc.Panicked? {
      if s.heap[id].pc.Panicked? {
        PanicMeansZeroHoldTime(s.heap[id]);
      }
    }
  }

  /**
    Once a race has been decided and the peer is back at its loop, exactly one connection
    is left, unless a stop was requested: the outgoing one in OpenConfirm, or the incoming
    one in Established if it had asked for Established before it could be closed.
    */
  lemma RaceLeavesOneConnection(c: Config, r: Run, k: nat)
    requires IsRun(c, r) && k < |r.states|
    ensures var s := r.states[k];
            s.todo.Nil? && !s.closing && !s.race.NoRace? ==>
              if s.race.KeptOut? then s.Occupied(Out) && s.slots.incoming.None? && s.recorded.outgoing == OpenConfirm
              else s.Occupied(In) && s.slots.outgoing.None? && s.recorded.incoming == Established
  {
    RunIsGood(c, r, k);
  }

  /**
    Collision handling recurses at most once and starts only for the outgoing FSM; while it
    waits, the incoming FSM is in its slot and its close channel is still open; and the
    peer can always get back to its loop.
    */
  lemma CollisionsOverRuns(c: Config, r: Run, k: nat)
    requires IsRun(c, r) && k < |r.states| && r.states[k].todo.Then?
    ensures var s := r.states[k];
            && (s.todo.op.Handle? ==> s.todo.op.depth <= 1)
            && (s.todo.op.Collide? ==>
                  s.todo.op.depth == 0 && s.todo.op.i == Out && s.Occupied(In) && !s.Occupant(In).closed)
    ensures exists actions :: LeadsBack(r.states[k], actions)
  {
    BusyPeerReturns(c, r, k);
    RunIsGood(c, r, k);
    var s := r.states[k];
    CollisionDepth(s);
    if s.todo.op.Collide? {
      RaceTargetIsOpen(s);
    }
  }

  lemma {:induction false} ConfigStays(c: Config, r: Run, k: nat)
    requires IsRun(c, r) && k < |r.states|
    ensures r.states[k].config == c
  {
    if k > 0 {
      ConfigStays(c, r, k - 1);
      ConfigStaysNext(r.states[k - 1], r.actions[k - 1]);
    }
  }

  lemma ConfigStaysNext(s: System, a: Action)
    requires Enabled(s, a)
    ensures Apply(s, a).config == s.config
  {
  }

  // ----- the outcome of a collision

  lemma {:induction false} OpenBefore(c: Config, r: Run, k: nat, m: nat)
    requires IsRun(c, r) && k <= m < |r.states| && !r.states[m].closing
    ensures !r.states[k].closing
    decreases m - k
  {
    if k < m {
      OpenBefore(c, r, k + 1, m);
      ClosingStaysNext(r.states[k], r.actions[k]);
    }
  }

  lemma ClosingStaysNext(s: System, a: Action)
    requires Enabled(s, a)
    ensures s.closing ==> Apply(s, a).closing
  {
  }

  /** From state k to state m the peer is busy with the request of side i that collides. */
  ghost predicate DealsWith(c: Config, r: Run, k: nat, m: nat, i: Side, t: Transition) {
    && IsRun(c, r) && k <= m < |r.states| && Collision(r.states[k], i, t)
    && (forall j :: k <= j < m ==> !r.states[j].AtLoop())
    && !r.states[m].closing
  }

  /** Between states k and m a race was lost to an FSM that asked for Established. */
  ghost predicate RaceLost(r: Run, k: nat, m: nat) {
    exists j :: k <= j < m && j < |r.actions| && j < |r.states| && LosesRace(r.states[j], r.actions[j])
  }

  lemma LostOneMore(r: Run, k: nat, m: nat)
    requires k <= m < |r.actions| && m < |r.states|
    ensures RaceLost(r, k, m + 1) <==> RaceLost(r, k, m) || LosesRace(r.states[m], r.actions[m])
  {
  }

  /** The action at m carries what is settled over to the next state. */
  predicate Carries(r: Run, m: nat, i: Side, t: Transition, dominant: bool, lost: bool) {
    && m + 1 < |r.states| && m < |r.actions|
    && (Resolving(r.states[m], i, t, dominant, lost) ==>
          Resolving(r.states[m + 1], i, t, dominant, lost || LosesRace(r.states[m], r.actions[m])))
  }

  lemma ResolvingNext(c: Config, r: Run, m: nat, i: Side, t: Transition, dominant: bool, lost: bool)
    requires IsRun(c, r) && m < |r.actions| && !r.states[m].AtLoop() && !r.states[m + 1].closing
    ensures Carries(r, m, i, t, dominant, lost)
  {
    if Resolving(r.states[m], i, t, dominant, lost) {
      RunIsGood(c, r, m);
      ActionKeepsResolving(r.states[m], r.actions[m], i, t, dominant, lost);
    }
  }

  lemma {:induction false} CarriedOver(r: Run, k: nat, m: nat, i: Side, t: Transition, dominant: bool)
    requires k <= m < |r.states| && m <= |r.actions| && Resolving(r.states[k], i, t, dominant, false)
    requires forall j, lost :: k <= j < m ==> Carries(r, j, i, t, dominant, lost)
    ensures Resolving(r.states[m], i, t, dominant, RaceLost(r, k, m))
  {
    if k < m {
      CarriedOver(r, k, m - 1, i, t, dominant);
      LostOneMore(r, k, m - 1);
      assert Carries(r, m - 1, i, t, dominant, RaceLost(r, k, m - 1));
    }
  }

  lemma ResolvingAtFirst(c: Config, r: Run, k: nat, i: Side, t: Transition)
    requires IsRun(c, r) && k < |r.states| && Collision(r.states[k], i, t)
    ensures Resolving(r.states[k], i, t, DominantOn(r.states[k], i), false)
  {
    RunIsGood(c, r, k);
    CollisionBegins(r.states[k], i, t);
  }

  lemma ResolvingOverRun(c: Config, r: Run, k: nat, m: nat, i: Side, t: Transition)
    requires DealsWith(c, r, k, m, i, t)
    ensures Resolving(r.states[m], i, t, DominantOn(r.states[k], i), RaceLost(r, k, m))
  {
    var dominant := DominantOn(r.states[k], i);
    ResolvingAtFirst(c, r, k, i, t);
    forall j, lost | k <= j < m ensures Carries(r, j, i, t, dominant, lost) {
      OpenBefore(c, r, j + 1, m);
      ResolvingNext(c, r, j, i, t, dominant, lost);
    }
    CarriedOver(r, k, m, i, t, dominant);
  }

  /**
    When the peer is back at its loop after a collision, unless it is stopping, exactly one
    connection is left. It is the one the quoted rule keeps exactly when, for a dominant
    router, the later connection was the incoming one or the race was not lost to a request
    for Established, and for any other router, the later connection was the outgoing one.
    */
  lemma CollisionFollowsRuleIff(c: Config, r: Run, k: nat, m: nat, i: Side, t: Transition)
    requires DealsWith(c, r, k, m, i, t) && r.states[m].AtLoop()
    ensures Only(r.states[m], Out) || Only(r.states[m], In)
    ensures Only(r.states[m], RuleKeeps(r.states[k].config, r.states[k].Occupant(i).remoteId)) <==>
            if LocalIsLarger(r.states[k].config, r.states[k].Occupant(i).remoteId) then i == In || !RaceLost(r, k, m)
            else i == Out
  {
    DominantIff(r.states[k].config, r.states[k].Occupant(i).remoteId);
    ResolvingOverRun(c, r, k, m, i, t);
    ResolvedAtLoop(r.states[m], i, t, DominantOn(r.states[k], i), RaceLost(r, k, m));
  }

  /** A dominant router loses its outgoing connection only to an incoming one that had asked for Established. */
  lemma IncomingWinsOnlyByEstablishing(c: Config, r: Run, k: nat, m: nat, t: Transition) returns (j: nat)
    requires DealsWith(c, r, k, m, Out, t) && r.states[m].AtLoop()
    requires LocalIsLarger(r.states[k].config, r.states[k].Occupant(Out).remoteId)
    requires r.states[m].slots.outgoing.None?
    ensures k <= j < m && r.actions[j].CollideReceive? && r.actions[j].id < |r.states[j].heap|
    ensures var f := r.states[j].heap[r.actions[j].id];
            f.side == In && f.pc == Offer(Transition(OpenConfirm, Established))
  {
    CollisionFollowsRuleIff(c, r, k, m, Out, t);
    j :| k <= j < m && LosesRace(r.states[j], r.actions[j]);
    RunIsGood(c, r, j);
    OfferOfRace(r.states[j], r.actions[j].id);
  }

  lemma OfferOfRace(s: System, id: nat)
    requires Inv(s) && Enabled(s, CollideReceive(id)) && s.heap[id].pc.t.to == Established
    ensures s.heap[id].side == In && s.heap[id].pc == Offer(Transition(OpenConfirm, Established))
  {
    AddressesOwnChannel(s, id);
  }

  // ----- the peer gets back to its loop

  lemma LightOverRun(c: Config, r: Run, k: nat)
    requires IsRun(c, r) && k < |r.states|
    ensures Weight(r.states[k].todo) <= 8
  {
    RunIsGood(c, r, k);
    AgendaIsLight(r.states[k]);
  }

  lemma BusyNext(c: Config, r: Run, m: nat)
    requires IsRun(c, r) && m < |r.actions| && r.states[m].todo.Then?
    ensures Weight(r.states[m + 1].todo) + (if IsOwn(r.actions[m]) then 1 else 0) <= Weight(r.states[m].todo)
  {
    RunIsGood(c, r, m);
    BusyAction(r.states[m], r.actions[m]);
  }

  /** The agenda after each state of a run. */
  function Weights(r: Run): seq<nat> {
    seq(|r.states|, j requires 0 <= j < |r.states| => Weight(r.states[j].todo))
  }

  lemma {:induction false} OwnActionsCount(ws: seq<nat>, actions: seq<Action>, k: nat, m: nat)
    requires k <= m < |ws| && m <= |actions|
    requires forall j :: k <= j < m ==> ws[j + 1] + (if IsOwn(actions[j]) then 1 else 0) <= ws[j]
    ensures OwnActions(actions[k..m]) + ws[m] <= ws[k]
  {
    if k < m {
      OwnActionsCount(ws, actions, k, m - 1);
      OwnOneMore(actions[k..m - 1], actions[m - 1]);
      assert actions[k..m] == actions[k..m - 1] + [actions[m - 1]];
      assert ws[m - 1 + 1] == ws[m];
    }
  }

  /** Between two visits of its loop the peer goroutine takes at most eight actions of its own, in every schedule. */
  lemma BusyIsBounded(c: Config, r: Run, k: nat, m: nat)
    requires IsRun(c, r) && k <= m < |r.states| && forall j :: k <= j < m ==> r.states[j].todo.Then?
    ensures OwnActions(r.actions[k..m]) + Weight(r.states[m].todo) <= Weight(r.states[k].todo) <= 8
  {
    LightOverRun(c, r, k);
    var ws := Weights(r);
    forall j | k <= j < m ensures ws[j + 1] + (if IsOwn(r.actions[j]) then 1 else 0) <= ws[j] {
      BusyNext(c, r, j);
    }
    OwnActionsCount(ws, r.actions, k, m);
  }

  /**
    Without any request to stop, a peer that is not at its loop can always get back there:
    whatever it waits for in sendTransitionToFSM, in disableFSM or in a race is enabled or
    can be brought about, unless a goroutine that was granted a transition panics.
    */
  lemma BusyPeerReturns(c: Config, r: Run, k: nat)
    requires IsRun(c, r) && k < |r.states|
    ensures exists actions :: LeadsBack(r.states[k], actions)
  {
    RunIsGood(c, r, k);
    var actions := BackToLoop(r.states[k]);
  }

  /** These actions, the first of which is the request, are enabled one after the other and end the peer. */
  ghost predicate StopsBy(s: System, actions: seq<Action>) {
    && |actions| > 0 && actions[0] == StopRequested
    && Exec(s, actions).Some? && Exec(s, actions).value.done && NothingRuns(Exec(s, actions).value)
  }

  /** From every state of every run that has not panicked, stop() can complete and leaves no FSM goroutine. */
  lemma StopCanComplete(c: Config, r: Run, k: nat)
    requires IsRun(c, r) && k < |r.states| && !Crashed(r.states[k])
    ensures exists actions :: StopsBy(r.states[k], actions)
  {
    RunIsGood(c, r, k);
    var s := r.states[k];
    ActionKeepsInv(s, StopRequested);
    ActionKeepsFsms(s, StopRequested);
    var more := ClosingCompletes(Apply(s, StopRequested));
    var actions := [StopRequested] + more;
    assert actions[1..] == more;
    assert StopsBy(s, actions);
  }

  /**
    Delays are 60, 120, 240 or 300 seconds; each follows from the one before and the time
    between the two errors; and hold-down means both slots empty and the timer armed.
    */
  lemma DampingOverRuns(c: Config, r: Run, k: nat)
    requires IsRun(c, r) && k < |r.states|
    ensures var s := r.states[k];
            && History(s.damping.delays, s.damping.errorTimes)
            && (forall n :: 0 <= n < |s.damping.delays| - 1 && s.damping.delays[n] == 300 * SECOND ==>
                  s.damping.delays[n + 1] == 60 * SECOND)
            && (s.damping.holdDown ==> s.slots == Pair(None, None))
            && (!s.done ==> (s.damping.holdDown <==> s.damping.deadline.Some?))
  {
    RunIsGood(c, r, k);
    var s := r.states[k];
    forall n: nat | n < |s.damping.delays| - 1 && s.damping.delays[n] == 300 * SECOND
      ensures s.damping.delays[n + 1] == 60 * SECOND
    {
      LongestDelayIsForgotten(s, n);
    }
  }

  // ----- reachable states

  lemma ReachableIsGood(c: Config, s: System)
    requires Reachable(c, s)
    ensures Good(s) && Bracketed(s.calls)
  {
    var r :| IsRun(c, r) && Last(r) == s;
    RunIsGood(c, r, |r.states| - 1);
    CallbacksAreBracketed(c, r, |r.states| - 1);
  }
}
