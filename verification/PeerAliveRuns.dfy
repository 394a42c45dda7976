/**
  Over every run: when the peer has FSMs and which, when an error leads to hold-down and what
  ends it, which errors are sent to the remote end, and which OPENs.
  */
module PeerAliveRuns {
  import opened Notifications
  import opened Fsm
  import opened FsmProofs
  import opened FsmMeaning
  import opened FsmTimers
  import opened PeerHold
  import opened Peer
  import opened PeerAlive
  import opened PeerWire
  import opened PeerTheorems

  /** At its loop, an active peer that is not held down has an FSM in a slot. */
  lemma AlwaysTrying(c: Config, r: Run, k: nat)
    requires IsRun(c, r) && k < |r.states| && r.states[k].AtLoop()
    ensures var s := r.states[k];
            !c.passive && !s.damping.holdDown ==> s.Occupied(Out) || s.Occupied(In)
  {
    RunIsGood(c, r, k);
    ConfigStays(c, r, k);
  }

  /** A passive peer never has an outgoing FSM, and an incoming FSM is never in Idle or Connect. */
  lemma OnlyOutgoingDials(c: Config, r: Run, k: nat)
    requires IsRun(c, r) && k < |r.states|
    ensures c.passive ==> r.states[k].slots.outgoing.None?
    ensures r.states[k].recorded.incoming != Idle && r.states[k].recorded.incoming != Connect
  {
    RunIsGood(c, r, k);
    ConfigStays(c, r, k);
  }

  /** The startup delay's expiry ends hold-down, and an active peer starts a new outgoing FSM. */
  lemma DelayExpiryRestarts(c: Config, r: Run, k: nat)
    requires IsRun(c, r) && k < |r.actions| && r.actions[k] == StartupDelayExpired
    ensures var s, s' := r.states[k], r.states[k + 1];
            && s.damping.holdDown && !s'.damping.holdDown && s'.damping.deadline.None?
            && s'.slots.incoming.None?
            && (c.passive ==> s'.slots.outgoing.None? && s'.heap == s.heap)
            && (!c.passive ==> s'.slots.outgoing == Some(|s.heap|) && s'.heap == s.heap + [NewFsm(Out)])
  {
    RunIsGood(c, r, k);
    ConfigStays(c, r, k);
  }

  lemma {:induction false} DampDueOverRun(c: Config, r: Run, k: nat, m: nat, n: nat)
    requires IsRun(c, r) && k <= m < |r.states| && DampDue(r.states[k], n)
    requires forall j :: k <= j < m ==> !r.states[j].AtLoop()
    ensures DampDue(r.states[m], n)
  {
    if k < m {
      DampDueOverRun(c, r, k, m - 1, n);
      DampDueNext(c, r, m - 1, n);
    }
  }

  lemma DampDueNext(c: Config, r: Run, m: nat, n: nat)
    requires IsRun(c, r) && m < |r.actions| && DampDue(r.states[m], n) && !r.states[m].AtLoop()
    ensures DampDue(r.states[m + 1], n)
  {
    RunIsGood(c, r, m);
    ActionKeepsDampDue(r.states[m], r.actions[m], n);
  }

  lemma AfterError(c: Config, r: Run, k: nat, id: nat)
    requires IsRun(c, r) && k < |r.actions| && r.actions[k] == ReceiveError(id)
    ensures id < |r.states[k].heap| && r.states[k].heap[id].pc.Report?
    ensures var e, s, s' := r.states[k].heap[id].pc.error, r.states[k], r.states[k + 1];
            && !s'.AtLoop() == IsProtocolError(e)
            && (IsProtocolError(e) ==> DampDue(s', |s.damping.delays|))
            && s'.damping == s.damping && !s'.damping.holdDown
  {
    RunIsGood(c, r, k);
    ErrorStartsDamping(r.states[k], id);
  }

  /**
    After an FSM has reported an error, when the peer is back at its loop, it is held down
    exactly if the error was a NOTIFICATION other than Cease, and then one more delay has
    been imposed.
    */
  lemma ErrorDampsIff(c: Config, r: Run, k: nat, m: nat, id: nat)
    requires IsRun(c, r) && k < |r.actions| && r.actions[k] == ReceiveError(id)
    requires k < m < |r.states| && r.states[m].AtLoop() && forall j :: k < j < m ==> !r.states[j].AtLoop()
    ensures id < |r.states[k].heap| && r.states[k].heap[id].pc.Report?
    ensures var e, d, d' := r.states[k].heap[id].pc.error, r.states[k].damping, r.states[m].damping;
            && (d'.holdDown <==> e.NotificationError? && e.notification.code != 6)
            && |d'.delays| == |d.delays| + if e.NotificationError? && e.notification.code != 6 then 1 else 0
  {
    AfterError(c, r, k, id);
    if IsProtocolError(r.states[k].heap[id].pc.error) {
      DampDueOverRun(c, r, k + 1, m, |r.states[k].damping.delays|);
    } else {
      assert r.states[k + 1].AtLoop();
    }
  }

  lemma DetailsOverRuns(c: Config, r: Run, k: nat, id: nat)
    requires IsRun(c, r) && k < |r.states| && id < |r.states[k].heap|
    ensures FsmInv(r.states[k].heap[id]) && DetailsOk(r.states[k].heap[id])
  {
    RunIsGood(c, r, k);
  }

  /**
    An FSM never waits in vain: in Idle, Connect and Active a timer is running or has expired,
    unless it has a connection to use; in a session the hold timer is, and the keepalive timer
    too unless the hold time is zero. An FSM that is done has no timer running.
    */
  lemma NeverWaitsInVain(c: Config, r: Run, k: nat, id: nat)
    requires IsRun(c, r) && k < |r.states| && id < |r.states[k].heap|
    ensures var f := r.states[k].heap[id];
            && (f.pc == Body(Idle) ==> Ticking(f.timers.idleHold))
            && (f.pc == Body(Connect) ==> Ticking(f.timers.retry) && f.link.dial.Dialing?)
            && (f.pc == Body(Active) ==> f.link.conn || Ticking(f.timers.retry))
            && (AtSession(f) ==> Ticking(f.timers.hold))
            && (f.pc == Body(OpenConfirm) || f.pc == Body(Established) ==>
                  f.holdTime == 0 || Ticking(f.timers.keepAlive))
            && (f.pc == Done ==> NoneRuns(f.timers))
  {
    DetailsOverRuns(c, r, k, id);
  }

  /** An error on its way to the peer was sent to the remote end, as the last write, exactly if it says so. */
  lemma ReportedAsSent(c: Config, r: Run, k: nat, id: nat)
    requires IsRun(c, r) && k < |r.states| && id < |r.states[k].heap|
    requires r.states[k].heap[id].pc.Report? || r.states[k].heap[id].pc.Leaving?
    ensures SentAsSaid(r.states[k].heap[id].log.wire, r.states[k].heap[id].pc.error)
  {
    DetailsOverRuns(c, r, k, id);
  }

  /** Every OPEN any FSM writes on any connection is the router's own. */
  lemma OpensAreOwn(c: Config, r: Run, k: nat, id: nat, n: nat, i: nat)
    requires IsRun(c, r) && k < |r.states| && id < |r.states[k].heap|
    requires i < |ConnOf(r.states[k].heap[id].log, n)| && ConnOf(r.states[k].heap[id].log, n)[i].SentOpen?
    ensures OwnOpen(c, ConnOf(r.states[k].heap[id].log, n)[i].open)
  {
    RunIsGood(c, r, k);
    ConfigStays(c, r, k);
  }
}
