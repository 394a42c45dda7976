/**
  Damping over whole runs: which delays are imposed, when they double and when they start
  over, and what hold-down means for the FSMs.
  */
module PeerDamping {
  import opened Notifications
  import opened Peer
  import opened PeerInvariant

  predicate IsDelay(d: nat) {
    d == 60 * SECOND || d == 120 * SECOND || d == 240 * SECOND || d == 300 * SECOND
  }

  /** The delay imposed for an error `gap` nanoseconds after the one that imposed `previous`. */
  function NextDelay(previous: nat, gap: int): nat {
    if gap >= ERROR_AMNESIA_TIME then 60 * SECOND
    else if previous == 240 * SECOND then 300 * SECOND
    else 2 * previous
  }

  /** An error at t imposes d after an error at t0 imposed d0. */
  predicate Follows(d0: nat, t0: nat, d: nat, t: nat) {
    t0 + d0 <= t && d == NextDelay(d0, t as int - t0)
  }

  /** The history of delays: where it starts, how it continues, and how far apart errors are. */
  predicate History(delays: seq<nat>, times: seq<nat>) {
    && |delays| == |times|
    && (forall k :: 0 <= k < |delays| ==> IsDelay(delays[k]))
    && (|delays| > 0 ==> delays[0] == 60 * SECOND)
    && (forall k :: 0 < k < |delays| ==> Follows(delays[k - 1], times[k - 1], delays[k], times[k]))
  }

  predicate Consistent(d: Damping, now: nat, done: bool) {
    && History(d.delays, d.errorTimes)
    && (d.lastError.None? <==> |d.delays| == 0)
    && (d.lastError.None? ==> d.delay == 0 && !d.holdDown)
    && (d.lastError.Some? ==>
          && d.delay == d.delays[|d.delays| - 1]
          && d.lastError.value == d.errorTimes[|d.delays| - 1] <= now
          && (d.holdDown && !done ==> d.deadline == Some(d.lastError.value + d.delay))
          && (!d.holdDown ==> now >= d.lastError.value + d.delay))
  }

  predicate DampingOk(s: System) {
    Consistent(s.damping, s.now, s.done)
  }

  lemma HistoryAppend(delays: seq<nat>, times: seq<nat>, d: nat, t: nat)
    requires History(delays, times) && IsDelay(d)
    requires if |delays| == 0 then d == 60 * SECOND
             else Follows(delays[|delays| - 1], times[|delays| - 1], d, t)
    ensures History(delays + [d], times + [t])
  {
    var delays', times' := delays + [d], times + [t];
    assert forall k :: 0 <= k < |delays| ==> delays'[k] == delays[k] && times'[k] == times[k];
  }

  /** updateStartupDelay in a table: forget, double, or cap. */
  lemma DampDelay(d: Damping, now: nat)
    requires d.lastError.Some? && d.lastError.value <= now && IsDelay(d.delay) && now >= d.lastError.value + d.delay
    ensures DampPeer(d, now).delay == NextDelay(d.delay, now as int - d.lastError.value)
    ensures IsDelay(DampPeer(d, now).delay)
  {
  }

  /** The next damping error comes after the last delay has run out. */
  lemma DampKeepsHistory(d: Damping, now: nat)
    requires Consistent(d, now, false) && !d.holdDown
    ensures History(DampPeer(d, now).delays, DampPeer(d, now).errorTimes)
  {
    if d.lastError.Some? {
      DampDelay(d, now);
    }
    HistoryAppend(d.delays, d.errorTimes, DampPeer(d, now).delay, now);
  }

  lemma DampKeepsConsistent(d: Damping, now: nat)
    requires Consistent(d, now, false) && !d.holdDown
    ensures Consistent(DampPeer(d, now), now, false)
  {
    DampKeepsHistory(d, now);
  }

  lemma PeerStepKeepsDamping(s: System)
    requires Inv(s) && DampingOk(s) && CanPeerStep(s)
    ensures DampingOk(PeerStepOf(s))
  {
    var s' := PeerStepOf(s);
    if s.todo.op.Damp? {
      DampKeepsConsistent(s.damping, s.now);
      assert s'.damping == DampPeer(s.damping, s.now);
    } else if s.todo.op.Finish? {
      assert s'.damping == s.damping.(deadline := None) && s'.done;
    } else {
      assert s'.damping == s.damping;
    }
  }

  lemma HoldDownEnds(d: Damping, now: nat)
    requires Consistent(d, now, false) && d.holdDown && d.deadline.Some? && now >= d.deadline.value
    ensures Consistent(d.(holdDown := false, deadline := None), now, false)
  {
  }

  lemma ActionKeepsDamping(s: System, a: Action)
    requires Inv(s) && DampingOk(s) && Enabled(s, a)
    ensures DampingOk(Apply(s, a))
  {
    var s' := Apply(s, a);
    if a.PeerStep? {
      PeerStepKeepsDamping(s);
    } else if a.StartupDelayExpired? {
      HoldDownEnds(s.damping, s.now);
      assert s'.damping == s.damping.(holdDown := false, deadline := None);
    } else {
      assert s'.damping == s.damping && s'.now >= s.now && s'.done == s.done;
    }
  }

  /** A delay of 300 s is always followed by one of 60 s: the next error is past amnesia. */
  lemma LongestDelayIsForgotten(s: System, k: nat)
    requires DampingOk(s) && k + 1 < |s.damping.delays| && s.damping.delays[k] == 300 * SECOND
    ensures s.damping.delays[k + 1] == 60 * SECOND
  {
    var d := s.damping;
    assert Follows(d.delays[k + 1 - 1], d.errorTimes[k + 1 - 1], d.delays[k + 1], d.errorTimes[k + 1]);
  }
}
