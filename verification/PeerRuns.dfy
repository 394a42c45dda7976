/**
  Ways through the transition system: reachable states, stretches of a run in which the peer
  goroutine is busy, and how such stretches are put together into runs.
  */
module PeerRuns {
  import opened Fsm
  import opened Peer

  /** The state ends a run. */
  ghost predicate Reachable(c: Config, s: System) {
    exists r :: IsRun(c, r) && Last(r) == s
  }

  function Last(r: Run): System
    requires |r.states| > 0
  {
    r.states[|r.states| - 1]
  }

  lemma InitIsReachable(c: Config)
    ensures Reachable(c, Init(c))
  {
    var r := Run([], [Init(c)]);
    assert IsRun(c, r) && Last(r) == Init(c);
  }

  /** One more action at the end of a run. */
  lemma OneMore(c: Config, r: Run, a: Action) returns (r': Run)
    requires IsRun(c, r) && Enabled(Last(r), a)
    ensures r' == Run(r.actions + [a], r.states + [Apply(Last(r), a)])
    ensures IsRun(c, r') && Last(r') == Apply(Last(r), a)
  {
    r' := Run(r.actions + [a], r.states + [Apply(Last(r), a)]);
  }

  lemma ActionStaysReachable(c: Config, s: System, a: Action)
    requires Reachable(c, s) && Enabled(s, a)
    ensures Reachable(c, Apply(s, a))
  {
    var r :| IsRun(c, r) && Last(r) == s;
    var r' := OneMore(c, r, a);
  }

  // ----- busy stretches

  /** The actions lead from s to s', and the peer is not at its loop before s'. */
  ghost predicate Busy(s: System, actions: seq<Action>, s': System)
    decreases |actions|
  {
    if actions == [] then s == s'
    else !s.AtLoop() && Enabled(s, actions[0]) && Busy(Apply(s, actions[0]), actions[1..], s')
  }

  ghost predicate BusyPath(s: System, s': System) {
    exists actions :: Busy(s, actions, s')
  }

  lemma PathStep(s: System, a: Action)
    requires !s.AtLoop() && Enabled(s, a)
    ensures BusyPath(s, Apply(s, a))
  {
    var actions := [a];
    assert actions[1..] == [];
    assert Busy(s, actions, Apply(s, a));
  }

  lemma {:induction false} BusyTwice(s: System, actions: seq<Action>, s': System, more: seq<Action>, s'': System)
    requires Busy(s, actions, s') && Busy(s', more, s'')
    ensures Busy(s, actions + more, s'')
    decreases |actions|
  {
    if actions == [] {
      assert actions + more == more;
    } else {
      BusyTwice(Apply(s, actions[0]), actions[1..], s', more, s'');
      assert (actions + more)[1..] == actions[1..] + more;
    }
  }

  lemma PathTwice(s: System, s': System, s'': System)
    requires BusyPath(s, s') && BusyPath(s', s'')
    ensures BusyPath(s, s'')
  {
    var actions :| Busy(s, actions, s');
    var more :| Busy(s', more, s'');
    BusyTwice(s, actions, s', more, s'');
  }

  /** Run r' goes on from the end of r, without a visit to the loop before its own end. */
  ghost predicate Continues(r: Run, r': Run) {
    && |r.states| == |r.actions| + 1 && |r'.states| == |r'.actions| + 1
    && r.actions <= r'.actions && r.states <= r'.states
    && forall j :: |r.actions| <= j < |r'.actions| ==> !r'.states[j].AtLoop()
  }

  lemma ContinuesTwice(r: Run, r': Run, r'': Run)
    requires Continues(r, r') && Continues(r', r'')
    ensures Continues(r, r'')
  {
    assert forall j :: 0 <= j < |r'.states| ==> r''.states[j] == r'.states[j];
  }

  lemma {:induction false} BusyRun(c: Config, r: Run, actions: seq<Action>, s: System) returns (r': Run)
    requires IsRun(c, r) && Busy(Last(r), actions, s)
    ensures IsRun(c, r') && Continues(r, r') && Last(r') == s
    decreases |actions|
  {
    if actions == [] {
      r' := r;
    } else {
      var next := OneMore(c, r, actions[0]);
      OneContinues(r, next, actions[0]);
      r' := BusyRun(c, next, actions[1..], s);
      ContinuesTwice(r, next, r');
    }
  }

  lemma OneContinues(r: Run, r': Run, a: Action)
    requires |r.states| == |r.actions| + 1 && !Last(r).AtLoop() && Enabled(Last(r), a)
    requires r' == Run(r.actions + [a], r.states + [Apply(Last(r), a)])
    ensures Continues(r, r') && r'.actions[|r.actions|] == a
  {
  }

  /** A busy path from the end of a run continues it. */
  lemma PathRun(c: Config, r: Run, s: System) returns (r': Run)
    requires IsRun(c, r) && BusyPath(Last(r), s)
    ensures IsRun(c, r') && Continues(r, r') && Last(r') == s
  {
    var actions :| Busy(Last(r), actions, s);
    r' := BusyRun(c, r, actions, s);
  }

  lemma PathStaysReachable(c: Config, s: System, s': System)
    requires Reachable(c, s) && BusyPath(s, s')
    ensures Reachable(c, s')
  {
    var r :| IsRun(c, r) && Last(r) == s;
    var r' := PathRun(c, r, s');
  }
}
