/**
  What the plugin sees: over every run its callbacks are properly bracketed sessions, and
  the sessions of the two FSM goroutines never overlap.
  */
module PeerSessions {
  import opened Notifications
  import opened Fsm
  import opened Peer
  import opened PeerInvariant
  import opened PeerSafety

  /** No session, the session of one FSM, or callbacks out of order. */
  datatype Session = NoSession | SessionOf(id: nat) | Broken

  function After(x: Session, c: Call): Session {
    match c.callback
    case OnEstablished => if x.NoSession? then SessionOf(c.id) else Broken
    case OnUpdate => if x == SessionOf(c.id) then x else Broken
    case OnClose => if x == SessionOf(c.id) then NoSession else Broken
    case _ => if x.NoSession? then x else Broken
  }

  function SessionAfter(calls: seq<Call>): Session {
    if calls == [] then NoSession else After(SessionAfter(calls[..|calls| - 1]), calls[|calls| - 1])
  }

  /** The FSM whose session is open is the one that is between OnEstablished and OnClose. */
  ghost predicate SessionsOk(s: System) {
    && !SessionAfter(s.calls).Broken?
    && (SessionAfter(s.calls).SessionOf? ==> SessionAfter(s.calls).id < |s.heap|)
    && forall id :: 0 <= id < |s.heap| ==> (InSession(s.heap[id]) <==> SessionAfter(s.calls) == SessionOf(id))
  }

  /** While one FSM is in a session no other FSM is alive. */
  lemma SessionIsAlone(s: System, id: nat, id': nat)
    requires Inv(s) && id < |s.heap| && id' < |s.heap|
    requires InSession(s.heap[id]) && s.heap[id'].pc != Done
    ensures id == id'
  {
    assert s.slots.Get(s.heap[id].side) == Some(id);
    assert s.slots.Get(s.heap[id'].side) == Some(id');
  }

  lemma SessionAfterCall(calls: seq<Call>, c: Call)
    ensures SessionAfter(calls + [c]) == After(SessionAfter(calls), c)
    ensures SessionAfter(calls + []) == SessionAfter(calls)
  {
    assert (calls + [c])[..|calls|] == calls;
    assert calls + [] == calls;
  }

  /** A callback of one FSM finds no session of another FSM open. */
  lemma CallMeetsOwnSession(s: System, id: nat, g: Fsm, call: Option<Callback>)
    requires Inv(s) && SessionsOk(s) && id < |s.heap| && LocalMove(s.heap[id], g, call) && call.Some?
    ensures SessionAfter(s.calls) == if InSession(s.heap[id]) then SessionOf(id) else NoSession
  {
    var session := SessionAfter(s.calls);
    if session.SessionOf? {
      SessionIsAlone(s, session.id, id);
    }
  }

  lemma MoveKeepsSessions(s: System, id: nat, g: Fsm, call: Option<Callback>)
    requires Inv(s) && SessionsOk(s) && id < |s.heap| && LocalMove(s.heap[id], g, call)
    ensures SessionsOk(s.WithFsm(id, g).(calls := s.calls + Tagged(id, call)))
  {
    if call.Some? {
      CallMeetsOwnSession(s, id, g, call);
      SessionAfterCall(s.calls, Call(id, call.value));
    } else {
      assert s.calls + [] == s.calls;
    }
    MovedSessions(s, id, g, s.calls + Tagged(id, call));
  }

  lemma MovedSessions(s: System, id: nat, g: Fsm, calls: seq<Call>)
    requires SessionsOk(s) && id < |s.heap|
    requires if InSession(g) == InSession(s.heap[id]) then SessionAfter(calls) == SessionAfter(s.calls)
             else if InSession(g) then SessionAfter(s.calls) == NoSession && SessionAfter(calls) == SessionOf(id)
             else SessionAfter(calls) == NoSession
    ensures SessionsOk(s.WithFsm(id, g).(calls := calls))
  {
  }

  /** Nothing but a local step of an FSM makes callbacks or enters and leaves sessions. */
  lemma ReplaceKeepsSessions(s: System, s': System, id: nat)
    requires SessionsOk(s) && s'.calls == s.calls && id < |s.heap| && |s'.heap| == |s.heap|
    requires s'.heap == s.heap[id := s'.heap[id]] && InSession(s'.heap[id]) == InSession(s.heap[id])
    ensures SessionsOk(s')
  {
  }

  lemma SpawnKeepsSessions(s: System, s': System, i: Side)
    requires SessionsOk(s) && s'.calls == s.calls && s'.heap == s.heap + [NewFsm(i)]
    ensures SessionsOk(s')
  {
  }

  lemma SeeCloseKeepsSession(f: Fsm)
    requires Receptive(f)
    ensures InSession(SeeClose(f)) == InSession(f)
  {
  }

  lemma LoopActionKeepsSessions(s: System, a: Action)
    requires Inv(s) && FsmsOk(s) && SessionsOk(s) && Enabled(s, a)
    requires a.Tick? || a.StopRequested? || a.IncomingConnection? || a.StartupDelayExpired? || a.LoopExits? || a.Local?
    ensures SessionsOk(Apply(s, a))
  {
    match a
    case IncomingConnection =>
      if Apply(s, a).heap != s.heap {
        SpawnKeepsSessions(s, Apply(s, a), In);
      }
    case StartupDelayExpired =>
      if Apply(s, a).heap != s.heap {
        SpawnKeepsSessions(s, Apply(s, a), Out);
      }
    case Local(id, e) =>
      StepIsMove(s.config, s.heap[id], e);
      MoveKeepsSessions(s, id, Step(s.config, s.heap[id], e).fsm, Step(s.config, s.heap[id], e).call);
    case _ =>
  }

  lemma RendezvousKeepsSessions(s: System, a: Action)
    requires SessionsOk(s) && Enabled(s, a)
    requires a.ReceiveTransition? || a.ReceiveError? || a.Grant? || a.GiveUp? || a.CollideClose? || a.CollideReceive?
    ensures SessionsOk(Apply(s, a))
  {
    match a
    case ReceiveTransition(id) => ReplaceKeepsSessions(s, Apply(s, a), id);
    case ReceiveError(id) => ReplaceKeepsSessions(s, Apply(s, a), id);
    case Grant(id) => ReplaceKeepsSessions(s, Apply(s, a), id);
    case GiveUp =>
    case CollideClose(id) =>
      SeeCloseKeepsSession(s.heap[id]);
      ReplaceKeepsSessions(s, Apply(s, a), id);
    case CollideReceive(id) => ReplaceKeepsSessions(s, Apply(s, a), id);
  }

  lemma PeerStepKeepsSessions(s: System)
    requires SessionsOk(s) && CanPeerStep(s)
    ensures SessionsOk(PeerStepOf(s))
  {
    match s.todo.op
    case Disable(i) =>
      if s.slots.Get(i).Some? {
        StartDisableKeepsSessions(s, i, s.todo.rest);
      }
    case EnableOut => EnableKeepsSessions(s.(todo := s.todo.rest));
    case _ =>
  }

  lemma StartDisableKeepsSessions(s: System, i: Side, rest: Agenda)
    requires SessionsOk(s) && s.Occupied(i)
    ensures SessionsOk(StartDisable(s, i, rest))
  {
    ReplaceKeepsSessions(s, StartDisable(s, i, rest), s.slots.Get(i).value);
  }

  lemma EnableKeepsSessions(s: System)
    requires SessionsOk(s)
    ensures SessionsOk(EnableOutgoing(s))
  {
    if EnableOutgoing(s) != s {
      SpawnKeepsSessions(s, EnableOutgoing(s), Out);
    }
  }

  lemma ActionKeepsSessions(s: System, a: Action)
    requires Inv(s) && FsmsOk(s) && SessionsOk(s) && Enabled(s, a)
    ensures SessionsOk(Apply(s, a))
  {
    if a.PeerStep? {
      PeerStepKeepsSessions(s);
    } else if a.ReceiveTransition? || a.ReceiveError? || a.Grant? || a.GiveUp? || a.CollideClose? || a.CollideReceive? {
      RendezvousKeepsSessions(s, a);
    } else {
      LoopActionKeepsSessions(s, a);
    }
  }

  // ----- what the brackets mean for the plugin

  /** Call j opened the session that is still open just before call k. */
  ghost predicate OpenedBy(calls: seq<Call>, j: nat, k: nat, id: nat) {
    && j < k <= |calls|
    && calls[j] == Call(id, OnEstablished)
    && forall m :: j < m < k ==> calls[m] == Call(id, OnUpdate)
  }

  /**
    In plain terms: an update handler call or an OnClose is preceded by the OnEstablished
    of the same FSM with only update handler calls of that FSM in between; any other call
    is made when no session is open, that is when the last session call was an OnClose.
    */
  ghost predicate Bracketed(calls: seq<Call>) {
    forall k :: 0 <= k < |calls| ==>
      if calls[k].callback.OnUpdate? || calls[k].callback.OnClose? then
        exists j: nat :: OpenedBy(calls, j, k, calls[k].id)
      else forall j: nat, id: nat :: !OpenedBy(calls, j, k, id)
  }

  lemma {:induction false} SessionMeansOpened(calls: seq<Call>)
    requires !SessionAfter(calls).Broken?
    ensures SessionAfter(calls).SessionOf? ==> exists j: nat :: OpenedBy(calls, j, |calls|, SessionAfter(calls).id)
    ensures SessionAfter(calls).NoSession? ==> forall j: nat, id: nat :: !OpenedBy(calls, j, |calls|, id)
  {
    if calls != [] {
      var n := |calls| - 1;
      var before := calls[..n];
      SessionMeansOpened(before);
      assert forall j: nat, k: nat, id: nat :: k <= n ==> (OpenedBy(before, j, k, id) <==> OpenedBy(calls, j, k, id));
      if SessionAfter(calls).SessionOf? {
        if calls[n].callback.OnEstablished? {
          assert OpenedBy(calls, n, n + 1, calls[n].id);
        } else {
          var j: nat :| OpenedBy(before, j, n, calls[n].id);
          assert OpenedBy(calls, j, n, calls[n].id);
          assert OpenedBy(calls, j, n + 1, calls[n].id);
        }
      } else {
        assert forall j: nat, id: nat :: OpenedBy(calls, j, |calls|, id) && j < n ==> calls[n] == Call(id, OnUpdate);
      }
    }
  }

  lemma {:induction false} SessionsAreBracketed(calls: seq<Call>)
    requires !SessionAfter(calls).Broken?
    ensures Bracketed(calls)
  {
    if calls != [] {
      var n := |calls| - 1;
      var before := calls[..n];
      SessionsAreBracketed(before);
      SessionMeansOpened(before);
      assert forall j: nat, k: nat, id: nat :: k <= n ==> (OpenedBy(before, j, k, id) <==> OpenedBy(calls, j, k, id));
    }
  }
}
