/**
  Which connection is left when a collision has been dealt with, over every run: what the
  peer is committed to from the moment the second connection asks for OpenConfirm until it
  is back at its loop.
  */
module PeerSurvivor {
  import opened Notifications
  import opened Fsm
  import opened Peer
  import opened PeerInvariant
  import opened PeerCollision

  /** The other connection is already in OpenConfirm when side i asks for it. */
  predicate Collision(s: System, i: Side, t: Transition) {
    && s.todo.Then? && s.todo.op.Handle? && s.todo.op.i == i && s.todo.op.t == t
    && t.to == OpenConfirm && s.recorded.Get(Other(i)) == OpenConfirm && s.Occupied(i)
  }

  /** The local router is dominant, as far as side i has learnt. */
  predicate DominantOn(s: System, i: Side)
    requires s.Occupied(i)
  {
    Dominant(s.config, s.Occupant(i).remoteId)
  }

  /** Without a race, side i is dropped. */
  predicate Dropping(s: System, i: Side, t: Transition, dominant: bool) {
    && s.Occupied(Other(i))
    && match s.todo
       case Nil => s.slots.Get(i).None?
       case Then(Handle(_, _, _), Nil) => Collision(s, i, t) && DominantOn(s, i) == dominant
       case Then(_, Nil) => Disabling(s.todo, i)
       case _ => false
  }

  /** Before the race of a dominant router's outgoing connection is decided. */
  predicate Racing(s: System, t: Transition) {
    && s.todo.Then? && s.todo.rest.Nil?
    && ((Collision(s, Out, t) && DominantOn(s, Out)) || (s.todo.op.Collide? && s.todo.op.i == Out && s.todo.op.t == t))
  }

  /** What is settled so far; `lost` says whether the race was lost. */
  predicate Resolving(s: System, i: Side, t: Transition, dominant: bool, lost: bool) {
    !s.exiting &&
    if dominant && i == Out then
      if lost then s.race.KeptIn? && KeepingIn(s) else Racing(s, t) || (s.race.KeptOut? && KeepingOut(s))
    else !lost && Dropping(s, i, t, dominant)
  }

  /** The race is lost to an FSM that asks for Established. */
  predicate LosesRace(s: System, a: Action) {
    a.CollideReceive? && a.id < |s.heap| && s.heap[a.id].pc.Offer? && s.heap[a.id].pc.t.to == Established
  }

  // ----- one action

  /** A goroutine that waits for the peer's answer learns nothing new. */
  lemma WaitingKeepsId(c: Config, f: Fsm, e: Event)
    requires f.pc.Await? && !f.closed && CanStep(f, e)
    ensures Step(c, f, e).fsm.remoteId == f.remoteId
  {
  }

  lemma LocalKeepsCollision(s: System, id: nat, e: Event, i: Side, t: Transition)
    requires Inv(s) && Enabled(s, Local(id, e)) && Collision(s, i, t)
    ensures var s' := Apply(s, Local(id, e));
            Collision(s', i, t) && DominantOn(s', i) == DominantOn(s, i)
  {
    if s.slots.Get(i) == Some(id) {
      WaitingKeepsId(s.config, s.heap[id], e);
    }
  }

  lemma LocalKeepsResolving(s: System, id: nat, e: Event, i: Side, t: Transition, dominant: bool, lost: bool)
    requires Inv(s) && RaceOk(s) && Enabled(s, Local(id, e)) && !s.closing && s.todo.Then?
    requires Resolving(s, i, t, dominant, lost)
    ensures Resolving(Apply(s, Local(id, e)), i, t, dominant, lost)
  {
    LocalKeepsRace(s, id, e);
    if Collision(s, i, t) {
      LocalKeepsCollision(s, id, e, i, t);
    }
  }

  lemma ExpandsToDisable(s: System, i: Side, t: Transition)
    requires Inv(s) && Collision(s, i, t) && !(DominantOn(s, i) && i == Out)
    ensures PeerStepOf(s).todo == Then(Disable(i), s.todo.rest)
  {
  }

  lemma ExpandsToRace(s: System, t: Transition)
    requires Inv(s) && Collision(s, Out, t) && DominantOn(s, Out)
    ensures PeerStepOf(s).todo == Then(Collide(Out, t, s.todo.op.depth), s.todo.rest)
  {
  }

  lemma StepKeepsResolving(s: System, i: Side, t: Transition, dominant: bool, lost: bool)
    requires Inv(s) && RaceOk(s) && CanPeerStep(s) && !s.closing && Resolving(s, i, t, dominant, lost)
    ensures Resolving(PeerStepOf(s), i, t, dominant, lost)
  {
    PeerStepKeepsRace(s);
    PeerStepKeepsVerdict(s);
    if Collision(s, i, t) {
      if dominant && i == Out {
        ExpandsToRace(s, t);
      } else {
        ExpandsToDisable(s, i, t);
      }
    }
  }

  lemma GrantKeepsResolving(s: System, id: nat, i: Side, t: Transition, dominant: bool, lost: bool)
    requires Inv(s) && RaceOk(s) && Enabled(s, Grant(id)) && !s.closing && Resolving(s, i, t, dominant, lost)
    ensures Resolving(Apply(s, Grant(id)), i, t, dominant, lost)
  {
    GrantKeepsRace(s, id);
  }

  lemma RaceResolves(s: System, a: Action, i: Side, t: Transition, dominant: bool, lost: bool)
    requires Inv(s) && Enabled(s, a) && (a.CollideClose? || a.CollideReceive?) && !s.closing
    requires Resolving(s, i, t, dominant, lost)
    ensures !lost && Resolving(Apply(s, a), i, t, dominant, LosesRace(s, a))
  {
    RaceIsDecided(s, a);
  }

  /** No action of a busy peer, short of a request to stop, undoes what is settled. */
  lemma ActionKeepsResolving(s: System, a: Action, i: Side, t: Transition, dominant: bool, lost: bool)
    requires Inv(s) && RaceOk(s) && Enabled(s, a) && s.todo.Then? && !Apply(s, a).closing
    requires Resolving(s, i, t, dominant, lost)
    ensures Resolving(Apply(s, a), i, t, dominant, lost || LosesRace(s, a))
  {
    if a.PeerStep? || a.Grant? || a.CollideClose? || a.CollideReceive? {
      OwnKeepsResolving(s, a, i, t, dominant, lost);
    } else {
      OthersKeepResolving(s, a, i, t, dominant, lost);
    }
  }

  lemma OwnKeepsResolving(s: System, a: Action, i: Side, t: Transition, dominant: bool, lost: bool)
    requires Inv(s) && RaceOk(s) && Enabled(s, a) && s.todo.Then? && !s.closing && Resolving(s, i, t, dominant, lost)
    requires a.PeerStep? || a.Grant? || a.CollideClose? || a.CollideReceive?
    ensures Resolving(Apply(s, a), i, t, dominant, lost || LosesRace(s, a))
  {
    if a.PeerStep? {
      StepKeepsResolving(s, i, t, dominant, lost);
    } else if a.Grant? {
      GrantKeepsResolving(s, a.id, i, t, dominant, lost);
    } else {
      RaceResolves(s, a, i, t, dominant, lost);
    }
  }

  lemma OthersKeepResolving(s: System, a: Action, i: Side, t: Transition, dominant: bool, lost: bool)
    requires Inv(s) && RaceOk(s) && Enabled(s, a) && s.todo.Then? && !Apply(s, a).closing
    requires Resolving(s, i, t, dominant, lost)
    requires !a.PeerStep? && !a.Grant? && !a.CollideClose? && !a.CollideReceive?
    ensures Resolving(Apply(s, a), i, t, dominant, lost)
  {
    if a.Local? {
      LocalKeepsResolving(s, a.id, a.event, i, t, dominant, lost);
    } else {
      assert a.Tick?;
    }
  }

  lemma CollisionBegins(s: System, i: Side, t: Transition)
    requires Inv(s) && Collision(s, i, t)
    ensures Resolving(s, i, t, DominantOn(s, i), false)
  {
  }

  /** Exactly side x is left. */
  predicate Only(s: System, x: Side) {
    s.Occupied(x) && s.slots.Get(Other(x)).None?
  }

  /** The side that is left, and when it is the one the rule keeps. */
  lemma ResolvedAtLoop(s: System, i: Side, t: Transition, dominant: bool, lost: bool)
    requires s.AtLoop() && Resolving(s, i, t, dominant, lost)
    ensures Only(s, if dominant && i == Out && !lost then Out else if i == In then Out else In)
  {
  }
}
