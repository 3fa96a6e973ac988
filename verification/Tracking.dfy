/**
  What is tracked: a request enters the tracked set by its own insertion, leaves it by its own removal only, and stays
  in it as long as its resource exists.
*/
module Tracking {
  import opened ObjectNames
  import opened Options
  import opened RoleSafety

  /** A request leaves the tracked set only when a thread that has found its resource gone removes it under the lock. */
  lemma OnlyRemovalUntracks(s: State, s': State, step: Step, req: Request)
    requires Next(s, s', step) && req in s.instances && req !in s'.instances
    ensures step.Run? && PcOf(s, step.t) == LockedRemoving(req)
  {}

  /** A request enters the tracked set only by an insertion. */
  lemma OnlyInsertionTracks(s: State, s': State, step: Step, req: Request)
    requires Next(s, s', step) && req !in s.instances && req in s'.instances
    ensures step.Run? && PcOf(s, step.t) == LockedInserting(req)
  {}

  /** A thread that leaves an insertion or a removal has tracked or untracked its request. */
  lemma InsertionAndRemoval(s: State, s': State, t: Thread, req: Request)
    requires RunStep(s, t) == Some(s')
    ensures PcOf(s, t) == LockedInserting(req) ==> req in s'.instances
    ensures PcOf(s, t) == LockedRemoving(req) ==> req !in s'.instances
  {}

  /** Some thread has found that the resource is gone, and has not yet untracked it. */
  ghost predicate Missed(s: State, req: Request)
  {
    exists t: Thread :: PcOf(s, t) == NotFound(req) || PcOf(s, t) == LockedRemoving(req)
  }

  lemma StepMissesNothing(s: State, s': State, step: Step, req: Request)
    requires Next(s, s', step) && req in s.resources && !Missed(s, req)
    ensures !Missed(s', req)
    ensures req in s.instances ==> req in s'.instances
  {
    if req in s.instances && req !in s'.instances {
      OnlyRemovalUntracks(s, s', step, req);
    }
    match step
    case Run(t) => assert forall u: Thread | u != t :: PcOf(s', u) == PcOf(s, u);
    case Start(t, other) => assert forall u: Thread | u != t :: PcOf(s', u) == PcOf(s, u);
    case TickNext => assert forall u: Thread | u != TICKER :: PcOf(s', u) == PcOf(s, u);
    case _ => assert forall u: Thread :: PcOf(s', u) == PcOf(s, u);
  }

  /**
    A tracked request whose resource exists throughout, and which no reconcile in flight has missed, stays tracked at
    every moment of every interleaving.
  */
  lemma {:induction false} TrackedStays(states: seq<State>, steps: seq<Step>, i: nat, req: Request)
    requires IsRun(states, steps) && i < |states|
    requires req in states[0].instances && !Missed(states[0], req)
    requires forall j | 0 <= j < i :: req in states[j].resources
    ensures req in states[i].instances && !Missed(states[i], req)
  {
    if i > 0 {
      TrackedStays(states, steps, i - 1, req);
      StepMissesNothing(states[i - 1], states[i], steps[i - 1], req);
    }
  }

  /** The roles and bindings of `name` that are there in `s` are there in `s'`. */
  predicate RolesKept(s: State, s': State, name: string)
  {
    (name in s.roles ==> name in s'.roles) && (name in s.bindings ==> name in s'.bindings)
  }

  /** As long as something is tracked, no role or binding is deleted. */
  lemma NothingDeletedWhileTracked(s: State, s': State, step: Step, req: Request, name: string)
    requires Invariant(s) && Next(s, s', step) && req in s.instances
    ensures RolesKept(s, s', name)
  {}

  ghost predicate Secure(s: State, req: Request) { Invariant(s) && req in s.instances && !Missed(s, req) }

  lemma StepSecure(s: State, s': State, step: Step, req: Request, name: string)
    requires Secure(s, req) && req in s.resources && Next(s, s', step)
    ensures Secure(s', req) && RolesKept(s, s', name)
  {
    NextKeepsInvariant(s, s', step);
    StepMissesNothing(s, s', step, req);
    NothingDeletedWhileTracked(s, s', step, req, name);
  }

  /** While the resource of a tracked request exists and nobody has missed it, roles and bindings stay. */
  lemma {:induction false} RolesStay(states: seq<State>, steps: seq<Step>, i: nat, req: Request, name: string)
    requires IsRun(states, steps) && i < |states| && Secure(states[0], req)
    requires forall j | 0 <= j < i :: req in states[j].resources
    ensures Secure(states[i], req) && RolesKept(states[0], states[i], name)
  {
    if i > 0 {
      RolesStay(states, steps, i - 1, req, name);
      StepSecure(states[i - 1], states[i], steps[i - 1], req, name);
    }
  }
}
