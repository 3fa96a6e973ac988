/**
  A reconcile overtaken by the deletion of its resource: it leaves the shared role and binding behind, and as nothing is
  tracked any more, no later pass of the ticker finds them.
*/
module Overtaken {
  import opened ObjectNames
  import opened Options
  import opened RoleSafety
  import opened SelfHealing
  import opened Sorting

  // ---- the run ----

  const WORKER: Thread := 1
  const OTHER: Thread := 2

  /** The first thread is about to write the roles, and the second has not begun. */
  function Begun(a: Request): State
  {
    State({}, {a}, None, {}, {}, map[WORKER := WritingRole(a, 0)], [], 1, map[a := 0], {}, None)
  }

  /** The states of the run. */
  function Scene(a: Request, i: nat): State
    requires i <= 15
  {
    var s0 := State({a}, {}, None, {}, {}, map[], [], 0, map[], {}, None);
    var gone := Begun(a).(instances := {}, removed := Some(a.name));
    if i == 0 then s0
    else if i == 1 then Moved(s0, WORKER, Fetching(a))
    else if i == 2 then Moved(s0, WORKER, Found(a))
    else if i == 3 then Moved(s0, WORKER, LockedInserting(a)).(lock := Some(WORKER))
    else if i == 4 then
      Moved(s0, WORKER, LockedInserted(a, 0)).(lock := Some(WORKER), instances := {a}, stamp := map[a := 0], clock := 1)
    else if i == 5 then Begun(a).(resources := {a})
    else if i == 6 then Begun(a)
    else if i == 7 then Moved(Begun(a), OTHER, Fetching(a))
    else if i == 8 then Moved(Begun(a), OTHER, NotFound(a))
    else if i == 9 then Moved(Begun(a), OTHER, LockedRemoving(a)).(lock := Some(OTHER))
    else if i == 10 then Moved(gone, OTHER, LockedDeletingBinding(a)).(lock := Some(OTHER))
    else if i == 11 then Moved(gone, OTHER, LockedDeletingRole(a)).(lock := Some(OTHER))
    else if i == 12 then Moved(gone, OTHER, LockedLeaving).(lock := Some(OTHER))
    else if i == 13 then Moved(gone, OTHER, Idle)
    else if i == 14 then Moved(Moved(gone, OTHER, Idle), WORKER, WritingBinding(a, 0)).(roles := {a.name})
    else Moved(Moved(gone, OTHER, Idle), WORKER, Idle).(roles := {a.name}, bindings := {a.name}, passed := {0})
  }

  function StepAt(a: Request, i: nat): Step
    requires i < 15
  {
    if i == 0 then Start(WORKER, a)
    else if i == 5 then Delete(a)
    else if i == 6 then Start(OTHER, a)
    else if i < 5 || i >= 13 then Run(WORKER)
    else Run(OTHER)
  }

  lemma ScenesOfWorker(a: Request, i: nat)
    requires i < 5
    ensures Next(Scene(a, i), Scene(a, i + 1), StepAt(a, i))
  {
    var s, s' := Scene(a, i), Scene(a, i + 1);
    assert s'.threads == s.threads[WORKER := PcOf(s', WORKER)];
    assert s'.instances == (if i == 3 then s.instances + {a} else s.instances);
    assert s'.stamp == (if i == 3 then s.stamp[a := 0] else s.stamp);
  }

  lemma SceneOfDeletion(a: Request)
    ensures Next(Scene(a, 5), Scene(a, 6), StepAt(a, 5))
  {
    assert Scene(a, 6).resources == Scene(a, 5).resources - {a};
  }

  lemma ScenesOfOther(a: Request, i: nat)
    requires 6 <= i < 13
    ensures Next(Scene(a, i), Scene(a, i + 1), StepAt(a, i))
  {
    var s, s' := Scene(a, i), Scene(a, i + 1);
    assert s'.threads == s.threads[OTHER := PcOf(s', OTHER)];
    assert s'.instances == (if i == 9 then s.instances - {a} else s.instances);
    assert s'.bindings == s.bindings - {a.name} && s'.roles == s.roles - {a.name};
  }

  lemma ScenesOfOvertaken(a: Request, i: nat)
    requires 13 <= i < 15
    ensures Next(Scene(a, i), Scene(a, i + 1), StepAt(a, i))
  {
    var s, s' := Scene(a, i), Scene(a, i + 1);
    assert s'.threads == s.threads[WORKER := PcOf(s', WORKER)];
    assert s'.roles == (if i == 13 then s.roles + {a.name} else s.roles);
    assert s'.bindings == (if i == 14 then s.bindings + {a.name} else s.bindings);
    assert s'.passed == (if i == 14 then s.passed + {0} else s.passed);
  }

  /**
    A run in which a reconcile sees its resource, which is then deleted, and whose roles another reconcile then removes;
    the first one goes on to write them.  In the end nothing exists, is tracked or under way, and role and binding stay.
  */
  lemma OvertakenReconcile(a: Request) returns (states: seq<State>, steps: seq<Step>)
    ensures IsRun(states, steps) && Init(states[0])
    ensures var s := states[|states| - 1];
            && s.resources == {} && PassStarts(s) && PassEnded(s) && (forall t: Thread :: PcOf(s, t).Idle?)
            && s.instances == {} && s.lock.None? && s.removed == Some(a.name)
            && a.name in s.roles && a.name in s.bindings
  {
    states := seq(16, i requires 0 <= i < 16 => Scene(a, i));
    steps := seq(15, i requires 0 <= i < 15 => StepAt(a, i));
    forall i | 0 <= i < |steps| ensures Next(states[i], states[i + 1], steps[i]) {
      if i < 5 {
        ScenesOfWorker(a, i);
      } else if i == 5 {
        SceneOfDeletion(a);
      } else if i < 13 {
        ScenesOfOther(a, i);
      } else {
        ScenesOfOvertaken(a, i);
      }
    }
    assert Scene(a, 0).threads == map[];
    assert forall t: Thread :: PcOf(states[0], t) == Idle;
    RunKeepsInvariant(states, steps, 15);
    assert forall t: Thread :: PcOf(states[15], t) == Idle;
  }

  // ---- it stays so ----

  /** Nothing exists or is tracked, and nobody will track anything or works for the name. */
  ghost predicate Abandoned(s: State, name: string)
  {
    && s.resources == {} && s.instances == {} && s.pass == []
    && forall t: Thread :: !HasSeen(PcOf(s, t)) && (IsWorking(PcOf(s, t)) ==> PcOf(s, t).req.name != name)
  }

  /** No resource is created, and no reconcile starts for the name. */
  predicate LeavesAlone(step: Step, name: string) { !step.Create? && (step.Start? ==> step.req.name != name) }

  lemma StepAbandons(s: State, s': State, step: Step, name: string)
    requires Abandoned(s, name) && Next(s, s', step) && LeavesAlone(step, name)
    ensures Abandoned(s', name) && s'.removed == s.removed
    ensures (name in s'.roles <==> name in s.roles) && (name in s'.bindings <==> name in s.bindings)
  {
    match step
    case Run(t) => RunAbandons(s, s', t, name);
    case Start(t, req) => OtherThreads(s, t, Fetching(req));
    case Snapshot(order) => ListsNothing(order);
    case Delete(req) => assert forall u: Thread :: PcOf(s', u) == PcOf(s, u);
    case TickNext =>
  }

  lemma RunAbandons(s: State, s': State, t: Thread, name: string)
    requires Abandoned(s, name) && RunStep(s, t) == Some(s')
    ensures Abandoned(s', name) && s'.removed == s.removed
    ensures (name in s'.roles <==> name in s.roles) && (name in s'.bindings <==> name in s.bindings)
  {
    assert forall u: Thread | u != t :: PcOf(s', u) == PcOf(s, u);
  }

  lemma ListsNothing(order: seq<Request>)
    requires Lists(order, {})
    ensures order == []
  {
    ListsLength(order, {});
  }

  /** However many passes the ticker makes, they change nothing. */
  lemma {:induction false} StaysAbandoned(states: seq<State>, steps: seq<Step>, i: nat, name: string)
    requires IsRun(states, steps) && Abandoned(states[0], name) && i < |states|
    requires forall j | 0 <= j < i :: LeavesAlone(steps[j], name)
    ensures Abandoned(states[i], name) && states[i].removed == states[0].removed
    ensures name in states[i].roles <==> name in states[0].roles
    ensures name in states[i].bindings <==> name in states[0].bindings
  {
    if i > 0 {
      StaysAbandoned(states, steps, i - 1, name);
      StepAbandons(states[i - 1], states[i], steps[i - 1], name);
    }
  }

  // ---- what a pass deletes ----

  /** No reconcile is under way, or starts, for the name. */
  ghost predicate NobodyWorksFor(s: State, steps: seq<Step>, i: nat, name: string)
    requires i <= |steps|
  {
    && (forall t: Thread :: IsWorking(PcOf(s, t)) ==> PcOf(s, t).req.name != name)
    && (forall j | 0 <= j < i :: LeavesAlone(steps[j], name))
  }

  /**
    If no resource is left, the pass leaves nothing tracked.  Let `name` be the name untracked last.  Its cluster role
    and binding are gone, at every moment and whoever untracked it, if something was tracked when the pass started or
    they were gone already; and if nobody else works for the name, only then.
  */
  lemma PassDeletesLastRoles(states: seq<State>, steps: seq<Step>, i: nat, name: string)
    requires IsRun(states, steps) && PassStarts(states[0]) && i < |states|
    requires forall j | 0 <= j < i :: IsQuiet(steps[j])
    requires states[0].resources == {} && PassEnded(states[i])
    ensures states[i].instances == {} && (states[0].instances != {} ==> states[i].removed.Some?)
    ensures var gone := name !in states[i].roles && name !in states[i].bindings;
            var due := states[0].instances != {} || (name !in states[0].roles && name !in states[0].bindings);
            states[i].removed == Some(name) ==> (due ==> gone) && (NobodyWorksFor(states[0], steps, i, name) ==> (gone <==> due))
  {
    PassUntracksTheGone(states, steps, i);
    if states[0].instances != {} {
      EndedIsCleanedUp(states, steps, i);
    } else {
      AbsentStays(states, steps, i, name);
      NothingTrackedNothingDeleted(states, steps, i, name);
    }
  }

  lemma NothingTrackedNothingDeleted(states: seq<State>, steps: seq<Step>, i: nat, name: string)
    requires IsRun(states, steps) && PassStarts(states[0]) && i < |states|
    requires states[0].resources == {} && states[0].instances == {}
    ensures NobodyWorksFor(states[0], steps, i, name) ==>
              && (name in states[i].roles <==> name in states[0].roles)
              && (name in states[i].bindings <==> name in states[0].bindings)
  {
    if NobodyWorksFor(states[0], steps, i, name) {
      ListsNothing(states[0].pass);
      StaysAbandoned(states, steps, i, name);
    }
  }

  /** Without resources, roles and bindings are never written. */
  lemma {:induction false} AbsentStays(states: seq<State>, steps: seq<Step>, i: nat, name: string)
    requires IsRun(states, steps) && PassStarts(states[0]) && i < |states| && states[0].resources == {}
    requires forall j | 0 <= j < i :: IsQuiet(steps[j])
    ensures name !in states[0].roles ==> name !in states[i].roles
    ensures name !in states[0].bindings ==> name !in states[i].bindings
  {
    if i > 0 {
      AbsentStays(states, steps, i - 1, name);
      RunStaysHealing(states, steps, i - 1);
      NothingWritten(states[i - 1], states[i], steps[i - 1], name);
    }
  }

  lemma NothingWritten(s: State, s': State, step: Step, name: string)
    requires Healing(s) && s.resources == {} && IsQuiet(step) && Next(s, s', step)
    ensures name !in s.roles ==> name !in s'.roles
    ensures name !in s.bindings ==> name !in s'.bindings
  {
    if step.Run? { assert !HasSeen(PcOf(s, step.t)); }
  }
}
