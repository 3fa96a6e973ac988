/**
  The hourly pass over the tracked requests: once resources stop changing it untracks every request without a
  resource, whatever other reconciles do meanwhile.
*/
module SelfHealing {
  import opened ObjectNames
  import opened Options
  import opened RoleSafety
  import opened Sorting

  /** Nobody creates or deletes resources, and the ticker is not starting over. */
  predicate IsQuiet(step: Step) { step.Start? || step.TickNext? || step.Run? }

  /** The ticker is about to untrack the request if it has no resource. */
  predicate IsChecking(pc: Pc, req: Request)
  {
    (pc.Fetching? || pc.NotFound? || pc.LockedRemoving?) && pc.req == req
  }

  /** No reconcile in flight works for a resource that is gone. */
  ghost predicate InFlightLive(s: State)
  {
    forall t: Thread :: HasSeen(PcOf(s, t)) ==> PcOf(s, t).req in s.resources
  }

  /** The start of a pass: the tracked requests have just been listed. */
  ghost predicate PassStarts(s: State)
  {
    Invariant(s) && InFlightLive(s) && PcOf(s, TICKER).Idle? && Lists(s.pass, s.instances)
  }

  predicate PassEnded(s: State) { PcOf(s, TICKER).Idle? && s.pass == [] }

  /** Every tracked request without a resource is still ahead of the ticker. */
  ghost predicate StaleAhead(s: State)
  {
    forall req | req in s.instances && req !in s.resources :: req in s.pass || IsChecking(PcOf(s, TICKER), req)
  }

  ghost predicate Healing(s: State) { Invariant(s) && InFlightLive(s) && StaleAhead(s) }

  lemma RunHeals(s: State, s': State, t: Thread)
    requires Healing(s) && RunStep(s, t) == Some(s')
    ensures InFlightLive(s') && StaleAhead(s')
  {
    assert forall u: Thread | u != t :: PcOf(s', u) == PcOf(s, u);
    assert HasSeen(PcOf(s, t)) ==> PcOf(s, t).req in s.resources;
  }

  lemma StepHeals(s: State, s': State, step: Step)
    requires Healing(s) && Next(s, s', step) && IsQuiet(step)
    ensures Healing(s') && s'.resources == s.resources
  {
    NextKeepsInvariant(s, s', step);
    match step
    case Run(t) => RunHeals(s, s', t);
    case Start(t, req) => OtherThreads(s, t, Fetching(req));
    case TickNext => TickHeals(s, s');
  }

  lemma TickHeals(s: State, s': State)
    requires Healing(s) && Next(s, s', TickNext)
    ensures InFlightLive(s') && StaleAhead(s') && s'.resources == s.resources
  {
    assert forall u: Thread | u != TICKER :: PcOf(s', u) == PcOf(s, u);
    assert forall req | req in s.pass :: req == s.pass[0] || req in s.pass[1..];
  }

  lemma {:induction false} RunStaysHealing(states: seq<State>, steps: seq<Step>, i: nat)
    requires IsRun(states, steps) && PassStarts(states[0]) && i < |states|
    requires forall j | 0 <= j < i :: IsQuiet(steps[j])
    ensures Healing(states[i]) && states[i].resources == states[0].resources
  {
    if i > 0 {
      RunStaysHealing(states, steps, i - 1);
      StepHeals(states[i - 1], states[i], steps[i - 1]);
    }
  }

  /** After one pass of the ticker, with any other reconciles in between, only existing resources are tracked. */
  lemma PassUntracksTheGone(states: seq<State>, steps: seq<Step>, i: nat)
    requires IsRun(states, steps) && PassStarts(states[0]) && i < |states|
    requires forall j | 0 <= j < i :: IsQuiet(steps[j])
    requires PassEnded(states[i])
    ensures states[i].instances <= states[0].resources
  {
    RunStaysHealing(states, steps, i);
  }

  /** A pass starts by listing everything that is tracked. */
  lemma ListingStartsPass(s: State, s': State, order: seq<Request>)
    requires Invariant(s) && InFlightLive(s) && Next(s, s', Snapshot(order))
    ensures PassStarts(s') && s'.pass == order && s'.instances == s.instances && s'.resources == s.resources
  {
    NextKeepsInvariant(s, s', Snapshot(order));
    assert forall t: Thread :: PcOf(s', t) == PcOf(s, t);
  }

  /** The whole pass, from the listing on. */
  lemma ListedPassUntracksTheGone(states: seq<State>, steps: seq<Step>, i: nat)
    requires IsRun(states, steps) && 1 <= i < |states| && Invariant(states[0]) && InFlightLive(states[0])
    requires steps[0].Snapshot? && forall j | 1 <= j < i :: IsQuiet(steps[j])
    requires PassEnded(states[i])
    ensures states[i].instances <= states[0].resources
  {
    ListingStartsPass(states[0], states[1], steps[0].order);
    RunGoesOn(states, steps);
    PassUntracksTheGone(states[1..], steps[1..], i - 1);
  }

  lemma RunGoesOn(states: seq<State>, steps: seq<Step>)
    requires IsRun(states, steps) && steps != []
    ensures IsRun(states[1..], steps[1..])
  {
    forall i | 0 <= i < |steps[1..]| ensures Next(states[1..][i], states[1..][i + 1], steps[1..][i]) {
      assert Next(states[i + 1], states[i + 2], steps[i + 1]);
    }
  }

  // ---- when no resource is left ----

  /** The roles of the name untracked last are gone, or are being deleted under the lock. */
  ghost predicate LastRemovedGone(s: State)
  {
    s.instances == {} && s.removed.Some? ==>
      var n := s.removed.value;
      && (n in s.bindings ==> s.lock.Some? && PcOf(s, s.lock.value).LockedDeletingBinding? && PcOf(s, s.lock.value).req.name == n)
      && (n in s.roles ==>
            s.lock.Some? && (PcOf(s, s.lock.value).LockedDeletingBinding? || PcOf(s, s.lock.value).LockedDeletingRole?)
            && PcOf(s, s.lock.value).req.name == n)
  }

  lemma RunRemoves(s: State, s': State, t: Thread)
    requires Healing(s) && s.resources == {} && LastRemovedGone(s) && RunStep(s, t) == Some(s')
    ensures LastRemovedGone(s') && s'.instances <= s.instances
    ensures s'.instances == s.instances || s'.removed.Some?
    ensures s.removed.Some? ==> s'.removed.Some?
  {
    assert !HasSeen(PcOf(s, t));
    assert HoldsLock(PcOf(s, t)) <==> s.lock == Some(t);
    if s.lock.Some? { assert HoldsLock(PcOf(s, s.lock.value)); }
  }

  lemma {:induction false} LastRemovedGoes(states: seq<State>, steps: seq<Step>, i: nat)
    requires IsRun(states, steps) && PassStarts(states[0]) && i < |states|
    requires forall j | 0 <= j < i :: IsQuiet(steps[j])
    requires states[0].resources == {} && states[0].instances != {}
    ensures LastRemovedGone(states[i]) && states[i].instances <= states[0].instances
    ensures states[i].instances == states[0].instances || states[i].removed.Some?
  {
    if i > 0 {
      LastRemovedGoes(states, steps, i - 1);
      RunStaysHealing(states, steps, i - 1);
      var s, s', step := states[i - 1], states[i], steps[i - 1];
      match step
      case Run(t) => RunRemoves(s, s', t);
      case Start(t, req) =>
        OtherThreads(s, t, Fetching(req));
        assert s.lock.Some? ==> HoldsLock(PcOf(s, s.lock.value));
      case TickNext =>
        assert forall u: Thread | u != TICKER :: PcOf(s', u) == PcOf(s, u);
        assert s.lock.Some? ==> HoldsLock(PcOf(s, s.lock.value));
    }
  }

  /** Nothing is tracked, and the cluster role and binding of the name untracked last are gone. */
  predicate CleanedUp(s: State)
  {
    && s.instances == {} && s.removed.Some?
    && s.removed.value !in s.roles && s.removed.value !in s.bindings
  }

  /** The ticker ends its pass from inside the lock, having deleted, or waited for the deletion of, the last roles. */
  lemma TickerEnds(s: State, s': State)
    requires Healing(s) && s.resources == {} && LastRemovedGone(s) && RunStep(s, TICKER) == Some(s') && PassEnded(s')
    requires s.instances != {} || s.removed.Some?
    ensures CleanedUp(s')
  {
    assert !HasSeen(PcOf(s, TICKER));
    assert PcOf(s, TICKER).LockedLeaving? && s.lock == Some(TICKER);
    assert forall req | req in s.instances :: req !in s.pass && !IsChecking(PcOf(s, TICKER), req);
  }

  lemma StaysCleanedUp(s: State, s': State, step: Step)
    requires Healing(s) && s.resources == {} && CleanedUp(s) && IsQuiet(step) && Next(s, s', step)
    ensures CleanedUp(s')
  {
    if step.Run? { assert !HasSeen(PcOf(s, step.t)); }
  }

  lemma {:induction false} EndedIsCleanedUp(states: seq<State>, steps: seq<Step>, i: nat)
    requires IsRun(states, steps) && PassStarts(states[0]) && i < |states|
    requires forall j | 0 <= j < i :: IsQuiet(steps[j])
    requires states[0].resources == {} && states[0].instances != {}
    ensures PassEnded(states[i]) ==> CleanedUp(states[i])
  {
    if i == 0 {
      var req :| req in states[0].instances;
      assert req in states[0].pass;
    } else {
      EndedIsCleanedUp(states, steps, i - 1);
      RunStaysHealing(states, steps, i - 1);
      LastRemovedGoes(states, steps, i - 1);
      EndStep(states[i - 1], states[i], steps[i - 1]);
    }
  }

  lemma EndStep(s: State, s': State, step: Step)
    requires Healing(s) && s.resources == {} && LastRemovedGone(s) && IsQuiet(step) && Next(s, s', step)
    requires s.instances != {} || s.removed.Some?
    requires PassEnded(s) ==> CleanedUp(s)
    ensures PassEnded(s') ==> CleanedUp(s')
  {
    if PassEnded(s') {
      if step == Run(TICKER) {
        TickerEnds(s, s');
      } else if step != TickNext {
        assert PcOf(s', TICKER) == PcOf(s, TICKER);
        StaysCleanedUp(s, s', step);
      }
    }
  }

  // ---- what the pass leaves behind ----

  /** The thread is working for `pc.req`. */
  predicate IsWorking(pc: Pc) { !pc.Idle? && !pc.LockedLeaving? }

  /** Threads other than the ticker work for requests in `w` only. */
  ghost predicate OthersWorkFor(s: State, w: set<Request>)
  {
    forall t: Thread :: t != TICKER && IsWorking(PcOf(s, t)) ==> PcOf(s, t).req in w
  }

  predicate StartsOnly(step: Step, w: set<Request>) { step.Start? ==> step.req in w }

  predicate IsNamed(w: set<Request>, name: string) { exists req | req in w :: req.name == name }

  predicate IsDeleting(pc: Pc) { pc.LockedDeletingBinding? || pc.LockedDeletingRole? }

  /** Where the ticker is with respect to the last request of its pass. */
  predicate AtLast(s: State, last: Request)
  {
    var pc := PcOf(s, TICKER);
    if s.pass != [] then
      && Distinct(s.pass) && s.pass[|s.pass| - 1] == last && last in s.instances
      && !IsDeleting(pc) && !IsChecking(pc, last)
    else if IsWorking(pc) && !IsDeleting(pc) then
      IsChecking(pc, last) && last in s.instances
    else
      s.instances == {} && s.removed == Some(last.name) && (IsDeleting(pc) ==> pc.req == last)
  }

  /** Roles and bindings of all names other reconciles do not work for are as they were, but for those of `last`. */
  ghost predicate OthersKept(s: State, s0: State, w: set<Request>, last: Request)
  {
    forall n | n != last.name && !IsNamed(w, n) :: (n in s.roles <==> n in s0.roles) && (n in s.bindings <==> n in s0.bindings)
  }

  ghost predicate Passing(s: State, s0: State, w: set<Request>, last: Request)
  {
    AtLast(s, last) && OthersWorkFor(s, w) && OthersKept(s, s0, w, last)
  }

  lemma TickerKeepsAtLast(s: State, s': State, last: Request)
    requires Healing(s) && s.resources == {} && AtLast(s, last) && RunStep(s, TICKER) == Some(s')
    ensures AtLast(s', last)
  {
    assert !HasSeen(PcOf(s, TICKER));
    if PcOf(s, TICKER).LockedRemoving? { TickerRemoves(s, s', last); }
  }

  lemma TickerRemoves(s: State, s': State, last: Request)
    requires StaleAhead(s) && s.resources == {} && AtLast(s, last) && GoneStep(s, TICKER) == Some(s')
    requires PcOf(s, TICKER).LockedRemoving?
    ensures AtLast(s', last)
  {
    if s.pass == [] {
      assert forall req | req in s.instances :: req == last;
      assert s.instances - {last} == {};
    }
  }

  lemma OthersKeepAtLast(s: State, s': State, t: Thread, w: set<Request>, last: Request)
    requires Healing(s) && s.resources == {} && AtLast(s, last) && OthersWorkFor(s, w) && last !in w
    requires t != TICKER && RunStep(s, t) == Some(s')
    ensures AtLast(s', last)
  {
    assert !HasSeen(PcOf(s, t)) && PcOf(s', TICKER) == PcOf(s, TICKER);
  }

  lemma TickNextKeepsAtLast(s: State, s': State, last: Request)
    requires AtLast(s, last) && Next(s, s', TickNext)
    ensures AtLast(s', last)
  {}

  /** Only the name of the request being worked for loses its role. */
  lemma RunKeepsOthers(s: State, s': State, s0: State, t: Thread, w: set<Request>, last: Request)
    requires Healing(s) && s.resources == {} && AtLast(s, last) && OthersWorkFor(s, w) && OthersKept(s, s0, w, last)
    requires RunStep(s, t) == Some(s')
    ensures OthersKept(s', s0, w, last)
  {
    assert !HasSeen(PcOf(s, t));
    if IsDeleting(PcOf(s, t)) {
      assert t == TICKER ==> PcOf(s, t).req == last;
      assert t != TICKER ==> IsNamed(w, PcOf(s, t).req.name);
    }
  }

  lemma OthersStayAtWork(s: State, s': State, step: Step, w: set<Request>)
    requires OthersWorkFor(s, w) && Next(s, s', step) && IsQuiet(step) && StartsOnly(step, w)
    ensures OthersWorkFor(s', w)
  {
    match step
    case Run(t) => assert forall u: Thread | u != t :: PcOf(s', u) == PcOf(s, u);
    case Start(t, req) => assert forall u: Thread | u != t :: PcOf(s', u) == PcOf(s, u);
    case TickNext => assert forall u: Thread | u != TICKER :: PcOf(s', u) == PcOf(s, u);
  }

  lemma StepKeepsLast(s: State, s': State, s0: State, step: Step, w: set<Request>, last: Request)
    requires Healing(s) && s.resources == {} && Passing(s, s0, w, last)
    requires Next(s, s', step) && IsQuiet(step) && StartsOnly(step, w) && last !in w
    ensures Passing(s', s0, w, last)
  {
    OthersStayAtWork(s, s', step, w);
    match step
    case Run(t) =>
      RunKeepsOthers(s, s', s0, t, w, last);
      if t == TICKER { TickerKeepsAtLast(s, s', last); } else { OthersKeepAtLast(s, s', t, w, last); }
    case Start(t, req) => assert PcOf(s', TICKER) == PcOf(s, TICKER);
    case TickNext => TickNextKeepsAtLast(s, s', last);
  }

  lemma StartsAtLast(s: State, w: set<Request>, last: Request)
    requires PassStarts(s) && s.pass != [] && last == s.pass[|s.pass| - 1] && OthersWorkFor(s, w)
    ensures Passing(s, s, w, last)
  {
    assert last in s.pass;
  }

  ghost predicate HealingPass(s: State, s0: State, w: set<Request>, last: Request)
  {
    Healing(s) && s.resources == {} && Passing(s, s0, w, last)
  }

  lemma StepKeepsPass(s: State, s': State, s0: State, step: Step, w: set<Request>, last: Request)
    requires HealingPass(s, s0, w, last) && Next(s, s', step) && IsQuiet(step) && StartsOnly(step, w) && last !in w
    ensures HealingPass(s', s0, w, last)
  {
    StepHeals(s, s', step);
    StepKeepsLast(s, s', s0, step, w, last);
  }

  lemma {:induction false} PassKeepsLast(states: seq<State>, steps: seq<Step>, i: nat, w: set<Request>, last: Request)
    requires IsRun(states, steps) && i < |states| && last !in w && HealingPass(states[0], states[0], w, last)
    requires forall j | 0 <= j < i :: IsQuiet(steps[j]) && StartsOnly(steps[j], w)
    ensures HealingPass(states[i], states[0], w, last)
  {
    if i > 0 {
      PassKeepsLast(states, steps, i - 1, w, last);
      StepKeepsPass(states[i - 1], states[i], states[0], steps[i - 1], w, last);
    }
  }

  /**
    With several names the pass leaves roles behind: of all names no other reconcile works for, exactly that of the
    request visited last loses its role and binding.
  */
  lemma PassLeavesOtherNames(states: seq<State>, steps: seq<Step>, i: nat, w: set<Request>, last: Request, name: string)
    requires IsRun(states, steps) && PassStarts(states[0]) && i < |states|
    requires forall j | 0 <= j < i :: IsQuiet(steps[j]) && StartsOnly(steps[j], w)
    requires states[0].resources == {} && states[0].pass != [] && last == states[0].pass[|states[0].pass| - 1]
    requires OthersWorkFor(states[0], w) && last !in w
    requires PassEnded(states[i]) && (name == last.name || !IsNamed(w, name))
    ensures name in states[i].roles <==> name in states[0].roles && name != last.name
    ensures name in states[i].bindings <==> name in states[0].bindings && name != last.name
  {
    StartsAtLast(states[0], w, last);
    PassKeepsLast(states, steps, i, w, last);
    assert last in states[0].instances;
    EndedIsCleanedUp(states, steps, i);
  }
}
