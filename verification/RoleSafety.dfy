/**
  Concurrent reconciles and the shared cluster roles.  Any number of threads run `Reconcile`; a step ends at
  every API call and at every acquisition or release of the instances lock.  Writes succeed.
*/
module RoleSafety {
  import opened ObjectNames
  import opened Options
  import opened Sorting

  type Thread = nat

  /** The thread that reconciles all tracked requests once an hour. */
  const TICKER: Thread := 0

  /** Where a thread is inside `Reconcile`; `Locked*` hold the instances lock. */
  datatype Pc =
    | Idle
    | Fetching(req: Request)
    | NotFound(req: Request)
    | LockedRemoving(req: Request)
    | LockedDeletingBinding(req: Request)
    | LockedDeletingRole(req: Request)
    | LockedLeaving
    | Found(req: Request)
    | LockedInserting(req: Request)
    | LockedInserted(req: Request, stamp: nat)
    | WritingRole(req: Request, stamp: nat)
    | WritingBinding(req: Request, stamp: nat)

  /**
    The shared state.  `clock`, `stamp`, `passed` and `removed` only record the past: when each tracked request
    was inserted last, which insertions' reconciles have passed their role writes, and which name was untracked last.
    `pass` is what the ticker still has to reconcile.
  */
  datatype State = State(
    resources: set<Request>,
    instances: set<Request>,
    lock: Option<Thread>,
    roles: set<string>,
    bindings: set<string>,
    threads: map<Thread, Pc>,
    pass: seq<Request>,
    clock: nat,
    stamp: map<Request, nat>,
    passed: set<nat>,
    removed: Option<string>)

  function PcOf(s: State, t: Thread): Pc { if t in s.threads then s.threads[t] else Idle }

  function Moved(s: State, t: Thread, pc: Pc): State { s.(threads := s.threads[t := pc]) }

  predicate HoldsLock(pc: Pc)
  {
    pc.LockedRemoving? || pc.LockedDeletingBinding? || pc.LockedDeletingRole? || pc.LockedLeaving?
    || pc.LockedInserting? || pc.LockedInserted?
  }

  // ---- steps ----

  datatype Step =
    | Create(req: Request)
    | Delete(req: Request)
    | Start(t: Thread, req: Request)
    | Snapshot(order: seq<Request>)
    | TickNext
    | Run(t: Thread)

  /** One step of a thread that is asking for its resource, or has not found it. */
  function GoneStep(s: State, t: Thread): Option<State>
  {
    match PcOf(s, t)
    case Fetching(req) => Some(Moved(s, t, if req in s.resources then Found(req) else NotFound(req)))
    case NotFound(req) => if s.lock.Some? then None else Some(Moved(s, t, LockedRemoving(req)).(lock := Some(t)))
    case LockedRemoving(req) =>
      var rest := s.instances - {req};
      Some(Moved(s, t, if rest == {} then LockedDeletingBinding(req) else LockedLeaving)
           .(instances := rest, removed := if req in s.instances then Some(req.name) else s.removed))
    case LockedDeletingBinding(req) => Some(Moved(s, t, LockedDeletingRole(req)).(bindings := s.bindings - {req.name}))
    case LockedDeletingRole(req) => Some(Moved(s, t, LockedLeaving).(roles := s.roles - {req.name}))
    case LockedLeaving => Some(Moved(s, t, Idle).(lock := None))
    case _ => None
  }

  /** One step of a thread that has found its resource. */
  function FoundStep(s: State, t: Thread): Option<State>
  {
    match PcOf(s, t)
    case Found(req) => if s.lock.Some? then None else Some(Moved(s, t, LockedInserting(req)).(lock := Some(t)))
    case LockedInserting(req) =>
      Some(Moved(s, t, LockedInserted(req, s.clock))
           .(instances := s.instances + {req}, stamp := s.stamp[req := s.clock], clock := s.clock + 1))
    case LockedInserted(req, stamp) => Some(Moved(s, t, WritingRole(req, stamp)).(lock := None))
    case WritingRole(req, stamp) => Some(Moved(s, t, WritingBinding(req, stamp)).(roles := s.roles + {req.name}))
    case WritingBinding(req, stamp) =>
      Some(Moved(s, t, Idle).(bindings := s.bindings + {req.name}, passed := s.passed + {stamp}))
    case _ => None
  }

  /** The thread has seen the resource and will go on to track it and write its roles. */
  predicate HasSeen(pc: Pc) { pc.Found? || pc.LockedInserting? || CarriesStamp(pc) }

  /** One step of a thread inside `Reconcile`; a thread that needs a taken lock cannot move. */
  function RunStep(s: State, t: Thread): Option<State>
  {
    if HasSeen(PcOf(s, t)) then FoundStep(s, t) else GoneStep(s, t)
  }

  ghost predicate Next(s: State, s': State, step: Step)
  {
    match step
    case Create(req) => s' == s.(resources := s.resources + {req})
    case Delete(req) => s' == s.(resources := s.resources - {req})
    case Start(t, req) => t != TICKER && PcOf(s, t).Idle? && s' == Moved(s, t, Fetching(req))
    case Snapshot(order) =>
      && PcOf(s, TICKER).Idle? && s.pass == [] && s.lock.None? && Lists(order, s.instances)
      && s' == s.(pass := order)
    case TickNext =>
      PcOf(s, TICKER).Idle? && s.pass != [] && s' == Moved(s, TICKER, Fetching(s.pass[0])).(pass := s.pass[1..])
    case Run(t) => RunStep(s, t) == Some(s')
  }

  ghost predicate Init(s: State)
  {
    s.instances == {} && s.lock.None? && s.threads == map[] && s.pass == [] && s.passed == {} && s.stamp == map[]
  }

  /** `states[i + 1]` follows from `states[i]` by `steps[i]`. */
  ghost predicate IsRun(states: seq<State>, steps: seq<Step>)
  {
    |states| == |steps| + 1 && forall i | 0 <= i < |steps| :: Next(states[i], states[i + 1], steps[i])
  }

  // ---- safety of the roles ----

  /** The role and binding of a tracked request exist once the reconcile that last inserted it passed its writes. */
  ghost predicate RolesPresent(s: State)
  {
    forall req | req in s.instances && req in s.stamp && s.stamp[req] in s.passed :: req.name in s.roles && req.name in s.bindings
  }

  predicate CarriesStamp(pc: Pc) { pc.LockedInserted? || pc.WritingRole? || pc.WritingBinding? }

  /** The lock is held by the thread that is inside, and by no other; deletion happens while nothing is tracked. */
  ghost predicate LockInvariant(s: State)
  {
    && (forall t: Thread :: HoldsLock(PcOf(s, t)) <==> s.lock == Some(t))
    && (forall t: Thread :: PcOf(s, t).LockedDeletingBinding? || PcOf(s, t).LockedDeletingRole? ==> s.instances == {})
  }

  /** Stamps are from the past, and each belongs to one insertion by one thread. */
  ghost predicate StampInvariant(s: State)
  {
    && (forall req | req in s.instances :: req in s.stamp)
    && (forall req | req in s.stamp :: s.stamp[req] < s.clock)
    && (forall i | i in s.passed :: i < s.clock)
    && (forall t: Thread :: CarriesStamp(PcOf(s, t)) ==> PcOf(s, t).stamp < s.clock)
    && (forall t: Thread, req | req in s.stamp ::
          CarriesStamp(PcOf(s, t)) && PcOf(s, t).stamp == s.stamp[req] ==> PcOf(s, t).req == req)
  }

  /** A role is written before its binding, and stays while its request is tracked. */
  ghost predicate RoleInvariant(s: State)
  {
    && (forall t: Thread, req | req in s.instances && req in s.stamp ::
          PcOf(s, t).WritingBinding? && PcOf(s, t).stamp == s.stamp[req] ==> req.name in s.roles)
    && RolesPresent(s)
  }

  ghost predicate Invariant(s: State)
  {
    LockInvariant(s) && StampInvariant(s) && RoleInvariant(s)
  }

  lemma OtherThreads(s: State, t: Thread, pc: Pc)
    ensures forall u: Thread :: PcOf(Moved(s, t, pc), u) == if u == t then pc else PcOf(s, u)
  {}

  lemma GoneKeepsLock(s: State, s': State, t: Thread)
    requires Invariant(s) && GoneStep(s, t) == Some(s')
    ensures LockInvariant(s')
  {
    assert forall u: Thread | u != t :: PcOf(s', u) == PcOf(s, u);
    assert HoldsLock(PcOf(s, t)) <==> s.lock == Some(t);
  }

  lemma FoundKeepsLock(s: State, s': State, t: Thread)
    requires Invariant(s) && FoundStep(s, t) == Some(s')
    ensures LockInvariant(s')
  {
    assert forall u: Thread | u != t :: PcOf(s', u) == PcOf(s, u);
    assert HoldsLock(PcOf(s, t)) <==> s.lock == Some(t);
  }

  lemma GoneKeepsStamps(s: State, s': State, t: Thread)
    requires Invariant(s) && GoneStep(s, t) == Some(s')
    ensures StampInvariant(s')
  {
    assert forall u: Thread | u != t :: PcOf(s', u) == PcOf(s, u);
  }

  lemma FoundKeepsStamps(s: State, s': State, t: Thread)
    requires Invariant(s) && FoundStep(s, t) == Some(s')
    ensures StampInvariant(s')
  {
    assert forall u: Thread | u != t :: PcOf(s', u) == PcOf(s, u);
  }

  lemma GoneKeepsRoles(s: State, s': State, t: Thread)
    requires Invariant(s) && GoneStep(s, t) == Some(s')
    ensures RoleInvariant(s')
  {
    assert forall u: Thread | u != t :: PcOf(s', u) == PcOf(s, u);
  }

  lemma FoundKeepsRoles(s: State, s': State, t: Thread)
    requires Invariant(s) && FoundStep(s, t) == Some(s')
    ensures RoleInvariant(s')
  {
    assert forall u: Thread | u != t :: PcOf(s', u) == PcOf(s, u);
  }

  lemma NextKeepsInvariant(s: State, s': State, step: Step)
    requires Invariant(s) && Next(s, s', step)
    ensures Invariant(s')
  {
    match step
    case Run(t) =>
      if HasSeen(PcOf(s, t)) {
        FoundKeepsLock(s, s', t);
        FoundKeepsStamps(s, s', t);
        FoundKeepsRoles(s, s', t);
      } else {
        GoneKeepsLock(s, s', t);
        GoneKeepsStamps(s, s', t);
        GoneKeepsRoles(s, s', t);
      }
    case Start(t, req) => IdleStartKeeps(s, t, req);
    case TickNext =>
      IdleStartKeeps(s, TICKER, s.pass[0]);
      var m := Moved(s, TICKER, Fetching(s.pass[0]));
      assert forall u: Thread :: PcOf(s', u) == PcOf(m, u);
    case _ => assert forall u: Thread :: PcOf(s', u) == PcOf(s, u);
  }

  lemma IdleStartKeeps(s: State, t: Thread, req: Request)
    requires Invariant(s) && PcOf(s, t).Idle?
    ensures Invariant(Moved(s, t, Fetching(req)))
  {
    OtherThreads(s, t, Fetching(req));
  }

  lemma {:induction false} RunKeepsInvariant(states: seq<State>, steps: seq<Step>, i: nat)
    requires IsRun(states, steps) && Invariant(states[0]) && i < |states|
    ensures Invariant(states[i])
  {
    if i > 0 {
      RunKeepsInvariant(states, steps, i - 1);
      NextKeepsInvariant(states[i - 1], states[i], steps[i - 1]);
    }
  }

  /**
    In every interleaving, at every moment: if a request is tracked and the reconcile that last inserted it has
    passed its role writes, then its cluster role and binding exist.
  */
  lemma RolesAlwaysPresent(states: seq<State>, steps: seq<Step>, i: nat)
    requires IsRun(states, steps) && Init(states[0]) && i < |states|
    ensures RolesPresent(states[i])
  {
    assert forall t: Thread :: PcOf(states[0], t) == Idle;
    RunKeepsInvariant(states, steps, i);
  }
}
