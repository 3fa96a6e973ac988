/**
  All resources together: reconciled in any order and any number of times, a resource that has been reconciled twice
  has settled, and nothing the others do unsettles it.
*/
module WholeOperator {
  import opened Convergence
  import opened Events
  import opened Independence
  import opened ObjectNames
  import opened Options
  import opened Plan
  import opened Resource
  import opened Store

  /** What the operator reads and writes; the clean-up flag is shared. */
  datatype World = World(objects: Objects, legacyDeleted: bool, statuses: map<Request, Status>)

  type Specs = map<Request, CorootSpec>

  /** One reconcile of one of the resources. */
  datatype Turn = Turn(cr: Request, random: Random)

  /** The resources keep their secrets apart, and those of one name agree on the cluster role they share. */
  ghost predicate Separate(op: Operator, specs: Specs)
  {
    forall a, b | a in specs && b in specs && a != b ::
      SecretsApart(a, specs[a], b, specs[b]) && (a.name == b.name ==> RolesAlike(op, a, b))
  }

  function StatusIn(w: World, cr: Request): Option<Status> { if cr in w.statuses then Some(w.statuses[cr]) else None }

  ghost function EventOf(op: Operator, specs: Specs, w: World, t: Turn): Event
    requires t.cr in specs
  {
    Event(op, t.cr, specs[t.cr], w.legacyDeleted, t.random)
  }

  ghost function Step(op: Operator, specs: Specs, w: World, t: Turn): World
    requires t.cr in specs
  {
    var e := EventOf(op, specs, w, t);
    World(After(e, w.objects), w.legacyDeleted || !e.spec.agentsOnly,
          if e.spec.agentsOnly then w.statuses else w.statuses[t.cr := StatusOf(OutcomeOf(e, w.objects))])
  }

  /** A step is one reconcile of the resource, and leaves the status of every other resource alone. */
  lemma StepReconciles(op: Operator, specs: Specs, w: World, t: Turn, other: Request)
    requires t.cr in specs
    ensures var w' := Step(op, specs, w, t);
            && Cluster(w'.objects, w'.legacyDeleted, StatusIn(w', t.cr))
               == Reconciled(op, t.cr, specs[t.cr], Cluster(w.objects, w.legacyDeleted, StatusIn(w, t.cr)), t.random)
            && (other != t.cr ==> StatusIn(w', other) == StatusIn(w, other))
  {}

  ghost predicate AreTurns(specs: Specs, turns: seq<Turn>) { forall t | t in turns :: t.cr in specs }

  ghost function RunOf(op: Operator, specs: Specs, w: World, turns: seq<Turn>): World
    requires AreTurns(specs, turns)
    decreases |turns|
  {
    if turns == [] then w else Step(op, specs, RunOf(op, specs, w, turns[..|turns| - 1]), turns[|turns| - 1])
  }

  /** How often a resource has been reconciled. */
  function Count(turns: seq<Turn>, cr: Request): nat
  {
    if turns == [] then 0 else Count(turns[..|turns| - 1], cr) + if turns[|turns| - 1].cr == cr then 1 else 0
  }

  lemma SeparateEvents(op: Operator, specs: Specs, e: Event, f: Event)
    requires Separate(op, specs) && e.cr in specs && f.cr in specs && e.cr != f.cr
    requires e.op == f.op == op && e.spec == specs[e.cr] && f.spec == specs[f.cr]
    ensures Compatible(e, f)
  {}

  /** Without the server part the flag does not matter. */
  lemma AgentsIgnoreFlag(e: Event, s: Objects, f: bool)
    requires e.spec.agentsOnly
    ensures After(e.(legacyDeleted := f), s) == After(e, s)
  {
    OutcomeKeepsLayout(e.op, e.cr, e.spec, s, e.random);
    assert OutcomeOf(e.(legacyDeleted := f), s) == OutcomeOf(e, s);
  }

  // ---- a resource that has been reconciled once ----

  predicate FlagSettled(specs: Specs, w: World, cr: Request)
    requires cr in specs
  {
    w.legacyDeleted || specs[cr].agentsOnly
  }

  /** The store is what a reconcile of the resource has made of some store in which its cluster role binding existed. */
  ghost predicate Visited(op: Operator, specs: Specs, w: World, cr: Request)
    requires cr in specs
  {
    && FlagSettled(specs, w, cr)
    && exists e: Event, z: Objects :: VisitOf(op, specs, cr, e, z, w.objects)
  }

  ghost predicate VisitOf(op: Operator, specs: Specs, cr: Request, e: Event, z: Objects, s: Objects)
    requires cr in specs
  {
    e.op == op && e.cr == cr && e.spec == specs[cr] && WithBinding(e, z, s)
  }

  ghost predicate WithBinding(e: Event, z: Objects, s: Objects)
  {
    s == After(e, z) && KeyOf(e.cr, AgentClusterRoleBinding) in z
  }

  /** A reconcile that creates the binding might as well have found it. */
  lemma BindingFirst(e: Event, z: Objects) returns (z': Objects)
    ensures WithBinding(e, z', After(e, z))
  {
    BindingAfter(e, z);
    BindingKind(e.cr);
    z' := Putting(z, KeyOf(e.cr, AgentClusterRoleBinding), At(After(e, z), KeyOf(e.cr, AgentClusterRoleBinding)).value);
    FoundAgain(e, z, z', KeyOf(e.cr, AgentClusterRoleBinding));
  }

  lemma Putting(z: Objects, k: Key, o: Stored) returns (z': Objects)
    ensures k in z' && At(z', k) == Some(o) && forall other | other != k :: At(z', other) == At(z, other)
  {
    z' := z[k := o];
  }

  lemma BindingKind(cr: Request)
    ensures KeyOf(cr, AgentClusterRoleBinding).kind.ClusterRoleBinding?
  {}

  lemma FoundAgain(e: Event, z: Objects, z': Objects, kb: Key)
    requires kb.kind.ClusterRoleBinding? && kb == KeyOf(e.cr, AgentClusterRoleBinding) && At(z', kb) == At(After(e, z), kb)
    requires forall k | k != kb :: At(z', k) == At(z, k)
    ensures After(e, z') == After(e, z)
  {
    BindingTwice(e, z, z', kb);
    FoundInstead(e, z, z', kb);
  }

  lemma FoundInstead(e: Event, z: Objects, z': Objects, kb: Key)
    requires !kb.kind.Secret? && At(After(e, z'), kb) == At(After(e, z), kb)
    requires forall k | k != kb :: At(z', k) == At(z, k)
    ensures After(e, z') == After(e, z)
  {
    SameWritesBefore(e, z, z', kb);
    forall k ensures At(After(e, z'), k) == At(After(e, z), k) {
      if k != kb { OthersAsBefore(e, z, z', k); }
    }
    SameEverywhere(After(e, z'), After(e, z));
  }

  lemma OthersAsBefore(e: Event, z: Objects, z': Objects, k: Key)
    requires EventWrites(e, z') == EventWrites(e, z) && At(z', k) == At(z, k)
    ensures At(After(e, z'), k) == At(After(e, z), k)
  {
    ApplyAllAt(z, EventWrites(e, z), k, e.cr, e.random);
    ApplyAllAt(z', EventWrites(e, z), k, e.cr, e.random);
  }

  /** What is not a secret does not matter to the plan. */
  lemma SameWritesBefore(e: Event, z: Objects, z': Objects, kb: Key)
    requires !kb.kind.Secret? && forall k | k != kb :: At(z', k) == At(z, k)
    ensures EventWrites(e, z') == EventWrites(e, z)
  {
    OutcomeIgnoresOthers(e.op, e.cr, e.spec, z', z, e.random);
    assert OutcomeOf(e, z') == OutcomeOf(e, z);
  }

  lemma BindingTwice(e: Event, z: Objects, z': Objects, kb: Key)
    requires kb == KeyOf(e.cr, AgentClusterRoleBinding) && At(z', kb) == At(After(e, z), kb)
    ensures At(After(e, z'), kb) == At(After(e, z), kb)
  {
    BindingAfter(e, z);
    BindingStays(e, z', kb);
    GivenUpTwice(At(z, kb), At(After(e, z), kb).value, e.cr);
  }

  lemma GivenUpTwice(before: Option<Stored>, o: Stored, owner: Request)
    requires if before.Some? then o == GivenUp(before.value, owner) else o.controller.None?
    ensures GivenUp(o, owner) == o
  {}

  lemma OwnTurnVisits(op: Operator, specs: Specs, w: World, t: Turn)
    requires t.cr in specs
    ensures Visited(op, specs, Step(op, specs, w, t), t.cr)
  {
    var e := EventOf(op, specs, w, t);
    var z := BindingFirst(e, w.objects);
    assert VisitOf(op, specs, t.cr, e, z, Step(op, specs, w, t).objects);
  }

  lemma BindingKept(f: Event, z: Objects, cr: Request)
    requires KeyOf(cr, AgentClusterRoleBinding) in z
    ensures KeyOf(cr, AgentClusterRoleBinding) in After(f, z)
  {
    var k := KeyOf(cr, AgentClusterRoleBinding);
    if k == KeyOf(f.cr, AgentClusterRoleBinding) {
      BindingAfter(f, z);
    } else {
      ClusterPart(f, z, k);
      NotTouched(f, z, k);
    }
    assert At(After(f, z), k).Some?;
  }

  /** Another reconcile commutes with the visit. */
  lemma VisitCommutes(e: Event, f: Event, z: Objects, s: Objects)
    requires Compatible(e, f) && WithBinding(e, z, s)
    ensures WithBinding(e, After(f, z), After(f, s))
  {
    BindingKept(f, z, e.cr);
    StoresCommute(e, f, z);
  }

  lemma OtherTurnKeepsVisited(op: Operator, specs: Specs, w: World, cr: Request, t: Turn)
    requires Separate(op, specs) && cr in specs && t.cr in specs && t.cr != cr && Visited(op, specs, w, cr)
    ensures Visited(op, specs, Step(op, specs, w, t), cr)
  {
    var e: Event, z: Objects :| VisitOf(op, specs, cr, e, z, w.objects);
    var f := EventOf(op, specs, w, t);
    SeparateEvents(op, specs, e, f);
    VisitCommutes(e, f, z, w.objects);
    assert VisitOf(op, specs, cr, e, After(f, z), Step(op, specs, w, t).objects);
  }

  // ---- a resource that has been reconciled twice ----

  /** Another reconcile of the resource would find nothing to change. */
  ghost predicate Stable(op: Operator, specs: Specs, w: World, cr: Request)
    requires cr in specs
  {
    && FlagSettled(specs, w, cr)
    && forall r: Random :: FixedFor(op, specs, w, cr, r)
  }

  ghost predicate FixedFor(op: Operator, specs: Specs, w: World, cr: Request, r: Random)
    requires cr in specs
  {
    var e := Event(op, cr, specs[cr], w.legacyDeleted, r);
    && After(e, w.objects) == w.objects
    && (!specs[cr].agentsOnly ==> StatusIn(w, cr) == Some(StatusOf(OutcomeOf(e, w.objects))))
  }

  lemma StableIsFixed(op: Operator, specs: Specs, w: World, t: Turn)
    requires t.cr in specs && Stable(op, specs, w, t.cr)
    ensures Step(op, specs, w, t) == w
  {
    assert FixedFor(op, specs, w, t.cr, t.random);
  }

  /** The second reconcile settles the resource, whatever others did in between. */
  lemma SecondTurnSettles(op: Operator, specs: Specs, w: World, t: Turn)
    requires t.cr in specs && Visited(op, specs, w, t.cr)
    ensures Stable(op, specs, Step(op, specs, w, t), t.cr)
  {
    var w' := Step(op, specs, w, t);
    var e: Event, z: Objects :| VisitOf(op, specs, t.cr, e, z, w.objects);
    forall r: Random ensures FixedFor(op, specs, w', t.cr, r) { ThirdTurnIdle(op, specs, w, t, e, z, r); }
  }

  lemma ThirdTurnIdle(op: Operator, specs: Specs, w: World, t: Turn, e: Event, z: Objects, r: Random)
    requires t.cr in specs && FlagSettled(specs, w, t.cr)
    requires e.op == op && e.cr == t.cr && e.spec == specs[t.cr] && w.objects == After(e, z)
    ensures FixedFor(op, specs, Step(op, specs, w, t), t.cr, r)
  {
    var cr, spec, w' := t.cr, specs[t.cr], Step(op, specs, w, t);
    var c1 := Reconciled(op, cr, spec, Cluster(z, e.legacyDeleted, None), e.random);
    var c2 := Reconciled(op, cr, spec, c1, t.random);
    assert c1.objects == w.objects;
    ThirdReconcileChangesNothing(op, cr, spec, Cluster(z, e.legacyDeleted, None), e.random, t.random, r);
    var second, third := Event(op, cr, spec, c1.legacyDeleted, t.random), Event(op, cr, spec, c2.legacyDeleted, r);
    if spec.agentsOnly {
      AgentsIgnoreFlag(second, w.objects, w.legacyDeleted);
      AgentsIgnoreFlag(third, w'.objects, w'.legacyDeleted);
    }
    assert c2.objects == After(second, w.objects) && After(third, c2.objects) == c2.objects;
  }

  lemma OtherTurnKeepsStable(op: Operator, specs: Specs, w: World, cr: Request, t: Turn)
    requires Separate(op, specs) && cr in specs && t.cr in specs && t.cr != cr && Stable(op, specs, w, cr)
    ensures Stable(op, specs, Step(op, specs, w, t), cr)
  {
    var w' := Step(op, specs, w, t);
    forall r: Random ensures FixedFor(op, specs, w', cr, r) {
      assert FixedFor(op, specs, w, cr, r);
      OtherTurnKeepsFixed(op, specs, w, cr, t, r);
    }
  }

  /** What changes nothing changes nothing after another resource's reconcile either. */
  lemma Undisturbed(e: Event, f: Event, s: Objects)
    requires Compatible(e, f) && After(e, s) == s
    ensures After(e, After(f, s)) == After(f, s) && OutcomeOf(e, After(f, s)) == OutcomeOf(e, s)
  {
    BindingAfter(e, s);
    assert At(s, KeyOf(e.cr, AgentClusterRoleBinding)).Some?;
    StoresCommute(e, f, s);
    OutcomeUnaffected(e, f, s);
  }

  /** The flag may be set meanwhile, but then only agents are deployed. */
  lemma OtherTurnKeepsAgents(op: Operator, specs: Specs, w: World, cr: Request, t: Turn, r: Random)
    requires Separate(op, specs) && cr in specs && t.cr in specs && t.cr != cr
    requires specs[cr].agentsOnly && FixedFor(op, specs, w, cr, r)
    ensures FixedFor(op, specs, Step(op, specs, w, t), cr, r)
  {
    var e := Event(op, cr, specs[cr], w.legacyDeleted, r);
    var w' := Step(op, specs, w, t);
    SeparateEvents(op, specs, e, EventOf(op, specs, w, t));
    Undisturbed(e, EventOf(op, specs, w, t), w.objects);
    AgentsIgnoreFlag(e, w'.objects, w'.legacyDeleted);
  }

  lemma OtherTurnKeepsFixed(op: Operator, specs: Specs, w: World, cr: Request, t: Turn, r: Random)
    requires Separate(op, specs) && cr in specs && t.cr in specs && t.cr != cr
    requires FlagSettled(specs, w, cr) && FixedFor(op, specs, w, cr, r)
    ensures FixedFor(op, specs, Step(op, specs, w, t), cr, r)
  {
    if specs[cr].agentsOnly {
      OtherTurnKeepsAgents(op, specs, w, cr, t, r);
    } else {
      var e := Event(op, cr, specs[cr], w.legacyDeleted, r);
      SeparateEvents(op, specs, e, EventOf(op, specs, w, t));
      Undisturbed(e, EventOf(op, specs, w, t), w.objects);
    }
  }

  // ---- whole runs ----

  lemma {:induction false} TurnsSettle(op: Operator, specs: Specs, w: World, turns: seq<Turn>, cr: Request)
    requires Separate(op, specs) && cr in specs && AreTurns(specs, turns)
    ensures Count(turns, cr) >= 1 ==> Visited(op, specs, RunOf(op, specs, w, turns), cr)
    ensures Count(turns, cr) >= 2 ==> Stable(op, specs, RunOf(op, specs, w, turns), cr)
    decreases |turns|
  {
    if turns != [] {
      var front, last := turns[..|turns| - 1], turns[|turns| - 1];
      TurnsSettle(op, specs, w, front, cr);
      var before := RunOf(op, specs, w, front);
      if last.cr == cr {
        OwnTurnVisits(op, specs, before, last);
        if Count(front, cr) >= 1 { SecondTurnSettles(op, specs, before, last); }
      } else {
        if Count(front, cr) >= 1 { OtherTurnKeepsVisited(op, specs, before, cr, last); }
        if Count(front, cr) >= 2 { OtherTurnKeepsStable(op, specs, before, cr, last); }
      }
    }
  }

  /** Whoever has been reconciled twice has settled, however its turns and those of others alternate. */
  lemma TwiceIsEnough(op: Operator, specs: Specs, w: World, turns: seq<Turn>, t: Turn)
    requires Separate(op, specs) && AreTurns(specs, turns) && t.cr in specs && Count(turns, t.cr) >= 2
    ensures Step(op, specs, RunOf(op, specs, w, turns), t) == RunOf(op, specs, w, turns)
  {
    TurnsSettle(op, specs, w, turns, t.cr);
    StableIsFixed(op, specs, RunOf(op, specs, w, turns), t);
  }

  /** Once every resource has been reconciled twice, no further run of reconciles changes anything. */
  lemma {:induction false} OperatorConverges(op: Operator, specs: Specs, w: World, turns: seq<Turn>, more: seq<Turn>)
    requires Separate(op, specs) && AreTurns(specs, turns + more)
    requires forall cr | cr in specs :: Count(turns, cr) >= 2
    ensures AreTurns(specs, turns) && RunOf(op, specs, w, turns + more) == RunOf(op, specs, w, turns)
    decreases |more|
  {
    assert forall t | t in turns :: t in turns + more;
    if more == [] {
      assert turns + more == turns;
    } else {
      var front, last := more[..|more| - 1], more[|more| - 1];
      assert turns + more == turns + front + [last];
      assert (turns + more)[..|turns + more| - 1] == turns + front;
      assert last in turns + more;
      OperatorConverges(op, specs, w, turns, front);
      TwiceIsEnough(op, specs, w, turns, last);
    }
  }

  // ---- resources of one name that disagree ----

  /** A world settled for two resources of one name is one in which they agree on the cluster role. */
  lemma DisagreementNeverSettles(op: Operator, specs: Specs, w: World, a: Turn, b: Turn)
    requires a.cr in specs && b.cr in specs && a.cr.name == b.cr.name
    requires Step(op, specs, w, a) == w && Step(op, specs, w, b) == w
    ensures RoleContent(EventOf(op, specs, w, a), w.objects) == RoleContent(EventOf(op, specs, w, b), w.objects)
  {
    SharedKeys(a.cr, b.cr);
    RoleAfter(EventOf(op, specs, w, a), w.objects);
    RoleAfter(EventOf(op, specs, w, b), w.objects);
  }
}
