/**
  Reconciles of different resources do not interfere: they commute on namespaced objects, and on the cluster-scoped ones
  that resources of one name share as far as those agree on them.
*/
module Independence {
  import opened ConfigEnvs
  import opened Consultation
  import opened Convergence
  import opened Events
  import opened Generation
  import opened Normalisation
  import opened ObjectNames
  import opened Options
  import opened Plan
  import opened Resource
  import opened Store

  /** The selectors validation looks up. */
  function Consulted(spec: CorootSpec): set<Selector> { BasicConsulted(spec) + EnterpriseConsulted(spec) }

  predicate NamesApart(a: set<Selector>, b: set<Selector>)
  {
    forall g, h | g in a && h in b :: g.name != h.name
  }

  /** No secret is generated for both resources, and none looked up for one is generated for the other. */
  predicate SecretsApart(a: Request, x: CorootSpec, b: Request, y: CorootSpec)
  {
    a.ns == b.ns ==>
      && NamesApart(ApiKeySelectors(x), GeneratedSelectors(b, y)) && NamesApart(GeneratedSelectors(a, x), ApiKeySelectors(y))
      && NamesApart(Consulted(x), GeneratedSelectors(b, y)) && NamesApart(GeneratedSelectors(a, x), Consulted(y))
  }

  ghost predicate Apart(e: Event, f: Event) { SecretsApart(e.cr, e.spec, f.cr, f.spec) }

  lemma SecretTouched(e: Event, s: Objects, k: Key)
    requires k.kind.Secret? && Touched(EventWrites(e, s), k)
    ensures k.ns == e.cr.ns && exists g | g in GeneratedSelectors(e.cr, e.spec) :: g.name == k.name
  {
    var ws, o := EventWrites(e, s), OutcomeOf(e, s);
    SecretsOnlyGenerated(e.op, e.cr, o, e.legacyDeleted, k);
    var i :| 0 <= i < |ws| && Touches(ws[i], k);
    GeneratesInNamespace(e.op, e.cr, o, e.legacyDeleted, i);
    OutcomeApiKeys(e.op, e.cr, e.spec, s, e.random);
    OutcomeKeepsLayout(e.op, e.cr, e.spec, s, e.random);
    PlanTouches(e.op, e.cr, e.spec, o, e.legacyDeleted, k.name);
  }

  lemma GeneratesInNamespace(op: Operator, cr: Request, o: Outcome, f: bool, i: nat)
    requires i < |Writes(op, cr, o, f)| && Writes(op, cr, o, f)[i].Generated?
    ensures Writes(op, cr, o, f)[i].ns == cr.ns
  {
    var p := WriteOrigin(op, cr, o, f, i);
    if p.Some? { GeneratingPart(op, cr, o, p.value); }
  }

  /** Another resource's reconcile leaves every answer to this one's lookups as it was. */
  lemma LookupUnaffected(e: Event, f: Event, s: Objects, x: Selector)
    requires Apart(e, f) && x in Consulted(e.spec)
    ensures At(After(f, s), Key(Secret, e.cr.ns, x.name)) == At(s, Key(Secret, e.cr.ns, x.name))
  {
    var k := Key(Secret, e.cr.ns, x.name);
    if Touched(EventWrites(f, s), k) { SecretTouched(f, s, k); }
    NotTouched(f, s, k);
  }

  /** Another resource's reconcile leaves the outcome of normalisation as it was. */
  lemma OutcomeUnaffected(e: Event, f: Event, s: Objects)
    requires Apart(e, f)
    ensures OutcomeOf(e, After(f, s)) == OutcomeOf(e, s)
  {
    var t := After(f, s);
    var v, w := SecretsOf(t, e.cr.ns), SecretsOf(s, e.cr.ns);
    var v', w' := LaterView(e.cr, e.spec, t, e.random), LaterView(e.cr, e.spec, s, e.random);
    var write := Generated(e.cr.ns, ApiKeysOf(e.spec), true);
    forall x | x in Consulted(e.spec)
      ensures GetSecret(v, x) == GetSecret(w, x) && GetSecret(v', x) == GetSecret(w', x)
    {
      var k := Key(Secret, e.cr.ns, x.name);
      LookupUnaffected(e, f, s, x);
      SameSecret(t, s, e.cr.ns, x);
      ApplyAt(t, write, k, e.cr, e.random);
      ApplyAt(s, write, k, e.cr, e.random);
      SameSecret(Apply(t, write, e.cr, e.random), Apply(s, write, e.cr, e.random), e.cr.ns, x);
    }
    OutcomeByViews(e.op, e.cr, e.spec, t, e.random);
    OutcomeByViews(e.op, e.cr, e.spec, s, e.random);
    NormaliseAgrees(v, w, v', w', e.op.parses, e.spec);
  }

  lemma SameSecret(t: Objects, s: Objects, ns: string, x: Selector)
    requires At(t, Key(Secret, ns, x.name)) == At(s, Key(Secret, ns, x.name))
    ensures GetSecret(SecretsOf(t, ns), x) == GetSecret(SecretsOf(s, ns), x)
  {
    SecretsAt(t, ns, x.name);
    SecretsAt(s, ns, x.name);
  }

  /** The passwords of different resources are in different secrets. */
  lemma PasswordsApart(a: Request, b: Request)
    requires a.ns == b.ns && NameOf(a, PasswordSecret) == NameOf(b, PasswordSecret)
    ensures a == b
  {
    KeysDisjoint(a, PasswordSecret, b, PasswordSecret);
  }

  lemma NoCommonSecret(e: Event, f: Event, s: Objects, t: Objects, k: Key)
    requires e.cr != f.cr && Apart(e, f) && k.kind.Secret?
    ensures !Touched(EventWrites(e, s), k) || !Touched(EventWrites(f, t), k)
  {
    if Touched(EventWrites(e, s), k) && Touched(EventWrites(f, t), k) {
      SecretTouched(e, s, k);
      SecretTouched(f, t, k);
      GeneratedApart(e, f, k.name);
    }
  }

  lemma GeneratedApart(e: Event, f: Event, name: string)
    requires e.cr != f.cr && e.cr.ns == f.cr.ns && Apart(e, f) && exists g | g in GeneratedSelectors(e.cr, e.spec) :: g.name == name
    ensures forall h | h in GeneratedSelectors(f.cr, f.spec) :: h.name != name
  {
    var g :| g in GeneratedSelectors(e.cr, e.spec) && g.name == name;
    forall h | h in GeneratedSelectors(f.cr, f.spec) ensures h.name != name {
      if g in PasswordSelectors(e.cr, e.spec) && h in PasswordSelectors(f.cr, f.spec) && h.name == name {
        PasswordsApart(e.cr, f.cr);
      }
    }
  }

  /** Reconciles of different resources never write the same namespaced object. */
  lemma NothingInCommon(e: Event, f: Event, s: Objects, t: Objects, k: Key)
    requires e.cr != f.cr && Apart(e, f)
    requires (k.kind.ClusterRole? || k.kind.ClusterRoleBinding?) ==> e.cr.name != f.cr.name
    ensures !Touched(EventWrites(e, s), k) || !Touched(EventWrites(f, t), k)
  {
    if k.kind.Secret? {
      NoCommonSecret(e, f, s, t, k);
    } else if Touched(EventWrites(e, s), k) && Touched(EventWrites(f, t), k) {
      NoCommonPart(e, f, s, t, k);
    }
  }

  lemma NoCommonPart(e: Event, f: Event, s: Objects, t: Objects, k: Key)
    requires !k.kind.Secret?
    requires Touched(EventWrites(e, s), k) && Touched(EventWrites(f, t), k)
    ensures e.cr.name == f.cr.name && (k.kind.ClusterRole? || k.kind.ClusterRoleBinding? || e.cr == f.cr)
  {
    var p := TouchedByPart(e, s, k);
    var q := TouchedByPart(f, t, k);
    KeysDisjoint(e.cr, p, f.cr, q);
    KindNamespaced(e.cr, p);
  }

  lemma KindNamespaced(cr: Request, p: Part)
    ensures KeyOf(cr, p).kind.ClusterRole? || KeyOf(cr, p).kind.ClusterRoleBinding? || Namespaced(p)
  {}

  /** Reconciles of different resources commute on every namespaced object, and of different names on every object. */
  lemma ReconcilesCommute(e: Event, f: Event, s: Objects, k: Key)
    requires e.cr != f.cr && Apart(e, f)
    requires (k.kind.ClusterRole? || k.kind.ClusterRoleBinding?) ==> e.cr.name != f.cr.name
    ensures At(After(f, After(e, s)), k) == At(After(e, After(f, s)), k)
  {
    ApartSymmetric(e, f);
    OutcomeUnaffected(e, f, s);
    OutcomeUnaffected(f, e, s);
    NothingInCommon(e, f, s, s, k);
    ApplyAllCommute(s, EventWrites(e, s), e.cr, EventWrites(f, s), f.cr, e.random, f.random, k);
  }

  lemma ApartSymmetric(e: Event, f: Event)
    requires Apart(e, f)
    ensures Apart(f, e)
  {}

  // ---- resources of one name ----

  /** Both resources give the cluster role the same content, whatever their specifications. */
  ghost predicate RolesAlike(op: Operator, a: Request, b: Request)
  {
    forall x: CorootSpec, y: CorootSpec, v: seq<EnvVar>, w: seq<EnvVar> ::
      op.build(a, x, v, AgentClusterRole) == op.build(b, y, w, AgentClusterRole)
  }

  /** Different resources with separate secrets which, if they have one name, agree on the cluster role. */
  ghost predicate Compatible(e: Event, f: Event)
  {
    e.cr != f.cr && Apart(e, f) && (e.cr.name == f.cr.name ==> e.op == f.op && RolesAlike(e.op, e.cr, f.cr))
  }

  predicate IsClusterScoped(k: Key) { k.kind.ClusterRole? || k.kind.ClusterRoleBinding? }

  lemma ClusterPartKey(cr: Request, p: Part)
    requires IsClusterScoped(KeyOf(cr, p))
    ensures KeyOf(cr, p) == KeyOf(cr, AgentClusterRole) || KeyOf(cr, p) == KeyOf(cr, AgentClusterRoleBinding)
  {}

  lemma ClusterPart(e: Event, s: Objects, k: Key)
    requires IsClusterScoped(k) && k != KeyOf(e.cr, AgentClusterRole) && k != KeyOf(e.cr, AgentClusterRoleBinding)
    ensures !Touched(EventWrites(e, s), k)
  {
    if Touched(EventWrites(e, s), k) {
      var p := TouchedByPart(e, s, k);
      ClusterPartKey(e.cr, p);
    }
  }

  lemma SharedKeys(a: Request, b: Request)
    requires a.name == b.name
    ensures KeyOf(a, AgentClusterRole) == KeyOf(b, AgentClusterRole)
    ensures KeyOf(a, AgentClusterRoleBinding) == KeyOf(b, AgentClusterRoleBinding)
  {
    ClusterScopedShared(a, b, AgentClusterRole);
    ClusterScopedShared(a, b, AgentClusterRoleBinding);
  }

  lemma OverwritesCommute(o: Option<Stored>, content: Body, a: Request, b: Request)
    ensures Overwritten(Some(Overwritten(o, content, a)), content, b) == Overwritten(Some(Overwritten(o, content, b)), content, a)
  {}

  lemma RolesCommute(e: Event, f: Event, s: Objects)
    requires e.cr.name == f.cr.name && Compatible(e, f)
    ensures var k := KeyOf(e.cr, AgentClusterRole); At(After(f, After(e, s)), k) == At(After(e, After(f, s)), k)
  {
    var k, content := KeyOf(e.cr, AgentClusterRole), RoleContent(e, s);
    SharedKeys(e.cr, f.cr);
    RoleContentSame(e, f, s, After(e, s));
    RoleContentSame(e, f, s, s);
    RoleContentSame(f, e, s, After(f, s));
    RoleAfter(e, s);
    RoleAfter(f, s);
    RoleAfter(f, After(e, s));
    RoleAfter(e, After(f, s));
    OverwritesCommute(At(s, k), content, e.cr, f.cr);
  }

  lemma RoleContentSame(e: Event, f: Event, s: Objects, t: Objects)
    requires e.op == f.op && (RolesAlike(e.op, e.cr, f.cr) || RolesAlike(e.op, f.cr, e.cr))
    ensures RoleContent(f, t) == RoleContent(e, s)
  {}

  lemma BindingsCommute(e: Event, f: Event, s: Objects)
    requires e.cr.name == f.cr.name && KeyOf(e.cr, AgentClusterRoleBinding) in s
    ensures var k := KeyOf(e.cr, AgentClusterRoleBinding); At(After(f, After(e, s)), k) == At(After(e, After(f, s)), k)
  {
    var k := KeyOf(e.cr, AgentClusterRoleBinding);
    SharedKeys(e.cr, f.cr);
    BindingAfter(e, s);
    BindingAfter(f, s);
    BindingStays(f, After(e, s), k);
    BindingStays(e, After(f, s), k);
    assert GivenUp(GivenUp(s[k], e.cr), f.cr) == GivenUp(GivenUp(s[k], f.cr), e.cr);
  }

  lemma BindingStays(e: Event, s: Objects, k: Key)
    requires k == KeyOf(e.cr, AgentClusterRoleBinding) && At(s, k).Some?
    ensures At(After(e, s), k) == Some(GivenUp(At(s, k).value, e.cr))
  {
    BindingAfter(e, s);
  }

  lemma SharedCommute(e: Event, f: Event, s: Objects, k: Key)
    requires e.cr.name == f.cr.name && Compatible(e, f) && KeyOf(e.cr, AgentClusterRoleBinding) in s && IsClusterScoped(k)
    ensures At(After(f, After(e, s)), k) == At(After(e, After(f, s)), k)
  {
    if k == KeyOf(e.cr, AgentClusterRole) {
      RolesCommute(e, f, s);
    } else if k == KeyOf(e.cr, AgentClusterRoleBinding) {
      BindingsCommute(e, f, s);
    } else {
      SharedKeys(e.cr, f.cr);
      NobodyTouches(e, f, s, k);
    }
  }

  lemma NobodyTouches(e: Event, f: Event, s: Objects, k: Key)
    requires IsClusterScoped(k) && k != KeyOf(e.cr, AgentClusterRole) && k != KeyOf(e.cr, AgentClusterRoleBinding)
    requires k != KeyOf(f.cr, AgentClusterRole) && k != KeyOf(f.cr, AgentClusterRoleBinding)
    ensures At(After(f, After(e, s)), k) == At(s, k) == At(After(e, After(f, s)), k)
  {
    ClusterPart(e, s, k);
    ClusterPart(f, s, k);
    ClusterPart(f, After(e, s), k);
    ClusterPart(e, After(f, s), k);
    NotTouched(e, s, k);
    NotTouched(f, s, k);
    NotTouched(f, After(e, s), k);
    NotTouched(e, After(f, s), k);
  }

  /**
    Reconciles of different resources commute on the whole store; those of one name if they agree on the cluster role
    and its binding, which keeps the subject of whoever created it, exists.
  */
  lemma StoresCommute(e: Event, f: Event, s: Objects)
    requires Compatible(e, f) && (e.cr.name == f.cr.name ==> KeyOf(e.cr, AgentClusterRoleBinding) in s)
    ensures After(f, After(e, s)) == After(e, After(f, s))
  {
    forall k ensures At(After(f, After(e, s)), k) == At(After(e, After(f, s)), k) {
      if IsClusterScoped(k) && e.cr.name == f.cr.name { SharedCommute(e, f, s, k); } else { ReconcilesCommute(e, f, s, k); }
    }
    SameEverywhere(After(f, After(e, s)), After(e, After(f, s)));
  }

  /** Resources of one name in two namespaces share the cluster-scoped objects. */
  lemma ClusterScopedShared(a: Request, b: Request, p: Part)
    requires !Namespaced(p)
    ensures KeyOf(a, p) == KeyOf(b, p) <==> a.name == b.name
  {
    if KeyOf(a, p) == KeyOf(b, p) { KeysDisjoint(a, p, b, p); }
  }
}
