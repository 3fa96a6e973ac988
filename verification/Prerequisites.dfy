/**
  The order of the writes: an object is written only after everything it refers to, so a reconcile that is cut short
  leaves nothing behind that lacks what it needs.
*/
module Prerequisites {
  import opened Events
  import opened Inventory
  import opened LastApplied
  import opened Normalisation
  import opened ObjectNames
  import opened Options
  import opened Plan
  import opened Resource
  import opened Store
  import opened Topology

  /** The account a workload runs under. */
  function AccountOf(q: Part): Option<Component>
  {
    match q
    case NodeAgentDaemonSet => Some(NodeAgent)
    case AgentDeployment => Some(ClusterAgent)
    case CorootSet => Some(CorootServer)
    case PrometheusDeployment => Some(Prometheus)
    case KeeperSet => Some(Keeper)
    case ShardSet(_) => Some(Clickhouse)
    case _ => None
  }

  /** The object of `q` refers to that of `p`, which is not a claim. */
  predicate RefersToPart(q: Part, p: Part)
  {
    || (q.AccountBinding? && (p == Account(q.component) || p == SccRole(SccOf(q.component))))
    || (AccountOf(q).Some? && p == AccountBinding(AccountOf(q).value))
    || (q.AgentClusterRoleBinding? && p.AgentClusterRole?)
    || (q.AgentDeployment? && p.AgentClusterRoleBinding?)
    || (q.CorootSet? && p.CorootConfig?)
    || (q.PublicIngress? && p.CorootService?)
    || (q.KeeperSet? && p.KeeperHeadless?)
    || (q.ShardSet? && (p.ClickhouseHeadless? || p.PasswordSecret? || p.KeeperSet?))
  }

  /** The object of `q` mounts the claim `p`. */
  predicate MountsClaim(spec: CorootSpec, q: Part, p: Part)
  {
    || (q.CorootSet? && p in CorootClaimsOf(spec))
    || (q.PrometheusDeployment? && p.PrometheusClaim?)
    || (q.KeeperSet? && p in KeeperClaimsOf(spec))
    || (q.ShardSet? && p in ShardClaimsOf(spec))
  }

  predicate Needs(spec: CorootSpec, q: Part, p: Part) { RefersToPart(q, p) || MountsClaim(spec, q, p) }

  /** Once `done` is written, `parts` can be written in this order: what a part needs always comes first. */
  ghost predicate InOrder(spec: CorootSpec, done: seq<Part>, parts: seq<Part>)
  {
    forall i, p | 0 <= i < |parts| && Needs(spec, parts[i], p) :: p in done + parts[..i]
  }

  lemma AppendInOrder(spec: CorootSpec, done: seq<Part>, a: seq<Part>, b: seq<Part>)
    requires InOrder(spec, done, a) && InOrder(spec, done + a, b)
    ensures InOrder(spec, done, a + b)
  {
    forall i, p | 0 <= i < |a + b| && Needs(spec, (a + b)[i], p) ensures p in done + (a + b)[..i] {
      if i < |a| {
        assert (a + b)[..i] == a[..i];
      } else {
        assert p in done + a + b[..i - |a|];
        assert (a + b)[..i] == a + b[..i - |a|];
      }
    }
  }

  lemma NothingNeeded(spec: CorootSpec, done: seq<Part>, parts: seq<Part>)
    requires forall q, p | q in parts :: !Needs(spec, q, p)
    ensures InOrder(spec, done, parts)
  {}

  lemma OneInOrder(spec: CorootSpec, done: seq<Part>, q: Part)
    requires forall p | Needs(spec, q, p) :: p in done
    ensures InOrder(spec, done, [q])
  {}

  lemma ThenOne(spec: CorootSpec, done: seq<Part>, parts: seq<Part>, q: Part)
    requires InOrder(spec, done, parts) && forall p | Needs(spec, q, p) :: p in done + parts
    ensures InOrder(spec, done, parts + [q])
  {
    OneInOrder(spec, done + parts, q);
    AppendInOrder(spec, done, parts, [q]);
  }

  /** The roles are there. */
  predicate HasRoles(done: seq<Part>) { SccRole(Nonroot) in done && SccRole(Privileged) in done }

  lemma AccountInOrder(spec: CorootSpec, done: seq<Part>, c: Component)
    requires HasRoles(done)
    ensures InOrder(spec, done, AccountParts(c))
  {
    NothingNeeded(spec, done, [Account(c)]);
    ThenOne(spec, done, [Account(c)], AccountBinding(c));
    assert [Account(c)] + [AccountBinding(c)] == AccountParts(c);
  }

  lemma AgentsInOrder(spec: CorootSpec, done: seq<Part>)
    requires HasRoles(done)
    ensures InOrder(spec, done, AgentParts())
  {
    var node := AccountParts(NodeAgent) + [NodeAgentDaemonSet];
    AccountInOrder(spec, done, NodeAgent);
    ThenOne(spec, done, AccountParts(NodeAgent), NodeAgentDaemonSet);
    AccountInOrder(spec, done + node, ClusterAgent);
    AppendInOrder(spec, done, node, AccountParts(ClusterAgent));
    var a := node + AccountParts(ClusterAgent);
    ThenOne(spec, done, a, AgentClusterRole);
    ThenOne(spec, done, a + [AgentClusterRole], AgentClusterRoleBinding);
    ThenOne(spec, done, a + [AgentClusterRole] + [AgentClusterRoleBinding], AgentDeployment);
    assert a + [AgentClusterRole] + [AgentClusterRoleBinding] + [AgentDeployment] == AgentParts();
  }

  lemma ServerInOrder(spec: CorootSpec, done: seq<Part>, f: bool)
    requires HasRoles(done)
    ensures InOrder(spec, done, CorootParts(spec, f))
  {
    var a, claims := AccountParts(CorootServer), CorootClaimsOf(spec);
    AccountInOrder(spec, done, CorootServer);
    NothingNeeded(spec, done + a, claims + [CorootConfig]);
    AppendInOrder(spec, done, a, claims + [CorootConfig]);
    var b := a + (claims + [CorootConfig]);
    ThenOne(spec, done, b, CorootSet);
    var rest := [CorootService] + if f then [] else [LegacyDeployment];
    NothingNeeded(spec, done + (b + [CorootSet]), rest);
    AppendInOrder(spec, done, b + [CorootSet], rest);
    ThenOne(spec, done, b + [CorootSet] + rest, PublicIngress);
    assert b + [CorootSet] + rest + [PublicIngress] == CorootParts(spec, f);
  }

  lemma PrometheusInOrder(spec: CorootSpec, done: seq<Part>)
    requires HasRoles(done)
    ensures InOrder(spec, done, PrometheusParts())
  {
    var a := AccountParts(Prometheus);
    AccountInOrder(spec, done, Prometheus);
    ThenOne(spec, done, a, PrometheusClaim);
    ThenOne(spec, done, a + [PrometheusClaim], PrometheusDeployment);
    ThenOne(spec, done, a + [PrometheusClaim] + [PrometheusDeployment], PrometheusService);
    assert a + [PrometheusClaim] + [PrometheusDeployment] + [PrometheusService] == PrometheusParts();
  }

  lemma KeepersInOrder(spec: CorootSpec, done: seq<Part>)
    requires HasRoles(done)
    ensures InOrder(spec, done, KeeperParts(spec))
  {
    var a, b := AccountParts(Keeper), [KeeperHeadless] + KeeperClaimsOf(spec);
    AccountInOrder(spec, done, Keeper);
    NothingNeeded(spec, done + a, b);
    AppendInOrder(spec, done, a, b);
    ThenOne(spec, done, a + b, KeeperSet);
    assert a + b + [KeeperSet] == KeeperParts(spec);
  }

  lemma SetsInOrder(spec: CorootSpec, done: seq<Part>)
    requires AccountBinding(Clickhouse) in done && ClickhouseHeadless in done && PasswordSecret in done && KeeperSet in done
    requires forall p | p in ShardClaimsOf(spec) :: p in done
    ensures InOrder(spec, done, ShardSetParts(spec))
  {}

  lemma ShardClaimsNeedNothing(spec: CorootSpec, p: Part)
    requires p in ShardClaimsOf(spec)
    ensures p.ShardClaim?
  {
    InShardClaims(spec, p);
  }

  lemma ShardsInOrder(spec: CorootSpec, done: seq<Part>)
    requires HasRoles(done) && PasswordSecret in done && KeeperSet in done
    ensures InOrder(spec, done, ShardParts(spec))
  {
    var a, b, sets := AccountParts(Clickhouse), [ClickhouseHeadless] + ShardClaimsOf(spec), ShardSetParts(spec);
    AccountInOrder(spec, done, Clickhouse);
    forall p | p in ShardClaimsOf(spec) ensures p.ShardClaim? { ShardClaimsNeedNothing(spec, p); }
    NothingNeeded(spec, done + a, b);
    AppendInOrder(spec, done, a, b);
    SetsInOrder(spec, done + (a + b));
    AppendInOrder(spec, done, a + b, sets);
    ThenOne(spec, done, a + b + sets, ClickhouseService);
    assert a + b + sets + [ClickhouseService] == ShardParts(spec);
  }

  lemma DatabaseInOrder(spec: CorootSpec, done: seq<Part>)
    requires HasRoles(done)
    ensures InOrder(spec, done, ClickhouseParts(spec))
  {
    var a := [PasswordSecret] + KeeperParts(spec);
    NothingNeeded(spec, done, [PasswordSecret]);
    KeepersInOrder(spec, done + [PasswordSecret]);
    AppendInOrder(spec, done, [PasswordSecret], KeeperParts(spec));
    ShardsInOrder(spec, done + a);
    AppendInOrder(spec, done, a, ShardParts(spec));
  }

  lemma OptionallyInOrder(spec: CorootSpec, done: seq<Part>, parts: seq<Part>, there: bool)
    requires there ==> InOrder(spec, done, parts)
    ensures InOrder(spec, done, if there then parts else [])
  {}

  lemma SectionsInOrder(spec: CorootSpec, done: seq<Part>, f: bool)
    requires HasRoles(done)
    ensures InOrder(spec, done, ServerParts(spec, f))
  {
    var a, b, c := CorootParts(spec, f), PrometheusParts(), ClickhouseParts(spec);
    var b', c' := if !spec.externalPrometheus then b else [], if !spec.externalClickhouse then c else [];
    ServerInOrder(spec, done, f);
    PrometheusInOrder(spec, done + a);
    OptionallyInOrder(spec, done + a, b, !spec.externalPrometheus);
    AppendInOrder(spec, done, a, b');
    DatabaseInOrder(spec, done + (a + b'));
    OptionallyInOrder(spec, done + (a + b'), c, !spec.externalClickhouse);
    AppendInOrder(spec, done, a + b', c');
    OptionallyInOrder(spec, done, a + b' + c', !spec.agentsOnly);
  }

  /** All parts of a reconcile, in the order of their writes. */
  function AllParts(spec: CorootSpec, f: bool): seq<Part> { ROLE_PARTS + LaterParts(spec, f) }

  lemma AllInOrder(spec: CorootSpec, f: bool)
    ensures InOrder(spec, [], AllParts(spec, f))
  {
    NothingNeeded(spec, [], ROLE_PARTS);
    LaterInOrder(spec, [] + ROLE_PARTS, f);
    AppendInOrder(spec, [], ROLE_PARTS, LaterParts(spec, f));
  }

  lemma LaterInOrder(spec: CorootSpec, done: seq<Part>, f: bool)
    requires HasRoles(done)
    ensures InOrder(spec, done, LaterParts(spec, f))
  {
    AgentsInOrder(spec, done);
    SectionsInOrder(spec, done + AgentParts(), f);
    AppendInOrder(spec, done, AgentParts(), ServerParts(spec, f));
  }

  /** Whatever a part needs is written before it. */
  lemma NeedsComeFirst(spec: CorootSpec, f: bool, i: nat, p: Part)
    requires i < |AllParts(spec, f)| && Needs(spec, AllParts(spec, f)[i], p)
    ensures p in AllParts(spec, f)[..i]
  {
    AllInOrder(spec, f);
    assert p in [] + AllParts(spec, f)[..i];
  }

  // ---- reconciles that are cut short ----

  /** The write leaves an object under the key, whatever was there. */
  predicate Makes(w: Write, k: Key)
  {
    Touches(w, k) && !w.Removed? && (w.Merged? ==> MARKER !in w.annotations)
  }

  lemma MadeByWrite(w: Write, k: Key, o: Option<Stored>, owner: Request, random: Random)
    requires Makes(w, k) || (o.Some? && (Touches(w, k) ==> !w.Removed?))
    ensures Effect(w, k, o, owner, random).Some?
  {}

  /** What a write has made stays, as long as it is not removed. */
  lemma {:induction false} MadeStays(ws: seq<Write>, n: nat, k: Key, o: Option<Stored>, owner: Request, random: Random)
    requires n < |ws| && Makes(ws[n], k)
    requires forall m | 0 <= m < |ws| && Touches(ws[m], k) :: !ws[m].Removed?
    ensures EffectAll(ws, k, o, owner, random).Some?
  {
    var front, last := ws[..|ws| - 1], ws[|ws| - 1];
    if n < |front| { MadeStays(front, n, k, o, owner, random); }
    MadeByWrite(last, k, EffectAll(front, k, o, owner, random), owner, random);
  }

  lemma NeededIsMade(op: Operator, cr: Request, o: Outcome, p: Part)
    requires !p.LegacyDeployment? && !p.PublicIngress? && MARKER !in o.spec.serviceAnnotations
    ensures Makes(PlannedWrite(op, cr, o, p), KeyOf(cr, p))
  {
    PartTouches(op, cr, o, p, KeyOf(cr, p));
  }

  lemma NeededKind(spec: CorootSpec, q: Part, p: Part)
    requires Needs(spec, q, p)
    ensures !p.LegacyDeployment? && !p.PublicIngress?
  {
    InShardClaims(spec, p);
  }

  /** Where the write of a part stands: the API keys are generated after the roles. */
  function PositionOf(i: nat): nat { if i < 2 then i else i + 1 }

  lemma WrittenThere(op: Operator, cr: Request, o: Outcome, f: bool, i: nat)
    requires i < |AllParts(o.spec, f)|
    ensures PositionOf(i) < |Writes(op, cr, o, f)| && Writes(op, cr, o, f)[PositionOf(i)] == PlannedWrite(op, cr, o, AllParts(o.spec, f)[i])
  {
    WritesByIndex(op, cr, o, f);
  }

  /** The resource does not give the annotation of the record to its service. */
  predicate LeavesMarker(spec: CorootSpec) { MARKER !in spec.serviceAnnotations }

  /**
    A reconcile may be cut short after any number of writes: what it has written by then finds everything it needs in
    the store.
  */
  lemma CutShort(e: Event, s: Objects, j: nat, i: nat, p: Part)
    requires LeavesMarker(e.spec) && j <= |EventWrites(e, s)|
    requires i < |AllParts(OutcomeOf(e, s).spec, e.legacyDeleted)| && PositionOf(i) < j
    requires Needs(OutcomeOf(e, s).spec, AllParts(OutcomeOf(e, s).spec, e.legacyDeleted)[i], p)
    ensures KeyOf(e.cr, p) in ApplyAll(s, EventWrites(e, s)[..j], e.cr, e.random)
  {
    var spec := OutcomeOf(e, s).spec;
    NeedsComeFirst(spec, e.legacyDeleted, i, p);
    var m :| 0 <= m < i && AllParts(spec, e.legacyDeleted)[m] == p;
    NeededKind(spec, AllParts(spec, e.legacyDeleted)[i], p);
    NeededWrite(e, s, m, p);
    MadeByThen(e, s, j, PositionOf(m), KeyOf(e.cr, p));
  }

  lemma NeededWrite(e: Event, s: Objects, m: nat, p: Part)
    requires LeavesMarker(e.spec) && !p.LegacyDeployment? && !p.PublicIngress?
    requires m < |AllParts(OutcomeOf(e, s).spec, e.legacyDeleted)| && AllParts(OutcomeOf(e, s).spec, e.legacyDeleted)[m] == p
    ensures PositionOf(m) < |EventWrites(e, s)| && Makes(EventWrites(e, s)[PositionOf(m)], KeyOf(e.cr, p))
  {
    ServiceAnnotationsStay(e, s);
    WrittenThere(e.op, e.cr, OutcomeOf(e, s), e.legacyDeleted, m);
    NeededIsMade(e.op, e.cr, OutcomeOf(e, s), p);
  }

  lemma MadeByThen(e: Event, s: Objects, j: nat, n: nat, k: Key)
    requires n < j <= |EventWrites(e, s)| && Makes(EventWrites(e, s)[n], k)
    ensures k in ApplyAll(s, EventWrites(e, s)[..j], e.cr, e.random)
  {
    NeverRemoved(e, s, n, k);
    MadeStays(EventWrites(e, s)[..j], n, k, At(s, k), e.cr, e.random);
    ApplyAllAt(s, EventWrites(e, s)[..j], k, e.cr, e.random);
  }

  lemma ServiceAnnotationsStay(e: Event, s: Objects)
    ensures OutcomeOf(e, s).spec.serviceAnnotations == e.spec.serviceAnnotations
  {
    var view := SecretsOf(s, e.cr.ns);
    var later := SecretsOf(Apply(s, ApiKeyWrite(e.cr, NormaliseBasics(view, e.spec)), e.cr, e.random), e.cr.ns);
    FieldsKept(view, later, e.op.parses, e.spec);
  }

  lemma NeverRemoved(e: Event, s: Objects, n: nat, k: Key)
    requires n < |EventWrites(e, s)| && Makes(EventWrites(e, s)[n], k)
    ensures forall m | 0 <= m < |EventWrites(e, s)| && Touches(EventWrites(e, s)[m], k) :: !EventWrites(e, s)[m].Removed?
  {
    WritesCoherent(e.op, e.cr, OutcomeOf(e, s), e.legacyDeleted);
  }
}
