/**
  The writes of one reconcile, as a function of the resource and of the secrets that exist.  Specifications and
  other contents come from a builder, which may be any function of the normalised resource.
*/
module Plan {
  import opened ConfigEnvs
  import opened Json
  import opened Normalisation
  import opened ObjectNames
  import opened Options
  import opened Resource
  import opened Sorting
  import opened Store
  import opened Topology

  /** Contents of a part, given the normalised specification and the sorted variables of its references. */
  type Builder = (Request, CorootSpec, seq<EnvVar>, Part) -> Spec

  /** Contents of a role, which is written before validation and depends on the resource's name alone. */
  type RoleBuilder = (Request, Scc) -> Spec

  /** Everything a reconcile depends on besides the resource and the store. */
  datatype Operator = Operator(build: Builder, role: RoleBuilder, parses: string -> bool)

  lemma StrictListExists(entries: map<string, Selector>)
    ensures exists envs :: ListsStrictly(envs, entries)
  {
    var order := ListKeys(entries.Keys);
    var unsorted := seq(|order|, i requires 0 <= i < |order| => EnvVar(order[i], if order[i] in entries then entries[order[i]] else Selector("", "")));
    forall name | name in entries ensures EnvVar(name, entries[name]) in unsorted {
      assert name in order;
      var i :| 0 <= i < |order| && order[i] == name;
      assert unsorted[i] == EnvVar(name, entries[name]);
    }
    forall i | 0 <= i < |unsorted| ensures unsorted[i].name in entries { assert order[i] in order; }
    assert Unsorted(unsorted, entries, {});
    SortBySorted(unsorted, NameOfEnv);
    SortKeepsEntries(unsorted, SortBy(unsorted, NameOfEnv), entries);
  }

  /** The one strictly sorted list of the variables. */
  ghost function EnvList(entries: map<string, Selector>): seq<EnvVar>
  {
    StrictListExists(entries);
    var envs :| ListsStrictly(envs, entries);
    envs
  }

  // ---- the parts, in the order in which they are written ----

  function AccountParts(c: Component): seq<Part> { [Account(c), AccountBinding(c)] }

  const ROLE_PARTS: seq<Part> := [SccRole(Nonroot), SccRole(Privileged)]

  function AgentParts(): seq<Part>
  {
    AccountParts(NodeAgent) + [NodeAgentDaemonSet]
    + AccountParts(ClusterAgent) + [AgentClusterRole, AgentClusterRoleBinding, AgentDeployment]
  }

  function CorootServerParts(legacyDeleted: bool): seq<Part>
  {
    [CorootConfig, CorootSet, CorootService] + (if legacyDeleted then [] else [LegacyDeployment]) + [PublicIngress]
  }

  function CorootParts(spec: CorootSpec, legacyDeleted: bool): seq<Part>
  {
    AccountParts(CorootServer) + CorootClaimsOf(spec) + CorootServerParts(legacyDeleted)
  }

  function PrometheusParts(): seq<Part>
  {
    AccountParts(Prometheus) + [PrometheusClaim, PrometheusDeployment, PrometheusService]
  }

  function KeeperParts(spec: CorootSpec): seq<Part>
  {
    AccountParts(Keeper) + [KeeperHeadless] + KeeperClaimsOf(spec) + [KeeperSet]
  }

  function ShardSetParts(spec: CorootSpec): seq<Part>
  {
    Range(ShardCount(spec.shards), i => ShardSet(i))
  }

  function ShardParts(spec: CorootSpec): seq<Part>
  {
    AccountParts(Clickhouse) + [ClickhouseHeadless] + ShardClaimsOf(spec) + ShardSetParts(spec) + [ClickhouseService]
  }

  function ClickhouseParts(spec: CorootSpec): seq<Part>
  {
    [PasswordSecret] + KeeperParts(spec) + ShardParts(spec)
  }

  function ServerParts(spec: CorootSpec, legacyDeleted: bool): seq<Part>
  {
    if spec.agentsOnly then []
    else CorootParts(spec, legacyDeleted)
         + (if spec.externalPrometheus then [] else PrometheusParts())
         + (if spec.externalClickhouse then [] else ClickhouseParts(spec))
  }

  // ---- the write of each part ----

  function ClaimPolicy(spec: CorootSpec, p: Part): string
    requires KindOf(p).PersistentVolumeClaim?
  {
    match p
    case CorootClaim(_) => spec.reclaimPolicy
    case PrometheusClaim => spec.prometheusReclaimPolicy
    case KeeperClaim(_) => spec.keeperReclaimPolicy
    case ShardClaim(_, _) => spec.clickhouseReclaimPolicy
  }

  const PASSWORD_KEY := "password"

  function PartWrite(cr: Request, spec: CorootSpec, content: Spec, p: Part): Write
  {
    var key := KeyOf(cr, p);
    match p
    case SccRole(_) | CorootConfig => Replaced(key, content, false)
    case AgentClusterRole => Replaced(key, content, true)
    case Account(_) | AccountBinding(_) => Ensured(key, content, false)
    case AgentClusterRoleBinding => Ensured(key, content, true)
    case NodeAgentDaemonSet | AgentDeployment | PrometheusDeployment => Merged(key, content, map[], AsMerged, false)
    case LegacyDeployment => Removed(key)
    case CorootSet | KeeperSet | ShardSet(_) => Merged(key, content, map[], KeepClaimTemplates, false)
    case CorootService => Merged(key, content, spec.serviceAnnotations, ForcePorts, false)
    case PrometheusService | KeeperHeadless | ClickhouseHeadless | ClickhouseService => Merged(key, content, map[], ForcePorts, false)
    case CorootClaim(_) | PrometheusClaim | KeeperClaim(_) | ShardClaim(_, _) =>
      Merged(key, content, map[], AsMerged, ClaimPolicy(spec, p) == RETAIN)
    case PublicIngress =>
      if spec.ingress.None? then Removed(key) else Merged(key, content, spec.ingress.value.annotations, AsMerged, false)
    case PasswordSecret => Generated(cr.ns, map[key.name := [PASSWORD_KEY]], false)
  }

  ghost function PlannedWrite(op: Operator, cr: Request, o: Outcome, p: Part): Write
  {
    PartWrite(cr, o.spec, if p.SccRole? then op.role(cr, p.scc) else op.build(cr, o.spec, EnvList(EnvsOf(o.notes.referred)), p), p)
  }

  ghost function PartWrites(op: Operator, cr: Request, o: Outcome, parts: seq<Part>): (ws: seq<Write>)
    ensures |ws| == |parts| && forall i | 0 <= i < |ws| :: ws[i] == PlannedWrite(op, cr, o, parts[i])
  {
    seq(|parts|, i requires 0 <= i < |parts| => PlannedWrite(op, cr, o, parts[i]))
  }

  function ApiKeyWrite(cr: Request, o: Outcome): Write { Generated(cr.ns, o.notes.apiKeys, true) }

  /** All writes of one reconcile, in order. */
  ghost function Writes(op: Operator, cr: Request, o: Outcome, legacyDeleted: bool): seq<Write>
  {
    PartWrites(op, cr, o, ROLE_PARTS) + [ApiKeyWrite(cr, o)]
    + PartWrites(op, cr, o, LaterParts(o.spec, legacyDeleted))
  }

  /** The secrets of a namespace. */
  function SecretsOf(s: Objects, ns: string): SecretView
  {
    map k | k in s && k == Key(Secret, ns, k.name) :: k.name := s[k].data
  }

  lemma SecretsAt(s: Objects, ns: string, name: string)
    ensures name in SecretsOf(s, ns) <==> Key(Secret, ns, name) in s
    ensures name in SecretsOf(s, ns) ==> SecretsOf(s, ns)[name] == s[Key(Secret, ns, name)].data
  {}

  /** What normalisation makes of the resource, given the store at the beginning of the reconcile. */
  function OutcomeAt(op: Operator, cr: Request, spec: CorootSpec, s: Objects, random: Random): Outcome
  {
    var view := SecretsOf(s, cr.ns);
    Normalise(view, SecretsOf(Apply(s, ApiKeyWrite(cr, NormaliseBasics(view, spec)), cr, random), cr.ns), op.parses, spec)
  }

  // ---- facts about the plan ----

  /** The parts that follow the API keys. */
  function LaterParts(spec: CorootSpec, legacyDeleted: bool): seq<Part> { AgentParts() + ServerParts(spec, legacyDeleted) }

  /** Where each write stands in the plan. */
  lemma WritesByIndex(op: Operator, cr: Request, o: Outcome, legacyDeleted: bool)
    ensures var ws, parts := Writes(op, cr, o, legacyDeleted), LaterParts(o.spec, legacyDeleted);
            && |ws| == |parts| + 3
            && ws[0] == PlannedWrite(op, cr, o, ROLE_PARTS[0]) && ws[1] == PlannedWrite(op, cr, o, ROLE_PARTS[1])
            && ws[2] == ApiKeyWrite(cr, o)
            && forall m | 0 <= m < |parts| :: ws[m + 3] == PlannedWrite(op, cr, o, parts[m])
  {
    var head := PartWrites(op, cr, o, ROLE_PARTS) + [ApiKeyWrite(cr, o)];
    var tail := PartWrites(op, cr, o, LaterParts(o.spec, legacyDeleted));
    assert |head| == 3 && Writes(op, cr, o, legacyDeleted) == head + tail;
  }

  /** Every planned part has its write. */
  lemma PartWriteAt(op: Operator, cr: Request, o: Outcome, legacyDeleted: bool, p: Part) returns (i: nat)
    requires p in LaterParts(o.spec, legacyDeleted)
    ensures i < |Writes(op, cr, o, legacyDeleted)| && Writes(op, cr, o, legacyDeleted)[i] == PlannedWrite(op, cr, o, p)
  {
    var m := IndexOf(LaterParts(o.spec, legacyDeleted), p);
    WritesByIndex(op, cr, o, legacyDeleted);
    i := m + 3;
  }

  lemma IndexOf(parts: seq<Part>, p: Part) returns (i: nat)
    requires p in parts
    ensures i < |parts| && parts[i] == p
  {
    i :| 0 <= i < |parts| && parts[i] == p;
  }

  /** Each write is the one of a part, or generates the API keys. */
  lemma WriteOrigin(op: Operator, cr: Request, o: Outcome, legacyDeleted: bool, i: nat) returns (p: Option<Part>)
    requires i < |Writes(op, cr, o, legacyDeleted)|
    ensures var w := Writes(op, cr, o, legacyDeleted)[i];
            if p.Some? then w == PlannedWrite(op, cr, o, p.value) && (p.value in ROLE_PARTS || p.value in LaterParts(o.spec, legacyDeleted))
            else w == ApiKeyWrite(cr, o)
  {
    WritesByIndex(op, cr, o, legacyDeleted);
    if i < 2 {
      p := Some(ROLE_PARTS[i]);
    } else if i == 2 {
      p := None;
    } else {
      p := Some(LaterParts(o.spec, legacyDeleted)[i - 3]);
    }
  }

  lemma PartTouches(op: Operator, cr: Request, o: Outcome, p: Part, k: Key)
    ensures Touches(PlannedWrite(op, cr, o, p), k) <==> k == KeyOf(cr, p)
  {}

  /** A resource never makes two different writes to one key, except that both may generate a secret. */
  lemma WritesCoherent(op: Operator, cr: Request, o: Outcome, legacyDeleted: bool)
    ensures Coherent(Writes(op, cr, o, legacyDeleted))
  {
    var ws := Writes(op, cr, o, legacyDeleted);
    forall i, j, k | 0 <= i < |ws| && 0 <= j < |ws| && Touches(ws[i], k) && Touches(ws[j], k)
      ensures ws[i] == ws[j] || (ws[i].Generated? && ws[j].Generated?)
    {
      var p := WriteOrigin(op, cr, o, legacyDeleted, i);
      var q := WriteOrigin(op, cr, o, legacyDeleted, j);
      if p.Some? && q.Some? {
        SameKeySameWrite(op, cr, o, p.value, q.value, k);
      } else if p.Some? {
        SecretWriteGenerates(op, cr, o, p.value, k);
      } else if q.Some? {
        SecretWriteGenerates(op, cr, o, q.value, k);
      }
    }
  }

  lemma SameKeySameWrite(op: Operator, cr: Request, o: Outcome, p: Part, q: Part, k: Key)
    requires Touches(PlannedWrite(op, cr, o, p), k) && Touches(PlannedWrite(op, cr, o, q), k)
    ensures p == q
  {
    PartTouches(op, cr, o, p, k);
    PartTouches(op, cr, o, q, k);
    KeysDisjoint(cr, p, cr, q);
  }

  /** The only part that touches a secret generates it. */
  lemma SecretWriteGenerates(op: Operator, cr: Request, o: Outcome, p: Part, k: Key)
    requires Touches(PlannedWrite(op, cr, o, p), k) && k.kind.Secret?
    ensures PlannedWrite(op, cr, o, p).Generated?
  {
    PartTouches(op, cr, o, p, k);
  }
}
