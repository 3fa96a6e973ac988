/**
  Which objects a reconcile makes, told part by part from what the resource asks for and switches off.
*/
module Inventory {
  import opened ObjectNames
  import opened Plan
  import opened Resource
  import opened Topology

  predicate HasServer(spec: CorootSpec) { !spec.agentsOnly }

  predicate HasPrometheus(spec: CorootSpec) { !spec.agentsOnly && !spec.externalPrometheus }

  predicate HasClickhouse(spec: CorootSpec) { !spec.agentsOnly && !spec.externalClickhouse }

  /** The ordinal is below the count; a count of zero means one. */
  predicate Within(i: nat, count: int) { i < count || (count == 0 && i == 0) }

  predicate IsDeployed(spec: CorootSpec, c: Component)
  {
    match c
    case NodeAgent | ClusterAgent => true
    case CorootServer => HasServer(spec)
    case Prometheus => HasPrometheus(spec)
    case Keeper | Clickhouse => HasClickhouse(spec)
  }

  /** The part belongs to what the resource asks for; the roles are written beforehand. */
  predicate IsAskedFor(spec: CorootSpec, legacyDeleted: bool, p: Part)
  {
    match p
    case SccRole(_) => false
    case Account(c) => IsDeployed(spec, c)
    case AccountBinding(c) => IsDeployed(spec, c)
    case NodeAgentDaemonSet | AgentDeployment | AgentClusterRole | AgentClusterRoleBinding => true
    case CorootConfig | CorootSet | CorootService | PublicIngress => HasServer(spec)
    case CorootClaim(i) => HasServer(spec) && Within(i, spec.replicas)
    case LegacyDeployment => HasServer(spec) && !legacyDeleted
    case PrometheusDeployment | PrometheusService | PrometheusClaim => HasPrometheus(spec)
    case KeeperSet | KeeperHeadless | PasswordSecret | ClickhouseHeadless | ClickhouseService => HasClickhouse(spec)
    case KeeperClaim(i) => HasClickhouse(spec) && i < if spec.keeperReplicas > 0 then spec.keeperReplicas else 3
    case ShardSet(i) => HasClickhouse(spec) && (i < spec.shards || i == 0)
    case ShardClaim(i, j) => HasClickhouse(spec) && Within(i, spec.shards) && Within(j, spec.clickhouseReplicas)
  }

  lemma InCorootClaims(spec: CorootSpec, p: Part)
    ensures p in CorootClaimsOf(spec) <==> p.CorootClaim? && Within(p.replica, spec.replicas)
  {
    var claims := CorootClaimsOf(spec);
    if p.CorootClaim? && Within(p.replica, spec.replicas) { assert claims[p.replica] == p; }
    if p in claims { var i :| 0 <= i < |claims| && claims[i] == p; }
  }

  lemma InKeeperClaims(spec: CorootSpec, p: Part)
    ensures p in KeeperClaimsOf(spec) <==> p.KeeperClaim? && p.replica < if spec.keeperReplicas > 0 then spec.keeperReplicas else 3
  {
    var claims := KeeperClaimsOf(spec);
    if p.KeeperClaim? && p.replica < |claims| { assert claims[p.replica] == p; }
    if p in claims { var i :| 0 <= i < |claims| && claims[i] == p; }
  }

  lemma InShardSets(spec: CorootSpec, p: Part)
    ensures p in ShardSetParts(spec) <==> p.ShardSet? && (p.shard < spec.shards || p.shard == 0)
  {
    var sets := ShardSetParts(spec);
    if p.ShardSet? && p.shard < |sets| { assert sets[p.shard] == p; }
    if p in sets { var i :| 0 <= i < |sets| && sets[i] == p; }
  }

  lemma {:induction false} InShardRows(shards: nat, replicas: nat, p: Part)
    ensures p in ShardClaimRows(shards, replicas) <==> p.ShardClaim? && p.shard < shards && p.replica < replicas
  {
    if shards > 0 {
      var row := Range(replicas, r => ShardClaim(shards - 1, r));
      InShardRows(shards - 1, replicas, p);
      if p.ShardClaim? && p.shard == shards - 1 && p.replica < replicas { assert row[p.replica] == p; }
      if p in row { var i :| 0 <= i < |row| && row[i] == p; }
    }
  }

  lemma InShardClaims(spec: CorootSpec, p: Part)
    ensures p in ShardClaimsOf(spec) <==> p.ShardClaim? && Within(p.shard, spec.shards) && Within(p.replica, spec.clickhouseReplicas)
  {
    InShardRows(ClaimCount(spec.shards), ClaimCount(spec.clickhouseReplicas), p);
  }

  predicate AmongAgents(p: Part)
  {
    p in {Account(NodeAgent), AccountBinding(NodeAgent), NodeAgentDaemonSet, Account(ClusterAgent), AccountBinding(ClusterAgent),
          AgentClusterRole, AgentClusterRoleBinding, AgentDeployment}
  }

  predicate AmongCoroot(spec: CorootSpec, f: bool, p: Part)
  {
    || p in {Account(CorootServer), AccountBinding(CorootServer), CorootConfig, CorootSet, CorootService, PublicIngress}
    || (p.CorootClaim? && Within(p.replica, spec.replicas)) || (p.LegacyDeployment? && !f)
  }

  predicate AmongPrometheus(p: Part)
  {
    p in {Account(Prometheus), AccountBinding(Prometheus), PrometheusClaim, PrometheusDeployment, PrometheusService}
  }

  predicate AmongClickhouse(spec: CorootSpec, p: Part)
  {
    || p in {PasswordSecret, Account(Keeper), AccountBinding(Keeper), KeeperHeadless, KeeperSet}
    || p in {Account(Clickhouse), AccountBinding(Clickhouse), ClickhouseHeadless, ClickhouseService}
    || (p.KeeperClaim? && p.replica < if spec.keeperReplicas > 0 then spec.keeperReplicas else 3)
    || (p.ShardClaim? && Within(p.shard, spec.shards) && Within(p.replica, spec.clickhouseReplicas))
    || (p.ShardSet? && (p.shard < spec.shards || p.shard == 0))
  }

  lemma InCoroot(spec: CorootSpec, f: bool, p: Part)
    ensures p in CorootParts(spec, f) <==> AmongCoroot(spec, f, p)
  {
    InCorootClaims(spec, p);
  }

  lemma InClickhouse(spec: CorootSpec, p: Part)
    ensures p in ClickhouseParts(spec) <==> AmongClickhouse(spec, p)
  {
    InKeeperClaims(spec, p);
    InShardClaims(spec, p);
    InShardSets(spec, p);
    assert p in ClickhouseParts(spec) <==> p.PasswordSecret? || p in KeeperParts(spec) || p in ShardParts(spec);
  }

  lemma AskedBySection(spec: CorootSpec, f: bool, p: Part)
    ensures IsAskedFor(spec, f, p)
       <==> || AmongAgents(p) || (HasServer(spec) && AmongCoroot(spec, f, p)) || (HasPrometheus(spec) && AmongPrometheus(p))
            || (HasClickhouse(spec) && AmongClickhouse(spec, p))
  {}

  /** Exactly the parts the resource asks for are planned. */
  lemma PlannedIffAskedFor(spec: CorootSpec, f: bool, p: Part)
    ensures p in LaterParts(spec, f) <==> IsAskedFor(spec, f, p)
  {
    InCoroot(spec, f, p);
    InClickhouse(spec, p);
    InSections(spec, f, p);
    AskedBySection(spec, f, p);
  }

  lemma InSections(spec: CorootSpec, f: bool, p: Part)
    ensures p in LaterParts(spec, f)
       <==> || AmongAgents(p) || (HasServer(spec) && p in CorootParts(spec, f)) || (HasPrometheus(spec) && AmongPrometheus(p))
            || (HasClickhouse(spec) && p in ClickhouseParts(spec))
  {
    assert p in AgentParts() <==> AmongAgents(p);
    assert p in PrometheusParts() <==> AmongPrometheus(p);
  }
}
