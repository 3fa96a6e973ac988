/**
  The objects one reconcile writes, and the keys under which they are stored.  A name is the resource's
  name, a fixed stem, and for numbered objects their ordinals, each after a dash.
*/
module ObjectNames {
  import opened Text

  datatype Kind =
    | Role | RoleBinding | ServiceAccount | DaemonSet | Deployment | StatefulSet | Service | ConfigMap
    | PersistentVolumeClaim | Ingress | Secret | ClusterRole | ClusterRoleBinding

  /** Where an object lives in the store; cluster-scoped kinds have the empty namespace. */
  datatype Key = Key(kind: Kind, ns: string, name: string)

  /** A Coroot resource is identified by its namespace and name. */
  datatype Request = Request(ns: string, name: string)

  datatype Component = NodeAgent | ClusterAgent | CorootServer | Prometheus | Keeper | Clickhouse

  datatype Scc = Nonroot | Privileged

  /** The objects made for one Coroot resource. */
  datatype Part =
    | SccRole(scc: Scc)
    | Account(component: Component)
    | AccountBinding(component: Component)
    | NodeAgentDaemonSet
    | AgentDeployment
    | PrometheusDeployment
    | LegacyDeployment
    | CorootConfig
    | CorootSet
    | KeeperSet
    | ShardSet(shard: nat)
    | CorootService
    | PrometheusService
    | KeeperHeadless
    | ClickhouseHeadless
    | ClickhouseService
    | CorootClaim(replica: nat)
    | PrometheusClaim
    | KeeperClaim(replica: nat)
    | ShardClaim(shard: nat, replica: nat)
    | PublicIngress
    | PasswordSecret
    | AgentClusterRole
    | AgentClusterRoleBinding

  function KindOf(p: Part): Kind
  {
    match p
    case SccRole(_) => Role
    case Account(_) => ServiceAccount
    case AccountBinding(_) => RoleBinding
    case NodeAgentDaemonSet => DaemonSet
    case AgentDeployment | PrometheusDeployment | LegacyDeployment => Deployment
    case CorootConfig => ConfigMap
    case CorootSet | KeeperSet | ShardSet(_) => StatefulSet
    case CorootService | PrometheusService | KeeperHeadless | ClickhouseHeadless | ClickhouseService => Service
    case CorootClaim(_) | PrometheusClaim | KeeperClaim(_) | ShardClaim(_, _) => PersistentVolumeClaim
    case PublicIngress => Ingress
    case PasswordSecret => Secret
    case AgentClusterRole => ClusterRole
    case AgentClusterRoleBinding => ClusterRoleBinding
  }

  predicate Namespaced(p: Part) { !p.AgentClusterRole? && !p.AgentClusterRoleBinding? }

  function ComponentStem(c: Component): string
  {
    match c
    case NodeAgent => "-node-agent"
    case ClusterAgent => "-cluster-agent"
    case CorootServer => "-coroot"
    case Prometheus => "-prometheus"
    case Keeper => "-clickhouse-keeper"
    case Clickhouse => "-clickhouse"
  }

  function SccStem(scc: Scc): string
  {
    match scc
    case Nonroot => "-nonroot"
    case Privileged => "-privileged"
  }

  /** Only the node agent runs privileged. */
  function SccOf(c: Component): Scc { if c.NodeAgent? then Privileged else Nonroot }

  function Stem(p: Part): string
  {
    match p
    case SccRole(scc) => SccStem(scc)
    case Account(c) => ComponentStem(c)
    case AccountBinding(c) => ComponentStem(c) + SccStem(SccOf(c))
    case NodeAgentDaemonSet => "-node-agent"
    case AgentDeployment | AgentClusterRole | AgentClusterRoleBinding => "-cluster-agent"
    case PrometheusDeployment | PrometheusService | PrometheusClaim => "-prometheus"
    case LegacyDeployment | CorootConfig | CorootSet | CorootService | CorootClaim(_) => "-coroot"
    case KeeperSet | KeeperClaim(_) => "-clickhouse-keeper"
    case ShardSet(_) | ShardClaim(_, _) => "-clickhouse-shard"
    case KeeperHeadless => "-clickhouse-keeper-headless"
    case ClickhouseHeadless => "-clickhouse-headless"
    case ClickhouseService | PasswordSecret => "-clickhouse"
    case PublicIngress => ""
  }

  function Ordinals(p: Part): seq<nat>
  {
    match p
    case ShardSet(shard) => [shard]
    case CorootClaim(replica) => [replica]
    case KeeperClaim(replica) => [replica]
    case ShardClaim(shard, replica) => [shard, replica]
    case _ => []
  }

  function Numbered(base: string, ordinals: seq<nat>): string
  {
    if ordinals == [] then base
    else Numbered(base, ordinals[..|ordinals| - 1]) + "-" + Decimal(ordinals[|ordinals| - 1])
  }

  function Prefix(p: Part): string { if KindOf(p).PersistentVolumeClaim? then "data-" else "" }

  function NameOf(cr: Request, p: Part): string
  {
    Prefix(p) + Numbered(cr.name + Stem(p), Ordinals(p))
  }

  function KeyOf(cr: Request, p: Part): Key
  {
    Key(KindOf(p), if Namespaced(p) then cr.ns else "", NameOf(cr, p))
  }

  // ---- the names, written out ----

  lemma Unnumbered(cr: Request, p: Part)
    requires Ordinals(p) == []
    ensures NameOf(cr, p) == Prefix(p) + cr.name + Stem(p)
  {
    Regrouped(Prefix(p), cr.name, Stem(p));
  }

  lemma Regrouped(a: string, b: string, c: string)
    ensures a + (b + c) == a + b + c
  {}

  /** Roles, accounts, and bindings, which name the account and the role. */
  lemma AccountNames(cr: Request, c: Component)
    ensures NameOf(cr, SccRole(Nonroot)) == cr.name + "-nonroot" && NameOf(cr, SccRole(Privileged)) == cr.name + "-privileged"
    ensures NameOf(cr, Account(c)) == cr.name + (match c
                                                 case NodeAgent => "-node-agent"
                                                 case ClusterAgent => "-cluster-agent"
                                                 case CorootServer => "-coroot"
                                                 case Prometheus => "-prometheus"
                                                 case Keeper => "-clickhouse-keeper"
                                                 case Clickhouse => "-clickhouse")
    ensures NameOf(cr, AccountBinding(c)) == NameOf(cr, Account(c)) + if c.NodeAgent? then "-privileged" else "-nonroot"
  {
    Unnumbered(cr, SccRole(Nonroot));
    Unnumbered(cr, SccRole(Privileged));
    Unnumbered(cr, Account(c));
    Unnumbered(cr, AccountBinding(c));
    assert cr.name + (ComponentStem(c) + SccStem(SccOf(c))) == cr.name + ComponentStem(c) + SccStem(SccOf(c));
  }

  lemma AgentNames(cr: Request)
    ensures NameOf(cr, NodeAgentDaemonSet) == cr.name + "-node-agent"
    ensures NameOf(cr, AgentDeployment) == cr.name + "-cluster-agent"
    ensures NameOf(cr, AgentClusterRole) == cr.name + "-cluster-agent"
    ensures NameOf(cr, AgentClusterRoleBinding) == cr.name + "-cluster-agent"
  {
    Unnumbered(cr, NodeAgentDaemonSet);
    Unnumbered(cr, AgentDeployment);
    Unnumbered(cr, AgentClusterRole);
    Unnumbered(cr, AgentClusterRoleBinding);
  }

  lemma ServerNames(cr: Request)
    ensures NameOf(cr, CorootConfig) == cr.name + "-coroot" && NameOf(cr, CorootSet) == cr.name + "-coroot"
    ensures NameOf(cr, CorootService) == cr.name + "-coroot" && NameOf(cr, LegacyDeployment) == cr.name + "-coroot"
    ensures NameOf(cr, PublicIngress) == cr.name
  {
    Unnumbered(cr, CorootConfig);
    Unnumbered(cr, CorootSet);
    Unnumbered(cr, CorootService);
    Unnumbered(cr, LegacyDeployment);
    Unnumbered(cr, PublicIngress);
  }

  lemma PrometheusNames(cr: Request)
    ensures NameOf(cr, PrometheusDeployment) == cr.name + "-prometheus" && NameOf(cr, PrometheusService) == cr.name + "-prometheus"
    ensures NameOf(cr, PrometheusClaim) == "data-" + cr.name + "-prometheus"
  {
    Unnumbered(cr, PrometheusDeployment);
    Unnumbered(cr, PrometheusService);
    Unnumbered(cr, PrometheusClaim);
  }

  lemma KeeperNames(cr: Request)
    ensures NameOf(cr, KeeperSet) == cr.name + "-clickhouse-keeper"
    ensures NameOf(cr, KeeperHeadless) == cr.name + "-clickhouse-keeper-headless"
  {
    Unnumbered(cr, KeeperSet);
    Unnumbered(cr, KeeperHeadless);
  }

  lemma ClickhouseNames(cr: Request)
    ensures NameOf(cr, ClickhouseHeadless) == cr.name + "-clickhouse-headless"
    ensures NameOf(cr, ClickhouseService) == cr.name + "-clickhouse" && NameOf(cr, PasswordSecret) == cr.name + "-clickhouse"
  {
    Unnumbered(cr, ClickhouseHeadless);
    Unnumbered(cr, ClickhouseService);
    Unnumbered(cr, PasswordSecret);
  }

  lemma NumberedLast(base: string, front: seq<nat>, last: nat)
    ensures Numbered(base, front + [last]) == Numbered(base, front) + "-" + Decimal(last)
  {
    assert (front + [last])[..|front|] == front;
  }

  lemma Ungroup(a: string, b: string, c: string, d: string)
    ensures a + (b + c + d) == a + b + c + d
  {}

  lemma OneOrdinal(cr: Request, p: Part, i: nat)
    requires Ordinals(p) == [i]
    ensures NameOf(cr, p) == Prefix(p) + (cr.name + Stem(p)) + "-" + Decimal(i)
  {
    var base := cr.name + Stem(p);
    NumberedLast(base, [], i);
    assert [] + [i] == [i];
    Ungroup(Prefix(p), base, "-", Decimal(i));
  }

  lemma CorootClaimName(cr: Request, i: nat)
    ensures NameOf(cr, CorootClaim(i)) == "data-" + (cr.name + "-coroot") + "-" + Decimal(i)
  {
    OneOrdinal(cr, CorootClaim(i), i);
  }

  lemma KeeperClaimName(cr: Request, i: nat)
    ensures NameOf(cr, KeeperClaim(i)) == "data-" + (cr.name + "-clickhouse-keeper") + "-" + Decimal(i)
  {
    OneOrdinal(cr, KeeperClaim(i), i);
  }

  lemma ShardSetName(cr: Request, i: nat)
    ensures NameOf(cr, ShardSet(i)) == cr.name + "-clickhouse-shard" + "-" + Decimal(i)
  {
    OneOrdinal(cr, ShardSet(i), i);
  }

  /** A shard's claim is named after its StatefulSet. */
  lemma ShardClaimName(cr: Request, i: nat, j: nat)
    ensures NameOf(cr, ShardClaim(i, j)) == "data-" + NameOf(cr, ShardSet(i)) + "-" + Decimal(j)
  {
    var base := cr.name + "-clickhouse-shard";
    NumberedLast(base, [i], j);
    assert [i] + [j] == [i, j];
    Ungroup("data-", Numbered(base, [i]), "-", Decimal(j));
  }

  /** The kind of each part, kind by kind. */
  lemma KindsOfParts(p: Part)
    ensures KindOf(p).Role? <==> p.SccRole?
    ensures KindOf(p).ServiceAccount? <==> p.Account?
    ensures KindOf(p).RoleBinding? <==> p.AccountBinding?
    ensures KindOf(p).DaemonSet? <==> p.NodeAgentDaemonSet?
    ensures KindOf(p).Deployment? <==> p in {AgentDeployment, PrometheusDeployment, LegacyDeployment}
    ensures KindOf(p).ConfigMap? <==> p.CorootConfig?
    ensures KindOf(p).StatefulSet? <==> p.CorootSet? || p.KeeperSet? || p.ShardSet?
    ensures KindOf(p).Service? <==> p in {CorootService, PrometheusService, KeeperHeadless, ClickhouseHeadless, ClickhouseService}
    ensures KindOf(p).PersistentVolumeClaim? <==> p.CorootClaim? || p.PrometheusClaim? || p.KeeperClaim? || p.ShardClaim?
    ensures KindOf(p).Ingress? <==> p.PublicIngress?
    ensures KindOf(p).Secret? <==> p.PasswordSecret?
    ensures KindOf(p).ClusterRole? <==> p.AgentClusterRole?
    ensures KindOf(p).ClusterRoleBinding? <==> p.AgentClusterRoleBinding?
  {}

  /** Cluster roles and their bindings, and nothing else, are outside the resource's namespace. */
  lemma ScopesOfParts(cr: Request, p: Part)
    ensures KeyOf(cr, p).ns == if KindOf(p).ClusterRole? || KindOf(p).ClusterRoleBinding? then "" else cr.ns
    ensures KeyOf(cr, p).kind == KindOf(p) && KeyOf(cr, p).name == NameOf(cr, p)
  {}

  // ---- keys tell resources and parts apart ----

  predicate EndsInLetter(s: string) { s != [] && !IsDigit(s[|s| - 1]) }

  lemma {:induction false} NumberedInjective(a: string, m: seq<nat>, b: string, n: seq<nat>)
    requires EndsInLetter(a) && EndsInLetter(b) && Numbered(a, m) == Numbered(b, n)
    ensures a == b && m == n
    decreases |m|
  {
    if m != [] { EndsInDigit(a, m); }
    if n != [] { EndsInDigit(b, n); }
    if m != [] && n != [] {
      var m', n', x, y := m[..|m| - 1], n[..|n| - 1], m[|m| - 1], n[|n| - 1];
      DecimalIsDigits(x);
      DecimalIsDigits(y);
      LastCutUnique(Numbered(a, m'), Decimal(x), Numbered(b, n'), Decimal(y), '-');
      PrintInjective(x, y, 10);
      NumberedInjective(a, m', b, n');
      assert m == m' + [x] && n == n' + [y];
    }
  }

  lemma EndsInDigit(base: string, ordinals: seq<nat>)
    requires ordinals != []
    ensures var s := Numbered(base, ordinals); s != [] && IsDigit(s[|s| - 1])
  {
    var digits := Decimal(ordinals[|ordinals| - 1]);
    DecimalIsDigits(ordinals[|ordinals| - 1]);
    var s := Numbered(base, ordinals);
    assert s[|s| - 1] == digits[|digits| - 1];
  }

  /** The letter `d` places from the end. */
  function FromEnd(s: string, d: nat): char
  {
    if 1 <= d <= |s| then s[|s| - d] else ' '
  }

  /** No stem of a kind ends in another stem of that kind. */
  lemma StemsSuffixFree(p: Part, q: Part) returns (d: nat)
    requires KindOf(p) == KindOf(q) && Stem(p) != Stem(q)
    ensures 1 <= d <= |Stem(p)| && d <= |Stem(q)| && FromEnd(Stem(p), d) != FromEnd(Stem(q), d)
  {
    if KindOf(p).ServiceAccount? {
      d := ComponentsSuffixFree(p.component, q.component);
    } else if KindOf(p).RoleBinding? {
      d := BindingsSuffixFree(p.component, q.component);
    } else if KindOf(p).Service? {
      d := ServicesSuffixFree(p, q);
    } else {
      d := OthersSuffixFree(p, q);
    }
  }

  lemma ServicesSuffixFree(p: Part, q: Part) returns (d: nat)
    requires KindOf(p).Service? && KindOf(q).Service? && p != q
    ensures 1 <= d <= |Stem(p)| && d <= |Stem(q)| && FromEnd(Stem(p), d) != FromEnd(Stem(q), d)
  {
    d := if FromEnd(Stem(p), 1) != FromEnd(Stem(q), 1) then 1
         else if FromEnd(Stem(p), 2) != FromEnd(Stem(q), 2) then 2 else 10;
  }

  lemma OthersSuffixFree(p: Part, q: Part) returns (d: nat)
    requires KindOf(p) == KindOf(q) && Stem(p) != Stem(q)
    requires KindOf(p) in {Role, Deployment, StatefulSet, PersistentVolumeClaim, DaemonSet, ConfigMap, Ingress, Secret,
                           ClusterRole, ClusterRoleBinding}
    ensures 1 <= d <= |Stem(p)| && d <= |Stem(q)| && FromEnd(Stem(p), d) != FromEnd(Stem(q), d)
  {
    d := if FromEnd(Stem(p), 1) != FromEnd(Stem(q), 1) then 1 else 2;
  }

  lemma BindingsSuffixFree(a: Component, b: Component) returns (d: nat)
    requires a != b
    ensures var s, t := Stem(AccountBinding(a)), Stem(AccountBinding(b));
            1 <= d <= |s| && d <= |t| && FromEnd(s, d) != FromEnd(t, d)
  {
    BindingEnding(a);
    BindingEnding(b);
    if SccOf(a) != SccOf(b) {
      d := 1;
    } else {
      var e := ComponentsSuffixFree(a, b);
      d := SameSccSuffixFree(ComponentStem(a), ComponentStem(b), SccStem(SccOf(a)), e);
    }
  }

  lemma SameSccSuffixFree(s: string, t: string, ending: string, e: nat) returns (d: nat)
    requires 1 <= e <= |s| && e <= |t| && FromEnd(s, e) != FromEnd(t, e)
    ensures 1 <= d <= |s + ending| && d <= |t + ending| && FromEnd(s + ending, d) != FromEnd(t + ending, d)
  {
    d := e + |ending|;
  }

  lemma BindingEnding(c: Component)
    ensures FromEnd(Stem(AccountBinding(c)), 1) == if SccOf(c).Nonroot? then 't' else 'd'
  {
    var scc := SccStem(SccOf(c));
    assert FromEnd(Stem(AccountBinding(c)), 1) == scc[|scc| - 1];
  }

  lemma ComponentsSuffixFree(a: Component, b: Component) returns (d: nat)
    requires a != b
    ensures 1 <= d <= |ComponentStem(a)| && d <= |ComponentStem(b)| && FromEnd(ComponentStem(a), d) != FromEnd(ComponentStem(b), d)
  {
    d := if FromEnd(ComponentStem(a), 1) != FromEnd(ComponentStem(b), 1) then 1
         else if FromEnd(ComponentStem(a), 2) != FromEnd(ComponentStem(b), 2) then 2 else 7;
  }

  lemma StemEndsInLetter(p: Part)
    ensures Stem(p) == "" || EndsInLetter(Stem(p))
  {
    if p.AccountBinding? {
      var s := Stem(p);
      assert s[|s| - 1] == SccStem(SccOf(p.component))[|SccStem(SccOf(p.component))| - 1];
    }
  }

  lemma NamesDisjoint(a: string, p: Part, b: string, q: Part)
    requires KindOf(p) == KindOf(q) && !p.PublicIngress?
    requires Numbered(a + Stem(p), Ordinals(p)) == Numbered(b + Stem(q), Ordinals(q))
    ensures p == q && a == b
  {
    StemmedEndsInLetter(a, p);
    StemmedEndsInLetter(b, q);
    NumberedInjective(a + Stem(p), Ordinals(p), b + Stem(q), Ordinals(q));
    StemsEqual(a, p, b, q);
    CancelSuffix(a, b, Stem(p));
    SameStemSamePart(p, q);
  }

  lemma StemmedEndsInLetter(a: string, p: Part)
    requires !p.PublicIngress?
    ensures EndsInLetter(a + Stem(p))
  {
    StemEndsInLetter(p);
    var s := a + Stem(p);
    assert s[|s| - 1] == Stem(p)[|Stem(p)| - 1];
  }

  lemma StemsEqual(a: string, p: Part, b: string, q: Part)
    requires KindOf(p) == KindOf(q) && a + Stem(p) == b + Stem(q)
    ensures Stem(p) == Stem(q)
  {
    if Stem(p) != Stem(q) {
      var d := StemsSuffixFree(p, q);
      FromEndDiffer(a, Stem(p), b, Stem(q), d);
    }
  }

  lemma FromEndDiffer(a: string, s: string, b: string, t: string, d: nat)
    requires 1 <= d <= |s| && d <= |t| && FromEnd(s, d) != FromEnd(t, d)
    ensures a + s != b + t
  {
    EndsDiffer(a, s, b, t, d);
  }

  /** Keys of different resources, or of different parts, are different; cluster-scoped keys ignore the namespace. */
  lemma KeysDisjoint(a: Request, p: Part, b: Request, q: Part)
    requires KeyOf(a, p) == KeyOf(b, q)
    ensures p == q && a.name == b.name && (Namespaced(p) ==> a == b)
  {
    if p.PublicIngress? {
      assert NameOf(a, p) == a.name && NameOf(b, q) == b.name;
    } else {
      CancelPrefix(Prefix(p), Numbered(a.name + Stem(p), Ordinals(p)), Numbered(b.name + Stem(q), Ordinals(q)));
      NamesDisjoint(a.name, p, b.name, q);
    }
  }

  lemma SameStemSamePart(p: Part, q: Part)
    requires KindOf(p) == KindOf(q) && Stem(p) == Stem(q) && Ordinals(p) == Ordinals(q)
    ensures p == q
  {
    if p != q && p.Account? {
      var d := ComponentsSuffixFree(p.component, q.component);
    }
    if p != q && p.AccountBinding? {
      var d := BindingsSuffixFree(p.component, q.component);
    }
  }
}
