/**
  The claims, StatefulSets and generated configuration of the ClickHouse cluster, its keepers and the Coroot
  server.  They are written in separate places and must agree on every name.
*/
module Topology {
  import opened ObjectNames
  import opened Options
  import opened Resource
  import opened Text

  /** Go's conversion of an int to int32. */
  function Int32(n: int): int { (n + 0x8000_0000) % 0x1_0000_0000 - 0x8000_0000 }

  /** The replica counts of claims default on zero only: a negative count yields no claim. */
  function ClaimCount(n: int): nat { if n == 0 then 1 else if n < 0 then 0 else n }

  function ShardCount(shards: int): (n: nat) ensures n > 0 { if shards <= 0 then 1 else shards }

  /** The replica counts of StatefulSets are converted to int32 first. */
  function SetReplicas(replicas: int): (n: nat) ensures n > 0
  {
    if Int32(replicas) <= 0 then 1 else Int32(replicas)
  }

  function KeeperReplicas(spec: CorootSpec): (n: nat) ensures n > 0
  {
    if spec.keeperReplicas > 0 then spec.keeperReplicas else 3
  }

  // ---- claims ----

  function Range<T>(n: nat, f: nat -> T): (r: seq<T>)
    ensures |r| == n && forall i | 0 <= i < n :: r[i] == f(i)
  {
    seq(n, i requires 0 <= i < n => f(i))
  }

  function CorootClaimsOf(spec: CorootSpec): seq<Part>
  {
    Range(ClaimCount(spec.replicas), i => CorootClaim(i))
  }

  method CorootClaims(spec: CorootSpec) returns (claims: seq<Part>)
    ensures claims == CorootClaimsOf(spec)
  {
    var replicas := spec.replicas;
    if replicas == 0 { replicas := 1; }
    claims := [];
    var replica := 0;
    while replica < replicas
      invariant 0 <= replica && (replica <= replicas || replica == 0)
      invariant claims == Range(replica, i => CorootClaim(i))
    {
      claims := claims + [CorootClaim(replica)];
      replica := replica + 1;
    }
  }

  function KeeperClaimsOf(spec: CorootSpec): seq<Part>
  {
    Range(KeeperReplicas(spec), i => KeeperClaim(i))
  }

  method KeeperClaims(spec: CorootSpec) returns (claims: seq<Part>)
    ensures claims == KeeperClaimsOf(spec)
  {
    claims := [];
    for replica := 0 to KeeperReplicas(spec)
      invariant claims == Range(replica, i => KeeperClaim(i))
    {
      claims := claims + [KeeperClaim(replica)];
    }
  }

  /** One row of claims per shard. */
  function ShardClaimRows(shards: nat, replicas: nat): seq<Part>
  {
    if shards == 0 then []
    else ShardClaimRows(shards - 1, replicas) + Range(replicas, r => ShardClaim(shards - 1, r))
  }

  function ShardClaimsOf(spec: CorootSpec): seq<Part>
  {
    ShardClaimRows(ClaimCount(spec.shards), ClaimCount(spec.clickhouseReplicas))
  }

  method ShardClaims(spec: CorootSpec) returns (claims: seq<Part>)
    ensures claims == ShardClaimsOf(spec)
  {
    var shards, replicas := spec.shards, spec.clickhouseReplicas;
    if shards == 0 { shards := 1; }
    if replicas == 0 { replicas := 1; }
    claims := [];
    var shard := 0;
    while shard < shards
      invariant 0 <= shard && (shard <= shards || shard == 0)
      invariant claims == ShardClaimRows(shard, ClaimCount(spec.clickhouseReplicas))
    {
      ghost var rows := claims;
      var replica := 0;
      while replica < replicas
        invariant 0 <= replica && (replica <= replicas || replica == 0)
        invariant claims == rows + Range(replica, r => ShardClaim(shard, r))
      {
        claims := claims + [ShardClaim(shard, replica)];
        replica := replica + 1;
      }
      shard := shard + 1;
    }
  }

  // ---- StatefulSets and their pods ----

  /** What matters of a StatefulSet: its name, its size and its governing service, if it names one. */
  datatype PodGroup = PodGroup(part: Part, replicas: int, service: Option<Part>)

  function PodName(cr: Request, group: PodGroup, ordinal: nat): string
  {
    NameOf(cr, group.part) + "-" + Decimal(ordinal)
  }

  /** A negative size runs no pod. */
  function PodCount(group: PodGroup): nat { if group.replicas < 0 then 0 else group.replicas }

  function Pods(cr: Request, group: PodGroup): seq<string>
  {
    Range(PodCount(group), i => PodName(cr, group, i))
  }

  /** The claim that Kubernetes binds a pod's claim template `data` to. */
  function Mount(pod: string): string { "data-" + pod }

  function Mounts(cr: Request, group: PodGroup): seq<string>
  {
    Range(PodCount(group), i => Mount(PodName(cr, group, i)))
  }

  function AllMounts(cr: Request, sets: seq<PodGroup>): seq<string>
  {
    if sets == [] then [] else AllMounts(cr, sets[..|sets| - 1]) + Mounts(cr, sets[|sets| - 1])
  }

  function Names(cr: Request, parts: seq<Part>): seq<string>
  {
    Range(|parts|, i => if 0 <= i < |parts| then NameOf(cr, parts[i]) else "")
  }

  function CorootSetOf(spec: CorootSpec): PodGroup
  {
    PodGroup(CorootSet, SetReplicas(spec.replicas), None)
  }

  function KeeperSetOf(spec: CorootSpec): PodGroup
  {
    PodGroup(KeeperSet, Int32(KeeperReplicas(spec)), Some(KeeperHeadless))
  }

  function ShardSetOf(spec: CorootSpec, shard: nat): PodGroup
  {
    PodGroup(ShardSet(shard), SetReplicas(spec.clickhouseReplicas), Some(ClickhouseHeadless))
  }

  function ShardSetsOf(spec: CorootSpec): seq<PodGroup>
  {
    Range(ShardCount(spec.shards), i => ShardSetOf(spec, i))
  }

  method ShardSets(spec: CorootSpec) returns (sets: seq<PodGroup>)
    ensures sets == ShardSetsOf(spec)
  {
    var shards := spec.shards;
    if shards <= 0 { shards := 1; }
    var replicas := Int32(spec.clickhouseReplicas);
    if replicas <= 0 { replicas := 1; }
    sets := [];
    for shard := 0 to shards
      invariant sets == Range(shard, i => ShardSetOf(spec, i))
    {
      sets := sets + [PodGroup(ShardSet(shard), replicas, Some(ClickhouseHeadless))];
    }
  }

  // ---- generated configuration ----

  /** The address under which a headless service publishes a pod. */
  function HostOf(cr: Request, group: PodGroup, ordinal: nat): string
    requires group.service.Some?
  {
    PodName(cr, group, ordinal) + "." + NameOf(cr, group.service.value) + "." + cr.ns
  }

  function Hosts(cr: Request, group: PodGroup): seq<string>
    requires group.service.Some?
  {
    Range(PodCount(group), i => HostOf(cr, group, i))
  }

  datatype ClickhouseConfig = ClickhouseConfig(remoteServers: seq<seq<string>>, zookeeper: seq<string>)

  function ShardHost(cr: Request, shard: nat, replica: nat): string
  {
    cr.name + "-clickhouse-shard-" + Decimal(shard) + "-" + Decimal(replica) + "." + cr.name + "-clickhouse-headless." + cr.ns
  }

  function KeeperHost(cr: Request, keeper: nat): string
  {
    cr.name + "-clickhouse-keeper-" + Decimal(keeper) + "." + cr.name + "-clickhouse-keeper-headless." + cr.ns
  }

  /** `range $replica := $.Replicas` */
  method ShardHosts(cr: Request, shard: nat, replicas: nat) returns (row: seq<string>)
    ensures |row| == replicas && forall r | 0 <= r < replicas :: row[r] == ShardHost(cr, shard, r)
  {
    row := [];
    for r := 0 to replicas
      invariant |row| == r && forall i | 0 <= i < r :: row[i] == ShardHost(cr, shard, i)
    {
      row := row + [ShardHost(cr, shard, r)];
    }
  }

  /** `range $keeper := .Keepers` */
  method KeeperHosts(cr: Request, keepers: nat) returns (hosts: seq<string>)
    ensures |hosts| == keepers && forall k | 0 <= k < keepers :: hosts[k] == KeeperHost(cr, k)
  {
    hosts := [];
    for k := 0 to keepers
      invariant |hosts| == k && forall i | 0 <= i < k :: hosts[i] == KeeperHost(cr, i)
    {
      hosts := hosts + [KeeperHost(cr, k)];
    }
  }

  /** The hosts written by the ClickHouse configuration template: one list per shard, then the keepers. */
  method ClickhouseConfigOf(cr: Request, shards: nat, replicas: nat, keepers: nat) returns (config: ClickhouseConfig)
    ensures |config.remoteServers| == shards
    ensures forall s | 0 <= s < shards :: |config.remoteServers[s]| == replicas
    ensures forall s, r | 0 <= s < shards && 0 <= r < replicas :: config.remoteServers[s][r] == ShardHost(cr, s, r)
    ensures |config.zookeeper| == keepers && forall k | 0 <= k < keepers :: config.zookeeper[k] == KeeperHost(cr, k)
  {
    var remote := [];
    for s := 0 to shards
      invariant |remote| == s && forall i | 0 <= i < s :: |remote[i]| == replicas
      invariant forall i, r | 0 <= i < s && 0 <= r < replicas :: remote[i][r] == ShardHost(cr, i, r)
    {
      var row := ShardHosts(cr, s, replicas);
      remote := remote + [row];
    }
    var zookeeper := KeeperHosts(cr, keepers);
    config := ClickhouseConfig(remote, zookeeper);
  }

  /** The initial container of a shard's pods writes the configuration from the counts of the StatefulSet. */
  method ShardConfig(cr: Request, spec: CorootSpec) returns (config: ClickhouseConfig)
    ensures |config.remoteServers| == |ShardSetsOf(spec)|
    ensures forall s | 0 <= s < |ShardSetsOf(spec)| :: config.remoteServers[s] == Hosts(cr, ShardSetsOf(spec)[s])
    ensures |config.zookeeper| == if spec.keeperReplicas > 0 then spec.keeperReplicas else 3
    ensures config.zookeeper == Hosts(cr, KeeperSetOf(spec)) <==> spec.keeperReplicas < 0x8000_0000
  {
    config := ClickhouseConfigOf(cr, ShardCount(spec.shards), SetReplicas(spec.clickhouseReplicas), KeeperReplicas(spec));
    forall s, r | 0 <= s < ShardCount(spec.shards) && 0 <= r < SetReplicas(spec.clickhouseReplicas)
      ensures config.remoteServers[s][r] == HostOf(cr, ShardSetOf(spec, s), r)
    {
      ShardHostText(cr, spec, s, r);
    }
    forall k | 0 <= k < KeeperReplicas(spec)
      ensures config.zookeeper[k] == HostOf(cr, KeeperSetOf(spec), k)
    {
      KeeperHostText(cr, spec, k);
    }
    assert |Hosts(cr, KeeperSetOf(spec))| == PodCount(KeeperSetOf(spec));
  }

  lemma ShardHostText(cr: Request, spec: CorootSpec, shard: nat, replica: nat)
    ensures HostOf(cr, ShardSetOf(spec, shard), replica) == ShardHost(cr, shard, replica)
  {
    NumberedOnce(cr.name + "-clickhouse-shard", shard);
    ShardSetText(cr, shard);
    JoinHost(NameOf(cr, ShardSet(shard)), cr.name + "-clickhouse-shard-" + Decimal(shard), Decimal(replica),
             NameOf(cr, ClickhouseHeadless), cr.name, "-clickhouse-headless", cr.ns);
  }

  lemma ShardSetText(cr: Request, shard: nat)
    ensures NameOf(cr, ShardSet(shard)) == cr.name + "-clickhouse-shard-" + Decimal(shard)
  {
    NumberedOnce(cr.name + "-clickhouse-shard", shard);
    assert cr.name + "-clickhouse-shard" + "-" == cr.name + "-clickhouse-shard-";
  }

  lemma KeeperHostText(cr: Request, spec: CorootSpec, k: nat)
    ensures HostOf(cr, KeeperSetOf(spec), k) == KeeperHost(cr, k)
  {
    assert cr.name + "-clickhouse-keeper" + "-" == cr.name + "-clickhouse-keeper-";
    JoinHost(NameOf(cr, KeeperSet), cr.name + "-clickhouse-keeper", Decimal(k),
             NameOf(cr, KeeperHeadless), cr.name, "-clickhouse-keeper-headless", cr.ns);
  }

  /** A host is the same text whether it is put together from names or written out. */
  lemma JoinHost(group: string, written: string, ordinal: string, service: string, name: string, stem: string, ns: string)
    requires group == written && service == name + stem
    ensures group + "-" + ordinal + "." + service + "." + ns == written + "-" + ordinal + "." + name + stem + "." + ns
  {
    var prefix := group + "-" + ordinal + ".";
    assert prefix + service == prefix + name + stem;
  }

  lemma NumberedOnce(base: string, n: nat)
    ensures Numbered(base, [n]) == base + "-" + Decimal(n)
  {
    assert [n][..0] == [];
  }

  // ---- agreement ----

  /** Every claim one resource asks for. */
  function AllClaimsOf(spec: CorootSpec): seq<Part>
  {
    CorootClaimsOf(spec) + [PrometheusClaim] + KeeperClaimsOf(spec) + ShardClaimsOf(spec)
  }

  lemma {:induction false} ShardClaimRowsDistinct(shards: nat, replicas: nat, i: nat, j: nat)
    requires i < j < |ShardClaimRows(shards, replicas)|
    ensures var rows := ShardClaimRows(shards, replicas);
            rows[i].ShardClaim? && rows[j].ShardClaim? && rows[i].shard < shards && rows[j].shard < shards && rows[i] != rows[j]
  {
    var n := |ShardClaimRows(shards - 1, replicas)|;
    if j < n {
      ShardClaimRowsDistinct(shards - 1, replicas, i, j);
    } else if i < n {
      ShardClaimRowsBelow(shards - 1, replicas, i);
    }
  }

  lemma {:induction false} ShardClaimRowsBelow(shards: nat, replicas: nat, i: nat)
    requires i < |ShardClaimRows(shards, replicas)|
    ensures ShardClaimRows(shards, replicas)[i].ShardClaim? && ShardClaimRows(shards, replicas)[i].shard < shards
  {
    if i < |ShardClaimRows(shards - 1, replicas)| { ShardClaimRowsBelow(shards - 1, replicas, i); }
  }

  lemma ClaimAt(spec: CorootSpec, i: nat)
    requires i < |AllClaimsOf(spec)|
    ensures var all, n := AllClaimsOf(spec), |AllClaimsOf(spec)| - |ShardClaimsOf(spec)|;
            && KindOf(all[i]).PersistentVolumeClaim?
            && (all[i].ShardClaim? <==> i >= n)
            && (i >= n ==> all[i] == ShardClaimsOf(spec)[i - n])
  {
    var n := |AllClaimsOf(spec)| - |ShardClaimsOf(spec)|;
    if i >= n { ShardClaimRowsBelow(ClaimCount(spec.shards), ClaimCount(spec.clickhouseReplicas), i - n); }
  }

  lemma ClaimsDistinct(spec: CorootSpec, i: nat, j: nat)
    requires i < j < |AllClaimsOf(spec)|
    ensures AllClaimsOf(spec)[i] != AllClaimsOf(spec)[j]
  {
    var n := |AllClaimsOf(spec)| - |ShardClaimsOf(spec)|;
    ClaimAt(spec, i);
    ClaimAt(spec, j);
    if i >= n {
      ShardClaimRowsDistinct(ClaimCount(spec.shards), ClaimCount(spec.clickhouseReplicas), i - n, j - n);
    }
  }

  /** No two claims of a resource share a name, whatever the counts. */
  lemma ClaimNamesDistinct(cr: Request, spec: CorootSpec, i: nat, j: nat)
    requires i < j < |AllClaimsOf(spec)|
    ensures Names(cr, AllClaimsOf(spec))[i] != Names(cr, AllClaimsOf(spec))[j]
  {
    var p, q := AllClaimsOf(spec)[i], AllClaimsOf(spec)[j];
    ClaimAt(spec, i);
    ClaimAt(spec, j);
    ClaimsDistinct(spec, i, j);
    ClaimNamesApart(cr, p, q);
  }

  lemma ClaimNamesApart(cr: Request, p: Part, q: Part)
    requires KindOf(p).PersistentVolumeClaim? && KindOf(q).PersistentVolumeClaim? && p != q
    ensures NameOf(cr, p) != NameOf(cr, q)
  {
    if NameOf(cr, p) == NameOf(cr, q) { KeysDisjoint(cr, p, cr, q); }
  }

  /** The Coroot server's claims are those its pods mount, exactly for counts that fit. */
  lemma CorootClaimsAgree(cr: Request, spec: CorootSpec)
    ensures Names(cr, CorootClaimsOf(spec)) == Mounts(cr, CorootSetOf(spec)) <==> 0 <= spec.replicas < 0x8000_0000
  {
    forall i | 0 <= i < |CorootClaimsOf(spec)|
      ensures NameOf(cr, CorootClaim(i)) == Mount(PodName(cr, CorootSetOf(spec), i))
    {
      CorootMount(cr, spec, i);
    }
    assert |Mounts(cr, CorootSetOf(spec))| == SetReplicas(spec.replicas);
  }

  lemma CorootMount(cr: Request, spec: CorootSpec, i: nat)
    ensures NameOf(cr, CorootClaim(i)) == Mount(PodName(cr, CorootSetOf(spec), i))
  {
    NumberedOnce(cr.name + "-coroot", i);
    assert NameOf(cr, CorootSet) == cr.name + "-coroot";
  }

  lemma KeeperMount(cr: Request, spec: CorootSpec, i: nat)
    ensures NameOf(cr, KeeperClaim(i)) == Mount(PodName(cr, KeeperSetOf(spec), i))
  {
    NumberedOnce(cr.name + "-clickhouse-keeper", i);
    assert NameOf(cr, KeeperSet) == cr.name + "-clickhouse-keeper";
  }

  lemma ShardMount(cr: Request, spec: CorootSpec, shard: nat, replica: nat)
    ensures NameOf(cr, ShardClaim(shard, replica)) == Mount(PodName(cr, ShardSetOf(spec, shard), replica))
  {
    var base, group := cr.name + "-clickhouse-shard", NameOf(cr, ShardSet(shard));
    assert group == Numbered(base, [shard]);
    assert [shard, replica][..1] == [shard];
    assert Numbered(base, [shard, replica]) == group + "-" + Decimal(replica);
  }

  lemma KeeperClaimsAgree(cr: Request, spec: CorootSpec)
    ensures Names(cr, KeeperClaimsOf(spec)) == Mounts(cr, KeeperSetOf(spec)) <==> spec.keeperReplicas < 0x8000_0000
  {
    forall i | 0 <= i < |KeeperClaimsOf(spec)|
      ensures NameOf(cr, KeeperClaim(i)) == Mount(PodName(cr, KeeperSetOf(spec), i))
    {
      KeeperMount(cr, spec, i);
    }
    assert |Mounts(cr, KeeperSetOf(spec))| == PodCount(KeeperSetOf(spec));
  }

  lemma ShardRowAgrees(cr: Request, spec: CorootSpec, shard: nat, replicas: nat)
    requires replicas == SetReplicas(spec.clickhouseReplicas)
    ensures Names(cr, Range(replicas, r => ShardClaim(shard, r))) == Mounts(cr, ShardSetOf(spec, shard))
  {
    forall r | 0 <= r < replicas
      ensures NameOf(cr, ShardClaim(shard, r)) == Mount(PodName(cr, ShardSetOf(spec, shard), r))
    {
      ShardMount(cr, spec, shard, r);
    }
  }

  lemma NamesAppend(cr: Request, a: seq<Part>, b: seq<Part>)
    ensures Names(cr, a + b) == Names(cr, a) + Names(cr, b)
  {}

  lemma {:induction false} ShardRowsAgree(cr: Request, spec: CorootSpec, shards: nat, replicas: nat)
    requires replicas == SetReplicas(spec.clickhouseReplicas)
    ensures Names(cr, ShardClaimRows(shards, replicas)) == AllMounts(cr, Range(shards, i => ShardSetOf(spec, i)))
  {
    var sets := Range(shards, i => ShardSetOf(spec, i));
    if shards > 0 {
      ShardRowsAgree(cr, spec, shards - 1, replicas);
      ShardRowAgrees(cr, spec, shards - 1, replicas);
      NamesAppend(cr, ShardClaimRows(shards - 1, replicas), Range(replicas, r => ShardClaim(shards - 1, r)));
      assert sets[..shards - 1] == Range(shards - 1, i => ShardSetOf(spec, i));
    }
  }

  lemma {:induction false} ShardClaimRowsCount(shards: nat, replicas: nat)
    ensures |ShardClaimRows(shards, replicas)| == shards * replicas
  {
    if shards > 0 { ShardClaimRowsCount(shards - 1, replicas); }
  }

  /** The ClickHouse claims are those that the pods of the shards mount, exactly for counts that fit. */
  lemma ShardClaimsAgree(cr: Request, spec: CorootSpec)
    ensures Names(cr, ShardClaimsOf(spec)) == AllMounts(cr, ShardSetsOf(spec))
       <==> 0 <= spec.shards && 0 <= spec.clickhouseReplicas < 0x8000_0000
  {
    var shards, replicas := ShardCount(spec.shards), SetReplicas(spec.clickhouseReplicas);
    var claimShards, claimReplicas := ClaimCount(spec.shards), ClaimCount(spec.clickhouseReplicas);
    ShardRowsAgree(cr, spec, shards, replicas);
    if 0 <= spec.shards && 0 <= spec.clickhouseReplicas < 0x8000_0000 {
      assert claimShards == shards && claimReplicas == replicas;
    } else {
      ShardClaimRowsCount(shards, replicas);
      ShardClaimRowsCount(claimShards, claimReplicas);
      CountsDiffer(spec);
      assert |AllMounts(cr, ShardSetsOf(spec))| == shards * replicas;
    }
  }

  /** As many keepers as asked for, or three. */
  lemma RequestedKeepers(cr: Request, spec: CorootSpec)
    ensures |KeeperClaimsOf(spec)| == if spec.keeperReplicas > 0 then spec.keeperReplicas else 3
    ensures spec.keeperReplicas < 0x8000_0000 ==>
              |Pods(cr, KeeperSetOf(spec))| == if spec.keeperReplicas > 0 then spec.keeperReplicas else 3
  {}

  /** As many Coroot servers as asked for, or one. */
  lemma RequestedServers(cr: Request, spec: CorootSpec)
    requires 0 <= spec.replicas < 0x8000_0000
    ensures |CorootClaimsOf(spec)| == |Pods(cr, CorootSetOf(spec))| == if spec.replicas == 0 then 1 else spec.replicas
  {}

  /** As many shards as asked for, or one, each with as many replicas as asked for, or one. */
  lemma RequestedShards(cr: Request, spec: CorootSpec, shard: nat)
    requires 0 <= spec.shards && 0 <= spec.clickhouseReplicas < 0x8000_0000
    ensures |ShardSetsOf(spec)| == if spec.shards == 0 then 1 else spec.shards
    ensures |Pods(cr, ShardSetOf(spec, shard))| == if spec.clickhouseReplicas == 0 then 1 else spec.clickhouseReplicas
    ensures |ShardClaimsOf(spec)|
         == (if spec.shards == 0 then 1 else spec.shards) * (if spec.clickhouseReplicas == 0 then 1 else spec.clickhouseReplicas)
  {
    ShardClaimRowsCount(ClaimCount(spec.shards), ClaimCount(spec.clickhouseReplicas));
  }

  /** Negative counts, and counts of 2^31, for which claims and pods do not agree; negative keeper counts become three. */
  lemma CountsThatDisagree(cr: Request, spec: CorootSpec)
    ensures spec.replicas == -1 ==> Names(cr, CorootClaimsOf(spec)) != Mounts(cr, CorootSetOf(spec))
    ensures spec.shards == -1 || spec.clickhouseReplicas == -1 ==> Names(cr, ShardClaimsOf(spec)) != AllMounts(cr, ShardSetsOf(spec))
    ensures spec.keeperReplicas == 0x8000_0000 ==> Names(cr, KeeperClaimsOf(spec)) != Mounts(cr, KeeperSetOf(spec))
    ensures spec.keeperReplicas == -1 ==> Names(cr, KeeperClaimsOf(spec)) == Mounts(cr, KeeperSetOf(spec))
  {
    CorootClaimsAgree(cr, spec);
    ShardClaimsAgree(cr, spec);
    KeeperClaimsAgree(cr, spec);
  }

  lemma CountsDiffer(spec: CorootSpec)
    requires spec.shards < 0 || spec.clickhouseReplicas < 0 || spec.clickhouseReplicas >= 0x8000_0000
    ensures ClaimCount(spec.shards) * ClaimCount(spec.clickhouseReplicas) != ShardCount(spec.shards) * SetReplicas(spec.clickhouseReplicas)
  {
    var a, b, c, d := ClaimCount(spec.shards), ClaimCount(spec.clickhouseReplicas), ShardCount(spec.shards), SetReplicas(spec.clickhouseReplicas);
    assert c * d >= 1 by { ProductPositive(c, d); }
    if spec.shards >= 0 && spec.clickhouseReplicas >= 0x8000_0000 {
      assert a == c && d < 0x8000_0000 <= b;
      ProductLess(c, d, b);
    }
  }

  lemma ProductPositive(a: nat, b: nat)
    requires a >= 1 && b >= 1
    ensures a * b >= 1
  {}

  lemma ProductLess(a: nat, b: nat, c: nat)
    requires a >= 1 && b < c
    ensures a * b < a * c
  {}
}
