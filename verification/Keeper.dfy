/**
  Raft membership of the ClickHouse keepers: each keeper finds its own id by parsing its host name, and the
  generated raft configuration must name it by that id.
*/
module Keeper {
  import opened ObjectNames
  import opened Resource
  import opened Text
  import opened Topology

  function LastDash(s: string): int
  {
    if s == [] then -1 else if s[|s| - 1] == '-' then |s| - 1 else LastDash(s[..|s| - 1])
  }

  /** `sed -E 's/.*-([0-9]+)$/\1/'`: the digits that end the text after a dash, or else the text itself. */
  function ServerId(host: string): string
  {
    var i := LastDash(host);
    if i >= 0 && |host| > i + 1 && AllDigits(host[i + 1..]) then host[i + 1..] else host
  }

  lemma {:induction false} LastDashIsLast(s: string)
    ensures -1 <= LastDash(s) < |s|
    ensures LastDash(s) >= 0 ==> s[LastDash(s)] == '-'
    ensures forall i | LastDash(s) < i < |s| :: s[i] != '-'
  {
    if s != [] && s[|s| - 1] != '-' { LastDashIsLast(s[..|s| - 1]); }
  }

  /** The parser is the regular expression: whichever way the text matches, the group is the parsed id. */
  lemma ServerIdMatches(before: string, digits: string)
    requires digits != [] && AllDigits(digits)
    ensures ServerId(before + "-" + digits) == digits
  {
    var host := before + "-" + digits;
    LastDashIsLast(host);
    assert host[|before|] == '-' && forall i | |before| < i < |host| :: host[i] == digits[i - |before| - 1];
    assert LastDash(host) == |before|;
    assert host[|before| + 1..] == digits;
  }

  /** Without digits after a last dash the text stays as it is. */
  lemma ServerIdMismatches(host: string)
    requires forall before: string, digits: string :: host == before + "-" + digits ==> digits == [] || !AllDigits(digits)
    ensures ServerId(host) == host
  {
    LastDashIsLast(host);
    var i := LastDash(host);
    if i >= 0 { assert host == host[..i] + "-" + host[i + 1..]; }
  }

  datatype Server = Server(id: string, hostname: string)

  /** The members enumerated by the raft configuration template. */
  method RaftServers(cr: Request, replicas: nat) returns (servers: seq<Server>)
    ensures |servers| == replicas
    ensures forall i | 0 <= i < replicas ::
      && servers[i].id == Decimal(i)
      && servers[i].hostname == KeeperHost(cr, i)
  {
    servers := [];
    for id := 0 to replicas
      invariant |servers| == id
      invariant forall i | 0 <= i < id ::
        && servers[i].id == Decimal(i)
        && servers[i].hostname == KeeperHost(cr, i)
    {
      servers := servers + [Server(Decimal(id), KeeperHost(cr, id))];
    }
  }

  /** A keeper's parsed id is its ordinal. */
  lemma PodParsesItsOrdinal(cr: Request, spec: CorootSpec, ordinal: nat)
    ensures ServerId(PodName(cr, KeeperSetOf(spec), ordinal)) == Decimal(ordinal)
  {
    DecimalIsDigits(ordinal);
    ServerIdMatches(NameOf(cr, KeeperSet), Decimal(ordinal));
  }

  lemma OwnIdOnly(cr: Request, spec: CorootSpec, i: nat, j: nat)
    ensures Decimal(j) == ServerId(PodName(cr, KeeperSetOf(spec), i)) <==> i == j
  {
    PodParsesItsOrdinal(cr, spec, i);
    if Decimal(i) == Decimal(j) { PrintInjective(i, j, 10); }
  }

  /**
    Every keeper pod's own id occurs exactly once among the raft members, beside that pod's own host name, and
    there is no other member.
  */
  method RaftConfig(cr: Request, spec: CorootSpec) returns (servers: seq<Server>)
    ensures |servers| == |Pods(cr, KeeperSetOf(spec))|
    ensures spec.keeperReplicas < 0x8000_0000 ==> |servers| == if spec.keeperReplicas > 0 then spec.keeperReplicas else 3
    ensures forall i, j | 0 <= i < |servers| && 0 <= j < |servers| ::
      servers[j].id == ServerId(Pods(cr, KeeperSetOf(spec))[i]) <==> i == j
    ensures forall i | 0 <= i < |servers| :: servers[i].hostname == Hosts(cr, KeeperSetOf(spec))[i]
  {
    servers := RaftServers(cr, PodCount(KeeperSetOf(spec)));
    RequestedKeepers(cr, spec);
    forall i, j | 0 <= i < |servers| && 0 <= j < |servers|
      ensures servers[j].id == ServerId(Pods(cr, KeeperSetOf(spec))[i]) <==> i == j
    {
      OwnIdAmongPods(cr, spec, i, j);
    }
    forall i | 0 <= i < |servers| ensures servers[i].hostname == Hosts(cr, KeeperSetOf(spec))[i] {
      KeeperHostText(cr, spec, i);
    }
  }

  lemma OwnIdAmongPods(cr: Request, spec: CorootSpec, i: nat, j: nat)
    requires i < |Pods(cr, KeeperSetOf(spec))|
    ensures Decimal(j) == ServerId(Pods(cr, KeeperSetOf(spec))[i]) <==> i == j
  {
    OwnIdOnly(cr, spec, i, j);
    assert Pods(cr, KeeperSetOf(spec))[i] == PodName(cr, KeeperSetOf(spec), i);
  }
}
