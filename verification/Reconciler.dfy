/**
  `Reconcile` as it runs: it tracks the request, makes the writes of the plan in order, and reports the status; or it
  untracks the request of a resource that is gone and removes the shared roles with the last one.
*/
module Reconciler {
  import opened ApiServer
  import opened ConfigEnvs
  import opened Convergence
  import opened Generation
  import opened Normalisation
  import opened ObjectNames
  import opened Options
  import opened Plan
  import opened Problems
  import opened Resource
  import opened Store
  import opened Topology
  import opened Validation

  /** A Coroot resource as stored: only its status is ever written back. */
  datatype CorootResource = CorootResource(spec: CorootSpec, status: Option<Status>)

  /** What the queue of requests is told. */
  datatype Reply = Done | RequeueAfterMinutes(minutes: nat) | Failed

  function ReplyOf(agentsOnly: bool, status: Option<Status>): Reply
  {
    if !agentsOnly && status.Some? && status.value.Misconfigured? then RequeueAfterMinutes(1) else Done
  }

  /** A request is queued again, after a minute, exactly if it serves the whole and something about the resource is not in order. */
  lemma QueuedAgainIff(op: Operator, cr: Request, spec: CorootSpec, c: Cluster, r: Random)
    ensures var view, later := SecretsOf(c.objects, cr.ns), LaterView(cr, spec, c.objects, r);
            ReplyOf(spec.agentsOnly, Reconciled(op, cr, spec, c, r).status)
            == if !spec.agentsOnly && !InOrderWith(view, later, op.parses, spec) then RequeueAfterMinutes(1) else Done
  {
    if !spec.agentsOnly { HealthyIff(op, cr, spec, c, r); }
  }

  lemma Concatenated(a: seq<Part>, b: seq<Part>, c: seq<Part>, d: seq<Part>)
    ensures a + b + c + d == a + (b + c + d)
    ensures a + b + [] + d == a + (b + [] + d) && a + b + c + [] == a + b + c && a + b + [] == a + b
  {}

  lemma ShardPartsInOrder(before: seq<Part>, spec: CorootSpec)
    ensures before + ShardParts(spec)
         == before + AccountParts(Clickhouse) + [ClickhouseHeadless] + ShardClaimsOf(spec) + (ShardSetParts(spec) + [ClickhouseService])
  {
    var a, b, c, d := AccountParts(Clickhouse), [ClickhouseHeadless], ShardClaimsOf(spec), ShardSetParts(spec);
    assert a + b + c + d + [ClickhouseService] == a + b + c + (d + [ClickhouseService]);
    assert before + (a + b + c + (d + [ClickhouseService])) == before + a + b + c + (d + [ClickhouseService]);
  }

  lemma KeeperPartsInOrder(before: seq<Part>, spec: CorootSpec)
    ensures before + KeeperParts(spec)
         == before + AccountParts(Keeper) + [KeeperHeadless] + KeeperClaimsOf(spec) + [KeeperSet]
  {
    var a, b, c, d := AccountParts(Keeper), [KeeperHeadless], KeeperClaimsOf(spec), [KeeperSet];
    assert before + (a + b + c + d) == before + a + b + c + d;
  }

  lemma AgentPartsInOrder(before: seq<Part>)
    ensures before + AgentParts()
         == before + AccountParts(NodeAgent) + [NodeAgentDaemonSet]
            + AccountParts(ClusterAgent) + [AgentClusterRole, AgentClusterRoleBinding, AgentDeployment]
  {
    var a, b := AccountParts(NodeAgent), [NodeAgentDaemonSet];
    var c, d := AccountParts(ClusterAgent), [AgentClusterRole, AgentClusterRoleBinding, AgentDeployment];
    assert before + (a + b + c + d) == before + a + b + c + d;
  }

  lemma PrometheusPartsInOrder(before: seq<Part>)
    ensures before + PrometheusParts()
         == before + AccountParts(Prometheus) + [PrometheusClaim] + [PrometheusDeployment] + [PrometheusService]
  {
    var a, b := AccountParts(Prometheus), [PrometheusClaim, PrometheusDeployment, PrometheusService];
    assert before + (a + b) == before + a + [PrometheusClaim] + [PrometheusDeployment] + [PrometheusService];
  }

  lemma ServerPartsInOrder(before: seq<Part>, flag: bool)
    ensures before + CorootServerParts(flag)
         == before + [CorootConfig] + [CorootSet] + [CorootService] + (if flag then [] else [LegacyDeployment]) + [PublicIngress]
  {
    var a, b, c := [CorootConfig, CorootSet, CorootService], if flag then [] else [LegacyDeployment], [PublicIngress];
    assert before + (a + b + c) == before + a + b + c;
    assert before + a == before + [CorootConfig] + [CorootSet] + [CorootService];
  }

  lemma LaterPartsInOrder(spec: CorootSpec, flag: bool)
    ensures LaterParts(spec, flag) == [] + AgentParts() + ServerParts(spec, flag)
    ensures spec.agentsOnly ==> LaterParts(spec, flag) == [] + AgentParts()
  {
    var a, b := AgentParts(), ServerParts(spec, flag);
    assert a + b == [] + a + b;
    assert spec.agentsOnly ==> b == [];
  }

  lemma CorootPartsInOrder(before: seq<Part>, spec: CorootSpec, flag: bool)
    ensures before + CorootParts(spec, flag)
         == before + AccountParts(CorootServer) + CorootClaimsOf(spec) + CorootServerParts(flag)
  {
    Concatenated(before, AccountParts(CorootServer), CorootClaimsOf(spec), CorootServerParts(flag));
  }

  class CorootReconciler {
    const op: Operator
    const api: ApiServer
    var resources: map<Request, CorootResource>
    var instances: set<Request>
    var deploymentDeleted: bool

    // the reconcile under way: where it started, what was written before its parts, and which parts are written
    ghost var origin: Objects
    ghost var base: seq<Write>
    ghost var done: seq<Part>

    constructor (op: Operator, api: ApiServer, resources: map<Request, CorootResource>)
      ensures this.op == op && this.api == api && this.resources == resources
      ensures instances == {} && !deploymentDeleted
    {
      this.op, this.api, this.resources := op, api, resources;
      instances, deploymentDeleted := {}, false;
    }

    /** The parts in `done` have been written, with the contents built for them. */
    ghost predicate OnPlan(cr: CorootObject, envs: seq<EnvVar>)
      reads this, cr, api
    {
      && api.Valid() && api.owner == cr.id && api.states[0] == origin
      && |api.log| == |base| + |done| && base <= api.log
      && AllFollow(api.log, |base|, cr.id, cr.spec, envs, done)
    }

    ghost predicate AllFollow(log: seq<Write>, from: nat, cr: Request, spec: CorootSpec, envs: seq<EnvVar>, parts: seq<Part>)
    {
      forall i | 0 <= i < |parts| :: Follows(log, from + i, cr, spec, envs, parts[i])
    }

    ghost predicate Follows(log: seq<Write>, at: nat, cr: Request, spec: CorootSpec, envs: seq<EnvVar>, p: Part)
    {
      at < |log| && log[at] == BuiltWrite(cr, spec, envs, p)
    }

    function BuiltWrite(cr: Request, spec: CorootSpec, envs: seq<EnvVar>, p: Part): Write
    {
      PartWrite(cr, spec, if p.SccRole? then op.role(cr, p.scc) else op.build(cr, spec, envs, p), p)
    }

    lemma FollowsNext(log: seq<Write>, from: nat, cr: Request, spec: CorootSpec, envs: seq<EnvVar>, parts: seq<Part>, p: Part, w: Write)
      requires |log| == from + |parts| && AllFollow(log, from, cr, spec, envs, parts) && w == BuiltWrite(cr, spec, envs, p)
      ensures AllFollow(log + [w], from, cr, spec, envs, parts + [p])
    {
      forall i | 0 <= i <= |parts| ensures Follows(log + [w], from + i, cr, spec, envs, (parts + [p])[i]) {
        if i < |parts| { assert Follows(log, from + i, cr, spec, envs, parts[i]); }
      }
    }

    /** Builds a part and writes it. */
    method Write(cr: CorootObject, envs: seq<EnvVar>, p: Part)
      requires OnPlan(cr, envs)
      modifies api`objects, api`log, api`states, this`done
      ensures OnPlan(cr, envs) && done == old(done) + [p]
    {
      ghost var before := api.log;
      var w := BuiltWrite(cr.id, cr.spec, envs, p);
      api.Make(w);
      FollowsNext(before, |base|, cr.id, cr.spec, envs, done, p, w);
      done := done + [p];
    }

    method WriteAll(cr: CorootObject, envs: seq<EnvVar>, parts: seq<Part>)
      requires OnPlan(cr, envs)
      modifies api`objects, api`log, api`states, this`done
      ensures OnPlan(cr, envs) && done == old(done) + parts
    {
      for i := 0 to |parts|
        invariant OnPlan(cr, envs) && done == old(done) + parts[..i]
      {
        Write(cr, envs, parts[i]);
        assert parts[..i + 1] == parts[..i] + [parts[i]];
      }
      assert parts[..|parts|] == parts;
    }

    method CreateOrUpdateServiceAccount(cr: CorootObject, envs: seq<EnvVar>, component: Component)
      requires OnPlan(cr, envs)
      modifies api`objects, api`log, api`states, this`done
      ensures OnPlan(cr, envs) && done == old(done) + AccountParts(component)
    {
      Write(cr, envs, Account(component));
      Write(cr, envs, AccountBinding(component));
    }

    method ReconcileAgents(cr: CorootObject, envs: seq<EnvVar>)
      requires OnPlan(cr, envs)
      modifies api`objects, api`log, api`states, this`done
      ensures OnPlan(cr, envs) && done == old(done) + AgentParts()
    {
      ghost var before := done;
      CreateOrUpdateServiceAccount(cr, envs, NodeAgent);
      Write(cr, envs, NodeAgentDaemonSet);
      ReconcileClusterAgent(cr, envs);
      AgentPartsInOrder(before);
    }

    method ReconcileClusterAgent(cr: CorootObject, envs: seq<EnvVar>)
      requires OnPlan(cr, envs)
      modifies api`objects, api`log, api`states, this`done
      ensures OnPlan(cr, envs)
      ensures done == old(done) + AccountParts(ClusterAgent) + [AgentClusterRole, AgentClusterRoleBinding, AgentDeployment]
    {
      CreateOrUpdateServiceAccount(cr, envs, ClusterAgent);
      Write(cr, envs, AgentClusterRole);
      Write(cr, envs, AgentClusterRoleBinding);
      Write(cr, envs, AgentDeployment);
    }

    method ReconcileCoroot(cr: CorootObject, envs: seq<EnvVar>)
      requires OnPlan(cr, envs)
      modifies api`objects, api`log, api`states, this`done, this`deploymentDeleted
      ensures OnPlan(cr, envs) && done == old(done) + CorootParts(cr.spec, old(deploymentDeleted))
      ensures deploymentDeleted
    {
      ghost var before, flag := done, deploymentDeleted;
      CreateOrUpdateServiceAccount(cr, envs, CorootServer);
      var claims := CorootClaims(cr.spec);
      WriteAll(cr, envs, claims);
      ReconcileServer(cr, envs);
      assert done == before + CorootParts(cr.spec, flag) by { CorootPartsInOrder(before, cr.spec, flag); }
    }

    method ReconcileServer(cr: CorootObject, envs: seq<EnvVar>)
      requires OnPlan(cr, envs)
      modifies api`objects, api`log, api`states, this`done, this`deploymentDeleted
      ensures OnPlan(cr, envs) && deploymentDeleted
      ensures done == old(done) + CorootServerParts(old(deploymentDeleted))
    {
      ghost var before, flag := done, deploymentDeleted;
      Write(cr, envs, CorootConfig);
      Write(cr, envs, CorootSet);
      Write(cr, envs, CorootService);
      if !deploymentDeleted {
        Write(cr, envs, LegacyDeployment);
        deploymentDeleted := true;
      }
      Write(cr, envs, PublicIngress);
      ServerPartsInOrder(before, flag);
    }

    method ReconcilePrometheus(cr: CorootObject, envs: seq<EnvVar>)
      requires OnPlan(cr, envs)
      modifies api`objects, api`log, api`states, this`done
      ensures OnPlan(cr, envs) && done == old(done) + PrometheusParts()
    {
      ghost var before := done;
      CreateOrUpdateServiceAccount(cr, envs, Prometheus);
      Write(cr, envs, PrometheusClaim);
      Write(cr, envs, PrometheusDeployment);
      Write(cr, envs, PrometheusService);
      PrometheusPartsInOrder(before);
    }

    method ReconcileKeepers(cr: CorootObject, envs: seq<EnvVar>)
      requires OnPlan(cr, envs)
      modifies api`objects, api`log, api`states, this`done
      ensures OnPlan(cr, envs) && done == old(done) + KeeperParts(cr.spec)
    {
      ghost var before := done;
      CreateOrUpdateServiceAccount(cr, envs, Keeper);
      Write(cr, envs, KeeperHeadless);
      var claims := KeeperClaims(cr.spec);
      WriteAll(cr, envs, claims);
      Write(cr, envs, KeeperSet);
      KeeperPartsInOrder(before, cr.spec);
    }

    method ReconcileShards(cr: CorootObject, envs: seq<EnvVar>)
      requires OnPlan(cr, envs)
      modifies api`objects, api`log, api`states, this`done
      ensures OnPlan(cr, envs) && done == old(done) + ShardParts(cr.spec)
    {
      ghost var before := done;
      CreateOrUpdateServiceAccount(cr, envs, Clickhouse);
      Write(cr, envs, ClickhouseHeadless);
      var claims := ShardClaims(cr.spec);
      WriteAll(cr, envs, claims);
      ReconcileShardSets(cr, envs);
      ShardPartsInOrder(before, cr.spec);
    }

    method ReconcileShardSets(cr: CorootObject, envs: seq<EnvVar>)
      requires OnPlan(cr, envs)
      modifies api`objects, api`log, api`states, this`done
      ensures OnPlan(cr, envs) && done == old(done) + (ShardSetParts(cr.spec) + [ClickhouseService])
    {
      var sets := ShardSets(cr.spec);
      for i := 0 to |sets|
        invariant OnPlan(cr, envs) && done == old(done) + ShardSetParts(cr.spec)[..i]
      {
        Write(cr, envs, sets[i].part);
        assert ShardSetParts(cr.spec)[..i + 1] == ShardSetParts(cr.spec)[..i] + [sets[i].part];
      }
      assert ShardSetParts(cr.spec)[..|sets|] == ShardSetParts(cr.spec);
      Write(cr, envs, ClickhouseService);
    }

    method ReconcileClickhouse(cr: CorootObject, envs: seq<EnvVar>)
      requires OnPlan(cr, envs)
      modifies api`objects, api`log, api`states, this`done
      ensures OnPlan(cr, envs) && done == old(done) + ClickhouseParts(cr.spec)
    {
      ghost var before := done;
      Write(cr, envs, PasswordSecret);
      ReconcileKeepers(cr, envs);
      ReconcileShards(cr, envs);
      Concatenated(before, [PasswordSecret], KeeperParts(cr.spec), ShardParts(cr.spec));
    }

    /** Everything after validation. */
    method ReconcileParts(cr: CorootObject, envs: seq<EnvVar>)
      requires OnPlan(cr, envs) && done == []
      modifies api`objects, api`log, api`states, this`done, this`deploymentDeleted
      ensures OnPlan(cr, envs) && done == LaterParts(cr.spec, old(deploymentDeleted))
      ensures deploymentDeleted == (old(deploymentDeleted) || !cr.spec.agentsOnly)
    {
      LaterPartsInOrder(cr.spec, deploymentDeleted);
      ReconcileAgents(cr, envs);
      if cr.spec.agentsOnly { return; }
      ReconcileServers(cr, envs);
    }

    method ReconcileServers(cr: CorootObject, envs: seq<EnvVar>)
      requires OnPlan(cr, envs) && !cr.spec.agentsOnly
      modifies api`objects, api`log, api`states, this`done, this`deploymentDeleted
      ensures OnPlan(cr, envs) && done == old(done) + ServerParts(cr.spec, old(deploymentDeleted))
      ensures deploymentDeleted
    {
      ghost var before := done;
      ghost var coroot := CorootParts(cr.spec, deploymentDeleted);
      ghost var prometheus := if cr.spec.externalPrometheus then [] else PrometheusParts();
      ReconcileCoroot(cr, envs);
      if !cr.spec.externalPrometheus { ReconcilePrometheus(cr, envs); }
      if !cr.spec.externalClickhouse { ReconcileClickhouse(cr, envs); }
      Concatenated(before, coroot, prometheus, if cr.spec.externalClickhouse then [] else ClickhouseParts(cr.spec));
    }

    ghost function RoleWrite(cr: Request, scc: Scc): Write
    {
      Replaced(KeyOf(cr, SccRole(scc)), op.role(cr, scc), false)
    }

    lemma RoleWritePlanned(cr: Request, o: Outcome, scc: Scc)
      ensures PlannedWrite(op, cr, o, SccRole(scc)) == RoleWrite(cr, scc)
    {}

    method WriteRole(cr: Request, scc: Scc)
      requires api.Valid()
      modifies api`objects, api`log, api`states
      ensures api.Wrote([RoleWrite(cr, scc)])
    {
      api.CreateOrUpdateReplaced(KeyOf(cr, SccRole(scc)), op.role(cr, scc), false);
    }

    /** The roles come first; writing them does not change what validation will find. */
    method ReconcileRoles(cr: CorootObject, random: Random)
      modifies api
      ensures api.Valid() && api.owner == cr.id && api.random == random && api.states[0] == old(api.objects)
      ensures var o := OutcomeAt(op, cr.id, cr.spec, old(api.objects), random);
              && OutcomeAt(op, cr.id, cr.spec, api.objects, random) == o
              && api.log == [RoleWrite(cr.id, Nonroot), RoleWrite(cr.id, Privileged)]
    {
      api.Begin(cr.id, random);
      WriteRole(cr.id, Nonroot);
      WriteRole(cr.id, Privileged);
      assert api.states[0] == old(api.objects) && api.states[2] == api.objects;
      RolesSettled(cr.id, cr.spec, api.states, api.log, random);
    }

    method Validate(cr: CorootObject) returns (envs: seq<EnvVar>, problems: seq<Problem>)
      requires api.Valid() && api.owner == cr.id
      modifies cr, api`objects, api`log, api`states
      ensures var o := OutcomeAt(op, cr.id, old(cr.spec), old(api.objects), api.random);
              && cr.spec == o.spec && envs == EnvList(EnvsOf(o.notes.referred)) && problems == o.notes.problems
              && api.Wrote([ApiKeyWrite(cr.id, o)])
    {
      var refs := new ConfigEnvs();
      var validator := new Validator(api, cr.id.ns, op.parses, refs);
      validator.ValidateCoroot(op, cr);
      envs := refs.List();
      problems := validator.problems;
      ListIsEnvList(envs, refs.entries);
    }

    /** What precedes the parts: the roles, then validation, which generates the API keys. */
    method Prepare(cr: CorootObject, random: Random) returns (envs: seq<EnvVar>, problems: seq<Problem>)
      modifies cr, api, this`done, this`base, this`origin
      ensures var o := OutcomeAt(op, cr.id, old(cr.spec), old(api.objects), random);
              && cr.spec == o.spec && envs == EnvList(EnvsOf(o.notes.referred)) && problems == o.notes.problems
              && base == [RoleWrite(cr.id, Nonroot), RoleWrite(cr.id, Privileged), ApiKeyWrite(cr.id, o)]
      ensures origin == old(api.objects) && api.random == random && done == [] && OnPlan(cr, envs)
    {
      origin := api.objects;
      ReconcileRoles(cr, random);
      envs, problems := Validate(cr);
      base, done := api.log, [];
    }

    /** The reconcile of an existing resource, once it is tracked; without a new status, the previous one stays. */
    method ReconcileFound(cr: CorootObject, ghost previous: Option<Status>, random: Random) returns (status: Option<Status>)
      modifies cr, api, this`done, this`base, this`origin, this`deploymentDeleted
      ensures Cluster(api.objects, deploymentDeleted, if status.Some? then status else previous)
           == Reconciled(op, cr.id, old(cr.spec), Cluster(old(api.objects), old(deploymentDeleted), previous), random)
      ensures status.Some? <==> !old(cr.spec).agentsOnly
    {
      OutcomeKeepsLayout(op, cr.id, cr.spec, api.objects, random);
      var problems := MakePlan(cr, random);
      if cr.spec.agentsOnly { return None; }
      if |problems| > 0 { return Some(Misconfigured(problems)); }
      return Some(Healthy);
    }

    /** Roles, validation and the parts: together, the writes of the plan. */
    method MakePlan(cr: CorootObject, random: Random) returns (problems: seq<Problem>)
      modifies cr, api, this`done, this`base, this`origin, this`deploymentDeleted
      ensures var o := OutcomeAt(op, cr.id, old(cr.spec), old(api.objects), random);
              && cr.spec == o.spec && problems == o.notes.problems
              && api.objects == ApplyAll(old(api.objects), Writes(op, cr.id, o, old(deploymentDeleted)), cr.id, random)
              && deploymentDeleted == (old(deploymentDeleted) || !o.spec.agentsOnly)
    {
      ghost var o, flag := OutcomeAt(op, cr.id, cr.spec, api.objects, random), deploymentDeleted;
      var envs;
      envs, problems := Prepare(cr, random);
      ReconcileParts(cr, envs);
      PlanDone(cr, o, flag, envs, random);
    }

    /** The roles written first leave the outcome of validation as it was. */
    lemma RolesSettled(cr: Request, spec: CorootSpec, states: seq<Objects>, log: seq<Write>, random: Random)
      requires IsHistory(states, log, cr, random)
      requires log == [RoleWrite(cr, Nonroot), RoleWrite(cr, Privileged)]
      ensures OutcomeAt(op, cr, spec, states[2], random) == OutcomeAt(op, cr, spec, states[0], random)
    {
      forall k: Key | k.kind.Secret? ensures At(states[2], k) == At(states[0], k) {
        ApplyAt(states[0], log[0], k, cr, random);
        ApplyAt(states[1], log[1], k, cr, random);
      }
      OutcomeIgnoresOthers(op, cr, spec, states[2], states[0], random);
    }

    lemma ListIsEnvList(list: seq<EnvVar>, entries: map<string, Selector>)
      requires ListsStrictly(list, entries)
      ensures list == EnvList(entries)
    {
      StrictListExists(entries);
      ListIsUnique(list, EnvList(entries), entries);
    }

    /** What was written is what was planned. */
    lemma LogIsPlan(cr: Request, o: Outcome, flag: bool, envs: seq<EnvVar>, log: seq<Write>)
      requires envs == EnvList(EnvsOf(o.notes.referred))
      requires |log| == |LaterParts(o.spec, flag)| + 3
      requires log[0] == RoleWrite(cr, Nonroot) && log[1] == RoleWrite(cr, Privileged) && log[2] == ApiKeyWrite(cr, o)
      requires AllFollow(log, 3, cr, o.spec, envs, LaterParts(o.spec, flag))
      ensures log == Writes(op, cr, o, flag)
    {
      var ws, parts := Writes(op, cr, o, flag), LaterParts(o.spec, flag);
      WritesByIndex(op, cr, o, flag);
      RoleWritePlanned(cr, o, Nonroot);
      RoleWritePlanned(cr, o, Privileged);
      forall i | 3 <= i < |log| ensures log[i] == ws[i] {
        var m := i - 3;
        assert Follows(log, 3 + m, cr, o.spec, envs, parts[m]) && ws[m + 3] == PlannedWrite(op, cr, o, parts[m]);
        FollowsPlan(cr, o, envs, log, i, parts[m]);
      }
    }

    lemma FollowsPlan(cr: Request, o: Outcome, envs: seq<EnvVar>, log: seq<Write>, at: nat, p: Part)
      requires envs == EnvList(EnvsOf(o.notes.referred)) && Follows(log, at, cr, o.spec, envs, p)
      ensures log[at] == PlannedWrite(op, cr, o, p)
    {}

    /** Once every part is written, the store is what the plan makes of it. */
    lemma PlanDone(cr: CorootObject, o: Outcome, flag: bool, envs: seq<EnvVar>, random: Random)
      requires OnPlan(cr, envs) && cr.spec == o.spec && envs == EnvList(EnvsOf(o.notes.referred))
      requires base == [RoleWrite(cr.id, Nonroot), RoleWrite(cr.id, Privileged), ApiKeyWrite(cr.id, o)]
      requires done == LaterParts(o.spec, flag) && api.random == random
      ensures api.objects == ApplyAll(origin, Writes(op, cr.id, o, flag), cr.id, random)
    {
      LogIsPlan(cr.id, o, flag, envs, api.log);
      HistoryApplies(api.states, api.log, cr.id, random);
    }

    /** The resource is gone: untrack it, and with the last one remove the roles. */
    method ReconcileGone(req: Request, random: Random)
      modifies api, this`instances
      ensures instances == old(instances) - {req}
      ensures api.objects == if instances == {}
                             then old(api.objects) - {KeyOf(req, AgentClusterRoleBinding), KeyOf(req, AgentClusterRole)}
                             else old(api.objects)
    {
      api.Begin(req, random);
      instances := instances - {req};
      if |instances| == 0 {
        api.DeleteObject(KeyOf(req, AgentClusterRoleBinding));
        api.DeleteObject(KeyOf(req, AgentClusterRole));
        DeletedTwice(api.states, api.log, KeyOf(req, AgentClusterRoleBinding), KeyOf(req, AgentClusterRole), req, random);
      }
    }

    lemma DeletedTwice(states: seq<Objects>, log: seq<Write>, a: Key, b: Key, owner: Request, random: Random)
      requires log == [Removed(a), Removed(b)] && IsHistory(states, log, owner, random)
      ensures states[2] == states[0] - {a, b}
    {
      assert states[1] == Apply(states[0], log[0], owner, random);
      assert states[2] == Apply(states[1], log[1], owner, random);
      ApplySingle(states[0], Removed(a), owner, random);
      ApplySingle(states[1], Removed(b), owner, random);
    }

    /** `readable`: whether asking for the resource gets an answer, which may be that it does not exist. */
    method Reconcile(req: Request, readable: bool, random: Random) returns (reply: Reply)
      modifies this, api
      ensures !readable ==>
        && reply == Failed && resources == old(resources) && instances == old(instances)
        && deploymentDeleted == old(deploymentDeleted) && api.objects == old(api.objects)
      ensures readable && req !in old(resources) ==>
        && reply == Done
        && resources == old(resources) && instances == old(instances) - {req} && deploymentDeleted == old(deploymentDeleted)
        && api.objects == if instances == {}
                          then old(api.objects) - {KeyOf(req, AgentClusterRoleBinding), KeyOf(req, AgentClusterRole)}
                          else old(api.objects)
      ensures readable && req in old(resources) ==>
        var r := old(resources)[req];
        var c := Reconciled(op, req, r.spec, Cluster(old(api.objects), old(deploymentDeleted), r.status), random);
        && reply == ReplyOf(r.spec.agentsOnly, c.status)
        && instances == old(instances) + {req} && api.objects == c.objects && deploymentDeleted == c.legacyDeleted
        && resources == old(resources)[req := r.(status := c.status)]
    {
      if !readable { return Failed; }
      if req !in resources {
        ReconcileGone(req, random);
        return Done;
      }
      instances := instances + {req};
      reply := ReconcileTracked(req, resources[req], random);
    }

    method ReconcileTracked(req: Request, resource: CorootResource, random: Random) returns (reply: Reply)
      requires req in resources && resources[req] == resource
      modifies api, this`done, this`base, this`origin, this`deploymentDeleted, this`resources
      ensures var c := Reconciled(op, req, resource.spec, Cluster(old(api.objects), old(deploymentDeleted), resource.status), random);
              && api.objects == c.objects && deploymentDeleted == c.legacyDeleted
              && resources == old(resources)[req := resource.(status := c.status)]
              && reply == ReplyOf(resource.spec.agentsOnly, c.status)
    {
      var cr := new CorootObject(req, resource.spec);
      var status := ReconcileFound(cr, resource.status, random);
      assert resource == resource.(status := resource.status);
      if status.None? { return Done; }
      resources := resources[req := resource.(status := status)];
      return if status.value.Misconfigured? then RequeueAfterMinutes(1) else Done;
    }
  }
}
