/**
  Repeated reconciles of an unchanged resource converge: from the second one on nothing changes any more.
*/
module Convergence {
  import opened Normalisation
  import opened ObjectNames
  import opened Options
  import opened Plan
  import opened Resource
  import opened Store

  datatype Status = Healthy | Misconfigured(problems: seq<Problem>)

  /** What reconciles of one resource read and write: the store, the clean-up flag and the resource's status. */
  datatype Cluster = Cluster(objects: Objects, legacyDeleted: bool, status: Option<Status>)

  function StatusOf(o: Outcome): Status
  {
    if o.notes.problems == [] then Healthy else Misconfigured(o.notes.problems)
  }

  /** One reconcile of an existing resource. */
  ghost function Reconciled(op: Operator, cr: Request, spec: CorootSpec, c: Cluster, random: Random): Cluster
  {
    var o := OutcomeAt(op, cr, spec, c.objects, random);
    Cluster(ApplyAll(c.objects, Writes(op, cr, o, c.legacyDeleted), cr, random),
            c.legacyDeleted || !spec.agentsOnly,
            if spec.agentsOnly then c.status else Some(StatusOf(o)))
  }

  /** Reconciles one after the other; each may generate different values. */
  ghost function ReconciledAll(op: Operator, cr: Request, spec: CorootSpec, c: Cluster, randoms: seq<Random>): Cluster
    decreases |randoms|
  {
    if randoms == [] then c
    else ReconciledAll(op, cr, spec, Reconciled(op, cr, spec, c, randoms[0]), randoms[1..])
  }

  // ---- the generated secrets depend on the resource alone ----

  lemma PartKeepsApiKeys(view: SecretView, subject: Subject, c: Option<Credential>, n: Notes)
    ensures ResolvePart(view, subject, c, n).1.apiKeys == n.apiKeys
  {}

  lemma IntegrationsKeepApiKeys(view: SecretView, i: Option<Integrations>, n: Notes)
    ensures ResolveIntegrations(view, i, n).1.apiKeys == n.apiKeys
  {
    if i.Some? {
      var i := i.value;
      var n1 := ResolvePart(view, SlackToken, i.slack, n).1;
      var n2 := ResolvePart(view, TeamsWebhook, i.teams, n1).1;
      var n3 := ResolvePart(view, PagerdutyKey, i.pagerduty, n2).1;
      PartKeepsApiKeys(view, SlackToken, i.slack, n);
      PartKeepsApiKeys(view, TeamsWebhook, i.teams, n1);
      PartKeepsApiKeys(view, PagerdutyKey, i.pagerduty, n2);
      PartKeepsApiKeys(view, OpsgenieKey, i.opsgenie, n3);
    }
  }

  lemma {:induction false} ApiKeysFollowNotes(ks: seq<Credential>, n: Notes, m: Notes)
    requires n.apiKeys == m.apiKeys
    ensures ResolveApiKeys(ks, n).1.apiKeys == ResolveApiKeys(ks, m).1.apiKeys
  {
    if ks != [] { ApiKeysFollowNotes(ks[..|ks| - 1], n, m); }
  }

  lemma {:induction false} ProjectApiKeys(v: SecretView, w: SecretView, ps: seq<Project>, n: Notes, m: Notes)
    requires n.apiKeys == m.apiKeys
    ensures ResolveProjects(v, ps, n).1.apiKeys == ResolveProjects(w, ps, m).1.apiKeys
  {
    if ps != [] {
      var front, last := ps[..|ps| - 1], ps[|ps| - 1];
      ProjectApiKeys(v, w, front, n, m);
      var n', m' := ResolveProjects(v, front, n).1, ResolveProjects(w, front, m).1;
      ApiKeysFollowNotes(last.apiKeys, n', m');
      IntegrationsKeepApiKeys(v, last.integrations, ResolveApiKeys(last.apiKeys, n').1);
      IntegrationsKeepApiKeys(w, last.integrations, ResolveApiKeys(last.apiKeys, m').1);
    }
  }

  lemma SsoKeepsApiKeys(view: SecretView, parses: string -> bool, sso: Option<Sso>, n: Notes)
    ensures ResolveSso(view, parses, sso, n).1.apiKeys == n.apiKeys
  {}

  lemma AiKeepsApiKeys(view: SecretView, ai: Option<Ai>, n: Notes)
    ensures ResolveAi(view, ai, n).1.apiKeys == n.apiKeys
  {
    if ai.Some? {
      PartKeepsApiKeys(view, AnthropicKey, ai.value.anthropic, n);
      PartKeepsApiKeys(view, OpenAIKey, ai.value.openai, n);
      PartKeepsApiKeys(view, OpenAICompatibleKey, ai.value.openaiCompatible, n);
    }
  }

  lemma EnterpriseKeepsApiKeys(view: SecretView, parses: string -> bool, o: Outcome)
    ensures NormaliseEnterprise(view, parses, o).notes.apiKeys == o.notes.apiKeys
  {
    if o.spec.enterprise.Some? {
      var n3 := CheckLicense(view, o.spec.enterprise.value.license, o.notes);
      var (sso, n4) := ResolveSso(view, parses, o.spec.sso, n3);
      SsoKeepsApiKeys(view, parses, o.spec.sso, n3);
      AiKeepsApiKeys(view, o.spec.ai, n4);
    }
  }

  lemma BasicApiKeysIndependent(v: SecretView, w: SecretView, spec: CorootSpec)
    ensures NormaliseBasics(v, spec).notes.apiKeys == NormaliseBasics(w, spec).notes.apiKeys
  {
    var tooMany := spec.replicas > 1 && spec.postgres.None?;
    var n0 := if tooMany then Noted(NO_NOTES, ReplicasNeedPostgres) else NO_NOTES;
    ProjectApiKeys(v, w, spec.projects,
                   ResolveAdminPassword(v, spec.adminPassword, n0).1, ResolveAdminPassword(w, spec.adminPassword, n0).1);
  }

  /** The API keys to generate do not depend on the secrets that exist. */
  function ApiKeysOf(spec: CorootSpec): map<string, seq<string>> { NormaliseBasics(map[], spec).notes.apiKeys }

  lemma OutcomeApiKeys(op: Operator, cr: Request, spec: CorootSpec, s: Objects, random: Random)
    ensures OutcomeAt(op, cr, spec, s, random).notes.apiKeys == ApiKeysOf(spec)
    ensures NormaliseBasics(SecretsOf(s, cr.ns), spec).notes.apiKeys == ApiKeysOf(spec)
  {
    var view := SecretsOf(s, cr.ns);
    BasicApiKeysIndependent(view, map[], spec);
    var later := SecretsOf(Apply(s, ApiKeyWrite(cr, NormaliseBasics(view, spec)), cr, random), cr.ns);
    EnterpriseKeepsApiKeys(later, op.parses, NormaliseBasics(view, spec));
  }

  /** Which parts are written is settled by what normalisation leaves alone. */
  lemma OutcomeKeepsLayout(op: Operator, cr: Request, spec: CorootSpec, s: Objects, random: Random)
    ensures var n := OutcomeAt(op, cr, spec, s, random).spec;
            && n.agentsOnly == spec.agentsOnly && n.externalClickhouse == spec.externalClickhouse
            && n.externalPrometheus == spec.externalPrometheus
  {}

  lemma PasswordPart(spec: CorootSpec, legacyDeleted: bool)
    ensures PasswordSecret in LaterParts(spec, legacyDeleted) <==> !spec.agentsOnly && !spec.externalClickhouse
  {
    var parts := ServerParts(spec, legacyDeleted);
    forall i | 0 <= i < |CorootParts(spec, legacyDeleted)|
      ensures !CorootParts(spec, legacyDeleted)[i].PasswordSecret?
    {}
    if !spec.agentsOnly && !spec.externalClickhouse {
      var before := CorootParts(spec, legacyDeleted) + (if spec.externalPrometheus then [] else PrometheusParts());
      assert parts == before + ClickhouseParts(spec);
      assert ClickhouseParts(spec)[0] == PasswordSecret;
      assert LaterParts(spec, legacyDeleted)[|AgentParts()| + |before|] == PasswordSecret;
    }
  }

  /** A write that generates secrets is planned by every reconcile of the specification. */
  lemma GeneratingWritesSame(op: Operator, cr: Request, o: Outcome, o': Outcome, f: bool, g: bool, i: nat)
      returns (j: nat)
    requires o.notes.apiKeys == o'.notes.apiKeys
    requires o.spec.agentsOnly == o'.spec.agentsOnly && o.spec.externalClickhouse == o'.spec.externalClickhouse
    requires i < |Writes(op, cr, o, f)| && Writes(op, cr, o, f)[i].Generated?
    ensures j < |Writes(op, cr, o', g)| && Writes(op, cr, o', g)[j] == Writes(op, cr, o, f)[i]
  {
    var p := WriteOrigin(op, cr, o, f, i);
    if p.Some? {
      GeneratingPart(op, cr, o, p.value);
      PasswordPart(o.spec, f);
      PasswordPart(o'.spec, g);
      j := PasswordWriteAt(op, cr, o', g);
    } else {
      WritesByIndex(op, cr, o', g);
      j := 2;
    }
  }

  lemma GeneratingPart(op: Operator, cr: Request, o: Outcome, p: Part)
    requires PlannedWrite(op, cr, o, p).Generated?
    ensures p == PasswordSecret && p !in ROLE_PARTS
    ensures PlannedWrite(op, cr, o, p) == Generated(cr.ns, map[NameOf(cr, PasswordSecret) := [PASSWORD_KEY]], false)
  {
    PasswordWrite(op, cr, o);
  }

  lemma PasswordWrite(op: Operator, cr: Request, o: Outcome)
    ensures PlannedWrite(op, cr, o, PasswordSecret) == Generated(cr.ns, map[NameOf(cr, PasswordSecret) := [PASSWORD_KEY]], false)
  {
    assert KeyOf(cr, PasswordSecret).name == NameOf(cr, PasswordSecret);
  }

  lemma PasswordWriteAt(op: Operator, cr: Request, o: Outcome, g: bool) returns (j: nat)
    requires PasswordSecret in LaterParts(o.spec, g)
    ensures j < |Writes(op, cr, o, g)|
    ensures Writes(op, cr, o, g)[j] == Generated(cr.ns, map[NameOf(cr, PasswordSecret) := [PASSWORD_KEY]], false)
  {
    j := PartWriteAt(op, cr, o, g, PasswordSecret);
    PasswordWrite(op, cr, o);
  }

  // ---- secrets settle after one reconcile ----

  /** Only generating writes touch secrets. */
  lemma SecretsOnlyGenerated(op: Operator, cr: Request, o: Outcome, f: bool, k: Key)
    requires k.kind.Secret?
    ensures OnlyGenerates(Writes(op, cr, o, f), k)
  {
    var ws := Writes(op, cr, o, f);
    forall i | 0 <= i < |ws| && Touches(ws[i], k) ensures ws[i].Generated? {
      var p := WriteOrigin(op, cr, o, f, i);
      if p.Some? { SecretWriteGenerates(op, cr, o, p.value, k); }
    }
  }

  /** After one reconcile, every secret that any reconcile of the specification generates is complete. */
  lemma SecretsComplete(op: Operator, cr: Request, spec: CorootSpec, c: Cluster, r: Random, o: Outcome, f: bool, k: Key)
    requires k.kind.Secret? && Touched(Writes(op, cr, o, f), k)
    requires o.notes.apiKeys == ApiKeysOf(spec)
    requires o.spec.agentsOnly == spec.agentsOnly && o.spec.externalClickhouse == spec.externalClickhouse
    ensures var c1 := Reconciled(op, cr, spec, c, r);
            k in c1.objects && AllFilled(Writes(op, cr, o, f), k, c1.objects[k].data)
  {
    var o1 := OutcomeAt(op, cr, spec, c.objects, r);
    OutcomeApiKeys(op, cr, spec, c.objects, r);
    OutcomeKeepsLayout(op, cr, spec, c.objects, r);
    GeneratingWritesIn(op, cr, o, o1, f, c.legacyDeleted);
    SecretsOnlyGenerated(op, cr, o1, c.legacyDeleted, k);
    SecretsOnlyGenerated(op, cr, o, f, k);
    FilledByPlan(c.objects, Writes(op, cr, o1, c.legacyDeleted), Writes(op, cr, o, f), k, cr, r);
  }

  lemma GeneratingWritesIn(op: Operator, cr: Request, o: Outcome, o': Outcome, f: bool, g: bool)
    requires o.notes.apiKeys == o'.notes.apiKeys
    requires o.spec.agentsOnly == o'.spec.agentsOnly && o.spec.externalClickhouse == o'.spec.externalClickhouse
    ensures forall i | 0 <= i < |Writes(op, cr, o, f)| && Writes(op, cr, o, f)[i].Generated? ::
              Writes(op, cr, o, f)[i] in Writes(op, cr, o', g)
  {
    forall i | 0 <= i < |Writes(op, cr, o, f)| && Writes(op, cr, o, f)[i].Generated?
      ensures Writes(op, cr, o, f)[i] in Writes(op, cr, o', g)
    {
      var j := GeneratingWritesSame(op, cr, o, o', f, g, i);
    }
  }

  /** Writes that include all generating ones of another list complete what that list generates. */
  lemma FilledByPlan(s: Objects, ws1: seq<Write>, ws: seq<Write>, k: Key, cr: Request, r: Random)
    requires OnlyGenerates(ws1, k) && OnlyGenerates(ws, k) && Touched(ws, k)
    requires forall i | 0 <= i < |ws| && ws[i].Generated? :: ws[i] in ws1
    ensures var t := ApplyAll(s, ws1, cr, r); k in t && AllFilled(ws, k, t[k].data)
  {
    var i :| 0 <= i < |ws| && Touches(ws[i], k);
    assert ws[i] in ws1 && Touched(ws1, k);
    ApplyAllAt(s, ws1, k, cr, r);
    GeneratesFill(ws1, k, At(s, k), cr, r);
    FilledByOthers(ws, ws1, k, ApplyAll(s, ws1, cr, r)[k].data);
  }

  /** A further reconcile leaves the secrets as they are. */
  lemma SecretsStay(op: Operator, cr: Request, spec: CorootSpec, c: Cluster, r1: Random, r2: Random, k: Key)
    requires k.kind.Secret?
    ensures var c1 := Reconciled(op, cr, spec, c, r1);
            var c2 := Reconciled(op, cr, spec, c1, r2);
            && (k in c1.objects <==> k in c2.objects)
            && (k in c1.objects ==> c1.objects[k].data == c2.objects[k].data)
  {
    var c1 := Reconciled(op, cr, spec, c, r1);
    var o := OutcomeAt(op, cr, spec, c1.objects, r2);
    var ws := Writes(op, cr, o, c1.legacyDeleted);
    ApplyAllAt(c1.objects, ws, k, cr, r2);
    if Touched(ws, k) {
      OutcomeApiKeys(op, cr, spec, c1.objects, r2);
      OutcomeKeepsLayout(op, cr, spec, c1.objects, r2);
      SecretsComplete(op, cr, spec, c, r1, o, c1.legacyDeleted, k);
      SecretsOnlyGenerated(op, cr, o, c1.legacyDeleted, k);
      FullSecretsStay(ws, k, c1.objects[k], cr, r2);
    } else {
      UntouchedStays(ws, k, At(c1.objects, k), cr, r2);
    }
  }

  lemma ViewSettles(op: Operator, cr: Request, spec: CorootSpec, c: Cluster, r1: Random, r2: Random)
    ensures var c1 := Reconciled(op, cr, spec, c, r1);
            SecretsOf(Reconciled(op, cr, spec, c1, r2).objects, cr.ns) == SecretsOf(c1.objects, cr.ns)
  {
    var c1 := Reconciled(op, cr, spec, c, r1);
    var c2 := Reconciled(op, cr, spec, c1, r2);
    forall k: Key | k.kind.Secret?
      ensures (k in c1.objects <==> k in c2.objects) && (k in c1.objects ==> c1.objects[k].data == c2.objects[k].data)
    {
      SecretsStay(op, cr, spec, c, r1, r2, k);
    }
    SameSecretsSameView(c2.objects, c1.objects, cr.ns);
  }

  lemma SameSecretsSameView(s: Objects, t: Objects, ns: string)
    requires forall k: Key | k.kind.Secret? :: (k in s <==> k in t) && (k in s ==> s[k].data == t[k].data)
    ensures SecretsOf(s, ns) == SecretsOf(t, ns)
  {
    forall name ensures (name in SecretsOf(s, ns) <==> name in SecretsOf(t, ns))
                     && (name in SecretsOf(s, ns) ==> SecretsOf(s, ns)[name] == SecretsOf(t, ns)[name])
    {
      SecretsAt(s, ns, name);
      SecretsAt(t, ns, name);
    }
  }

  /** Normalisation sees of the store nothing but secrets. */
  lemma OutcomeIgnoresOthers(op: Operator, cr: Request, spec: CorootSpec, s: Objects, t: Objects, random: Random)
    requires forall k: Key | k.kind.Secret? :: At(s, k) == At(t, k)
    ensures OutcomeAt(op, cr, spec, s, random) == OutcomeAt(op, cr, spec, t, random)
  {
    SameDataSameView(s, t, cr.ns);
    var w := ApiKeyWrite(cr, NormaliseBasics(SecretsOf(s, cr.ns), spec));
    forall k: Key | k.kind.Secret? ensures At(Apply(s, w, cr, random), k) == At(Apply(t, w, cr, random), k) {
      ApplyAt(s, w, k, cr, random);
      ApplyAt(t, w, k, cr, random);
    }
    SameDataSameView(Apply(s, w, cr, random), Apply(t, w, cr, random), cr.ns);
  }

  lemma SameDataSameView(s: Objects, t: Objects, ns: string)
    requires forall k: Key | k.kind.Secret? :: At(s, k) == At(t, k)
    ensures SecretsOf(s, ns) == SecretsOf(t, ns)
  {
    forall k: Key | k.kind.Secret? ensures (k in s <==> k in t) && (k in s ==> s[k].data == t[k].data) {
      assert At(s, k) == At(t, k);
    }
    SameSecretsSameView(s, t, ns);
  }

  /** After one reconcile, the API keys of the specification are all there. */
  lemma ApiKeysFilled(op: Operator, cr: Request, spec: CorootSpec, c: Cluster, r: Random, k: Key)
    requires Touches(Generated(cr.ns, ApiKeysOf(spec), true), k)
    ensures var s := Reconciled(op, cr, spec, c, r).objects;
            k in s && forall key | key in ApiKeysOf(spec)[k.name] :: key in s[k].data
  {
    var o := OutcomeAt(op, cr, spec, c.objects, r);
    OutcomeApiKeys(op, cr, spec, c.objects, r);
    OutcomeKeepsLayout(op, cr, spec, c.objects, r);
    WritesByIndex(op, cr, o, false);
    assert Touched(Writes(op, cr, o, false), k);
    SecretsComplete(op, cr, spec, c, r, o, false, k);
  }

  /** After one reconcile, generating the API keys again adds nothing to any secret. */
  lemma GenerateAgain(op: Operator, cr: Request, spec: CorootSpec, c: Cluster, r1: Random, r2: Random, name: string)
    ensures var s := Reconciled(op, cr, spec, c, r1).objects;
            var view := SecretsOf(s, cr.ns);
            var later := SecretsOf(Apply(s, Generated(cr.ns, ApiKeysOf(spec), true), cr, r2), cr.ns);
            (name in view <==> name in later) && (name in view ==> view[name] == later[name])
  {
    var s := Reconciled(op, cr, spec, c, r1).objects;
    var k := Key(Secret, cr.ns, name);
    var w := Generated(cr.ns, ApiKeysOf(spec), true);
    if Touches(w, k) { ApiKeysFilled(op, cr, spec, c, r1, k); }
    FillsNothing(s, w, name, cr, r2);
  }

  lemma FillsNothing(s: Objects, w: Write, name: string, cr: Request, r: Random)
    requires w.Generated? && w.ns == cr.ns
    requires var k := Key(Secret, cr.ns, name); Touches(w, k) ==> k in s && forall key | key in w.secrets[name] :: key in s[k].data
    ensures var view, later := SecretsOf(s, cr.ns), SecretsOf(Apply(s, w, cr, r), cr.ns);
            (name in view <==> name in later) && (name in view ==> view[name] == later[name])
  {
    var k := Key(Secret, cr.ns, name);
    ApplyAt(s, w, k, cr, r);
    SecretsAt(s, cr.ns, name);
    SecretsAt(Apply(s, w, cr, r), cr.ns, name);
    if Touches(w, k) { FilledAlready(s[k].data, name, w.secrets[name], r); }
  }

  lemma FilledAlready(data: map<string, string>, name: string, keys: seq<string>, r: Random)
    requires forall key | key in keys :: key in data
    ensures Filled(data, name, keys, r) == data
  {}

  /** After one reconcile, the enterprise part sees the same secrets as the rest. */
  lemma NothingToGenerate(op: Operator, cr: Request, spec: CorootSpec, c: Cluster, r1: Random, r2: Random)
    ensures var s := Reconciled(op, cr, spec, c, r1).objects;
            OutcomeAt(op, cr, spec, s, r2) == Normalise(SecretsOf(s, cr.ns), SecretsOf(s, cr.ns), op.parses, spec)
  {
    var s := Reconciled(op, cr, spec, c, r1).objects;
    GeneratedViewSame(op, cr, spec, c, r1, r2);
    OutcomeApiKeys(op, cr, spec, s, r2);
  }

  lemma GeneratedViewSame(op: Operator, cr: Request, spec: CorootSpec, c: Cluster, r1: Random, r2: Random)
    ensures var s := Reconciled(op, cr, spec, c, r1).objects;
            SecretsOf(Apply(s, Generated(cr.ns, ApiKeysOf(spec), true), cr, r2), cr.ns) == SecretsOf(s, cr.ns)
  {
    var s := Reconciled(op, cr, spec, c, r1).objects;
    var later := Apply(s, Generated(cr.ns, ApiKeysOf(spec), true), cr, r2);
    forall name
      ensures var v, w := SecretsOf(s, cr.ns), SecretsOf(later, cr.ns);
              (name in v <==> name in w) && (name in v ==> v[name] == w[name])
    {
      GenerateAgain(op, cr, spec, c, r1, r2, name);
    }
    SameViews(SecretsOf(later, cr.ns), SecretsOf(s, cr.ns));
  }

  lemma SameViews(v: SecretView, w: SecretView)
    requires forall name :: (name in v <==> name in w) && (name in w ==> v[name] == w[name])
    ensures v == w
  {}

  // ---- convergence ----

  /**
    The third reconcile changes nothing, for any specification, any starting store and any generated values.
  */
  lemma ThirdReconcileChangesNothing(op: Operator, cr: Request, spec: CorootSpec, c: Cluster, r1: Random, r2: Random, r3: Random)
    ensures var c2 := Reconciled(op, cr, spec, Reconciled(op, cr, spec, c, r1), r2);
            Reconciled(op, cr, spec, c2, r3) == c2
  {
    var c1 := Reconciled(op, cr, spec, c, r1);
    var c2 := Reconciled(op, cr, spec, c1, r2);
    ViewSettles(op, cr, spec, c, r1, r2);
    NothingToGenerate(op, cr, spec, c, r1, r2);
    NothingToGenerate(op, cr, spec, c1, r2, r3);
    var o := OutcomeAt(op, cr, spec, c1.objects, r2);
    assert OutcomeAt(op, cr, spec, c2.objects, r3) == o;
    OutcomeKeepsLayout(op, cr, spec, c1.objects, r2);
    var ws := Writes(op, cr, o, c1.legacyDeleted);
    assert Writes(op, cr, o, c2.legacyDeleted) == ws;
    WritesCoherent(op, cr, o, c1.legacyDeleted);
    ApplyAllTwice(c1.objects, ws, cr, r2, r3);
  }

  ghost predicate IsFixed(op: Operator, cr: Request, spec: CorootSpec, c: Cluster)
  {
    forall r: Random :: Reconciled(op, cr, spec, c, r) == c
  }

  lemma {:induction false} FixedStays(op: Operator, cr: Request, spec: CorootSpec, c: Cluster, randoms: seq<Random>)
    requires IsFixed(op, cr, spec, c)
    ensures ReconciledAll(op, cr, spec, c, randoms) == c
    decreases |randoms|
  {
    if randoms != [] {
      assert Reconciled(op, cr, spec, c, randoms[0]) == c;
      FixedStays(op, cr, spec, c, randoms[1..]);
    }
  }

  lemma TwoReconcilesFix(op: Operator, cr: Request, spec: CorootSpec, c: Cluster, r1: Random, r2: Random)
    ensures IsFixed(op, cr, spec, Reconciled(op, cr, spec, Reconciled(op, cr, spec, c, r1), r2))
  {
    var c2 := Reconciled(op, cr, spec, Reconciled(op, cr, spec, c, r1), r2);
    forall r: Random ensures Reconciled(op, cr, spec, c2, r) == c2 {
      ThirdReconcileChangesNothing(op, cr, spec, c, r1, r2, r);
    }
  }

  /** From the second completed reconcile on, every further one leaves the whole cluster as it is. */
  lemma ReconcilesConverge(op: Operator, cr: Request, spec: CorootSpec, c: Cluster, r1: Random, r2: Random, more: seq<Random>)
    ensures ReconciledAll(op, cr, spec, c, [r1, r2] + more) == ReconciledAll(op, cr, spec, c, [r1, r2])
  {
    var c1 := Reconciled(op, cr, spec, c, r1);
    var c2 := Reconciled(op, cr, spec, c1, r2);
    TwoReconcilesFix(op, cr, spec, c, r1, r2);
    FirstTwo(op, cr, spec, c, r1, r2, more);
    FirstTwo(op, cr, spec, c, r1, r2, []);
    FixedStays(op, cr, spec, c2, more);
    assert [r1, r2] + [] == [r1, r2];
  }

  lemma FirstTwo(op: Operator, cr: Request, spec: CorootSpec, c: Cluster, r1: Random, r2: Random, more: seq<Random>)
    ensures ReconciledAll(op, cr, spec, c, [r1, r2] + more)
         == ReconciledAll(op, cr, spec, Reconciled(op, cr, spec, Reconciled(op, cr, spec, c, r1), r2), more)
  {
    var all := [r1, r2] + more;
    assert all[1..] == [r2] + more && ([r2] + more)[1..] == more;
  }
}
