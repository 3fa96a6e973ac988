/**
  `validateCoroot` as it runs: it rewrites the resource in place, fills the map of references, collects problems,
  and generates the missing API keys on the way.
*/
module Validation {
  import opened ApiServer
  import opened ConfigEnvs
  import opened Convergence
  import opened Normalisation
  import opened ObjectNames
  import opened Options
  import opened Plan
  import opened Resource
  import opened Store

  /** The resource object of one reconcile. */
  class CorootObject {
    const id: Request
    var spec: CorootSpec

    constructor (id: Request, spec: CorootSpec)
      ensures this.id == id && this.spec == spec
    {
      this.id, this.spec := id, spec;
    }
  }

  class Validator {
    const api: ApiServer
    const ns: string
    const parses: string -> bool
    const envs: ConfigEnvs
    var apiKeys: map<string, seq<string>>
    var problems: seq<Problem>
    ghost var referred: seq<Selector>

    ghost predicate Valid()
      reads this, envs
    {
      envs.entries == EnvsOf(referred)
    }

    /** What has accumulated so far. */
    ghost function Now(): Notes
      reads this
    {
      Notes(referred, apiKeys, problems)
    }

    /** The secrets that can be looked up now. */
    ghost function View(): SecretView
      reads this, api
    {
      SecretsOf(api.objects, ns)
    }

    constructor (api: ApiServer, ns: string, parses: string -> bool, envs: ConfigEnvs)
      requires envs.entries == map[]
      ensures Valid() && Now() == NO_NOTES
      ensures this.api == api && this.ns == ns && this.parses == parses && this.envs == envs
    {
      this.api, this.ns, this.parses, this.envs := api, ns, parses, envs;
      apiKeys, problems, referred := map[], [], [];
    }

    method LogErr(p: Problem)
      requires Valid()
      modifies this
      ensures Valid() && Now() == Noted(old(Now()), p)
    {
      problems := problems + [p];
    }

    method LookUp(s: Selector) returns (r: Result<string, Missing>)
      ensures r == GetSecret(View(), s)
    {
      SecretsAt(api.objects, ns, s.name);
      var key := Key(Secret, ns, s.name);
      if key !in api.objects { return Err(NoSecret); }
      var data := api.objects[key].data;
      if s.key !in data { return Err(NoKey); }
      return Ok(data[s.key]);
    }

    method Refer(s: Selector) returns (reference: string)
      requires Valid()
      modifies this, envs
      ensures Valid() && Now() == Referring(old(Now()), s) && reference == Reference(EnvName(s))
    {
      reference := envs.Add(s);
      assert (referred + [s])[..|referred|] == referred;
      referred := referred + [s];
    }

    method ResolveCredential(subject: Subject, c: Credential) returns (resolved: Credential)
      requires Valid()
      modifies this, envs
      ensures Valid() && (resolved, Now()) == Resolve(View(), subject, c, old(Now()))
    {
      resolved := c;
      if c.secret.Some? {
        var found := LookUp(c.secret.value);
        if found.Err? {
          LogErr(SecretUnavailable(subject, c.secret.value, found.error));
        } else {
          var reference := Refer(c.secret.value);
          resolved := resolved.(value := reference);
        }
        resolved := resolved.(secret := None);
      }
    }

    method ResolveOptional(subject: Subject, c: Option<Credential>) returns (resolved: Option<Credential>)
      requires Valid()
      modifies this, envs
      ensures Valid() && (resolved, Now()) == ResolvePart(View(), subject, c, old(Now()))
    {
      resolved := None;
      if c.Some? {
        var r := ResolveCredential(subject, c.value);
        if r.value != "" { resolved := Some(r); }
      }
    }

    method ResolveWebhookPart(w: Option<Webhook>) returns (resolved: Option<Webhook>)
      requires Valid()
      modifies this, envs
      ensures Valid() && (resolved, Now()) == ResolveWebhook(View(), w, old(Now()))
    {
      resolved := w;
      if w.Some? {
        var webhook := w.value;
        if webhook.basicAuth.Some? {
          var basicAuth := webhook.basicAuth.value;
          var password := ResolveCredential(WebhookPassword, Credential(basicAuth.password, basicAuth.passwordSecret, ""));
          basicAuth := basicAuth.(password := password.value, passwordSecret := password.secret);
          webhook := webhook.(basicAuth := Some(basicAuth));
          if basicAuth.username == "" || basicAuth.password == "" { webhook := webhook.(basicAuth := None); }
        }
        if webhook.incidents && webhook.incidentTemplate == "" { webhook := webhook.(incidents := false); }
        if webhook.deployments && webhook.deploymentTemplate == "" { webhook := webhook.(deployments := false); }
        resolved := if webhook.url == "" then None else Some(webhook);
      }
    }

    method ResolveIntegrationParts(i: Option<Integrations>) returns (resolved: Option<Integrations>)
      requires Valid()
      modifies this, envs
      ensures Valid() && (resolved, Now()) == ResolveIntegrations(View(), i, old(Now()))
    {
      resolved := i;
      if i.Some? {
        var parts := i.value;
        var slack := ResolveOptional(SlackToken, parts.slack);
        var teams := ResolveOptional(TeamsWebhook, parts.teams);
        var pagerduty := ResolveOptional(PagerdutyKey, parts.pagerduty);
        var opsgenie := ResolveOptional(OpsgenieKey, parts.opsgenie);
        var webhook := ResolveWebhookPart(parts.webhook);
        resolved := Some(Integrations(parts.baseUrl, slack, teams, pagerduty, opsgenie, webhook));
      }
    }

    method ResolveKey(k: Credential) returns (resolved: Credential)
      requires Valid()
      modifies this, envs
      ensures Valid() && (resolved, Now()) == ResolveApiKey(k, old(Now()))
    {
      resolved := k;
      if k.secret.Some? {
        var s := k.secret.value;
        apiKeys := apiKeys[s.name := (if s.name in apiKeys then apiKeys[s.name] else []) + [s.key]];
        var reference := Refer(s);
        resolved := resolved.(value := reference, secret := None);
      }
    }

    method ResolveKeys(ks: seq<Credential>) returns (resolved: seq<Credential>)
      requires Valid()
      modifies this, envs
      ensures Valid() && (resolved, Now()) == ResolveApiKeys(ks, old(Now()))
    {
      resolved := ks;
      for i := 0 to |ks|
        invariant Valid() && |resolved| == |ks| && forall j | i <= j < |ks| :: resolved[j] == ks[j]
        invariant (resolved[..i], Now()) == ResolveApiKeys(ks[..i], old(Now()))
      {
        var k := ResolveKey(ks[i]);
        assert ks[..i + 1][..i] == ks[..i];
        resolved := resolved[i := k];
        assert resolved[..i + 1] == resolved[..i] + [k];
      }
      assert resolved[..|ks|] == resolved && ks[..|ks|] == ks;
    }

    method ResolveOne(p: Project) returns (resolved: Project)
      requires Valid()
      modifies this, envs
      ensures Valid() && (resolved, Now()) == ResolveProject(View(), p, old(Now()))
    {
      var keys := ResolveKeys(p.apiKeys);
      var integrations := ResolveIntegrationParts(p.integrations);
      resolved := p.(apiKeys := keys, integrations := integrations);
    }

    method ResolveAll(cr: CorootObject)
      requires Valid()
      modifies cr, this, envs
      ensures Valid()
      ensures var (projects, n) := ResolveProjects(View(), old(cr.spec.projects), old(Now()));
              cr.spec == old(cr.spec).(projects := projects) && Now() == n
    {
      var ps := cr.spec.projects;
      ghost var start := Now();
      for i := 0 to |ps|
        invariant Valid() && cr.spec == old(cr.spec).(projects := cr.spec.projects)
        invariant |cr.spec.projects| == |ps| && forall j | i <= j < |ps| :: cr.spec.projects[j] == ps[j]
        invariant (cr.spec.projects[..i], Now()) == ResolveProjects(View(), ps[..i], start)
      {
        ResolveAt(cr, ps, i, start);
      }
      assert cr.spec.projects[..|ps|] == cr.spec.projects && ps[..|ps|] == ps;
    }

    method ResolveAt(cr: CorootObject, ghost ps: seq<Project>, i: nat, ghost start: Notes)
      requires Valid() && i < |ps| == |cr.spec.projects| && cr.spec.projects[i] == ps[i]
      requires (cr.spec.projects[..i], Now()) == ResolveProjects(View(), ps[..i], start)
      modifies cr, this, envs
      ensures Valid()
      ensures |cr.spec.projects| == |ps|
      ensures cr.spec == old(cr.spec).(projects := old(cr.spec.projects)[i := cr.spec.projects[i]])
      ensures (cr.spec.projects[..i + 1], Now()) == ResolveProjects(View(), ps[..i + 1], start)
    {
      ghost var done := cr.spec.projects;
      var p := ResolveOne(cr.spec.projects[i]);
      cr.spec := cr.spec.(projects := cr.spec.projects[i := p]);
      assert ps[..i + 1][..i] == ps[..i];
      assert cr.spec.projects[..i + 1] == done[..i] + [p];
    }

    method ResolveBasics(cr: CorootObject)
      requires Valid() && Now() == NO_NOTES
      modifies cr, this, envs
      ensures Valid() && Outcome(cr.spec, Now()) == NormaliseBasics(View(), old(cr.spec))
    {
      if cr.spec.replicas > 1 && cr.spec.postgres.None? {
        LogErr(ReplicasNeedPostgres);
        cr.spec := cr.spec.(replicas := 1);
      }
      if cr.spec.servicePort == 0 {
        cr.spec := cr.spec.(servicePort := 8080);
      }
      ResolveAdmin(cr);
      ResolveAll(cr);
    }

    method ResolveAdmin(cr: CorootObject)
      requires Valid()
      modifies cr, this
      ensures Valid()
      ensures var (admin, n) := ResolveAdminPassword(View(), old(cr.spec.adminPassword), old(Now()));
              cr.spec == old(cr.spec).(adminPassword := admin) && Now() == n
    {
      if cr.spec.adminPassword.secret.Some? {
        var s := cr.spec.adminPassword.secret.value;
        var found := LookUp(s);
        if found.Err? {
          LogErr(SecretUnavailable(AdminPassword, s, found.error));
          cr.spec := cr.spec.(adminPassword := cr.spec.adminPassword.(secret := None, value := ""));
        }
      }
    }

    method ResolveSamlPart(saml: Saml) returns (resolved: Saml)
      requires Valid()
      modifies this, envs
      ensures Valid() && (resolved, Now()) == ResolveSaml(View(), parses, saml, old(Now()))
    {
      resolved := saml;
      var metadata := saml.metadata;
      if saml.metadataSecret.Some? {
        var s := saml.metadataSecret.value;
        var found := LookUp(s);
        if found.Err? {
          metadata := "";
          LogErr(SecretUnavailable(SamlMetadata, s, found.error));
        } else {
          metadata := found.value;
          var reference := Refer(s);
          resolved := resolved.(metadata := reference);
        }
        resolved := resolved.(metadataSecret := None);
      }
      if metadata != "" && !parses(metadata) {
        LogErr(InvalidSamlMetadata);
        resolved := resolved.(metadata := "");
      }
    }

    method ResolveSingleSignOn(cr: CorootObject)
      requires Valid()
      modifies cr, this, envs
      ensures Valid()
      ensures var (sso, n) := ResolveSso(View(), parses, old(cr.spec.sso), old(Now()));
              cr.spec == old(cr.spec).(sso := sso) && Now() == n
    {
      if cr.spec.sso.None? || !cr.spec.sso.value.enabled { return; }
      var sso := cr.spec.sso.value;
      if sso.saml.Some? {
        var saml := ResolveSamlPart(sso.saml.value);
        sso := sso.(saml := Some(saml));
      }
      if sso.saml.None? || sso.saml.value.metadata == "" {
        sso := sso.(enabled := false);
      }
      cr.spec := cr.spec.(sso := Some(sso));
    }

    method ResolveAiProvider(cr: CorootObject)
      requires Valid()
      modifies cr, this, envs
      ensures Valid()
      ensures var (ai, n) := ResolveAi(View(), old(cr.spec.ai), old(Now()));
              cr.spec == old(cr.spec).(ai := ai) && Now() == n
    {
      if cr.spec.ai.None? || cr.spec.ai.value.provider == "" { return; }
      var ai := cr.spec.ai.value;
      if ai.provider == "anthropic" {
        var c := ResolveOptional(AnthropicKey, ai.anthropic);
        ai := ai.(anthropic := c);
        if c.None? { ai := ai.(provider := ""); }
      } else if ai.provider == "openai" {
        var c := ResolveOptional(OpenAIKey, ai.openai);
        ai := ai.(openai := c);
        if c.None? { ai := ai.(provider := ""); }
      } else if ai.provider == "openai_compatible" {
        var c := ResolveOptional(OpenAICompatibleKey, ai.openaiCompatible);
        ai := ai.(openaiCompatible := c);
        if c.None? { ai := ai.(provider := ""); }
      } else {
        LogErr(UnknownAiProvider(ai.provider));
        ai := ai.(provider := "");
      }
      cr.spec := cr.spec.(ai := Some(ai));
    }

    method ResolveEnterprise(cr: CorootObject)
      requires Valid()
      modifies cr, this, envs
      ensures Valid() && Outcome(cr.spec, Now()) == NormaliseEnterprise(View(), parses, Outcome(old(cr.spec), old(Now())))
    {
      if cr.spec.enterprise.Some? {
        var license := cr.spec.enterprise.value.license;
        if license.secret.Some? {
          var found := LookUp(license.secret.value);
          if found.Err? { LogErr(SecretUnavailable(LicenseKey, license.secret.value, found.error)); }
        }
        ResolveSingleSignOn(cr);
        ResolveAiProvider(cr);
      }
    }

    /** The resource ends up normalised, and the missing API keys are generated. */
    method ValidateCoroot(op: Operator, cr: CorootObject)
      requires Valid() && Now() == NO_NOTES && api.Valid() && cr.id == api.owner && ns == cr.id.ns && parses == op.parses
      modifies cr, this, envs, api`objects, api`log, api`states
      ensures Valid() && Outcome(cr.spec, Now()) == OutcomeAt(op, cr.id, old(cr.spec), old(api.objects), api.random)
      ensures api.Wrote([ApiKeyWrite(cr.id, Outcome(cr.spec, Now()))])
    {
      ResolveBasics(cr);
      ghost var basics, n := Outcome(cr.spec, Now()), |api.log|;
      api.GenerateSecrets(ns, apiKeys, true);
      assert api.states[n + 1] == Apply(api.states[n], api.log[n], api.owner, api.random);
      ResolveEnterprise(cr);
      EnterpriseKeepsApiKeys(View(), parses, basics);
    }
  }
}
