/**
  Which secrets validation looks up, and what depends on the answers: everything it makes of a specification depends
  on nothing else, and an answer that a secret is missing is always reported.
*/
module Consultation {
  import opened Normalisation
  import opened Options
  import opened Resource

  /** Selectors looked up before API keys are generated. */
  function BasicConsulted(spec: CorootSpec): set<Selector>
  {
    Chosen(spec.adminPassword.secret)
    + set p, s | p in spec.projects && p.integrations.Some? && s in IntegrationSelectors(p.integrations.value) :: s
  }

  function SamlConsulted(sso: Option<Sso>): set<Selector>
  {
    if sso.Some? && sso.value.enabled && sso.value.saml.Some? then Chosen(sso.value.saml.value.metadataSecret) else {}
  }

  /** Only the chosen provider's key is looked up. */
  function AiConsulted(ai: Option<Ai>): set<Selector>
  {
    if ai.Some? then PartSelectors(KeyOfProvider(ai.value, ai.value.provider)) else {}
  }

  /** Selectors looked up afterwards, for the enterprise edition. */
  function EnterpriseConsulted(spec: CorootSpec): set<Selector>
  {
    match spec.enterprise
    case None => {}
    case Some(ee) => Chosen(ee.license.secret) + SamlConsulted(spec.sso) + AiConsulted(spec.ai)
  }

  // ---- nothing else matters ----

  ghost predicate Agree(v: SecretView, w: SecretView, selectors: set<Selector>)
  {
    forall s | s in selectors :: GetSecret(v, s) == GetSecret(w, s)
  }

  lemma PartAgrees(v: SecretView, w: SecretView, subject: Subject, c: Option<Credential>, n: Notes, all: set<Selector>)
    requires Agree(v, w, all) && PartSelectors(c) <= all
    ensures ResolvePart(v, subject, c, n) == ResolvePart(w, subject, c, n)
  {
    if c.Some? && c.value.secret.Some? { assert c.value.secret.value in PartSelectors(c); }
  }

  lemma WebhookAgrees(v: SecretView, w: SecretView, h: Option<Webhook>, n: Notes, all: set<Selector>)
    requires Agree(v, w, all)
    requires h.Some? && h.value.basicAuth.Some? ==> Chosen(h.value.basicAuth.value.passwordSecret) <= all
    ensures ResolveWebhook(v, h, n) == ResolveWebhook(w, h, n)
  {
    if h.Some? && h.value.basicAuth.Some? && h.value.basicAuth.value.passwordSecret.Some? {
      assert h.value.basicAuth.value.passwordSecret.value in all;
    }
  }

  lemma IntegrationsAgree(v: SecretView, w: SecretView, i: Option<Integrations>, n: Notes, all: set<Selector>)
    requires Agree(v, w, all) && (i.Some? ==> IntegrationSelectors(i.value) <= all)
    ensures ResolveIntegrations(v, i, n) == ResolveIntegrations(w, i, n)
  {
    if i.Some? {
      var i := i.value;
      PartAgrees(v, w, SlackToken, i.slack, n, all);
      var n1 := ResolvePart(v, SlackToken, i.slack, n).1;
      PartAgrees(v, w, TeamsWebhook, i.teams, n1, all);
      var n2 := ResolvePart(v, TeamsWebhook, i.teams, n1).1;
      PartAgrees(v, w, PagerdutyKey, i.pagerduty, n2, all);
      var n3 := ResolvePart(v, PagerdutyKey, i.pagerduty, n2).1;
      PartAgrees(v, w, OpsgenieKey, i.opsgenie, n3, all);
      var n4 := ResolvePart(v, OpsgenieKey, i.opsgenie, n3).1;
      WebhookAgrees(v, w, i.webhook, n4, all);
    }
  }

  lemma {:induction false} ProjectsAgree(v: SecretView, w: SecretView, ps: seq<Project>, n: Notes, all: set<Selector>)
    requires Agree(v, w, all) && forall p | p in ps && p.integrations.Some? :: IntegrationSelectors(p.integrations.value) <= all
    ensures ResolveProjects(v, ps, n) == ResolveProjects(w, ps, n)
  {
    if ps != [] {
      var front, last := ps[..|ps| - 1], ps[|ps| - 1];
      ProjectsAgree(v, w, front, n, all);
      var n' := ResolveProjects(v, front, n).1;
      assert last in ps;
      IntegrationsAgree(v, w, last.integrations, ResolveApiKeys(last.apiKeys, n').1, all);
    }
  }

  lemma SamlAgrees(v: SecretView, w: SecretView, parses: string -> bool, sso: Option<Sso>, n: Notes, all: set<Selector>)
    requires Agree(v, w, all) && SamlConsulted(sso) <= all
    ensures ResolveSso(v, parses, sso, n) == ResolveSso(w, parses, sso, n)
  {
    if SamlConsulted(sso) != {} { assert sso.value.saml.value.metadataSecret.value in SamlConsulted(sso); }
  }

  lemma AiAgrees(v: SecretView, w: SecretView, ai: Option<Ai>, n: Notes, all: set<Selector>)
    requires Agree(v, w, all) && AiConsulted(ai) <= all
    ensures ResolveAi(v, ai, n) == ResolveAi(w, ai, n)
  {
    if ai.Some? {
      var chosen := ai.value.provider;
      PartAgrees(v, w, SubjectOfProvider(chosen), KeyOfProvider(ai.value, chosen), n, all);
    }
  }

  lemma BasicsAgree(v: SecretView, w: SecretView, spec: CorootSpec)
    requires Agree(v, w, BasicConsulted(spec))
    ensures NormaliseBasics(v, spec) == NormaliseBasics(w, spec)
  {
    var all := BasicConsulted(spec);
    var tooMany := spec.replicas > 1 && spec.postgres.None?;
    var n0 := if tooMany then Noted(NO_NOTES, ReplicasNeedPostgres) else NO_NOTES;
    if spec.adminPassword.secret.Some? { assert spec.adminPassword.secret.value in all; }
    assert ResolveAdminPassword(v, spec.adminPassword, n0) == ResolveAdminPassword(w, spec.adminPassword, n0);
    forall p | p in spec.projects && p.integrations.Some? ensures IntegrationSelectors(p.integrations.value) <= all {}
    ProjectsAgree(v, w, spec.projects, ResolveAdminPassword(v, spec.adminPassword, n0).1, all);
  }

  /** Normalisation depends on the answers to its lookups alone. */
  lemma NormaliseAgrees(v: SecretView, w: SecretView, v': SecretView, w': SecretView, parses: string -> bool, spec: CorootSpec)
    requires Agree(v, w, BasicConsulted(spec)) && Agree(v', w', EnterpriseConsulted(spec))
    ensures Normalise(v, v', parses, spec) == Normalise(w, w', parses, spec)
  {
    BasicsAgree(v, w, spec);
    EnterpriseAgrees(v', w', parses, NormaliseBasics(v, spec));
  }

  lemma EnterpriseAgrees(v: SecretView, w: SecretView, parses: string -> bool, o: Outcome)
    requires Agree(v, w, EnterpriseConsulted(o.spec))
    ensures NormaliseEnterprise(v, parses, o) == NormaliseEnterprise(w, parses, o)
  {
    if o.spec.enterprise.Some? {
      var all, license := EnterpriseConsulted(o.spec), o.spec.enterprise.value.license;
      if license.secret.Some? { assert license.secret.value in all; }
      var n3 := CheckLicense(v, license, o.notes);
      assert n3 == CheckLicense(w, license, o.notes);
      SamlAgrees(v, w, parses, o.spec.sso, n3, all);
      AiAgrees(v, w, o.spec.ai, ResolveSso(v, parses, o.spec.sso, n3).1, all);
    }
  }

  // ---- missing secrets are reported ----

  /** It is a problem that the selector has no value, for that very reason. */
  ghost predicate IsReported(view: SecretView, s: Selector, n: Notes)
  {
    exists subject :: Reported(view, subject, Some(s), n)
  }

  lemma IntegrationsReported(view: SecretView, i: Integrations, i': Integrations, n: Notes, s: Selector)
    requires IntegrationsSettled(view, i, i', n) && s in IntegrationSelectors(i)
    ensures IsReported(view, s, n)
  {
    assert s in PartSelectors(i.slack) ==> Reported(view, SlackToken, Some(s), n);
    assert s in PartSelectors(i.teams) ==> Reported(view, TeamsWebhook, Some(s), n);
    assert s in PartSelectors(i.pagerduty) ==> Reported(view, PagerdutyKey, Some(s), n);
    assert s in PartSelectors(i.opsgenie) ==> Reported(view, OpsgenieKey, Some(s), n);
    assert i.webhook.Some? && i.webhook.value.basicAuth.Some? && i.webhook.value.basicAuth.value.passwordSecret == Some(s)
      ==> Reported(view, WebhookPassword, Some(s), n);
  }

  lemma BasicsReported(view: SecretView, spec: CorootSpec, spec': CorootSpec, n: Notes, s: Selector)
    requires BasicsSettled(view, spec, spec', n) && s in BasicConsulted(spec)
    ensures IsReported(view, s, n)
  {
    if spec.adminPassword.secret == Some(s) {
      assert Reported(view, AdminPassword, Some(s), n);
    } else {
      var p :| p in spec.projects && p.integrations.Some? && s in IntegrationSelectors(p.integrations.value);
      var i :| 0 <= i < |spec.projects| && spec.projects[i] == p;
      assert ProjectSettled(view, spec.projects[i], spec'.projects[i], n);
      IntegrationsReported(view, p.integrations.value, spec'.projects[i].integrations.value, n, s);
    }
  }

  lemma EnterpriseReported(view: SecretView, parses: string -> bool, spec: CorootSpec, spec': CorootSpec, n: Notes, s: Selector)
    requires EnterpriseSettled(view, parses, spec, spec', n) && s in EnterpriseConsulted(spec)
    ensures IsReported(view, s, n)
  {
    if spec.enterprise.value.license.secret == Some(s) {
      assert Reported(view, LicenseKey, Some(s), n);
    } else if s in SamlConsulted(spec.sso) {
      assert Reported(view, SamlMetadata, Some(s), n);
    } else {
      assert Reported(view, SubjectOfProvider(spec.ai.value.provider), Some(s), n);
    }
  }

  /** No answer that a secret is missing goes unreported. */
  lemma MissingIsReported(view: SecretView, later: SecretView, parses: string -> bool, spec: CorootSpec, s: Selector)
    ensures var n := Normalise(view, later, parses, spec).notes;
            && (s in BasicConsulted(spec) ==> IsReported(view, s, n))
            && (s in EnterpriseConsulted(spec) ==> IsReported(later, s, n))
  {
    NormaliseIsSafe(view, later, parses, spec);
    var o := Normalise(view, later, parses, spec);
    if s in BasicConsulted(spec) { BasicsReported(view, spec, o.spec, o.notes, s); }
    if s in EnterpriseConsulted(spec) { EnterpriseReported(later, parses, spec, o.spec, o.notes, s); }
  }
}
