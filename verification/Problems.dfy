/**
  The problems validation reports, exactly: for every credential whose secret is not there, for too many replicas, for
  metadata that does not parse and for an unknown AI provider, and for nothing else.
*/
module Problems {
  import opened Consultation
  import opened Convergence
  import opened Generation
  import opened Normalisation
  import opened ObjectNames
  import opened Options
  import opened Plan
  import opened Resource
  import opened Store

  function Lacking(view: SecretView, subject: Subject, secret: Option<Selector>): seq<Problem>
  {
    if secret.None? then []
    else
      match GetSecret(view, secret.value)
      case Ok(_) => []
      case Err(reason) => [SecretUnavailable(subject, secret.value, reason)]
  }

  function PartProblems(view: SecretView, subject: Subject, c: Option<Credential>): seq<Problem>
  {
    if c.Some? then Lacking(view, subject, c.value.secret) else []
  }

  function WebhookProblems(view: SecretView, w: Option<Webhook>): seq<Problem>
  {
    if w.Some? && w.value.basicAuth.Some? then Lacking(view, WebhookPassword, w.value.basicAuth.value.passwordSecret) else []
  }

  function IntegrationProblems(view: SecretView, i: Integrations): seq<Problem>
  {
    PartProblems(view, SlackToken, i.slack) + PartProblems(view, TeamsWebhook, i.teams)
    + PartProblems(view, PagerdutyKey, i.pagerduty) + PartProblems(view, OpsgenieKey, i.opsgenie)
    + WebhookProblems(view, i.webhook)
  }

  function ProjectsProblems(view: SecretView, ps: seq<Project>): seq<Problem>
  {
    if ps == [] then []
    else
      var last := ps[|ps| - 1];
      ProjectsProblems(view, ps[..|ps| - 1]) + if last.integrations.Some? then IntegrationProblems(view, last.integrations.value) else []
  }

  /** Text that is given in a resource, or held by the secret named there instead. */
  function GivenText(view: SecretView, plain: string, secret: Option<Selector>): Option<string>
  {
    match secret
    case None => Some(plain)
    case Some(s) => if s.name in view && s.key in view[s.name] then Some(view[s.name][s.key]) else None
  }

  /** Single sign-on is enabled with metadata, and it does not parse. */
  predicate SamlInvalid(view: SecretView, parses: string -> bool, sso: Option<Sso>)
  {
    && sso.Some? && sso.value.enabled && sso.value.saml.Some?
    && var text := GivenText(view, sso.value.saml.value.metadata, sso.value.saml.value.metadataSecret);
    text.Some? && text.value != "" && !parses(text.value)
  }

  function SamlProblems(view: SecretView, parses: string -> bool, sso: Option<Sso>): seq<Problem>
  {
    (if sso.Some? && sso.value.enabled && sso.value.saml.Some?
     then Lacking(view, SamlMetadata, sso.value.saml.value.metadataSecret) else [])
    + if SamlInvalid(view, parses, sso) then [InvalidSamlMetadata] else []
  }

  function AiProblems(view: SecretView, ai: Option<Ai>): seq<Problem>
  {
    if ai.None? || ai.value.provider == "" then []
    else if ai.value.provider in PROVIDERS then
      PartProblems(view, SubjectOfProvider(ai.value.provider), KeyOfProvider(ai.value, ai.value.provider))
    else [UnknownAiProvider(ai.value.provider)]
  }

  function BasicProblems(view: SecretView, spec: CorootSpec): seq<Problem>
  {
    (if spec.replicas > 1 && spec.postgres.None? then [ReplicasNeedPostgres] else [])
    + Lacking(view, AdminPassword, spec.adminPassword.secret) + ProjectsProblems(view, spec.projects)
  }

  function EnterpriseProblems(view: SecretView, parses: string -> bool, spec: CorootSpec): seq<Problem>
  {
    match spec.enterprise
    case None => []
    case Some(ee) =>
      Lacking(view, LicenseKey, ee.license.secret) + SamlProblems(view, parses, spec.sso) + AiProblems(view, spec.ai)
  }

  // ---- validation reports exactly these, in this order ----

  lemma PartReports(view: SecretView, subject: Subject, c: Option<Credential>, n: Notes)
    ensures ResolvePart(view, subject, c, n).1.problems == n.problems + PartProblems(view, subject, c)
  {}

  lemma WebhookReports(view: SecretView, w: Option<Webhook>, n: Notes)
    ensures ResolveWebhook(view, w, n).1.problems == n.problems + WebhookProblems(view, w)
  {}

  lemma TwoPartsReport(view: SecretView, x: Subject, c: Option<Credential>, y: Subject, d: Option<Credential>, n: Notes)
    ensures ResolvePart(view, y, d, ResolvePart(view, x, c, n).1).1.problems
         == n.problems + PartProblems(view, x, c) + PartProblems(view, y, d)
  {
    PartReports(view, x, c, n);
    PartReports(view, y, d, ResolvePart(view, x, c, n).1);
  }

  lemma InOrder(n: seq<Problem>, a: seq<Problem>, b: seq<Problem>, c: seq<Problem>, d: seq<Problem>, e: seq<Problem>)
    ensures n + a + b + c + d + e == n + (a + b + c + d + e)
  {}

  lemma IntegrationsReport(view: SecretView, i: Integrations, n: Notes)
    ensures ResolveIntegrations(view, Some(i), n).1.problems == n.problems + IntegrationProblems(view, i)
  {
    var n1 := ResolvePart(view, SlackToken, i.slack, n).1;
    var n2 := ResolvePart(view, TeamsWebhook, i.teams, n1).1;
    var n3 := ResolvePart(view, PagerdutyKey, i.pagerduty, n2).1;
    var n4 := ResolvePart(view, OpsgenieKey, i.opsgenie, n3).1;
    TwoPartsReport(view, SlackToken, i.slack, TeamsWebhook, i.teams, n);
    TwoPartsReport(view, PagerdutyKey, i.pagerduty, OpsgenieKey, i.opsgenie, n2);
    WebhookReports(view, i.webhook, n4);
    InOrder(n.problems, PartProblems(view, SlackToken, i.slack), PartProblems(view, TeamsWebhook, i.teams),
            PartProblems(view, PagerdutyKey, i.pagerduty), PartProblems(view, OpsgenieKey, i.opsgenie), WebhookProblems(view, i.webhook));
  }

  lemma {:induction false} KeysReportNothing(ks: seq<Credential>, n: Notes)
    ensures ResolveApiKeys(ks, n).1.problems == n.problems
  {
    if ks != [] { KeysReportNothing(ks[..|ks| - 1], n); }
  }

  lemma {:induction false} ProjectsReport(view: SecretView, ps: seq<Project>, n: Notes)
    ensures ResolveProjects(view, ps, n).1.problems == n.problems + ProjectsProblems(view, ps)
  {
    if ps != [] {
      var front, last := ps[..|ps| - 1], ps[|ps| - 1];
      ProjectsReport(view, front, n);
      var n' := ResolveProjects(view, front, n).1;
      KeysReportNothing(last.apiKeys, n');
      if last.integrations.Some? { IntegrationsReport(view, last.integrations.value, ResolveApiKeys(last.apiKeys, n').1); }
    }
  }

  lemma SsoReports(view: SecretView, parses: string -> bool, sso: Option<Sso>, n: Notes)
    ensures ResolveSso(view, parses, sso, n).1.problems == n.problems + SamlProblems(view, parses, sso)
  {}

  lemma AiReports(view: SecretView, ai: Option<Ai>, n: Notes)
    ensures ResolveAi(view, ai, n).1.problems == n.problems + AiProblems(view, ai)
  {
    if ai.Some? {
      var chosen := ai.value.provider;
      PartReports(view, SubjectOfProvider(chosen), KeyOfProvider(ai.value, chosen), n);
    }
  }

  lemma BasicsReport(view: SecretView, spec: CorootSpec)
    ensures NormaliseBasics(view, spec).notes.problems == BasicProblems(view, spec)
  {
    var tooMany := spec.replicas > 1 && spec.postgres.None?;
    var n0 := if tooMany then Noted(NO_NOTES, ReplicasNeedPostgres) else NO_NOTES;
    var n1 := ResolveAdminPassword(view, spec.adminPassword, n0).1;
    assert n1.problems == n0.problems + Lacking(view, AdminPassword, spec.adminPassword.secret);
    ProjectsReport(view, spec.projects, n1);
  }

  lemma EnterpriseReports(view: SecretView, parses: string -> bool, o: Outcome)
    ensures NormaliseEnterprise(view, parses, o).notes.problems == o.notes.problems + EnterpriseProblems(view, parses, o.spec)
  {
    if o.spec.enterprise.Some? {
      var license := o.spec.enterprise.value.license;
      var n3 := CheckLicense(view, license, o.notes);
      assert n3.problems == o.notes.problems + Lacking(view, LicenseKey, license.secret);
      SsoReports(view, parses, o.spec.sso, n3);
      AiReports(view, o.spec.ai, ResolveSso(view, parses, o.spec.sso, n3).1);
    }
  }

  /** Validation reports exactly the problems of the specification, each once, in its order. */
  lemma ProblemsInOrder(view: SecretView, later: SecretView, parses: string -> bool, spec: CorootSpec)
    ensures Normalise(view, later, parses, spec).notes.problems == BasicProblems(view, spec) + EnterpriseProblems(later, parses, spec)
  {
    BasicsReport(view, spec);
    EnterpriseReports(later, parses, NormaliseBasics(view, spec));
  }

  // ---- problem by problem ----

  /** The subject's credential is given by the selector, and it is looked up. */
  predicate Holds(i: Integrations, subject: Subject, s: Selector)
  {
    match subject
    case SlackToken => s in PartSelectors(i.slack)
    case TeamsWebhook => s in PartSelectors(i.teams)
    case PagerdutyKey => s in PartSelectors(i.pagerduty)
    case OpsgenieKey => s in PartSelectors(i.opsgenie)
    case WebhookPassword => i.webhook.Some? && i.webhook.value.basicAuth.Some? && i.webhook.value.basicAuth.value.passwordSecret == Some(s)
    case _ => false
  }

  predicate BasicHolds(spec: CorootSpec, subject: Subject, s: Selector)
  {
    (subject.AdminPassword? && spec.adminPassword.secret == Some(s))
    || exists p | p in spec.projects :: p.integrations.Some? && Holds(p.integrations.value, subject, s)
  }

  predicate EnterpriseHolds(spec: CorootSpec, subject: Subject, s: Selector)
  {
    && spec.enterprise.Some?
    && match subject
       case LicenseKey => spec.enterprise.value.license.secret == Some(s)
       case SamlMetadata => s in SamlConsulted(spec.sso)
       case AnthropicKey => spec.ai.Some? && spec.ai.value.provider == "anthropic" && s in PartSelectors(spec.ai.value.anthropic)
       case OpenAIKey => spec.ai.Some? && spec.ai.value.provider == "openai" && s in PartSelectors(spec.ai.value.openai)
       case OpenAICompatibleKey =>
         spec.ai.Some? && spec.ai.value.provider == "openai_compatible" && s in PartSelectors(spec.ai.value.openaiCompatible)
       case _ => false
  }

  lemma IntegrationReported(view: SecretView, i: Integrations, subject: Subject, s: Selector, reason: Missing)
    ensures SecretUnavailable(subject, s, reason) in IntegrationProblems(view, i)
       <==> Holds(i, subject, s) && GetSecret(view, s) == Err(reason)
  {}

  lemma {:induction false} ProjectReported(view: SecretView, ps: seq<Project>, subject: Subject, s: Selector, reason: Missing)
    ensures SecretUnavailable(subject, s, reason) in ProjectsProblems(view, ps)
       <==> (exists p | p in ps :: p.integrations.Some? && Holds(p.integrations.value, subject, s)) && GetSecret(view, s) == Err(reason)
  {
    if ps != [] {
      var front, last := ps[..|ps| - 1], ps[|ps| - 1];
      ProjectReported(view, front, subject, s, reason);
      if last.integrations.Some? { IntegrationReported(view, last.integrations.value, subject, s, reason); }
      assert forall p :: p in ps <==> p in front || p == last;
    }
  }

  /** A secret is reported for a subject exactly if the subject's credential is given by it and it is not there. */
  lemma SecretReportedIff(view: SecretView, later: SecretView, parses: string -> bool, spec: CorootSpec,
                          subject: Subject, s: Selector, reason: Missing)
    ensures SecretUnavailable(subject, s, reason) in Normalise(view, later, parses, spec).notes.problems
       <==> || (BasicHolds(spec, subject, s) && GetSecret(view, s) == Err(reason))
            || (EnterpriseHolds(spec, subject, s) && GetSecret(later, s) == Err(reason))
  {
    ProblemsInOrder(view, later, parses, spec);
    BasicReportedIff(view, spec, subject, s, reason);
    EnterpriseReportedIff(later, parses, spec, subject, s, reason);
  }

  lemma BasicReportedIff(view: SecretView, spec: CorootSpec, subject: Subject, s: Selector, reason: Missing)
    ensures SecretUnavailable(subject, s, reason) in BasicProblems(view, spec)
       <==> BasicHolds(spec, subject, s) && GetSecret(view, s) == Err(reason)
  {
    ProjectReported(view, spec.projects, subject, s, reason);
  }

  lemma EnterpriseReportedIff(view: SecretView, parses: string -> bool, spec: CorootSpec, subject: Subject, s: Selector, reason: Missing)
    ensures SecretUnavailable(subject, s, reason) in EnterpriseProblems(view, parses, spec)
       <==> EnterpriseHolds(spec, subject, s) && GetSecret(view, s) == Err(reason)
  {}

  lemma IntegrationProblemsAreSecrets(view: SecretView, i: Integrations)
    ensures forall p | p in IntegrationProblems(view, i) :: p.SecretUnavailable?
  {}

  lemma {:induction false} ProjectProblemsAreSecrets(view: SecretView, ps: seq<Project>)
    ensures forall p | p in ProjectsProblems(view, ps) :: p.SecretUnavailable?
  {
    if ps != [] {
      var last := ps[|ps| - 1];
      ProjectProblemsAreSecrets(view, ps[..|ps| - 1]);
      if last.integrations.Some? { IntegrationProblemsAreSecrets(view, last.integrations.value); }
    }
  }

  lemma BasicProblemKinds(view: SecretView, spec: CorootSpec)
    ensures forall p | p in BasicProblems(view, spec) :: p.SecretUnavailable? || p.ReplicasNeedPostgres?
    ensures ReplicasNeedPostgres in BasicProblems(view, spec) <==> spec.replicas > 1 && spec.postgres.None?
  {
    ProjectProblemsAreSecrets(view, spec.projects);
  }

  lemma EnterpriseProblemKinds(view: SecretView, parses: string -> bool, spec: CorootSpec, provider: string)
    ensures InvalidSamlMetadata in EnterpriseProblems(view, parses, spec) <==> spec.enterprise.Some? && SamlInvalid(view, parses, spec.sso)
    ensures UnknownAiProvider(provider) in EnterpriseProblems(view, parses, spec)
       <==> spec.enterprise.Some? && UnknownAiProvider(provider) in AiProblems(view, spec.ai)
    ensures ReplicasNeedPostgres !in EnterpriseProblems(view, parses, spec)
  {}

  lemma ProviderReported(view: SecretView, ai: Option<Ai>, provider: string)
    ensures UnknownAiProvider(provider) in AiProblems(view, ai)
       <==> ai.Some? && ai.value.provider == provider && provider !in ["", "anthropic", "openai", "openai_compatible"]
  {}

  /** Too many replicas are reported exactly if there are several without Postgres. */
  lemma ReplicasReportedIff(view: SecretView, later: SecretView, parses: string -> bool, spec: CorootSpec)
    ensures ReplicasNeedPostgres in Normalise(view, later, parses, spec).notes.problems <==> spec.replicas > 1 && spec.postgres.None?
  {
    ProblemsInOrder(view, later, parses, spec);
    BasicProblemKinds(view, spec);
    EnterpriseProblemKinds(later, parses, spec, "");
  }

  /** Invalid metadata is reported exactly if metadata is given for an enabled single sign-on and does not parse. */
  lemma SamlReportedIff(view: SecretView, later: SecretView, parses: string -> bool, spec: CorootSpec)
    ensures InvalidSamlMetadata in Normalise(view, later, parses, spec).notes.problems
       <==> spec.enterprise.Some? && SamlInvalid(later, parses, spec.sso)
  {
    ProblemsInOrder(view, later, parses, spec);
    BasicProblemKinds(view, spec);
    EnterpriseProblemKinds(later, parses, spec, "");
  }

  /** A provider is reported exactly if it is chosen and unknown. */
  lemma ProviderReportedIff(view: SecretView, later: SecretView, parses: string -> bool, spec: CorootSpec, provider: string)
    ensures UnknownAiProvider(provider) in Normalise(view, later, parses, spec).notes.problems
       <==> && spec.enterprise.Some? && spec.ai.Some? && spec.ai.value.provider == provider
            && provider !in ["", "anthropic", "openai", "openai_compatible"]
  {
    ProblemsInOrder(view, later, parses, spec);
    BasicProblemKinds(view, spec);
    EnterpriseProblemKinds(later, parses, spec, provider);
    ProviderReported(later, spec.ai, provider);
  }

  // ---- health ----

  /** All the secrets looked up are there, and nothing else is wrong. */
  predicate InOrderWith(view: SecretView, later: SecretView, parses: string -> bool, spec: CorootSpec)
  {
    && (spec.replicas <= 1 || spec.postgres.Some?)
    && (forall s | s in BasicConsulted(spec) :: GetSecret(view, s).Ok?)
    && (forall s | s in EnterpriseConsulted(spec) :: GetSecret(later, s).Ok?)
    && (spec.enterprise.Some? ==>
          && !SamlInvalid(later, parses, spec.sso)
          && (spec.ai.Some? ==> spec.ai.value.provider in ["", "anthropic", "openai", "openai_compatible"]))
  }

  lemma BasicConsultedHeld(spec: CorootSpec, s: Selector)
    ensures s in BasicConsulted(spec) <==> exists subject :: BasicHolds(spec, subject, s)
  {
    if s in BasicConsulted(spec) {
      if spec.adminPassword.secret == Some(s) {
        assert BasicHolds(spec, AdminPassword, s);
      } else {
        var p :| p in spec.projects && p.integrations.Some? && s in IntegrationSelectors(p.integrations.value);
        var subject := IntegrationHeld(p.integrations.value, s);
        assert BasicHolds(spec, subject, s);
      }
    }
    if subject :| BasicHolds(spec, subject, s) { HeldIsConsulted(spec, subject, s); }
  }

  lemma HeldIsConsulted(spec: CorootSpec, subject: Subject, s: Selector)
    requires BasicHolds(spec, subject, s)
    ensures s in BasicConsulted(spec)
  {
    if !(subject.AdminPassword? && spec.adminPassword.secret == Some(s)) {
      var p :| p in spec.projects && p.integrations.Some? && Holds(p.integrations.value, subject, s);
      assert s in IntegrationSelectors(p.integrations.value);
    }
  }

  lemma IntegrationHeld(i: Integrations, s: Selector) returns (subject: Subject)
    requires s in IntegrationSelectors(i)
    ensures Holds(i, subject, s)
  {
    subject := if s in PartSelectors(i.slack) then SlackToken
               else if s in PartSelectors(i.teams) then TeamsWebhook
               else if s in PartSelectors(i.pagerduty) then PagerdutyKey
               else if s in PartSelectors(i.opsgenie) then OpsgenieKey
               else WebhookPassword;
  }

  lemma EnterpriseConsultedHeld(spec: CorootSpec, s: Selector)
    ensures s in EnterpriseConsulted(spec) <==> exists subject :: EnterpriseHolds(spec, subject, s)
  {
    if s in EnterpriseConsulted(spec) {
      var subject := if spec.enterprise.value.license.secret == Some(s) then LicenseKey
                     else if s in SamlConsulted(spec.sso) then SamlMetadata
                     else SubjectOfProvider(spec.ai.value.provider);
      assert EnterpriseHolds(spec, subject, s);
    }
  }

  lemma NothingReported(view: SecretView, later: SecretView, parses: string -> bool, spec: CorootSpec, p: Problem)
    requires InOrderWith(view, later, parses, spec)
    ensures p !in Normalise(view, later, parses, spec).notes.problems
  {
    match p
    case ReplicasNeedPostgres => ReplicasReportedIff(view, later, parses, spec);
    case InvalidSamlMetadata => SamlReportedIff(view, later, parses, spec);
    case UnknownAiProvider(provider) => ProviderReportedIff(view, later, parses, spec, provider);
    case SecretUnavailable(subject, s, reason) =>
      SecretReportedIff(view, later, parses, spec, subject, s, reason);
      BasicConsultedHeld(spec, s);
      EnterpriseConsultedHeld(spec, s);
  }

  lemma BasicReported(view: SecretView, later: SecretView, parses: string -> bool, spec: CorootSpec, s: Selector)
    requires s in BasicConsulted(spec) && Normalise(view, later, parses, spec).notes.problems == []
    ensures GetSecret(view, s).Ok?
  {
    BasicConsultedHeld(spec, s);
    var subject :| BasicHolds(spec, subject, s);
    if GetSecret(view, s).Err? { SecretReportedIff(view, later, parses, spec, subject, s, GetSecret(view, s).error); }
  }

  lemma EnterpriseReported(view: SecretView, later: SecretView, parses: string -> bool, spec: CorootSpec, s: Selector)
    requires s in EnterpriseConsulted(spec) && Normalise(view, later, parses, spec).notes.problems == []
    ensures GetSecret(later, s).Ok?
  {
    EnterpriseConsultedHeld(spec, s);
    var subject :| EnterpriseHolds(spec, subject, s);
    if GetSecret(later, s).Err? { SecretReportedIff(view, later, parses, spec, subject, s, GetSecret(later, s).error); }
  }

  /** Nothing is reported exactly if everything is in order. */
  lemma NoProblemIff(view: SecretView, later: SecretView, parses: string -> bool, spec: CorootSpec)
    ensures Normalise(view, later, parses, spec).notes.problems == [] <==> InOrderWith(view, later, parses, spec)
  {
    var problems := Normalise(view, later, parses, spec).notes.problems;
    if InOrderWith(view, later, parses, spec) {
      if problems != [] { NothingReported(view, later, parses, spec, problems[0]); }
    } else if problems == [] {
      ReplicasReportedIff(view, later, parses, spec);
      SamlReportedIff(view, later, parses, spec);
      if spec.ai.Some? { ProviderReportedIff(view, later, parses, spec, spec.ai.value.provider); }
      forall s | s in BasicConsulted(spec) ensures GetSecret(view, s).Ok? { BasicReported(view, later, parses, spec, s); }
      forall s | s in EnterpriseConsulted(spec) ensures GetSecret(later, s).Ok? { EnterpriseReported(view, later, parses, spec, s); }
    }
  }

  /**
    A reconcile ends healthy exactly if the resource is in order with the secrets that exist, the license, metadata and
    AI keys with those that exist once API keys are generated; otherwise it is misconfigured, with exactly its problems.
  */
  lemma HealthyIff(op: Operator, cr: Request, spec: CorootSpec, c: Cluster, r: Random)
    requires !spec.agentsOnly
    ensures var view, later := SecretsOf(c.objects, cr.ns), LaterView(cr, spec, c.objects, r);
            Reconciled(op, cr, spec, c, r).status
            == Some(if InOrderWith(view, later, op.parses, spec) then Healthy
                    else Misconfigured(BasicProblems(view, spec) + EnterpriseProblems(later, op.parses, spec)))
  {
    var view, later := SecretsOf(c.objects, cr.ns), LaterView(cr, spec, c.objects, r);
    OutcomeByViews(op, cr, spec, c.objects, r);
    NoProblemIff(view, later, op.parses, spec);
    ProblemsInOrder(view, later, op.parses, spec);
  }
}
