/**
  What `validateCoroot` makes of a specification, given the secrets that exist: secret selectors become
  references to environment variables, unusable parts are dropped, and problems are collected.
*/
module Normalisation {
  import opened Collisions
  import opened ConfigEnvs
  import opened Options
  import opened Resource

  /** The secrets of the resource's namespace: name, then key, then value. */
  type SecretView = map<string, map<string, string>>

  datatype Missing = NoSecret | NoKey

  function GetSecret(view: SecretView, s: Selector): Result<string, Missing>
  {
    if s.name !in view then Err(NoSecret)
    else if s.key !in view[s.name] then Err(NoKey)
    else Ok(view[s.name][s.key])
  }

  datatype Subject =
    | AdminPassword | SlackToken | TeamsWebhook | PagerdutyKey | OpsgenieKey | WebhookPassword
    | LicenseKey | SamlMetadata | AnthropicKey | OpenAIKey | OpenAICompatibleKey

  datatype Problem =
    | ReplicasNeedPostgres
    | SecretUnavailable(subject: Subject, selector: Selector, reason: Missing)
    | InvalidSamlMetadata
    | UnknownAiProvider(provider: string)

  /** What accumulates during validation: the selectors referred to, the API keys to generate, and the problems. */
  datatype Notes = Notes(referred: seq<Selector>, apiKeys: map<string, seq<string>>, problems: seq<Problem>)

  const NO_NOTES := Notes([], map[], [])

  /** What a map holds after adding selectors one after the other under their names. */
  function VariablesBy(name: Selector -> string, referred: seq<Selector>): map<string, Selector>
  {
    if referred == [] then map[]
    else var s := referred[|referred| - 1]; VariablesBy(name, referred[..|referred| - 1])[name(s) := s]
  }

  function EnvsOf(referred: seq<Selector>): map<string, Selector> { VariablesBy(EnvName, referred) }

  function Noted(n: Notes, p: Problem): Notes { n.(problems := n.problems + [p]) }

  function Referring(n: Notes, s: Selector): Notes { n.(referred := n.referred + [s]) }

  /** Replaces a selector by a reference, or reports that its secret is not there and leaves the plain value. */
  function Resolve(view: SecretView, subject: Subject, c: Credential, n: Notes): (Credential, Notes)
  {
    match c.secret
    case None => (c, n)
    case Some(s) =>
      match GetSecret(view, s)
      case Ok(_) => (c.(value := Reference(EnvName(s)), secret := None), Referring(n, s))
      case Err(reason) => (c.(secret := None), Noted(n, SecretUnavailable(subject, s, reason)))
  }

  /** A part that is useless without its credential. */
  function ResolvePart(view: SecretView, subject: Subject, c: Option<Credential>, n: Notes): (Option<Credential>, Notes)
  {
    match c
    case None => (None, n)
    case Some(c) =>
      var (resolved, n') := Resolve(view, subject, c, n);
      (if resolved.value == "" then None else Some(resolved), n')
  }

  /** API keys need no existing secret: the missing ones will be generated. */
  function ResolveApiKey(k: Credential, n: Notes): (Credential, Notes)
  {
    match k.secret
    case None => (k, n)
    case Some(s) =>
      var keys := (if s.name in n.apiKeys then n.apiKeys[s.name] else []) + [s.key];
      (k.(value := Reference(EnvName(s)), secret := None), Referring(n, s).(apiKeys := n.apiKeys[s.name := keys]))
  }

  function ResolveApiKeys(ks: seq<Credential>, n: Notes): (r: (seq<Credential>, Notes))
    ensures |r.0| == |ks|
  {
    if ks == [] then ([], n)
    else
      var (front, n') := ResolveApiKeys(ks[..|ks| - 1], n);
      var (last, n'') := ResolveApiKey(ks[|ks| - 1], n');
      (front + [last], n'')
  }

  function ResolveBasicAuth(view: SecretView, b: Option<BasicAuth>, n: Notes): (Option<BasicAuth>, Notes)
  {
    match b
    case None => (None, n)
    case Some(b) =>
      var (c, n') := Resolve(view, WebhookPassword, Credential(b.password, b.passwordSecret, ""), n);
      (if b.username == "" || c.value == "" then None else Some(BasicAuth(b.username, c.value, c.secret)), n')
  }

  function ResolveWebhook(view: SecretView, w: Option<Webhook>, n: Notes): (Option<Webhook>, Notes)
  {
    match w
    case None => (None, n)
    case Some(w) =>
      var (auth, n') := ResolveBasicAuth(view, w.basicAuth, n);
      var w' := w.(basicAuth := auth,
                   incidents := w.incidents && w.incidentTemplate != "",
                   deployments := w.deployments && w.deploymentTemplate != "");
      (if w.url == "" then None else Some(w'), n')
  }

  function ResolveIntegrations(view: SecretView, i: Option<Integrations>, n: Notes): (Option<Integrations>, Notes)
  {
    match i
    case None => (None, n)
    case Some(i) =>
      var (slack, n1) := ResolvePart(view, SlackToken, i.slack, n);
      var (teams, n2) := ResolvePart(view, TeamsWebhook, i.teams, n1);
      var (pagerduty, n3) := ResolvePart(view, PagerdutyKey, i.pagerduty, n2);
      var (opsgenie, n4) := ResolvePart(view, OpsgenieKey, i.opsgenie, n3);
      var (webhook, n5) := ResolveWebhook(view, i.webhook, n4);
      (Some(Integrations(i.baseUrl, slack, teams, pagerduty, opsgenie, webhook)), n5)
  }

  function ResolveProject(view: SecretView, p: Project, n: Notes): (Project, Notes)
  {
    var (apiKeys, n1) := ResolveApiKeys(p.apiKeys, n);
    var (integrations, n2) := ResolveIntegrations(view, p.integrations, n1);
    (p.(apiKeys := apiKeys, integrations := integrations), n2)
  }

  function ResolveProjects(view: SecretView, ps: seq<Project>, n: Notes): (r: (seq<Project>, Notes))
    ensures |r.0| == |ps|
  {
    if ps == [] then ([], n)
    else
      var (front, n') := ResolveProjects(view, ps[..|ps| - 1], n);
      var (last, n'') := ResolveProject(view, ps[|ps| - 1], n');
      (front + [last], n'')
  }

  function ResolveAdminPassword(view: SecretView, c: Credential, n: Notes): (Credential, Notes)
  {
    match c.secret
    case None => (c, n)
    case Some(s) =>
      match GetSecret(view, s)
      case Ok(_) => (c, n)
      case Err(reason) => (c.(value := "", secret := None), Noted(n, SecretUnavailable(AdminPassword, s, reason)))
  }

  function CheckLicense(view: SecretView, license: Credential, n: Notes): Notes
  {
    match license.secret
    case None => n
    case Some(s) =>
      match GetSecret(view, s)
      case Ok(_) => n
      case Err(reason) => Noted(n, SecretUnavailable(LicenseKey, s, reason))
  }

  /** The metadata document that is checked: the secret's, or the text in the specification. */
  function Metadata(view: SecretView, saml: Saml): string
  {
    match saml.metadataSecret
    case None => saml.metadata
    case Some(s) => (match GetSecret(view, s) case Ok(v) => v case Err(_) => "")
  }

  function SamlCredential(saml: Saml): Credential { Credential(saml.metadata, saml.metadataSecret, "") }

  /** A secret's metadata is checked by its value; a plain text whose secret is missing is not checked. */
  function ResolveSaml(view: SecretView, parses: string -> bool, saml: Saml, n: Notes): (Saml, Notes)
  {
    var (c, n') := Resolve(view, SamlMetadata, SamlCredential(saml), n);
    var metadata := Metadata(view, saml);
    if metadata != "" && !parses(metadata) then (Saml("", None), Noted(n', InvalidSamlMetadata))
    else (Saml(c.value, None), n')
  }

  function ResolveSso(view: SecretView, parses: string -> bool, sso: Option<Sso>, n: Notes): (Option<Sso>, Notes)
  {
    if sso.None? || !sso.value.enabled then (sso, n)
    else
      match sso.value.saml
      case None => (Some(sso.value.(enabled := false)), n)
      case Some(saml) =>
        var (saml', n') := ResolveSaml(view, parses, saml, n);
        (Some(sso.value.(enabled := saml'.metadata != "", saml := Some(saml'))), n')
  }

  function ResolveAi(view: SecretView, ai: Option<Ai>, n: Notes): (Option<Ai>, Notes)
  {
    if ai.None? || ai.value.provider == "" then (ai, n)
    else
      var a := ai.value;
      if a.provider == "anthropic" then
        var (c, n') := ResolvePart(view, AnthropicKey, a.anthropic, n);
        (Some(a.(anthropic := c, provider := if c.None? then "" else a.provider)), n')
      else if a.provider == "openai" then
        var (c, n') := ResolvePart(view, OpenAIKey, a.openai, n);
        (Some(a.(openai := c, provider := if c.None? then "" else a.provider)), n')
      else if a.provider == "openai_compatible" then
        var (c, n') := ResolvePart(view, OpenAICompatibleKey, a.openaiCompatible, n);
        (Some(a.(openaiCompatible := c, provider := if c.None? then "" else a.provider)), n')
      else
        (Some(a.(provider := "")), Noted(n, UnknownAiProvider(a.provider)))
  }

  datatype Outcome = Outcome(spec: CorootSpec, notes: Notes)

  /** The part that does not depend on the edition. */
  function NormaliseBasics(view: SecretView, spec: CorootSpec): Outcome
  {
    var tooMany := spec.replicas > 1 && spec.postgres.None?;
    var n0 := if tooMany then Noted(NO_NOTES, ReplicasNeedPostgres) else NO_NOTES;
    var (admin, n1) := ResolveAdminPassword(view, spec.adminPassword, n0);
    var (projects, n2) := ResolveProjects(view, spec.projects, n1);
    Outcome(spec.(replicas := if tooMany then 1 else spec.replicas,
                  servicePort := if spec.servicePort == 0 then 8080 else spec.servicePort,
                  adminPassword := admin, projects := projects),
            n2)
  }

  /** License, single sign-on and AI belong to the enterprise edition. */
  function NormaliseEnterprise(view: SecretView, parses: string -> bool, o: Outcome): Outcome
  {
    match o.spec.enterprise
    case None => o
    case Some(ee) =>
      var n3 := CheckLicense(view, ee.license, o.notes);
      var (sso, n4) := ResolveSso(view, parses, o.spec.sso, n3);
      var (ai, n5) := ResolveAi(view, o.spec.ai, n4);
      Outcome(o.spec.(sso := sso, ai := ai), n5)
  }

  /** The missing API keys are generated in between: `later` is what the enterprise part sees. */
  function Normalise(view: SecretView, later: SecretView, parses: string -> bool, spec: CorootSpec): Outcome
  {
    NormaliseEnterprise(later, parses, NormaliseBasics(view, spec))
  }

  // ---- references are sound ----

  /** A reported secret really is not there. */
  predicate Genuine(view: SecretView, p: Problem)
  {
    && !p.ReplicasNeedPostgres?
    && (p.SecretUnavailable? ==> GetSecret(view, p.selector) == Err(p.reason))
  }

  predicate Extends(n: Notes, n': Notes) { n.referred <= n'.referred && n.problems <= n'.problems }

  /** Notes only grow: they refer to further selectors of the given set, and report what is not there. */
  ghost predicate Grown(view: SecretView, n: Notes, n': Notes, all: set<Selector>)
  {
    && Extends(n, n')
    && (forall i | |n.referred| <= i < |n'.referred| :: n'.referred[i] in all)
    && (forall i | |n.problems| <= i < |n'.problems| :: Genuine(view, n'.problems[i]))
  }

  function Chosen(s: Option<Selector>): set<Selector> { if s.Some? then {s.value} else {} }

  function PartSelectors(c: Option<Credential>): set<Selector> { if c.Some? then Chosen(c.value.secret) else {} }

  function IntegrationSelectors(i: Integrations): set<Selector>
  {
    PartSelectors(i.slack) + PartSelectors(i.teams) + PartSelectors(i.pagerduty) + PartSelectors(i.opsgenie)
    + (if i.webhook.Some? && i.webhook.value.basicAuth.Some? then Chosen(i.webhook.value.basicAuth.value.passwordSecret) else {})
  }

  function ProjectSelectors(p: Project): set<Selector>
  {
    (set k | k in p.apiKeys && k.secret.Some? :: k.secret.value)
    + (if p.integrations.Some? then IntegrationSelectors(p.integrations.value) else {})
  }

  /** The selectors a specification may turn into references. */
  function Selectors(spec: CorootSpec): set<Selector>
  {
    (set p, s | p in spec.projects && s in ProjectSelectors(p) :: s)
    + (if spec.sso.Some? && spec.sso.value.saml.Some? then Chosen(spec.sso.value.saml.value.metadataSecret) else {})
    + (if spec.ai.Some? then PartSelectors(spec.ai.value.anthropic) + PartSelectors(spec.ai.value.openai)
                             + PartSelectors(spec.ai.value.openaiCompatible) else {})
  }

  /** `value` is the reference to a selector that was added. */
  predicate RefersTo(value: string, s: Selector, referred: seq<Selector>)
  {
    value == Reference(EnvName(s)) && s in referred
  }

  predicate Available(view: SecretView, secret: Option<Selector>)
  {
    secret.Some? && GetSecret(view, secret.value).Ok?
  }

  /** There is something to authenticate with. */
  predicate Usable(view: SecretView, c: Credential) { Available(view, c.secret) || c.value != "" }

  /** A selector without its secret is among the problems. */
  predicate Reported(view: SecretView, subject: Subject, secret: Option<Selector>, n: Notes)
  {
    secret.Some? && GetSecret(view, secret.value).Err? ==>
      SecretUnavailable(subject, secret.value, GetSecret(view, secret.value).error) in n.problems
  }

  /** A credential without a selector: a reference if its secret is there, and otherwise the text as given. */
  predicate Settled(view: SecretView, before: Credential, after: Credential, n: Notes)
  {
    && after.secret.None? && after.settings == before.settings
    && if Available(view, before.secret) then RefersTo(after.value, before.secret.value, n.referred)
       else after.value == before.value
  }

  /** A part is kept exactly if it is usable. */
  predicate PartSettled(view: SecretView, subject: Subject, before: Option<Credential>, after: Option<Credential>, n: Notes)
  {
    && (after.Some? <==> before.Some? && Usable(view, before.value))
    && (after.Some? ==> after.value.value != "" && Settled(view, before.value, after.value, n))
    && (before.Some? ==> Reported(view, subject, before.value.secret, n))
  }

  function AuthCredential(b: BasicAuth): Credential { Credential(b.password, b.passwordSecret, "") }

  predicate AuthSettled(view: SecretView, before: Option<BasicAuth>, after: Option<BasicAuth>, n: Notes)
  {
    && (after.Some? <==> before.Some? && before.value.username != "" && Usable(view, AuthCredential(before.value)))
    && (after.Some? ==> after.value.username == before.value.username && after.value.password != ""
                        && Settled(view, AuthCredential(before.value), AuthCredential(after.value), n))
    && (before.Some? ==> Reported(view, WebhookPassword, before.value.passwordSecret, n))
  }

  predicate WebhookSettled(view: SecretView, before: Option<Webhook>, after: Option<Webhook>, n: Notes)
  {
    && (after.Some? <==> before.Some? && before.value.url != "")
    && (before.Some? && before.value.basicAuth.Some? ==>
          Reported(view, WebhookPassword, before.value.basicAuth.value.passwordSecret, n))
    && (after.Some? ==>
          var w, w' := before.value, after.value;
          && w' == w.(basicAuth := w'.basicAuth, incidents := w'.incidents, deployments := w'.deployments)
          && (w'.incidents <==> w.incidents && w'.incidentTemplate != "")
          && (w'.deployments <==> w.deployments && w'.deploymentTemplate != "")
          && AuthSettled(view, w.basicAuth, w'.basicAuth, n))
  }

  predicate ProjectSettled(view: SecretView, before: Project, after: Project, n: Notes)
  {
    && after == before.(apiKeys := after.apiKeys, integrations := after.integrations)
    && ApiKeysSettled(before.apiKeys, after.apiKeys, n)
    && (after.integrations.Some? <==> before.integrations.Some?)
    && (after.integrations.Some? ==>
          IntegrationsSettled(view, before.integrations.value, after.integrations.value, n))
  }

  lemma GrownTransitive(view: SecretView, a: Notes, b: Notes, c: Notes, all: set<Selector>)
    requires Grown(view, a, b, all) && Grown(view, b, c, all)
    ensures Grown(view, a, c, all)
  {}

  lemma ResolveGrows(view: SecretView, subject: Subject, c: Credential, n: Notes, all: set<Selector>)
    requires Chosen(c.secret) <= all
    ensures var (c', n') := Resolve(view, subject, c, n);
            && Grown(view, n, n', all) && Settled(view, c, c', n') && Reported(view, subject, c.secret, n')
            && (c'.value != "" <==> Usable(view, c))
  {
    if Available(view, c.secret) { assert Reference(EnvName(c.secret.value))[0] == '$'; }
  }

  lemma ResolvePartGrows(view: SecretView, subject: Subject, c: Option<Credential>, n: Notes, all: set<Selector>)
    requires PartSelectors(c) <= all
    ensures var (c', n') := ResolvePart(view, subject, c, n); Grown(view, n, n', all) && PartSettled(view, subject, c, c', n')
  {
    if c.Some? { ResolveGrows(view, subject, c.value, n, all); }
  }

  lemma ResolveBasicAuthGrows(view: SecretView, b: Option<BasicAuth>, n: Notes, all: set<Selector>)
    requires b.Some? ==> Chosen(b.value.passwordSecret) <= all
    ensures var (b', n') := ResolveBasicAuth(view, b, n); Grown(view, n, n', all) && AuthSettled(view, b, b', n')
  {
    if b.Some? { ResolveGrows(view, WebhookPassword, AuthCredential(b.value), n, all); }
  }

  lemma ResolveWebhookGrows(view: SecretView, w: Option<Webhook>, n: Notes, all: set<Selector>)
    requires w.Some? && w.value.basicAuth.Some? ==> Chosen(w.value.basicAuth.value.passwordSecret) <= all
    ensures var (w', n') := ResolveWebhook(view, w, n); Grown(view, n, n', all) && WebhookSettled(view, w, w', n')
  {
    if w.Some? { ResolveBasicAuthGrows(view, w.value.basicAuth, n, all); }
  }

  /** What was settled stays settled as notes grow. */
  lemma PartStaysSettled(view: SecretView, subject: Subject, c: Option<Credential>, c': Option<Credential>, n: Notes, n': Notes)
    requires PartSettled(view, subject, c, c', n) && Extends(n, n')
    ensures PartSettled(view, subject, c, c', n')
  {}

  lemma WebhookStaysSettled(view: SecretView, w: Option<Webhook>, w': Option<Webhook>, n: Notes, n': Notes)
    requires WebhookSettled(view, w, w', n) && Extends(n, n')
    ensures WebhookSettled(view, w, w', n')
  {}

  predicate IntegrationsSettled(view: SecretView, i: Integrations, i': Integrations, n: Notes)
  {
    && i'.baseUrl == i.baseUrl
    && PartSettled(view, SlackToken, i.slack, i'.slack, n) && PartSettled(view, TeamsWebhook, i.teams, i'.teams, n)
    && PartSettled(view, PagerdutyKey, i.pagerduty, i'.pagerduty, n) && PartSettled(view, OpsgenieKey, i.opsgenie, i'.opsgenie, n)
    && WebhookSettled(view, i.webhook, i'.webhook, n)
  }

  lemma ResolveIntegrationsGrows(view: SecretView, i: Integrations, n: Notes, all: set<Selector>)
    requires IntegrationSelectors(i) <= all
    ensures var (i', n') := ResolveIntegrations(view, Some(i), n);
            Grown(view, n, n', all) && i'.Some? && IntegrationsSettled(view, i, i'.value, n')
  {
    var (slack, n1) := ResolvePart(view, SlackToken, i.slack, n);
    ResolvePartGrows(view, SlackToken, i.slack, n, all);
    var (teams, n2) := ResolvePart(view, TeamsWebhook, i.teams, n1);
    ResolvePartGrows(view, TeamsWebhook, i.teams, n1, all);
    var (pagerduty, n3) := ResolvePart(view, PagerdutyKey, i.pagerduty, n2);
    ResolvePartGrows(view, PagerdutyKey, i.pagerduty, n2, all);
    var (opsgenie, n4) := ResolvePart(view, OpsgenieKey, i.opsgenie, n3);
    ResolvePartGrows(view, OpsgenieKey, i.opsgenie, n3, all);
    var (webhook, n5) := ResolveWebhook(view, i.webhook, n4);
    ResolveWebhookGrows(view, i.webhook, n4, all);
    GrownTransitive(view, n3, n4, n5, all);
    GrownTransitive(view, n2, n3, n5, all);
    GrownTransitive(view, n1, n2, n5, all);
    GrownTransitive(view, n, n1, n5, all);
    PartStaysSettled(view, SlackToken, i.slack, slack, n1, n5);
    PartStaysSettled(view, TeamsWebhook, i.teams, teams, n2, n5);
    PartStaysSettled(view, PagerdutyKey, i.pagerduty, pagerduty, n3, n5);
    PartStaysSettled(view, OpsgenieKey, i.opsgenie, opsgenie, n4, n5);
  }

  /** An API key's selector becomes a reference whether its secret exists or not. */
  predicate ApiKeySettled(k: Credential, k': Credential, n: Notes)
  {
    && k'.secret.None? && k'.settings == k.settings
    && if k.secret.Some? then RefersTo(k'.value, k.secret.value, n.referred) else k'.value == k.value
  }

  predicate ApiKeysSettled(ks: seq<Credential>, ks': seq<Credential>, n: Notes)
  {
    |ks'| == |ks| && forall i | 0 <= i < |ks| :: ApiKeySettled(ks[i], ks'[i], n)
  }

  lemma ApiKeysStaySettled(ks: seq<Credential>, ks': seq<Credential>, n: Notes, n': Notes)
    requires ApiKeysSettled(ks, ks', n) && Extends(n, n')
    ensures ApiKeysSettled(ks, ks', n')
  {}

  lemma NextApiKeyGrows(view: SecretView, ks: seq<Credential>, ks': seq<Credential>, k: Credential, n: Notes, n': Notes, all: set<Selector>)
    requires Chosen(k.secret) <= all && Grown(view, n, n', all) && ApiKeysSettled(ks, ks', n')
    ensures var (k', n'') := ResolveApiKey(k, n');
            Grown(view, n, n'', all) && ApiKeysSettled(ks + [k], ks' + [k'], n'')
  {
    var (k', n'') := ResolveApiKey(k, n');
    assert Grown(view, n', n'', all) && ApiKeySettled(k, k', n'');
    GrownTransitive(view, n, n', n'', all);
    ApiKeysStaySettled(ks, ks', n', n'');
  }

  lemma {:induction false} ResolveApiKeysGrows(view: SecretView, ks: seq<Credential>, n: Notes, all: set<Selector>)
    requires forall k | k in ks :: Chosen(k.secret) <= all
    ensures var (ks', n') := ResolveApiKeys(ks, n); Grown(view, n, n', all) && ApiKeysSettled(ks, ks', n')
  {
    if ks != [] {
      var front, last := ks[..|ks| - 1], ks[|ks| - 1];
      ResolveApiKeysGrows(view, front, n, all);
      var (front', n') := ResolveApiKeys(front, n);
      NextApiKeyGrows(view, front, front', last, n, n', all);
      assert ks == front + [last];
    }
  }

  lemma ProjectSelectorsCover(p: Project, all: set<Selector>)
    requires ProjectSelectors(p) <= all
    ensures forall k | k in p.apiKeys :: Chosen(k.secret) <= all
    ensures p.integrations.Some? ==> IntegrationSelectors(p.integrations.value) <= all
  {
    forall k | k in p.apiKeys ensures Chosen(k.secret) <= all {
      if k.secret.Some? { assert k.secret.value in ProjectSelectors(p); }
    }
  }

  lemma ResolveSomeIntegrationsGrows(view: SecretView, i: Option<Integrations>, n: Notes, all: set<Selector>)
    requires i.Some? ==> IntegrationSelectors(i.value) <= all
    ensures var (i', n') := ResolveIntegrations(view, i, n);
            && Grown(view, n, n', all) && (i'.Some? <==> i.Some?)
            && (i'.Some? ==> IntegrationsSettled(view, i.value, i'.value, n'))
  {
    if i.Some? { ResolveIntegrationsGrows(view, i.value, n, all); }
  }

  lemma ResolveProjectGrows(view: SecretView, p: Project, n: Notes, all: set<Selector>)
    requires ProjectSelectors(p) <= all
    ensures var (p', n') := ResolveProject(view, p, n); Grown(view, n, n', all) && ProjectSettled(view, p, p', n')
  {
    ProjectSelectorsCover(p, all);
    ResolveApiKeysGrows(view, p.apiKeys, n, all);
    var (apiKeys, n1) := ResolveApiKeys(p.apiKeys, n);
    ResolveSomeIntegrationsGrows(view, p.integrations, n1, all);
    var (integrations, n2) := ResolveIntegrations(view, p.integrations, n1);
    GrownTransitive(view, n, n1, n2, all);
    ApiKeysStaySettled(p.apiKeys, apiKeys, n1, n2);
  }

  /** All projects are settled. */
  predicate ProjectsSettled(view: SecretView, ps: seq<Project>, ps': seq<Project>, n: Notes)
  {
    |ps'| == |ps| && forall i | 0 <= i < |ps| :: ProjectSettled(view, ps[i], ps'[i], n)
  }

  lemma ProjectStaysSettled(view: SecretView, p: Project, p': Project, n: Notes, n': Notes)
    requires ProjectSettled(view, p, p', n) && Extends(n, n')
    ensures ProjectSettled(view, p, p', n')
  {
    ApiKeysStaySettled(p.apiKeys, p'.apiKeys, n, n');
    if p.integrations.Some? {
      var i, i' := p.integrations.value, p'.integrations.value;
      PartStaysSettled(view, SlackToken, i.slack, i'.slack, n, n');
      PartStaysSettled(view, TeamsWebhook, i.teams, i'.teams, n, n');
      PartStaysSettled(view, PagerdutyKey, i.pagerduty, i'.pagerduty, n, n');
      PartStaysSettled(view, OpsgenieKey, i.opsgenie, i'.opsgenie, n, n');
      WebhookStaysSettled(view, i.webhook, i'.webhook, n, n');
    }
  }

  lemma ProjectsStaySettled(view: SecretView, ps: seq<Project>, ps': seq<Project>, n: Notes, n': Notes)
    requires ProjectsSettled(view, ps, ps', n) && Extends(n, n')
    ensures ProjectsSettled(view, ps, ps', n')
  {
    forall i | 0 <= i < |ps| ensures ProjectSettled(view, ps[i], ps'[i], n') {
      ProjectStaysSettled(view, ps[i], ps'[i], n, n');
    }
  }

  lemma {:induction false} ResolveProjectsGrows(view: SecretView, ps: seq<Project>, n: Notes, all: set<Selector>)
    requires forall p | p in ps :: ProjectSelectors(p) <= all
    ensures var (ps', n') := ResolveProjects(view, ps, n); Grown(view, n, n', all) && ProjectsSettled(view, ps, ps', n')
  {
    if ps != [] {
      var front := ps[..|ps| - 1];
      ResolveProjectsGrows(view, front, n, all);
      var (front', n') := ResolveProjects(view, front, n);
      var (last', n'') := ResolveProject(view, ps[|ps| - 1], n');
      ResolveProjectGrows(view, ps[|ps| - 1], n', all);
      GrownTransitive(view, n, n', n'', all);
      ProjectsStaySettled(view, front, front', n', n'');
    }
  }

  /** Single sign-on stays enabled exactly if there is metadata and whatever metadata was checked parses. */
  predicate SsoSettled(view: SecretView, parses: string -> bool, before: Option<Sso>, after: Option<Sso>, n: Notes)
  {
    if before.None? || !before.value.enabled then after == before
    else
      && after.Some? && after.value == before.value.(enabled := after.value.enabled, saml := after.value.saml)
      && (after.value.saml.Some? <==> before.value.saml.Some?)
      && (after.value.enabled <==>
            && before.value.saml.Some? && Usable(view, SamlCredential(before.value.saml.value))
            && (Metadata(view, before.value.saml.value) == "" || parses(Metadata(view, before.value.saml.value))))
      && (after.value.enabled ==> after.value.saml.value.metadata != "")
      && (before.value.saml.Some? ==>
            && after.value.saml.value.metadataSecret.None?
            && (if Metadata(view, before.value.saml.value) != "" && !parses(Metadata(view, before.value.saml.value))
                then after.value.saml.value.metadata == ""
                else Settled(view, SamlCredential(before.value.saml.value), SamlCredential(after.value.saml.value), n))
            && Reported(view, SamlMetadata, before.value.saml.value.metadataSecret, n)
            && (Metadata(view, before.value.saml.value) != "" && !parses(Metadata(view, before.value.saml.value)) ==>
                  InvalidSamlMetadata in n.problems))
  }

  lemma ResolveSsoGrows(view: SecretView, parses: string -> bool, sso: Option<Sso>, n: Notes, all: set<Selector>)
    requires sso.Some? && sso.value.saml.Some? ==> Chosen(sso.value.saml.value.metadataSecret) <= all
    ensures var (sso', n') := ResolveSso(view, parses, sso, n);
            Grown(view, n, n', all) && SsoSettled(view, parses, sso, sso', n')
  {
    if sso.Some? && sso.value.enabled && sso.value.saml.Some? {
      ResolveGrows(view, SamlMetadata, SamlCredential(sso.value.saml.value), n, all);
    }
  }

  const PROVIDERS := ["anthropic", "openai", "openai_compatible"]

  function KeyOfProvider(ai: Ai, provider: string): Option<Credential>
  {
    if provider == "anthropic" then ai.anthropic
    else if provider == "openai" then ai.openai
    else if provider == "openai_compatible" then ai.openaiCompatible
    else None
  }

  function SubjectOfProvider(provider: string): Subject
  {
    if provider == "anthropic" then AnthropicKey else if provider == "openai" then OpenAIKey else OpenAICompatibleKey
  }

  /** A provider stays chosen exactly if it is known and has a usable key; other providers' keys stay as they are. */
  predicate AiSettled(view: SecretView, before: Option<Ai>, after: Option<Ai>, n: Notes)
  {
    if before.None? || before.value.provider == "" then after == before
    else
      var chosen := before.value.provider;
      && after.Some?
      && (forall p | p in PROVIDERS && p != chosen :: KeyOfProvider(after.value, p) == KeyOfProvider(before.value, p))
      && PartSettled(view, SubjectOfProvider(chosen), KeyOfProvider(before.value, chosen), KeyOfProvider(after.value, chosen), n)
      && after.value.provider == (if KeyOfProvider(after.value, chosen).Some? then chosen else "")
      && (chosen !in PROVIDERS ==> UnknownAiProvider(chosen) in n.problems)
  }

  lemma ResolveAiGrows(view: SecretView, ai: Option<Ai>, n: Notes, all: set<Selector>)
    requires ai.Some? ==> PartSelectors(ai.value.anthropic) <= all && PartSelectors(ai.value.openai) <= all
                          && PartSelectors(ai.value.openaiCompatible) <= all
    ensures var (ai', n') := ResolveAi(view, ai, n); Grown(view, n, n', all) && AiSettled(view, ai, ai', n')
  {
    if ai.Some? {
      if ai.value.provider == "anthropic" {
        ResolvePartGrows(view, AnthropicKey, ai.value.anthropic, n, all);
      } else if ai.value.provider == "openai" {
        ResolvePartGrows(view, OpenAIKey, ai.value.openai, n, all);
      } else if ai.value.provider == "openai_compatible" {
        ResolvePartGrows(view, OpenAICompatibleKey, ai.value.openaiCompatible, n, all);
      }
    }
  }

  /** The administrator's password: its selector is kept exactly if the secret is there, else nothing is left of it. */
  predicate AdminSettled(view: SecretView, before: Credential, after: Credential, n: Notes)
  {
    && Reported(view, AdminPassword, before.secret, n)
    && after == if before.secret.None? || Available(view, before.secret) then before else before.(value := "", secret := None)
  }

  /** What the basic part of normalisation achieves. */
  predicate BasicsSettled(view: SecretView, spec: CorootSpec, spec': CorootSpec, n: Notes)
  {
    && AdminSettled(view, spec.adminPassword, spec'.adminPassword, n)
    && ProjectsSettled(view, spec.projects, spec'.projects, n)
    && spec'.replicas == (if spec.postgres.None? && spec.replicas > 1 then 1 else spec.replicas)
    && spec'.servicePort == (if spec.servicePort == 0 then 8080 else spec.servicePort)
    && (ReplicasNeedPostgres in n.problems <==> spec.postgres.None? && spec.replicas > 1)
  }

  /** What the enterprise part achieves. */
  predicate EnterpriseSettled(view: SecretView, parses: string -> bool, spec: CorootSpec, spec': CorootSpec, n: Notes)
  {
    if spec.enterprise.None? then spec'.sso == spec.sso && spec'.ai == spec.ai
    else
      && Reported(view, LicenseKey, spec.enterprise.value.license.secret, n)
      && SsoSettled(view, parses, spec.sso, spec'.sso, n)
      && AiSettled(view, spec.ai, spec'.ai, n)
  }

  /**
    Normalisation is safe and loses nothing: every selector of a project becomes a reference, or a problem; a part is
    kept exactly if it is usable; references are to given selectors only; problems are genuine; several replicas
    have Postgres; and everything else stays.
  */
  lemma NormaliseIsSafe(view: SecretView, later: SecretView, parses: string -> bool, spec: CorootSpec)
    ensures var Outcome(spec', n) := Normalise(view, later, parses, spec);
            && (forall s | s in n.referred :: s in Selectors(spec))
            && (forall p | p in n.problems :: p.ReplicasNeedPostgres? || Genuine(view, p) || Genuine(later, p))
            && BasicsSettled(view, spec, spec', n)
            && EnterpriseSettled(later, parses, spec, spec', n)
            && OthersStay(spec, spec')
  {
    var all := Selectors(spec);
    BasicsAreSafe(view, spec, all);
    var o, o' := NormaliseBasics(view, spec), Normalise(view, later, parses, spec);
    EnterpriseIsSafe(later, parses, o, all);
    FieldsKept(view, later, parses, spec);
    BasicsStaySettled(view, spec, o.spec, o.notes, o'.spec, o'.notes);
    SameEnterprise(later, parses, o.spec, spec, o'.spec, o'.notes);
  }

  predicate OthersStay(spec: CorootSpec, spec': CorootSpec)
  {
    spec' == spec.(replicas := spec'.replicas, servicePort := spec'.servicePort, adminPassword := spec'.adminPassword,
                   projects := spec'.projects, sso := spec'.sso, ai := spec'.ai)
  }

  lemma FieldsKept(view: SecretView, later: SecretView, parses: string -> bool, spec: CorootSpec)
    ensures OthersStay(spec, Normalise(view, later, parses, spec).spec)
    ensures BasicFields(Normalise(view, later, parses, spec).spec) == BasicFields(NormaliseBasics(view, spec).spec)
    ensures EnterpriseFields(NormaliseBasics(view, spec).spec) == EnterpriseFields(spec)
  {}

  function BasicFields(spec: CorootSpec): (int, int, Credential, seq<Project>, Option<string>)
  {
    (spec.replicas, spec.servicePort, spec.adminPassword, spec.projects, spec.postgres)
  }

  function EnterpriseFields(spec: CorootSpec): (Option<Enterprise>, Option<Sso>, Option<Ai>)
  {
    (spec.enterprise, spec.sso, spec.ai)
  }

  lemma SameEnterprise(view: SecretView, parses: string -> bool, a: CorootSpec, b: CorootSpec, spec': CorootSpec, n: Notes)
    requires EnterpriseFields(a) == EnterpriseFields(b) && EnterpriseSettled(view, parses, a, spec', n)
    ensures EnterpriseSettled(view, parses, b, spec', n)
  {}

  lemma BasicsStaySettled(view: SecretView, spec: CorootSpec, a: CorootSpec, n: Notes, spec': CorootSpec, n': Notes)
    requires BasicsSettled(view, spec, a, n) && BasicFields(a) == BasicFields(spec') && Extends(n, n')
    requires forall i | |n.problems| <= i < |n'.problems| :: !n'.problems[i].ReplicasNeedPostgres?
    ensures BasicsSettled(view, spec, spec', n')
  {
    ProjectsStaySettled(view, spec.projects, spec'.projects, n, n');
    if ReplicasNeedPostgres in n'.problems {
      var i :| 0 <= i < |n'.problems| && n'.problems[i] == ReplicasNeedPostgres;
      assert n.problems[i] == ReplicasNeedPostgres;
    }
  }

  lemma AdminStaysSettled(view: SecretView, before: Credential, after: Credential, n: Notes, n': Notes)
    requires AdminSettled(view, before, after, n) && Extends(n, n')
    ensures AdminSettled(view, before, after, n')
  {}

  lemma BasicsAreSafe(view: SecretView, spec: CorootSpec, all: set<Selector>)
    requires forall p, s | p in spec.projects && s in ProjectSelectors(p) :: s in all
    ensures var Outcome(spec', n) := NormaliseBasics(view, spec);
            && (forall s | s in n.referred :: s in all)
            && (forall p | p in n.problems :: p.ReplicasNeedPostgres? || Genuine(view, p))
            && BasicsSettled(view, spec, spec', n)
  {
    var tooMany := spec.replicas > 1 && spec.postgres.None?;
    var n0 := if tooMany then Noted(NO_NOTES, ReplicasNeedPostgres) else NO_NOTES;
    var n1 := ResolveAdminPassword(view, spec.adminPassword, n0).1;
    assert Grown(view, n0, n1, all);
    forall p | p in spec.projects ensures ProjectSelectors(p) <= all {}
    ResolveProjectsGrows(view, spec.projects, n1, all);
    var n2 := NormaliseBasics(view, spec).notes;
    GrownTransitive(view, n0, n1, n2, all);
    AdminStaysSettled(view, spec.adminPassword, ResolveAdminPassword(view, spec.adminPassword, n0).0, n1, n2);
    if tooMany { assert n2.problems[0] == ReplicasNeedPostgres; }
  }

  lemma EnterpriseIsSafe(view: SecretView, parses: string -> bool, o: Outcome, all: set<Selector>)
    requires o.spec.sso.Some? && o.spec.sso.value.saml.Some? ==> Chosen(o.spec.sso.value.saml.value.metadataSecret) <= all
    requires o.spec.ai.Some? ==> PartSelectors(o.spec.ai.value.anthropic) <= all && PartSelectors(o.spec.ai.value.openai) <= all
                                 && PartSelectors(o.spec.ai.value.openaiCompatible) <= all
    ensures var Outcome(spec', n) := NormaliseEnterprise(view, parses, o);
            Grown(view, o.notes, n, all) && EnterpriseSettled(view, parses, o.spec, spec', n)
  {
    if o.spec.enterprise.None? { return; }
    var n3 := CheckLicense(view, o.spec.enterprise.value.license, o.notes);
    assert Grown(view, o.notes, n3, all);
    var (sso, n4) := ResolveSso(view, parses, o.spec.sso, n3);
    ResolveSsoGrows(view, parses, o.spec.sso, n3, all);
    var (ai, n5) := ResolveAi(view, o.spec.ai, n4);
    ResolveAiGrows(view, o.spec.ai, n4, all);
    GrownTransitive(view, n3, n4, n5, all);
    GrownTransitive(view, o.notes, n3, n5, all);
    SsoStaysSettled(view, parses, o.spec.sso, sso, n4, n5);
  }

  lemma SsoStaysSettled(view: SecretView, parses: string -> bool, before: Option<Sso>, after: Option<Sso>, n: Notes, n': Notes)
    requires SsoSettled(view, parses, before, after, n) && Extends(n, n')
    ensures SsoSettled(view, parses, before, after, n')
  {}

  // ---- the variables behind the references ----

  lemma {:induction false} VariablesNamed(name: Selector -> string, referred: seq<Selector>)
    ensures var vars := VariablesBy(name, referred);
            && (forall n | n in vars :: vars[n] in referred && name(vars[n]) == n)
            && (forall s | s in referred :: name(s) in vars)
  {
    if referred != [] {
      var front, last := referred[..|referred| - 1], referred[|referred| - 1];
      VariablesNamed(name, front);
      forall s | s in referred ensures name(s) in VariablesBy(name, referred) { assert s in front || s == last; }
    }
  }

  /** Every variable is named by the checksum of the selector it holds, and every selector has its variable. */
  lemma VariablesNamedByChecksum(referred: seq<Selector>)
    ensures var envs := EnvsOf(referred);
            && (forall name | name in envs :: envs[name] in referred && EnvName(envs[name]) == name)
            && (forall s | s in referred :: EnvName(s) in envs)
  {
    VariablesNamed(EnvName, referred);
  }

  /** No later selector has the name of `s`. */
  predicate IsLastNamed(name: Selector -> string, referred: seq<Selector>, s: Selector)
  {
    exists i | 0 <= i < |referred| :: referred[i] == s && forall j | i < j < |referred| :: name(referred[j]) != name(s)
  }

  lemma LastNamedStep(name: Selector -> string, front: seq<Selector>, last: Selector, s: Selector)
    ensures IsLastNamed(name, front + [last], s) <==> last == s || (name(last) != name(s) && IsLastNamed(name, front, s))
  {
    var n, referred := |front|, front + [last];
    if IsLastNamed(name, referred, s) && last != s {
      var i :| 0 <= i < |referred| && referred[i] == s && forall j | i < j < |referred| :: name(referred[j]) != name(s);
      assert name(referred[n]) != name(s);
      assert front[i] == s && forall j | i < j < n :: name(front[j]) == name(referred[j]);
    }
    if name(last) != name(s) && IsLastNamed(name, front, s) {
      var i :| 0 <= i < n && front[i] == s && forall j | i < j < n :: name(front[j]) != name(s);
      assert referred[i] == s && forall j | i < j < |referred| :: name(referred[j]) != name(s);
    }
    assert referred[n] == last;
  }

  lemma {:induction false} LastNamedWins(name: Selector -> string, referred: seq<Selector>, s: Selector)
    ensures var vars := VariablesBy(name, referred);
            (name(s) in vars && vars[name(s)] == s) <==> IsLastNamed(name, referred, s)
  {
    if referred != [] {
      var front, last := referred[..|referred| - 1], referred[|referred| - 1];
      LastNamedWins(name, front, s);
      LastNamedStep(name, front, last, s);
      assert referred == front + [last];
    }
  }

  /** The name read from the text is that of a variable which holds the selector. */
  predicate LeadsTo(text: string, referred: seq<Selector>, s: Selector)
  {
    var name := ReadReference(text);
    name.Some? && name.value in EnvsOf(referred) && EnvsOf(referred)[name.value] == s
  }

  /** A reference leads to its selector exactly if no selector referred to later shares its checksum. */
  lemma ReferenceLeadsToSelector(referred: seq<Selector>, s: Selector)
    ensures LeadsTo(Reference(EnvName(s)), referred, s) <==> IsLastNamed(EnvName, referred, s)
  {
    EnvNameText(s);
    ReferenceReadsBack(EnvName(s));
    LastNamedWins(EnvName, referred, s);
  }

  lemma LaterTakesOver(name: Selector -> string, a: Selector, b: Selector)
    requires name(a) == name(b)
    ensures VariablesBy(name, [a, b]) == map[name(a) := b]
  {
    assert [a, b][..1] == [a] && [a][..0] == [];
    assert VariablesBy(name, [a]) == VariablesBy(name, [])[name(a) := a];
    assert VariablesBy(name, [a, b]) == VariablesBy(name, [a])[name(b) := b];
  }

  /** Two existing keys of one secret for which a Slack token's reference leads to the PagerDuty key. */
  lemma ReferenceMayMislead(view: SecretView, secret: string)
    requires secret in view && COLLIDING_A in view[secret] && COLLIDING_B in view[secret]
    ensures var a, b := Selector(secret, COLLIDING_A), Selector(secret, COLLIDING_B);
            var i := Integrations("", Some(Credential("", Some(a), "")), None, Some(Credential("", Some(b), "")), None, None);
            var (i', n) := ResolveIntegrations(view, Some(i), NO_NOTES);
            && i'.Some? && i'.value.slack == Some(Credential(Reference(EnvName(a)), None, ""))
            && LeadsTo(i'.value.slack.value.value, n.referred, b) && !LeadsTo(i'.value.slack.value.value, n.referred, a)
            && EnvsOf(n.referred) == map[EnvName(a) := b] && a != b
  {
    var a, b := Selector(secret, COLLIDING_A), Selector(secret, COLLIDING_B);
    KeysCollide(secret);
    var i := Integrations("", Some(Credential("", Some(a), "")), None, Some(Credential("", Some(b), "")), None, None);
    var n := ResolveIntegrations(view, Some(i), NO_NOTES).1;
    assert n == Referring(Referring(NO_NOTES, a), b);
    assert n.referred == [a, b];
    LaterTakesOver(EnvName, a, b);
    EnvNameText(a);
    ReferenceReadsBack(EnvName(a));
  }

  // ---- normalising again ----

  lemma {:induction false} ApiKeysStay(ks: seq<Credential>, n: Notes)
    requires forall k | k in ks :: k.secret.None?
    ensures ResolveApiKeys(ks, n) == (ks, n)
  {
    if ks != [] {
      ApiKeysStay(ks[..|ks| - 1], n);
      assert ks == ks[..|ks| - 1] + [ks[|ks| - 1]];
    }
  }

  lemma ProjectStays(first: SecretView, view: SecretView, before: Project, p: Project, m: Notes, n: Notes)
    requires ProjectSettled(first, before, p, m)
    ensures ResolveProject(view, p, n) == (p, n)
  {
    forall k | k in p.apiKeys ensures k.secret.None? {
      var i :| 0 <= i < |p.apiKeys| && p.apiKeys[i] == k;
      assert ApiKeySettled(before.apiKeys[i], p.apiKeys[i], m);
    }
    ApiKeysStay(p.apiKeys, n);
    if p.integrations.Some? {
      IntegrationsStay(first, view, before.integrations.value, p.integrations.value, m, n);
    }
  }

  lemma IntegrationsStay(first: SecretView, view: SecretView, before: Integrations, i: Integrations, m: Notes, n: Notes)
    requires IntegrationsSettled(first, before, i, m)
    ensures ResolveIntegrations(view, Some(i), n) == (Some(i), n)
  {
    assert ResolvePart(view, SlackToken, i.slack, n) == (i.slack, n);
    assert ResolvePart(view, TeamsWebhook, i.teams, n) == (i.teams, n);
    assert ResolvePart(view, PagerdutyKey, i.pagerduty, n) == (i.pagerduty, n);
    assert ResolvePart(view, OpsgenieKey, i.opsgenie, n) == (i.opsgenie, n);
    assert ResolveWebhook(view, i.webhook, n) == (i.webhook, n);
  }

  lemma {:induction false} ProjectsStay(first: SecretView, view: SecretView, before: seq<Project>, ps: seq<Project>, m: Notes, n: Notes)
    requires ProjectsSettled(first, before, ps, m)
    ensures ResolveProjects(view, ps, n) == (ps, n)
  {
    if ps != [] {
      var i := |ps| - 1;
      ProjectsStay(first, view, before[..i], ps[..i], m, n);
      ProjectStays(first, view, before[i], ps[i], m, n);
      assert ps == ps[..i] + [ps[i]];
    }
  }

  /** Every secret value of `view` is still there in `later`. */
  predicate Retained(view: SecretView, later: SecretView)
  {
    forall name | name in view :: name in later && forall key | key in view[name] :: key in later[name]
  }

  predicate IsLicenseOrSaml(p: Problem)
  {
    p == InvalidSamlMetadata || (p.SecretUnavailable? && p.subject == LicenseKey)
  }

  /**
    Single sign-on survives normalisation with metadata that does not parse as it stands: the reference that replaces
    a good secret, or a text that was not checked because its secret is missing.
  */
  predicate SamlLost(view: SecretView, parses: string -> bool, spec: CorootSpec)
  {
    && spec.enterprise.Some? && spec.sso.Some? && spec.sso.value.enabled && spec.sso.value.saml.Some?
    && var saml := spec.sso.value.saml.value;
       && saml.metadataSecret.Some?
       && if Available(view, saml.metadataSecret)
          then (Metadata(view, saml) == "" || parses(Metadata(view, saml))) && !parses(Reference(EnvName(saml.metadataSecret.value)))
          else saml.metadata != "" && !parses(saml.metadata)
  }

  /**
    Normalising what was normalised, against secrets that still exist, changes nothing outside the SAML part, and
    only the license or SAML metadata can still be reported.  It changes nothing at all exactly when no unparsable
    SAML metadata was let through the first time.
  */
  lemma NormaliseAgain(view: SecretView, later: SecretView, view': SecretView, later': SecretView,
                       parses: string -> bool, spec: CorootSpec)
    requires Retained(view, view')
    ensures var once := Normalise(view, later, parses, spec).spec;
            var again := Normalise(view', later', parses, once);
            && again.spec == once.(sso := again.spec.sso)
            && (forall p | p in again.notes.problems :: IsLicenseOrSaml(p))
            && (again.spec == once <==> !SamlLost(later, parses, spec))
  {
    NormaliseIsSafe(view, later, parses, spec);
    var o := Normalise(view, later, parses, spec);
    BasicsAgain(view, view', spec, o.spec, o.notes);
    EnterpriseAgain(later, later', parses, spec, o.spec, o.notes);
  }

  lemma BasicsAgain(view: SecretView, view': SecretView, spec: CorootSpec, once: CorootSpec, n: Notes)
    requires Retained(view, view') && BasicsSettled(view, spec, once, n) && once.postgres == spec.postgres
    ensures NormaliseBasics(view', once) == Outcome(once, NO_NOTES)
  {
    ProjectsStay(view, view', spec.projects, once.projects, n, NO_NOTES);
    assert ResolveAdminPassword(view', once.adminPassword, NO_NOTES) == (once.adminPassword, NO_NOTES);
  }

  lemma EnterpriseAgain(first: SecretView, later: SecretView, parses: string -> bool, spec: CorootSpec, once: CorootSpec, n: Notes)
    requires EnterpriseSettled(first, parses, spec, once, n) && once.enterprise == spec.enterprise
    ensures var again := NormaliseEnterprise(later, parses, Outcome(once, NO_NOTES));
            && again.spec == once.(sso := again.spec.sso)
            && (forall p | p in again.notes.problems :: IsLicenseOrSaml(p))
            && (again.spec == once <==> !SamlLost(first, parses, spec))
  {
    if spec.enterprise.Some? {
      var n3 := CheckLicense(later, once.enterprise.value.license, NO_NOTES);
      SsoAgain(first, later, parses, spec, once.sso, n, n3);
      AiAgain(first, later, spec.ai, once.ai, n, ResolveSso(later, parses, once.sso, n3).1);
    }
  }

  lemma AiAgain(first: SecretView, later: SecretView, ai: Option<Ai>, once: Option<Ai>, n: Notes, m: Notes)
    requires AiSettled(first, ai, once, n)
    ensures ResolveAi(later, once, m) == (once, m)
  {}

  lemma SsoAgain(first: SecretView, later: SecretView, parses: string -> bool, spec: CorootSpec, once: Option<Sso>, n: Notes, m: Notes)
    requires spec.enterprise.Some? && SsoSettled(first, parses, spec.sso, once, n)
    ensures var (sso, m') := ResolveSso(later, parses, once, m);
            && (sso == once <==> !SamlLost(first, parses, spec))
            && (m' == m || m' == Noted(m, InvalidSamlMetadata))
  {
    if once.Some? && once.value.enabled {
      assert once.value.saml.Some? && once.value.saml.value.metadataSecret.None?;
    }
  }

  // ---- SAML metadata that gets lost ----

  const SAML_SELECTOR := Selector("idp", "metadata")

  const SAML_SSO := Sso(true, "", Some(Saml("", Some(SAML_SELECTOR))))

  /**
    Good metadata in a secret is kept the first time and lost the second, for any parser that accepts the metadata
    and rejects the reference.
  */
  lemma SamlLostSecondTime(document: string, parses: string -> bool, spec: CorootSpec)
    requires parses(document) && !parses(Reference(EnvName(SAML_SELECTOR)))
    requires spec.enterprise.Some? && spec.sso == Some(SAML_SSO)
    ensures var view: SecretView := map["idp" := map["metadata" := document]];
            var once := Normalise(view, view, parses, spec).spec;
            && SamlLost(view, parses, spec)
            && once.sso.Some? && once.sso.value.enabled
            && Normalise(view, view, parses, once).spec != once
  {
    var view: SecretView := map["idp" := map["metadata" := document]];
    assert GetSecret(view, SAML_SELECTOR) == Ok(document);
    assert SamlLost(view, parses, spec);
    NormaliseAgain(view, view, view, view, parses, spec);
    NormaliseIsSafe(view, view, parses, spec);
  }
}
