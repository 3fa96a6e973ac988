/**
  The references validation writes, in terms of the specification alone: which selectors they are for and in which
  order, and when each leads to its selector.
*/
module References {
  import opened ConfigEnvs
  import opened Normalisation
  import opened Options
  import opened Plan
  import opened Resource

  function IfAvailable(view: SecretView, secret: Option<Selector>): seq<Selector>
  {
    if Available(view, secret) then [secret.value] else []
  }

  function PartReferred(view: SecretView, c: Option<Credential>): seq<Selector>
  {
    if c.Some? then IfAvailable(view, c.value.secret) else []
  }

  /** API keys are referred to whether their secrets exist or not. */
  function KeysReferred(ks: seq<Credential>): seq<Selector>
  {
    if ks == [] then []
    else
      var last := ks[|ks| - 1];
      KeysReferred(ks[..|ks| - 1]) + if last.secret.Some? then [last.secret.value] else []
  }

  function WebhookReferred(view: SecretView, w: Option<Webhook>): seq<Selector>
  {
    if w.Some? && w.value.basicAuth.Some? then IfAvailable(view, w.value.basicAuth.value.passwordSecret) else []
  }

  function IntegrationsReferred(view: SecretView, i: Option<Integrations>): seq<Selector>
  {
    match i
    case None => []
    case Some(i) =>
      PartReferred(view, i.slack) + PartReferred(view, i.teams) + PartReferred(view, i.pagerduty) + PartReferred(view, i.opsgenie)
      + WebhookReferred(view, i.webhook)
  }

  function ProjectsReferred(view: SecretView, ps: seq<Project>): seq<Selector>
  {
    if ps == [] then []
    else
      var last := ps[|ps| - 1];
      ProjectsReferred(view, ps[..|ps| - 1]) + KeysReferred(last.apiKeys) + IntegrationsReferred(view, last.integrations)
  }

  function SsoReferred(view: SecretView, sso: Option<Sso>): seq<Selector>
  {
    if sso.Some? && sso.value.enabled && sso.value.saml.Some? then IfAvailable(view, sso.value.saml.value.metadataSecret) else []
  }

  function AiReferred(view: SecretView, ai: Option<Ai>): seq<Selector>
  {
    if ai.Some? then PartReferred(view, KeyOfProvider(ai.value, ai.value.provider)) else []
  }

  /** The selectors referred to, in the order in which the specification gives them. */
  function ReferredBy(view: SecretView, later: SecretView, spec: CorootSpec): seq<Selector>
  {
    ProjectsReferred(view, spec.projects)
    + if spec.enterprise.Some? then SsoReferred(later, spec.sso) + AiReferred(later, spec.ai) else []
  }

  lemma PartRefers(view: SecretView, subject: Subject, c: Option<Credential>, n: Notes)
    ensures ResolvePart(view, subject, c, n).1.referred == n.referred + PartReferred(view, c)
  {}

  lemma WebhookRefers(view: SecretView, w: Option<Webhook>, n: Notes)
    ensures ResolveWebhook(view, w, n).1.referred == n.referred + WebhookReferred(view, w)
  {}

  lemma IntegrationsRefer(view: SecretView, i: Option<Integrations>, n: Notes)
    ensures ResolveIntegrations(view, i, n).1.referred == n.referred + IntegrationsReferred(view, i)
  {
    if i.Some? {
      var i := i.value;
      var n1 := ResolvePart(view, SlackToken, i.slack, n).1;
      var n2 := ResolvePart(view, TeamsWebhook, i.teams, n1).1;
      var n3 := ResolvePart(view, PagerdutyKey, i.pagerduty, n2).1;
      var n4 := ResolvePart(view, OpsgenieKey, i.opsgenie, n3).1;
      TwoPartsRefer(view, SlackToken, i.slack, TeamsWebhook, i.teams, n);
      TwoPartsRefer(view, PagerdutyKey, i.pagerduty, OpsgenieKey, i.opsgenie, n2);
      WebhookRefers(view, i.webhook, n4);
      InOrder(n.referred, PartReferred(view, i.slack), PartReferred(view, i.teams), PartReferred(view, i.pagerduty),
              PartReferred(view, i.opsgenie), WebhookReferred(view, i.webhook));
    }
  }

  lemma TwoPartsRefer(view: SecretView, x: Subject, c: Option<Credential>, y: Subject, d: Option<Credential>, n: Notes)
    ensures ResolvePart(view, y, d, ResolvePart(view, x, c, n).1).1.referred
         == n.referred + PartReferred(view, c) + PartReferred(view, d)
  {
    PartRefers(view, x, c, n);
    PartRefers(view, y, d, ResolvePart(view, x, c, n).1);
  }

  lemma InOrder(n: seq<Selector>, a: seq<Selector>, b: seq<Selector>, c: seq<Selector>, d: seq<Selector>, e: seq<Selector>)
    ensures n + a + b + c + d + e == n + (a + b + c + d + e)
  {}

  lemma {:induction false} KeysRefer(ks: seq<Credential>, n: Notes)
    ensures ResolveApiKeys(ks, n).1.referred == n.referred + KeysReferred(ks)
  {
    if ks != [] { KeysRefer(ks[..|ks| - 1], n); }
  }

  lemma {:induction false} ProjectsRefer(view: SecretView, ps: seq<Project>, n: Notes)
    ensures ResolveProjects(view, ps, n).1.referred == n.referred + ProjectsReferred(view, ps)
  {
    if ps != [] {
      var front, last := ps[..|ps| - 1], ps[|ps| - 1];
      ProjectsRefer(view, front, n);
      var n' := ResolveProjects(view, front, n).1;
      KeysRefer(last.apiKeys, n');
      IntegrationsRefer(view, last.integrations, ResolveApiKeys(last.apiKeys, n').1);
    }
  }

  lemma SsoRefers(view: SecretView, parses: string -> bool, sso: Option<Sso>, n: Notes)
    ensures ResolveSso(view, parses, sso, n).1.referred == n.referred + SsoReferred(view, sso)
  {}

  lemma AiRefers(view: SecretView, ai: Option<Ai>, n: Notes)
    ensures ResolveAi(view, ai, n).1.referred == n.referred + AiReferred(view, ai)
  {
    if ai.Some? {
      var chosen := ai.value.provider;
      PartRefers(view, SubjectOfProvider(chosen), KeyOfProvider(ai.value, chosen), n);
    }
  }

  lemma BasicsRefer(view: SecretView, spec: CorootSpec)
    ensures NormaliseBasics(view, spec).notes.referred == ProjectsReferred(view, spec.projects)
  {
    var tooMany := spec.replicas > 1 && spec.postgres.None?;
    var n0 := if tooMany then Noted(NO_NOTES, ReplicasNeedPostgres) else NO_NOTES;
    var n1 := ResolveAdminPassword(view, spec.adminPassword, n0).1;
    assert n1.referred == [];
    ProjectsRefer(view, spec.projects, n1);
  }

  lemma EnterpriseRefers(view: SecretView, parses: string -> bool, o: Outcome)
    ensures NormaliseEnterprise(view, parses, o).notes.referred
         == o.notes.referred + if o.spec.enterprise.Some? then SsoReferred(view, o.spec.sso) + AiReferred(view, o.spec.ai) else []
  {
    if o.spec.enterprise.Some? {
      var n3 := CheckLicense(view, o.spec.enterprise.value.license, o.notes);
      SsoRefers(view, parses, o.spec.sso, n3);
      AiRefers(view, o.spec.ai, ResolveSso(view, parses, o.spec.sso, n3).1);
    }
  }

  /** Exactly the available selectors are referred to, and all API keys, in the order of the specification. */
  lemma ReferredInOrder(view: SecretView, later: SecretView, parses: string -> bool, spec: CorootSpec)
    ensures Normalise(view, later, parses, spec).notes.referred == ReferredBy(view, later, spec)
  {
    BasicsRefer(view, spec);
    EnterpriseRefers(later, parses, NormaliseBasics(view, spec));
  }

  // ---- what is read from the normalised specification ----

  /** The name read from the text is that of a listed variable, which takes its value from the selector. */
  predicate Delivers(text: string, envs: seq<EnvVar>, s: Selector)
  {
    exists e | e in envs :: ReadReference(text) == Some(e.name) && e.selector == s
  }

  lemma ListDelivers(text: string, referred: seq<Selector>, s: Selector)
    ensures Delivers(text, EnvList(EnvsOf(referred)), s) <==> LeadsTo(text, referred, s)
  {
    var entries := EnvsOf(referred);
    var envs := EnvList(entries);
    StrictListExists(entries);
    assert ListsStrictly(envs, entries);
    if Delivers(text, envs, s) {
      var e :| e in envs && ReadReference(text) == Some(e.name) && e.selector == s;
      var i :| 0 <= i < |envs| && envs[i] == e;
    }
    if LeadsTo(text, referred, s) {
      var e := EnvVar(ReadReference(text).value, s);
      assert e in envs;
    }
  }

  /** What the list delivers for a credential given by `s`: its value, exactly if no later selector has its checksum. */
  ghost predicate IsDelivered(view: SecretView, later: SecretView, parses: string -> bool, spec: CorootSpec, text: string, s: Selector)
  {
    Delivers(text, EnvList(EnvsOf(Normalise(view, later, parses, spec).notes.referred)), s)
    <==> IsLastNamed(EnvName, ReferredBy(view, later, spec), s)
  }

  /** Of the selectors of one checksum, the reference leads to the last available one. */
  lemma LastOfChecksumWins(view: SecretView, later: SecretView, parses: string -> bool, spec: CorootSpec, s: Selector)
    ensures IsDelivered(view, later, parses, spec, Reference(EnvName(s)), s)
  {
    ReferredInOrder(view, later, parses, spec);
    ReferenceLeadsToSelector(ReferredBy(view, later, spec), s);
    ListDelivers(Reference(EnvName(s)), ReferredBy(view, later, spec), s);
  }

  lemma SomeIsLast(name: Selector -> string, referred: seq<Selector>, s: Selector)
    requires s in referred && forall t | t in referred && name(t) == name(s) :: t == s
    ensures IsLastNamed(name, referred, s)
  {
    VariablesNamed(name, referred);
    LastNamedWins(name, referred, s);
  }

  /** If the selectors of a specification have different checksums, every reference delivers its selector's value. */
  lemma DifferentChecksumsSuffice(view: SecretView, later: SecretView, parses: string -> bool, spec: CorootSpec, s: Selector)
    requires s in ReferredBy(view, later, spec)
    requires forall t | t in Selectors(spec) && EnvName(t) == EnvName(s) :: t == s
    ensures Delivers(Reference(EnvName(s)), EnvList(EnvsOf(Normalise(view, later, parses, spec).notes.referred)), s)
  {
    var referred := ReferredBy(view, later, spec);
    ReferredInOrder(view, later, parses, spec);
    NormaliseIsSafe(view, later, parses, spec);
    assert forall t | t in referred :: t in Selectors(spec);
    SomeIsLast(EnvName, referred, s);
    LastOfChecksumWins(view, later, parses, spec, s);
  }

  /** `b` is the credential of an API key in the specification, and `a` what became of it. */
  predicate KeyPair(spec: CorootSpec, spec': CorootSpec, b: Credential, a: Credential)
  {
    exists i, j | 0 <= i < |spec.projects| && 0 <= j < |spec.projects[i].apiKeys| ::
      && i < |spec'.projects| && j < |spec'.projects[i].apiKeys|
      && b == spec.projects[i].apiKeys[j] && a == spec'.projects[i].apiKeys[j]
  }

  predicate BothAre(before: Option<Credential>, after: Option<Credential>, b: Credential, a: Credential)
  {
    before == Some(b) && after == Some(a)
  }

  function AuthOf(w: Option<Webhook>): Option<Credential>
  {
    if w.Some? && w.value.basicAuth.Some? then Some(AuthCredential(w.value.basicAuth.value)) else None
  }

  predicate IntegrationPair(i: Integrations, i': Integrations, b: Credential, a: Credential)
  {
    || BothAre(i.slack, i'.slack, b, a) || BothAre(i.teams, i'.teams, b, a) || BothAre(i.pagerduty, i'.pagerduty, b, a)
    || BothAre(i.opsgenie, i'.opsgenie, b, a) || BothAre(AuthOf(i.webhook), AuthOf(i'.webhook), b, a)
  }

  /** `b` is a credential of an integration that is kept, and `a` what became of it. */
  predicate PartPair(spec: CorootSpec, spec': CorootSpec, b: Credential, a: Credential)
  {
    exists i | 0 <= i < |spec.projects| ::
      && i < |spec'.projects| && spec.projects[i].integrations.Some? && spec'.projects[i].integrations.Some?
      && IntegrationPair(spec.projects[i].integrations.value, spec'.projects[i].integrations.value, b, a)
  }

  function MetadataOf(sso: Option<Sso>): Option<Credential>
  {
    if sso.Some? && sso.value.enabled && sso.value.saml.Some? then Some(SamlCredential(sso.value.saml.value)) else None
  }

  /** `b` is the SAML metadata of an enabled single sign-on, or the key of the chosen provider, and `a` what became of it. */
  predicate EnterprisePair(spec: CorootSpec, spec': CorootSpec, b: Credential, a: Credential)
  {
    && spec.enterprise.Some?
    && (BothAre(MetadataOf(spec.sso), MetadataOf(spec'.sso), b, a)
        || (spec.ai.Some? && spec'.ai.Some?
            && BothAre(KeyOfProvider(spec.ai.value, spec.ai.value.provider), KeyOfProvider(spec'.ai.value, spec.ai.value.provider), b, a)))
  }

  /** The text is what the credential becomes: a reference that delivers the secret's value, or the text as given. */
  ghost predicate Becomes(view: SecretView, later: SecretView, parses: string -> bool, spec: CorootSpec,
                          b: Credential, a: Credential, byReference: bool)
  {
    && a.secret.None?
    && if byReference then b.secret.Some? && IsDelivered(view, later, parses, spec, a.value, b.secret.value) else a.value == b.value
  }

  lemma KeysBecome(view: SecretView, later: SecretView, parses: string -> bool, spec: CorootSpec, b: Credential, a: Credential)
    requires KeyPair(spec, Normalise(view, later, parses, spec).spec, b, a)
    ensures Becomes(view, later, parses, spec, b, a, b.secret.Some?)
  {
    var o := Normalise(view, later, parses, spec);
    NormaliseIsSafe(view, later, parses, spec);
    var i, j :| 0 <= i < |spec.projects| && 0 <= j < |spec.projects[i].apiKeys| && j < |o.spec.projects[i].apiKeys|
                && b == spec.projects[i].apiKeys[j] && a == o.spec.projects[i].apiKeys[j];
    assert ProjectSettled(view, spec.projects[i], o.spec.projects[i], o.notes);
    assert ApiKeySettled(b, a, o.notes);
    if b.secret.Some? { LastOfChecksumWins(view, later, parses, spec, b.secret.value); }
  }

  lemma IntegrationSettles(view: SecretView, i: Integrations, i': Integrations, n: Notes, b: Credential, a: Credential)
    requires IntegrationsSettled(view, i, i', n) && IntegrationPair(i, i', b, a)
    ensures Settled(view, b, a, n)
  {}

  lemma PartsBecome(view: SecretView, later: SecretView, parses: string -> bool, spec: CorootSpec, b: Credential, a: Credential)
    requires PartPair(spec, Normalise(view, later, parses, spec).spec, b, a)
    ensures Becomes(view, later, parses, spec, b, a, Available(view, b.secret))
  {
    var o := Normalise(view, later, parses, spec);
    NormaliseIsSafe(view, later, parses, spec);
    var i :| 0 <= i < |spec.projects| && spec.projects[i].integrations.Some? && o.spec.projects[i].integrations.Some?
             && IntegrationPair(spec.projects[i].integrations.value, o.spec.projects[i].integrations.value, b, a);
    assert ProjectSettled(view, spec.projects[i], o.spec.projects[i], o.notes);
    IntegrationSettles(view, spec.projects[i].integrations.value, o.spec.projects[i].integrations.value, o.notes, b, a);
    if Available(view, b.secret) { LastOfChecksumWins(view, later, parses, spec, b.secret.value); }
  }

  lemma EnterpriseSettles(view: SecretView, parses: string -> bool, spec: CorootSpec, spec': CorootSpec, n: Notes, b: Credential, a: Credential)
    requires EnterpriseSettled(view, parses, spec, spec', n) && EnterprisePair(spec, spec', b, a)
    ensures Settled(view, b, a, n)
  {}

  lemma EnterpriseBecomes(view: SecretView, later: SecretView, parses: string -> bool, spec: CorootSpec, b: Credential, a: Credential)
    requires EnterprisePair(spec, Normalise(view, later, parses, spec).spec, b, a)
    ensures Becomes(view, later, parses, spec, b, a, Available(later, b.secret))
  {
    var o := Normalise(view, later, parses, spec);
    NormaliseIsSafe(view, later, parses, spec);
    EnterpriseSettles(later, parses, spec, o.spec, o.notes, b, a);
    if Available(later, b.secret) { LastOfChecksumWins(view, later, parses, spec, b.secret.value); }
  }
}
