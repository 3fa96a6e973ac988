/**
  The Coroot resource.  Members that no modelled decision depends on are kept together in `settings`.
*/
module Resource {
  import opened Options

  datatype Selector = Selector(name: string, key: string)

  /** A credential given in plain text or by a secret. */
  datatype Credential = Credential(value: string, secret: Option<Selector>, settings: string)

  datatype BasicAuth = BasicAuth(username: string, password: string, passwordSecret: Option<Selector>)

  datatype Webhook = Webhook(
    url: string, basicAuth: Option<BasicAuth>,
    incidents: bool, deployments: bool, incidentTemplate: string, deploymentTemplate: string, settings: string)

  datatype Integrations = Integrations(
    baseUrl: string, slack: Option<Credential>, teams: Option<Credential>, pagerduty: Option<Credential>,
    opsgenie: Option<Credential>, webhook: Option<Webhook>)

  datatype Project = Project(name: string, apiKeys: seq<Credential>, integrations: Option<Integrations>, settings: string)

  datatype Saml = Saml(metadata: string, metadataSecret: Option<Selector>)

  datatype Sso = Sso(enabled: bool, defaultRole: string, saml: Option<Saml>)

  datatype Ai = Ai(
    provider: string, anthropic: Option<Credential>, openai: Option<Credential>, openaiCompatible: Option<Credential>)

  datatype Enterprise = Enterprise(license: Credential)

  datatype PublicAccess = PublicAccess(annotations: map<string, string>, settings: string)

  const RETAIN := "Retain"

  datatype CorootSpec = CorootSpec(
    replicas: int,
    postgres: Option<string>,
    servicePort: int,
    serviceAnnotations: map<string, string>,
    ingress: Option<PublicAccess>,
    adminPassword: Credential,
    projects: seq<Project>,
    enterprise: Option<Enterprise>,
    sso: Option<Sso>,
    ai: Option<Ai>,
    agentsOnly: bool,
    externalPrometheus: bool,
    externalClickhouse: bool,
    shards: int,
    clickhouseReplicas: int,
    keeperReplicas: int,
    reclaimPolicy: string,
    prometheusReclaimPolicy: string,
    clickhouseReclaimPolicy: string,
    keeperReclaimPolicy: string,
    settings: string)
}
