/**
  The table of image names.  It is refilled under a lock and then prefixed in place, entry by entry, in
  arbitrary order.
*/
module Versions {
  import opened Options

  datatype App =
    CorootCE | CorootEE | NodeAgent | ClusterAgent | Clickhouse | ClickhouseKeeper | Prometheus | KubeStateMetrics

  function AppName(app: App): string
  {
    match app
    case CorootCE => "coroot"
    case CorootEE => "coroot-ee"
    case NodeAgent => "coroot-node-agent"
    case ClusterAgent => "coroot-cluster-agent"
    case Clickhouse => "clickhouse"
    case ClickhouseKeeper => "clickhouse-keeper"
    case Prometheus => "prometheus"
    case KubeStateMetrics => "kube-state-metrics"
  }

  const RELEASED: seq<App> := [CorootCE, CorootEE, NodeAgent, ClusterAgent]

  const REGISTRY := "ghcr.io/coroot"
  const CLICKHOUSE_IMAGE := "clickhouse:25.1.3-ubi9-0"
  const PROMETHEUS_IMAGE := "prometheus:2.55.1-ubi9-0"
  const KUBE_STATE_METRICS_IMAGE := "kube-state-metrics:2.15.0-ubi9-0"

  const FIXED: set<App> := {Clickhouse, ClickhouseKeeper, Prometheus, KubeStateMetrics}

  function FixedImage(app: App): string
    requires app in FIXED
  {
    match app
    case Clickhouse | ClickhouseKeeper => CLICKHOUSE_IMAGE
    case Prometheus => PROMETHEUS_IMAGE
    case KubeStateMetrics => KUBE_STATE_METRICS_IMAGE
  }

  /** The tag to use, given the outcome of asking for the latest release; no tag and a failure count the same. */
  function Tag(fetched: Option<string>): (tag: string)
    ensures tag != ""
  {
    match fetched
    case Some(v) => if v == "" then "latest" else v
    case None => "latest"
  }

  function TagsOf(apps: seq<App>, fetch: App -> Option<string>): map<App, string>
  {
    map app | app in apps :: Tag(fetch(app))
  }

  /** The image of an app inside the registry. */
  function ImageInRegistry(app: App, fetch: App -> Option<string>): string
  {
    if app in FIXED then FixedImage(app) else AppName(app) + ":" + Tag(fetch(app))
  }

  function Named(tags: map<App, string>): map<App, string>
  {
    map app | app in tags :: AppName(app) + ":" + tags[app]
  }

  function FixedImages(): map<App, string>
  {
    map app | app in FIXED :: FixedImage(app)
  }

  lemma Refilled(before: map<App, string>, tags: map<App, string>, fetch: App -> Option<string>)
    requires tags == TagsOf(RELEASED, fetch)
    ensures before + Named(tags) + FixedImages() == map app: App :: ImageInRegistry(app, fetch)
  {
    var after := before + Named(tags) + FixedImages();
    forall app: App ensures app in after && after[app] == ImageInRegistry(app, fetch) {
      RefilledAt(before, tags, fetch, app);
    }
  }

  lemma RefilledAt(before: map<App, string>, tags: map<App, string>, fetch: App -> Option<string>, app: App)
    requires tags == TagsOf(RELEASED, fetch)
    ensures var after := before + Named(tags) + FixedImages();
            app in after && after[app] == ImageInRegistry(app, fetch)
  {
    assert app in RELEASED <==> app !in FIXED;
  }

  /** The table every lookup sees after a fetch. */
  function TableOf(fetch: App -> Option<string>): map<App, string>
  {
    map app: App :: REGISTRY + "/" + ImageInRegistry(app, fetch)
  }

  lemma NextTag(apps: seq<App>, i: nat, fetch: App -> Option<string>)
    requires i < |apps|
    ensures TagsOf(apps[..i + 1], fetch) == TagsOf(apps[..i], fetch)[apps[i] := Tag(fetch(apps[i]))]
  {
    assert apps[..i + 1] == apps[..i] + [apps[i]];
  }

  method FetchTags(fetch: App -> Option<string>) returns (fetched: map<App, string>)
    ensures fetched == TagsOf(RELEASED, fetch)
  {
    fetched := map[];
    for i := 0 to |RELEASED|
      invariant fetched == TagsOf(RELEASED[..i], fetch)
    {
      NextTag(RELEASED, i, fetch);
      var v := fetch(RELEASED[i]);
      fetched := fetched[RELEASED[i] := if v.Some? && v.value != "" then v.value else "latest"];
    }
    assert RELEASED[..|RELEASED|] == RELEASED;
  }

  datatype ImageSpec = ImageSpec(name: string, pullPolicy: string, pullSecrets: seq<string>)

  /** The images given in a resource; the enterprise edition need not be there. */
  datatype Images = Images(
    communityEdition: ImageSpec, enterpriseEdition: Option<ImageSpec>, nodeAgent: ImageSpec, clusterAgent: ImageSpec,
    kubeStateMetrics: ImageSpec, clickhouse: ImageSpec, keeper: ImageSpec, prometheus: ImageSpec)

  /** The image given for an app. */
  function CustomImage(images: Images, app: App): ImageSpec
    requires app.CorootEE? ==> images.enterpriseEdition.Some?
  {
    match app
    case CorootCE => images.communityEdition
    case CorootEE => images.enterpriseEdition.value
    case NodeAgent => images.nodeAgent
    case ClusterAgent => images.clusterAgent
    case KubeStateMetrics => images.kubeStateMetrics
    case Clickhouse => images.clickhouse
    case ClickhouseKeeper => images.keeper
    case Prometheus => images.prometheus
  }

  class VersionTable {
    var versions: map<App, string>

    constructor ()
      ensures versions == map[]
    {
      versions := map[];
    }

    /** Whatever was in the table before, and whichever fetches fail, the table is the one of this fetch. */
    method FetchAppVersions(fetch: App -> Option<string>)
      modifies this
      ensures versions == TableOf(fetch)
    {
      var fetched := FetchTags(fetch);
      Fill(fetched);
      SetFixedImages();
      Refilled(old(versions), fetched, fetch);
      PrefixAll();
    }

    method SetFixedImages()
      modifies this
      ensures versions == old(versions) + FixedImages()
    {
      versions := versions[Clickhouse := CLICKHOUSE_IMAGE];
      versions := versions[ClickhouseKeeper := CLICKHOUSE_IMAGE];
      versions := versions[Prometheus := PROMETHEUS_IMAGE];
      versions := versions[KubeStateMetrics := KUBE_STATE_METRICS_IMAGE];
    }

    /** `for app, v := range fetched` */
    method Fill(fetched: map<App, string>)
      modifies this
      ensures versions == old(versions) + Named(fetched)
    {
      var rest := fetched.Keys;
      while rest != {}
        invariant rest <= fetched.Keys
        invariant versions == old(versions) + map app | app in fetched.Keys - rest :: AppName(app) + ":" + fetched[app]
        decreases rest
      {
        var app :| app in rest;
        versions, rest := versions[app := AppName(app) + ":" + fetched[app]], rest - {app};
      }
    }

    /** `for app, image := range r.versions`, which rewrites the map it ranges over. */
    method PrefixAll()
      modifies this
      ensures versions == map app | app in old(versions) :: REGISTRY + "/" + old(versions)[app]
    {
      var rest := versions.Keys;
      while rest != {}
        invariant rest <= old(versions).Keys && versions.Keys == old(versions).Keys
        invariant forall app | app in rest :: versions[app] == old(versions)[app]
        invariant forall app | app in versions && app !in rest :: versions[app] == REGISTRY + "/" + old(versions)[app]
        decreases rest
      {
        var app :| app in rest;
        versions, rest := versions[app := REGISTRY + "/" + versions[app]], rest - {app};
      }
    }

    /** A name given in the resource wins; pull policy and secrets are always the resource's. */
    method GetAppImage(images: Images, app: App) returns (image: ImageSpec)
      requires app.CorootEE? ==> images.enterpriseEdition.Some?
      ensures var custom := CustomImage(images, app);
              && image.pullPolicy == custom.pullPolicy && image.pullSecrets == custom.pullSecrets
              && image.name == if custom.name != "" then custom.name else if app in versions then versions[app] else ""
    {
      image := CustomImage(images, app);
      if image.name != "" { return; }
      image := image.(name := if app in versions then versions[app] else "");
    }
  }

  predicate IsPrefixed(image: string) { REGISTRY + "/" <= image }

  /** The table has all eight apps, and every entry carries the registry exactly once. */
  lemma PrefixedOnce(fetch: App -> Option<string>, app: App)
    ensures app in TableOf(fetch)
    ensures IsPrefixed(TableOf(fetch)[app])
    ensures !IsPrefixed(TableOf(fetch)[app][|REGISTRY + "/"|..])
  {
    var image := ImageInRegistry(app, fetch);
    assert TableOf(fetch)[app][|REGISTRY + "/"|..] == image;
    assert image != "" && image[0] != 'g';
    assert (REGISTRY + "/")[0] == 'g';
  }

  /** The images that are fixed, written out. */
  lemma FixedEntries(fetch: App -> Option<string>)
    ensures TableOf(fetch)[Clickhouse] == TableOf(fetch)[ClickhouseKeeper] == "ghcr.io/coroot" + "/" + "clickhouse:25.1.3-ubi9-0"
    ensures TableOf(fetch)[Prometheus] == "ghcr.io/coroot" + "/" + "prometheus:2.55.1-ubi9-0"
    ensures TableOf(fetch)[KubeStateMetrics] == "ghcr.io/coroot" + "/" + "kube-state-metrics:2.15.0-ubi9-0"
  {}

  /** The images of releases: the latest one if it is known, and else whatever is tagged as the latest. */
  lemma ReleasedEntries(fetch: App -> Option<string>, app: App)
    requires app in {CorootCE, CorootEE, NodeAgent, ClusterAgent}
    ensures var name := match app
                        case CorootCE => "coroot"
                        case CorootEE => "coroot-ee"
                        case NodeAgent => "coroot-node-agent"
                        case ClusterAgent => "coroot-cluster-agent";
            var known := fetch(app).Some? && fetch(app).value != "";
            TableOf(fetch)[app] == "ghcr.io/coroot" + "/" + (name + ":" + if known then fetch(app).value else "latest")
  {}

  /** Each image of a resource is for one app, and for no other. */
  lemma OverridesApart(images: Images, image: ImageSpec, app: App)
    requires app.CorootEE? ==> images.enterpriseEdition.Some?
    ensures CustomImage(images.(communityEdition := image), app) == if app.CorootCE? then image else CustomImage(images, app)
    ensures CustomImage(images.(enterpriseEdition := Some(image)), app) == if app.CorootEE? then image else CustomImage(images, app)
    ensures CustomImage(images.(nodeAgent := image), app) == if app.NodeAgent? then image else CustomImage(images, app)
    ensures CustomImage(images.(clusterAgent := image), app) == if app.ClusterAgent? then image else CustomImage(images, app)
    ensures CustomImage(images.(kubeStateMetrics := image), app) == if app.KubeStateMetrics? then image else CustomImage(images, app)
    ensures CustomImage(images.(clickhouse := image), app) == if app.Clickhouse? then image else CustomImage(images, app)
    ensures CustomImage(images.(keeper := image), app) == if app.ClickhouseKeeper? then image else CustomImage(images, app)
    ensures CustomImage(images.(prometheus := image), app) == if app.Prometheus? then image else CustomImage(images, app)
  {}
}
