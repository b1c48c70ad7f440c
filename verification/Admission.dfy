/**
 * The admission webhooks of both resources (internal/webhook/v1), the Splunk enrichment the
 * platform performs before it builds children, and what their composition admits.
 */
module Admission {
  import opened Api

  // ---- AIPlatform ---------------------------------------------------------------------

  function DefaultMtls(m: Mtls): Mtls {
    if m.enabled && m.termination == "" then m.(termination := "operator") else m
  }

  function DefaultPlatform(p: PlatformSpec): PlatformSpec {
    var bare := !p.otel && !p.prometheus;
    p.(
      clusterDomain := if p.clusterDomain == "" then "cluster.local" else p.clusterDomain,
      otel := p.otel || bare,
      prometheus := p.prometheus || bare,
      vectorDb := if p.vectorDb.size == "" && p.vectorDb.pvcName == "" then p.vectorDb.(size := "50Gi") else p.vectorDb,
      ingress :=
        if p.ingress.Some? && p.ingress.value.enabled && p.ingress.value.className == ""
        then Some(p.ingress.value.(className := "nginx")) else p.ingress,
      mtls := DefaultMtls(p.mtls)
    )
  }

  predicate HasPrefix(s: string, prefix: string) {
    |prefix| <= |s| && s[..|prefix|] == prefix
  }

  const STORAGE_PREFIXES := ["s3://", "gs://", "azure://", "minio://"]
  const PATH_TYPES := ["Prefix", "Exact", "ImplementationSpecific"]

  predicate StorageValid(o: ObjectStorage) {
    && (exists i :: 0 <= i < |STORAGE_PREFIXES| && HasPrefix(o.path, STORAGE_PREFIXES[i]))
    && (HasPrefix(o.path, "s3://") ==> o.region != "")
  }

  /** Both webhooks apply this rule to their own Splunk configuration. */
  predicate SplunkValid(c: Splunk) {
    && (c.endpoint != "" || c.crRef.name != "")
    && (c.endpoint != "" ==> c.secretRefName != "")
  }

  predicate PlatformMtlsValid(m: Mtls, certificateRef: string) {
    m.enabled ==>
      && m.termination in {"", "operator", "mesh"}
      && (m.termination != "mesh" ==> m.issuerName != "" || certificateRef != "")
  }

  predicate FeatureNamesDistinct(fs: seq<Feature>) {
    forall i, j :: 0 <= i < j < |fs| ==> fs[i].name != fs[j].name
  }

  predicate FeatureValid(f: Feature) {
    f.name != "" && (f.scaleFactor.Some? ==> f.scaleFactor.value >= 1)
  }

  predicate FeaturesValid(fs: seq<Feature>) {
    FeatureNamesDistinct(fs) && forall i :: 0 <= i < |fs| ==> FeatureValid(fs[i])
  }

  predicate HostValid(h: IngressHost) {
    && h.host != "" && h.paths != []
    && forall j :: 0 <= j < |h.paths| ==> h.paths[j].path != "" && h.paths[j].pathType in PATH_TYPES
  }

  predicate IngressValid(i: Ingress) {
    i.enabled ==>
      && i.hosts != []
      && (forall k :: 0 <= k < |i.hosts| ==> HostValid(i.hosts[k]))
      && (forall k :: 0 <= k < |i.tls| ==> i.tls[k].hosts != [] && i.tls[k].secretName != "")
  }

  /** quantities is the set of strings resource.ParseQuantity accepts. */
  predicate VectorDbValid(v: VectorDbStorage, quantities: iset<string>) {
    (v.size != "" ==> v.size in quantities) && !(v.pvcName != "" && v.size != "")
  }

  predicate PlatformValid(p: PlatformSpec, quantities: iset<string>) {
    && StorageValid(p.objectStorage)
    && SplunkValid(p.splunk)
    && VectorDbValid(p.vectorDb, quantities)
    && (p.ingress.Some? ==> IngressValid(p.ingress.value))
    && PlatformMtlsValid(p.mtls, p.certificateRef)
    && FeaturesValid(p.features)
  }

  predicate PlatformUpdateValid(old_: PlatformSpec, new_: PlatformSpec, quantities: iset<string>) {
    && PlatformValid(new_, quantities)
    && old_.objectStorage.path == new_.objectStorage.path
    && old_.objectStorage.region == new_.objectStorage.region
  }

  // ---- AIService ----------------------------------------------------------------------

  function DefaultService(v: ServiceSpec): ServiceSpec {
    v.(
      clusterDomain := if v.clusterDomain == "" then "cluster.local" else v.clusterDomain,
      port := if v.port == 0 then 80 else v.port,
      replicas := if v.replicas == 0 then 1 else v.replicas,
      metrics := v.metrics.(
        path := if v.metrics.enabled && v.metrics.path == "" then "/metrics" else v.metrics.path,
        port := if v.metrics.enabled && v.metrics.port == 0 then 9090 else v.metrics.port),
      mtls := DefaultMtls(v.mtls)
    )
  }

  predicate ServiceMtlsValid(m: Mtls) {
    m.enabled ==>
      && m.termination in {"", "operator", "mesh"}
      && (m.termination != "mesh" ==> m.issuerName != "")
      && m.dnsNames != []
  }

  predicate MetricsValid(m: Metrics) {
    m.enabled ==> 1 <= m.port <= 65535 && (m.path != "" ==> HasPrefix(m.path, "/"))
  }

  predicate ServiceValid(v: ServiceSpec) {
    && v.platformRef.name != ""
    && v.vectorDbUrl != ""
    && v.taskVolume.path != ""
    && SplunkValid(v.splunk)
    && v.replicas >= 0
    && 1 <= v.port <= 65535
    && ServiceMtlsValid(v.mtls)
    && MetricsValid(v.metrics)
  }

  predicate ServiceUpdateValid(old_: ServiceSpec, new_: ServiceSpec) {
    && ServiceValid(new_)
    && old_.platformRef.name == new_.platformRef.name
    && old_.taskVolume.path == new_.taskVolume.path
  }

  // ---- Splunk enrichment ----------------------------------------------------------------

  /** What the Splunk operator's resources and the token sources would answer. */
  datatype SplunkWorld = SplunkWorld(crExists: bool, secretToken: Option<string>, vaultToken: Option<string>)

  function ServiceFqdn(service: string, ns: string, clusterDomain: string): string {
    service + "." + ns + ".svc." + (if clusterDomain == "" then "cluster.local" else clusterDomain)
  }

  /** ResolveSplunkEndpoint for a configuration that has no endpoint of its own. */
  function SplunkEndpoint(c: Splunk, ns: string, clusterDomain: string, w: SplunkWorld): (r: Option<string>)
    ensures r.Some? ==> r.value != ""
  {
    var refNs := if c.crRef.ns == "" then ns else c.crRef.ns;
    if c.crRef.name == "" || !w.crExists then None
    else if c.crRef.kind == "Standalone" then
      Some("https://" + ServiceFqdn("splunk-" + c.crRef.name + "-standalone-service", refNs, clusterDomain) + ":8089")
    else if c.crRef.kind == "IndexerCluster" then
      Some("https://" + ServiceFqdn("splunk-" + c.crRef.name + "-indexer-service", refNs, clusterDomain) + ":8089")
    else None
  }

  /** GetHECToken of the resolver that the secret source selects. */
  function HecToken(c: Splunk, w: SplunkWorld): Option<string> {
    if c.secretSource == "vault" then
      if c.vaultFilePath == "" || w.vaultToken == Some("") then None else w.vaultToken
    else w.secretToken
  }

  /** The configuration after ValidateAndEnrichSplunkConfig, which may fail half-way. */
  function Enrich(c: Splunk, ns: string, clusterDomain: string, w: SplunkWorld): (r: (Splunk, Outcome))
    ensures r.0.endpoint == c.endpoint || c.endpoint == ""
    ensures r.1.Ok? ==> r.0.endpoint != ""
    ensures !r.1.Panic?
    ensures r.0.secretRefName == c.secretRefName && r.0.crRef == c.crRef
  {
    if c.endpoint == "" && c.crRef.name == "" then (c, Fail("endpoint or custom resource required"))
    else
      var resolved := if c.endpoint != "" then Some(c.endpoint) else SplunkEndpoint(c, ns, clusterDomain, w);
      if resolved.None? then (c, Fail("failed to resolve Splunk endpoint"))
      else
        var c1 := c.(endpoint := resolved.value);
        var token := HecToken(c1, w);
        if token.None? then (c1, Fail("failed to get HEC token")) else (c1.(token := token.value), Ok)
  }

  // ---- building a child -----------------------------------------------------------------

  function BuildService(name: string, ns: string, p: Platform, f: Feature): ServiceSpec {
    ServiceSpec(f, f.version, PlatformRef(name, ns), f.serviceAccount, p.spec.objectStorage, p.spec.splunk,
                p.status.vectorDbServiceName, "", 1, 0, Metrics(true, "/metrics", 8080), p.spec.mtls,
                p.spec.pullSecrets, "", map[], map[])
  }

  /** What the service webhook asks of a generated child beyond what the platform webhook gave. */
  predicate ChildAdmissible(p: PlatformSpec) {
    && p.splunk.secretRefName != ""
    && (p.mtls.enabled ==>
          p.mtls.dnsNames != [] && (p.mtls.termination == "mesh" || p.mtls.issuerName != ""))
  }

  /**
   * For a platform that was defaulted, admitted and enriched, the child it builds is admitted
   * exactly when ChildAdmissible holds: the platform webhook alone is not enough.
   */
  lemma GeneratedChildAdmittedIff(name: string, ns: string, p: Platform, f: Feature,
                                  w: SplunkWorld, quantities: iset<string>)
    requires name != "" && p.status.vectorDbServiceName != ""
    requires PlatformValid(DefaultPlatform(p.spec), quantities)
    requires Enrich(DefaultPlatform(p.spec).splunk, ns, DefaultPlatform(p.spec).clusterDomain, w).1.Ok?
    ensures var admitted := DefaultPlatform(p.spec);
            var enriched := Enrich(admitted.splunk, ns, admitted.clusterDomain, w).0;
            var child := BuildService(name, ns, p.(spec := admitted.(splunk := enriched)), f);
            ServiceValid(DefaultService(child)) <==> ChildAdmissible(admitted)
  {
    var admitted := DefaultPlatform(p.spec);
    var i :| 0 <= i < |STORAGE_PREFIXES| && HasPrefix(admitted.objectStorage.path, STORAGE_PREFIXES[i]);
    assert STORAGE_PREFIXES[i] != "";
    assert HasPrefix("/metrics", "/");
  }

  /**
   * The platform webhook accepts a platform whose children the service webhook refuses: a
   * Splunk custom resource reference needs no secretRef until enrichment fills the endpoint.
   */
  lemma AdmittedPlatformWithRefusedChild(ns: string, f: Feature, p: PlatformSpec, w: SplunkWorld, quantities: iset<string>)
    requires PlatformValid(DefaultPlatform(p), quantities)
    requires w.crExists && w.secretToken.Some?
    ensures var q := p.(splunk := Splunk(SplunkRef("Standalone", "s1", ""), "", "", "", "kubernetes", ""));
            var admitted := DefaultPlatform(q);
            var enriched := Enrich(admitted.splunk, ns, admitted.clusterDomain, w);
            && PlatformValid(admitted, quantities) && enriched.1.Ok?
            && !ServiceValid(DefaultService(BuildService("p", ns,
                 Platform(Meta(0, 0, false, [], None, map[], map[]), admitted.(splunk := enriched.0),
                          PlatformStatus("", "p-weaviate", "", [])), f)))
  {
  }

  // ---- update histories -------------------------------------------------------------------

  /** Specs one platform can go through: each update is defaulted and accepted against its predecessor. */
  predicate UpdateHistory(h: seq<PlatformSpec>, quantities: iset<string>) {
    forall i :: 0 < i < |h| ==>
      PlatformUpdateValid(h[i - 1], h[i], quantities) && h[i] == DefaultPlatform(h[i])
  }

  lemma {:induction false} StorageFixedOverHistory(h: seq<PlatformSpec>, i: nat, j: nat, quantities: iset<string>)
    requires UpdateHistory(h, quantities) && i <= j < |h|
    ensures h[i].objectStorage.path == h[j].objectStorage.path
    ensures h[i].objectStorage.region == h[j].objectStorage.region
    decreases j
  {
    if i < j {
      StorageFixedOverHistory(h, i, j - 1, quantities);
    }
  }

  /**
   * Whatever two versions of one platform built a child and now rebuild it, and whatever the
   * features and statuses, the rebuilt child is accepted as an update exactly when it would be
   * accepted as a creation: the immutability checks never refuse it.
   */
  lemma ChildUpdatesNeverHitImmutability(h: seq<PlatformSpec>, i: nat, j: nat, name: string, ns: string,
                                         a: Platform, b: Platform, f: Feature, g: Feature, quantities: iset<string>)
    requires UpdateHistory(h, quantities) && i <= j < |h|
    requires a.spec.objectStorage == h[i].objectStorage && b.spec.objectStorage == h[j].objectStorage
    ensures var old_ := DefaultService(BuildService(name, ns, a, f));
            var new_ := DefaultService(BuildService(name, ns, b, g));
            ServiceUpdateValid(old_, new_) <==> ServiceValid(new_)
  {
    StorageFixedOverHistory(h, i, j, quantities);
  }

  lemma PlatformDefaultsStable(p: PlatformSpec)
    ensures DefaultPlatform(DefaultPlatform(p)) == DefaultPlatform(p)
  {
  }
}
