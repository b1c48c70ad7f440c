/**
 * The admission webhooks as they run: defaulters assign fields of the object they are handed,
 * validators collect an error list in nested loops. Each list is characterized by the errors in
 * it, and is empty exactly when the admission predicate of the resource holds.
 */
module Webhooks {
  import opened Api
  import opened Admission

  datatype PathElement = Field(name: string) | Index(i: nat)
  type Path = seq<PathElement>
  datatype Cause = Required | Invalid | Forbidden | NotSupported | Duplicate
  datatype FieldError = FieldError(cause: Cause, path: Path)

  // ---- defaulting ---------------------------------------------------------------------------------

  predicate MtlsDefaulted(m: Mtls, d: Mtls) {
    && d.enabled == m.enabled && d.issuerName == m.issuerName && d.secretName == m.secretName && d.dnsNames == m.dnsNames
    && (m.enabled && m.termination == "" ==> d.termination == "operator")
    && (!m.enabled || m.termination != "" ==> d.termination == m.termination)
  }

  /** Field by field: what the user left open is filled in, whatever is set stays. */
  predicate PlatformDefaulted(p: PlatformSpec, d: PlatformSpec) {
    && d == p.(clusterDomain := d.clusterDomain, otel := d.otel, prometheus := d.prometheus, vectorDb := d.vectorDb,
               ingress := d.ingress, mtls := d.mtls)
    && (p.clusterDomain == "" ==> d.clusterDomain == "cluster.local") && (p.clusterDomain != "" ==> d.clusterDomain == p.clusterDomain)
    && (p.otel || p.prometheus ==> d.otel == p.otel && d.prometheus == p.prometheus)
    && (!p.otel && !p.prometheus ==> d.otel && d.prometheus)
    && d.vectorDb.pvcName == p.vectorDb.pvcName && d.vectorDb.storageClass == p.vectorDb.storageClass
    && (p.vectorDb.size == "" && p.vectorDb.pvcName == "" ==> d.vectorDb.size == "50Gi")
    && (p.vectorDb.size != "" || p.vectorDb.pvcName != "" ==> d.vectorDb.size == p.vectorDb.size)
    && (d.ingress.Some? <==> p.ingress.Some?)
    && (p.ingress.Some? ==>
          && d.ingress.value == p.ingress.value.(className := d.ingress.value.className)
          && (p.ingress.value.enabled && p.ingress.value.className == "" ==> d.ingress.value.className == "nginx")
          && (!p.ingress.value.enabled || p.ingress.value.className != "" ==> d.ingress.value.className == p.ingress.value.className))
    && MtlsDefaulted(p.mtls, d.mtls)
  }

  predicate ServiceDefaulted(v: ServiceSpec, d: ServiceSpec) {
    && d == v.(clusterDomain := d.clusterDomain, port := d.port, replicas := d.replicas, metrics := d.metrics, mtls := d.mtls)
    && (v.clusterDomain == "" ==> d.clusterDomain == "cluster.local") && (v.clusterDomain != "" ==> d.clusterDomain == v.clusterDomain)
    && (v.port == 0 ==> d.port == 80) && (v.port != 0 ==> d.port == v.port)
    && (v.replicas == 0 ==> d.replicas == 1) && (v.replicas != 0 ==> d.replicas == v.replicas)
    && d.metrics.enabled == v.metrics.enabled
    && (v.metrics.enabled && v.metrics.path == "" ==> d.metrics.path == "/metrics")
    && (!v.metrics.enabled || v.metrics.path != "" ==> d.metrics.path == v.metrics.path)
    && (v.metrics.enabled && v.metrics.port == 0 ==> d.metrics.port == 9090)
    && (!v.metrics.enabled || v.metrics.port != 0 ==> d.metrics.port == v.metrics.port)
    && MtlsDefaulted(v.mtls, d.mtls)
  }

  /** The defaulter of the platform, on every spec; a second pass adds nothing. */
  lemma PlatformDefaults(p: PlatformSpec)
    ensures PlatformDefaulted(p, DefaultPlatform(p)) && DefaultPlatform(DefaultPlatform(p)) == DefaultPlatform(p)
  {
    PlatformDefaultsStable(p);
  }

  /** The same for the AIService. */
  lemma ServiceDefaults(v: ServiceSpec)
    ensures ServiceDefaulted(v, DefaultService(v)) && DefaultService(DefaultService(v)) == DefaultService(v)
  {
    assert DefaultService(DefaultService(v)) == DefaultService(v);
  }

  /** The object a defaulter receives by reference. */
  class PlatformObject {
    var spec: PlatformSpec

    constructor (s: PlatformSpec)
      ensures spec == s
    {
      spec := s;
    }

    method Default()
      modifies this
      ensures spec == DefaultPlatform(old(spec)) && PlatformDefaulted(old(spec), spec)
    {
      hide PlatformDefaulted;
      PlatformDefaults(spec);
      if spec.clusterDomain == "" {
        spec := spec.(clusterDomain := "cluster.local");
      }
      if !spec.otel && !spec.prometheus {
        spec := spec.(otel := true);
        spec := spec.(prometheus := true);
      }
      if spec.vectorDb.size == "" && spec.vectorDb.pvcName == "" {
        spec := spec.(vectorDb := spec.vectorDb.(size := "50Gi"));
      }
      if spec.ingress.Some? && spec.ingress.value.enabled {
        if spec.ingress.value.className == "" {
          spec := spec.(ingress := Some(spec.ingress.value.(className := "nginx")));
        }
      }
      if spec.mtls.enabled && spec.mtls.termination == "" {
        spec := spec.(mtls := spec.mtls.(termination := "operator"));
      }
    }
  }

  class ServiceObject {
    var spec: ServiceSpec

    constructor (s: ServiceSpec)
      ensures spec == s
    {
      spec := s;
    }

    method Default()
      modifies this
      ensures spec == DefaultService(old(spec)) && ServiceDefaulted(old(spec), spec)
    {
      hide ServiceDefaulted;
      ServiceDefaults(spec);
      if spec.clusterDomain == "" {
        spec := spec.(clusterDomain := "cluster.local");
      }
      if spec.port == 0 {
        spec := spec.(port := 80);
      }
      if spec.replicas == 0 {
        spec := spec.(replicas := 1);
      }
      if spec.metrics.enabled && spec.metrics.path == "" {
        spec := spec.(metrics := spec.metrics.(path := "/metrics"));
      }
      if spec.metrics.enabled && spec.metrics.port == 0 {
        spec := spec.(metrics := spec.metrics.(port := 9090));
      }
      if spec.mtls.enabled && spec.mtls.termination == "" {
        spec := spec.(mtls := spec.mtls.(termination := "operator"));
      }
    }
  }

  // ---- which errors a resource deserves --------------------------------------------------------------

  predicate StorageError(o: ObjectStorage, at: Path, e: FieldError) {
    || (e == FieldError(Required, at + [Field("path")]) && o.path == "")
    || (e == FieldError(Invalid, at + [Field("path")]) && o.path != ""
        && forall i :: 0 <= i < |STORAGE_PREFIXES| ==> !HasPrefix(o.path, STORAGE_PREFIXES[i]))
    || (e == FieldError(Required, at + [Field("region")]) && HasPrefix(o.path, "s3://") && o.region == "")
  }

  predicate SplunkError(c: Splunk, at: Path, e: FieldError) {
    || (e == FieldError(Required, at) && c.endpoint == "" && c.crRef.name == "")
    || (e == FieldError(Required, at + [Field("secretRef"), Field("name")]) && c.endpoint != "" && c.secretRefName == "")
  }

  predicate VectorDbError(v: VectorDbStorage, quantities: iset<string>, at: Path, e: FieldError) {
    || (e == FieldError(Invalid, at + [Field("vectorDB"), Field("size")]) && v.size != "" && v.size !in quantities)
    || (e == FieldError(Forbidden, at + [Field("vectorDB")]) && v.pvcName != "" && v.size != "")
  }

  predicate PathError(p: IngressPath, at: Path, e: FieldError) {
    || (e == FieldError(Required, at + [Field("path")]) && p.path == "")
    || (e == FieldError(NotSupported, at + [Field("pathType")]) && p.pathType !in PATH_TYPES)
  }

  predicate HostError(h: IngressHost, at: Path, e: FieldError) {
    || (e == FieldError(Required, at + [Field("host")]) && h.host == "")
    || (e == FieldError(Required, at + [Field("paths")]) && h.paths == [])
    || exists j :: 0 <= j < |h.paths| && PathError(h.paths[j], at + [Field("paths"), Index(j)], e)
  }

  predicate TlsError(t: IngressTls, at: Path, e: FieldError) {
    || (e == FieldError(Required, at + [Field("hosts")]) && t.hosts == [])
    || (e == FieldError(Required, at + [Field("secretName")]) && t.secretName == "")
  }

  predicate IngressError(g: Ingress, at: Path, e: FieldError) {
    && g.enabled
    && (|| (e == FieldError(Required, at + [Field("hosts")]) && g.hosts == [])
        || (exists i :: 0 <= i < |g.hosts| && HostError(g.hosts[i], at + [Field("hosts"), Index(i)], e))
        || (exists i :: 0 <= i < |g.tls| && TlsError(g.tls[i], at + [Field("tls"), Index(i)], e)))
  }

  predicate PlatformMtlsError(m: Mtls, certificateRef: string, at: Path, e: FieldError) {
    && m.enabled
    && (|| (e == FieldError(NotSupported, at + [Field("mtls"), Field("termination")]) && m.termination !in {"", "operator", "mesh"})
        || (e == FieldError(Required, at + [Field("mtls")]) && m.termination in {"", "operator"}
            && m.issuerName == "" && certificateRef == ""))
  }

  /** A name repeated further down is an error at every repetition. */
  predicate FeatureError(fs: seq<Feature>, i: nat, at: Path, e: FieldError)
    requires i < |fs|
  {
    || (e == FieldError(Required, at + [Index(i), Field("name")]) && fs[i].name == "")
    || (e == FieldError(Duplicate, at + [Index(i), Field("name")]) && exists j :: 0 <= j < i && fs[j].name == fs[i].name)
    || (e == FieldError(Invalid, at + [Index(i), Field("scaleFactor")]) && fs[i].scaleFactor.Some? && fs[i].scaleFactor.value < 1)
  }

  predicate FeaturesError(fs: seq<Feature>, at: Path, e: FieldError) {
    exists i :: 0 <= i < |fs| && FeatureError(fs, i, at, e)
  }

  const SPEC: Path := [Field("spec")]

  predicate PlatformError(p: PlatformSpec, quantities: iset<string>, e: FieldError) {
    || StorageError(p.objectStorage, SPEC + [Field("objectStorage")], e)
    || SplunkError(p.splunk, SPEC + [Field("splunkConfiguration")], e)
    || VectorDbError(p.vectorDb, quantities, SPEC + [Field("storage")], e)
    || (p.ingress.Some? && IngressError(p.ingress.value, SPEC + [Field("ingress")], e))
    || PlatformMtlsError(p.mtls, p.certificateRef, SPEC, e)
    || FeaturesError(p.features, SPEC + [Field("features")], e)
  }

  // ---- the platform's validators --------------------------------------------------------------------------

  method ValidateObjectStorage(o: ObjectStorage, at: Path) returns (errs: seq<FieldError>)
    ensures forall e :: e in errs <==> StorageError(o, at, e)
  {
    errs := [];
    if o.path == "" {
      errs := errs + [FieldError(Required, at + [Field("path")])];
    } else {
      var hasValidPrefix := false;
      for i := 0 to |STORAGE_PREFIXES|
        invariant !hasValidPrefix && forall j :: 0 <= j < i ==> !HasPrefix(o.path, STORAGE_PREFIXES[j])
      {
        if HasPrefix(o.path, STORAGE_PREFIXES[i]) {
          hasValidPrefix := true;
          break;
        }
      }
      if !hasValidPrefix {
        errs := errs + [FieldError(Invalid, at + [Field("path")])];
      }
    }
    if HasPrefix(o.path, "s3://") && o.region == "" {
      errs := errs + [FieldError(Required, at + [Field("region")])];
    }
  }

  method ValidateSplunkConfiguration(c: Splunk, at: Path) returns (errs: seq<FieldError>)
    ensures forall e :: e in errs <==> SplunkError(c, at, e)
  {
    errs := [];
    var hasEndpoint := c.endpoint != "";
    var hasCRRef := c.crRef.name != "";
    if !hasEndpoint && !hasCRRef {
      errs := errs + [FieldError(Required, at)];
    }
    if hasEndpoint && c.secretRefName == "" {
      errs := errs + [FieldError(Required, at + [Field("secretRef"), Field("name")])];
    }
  }

  method ValidateStorage(v: VectorDbStorage, quantities: iset<string>, at: Path) returns (errs: seq<FieldError>)
    ensures forall e :: e in errs <==> VectorDbError(v, quantities, at, e)
  {
    errs := [];
    if v.size != "" {
      if v.size !in quantities {
        errs := errs + [FieldError(Invalid, at + [Field("vectorDB"), Field("size")])];
      }
    }
    if v.pvcName != "" && v.size != "" {
      errs := errs + [FieldError(Forbidden, at + [Field("vectorDB")])];
    }
  }

  method ValidateHost(h: IngressHost, at: Path) returns (errs: seq<FieldError>)
    ensures forall e :: e in errs <==> HostError(h, at, e)
  {
    errs := [];
    if h.host == "" {
      errs := errs + [FieldError(Required, at + [Field("host")])];
    }
    if h.paths == [] {
      errs := errs + [FieldError(Required, at + [Field("paths")])];
    }
    ghost var own := errs;
    for j := 0 to |h.paths|
      invariant forall e :: e in errs <==>
                  e in own || exists k :: 0 <= k < j && PathError(h.paths[k], at + [Field("paths"), Index(k)], e)
    {
      var pathAt := at + [Field("paths"), Index(j)];
      ghost var before := errs;
      if h.paths[j].path == "" {
        errs := errs + [FieldError(Required, pathAt + [Field("path")])];
      }
      var isValidPathType := false;
      for k := 0 to |PATH_TYPES|
        invariant !isValidPathType && h.paths[j].pathType !in PATH_TYPES[..k]
      {
        if h.paths[j].pathType == PATH_TYPES[k] {
          isValidPathType := true;
          break;
        }
      }
      if !isValidPathType {
        errs := errs + [FieldError(NotSupported, pathAt + [Field("pathType")])];
      }
      assert forall e :: e in errs <==> e in before || PathError(h.paths[j], pathAt, e);
    }
  }

  method ValidateIngress(g: Ingress, at: Path) returns (errs: seq<FieldError>)
    ensures forall e :: e in errs <==> IngressError(g, at, e)
  {
    errs := [];
    if g.enabled {
      if g.hosts == [] {
        errs := errs + [FieldError(Required, at + [Field("hosts")])];
      }
      ghost var own := errs;
      for i := 0 to |g.hosts|
        invariant forall e :: e in errs <==>
                    e in own || exists k :: 0 <= k < i && HostError(g.hosts[k], at + [Field("hosts"), Index(k)], e)
      {
        var hostErrs := ValidateHost(g.hosts[i], at + [Field("hosts"), Index(i)]);
        errs := errs + hostErrs;
      }
      ghost var hosts := errs;
      for i := 0 to |g.tls|
        invariant forall e :: e in errs <==>
                    e in hosts || exists k :: 0 <= k < i && TlsError(g.tls[k], at + [Field("tls"), Index(k)], e)
      {
        var tlsAt := at + [Field("tls"), Index(i)];
        ghost var before := errs;
        if g.tls[i].hosts == [] {
          errs := errs + [FieldError(Required, tlsAt + [Field("hosts")])];
        }
        if g.tls[i].secretName == "" {
          errs := errs + [FieldError(Required, tlsAt + [Field("secretName")])];
        }
        assert forall e :: e in errs <==> e in before || TlsError(g.tls[i], tlsAt, e);
      }
    }
  }

  method ValidateMTLS(m: Mtls, certificateRef: string, at: Path) returns (errs: seq<FieldError>)
    ensures forall e :: e in errs <==> PlatformMtlsError(m, certificateRef, at, e)
  {
    errs := [];
    if m.enabled {
      if m.termination != "" && m.termination != "operator" && m.termination != "mesh" {
        errs := errs + [FieldError(NotSupported, at + [Field("mtls"), Field("termination")])];
      }
      if m.termination == "operator" || m.termination == "" {
        var hasIssuerRef := m.issuerName != "";
        var hasCertRef := certificateRef != "";
        if !hasIssuerRef && !hasCertRef {
          errs := errs + [FieldError(Required, at + [Field("mtls")])];
        }
      }
    }
  }

  /** The seen names go into a map as the loop passes them. */
  method ValidateFeatures(fs: seq<Feature>, at: Path) returns (errs: seq<FieldError>)
    ensures forall e :: e in errs <==> FeaturesError(fs, at, e)
  {
    errs := [];
    var featureNames: map<string, bool> := map[];
    for i := 0 to |fs|
      invariant forall n :: n in featureNames <==> exists j :: 0 <= j < i && fs[j].name == n
      invariant forall n :: n in featureNames ==> featureNames[n]
      invariant forall e :: e in errs <==> exists k :: 0 <= k < i && FeatureError(fs, k, at, e)
    {
      ghost var before := errs;
      if fs[i].name == "" {
        errs := errs + [FieldError(Required, at + [Index(i), Field("name")])];
      }
      if fs[i].name in featureNames && featureNames[fs[i].name] {
        errs := errs + [FieldError(Duplicate, at + [Index(i), Field("name")])];
      }
      featureNames := featureNames[fs[i].name := true];
      if fs[i].scaleFactor.Some? && fs[i].scaleFactor.value < 1 {
        errs := errs + [FieldError(Invalid, at + [Index(i), Field("scaleFactor")])];
      }
      assert forall e :: e in errs <==> e in before || FeatureError(fs, i, at, e);
    }
  }

  method ValidatePlatformCreate(p: PlatformSpec, quantities: iset<string>) returns (errs: seq<FieldError>)
    ensures forall e :: e in errs <==> PlatformError(p, quantities, e)
    ensures errs == [] <==> PlatformValid(p, quantities)
  {
    hide StorageError, SplunkError, VectorDbError, IngressError, PlatformMtlsError, FeaturesError, PlatformValid;
    errs := ValidateObjectStorage(p.objectStorage, SPEC + [Field("objectStorage")]);
    var more := ValidateSplunkConfiguration(p.splunk, SPEC + [Field("splunkConfiguration")]);
    errs := errs + more;
    more := ValidateStorage(p.vectorDb, quantities, SPEC + [Field("storage")]);
    errs := errs + more;
    if p.ingress.Some? {
      more := ValidateIngress(p.ingress.value, SPEC + [Field("ingress")]);
      errs := errs + more;
    }
    more := ValidateMTLS(p.mtls, p.certificateRef, SPEC);
    errs := errs + more;
    more := ValidateFeatures(p.features, SPEC + [Field("features")]);
    errs := errs + more;
    assert forall e :: e in errs <==> PlatformError(p, quantities, e);
    EmptyIffNoError(errs, iset e | PlatformError(p, quantities, e));
    PlatformValidIffNoError(p, quantities);
  }

  lemma EmptyIffNoError(errs: seq<FieldError>, deserved: iset<FieldError>)
    requires forall e :: e in errs <==> e in deserved
    ensures errs == [] <==> deserved == iset{}
  {
    if errs != [] {
      assert errs[0] in deserved;
    }
  }

  // ---- no error is deserved exactly when the resource is valid --------------------------------------------

  lemma StorageValidIff(o: ObjectStorage, at: Path)
    ensures StorageValid(o) <==> forall e :: !StorageError(o, at, e)
  {
    if o.path == "" {
      assert StorageError(o, at, FieldError(Required, at + [Field("path")]));
    } else if forall i :: 0 <= i < |STORAGE_PREFIXES| ==> !HasPrefix(o.path, STORAGE_PREFIXES[i]) {
      assert StorageError(o, at, FieldError(Invalid, at + [Field("path")]));
    } else if HasPrefix(o.path, "s3://") && o.region == "" {
      assert StorageError(o, at, FieldError(Required, at + [Field("region")]));
    }
  }

  /** The four schemes, spelled out; an S3 path needs its region. */
  lemma StorageSchemes(o: ObjectStorage)
    ensures StorageValid(o) <==>
              || (StartsWith(o.path, "s3://") && o.region != "")
              || StartsWith(o.path, "gs://") || StartsWith(o.path, "azure://") || StartsWith(o.path, "minio://")
  {
    assert STORAGE_PREFIXES[0] == "s3://" && STORAGE_PREFIXES[1] == "gs://" && STORAGE_PREFIXES[2] == "azure://" && STORAGE_PREFIXES[3] == "minio://";
    forall prefix: string | prefix in {"s3://", "gs://", "azure://", "minio://"}
      ensures HasPrefix(o.path, prefix) <==> StartsWith(o.path, prefix)
      ensures HasPrefix(o.path, prefix) ==> o.path[0] == prefix[0]
    {
      PrefixIff(o.path, prefix);
    }
  }

  /** A host is admitted exactly with a name and with paths, each set and of one of the three types. */
  lemma HostAdmittedIff(h: IngressHost)
    ensures HostValid(h) <==>
              && h.host != "" && h.paths != []
              && forall j :: 0 <= j < |h.paths| ==>
                   && h.paths[j].path != ""
                   && (h.paths[j].pathType == "Prefix" || h.paths[j].pathType == "Exact" || h.paths[j].pathType == "ImplementationSpecific")
  {
    forall j | 0 <= j < |h.paths|
      ensures h.paths[j].pathType in PATH_TYPES <==>
                h.paths[j].pathType == "Prefix" || h.paths[j].pathType == "Exact" || h.paths[j].pathType == "ImplementationSpecific"
    {
      assert PATH_TYPES[0] == "Prefix" && PATH_TYPES[1] == "Exact" && PATH_TYPES[2] == "ImplementationSpecific";
    }
  }

  lemma PrefixIff(s: string, prefix: string)
    ensures HasPrefix(s, prefix) <==> StartsWith(s, prefix)
  {
    if HasPrefix(s, prefix) {
      assert s == prefix + s[|prefix|..];
    }
  }

  ghost predicate StartsWith(s: string, prefix: string) {
    exists rest: string :: s == prefix + rest
  }

  lemma SplunkValidIff(c: Splunk, at: Path)
    ensures SplunkValid(c) <==> forall e :: !SplunkError(c, at, e)
  {
    if c.endpoint == "" && c.crRef.name == "" {
      assert SplunkError(c, at, FieldError(Required, at));
    } else if c.endpoint != "" && c.secretRefName == "" {
      assert SplunkError(c, at, FieldError(Required, at + [Field("secretRef"), Field("name")]));
    }
  }

  lemma VectorDbValidIff(v: VectorDbStorage, quantities: iset<string>, at: Path)
    ensures VectorDbValid(v, quantities) <==> forall e :: !VectorDbError(v, quantities, at, e)
  {
    if v.size != "" && v.size !in quantities {
      assert VectorDbError(v, quantities, at, FieldError(Invalid, at + [Field("vectorDB"), Field("size")]));
    } else if v.pvcName != "" && v.size != "" {
      assert VectorDbError(v, quantities, at, FieldError(Forbidden, at + [Field("vectorDB")]));
    }
  }

  lemma HostValidIff(h: IngressHost, at: Path)
    ensures HostValid(h) <==> forall e :: !HostError(h, at, e)
  {
    if h.host == "" {
      assert HostError(h, at, FieldError(Required, at + [Field("host")]));
    } else if h.paths == [] {
      assert HostError(h, at, FieldError(Required, at + [Field("paths")]));
    } else {
      forall j | 0 <= j < |h.paths|
        ensures (h.paths[j].path != "" && h.paths[j].pathType in PATH_TYPES) <==>
                  forall e :: !PathError(h.paths[j], at + [Field("paths"), Index(j)], e)
      {
        var pathAt := at + [Field("paths"), Index(j)];
        if h.paths[j].path == "" {
          assert PathError(h.paths[j], pathAt, FieldError(Required, pathAt + [Field("path")]));
        } else if h.paths[j].pathType !in PATH_TYPES {
          assert PathError(h.paths[j], pathAt, FieldError(NotSupported, pathAt + [Field("pathType")]));
        }
      }
      if j :| 0 <= j < |h.paths| && !(h.paths[j].path != "" && h.paths[j].pathType in PATH_TYPES) {
        var e :| PathError(h.paths[j], at + [Field("paths"), Index(j)], e);
        assert HostError(h, at, e);
      }
    }
  }

  lemma IngressValidIff(g: Ingress, at: Path)
    ensures IngressValid(g) <==> forall e :: !IngressError(g, at, e)
  {
    hide HostValid, HostError;
    forall i | 0 <= i < |g.hosts|
      ensures HostValid(g.hosts[i]) <==> forall e :: !HostError(g.hosts[i], at + [Field("hosts"), Index(i)], e)
    {
      HostValidIff(g.hosts[i], at + [Field("hosts"), Index(i)]);
    }
    if g.enabled {
      if g.hosts == [] {
        assert IngressError(g, at, FieldError(Required, at + [Field("hosts")]));
      } else if i :| 0 <= i < |g.hosts| && !HostValid(g.hosts[i]) {
        var e :| HostError(g.hosts[i], at + [Field("hosts"), Index(i)], e);
        assert IngressError(g, at, e);
      } else if i :| 0 <= i < |g.tls| && !(g.tls[i].hosts != [] && g.tls[i].secretName != "") {
        var tlsAt := at + [Field("tls"), Index(i)];
        var e := FieldError(Required, tlsAt + [Field(if g.tls[i].hosts == [] then "hosts" else "secretName")]);
        assert TlsError(g.tls[i], tlsAt, e);
        assert IngressError(g, at, e);
      }
    }
  }

  lemma PlatformMtlsValidIff(m: Mtls, certificateRef: string, at: Path)
    ensures PlatformMtlsValid(m, certificateRef) <==> forall e :: !PlatformMtlsError(m, certificateRef, at, e)
  {
    if m.enabled && m.termination !in {"", "operator", "mesh"} {
      assert PlatformMtlsError(m, certificateRef, at, FieldError(NotSupported, at + [Field("mtls"), Field("termination")]));
    } else if m.enabled && m.termination != "mesh" && m.issuerName == "" && certificateRef == "" {
      assert PlatformMtlsError(m, certificateRef, at, FieldError(Required, at + [Field("mtls")]));
    }
  }

  lemma FeaturesValidIff(fs: seq<Feature>, at: Path)
    ensures FeaturesValid(fs) <==> forall e :: !FeaturesError(fs, at, e)
  {
    if i, j :| 0 <= i < j < |fs| && fs[i].name == fs[j].name {
      var e := FieldError(Duplicate, at + [Index(j), Field("name")]);
      assert FeatureError(fs, j, at, e);
      assert FeaturesError(fs, at, e);
    } else if i :| 0 <= i < |fs| && !FeatureValid(fs[i]) {
      var e := if fs[i].name == "" then FieldError(Required, at + [Index(i), Field("name")])
               else FieldError(Invalid, at + [Index(i), Field("scaleFactor")]);
      assert FeatureError(fs, i, at, e);
      assert FeaturesError(fs, at, e);
    }
  }

  /** The declarative error relation and the admission predicate agree on every platform. */
  lemma PlatformValidIffNoError(p: PlatformSpec, quantities: iset<string>)
    ensures PlatformValid(p, quantities) <==> forall e :: !PlatformError(p, quantities, e)
  {
    hide StorageValid, SplunkValid, VectorDbValid, IngressValid, PlatformMtlsValid, FeaturesValid,
      StorageError, SplunkError, VectorDbError, IngressError, PlatformMtlsError, FeaturesError;
    StorageValidIff(p.objectStorage, SPEC + [Field("objectStorage")]);
    SplunkValidIff(p.splunk, SPEC + [Field("splunkConfiguration")]);
    VectorDbValidIff(p.vectorDb, quantities, SPEC + [Field("storage")]);
    if p.ingress.Some? {
      IngressValidIff(p.ingress.value, SPEC + [Field("ingress")]);
    }
    PlatformMtlsValidIff(p.mtls, p.certificateRef, SPEC);
    FeaturesValidIff(p.features, SPEC + [Field("features")]);
    if !PlatformValid(p, quantities) {
      var e :|
        || StorageError(p.objectStorage, SPEC + [Field("objectStorage")], e)
        || SplunkError(p.splunk, SPEC + [Field("splunkConfiguration")], e)
        || VectorDbError(p.vectorDb, quantities, SPEC + [Field("storage")], e)
        || (p.ingress.Some? && IngressError(p.ingress.value, SPEC + [Field("ingress")], e))
        || PlatformMtlsError(p.mtls, p.certificateRef, SPEC, e)
        || FeaturesError(p.features, SPEC + [Field("features")], e);
      assert PlatformError(p, quantities, e);
    }
  }

  // ---- updates ------------------------------------------------------------------------------------------

  /** The immutable fields are compared only once the new object is valid by itself. */
  predicate PlatformUpdateError(o: PlatformSpec, p: PlatformSpec, quantities: iset<string>, e: FieldError) {
    || PlatformError(p, quantities, e)
    || (&& PlatformValid(p, quantities)
        && (|| (e == FieldError(Forbidden, SPEC + [Field("objectStorage"), Field("path")]) && o.objectStorage.path != p.objectStorage.path)
            || (e == FieldError(Forbidden, SPEC + [Field("objectStorage"), Field("region")])
                && o.objectStorage.region != p.objectStorage.region)))
  }

  method ValidatePlatformUpdate(o: PlatformSpec, p: PlatformSpec, quantities: iset<string>) returns (errs: seq<FieldError>)
    ensures forall e :: e in errs <==> PlatformUpdateError(o, p, quantities, e)
    ensures errs == [] <==> PlatformUpdateValid(o, p, quantities)
  {
    hide PlatformError, PlatformValid;
    errs := ValidatePlatformCreate(p, quantities);
    if errs != [] {
      return;
    }
    PlatformValidIffNoError(p, quantities);
    if o.objectStorage.path != p.objectStorage.path {
      errs := errs + [FieldError(Forbidden, SPEC + [Field("objectStorage"), Field("path")])];
    }
    if o.objectStorage.region != p.objectStorage.region {
      errs := errs + [FieldError(Forbidden, SPEC + [Field("objectStorage"), Field("region")])];
    }
  }

  // ---- the AIService's validators --------------------------------------------------------------------------

  predicate ServiceMtlsError(m: Mtls, at: Path, e: FieldError) {
    && m.enabled
    && (|| (e == FieldError(NotSupported, at + [Field("termination")]) && m.termination !in {"", "operator", "mesh"})
        || (e == FieldError(Required, at + [Field("issuerRef"), Field("name")]) && m.termination in {"", "operator"} && m.issuerName == "")
        || (e == FieldError(Required, at + [Field("dnsNames")]) && m.dnsNames == []))
  }

  predicate MetricsError(m: Metrics, at: Path, e: FieldError) {
    && m.enabled
    && (|| (e == FieldError(Invalid, at + [Field("port")]) && !(1 <= m.port <= 65535))
        || (e == FieldError(Invalid, at + [Field("path")]) && m.path != "" && !HasPrefix(m.path, "/")))
  }

  predicate ServiceError(v: ServiceSpec, e: FieldError) {
    || (e == FieldError(Required, SPEC + [Field("aiPlatformRef"), Field("name")]) && v.platformRef.name == "")
    || (e == FieldError(Required, SPEC + [Field("vectorDbUrl")]) && v.vectorDbUrl == "")
    || (e == FieldError(Required, SPEC + [Field("taskVolume"), Field("path")]) && v.taskVolume.path == "")
    || SplunkError(v.splunk, SPEC + [Field("splunkConfiguration")], e)
    || (e == FieldError(Invalid, SPEC + [Field("replicas")]) && v.replicas < 0)
    || (e == FieldError(Invalid, SPEC + [Field("port")]) && !(1 <= v.port <= 65535))
    || ServiceMtlsError(v.mtls, SPEC + [Field("mtls")], e)
    || MetricsError(v.metrics, SPEC + [Field("metrics")], e)
  }

  method ValidateMTLSForService(m: Mtls, at: Path) returns (errs: seq<FieldError>)
    ensures forall e :: e in errs <==> ServiceMtlsError(m, at, e)
  {
    errs := [];
    if m.enabled {
      if m.termination != "" && m.termination != "operator" && m.termination != "mesh" {
        errs := errs + [FieldError(NotSupported, at + [Field("termination")])];
      }
      if m.termination == "operator" || m.termination == "" {
        if m.issuerName == "" {
          errs := errs + [FieldError(Required, at + [Field("issuerRef"), Field("name")])];
        }
      }
      if m.dnsNames == [] {
        errs := errs + [FieldError(Required, at + [Field("dnsNames")])];
      }
    }
  }

  method ValidateMetrics(m: Metrics, at: Path) returns (errs: seq<FieldError>)
    ensures forall e :: e in errs <==> MetricsError(m, at, e)
  {
    errs := [];
    if m.enabled {
      if m.port < 1 || m.port > 65535 {
        errs := errs + [FieldError(Invalid, at + [Field("port")])];
      }
      if m.path != "" && !HasPrefix(m.path, "/") {
        errs := errs + [FieldError(Invalid, at + [Field("path")])];
      }
    }
  }

  method ValidateServiceCreate(v: ServiceSpec) returns (errs: seq<FieldError>)
    ensures forall e :: e in errs <==> ServiceError(v, e)
    ensures errs == [] <==> ServiceValid(v)
  {
    hide SplunkError, ServiceMtlsError, MetricsError, ServiceValid;
    errs := [];
    if v.platformRef.name == "" {
      errs := errs + [FieldError(Required, SPEC + [Field("aiPlatformRef"), Field("name")])];
    }
    if v.vectorDbUrl == "" {
      errs := errs + [FieldError(Required, SPEC + [Field("vectorDbUrl")])];
    }
    if v.taskVolume.path == "" {
      errs := errs + [FieldError(Required, SPEC + [Field("taskVolume"), Field("path")])];
    }
    var more := ValidateSplunkConfiguration(v.splunk, SPEC + [Field("splunkConfiguration")]);
    errs := errs + more;
    if v.replicas < 0 {
      errs := errs + [FieldError(Invalid, SPEC + [Field("replicas")])];
    }
    if v.port < 1 || v.port > 65535 {
      errs := errs + [FieldError(Invalid, SPEC + [Field("port")])];
    }
    more := ValidateMTLSForService(v.mtls, SPEC + [Field("mtls")]);
    errs := errs + more;
    more := ValidateMetrics(v.metrics, SPEC + [Field("metrics")]);
    errs := errs + more;
    assert forall e :: e in errs <==> ServiceError(v, e);
    EmptyIffNoError(errs, iset e | ServiceError(v, e));
    ServiceValidIffNoError(v);
  }

  lemma ServiceMtlsValidIff(m: Mtls, at: Path)
    ensures ServiceMtlsValid(m) <==> forall e :: !ServiceMtlsError(m, at, e)
  {
    if m.enabled && m.termination !in {"", "operator", "mesh"} {
      assert ServiceMtlsError(m, at, FieldError(NotSupported, at + [Field("termination")]));
    } else if m.enabled && m.termination != "mesh" && m.issuerName == "" {
      assert ServiceMtlsError(m, at, FieldError(Required, at + [Field("issuerRef"), Field("name")]));
    } else if m.enabled && m.dnsNames == [] {
      assert ServiceMtlsError(m, at, FieldError(Required, at + [Field("dnsNames")]));
    }
  }

  lemma MetricsValidIff(m: Metrics, at: Path)
    ensures MetricsValid(m) <==> forall e :: !MetricsError(m, at, e)
  {
    if m.enabled && !(1 <= m.port <= 65535) {
      assert MetricsError(m, at, FieldError(Invalid, at + [Field("port")]));
    } else if m.enabled && m.path != "" && !HasPrefix(m.path, "/") {
      assert MetricsError(m, at, FieldError(Invalid, at + [Field("path")]));
    }
  }

  lemma ServiceValidIffNoError(v: ServiceSpec)
    ensures ServiceValid(v) <==> forall e :: !ServiceError(v, e)
  {
    hide SplunkValid, ServiceMtlsValid, MetricsValid, SplunkError, ServiceMtlsError, MetricsError;
    SplunkValidIff(v.splunk, SPEC + [Field("splunkConfiguration")]);
    ServiceMtlsValidIff(v.mtls, SPEC + [Field("mtls")]);
    MetricsValidIff(v.metrics, SPEC + [Field("metrics")]);
    if !ServiceValid(v) {
      if v.platformRef.name == "" {
        assert ServiceError(v, FieldError(Required, SPEC + [Field("aiPlatformRef"), Field("name")]));
      } else if v.vectorDbUrl == "" {
        assert ServiceError(v, FieldError(Required, SPEC + [Field("vectorDbUrl")]));
      } else if v.taskVolume.path == "" {
        assert ServiceError(v, FieldError(Required, SPEC + [Field("taskVolume"), Field("path")]));
      } else if v.replicas < 0 {
        assert ServiceError(v, FieldError(Invalid, SPEC + [Field("replicas")]));
      } else if !(1 <= v.port <= 65535) {
        assert ServiceError(v, FieldError(Invalid, SPEC + [Field("port")]));
      } else {
        var e :|
          || SplunkError(v.splunk, SPEC + [Field("splunkConfiguration")], e)
          || ServiceMtlsError(v.mtls, SPEC + [Field("mtls")], e)
          || MetricsError(v.metrics, SPEC + [Field("metrics")], e);
        assert ServiceError(v, e);
      }
    }
  }

  predicate ServiceUpdateError(o: ServiceSpec, v: ServiceSpec, e: FieldError) {
    || ServiceError(v, e)
    || (&& ServiceValid(v)
        && (|| (e == FieldError(Forbidden, SPEC + [Field("aiPlatformRef"), Field("name")]) && o.platformRef.name != v.platformRef.name)
            || (e == FieldError(Forbidden, SPEC + [Field("taskVolume"), Field("path")]) && o.taskVolume.path != v.taskVolume.path)))
  }

  method ValidateServiceUpdate(o: ServiceSpec, v: ServiceSpec) returns (errs: seq<FieldError>)
    ensures forall e :: e in errs <==> ServiceUpdateError(o, v, e)
    ensures errs == [] <==> ServiceUpdateValid(o, v)
  {
    hide ServiceError, ServiceValid;
    errs := ValidateServiceCreate(v);
    if errs != [] {
      return;
    }
    ServiceValidIffNoError(v);
    if o.platformRef.name != v.platformRef.name {
      errs := errs + [FieldError(Forbidden, SPEC + [Field("aiPlatformRef"), Field("name")])];
    }
    if o.taskVolume.path != v.taskVolume.path {
      errs := errs + [FieldError(Forbidden, SPEC + [Field("taskVolume"), Field("path")])];
    }
  }
}
