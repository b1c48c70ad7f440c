/**
 * What each stage reads and what it leaves in the store, field by field: the answers of the two
 * stage loops stated on conditions, flags and fields alone.
 */
module StageEffects {
  import opened Api
  import opened Admission
  import opened ApiServer
  import opened Features
  import P = PlatformRun
  import R = StageRunner
  import S = SaiaRun

  // ---- Splunk -----------------------------------------------------------------------------------------

  function DomainOr(clusterDomain: string): string {
    if clusterDomain == "" then "cluster.local" else clusterDomain
  }

  /** A reference that resolves, and the management port of the service it resolves to. */
  predicate Resolves(c: Splunk, w: SplunkWorld) {
    c.crRef.name != "" && w.crExists && (c.crRef.kind == "Standalone" || c.crRef.kind == "IndexerCluster")
  }

  function ResolvedTo(c: Splunk, ns: string, clusterDomain: string): string {
    "https://splunk-" + c.crRef.name + (if c.crRef.kind == "Standalone" then "-standalone-service." else "-indexer-service.")
    + (if c.crRef.ns != "" then c.crRef.ns else ns) + ".svc." + DomainOr(clusterDomain) + ":8089"
  }

  /** The token can be read: from a file that is named and not empty for Vault, from the Secret otherwise. */
  predicate TokenReadable(c: Splunk, w: SplunkWorld) {
    if c.secretSource == "vault" then c.vaultFilePath != "" && w.vaultToken.Some? && w.vaultToken.value != "" else w.secretToken.Some?
  }

  /**
   * Enrichment passes exactly when the configuration has an endpoint of its own or a reference that
   * resolves, and its token can be read; it then holds its own endpoint, or else the one resolved by
   * the kind of the reference, and the token of the source it names. Nothing else of it changes, and
   * a failing token lookup leaves the endpoint filled in.
   */
  lemma EnrichmentIs(c: Splunk, ns: string, clusterDomain: string, w: SplunkWorld)
    ensures var (d, o) := Enrich(c, ns, clusterDomain, w);
            && (o.Ok? <==> (c.endpoint != "" || Resolves(c, w)) && TokenReadable(c, w))
            && d == c.(endpoint := d.endpoint, token := d.token)
            && (c.endpoint != "" ==> d.endpoint == c.endpoint)
            && (c.endpoint == "" && Resolves(c, w) ==> d.endpoint == ResolvedTo(c, ns, clusterDomain))
            && (c.endpoint == "" && !Resolves(c, w) ==> d == c)
            && (o.Ok? && c.secretSource == "vault" ==> w.vaultToken == Some(d.token))
            && (o.Ok? && c.secretSource != "vault" ==> w.secretToken == Some(d.token))
            && (!o.Ok? ==> d.token == c.token)
  {
    if c.endpoint == "" && Resolves(c, w) {
      EndpointText(c, ns, clusterDomain, w);
    }
  }

  lemma EndpointText(c: Splunk, ns: string, clusterDomain: string, w: SplunkWorld)
    requires Resolves(c, w)
    ensures SplunkEndpoint(c, ns, clusterDomain, w) == Some(ResolvedTo(c, ns, clusterDomain))
  {
    hide *;
    var refNs := if c.crRef.ns != "" then c.crRef.ns else ns;
    EndpointOf(c, ns, clusterDomain, w);
    assert "-standalone-service" + "." == "-standalone-service.";
    assert "-indexer-service" + "." == "-indexer-service.";
    Glued(c.crRef.name, if c.crRef.kind == "Standalone" then "-standalone-service" else "-indexer-service", refNs, DomainOr(clusterDomain));
    ResolvedText(c, ns, clusterDomain);
  }

  lemma EndpointOf(c: Splunk, ns: string, clusterDomain: string, w: SplunkWorld)
    requires Resolves(c, w)
    ensures var service := "splunk-" + c.crRef.name + (if c.crRef.kind == "Standalone" then "-standalone-service" else "-indexer-service");
            SplunkEndpoint(c, ns, clusterDomain, w) ==
              Some("https://" + (service + "." + (if c.crRef.ns != "" then c.crRef.ns else ns) + ".svc." + DomainOr(clusterDomain)) + ":8089")
  {
  }

  lemma ResolvedText(c: Splunk, ns: string, clusterDomain: string)
    ensures ResolvedTo(c, ns, clusterDomain) ==
              "https://splunk-" + c.crRef.name + (if c.crRef.kind == "Standalone" then "-standalone-service." else "-indexer-service.")
              + (if c.crRef.ns != "" then c.crRef.ns else ns) + ".svc." + DomainOr(clusterDomain) + ":8089"
  {
  }

  lemma Glued(name: string, kind: string, ns: string, domain: string)
    ensures "https://" + ("splunk-" + name + kind + "." + ns + ".svc." + domain) + ":8089"
         == "https://splunk-" + name + (kind + ".") + ns + ".svc." + domain + ":8089"
  {
    var host := "splunk-" + name;
    assert "https://" + "splunk-" == "https://splunk-";
    Regrouped("https://", "splunk-", name);
    Regrouped("https://", host, kind);
    Regrouped("https://", host + kind, ".");
    Regrouped("https://" + host, kind, ".");
    Regrouped("https://", host + kind + ".", ns);
    Regrouped("https://", host + kind + "." + ns, ".svc.");
    Regrouped("https://", host + kind + "." + ns + ".svc.", domain);
  }

  lemma Regrouped(a: string, b: string, c: string)
    ensures a + (b + c) == a + b + c
  {
  }

  // ---- SAIA: Validate ---------------------------------------------------------------------------------

  /** The platform a child names lets it go on: its list shows both conditions as True, and both names are known. */
  predicate GateOpen(s: Store, ref: PlatformRef) {
    && ref.ns == s.ns && ref.name in s.platforms
    && var st := s.platforms[ref.name].status;
    && (exists i :: 0 <= i < |st.conditions| && st.conditions[i].kind == "RayServiceStatusReady" && st.conditions[i].status == True)
    && (exists i :: 0 <= i < |st.conditions| && st.conditions[i].kind == "WeaviateDatabaseStatusReady" && st.conditions[i].status == True)
    && st.rayServiceName != "" && st.vectorDbServiceName != ""
  }

  lemma GateIs(s: Store, ref: PlatformRef)
    ensures S.GateError(s, ref).None? <==> GateOpen(s, ref)
    ensures S.GateError(s, ref).None? ==> ref.name in s.platforms
  {
  }

  /** What the Validate stage asks of the child's copy, of the store and of the environment. */
  predicate Validates(s: Store, v: ServiceSpec, w: S.World) {
    && w.hookImage != ""
    && (if v.platformRef.name != "" then GateOpen(s, v.platformRef) else v.platformUrl != "" && v.vectorDbUrl != "")
    && v.taskVolume.path != ""
    && (v.splunk.endpoint != "" || v.splunk.crRef.name != "" ==>
          (v.splunk.endpoint != "" || Resolves(v.splunk, w.splunk)) && TokenReadable(v.splunk, w.splunk))
  }

  /** The stage passes exactly when all of that holds: a closed gate stops the child. */
  lemma ValidatePassesIff(s: Store, v: ServiceSpec, w: S.World)
    ensures S.ValidateSpec(s, v, w).1.Ok? <==> Validates(s, v, w)
  {
    if v.platformRef.name != "" {
      GateIs(s, v.platformRef);
      if GateOpen(s, v.platformRef) {
        UrlsFilled(s, v);
        EnrichmentIs(v.splunk, s.ns, v.clusterDomain, w.splunk);
      }
    } else {
      EnrichmentIs(v.splunk, s.ns, v.clusterDomain, w.splunk);
    }
    hide S.GateError, GateOpen, S.FillUrls, Enrich, Resolves, TokenReadable, S.DefaultResources, ResolvedTo;
    ValidateOutcome(s, v, w);
  }

  lemma ValidateOutcome(s: Store, v: ServiceSpec, w: S.World)
    ensures S.ValidateSpec(s, v, w).1.Ok? <==>
              && w.hookImage != "" && (v.platformRef.name != "" || v.platformUrl != "")
              && (v.platformRef.name != "" ==> S.GateError(s, v.platformRef).None?)
              && var v1 := if v.platformRef.name != "" then S.FillUrls(s, v) else v;
              && v1.platformUrl != "" && v1.vectorDbUrl != "" && v1.taskVolume.path != ""
              && (v1.splunk.endpoint != "" || v1.splunk.crRef.name != "" ==> Enrich(v1.splunk, s.ns, v1.clusterDomain, w.splunk).1.Ok?)
  {
    hide Enrich, S.FillUrls;
  }

  /** A URL left empty is made of the one status field it belongs to; one given by the user stays. */
  lemma UrlsFilled(s: Store, v: ServiceSpec)
    requires v.platformRef.name in s.platforms
    ensures var u, st := S.FillUrls(s, v), s.platforms[v.platformRef.name].status;
            && u == v.(platformUrl := u.platformUrl, vectorDbUrl := u.vectorDbUrl)
            && u.platformUrl == (if v.platformUrl != "" then v.platformUrl
                                 else st.rayServiceName + "." + v.platformRef.ns + ".svc." + DomainOr(v.clusterDomain) + ":8000")
            && u.vectorDbUrl == (if v.vectorDbUrl != "" then v.vectorDbUrl
                                 else st.vectorDbServiceName + "." + v.platformRef.ns + ".svc." + DomainOr(v.clusterDomain))
            && u.platformUrl != "" && u.vectorDbUrl != ""
  {
  }

  /** Validation fills in these fields of the copy and no others, also when it fails half-way. */
  predicate OnlyFilled(v: ServiceSpec, u: ServiceSpec) {
    u == v.(platformUrl := u.platformUrl, vectorDbUrl := u.vectorDbUrl, requests := u.requests, limits := u.limits,
            replicas := u.replicas, splunk := u.splunk)
  }

  lemma ValidateFillsOnly(s: Store, v: ServiceSpec, w: S.World)
    ensures OnlyFilled(v, S.ValidateSpec(s, v, w).0)
  {
    assert S.GateError(s, v.platformRef).None? ==> v.platformRef.name in s.platforms;
    if v.platformRef.name in s.platforms {
      UrlsFilled(s, v);
    }
    hide S.FillUrls, Enrich, S.GateError;
  }

  /** What a passing Validate has put into the copy, field by field. */
  predicate Validated(s: Store, v: ServiceSpec, u: ServiceSpec, w: S.World) {
    && OnlyFilled(v, u)
    && (v.platformUrl != "" ==> u.platformUrl == v.platformUrl) && (v.vectorDbUrl != "" ==> u.vectorDbUrl == v.vectorDbUrl)
    && (v.platformRef.name != "" && v.platformRef.name in s.platforms ==>
          var st, at := s.platforms[v.platformRef.name].status, "." + v.platformRef.ns + ".svc." + DomainOr(v.clusterDomain);
          && (v.platformUrl == "" ==> u.platformUrl == st.rayServiceName + at + ":8000")
          && (v.vectorDbUrl == "" ==> u.vectorDbUrl == st.vectorDbServiceName + at))
    && u.requests == (if v.requests == map[] then map["cpu" := "500m", "memory" := "1Gi"] else v.requests)
    && u.limits == (if v.limits == map[] then map["cpu" := "1", "memory" := "2Gi"] else v.limits)
    && u.replicas == (if v.replicas == 0 then 1 else v.replicas)
    && (v.splunk.endpoint == "" && v.splunk.crRef.name == "" ==> u.splunk == v.splunk)
    && (v.splunk.endpoint != "" ==> u.splunk.endpoint == v.splunk.endpoint)
    && (v.splunk.endpoint == "" && v.splunk.crRef.name != "" ==> u.splunk.endpoint == ResolvedTo(v.splunk, s.ns, v.clusterDomain))
    && (v.splunk.endpoint != "" || v.splunk.crRef.name != "" ==>
          && u.splunk == v.splunk.(endpoint := u.splunk.endpoint, token := u.splunk.token)
          && (if v.splunk.secretSource == "vault" then w.splunk.vaultToken else w.splunk.secretToken) == Some(u.splunk.token))
  }

  lemma ValidateFills(s: Store, v: ServiceSpec, w: S.World)
    requires S.ValidateSpec(s, v, w).1.Ok?
    ensures Validated(s, v, S.ValidateSpec(s, v, w).0, w)
  {
    if v.platformRef.name != "" && v.platformRef.name in s.platforms {
      UrlsFilled(s, v);
      UrlText(s.platforms[v.platformRef.name].status.rayServiceName, v.platformRef.ns, DomainOr(v.clusterDomain));
      UrlText(s.platforms[v.platformRef.name].status.vectorDbServiceName, v.platformRef.ns, DomainOr(v.clusterDomain));
    }
    EnrichmentIs(v.splunk, s.ns, v.clusterDomain, w.splunk);
    ValidateSteps(s, v, w);
    hide S.FillUrls, Enrich, ResolvedTo, TokenReadable, Resolves, S.ValidateSpec, S.DefaultResources;
  }

  /** A passing validation is the filled URLs, the default sizes, and the enriched configuration. */
  lemma ValidateSteps(s: Store, v: ServiceSpec, w: S.World)
    requires S.ValidateSpec(s, v, w).1.Ok?
    ensures v.platformRef.name != "" ==> v.platformRef.name in s.platforms
    ensures var u := S.ValidateSpec(s, v, w).0;
            var v1 := if v.platformRef.name != "" then S.FillUrls(s, v) else v;
            && u == v1.(requests := u.requests, limits := u.limits, replicas := u.replicas, splunk := u.splunk)
            && u.requests == (if v1.requests == map[] then map["cpu" := "500m", "memory" := "1Gi"] else v1.requests)
            && u.limits == (if v1.limits == map[] then map["cpu" := "1", "memory" := "2Gi"] else v1.limits)
            && u.replicas == (if v1.replicas == 0 then 1 else v1.replicas)
            && (v1.splunk.endpoint == "" && v1.splunk.crRef.name == "" ==> u.splunk == v1.splunk)
            && (v1.splunk.endpoint != "" || v1.splunk.crRef.name != "" ==>
                  (u.splunk, Ok) == Enrich(v1.splunk, s.ns, v1.clusterDomain, w.splunk))
  {
    hide S.FillUrls, Enrich;
    assert v.platformRef.name != "" ==> S.GateError(s, v.platformRef).None? && v.platformRef.name in s.platforms;
    hide S.GateError;
    var v1 := if v.platformRef.name != "" then S.FillUrls(s, v) else v;
    var v3 := S.DefaultResources(v1).(replicas := if v1.replicas == 0 then 1 else v1.replicas);
    var bare := v1.splunk.endpoint == "" && v1.splunk.crRef.name == "";
    assert S.ValidateSpec(s, v, w) ==
             if bare then (v3, Ok)
             else (v3.(splunk := Enrich(v1.splunk, s.ns, v1.clusterDomain, w.splunk).0), Enrich(v1.splunk, s.ns, v1.clusterDomain, w.splunk).1);
    hide S.ValidateSpec;
  }

  lemma ValidationIs(s: Store, v: ServiceSpec, w: S.World)
    ensures S.ValidateSpec(s, v, w).1.Ok? <==> Validates(s, v, w)
    ensures S.ValidateSpec(s, v, w).1.Ok? ==> Validated(s, v, S.ValidateSpec(s, v, w).0, w)
    ensures OnlyFilled(v, S.ValidateSpec(s, v, w).0)
  {
    hide S.ValidateSpec, Validates, Validated, OnlyFilled;
    ValidatePassesIff(s, v, w);
    ValidateFillsOnly(s, v, w);
    if S.ValidateSpec(s, v, w).1.Ok? {
      ValidateFills(s, v, w);
    }
  }

  lemma UrlText(a: string, ns: string, domain: string)
    ensures a + "." + ns + ".svc." + domain == a + ("." + ns + ".svc." + domain)
    ensures a + "." + ns + ".svc." + domain + ":8000" == a + ("." + ns + ".svc." + domain) + ":8000"
  {
  }

  // ---- SAIA: account and certificate ------------------------------------------------------------------

  /** A named account is left alone; an unnamed one is named after the child, stored with the copy, and created. */
  predicate AccountLeft(s: Store, n: string, ai: Service, w: S.World, t: Store, q: Service, o: Outcome) {
    && t == s.(services := t.services, serviceAccounts := t.serviceAccounts)
    && q.meta == ai.meta.(version := q.meta.version)
    && q.spec.platformRef == ai.spec.platformRef && q.spec.taskVolume == ai.spec.taskVolume && q.spec.splunk == ai.spec.splunk
    && q.spec.platformUrl == ai.spec.platformUrl && q.spec.vectorDbUrl == ai.spec.vectorDbUrl
    && (ai.spec.serviceAccount != "" ==> t == s && q == ai && o.Ok?)
    && (ai.spec.serviceAccount == "" && UpdateSpec in w.failing ==> t == s && !o.Ok?)
    && (EnsureAccount in w.failing ==> t.serviceAccounts == s.serviceAccounts && (ai.spec.serviceAccount == "" ==> !o.Ok?))
    && (ai.spec.serviceAccount == "" && o.Ok? && n in t.services ==>
          && q == t.services[n] && q.spec.serviceAccount == n + "-sa" && t.serviceAccounts == s.serviceAccounts + {n + "-sa"})
  }

  lemma AccountIs(s: Store, n: string, ai: Service, w: S.World)
    ensures var (t, q, o) := S.ReconcileAccount(s, n, ai, w);
            AccountLeft(s, n, ai, w, t, q, o)
  {
    hide UpdateService;
    if ai.spec.serviceAccount == "" {
      AccountWritten(s, n, ai.(spec := ai.spec.(serviceAccount := n + "-sa")));
    }
  }

  lemma AccountWritten(s: Store, n: string, v: Service)
    ensures var (t, o) := UpdateService(s, n, v);
            && t == s.(services := t.services)
            && (o.Ok? && n in t.services ==>
                  && t.services[n].meta == v.meta.(version := t.services[n].meta.version)
                  && t.services[n].spec.serviceAccount == v.spec.serviceAccount
                  && t.services[n].spec.platformRef == v.spec.platformRef && t.services[n].spec.taskVolume == v.spec.taskVolume
                  && t.services[n].spec.splunk == v.spec.splunk && t.services[n].spec.platformUrl == v.spec.platformUrl
                  && t.services[n].spec.vectorDbUrl == v.spec.vectorDbUrl)
  {
    hide ServiceUpdateValid;
  }

  /**
   * With mTLS terminated by the operator the certificate is stored with the copy's secret, issuer
   * and DNS names, its flags kept, and the stage passes exactly when one of them says Ready;
   * otherwise nothing is done.
   */
  predicate CertificateLeft(s: Store, n: string, m: Mtls, failing: set<Call>, t: Store, o: Outcome) {
    var key := n + "-tls";
    && t == s.(certificates := t.certificates)
    && (!m.enabled || m.termination != "operator" ==> t == s && o.Ok?)
    && (m.enabled && m.termination == "operator" && EnsureCertificate in failing ==> t == s && !o.Ok?)
    && (m.enabled && m.termination == "operator" && EnsureCertificate !in failing ==>
          && key in t.certificates && t.certificates == s.certificates[key := t.certificates[key]]
          && t.certificates[key].secretName == m.secretName && t.certificates[key].issuerName == m.issuerName
          && t.certificates[key].dnsNames == m.dnsNames
          && t.certificates[key].flags == (if key in s.certificates then s.certificates[key].flags else [])
          && (o.Ok? <==> exists i :: 0 <= i < |t.certificates[key].flags| && t.certificates[key].flags[i] == Flag("Ready", true)))
  }

  lemma CertificateIs(s: Store, n: string, ai: Service, w: S.World)
    ensures var (t, o) := S.ReconcileCertificate(s, n, ai, w);
            CertificateLeft(s, n, ai.spec.mtls, w.failing, t, o)
  {
    var key := n + "-tls";
    var flags := if key in s.certificates then s.certificates[key].flags else [];
    assert S.HasFlag(flags, "Ready") <==> exists i :: 0 <= i < |flags| && flags[i] == Flag("Ready", true);
    hide S.HasFlag;
  }

  // ---- SAIA: the post-install hook --------------------------------------------------------------------

  /** Among the true conditions of these two kinds, one of the first kind comes first. */
  predicate FirstTrue(flags: seq<Flag>, kind: string, other: string) {
    exists i :: 0 <= i < |flags| && flags[i] == Flag(kind, true) && forall j :: 0 <= j < i ==> flags[j] != Flag(other, true)
  }

  lemma {:induction false} VerdictIs(flags: seq<Flag>)
    ensures S.JobVerdict(flags) == S.Completed <==> FirstTrue(flags, "Complete", "Failed")
    ensures S.JobVerdict(flags) == S.Failed <==> FirstTrue(flags, "Failed", "Complete")
  {
    if flags != [] {
      VerdictIs(flags[1..]);
      FirstTrueStep(flags, "Complete", "Failed");
      FirstTrueStep(flags, "Failed", "Complete");
    }
  }

  lemma FirstTrueStep(flags: seq<Flag>, kind: string, other: string)
    requires flags != []
    ensures FirstTrue(flags, kind, other) <==> flags[0] == Flag(kind, true) || (flags[0] != Flag(other, true) && FirstTrue(flags[1..], kind, other))
  {
    var rest := flags[1..];
    if i :| 0 <= i < |flags| && flags[i] == Flag(kind, true) && forall j :: 0 <= j < i ==> flags[j] != Flag(other, true) {
      if i > 0 {
        assert rest[i - 1] == Flag(kind, true);
        assert forall j :: 0 <= j < i - 1 ==> rest[j] == flags[j + 1];
      }
    }
    if flags[0] != Flag(other, true) {
      if i :| 0 <= i < |rest| && rest[i] == Flag(kind, true) && forall j :: 0 <= j < i ==> rest[j] != Flag(other, true) {
        assert flags[i + 1] == Flag(kind, true);
        assert forall j :: 0 < j < i + 1 ==> flags[j] == rest[j - 1];
      }
    }
  }

  /** The Job this run asked for is stored and can be read. */
  predicate JobRead(s: Store, ai: Service, w: S.World) {
    ai.status.schemaJobId != "" && GetJob !in w.failing && ai.status.schemaJobId in s.jobs
  }

  /**
   * The hook, by what it finds. Without a vector database there is nothing to do. A Job that is read
   * decides by all of its conditions: the stage passes exactly when a true Complete has no true
   * Failed before it, reports the failure exactly the other way round, and waits otherwise. A Job
   * whose lookup fails is left alone. A missing one is created without conditions under the child's
   * own name, which the copy then asks for; the stage does not pass.
   */
  predicate HookLeft(s: Store, n: string, ai: Service, w: S.World, t: Store, q: Service, o: Outcome) {
    var id, key := ai.status.schemaJobId, n + "-vector-db-setup-posthook";
    && q == ai.(status := ai.status.(schemaJobId := q.status.schemaJobId)) && t == s.(jobs := t.jobs)
    && (ai.spec.vectorDbUrl == "" ==> o.Ok? && t == s && q == ai)
    && (ai.spec.vectorDbUrl != "" && JobRead(s, ai, w) ==>
          && t == s && q == ai
          && (o.Ok? <==> FirstTrue(s.jobs[id].flags, "Complete", "Failed"))
          && (o == Fail("job failed") <==> FirstTrue(s.jobs[id].flags, "Failed", "Complete")))
    && (ai.spec.vectorDbUrl != "" && id != "" && GetJob in w.failing ==> t == s && q == ai && !o.Ok?)
    && (ai.spec.vectorDbUrl != "" && (id == "" || (GetJob !in w.failing && id !in s.jobs)) ==>
          && !o.Ok?
          && (EnsureJob in w.failing ==> t == s && q.status.schemaJobId == "")
          && (EnsureJob !in w.failing ==>
                && q.status.schemaJobId == key && key in t.jobs
                && t.jobs == (if key in s.jobs then s.jobs else s.jobs[key := Job([])])))
  }

  lemma HookIs(s: Store, n: string, ai: Service, w: S.World)
    ensures var (t, q, o) := S.ReconcileHook(s, n, ai, w);
            HookLeft(s, n, ai, w, t, q, o)
  {
    var (t, q, o) := S.ReconcileHook(s, n, ai, w);
    var id := ai.status.schemaJobId;
    hide S.JobVerdict, FirstTrue;
    if ai.spec.vectorDbUrl == "" {
      assert (t, q, o) == (s, ai, Ok);
    } else if JobRead(s, ai, w) {
      VerdictIs(s.jobs[id].flags);
      assert t == s && q == ai;
    } else if id != "" && GetJob in w.failing {
      assert t == s && q == ai;
    } else {
      assert q.meta == ai.meta && q.spec == ai.spec;
    }
  }

  // ---- SAIA: the Deployment -----------------------------------------------------------------------------

  /** An annotation of the child that is not one of the two the operator skips. */
  predicate Shown(m: Meta, k: string) {
    k in m.annotations && k != "kubectl.kubernetes.io/last-applied-configuration" && k != "kubectl.kubernetes.io/restartedAt"
  }

  /** A Deployment that carries what the child asks for. */
  ghost predicate Deployed(d: Deployment, n: string, ai: Service) {
    && d.replicas == ai.spec.replicas && d.serviceAccount == ai.spec.serviceAccount
    && d.podLabels == map["app" := n, "component" := n]
    && (forall secret: string :: d.tls == Some(secret) <==>
          ai.spec.mtls.enabled && ai.spec.mtls.termination == "operator" && secret == ai.spec.mtls.secretName)
    && LabelsDeployed(d.labels, n, ai.meta.labels) && AnnotationsDeployed(d.annotations, ai.meta)
  }

  /** The four labels every Deployment has, overlaid by the child's own. */
  ghost predicate LabelsDeployed(labels: map<string, string>, n: string, own: map<string, string>) {
    && (forall k :: k in labels <==> k in {"app", "component", "area", "team"} || k in own)
    && (forall k :: k in labels ==>
          labels[k] == (if k in own then own[k] else if k == "app" || k == "component" then n else "ml"))
  }

  /** The three annotations every Deployment has, overlaid by those of the child that are not skipped. */
  ghost predicate AnnotationsDeployed(annotations: map<string, string>, m: Meta) {
    && (forall k :: k in annotations <==> k in {"prometheus.io/port", "prometheus.io/path", "prometheus.io/scheme"} || Shown(m, k))
    && (forall k :: k in annotations ==>
          annotations[k] == (if Shown(m, k) then m.annotations[k]
                             else if k == "prometheus.io/port" then "8088"
                             else if k == "prometheus.io/path" then "/metrics" else "http"))
  }

  lemma DeployedIs(s: Store, n: string, ai: Service)
    ensures Deployed(S.DeploymentUpserted(s, n, ai), n, ai)
  {
    var d := S.DeploymentUpserted(s, n, ai);
    assert LabelsDeployed(d.labels, n, ai.meta.labels) by { OverlaidLabels(n, ai.meta.labels); }
    assert AnnotationsDeployed(d.annotations, ai.meta) by { OverlaidAnnotations(ai.meta); }
    hide LabelsDeployed, AnnotationsDeployed, S.ForeignAnnotations;
  }

  lemma OverlaidLabels(n: string, own: map<string, string>)
    ensures LabelsDeployed(map["app" := n, "component" := n, "area" := "ml", "team" := "ml"] + own, n, own)
  {
  }

  lemma OverlaidAnnotations(m: Meta)
    ensures AnnotationsDeployed(map["prometheus.io/port" := "8088", "prometheus.io/path" := "/metrics", "prometheus.io/scheme" := "http"]
                                + S.ForeignAnnotations(m.annotations), m)
  {
  }

  /** A passing stage stores a Deployment that carries what the child asks for, and writes nothing else. */
  ghost predicate DeploymentLeft(s: Store, n: string, ai: Service, w: S.World, t: Store, o: Outcome) {
    var key := n + "-saia-deployment";
    && (o.Ok? <==> EnsureDeployment !in w.failing)
    && (!o.Ok? ==> t == s)
    && (o.Ok? ==>
          && key in t.deployments && Deployed(t.deployments[key], n, ai)
          && t == s.(deployments := s.deployments[key := t.deployments[key]])
          && t.deployments[key].selector == (if key in s.deployments && s.deployments[key].selector.Some? then s.deployments[key].selector
                                             else Some(map["app" := n, "component" := n])))
  }

  lemma DeploymentIs(s: Store, n: string, ai: Service, w: S.World)
    ensures var (t, o) := S.ReconcileDeployment(s, n, ai, w);
            DeploymentLeft(s, n, ai, w, t, o)
  {
    DeployedIs(s, n, ai);
    hide Deployed, S.ForeignAnnotations;
  }

  // ---- SAIA: every stage of the loop --------------------------------------------------------------------

  /** The kind of the condition a stage reports under. */
  function ServiceLabel(k: nat): string {
    match k
    case 0 => "ValidateReady"
    case 1 => "ServiceAccountReady"
    case 2 => "SAIAConfigMapReady"
    case 3 => "FeatureConfigMapReady"
    case 4 => "CertificateReady"
    case 5 => "PostInstallHookReady"
    case 6 => "SAIADeploymentReady"
    case 7 => "SAIAServiceReady"
    case _ => "ServiceMonitorReady"
  }

  /** A passing stage reports True, the last one Ready as well, a failing one an error, a panicking one nothing. */
  predicate Reports(before: seq<Condition>, kind: string, o: Outcome, last: bool, after: seq<Condition>) {
    && before <= after
    && (o.Panic? ==> after == before)
    && (!o.Panic? ==>
          && |after| == |before| + (if o.Ok? && last then 2 else 1)
          && after[|before|].kind == kind
          && (o.Ok? ==> after[|before|].status == True && after[|before|].reason == "Reconciled")
          && (o.Fail? ==> after[|before|].status == False && after[|before|].reason == "Error" && after[|before|].message == o.message))
    && (o.Ok? && last ==> after[|before| + 1].kind == "Ready" && after[|before| + 1].status == True && after[|before| + 1].reason == "AllReconciled")
  }

  lemma ReportsAppended(before: seq<Condition>, kind: string, o: Outcome, last: bool)
    ensures Reports(before, kind, o, last, before + R.Appended(kind, o, last))
  {
  }

  /** What the k-th stage of a child's run leaves in the store and in its copy, and how it ends. */
  ghost predicate ServiceStageLeft(k: nat, s: Store, n: string, ai: Service, w: S.World, t: Store, q: Service, o: Outcome) {
    match k
    case 0 =>
      && t == s && q == ai.(spec := q.spec) && OnlyFilled(ai.spec, q.spec) && (o.Ok? <==> Validates(s, ai.spec, w))
      && (o.Ok? ==> Validated(s, ai.spec, q.spec, w))
    case 1 => AccountLeft(s, n, ai, w, t, q, o)
    case 2 => t == s && q == ai && (o.Ok? <==> w.configMapsOk)
    case 3 => t == s && q == ai && (o.Ok? <==> w.featureMapOk)
    case 4 => q == ai && CertificateLeft(s, n, ai.spec.mtls, w.failing, t, o)
    case 5 => HookLeft(s, n, ai, w, t, q, o)
    case 6 => q == ai && DeploymentLeft(s, n, ai, w, t, o)
    case 7 => t == s && q == ai && (o.Panic? <==> exists k :: Shown(ai.meta, k)) && (o.Ok? <==> !o.Panic? && w.serviceOk)
    case _ => t == s && q == ai && (o.Ok? <==> (ai.spec.metrics.enabled ==> w.monitorOk))
  }

  lemma ServiceStageIs(s: Store, r: S.Run, w: S.World)
    requires !S.Stopped(r)
    ensures var (t, q) := S.StageStep(s, r, w);
            && ServiceStageLeft(r.next, s, r.name, r.ai, w, t, q.ai, q.outcome)
            && Reports(r.conditions, ServiceLabel(r.next), q.outcome, r.next == 8, q.conditions)
            && q.next == r.next + 1 && q.name == r.name
  {
    ServiceExecuteIs(s, r.next, r.name, r.ai, w);
    hide S.Execute, ServiceStageLeft, Reports;
    ReportsAppended(r.conditions, ServiceLabel(r.next), S.StageStep(s, r, w).1.outcome, r.next == 8);
  }

  lemma ServiceExecuteIs(s: Store, k: nat, n: string, ai: Service, w: S.World)
    requires k < |S.STAGES|
    ensures var (t, q, o) := S.Execute(S.STAGES[k], s, n, ai, w);
            ServiceStageLeft(k, s, n, ai, w, t, q, o)
  {
    ShownIffForeign(ai.meta);
    hide S.ValidateSpec, Validates, Validated, OnlyFilled, S.ReconcileAccount, AccountLeft, S.ReconcileCertificate, CertificateLeft,
      S.ReconcileHook, HookLeft, S.ReconcileDeployment, DeploymentLeft, S.ForeignAnnotations, Shown;
    ValidationIs(s, ai.spec, w);
    AccountIs(s, n, ai, w);
    CertificateIs(s, n, ai, w);
    HookIs(s, n, ai, w);
    DeploymentIs(s, n, ai, w);
  }

  lemma ShownIffForeign(m: Meta)
    ensures S.ForeignAnnotations(m.annotations) != map[] <==> exists k :: Shown(m, k)
  {
    var foreign := S.ForeignAnnotations(m.annotations);
    if foreign != map[] {
      assert foreign.Keys != {};
      var k :| k in foreign;
      assert Shown(m, k);
    }
    if k :| Shown(m, k) {
      assert k in foreign;
    }
  }

  // ---- the platform ---------------------------------------------------------------------------------------

  /** The platform's own first stage: storage and Splunk decide; scheduling left open is filled in. */
  predicate PlatformValidateLeft(s: Store, p: Platform, w: P.World, q: Platform, o: Outcome) {
    var v := p.spec;
    && q == p.(spec := v.(splunk := q.spec.splunk, cpuScheduling := q.spec.cpuScheduling, gpuScheduling := q.spec.gpuScheduling))
    && (o.Ok? <==>
          && v.objectStorage.path != ""
          && (v.splunk.endpoint != "" || Resolves(v.splunk, w.splunk)) && TokenReadable(v.splunk, w.splunk))
    && (o.Ok? ==>
          && q.spec.cpuScheduling.Some? && (v.cpuScheduling.Some? ==> q.spec.cpuScheduling == v.cpuScheduling)
          && q.spec.gpuScheduling.Some? && (v.gpuScheduling.Some? ==> q.spec.gpuScheduling == v.gpuScheduling)
          && q.spec.splunk == v.splunk.(endpoint := q.spec.splunk.endpoint, token := q.spec.splunk.token)
          && q.spec.splunk.endpoint == (if v.splunk.endpoint != "" then v.splunk.endpoint else ResolvedTo(v.splunk, s.ns, v.clusterDomain))
          && (if v.splunk.secretSource == "vault" then w.splunk.vaultToken else w.splunk.secretToken) == Some(q.spec.splunk.token))
  }

  lemma PlatformValidateIs(s: Store, p: Platform, w: P.World)
    ensures var (q, o) := P.ValidatePlatform(s, p, w);
            PlatformValidateLeft(s, p, w, q, o)
  {
    EnrichmentIs(p.spec.splunk, s.ns, p.spec.clusterDomain, w.splunk);
    hide Enrich, ResolvedTo, Resolves, TokenReadable;
  }

  /** What the vector database's StatefulSet is to look like, given what was there before. */
  predicate VectorSet(before: Option<StatefulSet>, d: StatefulSet, key: string, v: VectorDbStorage) {
    && d.replicas == 1 && d.podLabels == map["app" := key]
    && (before.None? ==>
          && d.selector == map["app" := key] && d.serviceName == key && d.readyReplicas == 0
          && (v.pvcName != "" ==> d.claims == [] && d.pvc == Some(v.pvcName))
          && (v.pvcName == "" ==>
                && d.pvc == None && |d.claims| == 1 && d.claims[0].storageClass == v.storageClass
                && (v.size != "" ==> d.claims[0].size == v.size) && (v.size == "" ==> d.claims[0].size == "50Gi")))
    && (before.Some? ==>
          && d.selector == before.value.selector && d.serviceName == before.value.serviceName && d.claims == before.value.claims
          && d.readyReplicas == before.value.readyReplicas
          && (v.pvcName != "" ==> d.pvc == Some(v.pvcName)) && (v.pvcName == "" ==> d.pvc == before.value.pvc))
  }

  function SetBefore(s: Store, key: string): Option<StatefulSet> {
    if key in s.statefulSets then Some(s.statefulSets[key]) else None
  }

  /** A passing stage leaves the account and a StatefulSet of exactly that shape, and nothing else. */
  predicate VectorLeft(s: Store, n: string, p: Platform, w: P.World, t: Store, o: Outcome) {
    var key := n + "-weaviate";
    && (o.Ok? <==> w.weaviateImage != "" && WeaviateAccount !in w.failing && WeaviateSet !in w.failing && WeaviateService !in w.failing)
    && (w.weaviateImage == "" || WeaviateAccount in w.failing ==> t == s)
    && (WeaviateSet in w.failing ==> t.statefulSets == s.statefulSets)
    && (o.Ok? ==>
          && key in t.statefulSets && VectorSet(SetBefore(s, key), t.statefulSets[key], key, p.spec.vectorDb)
          && t == s.(serviceAccounts := s.serviceAccounts + {key}, statefulSets := s.statefulSets[key := t.statefulSets[key]]))
  }

  lemma VectorIs(s: Store, n: string, p: Platform, w: P.World)
    ensures var (t, o) := P.ReconcileWeaviate(s, n, p, w);
            VectorLeft(s, n, p, w, t, o)
  {
    VectorSetIs(s, n, p);
    hide VectorSet, P.WeaviateUpserted;
  }

  lemma VectorSetIs(s: Store, n: string, p: Platform)
    ensures VectorSet(SetBefore(s, n + "-weaviate"), P.WeaviateUpserted(s, n, p), n + "-weaviate", p.spec.vectorDb)
  {
  }

  /** A collected snapshot gives the head service's name and whether Ray runs. */
  predicate RayStatusLeft(p: Platform, w: P.World, q: Platform, o: Outcome) {
    && (o.Ok? <==> w.ray.Some?) && (w.ray.None? ==> q == p)
    && q == p.(status := p.status.(rayServiceName := q.status.rayServiceName, rayServiceStatus := q.status.rayServiceStatus))
    && (w.ray.Some? ==>
          && q.status.rayServiceStatus == (if w.ray.value.running then "Running" else "Pending")
          && (w.ray.value.headService != "" ==> q.status.rayServiceName == w.ray.value.headService)
          && (w.ray.value.headService == "" ==> q.status.rayServiceName == p.status.rayServiceName))
  }

  /** A stored StatefulSet that is read gives the vector database's name. */
  predicate VectorStatusLeft(s: Store, n: string, p: Platform, w: P.World, q: Platform, o: Outcome) {
    && (o.Ok? <==> GetStatefulSet !in w.failing && n + "-weaviate" in s.statefulSets)
    && q == p.(status := p.status.(vectorDbServiceName := if o.Ok? then n + "-weaviate" else p.status.vectorDbServiceName))
  }

  lemma StatusStagesAre(s: Store, n: string, p: Platform, w: P.World)
    ensures var (q, o) := P.CollectRay(p, w); RayStatusLeft(p, w, q, o)
    ensures var (q, o) := P.WeaviateStatus(s, n, p, w); VectorStatusLeft(s, n, p, w, q, o)
  {
  }

  /** The inspection passes exactly when the children can be listed and none shows a False condition with reason Error. */
  predicate InspectionLeft(s: Store, n: string, w: P.World, o: Outcome) {
    o.Ok? <==>
      && ListChildren !in w.failing
      && forall c :: c in s.services && s.services[c].meta.controller == Some(PlatformOwner(n)) ==>
           forall i :: 0 <= i < |s.services[c].status.conditions| ==>
             !(s.services[c].status.conditions[i].status == False && s.services[c].status.conditions[i].reason == "Error")
  }

  lemma InspectionIs(s: Store, n: string, w: P.World)
    ensures InspectionLeft(s, n, w, CheckChildren(s, n, w.failing))
  {
    forall c | c in s.services && s.services[c].meta.controller == Some(PlatformOwner(n))
      ensures c in Owned(s, n)
    {
    }
  }

  /** The children an inspection saw, as they were. */
  predicate ListsChildren(s: Store, n: string, listed: map<string, Service>) {
    && (forall c :: c in s.services && s.services[c].meta.controller == Some(PlatformOwner(n)) ==> c in listed)
    && (forall c :: c in listed ==> c in s.services && s.services[c].meta.controller == Some(PlatformOwner(n)) && listed[c] == s.services[c])
  }

  lemma ListingIs(s: Store, n: string)
    ensures ListsChildren(s, n, P.Listing(s, n))
  {
    forall c | c in s.services && s.services[c].meta.controller == Some(PlatformOwner(n))
      ensures c in P.Listing(s, n)
    {
      assert c in Owned(s, n);
    }
  }

  function PlatformLabel(k: nat): string {
    match k
    case 0 => "ValidateReady"
    case 1 => "SidecarsReady"
    case 2 => "rayAutoscalerRBACReady"
    case 3 => "RayServiceReady"
    case 4 => "WeaviateDatabaseReady"
    case 5 => "IngressReady"
    case 6 => "RayServiceStatusReady"
    case 7 => "WeaviateDatabaseStatusReady"
    case 8 => "IngressStatusReady"
    case 9 => "AIServiceReady"
    case _ => "AIServiceStatusReady"
  }

  /** What the k-th stage of a platform's run leaves in the store and in its copy, and how it ends. */
  ghost predicate PlatformStageLeft(k: nat, s: Store, n: string, p: Platform, w: P.World, t: Store, q: Platform, o: Outcome) {
    match k
    case 0 => t == s && PlatformValidateLeft(s, p, w, q, o)
    case 1 => t == s && q == p && o == w.sidecars
    case 2 => t == s && q == p && o == w.rbac
    case 3 => t == s && q == p && o == w.rayService
    case 4 => q == p && VectorLeft(s, n, p, w, t, o)
    case 5 => t == s && q == p && o == w.ingress
    case 6 => t == s && RayStatusLeft(p, w, q, o)
    case 7 => t == s && VectorStatusLeft(s, n, p, w, q, o)
    case 8 => t == s && q == p && o == w.ingressStatus
    case 9 => q == p && OnlyServicesChanged(s, t) && (o.Ok? ==> forall c :: SettledByName(s, t, n, p, c))
    case _ => t == s && q == p && InspectionLeft(s, n, w, o)
  }

  lemma PlatformStageIs(s: Store, r: P.Run, w: P.World)
    requires !P.Stopped(r) && NoZombies(s) && Admitted(s)
    ensures var (t, q) := P.StageStep(s, r, w);
            && PlatformStageLeft(r.next, s, r.name, r.p, w, t, q.p, q.outcome)
            && Reports(r.conditions, PlatformLabel(r.next), q.outcome, r.next == 10, q.conditions)
            && q.next == r.next + 1 && q.name == r.name
            && (if r.next == 10 then ListsChildren(s, r.name, q.listed) else q.listed == r.listed)
  {
    if r.next == 10 {
      ListingIs(s, r.name);
    }
    hide P.Listing, ListsChildren;
    PlatformExecuteIs(s, r.next, r.name, r.p, w);
    hide P.Execute, PlatformStageLeft, NoZombies, Admitted, Reports;
    ReportsAppended(r.conditions, PlatformLabel(r.next), P.StageStep(s, r, w).1.outcome, r.next == 10);
  }

  lemma PlatformExecuteIs(s: Store, k: nat, n: string, p: Platform, w: P.World)
    requires k < |P.STAGES| && NoZombies(s) && Admitted(s)
    ensures var (t, q, o) := P.Execute(P.STAGES[k], s, n, p, w);
            PlatformStageLeft(k, s, n, p, w, t, q, o)
  {
    hide P.ValidatePlatform, PlatformValidateLeft, P.ReconcileWeaviate, VectorLeft, P.CollectRay, RayStatusLeft, P.WeaviateStatus, VectorStatusLeft,
      ReconcileFeatures, CheckChildren, InspectionLeft, NoZombies, Admitted;
    PlatformValidateIs(s, p, w);
    VectorIs(s, n, p, w);
    StatusStagesAre(s, n, p, w);
    FeaturesKeep(s, n, p, w.failing, w.reached);
    InspectionIs(s, n, w);
    hide SettledByName;
    if ReconcileFeatures(s, n, p, w.failing, w.reached).1.Ok? {
      forall c ensures SettledByName(s, ReconcileFeatures(s, n, p, w.failing, w.reached).0, n, p, c) {
        FeaturesByName(s, n, p, w.failing, w.reached, c);
      }
    }
  }
}
