/** One run of the SAIA feature reconciler (pkg/ai/features/saia/impl.go), stage by stage. */
module SaiaRun {
  import opened Api
  import opened Names
  import opened Admission
  import opened ApiServer
  import opened StageRunner

  datatype Stage =
    | Validate | ServiceAccountStage | SaiaConfigMap | FeatureConfigMap | CertificateStage
    | PostInstallHook | SaiaDeployment | SaiaService | ServiceMonitor

  const STAGES := [
    Validate, ServiceAccountStage, SaiaConfigMap, FeatureConfigMap, CertificateStage,
    PostInstallHook, SaiaDeployment, SaiaService, ServiceMonitor]

  const LABELS := [
    "ValidateReady", "ServiceAccountReady", "SAIAConfigMapReady", "FeatureConfigMapReady", "CertificateReady",
    "PostInstallHookReady", "SAIADeploymentReady", "SAIAServiceReady", "ServiceMonitorReady"]

  /** The number of stages before the one that can panic. */
  const PANIC_AT := 7
  const HOOK_AT := 5

  datatype World = World(
    splunk: SplunkWorld,
    hookImage: string,
    configMapsOk: bool,
    featureMapOk: bool,
    serviceOk: bool,
    monitorOk: bool,
    failing: set<Call>)

  datatype Run = Run(name: string, ai: Service, next: nat, conditions: seq<Condition>, outcome: Outcome)

  function Start(name: string, ai: Service): Run {
    Run(name, ai, 0, [], Ok)
  }

  // ---- Validate -----------------------------------------------------------------------------

  /** The two platform conditions and the two status names a child waits for. */
  function GateError(s: Store, ref: PlatformRef): Option<string> {
    if ref.ns != s.ns || ref.name !in s.platforms then Some("fetching AIPlatform")
    else
      var st := s.platforms[ref.name].status;
      if !IsConditionTrue(st.conditions, "RayServiceStatusReady") then Some("RayService is not ready")
      else if st.rayServiceName == "" then Some("RayServiceName not populated in AIPlatform status")
      else if !IsConditionTrue(st.conditions, "WeaviateDatabaseStatusReady") then Some("vector database is not ready")
      else if st.vectorDbServiceName == "" then Some("VectorDbServiceName not populated in AIPlatform status")
      else None
  }

  /** The URLs left empty are derived from the platform's status. */
  function FillUrls(s: Store, v: ServiceSpec): ServiceSpec
    requires v.platformRef.name in s.platforms
  {
    var st := s.platforms[v.platformRef.name].status;
    v.(platformUrl :=
         if v.platformUrl == "" then ServiceFqdn(st.rayServiceName, v.platformRef.ns, v.clusterDomain) + ":8000" else v.platformUrl,
       vectorDbUrl :=
         if v.vectorDbUrl == "" then ServiceFqdn(st.vectorDbServiceName, v.platformRef.ns, v.clusterDomain) else v.vectorDbUrl)
  }

  function DefaultResources(v: ServiceSpec): ServiceSpec {
    v.(requests := if v.requests == map[] then map["cpu" := "500m", "memory" := "1Gi"] else v.requests,
       limits := if v.limits == map[] then map["cpu" := "1", "memory" := "2Gi"] else v.limits)
  }

  function ValidateSpec(s: Store, v: ServiceSpec, w: World): (ServiceSpec, Outcome) {
    if w.hookImage == "" then (v, Fail("RELATED_IMAGE_POST_INSTALL_HOOK must be set"))
    else if v.platformRef.name == "" && v.platformUrl == "" then (v, Fail("either AIPlatformRef.Name or AIPlatformUrl must be set"))
    else if v.platformRef.name != "" && GateError(s, v.platformRef).Some? then (v, Fail(GateError(s, v.platformRef).value))
    else
      var v1 := if v.platformRef.name != "" then FillUrls(s, v) else v;
      if v1.platformUrl == "" then (v1, Fail("AIPlatformUrl must be set"))
      else if v1.vectorDbUrl == "" then (v1, Fail("VectorDbUrl must be set"))
      else
        var v2 := DefaultResources(v1);
        if v2.taskVolume.path == "" then (v2, Fail("task volume path must be set"))
        else
          var v3 := v2.(replicas := if v2.replicas == 0 then 1 else v2.replicas);
          if v3.splunk.endpoint == "" && v3.splunk.crRef.name == "" then (v3, Ok)
          else
            var (splunk, o) := Enrich(v3.splunk, s.ns, v3.clusterDomain, w.splunk);
            (v3.(splunk := splunk), o)
  }

  // ---- ServiceAccount, Certificate, Job, Deployment -------------------------------------------

  /** An empty account name is filled in and written back with everything Validate put into the copy. */
  function ReconcileAccount(s: Store, name: string, ai: Service, w: World): (Store, Service, Outcome) {
    if ai.spec.serviceAccount != "" then (s, ai, Ok)
    else
      var ai1 := ai.(spec := ai.spec.(serviceAccount := name + "-sa"));
      var (s1, o) := if UpdateSpec in w.failing then (s, Fail("client error")) else UpdateService(s, name, ai1);
      if !o.Ok? then (s, ai1, o)
      else
        var ai2 := Refreshed(s1, name, ai1);
        if EnsureAccount in w.failing then (s1, ai2, Fail("client error"))
        else (s1.(serviceAccounts := s1.serviceAccounts + {ai2.spec.serviceAccount}), ai2, Ok)
  }

  predicate HasFlag(flags: seq<Flag>, kind: string) {
    Flag(kind, true) in flags
  }

  function EnsuredCertificate(s: Store, name: string, ai: Service): Certificate {
    var key := CertificateName(name);
    Certificate(ai.spec.mtls.secretName, ai.spec.mtls.issuerName, ai.spec.mtls.dnsNames,
                if key in s.certificates then s.certificates[key].flags else [])
  }

  function ReconcileCertificate(s: Store, name: string, ai: Service, w: World): (Store, Outcome) {
    if !ai.spec.mtls.enabled || ai.spec.mtls.termination != "operator" then (s, Ok)
    else if EnsureCertificate in w.failing then (s, Fail("client error"))
    else
      var cert := EnsuredCertificate(s, name, ai);
      (s.(certificates := s.certificates[CertificateName(name) := cert]),
       if HasFlag(cert.flags, "Ready") then Ok else Fail("waiting for Certificate to become Ready"))
  }

  datatype Verdict = Completed | Failed | Running

  /** The first true Complete or Failed condition decides. */
  function JobVerdict(flags: seq<Flag>): Verdict {
    if flags == [] then Running
    else if flags[0] == Flag("Complete", true) then Completed
    else if flags[0] == Flag("Failed", true) then Failed
    else JobVerdict(flags[1..])
  }

  function ReconcileHook(s: Store, name: string, ai: Service, w: World): (Store, Service, Outcome) {
    var id := ai.status.schemaJobId;
    if ai.spec.vectorDbUrl == "" then (s, ai, Ok)
    else if id != "" && GetJob in w.failing then (s, ai, Fail("fetching Job"))
    else if id != "" && id in s.jobs then
      (s, ai, match JobVerdict(s.jobs[id].flags)
              case Completed => Ok
              case Failed => Fail("job failed")
              case Running => Fail("job is still running"))
    else
      var ai1 := ai.(status := ai.status.(schemaJobId := ""));
      if EnsureJob in w.failing then (s, ai1, Fail("create/update Job"))
      else
        var key := JobName(name);
        (if key in s.jobs then s else s.(jobs := s.jobs[key := Job([])]),
         ai.(status := ai.status.(schemaJobId := key)), Fail("created Job, waiting for completion"))
  }

  /** Whether the hook issues the call that creates the Job: it gets that far, and CreateOrUpdate finds none. */
  predicate CreatesJob(s: Store, name: string, ai: Service, w: World) {
    var id := ai.status.schemaJobId;
    && ai.spec.vectorDbUrl != ""
    && (id == "" || (GetJob !in w.failing && id !in s.jobs))
    && EnsureJob !in w.failing
    && JobName(name) !in s.jobs
  }

  function PodLabels(name: string): map<string, string> {
    map["app" := name, "component" := name]
  }

  /** Annotations that the Service stage would write into a nil map. */
  function ForeignAnnotations(m: map<string, string>): map<string, string> {
    m - {LAST_APPLIED, RESTARTED_AT}
  }

  function DeploymentUpserted(s: Store, name: string, ai: Service): Deployment {
    var key := DeploymentName(name);
    Deployment(
      if key in s.deployments && s.deployments[key].selector.Some? then s.deployments[key].selector else Some(PodLabels(name)),
      PodLabels(name),
      map["app" := name, "component" := name, "area" := "ml", "team" := "ml"] + ai.meta.labels,
      map["prometheus.io/port" := "8088", "prometheus.io/path" := "/metrics", "prometheus.io/scheme" := "http"]
        + ForeignAnnotations(ai.meta.annotations),
      ai.spec.replicas, ai.spec.serviceAccount,
      if ai.spec.mtls.enabled && ai.spec.mtls.termination == "operator" then Some(ai.spec.mtls.secretName) else None)
  }

  function ReconcileDeployment(s: Store, name: string, ai: Service, w: World): (Store, Outcome) {
    if EnsureDeployment in w.failing then (s, Fail("client error"))
    else (s.(deployments := s.deployments[DeploymentName(name) := DeploymentUpserted(s, name, ai)]), Ok)
  }

  function OkIf(b: bool): Outcome {
    if b then Ok else Fail("client error")
  }

  function Execute(st: Stage, s: Store, name: string, ai: Service, w: World): (Store, Service, Outcome) {
    match st
    case Validate => var (v, o) := ValidateSpec(s, ai.spec, w); (s, ai.(spec := v), o)
    case ServiceAccountStage => ReconcileAccount(s, name, ai, w)
    case SaiaConfigMap => (s, ai, OkIf(w.configMapsOk))
    case FeatureConfigMap => (s, ai, OkIf(w.featureMapOk))
    case CertificateStage => var (t, o) := ReconcileCertificate(s, name, ai, w); (t, ai, o)
    case PostInstallHook => ReconcileHook(s, name, ai, w)
    case SaiaDeployment => var (t, o) := ReconcileDeployment(s, name, ai, w); (t, ai, o)
    case SaiaService => (s, ai, if ForeignAnnotations(ai.meta.annotations) != map[] then Panic else OkIf(w.serviceOk))
    case ServiceMonitor => (s, ai, if ai.spec.metrics.enabled then OkIf(w.monitorOk) else Ok)
  }

  predicate Stopped(r: Run) {
    !r.outcome.Ok? || r.next >= |STAGES|
  }

  function StageStep(s: Store, r: Run, w: World): (Store, Run)
    requires !Stopped(r)
  {
    var (t, ai, o) := Execute(STAGES[r.next], s, r.name, r.ai, w);
    (t, Run(r.name, ai, r.next + 1, r.conditions + Appended(LABELS[r.next], o, r.next + 1 == |STAGES|), o))
  }

  function Finish(s: Store, r: Run, w: World): (Store, Run)
    decreases |STAGES| - r.next
  {
    if Stopped(r) then (s, r)
    else var (t, q) := StageStep(s, r, w); Finish(t, q, w)
  }

  /** The object the deferred function writes: the local status with its conditions replaced. */
  function ToPublish(r: Run): Service {
    r.ai.(status := r.ai.status.(conditions := r.conditions))
  }

  // ---- the loop publishes exactly what happened ------------------------------------------------

  lemma LabelsDistinct()
    ensures Distinct(LABELS) && |LABELS| == |STAGES|
  {
    assert |LABELS[7]| == 16;
  }

  predicate WellFormed(r: Run) {
    r.next <= |STAGES| && Published(LABELS, r.conditions, r.next, r.outcome)
  }

  lemma StartWellFormed(name: string, ai: Service)
    ensures WellFormed(Start(name, ai))
  {
    assert Passed(LABELS[..0]) == [];
  }

  lemma StepWellFormed(s: Store, r: Run, w: World)
    requires WellFormed(r) && !Stopped(r)
    ensures WellFormed(StageStep(s, r, w).1)
  {
    hide Execute;
    PublishedStep(LABELS, r.conditions, r.next, Execute(STAGES[r.next], s, r.name, r.ai, w).2);
  }

  lemma StepAdvances(s: Store, r: Run, w: World)
    requires !Stopped(r)
    ensures StageStep(s, r, w).1.next == r.next + 1 && StageStep(s, r, w).1.name == r.name
  {
  }

  // ---- the loop is the generic one --------------------------------------------------------------

  function StageOf(name: string, w: World): (nat, Store, Service) -> (Store, Service, Outcome) {
    (k: nat, t, q) => if k < |STAGES| then Execute(STAGES[k], t, name, q, w) else (t, q, Ok)
  }

  function LoopOf(r: Run): Loop<Service> {
    Loop(r.ai, r.next, r.conditions, r.outcome)
  }

  lemma {:induction false} FinishIterates(s: Store, r: Run, w: World)
    ensures var (t, q) := Finish(s, r, w);
            Iterate(LABELS, StageOf(r.name, w), s, LoopOf(r)) == (t, LoopOf(q)) && q.name == r.name
    decreases |STAGES| - r.next
  {
    hide Execute;
    if !Stopped(r) {
      var (t, q) := StageStep(s, r, w);
      FinishIterates(t, q, w);
    }
  }

  lemma FinishWellFormed(s: Store, r: Run, w: World)
    requires WellFormed(r)
    ensures WellFormed(Finish(s, r, w).1) && Stopped(Finish(s, r, w).1)
  {
    hide Finish, Iterate, Published;
    FinishIterates(s, r, w);
    IteratePublishes(LABELS, StageOf(r.name, w), s, LoopOf(r));
    var l := LoopOf(Finish(s, r, w).1);
    PublishedBounds(LABELS, l.conditions, l.next, l.outcome);
  }

  /** The loop refines the stages one after the other, and publishes how far it got. */
  lemma RunRefines(s: Store, name: string, ai: Service, w: World)
    ensures var (t, r) := Finish(s, Start(name, ai), w);
            r.name == name && Refines(LABELS, StageOf(name, w), s, ai, t, LoopOf(r))
  {
    hide Finish, Iterate, Refines, StageOf;
    LabelsDistinct();
    FinishIterates(s, Start(name, ai), w);
    LoopRefines(LABELS, StageOf(name, w), s, ai);
  }
}
