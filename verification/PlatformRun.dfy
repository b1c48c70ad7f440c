/** One run of the AIPlatform reconciler (pkg/ai/reconciler.go), stage by stage. */
module PlatformRun {
  import opened Api
  import opened Names
  import opened Admission
  import opened StageRunner
  import opened Features

  datatype Stage =
    | Validate | Sidecars | RayAutoscalerRbac | RayService | WeaviateDatabase | IngressStage
    | RayServiceStatus | WeaviateDatabaseStatus | IngressStatus | AIService | AIServiceStatus

  const STAGES := [
    Validate, Sidecars, RayAutoscalerRbac, RayService, WeaviateDatabase, IngressStage,
    RayServiceStatus, WeaviateDatabaseStatus, IngressStatus, AIService, AIServiceStatus]

  const LABELS := [
    "ValidateReady", "SidecarsReady", "rayAutoscalerRBACReady", "RayServiceReady", "WeaviateDatabaseReady", "IngressReady",
    "RayServiceStatusReady", "WeaviateDatabaseStatusReady", "IngressStatusReady", "AIServiceReady", "AIServiceStatusReady"]

  /** The name of the Ray head service and whether the service reports itself ready or running. */
  datatype RayView = RayView(headService: string, running: bool)

  /** What lies outside the store: environment variables, resolvers, oracle stages, failing calls. */
  datatype World = World(
    splunk: SplunkWorld,
    weaviateImage: string,
    sidecars: Outcome,
    rbac: Outcome,
    rayService: Outcome,
    ingress: Outcome,
    ingressStatus: Outcome,
    ray: Option<RayView>,
    failing: set<Call>,
    reached: set<string>)

  /** The reconciler's local state: its copy of the platform, the loop index, the condition list. */
  datatype Run = Run(name: string, p: Platform, next: nat, conditions: seq<Condition>, outcome: Outcome,
                     listed: map<string, Service>)

  function Start(name: string, p: Platform): Run {
    Run(name, p, 0, [], Ok, map[])
  }

  const EMPTY_SCHEDULING := "nodeSelector:{} tolerations:[] affinity:{}"

  /** validate: backfills scheduling, then enriches the Splunk configuration of the copy. */
  function ValidatePlatform(s: Store, p: Platform, w: World): (Platform, Outcome) {
    if p.spec.objectStorage.path == "" then (p, Fail("object storage is required"))
    else
      var (splunk, o) := Enrich(p.spec.splunk, s.ns, p.spec.clusterDomain, w.splunk);
      (p.(spec := p.spec.(
            cpuScheduling := if p.spec.cpuScheduling.None? then Some(EMPTY_SCHEDULING) else p.spec.cpuScheduling,
            gpuScheduling := if p.spec.gpuScheduling.None? then Some(EMPTY_SCHEDULING) else p.spec.gpuScheduling,
            splunk := splunk)), o)
  }

  function WeaviateLabels(name: string): map<string, string> {
    map["app" := WeaviateName(name)]
  }

  function Claims(v: VectorDbStorage): seq<Claim> {
    if v.pvcName != "" then [] else [Claim(if v.size == "" then "50Gi" else v.size, v.storageClass)]
  }

  /** The StatefulSet after CreateOrUpdate: selector, service name and claims only on creation. */
  function WeaviateUpserted(s: Store, name: string, p: Platform): StatefulSet {
    var key := WeaviateName(name);
    var pvc := p.spec.vectorDb.pvcName;
    if key in s.statefulSets then
      var cur := s.statefulSets[key];
      cur.(replicas := 1, podLabels := WeaviateLabels(name), pvc := if pvc != "" then Some(pvc) else cur.pvc)
    else
      StatefulSet(WeaviateLabels(name), key, Claims(p.spec.vectorDb), WeaviateLabels(name),
                  if pvc != "" then Some(pvc) else None, 1, 0)
  }

  function ReconcileWeaviate(s: Store, name: string, p: Platform, w: World): (Store, Outcome) {
    var key := WeaviateName(name);
    if w.weaviateImage == "" then (s, Fail("RELATED_IMAGE_WEAVIATE environment variable is required"))
    else if WeaviateAccount in w.failing then (s, Fail("client error"))
    else
      var s1 := s.(serviceAccounts := s.serviceAccounts + {key});
      if WeaviateSet in w.failing then (s1, Fail("client error"))
      else
        var s2 := s1.(statefulSets := s1.statefulSets[key := WeaviateUpserted(s, name, p)]);
        (s2, if WeaviateService in w.failing then Fail("client error") else Ok)
  }

  /** ApplyNormalizedConditions, as far as the published status depends on it. */
  function CollectRay(p: Platform, w: World): (Platform, Outcome) {
    match w.ray
    case None => (p, Fail("failed to collect Ray snapshot"))
    case Some(v) =>
      (p.(status := p.status.(
            rayServiceName := if v.headService != "" then v.headService else p.status.rayServiceName,
            rayServiceStatus := if v.running then "Running" else "Pending")), Ok)
  }

  function WeaviateStatus(s: Store, name: string, p: Platform, w: World): (Platform, Outcome) {
    if GetStatefulSet in w.failing || WeaviateName(name) !in s.statefulSets then (p, Fail("StatefulSet not found"))
    else (p.(status := p.status.(vectorDbServiceName := WeaviateName(name))), Ok)
  }

  function Execute(st: Stage, s: Store, name: string, p: Platform, w: World): (Store, Platform, Outcome) {
    match st
    case Validate => var (q, o) := ValidatePlatform(s, p, w); (s, q, o)
    case Sidecars => (s, p, w.sidecars)
    case RayAutoscalerRbac => (s, p, w.rbac)
    case RayService => (s, p, w.rayService)
    case WeaviateDatabase => var (t, o) := ReconcileWeaviate(s, name, p, w); (t, p, o)
    case IngressStage => (s, p, w.ingress)
    case RayServiceStatus => var (q, o) := CollectRay(p, w); (s, q, o)
    case WeaviateDatabaseStatus => var (q, o) := WeaviateStatus(s, name, p, w); (s, q, o)
    case IngressStatus => (s, p, w.ingressStatus)
    case AIService => var (t, o) := ReconcileFeatures(s, name, p, w.failing, w.reached); (t, p, o)
    case AIServiceStatus => (s, p, CheckChildren(s, name, w.failing))
  }

  predicate Stopped(r: Run) {
    !r.outcome.Ok? || r.next >= |STAGES|
  }

  function Listing(s: Store, name: string): map<string, Service> {
    map n | n in Owned(s, name) :: s.services[n]
  }

  /** One iteration of the stage loop. */
  function StageStep(s: Store, r: Run, w: World): (Store, Run)
    requires !Stopped(r)
  {
    var st := STAGES[r.next];
    var (t, q, o) := Execute(st, s, r.name, r.p, w);
    (t, Run(r.name, q, r.next + 1, r.conditions + Appended(LABELS[r.next], o, r.next + 1 == |STAGES|), o,
            if st == AIServiceStatus then Listing(s, r.name) else r.listed))
  }

  /** The rest of the loop. */
  function Finish(s: Store, r: Run, w: World): (Store, Run)
    decreases |STAGES| - r.next
  {
    if Stopped(r) then (s, r)
    else var (t, q) := StageStep(s, r, w); Finish(t, q, w)
  }

  /** The status the deferred function writes: the copy's status with its conditions replaced. */
  function PublishedStatus(r: Run): PlatformStatus {
    r.p.status.(conditions := r.conditions)
  }

  // ---- the loop publishes exactly what happened --------------------------------------------

  lemma LabelsDistinct()
    ensures Distinct(LABELS) && |LABELS| == |STAGES|
  {
    assert |LABELS[6]| == 21 && |LABELS[7]| == 27;
  }

  predicate WellFormed(r: Run) {
    r.next <= |STAGES| && Published(LABELS, r.conditions, r.next, r.outcome)
  }

  lemma StartWellFormed(name: string, p: Platform)
    ensures WellFormed(Start(name, p))
  {
    assert Passed(LABELS[..0]) == [];
  }

  lemma StepWellFormed(s: Store, r: Run, w: World)
    requires WellFormed(r) && !Stopped(r)
    ensures WellFormed(StageStep(s, r, w).1)
  {
    hide Execute;
    PublishedStep(LABELS, r.conditions, r.next, Execute(STAGES[r.next], s, r.name, r.p, w).2);
  }

  lemma StepAdvances(s: Store, r: Run, w: World)
    requires !Stopped(r)
    ensures StageStep(s, r, w).1.next == r.next + 1 && StageStep(s, r, w).1.name == r.name
  {
  }

  // ---- the loop is the generic one --------------------------------------------------------------

  function StageOf(name: string, w: World): (nat, Store, Platform) -> (Store, Platform, Outcome) {
    (k: nat, t, q) => if k < |STAGES| then Execute(STAGES[k], t, name, q, w) else (t, q, Ok)
  }

  function LoopOf(r: Run): Loop<Platform> {
    Loop(r.p, r.next, r.conditions, r.outcome)
  }

  lemma {:induction false} FinishIterates(s: Store, r: Run, w: World)
    ensures var (t, q) := Finish(s, r, w);
            Iterate(LABELS, StageOf(r.name, w), s, LoopOf(r)) == (t, LoopOf(q)) && q.name == r.name
    decreases |STAGES| - r.next
  {
    hide Execute;
    if !Stopped(r) {
      var (t, q) := StageStep(s, r, w);
      FinishIterates(t, q, w);
    }
  }

  lemma FinishWellFormed(s: Store, r: Run, w: World)
    requires WellFormed(r)
    ensures WellFormed(Finish(s, r, w).1) && Stopped(Finish(s, r, w).1)
  {
    hide Finish, Iterate, Published;
    FinishIterates(s, r, w);
    IteratePublishes(LABELS, StageOf(r.name, w), s, LoopOf(r));
    var l := LoopOf(Finish(s, r, w).1);
    PublishedBounds(LABELS, l.conditions, l.next, l.outcome);
  }

  /** The loop refines the stages one after the other, and publishes how far it got. */
  lemma RunRefines(s: Store, name: string, p: Platform, w: World)
    ensures var (t, r) := Finish(s, Start(name, p), w);
            r.name == name && Refines(LABELS, StageOf(name, w), s, p, t, LoopOf(r))
  {
    hide Finish, Iterate, Refines, StageOf;
    LabelsDistinct();
    FinishIterates(s, Start(name, p), w);
    LoopRefines(LABELS, StageOf(name, w), s, p);
  }
}
