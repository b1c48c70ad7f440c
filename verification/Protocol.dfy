/**
 * The whole system as a state machine: at most one run of each controller in flight (one worker
 * each), interleaved stage by stage with each other and with the environment, on one store.
 */
module Protocol {
  import opened Api
  import opened Names
  import opened Admission
  import opened ApiServer
  import opened Features
  import P = PlatformRun
  import R = StageRunner
  import S = SaiaRun

  /** A SAIA run in flight; sawComplete says that its hook stage read a completed Job. */
  datatype ServiceRun = ServiceRun(run: S.Run, sawComplete: bool, published: bool)

  datatype Child = Child(name: string, uid: nat)

  /** What happened so far: which children's Jobs were observed complete, whose runs panicked, Job counts. */
  datatype History = History(observed: set<Child>, panicked: set<Child>,
                             created: map<string, nat>, deleted: map<string, nat>)

  datatype State = State(store: Store, quantities: iset<string>,
                         platformRun: Option<P.Run>, serviceRun: Option<ServiceRun>, history: History)

  datatype Step =
    // the platform controller
    | PlatformFetch(name: string, failing: set<Call>)
    | PlatformStage(pw: P.World)
    | PlatformPublish(lands: bool)
    // the service controller
    | ServiceFetch(name: string, failing: set<Call>)
    | ServiceStage(sw: S.World)
    | ServicePublish(lands: bool)
    | ServiceStatusWrite(lands: bool)
    // the environment
    | JobFlags(name: string, flags: seq<Flag>)
    | JobGone(name: string)
    | CertificateFlags(name: string, flags: seq<Flag>)
    | ReadyReplicas(name: string, n: int)
    | DeploymentGone(name: string)
    | StatefulSetGone(name: string)
    | UserCreatePlatform(name: string, meta: Meta, platform: PlatformSpec)
    | UserEditPlatform(name: string, labels: map<string, string>, platform: PlatformSpec)
    | UserDeletePlatform(name: string)
    | UserCreateService(name: string, meta: Meta, service: ServiceSpec)
    | UserEditService(name: string, labels: map<string, string>, annotations: map<string, string>, service: ServiceSpec)
    | UserDeleteService(name: string)
    | DropFinalizer(name: string, finalizer: string)

  function RemoveAll(xs: seq<string>, x: string): (r: seq<string>)
    ensures x !in r
    ensures forall y :: y in r <==> y in xs && y != x
  {
    if xs == [] then []
    else if xs[0] == x then RemoveAll(xs[1..], x)
    else [xs[0]] + RemoveAll(xs[1..], x)
  }

  /** What is not removed stays in order. */
  lemma {:induction false} RemoveAllConcat(xs: seq<string>, ys: seq<string>, x: string)
    ensures RemoveAll(xs + ys, x) == RemoveAll(xs, x) + RemoveAll(ys, x)
  {
    if xs == [] {
      assert xs + ys == ys;
    } else {
      assert (xs + ys)[1..] == xs[1..] + ys;
      RemoveAllConcat(xs[1..], ys, x);
    }
  }

  datatype Result = Done | RequeueAfter | Error

  /** The deletion flow of the platform controller, one call, reading the store as it is. */
  function FinalizePlatform(s: Store, name: string, failing: set<Call>, quantities: iset<string>): (Store, Result)
    requires name in s.platforms
  {
    var p := s.platforms[name];
    if FINALIZER_PLATFORM !in p.meta.finalizers then (s, Done)
    else if ListChildren in failing then (s, Error)
    else
      var owned := Owned(s, name);
      if owned != {} then (DeleteServices(s, set n | n in owned && DeleteChild(n) !in failing), RequeueAfter)
      else if UpdateSpec in failing then (s, Error)
      else
        var (t, o) := UpdatePlatform(s, name, p.(meta := p.meta.(finalizers := RemoveAll(p.meta.finalizers, FINALIZER_PLATFORM))), quantities);
        (t, if o.Ok? then Done else Error)
  }

  /** The deletion flow of the service controller; no feature handler implements Finalize. */
  function FinalizeService(s: Store, name: string, failing: set<Call>): (Store, Result)
    requires name in s.services
  {
    var v := s.services[name];
    if FINALIZER_SERVICE !in v.meta.finalizers then (s, Done)
    else if UpdateSpec in failing then (s, Error)
    else
      var (t, o) := UpdateService(s, name, v.(meta := v.meta.(finalizers := RemoveAll(v.meta.finalizers, FINALIZER_SERVICE))));
      (t, if o.Ok? then Done else Error)
  }

  function Bump(m: map<string, nat>, k: string): map<string, nat> {
    m[k := Count(m, k) + 1]
  }

  function Count(m: map<string, nat>, k: string): nat {
    if k in m then m[k] else 0
  }

  /** Whether the hook stage of this run is about to read a completed Job. */
  predicate ReadsCompleted(s: Store, r: S.Run) {
    && r.next == S.HOOK_AT && r.outcome.Ok?
    && r.ai.status.schemaJobId in s.jobs
    && S.JobVerdict(s.jobs[r.ai.status.schemaJobId].flags) == S.Completed
  }

  function ServiceStaged(st: State, sr: ServiceRun, w: S.World): State
    requires !S.Stopped(sr.run)
  {
    var (t, q) := S.StageStep(st.store, sr.run, w);
    var child := Child(sr.run.name, sr.run.ai.meta.uid);
    // a completed Job counts as observed when the stage that read it went through
    var saw := q.outcome.Ok? && ReadsCompleted(st.store, sr.run);
    st.(store := t,
        serviceRun := Some(ServiceRun(q, sr.sawComplete || saw, false)),
        history := st.history.(
          observed := if saw then st.history.observed + {child} else st.history.observed,
          panicked := if q.outcome.Panic? then st.history.panicked + {child} else st.history.panicked,
          // counted where the hook issues the creation, not where a Job shows up
          created := if sr.run.next == S.HOOK_AT && S.CreatesJob(st.store, sr.run.name, sr.run.ai, w)
                     then Bump(st.history.created, JobName(sr.run.name)) else st.history.created))
  }

  /** reconcileStatus appends its own Ready condition only when the feature handler set none. */
  function WithReady(cs: seq<Condition>): seq<Condition> {
    if exists i :: 0 <= i < |cs| && cs[i].kind == "Ready" then cs
    else cs + [Condition("Ready", True, "Reconciled", "All resources are up-to-date")]
  }

  function PlatformNext(st: State, step: Step): State
    requires step.PlatformFetch? || step.PlatformStage? || step.PlatformPublish?
  {
    var s := st.store;
    match step
    case PlatformFetch(name, failing) =>
      if st.platformRun.Some? || name !in s.platforms then st
      else if s.platforms[name].meta.deleting then st.(store := FinalizePlatform(s, name, failing, st.quantities).0)
      else st.(platformRun := Some(P.Start(name, s.platforms[name])))
    case PlatformStage(w) =>
      if st.platformRun.None? || P.Stopped(st.platformRun.value) then st
      else var (t, q) := P.StageStep(s, st.platformRun.value, w); st.(store := t, platformRun := Some(q))
    case PlatformPublish(lands) =>
      if st.platformRun.None? || !P.Stopped(st.platformRun.value) then st
      else
        var r := st.platformRun.value;
        st.(store := PublishPlatform(s, r.name, P.PublishedStatus(r), lands), platformRun := None)
  }

  function ServiceNext(st: State, step: Step): State
    requires step.ServiceFetch? || step.ServiceStage? || step.ServicePublish? || step.ServiceStatusWrite?
  {
    var s := st.store;
    match step
    case ServiceFetch(name, failing) =>
      if st.serviceRun.Some? || name !in s.services then st
      else if s.services[name].meta.deleting then st.(store := FinalizeService(s, name, failing).0)
      else if s.services[name].spec.feature.name != "saia" then st
      else st.(serviceRun := Some(ServiceRun(S.Start(name, s.services[name]), false, false)))
    case ServiceStage(w) =>
      if st.serviceRun.None? || S.Stopped(st.serviceRun.value.run) then st
      else ServiceStaged(st, st.serviceRun.value, w)
    case ServicePublish(lands) =>
      if st.serviceRun.None? || st.serviceRun.value.published || !S.Stopped(st.serviceRun.value.run) then st
      else
        var sr := st.serviceRun.value;
        var v := S.ToPublish(sr.run);
        var (t, o) := UpdateServiceStatus(s, sr.run.name, v, lands);
        var copy := if o.Ok? then Refreshed(t, sr.run.name, v) else v;
        st.(store := t,
            serviceRun := if sr.run.outcome.Ok? then Some(sr.(run := sr.run.(ai := copy), published := true)) else None)
    case ServiceStatusWrite(lands) =>
      if st.serviceRun.None? || !st.serviceRun.value.published then st
      else
        var r := st.serviceRun.value.run;
        var v := r.ai.(status := r.ai.status.(conditions := WithReady(r.ai.status.conditions)));
        st.(store := UpdateServiceStatus(s, r.name, v, lands).0, serviceRun := None)
  }

  function DropServiceFinalizer(s: Store, name: string, f: string): Store
    requires name in s.services
  {
    var v := s.services[name];
    Stored(s, name, v.(meta := v.meta.(finalizers := RemoveAll(v.meta.finalizers, f))))
  }

  function DropPlatformFinalizer(s: Store, name: string, f: string): Store
    requires name in s.platforms
  {
    var p := s.platforms[name];
    StoredPlatform(s, name, p.(meta := p.meta.(finalizers := RemoveAll(p.meta.finalizers, f))))
  }

  function EnvironmentStore(s: Store, step: Step, quantities: iset<string>): Store {
    match step
    case JobFlags(n, flags) => if n in s.jobs then s.(jobs := s.jobs[n := Job(flags)]) else s
    case JobGone(n) => s.(jobs := s.jobs - {n})
    case CertificateFlags(n, flags) =>
      if n in s.certificates then s.(certificates := s.certificates[n := s.certificates[n].(flags := flags)]) else s
    case ReadyReplicas(n, k) =>
      if n in s.statefulSets then s.(statefulSets := s.statefulSets[n := s.statefulSets[n].(readyReplicas := k)]) else s
    case DeploymentGone(n) => s.(deployments := s.deployments - {n})
    case StatefulSetGone(n) => s.(statefulSets := s.statefulSets - {n})
    case UserCreatePlatform(n, m, spec) => CreatePlatform(s, n, m, spec, quantities)
    case UserEditPlatform(n, labels, spec) =>
      if n !in s.platforms then s
      else
        var p := s.platforms[n];
        UpdatePlatform(s, n, p.(spec := spec, meta := p.meta.(labels := labels)), quantities).0
    case UserDeletePlatform(n) => DeletePlatform(s, n)
    case UserCreateService(n, m, spec) => CreateService(s, n, m, spec).0
    case UserEditService(n, labels, annotations, spec) =>
      if n !in s.services then s
      else
        var v := s.services[n];
        UpdateService(s, n, v.(spec := spec, meta := v.meta.(labels := labels, annotations := annotations))).0
    case UserDeleteService(n) => DeleteServices(s, {n})
    case DropFinalizer(n, f) =>
      // other controllers release their own finalizers, never the two of this operator
      if f == FINALIZER_PLATFORM || f == FINALIZER_SERVICE then s
      else
        var t := if n in s.services then DropServiceFinalizer(s, n, f) else s;
        if n in t.platforms then DropPlatformFinalizer(t, n, f) else t
    case _ => s
  }

  function Next(st: State, step: Step): State {
    if step.PlatformFetch? || step.PlatformStage? || step.PlatformPublish? then PlatformNext(st, step)
    else if step.ServiceFetch? || step.ServiceStage? || step.ServicePublish? || step.ServiceStatusWrite? then ServiceNext(st, step)
    else
      st.(store := EnvironmentStore(st.store, step, st.quantities),
          history := if step.JobGone? && step.name in st.store.jobs
                     then st.history.(deleted := Bump(st.history.deleted, step.name)) else st.history)
  }

  function Exec(st: State, steps: seq<Step>): State {
    if steps == [] then st else Next(Exec(st, steps[..|steps| - 1]), steps[|steps| - 1])
  }

  function Empty(ns: string, quantities: iset<string>): State {
    State(Store(ns, 0, map[], map[], map[], map[], map[], map[], {}), quantities, None, None, History({}, {}, map[], map[]))
  }

  // ---- the invariant ---------------------------------------------------------------------------

  /** What a run that panicked in its Service stage leaves behind: seven passed stages and nothing else. */
  predicate PanicTrace(v: Service) {
    v.status.conditions == R.Passed(S.LABELS[..S.PANIC_AT])
  }

  /** Conditions a child may show: none, an error, Ready with its Job observed, or the trace of a panic after that. */
  predicate ChildSound(n: string, v: Service, h: History) {
    && v.status.schemaJobId in {"", JobName(n)}
    && (IsConditionTrue(v.status.conditions, "Ready") ==> Child(n, v.meta.uid) in h.observed)
    && (v.status.conditions == [] || HasError(v.status.conditions) || IsConditionTrue(v.status.conditions, "Ready")
        || (PanicTrace(v) && Child(n, v.meta.uid) in h.observed && Child(n, v.meta.uid) in h.panicked))
  }

  predicate ChildrenSound(services: map<string, Service>, h: History) {
    forall n :: n in services ==> ChildSound(n, services[n], h)
  }

  predicate PlatformsAdmitted(s: Store, quantities: iset<string>) {
    forall n :: n in s.platforms ==>
      PlatformValid(s.platforms[n].spec, quantities) && s.platforms[n].spec == DefaultPlatform(s.platforms[n].spec)
  }

  /** Every selector matches the pod template it came with. */
  ghost predicate SelectorsMatch(s: Store) {
    && (forall n {:trigger DeploymentName(n)} :: DeploymentName(n) in s.deployments ==>
          s.deployments[DeploymentName(n)].selector == Some(S.PodLabels(n)) && s.deployments[DeploymentName(n)].podLabels == S.PodLabels(n))
    && (forall n {:trigger WeaviateName(n)} :: WeaviateName(n) in s.statefulSets ==>
          var sts := s.statefulSets[WeaviateName(n)];
          sts.selector == P.WeaviateLabels(n) && sts.podLabels == P.WeaviateLabels(n) && sts.serviceName == WeaviateName(n))
  }

  /** A Job exists once per creation that no external deletion has undone. */
  ghost predicate JobsBalanced(s: Store, h: History) {
    forall n {:trigger Count(h.created, n)} ::
      Count(h.created, n) == Count(h.deleted, n) + (if n in s.jobs then 1 else 0)
  }

  predicate ServiceRunSound(sr: ServiceRun, h: History) {
    var r := sr.run;
    var child := Child(r.name, r.ai.meta.uid);
    && S.WellFormed(r)
    && r.ai.status.schemaJobId in {"", JobName(r.name)}
    && (r.next > 0 && (r.outcome.Ok? || r.next > 1) ==> r.ai.spec.vectorDbUrl != "")
    && (r.next > S.HOOK_AT && (r.outcome.Ok? || r.next > S.HOOK_AT + 1) ==> sr.sawComplete)
    && (sr.sawComplete ==> child in h.observed)
    && (r.outcome.Panic? ==> child in h.panicked && r.next == S.PANIC_AT + 1)
    && (sr.published ==> S.Stopped(r) && r.outcome.Ok? && r.ai.status.conditions == r.conditions)
  }

  predicate PlatformRunSound(r: P.Run, h: History) {
    && P.WellFormed(r)
    && ChildrenSound(r.listed, h)
    && (r.outcome.Ok? && r.next == |P.STAGES| ==> forall n :: n in r.listed ==> !HasError(r.listed[n].status.conditions))
  }

  predicate UidsBelow(s: Store) {
    forall n :: n in s.services ==> s.services[n].meta.uid < s.uids
  }

  /** A local copy is never ahead of the stored object, and one at its version has its metadata. */
  predicate CopyCurrent(s: Store, name: string, copy: Meta) {
    && copy.uid < s.uids
    && (name in s.services && s.services[name].meta.uid == copy.uid ==>
          var stored := s.services[name].meta;
          copy.version <= stored.version && (copy.version == stored.version ==> copy == stored))
  }

  ghost predicate StoreSound(s: Store, quantities: iset<string>, h: History) {
    && Admitted(s) && NoZombies(s) && PlatformsAdmitted(s, quantities)
    && ChildrenSound(s.services, h) && SelectorsMatch(s) && JobsBalanced(s, h) && UidsBelow(s)
  }

  ghost predicate Inv(st: State) {
    && StoreSound(st.store, st.quantities, st.history)
    && (st.platformRun.Some? ==> PlatformRunSound(st.platformRun.value, st.history))
    && (st.serviceRun.Some? ==>
          && ServiceRunSound(st.serviceRun.value, st.history)
          && CopyCurrent(st.store, st.serviceRun.value.run.name, st.serviceRun.value.run.ai.meta))
  }
}
