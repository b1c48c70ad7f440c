/** What the invariant says to a reader of the cluster: main safety results over whole runs. */
module Readiness {
  import opened Api
  import opened Names
  import opened Admission
  import opened ApiServer
  import opened Features
  import opened StageRunner
  import opened Protocol
  import opened Safety
  import P = PlatformRun
  import S = SaiaRun

  /** The platform is about to publish Ready=True. */
  predicate PublishesReady(st: State) {
    && st.platformRun.Some? && P.Stopped(st.platformRun.value)
    && IsConditionTrue(P.PublishedStatus(st.platformRun.value).conditions, "Ready")
  }

  /**
   * Readiness, for every interleaving from an empty namespace: when a platform publishes
   * Ready=True, each child its status stage listed either had published nothing yet, or was
   * Ready with its schema Job observed complete, or showed exactly the trace of a run that
   * panicked after observing it.
   */
  lemma ReadinessOverRuns(ns: string, quantities: iset<string>, steps: seq<Step>, n: string)
    requires PublishesReady(Exec(Empty(ns, quantities), steps))
    requires n in Exec(Empty(ns, quantities), steps).platformRun.value.listed
    ensures var st := Exec(Empty(ns, quantities), steps);
            var v := st.platformRun.value.listed[n];
            || v.status.conditions == []
            || (IsConditionTrue(v.status.conditions, "Ready") && Child(n, v.meta.uid) in st.history.observed)
            || (PanicTrace(v) && Child(n, v.meta.uid) in st.history.observed && Child(n, v.meta.uid) in st.history.panicked)
  {
    hide Exec, StoreSound, ServiceRunSound, Published, HasError, IsConditionTrue, PanicTrace;
    Invariant(ns, quantities, steps);
    var st := Exec(Empty(ns, quantities), steps);
    var r := st.platformRun.value;
    P.LabelsDistinct();
    ReadPublished(P.LABELS, r.conditions, r.next, r.outcome);
    assert ChildSound(n, r.listed[n], st.history);
  }

  // ---- the exact condition: no annotation the Service stage would write into a nil map ---------------

  predicate Clean(m: Meta) {
    S.ForeignAnnotations(m.annotations) == map[]
  }

  /** Steps by which users give the AIService of that name only annotations the operator skips. */
  predicate CleanStep(step: Step, key: string) {
    && (step.UserCreateService? && step.name == key ==> Clean(step.meta))
    && (step.UserEditService? && step.name == key ==> S.ForeignAnnotations(step.annotations) == map[])
  }

  predicate CleanChild(services: map<string, Service>, key: string) {
    key in services ==> Clean(services[key].meta)
  }

  ghost predicate CleanState(st: State, key: string) {
    && CleanChild(st.store.services, key)
    && (forall uid :: Child(key, uid) !in st.history.panicked)
    && (st.serviceRun.Some? && st.serviceRun.value.run.name == key ==> Clean(st.serviceRun.value.run.ai.meta))
  }

  lemma CleanUpdate(s: Store, name: string, v: Service, key: string)
    requires CleanChild(s.services, key) && (name == key ==> Clean(v.meta))
    ensures CleanChild(UpdateService(s, name, v).0.services, key)
  {
    hide ServiceUpdateValid, DefaultService, Clean;
    var t := UpdateService(s, name, v).0;
    if name == key && name in s.services && name in t.services {
      SameAnnotations(v.meta, t.services[name].meta);
    }
  }

  lemma SameAnnotations(a: Meta, b: Meta)
    ensures a.annotations == b.annotations ==> Clean(a) == Clean(b)
  {
  }

  lemma CleanCreate(s: Store, name: string, meta: Meta, spec: ServiceSpec, key: string)
    requires CleanChild(s.services, key) && (name == key ==> Clean(meta))
    ensures CleanChild(CreateService(s, name, meta, spec).0.services, key)
  {
    hide ServiceValid, DefaultService, S.ForeignAnnotations;
  }

  lemma CleanDelete(s: Store, names: set<string>, key: string)
    requires CleanChild(s.services, key)
    ensures CleanChild(DeleteServices(s, names).services, key)
  {
    hide S.ForeignAnnotations;
  }

  lemma {:induction false} CleanUpserts(s: Store, name: string, p: Platform, fs: seq<Feature>, failing: set<Call>, key: string)
    requires CleanChild(s.services, key)
    ensures CleanChild(UpsertAll(s, name, p, fs, failing).0.services, key)
    decreases |fs|
  {
    hide UpdateService, CreateService, BuildService, ChildName, S.ForeignAnnotations;
    if fs != [] {
      var child := ChildName(name, fs[0].name);
      if child in s.services {
        CleanUpdate(s, child, Desired(s.services[child], s.ns, name, p, fs[0]), key);
      } else {
        NewbornClean(NewChildMeta(name, fs[0]));
        CleanCreate(s, child, NewChildMeta(name, fs[0]), BuildService(name, s.ns, p, fs[0]), key);
      }
      CleanUpserts(Upsert(s, name, p, fs[0], failing).0, name, p, fs[1..], failing, key);
    }
  }

  lemma NewbornClean(m: Meta)
    requires m.annotations == map[]
    ensures Clean(m)
  {
  }

  lemma CleanFeatures(s: Store, name: string, p: Platform, failing: set<Call>, reached: set<string>, key: string)
    requires CleanChild(s.services, key)
    ensures CleanChild(ReconcileFeatures(s, name, p, failing, reached).0.services, key)
  {
    hide CleanChild, UpsertAll, DeleteServices, DesiredNames;
    CleanUpserts(s, name, p, p.spec.features, failing, key);
    var s1 := UpsertAll(s, name, p, p.spec.features, failing).0;
    var doomed := Owned(s1, name) - DesiredNames(name, p.spec.features);
    var blocked := set n | n in doomed && DeleteChild(n) in failing;
    CleanDelete(s1, doomed, key);
    CleanDelete(s1, (doomed - blocked) * reached, key);
  }

  lemma CleanPlatformStep(st: State, step: Step, key: string)
    requires CleanState(st, key) && (step.PlatformFetch? || step.PlatformStage? || step.PlatformPublish?)
    ensures CleanState(PlatformNext(st, step), key)
  {
    hide CleanChild, ReconcileFeatures, P.ReconcileWeaviate, P.ValidatePlatform, DeleteServices, UpdatePlatform, RemoveAll, Clean;
    var s := st.store;
    if step.PlatformStage? && st.platformRun.Some? && !P.Stopped(st.platformRun.value) {
      var r := st.platformRun.value;
      CleanFeatures(s, r.name, r.p, step.pw.failing, step.pw.reached, key);
      WeaviateFrame(s, r.name, r.p, step.pw);
    } else if step.PlatformFetch? && step.name in s.platforms {
      var p := s.platforms[step.name];
      CleanDelete(s, (set n | n in Owned(s, step.name) && DeleteChild(n) !in step.failing), key);
      UpdatePlatformServices(s, step.name,
        p.(meta := p.meta.(finalizers := RemoveAll(p.meta.finalizers, FINALIZER_PLATFORM))), st.quantities);
    }
  }

  lemma UpdatePlatformServices(s: Store, name: string, p: Platform, quantities: iset<string>)
    ensures UpdatePlatform(s, name, p, quantities).0.services == s.services
  {
    hide PlatformUpdateValid, DefaultPlatform;
  }

  lemma CleanAccount(s: Store, name: string, ai: Service, w: S.World, key: string)
    requires CleanChild(s.services, key) && (name == key ==> Clean(ai.meta))
    ensures var (t, ai2, o) := S.ReconcileAccount(s, name, ai, w);
            CleanChild(t.services, key) && (name == key ==> Clean(ai2.meta))
  {
    hide UpdateService, Clean;
    CleanUpdate(s, name, ai.(spec := ai.spec.(serviceAccount := name + "-sa")), key);
  }

  lemma CleanStage(s: Store, r: S.Run, w: S.World, key: string)
    requires CleanChild(s.services, key) && (r.name == key ==> Clean(r.ai.meta)) && !S.Stopped(r)
    ensures var (t, q) := S.StageStep(s, r, w);
            CleanChild(t.services, key) && q.name == r.name && (r.name == key ==> Clean(q.ai.meta) && !q.outcome.Panic?)
  {
    hide CleanChild, Clean, S.ValidateSpec, S.ReconcileAccount, S.ReconcileHook, S.ReconcileCertificate, S.ReconcileDeployment,
      S.ForeignAnnotations;
    ServiceStagePanicsIff(s, r, w);
    match S.STAGES[r.next] {
      case ServiceAccountStage => CleanAccount(s, r.name, r.ai, w, key);
      case CertificateStage => CertificateFrame(s, r.name, r.ai, w);
      case PostInstallHook => HookFrame(s, r.name, r.ai, w);
      case SaiaDeployment => DeploymentFrame(s, r.name, r.ai, w);
      case _ =>
    }
  }

  lemma HookFrame(s: Store, name: string, ai: Service, w: S.World)
    ensures var (t, ai2, o) := S.ReconcileHook(s, name, ai, w);
            t == s.(jobs := t.jobs) && ai2.meta == ai.meta
  {
    hide JobName, S.JobVerdict;
  }

  lemma CleanServiceStage(st: State, w: S.World, key: string)
    requires CleanState(st, key) && st.serviceRun.Some? && !S.Stopped(st.serviceRun.value.run)
    ensures CleanState(ServiceNext(st, ServiceStage(w)), key)
  {
    hide CleanChild, Clean, S.StageStep, ReadsCompleted, JobName;
    CleanStage(st.store, st.serviceRun.value.run, w, key);
  }

  lemma CertificateFrame(s: Store, name: string, ai: Service, w: S.World)
    ensures var t := S.ReconcileCertificate(s, name, ai, w).0;
            t == s.(certificates := t.certificates)
  {
  }

  lemma DeploymentFrame(s: Store, name: string, ai: Service, w: S.World)
    ensures S.ReconcileDeployment(s, name, ai, w).0.services == s.services
    ensures forall k :: k != DeploymentName(name) ==>
              var t := S.ReconcileDeployment(s, name, ai, w).0;
              (k in t.deployments <==> k in s.deployments) && (k in s.deployments ==> t.deployments[k] == s.deployments[k])
  {
    hide S.DeploymentUpserted;
  }

  lemma CleanServiceOther(st: State, step: Step, key: string)
    requires CleanState(st, key) && (step.ServiceFetch? || step.ServicePublish? || step.ServiceStatusWrite?)
    ensures CleanState(ServiceNext(st, step), key)
  {
    hide UpdateService, S.ForeignAnnotations, RemoveAll;
    if step.ServiceFetch? && step.name in st.store.services {
      var v := st.store.services[step.name];
      CleanUpdate(st.store, step.name, v.(meta := v.meta.(finalizers := RemoveAll(v.meta.finalizers, FINALIZER_SERVICE))), key);
    }
  }

  lemma CleanServiceUser(s: Store, step: Step, quantities: iset<string>, key: string)
    requires CleanChild(s.services, key) && CleanStep(step, key) && OnServices(step)
    ensures CleanChild(EnvironmentStore(s, step, quantities).services, key)
  {
    hide CleanChild, UpdateService, CreateService, DeleteServices, S.ForeignAnnotations;
    match step {
      case UserCreateService(n, m, spec) =>
        CleanCreate(s, n, m, spec, key);
      case UserEditService(n, labels, annotations, spec) =>
        if n in s.services {
          var v := s.services[n];
          CleanUpdate(s, n, v.(spec := spec, meta := v.meta.(labels := labels, annotations := annotations)), key);
        }
      case UserDeleteService(n) =>
        CleanDelete(s, {n}, key);
    }
  }

  lemma CleanDropStep(s: Store, step: Step, quantities: iset<string>, key: string)
    requires CleanChild(s.services, key) && step.DropFinalizer?
    ensures CleanChild(EnvironmentStore(s, step, quantities).services, key)
  {
    hide CleanChild, DropServiceFinalizer, RemoveAll;
    if step.name in s.services {
      CleanDrop(s, step.name, step.finalizer, key);
    }
  }

  lemma CleanEnvironment(st: State, step: Step, key: string)
    requires CleanState(st, key) && CleanStep(step, key) && !IsController(step)
    ensures CleanState(Next(st, step), key)
  {
    hide CleanChild, CleanStep, S.ForeignAnnotations;
    if OnServices(step) {
      hide EnvironmentStore;
      CleanServiceUser(st.store, step, st.quantities, key);
    } else if OnPlatforms(step) {
      hide EnvironmentStore;
      PlatformUserFrame(st.store, step, st.quantities);
    } else if step.DropFinalizer? {
      hide EnvironmentStore;
      CleanDropStep(st.store, step, st.quantities, key);
    }
  }

  lemma CleanDrop(s: Store, n: string, f: string, key: string)
    requires CleanChild(s.services, key) && n in s.services
    ensures CleanChild(DropServiceFinalizer(s, n, f).services, key)
  {
    hide S.ForeignAnnotations, RemoveAll;
  }

  lemma CleanNext(st: State, step: Step, key: string)
    requires CleanState(st, key) && CleanStep(step, key)
    ensures CleanState(Next(st, step), key)
  {
    hide CleanState, CleanStep, EnvironmentStore, PlatformNext, ServiceNext, S.Stopped;
    if step.PlatformFetch? || step.PlatformStage? || step.PlatformPublish? {
      CleanPlatformStep(st, step, key);
    } else if step.ServiceStage? {
      if st.serviceRun.Some? && !S.Stopped(st.serviceRun.value.run) {
        CleanServiceStage(st, step.sw, key);
      } else {
        ServiceIdle(st, step);
      }
    } else if step.ServiceFetch? || step.ServicePublish? || step.ServiceStatusWrite? {
      CleanServiceOther(st, step, key);
    } else {
      CleanEnvironment(st, step, key);
    }
  }

  lemma {:induction false} CleanOverRuns(ns: string, quantities: iset<string>, steps: seq<Step>, key: string)
    requires forall i :: 0 <= i < |steps| ==> CleanStep(steps[i], key)
    ensures CleanState(Exec(Empty(ns, quantities), steps), key)
    decreases |steps|
  {
    hide CleanState, CleanStep, Next;
    if steps == [] {
      assert CleanState(Empty(ns, quantities), key) by { EmptyClean(ns, quantities, key); }
    } else {
      CleanOverRuns(ns, quantities, steps[..|steps| - 1], key);
      CleanNext(Exec(Empty(ns, quantities), steps[..|steps| - 1]), steps[|steps| - 1], key);
    }
  }

  lemma EmptyClean(ns: string, quantities: iset<string>, key: string)
    ensures CleanState(Empty(ns, quantities), key)
  {
  }

  /** For a child without such annotations readiness is sound: silent or truly Ready, nothing else. */
  lemma ReadinessSoundWhenClean(ns: string, quantities: iset<string>, steps: seq<Step>, n: string)
    requires forall i :: 0 <= i < |steps| ==> CleanStep(steps[i], n)
    requires PublishesReady(Exec(Empty(ns, quantities), steps))
    requires n in Exec(Empty(ns, quantities), steps).platformRun.value.listed
    ensures var st := Exec(Empty(ns, quantities), steps);
            var v := st.platformRun.value.listed[n];
            || v.status.conditions == []
            || (IsConditionTrue(v.status.conditions, "Ready") && Child(n, v.meta.uid) in st.history.observed)
  {
    hide Exec, PublishesReady, CleanStep, IsConditionTrue;
    ReadinessOverRuns(ns, quantities, steps, n);
    CleanOverRuns(ns, quantities, steps, n);
    assert CleanState(Exec(Empty(ns, quantities), steps), n);
  }

  /**
   * The other half: a run that panics publishes seven passed stages, no error and no Ready, and
   * exactly such a list passes the platform's inspection although the child is not ready.
   */
  lemma PanicPassesInspection(r: S.Run)
    requires S.WellFormed(r) && S.Stopped(r)
    ensures r.outcome.Panic? <==>
              !HasError(r.conditions) && !IsConditionTrue(r.conditions, "Ready")
  {
    hide Published, HasError, IsConditionTrue;
    S.LabelsDistinct();
    ReadPublished(S.LABELS, r.conditions, r.next, r.outcome);
  }

  /** A run reaches its Service stage and panics there exactly when the child carries such an annotation. */
  lemma ServiceStagePanicsIff(s: Store, r: S.Run, w: S.World)
    requires !S.Stopped(r)
    ensures S.StageStep(s, r, w).1.outcome.Panic? <==> r.next == S.PANIC_AT && !Clean(r.ai.meta)
  {
    hide S.ValidateSpec, S.ReconcileAccount, S.ReconcileHook, S.ReconcileCertificate, S.ReconcileDeployment, S.ForeignAnnotations;
    ValidateGivesUrl(s, r.ai.spec, w);
    NoOtherPanics(s, r.name, r.ai, w);
  }

  lemma NoOtherPanics(s: Store, name: string, ai: Service, w: S.World)
    ensures !S.ReconcileAccount(s, name, ai, w).2.Panic?
    ensures !S.ReconcileHook(s, name, ai, w).2.Panic?
    ensures !S.ReconcileCertificate(s, name, ai, w).1.Panic?
    ensures !S.ReconcileDeployment(s, name, ai, w).1.Panic?
  {
    hide UpdateService, S.DeploymentUpserted, JobName, CertificateName;
  }

  // ---- Jobs, Deployments and create-only fields ------------------------------------------------------------

  /** schemaJobId and the Job count, in every reachable state and whatever status writes were lost. */
  lemma JobMachineOverRuns(ns: string, quantities: iset<string>, steps: seq<Step>, n: string)
    ensures var st := Exec(Empty(ns, quantities), steps);
            && (n in st.store.services ==> st.store.services[n].status.schemaJobId in {"", JobName(n)})
            && Count(st.history.created, JobName(n))
                 == Count(st.history.deleted, JobName(n)) + (if JobName(n) in st.store.jobs then 1 else 0)
  {
    hide Exec, JobName;
    Invariant(ns, quantities, steps);
    var st := Exec(Empty(ns, quantities), steps);
    if n in st.store.services {
      SoundHasJobId(n, st.store.services[n], st.history);
    }
  }

  /**
   * Only the deployment stage of a SAIA run writes a Deployment, only that child's, and only
   * after the hook stage of the same run read a completed Job.
   */
  lemma DeploymentsFollowJobs(ns: string, quantities: iset<string>, steps: seq<Step>, step: Step, k: string)
    requires !step.DeploymentGone?
    requires var st := Exec(Empty(ns, quantities), steps);
             var t := Next(st, step);
             k in t.store.deployments && (k !in st.store.deployments || t.store.deployments[k] != st.store.deployments[k])
    ensures var st := Exec(Empty(ns, quantities), steps);
            && step.ServiceStage? && st.serviceRun.Some?
            && st.serviceRun.value.sawComplete
            && Child(st.serviceRun.value.run.name, st.serviceRun.value.run.ai.meta.uid) in st.history.observed
            && k == DeploymentName(st.serviceRun.value.run.name)
  {
    hide Exec, Next, StoreSound, PlatformRunSound, S.WellFormed, DeploymentName, JobName;
    Invariant(ns, quantities, steps);
    var st := Exec(Empty(ns, quantities), steps);
    WritesDeployment(st, step, k);
  }

  lemma WritesDeployment(st: State, step: Step, k: string)
    requires !step.DeploymentGone?
    requires var t := Next(st, step);
             k in t.store.deployments && (k !in st.store.deployments || t.store.deployments[k] != st.store.deployments[k])
    ensures step.ServiceStage? && st.serviceRun.Some? && st.serviceRun.value.run.next == S.HOOK_AT + 1
    ensures st.serviceRun.value.run.outcome.Ok? && k == DeploymentName(st.serviceRun.value.run.name)
  {
    hide EnvironmentStore, PlatformNext, S.StageStep, DeploymentName;
    if step.PlatformFetch? || step.PlatformStage? || step.PlatformPublish? {
      PlatformKeepsDeployments(st, step);
    } else if step.ServiceStage? && st.serviceRun.Some? && !S.Stopped(st.serviceRun.value.run) {
      StageKeepsDeployments(st.store, st.serviceRun.value.run, step.sw, k);
    } else if IsController(step) {
      ServiceKeepsDeployments(st, step);
    } else {
      EnvironmentKeepsWorkloads(st.store, step, st.quantities);
    }
  }

  lemma PlatformKeepsDeployments(st: State, step: Step)
    requires step.PlatformFetch? || step.PlatformStage? || step.PlatformPublish?
    ensures PlatformNext(st, step).store.deployments == st.store.deployments
  {
    hide ReconcileFeatures, P.ValidatePlatform, P.ReconcileWeaviate, DeleteServices, UpdatePlatform, RemoveAll, Owned;
    var s := st.store;
    if step.PlatformStage? && st.platformRun.Some? && !P.Stopped(st.platformRun.value) {
      var r := st.platformRun.value;
      FeaturesFrame(s, r.name, r.p, step.pw.failing, step.pw.reached);
      WeaviateFrame(s, r.name, r.p, step.pw);
    } else if step.PlatformFetch? && step.name in s.platforms {
      var p := s.platforms[step.name];
      DeleteFrame(s, set n | n in Owned(s, step.name) && DeleteChild(n) !in step.failing);
      UpdatePlatformFrame(s, step.name,
        p.(meta := p.meta.(finalizers := RemoveAll(p.meta.finalizers, FINALIZER_PLATFORM))), st.quantities);
    }
  }

  lemma DeleteFrame(s: Store, names: set<string>)
    ensures OnlyServicesChanged(s, DeleteServices(s, names))
  {
  }

  lemma UpdatePlatformFrame(s: Store, name: string, p: Platform, quantities: iset<string>)
    ensures OnlyPlatformsChanged(s, UpdatePlatform(s, name, p, quantities).0)
  {
    hide PlatformUpdateValid, DefaultPlatform;
  }

  lemma UpdateFrame(s: Store, name: string, v: Service)
    ensures OnlyServicesChanged(s, UpdateService(s, name, v).0)
  {
    hide ServiceUpdateValid, DefaultService;
  }

  lemma CreateFrame(s: Store, name: string, m: Meta, spec: ServiceSpec)
    ensures OnlyServicesChanged(s, CreateService(s, name, m, spec).0)
  {
    hide ServiceValid, DefaultService;
  }

  lemma {:induction false} UpsertsFrame(s: Store, name: string, p: Platform, fs: seq<Feature>, failing: set<Call>)
    ensures OnlyServicesChanged(s, UpsertAll(s, name, p, fs, failing).0)
    decreases |fs|
  {
    hide UpdateService, CreateService, BuildService, ChildName, Desired;
    if fs != [] {
      var child := ChildName(name, fs[0].name);
      if child in s.services {
        UpdateFrame(s, child, Desired(s.services[child], s.ns, name, p, fs[0]));
      } else {
        CreateFrame(s, child, NewChildMeta(name, fs[0]), BuildService(name, s.ns, p, fs[0]));
      }
      UpsertsFrame(Upsert(s, name, p, fs[0], failing).0, name, p, fs[1..], failing);
    }
  }

  lemma FeaturesFrame(s: Store, name: string, p: Platform, failing: set<Call>, reached: set<string>)
    ensures OnlyServicesChanged(s, ReconcileFeatures(s, name, p, failing, reached).0)
  {
    hide UpsertAll, DesiredNames;
    UpsertsFrame(s, name, p, p.spec.features, failing);
  }

  lemma StageKeepsDeployments(s: Store, r: S.Run, w: S.World, k: string)
    requires !S.Stopped(r)
    requires var t := S.StageStep(s, r, w).0;
             k in t.deployments && (k !in s.deployments || t.deployments[k] != s.deployments[k])
    ensures r.next == S.HOOK_AT + 1 && r.outcome.Ok? && k == DeploymentName(r.name)
  {
    hide S.ValidateSpec, S.ReconcileAccount, S.ReconcileHook, S.ReconcileCertificate, S.ReconcileDeployment, DeploymentName, S.ForeignAnnotations;
    StageFrames(s, r.name, r.ai, w);
    if S.STAGES[r.next] == S.SaiaDeployment {
      DeploymentFrame(s, r.name, r.ai, w);
    }
  }

  lemma StageFrames(s: Store, name: string, ai: Service, w: S.World)
    ensures S.ReconcileAccount(s, name, ai, w).0.deployments == s.deployments
    ensures S.ReconcileHook(s, name, ai, w).0.deployments == s.deployments
    ensures S.ReconcileCertificate(s, name, ai, w).0.deployments == s.deployments
  {
    hide UpdateService, S.ReconcileHook, S.ReconcileCertificate;
    HookFrame(s, name, ai, w);
    CertificateFrame(s, name, ai, w);
    UpdateFrame(s, name, ai.(spec := ai.spec.(serviceAccount := name + "-sa")));
  }

  lemma ServiceKeepsDeployments(st: State, step: Step)
    requires step.ServiceFetch? || step.ServicePublish? || step.ServiceStatusWrite?
    ensures ServiceNext(st, step).store.deployments == st.store.deployments
  {
    hide UpdateService, RemoveAll;
    if step.ServiceFetch? && step.name in st.store.services {
      var v := st.store.services[step.name];
      UpdateFrame(st.store, step.name, v.(meta := v.meta.(finalizers := RemoveAll(v.meta.finalizers, FINALIZER_SERVICE))));
    }
  }

  predicate OnServices(step: Step) {
    step.UserCreateService? || step.UserEditService? || step.UserDeleteService?
  }

  predicate OnPlatforms(step: Step) {
    step.UserCreatePlatform? || step.UserEditPlatform? || step.UserDeletePlatform?
  }

  lemma ServiceUserFrame(s: Store, step: Step, quantities: iset<string>)
    requires OnServices(step)
    ensures OnlyServicesChanged(s, EnvironmentStore(s, step, quantities))
  {
    hide UpdateService, CreateService, DeleteServices, OnlyServicesChanged;
    match step {
      case UserCreateService(n, m, spec) => CreateFrame(s, n, m, spec);
      case UserEditService(n, labels, annotations, spec) =>
        if n in s.services {
          var v := s.services[n];
          UpdateFrame(s, n, v.(spec := spec, meta := v.meta.(labels := labels, annotations := annotations)));
        } else {
          NothingChanged(s);
        }
      case UserDeleteService(n) => DeleteFrame(s, {n});
    }
  }

  lemma PlatformUserFrame(s: Store, step: Step, quantities: iset<string>)
    requires OnPlatforms(step)
    ensures OnlyPlatformsChanged(s, EnvironmentStore(s, step, quantities))
  {
    hide UpdatePlatform, CreatePlatform, DeletePlatform, OnlyPlatformsChanged;
    match step {
      case UserEditPlatform(n, labels, spec) =>
        if n in s.platforms {
          UpdatePlatformFrame(s, n, s.platforms[n].(spec := spec, meta := s.platforms[n].meta.(labels := labels)), quantities);
        } else {
          NothingChanged(s);
        }
      case UserCreatePlatform(n, m, spec) => CreatePlatformFrame(s, n, m, spec, quantities);
      case UserDeletePlatform(n) => DeletePlatformFrame(s, n);
    }
  }

  lemma NothingChanged(s: Store)
    ensures OnlyServicesChanged(s, s) && OnlyPlatformsChanged(s, s)
  {
  }

  lemma DropFinalizerFrame(s: Store, step: Step, quantities: iset<string>)
    requires step.DropFinalizer?
    ensures var t := EnvironmentStore(s, step, quantities);
            t == s.(services := t.services, platforms := t.platforms, uids := t.uids)
  {
    hide DropServiceFinalizer, DropPlatformFinalizer;
    var n, f := step.name, step.finalizer;
    var t := if n in s.services then DropServiceFinalizer(s, n, f) else s;
    DropServiceFrame(s, n, f);
    DropPlatformFrames(t, n, f);
  }

  lemma DropServiceFrame(s: Store, n: string, f: string)
    ensures n in s.services ==> OnlyServicesChanged(s, DropServiceFinalizer(s, n, f))
  {
    hide RemoveAll;
  }

  lemma DropPlatformFrames(s: Store, n: string, f: string)
    ensures n in s.platforms ==> OnlyPlatformsChanged(s, DropPlatformFinalizer(s, n, f))
  {
    hide RemoveAll;
  }

  /** Only the garbage collection of the object itself takes a Deployment or StatefulSet away. */
  lemma EnvironmentKeepsWorkloads(s: Store, step: Step, quantities: iset<string>)
    requires !IsController(step)
    ensures !step.DeploymentGone? ==> EnvironmentStore(s, step, quantities).deployments == s.deployments
    ensures !step.StatefulSetGone? && !step.ReadyReplicas? ==> EnvironmentStore(s, step, quantities).statefulSets == s.statefulSets
  {
    if OnServices(step) {
      hide EnvironmentStore;
      ServiceUserFrame(s, step, quantities);
    } else if OnPlatforms(step) {
      hide EnvironmentStore;
      PlatformUserFrame(s, step, quantities);
    } else if step.DropFinalizer? {
      hide EnvironmentStore;
      DropFinalizerFrame(s, step, quantities);
    }
  }

  lemma CreatePlatformFrame(s: Store, n: string, m: Meta, spec: PlatformSpec, quantities: iset<string>)
    ensures OnlyPlatformsChanged(s, CreatePlatform(s, n, m, spec, quantities))
  {
    hide PlatformValid, DefaultPlatform;
  }

  lemma DeletePlatformFrame(s: Store, n: string)
    ensures OnlyPlatformsChanged(s, DeletePlatform(s, n))
  {
  }
}
