/**
 * Where a stored AIService and its two immutable fields come from, step by step, and what that
 * gives over whole runs: the upserts of a platform never fail on immutability.
 */
module Provenance {
  import opened Api
  import opened Names
  import opened Admission
  import opened ApiServer
  import opened Features
  import opened Protocol
  import opened Safety
  import opened Readiness
  import P = PlatformRun
  import S = SaiaRun

  // ---- one call --------------------------------------------------------------------------------------

  predicate SameFixed(v: Service, w: Service) {
    w.spec.platformRef.name == v.spec.platformRef.name && w.spec.taskVolume.path == v.spec.taskVolume.path
  }

  /** What t stores under the key was there in s, with the same immutable fields. */
  predicate Inherited(s: Store, t: Store, key: string) {
    key in t.services ==> key in s.services && SameFixed(s.services[key], t.services[key])
  }

  lemma UpdateInherits(s: Store, n: string, v: Service, key: string)
    ensures Inherited(s, UpdateService(s, n, v).0, key)
  {
    hide ServiceValid, DefaultService;
  }

  lemma DeleteInherits(s: Store, names: set<string>, key: string)
    ensures Inherited(s, DeleteServices(s, names), key)
  {
  }

  /** A child this platform wrote first carries its name and its storage path. */
  predicate WrittenFor(w: Service, name: string, p: Platform) {
    w.spec.platformRef.name == name && w.spec.taskVolume.path == p.spec.objectStorage.path
  }

  lemma UpsertProvenance(s: Store, name: string, p: Platform, f: Feature, failing: set<Call>, key: string)
    ensures var t := Upsert(s, name, p, f, failing).0;
            Inherited(s, t, key)
            || (key == ChildName(name, f.name) && key in t.services && WrittenFor(t.services[key], name, p))
  {
    DefaultingKeeps(BuildService(name, s.ns, p, f));
    hide ServiceValid, DefaultService, ChildName, UpdateService;
    var child := ChildName(name, f.name);
    if child in s.services {
      hide BuildService;
      UpdateInherits(s, child, Desired(s.services[child], s.ns, name, p, f), key);
    }
  }

  lemma {:induction false} UpsertsProvenance(s: Store, name: string, p: Platform, fs: seq<Feature>, failing: set<Call>, key: string)
    ensures var t := UpsertAll(s, name, p, fs, failing).0;
            Inherited(s, t, key)
            || (key in DesiredNames(name, fs) && key in t.services && WrittenFor(t.services[key], name, p))
    decreases |fs|
  {
    hide Upsert, ChildName, DesiredNames;
    if fs != [] {
      var s1 := Upsert(s, name, p, fs[0], failing).0;
      UpsertProvenance(s, name, p, fs[0], failing, key);
      UpsertsProvenance(s1, name, p, fs[1..], failing, key);
      DesiredNamesCons(name, fs);
    }
  }

  lemma FeaturesProvenance(s: Store, name: string, p: Platform, failing: set<Call>, reached: set<string>, key: string)
    ensures var t := ReconcileFeatures(s, name, p, failing, reached).0;
            Inherited(s, t, key)
            || (key in DesiredNames(name, p.spec.features) && key in t.services && WrittenFor(t.services[key], name, p))
  {
    hide UpsertAll, DesiredNames, DeleteServices, Owned;
    UpsertsProvenance(s, name, p, p.spec.features, failing, key);
    var s1 := UpsertAll(s, name, p, p.spec.features, failing).0;
    var doomed := Owned(s1, name) - DesiredNames(name, p.spec.features);
    var blocked := set n | n in doomed && DeleteChild(n) in failing;
    DesiredSurvives(s1, name, p, (doomed - blocked) * reached, key);
    DesiredSurvives(s1, name, p, doomed, key);
  }

  lemma DesiredSurvives(s: Store, name: string, p: Platform, doomed: set<string>, key: string)
    ensures Inherited(s, DeleteServices(s, doomed), key)
    ensures key in s.services && key !in doomed ==>
              key in DeleteServices(s, doomed).services && DeleteServices(s, doomed).services[key] == s.services[key]
  {
  }

  // ---- one step --------------------------------------------------------------------------------------

  /** The step in which this platform's run executes its AIService stage. */
  predicate WritesChildren(st: State, step: Step, name: string) {
    && step.PlatformStage? && st.platformRun.Some?
    && var r := st.platformRun.value;
    r.name == name && r.outcome.Ok? && r.next == 9
  }

  /** The ways an AIService comes to be stored under a key. */
  predicate BornIn(st: State, step: Step, key: string, w: Service) {
    || (step.UserCreateService? && step.name == key
        && w.spec == DefaultService(step.service) && w.meta.controller == step.meta.controller)
    || (&& step.PlatformStage? && st.platformRun.Some?
        && var r := st.platformRun.value;
        WritesChildren(st, step, r.name) && key in DesiredNames(r.name, r.p.spec.features) && WrittenFor(w, r.name, r.p))
  }

  lemma PlatformStepProvenance(st: State, step: Step, key: string)
    requires step.PlatformFetch? || step.PlatformStage? || step.PlatformPublish?
    ensures var t := PlatformNext(st, step).store;
            Inherited(st.store, t, key) || (key in t.services && BornIn(st, step, key, t.services[key]))
  {
    hide ReconcileFeatures, P.ValidatePlatform, P.ReconcileWeaviate, DeleteServices, UpdatePlatform, RemoveAll, Owned, DesiredNames;
    var s := st.store;
    if step.PlatformStage? && st.platformRun.Some? && !P.Stopped(st.platformRun.value) {
      var r := st.platformRun.value;
      FeaturesProvenance(s, r.name, r.p, step.pw.failing, step.pw.reached, key);
      WeaviateFrame(s, r.name, r.p, step.pw);
    } else if step.PlatformFetch? && step.name in s.platforms {
      var p := s.platforms[step.name];
      DeleteInherits(s, (set n | n in Owned(s, step.name) && DeleteChild(n) !in step.failing), key);
      UpdatePlatformServices(s, step.name,
        p.(meta := p.meta.(finalizers := RemoveAll(p.meta.finalizers, FINALIZER_PLATFORM))), st.quantities);
    }
  }

  lemma SaiaStageInherits(s: Store, r: S.Run, w: S.World, key: string)
    requires !S.Stopped(r)
    ensures Inherited(s, S.StageStep(s, r, w).0, key)
  {
    hide S.ValidateSpec, S.ReconcileAccount, S.ReconcileHook, S.ReconcileCertificate, S.ReconcileDeployment, S.ForeignAnnotations;
    HookFrame(s, r.name, r.ai, w);
    CertificateFrame(s, r.name, r.ai, w);
    DeploymentFrame(s, r.name, r.ai, w);
    AccountInherits(s, r.name, r.ai, w, key);
  }

  lemma AccountInherits(s: Store, n: string, ai: Service, w: S.World, key: string)
    ensures Inherited(s, S.ReconcileAccount(s, n, ai, w).0, key)
  {
    hide UpdateService;
    UpdateInherits(s, n, ai.(spec := ai.spec.(serviceAccount := n + "-sa")), key);
  }

  lemma ServiceStepInherits(st: State, step: Step, key: string)
    requires step.ServiceFetch? || step.ServiceStage? || step.ServicePublish? || step.ServiceStatusWrite?
    ensures Inherited(st.store, ServiceNext(st, step).store, key)
  {
    hide UpdateService, RemoveAll, ReadsCompleted, WithReady, S.ToPublish, S.StageStep, S.CreatesJob, JobName;
    var s := st.store;
    if step.ServiceFetch? && step.name in s.services {
      var v := s.services[step.name];
      UpdateInherits(s, step.name, v.(meta := v.meta.(finalizers := RemoveAll(v.meta.finalizers, FINALIZER_SERVICE))), key);
    } else if step.ServiceStage? && st.serviceRun.Some? && !S.Stopped(st.serviceRun.value.run) {
      SaiaStageInherits(s, st.serviceRun.value.run, step.sw, key);
    }
  }

  lemma EnvironmentProvenance(s: Store, step: Step, quantities: iset<string>, key: string)
    requires !IsController(step)
    ensures var t := EnvironmentStore(s, step, quantities);
            Inherited(s, t, key)
            || (&& key in t.services && step.UserCreateService? && step.name == key
                && t.services[key].spec == DefaultService(step.service) && t.services[key].meta.controller == step.meta.controller)
  {
    hide EnvironmentStore, DefaultService;
    if OnPlatforms(step) {
      PlatformUserFrame(s, step, quantities);
    } else if step.DropFinalizer? {
      DropInherits(s, step, quantities, key);
    } else if step.UserEditService? {
      EditInherits(s, step, quantities, key);
    } else if step.UserDeleteService? {
      UserDeletion(s, step, quantities);
      DeleteInherits(s, {step.name}, key);
    } else if step.UserCreateService? {
      UserBirth(s, step, quantities, key);
    } else {
      OtherStepsKeepServices(s, step, quantities);
    }
  }

  lemma UserDeletion(s: Store, step: Step, quantities: iset<string>)
    requires step.UserDeleteService?
    ensures EnvironmentStore(s, step, quantities) == DeleteServices(s, {step.name})
  {
    hide DeleteServices;
  }

  lemma UserBirth(s: Store, step: Step, quantities: iset<string>, key: string)
    requires step.UserCreateService?
    ensures var t := EnvironmentStore(s, step, quantities);
            Inherited(s, t, key)
            || (step.name == key && key in t.services && t.services[key].spec == DefaultService(step.service)
                && t.services[key].meta.controller == step.meta.controller)
  {
    hide ServiceValid, DefaultService;
  }

  lemma OtherStepsKeepServices(s: Store, step: Step, quantities: iset<string>)
    requires !IsController(step) && !OnPlatforms(step) && !step.DropFinalizer?
    requires !step.UserEditService? && !step.UserDeleteService? && !step.UserCreateService?
    ensures EnvironmentStore(s, step, quantities).services == s.services
  {
  }

  lemma EditInherits(s: Store, step: Step, quantities: iset<string>, key: string)
    requires step.UserEditService?
    ensures Inherited(s, EnvironmentStore(s, step, quantities), key)
  {
    hide UpdateService;
    if step.name in s.services {
      var v := s.services[step.name];
      UpdateInherits(s, step.name, v.(spec := step.service, meta := v.meta.(labels := step.labels, annotations := step.annotations)), key);
    }
  }

  lemma DropInherits(s: Store, step: Step, quantities: iset<string>, key: string)
    requires step.DropFinalizer?
    ensures Inherited(s, EnvironmentStore(s, step, quantities), key)
  {
    hide DropServiceFinalizer, DropPlatformFinalizer;
    var n, f := step.name, step.finalizer;
    var t := if n in s.services then DropServiceFinalizer(s, n, f) else s;
    DropServiceInherits(s, n, f, key);
    DropPlatformFrames(t, n, f);
  }

  lemma DropServiceInherits(s: Store, n: string, f: string, key: string)
    ensures n in s.services ==> Inherited(s, DropServiceFinalizer(s, n, f), key)
  {
    hide RemoveAll;
  }

  /** Every stored AIService was there before the step, immutable fields unchanged, or was born in it. */
  lemma StepProvenance(st: State, step: Step, key: string)
    ensures var t := Next(st, step).store;
            Inherited(st.store, t, key) || (key in t.services && BornIn(st, step, key, t.services[key]))
  {
    hide PlatformNext, ServiceNext, EnvironmentStore, Inherited, WritesChildren, WrittenFor, DesiredNames;
    if step.PlatformFetch? || step.PlatformStage? || step.PlatformPublish? {
      PlatformStepProvenance(st, step, key);
    } else if step.ServiceFetch? || step.ServiceStage? || step.ServicePublish? || step.ServiceStatusWrite? {
      ServiceStepInherits(st, step, key);
    } else {
      EnvironmentProvenance(st.store, step, st.quantities, key);
    }
  }
}
