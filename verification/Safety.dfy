/** Safety over every run: what each step keeps, and what a published Ready then means. */
module Safety {
  import opened Api
  import opened Names
  import opened Admission
  import opened ApiServer
  import opened Features
  import opened StageRunner
  import opened Protocol
  import P = PlatformRun
  import S = SaiaRun

  // ---- writes of AIServices keep what is known about children ------------------------------------

  /**
   * Every AIService of t either is newly created, with an unused identity and an empty status, or
   * is the one of s with its identity and status, unchanged or at a later version.
   */
  predicate StatusesKept(s: Store, t: Store) {
    && s.uids <= t.uids
    && forall n :: n in t.services ==>
         || (n in s.services && Later(s.services[n], t.services[n]) && t.services[n].status == s.services[n].status)
         || (t.services[n].status == ServiceStatus("", []) && s.uids <= t.services[n].meta.uid < t.uids)
  }

  /** The same object, unchanged or at a later version. */
  predicate Later(v: Service, w: Service) {
    v.meta.uid == w.meta.uid && (w == v || v.meta.version < w.meta.version)
  }

  lemma NothingReady()
    ensures !IsConditionTrue([], "Ready")
  {
  }

  lemma ChildrenStaySound(s: Store, t: Store, h: History)
    requires ChildrenSound(s.services, h) && StatusesKept(s, t)
    ensures ChildrenSound(t.services, h)
    ensures UidsBelow(s) ==> UidsBelow(t)
  {
    hide IsConditionTrue, HasError, JobName;
    NothingReady();
    forall n | n in t.services ensures ChildSound(n, t.services[n], h) {
      if n in s.services {
        assert ChildSound(n, s.services[n], h);
      }
    }
  }

  lemma CopyStaysCurrent(s: Store, t: Store, name: string, copy: Meta)
    requires CopyCurrent(s, name, copy) && StatusesKept(s, t)
    ensures CopyCurrent(t, name, copy)
  {
  }

  lemma StatusesKeptTransitive(s: Store, t: Store, u: Store)
    requires StatusesKept(s, t) && StatusesKept(t, u)
    ensures StatusesKept(s, u)
  {
  }

  lemma UpdateKeeps(s: Store, name: string, v: Service)
    requires Admitted(s) && NoZombies(s)
    requires name in s.services && s.services[name].meta.uid == v.meta.uid
    ensures var t := UpdateService(s, name, v).0;
            && OnlyServicesChanged(s, t) && StatusesKept(s, t)
            && NoZombies(t) && Admitted(t)
  {
    hide ServiceValid, DefaultService, Stored, Admitted, NoZombies, StatusesKept, SpecAdmitted;
    StatusesKeptReflexive(s, s);
    if UpdateService(s, name, v).1.Ok? {
      DefaultedIsAdmitted(v.spec);
      StoredKeeps(s, name, Service(v.meta, DefaultService(v.spec), s.services[name].status));
    }
  }

  lemma StoredKeeps(s: Store, name: string, v: Service)
    requires Admitted(s) && NoZombies(s) && SpecAdmitted(v.spec)
    requires name in s.services && s.services[name].meta.uid == v.meta.uid && s.services[name].status == v.status
    requires s.services[name].meta.version <= v.meta.version
    ensures var t := Stored(s, name, v);
            && OnlyServicesChanged(s, t) && StatusesKept(s, t)
            && NoZombies(t) && Admitted(t)
  {
    hide Admitted, NoZombies, StatusesKept, SpecAdmitted;
    StatusesKeptReflexive(s, s);
    if v.meta.deleting && v.meta.finalizers == [] {
      RemoveKeeps(s, name);
    } else {
      PutKeeps(s, name, v.(meta := v.meta.(version := v.meta.version + 1)));
    }
  }

  lemma PutKeeps(s: Store, name: string, v: Service)
    requires Admitted(s) && NoZombies(s) && SpecAdmitted(v.spec) && !(v.meta.deleting && v.meta.finalizers == [])
    requires name in s.services && s.services[name].meta.uid == v.meta.uid && s.services[name].status == v.status
    requires s.services[name].meta.version < v.meta.version
    ensures var t := s.(services := s.services[name := v]);
            StatusesKept(s, t) && NoZombies(t) && Admitted(t)
  {
    hide SpecAdmitted;
  }

  lemma RemoveKeeps(s: Store, name: string)
    requires Admitted(s) && NoZombies(s)
    ensures var t := s.(services := s.services - {name});
            StatusesKept(s, t) && NoZombies(t) && Admitted(t)
  {
    hide SpecAdmitted;
  }

  lemma CreateKeeps(s: Store, name: string, meta: Meta, spec: ServiceSpec)
    requires Admitted(s) && NoZombies(s)
    ensures var t := CreateService(s, name, meta, spec).0;
            && OnlyServicesChanged(s, t) && StatusesKept(s, t)
            && NoZombies(t) && Admitted(t)
  {
    hide ServiceValid, DefaultService;
    if ServiceValid(DefaultService(spec)) {
      DefaultedIsAdmitted(spec);
    }
  }

  lemma DeleteKeeps(s: Store, names: set<string>)
    requires Admitted(s) && NoZombies(s)
    ensures var t := DeleteServices(s, names);
            && OnlyServicesChanged(s, t) && StatusesKept(s, t)
            && NoZombies(t) && Admitted(t)
  {
    hide SpecAdmitted;
  }

  lemma UpsertKeepsStatuses(s: Store, name: string, p: Platform, f: Feature, failing: set<Call>)
    requires Admitted(s) && NoZombies(s)
    ensures StatusesKept(s, Upsert(s, name, p, f, failing).0)
  {
    hide UpdateService, CreateService, BuildService, ChildName, Admitted, NoZombies;
    var child := ChildName(name, f.name);
    if child in s.services {
      UpdateKeeps(s, child, Desired(s.services[child], s.ns, name, p, f));
    } else {
      CreateKeeps(s, child, NewChildMeta(name, f), BuildService(name, s.ns, p, f));
    }
  }

  lemma {:induction false} UpsertAllKeepsStatuses(s: Store, name: string, p: Platform, fs: seq<Feature>, failing: set<Call>)
    requires Admitted(s) && NoZombies(s)
    ensures StatusesKept(s, UpsertAll(s, name, p, fs, failing).0)
    decreases |fs|
  {
    hide Upsert, Admitted, NoZombies, StatusesKept;
    if fs == [] {
      StatusesKeptReflexive(s, s);
    } else {
      var s1 := Upsert(s, name, p, fs[0], failing).0;
      UpsertKeeps(s, name, p, fs[0], failing);
      UpsertKeepsStatuses(s, name, p, fs[0], failing);
      UpsertAllKeepsStatuses(s1, name, p, fs[1..], failing);
      StatusesKeptTransitive(s, s1, UpsertAll(s1, name, p, fs[1..], failing).0);
    }
  }

  lemma StatusesKeptReflexive(s: Store, t: Store)
    requires s.services == t.services && s.uids <= t.uids
    ensures StatusesKept(s, t)
  {
  }

  lemma FeaturesKeepStatuses(s: Store, name: string, p: Platform, failing: set<Call>, reached: set<string>)
    requires Admitted(s) && NoZombies(s)
    ensures StatusesKept(s, ReconcileFeatures(s, name, p, failing, reached).0)
  {
    hide UpsertAll, Admitted, NoZombies, StatusesKept, DesiredNames, DeleteServices;
    var s1 := UpsertAll(s, name, p, p.spec.features, failing).0;
    UpsertAllKeepsStatuses(s, name, p, p.spec.features, failing);
    UpsertAllKeeps(s, name, p, p.spec.features, failing);
    var t := ReconcileFeatures(s, name, p, failing, reached).0;
    if t != s1 {
      var doomed := Owned(s1, name) - DesiredNames(name, p.spec.features);
      var blocked := set n | n in doomed && DeleteChild(n) in failing;
      DeleteKeeps(s1, doomed);
      DeleteKeeps(s1, (doomed - blocked) * reached);
      StatusesKeptTransitive(s, s1, t);
    }
  }

  // ---- platform steps ------------------------------------------------------------------------------

  lemma WeaviateWrites(s: Store, name: string, p: Platform, w: P.World)
    ensures var t := P.ReconcileWeaviate(s, name, p, w).0;
            && t.deployments == s.deployments
            && (t.statefulSets == s.statefulSets
                || t.statefulSets == s.statefulSets[WeaviateName(name) := P.WeaviateUpserted(s, name, p)])
  {
    hide P.WeaviateUpserted, WeaviateName;
  }

  lemma WeaviateKeepsSelectors(s: Store, name: string, p: Platform, w: P.World)
    requires SelectorsMatch(s)
    ensures SelectorsMatch(P.ReconcileWeaviate(s, name, p, w).0)
  {
    hide P.WeaviateLabels, S.PodLabels, P.Claims, WeaviateName, DeploymentName;
    var t := P.ReconcileWeaviate(s, name, p, w).0;
    WeaviateWrites(s, name, p, w);
    hide P.ReconcileWeaviate;
    forall n {:trigger WeaviateName(n)} | WeaviateName(n) in t.statefulSets
      ensures var sts := t.statefulSets[WeaviateName(n)];
              sts.selector == P.WeaviateLabels(n) && sts.podLabels == P.WeaviateLabels(n) && sts.serviceName == WeaviateName(n)
    {
      if WeaviateName(n) == WeaviateName(name) {
        WeaviateNameInjective(n, name);
      }
    }
  }

  lemma PlatformStageSound(st: State, w: P.World)
    requires Inv(st) && st.platformRun.Some? && !P.Stopped(st.platformRun.value)
    ensures Inv(PlatformNext(st, PlatformStage(w)))
  {
    hide P.ReconcileWeaviate, ReconcileFeatures, P.ValidatePlatform, P.CollectRay, P.WeaviateStatus, Admitted, NoZombies,
      PlatformsAdmitted, SelectorsMatch, JobsBalanced, ChildSound, P.WellFormed, ServiceRunSound, HasError, UidsBelow, CopyCurrent,
      StatusesKept;
    var s, r := st.store, st.platformRun.value;
    var (t, q) := P.StageStep(s, r, w);
    P.StepWellFormed(s, r, w);
    match P.STAGES[r.next] {
      case WeaviateDatabase =>
        WeaviateKeepsSelectors(s, r.name, r.p, w);
        WeaviateFrame(s, r.name, r.p, w);
        AdmittedFrame(s, t, st.quantities, st.history);
        StatusesKeptReflexive(s, t);
        ChildrenStaySound(s, t, st.history);
      case AIService =>
        FeaturesKeep(s, r.name, r.p, w.failing, w.reached);
        FeaturesKeepStatuses(s, r.name, r.p, w.failing, w.reached);
        ChildrenStaySound(s, t, st.history);
        ServicesFrame(s, t, st.quantities, st.history);
      case AIServiceStatus =>
        assert t == s;
        assert q.listed == P.Listing(s, r.name);
        assert q.outcome == CheckChildren(s, r.name, w.failing);
      case _ =>
        assert t == s;
    }
    if P.STAGES[r.next] != P.AIServiceStatus {
      assert r.next + 1 < |P.STAGES|;
    }
    if t == s {
      StatusesKeptReflexive(s, t);
    }
    if st.serviceRun.Some? {
      CopyStaysCurrent(s, t, st.serviceRun.value.run.name, st.serviceRun.value.run.ai.meta);
    }
  }

  lemma WeaviateFrame(s: Store, name: string, p: Platform, w: P.World)
    ensures var t := P.ReconcileWeaviate(s, name, p, w).0;
            t == s.(serviceAccounts := t.serviceAccounts, statefulSets := t.statefulSets)
  {
    hide P.WeaviateUpserted;
  }

  /** Invariants about AIServices, platforms and Jobs do not look at StatefulSets or accounts. */
  lemma AdmittedFrame(s: Store, t: Store, quantities: iset<string>, h: History)
    requires t.services == s.services && t.platforms == s.platforms && t.jobs == s.jobs
    ensures Admitted(s) ==> Admitted(t)
    ensures NoZombies(s) ==> NoZombies(t)
    ensures PlatformsAdmitted(s, quantities) ==> PlatformsAdmitted(t, quantities)
    ensures JobsBalanced(s, h) ==> JobsBalanced(t, h)
  {
    hide SpecAdmitted, PlatformValid, DefaultPlatform;
  }

  /** Invariants about platforms, workloads and Jobs do not look at AIServices. */
  lemma ServicesFrame(s: Store, t: Store, quantities: iset<string>, h: History)
    requires OnlyServicesChanged(s, t)
    ensures PlatformsAdmitted(s, quantities) ==> PlatformsAdmitted(t, quantities)
    ensures JobsBalanced(s, h) ==> JobsBalanced(t, h)
    ensures SelectorsMatch(s) ==> SelectorsMatch(t)
  {
    hide PlatformValid, DefaultPlatform, DeploymentName, WeaviateName, S.PodLabels, P.WeaviateLabels;
  }

  // ---- platform writes ---------------------------------------------------------------------------------

  predicate OnlyPlatformsChanged(s: Store, t: Store) {
    t == s.(platforms := t.platforms, uids := t.uids)
  }

  lemma PlatformsFrame(s: Store, t: Store, h: History)
    requires OnlyPlatformsChanged(s, t)
    ensures Admitted(s) ==> Admitted(t)
    ensures JobsBalanced(s, h) ==> JobsBalanced(t, h)
    ensures SelectorsMatch(s) ==> SelectorsMatch(t)
    ensures s.uids <= t.uids ==> (UidsBelow(s) ==> UidsBelow(t)) && StatusesKept(s, t)
  {
    hide SpecAdmitted, DeploymentName, WeaviateName, S.PodLabels, P.WeaviateLabels;
  }

  lemma PutPlatformKeeps(s: Store, name: string, p: Platform, quantities: iset<string>)
    requires PlatformsAdmitted(s, quantities) && NoZombies(s)
    requires PlatformValid(p.spec, quantities) && p.spec == DefaultPlatform(p.spec)
    requires !(p.meta.deleting && p.meta.finalizers == [])
    ensures var t := s.(platforms := s.platforms[name := p]);
            PlatformsAdmitted(t, quantities) && NoZombies(t)
  {
    hide PlatformValid, DefaultPlatform;
  }

  lemma RemovePlatformKeeps(s: Store, name: string, quantities: iset<string>)
    requires PlatformsAdmitted(s, quantities) && NoZombies(s)
    ensures var t := s.(platforms := s.platforms - {name});
            PlatformsAdmitted(t, quantities) && NoZombies(t)
  {
    hide PlatformValid, DefaultPlatform;
  }

  lemma StoredPlatformKeeps(s: Store, name: string, p: Platform, quantities: iset<string>)
    requires PlatformsAdmitted(s, quantities) && NoZombies(s) && name in s.platforms
    requires PlatformValid(p.spec, quantities) && p.spec == DefaultPlatform(p.spec)
    ensures var t := StoredPlatform(s, name, p);
            PlatformsAdmitted(t, quantities) && NoZombies(t) && OnlyPlatformsChanged(s, t) && s.uids == t.uids
  {
    hide PlatformsAdmitted, NoZombies, PlatformValid, DefaultPlatform;
    if p.meta.deleting && p.meta.finalizers == [] {
      RemovePlatformKeeps(s, name, quantities);
    } else {
      PutPlatformKeeps(s, name, p.(meta := p.meta.(version := p.meta.version + 1)), quantities);
    }
  }

  lemma UpdatePlatformKeeps(s: Store, name: string, p: Platform, quantities: iset<string>)
    requires PlatformsAdmitted(s, quantities) && NoZombies(s)
    ensures var t := UpdatePlatform(s, name, p, quantities).0;
            PlatformsAdmitted(t, quantities) && NoZombies(t) && OnlyPlatformsChanged(s, t) && s.uids == t.uids
  {
    hide PlatformsAdmitted, NoZombies, PlatformValid, DefaultPlatform, StoredPlatform;
    if UpdatePlatform(s, name, p, quantities).1.Ok? {
      PlatformDefaultsStable(p.spec);
      StoredPlatformKeeps(s, name, Platform(p.meta, DefaultPlatform(p.spec), s.platforms[name].status), quantities);
    }
  }

  lemma CreatePlatformKeeps(s: Store, name: string, meta: Meta, spec: PlatformSpec, quantities: iset<string>)
    requires PlatformsAdmitted(s, quantities) && NoZombies(s)
    ensures var t := CreatePlatform(s, name, meta, spec, quantities);
            PlatformsAdmitted(t, quantities) && NoZombies(t) && OnlyPlatformsChanged(s, t) && s.uids <= t.uids
  {
    hide PlatformsAdmitted, NoZombies, PlatformValid, DefaultPlatform;
    var t := CreatePlatform(s, name, meta, spec, quantities);
    if t != s {
      var s1 := s.(uids := s.uids + 1);
      assert PlatformsAdmitted(s1, quantities) && NoZombies(s1) by { UidsDoNotMatter(s, s1, quantities); }
      PlatformDefaultsStable(spec);
      PutPlatformKeeps(s1, name, t.platforms[name], quantities);
    }
  }

  lemma UidsDoNotMatter(s: Store, t: Store, quantities: iset<string>)
    requires t.platforms == s.platforms && t.services == s.services
    requires PlatformsAdmitted(s, quantities) && NoZombies(s)
    ensures PlatformsAdmitted(t, quantities) && NoZombies(t)
  {
    hide PlatformValid, DefaultPlatform;
  }

  lemma DeletePlatformKeeps(s: Store, name: string, quantities: iset<string>)
    requires PlatformsAdmitted(s, quantities) && NoZombies(s)
    ensures var t := DeletePlatform(s, name);
            PlatformsAdmitted(t, quantities) && NoZombies(t) && OnlyPlatformsChanged(s, t) && s.uids == t.uids
  {
    DeletionLeavesNoZombie(s, name);
    DeletionKeepsSpecs(s, name);
    hide *;
    SameSpecsAdmitted(s, DeletePlatform(s, name), quantities);
  }

  lemma DeletionLeavesNoZombie(s: Store, name: string)
    requires NoZombies(s)
    ensures var t := DeletePlatform(s, name);
            NoZombies(t) && OnlyPlatformsChanged(s, t) && s.uids == t.uids
  {
  }

  lemma DeletionKeepsSpecs(s: Store, name: string)
    ensures var t := DeletePlatform(s, name);
            forall n :: n in t.platforms ==> n in s.platforms && t.platforms[n].spec == s.platforms[n].spec
  {
  }

  lemma SameSpecsAdmitted(s: Store, t: Store, quantities: iset<string>)
    requires PlatformsAdmitted(s, quantities)
    requires forall n :: n in t.platforms ==> n in s.platforms && t.platforms[n].spec == s.platforms[n].spec
    ensures PlatformsAdmitted(t, quantities)
  {
    hide PlatformValid, DefaultPlatform;
  }

  lemma PublishKeeps(s: Store, name: string, status: PlatformStatus, lands: bool, quantities: iset<string>)
    requires PlatformsAdmitted(s, quantities) && NoZombies(s)
    ensures var t := PublishPlatform(s, name, status, lands);
            PlatformsAdmitted(t, quantities) && NoZombies(t) && OnlyPlatformsChanged(s, t) && s.uids == t.uids
  {
    hide PlatformValid, DefaultPlatform;
  }

  lemma PlatformOtherStepsSound(st: State, step: Step)
    requires Inv(st) && (step.PlatformFetch? || step.PlatformPublish?)
    ensures Inv(PlatformNext(st, step))
  {
    hide Admitted, NoZombies, PlatformsAdmitted, SelectorsMatch, JobsBalanced, ChildSound, ServiceRunSound,
      UpdatePlatform, PublishPlatform, DeleteServices, StatusesKept, P.WellFormed, RemoveAll, UidsBelow, CopyCurrent, FinalizePlatform;
    var s := st.store;
    StatusesKeptReflexive(s, s);
    match step {
      case PlatformPublish(lands) =>
        if st.platformRun.Some? {
          var r := st.platformRun.value;
          PublishKeeps(s, r.name, P.PublishedStatus(r), lands, st.quantities);
          PlatformsFrame(s, PublishPlatform(s, r.name, P.PublishedStatus(r), lands), st.history);
        }
      case PlatformFetch(name, failing) =>
        if name in s.platforms {
          P.StartWellFormed(name, s.platforms[name]);
          if s.platforms[name].meta.deleting {
            FinalizePlatformKeeps(s, name, failing, st.quantities, st.history);
          }
        }
    }
    if st.serviceRun.Some? {
      CopyStaysCurrent(s, PlatformNext(st, step).store, st.serviceRun.value.run.name, st.serviceRun.value.run.ai.meta);
    }
  }

  lemma FinalizePlatformKeeps(s: Store, name: string, failing: set<Call>, quantities: iset<string>, h: History)
    requires StoreSound(s, quantities, h) && name in s.platforms
    ensures StoreSound(FinalizePlatform(s, name, failing, quantities).0, quantities, h)
    ensures StatusesKept(s, FinalizePlatform(s, name, failing, quantities).0)
  {
    hide StoreSound, StatusesKept, UpdatePlatform, DeleteServices, RemoveAll, Owned;
    StatusesKeptReflexive(s, s);
    var p := s.platforms[name];
    UpdatePlatformSound(s, name, p.(meta := p.meta.(finalizers := RemoveAll(p.meta.finalizers, FINALIZER_PLATFORM))), quantities, h);
    DeleteSound(s, (set n | n in Owned(s, name) && DeleteChild(n) !in failing), quantities, h);
  }

  lemma DeleteSound(s: Store, names: set<string>, quantities: iset<string>, h: History)
    requires StoreSound(s, quantities, h)
    ensures StoreSound(DeleteServices(s, names), quantities, h) && StatusesKept(s, DeleteServices(s, names))
  {
    hide UidsBelow, Admitted, NoZombies, PlatformsAdmitted, SelectorsMatch, JobsBalanced, ChildrenSound, DeleteServices, StatusesKept;
    DeleteKeeps(s, names);
    ChildrenStaySound(s, DeleteServices(s, names), h);
    ServicesFrame(s, DeleteServices(s, names), quantities, h);
  }

  lemma UpdatePlatformSound(s: Store, name: string, p: Platform, quantities: iset<string>, h: History)
    requires StoreSound(s, quantities, h)
    ensures var t := UpdatePlatform(s, name, p, quantities).0;
            StoreSound(t, quantities, h) && StatusesKept(s, t)
  {
    hide UidsBelow, Admitted, NoZombies, PlatformsAdmitted, SelectorsMatch, JobsBalanced, ChildrenSound, UpdatePlatform, StatusesKept;
    var t := UpdatePlatform(s, name, p, quantities).0;
    UpdatePlatformKeeps(s, name, p, quantities);
    PlatformsFrame(s, t, h);
    ChildrenStaySound(s, t, h);
  }

  // ---- service steps -------------------------------------------------------------------------------------

  predicate Grows(h: History, k: History) {
    h.observed <= k.observed && h.panicked <= k.panicked
  }

  lemma SoundnessGrows(services: map<string, Service>, h: History, k: History)
    requires ChildrenSound(services, h) && Grows(h, k)
    ensures ChildrenSound(services, k)
  {
    hide IsConditionTrue, HasError, JobName;
  }

  lemma ValidateGivesUrl(s: Store, v: ServiceSpec, w: S.World)
    ensures S.ValidateSpec(s, v, w).1.Ok? ==> S.ValidateSpec(s, v, w).0.vectorDbUrl != ""
    ensures !S.ValidateSpec(s, v, w).1.Panic?
  {
    hide S.FillUrls, S.GateError;
  }

  /** The account stage writes one AIService; the copy it gets back is the same child. */
  lemma AccountStage(s: Store, name: string, ai: Service, w: S.World, h: History)
    requires Admitted(s) && NoZombies(s) && ChildrenSound(s.services, h)
    requires ai.status.schemaJobId in {"", JobName(name)}
    ensures var (t, ai2, o) := S.ReconcileAccount(s, name, ai, w);
            && StatusesKept(s, t) && Admitted(t) && NoZombies(t)
            && t == s.(services := t.services, serviceAccounts := t.serviceAccounts)
            && ai2.meta.uid == ai.meta.uid && ai2.spec.vectorDbUrl == ai.spec.vectorDbUrl
            && ai2.status.schemaJobId in {"", JobName(name)}
            && !o.Panic?
  {
    hide Admitted, NoZombies, StatusesKept, UpdateService, JobName, IsConditionTrue, HasError;
    StatusesKeptReflexive(s, s);
    if ai.spec.serviceAccount == "" && UpdateSpec !in w.failing {
      var ai1 := ai.(spec := ai.spec.(serviceAccount := name + "-sa"));
      if UpdateService(s, name, ai1).1.Ok? {
        UpdateSucceeds(s, name, ai1);
        UpdateKeeps(s, name, ai1);
        var t := S.ReconcileAccount(s, name, ai, w).0;
        AdmittedNoZombiesFrame(UpdateService(s, name, ai1).0, t);
        StatusesKeptReflexive(UpdateService(s, name, ai1).0, t);
        StatusesKeptTransitive(s, UpdateService(s, name, ai1).0, t);
        assert ChildSound(name, s.services[name], h);
      }
    }
  }

  lemma AdmittedNoZombiesFrame(s: Store, t: Store)
    requires t.services == s.services && t.platforms == s.platforms
    requires Admitted(s) && NoZombies(s)
    ensures Admitted(t) && NoZombies(t)
  {
    hide SpecAdmitted;
  }

  /** What a successful update means for the caller's copy. */
  lemma UpdateSucceeds(s: Store, name: string, v: Service)
    requires UpdateService(s, name, v).1.Ok?
    ensures name in s.services && s.services[name].meta.uid == v.meta.uid
    ensures var t := UpdateService(s, name, v).0;
            name in t.services ==>
              && t.services[name].meta.uid == v.meta.uid
              && t.services[name].spec == DefaultService(v.spec)
              && t.services[name].status == s.services[name].status
              && t.services[name].spec.vectorDbUrl == v.spec.vectorDbUrl
              && t.uids == s.uids
    ensures UpdateService(s, name, v).0.uids == s.uids
  {
    hide ServiceUpdateValid;
    DefaultingKeeps(v.spec);
  }

  lemma HookStage(s: Store, name: string, ai: Service, w: S.World)
    requires ai.status.schemaJobId in {"", JobName(name)}
    ensures var (t, ai2, o) := S.ReconcileHook(s, name, ai, w);
            && ai2.spec == ai.spec && ai2.meta == ai.meta && ai2.status.schemaJobId in {"", JobName(name)}
            && t == s.(jobs := t.jobs) && !o.Panic?
            && t.jobs == (if S.CreatesJob(s, name, ai, w) then s.jobs[JobName(name) := Job([])] else s.jobs)
            && (o.Ok? && ai.spec.vectorDbUrl != "" ==>
                  ai.status.schemaJobId in s.jobs && S.JobVerdict(s.jobs[ai.status.schemaJobId].flags) == S.Completed)
  {
    hide JobName;
  }

  lemma DeploymentStage(s: Store, name: string, ai: Service, w: S.World)
    requires SelectorsMatch(s)
    ensures var (t, o) := S.ReconcileDeployment(s, name, ai, w);
            SelectorsMatch(t) && t == s.(deployments := t.deployments) && !o.Panic?
  {
    hide P.WeaviateLabels, S.PodLabels, WeaviateName, DeploymentName, S.ForeignAnnotations;
    var t := S.ReconcileDeployment(s, name, ai, w).0;
    forall n {:trigger DeploymentName(n)} | DeploymentName(n) in t.deployments
      ensures t.deployments[DeploymentName(n)].selector == Some(S.PodLabels(n))
      ensures t.deployments[DeploymentName(n)].podLabels == S.PodLabels(n)
    {
      if DeploymentName(n) == DeploymentName(name) {
        DeploymentNameInjective(n, name);
      }
    }
  }

  lemma JobCreationBalances(s: Store, t: Store, h: History, k: History, n: string)
    requires JobsBalanced(s, h) && n !in s.jobs && t.jobs == s.jobs[n := Job([])]
    requires k.deleted == h.deleted && k.created == Bump(h.created, n)
    ensures JobsBalanced(t, k)
  {
    forall m {:trigger Count(k.created, m)}
      ensures Count(k.created, m) == Count(k.deleted, m) + (if m in t.jobs then 1 else 0)
    {
      assert Count(h.created, m) == Count(h.deleted, m) + (if m in s.jobs then 1 else 0);
    }
  }

  lemma JobsUntouchedBalances(s: Store, t: Store, h: History, k: History)
    requires JobsBalanced(s, h) && t.jobs == s.jobs
    requires k.deleted == h.deleted && k.created == h.created
    ensures JobsBalanced(t, k)
  {
    forall m {:trigger Count(k.created, m)}
      ensures Count(k.created, m) == Count(k.deleted, m) + (if m in t.jobs then 1 else 0)
    {
      assert Count(h.created, m) == Count(h.deleted, m) + (if m in s.jobs then 1 else 0);
    }
  }

  /** What one stage of a SAIA run does to the store and to its own copy. */
  lemma ServiceStageEffect(st: State, sr: ServiceRun, w: S.World)
    requires StoreSound(st.store, st.quantities, st.history) && ServiceRunSound(sr, st.history) && !S.Stopped(sr.run)
    ensures var (t, q) := S.StageStep(st.store, sr.run, w);
            && StatusesKept(st.store, t) && Admitted(t) && NoZombies(t) && SelectorsMatch(t)
            && t.platforms == st.store.platforms
            && q.ai.meta.uid == sr.run.ai.meta.uid && q.ai.status.schemaJobId in {"", JobName(sr.run.name)}
            && (sr.run.next > 0 ==> q.ai.spec.vectorDbUrl == sr.run.ai.spec.vectorDbUrl)
            && (sr.run.next == 0 && q.outcome.Ok? ==> q.ai.spec.vectorDbUrl != "")
            && (sr.run.next == S.HOOK_AT && q.outcome.Ok? ==> ReadsCompleted(st.store, sr.run))
            && t.jobs == (if sr.run.next == S.HOOK_AT && S.CreatesJob(st.store, sr.run.name, sr.run.ai, w)
                          then st.store.jobs[JobName(sr.run.name) := Job([])] else st.store.jobs)
            && (q.outcome.Panic? ==> sr.run.next == S.PANIC_AT && S.ForeignAnnotations(sr.run.ai.meta.annotations) != map[])
  {
    hide Admitted, NoZombies, StatusesKept, SelectorsMatch, JobsBalanced, PlatformsAdmitted, ChildSound, S.ValidateSpec,
      S.ReconcileAccount, S.ReconcileHook, S.ReconcileDeployment, S.WellFormed, JobName, S.ForeignAnnotations, S.EnsuredCertificate;
    var s, r := st.store, sr.run;
    var t := S.StageStep(s, r, w).0;
    match S.STAGES[r.next] {
      case Validate =>
        ValidateGivesUrl(s, r.ai.spec, w);
        StatusesKeptReflexive(s, t);
      case ServiceAccountStage =>
        AccountStage(s, r.name, r.ai, w, st.history);
        SelectorsFrame(s, t);
      case PostInstallHook =>
        HookStage(s, r.name, r.ai, w);
        StatusesKeptReflexive(s, t);
        AdmittedNoZombiesFrame(s, t);
        SelectorsFrame(s, t);
      case SaiaDeployment =>
        DeploymentStage(s, r.name, r.ai, w);
        StatusesKeptReflexive(s, t);
        AdmittedNoZombiesFrame(s, t);
      case _ =>
        StatusesKeptReflexive(s, t);
        AdmittedNoZombiesFrame(s, t);
        SelectorsFrame(s, t);
    }
  }

  lemma SelectorsFrame(s: Store, t: Store)
    requires SelectorsMatch(s) && t.deployments == s.deployments && t.statefulSets == s.statefulSets
    ensures SelectorsMatch(t)
  {
    hide DeploymentName, WeaviateName, S.PodLabels, P.WeaviateLabels;
  }

  lemma PlatformsAdmittedFrame(s: Store, t: Store, quantities: iset<string>)
    requires PlatformsAdmitted(s, quantities) && t.platforms == s.platforms
    ensures PlatformsAdmitted(t, quantities)
  {
    hide PlatformValid, DefaultPlatform;
  }

  /** The copy stays current: only the account stage writes the object, and it reads the result back. */
  lemma ServiceStageCopy(st: State, sr: ServiceRun, w: S.World)
    requires StoreSound(st.store, st.quantities, st.history) && ServiceRunSound(sr, st.history) && !S.Stopped(sr.run)
    requires CopyCurrent(st.store, sr.run.name, sr.run.ai.meta)
    ensures var (t, q) := S.StageStep(st.store, sr.run, w);
            CopyCurrent(t, sr.run.name, q.ai.meta)
  {
    hide Admitted, NoZombies, StatusesKept, SelectorsMatch, JobsBalanced, PlatformsAdmitted, ChildSound, CopyCurrent, UidsBelow,
      S.ValidateSpec, S.ReconcileAccount, S.ReconcileHook, S.ReconcileDeployment, S.ReconcileCertificate, S.ForeignAnnotations, S.WellFormed;
    var s, r := st.store, sr.run;
    ServiceStageEffect(st, sr, w);
    var (t, q) := S.StageStep(s, r, w);
    CopyStaysCurrent(s, t, r.name, r.ai.meta);
    if S.STAGES[r.next] == S.ServiceAccountStage {
      AccountCopy(s, r.name, r.ai, w);
    } else {
      OtherStagesKeepMeta(s, r, w);
    }
  }

  lemma OtherStagesKeepMeta(s: Store, r: S.Run, w: S.World)
    requires !S.Stopped(r) && S.STAGES[r.next] != S.ServiceAccountStage
    ensures S.StageStep(s, r, w).1.ai.meta == r.ai.meta
  {
    hide S.ValidateSpec, S.ReconcileAccount, S.ReconcileDeployment, S.ReconcileCertificate, S.ForeignAnnotations, JobName;
  }

  lemma AccountCopy(s: Store, name: string, ai: Service, w: S.World)
    requires CopyCurrent(s, name, ai.meta) && UidsBelow(s)
    ensures var (t, ai2, o) := S.ReconcileAccount(s, name, ai, w);
            CopyCurrent(t, name, ai2.meta)
  {
    hide UpdateService, StatusesKept;
    var ai1 := ai.(spec := ai.spec.(serviceAccount := name + "-sa"));
    var u := UpdateService(s, name, ai1).0;
    if UpdateService(s, name, ai1).1.Ok? {
      UpdateSucceeds(s, name, ai1);
    }
  }

  lemma ServiceStageSound(st: State, w: S.World)
    requires Inv(st) && st.serviceRun.Some? && !S.Stopped(st.serviceRun.value.run)
    ensures Inv(ServiceNext(st, ServiceStage(w)))
  {
    hide Admitted, NoZombies, StatusesKept, SelectorsMatch, JobsBalanced, PlatformsAdmitted, ChildSound,
      S.StageStep, S.WellFormed, P.WellFormed, JobName, ReadsCompleted, UidsBelow, CopyCurrent;
    ServiceStageCopy(st, st.serviceRun.value, w);
    var sr := st.serviceRun.value;
    var (t, q) := S.StageStep(st.store, sr.run, w);
    var st2 := ServiceNext(st, ServiceStage(w));
    ServiceStageEffect(st, sr, w);
    S.StepWellFormed(st.store, sr.run, w);
    S.StepAdvances(st.store, sr.run, w);
    ChildrenStaySound(st.store, t, st.history);
    assert UidsBelow(t);
    SoundnessGrows(t.services, st.history, st2.history);
    PlatformsAdmittedFrame(st.store, t, st.quantities);
    if !(sr.run.next == S.HOOK_AT && S.CreatesJob(st.store, sr.run.name, sr.run.ai, w)) {
      JobsUntouchedBalances(st.store, t, st.history, st2.history);
    } else {
      JobCreationBalances(st.store, t, st.history, st2.history, JobName(sr.run.name));
    }
    if st.platformRun.Some? {
      SoundnessGrows(st.platformRun.value.listed, st.history, st2.history);
    }
  }

  // ---- publishing a child's status ---------------------------------------------------------------------

  /** A stopped run publishes conditions that keep its child sound. */
  lemma StoppedRunIsSound(sr: ServiceRun, v: Service, h: History)
    requires ServiceRunSound(sr, h) && S.Stopped(sr.run)
    requires v.meta.uid == sr.run.ai.meta.uid && v.status.schemaJobId == sr.run.ai.status.schemaJobId
    requires v.status.conditions == sr.run.conditions
    ensures ChildSound(sr.run.name, v, h)
    ensures sr.run.outcome.Ok? ==> WithReady(v.status.conditions) == v.status.conditions
  {
    hide JobName, IsConditionTrue, HasError;
    var r := sr.run;
    S.LabelsDistinct();
    ReadPublished(S.LABELS, r.conditions, r.next, r.outcome);
    if r.outcome.Ok? {
      ReadyHasKind(r.conditions);
    }
  }

  lemma ReadyHasKind(cs: seq<Condition>)
    requires IsConditionTrue(cs, "Ready")
    ensures WithReady(cs) == cs
  {
  }

  lemma StatusWriteKeeps(st: State, name: string, v: Service, lands: bool)
    requires StoreSound(st.store, st.quantities, st.history) && ChildSound(name, v, st.history)
    ensures StoreSound(UpdateServiceStatus(st.store, name, v, lands).0, st.quantities, st.history)
  {
    hide SpecAdmitted, JobName, IsConditionTrue, HasError, PlatformsAdmitted, JobsBalanced, SelectorsMatch, UidsBelow;
    assert UidsBelow(UpdateServiceStatus(st.store, name, v, lands).0) by { StatusWriteUids(st.store, name, v, lands); }
    var s := st.store;
    var t := UpdateServiceStatus(s, name, v, lands).0;
    ServicesFrame(s, t, st.quantities, st.history);
    if t != s {
      assert Admitted(t) && NoZombies(t);
      forall n | n in t.services ensures ChildSound(n, t.services[n], st.history) {
        assert ChildSound(n, s.services[n], st.history);
      }
    }
  }

  lemma StatusWriteUids(s: Store, name: string, v: Service, lands: bool)
    requires UidsBelow(s)
    ensures UidsBelow(UpdateServiceStatus(s, name, v, lands).0)
  {
  }

  lemma ServiceOtherStepsSound(st: State, step: Step)
    requires Inv(st) && (step.ServiceFetch? || step.ServicePublish? || step.ServiceStatusWrite?)
    ensures Inv(ServiceNext(st, step))
  {
    hide Admitted, NoZombies, PlatformsAdmitted, SelectorsMatch, JobsBalanced, ChildSound, Published,
      UpdateServiceStatus, FinalizeService, JobName, PlatformRunSound, CopyCurrent;
    var s := st.store;
    match step {
      case ServiceFetch(name, failing) =>
        if name in s.services {
          assert ChildSound(name, s.services[name], st.history);
          S.StartWellFormed(name, s.services[name]);
          SoundHasJobId(name, s.services[name], st.history);
          FinalizeServiceKeeps(s, name, failing, st.quantities, st.history);
          StatusesKeptReflexive(s, s);
          FetchedCopy(s, name);
          if st.serviceRun.Some? {
            CopyStaysCurrent(s, s, st.serviceRun.value.run.name, st.serviceRun.value.run.ai.meta);
          }
        }
      case ServicePublish(lands) =>
        if st.serviceRun.Some? && S.Stopped(st.serviceRun.value.run) {
          var sr := st.serviceRun.value;
          var v := S.ToPublish(sr.run);
          StoppedRunIsSound(sr, v, st.history);
          StatusWriteKeeps(st, sr.run.name, v, lands);
          PublishedCopy(s, sr.run.name, v, lands);
          PublishedCopyCurrent(s, sr.run.name, v, lands);
          if UpdateServiceStatus(s, sr.run.name, v, lands).1.Ok? {
            AdmittedHasUrl(s, sr.run.name);
          }
        }
      case ServiceStatusWrite(lands) =>
        if st.serviceRun.Some? && st.serviceRun.value.published {
          var sr := st.serviceRun.value;
          StoppedRunIsSound(sr, sr.run.ai, st.history);
          StatusWriteKeeps(st, sr.run.name, sr.run.ai, lands);
        }
    }
  }

  lemma SoundHasJobId(n: string, v: Service, h: History)
    requires ChildSound(n, v, h)
    ensures v.status.schemaJobId in {"", JobName(n)}
  {
    hide JobName;
  }

  lemma AdmittedHasUrl(s: Store, name: string)
    requires Admitted(s) && name in s.services
    ensures s.services[name].spec.vectorDbUrl != ""
  {
    assert SpecAdmitted(s.services[name].spec);
  }

  lemma FetchedCopy(s: Store, name: string)
    requires UidsBelow(s) && name in s.services
    ensures CopyCurrent(s, name, s.services[name].meta)
  {
  }

  lemma PublishedCopyCurrent(s: Store, name: string, v: Service, lands: bool)
    requires CopyCurrent(s, name, v.meta)
    ensures var (t, o) := UpdateServiceStatus(s, name, v, lands);
            CopyCurrent(t, name, if o.Ok? then Refreshed(t, name, v).meta else v.meta)
  {
  }

  lemma PublishedCopy(s: Store, name: string, v: Service, lands: bool)
    ensures var (t, o) := UpdateServiceStatus(s, name, v, lands);
            o.Ok? ==>
              && name in s.services && name in t.services
              && t.services[name].status == v.status && t.services[name].meta.uid == v.meta.uid
              && t.services[name].spec == s.services[name].spec
  {
  }

  lemma FinalizeServiceKeeps(s: Store, name: string, failing: set<Call>, quantities: iset<string>, h: History)
    requires StoreSound(s, quantities, h) && name in s.services
    ensures StoreSound(FinalizeService(s, name, failing).0, quantities, h)
  {
    hide Admitted, NoZombies, PlatformsAdmitted, SelectorsMatch, JobsBalanced, ChildSound, UpdateService, StatusesKept, RemoveAll;
    var v := s.services[name];
    var v1 := v.(meta := v.meta.(finalizers := RemoveAll(v.meta.finalizers, FINALIZER_SERVICE)));
    UpdateKeeps(s, name, v1);
    ChildrenStaySound(s, UpdateService(s, name, v1).0, h);
    ServicesFrame(s, UpdateService(s, name, v1).0, quantities, h);
  }

  // ---- the environment --------------------------------------------------------------------------------------

  /** Environment steps on AIServices: all of them go through the same API calls. */
  lemma EnvironmentOnServices(s: Store, step: Step, quantities: iset<string>, h: History)
    requires StoreSound(s, quantities, h)
    requires step.UserCreateService? || step.UserEditService? || step.UserDeleteService?
    ensures StoreSound(EnvironmentStore(s, step, quantities), quantities, h)
    ensures StatusesKept(s, EnvironmentStore(s, step, quantities))
  {
    hide Admitted, NoZombies, PlatformsAdmitted, SelectorsMatch, JobsBalanced, ChildSound, StatusesKept,
      UpdateService, CreateService, DeleteServices;
    StatusesKeptReflexive(s, s);
    match step {
      case UserCreateService(n, m, spec) =>
        CreateKeeps(s, n, m, spec);
      case UserEditService(n, labels, annotations, spec) =>
        if n in s.services {
          var v := s.services[n];
          UpdateKeeps(s, n, v.(spec := spec, meta := v.meta.(labels := labels, annotations := annotations)));
        }
      case UserDeleteService(n) =>
        DeleteKeeps(s, {n});
    }
    var t := EnvironmentStore(s, step, quantities);
    ChildrenStaySound(s, t, h);
    ServicesFrame(s, t, quantities, h);
  }

  lemma EnvironmentOnPlatforms(s: Store, step: Step, quantities: iset<string>, h: History)
    requires StoreSound(s, quantities, h)
    requires step.UserCreatePlatform? || step.UserEditPlatform? || step.UserDeletePlatform?
    ensures StoreSound(EnvironmentStore(s, step, quantities), quantities, h)
    ensures StatusesKept(s, EnvironmentStore(s, step, quantities))
  {
    hide Admitted, NoZombies, PlatformsAdmitted, SelectorsMatch, JobsBalanced, ChildSound,
      UpdatePlatform, CreatePlatform, DeletePlatform;
    match step {
      case UserCreatePlatform(n, m, spec) =>
        CreatePlatformKeeps(s, n, m, spec, quantities);
      case UserEditPlatform(n, labels, spec) =>
        if n in s.platforms {
          var p := s.platforms[n];
          UpdatePlatformKeeps(s, n, p.(spec := spec, meta := p.meta.(labels := labels)), quantities);
        }
      case UserDeletePlatform(n) =>
        DeletePlatformKeeps(s, n, quantities);
    }
    PlatformsFrame(s, EnvironmentStore(s, step, quantities), h);
  }

  lemma DropFinalizerKeeps(s: Store, n: string, f: string, quantities: iset<string>, h: History)
    requires StoreSound(s, quantities, h)
    ensures StoreSound(EnvironmentStore(s, DropFinalizer(n, f), quantities), quantities, h)
    ensures StatusesKept(s, EnvironmentStore(s, DropFinalizer(n, f), quantities))
  {
    hide NoZombies, PlatformsAdmitted, SelectorsMatch, JobsBalanced, ChildSound, StatusesKept, Stored, StoredPlatform,
      RemoveAll, SpecAdmitted, PlatformValid, DefaultPlatform;
    StatusesKeptReflexive(s, s);
    if f == FINALIZER_PLATFORM || f == FINALIZER_SERVICE {
      return;
    }
    var t := if n in s.services then DropServiceFinalizer(s, n, f) else s;
    if n in s.services {
      var v := s.services[n];
      StoredKeeps(s, n, v.(meta := v.meta.(finalizers := RemoveAll(v.meta.finalizers, f))));
      ChildrenStaySound(s, t, h);
      ServicesFrame(s, t, quantities, h);
    }
    if n in t.platforms {
      var p := t.platforms[n];
      assert PlatformAdmittedAt(t, n, quantities) by { PlatformsAdmittedAt(t, n, quantities); }
      StoredPlatformKeeps(t, n, p.(meta := p.meta.(finalizers := RemoveAll(p.meta.finalizers, f))), quantities);
      PlatformsFrame(t, DropPlatformFinalizer(t, n, f), h);
      StatusesKeptTransitive(s, t, DropPlatformFinalizer(t, n, f));
    }
  }

  predicate PlatformAdmittedAt(s: Store, n: string, quantities: iset<string>)
    requires n in s.platforms
  {
    PlatformValid(s.platforms[n].spec, quantities) && s.platforms[n].spec == DefaultPlatform(s.platforms[n].spec)
  }

  lemma PlatformsAdmittedAt(s: Store, n: string, quantities: iset<string>)
    requires PlatformsAdmitted(s, quantities) && n in s.platforms
    ensures PlatformAdmittedAt(s, n, quantities)
  {
  }

  lemma EnvironmentOnWorkloads(st: State, step: Step)
    requires StoreSound(st.store, st.quantities, st.history)
    requires OnWorkloads(step)
    ensures StoreSound(Next(st, step).store, st.quantities, Next(st, step).history)
    ensures Grows(st.history, Next(st, step).history)
    ensures StatusesKept(st.store, Next(st, step).store)
  {
    var s := st.store;
    var st2 := Next(st, step);
    WorkloadFrame(st, step);
    WorkloadsStaySelected(s, step, st.quantities);
    WorkloadsStayBalanced(s, step, st.quantities, st.history);
    hide Next, EnvironmentStore, Admitted, NoZombies, PlatformsAdmitted, ChildrenSound, SelectorsMatch, JobsBalanced, StatusesKept, Grows,
      WorkloadHistory;
    AdmittedNoZombiesFrame(s, st2.store);
    PlatformsAdmittedFrame(s, st2.store, st.quantities);
    WorkloadHistoryGrows(s, step, st.history);
    SoundnessGrows(s.services, st.history, st2.history);
    StatusesKeptReflexive(s, st2.store);
  }

  /** These steps count a Job that was deleted. */
  function WorkloadHistory(s: Store, step: Step, h: History): History {
    if step.JobGone? && step.name in s.jobs then h.(deleted := Bump(h.deleted, step.name)) else h
  }

  predicate OnWorkloads(step: Step) {
    step.JobFlags? || step.JobGone? || step.CertificateFlags? || step.ReadyReplicas? || step.DeploymentGone? || step.StatefulSetGone?
  }

  lemma WorkloadHistoryGrows(s: Store, step: Step, h: History)
    ensures Grows(h, WorkloadHistory(s, step, h))
  {
  }

  /** They leave the two resources and the identity counter alone. */
  lemma WorkloadFrame(st: State, step: Step)
    requires OnWorkloads(step)
    ensures var t := EnvironmentStore(st.store, step, st.quantities);
            && t.services == st.store.services && t.platforms == st.store.platforms && t.uids == st.store.uids
            && Next(st, step) == st.(store := t, history := WorkloadHistory(st.store, step, st.history))
  {
  }

  lemma WorkloadStores(s: Store, step: Step, quantities: iset<string>)
    requires OnWorkloads(step)
    ensures var t := EnvironmentStore(s, step, quantities);
            t.services == s.services && t.platforms == s.platforms && t.uids == s.uids
  {
  }

  lemma WorkloadsStaySelected(s: Store, step: Step, quantities: iset<string>)
    requires OnWorkloads(step) && SelectorsMatch(s)
    ensures SelectorsMatch(EnvironmentStore(s, step, quantities))
  {
    hide DeploymentName, WeaviateName, S.PodLabels, P.WeaviateLabels;
  }

  lemma WorkloadsStayBalanced(s: Store, step: Step, quantities: iset<string>, h: History)
    requires OnWorkloads(step) && JobsBalanced(s, h)
    ensures JobsBalanced(EnvironmentStore(s, step, quantities), WorkloadHistory(s, step, h))
  {
    var t, k := EnvironmentStore(s, step, quantities), WorkloadHistory(s, step, h);
    forall m {:trigger Count(k.created, m)}
      ensures Count(k.created, m) == Count(k.deleted, m) + (if m in t.jobs then 1 else 0)
    {
      assert Count(h.created, m) == Count(h.deleted, m) + (if m in s.jobs then 1 else 0);
    }
  }

  // ---- every run ---------------------------------------------------------------------------------------------

  lemma RunsOutlive(st: State, st2: State)
    requires Inv(st) && Grows(st.history, st2.history)
    requires StoreSound(st2.store, st2.quantities, st2.history)
    requires st2.platformRun == st.platformRun && st2.serviceRun == st.serviceRun
    requires StatusesKept(st.store, st2.store)
    ensures Inv(st2)
  {
    hide StatusesKept, CopyCurrent, StoreSound, S.WellFormed, P.WellFormed, JobName, ChildSound, HasError;
    if st.platformRun.Some? {
      SoundnessGrows(st.platformRun.value.listed, st.history, st2.history);
    }
    if st.serviceRun.Some? {
      CopyStaysCurrent(st.store, st2.store, st.serviceRun.value.run.name, st.serviceRun.value.run.ai.meta);
    }
  }

  lemma NextSound(st: State, step: Step)
    requires Inv(st)
    ensures Inv(Next(st, step))
  {
    hide StatusesKept, StoreSound, PlatformRunSound, ServiceRunSound, EnvironmentStore, PlatformNext, ServiceNext, S.Stopped, P.Stopped;
    if step.PlatformStage? {
      if st.platformRun.Some? && !P.Stopped(st.platformRun.value) {
        PlatformStageSound(st, step.pw);
      } else {
        PlatformIdle(st, step);
      }
    } else if step.PlatformFetch? || step.PlatformPublish? {
      PlatformOtherStepsSound(st, step);
    } else if step.ServiceStage? {
      if st.serviceRun.Some? && !S.Stopped(st.serviceRun.value.run) {
        ServiceStageSound(st, step.sw);
      } else {
        ServiceIdle(st, step);
      }
    } else if step.ServiceFetch? || step.ServicePublish? || step.ServiceStatusWrite? {
      ServiceOtherStepsSound(st, step);
    } else {
      EnvironmentSound(st, step);
      RunsOutlive(st, Next(st, step));
    }
  }

  lemma PlatformIdle(st: State, step: Step)
    requires step.PlatformStage? && (st.platformRun.None? || P.Stopped(st.platformRun.value))
    ensures PlatformNext(st, step) == st
  {
  }

  lemma ServiceIdle(st: State, step: Step)
    requires step.ServiceStage? && (st.serviceRun.None? || S.Stopped(st.serviceRun.value.run))
    ensures ServiceNext(st, step) == st
  {
  }

  predicate IsController(step: Step) {
    || step.PlatformFetch? || step.PlatformStage? || step.PlatformPublish?
    || step.ServiceFetch? || step.ServiceStage? || step.ServicePublish? || step.ServiceStatusWrite?
  }

  lemma EnvironmentSound(st: State, step: Step)
    requires StoreSound(st.store, st.quantities, st.history) && !IsController(step)
    ensures StoreSound(Next(st, step).store, st.quantities, Next(st, step).history)
    ensures Grows(st.history, Next(st, step).history)
    ensures StatusesKept(st.store, Next(st, step).store)
  {
    hide StoreSound, EnvironmentStore, StatusesKept;
    if step.UserCreateService? || step.UserEditService? || step.UserDeleteService? {
      EnvironmentOnServices(st.store, step, st.quantities, st.history);
    } else if step.UserCreatePlatform? || step.UserEditPlatform? || step.UserDeletePlatform? {
      EnvironmentOnPlatforms(st.store, step, st.quantities, st.history);
    } else if step.DropFinalizer? {
      DropFinalizerKeeps(st.store, step.name, step.finalizer, st.quantities, st.history);
    } else {
      EnvironmentOnWorkloads(st, step);
    }
  }

  /** The invariant holds in every state that any interleaving reaches from an empty namespace. */
  lemma {:induction false} Invariant(ns: string, quantities: iset<string>, steps: seq<Step>)
    ensures Inv(Exec(Empty(ns, quantities), steps))
    decreases |steps|
  {
    hide Inv, Next;
    if steps == [] {
      EmptySound(ns, quantities);
    } else {
      Invariant(ns, quantities, steps[..|steps| - 1]);
      NextSound(Exec(Empty(ns, quantities), steps[..|steps| - 1]), steps[|steps| - 1]);
    }
  }

  lemma EmptySound(ns: string, quantities: iset<string>)
    ensures Inv(Empty(ns, quantities))
  {
  }
}
