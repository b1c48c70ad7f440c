/** The deletion protocol: who releases the platform's finalizer, when, and how it drains. */
module Deletion {
  import opened Api
  import opened Names
  import opened Admission
  import opened ApiServer
  import opened Features
  import opened Protocol
  import opened Safety
  import opened Readiness
  import P = PlatformRun
  import S = SaiaRun

  predicate Protected(s: Store, name: string) {
    name in s.platforms && FINALIZER_PLATFORM in s.platforms[name].meta.finalizers
  }

  // ---- release ---------------------------------------------------------------------------------------

  lemma PutOtherKeepsProtection(s: Store, name: string, n: string, p: Platform)
    requires Protected(s, name) && n in s.platforms
    requires n == name ==> FINALIZER_PLATFORM in p.meta.finalizers
    ensures Protected(StoredPlatform(s, n, p), name)
  {
  }

  lemma UpdateKeepsProtection(s: Store, name: string, n: string, p: Platform, quantities: iset<string>)
    requires Protected(s, name)
    requires n == name ==> FINALIZER_PLATFORM in p.meta.finalizers
    ensures Protected(UpdatePlatform(s, n, p, quantities).0, name)
  {
    hide StoredPlatform, PlatformUpdateValid, DefaultPlatform;
    if n in s.platforms {
      PutOtherKeepsProtection(s, name, n, Platform(p.meta, DefaultPlatform(p.spec), s.platforms[n].status));
    }
  }

  lemma EnvironmentKeepsProtection(s: Store, name: string, step: Step, quantities: iset<string>)
    requires Protected(s, name) && !IsController(step)
    ensures Protected(EnvironmentStore(s, step, quantities), name)
  {
    hide Protected, UpdatePlatform, CreatePlatform, DeletePlatform;
    if OnServices(step) {
      ServiceUserFrame(s, step, quantities);
      hide EnvironmentStore;
      SamePlatformsProtected(s, EnvironmentStore(s, step, quantities), name);
    } else if step.DropFinalizer? {
      hide EnvironmentStore;
      DropKeepsProtection(s, name, step, quantities);
    } else {
      match step {
        case UserCreatePlatform(n, m, spec) => CreateKeepsProtection(s, name, n, m, spec, quantities);
        case UserEditPlatform(n, labels, spec) =>
          if n in s.platforms {
            EditKeepsProtection(s, name, n, labels, spec, quantities);
          }
        case UserDeletePlatform(n) => DeleteKeepsProtection(s, name, n);
        case _ => SamePlatformsProtected(s, EnvironmentStore(s, step, quantities), name);
      }
    }
  }

  lemma EditKeepsProtection(s: Store, name: string, n: string, labels: map<string, string>, spec: PlatformSpec, quantities: iset<string>)
    requires Protected(s, name) && n in s.platforms
    ensures var p := s.platforms[n].(spec := spec, meta := s.platforms[n].meta.(labels := labels));
            Protected(UpdatePlatform(s, n, p, quantities).0, name)
  {
    hide UpdatePlatform;
    UpdateKeepsProtection(s, name, n, s.platforms[n].(spec := spec, meta := s.platforms[n].meta.(labels := labels)), quantities);
  }

  lemma SamePlatformsProtected(s: Store, t: Store, name: string)
    requires Protected(s, name) && t.platforms == s.platforms
    ensures Protected(t, name)
  {
  }

  lemma DropKeepsProtection(s: Store, name: string, step: Step, quantities: iset<string>)
    requires Protected(s, name) && step.DropFinalizer?
    ensures Protected(EnvironmentStore(s, step, quantities), name)
  {
    hide RemoveAll, StoredPlatform, Stored;
    var n, f := step.name, step.finalizer;
    var t := if n in s.services then DropServiceFinalizer(s, n, f) else s;
    assert t.platforms == s.platforms by { DropFrame(s, n, f); }
    if n in t.platforms && f != FINALIZER_PLATFORM {
      var p := t.platforms[n];
      PutOtherKeepsProtection(t, name, n, p.(meta := p.meta.(finalizers := RemoveAll(p.meta.finalizers, f))));
    }
  }

  lemma DropFrame(s: Store, n: string, f: string)
    ensures n in s.services ==> DropServiceFinalizer(s, n, f).platforms == s.platforms
  {
  }

  lemma CreateKeepsProtection(s: Store, name: string, n: string, m: Meta, spec: PlatformSpec, quantities: iset<string>)
    requires Protected(s, name)
    ensures Protected(CreatePlatform(s, n, m, spec, quantities), name)
  {
    hide PlatformValid, DefaultPlatform;
  }

  lemma DeleteKeepsProtection(s: Store, name: string, n: string)
    requires Protected(s, name)
    ensures Protected(DeletePlatform(s, n), name)
  {
  }

  lemma PublishKeepsProtection(s: Store, name: string, n: string, status: PlatformStatus, lands: bool)
    requires Protected(s, name)
    ensures Protected(PublishPlatform(s, n, status, lands), name)
  {
  }

  /**
   * The protecting finalizer goes in one way only: a fetch of this platform, while it is being
   * deleted and no platform run is in flight, whose listing of owned AIServices is empty; the
   * platform's other finalizers stay, in order.
   */
  lemma ReleasedOnlyWhenChildless(st: State, step: Step, name: string)
    requires Protected(st.store, name) && !Protected(Next(st, step).store, name)
    ensures step.PlatformFetch? && step.name == name
    ensures st.store.platforms[name].meta.deleting && st.platformRun.None?
    ensures Owned(st.store, name) == {} && Owned(Next(st, step).store, name) == {}
    ensures var t := Next(st, step).store;
            name in t.platforms ==>
              t.platforms[name].meta.finalizers == RemoveAll(st.store.platforms[name].meta.finalizers, FINALIZER_PLATFORM)
  {
    hide EnvironmentStore, ServiceNext, P.StageStep, PublishPlatform, DeleteServices, UpdatePlatform, RemoveAll, Owned, P.PublishedStatus;
    var s := st.store;
    if step.PlatformFetch? {
      if step.name in s.platforms {
        DeleteFrame(s, set n | n in Owned(s, step.name) && DeleteChild(n) !in step.failing);
        var p := s.platforms[step.name];
        var p1 := p.(meta := p.meta.(finalizers := RemoveAll(p.meta.finalizers, FINALIZER_PLATFORM)));
        if step.name != name {
          UpdateKeepsProtection(s, name, step.name, p1, st.quantities);
        } else {
          UpdatePlatformFrame(s, name, p1, st.quantities);
          OwnedDependsOnServices(s, UpdatePlatform(s, name, p1, st.quantities).0, name);
          UpdatedFinalizers(s, name, p1, st.quantities);
        }
      }
    } else if step.PlatformStage? {
      PlatformStageKeepsPlatforms(st, step.pw);
    } else if step.PlatformPublish? {
      if st.platformRun.Some? {
        var r := st.platformRun.value;
        PublishKeepsProtection(s, name, r.name, P.PublishedStatus(r), step.lands);
      }
    } else if IsController(step) {
      ServiceStepsKeepPlatforms(st, step);
    } else {
      EnvironmentKeepsProtection(s, name, step, st.quantities);
    }
  }

  lemma OwnedDependsOnServices(s: Store, t: Store, name: string)
    requires s.services == t.services
    ensures Owned(s, name) == Owned(t, name)
  {
  }

  lemma UpdatedFinalizers(s: Store, name: string, p: Platform, quantities: iset<string>)
    ensures var t := UpdatePlatform(s, name, p, quantities).0;
            name in t.platforms && t != s ==> t.platforms[name].meta.finalizers == p.meta.finalizers
  {
    hide PlatformUpdateValid, DefaultPlatform;
  }

  lemma PlatformStageKeepsPlatforms(st: State, w: P.World)
    ensures PlatformNext(st, PlatformStage(w)).store.platforms == st.store.platforms
  {
    hide ReconcileFeatures, P.ReconcileWeaviate, P.ValidatePlatform;
    if st.platformRun.Some? {
      var r := st.platformRun.value;
      FeaturesFrame(st.store, r.name, r.p, w.failing, w.reached);
      WeaviateFrame(st.store, r.name, r.p, w);
    }
  }

  lemma ServiceStepsKeepPlatforms(st: State, step: Step)
    requires step.ServiceFetch? || step.ServiceStage? || step.ServicePublish? || step.ServiceStatusWrite?
    ensures ServiceNext(st, step).store.platforms == st.store.platforms
  {
    hide UpdateService, RemoveAll, ReadsCompleted, WithReady, S.ToPublish, S.StageStep, JobName;
    var s := st.store;
    if step.ServiceFetch? && step.name in s.services {
      var v := s.services[step.name];
      UpdateFrame(s, step.name, v.(meta := v.meta.(finalizers := RemoveAll(v.meta.finalizers, FINALIZER_SERVICE))));
    } else if step.ServiceStage? && st.serviceRun.Some? && !S.Stopped(st.serviceRun.value.run) {
      SaiaStageKeepsPlatforms(s, st.serviceRun.value.run, step.sw);
    }
  }

  lemma SaiaStageKeepsPlatforms(s: Store, r: S.Run, w: S.World)
    requires !S.Stopped(r)
    ensures S.StageStep(s, r, w).0.platforms == s.platforms
  {
    hide S.ValidateSpec, S.ReconcileAccount, S.ReconcileHook, S.ReconcileCertificate, S.ReconcileDeployment, S.ForeignAnnotations;
    SaiaStagesKeepPlatforms(s, r.name, r.ai, w);
  }

  lemma SaiaStagesKeepPlatforms(s: Store, name: string, ai: Service, w: S.World)
    ensures S.ReconcileAccount(s, name, ai, w).0.platforms == s.platforms
    ensures S.ReconcileHook(s, name, ai, w).0.platforms == s.platforms
    ensures S.ReconcileCertificate(s, name, ai, w).0.platforms == s.platforms
    ensures S.ReconcileDeployment(s, name, ai, w).0.platforms == s.platforms
  {
    AccountKeepsPlatforms(s, name, ai, w);
    HookKeepsPlatforms(s, name, ai, w);
    hide S.ReconcileAccount, S.ReconcileHook, S.EnsuredCertificate, S.DeploymentUpserted;
  }

  lemma AccountKeepsPlatforms(s: Store, name: string, ai: Service, w: S.World)
    ensures S.ReconcileAccount(s, name, ai, w).0.platforms == s.platforms
  {
    hide UpdateService;
    UpdateFrame(s, name, ai.(spec := ai.spec.(serviceAccount := name + "-sa")));
  }

  lemma HookKeepsPlatforms(s: Store, name: string, ai: Service, w: S.World)
    ensures S.ReconcileHook(s, name, ai, w).0.platforms == s.platforms
  {
    hide JobName, S.JobVerdict;
  }

  // ---- no new children -------------------------------------------------------------------------------------

  /** Ownership recorded in t was recorded in s, except for objects that name the owner anew. */
  predicate OwnersKept(s: Store, t: Store, name: string) {
    forall n :: n in t.services && OwnedBy(t.services[n], name) ==> n in s.services && OwnedBy(s.services[n], name)
  }

  lemma UpdateKeepsOwners(s: Store, n: string, v: Service, name: string)
    requires OwnedBy(v, name) ==> n in s.services && OwnedBy(s.services[n], name)
    ensures OwnersKept(s, UpdateService(s, n, v).0, name)
  {
    hide ServiceUpdateValid, DefaultService;
  }

  lemma CreateKeepsOwners(s: Store, n: string, m: Meta, spec: ServiceSpec, name: string)
    requires m.controller != Some(PlatformOwner(name))
    ensures OwnersKept(s, CreateService(s, n, m, spec).0, name)
  {
    hide ServiceValid, DefaultService;
  }

  lemma DeleteKeepsOwners(s: Store, names: set<string>, name: string)
    ensures OwnersKept(s, DeleteServices(s, names), name)
  {
  }

  lemma {:induction false} OtherPlatformKeepsOwners(s: Store, other: string, p: Platform, fs: seq<Feature>, failing: set<Call>, name: string)
    requires other != name
    ensures OwnersKept(s, UpsertAll(s, other, p, fs, failing).0, name)
    decreases |fs|
  {
    hide UpdateService, CreateService, BuildService, ChildName;
    if fs != [] {
      var child := ChildName(other, fs[0].name);
      var s1 := Upsert(s, other, p, fs[0], failing).0;
      if child in s.services {
        UpdateKeepsOwners(s, child, Desired(s.services[child], s.ns, other, p, fs[0]), name);
      } else {
        CreateKeepsOwners(s, child, NewChildMeta(other, fs[0]), BuildService(other, s.ns, p, fs[0]), name);
      }
      OtherPlatformKeepsOwners(s1, other, p, fs[1..], failing, name);
    }
  }

  lemma OtherFeaturesKeepOwners(s: Store, other: string, p: Platform, failing: set<Call>, reached: set<string>, name: string)
    requires other != name
    ensures OwnersKept(s, ReconcileFeatures(s, other, p, failing, reached).0, name)
  {
    hide UpsertAll, DeleteServices, DesiredNames, Owned;
    OtherPlatformKeepsOwners(s, other, p, p.spec.features, failing, name);
    var s1 := UpsertAll(s, other, p, p.spec.features, failing).0;
    var doomed := Owned(s1, other) - DesiredNames(other, p.spec.features);
    var blocked := set n | n in doomed && DeleteChild(n) in failing;
    DeleteKeepsOwners(s1, doomed, name);
    DeleteKeepsOwners(s1, (doomed - blocked) * reached, name);
  }

  lemma PublishFrame(s: Store, n: string, status: PlatformStatus, lands: bool)
    ensures PublishPlatform(s, n, status, lands).services == s.services
  {
  }

  lemma ServiceNeverGrows(st: State, step: Step, name: string)
    requires step.ServiceFetch? || step.ServiceStage? || step.ServicePublish? || step.ServiceStatusWrite?
    requires Inv(st)
    ensures OwnersKept(st.store, ServiceNext(st, step).store, name)
    ensures ServiceNext(st, step).platformRun == st.platformRun
  {
    hide UpdateService, RemoveAll, WithReady, S.ToPublish, S.StageStep, ReadsCompleted, StoreSound, PlatformRunSound, ServiceRunSound,
      UpdateServiceStatus, CopyCurrent;
    var s := st.store;
    if st.serviceRun.Some? {
      var r := st.serviceRun.value.run;
      if step.ServiceStage? && !S.Stopped(r) {
        StageKeepsOwners(s, r, step.sw, name);
      }
      StatusKeepsOwners(s, r.name, S.ToPublish(r), true, name);
      StatusKeepsOwners(s, r.name, S.ToPublish(r), false, name);
      var v := r.ai.(status := r.ai.status.(conditions := WithReady(r.ai.status.conditions)));
      StatusKeepsOwners(s, r.name, v, true, name);
      StatusKeepsOwners(s, r.name, v, false, name);
    }
    if step.ServiceFetch? && step.name in s.services {
      var v := s.services[step.name];
      UpdateKeepsOwners(s, step.name, v.(meta := v.meta.(finalizers := RemoveAll(v.meta.finalizers, FINALIZER_SERVICE))), name);
    }
  }

  lemma StatusKeepsOwners(s: Store, n: string, v: Service, lands: bool, name: string)
    ensures OwnersKept(s, UpdateServiceStatus(s, n, v, lands).0, name)
  {
  }

  /** The account stage writes back a copy whose owner is the stored one, or the write is a conflict. */
  lemma StageKeepsOwners(s: Store, r: S.Run, w: S.World, name: string)
    requires CopyCurrent(s, r.name, r.ai.meta) && !S.Stopped(r)
    ensures OwnersKept(s, S.StageStep(s, r, w).0, name)
  {
    hide S.ValidateSpec, S.ReconcileAccount, S.ReconcileHook, S.ReconcileCertificate, S.ReconcileDeployment, S.ForeignAnnotations;
    CertificateFrame(s, r.name, r.ai, w);
    HookFrame(s, r.name, r.ai, w);
    DeploymentFrame(s, r.name, r.ai, w);
    AccountKeepsOwners(s, r.name, r.ai, w, name);
  }

  lemma AccountKeepsOwners(s: Store, n: string, ai: Service, w: S.World, name: string)
    requires CopyCurrent(s, n, ai.meta)
    ensures OwnersKept(s, S.ReconcileAccount(s, n, ai, w).0, name)
  {
    hide UpdateService;
    var ai1 := ai.(spec := ai.spec.(serviceAccount := n + "-sa"));
    if UpdateService(s, n, ai1).1.Ok? {
      UpdateIsCurrent(s, n, ai1);
      UpdateKeepsOwners(s, n, ai1, name);
    }
  }

  lemma UpdateIsCurrent(s: Store, n: string, v: Service)
    requires UpdateService(s, n, v).1.Ok?
    ensures n in s.services && s.services[n].meta.uid == v.meta.uid && s.services[n].meta.version == v.meta.version
  {
  }

  lemma EnvironmentNeverGrows(s: Store, step: Step, name: string, quantities: iset<string>)
    requires !IsController(step)
    requires step.UserCreateService? ==> step.meta.controller != Some(PlatformOwner(name))
    ensures OwnersKept(s, EnvironmentStore(s, step, quantities), name)
  {
    hide OwnersKept;
    if OnPlatforms(step) {
      hide EnvironmentStore;
      PlatformUserFrame(s, step, quantities);
      SameServicesOwners(s, EnvironmentStore(s, step, quantities), name);
    } else if step.DropFinalizer? {
      hide EnvironmentStore;
      DropStepKeepsOwners(s, step, name, quantities);
    } else {
      hide UpdateService, CreateService, DeleteServices;
      match step {
        case UserCreateService(n, m, spec) => CreateKeepsOwners(s, n, m, spec, name);
        case UserEditService(n, labels, annotations, spec) =>
          if n in s.services {
            var v := s.services[n];
            UpdateKeepsOwners(s, n, v.(spec := spec, meta := v.meta.(labels := labels, annotations := annotations)), name);
          } else {
            SameServicesOwners(s, s, name);
          }
        case UserDeleteService(n) => DeleteKeepsOwners(s, {n}, name);
        case _ => SameServicesOwners(s, EnvironmentStore(s, step, quantities), name);
      }
    }
  }

  lemma SameServicesOwners(s: Store, t: Store, name: string)
    requires t.services == s.services
    ensures OwnersKept(s, t, name)
  {
  }

  lemma DropStepKeepsOwners(s: Store, step: Step, name: string, quantities: iset<string>)
    requires step.DropFinalizer?
    ensures OwnersKept(s, EnvironmentStore(s, step, quantities), name)
  {
    hide RemoveAll, DropServiceFinalizer, DropPlatformFinalizer;
    var n, f := step.name, step.finalizer;
    var t := if n in s.services then DropServiceFinalizer(s, n, f) else s;
    DropKeepsOwners(s, n, f, name);
    if n in t.platforms {
      DropPlatformFrame(t, n, f);
    }
  }

  lemma DropKeepsOwners(s: Store, n: string, f: string, name: string)
    ensures n in s.services ==> OwnersKept(s, DropServiceFinalizer(s, n, f), name)
  {
    hide RemoveAll;
  }

  lemma DropPlatformFrame(s: Store, n: string, f: string)
    requires n in s.platforms
    ensures DropPlatformFinalizer(s, n, f).services == s.services
  {
    hide RemoveAll;
  }

  // ---- draining ---------------------------------------------------------------------------------------------

  lemma {:induction false} ExecAppend(st: State, a: seq<Step>, b: seq<Step>)
    ensures Exec(st, a + b) == Exec(Exec(st, a), b)
    decreases |b|
  {
    hide Next;
    if b == [] {
      assert a + b == a;
    } else {
      var m := b[..|b| - 1];
      ExecAppend(st, a, m);
      assert (a + b)[..|a + b| - 1] == a + m;
      assert (a + b)[|a + b| - 1] == b[|b| - 1];
    }
  }

  function Fetches(order: seq<string>): seq<Step> {
    seq(|order|, i requires 0 <= i < |order| => ServiceFetch(order[i], {}))
  }

  /** A reconcile of this platform, one of each listed AIService, and the platform again. */
  function DrainSchedule(name: string, order: seq<string>): seq<Step> {
    [PlatformFetch(name, {})] + Fetches(order) + [PlatformFetch(name, {})]
  }

  /** Only this operator holds the child back. */
  predicate Releasable(v: Service) {
    forall i :: 0 <= i < |v.meta.finalizers| ==> v.meta.finalizers[i] == FINALIZER_SERVICE
  }

  lemma {:induction false} RemoveAllEmptyIff(xs: seq<string>, x: string)
    ensures RemoveAll(xs, x) == [] <==> forall i :: 0 <= i < |xs| ==> xs[i] == x
  {
    if xs != [] {
      RemoveAllEmptyIff(xs[1..], x);
      assert forall i :: 0 < i < |xs| ==> xs[i] == xs[1..][i - 1];
    }
  }

  /** Where a deleting child is after its controller's deletion flow. */
  lemma FinalizeServiceAt(s: Store, name: string)
    requires Admitted(s) && NoZombies(s) && name in s.services && s.services[name].meta.deleting
    ensures var t := FinalizeService(s, name, {}).0;
            && OnlyServicesChanged(s, t) && Admitted(t) && NoZombies(t)
            && (forall n :: n != name ==> SameAt(s, t, n))
            && (name !in t.services <==> Releasable(s.services[name]))
            && (name in t.services ==>
                  && t.services[name].meta.deleting && !Releasable(t.services[name])
                  && t.services[name].meta.controller == s.services[name].meta.controller)
  {
    hide RemoveAll, UpdateService, Admitted, NoZombies, SpecAdmitted;
    var v := s.services[name];
    DeletingHasFinalizer(s, name);
    RemoveAllEmptyIff(v.meta.finalizers, FINALIZER_SERVICE);
    var rest := RemoveAll(v.meta.finalizers, FINALIZER_SERVICE);
    if FINALIZER_SERVICE in v.meta.finalizers {
      var v1 := v.(meta := v.meta.(finalizers := rest));
      UpdateKeeps(s, name, v1);
      MetadataUpdate(s, name, v1);
      if rest != [] {
        assert rest[0] != FINALIZER_SERVICE;
      }
    } else {
      assert v.meta.finalizers[0] != FINALIZER_SERVICE;
    }
  }

  lemma DeletingHasFinalizer(s: Store, name: string)
    requires NoZombies(s) && name in s.services && s.services[name].meta.deleting
    ensures s.services[name].meta.finalizers != []
  {
  }

  /** Admission accepts any update of an admitted object that leaves its spec alone. */
  lemma MetadataUpdate(s: Store, name: string, v: Service)
    requires Admitted(s) && name in s.services
    requires v == s.services[name].(meta := v.meta)
    requires v.meta.uid == s.services[name].meta.uid && v.meta.version == s.services[name].meta.version
    ensures UpdateService(s, name, v) == (Stored(s, name, v), Ok)
  {
    hide ServiceValid, DefaultService;
    assert SpecAdmitted(s.services[name].spec);
  }

  /** What a pass over order does to the key n. */
  predicate DrainedAt(s: Store, t: Store, order: seq<string>, n: string) {
    if n in order && n in s.services then
      && (n !in t.services <==> Releasable(s.services[n]))
      && (n in t.services ==>
            && t.services[n].meta.deleting && !Releasable(t.services[n])
            && t.services[n].meta.controller == s.services[n].meta.controller)
    else SameAt(s, t, n)
  }

  /** After a pass over order, exactly the releasable ones of it are gone. */
  lemma {:induction false} DrainPass(st: State, order: seq<string>, n: string)
    requires Admitted(st.store) && NoZombies(st.store) && st.serviceRun.None?
    requires forall k :: k in order && k in st.store.services ==> st.store.services[k].meta.deleting
    ensures var t := Exec(st, Fetches(order));
            && t == st.(store := t.store) && OnlyServicesChanged(st.store, t.store) && Admitted(t.store) && NoZombies(t.store)
            && DrainedAt(st.store, t.store, order, n)
    decreases |order|
  {
    hide Admitted, NoZombies, FinalizeService, Releasable, DrainedAt, Next;
    if order == [] {
      assert Fetches(order) == [];
      NothingDrained(st.store, n);
    } else {
      var front, last := order[..|order| - 1], order[|order| - 1];
      assert order == front + [last];
      assert n in order <==> n in front || n == last;
      DrainPass(st, front, n);
      DrainPass(st, front, last);
      var u := Exec(st, Fetches(front));
      assert Fetches(order)[..|order| - 1] == Fetches(front);
      assert Fetches(order)[|order| - 1] == ServiceFetch(last, {});
      FetchDeleting(u, last, st.store, front);
      DrainStep(st.store, u.store, Exec(st, Fetches(order)).store, front, last, n);
    }
  }

  lemma NothingDrained(s: Store, n: string)
    ensures DrainedAt(s, s, [], n)
  {
  }

  lemma FetchDeleting(u: State, last: string, s: Store, front: seq<string>)
    requires u.serviceRun.None? && DrainedAt(s, u.store, front, last)
    requires last in s.services ==> s.services[last].meta.deleting
    ensures Next(u, ServiceFetch(last, {})) ==
              u.(store := if last in u.store.services then FinalizeService(u.store, last, {}).0 else u.store)
  {
    hide FinalizeService, Releasable;
  }

  /** One more fetch after a pass over front. */
  lemma DrainStep(s: Store, u: Store, t: Store, front: seq<string>, last: string, n: string)
    requires Admitted(u) && NoZombies(u)
    requires DrainedAt(s, u, front, n) && DrainedAt(s, u, front, last)
    requires last in s.services ==> s.services[last].meta.deleting
    requires t == if last in u.services then FinalizeService(u, last, {}).0 else u
    ensures DrainedAt(s, t, front + [last], n)
    ensures OnlyServicesChanged(u, t) && Admitted(t) && NoZombies(t)
  {
    hide Admitted, NoZombies, FinalizeService, Releasable;
    assert n in front + [last] <==> n in front || n == last;
    if last in u.services {
      FinalizeServiceAt(u, last);
      if n == last {
        assert n in s.services;
      } else {
        assert SameAt(u, t, n);
      }
    }
  }

  lemma FirstFetchMarks(st: State, name: string)
    requires NoZombies(st.store) && Admitted(st.store) && Protected(st.store, name) && st.store.platforms[name].meta.deleting
    requires st.platformRun.None? && Owned(st.store, name) != {}
    ensures var t := Next(st, PlatformFetch(name, {}));
            && t == st.(store := DeleteServices(st.store, Owned(st.store, name)))
            && NoZombies(t.store) && Admitted(t.store)
            && (forall n :: n in t.store.services && OwnedBy(t.store.services[n], name) ==>
                  n in Owned(st.store, name) && t.store.services[n].meta.deleting
                  && t.store.services[n].meta.finalizers == st.store.services[n].meta.finalizers)
            && (forall n :: n in Owned(st.store, name) && n !in t.store.services ==> st.store.services[n].meta.finalizers == [])
            && (forall n :: n in Owned(st.store, name) && n in t.store.services ==> OwnedBy(t.store.services[n], name))
  {
    hide Owned, DeleteServices, Admitted, NoZombies, FinalizePlatform;
    FinalizeMarks(st.store, name, st.quantities);
    MarkedOwned(st.store, name);
  }

  lemma FinalizeMarks(s: Store, name: string, quantities: iset<string>)
    requires Protected(s, name) && Owned(s, name) != {}
    ensures FinalizePlatform(s, name, {}, quantities).0 == DeleteServices(s, Owned(s, name))
  {
    hide UpdatePlatform, RemoveAll;
    var owned := Owned(s, name);
    assert FinalizePlatform(s, name, {}, quantities).0.services == DeleteServices(s, owned).services;
  }

  lemma MarkedOwned(s: Store, name: string)
    requires NoZombies(s) && Admitted(s)
    ensures var t := DeleteServices(s, Owned(s, name));
            && NoZombies(t) && Admitted(t)
            && (forall n :: n in t.services && OwnedBy(t.services[n], name) ==>
                  n in Owned(s, name) && t.services[n].meta.deleting && t.services[n].meta.finalizers == s.services[n].meta.finalizers)
            && (forall n :: n in Owned(s, name) && n !in t.services ==> s.services[n].meta.finalizers == [])
            && (forall n :: n in Owned(s, name) && n in t.services ==> OwnedBy(t.services[n], name))
  {
    hide SpecAdmitted;
  }

  /** The last fetch releases the platform exactly when nothing it owns is left. */
  lemma LastFetchReleasesIff(st: State, name: string)
    requires PlatformsAdmitted(st.store, st.quantities) && Protected(st.store, name) && st.store.platforms[name].meta.deleting
    requires st.platformRun.None?
    ensures !Protected(Next(st, PlatformFetch(name, {})).store, name) <==> Owned(st.store, name) == {}
    ensures Next(st, PlatformFetch(name, {})).platformRun.None?
  {
    hide FinalizePlatform, PlatformsAdmitted;
    ReleaseIff(st.store, name, st.quantities);
  }

  lemma ReleaseIff(s: Store, name: string, quantities: iset<string>)
    requires PlatformsAdmitted(s, quantities) && Protected(s, name)
    ensures !Protected(FinalizePlatform(s, name, {}, quantities).0, name) <==> Owned(s, name) == {}
  {
    var p := s.platforms[name];
    assert p.spec == DefaultPlatform(p.spec) && PlatformValid(p.spec, quantities);
    ReleasingUpdate(s, name, quantities);
    hide PlatformValid, DefaultPlatform, RemoveAll, Owned, PlatformsAdmitted, UpdatePlatform;
  }

  lemma ReleasingUpdate(s: Store, name: string, quantities: iset<string>)
    requires name in s.platforms
    requires var p := s.platforms[name].spec; p == DefaultPlatform(p) && PlatformValid(p, quantities)
    ensures var p := s.platforms[name];
            var (t, o) := UpdatePlatform(s, name, p.(meta := p.meta.(finalizers := RemoveAll(p.meta.finalizers, FINALIZER_PLATFORM))), quantities);
            o.Ok? && !Protected(t, name)
  {
    hide PlatformValid, DefaultPlatform, RemoveAll;
  }

  /**
   * Draining, exactly: with no run in flight and no call failing, one reconcile of the platform,
   * one of each owned AIService and one more of the platform release it if and only if no owned
   * AIService carries a finalizer of somebody else.
   */
  lemma DrainsIff(st: State, name: string, order: seq<string>)
    requires Admitted(st.store) && NoZombies(st.store) && PlatformsAdmitted(st.store, st.quantities)
    requires st.platformRun.None? && st.serviceRun.None?
    requires Protected(st.store, name) && st.store.platforms[name].meta.deleting
    requires forall n :: n in order <==> n in Owned(st.store, name)
    ensures !Protected(Exec(st, DrainSchedule(name, order)).store, name) <==>
              forall n :: n in Owned(st.store, name) ==> Releasable(st.store.services[n])
  {
    hide Admitted, NoZombies, PlatformsAdmitted, Protected, Next, Releasable;
    var owned := Owned(st.store, name);
    var a, b := [PlatformFetch(name, {})], Fetches(order);
    ExecAppend(st, a, b);
    ExecAppend(st, a + b, a);
    var st1 := Exec(st, a);
    assert st1 == Next(st, PlatformFetch(name, {})) by { assert a[..0] == []; }
    var st2 := Exec(st1, b);
    assert Exec(st2, a) == Next(st2, PlatformFetch(name, {})) by { assert a[..0] == []; }
    if owned == {} {
      EmptyOrder(order);
      assert b == [];
      LastFetchReleasesIff(st, name);
      UnprotectedStays(st1, name);
    } else {
      FirstFetchMarks(st, name);
      KeepsDeleting(st, st1, name);
      forall n ensures DrainedAt(st1.store, st2.store, order, n) {
        DrainPass(st1, order, n);
      }
      DrainPass(st1, order, name);
      KeepsDeleting(st1, st2, name);
      LastFetchReleasesIff(st2, name);
      forall n | n in owned
        ensures n in Owned(st2.store, name) <==> !Releasable(st.store.services[n])
      {
        assert DrainedAt(st1.store, st2.store, order, n);
        if n in st1.store.services {
          SameFinalizers(st.store.services[n], st1.store.services[n]);
        } else {
          NoFinalizersReleasable(st.store.services[n]);
        }
      }
      forall n | n in Owned(st2.store, name) ensures n in owned {
        assert DrainedAt(st1.store, st2.store, order, n);
      }
    }
  }

  lemma EmptyOrder(order: seq<string>)
    requires forall n :: n !in order
    ensures order == []
  {
    if order != [] {
      HeadIsIn(order);
    }
  }

  lemma HeadIsIn(order: seq<string>)
    requires order != []
    ensures order[0] in order
  {
  }

  lemma SameFinalizers(v: Service, w: Service)
    requires v.meta.finalizers == w.meta.finalizers
    ensures Releasable(v) <==> Releasable(w)
  {
  }

  lemma NoFinalizersReleasable(v: Service)
    requires v.meta.finalizers == []
    ensures Releasable(v)
  {
  }

  lemma KeepsDeleting(st: State, t: State, name: string)
    requires Protected(st.store, name) && st.store.platforms[name].meta.deleting
    requires PlatformsAdmitted(st.store, st.quantities)
    requires t.quantities == st.quantities && t.store.platforms == st.store.platforms
    ensures Protected(t.store, name) && t.store.platforms[name].meta.deleting && PlatformsAdmitted(t.store, t.quantities)
  {
    hide PlatformValid, DefaultPlatform;
  }

  lemma UnprotectedStays(st: State, name: string)
    requires !Protected(st.store, name) && st.platformRun.None?
    ensures !Protected(Next(st, PlatformFetch(name, {})).store, name)
  {
    hide UpdatePlatform, DeleteServices, RemoveAll, Owned;
  }
}
