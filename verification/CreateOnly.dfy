/** Fields that are written once, and a field the platform never looks at. */
module CreateOnly {
  import opened Api
  import opened Names
  import opened Admission
  import opened ApiServer
  import opened Features
  import opened Protocol
  import opened Safety
  import opened Readiness
  import P = PlatformRun
  import S = SaiaRun

  /** The fields of k that the API server would refuse to change. */
  predicate FixedFields(s: Store, t: Store, k: string) {
    && (k in s.deployments && k in t.deployments ==> s.deployments[k].selector == t.deployments[k].selector)
    && (k in s.statefulSets && k in t.statefulSets ==>
          var a, b := s.statefulSets[k], t.statefulSets[k];
          a.selector == b.selector && a.serviceName == b.serviceName && a.claims == b.claims)
  }

  lemma PlatformStepFixes(st: State, step: Step, k: string)
    requires step.PlatformFetch? || step.PlatformStage? || step.PlatformPublish?
    ensures FixedFields(st.store, PlatformNext(st, step).store, k)
  {
    PlatformKeepsDeployments(st, step);
    hide P.StageStep, DeleteServices, UpdatePlatform, RemoveAll, Owned;
    var s := st.store;
    if step.PlatformStage? && st.platformRun.Some? && !P.Stopped(st.platformRun.value) {
      PlatformStageFixes(s, st.platformRun.value, step.pw, k);
    } else if step.PlatformFetch? && step.name in s.platforms {
      var p := s.platforms[step.name];
      DeleteFrame(s, set n | n in Owned(s, step.name) && DeleteChild(n) !in step.failing);
      UpdatePlatformFrame(s, step.name,
        p.(meta := p.meta.(finalizers := RemoveAll(p.meta.finalizers, FINALIZER_PLATFORM))), st.quantities);
    }
  }

  lemma PlatformStageFixes(s: Store, r: P.Run, w: P.World, k: string)
    requires !P.Stopped(r)
    ensures FixedFields(s, P.StageStep(s, r, w).0, k)
  {
    hide ReconcileFeatures, P.ReconcileWeaviate, P.ValidatePlatform, P.CollectRay, P.WeaviateStatus, CheckChildren, P.Listing;
    FeaturesFrame(s, r.name, r.p, w.failing, w.reached);
    WeaviateFixes(s, r.name, r.p, w, k);
  }

  lemma WeaviateFixes(s: Store, name: string, p: Platform, w: P.World, k: string)
    ensures FixedFields(s, P.ReconcileWeaviate(s, name, p, w).0, k)
  {
    hide WeaviateName;
  }

  lemma ServiceStepFixes(st: State, step: Step, k: string)
    requires step.ServiceFetch? || step.ServiceStage? || step.ServicePublish? || step.ServiceStatusWrite?
    requires SelectorsMatch(st.store)
    ensures FixedFields(st.store, ServiceNext(st, step).store, k)
  {
    hide S.StageStep, ReadsCompleted, UpdateService, RemoveAll, SelectorsMatch, DeploymentName, JobName, FINALIZER_SERVICE;
    if step.ServiceStage? && st.serviceRun.Some? && !S.Stopped(st.serviceRun.value.run) {
      SaiaStageFixes(st.store, st.serviceRun.value.run, step.sw, k);
    } else if step.ServiceFetch? && step.name in st.store.services {
      var v := st.store.services[step.name];
      UpdateFrame(st.store, step.name, v.(meta := v.meta.(finalizers := RemoveAll(v.meta.finalizers, FINALIZER_SERVICE))));
    }
  }

  lemma SameObjects(s: Store, t: Store, k: string)
    requires t.deployments == s.deployments && t.statefulSets == s.statefulSets
    ensures FixedFields(s, t, k)
  {
  }

  lemma DeploymentFixes(s: Store, name: string, ai: Service, w: S.World, k: string)
    requires DeploymentName(name) in s.deployments ==> s.deployments[DeploymentName(name)].selector.Some?
    ensures FixedFields(s, S.ReconcileDeployment(s, name, ai, w).0, k)
  {
    hide DeploymentName, S.PodLabels, S.ForeignAnnotations;
  }

  lemma SaiaStageFixes(s: Store, r: S.Run, w: S.World, k: string)
    requires !S.Stopped(r) && SelectorsMatch(s)
    ensures FixedFields(s, S.StageStep(s, r, w).0, k)
  {
    var d := DeploymentName(r.name);
    assert d in s.deployments ==> s.deployments[d].selector.Some?;
    hide SelectorsMatch, S.ValidateSpec, S.ReconcileAccount, S.ReconcileHook, S.ReconcileCertificate, S.ForeignAnnotations, DeploymentName,
      FixedFields, S.ReconcileDeployment;
    StageFrames(s, r.name, r.ai, w);
    StageSets(s, r.name, r.ai, w);
    DeploymentFixes(s, r.name, r.ai, w, k);
    var t := S.StageStep(s, r, w).0;
    if S.STAGES[r.next] != S.SaiaDeployment {
      SameObjects(s, t, k);
    }
  }

  lemma StageSets(s: Store, name: string, ai: Service, w: S.World)
    ensures S.ReconcileAccount(s, name, ai, w).0.statefulSets == s.statefulSets
    ensures S.ReconcileHook(s, name, ai, w).0.statefulSets == s.statefulSets
    ensures S.ReconcileCertificate(s, name, ai, w).0.statefulSets == s.statefulSets
  {
    hide UpdateService, S.ReconcileHook, S.ReconcileCertificate;
    HookFrame(s, name, ai, w);
    CertificateFrame(s, name, ai, w);
    UpdateFrame(s, name, ai.(spec := ai.spec.(serviceAccount := name + "-sa")));
  }

  lemma EnvironmentFixes(s: Store, step: Step, quantities: iset<string>, k: string)
    requires !IsController(step)
    ensures FixedFields(s, EnvironmentStore(s, step, quantities), k)
  {
    if step.DeploymentGone? || step.StatefulSetGone? || step.ReadyReplicas? {
    } else {
      EnvironmentKeepsWorkloads(s, step, quantities);
      hide EnvironmentStore, FixedFields;
      SameObjects(s, EnvironmentStore(s, step, quantities), k);
    }
  }

  lemma StepFixes(st: State, step: Step, k: string)
    requires Inv(st)
    ensures FixedFields(st.store, Next(st, step).store, k)
  {
    assert SelectorsMatch(st.store);
    hide Inv, SelectorsMatch, PlatformNext, ServiceNext, EnvironmentStore, FixedFields;
    if step.PlatformFetch? || step.PlatformStage? || step.PlatformPublish? {
      PlatformStepFixes(st, step, k);
    } else if step.ServiceFetch? || step.ServiceStage? || step.ServicePublish? || step.ServiceStatusWrite? {
      ServiceStepFixes(st, step, k);
    } else {
      EnvironmentFixes(st.store, step, st.quantities, k);
    }
  }

  /** Throughout a run, from step i on, an object of that name exists. */
  ghost predicate Lives(st: State, steps: seq<Step>, i: nat, k: string, sets: bool) {
    forall j {:trigger steps[..j]} :: i <= j <= |steps| ==>
      k in (if sets then Exec(st, steps[..j]).store.statefulSets.Keys else Exec(st, steps[..j]).store.deployments.Keys)
  }

  /**
   * Over any run from an empty namespace, as long as a Deployment (or StatefulSet) is not deleted
   * its create-only fields are the ones it was created with, and its selector selects its pods.
   */
  lemma {:induction false} FixedOverRuns(ns: string, quantities: iset<string>, steps: seq<Step>, i: nat, k: string, sets: bool)
    requires i <= |steps| && Lives(Empty(ns, quantities), steps, i, k, sets)
    ensures var s, t := Exec(Empty(ns, quantities), steps[..i]).store, Exec(Empty(ns, quantities), steps).store;
            if sets then
              && k in s.statefulSets && k in t.statefulSets
              && s.statefulSets[k].selector == t.statefulSets[k].selector
              && s.statefulSets[k].serviceName == t.statefulSets[k].serviceName
              && s.statefulSets[k].claims == t.statefulSets[k].claims
            else
              && k in s.deployments && k in t.deployments
              && s.deployments[k].selector == t.deployments[k].selector
    decreases |steps|
  {
    hide Next;
    var st0 := Empty(ns, quantities);
    assert steps[..|steps|] == steps;
    if i < |steps| {
      var front := steps[..|steps| - 1];
      forall j | i <= j <= |front|
        ensures k in (if sets then Exec(st0, front[..j]).store.statefulSets.Keys else Exec(st0, front[..j]).store.deployments.Keys)
      {
        assert front[..j] == steps[..j];
      }
      assert front[..i] == steps[..i];
      FixedOverRuns(ns, quantities, front, i, k, sets);
      Invariant(ns, quantities, front);
      StepFixes(Exec(st0, front), steps[|steps| - 1], k);
    }
  }

  lemma SelectorsMatchOverRuns(ns: string, quantities: iset<string>, steps: seq<Step>, n: string)
    ensures var s := Exec(Empty(ns, quantities), steps).store;
            && (DeploymentName(n) in s.deployments ==>
                  s.deployments[DeploymentName(n)].selector == Some(s.deployments[DeploymentName(n)].podLabels))
            && (WeaviateName(n) in s.statefulSets ==>
                  s.statefulSets[WeaviateName(n)].selector == s.statefulSets[WeaviateName(n)].podLabels)
  {
    hide Exec, DeploymentName, WeaviateName;
    Invariant(ns, quantities, steps);
  }

  // ---- the vector database's gate does not look at its pods ------------------------------------------

  predicate SameButReplicas(s: Store, t: Store) {
    && t == s.(statefulSets := t.statefulSets)
    && s.statefulSets.Keys == t.statefulSets.Keys
    && forall k :: k in s.statefulSets ==> t.statefulSets[k] == s.statefulSets[k].(readyReplicas := t.statefulSets[k].readyReplicas)
  }

  lemma {:induction false} UpsertsIgnoreSets(s: Store, t: Store, name: string, p: Platform, fs: seq<Feature>, failing: set<Call>)
    requires t == s.(statefulSets := t.statefulSets)
    ensures UpsertAll(t, name, p, fs, failing) ==
              (UpsertAll(s, name, p, fs, failing).0.(statefulSets := t.statefulSets), UpsertAll(s, name, p, fs, failing).1)
    decreases |fs|
  {
    hide ServiceValid, DefaultService, BuildService, ChildName;
    if fs != [] {
      UpsertIgnoresSets(s, t, name, p, fs[0], failing);
      hide Upsert;
      UpsertsIgnoreSets(Upsert(s, name, p, fs[0], failing).0, Upsert(t, name, p, fs[0], failing).0, name, p, fs[1..], failing);
    }
  }

  lemma UpsertIgnoresSets(s: Store, t: Store, name: string, p: Platform, f: Feature, failing: set<Call>)
    requires t == s.(statefulSets := t.statefulSets)
    ensures Upsert(t, name, p, f, failing) ==
              (Upsert(s, name, p, f, failing).0.(statefulSets := t.statefulSets), Upsert(s, name, p, f, failing).1)
  {
    hide UpdateService, CreateService, BuildService, ChildName;
    var child := ChildName(name, f.name);
    CreateIgnoresSets(s, t, child, NewChildMeta(name, f), BuildService(name, s.ns, p, f));
    if child in s.services {
      UpdateIgnoresSets(s, t, child, Desired(s.services[child], s.ns, name, p, f));
    }
  }

  lemma UpdateIgnoresSets(s: Store, t: Store, n: string, v: Service)
    requires t == s.(statefulSets := t.statefulSets)
    ensures UpdateService(t, n, v) == (UpdateService(s, n, v).0.(statefulSets := t.statefulSets), UpdateService(s, n, v).1)
  {
    hide ServiceUpdateValid, DefaultService;
  }

  lemma CreateIgnoresSets(s: Store, t: Store, n: string, m: Meta, v: ServiceSpec)
    requires t == s.(statefulSets := t.statefulSets)
    ensures CreateService(t, n, m, v) == (CreateService(s, n, m, v).0.(statefulSets := t.statefulSets), CreateService(s, n, m, v).1)
  {
    hide ServiceValid, DefaultService;
  }

  lemma FeaturesIgnoreSets(s: Store, t: Store, name: string, p: Platform, failing: set<Call>, reached: set<string>)
    requires t == s.(statefulSets := t.statefulSets)
    ensures ReconcileFeatures(t, name, p, failing, reached) ==
              (ReconcileFeatures(s, name, p, failing, reached).0.(statefulSets := t.statefulSets),
               ReconcileFeatures(s, name, p, failing, reached).1)
  {
    hide UpsertAll, DesiredNames;
    UpsertsIgnoreSets(s, t, name, p, p.spec.features, failing);
    var s1, t1 := UpsertAll(s, name, p, p.spec.features, failing).0, UpsertAll(t, name, p, p.spec.features, failing).0;
    assert Owned(s1, name) == Owned(t1, name);
  }

  lemma WeaviateIgnoresReplicas(s: Store, t: Store, name: string, p: Platform, w: P.World)
    requires SameButReplicas(s, t)
    ensures SameButReplicas(P.ReconcileWeaviate(s, name, p, w).0, P.ReconcileWeaviate(t, name, p, w).0)
    ensures P.ReconcileWeaviate(s, name, p, w).1 == P.ReconcileWeaviate(t, name, p, w).1
  {
    hide WeaviateName, P.WeaviateLabels, P.Claims, SameButReplicas, P.WeaviateUpserted;
    var key := WeaviateName(name);
    var s1, t1 := s.(serviceAccounts := s.serviceAccounts + {key}), t.(serviceAccounts := t.serviceAccounts + {key});
    assert SameButReplicas(s1, t1) && s.serviceAccounts == t.serviceAccounts by { AccountsApart(s, t, key); }
    PutReplicas(s1, t1, name, s, t, p);
  }

  lemma AccountsApart(s: Store, t: Store, key: string)
    requires SameButReplicas(s, t)
    ensures s.serviceAccounts == t.serviceAccounts
    ensures SameButReplicas(s.(serviceAccounts := s.serviceAccounts + {key}), t.(serviceAccounts := t.serviceAccounts + {key}))
  {
  }

  lemma PutReplicas(s: Store, t: Store, name: string, s0: Store, t0: Store, p: Platform)
    requires SameButReplicas(s, t) && s0.statefulSets == s.statefulSets && t0.statefulSets == t.statefulSets
    ensures var key := WeaviateName(name);
            SameButReplicas(s.(statefulSets := s.statefulSets[key := P.WeaviateUpserted(s0, name, p)]),
                            t.(statefulSets := t.statefulSets[key := P.WeaviateUpserted(t0, name, p)]))
  {
    hide WeaviateName, P.WeaviateLabels, P.Claims;
    var a, b := P.WeaviateUpserted(s0, name, p), P.WeaviateUpserted(t0, name, p);
    assert b == a.(readyReplicas := b.readyReplicas);
    hide P.WeaviateUpserted;
  }

  lemma ChildStagesIgnoreReplicas(s: Store, t: Store, name: string, p: Platform, w: P.World)
    requires SameButReplicas(s, t)
    ensures SameButReplicas(ReconcileFeatures(s, name, p, w.failing, w.reached).0, ReconcileFeatures(t, name, p, w.failing, w.reached).0)
    ensures ReconcileFeatures(s, name, p, w.failing, w.reached).1 == ReconcileFeatures(t, name, p, w.failing, w.reached).1
    ensures CheckChildren(s, name, w.failing) == CheckChildren(t, name, w.failing) && P.Listing(s, name) == P.Listing(t, name)
  {
    hide ReconcileFeatures, HasError;
    FeaturesIgnoreSets(s, t, name, p, w.failing, w.reached);
    FeaturesFrame(s, name, p, w.failing, w.reached);
    assert Owned(s, name) == Owned(t, name);
  }

  lemma ExecuteIgnoresReplicas(st: P.Stage, s: Store, t: Store, name: string, p: Platform, w: P.World)
    requires SameButReplicas(s, t)
    ensures var (s1, p1, o1) := P.Execute(st, s, name, p, w);
            var (t1, q1, u1) := P.Execute(st, t, name, p, w);
            p1 == q1 && o1 == u1 && SameButReplicas(s1, t1)
  {
    assert s.ns == t.ns && (WeaviateName(name) in s.statefulSets <==> WeaviateName(name) in t.statefulSets);
    hide ReconcileFeatures, P.ReconcileWeaviate, P.ValidatePlatform, P.CollectRay, WeaviateName, SameButReplicas, CheckChildren;
    match st {
      case Validate => ValidateReadsNamespace(s, t, p, w);
      case WeaviateDatabase => WeaviateIgnoresReplicas(s, t, name, p, w);
      case AIService => ChildStagesIgnoreReplicas(s, t, name, p, w);
      case AIServiceStatus => ChildStagesIgnoreReplicas(s, t, name, p, w);
      case _ =>
    }
  }

  lemma StageIgnoresReplicas(s: Store, t: Store, r: P.Run, w: P.World)
    requires SameButReplicas(s, t) && !P.Stopped(r)
    ensures var (s1, q) := P.StageStep(s, r, w);
            var (t1, q1) := P.StageStep(t, r, w);
            q1 == q && SameButReplicas(s1, t1)
  {
    hide P.Execute, SameButReplicas, P.Listing;
    ExecuteIgnoresReplicas(P.STAGES[r.next], s, t, r.name, r.p, w);
    ChildStagesIgnoreReplicas(s, t, r.name, r.p, w);
  }

  lemma ValidateReadsNamespace(s: Store, t: Store, p: Platform, w: P.World)
    requires s.ns == t.ns
    ensures P.ValidatePlatform(s, p, w) == P.ValidatePlatform(t, p, w)
  {
    hide Enrich;
  }

  /**
   * What a platform publishes does not depend on how many pods of its vector database are ready:
   * two stores that differ only there lead to the same run, conditions included.
   */
  lemma {:induction false} RunIgnoresReplicas(s: Store, t: Store, r: P.Run, w: P.World)
    requires SameButReplicas(s, t)
    ensures P.Finish(s, r, w).1 == P.Finish(t, r, w).1
    decreases |P.STAGES| - r.next
  {
    hide P.StageStep, SameButReplicas;
    if !P.Stopped(r) {
      StageIgnoresReplicas(s, t, r, w);
      P.StepAdvances(s, r, w);
      RunIgnoresReplicas(P.StageStep(s, r, w).0, P.StageStep(t, r, w).0, P.StageStep(s, r, w).1, w);
    }
  }
}
