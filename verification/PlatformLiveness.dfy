/** What one uninterrupted reconcile of a platform achieves when its infrastructure stages succeed. */
module PlatformLiveness {
  import opened Api
  import opened Names
  import opened Admission
  import opened ApiServer
  import opened Features
  import opened StageRunner
  import opened Protocol
  import opened Turns
  import P = PlatformRun
  import S = SaiaRun

  predicate WorldOk(w: P.World) {
    && w.weaviateImage != "" && w.failing == {}
    && w.sidecars.Ok? && w.rbac.Ok? && w.rayService.Ok? && w.ingress.Ok? && w.ingressStatus.Ok?
    && w.ray.Some? && w.ray.value.headService != ""
  }

  /** The child of f either does not exist or may be rewritten for this platform. */
  predicate Upsertable(s: Store, name: string, p: PlatformSpec, f: Feature) {
    var n := ChildName(name, f.name);
    n in s.services ==>
      var v := s.services[n];
      Claimable(v.meta, PlatformOwner(name)) && v.spec.platformRef.name == name && v.spec.taskVolume.path == p.objectStorage.path
  }

  predicate AllUpsertable(s: Store, name: string, p: PlatformSpec, fs: seq<Feature>) {
    forall i :: 0 <= i < |fs| ==> Upsertable(s, name, p, fs[i])
  }

  /** An admitted platform whose configuration resolves. */
  ghost predicate Startable(s: Store, name: string, w: P.World, quantities: iset<string>) {
    && name != "" && name in s.platforms
    && var p := s.platforms[name];
    && !p.meta.deleting
    && PlatformValid(p.spec, quantities) && p.spec == DefaultPlatform(p.spec)
    && Enrich(p.spec.splunk, s.ns, p.spec.clusterDomain, w.splunk).1.Ok?
  }

  /** Besides, admission will accept its children. */
  ghost predicate PlatformOk(s: Store, name: string, w: P.World, quantities: iset<string>) {
    && Startable(s, name, w, quantities)
    && var p := s.platforms[name];
    && ChildAdmissible(p.spec)
    && FeatureNamesDistinct(p.spec.features)
    && AllUpsertable(s, name, p.spec, p.spec.features)
  }

  /** The reconciler's copy of the platform when it starts to build children. */
  function Prepared(s: Store, name: string, w: P.World): Platform
    requires name in s.platforms && w.ray.Some?
  {
    var p := P.ValidatePlatform(s, s.platforms[name], w).0;
    p.(status := p.status.(
         rayServiceName := if w.ray.value.headService != "" then w.ray.value.headService else p.status.rayServiceName,
         rayServiceStatus := if w.ray.value.running then "Running" else "Pending",
         vectorDbServiceName := WeaviateName(name)))
  }

  // ---- the infrastructure stages ------------------------------------------------------------

  /** A run before its child stages: everything passed, AIServices and platforms untouched. */
  predicate Midway(s: Store, t: Store, r: P.Run, w: P.World) {
    && r.name in s.platforms && w.ray.Some?
    && P.WellFormed(r) && r.outcome.Ok? && r.next <= 9
    && t == s.(statefulSets := t.statefulSets, serviceAccounts := t.serviceAccounts)
    && (r.next > 4 ==> WeaviateName(r.name) in t.statefulSets)
    && (if r.next == 0 then r.p == s.platforms[r.name]
        else
          var v := P.ValidatePlatform(s, s.platforms[r.name], w).0;
          if r.next <= 6 then r.p == v
          else if r.next == 7 then r.p == P.CollectRay(v, w).0
          else r.p == Prepared(s, r.name, w))
  }

  lemma StagePasses(s: Store, t: Store, r: P.Run, w: P.World, quantities: iset<string>)
    requires Startable(s, r.name, w, quantities) && WorldOk(w) && Midway(s, t, r, w) && r.next < 9
    ensures var (u, q) := P.StageStep(t, r, w);
            Midway(s, u, q, w)
  {
    if r.next == 0 {
      FirstStage(s, t, r, w, quantities);
    } else {
      P.StepWellFormed(t, r, w);
      hide Startable, P.WellFormed, P.ValidatePlatform, P.Execute, WeaviateName;
      InfrastructureStage(s, t, r, w);
      var (u, q) := P.StageStep(t, r, w);
      assert q.name == r.name && q.next == r.next + 1;
    }
  }

  /** What one infrastructure stage after the first does in a world where nothing fails. */
  lemma InfrastructureStage(s: Store, t: Store, r: P.Run, w: P.World)
    requires WorldOk(w) && Midway(s, t, r, w) && 0 < r.next < 9
    ensures var (u, p, o) := P.Execute(P.STAGES[r.next], t, r.name, r.p, w);
            && o.Ok? && u == t.(statefulSets := u.statefulSets, serviceAccounts := u.serviceAccounts)
            && t.statefulSets.Keys <= u.statefulSets.Keys
            && (r.next == 4 ==> WeaviateName(r.name) in u.statefulSets)
            && (if r.next == 6 then p == P.CollectRay(r.p, w).0
                else if r.next == 7 then p == Prepared(s, r.name, w)
                else p == r.p)
  {
    hide P.WellFormed, P.ValidatePlatform, P.WeaviateUpserted, ReconcileFeatures, CheckChildren, WeaviateName;
  }

  lemma FirstStage(s: Store, t: Store, r: P.Run, w: P.World, quantities: iset<string>)
    requires Startable(s, r.name, w, quantities) && WorldOk(w) && Midway(s, t, r, w) && r.next == 0
    ensures var (u, q) := P.StageStep(t, r, w);
            Midway(s, u, q, w)
  {
    hide Enrich, P.WellFormed, FeaturesValid, SplunkValid, VectorDbValid, IngressValid, PlatformMtlsValid, DefaultPlatform, ChildAdmissible,
      WeaviateName, AllUpsertable, FeatureNamesDistinct;
    P.StepWellFormed(t, r, w);
    var p := s.platforms[r.name];
    assert p.spec.objectStorage.path != "" by {
      assert StorageValid(p.spec.objectStorage);
      var i :| 0 <= i < |STORAGE_PREFIXES| && HasPrefix(p.spec.objectStorage.path, STORAGE_PREFIXES[i]);
      assert STORAGE_PREFIXES[i] != "";
    }
    hide StorageValid;
  }

  lemma {:induction false} InfrastructurePasses(s: Store, t: Store, r: P.Run, w: P.World, quantities: iset<string>)
    requires Startable(s, r.name, w, quantities) && WorldOk(w) && Midway(s, t, r, w)
    ensures exists u: Store, q: P.Run :: Midway(s, u, q, w) && q.next == 9 && q.name == r.name && P.Finish(t, r, w) == P.Finish(u, q, w)
    decreases |P.STAGES| - r.next
  {
    hide Startable, WorldOk, P.StageStep;
    assert r.next <= 9 && r.outcome.Ok? by { hide P.WellFormed, P.ValidatePlatform, Prepared; }
    hide Midway;
    if r.next == 9 {
      assert Midway(s, t, r, w) && P.Finish(t, r, w) == P.Finish(t, r, w);
    } else {
      StagePasses(s, t, r, w, quantities);
      P.StepAdvances(t, r, w);
      var (u, q) := P.StageStep(t, r, w);
      InfrastructurePasses(s, u, q, w, quantities);
    }
  }

  /** The same in the machine: up to nine stages from a run on its way leave it on its way. */
  lemma {:induction false} StagesPass(st: State, s: Store, w: P.World, quantities: iset<string>, k: nat)
    requires st.platformRun.Some? && WorldOk(w)
    requires var r := st.platformRun.value;
             Startable(s, r.name, w, quantities) && Midway(s, st.store, r, w) && r.next + k <= 9
    ensures var u := Exec(st, PlatformStages(w, k));
            && u == st.(store := u.store, platformRun := u.platformRun) && u.platformRun.Some?
            && Midway(s, u.store, u.platformRun.value, w)
            && u.platformRun.value.next == st.platformRun.value.next + k && u.platformRun.value.name == st.platformRun.value.name
    decreases k
  {
    hide Startable, WorldOk, P.StageStep;
    if k == 0 {
      assert PlatformStages(w, 0) == [];
    } else {
      var all := PlatformStages(w, k);
      assert all[..k - 1] == PlatformStages(w, k - 1) && all[k - 1] == PlatformStage(w);
      StagesPass(st, s, w, quantities, k - 1);
      var u := Exec(st, PlatformStages(w, k - 1));
      MidwayRuns(s, u.store, u.platformRun.value, w);
      hide Midway;
      StagePasses(s, u.store, u.platformRun.value, w, quantities);
      P.StepAdvances(u.store, u.platformRun.value, w);
    }
  }

  lemma MidwayRuns(s: Store, t: Store, r: P.Run, w: P.World)
    requires Midway(s, t, r, w)
    ensures !P.Stopped(r)
  {
    hide P.WellFormed, P.ValidatePlatform, Prepared;
  }

  // ---- the child stages ---------------------------------------------------------------------

  lemma UpsertPasses(s: Store, name: string, p: Platform, f: Feature, g: Feature)
    requires Upsertable(s, name, p.spec, f) && Upsertable(s, name, p.spec, g)
    requires ServiceValid(DefaultService(BuildService(name, s.ns, p, f))) && Admitted(s) && NoZombies(s)
    ensures var (t, o) := Upsert(s, name, p, f, {});
            o.Ok? && Upsertable(t, name, p.spec, g)
  {
    BuildsFor(name, s.ns, p, f);
    hide ServiceValid, DefaultService, BuildService, ChildName, Admitted, NoZombies;
    assert Upsert(s, name, p, f, {}).1.Ok?;
    hide Upsert;
    UpsertWrites(s, name, p, f, {});
  }

  lemma BuildsFor(name: string, ns: string, p: Platform, f: Feature)
    ensures var v := DefaultService(BuildService(name, ns, p, f));
            v.platformRef == PlatformRef(name, ns) && v.taskVolume == p.spec.objectStorage
  {
  }

  lemma {:induction false} UpsertsPass(s: Store, name: string, p: Platform, fs: seq<Feature>)
    requires AllUpsertable(s, name, p.spec, fs) && Admitted(s) && NoZombies(s)
    requires forall i :: 0 <= i < |fs| ==> ServiceValid(DefaultService(BuildService(name, s.ns, p, fs[i])))
    ensures UpsertAll(s, name, p, fs, {}).1.Ok?
    decreases |fs|
  {
    hide Upsertable, Upsert, Admitted, NoZombies, ServiceValid, DefaultService, BuildService;
    if fs != [] {
      var s1 := Upsert(s, name, p, fs[0], {}).0;
      forall i | 0 <= i < |fs[1..]|
        ensures Upsertable(s1, name, p.spec, fs[1..][i])
        ensures ServiceValid(DefaultService(BuildService(name, s.ns, p, fs[1..][i])))
      {
        assert fs[1..][i] == fs[i + 1];
        UpsertPasses(s, name, p, fs[0], fs[i + 1]);
      }
      UpsertPasses(s, name, p, fs[0], fs[0]);
      UpsertKeeps(s, name, p, fs[0], {});
      UpsertsPass(s1, name, p, fs[1..]);
    }
  }

  /** The children the prepared platform builds are admitted, all of them or none. */
  lemma PreparedBuildsAdmitted(s: Store, name: string, w: P.World, quantities: iset<string>, f: Feature)
    requires Startable(s, name, w, quantities) && WorldOk(w)
    ensures ServiceValid(DefaultService(BuildService(name, s.ns, Prepared(s, name, w), f))) <==> ChildAdmissible(s.platforms[name].spec)
  {
    hide ServiceValid, DefaultService, PlatformValid, Enrich, DefaultPlatform, ChildAdmissible, AllUpsertable, FeatureNamesDistinct;
    var p := s.platforms[name];
    GeneratedChildAdmittedIff(name, s.ns, p.(status := p.status.(vectorDbServiceName := WeaviateName(name))), f, w.splunk, quantities);
    var enriched := Enrich(p.spec.splunk, s.ns, p.spec.clusterDomain, w.splunk).0;
    var q := Prepared(s, name, w);
    assert q.spec.splunk == enriched by {
      assert p.spec.objectStorage.path != "" by { AdmittedHasPath(p.spec, quantities); }
    }
    assert BuildService(name, s.ns, q, f)
        == BuildService(name, s.ns, p.(spec := p.spec.(splunk := enriched), status := p.status.(vectorDbServiceName := WeaviateName(name))), f);
  }

  lemma AdmittedHasPath(p: PlatformSpec, quantities: iset<string>)
    requires PlatformValid(p, quantities)
    ensures p.objectStorage.path != ""
  {
    var i :| 0 <= i < |STORAGE_PREFIXES| && HasPrefix(p.objectStorage.path, STORAGE_PREFIXES[i]);
    assert STORAGE_PREFIXES[i] != "";
  }

  /** The last two iterations: children are written and pruned, then inspected. */
  ghost predicate Ended(s: Store, u: Store, q: P.Run, w: P.World) {
    && q.name in s.platforms && w.ray.Some?
    && P.WellFormed(q) && q.next == |P.STAGES| && q.p == Prepared(s, q.name, w)
    && u.ns == s.ns && u.platforms == s.platforms && u.jobs == s.jobs && u.certificates == s.certificates
    && FeaturesSettled(s, u, q.name, q.p) && WroteChildren(s, u, q.name, q.p, w)
    && (if AnyError(u, q.name) then q.outcome.Fail? else q.outcome.Ok?)
  }

  /** The AIServices are what one run of ReconcileFeatures made of them. */
  ghost predicate WroteChildren(s: Store, u: Store, name: string, p: Platform, w: P.World) {
    exists t: Store :: t == s.(statefulSets := t.statefulSets, serviceAccounts := t.serviceAccounts)
                       && u.services == ReconcileFeatures(t, name, p, w.failing, w.reached).0.services
  }

  predicate AnyError(s: Store, name: string) {
    exists n :: n in Owned(s, name) && HasError(s.services[n].status.conditions)
  }

  lemma PreparedFits(s: Store, t: Store, name: string, w: P.World, quantities: iset<string>)
    requires PlatformOk(s, name, w, quantities) && WorldOk(w) && Admitted(s) && NoZombies(s)
    requires t == s.(statefulSets := t.statefulSets, serviceAccounts := t.serviceAccounts)
    ensures var p := Prepared(s, name, w);
            && AllUpsertable(t, name, p.spec, p.spec.features) && Admitted(t) && NoZombies(t)
            && forall i :: 0 <= i < |p.spec.features| ==> ServiceValid(DefaultService(BuildService(name, s.ns, p, p.spec.features[i])))
  {
    hide ServiceValid, DefaultService, BuildService, PlatformValid, DefaultPlatform, ChildAdmissible, Enrich, Prepared, SpecAdmitted;
    var p := Prepared(s, name, w);
    forall i | 0 <= i < |p.spec.features|
      ensures ServiceValid(DefaultService(BuildService(name, s.ns, p, p.spec.features[i])))
    {
      PreparedBuildsAdmitted(s, name, w, quantities, p.spec.features[i]);
    }
    PreparedKeeps(s, name, w);
  }

  lemma FeaturesPass(s: Store, t: Store, name: string, w: P.World, quantities: iset<string>)
    requires PlatformOk(s, name, w, quantities) && WorldOk(w) && Admitted(s) && NoZombies(s)
    requires t == s.(statefulSets := t.statefulSets, serviceAccounts := t.serviceAccounts)
    ensures var p := Prepared(s, name, w);
            var (u, o) := ReconcileFeatures(t, name, p, w.failing, w.reached);
            && o.Ok? && FeaturesSettled(s, u, name, p) && OnlyServicesChanged(t, u)
  {
    assert w.failing == {} && name in s.platforms && w.ray.Some?;
    hide ServiceValid, DefaultService, BuildService, PlatformOk, WorldOk, Prepared, AllUpsertable, Admitted, NoZombies, UpsertAll,
      FeaturesSettled, ReconcileFeatures;
    PreparedFits(s, t, name, w, quantities);
    var p := Prepared(s, name, w);
    UpsertsPass(t, name, p, p.spec.features);
    FeaturesSucceed(t, name, p, w);
    FeaturesConverge(t, name, p, w.failing, w.reached);
    SettledTransfers(s, t, ReconcileFeatures(t, name, p, w.failing, w.reached).0, name, p);
  }

  lemma FeaturesSucceed(t: Store, name: string, p: Platform, w: P.World)
    requires UpsertAll(t, name, p, p.spec.features, {}).1.Ok? && w.failing == {}
    ensures ReconcileFeatures(t, name, p, w.failing, w.reached).1.Ok?
  {
    hide UpsertAll, DesiredNames;
    var s1 := UpsertAll(t, name, p, p.spec.features, {}).0;
    assert (set n | n in Owned(s1, name) - DesiredNames(name, p.spec.features) && DeleteChild(n) in w.failing) == {};
  }

  lemma SettledTransfers(s: Store, t: Store, u: Store, name: string, p: Platform)
    requires t.services == s.services && FeaturesSettled(t, u, name, p)
    ensures FeaturesSettled(s, u, name, p)
  {
    hide Converged, DesiredNames, LastFor;
    assert Owned(s, name) == Owned(t, name);
  }

  lemma PreparedKeeps(s: Store, name: string, w: P.World)
    requires name in s.platforms && w.ray.Some?
    ensures var p, q := s.platforms[name], Prepared(s, name, w);
            && q.meta == p.meta && q.spec.features == p.spec.features && q.spec.objectStorage == p.spec.objectStorage
            && q.spec.mtls == p.spec.mtls && q.status.vectorDbServiceName == WeaviateName(name)
            && (w.ray.value.headService != "" ==> q.status.rayServiceName == w.ray.value.headService)
  {
    hide Enrich;
  }

  lemma RunEnds(s: Store, name: string, w: P.World, quantities: iset<string>)
    requires PlatformOk(s, name, w, quantities) && WorldOk(w) && Admitted(s) && NoZombies(s)
    ensures var (u, q) := P.Finish(s, P.Start(name, s.platforms[name]), w);
            Ended(s, u, q, w) && q.name == name
  {
    var r := P.Start(name, s.platforms[name]);
    assert Midway(s, s, r, w) by {
      hide P.ValidatePlatform, Prepared, Enrich, AllUpsertable, ChildAdmissible, PlatformValid;
      P.StartWellFormed(name, s.platforms[name]);
    }
    assert w.failing == {};
    hide PlatformOk, WorldOk, Midway, P.StageStep, Ended;
    InfrastructurePasses(s, s, r, w, quantities);
    var t: Store, q: P.Run :| Midway(s, t, q, w) && q.next == 9 && q.name == name && P.Finish(s, r, w) == P.Finish(t, q, w);
    ChildStages(s, t, q, w, quantities);
  }

  lemma ChildStages(s: Store, t: Store, r: P.Run, w: P.World, quantities: iset<string>)
    requires PlatformOk(s, r.name, w, quantities) && WorldOk(w) && Admitted(s) && NoZombies(s)
    requires Midway(s, t, r, w) && r.next == 9
    ensures var (u, q) := P.Finish(t, r, w);
            Ended(s, u, q, w) && q.name == r.name
  {
    MidwayEnd(s, t, r, w);
    assert w.failing == {};
    hide PlatformOk, WorldOk, Prepared, P.WellFormed, ReconcileFeatures, FeaturesSettled, WroteChildren, Midway, AnyError, CheckChildren;
    FeaturesPass(s, t, r.name, w, quantities);
    P.StepWellFormed(t, r, w);
    FeatureStageIs(t, r, w);
    hide P.StageStep, P.Finish;
    var (u, q) := P.StageStep(t, r, w);
    WroteFrom(s, t, u, r.name, r.p, w);
    P.StepWellFormed(u, q, w);
    StatusStageIs(u, q, w);
    CheckChildrenIs(u, r.name);
  }

  lemma FeatureStageIs(t: Store, r: P.Run, w: P.World)
    requires r.next == 9 && r.outcome.Ok?
    ensures var (u, q) := P.StageStep(t, r, w);
            && u == ReconcileFeatures(t, r.name, r.p, w.failing, w.reached).0
            && q.outcome == ReconcileFeatures(t, r.name, r.p, w.failing, w.reached).1
            && q.next == 10 && q.p == r.p && q.name == r.name && P.Finish(t, r, w) == P.Finish(u, q, w)
  {
    hide ReconcileFeatures, P.Listing;
    assert P.STAGES[9] == P.AIService;
  }

  lemma StatusStageIs(t: Store, r: P.Run, w: P.World)
    requires r.next == 10 && r.outcome.Ok?
    ensures var (u, q) := P.StageStep(t, r, w);
            && u == t && q.outcome == CheckChildren(t, r.name, w.failing)
            && q.next == 11 && q.p == r.p && q.name == r.name && P.Finish(t, r, w) == (u, q)
  {
    hide CheckChildren, P.Listing;
    assert P.STAGES[10] == P.AIServiceStatus;
    var (u, q) := P.StageStep(t, r, w);
    assert P.Stopped(q) && P.Finish(u, q, w) == (u, q);
  }

  lemma MidwayEnd(s: Store, t: Store, r: P.Run, w: P.World)
    requires Midway(s, t, r, w) && r.next == 9
    ensures r.name in s.platforms && w.ray.Some? && P.WellFormed(r) && r.outcome.Ok? && r.p == Prepared(s, r.name, w)
    ensures t == s.(statefulSets := t.statefulSets, serviceAccounts := t.serviceAccounts)
  {
    hide P.WellFormed, Prepared, P.ValidatePlatform;
  }

  lemma WroteFrom(s: Store, t: Store, u: Store, name: string, p: Platform, w: P.World)
    requires t == s.(statefulSets := t.statefulSets, serviceAccounts := t.serviceAccounts)
    requires u == ReconcileFeatures(t, name, p, w.failing, w.reached).0
    ensures WroteChildren(s, u, name, p, w)
  {
    hide ReconcileFeatures;
  }

  lemma CheckChildrenIs(s: Store, name: string)
    ensures if AnyError(s, name) then CheckChildren(s, name, {}).Fail? else CheckChildren(s, name, {}).Ok?
  {
    hide HasError;
  }

  // ---- the whole turn -----------------------------------------------------------------------

  ghost predicate TurnOutcome(s: Store, t: Store, name: string, w: P.World) {
    && name in s.platforms && name in t.platforms && w.ray.Some?
    && t.ns == s.ns && t.jobs == s.jobs && t.certificates == s.certificates
    && t.platforms == s.platforms[name := t.platforms[name]]
    && t.platforms[name].spec == s.platforms[name].spec
    && t.platforms[name].meta == s.platforms[name].meta.(version := t.platforms[name].meta.version)
    && S.GateError(t, PlatformRef(name, t.ns)).None?
    && FeaturesSettled(s, t, name, Prepared(s, name, w)) && WroteChildren(s, t, name, Prepared(s, name, w), w)
    && (IsConditionTrue(t.platforms[name].status.conditions, "Ready") <==> !AnyError(t, name))
  }

  lemma TurnOutcomeIs(s: Store, t: Store, name: string, w: P.World)
    requires TurnOutcome(s, t, name, w)
    ensures name in s.platforms && name in t.platforms && w.ray.Some? && t.ns == s.ns
    ensures t.platforms[name].spec == s.platforms[name].spec
    ensures FeaturesSettled(s, t, name, Prepared(s, name, w)) && WroteChildren(s, t, name, Prepared(s, name, w), w)
  {
    hide FeaturesSettled, WroteChildren, Prepared, S.GateError, IsConditionTrue, AnyError;
  }

  lemma GateOpens(s: Store, t: Store, name: string, w: P.World)
    requires TurnOutcome(s, t, name, w)
    ensures S.GateError(t, PlatformRef(name, t.ns)).None? && t.jobs == s.jobs
  {
    hide FeaturesSettled, WroteChildren, Prepared, S.GateError, IsConditionTrue, AnyError;
  }

  /**
   * One uninterrupted platform reconcile whose infrastructure succeeds opens the gates its children
   * wait on, whether or not a child is failing; it converges the children, and it publishes
   * Ready=True exactly when no owned child shows an error. There is no circular wait.
   */
  lemma PlatformTurnOutcome(st: State, name: string, w: P.World)
    requires st.platformRun.None? && PlatformOk(st.store, name, w, st.quantities) && WorldOk(w)
    requires Admitted(st.store) && NoZombies(st.store)
    ensures var u := Exec(st, PlatformTurn(name, w));
            u == st.(store := u.store) && TurnOutcome(st.store, u.store, name, w)
  {
    assert name in st.store.platforms && !st.store.platforms[name].meta.deleting;
    PreparedKeeps(st.store, name, w);
    assert w.ray.value.headService != "";
    hide PlatformOk, WorldOk, TurnOutcome, Ended, P.Finish, Exec, Admitted, NoZombies, PublishPlatform;
    PlatformTurnIs(st, name, w);
    RunEnds(st.store, name, w, st.quantities);
    var (u, q) := P.Finish(st.store, P.Start(name, st.store.platforms[name]), w);
    PublishedOutcome(st.store, u, q, w);
  }

  lemma PublishedOutcome(s: Store, u: Store, q: P.Run, w: P.World)
    requires Ended(s, u, q, w) && w.ray.Some? && w.ray.value.headService != ""
    ensures TurnOutcome(s, PublishPlatform(u, q.name, P.PublishedStatus(q), true), q.name, w)
  {
    PreparedKeeps(s, q.name, w);
    hide Prepared, P.WellFormed, IsConditionTrue, FeaturesSettled, WroteChildren, AnyError, S.GateError, WeaviateName;
    var t := PublishPlatform(u, q.name, P.PublishedStatus(q), true);
    EndedReads(q);
    SettledOfServices(s, u, t, q.name, q.p);
    WroteSame(s, u, t, q.name, q.p, w);
    ErrorsSame(u, t, q.name);
    assert WeaviateName(q.name) != "" by { WeaviateNamed(q.name); }
    GateOpen(t, q.name);
  }

  lemma WeaviateNamed(name: string)
    ensures WeaviateName(name) != ""
  {
  }

  lemma ErrorsSame(u: Store, t: Store, name: string)
    requires t.services == u.services
    ensures AnyError(u, name) == AnyError(t, name)
  {
    hide HasError;
    assert Owned(u, name) == Owned(t, name);
  }

  lemma GateOpen(t: Store, name: string)
    requires name in t.platforms
    requires var st := t.platforms[name].status;
             && IsConditionTrue(st.conditions, "RayServiceStatusReady") && IsConditionTrue(st.conditions, "WeaviateDatabaseStatusReady")
             && st.rayServiceName != "" && st.vectorDbServiceName != ""
    ensures S.GateError(t, PlatformRef(name, t.ns)).None?
  {
    hide IsConditionTrue;
  }

  lemma WroteSame(s: Store, u: Store, t: Store, name: string, p: Platform, w: P.World)
    requires WroteChildren(s, u, name, p, w) && t.services == u.services
    ensures WroteChildren(s, t, name, p, w)
  {
    hide ReconcileFeatures;
  }

  /** The list of a run that came to its last stage: both gates open, Ready as the last stage says. */
  lemma EndedReads(q: P.Run)
    requires P.WellFormed(q) && q.next == |P.STAGES| && !q.outcome.Panic?
    ensures IsConditionTrue(q.conditions, "RayServiceStatusReady") && IsConditionTrue(q.conditions, "WeaviateDatabaseStatusReady")
    ensures IsConditionTrue(q.conditions, "Ready") <==> q.outcome.Ok?
  {
    hide Published, IsConditionTrue;
    P.LabelsDistinct();
    ReadPublished(P.LABELS, q.conditions, q.next, q.outcome);
    assert IsConditionTrue(q.conditions, P.LABELS[6]) && IsConditionTrue(q.conditions, P.LABELS[7]);
  }

  lemma SettledOfServices(s: Store, t: Store, u: Store, name: string, p: Platform)
    requires FeaturesSettled(s, t, name, p) && u.services == t.services && u.ns == t.ns
    ensures FeaturesSettled(s, u, name, p)
  {
    hide DesiredNames, LastFor, ConvergedValue, ChildWritten, Carried, NewBorn;
    assert Owned(t, name) == Owned(u, name);
    assert forall f, n :: ConvergedValue(n, name, t.ns, p, f) == ConvergedValue(n, name, u.ns, p, f);
  }

  // ---- a platform whose children are refused ------------------------------------------------------

  /** The platform was processed, but no child was written and Ready was not published. */
  ghost predicate TurnRefused(s: Store, t: Store, name: string) {
    && name in s.platforms && name in t.platforms
    && t == s.(platforms := t.platforms, statefulSets := t.statefulSets, serviceAccounts := t.serviceAccounts)
    && t.platforms[name].spec == s.platforms[name].spec
    && t.platforms[name].meta == s.platforms[name].meta.(version := t.platforms[name].meta.version)
    && !IsConditionTrue(t.platforms[name].status.conditions, "Ready")
  }

  lemma ChildStageRefused(s: Store, t: Store, r: P.Run, w: P.World, quantities: iset<string>)
    requires Startable(s, r.name, w, quantities) && WorldOk(w) && !ChildAdmissible(s.platforms[r.name].spec)
    requires Midway(s, t, r, w) && r.next == 9
    requires s.platforms[r.name].spec.features != [] && Admitted(s)
    ensures var (u, q) := P.Finish(t, r, w);
            && u == t && q.name == r.name && !q.outcome.Ok? && P.WellFormed(q)
  {
    var f := s.platforms[r.name].spec.features[0];
    PreparedBuildsAdmitted(s, r.name, w, quantities, f);
    PreparedKeeps(s, r.name, w);
    P.StepWellFormed(t, r, w);
    assert w.failing == {};
    MidwayEnd(s, t, r, w);
    SameServicesAdmitted(s, t);
    hide Startable, WorldOk, Prepared, P.WellFormed, ServiceValid, DefaultService, BuildService, P.ValidatePlatform, P.CollectRay, ChildName,
      Upsert, Admitted, Midway;
    UpsertRefused(t, r.name, r.p, f, {});
    assert UpsertAll(t, r.name, r.p, r.p.spec.features, {}).1.Fail? && UpsertAll(t, r.name, r.p, r.p.spec.features, {}).0 == t;
    hide P.StageStep, P.Finish, UpsertAll;
    FeatureStageIs(t, r, w);
    FailedStageEnds(P.StageStep(t, r, w).0, P.StageStep(t, r, w).1, w);
  }

  lemma FailedStageEnds(s: Store, r: P.Run, w: P.World)
    requires !r.outcome.Ok?
    ensures P.Finish(s, r, w) == (s, r)
  {
  }

  lemma SameServicesAdmitted(s: Store, t: Store)
    requires Admitted(s) && t.services == s.services
    ensures Admitted(t)
  {
    hide SpecAdmitted;
  }

  lemma RefusedPublishes(s: Store, t: Store, q: P.Run)
    requires q.name in s.platforms && t == s.(statefulSets := t.statefulSets, serviceAccounts := t.serviceAccounts)
    requires P.WellFormed(q) && !q.outcome.Ok?
    ensures TurnRefused(s, PublishPlatform(t, q.name, P.PublishedStatus(q), true), q.name)
  {
    hide IsConditionTrue, Published;
    P.LabelsDistinct();
    ReadPublished(P.LABELS, q.conditions, q.next, q.outcome);
  }

  /**
   * If admission refuses the children, whether or not they are already stored, or the Splunk
   * configuration does not resolve, a turn writes no child and does not end Ready.
   */
  lemma RefusedTurn(st: State, name: string, w: P.World)
    requires st.platformRun.None? && name in st.store.platforms && !st.store.platforms[name].meta.deleting && WorldOk(w)
    requires var p := st.store.platforms[name].spec;
             && PlatformValid(p, st.quantities) && p == DefaultPlatform(p) && name != ""
             && p.features != [] && Admitted(st.store)
             && (Enrich(p.splunk, st.store.ns, p.clusterDomain, w.splunk).1.Ok? ==> !ChildAdmissible(p))
    ensures var u := Exec(st, PlatformTurn(name, w));
            u == st.(store := u.store) && TurnRefused(st.store, u.store, name)
  {
    var s, p := st.store, st.store.platforms[name].spec;
    var r := P.Start(name, s.platforms[name]);
    P.StartWellFormed(name, s.platforms[name]);
    assert Midway(s, s, r, w) by { hide P.ValidatePlatform, Prepared, Enrich, PlatformValid, P.WellFormed; }
    if Enrich(p.splunk, s.ns, p.clusterDomain, w.splunk).1.Ok? {
      assert Startable(s, name, w, st.quantities);
      hide Startable, WorldOk, Midway, P.StageStep, P.Finish, Exec, PlatformValid, DefaultPlatform, ChildAdmissible, TurnRefused, PublishPlatform;
      InfrastructurePasses(s, s, r, w, st.quantities);
      var t: Store, q: P.Run :| Midway(s, t, q, w) && q.next == 9 && q.name == name && P.Finish(s, r, w) == P.Finish(t, q, w);
      ChildStageRefused(s, t, q, w, st.quantities);
      MidwayFrame(s, t, q, w);
      PlatformTurnIs(st, name, w);
      RefusedPublishes(s, t, P.Finish(t, q, w).1);
    } else {
      FirstStageFails(s, r, w, st.quantities);
      hide Startable, WorldOk, Midway, P.Finish, Exec, PlatformValid, DefaultPlatform, ChildAdmissible, TurnRefused, PublishPlatform;
      PlatformTurnIs(st, name, w);
      RefusedPublishes(s, s, P.Finish(s, r, w).1);
    }
  }

  lemma MidwayFrame(s: Store, t: Store, r: P.Run, w: P.World)
    requires Midway(s, t, r, w)
    ensures t == s.(statefulSets := t.statefulSets, serviceAccounts := t.serviceAccounts)
  {
    hide P.ValidatePlatform, Prepared, P.WellFormed;
  }

  lemma FirstStageFails(s: Store, r: P.Run, w: P.World, quantities: iset<string>)
    requires r.name in s.platforms && r == P.Start(r.name, s.platforms[r.name])
    requires PlatformValid(s.platforms[r.name].spec, quantities)
    requires !Enrich(s.platforms[r.name].spec.splunk, s.ns, s.platforms[r.name].spec.clusterDomain, w.splunk).1.Ok?
    ensures var (u, q) := P.Finish(s, r, w);
            u == s && q.name == r.name && !q.outcome.Ok? && P.WellFormed(q)
  {
    AdmittedHasPath(s.platforms[r.name].spec, quantities);
    P.StartWellFormed(r.name, s.platforms[r.name]);
    P.StepWellFormed(s, r, w);
    hide Enrich, PlatformValid, P.WellFormed;
    var (u, q) := P.StageStep(s, r, w);
    assert u == s && !q.outcome.Ok?;
    assert P.Stopped(q);
  }
}
