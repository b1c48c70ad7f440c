/**
 * The store as the controllers use it: one object whose maps the API calls and the controllers
 * update in place. Every method is proved to do what its specification function says.
 */
module Cluster {
  import opened Api
  import opened Names
  import opened Admission
  import A = ApiServer
  import F = Features
  import StageRunner
  import opened Protocol
  import P = PlatformRun
  import S = SaiaRun
  import C = Controllers
  import E = StageEffects

  // ---- string lists ---------------------------------------------------------------------------------

  method ContainsString(xs: seq<string>, s: string) returns (found: bool)
    ensures found <==> s in xs
  {
    for i := 0 to |xs|
      invariant s !in xs[..i]
    {
      if xs[i] == s {
        return true;
      }
    }
    return false;
  }

  /** Every other entry survives, in order. */
  method RemoveString(xs: seq<string>, s: string) returns (out: seq<string>)
    ensures out == RemoveAll(xs, s)
  {
    out := [];
    for i := 0 to |xs|
      invariant out == RemoveAll(xs[..i], s)
    {
      assert xs[..i + 1] == xs[..i] + [xs[i]];
      RemoveAllConcat(xs[..i], [xs[i]], s);
      if xs[i] != s {
        out := out + [xs[i]];
      }
    }
    assert xs[..|xs|] == xs;
  }

  class Cluster {
    const ns: string
    var uids: nat
    var platforms: map<string, Platform>
    var services: map<string, Service>
    var jobs: map<string, Job>
    var deployments: map<string, Deployment>
    var statefulSets: map<string, StatefulSet>
    var certificates: map<string, Certificate>
    var serviceAccounts: set<string>

    /** The value of the store that every contract speaks about. */
    function Snapshot(): Store
      reads this
    {
      Store(ns, uids, platforms, services, jobs, deployments, statefulSets, certificates, serviceAccounts)
    }

    constructor (namespace: string)
      ensures Snapshot() == Empty(namespace, iset{}).store
    {
      ns, uids := namespace, 0;
      platforms, services, jobs := map[], map[], map[];
      deployments, statefulSets, certificates, serviceAccounts := map[], map[], map[], {};
    }

    // ---- API calls ------------------------------------------------------------------------------------

    method CreateService(name: string, meta: Meta, spec: ServiceSpec) returns (o: Outcome)
      modifies this
      ensures (Snapshot(), o) == A.CreateService(old(Snapshot()), name, meta, spec)
    {
      if name in services {
        return Fail("already exists");
      }
      var admitted := DefaultService(spec);
      if !ServiceValid(admitted) {
        return Fail("admission webhook denied the request");
      }
      services := services[name := Service(meta.(uid := uids, version := 0, deleting := false), admitted, ServiceStatus("", []))];
      uids := uids + 1;
      return Ok;
    }

    method UpdateService(name: string, v: Service) returns (o: Outcome)
      modifies this
      ensures (Snapshot(), o) == A.UpdateService(old(Snapshot()), name, v)
    {
      if name !in services {
        return Fail("not found");
      }
      var cur := services[name];
      if cur.meta.uid != v.meta.uid || cur.meta.version != v.meta.version {
        return Fail("conflict");
      }
      var admitted := DefaultService(v.spec);
      if !ServiceUpdateValid(cur.spec, admitted) {
        return Fail("admission webhook denied the request");
      }
      var stored := Service(v.meta, admitted, cur.status);
      if stored.meta.deleting && stored.meta.finalizers == [] {
        services := services - {name};
      } else if stored != cur {
        services := services[name := stored.(meta := v.meta.(version := v.meta.version + 1))];
      }
      return Ok;
    }

    method UpdateServiceStatus(name: string, v: Service, lands: bool) returns (o: Outcome)
      modifies this
      ensures (Snapshot(), o) == A.UpdateServiceStatus(old(Snapshot()), name, v, lands)
    {
      if !lands || name !in services || services[name].meta.uid != v.meta.uid || services[name].meta.version != v.meta.version {
        return Fail("status update lost");
      }
      var cur := services[name];
      services := services[name := cur.(status := v.status, meta := cur.meta.(version := cur.meta.version + 1))];
      return Ok;
    }

    method DeleteService(name: string)
      modifies this
      ensures Snapshot() == A.DeleteServices(old(Snapshot()), {name})
    {
      if name in services {
        var v := services[name];
        if v.meta.finalizers == [] {
          services := services - {name};
        } else if !v.meta.deleting {
          services := services[name := v.(meta := v.meta.(deleting := true, version := v.meta.version + 1))];
        }
      }
      assert services == A.DeleteServices(old(Snapshot()), {name}).services;
    }

    method UpdatePlatform(name: string, p: Platform, quantities: iset<string>) returns (o: Outcome)
      modifies this
      ensures (Snapshot(), o) == A.UpdatePlatform(old(Snapshot()), name, p, quantities)
    {
      if name !in platforms {
        return Fail("not found");
      }
      var cur := platforms[name];
      if cur.meta.uid != p.meta.uid || cur.meta.version != p.meta.version {
        return Fail("conflict");
      }
      var admitted := DefaultPlatform(p.spec);
      if !PlatformUpdateValid(cur.spec, admitted, quantities) {
        return Fail("admission webhook denied the request");
      }
      var stored := Platform(p.meta, admitted, cur.status);
      if stored.meta.deleting && stored.meta.finalizers == [] {
        platforms := platforms - {name};
      } else if stored != cur {
        platforms := platforms[name := stored.(meta := p.meta.(version := p.meta.version + 1))];
      }
      return Ok;
    }

    /** The deferred function: fetch the latest object, replace its status, ignore any error. */
    method PublishPlatform(name: string, status: PlatformStatus, lands: bool)
      modifies this
      ensures Snapshot() == A.PublishPlatform(old(Snapshot()), name, status, lands)
    {
      if !lands || name !in platforms {
        return;
      }
      var latest := platforms[name];
      latest := latest.(status := status);
      platforms := platforms[name := latest.(meta := latest.meta.(version := latest.meta.version + 1))];
    }

    // ---- features -------------------------------------------------------------------------------------

    /** CreateOrUpdate of one child: get, mutate, then create, update, or leave alone. */
    method UpsertService(name: string, p: Platform, f: Feature, failing: set<Call>) returns (o: Outcome)
      modifies this
      ensures (Snapshot(), o) == F.Upsert(old(Snapshot()), name, p, f, failing)
    {
      var child := ChildName(name, f.name);
      if UpsertChild(child) in failing {
        return Fail("client error");
      }
      if child !in services {
        o := CreateService(child, F.NewChildMeta(name, f), BuildService(name, ns, p, f));
        return;
      }
      var cur := services[child];
      if !Claimable(cur.meta, PlatformOwner(name)) {
        return Fail("already owned");
      }
      var svc := cur;
      svc := svc.(meta := svc.meta.(controller := Some(PlatformOwner(name))));
      svc := svc.(spec := BuildService(name, ns, p, f));
      svc := svc.(meta := svc.meta.(labels := svc.meta.labels["aiplatform" := name]));
      svc := svc.(meta := svc.meta.(labels := svc.meta.labels["feature" := f.name]));
      assert svc.meta.labels == cur.meta.labels + F.ChildLabels(name, f);
      if svc == cur {
        return Ok;
      }
      o := UpdateService(child, svc);
    }

    method ReconcileFeatures(name: string, p: Platform, failing: set<Call>) returns (o: Outcome, ghost reached: set<string>)
      modifies this
      ensures (Snapshot(), o) == F.ReconcileFeatures(old(Snapshot()), name, p, failing, reached)
      ensures o.Ok? && NoZombies(old(Snapshot())) && F.Admitted(old(Snapshot())) ==>
                forall n :: F.SettledByName(old(Snapshot()), Snapshot(), name, p, n)
    {
      hide F.SettledByName, NoZombies, F.Admitted;
      var fs := p.spec.features;
      var desired: set<string> := {};
      reached := {};
      assert fs[0..] == fs;
      for i := 0 to |fs|
        invariant desired == F.DesiredNames(name, fs[..i])
        invariant F.UpsertAll(Snapshot(), name, p, fs[i..], failing) == F.UpsertAll(old(Snapshot()), name, p, fs, failing)
      {
        DesiredNamesSnoc(name, fs, i);
        assert fs[i..][1..] == fs[i + 1..];
        desired := desired + {ChildName(name, fs[i].name)};
        o := UpsertService(name, p, fs[i], failing);
        if !o.Ok? {
          return;
        }
      }
      assert fs[..|fs|] == fs;
      if ListChildren in failing {
        return Fail("client error"), {};
      }
      o, reached := PruneChildren(name, desired, failing);
      if o.Ok? && NoZombies(old(Snapshot())) && F.Admitted(old(Snapshot())) {
        forall n ensures F.SettledByName(old(Snapshot()), Snapshot(), name, p, n) {
          F.FeaturesByName(old(Snapshot()), name, p, failing, reached, n);
        }
      }
    }

    method PruneChildren(name: string, desired: set<string>, failing: set<Call>) returns (o: Outcome, ghost reached: set<string>)
      modifies this
      ensures (Snapshot(), o) == F.Prune(old(Snapshot()), name, desired, failing, reached)
    {
      var children := set n | n in services && OwnedBy(services[n], name);
      ghost var doomed := children - desired;
      assert doomed == Owned(Snapshot(), name) - desired;
      ghost var blocked := set n | n in doomed && DeleteChild(n) in failing;
      reached := {};
      A.DeleteNothing(Snapshot());
      while children != {}
        invariant Snapshot() == A.DeleteServices(old(Snapshot()), reached)
        invariant reached == doomed - children && children <= Owned(old(Snapshot()), name)
        invariant reached * blocked == {}
        decreases children
      {
        var n :| n in children;
        ghost var before := reached;
        if n !in desired {
          if DeleteChild(n) in failing {
            assert n in blocked && (doomed - blocked) * reached == reached;
            return Fail("client error"), reached;
          }
          DeleteService(n);
          A.DeleteOneThenRest(old(Snapshot()), before, n);
          reached := reached + {n};
        }
        children := children - {n};
      }
      assert reached == doomed;
      return Ok, reached;
    }

    method CheckAIServiceStatus(name: string, failing: set<Call>) returns (o: Outcome)
      ensures o == F.CheckChildren(Snapshot(), name, failing)
    {
      if ListChildren in failing {
        return Fail("failed to list AIService children");
      }
      var children := set n | n in services && OwnedBy(services[n], name);
      ghost var seen: set<string> := {};
      while children != {}
        invariant seen + children == Owned(Snapshot(), name)
        invariant forall n :: n in seen ==> !HasError(services[n].status.conditions)
        decreases children
      {
        var n :| n in children;
        var conditions := services[n].status.conditions;
        for i := 0 to |conditions|
          invariant forall j :: 0 <= j < i ==> !IsErrorCondition(conditions[j])
        {
          if conditions[i].status == False && conditions[i].reason == "Error" {
            assert IsErrorCondition(conditions[i]) && n in Owned(Snapshot(), name);
            return Fail("AIService has failed condition");
          }
        }
        children := children - {n};
        seen := seen + {n};
      }
      return Ok;
    }

    // ---- deletion -------------------------------------------------------------------------------------

    /** Deletes every owned AIService, ignoring errors; done when the listing was empty. */
    method FinalizePlatform(name: string, failing: set<Call>) returns (done: bool, failed: bool)
      modifies this
      ensures failed <==> ListChildren in failing
      ensures !failed ==> (done <==> Owned(old(Snapshot()), name) == {})
      ensures Snapshot() == if failed then old(Snapshot())
              else A.DeleteServices(old(Snapshot()), set n | n in Owned(old(Snapshot()), name) && DeleteChild(n) !in failing)
    {
      A.DeleteNothing(Snapshot());
      if ListChildren in failing {
        return false, true;
      }
      var items := set n | n in services && OwnedBy(services[n], name);
      var rest := items;
      ghost var owned, gone := items, {};
      assert owned == Owned(Snapshot(), name);
      while rest != {}
        invariant rest <= owned
        invariant gone == (set n | n in owned - rest && DeleteChild(n) !in failing)
        invariant Snapshot() == A.DeleteServices(old(Snapshot()), gone)
        decreases rest
      {
        var n :| n in rest;
        rest := rest - {n};
        if DeleteChild(n) !in failing {
          DeleteService(n);
          A.DeleteOneThenRest(old(Snapshot()), gone, n);
          gone := gone + {n};
        }
      }
      assert gone == (set n | n in Owned(old(Snapshot()), name) && DeleteChild(n) !in failing);
      return items == {}, false;
    }

    // ---- platform stages ------------------------------------------------------------------------------

    /** Selector, service name and claims are set only when the StatefulSet has no UID yet. */
    method ReconcileWeaviateDatabase(name: string, p: Platform, w: P.World) returns (o: Outcome)
      modifies this
      ensures (Snapshot(), o) == P.ReconcileWeaviate(old(Snapshot()), name, p, w)
      ensures E.VectorLeft(old(Snapshot()), name, p, w, Snapshot(), o)
    {
      hide E.VectorLeft;
      E.VectorIs(Snapshot(), name, p, w);
      if w.weaviateImage == "" {
        return Fail("RELATED_IMAGE_WEAVIATE environment variable is required");
      }
      var key := WeaviateName(name);
      if WeaviateAccount in w.failing {
        return Fail("client error");
      }
      serviceAccounts := serviceAccounts + {key};
      if WeaviateSet in w.failing {
        return Fail("client error");
      }
      var exists_ := key in statefulSets;
      var sts := if exists_ then statefulSets[key] else StatefulSet(map[], "", [], map[], None, 0, 0);
      if !exists_ {
        sts := sts.(selector := P.WeaviateLabels(name), serviceName := key);
      }
      sts := sts.(replicas := 1, podLabels := P.WeaviateLabels(name));
      var claims: seq<Claim> := [];
      var vectorDb := p.spec.vectorDb;
      if vectorDb.pvcName != "" {
        sts := sts.(pvc := Some(vectorDb.pvcName));
      } else {
        var size := vectorDb.size;
        if size == "" {
          size := "50Gi";
        }
        claims := claims + [Claim(size, vectorDb.storageClass)];
      }
      if !exists_ {
        sts := sts.(claims := claims);
      }
      assert sts == P.WeaviateUpserted(old(Snapshot()), name, p);
      statefulSets := statefulSets[key := sts];
      if WeaviateService in w.failing {
        return Fail("client error");
      }
      return Ok;
    }

    /** One stage of the platform's list; only the AIService stage depends on the order of a listing. */
    method RunPlatformStage(st: P.Stage, name: string, p: Platform, w: P.World) returns (q: Platform, o: Outcome, ghost reached: set<string>)
      modifies this
      ensures (Snapshot(), q, o) == P.Execute(st, old(Snapshot()), name, p, w.(reached := reached))
    {
      q, reached := p, {};
      match st {
        case Validate => var r := P.ValidatePlatform(Snapshot(), p, w); q, o := r.0, r.1;
        case Sidecars => o := w.sidecars;
        case RayAutoscalerRbac => o := w.rbac;
        case RayService => o := w.rayService;
        case WeaviateDatabase => o := ReconcileWeaviateDatabase(name, p, w);
        case IngressStage => o := w.ingress;
        case RayServiceStatus => var r := P.CollectRay(p, w); q, o := r.0, r.1;
        case WeaviateDatabaseStatus => var r := P.WeaviateStatus(Snapshot(), name, p, w); q, o := r.0, r.1;
        case IngressStatus => o := w.ingressStatus;
        case AIService => o, reached := ReconcileFeatures(name, p, w.failing);
        case AIServiceStatus => o := CheckAIServiceStatus(name, w.failing);
      }
    }

    /** The stage loop and the deferred write after it. */
    method ReconcileStages(name: string, p: Platform, w: P.World, lands: bool) returns (o: Outcome, ghost reached: set<string>)
      modifies this
      ensures var (t, r) := P.Finish(old(Snapshot()), P.Start(name, p), w.(reached := reached));
              && Snapshot() == A.PublishPlatform(t, name, P.PublishedStatus(r), lands)
              && o == r.outcome
    {
      var conditions: seq<Condition> := [];
      var q := p;
      var i := 0;
      ghost var start, run := Snapshot(), P.Start(name, p);
      o, reached := Ok, {};
      while i < |P.STAGES| && o.Ok?
        invariant i <= |P.STAGES| && run == P.Run(name, q, i, conditions, o, run.listed)
        invariant forall x :: i <= 9 || x == reached ==> AsPromised(run, w, x, start, P.Start(name, p))
        decreases |P.STAGES| - i
      {
        ghost var before, was := Snapshot(), run;
        assert forall x :: i <= 9 || x == reached ==> AsPromisedAt(before, was, w, x, start, P.Start(name, p)) by {
          forall x | i <= 9 || x == reached ensures AsPromisedAt(before, was, w, x, start, P.Start(name, p)) {
            assert AsPromised(run, w, x, start, P.Start(name, p));
          }
        }
        ghost var order;
        q, o, order := RunPlatformStage(P.STAGES[i], name, q, w);
        if i == 9 {
          reached := order;
        }
        // no branch on a panic: the condition is appended only when the stage returned
        if o.Ok? {
          conditions := conditions + [StageRunner.PassedOne(P.LABELS[i])];
          if i + 1 == |P.STAGES| {
            conditions := conditions + [StageRunner.READY];
          }
        } else if o.Fail? {
          conditions := conditions + [StageRunner.FailedOne(P.LABELS[i], o.message)];
        }
        run := P.StageStep(before, was, w.(reached := order)).1;
        forall x | i < 9 || x == reached ensures AsPromised(run, w, x, start, P.Start(name, p)) {
          assert AsPromisedAt(before, was, w, x, start, P.Start(name, p));
          OneIteration(before, was, w, x, order);
          assert (Snapshot(), run) == P.StageStep(before, was, w.(reached := order));
        }
        i := i + 1;
      }
      assert AsPromised(run, w, reached, start, P.Start(name, p));
      PublishPlatform(name, q.status.(conditions := conditions), lands);
    }

    /** The AIPlatform controller: fetch, deletion flow or stages. */
    method ReconcilePlatform(name: string, w: P.World, c: C.CallWorld, quantities: iset<string>)
      returns (result: Result, ghost reached: set<string>)
      modifies this
      ensures (Snapshot(), result) == C.PlatformReconciled(old(Snapshot()), name, w.(reached := reached), c, quantities)
    {
      if !c.fetched {
        return Error, {};
      }
      if name !in platforms {
        return Done, {};
      }
      var p := platforms[name];
      if p.meta.deleting {
        var held := ContainsString(p.meta.finalizers, FINALIZER_PLATFORM);
        if held {
          ghost var s := Snapshot();
          var done, failed := FinalizePlatform(name, c.failing);
          if failed {
            return Error, {};
          } else if !done {
            return RequeueAfter, {};
          }
          assert (set n | n in Owned(s, name) && DeleteChild(n) !in c.failing) == {};
          A.DeleteNothing(s);
          if UpdateSpec in c.failing {
            return Error, {};
          }
          var finalizers := RemoveString(p.meta.finalizers, FINALIZER_PLATFORM);
          var o := UpdatePlatform(name, p.(meta := p.meta.(finalizers := finalizers)), quantities);
          return if o.Ok? then Done else Error, {};
        }
        return Done, {};
      }
      var o;
      o, reached := ReconcileStages(name, p, w, c.published);
      return if o.Ok? then Done else Error, reached;
    }

    // ---- SAIA stages -----------------------------------------------------------------------------------

    /** The URLs left empty are derived from the platform the copy refers to. */
    method FillEmptyUrls(v: ServiceSpec) returns (filled: ServiceSpec)
      requires v.platformRef.name in platforms
      ensures filled == S.FillUrls(Snapshot(), v)
    {
      hide ServiceFqdn;
      filled := v;
      var status := platforms[v.platformRef.name].status;
      if filled.platformUrl == "" {
        filled := filled.(platformUrl := ServiceFqdn(status.rayServiceName, v.platformRef.ns, v.clusterDomain) + ":8000");
      }
      if filled.vectorDbUrl == "" {
        filled := filled.(vectorDbUrl := ServiceFqdn(status.vectorDbServiceName, v.platformRef.ns, v.clusterDomain));
      }
    }

    method FillResources(v: ServiceSpec) returns (filled: ServiceSpec)
      ensures filled == S.DefaultResources(v)
    {
      filled := v;
      if filled.requests == map[] {
        filled := filled.(requests := map["cpu" := "500m", "memory" := "1Gi"]);
      }
      if filled.limits == map[] {
        filled := filled.(limits := map["cpu" := "1", "memory" := "2Gi"]);
      }
    }

    method HasTrueCondition(conditions: seq<Condition>, kind: string) returns (found: bool)
      ensures found <==> IsConditionTrue(conditions, kind)
    {
      for i := 0 to |conditions|
        invariant forall j :: 0 <= j < i ==> !(conditions[j].kind == kind && conditions[j].status == True)
      {
        if conditions[i].kind == kind && conditions[i].status == True {
          return true;
        }
      }
      return false;
    }

    /** Whether the platform a child names lets it go on, and otherwise what it lacks first. */
    method PlatformGate(ref: PlatformRef) returns (missing: Option<string>)
      ensures missing == S.GateError(Snapshot(), ref)
      ensures missing.None? <==> E.GateOpen(Snapshot(), ref)
      ensures missing.None? ==> ref.name in platforms
    {
      hide S.GateError;
      E.GateIs(Snapshot(), ref);
      var passes := ref.ns == ns && ref.name in platforms;
      if passes {
        var status := platforms[ref.name].status;
        var rayReady := HasTrueCondition(status.conditions, "RayServiceStatusReady");
        var vectorDbReady := HasTrueCondition(status.conditions, "WeaviateDatabaseStatusReady");
        passes := rayReady && status.rayServiceName != "" && vectorDbReady && status.vectorDbServiceName != "";
      }
      return if passes then None else S.GateError(Snapshot(), ref);
    }

    /** Validation fills the caller's copy in step by step; an early error keeps what was filled in. */
    method ValidateAIService(ai: Service, w: S.World) returns (filled: Service, o: Outcome)
      ensures (filled.spec, o) == S.ValidateSpec(Snapshot(), ai.spec, w) && filled == ai.(spec := filled.spec)
      ensures o.Ok? && ai.spec.platformRef.name != "" ==> E.GateOpen(Snapshot(), ai.spec.platformRef)
    {
      hide S.FillUrls, S.DefaultResources, Enrich, E.GateOpen, S.GateError;
      filled := ai;
      if w.hookImage == "" {
        return filled, Fail("RELATED_IMAGE_POST_INSTALL_HOOK must be set");
      }
      if ai.spec.platformRef.name == "" && ai.spec.platformUrl == "" {
        return filled, Fail("either AIPlatformRef.Name or AIPlatformUrl must be set");
      }
      if ai.spec.platformRef.name != "" {
        var gate := PlatformGate(ai.spec.platformRef);
        if gate.Some? {
          return filled, Fail(gate.value);
        }
        var urls := FillEmptyUrls(filled.spec);
        filled := filled.(spec := urls);
      }
      if filled.spec.platformUrl == "" {
        return filled, Fail("AIPlatformUrl must be set");
      }
      if filled.spec.vectorDbUrl == "" {
        return filled, Fail("VectorDbUrl must be set");
      }
      var resources := FillResources(filled.spec);
      filled := filled.(spec := resources);
      if filled.spec.taskVolume.path == "" {
        return filled, Fail("task volume path must be set");
      }
      if filled.spec.replicas == 0 {
        filled := filled.(spec := filled.spec.(replicas := 1));
      }
      if filled.spec.splunk.endpoint == "" && filled.spec.splunk.crRef.name == "" {
        return filled, Ok;
      }
      var r := Enrich(filled.spec.splunk, ns, filled.spec.clusterDomain, w.splunk);
      return filled.(spec := filled.spec.(splunk := r.0)), r.1;
    }

    method ReconcileServiceAccount(name: string, ai: Service, w: S.World) returns (copy: Service, o: Outcome)
      modifies this
      ensures (Snapshot(), copy, o) == S.ReconcileAccount(old(Snapshot()), name, ai, w)
      ensures E.AccountLeft(old(Snapshot()), name, ai, w, Snapshot(), copy, o)
    {
      hide E.AccountLeft;
      E.AccountIs(Snapshot(), name, ai, w);
      copy := ai;
      if copy.spec.serviceAccount != "" {
        return copy, Ok;
      }
      copy := copy.(spec := copy.spec.(serviceAccount := name + "-sa"));
      if UpdateSpec in w.failing {
        return copy, Fail("client error");
      }
      o := UpdateService(name, copy);
      if !o.Ok? {
        return;
      }
      copy := A.Refreshed(Snapshot(), name, copy);
      if EnsureAccount in w.failing {
        return copy, Fail("client error");
      }
      serviceAccounts := serviceAccounts + {copy.spec.serviceAccount};
      return copy, Ok;
    }

    method ReconcileCertificate(name: string, ai: Service, w: S.World) returns (o: Outcome)
      modifies this
      ensures (Snapshot(), o) == S.ReconcileCertificate(old(Snapshot()), name, ai, w)
      ensures E.CertificateLeft(old(Snapshot()), name, ai.spec.mtls, w.failing, Snapshot(), o)
    {
      hide E.CertificateLeft;
      E.CertificateIs(Snapshot(), name, ai, w);
      if !ai.spec.mtls.enabled || ai.spec.mtls.termination != "operator" {
        return Ok;
      }
      if EnsureCertificate in w.failing {
        return Fail("client error");
      }
      var cert := S.EnsuredCertificate(Snapshot(), name, ai);
      certificates := certificates[CertificateName(name) := cert];
      var certReady := false;
      var flags := cert.flags;
      for i := 0 to |flags|
        invariant !certReady && Flag("Ready", true) !in flags[..i]
      {
        if flags[i].kind == "Ready" && flags[i].isTrue {
          certReady := true;
          assert flags[..i + 1][i] == flags[i];
          break;
        }
      }
      if !certReady {
        return Fail("waiting for Certificate to become Ready");
      }
      return Ok;
    }

    /** The first true Complete or Failed condition decides. */
    method JobEnded(flags: seq<Flag>) returns (v: S.Verdict)
      ensures v == S.JobVerdict(flags)
      ensures v == S.Completed <==> E.FirstTrue(flags, "Complete", "Failed")
      ensures v == S.Failed <==> E.FirstTrue(flags, "Failed", "Complete")
    {
      hide E.FirstTrue;
      E.VerdictIs(flags);
      assert flags[0..] == flags;
      for i := 0 to |flags|
        invariant S.JobVerdict(flags) == S.JobVerdict(flags[i..])
      {
        assert flags[i..][1..] == flags[i + 1..];
        if flags[i].kind == "Complete" && flags[i].isTrue {
          return S.Completed;
        }
        if flags[i].kind == "Failed" && flags[i].isTrue {
          return S.Failed;
        }
      }
      return S.Running;
    }

    /** The Job machine kept in status.schemaJobId. */
    method ReconcilePostInstallHook(name: string, ai: Service, w: S.World) returns (copy: Service, o: Outcome)
      modifies this
      ensures (Snapshot(), copy, o) == S.ReconcileHook(old(Snapshot()), name, ai, w)
    {
      hide S.JobVerdict, E.FirstTrue;
      copy := ai;
      if ai.spec.vectorDbUrl == "" {
        return copy, Ok;
      }
      var id := ai.status.schemaJobId;
      if id != "" {
        if GetJob in w.failing {
          return copy, Fail("fetching Job");
        } else if id !in jobs {
          copy := copy.(status := copy.status.(schemaJobId := ""));
        } else {
          var verdict := JobEnded(jobs[id].flags);
          match verdict {
            case Completed => return copy, Ok;
            case Failed => return copy, Fail("job failed");
            case Running => return copy, Fail("job is still running");
          }
        }
      }
      if EnsureJob in w.failing {
        return copy, Fail("create/update Job");
      }
      var key := JobName(name);
      if key !in jobs {
        jobs := jobs[key := Job([])];
      }
      copy := copy.(status := copy.status.(schemaJobId := key));
      return copy, Fail("created Job, waiting for completion");
    }

    /** The selector is set only when the Deployment has none. */
    method ReconcileSAIADeployment(name: string, ai: Service, w: S.World) returns (o: Outcome)
      modifies this
      ensures (Snapshot(), o) == S.ReconcileDeployment(old(Snapshot()), name, ai, w)
      ensures E.DeploymentLeft(old(Snapshot()), name, ai, w, Snapshot(), o)
    {
      hide E.DeploymentLeft;
      E.DeploymentIs(Snapshot(), name, ai, w);
      var labels := map["app" := name, "component" := name, "area" := "ml", "team" := "ml"] + ai.meta.labels;
      var annotations := map["prometheus.io/port" := "8088", "prometheus.io/path" := "/metrics", "prometheus.io/scheme" := "http"]
                         + S.ForeignAnnotations(ai.meta.annotations);
      if EnsureDeployment in w.failing {
        return Fail("client error");
      }
      var key := DeploymentName(name);
      var deployment := if key in deployments then deployments[key] else Deployment(None, map[], map[], map[], 0, "", None);
      deployment := deployment.(labels := labels, annotations := annotations, replicas := ai.spec.replicas);
      if deployment.selector.None? {
        deployment := deployment.(selector := Some(S.PodLabels(name)));
      }
      deployment := deployment.(podLabels := S.PodLabels(name), serviceAccount := ai.spec.serviceAccount);
      if ai.spec.mtls.enabled && ai.spec.mtls.termination == "operator" {
        deployment := deployment.(tls := Some(ai.spec.mtls.secretName));
      } else {
        deployment := deployment.(tls := None);
      }
      deployments := deployments[key := deployment];
      return Ok;
    }

    method RunServiceStage(st: S.Stage, name: string, ai: Service, w: S.World) returns (copy: Service, o: Outcome)
      modifies this
      ensures (Snapshot(), copy, o) == S.Execute(st, old(Snapshot()), name, ai, w)
    {
      copy := ai;
      match st {
        case Validate => copy, o := ValidateAIService(ai, w);
        case ServiceAccountStage => copy, o := ReconcileServiceAccount(name, ai, w);
        case SaiaConfigMap => o := S.OkIf(w.configMapsOk);
        case FeatureConfigMap => o := S.OkIf(w.featureMapOk);
        case CertificateStage => o := ReconcileCertificate(name, ai, w);
        case PostInstallHook => copy, o := ReconcilePostInstallHook(name, ai, w);
        case SaiaDeployment => o := ReconcileSAIADeployment(name, ai, w);
        case SaiaService => o := if S.ForeignAnnotations(ai.meta.annotations) != map[] then Panic else S.OkIf(w.serviceOk);
        case ServiceMonitor => o := if ai.spec.metrics.enabled then S.OkIf(w.monitorOk) else Ok;
      }
    }

    method RunServiceStages(name: string, ai: Service, w: S.World)
      returns (copy: Service, conditions: seq<Condition>, o: Outcome, ghost next: nat)
      modifies this
      ensures (Snapshot(), S.Run(name, copy, next, conditions, o)) == S.Finish(old(Snapshot()), S.Start(name, ai), w)
    {
      hide S.Execute;
      conditions, copy, o, next := [], ai, Ok, 0;
      var i := 0;
      while i < |S.STAGES| && o.Ok?
        invariant i <= |S.STAGES| && next == i
        invariant S.Finish(Snapshot(), S.Run(name, copy, i, conditions, o), w) == S.Finish(old(Snapshot()), S.Start(name, ai), w)
        decreases |S.STAGES| - i
      {
        ghost var before, run := Snapshot(), S.Run(name, copy, i, conditions, o);
        copy, o := RunServiceStage(S.STAGES[i], name, copy, w);
        assert (Snapshot(), copy, o) == S.Execute(S.STAGES[run.next], before, run.name, run.ai, w);
        // a panic unwinds past the append
        if o.Ok? {
          conditions := conditions + [StageRunner.PassedOne(S.LABELS[i])];
          if i + 1 == |S.STAGES| {
            conditions := conditions + [StageRunner.READY];
          }
        } else if o.Fail? {
          conditions := conditions + [StageRunner.FailedOne(S.LABELS[i], o.message)];
        }
        assert conditions == run.conditions + StageRunner.Appended(S.LABELS[i], o, i + 1 == |S.STAGES|);
        i, next := i + 1, next + 1;
        assert (Snapshot(), S.Run(name, copy, i, conditions, o)) == S.StageStep(before, run, w);
      }
    }

    /** The stages and the deferred status write; copy is what the caller's object became. */
    method ReconcileFeature(name: string, ai: Service, w: S.World, lands: bool) returns (copy: Service, o: Outcome)
      modifies this
      ensures var (t, r) := S.Finish(old(Snapshot()), S.Start(name, ai), w);
              var (u, written) := A.UpdateServiceStatus(t, name, S.ToPublish(r), lands);
              && Snapshot() == u && o == r.outcome
              && copy == if written.Ok? then A.Refreshed(u, name, S.ToPublish(r)) else S.ToPublish(r)
    {
      hide S.Finish;
      var conditions;
      ghost var next;
      copy, conditions, o, next := RunServiceStages(name, ai, w);
      copy := copy.(status := copy.status.(conditions := conditions));
      var written := UpdateServiceStatus(name, copy, lands);
      if written.Ok? {
        copy := A.Refreshed(Snapshot(), name, copy);
      }
    }

    /** reconcileStatus: adds Ready only when the feature handler set none, then writes the status. */
    method ReconcileStatus(name: string, ai: Service, lands: bool) returns (o: Outcome)
      modifies this
      ensures (Snapshot(), o) ==
                A.UpdateServiceStatus(old(Snapshot()), name, ai.(status := ai.status.(conditions := WithReady(ai.status.conditions))), lands)
    {
      var conditions := ai.status.conditions;
      var hasReady := false;
      for i := 0 to |conditions|
        invariant !hasReady && forall j :: 0 <= j < i ==> conditions[j].kind != "Ready"
      {
        if conditions[i].kind == "Ready" {
          hasReady := true;
          break;
        }
      }
      var copy := ai;
      if !hasReady {
        copy := copy.(status := copy.status.(conditions :=
          conditions + [Condition("Ready", True, "Reconciled", "All resources are up-to-date")]));
      }
      o := UpdateServiceStatus(name, copy, lands);
    }

    /** The AIService controller. */
    method ReconcileService(name: string, w: S.World, c: C.CallWorld) returns (result: Result)
      modifies this
      ensures (Snapshot(), result) == C.ServiceReconciled(old(Snapshot()), name, w, c)
    {
      if !c.fetched {
        return Error;
      }
      if name !in services {
        return Done;
      }
      var ai := services[name];
      if ai.meta.deleting {
        var held := ContainsString(ai.meta.finalizers, FINALIZER_SERVICE);
        if held {
          if UpdateSpec in c.failing {
            return Error;
          }
          var finalizers := RemoveString(ai.meta.finalizers, FINALIZER_SERVICE);
          var o := UpdateService(name, ai.(meta := ai.meta.(finalizers := finalizers)));
          return if o.Ok? then Done else Error;
        }
        return Done;
      }
      if ai.spec.feature.name !in C.FACTORIES {
        return RequeueAfter;
      }
      if ai.spec.feature.name != "saia" {
        return Error;
      }
      RunKeepsName(Snapshot(), S.Start(name, ai), w);
      var copy, o := ReconcileFeature(name, ai, w, c.published);
      if !o.Ok? {
        return Error;
      }
      o := ReconcileStatus(name, copy, c.written);
      return if o.Ok? then Done else Error;
    }

    /** Finishing from here gives what finishing from the start would. */
    ghost predicate AsPromised(run: P.Run, w: P.World, x: set<string>, s0: Store, r0: P.Run)
      reads this
    {
      AsPromisedAt(Snapshot(), run, w, x, s0, r0)
    }
  }

  ghost predicate AsPromisedAt(s: Store, r: P.Run, w: P.World, x: set<string>, s0: Store, r0: P.Run) {
    P.Finish(s, r, w.(reached := x)) == P.Finish(s0, r0, w.(reached := x))
  }

  lemma OneIteration(s: Store, r: P.Run, w: P.World, x: set<string>, order: set<string>)
    requires !P.Stopped(r) && (r.next == 9 ==> x == order)
    ensures P.Finish(s, r, w.(reached := x))
         == P.Finish(P.StageStep(s, r, w.(reached := order)).0, P.StageStep(s, r, w.(reached := order)).1, w.(reached := x))
  {
    hide P.StageStep;
    OrderMattersOnce(s, r, w, x, order);
  }

  /** Only the AIService stage reads the order of the listing. */
  lemma OrderMattersOnce(s: Store, r: P.Run, w: P.World, x: set<string>, y: set<string>)
    requires !P.Stopped(r) && (r.next == 9 ==> x == y)
    ensures P.StageStep(s, r, w.(reached := x)) == P.StageStep(s, r, w.(reached := y))
  {
    hide F.ReconcileFeatures, F.CheckChildren, Enrich, P.WeaviateUpserted;
  }

  lemma {:induction false} RunKeepsName(s: Store, r: S.Run, w: S.World)
    ensures S.Finish(s, r, w).1.name == r.name
    decreases |S.STAGES| - r.next
  {
    hide S.StageStep;
    if !S.Stopped(r) {
      S.StepAdvances(s, r, w);
      RunKeepsName(S.StageStep(s, r, w).0, S.StageStep(s, r, w).1, w);
    }
  }

  lemma DesiredNamesSnoc(name: string, fs: seq<Feature>, i: nat)
    requires i < |fs|
    ensures F.DesiredNames(name, fs[..i + 1]) == F.DesiredNames(name, fs[..i]) + {ChildName(name, fs[i].name)}
  {
    hide ChildName;
    var a, b := F.DesiredNames(name, fs[..i + 1]), F.DesiredNames(name, fs[..i]) + {ChildName(name, fs[i].name)};
    forall n | n in b ensures n in a {
      if n == ChildName(name, fs[i].name) {
        assert fs[..i + 1][i] == fs[i];
      } else {
        var j :| 0 <= j < |fs[..i]| && n == ChildName(name, fs[..i][j].name);
        assert fs[..i + 1][j] == fs[..i][j];
      }
    }
    forall n | n in a ensures n in b {
      var j :| 0 <= j < |fs[..i + 1]| && n == ChildName(name, fs[..i + 1][j].name);
      if j < i {
        assert fs[..i][j] == fs[..i + 1][j];
      }
    }
  }
}
