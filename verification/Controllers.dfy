/** One whole call of each controller's Reconcile, and when such a call may go without a retry. */
module Controllers {
  import opened Api
  import opened Names
  import opened Admission
  import opened ApiServer
  import opened Features
  import opened StageRunner
  import opened Protocol
  import opened Safety
  import opened Readiness
  import opened Deletion
  import P = PlatformRun
  import S = SaiaRun

  /** What the calls outside the stages answer: the first Get, the deletion flow's calls, the status writes. */
  datatype CallWorld = CallWorld(fetched: bool, failing: set<Call>, published: bool, written: bool)

  function PlatformReconciled(s: Store, name: string, w: P.World, c: CallWorld, quantities: iset<string>): (Store, Result) {
    if !c.fetched then (s, Error)
    else if name !in s.platforms then (s, Done)
    else if s.platforms[name].meta.deleting then FinalizePlatform(s, name, c.failing, quantities)
    else
      var (t, r) := P.Finish(s, P.Start(name, s.platforms[name]), w);
      (PublishPlatform(t, name, P.PublishedStatus(r), c.published), if r.outcome.Ok? then Done else Error)
  }

  /** The seca handler reconciles a blank object of its own and always fails; it touches nothing here. */
  const FACTORIES := {"saia", "seca"}

  function ServiceReconciled(s: Store, name: string, w: S.World, c: CallWorld): (Store, Result) {
    if !c.fetched then (s, Error)
    else if name !in s.services then (s, Done)
    else if s.services[name].meta.deleting then FinalizeService(s, name, c.failing)
    else if s.services[name].spec.feature.name !in FACTORIES then (s, RequeueAfter)
    else if s.services[name].spec.feature.name != "saia" then (s, Error)
    else
      var (t, r) := S.Finish(s, S.Start(name, s.services[name]), w);
      var (u, o) := UpdateServiceStatus(t, name, S.ToPublish(r), c.published);
      if !r.outcome.Ok? then (u, Error)
      else
        var ai := if o.Ok? then Refreshed(u, name, S.ToPublish(r)) else S.ToPublish(r);
        var (u2, o2) := UpdateServiceStatus(u, name, ai.(status := ai.status.(conditions := WithReady(ai.status.conditions))), c.written);
        (u2, if o2.Ok? then Done else Error)
  }

  // ---- no lost wake-up ------------------------------------------------------------------------

  /**
   * The platform controller asks for no retry exactly when the platform is gone, or is being
   * deleted and no longer held by this operator's finalizer, or every stage succeeded.
   */
  lemma PlatformDoneIff(s: Store, name: string, w: P.World, c: CallWorld, quantities: iset<string>)
    ensures var (t, result) := PlatformReconciled(s, name, w, c, quantities);
            result == Done <==>
              && c.fetched
              && (|| name !in s.platforms
                  || (s.platforms[name].meta.deleting && !Protected(t, name))
                  || (!s.platforms[name].meta.deleting && P.Finish(s, P.Start(name, s.platforms[name]), w).1.outcome.Ok?))
  {
    hide P.Finish, PublishPlatform, P.PublishedStatus;
    if name in s.platforms && s.platforms[name].meta.deleting {
      FinalizeDoneIff(s, name, c.failing, quantities);
    }
  }

  /**
   * Coming back later without an error is left to two cases: a platform whose deletion still finds
   * children, and an AIService of a feature that no handler is registered for.
   */
  lemma RequeuesIff(s: Store, name: string, pw: P.World, sw: S.World, c: CallWorld, quantities: iset<string>)
    ensures PlatformReconciled(s, name, pw, c, quantities).1 == RequeueAfter <==>
              && c.fetched && name in s.platforms && s.platforms[name].meta.deleting
              && "ai.splunk.com/aiplatform-protect" in s.platforms[name].meta.finalizers && ListChildren !in c.failing
              && exists n :: n in s.services && s.services[n].meta.controller == Some(PlatformOwner(name))
    ensures ServiceReconciled(s, name, sw, c).1 == RequeueAfter <==>
              && c.fetched && name in s.services && !s.services[name].meta.deleting
              && s.services[name].spec.feature.name != "saia" && s.services[name].spec.feature.name != "seca"
  {
    hide P.Finish, S.Finish, PublishPlatform, UpdatePlatform, UpdateService, UpdateServiceStatus, WithReady, DeleteServices, RemoveAll;
    if n :| n in s.services && s.services[n].meta.controller == Some(PlatformOwner(name)) {
      assert n in Owned(s, name);
    } else {
      assert Owned(s, name) == {};
    }
  }

  lemma FinalizeDoneIff(s: Store, name: string, failing: set<Call>, quantities: iset<string>)
    requires name in s.platforms
    ensures var (t, result) := FinalizePlatform(s, name, failing, quantities);
            result == Done <==> !Protected(t, name)
  {
    hide PlatformUpdateValid, DefaultPlatform, RemoveAll;
    var p := s.platforms[name];
    DeleteFrame(s, set n | n in Owned(s, name) && DeleteChild(n) !in failing);
    UpdatedFinalizers(s, name, p.(meta := p.meta.(finalizers := RemoveAll(p.meta.finalizers, FINALIZER_PLATFORM))), quantities);
  }

  /** All stages succeeded is what the published list says. */
  lemma DonePublishesReady(s: Store, name: string, w: P.World, c: CallWorld, quantities: iset<string>)
    requires c.fetched && c.published && name in s.platforms && !s.platforms[name].meta.deleting
    ensures var (t, result) := PlatformReconciled(s, name, w, c, quantities);
            && name in t.platforms
            && (result == Done <==> IsConditionTrue(t.platforms[name].status.conditions, "Ready"))
  {
    hide P.Finish, Published, IsConditionTrue, P.Execute;
    var r0 := P.Start(name, s.platforms[name]);
    var (t, r) := P.Finish(s, r0, w);
    P.StartWellFormed(name, s.platforms[name]);
    P.FinishWellFormed(s, r0, w);
    P.LabelsDistinct();
    ReadPublished(P.LABELS, r.conditions, r.next, r.outcome);
    RunKeepsPlatforms(s, r0, w);
  }

  lemma {:induction false} RunKeepsPlatforms(s: Store, r: P.Run, w: P.World)
    ensures P.Finish(s, r, w).0.platforms == s.platforms
    decreases |P.STAGES| - r.next
  {
    hide P.StageStep;
    if !P.Stopped(r) {
      StageKeepsPlatforms(s, r, w);
      P.StepAdvances(s, r, w);
      var (t, q) := P.StageStep(s, r, w);
      RunKeepsPlatforms(t, q, w);
    }
  }

  lemma StageKeepsPlatforms(s: Store, r: P.Run, w: P.World)
    requires !P.Stopped(r)
    ensures P.StageStep(s, r, w).0.platforms == s.platforms
  {
    hide ReconcileFeatures, P.ReconcileWeaviate, P.ValidatePlatform;
    WeaviateFrame(s, r.name, r.p, w);
    FeaturesFrame(s, r.name, r.p, w.failing, w.reached);
  }

  predicate ServiceHeld(s: Store, name: string) {
    name in s.services && FINALIZER_SERVICE in s.services[name].meta.finalizers
  }

  /** The run's copy is at the stored object's version. */
  predicate InStep(t: Store, r: S.Run) {
    r.name in t.services && t.services[r.name].meta == r.ai.meta && !r.ai.meta.deleting
  }

  lemma StageInStep(t: Store, r: S.Run, w: S.World)
    requires InStep(t, r) && !S.Stopped(r)
    ensures InStep(S.StageStep(t, r, w).0, S.StageStep(t, r, w).1)
  {
    S.StepAdvances(t, r, w);
    if S.STAGES[r.next] == S.ServiceAccountStage {
      hide S.ReconcileAccount;
      AccountInStep(t, r.name, r.ai, w);
    } else {
      OtherStagesKeepMeta(t, r, w);
      OtherStagesKeepServices(t, r, w);
      hide S.StageStep;
    }
  }

  lemma OtherStagesKeepServices(t: Store, r: S.Run, w: S.World)
    requires !S.Stopped(r) && S.STAGES[r.next] != S.ServiceAccountStage
    ensures S.StageStep(t, r, w).0.services == t.services
  {
    hide S.ValidateSpec, S.ReconcileAccount, S.ReconcileHook, S.ReconcileCertificate, S.ReconcileDeployment, S.ForeignAnnotations;
    HookFrame(t, r.name, r.ai, w);
    CertificateFrame(t, r.name, r.ai, w);
    DeploymentFrame(t, r.name, r.ai, w);
  }

  lemma AccountInStep(t: Store, n: string, ai: Service, w: S.World)
    requires n in t.services && t.services[n].meta == ai.meta && !ai.meta.deleting
    ensures var (u, copy, o) := S.ReconcileAccount(t, n, ai, w);
            n in u.services && u.services[n].meta == copy.meta && !copy.meta.deleting
  {
    hide ServiceUpdateValid, DefaultService;
  }

  /** Nothing but the run writes the object during one call, and it reads each write back. */
  lemma {:induction false} FinishInStep(t: Store, r: S.Run, w: S.World)
    requires InStep(t, r)
    ensures InStep(S.Finish(t, r, w).0, S.Finish(t, r, w).1) && S.Finish(t, r, w).1.name == r.name
    decreases |S.STAGES| - r.next
  {
    hide S.StageStep, InStep;
    if !S.Stopped(r) {
      StageInStep(t, r, w);
      S.StepAdvances(t, r, w);
      FinishInStep(S.StageStep(t, r, w).0, S.StageStep(t, r, w).1, w);
    }
  }

  /**
   * The service controller asks for no retry exactly when the AIService is gone, or is being
   * deleted and no longer held, or every SAIA stage succeeded and the last status write is not
   * lost on the way: within one call no conflict can stop it.
   */
  lemma ServiceDoneIff(s: Store, name: string, w: S.World, c: CallWorld)
    ensures var (t, result) := ServiceReconciled(s, name, w, c);
            result == Done <==>
              && c.fetched
              && (|| name !in s.services
                  || (s.services[name].meta.deleting && !ServiceHeld(t, name))
                  || (&& !s.services[name].meta.deleting && s.services[name].spec.feature.name == "saia"
                      && S.Finish(s, S.Start(name, s.services[name]), w).1.outcome.Ok? && c.written))
  {
    hide S.Finish, WithReady;
    if name in s.services {
      if s.services[name].meta.deleting {
        FinalizeServiceDoneIff(s, name, c.failing);
      } else {
        FinishInStep(s, S.Start(name, s.services[name]), w);
      }
    }
  }

  /**
   * For a SAIA child that is not being deleted: no retry means that its stored status shows Ready;
   * and if no status write is lost, the two are the same.
   */
  lemma ServiceDoneShowsReady(s: Store, name: string, w: S.World, c: CallWorld)
    requires c.fetched && name in s.services && !s.services[name].meta.deleting && s.services[name].spec.feature.name == "saia"
    ensures var (t, result) := ServiceReconciled(s, name, w, c);
            && name in t.services && t.services[name].meta.uid == s.services[name].meta.uid
            && (result == Done ==> IsConditionTrue(t.services[name].status.conditions, "Ready"))
            && (c.published && c.written ==> (result == Done <==> IsConditionTrue(t.services[name].status.conditions, "Ready")))
  {
    var r0 := S.Start(name, s.services[name]);
    var (t, r) := S.Finish(s, r0, w);
    S.StartWellFormed(name, s.services[name]);
    S.FinishWellFormed(s, r0, w);
    FinishInStep(s, r0, w);
    FinishKeepsUid(s, r0, w);
    S.LabelsDistinct();
    ReadPublished(S.LABELS, r.conditions, r.next, r.outcome);
    hide S.Finish, Published, IsConditionTrue, WithReady;
    if r.outcome.Ok? {
      ReadyHasKind(r.conditions);
    }
  }

  lemma {:induction false} FinishKeepsUid(t: Store, r: S.Run, w: S.World)
    requires InStep(t, r)
    ensures S.Finish(t, r, w).1.ai.meta.uid == r.ai.meta.uid
    decreases |S.STAGES| - r.next
  {
    hide S.StageStep, InStep;
    if !S.Stopped(r) {
      StageInStep(t, r, w);
      StageKeepsUid(t, r, w);
      S.StepAdvances(t, r, w);
      FinishKeepsUid(S.StageStep(t, r, w).0, S.StageStep(t, r, w).1, w);
    }
  }

  lemma StageKeepsUid(t: Store, r: S.Run, w: S.World)
    requires InStep(t, r) && !S.Stopped(r)
    ensures S.StageStep(t, r, w).1.ai.meta.uid == r.ai.meta.uid
  {
    if S.STAGES[r.next] == S.ServiceAccountStage {
      AccountKeepsUid(t, r.name, r.ai, w);
    } else {
      OtherStagesKeepMeta(t, r, w);
    }
  }

  lemma AccountKeepsUid(t: Store, n: string, ai: Service, w: S.World)
    ensures S.ReconcileAccount(t, n, ai, w).1.meta.uid == ai.meta.uid
  {
    hide UpdateService;
    UpdateKeepsUid(t, n, ai.(spec := ai.spec.(serviceAccount := n + "-sa")));
  }

  lemma UpdateKeepsUid(s: Store, n: string, v: Service)
    ensures var (t, o) := UpdateService(s, n, v);
            o.Ok? && n in t.services ==> t.services[n].meta.uid == v.meta.uid
  {
    hide ServiceUpdateValid, DefaultService;
  }

  lemma FinalizeServiceDoneIff(s: Store, name: string, failing: set<Call>)
    requires name in s.services
    ensures var (t, result) := FinalizeService(s, name, failing);
            result == Done <==> !ServiceHeld(t, name)
  {
    hide ServiceUpdateValid, DefaultService, RemoveAll;
  }
}
