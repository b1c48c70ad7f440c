/**
 * What a run must have seen before it goes on, over every interleaving: no child gets past its
 * first stage without an open gate, and none writes its Deployment without a completed Job.
 */
module Gates {
  import opened Api
  import opened Names
  import opened ApiServer
  import opened Features
  import opened Protocol
  import opened Safety
  import opened Readiness
  import opened StageEffects
  import P = PlatformRun
  import S = SaiaRun

  // ---- every stage of a run in flight has passed ---------------------------------------------------------

  /** The service run in flight in st. */
  function RunIn(st: State): (r: S.Run)
    requires st.serviceRun.Some?
  {
    st.serviceRun.value.run
  }

  /** The run that is in flight in v is the one that had its k-th stage before it in u. */
  predicate SameRun(u: State, v: State, k: nat) {
    && u.serviceRun.Some? && v.serviceRun.Some?
    && RunIn(v).name == RunIn(u).name && RunIn(v).next > k && RunIn(v).ai.meta.uid == RunIn(u).ai.meta.uid
    && (!v.serviceRun.value.published ==> RunIn(v).ai.spec.platformRef == RunIn(u).ai.spec.platformRef)
  }

  /** Step j was the k-th stage of the run that is still in flight at the end, and it passed. */
  ghost predicate PassedAt(st0: State, steps: seq<Step>, j: int, k: nat) {
    && 0 <= j < |steps| && steps[j].ServiceStage?
    && var u := Exec(st0, steps[..j]);
    && u.serviceRun.Some? && RunIn(u).next == k && !S.Stopped(RunIn(u))
    && S.StageStep(u.store, RunIn(u), steps[j].sw).1.outcome.Ok?
    && forall i {:trigger steps[..i]} :: j < i <= |steps| ==> SameRun(u, Exec(st0, steps[..i]), k)
  }

  /** One step keeps a run going, ends it, or starts one at its first stage. */
  lemma RunSteps(st: State, step: Step)
    requires Inv(st)
    ensures var t := Next(st, step);
            t.serviceRun.Some? && RunIn(t).next > 0 ==>
              && st.serviceRun.Some?
              && (if step.ServiceStage? && !S.Stopped(RunIn(st))
                  then RunIn(t) == S.StageStep(st.store, RunIn(st), step.sw).1 && RunIn(t).next == RunIn(st).next + 1
                       && !t.serviceRun.value.published
                  else RunIn(t).next == RunIn(st).next && RunIn(t).outcome == RunIn(st).outcome)
              && RunIn(t).name == RunIn(st).name && RunIn(t).ai.meta.uid == RunIn(st).ai.meta.uid
              && (!t.serviceRun.value.published ==>
                    && !st.serviceRun.value.published
                    && RunIn(t).ai.spec.platformRef == RunIn(st).ai.spec.platformRef)
  {
    assert st.serviceRun.Some? && st.serviceRun.value.published ==> S.Stopped(RunIn(st));
    hide PlatformNext, EnvironmentStore, Inv, S.StageStep, FinalizeService;
    if step.ServiceStage? && st.serviceRun.Some? && !S.Stopped(RunIn(st)) {
      StageKeepsRef(st.store, RunIn(st), step.sw);
    } else if step.ServicePublish? && st.serviceRun.Some? {
      var v := S.ToPublish(RunIn(st));
      PublishedCopy(st.store, RunIn(st).name, v, step.lands);
    }
    if step.PlatformFetch? || step.PlatformStage? || step.PlatformPublish? {
      PlatformLeavesServiceRun(st, step);
    }
  }

  lemma PlatformLeavesServiceRun(st: State, step: Step)
    requires step.PlatformFetch? || step.PlatformStage? || step.PlatformPublish?
    ensures PlatformNext(st, step).serviceRun == st.serviceRun
  {
    hide P.StageStep, FinalizePlatform;
  }

  lemma StageKeepsRef(s: Store, r: S.Run, w: S.World)
    requires !S.Stopped(r)
    ensures var q := S.StageStep(s, r, w).1;
            q.next == r.next + 1 && q.name == r.name && q.ai.meta.uid == r.ai.meta.uid && q.ai.spec.platformRef == r.ai.spec.platformRef
  {
    ServiceStageIs(s, r, w);
    hide S.StageStep, Validates, Validated, CertificateLeft, DeploymentLeft, Shown, Reports, JobRead;
  }

  /** Past its k-th stage: it went on from there. */
  predicate Beyond(st: State, k: nat) {
    st.serviceRun.Some? && k < RunIn(st).next && (RunIn(st).outcome.Ok? || k + 1 < RunIn(st).next)
  }

  /** Whatever is interleaved with it, a run that is past a stage passed that very stage before. */
  lemma {:induction false} EveryStagePassed(ns: string, quantities: iset<string>, steps: seq<Step>, k: nat) returns (j: nat)
    requires Beyond(Exec(Empty(ns, quantities), steps), k)
    ensures PassedAt(Empty(ns, quantities), steps, j, k)
    decreases |steps|
  {
    hide Next, Inv, S.StageStep, PassedAt;
    var st0 := Empty(ns, quantities);
    var front, step := steps[..|steps| - 1], steps[|steps| - 1];
    var st := Exec(st0, front);
    assert Exec(st0, steps) == Next(st, step);
    Invariant(ns, quantities, front);
    RunSteps(st, step);
    if step.ServiceStage? && !S.Stopped(RunIn(st)) && RunIn(st).next == k {
      j := |front|;
      JustPassed(st0, steps, k);
    } else {
      j := EveryStagePassed(ns, quantities, front, k);
      StillRunning(st0, front, j, k);
      assert front[..j] == steps[..j];
      StillPassed(st0, steps, j, k);
    }
  }

  lemma JustPassed(st0: State, steps: seq<Step>, k: nat)
    requires steps != [] && steps[|steps| - 1].ServiceStage?
    requires var st, step := Exec(st0, steps[..|steps| - 1]), steps[|steps| - 1];
             && st.serviceRun.Some? && RunIn(st).next == k && !S.Stopped(RunIn(st))
             && Beyond(Next(st, step), k) && RunIn(Next(st, step)) == S.StageStep(st.store, RunIn(st), step.sw).1
             && RunIn(Next(st, step)).next == k + 1
             && SameRun(st, Next(st, step), k)
    ensures PassedAt(st0, steps, |steps| - 1, k)
  {
    hide Next, S.StageStep, SameRun;
    assert steps[..|steps|] == steps;
  }

  lemma StillRunning(st0: State, steps: seq<Step>, j: nat, k: nat)
    requires PassedAt(st0, steps, j, k)
    ensures j < |steps| && SameRun(Exec(st0, steps[..j]), Exec(st0, steps), k)
  {
    hide Exec, S.StageStep, SameRun;
    assert steps[..|steps|] == steps;
  }

  lemma StillPassed(st0: State, steps: seq<Step>, j: nat, k: nat)
    requires steps != [] && PassedAt(st0, steps[..|steps| - 1], j, k)
    requires SameRun(Exec(st0, steps[..j]), Exec(st0, steps), k)
    ensures PassedAt(st0, steps, j, k)
  {
    hide Exec, S.StageStep, SameRun;
    var front := steps[..|steps| - 1];
    forall i | 0 <= i <= |front| ensures front[..i] == steps[..i] {
    }
    assert steps[..|steps|] == steps;
  }

  // ---- the gate ---------------------------------------------------------------------------------------------

  /** Admission gives every child a platform, and no run loses it. */
  lemma {:induction false} RunsNameAPlatform(ns: string, quantities: iset<string>, steps: seq<Step>)
    ensures var st := Exec(Empty(ns, quantities), steps);
            st.serviceRun.Some? && !st.serviceRun.value.published ==> RunIn(st).ai.spec.platformRef.name != ""
    decreases |steps|
  {
    hide Inv, Next, S.StageStep;
    if steps != [] {
      var front, step := steps[..|steps| - 1], steps[|steps| - 1];
      var st := Exec(Empty(ns, quantities), front);
      RunsNameAPlatform(ns, quantities, front);
      Invariant(ns, quantities, front);
      RunSteps(st, step);
      StartsNamed(st, step);
    }
  }

  lemma StartsNamed(st: State, step: Step)
    requires Inv(st)
    ensures var t := Next(st, step);
            t.serviceRun.Some? && RunIn(t).next == 0 && !t.serviceRun.value.published ==>
              RunIn(t).ai.spec.platformRef.name != "" || (st.serviceRun.Some? && RunIn(t) == RunIn(st) && !st.serviceRun.value.published)
  {
    hide EnvironmentStore, PlatformNext, S.StageStep, FinalizeService, NoZombies, PlatformsAdmitted, SelectorsMatch, JobsBalanced, ChildSound;
    if step.PlatformFetch? || step.PlatformStage? || step.PlatformPublish? {
      PlatformLeavesServiceRun(st, step);
    } else if step.ServiceFetch? && step.name in st.store.services {
      assert SpecAdmitted(st.store.services[step.name].spec);
    } else if step.ServiceStage? && st.serviceRun.Some? && !S.Stopped(RunIn(st)) {
      S.StepAdvances(st.store, RunIn(st), step.sw);
    }
  }

  /** Step j was the first stage of the run in flight, and it found the gate of that platform open. */
  ghost predicate GateSeen(st0: State, steps: seq<Step>, j: int, ref: PlatformRef) {
    && PassedAt(st0, steps, j, 0)
    && var u := Exec(st0, steps[..j]);
    && RunIn(u).ai.spec.platformRef == ref && GateOpen(u.store, ref)
  }

  /**
   * A run that is past Validate read its platform while both conditions were True in the list
   * stored there and both names were known, however the platform has changed since.
   */
  lemma RunsSawOpenGate(ns: string, quantities: iset<string>, steps: seq<Step>)
    requires Beyond(Exec(Empty(ns, quantities), steps), 0) && !Exec(Empty(ns, quantities), steps).serviceRun.value.published
    ensures exists j :: GateSeen(Empty(ns, quantities), steps, j, RunIn(Exec(Empty(ns, quantities), steps)).ai.spec.platformRef)
  {
    hide Exec, S.StageStep, GateOpen;
    var st0 := Empty(ns, quantities);
    var j := EveryStagePassed(ns, quantities, steps, 0);
    StillRunning(st0, steps, j, 0);
    RunsNameAPlatform(ns, quantities, steps);
    var u := Exec(st0, steps[..j]);
    ServiceStageIs(u.store, RunIn(u), steps[j].sw);
    assert GateSeen(st0, steps, j, RunIn(Exec(st0, steps)).ai.spec.platformRef);
  }

  // ---- the Job ------------------------------------------------------------------------------------------------

  /** Step j was the hook stage of the run in flight, and of the Job it read a true Complete came before any true Failed. */
  ghost predicate CompletionSeen(st0: State, steps: seq<Step>, j: int) {
    && PassedAt(st0, steps, j, 5)
    && var u := Exec(st0, steps[..j]);
    && JobRead(u.store, RunIn(u).ai, steps[j].sw)
    && FirstTrue(u.store.jobs[RunIn(u).ai.status.schemaJobId].flags, "Complete", "Failed")
  }

  /** A run that is past its hook read such a Job. */
  lemma RunsSawCompletion(ns: string, quantities: iset<string>, steps: seq<Step>)
    requires Beyond(Exec(Empty(ns, quantities), steps), 5)
    ensures exists j :: CompletionSeen(Empty(ns, quantities), steps, j)
  {
    hide Exec, S.StageStep, FirstTrue;
    var st0 := Empty(ns, quantities);
    var j := EveryStagePassed(ns, quantities, steps, 5);
    var u := Exec(st0, steps[..j]);
    Invariant(ns, quantities, steps[..j]);
    assert RunIn(u).ai.spec.vectorDbUrl != "";
    hide Inv;
    ServiceStageIs(u.store, RunIn(u), steps[j].sw);
    assert CompletionSeen(st0, steps, j);
  }

  // ---- what is written behind them ----------------------------------------------------------------------------

  lemma PlatformKeepsJobs(st: State, step: Step)
    requires step.PlatformFetch? || step.PlatformStage? || step.PlatformPublish?
    ensures PlatformNext(st, step).store.jobs == st.store.jobs
  {
    hide ReconcileFeatures, P.ValidatePlatform, P.ReconcileWeaviate, DeleteServices, UpdatePlatform, RemoveAll, Owned;
    var s := st.store;
    if step.PlatformStage? && st.platformRun.Some? && !P.Stopped(st.platformRun.value) {
      var r := st.platformRun.value;
      FeaturesFrame(s, r.name, r.p, step.pw.failing, step.pw.reached);
      WeaviateFrame(s, r.name, r.p, step.pw);
    } else if step.PlatformFetch? && step.name in s.platforms {
      var p := s.platforms[step.name];
      DeleteFrame(s, set n | n in Owned(s, step.name) && DeleteChild(n) !in step.failing);
      UpdatePlatformFrame(s, step.name,
        p.(meta := p.meta.(finalizers := RemoveAll(p.meta.finalizers, FINALIZER_PLATFORM))), st.quantities);
    }
  }

  lemma ServiceKeepsJobs(st: State, step: Step)
    requires step.ServiceFetch? || step.ServicePublish? || step.ServiceStatusWrite?
    ensures ServiceNext(st, step).store.jobs == st.store.jobs
  {
    hide UpdateService, RemoveAll;
    if step.ServiceFetch? && step.name in st.store.services {
      var v := st.store.services[step.name];
      UpdateFrame(st.store, step.name, v.(meta := v.meta.(finalizers := RemoveAll(v.meta.finalizers, FINALIZER_SERVICE))));
    }
  }

  lemma EnvironmentAddsNoJob(s: Store, step: Step, quantities: iset<string>, k: string)
    requires !IsController(step) && k !in s.jobs
    ensures k !in EnvironmentStore(s, step, quantities).jobs
  {
    if OnServices(step) {
      hide EnvironmentStore;
      ServiceUserFrame(s, step, quantities);
    } else if OnPlatforms(step) {
      hide EnvironmentStore;
      PlatformUserFrame(s, step, quantities);
    } else if step.DropFinalizer? {
      hide EnvironmentStore;
      DropFinalizerFrame(s, step, quantities);
    }
  }

  lemma StageAddsJob(s: Store, r: S.Run, w: S.World, k: string)
    requires !S.Stopped(r) && k !in s.jobs && k in S.StageStep(s, r, w).0.jobs
    ensures r.next == 5 && k == r.name + "-vector-db-setup-posthook"
  {
    ServiceStageIs(s, r, w);
    hide S.StageStep, Validates, Validated, OnlyFilled, FirstTrue, Deployed, Shown, Reports, JobRead;
    if r.next == 5 {
      hide AccountLeft, CertificateLeft, DeploymentLeft;
    } else {
      hide HookLeft;
    }
  }

  lemma AddsJob(st: State, step: Step, k: string)
    requires k !in st.store.jobs && k in Next(st, step).store.jobs
    ensures step.ServiceStage? && st.serviceRun.Some? && !S.Stopped(RunIn(st))
    ensures RunIn(st).next == 5 && k == RunIn(st).name + "-vector-db-setup-posthook"
  {
    hide EnvironmentStore, PlatformNext, S.StageStep;
    if step.PlatformFetch? || step.PlatformStage? || step.PlatformPublish? {
      PlatformKeepsJobs(st, step);
    } else if step.ServiceStage? && st.serviceRun.Some? && !S.Stopped(RunIn(st)) {
      StageAddsJob(st.store, RunIn(st), step.sw, k);
    } else if IsController(step) {
      hide ServiceNext;
      if !step.ServiceStage? {
        ServiceKeepsJobs(st, step);
      } else {
        ServiceIdle(st, step);
      }
    } else {
      EnvironmentAddsNoJob(st.store, step, st.quantities, k);
    }
  }

  /** A Job appears only in the hook stage of a run, under that child's name, and only after the run saw its gate open. */
  lemma JobsFollowGates(ns: string, quantities: iset<string>, steps: seq<Step>, step: Step, k: string)
    requires k !in Exec(Empty(ns, quantities), steps).store.jobs
    requires k in Next(Exec(Empty(ns, quantities), steps), step).store.jobs
    ensures var st := Exec(Empty(ns, quantities), steps);
            && step.ServiceStage? && st.serviceRun.Some? && RunIn(st).next == 5
            && k == RunIn(st).name + "-vector-db-setup-posthook"
            && exists j :: GateSeen(Empty(ns, quantities), steps, j, RunIn(st).ai.spec.platformRef)
  {
    hide Exec, Next, GateSeen;
    AddsJob(Exec(Empty(ns, quantities), steps), step, k);
    RunningIsUnpublished(ns, quantities, steps);
    RunsSawOpenGate(ns, quantities, steps);
  }

  lemma RunningIsUnpublished(ns: string, quantities: iset<string>, steps: seq<Step>)
    ensures var st := Exec(Empty(ns, quantities), steps);
            st.serviceRun.Some? && !S.Stopped(RunIn(st)) ==> !st.serviceRun.value.published && RunIn(st).outcome.Ok?
  {
    hide Exec, StoreSound, PlatformRunSound, S.WellFormed;
    Invariant(ns, quantities, steps);
  }

  /**
   * A Deployment is written only by the deployment stage of a run that saw its gate open and then
   * read a Job of which a true Complete came before any true Failed.
   */
  lemma DeploymentsFollowGates(ns: string, quantities: iset<string>, steps: seq<Step>, step: Step, k: string)
    requires !step.DeploymentGone?
    requires var st := Exec(Empty(ns, quantities), steps);
             var t := Next(st, step);
             k in t.store.deployments && (k !in st.store.deployments || t.store.deployments[k] != st.store.deployments[k])
    ensures var st := Exec(Empty(ns, quantities), steps);
            && step.ServiceStage? && st.serviceRun.Some? && RunIn(st).next == 6
            && k == RunIn(st).name + "-saia-deployment"
            && (exists j :: GateSeen(Empty(ns, quantities), steps, j, RunIn(st).ai.spec.platformRef))
            && (exists j :: CompletionSeen(Empty(ns, quantities), steps, j))
            && Next(st, step).store.deployments == st.store.deployments[k := Next(st, step).store.deployments[k]]
            && Deployed(Next(st, step).store.deployments[k], RunIn(st).name, RunIn(st).ai)
  {
    hide Exec, GateSeen, CompletionSeen, EnvironmentStore, PlatformNext, Deployed;
    var st := Exec(Empty(ns, quantities), steps);
    WritesDeployment(st, step, k);
    assert !S.Stopped(RunIn(st));
    RunningIsUnpublished(ns, quantities, steps);
    RunsSawOpenGate(ns, quantities, steps);
    RunsSawCompletion(ns, quantities, steps);
    ServiceStageIs(st.store, RunIn(st), step.sw);
    hide S.StageStep;
  }

  // ---- what the history means -----------------------------------------------------------------------------------

  /** The step is a hook stage for that child that reads a completed Job. */
  predicate ObservesIn(u: State, step: Step, c: Child) {
    && step.ServiceStage?
    && u.serviceRun.Some? && RunIn(u).next == 5 && c == Child(RunIn(u).name, RunIn(u).ai.meta.uid)
    && JobRead(u.store, RunIn(u).ai, step.sw)
    && FirstTrue(u.store.jobs[RunIn(u).ai.status.schemaJobId].flags, "Complete", "Failed")
  }

  ghost predicate Observes(st0: State, steps: seq<Step>, j: int, c: Child) {
    0 <= j < |steps| && ObservesIn(Exec(st0, steps[..j]), steps[j], c)
  }

  /** The history calls a child observed only when one of its runs has read such a Job. */
  lemma {:induction false} ObservedWasRead(ns: string, quantities: iset<string>, steps: seq<Step>, c: Child)
    requires c in Exec(Empty(ns, quantities), steps).history.observed
    ensures exists j :: Observes(Empty(ns, quantities), steps, j, c)
    decreases |steps|
  {
    hide Next, Observes;
    var st0 := Empty(ns, quantities);
    var front, step := steps[..|steps| - 1], steps[|steps| - 1];
    var st := Exec(st0, front);
    if c in st.history.observed {
      ObservedWasRead(ns, quantities, front, c);
      var j :| Observes(st0, front, j, c);
      StillObserved(st0, steps, j, c);
    } else {
      Invariant(ns, quantities, front);
      ObservedNow(st, step, c);
      assert Observes(st0, steps, |front|, c) by { ObservesLast(st0, steps, c); }
    }
  }

  lemma StillObserved(st0: State, steps: seq<Step>, j: int, c: Child)
    requires steps != [] && Observes(st0, steps[..|steps| - 1], j, c)
    ensures Observes(st0, steps, j, c)
  {
    hide Exec, ObservesIn;
    assert steps[..|steps| - 1][..j] == steps[..j];
  }

  lemma ObservesLast(st0: State, steps: seq<Step>, c: Child)
    requires steps != [] && ObservesIn(Exec(st0, steps[..|steps| - 1]), steps[|steps| - 1], c)
    ensures Observes(st0, steps, |steps| - 1, c)
  {
    hide Exec, ObservesIn;
  }

  lemma ObservedNow(st: State, step: Step, c: Child)
    requires Inv(st) && c !in st.history.observed && c in Next(st, step).history.observed
    ensures ObservesIn(st, step, c)
  {
    hide EnvironmentStore, S.StageStep, FirstTrue, StoreSound, PlatformRunSound;
    assert step.ServiceStage? && st.serviceRun.Some? && !S.Stopped(RunIn(st));
    assert RunIn(st).ai.spec.vectorDbUrl != "";
    ServiceStageIs(st.store, RunIn(st), step.sw);
  }
}
