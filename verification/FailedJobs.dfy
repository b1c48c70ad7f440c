/** A schema Job that failed keeps its child from ever being Ready, for as long as nobody deletes it. */
module FailedJobs {
  import opened Api
  import opened Names
  import opened ApiServer
  import opened Features
  import opened StageRunner
  import opened Protocol
  import opened Safety
  import opened Readiness
  import P = PlatformRun
  import S = SaiaRun

  /** The child's Job is stored and has failed. */
  predicate JobFailed(s: Store, n: string) {
    JobName(n) in s.jobs && S.JobVerdict(s.jobs[JobName(n)].flags) == S.Failed
  }

  /** No run of the child in flight has seen a completed Job. */
  predicate Unseen(st: State, n: string) {
    st.serviceRun.Some? && st.serviceRun.value.run.name == n ==> !st.serviceRun.value.sawComplete
  }

  /** The hook stage of such a run does not go through. */
  lemma FailedIsNotSeen(s: Store, r: S.Run, w: S.World, n: string)
    requires JobFailed(s, n) && r.name == n && !S.Stopped(r) && r.ai.status.schemaJobId in {"", JobName(n)}
    requires r.next == S.HOOK_AT ==> r.ai.spec.vectorDbUrl != ""
    ensures !(S.StageStep(s, r, w).1.outcome.Ok? && ReadsCompleted(s, r))
  {
    hide S.ValidateSpec, S.ReconcileAccount, S.ReconcileCertificate, S.ReconcileDeployment, S.ForeignAnnotations, S.JobVerdict, JobName;
    assert S.STAGES[S.HOOK_AT] == S.PostInstallHook;
  }

  lemma StagedUnseen(st: State, w: S.World, n: string, uid: nat)
    requires st.serviceRun.Some? && !S.Stopped(st.serviceRun.value.run)
    requires ServiceRunSound(st.serviceRun.value, st.history) && JobFailed(st.store, n) && Unseen(st, n)
    ensures var u := ServiceStaged(st, st.serviceRun.value, w);
            Unseen(u, n) && (Child(n, uid) in u.history.observed <==> Child(n, uid) in st.history.observed)
  {
    var r := st.serviceRun.value.run;
    if r.name == n {
      FailedIsNotSeen(st.store, r, w, n);
    }
    hide ReadsCompleted, S.CreatesJob, JobName, JobFailed, S.StageStep, S.WellFormed;
    S.StepAdvances(st.store, r, w);
  }

  lemma NextIsStaged(st: State, w: S.World)
    requires st.serviceRun.Some? && !S.Stopped(st.serviceRun.value.run)
    ensures Next(st, ServiceStage(w)) == ServiceStaged(st, st.serviceRun.value, w)
  {
    hide ServiceStaged, S.Stopped;
  }

  lemma UnseenNext(st: State, step: Step, n: string, uid: nat)
    requires Inv(st) && JobFailed(st.store, n) && Unseen(st, n)
    ensures Unseen(Next(st, step), n)
    ensures Child(n, uid) in Next(st, step).history.observed <==> Child(n, uid) in st.history.observed
  {
    if step.ServiceStage? && st.serviceRun.Some? && !S.Stopped(st.serviceRun.value.run) {
      assert ServiceRunSound(st.serviceRun.value, st.history) by { hide StoreSound, PlatformRunSound, CopyCurrent, ServiceRunSound; }
      hide Inv, JobFailed, Next, Unseen, ServiceStaged;
      StagedUnseen(st, step.sw, n, uid);
      NextIsStaged(st, step.sw);
    } else if step.PlatformFetch? || step.PlatformStage? || step.PlatformPublish? {
      hide Inv, JobFailed, Next;
      PlatformLeavesServiceRun(st, step);
    } else {
      hide Inv, JobFailed, Next;
      OthersObserveNothing(st, step);
    }
  }

  /** Without a stage, nothing new is observed, and a run that starts has seen nothing. */
  lemma OthersObserveNothing(st: State, step: Step)
    requires !(step.ServiceStage? && st.serviceRun.Some? && !S.Stopped(st.serviceRun.value.run))
    requires !step.PlatformFetch? && !step.PlatformStage? && !step.PlatformPublish?
    ensures Next(st, step).history.observed == st.history.observed
    ensures Next(st, step).serviceRun.Some? ==>
              var sr := Next(st, step).serviceRun.value;
              !sr.sawComplete || (st.serviceRun.Some? && sr.run.name == st.serviceRun.value.run.name && sr.sawComplete == st.serviceRun.value.sawComplete)
  {
    hide EnvironmentStore, PlatformNext, ServiceStaged, FinalizeService, UpdateServiceStatus, WithReady, S.ToPublish, S.Stopped;
  }

  lemma PlatformLeavesServiceRun(st: State, step: Step)
    requires step.PlatformFetch? || step.PlatformStage? || step.PlatformPublish?
    ensures Next(st, step).serviceRun == st.serviceRun && Next(st, step).history == st.history
  {
    hide P.StageStep, FinalizePlatform, PublishPlatform, P.PublishedStatus;
  }

  /** The Job is stored and failed at every point of the run. */
  ghost predicate StaysFailed(st: State, steps: seq<Step>, n: string) {
    forall j {:trigger steps[..j]} :: 0 <= j <= |steps| ==> JobFailed(Exec(st, steps[..j]).store, n)
  }

  lemma {:induction false} UnseenOverRuns(st: State, steps: seq<Step>, n: string, uid: nat)
    requires Inv(st) && StaysFailed(st, steps, n) && Unseen(st, n)
    ensures var u := Exec(st, steps);
            Inv(u) && Unseen(u, n) && (Child(n, uid) in u.history.observed <==> Child(n, uid) in st.history.observed)
    decreases |steps|
  {
    hide Inv, Next, JobFailed, Unseen;
    if steps != [] {
      var front, last := steps[..|steps| - 1], steps[|steps| - 1];
      forall j {:trigger front[..j]} | 0 <= j <= |front| ensures JobFailed(Exec(st, front[..j]).store, n) {
        assert front[..j] == steps[..j];
      }
      UnseenOverRuns(st, front, n, uid);
      assert front[..|front|] == front == steps[..|front|];
      NextSound(Exec(st, front), last);
      UnseenNext(Exec(st, front), last, n, uid);
    }
  }

  /**
   * From every sound state, over every run during which the child's Job stays failed, and unless a
   * run of the child had already seen it completed: no run of the child ends without an error or a
   * panic, and a child whose Job was never observed complete shows neither Ready nor the trace of a
   * panic, under every failure, edit and interleaving.
   */
  lemma FailedJobBlocksReady(st: State, steps: seq<Step>, n: string)
    requires Inv(st) && StaysFailed(st, steps, n) && Unseen(st, n)
    ensures var u := Exec(st, steps);
            && (u.serviceRun.Some? && u.serviceRun.value.run.name == n && S.Stopped(u.serviceRun.value.run) ==>
                  u.serviceRun.value.run.outcome.Fail?)
            && (n in u.store.services && Child(n, u.store.services[n].meta.uid) !in st.history.observed ==>
                  var cs := u.store.services[n].status.conditions;
                  !IsConditionTrue(cs, "Ready") && (cs == [] || HasError(cs)))
  {
    hide Inv, Exec, StaysFailed, Unseen;
    UnseenOverRuns(st, steps, n, 0);
    var u := Exec(st, steps);
    if n in u.store.services && Child(n, u.store.services[n].meta.uid) !in st.history.observed {
      UnseenOverRuns(st, steps, n, u.store.services[n].meta.uid);
      ShownWithoutJob(u, n);
    }
    UnseenNeverEnds(u, n);
  }

  lemma ShownWithoutJob(st: State, n: string)
    requires Inv(st) && n in st.store.services && Child(n, st.store.services[n].meta.uid) !in st.history.observed
    ensures var cs := st.store.services[n].status.conditions;
            !IsConditionTrue(cs, "Ready") && (cs == [] || HasError(cs))
  {
    assert ChildrenSound(st.store.services, st.history) by {
      hide Admitted, NoZombies, PlatformsAdmitted, SelectorsMatch, JobsBalanced, UidsBelow, ChildrenSound;
    }
    assert ChildSound(n, st.store.services[n], st.history);
    hide Inv, IsConditionTrue, HasError, PanicTrace;
  }

  lemma UnseenNeverEnds(st: State, n: string)
    requires Inv(st) && Unseen(st, n)
    ensures st.serviceRun.Some? && st.serviceRun.value.run.name == n && S.Stopped(st.serviceRun.value.run) ==>
              st.serviceRun.value.run.outcome.Fail?
  {
    hide StoreSound, PlatformRunSound, S.WellFormed, CopyCurrent, JobName;
    if st.serviceRun.Some? {
      assert ServiceRunSound(st.serviceRun.value, st.history);
    }
  }
}
