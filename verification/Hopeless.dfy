/** A platform whose children admission refuses never becomes Ready, whatever happens. */
module Hopeless {
  import opened Api
  import opened Names
  import opened Admission
  import opened ApiServer
  import opened StageRunner
  import opened Features
  import opened Protocol
  import opened Safety
  import opened Readiness
  import opened Immutability
  import P = PlatformRun
  import D = Deletion

  /** It wants children, and the service webhook will refuse each of them. */
  predicate Refused(p: PlatformSpec) {
    p.features != [] && !ChildAdmissible(p)
  }

  /** Users never give the platform of that name any other kind of spec. */
  predicate RefusedStep(step: Step, name: string) {
    (step.UserCreatePlatform? || step.UserEditPlatform?) && step.name == name ==> Refused(DefaultPlatform(step.platform))
  }

  // ---- the AIService stage always fails ---------------------------------------------------------------

  lemma BuiltRefused(name: string, ns: string, p: Platform, f: Feature)
    requires p.spec.splunk.endpoint != "" && !ChildAdmissible(p.spec)
    ensures !ServiceValid(DefaultService(BuildService(name, ns, p, f)))
  {
  }

  lemma FeaturesRefused(s: Store, name: string, p: Platform, failing: set<Call>, reached: set<string>)
    requires Admitted(s) && Refused(p.spec) && p.spec.splunk.endpoint != ""
    ensures !ReconcileFeatures(s, name, p, failing, reached).1.Ok?
  {
    BuiltRefused(name, s.ns, p, p.spec.features[0]);
    hide Upsert, ChildAdmissible, BuildService, DefaultService, ServiceValid, DesiredNames, Admitted;
    UpsertRefused(s, name, p, p.spec.features[0], failing);
  }

  // ---- the invariant -------------------------------------------------------------------------------------

  /** A run of the platform is doomed: its copy stays refused, and it does not get past the AIService stage. */
  predicate Doomed(r: P.Run) {
    && Refused(r.p.spec)
    && (r.next > 0 && r.outcome.Ok? ==> r.p.spec.splunk.endpoint != "")
    && (r.next > 9 ==> !r.outcome.Ok?)
  }

  predicate NoHope(st: State, name: string) {
    && (name in st.store.platforms ==>
          Refused(st.store.platforms[name].spec) && !IsConditionTrue(st.store.platforms[name].status.conditions, "Ready"))
    && (st.platformRun.Some? && st.platformRun.value.name == name ==> Doomed(st.platformRun.value))
  }

  lemma ValidateKeepsRefused(s: Store, p: Platform, w: P.World)
    requires Refused(p.spec)
    ensures var (q, o) := P.ValidatePlatform(s, p, w);
            Refused(q.spec) && (o.Ok? ==> q.spec.splunk.endpoint != "")
  {
    hide Enrich;
  }

  lemma StageDoomed(s: Store, r: P.Run, w: P.World)
    requires Doomed(r) && !P.Stopped(r) && Admitted(s)
    ensures Doomed(P.StageStep(s, r, w).1)
  {
    ValidateKeepsRefused(s, r.p, w);
    if r.next == 9 {
      FeaturesRefused(s, r.name, r.p, w.failing, w.reached);
    }
    hide Admitted, ChildAdmissible, ReconcileFeatures, P.ValidatePlatform, P.ReconcileWeaviate, CheckChildren, P.Listing;
  }

  /** Where a stored platform's status comes from. */
  predicate StatusFrom(st: State, t: Store, step: Step, key: string) {
    key in t.platforms ==>
      || (key in st.store.platforms && t.platforms[key].status == st.store.platforms[key].status)
      || t.platforms[key].status.conditions == []
      || (&& step.PlatformPublish? && st.platformRun.Some? && st.platformRun.value.name == key && P.Stopped(st.platformRun.value)
          && t.platforms[key].status.conditions == st.platformRun.value.conditions)
  }

  lemma PlatformStatuses(st: State, step: Step, key: string)
    requires step.PlatformFetch? || step.PlatformStage? || step.PlatformPublish?
    ensures StatusFrom(st, PlatformNext(st, step).store, step, key)
  {
    hide P.StageStep, DeleteServices, UpdatePlatform, RemoveAll, Owned, P.Stopped;
    var s := st.store;
    if step.PlatformStage? {
      D.PlatformStageKeepsPlatforms(st, step.pw);
    } else if step.PlatformFetch? && step.name in s.platforms {
      var p := s.platforms[step.name];
      DeleteFrame(s, (set n | n in Owned(s, step.name) && DeleteChild(n) !in step.failing));
      UpdatePlans(s, step.name, p.(meta := p.meta.(finalizers := RemoveAll(p.meta.finalizers, FINALIZER_PLATFORM))), st.quantities, key);
    }
  }

  lemma EnvironmentStatuses(st: State, step: Step, key: string)
    requires !IsController(step)
    ensures StatusFrom(st, EnvironmentStore(st.store, step, st.quantities), step, key)
  {
    var s := st.store;
    if OnServices(step) {
      ServiceUserFrame(s, step, st.quantities);
      hide EnvironmentStore;
    } else if step.DropFinalizer? {
      hide RemoveAll, DropServiceFinalizer;
      DropServiceFrame(s, step.name, step.finalizer);
    } else {
      hide UpdatePlatform, PlatformValid, DefaultPlatform;
      match step {
        case UserEditPlatform(n, labels, spec) =>
          if n in s.platforms {
            UpdatePlans(s, n, s.platforms[n].(spec := spec, meta := s.platforms[n].meta.(labels := labels)), st.quantities, key);
          }
        case _ =>
      }
    }
  }

  lemma StepStatuses(st: State, step: Step, key: string)
    ensures StatusFrom(st, Next(st, step).store, step, key)
  {
    hide PlatformNext, ServiceNext, EnvironmentStore;
    if step.PlatformFetch? || step.PlatformStage? || step.PlatformPublish? {
      PlatformStatuses(st, step, key);
    } else if step.ServiceFetch? || step.ServiceStage? || step.ServicePublish? || step.ServiceStatusWrite? {
      D.ServiceStepsKeepPlatforms(st, step);
    } else {
      EnvironmentStatuses(st, step, key);
    }
  }

  /** A doomed run's list never holds Ready. */
  lemma DoomedNeverReady(r: P.Run)
    requires Doomed(r) && P.WellFormed(r)
    ensures !IsConditionTrue(r.conditions, "Ready")
  {
    hide IsConditionTrue, ChildAdmissible, Published;
    P.LabelsDistinct();
    assert Published(P.LABELS, r.conditions, r.next, r.outcome) && r.next <= |P.STAGES|;
    ReadPublished(P.LABELS, r.conditions, r.next, r.outcome);
  }

  lemma RunWellFormed(st: State)
    requires Inv(st) && st.platformRun.Some?
    ensures P.WellFormed(st.platformRun.value)
  {
    hide StoreSound, ServiceRunSound, ChildrenSound, P.WellFormed, HasError;
  }

  lemma RefusedDefault(p: PlatformSpec)
    requires Refused(p)
    ensures Refused(DefaultPlatform(p))
  {
  }

  lemma NoHopeNext(st: State, step: Step, name: string)
    requires Inv(st) && NoHope(st, name) && RefusedStep(step, name)
    ensures NoHope(Next(st, step), name)
  {
    InvStore(st);
    hide Inv, Next, Doomed, Refused, IsConditionTrue, Admitted, NoZombies;
    if name in Next(st, step).store.platforms {
      StoredStaysHopeless(st, step, name);
    }
    if Next(st, step).platformRun.Some? && Next(st, step).platformRun.value.name == name {
      DoomedNext(st, step, name);
    }
  }

  lemma StoredStaysHopeless(st: State, step: Step, name: string)
    requires Inv(st) && NoHope(st, name) && RefusedStep(step, name) && name in Next(st, step).store.platforms
    ensures var p := Next(st, step).store.platforms[name];
            Refused(p.spec) && !IsConditionTrue(p.status.conditions, "Ready")
  {
    var u := Next(st, step);
    hide Inv, Next, Doomed, Refused, DefaultPlatform, IsConditionTrue;
    StepPlans(st, step, name);
    StepStatuses(st, step, name);
    NothingReady();
    if name in st.store.platforms {
      RefusedDefault(st.store.platforms[name].spec);
    }
    if step.PlatformPublish? && st.platformRun.Some? && st.platformRun.value.name == name {
      RunWellFormed(st);
      DoomedNeverReady(st.platformRun.value);
    }
  }

  lemma DoomedNext(st: State, step: Step, name: string)
    requires Admitted(st.store) && NoHope(st, name)
    requires Next(st, step).platformRun.Some? && Next(st, step).platformRun.value.name == name
    ensures Doomed(Next(st, step).platformRun.value)
  {
    RunPlans(st, step);
    hide Admitted, Refused, IsConditionTrue;
    if st.platformRun.Some? {
      if step.PlatformStage? && !P.Stopped(st.platformRun.value) {
        hide Doomed, P.StageStep;
        StageDoomed(st.store, st.platformRun.value, step.pw);
        StageRuns(st, step.pw);
      } else {
        RunUntouched(st, step);
      }
    } else {
      assert Next(st, step).platformRun.value.next == 0;
    }
  }

  lemma StageRuns(st: State, w: P.World)
    requires st.platformRun.Some? && !P.Stopped(st.platformRun.value)
    ensures Next(st, PlatformStage(w)).platformRun == Some(P.StageStep(st.store, st.platformRun.value, w).1)
  {
    hide P.StageStep;
  }

  lemma RunUntouched(st: State, step: Step)
    requires st.platformRun.Some? && Next(st, step).platformRun.Some? && !(step.PlatformStage? && !P.Stopped(st.platformRun.value))
    ensures Next(st, step).platformRun == st.platformRun
  {
    hide P.StageStep, EnvironmentStore, ServiceNext, FinalizePlatform, PublishPlatform, P.PublishedStatus, P.Stopped;
    if step.ServiceFetch? || step.ServiceStage? || step.ServicePublish? || step.ServiceStatusWrite? {
      ServiceKeepsRun(st, step);
    }
  }

  lemma {:induction false} NoHopeOverRuns(ns: string, quantities: iset<string>, steps: seq<Step>, name: string)
    requires forall j :: 0 <= j < |steps| ==> RefusedStep(steps[j], name)
    ensures NoHope(Exec(Empty(ns, quantities), steps), name)
    decreases |steps|
  {
    hide NoHope, Next, RefusedStep, Inv;
    if steps == [] {
      assert NoHope(Empty(ns, quantities), name) by { EmptyNoHope(ns, quantities, name); }
    } else {
      var front := steps[..|steps| - 1];
      NoHopeOverRuns(ns, quantities, front, name);
      Invariant(ns, quantities, front);
      NoHopeNext(Exec(Empty(ns, quantities), front), steps[|steps| - 1], name);
    }
  }

  lemma EmptyNoHope(ns: string, quantities: iset<string>, name: string)
    ensures NoHope(Empty(ns, quantities), name)
  {
  }

  /**
   * Over every run in which users give the platform only specs that want children and whose
   * children the service webhook refuses, under every world, failure and interleaving: no
   * reachable state shows the platform Ready, and none is about to publish it.
   */
  lemma NeverReadyOverRuns(ns: string, quantities: iset<string>, steps: seq<Step>, name: string)
    requires forall j :: 0 <= j < |steps| ==> RefusedStep(steps[j], name)
    ensures var st := Exec(Empty(ns, quantities), steps);
            && (name in st.store.platforms ==> !IsConditionTrue(st.store.platforms[name].status.conditions, "Ready"))
            && !(PublishesReady(st) && st.platformRun.value.name == name)
  {
    var st := Exec(Empty(ns, quantities), steps);
    hide Exec, RefusedStep, Doomed, Refused, IsConditionTrue, Inv;
    NoHopeOverRuns(ns, quantities, steps, name);
    Invariant(ns, quantities, steps);
    if st.platformRun.Some? && st.platformRun.value.name == name {
      RunWellFormed(st);
      DoomedNeverReady(st.platformRun.value);
    }
  }
}
