/**
 * No lost wake-up in the interleaved machine: what the call that a step completes returns, and
 * what a return without error and without retry means for the state it leaves, over every run.
 */
module Wakeups {
  import opened Api
  import opened Names
  import opened Admission
  import opened ApiServer
  import opened StageRunner
  import opened Protocol
  import opened Safety
  import opened Readiness
  import opened Deletion
  import opened Controllers
  import opened Turns
  import P = PlatformRun
  import S = SaiaRun

  /** A call that returned, for the object it was asked to reconcile. */
  datatype Returned = PlatformReturned(name: string, result: Result) | ServiceReturned(name: string, uid: nat, result: Result)

  function OkResult(o: Outcome): Result {
    if o.Ok? then Done else Error
  }

  function PlatformReturn(st: State, step: Step): Option<Returned> {
    var s := st.store;
    match step
    case PlatformFetch(name, failing) =>
      if st.platformRun.Some? then None
      else if name !in s.platforms then Some(PlatformReturned(name, Done))
      else if s.platforms[name].meta.deleting then
        Some(PlatformReturned(name, FinalizePlatform(s, name, failing, st.quantities).1))
      else None
    case PlatformPublish(lands) =>
      if st.platformRun.None? || !P.Stopped(st.platformRun.value) then None
      else Some(PlatformReturned(st.platformRun.value.name, OkResult(st.platformRun.value.outcome)))
    case _ => None
  }

  function ServiceReturn(st: State, step: Step): Option<Returned> {
    var s := st.store;
    match step
    case ServiceFetch(name, failing) =>
      if st.serviceRun.Some? then None
      else if name !in s.services then Some(ServiceReturned(name, 0, Done))
      else
        var v := s.services[name];
        if v.meta.deleting then Some(ServiceReturned(name, v.meta.uid, FinalizeService(s, name, failing).1))
        else if v.spec.feature.name !in FACTORIES then Some(ServiceReturned(name, v.meta.uid, RequeueAfter))
        else if v.spec.feature.name != "saia" then Some(ServiceReturned(name, v.meta.uid, Error))
        else None
    case ServicePublish(lands) =>
      if st.serviceRun.None? || st.serviceRun.value.published || !S.Stopped(st.serviceRun.value.run)
         || st.serviceRun.value.run.outcome.Ok? then None
      else Some(ServiceReturned(st.serviceRun.value.run.name, st.serviceRun.value.run.ai.meta.uid, Error))
    case ServiceStatusWrite(lands) =>
      if st.serviceRun.None? || !st.serviceRun.value.published then None
      else
        var r := st.serviceRun.value.run;
        Some(ServiceReturned(r.name, r.ai.meta.uid, OkResult(UpdateServiceStatus(s, r.name, WithStatus(r), lands).1)))
    case _ => None
  }

  /** The object reconcileStatus writes. */
  function WithStatus(r: S.Run): Service {
    r.ai.(status := r.ai.status.(conditions := WithReady(r.ai.status.conditions)))
  }

  // ---- the service controller -----------------------------------------------------------------------

  /** Nothing is left for the controller to do about this AIService. */
  predicate ServiceAtRest(t: Store, name: string, uid: nat, h: History) {
    name in t.services ==>
      var v := t.services[name];
      if v.meta.deleting && FINALIZER_SERVICE !in v.meta.finalizers then true
      else v.meta.uid == uid && IsConditionTrue(v.status.conditions, "Ready") && Child(name, uid) in h.observed
  }

  lemma FinalizedIsAtRest(s: Store, name: string, failing: set<Call>, h: History)
    requires name in s.services && s.services[name].meta.deleting && FinalizeService(s, name, failing).1 == Done
    ensures ServiceAtRest(FinalizeService(s, name, failing).0, name, s.services[name].meta.uid, h)
  {
    FinalizeServiceDoneIff(s, name, failing);
    hide ServiceUpdateValid, DefaultService, RemoveAll, IsConditionTrue;
  }

  lemma WriteShowsReady(st: State, step: Step)
    requires Inv(st) && step.ServiceStatusWrite? && st.serviceRun.Some? && st.serviceRun.value.published
    requires var r := st.serviceRun.value.run;
             UpdateServiceStatus(st.store, r.name, WithStatus(r), step.lands).1.Ok?
    ensures var r := st.serviceRun.value.run;
            ServiceAtRest(Next(st, step).store, r.name, r.ai.meta.uid, Next(st, step).history)
  {
    var r := st.serviceRun.value.run;
    PublishedRun(st);
    hide Inv, Next, UpdateServiceStatus, WithStatus, Published, ServiceAtRest;
    WithStatusShowsReady(r);
    WriteIs(st, step);
    LandedIsAtRest(st.store, r.name, WithStatus(r), step.lands, st.history);
  }

  /** A finished run's list already holds Ready, so nothing is added to it. */
  lemma WithStatusShowsReady(r: S.Run)
    requires Published(S.LABELS, r.conditions, r.next, r.outcome) && r.next == |S.STAGES| && r.outcome.Ok?
    requires r.ai.status.conditions == r.conditions
    ensures WithStatus(r).meta == r.ai.meta && IsConditionTrue(WithStatus(r).status.conditions, "Ready")
  {
    S.LabelsDistinct();
    ReadPublished(S.LABELS, r.conditions, r.next, r.outcome);
    ReadyHasKind(r.conditions);
    hide Published, IsConditionTrue;
  }

  lemma WriteIs(st: State, step: Step)
    requires step.ServiceStatusWrite? && st.serviceRun.Some? && st.serviceRun.value.published
    ensures var r := st.serviceRun.value.run;
            && Next(st, step).store == UpdateServiceStatus(st.store, r.name, WithStatus(r), step.lands).0
            && Next(st, step).history == st.history
  {
    hide UpdateServiceStatus, WithReady;
  }

  lemma LandedIsAtRest(s: Store, name: string, v: Service, lands: bool, h: History)
    requires UpdateServiceStatus(s, name, v, lands).1.Ok? && IsConditionTrue(v.status.conditions, "Ready")
    requires Child(name, v.meta.uid) in h.observed
    ensures ServiceAtRest(UpdateServiceStatus(s, name, v, lands).0, name, v.meta.uid, h)
  {
    hide IsConditionTrue;
  }

  lemma PublishedRun(st: State)
    requires Inv(st) && st.serviceRun.Some? && st.serviceRun.value.published
    ensures var sr := st.serviceRun.value;
            && Published(S.LABELS, sr.run.conditions, sr.run.next, sr.run.outcome) && sr.run.next == |S.STAGES| && sr.run.outcome.Ok?
            && sr.run.ai.status.conditions == sr.run.conditions
            && Child(sr.run.name, sr.run.ai.meta.uid) in st.history.observed
  {
    hide StoreSound, PlatformRunSound, Published, JobName;
  }

  /**
   * Over every run and every interleaving, lost writes and real conflicts included: when a call of
   * the service controller returns without error and without a retry, the AIService is gone, or in
   * deletion and no longer held, or the stored object is the one it reconciled and shows Ready,
   * its Job observed complete.
   */
  lemma ServiceReturnsAtRest(ns: string, quantities: iset<string>, steps: seq<Step>, step: Step)
    requires var ret := ServiceReturn(Exec(Empty(ns, quantities), steps), step); ret.Some? && ret.value.result == Done
    ensures var st := Exec(Empty(ns, quantities), steps);
            var ret := ServiceReturn(st, step).value;
            ServiceAtRest(Next(st, step).store, ret.name, ret.uid, Next(st, step).history)
  {
    hide Exec, UpdateServiceStatus, FinalizeService, ServiceAtRest, Inv, WithReady;
    Invariant(ns, quantities, steps);
    var st := Exec(Empty(ns, quantities), steps);
    if step.ServiceStatusWrite? {
      WriteShowsReady(st, step);
    } else if step.name in st.store.services {
      FinalizedIsAtRest(st.store, step.name, step.failing, st.history);
    } else {
      GoneIsAtRest(st.store, step.name, 0, st.history);
    }
  }

  lemma GoneIsAtRest(t: Store, name: string, uid: nat, h: History)
    requires name !in t.services
    ensures ServiceAtRest(t, name, uid, h)
  {
  }

  // ---- the platform controller ------------------------------------------------------------------------

  /**
   * The same for the platform controller: the platform is gone, or in deletion and no longer held,
   * or its run passed every stage and is publishing Ready. Here the status write may still be lost:
   * the stored status shows Ready if it lands, and otherwise nothing changes and nobody retries.
   */
  lemma PlatformReturnsAtRest(ns: string, quantities: iset<string>, steps: seq<Step>, step: Step)
    requires var ret := PlatformReturn(Exec(Empty(ns, quantities), steps), step); ret.Some? && ret.value.result == Done
    ensures var st := Exec(Empty(ns, quantities), steps);
            var name, t := PlatformReturn(st, step).value.name, Next(st, step).store;
            || name !in t.platforms
            || (t.platforms[name].meta.deleting && FINALIZER_PLATFORM !in t.platforms[name].meta.finalizers)
            || (&& step.PlatformPublish? && PublishesReady(st) && st.platformRun.value.name == name
                && (step.lands ==> IsConditionTrue(t.platforms[name].status.conditions, "Ready"))
                && (!step.lands ==> t == st.store))
  {
    hide Exec, Inv, IsConditionTrue, FinalizePlatform;
    Invariant(ns, quantities, steps);
    var st := Exec(Empty(ns, quantities), steps);
    if step.PlatformPublish? {
      PassedPublishes(st);
    } else if step.name in st.store.platforms {
      FinalizeDoneIff(st.store, step.name, step.failing, st.quantities);
      FinalizedDeleting(st.store, step.name, step.failing, st.quantities);
      assert Next(st, step).store == FinalizePlatform(st.store, step.name, step.failing, st.quantities).0;
    }
  }

  lemma PassedPublishes(st: State)
    requires Inv(st) && st.platformRun.Some? && P.Stopped(st.platformRun.value) && st.platformRun.value.outcome.Ok?
    ensures PublishesReady(st)
  {
    var r := st.platformRun.value;
    assert P.WellFormed(r) by { hide StoreSound, ServiceRunSound, ChildrenSound, P.WellFormed, HasError; }
    hide Inv, IsConditionTrue, Published;
    P.LabelsDistinct();
    ReadPublished(P.LABELS, r.conditions, r.next, r.outcome);
  }

  lemma FinalizedDeleting(s: Store, name: string, failing: set<Call>, quantities: iset<string>)
    requires name in s.platforms && s.platforms[name].meta.deleting
    ensures var t := FinalizePlatform(s, name, failing, quantities).0;
            name in t.platforms ==> t.platforms[name].meta.deleting
  {
    hide PlatformUpdateValid, DefaultPlatform, RemoveAll, DeleteServices, Owned;
    DeleteFrame(s, (set n | n in Owned(s, name) && DeleteChild(n) !in failing));
  }

  // ---- a whole call ------------------------------------------------------------------------------------

  /** What the machine says a call returned is what the call as a whole returns. */
  lemma ServiceTurnReturns(st: State, name: string, w: S.World, lands: bool)
    requires st.serviceRun.None? && name in st.store.services
    requires !st.store.services[name].meta.deleting && st.store.services[name].spec.feature.name == "saia"
    ensures var m := Exec(st, [ServiceFetch(name, {})] + ServiceStages(w, |S.STAGES|));
            var u := Exec(m, [ServicePublish(true)]);
            var (t, result) := ServiceReconciled(st.store, name, w, CallWorld(true, {}, true, lands));
            var first, second := ServiceReturn(m, ServicePublish(true)), ServiceReturn(u, ServiceStatusWrite(lands));
            && (first.Some? ==> first.value.result == result)
            && (first.None? ==> second.Some? && second.value.result == result && Next(u, ServiceStatusWrite(lands)).store == t)
  {
    hide S.StageStep, S.Finish, UpdateServiceStatus, S.ToPublish, WithReady, Refreshed, Exec, ServiceStages, S.WellFormed;
    var a, b := [ServiceFetch(name, {})], ServiceStages(w, |S.STAGES|);
    var r0 := S.Start(name, st.store.services[name]);
    ExecAppend(st, a, b);
    ExecOne(st, ServiceFetch(name, {}));
    var st1 := Exec(st, a);
    ServiceStagesFinish(st1, w, |S.STAGES|);
    ExecOne(Exec(st1, b), ServicePublish(true));
    S.StartWellFormed(name, st.store.services[name]);
    S.FinishWellFormed(st.store, r0, w);
    FinishNamed(st.store, r0, w);
  }

  lemma {:induction false} FinishNamed(s: Store, r: S.Run, w: S.World)
    ensures S.Finish(s, r, w).1.name == r.name
    decreases |S.STAGES| - r.next
  {
    hide S.StageStep;
    if !S.Stopped(r) {
      S.StepAdvances(s, r, w);
      FinishNamed(S.StageStep(s, r, w).0, S.StageStep(s, r, w).1, w);
    }
  }
}
