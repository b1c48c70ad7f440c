/** A reconcile that nothing interrupts, as a run of the state machine. */
module Turns {
  import opened Api
  import opened Names
  import opened ApiServer
  import opened Protocol
  import opened Deletion
  import P = PlatformRun
  import S = SaiaRun

  function PlatformStages(w: P.World, k: nat): seq<Step> {
    seq(k, _ => PlatformStage(w))
  }

  function ServiceStages(w: S.World, k: nat): seq<Step> {
    seq(k, _ => ServiceStage(w))
  }

  /** Fetch and every stage. */
  function PlatformLoop(name: string, w: P.World): seq<Step> {
    [PlatformFetch(name, {})] + PlatformStages(w, |P.STAGES|)
  }

  /** Fetch, every stage, and a deferred write that lands. */
  function PlatformTurn(name: string, w: P.World): seq<Step> {
    PlatformLoop(name, w) + [PlatformPublish(true)]
  }

  function ServiceTurn(name: string, w: S.World): seq<Step> {
    [ServiceFetch(name, {})] + ServiceStages(w, |S.STAGES|) + [ServicePublish(true), ServiceStatusWrite(true)]
  }

  lemma {:induction false} PlatformStagesFinish(st: State, w: P.World, k: nat)
    requires st.platformRun.Some? && k + st.platformRun.value.next >= |P.STAGES|
    ensures var (t, r) := P.Finish(st.store, st.platformRun.value, w);
            Exec(st, PlatformStages(w, k)) == st.(store := t, platformRun := Some(r))
    decreases k
  {
    hide P.StageStep;
    var r := st.platformRun.value;
    if k == 0 {
      assert PlatformStages(w, 0) == [];
    } else {
      assert PlatformStages(w, k) == [PlatformStage(w)] + PlatformStages(w, k - 1);
      ExecAppend(st, [PlatformStage(w)], PlatformStages(w, k - 1));
      ExecOne(st, PlatformStage(w));
      if P.Stopped(r) {
        PlatformStagesIdle(st, w, k);
      } else {
        P.StepAdvances(st.store, r, w);
        PlatformStagesFinish(Next(st, PlatformStage(w)), w, k - 1);
      }
    }
  }

  lemma ExecOne(st: State, step: Step)
    ensures Exec(st, [step]) == Next(st, step)
  {
    hide Next;
    assert [step][..0] == [];
  }

  lemma {:induction false} PlatformStagesIdle(st: State, w: P.World, k: nat)
    requires st.platformRun.Some? && P.Stopped(st.platformRun.value)
    ensures Exec(st, PlatformStages(w, k)) == st
    decreases k
  {
    hide P.Stopped;
    if k == 0 {
      assert PlatformStages(w, 0) == [];
    } else {
      assert PlatformStages(w, k)[..k - 1] == PlatformStages(w, k - 1);
      PlatformStagesIdle(st, w, k - 1);
    }
  }

  lemma PlatformLoopIs(st: State, name: string, w: P.World)
    requires st.platformRun.None? && name in st.store.platforms && !st.store.platforms[name].meta.deleting
    ensures var (t, r) := P.Finish(st.store, P.Start(name, st.store.platforms[name]), w);
            Exec(st, PlatformLoop(name, w)) == st.(store := t, platformRun := Some(r)) && P.Stopped(r) && r.name == name
  {
    hide P.StageStep, P.Finish;
    var a, b := [PlatformFetch(name, {})], PlatformStages(w, |P.STAGES|);
    var r0 := P.Start(name, st.store.platforms[name]);
    ExecAppend(st, a, b);
    ExecOne(st, PlatformFetch(name, {}));
    PlatformStagesFinish(Exec(st, a), w, |P.STAGES|);
    P.StartWellFormed(name, st.store.platforms[name]);
    P.FinishWellFormed(st.store, r0, w);
    PlatformKeepsName(st.store, r0, w);
  }

  /** An uninterrupted platform reconcile publishes what its stage loop computed, and leaves the rest alone. */
  lemma PlatformTurnIs(st: State, name: string, w: P.World)
    requires st.platformRun.None? && name in st.store.platforms && !st.store.platforms[name].meta.deleting
    ensures var (t, r) := P.Finish(st.store, P.Start(name, st.store.platforms[name]), w);
            Exec(st, PlatformTurn(name, w)) == st.(store := PublishPlatform(t, name, P.PublishedStatus(r), true))
  {
    hide P.Finish, PublishPlatform, P.PublishedStatus, PlatformLoop;
    ExecAppend(st, PlatformLoop(name, w), [PlatformPublish(true)]);
    PlatformLoopIs(st, name, w);
    ExecOne(Exec(st, PlatformLoop(name, w)), PlatformPublish(true));
  }

  lemma {:induction false} PlatformKeepsName(s: Store, r: P.Run, w: P.World)
    ensures P.Finish(s, r, w).1.name == r.name
    decreases |P.STAGES| - r.next
  {
    hide P.StageStep;
    if !P.Stopped(r) {
      P.StepAdvances(s, r, w);
      var (t, q) := P.StageStep(s, r, w);
      PlatformKeepsName(t, q, w);
    }
  }

  // ---- services -------------------------------------------------------------------------------------------

  /** The part of the state the service controller does not touch. */
  predicate SameBesideService(st: State, t: State) {
    t == st.(store := t.store, serviceRun := t.serviceRun, history := t.history)
  }

  lemma {:induction false} ServiceStagesFinish(st: State, w: S.World, k: nat)
    requires st.serviceRun.Some? && !st.serviceRun.value.published && k + st.serviceRun.value.run.next >= |S.STAGES|
    ensures var (t, r) := S.Finish(st.store, st.serviceRun.value.run, w);
            var u := Exec(st, ServiceStages(w, k));
            && SameBesideService(st, u) && u.store == t
            && u.serviceRun.Some? && u.serviceRun.value.run == r && !u.serviceRun.value.published
    decreases k
  {
    hide S.StageStep, ReadsCompleted, JobName;
    var r := st.serviceRun.value.run;
    if k == 0 {
      assert ServiceStages(w, 0) == [];
    } else {
      assert ServiceStages(w, k) == [ServiceStage(w)] + ServiceStages(w, k - 1);
      ExecAppend(st, [ServiceStage(w)], ServiceStages(w, k - 1));
      ExecOne(st, ServiceStage(w));
      if S.Stopped(r) {
        ServiceStagesIdle(st, w, k);
      } else {
        S.StepAdvances(st.store, r, w);
        ServiceStagesFinish(Next(st, ServiceStage(w)), w, k - 1);
      }
    }
  }

  lemma {:induction false} ServiceStagesIdle(st: State, w: S.World, k: nat)
    requires st.serviceRun.Some? && S.Stopped(st.serviceRun.value.run)
    ensures Exec(st, ServiceStages(w, k)) == st
    decreases k
  {
    hide S.Stopped, ServiceStaged;
    if k == 0 {
      assert ServiceStages(w, 0) == [];
    } else {
      assert ServiceStages(w, k)[..k - 1] == ServiceStages(w, k - 1);
      ServiceStagesIdle(st, w, k - 1);
    }
  }

  /** What the two status writes of an uninterrupted reconcile leave in the store. */
  function AfterWrites(t: Store, r: S.Run): Store {
    var (u, o) := UpdateServiceStatus(t, r.name, S.ToPublish(r), true);
    if !r.outcome.Ok? then u
    else
      var ai := if o.Ok? then Refreshed(u, r.name, S.ToPublish(r)) else S.ToPublish(r);
      UpdateServiceStatus(u, r.name, ai.(status := ai.status.(conditions := WithReady(ai.status.conditions))), true).0
  }

  lemma ServiceTurnIs(st: State, name: string, w: S.World)
    requires st.serviceRun.None? && name in st.store.services
    requires !st.store.services[name].meta.deleting && st.store.services[name].spec.feature.name == "saia"
    ensures var (t, r) := S.Finish(st.store, S.Start(name, st.store.services[name]), w);
            var u := Exec(st, ServiceTurn(name, w));
            SameBesideService(st, u) && u.serviceRun.None? && u.store == AfterWrites(t, r)
  {
    hide S.StageStep, S.Finish, UpdateServiceStatus, S.ToPublish, WithReady, Refreshed;
    var a, b := [ServiceFetch(name, {})], ServiceStages(w, |S.STAGES|);
    var c, d := [ServicePublish(true)], [ServiceStatusWrite(true)];
    var r0 := S.Start(name, st.store.services[name]);
    assert ServiceTurn(name, w) == a + b + c + d;
    ExecAppend(st, a, b);
    ExecAppend(st, a + b, c);
    ExecAppend(st, a + b + c, d);
    ExecOne(st, ServiceFetch(name, {}));
    var st1 := Exec(st, a);
    ServiceStagesFinish(st1, w, |S.STAGES|);
    ExecOne(Exec(st1, b), ServicePublish(true));
    ExecOne(Exec(Exec(st1, b), c), ServiceStatusWrite(true));
    S.StartWellFormed(name, st.store.services[name]);
    S.FinishWellFormed(st.store, r0, w);
  }

  // ---- coming to rest -------------------------------------------------------------------------------------

  lemma {:induction false} NoServiceRun(st: State, w: S.World, k: nat)
    requires st.serviceRun.None?
    ensures Exec(st, ServiceStages(w, k)) == st
    decreases k
  {
    if k == 0 {
      assert ServiceStages(w, 0) == [];
    } else {
      assert ServiceStages(w, k)[..k - 1] == ServiceStages(w, k - 1);
      NoServiceRun(st, w, k - 1);
    }
  }

  lemma {:induction false} NoPlatformRun(st: State, w: P.World, k: nat)
    requires st.platformRun.None?
    ensures Exec(st, PlatformStages(w, k)) == st
    decreases k
  {
    if k == 0 {
      assert PlatformStages(w, 0) == [];
    } else {
      assert PlatformStages(w, k)[..k - 1] == PlatformStages(w, k - 1);
      NoPlatformRun(st, w, k - 1);
    }
  }

  predicate Idle(st: State) {
    st.platformRun.None? && st.serviceRun.None?
  }

  /** Enough steps to finish whatever run of either controller is in flight. */
  function Settle(pw: P.World, sw: S.World): seq<Step> {
    (PlatformStages(pw, |P.STAGES|) + [PlatformPublish(true)])
    + (ServiceStages(sw, |S.STAGES|) + [ServicePublish(true), ServiceStatusWrite(true)])
  }

  lemma PlatformSettles(st: State, w: P.World)
    requires Inv(st)
    ensures var u := Exec(st, PlatformStages(w, |P.STAGES|) + [PlatformPublish(true)]);
            u.platformRun.None? && u.serviceRun == st.serviceRun
  {
    var a, c := PlatformStages(w, |P.STAGES|), [PlatformPublish(true)];
    ExecAppend(st, a, c);
    ExecOne(Exec(st, a), PlatformPublish(true));
    if st.platformRun.None? {
      NoPlatformRun(st, w, |P.STAGES|);
    } else {
      var r := st.platformRun.value;
      assert P.WellFormed(r) by { hide StoreSound, ServiceRunSound, ChildrenSound, P.WellFormed, HasError; }
      hide Inv, P.StageStep, P.WellFormed, PublishPlatform, P.PublishedStatus, Exec;
      PlatformStagesFinish(st, w, |P.STAGES|);
      P.FinishWellFormed(st.store, r, w);
    }
  }

  lemma ServiceSettles(st: State, w: S.World)
    requires Inv(st)
    ensures var u := Exec(st, ServiceStages(w, |S.STAGES|) + [ServicePublish(true), ServiceStatusWrite(true)]);
            u.serviceRun.None? && u.platformRun == st.platformRun
  {
    var a, c, d := ServiceStages(w, |S.STAGES|), [ServicePublish(true)], [ServiceStatusWrite(true)];
    assert c + d == [ServicePublish(true), ServiceStatusWrite(true)];
    assert a + (c + d) == a + c + d;
    ExecAppend(st, a, c);
    ExecAppend(st, a + c, d);
    var st1 := Exec(st, a);
    ExecOne(st1, ServicePublish(true));
    ExecOne(Exec(st1, c), ServiceStatusWrite(true));
    if st.serviceRun.None? {
      NoServiceRun(st, w, |S.STAGES|);
    } else {
      var sr := st.serviceRun.value;
      assert S.WellFormed(sr.run) && (sr.published ==> S.Stopped(sr.run)) by {
        hide StoreSound, PlatformRunSound, S.WellFormed, S.Stopped, JobName;
      }
      hide Inv, S.StageStep, S.WellFormed, UpdateServiceStatus, S.ToPublish, WithReady, Refreshed, Exec;
      if sr.published {
        ServiceStagesIdle(st, w, |S.STAGES|);
      } else {
        ServiceStagesFinish(st, w, |S.STAGES|);
        S.FinishWellFormed(st.store, sr.run, w);
      }
    }
  }
}
