/** When the two controllers leave each other's AIServices alone, and when they never do. */
module Quiescence {
  import opened Api
  import opened Names
  import opened Admission
  import opened Features
  import opened Protocol
  import opened Readiness
  import opened Turns
  import opened Deletion
  import opened Immutability
  import opened Liveness
  import P = PlatformRun
  import S = SaiaRun
  import PL = PlatformLiveness
  import SL = ServiceLiveness

  /** The AIServices and their specs are the same. */
  predicate SpecsSame(s: Store, t: Store) {
    s.services.Keys == t.services.Keys && forall n :: n in s.services ==> s.services[n].spec == t.services[n].spec
  }

  // ---- any store, any world -------------------------------------------------------------------------

  /** A run of a child that has an account name writes no AIService, however it goes. */
  lemma {:induction false} NamedRunWritesNothing(s: Store, r: S.Run, w: S.World)
    requires r.ai.spec.serviceAccount != ""
    ensures S.Finish(s, r, w).0.services == s.services
    decreases |S.STAGES| - r.next
  {
    hide S.StageStep;
    if !S.Stopped(r) {
      NamedStage(s, r, w);
      S.StepAdvances(s, r, w);
      var (t, q) := S.StageStep(s, r, w);
      NamedRunWritesNothing(t, q, w);
    }
  }

  lemma NamedStage(s: Store, r: S.Run, w: S.World)
    requires !S.Stopped(r) && r.ai.spec.serviceAccount != ""
    ensures var (t, q) := S.StageStep(s, r, w);
            t.services == s.services && q.ai.spec.serviceAccount == r.ai.spec.serviceAccount
  {
    hide S.ValidateSpec, S.ReconcileHook, S.ReconcileCertificate, S.ReconcileDeployment, S.ForeignAnnotations;
    ValidateKeepsAccount(s, r.ai.spec, w);
    HookKeepsSpec(s, r.name, r.ai, w);
    CertificateFrame(s, r.name, r.ai, w);
    DeploymentFrame(s, r.name, r.ai, w);
  }

  lemma ValidateKeepsAccount(s: Store, v: ServiceSpec, w: S.World)
    ensures S.ValidateSpec(s, v, w).0.serviceAccount == v.serviceAccount
  {
    hide Enrich;
  }

  lemma HookKeepsSpec(s: Store, n: string, ai: Service, w: S.World)
    ensures var (t, ai2, o) := S.ReconcileHook(s, n, ai, w);
            t.services == s.services && ai2.spec == ai.spec
  {
    hide JobName, S.JobVerdict;
  }

  /** A run of an unnamed child that gets past its account stage has written the derived name. */
  lemma UnnamedRunWrites(s: Store, n: string, w: S.World)
    requires n in s.services && s.services[n].spec.serviceAccount == ""
    requires NoZombies(s) && !s.services[n].meta.deleting
    requires S.Finish(s, S.Start(n, s.services[n]), w).1.next > 2
    ensures var t := S.Finish(s, S.Start(n, s.services[n]), w).0;
            n in t.services && t.services[n].spec.serviceAccount == n + "-sa"
  {
    var r := S.Start(n, s.services[n]);
    hide S.StageStep, S.Finish, NoZombies;
    FinishUnfolds(s, r, w);
    FirstStageOf(s, n, w);
    var (t1, r1) := S.StageStep(s, r, w);
    FinishUnfolds(t1, r1, w);
    SecondStageOf(s, n, r1, w);
    var (t2, r2) := S.StageStep(t1, r1, w);
    FinishUnfolds(t2, r2, w);
    NamedRunWritesNothing(t2, r2, w);
  }

  lemma FirstStageOf(s: Store, n: string, w: S.World)
    requires n in s.services
    ensures var ai := s.services[n];
            var (t, q) := S.StageStep(s, S.Start(n, ai), w);
            && t == s && q.next == 1 && q.name == n && q.ai == ai.(spec := q.ai.spec)
            && q.ai.spec.serviceAccount == ai.spec.serviceAccount
  {
    ValidateKeepsAccount(s, s.services[n].spec, w);
    hide S.ValidateSpec;
  }

  lemma SecondStageOf(s: Store, n: string, r: S.Run, w: S.World)
    requires n in s.services && r.name == n && r.next == 1 && !S.Stopped(r) && r.ai.spec.serviceAccount == "" && !r.ai.meta.deleting
    ensures var (t, q) := S.StageStep(s, r, w);
            && q.next == 2
            && (q.outcome.Ok? ==> n in t.services && t.services[n].spec.serviceAccount == n + "-sa" && q.ai.spec.serviceAccount == n + "-sa")
  {
    hide S.ReconcileAccount;
    AccountWritten(s, n, r.ai, w);
  }

  lemma FinishUnfolds(s: Store, r: S.Run, w: S.World)
    requires S.Finish(s, r, w).1.next > r.next
    ensures !S.Stopped(r) && S.Finish(s, r, w) == S.Finish(S.StageStep(s, r, w).0, S.StageStep(s, r, w).1, w)
  {
    hide S.StageStep;
  }

  lemma AccountWritten(s: Store, n: string, ai: Service, w: S.World)
    requires n in s.services && ai.spec.serviceAccount == "" && !ai.meta.deleting
    ensures var (t, ai2, o) := S.ReconcileAccount(s, n, ai, w);
            o.Ok? ==> n in t.services && t.services[n].spec.serviceAccount == n + "-sa" && ai2.spec.serviceAccount == n + "-sa"
  {
    hide ServiceUpdateValid, DefaultService;
    DefaultingKeeps(ai.spec.(serviceAccount := n + "-sa"));
  }

  /**
   * If a feature names no account, no store whatever is a common fixed point: where the
   * platform's children are as it wants them, the child's own run writes its spec.
   */
  lemma NoCommonFixedPoint(s: Store, name: string, p: Platform, i: nat, failing: set<Call>, reached: set<string>, w: S.World)
    requires NoZombies(s) && Admitted(s) && FeatureNamesDistinct(p.spec.features) && i < |p.spec.features|
    requires p.spec.features[i].serviceAccount == ""
    requires ReconcileFeatures(s, name, p, failing, reached).1.Ok?
    requires var n := ChildName(name, p.spec.features[i].name);
             n in s.services ==> !s.services[n].meta.deleting && S.Finish(s, S.Start(n, s.services[n]), w).1.next > 2
    ensures var n := ChildName(name, p.spec.features[i].name);
            !(SpecsSame(s, ReconcileFeatures(s, name, p, failing, reached).0)
              && (n in s.services ==> SpecsSame(s, S.Finish(s, S.Start(n, s.services[n]), w).0)))
  {
    hide ReconcileFeatures, S.Finish, Settled, NoZombies, Admitted, ChildName;
    var n, t := ChildName(name, p.spec.features[i].name), ReconcileFeatures(s, name, p, failing, reached).0;
    EveryFeatureSettled(s, name, p, failing, reached, i);
    SettledSpec(t, name, p, p.spec.features[i]);
    if n in s.services && SpecsSame(s, t) {
      UnnamedRunWrites(s, n, w);
    }
  }

  lemma SettledSpec(s: Store, name: string, p: Platform, f: Feature)
    requires Settled(s, name, p, f)
    ensures var n := ChildName(name, f.name);
            n in s.services && s.services[n].spec.serviceAccount == f.serviceAccount
  {
    DefaultingKeeps(BuildService(name, s.ns, p, f));
    hide DefaultService, ServiceValid;
  }

  // ---- whole turns from a reachable state ------------------------------------------------------------

  /** Preparing the same platform later builds the same children. */
  lemma SameBuild(s: Store, t: Store, name: string, w: P.World, f: Feature)
    requires name in s.platforms && name in t.platforms && w.ray.Some? && s.ns == t.ns
    requires s.platforms[name].spec == t.platforms[name].spec
    ensures BuildService(name, s.ns, PL.Prepared(s, name, w), f) == BuildService(name, t.ns, PL.Prepared(t, name, w), f)
    ensures PL.Prepared(s, name, w).spec == PL.Prepared(t, name, w).spec
  {
    hide Enrich;
  }

  lemma ChildSettled(s: Store, t: Store, m: Store, name: string, w: P.World, i: nat)
    requires PL.TurnOutcome(s, t, name, w) && Admitted(t) && NoZombies(t)
    requires m.services == t.services && m.ns == t.ns
    requires var fs := PL.Prepared(s, name, w).spec.features; FeatureNamesDistinct(fs) && i < |fs|
    ensures Settled(m, name, PL.Prepared(t, name, w), PL.Prepared(s, name, w).spec.features[i])
  {
    hide S.GateError, IsConditionTrue, PL.AnyError, PL.WroteChildren, PL.Prepared, DefaultService, BuildService, ServiceValid,
      Carried, NewBorn, ChildWritten, ChildName;
    var p, q := PL.Prepared(s, name, w), PL.Prepared(t, name, w);
    var f := p.spec.features[i];
    var n := ChildName(name, f.name);
    SameBuild(s, t, name, w, f);
    LastForDistinct(name, p.spec.features, i);
    assert n in DesiredNames(name, p.spec.features);
    assert Converged(t, name, p, f, n, s.services);
    WrittenFollowsBuild(t.services[n], name, t.ns, p, t.ns, q, f);
    assert SpecAdmitted(t.services[n].spec);
  }

  lemma PlatformTurnIdle(s: Store, t: Store, u: Store, name: string, w: P.World)
    requires PL.TurnOutcome(s, t, name, w) && PL.TurnOutcome(t, u, name, w) && Admitted(t) && NoZombies(t)
    requires name in s.platforms && FeatureNamesDistinct(s.platforms[name].spec.features)
    ensures u.services == t.services
  {
    PL.TurnOutcomeIs(s, t, name, w);
    PL.TurnOutcomeIs(t, u, name, w);
    PL.PreparedKeeps(s, name, w);
    SameBuild(s, t, name, w, Feature("", "", "", None));
    var p, q := PL.Prepared(s, name, w), PL.Prepared(t, name, w);
    assert PL.WroteChildren(t, u, name, q, w);
    hide PL.TurnOutcome, PL.Prepared, ReconcileFeatures, Settled, Admitted, FeatureNamesDistinct, FeaturesSettled, DesiredNames, NoZombies;
    var m: Store :| m == t.(statefulSets := m.statefulSets, serviceAccounts := m.serviceAccounts)
                    && u.services == ReconcileFeatures(m, name, q, w.failing, w.reached).0.services;
    hide PL.WroteChildren;
    forall i | 0 <= i < |q.spec.features| ensures Settled(m, name, q, q.spec.features[i]) {
      ChildSettled(s, t, m, name, w, i);
    }
    UndesiredGoing(s, t, m, name, p);
    SettledRunIdle(m, name, q, w.failing, w.reached);
  }

  lemma UndesiredGoing(s: Store, t: Store, m: Store, name: string, p: Platform)
    requires FeaturesSettled(s, t, name, p) && NoZombies(t) && m.services == t.services && m.platforms == t.platforms
    ensures NoZombies(m)
    ensures forall n :: n in Owned(m, name) && n !in DesiredNames(name, p.spec.features) ==> m.services[n].meta.deleting
  {
    hide DesiredNames, Converged, SameAt;
    assert Owned(m, name) == Owned(t, name);
  }

  lemma RoundTripRestores(s: Store, t: Store, u: Store, v: Store, name: string, child: string, w: P.World)
    requires PL.TurnOutcome(s, t, name, w) && BesideChild(t, u, child) && PL.TurnOutcome(u, v, name, w) && NoZombies(t)
    requires name in s.platforms && child in DesiredNames(name, s.platforms[name].spec.features)
    ensures SpecsSame(t, v)
  {
    PL.TurnOutcomeIs(s, t, name, w);
    PL.TurnOutcomeIs(u, v, name, w);
    PL.PreparedKeeps(s, name, w);
    SameBuild(s, u, name, w, Feature("", "", "", None));
    hide PL.TurnOutcome, PL.Prepared, NoZombies, SpecsSame, DesiredNames, LastFor, FeaturesSettled, BesideChild;
    forall n ensures SpecSameAt(t, v, n) {
      RestoredAt(s, t, u, v, name, child, w, n);
    }
    assert SpecsSame(t, v) by { EverywhereSame(t, v); }
  }

  predicate SpecSameAt(s: Store, t: Store, n: string) {
    (n in s.services <==> n in t.services) && (n in s.services ==> s.services[n].spec == t.services[n].spec)
  }

  lemma EverywhereSame(s: Store, t: Store)
    requires forall n :: SpecSameAt(s, t, n)
    ensures SpecsSame(s, t)
  {
    forall n ensures n in s.services <==> n in t.services {
      assert SpecSameAt(s, t, n);
    }
    forall n | n in s.services ensures s.services[n].spec == t.services[n].spec {
      assert SpecSameAt(s, t, n);
    }
  }

  lemma RestoredAt(s: Store, t: Store, u: Store, v: Store, name: string, child: string, w: P.World, n: string)
    requires name in s.platforms && name in u.platforms && w.ray.Some? && NoZombies(t) && BesideChild(t, u, child)
    requires s.ns == t.ns == v.ns && s.platforms[name].spec == u.platforms[name].spec
    requires FeaturesSettled(s, t, name, PL.Prepared(s, name, w)) && FeaturesSettled(u, v, name, PL.Prepared(u, name, w))
    requires child in DesiredNames(name, PL.Prepared(s, name, w).spec.features)
    ensures SpecSameAt(t, v, n)
  {
    SameBuild(s, u, name, w, Feature("", "", "", None));
    var p, q := PL.Prepared(s, name, w), PL.Prepared(u, name, w);
    if n in DesiredNames(name, p.spec.features) {
      var f := LastFor(name, p.spec.features, n).value;
      SameBuild(s, u, name, w, f);
      hide PL.Prepared, DefaultService, BuildService, ChildWritten, Carried, NewBorn, DesiredNames, LastFor, SL.SameCore, NoZombies, SL.SameMeta,
        BesideChild;
      assert Converged(t, name, p, f, n, s.services) && Converged(v, name, q, f, n, u.services);
    } else {
      hide PL.Prepared, DesiredNames, LastFor;
      assert p.spec == q.spec;
      hide FeaturesSettled;
      LeftAlone(u, v, name, q, n);
      BesideKeepsOwned(t, u, name, child, n);
      OwnedIsMarked(s, t, name, p, n);
      hide BesideChild, NoZombies;
    }
  }

  /** A child that is wanted by nobody is marked once it was deleted. */
  lemma OwnedIsMarked(s: Store, t: Store, name: string, p: Platform, n: string)
    requires FeaturesSettled(s, t, name, p) && n !in DesiredNames(name, p.spec.features)
    ensures n in Owned(t, name) ==> t.services[n].meta.deleting
  {
    hide Converged, DesiredNames, LastFor;
  }

  lemma LeftAlone(u: Store, v: Store, name: string, q: Platform, n: string)
    requires FeaturesSettled(u, v, name, q) && n !in DesiredNames(name, q.spec.features)
    ensures if n in Owned(u, name) then (n in v.services <==> u.services[n].meta.finalizers != [])
                                        && (n in v.services ==> v.services[n].spec == u.services[n].spec)
            else SameAt(u, v, n)
  {
    hide Converged, DesiredNames, LastFor;
  }

  lemma BesideKeepsOwned(t: Store, u: Store, name: string, child: string, n: string)
    requires BesideChild(t, u, child) && n != child
    ensures SameAt(t, u, n) && (n in Owned(u, name) <==> n in Owned(t, name))
  {
    hide SL.SameCore, SL.SameMeta;
  }

  /** What one round needs of a state, and leaves of it. */
  ghost predicate RoundReady(st: State, name: string, i: nat, pw: P.World) {
    && Inv(st) && Idle(st)
    && PL.PlatformOk(st.store, name, pw, st.quantities)
    && var fs := st.store.platforms[name].spec.features;
    i < |fs| && fs[i].name == "saia" && ChildRecoverable(st.store, ChildName(name, "saia"))
  }

  lemma OkRecoverable(s: Store, child: string, w: S.World)
    requires SL.ChildOk(s, child, w)
    ensures ChildRecoverable(s, child)
  {
    hide SpecAdmitted, SL.SplunkReady, S.GateError, S.JobVerdict, JobName;
  }

  /** The first half of a round: a second platform turn would change nothing. */
  lemma RoundStarts(st: State, name: string, i: nat, pw: P.World, sw: S.World)
    requires RoundReady(st, name, i, pw) && PL.WorldOk(pw) && sw.splunk == pw.splunk
    ensures var child := ChildName(name, "saia");
            var st1 := Exec(st, PlatformTurn(name, pw));
            && Inv(st1) && Idle(st1) && st1.quantities == st.quantities
            && PL.TurnOutcome(st.store, st1.store, name, pw)
            && SL.ChildOk(st1.store, child, sw)
            && Exec(st1, PlatformTurn(name, pw)).store.services == st1.store.services
  {
    var child := ChildName(name, "saia");
    var st1 := Exec(st, PlatformTurn(name, pw));
    assert name in st.store.platforms && pw.failing == {};
    hide Inv, PL.PlatformOk, PL.WorldOk, ChildRecoverable, Exec, PlatformTurn, PL.TurnOutcome, ChildName, BesideChild, SL.ChildOk, Admitted,
      NoZombies, ChildrenSound;
    NoRuns(st);
    PL.PlatformTurnOutcome(st, name, pw);
    InvariantContinues(st, PlatformTurn(name, pw));
    NoRuns(st1);
    ChildStarts(st.store, st1.store, name, i, pw, sw, st.quantities, st.history);
    ChildThere(st1.store, child, sw);
    BesideItself(st1.store, child);
    StillOk(st.store, st1.store, st1.store, name, pw, st.quantities);
    PL.PlatformTurnOutcome(st1, name, pw);
    PlatformTurnIdle(st.store, st1.store, Exec(st1, PlatformTurn(name, pw)).store, name, pw);
  }

  lemma ChildThere(s: Store, child: string, w: S.World)
    requires SL.ChildOk(s, child, w)
    ensures child in s.services
  {
  }

  lemma NextTurnRestores(s: Store, t: Store, st2: State, name: string, child: string, w: P.World)
    requires Inv(st2) && Idle(st2) && PL.PlatformOk(st2.store, name, w, st2.quantities) && PL.WorldOk(w)
    requires PL.TurnOutcome(s, t, name, w) && BesideChild(t, st2.store, child) && NoZombies(t)
    requires name in s.platforms && child in DesiredNames(name, s.platforms[name].spec.features)
    ensures SpecsSame(t, Exec(st2, PlatformTurn(name, w)).store)
  {
    hide Inv, PL.PlatformOk, PL.WorldOk, Exec, PlatformTurn, PL.TurnOutcome, DesiredNames, BesideChild, Admitted, NoZombies, ChildrenSound,
      SpecsSame;
    NoRuns(st2);
    PL.PlatformTurnOutcome(st2, name, w);
    RoundTripRestores(s, t, st2.store, Exec(st2, PlatformTurn(name, w)).store, name, child, w);
  }

  /** The second half: the child's turn, and what the next platform turn makes of it. */
  lemma ReadyFacts(st: State, name: string, i: nat, pw: P.World)
    requires RoundReady(st, name, i, pw) && PL.WorldOk(pw)
    ensures pw.ray.Some? && FeatureNamesDistinct(st.store.platforms[name].spec.features)
    ensures ChildName(name, "saia") in DesiredNames(name, st.store.platforms[name].spec.features)
  {
    hide Inv, ChildRecoverable;
    var fs := st.store.platforms[name].spec.features;
    assert ChildName(name, "saia") == ChildName(name, fs[i].name);
  }

  lemma RoundEnds(st: State, st1: State, name: string, i: nat, pw: P.World, sw: S.World)
    requires RoundReady(st, name, i, pw) && PL.WorldOk(pw) && SL.WorldOk(sw)
    requires Inv(st1) && Idle(st1) && st1.quantities == st.quantities && PL.TurnOutcome(st.store, st1.store, name, pw)
    requires SL.ChildOk(st1.store, ChildName(name, "saia"), sw)
    ensures var child := ChildName(name, "saia");
            var st2 := Exec(st1, ServiceTurn(child, sw));
            && (SpecsSame(st1.store, st2.store) <==> st.store.platforms[name].spec.features[i].serviceAccount != "")
            && SpecsSame(st1.store, Exec(st2, PlatformTurn(name, pw)).store)
            && RoundReady(st2, name, i, pw)
            && st2.store.platforms[name].spec == st.store.platforms[name].spec
  {
    var child, fs := ChildName(name, "saia"), st.store.platforms[name].spec.features;
    ReadyFacts(st, name, i, pw);
    hide Inv, PL.PlatformOk, PL.WorldOk, SL.WorldOk, ChildRecoverable, Exec, PlatformTurn, ServiceTurn, PL.TurnOutcome, FeatureNamesDistinct,
      DesiredNames, ChildName, BesideChild, SL.ChildOk, Admitted, NoZombies, ChildrenSound, SpecsSame, SL.TurnOutcome;
    var st2 := Exec(st1, ServiceTurn(child, sw));
    NoRuns(st1);
    SL.ServiceTurnOutcome(st1, child, sw);
    ChildTurnSpecs(st.store, st1.store, st2.store, name, fs, i, pw);
    StillOk(st.store, st1.store, st2.store, name, pw, st.quantities);
    InvariantContinues(st1, ServiceTurn(child, sw));
    NextTurnRestores(st.store, st1.store, st2, name, child, pw);
    OkRecoverable(st2.store, child, sw);
    SpecStays(st.store, st1.store, st2.store, name, child, pw);
  }

  /** One round: a platform turn, the child's turn, and what the next platform turn does. */
  lemma RoundIs(st: State, name: string, i: nat, pw: P.World, sw: S.World)
    requires RoundReady(st, name, i, pw) && PL.WorldOk(pw) && SL.WorldOk(sw) && sw.splunk == pw.splunk
    ensures var child := ChildName(name, "saia");
            var st1 := Exec(st, PlatformTurn(name, pw));
            var st2 := Exec(st1, ServiceTurn(child, sw));
            && Exec(st1, PlatformTurn(name, pw)).store.services == st1.store.services
            && (SpecsSame(st1.store, st2.store) <==> st.store.platforms[name].spec.features[i].serviceAccount != "")
            && SpecsSame(st1.store, Exec(st2, PlatformTurn(name, pw)).store)
            && RoundReady(st2, name, i, pw)
            && st2.store.platforms[name].spec == st.store.platforms[name].spec
  {
    hide Inv, PL.PlatformOk, PL.WorldOk, SL.WorldOk, ChildRecoverable, Exec, PlatformTurn, ServiceTurn, PL.TurnOutcome, ChildName, SL.ChildOk,
      SpecsSame, Idle;
    RoundStarts(st, name, i, pw, sw);
    RoundEnds(st, Exec(st, PlatformTurn(name, pw)), name, i, pw, sw);
  }

  lemma SpecStays(s: Store, t: Store, u: Store, name: string, child: string, w: P.World)
    requires PL.TurnOutcome(s, t, name, w) && BesideChild(t, u, child)
    ensures name in s.platforms && name in u.platforms && u.platforms[name].spec == s.platforms[name].spec
  {
    PL.TurnOutcomeIs(s, t, name, w);
    hide PL.TurnOutcome, SL.SameCore, SL.SameMeta, FeaturesSettled, PL.WroteChildren;
  }

  lemma ChildTurnSpecs(s: Store, t: Store, u: Store, name: string, fs: seq<Feature>, i: nat, w: P.World)
    requires PL.TurnOutcome(s, t, name, w) && SL.TurnOutcome(t, u, ChildName(name, "saia"))
    requires fs == s.platforms[name].spec.features && FeatureNamesDistinct(fs) && i < |fs| && fs[i].name == "saia"
    ensures BesideChild(t, t, ChildName(name, "saia")) && BesideChild(t, u, ChildName(name, "saia"))
    ensures SpecsSame(t, u) <==> fs[i].serviceAccount != ""
  {
    hide PL.TurnOutcome, SL.TurnOutcome, PL.Prepared, FeatureNamesDistinct, ChildName, BesideChild;
    PL.TurnOutcomeIs(s, t, name, w);
    var child, p := ChildName(name, "saia"), PL.Prepared(s, name, w);
    PL.PreparedKeeps(s, name, w);
    ConvergedAccount(s, t, name, p, i);
    SL.TurnOutcomeIs(t, u, child);
    BesideFrame(t, u, child);
    hide FeaturesSettled, SL.Frame;
    if fs[i].serviceAccount == "" {
      assert t.services[child].spec != u.services[child].spec;
    }
  }

  lemma BesideFrame(t: Store, u: Store, child: string)
    requires SL.Frame(t, u, child)
    ensures BesideChild(t, t, child) && BesideChild(t, u, child)
    ensures t.services[child].spec == u.services[child].spec ==> SpecsSame(t, u)
  {
    hide SpecAdmitted;
    assert t.services == t.services[child := t.services[child]];
  }

  lemma ConvergedAccount(s: Store, t: Store, name: string, p: Platform, i: nat)
    requires FeaturesSettled(s, t, name, p) && FeatureNamesDistinct(p.spec.features) && i < |p.spec.features|
    ensures var child := ChildName(name, p.spec.features[i].name);
            child in t.services && t.services[child].spec.serviceAccount == p.spec.features[i].serviceAccount
  {
    var f := p.spec.features[i];
    var child := ChildName(name, f.name);
    LastForDistinct(name, p.spec.features, i);
    assert child in DesiredNames(name, p.spec.features);
    assert Converged(t, name, p, f, child, s.services);
    DefaultingKeeps(BuildService(name, t.ns, p, f));
    hide DefaultService, FeaturesSettled, ChildWritten, Carried, NewBorn;
  }

  // ---- any number of rounds ------------------------------------------------------------------------------

  function Rounds(name: string, pw: P.World, sw: S.World, k: nat): seq<Step> {
    if k == 0 then [] else Rounds(name, pw, sw, k - 1) + (PlatformTurn(name, pw) + ServiceTurn(ChildName(name, "saia"), sw))
  }

  lemma {:induction false} RoundsContinue(st: State, name: string, i: nat, pw: P.World, sw: S.World, k: nat)
    requires RoundReady(st, name, i, pw) && PL.WorldOk(pw) && SL.WorldOk(sw) && sw.splunk == pw.splunk
    ensures var u := Exec(st, Rounds(name, pw, sw, k));
            RoundReady(u, name, i, pw) && u.store.platforms[name].spec == st.store.platforms[name].spec
    ensures SpecsSame(Exec(st, PlatformTurn(name, pw)).store, Exec(Exec(st, Rounds(name, pw, sw, k)), PlatformTurn(name, pw)).store)
    decreases k
  {
    hide PlatformTurn, ServiceTurn, PL.WorldOk, SL.WorldOk, RoundReady, ChildName, SpecsSame;
    RoundHasPlatform(st, name, i, pw);
    var turn, child := PlatformTurn(name, pw), ServiceTurn(ChildName(name, "saia"), sw);
    if k == 0 {
      assert Exec(st, []) == st;
      SpecsReflexive(Exec(st, turn).store);
    } else {
      hide Exec;
      var front := Rounds(name, pw, sw, k - 1);
      RoundsContinue(st, name, i, pw, sw, k - 1);
      RoundIs(Exec(st, front), name, i, pw, sw);
      ExecAppend(st, front, turn + child);
      ExecAppend(Exec(st, front), turn, child);
      SpecsTransitive(Exec(st, turn).store, Exec(Exec(st, front), turn).store,
                      Exec(Exec(st, Rounds(name, pw, sw, k)), turn).store);
    }
  }

  lemma SpecsReflexive(s: Store)
    ensures SpecsSame(s, s)
  {
  }

  lemma SpecsTransitive(s: Store, t: Store, u: Store)
    requires SpecsSame(s, t) && SpecsSame(t, u)
    ensures SpecsSame(s, u)
  {
  }

  lemma RoundHasPlatform(st: State, name: string, i: nat, pw: P.World)
    requires RoundReady(st, name, i, pw)
    ensures name in st.store.platforms && i < |st.store.platforms[name].spec.features|
  {
    hide Inv, ChildRecoverable, PlatformValid, DefaultPlatform, Enrich, ChildAdmissible, PL.AllUpsertable, FeatureNamesDistinct;
  }

  /**
   * Quiescence of whole reconciles, over any number of rounds from every reachable settled state
   * of a run with faithful users: after each platform turn another changes no AIService at all and
   * the specs are those of the first round; the SAIA child's own turn leaves every spec as it is
   * if and only if its feature names a ServiceAccount. If it names none, the two never come to rest.
   */
  lemma QuiescentIff(ns: string, quantities: iset<string>, steps: seq<Step>, name: string, path: string, i: nat,
                     pw: P.World, sw: S.World, k: nat)
    requires PL.WorldOk(pw) && SL.WorldOk(sw) && sw.splunk == pw.splunk
    requires var s := Exec(Empty(ns, quantities), steps + Settle(pw, sw)).store;
             && Promising(s, name, pw)
             && var fs := s.platforms[name].spec.features;
             && Hyphenless(fs) && i < |fs| && fs[i].name == "saia"
             && (forall l, j :: 0 <= l < |fs| && 0 <= j < |steps| ==> Faithful(steps[j], name, path, fs[l].name))
             && ChildRecoverable(s, ChildName(name, "saia"))
    ensures var st := Exec(Empty(ns, quantities), steps + Settle(pw, sw));
            var st1 := Exec(Exec(st, Rounds(name, pw, sw, k)), PlatformTurn(name, pw));
            && Exec(st1, PlatformTurn(name, pw)).store.services == st1.store.services
            && SpecsSame(Exec(st, PlatformTurn(name, pw)).store, st1.store)
            && (SpecsSame(st1.store, Exec(st1, ServiceTurn(ChildName(name, "saia"), sw)).store) <==>
                  st.store.platforms[name].spec.features[i].serviceAccount != "")
  {
    var all := steps + Settle(pw, sw);
    var st := Exec(Empty(ns, quantities), all);
    var fs := st.store.platforms[name].spec.features;
    hide Exec, Settle, Faithful, Promising, PL.PlatformOk, PL.WorldOk, SL.WorldOk, ChildRecoverable, PlatformTurn, ServiceTurn, Inv, ChildName,
      Rounds, SpecsSame;
    SettledRun(ns, quantities, steps, pw, sw);
    forall l, j | 0 <= l < |fs| && 0 <= j < |all| ensures Faithful(all[j], name, path, fs[l].name) {
      SettleIsFaithful(pw, sw, name, path, fs[l].name);
    }
    PromisingIsOk(ns, quantities, all, name, path, pw);
    QuantitiesStay(Empty(ns, quantities), all);
    RoundsContinue(st, name, i, pw, sw, k);
    RoundIs(Exec(st, Rounds(name, pw, sw, k)), name, i, pw, sw);
  }
}
