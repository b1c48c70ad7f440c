/**
 * A run in which a platform becomes Ready over a child that is not: for every platform that the
 * operator can bring up, one foreign annotation on its child is enough.
 */
module Overlooked {
  import opened Api
  import opened Names
  import opened Admission
  import opened ApiServer
  import opened Features
  import opened StageRunner
  import opened Protocol
  import opened Safety
  import opened Readiness
  import opened Turns
  import opened Liveness
  import opened FreshStart
  import P = PlatformRun
  import S = SaiaRun
  import PL = PlatformLiveness
  import SL = ServiceLiveness
  import D = Deletion

  /** About to publish Ready=True, the platform has listed a child that shows the trace of a panic. */
  predicate Overlooks(st: State, name: string, child: string) {
    && PublishesReady(st) && st.platformRun.value.name == name
    && child in st.platformRun.value.listed
    && var v := st.platformRun.value.listed[child];
    && PanicTrace(v) && !IsConditionTrue(v.status.conditions, "Ready")
    && Child(child, v.meta.uid) in st.history.panicked
  }

  /** A user adds one annotation to a child and changes nothing else. */
  function Annotate(s: Store, child: string, key: string, value: string): seq<Step> {
    if child !in s.services then []
    else [UserEditService(child, s.services[child].meta.labels, map[key := value], s.services[child].spec)]
  }

  /** Create the platform, let it create its child, annotate the child, bring it up, inspect it. */
  function OverlookedRun(ns: string, quantities: iset<string>, name: string, meta: Meta, spec: PlatformSpec,
                         pw: P.World, sw: S.World, key: string, value: string): seq<Step> {
    var child := ChildName(name, "saia");
    var start := [UserCreatePlatform(name, meta, spec)] + PlatformTurn(name, pw);
    start
    + Annotate(Exec(Empty(ns, quantities), start).store, child, key, value)
    + BringUpChild(name, child, pw, sw)
    + PlatformLoop(name, pw)
  }

  // ---- the annotation ----------------------------------------------------------------------------------

  /** The store after the edit: the child's annotations and version. */
  predicate Annotated(s: Store, t: Store, child: string, annotations: map<string, string>) {
    && child in s.services && child in t.services
    && t == s.(services := s.services[child := t.services[child]])
    && var v := s.services[child];
    t.services[child] == v.(meta := v.meta.(annotations := annotations, version := t.services[child].meta.version))
  }

  lemma SameSpecUpdates(v: ServiceSpec)
    requires SpecAdmitted(v)
    ensures DefaultService(v) == v && ServiceUpdateValid(v, v)
  {
    hide DefaultService;
  }

  lemma UpdateAnnotates(s: Store, child: string, annotations: map<string, string>)
    requires child in s.services && SpecAdmitted(s.services[child].spec) && !s.services[child].meta.deleting
    ensures var v := s.services[child];
            Annotated(s, UpdateService(s, child, v.(meta := v.meta.(annotations := annotations))).0, child, annotations)
  {
    SameSpecUpdates(s.services[child].spec);
    hide SpecAdmitted, DefaultService, ServiceUpdateValid;
    assert s.services == s.services[child := s.services[child]];
  }

  lemma AnnotateLands(st: State, child: string, key: string, value: string)
    requires Admitted(st.store) && child in st.store.services && !st.store.services[child].meta.deleting
    ensures var u := Exec(st, Annotate(st.store, child, key, value));
            u == st.(store := u.store) && Annotated(st.store, u.store, child, map[key := value])
  {
    hide Exec, UpdateService, Annotated, SpecAdmitted;
    var v := st.store.services[child];
    ExecOne(st, UserEditService(child, v.meta.labels, map[key := value], v.spec));
    UpdateAnnotates(st.store, child, map[key := value]);
    assert v.meta.(labels := v.meta.labels, annotations := map[key := value]) == v.meta.(annotations := map[key := value]);
  }

  lemma AnnotatedStaysOk(s: Store, t: Store, name: string, child: string, m: map<string, string>, w: P.World, quantities: iset<string>)
    requires PL.PlatformOk(s, name, w, quantities) && Annotated(s, t, child, m)
    ensures PL.PlatformOk(t, name, w, quantities)
    ensures ChildRecoverable(s, child) ==> ChildRecoverable(t, child)
    ensures OthersQuiet(s, name, s.platforms[name].spec.features, child) ==> OthersQuiet(t, name, t.platforms[name].spec.features, child)
  {
    hide PlatformValid, DefaultPlatform, Enrich, ChildAdmissible, ChildName, FeatureNamesDistinct, HasError, DesiredNames, S.JobVerdict,
      JobName;
    var p := s.platforms[name].spec;
    forall i | 0 <= i < |p.features| ensures PL.Upsertable(t, name, p, p.features[i]) {
      assert PL.Upsertable(s, name, p, p.features[i]);
    }
    assert PL.AllUpsertable(t, name, p, p.features);
  }

  lemma ForeignIsUnclean(m: Meta, key: string, value: string)
    requires m.annotations == map[key := value] && key !in {LAST_APPLIED, RESTARTED_AT}
    ensures !Clean(m)
  {
    assert key in S.ForeignAnnotations(m.annotations);
  }

  // ---- the first turn --------------------------------------------------------------------------------------

  /** A fresh platform's first turn creates its child and leaves nothing in the way. */
  lemma FirstTurn(st: State, name: string, i: nat, pw: P.World)
    requires Inv(st) && Idle(st) && st.store.services == map[] && st.store.jobs == map[]
    requires PL.PlatformOk(st.store, name, pw, st.quantities) && PL.WorldOk(pw)
    requires i < |st.store.platforms[name].spec.features| && st.store.platforms[name].spec.features[i].name == "saia"
    ensures var child := ChildName(name, "saia");
            var u := Exec(st, PlatformTurn(name, pw));
            && Idle(u) && Inv(u) && u.quantities == st.quantities
            && PL.PlatformOk(u.store, name, pw, u.quantities)
            && u.store.platforms[name].spec == st.store.platforms[name].spec
            && ChildRecoverable(u.store, child) && OthersQuiet(u.store, name, u.store.platforms[name].spec.features, child)
            && child in u.store.services && !u.store.services[child].meta.deleting
  {
    var child, fs := ChildName(name, "saia"), st.store.platforms[name].spec.features;
    var u := Exec(st, PlatformTurn(name, pw));
    var p := PL.Prepared(st.store, name, pw);
    assert OthersQuiet(st.store, name, fs, child);
    PL.PreparedKeeps(st.store, name, pw);
    assert FeatureNamesDistinct(p.spec.features);
    hide Inv, PL.PlatformOk, PL.WorldOk, ChildRecoverable, OthersQuiet, Exec, PlatformTurn, PL.TurnOutcome, FeaturesSettled, ChildName,
      Admitted, NoZombies, ChildrenSound, PL.Prepared, PL.WroteChildren, FeatureNamesDistinct, BuildService, DefaultService;
    NoRuns(st);
    PL.PlatformTurnOutcome(st, name, pw);
    InvariantContinues(st, PlatformTurn(name, pw));
    PL.TurnOutcomeIs(st.store, u.store, name, pw);
    PL.GateOpens(st.store, u.store, name, pw);
    ConvergedChild(st.store, u.store, name, p, i);
    QuietAfterTurn(st.store, u.store, name, p, child);
    assert ChildRecoverable(u.store, child) by { NoJobRecovers(u.store, child); }
    BesideItself(u.store, child);
    StillOk(st.store, u.store, u.store, name, pw, st.quantities);
  }

  lemma NoJobRecovers(s: Store, child: string)
    requires child in s.services && !s.services[child].meta.deleting && s.jobs == map[]
    ensures ChildRecoverable(s, child)
  {
  }

  // ---- the last inspection ----------------------------------------------------------------------------------

  /** A loop that gets through its last stage has listed the children it leaves behind. */
  lemma {:induction false} FinishedListing(s: Store, r: P.Run, w: P.World)
    requires r.next < |P.STAGES|
    ensures var (u, q) := P.Finish(s, r, w);
            q.next == |P.STAGES| ==> q.listed == P.Listing(u, r.name)
    decreases |P.STAGES| - r.next
  {
    hide ReconcileFeatures, P.ReconcileWeaviate, P.ValidatePlatform, P.CollectRay, P.WeaviateStatus, CheckChildren, P.Listing;
    if !P.Stopped(r) {
      var (t, q) := P.StageStep(s, r, w);
      if q.next < |P.STAGES| {
        FinishedListing(t, q, w);
      } else {
        assert r.next == 10 && P.STAGES[10] == P.AIServiceStatus;
        assert P.Finish(t, q, w) == (t, q);
      }
    }
  }

  lemma InspectionOverlooks(st: State, name: string, w: P.World, child: string)
    requires Inv(st) && Idle(st) && PL.PlatformOk(st.store, name, w, st.quantities) && PL.WorldOk(w)
    requires child in DesiredNames(name, st.store.platforms[name].spec.features)
    requires OthersQuiet(st.store, name, st.store.platforms[name].spec.features, child)
    requires child in st.store.services && !HasError(st.store.services[child].status.conditions)
    requires PanicTrace(st.store.services[child]) && !IsConditionTrue(st.store.services[child].status.conditions, "Ready")
    ensures Overlooks(Exec(st, PlatformLoop(name, w)), name, child)
  {
    var s := st.store;
    assert name in s.platforms && !s.platforms[name].meta.deleting;
    hide Inv, PL.PlatformOk, PL.WorldOk, OthersQuiet, Exec, PlatformLoop, PL.Ended, P.Finish, Admitted, NoZombies, ChildrenSound, DesiredNames,
      HasError, IsConditionTrue, PanicTrace, P.Listing;
    NoRuns(st);
    PanickedBefore(st, child);
    PlatformLoopIs(st, name, w);
    PL.RunEnds(s, name, w, st.quantities);
    FinishedListing(s, P.Start(name, s.platforms[name]), w);
    var (u, q) := P.Finish(s, P.Start(name, s.platforms[name]), w);
    NothingFound(s, u, q, w, child);
  }

  lemma PanickedBefore(st: State, child: string)
    requires ChildrenSound(st.store.services, st.history) && child in st.store.services
    requires PanicTrace(st.store.services[child]) && !HasError(st.store.services[child].status.conditions)
    requires !IsConditionTrue(st.store.services[child].status.conditions, "Ready")
    ensures Child(child, st.store.services[child].meta.uid) in st.history.panicked
  {
    assert ChildSound(child, st.store.services[child], st.history);
    assert |Passed(S.LABELS[..S.PANIC_AT])| == S.PANIC_AT;
    hide HasError, IsConditionTrue;
  }

  lemma NothingFound(s: Store, u: Store, q: P.Run, w: P.World, child: string)
    requires PL.Ended(s, u, q, w) && OthersQuiet(s, q.name, s.platforms[q.name].spec.features, child)
    requires child in DesiredNames(q.name, s.platforms[q.name].spec.features)
    requires child in s.services && !HasError(s.services[child].status.conditions)
    ensures P.Stopped(q) && IsConditionTrue(P.PublishedStatus(q).conditions, "Ready") && q.next == |P.STAGES|
    ensures child in P.Listing(u, q.name)
    ensures P.Listing(u, q.name)[child].status == s.services[child].status
            && P.Listing(u, q.name)[child].meta.uid == s.services[child].meta.uid
  {
    hide P.WellFormed, DesiredNames, HasError, FeaturesSettled, OthersQuiet, IsConditionTrue, PL.Prepared, PL.AnyError, PL.WroteChildren;
    PL.PreparedKeeps(s, q.name, w);
    PL.EndedReads(q);
    NothingWrong(s, u, q.name, q.p, child);
    ChildListed(s, u, q.name, q.p, child);
  }

  lemma ChildListed(s: Store, u: Store, name: string, p: Platform, child: string)
    requires FeaturesSettled(s, u, name, p) && child in DesiredNames(name, p.spec.features) && child in s.services
    ensures child in P.Listing(u, name)
    ensures P.Listing(u, name)[child].status == s.services[child].status && P.Listing(u, name)[child].meta.uid == s.services[child].meta.uid
  {
    hide DesiredNames, LastFor, ChildWritten, DefaultService, BuildService;
    assert Converged(u, name, p, LastFor(name, p.spec.features, child).value, child, s.services);
  }

  // ---- the theorem ---------------------------------------------------------------------------------------------

  /**
   * For every platform that the operator can bring up and every annotation its child does not skip:
   * after this run from an empty namespace the platform publishes Ready=True although the child it
   * has just listed is not Ready, its last run having panicked.
   */
  lemma PanickedChildOverlooked(ns: string, quantities: iset<string>, name: string, meta: Meta, spec: PlatformSpec, i: nat,
                                pw: P.World, sw: S.World, key: string, value: string)
    requires PL.WorldOk(pw) && SL.WorldOk(sw) && sw.splunk == pw.splunk
    requires i < |spec.features| && spec.features[i].name == "saia"
    requires var p := DefaultPlatform(spec);
             && name != "" && PlatformValid(p, quantities)
             && Enrich(p.splunk, ns, p.clusterDomain, pw.splunk).1.Ok? && ChildAdmissible(p)
    requires key !in {LAST_APPLIED, RESTARTED_AT}
    ensures var st := Exec(Empty(ns, quantities), OverlookedRun(ns, quantities, name, meta, spec, pw, sw, key, value));
            Overlooks(st, name, ChildName(name, "saia"))
  {
    var child := ChildName(name, "saia");
    var st := Created(ns, quantities, name, meta, spec);
    PlatformDefaultsStable(spec);
    CreatedStore(ns, quantities, name, meta, spec);
    assert DefaultPlatform(spec).features == spec.features && FeatureNamesDistinct(spec.features);
    assert PL.PlatformOk(st.store, name, pw, quantities);
    assert child in DesiredNames(name, spec.features) by { assert child == ChildName(name, spec.features[i].name); }
    Invariant(ns, quantities, [UserCreatePlatform(name, meta, spec)]);
    hide PlatformValid, DefaultPlatform, ChildAdmissible, Exec, PL.PlatformOk, PL.WorldOk, SL.WorldOk, Enrich, ChildName, PlatformTurn,
      PlatformLoop, BringUpChild, Annotate, Inv, Idle, ChildRecoverable, OthersQuiet, DesiredNames, Overlooks, Annotated, HasError,
      IsConditionTrue, PanicTrace, Clean, Admitted, NoZombies, ChildrenSound;
    FirstTurn(st, name, i, pw);
    var st1 := Exec(st, PlatformTurn(name, pw));
    NoRuns(st1);
    AnnotateLands(st1, child, key, value);
    var st2 := Exec(st1, Annotate(st1.store, child, key, value));
    AnnotatedReady(st1, st2, name, child, key, value, pw);
    InvariantContinues(st1, Annotate(st1.store, child, key, value));
    ChildBroughtUp(st2, name, i, pw, sw);
    InspectionOverlooks(Exec(st2, BringUpChild(name, child, pw, sw)), name, pw, child);
    RunSplits(ns, quantities, name, meta, spec, pw, sw, key, value);
  }

  lemma AnnotatedReady(st: State, u: State, name: string, child: string, key: string, value: string, w: P.World)
    requires Idle(st) && u == st.(store := u.store) && Annotated(st.store, u.store, child, map[key := value])
    requires PL.PlatformOk(st.store, name, w, st.quantities) && key !in {LAST_APPLIED, RESTARTED_AT}
    requires ChildRecoverable(st.store, child) && OthersQuiet(st.store, name, st.store.platforms[name].spec.features, child)
    ensures Idle(u) && PL.PlatformOk(u.store, name, w, u.quantities) && u.store.platforms == st.store.platforms
    ensures ChildRecoverable(u.store, child) && OthersQuiet(u.store, name, u.store.platforms[name].spec.features, child)
    ensures child in u.store.services && !Clean(u.store.services[child].meta)
  {
    hide PL.PlatformOk, ChildRecoverable, OthersQuiet, Clean;
    AnnotatedStaysOk(st.store, u.store, name, child, map[key := value], w, st.quantities);
    ForeignIsUnclean(u.store.services[child].meta, key, value);
  }

  lemma RunSplits(ns: string, quantities: iset<string>, name: string, meta: Meta, spec: PlatformSpec,
                  pw: P.World, sw: S.World, key: string, value: string)
    ensures var child := ChildName(name, "saia");
            var st1 := Exec(Created(ns, quantities, name, meta, spec), PlatformTurn(name, pw));
            var st2 := Exec(st1, Annotate(st1.store, child, key, value));
            Exec(Empty(ns, quantities), OverlookedRun(ns, quantities, name, meta, spec, pw, sw, key, value))
            == Exec(Exec(st2, BringUpChild(name, child, pw, sw)), PlatformLoop(name, pw))
  {
    hide Exec, PlatformTurn, PlatformLoop, BringUpChild, Annotate, ChildName;
    var child, none := ChildName(name, "saia"), Empty(ns, quantities);
    var a := [UserCreatePlatform(name, meta, spec)];
    var b := a + PlatformTurn(name, pw);
    D.ExecAppend(none, a, PlatformTurn(name, pw));
    var c := Annotate(Exec(none, b).store, child, key, value);
    D.ExecAppend(none, b, c);
    D.ExecAppend(none, b + c, BringUpChild(name, child, pw, sw));
    D.ExecAppend(none, b + c + BringUpChild(name, child, pw, sw), PlatformLoop(name, pw));
  }

  // ---- an ordinary platform -----------------------------------------------------------------------------------

  const ORDINARY := PlatformSpec(
    ObjectStorage("s3://b", "", "r", ""), [Feature("saia", "", "", None)],
    Splunk(SplunkRef("", "", ""), "hec", "https://splunk", "", "kubernetes", ""), Mtls(false, "", "", [], ""),
    "", "", [], VectorDbStorage("", "", ""), None, false, false, None, None)

  const SPLUNK_WORLD := SplunkWorld(false, Some("token"), None)
  const PLATFORM_WORLD := P.World(SPLUNK_WORLD, "weaviate", Ok, Ok, Ok, Ok, Ok, Some(P.RayView("ray-head", true)), {}, {})
  const SERVICE_WORLD := S.World(SPLUNK_WORLD, "hook", true, true, true, true, {})

  lemma OrdinaryIsAdmitted()
    ensures PlatformValid(DefaultPlatform(ORDINARY), iset{"50Gi"}) && ChildAdmissible(DefaultPlatform(ORDINARY))
    ensures PL.WorldOk(PLATFORM_WORLD) && SL.WorldOk(SERVICE_WORLD)
  {
    assert HasPrefix(ORDINARY.objectStorage.path, STORAGE_PREFIXES[0]);
  }

  lemma OrdinaryResolves(ns: string)
    ensures var p := DefaultPlatform(ORDINARY);
            Enrich(p.splunk, ns, p.clusterDomain, SPLUNK_WORLD).1.Ok?
  {
  }

  /** One such platform, with nothing special about it. */
  lemma OrdinaryChildOverlooked(ns: string, name: string, meta: Meta)
    requires name != ""
    ensures var st := Exec(Empty(ns, iset{"50Gi"}),
              OverlookedRun(ns, iset{"50Gi"}, name, meta, ORDINARY, PLATFORM_WORLD, SERVICE_WORLD, "team", "search"));
            Overlooks(st, name, ChildName(name, "saia"))
  {
    hide PlatformValid, DefaultPlatform, ChildAdmissible, Exec, OverlookedRun, Overlooks, Enrich, PL.WorldOk, SL.WorldOk;
    OrdinaryIsAdmitted();
    OrdinaryResolves(ns);
    PanickedChildOverlooked(ns, iset{"50Gi"}, name, meta, ORDINARY, 0, PLATFORM_WORLD, SERVICE_WORLD, "team", "search");
  }
}
