/**
 * Immutability composes: over every run in which a platform name keeps one storage path, the
 * children's two immutable fields stay what the platform writes, so no upsert is ever refused
 * for them. An AIService that a user created for another platform or path keeps its fields for
 * as long as it is stored, and refuses every upsert until then.
 */
module Immutability {
  import opened Api
  import opened Names
  import opened Admission
  import opened ApiServer
  import opened Features
  import opened Protocol
  import opened Safety
  import opened Readiness
  import opened Provenance
  import P = PlatformRun
  import S = SaiaRun
  import D = Deletion
  import T = Turns

  /** The CRD's enumeration of feature names has no hyphen in it. */
  predicate Hyphenless(fs: seq<Feature>) {
    forall i :: 0 <= i < |fs| ==> '-' !in fs[i].name
  }

  /**
   * What is asked of the users, for one platform name and one feature: every platform created
   * under the name (in one lifetime there is just one) has that storage path, and an AIService
   * created under the child's name refers to the platform and that path.
   */
  predicate Faithful(step: Step, name: string, path: string, f: string) {
    && (step.UserCreatePlatform? ==>
          Hyphenless(step.platform.features) && (step.name == name ==> step.platform.objectStorage.path == path))
    && (step.UserEditPlatform? ==> Hyphenless(step.platform.features))
    && (step.UserCreateService? && step.name == ChildName(name, f) ==>
          step.service.platformRef.name == name && step.service.taskVolume.path == path)
  }

  // ---- where a platform's plan comes from ------------------------------------------------------------

  predicate PlanKept(p: Platform, q: Platform) {
    q.spec.objectStorage.path == p.spec.objectStorage.path && q.spec.features == p.spec.features
  }

  lemma DefaultKeepsPlan(p: PlatformSpec)
    ensures DefaultPlatform(p).objectStorage == p.objectStorage && DefaultPlatform(p).features == p.features
  {
  }

  lemma UpdatePlans(s: Store, n: string, p: Platform, quantities: iset<string>, key: string)
    ensures var t := UpdatePlatform(s, n, p, quantities).0;
            key in t.platforms ==>
              && key in s.platforms
              && t.platforms[key].status == s.platforms[key].status
              && t.platforms[key].spec.objectStorage.path == s.platforms[key].spec.objectStorage.path
              && (t.platforms[key].spec == s.platforms[key].spec || (n == key && t.platforms[key].spec == DefaultPlatform(p.spec)))
  {
    DefaultKeepsPlan(p.spec);
    hide PlatformValid, DefaultPlatform;
  }

  /** The spec of a stored platform was there before (perhaps defaulted again), or users gave it in this step. */
  predicate Planned(s: Store, t: Store, step: Step, key: string) {
    key in t.platforms ==>
      var q := t.platforms[key].spec;
      || (step.UserCreatePlatform? && step.name == key && q == DefaultPlatform(step.platform))
      || (&& key in s.platforms && q.objectStorage.path == s.platforms[key].spec.objectStorage.path
          && (|| q == s.platforms[key].spec || q == DefaultPlatform(s.platforms[key].spec)
              || (step.UserEditPlatform? && step.name == key && q == DefaultPlatform(step.platform))))
  }

  lemma SamePlatformsPlanned(s: Store, t: Store, step: Step, key: string)
    requires t.platforms == s.platforms
    ensures Planned(s, t, step, key)
  {
  }

  lemma EnvironmentPlans(s: Store, step: Step, quantities: iset<string>, key: string)
    requires !IsController(step)
    ensures Planned(s, EnvironmentStore(s, step, quantities), step, key)
  {
    if OnServices(step) {
      ServiceUserFrame(s, step, quantities);
      hide EnvironmentStore;
      SamePlatformsPlanned(s, EnvironmentStore(s, step, quantities), step, key);
    } else if OnWorkloads(step) {
      WorkloadStores(s, step, quantities);
      hide EnvironmentStore;
      SamePlatformsPlanned(s, EnvironmentStore(s, step, quantities), step, key);
    } else if step.UserEditPlatform? {
      hide UpdatePlatform;
      if step.name in s.platforms {
        var p := s.platforms[step.name];
        UpdatePlans(s, step.name, p.(spec := step.platform, meta := p.meta.(labels := step.labels)), quantities, key);
      }
    } else if step.DropFinalizer? {
      hide EnvironmentStore, Planned;
      DropPlans(s, step, quantities, key);
    } else {
      hide EnvironmentStore, Planned;
      BirthAndDeathPlans(s, step, quantities, key);
    }
  }

  lemma BirthAndDeathPlans(s: Store, step: Step, quantities: iset<string>, key: string)
    requires step.UserCreatePlatform? || step.UserDeletePlatform?
    ensures Planned(s, EnvironmentStore(s, step, quantities), step, key)
  {
    hide PlatformValid, DefaultPlatform;
  }

  lemma DropPlans(s: Store, step: Step, quantities: iset<string>, key: string)
    requires step.DropFinalizer?
    ensures Planned(s, EnvironmentStore(s, step, quantities), step, key)
  {
    hide DropServiceFinalizer, DropPlatformFinalizer;
    DropServiceFrame(s, step.name, step.finalizer);
    var t := if step.name in s.services then DropServiceFinalizer(s, step.name, step.finalizer) else s;
    DropKeepsPlan(t, step.name, step.finalizer, key);
  }

  lemma DropKeepsPlan(s: Store, n: string, f: string, key: string)
    ensures n in s.platforms ==>
              var t := DropPlatformFinalizer(s, n, f);
              key in t.platforms ==> key in s.platforms && t.platforms[key].spec == s.platforms[key].spec
  {
    hide RemoveAll;
  }

  lemma PlatformPlans(st: State, step: Step, key: string)
    requires step.PlatformFetch? || step.PlatformStage? || step.PlatformPublish?
    ensures Planned(st.store, PlatformNext(st, step).store, step, key)
  {
    hide P.StageStep, DeleteServices, UpdatePlatform, RemoveAll, Owned, P.PublishedStatus;
    var s := st.store;
    if step.PlatformStage? {
      D.PlatformStageKeepsPlatforms(st, step.pw);
    } else if step.PlatformFetch? && step.name in s.platforms {
      var p := s.platforms[step.name];
      DeleteFrame(s, (set n | n in Owned(s, step.name) && DeleteChild(n) !in step.failing));
      UpdatePlans(s, step.name, p.(meta := p.meta.(finalizers := RemoveAll(p.meta.finalizers, FINALIZER_PLATFORM))), st.quantities, key);
    }
  }

  lemma StepPlans(st: State, step: Step, key: string)
    ensures Planned(st.store, Next(st, step).store, step, key)
  {
    hide PlatformNext, ServiceNext, EnvironmentStore, Planned;
    if step.PlatformFetch? || step.PlatformStage? || step.PlatformPublish? {
      PlatformPlans(st, step, key);
    } else if step.ServiceFetch? || step.ServiceStage? || step.ServicePublish? || step.ServiceStatusWrite? {
      D.ServiceStepsKeepPlatforms(st, step);
      SamePlatformsPlanned(st.store, Next(st, step).store, step, key);
    } else {
      EnvironmentPlans(st.store, step, st.quantities, key);
    }
  }

  /** The run's copy: taken from the store when the run starts, its plan and metadata never touched again. */
  lemma RunPlans(st: State, step: Step)
    requires Next(st, step).platformRun.Some?
    ensures var q := Next(st, step).platformRun.value;
            if st.platformRun.Some? then
              var r := st.platformRun.value;
              q.name == r.name && PlanKept(r.p, q.p) && q.p.meta == r.p.meta
            else
              && step.PlatformFetch? && step.name == q.name && q.name in st.store.platforms
              && q.p == st.store.platforms[q.name] && !q.p.meta.deleting && q.next == 0
  {
    hide P.StageStep, EnvironmentStore, ServiceNext, FinalizePlatform, PublishPlatform, P.PublishedStatus;
    if step.ServiceFetch? || step.ServiceStage? || step.ServicePublish? || step.ServiceStatusWrite? {
      ServiceKeepsRun(st, step);
    } else if step.PlatformStage? && st.platformRun.Some? && !P.Stopped(st.platformRun.value) {
      StageKeepsPlan(st.store, st.platformRun.value, step.pw);
    }
  }

  lemma ServiceKeepsRun(st: State, step: Step)
    requires step.ServiceFetch? || step.ServiceStage? || step.ServicePublish? || step.ServiceStatusWrite?
    ensures ServiceNext(st, step).platformRun == st.platformRun
  {
    hide S.StageStep, FinalizeService, UpdateServiceStatus, ReadsCompleted, S.CreatesJob, WithReady;
  }

  lemma StageKeepsPlan(s: Store, r: P.Run, w: P.World)
    requires !P.Stopped(r)
    ensures var q := P.StageStep(s, r, w).1;
            q.name == r.name && PlanKept(r.p, q.p) && q.p.meta == r.p.meta
  {
    hide Enrich, ReconcileFeatures, CheckChildren, P.ReconcileWeaviate, P.Listing;
  }

  // ---- the invariant ---------------------------------------------------------------------------------

  /** Everything that could write the child's immutable fields agrees on them. */
  predicate KeySound(st: State, name: string, path: string, f: string) {
    && (forall q :: q in st.store.platforms ==> Hyphenless(st.store.platforms[q].spec.features))
    && (st.platformRun.Some? ==> Hyphenless(st.platformRun.value.p.spec.features))
    && (name in st.store.platforms ==> st.store.platforms[name].spec.objectStorage.path == path)
    && (st.platformRun.Some? && st.platformRun.value.name == name ==> st.platformRun.value.p.spec.objectStorage.path == path)
    && var key := ChildName(name, f);
    (key in st.store.services ==> FieldsAre(st.store.services[key], name, path))
  }

  predicate FieldsAre(v: Service, name: string, path: string) {
    v.spec.platformRef.name == name && v.spec.taskVolume.path == path
  }

  lemma KeyStays(st: State, step: Step, name: string, path: string, f: string)
    requires KeySound(st, name, path, f) && Faithful(step, name, path, f) && '-' !in f
    ensures var t, key := Next(st, step).store, ChildName(name, f);
            key in t.services ==> FieldsAre(t.services[key], name, path)
  {
    hide Next, ChildName, DesiredNames;
    var key := ChildName(name, f);
    StepProvenance(st, step, key);
    if key in Next(st, step).store.services && !Inherited(st.store, Next(st, step).store, key) {
      if step.UserCreateService? {
        DefaultingKeeps(step.service);
        hide DefaultService;
      } else {
        var r := st.platformRun.value;
        OnlyThisPlatform(r.name, r.p.spec.features, name, f);
      }
    }
  }

  /** Two platforms never want one child when feature names have no hyphen. */
  lemma OnlyThisPlatform(q: string, fs: seq<Feature>, name: string, f: string)
    requires Hyphenless(fs) && '-' !in f && ChildName(name, f) in DesiredNames(q, fs)
    ensures q == name
  {
    var i :| 0 <= i < |fs| && ChildName(name, f) == ChildName(q, fs[i].name);
    HyphenFreeChildNamesInjective(q, fs[i].name, name, f);
  }

  lemma KeySoundNext(st: State, step: Step, name: string, path: string, f: string)
    requires KeySound(st, name, path, f) && Faithful(step, name, path, f) && '-' !in f
    ensures KeySound(Next(st, step), name, path, f)
  {
    KeyStays(st, step, name, path, f);
    hide Next, ChildName, FieldsAre, Hyphenless, DefaultPlatform;
    var u := Next(st, step);
    StepPlans(st, step, name);
    PlanDefaults(st.store, step, name);
    forall q | q in u.store.platforms ensures Hyphenless(u.store.platforms[q].spec.features) {
      StepPlans(st, step, q);
      PlanDefaults(st.store, step, q);
    }
    if u.platformRun.Some? {
      RunPlans(st, step);
    }
  }

  lemma PlanDefaults(s: Store, step: Step, q: string)
    ensures step.UserCreatePlatform? || step.UserEditPlatform? ==>
              var d := DefaultPlatform(step.platform);
              d.objectStorage == step.platform.objectStorage && d.features == step.platform.features
    ensures q in s.platforms ==> DefaultPlatform(s.platforms[q].spec).features == s.platforms[q].spec.features
  {
  }

  lemma {:induction false} KeySoundOverRuns(ns: string, quantities: iset<string>, steps: seq<Step>, name: string, path: string, f: string)
    requires '-' !in f && forall j :: 0 <= j < |steps| ==> Faithful(steps[j], name, path, f)
    ensures KeySound(Exec(Empty(ns, quantities), steps), name, path, f)
    decreases |steps|
  {
    hide KeySound, Faithful, Next;
    if steps == [] {
      assert KeySound(Empty(ns, quantities), name, path, f) by { EmptyKeySound(ns, quantities, name, path, f); }
    } else {
      KeySoundOverRuns(ns, quantities, steps[..|steps| - 1], name, path, f);
      KeySoundNext(Exec(Empty(ns, quantities), steps[..|steps| - 1]), steps[|steps| - 1], name, path, f);
    }
  }

  lemma EmptyKeySound(ns: string, quantities: iset<string>, name: string, path: string, f: string)
    ensures KeySound(Empty(ns, quantities), name, path, f)
  {
  }

  // ---- when an upsert succeeds -------------------------------------------------------------------------

  /** The stored child of f, if any, carries the fields this platform writes. */
  predicate Matches(s: Store, name: string, p: Platform, f: Feature) {
    var n := ChildName(name, f.name);
    n in s.services ==> FieldsAre(s.services[n], name, p.spec.objectStorage.path)
  }

  /** What else can stand in the way of an upsert: the call, another owner, or the spec itself. */
  predicate Accepted(s: Store, name: string, p: Platform, f: Feature, failing: set<Call>) {
    var n := ChildName(name, f.name);
    && UpsertChild(n) !in failing
    && (n in s.services ==> Claimable(s.services[n].meta, PlatformOwner(name)))
    && ServiceValid(DefaultService(BuildService(name, s.ns, p, f)))
  }

  /** Exactly when an upsert succeeds; a stored child that does not match is the one case immutability refuses. */
  lemma UpsertSucceedsIff(s: Store, name: string, p: Platform, f: Feature, failing: set<Call>)
    requires Admitted(s) && NoZombies(s)
    ensures Upsert(s, name, p, f, failing).1.Ok? <==> Accepted(s, name, p, f, failing) && Matches(s, name, p, f)
  {
    var n, spec := ChildName(name, f.name), BuildService(name, s.ns, p, f);
    DefaultingKeeps(spec);
    assert spec.port == 0 && spec.platformRef.name == name && spec.taskVolume == p.spec.objectStorage;
    if n in s.services {
      AdmittedAt(s, n);
      NeverAsBuilt(s.services[n].spec);
    }
    hide ServiceValid, DefaultService, BuildService, ChildName, SpecAdmitted;
  }

  lemma UpsertLeavesOthers(s: Store, name: string, p: Platform, f: Feature, g: Feature, failing: set<Call>)
    requires Admitted(s) && NoZombies(s)
    requires Upsert(s, name, p, f, failing).1.Ok?
    ensures var t := Upsert(s, name, p, f, failing).0;
            && (Matches(t, name, p, g) <==> Matches(s, name, p, g))
            && (Accepted(t, name, p, g, failing) <==> Accepted(s, name, p, g, failing))
  {
    UpsertSucceedsIff(s, name, p, f, failing);
    UpsertWrites(s, name, p, f, failing);
    UpsertValueConverges(s, name, p, f);
    DefaultingKeeps(BuildService(name, s.ns, p, f));
    hide Upsert, UpsertValue, ServiceValid, DefaultService, ChildName, SpecAdmitted, Admitted, NoZombies, ChildWritten, Carried, NewBorn;
  }

  /**
   * A whole upsert loop, read off the store it starts from: it succeeds exactly when each call
   * works, each existing child may be claimed and matches, and each built spec is valid.
   */
  lemma {:induction false} UpsertsSucceedIff(s: Store, name: string, p: Platform, fs: seq<Feature>, failing: set<Call>)
    requires Admitted(s) && NoZombies(s)
    ensures UpsertAll(s, name, p, fs, failing).1.Ok? <==>
              forall i :: 0 <= i < |fs| ==> Accepted(s, name, p, fs[i], failing) && Matches(s, name, p, fs[i])
    decreases |fs|
  {
    hide Upsert, Matches, Accepted, Admitted, NoZombies;
    if fs != [] {
      UpsertSucceedsIff(s, name, p, fs[0], failing);
      if Upsert(s, name, p, fs[0], failing).1.Ok? {
        var s1, rest := Upsert(s, name, p, fs[0], failing).0, fs[1..];
        UpsertKeeps(s, name, p, fs[0], failing);
        forall i | 0 <= i < |rest|
          ensures Matches(s1, name, p, rest[i]) <==> Matches(s, name, p, fs[i + 1])
          ensures Accepted(s1, name, p, rest[i], failing) <==> Accepted(s, name, p, fs[i + 1], failing)
        {
          assert rest[i] == fs[i + 1];
          UpsertLeavesOthers(s, name, p, fs[0], fs[i + 1], failing);
        }
        UpsertsSucceedIff(s1, name, p, rest, failing);
        assert forall i :: 1 <= i < |fs| ==> fs[i] == rest[i - 1];
      }
    }
  }

  // ---- over runs -----------------------------------------------------------------------------------------

  /**
   * Over every such run, whenever a platform's run is about to write its children, every existing
   * desired child would be accepted as an update exactly when its new spec is valid by itself, and
   * the whole upsert loop succeeds exactly when nothing other than immutability stands in its way.
   */
  lemma UpdatesNeverHitImmutability(ns: string, quantities: iset<string>, steps: seq<Step>, path: string, failing: set<Call>)
    requires var st := Exec(Empty(ns, quantities), steps);
             && st.platformRun.Some?
             && var r := st.platformRun.value;
             && Hyphenless(r.p.spec.features)
             && forall i, j :: 0 <= i < |r.p.spec.features| && 0 <= j < |steps| ==>
                  Faithful(steps[j], r.name, path, r.p.spec.features[i].name)
    ensures var st := Exec(Empty(ns, quantities), steps);
            var r := st.platformRun.value;
            && (forall i :: 0 <= i < |r.p.spec.features| ==>
                  var n := ChildName(r.name, r.p.spec.features[i].name);
                  n in st.store.services ==>
                    var spec := DefaultService(BuildService(r.name, ns, r.p, r.p.spec.features[i]));
                    ServiceUpdateValid(st.store.services[n].spec, spec) <==> ServiceValid(spec))
            && (UpsertAll(st.store, r.name, r.p, r.p.spec.features, failing).1.Ok? <==>
                  forall i :: 0 <= i < |r.p.spec.features| ==> Accepted(st.store, r.name, r.p, r.p.spec.features[i], failing))
  {
    var st := Exec(Empty(ns, quantities), steps);
    var r := st.platformRun.value;
    var fs := r.p.spec.features;
    hide Exec, Faithful, Accepted, UpsertAll, ChildName, ServiceValid, DefaultService, BuildService;
    Invariant(ns, quantities, steps);
    assert Admitted(st.store) && NoZombies(st.store) by { InvStore(st); }
    forall i | 0 <= i < |fs| ensures Matches(st.store, r.name, r.p, fs[i]) {
      KeySoundOverRuns(ns, quantities, steps, r.name, path, fs[i].name);
      RunMatches(st, path, i);
    }
    forall i | 0 <= i < |fs| && ChildName(r.name, fs[i].name) in st.store.services
      ensures var n, spec := ChildName(r.name, fs[i].name), DefaultService(BuildService(r.name, ns, r.p, fs[i]));
              ServiceUpdateValid(st.store.services[n].spec, spec) <==> ServiceValid(spec)
    {
      assert Matches(st.store, r.name, r.p, fs[i]);
      BuiltFixed(r.name, ns, r.p, fs[i]);
    }
    UpsertsSucceedIff(st.store, r.name, r.p, fs, failing);
  }

  lemma BuiltFixed(name: string, ns: string, p: Platform, f: Feature)
    ensures var v := DefaultService(BuildService(name, ns, p, f));
            v.platformRef.name == name && v.taskVolume.path == p.spec.objectStorage.path
  {
  }

  lemma InvStore(st: State)
    requires Inv(st)
    ensures Admitted(st.store) && NoZombies(st.store)
  {
    hide Admitted, NoZombies, ChildrenSound, PlatformsAdmitted, SelectorsMatch, JobsBalanced, UidsBelow;
  }

  lemma RunMatches(st: State, path: string, i: nat)
    requires st.platformRun.Some? && i < |st.platformRun.value.p.spec.features|
    requires KeySound(st, st.platformRun.value.name, path, st.platformRun.value.p.spec.features[i].name)
    ensures Matches(st.store, st.platformRun.value.name, st.platformRun.value.p, st.platformRun.value.p.spec.features[i])
  {
    hide ChildName, Hyphenless;
  }

  // ---- the lifetime of one object ------------------------------------------------------------------------

  lemma UpsertFixes(s: Store, name: string, p: Platform, f: Feature, failing: set<Call>, key: string)
    requires Admitted(s) && NoZombies(s) && key in s.services
    ensures var t := Upsert(s, name, p, f, failing).0;
            key in t.services && SameFixed(s.services[key], t.services[key])
  {
    var child := ChildName(name, f.name);
    if Upsert(s, name, p, f, failing).1.Ok? {
      UpsertWrites(s, name, p, f, failing);
      hide ServiceValid, DefaultService, BuildService, ChildName, UpdateService, UpsertValue;
      if child in s.services {
        UpdateInherits(s, child, Desired(s.services[child], s.ns, name, p, f), key);
      }
    }
  }

  lemma {:induction false} UpsertsFix(s: Store, name: string, p: Platform, fs: seq<Feature>, failing: set<Call>, key: string)
    requires Admitted(s) && NoZombies(s) && key in s.services
    ensures var t := UpsertAll(s, name, p, fs, failing).0;
            key in t.services && SameFixed(s.services[key], t.services[key])
    decreases |fs|
  {
    hide Upsert, Admitted, NoZombies;
    if fs != [] {
      UpsertFixes(s, name, p, fs[0], failing, key);
      UpsertKeeps(s, name, p, fs[0], failing);
      UpsertsFix(Upsert(s, name, p, fs[0], failing).0, name, p, fs[1..], failing, key);
    }
  }

  lemma FeaturesFix(s: Store, name: string, p: Platform, failing: set<Call>, reached: set<string>, key: string)
    requires Admitted(s) && NoZombies(s) && key in s.services
    ensures Inherited(s, ReconcileFeatures(s, name, p, failing, reached).0, key)
  {
    hide UpsertAll, DesiredNames, DeleteServices, Owned, Admitted, NoZombies;
    UpsertsFix(s, name, p, p.spec.features, failing, key);
    var s1 := UpsertAll(s, name, p, p.spec.features, failing).0;
    var doomed := Owned(s1, name) - DesiredNames(name, p.spec.features);
    var blocked := set n | n in doomed && DeleteChild(n) in failing;
    DeleteInherits(s1, (doomed - blocked) * reached, key);
    DeleteInherits(s1, doomed, key);
  }

  lemma ChildStageStore(st: State, step: Step, name: string)
    requires WritesChildren(st, step, name)
    ensures var r := st.platformRun.value;
            Next(st, step).store == ReconcileFeatures(st.store, name, r.p, step.pw.failing, step.pw.reached).0
  {
    hide ReconcileFeatures, P.Listing;
    assert P.STAGES[9] == P.AIService;
  }

  lemma CreateOverStored(st: State, step: Step)
    requires step.UserCreateService? && step.name in st.store.services
    ensures Next(st, step).store == st.store
  {
  }

  /** No step rewrites the immutable fields of an AIService that is stored before and after it. */
  lemma StepFixes(st: State, step: Step, key: string)
    requires Inv(st) && key in st.store.services
    ensures Inherited(st.store, Next(st, step).store, key)
  {
    hide Inv, Next, WritesChildren, DesiredNames, Admitted, NoZombies;
    StepProvenance(st, step, key);
    if step.UserCreateService? && step.name == key {
      CreateOverStored(st, step);
    } else if step.PlatformStage? && st.platformRun.Some? && WritesChildren(st, step, st.platformRun.value.name) {
      var r := st.platformRun.value;
      InvStore(st);
      ChildStageStore(st, step, r.name);
      FeaturesFix(st.store, r.name, r.p, step.pw.failing, step.pw.reached, key);
    }
  }

  /** The AIService under the key is not deleted at any point of the run. */
  ghost predicate Stays(st: State, steps: seq<Step>, key: string) {
    forall j {:trigger steps[..j]} :: 0 <= j <= |steps| ==> key in Exec(st, steps[..j]).store.services
  }

  /** Over any run during which an AIService stays stored, its immutable fields stay what they were. */
  lemma {:induction false} FixedForLife(st: State, steps: seq<Step>, key: string)
    requires Inv(st) && Stays(st, steps, key)
    ensures var u := Exec(st, steps);
            && Inv(u) && key in st.store.services && key in u.store.services
            && SameFixed(st.store.services[key], u.store.services[key])
    decreases |steps|
  {
    hide Inv, Next;
    assert steps[..0] == [] && steps[..|steps|] == steps;
    if steps != [] {
      var front, last := steps[..|steps| - 1], steps[|steps| - 1];
      forall j {:trigger front[..j]} | 0 <= j <= |front| ensures key in Exec(st, front[..j]).store.services {
        assert front[..j] == steps[..j];
      }
      FixedForLife(st, front, key);
      NextSound(Exec(st, front), last);
      StepFixes(Exec(st, front), last, key);
    }
  }

  // ---- the stranger --------------------------------------------------------------------------------------

  /**
   * From every sound state whose stored child does not match, and after any steps during which that
   * object stays stored: no call writes it, whatever platform of that name and path asks, and every
   * ReconcileFeatures with that feature fails.
   */
  lemma StrangerBlocksUpserts(st: State, steps: seq<Step>, name: string, p: Platform, f: Feature, failing: set<Call>, reached: set<string>)
    requires Inv(st) && !Matches(st.store, name, p, f) && Stays(st, steps, ChildName(name, f.name))
    ensures var u := Exec(st, steps).store;
            && Upsert(u, name, p, f, failing).0 == u && !Upsert(u, name, p, f, failing).1.Ok?
            && (f in p.spec.features ==> !ReconcileFeatures(u, name, p, failing, reached).1.Ok?)
  {
    hide Inv, Exec, Stays, ChildName, UpsertAll, Upsert, Accepted, Admitted, NoZombies;
    FixedForLife(st, steps, ChildName(name, f.name));
    var u := Exec(st, steps);
    InvStore(u);
    assert !Matches(u.store, name, p, f);
    UpsertSucceedsIff(u.store, name, p, f, failing);
    UpsertsSucceedIff(u.store, name, p, p.spec.features, failing);
  }

  /**
   * What is asked of the users is exactly what is needed: from every sound state in which the
   * child's name is free, if a user creates a valid AIService under it, then after any steps during
   * which that object stays stored an upsert of the child succeeds if and only if nothing else
   * stands in its way and the user gave it this platform's name and storage path.
   */
  lemma UserChildUpsertsIff(st: State, meta: Meta, spec: ServiceSpec, steps: seq<Step>,
                            name: string, p: Platform, f: Feature, failing: set<Call>)
    requires Inv(st) && ChildName(name, f.name) !in st.store.services && ServiceValid(DefaultService(spec))
    requires Stays(Next(st, UserCreateService(ChildName(name, f.name), meta, spec)), steps, ChildName(name, f.name))
    ensures var u := Exec(Next(st, UserCreateService(ChildName(name, f.name), meta, spec)), steps).store;
            Upsert(u, name, p, f, failing).1.Ok? <==>
              && Accepted(u, name, p, f, failing)
              && spec.platformRef.name == name && spec.taskVolume.path == p.spec.objectStorage.path
  {
    var n := ChildName(name, f.name);
    var st1 := Next(st, UserCreateService(n, meta, spec));
    UserCreates(st, n, meta, spec);
    NextSound(st, UserCreateService(n, meta, spec));
    hide Inv, Exec, Next, Stays, ChildName, Upsert, Accepted, Admitted, NoZombies, ServiceValid, DefaultService;
    FixedForLife(st1, steps, n);
    var u := Exec(st1, steps);
    InvStore(u);
    UpsertSucceedsIff(u.store, name, p, f, failing);
  }

  lemma UserCreates(st: State, n: string, meta: Meta, spec: ServiceSpec)
    requires n !in st.store.services && ServiceValid(DefaultService(spec))
    ensures var t := Next(st, UserCreateService(n, meta, spec)).store;
            && n in t.services && t.services[n].meta.controller == meta.controller
            && t.services[n].spec.platformRef == spec.platformRef && t.services[n].spec.taskVolume == spec.taskVolume
  {
    DefaultingKeeps(spec);
    hide ServiceValid, DefaultService;
  }

  /** Such an object may well be claimable: a concrete one, at the start of any run. */
  lemma ClaimableStranger(ns: string, quantities: iset<string>, name: string, meta: Meta, spec: ServiceSpec, p: Platform, f: Feature)
    requires ServiceValid(DefaultService(spec)) && meta.controller == None
    requires spec.platformRef.name != name || spec.taskVolume.path != p.spec.objectStorage.path
    ensures var st := Exec(Empty(ns, quantities), [UserCreateService(ChildName(name, f.name), meta, spec)]);
            && Inv(st) && !Matches(st.store, name, p, f)
            && ChildName(name, f.name) in st.store.services
            && Claimable(st.store.services[ChildName(name, f.name)].meta, PlatformOwner(name))
  {
    var n := ChildName(name, f.name);
    T.ExecOne(Empty(ns, quantities), UserCreateService(n, meta, spec));
    UserCreates(Empty(ns, quantities), n, meta, spec);
    Invariant(ns, quantities, [UserCreateService(n, meta, spec)]);
    hide Inv, Exec, Next, ChildName, ServiceValid, DefaultService;
  }
}
